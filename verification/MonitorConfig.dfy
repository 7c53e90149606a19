/**
  The type-specific settings of a monitor, and how a partial update of them is validated
  and merged into the current ones.
 */
module MonitorConfig {
  import opened Prelude

  datatype HttpMethod = Get | Head

  datatype DnsRecordType = A | AAAA | CNAME | MX | TXT

  datatype MonitorConfig =
    | Http(url: string, httpMethod: HttpMethod, expectedStatusCodes: Option<seq<int>>, bodyContains: Option<string>,
           followRedirects: bool, verifyTls: bool)
    | Tcp(host: string, port: int)
    | Dns(host: string, recordType: DnsRecordType)
    | Tls(host: string, port: int, expiryThresholdDays: int)
    | Icmp(host: string)

  /** One entry of the update: absent, null or a value. */
  datatype Entry<T> = Absent | Null | Given(value: T)

  /** An update by key; `malformed` stands for a value of the wrong type, an invalid URL or an unknown key. */
  datatype Data = Data(
    url: Entry<string>,
    httpMethod: Entry<HttpMethod>,
    expectedStatusCodes: Entry<seq<int>>,
    bodyContains: Entry<string>,
    followRedirects: Entry<bool>,
    verifyTls: Entry<bool>,
    host: Entry<string>,
    port: Entry<int>,
    recordType: Entry<DnsRecordType>,
    expiryThresholdDays: Entry<int>,
    malformed: bool)

  const NOTHING := Data(Absent, Absent, Absent, Absent, Absent, Absent, Absent, Absent, Absent, Absent, false)

  predicate NoHttp(d: Data) {
    d.url.Absent? && d.httpMethod.Absent? && d.expectedStatusCodes.Absent? && d.bodyContains.Absent? && d.followRedirects.Absent? && d.verifyTls.Absent?
  }

  predicate Between(e: Entry<int>, low: int, high: int) {
    e.Given? ==> low <= e.value <= high
  }

  predicate Long(e: Entry<string>, high: nat) {
    e.Given? ==> 1 <= |e.value| <= high
  }

  /** What the update schema of the current kind accepts: only its own keys, within their limits. */
  predicate Accepted(current: MonitorConfig, d: Data) {
    && !d.malformed
    && match current
       case Http(_, _, _, _, _, _) =>
         && d.host.Absent? && d.port.Absent? && d.recordType.Absent? && d.expiryThresholdDays.Absent?
         && (d.expectedStatusCodes.Given? ==>
               |d.expectedStatusCodes.value| >= 1 && forall k :: k in d.expectedStatusCodes.value ==> 100 <= k <= 599)
         && Long(d.bodyContains, 4096)
       case Tcp(_, _) => NoHttp(d) && d.recordType.Absent? && d.expiryThresholdDays.Absent? && Long(d.host, 255) && Between(d.port, 1, 65535)
       case Dns(_, _) => NoHttp(d) && d.port.Absent? && d.expiryThresholdDays.Absent? && Long(d.host, 253)
       case Tls(_, _, _) =>
         NoHttp(d) && d.recordType.Absent? && Long(d.host, 253) && Between(d.port, 1, 65535) && Between(d.expiryThresholdDays, 0, 365)
       case Icmp(_) => NoHttp(d) && d.port.Absent? && d.recordType.Absent? && d.expiryThresholdDays.Absent? && Long(d.host, 253)
  }

  /** Null leaves an entry as it is ... */
  function Kept<T>(e: Entry<T>, current: T): T {
    if e.Given? then e.value else current
  }

  /** ... but clears one that may be empty. */
  function Cleared<T>(e: Entry<T>, current: Option<T>): Option<T> {
    match e
    case Absent => current
    case Null => None
    case Given(value) => Some(value)
  }

  function Written(current: MonitorConfig, d: Data): MonitorConfig {
    match current
    case Http(url, httpMethod, codes, body, follow, tls) =>
      Http(Kept(d.url, url), Kept(d.httpMethod, httpMethod), Cleared(d.expectedStatusCodes, codes), Cleared(d.bodyContains, body),
           Kept(d.followRedirects, follow), Kept(d.verifyTls, tls))
    case Tcp(host, port) => Tcp(Kept(d.host, host), Kept(d.port, port))
    case Dns(host, recordType) => Dns(Kept(d.host, host), Kept(d.recordType, recordType))
    case Tls(host, port, days) => Tls(Kept(d.host, host), Kept(d.port, port), Kept(d.expiryThresholdDays, days))
    case Icmp(host) => Icmp(Kept(d.host, host))
  }

  /** A HEAD request has no body to look into. */
  predicate Consistent(c: MonitorConfig) {
    c.Http? && c.httpMethod.Head? ==> c.bodyContains.None?
  }

  /** None stands for InvalidMonitorConfigError. */
  function Merge(current: MonitorConfig, d: Data): Option<MonitorConfig> {
    if !Accepted(current, d) || !Consistent(Written(current, d)) then None else Some(Written(current, d))
  }

  // ----- two updates are one

  function Later<T>(first: Entry<T>, second: Entry<T>): Entry<T> {
    if second.Absent? then first else second
  }

  /** Where null does not clear, it does not hide an earlier value either. */
  function LaterKept<T>(first: Entry<T>, second: Entry<T>): Entry<T> {
    if second.Given? then second else if first.Absent? then second else first
  }

  /** The update that says what `first` and then `second` say. */
  function Over(first: Data, second: Data): Data {
    Data(LaterKept(first.url, second.url), LaterKept(first.httpMethod, second.httpMethod),
         Later(first.expectedStatusCodes, second.expectedStatusCodes), Later(first.bodyContains, second.bodyContains),
         LaterKept(first.followRedirects, second.followRedirects), LaterKept(first.verifyTls, second.verifyTls),
         LaterKept(first.host, second.host), LaterKept(first.port, second.port),
         LaterKept(first.recordType, second.recordType), LaterKept(first.expiryThresholdDays, second.expiryThresholdDays),
         first.malformed || second.malformed)
  }

  /**
    Two merges in a row, if the first is accepted, do what one merge of the later entries over the
    earlier ones does, rejections included; so an update repeated changes nothing more.
   */
  lemma MergesCompose(current: MonitorConfig, first: Data, second: Data)
    requires Merge(current, first).Some?
    ensures Merge(Merge(current, first).value, second) == Merge(current, Over(first, second))
    ensures Merge(Merge(current, first).value, first) == Merge(current, first)
  {
    var after := Written(current, first);
    AcceptedTogether(current, first, second);
    assert Written(after, second) == Written(current, Over(first, second));
    assert Written(after, first) == after;
    SameKindAccepts(current, first, second);
    SameKindAccepts(current, first, first);
  }

  /** A merge keeps the kind, and with it what the schema accepts. */
  lemma SameKindAccepts(current: MonitorConfig, first: Data, d: Data)
    ensures Accepted(Written(current, first), d) <==> Accepted(current, d)
  {
  }

  lemma AcceptedTogether(current: MonitorConfig, first: Data, second: Data)
    requires Accepted(current, first)
    ensures Accepted(current, Over(first, second)) <==> Accepted(current, second)
  {
  }

  /** A text to look for in the body of an answer that has none. */
  predicate LooksIntoHead(c: MonitorConfig) {
    c.Http? && c.httpMethod == Head && c.bodyContains != None
  }

  /** What is merged stays consistent, and an empty update of what is consistent changes nothing. */
  lemma MergeKeepsConsistency(current: MonitorConfig, d: Data)
    ensures Merge(current, d).Some? ==> !LooksIntoHead(Merge(current, d).value)
    ensures !LooksIntoHead(current) <==> Merge(current, NOTHING) == Some(current)
  {
  }

  // ----- what a configuration says

  function Code<T>(value: Option<T>): Entry<T> {
    if value.Some? then Given(value.value) else Null
  }

  /** A configuration written out as an update: every key of its kind, null where it may be empty and is. */
  function AsData(c: MonitorConfig): Data {
    match c
    case Http(url, httpMethod, codes, body, follow, tls) =>
      NOTHING.(url := Given(url), httpMethod := Given(httpMethod), expectedStatusCodes := Code(codes), bodyContains := Code(body),
               followRedirects := Given(follow), verifyTls := Given(tls))
    case Tcp(host, port) => NOTHING.(host := Given(host), port := Given(port))
    case Dns(host, recordType) => NOTHING.(host := Given(host), recordType := Given(recordType))
    case Tls(host, port, days) => NOTHING.(host := Given(host), port := Given(port), expiryThresholdDays := Given(days))
    case Icmp(host) => NOTHING.(host := Given(host))
  }

  /** What a merge leads to says what the later entries over the current ones say. */
  lemma MergeSaysBoth(current: MonitorConfig, d: Data)
    requires Merge(current, d).Some?
    ensures AsData(Merge(current, d).value) == Over(AsData(current), d)
  {
  }

  predicate SameKind(a: MonitorConfig, b: MonitorConfig) {
    (a.Http? && b.Http?) || (a.Tcp? && b.Tcp?) || (a.Dns? && b.Dns?) || (a.Tls? && b.Tls?) || (a.Icmp? && b.Icmp?)
  }

  /** Writing a configuration out and merging it into another one of its kind gives it back. */
  lemma WrittenOutComesBack(current: MonitorConfig, c: MonitorConfig)
    requires SameKind(current, c)
    ensures Written(current, AsData(c)) == c
    ensures WithinLimits(c) && !LooksIntoHead(c) <==> Merge(current, AsData(c)) == Some(c)
  {
  }

  /** Host names, ports, thresholds, status codes and the text to look for are within their limits. */
  predicate WithinLimits(c: MonitorConfig) {
    match c
    case Http(_, _, codes, body, _, _) =>
      && (codes.Some? ==> 0 < |codes.value| && forall code :: code in codes.value ==> 100 <= code < 600)
      && (body.Some? ==> 0 < |body.value| <= 4096)
    case Tcp(host, port) => 0 < |host| <= 255 && 0 < port < 65536
    case Dns(host, _) => 0 < |host| <= 253
    case Tls(host, port, days) => 0 < |host| <= 253 && 0 < port < 65536 && 0 <= days <= 365
    case Icmp(host) => 0 < |host| <= 253
  }

  /** The update names no key that the configuration does not have. */
  predicate OwnKeys(c: MonitorConfig, d: Data) {
    var own := AsData(c);
    && (own.url.Absent? ==> d.url.Absent?) && (own.httpMethod.Absent? ==> d.httpMethod.Absent?)
    && (own.expectedStatusCodes.Absent? ==> d.expectedStatusCodes.Absent?) && (own.bodyContains.Absent? ==> d.bodyContains.Absent?)
    && (own.followRedirects.Absent? ==> d.followRedirects.Absent?) && (own.verifyTls.Absent? ==> d.verifyTls.Absent?)
    && (own.host.Absent? ==> d.host.Absent?) && (own.port.Absent? ==> d.port.Absent?)
    && (own.recordType.Absent? ==> d.recordType.Absent?) && (own.expiryThresholdDays.Absent? ==> d.expiryThresholdDays.Absent?)
  }

  /** An update of a configuration within its limits is accepted exactly if it names own keys only and stays within them. */
  lemma MergedIff(current: MonitorConfig, d: Data)
    requires WithinLimits(current)
    ensures Merge(current, d).Some? <==>
      && !d.malformed && OwnKeys(current, d) && WithinLimits(Written(current, d))
      && !LooksIntoHead(Written(current, d))
  {
  }
}
