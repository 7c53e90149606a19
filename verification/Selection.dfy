/**
  Which rows a claim takes: the first `limit` candidates in (due time, id) order. Both
  claim statements order by that pair and limit, and both in-memory repositories sort by
  it and slice.
 */
module Selection {
  import opened Prelude

  datatype Due = Due(at: Time, id: Id)

  predicate Before(a: Due, b: Due) {
    a.at < b.at || (a.at == b.at && a.id < b.id)
  }

  predicate Ascending(s: seq<Due>) {
    forall i, j :: 0 <= i < j < |s| ==> Before(s[i], s[j])
  }

  function Elements<T>(s: seq<T>): set<T> {
    set x | x in s
  }

  /** `chosen` is the ordered list of the first `limit` members of `candidates`. */
  ghost predicate FirstOf(candidates: set<Due>, limit: nat, chosen: seq<Due>) {
    && |chosen| == MinNat(limit, |candidates|)
    && Elements(chosen) <= candidates
    && Ascending(chosen)
    && forall a, b :: a in chosen && b in candidates && b !in chosen ==> Before(a, b)
  }

  /** The clauses of FirstOf leave no choice: the claimed list is determined. */
  lemma {:induction false} FirstOfUnique(candidates: set<Due>, limit: nat, s: seq<Due>, t: seq<Due>)
    requires FirstOf(candidates, limit, s) && FirstOf(candidates, limit, t)
    ensures s == t
  {
    AgreeUpTo(candidates, limit, s, t, |s|);
  }

  lemma {:induction false} AgreeUpTo(candidates: set<Due>, limit: nat, s: seq<Due>, t: seq<Due>, n: nat)
    requires FirstOf(candidates, limit, s) && FirstOf(candidates, limit, t)
    requires n <= |s|
    ensures s[..n] == t[..n]
  {
    if n > 0 {
      AgreeUpTo(candidates, limit, s, t, n - 1);
      assert forall i :: 0 <= i < n - 1 ==> s[i] == s[..n - 1][i] == t[..n - 1][i] == t[i];
      NotEarlier(candidates, limit, s, t, n - 1);
      NotEarlier(candidates, limit, t, s, n - 1);
      assert s[n - 1] == t[n - 1];
    }
  }

  /** At the first position where two answers could differ, neither has the earlier row. */
  lemma NotEarlier(candidates: set<Due>, limit: nat, s: seq<Due>, t: seq<Due>, k: nat)
    requires FirstOf(candidates, limit, s) && FirstOf(candidates, limit, t)
    requires k < |s| && k < |t| && forall i :: 0 <= i < k ==> s[i] == t[i]
    ensures !Before(s[k], t[k])
  {
    assert s[k] in Elements(s) && t[k] in t;
    if s[k] in t {
      var j :| 0 <= j < |t| && t[j] == s[k];
      assert j >= k;
    }
  }

  /** A selection shorter than its limit is all there is. */
  lemma ShortIsAll(candidates: set<Due>, limit: nat, chosen: seq<Due>)
    requires FirstOf(candidates, limit, chosen) && |chosen| < limit
    ensures Elements(chosen) == candidates
  {
    AscendingDistinct(chosen);
    SubsetSize(Elements(chosen), candidates);
  }

  lemma AscendingDistinct(s: seq<Due>)
    requires Ascending(s)
    ensures |Elements(s)| == |s|
  {
    if s != [] {
      var init := s[..|s| - 1];
      AscendingDistinct(init);
      assert Elements(s) == Elements(init) + {s[|s| - 1]};
    }
  }

  /** A prefix of the whole sorted list is the first `limit` candidates. */
  lemma PrefixIsFirst(candidates: set<Due>, limit: nat, sorted: seq<Due>)
    requires Ascending(sorted) && Elements(sorted) == candidates
    ensures |sorted| == |candidates|
    ensures FirstOf(candidates, limit, sorted[..MinNat(limit, |sorted|)])
  {
    AscendingDistinct(sorted);
    var n := MinNat(limit, |sorted|);
    forall a, b | a in sorted[..n] && b in candidates && b !in sorted[..n] ensures Before(a, b) {
      assert b in Elements(sorted);
      var i :| 0 <= i < n && sorted[i] == a;
      var j :| 0 <= j < |sorted| && sorted[j] == b;
      assert j >= n;
    }
  }

  function Insert(x: Due, s: seq<Due>): (r: seq<Due>)
    requires Ascending(s) && x !in s
    ensures Ascending(r)
    ensures Elements(r) == Elements(s) + {x}
  {
    if s == [] then [x]
    else if Before(x, s[0]) then
      assert forall y :: y in s ==> Before(x, y);
      [x] + s
    else
      var tail := s[1..];
      var rest := Insert(x, tail);
      assert s == [s[0]] + tail;
      assert forall y :: y in rest <==> y in Elements(rest);
      assert forall y :: y in Elements(tail) <==> y in tail;
      assert forall y :: y in rest ==> Before(s[0], y);
      [s[0]] + rest
  }

  /** `list.sort(key=...)` over the candidate rows, whatever order they come in. */
  method Sort(items: set<Due>) returns (r: seq<Due>)
    ensures Ascending(r) && Elements(r) == items
  {
    r := [];
    var left := items;
    while left != {}
      invariant left <= items && Ascending(r) && Elements(r) == items - left
      decreases left
    {
      var x :| x in left;
      assert x !in Elements(r);
      r := Insert(x, r);
      left := left - {x};
    }
  }

  /** ORDER BY ... LIMIT. */
  method Oldest(candidates: set<Due>, limit: nat) returns (chosen: seq<Due>)
    ensures FirstOf(candidates, limit, chosen)
  {
    var sorted := Sort(candidates);
    PrefixIsFirst(candidates, limit, sorted);
    chosen := sorted[..MinNat(limit, |sorted|)];
  }

  /** The members of a set in some order, each once. */
  method Listed<T(==)>(all: set<T>) returns (r: seq<T>)
    ensures Elements(r) == all && |r| == |all|
    ensures forall i, j :: 0 <= i < j < |r| ==> r[i] != r[j]
  {
    r := [];
    var left := all;
    while |left| > 0
      invariant left <= all && Elements(r) == all - left && |r| + |left| == |all|
      invariant forall i, j :: 0 <= i < j < |r| ==> r[i] != r[j]
      decreases |left|
    {
      var x :| x in left;
      assert x !in Elements(r) && Elements(r + [x]) == Elements(r) + {x};
      r := r + [x];
      RemoveOne(left, x);
      left := left - {x};
    }
  }
}
