/** Values shared by every module: the optional value, identifiers and instants. */
module Prelude {

  datatype Option<+T> = None | Some(value: T)

  /** A UUID; PostgreSQL and Python both order UUIDs by their 128-bit value. */
  type Id = int

  /** An instant, or a duration, in seconds. */
  type Time = real

  function MinTime(a: Time, b: Time): Time {
    if a <= b then a else b
  }

  function MaxTime(a: Time, b: Time): Time {
    if a >= b then a else b
  }

  function MinNat(a: nat, b: nat): nat {
    if a <= b then a else b
  }

  /** The values of a map. */
  function Range(m: map<Id, Id>): set<Id> {
    set a | a in m :: m[a]
  }

  /** Removing a member that was there makes a set one smaller. */
  lemma RemoveOne<T>(s: set<T>, x: T)
    requires x in s
    ensures |s - {x}| == |s| - 1
  {
  }

  lemma SubsetSize<T>(a: set<T>, b: set<T>)
    requires a <= b
    ensures |a| <= |b|
    ensures |a| == |b| ==> a == b
  {
    assert |b| == |a| + |b - a| by { assert b == a + (b - a); }
  }
}
