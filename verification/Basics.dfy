/** Small shared vocabulary: optional values, outcomes, and row listings. */
module Basics {
  /** Task, worker, approval and run identifiers are text. */
  type Id = string

  /** Text that the source rejects when it is blank. */
  type Name = s: string | |s| > 0 witness "x"

  datatype Option<+T> = None | Some(value: T)

  function Last<T>(s: seq<T>): T
    requires s != []
  {
    s[|s| - 1]
  }

  ghost predicate NoDuplicates<T>(s: seq<T>) {
    forall i, j :: 0 <= i < j < |s| ==> s[i] != s[j]
  }

  lemma CardinalityOfSubset<T>(s: set<T>, t: set<T>)
    requires s <= t
    ensures |s| <= |t|
  {
    assert t == s + (t - s);
    assert |t| == |s| + |t - s|;
  }

  /** The members of `s` that are in `p`, in order. */
  function Picked<T(==,!new)>(s: seq<T>, p: set<T>): (r: seq<T>)
    ensures forall x :: x in r <==> x in s && x in p
    ensures |r| <= |s|
  {
    if s == [] then []
    else if s[0] in p then [s[0]] + Picked(s[1..], p)
    else Picked(s[1..], p)
  }

  lemma {:induction false} PickedNoDuplicates<T(!new)>(s: seq<T>, p: set<T>)
    requires NoDuplicates(s)
    ensures NoDuplicates(Picked(s, p))
  {
    if s != [] {
      PickedNoDuplicates(s[1..], p);
      assert s[0] !in s[1..];
    }
  }

  lemma TailDistinct<T>(s: seq<T>)
    requires s != [] && NoDuplicates(s)
    ensures NoDuplicates(s[1..]) && s[0] !in s[1..]
  {}

  lemma FirstIsMember<T>(s: seq<T>)
    ensures s == [] || s[0] in s
  {
    if s != [] { assert s[0] in s; }
  }
}
