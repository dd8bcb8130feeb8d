/** Definitions that several components use. */
module Basics {

  datatype Option<+T> = None | Some(value: T)

  ghost predicate NoDuplicates<T>(s: seq<T>) {
    forall i, j :: 0 <= i < j < |s| ==> s[i] != s[j]
  }

  ghost function Elements<T>(s: seq<T>): set<T> {
    set x | x in s
  }

  // ---------------------------------------------------------------- removing from a sequence

  function RemoveAt<T>(s: seq<T>, i: nat): seq<T>
    requires i < |s|
  {
    s[..i] + s[i + 1..]
  }

  lemma RemoveAtIs<T>(s: seq<T>, i: nat)
    requires i < |s|
    ensures RemoveAt(s, i) == s[..i] + s[i + 1..]
    ensures |RemoveAt(s, i)| == |s| - 1
    ensures forall j :: 0 <= j < |s| - 1 ==> RemoveAt(s, i)[j] == s[if j < i then j else j + 1]
    ensures forall x :: x in s && x != s[i] ==> x in RemoveAt(s, i)
  {
    forall x | x in s && x != s[i]
      ensures x in RemoveAt(s, i)
    {
      var k :| 0 <= k < |s| && s[k] == x;
      assert RemoveAt(s, i)[if k < i then k else k - 1] == x;
    }
  }

  /** The sequence without the first occurrence of `x`. */
  function RemoveFirst<T(==)>(s: seq<T>, x: T): seq<T> {
    if s == [] then [] else if s[0] == x then s[1..] else [s[0]] + RemoveFirst(s[1..], x)
  }

  lemma {:induction false} RemoveFirstIs<T>(s: seq<T>, x: T, i: nat)
    requires i <= |s| && x !in s[..i] && (i < |s| ==> s[i] == x)
    ensures RemoveFirst(s, x) == if i < |s| then RemoveAt(s, i) else s
  {
    if i == 0 {
      assert s != [] ==> s[..0] + s[1..] == s[1..];
    } else {
      var rest := s[1..];
      assert s[..i] == [s[0]] + rest[..i - 1];
      RemoveFirstIs(rest, x, i - 1);
      assert s == [s[0]] + rest;
      assert i < |s| ==> rest[i..] == s[i + 1..];
    }
  }

  lemma RemoveFirstFinds<T>(s: seq<T>, x: T) returns (i: nat)
    requires x in s
    ensures i < |s| && s[i] == x && RemoveFirst(s, x) == RemoveAt(s, i)
  {
    i := FirstPlace(s, x);
    RemoveFirstIs(s, x, i);
  }

  lemma FirstPlace<T>(s: seq<T>, x: T) returns (i: nat)
    requires x in s
    ensures i < |s| && s[i] == x && x !in s[..i]
  {
    i := 0;
    while s[i] != x
      invariant i < |s| && x !in s[..i] && x in s[i..]
      decreases |s| - i
    {
      i := i + 1;
    }
  }

  /** The search for an element and its removal. */
  method Erase<T(==)>(s: seq<T>, x: T) returns (rest: seq<T>)
    ensures rest == RemoveFirst(s, x)
  {
    hide RemoveFirst;
    var i := 0;
    while i < |s| && s[i] != x
      invariant i <= |s| && x !in s[..i]
    {
      i := i + 1;
    }
    RemoveFirstIs(s, x, i);
    rest := if i < |s| then s[..i] + s[i + 1..] else s;
  }
}
