/** Searching and cutting sequences, shared by the models. */
module Sequences {

  function Min(a: int, b: int): int {
    if a < b then a else b
  }

  ghost predicate NoDuplicates<T>(s: seq<T>) {
    forall i, j :: 0 <= i < j < |s| ==> s[i] != s[j]
  }

  /** The first position of t, or the length when t does not occur. */
  function Find<T(==)>(ts: seq<T>, t: T): (i: nat)
    ensures i <= |ts|
    ensures t !in ts[..i]
    ensures i < |ts| ==> ts[i] == t
  {
    if ts == [] || ts[0] == t then 0
    else
      var i := 1 + Find(ts[1..], t);
      assert ts[..i] == [ts[0]] + ts[1..][..i - 1];
      i
  }

  lemma {:induction false} FindUnique<T>(ts: seq<T>, t: T, i: nat)
    requires i <= |ts| && t !in ts[..i] && (i < |ts| ==> ts[i] == t)
    ensures Find(ts, t) == i
  {
  }

  lemma Assoc<T>(a: seq<T>, b: seq<T>, c: seq<T>)
    ensures a + (b + c) == a + b + c
  {
  }

  lemma Slices<T>(s: seq<T>, a: nat, b: nat, c: nat, d: nat)
    requires a <= b <= |s| && c <= d <= b - a
    ensures s[a..b][c..d] == s[a + c..a + d]
  {
    var t := s[a..b];
    assert forall i :: 0 <= i < d - c ==> t[c..d][i] == t[c + i] == s[a + c + i] == s[a + c..a + d][i];
  }

  lemma TakeMore<T>(s: seq<T>, n: nat, m: nat)
    requires n + m <= |s|
    ensures s[..n] + s[n..][..m] == s[..n + m] && s[n..][m..] == s[n + m..]
  {
  }
}
