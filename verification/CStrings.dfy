/** NUL-terminated strings in one block of memory, and the C library calls used on them. */
module CStrings {

  const NUL: char := '\0'

  /** The C string at p is `text`: the characters up to the next NUL. */
  ghost predicate StringAt(mem: seq<char>, p: nat, text: string) {
    p + |text| < |mem| && mem[p..p + |text|] == text && mem[p + |text|] == NUL && NUL !in text
  }

  /** What follows k characters of a string is a string, in every memory that agrees on it. */
  lemma StringTail(before: seq<char>, now: seq<char>, p: nat, text: string, k: nat)
    requires StringAt(before, p, text) && k <= |text| && |now| == |before|
    requires forall i :: p + k <= i <= p + |text| ==> now[i] == before[i]
    ensures StringAt(now, p + k, text[k..])
  {
  }

  method MemStrLen(mem: array<char>, p: nat, ghost text: string) returns (n: nat)
    requires StringAt(mem[..], p, text)
    ensures n == |text|
  {
    n := 0;
    assert forall i :: 0 <= i < |text| ==> mem[p + i] == mem[..][p..p + |text|][i] == text[i];
    while mem[p + n] != NUL
      invariant n <= |text|
      decreases |text| - n
    {
      n := n + 1;
    }
  }

  /** strchr: the first c in the string at p, if there is one. */
  method MemStrChr(mem: array<char>, p: nat, c: char, ghost text: string) returns (found: bool, at: nat)
    requires StringAt(mem[..], p, text) && c != NUL
    ensures found <==> c in text
    ensures found ==> p <= at < p + |text| && text[at - p] == c && c !in text[..at - p]
  {
    at := p;
    assert forall i :: 0 <= i < |text| ==> mem[p + i] == mem[..][p..p + |text|][i] == text[i];
    while mem[at] != NUL && mem[at] != c
      invariant p <= at <= p + |text|
      invariant c !in text[..at - p]
      decreases p + |text| - at
    {
      assert mem[at] == mem[p + (at - p)];
      assert text[..at - p + 1] == text[..at - p] + [text[at - p]];
      at := at + 1;
    }
    found := mem[at] == c;
    assert at < p + |text| ==> mem[at] == mem[p + (at - p)] == text[at - p];
    assert !found ==> text[..at - p] == text;
  }

  /** memmove: source and destination may overlap. */
  method MemMove(mem: array<char>, dst: nat, src: nat, n: nat)
    requires dst + n <= mem.Length && src + n <= mem.Length
    modifies mem
    ensures mem[dst..dst + n] == old(mem[src..src + n])
    ensures forall i :: 0 <= i < mem.Length && !(dst <= i < dst + n) ==> mem[i] == old(mem[i])
  {
    if dst <= src {
      var k := 0;
      while k < n
        invariant 0 <= k <= n
        invariant forall i :: 0 <= i < mem.Length ==>
                                mem[i] == if dst <= i < dst + k then old(mem[src + (i - dst)]) else old(mem[i])
      {
        mem[dst + k] := mem[src + k];
        k := k + 1;
      }
    } else {
      var k := n;
      while k > 0
        invariant 0 <= k <= n
        invariant forall i :: 0 <= i < mem.Length ==>
                                mem[i] == if dst + k <= i < dst + n then old(mem[src + (i - dst)]) else old(mem[i])
      {
        k := k - 1;
        mem[dst + k] := mem[src + k];
      }
    }
  }
}
