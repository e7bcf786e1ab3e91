/** Lists of paths inside one character buffer: the multiple selection of openFileDialogWinGuiA,
    ensureFilesExist, the end of tinyfd_openFileDialog, and the loop of SqliteAPI::AddFiles that
    takes the list apart.

    Memory is one array; a pointer is an index into it, and a `char *` the string up to the next
    NUL. Every index used is checked, so the contracts also say that nothing outside the buffer is
    touched. */
module FileLists {
  import opened Wrappers
  import opened Sequences
  import opened CStrings

  const BAR: char := '|'
  const MAX_MULTIPLE_FILES: nat := 32
  const MAX_PATH_OR_CMD: nat := 1024
  const BUFFER_SIZE: nat := MAX_MULTIPLE_FILES * MAX_PATH_OR_CMD

  // ---------------------------------------------------------------------------------------------
  // Lists separated by bars

  /** The pieces between the bars: one more than there are bars. */
  function Split(t: string): (names: seq<string>)
    ensures names != []
  {
    if t == [] then [[]]
    else
      var rest := Split(t[1..]);
      if t[0] == BAR then [[]] + rest else [[t[0]] + rest[0]] + rest[1..]
  }

  function Join(names: seq<string>): string
    requires names != []
  {
    if |names| == 1 then names[0] else names[0] + [BAR] + Join(names[1..])
  }

  /** Every name followed by a bar. */
  function Barred(names: seq<string>): string {
    if names == [] then [] else names[0] + [BAR] + Barred(names[1..])
  }

  lemma {:induction false} BarredSnoc(names: seq<string>, n: string)
    ensures Barred(names + [n]) == Barred(names) + n + [BAR]
    ensures Join(names + [n]) == Barred(names) + n
  {
    if names == [] {
      assert [] + [n] == [n];
      assert [n][1..] == [];
      assert [] + n == n;
    } else {
      assert (names + [n])[1..] == names[1..] + [n];
      BarredSnoc(names[1..], n);
    }
  }

  /** One name is cut off at the first bar; a text without a bar is one name. */
  lemma {:induction false} SplitName(name: string, rest: string)
    requires BAR !in name
    ensures Split(name + [BAR] + rest) == [name] + Split(rest)
    ensures Split(name) == [name]
  {
    var t := name + [BAR] + rest;
    if name == [] {
      assert t[1..] == rest;
    } else {
      assert t[1..] == name[1..] + [BAR] + rest;
      SplitName(name[1..], rest);
      assert [name[0]] + name[1..] == name;
      assert ([name[1..]] + Split(rest))[1..] == Split(rest);
    }
  }

  /** Taking apart undoes putting together, for names without a bar. */
  lemma {:induction false} SplitJoin(names: seq<string>)
    requires names != [] && forall n :: n in names ==> BAR !in n
    ensures Split(Join(names)) == names
  {
    if |names| == 1 {
      SplitName(names[0], []);
    } else {
      SplitName(names[0], Join(names[1..]));
      SplitJoin(names[1..]);
    }
  }

  /** Putting together undoes taking apart, for every text, and no piece holds a bar. */
  lemma {:induction false} JoinSplit(t: string)
    ensures Join(Split(t)) == t
    ensures forall n :: n in Split(t) ==> BAR !in n
  {
    if t != [] {
      JoinSplit(t[1..]);
      var rest := Split(t[1..]);
      assert rest[0] in rest;
      if t[0] == BAR {
        assert ([[]] + rest)[1..] == rest;
      } else {
        assert ([[t[0]] + rest[0]] + rest[1..])[1..] == rest[1..];
      }
      assert [t[0]] + t[1..] == t;
    }
  }

  predicate FileExists(fs: string -> bool, name: string) {
    name != "" && fs(name)
  }

  /** The names of existing files, in their order. */
  function Existing(fs: string -> bool, names: seq<string>): seq<string> {
    if names == [] then []
    else (if FileExists(fs, names[0]) then [names[0]] else []) + Existing(fs, names[1..])
  }

  // ---------------------------------------------------------------------------------------------
  // ensureFilesExist

  lemma {:induction false} ExistingSnoc(fs: string -> bool, names: seq<string>, n: string)
    ensures Existing(fs, names + [n]) == if FileExists(fs, n) then Existing(fs, names) + [n] else Existing(fs, names)
  {
    if names == [] {
      assert names + [n] == [n];
    } else {
      assert (names + [n])[1..] == names[1..] + [n];
      ExistingSnoc(fs, names[1..], n);
      Assoc(if FileExists(fs, names[0]) then [names[0]] else [], Existing(fs, names[1..]), [n]);
    }
  }

  lemma {:induction false} SplitNulFree(text: string)
    requires NUL !in text
    ensures forall n :: n in Split(text) ==> NUL !in n
  {
    if text != [] {
      SplitNulFree(text[1..]);
      assert Split(text[1..])[0] in Split(text[1..]);
    }
  }

  lemma {:induction false} KeptNulFree(fs: string -> bool, names: seq<string>)
    requires forall n :: n in names ==> NUL !in n
    ensures forall n :: n in Existing(fs, names) ==> n in names && FileExists(fs, n)
    ensures Existing(fs, names) != [] ==> NUL !in Join(Existing(fs, names))
  {
    if names != [] {
      var rest := Existing(fs, names[1..]);
      KeptNulFree(fs, names[1..]);
      assert ([names[0]] + rest)[1..] == rest && [] + rest == rest;
    }
  }

  /** How far compaction has come: the names in `done` are read and the next one starts at offset k
      of the text; the destination holds `bars`; the name read last is `last`. */
  datatype Progress = Progress(k: nat, done: seq<string>, bars: string, last: string)

  const START := Progress(0, [], [], [])

  function Advance(st: Progress, name: string, keep: bool): Progress {
    Progress(st.k + |name| + 1, st.done + [name], if keep then st.bars + (name + [BAR]) else st.bars, name)
  }

  ghost predicate ReadSoFar(text: string, fs: string -> bool, st: Progress) {
    && st.k <= |text| && Split(text) == st.done + Split(text[st.k..])
    && st.bars == Barred(Existing(fs, st.done))
    && st.last == if st.done == [] then [] else st.done[|st.done| - 1]
  }

  lemma BarsStep(fs: string -> bool, done: seq<string>, name: string)
    ensures var bars := Barred(Existing(fs, done));
            Barred(Existing(fs, done + [name])) == if FileExists(fs, name) then bars + (name + [BAR]) else bars
  {
    ExistingSnoc(fs, done, name);
    var kept := Existing(fs, done);
    if FileExists(fs, name) {
      BarredSnoc(kept, name);
      assert Barred(kept) + name + [BAR] == Barred(kept) + (name + [BAR]);
    }
  }

  /** The name at offset k, and the bar that ends it. */
  ghost predicate NameAt(text: string, k: nat, name: string) {
    k + |name| < |text| && name == text[k..k + |name|] && text[k + |name|] == BAR && BAR !in name
  }

  lemma NameNulFree(text: string, k: nat, name: string)
    requires NUL !in text && NameAt(text, k, name)
    ensures NUL !in name
  {
  }

  lemma SplitStep(text: string, k: nat, done: seq<string>, name: string)
    requires NameAt(text, k, name) && Split(text) == done + Split(text[k..])
    ensures Split(text) == done + [name] + Split(text[k + |name| + 1..])
  {
    var rest, more := text[k..], text[k + |name| + 1..];
    assert rest == name + [BAR] + more;
    SplitName(name, more);
    assert done + [name] + Split(more) == done + ([name] + Split(more));
  }

  lemma ReadStep(text: string, fs: string -> bool, st: Progress, name: string)
    requires ReadSoFar(text, fs, st) && NameAt(text, st.k, name)
    ensures ReadSoFar(text, fs, Advance(st, name, FileExists(fs, name)))
  {
    hide Split, Existing, Barred;
    SplitStep(text, st.k, st.done, name);
    BarsStep(fs, st.done, name);
  }

  /** There is no further bar: the rest is the last name, and the list to leave is known. */
  lemma ReadLast(text: string, fs: string -> bool, st: Progress, name: string)
    requires ReadSoFar(text, fs, st) && name == text[st.k..] && BAR !in name
    ensures var names := Split(text);
            var kept := Existing(fs, names);
            && |names| == |st.done| + 1 && (|names| > 1 ==> st.last == names[|names| - 2])
            && (FileExists(fs, name) ==> kept != [] && Join(kept) == st.bars + name)
            && (!FileExists(fs, name) ==>
                  if st.bars == [] then kept == [] else kept != [] && st.bars == Join(kept) + [BAR])
  {
    SplitName(name, []);
    ExistingSnoc(fs, st.done, name);
    var kept := Existing(fs, st.done);
    BarredSnoc(kept, name);
    if !FileExists(fs, name) {
      if kept != [] {
        assert kept[..|kept| - 1] + [kept[|kept| - 1]] == kept;
        BarredSnoc(kept[..|kept| - 1], kept[|kept| - 1]);
      }
    }
  }

  /** `now` agrees with `before` below lo and from hi on. */
  ghost predicate SameOutside(before: seq<char>, now: seq<char>, lo: nat, hi: nat) {
    |now| == |before| && (forall i :: 0 <= i < |now| && !(lo <= i < hi) ==> now[i] == before[i])
  }

  /** `next` is `now` with the text written at `at`. */
  ghost predicate Placed(now: seq<char>, next: seq<char>, at: nat, text: string) {
    at + |text| <= |now| && SameOutside(now, next, at, at + |text|) && next[at..at + |text|] == text
  }

  lemma SameOutsideStep(before: seq<char>, now: seq<char>, next: seq<char>, lo: nat, hi: nat, at: nat, text: string)
    requires SameOutside(before, now, lo, hi) && Placed(now, next, at, text) && lo <= at <= hi
    ensures SameOutside(before, next, lo, hi + |text|)
  {
  }

  /** The list written so far stands at dst, and ends before the next name to read at p. While it is
      empty, the last name read, if any was, stands there instead. */
  ghost predicate Written(now: seq<char>, dst: nat, p: nat, st: Progress) {
    && dst + |st.bars| <= p <= |now| && now[dst..dst + |st.bars|] == st.bars
    && (st.bars == [] && st.done != [] ==>
          dst + |st.last| < |now| && now[dst..dst + |st.last|] == st.last && now[dst + |st.last|] == NUL)
  }

  lemma PlacedText(now: seq<char>, next: seq<char>, dst: nat, at: nat, text: string)
    requires dst <= at && Placed(now, next, at, text)
    ensures |next| == |now| && at + |text| <= |now| && next[at..at + |text|] == text && next[dst..at] == now[dst..at]
  {
  }

  lemma SliceSplit<T>(s: seq<T>, a: nat, b: nat, c: nat)
    requires a <= b <= c <= |s|
    ensures s[a..c] == s[a..b] + s[b..c]
  {
  }

  lemma AtEnd<T>(s: seq<T>, a: nat, b: nat, front: seq<T>, c: T)
    requires a <= b < |s| && s[a..b + 1] == front + [c]
    ensures s[a..b] == front && s[b] == c
  {
    var t := s[a..b + 1];
    assert |front| == b - a && t[b - a] == s[b];
    forall i | 0 <= i < b - a
      ensures s[a + i] == front[i]
    {
      assert t[i] == (front + [c])[i];
    }
  }

  /** What stands in front of a text that is written, and the text itself. */
  lemma PlacedAfter(now: seq<char>, next: seq<char>, dst: nat, at: nat, name: string, c: char)
    requires dst <= at && Placed(now, next, at, name + [c])
    ensures |next| == |now| && at + |name| < |now|
    ensures next[at..at + |name|] == name && next[at + |name|] == c
    ensures next[dst..at + |name|] == now[dst..at] + name
    ensures next[dst..at + |name| + 1] == now[dst..at] + (name + [c])
  {
    hide Placed;
    PlacedText(now, next, dst, at, name + [c]);
    AtEnd(next, at, at + |name|, name, c);
    SliceSplit(next, dst, at, at + |name| + 1);
    SliceSplit(next, dst, at, at + |name|);
  }

  lemma WriteStep(now: seq<char>, next: seq<char>, dst: nat, p: nat, st: Progress, name: string, keep: bool)
    requires Written(now, dst, p, st) && p + |name| < |now|
    requires Placed(now, next, dst + |st.bars|, name + [if keep then BAR else NUL])
    ensures Written(next, dst, p + |name| + 1, Advance(st, name, keep))
  {
    hide Placed;
    var ld, r := dst + |st.bars|, Advance(st, name, keep);
    PlacedAfter(now, next, dst, ld, name, if keep then BAR else NUL);
    if keep {
      assert |r.bars| == |st.bars| + |name| + 1 && next[dst..dst + |r.bars|] == r.bars;
    } else {
      Prefix(st.bars, name, next, dst);
      assert next[dst..dst + |r.bars|] == r.bars;
    }
  }

  lemma Prefix(a: string, b: string, mem: seq<char>, at: nat)
    requires at + |a + b| <= |mem| && mem[at..at + |a + b|] == a + b
    ensures mem[at..at + |a|] == a
  {
    Slices(mem, at, at + |a + b|, 0, |a|);
    assert (a + b)[0..|a|] == a;
  }

  /** What the memory after compaction must be, by what was in it before. */
  ghost predicate Compacted(before: seq<char>, after: seq<char>, dst: nat, src: nat, text: string, fs: string -> bool)
  {
    var names := Split(text);
    var kept := Existing(fs, names);
    && (kept != [] ==> SameOutside(before, after, dst, src + |text| + 1) && StringAt(after, dst, Join(kept)))
    && (kept == [] ==>
          && 0 < dst <= |after| && SameOutside(before, after, dst - 1, src + |text| + 1)
          && after[dst - 1] == NUL
          && (|names| > 1 ==> StringAt(after, dst, names[|names| - 2])))
  }

  /** The end of the list: the last name with a NUL, or a NUL in place of the last bar. */
  lemma WriteEnd(now: seq<char>, next: seq<char>, dst: nat, p: nat, st: Progress, name: string, keep: bool,
                 result: string)
    requires 0 < dst && Written(now, dst, p, st) && p + |name| < |now|
    requires var ld := dst + |st.bars|;
             if keep then Placed(now, next, ld, name + [NUL]) else next == now[ld - 1 := NUL]
    requires NUL !in result && NUL !in st.last
    requires keep ==> result == st.bars + name
    requires !keep && st.bars != [] ==> st.bars == result + [BAR]
    ensures keep || st.bars != [] ==> StringAt(next, dst, result)
    ensures !keep && st.bars == [] && st.done != [] ==> StringAt(next, dst, st.last)
  {
    hide Placed;
    var ld := dst + |st.bars|;
    if keep {
      PlacedAfter(now, next, dst, ld, name, NUL);
    } else if st.bars != [] {
      AtEnd(now, dst, ld - 1, result, BAR);
      assert next[dst..ld - 1] == now[dst..ld - 1];
    } else if st.done != [] {
      assert next[dst..dst + |st.last|] == now[dst..dst + |st.last|];
    }
  }

  /** One turn of the loop: the name at p is moved down, and a bar takes the place of its NUL when
      the file exists. */
  method KeepIfExists(mem: array<char>, lDestination: nat, p: nat, lLen: nat, fs: string -> bool, ghost name: string)
    returns (next: nat)
    requires lDestination <= p && p + lLen < mem.Length && name == mem[p..p + lLen] && NUL !in name
    modifies mem
    ensures next == if FileExists(fs, name) then lDestination + lLen + 1 else lDestination
    ensures Placed(old(mem[..]), mem[..], lDestination, name + [if FileExists(fs, name) then BAR else NUL])
  {
    next := lDestination;
    MemMove(mem, lDestination, p, lLen);
    mem[lDestination + lLen] := NUL;
    assert mem[lDestination..lDestination + lLen] == name;
    var n := MemStrLen(mem, lDestination, name);
    if FileExists(fs, mem[lDestination..lDestination + n]) {
      next := next + lLen;
      mem[next] := BAR;
      next := next + 1;
    }
  }

  method MoveLast(mem: array<char>, lDestination: nat, p: nat, lLen: nat)
    requires lDestination <= p && p + lLen < mem.Length
    modifies mem
    ensures Placed(old(mem[..]), mem[..], lDestination, old(mem[p..p + lLen]) + [NUL])
  {
    MemMove(mem, lDestination, p, lLen);
    mem[lDestination + lLen] := NUL;
  }

  /** Where the loop of EnsureFilesExist stands. */
  ghost predicate Compacting(before: seq<char>, now: seq<char>, dst: nat, src: nat, text: string, fs: string -> bool,
                             st: Progress)
  {
    && SameOutside(before, now, dst, src + st.k)
    && |st.bars| <= st.k && Written(now, dst, src + st.k, st)
    && ReadSoFar(text, fs, st)
  }

  lemma CompactStart(before: seq<char>, dst: nat, src: nat, text: string, fs: string -> bool)
    requires dst <= src && src + |text| < |before|
    ensures Compacting(before, before, dst, src, text, fs, START)
  {
  }

  lemma CompactStep(before: seq<char>, now: seq<char>, dst: nat, src: nat, text: string, fs: string -> bool,
                    st: Progress, name: string, next: seq<char>)
    requires dst <= src && src + |text| < |before| && Compacting(before, now, dst, src, text, fs, st)
    requires NameAt(text, st.k, name)
    requires Placed(now, next, dst + |st.bars|, name + [if FileExists(fs, name) then BAR else NUL])
    ensures Compacting(before, next, dst, src, text, fs, Advance(st, name, FileExists(fs, name)))
  {
    hide Split, Existing, Barred;
    SameOutsideStep(before, now, next, dst, src + st.k, dst + |st.bars|, name + [if FileExists(fs, name) then BAR else NUL]);
    WriteStep(now, next, dst, src + st.k, st, name, FileExists(fs, name));
    ReadStep(text, fs, st, name);
  }

  /** The last step changes nothing outside the list, but the byte before it when nothing is kept. */
  lemma EndOutside(before: seq<char>, now: seq<char>, next: seq<char>, dst: nat, hi: nat, ld: nat, name: string, keep: bool)
    requires 1 <= dst <= ld <= hi && hi + |name| < |before| && SameOutside(before, now, dst, hi)
    requires if keep then Placed(now, next, ld, name + [NUL]) else next == now[ld - 1 := NUL]
    ensures |now| == |before| && (keep || ld > dst ==> SameOutside(before, next, dst, hi + |name| + 1))
    ensures !keep ==> SameOutside(before, next, dst - 1, hi + |name| + 1) && next[ld - 1] == NUL && |next| == |before|
  {
  }

  lemma CompactEnd(before: seq<char>, now: seq<char>, dst: nat, src: nat, text: string, fs: string -> bool,
                   st: Progress, name: string, next: seq<char>)
    requires 1 <= dst <= src && src + |text| < |before| && NUL !in text
    requires Compacting(before, now, dst, src, text, fs, st)
    requires name == text[st.k..] && BAR !in name
    requires var ld := dst + |st.bars|;
             if FileExists(fs, name) then Placed(now, next, ld, name + [NUL]) else next == now[ld - 1 := NUL]
    ensures Compacted(before, next, dst, src, text, fs)
  {
    hide SameOutside, Placed, Written, Split, Existing, Join, Barred, FileExists, StringAt;
    var names := Split(text);
    ReadLast(text, fs, st, name);
    EndOutside(before, now, next, dst, src + st.k, dst + |st.bars|, name, FileExists(fs, name));
    SplitNulFree(text);
    KeptNulFree(fs, names);
    assert |names| > 1 ==> names[|names| - 2] in names;
    var kept := Existing(fs, names);
    WriteEnd(now, next, dst, src + st.k, st, name, FileExists(fs, name), if kept == [] then [] else Join(kept));
  }

  /** What NextBar finds at p, k characters into the text: the next name, up to a bar or to the end. */
  ghost predicate FoundName(mem: seq<char>, text: string, k: nat, p: nat, found: bool, p2: nat, name: string) {
    && (found ==> NameAt(text, k, name) && p2 == p + |name| < |mem| && mem[p..p2] == name)
    && (!found ==> k <= |text| && name == text[k..] && BAR !in name && StringAt(mem, p, name))
  }

  method NextBar(mem: array<char>, ghost before: seq<char>, ghost dst: nat, ghost src: nat, ghost text: string, p: nat)
    returns (found: bool, p2: nat, ghost name: string)
    requires dst <= src <= p <= src + |text| && StringAt(before, src, text)
    requires SameOutside(before, mem[..], dst, p)
    ensures FoundName(mem[..], text, p - src, p, found, p2, name)
  {
    StringTail(before, mem[..], src, text, p - src);
    name := text[p - src..];
    found, p2 := MemStrChr(mem, p, BAR, name);
    if found {
      BarFound(mem[..], text, p - src, p, p2);
      name := name[..p2 - p];
    }
  }

  lemma BarFound(mem: seq<char>, text: string, k: nat, p: nat, p2: nat)
    requires k <= |text| && StringAt(mem, p, text[k..]) && p <= p2 < p + |text| - k
    requires text[k..][p2 - p] == BAR && BAR !in text[k..][..p2 - p]
    ensures FoundName(mem, text, k, p, true, p2, text[k..][..p2 - p])
  {
    var rest := text[k..];
    Slices(mem, p, p + |rest|, 0, p2 - p);
    assert rest[0..p2 - p] == rest[..p2 - p];
    Slices(text, k, |text|, 0, p2 - p);
    assert text[k..|text|] == rest;
  }

  /** One turn of the loop. */
  method CompactName(mem: array<char>, lDestination: nat, p: nat, lLen: nat, fs: string -> bool, ghost before: seq<char>,
                     ghost dst: nat, ghost src: nat, ghost text: string, ghost st: Progress, ghost name: string)
    returns (next: nat, ghost st': Progress)
    requires dst <= src && StringAt(before, src, text) && Compacting(before, mem[..], dst, src, text, fs, st)
    requires p == src + st.k && lDestination == dst + |st.bars|
    requires FoundName(mem[..], text, st.k, p, true, p + lLen, name)
    modifies mem
    ensures st'.k == st.k + lLen + 1 && next == dst + |st'.bars|
    ensures Compacting(before, mem[..], dst, src, text, fs, st')
  {
    hide Split, Existing, Barred, ReadSoFar, Written, SameOutside, Placed;
    ghost var now := mem[..];
    NameNulFree(text, st.k, name);
    next := KeepIfExists(mem, lDestination, p, lLen, fs, name);
    CompactStep(before, now, dst, src, text, fs, st, name, mem[..]);
    st' := Advance(st, name, FileExists(fs, name));
  }

  /** After the loop: the last name is moved down, or the last bar becomes a NUL. */
  method FinishList(mem: array<char>, lDestination: nat, p: nat, fs: string -> bool, ghost before: seq<char>,
                    ghost dst: nat, ghost src: nat, ghost text: string, ghost st: Progress, ghost name: string)
    requires 1 <= dst <= src && StringAt(before, src, text) && Compacting(before, mem[..], dst, src, text, fs, st)
    requires p == src + st.k && lDestination == dst + |st.bars|
    requires FoundName(mem[..], text, st.k, p, false, p, name)
    modifies mem
    ensures Compacted(before, mem[..], dst, src, text, fs)
  {
    hide Split, Existing, Barred, ReadSoFar, Written, SameOutside, Placed, Compacted;
    ghost var now := mem[..];
    var lLen := MemStrLen(mem, p, name);
    assert mem[p..p + lLen] == name;
    if FileExists(fs, mem[p..p + lLen]) {
      MoveLast(mem, lDestination, p, lLen);
    } else {
      mem[lDestination - 1] := NUL;
      assert mem[..] == now[lDestination - 1 := NUL];
    }
    CompactEnd(before, now, dst, src, text, fs, st, name, mem[..]);
  }

  /** What is still to be read is as it was. */
  lemma Unread(before: seq<char>, now: seq<char>, dst: nat, src: nat, text: string, fs: string -> bool, st: Progress)
    requires Compacting(before, now, dst, src, text, fs, st)
    ensures st.k <= |text| && SameOutside(before, now, dst, src + st.k)
  {
  }

  /** Compaction in place. The destination may be the source itself or lie anywhere before it.

      Whenever some listed file exists, the destination holds exactly the existing ones, in order,
      and neither what lies before it nor what follows the source text has changed. When none
      exists, the code still puts a NUL one byte before the destination, and the destination is
      left holding the last but one name, which does not exist either. */
  method EnsureFilesExist(mem: array<char>, dst: nat, src: nat, fs: string -> bool, ghost text: string)
    returns (r: Option<nat>)
    requires 1 <= dst <= src && StringAt(mem[..], src, text)
    modifies mem
    ensures text == "" ==> r == None && mem[..] == old(mem[..])
    ensures text != "" ==> r == Some(dst) && Compacted(old(mem[..]), mem[..], dst, src, text, fs)
  {
    hide Compacting, Compacted, Existing, Split, NameAt, SameOutside;
    ghost var before := mem[..];
    var lLen := MemStrLen(mem, src, text);
    if lLen == 0 {
      return None;
    }
    var lDestination, p := dst, src;
    ghost var st := START;
    CompactStart(before, dst, src, text, fs);
    Unread(before, before, dst, src, text, fs, st);
    var found, p2;
    ghost var name;
    found, p2, name := NextBar(mem, before, dst, src, text, p);
    while found
      invariant p == src + st.k && lDestination == dst + |st.bars|
      invariant Compacting(before, mem[..], dst, src, text, fs, st)
      invariant FoundName(mem[..], text, st.k, p, found, p2, name)
      decreases mem.Length - p, found
    {
      lDestination, st := CompactName(mem, lDestination, p, p2 - p, fs, before, dst, src, text, st, name);
      p := p2 + 1;
      Unread(before, mem[..], dst, src, text, fs, st);
      found, p2, name := NextBar(mem, before, dst, src, text, p);
    }
    FinishList(mem, lDestination, p, fs, before, dst, src, text, st, name);
    return Some(dst);
  }

  /** The bytes before the destination survive exactly when some listed file exists, or the byte that
      is overwritten was NUL already. */
  lemma StaysInside(before: seq<char>, after: seq<char>, dst: nat, src: nat, text: string, fs: string -> bool)
    requires 0 < dst <= |before| && Compacted(before, after, dst, src, text, fs)
    ensures after[..dst] == before[..dst] <==> Existing(fs, Split(text)) != [] || before[dst - 1] == NUL
  {
  }

  // ---------------------------------------------------------------------------------------------
  // The multiple selection of openFileDialogWinGuiA

  function Path(dir: string, name: string): string {
    dir + (['\\'] + name)
  }

  function Paths(dir: string, names: seq<string>): (paths: seq<string>)
    ensures |paths| == |names|
    ensures forall i :: 0 <= i < |names| ==> paths[i] == Path(dir, names[i])
  {
    if names == [] then [] else [Path(dir, names[0])] + Paths(dir, names[1..])
  }

  /** The list of a selection: each name behind the directory and a backslash, with bars between them. */
  lemma {:induction false} ListText(dir: string, name: string, names: seq<string>)
    ensures var list := Join(Paths(dir, [name] + names));
            if names == [] then list == dir + "\\" + name
            else list == dir + "\\" + name + "|" + Join(Paths(dir, names))
  {
    assert ([name] + names)[1..] == names;
    assert Path(dir, name) == dir + "\\" + name;
  }

  /** Every path from name j on, behind a bar: what the packing loop leaves at the end of the buffer. */
  function Packed(dir: string, names: seq<string>, j: nat): string
    requires j <= |names|
    decreases |names| - j
  {
    if j == |names| then [] else [BAR] + Path(dir, names[j]) + Packed(dir, names, j + 1)
  }

  lemma {:induction false} PackedIsJoin(dir: string, names: seq<string>, j: nat)
    requires j < |names|
    ensures Packed(dir, names, j) == [BAR] + Join(Paths(dir, names)[j..])
    decreases |names| - j
  {
    var paths := Paths(dir, names)[j..];
    assert paths[0] == Path(dir, names[j]);
    if j + 1 < |names| {
      PackedIsJoin(dir, names, j + 1);
      assert paths[1..] == Paths(dir, names)[j + 1..];
      var rest := Join(paths[1..]);
      assert [BAR] + paths[0] + ([BAR] + rest) == [BAR] + (paths[0] + [BAR] + rest);
    } else {
      assert [BAR] + paths[0] + [] == [BAR] + paths[0];
    }
  }

  /** Where name k starts, counted from the first name, when each is followed by a NUL. */
  function Start(names: seq<string>, k: nat): nat
    requires k <= |names|
  {
    if k == 0 then 0 else Start(names, k - 1) + |names[k - 1]| + 1
  }

  /** Name k of a selection is where it should be. */
  ghost predicate NameInPlace(mem: seq<char>, buf: nat, dir: string, names: seq<string>, k: nat)
    requires k < |names|
  {
    names[k] != [] && StringAt(mem, buf + |dir| + 1 + Start(names, k), names[k])
  }

  /** The buffer of a multiple selection: the directory, the names and one more NUL. */
  ghost predicate Selection(mem: seq<char>, buf: nat, dir: string, names: seq<string>) {
    && StringAt(mem, buf, dir)
    && (forall k :: 0 <= k < |names| ==> NameInPlace(mem, buf, dir, names, k))
    && buf + |dir| + 1 + Start(names, |names|) < |mem|
    && mem[buf + |dir| + 1 + Start(names, |names|)] == NUL
  }

  /** The paths still to be packed leave room for the names not yet read, and for the directory. */
  lemma {:induction false} RoomForRest(dir: string, names: seq<string>, j: nat)
    requires j <= |names|
    ensures |Packed(dir, names, 0)| >= |Packed(dir, names, j)| + Start(names, j) + if j == 0 then 0 else |dir| + 1
  {
    if j > 0 {
      RoomForRest(dir, names, j - 1);
    }
  }

  /** A copied text and a character are put in front of `from`. */
  method PutBefore(mem: array<char>, from: nat, src: nat, n: nat, c: char, ghost text: string) returns (p: nat)
    requires n < from <= mem.Length && src + n <= mem.Length && mem[src..src + n] == text
    modifies mem
    ensures p == from - n - 1 && Placed(old(mem[..]), mem[..], p, [c] + text)
  {
    p := from - n;
    MemMove(mem, p, src, n);
    p := p - 1;
    mem[p] := c;
    assert mem[p..from] == [mem[p]] + mem[p + 1..from];
  }

  lemma PlacedTwice(a: seq<char>, b: seq<char>, c: seq<char>, p: nat, first: string, second: string)
    requires Placed(a, b, p + |first|, second) && Placed(b, c, p, first)
    ensures Placed(a, c, p, first + second)
  {
  }

  /** One turn of the packing loop: a name and the directory are moved in front of what is packed. */
  method PackOne(mem: array<char>, aoBuff: nat, lBuffLen: nat, pointer: nat, length: nat, from: nat,
                 ghost dir: string, ghost name: string) returns (p: nat)
    requires StringAt(mem[..], aoBuff, dir) && lBuffLen == |dir|
    requires StringAt(mem[..], pointer, name) && length == |name|
    requires pointer + length < from <= mem.Length && aoBuff + lBuffLen + length + 2 <= from
    modifies mem
    ensures p == from - (lBuffLen + length + 2)
    ensures Placed(old(mem[..]), mem[..], p, [BAR] + Path(dir, name))
  {
    ghost var a := mem[..];
    p := PutBefore(mem, from, pointer, length, '\\', name);
    ghost var b := mem[..];
    Undisturbed(a, b, aoBuff, dir, p, from);
    p := PutBefore(mem, p, aoBuff, lBuffLen, BAR, dir);
    PlacedTwice(a, b, mem[..], p, [BAR] + dir, ['\\'] + name);
    Assoc([BAR], dir, ['\\'] + name);
  }

  /** The names found by the scan: where each of the first n starts and how long it is. */
  ghost predicate Scanned(pointers: seq<nat>, lengths: seq<nat>, first: nat, names: seq<string>, n: nat) {
    && n <= |names| < |pointers| && |names| <= |lengths|
    && (forall k :: 0 <= k <= n ==> pointers[k] == first + Start(names, k))
    && (forall k :: 0 <= k < n ==> lengths[k] == |names[k]|)
  }

  /** A NUL at the start of name k means that there is no such name. */
  lemma NamesEnd(mem: seq<char>, buf: nat, dir: string, names: seq<string>, k: nat)
    requires Selection(mem, buf, dir, names) && k <= |names|
    ensures buf + |dir| + 1 + Start(names, k) < |mem|
    ensures mem[buf + |dir| + 1 + Start(names, k)] == NUL <==> k == |names|
  {
    if k < |names| {
      var at := buf + |dir| + 1 + Start(names, k);
      assert NameInPlace(mem, buf, dir, names, k);
      assert mem[at..at + |names[k]|][0] == names[k][0];
    }
  }

  method ScanNames(mem: array<char>, lPointers: array<nat>, lLengths: array<nat>, ghost aoBuff: nat,
                   ghost dir: string, ghost names: seq<string>) returns (i: nat)
    requires Selection(mem[..], aoBuff, dir, names) && 0 < |names| < MAX_MULTIPLE_FILES
    requires lPointers.Length == lLengths.Length == MAX_MULTIPLE_FILES && lPointers != lLengths
    requires lPointers[0] == aoBuff + |dir| + 1
    modifies lPointers, lLengths
    ensures i == |names| && Scanned(lPointers[..], lLengths[..], aoBuff + |dir| + 1, names, i)
  {
    ghost var first := aoBuff + |dir| + 1;
    i := 0;
    var more := true;
    while more
      invariant i <= |names| && (more <==> i < |names|)
      invariant Scanned(lPointers[..], lLengths[..], first, names, i)
      decreases |names| - i
    {
      assert NameInPlace(mem[..], aoBuff, dir, names, i);
      lLengths[i] := MemStrLen(mem, lPointers[i], names[i]);
      lPointers[i + 1] := lPointers[i] + lLengths[i] + 1;
      i := i + 1;
      NamesEnd(mem[..], aoBuff, dir, names, i);
      more := mem[lPointers[i]] != NUL;
    }
  }

  /** What the packing loop has left at the end of the buffer once names j and later are packed. */
  ghost predicate PackedFrom(before: seq<char>, now: seq<char>, end: nat, dir: string, names: seq<string>, j: nat, p: nat)
  {
    && j <= |names| && p <= end <= |now| && SameOutside(before, now, p, end)
    && p + |Packed(dir, names, j)| + 1 == end && now[p..end] == Packed(dir, names, j) + [NUL]
  }

  lemma PackedStep(before: seq<char>, now: seq<char>, next: seq<char>, end: nat, dir: string, names: seq<string>,
                   j: nat, from: nat, p: nat)
    requires PackedFrom(before, now, end, dir, names, j + 1, from) && j < |names|
    requires Placed(now, next, p, [BAR] + Path(dir, names[j])) && p + |names[j]| + |dir| + 2 == from
    ensures PackedFrom(before, next, end, dir, names, j, p)
  {
    assert next[from..end] == now[from..end];
    assert next[p..end] == next[p..from] + next[from..end];
    assert [BAR] + Path(dir, names[j]) + (Packed(dir, names, j + 1) + [NUL])
        == [BAR] + Path(dir, names[j]) + Packed(dir, names, j + 1) + [NUL];
  }

  lemma RoomForName(dir: string, names: seq<string>, j: nat, buf: nat, from: nat)
    requires j < |names| && |Packed(dir, names, 0)| + 1 <= BUFFER_SIZE
    requires from + |Packed(dir, names, j + 1)| + 1 == buf + BUFFER_SIZE
    ensures buf + |dir| + 1 + Start(names, j) + |names[j]| < from && buf + |dir| + |names[j]| + 2 <= from
  {
    RoomForRest(dir, names, j + 1);
    RoomForRest(dir, names, j);
  }

  /** What name j and the directory need is still there, and there is room in front. */
  lemma ReadyToPack(before: seq<char>, now: seq<char>, buf: nat, dir: string, names: seq<string>, j: nat, from: nat)
    requires j < |names| && StringAt(before, buf, dir) && NameInPlace(before, buf, dir, names, j)
    requires |Packed(dir, names, 0)| + 1 <= BUFFER_SIZE
    requires SameOutside(before, now, from, buf + BUFFER_SIZE)
    requires from + |Packed(dir, names, j + 1)| + 1 == buf + BUFFER_SIZE
    ensures var at := buf + |dir| + 1 + Start(names, j);
            StringAt(now, buf, dir) && StringAt(now, at, names[j]) && at + |names[j]| < from
    ensures buf + |dir| + |names[j]| + 2 <= from
  {
    RoomForName(dir, names, j, buf, from);
    Undisturbed(before, now, buf + |dir| + 1 + Start(names, j), names[j], from, buf + BUFFER_SIZE);
    Undisturbed(before, now, buf, dir, from, buf + BUFFER_SIZE);
  }

  /** One turn of the packing loop, for name j. */
  method PackName(mem: array<char>, aoBuff: nat, lBuffLen: nat, pointer: nat, length: nat, from: nat,
                  ghost before: seq<char>, ghost dir: string, ghost names: seq<string>, ghost j: nat) returns (p: nat)
    requires j < |names| && StringAt(before, aoBuff, dir) && NameInPlace(before, aoBuff, dir, names, j)
    requires |Packed(dir, names, 0)| + 1 <= BUFFER_SIZE && lBuffLen == |dir|
    requires pointer == aoBuff + |dir| + 1 + Start(names, j) && length == |names[j]|
    requires PackedFrom(before, mem[..], aoBuff + BUFFER_SIZE, dir, names, j + 1, from)
    modifies mem
    ensures PackedFrom(before, mem[..], aoBuff + BUFFER_SIZE, dir, names, j, p)
  {
    ghost var now := mem[..];
    ReadyToPack(before, now, aoBuff, dir, names, j, from);
    p := PackOne(mem, aoBuff, lBuffLen, pointer, length, from, dir, names[j]);
    PackedStep(before, now, mem[..], aoBuff + BUFFER_SIZE, dir, names, j, from, p);
  }

  method PackNames(mem: array<char>, lPointers: array<nat>, lLengths: array<nat>, aoBuff: nat, lBuffLen: nat, i: nat,
                   ghost dir: string, ghost names: seq<string>) returns (p: nat)
    requires aoBuff + BUFFER_SIZE <= mem.Length && Selection(mem[..], aoBuff, dir, names)
    requires i == |names| && |Packed(dir, names, 0)| + 1 <= BUFFER_SIZE && lBuffLen == |dir|
    requires lPointers as object != mem && lLengths as object != mem
    requires Scanned(lPointers[..], lLengths[..], aoBuff + |dir| + 1, names, i)
    modifies mem
    ensures PackedFrom(old(mem[..]), mem[..], aoBuff + BUFFER_SIZE, dir, names, 0, p)
  {
    ghost var before := mem[..];
    ghost var pointers, lengths := lPointers[..], lLengths[..];
    p := aoBuff + BUFFER_SIZE - 1;
    mem[p] := NUL;
    assert mem[p..aoBuff + BUFFER_SIZE] == [NUL];
    var j := i;
    while j > 0
      invariant 0 <= j <= |names|
      invariant PackedFrom(before, mem[..], aoBuff + BUFFER_SIZE, dir, names, j, p)
      invariant lPointers[..] == pointers && lLengths[..] == lengths
    {
      j := j - 1;
      assert NameInPlace(before, aoBuff, dir, names, j);
      assert lPointers[j] == pointers[j] && lLengths[j] == lengths[j];
      p := PackName(mem, aoBuff, lBuffLen, lPointers[j], lLengths[j], p, before, dir, names, j);
    }
  }

  lemma PackedResult(before: seq<char>, now: seq<char>, buf: nat, dir: string, names: seq<string>, p: nat)
    requires Selection(before, buf, dir, names) && names != []
    requires PackedFrom(before, now, buf + BUFFER_SIZE, dir, names, 0, p)
    requires |Packed(dir, names, 0)| + 1 <= BUFFER_SIZE
    ensures StringAt(now, p + 1, Join(Paths(dir, names)))
    ensures buf <= p && SameOutside(before, now, buf, buf + BUFFER_SIZE)
  {
    var text := Join(Paths(dir, names));
    assert Paths(dir, names)[0..] == Paths(dir, names);
    PackedIsJoin(dir, names, 0);
    PathsNulFree(before, buf, dir, names);
    BehindBar(now, p, text);
  }

  lemma BehindBar(now: seq<char>, p: nat, text: string)
    requires NUL !in text && p + |text| + 2 <= |now| && now[p..p + |text| + 2] == [BAR] + text + [NUL]
    ensures StringAt(now, p + 1, text)
  {
    var all := now[p..p + |text| + 2];
    assert forall i :: 0 <= i <= |text| ==> now[p + 1 + i] == all[1 + i] == (text + [NUL])[i];
    assert now[p + 1 + |text|] == (text + [NUL])[|text|];
    assert forall i :: 0 <= i < |text| ==> now[p + 1..p + 1 + |text|][i] == now[p + 1 + i] == text[i];
  }

  /** The end of openFileDialogWinGuiA. A single selection stays where it is; of a multiple one, the
      list of full paths is built backwards from the end of the same buffer. No name is overwritten
      before it is read, and the directory stays intact to the last. */
  method PackSelection(mem: array<char>, aoBuff: nat, aAllowMultipleSelects: bool, ghost dir: string,
                       ghost names: seq<string>) returns (lRetval: nat)
    requires aoBuff + BUFFER_SIZE <= mem.Length && Selection(mem[..], aoBuff, dir, names)
    requires |names| < MAX_MULTIPLE_FILES && |Packed(dir, names, 0)| + 1 <= BUFFER_SIZE
    modifies mem
    ensures !aAllowMultipleSelects || names == [] ==> lRetval == aoBuff && mem[..] == old(mem[..])
    ensures aAllowMultipleSelects && names != [] ==>
              && aoBuff < lRetval && StringAt(mem[..], lRetval, Join(Paths(dir, names)))
              && SameOutside(old(mem[..]), mem[..], aoBuff, aoBuff + BUFFER_SIZE)
  {
    hide Packed, Join, Paths, NameInPlace, SameOutside, PackedFrom, Scanned;
    ghost var before := mem[..];
    var lBuffLen := MemStrLen(mem, aoBuff, dir);
    var lPointers := new nat[MAX_MULTIPLE_FILES];
    var lLengths := new nat[MAX_MULTIPLE_FILES];
    lPointers[0] := aoBuff + lBuffLen + 1;
    NamesEnd(before, aoBuff, dir, names, 0);
    if !aAllowMultipleSelects || mem[lPointers[0]] == NUL {
      return aoBuff;
    }
    var i := ScanNames(mem, lPointers, lLengths, aoBuff, dir, names);
    var p := PackNames(mem, lPointers, lLengths, aoBuff, lBuffLen, i, dir, names);
    PackedResult(before, mem[..], aoBuff, dir, names, p);
    return p + 1;
  }

  /** What lies outside of the written part is as before. */
  lemma Undisturbed(before: seq<char>, now: seq<char>, at: nat, text: string, lo: nat, hi: nat)
    requires SameOutside(before, now, lo, hi) && StringAt(before, at, text) && at + |text| < lo
    ensures StringAt(now, at, text)
  {
  }

  lemma {:induction false} PathsNulFree(mem: seq<char>, buf: nat, dir: string, names: seq<string>)
    requires names != [] && Selection(mem, buf, dir, names)
    ensures NUL !in Join(Paths(dir, names))
  {
    forall n | n in Paths(dir, names)
      ensures NUL !in n
    {
      var i :| 0 <= i < |names| && Paths(dir, names)[i] == n;
      assert NameInPlace(mem, buf, dir, names, i);
    }
    JoinNulFree(Paths(dir, names));
  }

  lemma {:induction false} JoinNulFree(names: seq<string>)
    requires names != [] && forall n :: n in names ==> NUL !in n
    ensures NUL !in Join(names)
  {
    if |names| > 1 {
      JoinNulFree(names[1..]);
    }
  }

  // ---------------------------------------------------------------------------------------------
  // From the dialog to the library: tinyfd_openFileDialog and SqliteAPI::AddFiles

  /** What tinyfd_openFileDialog does with the string p that the dialog left in the buffer. */
  method CheckSelection(mem: array<char>, lBuff: nat, p: nat, aAllowMultipleSelects: bool, fs: string -> bool,
                        ghost text: string) returns (r: Option<nat>)
    requires 1 <= lBuff <= p && StringAt(mem[..], p, text)
    modifies mem
    ensures text == "" ==> r == None
    ensures text != "" && !(aAllowMultipleSelects && BAR in text) ==>
              r == (if FileExists(fs, text) then Some(p) else None) && mem[..] == old(mem[..])
    ensures text != "" && aAllowMultipleSelects && BAR in text ==>
              r == Some(lBuff) && Compacted(old(mem[..]), mem[..], lBuff, p, text, fs)
  {
    var len := MemStrLen(mem, p, text);
    if len == 0 {
      return None;
    }
    var bar := false;
    if aAllowMultipleSelects {
      var at;
      bar, at := MemStrChr(mem, p, BAR, text);
    }
    if bar {
      r := EnsureFilesExist(mem, lBuff, p, fs, text);
    } else {
      assert mem[p..p + len] == text;
      r := if FileExists(fs, mem[p..p + len]) then Some(p) else None;
    }
  }

  /** The files AddFiles stores for a list: of the last one it does not ask whether it could be read. */
  function Stored(readable: string -> bool, names: seq<string>): seq<string>
    requires names != []
  {
    if |names| == 1 then (if names[0] != [] then names else [])
    else (if readable(names[0]) then [names[0]] else []) + Stored(readable, names[1..])
  }

  /** The names that can be read, in their order. */
  function Readable(readable: string -> bool, names: seq<string>): seq<string> {
    if names == [] then []
    else (if readable(names[0]) then [names[0]] else []) + Readable(readable, names[1..])
  }

  /** Stored are the readable ones of all names but the last, and the last unless it is empty. */
  lemma {:induction false} StoredMeaning(readable: string -> bool, names: seq<string>)
    requires names != []
    ensures var last := names[|names| - 1];
            Stored(readable, names) == Readable(readable, names[..|names| - 1]) + if last != "" then [last] else []
  {
    if |names| > 1 {
      var rest := names[1..];
      StoredMeaning(readable, rest);
      assert names[..|names| - 1][1..] == rest[..|rest| - 1];
      Assoc(if readable(names[0]) then [names[0]] else [], Readable(readable, rest[..|rest| - 1]),
            if rest[|rest| - 1] != "" then [rest[|rest| - 1]] else []);
    }
  }

  lemma {:induction false} ReadableSize(readable: string -> bool, names: seq<string>)
    ensures |Readable(readable, names)| <= |names|
    ensures |Readable(readable, names)| == |names| <==> forall i :: 0 <= i < |names| ==> readable(names[i])
    ensures |Readable(readable, names)| == |names| ==> Readable(readable, names) == names
    ensures forall n :: n in Readable(readable, names) ==> readable(n)
  {
    if names != [] {
      ReadableSize(readable, names[1..]);
      assert names == [names[0]] + names[1..];
    }
  }

  /** Every stored name can be read exactly when the last one is empty or can be read. */
  lemma StoredReadable(readable: string -> bool, names: seq<string>)
    requires names != []
    ensures (forall i :: 0 <= i < |Stored(readable, names)| ==> readable(Stored(readable, names)[i])) <==>
            names[|names| - 1] == "" || readable(names[|names| - 1])
  {
    var front, last := names[..|names| - 1], names[|names| - 1];
    var kept := Readable(readable, front);
    StoredMeaning(readable, names);
    ReadableSize(readable, front);
    assert forall i :: 0 <= i < |kept| ==> kept[i] in kept;
    assert last != "" ==> Stored(readable, names)[|kept|] == last;
  }

  /** All names are stored exactly when all but the last can be read and the last is not empty. */
  lemma StoredAll(readable: string -> bool, names: seq<string>)
    requires names != []
    ensures Stored(readable, names) == names <==>
            names[|names| - 1] != "" && forall i :: 0 <= i < |names| - 1 ==> readable(names[i])
    ensures |Stored(readable, names)| <= |names|
  {
    var front := names[..|names| - 1];
    StoredMeaning(readable, names);
    ReadableSize(readable, front);
    assert names == front + [names[|names| - 1]];
    assert forall i :: 0 <= i < |front| ==> front[i] == names[i];
  }

  /** All names are kept exactly when all their files exist. */
  lemma {:induction false} ExistingAll(fs: string -> bool, names: seq<string>)
    ensures |Existing(fs, names)| <= |names|
    ensures Existing(fs, names) == names <==> forall i :: 0 <= i < |names| ==> FileExists(fs, names[i])
    ensures Existing(fs, names) != names ==> |Existing(fs, names)| < |names|
    ensures forall n :: n in Existing(fs, names) ==> FileExists(fs, n)
  {
    if names != [] {
      ExistingAll(fs, names[1..]);
      assert names == [names[0]] + names[1..];
    }
  }

  lemma {:induction false} StoredWithin(readable: string -> bool, names: seq<string>)
    requires names != []
    ensures forall n :: n in Stored(readable, names) ==> n in names
  {
    if |names| > 1 {
      StoredWithin(readable, names[1..]);
    }
  }

  /** What a selection of these paths stores: of those that exist; and if none does, the last but one. */
  function Added(fs: string -> bool, readable: string -> bool, paths: seq<string>): seq<string>
    requires |paths| >= 2
  {
    var kept := Existing(fs, paths);
    if kept != [] then Stored(readable, kept) else [paths[|paths| - 2]]
  }

  lemma {:induction false} ExistingConcat(fs: string -> bool, a: seq<string>, b: seq<string>)
    ensures Existing(fs, a + b) == Existing(fs, a) + Existing(fs, b)
  {
    if a == [] {
      assert a + b == b;
    } else {
      assert (a + b)[1..] == a[1..] + b;
      ExistingConcat(fs, a[1..], b);
      Assoc(if FileExists(fs, a[0]) then [a[0]] else [], Existing(fs, a[1..]), Existing(fs, b));
    }
  }

  lemma {:induction false} ReadableConcat(readable: string -> bool, a: seq<string>, b: seq<string>)
    ensures Readable(readable, a + b) == Readable(readable, a) + Readable(readable, b)
  {
    if a == [] {
      assert a + b == b;
    } else {
      assert (a + b)[1..] == a[1..] + b;
      ReadableConcat(readable, a[1..], b);
      Assoc(if readable(a[0]) then [a[0]] else [], Readable(readable, a[1..]), Readable(readable, b));
    }
  }

  /** Which names are kept, one by one and in their order: those of existing files, and those that can be
      read. */
  lemma KeptInOrder(fs: string -> bool, readable: string -> bool, a: seq<string>, b: seq<string>, n: string)
    ensures Existing(fs, a + b) == Existing(fs, a) + Existing(fs, b)
    ensures Readable(readable, a + b) == Readable(readable, a) + Readable(readable, b)
    ensures Existing(fs, [n]) == if n != "" && fs(n) then [n] else []
    ensures Readable(readable, [n]) == if readable(n) then [n] else []
  {
    assert [n][1..] == [];
    ExistingConcat(fs, a, b);
    ReadableConcat(readable, a, b);
  }

  /** When some file exists, stored are the readable ones of all existing files but the last, and the last
      in any case; otherwise the last name but one, whatever it is. */
  lemma AddedMeaning(fs: string -> bool, readable: string -> bool, paths: seq<string>)
    requires |paths| >= 2
    ensures var kept, added := Existing(fs, paths), Added(fs, readable, paths);
            if kept == [] then added == [paths[|paths| - 2]]
            else added == Readable(readable, kept[..|kept| - 1]) + [kept[|kept| - 1]]
  {
    hide Stored, Existing, Readable;
    var kept := Existing(fs, paths);
    if kept != [] {
      ExistingAll(fs, paths);
      assert kept[|kept| - 1] in kept;
      StoredMeaning(readable, kept);
    }
  }

  /** The selection is stored as it is exactly when every file exists and all but the last can be read;
      and only files that exist are stored exactly when there is one. */
  lemma AddedAll(fs: string -> bool, readable: string -> bool, paths: seq<string>)
    requires |paths| >= 2
    ensures Added(fs, readable, paths) == paths <==>
            && (forall i :: 0 <= i < |paths| ==> FileExists(fs, paths[i]))
            && (forall i :: 0 <= i < |paths| - 1 ==> readable(paths[i]))
    ensures (forall n :: n in Added(fs, readable, paths) ==> FileExists(fs, n)) <==>
            exists i :: 0 <= i < |paths| && FileExists(fs, paths[i])
  {
    hide Stored, Existing;
    var kept := Existing(fs, paths);
    ExistingAll(fs, paths);
    ExistingNone(fs, paths);
    if kept != [] {
      StoredAll(readable, kept);
      StoredWithin(readable, kept);
    } else {
      assert paths[|paths| - 2] in Added(fs, readable, paths);
    }
  }

  lemma {:induction false} ExistingNone(fs: string -> bool, names: seq<string>)
    ensures Existing(fs, names) == [] <==> forall i :: 0 <= i < |names| ==> !FileExists(fs, names[i])
  {
    if names != [] {
      ExistingNone(fs, names[1..]);
      assert names == [names[0]] + names[1..];
    }
  }

  /** The names of a text of which the characters `acc` of the first name are already read. */
  function SplitFrom(acc: string, rest: string): (names: seq<string>)
    ensures names != []
  {
    [acc + Split(rest)[0]] + Split(rest)[1..]
  }

  lemma SplitFromStep(acc: string, c: char, rest: string)
    ensures SplitFrom(acc, [c] + rest) == if c == BAR then [acc] + SplitFrom([], rest) else SplitFrom(acc + [c], rest)
    ensures SplitFrom([], rest) == Split(rest) && SplitFrom(acc, []) == [acc]
  {
    hide Split;
    var more := Split(rest);
    SplitHead(c, rest);
    assert [] + more[0] == more[0] && [more[0]] + more[1..] == more;
    assert acc + [] == acc;
    if c != BAR {
      assert acc + ([c] + more[0]) == acc + [c] + more[0];
    }
  }

  lemma SplitHead(c: char, rest: string)
    ensures var more, names := Split(rest), Split([c] + rest);
            if c == BAR then names[0] == [] && names[1..] == more else names[0] == [c] + more[0] && names[1..] == more[1..]
    ensures Split([]) == [[]]
  {
    assert ([c] + rest)[1..] == rest;
  }

  /** What is still to be stored when `acc` is read and the text from offset k on is not. */
  function StillToStore(readable: string -> bool, acc: string, text: string, k: nat): seq<string>
    requires k <= |text|
  {
    Stored(readable, SplitFrom(acc, text[k..]))
  }

  lemma StoreStep(readable: string -> bool, acc: string, text: string, k: nat)
    requires k < |text|
    ensures StillToStore(readable, acc, text, k) ==
            if text[k] == BAR then (if readable(acc) then [acc] else []) + StillToStore(readable, [], text, k + 1)
            else StillToStore(readable, acc + [text[k]], text, k + 1)
  {
    var rest := text[k + 1..];
    var more := SplitFrom([], rest);
    assert text[k..] == [text[k]] + rest;
    SplitFromStep(acc, text[k], rest);
    assert ([acc] + more)[1..] == more;
  }

  lemma StoreEnds(readable: string -> bool, acc: string, text: string)
    ensures StillToStore(readable, [], text, 0) == Stored(readable, Split(text))
    ensures StillToStore(readable, acc, text, |text|) == if acc != [] then [acc] else []
  {
    assert text[0..] == text && text[|text|..] == [];
    SplitFromStep(acc, NUL, text);
  }

  /** The loop of AddFiles, which takes the list apart character by character. */
  method TakeApart(mem: array<char>, p: nat, readable: string -> bool, ghost text: string) returns (added: seq<string>)
    requires StringAt(mem[..], p, text)
    ensures added == Stored(readable, Split(text))
    ensures var names := Split(text);
            && (added == names <==>
                  names[|names| - 1] != "" && forall i :: 0 <= i < |names| - 1 ==> readable(names[i]))
            && ((forall i :: 0 <= i < |added| ==> readable(added[i])) <==>
                  names[|names| - 1] == "" || readable(names[|names| - 1]))
  {
    hide Stored, SplitFrom, Split, StillToStore;
    added := [];
    var ss := "";
    var k := 0;
    StoreEnds(readable, [], text);
    assert forall i :: 0 <= i < |text| ==> mem[p + i] == mem[..][p..p + |text|][i] == text[i];
    while mem[p + k] != NUL
      invariant 0 <= k <= |text|
      invariant added + StillToStore(readable, ss, text, k) == Stored(readable, Split(text))
      decreases |text| - k
    {
      StoreStep(readable, ss, text, k);
      if mem[p + k] == BAR {
        ghost var still := StillToStore(readable, [], text, k + 1);
        Assoc(added, if readable(ss) then [ss] else [], still);
        if readable(ss) {
          added := added + [ss];
        } else {
          assert added + [] == added;
        }
        ss := "";
      } else {
        ss := ss + [mem[p + k]];
      }
      k := k + 1;
    }
    StoreEnds(readable, ss, text);
    if |ss| > 0 {
      added := added + [ss];
    }
    StoredSays(readable, Split(text), added);
  }

  lemma StoredSays(readable: string -> bool, names: seq<string>, added: seq<string>)
    requires names != [] && added == Stored(readable, names)
    ensures added == names <==>
            names[|names| - 1] != "" && forall i :: 0 <= i < |names| - 1 ==> readable(names[i])
    ensures (forall i :: 0 <= i < |added| ==> readable(added[i])) <==>
            names[|names| - 1] == "" || readable(names[|names| - 1])
  {
    StoredAll(readable, names);
    StoredReadable(readable, names);
  }

  /** A multiple selection on its way into the library. When none of the names holds a bar, exactly
      the existing files are offered, in order, each under its full path; those that can be read are
      stored, and the last one in any case. When no selected file exists, what is stored is the last
      path but one. The paths selected are stored as they are exactly when all exist and all but the
      last can be read. */
  method AddSelection(mem: array<char>, lBuff: nat, fs: string -> bool, readable: string -> bool,
                      ghost dir: string, ghost names: seq<string>) returns (added: seq<string>)
    requires 1 <= lBuff && lBuff + BUFFER_SIZE <= mem.Length && Selection(mem[..], lBuff, dir, names)
    requires 2 <= |names| < MAX_MULTIPLE_FILES && |Packed(dir, names, 0)| + 1 <= BUFFER_SIZE
    requires BAR !in dir && forall n :: n in names ==> BAR !in n
    modifies mem
    ensures var paths := Paths(dir, names);
            && added == Added(fs, readable, paths)
            && (added == paths <==>
                  && (forall i :: 0 <= i < |paths| ==> FileExists(fs, paths[i]))
                  && (forall i :: 0 <= i < |paths| - 1 ==> readable(paths[i])))
            && ((forall n :: n in added ==> FileExists(fs, n)) <==>
                  exists i :: 0 <= i < |paths| && FileExists(fs, paths[i]))
  {
    hide Split, Join, Stored, Packed, Selection, SameOutside, StringAt, Existing;
    ghost var paths := Paths(dir, names);
    ghost var text := Join(paths);
    ghost var kept := Existing(fs, paths);
    var p := PackSelection(mem, lBuff, true, dir, names);
    BarFree(dir, names);
    SplitJoin(paths);
    var r := CheckSelection(mem, lBuff, p, true, fs, text);
    ghost var list := if kept != [] then kept else [paths[|paths| - 2]];
    ExistingBarFree(fs, paths);
    assert paths[|paths| - 2] in paths;
    SplitJoin(list);
    assert Path(dir, names[|paths| - 2]) == paths[|paths| - 2];
    LoneName(readable, paths[|paths| - 2]);
    added := [];
    if r.Some? {
      added := TakeApart(mem, r.value, readable, Join(list));
    }
    AddedAll(fs, readable, paths);
  }

  lemma LoneName(readable: string -> bool, name: string)
    requires name != []
    ensures Join([name]) == name && Stored(readable, [name]) == [name]
  {
  }

  lemma BarFree(dir: string, names: seq<string>)
    requires BAR !in dir && (forall n :: n in names ==> BAR !in n) && |names| >= 2
    ensures forall n :: n in Paths(dir, names) ==> BAR !in n
    ensures Join(Paths(dir, names)) != "" && BAR in Join(Paths(dir, names))
  {
  }

  lemma {:induction false} ExistingBarFree(fs: string -> bool, names: seq<string>)
    requires forall n :: n in names ==> BAR !in n
    ensures forall n :: n in Existing(fs, names) ==> BAR !in n
  {
    if names != [] {
      ExistingBarFree(fs, names[1..]);
    }
  }
}
