/** The parameter list of a request command: AbstractMessageHandler::GetParams.

    GetParams reads the text after the first '?' one character at a time. `Parse` says what it
    must return without any of its flags: the text is read into tokens, the tokens are cut at the
    delimiters, and the first value given for a key is the one kept. */
module Params {
  import opened Wrappers
  import opened Sequences

  datatype Token = Char(c: char) | Eq | Amp

  datatype Pair = Pair(key: string, value: string)

  /** The tokens of a text. A backslash makes the next character an ordinary one, and a
      backslash at the very end stands for nothing. */
  function Lex(s: string, escaped: bool): seq<Token> {
    if s == [] then []
    else if escaped then [Char(s[0])] + Lex(s[1..], false)
    else if s[0] == '\\' then Lex(s[1..], true)
    else if s[0] == '=' then [Eq] + Lex(s[1..], false)
    else if s[0] == '&' then [Amp] + Lex(s[1..], false)
    else [Char(s[0])] + Lex(s[1..], false)
  }

  /** The ordinary characters before the first d: the other delimiter is ignored there. */
  function Before(ts: seq<Token>, d: Token): string {
    if ts == [] || ts[0] == d then []
    else (if ts[0].Char? then [ts[0].c] else []) + Before(ts[1..], d)
  }

  /** What follows the first d. */
  function After(ts: seq<Token>, d: Token): (rest: seq<Token>)
    ensures d in ts ==> |rest| < |ts|
  {
    if ts == [] then [] else if ts[0] == d then ts[1..] else After(ts[1..], d)
  }

  /** The pairs of a token sequence: a key runs to the next '=', a value to the next '&' or to the
      end, and what follows the last complete key is dropped. `acc` is the part of the key that was
      already read. */
  function KeyFirst(acc: string, ts: seq<Token>): seq<Pair>
    decreases |ts|
  {
    if Eq in ts then ValueFirst(acc + Before(ts, Eq), [], After(ts, Eq)) else []
  }

  function ValueFirst(key: string, acc: string, ts: seq<Token>): seq<Pair>
    decreases |ts|
  {
    [Pair(key, acc + Before(ts, Amp))] + if Amp in ts then KeyFirst([], After(ts, Amp)) else []
  }

  /** The map in which the first value given for a key wins. */
  function FirstWins(pairs: seq<Pair>): map<string, string> {
    if pairs == [] then map[] else FirstWins(pairs[1..])[pairs[0].key := pairs[0].value]
  }

  function Parse(command: string): map<string, string> {
    var start := Find(command, '?');
    if start == |command| then map[] else FirstWins(KeyFirst([], Lex(command[start + 1..], false)))
  }

  /** What the map holds, in terms of positions in the list of pairs. */
  lemma {:induction false} FirstWinsMeaning(pairs: seq<Pair>)
    ensures forall k :: k in FirstWins(pairs) <==> exists i :: 0 <= i < |pairs| && pairs[i].key == k
    ensures forall i :: 0 <= i < |pairs| && (forall j :: 0 <= j < i ==> pairs[j].key != pairs[i].key)
                        ==> FirstWins(pairs)[pairs[i].key] == pairs[i].value
  {
    if pairs != [] {
      FirstWinsMeaning(pairs[1..]);
      forall k
        ensures k in FirstWins(pairs) <==> exists i :: 0 <= i < |pairs| && pairs[i].key == k
      {
        if k in FirstWins(pairs[1..]) {
          var i :| 0 <= i < |pairs[1..]| && pairs[1..][i].key == k;
          assert pairs[i + 1].key == k;
        }
        if i :| 0 <= i < |pairs| && pairs[i].key == k && i > 0 {
          assert pairs[1..][i - 1].key == k;
        }
      }
      forall i | 0 <= i < |pairs| && (forall j :: 0 <= j < i ==> pairs[j].key != pairs[i].key)
        ensures FirstWins(pairs)[pairs[i].key] == pairs[i].value
      {
        if i > 0 {
          assert pairs[0].key != pairs[i].key;
          assert pairs[1..][i - 1] == pairs[i];
          assert forall j :: 0 <= j < i - 1 ==> pairs[1..][j].key == pairs[j + 1].key;
        }
      }
    }
  }

  // ---------------------------------------------------------------------------------------------
  // One token at a time

  /** Cutting at d when another token stands in front. */
  lemma CutStep(acc: string, d: Token, t: Token, ts: seq<Token>)
    requires t != d && !d.Char?
    ensures acc + Before([t] + ts, d) == (if t.Char? then acc + [t.c] else acc) + Before(ts, d)
    ensures After([t] + ts, d) == After(ts, d)
  {
  }

  lemma CutHere(acc: string, d: Token, ts: seq<Token>)
    ensures acc + Before([d] + ts, d) == acc && After([d] + ts, d) == ts
  {
  }

  lemma KeyStep(acc: string, t: Token, ts: seq<Token>)
    ensures KeyFirst(acc, [t] + ts) ==
            match t
            case Char(c) => KeyFirst(acc + [c], ts)
            case Eq => ValueFirst(acc, [], ts)
            case Amp => KeyFirst(acc, ts)
  {
    if t == Eq {
      CutHere(acc, t, ts);
    } else {
      CutStep(acc, Eq, t, ts);
    }
  }

  lemma ValueStep(key: string, acc: string, t: Token, ts: seq<Token>)
    ensures ValueFirst(key, acc, [t] + ts) ==
            match t
            case Char(c) => ValueFirst(key, acc + [c], ts)
            case Eq => ValueFirst(key, acc, ts)
            case Amp => [Pair(key, acc)] + KeyFirst([], ts)
  {
    if t == Amp {
      CutHere(acc, t, ts);
    } else {
      CutStep(acc, Amp, t, ts);
    }
  }

  /** The pairs still to be added when the reader is at position i. */
  ghost function Pending(key: bool, keyVal: string, acc: string, backslash: bool, command: string, i: nat): seq<Pair>
    requires i <= |command|
  {
    var ts := Lex(command[i..], backslash);
    if key then KeyFirst(acc, ts) else ValueFirst(keyVal, acc, ts)
  }

  lemma TokenStep(key: bool, keyVal: string, acc: string, backslash: bool, command: string, i: nat, t: Token)
    requires i < |command|
    requires Lex(command[i..], backslash) == [t] + Lex(command[i + 1..], false)
    ensures Pending(key, keyVal, acc, backslash, command, i) ==
            match t
            case Char(c) => Pending(key, keyVal, acc + [c], false, command, i + 1)
            case Eq => if key then Pending(false, acc, [], false, command, i + 1)
                       else Pending(key, keyVal, acc, false, command, i + 1)
            case Amp => if key then Pending(key, keyVal, acc, false, command, i + 1)
                        else [Pair(keyVal, acc)] + Pending(true, keyVal, [], false, command, i + 1)
  {
    var ts := Lex(command[i + 1..], false);
    if key {
      KeyStep(acc, t, ts);
    } else {
      ValueStep(keyVal, acc, t, ts);
    }
  }

  /** One turn of the loop of GetParams. */
  lemma ReadChar(key: bool, keyVal: string, acc: string, backslash: bool, command: string, i: nat)
    requires i < |command|
    ensures Pending(key, keyVal, acc, backslash, command, i) ==
            var c := command[i];
            if c == '\\' && !backslash then Pending(key, keyVal, acc, true, command, i + 1)
            else if backslash || (c != '=' && c != '&') then Pending(key, keyVal, acc + [c], false, command, i + 1)
            else if c == '=' then
              if key then Pending(false, acc, [], false, command, i + 1)
              else Pending(key, keyVal, acc, false, command, i + 1)
            else
              if key then Pending(key, keyVal, acc, false, command, i + 1)
              else [Pair(keyVal, acc)] + Pending(true, keyVal, [], false, command, i + 1)
  {
    var c := command[i];
    assert command[i..][1..] == command[i + 1..];
    if !(c == '\\' && !backslash) {
      TokenStep(key, keyVal, acc, backslash, command, i,
                if backslash then Char(c) else if c == '=' then Eq else if c == '&' then Amp else Char(c));
    }
  }

  lemma ReadEnds(key: bool, keyVal: string, acc: string, backslash: bool, command: string)
    ensures Pending(key, keyVal, acc, backslash, command, |command|) == if key then [] else [Pair(keyVal, acc)]
  {
    assert command[|command|..] == [];
    assert acc + [] == acc;
  }

  method GetParams(command: string) returns (m: map<string, string>)
    ensures m == Parse(command)
  {
    m := map[];
    var start := 0;
    while start < |command| && command[start] != '?'
      invariant 0 <= start <= |command|
      invariant '?' !in command[..start]
    {
      start := start + 1;
    }
    FindUnique(command, '?', start);
    if start < |command| {
      m := ReadPairs(command, start + 1);
    }
  }

  /** The loop of GetParams. */
  method ReadPairs(command: string, first: nat) returns (m: map<string, string>)
    requires first <= |command|
    ensures m == FirstWins(KeyFirst([], Lex(command[first..], false)))
  {
    hide Pending, FirstWins, Lex, KeyFirst;
    m := map[];
    var ss := "";
    var key := true;
    var keyVal := "";
    var backslash := false;
    var i := first;
    NothingRead(command, first);
    while i < |command|
      invariant first <= i <= |command|
      invariant FirstWins(Pending(key, keyVal, ss, backslash, command, i)) + m ==
                FirstWins(KeyFirst([], Lex(command[first..], false)))
    {
      var chr := command[i];
      ReadChar(key, keyVal, ss, backslash, command, i);
      i := i + 1;
      if chr == '\\' && !backslash {
        backslash := true;
        continue;
      }
      if backslash {
        backslash := false;
        ss := ss + [chr];
        continue;
      }
      match chr {
        case '=' =>
          if key {
            keyVal, ss, key := ss, "", false;
          }
        case '&' =>
          if !key {
            InsertKeepsFirst(m, Pair(keyVal, ss), Pending(true, keyVal, [], false, command, i));
            m := KeepFirst(m, keyVal, ss);
            ss, key := "", true;
          }
        case _ =>
          ss := ss + [chr];
      }
    }
    ReadEnds(key, keyVal, ss, backslash, command);
    if !key {
      assert [Pair(keyVal, ss)] + [] == [Pair(keyVal, ss)];
      InsertKeepsFirst(m, Pair(keyVal, ss), []);
      m := KeepFirst(m, keyVal, ss);
    }
  }

  lemma NothingRead(command: string, first: nat)
    requires first <= |command|
    ensures FirstWins(Pending(true, "", "", false, command, first)) + map[] ==
            FirstWins(KeyFirst([], Lex(command[first..], false)))
    ensures FirstWins([]) == map[]
  {
  }

  /** std::unordered_map::insert: a key that is there already keeps its value. */
  function KeepFirst(m: map<string, string>, key: string, value: string): map<string, string> {
    if key in m then m else m[key := value]
  }

  lemma InsertKeepsFirst(m: map<string, string>, p: Pair, rest: seq<Pair>)
    ensures FirstWins([p] + rest) + m == FirstWins(rest) + KeepFirst(m, p.key, p.value)
  {
  }

  // ---------------------------------------------------------------------------------------------
  // Printing and reading back

  /** A character of a key or a value: an ordinary one as it stands, any one behind a backslash, or a
      mark that is ignored where it stands: '&' in a key and '=' in a value. */
  datatype Piece = Plain(c: char) | Escaped(c: char) | Stray

  datatype Entry = Entry(key: seq<Piece>, value: seq<Piece>)

  predicate Proper(ps: seq<Piece>) {
    forall i :: 0 <= i < |ps| && ps[i].Plain? ==> ps[i].c !in {'\\', '&', '='}
  }

  predicate ProperText(entries: seq<Entry>, tail: Option<seq<Piece>>) {
    (forall i :: 0 <= i < |entries| ==> Proper(entries[i].key) && Proper(entries[i].value)) &&
    (tail.Some? ==> Proper(tail.value))
  }

  function Written(ps: seq<Piece>, mark: char): string {
    if ps == [] then [] else PieceText(ps[0], mark) + Written(ps[1..], mark)
  }

  function PieceText(p: Piece, mark: char): string {
    match p
    case Plain(c) => [c]
    case Escaped(c) => ['\\', c]
    case Stray => [mark]
  }

  /** The characters that are meant. */
  function Said(ps: seq<Piece>): string {
    if ps == [] then [] else (if ps[0].Stray? then [] else [ps[0].c]) + Said(ps[1..])
  }

  /** Entries, with '=' in the middle of each and '&' between them, and perhaps a key without '='. */
  function Text(entries: seq<Entry>, tail: Option<seq<Piece>>): string
    decreases |entries|, 0
  {
    if entries == [] then if tail.Some? then Written(tail.value, '&') else ""
    else Written(entries[0].key, '&') + "=" + Written(entries[0].value, '=') + Rest(entries[1..], tail)
  }

  function Rest(entries: seq<Entry>, tail: Option<seq<Piece>>): string
    decreases |entries|, 1
  {
    if entries == [] && tail == None then "" else "&" + Text(entries, tail)
  }

  function Pairs(entries: seq<Entry>): (pairs: seq<Pair>)
    ensures |pairs| == |entries|
    ensures forall i :: 0 <= i < |entries| ==> pairs[i] == Pair(Said(entries[i].key), Said(entries[i].value))
  {
    if entries == [] then [] else [Pair(Said(entries[0].key), Said(entries[0].value))] + Pairs(entries[1..])
  }

  function Tokens(ps: seq<Piece>, mark: Token): seq<Token> {
    if ps == [] then [] else [if ps[0].Stray? then mark else Char(ps[0].c)] + Tokens(ps[1..], mark)
  }

  lemma LexOne(p: Piece, mark: char, tail: string)
    requires Proper([p]) && mark in {'&', '='}
    ensures Lex(PieceText(p, mark) + tail, false) ==
            [if !p.Stray? then Char(p.c) else if mark == '&' then Amp else Eq] + Lex(tail, false)
  {
    assert [p][0] == p;
  }

  /** What is written is read back character by character. */
  lemma {:induction false} LexWritten(ps: seq<Piece>, mark: char, rest: string)
    requires Proper(ps) && mark in {'&', '='}
    ensures Lex(Written(ps, mark) + rest, false) == Tokens(ps, if mark == '&' then Amp else Eq) + Lex(rest, false)
  {
    hide Lex;
    if ps == [] {
      assert Written(ps, mark) + rest == rest;
    } else {
      LexWritten(ps[1..], mark, rest);
      LexOne(ps[0], mark, Written(ps[1..], mark) + rest);
      Assoc(PieceText(ps[0], mark), Written(ps[1..], mark), rest);
    }
  }

  lemma {:induction false} KeyPieces(acc: string, ps: seq<Piece>, ts: seq<Token>)
    ensures KeyFirst(acc, Tokens(ps, Amp) + ts) == KeyFirst(acc + Said(ps), ts)
    decreases ps
  {
    hide KeyFirst;
    if ps == [] {
      assert Tokens(ps, Amp) + ts == ts && acc + Said(ps) == acc;
    } else {
      var t := Tokens(ps, Amp)[0];
      assert Tokens(ps, Amp) + ts == [t] + (Tokens(ps[1..], Amp) + ts);
      KeyStep(acc, t, Tokens(ps[1..], Amp) + ts);
      var more := if ps[0].Stray? then acc else acc + [ps[0].c];
      KeyPieces(more, ps[1..], ts);
      assert more + Said(ps[1..]) == acc + Said(ps);
    }
  }

  lemma {:induction false} ValuePieces(key: string, acc: string, ps: seq<Piece>, ts: seq<Token>)
    ensures ValueFirst(key, acc, Tokens(ps, Eq) + ts) == ValueFirst(key, acc + Said(ps), ts)
    decreases ps
  {
    hide ValueFirst;
    if ps == [] {
      assert Tokens(ps, Eq) + ts == ts && acc + Said(ps) == acc;
    } else {
      var t := Tokens(ps, Eq)[0];
      assert Tokens(ps, Eq) + ts == [t] + (Tokens(ps[1..], Eq) + ts);
      ValueStep(key, acc, t, Tokens(ps[1..], Eq) + ts);
      var more := if ps[0].Stray? then acc else acc + [ps[0].c];
      ValuePieces(key, more, ps[1..], ts);
      assert more + Said(ps[1..]) == acc + Said(ps);
    }
  }

  /** One entry followed by `rest` is read as its pair followed by what `rest` gives. */
  lemma ReadsEntry(e: Entry, rest: string)
    requires Proper(e.key) && Proper(e.value)
    ensures KeyFirst([], Lex(Written(e.key, '&') + "=" + Written(e.value, '=') + rest, false)) ==
            ValueFirst(Said(e.key), Said(e.value), Lex(rest, false))
  {
    hide KeyFirst, ValueFirst;
    var tail := "=" + (Written(e.value, '=') + rest);
    assert Written(e.key, '&') + "=" + Written(e.value, '=') + rest == Written(e.key, '&') + tail;
    LexWritten(e.key, '&', tail);
    assert tail[1..] == Written(e.value, '=') + rest;
    LexWritten(e.value, '=', rest);
    var values := Tokens(e.value, Eq) + Lex(rest, false);
    KeyPieces([], e.key, [Eq] + values);
    assert [] + Said(e.key) == Said(e.key) && [] + Said(e.value) == Said(e.value);
    KeyStep(Said(e.key), Eq, values);
    ValuePieces(Said(e.key), [], e.value, Lex(rest, false));
  }

  lemma ValueEnds(key: string, value: string, cut: string)
    requires cut == "" || cut == "\\"
    ensures ValueFirst(key, value, Lex(cut, false)) == [Pair(key, value)]
  {
    assert value + [] == value;
    assert cut != "" ==> Lex(cut[1..], true) == [];
  }

  lemma {:induction false} ReadsText(entries: seq<Entry>, tail: Option<seq<Piece>>, cut: string)
    requires ProperText(entries, tail) && (cut == "" || cut == "\\")
    ensures KeyFirst([], Lex(Text(entries, tail) + cut, false)) == Pairs(entries)
    decreases |entries|
  {
    hide Lex, KeyFirst, ValueFirst, Proper, Written;
    if entries == [] {
      ReadsNoEntry(tail, cut);
    } else {
      hide Text;
      var e, rest := entries[0], Rest(entries[1..], tail) + cut;
      TextStarts(entries, tail);
      Assoc(Written(e.key, '&') + "=" + Written(e.value, '='), Rest(entries[1..], tail), cut);
      ReadsEntry(e, rest);
      if entries[1..] == [] && tail == None {
        assert rest == cut && Pairs(entries[1..]) == [];
        ValueEnds(Said(e.key), Said(e.value), cut);
      } else {
        ReadsText(entries[1..], tail, cut);
        var more := Text(entries[1..], tail) + cut;
        Assoc("&", Text(entries[1..], tail), cut);
        LexAmp(more);
        ValueStep(Said(e.key), Said(e.value), Amp, Lex(more, false));
      }
    }
  }

  lemma ReadsNoEntry(tail: Option<seq<Piece>>, cut: string)
    requires ProperText([], tail) && (cut == "" || cut == "\\")
    ensures KeyFirst([], Lex(Text([], tail) + cut, false)) == []
  {
    var ps := if tail.Some? then tail.value else [];
    LexWritten(ps, '&', cut);
    KeyPieces([], ps, Lex(cut, false));
    NoEq(Said(ps), cut);
  }

  lemma TextStarts(entries: seq<Entry>, tail: Option<seq<Piece>>)
    requires entries != []
    ensures Text(entries, tail) ==
            Written(entries[0].key, '&') + "=" + Written(entries[0].value, '=') + Rest(entries[1..], tail)
  {
  }

  lemma LexAmp(more: string)
    ensures Lex("&" + more, false) == [Amp] + Lex(more, false)
  {
    assert ("&" + more)[1..] == more;
  }

  lemma NoEq(acc: string, cut: string)
    requires cut == "" || cut == "\\"
    ensures KeyFirst(acc, Lex(cut, false)) == []
  {
    assert cut != "" ==> Lex(cut[1..], true) == [];
  }

  /** Parsing in general: whatever is escaped and however many marks stand where they mean nothing, the
      pairs are those of the entries; a key without '=' and a backslash at the end give nothing, and
      neither does a command without '?'. */
  lemma ParsesText(prefix: string, entries: seq<Entry>, tail: Option<seq<Piece>>, cut: string)
    requires '?' !in prefix && ProperText(entries, tail) && (cut == "" || cut == "\\")
    ensures Parse(prefix + "?" + (Text(entries, tail) + cut)) == FirstWins(Pairs(entries))
    ensures Parse(prefix) == map[]
  {
    hide Lex, KeyFirst, Text, FirstWins, ProperText;
    var command := prefix + "?" + (Text(entries, tail) + cut);
    assert command[..|prefix|] == prefix;
    FindUnique(command, '?', |prefix|);
    assert command[|prefix| + 1..] == Text(entries, tail) + cut;
    ReadsText(entries, tail, cut);
    assert prefix[..|prefix|] == prefix;
    FindUnique(prefix, '?', |prefix|);
  }

  /** Every text is of that kind, so that ParsesText says what any command gives. */
  lemma {:induction false} EveryText(s: string) returns (entries: seq<Entry>, tail: Option<seq<Piece>>, cut: string)
    ensures ProperText(entries, tail) && (cut == "" || cut == "\\") && s == Text(entries, tail) + cut
    decreases |s|
  {
    hide ProperText, Text, Rest, Written, Proper;
    if s == "" || (s[0] == '\\' && |s| == 1) {
      entries, tail, cut := [], None, s;
      NoText();
    } else if s[0] == '=' {
      var value, rest;
      value, rest, tail, cut := EveryValue(s[1..]);
      entries := KeyEnds(value, rest, tail);
      assert s == "=" + s[1..];
    } else {
      var p, n := FirstPiece(s, '&');
      var es, t;
      es, t, cut := EveryText(s[n..]);
      entries, tail := MoreKey(p, es, t);
      assert s == PieceText(p, '&') + s[n..];
    }
  }

  lemma {:induction false} EveryValue(s: string)
    returns (value: seq<Piece>, entries: seq<Entry>, tail: Option<seq<Piece>>, cut: string)
    ensures Proper(value) && ProperText(entries, tail) && (cut == "" || cut == "\\")
    ensures s == Written(value, '=') + Rest(entries, tail) + cut
    decreases |s|
  {
    hide ProperText, Text, Rest, Written, Proper;
    if s == "" || (s[0] == '\\' && |s| == 1) {
      value, entries, tail, cut := [], [], None, s;
      NoText();
    } else if s[0] == '&' {
      var t;
      entries, t, cut := EveryText(s[1..]);
      tail := ValueStops(entries, t);
      value := [];
      NoText();
      assert s == "&" + s[1..];
    } else {
      var p, n := FirstPiece(s, '=');
      var more;
      more, entries, tail, cut := EveryValue(s[n..]);
      value := [p] + more;
      MorePieces(p, more, '=');
      assert s == PieceText(p, '=') + s[n..];
    }
  }

  lemma NoText()
    ensures Proper([]) && ProperText([], None) && Text([], None) == "" && Rest([], None) == ""
    ensures Written([], '=') == Written([], '&') == ""
  {
  }

  lemma FirstPiece(s: string, mark: char) returns (p: Piece, n: nat)
    requires s != "" && (s[0] == '\\' ==> |s| > 1) && mark in {'&', '='}
    requires s[0] in {'&', '='} ==> s[0] == mark
    ensures Proper([p]) && 0 < n <= |s| && s[..n] == PieceText(p, mark)
  {
    p := if s[0] == '\\' then Escaped(s[1]) else if s[0] == mark then Stray else Plain(s[0]);
    n := if s[0] == '\\' then 2 else 1;
  }

  lemma MorePieces(p: Piece, ps: seq<Piece>, mark: char)
    requires Proper([p]) && Proper(ps)
    ensures Proper([p] + ps) && Written([p] + ps, mark) == PieceText(p, mark) + Written(ps, mark)
  {
    assert [p][0] == p && ([p] + ps)[1..] == ps;
  }

  lemma MoreKey(p: Piece, es: seq<Entry>, t: Option<seq<Piece>>) returns (entries: seq<Entry>, tail: Option<seq<Piece>>)
    requires Proper([p]) && ProperText(es, t)
    ensures ProperText(entries, tail) && Text(entries, tail) == PieceText(p, '&') + Text(es, t)
  {
    if es == [] {
      var ps := if t.Some? then t.value else [];
      entries, tail := [], Some([p] + ps);
      MorePieces(p, ps, '&');
    } else {
      entries, tail := [Entry([p] + es[0].key, es[0].value)] + es[1..], t;
      MorePieces(p, es[0].key, '&');
      TextStarts(es, t);
      TextStarts(entries, t);
      assert entries[1..] == es[1..];
      FourParts(PieceText(p, '&'), Written(es[0].key, '&'), "=", Written(es[0].value, '='), Rest(es[1..], t));
    }
  }

  lemma FourParts(a: string, b: string, c: string, d: string, e: string)
    ensures a + (b + c + d + e) == a + b + c + d + e && c + (d + e) == c + d + e && [] + c == c
  {
  }

  lemma KeyEnds(value: seq<Piece>, rest: seq<Entry>, tail: Option<seq<Piece>>) returns (entries: seq<Entry>)
    requires Proper(value) && ProperText(rest, tail)
    ensures ProperText(entries, tail) && Text(entries, tail) == "=" + (Written(value, '=') + Rest(rest, tail))
  {
    entries := [Entry([], value)] + rest;
    TextStarts(entries, tail);
    assert entries[1..] == rest;
    NoText();
    hide Proper, Text, Rest, Written;
    FourParts([], [], "=", Written(value, '='), Rest(rest, tail));
  }

  lemma ValueStops(entries: seq<Entry>, t: Option<seq<Piece>>) returns (tail: Option<seq<Piece>>)
    requires ProperText(entries, t)
    ensures ProperText(entries, tail) && Rest(entries, tail) == "&" + Text(entries, t)
  {
    tail := if entries == [] && t == None then Some([]) else t;
  }

  // ---------------------------------------------------------------------------------------------
  // The text with no more marks than needed

  function Escape(s: string): string {
    if s == [] then []
    else (if s[0] in {'\\', '&', '='} then ['\\', s[0]] else [s[0]]) + Escape(s[1..])
  }

  function Print(pairs: seq<Pair>): string {
    if pairs == [] then []
    else if |pairs| == 1 then Escape(pairs[0].key) + "=" + Escape(pairs[0].value)
    else Escape(pairs[0].key) + "=" + Escape(pairs[0].value) + "&" + Print(pairs[1..])
  }

  /** Text as pieces. */
  function Spelt(s: string): (ps: seq<Piece>)
    ensures Proper(ps) && Said(ps) == s && Written(ps, '&') == Written(ps, '=') == Escape(s)
  {
    if s == [] then []
    else
      var p, rest := if s[0] in {'\\', '&', '='} then Escaped(s[0]) else Plain(s[0]), Spelt(s[1..]);
      assert ([p] + rest)[1..] == rest;
      [p] + rest
  }

  lemma {:induction false} PrintIsText(pairs: seq<Pair>) returns (entries: seq<Entry>)
    ensures ProperText(entries, None) && Text(entries, None) == Print(pairs) && Pairs(entries) == pairs
  {
    entries := [];
    if |pairs| > 0 {
      var rest := PrintIsText(pairs[1..]);
      entries := [Entry(Spelt(pairs[0].key), Spelt(pairs[0].value))] + rest;
      assert entries[1..] == rest;
    }
  }

  /** Parsing inverts printing, for every list of pairs: with any keys and values, any number of
      repeated keys, and any prefix that holds no '?'. */
  lemma RoundTrip(prefix: string, pairs: seq<Pair>)
    requires '?' !in prefix
    ensures Parse(prefix + "?" + Print(pairs)) == FirstWins(pairs)
  {
    hide Parse, Text, Print, FirstWins, ProperText;
    var entries := PrintIsText(pairs);
    ParsesText(prefix, entries, None, "");
    assert Text(entries, None) + "" == Print(pairs);
  }
}
