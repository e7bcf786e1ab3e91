/** Numbers in text (SqliteAPI::TryParseInt and std::to_string). */
module Numbers {
  import opened Wrappers

  function Digit(c: char): int {
    c as int - '0' as int
  }

  function ParseInt(str: string): Option<int> {
    if str == "" then None
    else
      var n := |str| - 1;
      var c := str[n];
      if !('0' <= c <= '9') then None
      else if n == 0 then Some(Digit(c))
      else
        match ParseInt(str[..n])
        case Some(high) => Some(high * 10 + Digit(c))
        case None => None
  }

  /** std::to_string of an unsigned number. */
  function ToString(n: nat): (s: string)
    ensures s != ""
  {
    (if n < 10 then "" else ToString(n / 10)) + [(n % 10) as char + '0']
  }

  lemma {:induction false} ParseToString(n: nat)
    ensures ParseInt(ToString(n)) == Some(n)
  {
    if n >= 10 {
      ParseToString(n / 10);
      assert ToString(n)[..|ToString(n)| - 1] == ToString(n / 10);
    }
  }

  /** A text is a number exactly when it is a non-empty string of digits. */
  lemma {:induction false} ParsesDigits(str: string)
    ensures ParseInt(str).Some? <==> str != "" && forall i :: 0 <= i < |str| ==> '0' <= str[i] <= '9'
    ensures ParseInt(str).Some? ==> ParseInt(str).value >= 0
  {
    if |str| > 1 {
      ParsesDigits(str[..|str| - 1]);
    }
  }

  method TryParseInt(str: string) returns (r: Option<int>)
    ensures r == ParseInt(str)
  {
    if |str| > 0 {
      var rtc := 0;
      var i := 0;
      while i < |str|
        invariant 0 <= i <= |str| && (i == 0 ==> rtc == 0)
        invariant i > 0 ==> ParseInt(str[..i]) == Some(rtc)
      {
        var c := str[i];
        assert str[..i + 1][..i] == str[..i];
        if c >= '0' && c <= '9' {
          rtc := rtc * 10;
          rtc := rtc + Digit(c);
        } else {
          NotANumber(str, i);
          return None;
        }
        i := i + 1;
      }
      assert str[..i] == str;
      return Some(rtc);
    }
    return None;
  }

  lemma NotANumber(str: string, i: nat)
    requires i < |str| && !('0' <= str[i] <= '9')
    ensures ParseInt(str) == None
  {
  }

  /** The value of a text is decimal: of its last digit and ten times what stands before it. */
  lemma {:induction false} ParsesDecimal(str: string, c: char)
    requires '0' <= c <= '9' && (str == "" || ParseInt(str).Some?)
    ensures ParseInt(str + [c]) == Some((if str == "" then 0 else 10 * ParseInt(str).value) + (c as int - 48))
  {
    assert (str + [c])[..|str|] == str;
  }
}
