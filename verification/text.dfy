/**
 * The handful of Python string operations the forwarder's core relies on,
 * written out: `str(n)` and `int(s)` for integer chat ids, `str.strip`,
 * `str.replace`, `str.startswith`, `str.split` and the slice `s[n:]`.
 */
module Text {
  import opened Wrappers

  /** The characters Python's `str.isspace` (and so `str.strip`) treats as whitespace. */
  predicate IsSpace(c: char) {
    var k := c as int;
    || 0x09 <= k <= 0x0D || 0x1C <= k <= 0x20 || k == 0x85 || k == 0xA0 || k == 0x1680
    || 0x2000 <= k <= 0x200A || k == 0x2028 || k == 0x2029 || k == 0x202F || k == 0x205F
    || k == 0x3000
  }

  predicate IsDigit(c: char) {
    '0' <= c <= '9'
  }

  predicate AllDigits(s: string) {
    forall i :: 0 <= i < |s| ==> IsDigit(s[i])
  }

  predicate NoSpace(s: string) {
    forall i :: 0 <= i < |s| ==> !IsSpace(s[i])
  }

  function DigitChar(d: nat): (c: char)
    requires d < 10
    ensures IsDigit(c) && c as int - '0' as int == d
  {
    ('0' as int + d) as char
  }

  function DigitValue(c: char): nat
    requires IsDigit(c)
  {
    c as int - '0' as int
  }

  // ---------------------------------------------------------------- str(int)

  /** Decimal digits of a natural number, most significant first, no leading zeros. */
  function NatToString(n: nat): (s: string)
    ensures |s| >= 1 && AllDigits(s)
    ensures |s| > 1 ==> s[0] != '0'
    decreases n
  {
    if n < 10 then [DigitChar(n)] else NatToString(n / 10) + [DigitChar(n % 10)]
  }

  /** Python's `str(n)` for an integer. */
  function IntToString(n: int): (s: string)
  {
    if n < 0 then "-" + NatToString(-n) else NatToString(n)
  }

  // ---------------------------------------------------------------- int(str)

  /** The value of a non-empty run of decimal digits. */
  function DigitsValue(s: string): nat
    requires |s| >= 1 && AllDigits(s)
    decreases |s|
  {
    if |s| == 1 then DigitValue(s[0])
    else DigitsValue(s[..|s| - 1]) * 10 + DigitValue(s[|s| - 1])
  }

  /** A sign-optional run of digits, without surrounding blanks. */
  function ParseSigned(s: string): (r: Option<int>)
    ensures r.Some? ==> |s| >= 1
  {
    if |s| >= 2 && s[0] == '-' && AllDigits(s[1..]) then Some(0 - DigitsValue(s[1..]) as int)
    else if |s| >= 2 && s[0] == '+' && AllDigits(s[1..]) then Some(DigitsValue(s[1..]))
    else if |s| >= 1 && AllDigits(s) then Some(DigitsValue(s))
    else None
  }

  /**
   * Python's `int(s)` on a string: surrounding whitespace is ignored, then an
   * optional sign and decimal digits; anything else raises, here `None`.
   */
  function ParseInt(s: string): Option<int> {
    ParseSigned(Strip(s))
  }

  lemma {:induction false} NatToStringRoundTrip(n: nat)
    ensures DigitsValue(NatToString(n)) == n
    decreases n
  {
    if n >= 10 {
      var s := NatToString(n);
      assert s[..|s| - 1] == NatToString(n / 10);
      NatToStringRoundTrip(n / 10);
    }
  }

  /** A run of digits that does not start with `0` has a positive value. */
  lemma {:induction false} DigitsPositive(s: string)
    requires |s| >= 1 && AllDigits(s) && s[0] != '0'
    ensures DigitsValue(s) >= 1
    decreases |s|
  {
    if |s| > 1 {
      DigitsPositive(s[..|s| - 1]);
    }
  }

  /** A run of digits without a leading zero is the decimal text of its own value. */
  lemma {:induction false} DigitsRoundTrip(s: string)
    requires |s| >= 1 && AllDigits(s) && (|s| > 1 ==> s[0] != '0')
    ensures NatToString(DigitsValue(s)) == s
    decreases |s|
  {
    if |s| > 1 {
      var init := s[..|s| - 1];
      DigitsPositive(init);
      DigitsRoundTrip(init);
      var v := DigitsValue(s);
      assert v / 10 == DigitsValue(init) && v % 10 == DigitValue(s[|s| - 1]);
      assert s == init + [s[|s| - 1]];
    }
  }

  /**
   * `int(u)` for a run of digits that starts with a non-zero digit succeeds,
   * and `str` of the result gives `u` back.
   */
  lemma CanonicalDigitsParse(u: string)
    requires |u| >= 1 && AllDigits(u) && u[0] != '0'
    ensures ParseInt(u).Some? && ParseInt(u).value >= 0
    ensures IntToString(ParseInt(u).value) == u
  {
    forall i | 0 <= i < |u| ensures !IsSpace(u[i]) {
      assert IsDigit(u[i]);
    }
    StripNoSpace(u);
    assert IsDigit(u[0]) && u[0] != '-' && u[0] != '+';
    assert ParseInt(u) == Some(DigitsValue(u) as int);
    DigitsRoundTrip(u);
  }

  lemma NatToStringNoSpace(n: nat)
    ensures NoSpace(NatToString(n))
  {
    var s := NatToString(n);
    forall i | 0 <= i < |s| ensures !IsSpace(s[i]) {
      assert IsDigit(s[i]);
    }
  }

  lemma IntToStringNoSpace(n: int)
    ensures NoSpace(IntToString(n))
  {
    if n < 0 { NatToStringNoSpace(-n); } else { NatToStringNoSpace(n); }
  }

  /** `str(-n)` of a positive `n` is a minus sign before `str(n)`. */
  lemma NegatedText(n: nat)
    requires n > 0
    ensures IntToString(0 - n) == "-" + IntToString(n)
  {
  }

  /** `int(str(n)) == n`: the text form of a chat id reads back as the same id. */
  lemma IntToStringRoundTrip(n: int)
    ensures ParseInt(IntToString(n)) == Some(n)
  {
    var s := IntToString(n);
    IntToStringNoSpace(n);
    StripNoSpace(s);
    assert ParseInt(s) == ParseSigned(s);
    if n < 0 {
      var d := NatToString(-n);
      assert s == "-" + d && s[1..] == d;
      assert |s| >= 2 && s[0] == '-' && AllDigits(s[1..]);
      NatToStringRoundTrip(-n);
      assert ParseSigned(s) == Some(0 - DigitsValue(d) as int);
    } else {
      var d := NatToString(n);
      assert s == d && IsDigit(s[0]);
      assert AllDigits(s) && s[0] != '-' && s[0] != '+';
      NatToStringRoundTrip(n);
      assert ParseSigned(s) == Some(DigitsValue(d) as int);
    }
  }

  /** Distinct integers have distinct text forms. */
  lemma IntToStringInjective(a: int, b: int)
    requires IntToString(a) == IntToString(b)
    ensures a == b
  {
    IntToStringRoundTrip(a);
    IntToStringRoundTrip(b);
  }

  /** Decimal text never contains a colon, the separator of media-group keys. */
  lemma IntToStringNoColon(n: int)
    ensures ':' !in IntToString(n)
  {
    var s := IntToString(n);
    var d := NatToString(if n < 0 then -n else n);
    assert s == (if n < 0 then "-" else "") + d;
    forall i | 0 <= i < |s| ensures s[i] != ':' {
      if n < 0 && i > 0 { assert s[i] == d[i - 1]; }
      if n >= 0 { assert s[i] == d[i]; }
    }
  }

  // ---------------------------------------------------------------- strip

  /** `s.lstrip()`: the suffix of `s` left once leading whitespace is gone. */
  function TrimStart(s: string): (r: string)
    ensures |r| <= |s| && r == s[|s| - |r|..]
    ensures forall k :: 0 <= k < |s| - |r| ==> IsSpace(s[k])
    ensures r == [] || !IsSpace(r[0])
    decreases |s|
  {
    if |s| > 0 && IsSpace(s[0]) then TrimStart(s[1..]) else s
  }

  /** `s.rstrip()`: the prefix of `s` left once trailing whitespace is gone. */
  function TrimEnd(s: string): (r: string)
    ensures |r| <= |s| && r == s[..|r|]
    ensures forall k :: |r| <= k < |s| ==> IsSpace(s[k])
    ensures r == [] || !IsSpace(r[|r| - 1])
    decreases |s|
  {
    if |s| > 0 && IsSpace(s[|s| - 1]) then TrimEnd(s[..|s| - 1]) else s
  }

  /** `s.strip()`. */
  function Strip(s: string): string {
    TrimEnd(TrimStart(s))
  }

  /** Stripping leaves a string with no whitespace in it unchanged. */
  lemma StripNoSpace(s: string)
    requires NoSpace(s)
    ensures Strip(s) == s
  {
    if |s| > 0 {
      assert !IsSpace(s[0]) && !IsSpace(s[|s| - 1]);
    }
  }

  /** A string is blank after stripping exactly when it is all whitespace. */
  lemma StripEmptyIff(s: string)
    ensures Strip(s) == [] <==> forall k :: 0 <= k < |s| ==> IsSpace(s[k])
  {
    var t := TrimStart(s);
    if Strip(s) == [] {
      assert t == [];
    } else {
      var u := Strip(s);
      assert !IsSpace(u[0]);
      assert u[0] == s[|s| - |t|];
    }
  }

  // ---------------------------------------------------------------- replace

  predicate StartsWith(s: string, prefix: string) {
    |prefix| <= |s| && s[..|prefix|] == prefix
  }

  /** `pat` occurs somewhere in `s`. */
  predicate Contains(s: string, pat: string) {
    exists i :: 0 <= i <= |s| - |pat| && StartsWith(s[i..], pat)
  }

  /**
   * Python's `s.replace(pat, rep)`: every non-overlapping occurrence of `pat`,
   * scanning left to right, becomes `rep`. The pattern is never empty where
   * the forwarder calls it (its patterns are `{name}`, `{id}`, `{time}` and
   * `{original_link}`).
   */
  function Replace(s: string, pat: string, rep: string): string
    requires |pat| > 0
    decreases |s|
  {
    if |s| < |pat| then s
    else if StartsWith(s, pat) then rep + Replace(s[|pat|..], pat, rep)
    else [s[0]] + Replace(s[1..], pat, rep)
  }

  /** A text without the placeholder passes through `replace` untouched. */
  lemma {:induction false} ReplaceAbsent(s: string, pat: string, rep: string)
    requires |pat| > 0 && !Contains(s, pat)
    ensures Replace(s, pat, rep) == s
    decreases |s|
  {
    if |s| >= |pat| {
      assert !StartsWith(s[0..], pat);
      assert s[0..] == s;
      forall i | 0 <= i <= |s[1..]| - |pat| ensures !StartsWith(s[1..][i..], pat) {
        assert s[1..][i..] == s[i + 1..];
      }
      ReplaceAbsent(s[1..], pat, rep);
    }
  }

  /** A text that is exactly the placeholder becomes exactly the replacement. */
  lemma ReplaceWhole(pat: string, rep: string)
    requires |pat| > 0
    ensures Replace(pat, pat, rep) == rep
  {
    assert pat[|pat|..] == [];
  }

  // ---------------------------------------------------------------- split

  /** Python's `s.split(sep)` for a one-character separator. */
  function Split(s: string, sep: char): (parts: seq<string>)
    ensures |parts| >= 1
    ensures forall k :: 0 <= k < |parts| ==> sep !in parts[k]
    decreases |s|
  {
    if sep !in s then [s]
    else
      var i := IndexOf(s, sep);
      [s[..i]] + Split(s[i + 1..], sep)
  }

  /** Position of the first `c` in `s`. */
  function IndexOf(s: string, c: char): (i: nat)
    requires c in s
    ensures i < |s| && s[i] == c && c !in s[..i]
  {
    if s[0] == c then 0 else 1 + IndexOf(s[1..], c)
  }

  /** `sep.join(parts)`. */
  function Join(parts: seq<string>, sep: char): string
    requires |parts| >= 1
  {
    if |parts| == 1 then parts[0] else parts[0] + [sep] + Join(parts[1..], sep)
  }

  /** `sep.join(s.split(sep)) == s`: splitting loses nothing. */
  lemma {:induction false} SplitJoin(s: string, sep: char)
    ensures Join(Split(s, sep), sep) == s
    decreases |s|
  {
    if sep in s {
      var i := IndexOf(s, sep);
      var parts := Split(s, sep);
      assert parts[1..] == Split(s[i + 1..], sep);
      SplitJoin(s[i + 1..], sep);
      assert s == s[..i] + [sep] + s[i + 1..];
    }
  }

  /**
   * For a state such as `set_ai_prompt:12`, `split(":")[1]` is the text after
   * the first colon up to the next one.
   */
  lemma SplitAfterTag(tag: string, sep: char, rest: string)
    requires sep !in tag
    ensures |Split(tag + [sep] + rest, sep)| >= 2
    ensures Split(tag + [sep] + rest, sep)[1] == Split(rest, sep)[0]
  {
    var s := tag + [sep] + rest;
    assert s[|tag|] == sep;
    var i := IndexOf(s, sep);
    assert forall j :: 0 <= j < |tag| ==> s[j] == tag[j];
    assert forall j :: 0 <= j < i ==> s[..i][j] == s[j];
    assert i == |tag|;
    assert s[..i] == tag;
    assert s[i + 1..] == rest;
  }

  /** Python's slice `s[n:]`, empty when `s` is shorter than `n`. */
  function DropPrefix(s: string, n: nat): (r: string)
    ensures |r| == if n <= |s| then |s| - n else 0
  {
    if n <= |s| then s[n..] else []
  }
}
