/**
 * The few Python string builtins the handlers rely on: `str.strip()`,
 * `str.isdigit()`, `int(<text>)` and `str(<int>)`.
 */
module PyText {
  import opened Wrappers

  /** The characters for which Python's `str.isspace()` holds; `str.strip()` removes them. */
  predicate IsSpace(c: char) {
    c == ' ' || ('\t' <= c <= '\r') || ('\U{1C}' <= c <= '\U{1F}')
    || c == '\U{85}' || c == '\U{A0}' || c == '\U{1680}' || ('\U{2000}' <= c <= '\U{200A}')
    || c == '\U{2028}' || c == '\U{2029}' || c == '\U{202F}' || c == '\U{205F}' || c == '\U{3000}'
  }

  predicate AllSpace(s: string) {
    forall i | 0 <= i < |s| :: IsSpace(s[i])
  }

  /** Drops leading whitespace. */
  function TrimStart(s: string): (r: string)
    ensures |r| <= |s|
    ensures r == [] || !IsSpace(r[0])
  {
    if s != [] && IsSpace(s[0]) then TrimStart(s[1..]) else s
  }

  /** What `TrimStart` keeps is a suffix of `s`, and everything it dropped is whitespace. */
  lemma {:induction false} TrimStartSplit(s: string)
    ensures TrimStart(s) == s[|s| - |TrimStart(s)|..]
    ensures AllSpace(s[..|s| - |TrimStart(s)|])
  {
    if s != [] && IsSpace(s[0]) {
      var r := TrimStart(s[1..]);
      TrimStartSplit(s[1..]);
      assert s[..|s| - |r|] == [s[0]] + s[1..][..|s[1..]| - |r|];
    }
  }

  /** Drops trailing whitespace. */
  function TrimEnd(s: string): (r: string)
    ensures |r| <= |s|
  {
    if s != [] && IsSpace(s[|s| - 1]) then TrimEnd(s[..|s| - 1]) else s
  }

  /** What `TrimEnd` keeps is a prefix of `s` not ending in whitespace, and everything it dropped is whitespace. */
  lemma {:induction false} TrimEndSplit(s: string)
    ensures TrimEnd(s) == s[..|TrimEnd(s)|]
    ensures AllSpace(s[|TrimEnd(s)|..])
    ensures TrimEnd(s) == [] || !IsSpace(TrimEnd(s)[|TrimEnd(s)| - 1])
  {
    if s != [] && IsSpace(s[|s| - 1]) {
      var r := TrimEnd(s[..|s| - 1]);
      TrimEndSplit(s[..|s| - 1]);
      assert s[|r|..] == s[..|s| - 1][|r|..] + [s[|s| - 1]];
    }
  }

  /** Neither end of `s` is whitespace. */
  predicate Trimmed(s: string) {
    s == [] || (!IsSpace(s[0]) && !IsSpace(s[|s| - 1]))
  }

  /** Python's `str.strip()`. */
  function Strip(s: string): (r: string)
    ensures |r| <= |s|
    ensures Trimmed(r)
  {
    TrimEndSplit(TrimStart(s));
    TrimEnd(TrimStart(s))
  }

  /** Text with no whitespace at either end strips to itself. */
  lemma TrimmedStrips(s: string)
    requires Trimmed(s)
    ensures Strip(s) == s
  {
    assert TrimStart(s) == s;
    assert TrimEnd(s) == s;
  }

  /** What `Strip` keeps is one contiguous slice of `s`, and only whitespace surrounds it. */
  lemma StripIsSlice(s: string) returns (i: nat, j: nat)
    ensures i <= j <= |s| && Strip(s) == s[i..j]
    ensures AllSpace(s[..i]) && AllSpace(s[j..])
  {
    var t := TrimStart(s);
    TrimStartSplit(s);
    TrimEndSplit(t);
    var u := TrimEnd(t);
    i := |s| - |t|;
    j := i + |u|;
    assert t == s[i..] && u == t[..|u|];
    assert s[i..j] == t[..|u|];
    assert s[j..] == t[|u|..];
  }

  /** A string strips to nothing exactly when it is all whitespace. */
  lemma StripEmptyIff(s: string)
    ensures Strip(s) == [] <==> AllSpace(s)
  {
    var i, j := StripIsSlice(s);
    if Strip(s) == [] {
      assert s == s[..i] + s[j..];
    }
  }

  /** Stripping twice is stripping once: a stored (stripped) value re-strips to itself. */
  lemma StripIdempotent(s: string)
    ensures Strip(Strip(s)) == Strip(s)
  {
    TrimmedStrips(Strip(s));
  }

  /** Python's slice `s[i:j]`, which clamps out-of-range bounds instead of failing. */
  function Slice(s: string, i: nat, j: nat): (r: string)
    ensures |r| <= |s|
    ensures i <= j <= |s| ==> r == s[i..j]
    ensures r != [] ==> i < |s|
  {
    if i >= |s| || j <= i then [] else if j <= |s| then s[i..j] else s[i..]
  }

  predicate IsDigit(c: char) {
    '0' <= c <= '9'
  }

  /** Python's `str.isdigit()` over ASCII: non-empty and made only of digits. */
  predicate IsDigits(s: string) {
    |s| > 0 && forall i | 0 <= i < |s| :: IsDigit(s[i])
  }

  /** `int(s)` for a string of ASCII digits (leading zeros allowed). */
  function DigitsValue(s: string): (n: nat)
    requires forall i | 0 <= i < |s| :: IsDigit(s[i])
  {
    if s == [] then 0
    else
      assert IsDigit(s[|s| - 1]);
      DigitsValue(s[..|s| - 1]) * 10 + (s[|s| - 1] as int - '0' as int)
  }

  /** A digit string denotes a positive number exactly when one of its digits is not zero. */
  lemma {:induction false} DigitsValuePositive(s: string)
    requires forall i | 0 <= i < |s| :: IsDigit(s[i])
    ensures DigitsValue(s) > 0 <==> exists i :: 0 <= i < |s| && s[i] != '0'
  {
    if s != [] {
      var p := s[..|s| - 1];
      DigitsValuePositive(p);
      if DigitsValue(s) > 0 && s[|s| - 1] == '0' {
        var k :| 0 <= k < |p| && p[k] != '0';
        assert s[k] != '0';
      }
      if exists i :: 0 <= i < |s| && s[i] != '0' {
        var k :| 0 <= k < |s| && s[k] != '0';
        if k < |s| - 1 {
          assert p[k] != '0';
        }
      }
    }
  }

  function DigitChar(d: nat): (c: char)
    requires d < 10
    ensures IsDigit(c) && c as int - '0' as int == d
  {
    ('0' as int + d) as char
  }

  /** `str(n)` for a natural number: the shortest decimal spelling. */
  function NatText(n: nat): (s: string)
    ensures IsDigits(s)
    ensures |s| > 1 ==> s[0] != '0'
    decreases n
  {
    if n < 10 then [DigitChar(n)] else NatText(n / 10) + [DigitChar(n % 10)]
  }

  /** `int(str(n)) == n`. */
  lemma {:induction false} NatTextRoundTrip(n: nat)
    ensures DigitsValue(NatText(n)) == n
    decreases n
  {
    if n >= 10 {
      NatTextRoundTrip(n / 10);
      var s := NatText(n);
      assert s[..|s| - 1] == NatText(n / 10);
    }
  }

  /** `str(i)` for any integer. */
  function IntText(i: int): (s: string)
    ensures |s| > 0
    ensures (s[0] == '-') <==> i < 0
  {
    if i < 0 then "-" + NatText(-i) else NatText(i)
  }

  /** A digit string has no whitespace to strip. */
  lemma StripDigits(s: string)
    requires IsDigits(s)
    ensures Strip(s) == s
  {
    assert TrimStart(s) == s;
    assert TrimEnd(s) == s;
  }

  /**
   * `int(s)` on text: surrounding whitespace, an optional sign, then ASCII
   * digits. (Python also accepts single underscores between digits; no text
   * of two characters or fewer is made valid by one.)
   */
  function IntOfText(s: string): (r: Option<int>)
    ensures r.Some? ==> s != []
  {
    var t := Strip(s);
    if IsDigits(t) then Some(DigitsValue(t))
    else if |t| >= 2 && (t[0] == '+' || t[0] == '-') && IsDigits(t[1..]) then
      var magnitude: int := DigitsValue(t[1..]);
      Some(if t[0] == '-' then -magnitude else magnitude)
    else None
  }

  /** The text `int()` accepts, and the value it gives a plain digit string; only a `-` makes it negative. */
  lemma IntOfTextAccepts(s: string)
    ensures IntOfText(s).Some? <==>
              IsDigits(Strip(s)) || (|Strip(s)| >= 2 && (Strip(s)[0] == '+' || Strip(s)[0] == '-') && IsDigits(Strip(s)[1..]))
    ensures IsDigits(Strip(s)) ==> IntOfText(s) == Some(DigitsValue(Strip(s)))
    ensures IntOfText(s).Some? && IntOfText(s).value < 0 ==> Strip(s)[0] == '-'
  {
  }

  /** Two decimal digits, zero-padded: the `HH` and `MM` of a `±HH:MM` offset. */
  function TwoDigits(n: nat): (s: string)
    requires n < 100
    ensures |s| == 2 && IsDigits(s)
  {
    [DigitChar(n / 10), DigitChar(n % 10)]
  }

  lemma TwoDigitsValue(n: nat)
    requires n < 100
    ensures DigitsValue(TwoDigits(n)) == n
  {
    var s := TwoDigits(n);
    var hi := [DigitChar(n / 10)];
    assert s[..1] == hi && hi[..0] == [];
    assert DigitsValue(hi) == n / 10;
  }

  /** `int()` reads back the number two zero-padded digits spell. */
  lemma TwoDigitsRoundTrip(n: nat)
    requires n < 100
    ensures IntOfText(TwoDigits(n)) == Some(n)
  {
    StripDigits(TwoDigits(n));
    TwoDigitsValue(n);
    IntOfTextAccepts(TwoDigits(n));
  }
}
