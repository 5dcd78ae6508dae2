/**
 * Character classes and string operations that the validators rely on:
 * Python's `str.strip()`, `str.lower()`, `str.isalpha()`, `int(str)`, the
 * regex classes `\d` and `\s`, the anchor `$`, and SQL `icontains`.
 */
module Text {
  import opened Wrappers

  /** Regex `\d`, restricted to the ASCII digits. */
  predicate IsDigit(c: char) { '0' <= c <= '9' }

  predicate IsUpper(c: char) { 'A' <= c <= 'Z' }

  predicate IsLower(c: char) { 'a' <= c <= 'z' }

  predicate IsAsciiLetter(c: char) { IsUpper(c) || IsLower(c) }

  /** `string.ascii_letters + string.digits`. */
  predicate IsAsciiAlnum(c: char) { IsAsciiLetter(c) || IsDigit(c) }

  /** The characters Python's `str.isspace()` and the regex class `\s` accept. */
  predicate IsSpace(c: char) {
    var n := c as int;
    (9 <= n <= 13) || (28 <= n <= 32) || n == 0x85 || n == 0xA0 || n == 0x1680
    || (0x2000 <= n <= 0x200A) || n == 0x2028 || n == 0x2029 || n == 0x202F
    || n == 0x205F || n == 0x3000
  }

  /** `str.isalpha()` on one character, restricted to ASCII and Latin-1 letters. */
  predicate IsAlpha(c: char) {
    var n := c as int;
    IsAsciiLetter(c) || n == 0xAA || n == 0xB5 || n == 0xBA
    || (0xC0 <= n <= 0xD6) || (0xD8 <= n <= 0xF6) || (0xF8 <= n <= 0xFF)
  }

  predicate AllDigits(s: string) { forall i :: 0 <= i < |s| ==> IsDigit(s[i]) }

  /** Python's `value.isalpha()`: non-empty and every character a letter. */
  predicate IsAlphaString(s: string) {
    |s| > 0 && forall i :: 0 <= i < |s| ==> IsAlpha(s[i])
  }

  /**
   * `re.match(r'^P+$', s)`: `$` also matches just before a final newline, so
   * a value made of one or more P-characters followed by one "\n" matches too.
   */
  predicate AnchoredPlus(s: string, p: char -> bool) {
    (|s| > 0 && forall i :: 0 <= i < |s| ==> p(s[i]))
    || (|s| > 1 && s[|s| - 1] == '\n' && forall i :: 0 <= i < |s| - 1 ==> p(s[i]))
  }

  /** Python's `re.search(P, s)` for a one-character class P. */
  predicate HasChar(s: string, p: char -> bool) {
    exists i :: 0 <= i < |s| && p(s[i])
  }

  /** `part` occurs in `s` starting at position `i`. */
  predicate OccursAt(part: string, s: string, i: int) {
    0 <= i && i + |part| <= |s| && s[i..i + |part|] == part
  }

  /** Every character is whitespace. */
  predicate AllSpace(t: string) { forall j :: 0 <= j < |t| ==> IsSpace(t[j]) }

  /** Removes leading whitespace. */
  function TrimLeft(s: string): (r: string)
    ensures |r| <= |s| && r == s[|s| - |r|..]
    ensures r == [] || !IsSpace(r[0])
    ensures forall i :: 0 <= i < |s| - |r| ==> IsSpace(s[i])
  {
    if |s| > 0 && IsSpace(s[0]) then TrimLeft(s[1..]) else s
  }

  /** Removes trailing whitespace. */
  function TrimRight(s: string): (r: string)
    ensures |r| <= |s| && r == s[..|r|]
    ensures r == [] || !IsSpace(r[|r| - 1])
    ensures forall i :: |r| <= i < |s| ==> IsSpace(s[i])
  {
    if |s| > 0 && IsSpace(s[|s| - 1]) then TrimRight(s[..|s| - 1]) else s
  }

  /** Python's `str.strip()` with no argument. */
  function Strip(s: string): (r: string)
    ensures |r| <= |s|
    ensures r == [] || (!IsSpace(r[0]) && !IsSpace(r[|r| - 1]))
    ensures exists i :: OccursAt(r, s, i)
  {
    var t := TrimLeft(s);
    var r := TrimRight(t);
    assert OccursAt(r, s, |s| - |t|);
    r
  }

  /**
   * What `strip` removes is whitespace only: `s` is some whitespace, then
   * `Strip(s)`, then some whitespace.
   */
  lemma StripPadding(s: string)
    ensures exists i :: 0 <= i <= |s| && OccursAt(Strip(s), s, i) && AllSpace(s[..i]) && AllSpace(s[i + |Strip(s)|..])
  {
    var t := TrimLeft(s);
    var r := TrimRight(t);
    var k := |s| - |t|;
    assert r == s[k..][..|r|] == s[k..k + |r|];
    assert OccursAt(r, s, k);
    assert AllSpace(s[..k]);
    var tail := s[k + |r|..];
    forall j | 0 <= j < |tail|
      ensures IsSpace(tail[j])
    {
      assert tail[j] == t[|r| + j];
    }
  }

  /** A text that is all whitespace strips to nothing, and only such a text does. */
  lemma StripBlank(s: string)
    ensures Strip(s) == [] <==> AllSpace(s)
  {
    var r := Strip(s);
    StripPadding(s);
    var i :| 0 <= i <= |s| && OccursAt(r, s, i) && AllSpace(s[..i]) && AllSpace(s[i + |r|..]);
    if r == [] {
      forall j | 0 <= j < |s|
        ensures IsSpace(s[j])
      {
        if j < i { assert s[j] == s[..i][j]; } else { assert s[j] == s[i..][j - i]; }
      }
    }
  }

  /**
   * Django's `forms.CharField` with `required`, `min_length` and
   * `max_length`, checked on the stripped text; a blank value skips the
   * length checks.
   */
  predicate TextFieldOk(raw: string, required: bool, minLength: nat, maxLength: nat) {
    var v := Strip(raw);
    if v == [] then !required else minLength <= |v| <= maxLength
  }

  /** A string without whitespace at either end is its own `strip()`. */
  lemma {:induction false} StripOfTrimmed(s: string)
    requires s == [] || (!IsSpace(s[0]) && !IsSpace(s[|s| - 1]))
    ensures Strip(s) == s
  {
  }

  lemma StripIdempotent(s: string)
    ensures Strip(Strip(s)) == Strip(s)
  {
    StripOfTrimmed(Strip(s));
  }

  /** Python's `str.lower()` on one character, for ASCII upper-case letters. */
  function LowerChar(c: char): (r: char)
    ensures !IsUpper(r)
    ensures IsUpper(c) ==> r as int == c as int + 32
    ensures !IsUpper(c) ==> r == c
  {
    if IsUpper(c) then (c as int + 32) as char else c
  }

  function Lower(s: string): (r: string)
    ensures |r| == |s|
    ensures forall i :: 0 <= i < |s| ==> r[i] == LowerChar(s[i])
  {
    if s == [] then [] else [LowerChar(s[0])] + Lower(s[1..])
  }

  lemma {:induction false} LowerIdempotent(s: string)
    ensures Lower(Lower(s)) == Lower(s)
  {
    var l := Lower(s);
    var ll := Lower(l);
    assert forall i :: 0 <= i < |s| ==> ll[i] == l[i];
  }

  /** A sequence is the part before position `k`, the element there, and the part after. */
  lemma SplitAround<T>(s: seq<T>, k: nat)
    requires k < |s|
    ensures s[..k] + [s[k]] + s[k + 1..] == s
  {
  }

  /** A string without upper-case letters is its own lower case. */
  lemma LowerOfLowered(t: string)
    requires forall i :: 0 <= i < |t| ==> !IsUpper(t[i])
    ensures Lower(t) == t
  {
    assert forall i :: 0 <= i < |t| ==> Lower(t)[i] == t[i];
  }

  lemma LowerCharKeepsNonSpace(c: char)
    requires !IsSpace(c)
    ensures !IsSpace(LowerChar(c))
  {
  }

  /** Lower-casing keeps a string without whitespace at its ends so, and thus its own `strip()`. */
  lemma LowerKeepsStripped(s: string)
    requires s == [] || (!IsSpace(s[0]) && !IsSpace(s[|s| - 1]))
    ensures Strip(Lower(s)) == Lower(s)
  {
    if s != [] {
      LowerCharKeepsNonSpace(s[0]);
      LowerCharKeepsNonSpace(s[|s| - 1]);
    }
    StripOfTrimmed(Lower(s));
  }

  /** `needle` occurs as a contiguous part of `hay`. */
  predicate IsSubstring(needle: string, hay: string) {
    exists i :: 0 <= i <= |hay| && OccursAt(needle, hay, i)
  }

  /** SQL `hay ILIKE '%needle%'` (Django's `icontains`), ASCII case folding. */
  predicate ContainsIgnoreCase(hay: string, needle: string) {
    IsSubstring(Lower(needle), Lower(hay))
  }

  lemma ContainsIgnoreCaseReflexive(s: string)
    ensures ContainsIgnoreCase(s, s)
  {
    var l := Lower(s);
    assert l[0..0 + |l|] == l;
    assert OccursAt(l, l, 0);
  }

  /** The value of a non-empty string of ASCII digits. */
  function DigitsValue(s: string): (n: nat)
    requires AllDigits(s)
  {
    if s == [] then 0 else DigitsValue(s[..|s| - 1]) * 10 + (s[|s| - 1] as int - '0' as int)
  }

  lemma {:induction false} DigitsValueLast(s: string, c: char)
    requires AllDigits(s) && IsDigit(c)
    ensures AllDigits(s + [c]) && DigitsValue(s + [c]) == DigitsValue(s) * 10 + (c as int - '0' as int)
  {
    assert (s + [c])[..|s|] == s;
  }

  /**
   * The digits of a Python integer literal: ASCII digits, where a single `_`
   * may stand between two of them (`1_000`).
   */
  predicate IsDigitRun(b: string) {
    && |b| > 0 && IsDigit(b[0]) && IsDigit(b[|b| - 1])
    && (forall i :: 0 <= i < |b| ==> IsDigit(b[i]) || b[i] == '_')
    && (forall i :: 0 <= i < |b| - 1 ==> IsDigit(b[i]) || IsDigit(b[i + 1]))
  }

  /** The digits of a run, separators removed. */
  function DropSeparators(b: string): (d: string)
    ensures |d| <= |b|
    ensures (forall i :: 0 <= i < |b| ==> IsDigit(b[i]) || b[i] == '_') ==> AllDigits(d)
    ensures AllDigits(b) ==> d == b
  {
    if b == [] then [] else (if b[0] == '_' then [] else [b[0]]) + DropSeparators(b[1..])
  }

  lemma {:induction false} DropSeparatorsConcat(a: string, b: string)
    ensures DropSeparators(a + b) == DropSeparators(a) + DropSeparators(b)
  {
    if a != [] {
      var head := if a[0] == '_' then [] else [a[0]];
      assert (a + b)[0] == a[0] && (a + b)[1..] == a[1..] + b;
      assert DropSeparators(a + b) == head + DropSeparators(a[1..] + b);
      assert DropSeparators(a) == head + DropSeparators(a[1..]);
      DropSeparatorsConcat(a[1..], b);
    } else {
      assert a + b == b;
    }
  }

  /** A literal without its sign. */
  function Unsigned(t: string): string {
    if |t| > 0 && (t[0] == '+' || t[0] == '-') then t[1..] else t
  }

  /** The shape Python's `int(text)` accepts: an optional sign, then a run of digits. */
  predicate IsIntLiteral(t: string) {
    IsDigitRun(Unsigned(t))
  }

  /**
   * Python's `int(text)`: surrounding whitespace is ignored; anything that is
   * not a signed run of ASCII digits raises `ValueError`, here `None`. The
   * value is the decimal value of the digits, negated after a `-`.
   */
  function ParseInt(text: string): (r: Option<int>)
    ensures r.Some? <==> IsIntLiteral(Strip(text))
    ensures r.Some? ==> var t := Strip(text);
                        var magnitude: int := DigitsValue(DropSeparators(Unsigned(t)));
                        r.value == if t[0] == '-' then -magnitude else magnitude
  {
    var t := Strip(text);
    if !IsIntLiteral(t) then None
    else
      var v: int := DigitsValue(DropSeparators(Unsigned(t)));
      if t[0] == '-' then Some(-v) else Some(v)
  }

  /** Decimal digits of a natural number, most significant first. */
  function ShowNat(n: nat): (s: string)
    ensures |s| > 0 && AllDigits(s) && DigitsValue(s) == n
    decreases n
  {
    var d := ['0' + (n % 10) as char];
    if n < 10 then
      assert DigitsValue(d) == DigitsValue(d[..0]) * 10 + n;
      d
    else
      var p := ShowNat(n / 10);
      DigitsValueLast(p, d[0]);
      p + d
  }

  /** `int(str(n))` gives back `n`. */
  lemma ParseShowNat(n: nat)
    ensures ParseInt(ShowNat(n)) == Some(n)
  {
    var s := ShowNat(n);
    assert IsDigitRun(s);
    ParseDigitRun(s);
  }

  /** `str(n)` for any integer: a `-` before the digits of a negative one. */
  function ShowInt(n: int): (s: string)
    ensures |s| > 0
  {
    if n < 0 then "-" + ShowNat(-n) else ShowNat(n)
  }

  /** `int(str(n))` gives back `n`, negative numbers included. */
  lemma ParseShowInt(n: int)
    ensures ParseInt(ShowInt(n)) == Some(n)
  {
    if n < 0 {
      var d := ShowNat(-n);
      var s := ShowInt(n);
      assert s[1..] == d && Unsigned(s) == d;
      assert !IsSpace(s[0]) && !IsSpace(s[|s| - 1]);
      StripOfTrimmed(s);
    } else {
      ParseShowNat(n);
    }
  }

  /** A bare run of digits, without sign or whitespace, reads as its decimal value. */
  lemma ParseDigitRun(s: string)
    requires IsDigitRun(s)
    ensures AllDigits(DropSeparators(s)) && ParseInt(s) == Some(DigitsValue(DropSeparators(s)))
  {
    assert !IsSpace(s[0]) && !IsSpace(s[|s| - 1]);
    StripOfTrimmed(s);
    assert Unsigned(s) == s;
    assert IsIntLiteral(Strip(s));
  }

  /** Two runs of digits joined by one `_` form a run whose digits are the two runs. */
  lemma SeparatedRun(a: string, b: string)
    requires |a| > 0 && |b| > 0 && AllDigits(a) && AllDigits(b)
    ensures IsDigitRun(a + "_" + b) && DropSeparators(a + "_" + b) == a + b
  {
    JoinedDigits(a, b);
    var s := a + "_" + b;
    assert s[0] == a[0] && s[|s| - 1] == b[|b| - 1];
    forall i | 0 <= i < |s|
      ensures IsDigit(s[i]) || s[i] == '_'
    {
      if i < |a| { assert s[i] == a[i]; } else if i > |a| { assert s[i] == b[i - |a| - 1]; }
    }
    forall i | 0 <= i < |s| - 1
      ensures IsDigit(s[i]) || IsDigit(s[i + 1])
    {
      if i < |a| { assert s[i] == a[i]; } else { assert s[i + 1] == b[i - |a|]; }
    }
  }

  lemma JoinedDigits(a: string, b: string)
    requires AllDigits(a) && AllDigits(b)
    ensures DropSeparators(a + "_" + b) == a + b
  {
    var x := a + "_";
    DropSeparatorsConcat(x, b);
    DropSeparatorsConcat(a, "_");
    assert DropSeparators("_") == [] + DropSeparators([]);
    assert DropSeparators(x) == a;
    assert DropSeparators(b) == b;
  }

  /** A `_` between two runs of digits does not change the value `int()` reads. */
  lemma SeparatorIgnored(a: string, b: string)
    requires |a| > 0 && |b| > 0 && AllDigits(a) && AllDigits(b)
    ensures ParseInt(a + "_" + b) == ParseInt(a + b)
  {
    var t := a + b;
    assert AllDigits(t) by {
      forall i | 0 <= i < |t| ensures IsDigit(t[i]) {
        if i < |a| { assert t[i] == a[i]; } else { assert t[i] == b[i - |a|]; }
      }
    }
    SeparatedRun(a, b);
    ParseDigitRun(a + "_" + b);
    ParseDigitRun(t);
  }
}
