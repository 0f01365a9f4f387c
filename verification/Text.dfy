/** The parts of the host language's string handling that the model relies on. */
module Text {

  /** White space as the host language trims it. */
  predicate IsWhitespace(c: char) {
    || '\t' <= c <= '\r' || c == ' ' || c == '\U{00A0}' || c == '\U{1680}'
    || '\U{2000}' <= c <= '\U{200A}' || c == '\U{2028}' || c == '\U{2029}'
    || c == '\U{202F}' || c == '\U{205F}' || c == '\U{3000}' || c == '\U{FEFF}'
  }

  predicate IsBlank(s: string) {
    forall c :: c in s ==> IsWhitespace(c)
  }

  predicate IsDigit(c: char) {
    '0' <= c <= '9'
  }

  predicate IsUpper(c: char) {
    'A' <= c <= 'Z'
  }

  predicate IsLower(c: char) {
    'a' <= c <= 'z'
  }

  /** Letters outside A-Z are left alone. */
  function LowerChar(c: char): char {
    if IsUpper(c) then c + ('a' - 'A') else c
  }

  function UpperChar(c: char): char {
    if IsLower(c) then c - ('a' - 'A') else c
  }

  function ToLower(s: string): string {
    seq(|s|, i requires 0 <= i < |s| => LowerChar(s[i]))
  }

  function ToUpper(s: string): string {
    seq(|s|, i requires 0 <= i < |s| => UpperChar(s[i]))
  }

  const DIGITS := "0123456789abcdefghijklmnopqrstuvwxyz"

  predicate IsNumeral(c: char) {
    IsDigit(c) || IsLower(c)
  }

  function Digit(d: nat): (c: char)
    requires d < 36
    ensures IsNumeral(c) && (d < 10 ==> IsDigit(c))
  {
    DIGITS[d]
  }

  function Decimal(n: nat): (s: string)
    ensures s != "" && forall i :: 0 <= i < |s| ==> IsDigit(s[i])
  {
    if n < 10 then [Digit(n)] else Decimal(n / 10) + [Digit(n % 10)]
  }

  function Base36(n: nat): (s: string)
    ensures s != "" && forall i :: 0 <= i < |s| ==> IsNumeral(s[i])
  {
    if n < 36 then [Digit(n)] else Base36(n / 36) + [Digit(n % 36)]
  }

  /** Letters and numbers, by example. */
  lemma WrittenOut()
    ensures ToUpper("pOst-9z") == "POST-9Z" && ToLower("pOst-9Z") == "post-9z"
    ensures Decimal(0) == "0" && Decimal(207) == "207" && Base36(35) == "z" && Base36(36) == "10"
    ensures IsBlank("") && IsBlank(" \t\n") && !IsBlank(" a ")
  {
    assert Decimal(20) == "20";
    assert Base36(1) == "1";
    assert 'a' in " a ";
  }

  lemma DigitsDiffer(i: nat, j: nat)
    requires i < 36 && j < 36 && Digit(i) == Digit(j)
    ensures i == j
  {
    DigitIs(i);
    DigitIs(j);
  }

  lemma DigitIs(d: nat)
    requires d < 36
    ensures Digit(d) as int == if d < 10 then '0' as int + d else 'a' as int + (d - 10)
  {
  }

  /** Different numbers are written differently. */
  lemma {:induction false} DecimalsDiffer(m: nat, n: nat)
    requires Decimal(m) == Decimal(n)
    ensures m == n
    decreases m
  {
    var s := Decimal(m);
    assert (|s| == 1 <==> m < 10) && (|Decimal(n)| == 1 <==> n < 10);
    if m < 10 && n < 10 {
      DigitsDiffer(m, n);
    } else if m >= 10 && n >= 10 {
      assert s[..|s| - 1] == Decimal(m / 10) == Decimal(n / 10);
      DecimalsDiffer(m / 10, n / 10);
      DigitsDiffer(m % 10, n % 10);
    }
  }

  lemma {:induction false} Base36Differ(m: nat, n: nat)
    requires Base36(m) == Base36(n)
    ensures m == n
    decreases m
  {
    var s := Base36(m);
    assert (|s| == 1 <==> m < 36) && (|Base36(n)| == 1 <==> n < 36);
    if m < 36 && n < 36 {
      DigitsDiffer(m, n);
    } else if m >= 36 && n >= 36 {
      assert s[..|s| - 1] == Base36(m / 36) == Base36(n / 36);
      Base36Differ(m / 36, n / 36);
      DigitsDiffer(m % 36, n % 36);
    }
  }
}
