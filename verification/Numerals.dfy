/** Decimal numerals as text, and the ordinary value of such a text. */
module Numerals {
  predicate IsDigit(c: char) {
    '0' <= c <= '9'
  }

  function DigitOf(c: char): nat
    requires IsDigit(c)
  {
    c as int - '0' as int
  }

  function DigitChar(d: nat): char
    requires d <= 9
  {
    ('0' as int + d) as char
  }

  predicate AllDigits(s: string) {
    forall i | 0 <= i < |s| :: IsDigit(s[i])
  }

  function Pow10(n: nat): (p: nat)
    ensures p >= 1
  {
    if n == 0 then 1 else 10 * Pow10(n - 1)
  }

  /** Positional value of a string of digits; the empty string counts as zero. */
  function NatOf(s: string): nat
    requires AllDigits(s)
  {
    if s == "" then 0 else NatOf(s[..|s| - 1]) * 10 + DigitOf(s[|s| - 1])
  }

  /** Index of the first `c`, or the length of `s` when there is none. */
  function Find(s: string, c: char): (r: nat)
    ensures r <= |s|
    ensures c !in s[..r]
    ensures r < |s| ==> s[r] == c
  {
    if s == "" || s[0] == c then 0 else 1 + Find(s[1..], c)
  }

  predicate Signed(s: string) {
    s != "" && s[0] == '-'
  }

  function Body(s: string): string {
    if Signed(s) then s[1..] else s
  }

  function Whole(s: string): string {
    Body(s)[..Find(Body(s), '.')]
  }

  predicate HasPoint(s: string) {
    Find(Body(s), '.') < |Body(s)|
  }

  function Frac(s: string): string {
    if HasPoint(s) then Body(s)[Find(Body(s), '.') + 1..] else ""
  }

  /** Optional minus, one or more digits, optionally a point and digits. */
  predicate IsNumeral(s: string) {
    Whole(s) != "" && AllDigits(Whole(s)) && AllDigits(Frac(s))
  }

  function Magnitude(whole: string, frac: string): real
    requires AllDigits(whole) && AllDigits(frac)
  {
    NatOf(whole) as real + NatOf(frac) as real / Pow10(|frac|) as real
  }

  function DecimalValue(s: string): real
    requires IsNumeral(s)
  {
    if Signed(s) then -Magnitude(Whole(s), Frac(s)) else Magnitude(Whole(s), Frac(s))
  }

  /** Only one split of a text has a point-free left part that ends the text or meets a point. */
  lemma {:induction false} FindIsUnique(s: string, c: char, r: nat)
    requires r <= |s| && c !in s[..r] && (r < |s| ==> s[r] == c)
    ensures Find(s, c) == r
  {
    assert forall i | 0 <= i < r :: s[..r][i] != c;
    assert forall i | 0 <= i < Find(s, c) :: s[..Find(s, c)][i] != c;
  }

  /** How a text with the given parts reads back. */
  lemma PartsOf(minus: bool, whole: string, point: bool, frac: string)
    requires whole != "" && AllDigits(whole) && AllDigits(frac) && (!point ==> frac == "")
    ensures var s := (if minus then "-" else "") + whole + (if point then "." else "") + frac;
            IsNumeral(s) && Signed(s) == minus && Whole(s) == whole && HasPoint(s) == point && Frac(s) == frac
  {
    var body := whole + (if point then "." else "") + frac;
    var s := (if minus then "-" else "") + whole + (if point then "." else "") + frac;
    assert s == (if minus then "-" else "") + body;
    assert IsDigit(whole[0]) && body[0] == whole[0];
    assert Body(s) == body;
    assert body[..|whole|] == whole;
    assert '.' !in whole by {
      assert forall i | 0 <= i < |whole| :: IsDigit(whole[i]);
    }
    FindIsUnique(body, '.', |whole|);
  }

  /** Every numeral is put back together from its parts. */
  lemma Reassembled(s: string)
    requires IsNumeral(s)
    ensures s == (if Signed(s) then "-" else "") + Whole(s) + (if HasPoint(s) then "." else "") + Frac(s)
    ensures s != "" && Whole(s) != "" && AllDigits(Whole(s)) && AllDigits(Frac(s)) && (HasPoint(s) || Frac(s) == "")
  {
    var b := Body(s);
    var d := Find(b, '.');
    if d < |b| {
      assert b == b[..d] + [b[d]] + b[d + 1..];
      assert b == Whole(s) + "." + Frac(s);
    } else {
      assert b == Whole(s) + "" + Frac(s);
    }
    assert s == (if Signed(s) then "-" else "") + b;
  }
}
