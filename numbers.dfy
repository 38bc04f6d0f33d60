/**
 * Python's `int(token)` and `float(token)` on the tokens a chat user types,
 * over a restricted grammar: an optional `+` or `-`, then decimal digits;
 * for `float`, optionally a `.` followed by at most two digits (amounts are
 * integer cents). Whitespace, underscores, exponents, "inf" and "nan" are
 * not part of the grammar and are read as non-numeric.
 */
module Numbers {
  import opened Wrappers
  import opened Text

  predicate IsSign(c: char) {
    c == '+' || c == '-'
  }

  /** The position of the first `.` of `s`, or `|s|` when there is none. */
  function DotIndex(s: string): (k: nat)
    ensures k <= |s|
    ensures k < |s| ==> s[k] == '.'
    ensures forall i :: 0 <= i < k ==> s[i] != '.'
    decreases |s|
  {
    if s == [] || s[0] == '.' then 0 else 1 + DotIndex(s[1..])
  }

  /** `int(t)`: an optional sign and at least one digit. */
  function ParseInt(t: string): Option<int> {
    var body := if |t| > 0 && IsSign(t[0]) then t[1..] else t;
    if |body| >= 1 && AllDigits(body) then
      var n: int := DigitsValue(body);
      Some(if |t| > 0 && t[0] == '-' then -n else n)
    else None
  }

  /** An unsigned decimal in cents: "12", "12.", "12.5", "12.50", ".5"; not "." nor "1.234". */
  function ParseUnsignedCents(b: string): Option<nat> {
    var k := DotIndex(b);
    var whole := b[..k];
    var frac := if k < |b| then b[k + 1..] else "";
    if AllDigits(whole) && AllDigits(frac) && |frac| <= 2 && |whole| + |frac| >= 1 then
      Some(DigitsValue(whole) * 100 + (if |frac| == 1 then DigitsValue(frac) * 10 else DigitsValue(frac)))
    else None
  }

  /** `float(t)`, in cents. A `-` sign can only give zero or less. */
  function ParseCents(t: string): (r: Option<int>)
    ensures r.Some? && |t| > 0 && t[0] == '-' ==> r.value <= 0
  {
    if |t| > 0 && IsSign(t[0]) then
      match ParseUnsignedCents(t[1..])
      case None => None
      case Some(v) => var n: int := v; Some(if t[0] == '-' then -n else n)
    else ParseUnsignedCents(t)
  }

  /** `int(str(i)) == i`. */
  lemma IntRoundTrip(i: int)
    ensures ParseInt(IntToString(i)) == Some(i)
  {
    var n: nat := if i < 0 then -i else i;
    var s := NatToString(n);
    NatToStringValue(n);
    if i < 0 {
      assert IntToString(i) == "-" + s;
      assert ("-" + s)[1..] == s;
    } else {
      assert IntToString(i) == s;
      assert IsDigit(s[0]);
    }
  }

  /** The first `.` after a run of digits is the one that ends it. */
  lemma DotAfterDigits(w: string, rest: string)
    requires AllDigits(w) && |rest| >= 1 && rest[0] == '.'
    ensures DotIndex(w + rest) == |w|
  {
    var s := w + rest;
    var k := DotIndex(s);
    assert s[|w|] == '.';
  }

  /** Two digits after the point are read as their cents. */
  lemma TwoDigitsValue(a: nat, b: nat)
    requires a < 10 && b < 10
    ensures DigitsValue([DigitChar(a), DigitChar(b)]) == a * 10 + b
  {
    var s := [DigitChar(a), DigitChar(b)];
    assert s[..1] == [DigitChar(a)];
    assert [DigitChar(a)][..0] == [];
    assert DigitsValue([DigitChar(a)]) == a;
    assert DigitsValue(s) == DigitsValue(s[..1]) * 10 + DigitValue(s[1]);
  }

  lemma UnsignedRoundTrip(q: nat, a: nat, b: nat)
    requires a < 10 && b < 10
    ensures ParseUnsignedCents(NatToString(q) + "." + [DigitChar(a), DigitChar(b)]) == Some(q * 100 + a * 10 + b)
  {
    var w := NatToString(q);
    var f := [DigitChar(a), DigitChar(b)];
    var s := w + "." + f;
    assert s == w + ("." + f);
    DotAfterDigits(w, "." + f);
    assert s[..|w|] == w;
    assert s[|w| + 1..] == f;
    NatToStringValue(q);
    TwoDigitsValue(a, b);
  }

  lemma CentsDigits(m: nat)
    ensures m == (m / 100) * 100 + (m % 100 / 10) * 10 + m % 100 % 10
  {
    var r := m % 100;
    assert m == (m / 100) * 100 + r;
    assert r == (r / 10) * 10 + r % 10;
  }

  /** An unsigned amount text starts with a digit and reads back as its cents. */
  lemma UnsignedText(m: nat)
    ensures |FormatUnsigned(m)| > 0 && IsDigit(FormatUnsigned(m)[0])
    ensures ParseUnsignedCents(FormatUnsigned(m)) == Some(m)
  {
    UnsignedRoundTrip(m / 100, m % 100 / 10, m % 100 % 10);
    CentsDigits(m);
    assert FormatUnsigned(m)[0] == NatToString(m / 100)[0];
  }

  /** A sign in front of an unsigned decimal gives that value with the sign. */
  lemma SignedReadsBack(u: string, v: nat)
    requires ParseUnsignedCents(u) == Some(v)
    ensures ParseCents("+" + u) == Some(v) && ParseCents("-" + u) == Some(-(v as int))
  {
    assert ("+" + u)[1..] == u;
    assert ("-" + u)[1..] == u;
  }

  /** `float(f"{x:.2f}") == x` for every amount in cents, negative ones included. */
  lemma CentsRoundTrip(c: int)
    ensures ParseCents(FormatCents(c)) == Some(c)
  {
    if c < 0 {
      UnsignedText(-c);
      SignedReadsBack(FormatUnsigned(-c), -c);
    } else {
      UnsignedText(c);
    }
  }

  /** Every token `int` accepts, `float` accepts with the same value. */
  lemma IntTokenIsDecimal(t: string)
    requires ParseInt(t).Some?
    ensures ParseCents(t) == Some(ParseInt(t).value * 100)
  {
    var body := if |t| > 0 && IsSign(t[0]) then t[1..] else t;
    assert DotIndex(body) == |body|;
    assert body[..|body|] == body;
  }
}
