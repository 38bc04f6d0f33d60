/** The `None`-returning token converters that the command handlers use. */
module Utils {
  import opened Wrappers
  import opened Text
  import opened Numbers
  import opened Models

  /** `parse_amount`: the amount in cents, or `None` when not numeric or below 0.01. */
  function ParseAmount(t: string): (r: Option<int>)
    ensures r.Some? ==> ParseCents(t) == Some(r.value) && r.value >= MIN_AMOUNT
    ensures r.None? <==> ParseCents(t).None? || ParseCents(t).value < MIN_AMOUNT
  {
    match ParseCents(t)
    case None => None
    case Some(v) => if v < MIN_AMOUNT then None else Some(v)
  }

  /** `parse_id`: the integer, or `None` when not an integer or negative; 0 is accepted. */
  function ParseId(t: string): (r: Option<nat>)
    ensures r.Some? ==> ParseInt(t) == Some(r.value)
    ensures r.None? <==> ParseInt(t).None? || ParseInt(t).value < 0
  {
    match ParseInt(t)
    case None => None
    case Some(n) => if n < 0 then None else Some(n)
  }

  /** An amount written as the replies write it is read back exactly when it is at least 0.01. */
  lemma ParseAmountOfFormatted(c: int)
    ensures ParseAmount(FormatCents(c)) == if c >= MIN_AMOUNT then Some(c) else None
  {
    CentsRoundTrip(c);
  }

  /** A token with a leading `-` never passes: the minimum rejects every negative value and zero. */
  lemma ParseAmountRejectsMinus(t: string)
    requires |t| > 0 && t[0] == '-'
    ensures ParseAmount(t) == None
  {
  }

  /** An ID written by `str` is read back exactly when it is not negative. */
  lemma ParseIdOfFormatted(i: int)
    ensures ParseId(IntToString(i)) == if i >= 0 then Some(i) else None
  {
    IntRoundTrip(i);
  }
}
