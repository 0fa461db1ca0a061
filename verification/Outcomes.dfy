/** Values standing for the exceptions and the missing fields of the source. */
module Outcomes {

  datatype Option<+T> = None | Some(value: T)

  /** A returned value, or the error that was raised instead. */
  datatype Result<+T, +E> = Ok(value: T) | Err(error: E)

  /** The canonical digest of a document. Two documents have the same digest only
      if they are the same document, so a digest is represented by what it digests. */
  datatype Digest<+T> = DigestOf(content: T)

  /** One second in the unit of time used throughout, the microsecond. */
  const SECOND := 1_000_000

  /** A time rendered as text and read back: the fraction of a second is dropped. */
  function ToSecond(t: int): (s: int)
    ensures s <= t < s + SECOND
    ensures s % SECOND == 0
  {
    t - t % SECOND
  }

  lemma WholeSecondsSurvive(t: int)
    ensures ToSecond(t) == t <==> t % SECOND == 0
    ensures ToSecond(ToSecond(t)) == ToSecond(t)
  {
  }

  /** A whole-second bound holds after rounding exactly when it held before. */
  lemma RoundingKeepsBounds(bound: int, t: int)
    requires bound % SECOND == 0
    ensures bound <= ToSecond(t) <==> bound <= t
    ensures ToSecond(t) < bound <==> t < bound
  {
  }
}
