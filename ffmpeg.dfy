/**
  The handful of FFmpeg constants and types that the QtAV glue reads. FFmpeg
  itself is not modelled: its calls appear as their return codes and results.
 */
module FFmpeg {
  import opened Wrappers

  /** AVERROR(EAGAIN): "output not available in this state" (EAGAIN is 11 on Linux). */
  const AVERROR_EAGAIN: int := -11

  /** AVERROR_EOF, the negated tag 'E','O','F',' ' (0x20464F45). */
  const AVERROR_EOF: int := -541478725

  /** Number of data pointers and line sizes an AVFrame carries inline. */
  const AV_NUM_DATA_POINTERS: nat := 8

  /** The smallest input buffer an encoder accepts. */
  const AV_INPUT_BUFFER_MIN_SIZE: int := 16384

  /** An AVRational. */
  datatype Rational = Rational(num: int, den: int)

  /**
    av_q2d: the value of a rational. A zero denominator yields infinity or NaN
    in floating point; the model has no such value and answers None.
   */
  function Q2d(q: Rational): (r: Option<real>)
    ensures r.Some? <==> q.den != 0
    ensures r.Some? && q.num == q.den ==> r.value == 1.0
  {
    if q.den == 0 then None else Some(q.num as real / q.den as real)
  }
}
