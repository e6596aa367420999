/**
 * 32-bit TCP sequence numbers and the wraparound-aware comparison SEQ_GT
 * (clicknet/tcp.h is not part of this model; its macro is the usual
 * serial-number comparison of section 3.3 of RFC 793: `(int)(a - b) > 0`).
 */
module SeqNum {

  const TwoTo32: int := 0x1_0000_0000
  const TwoTo31: int := 0x8000_0000

  /** The C `uint32_t`. */
  type u32 = x: int | 0 <= x < 0x1_0000_0000

  /** Unsigned 32-bit wrap-around of a C expression evaluated in `uint32_t`. */
  function Wrap32(x: int): (r: u32)
    ensures 0 <= x < TwoTo32 ==> r == x
  {
    x % TwoTo32
  }

  /** The C cast `(int)` of a `uint32_t`: two's-complement reinterpretation. */
  function Signed32(x: u32): (v: int)
    ensures -TwoTo31 <= v < TwoTo31
    ensures Wrap32(v) == x
  {
    if x < TwoTo31 then x else x - TwoTo32
  }

  /** Forward distance from `b` to `a` on the 2^32 circle. */
  function Distance(a: u32, b: u32): (d: u32)
    ensures Wrap32(b + d) == a
    ensures a == b <==> d == 0
  {
    if a >= b then a - b else a - b + TwoTo32
  }

  /**
   * SEQ_GT(a, b): `a` lies strictly after `b`, i.e. the unsigned difference
   * `a - b`, reinterpreted as a signed 32-bit integer, is positive.
   */
  predicate SeqGt(a: u32, b: u32): (r: bool)
    ensures r <==> Signed32(Wrap32(a - b)) > 0
  {
    var d := Wrap32(a - b);
    1 <= d < TwoTo31
  }

  /** No sequence number lies after itself. */
  lemma SeqGtIrreflexive(a: u32)
    ensures !SeqGt(a, a)
  {
  }

  /** `a` after `b` and `b` after `a` never both hold. */
  lemma SeqGtAsymmetric(a: u32, b: u32)
    ensures SeqGt(a, b) ==> !SeqGt(b, a)
  {
  }

  /**
   * SEQ_GT holds exactly when `a` is reached from `b` by moving forward
   * between 1 and 2^31 - 1 steps, wrapping past 2^32 - 1 if needed.
   */
  lemma SeqGtIsForwardStep(a: u32, b: u32)
    ensures SeqGt(a, b) <==> 1 <= Distance(a, b) < TwoTo31
  {
  }

  /** Moving forward by `n` in [1, 2^31) from `b` lands strictly after `b`. */
  lemma SeqGtAfterAdvance(b: u32, n: int)
    requires 1 <= n < TwoTo31
    ensures SeqGt(Wrap32(b + n), b)
  {
  }

  /**
   * For two distinct sequence numbers that are not exactly half the circle
   * apart, exactly one lies after the other.
   */
  lemma SeqGtTotal(a: u32, b: u32)
    requires a != b && Distance(a, b) != TwoTo31
    ensures SeqGt(a, b) != SeqGt(b, a)
  {
  }
}
