/**
 * The retransmission-timeout arithmetic of section 2 of RFC 6298 as the
 * estimator computes it in `uint32_t` milliseconds.
 */
module RtoMath {
  import opened SeqNum

  /** Lower bound on the RTO (section 2.4 of RFC 6298 / RFC 1122), in ms. */
  const MinRto: u32 := 1000
  /** Upper bound on the RTO (section 2.5 of RFC 6298), in ms. */
  const MaxRto: u32 := 60000
  /** RTO before any sample (section 4.2.3.1 of RFC 1122), in ms. */
  const InitialRto: u32 := 3000
  /** Variance multiplier K of RFC 6298. */
  const K: u32 := 4

  predicate InRange(rto: int)
  {
    MinRto <= rto <= MaxRto
  }

  function Max(a: int, b: int): (m: int)
  {
    if a < b then b else a
  }

  /**
   * Clock granularity G: the larger of the timestamp epsilon and the timer
   * adjustment, both already in milliseconds.
   */
  function ClockGranularity(epsilon: u32, timerAdjustment: u32): (g: u32)
    ensures epsilon <= g && timerAdjustment <= g
    ensures g == epsilon || g == timerAdjustment
  {
    if epsilon < timerAdjustment then timerAdjustment else epsilon
  }

  /**
   * `srtt + max(G, K * rttvar)` evaluated in `uint32_t`: both the product
   * and the sum wrap modulo 2^32. Without wrap-around it is the RFC formula.
   */
  function RawRto(srtt: u32, rttvar: u32, granularity: u32): (r: u32)
    ensures srtt + Max(granularity, K * rttvar) < TwoTo32 ==>
              r == srtt + Max(granularity, K * rttvar)
  {
    var rttvarFactor := Wrap32(K * rttvar);
    if granularity > rttvarFactor then Wrap32(srtt + granularity)
    else Wrap32(srtt + rttvarFactor)
  }

  /** The minimum check followed by the maximum check. */
  function ClampRto(x: u32): (r: u32)
    ensures InRange(r)
    ensures InRange(x) ==> r == x
    ensures x < MinRto ==> r == MinRto
    ensures x > MaxRto ==> r == MaxRto
  {
    var atLeastMin := if x < MinRto then MinRto else x;
    if atLeastMin > MaxRto then MaxRto else atLeastMin
  }

  /** The RTO installed after a valid sample. */
  function Rto(srtt: u32, rttvar: u32, granularity: u32): (r: u32)
    ensures InRange(r)
    ensures InRange(RawRto(srtt, rttvar, granularity)) ==> r == RawRto(srtt, rttvar, granularity)
  {
    ClampRto(RawRto(srtt, rttvar, granularity))
  }

  /**
   * Exponential back-off (section 5.5 of RFC 6298): `rto *= 2` in
   * `uint32_t`, then only the maximum check.
   */
  function DoubledRto(rto: u32): (r: u32)
    ensures InRange(rto) ==> InRange(r) && r == if 2 * rto > MaxRto then MaxRto else 2 * rto
    ensures InRange(rto) ==> rto <= r
  {
    var doubled := Wrap32(rto * 2);
    if doubled > MaxRto then MaxRto else doubled
  }

  function AbsDiff(a: u32, b: u32): (d: u32)
    ensures a <= b ==> a + d == b
    ensures b <= a ==> b + d == a
  {
    if a > b then a - b else b - a
  }

  /**
   * Integer stand-in for `(1 - ALPHA) * srtt + ALPHA * rtt` with ALPHA = 1/8,
   * truncated: a weighted mean, so it stays between the old value and the sample.
   */
  function SmoothedSrtt(srtt: u32, rtt: u32): (r: u32)
    ensures srtt <= rtt ==> srtt <= r <= rtt
    ensures rtt <= srtt ==> rtt <= r <= srtt
  {
    (7 * srtt + rtt) / 8
  }

  /**
   * Integer stand-in for `(1 - BETA) * rttvar + BETA * |srtt - rtt|` with
   * BETA = 1/4, truncated: between the old variance and the new deviation.
   */
  function SmoothedRttvar(srtt: u32, rttvar: u32, rtt: u32): (r: u32)
    ensures rttvar <= AbsDiff(srtt, rtt) ==> rttvar <= r <= AbsDiff(srtt, rtt)
    ensures AbsDiff(srtt, rtt) <= rttvar ==> AbsDiff(srtt, rtt) <= r <= rttvar
  {
    (3 * rttvar + AbsDiff(srtt, rtt)) / 4
  }

  /**
   * For a first sample below 2^30 ms and a granularity below 2^31 ms nothing
   * wraps, and the installed RTO is the RFC formula
   * `rtt + max(G, K * (rtt / 2))` clamped to [MinRto, MaxRto].
   */
  lemma FirstSampleRtoWithoutWrap(rtt: u32, granularity: u32)
    requires rtt < 0x4000_0000 && granularity < TwoTo31
    ensures var raw := rtt + Max(granularity, K * (rtt / 2));
            Rto(rtt, rtt / 2, granularity) ==
              if raw < MinRto then MinRto else if raw > MaxRto then MaxRto else raw
  {
  }
}
