# Retransmission timing estimator (fastclick middlebox)

This project models `RetransmissionTiming`, the per-flow object that the
middlebox's TCP retransmitter attaches to each flow control block. The object does three things:

- **RTT sampling.** There are two states, idle and measuring (`measureInProgress`, `rttSeq`).
  At most one sample is in flight. An ack completes the sample only when it lies strictly
  after the measured sequence number in wraparound order (`SEQ_GT`). A retransmission
  that covers the measured segment discards the sample. This is Karn's algorithm,
  section 3 of RFC 6298.
- **RTO estimation**, as in section 2 of RFC 6298:
  - The first sample sets `srtt = rtt` and `rttvar = rtt / 2`.
  - Later samples smooth both values.
  - Then `rto = srtt + max(G, K * rttvar)`. G is the clock granularity: the larger of the
    timestamp epsilon and the timer adjustment.
  - The result is clamped to [1000, 60000] ms.
  - The RTO starts at 3000 ms (RFC 1122).
- **A guarded one-shot timer.** `startTimer`, `startTimerDoubleRTO` (exponential
  back-off, section 5.5 of RFC 6298), `stopTimer` and `restartTimer` each report with a
  boolean. They refuse to arm an uninitialised timer or one that is already scheduled,
  and to stop one that is not running.

Files:

- `seqnum.dfy` (module `SeqNum`) holds 32-bit sequence numbers, `uint32_t` wrap-around
  and `SEQ_GT`. `SEQ_GT(a, b)` is `(int)(a - b) > 0`: the unsigned difference lies in
  [1, 2^31).
- `rto.dfy` (module `RtoMath`) holds the constants, the clock granularity, the RTO
  formula in `uint32_t`, the clamp, the back-off and the smoothing.
- `timing_model.dfy` (module `TimingModel`) holds:
  - the estimator's state as a value `Timing`;
  - one function per operation, returning the new state and the boolean result;
  - histories of operations (`Run`) and the lemmas about them.
- `retransmission_timing.dfy` (module `Retransmission`) holds the class
  `RetransmissionTiming`. Its fields are updated in place by `modifies` methods. Each
  public operation is proved to keep the invariant `1000 <= rto <= 60000`. Each is also
  proved to move `State()` exactly as the matching `TimingModel` function does. The
  internal helpers `ComputeClockGranularity`, `ComputeRto`, `CheckRtoMaxValue` and
  `CheckRtoMinValue` instead state the new value of the one field they change.

The Click `Timer` is reduced to three fields: initialised, scheduled, and the delay it
was last scheduled with. The clock is replaced by a parameter: `SignalAck` receives
`rtt`, the milliseconds elapsed since the sample started. The call
`owner->signalAck(fcb, ack)` is recorded as an append to `forwardedAcks`. It happens
only when an owner is attached.

## Model

| member | source | states |
|---|---|---|
| `Retransmission.RetransmissionTiming.constructor` | elements/middlebox/retransmissiontiming.cc:9-17 | The new object satisfies the RTO invariant and equals `TimingModel.Initial`: srtt 0, rttvar 0, rto 3000, no sample in flight, timer not running. |
| `Retransmission.RetransmissionTiming.ComputeClockGranularity` | elements/middlebox/retransmissiontiming.cc:24-39 | Sets the granularity to `ClockGranularity(epsilon, timerAdjustment)` and changes no other field. |
| `RtoMath.ClockGranularity` | elements/middlebox/retransmissiontiming.cc:34-38 | The granularity is at least the epsilon and at least the timer adjustment, and it is one of the two. So it is their maximum. |
| `Retransmission.RetransmissionTiming.InitTimer` | elements/middlebox/retransmissiontiming.cc:41-51 | Attaches the owner and initialises the timer. Nothing else changes. |
| `TimingModel.InitTimer` | elements/middlebox/retransmissiontiming.cc:41-51 | Afterwards the timer is initialised and the owner attached. Every other field is unchanged: the scheduling state, the estimates, the sampling state (`measureInProgress`, `rttSeq`), the granularity and the forwarded acks. |
| `Retransmission.RetransmissionTiming.IsTimerInitialized` | elements/middlebox/retransmissiontiming.cc:53-56 | Returns true exactly when the timer has been initialised. |
| `Retransmission.RetransmissionTiming.StartRttMeasure` | elements/middlebox/retransmissiontiming.cc:58-68 | Its new state and result are those of `TimingModel.StartMeasure`. The RTO invariant is kept. |
| `TimingModel.StartMeasure` | elements/middlebox/retransmissiontiming.cc:58-68 | Succeeds exactly when no sample is in flight. On failure nothing changes. On success the object is measuring `sequence` and nothing else changes. |
| `Retransmission.RetransmissionTiming.SignalAck` | elements/middlebox/retransmissiontiming.cc:70-138 | Its new state and result are those of `TimingModel.Ack`. The RTO invariant is kept. |
| `TimingModel.Ack` | elements/middlebox/retransmissiontiming.cc:70-138 | See the list after this table. |
| `Retransmission.RetransmissionTiming.ComputeRto` | elements/middlebox/retransmissiontiming.cc:121-133 | Sets the RTO to `Rto(srtt, rttvar, G)`, which lies in [1000, 60000]. |
| `RtoMath.RawRto` | elements/middlebox/retransmissiontiming.cc:122-127 | When nothing overflows 32 bits, the value is exactly `srtt + max(G, K * rttvar)`. |
| `RtoMath.ClampRto` | elements/middlebox/retransmissiontiming.cc:131-132 | The result lies in [1000, 60000]. An in-range input is kept. A smaller input becomes 1000 and a larger one becomes 60000. |
| `RtoMath.Rto` | elements/middlebox/retransmissiontiming.cc:121-132 | The installed RTO always lies in [1000, 60000]. It equals the raw formula whenever that is already in range. |
| `RtoMath.FirstSampleRtoWithoutWrap` | elements/middlebox/retransmissiontiming.cc:91-132 | Take a first sample below 2^30 ms and a granularity below 2^31 ms. Then the RTO is `rtt + max(G, 4 * (rtt / 2))` clamped to [1000, 60000], with no 32-bit wrap. |
| `RtoMath.SmoothedSrtt` | elements/middlebox/retransmissiontiming.cc:113-118 | The new srtt lies between the old srtt and the sample. |
| `RtoMath.SmoothedRttvar` | elements/middlebox/retransmissiontiming.cc:106-117 | The new rttvar lies between the old rttvar and the deviation `abs(srtt - rtt)`. |
| `Retransmission.RetransmissionTiming.SignalRetransmission` | elements/middlebox/retransmissiontiming.cc:140-158 | Its new state and result are those of `TimingModel.Retransmit`. The RTO invariant is kept. |
| `TimingModel.Retransmit` | elements/middlebox/retransmissiontiming.cc:140-158 | Succeeds exactly when a sample is in flight and `SEQ_GT(expectedAck, rttSeq)` holds. On success only `measureInProgress` changes, to false. On failure nothing changes. srtt, rttvar and rto never change. |
| `Retransmission.RetransmissionTiming.IsMeasureInProgress` | elements/middlebox/retransmissiontiming.cc:160-163 | Returns true exactly when a sample is in flight. |
| `Retransmission.RetransmissionTiming.StartTimer` | elements/middlebox/retransmissiontiming.cc:165-175 | Its new state and result are those of `TimingModel.StartTimer`. The RTO invariant is kept. |
| `TimingModel.StartTimer` | elements/middlebox/retransmissiontiming.cc:165-175 | Succeeds exactly when the timer is initialised and not scheduled. On failure nothing changes. On success the timer runs with delay `rto` and nothing else changes. |
| `Retransmission.RetransmissionTiming.StartTimerDoubleRto` | elements/middlebox/retransmissiontiming.cc:177-189 | Its new state and result are those of `TimingModel.StartTimerDoubled`. The RTO invariant is kept. |
| `TimingModel.StartTimerDoubled` | elements/middlebox/retransmissiontiming.cc:177-189 | Same guard as `StartTimer`. On failure nothing changes, including `rto`. On success `rto` becomes `min(2 * rto, 60000)` and the timer runs with that delay. The RTO invariant is kept. |
| `RtoMath.DoubledRto` | elements/middlebox/retransmissiontiming.cc:182-183 | Start from an in-range RTO. Doubling and then checking only the maximum gives `min(2 * rto, 60000)`. That value is still in range and not smaller than before. |
| `Retransmission.RetransmissionTiming.StopTimer` | elements/middlebox/retransmissiontiming.cc:191-201 | Its new state and result are those of `TimingModel.StopTimer`. The RTO invariant is kept. |
| `TimingModel.StopTimer` | elements/middlebox/retransmissiontiming.cc:191-201 | Succeeds exactly when the timer is running, and then only unschedules it. On failure nothing changes. |
| `Retransmission.RetransmissionTiming.RestartTimer` | elements/middlebox/retransmissiontiming.cc:203-211 | Stops and then starts the timer. Its new state and result are those of `TimingModel.RestartTimer`. |
| `TimingModel.RestartTimer` | elements/middlebox/retransmissiontiming.cc:203-211 | Succeeds exactly when the timer is initialised, and then the timer runs with delay `rto`. Otherwise nothing changes. No other field changes in either case. |
| `Retransmission.RetransmissionTiming.IsTimerRunning` | elements/middlebox/retransmissiontiming.cc:213-219 | Returns true exactly when the timer is initialised and scheduled. |
| `Retransmission.RetransmissionTiming.CheckRtoMaxValue` | elements/middlebox/retransmissiontiming.cc:221-226 | An RTO above 60000 becomes 60000. Any other RTO is kept. |
| `Retransmission.RetransmissionTiming.CheckRtoMinValue` | elements/middlebox/retransmissiontiming.cc:228-233 | An RTO below 1000 becomes 1000. Any other RTO is kept. |
| `SeqNum.SeqGt` | elements/middlebox/retransmissiontiming.cc:78 | `SEQ_GT(a, b)`: holds exactly when the unsigned difference `(a - b) mod 2^32`, cast to a signed 32-bit int, is positive, i.e. lies in [1, 2^31). It decides both `signalAck` (line 78) and `signalRetransmission` (line 149). |
| `SeqNum.Signed32` | elements/middlebox/retransmissiontiming.cc:78 | The `(int)` cast inside `SEQ_GT`: the result lies in [-2^31, 2^31) and wraps back to the same `uint32_t`. |
| `RtoMath.AbsDiff` | elements/middlebox/retransmissiontiming.cc:106-110 | `rttAbs = abs(srtt - rtt)`: adding it to the smaller of the two operands gives the larger. |
| `TimingModel.Forward` | elements/middlebox/retransmissiontiming.cc:72-73 | The ack is appended to the owner's log exactly when an owner is attached. The earlier entries are kept. |
| `SeqNum.SeqGtIrreflexive` | elements/middlebox/retransmissiontiming.cc:78 | No sequence number lies strictly after itself. |
| `SeqNum.SeqGtAsymmetric` | elements/middlebox/retransmissiontiming.cc:78 | `SEQ_GT(a, b)` and `SEQ_GT(b, a)` never both hold. |
| `SeqNum.SeqGtIsForwardStep` | elements/middlebox/retransmissiontiming.cc:78 | `SEQ_GT(a, b)` holds exactly when the forward distance from b to a, modulo 2^32, lies in [1, 2^31). |
| `SeqNum.SeqGtAfterAdvance` | elements/middlebox/retransmissiontiming.cc:149 | Advancing b by 1 to 2^31 - 1, wrapping modulo 2^32, lands strictly after b. |
| `SeqNum.SeqGtTotal` | elements/middlebox/retransmissiontiming.cc:78 | Take two distinct numbers that are not exactly 2^31 apart. Exactly one of them lies after the other. |
| `SeqNum.Distance` | elements/middlebox/retransmissiontiming.cc:78 | The forward distance d from b to a satisfies `(b + d) mod 2^32 == a`. It is 0 exactly when a == b. |
| `TimingModel.Initial` | elements/middlebox/retransmissiontiming.cc:9-17 | Gives srtt 0, rttvar 0 and rto 3000. No sample is in flight, the timer is not running and no owner is attached. The granularity is the maximum of its two inputs. |
| `TimingModel.Apply` | elements/middlebox/retransmissiontiming.cc:41-219 | Every operation keeps the RTO in [1000, 60000]. |
| `TimingModel.RunKeepsRtoInRange` | elements/middlebox/retransmissiontiming.cc:41-233 | After any sequence of operations from a valid state, the RTO is still in [1000, 60000]. The proof is by induction on the history. |
| `TimingModel.RtoInRangeFromConstruction` | elements/middlebox/retransmissiontiming.cc:9-17 | From construction, every history leaves the RTO in [1000, 60000]. |
| `TimingModel.EstimatesStableWithoutSamples` | elements/middlebox/retransmissiontiming.cc:140-219 | A history with no acks and no back-offs leaves srtt, rttvar and rto unchanged. The proof is by induction. |
| `TimingModel.SecondDoubledStartIsNoop` | elements/middlebox/retransmissiontiming.cc:177-189 | A second `startTimerDoubleRTO` right after a first one fails and changes nothing, from any state. |
| `TimingModel.AtMostOneSample` | elements/middlebox/retransmissiontiming.cc:58-68 | Two `startRTTMeasure` calls in a row: the second fails and the first sample's sequence number is kept. |
| `TimingModel.KarnDiscardsRetransmittedSample` | elements/middlebox/retransmissiontiming.cc:140-158 | Once the measured segment is retransmitted, no later ack completes the sample. srtt, rttvar and rto keep their values. |
| `TimingModel.FirstSampleScenario` | elements/middlebox/retransmissiontiming.cc:83-96 | Start from construction, measure at 1000, then ack 1001 after 50 ms. The result is srtt 50, rttvar 25 and rto 1000, whenever G is at most 950. |
| `TimingModel.FirstSampleEstimates` | elements/middlebox/retransmissiontiming.cc:91-132 | A valid first sample of realistic size gives `srtt = rtt` and `rttvar = rtt / 2`. The RTO is the clamped RFC formula, obtained from `RtoMath.FirstSampleRtoWithoutWrap`. |

`TimingModel.Ack` states:

- The ack is forwarded to the owner exactly when one is attached.
- The call succeeds exactly when a sample is in flight and `SEQ_GT(ack, rttSeq)` holds.
- On failure nothing else changes.
- On success the object is idle, and:
  - a first sample (srtt was 0) gives `srtt = rtt` and `rttvar = rtt / 2`;
  - a later sample gives an srtt between the old srtt and `rtt`;
  - `rto = Rto(srtt, rttvar, G)`, which lies in [1000, 60000];
  - the timer, `rttSeq` and the granularity are unchanged.

## Left out

- `elements/flow/flowipmanagerimp.hh` is not modelled. It declares the flow table manager
  and has no function bodies. Its behaviour sits in a foreign cuckoo hash (`rte_hash`),
  a timer wheel, packet-batch I/O and a cross-thread `volatile int owner`. None of that
  can be stated from the declarations.
- RtoMath.SmoothedSrtt: replaces the single-precision float computation of lines
  113-118 with the truncated integer weighted mean `(7 * srtt + rtt) / 8`, taking
  ALPHA = 1/8. It is an abstraction: float rounding of large values is not modelled.
- RtoMath.SmoothedRttvar: replaces the float computation of lines 106-117 with
  `(3 * rttvar + abs(srtt - rtt)) / 4`, taking BETA = 1/4. It is an abstraction in the
  same way.
- RtoMath.K: ALPHA, BETA and K are defined in `retransmissiontiming.hh`, which is not
  part of this model. They take the RFC 6298 values 1/8, 1/4 and 4.
- `uint32_t` wrap-around of `K * rttvar`, `srtt + ...` and `rto *= 2` is modelled with
  `Wrap32`. The clamp bound holds regardless.
- Retransmission.RetransmissionTiming.ComputeRto: lines 121-133 of `signalAck` are
  written as a separate method of the class. This keeps the proof of `SignalAck` small.
  The computation is unchanged.
- The clock (`Timestamp::assign_now`, `measureStartTime`, `measureEndTime`, `msecval`)
  is not modelled. `SignalAck` receives the elapsed milliseconds `rtt` instead.
- `Timestamp::epsilon()` and `timer.adjustment()` are inputs to the constructor.
- Retransmission.RetransmissionTiming.InitTimer: the fcb and retransmitter pointers and
  the callback wiring (`timerData`, `timer.assign`) are not modelled. The call is reduced
  to "an owner is attached and the timer is initialised". The retransmitter is assumed
  to be non-null.
- The timer's expiry and the `timerFired` callback (lines 235-240) are not modelled. They
  dereference `void*` data and call into the retransmitter.
  Expiry itself only unschedules the timer, which is exactly the effect of
  `StopTimerEv`. So `TimingModel.RunKeepsRtoInRange` and
  `TimingModel.EstimatesStableWithoutSamples` also cover histories in which the timer
  fires. `TimingModel.SecondDoubledStartIsNoop` is about two back-offs with no expiry
  and no stop in between.
- The owner's handling of a forwarded ack is not modelled. It is only recorded in
  `forwardedAcks`.
- `click_chatter` logging is left out.
- The destructor (lines 19-22) only calls `stopTimer`, so it is left out.
- The C++ constructor leaves `rttSeq` uninitialised. The model sets it to 0. It is read
  only while a sample is in flight, and `startRTTMeasure` assigns it first.
