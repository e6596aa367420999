/**
 * Value-level view of one flow's retransmission timing estimator: the state
 * of a `RetransmissionTiming` object and the effect of each of its
 * operations, as pure functions. The class in retransmission_timing.dfy is
 * proved to follow these functions step by step.
 */
module TimingModel {
  import opened SeqNum
  import opened RtoMath

  /**
   * Estimator state. The one-shot timer is reduced to whether it was
   * initialised, whether it is scheduled, and the delay it was last
   * scheduled with; the owning retransmitter to whether it is attached and
   * the acks forwarded to it.
   */
  datatype Timing = Timing(
    srtt: u32,
    rttvar: u32,
    rto: u32,
    clockGranularity: u32,
    measureInProgress: bool,
    rttSeq: u32,
    timerInitialized: bool,
    timerScheduled: bool,
    timerDelay: u32,
    hasOwner: bool,
    forwardedAcks: seq<u32>)

  /** An operation's new state and its boolean return value. */
  datatype Step = Step(state: Timing, ok: bool)

  /** The estimator's global invariant: the RTO stays within its bounds. */
  predicate Valid(t: Timing)
  {
    InRange(t.rto)
  }

  /** `isTimerRunning`: an uninitialised timer never counts as running. */
  predicate TimerRunning(t: Timing)
  {
    t.timerInitialized && t.timerScheduled
  }

  /** The three smoothed quantities that only a valid sample may change. */
  predicate SameEstimates(t: Timing, u: Timing)
  {
    t.srtt == u.srtt && t.rttvar == u.rttvar && t.rto == u.rto
  }

  /** A freshly constructed estimator. */
  function Initial(epsilon: u32, timerAdjustment: u32): (t: Timing)
    ensures Valid(t) && t.rto == InitialRto
    ensures t.srtt == 0 && t.rttvar == 0
    ensures !t.measureInProgress && !TimerRunning(t) && !t.hasOwner
    ensures epsilon <= t.clockGranularity && timerAdjustment <= t.clockGranularity
    ensures t.clockGranularity == epsilon || t.clockGranularity == timerAdjustment
  {
    Timing(0, 0, InitialRto, ClockGranularity(epsilon, timerAdjustment),
           false, 0, false, false, 0, false, [])
  }

  /** `initTimer`: attach the owner and initialise the timer. */
  function InitTimer(t: Timing): (u: Timing)
    ensures u.timerInitialized && u.hasOwner
    ensures u.timerScheduled == t.timerScheduled && u.timerDelay == t.timerDelay
    ensures SameEstimates(t, u) && u.measureInProgress == t.measureInProgress
    ensures u.(timerInitialized := t.timerInitialized, hasOwner := t.hasOwner) == t
  {
    t.(timerInitialized := true, hasOwner := true)
  }

  /** `startRTTMeasure(sequence)`: at most one sample in flight. */
  function StartMeasure(t: Timing, sequence: u32): (s: Step)
    ensures s.ok <==> !t.measureInProgress
    ensures !s.ok ==> s.state == t
    ensures s.ok ==> s.state.measureInProgress && s.state.rttSeq == sequence
    ensures s.ok ==> s.state.(measureInProgress := false, rttSeq := t.rttSeq) == t
  {
    if t.measureInProgress then Step(t, false)
    else Step(t.(measureInProgress := true, rttSeq := sequence), true)
  }

  /** The acks forwarded to the owner after it is told about `ack`. */
  function Forward(t: Timing, ack: u32): (acks: seq<u32>)
    ensures |acks| == |t.forwardedAcks| + (if t.hasOwner then 1 else 0)
    ensures acks[..|t.forwardedAcks|] == t.forwardedAcks
    ensures t.hasOwner ==> acks[|acks| - 1] == ack
  {
    if t.hasOwner then t.forwardedAcks + [ack] else t.forwardedAcks
  }

  /**
   * `signalAck(ack)` with `rtt` the milliseconds elapsed since the sample
   * started. The ack is always forwarded to the owner first. A sample
   * completes only when one is in progress and `ack` lies strictly after
   * the measured sequence number.
   */
  function Ack(t: Timing, ack: u32, rtt: u32): (s: Step)
    ensures s.ok <==> t.measureInProgress && SeqGt(ack, t.rttSeq)
    ensures s.state.forwardedAcks == Forward(t, ack)
    ensures !s.ok ==> s.state == t.(forwardedAcks := Forward(t, ack))
    ensures s.ok ==> !s.state.measureInProgress && Valid(s.state)
    ensures s.ok && t.srtt == 0 ==> s.state.srtt == rtt && s.state.rttvar == rtt / 2
    ensures s.ok && t.srtt != 0 ==>
              (t.srtt <= rtt ==> t.srtt <= s.state.srtt <= rtt) &&
              (rtt <= t.srtt ==> rtt <= s.state.srtt <= t.srtt)
    ensures s.ok ==> s.state.rto == Rto(s.state.srtt, s.state.rttvar, t.clockGranularity)
    ensures s.ok ==> s.state.(srtt := t.srtt, rttvar := t.rttvar, rto := t.rto,
                              measureInProgress := true, forwardedAcks := t.forwardedAcks) == t
    ensures Valid(t) ==> Valid(s.state)
  {
    var forwarded := t.(forwardedAcks := Forward(t, ack));
    if !t.measureInProgress || !SeqGt(ack, t.rttSeq) then Step(forwarded, false)
    else
      var srtt := if t.srtt == 0 then rtt else SmoothedSrtt(t.srtt, rtt);
      var rttvar := if t.srtt == 0 then rtt / 2 else SmoothedRttvar(t.srtt, t.rttvar, rtt);
      Step(forwarded.(measureInProgress := false, srtt := srtt, rttvar := rttvar,
                      rto := Rto(srtt, rttvar, t.clockGranularity)), true)
  }

  /**
   * `signalRetransmission(expectedAck)`: Karn's algorithm (section 3 of
   * RFC 6298) drops the sample when the retransmitted data covers it.
   */
  function Retransmit(t: Timing, expectedAck: u32): (s: Step)
    ensures s.ok <==> t.measureInProgress && SeqGt(expectedAck, t.rttSeq)
    ensures !s.ok ==> s.state == t
    ensures s.ok ==> s.state == t.(measureInProgress := false)
    ensures SameEstimates(t, s.state)
  {
    if t.measureInProgress && SeqGt(expectedAck, t.rttSeq) then
      Step(t.(measureInProgress := false), true)
    else Step(t, false)
  }

  /** `startTimer`: arm the timer with the current RTO unless it cannot be armed. */
  function StartTimer(t: Timing): (s: Step)
    ensures s.ok <==> t.timerInitialized && !t.timerScheduled
    ensures !s.ok ==> s.state == t
    ensures s.ok ==> TimerRunning(s.state) && s.state.timerDelay == t.rto
    ensures s.ok ==> s.state.(timerScheduled := false, timerDelay := t.timerDelay) == t
  {
    if !t.timerInitialized || TimerRunning(t) then Step(t, false)
    else Step(t.(timerScheduled := true, timerDelay := t.rto), true)
  }

  /** `startTimerDoubleRTO`: back off, then arm the timer with the new RTO. */
  function StartTimerDoubled(t: Timing): (s: Step)
    ensures s.ok <==> t.timerInitialized && !t.timerScheduled
    ensures !s.ok ==> s.state == t
    ensures s.ok && Valid(t) ==>
              s.state.rto == (if 2 * t.rto > MaxRto then MaxRto else 2 * t.rto)
    ensures s.ok ==> TimerRunning(s.state) && s.state.timerDelay == s.state.rto
    ensures s.ok ==> s.state.(timerScheduled := false, timerDelay := t.timerDelay, rto := t.rto) == t
    ensures Valid(t) ==> Valid(s.state)
  {
    if !t.timerInitialized || TimerRunning(t) then Step(t, false)
    else
      var rto := DoubledRto(t.rto);
      Step(t.(rto := rto, timerScheduled := true, timerDelay := rto), true)
  }

  /** `stopTimer`: only a running timer can be stopped. */
  function StopTimer(t: Timing): (s: Step)
    ensures s.ok <==> TimerRunning(t)
    ensures !s.ok ==> s.state == t
    ensures s.ok ==> s.state == t.(timerScheduled := false)
  {
    if !t.timerInitialized || !TimerRunning(t) then Step(t, false)
    else Step(t.(timerScheduled := false), true)
  }

  /** `restartTimer`: stop (ignoring the result), then start. */
  function RestartTimer(t: Timing): (s: Step)
    ensures s.ok <==> t.timerInitialized
    ensures !s.ok ==> s.state == t
    ensures s.ok ==> TimerRunning(s.state) && s.state.timerDelay == t.rto
    ensures s.ok ==> s.state.(timerScheduled := t.timerScheduled, timerDelay := t.timerDelay) == t
  {
    StartTimer(StopTimer(t).state)
  }

  /** The operations a transport handler performs on the estimator. */
  datatype Event =
    | InitTimerEv
    | StartMeasureEv(sequence: u32)
    | AckEv(ack: u32, rtt: u32)
    | RetransmitEv(expectedAck: u32)
    | StartTimerEv
    | StartTimerDoubledEv
    | StopTimerEv
    | RestartTimerEv

  function Apply(t: Timing, e: Event): (u: Timing)
    ensures Valid(t) ==> Valid(u)
  {
    match e
    case InitTimerEv => InitTimer(t)
    case StartMeasureEv(sequence) => StartMeasure(t, sequence).state
    case AckEv(ack, rtt) => Ack(t, ack, rtt).state
    case RetransmitEv(expectedAck) => Retransmit(t, expectedAck).state
    case StartTimerEv => StartTimer(t).state
    case StartTimerDoubledEv => StartTimerDoubled(t).state
    case StopTimerEv => StopTimer(t).state
    case RestartTimerEv => RestartTimer(t).state
  }

  function Run(t: Timing, events: seq<Event>): (u: Timing)
    decreases |events|
  {
    if events == [] then t else Run(Apply(t, events[0]), events[1..])
  }

  /** The RTO never leaves [MinRto, MaxRto], whatever the caller does. */
  lemma {:induction false} RunKeepsRtoInRange(t: Timing, events: seq<Event>)
    requires Valid(t)
    ensures Valid(Run(t, events))
    decreases |events|
  {
    if events != [] {
      RunKeepsRtoInRange(Apply(t, events[0]), events[1..]);
    }
  }

  /** In particular for every history that starts from construction. */
  lemma RtoInRangeFromConstruction(epsilon: u32, timerAdjustment: u32, events: seq<Event>)
    ensures InRange(Run(Initial(epsilon, timerAdjustment), events).rto)
  {
    RunKeepsRtoInRange(Initial(epsilon, timerAdjustment), events);
  }

  /**
   * Only a completed sample or a back-off changes srtt, rttvar and rto: a
   * history without acks and without back-offs leaves all three as they were.
   */
  lemma {:induction false} EstimatesStableWithoutSamples(t: Timing, events: seq<Event>)
    requires forall i :: 0 <= i < |events| ==> !events[i].AckEv? && !events[i].StartTimerDoubledEv?
    ensures SameEstimates(t, Run(t, events))
    decreases |events|
  {
    if events != [] {
      EstimatesStableWithoutSamples(Apply(t, events[0]), events[1..]);
    }
  }

  /** Two back-offs in a row: the second finds the timer scheduled and does nothing. */
  lemma SecondDoubledStartIsNoop(t: Timing)
    ensures var second := StartTimerDoubled(StartTimerDoubled(t).state);
            !second.ok && second.state == StartTimerDoubled(t).state
  {
  }

  /** A second sample cannot start while the first is in flight. */
  lemma AtMostOneSample(t: Timing, first: u32, second: u32)
    ensures var s := StartMeasure(StartMeasure(t, first).state, second);
            !s.ok && s.state.rttSeq == (if t.measureInProgress then t.rttSeq else first)
  {
  }

  /**
   * Karn's algorithm: once the measured segment is retransmitted, a later
   * ack cannot complete the sample and the estimates keep their values.
   */
  lemma KarnDiscardsRetransmittedSample(t: Timing, expectedAck: u32, ack: u32, rtt: u32)
    requires t.measureInProgress && SeqGt(expectedAck, t.rttSeq)
    ensures Retransmit(t, expectedAck).ok
    ensures var after := Ack(Retransmit(t, expectedAck).state, ack, rtt);
            !after.ok && SameEstimates(t, after.state)
  {
  }

  /**
   * First sample from construction: start measuring at sequence number 1000,
   * acknowledge 1001 after 50 ms. Then srtt is 50, rttvar 25, and the RTO
   * `50 + max(G, 100)` is raised to the 1000 ms floor.
   */
  lemma FirstSampleScenario(epsilon: u32, timerAdjustment: u32)
    requires epsilon <= 950 && timerAdjustment <= 950
    ensures var measuring := StartMeasure(Initial(epsilon, timerAdjustment), 1000);
            var acked := Ack(measuring.state, 1001, 50);
            measuring.ok && acked.ok && !acked.state.measureInProgress &&
            acked.state.srtt == 50 && acked.state.rttvar == 25 && acked.state.rto == 1000
  {
  }

  /**
   * A first sample (srtt still 0) of a realistic size installs
   * srtt = rtt, rttvar = rtt / 2 and the clamped RFC formula.
   */
  lemma FirstSampleEstimates(t: Timing, ack: u32, rtt: u32)
    requires t.measureInProgress && SeqGt(ack, t.rttSeq) && t.srtt == 0
    requires rtt < 0x4000_0000 && t.clockGranularity < TwoTo31
    ensures var s := Ack(t, ack, rtt);
            var raw := rtt + Max(t.clockGranularity, K * (rtt / 2));
            s.ok && s.state.srtt == rtt && s.state.rttvar == rtt / 2 &&
            s.state.rto == (if raw < MinRto then MinRto else if raw > MaxRto then MaxRto else raw)
  {
    FirstSampleRtoWithoutWrap(rtt, t.clockGranularity);
  }
}
