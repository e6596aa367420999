/**
 * The per-flow `RetransmissionTiming` object: RTT sampling, RTO estimation
 * and a guarded one-shot retransmission timer. Every method updates the
 * object's fields in place and is proved to move `State()` exactly as the
 * corresponding function of TimingModel does, keeping the RTO in range.
 */
module Retransmission {
  import opened SeqNum
  import opened RtoMath
  import TimingModel

  class RetransmissionTiming {
    var srtt: u32
    var rttvar: u32
    var rto: u32
    var clockGranularity: u32
    var measureInProgress: bool
    var rttSeq: u32
    // The Click timer: initialised, scheduled, and the delay last scheduled.
    var timerInitialized: bool
    var timerScheduled: bool
    var timerDelay: u32
    // The owning retransmitter and the acks it has been told about.
    var hasOwner: bool
    var forwardedAcks: seq<u32>

    /** The class invariant: the RTO lies within [MinRto, MaxRto]. */
    predicate Valid()
      reads this
    {
      TimingModel.Valid(State())
    }

    /** The object's fields as a TimingModel value. */
    function State(): (t: TimingModel.Timing)
      reads this
    {
      TimingModel.Timing(srtt, rttvar, rto, clockGranularity, measureInProgress, rttSeq,
                         timerInitialized, timerScheduled, timerDelay, hasOwner, forwardedAcks)
    }

    constructor (epsilon: u32, timerAdjustment: u32)
      ensures Valid()
      ensures State() == TimingModel.Initial(epsilon, timerAdjustment)
    {
      srtt := 0;
      rttvar := 0;
      rto := InitialRto;
      clockGranularity := 0;
      measureInProgress := false;
      rttSeq := 0;
      timerInitialized := false;
      timerScheduled := false;
      timerDelay := 0;
      hasOwner := false;
      forwardedAcks := [];
      new;
      ComputeClockGranularity(epsilon, timerAdjustment);
    }

    /** Keep the coarser of the timestamp and timer resolutions. */
    method ComputeClockGranularity(epsilon: u32, timerAdjustment: u32)
      modifies this`clockGranularity
      ensures clockGranularity == ClockGranularity(epsilon, timerAdjustment)
    {
      if epsilon < timerAdjustment {
        clockGranularity := timerAdjustment;
      } else {
        clockGranularity := epsilon;
      }
    }

    method InitTimer()
      requires Valid()
      modifies this`timerInitialized, this`hasOwner
      ensures Valid()
      ensures State() == TimingModel.InitTimer(old(State()))
    {
      hasOwner := true;
      timerInitialized := true;
    }

    method IsTimerInitialized() returns (r: bool)
      ensures r <==> State().timerInitialized
    {
      r := timerInitialized;
    }

    method StartRttMeasure(sequence: u32) returns (ok: bool)
      requires Valid()
      modifies this`measureInProgress, this`rttSeq
      ensures Valid()
      ensures TimingModel.Step(State(), ok) == TimingModel.StartMeasure(old(State()), sequence)
    {
      if measureInProgress {
        return false;
      }
      measureInProgress := true;
      rttSeq := sequence;
      return true;
    }

    /** `rtt` is the time elapsed since the sample started, in milliseconds. */
    method SignalAck(ack: u32, rtt: u32) returns (ok: bool)
      requires Valid()
      modifies this`forwardedAcks, this`measureInProgress, this`srtt, this`rttvar, this`rto
      ensures Valid()
      ensures TimingModel.Step(State(), ok) == TimingModel.Ack(old(State()), ack, rtt)
    {
      if hasOwner {
        forwardedAcks := forwardedAcks + [ack];
      }
      if !measureInProgress {
        return false;
      }
      if SeqGt(ack, rttSeq) {
        measureInProgress := false;
        if srtt == 0 {
          srtt := rtt;
          rttvar := rtt / 2;
        } else {
          var newRttvar := SmoothedRttvar(srtt, rttvar, rtt);
          var newSrtt := SmoothedSrtt(srtt, rtt);
          rttvar := newRttvar;
          srtt := newSrtt;
        }
        ComputeRto();
        return true;
      }
      return false;
    }

    /**
     * The RTO from the current estimates (the tail of `signalAck`):
     * `srtt + max(G, K * rttvar)` in `uint32_t`, then the two bound checks.
     */
    method ComputeRto()
      modifies this`rto
      ensures rto == Rto(srtt, rttvar, clockGranularity)
      ensures InRange(rto)
    {
      rto := srtt;
      var rttvarFactor := Wrap32(K * rttvar);
      if clockGranularity > rttvarFactor {
        rto := Wrap32(rto + clockGranularity);
      } else {
        rto := Wrap32(rto + rttvarFactor);
      }
      CheckRtoMinValue();
      CheckRtoMaxValue();
    }

    method SignalRetransmission(expectedAck: u32) returns (ok: bool)
      requires Valid()
      modifies this`measureInProgress
      ensures Valid()
      ensures TimingModel.Step(State(), ok) == TimingModel.Retransmit(old(State()), expectedAck)
    {
      if !measureInProgress {
        return false;
      }
      if SeqGt(expectedAck, rttSeq) {
        measureInProgress := false;
        return true;
      }
      return false;
    }

    method IsMeasureInProgress() returns (r: bool)
      ensures r <==> State().measureInProgress
    {
      r := measureInProgress;
    }

    method StartTimer() returns (ok: bool)
      requires Valid()
      modifies this`timerScheduled, this`timerDelay
      ensures Valid()
      ensures TimingModel.Step(State(), ok) == TimingModel.StartTimer(old(State()))
    {
      var running := IsTimerRunning();
      if !timerInitialized || running {
        return false;
      }
      timerScheduled, timerDelay := true, rto;
      return true;
    }

    method StartTimerDoubleRto() returns (ok: bool)
      requires Valid()
      modifies this`rto, this`timerScheduled, this`timerDelay
      ensures Valid()
      ensures TimingModel.Step(State(), ok) == TimingModel.StartTimerDoubled(old(State()))
    {
      var running := IsTimerRunning();
      if !timerInitialized || running {
        return false;
      }
      rto := Wrap32(rto * 2);
      CheckRtoMaxValue();
      timerScheduled, timerDelay := true, rto;
      return true;
    }

    method StopTimer() returns (ok: bool)
      requires Valid()
      modifies this`timerScheduled
      ensures Valid()
      ensures TimingModel.Step(State(), ok) == TimingModel.StopTimer(old(State()))
    {
      var running := IsTimerRunning();
      if !timerInitialized || !running {
        return false;
      }
      timerScheduled := false;
      return true;
    }

    method RestartTimer() returns (ok: bool)
      requires Valid()
      modifies this`timerScheduled, this`timerDelay
      ensures Valid()
      ensures TimingModel.Step(State(), ok) == TimingModel.RestartTimer(old(State()))
    {
      var _ := StopTimer();
      ok := StartTimer();
    }

    method IsTimerRunning() returns (r: bool)
      ensures r <==> TimingModel.TimerRunning(State())
    {
      if !timerInitialized {
        return false;
      }
      return timerScheduled;
    }

    /** Lower the RTO to at most MaxRto. */
    method CheckRtoMaxValue()
      modifies this`rto
      ensures old(rto) <= MaxRto ==> rto == old(rto)
      ensures old(rto) > MaxRto ==> rto == MaxRto
    {
      if rto > MaxRto {
        rto := MaxRto;
      }
    }

    /** Raise the RTO to at least MinRto. */
    method CheckRtoMinValue()
      modifies this`rto
      ensures MinRto <= old(rto) ==> rto == old(rto)
      ensures old(rto) < MinRto ==> rto == MinRto
    {
      if rto < MinRto {
        rto := MinRto;
      }
    }
  }
}
