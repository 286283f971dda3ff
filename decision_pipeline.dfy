/**
 * The 40-second decision flow: four phases, each counting down from 10 to 1
 * and notifying (phase, secondsLeft), then one evaluation of the snapshot fixed
 * at construction, whose result goes to the result observer.
 *
 * The one-second delays and the coroutine scope are timing only; the model runs
 * the countdowns as loops. The two observers are nullable callbacks: each is
 * modelled by whether it is installed, and a `delivered` log records what the
 * installed observers receive.
 */
module DecisionPipeline {
  import opened Candles
  import DecisionEngine

  datatype Event =
    | Progress(phase: int, secondsLeft: int)
    | Outcome(result: DecisionEngine.Result)

  const PhaseCount: nat := 4
  const PhaseSeconds: nat := 10

  /** Progress notifications of one phase from `seconds` down to 1. */
  function Countdown(phase: int, seconds: nat): (es: seq<Event>)
    ensures |es| == seconds
    ensures forall i :: 0 <= i < seconds ==> es[i] == Progress(phase, seconds - i)
  {
    if seconds == 0 then [] else [Progress(phase, seconds)] + Countdown(phase, seconds - 1)
  }

  /** The progress notifications of phases 1 to `phases`, in order. */
  function Phases(phases: nat): (es: seq<Event>)
    ensures |es| == 10 * phases
  {
    if phases == 0 then [] else Phases(phases - 1) + Countdown(phases, PhaseSeconds)
  }

  /** Everything one run notifies: the progress of all four phases, then the verdict. */
  function Schedule(snapshot: CandleSnapshot, threshold: int): seq<Event>
  {
    Phases(PhaseCount) + [Outcome(DecisionEngine.Evaluate(snapshot, threshold))]
  }

  /** The part of `events` that reaches the installed observers. */
  function Delivered(events: seq<Event>, hasUpdate: bool, hasResult: bool): seq<Event>
  {
    if events == [] then []
    else
      Admitted(events[0], hasUpdate, hasResult) + Delivered(events[1..], hasUpdate, hasResult)
  }

  /** A progress event reaches an installed update observer, an outcome an installed result observer. */
  function Admitted(e: Event, hasUpdate: bool, hasResult: bool): seq<Event>
  {
    if (e.Progress? && hasUpdate) || (e.Outcome? && hasResult) then [e] else []
  }

  /** The i-th progress notification is phase i / 10 + 1 with 10 - i % 10 seconds left. */
  lemma {:induction false} PhasesLayout(phases: nat)
    ensures forall i :: 0 <= i < |Phases(phases)| ==>
      Phases(phases)[i] == Progress(i / PhaseSeconds + 1, PhaseSeconds - i % PhaseSeconds)
  {
    if phases > 0 {
      PhasesLayout(phases - 1);
      var prefix := Phases(phases - 1);
      var es := Phases(phases);
      forall i | 0 <= i < |es|
        ensures es[i] == Progress(i / PhaseSeconds + 1, PhaseSeconds - i % PhaseSeconds)
      {
        if i >= |prefix| {
          var k := i - |prefix|;
          assert es[i] == Countdown(phases, PhaseSeconds)[k];
          assert i == PhaseSeconds * (phases - 1) + k;
          assert i / PhaseSeconds == phases - 1 && i % PhaseSeconds == k;
        }
      }
    }
  }

  /**
   * A run notifies exactly 41 times: 40 progress events, ten per phase with
   * phases 1, 2, 3, 4 in that order and seconds 10 down to 1 within each, then
   * a single outcome carrying the evaluation of the fixed snapshot and threshold.
   */
  lemma ScheduleShape(snapshot: CandleSnapshot, threshold: int)
    ensures var s := Schedule(snapshot, threshold);
      && |s| == 41
      && (forall i :: 0 <= i < 40 ==> s[i] == Progress(i / 10 + 1, 10 - i % 10))
      && s[40] == Outcome(DecisionEngine.Evaluate(snapshot, threshold))
      && (forall i :: 0 <= i < |s| && s[i].Outcome? ==> i == 40)
  {
    var s := Schedule(snapshot, threshold);
    var progress := Phases(PhaseCount);
    PhasesLayout(PhaseCount);
    forall i | 0 <= i < 40
      ensures s[i] == Progress(i / 10 + 1, 10 - i % 10)
    {
      assert s[i] == progress[i];
    }
  }

  /** Within a phase the seconds strictly decrease; phases never go backwards. */
  lemma ProgressOrder(snapshot: CandleSnapshot, threshold: int, i: nat, j: nat)
    requires i < j < 40
    ensures var s := Schedule(snapshot, threshold);
      && s[i].phase <= s[j].phase
      && (s[i].phase == s[j].phase ==> s[i].secondsLeft > s[j].secondsLeft)
  {
    ScheduleShape(snapshot, threshold);
  }

  /** Delivery distributes over concatenation. */
  lemma {:induction false} DeliveredAppend(a: seq<Event>, b: seq<Event>, hasUpdate: bool, hasResult: bool)
    ensures Delivered(a + b, hasUpdate, hasResult) == Delivered(a, hasUpdate, hasResult) + Delivered(b, hasUpdate, hasResult)
  {
    if a == [] {
      assert a + b == b;
    } else {
      var head := Admitted(a[0], hasUpdate, hasResult);
      calc {
        Delivered(a + b, hasUpdate, hasResult);
        { assert (a + b)[0] == a[0] && (a + b)[1..] == a[1..] + b; }
        head + Delivered(a[1..] + b, hasUpdate, hasResult);
        { DeliveredAppend(a[1..], b, hasUpdate, hasResult); }
        head + (Delivered(a[1..], hasUpdate, hasResult) + Delivered(b, hasUpdate, hasResult));
        (head + Delivered(a[1..], hasUpdate, hasResult)) + Delivered(b, hasUpdate, hasResult);
      }
    }
  }

  lemma {:induction false} DeliveredProgressOnly(phases: nat, hasUpdate: bool, hasResult: bool)
    ensures Delivered(Phases(phases), hasUpdate, hasResult) == if hasUpdate then Phases(phases) else []
  {
    PhasesLayout(phases);
    DeliveredOfProgress(Phases(phases), hasUpdate, hasResult);
  }

  lemma {:induction false} DeliveredOfProgress(es: seq<Event>, hasUpdate: bool, hasResult: bool)
    requires forall i :: 0 <= i < |es| ==> es[i].Progress?
    ensures Delivered(es, hasUpdate, hasResult) == if hasUpdate then es else []
  {
    if es != [] {
      DeliveredOfProgress(es[1..], hasUpdate, hasResult);
      assert es == [es[0]] + es[1..];
    }
  }

  /**
   * A missing observer only suppresses its own notifications: the update
   * observer sees all 40 progress events exactly when installed, and the result
   * observer sees the verdict exactly when installed.
   */
  lemma NullObserversOnlySuppress(snapshot: CandleSnapshot, threshold: int, hasUpdate: bool, hasResult: bool)
    ensures Delivered(Schedule(snapshot, threshold), hasUpdate, hasResult) ==
      (if hasUpdate then Phases(PhaseCount) else []) +
      (if hasResult then [Outcome(DecisionEngine.Evaluate(snapshot, threshold))] else [])
  {
    var out := Outcome(DecisionEngine.Evaluate(snapshot, threshold));
    DeliveredAppend(Phases(PhaseCount), [out], hasUpdate, hasResult);
    DeliveredProgressOnly(PhaseCount, hasUpdate, hasResult);
    assert Delivered([out], hasUpdate, hasResult) == Admitted(out, hasUpdate, hasResult) + Delivered([], hasUpdate, hasResult);
  }

  /** Appending a run of events to a trace and its deliveries, regrouped. */
  lemma Extend(trace0: seq<Event>, delivered0: seq<Event>, done: seq<Event>, next: seq<Event>,
               hasUpdate: bool, hasResult: bool)
    ensures trace0 + done + next == trace0 + (done + next)
    ensures delivered0 + Delivered(done, hasUpdate, hasResult) + Delivered(next, hasUpdate, hasResult)
         == delivered0 + Delivered(done + next, hasUpdate, hasResult)
  {
    DeliveredAppend(done, next, hasUpdate, hasResult);
  }

  class DecisionPipeline {
    const snapshot: CandleSnapshot
    const threshold: int
    /** Whether an onUpdate callback is installed (false: null). */
    var onUpdate: bool
    /** Whether an onResult callback is installed (false: null). */
    var onResult: bool
    /** What the installed observers have received, in order. */
    var delivered: seq<Event>
    /** Every notification point the run has reached, whether or not observed. */
    ghost var trace: seq<Event>
    /** How many times the engine has been called. */
    ghost var evaluations: nat

    constructor(snapshot: CandleSnapshot, threshold: int := DecisionEngine.DefaultThreshold)
      ensures this.snapshot == snapshot && this.threshold == threshold
      ensures !onUpdate && !onResult
      ensures delivered == [] && trace == [] && evaluations == 0
    {
      this.snapshot := snapshot;
      this.threshold := threshold;
      onUpdate, onResult := false, false;
      delivered, trace, evaluations := [], [], 0;
    }

    /** Invokes the matching callback if it is installed. */
    method Notify(e: Event)
      modifies this
      ensures trace == old(trace) + [e]
      ensures delivered == old(delivered) + Delivered([e], onUpdate, onResult)
      ensures onUpdate == old(onUpdate) && onResult == old(onResult) && evaluations == old(evaluations)
    {
      trace := trace + [e];
      if (e.Progress? && onUpdate) || (e.Outcome? && onResult) {
        delivered := delivered + [e];
      }
    }

    /** One phase: notifies (phase, s) for s from 10 down to 1. */
    method RunPhase(phase: int)
      modifies this
      ensures trace == old(trace) + Countdown(phase, PhaseSeconds)
      ensures delivered == old(delivered) + Delivered(Countdown(phase, PhaseSeconds), onUpdate, onResult)
      ensures onUpdate == old(onUpdate) && onResult == old(onResult) && evaluations == old(evaluations)
    {
      var s := PhaseSeconds;
      while s >= 1
        invariant 0 <= s <= PhaseSeconds
        invariant trace == old(trace) + Countdown(phase, PhaseSeconds)[..PhaseSeconds - s]
        invariant delivered == old(delivered) + Delivered(Countdown(phase, PhaseSeconds)[..PhaseSeconds - s], onUpdate, onResult)
        invariant onUpdate == old(onUpdate) && onResult == old(onResult) && evaluations == old(evaluations)
      {
        ghost var all := Countdown(phase, PhaseSeconds);
        ghost var done := all[..PhaseSeconds - s];
        Notify(Progress(phase, s));
        DeliveredAppend(done, [Progress(phase, s)], onUpdate, onResult);
        assert all[PhaseSeconds - s] == Progress(phase, s);
        assert all[..PhaseSeconds - (s - 1)] == done + [Progress(phase, s)];
        s := s - 1;
      }
      assert Countdown(phase, PhaseSeconds)[..PhaseSeconds - s] == Countdown(phase, PhaseSeconds);
    }

    /** After phase p, the trace and deliveries cover phases 1 to p. */
    lemma PhaseStep(trace0: seq<Event>, delivered0: seq<Event>, p: nat)
      requires p >= 1
      requires trace == trace0 + Phases(p - 1) + Countdown(p, PhaseSeconds)
      requires delivered == delivered0 + Delivered(Phases(p - 1), onUpdate, onResult)
        + Delivered(Countdown(p, PhaseSeconds), onUpdate, onResult)
      ensures trace == trace0 + Phases(p)
      ensures delivered == delivered0 + Delivered(Phases(p), onUpdate, onResult)
    {
      Extend(trace0, delivered0, Phases(p - 1), Countdown(p, PhaseSeconds), onUpdate, onResult);
    }

    /** After the verdict, the trace and deliveries cover the whole schedule. */
    lemma OutcomeStep(trace0: seq<Event>, delivered0: seq<Event>, result: DecisionEngine.Result)
      requires result == DecisionEngine.Evaluate(snapshot, threshold)
      requires trace == trace0 + Phases(PhaseCount) + [Outcome(result)]
      requires delivered == delivered0 + Delivered(Phases(PhaseCount), onUpdate, onResult)
        + Delivered([Outcome(result)], onUpdate, onResult)
      ensures trace == trace0 + Schedule(snapshot, threshold)
      ensures delivered == delivered0 + Delivered(Schedule(snapshot, threshold), onUpdate, onResult)
    {
      Extend(trace0, delivered0, Phases(PhaseCount), [Outcome(result)], onUpdate, onResult);
    }

    /** Runs the four phases, then evaluates the fixed snapshot once and reports the verdict. */
    method Start()
      modifies this
      ensures trace == old(trace) + Schedule(snapshot, threshold)
      ensures delivered == old(delivered) + Delivered(Schedule(snapshot, threshold), onUpdate, onResult)
      ensures evaluations == old(evaluations) + 1
      ensures onUpdate == old(onUpdate) && onResult == old(onResult)
    {
      ghost var trace0, delivered0 := trace, delivered;
      assert trace == trace0 + Phases(0) && delivered == delivered0 + Delivered(Phases(0), onUpdate, onResult);
      var phase := 1;
      RunPhase(phase);
      PhaseStep(trace0, delivered0, phase);
      phase := phase + 1;
      RunPhase(phase);
      PhaseStep(trace0, delivered0, phase);
      phase := phase + 1;
      RunPhase(phase);
      PhaseStep(trace0, delivered0, phase);
      phase := phase + 1;
      RunPhase(phase);
      PhaseStep(trace0, delivered0, phase);
      var result := DecisionEngine.Evaluate(snapshot, threshold);
      evaluations := evaluations + 1;
      Notify(Outcome(result));
      OutcomeStep(trace0, delivered0, result);
    }
  }
}
