/** The `Timer` class: a stopwatch with a `running` flag and two clock
    readings, `begin` (set by `start`) and `current` (moved by `delta_time`).
    The clock is not read inside the model: every transition takes the
    reading `now` it would have taken, in integer ticks. A default-constructed
    time point is the clock's epoch, tick 0. */
module Stopwatch {

  datatype Timer = Timer(begin: int, current: int, running: bool)

  /** A freshly constructed `Timer`: stopped, both time points at the epoch. */
  const Fresh: Timer := Timer(0, 0, false)

  /** A fresh timer is stopped: `end` before any `start` returns the sentinel
      and changes nothing, and `delta_time` measures from the epoch. */
  lemma FreshTimer(now: int)
    ensures !Fresh.running
    ensures End(Fresh, now) == Reading(Fresh, Sentinel)
    ensures DeltaTime(Fresh, now).value == now
    ensures Start(Fresh, now) == Timer(now, now, true)
  {
  }

  /** What `end` returns when the timer is not running. */
  const Sentinel: int := -1

  /** `start`: ignored while running; otherwise starts the timer and marks
      both time points at `now`. */
  function Start(t: Timer, now: int): (t': Timer)
    ensures t.running ==> t' == t
    ensures !t.running ==> t'.running && t'.begin == now && t'.current == t'.begin
  {
    if t.running then t else Timer(now, now, true)
  }

  /** A timer together with the value a call returned. */
  datatype Reading = Reading(timer: Timer, value: int)

  /** `delta_time`: the time since `current`, which then moves to `now`. The
      call does not look at `running`. */
  function DeltaTime(t: Timer, now: int): (r: Reading)
    ensures r.value == now - t.current
    ensures r.timer.current == now
    ensures r.timer.begin == t.begin && r.timer.running == t.running
  {
    Reading(t.(current := now), now - t.current)
  }

  /** `end`: the sentinel when stopped; otherwise stops the timer and returns
      the time since `begin`. */
  function End(t: Timer, now: int): (r: Reading)
    ensures !t.running ==> r == Reading(t, Sentinel)
    ensures t.running ==> !r.timer.running && r.value == now - t.begin
    ensures r.timer.begin == t.begin && r.timer.current == t.current
  {
    if !t.running then Reading(t, Sentinel)
    else Reading(t.(running := false), now - t.begin)
  }

  /** Starting twice is starting once: the second `start` keeps the first
      one's time points, whenever it comes. */
  lemma StartIdempotent(t: Timer, first: int, second: int)
    ensures Start(Start(t, first), second) == Start(t, first)
    ensures Start(Start(t, first), second).running
  {
  }

  /** Ending twice: the second `end` finds the timer stopped, returns the
      sentinel and changes nothing. */
  lemma EndTwiceGivesSentinel(t: Timer, first: int, second: int)
    ensures !End(t, first).timer.running
    ensures End(End(t, first).timer, second) == Reading(End(t, first).timer, Sentinel)
  {
  }

  /** A call on the timer, made when the clock reads `now`. */
  datatype Call = CallStart | CallDelta | CallEnd
  datatype Event = Event(call: Call, now: int)

  /** What a call hands back to its caller: `start` returns nothing. */
  datatype Output = Started | Delta(dt: int) | Ended(elapsed: int)

  function StepTimer(t: Timer, e: Event): Timer
  {
    match e.call
    case CallStart => Start(t, e.now)
    case CallDelta => DeltaTime(t, e.now).timer
    case CallEnd => End(t, e.now).timer
  }

  function StepOutput(t: Timer, e: Event): Output
  {
    match e.call
    case CallStart => Started
    case CallDelta => Delta(DeltaTime(t, e.now).value)
    case CallEnd => Ended(End(t, e.now).value)
  }

  /** The outputs of a sequence of calls, in order. */
  function Run(t: Timer, es: seq<Event>): (outs: seq<Output>)
    ensures |outs| == |es|
    decreases es
  {
    if es == [] then [] else [StepOutput(t, es[0])] + Run(StepTimer(t, es[0]), es[1..])
  }

  /** The timer after a sequence of calls. */
  function Final(t: Timer, es: seq<Event>): Timer
    decreases es
  {
    if es == [] then t else Final(StepTimer(t, es[0]), es[1..])
  }

  /** The clock readings never go backwards and never precede `clock`. */
  predicate MonotoneFrom(clock: int, es: seq<Event>)
  {
    (|es| > 0 ==> clock <= es[0].now)
    && forall i :: 0 < i < |es| ==> es[i - 1].now <= es[i].now
  }

  /** What a monotone clock guarantees of a timer whose last reading was
      `clock`: `begin` is no later than `current`, which is no later than
      `clock`. */
  predicate Consistent(t: Timer, clock: int)
  {
    t.begin <= t.current <= clock
  }

  /** Under a monotone clock starting at the epoch or later, every
      `delta_time` of a fresh timer returns a non-negative duration, and every
      `end` returns a non-negative duration or the sentinel -1. */
  lemma FreshTimerReadingsNonNegative(es: seq<Event>)
    requires MonotoneFrom(0, es)
    ensures forall i :: 0 <= i < |es| && Run(Fresh, es)[i].Delta? ==> Run(Fresh, es)[i].dt >= 0
    ensures forall i :: 0 <= i < |es| && Run(Fresh, es)[i].Ended? ==>
      Run(Fresh, es)[i].elapsed >= 0 || Run(Fresh, es)[i].elapsed == Sentinel
  {
    ReadingsNonNegative(Fresh, 0, es);
  }

  /** The invariant behind the lemma above, for any consistent timer. */
  lemma {:induction false} ReadingsNonNegative(t: Timer, clock: int, es: seq<Event>)
    requires Consistent(t, clock) && MonotoneFrom(clock, es)
    ensures forall i :: 0 <= i < |es| && Run(t, es)[i].Delta? ==> Run(t, es)[i].dt >= 0
    ensures forall i :: 0 <= i < |es| && Run(t, es)[i].Ended? ==>
      Run(t, es)[i].elapsed >= 0 || Run(t, es)[i].elapsed == Sentinel
    decreases es
  {
    if es != [] {
      var e := es[0];
      var t' := StepTimer(t, e);
      assert Consistent(t', e.now);
      assert MonotoneFrom(e.now, es[1..]) by {
        forall i | 0 < i < |es[1..]|
          ensures es[1..][i - 1].now <= es[1..][i].now
        {
          assert es[1..][i - 1] == es[i] && es[1..][i] == es[i + 1];
        }
        if |es[1..]| > 0 {
          assert es[1..][0] == es[1];
        }
      }
      ReadingsNonNegative(t', e.now, es[1..]);
      var outs := Run(t, es);
      assert outs == [StepOutput(t, e)] + Run(t', es[1..]);
      forall i | 0 < i < |es|
        ensures outs[i] == Run(t', es[1..])[i - 1]
      {
      }
    }
  }

  predicate AllDelta(es: seq<Event>)
  {
    forall i :: 0 <= i < |es| ==> es[i].call == CallDelta
  }

  /** `delta_time` calls keep `begin` and `running`, and leave `current` at
      the last reading taken. */
  lemma {:induction false} DeltasKeepStart(t: Timer, es: seq<Event>)
    requires AllDelta(es)
    ensures Final(t, es).begin == t.begin && Final(t, es).running == t.running
    ensures es != [] ==> Final(t, es).current == es[|es| - 1].now
    decreases es
  {
    if es != [] {
      var t' := StepTimer(t, es[0]);
      assert AllDelta(es[1..]) by {
        forall i | 0 <= i < |es[1..]|
          ensures es[1..][i].call == CallDelta
        {
          assert es[1..][i] == es[i + 1];
        }
      }
      DeltasKeepStart(t', es[1..]);
      if |es| > 1 {
        assert es[1..][|es[1..]| - 1] == es[|es| - 1];
      }
    }
  }

  /** `end` measures from `start`, whatever `delta_time` calls came between. */
  lemma EndMeasuresFromStart(t: Timer, started: int, es: seq<Event>, stopped: int)
    requires !t.running && AllDelta(es)
    ensures End(Final(Start(t, started), es), stopped).value == stopped - started
    ensures !End(Final(Start(t, started), es), stopped).timer.running
  {
    DeltasKeepStart(Start(t, started), es);
  }

  /** The sum of the durations in a run's `delta_time` outputs. */
  function SumDeltas(outs: seq<Output>): int
  {
    if outs == [] then 0
    else (if outs[0].Delta? then outs[0].dt else 0) + SumDeltas(outs[1..])
  }

  /** The `delta_time` readings telescope: together they cover exactly the
      time from the timer's `current` point to the last reading. */
  lemma {:induction false} DeltasTelescope(t: Timer, es: seq<Event>)
    requires AllDelta(es) && es != []
    ensures SumDeltas(Run(t, es)) == es[|es| - 1].now - t.current
    decreases es
  {
    var t' := StepTimer(t, es[0]);
    var outs := Run(t, es);
    assert outs == [Delta(es[0].now - t.current)] + Run(t', es[1..]);
    assert outs[1..] == Run(t', es[1..]);
    if |es| > 1 {
      assert AllDelta(es[1..]) by {
        forall i | 0 <= i < |es[1..]|
          ensures es[1..][i].call == CallDelta
        {
          assert es[1..][i] == es[i + 1];
        }
      }
      DeltasTelescope(t', es[1..]);
      assert es[1..][|es[1..]| - 1] == es[|es| - 1];
    }
  }
}
