/** The mock telemetry of hooks/useBiometricData.ts: a reading of six
    biometric values that a timer moves by a bounded random walk, clamping
    every value to a fixed interval. Math.random() is replaced by explicit
    draws, and the timer by explicit calls of BiometricMonitor.Tick. */
module Biometrics {
  import opened Numbers

  /** The six fields of a reading. */
  datatype Field = HeartRate | Hrv | StressLevel | Gsr | Movement | Sleep

  /** Lower clamp bound of each field. */
  function Lo(f: Field): real
  {
    match f
    case HeartRate => 60.0
    case Hrv => 20.0
    case StressLevel => 0.0
    case Gsr => 5.0
    case Movement => 0.0
    case Sleep => 4.0
  }

  /** Upper clamp bound of each field. */
  function Hi(f: Field): real
  {
    match f
    case HeartRate => 100.0
    case Hrv => 80.0
    case StressLevel => 10.0
    case Gsr => 15.0
    case Movement => 3000.0
    case Sleep => 10.0
  }

  /** The factor a centred draw (r - 0.5) is multiplied by. */
  function Amplitude(f: Field): real
  {
    match f
    case HeartRate => 4.0
    case Hrv => 6.0
    case StressLevel => 0.8
    case Gsr => 1.2
    case Movement => 200.0
    case Sleep => 0.2
  }

  /** One biometric reading (heart rate in bpm, HRV in ms, stress score,
      skin conductance in microsiemens, movement, sleep score). */
  datatype Reading = Reading(heartRate: real, hrv: real, stressLevel: real,
                             gsr: real, movement: real, sleep: real)
  {
    function Get(f: Field): real
    {
      match f
      case HeartRate => heartRate
      case Hrv => hrv
      case StressLevel => stressLevel
      case Gsr => gsr
      case Movement => movement
      case Sleep => sleep
    }
  }

  /** The six Math.random() results one tick consumes, one per field. */
  datatype Draws = Draws(heartRate: real, hrv: real, stressLevel: real,
                         gsr: real, movement: real, sleep: real)
  {
    function Get(f: Field): real
    {
      match f
      case HeartRate => heartRate
      case Hrv => hrv
      case StressLevel => stressLevel
      case Gsr => gsr
      case Movement => movement
      case Sleep => sleep
    }
  }

  ghost predicate InRange(f: Field, x: real)
  {
    Lo(f) <= x <= Hi(f)
  }

  /** Every field lies within its clamp interval. */
  ghost predicate InBounds(r: Reading)
  {
    forall f: Field :: InRange(f, r.Get(f))
  }

  /** Every draw is a possible Math.random() result, in [0, 1). */
  ghost predicate DrawsValid(d: Draws)
  {
    forall f: Field :: 0.0 <= d.Get(f) < 1.0
  }

  /** The reading the hook starts from. */
  function Initial(): (r: Reading)
    ensures InBounds(r)
  {
    Reading(heartRate := 72.0, hrv := 45.0, stressLevel := 4.2,
            gsr := 8.5, movement := 1200.0, sleep := 7.5)
  }

  /** The per-tick updater: each field moves by (draw - 0.5) * amplitude
      from its previous value, then Math.min with the upper bound and
      Math.max with the lower bound. */
  function Step(prev: Reading, d: Draws): (next: Reading)
    ensures InBounds(next)
  {
    Reading(
      heartRate := Max(60.0, Min(100.0, prev.heartRate + (d.heartRate - 0.5) * 4.0)),
      hrv := Max(20.0, Min(80.0, prev.hrv + (d.hrv - 0.5) * 6.0)),
      stressLevel := Max(0.0, Min(10.0, prev.stressLevel + (d.stressLevel - 0.5) * 0.8)),
      gsr := Max(5.0, Min(15.0, prev.gsr + (d.gsr - 0.5) * 1.2)),
      movement := Max(0.0, Min(3000.0, prev.movement + (d.movement - 0.5) * 200.0)),
      sleep := Max(4.0, Min(10.0, prev.sleep + (d.sleep - 0.5) * 0.2)))
  }

  /** The value one field takes after a tick, from its own previous value and its own draw only. */
  function FieldStep(f: Field, prev: real, draw: real): real
  {
    Max(Lo(f), Min(Hi(f), prev + (draw - 0.5) * Amplitude(f)))
  }

  /** Step updates every field by the same clamp-and-walk rule, reading
      nothing but that field's previous value and that field's draw. */
  lemma StepFieldwise(prev: Reading, d: Draws, f: Field)
    ensures Step(prev, d).Get(f) == FieldStep(f, prev.Get(f), d.Get(f))
  {
  }

  /** Fields are independent: two ticks that agree on one field's previous
      value and draw agree on that field afterwards, whatever the others. */
  lemma StepFieldsIndependent(prev1: Reading, d1: Draws, prev2: Reading, d2: Draws, f: Field)
    requires prev1.Get(f) == prev2.Get(f) && d1.Get(f) == d2.Get(f)
    ensures Step(prev1, d1).Get(f) == Step(prev2, d2).Get(f)
  {
    StepFieldwise(prev1, d1, f);
    StepFieldwise(prev2, d2, f);
  }

  /** When the walked value is already inside the interval the clamp leaves it as it is. */
  lemma StepUnclampedInside(prev: Reading, d: Draws, f: Field)
    requires InRange(f, prev.Get(f) + (d.Get(f) - 0.5) * Amplitude(f))
    ensures Step(prev, d).Get(f) == prev.Get(f) + (d.Get(f) - 0.5) * Amplitude(f)
  {
    StepFieldwise(prev, d, f);
  }

  /** With a draw in [0, 1) and an in-bounds previous value, a field moves
      by at most half its amplitude in one tick. */
  lemma StepMovesAtMostHalfAmplitude(prev: Reading, d: Draws, f: Field)
    requires InBounds(prev) && DrawsValid(d)
    ensures Abs(Step(prev, d).Get(f) - prev.Get(f)) <= Amplitude(f) / 2.0
  {
    StepFieldwise(prev, d, f);
    assert InRange(f, prev.Get(f));
    assert 0.0 <= d.Get(f) < 1.0;
    var delta := (d.Get(f) - 0.5) * Amplitude(f);
    assert -Amplitude(f) / 2.0 <= delta <= Amplitude(f) / 2.0;
  }

  /** The reading after the timer has fired once per element of ds, in order. */
  function Walk(start: Reading, ds: seq<Draws>): Reading
    decreases |ds|
  {
    if ds == [] then start else Walk(Step(start, ds[0]), ds[1..])
  }

  /** One more tick at the end of a walk is one more Step. */
  lemma {:induction false} WalkSnoc(start: Reading, ds: seq<Draws>, d: Draws)
    ensures Walk(start, ds + [d]) == Step(Walk(start, ds), d)
    decreases |ds|
  {
    if ds == [] {
      assert ds + [d] == [d];
      assert Walk(Step(start, d), []) == Step(start, d);
    } else {
      assert (ds + [d])[0] == ds[0];
      assert (ds + [d])[1..] == ds[1..] + [d];
      WalkSnoc(Step(start, ds[0]), ds[1..], d);
    }
  }

  /** Bounds hold after any number of ticks, whatever the draws. */
  lemma {:induction false} WalkInBounds(start: Reading, ds: seq<Draws>)
    requires InBounds(start)
    ensures InBounds(Walk(start, ds))
    decreases |ds|
  {
    if ds != [] {
      WalkInBounds(Step(start, ds[0]), ds[1..]);
    }
  }

  /** After n ticks with genuine Math.random() draws a field has drifted at
      most n times half its amplitude from where it started. */
  lemma {:induction false} WalkDrift(start: Reading, ds: seq<Draws>, f: Field)
    requires InBounds(start)
    requires forall i :: 0 <= i < |ds| ==> DrawsValid(ds[i])
    ensures Abs(Walk(start, ds).Get(f) - start.Get(f)) <= (|ds| as real) * Amplitude(f) / 2.0
    decreases |ds|
  {
    if ds != [] {
      var next := Step(start, ds[0]);
      assert DrawsValid(ds[0]);
      StepMovesAtMostHalfAmplitude(start, ds[0], f);
      WalkDrift(next, ds[1..], f);
      assert Walk(start, ds) == Walk(next, ds[1..]);
      assert |ds[1..]| as real == |ds| as real - 1.0;
    }
  }

  /** The hook's single state cell, `data`, replaced on every timer tick.
      The ghost list of draws records the ticks so far. */
  class BiometricMonitor {
    var data: Reading
    ghost var ticks: seq<Draws>

    ghost predicate Valid()
      reads this
    {
      data == Walk(Initial(), ticks)
    }

    constructor ()
      ensures Valid()
      ensures data == Initial() && ticks == []
    {
      data := Initial();
      ticks := [];
    }

    /** One timer tick: the reading is replaced by Step of the previous one. */
    method Tick(d: Draws)
      requires Valid()
      modifies this
      ensures Valid()
      ensures data == Step(old(data), d)
      ensures ticks == old(ticks) + [d]
    {
      WalkSnoc(Initial(), ticks, d);
      data := Step(data, d);
      ticks := ticks + [d];
    }

    /** What the hook returns to its caller: the current reading, always in bounds. */
    method Current() returns (r: Reading)
      requires Valid()
      ensures r == data
      ensures InBounds(r)
    {
      WalkInBounds(Initial(), ticks);
      r := data;
    }
  }
}
