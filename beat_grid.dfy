/**
 * The beat grid of the audio manager: the five note divisions, their string
 * keys, their durations derived from tempo and time signature, the phase
 * within a division, and the edge trigger that decides when a division's
 * listeners fire. Everything here is a pure function of its arguments.
 */
module BeatGrid {

  import opened Options
  import Config

  /** The five note divisions, coarse to fine. */
  datatype Division = Whole | Half | Quarter | Eighth | Sixteenth

  /** The order in which a tick visits the divisions. */
  const AllDivisions: seq<Division> := [Whole, Half, Quarter, Eighth, Sixteenth]

  /** Position of a division in AllDivisions. */
  function Rank(d: Division): (r: nat)
    ensures r < |AllDivisions| && AllDivisions[r] == d
  {
    match d
    case Whole => 0
    case Half => 1
    case Quarter => 2
    case Eighth => 3
    case Sixteenth => 4
  }

  /** The key under which the audio manager stores a division. */
  function Key(d: Division): string {
    match d
    case Whole => "1/1"
    case Half => "1/2"
    case Quarter => "1/4"
    case Eighth => "1/8"
    case Sixteenth => "1/16"
  }

  /** The division a key names, or None for a key the registry does not hold. */
  function ParseDivision(s: string): (r: Option<Division>)
    ensures r.Some? ==> Key(r.value) == s
    ensures r.None? ==> forall d: Division :: Key(d) != s
  {
    if s == "1/1" then Some(Whole)
    else if s == "1/2" then Some(Half)
    else if s == "1/4" then Some(Quarter)
    else if s == "1/8" then Some(Eighth)
    else if s == "1/16" then Some(Sixteenth)
    else None
  }

  lemma ParseKey(d: Division)
    ensures ParseDivision(Key(d)) == Some(d)
  {
  }

  // ---------------------------------------------------------------- durations

  const BPM: real := 75.0
  const BEATS_PER_BAR: nat := 4

  function BeatDuration(bpm: real): real
    requires bpm > 0.0
  {
    60.0 / bpm
  }

  function BarDuration(bpm: real, beatsPerBar: nat): real
    requires bpm > 0.0
  {
    BeatDuration(bpm) * beatsPerBar as real
  }

  /** The length of one step of a division, in seconds. */
  function DivisionDuration(d: Division, bpm: real, beatsPerBar: nat): (r: real)
    requires bpm > 0.0 && beatsPerBar > 0
    ensures r > 0.0
  {
    match d
    case Whole => BarDuration(bpm, beatsPerBar)
    case Half => BarDuration(bpm, beatsPerBar) / 2.0
    case Quarter => BeatDuration(bpm)
    case Eighth => BeatDuration(bpm) / 2.0
    case Sixteenth => BeatDuration(bpm) / 4.0
  }

  /** The duration the audio manager uses for a division at its fixed tempo. */
  function Duration(d: Division): (r: real)
    ensures r > 0.0
  {
    DivisionDuration(d, BPM, BEATS_PER_BAR)
  }

  /** In 4/4 time the divisions halve from whole to sixteenth. */
  lemma DurationRatios(bpm: real)
    requires bpm > 0.0
    ensures DivisionDuration(Whole, bpm, 4) == 4.0 * DivisionDuration(Quarter, bpm, 4)
    ensures DivisionDuration(Whole, bpm, 4) == 8.0 * DivisionDuration(Eighth, bpm, 4)
    ensures DivisionDuration(Whole, bpm, 4) == 16.0 * DivisionDuration(Sixteenth, bpm, 4)
    ensures DivisionDuration(Half, bpm, 4) == 2.0 * DivisionDuration(Quarter, bpm, 4)
  {
  }

  /** At the fixed tempo, a later division in AllDivisions is strictly shorter. */
  lemma DurationsDecrease(a: Division, b: Division)
    requires Rank(a) < Rank(b)
    ensures Duration(a) > Duration(b)
  {
  }

  /**
   * The duration the phase query uses for a key: the division's duration,
   * and one beat for a key that names no division.
   */
  function DurationForKey(key: string): (r: real)
    ensures r > 0.0
    ensures ParseDivision(key).Some? ==> r == Duration(ParseDivision(key).value)
    ensures ParseDivision(key).None? ==> r == Duration(Quarter)
  {
    match ParseDivision(key)
    case Some(d) => Duration(d)
    case None => BeatDuration(BPM)
  }

  // -------------------------------------------------------------------- phase

  /** Rounding toward zero, as JavaScript's remainder operator uses. */
  function Trunc(r: real): (n: int)
    ensures r >= 0.0 ==> n as real <= r < n as real + 1.0
    ensures r < 0.0 ==> n as real - 1.0 < r <= n as real
  {
    if r >= 0.0 then r.Floor else -((-r).Floor)
  }

  /** JavaScript's `a % b` on numbers: the remainder keeps the sign of a. */
  function JsRemainder(a: real, b: real): real
    requires b > 0.0
  {
    a - Trunc(a / b) as real * b
  }

  /**
   * The fraction of the current step of a division that has elapsed:
   * in [0, 1) for a non-negative elapsed time, and never of magnitude 1.
   * The phase and the truncated step count together give back the time.
   */
  function Phase(elapsed: real, duration: real): (p: real)
    requires duration > 0.0
    ensures -1.0 < p < 1.0
    ensures elapsed >= 0.0 ==> 0.0 <= p
    ensures elapsed == (Trunc(elapsed / duration) as real + p) * duration
  {
    var q := elapsed / duration;
    var t := Trunc(q);
    assert elapsed == q * duration;
    assert JsRemainder(elapsed, duration) == (q - t as real) * duration;
    assert JsRemainder(elapsed, duration) / duration == q - t as real;
    JsRemainder(elapsed, duration) / duration
  }

  // ------------------------------------------------------------- edge trigger

  /** The step count of a division at an elapsed time. */
  function StepIndex(elapsed: real, duration: real): int
    requires duration > 0.0
  {
    (elapsed / duration).Floor
  }

  /**
   * One division's edge trigger: from the last processed step count and the
   * elapsed time, the new cursor and whether the listeners fire. The cursor
   * is the larger of the old cursor and the current step count, and it fires
   * exactly when it moves.
   */
  function EdgeStep(elapsed: real, duration: real, last: int): (r: (int, bool))
    requires duration > 0.0
    ensures r.0 >= last && r.0 >= StepIndex(elapsed, duration)
    ensures r.0 == last || r.0 == StepIndex(elapsed, duration)
    ensures r.1 <==> r.0 > last
  {
    var idx := StepIndex(elapsed, duration);
    if idx > last then (idx, true) else (last, false)
  }

  /** The step counts dispatched over a series of ticks at the given elapsed times. */
  function Fired(times: seq<real>, duration: real, last: int): seq<int>
    requires duration > 0.0
    decreases |times|
  {
    if times == [] then []
    else
      var (next, fired) := EdgeStep(times[0], duration, last);
      (if fired then [next] else []) + Fired(times[1..], duration, next)
  }

  /** The cursor after a series of ticks: never below where it started. */
  function Cursor(times: seq<real>, duration: real, last: int): (r: int)
    requires duration > 0.0
    ensures r >= last
    decreases |times|
  {
    if times == [] then last
    else Cursor(times[1..], duration, EdgeStep(times[0], duration, last).0)
  }

  /**
   * Over any series of ticks the cursor never goes back, the dispatched
   * step counts strictly increase (so no step is dispatched twice), and each
   * lies above the starting cursor and at or below the final one.
   */
  lemma {:induction false} FiredIncreasing(times: seq<real>, duration: real, last: int)
    requires duration > 0.0
    ensures Cursor(times, duration, last) >= last
    ensures forall i :: 0 <= i < |Fired(times, duration, last)| ==>
      last < Fired(times, duration, last)[i] <= Cursor(times, duration, last)
    ensures forall i, j :: 0 <= i < j < |Fired(times, duration, last)| ==>
      Fired(times, duration, last)[i] < Fired(times, duration, last)[j]
  {
    if times != [] {
      var next := EdgeStep(times[0], duration, last).0;
      FiredIncreasing(times[1..], duration, next);
    }
  }

  /** A series of ticks dispatches at most as many steps as the cursor advanced. */
  lemma {:induction false} FiredCountBound(times: seq<real>, duration: real, last: int)
    requires duration > 0.0
    ensures |Fired(times, duration, last)| <= Cursor(times, duration, last) - last
  {
    if times != [] {
      var next := EdgeStep(times[0], duration, last).0;
      FiredCountBound(times[1..], duration, next);
      FiredIncreasing(times[1..], duration, next);
    }
  }

  /**
   * Catch-up collapse: a single tick fires at most once, with the current
   * step count, however many step boundaries lie between it and the cursor.
   */
  lemma CatchUpCollapses(t: real, duration: real, last: int)
    requires duration > 0.0
    ensures StepIndex(t, duration) > last ==> Fired([t], duration, last) == [StepIndex(t, duration)]
    ensures StepIndex(t, duration) <= last ==> Fired([t], duration, last) == []
  {
    assert [t][1..] == [];
  }

  /** The consecutive step counts a, a+1, ..., b-1. */
  function Range(a: int, b: int): (r: seq<int>)
    decreases b - a
    ensures |r| == if a < b then b - a else 0
    ensures forall i :: 0 <= i < |r| ==> r[i] == a + i
  {
    if a >= b then [] else [a] + Range(a + 1, b)
  }

  /**
   * The ticks never skip a step boundary (no stalled frame): each tick's step
   * count is the previous one's, or one more.
   */
  ghost predicate NoStall(times: seq<real>, duration: real, last: int)
    requires duration > 0.0
    decreases |times|
  {
    times == [] ||
    (last <= StepIndex(times[0], duration) <= last + 1 &&
     NoStall(times[1..], duration, StepIndex(times[0], duration)))
  }

  /**
   * Without stalls every boundary crossed is dispatched exactly once, in
   * order, and the cursor ends at the last tick's step count.
   */
  lemma {:induction false} NoStallFiresEveryStep(times: seq<real>, duration: real, last: int)
    requires duration > 0.0
    requires NoStall(times, duration, last)
    ensures Fired(times, duration, last) == Range(last + 1, Cursor(times, duration, last) + 1)
    ensures times != [] ==> Cursor(times, duration, last) == StepIndex(times[|times| - 1], duration)
  {
    if times != [] {
      var first := StepIndex(times[0], duration);
      var rest := times[1..];
      NoStallFiresEveryStep(rest, duration, first);
      var end := Cursor(times, duration, last) + 1;
      if first == last + 1 {
        assert Range(last + 1, end) == [last + 1] + Range(last + 2, end);
      }
      if rest != [] {
        assert rest[|rest| - 1] == times[|times| - 1];
      }
    }
  }

  /**
   * Ticks at 0, D/2, 3D/2 and 5D/2 from a fresh cursor dispatch exactly the
   * boundaries at D and 2D; a single tick at 7D/2 dispatches step 3 once.
   */
  lemma TicksAtHalfSteps(d: real)
    requires d > 0.0
    ensures Fired([0.0, 0.5 * d, 1.5 * d, 2.5 * d], d, 0) == [1, 2]
    ensures Fired([0.0, 3.5 * d], d, 0) == [3]
  {
    assert (0.5 * d) / d == 0.5;
    assert (1.5 * d) / d == 1.5;
    assert (2.5 * d) / d == 2.5;
    assert (3.5 * d) / d == 3.5;
    assert StepIndex(0.0, d) == 0 && StepIndex(0.5 * d, d) == 0;
    assert StepIndex(1.5 * d, d) == 1 && StepIndex(2.5 * d, d) == 2 && StepIndex(3.5 * d, d) == 3;
    var ts := [0.0, 0.5 * d, 1.5 * d, 2.5 * d];
    assert Fired(ts[1..][1..][1..], d, 1) == [2] by {
      assert ts[1..][1..][1..] == [2.5 * d];
      CatchUpCollapses(2.5 * d, d, 1);
    }
    assert Fired(ts[1..][1..], d, 0) == [1, 2] by {
      assert ts[1..][1..][0] == 1.5 * d;
    }
    assert Fired(ts[1..], d, 0) == [1, 2] by {
      assert ts[1..][0] == 0.5 * d;
    }
    var us := [0.0, 3.5 * d];
    assert Fired(us[1..], d, 0) == [3] by {
      assert us[1..] == [3.5 * d];
      CatchUpCollapses(3.5 * d, d, 0);
    }
  }

  // ------------------------------------------------ tower type -> division

  /** The division each tower type is bound to. */
  const DIVISION_TABLE: map<string, Division> := map[
    "drums" := Quarter,
    "bass" := Half,
    "heavy_guitar" := Sixteenth,
    "wiggly_guitar" := Quarter,
    "synth1" := Half,
    "synth2" := Quarter,
    "synth_stabs" := Whole
  ]

  /** The division for a tower type: its table entry, and quarter notes by default. */
  function DivisionForTowerType(towerType: string): (d: Division)
    ensures towerType in DIVISION_TABLE ==> d == DIVISION_TABLE[towerType]
    ensures towerType !in DIVISION_TABLE ==> d == Quarter
  {
    if towerType in DIVISION_TABLE then DIVISION_TABLE[towerType] else Quarter
  }

  /** Every configured tower type has its own entry, so none falls to the default. */
  lemma EveryTowerTypeHasDivision()
    ensures DIVISION_TABLE.Keys == Config.TOWER_TYPES.Keys
  {
  }

  /** The damage factor a tower gets for its division: slower divisions hit harder. */
  function DamageMultiplier(d: Division): real {
    match d
    case Whole => 3.0
    case Half => 2.0
    case Quarter => 1.0
    case Eighth => 0.7
    case Sixteenth => 0.5
  }

  /** A strictly longer division always has a strictly larger damage factor. */
  lemma CoarserHitsHarder(a: Division, b: Division)
    ensures Duration(a) > Duration(b) <==> DamageMultiplier(a) > DamageMultiplier(b)
  {
    if Rank(a) < Rank(b) {
      DurationsDecrease(a, b);
    } else if Rank(b) < Rank(a) {
      DurationsDecrease(b, a);
    }
  }

}
