/**
 * The audio manager: the loaded tracks and their flags, the beat-callback
 * registry, and the per-division cursors of the beat dispatcher. The audio
 * engine itself is outside the model; its run state and clock reading are
 * passed in as an AudioClock wherever the source consults them.
 */
module Audio {

  import opened Options
  import opened BeatGrid
  import opened Registry
  import opened Tracks
  import Config

  datatype ContextState = Suspended | Running | Closed

  /** What the audio engine reports: its run state and its current time in seconds. */
  datatype AudioClock = AudioClock(state: ContextState, currentTime: real)

  type Cursors = map<Division, int>

  ghost predicate CursorsComplete(c: Cursors) {
    Whole in c && Half in c && Quarter in c && Eighth in c && Sixteenth in c
  }

  /** Every division's cursor at zero, as the manager starts. */
  function ZeroCursors(): (c: Cursors)
    ensures CursorsComplete(c) && forall d :: d in c ==> c[d] == 0
  {
    map[Whole := 0, Half := 0, Quarter := 0, Eighth := 0, Sixteenth := 0]
  }

  /** The cursors after the dispatcher ticked division `d` at the given elapsed time. */
  function StepCursor(c: Cursors, elapsed: real, d: Division): (r: Cursors)
    requires CursorsComplete(c)
    ensures CursorsComplete(r) && r.Keys == c.Keys
  {
    c[d := EdgeStep(elapsed, Duration(d), c[d]).0]
  }

  /** The cursors after one dispatcher tick: the five divisions, coarse to fine. */
  function TickCursors(c: Cursors, elapsed: real): (r: Cursors)
    requires CursorsComplete(c)
    ensures CursorsComplete(r) && r.Keys == c.Keys
  {
    var c1 := StepCursor(c, elapsed, Whole);
    var c2 := StepCursor(c1, elapsed, Half);
    var c3 := StepCursor(c2, elapsed, Quarter);
    var c4 := StepCursor(c3, elapsed, Eighth);
    StepCursor(c4, elapsed, Sixteenth)
  }

  /**
   * The removal loop of removeBeatCallback on a table value: each
   * division's list in turn is filtered, so the result is Unregister.
   */
  method UnregisterLoop<L>(t: Table<L>, id: string) returns (table: Table<L>)
    requires Complete(t)
    ensures table == Unregister(t, id)
  {
    table := t;
    var i := 0;
    while i < |AllDivisions|
      invariant 0 <= i <= |AllDivisions|
      invariant table.Keys == t.Keys
      invariant table[Whole] == if 0 < i then Without(t[Whole], id) else t[Whole]
      invariant table[Half] == if 1 < i then Without(t[Half], id) else t[Half]
      invariant table[Quarter] == if 2 < i then Without(t[Quarter], id) else t[Quarter]
      invariant table[Eighth] == if 3 < i then Without(t[Eighth], id) else t[Eighth]
      invariant table[Sixteenth] == if 4 < i then Without(t[Sixteenth], id) else t[Sixteenth]
    {
      var d := AllDivisions[i];
      table := table[d := Without(table[d], id)];
      i := i + 1;
    }
    forall e | e in table
      ensures table[e] == Unregister(t, id)[e]
    {
      match e {
        case Whole =>
        case Half =>
        case Quarter =>
        case Eighth =>
        case Sixteenth =>
      }
    }
    TablesEqual(table, Unregister(t, id));
  }

  /** Two tables with the same divisions and the same list for each are equal. */
  lemma TablesEqual<L>(a: Table<L>, b: Table<L>)
    requires a.Keys == b.Keys && forall e :: e in a ==> a[e] == b[e]
    ensures a == b
  {
  }

  /** The invocations one division contributes to a tick. */
  function DivisionCalls<L>(t: Table<L>, c: Cursors, elapsed: real, d: Division): seq<Invocation<L>>
    requires Complete(t) && CursorsComplete(c)
  {
    var (next, fired) := EdgeStep(elapsed, Duration(d), c[d]);
    if fired then Invocations(t[d], next) else []
  }

  /** The invocations of one tick: the divisions coarse to fine, each in registration order. */
  function TickCalls<L>(t: Table<L>, c: Cursors, elapsed: real): seq<Invocation<L>>
    requires Complete(t) && CursorsComplete(c)
  {
    DivisionCalls(t, c, elapsed, Whole) + DivisionCalls(t, c, elapsed, Half) +
    DivisionCalls(t, c, elapsed, Quarter) + DivisionCalls(t, c, elapsed, Eighth) +
    DivisionCalls(t, c, elapsed, Sixteenth)
  }

  /**
   * A tick moves each division's cursor to that division's edge step, so it
   * never moves a cursor back. Repeating a tick at the same elapsed time
   * changes no cursor and calls nobody: one edge is never dispatched twice.
   */
  lemma TickSpec<L>(t: Table<L>, c: Cursors, elapsed: real)
    requires Complete(t) && CursorsComplete(c)
    ensures forall d :: d in c ==> TickCursors(c, elapsed)[d] == EdgeStep(elapsed, Duration(d), c[d]).0
    ensures forall d :: d in c ==> TickCursors(c, elapsed)[d] >= c[d]
    ensures TickCursors(TickCursors(c, elapsed), elapsed) == TickCursors(c, elapsed)
    ensures TickCalls(t, TickCursors(c, elapsed), elapsed) == []
  {
    var c' := TickCursors(c, elapsed);
    forall d | d in c
      ensures c'[d] == EdgeStep(elapsed, Duration(d), c[d]).0
    {
      match d
      case Whole =>
      case Half =>
      case Quarter =>
      case Eighth =>
      case Sixteenth =>
    }
    forall d | d in c'
      ensures TickCursors(c', elapsed)[d] == c'[d]
    {
      match d
      case Whole =>
      case Half =>
      case Quarter =>
      case Eighth =>
      case Sixteenth =>
    }
  }

  /**
   * A callback registered for a division is invoked, with the new step
   * count, on every tick that moves that division's cursor, whatever else
   * happened to its owner.
   */
  lemma RegisteredIsCalled<L>(t: Table<L>, c: Cursors, elapsed: real, d: Division, id: string, cb: L)
    requires Complete(t) && CursorsComplete(c) && RegisteredAt(t, d, id, cb)
    requires TickCursors(c, elapsed)[d] > c[d]
    ensures Invocation(cb, TickCursors(c, elapsed)[d]) in TickCalls(t, c, elapsed)
  {
    TickSpec(t, c, elapsed);
    RegisteredIsListed(t, d, id, cb);
    var n := TickCursors(c, elapsed)[d];
    var j :| 0 <= j < |t[d]| && t[d][j] == Registration(id, cb);
    assert Invocations(t[d], n)[j] == Invocation(cb, n);
    assert Invocation(cb, n) in DivisionCalls(t, c, elapsed, d);
  }

  /** A tick calls nobody but the table's listeners. */
  lemma TickCallsListeners<L>(t: Table<L>, c: Cursors, elapsed: real)
    requires Complete(t) && CursorsComplete(c)
    ensures forall k :: 0 <= k < |TickCalls(t, c, elapsed)| ==> TickCalls(t, c, elapsed)[k].callback in Listeners(t)
  {
    forall d: Division, x | x in DivisionCalls(t, c, elapsed, d)
      ensures x.callback in Listeners(t)
    {
      var (next, fired) := EdgeStep(elapsed, Duration(d), c[d]);
      var j :| 0 <= j < |t[d]| && Invocations(t[d], next)[j] == x;
      assert t[d][j] in t[d];
    }
    var calls := TickCalls(t, c, elapsed);
    forall k | 0 <= k < |calls|
      ensures calls[k].callback in Listeners(t)
    {
      assert calls[k] in calls;
    }
  }

  /** The step lengths the dispatcher writes out are those of the five divisions. */
  lemma DurationLiterals()
    ensures BarDuration(BPM, BEATS_PER_BAR) == Duration(Whole)
    ensures BarDuration(BPM, BEATS_PER_BAR) / 2.0 == Duration(Half)
    ensures BeatDuration(BPM) == Duration(Quarter)
    ensures BeatDuration(BPM) / 2.0 == Duration(Eighth)
    ensures BeatDuration(BPM) / 4.0 == Duration(Sixteenth)
  {
  }

  /**
   * One dispatcher tick at `clock` on registry `table`, taking the latched
   * start time from `start0` to `start` and the cursors from `cursors0` to
   * `cursors`, and making the invocations `calls`. Before the audio has
   * started (`started` false), or while nothing is latched and the engine
   * is not running, nothing happens and there are no invocations.
   * Otherwise the start time is latched from the engine's reading if it
   * was not yet, and the five divisions are ticked at the time elapsed
   * since it.
   */
  ghost predicate Ticked<L>(started: bool, clock: AudioClock, table: Table<L>, start0: real, cursors0: Cursors,
                            start: real, cursors: Cursors, calls: seq<Invocation<L>>)
  {
    if !started || (start0 == 0.0 && clock.state != Running) then
      calls == [] && start == start0 && cursors == cursors0
    else
      start == (if start0 == 0.0 then clock.currentTime else start0) &&
      Complete(table) && CursorsComplete(cursors0) &&
      cursors == TickCursors(cursors0, clock.currentTime - start) &&
      calls == TickCalls(table, cursors0, clock.currentTime - start)
  }

  class AudioManager<L> {

    var sounds: seq<Track>
    var loaded: bool
    /** Set once the first tower exists; cleared by reset. */
    var hasStartedAudio: bool
    /** The engine time the beat grid counts from; 0 means not yet latched. */
    var startTime: real
    var beatCallbacks: Table<L>
    var lastProcessedBeatTime: Cursors

    ghost predicate Valid()
      reads this
    {
      Complete(beatCallbacks) && CursorsComplete(lastProcessedBeatTime) && WellFormed(sounds)
    }

    constructor ()
      ensures Valid()
      ensures sounds == [] && !loaded && !hasStartedAudio && startTime == 0.0
      ensures beatCallbacks == EmptyTable() && lastProcessedBeatTime == ZeroCursors()
    {
      sounds := [];
      loaded := false;
      hasStartedAudio := false;
      startTime := 0.0;
      beatCallbacks := EmptyTable();
      lastProcessedBeatTime := ZeroCursors();
    }

    /**
     * Creates the muted, stopped record of every configured sound and marks
     * the manager loaded; a second call does nothing.
     */
    method LoadSounds()
      requires Valid()
      modifies this`sounds, this`loaded
      ensures Valid()
      ensures old(loaded) ==> loaded && sounds == old(sounds)
      ensures !old(loaded) ==> loaded && sounds == InitialTracks(Config.SOUND_MAPPINGS)
    {
      if loaded {
        return;
      }
      sounds := InitialTracks(Config.SOUND_MAPPINGS);
      loaded := true;
    }

    /** Starts every music track that is not playing yet (_startTracks). */
    method StartTracks()
      requires Valid()
      modifies this`sounds
      ensures Valid()
      ensures sounds == StartedTracks(old(sounds))
    {
      var i := 0;
      while i < |sounds|
        invariant 0 <= i <= |sounds| == |old(sounds)|
        invariant forall j :: 0 <= j < i ==> sounds[j] == StartTrack(old(sounds)[j])
        invariant forall j :: i <= j < |sounds| ==> sounds[j] == old(sounds)[j]
      {
        if sounds[i].isMusic && !sounds[i].playing {
          sounds := sounds[i := sounds[i].(playing := true, hasSource := true)];
        }
        i := i + 1;
      }
    }

    /** Whether every music track is playing. */
    method AllTracksStarted() returns (r: bool)
      ensures r == AllMusicPlaying(sounds)
    {
      var i := 0;
      while i < |sounds|
        invariant 0 <= i <= |sounds|
        invariant forall j :: 0 <= j < i && sounds[j].isMusic ==> sounds[j].playing
      {
        if sounds[i].isMusic && !sounds[i].playing {
          return false;
        }
        i := i + 1;
      }
      return true;
    }

    /**
     * Starts all music tracks together, unless the manager is not loaded or
     * they all play already. On a suspended engine the start is deferred
     * until the engine resumes (`deferred`), when StartTracks runs.
     */
    method StartAllTracks(clock: AudioClock) returns (deferred: bool)
      requires Valid()
      modifies this`sounds
      ensures Valid()
      ensures deferred == (loaded && !AllMusicPlaying(old(sounds)) && clock.state == Suspended)
      ensures sounds == if loaded && !AllMusicPlaying(old(sounds)) && clock.state != Suspended
                        then StartedTracks(old(sounds)) else old(sounds)
    {
      deferred := false;
      if !loaded {
        return;
      }
      var started := AllTracksStarted();
      if started {
        return;
      }
      if clock.state == Suspended {
        deferred := true;
      } else {
        StartTracks();
      }
    }

    /**
     * Per frame: starts the audio when the first tower appears, then makes
     * each music track active exactly when some tower has its sound key,
     * changing gain targets only where the active flag flips.
     * `soundKeys` holds the sound key of every current tower.
     */
    method Update(soundKeys: seq<string>, clock: AudioClock) returns (deferred: bool)
      requires Valid()
      modifies this`sounds, this`hasStartedAudio
      ensures Valid()
      ensures !loaded ==> sounds == old(sounds) && hasStartedAudio == old(hasStartedAudio) && !deferred
      ensures loaded ==> hasStartedAudio == (old(hasStartedAudio) || |soundKeys| > 0)
      ensures deferred == (loaded && !old(hasStartedAudio) && |soundKeys| > 0 &&
                           !AllMusicPlaying(old(sounds)) && clock.state == Suspended)
      ensures loaded && !hasStartedAudio ==> sounds == old(sounds)
      ensures loaded && hasStartedAudio ==>
        sounds == GainUpdate(
          if !old(hasStartedAudio) && !AllMusicPlaying(old(sounds)) && clock.state != Suspended
          then StartedTracks(old(sounds)) else old(sounds),
          ActiveKeys(soundKeys))
    {
      deferred := false;
      if !loaded {
        return;
      }
      if |soundKeys| > 0 && !hasStartedAudio {
        hasStartedAudio := true;
        deferred := StartAllTracks(clock);
      }
      if !hasStartedAudio {
        return;
      }
      var active: set<string> := {};
      for i := 0 to |soundKeys|
        invariant active == ActiveKeys(soundKeys[..i])
      {
        if soundKeys[i] != "" {
          active := active + {soundKeys[i]};
        }
        assert soundKeys[..i + 1] == soundKeys[..i] + [soundKeys[i]];
      }
      assert soundKeys[..|soundKeys|] == soundKeys;
      ghost var before := sounds;
      var i := 0;
      while i < |sounds|
        invariant 0 <= i <= |sounds| == |before|
        invariant hasStartedAudio
        invariant forall j :: 0 <= j < i ==> sounds[j] == GainTrack(before[j], active)
        invariant forall j :: i <= j < |sounds| ==> sounds[j] == before[j]
      {
        var shouldBeActive := sounds[i].key in active;
        if sounds[i].isMusic && shouldBeActive != sounds[i].active {
          var targetGain := if shouldBeActive then 0.5 else 0.0;
          sounds := sounds[i := sounds[i].(active := shouldBeActive, gainTarget := targetGain)];
        }
        i := i + 1;
      }
    }

    /**
     * Mutes, deactivates and stops every music track and clears the started
     * flag. The registry, the start time and the cursors are kept as they are.
     */
    method Reset()
      requires Valid()
      modifies this`sounds, this`hasStartedAudio
      ensures Valid()
      ensures !loaded ==> sounds == old(sounds) && hasStartedAudio == old(hasStartedAudio)
      ensures loaded ==> !hasStartedAudio && sounds == ResetTracks(old(sounds))
      ensures beatCallbacks == old(beatCallbacks) && startTime == old(startTime)
      ensures lastProcessedBeatTime == old(lastProcessedBeatTime)
    {
      if !loaded {
        return;
      }
      hasStartedAudio := false;
      var i := 0;
      while i < |sounds|
        invariant 0 <= i <= |sounds| == |old(sounds)|
        invariant !hasStartedAudio
        invariant forall j :: 0 <= j < i ==> sounds[j] == ResetTrack(old(sounds)[j])
        invariant forall j :: i <= j < |sounds| ==> sounds[j] == old(sounds)[j]
      {
        if sounds[i].isMusic {
          var t := sounds[i].(gainTarget := 0.0, active := false);
          if t.hasSource && t.playing {
            t := t.(playing := false);
          }
          sounds := sounds[i := t];
        }
        i := i + 1;
      }
    }

    /** The game-over notification resets the audio. */
    method OnGameOver()
      requires Valid()
      modifies this`sounds, this`hasStartedAudio
      ensures Valid()
      ensures !loaded ==> sounds == old(sounds) && hasStartedAudio == old(hasStartedAudio)
      ensures loaded ==> !hasStartedAudio && sounds == ResetTracks(old(sounds))
    {
      Reset();
    }

    /**
     * Registers `callback` under `id` for the division named by `division`,
     * first removing any registration of `id`. A key that names no division
     * leaves the registry as it is.
     */
    method AddBeatCallback(division: string, callback: L, id: string)
      requires Valid()
      modifies this`beatCallbacks
      ensures Valid()
      ensures ParseDivision(division).None? ==> beatCallbacks == old(beatCallbacks)
      ensures ParseDivision(division).Some? ==>
        beatCallbacks == Register(old(beatCallbacks), ParseDivision(division).value, id, callback)
    {
      var d := ParseDivision(division);
      if d.None? {
        return;
      }
      RemoveBeatCallback(id);
      CompleteHas(beatCallbacks, d.value);
      beatCallbacks := Append(beatCallbacks, d.value, Registration(id, callback));
    }

    /** Removes every registration of `id`, from every division. */
    method RemoveBeatCallback(id: string)
      requires Valid()
      modifies this`beatCallbacks
      ensures Valid()
      ensures beatCallbacks == Unregister(old(beatCallbacks), id)
    {
      beatCallbacks := UnregisterLoop(beatCallbacks, id);
    }

    /**
     * The edge trigger of one division: when the step count at `elapsed`
     * exceeds the division's cursor, the cursor takes it and every listener
     * of the division is called with it once, in registration order.
     */
    method ProcessNoteDivision(d: Division, elapsed: real, duration: real) returns (calls: seq<Invocation<L>>)
      requires Valid() && duration > 0.0
      modifies this`lastProcessedBeatTime
      ensures Valid()
      ensures lastProcessedBeatTime ==
        old(lastProcessedBeatTime)[d := EdgeStep(elapsed, duration, old(lastProcessedBeatTime)[d]).0]
      ensures calls == if EdgeStep(elapsed, duration, old(lastProcessedBeatTime)[d]).1
                       then Invocations(beatCallbacks[d], EdgeStep(elapsed, duration, old(lastProcessedBeatTime)[d]).0)
                       else []
      ensures duration == Duration(d) ==>
        lastProcessedBeatTime == StepCursor(old(lastProcessedBeatTime), elapsed, d) &&
        calls == DivisionCalls(beatCallbacks, old(lastProcessedBeatTime), elapsed, d)
    {
      var currentDivision := (elapsed / duration).Floor;
      calls := [];
      if currentDivision > lastProcessedBeatTime[d] {
        lastProcessedBeatTime := lastProcessedBeatTime[d := currentDivision];
        var regs := beatCallbacks[d];
        for i := 0 to |regs|
          invariant calls == Invocations(regs[..i], currentDivision)
        {
          calls := calls + [Invocation(regs[i].callback, currentDivision)];
        }
        assert regs[..|regs|] == regs;
      } else {
        assert lastProcessedBeatTime == lastProcessedBeatTime[d := lastProcessedBeatTime[d]];
      }
    }

    /**
     * One dispatcher tick. Nothing happens before loading or before the
     * first tower started the audio. The start time is latched from the first
     * reading of a running engine; until then the cursors stay untouched.
     * Otherwise the five divisions are ticked coarse to fine at the elapsed
     * time, and the invocations are returned in the order they are made.
     */
    method ProcessBeatCallbacks(clock: AudioClock) returns (calls: seq<Invocation<L>>)
      requires Valid()
      modifies this`startTime, this`lastProcessedBeatTime
      ensures Valid()
      ensures Ticked(loaded && hasStartedAudio, clock, beatCallbacks, old(startTime), old(lastProcessedBeatTime),
                     startTime, lastProcessedBeatTime, calls)
      ensures forall k :: 0 <= k < |calls| ==> calls[k].callback in Listeners(beatCallbacks)
    {
      calls := [];
      if !loaded || !hasStartedAudio {
        return;
      }
      if startTime == 0.0 {
        if clock.state == Running {
          startTime := clock.currentTime;
        } else {
          return;
        }
      }
      var elapsedTime := clock.currentTime - startTime;
      calls := Tick(elapsedTime);
    }

    /** The five divisions ticked coarse to fine at one elapsed time. */
    method Tick(elapsedTime: real) returns (calls: seq<Invocation<L>>)
      requires Valid()
      modifies this`lastProcessedBeatTime
      ensures Valid()
      ensures lastProcessedBeatTime == TickCursors(old(lastProcessedBeatTime), elapsedTime)
      ensures calls == TickCalls(beatCallbacks, old(lastProcessedBeatTime), elapsedTime)
      ensures forall k :: 0 <= k < |calls| ==> calls[k].callback in Listeners(beatCallbacks)
    {
      var barDuration := BarDuration(BPM, BEATS_PER_BAR);
      var beatDuration := BeatDuration(BPM);
      DurationLiterals();
      ghost var c0 := lastProcessedBeatTime;
      var c1 := ProcessNoteDivision(Whole, elapsedTime, barDuration);
      assert c1 == DivisionCalls(beatCallbacks, c0, elapsedTime, Whole);
      ghost var m1 := lastProcessedBeatTime;
      var c2 := ProcessNoteDivision(Half, elapsedTime, barDuration / 2.0);
      assert m1[Half] == c0[Half];
      assert c2 == DivisionCalls(beatCallbacks, c0, elapsedTime, Half);
      ghost var m2 := lastProcessedBeatTime;
      var c3 := ProcessNoteDivision(Quarter, elapsedTime, beatDuration);
      assert m2[Quarter] == c0[Quarter];
      assert c3 == DivisionCalls(beatCallbacks, c0, elapsedTime, Quarter);
      ghost var m3 := lastProcessedBeatTime;
      var c4 := ProcessNoteDivision(Eighth, elapsedTime, beatDuration / 2.0);
      assert m3[Eighth] == c0[Eighth];
      assert c4 == DivisionCalls(beatCallbacks, c0, elapsedTime, Eighth);
      ghost var m4 := lastProcessedBeatTime;
      var c5 := ProcessNoteDivision(Sixteenth, elapsedTime, beatDuration / 4.0);
      assert m4[Sixteenth] == c0[Sixteenth];
      assert c5 == DivisionCalls(beatCallbacks, c0, elapsedTime, Sixteenth);
      calls := c1 + c2 + c3 + c4 + c5;
      TickCallsListeners(beatCallbacks, c0, elapsedTime);
    }

    /**
     * The fraction of the current step of a division that has elapsed; 0
     * before loading or before the start time is latched. An unknown key is
     * measured in beats.
     */
    function GetCurrentBeatPhase(division: string, clock: AudioClock): (r: real)
      reads this
      ensures -1.0 < r < 1.0
      ensures !loaded || startTime == 0.0 ==> r == 0.0
      ensures loaded && startTime != 0.0 ==> r == Phase(clock.currentTime - startTime, DurationForKey(division))
      ensures loaded && startTime != 0.0 && clock.currentTime >= startTime ==> 0.0 <= r
    {
      if !loaded || startTime == 0.0 then 0.0
      else Phase(clock.currentTime - startTime, DurationForKey(division))
    }
  }

}
