# DecibelDefense: the beat-quantized combat core in Dafny

DecibelDefense is a browser tower-defense game in which the towers fire in
time with the music. This project models its core and proves properties of it:

- **The audio manager.** It keeps one track per tower sound and a beat
  dispatcher. The dispatcher holds, for each of five note divisions (whole,
  half, quarter, eighth, sixteenth), a list of `(id, callback)`
  registrations and a cursor, the step count of that division it last
  dispatched. Each frame the five divisions are ticked from coarse to fine
  at 75 BPM in 4/4 time. A division whose step count has moved past its
  cursor takes the new count and calls each of its listeners once, in
  registration order.
- **The towers.** On its first update a tower resolves its division from
  its type, scales its damage once by that division's factor, and
  registers its beat handler under its id. On every update it searches for
  the nearest enemy in range and is ready to fire exactly when it has one.
  On a beat it shoots once, applying the synth-stabs triple hit on even
  step counts, and is then no longer ready.
- **The enemies.** Each has a death latch and moves along the path. Waves
  are generated with a boss every fifth wave.
- **The game.** The game loop covers tower placement, the enemy pass with
  its bookkeeping of lives and money, the game-over latch, wave
  scheduling, spawning and reset.

Modules, in dependency order:

| module | file | contents |
|---|---|---|
| `Options` | options.dfy | the Option type |
| `Config` | config.dfy | the tower types, the path and the sound mappings, transcribed from `js/config.js` |
| `BeatGrid` | beat_grid.dfy | divisions, durations, the edge trigger over series of ticks, the phase query, the type-to-division table |
| `Registry` | registry.dfy | the value-level specification of `beatCallbacks` |
| `Tracks` | tracks.dfy | the value-level specification of the track records |
| `Audio` | audio_manager.dfy | the `AudioManager` class |
| `Enemies` | enemy.dfy | the `Enemy` class and the wave generator |
| `Towers` | tower.dfy | the `Tower` class, ids, target search, shots and upgrades |
| `GameRules` | game_rules.dfy | the value-level rules the game class is proved against |
| `Game` | game.dfy | the `Game` class and the beat dispatch to the towers |

How some of the source's behaviour is represented:

- **Callbacks.** The source's callback closure `(beatCount) => this.onBeat(beatCount)`
  is a `Registration(id, tower)`. A tick returns its invocations, in order,
  as a sequence of `Invocation(tower, stepCount)`. `Game.Dispatch`
  then calls the towers' `OnBeat` in that order. This is equivalent to the
  source, because a beat handler never touches the audio manager.
- **The audio engine.** Its state (running or suspended) and its current
  time are an `AudioClock` parameter.
- **Enemy movement.** Each frame an enemy's movement is reported as
  whether it stands on its next path point and which grid cell it occupies.
  Only whole path points matter here. In `js/enemy.js:403-424` the step
  length is capped at the distance to the point, so the branch
  `distance < frameSpeed` is never taken. An enemy therefore advances only
  in the frame after it lands exactly on its next point (the
  `distance === 0` branch), which is what the report says.
- **Distances.** A tower compares squared distances with the squared range.
  For a non-negative range this is the same as the source's square-root
  comparison.
- **JavaScript arithmetic.** The remainder (`%`) truncates toward zero, as
  `BeatGrid.JsRemainder` and `BeatGrid.Trunc` write out. The `wave % 5`
  and `beatCount % 2` tests are only compared with zero, so the sign
  convention does not matter there.
- **The bundled copy.** `js/bundle.js` concatenates the same sources. Its
  `AudioManager` (lines 133-599), `Tower` (603-1421), `Enemy` and
  `createEnemyWave` (1424-1988) and the game rules of `Game` (1992-2951) have
  the same logic as the split files, at fixed line offsets. Each row of the
  model therefore covers the bundled copy too: registration at
  `js/bundle.js:470-496`, the edge trigger at 538-552, the dispatch guard at
  502-513, the type-to-division table at 559-571, the damage resolution at
  1085-1111, the beat handler at 1173-1190, the enemy pass at 2732-2759 and
  placement at 2778-2811.

Three behaviours of the code that a reader may not expect; the model
follows the code:

- **`reset` does not clear the dispatcher.** `AudioManager.reset`
  (`js/audioManager.js:268-293`) stops and mutes the tracks and clears the
  started flag. It keeps every registration, the cursors and the latched
  start time. `Audio.AudioManager.Reset` says so.
- **`resetGame` leaves stale registrations.** It drops the towers
  (`js/game.js:866`) without unregistering them. `Game.Game.ResetGame`
  proves that every dropped tower is still registered. For this reason
  the game's invariant ranges over every tower ever placed (`Placed`), and
  the dispatch is proved for all of them.
- **A tick runs on a suspended engine.** The start time waits for a
  running engine. The tick itself does not: once the start time is
  latched, the cursors advance and listeners are called whatever the
  engine's state (`js/audioManager.js:374-401`).

## Model

| member | source | states |
|---|---|---|
| BeatGrid.Rank | js/audioManager.js:396-400 | each division has a position in the coarse-to-fine order in which a tick visits the divisions |
| BeatGrid.ParseDivision | js/audioManager.js:343-346 | a key that parses names that division; a key that does not parse names none of the five, so no registry holds it |
| BeatGrid.ParseKey | js/audioManager.js:22-28 | every division's registry key parses back to that division |
| BeatGrid.DivisionDuration | js/audioManager.js:18-19 | every division's step is positive for a positive tempo and bar length |
| BeatGrid.Duration | js/audioManager.js:15-19 | the step of every division at the manager's fixed 75 BPM is positive |
| BeatGrid.DurationRatios | js/audioManager.js:18-19 | in 4/4 at any tempo, whole = 4 x quarter = 8 x eighth = 16 x sixteenth, and half = 2 x quarter |
| BeatGrid.DurationsDecrease | js/audioManager.js:396-400 | a division later in the visiting order has a strictly shorter step |
| BeatGrid.DurationForKey | js/audioManager.js:458-465 | the phase query's duration is the named division's step, and the quarter-note step for any other key |
| BeatGrid.Trunc | js/audioManager.js:469 | JavaScript's rounding toward zero: within one below a non-negative number and within one above a negative one |
| BeatGrid.Phase | js/audioManager.js:469 | the phase lies strictly between -1 and 1, is non-negative for a non-negative elapsed time, and elapsed = (whole steps + phase) x duration |
| BeatGrid.EdgeStep | js/audioManager.js:410-418 | one edge-trigger step: the new cursor is the old one or the current step count, never below either, and it fires exactly when the cursor advanced |
| BeatGrid.Cursor | js/audioManager.js:415-417 | after any series of ticks the cursor is never below where it started |
| BeatGrid.FiredIncreasing | js/audioManager.js:415-417 | over any series of ticks the dispatched step counts strictly increase and all lie above the starting cursor |
| BeatGrid.FiredCountBound | js/audioManager.js:410-424 | a series of ticks dispatches at most as many step counts as the cursor advanced |
| BeatGrid.CatchUpCollapses | js/audioManager.js:412-418 | a tick that jumps over several step boundaries dispatches once, with the latest step count; a tick that crosses none dispatches nothing |
| BeatGrid.NoStallFiresEveryStep | js/audioManager.js:410-424 | when no tick skips a boundary, every step count after the start fires exactly once and in order, and the cursor ends at the last tick's step count |
| BeatGrid.TicksAtHalfSteps | js/audioManager.js:410-424 | a worked example: ticks at 0, d/2, 3d/2 and 5d/2 fire steps 1 and 2; a stall from 0 to 7d/2 fires only step 3 |
| BeatGrid.DivisionForTowerType | js/audioManager.js:431-443 | the table's division for the seven configured types, and quarter notes for any other type |
| BeatGrid.EveryTowerTypeHasDivision | js/audioManager.js:432-440 | the table covers exactly the configured tower types, so no configured tower falls to the default |
| BeatGrid.CoarserHitsHarder | js/tower.js:491-507 | one division has a strictly longer step than another exactly when its damage factor is strictly larger |
| Tracks.InitialTracks | js/audioManager.js:60-78 | the loader creates one muted, inactive, non-playing record per sound mapping, in order |
| Tracks.StartedTracksSpec | js/audioManager.js:145-174 | after a start every music track plays; non-music and already-playing tracks are untouched; starting twice is starting once; with all music playing a start changes nothing |
| Tracks.GainUpdateSpec | js/audioManager.js:217-238 | each music track is active exactly when its key is among the towers' sound keys; a gain target changes only when the active flag flips, to 0.5 or 0; a second update changes nothing |
| Tracks.ResetTracksSpec | js/audioManager.js:268-293 | music tracks end muted, inactive and stopped; a reset is idempotent; after it not all music plays, and a new start plays every track |
| Registry.EmptyTable | js/audioManager.js:22-28 | the manager starts with a list for each of the five divisions, every one empty |
| Registry.Without | js/audioManager.js:364-368 | filtering out an id removes exactly its entries and is the identity on a list without it |
| Registry.WithoutKeepsOthers | js/audioManager.js:364-368 | removing one id keeps the entries of every other id in their order |
| Registry.WithoutAppend | js/audioManager.js:364-368 | removal distributes over concatenation, so it never reorders what it keeps |
| Registry.UnregisterSpec | js/audioManager.js:364-368 | removing an id leaves no entry of it in any division, keeps every other id's entries in order, is idempotent, and changes nothing when the id is absent |
| Registry.RegisterSpec | js/audioManager.js:349-355 | registering removes the id everywhere and appends it to its division, so the id then occurs exactly once in the whole table, as the last entry of that division |
| Registry.RegisterKeepsOthers | js/audioManager.js:349-355 | registering one id keeps every other id's entries in every division, in order |
| Registry.ReRegisterMoves | js/audioManager.js:349-355 | re-registering an id for another division moves it: it leaves the first division and occurs once in total |
| Registry.RegisterRegisters | js/audioManager.js:342-358 | after registering, the new registration is the id's only one, in its division |
| Registry.RegisterPreserves | js/audioManager.js:342-358 | registering one id leaves another id's sole registration where it was |
| Registry.RegisterMembers | js/audioManager.js:349-355 | every entry after a registration is the new one or was already there |
| Registry.RegisterListeners | js/audioManager.js:349-355 | a registration adds no listener other than its own callback |
| Audio.ZeroCursors | js/audioManager.js:31-37 | the manager starts with every division's cursor at 0 |
| Audio.UnregisterLoop | js/audioManager.js:364-368 | the division-by-division filtering loop produces the table without the id |
| Audio.TickSpec | js/audioManager.js:396-400 | a tick moves each cursor by the edge trigger and never back; a second tick at the same elapsed time changes no cursor and calls nobody |
| Audio.RegisteredIsCalled | js/audioManager.js:418-422 | a registered callback is called with its division's new step count whenever that count advances |
| Audio.TickCallsListeners | js/audioManager.js:420-422 | a tick calls no one but the table's listeners |
| Audio.DurationLiterals | js/audioManager.js:396-400 | the five step lengths written out in the dispatcher are exactly the five division durations |
| Audio.AudioManager.constructor | js/audioManager.js:6-38 | no sounds, not loaded, audio not started, start time 0, all lists empty, all cursors 0 |
| Audio.AudioManager.LoadSounds | js/audioManager.js:44-108 | the first load creates the initial track records and marks the manager loaded; a later load changes nothing |
| Audio.AudioManager.StartTracks | js/audioManager.js:145-174 | every music track that was not playing starts; the rest stay as they were |
| Audio.AudioManager.AllTracksStarted | js/audioManager.js:256-263 | true exactly when every music track plays |
| Audio.AudioManager.StartAllTracks | js/audioManager.js:114-139 | does nothing unless loaded and some music track is silent; then it starts the tracks when the engine is not suspended, and defers the start to the engine's resume when it is |
| Audio.AudioManager.Update | js/audioManager.js:180-239 | nothing before loading; the first non-empty set of towers starts the audio and all tracks once; once started, each track's activity follows the towers' sound keys, with gain changes only at a flip |
| Audio.AudioManager.Reset | js/audioManager.js:268-293 | when loaded, every music track is muted and stopped and the audio is no longer started; the registrations, cursors and start time are kept |
| Audio.AudioManager.OnGameOver | js/audioManager.js:332-334 | the game-over notification has exactly the effect of a reset |
| Audio.AudioManager.AddBeatCallback | js/audioManager.js:342-358 | a key that names no division leaves the registry unchanged; otherwise the id's earlier registrations go and the new one is appended to the division |
| Audio.AudioManager.RemoveBeatCallback | js/audioManager.js:364-368 | every registration of the id goes, from every division, and nothing else changes |
| Audio.AudioManager.ProcessNoteDivision | js/audioManager.js:410-424 | when the step count exceeds the division's cursor, the cursor takes it and every listener of that division is called once with it, in registration order; otherwise nothing happens |
| Audio.AudioManager.ProcessBeatCallbacks | js/audioManager.js:374-401 | exactly the tick `Ticked` describes: nothing happens unless loaded and started; the start time is latched only from a running engine, and until then the cursors stay; otherwise the cursors and invocations of a full tick at the elapsed time, calling only registered listeners |
| Audio.AudioManager.Tick | js/audioManager.js:396-400 | the five divisions ticked coarse to fine move the cursors as the edge trigger does and produce the tick's invocations, all of registered listeners |
| Audio.AudioManager.GetCurrentBeatPhase | js/audioManager.js:450-470 | 0 before loading or before the start time is latched; otherwise the phase of the elapsed time in the division's step, strictly between -1 and 1 and non-negative once the clock is past the start |
| Enemies.Advance | js/enemy.js:402-424 | within one frame the path index rises by at most one and only when the enemy stands on its next point; the end flag is set once the index reaches the last point and is never cleared |
| Enemies.Stepped | js/enemy.js:351-450 | an enemy whose path index is off its path is marked dead with nothing else changed; otherwise it advances as `Advance` says and takes its new cell; health never changes |
| Enemies.Walk | js/enemy.js:402-424 | over any series of frames the path index never decreases and stays on the path |
| Enemies.WalkCountsArrivals | js/enemy.js:402-424 | after k arrivals the index is min(start + k, last point), and the end flag is set exactly when start + k reaches the last point and the enemy has left the first point |
| Enemies.WaveSize | js/enemy.js:551-566 | `count` enemies when the wave is not a multiple of 5; otherwise a boss plus max(0, count - 2) regular enemies |
| Enemies.GameWaveSize | js/game.js:764-770 | a game wave w holds 5 + 2w enemies, except every fifth wave, which holds one fewer |
| Enemies.Enemy.constructor | js/enemy.js:11-82 | a new enemy stands at the first point of its path (a fallback path when given none) at full health, neither at the end nor dead |
| Enemies.Enemy.Boss | js/enemy.js:495-500 | a boss has 0.7 x the speed and 3 x the health of its arguments |
| Enemies.Enemy.TakeDamage | js/enemy.js:456-482 | health drops by exactly the amount; the enemy is dead when its health is at or below 0, and a dead enemy stays dead |
| Enemies.Enemy.Update | js/enemy.js:351-450 | one frame: an index off the path marks the enemy dead; otherwise the index and end flag move as `Advance` says, and the grid cell is the frame's |
| Enemies.CreateEnemyWave | js/enemy.js:547-567 | `WaveSize` new and distinct enemies at the start of the path; on waves that are multiples of 5 a boss first; the rest are regular enemies with the base speed and health |
| Towers.TowerIdInjective | js/tower.js:16 | two tower ids are equal exactly when the towers share the cell and the clock reading |
| Towers.ShotMultiplierAlternates | js/tower.js:579-588 | a synth-stabs tower hits 3 x on exactly one of any two consecutive step counts; every other type always uses factor 1 |
| Towers.UpgradeCost | js/tower.js:816-822 | 0 at the top level; below it, the floor of 80% of the cost times the level |
| Towers.UpgradeCostIsQuotient | js/tower.js:816-822 | for non-negative costs and levels the price is the integer quotient 4 x cost x level / 5 |
| Towers.UpgradePricesExact | js/tower.js:819-820 | for every configured type the price loses nothing to rounding |
| Towers.ChoiceUnique | js/tower.js:538-555 | the target search's outcome is determined by the tower and the enemies' cells |
| Towers.NearestIsClosest | js/tower.js:538-552 | the chosen enemy is at least as close as every enemy in range |
| Towers.Tower.constructor | js/tower.js:12-52 | a new tower takes its type's range, damage, fire rate and sound, the id built from its cell and the clock, and starts level 1 of 3, without a target or division, ready and inactive |
| Towers.Tower.FindTarget | js/tower.js:538-555 | the running-minimum search returns null exactly when no enemy is in range; otherwise an enemy in range with no earlier one as close and no later one strictly closer |
| Towers.Tower.Update | js/tower.js:481-569 | the first update resolves the division, scales the damage by its factor and registers this tower under its id; later updates leave all three alone; every update retargets, and afterwards the tower is ready and active exactly when it has a target |
| Towers.Tower.Retarget | js/tower.js:538-561 | the search's target, with readiness and activity equal to having a target |
| Towers.Tower.Resolve | js/tower.js:487-512 | without a division: the type's division, damage = base x its factor, and one registration under the id; with one: nothing changes |
| Towers.Tower.Fire | js/tower.js:599-613 | the enemy's health drops by exactly damage x multiplier, its death latch follows, and the tower is active |
| Towers.Tower.OnBeat | js/tower.js:575-592 | with a target and ready, it shoots once with the synth-stabs factor for the step count and is no longer ready, so a second beat without an update does nothing; otherwise nothing changes |
| Towers.Tower.Upgrade | js/tower.js:787-799 | succeeds exactly below the top level, raising the level by one, damage x 1.5 and range and fire rate x 1.2; fails with nothing changed at the top |
| Towers.Tower.GetUpgradeCost | js/tower.js:816-822 | 0 at the top level; below it, exactly 80% of the type's cost times the level |
| GameRules.FateAccounting | js/game.js:673-700 | in any enemy pass, kept + escaped + killed = all enemies; what is kept comes from the list; an enemy stays exactly when it neither reached the end nor died |
| GameRules.RosterKept | js/game.js:673-700 | what an enemy pass keeps still repeats no enemy and shares none with the schedule |
| GameRules.RosterEnlist | js/game.js:772-778 | a new wave's first enemy on the board and the rest as the schedule keep every enemy in one place only |
| GameRules.RosterShift | js/game.js:818-823 | moving the schedule's head to the board keeps every enemy in one place only |
| GameRules.RosterJoin | js/game.js:824-835 | a new enemy joining the board keeps every enemy in one place only |
| GameRules.BoardAppend | js/game.js:719-752 | a tower placed in bounds, off the path, on a free cell, keeps the towers on distinct cells off the path |
| GameRules.DistinctIds | js/tower.js:16 | towers on distinct cells have distinct ids |
| GameRules.RegisterUpToKeeps | js/game.js:706-711 | the tower pass keeps the registrations of any id that no newly registering tower has |
| GameRules.RegisterUpToRegisters | js/tower.js:510-512 | after the pass, every tower that registered, or was registered before, holds its registration on its type's division |
| GameRules.RegisterUpToListeners | js/game.js:706-711 | the tower pass adds no listener other than the towers |
| GameRules.Struck | js/tower.js:599-602 | over a dispatch an enemy that was dead stays dead |
| GameRules.ShootsOnce | js/tower.js:575-592 | within one dispatch each tower shoots at most once, however often it is called, and every ready tower that is called shoots |
| GameRules.StruckKills | js/enemy.js:468-470 | an enemy that a dispatch kills was hit by some shot |
| GameRules.StruckMissed | js/tower.js:599-602 | an enemy no shot aims at keeps its health and its flag |
| Game.Game.constructor | js/game.js:9-57 | no towers, enemies, schedule or selection; starting money and lives; wave 0; not over, paused or started; timers 0; a fresh, unloaded audio manager |
| Game.Game.LoadAssets | js/game.js:62-69 | after loading, the audio manager is loaded |
| Game.Game.SelectTowerType | js/ui.js:193 | the game's selection becomes the interface's choice |
| Game.Game.PlaceTower | js/game.js:719-752 | refused, with nothing changed, without a selection, out of bounds, on the path, on an occupied cell or short of money; otherwise exactly one new tower of the selected type at that cell is appended and its cost paid |
| Game.Game.AddTower | js/game.js:742-743 | the tower is appended and becomes one of the placed towers, keeping the game's invariant |
| Game.Game.UpdateEnemies | js/game.js:673-700 | each enemy moves once; those at the end cost a life each and those killed pay 25 each; the others stay in order; the game is over once an escape leaves lives at or below 0, and only that transition resets the audio, which before loading changes nothing |
| Game.Game.Sweep | js/game.js:674-699 | the reverse index loop over the enemies has the effect `UpdateEnemies` states |
| Game.Game.SweepStep | js/game.js:674-699 | one turn of the loop carries the pass's invariant from index i + 1 to index i |
| Game.Game.SettleKept | js/game.js:675-698 | enemy i is moved and settled, and every other enemy is as it was |
| Game.Game.SettleScored | js/game.js:675-698 | lives, money and the game-over state carried from the fates after index i to enemy i's fate as well |
| Game.Game.Settle | js/game.js:675-698 | an enemy at the end costs a life and is removed, possibly ending the game; a dead one pays 25 and is removed; any other stays |
| Game.Game.UpdateTowers | js/game.js:706-711 | every tower is updated against the enemies; each ends with its division, damage scaled once, the search's target and readiness; the registry gains, in order, each tower that was still unregistered |
| Game.Game.PassRegistry | js/game.js:706-711 | at the end of the tower pass every listener is a placed tower and every tower is registered, so the game's invariant holds again |
| Game.Game.TunePass | js/game.js:708-710 | the loop over the towers establishes what `UpdateTowers` states |
| Game.Game.TuneLoop | js/game.js:708-710 | the loop's invariant is carried from the first tower to the last |
| Game.Game.TuneStep | js/game.js:708-710 | one turn updates tower i and carries the invariant from i to i + 1 |
| Game.Game.TuneCarry | js/game.js:708-710 | updating tower i keeps the towers before it tuned and those after it untouched |
| Game.Game.TuneTower | js/game.js:708-710 | tower i's update alone: tuned, aiming at an enemy on the board or at nothing, and registered if it was pending |
| Game.Dispatch | js/audioManager.js:420-422 | the tick's invocations called in order: each tower called while ready with a target shoots once and is no longer ready, every other tower keeps its flags; each enemy's health and latch are what `Struck` accumulates from the shots aimed at it |
| Game.TickAndDispatch | js/audioManager.js:374-424 | one tick of the dispatcher as `Ticked` describes it, then its invocations made as `Game.Dispatch` states: the readiness, the activity and the enemies' health and latch follow from the tick's invocations |
| Game.AudioFrame | js/game.js:293-294 | the audio manager's part of a frame: the tracks as `Audio.AudioManager.Update` states for the given sound keys, the registry unchanged, then one tick and its dispatch as `Game.TickAndDispatch` states |
| Game.DispatchStep | js/tower.js:575-592 | invocation k's beat handler carries the dispatch's invariant from k to k + 1 |
| Game.Game.TogglePause | js/game.js:889-891 | the pause flag flips, so two toggles restore it |
| Game.Game.ResetGame | js/game.js:862-884 | no towers, enemies, schedule or selection; starting money and lives; wave 0; not over or paused; the audio is reset; every dropped tower is still registered; before loading the tracks and the started flag stay |
| Game.Game.ResetAudio | js/game.js:877 | the audio part of the reset: once loaded the tracks stop and the audio is no longer started, before loading the tracks and the flag stay; every registration stays |
| Game.Game.ResetScore | js/game.js:870-874 | starting money and lives, wave 0, not over or paused |
| Game.Game.ClearBoard | js/game.js:866-869 | no towers, enemies, schedule or selection |
| Game.Game.StartNewGame | js/game.js:852-857 | the game is started and not over, and then reset |
| Game.Game.StartNextWave | js/game.js:757-780 | the wave goes up by one; its first enemy joins the board and the rest, in order, are the schedule, sized as `GameWaveSize` says; the spawn timer is 0.5 |
| Game.Game.Enlist | js/game.js:772-779 | the wave's first enemy is appended to the board, the rest become the schedule, and the timer is 0.5 |
| Game.Game.SpawnEnemy | js/game.js:786-839 | a test enemy has speed 2 and health 100; otherwise the schedule's head joins the board, or during a wave with an empty schedule a new enemy with the wave's speed and health; before the first wave nothing happens |
| Game.Game.Join | js/game.js:824-835 | a new enemy is appended to the board |
| Game.Game.SpawnTick | js/game.js:278-284 | the timer runs down by the elapsed time; once it is out, during a wave and with enemies scheduled, the schedule's head joins the board and the timer restarts at 0.5 |
| Game.Game.Update | js/game.js:273-295 | one frame: the frame counter goes up, the spawn timer behaves as `SpawnTick` says, lives only fall, money only rises, and a game that is over stays over |
| Game.Game.Muster | js/game.js:278-287 | the spawn and the enemy pass of a frame: the timer as `SpawnTick` says, lives only fall, money only rises |
| Game.Game.Play | js/game.js:290-294 | the tower pass and the audio of a frame: the registry gains, in order, the still-unregistered towers; the tracks start with the first tower and follow the towers' sound keys; the dispatcher ticks on the new registry as `Ticked` describes |
| Game.Game.Beat | js/game.js:293-294 | the audio of a frame on the towers as they stand: the registry unchanged; the tracks follow the towers' sound keys; one tick as `Ticked` describes; each tower called while ready with a target shoots once and is then spent; each enemy's health and latch are what `Struck` accumulates from the tick's shots |
| Game.Game.MoveEnemies | js/game.js:287 | the enemy pass of a frame: lives only fall, money only rises, and a game that is over stays over |
| Game.Game.Frame | js/game.js:241-267 | the frame's time in seconds since the previous frame, and a frame of play only while the game is started, not over and not paused; otherwise nothing but the frame time changes: the counters, the timer, the board, the schedule, the purse, the towers and enemies, the tracks, the start time, the cursors and the registry all stay |
| Game.Game.Stamp | js/game.js:243-244 | the elapsed time is the milliseconds since the previous frame divided by 1000, and the new reading is kept |

## Left out

- Web Audio and network plumbing: the `fetch` and decoding promises, buffer sources, `start`/`stop`, `resume()` and the exponential gain ramp (`setGain`). They are foreign asynchronous calls. Only the track flags and the gain target are modelled, and the engine appears as the `AudioClock` parameter.
- Drawing, particles, projectiles, glow, the tower pulse and every canvas or DOM effect (`draw*`, `create*Particles`, `update*`, the game-over screen, `ui.js`, `main.js`, `resizeCanvas`). They are rendering, driven by `Math.random` and `sin`.
- Enemies.Enemy.Update: the continuous movement between path points (square roots, normalised direction, pixel position, the capped step length) is left out. This is floating-point geometry; a frame reports instead whether the enemy stands on its next point and which cell it occupies.
- Enemies.CreateEnemyWave: the random spread of health (0.9–1.1 x) and speed (0.8–1.2 x) of regular enemies is left out. The model gives every regular enemy the base values, because the spread comes from `Math.random`.
- Enemies.Enemy.constructor: the source validates each path point's shape and finiteness. With the integer path model those checks cannot fail, so they are left out.
- Enemies.Enemy.constructor: on an empty path the source returns early (`js/enemy.js:14-23`) without setting speed, health and the flags. The model sets them as for any other path. The game always passes its non-empty path.
- Game.Game.SpawnEnemy: the `isFinite` checks on an enemy's position and the empty-path guard for test enemies always pass for the game's path, so they are left out. The `try`/`catch` around the spawn is left out as well.
- Game.Game.PlaceTower: the `onTowerPlace` notification only asks a suspended engine to resume, which is foreign to the model. The clock reading for the tower's id (`Date.now()`) is the parameter `now`.
- Game.Game.StartNextWave: `onWaveStart` is an empty notification.
- BeatGrid.ParseDivision: keys are taken to be strings that are not names every JavaScript object inherits. For "constructor", "toString" or "__proto__" the guard `!this.beatCallbacks[division]` (`js/audioManager.js:343`) passes on the inherited member, and the later `.push` (`js/audioManager.js:352`) throws. The model treats such a key like any other unknown key.
- Audio.AudioManager.AddBeatCallback: for the same inherited names the source first strips the id from every division and then throws a `TypeError` at `.push` (`js/audioManager.js:352`). The model leaves the registry unchanged instead. Every caller in the game passes a division resolved from the type table.
- BeatGrid.DivisionForTowerType: for an inherited name such as "constructor", `divisions[towerType] || '1/4'` (`js/audioManager.js:442`) yields the inherited member, not a division. The model gives quarter notes. The game only looks up configured tower types.
- Towers.Tower.constructor: `requires towerType in Config.TOWER_TYPES` stands for the source's lookup `CONFIG.TOWER_TYPES[type]`. For an inherited name that lookup yields a function and the constructor reads `undefined` stats; for any other unknown name it throws. Placement only builds configured types.
- Game.Game.UpdateTowers: the clock reading (`performance.now()`) is used only for the glow effect, so it is left out.
- Game.Game.Update: does not restate the registry, the tracks, the tick or the dispatch's effects. The registry, the tracks and the tick are the contract of `Game.Game.Play`. The towers after the tower pass are stated by `Game.Game.UpdateTowers`. The towers and enemies after the dispatch are stated by `Game.Game.Beat`, relative to the state after the pass. `Update` itself promises the counters, the spawn timer and the monotone lives, money and game-over state.
- Game.Game.Play: does not restate the towers' and enemies' state at the end of the frame. It is stated one step at a time: `Game.Game.UpdateTowers` for the tower pass, and `Game.Game.Beat`, from the state the pass leaves, for the dispatch. No single contract combines the two.
- Game.Game.Muster: states the effect of the enemy pass only as bounds on lives and money and the game-over latch. The exact bookkeeping is `Game.Game.UpdateEnemies`'s contract, because a fresh list of moves is built from the `move` report.
- Game.Game.MoveEnemies: states the same bounds as `Muster` for the same reason.
- Game.Game.Frame: the scheduling of the next animation frame (`requestAnimationFrame`) and the drawing are left out; the loop is one call per frame.
- Game.Game.LoadAssets: the asynchronous wait, the error handling and the start of the animation loop are left out.
- Audio.AudioManager.Update: the `resume()` request on a suspended engine is left out. The deferred start of the tracks is returned as `deferred`, and `StartTracks` is the continuation.
- Audio.AudioManager.ProcessBeatCallbacks: the unused `currentBar` and `currentBeat` values and the debug log are left out. The audio context's existence is folded into `loaded`.
- The `getPosition`, `spawnTestEnemy`, `onEnemyDie` and `log` helpers are left out. They are pixel geometry, a one-line delegation, or empty and logging bodies.
- Numbers: time, health, damage and range are exact reals, not IEEE doubles. Grid coordinates, costs, money and lives are unbounded integers. The source's values stay far from the limits where 64-bit floats would round these.
- `js/config.js` is transcribed as constants: the tower types, the path and the sound mappings. The colours and descriptions are left out.
