/**
 * The game state: towers, enemies on the board and scheduled, money, lives
 * and wave, and the frame update that drives enemies, towers and the audio
 * manager's beat dispatcher. Canvas, input and timing plumbing are outside
 * the model; a frame receives the elapsed time, what each enemy's movement
 * did, the audio engine's clock and the wall-clock reading.
 */
module Game {

  import opened Options
  import opened BeatGrid
  import opened Registry
  import opened Tracks
  import opened Audio
  import opened Enemies
  import opened Towers
  import Config
  import opened GameRules

  class Game {
    var towers: seq<Tower>
    var enemies: seq<Enemy>
    var scheduledEnemies: seq<Enemy>
    var selectedTowerType: Option<string>
    var money: int
    var lives: int
    var wave: int
    var gameOver: bool
    var paused: bool
    var gameStarted: bool
    var enemySpawnTimer: real
    var frameCounter: int
    /** The animation clock's reading at the previous frame, in milliseconds. */
    var lastFrameTime: real
    const audio: AudioManager<Tower>
    /** Every tower ever placed, including those a reset dropped from `towers`. */
    ghost var Placed: set<Tower>
    /** Every enemy ever created. */
    ghost var Foes: set<Enemy>

    /**
     * The towers: on the board, placed and valid; and no placed tower, on
     * the board or dropped by a reset, aims at anything but a known enemy.
     */
    ghost predicate TowersValid()
      reads this`towers, this`Placed, this`Foes, Placed`target, towers`range, towers`level, towers`beatDivision
    {
      Board(towers) &&
      (forall i :: 0 <= i < |towers| ==> towers[i] in Placed && towers[i].Valid()) &&
      (forall t :: t in Placed ==> t.target == null || t.target in Foes)
    }

    /**
     * The registry of the audio manager: every listener is a placed tower, and every current
     * tower that resolved its division is registered there under its id.
     */
    ghost predicate RegistryValid()
      reads this`towers, this`Placed, audio`beatCallbacks, towers`beatDivision
    {
      Listeners(audio.beatCallbacks) <= Placed &&
      AllRegistered(towers, audio.beatCallbacks)
    }

    /** The enemies on the board and those scheduled: known, and each object once. */
    ghost predicate EnemiesValid()
      reads this`enemies, this`scheduledEnemies, this`Foes
    {
      Roster(enemies, scheduledEnemies, Foes)
    }

    ghost predicate Valid()
      reads this`towers, this`enemies, this`scheduledEnemies, this`selectedTowerType, this`wave
      reads this`Placed, this`Foes, audio, Placed, towers
    {
      TowersValid() && audio.Valid() && RegistryValid() && EnemiesValid() &&
      (selectedTowerType.Some? ==> selectedTowerType.value in Config.TOWER_TYPES) && wave >= 0
    }

    constructor ()
      ensures Valid() && fresh(audio)
      ensures towers == [] && enemies == [] && scheduledEnemies == [] && selectedTowerType.None?
      ensures money == Config.STARTING_MONEY && lives == Config.STARTING_LIVES && wave == 0
      ensures !gameOver && !paused && !gameStarted && enemySpawnTimer == 0.0
      ensures frameCounter == 0 && lastFrameTime == 0.0
      ensures audio.beatCallbacks == EmptyTable() && !audio.loaded && !audio.hasStartedAudio
    {
      towers := [];
      enemies := [];
      scheduledEnemies := [];
      selectedTowerType := None;
      money := Config.STARTING_MONEY;
      lives := Config.STARTING_LIVES;
      wave := 0;
      gameOver := false;
      paused := false;
      gameStarted := false;
      enemySpawnTimer := 0.0;
      frameCounter := 0;
      lastFrameTime := 0.0;
      audio := new AudioManager();
      Placed := {};
      Foes := {};
    }

    /** Loads the sounds (the start of the animation loop is outside the model). */
    method LoadAssets()
      requires Valid()
      modifies audio`sounds, audio`loaded
      ensures Valid()
      ensures audio.loaded
    {
      audio.LoadSounds();
    }

    /** The interface's selection of a tower type, or of none. */
    method SelectTowerType(towerType: Option<string>)
      requires Valid()
      requires towerType.Some? ==> towerType.value in Config.TOWER_TYPES
      modifies this`selectedTowerType
      ensures Valid() && selectedTowerType == towerType
    {
      selectedTowerType := towerType;
    }

    /**
     * Places a tower of the selected type at (gridX, gridY), created at
     * clock reading `now`. Refused, with nothing changed, without a
     * selection, off the board, on the path, on an occupied cell or without
     * the money; otherwise the tower is appended and its cost paid.
     */
    method PlaceTower(gridX: int, gridY: int, now: nat) returns (placed: bool)
      requires Valid()
      modifies this`towers, this`money, this`Placed
      ensures Valid()
      ensures placed == CanPlace(old(towers), selectedTowerType, old(money), gridX, gridY)
      ensures !placed ==> towers == old(towers) && money == old(money) && Placed == old(Placed)
      ensures placed ==>
        |towers| == |old(towers)| + 1 && towers[..|old(towers)|] == old(towers) &&
        fresh(towers[|old(towers)|]) && Placed == old(Placed) + {towers[|old(towers)|]} &&
        money == old(money) - Config.TOWER_TYPES[selectedTowerType.value].cost
      ensures placed ==>
        var t := towers[|old(towers)|];
        t.x == gridX && t.y == gridY && t.towerType == selectedTowerType.value &&
        t.id == TowerId(gridX, gridY, now) && t.beatDivision.None? && t.target == null
    {
      if !CanPlace(towers, selectedTowerType, money, gridX, gridY) {
        return false;
      }
      var towerCost := Config.TOWER_TYPES[selectedTowerType.value].cost;
      var tower := new Tower(gridX, gridY, selectedTowerType.value, now);
      AddTower(tower);
      money := money - towerCost;
      placed := true;
    }

    /** Appends a new, unregistered tower on a free board cell off the path. */
    method AddTower(tower: Tower)
      requires Valid() && tower !in Placed
      requires tower.Valid() && tower.target == null && tower.beatDivision.None?
      requires Config.InBounds(tower.x, tower.y) && !Config.OnPath(tower.x, tower.y)
      requires !Occupied(towers, tower.x, tower.y)
      modifies this`towers, this`Placed
      ensures Valid()
      ensures towers == old(towers) + [tower] && Placed == old(Placed) + {tower}
    {
      BoardAppend(towers, tower);
      towers := towers + [tower];
      Placed := Placed + {tower};
    }

    /**
     * One pass over the enemies, last to first: each is updated with its
     * movement report; one at the end costs a life and leaves, a dead one
     * pays 25 and leaves, the others stay in order. The first time lives
     * fall to zero or below the game is over and the audio is reset, once.
     */
    method UpdateEnemies(moves: seq<Move>)
      requires Valid() && |moves| == |enemies|
      modifies this`enemies, this`lives, this`money, this`gameOver
      modifies audio`sounds, audio`hasStartedAudio
      modifies enemies
      ensures Valid()
      ensures forall k :: 0 <= k < |old(enemies)| ==> Moved(old(enemies)[k], moves[k])
      ensures enemies == Remaining(old(enemies), Fates(old(enemies)))
      ensures lives == old(lives) - Escapes(Fates(old(enemies)))
      ensures money == old(money) + 25 * Kills(Fates(old(enemies)))
      ensures gameOver == (old(gameOver) || (Escapes(Fates(old(enemies))) > 0 && lives <= 0))
      ensures gameOver && !old(gameOver) && audio.loaded ==>
        !audio.hasStartedAudio && audio.sounds == ResetTracks(old(audio.sounds))
      ensures !(gameOver && !old(gameOver)) ==>
        audio.hasStartedAudio == old(audio.hasStartedAudio) && audio.sounds == old(audio.sounds)
      ensures !audio.loaded ==> audio.hasStartedAudio == old(audio.hasStartedAudio) && audio.sounds == old(audio.sounds)
    {
      ghost var before := enemies;
      Sweep(moves);
      FateAccounting(before, Fates(before));
      RosterKept(before, Fates(before), scheduledEnemies, Foes);
      ghost var tv, rv := TowersValid(), RegistryValid();
      assert tv && rv;
    }

    /**
     * The pass over `all`, whose states were `olds` and whose fates are
     * `outs`, has settled the enemies from index i on, starting from the
     * lives, money, flag and audio state given: those are updated, those
     * before i untouched, the list is the unvisited prefix and the survivors,
     * and the purse, the lives, the flag and the audio are as the settled
     * fates make them.
     */
    ghost predicate Swept(i: nat, all: seq<Enemy>, olds: seq<Snapshot>, outs: seq<Fate>, moves: seq<Move>,
                          lives0: int, money0: int, over0: bool, sounds0: seq<Track>, started0: bool)
      reads this, audio, all
    {
      i <= |all| == |olds| == |outs| == |moves| &&
      enemies == all[..i] + Remaining(all[i..], outs[i..]) &&
      (forall k :: 0 <= k < i ==> all[k].Snap() == olds[k]) &&
      (forall k :: i <= k < |all| ==> all[k].Snap() == Stepped(|all[k].path|, olds[k], moves[k].0, moves[k].1)) &&
      Scored(outs[i..], lives0, money0, over0, sounds0, started0)
    }

    /**
     * The lives, the purse, the flag and the audio, from the values given,
     * as the fates `outs` make them: a life per escape, 25 per kill, the
     * game over once an escape leaves no lives, and the audio reset then
     * (which changes nothing before the sounds are loaded).
     */
    ghost predicate Scored(outs: seq<Fate>, lives0: int, money0: int, over0: bool, sounds0: seq<Track>, started0: bool)
      reads this, audio
    {
      lives == lives0 - Escapes(outs) &&
      money == money0 + 25 * Kills(outs) &&
      gameOver == (over0 || (Escapes(outs) > 0 && lives <= 0)) &&
      (gameOver && !over0 && audio.loaded ==> !audio.hasStartedAudio && audio.sounds == ResetTracks(sounds0)) &&
      (!(gameOver && !over0) ==> audio.hasStartedAudio == started0 && audio.sounds == sounds0) &&
      (gameOver && !over0 && !audio.loaded ==> audio.hasStartedAudio == started0 && audio.sounds == sounds0) &&
      audio.Valid()
    }

    /** The loop of an enemy update, as the update states it, keeping the audio manager valid. */
    method Sweep(moves: seq<Move>)
      requires Distinct(enemies) && audio.Valid() && |moves| == |enemies|
      modifies this`enemies, this`lives, this`money, this`gameOver
      modifies audio`sounds, audio`hasStartedAudio
      modifies enemies
      ensures audio.Valid()
      ensures forall k :: 0 <= k < |old(enemies)| ==> Moved(old(enemies)[k], moves[k])
      ensures enemies == Remaining(old(enemies), Fates(old(enemies)))
      ensures lives == old(lives) - Escapes(Fates(old(enemies)))
      ensures money == old(money) + 25 * Kills(Fates(old(enemies)))
      ensures gameOver == (old(gameOver) || (Escapes(Fates(old(enemies))) > 0 && lives <= 0))
      ensures gameOver && !old(gameOver) && audio.loaded ==>
        !audio.hasStartedAudio && audio.sounds == ResetTracks(old(audio.sounds))
      ensures !(gameOver && !old(gameOver)) ==>
        audio.hasStartedAudio == old(audio.hasStartedAudio) && audio.sounds == old(audio.sounds)
      ensures !audio.loaded ==> audio.hasStartedAudio == old(audio.hasStartedAudio) && audio.sounds == old(audio.sounds)
    {
      ghost var all := enemies;
      ghost var olds := Snaps(all);
      ghost var outs := Outcomes(all, olds, moves);
      var i := |enemies|;
      assert all[..i] + Remaining(all[i..], outs[i..]) == all;
      while i > 0
        invariant 0 <= i <= |all|
        invariant Swept(i, all, olds, outs, moves, old(lives), old(money), old(gameOver), old(audio.sounds), old(audio.hasStartedAudio))
      {
        i := i - 1;
        SweepStep(i, moves, all, olds, outs, old(lives), old(money), old(gameOver), old(audio.sounds), old(audio.hasStartedAudio));
      }
      forall k | 0 <= k < |all|
        ensures outs[k] == Fates(all)[k]
      {
        assert all[k].Snap() == Stepped(|all[k].path|, olds[k], moves[k].0, moves[k].1);
      }
      assert outs == Fates(all) && all[0..] == all && outs[0..] == outs;
    }

    /** One turn of the pass: the enemy at index i settled, the pass invariant carried from i + 1 to i. */
    method SweepStep(i: nat, moves: seq<Move>, ghost all: seq<Enemy>, ghost olds: seq<Snapshot>, ghost outs: seq<Fate>,
                     ghost lives0: int, ghost money0: int, ghost over0: bool, ghost sounds0: seq<Track>, ghost started0: bool)
      requires i < |all| && Distinct(all) && |olds| == |all| == |moves| && outs == Outcomes(all, olds, moves)
      requires Swept(i + 1, all, olds, outs, moves, lives0, money0, over0, sounds0, started0)
      modifies this`enemies, this`lives, this`money, this`gameOver
      modifies audio`sounds, audio`hasStartedAudio, all[i]
      ensures Swept(i, all, olds, outs, moves, lives0, money0, over0, sounds0, started0)
    {
      ghost var before := enemies;
      assert outs[i..] == [outs[i]] + outs[i + 1..];
      SettleKept(i, moves, all, olds, outs, lives0, money0, over0, sounds0, started0);
      RemainingCons(all, i, outs[i + 1..], outs[i]);
      CutStep(all, i, Remaining(all[i + 1..], outs[i + 1..]), before);
    }

    /** The enemy at index i settled, with the other enemies of the pass as they were. */
    method SettleKept(i: nat, moves: seq<Move>, ghost all: seq<Enemy>, ghost olds: seq<Snapshot>, ghost outs: seq<Fate>,
                      ghost lives0: int, ghost money0: int, ghost over0: bool, ghost sounds0: seq<Track>, ghost started0: bool)
      requires i < |all| && Distinct(all) && |olds| == |all| == |moves| && outs == Outcomes(all, olds, moves)
      requires Swept(i + 1, all, olds, outs, moves, lives0, money0, over0, sounds0, started0)
      modifies this`enemies, this`lives, this`money, this`gameOver
      modifies audio`sounds, audio`hasStartedAudio, all[i]
      ensures Scored([outs[i]] + outs[i + 1..], lives0, money0, over0, sounds0, started0)
      ensures forall k :: 0 <= k < i ==> all[k].Snap() == olds[k]
      ensures forall k :: i <= k < |all| ==> all[k].Snap() == Stepped(|all[k].path|, olds[k], moves[k].0, moves[k].1)
      ensures outs[i].0 || outs[i].1 ==> enemies == old(enemies)[..i] + old(enemies)[i + 1..]
      ensures !(outs[i].0 || outs[i].1) ==> enemies == old(enemies)
    {
      assert enemies[i] == all[i];
      assert outs[i..] == [outs[i]] + outs[i + 1..];
      label step:
      SettleScored(i, moves[i], outs[i + 1..], outs[i], lives0, money0, over0, sounds0, started0);
      forall k | 0 <= k < |all| && k != i
        ensures all[k].Snap() == old@step(all[k].Snap())
      {
        assert all[k] != all[i];
      }
    }

    /** The enemy at index i settled, with the score carried from the fates after it to its own fate `f` and those. */
    method SettleScored(i: nat, m: Move, ghost fates: seq<Fate>, ghost f: Fate,
                        ghost lives0: int, ghost money0: int, ghost over0: bool, ghost sounds0: seq<Track>, ghost started0: bool)
      requires i < |enemies| && Scored(fates, lives0, money0, over0, sounds0, started0)
      requires f == (Stepped(|enemies[i].path|, enemies[i].Snap(), m.0, m.1).reachedEnd,
                     Stepped(|enemies[i].path|, enemies[i].Snap(), m.0, m.1).isDead)
      modifies this`enemies, this`lives, this`money, this`gameOver
      modifies audio`sounds, audio`hasStartedAudio, enemies[i]
      ensures Scored([f] + fates, lives0, money0, over0, sounds0, started0)
      ensures Moved(old(enemies)[i], m)
      ensures f.0 || f.1 ==> enemies == old(enemies)[..i] + old(enemies)[i + 1..]
      ensures !(f.0 || f.1) ==> enemies == old(enemies)
    {
      Settle(i, m);
      assert f == (old(enemies)[i].reachedEnd, old(enemies)[i].isDead);
      assert ([f] + fates)[1..] == fates;
    }

    /**
     * The step of the pass for the enemy at index i: updated with its
     * report; then, at the end, a life lost and the enemy cut out, with the
     * game over and the audio reset the first time lives run out; or, dead,
     * the bounty paid and the enemy cut out; otherwise it stays.
     */
    method Settle(i: nat, m: Move)
      requires i < |enemies| && audio.Valid()
      modifies this`enemies, this`lives, this`money, this`gameOver
      modifies audio`sounds, audio`hasStartedAudio, enemies[i]
      ensures audio.Valid()
      ensures Moved(old(enemies)[i], m)
      ensures old(enemies)[i].reachedEnd || old(enemies)[i].isDead ==>
        enemies == old(enemies)[..i] + old(enemies)[i + 1..]
      ensures !(old(enemies)[i].reachedEnd || old(enemies)[i].isDead) ==> enemies == old(enemies)
      ensures lives == old(lives) - if old(enemies)[i].reachedEnd then 1 else 0
      ensures money == old(money) + if !old(enemies)[i].reachedEnd && old(enemies)[i].isDead then 25 else 0
      ensures gameOver == (old(gameOver) || (old(enemies)[i].reachedEnd && lives <= 0))
      ensures gameOver && !old(gameOver) && audio.loaded ==>
        !audio.hasStartedAudio && audio.sounds == ResetTracks(old(audio.sounds))
      ensures !(gameOver && !old(gameOver)) ==>
        audio.hasStartedAudio == old(audio.hasStartedAudio) && audio.sounds == old(audio.sounds)
      ensures !audio.loaded ==> audio.hasStartedAudio == old(audio.hasStartedAudio) && audio.sounds == old(audio.sounds)
      ensures audio.loaded == old(audio.loaded)
    {
      var enemy := enemies[i];
      enemy.Update(m.0, m.1);
      if enemy.reachedEnd {
        lives := lives - 1;
        enemies := enemies[..i] + enemies[i + 1..];
        if lives <= 0 && !gameOver {
          gameOver := true;
          audio.OnGameOver();
        }
      } else if enemy.isDead {
        money := money + 25;
        enemies := enemies[..i] + enemies[i + 1..];
      }
    }

    /**
     * Every tower, in order, takes its update against the enemies on the
     * board. Afterwards each has its division, its damage scaled once, the
     * search's target and readiness exactly with a target; the registry is
     * the one before with each tower that had no division registered, in
     * order, under its id.
     */
    method UpdateTowers()
      requires Valid()
      modifies towers`beatDivision, towers`damage, towers`target, towers`readyToFire, towers`active
      modifies audio`beatCallbacks
      ensures Valid()
      ensures forall i :: 0 <= i < |towers| ==>
        Tuned(towers[i], enemies, Cells(enemies), old(Pending(towers))[i], old(Damages(towers))[i])
      ensures audio.beatCallbacks == RegisterUpTo(old(audio.beatCallbacks), towers, old(Pending(towers)), |towers|)
    {
      ghost var pending := Pending(towers);
      ghost var dmgs := Damages(towers);
      ghost var table0 := audio.beatCallbacks;
      ghost var cells := Cells(enemies);
      ghost var ts, placed := towers, Placed;
      DistinctIds(towers);
      assert forall k :: 0 <= k < |ts| && !pending[k] ==>
        RegisteredAt(table0, DivisionForTowerType(ts[k].towerType), ts[k].id, ts[k]);
      TunePass(pending, dmgs, table0, cells, ts, placed);
    }

    /**
     * The tower pass up to index i, against the flags `pending`, damages
     * `dmgs` and registry `table0` it started from: the towers valid, the
     * ones before i updated, those from i on as they were, and the registry
     * the pass's over the first i.
     */
    ghost predicate Tuning(i: nat, pending: seq<bool>, dmgs: seq<real>, table0: Table<Tower>, cells: seq<Cell>)
      reads this, audio, Placed, towers, enemies
    {
      i <= |towers| == |pending| == |dmgs| && Complete(table0) && UniqueIds(towers) && cells == Cells(enemies) &&
      TowersValid() && EnemiesValid() && audio.Valid() &&
      TunedBelow(towers, enemies, cells, pending, dmgs, i) && Untouched(towers, pending, dmgs, i) &&
      audio.beatCallbacks == RegisterUpTo(table0, towers, pending, i)
    }

    /** At the end of the pass the registry is valid again: every listener placed, every tower registered. */
    lemma PassRegistry(pending: seq<bool>, dmgs: seq<real>, table0: Table<Tower>, cells: seq<Cell>, ts: seq<Tower>, placed: set<Tower>)
      requires Tuning(|towers|, pending, dmgs, table0, cells) && ts == towers && placed == Placed
      requires Listeners(table0) <= placed
      requires forall k :: 0 <= k < |ts| && !pending[k] ==>
        RegisteredAt(table0, DivisionForTowerType(ts[k].towerType), ts[k].id, ts[k])
      requires (selectedTowerType.Some? ==> selectedTowerType.value in Config.TOWER_TYPES) && wave >= 0
      ensures Valid()
      ensures forall i :: 0 <= i < |towers| ==> Tuned(towers[i], enemies, cells, pending[i], dmgs[i])
    {
      assert AllRegistered(towers, audio.beatCallbacks) by {
        forall k | 0 <= k < |towers| && towers[k].beatDivision.Some?
          ensures RegisteredAt(audio.beatCallbacks, towers[k].beatDivision.value, towers[k].id, towers[k])
        {
          assert Tuned(towers[k], enemies, cells, pending[k], dmgs[k]);
          RegisterUpToRegisters(table0, towers, pending, |towers|, k);
        }
      }
      assert Listeners(audio.beatCallbacks) <= Placed by {
        RegisterUpToListeners(table0, towers, pending, |towers|);
        assert (set x | x in towers) <= Placed;
      }
    }

    /**
     * The loop of the tower pass: every tower, in order, takes its turn;
     * then the game is valid again, from the registry `table0` whose
     * listeners were placed and which held the towers that had a division.
     */
    method TunePass(ghost pending: seq<bool>, ghost dmgs: seq<real>, ghost table0: Table<Tower>, ghost cells: seq<Cell>,
                    ghost ts: seq<Tower>, ghost placed: set<Tower>)
      requires Tuning(0, pending, dmgs, table0, cells) && ts == towers && placed == Placed
      requires Listeners(table0) <= placed
      requires forall k :: 0 <= k < |ts| && !pending[k] ==>
        RegisteredAt(table0, DivisionForTowerType(ts[k].towerType), ts[k].id, ts[k])
      requires (selectedTowerType.Some? ==> selectedTowerType.value in Config.TOWER_TYPES) && wave >= 0
      modifies towers`beatDivision, towers`damage, towers`target, towers`readyToFire, towers`active
      modifies audio`beatCallbacks
      ensures Valid()
      ensures forall i :: 0 <= i < |towers| ==> Tuned(towers[i], enemies, cells, pending[i], dmgs[i])
      ensures audio.beatCallbacks == RegisterUpTo(table0, towers, pending, |towers|) && cells == Cells(enemies)
    {
      TuneLoop(pending, dmgs, table0, cells);
      PassRegistry(pending, dmgs, table0, cells, ts, placed);
    }

    /** Every tower, in order, takes its turn: the pass carried from 0 to the end. */
    method TuneLoop(ghost pending: seq<bool>, ghost dmgs: seq<real>, ghost table0: Table<Tower>, ghost cells: seq<Cell>)
      requires Tuning(0, pending, dmgs, table0, cells)
      modifies towers`beatDivision, towers`damage, towers`target, towers`readyToFire, towers`active
      modifies audio`beatCallbacks
      ensures Tuning(|towers|, pending, dmgs, table0, cells)
    {
      var i := 0;
      while i < |towers|
        invariant Tuning(i, pending, dmgs, table0, cells)
        decreases |towers| - i
      {
        TuneStep(i, pending, dmgs, table0, cells);
        i := i + 1;
      }
    }

    /** One turn of the tower pass: tower i updated, the pass carried from i to i + 1. */
    method TuneStep(i: nat, ghost pending: seq<bool>, ghost dmgs: seq<real>, ghost table0: Table<Tower>, ghost cells: seq<Cell>)
      requires i < |towers| && Tuning(i, pending, dmgs, table0, cells)
      modifies {towers[i]}`beatDivision, {towers[i]}`damage, {towers[i]}`target, {towers[i]}`readyToFire, {towers[i]}`active
      modifies audio`beatCallbacks
      ensures Tuning(i + 1, pending, dmgs, table0, cells)
    {
      var t := towers[i];
      assert t in Placed;
      assert forall j :: 0 <= j < |towers| && j != i ==> towers[j] != t by {
        forall j | 0 <= j < |towers| && j != i
          ensures towers[j] != t
        {
          assert towers[j].id != t.id;
        }
      }
      TuneCarry(i, pending, dmgs, table0, cells);
      assert forall j :: 0 <= j < |towers| ==> towers[j] in Placed && towers[j].Valid();
      forall u | u in Placed
        ensures u.target == null || u.target in Foes
      {
        if u == t && t.target != null {
          assert t.target in enemies;
        }
      }
    }

    /** Tower i's update, with the towers before it kept tuned and those after it untouched. */
    method TuneCarry(i: nat, ghost pending: seq<bool>, ghost dmgs: seq<real>, ghost table0: Table<Tower>, ghost cells: seq<Cell>)
      requires i < |towers| == |pending| == |dmgs| && Complete(table0) && UniqueIds(towers) && cells == Cells(enemies)
      requires towers[i].Valid() && audio.Valid()
      requires TunedBelow(towers, enemies, cells, pending, dmgs, i) && Untouched(towers, pending, dmgs, i)
      requires audio.beatCallbacks == RegisterUpTo(table0, towers, pending, i)
      modifies {towers[i]}`beatDivision, {towers[i]}`damage, {towers[i]}`target, {towers[i]}`readyToFire, {towers[i]}`active
      modifies audio`beatCallbacks
      ensures towers[i].Valid() && audio.Valid() && cells == Cells(enemies)
      ensures towers[i].target == null || towers[i].target in enemies
      ensures TunedBelow(towers, enemies, cells, pending, dmgs, i + 1) && Untouched(towers, pending, dmgs, i + 1)
      ensures audio.beatCallbacks == RegisterUpTo(table0, towers, pending, i + 1)
    {
      var t := towers[i];
      forall j | 0 <= j < |towers| && j != i
        ensures towers[j] != t
      {
        assert towers[j].id != t.id;
      }
      label pre:
      TuneTower(i, pending, dmgs, table0, cells);
      forall j | 0 <= j < i
        ensures Tuned(towers[j], enemies, cells, pending[j], dmgs[j])
      {
        assert old@pre(Tuned(towers[j], enemies, cells, pending[j], dmgs[j]));
      }
      forall j | i + 1 <= j < |towers|
        ensures towers[j].beatDivision.None? == pending[j] && towers[j].damage == dmgs[j]
      {
        assert old@pre(towers[j].beatDivision.None? == pending[j] && towers[j].damage == dmgs[j]);
      }
    }

    /** Tower i's update on its own: tuned, still valid, aiming at an enemy or at nothing, and registered if it was pending. */
    method TuneTower(i: nat, ghost pending: seq<bool>, ghost dmgs: seq<real>, ghost table0: Table<Tower>, ghost cells: seq<Cell>)
      requires i < |towers| <= |pending| && |towers| <= |dmgs| && Complete(table0) && cells == Cells(enemies)
      requires towers[i].Valid() && audio.Valid()
      requires towers[i].beatDivision.None? == pending[i] && towers[i].damage == dmgs[i]
      requires audio.beatCallbacks == RegisterUpTo(table0, towers, pending, i)
      modifies {towers[i]}`beatDivision, {towers[i]}`damage, {towers[i]}`target, {towers[i]}`readyToFire, {towers[i]}`active
      modifies audio`beatCallbacks
      ensures towers[i].Valid() && audio.Valid() && cells == Cells(enemies)
      ensures Tuned(towers[i], enemies, cells, pending[i], dmgs[i])
      ensures towers[i].target == null || towers[i].target in enemies
      ensures audio.beatCallbacks == RegisterUpTo(table0, towers, pending, i + 1)
    {
      var t := towers[i];
      t.Update(enemies, audio);
      assert t.beatDivision == Some(DivisionForTowerType(t.towerType));
      assert (pending[i] ==> t.damage == t.baseDamage * DamageMultiplier(DivisionForTowerType(t.towerType)));
      assert (!pending[i] ==> t.damage == dmgs[i]);
      assert (exists k :: -1 <= k < |enemies| && Choice(t.x, t.y, t.range, cells, k) && t.target == Pick(enemies, k));
      assert t.readyToFire == t.active == (t.target != null);
      assert Tuned(t, enemies, cells, pending[i], dmgs[i]);
    }

    /** Pausing flips; two toggles restore the flag. */
    method TogglePause()
      modifies this`paused
      ensures paused == !old(paused)
    {
      paused := !paused;
    }

    /**
     * Back to the starting state: no towers, enemies or schedule, no
     * selection, starting money and lives, wave 0, not over or paused, and
     * the audio reset. The dropped towers are not unregistered: every one of
     * them that had registered stays registered, and keeps being called on
     * its beat.
     */
    method ResetGame()
      requires Valid()
      modifies this`towers, this`enemies, this`scheduledEnemies, this`selectedTowerType
      modifies this`money, this`lives, this`wave, this`gameOver, this`paused
      modifies audio`sounds, audio`hasStartedAudio
      ensures Valid()
      ensures towers == [] && enemies == [] && scheduledEnemies == [] && selectedTowerType.None?
      ensures money == Config.STARTING_MONEY && lives == Config.STARTING_LIVES && wave == 0
      ensures !gameOver && !paused
      ensures audio.loaded ==> !audio.hasStartedAudio && audio.sounds == ResetTracks(old(audio.sounds))
      ensures !audio.loaded ==> audio.sounds == old(audio.sounds) && audio.hasStartedAudio == old(audio.hasStartedAudio)
      ensures audio.beatCallbacks == old(audio.beatCallbacks)
      ensures AllRegistered(old(towers), audio.beatCallbacks)
    {
      ResetAudio();
      ClearBoard();
      ResetScore();
    }

    /** The audio's part of a reset: tracks stopped, the registry as it was. */
    method ResetAudio()
      requires Valid()
      modifies audio`sounds, audio`hasStartedAudio
      ensures Valid()
      ensures audio.loaded ==> !audio.hasStartedAudio && audio.sounds == ResetTracks(old(audio.sounds))
      ensures !audio.loaded ==> audio.sounds == old(audio.sounds) && audio.hasStartedAudio == old(audio.hasStartedAudio)
      ensures audio.beatCallbacks == old(audio.beatCallbacks)
      ensures AllRegistered(towers, audio.beatCallbacks)
    {
      audio.Reset();
      assert AllRegistered(towers, audio.beatCallbacks);
    }

    /** The purse's and the flags' part of a reset. */
    method ResetScore()
      modifies this`money, this`lives, this`wave, this`gameOver, this`paused
      ensures money == Config.STARTING_MONEY && lives == Config.STARTING_LIVES && wave == 0
      ensures !gameOver && !paused
    {
      money := Config.STARTING_MONEY;
      lives := Config.STARTING_LIVES;
      wave := 0;
      gameOver := false;
      paused := false;
    }

    /** The pieces' part of a reset: no towers, enemies, schedule or selection. */
    method ClearBoard()
      requires Valid()
      modifies this`towers, this`enemies, this`scheduledEnemies, this`selectedTowerType
      ensures Valid()
      ensures towers == [] && enemies == [] && scheduledEnemies == [] && selectedTowerType.None?
    {
      towers := [];
      enemies := [];
      scheduledEnemies := [];
      selectedTowerType := None;
    }

    /** Starting a game: started, not over, then a reset. */
    method StartNewGame()
      requires Valid()
      modifies this`towers, this`enemies, this`scheduledEnemies, this`selectedTowerType
      modifies this`money, this`lives, this`wave, this`gameOver, this`paused, this`gameStarted
      modifies audio`sounds, audio`hasStartedAudio
      ensures Valid() && gameStarted && !gameOver
      ensures towers == [] && enemies == [] && scheduledEnemies == [] && wave == 0
      ensures money == Config.STARTING_MONEY && lives == Config.STARTING_LIVES
    {
      gameStarted := true;
      gameOver := false;
      ResetGame();
    }

    /**
     * The next wave: the wave number goes up, the wave's enemies are
     * created, the first joins the board at once and the others replace the
     * schedule in order, and the spawn timer is set to half a second.
     */
    method StartNextWave()
      requires Valid()
      modifies this`wave, this`enemies, this`scheduledEnemies, this`enemySpawnTimer, this`Foes
      ensures Valid()
      ensures wave == old(wave) + 1 && enemySpawnTimer == 0.5
      ensures |enemies| == |old(enemies)| + 1 && enemies[..|old(enemies)|] == old(enemies)
      ensures 1 + |scheduledEnemies| == if wave % 5 == 0 then 4 + 2 * wave else 5 + 2 * wave
      ensures fresh(enemies[|old(enemies)|]) && Recruit(enemies[|old(enemies)|], Config.PATH)
      ensures forall i :: 0 <= i < |scheduledEnemies| ==> fresh(scheduledEnemies[i]) && Recruit(scheduledEnemies[i], Config.PATH)
      ensures wave % 5 == 0 ==>
        enemies[|old(enemies)|].isBoss && enemies[|old(enemies)|].speed == WaveSpeed(wave) * 0.7 &&
        enemies[|old(enemies)|].maxHealth == WaveHealth(wave) * 3.0
      ensures wave % 5 != 0 ==>
        !enemies[|old(enemies)|].isBoss && enemies[|old(enemies)|].speed == WaveSpeed(wave) &&
        enemies[|old(enemies)|].maxHealth == WaveHealth(wave)
      ensures forall i :: 0 <= i < |scheduledEnemies| ==>
        !scheduledEnemies[i].isBoss && scheduledEnemies[i].speed == WaveSpeed(wave) &&
        scheduledEnemies[i].maxHealth == WaveHealth(wave)
    {
      var next := wave + 1;
      var newEnemies := CreateEnemyWave(Config.PATH, next, 5 + next * 2, WaveHealth(next), WaveSpeed(next));
      GameWaveSize(next);
      Enlist(next, newEnemies);
    }

    /**
     * The bookkeeping of a new wave: its number, its first enemy on the
     * board, the others as the schedule, and the spawn timer at half a second.
     */
    method Enlist(next: int, newEnemies: seq<Enemy>)
      requires Valid() && next >= 0 && |newEnemies| > 0 && Distinct(newEnemies)
      requires forall i :: 0 <= i < |newEnemies| ==> newEnemies[i] !in Foes
      modifies this`wave, this`enemies, this`scheduledEnemies, this`enemySpawnTimer, this`Foes
      ensures Valid() && wave == next && enemySpawnTimer == 0.5
      ensures enemies == old(enemies) + [newEnemies[0]] && scheduledEnemies == newEnemies[1..]
    {
      ghost var known := Foes;
      Know(set e | e in newEnemies);
      RosterEnlist(enemies, scheduledEnemies, known, newEnemies);
      wave, enemies, scheduledEnemies, enemySpawnTimer := next, enemies + [newEnemies[0]], newEnemies[1..], 0.5;
    }

    /** More enemies become known; the game stays valid. */
    method Know(more: set<Enemy>)
      requires Valid()
      modifies this`Foes
      ensures Valid() && Foes == old(Foes) + more
    {
      Foes := Foes + more;
    }

    /**
     * Brings one enemy onto the board. A test enemy is a new one with speed
     * 2 and health 100. Otherwise the head of the schedule joins; with an
     * empty schedule during a wave a new enemy with the wave's base speed
     * and health joins; before the first wave nothing happens.
     */
    method SpawnEnemy(testEnemy: bool)
      requires Valid()
      modifies this`enemies, this`scheduledEnemies, this`Foes
      ensures Valid()
      ensures !testEnemy && |old(scheduledEnemies)| > 0 ==>
        enemies == old(enemies) + [old(scheduledEnemies)[0]] && scheduledEnemies == old(scheduledEnemies)[1..]
      ensures !testEnemy && |old(scheduledEnemies)| == 0 && wave == 0 ==> enemies == old(enemies)
      ensures testEnemy || |old(scheduledEnemies)| == 0 ==> scheduledEnemies == old(scheduledEnemies)
      ensures !testEnemy && (|old(scheduledEnemies)| > 0 || wave == 0) ==> Foes == old(Foes)
      ensures testEnemy || (|old(scheduledEnemies)| == 0 && wave > 0) ==>
        |enemies| == |old(enemies)| + 1 && enemies[..|old(enemies)|] == old(enemies) &&
        fresh(enemies[|old(enemies)|]) && Recruit(enemies[|old(enemies)|], Config.PATH) &&
        !enemies[|old(enemies)|].isBoss
      ensures testEnemy ==> enemies[|old(enemies)|].speed == 2.0 && enemies[|old(enemies)|].maxHealth == 100.0
      ensures !testEnemy && |old(scheduledEnemies)| == 0 && wave > 0 ==>
        enemies[|old(enemies)|].speed == WaveSpeed(wave) && enemies[|old(enemies)|].maxHealth == WaveHealth(wave)
    {
      if testEnemy {
        var enemy := new Enemy(Config.PATH, 2.0, 100.0);
        Join(enemy);
        return;
      }
      if |scheduledEnemies| > 0 {
        RosterShift(enemies, scheduledEnemies, Foes);
        var enemy := scheduledEnemies[0];
        scheduledEnemies := scheduledEnemies[1..];
        enemies := enemies + [enemy];
      } else if wave > 0 {
        var enemy := new Enemy(Config.PATH, WaveSpeed(wave), WaveHealth(wave));
        Join(enemy);
      }
    }

    /** A new enemy joins the end of the board's list. */
    method Join(enemy: Enemy)
      requires Valid() && enemy !in Foes
      modifies this`enemies, this`Foes
      ensures Valid()
      ensures enemies == old(enemies) + [enemy] && Foes == old(Foes) + {enemy}
    {
      RosterJoin(enemies, scheduledEnemies, Foes, enemy);
      enemies := enemies + [enemy];
      Foes := Foes + {enemy};
    }

    /**
     * The spawn part of a frame: the timer runs down by the elapsed time;
     * once it is out, during a wave and with enemies scheduled, the head of
     * the schedule joins the board and the timer restarts at half a second.
     */
    method SpawnTick(deltaTime: real)
      requires Valid()
      modifies this`enemySpawnTimer, this`enemies, this`scheduledEnemies, this`Foes
      ensures Valid() && Foes == old(Foes)
      ensures old(enemySpawnTimer) - deltaTime <= 0.0 && wave > 0 && |old(scheduledEnemies)| > 0 ==>
        enemies == old(enemies) + [old(scheduledEnemies)[0]] && scheduledEnemies == old(scheduledEnemies)[1..] &&
        enemySpawnTimer == 0.5
      ensures !(old(enemySpawnTimer) - deltaTime <= 0.0 && wave > 0 && |old(scheduledEnemies)| > 0) ==>
        enemies == old(enemies) && scheduledEnemies == old(scheduledEnemies) &&
        enemySpawnTimer == old(enemySpawnTimer) - deltaTime
    {
      var timer := enemySpawnTimer - deltaTime;
      if timer <= 0.0 && wave > 0 && |scheduledEnemies| > 0 {
        SpawnEnemy(false);
        timer := 0.5;
      }
      enemySpawnTimer := timer;
    }

    /**
     * One frame of play: the frame counter goes up; the spawn timer runs
     * down and may bring the next scheduled enemy on; every enemy takes
     * its move, as `move` reports it; every tower its update; then the
     * audio follows the towers' sound keys and the beat dispatcher's
     * invocations are made. Lives only fall, money only rises, and a game
     * that is over stays over.
     */
    method Update(deltaTime: real, move: Enemy -> Move, clock: AudioClock)
      requires Valid()
      modifies this`frameCounter, this`enemySpawnTimer, this`enemies, this`scheduledEnemies, this`Foes
      modifies this`lives, this`money, this`gameOver, Foes
      modifies Placed`beatDivision, Placed`damage, Placed`target, Placed`readyToFire, Placed`active
      modifies audio`sounds, audio`hasStartedAudio, audio`beatCallbacks, audio`startTime, audio`lastProcessedBeatTime
      ensures Valid()
      ensures frameCounter == old(frameCounter) + 1
      ensures enemySpawnTimer == if old(enemySpawnTimer) - deltaTime <= 0.0 && wave > 0 && |old(scheduledEnemies)| > 0
                                 then 0.5 else old(enemySpawnTimer) - deltaTime
      ensures lives <= old(lives) && money >= old(money) && (old(gameOver) ==> gameOver)
    {
      frameCounter := frameCounter + 1;
      Muster(deltaTime, move);
      var calls := Play(clock);
    }

    /** The enemy part of a frame: the spawn timer, then the enemy pass; the towers and the registry are not touched. */
    method Muster(deltaTime: real, move: Enemy -> Move)
      requires Valid()
      modifies this`enemySpawnTimer, this`enemies, this`scheduledEnemies, this`Foes
      modifies this`lives, this`money, this`gameOver, Foes
      modifies audio`sounds, audio`hasStartedAudio
      ensures Valid()
      ensures enemySpawnTimer == if old(enemySpawnTimer) - deltaTime <= 0.0 && wave > 0 && |old(scheduledEnemies)| > 0
                                 then 0.5 else old(enemySpawnTimer) - deltaTime
      ensures Foes == old(Foes)
      ensures lives <= old(lives) && money >= old(money) && (old(gameOver) ==> gameOver)
    {
      SpawnTick(deltaTime);
      MoveEnemies(move);
    }

    /**
     * The tower pass of a frame, then its audio part: the registry gains
     * the still-unregistered towers, the tracks follow the towers' sound
     * keys, and the invocations are the tick's on the new registry.
     */
    method Play(clock: AudioClock) returns (calls: seq<Invocation<Tower>>)
      requires Valid()
      modifies Placed`beatDivision, Placed`damage, Placed`target, Placed`readyToFire, Placed`active, Foes`health, Foes`isDead
      modifies audio`sounds, audio`hasStartedAudio, audio`beatCallbacks, audio`startTime, audio`lastProcessedBeatTime
      ensures Valid()
      ensures audio.beatCallbacks == RegisterUpTo(old(audio.beatCallbacks), towers, old(Pending(towers)), |towers|)
      ensures !audio.loaded ==> audio.sounds == old(audio.sounds) && audio.hasStartedAudio == old(audio.hasStartedAudio)
      ensures audio.loaded ==> audio.hasStartedAudio == (old(audio.hasStartedAudio) || |towers| > 0)
      ensures audio.loaded && !audio.hasStartedAudio ==> audio.sounds == old(audio.sounds)
      ensures audio.loaded && audio.hasStartedAudio ==>
        audio.sounds == GainUpdate(
          if !old(audio.hasStartedAudio) && !AllMusicPlaying(old(audio.sounds)) && clock.state != Suspended
          then StartedTracks(old(audio.sounds)) else old(audio.sounds),
          ActiveKeys(SoundKeys(towers)))
      ensures Ticked(audio.loaded && audio.hasStartedAudio, clock, audio.beatCallbacks,
                     old(audio.startTime), old(audio.lastProcessedBeatTime), audio.startTime, audio.lastProcessedBeatTime, calls)
    {
      UpdateTowers();
      calls := Beat(clock);
    }

    /**
     * The audio part of a frame: the tracks follow the towers' sound keys
     * and the dispatcher ticks and its invocations are made, as `AudioFrame`
     * says. The registry stays as it is.
     */
    method Beat(clock: AudioClock) returns (calls: seq<Invocation<Tower>>)
      requires Valid()
      modifies Placed`readyToFire, Placed`active, Foes`health, Foes`isDead
      modifies audio`sounds, audio`hasStartedAudio, audio`startTime, audio`lastProcessedBeatTime
      ensures Valid() && audio.beatCallbacks == old(audio.beatCallbacks)
      ensures !audio.loaded ==> audio.sounds == old(audio.sounds) && audio.hasStartedAudio == old(audio.hasStartedAudio)
      ensures audio.loaded ==> audio.hasStartedAudio == (old(audio.hasStartedAudio) || |towers| > 0)
      ensures audio.loaded && !audio.hasStartedAudio ==> audio.sounds == old(audio.sounds)
      ensures audio.loaded && audio.hasStartedAudio ==>
        audio.sounds == GainUpdate(
          if !old(audio.hasStartedAudio) && !AllMusicPlaying(old(audio.sounds)) && clock.state != Suspended
          then StartedTracks(old(audio.sounds)) else old(audio.sounds),
          ActiveKeys(SoundKeys(towers)))
      ensures Ticked(audio.loaded && audio.hasStartedAudio, clock, audio.beatCallbacks,
                     old(audio.startTime), old(audio.lastProcessedBeatTime), audio.startTime, audio.lastProcessedBeatTime, calls)
      ensures forall u :: u in Placed ==>
        u.readyToFire == (old(u.readyToFire) && !(u.target != null && u in Called(calls))) &&
        u.active == (old(u.active) || (u in old(ReadyOf(Placed)) && u in Called(calls)))
      ensures forall e :: e in Foes ==>
        (e.health, e.isDead) == Struck(calls, old(ReadyOf(Placed)), Aims(calls), e, old(e.health), old(e.isDead), |calls|)
    {
      ghost var tv, rv := TowersValid(), RegistryValid();
      calls := AudioFrame(audio, SoundKeys(towers), clock, Placed, Foes);
      assert tv && rv;
    }

    /** The enemy pass of a frame, each enemy on the board taking the move `move` reports for it. */
    method MoveEnemies(move: Enemy -> Move)
      requires Valid()
      modifies this`enemies, this`lives, this`money, this`gameOver, Foes
      modifies audio`sounds, audio`hasStartedAudio
      ensures Valid()
      ensures lives <= old(lives) && money >= old(money) && (old(gameOver) ==> gameOver)
    {
      var es := enemies;
      var moves := seq(|es|, k requires 0 <= k < |es| => move(es[k]));
      UpdateEnemies(moves);
    }

    /**
     * The animation callback at clock reading `timestamp`, in milliseconds:
     * the elapsed time in seconds since the previous reading, and a frame
     * of play only once the game is started and while it is neither over
     * nor paused; otherwise only the reading is kept.
     */
    method Frame(timestamp: real, move: Enemy -> Move, clock: AudioClock)
      requires Valid()
      modifies this`lastFrameTime, this`frameCounter, this`enemySpawnTimer, this`enemies, this`scheduledEnemies
      modifies this`Foes, this`lives, this`money, this`gameOver, Foes
      modifies Placed`beatDivision, Placed`damage, Placed`target, Placed`readyToFire, Placed`active
      modifies audio`sounds, audio`hasStartedAudio, audio`beatCallbacks, audio`startTime, audio`lastProcessedBeatTime
      ensures Valid() && lastFrameTime == timestamp
      ensures gameStarted && !old(gameOver) && !paused ==>
        frameCounter == old(frameCounter) + 1 &&
        var deltaTime := (timestamp - old(lastFrameTime)) / 1000.0;
        enemySpawnTimer == if old(enemySpawnTimer) - deltaTime <= 0.0 && wave > 0 && |old(scheduledEnemies)| > 0
                           then 0.5 else old(enemySpawnTimer) - deltaTime
      ensures !(gameStarted && !old(gameOver) && !paused) ==>
        frameCounter == old(frameCounter) && enemySpawnTimer == old(enemySpawnTimer) &&
        enemies == old(enemies) && lives == old(lives) && money == old(money) && gameOver == old(gameOver) &&
        audio.beatCallbacks == old(audio.beatCallbacks)
      ensures !(gameStarted && !old(gameOver) && !paused) ==>
        scheduledEnemies == old(scheduledEnemies) && towers == old(towers) && Foes == old(Foes) &&
        audio.sounds == old(audio.sounds) && audio.hasStartedAudio == old(audio.hasStartedAudio) &&
        audio.startTime == old(audio.startTime) && audio.lastProcessedBeatTime == old(audio.lastProcessedBeatTime) &&
        unchanged(Placed) && unchanged(Foes)
    {
      var deltaTime := Stamp(timestamp);
      if gameStarted && !gameOver && !paused {
        Update(deltaTime, move, clock);
      }
    }

    /** The frame's clock: the seconds since the last frame, and the new frame's time kept. */
    method Stamp(timestamp: real) returns (deltaTime: real)
      requires Valid()
      modifies this`lastFrameTime
      ensures Valid() && lastFrameTime == timestamp
      ensures deltaTime == (timestamp - old(lastFrameTime)) / 1000.0
    {
      deltaTime := (timestamp - lastFrameTime) / 1000.0;
      lastFrameTime := timestamp;
    }
  }

  /**
   * The dispatch after k invocations, from the readiness `r0`, the flags
   * `a0` and the health and dead flags `h0` it began with: the towers that
   * were called are spent, those of `ready` among them active, and every
   * enemy as `Struck` makes it.
   */
  ghost predicate Dispatched(calls: seq<Invocation<Tower>>, k: nat, placed: set<Tower>, foes: set<Enemy>,
                             ready: set<Tower>, aims: seq<(Enemy?, real)>,
                             r0: map<Tower, bool>, a0: map<Tower, bool>, h0: map<Enemy, (real, bool)>)
    reads placed, foes
  {
    k <= |calls| == |aims| &&
    (forall u :: u in placed ==>
      u in r0 && u in a0 &&
      u.readyToFire == (r0[u] && !(u.target != null && u in Callers(calls, k))) &&
      u.active == (a0[u] || (u in ready && u in Callers(calls, k)))) &&
    (forall e :: e in foes ==>
      e in h0 && (e.health, e.isDead) == Struck(calls, ready, aims, e, h0[e].0, h0[e].1, k))
  }

  /** The state of the towers and enemies a dispatch begins from, as values. */
  ghost predicate Begun(calls: seq<Invocation<Tower>>, placed: set<Tower>, foes: set<Enemy>,
                        ready: set<Tower>, aims: seq<(Enemy?, real)>, r0: map<Tower, bool>)
    reads placed
  {
    (forall k :: 0 <= k < |calls| ==> calls[k].callback in placed) &&
    (forall u :: u in placed && u.target != null ==> u.target in foes) &&
    (forall u :: u in placed ==> u in r0 && (u in ready <==> r0[u] && u.target != null)) &&
    |aims| == |calls| &&
    (forall k :: 0 <= k < |calls| ==>
      aims[k] == (calls[k].callback.target, calls[k].callback.damage * ShotMultiplier(calls[k].callback.towerType, calls[k].index)))
  }

  /**
   * The audio manager's part of a frame: the tracks follow `soundKeys` as
   * `Audio.AudioManager.Update` says; then one tick of the dispatcher and
   * its invocations, as `TickAndDispatch` says.
   */
  method AudioFrame(audio: AudioManager<Tower>, soundKeys: seq<string>, clock: AudioClock,
                    ghost placed: set<Tower>, ghost foes: set<Enemy>) returns (calls: seq<Invocation<Tower>>)
    requires audio.Valid() && Listeners(audio.beatCallbacks) <= placed
    requires forall u :: u in placed && u.target != null ==> u.target in foes
    modifies audio`sounds, audio`hasStartedAudio, audio`startTime, audio`lastProcessedBeatTime
    modifies placed`active, placed`readyToFire, foes`health, foes`isDead
    ensures audio.Valid() && audio.beatCallbacks == old(audio.beatCallbacks)
    ensures !audio.loaded ==> audio.sounds == old(audio.sounds) && audio.hasStartedAudio == old(audio.hasStartedAudio)
    ensures audio.loaded ==> audio.hasStartedAudio == (old(audio.hasStartedAudio) || |soundKeys| > 0)
    ensures audio.loaded && !audio.hasStartedAudio ==> audio.sounds == old(audio.sounds)
    ensures audio.loaded && audio.hasStartedAudio ==>
      audio.sounds == GainUpdate(
        if !old(audio.hasStartedAudio) && !AllMusicPlaying(old(audio.sounds)) && clock.state != Suspended
        then StartedTracks(old(audio.sounds)) else old(audio.sounds),
        ActiveKeys(soundKeys))
    ensures Ticked(audio.loaded && audio.hasStartedAudio, clock, audio.beatCallbacks,
                   old(audio.startTime), old(audio.lastProcessedBeatTime), audio.startTime, audio.lastProcessedBeatTime, calls)
    ensures forall u :: u in placed ==>
      u.readyToFire == (old(u.readyToFire) && !(u.target != null && u in Called(calls))) &&
      u.active == (old(u.active) || (u in old(ReadyOf(placed)) && u in Called(calls)))
    ensures forall e :: e in foes ==>
      (e.health, e.isDead) == Struck(calls, old(ReadyOf(placed)), Aims(calls), e, old(e.health), old(e.isDead), |calls|)
  {
    var deferred := audio.Update(soundKeys, clock);
    assert ReadyOf(placed) == old(ReadyOf(placed));
    calls := TickAndDispatch(audio, clock, placed, foes);
  }

  /**
   * One tick of the dispatcher of `audio` at `clock`, as `Ticked` says,
   * and its invocations made in order, as `Dispatch` says: a tower that was
   * ready with a target shoots once and is then spent, and each enemy's
   * health and dead flag are what `Struck` accumulates from the shots at it.
   */
  method TickAndDispatch(audio: AudioManager<Tower>, clock: AudioClock, ghost placed: set<Tower>, ghost foes: set<Enemy>)
    returns (calls: seq<Invocation<Tower>>)
    requires audio.Valid() && Listeners(audio.beatCallbacks) <= placed
    requires forall u :: u in placed && u.target != null ==> u.target in foes
    modifies audio`startTime, audio`lastProcessedBeatTime, placed`active, placed`readyToFire, foes`health, foes`isDead
    ensures audio.Valid()
    ensures Ticked(audio.loaded && audio.hasStartedAudio, clock, audio.beatCallbacks,
                   old(audio.startTime), old(audio.lastProcessedBeatTime), audio.startTime, audio.lastProcessedBeatTime, calls)
    ensures forall u :: u in placed ==>
      u.readyToFire == (old(u.readyToFire) && !(u.target != null && u in Called(calls))) &&
      u.active == (old(u.active) || (u in old(ReadyOf(placed)) && u in Called(calls)))
    ensures forall e :: e in foes ==>
      (e.health, e.isDead) == Struck(calls, old(ReadyOf(placed)), Aims(calls), e, old(e.health), old(e.isDead), |calls|)
  {
    calls := audio.ProcessBeatCallbacks(clock);
    assert ReadyOf(placed) == old(ReadyOf(placed));
    Dispatch(calls, placed, foes);
  }

  /**
   * The invocations of a tick, made in order: each calls its tower's beat
   * handler with its step count. A tower that was ready with a target
   * shoots at its first invocation and is then spent; its target takes the
   * damage as `Struck` accumulates it. Towers that were not ready, or had
   * no target, do nothing.
   */
  method Dispatch(calls: seq<Invocation<Tower>>, ghost placed: set<Tower>, ghost foes: set<Enemy>)
    requires forall k :: 0 <= k < |calls| ==> calls[k].callback in placed
    requires forall u :: u in placed && u.target != null ==> u.target in foes
    modifies placed`active, placed`readyToFire, foes`health, foes`isDead
    ensures forall u :: u in placed ==>
      u.readyToFire == (old(u.readyToFire) && !(u.target != null && u in Called(calls))) &&
      u.active == (old(u.active) || (u in old(ReadyOf(placed)) && u in Called(calls)))
    ensures forall e :: e in foes ==>
      (e.health, e.isDead) == Struck(calls, old(ReadyOf(placed)), Aims(calls), e, old(e.health), old(e.isDead), |calls|)
  {
    ghost var ready, aims := ReadyOf(placed), Aims(calls);
    ghost var r0 := map u | u in placed :: u.readyToFire;
    ghost var a0 := map u | u in placed :: u.active;
    ghost var h0 := map e | e in foes :: (e.health, e.isDead);
    assert Begun(calls, placed, foes, ready, aims, r0);
    for k := 0 to |calls|
      invariant Begun(calls, placed, foes, ready, aims, r0)
      invariant Dispatched(calls, k, placed, foes, ready, aims, r0, a0, h0)
    {
      DispatchStep(calls, k, placed, foes, ready, aims, r0, a0, h0);
    }
    assert Callers(calls, |calls|) == Called(calls);
    assert aims == Aims(calls);
  }

  /** Invocation k: its tower's beat handler runs, and the dispatch moves from k to k + 1. */
  method DispatchStep(calls: seq<Invocation<Tower>>, k: nat, ghost placed: set<Tower>, ghost foes: set<Enemy>,
                      ghost ready: set<Tower>, ghost aims: seq<(Enemy?, real)>,
                      ghost r0: map<Tower, bool>, ghost a0: map<Tower, bool>, ghost h0: map<Enemy, (real, bool)>)
    requires k < |calls| && Begun(calls, placed, foes, ready, aims, r0)
    requires Dispatched(calls, k, placed, foes, ready, aims, r0, a0, h0)
    modifies {calls[k].callback}`active, {calls[k].callback}`readyToFire, foes`health, foes`isDead
    ensures Begun(calls, placed, foes, ready, aims, r0)
    ensures Dispatched(calls, k + 1, placed, foes, ready, aims, r0, a0, h0)
  {
    var u := calls[k].callback;
    ghost var fire := Shoots(calls, ready, k);
    assert fire <==> u.readyToFire && u.target != null;
    ghost var aim := u.target;
    ghost var hit := aims[k].1;
    assert aims[k].0 == aim && hit == u.damage * ShotMultiplier(u.towerType, calls[k].index);
    label pre:
    u.OnBeat(calls[k].index);
    CallersStep(calls, k);
    forall t | t in placed
      ensures t.readyToFire == (r0[t] && !(t.target != null && t in Callers(calls, k + 1)))
      ensures t.active == (a0[t] || (t in ready && t in Callers(calls, k + 1)))
    {
      if t != u {
        assert t.readyToFire == old@pre(t.readyToFire) && t.active == old@pre(t.active);
      }
    }
    forall e | e in foes
      ensures (e.health, e.isDead) == Struck(calls, ready, aims, e, h0[e].0, h0[e].1, k + 1)
    {
      var s := Struck(calls, ready, aims, e, h0[e].0, h0[e].1, k);
      assert s == (old@pre(e.health), old@pre(e.isDead));
      if fire && e == aim {
        assert e.health == s.0 - hit;
      } else {
        assert e.health == s.0 && e.isDead == s.1;
      }
    }
  }

}
