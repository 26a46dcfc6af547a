/**
 * The game's rules on values: the board and placement, the roster of
 * enemies, and the bookkeeping of one pass over the enemies.
 */
module GameRules {

  import opened Options
  import opened BeatGrid
  import opened Registry
  import opened Tracks
  import opened Audio
  import opened Enemies
  import opened Towers
  import Config

  /** Some tower of `towers` stands on cell (x, y). */
  predicate Occupied(towers: seq<Tower>, x: int, y: int) {
    exists i :: 0 <= i < |towers| && towers[i].x == x && towers[i].y == y
  }

  /** The sound keys of the towers, in order (what the audio manager reads from them). */
  function SoundKeys(towers: seq<Tower>): (r: seq<string>)
    ensures |r| == |towers| && forall i :: 0 <= i < |towers| ==> r[i] == towers[i].soundKey
  {
    seq(|towers|, i requires 0 <= i < |towers| => towers[i].soundKey)
  }

  /** No object occurs twice. */
  ghost predicate Distinct<T>(s: seq<T>) {
    forall i, j :: 0 <= i < j < |s| ==> s[i] != s[j]
  }

  /** Whether a placement at (x, y) with the given selection and money is accepted. */
  predicate CanPlace(towers: seq<Tower>, selected: Option<string>, money: int, x: int, y: int)
  {
    selected.Some? && selected.value in Config.TOWER_TYPES &&
    Config.InBounds(x, y) && !Config.OnPath(x, y) && !Occupied(towers, x, y) &&
    money >= Config.TOWER_TYPES[selected.value].cost
  }

  /** Every tower of `towers` that resolved its division is registered under its id. */
  ghost predicate AllRegistered(towers: seq<Tower>, t: Table<Tower>)
    reads towers`beatDivision
  {
    forall i :: 0 <= i < |towers| && towers[i].beatDivision.Some? ==>
      RegisteredAt(t, towers[i].beatDivision.value, towers[i].id, towers[i])
  }

  /** What one frame's movement report for an enemy is: whether it stands on its next point, and its cell. */
  type Move = (bool, Cell)

  /** The enemy went through one Update with the report `m`. */
  twostate predicate Moved(e: Enemy, m: Move)
    reads e
  {
    e.Snap() == Stepped(|e.path|, old(e.Snap()), m.0, m.1)
  }

  /** What a frame left of an enemy: whether it reached the end, and whether it is dead. */
  type Fate = (bool, bool)

  /** The fate of one enemy, as it stands. */
  ghost function FateOf(e: Enemy): Fate
    reads e
  {
    (e.reachedEnd, e.isDead)
  }

  /**
   * The fates the enemies of `s`, in the states `olds`, are left with by
   * one frame with the reports `ms`.
   */
  ghost function Outcomes(s: seq<Enemy>, olds: seq<Snapshot>, ms: seq<Move>): (r: seq<Fate>)
    requires |s| == |olds| == |ms|
    ensures |r| == |s|
    ensures forall k :: 0 <= k < |s| ==>
      r[k] == (Stepped(|s[k].path|, olds[k], ms[k].0, ms[k].1).reachedEnd, Stepped(|s[k].path|, olds[k], ms[k].0, ms[k].1).isDead)
  {
    seq(|s|, k requires 0 <= k < |s| =>
      (Stepped(|s[k].path|, olds[k], ms[k].0, ms[k].1).reachedEnd, Stepped(|s[k].path|, olds[k], ms[k].0, ms[k].1).isDead))
  }

  /** The fates of the enemies of `s`, in order. */
  ghost function Fates(s: seq<Enemy>): (r: seq<Fate>)
    reads s
    ensures |r| == |s| && forall k :: 0 <= k < |s| ==> r[k] == FateOf(s[k])
  {
    seq(|s|, k reads s requires 0 <= k < |s| => FateOf(s[k]))
  }

  /** The states of the enemies of `s`, in order. */
  ghost function Snaps(s: seq<Enemy>): (r: seq<Snapshot>)
    reads s
    ensures |r| == |s| && forall k :: 0 <= k < |s| ==> r[k] == s[k].Snap()
  {
    seq(|s|, k reads s requires 0 <= k < |s| => s[k].Snap())
  }

  /** The enemies that stay on the board: those neither at the end nor dead, in order. */
  function Remaining(s: seq<Enemy>, f: seq<Fate>): seq<Enemy>
    requires |s| == |f|
  {
    if s == [] then [] else (if f[0].0 || f[0].1 then [] else [s[0]]) + Remaining(s[1..], f[1..])
  }

  /** The number of enemies that reached the end (each costs a life). */
  function Escapes(f: seq<Fate>): nat {
    if f == [] then 0 else (if f[0].0 then 1 else 0) + Escapes(f[1..])
  }

  /** The number of enemies killed before reaching the end (each pays a bounty). */
  function Kills(f: seq<Fate>): nat {
    if f == [] then 0 else (if !f[0].0 && f[0].1 then 1 else 0) + Kills(f[1..])
  }

  /**
   * Every enemy is accounted for exactly once: it stays, escapes or is
   * killed. What stays comes from the list, and from a list without
   * repetitions exactly the enemies neither at the end nor dead stay, each once.
   */
  lemma {:induction false} FateAccounting(s: seq<Enemy>, f: seq<Fate>)
    requires |s| == |f|
    ensures |Remaining(s, f)| + Escapes(f) + Kills(f) == |s|
    ensures forall e :: e in Remaining(s, f) ==> e in s
    ensures Distinct(s) ==> Distinct(Remaining(s, f))
    ensures Distinct(s) ==> forall k :: 0 <= k < |s| ==> (s[k] in Remaining(s, f) <==> !f[k].0 && !f[k].1)
  {
    if s != [] {
      FateAccounting(s[1..], f[1..]);
      var head: seq<Enemy> := if f[0].0 || f[0].1 then [] else [s[0]];
      assert Remaining(s, f) == head + Remaining(s[1..], f[1..]);
      if Distinct(s) {
        assert Distinct(s[1..]) by {
          forall i, j | 0 <= i < j < |s[1..]|
            ensures s[1..][i] != s[1..][j]
          {
            assert s[1..][i] == s[i + 1] && s[1..][j] == s[j + 1];
          }
        }
        assert s[0] !in s[1..] by {
          forall k | 0 <= k < |s[1..]|
            ensures s[1..][k] != s[0]
          {
            assert s[1..][k] == s[k + 1];
          }
        }
        forall k | 1 <= k < |s|
          ensures s[k] in Remaining(s, f) <==> !f[k].0 && !f[k].1
        {
          assert s[1..][k - 1] == s[k] && f[1..][k - 1] == f[k];
        }
      }
    }
  }

  /**
   * A list made of the first i + 1 elements of `all` and then `kept`: cutting
   * out its element i leaves the first i elements and `kept`; leaving it in
   * is the first i elements, element i, then `kept`.
   */
  lemma CutStep<T>(all: seq<T>, i: nat, kept: seq<T>, s: seq<T>)
    requires i < |all| && s == all[..i + 1] + kept
    ensures s[..i] + s[i + 1..] == all[..i] + kept
    ensures s == all[..i] + ([all[i]] + kept)
  {
    assert s[..i] == all[..i];
    assert s[i + 1..] == kept;
  }

  /** Unfolding the pass at index i. */
  lemma RemainingCons(all: seq<Enemy>, i: nat, fates: seq<Fate>, f: Fate)
    requires i < |all| && |fates| == |all| - i - 1
    ensures Remaining(all[i..], [f] + fates) == (if f.0 || f.1 then [] else [all[i]]) + Remaining(all[i + 1..], fates)
  {
    assert all[i..][1..] == all[i + 1..];
    assert ([f] + fates)[1..] == fates;
  }

  /** What stays after a pass keeps the roster: it is known, repeats nothing and shares nothing with the schedule. */
  lemma RosterKept(s: seq<Enemy>, f: seq<Fate>, scheduled: seq<Enemy>, known: set<Enemy>)
    requires |s| == |f| && Roster(s, scheduled, known)
    ensures Roster(Remaining(s, f), scheduled, known)
  {
    FateAccounting(s, f);
    var r := Remaining(s, f);
    forall i | 0 <= i < |r|
      ensures r[i] in known && forall j :: 0 <= j < |scheduled| ==> r[i] != scheduled[j]
    {
      assert r[i] in r;
      var k :| 0 <= k < |s| && s[k] == r[i];
    }
  }

  /** The base speed of the enemies of a wave. */
  function WaveSpeed(wave: int): real {
    1.0 + (wave as real) * 0.1
  }

  /** The base health of the enemies of a wave. */
  function WaveHealth(wave: int): real {
    (50 + wave * 10) as real
  }

  /** Enemies on the board and scheduled: all known, and no object twice in either list or in both. */
  ghost predicate Roster(enemies: seq<Enemy>, scheduled: seq<Enemy>, known: set<Enemy>) {
    (forall i :: 0 <= i < |enemies| ==> enemies[i] in known) &&
    (forall i :: 0 <= i < |scheduled| ==> scheduled[i] in known) &&
    Distinct(enemies) && Distinct(scheduled) &&
    (forall i, j :: 0 <= i < |enemies| && 0 <= j < |scheduled| ==> enemies[i] != scheduled[j])
  }

  /** A new wave of distinct unknown enemies: its first on the board and the rest as the schedule keep the roster. */
  lemma RosterEnlist(enemies: seq<Enemy>, scheduled: seq<Enemy>, known: set<Enemy>, w: seq<Enemy>)
    requires Roster(enemies, scheduled, known) && |w| > 0 && Distinct(w)
    requires forall i :: 0 <= i < |w| ==> w[i] !in known
    ensures Roster(enemies + [w[0]], w[1..], known + set e | e in w)
  {
    var e' := enemies + [w[0]];
    var s' := w[1..];
    forall i, j | 0 <= i < |e'| && 0 <= j < |s'|
      ensures e'[i] != s'[j]
    {
      assert s'[j] == w[j + 1];
      if i < |enemies| {
        assert e'[i] in known;
      }
    }
  }

  /** The head of the schedule moving to the end of the board keeps the roster. */
  lemma RosterShift(enemies: seq<Enemy>, scheduled: seq<Enemy>, known: set<Enemy>)
    requires Roster(enemies, scheduled, known) && |scheduled| > 0
    ensures Roster(enemies + [scheduled[0]], scheduled[1..], known)
  {
    var e' := enemies + [scheduled[0]];
    var s' := scheduled[1..];
    forall i, j | 0 <= i < |e'| && 0 <= j < |s'|
      ensures e'[i] != s'[j]
    {
      assert s'[j] == scheduled[j + 1];
    }
  }

  /** An unknown enemy joining the end of the board keeps the roster. */
  lemma RosterJoin(enemies: seq<Enemy>, scheduled: seq<Enemy>, known: set<Enemy>, e: Enemy)
    requires Roster(enemies, scheduled, known) && e !in known
    ensures Roster(enemies + [e], scheduled, known + {e})
  {
  }

  /** The cells of the towers: on the board, off the path, each at most once. */
  ghost predicate Board(towers: seq<Tower>) {
    (forall i :: 0 <= i < |towers| ==>
       Config.InBounds(towers[i].x, towers[i].y) && !Config.OnPath(towers[i].x, towers[i].y)) &&
    (forall i, j :: 0 <= i < j < |towers| ==> towers[i].x != towers[j].x || towers[i].y != towers[j].y)
  }

  /** A tower on a free board cell off the path extends the board. */
  lemma BoardAppend(towers: seq<Tower>, t: Tower)
    requires Board(towers)
    requires Config.InBounds(t.x, t.y) && !Config.OnPath(t.x, t.y) && !Occupied(towers, t.x, t.y)
    ensures Board(towers + [t])
  {
    var s := towers + [t];
    forall i, j | 0 <= i < j < |s|
      ensures s[i].x != s[j].x || s[i].y != s[j].y
    {
      if j == |towers| {
        assert s[i] == towers[i];
      }
    }
  }

  /** Towers on distinct cells, each with its placement id, have distinct ids. */
  lemma DistinctIds(towers: seq<Tower>)
    requires Board(towers) && forall i :: 0 <= i < |towers| ==> towers[i].Identity()
    ensures UniqueIds(towers)
  {
    forall i, j | 0 <= i < |towers| && 0 <= j < |towers| && i != j
      ensures towers[i].id != towers[j].id
    {
      var a, b := towers[i], towers[j];
      TowerIdInjective(a.x, a.y, a.stamp, b.x, b.y, b.stamp);
    }
  }

  /** No two towers of the list share an id. */
  ghost predicate UniqueIds(towers: seq<Tower>) {
    forall i, j :: 0 <= i < |towers| && 0 <= j < |towers| && i != j ==> towers[i].id != towers[j].id
  }

  /**
   * The towers before index n have taken their update against `enemies`
   * at cells `cells`, from the flags `pending` and damages `dmgs`.
   */
  ghost predicate TunedBelow(towers: seq<Tower>, enemies: seq<Enemy>, cells: seq<Cell>, pending: seq<bool>, dmgs: seq<real>, n: nat)
    reads set j | 0 <= j < n && j < |towers| :: towers[j]
  {
    n <= |towers| <= |pending| && |towers| <= |dmgs| &&
    forall j :: 0 <= j < n ==> Tuned(towers[j], enemies, cells, pending[j], dmgs[j])
  }

  /** The towers from index n on still have no division exactly where `pending` says, and damages `dmgs`. */
  ghost predicate Untouched(towers: seq<Tower>, pending: seq<bool>, dmgs: seq<real>, n: nat)
    reads set j | n <= j < |towers| :: towers[j]
  {
    |towers| <= |pending| && |towers| <= |dmgs| &&
    forall j :: n <= j < |towers| ==> towers[j].beatDivision.None? == pending[j] && towers[j].damage == dmgs[j]
  }

  /** Which towers have not resolved a division yet, in order. */
  ghost function Pending(towers: seq<Tower>): (r: seq<bool>)
    reads towers`beatDivision
    ensures |r| == |towers| && forall i :: 0 <= i < |towers| ==> r[i] == towers[i].beatDivision.None?
  {
    if towers == [] then []
    else [towers[0].beatDivision.None?] + Pending(towers[1..])
  }

  /** The damage of each tower, in order. */
  ghost function Damages(towers: seq<Tower>): (r: seq<real>)
    reads towers`damage
    ensures |r| == |towers| && forall i :: 0 <= i < |towers| ==> r[i] == towers[i].damage
  {
    if towers == [] then []
    else [towers[0].damage] + Damages(towers[1..])
  }

  /**
   * The registry after the first n towers' updates, from `t0`: each of them
   * still pending, in order, registered under its id for its type's
   * division.
   */
  function RegisterUpTo(t0: Table<Tower>, towers: seq<Tower>, pending: seq<bool>, n: nat): (r: Table<Tower>)
    requires Complete(t0) && n <= |towers| <= |pending|
    ensures Complete(r)
  {
    if n == 0 then t0
    else if !pending[n - 1] then RegisterUpTo(t0, towers, pending, n - 1)
    else Register(RegisterUpTo(t0, towers, pending, n - 1), DivisionForTowerType(towers[n - 1].towerType), towers[n - 1].id, towers[n - 1])
  }

  /** The pass leaves the registrations of an id that none of the registered towers has where they were. */
  lemma {:induction false} RegisterUpToKeeps(t0: Table<Tower>, towers: seq<Tower>, pending: seq<bool>, n: nat, e: Division, b: string)
    requires Complete(t0) && n <= |towers| <= |pending|
    requires forall k :: 0 <= k < n && pending[k] ==> towers[k].id != b
    ensures Keep(RegisterUpTo(t0, towers, pending, n)[e], b) == Keep(t0[e], b)
  {
    if n > 0 {
      RegisterUpToKeeps(t0, towers, pending, n - 1, e, b);
      if pending[n - 1] {
        var t := towers[n - 1];
        RegisterKeepsOthers(RegisterUpTo(t0, towers, pending, n - 1), DivisionForTowerType(t.towerType), t.id, t, e, b);
      }
    }
  }

  /**
   * After the pass over the first n towers, tower k is registered for its
   * type's division if it was not pending (and registered so before) or is
   * among the n, provided no other pending one of the n shares its id.
   */
  lemma {:induction false} RegisterUpToRegisters(t0: Table<Tower>, towers: seq<Tower>, pending: seq<bool>, n: nat, k: nat)
    requires Complete(t0) && n <= |towers| <= |pending| && k < |towers|
    requires forall j :: 0 <= j < n && j != k && pending[j] ==> towers[j].id != towers[k].id
    requires !pending[k] ==> RegisteredAt(t0, DivisionForTowerType(towers[k].towerType), towers[k].id, towers[k])
    requires k < n || !pending[k]
    ensures RegisteredAt(RegisterUpTo(t0, towers, pending, n), DivisionForTowerType(towers[k].towerType), towers[k].id, towers[k])
  {
    if n > 0 {
      var u := towers[k];
      if n - 1 == k && pending[k] {
        RegisterRegisters(RegisterUpTo(t0, towers, pending, n - 1), DivisionForTowerType(u.towerType), u.id, u);
      } else {
        RegisterUpToRegisters(t0, towers, pending, n - 1, k);
        RegisterUpToStep(t0, towers, pending, n, DivisionForTowerType(u.towerType), u.id, u);
      }
    }
  }

  /** One more tower of the pass keeps a registration under an id other than its own. */
  lemma RegisterUpToStep(t0: Table<Tower>, towers: seq<Tower>, pending: seq<bool>, n: nat, d: Division, id: string, cb: Tower)
    requires Complete(t0) && 0 < n <= |towers| <= |pending|
    requires pending[n - 1] ==> towers[n - 1].id != id
    requires RegisteredAt(RegisterUpTo(t0, towers, pending, n - 1), d, id, cb)
    ensures RegisteredAt(RegisterUpTo(t0, towers, pending, n), d, id, cb)
  {
    if pending[n - 1] {
      var t := towers[n - 1];
      RegisterPreserves(RegisterUpTo(t0, towers, pending, n - 1), DivisionForTowerType(t.towerType), t.id, t, d, id, cb);
    }
  }

  /** The pass adds no listener but towers of the list. */
  lemma {:induction false} RegisterUpToListeners(t0: Table<Tower>, towers: seq<Tower>, pending: seq<bool>, n: nat)
    requires Complete(t0) && n <= |towers| <= |pending|
    ensures Listeners(RegisterUpTo(t0, towers, pending, n)) <= Listeners(t0) + set x | x in towers
  {
    if n > 0 {
      RegisterUpToListeners(t0, towers, pending, n - 1);
      if pending[n - 1] {
        var t := towers[n - 1];
        RegisterListeners(RegisterUpTo(t0, towers, pending, n - 1), DivisionForTowerType(t.towerType), t.id, t);
      }
    }
  }

  /**
   * A tower after one update against `enemies` standing at `cells`
   * (their positions), and against whether it was pending (had no
   * division) and its damage `damage0` before it: the type's division resolved, the damage scaled
   * once on resolving and kept otherwise, the target the search's choice,
   * and ready and active exactly when there is a target.
   */
  ghost predicate Tuned(t: Tower, enemies: seq<Enemy>, cells: seq<Cell>, wasPending: bool, damage0: real)
    reads t
  {
    t.beatDivision == Some(DivisionForTowerType(t.towerType)) &&
    (wasPending ==> t.damage == t.baseDamage * DamageMultiplier(DivisionForTowerType(t.towerType))) &&
    (!wasPending ==> t.damage == damage0) &&
    (exists k :: -1 <= k < |enemies| && Choice(t.x, t.y, t.range, cells, k) && t.target == Pick(enemies, k)) &&
    t.readyToFire == t.active == (t.target != null)
  }

  // The beat dispatch: the invocations of a tick, made in order.

  /** The towers the invocations call. */
  function Called(calls: seq<Invocation<Tower>>): set<Tower> {
    set k | 0 <= k < |calls| :: calls[k].callback
  }

  /** The towers of `placed` that are ready and have a target: those a beat would make shoot. */
  ghost function ReadyOf(placed: set<Tower>): set<Tower>
    reads placed
  {
    set u | u in placed && u.readyToFire && u.target != null
  }

  /** The towers called among the first n invocations. */
  function Callers(calls: seq<Invocation<Tower>>, n: nat): set<Tower>
    requires n <= |calls|
  {
    set k | 0 <= k < n :: calls[k].callback
  }

  /** One more invocation adds its tower to the callers. */
  lemma CallersStep(calls: seq<Invocation<Tower>>, k: nat)
    requires k < |calls|
    ensures Callers(calls, k + 1) == Callers(calls, k) + {calls[k].callback}
  {
  }

  /**
   * Invocation k makes a shot: its tower was ready and had a target when
   * the dispatch began (it is in `ready`), and no earlier invocation called it.
   */
  predicate Shoots(calls: seq<Invocation<Tower>>, ready: set<Tower>, k: nat)
    requires k < |calls|
  {
    calls[k].callback in ready && calls[k].callback !in Callers(calls, k)
  }

  /** What invocation k would hit with: its tower's target, and the tower's damage times the synth-stabs factor for its step count. */
  ghost function Aims(calls: seq<Invocation<Tower>>): (r: seq<(Enemy?, real)>)
    reads Called(calls)
    ensures |r| == |calls|
    ensures forall k :: 0 <= k < |calls| ==>
      r[k] == (calls[k].callback.target, calls[k].callback.damage * ShotMultiplier(calls[k].callback.towerType, calls[k].index))
  {
    seq(|calls|, k reads Called(calls) requires 0 <= k < |calls| =>
      (calls[k].callback.target, calls[k].callback.damage * ShotMultiplier(calls[k].callback.towerType, calls[k].index)))
  }

  /**
   * The health and the dead flag of enemy `e`, which were `h` and `dead`,
   * after the first n invocations whose hits are `aims`: each shot at `e`
   * takes its hit, and a shot that leaves it at or below zero marks it dead.
   */
  function Struck(calls: seq<Invocation<Tower>>, ready: set<Tower>, aims: seq<(Enemy?, real)>,
                  e: Enemy, h: real, dead: bool, n: nat): (r: (real, bool))
    requires n <= |calls| == |aims|
    ensures dead ==> r.1
  {
    if n == 0 then (h, dead)
    else
      var (h', dead') := Struck(calls, ready, aims, e, h, dead, n - 1);
      if Shoots(calls, ready, n - 1) && aims[n - 1].0 == e then
        var h2 := h' - aims[n - 1].1;
        (h2, dead' || h2 <= 0.0)
      else (h', dead')
  }

  /**
   * Each tower shoots at most once in a dispatch, and a tower that was
   * ready with a target and is called shoots, at its first invocation.
   */
  lemma {:induction false} ShootsOnce(calls: seq<Invocation<Tower>>, ready: set<Tower>, n: nat)
    requires n <= |calls|
    ensures forall i, j :: 0 <= i < j < n && Shoots(calls, ready, i) && Shoots(calls, ready, j) ==>
      calls[i].callback != calls[j].callback
    ensures forall u :: u in ready && u in Callers(calls, n) ==>
      exists k :: 0 <= k < n && Shoots(calls, ready, k) && calls[k].callback == u
  {
    if n > 0 {
      ShootsOnce(calls, ready, n - 1);
      forall i, j | 0 <= i < j < n && Shoots(calls, ready, i) && Shoots(calls, ready, j)
        ensures calls[i].callback != calls[j].callback
      {
        assert calls[i].callback in Callers(calls, j);
      }
      forall u | u in ready && u in Callers(calls, n)
        ensures exists k :: 0 <= k < n && Shoots(calls, ready, k) && calls[k].callback == u
      {
        if u !in Callers(calls, n - 1) {
          assert calls[n - 1].callback == u;
          assert Shoots(calls, ready, n - 1);
        }
      }
    }
  }

  /** An enemy that a dispatch kills was hit by some shot. */
  lemma {:induction false} StruckKills(calls: seq<Invocation<Tower>>, ready: set<Tower>, aims: seq<(Enemy?, real)>,
                                       e: Enemy, h: real, dead: bool, n: nat)
    requires n <= |calls| == |aims|
    ensures Struck(calls, ready, aims, e, h, dead, n).1 && !dead ==>
      exists k :: 0 <= k < n && Shoots(calls, ready, k) && aims[k].0 == e
  {
    if n > 0 {
      StruckKills(calls, ready, aims, e, h, dead, n - 1);
    }
  }

  /** An enemy no shot aims at keeps its health and its flag. */
  lemma {:induction false} StruckMissed(calls: seq<Invocation<Tower>>, ready: set<Tower>, aims: seq<(Enemy?, real)>,
                                        e: Enemy, h: real, dead: bool, n: nat)
    requires n <= |calls| == |aims|
    requires forall k :: 0 <= k < n && Shoots(calls, ready, k) ==> aims[k].0 != e
    ensures Struck(calls, ready, aims, e, h, dead, n) == (h, dead)
  {
    if n > 0 {
      StruckMissed(calls, ready, aims, e, h, dead, n - 1);
    }
  }

}
