/**
 * Enemies: their health and death latch, their progress along the path, the
 * boss variant, and the wave generator. Movement between path points is
 * continuous in the game; here a frame reports only whether the enemy stands
 * on its next path point and which grid cell it occupies.
 */
module Enemies {

  /** The path an enemy falls back to when it is given none. */
  const FALLBACK_PATH: seq<(int, int)> := [(0, 0), (1, 0)]

  /**
   * The path index and end flag after one frame on a path of `len` points:
   * an enemy standing on its next point moves its index on, and it has
   * reached the end once the index is at the last point.
   */
  function Advance(len: int, index: int, reached: bool, arrived: bool): (r: (int, bool))
    requires 0 <= index < len
    ensures index <= r.0 <= index + 1 && r.0 < len
    ensures r.0 == index + 1 <==> arrived && index < len - 1
    ensures r.1 <==> reached || (r.0 > index && r.0 >= len - 1)
  {
    if arrived && index < len - 1 then
      (index + 1, reached || index + 1 >= len - 1)
    else
      (index, reached)
  }

  /** What one frame can change of an enemy, and its health. */
  datatype Snapshot = Snapshot(health: real, pathIndex: int, cell: (int, int), reachedEnd: bool, isDead: bool)

  /**
   * An enemy's state after one frame on a path of `len` points: with its
   * index outside the path it is dead and nothing else changes; otherwise
   * it advances when `arrived` and stands on `cell`. Health is untouched.
   */
  function Stepped(len: int, s: Snapshot, arrived: bool, cell: (int, int)): (r: Snapshot)
    ensures r.health == s.health
    ensures !(0 <= s.pathIndex < len) ==> r == s.(isDead := true)
    ensures 0 <= s.pathIndex < len ==>
      (r.pathIndex, r.reachedEnd) == Advance(len, s.pathIndex, s.reachedEnd, arrived) &&
      r.cell == cell && r.isDead == s.isDead
  {
    if 0 <= s.pathIndex < len then
      var (index, reached) := Advance(len, s.pathIndex, s.reachedEnd, arrived);
      s.(pathIndex := index, reachedEnd := reached, cell := cell)
    else
      s.(isDead := true)
  }

  /** The path index and end flag after a series of frames. */
  function Walk(len: int, index: int, reached: bool, arrivals: seq<bool>): (r: (int, bool))
    requires 0 <= index < len
    ensures index <= r.0 < len
    decreases |arrivals|
  {
    if arrivals == [] then (index, reached)
    else
      var (i, e) := Advance(len, index, reached, arrivals[0]);
      Walk(len, i, e, arrivals[1..])
  }

  /** The number of frames in which the enemy stood on its next point. */
  function Arrivals(s: seq<bool>): nat {
    if s == [] then 0 else (if s[0] then 1 else 0) + Arrivals(s[1..])
  }

  /**
   * On a path of at least two points, an enemy that starts at the first
   * point is at point min(k, len - 1) after k arrivals, and has reached the
   * end exactly when k >= len - 1.
   */
  lemma {:induction false} WalkCountsArrivals(len: int, index: int, arrivals: seq<bool>)
    requires len >= 2 && 0 <= index < len
    ensures Walk(len, index, index >= len - 1 && index > 0, arrivals).0 ==
            if index + Arrivals(arrivals) < len - 1 then index + Arrivals(arrivals) else len - 1
    ensures Walk(len, index, index >= len - 1 && index > 0, arrivals).1 <==>
            (index > 0 || Arrivals(arrivals) > 0) && index + Arrivals(arrivals) >= len - 1
    decreases |arrivals|
  {
    if arrivals != [] {
      var (i, e) := Advance(len, index, index >= len - 1 && index > 0, arrivals[0]);
      assert e == (i >= len - 1 && i > 0);
      WalkCountsArrivals(len, i, arrivals[1..]);
    }
  }

  /** How many enemies a wave holds: a boss every fifth wave counts as two regular enemies. */
  function WaveSize(wave: int, count: int): (n: nat)
    ensures wave % 5 != 0 ==> n == if count > 0 then count else 0
    ensures wave % 5 == 0 ==> n == 1 + if count - 2 > 0 then count - 2 else 0
  {
    if wave % 5 == 0 then 1 + (if count - 2 > 0 then count - 2 else 0)
    else if count > 0 then count else 0
  }

  /**
   * The game asks for 5 + 2w enemies in wave w. A wave brings that many,
   * except every fifth wave, which brings one fewer: a boss in place of two.
   */
  lemma GameWaveSize(w: nat)
    requires w >= 1
    ensures WaveSize(w, 5 + 2 * w) == if w % 5 == 0 then 4 + 2 * w else 5 + 2 * w
    ensures w % 5 == 0 ==> WaveSize(w, 5 + 2 * w) == WaveSize(w - 1, 5 + 2 * (w - 1)) + 1
  {
  }

  class Enemy {
    const path: seq<(int, int)>
    const isBoss: bool
    const speed: real
    const maxHealth: real
    var health: real
    var pathIndex: int
    var gridX: int
    var gridY: int
    var reachedEnd: bool
    var isDead: bool

    /** A fresh enemy at the first point of its path, at full health. */
    constructor (path: seq<(int, int)>, speed: real, health: real)
      ensures this.path == if |path| == 0 then FALLBACK_PATH else path
      ensures pathIndex == 0 && gridX == this.path[0].0 && gridY == this.path[0].1
      ensures this.speed == speed && this.health == health && maxHealth == health
      ensures !reachedEnd && !isDead && !isBoss
    {
      this.path := if |path| == 0 then FALLBACK_PATH else path;
      pathIndex := 0;
      gridX := if |path| == 0 then 0 else path[0].0;
      gridY := if |path| == 0 then 0 else path[0].1;
      this.speed := speed;
      this.health := health;
      maxHealth := health;
      reachedEnd := false;
      isDead := false;
      isBoss := false;
    }

    /** A boss: slower and with three times the health of its arguments. */
    constructor Boss(path: seq<(int, int)>, speed: real, health: real)
      ensures this.path == if |path| == 0 then FALLBACK_PATH else path
      ensures pathIndex == 0 && gridX == this.path[0].0 && gridY == this.path[0].1
      ensures this.speed == speed * 0.7 && this.health == health * 3.0 && maxHealth == health * 3.0
      ensures !reachedEnd && !isDead && isBoss
    {
      this.path := if |path| == 0 then FALLBACK_PATH else path;
      pathIndex := 0;
      gridX := if |path| == 0 then 0 else path[0].0;
      gridY := if |path| == 0 then 0 else path[0].1;
      this.speed := speed * 0.7;
      this.health := health * 3.0;
      maxHealth := health * 3.0;
      reachedEnd := false;
      isDead := false;
      isBoss := true;
    }

    /** The state a frame can change, and the health. */
    function Snap(): Snapshot
      reads this
    {
      Snapshot(health, pathIndex, (gridX, gridY), reachedEnd, isDead)
    }

    /** Health drops by exactly `amount`; at or below zero the enemy is dead for good. */
    method TakeDamage(amount: real)
      modifies this`health, this`isDead
      ensures health == old(health) - amount
      ensures isDead <==> old(isDead) || health <= 0.0
    {
      health := health - amount;
      if health <= 0.0 {
        isDead := true;
      }
    }

    /**
     * One frame. An enemy whose path index is outside its path is marked
     * dead and left as it is. Otherwise it moves on to the next path point
     * when `arrived` (it stands on that point), and takes `cell` as its grid
     * cell.
     */
    method Update(arrived: bool, cell: (int, int))
      modifies this`pathIndex, this`reachedEnd, this`isDead, this`gridX, this`gridY
      ensures !(0 <= old(pathIndex) < |path|) ==>
        isDead && pathIndex == old(pathIndex) && reachedEnd == old(reachedEnd) &&
        gridX == old(gridX) && gridY == old(gridY)
      ensures 0 <= old(pathIndex) < |path| ==>
        (pathIndex, reachedEnd) == Advance(|path|, old(pathIndex), old(reachedEnd), arrived) &&
        isDead == old(isDead) && (gridX, gridY) == cell
      ensures Snap() == Stepped(|path|, old(Snap()), arrived, cell)
    {
      if pathIndex < 0 || pathIndex >= |path| {
        isDead := true;
        return;
      }
      if pathIndex < |path| - 1 && arrived {
        pathIndex := pathIndex + 1;
        if pathIndex >= |path| - 1 {
          reachedEnd := true;
        }
      }
      gridX := cell.0;
      gridY := cell.1;
    }
  }

  /** A fresh enemy of a wave, on `path`, untouched so far. */
  ghost predicate Recruit(e: Enemy, path: seq<(int, int)>)
    reads e
  {
    e.path == (if |path| == 0 then FALLBACK_PATH else path) && e.pathIndex == 0 &&
    e.health == e.maxHealth && !e.reachedEnd && !e.isDead
  }

  /**
   * The enemies of a wave, all new and distinct: on every fifth wave a boss
   * first, standing for two regular enemies, then the regular enemies with
   * the base speed and health. The random spread around the base values is
   * not modelled.
   */
  method CreateEnemyWave(path: seq<(int, int)>, wave: int, count: int, health: real, speed: real)
    returns (enemies: seq<Enemy>)
    ensures |enemies| == WaveSize(wave, count)
    ensures forall i :: 0 <= i < |enemies| ==> fresh(enemies[i]) && Recruit(enemies[i], path)
    ensures forall i, j :: 0 <= i < j < |enemies| ==> enemies[i] != enemies[j]
    ensures wave % 5 == 0 ==>
      enemies[0].isBoss && enemies[0].speed == speed * 0.7 && enemies[0].maxHealth == health * 3.0
    ensures forall i :: (if wave % 5 == 0 then 1 else 0) <= i < |enemies| ==>
      !enemies[i].isBoss && enemies[i].speed == speed && enemies[i].maxHealth == health
  {
    enemies := [];
    var regular := count;
    if wave % 5 == 0 {
      var boss := new Enemy.Boss(path, speed, health);
      enemies := enemies + [boss];
      regular := regular - 2;
    }
    var first := |enemies|;
    assert WaveSize(wave, count) == first + if regular > 0 then regular else 0;
    var i := 0;
    while i < regular
      invariant 0 <= i <= if regular > 0 then regular else 0
      invariant |enemies| == first + i
      invariant first == if wave % 5 == 0 then 1 else 0
      invariant forall k :: 0 <= k < |enemies| ==> fresh(enemies[k]) && Recruit(enemies[k], path)
      invariant forall k, j :: 0 <= k < j < |enemies| ==> enemies[k] != enemies[j]
      invariant wave % 5 == 0 ==>
        enemies[0].isBoss && enemies[0].speed == speed * 0.7 && enemies[0].maxHealth == health * 3.0
      invariant forall k :: first <= k < |enemies| ==>
        !enemies[k].isBoss && enemies[k].speed == speed && enemies[k].maxHealth == health
    {
      var e := new Enemy(path, speed, health);
      enemies := enemies + [e];
      i := i + 1;
    }
  }

}
