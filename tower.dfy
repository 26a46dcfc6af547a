/**
 * Towers: the combat agents. A tower resolves its beat division and damage
 * once, registers itself with the audio manager under its id, picks the
 * nearest enemy in range every frame, and shoots it when its division's beat
 * is dispatched, at most once per frame's readiness.
 */
module Towers {

  import opened Options
  import opened BeatGrid
  import opened Registry
  import opened Audio
  import opened Enemies
  import Config

  // ---------------------------------------------------------------- ids

  function DigitChar(n: int): char
    requires 0 <= n < 10
  {
    "0123456789"[n]
  }

  /** The decimal digits of a natural number, as a template literal writes them. */
  function NatDigits(n: nat): (s: string)
    ensures |s| >= 1 && (n >= 10 ==> |s| >= 2)
  {
    if n < 10 then [DigitChar(n)] else NatDigits(n / 10) + [DigitChar(n % 10)]
  }

  /** Only digit characters are written. */
  lemma {:induction false} NatDigitsAreDigits(n: nat)
    ensures forall i :: 0 <= i < |NatDigits(n)| ==> '0' <= NatDigits(n)[i] <= '9'
  {
    if n >= 10 {
      NatDigitsAreDigits(n / 10);
      var s := NatDigits(n);
      assert forall i :: 0 <= i < |s| - 1 ==> s[i] == NatDigits(n / 10)[i];
    }
  }

  /** Different numbers are written differently. */
  lemma {:induction false} NatDigitsInjective(a: nat, b: nat)
    requires NatDigits(a) == NatDigits(b)
    ensures a == b
  {
    if a >= 10 && b >= 10 {
      var sa, sb := NatDigits(a), NatDigits(b);
      assert sa[|sa| - 1] == DigitChar(a % 10) && sb[|sb| - 1] == DigitChar(b % 10);
      assert sa[..|sa| - 1] == NatDigits(a / 10) && sb[..|sb| - 1] == NatDigits(b / 10);
      NatDigitsInjective(a / 10, b / 10);
    }
  }

  /** The id of a tower placed at (x, y) at clock reading `stamp`: "tower_<x>_<y>_<stamp>". */
  function TowerId(x: nat, y: nat, stamp: nat): string {
    "tower_" + (NatDigits(x) + "_" + (NatDigits(y) + "_" + NatDigits(stamp)))
  }

  /** Splitting at the first underscore: two such joins agree only if their parts do. */
  lemma SplitAtUnderscore(p: string, r: string, q: string, t: string)
    requires forall i :: 0 <= i < |p| ==> '0' <= p[i] <= '9'
    requires forall i :: 0 <= i < |q| ==> '0' <= q[i] <= '9'
    requires p + "_" + r == q + "_" + t
    ensures p == q && r == t
  {
    var u, v := p + "_" + r, q + "_" + t;
    assert u[|p|] == '_' && v[|q|] == '_';
    assert p == u[..|p|] && q == v[..|q|];
    assert r == u[|p| + 1..] && t == v[|q| + 1..];
  }

  /** Towers at different cells, or placed at different times, have different ids. */
  lemma TowerIdInjective(x: nat, y: nat, s: nat, x': nat, y': nat, s': nat)
    ensures TowerId(x, y, s) == TowerId(x', y', s') <==> x == x' && y == y' && s == s'
  {
    if TowerId(x, y, s) == TowerId(x', y', s') {
      var b := NatDigits(y) + "_" + NatDigits(s);
      var b' := NatDigits(y') + "_" + NatDigits(s');
      var a := NatDigits(x) + "_" + b;
      var a' := NatDigits(x') + "_" + b';
      assert a == TowerId(x, y, s)[6..];
      assert a' == TowerId(x', y', s')[6..];
      NatDigitsAreDigits(x);
      NatDigitsAreDigits(x');
      NatDigitsAreDigits(y);
      NatDigitsAreDigits(y');
      SplitAtUnderscore(NatDigits(x), b, NatDigits(x'), b');
      SplitAtUnderscore(NatDigits(y), NatDigits(s), NatDigits(y'), NatDigits(s'));
      NatDigitsInjective(x, x');
      NatDigitsInjective(y, y');
      NatDigitsInjective(s, s');
    }
  }

  // ---------------------------------------------------------------- shots and upgrades

  /** Synth stabs hit three times as hard on even step counts; every other shot counts once. */
  function ShotMultiplier(towerType: string, beatCount: int): real {
    if towerType == "synth_stabs" && beatCount % 2 == 0 then 3.0 else 1.0
  }

  /**
   * Of two consecutive steps a synth-stabs tower hits hard on exactly one;
   * every other type always shoots with factor 1.
   */
  lemma ShotMultiplierAlternates(towerType: string, n: int)
    ensures towerType == "synth_stabs" ==>
      (ShotMultiplier(towerType, n) == 3.0) != (ShotMultiplier(towerType, n + 1) == 3.0) &&
      ShotMultiplier(towerType, n) == ShotMultiplier(towerType, n + 2)
    ensures towerType != "synth_stabs" ==> ShotMultiplier(towerType, n) == 1.0
    ensures ShotMultiplier(towerType, n) == 1.0 || ShotMultiplier(towerType, n) == 3.0
  {
  }

  /** The price of the next upgrade: 80% of the type's cost per current level, rounded down; 0 at the top level. */
  function UpgradeCost(cost: int, level: int, maxLevel: int): (c: int)
    ensures level >= maxLevel ==> c == 0
    ensures level < maxLevel ==>
      c as real <= cost as real * 0.8 * level as real < c as real + 1.0
  {
    if level < maxLevel then (cost as real * 0.8 * level as real).Floor else 0
  }

  /** For non-negative costs and levels the price is the integer quotient 4 * cost * level / 5. */
  lemma UpgradeCostIsQuotient(cost: nat, level: nat, maxLevel: int)
    requires level < maxLevel
    ensures UpgradeCost(cost, level, maxLevel) == (4 * cost * level) / 5
  {
    var c := UpgradeCost(cost, level, maxLevel);
    var q := (4 * cost * level) / 5;
    assert cost as real * 0.8 * level as real == (4 * cost * level) as real / 5.0;
    assert q * 5 <= 4 * cost * level < q * 5 + 5;
    assert (q as real) * 5.0 <= (4 * cost * level) as real < (q as real) * 5.0 + 5.0;
  }

  /** Every configured cost is a multiple of 5, so no upgrade price loses anything to rounding. */
  lemma UpgradePricesExact(towerType: string, level: nat)
    requires towerType in Config.TOWER_TYPES && level < 3
    ensures UpgradeCost(Config.TOWER_TYPES[towerType].cost, level, 3) * 5 ==
            4 * Config.TOWER_TYPES[towerType].cost * level
  {
    var cost := Config.TOWER_TYPES[towerType].cost;
    assert cost % 5 == 0;
    UpgradeCostIsQuotient(cost, level, 3);
  }

  // ---------------------------------------------------------------- targeting

  type Cell = (int, int)

  /** The squared distance, in cells, from the tower cell (x, y) to cell `c`. */
  function SquaredDistance(x: int, y: int, c: Cell): nat {
    (x - c.0) * (x - c.0) + (y - c.1) * (y - c.1)
  }

  /** Within `range` cells; for a non-negative range the same as comparing the square root with the range. */
  predicate InRange(x: int, y: int, range: real, c: Cell) {
    SquaredDistance(x, y, c) as real <= range * range
  }

  /** The grid cells of the enemies, in order. */
  function Cells(enemies: seq<Enemy>): (r: seq<Cell>)
    reads enemies
    ensures |r| == |enemies|
    ensures forall i :: 0 <= i < |enemies| ==> r[i] == (enemies[i].gridX, enemies[i].gridY)
  {
    seq(|enemies|, i reads enemies requires 0 <= i < |enemies| => (enemies[i].gridX, enemies[i].gridY))
  }

  /**
   * cells[k] is what the running-minimum search picks: in range, no earlier
   * cell in range as close, and no later one strictly closer.
   */
  ghost predicate Nearest(x: int, y: int, range: real, cells: seq<Cell>, k: int) {
    0 <= k < |cells| && InRange(x, y, range, cells[k]) &&
    (forall j :: 0 <= j < k && InRange(x, y, range, cells[j]) ==>
       SquaredDistance(x, y, cells[j]) > SquaredDistance(x, y, cells[k])) &&
    (forall j :: k < j < |cells| && InRange(x, y, range, cells[j]) ==>
       SquaredDistance(x, y, cells[j]) >= SquaredDistance(x, y, cells[k]))
  }

  /** The search's outcome: -1 exactly when no cell is in range, otherwise the Nearest position. */
  ghost predicate Choice(x: int, y: int, range: real, cells: seq<Cell>, k: int) {
    (k == -1 && forall i :: 0 <= i < |cells| ==> !InRange(x, y, range, cells[i])) ||
    Nearest(x, y, range, cells, k)
  }

  /** The choice is determined: at most one outcome satisfies Choice. */
  lemma ChoiceUnique(x: int, y: int, range: real, cells: seq<Cell>, k: int, k': int)
    requires Choice(x, y, range, cells, k) && Choice(x, y, range, cells, k')
    ensures k == k'
  {
  }

  /** The picked cell is at least as close as every cell in range. */
  lemma NearestIsClosest(x: int, y: int, range: real, cells: seq<Cell>, k: int)
    requires Nearest(x, y, range, cells, k)
    ensures forall c :: c in cells && InRange(x, y, range, c) ==>
      SquaredDistance(x, y, cells[k]) <= SquaredDistance(x, y, c)
  {
    forall c | c in cells && InRange(x, y, range, c)
      ensures SquaredDistance(x, y, cells[k]) <= SquaredDistance(x, y, c)
    {
      var j :| 0 <= j < |cells| && cells[j] == c;
    }
  }

  /** The enemy at a search outcome: none for -1. */
  function Pick(enemies: seq<Enemy>, k: int): Enemy?
    requires -1 <= k < |enemies|
  {
    if k == -1 then null else enemies[k]
  }

  // ---------------------------------------------------------------- the tower

  class Tower {
    const x: int
    const y: int
    const towerType: string
    const id: string
    const soundKey: string
    const baseDamage: real
    const maxLevel: int
    /** The clock reading at placement, which the id embeds. */
    ghost const stamp: nat
    var range: real
    var damage: real
    var fireRate: real
    var target: Enemy?
    var active: bool
    var readyToFire: bool
    var beatDivision: Option<Division>
    var level: int

    /** What a tower is from placement on: its cell, its id and a configured type. */
    ghost predicate Identity() {
      x >= 0 && y >= 0 && id == TowerId(x, y, stamp) && towerType in Config.TOWER_TYPES && maxLevel == 3
    }

    ghost predicate Valid()
      reads this`range, this`level, this`beatDivision
    {
      Identity() && range > 0.0 && 1 <= level <= maxLevel &&
      (beatDivision.Some? ==> beatDivision.value == DivisionForTowerType(towerType))
    }

    /**
     * A tower of a configured type at cell (x, y), created at clock reading
     * `stamp`: the type's range, damage, fire rate and sound, level 1 of 3,
     * no target, ready to fire, and no division yet.
     */
    constructor (x: nat, y: nat, towerType: string, stamp: nat)
      requires towerType in Config.TOWER_TYPES
      ensures Valid()
      ensures this.x == x && this.y == y && this.towerType == towerType && id == TowerId(x, y, stamp)
      ensures range == Config.TOWER_TYPES[towerType].range as real
      ensures baseDamage == Config.TOWER_TYPES[towerType].damage as real && damage == baseDamage
      ensures fireRate == Config.TOWER_TYPES[towerType].fireRate
      ensures soundKey == Config.TOWER_TYPES[towerType].sound
      ensures target == null && !active && readyToFire && beatDivision.None? && level == 1 && maxLevel == 3
    {
      var props := Config.TOWER_TYPES[towerType];
      this.x := x;
      this.y := y;
      this.towerType := towerType;
      id := TowerId(x, y, stamp);
      this.stamp := stamp;
      range := props.range as real;
      baseDamage := props.damage as real;
      damage := props.damage as real;
      fireRate := props.fireRate;
      soundKey := props.sound;
      target := null;
      active := false;
      readyToFire := true;
      beatDivision := None;
      level := 1;
      maxLevel := 3;
    }

    /**
     * The running-minimum search over the enemies: the nearest enemy in
     * range, the earliest of equally near ones, or null when none is in range.
     */
    method FindTarget(enemies: seq<Enemy>) returns (t: Enemy?, ghost k: int)
      ensures -1 <= k < |enemies| && Choice(x, y, range, Cells(enemies), k) && t == Pick(enemies, k)
    {
      ghost var cells := Cells(enemies);
      t := null;
      var closest := 0;
      k := -1;
      for i := 0 to |enemies|
        invariant -1 <= k < i && t == Pick(enemies, k)
        invariant k == -1 ==> forall j :: 0 <= j < i ==> !InRange(x, y, range, cells[j])
        invariant k != -1 ==> closest == SquaredDistance(x, y, cells[k]) && Nearest(x, y, range, cells[..i], k)
      {
        var e := enemies[i];
        var distance := SquaredDistance(x, y, (e.gridX, e.gridY));
        if InRange(x, y, range, (e.gridX, e.gridY)) && (t == null || distance < closest) {
          t := e;
          closest := distance;
          k := i;
        }
      }
      assert cells[..|enemies|] == cells;
    }

    /**
     * One frame. The first update resolves the division from the type and
     * scales the damage by the division's factor, then registers this tower
     * under its id for that division; later updates leave both alone. Every
     * update retargets, and the tower is ready and active exactly when it
     * has a target.
     */
    method Update(enemies: seq<Enemy>, audio: AudioManager<Tower>)
      requires Valid() && audio.Valid()
      modifies this`beatDivision, this`damage, this`target, this`readyToFire, this`active
      modifies audio`beatCallbacks
      ensures Valid() && audio.Valid()
      ensures old(beatDivision).None? ==>
        beatDivision == Some(DivisionForTowerType(towerType)) &&
        damage == baseDamage * DamageMultiplier(DivisionForTowerType(towerType)) &&
        audio.beatCallbacks == Register(old(audio.beatCallbacks), DivisionForTowerType(towerType), id, this)
      ensures old(beatDivision).Some? ==>
        beatDivision == old(beatDivision) && damage == old(damage) &&
        audio.beatCallbacks == old(audio.beatCallbacks)
      ensures exists k :: -1 <= k < |enemies| && Choice(x, y, range, Cells(enemies), k) && target == Pick(enemies, k)
      ensures readyToFire == active == (target != null)
      ensures Cells(enemies) == old(Cells(enemies))
    {
      active := false;
      Resolve(audio);
      Retarget(enemies);
    }

    /** The search part of an update: the new target, and ready and active exactly when there is one. */
    method Retarget(enemies: seq<Enemy>)
      modifies this`target, this`readyToFire, this`active
      ensures exists k :: -1 <= k < |enemies| && Choice(x, y, range, Cells(enemies), k) && target == Pick(enemies, k)
      ensures readyToFire == active == (target != null)
    {
      ghost var k;
      target, k := FindTarget(enemies);
      readyToFire := target != null;
      active := target != null;
    }

    /**
     * The one-time part of the first update: division, damage scaling and
     * registration under this tower's id.
     */
    method Resolve(audio: AudioManager<Tower>)
      requires Valid() && audio.Valid()
      modifies this`beatDivision, this`damage, audio`beatCallbacks
      ensures Valid() && audio.Valid()
      ensures old(beatDivision).None? ==>
        beatDivision == Some(DivisionForTowerType(towerType)) &&
        damage == baseDamage * DamageMultiplier(DivisionForTowerType(towerType)) &&
        audio.beatCallbacks == Register(old(audio.beatCallbacks), DivisionForTowerType(towerType), id, this)
      ensures old(beatDivision).Some? ==>
        beatDivision == old(beatDivision) && damage == old(damage) &&
        audio.beatCallbacks == old(audio.beatCallbacks)
    {
      if beatDivision.None? {
        var d := DivisionForTowerType(towerType);
        beatDivision := Some(d);
        match d {
          case Whole => damage := baseDamage * 3.0;
          case Half => damage := baseDamage * 2.0;
          case Quarter => damage := baseDamage * 1.0;
          case Eighth => damage := baseDamage * 0.7;
          case Sixteenth => damage := baseDamage * 0.5;
        }
        assert damage == baseDamage * DamageMultiplier(d) && Valid();
        ParseKey(d);
        audio.AddBeatCallback(Key(d), this, id);
      }
    }

    /** Shoots `enemy` for the tower's damage times `multiplier`. */
    method Fire(enemy: Enemy, multiplier: real)
      modifies this`active, enemy`health, enemy`isDead
      ensures enemy.health == old(enemy.health) - damage * multiplier
      ensures enemy.isDead <==> old(enemy.isDead) || enemy.health <= 0.0
      ensures active
    {
      var finalDamage := damage * multiplier;
      enemy.TakeDamage(finalDamage);
      active := true;
    }

    /**
     * The tower's beat: with a target and readiness it shoots once, with
     * the synth-stabs factor for this step count, and is no longer ready;
     * otherwise nothing happens.
     */
    method OnBeat(beatCount: int)
      modifies this`active, this`readyToFire
      modifies (if target != null then {target} else {})`health, (if target != null then {target} else {})`isDead
      ensures target == old(target)
      ensures old(target) != null && old(readyToFire) ==>
        !readyToFire && active &&
        target.health == old(target.health) - damage * ShotMultiplier(towerType, beatCount) &&
        (target.isDead <==> old(target.isDead) || target.health <= 0.0)
      ensures !(old(target) != null && old(readyToFire)) ==>
        readyToFire == old(readyToFire) && active == old(active) &&
        (old(target) != null ==> unchanged(old(target)))
    {
      if target != null && readyToFire {
        if towerType == "synth_stabs" && beatCount % 2 == 0 {
          Fire(target, 3.0);
        } else {
          Fire(target, 1.0);
        }
        readyToFire := false;
      }
    }

    /** Below the top level: one level up, damage x1.5, range and fire rate x1.2; at the top: no change. */
    method Upgrade() returns (ok: bool)
      requires Valid()
      modifies this`level, this`damage, this`range, this`fireRate
      ensures Valid()
      ensures ok == (old(level) < maxLevel)
      ensures ok ==> level == old(level) + 1 && damage == old(damage) * 1.5 &&
                     range == old(range) * 1.2 && fireRate == old(fireRate) * 1.2
      ensures !ok ==> level == old(level) && damage == old(damage) &&
                      range == old(range) && fireRate == old(fireRate)
    {
      if level < maxLevel {
        level := level + 1;
        damage := damage * 1.5;
        range := range * 1.2;
        fireRate := fireRate * 1.2;
        return true;
      }
      return false;
    }

    /** The price of this tower's next upgrade. */
    function GetUpgradeCost(): (c: int)
      requires Valid()
      reads this
      ensures level == maxLevel ==> c == 0
      ensures level < maxLevel ==> c * 5 == 4 * Config.TOWER_TYPES[towerType].cost * level
    {
      if level < maxLevel then
        UpgradePricesExact(towerType, level);
        UpgradeCost(Config.TOWER_TYPES[towerType].cost, level, maxLevel)
      else 0
    }
  }

}
