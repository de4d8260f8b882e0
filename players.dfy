/** A participant's static combat profile (`Player` in game.js): five rolled
    stat levels turned into a maximum HP and a damage value. The rolls
    themselves come from `Math.random` and are an input here. */
module Players {

  datatype Player = Player(name: string, storyPoints: int, stats: seq<int>, maxHp: int, damage: int)

  /** The starting values before any bonus. */
  const BaseHp := 20
  const BaseDamage := 5

  /** How many levels `generateStats` rolls, and their range. */
  const StatCount := 5
  const MinLevel := 1
  const MaxLevel := 5

  /** Levels as `generateStats` produces them. */
  predicate RolledStats(stats: seq<int>) {
    |stats| == StatCount && forall i :: 0 <= i < |stats| ==> MinLevel <= stats[i] <= MaxLevel
  }

  /** The level at index `k` if the loop has already visited it (`k < done`),
      and 0 otherwise; with `done == |stats|` it is simply the level. */
  function LevelSeen(stats: seq<int>, k: nat, done: nat): int {
    if k < done && k < |stats| then stats[k] else 0
  }

  function Level(stats: seq<int>, k: nat): int {
    LevelSeen(stats, k, |stats|)
  }

  /** Maximum HP: index 0 gives three per level, index 2 one, index 3 two. */
  function MaxHpFormula(stats: seq<int>): int {
    BaseHp + 3 * Level(stats, 0) + Level(stats, 2) + 2 * Level(stats, 3)
  }

  /** Damage before rounding: index 1 gives two per level, index 2 one,
      index 4 one and a half. */
  function RawDamage(stats: seq<int>): real {
    (BaseDamage + 2 * Level(stats, 1) + Level(stats, 2)) as real + 1.5 * Level(stats, 4) as real
  }

  /** `Math.round`: the nearest integer, halves rounded towards +infinity. */
  function Round(x: real): (r: int)
    ensures r as real - 0.5 <= x < r as real + 0.5
  {
    (x + 0.5).Floor
  }

  /** `applyStats`: walks the levels once, adding each one's bonus to the
      running HP and damage, then rounds the damage. */
  method ApplyStats(stats: seq<int>) returns (maxHp: int, damage: int)
    ensures maxHp == MaxHpFormula(stats)
    ensures damage == Round(RawDamage(stats))
  {
    maxHp := BaseHp;
    var dmg: real := BaseDamage as real;
    var i := 0;
    while i < |stats|
      invariant 0 <= i <= |stats|
      invariant maxHp == BaseHp + 3 * LevelSeen(stats, 0, i) + LevelSeen(stats, 2, i) + 2 * LevelSeen(stats, 3, i)
      invariant dmg == (BaseDamage + 2 * LevelSeen(stats, 1, i) + LevelSeen(stats, 2, i)) as real
                       + 1.5 * LevelSeen(stats, 4, i) as real
    {
      var level := stats[i];
      if i == 0 {
        maxHp := maxHp + level * 3;
      } else if i == 1 {
        dmg := dmg + (level * 2) as real;
      } else if i == 2 {
        maxHp := maxHp + level;
        dmg := dmg + level as real;
      } else if i == 3 {
        maxHp := maxHp + level * 2;
      } else if i == 4 {
        dmg := dmg + level as real * 1.5;
      }
      i := i + 1;
    }
    damage := Round(dmg);
  }

  /** `new Player(name, storyPoints)` with the rolled levels supplied. */
  method NewPlayer(name: string, storyPoints: int, stats: seq<int>) returns (p: Player)
    ensures p.name == name && p.storyPoints == storyPoints && p.stats == stats
    ensures p.maxHp == MaxHpFormula(stats) && p.damage == Round(RawDamage(stats))
  {
    var hp, dmg := ApplyStats(stats);
    p := Player(name, storyPoints, stats, hp, dmg);
  }

  /** The rounded damage in doubled-integer form: the index-4 bonus is
      `3 * level / 2` rounded half up, so an odd level gains the extra half. */
  lemma DamageExact(stats: seq<int>)
    ensures Round(RawDamage(stats))
            == BaseDamage + 2 * Level(stats, 1) + Level(stats, 2) + (3 * Level(stats, 4) + 1) / 2
  {
    var base := BaseDamage + 2 * Level(stats, 1) + Level(stats, 2);
    var l := Level(stats, 4);
    var n := base + (3 * l + 1) / 2;
    var x := RawDamage(stats);
    assert 2.0 * x == (2 * base + 3 * l) as real;
    assert 2 * n <= 2 * base + 3 * l + 1 < 2 * n + 2;
    assert n as real - 0.5 <= x < n as real + 0.5;
  }

  /** For levels rolled by `generateStats`, maximum HP lies in [26, 50] and
      rounded damage in [10, 28]. */
  lemma StatRanges(stats: seq<int>)
    requires RolledStats(stats)
    ensures 26 <= MaxHpFormula(stats) <= 50
    ensures 10 <= Round(RawDamage(stats)) <= 28
  {
    DamageExact(stats);
    var l := Level(stats, 4);
    assert 1 <= l <= 5;
    assert 2 <= (3 * l + 1) / 2 <= 8;
  }

  /** Players built from rolled levels have positive HP and damage. */
  predicate WellFormed(p: Player) {
    p.maxHp > 0 && p.damage > 0
  }

  lemma RolledPlayerWellFormed(p: Player)
    requires RolledStats(p.stats)
    requires p.maxHp == MaxHpFormula(p.stats) && p.damage == Round(RawDamage(p.stats))
    ensures WellFormed(p)
  {
    StatRanges(p.stats);
  }
}
