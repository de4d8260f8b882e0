/** The live battle avatar of game.js (`class Knight`): a position in the
    arena, hit points, and the attack/cooldown counters that a frame of
    keyboard or AI control advances. Distances are compared squared, which
    is exact for the `Math.hypot` tests of the source. */
module Knights {
  import opened Util
  import opened Players

  datatype Team = LeftSide | RightSide

  /** The facing the sprite shows: 'up', 'down', 'left' or 'right'. */
  datatype Direction = FacingUp | FacingDown | FacingLeft | FacingRight

  /** Per-knight constants of the source (`size`, `speed`, `attackRange`). */
  const Size: real := 35.0
  const Speed: real := 8.0
  const AttackRange: real := 100.0
  /** The band at the top of the arena kept clear for the HUD. */
  const HudMargin: real := 50.0
  /** Frames between two attacks. */
  const AttackCooldown: int := 20
  /** The AI re-acquires its target every this many frames. */
  const AiThinkInterval: int := 15
  /** `attackRange * 0.8` and `attackRange`, squared. */
  const ApproachSq: real := 6400.0
  const RangeSq: real := 10000.0

  function SqDist(x1: real, y1: real, x2: real, y2: real): real {
    (x1 - x2) * (x1 - x2) + (y1 - y2) * (y1 - y2)
  }

  /** `Math.max(lo, Math.min(hi, v))`. */
  function Clamp(v: real, lo: real, hi: real): (r: real)
    ensures lo <= r
    ensures lo <= hi ==> r <= hi
    ensures lo <= v <= hi ==> r == v
  {
    if (if hi < v then hi else v) < lo then lo else (if hi < v then hi else v)
  }

  function ClampX(x: real, canvasWidth: real): real {
    Clamp(x, Size, canvasWidth - Size)
  }

  function ClampY(y: real, canvasHeight: real): real {
    Clamp(y, Size + HudMargin, canvasHeight - Size)
  }

  /** The arena is large enough for the clamp bounds to be consistent. */
  predicate RoomyArena(canvasWidth: real, canvasHeight: real) {
    canvasWidth >= 2.0 * Size && canvasHeight >= 2.0 * Size + HudMargin
  }

  predicate InArena(x: real, y: real, canvasWidth: real, canvasHeight: real) {
    Size <= x <= canvasWidth - Size && Size + HudMargin <= y <= canvasHeight - Size
  }

  /** After the boundary check a knight stands inside the arena. */
  lemma ClampedInArena(x: real, y: real, canvasWidth: real, canvasHeight: real)
    requires RoomyArena(canvasWidth, canvasHeight)
    ensures InArena(ClampX(x, canvasWidth), ClampY(y, canvasHeight), canvasWidth, canvasHeight)
  {
  }

  /** Movement keys: arrows or WASD, looked up in the set of held keys. */
  predicate Held(keys: set<string>, arrow: string, letter: string) {
    arrow in keys || letter in keys
  }

  /** Net horizontal and vertical steps of one frame of keyboard control. */
  function StepX(keys: set<string>): real {
    (if Held(keys, "ArrowRight", "d") then Speed else 0.0) - (if Held(keys, "ArrowLeft", "a") then Speed else 0.0)
  }

  function StepY(keys: set<string>): real {
    (if Held(keys, "ArrowDown", "s") then Speed else 0.0) - (if Held(keys, "ArrowUp", "w") then Speed else 0.0)
  }

  /** The direction of the last movement test that succeeded (up, down,
      left, right are tested in that order), or the old one. */
  function KeyDirection(keys: set<string>, old_: Direction): Direction {
    if Held(keys, "ArrowRight", "d") then FacingRight
    else if Held(keys, "ArrowLeft", "a") then FacingLeft
    else if Held(keys, "ArrowDown", "s") then FacingDown
    else if Held(keys, "ArrowUp", "w") then FacingUp
    else old_
  }

  /** The cooldown at the end of a frame that started at `c`: an attack
      (allowed only at 0) sets 20 and the frame's tick takes one off. */
  function CooldownAfterFrame(c: int, fired: bool): int {
    if fired then AttackCooldown - 1 else if c > 0 then c - 1 else c
  }

  /** The cooldown after `n` frames with the attack key held throughout. */
  function HeldCooldown(n: nat): int {
    if n == 0 then 0 else CooldownAfterFrame(HeldCooldown(n - 1), HeldCooldown(n - 1) == 0)
  }

  /** With the attack key held from a standing start, frame `n` (counting
      from 0) fires exactly when `n` is a multiple of 20: attacks come at
      the fixed cadence the cooldown sets. */
  lemma {:induction false} HeldAttackCadence(n: nat)
    ensures HeldCooldown(n) == 0 <==> n % AttackCooldown == 0
    ensures HeldCooldown(n) == (AttackCooldown - n % AttackCooldown) % AttackCooldown
  {
    if n > 0 {
      HeldAttackCadence(n - 1);
    }
  }

  /** HP after a hit of `amount`: `hp - amount`, but never below 0. */
  function AfterDamage(hp: int, amount: int): int {
    if hp - amount < 0 then 0 else hp - amount
  }

  /** A hit never raises HP above what it was or drops it below 0, and it
      kills exactly when the damage reaches the HP. */
  lemma AfterDamageBounds(hp: int, amount: int)
    requires hp >= 0 && amount >= 0
    ensures 0 <= AfterDamage(hp, amount) <= hp
    ensures AfterDamage(hp, amount) > 0 <==> amount < hp
  {
  }

  /** The fields one frame of movement and attacking can change. */
  datatype Motion = Motion(x: real, y: real, direction: Direction, attackCooldown: int,
                           isAttacking: bool, aiThinkTimer: int, aiTarget: Knight?)

  class Knight {
    const player: Player
    const color: string
    const team: Team
    var x: real
    var y: real
    var hp: int
    var isAttacking: bool
    var justAttacked: bool
    var attackCooldown: int
    var aiThinkTimer: int
    var aiTarget: Knight?
    var direction: Direction

    /** HP within [0, maxHp]; the cooldown within [0, 20] and non-zero exactly
        while the attack animation shows; the AI target is always an enemy. */
    ghost predicate Valid()
      reads this
    {
      && 0 <= hp <= player.maxHp
      && 0 <= attackCooldown <= AttackCooldown
      && (isAttacking <==> attackCooldown > 0)
      && aiThinkTimer >= 0
      && (aiTarget != null ==> aiTarget.team != team)
    }

    function Snapshot(): Motion
      reads this
    {
      Motion(x, y, direction, attackCooldown, isAttacking, aiThinkTimer, aiTarget)
    }

    predicate IsAlive()
      reads this
    {
      hp > 0
    }

    constructor (player: Player, x: real, y: real, color: string, team: Team)
      ensures this.player == player && this.x == x && this.y == y
      ensures this.color == color && this.team == team
      ensures hp == player.maxHp && attackCooldown == 0 && aiThinkTimer == 0
      ensures !isAttacking && !justAttacked && aiTarget == null && direction == FacingDown
      ensures player.maxHp >= 0 ==> Valid()
    {
      this.player := player;
      this.x := x;
      this.y := y;
      this.color := color;
      this.team := team;
      hp := player.maxHp;
      isAttacking := false;
      justAttacked := false;
      attackCooldown := 0;
      aiThinkTimer := 0;
      aiTarget := null;
      direction := FacingDown;
    }

    /** `updateCooldowns`: one tick off a running cooldown; the attack
        animation ends exactly when it reaches 0. */
    method UpdateCooldowns()
      modifies this`attackCooldown, this`isAttacking
      ensures attackCooldown == CooldownAfterFrame(old(attackCooldown), false)
      ensures isAttacking == (old(isAttacking) && old(attackCooldown) != 1)
      ensures old(Valid()) ==> Valid()
    {
      if attackCooldown > 0 {
        attackCooldown := attackCooldown - 1;
        if attackCooldown == 0 {
          isAttacking := false;
        }
      }
    }

    /** `attack`: only a knight whose cooldown has run out swings; the swing
        restarts the cooldown and raises the one-shot `justAttacked` flag. */
    method Attack()
      modifies this`isAttacking, this`justAttacked, this`attackCooldown
      ensures old(attackCooldown) == 0 ==> isAttacking && justAttacked && attackCooldown == AttackCooldown
      ensures old(attackCooldown) != 0 ==>
        isAttacking == old(isAttacking) && justAttacked == old(justAttacked) && attackCooldown == old(attackCooldown)
      ensures old(Valid()) ==> Valid()
    {
      if attackCooldown == 0 {
        isAttacking := true;
        justAttacked := true;
        attackCooldown := AttackCooldown;
      }
    }

    /** `takeDamage`: HP drops by `amount` and stops at 0. */
    method TakeDamage(amount: int)
      modifies this`hp
      ensures hp == AfterDamage(old(hp), amount)
      ensures amount >= 0 && old(Valid()) ==> Valid()
    {
      hp := hp - amount;
      if hp < 0 {
        hp := 0;
      }
    }

    /** The movement half of `update`: each held direction key moves the
        knight by `speed` and turns it that way, in the order up, down,
        left, right. */
    static method Steer(keys: set<string>, x: real, y: real, direction: Direction)
      returns (nx: real, ny: real, facing: Direction)
      ensures nx == x + StepX(keys) && ny == y + StepY(keys)
      ensures facing == KeyDirection(keys, direction)
    {
      nx, ny, facing := x, y, direction;
      if Held(keys, "ArrowUp", "w") {
        ny := ny - Speed;
        facing := FacingUp;
      }
      if Held(keys, "ArrowDown", "s") {
        ny := ny + Speed;
        facing := FacingDown;
      }
      if Held(keys, "ArrowLeft", "a") {
        nx := nx - Speed;
        facing := FacingLeft;
      }
      if Held(keys, "ArrowRight", "d") {
        nx := nx + Speed;
        facing := FacingRight;
      }
    }

    /** `update`: one frame of keyboard control (move, maybe attack with
        space, stay inside the arena, tick the cooldown). */
    method Update(keys: set<string>, canvasWidth: real, canvasHeight: real)
      requires Valid()
      modifies this
      ensures Valid()
      ensures x == ClampX(old(x) + StepX(keys), canvasWidth)
      ensures y == ClampY(old(y) + StepY(keys), canvasHeight)
      ensures direction == KeyDirection(keys, old(direction))
      ensures var fired := " " in keys && old(attackCooldown) == 0;
        && attackCooldown == CooldownAfterFrame(old(attackCooldown), fired)
        && justAttacked == (old(justAttacked) || fired)
      ensures isAttacking == (attackCooldown > 0)
      ensures hp == old(hp) && aiThinkTimer == old(aiThinkTimer) && aiTarget == old(aiTarget)
      ensures RoomyArena(canvasWidth, canvasHeight) ==> InArena(x, y, canvasWidth, canvasHeight)
    {
      x, y, direction := Steer(keys, x, y, direction);

      if " " in keys && attackCooldown == 0 {
        Attack();
      }

      x := ClampX(x, canvasWidth);
      y := ClampY(y, canvasHeight);

      UpdateCooldowns();
    }

    /** An alive knight of the other team. */
    static predicate IsEnemy(k: Knight, team: Team)
      reads k
    {
      k.team != team && k.hp > 0
    }

    /** `r` is what `findClosestEnemy` returns for a knight of `team` at
        (`ax`, `ay`): `null` exactly when no enemy is alive, otherwise an alive
        enemy at the least distance, the first one in array order on ties. */
    static ghost predicate IsClosestEnemy(ax: real, ay: real, team: Team, r: Knight?, all: seq<Knight>)
      reads all
    {
      && (r == null <==> forall i :: 0 <= i < |all| ==> !IsEnemy(all[i], team))
      && (r != null ==> exists i :: 0 <= i < |all| && all[i] == r && FirstClosest(ax, ay, team, i, all))
    }

    static ghost predicate FirstClosest(ax: real, ay: real, team: Team, i: int, all: seq<Knight>)
      requires 0 <= i < |all|
      reads all
    {
      && IsEnemy(all[i], team)
      && (forall j :: 0 <= j < |all| && IsEnemy(all[j], team) ==>
            SqDist(ax, ay, all[i].x, all[i].y) <= SqDist(ax, ay, all[j].x, all[j].y))
      && (forall j :: 0 <= j < i && IsEnemy(all[j], team) ==>
            SqDist(ax, ay, all[i].x, all[i].y) < SqDist(ax, ay, all[j].x, all[j].y))
    }

    /** `findClosestEnemy`: a running minimum over the knights, replacing the
        candidate only on a strictly smaller distance. */
    method FindClosestEnemy(allKnights: seq<Knight>) returns (closest: Knight?)
      ensures IsClosestEnemy(x, y, team, closest, allKnights)
      ensures closest != null ==> closest in allKnights && closest.team != team
    {
      closest := null;
      var closestDist: real := 0.0;
      ghost var at := 0;
      for i := 0 to |allKnights|
        invariant closest == null <==> forall j :: 0 <= j < i ==> !IsEnemy(allKnights[j], team)
        invariant closest != null ==> 0 <= at < i && allKnights[at] == closest
        invariant closest != null ==> closestDist == SqDist(x, y, closest.x, closest.y)
        invariant closest != null ==> IsEnemy(allKnights[at], team)
        invariant closest != null ==> forall j :: 0 <= j < i && IsEnemy(allKnights[j], team) ==>
          closestDist <= SqDist(x, y, allKnights[j].x, allKnights[j].y)
        invariant closest != null ==> forall j :: 0 <= j < at && IsEnemy(allKnights[j], team) ==>
          closestDist < SqDist(x, y, allKnights[j].x, allKnights[j].y)
      {
        var knight := allKnights[i];
        if knight.team != team && knight.IsAlive() {
          var dist := SqDist(x, y, knight.x, knight.y);
          if closest == null || dist < closestDist {
            closestDist := dist;
            closest := knight;
            at := i;
          }
        }
      }
      if closest != null {
        assert FirstClosest(x, y, team, at, allKnights);
      }
    }

    /** The targeting half of `updateAI`: the think timer advances, and
        every 15 frames, or when the target is missing or dead, the closest
        enemy becomes the target. */
    method Retarget(allKnights: seq<Knight>)
      requires Valid()
      modifies this`aiThinkTimer, this`aiTarget
      ensures Valid()
      ensures aiThinkTimer == old(aiThinkTimer) + 1
      ensures var t := aiTarget;
        var retarget := aiThinkTimer % AiThinkInterval == 0 || old(aiTarget) == null || old(aiTarget.hp) <= 0;
        && (!retarget ==> t == old(aiTarget))
        && (retarget ==> (t == null || t in allKnights) && old(IsClosestEnemy(x, y, team, t, allKnights)))
    {
      var target := aiTarget;
      if (aiThinkTimer + 1) % AiThinkInterval == 0 || target == null || !target.IsAlive() {
        target := FindClosestEnemy(allKnights);
      }
      aiThinkTimer, aiTarget := aiThinkTimer + 1, target;
    }

    /** The pursuit half of `updateAI`: toward a living target farther than
        80 the knight steps by `step(dx, dy)` (the source's `cos`/`sin` of
        `atan2`, supplied from outside); within 100 of it, with the cooldown
        run out, it swings; then the arena clamp and the cooldown tick. */
    method Pursue(canvasWidth: real, canvasHeight: real, step: (real, real) -> (real, real))
      requires Valid()
      modifies this`x, this`y, this`attackCooldown, this`isAttacking, this`justAttacked
      ensures Valid()
      ensures var t := aiTarget;
        var engaged := t != null && t.hp > 0;
        var dist := if t != null then SqDist(old(x), old(y), t.x, t.y) else 0.0;
        var moved := engaged && dist > ApproachSq;
        var fired := engaged && dist <= RangeSq && old(attackCooldown) == 0;
        && x == ClampX(old(x) + (if moved then step(t.x - old(x), t.y - old(y)).0 else 0.0), canvasWidth)
        && y == ClampY(old(y) + (if moved then step(t.x - old(x), t.y - old(y)).1 else 0.0), canvasHeight)
        && attackCooldown == CooldownAfterFrame(old(attackCooldown), fired)
        && justAttacked == (old(justAttacked) || fired)
      ensures isAttacking == (attackCooldown > 0)
      ensures RoomyArena(canvasWidth, canvasHeight) ==> InArena(x, y, canvasWidth, canvasHeight)
    {
      var nx, ny := x, y;
      var target := aiTarget;
      if target != null && target.IsAlive() {
        var dx := target.x - x;
        var dy := target.y - y;
        var distance := SqDist(x, y, target.x, target.y);

        if distance > ApproachSq {
          var d := step(dx, dy);
          nx, ny := x + d.0, y + d.1;
        }

        if distance <= RangeSq && attackCooldown == 0 {
          Attack();
        }
      }

      x := ClampX(nx, canvasWidth);
      y := ClampY(ny, canvasHeight);

      UpdateCooldowns();
    }

    /** `updateAI`: one frame of computer control, targeting then pursuit. */
    method UpdateAI(allKnights: seq<Knight>, canvasWidth: real, canvasHeight: real,
                    step: (real, real) -> (real, real))
      requires Valid()
      modifies this
      ensures Valid()
      ensures hp == old(hp) && direction == old(direction)
      ensures aiThinkTimer == old(aiThinkTimer) + 1
      ensures var t := aiTarget;
        var retarget := aiThinkTimer % AiThinkInterval == 0 || old(aiTarget) == null || old(aiTarget.hp) <= 0;
        && (!retarget ==> t == old(aiTarget))
        && (retarget ==> (t == null || t in allKnights) && old(IsClosestEnemy(x, y, team, t, allKnights)))
      ensures var t := aiTarget;
        var engaged := t != null && t.hp > 0;
        var dist := if t != null then SqDist(old(x), old(y), t.x, t.y) else 0.0;
        var moved := engaged && dist > ApproachSq;
        var fired := engaged && dist <= RangeSq && old(attackCooldown) == 0;
        && x == ClampX(old(x) + (if moved then step(t.x - old(x), t.y - old(y)).0 else 0.0), canvasWidth)
        && y == ClampY(old(y) + (if moved then step(t.x - old(x), t.y - old(y)).1 else 0.0), canvasHeight)
        && attackCooldown == CooldownAfterFrame(old(attackCooldown), fired)
        && justAttacked == (old(justAttacked) || fired)
      ensures isAttacking == (attackCooldown > 0)
      ensures RoomyArena(canvasWidth, canvasHeight) ==> InArena(x, y, canvasWidth, canvasHeight)
    {
      Retarget(allKnights);
      Pursue(canvasWidth, canvasHeight, step);
    }
  }
}
