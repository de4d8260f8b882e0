/** The `Game` object of game.js as far as the battle goes: the roster with
    its guards, the team split, spawning, and the per-frame battle loop
    with hit resolution and the end check. */
module Battle {
  import opened Util
  import opened Players
  import opened Teams
  import opened Knights

  /** The screen shown (`GameState`). */
  datatype Screen = Estimation | Setup | BattleScreen | WinnerScreen

  /** What `endBattle` announces: a winning side or a draw. */
  datatype Outcome = Won(side: Team) | Draw

  /** Why `addPlayer` did or did not grow the roster (each refusal is an
      alert in the source). */
  datatype AddResult = Added | NameMissing | PointsMissing | RosterFull

  const MaxPlayers := 20
  /** `initCanvas` fixes the arena at 1400 by 800. */
  const CanvasWidth: real := 1400.0
  const CanvasHeight: real := 800.0
  /** Knights spawn 100 in from the side walls, at most 100 apart. */
  const SpawnInset: real := 100.0
  const MaxSpacing: real := 100.0
  const LeftColor := "#FF6B6B"
  const RightColor := "#4ECDC4"

  lemma ArenaIsRoomy()
    ensures RoomyArena(CanvasWidth, CanvasHeight)
  {
  }

  /** The guards of `addPlayer`, in the order the source tests them. */
  function AddCheck(name: string, storyPoints: Option<int>, rosterSize: nat): AddResult {
    if Trim(name) == "" then NameMissing
    else if storyPoints.None? then PointsMissing
    else if rosterSize >= MaxPlayers then RosterFull
    else Added
  }

  /** A player is added exactly when the name has a non-blank character, a
      value was chosen and the roster has room. */
  lemma AddCheckMeaning(name: string, storyPoints: Option<int>, rosterSize: nat)
    ensures AddCheck(name, storyPoints, rosterSize) == Added <==>
      (exists k :: 0 <= k < |name| && !IsTrimSpace(name[k])) && storyPoints.Some? && rosterSize < MaxPlayers
  {
    TrimEmpty(name);
  }

  /** Where `Array.prototype.splice(index, 1)` starts: a negative index
      counts from the end, and both ends are clamped to the array. */
  function SpliceStart(len: nat, index: int): (r: nat)
    ensures r <= len
  {
    if index < 0 then (if len as int + index < 0 then 0 else len as int + index)
    else if index > len then len
    else index
  }

  /** `s.splice(index, 1)` applied to `s`. */
  function RemoveAt<T>(s: seq<T>, index: int): seq<T> {
    var k := SpliceStart(|s|, index);
    if k < |s| then s[..k] + s[k + 1..] else s
  }

  /** Removing by a position of the list drops exactly that element and keeps
      the others in order; any other index leaves a non-empty list shorter
      by one too, except one that lands past the end. */
  lemma RemoveAtFacts<T>(s: seq<T>, index: int)
    ensures 0 <= index < |s| ==> RemoveAt(s, index) == s[..index] + s[index + 1..]
    ensures 0 <= index < |s| ==> multiset(RemoveAt(s, index)) + multiset{s[index]} == multiset(s)
    ensures |RemoveAt(s, index)| == if SpliceStart(|s|, index) < |s| then |s| - 1 else |s|
    ensures index >= |s| ==> RemoveAt(s, index) == s
  {
    if 0 <= index < |s| {
      assert s == s[..index] + [s[index]] + s[index + 1..];
    }
  }

  /** The row of the `i`-th of `n` knights of a team: rows `min(100,
      height / (n + 1))` apart, starting one row down. */
  function SpawnSpacing(n: nat): real {
    var even := CanvasHeight / (n + 1) as real;
    if even < MaxSpacing then even else MaxSpacing
  }

  function SpawnY(i: nat, n: nat): real {
    (i + 1) as real * SpawnSpacing(n)
  }

  /** The knights of a team spawn in distinct rows, top to bottom, strictly
      inside the canvas. */
  lemma SpawnRows(i: nat, j: nat, n: nat)
    requires i < j < n
    ensures 0.0 < SpawnY(i, n) < SpawnY(j, n) < CanvasHeight
  {
    var sp := SpawnSpacing(n);
    assert 0.0 < sp;
    assert sp * (n + 1) as real <= CanvasHeight;
    assert (i + 1) as real * sp < (j + 1) as real * sp;
    assert (j + 1) as real * sp <= n as real * sp < (n + 1) as real * sp;
  }

  /** Number of knights of `side` still alive (the `filter(...).length` of
      the end check). */
  function AliveCount(ks: seq<Knight>, side: Team): (r: nat)
    reads ks
    ensures r <= |ks|
  {
    if ks == [] then 0
    else (if ks[0].team == side && ks[0].hp > 0 then 1 else 0) + AliveCount(ks[1..], side)
  }

  /** The indices of the living knights of `side`. */
  ghost function AliveIndices(ks: seq<Knight>, side: Team): set<int>
    reads ks
  {
    set i | 0 <= i < |ks| && ks[i].team == side && ks[i].hp > 0
  }

  /** The count is the number of living knights of `side`, as the length of
      the filtered array is. */
  lemma {:induction false} AliveCountIsSize(ks: seq<Knight>, side: Team)
    ensures AliveCount(ks, side) == |AliveIndices(ks, side)|
  {
    if ks != [] {
      AliveCountIsSize(ks[1..], side);
      var tail := AliveIndices(ks[1..], side);
      var shifted := set i | i in tail :: i + 1;
      ShiftedSize(tail);
      var head: set<int> := if ks[0].team == side && ks[0].hp > 0 then {0} else {};
      forall i | i in AliveIndices(ks, side) && i > 0 ensures i in shifted {
        assert ks[1..][i - 1] == ks[i];
        assert i - 1 in tail;
      }
      assert AliveIndices(ks, side) == head + shifted;
      assert head * shifted == {};
    }
  }

  /** Adding 1 to every element keeps the size of a set. */
  lemma {:induction false} ShiftedSize(s: set<int>)
    ensures |set i | i in s :: i + 1| == |s|
  {
    if s != {} {
      if forall x :: x !in s {
        assert false;
      }
      var x :| x in s;
      var rest := s - {x};
      ShiftedSize(rest);
      var whole := set i | i in s :: i + 1;
      var part := set i | i in rest :: i + 1;
      forall y | y in whole ensures y in part + {x + 1} {
        assert y - 1 in s;
        if y != x + 1 {
          assert y - 1 in rest;
        }
      }
      assert whole == part + {x + 1};
      assert x + 1 !in part;
    }
  }

  lemma {:induction false} AliveCountZero(ks: seq<Knight>, side: Team)
    ensures AliveCount(ks, side) == 0 <==> forall i :: 0 <= i < |ks| ==> !(ks[i].team == side && ks[i].hp > 0)
  {
    if ks != [] {
      AliveCountZero(ks[1..], side);
      assert forall i :: 1 <= i < |ks| ==> ks[i] == ks[1..][i - 1];
    }
  }

  /** The end check of `updateBattle` on the two alive counts. */
  function Verdict(leftAlive: nat, rightAlive: nat): Option<Outcome> {
    if leftAlive == 0 && rightAlive > 0 then Some(Won(RightSide))
    else if rightAlive == 0 && leftAlive > 0 then Some(Won(LeftSide))
    else if leftAlive == 0 && rightAlive == 0 then Some(Draw)
    else None
  }

  predicate SideAlive(ks: seq<Knight>, side: Team)
    reads ks
  {
    exists i :: 0 <= i < |ks| && ks[i].team == side && ks[i].hp > 0
  }

  /** A side wins exactly when it alone has knights standing, the battle is
      drawn exactly when nobody stands, and it goes on while both sides
      stand. */
  lemma VerdictMeaning(ks: seq<Knight>)
    ensures var v := Verdict(AliveCount(ks, LeftSide), AliveCount(ks, RightSide));
      && (v == Some(Won(RightSide)) <==> !SideAlive(ks, LeftSide) && SideAlive(ks, RightSide))
      && (v == Some(Won(LeftSide)) <==> SideAlive(ks, LeftSide) && !SideAlive(ks, RightSide))
      && (v == Some(Draw) <==> !SideAlive(ks, LeftSide) && !SideAlive(ks, RightSide))
      && (v == None <==> SideAlive(ks, LeftSide) && SideAlive(ks, RightSide))
  {
    AliveCountZero(ks, LeftSide);
    AliveCountZero(ks, RightSide);
  }

  function Announced(v: Option<Outcome>): seq<Outcome> {
    if v.Some? then [v.value] else []
  }

  predicate Distinct(ks: seq<Knight>) {
    forall i, j :: 0 <= i < j < |ks| ==> ks[i] != ks[j]
  }

  /** Between frames: every knight is consistent, carries a well-formed
      player, and no attack is waiting to be resolved. */
  ghost predicate Ready(ks: seq<Knight>)
    reads ks
  {
    Distinct(ks) && forall i :: 0 <= i < |ks| ==> Settled(ks[i])
  }

  ghost predicate Settled(k: Knight)
    reads k
  {
    k.Valid() && WellFormed(k.player) && !k.justAttacked
  }

  /** A settled knight that is not yet listed keeps the list ready. */
  lemma ReadySnoc(ks: seq<Knight>, k: Knight)
    requires Ready(ks) && Settled(k) && k !in ks
    ensures Ready(ks + [k])
  {
    var r := ks + [k];
    forall i | 0 <= i < |r| ensures Settled(r[i]) {
      if i < |ks| {
        assert r[i] == ks[i];
      }
    }
  }

  /** The HP of every knight of `ks`. */
  ghost function HpOf(ks: seq<Knight>): (r: seq<int>)
    reads ks
    ensures |r| == |ks| && forall j :: 0 <= j < |ks| ==> r[j] == ks[j].hp
  {
    if ks == [] then [] else [ks[0].hp] + HpOf(ks[1..])
  }

  /** The motion state of every knight of `ks`. */
  ghost function MotionsOf(ks: seq<Knight>): (r: seq<Motion>)
    reads ks
    ensures |r| == |ks| && forall j :: 0 <= j < |ks| ==> r[j] == ks[j].Snapshot()
  {
    if ks == [] then [] else [ks[0].Snapshot()] + MotionsOf(ks[1..])
  }

  /** The state of the `forEach` of `updateBattle` after the turns of the
      first `i` knights, against their HP `hp0` and motion states `m0` at the
      start of the frame. */
  ghost predicate Progress(ks: seq<Knight>, i: nat, hp0: seq<int>, m0: seq<Motion>, keys: set<string>)
    reads ks
  {
    && |hp0| == |ks| && |m0| == |ks| && i <= |ks|
    && Ready(ks) && Waiting(ks, i, hp0, m0) && Moved(ks, i, hp0, m0, keys)
  }

  /** Before any knight has moved, the loop's progress holds trivially. */
  lemma ProgressAtStart(ks: seq<Knight>, keys: set<string>)
    requires Ready(ks)
    ensures Progress(ks, 0, HpOf(ks), MotionsOf(ks), keys)
  {
    var hp0, m0 := HpOf(ks), MotionsOf(ks);
    assert Waiting(ks, 0, hp0, m0);
    assert |ks| > 0 ==> m0[0] == ks[0].Snapshot();
  }

  /** HP only went down, and the knights dead at the start and those yet to
      move are where they were. */
  ghost predicate Waiting(ks: seq<Knight>, i: nat, hp0: seq<int>, m0: seq<Motion>)
    reads ks
  {
    && |hp0| == |ks| && |m0| == |ks|
    && (forall j :: 0 <= j < |ks| ==> ks[j].hp <= hp0[j])
    && (forall j :: 0 <= j < |ks| && hp0[j] <= 0 ==> ks[j].Snapshot() == m0[j])
    && (forall j :: i <= j < |ks| ==> ks[j].Snapshot() == m0[j])
  }

  /** The living knights that moved are on the arena, knight 0 followed the
      keys and never thinks, and every other living knight that moved
      thought once. */
  ghost predicate Moved(ks: seq<Knight>, i: nat, hp0: seq<int>, m0: seq<Motion>, keys: set<string>)
    reads ks
  {
    && |hp0| == |ks| && |m0| == |ks|
    && (forall j :: 0 <= j < i && j < |ks| && ks[j].hp > 0 ==> InArena(ks[j].x, ks[j].y, CanvasWidth, CanvasHeight))
    && (i == 0 && |ks| > 0 ==> ks[0].hp == hp0[0])
    && (i > 0 && |ks| > 0 && hp0[0] > 0 ==> Steered(m0[0], ks[0].Snapshot(), keys))
    && (|ks| > 0 ==> ks[0].aiThinkTimer == m0[0].aiThinkTimer)
    && (forall j :: 0 < j < i && j < |ks| && ks[j].hp > 0 ==> ks[j].aiThinkTimer == m0[j].aiThinkTimer + 1)
  }

  /** The attack of `a` lands on `t`: an alive knight of the other side,
      not `a` itself, within `attackRange`. */
  predicate Struck(a: Knight, t: Knight)
    reads a, t
  {
    InReach(a, t) && t.hp > 0
  }

  /** `t` is of the other side, not `a` itself, and within `a`'s attack
      range: a swing of `a` lands on `t` if `t` is alive. */
  predicate InReach(a: Knight, t: Knight)
    reads a, t
  {
    t.team != a.team && t != a && SqDist(a.x, a.y, t.x, t.y) <= RangeSq
  }

  /** The knight swung during the frame that took its motion state from
      `before` to `after`: a swing needs the cooldown run out and restarts
      it, so the cooldown leaves 0 exactly then. */
  predicate Swung(before: Motion, after: Motion) {
    before.attackCooldown == 0 && after.attackCooldown > 0
  }

  /** The position and facing of a keyboard-driven knight after one frame
      with `keys` held, from its motion state `before`. */
  predicate Steered(before: Motion, after: Motion, keys: set<string>) {
    && after.x == ClampX(before.x + StepX(keys), CanvasWidth)
    && after.y == ClampY(before.y + StepY(keys), CanvasHeight)
    && after.direction == KeyDirection(keys, before.direction)
  }

  class Game {
    var state: Screen
    var players: seq<Player>
    var startButton: StartButton
    var leftTeam: seq<Player>
    var rightTeam: seq<Player>
    var battleKnights: seq<Knight>
    /** The keys currently held (`keys[k]` is truthy). */
    var keys: set<string>
    /** The announcements `endBattle` has logged, oldest first. */
    var outcomes: seq<Outcome>

    /** The roster never exceeds 20 and every player in it, or in a team,
        has positive HP and damage; the knights are ready for a frame. */
    ghost predicate Valid()
      reads this, battleKnights
    {
      && |players| <= MaxPlayers
      && (forall p :: p in players ==> WellFormed(p))
      && (forall p :: p in leftTeam ==> WellFormed(p))
      && (forall p :: p in rightTeam ==> WellFormed(p))
      && Ready(battleKnights)
    }

    /** `new Game()`. The constructor does not touch the start
        button, so it keeps whatever state the page gave it: `page`. */
    constructor (page: StartButton)
      ensures Valid()
      ensures state == Estimation && players == [] && leftTeam == [] && rightTeam == []
      ensures battleKnights == [] && keys == {} && outcomes == []
      ensures startButton == page
    {
      state := Estimation;
      players := [];
      startButton := page;
      leftTeam := [];
      rightTeam := [];
      battleKnights := [];
      keys := {};
      outcomes := [];
    }

    /** `keydown` / `keyup`. */
    method KeyDown(key: string)
      modifies this`keys
      ensures keys == old(keys) + {key}
    {
      keys := keys + {key};
    }

    method KeyUp(key: string)
      modifies this`keys
      ensures keys == old(keys) - {key}
    {
      keys := keys - {key};
    }

    /** `proceedToSetup`. */
    method ProceedToSetup()
      modifies this`state
      ensures state == Setup
    {
      state := Setup;
    }

    /** `addPlayer` with the trimmed name input, the chosen value (`None` for
        the empty selection) and the levels `generateStats` rolled. */
    method AddPlayer(name: string, storyPoints: Option<int>, stats: seq<int>) returns (result: AddResult)
      requires Valid() && RolledStats(stats)
      modifies this`players, this`startButton
      ensures Valid()
      ensures result == AddCheck(name, storyPoints, |old(players)|)
      ensures result == Added ==>
        && players == old(players) + [Player(Trim(name), storyPoints.value, stats, MaxHpFormula(stats), Round(RawDamage(stats)))]
        && startButton == UpdateStartButton(players)
      ensures result != Added ==> players == old(players) && startButton == old(startButton)
    {
      var trimmed := Trim(name);
      if trimmed == "" {
        return NameMissing;
      }
      if storyPoints.None? {
        return PointsMissing;
      }
      if |players| >= MaxPlayers {
        return RosterFull;
      }
      var player := NewPlayer(trimmed, storyPoints.value, stats);
      RolledPlayerWellFormed(player);
      Enrol(player);
      result := Added;
    }

    /** The push and the start-button refresh at the end of `addPlayer`. */
    method Enrol(player: Player)
      requires Valid() && WellFormed(player) && |players| < MaxPlayers
      modifies this`players, this`startButton
      ensures Valid()
      ensures players == old(players) + [player]
      ensures startButton == UpdateStartButton(players)
    {
      players := players + [player];
      startButton := UpdateStartButton(players);
    }

    /** `removePlayer(index)`: `splice(index, 1)`, then the start button. */
    method RemovePlayer(index: int)
      requires Valid()
      modifies this`players, this`startButton
      ensures Valid()
      ensures players == RemoveAt(old(players), index)
      ensures startButton == UpdateStartButton(players)
    {
      RemoveAtFacts(players, index);
      players := RemoveAt(players, index);
      startButton := UpdateStartButton(players);
    }

    /** One half of `setupAllKnights`: a fresh knight per member of `team`,
        all at `x`, in rows `SpawnY(i, |team|)`. */
    static method SpawnTeam(team: seq<Player>, side: Team, x: real, color: string) returns (ks: seq<Knight>)
      requires forall p :: p in team ==> WellFormed(p)
      ensures |ks| == |team|
      ensures Ready(ks)
      ensures fresh(ks)
      ensures forall i :: 0 <= i < |team| ==> Spawned(ks[i], team[i], side, x, SpawnY(i, |team|))
    {
      ks := [];
      for i := 0 to |team|
        invariant |ks| == i
        invariant Ready(ks)
        invariant fresh(ks)
        invariant forall j :: 0 <= j < i ==> Spawned(ks[j], team[j], side, x, SpawnY(j, |team|))
      {
        var knight := new Knight(team[i], x, SpawnY(i, |team|), color, side);
        assert team[i] in team;
        ReadySnoc(ks, knight);
        ks := ks + [knight];
      }
    }

    /** `setupAllKnights`: the left team at x = 100, then the right team at
        x = width - 100. */
    method SetupAllKnights()
      requires (forall p :: p in leftTeam ==> WellFormed(p)) && (forall p :: p in rightTeam ==> WellFormed(p))
      modifies this`battleKnights
      ensures |battleKnights| == |leftTeam| + |rightTeam|
      ensures Ready(battleKnights)
      ensures fresh(battleKnights)
      ensures forall i :: 0 <= i < |leftTeam| ==> Spawned(battleKnights[i], leftTeam[i], LeftSide, SpawnInset, SpawnY(i, |leftTeam|))
      ensures forall i :: 0 <= i < |rightTeam| ==>
        Spawned(battleKnights[|leftTeam| + i], rightTeam[i], RightSide, CanvasWidth - SpawnInset, SpawnY(i, |rightTeam|))
    {
      var left := SpawnTeam(leftTeam, LeftSide, SpawnInset, LeftColor);
      var right := SpawnTeam(rightTeam, RightSide, CanvasWidth - SpawnInset, RightColor);
      assert forall i, j :: 0 <= i < |left| && 0 <= j < |right| ==> left[i] != right[j];
      battleKnights := left + right;
    }

    /** The knights are the left team's players in order on the left side,
        followed by the right team's on the right side. Player and side are
        fixed at construction, so this holds for the rest of the battle. */
    static predicate Lineup(ks: seq<Knight>, left: seq<Player>, right: seq<Player>) {
      && |ks| == |left| + |right|
      && (forall i :: 0 <= i < |left| ==> ks[i].player == left[i] && ks[i].team == LeftSide)
      && (forall i :: 0 <= i < |right| ==> ks[|left| + i].player == right[i] && ks[|left| + i].team == RightSide)
    }

    /** The motion state of a knight just spawned at (`x`, `y`). */
    static function SpawnPose(x: real, y: real): Motion {
      Motion(x, y, FacingDown, 0, false, 0, null)
    }

    /** A knight as the `Knight` constructor leaves it. */
    static predicate Spawned(k: Knight, p: Player, side: Team, x: real, y: real)
      reads k
    {
      && k.player == p && k.team == side && k.x == x && k.y == y
      && k.hp == p.maxHp && k.attackCooldown == 0 && !k.isAttacking
      && k.aiThinkTimer == 0 && k.aiTarget == null && k.direction == FacingDown
    }

    /** `checkAttackHits`: nothing unless the attacker has an unresolved swing;
        otherwise the flag drops and every knight `Struck` by it (judged as
        it is visited, which is before any change to that knight) takes the
        attacker's damage. Nothing else changes. */
    method CheckAttackHits(attacker: Knight)
      requires Distinct(battleKnights)
      modifies battleKnights, attacker`justAttacked
      ensures forall i :: 0 <= i < |battleKnights| ==> battleKnights[i].Snapshot() == old(battleKnights[i].Snapshot())
      ensures attacker.hp == old(attacker.hp)
      ensures forall i :: 0 <= i < |battleKnights| && battleKnights[i] != attacker ==>
        battleKnights[i].justAttacked == old(battleKnights[i].justAttacked)
      ensures !old(attacker.justAttacked) ==>
        attacker.justAttacked == old(attacker.justAttacked) &&
        forall i :: 0 <= i < |battleKnights| ==> battleKnights[i].hp == old(battleKnights[i].hp)
      ensures old(attacker.justAttacked) ==>
        !attacker.justAttacked &&
        forall i :: 0 <= i < |battleKnights| ==>
          battleKnights[i].hp == if old(Struck(attacker, battleKnights[i]))
                                 then AfterDamage(old(battleKnights[i].hp), attacker.player.damage)
                                 else old(battleKnights[i].hp)
    {
      if !attacker.justAttacked {
        return;
      }
      attacker.justAttacked := false;

      var ks := battleKnights;
      for i := 0 to |ks|
        invariant attacker.hp == old(attacker.hp) && !attacker.justAttacked
        invariant forall j :: 0 <= j < |ks| ==> ks[j].Snapshot() == old(ks[j].Snapshot())
        invariant forall j :: 0 <= j < |ks| && ks[j] != attacker ==> ks[j].justAttacked == old(ks[j].justAttacked)
        invariant forall j :: i <= j < |ks| ==> ks[j].hp == old(ks[j].hp)
        invariant forall j :: 0 <= j < i ==>
          ks[j].hp == if old(Struck(attacker, ks[j])) then AfterDamage(old(ks[j].hp), attacker.player.damage) else old(ks[j].hp)
      {
        var target := ks[i];
        if target.team != attacker.team && target.IsAlive() && target != attacker {
          if SqDist(attacker.x, attacker.y, target.x, target.y) <= RangeSq {
            target.TakeDamage(attacker.player.damage);
          }
        }
      }
    }

    /** The move of a knight alive at its turn: index 0 from the keyboard
        (steering, and a swing on space once the cooldown has run out), the
        others by `updateAI` (retargeting, pursuit and a swing within range).
        Only that knight changes, and it is left with an unresolved swing
        exactly when it swung this frame. */
    method Act(index: nat, step: (real, real) -> (real, real))
      requires index < |battleKnights| && Ready(battleKnights)
      modifies battleKnights[index]
      ensures var k := battleKnights[index];
        && k.Valid() && k.hp == old(k.hp)
        && (!k.isAttacking ==> !k.justAttacked)
        && (k.justAttacked <==> Swung(old(k.Snapshot()), k.Snapshot()))
        && InArena(k.x, k.y, CanvasWidth, CanvasHeight)
        && k.aiThinkTimer == old(k.aiThinkTimer) + (if index > 0 then 1 else 0)
      ensures index == 0 ==> var k := battleKnights[index];
        && Steered(old(k.Snapshot()), k.Snapshot(), keys)
        && (k.justAttacked <==> " " in keys && old(k.attackCooldown) == 0)
      ensures index > 0 ==> var k := battleKnights[index];
        var t := k.aiTarget;
        var retarget := k.aiThinkTimer % AiThinkInterval == 0 || old(k.aiTarget) == null || old(k.aiTarget.hp) <= 0;
        var engaged := t != null && t.hp > 0;
        var dist := if t != null then SqDist(old(k.x), old(k.y), t.x, t.y) else 0.0;
        var moved := engaged && dist > ApproachSq;
        && (!retarget ==> t == old(k.aiTarget))
        && (retarget ==> (t == null || t in battleKnights) && old(Knight.IsClosestEnemy(k.x, k.y, k.team, t, battleKnights)))
        && k.x == ClampX(old(k.x) + (if moved then step(t.x - old(k.x), t.y - old(k.y)).0 else 0.0), CanvasWidth)
        && k.y == ClampY(old(k.y) + (if moved then step(t.x - old(k.x), t.y - old(k.y)).1 else 0.0), CanvasHeight)
        && (k.justAttacked <==> engaged && dist <= RangeSq && old(k.attackCooldown) == 0)
    {
      var knight := battleKnights[index];
      ArenaIsRoomy();
      if index == 0 {
        knight.Update(keys, CanvasWidth, CanvasHeight);
      } else {
        knight.UpdateAI(battleKnights, CanvasWidth, CanvasHeight, step);
      }
    }

    /** One iteration of the `forEach` in `updateBattle`: a knight alive at its
        turn acts and then, if it is attacking, its hits are resolved; a dead
        knight does nothing. A knight loses HP exactly when the acting knight
        was alive and swung this frame and it was alive and in reach of the
        acting knight's new position. */
    method Turn(index: nat, step: (real, real) -> (real, real))
      requires index < |battleKnights| && Ready(battleKnights)
      modifies battleKnights
      ensures Ready(battleKnights)
      ensures var k := battleKnights[index];
        var hit := old(k.hp) > 0 && Swung(old(k.Snapshot()), k.Snapshot());
        forall j :: 0 <= j < |battleKnights| ==>
          battleKnights[j].hp ==
            if hit && old(battleKnights[j].hp) > 0 && InReach(k, battleKnights[j])
            then AfterDamage(old(battleKnights[j].hp), k.player.damage)
            else old(battleKnights[j].hp)
      ensures forall j :: 0 <= j < |battleKnights| ==> battleKnights[j].hp <= old(battleKnights[j].hp)
      ensures forall j :: 0 <= j < |battleKnights| && j != index ==>
        battleKnights[j].Snapshot() == old(battleKnights[j].Snapshot())
      ensures var k := battleKnights[index];
        && (old(k.hp) <= 0 ==> k.Snapshot() == old(k.Snapshot()))
        && (old(k.hp) > 0 ==> InArena(k.x, k.y, CanvasWidth, CanvasHeight))
        && (index == 0 && old(k.hp) > 0 ==> Steered(old(k.Snapshot()), k.Snapshot(), keys))
        && k.aiThinkTimer == old(k.aiThinkTimer) + (if index > 0 && old(k.hp) > 0 then 1 else 0)
    {
      if battleKnights[index].IsAlive() {
        LiveTurn(index, step);
      }
    }

    /** The turn of a knight alive at its turn: its move, then the resolution
        of the swing it may have made. */
    method LiveTurn(index: nat, step: (real, real) -> (real, real))
      requires index < |battleKnights| && Ready(battleKnights) && battleKnights[index].hp > 0
      modifies battleKnights
      ensures Ready(battleKnights)
      ensures var k := battleKnights[index];
        forall j :: 0 <= j < |battleKnights| ==>
          battleKnights[j].hp ==
            if Swung(old(k.Snapshot()), k.Snapshot()) && old(battleKnights[j].hp) > 0 && InReach(k, battleKnights[j])
            then AfterDamage(old(battleKnights[j].hp), k.player.damage)
            else old(battleKnights[j].hp)
      ensures forall j :: 0 <= j < |battleKnights| && j != index ==>
        battleKnights[j].Snapshot() == old(battleKnights[j].Snapshot())
      ensures var k := battleKnights[index];
        && InArena(k.x, k.y, CanvasWidth, CanvasHeight)
        && (index == 0 ==> Steered(old(k.Snapshot()), k.Snapshot(), keys))
        && k.aiThinkTimer == old(k.aiThinkTimer) + (if index > 0 then 1 else 0)
    {
      var knight := battleKnights[index];
      Act(index, step);
      if knight.isAttacking {
        CheckAttackHits(knight);
      }
    }

    /** The `forEach` of `updateBattle`: every knight takes its `Turn` in
        array order. Only knights alive at their turn act, so a knight dead
        at the start of the frame stays as it was; HP only goes down; every
        survivor ends inside the arena; index 0 follows the keyboard and
        never thinks; every other survivor thought once. */
    method AllTurns(step: (real, real) -> (real, real))
      requires Ready(battleKnights)
      modifies battleKnights
      ensures Ready(battleKnights)
      ensures forall j :: 0 <= j < |battleKnights| ==> battleKnights[j].hp <= old(battleKnights[j].hp)
      ensures forall j :: 0 <= j < |battleKnights| && old(battleKnights[j].hp) <= 0 ==>
        battleKnights[j].Snapshot() == old(battleKnights[j].Snapshot()) && battleKnights[j].hp == 0
      ensures forall j :: 0 <= j < |battleKnights| && battleKnights[j].hp > 0 ==>
        InArena(battleKnights[j].x, battleKnights[j].y, CanvasWidth, CanvasHeight)
      ensures |battleKnights| > 0 && old(battleKnights[0].hp) > 0 ==>
        Steered(old(battleKnights[0].Snapshot()), battleKnights[0].Snapshot(), keys)
      ensures |battleKnights| > 0 ==> battleKnights[0].aiThinkTimer == old(battleKnights[0].aiThinkTimer)
      ensures forall j :: 0 < j < |battleKnights| && battleKnights[j].hp > 0 ==>
        battleKnights[j].aiThinkTimer == old(battleKnights[j].aiThinkTimer) + 1
    {
      var ks := battleKnights;
      ghost var hp0 := HpOf(ks);
      ghost var m0 := MotionsOf(ks);
      ProgressAtStart(ks, keys);
      for i := 0 to |ks|
        invariant Progress(ks, i, hp0, m0, keys)
      {
        TakeTurn(i, step, hp0, m0);
      }
    }

    /** One step of the `forEach` of `updateBattle`: the turn of knight `i`. */
    method TakeTurn(i: nat, step: (real, real) -> (real, real), ghost hp0: seq<int>, ghost m0: seq<Motion>)
      requires i < |battleKnights| && Progress(battleKnights, i, hp0, m0, keys)
      modifies battleKnights
      ensures Progress(battleKnights, i + 1, hp0, m0, keys)
    {
      Turn(i, step);
    }

    /** The end check of `updateBattle`. */
    method EndCheck()
      modifies this`outcomes
      ensures outcomes == old(outcomes) +
        Announced(Verdict(AliveCount(battleKnights, LeftSide), AliveCount(battleKnights, RightSide)))
    {
      var leftAlive := AliveCount(battleKnights, LeftSide);
      var rightAlive := AliveCount(battleKnights, RightSide);
      if leftAlive == 0 && rightAlive > 0 {
        EndBattle(Won(RightSide));
      } else if rightAlive == 0 && leftAlive > 0 {
        EndBattle(Won(LeftSide));
      } else if leftAlive == 0 && rightAlive == 0 {
        EndBattle(Draw);
      }
    }

    /** `updateBattle`: all turns, then the end check, which announces the
        result again on every later frame (there is no guard). */
    method UpdateBattle(step: (real, real) -> (real, real))
      requires Ready(battleKnights)
      modifies battleKnights, this`outcomes
      ensures Ready(battleKnights)
      ensures forall j :: 0 <= j < |battleKnights| ==> battleKnights[j].hp <= old(battleKnights[j].hp)
      ensures forall j :: 0 <= j < |battleKnights| && old(battleKnights[j].hp) <= 0 ==>
        battleKnights[j].Snapshot() == old(battleKnights[j].Snapshot()) && battleKnights[j].hp == 0
      ensures forall j :: 0 <= j < |battleKnights| && battleKnights[j].hp > 0 ==>
        InArena(battleKnights[j].x, battleKnights[j].y, CanvasWidth, CanvasHeight)
      ensures |battleKnights| > 0 && old(battleKnights[0].hp) > 0 ==>
        Steered(old(battleKnights[0].Snapshot()), battleKnights[0].Snapshot(), keys)
      ensures |battleKnights| > 0 ==> battleKnights[0].aiThinkTimer == old(battleKnights[0].aiThinkTimer)
      ensures forall j :: 0 < j < |battleKnights| && battleKnights[j].hp > 0 ==>
        battleKnights[j].aiThinkTimer == old(battleKnights[j].aiThinkTimer) + 1
      ensures outcomes == old(outcomes) +
        Announced(Verdict(AliveCount(battleKnights, LeftSide), AliveCount(battleKnights, RightSide)))
    {
      AllTurns(step);
      EndCheck();
    }

    /** `endBattle`: logs the announcement (the frame cancellation and the
        delayed `showWinner` are scheduling). */
    method EndBattle(winner: Outcome)
      modifies this`outcomes
      ensures outcomes == old(outcomes) + [winner]
    {
      outcomes := outcomes + [winner];
    }

    /** One run of the `loop` closure of `startBattleLoop`: a frame of the
        battle while the battle screen is up, nothing otherwise. */
    method Frame(step: (real, real) -> (real, real))
      requires Valid()
      modifies battleKnights, this`outcomes
      ensures Valid()
      ensures state != BattleScreen ==>
        && outcomes == old(outcomes)
        && forall k :: k in battleKnights ==> k.hp == old(k.hp) && k.Snapshot() == old(k.Snapshot())
      ensures state == BattleScreen ==>
        forall j :: 0 <= j < |battleKnights| ==> battleKnights[j].hp <= old(battleKnights[j].hp)
      ensures state == BattleScreen ==>
        forall j :: 0 <= j < |battleKnights| && old(battleKnights[j].hp) <= 0 ==>
          battleKnights[j].Snapshot() == old(battleKnights[j].Snapshot()) && battleKnights[j].hp == 0
      ensures state == BattleScreen ==>
        forall j :: 0 <= j < |battleKnights| && battleKnights[j].hp > 0 ==>
          InArena(battleKnights[j].x, battleKnights[j].y, CanvasWidth, CanvasHeight)
      ensures state == BattleScreen && |battleKnights| > 0 && old(battleKnights[0].hp) > 0 ==>
        Steered(old(battleKnights[0].Snapshot()), battleKnights[0].Snapshot(), keys)
      ensures state == BattleScreen && |battleKnights| > 0 ==>
        battleKnights[0].aiThinkTimer == old(battleKnights[0].aiThinkTimer)
      ensures state == BattleScreen ==>
        forall j :: 0 < j < |battleKnights| && battleKnights[j].hp > 0 ==>
          battleKnights[j].aiThinkTimer == old(battleKnights[j].aiThinkTimer) + 1
      ensures state == BattleScreen ==>
        outcomes == old(outcomes) +
          Announced(Verdict(AliveCount(battleKnights, LeftSide), AliveCount(battleKnights, RightSide)))
    {
      if state != BattleScreen {
        return;
      }
      UpdateBattle(step);
    }

    /** `this.createTeams()`: the teams become `TeamSplit(players)`, both
        non-empty from two players on, with members drawn from the roster. */
    method SplitTeams()
      requires |players| >= 2 && forall p :: p in players ==> WellFormed(p)
      modifies this`leftTeam, this`rightTeam
      ensures (leftTeam, rightTeam) == TeamSplit(players)
      ensures |leftTeam| > 0 && |rightTeam| > 0
      ensures forall p :: p in leftTeam ==> WellFormed(p)
      ensures forall p :: p in rightTeam ==> WellFormed(p)
    {
      leftTeam, rightTeam := CreateTeams(players);
      TeamSplitPermutation(players);
      TeamsNonEmptyFromTwo(players);
      assert forall p :: p in leftTeam ==> p in multiset(leftTeam + rightTeam);
      assert forall p :: p in rightTeam ==> p in multiset(leftTeam + rightTeam);
    }

    /** `startBattle`: with at least two players, split the teams, switch to
        the battle screen, spawn the knights and run the first frame. */
    method StartBattle(step: (real, real) -> (real, real))
      requires Valid()
      modifies this
      ensures Valid()
      ensures |old(players)| < 2 ==> unchanged(this)
      ensures |old(players)| >= 2 ==>
        && players == old(players) && state == BattleScreen
        && (leftTeam, rightTeam) == TeamSplit(players)
        && |leftTeam| > 0 && |rightTeam| > 0
        && |battleKnights| == |leftTeam| + |rightTeam|
        && Lineup(battleKnights, leftTeam, rightTeam)
        && fresh(battleKnights)
        && outcomes == old(outcomes) +
             Announced(Verdict(AliveCount(battleKnights, LeftSide), AliveCount(battleKnights, RightSide)))
      ensures |old(players)| >= 2 ==>
        && (forall j :: 0 <= j < |battleKnights| ==> battleKnights[j].hp <= battleKnights[j].player.maxHp)
        && (forall j :: 0 <= j < |battleKnights| && battleKnights[j].hp > 0 ==>
              InArena(battleKnights[j].x, battleKnights[j].y, CanvasWidth, CanvasHeight))
        && Steered(SpawnPose(SpawnInset, SpawnY(0, |leftTeam|)), battleKnights[0].Snapshot(), keys)
        && battleKnights[0].aiThinkTimer == 0
        && (forall j :: 0 < j < |battleKnights| && battleKnights[j].hp > 0 ==> battleKnights[j].aiThinkTimer == 1)
    {
      if |players| < 2 {
        return;
      }
      Deploy();
      assert battleKnights[0].Snapshot() == SpawnPose(SpawnInset, SpawnY(0, |leftTeam|));
      Frame(step);
    }

    /** The part of `startBattle` before the first frame: split the teams,
        switch to the battle screen and spawn the knights. */
    method Deploy()
      requires Valid() && |players| >= 2
      modifies this`leftTeam, this`rightTeam, this`state, this`battleKnights
      ensures Valid()
      ensures state == BattleScreen
      ensures (leftTeam, rightTeam) == TeamSplit(players)
      ensures |leftTeam| > 0 && |rightTeam| > 0
      ensures |battleKnights| == |leftTeam| + |rightTeam|
      ensures Lineup(battleKnights, leftTeam, rightTeam)
      ensures fresh(battleKnights)
      ensures forall j :: 0 <= j < |battleKnights| ==>
        battleKnights[j].hp == battleKnights[j].player.maxHp && battleKnights[j].aiThinkTimer == 0
      ensures battleKnights[0].Snapshot() == SpawnPose(SpawnInset, SpawnY(0, |leftTeam|))
    {
      SplitTeams();
      state := BattleScreen;
      SetupAllKnights();
      forall j | 0 <= j < |battleKnights|
        ensures battleKnights[j].hp == battleKnights[j].player.maxHp && battleKnights[j].aiThinkTimer == 0
      {
        if j < |leftTeam| {
          assert Spawned(battleKnights[j], leftTeam[j], LeftSide, SpawnInset, SpawnY(j, |leftTeam|));
        } else {
          var i := j - |leftTeam|;
          assert Spawned(battleKnights[|leftTeam| + i], rightTeam[i], RightSide,
                         CanvasWidth - SpawnInset, SpawnY(i, |rightTeam|));
        }
      }
      assert Spawned(battleKnights[0], leftTeam[0], LeftSide, SpawnInset, SpawnY(0, |leftTeam|));
    }

    /** `reset`: back to the estimation screen with an empty roster, no
        teams, no knights and an empty battle log. */
    method Reset()
      modifies this
      ensures Valid()
      ensures state == Estimation && players == [] && leftTeam == [] && rightTeam == []
      ensures battleKnights == [] && outcomes == [] && keys == old(keys)
      ensures startButton == UpdateStartButton([])
    {
      players := [];
      battleKnights := [];
      leftTeam, rightTeam := [], [];
      state := Estimation;
      startButton := UpdateStartButton(players);
      outcomes := [];
    }
  }
}
