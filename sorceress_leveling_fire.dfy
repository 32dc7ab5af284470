/** The fire sorceress used for levelling: how she engages a target tick by
    tick, her boss procedures, and her build tables.

    The game is a trace of snapshots indexed by tick (`Game.world`); an
    engagement reads one snapshot per attack it issues. Attacks, precasts
    and moves are entries of a log; their effect on the game is whatever
    the following snapshots show. */
module SorceressLevelingFire {
  import opened GameData

  const MaxAttacksLoop := 10
  const MinDistance := 25
  const MaxDistance := 30
  const MeleeDistance := 3

  /** A distance envelope: the attack is issued from between `near` and `far`. */
  datatype Range = Range(near: int, far: int)

  datatype Action =
    | PrimaryAttack(target: UnitId, times: nat, standStill: bool, range: Range)
    | SecondaryAttack(skill: SkillId, target: UnitId, times: nat, range: Range)
    | MoveTo(to: Position)

  /** Why an engagement returned. The source returns nil in every case;
      OutOfTicks is the model's tick budget running out. */
  datatype StopReason = NoTarget | PreBattleFailed | AttackCeiling | NotFoundById | OutOfTicks

  /** What the engagement reads but does not decide: the snapshot at each
      tick, the tick budget of one engagement, the pre-battle check of the
      base character, and the configured difficulty. */
  datatype Game = Game(
    world: nat -> Snapshot,
    tickBudget: nat,
    preBattleChecks: (Snapshot, UnitId, seq<Resist>) -> bool,
    difficulty: Difficulty)

  type Selector = Snapshot -> Option<UnitId>

  // ---------------------------------------------------------------------
  // Choosing the attack of one tick
  // ---------------------------------------------------------------------

  /** A ranged attack skill and how many casts make up one attack. */
  datatype Technique = Technique(skill: SkillId, casts: nat)

  /** The ranged attacks in the order they are tried. */
  const AttackChain: seq<Technique> :=
    [Technique(Blizzard, 1), Technique(Meteor, 1), Technique(FireBall, 4), Technique(FireBolt, 4)]

  /** The index of the first technique of `chain` whose skill is in `allowed`. */
  function FirstMatch(chain: seq<Technique>, allowed: set<SkillId>): (r: Option<nat>)
    ensures r.Some? ==> r.value < |chain| && chain[r.value].skill in allowed
    ensures r.Some? ==> forall j :: 0 <= j < r.value ==> chain[j].skill !in allowed
    ensures r.None? <==> forall j :: 0 <= j < |chain| ==> chain[j].skill !in allowed
  {
    if |chain| == 0 then None
    else if chain[0].skill in allowed then Some(0)
    else match FirstMatch(chain[1..], allowed)
      case None => None
      case Some(i) => Some(i + 1)
  }

  lemma AttackChainOrder(allowed: set<SkillId>)
    ensures FirstMatch(AttackChain, allowed) ==
      if Blizzard in allowed then Some(0)
      else if Meteor in allowed then Some(1)
      else if FireBall in allowed then Some(2)
      else if FireBolt in allowed then Some(3)
      else None
  {
    var c := AttackChain;
    assert |c| == 4 && c[0].skill == Blizzard && c[1].skill == Meteor && c[2].skill == FireBall && c[3].skill == FireBolt;
    var r := FirstMatch(c, allowed);
    if r.Some? {
      assert c[r.value].skill in allowed;
    }
  }

  /** Below 15% mana and below level 15 the sorceress falls back to melee. */
  predicate LowOnMana(p: Player) {
    p.mpPercent < 15 && p.level < 15
  }

  function MeleeFallback(id: UnitId): Action {
    PrimaryAttack(id, 1, false, Range(1, MeleeDistance))
  }

  /** The attack one tick issues against `id`, given the snapshot: melee when
      low on mana, otherwise the first bound skill of Blizzard, Meteor, Fire
      Ball and Fire Bolt from 25..30, and melee when none is bound. */
  function PlannedAttack(s: Snapshot, id: UnitId): (a: Action)
    ensures !a.MoveTo? && a.target == id
  {
    if LowOnMana(s.player) then MeleeFallback(id)
    else if Blizzard in s.bindings then SecondaryAttack(Blizzard, id, 1, Range(MinDistance, MaxDistance))
    else if Meteor in s.bindings then SecondaryAttack(Meteor, id, 1, Range(MinDistance, MaxDistance))
    else if FireBall in s.bindings then SecondaryAttack(FireBall, id, 4, Range(MinDistance, MaxDistance))
    else if FireBolt in s.bindings then SecondaryAttack(FireBolt, id, 4, Range(MinDistance, MaxDistance))
    else MeleeFallback(id)
  }

  /** The same choice read off the table: the first technique of the chain
      whose skill is bound. */
  function ChainAttack(s: Snapshot, id: UnitId): Action {
    if LowOnMana(s.player) then MeleeFallback(id)
    else match FirstMatch(AttackChain, s.bindings)
      case None => MeleeFallback(id)
      case Some(i) => SecondaryAttack(AttackChain[i].skill, id, AttackChain[i].casts, Range(MinDistance, MaxDistance))
  }

  /** The if-else chain and the table agree on every snapshot. */
  lemma PlannedAttackFollowsChain(s: Snapshot, id: UnitId)
    ensures PlannedAttack(s, id) == ChainAttack(s, id)
  {
    AttackChainOrder(s.bindings);
  }

  /** A ranged attack uses a bound skill of the chain, every earlier one
      being unbound, from 25..30; melee happens exactly when mana is low or
      no chain skill is bound. */
  lemma PlannedAttackSpec(s: Snapshot, id: UnitId)
    ensures PlannedAttack(s, id).SecondaryAttack? ==> PlannedAttack(s, id).skill in s.bindings
    ensures PlannedAttack(s, id).PrimaryAttack? <==>
      LowOnMana(s.player) || forall j :: 0 <= j < |AttackChain| ==> AttackChain[j].skill !in s.bindings
    ensures PlannedAttack(s, id).PrimaryAttack? ==> PlannedAttack(s, id) == MeleeFallback(id)
    ensures PlannedAttack(s, id).SecondaryAttack? ==>
      && PlannedAttack(s, id).range == Range(MinDistance, MaxDistance)
      && exists i :: 0 <= i < |AttackChain| && AttackChain[i] == Technique(PlannedAttack(s, id).skill, PlannedAttack(s, id).times)
           && forall j :: 0 <= j < i ==> AttackChain[j].skill !in s.bindings
  {
    PlannedAttackFollowsChain(s, id);
  }

  // ---------------------------------------------------------------------
  // The engagement loop
  // ---------------------------------------------------------------------

  /** The engagement from tick `t`, when the previous tick attacked `prev`
      and left the counter at `count`, with `left` ticks of budget: why it
      stops and the attacks it issues, one per tick. */
  function Engage(g: Game, sel: Selector, imm: seq<Resist>, t: nat, prev: int, count: nat, left: nat)
    : (StopReason, seq<Action>)
    decreases left, 1
  {
    if left == 0 then (OutOfTicks, []) else EngageAt(g, sel, imm, t, prev, count, left)
  }

  /** One tick of the engagement, with budget to spare: select, reset the
      counter on a new target, check, stop at the ceiling, look the target
      up, attack and go on. */
  function EngageAt(g: Game, sel: Selector, imm: seq<Resist>, t: nat, prev: int, count: nat, left: nat)
    : (StopReason, seq<Action>)
    requires left > 0
    decreases left, 0
  {
    var s := g.world(t);
    match sel(s)
    case None => (NoTarget, [])
    case Some(id) =>
      var c := if prev != id then 0 else count;
      if !g.preBattleChecks(s, id, imm) then (PreBattleFailed, [])
      else if c >= MaxAttacksLoop then (AttackCeiling, [])
      else if FindById(s.monsters, id).None? then (NotFoundById, [])
      else
        var rest := Engage(g, sel, imm, t + 1, id, c + 1, left - 1);
        (rest.0, [PlannedAttack(s, id)] + rest.1)
  }

  /** One attack per tick at most; only a run that uses every tick stops
      for lack of ticks. */
  lemma {:induction false} EngageLength(g: Game, sel: Selector, imm: seq<Resist>, t: nat, prev: int, count: nat, left: nat)
    ensures |Engage(g, sel, imm, t, prev, count, left).1| <= left
    ensures Engage(g, sel, imm, t, prev, count, left).0 == OutOfTicks <==> |Engage(g, sel, imm, t, prev, count, left).1| == left
    decreases left
  {
    if left > 0 {
      assert Engage(g, sel, imm, t, prev, count, left) == EngageAt(g, sel, imm, t, prev, count, left);
      var s := g.world(t);
      match sel(s) {
        case None =>
        case Some(id) =>
          var c := if prev != id then 0 else count;
          EngageLength(g, sel, imm, t + 1, id, c + 1, left - 1);
      }
    }
  }

  /** At tick `t` the selector found a target that passed the pre-battle
      check and is in the monster list, and `a` is the planned attack on it. */
  predicate AttackedAt(g: Game, sel: Selector, imm: seq<Resist>, t: nat, a: Action) {
    var s := g.world(t);
    && sel(s).Some?
    && g.preBattleChecks(s, sel(s).value, imm)
    && FindById(s.monsters, sel(s).value).Some?
    && a == PlannedAttack(s, sel(s).value)
  }

  /** What the snapshot at tick `t` shows when the engagement stops there. */
  predicate StoppedAt(g: Game, sel: Selector, imm: seq<Resist>, t: nat, reason: StopReason) {
    var s := g.world(t);
    match reason
    case NoTarget => sel(s).None?
    case PreBattleFailed => sel(s).Some? && !g.preBattleChecks(s, sel(s).value, imm)
    case AttackCeiling => sel(s).Some? && g.preBattleChecks(s, sel(s).value, imm)
    case NotFoundById =>
      sel(s).Some? && g.preBattleChecks(s, sel(s).value, imm) && FindById(s.monsters, sel(s).value).None?
    case OutOfTicks => true
  }

  /** Attack k is issued at tick t + k against that tick's selection, and the
      engagement stops for a reason the stopping tick shows. */
  lemma {:induction false} EngageFollowsPlan(g: Game, sel: Selector, imm: seq<Resist>, t: nat, prev: int, count: nat, left: nat)
    ensures forall k :: 0 <= k < |Engage(g, sel, imm, t, prev, count, left).1| ==> AttackedAt(g, sel, imm, t + k, Engage(g, sel, imm, t, prev, count, left).1[k])
    ensures StoppedAt(g, sel, imm, t + |Engage(g, sel, imm, t, prev, count, left).1|, Engage(g, sel, imm, t, prev, count, left).0)
    decreases left
  {
    if left > 0 {
      assert Engage(g, sel, imm, t, prev, count, left) == EngageAt(g, sel, imm, t, prev, count, left);
      var s := g.world(t);
      match sel(s) {
        case None =>
        case Some(id) =>
          var c := if prev != id then 0 else count;
          if g.preBattleChecks(s, id, imm) && c < MaxAttacksLoop && FindById(s.monsters, id).Some? {
            EngageFollowsPlan(g, sel, imm, t + 1, id, c + 1, left - 1);
            var r := Engage(g, sel, imm, t, prev, count, left);
            var rest := Engage(g, sel, imm, t + 1, id, c + 1, left - 1);
            assert r.1 == [PlannedAttack(s, id)] + rest.1;
            forall k | 0 <= k < |r.1| ensures AttackedAt(g, sel, imm, t + k, r.1[k]) {
              if k > 0 {
                assert AttackedAt(g, sel, imm, (t + 1) + (k - 1), rest.1[k - 1]);
              }
            }
            assert t + |r.1| == (t + 1) + |rest.1|;
          }
      }
    }
  }

  /** The number of attacks at the end of `a` that all hit `x`. */
  function TrailingRun(a: seq<Action>, x: UnitId): (n: nat)
    ensures n <= |a|
  {
    if |a| == 0 then 0
    else
      var r := TrailingRun(a[1..], x);
      if r == |a| - 1 && !a[0].MoveTo? && a[0].target == x then |a| else r
  }

  /** The engagement stops at the ceiling only when the target selected at
      the stopping tick has just taken MaxAttacksLoop attacks in a row; a
      run reaching back to the start of a continued target also counts the
      attacks carried in. */
  lemma {:induction false} EngageCeilingAfterFullRun(g: Game, sel: Selector, imm: seq<Resist>, t: nat, prev: int, count: nat, left: nat)
    requires count <= MaxAttacksLoop
    ensures var e := Engage(g, sel, imm, t, prev, count, left);
      var s := g.world(t + |e.1|);
      e.0 == AttackCeiling ==>
        && sel(s).Some?
        && TrailingRun(e.1, sel(s).value)
           + (if TrailingRun(e.1, sel(s).value) == |e.1| && sel(s).value == prev then count else 0) == MaxAttacksLoop
    decreases left
  {
    if left > 0 {
      assert Engage(g, sel, imm, t, prev, count, left) == EngageAt(g, sel, imm, t, prev, count, left);
      var s := g.world(t);
      match sel(s) {
        case None =>
        case Some(id) =>
          var c := if prev != id then 0 else count;
          if g.preBattleChecks(s, id, imm) && c < MaxAttacksLoop && FindById(s.monsters, id).Some? {
            EngageCeilingAfterFullRun(g, sel, imm, t + 1, id, c + 1, left - 1);
            var a := Engage(g, sel, imm, t, prev, count, left).1;
            var rest := Engage(g, sel, imm, t + 1, id, c + 1, left - 1).1;
            assert a == [PlannedAttack(s, id)] + rest;
            assert a[1..] == rest;
            assert t + |a| == (t + 1) + |rest|;
          }
      }
    }
  }

  /** Attacks i .. j-1 of `a` all hit one target. */
  predicate OneTargetRun(a: seq<Action>, i: int, j: int) {
    && 0 <= i < j <= |a|
    && !a[i].MoveTo?
    && forall k :: i <= k < j ==> !a[k].MoveTo? && a[k].target == a[i].target
  }

  /** A run in `[x] + rest` that reaches past `x` continues in `rest`. */
  lemma RunInTail(x: Action, rest: seq<Action>, i: int, j: int)
    requires OneTargetRun([x] + rest, i, j) && j > 1
    ensures var i' := if i == 0 then 0 else i - 1;
      OneTargetRun(rest, i', j - 1) && rest[i'].target == ([x] + rest)[i].target
  {
    var a := [x] + rest;
    var i' := if i == 0 then 0 else i - 1;
    forall k | i' <= k < j - 1 ensures !rest[k].MoveTo? && rest[k].target == a[i].target {
      assert rest[k] == a[k + 1];
    }
  }

  /** No more than MaxAttacksLoop consecutive attacks hit one target; a run
      that continues the previous tick's target also counts the attacks
      already made on it. */
  lemma {:induction false} EngageRunsBounded(g: Game, sel: Selector, imm: seq<Resist>, t: nat, prev: int, count: nat, left: nat)
    requires count <= MaxAttacksLoop
    ensures forall j :: OneTargetRun(Engage(g, sel, imm, t, prev, count, left).1, 0, j) && Engage(g, sel, imm, t, prev, count, left).1[0].target == prev ==> j + count <= MaxAttacksLoop
    ensures forall i, j :: OneTargetRun(Engage(g, sel, imm, t, prev, count, left).1, i, j) ==> j - i <= MaxAttacksLoop
    decreases left
  {
    if left > 0 {
      assert Engage(g, sel, imm, t, prev, count, left) == EngageAt(g, sel, imm, t, prev, count, left);
      var s := g.world(t);
      match sel(s) {
        case None =>
        case Some(id) =>
          var c := if prev != id then 0 else count;
          if g.preBattleChecks(s, id, imm) && c < MaxAttacksLoop && FindById(s.monsters, id).Some? {
            EngageRunsBounded(g, sel, imm, t + 1, id, c + 1, left - 1);
            var a := Engage(g, sel, imm, t, prev, count, left).1;
            var rest := Engage(g, sel, imm, t + 1, id, c + 1, left - 1).1;
            var x := PlannedAttack(s, id);
            assert a == [x] + rest;
            assert x.target == id;
            forall j | OneTargetRun(a, 0, j) && a[0].target == prev ensures j + count <= MaxAttacksLoop {
              assert c == count;
              if j > 1 {
                RunInTail(x, rest, 0, j);
                assert OneTargetRun(rest, 0, j - 1) && rest[0].target == id;
                assert j - 1 + (c + 1) <= MaxAttacksLoop;
              }
            }
            forall i, j | OneTargetRun(a, i, j) ensures j - i <= MaxAttacksLoop {
              if j > 1 {
                RunInTail(x, rest, i, j);
                if i == 0 {
                  assert OneTargetRun(rest, 0, j - 1) && rest[0].target == id;
                  assert j - 1 + (c + 1) <= MaxAttacksLoop;
                } else {
                  assert OneTargetRun(rest, i - 1, j - 1);
                }
              }
            }
          }
      }
    }
  }

  /** How many more attacks a target may take: a new target gets the full
      ceiling, the previous one what is left of it. */
  function AttacksLeft(prev: int, count: nat, x: UnitId): int {
    if x == prev then MaxAttacksLoop - count else MaxAttacksLoop
  }

  /** Entry k of `log` is the attack planned against `x` at tick t + k. */
  predicate AttacksOnFrom(g: Game, t: nat, x: UnitId, log: seq<Action>) {
    forall k :: 0 <= k < |log| ==> log[k] == PlannedAttack(g.world(t + k), x)
  }

  lemma AttacksOnFromCons(g: Game, t: nat, x: UnitId, log: seq<Action>)
    requires AttacksOnFrom(g, t + 1, x, log)
    ensures AttacksOnFrom(g, t, x, [PlannedAttack(g.world(t), x)] + log)
  {
    var l := [PlannedAttack(g.world(t), x)] + log;
    forall k | 0 <= k < |l| ensures l[k] == PlannedAttack(g.world(t + k), x) {
      if k > 0 {
        assert l[k] == log[k - 1] == PlannedAttack(g.world((t + 1) + (k - 1)), x);
      }
    }
  }

  /** A target that stays selected, passes the checks and stays in the list
      takes exactly the attacks left to it, and the next tick stops at the
      ceiling. For a new target the counter carried in has no effect. */
  lemma {:induction false} EngageStuckTarget(g: Game, sel: Selector, imm: seq<Resist>, t: nat, prev: int, count: nat, left: nat, x: UnitId)
    requires count <= MaxAttacksLoop
    requires AttacksLeft(prev, count, x) < left
    requires forall u: nat :: t <= u <= t + AttacksLeft(prev, count, x) ==>
      sel(g.world(u)) == Some(x) && g.preBattleChecks(g.world(u), x, imm)
    requires forall u: nat :: t <= u < t + AttacksLeft(prev, count, x) ==> FindById(g.world(u).monsters, x).Some?
    ensures Engage(g, sel, imm, t, prev, count, left).0 == AttackCeiling
    ensures |Engage(g, sel, imm, t, prev, count, left).1| == AttacksLeft(prev, count, x)
    ensures AttacksOnFrom(g, t, x, Engage(g, sel, imm, t, prev, count, left).1)
    decreases left
  {
    var n := AttacksLeft(prev, count, x);
    var s := g.world(t);
    assert Engage(g, sel, imm, t, prev, count, left) == EngageAt(g, sel, imm, t, prev, count, left);
    assert sel(s) == Some(x) && g.preBattleChecks(s, x, imm);
    if n > 0 {
      assert FindById(s.monsters, x).Some?;
      var c := if prev != x then 0 else count;
      assert AttacksLeft(x, c + 1, x) == n - 1;
      EngageStuckTarget(g, sel, imm, t + 1, x, c + 1, left - 1, x);
      var rest := Engage(g, sel, imm, t + 1, x, c + 1, left - 1);
      assert Engage(g, sel, imm, t, prev, count, left) == (rest.0, [PlannedAttack(s, x)] + rest.1);
      AttacksOnFromCons(g, t, x, rest.1);
    }
  }

  /** An engagement outcome with `done` attacks issued before it. */
  function Resumed(done: seq<Action>, e: (StopReason, seq<Action>)): (StopReason, seq<Action>) {
    (e.0, done + e.1)
  }

  lemma ResumedTwice(a: seq<Action>, b: seq<Action>, e: (StopReason, seq<Action>))
    ensures Resumed(a, Resumed(b, e)) == Resumed(a + b, e)
  {
    assert a + (b + e.1) == (a + b) + e.1;
  }

  /** What the lemmas above say about an engagement started afresh. */
  lemma FreshEngagementFacts(g: Game, sel: Selector, imm: seq<Resist>, start: nat, reason: StopReason, attacks: seq<Action>)
    requires (reason, attacks) == Engage(g, sel, imm, start, 0, 0, g.tickBudget)
    ensures |attacks| <= g.tickBudget
    ensures forall k :: 0 <= k < |attacks| ==> AttackedAt(g, sel, imm, start + k, attacks[k])
    ensures StoppedAt(g, sel, imm, start + |attacks|, reason)
    ensures forall i, j :: OneTargetRun(attacks, i, j) ==> j - i <= MaxAttacksLoop
  {
    EngageLength(g, sel, imm, start, 0, 0, g.tickBudget);
    EngageFollowsPlan(g, sel, imm, start, 0, 0, g.tickBudget);
    EngageRunsBounded(g, sel, imm, start, 0, 0, g.tickBudget);
  }

  /** One pass of the loop in `KillMonsterSequence` at tick `t`: either why
      the loop returns, or the attack it issues together with the target and
      counter the next pass starts from. */
  method EngageTick(g: Game, t: nat, monsterSelector: Selector, skipOnImmunities: seq<Resist>,
                    previousUnitID: int, completedAttackLoops: nat, ghost left: nat)
    returns (stop: Option<StopReason>, attack: Action, id: UnitId, attacksOnId: nat)
    requires left > 0
    ensures stop.Some? ==>
      Engage(g, monsterSelector, skipOnImmunities, t, previousUnitID, completedAttackLoops, left) == (stop.value, [])
    ensures stop.None? ==>
      && attacksOnId == (if previousUnitID == id then completedAttackLoops + 1 else 1)
      && Engage(g, monsterSelector, skipOnImmunities, t, previousUnitID, completedAttackLoops, left)
         == Resumed([attack], Engage(g, monsterSelector, skipOnImmunities, t + 1, id, attacksOnId, left - 1))
  {
    attack, id, attacksOnId := MoveTo(Position(0, 0)), 0, 0;
    assert Engage(g, monsterSelector, skipOnImmunities, t, previousUnitID, completedAttackLoops, left)
        == EngageAt(g, monsterSelector, skipOnImmunities, t, previousUnitID, completedAttackLoops, left);
    var s := g.world(t);
    var target := monsterSelector(s);
    if target.None? {
      return Some(NoTarget), attack, id, attacksOnId;
    }
    id := target.value;
    var count := completedAttackLoops;
    if previousUnitID != id {
      count := 0;
    }
    if !g.preBattleChecks(s, id, skipOnImmunities) {
      return Some(PreBattleFailed), attack, id, attacksOnId;
    }
    if count >= MaxAttacksLoop {
      return Some(AttackCeiling), attack, id, attacksOnId;
    }
    var monster := FindById(s.monsters, id);
    if monster.None? {
      return Some(NotFoundById), attack, id, attacksOnId;
    }
    if s.player.mpPercent < 15 && s.player.level < 15 {
      attack := PrimaryAttack(id, 1, false, Range(1, MeleeDistance));
    } else {
      if Blizzard in s.bindings {
        attack := SecondaryAttack(Blizzard, id, 1, Range(MinDistance, MaxDistance));
      } else if Meteor in s.bindings {
        attack := SecondaryAttack(Meteor, id, 1, Range(MinDistance, MaxDistance));
      } else if FireBall in s.bindings {
        attack := SecondaryAttack(FireBall, id, 4, Range(MinDistance, MaxDistance));
      } else if FireBolt in s.bindings {
        attack := SecondaryAttack(FireBolt, id, 4, Range(MinDistance, MaxDistance));
      } else {
        attack := PrimaryAttack(id, 1, false, Range(1, MeleeDistance));
      }
    }
    stop, attacksOnId := None, count + 1;
  }

  /** The source's `KillMonsterSequence`: select, reset the counter on a new
      target, check, stop at the ceiling, look the target up, attack; until
      the tick budget runs out. */
  method KillMonsterSequence(g: Game, start: nat, monsterSelector: Selector, skipOnImmunities: seq<Resist>)
    returns (reason: StopReason, attacks: seq<Action>)
    ensures (reason, attacks) == Engage(g, monsterSelector, skipOnImmunities, start, 0, 0, g.tickBudget)
  {
    var completedAttackLoops: nat := 0;
    var previousUnitID := 0;
    var t, left := start, g.tickBudget;
    attacks := [];
    reason := OutOfTicks;
    ghost var whole := Engage(g, monsterSelector, skipOnImmunities, start, 0, 0, g.tickBudget);
    assert [] + whole.1 == whole.1;
    while left > 0
      invariant whole == Resumed(attacks, Engage(g, monsterSelector, skipOnImmunities, t, previousUnitID, completedAttackLoops, left))
    {
      var stop, attack, id, attacksOnId :=
        EngageTick(g, t, monsterSelector, skipOnImmunities, previousUnitID, completedAttackLoops, left);
      if stop.Some? {
        reason := stop.value;
        assert attacks + [] == attacks;
        return;
      }
      ResumedTwice(attacks, [attack], Engage(g, monsterSelector, skipOnImmunities, t + 1, id, attacksOnId, left - 1));
      attacks, completedAttackLoops, previousUnitID, t, left := attacks + [attack], attacksOnId, id, t + 1, left - 1;
    }
    assert attacks + [] == attacks;
  }

  // ---------------------------------------------------------------------
  // Selectors and boss procedures
  // ---------------------------------------------------------------------

  function IdOf(m: Option<Monster>): Option<UnitId> {
    if m.Some? then Some(m.value.unitId) else None
  }

  /** The selector of `killMonster`: the first monster with this name and type. */
  function ByNameAndType(name: NpcId, kind: MonsterType): Selector {
    (s: Snapshot) => IdOf(FindOne(s.monsters, name, kind))
  }

  /** The source's `killMonster`: an engagement against a named monster,
      with no immunities to skip. */
  method KillMonster(g: Game, start: nat, name: NpcId, kind: MonsterType)
    returns (reason: StopReason, attacks: seq<Action>)
    ensures (reason, attacks) == Engage(g, ByNameAndType(name, kind), [], start, 0, 0, g.tickBudget)
  {
    reason, attacks := KillMonsterSequence(g, start, ByNameAndType(name, kind), []);
  }

  /** The boss procedures that are one `killMonster` call and nothing else. */
  datatype PlainKill = KillCountess | KillAndariel | KillSummoner | KillMephisto | KillPindle | KillNihlathak

  /** The name and type each of them hunts. */
  function PlainKillTarget(k: PlainKill): (NpcId, MonsterType) {
    match k
    case KillCountess => (DarkStalker, SuperUnique)
    case KillAndariel => (Andariel, Unique)
    case KillSummoner => (Summoner, Unique)
    case KillMephisto => (Mephisto, Unique)
    case KillPindle => (DefiledWarrior, SuperUnique)
    case KillNihlathak => (Nihlathak, SuperUnique)
  }

  /** `KillCountess`, `KillAndariel`, `KillSummoner`, `KillMephisto`,
      `KillPindle` and `KillNihlathak`: an engagement against the target. */
  method KillPlainBoss(g: Game, start: nat, k: PlainKill) returns (reason: StopReason, attacks: seq<Action>)
    ensures (reason, attacks) ==
      Engage(g, ByNameAndType(PlainKillTarget(k).0, PlainKillTarget(k).1), [], start, 0, 0, g.tickBudget)
  {
    var (name, kind) := PlainKillTarget(k);
    reason, attacks := KillMonster(g, start, name, kind);
  }

  /** At tick `t` a monster with the name and type is listed and `a` is the
      planned attack on the first such monster. */
  predicate HitsNamedMonster(g: Game, name: NpcId, kind: MonsterType, t: nat, a: Action) {
    var m := FindOne(g.world(t).monsters, name, kind);
    m.Some? && a == PlannedAttack(g.world(t), m.value.unitId)
  }

  /** Every attack of `killMonster` hits the first monster with the name and
      type in that tick's list, at most MaxAttacksLoop times in a row. */
  lemma KillMonsterHitsNamedMonster(g: Game, start: nat, name: NpcId, kind: MonsterType, reason: StopReason, attacks: seq<Action>)
    requires (reason, attacks) == Engage(g, ByNameAndType(name, kind), [], start, 0, 0, g.tickBudget)
    ensures forall k :: 0 <= k < |attacks| ==> HitsNamedMonster(g, name, kind, start + k, attacks[k])
    ensures forall i, j :: OneTargetRun(attacks, i, j) ==> j - i <= MaxAttacksLoop
    ensures g.tickBudget > 0 && FindOne(g.world(start).monsters, name, kind).None? ==> reason == NoTarget && attacks == []
  {
    FreshEngagementFacts(g, ByNameAndType(name, kind), [], start, reason, attacks);
    forall k | 0 <= k < |attacks| ensures HitsNamedMonster(g, name, kind, start + k, attacks[k]) {
      var s := g.world(start + k);
      assert AttackedAt(g, ByNameAndType(name, kind), [], start + k, attacks[k]);
      assert ByNameAndType(name, kind)(s) == IdOf(FindOne(s.monsters, name, kind));
    }
  }

  predicate IsCouncilMember(m: Monster) {
    m.name == CouncilMember || m.name == CouncilMember2 || m.name == CouncilMember3
  }

  /** The council member nearest to `me` under `distance`; ties go to the
      earlier one in the monster list. */
  function NearestCouncilMember(ms: seq<Monster>, me: Position, distance: (Position, Position) -> int)
    : (r: Option<Monster>)
    ensures r.None? <==> forall i :: 0 <= i < |ms| ==> !IsCouncilMember(ms[i])
    ensures r.Some? ==> r.value in ms && IsCouncilMember(r.value)
    ensures r.Some? ==> forall i :: 0 <= i < |ms| && IsCouncilMember(ms[i]) ==>
      distance(me, r.value.position) <= distance(me, ms[i].position)
  {
    if |ms| == 0 then None
    else
      var rest := NearestCouncilMember(ms[1..], me, distance);
      if !IsCouncilMember(ms[0]) then rest
      else if rest.Some? && distance(me, rest.value.position) < distance(me, ms[0].position) then rest
      else Some(ms[0])
  }

  /** The selector of `KillCouncil`, measuring from the player's position. */
  function CouncilSelector(distance: (Position, Position) -> int): Selector {
    (s: Snapshot) => IdOf(NearestCouncilMember(s.monsters, s.player.position, distance))
  }

  /** The source's `KillCouncil`: every attack hits a council member at
      minimum distance in that tick's snapshot. */
  method KillCouncil(g: Game, start: nat, distance: (Position, Position) -> int)
    returns (reason: StopReason, attacks: seq<Action>)
    ensures (reason, attacks) == Engage(g, CouncilSelector(distance), [], start, 0, 0, g.tickBudget)
  {
    reason, attacks := KillMonsterSequence(g, start, CouncilSelector(distance), []);
  }

  /** At tick `t` a council member is listed and `a` is the planned attack
      on the nearest one. */
  predicate HitsNearestCouncilMember(g: Game, distance: (Position, Position) -> int, t: nat, a: Action) {
    var s := g.world(t);
    var m := NearestCouncilMember(s.monsters, s.player.position, distance);
    m.Some? && a == PlannedAttack(s, m.value.unitId)
  }

  /** Every attack of `KillCouncil` hits a council member that is at minimum
      distance in that tick's snapshot; with no council member present the
      engagement ends at once. */
  lemma KillCouncilHitsNearest(g: Game, start: nat, distance: (Position, Position) -> int, reason: StopReason, attacks: seq<Action>)
    requires (reason, attacks) == Engage(g, CouncilSelector(distance), [], start, 0, 0, g.tickBudget)
    ensures forall k :: 0 <= k < |attacks| ==> HitsNearestCouncilMember(g, distance, start + k, attacks[k])
    ensures g.tickBudget > 0 && (forall m :: m in g.world(start).monsters ==> !IsCouncilMember(m)) ==>
      reason == NoTarget && attacks == []
  {
    FreshEngagementFacts(g, CouncilSelector(distance), [], start, reason, attacks);
    forall k | 0 <= k < |attacks| ensures HitsNearestCouncilMember(g, distance, start + k, attacks[k]) {
      var s := g.world(start + k);
      assert AttackedAt(g, CouncilSelector(distance), [], start + k, attacks[k]);
      assert CouncilSelector(distance)(s) == IdOf(NearestCouncilMember(s.monsters, s.player.position, distance));
    }
    if g.tickBudget > 0 && (forall m :: m in g.world(start).monsters ==> !IsCouncilMember(m)) {
      var s := g.world(start);
      assert forall i :: 0 <= i < |s.monsters| ==> !IsCouncilMember(s.monsters[i]);
      assert CouncilSelector(distance)(s).None?;
    }
  }

  /** Static Field casts before a boss: 8 on Normal, 6 on the other difficulties. */
  function StaticFieldCasts(d: Difficulty): (n: nat)
    ensures d == Normal ==> n == 8
    ensures d != Normal ==> n == 6
  {
    if d == Normal then 8 else 6
  }

  function StaticFieldPrecast(g: Game, target: UnitId, range: Range): Action {
    SecondaryAttack(StaticField, target, StaticFieldCasts(g.difficulty), range)
  }

  /** Precast Static Field at a unique boss (at unit 0 when it is not in the
      list), then engage it. */
  method PrecastThenKill(g: Game, start: nat, boss: NpcId, range: Range)
    returns (reason: StopReason, log: seq<Action>)
    ensures |log| >= 1
    ensures log[0] == StaticFieldPrecast(g, UnitIdOrZero(FindOne(g.world(start).monsters, boss, Unique)), range)
    ensures (reason, log[1..]) == Engage(g, ByNameAndType(boss, Unique), [], start, 0, 0, g.tickBudget)
  {
    var m := FindOne(g.world(start).monsters, boss, Unique);
    var attacks;
    reason, attacks := KillMonster(g, start, boss, Unique);
    log := [StaticFieldPrecast(g, UnitIdOrZero(m), range)] + attacks;
    assert log[1..] == attacks;
  }

  method KillDuriel(g: Game, start: nat) returns (reason: StopReason, log: seq<Action>)
    ensures |log| >= 1
    ensures log[0] == SecondaryAttack(StaticField, UnitIdOrZero(FindOne(g.world(start).monsters, Duriel, Unique)),
                                      StaticFieldCasts(g.difficulty), Range(1, 5))
    ensures (reason, log[1..]) == Engage(g, ByNameAndType(Duriel, Unique), [], start, 0, 0, g.tickBudget)
  {
    reason, log := PrecastThenKill(g, start, Duriel, Range(1, 5));
  }

  method KillIzual(g: Game, start: nat) returns (reason: StopReason, log: seq<Action>)
    ensures |log| >= 1
    ensures log[0] == SecondaryAttack(StaticField, UnitIdOrZero(FindOne(g.world(start).monsters, Izual, Unique)),
                                      StaticFieldCasts(g.difficulty), Range(1, 5))
    ensures (reason, log[1..]) == Engage(g, ByNameAndType(Izual, Unique), [], start, 0, 0, g.tickBudget)
  {
    reason, log := PrecastThenKill(g, start, Izual, Range(1, 5));
  }

  method KillBaal(g: Game, start: nat) returns (reason: StopReason, log: seq<Action>)
    ensures |log| >= 1
    ensures log[0] == SecondaryAttack(StaticField, UnitIdOrZero(FindOne(g.world(start).monsters, BaalCrab, Unique)),
                                      StaticFieldCasts(g.difficulty), Range(1, 4))
    ensures (reason, log[1..]) == Engage(g, ByNameAndType(BaalCrab, Unique), [], start, 0, 0, g.tickBudget)
  {
    reason, log := PrecastThenKill(g, start, BaalCrab, Range(1, 4));
  }

  const AncientsTacticalPoint := Position(10062, 12639)

  /** The attacks of one `killMonster` engagement against the first super
      unique with the given name, started at the given tick. */
  function EliteKill(g: Game): (NpcId, nat) -> seq<Action> {
    (name: NpcId, t: nat) => Engage(g, ByNameAndType(name, SuperUnique), [], t, 0, 0, g.tickBudget).1
  }

  /** The log and the end tick of `KillAncients` after its first `i` elites,
      started at tick `start`, when `kill` gives the attacks of each
      engagement. The looked-up monster shadows the elite, so a failed
      lookup precasts at unit 0 and engages the zero npc id. */
  function AncientsPlan(g: Game, start: nat, elites: seq<Monster>, kill: (NpcId, nat) -> seq<Action>, i: nat)
    : (r: (seq<Action>, nat))
    requires i <= |elites|
    decreases i
  {
    if i == 0 then ([], start)
    else
      var before := AncientsPlan(g, start, elites, kill, i - 1);
      var t := before.1;
      var m := FindOne(g.world(t).monsters, elites[i - 1].name, SuperUnique);
      var e := kill(NameOrZero(m), t);
      (before.0 + [StaticFieldPrecast(g, UnitIdOrZero(m), Range(8, 10)), MoveTo(AncientsTacticalPoint)] + e, t + |e|)
  }

  /** Number of Static Field casts in a log. */
  function Precasts(log: seq<Action>): nat {
    if |log| == 0 then 0
    else (if log[0].SecondaryAttack? && log[0].skill == StaticField then 1 else 0) + Precasts(log[1..])
  }

  /** Number of moves in a log. */
  function Moves(log: seq<Action>): nat {
    if |log| == 0 then 0
    else (if log[0].MoveTo? then 1 else 0) + Moves(log[1..])
  }

  /** A log with neither a Static Field cast nor a move. */
  predicate Quiet(log: seq<Action>) {
    Precasts(log) == 0 && Moves(log) == 0
  }

  lemma {:induction false} CountsOfConcat(a: seq<Action>, b: seq<Action>)
    ensures Precasts(a + b) == Precasts(a) + Precasts(b)
    ensures Moves(a + b) == Moves(a) + Moves(b)
    decreases |a|
  {
    if |a| == 0 {
      assert a + b == b;
    } else {
      assert (a + b)[1..] == a[1..] + b;
      CountsOfConcat(a[1..], b);
    }
  }

  /** An engagement neither precasts Static Field nor moves. */
  lemma {:induction false} EngagementHasNoPrecastOrMove(g: Game, sel: Selector, imm: seq<Resist>, t: nat, prev: int, count: nat, left: nat)
    ensures Quiet(Engage(g, sel, imm, t, prev, count, left).1)
    decreases left
  {
    if left > 0 {
      assert Engage(g, sel, imm, t, prev, count, left) == EngageAt(g, sel, imm, t, prev, count, left);
      var s := g.world(t);
      match sel(s) {
        case None =>
        case Some(id) =>
          var c := if prev != id then 0 else count;
          if g.preBattleChecks(s, id, imm) && c < MaxAttacksLoop && FindById(s.monsters, id).Some? {
            EngagementHasNoPrecastOrMove(g, sel, imm, t + 1, id, c + 1, left - 1);
            var a := Engage(g, sel, imm, t, prev, count, left).1;
            var rest := Engage(g, sel, imm, t + 1, id, c + 1, left - 1).1;
            var p := PlannedAttack(s, id);
            assert a == [p] + rest;
            assert a[1..] == rest;
            assert !(p.SecondaryAttack? && p.skill == StaticField);
          }
      }
    }
  }

  lemma EliteKillIsQuiet(g: Game)
    ensures forall name, t: nat :: Quiet(EliteKill(g)(name, t))
  {
    forall name, t: nat ensures Quiet(EliteKill(g)(name, t)) {
      EngagementHasNoPrecastOrMove(g, ByNameAndType(name, SuperUnique), [], t, 0, 0, g.tickBudget);
    }
  }

  /** With engagements that neither precast nor move, each elite gets
      exactly one Static Field precast and one move to the tactical point. */
  lemma {:induction false} AncientsOnePrecastAndMovePerElite(g: Game, start: nat, elites: seq<Monster>,
                                                             kill: (NpcId, nat) -> seq<Action>, i: nat)
    requires i <= |elites|
    requires forall name, t: nat :: Quiet(kill(name, t))
    ensures Precasts(AncientsPlan(g, start, elites, kill, i).0) == i
    ensures Moves(AncientsPlan(g, start, elites, kill, i).0) == i
    decreases i
  {
    if i > 0 {
      var before := AncientsPlan(g, start, elites, kill, i - 1);
      var t := before.1;
      var m := FindOne(g.world(t).monsters, elites[i - 1].name, SuperUnique);
      var e := kill(NameOrZero(m), t);
      var head := [StaticFieldPrecast(g, UnitIdOrZero(m), Range(8, 10)), MoveTo(AncientsTacticalPoint)];
      assert AncientsPlan(g, start, elites, kill, i).0 == before.0 + head + e;
      assert Precasts(head) == 1 && Moves(head) == 1 by {
        var tail := head[1..];
        assert head[0].SecondaryAttack? && head[0].skill == StaticField;
        assert tail == [MoveTo(AncientsTacticalPoint)] && tail[1..] == [];
        assert Precasts(tail) == Precasts(tail[1..]) == 0;
        assert Moves(tail) == 1 + Moves(tail[1..]) == 1;
      }
      assert Quiet(e);
      AncientsOnePrecastAndMovePerElite(g, start, elites, kill, i - 1);
      CountsOfConcat(before.0, head);
      CountsOfConcat(before.0 + head, e);
    }
  }

  /** The source's `KillAncients`, over the elites listed when it starts. */
  method KillAncients(g: Game, start: nat, elites: seq<Monster>) returns (log: seq<Action>, next: nat)
    ensures (log, next) == AncientsPlan(g, start, elites, EliteKill(g), |elites|)
    ensures Precasts(log) == |elites| && Moves(log) == |elites|
  {
    log := [];
    var t: nat := start;
    for i := 0 to |elites|
      invariant log == AncientsPlan(g, start, elites, EliteKill(g), i).0
      invariant t == AncientsPlan(g, start, elites, EliteKill(g), i).1
    {
      var m := FindOne(g.world(t).monsters, elites[i].name, SuperUnique);
      var precast := StaticFieldPrecast(g, UnitIdOrZero(m), Range(8, 10));
      var _, attacks := KillMonster(g, t, NameOrZero(m), SuperUnique);
      assert attacks == EliteKill(g)(NameOrZero(m), t);
      log, t := log + [precast, MoveTo(AncientsTacticalPoint)] + attacks, t + |attacks|;
    }
    next := t;
    EliteKillIsQuiet(g);
    AncientsOnePrecastAndMovePerElite(g, start, elites, EliteKill(g), |elites|);
  }

  datatype DiabloResult = DiabloNotFound | DiabloAlreadyDead | DiabloEngaged(reason: StopReason)

  /** Diablo is in the list and his Life is above 0. */
  predicate DiabloAlive(s: Snapshot) {
    var d := FindOne(s.monsters, Diablo, Unique);
    d.Some? && d.value.life > 0
  }

  /** `KillDiablo` at poll `polls` (tick `t`) with the `found` flag: it
      times out after `timeoutPolls` polls unless Diablo was found. */
  function DiabloWait(g: Game, t: nat, polls: nat, timeoutPolls: nat, found: bool): (r: (DiabloResult, seq<Action>))
    requires polls <= timeoutPolls + 1
    decreases timeoutPolls + 1 - polls
  {
    if polls > timeoutPolls && !found then (DiabloNotFound, [])
    else if !DiabloAlive(g.world(t)) then
      if found then (DiabloAlreadyDead, [])
      else DiabloWait(g, t + 1, polls + 1, timeoutPolls, false)
    else
      var d := FindOne(g.world(t).monsters, Diablo, Unique).value;
      var e := Engage(g, ByNameAndType(Diablo, Unique), [], t, 0, 0, g.tickBudget);
      (DiabloEngaged(e.0), [StaticFieldPrecast(g, d.unitId, Range(1, 5))] + e.1)
  }

  /** The `found` flag is still false whenever Diablo is missing, so the
      already-dead outcome cannot occur. */
  lemma {:induction false} DiabloNeverAlreadyDead(g: Game, t: nat, polls: nat, timeoutPolls: nat)
    requires polls <= timeoutPolls + 1
    ensures DiabloWait(g, t, polls, timeoutPolls, false).0 != DiabloAlreadyDead
    decreases timeoutPolls + 1 - polls
  {
    if polls <= timeoutPolls && !DiabloAlive(g.world(t)) {
      DiabloNeverAlreadyDead(g, t + 1, polls + 1, timeoutPolls);
    }
  }

  /** Not found exactly when Diablo is never seen alive before the timeout,
      and then nothing is cast. */
  lemma {:induction false} DiabloNotFoundIffNeverSeen(g: Game, t: nat, polls: nat, timeoutPolls: nat)
    requires polls <= timeoutPolls + 1
    ensures DiabloWait(g, t, polls, timeoutPolls, false).0 == DiabloNotFound <==>
      forall u: nat :: t <= u <= t + timeoutPolls - polls ==> !DiabloAlive(g.world(u))
    ensures DiabloWait(g, t, polls, timeoutPolls, false).0 == DiabloNotFound ==>
      DiabloWait(g, t, polls, timeoutPolls, false).1 == []
    decreases timeoutPolls + 1 - polls
  {
    if polls <= timeoutPolls && !DiabloAlive(g.world(t)) {
      DiabloNotFoundIffNeverSeen(g, t + 1, polls + 1, timeoutPolls);
    }
  }

  /** When Diablo is first seen alive at poll q, the log is Static Field at
      him (distance 1..5) followed by the engagement started at that tick. */
  lemma {:induction false} DiabloFirstSighting(g: Game, t: nat, polls: nat, timeoutPolls: nat, q: nat)
    requires polls + q <= timeoutPolls
    requires DiabloAlive(g.world(t + q))
    requires forall u: nat :: t <= u < t + q ==> !DiabloAlive(g.world(u))
    ensures var d := FindOne(g.world(t + q).monsters, Diablo, Unique).value;
      var e := Engage(g, ByNameAndType(Diablo, Unique), [], t + q, 0, 0, g.tickBudget);
      DiabloWait(g, t, polls, timeoutPolls, false) ==
        (DiabloEngaged(e.0), [StaticFieldPrecast(g, d.unitId, Range(1, 5))] + e.1)
    decreases q
  {
    if q > 0 {
      assert !DiabloAlive(g.world(t));
      assert (t + 1) + (q - 1) == t + q;
      DiabloFirstSighting(g, t + 1, polls + 1, timeoutPolls, q - 1);
    }
  }

  /** The source's `KillDiablo`, with the 20-second timeout as a number of polls. */
  method KillDiablo(g: Game, start: nat, timeoutPolls: nat) returns (result: DiabloResult, log: seq<Action>)
    ensures (result, log) == DiabloWait(g, start, 0, timeoutPolls, false)
    ensures result == DiabloNotFound <==> forall u: nat :: start <= u <= start + timeoutPolls ==> !DiabloAlive(g.world(u))
    ensures result == DiabloNotFound ==> log == []
  {
    DiabloNotFoundIffNeverSeen(g, start, 0, timeoutPolls);
    var diabloFound := false;
    var polls := 0;
    var t := start;
    while true
      invariant polls <= timeoutPolls + 1 && t == start + polls
      invariant DiabloWait(g, start, 0, timeoutPolls, false) == DiabloWait(g, t, polls, timeoutPolls, diabloFound)
      decreases timeoutPolls + 1 - polls
    {
      if polls > timeoutPolls && !diabloFound {
        return DiabloNotFound, [];
      }
      var diablo := FindOne(g.world(t).monsters, Diablo, Unique);
      if diablo.None? || diablo.value.life <= 0 {
        if diabloFound {
          return DiabloAlreadyDead, [];
        }
        polls := polls + 1;
        t := t + 1;
        continue;
      }
      diabloFound := true;
      var precast := StaticFieldPrecast(g, diablo.value.unitId, Range(1, 5));
      var reason, attacks := KillMonster(g, t, Diablo, Unique);
      return DiabloEngaged(reason), [precast] + attacks;
    }
  }

  // ---------------------------------------------------------------------
  // Build tables
  // ---------------------------------------------------------------------

  const RequiredKeyBindings: seq<SkillId> := [TomeOfTownPortal]

  /** The required skills that have no key binding, in the required order. */
  method CheckKeyBindings(bindings: set<SkillId>) returns (missing: seq<SkillId>)
    ensures forall k :: k in missing <==> k in RequiredKeyBindings && k !in bindings
    ensures missing == if TomeOfTownPortal in bindings then [] else [TomeOfTownPortal]
  {
    missing := [];
    for i := 0 to |RequiredKeyBindings|
      invariant forall k :: k in missing <==> k in RequiredKeyBindings[..i] && k !in bindings
      invariant |missing| <= i
    {
      var required := RequiredKeyBindings[i];
      if required !in bindings {
        missing := missing + [required];
      }
    }
    assert RequiredKeyBindings[..1] == RequiredKeyBindings;
    if |missing| == 1 {
      assert missing[0] in missing;
      assert missing == [TomeOfTownPortal];
    }
  }

  /** The buffs to cast: Frozen Armor, then Energy Shield, each only if bound. */
  method BuffSkills(bindings: set<SkillId>) returns (skills: seq<SkillId>)
    ensures forall k :: k in skills <==> k in bindings && (k == FrozenArmor || k == EnergyShield)
    ensures |skills| <= 2 && (|skills| == 2 ==> skills == [FrozenArmor, EnergyShield])
  {
    skills := [];
    if FrozenArmor in bindings {
      skills := skills + [FrozenArmor];
    }
    if EnergyShield in bindings {
      skills := skills + [EnergyShield];
    }
  }

  /** The one attack skill to bind: the first learned one in the attack order. */
  function AttackSkillToBind(p: Player): Option<SkillId> {
    match FirstMatch(AttackChain, Learned(p))
    case None => None
    case Some(i) => Some(AttackChain[i].skill)
  }

  lemma AttackSkillToBindOrder(p: Player)
    ensures AttackSkillToBind(p) ==
      if Blizzard in Learned(p) then Some(Blizzard)
      else if Meteor in Learned(p) then Some(Meteor)
      else if FireBall in Learned(p) then Some(FireBall)
      else if FireBolt in Learned(p) then Some(FireBolt)
      else None
  {
    AttackChainOrder(Learned(p));
  }

  /** Whether `SkillsToBind` binds skill `k` for player `p`. */
  predicate ChosenForBinding(p: Player, k: SkillId) {
    || k == TomeOfTownPortal
    || (k == FrozenArmor && p.level >= 4)
    || (k == StaticField && p.level >= 6)
    || (k == Teleport && p.level >= 18)
    || AttackSkillToBind(p) == Some(k)
  }

  /** Position class of a skill in the binding list. */
  function BindingRank(k: SkillId): nat {
    match k
    case TomeOfTownPortal => 0
    case FrozenArmor => 1
    case StaticField => 2
    case Teleport => 3
    case _ => 4
  }

  /** The ranks strictly increase along the list. */
  predicate Ranked(list: seq<SkillId>) {
    forall i, j :: 0 <= i < j < |list| ==> BindingRank(list[i]) < BindingRank(list[j])
  }

  /** Every entry ranks below `r`. */
  predicate RanksBelow(list: seq<SkillId>, r: int) {
    forall i :: 0 <= i < |list| ==> BindingRank(list[i]) < r
  }

  lemma RankedAppend(list: seq<SkillId>, k: SkillId)
    requires Ranked(list) && RanksBelow(list, BindingRank(k))
    ensures Ranked(list + [k]) && RanksBelow(list + [k], BindingRank(k) + 1)
  {
    var l := list + [k];
    forall i | 0 <= i < |list| ensures l[i] == list[i] {}
  }

  /** The town portal tome, then the utility skills the level allows. */
  method UtilityBindings(level: int) returns (skillBindings: seq<SkillId>)
    ensures forall k :: k in skillBindings <==>
      || k == TomeOfTownPortal
      || (k == FrozenArmor && level >= 4)
      || (k == StaticField && level >= 6)
      || (k == Teleport && level >= 18)
    ensures Ranked(skillBindings) && RanksBelow(skillBindings, 4)
    ensures |skillBindings| >= 1 && skillBindings[0] == TomeOfTownPortal
  {
    skillBindings := [TomeOfTownPortal];
    if level >= 4 {
      RankedAppend(skillBindings, FrozenArmor);
      skillBindings := skillBindings + [FrozenArmor];
    }
    if level >= 6 {
      RankedAppend(skillBindings, StaticField);
      skillBindings := skillBindings + [StaticField];
    }
    if level >= 18 {
      RankedAppend(skillBindings, Teleport);
      skillBindings := skillBindings + [Teleport];
    }
  }

  /** The skills to bind and the main skill, for the player's level and skill points. */
  method SkillsToBind(p: Player) returns (mainSkill: SkillId, skillBindings: seq<SkillId>)
    ensures forall k :: k in skillBindings <==> ChosenForBinding(p, k)
    ensures Ranked(skillBindings)
    ensures |skillBindings| >= 1 && skillBindings[0] == TomeOfTownPortal
    ensures mainSkill == AttackSkill || mainSkill == Blizzard || mainSkill == Meteor
    ensures mainSkill == Blizzard <==> SkillLevel(p, Blizzard) > 0
    ensures mainSkill == AttackSkill <==> SkillLevel(p, Blizzard) <= 0 && SkillLevel(p, Meteor) <= 0
    ensures mainSkill != AttackSkill ==> mainSkill in skillBindings
  {
    AttackChainOrder(Learned(p));
    skillBindings := UtilityBindings(p.level);
    var attack: Option<SkillId> := None;
    if SkillLevel(p, Blizzard) > 0 {
      attack := Some(Blizzard);
    } else if SkillLevel(p, Meteor) > 0 {
      attack := Some(Meteor);
    } else if SkillLevel(p, FireBall) > 0 {
      attack := Some(FireBall);
    } else if SkillLevel(p, FireBolt) > 0 {
      attack := Some(FireBolt);
    }
    assert attack == AttackSkillToBind(p);
    if attack.Some? {
      assert BindingRank(attack.value) == 4;
      RankedAppend(skillBindings, attack.value);
      skillBindings := skillBindings + [attack.value];
    }
    mainSkill := AttackSkill;
    if SkillLevel(p, Blizzard) > 0 {
      mainSkill := Blizzard;
    } else if SkillLevel(p, Meteor) > 0 {
      mainSkill := Meteor;
    }
  }

  /** With exactly the skills `SkillsToBind` chose bound and enough mana,
      a tick casts the attack skill that was bound, or melees when none was. */
  lemma BoundBuildCastsChosenSkill(s: Snapshot, id: UnitId)
    requires !LowOnMana(s.player)
    requires forall k :: k in s.bindings <==> ChosenForBinding(s.player, k)
    ensures AttackSkillToBind(s.player).None? ==> PlannedAttack(s, id) == MeleeFallback(id)
    ensures AttackSkillToBind(s.player).Some? ==>
      PlannedAttack(s, id).SecondaryAttack? && PlannedAttack(s, id).skill == AttackSkillToBind(s.player).value
  {
    AttackSkillToBindOrder(s.player);
    var chosen := AttackSkillToBind(s.player);
    assert Blizzard in s.bindings <==> chosen == Some(Blizzard);
    assert Meteor in s.bindings <==> chosen == Some(Meteor);
    assert FireBall in s.bindings <==> chosen == Some(FireBall);
    assert FireBolt in s.bindings <==> chosen == Some(FireBolt);
  }

  /** Energy the stat plan aims for: 40 below level 7, 50 from level 7. */
  function AssignEnergyStats(level: int): (target: int)
    ensures target > 35
    ensures level < 7 ==> target == 40
    ensures level >= 7 ==> target == 50
  {
    if level < 7 then 40 else 50
  }

  datatype StatId = Vitality | Energy

  /** Stat targets: all points to Vitality below level 7, Energy to 50 from level 7. */
  method StatPoints(level: int) returns (statPoints: map<StatId, int>)
    ensures level < 7 ==> statPoints == map[Vitality := 9999]
    ensures level >= 7 ==> statPoints == map[Energy := AssignEnergyStats(level)]
  {
    statPoints := map[];
    if level < 7 {
      statPoints := statPoints[Vitality := 9999];
    } else {
      statPoints := statPoints[Energy := 50];
    }
  }

  /** `n` points in skill `k`. */
  function Repeat(k: SkillId, n: nat): (r: seq<SkillId>)
    ensures |r| == n
  {
    if n == 0 then [] else [k] + Repeat(k, n - 1)
  }

  /** Points a plan puts into skill `k`. */
  function Count(plan: seq<SkillId>, k: SkillId): int {
    if |plan| == 0 then 0 else (if plan[0] == k then 1 else 0) + Count(plan[1..], k)
  }

  lemma {:induction false} CountConcat(a: seq<SkillId>, b: seq<SkillId>, k: SkillId)
    ensures Count(a + b, k) == Count(a, k) + Count(b, k)
    decreases |a|
  {
    if |a| == 0 {
      assert a + b == b;
    } else {
      assert (a + b)[1..] == a[1..] + b;
      CountConcat(a[1..], b, k);
    }
  }

  lemma {:induction false} CountRepeat(k: SkillId, n: nat, j: SkillId)
    ensures Count(Repeat(k, n), j) == if j == k then n else 0
    decreases n
  {
    if n > 0 {
      assert Repeat(k, n)[1..] == Repeat(k, n - 1);
      CountRepeat(k, n - 1, j);
    }
  }

  /** A skill-point list written as runs: `times` points in `skill`, then the rest. */
  datatype SkillRuns = NoRuns | Run(skill: SkillId, times: nat, rest: SkillRuns)

  /** The list a run description stands for, point by point. */
  function Expand(r: SkillRuns): seq<SkillId> {
    match r
    case NoRuns => []
    case Run(k, n, rest) => Repeat(k, n) + Expand(rest)
  }

  /** Points the runs put into skill `j`. */
  function Total(r: SkillRuns, j: SkillId): int {
    match r
    case NoRuns => 0
    case Run(k, n, rest) => if k == j then n + Total(rest, j) else Total(rest, j)
  }

  /** Points the runs spend altogether. */
  function Length(r: SkillRuns): int {
    match r
    case NoRuns => 0
    case Run(_, n, rest) => n + Length(rest)
  }

  /** Expanding the runs spends `Total(r, j)` points on each skill and `Length(r)` in all. */
  lemma {:induction false} CountExpand(r: SkillRuns, j: SkillId)
    ensures Count(Expand(r), j) == Total(r, j)
    ensures |Expand(r)| == Length(r)
  {
    match r
    case NoRuns =>
    case Run(k, n, rest) =>
      CountConcat(Repeat(k, n), Expand(rest), j);
      CountRepeat(k, n, j);
      CountExpand(rest, j);
  }

  /** The list below level 24: Fire Bolt with one point each in the utility skills, then Fire Ball. */
  const LevellingRuns: SkillRuns :=
    Run(FireBolt, 3, Run(FrozenArmor, 1, Run(FireBolt, 1, Run(StaticField, 1, Run(FireBolt, 1, Run(Warmth, 1,
    Run(FireBolt, 1, Run(Telekinesis, 1, Run(FireBolt, 4, Run(FireBall, 3, Run(Teleport, 1, Run(FireBall, 5,
    NoRuns))))))))))))

  /** The list from level 24, spent after a reset. */
  const RespecRuns: SkillRuns :=
    Run(FireBolt, 1, Run(Warmth, 1, Run(Inferno, 1, Run(Blaze, 1, Run(FireBall, 20,
    Run(Meteor, 1, Run(FireMastery, 1, Run(Meteor, 19, Run(FireMastery, 15, NoRuns)))))))))

  /** The order skill points are spent in: a Fire Bolt / Fire Ball plan below
      level 24 and a Fire Ball / Meteor / Fire Mastery plan from 24. */
  function SkillPoints(level: int): seq<SkillId> {
    if level < 24 then Expand(LevellingRuns) else Expand(RespecRuns)
  }

  /** Below level 24 the plan spends 23 points: ten on Fire Bolt, eight on Fire Ball. */
  lemma LevellingPlanSpells(level: int)
    ensures level < 24 ==>
      && |SkillPoints(level)| == 23
      && Count(SkillPoints(level), FireBolt) == 10
      && Count(SkillPoints(level), FireBall) == 8
  {
    LevellingRunsLength();
    LevellingRunsSpells();
    CountExpand(LevellingRuns, FireBolt);
    CountExpand(LevellingRuns, FireBall);
  }

  lemma LevellingRunsLength()
    ensures Length(LevellingRuns) == 23
  {
  }

  lemma LevellingRunsSpells()
    ensures Total(LevellingRuns, FireBolt) == 10
    ensures Total(LevellingRuns, FireBall) == 8
  {
  }

  /** Below level 24 Frozen Armor, Static Field and Warmth get one point each. */
  lemma LevellingPlanUtilities(level: int)
    ensures level < 24 ==>
      && Count(SkillPoints(level), FrozenArmor) == 1
      && Count(SkillPoints(level), StaticField) == 1
      && Count(SkillPoints(level), Warmth) == 1
  {
    LevellingRunsUtilities();
    CountExpand(LevellingRuns, FrozenArmor);
    CountExpand(LevellingRuns, StaticField);
    CountExpand(LevellingRuns, Warmth);
  }

  lemma LevellingRunsUtilities()
    ensures Total(LevellingRuns, FrozenArmor) == 1
    ensures Total(LevellingRuns, StaticField) == 1
    ensures Total(LevellingRuns, Warmth) == 1
  {
  }

  /** Below level 24 Telekinesis and Teleport get one point each. */
  lemma LevellingPlanMobility(level: int)
    ensures level < 24 ==>
      && Count(SkillPoints(level), Telekinesis) == 1
      && Count(SkillPoints(level), Teleport) == 1
  {
    LevellingRunsMobility();
    CountExpand(LevellingRuns, Telekinesis);
    CountExpand(LevellingRuns, Teleport);
  }

  lemma LevellingRunsMobility()
    ensures Total(LevellingRuns, Telekinesis) == 1
    ensures Total(LevellingRuns, Teleport) == 1
  {
  }

  /** From level 24 the plan spends 60 points, twenty each on Fire Ball and Meteor. */
  lemma RespecPlanSpells(level: int)
    ensures level >= 24 ==>
      && |SkillPoints(level)| == 60
      && Count(SkillPoints(level), FireBall) == 20
      && Count(SkillPoints(level), Meteor) == 20
  {
    RespecRunsLength();
    RespecRunsSpells();
    CountExpand(RespecRuns, FireBall);
    CountExpand(RespecRuns, Meteor);
  }

  lemma RespecRunsLength()
    ensures Length(RespecRuns) == 60
  {
  }

  lemma RespecRunsSpells()
    ensures Total(RespecRuns, FireBall) == 20
    ensures Total(RespecRuns, Meteor) == 20
  {
  }

  /** From level 24 Fire Mastery gets sixteen points. */
  lemma RespecPlanMastery(level: int)
    ensures level >= 24 ==>
      && Count(SkillPoints(level), FireMastery) == 16
  {
    RespecRunsMastery();
    CountExpand(RespecRuns, FireMastery);
  }

  lemma RespecRunsMastery()
    ensures Total(RespecRuns, FireMastery) == 16
  {
  }

  /** From level 24 the prerequisites Fire Bolt and Warmth get one point each. */
  lemma RespecPlanBoltAndWarmth(level: int)
    ensures level >= 24 ==>
      && Count(SkillPoints(level), FireBolt) == 1
      && Count(SkillPoints(level), Warmth) == 1
  {
    RespecRunsBoltAndWarmth();
    CountExpand(RespecRuns, FireBolt);
    CountExpand(RespecRuns, Warmth);
  }

  lemma RespecRunsBoltAndWarmth()
    ensures Total(RespecRuns, FireBolt) == 1
    ensures Total(RespecRuns, Warmth) == 1
  {
  }

  /** From level 24 the prerequisites Inferno and Blaze get one point each. */
  lemma RespecPlanInfernoAndBlaze(level: int)
    ensures level >= 24 ==>
      && Count(SkillPoints(level), Inferno) == 1
      && Count(SkillPoints(level), Blaze) == 1
  {
    RespecRunsInfernoAndBlaze();
    CountExpand(RespecRuns, Inferno);
    CountExpand(RespecRuns, Blaze);
  }

  lemma RespecRunsInfernoAndBlaze()
    ensures Total(RespecRuns, Inferno) == 1
    ensures Total(RespecRuns, Blaze) == 1
  {
  }

  /** A reset is due from level 24 once Fire Ball has more than one point. */
  predicate ShouldResetSkills(p: Player) {
    p.level >= 24 && SkillLevel(p, FireBall) > 1
  }

  /** A reset is only asked for when the list then handed out is the 60-point
      respec list, and never while the levelling list is in force. */
  lemma ResetSpendsRespecPlan(p: Player)
    ensures ShouldResetSkills(p) ==> |SkillPoints(p.level)| == 60 && Count(SkillPoints(p.level), Meteor) == 20
    ensures p.level < 24 ==> !ShouldResetSkills(p) && |SkillPoints(p.level)| == 23
  {
    RespecPlanSpells(p.level);
    LevellingPlanSpells(p.level);
  }
}
