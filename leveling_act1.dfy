/** The act 1 part of the levelling run: a checklist of zone tasks, each
    gated by the character level read just before it, followed by the
    Andariel step with its antidote logistics.

    Travel, clearing, the Countess run and every other game call are log
    entries (`Step`); the ones whose error the code looks at get their
    result from the oracle `Act1World.outcome`. */
module LevelingAct1 {
  import opened GameData

  datatype Area =
    | RogueEncampment | BloodMoor | ColdPlains | StonyField | DarkWood | BlackMarsh
    | CatacombsLevel2 | CatacombsLevel3 | CatacombsLevel4
    | OtherArea(code: nat)

  /** A non-nil Go error; `None` stands for nil. */
  datatype Error = Error(code: nat)

  datatype Step =
    | MoveToArea(area: Area)
    | WayPoint(area: Area)
    | ClearCurrentLevel(area: Area)
    | CountessRun
    | ReturnTown
    | VendorRefill
    | BuyAntidotes(quantity: nat)
    | DrinkAntidote(item: nat)
    | GiveAntidoteToMerc(item: nat)
    | UsePortalInTown
    | Buff
    | MoveToAndarielAttackPos
    | KillAndariel
    | InteractWarriv

  /** An item and whether it sits in the inventory grid (d2go's LocationInventory). */
  datatype Item = Item(name: string, inInventory: bool)

  const AntidotePotion: string := "AntidotePotion"

  /** What one act 1 run reads: the area it starts in, the level read at
      gate i (gates numbered 0..5 in order), the result of every fallible
      call, the merc's HP percentage and the items after the purchase. */
  datatype Act1World = Act1World(
    area: Area,
    levelAt: nat -> int,
    outcome: Step -> Option<Error>,
    mercHpPercent: int,
    items: seq<Item>)

  // ---------------------------------------------------------------------
  // Zone tasks
  // ---------------------------------------------------------------------

  /** How a zone task travels: `action.MoveToArea` or `action.WayPoint`. */
  datatype Route = OnFoot(area: Area) | ByWaypoint(area: Area)

  function TravelStep(r: Route): Step {
    match r
    case OnFoot(area) => MoveToArea(area)
    case ByWaypoint(area) => WayPoint(area)
  }

  /** A gated task: travel to a zone and clear it, or the Countess run. */
  datatype Task = Zone(route: Route) | Countess

  /** The error and the steps of one task. */
  function TaskOutcome(w: Act1World, task: Task): (Option<Error>, seq<Step>) {
    match task
    case Zone(route) =>
      if w.outcome(TravelStep(route)).Some? then (w.outcome(TravelStep(route)), [TravelStep(route)])
      else (w.outcome(ClearCurrentLevel(route.area)), [TravelStep(route), ClearCurrentLevel(route.area)])
    case Countess => (w.outcome(CountessRun), [CountessRun])
  }

  /** bloodMoor, coldPlains, stonyField, darkWood and blackMarsh: travel,
      return the travel error without clearing, otherwise clear. */
  method ZoneTask(w: Act1World, route: Route) returns (err: Option<Error>, steps: seq<Step>)
    ensures err == TaskOutcome(w, Zone(route)).0
    ensures steps == TaskOutcome(w, Zone(route)).1
  {
    var travel := TravelStep(route);
    steps := [travel];
    err := w.outcome(travel);
    if err.Some? {
      return;
    }
    steps := steps + [ClearCurrentLevel(route.area)];
    err := w.outcome(ClearCurrentLevel(route.area));
    assert steps == [travel, ClearCurrentLevel(route.area)];
  }

  /** A zone task starts with its travel, clears exactly when the travel
      succeeded, and a failed travel is the task's error. */
  lemma ZoneTaskClearsOnlyAfterTravel(w: Act1World, route: Route)
    ensures ClearCurrentLevel(route.area) in TaskOutcome(w, Zone(route)).1 <==> w.outcome(TravelStep(route)).None?
    ensures w.outcome(TravelStep(route)).Some? ==> TaskOutcome(w, Zone(route)).0 == w.outcome(TravelStep(route))
    ensures w.outcome(TravelStep(route)).None? ==> TaskOutcome(w, Zone(route)).0 == w.outcome(ClearCurrentLevel(route.area))
    ensures TaskOutcome(w, Zone(route)).1[0] == TravelStep(route)
  {
    if w.outcome(TravelStep(route)).Some? {
      assert TaskOutcome(w, Zone(route)).1 == [TravelStep(route)];
    }
  }

  /** countess: the Countess run, an opaque call. */
  method CountessTask(w: Act1World) returns (err: Option<Error>, steps: seq<Step>)
    ensures err == TaskOutcome(w, Countess).0
    ensures steps == TaskOutcome(w, Countess).1
  {
    err, steps := w.outcome(CountessRun), [CountessRun];
  }

  // ---------------------------------------------------------------------
  // The level-gated checklist
  // ---------------------------------------------------------------------

  /** A task and the level it runs below. */
  datatype Gate = Gate(task: Task, below: int)

  const Gates: seq<Gate> := [
    Gate(Zone(OnFoot(BloodMoor)), 3),
    Gate(Zone(OnFoot(ColdPlains)), 6),
    Gate(Zone(ByWaypoint(StonyField)), 7),
    Gate(Zone(ByWaypoint(DarkWood)), 9),
    Gate(Zone(ByWaypoint(BlackMarsh)), 12),
    Gate(Countess, 18)]

  /** The thresholds rise strictly along the checklist and none exceeds 18. */
  lemma GateThresholdsIncrease()
    ensures forall i, j :: 0 <= i < j < |Gates| ==> Gates[i].below < Gates[j].below
    ensures forall i :: 0 <= i < |Gates| ==> Gates[i].below <= 18
  {
  }

  /** Whether gate `i` lets its task run: the level read there is below its threshold. */
  predicate Open(w: Act1World, i: nat)
    requires i < |Gates|
  {
    w.levelAt(i) < Gates[i].below
  }

  /** The steps gate `i` adds. */
  function GateSteps(w: Act1World, i: nat): seq<Step>
    requires i < |Gates|
  {
    if Open(w, i) then TaskOutcome(w, Gates[i].task).1 else []
  }

  /** The steps of the whole checklist, gate after gate; a task's error
      does not stop the list. */
  function GatedSteps(w: Act1World): seq<Step> {
    GateSteps(w, 0) + GateSteps(w, 1) + GateSteps(w, 2) + GateSteps(w, 3) + GateSteps(w, 4) + GateSteps(w, 5)
  }

  /** An open gate contributes its task's steps, a closed one nothing. */
  lemma GateContributes(w: Act1World, i: nat, taskSteps: seq<Step>)
    requires i < |Gates|
    requires Open(w, i) ==> taskSteps == TaskOutcome(w, Gates[i].task).1
    requires !Open(w, i) ==> taskSteps == []
    ensures GateSteps(w, i) == taskSteps
  {
  }

  /** The step a task starts with. */
  function FirstStep(task: Task): Step {
    match task
    case Zone(route) => TravelStep(route)
    case Countess => CountessRun
  }

  /** The task of gate k starts with its first step, and the first step of
      gate i's task is among gate k's steps only when i is k. */
  lemma GateStepsAreOwn(w: Act1World, i: nat, k: nat)
    requires i < |Gates| && k < |Gates|
    ensures TaskOutcome(w, Gates[k].task).1[0] == FirstStep(Gates[k].task)
    ensures FirstStep(Gates[i].task) in TaskOutcome(w, Gates[k].task).1 <==> i == k
  {
  }

  /** The task of gate i runs exactly when that gate is open, whatever the
      other gates and the errors of earlier tasks. */
  lemma GateRunsIffOpen(w: Act1World, i: nat)
    requires i < |Gates|
    ensures FirstStep(Gates[i].task) in GatedSteps(w) <==> Open(w, i)
  {
    GateStepsAreOwn(w, i, 0);
    GateStepsAreOwn(w, i, 1);
    GateStepsAreOwn(w, i, 2);
    GateStepsAreOwn(w, i, 3);
    GateStepsAreOwn(w, i, 4);
    GateStepsAreOwn(w, i, 5);
  }

  /** At level 18 or more at every gate no task runs. */
  lemma HighLevelSkipsEveryGate(w: Act1World)
    requires forall i: nat :: i < |Gates| ==> w.levelAt(i) >= 18
    ensures GatedSteps(w) == []
  {
    GateThresholdsIncrease();
    assert !Open(w, 0) && !Open(w, 1) && !Open(w, 2) && !Open(w, 3) && !Open(w, 4) && !Open(w, 5);
  }

  // ---------------------------------------------------------------------
  // Antidotes
  // ---------------------------------------------------------------------

  /** Eight antidotes when the merc is alive, four otherwise. */
  function AntidotesToBuy(mercHpPercent: int): (n: nat)
    ensures n == 8 || n == 4
    ensures n == 8 <==> mercHpPercent > 0
  {
    if mercHpPercent > 0 then 8 else 4
  }

  predicate IsAntidote(it: Item) {
    it.name == AntidotePotion
  }

  /** The positions of the items that sit in the inventory grid, in increasing order. */
  function InventoryPositions(items: seq<Item>): (ps: seq<nat>)
    ensures forall k :: 0 <= k < |ps| ==> ps[k] < |items| && items[ps[k]].inInventory
    ensures forall i :: 0 <= i < |items| && items[i].inInventory ==> i in ps
    ensures forall k, l :: 0 <= k < l < |ps| ==> ps[k] < ps[l]
  {
    if |items| == 0 then []
    else InventoryPositions(items[..|items| - 1]) + (if items[|items| - 1].inInventory then [|items| - 1] else [])
  }

  /** d2go's `Inventory.ByLocation(LocationInventory)`: the items of the
      inventory grid, in their original order. */
  function InInventory(items: seq<Item>): (r: seq<Item>)
    ensures forall it :: it in r <==> it in items && it.inInventory
  {
    if |items| == 0 then []
    else InInventory(items[..|items| - 1]) + (if items[|items| - 1].inInventory then [items[|items| - 1]] else [])
  }

  /** `InInventory` keeps the items at the grid positions, in increasing order. */
  lemma {:induction false} InInventoryFollowsPositions(items: seq<Item>)
    ensures |InInventory(items)| == |InventoryPositions(items)|
    ensures forall k :: 0 <= k < |InInventory(items)| ==> InInventory(items)[k] == items[InventoryPositions(items)[k]]
  {
    if |items| > 0 {
      var init := items[..|items| - 1];
      InInventoryFollowsPositions(init);
      var r := InInventory(items);
      var ps := InventoryPositions(items);
      var r0 := InInventory(init);
      var ps0 := InventoryPositions(init);
      forall k | 0 <= k < |r| ensures r[k] == items[ps[k]] {
        if k < |r0| {
          assert r[k] == r0[k] && ps[k] == ps0[k];
        }
      }
    }
  }

  /** `InInventory` keeps each grid item as often as it occurs and drops every other item. */
  lemma {:induction false} InInventoryCounts(items: seq<Item>)
    ensures forall it :: multiset(InInventory(items))[it] == if it.inInventory then multiset(items)[it] else 0
  {
    if |items| > 0 {
      var init := items[..|items| - 1];
      var last := items[|items| - 1];
      InInventoryCounts(init);
      assert items == init + [last];
    }
  }

  /** Antidotes among the items of the inventory grid. */
  function InventoryAntidotes(items: seq<Item>): nat {
    if |items| == 0 then 0
    else
      var last := items[|items| - 1];
      InventoryAntidotes(items[..|items| - 1]) + (if IsAntidote(last) && last.inInventory then 1 else 0)
  }

  /** Antidotes among `items`. */
  function Antidotes(items: seq<Item>): nat {
    if |items| == 0 then 0
    else Antidotes(items[..|items| - 1]) + (if IsAntidote(items[|items| - 1]) then 1 else 0)
  }

  /** What the hand-out loop does with item `j`, when `x` antidotes came before it. */
  function HandOutOne(it: Item, j: nat, x: nat): seq<Step> {
    if !IsAntidote(it) then []
    else if x > 3 then [GiveAntidoteToMerc(j)]
    else [DrinkAntidote(j)]
  }

  /** The steps of the hand-out loop over the first `i` items. */
  function HandOut(items: seq<Item>, i: nat): seq<Step>
    requires i <= |items|
  {
    if i == 0 then []
    else HandOut(items, i - 1) + HandOutOne(items[i - 1], i - 1, Antidotes(items[..i - 1]))
  }

  /** The source's inventory loop: `x` counts the antidotes seen so far;
      the first four are drunk and every later one goes to the merc. */
  method DistributeAntidotes(items: seq<Item>) returns (steps: seq<Step>)
    ensures steps == HandOut(items, |items|)
  {
    steps := [];
    var x: nat := 0;
    for i := 0 to |items|
      invariant steps == HandOut(items, i)
      invariant x == Antidotes(items[..i])
    {
      var itm := items[i];
      assert items[..i + 1][..i] == items[..i];
      if itm.name != AntidotePotion {
        continue;
      }
      if x > 3 {
        steps := steps + [GiveAntidoteToMerc(i)];
      } else {
        steps := steps + [DrinkAntidote(i)];
      }
      x := x + 1;
    }
    assert items[..|items|] == items;
  }

  lemma HandOutOneDecides(it: Item, i: nat, x: nat, j: nat)
    ensures DrinkAntidote(j) in HandOutOne(it, i, x) <==> j == i && IsAntidote(it) && x <= 3
    ensures GiveAntidoteToMerc(j) in HandOutOne(it, i, x) <==> j == i && IsAntidote(it) && x > 3
  {
  }

  /** Item j is drunk exactly when it is an antidote with at most three
      antidotes before it, and given to the merc exactly when it is an
      antidote with four or more before it. */
  lemma {:induction false} HandOutDecides(items: seq<Item>, i: nat, j: nat)
    requires i <= |items| && j < |items|
    ensures DrinkAntidote(j) in HandOut(items, i) <==> j < i && IsAntidote(items[j]) && Antidotes(items[..j]) <= 3
    ensures GiveAntidoteToMerc(j) in HandOut(items, i) <==> j < i && IsAntidote(items[j]) && Antidotes(items[..j]) > 3
  {
    if i > 0 {
      HandOutDecides(items, i - 1, j);
      HandOutOneDecides(items[i - 1], i - 1, Antidotes(items[..i - 1]), j);
    }
  }

  /** Number of drinks and of hand-overs in a log. */
  function Drinks(steps: seq<Step>): nat {
    if |steps| == 0 then 0
    else Drinks(steps[..|steps| - 1]) + (if steps[|steps| - 1].DrinkAntidote? then 1 else 0)
  }

  function Gifts(steps: seq<Step>): nat {
    if |steps| == 0 then 0
    else Gifts(steps[..|steps| - 1]) + (if steps[|steps| - 1].GiveAntidoteToMerc? then 1 else 0)
  }

  lemma {:induction false} DrinksAndGiftsOfAppend(a: seq<Step>, b: seq<Step>)
    ensures Drinks(a + b) == Drinks(a) + Drinks(b)
    ensures Gifts(a + b) == Gifts(a) + Gifts(b)
    decreases |b|
  {
    if |b| == 0 {
      assert a + b == a;
    } else {
      assert (a + b)[..|a + b| - 1] == a + b[..|b| - 1];
      DrinksAndGiftsOfAppend(a, b[..|b| - 1]);
    }
  }

  lemma HandOutOneCounts(it: Item, j: nat, x: nat)
    ensures Drinks(HandOutOne(it, j, x)) == if IsAntidote(it) && x <= 3 then 1 else 0
    ensures Gifts(HandOutOne(it, j, x)) == if IsAntidote(it) && x > 3 then 1 else 0
  {
    if IsAntidote(it) {
      assert HandOutOne(it, j, x)[..0] == [];
    }
  }

  lemma AntidotesOfLonger(items: seq<Item>, i: nat)
    requires 0 < i <= |items|
    ensures Antidotes(items[..i]) == Antidotes(items[..i - 1]) + if IsAntidote(items[i - 1]) then 1 else 0
  {
    assert items[..i][..i - 1] == items[..i - 1];
  }

  /** With n antidotes among the items the player drinks min(n, 4) of them. */
  lemma {:induction false} HandOutDrinks(items: seq<Item>, i: nat)
    requires i <= |items|
    ensures Drinks(HandOut(items, i)) == if Antidotes(items[..i]) <= 4 then Antidotes(items[..i]) else 4
  {
    if i > 0 {
      HandOutDrinks(items, i - 1);
      var x := Antidotes(items[..i - 1]);
      var last := HandOutOne(items[i - 1], i - 1, x);
      assert HandOut(items, i) == HandOut(items, i - 1) + last;
      DrinksAndGiftsOfAppend(HandOut(items, i - 1), last);
      HandOutOneCounts(items[i - 1], i - 1, x);
      AntidotesOfLonger(items, i);
    }
  }

  /** ... and the merc gets the other n - 4. */
  lemma {:induction false} HandOutGifts(items: seq<Item>, i: nat)
    requires i <= |items|
    ensures Gifts(HandOut(items, i)) == if Antidotes(items[..i]) <= 4 then 0 else Antidotes(items[..i]) - 4
  {
    if i > 0 {
      HandOutGifts(items, i - 1);
      var x := Antidotes(items[..i - 1]);
      var last := HandOutOne(items[i - 1], i - 1, x);
      assert HandOut(items, i) == HandOut(items, i - 1) + last;
      DrinksAndGiftsOfAppend(HandOut(items, i - 1), last);
      HandOutOneCounts(items[i - 1], i - 1, x);
      AntidotesOfLonger(items, i);
    }
  }

  // ---------------------------------------------------------------------
  // Andariel
  // ---------------------------------------------------------------------

  /** The travel `andariel` attempts: a waypoint to Catacombs level 2, then on foot to levels 3 and 4. */
  const CatacombsTravel: seq<Step> := [WayPoint(CatacombsLevel2), MoveToArea(CatacombsLevel3), MoveToArea(CatacombsLevel4)]

  /** Back in town: refill and buy the antidotes. */
  function Restock(mercHpPercent: int): seq<Step> {
    [ReturnTown, VendorRefill, BuyAntidotes(AntidotesToBuy(mercHpPercent))]
  }

  /** From the town portal to Warriv. */
  const AndarielFight: seq<Step> := [UsePortalInTown, Buff, MoveToAndarielAttackPos, KillAndariel, ReturnTown, InteractWarriv]

  /** The error and the steps of `andariel`. */
  function AndarielOutcome(w: Act1World): (Option<Error>, seq<Step>) {
    var waypoint := w.outcome(WayPoint(CatacombsLevel2));
    var level3 := w.outcome(MoveToArea(CatacombsLevel3));
    if waypoint.Some? then (waypoint, [WayPoint(CatacombsLevel2)])
    else if level3.Some? then (level3, CatacombsTravel)
    else
      var inventory := InInventory(w.items);
      (None, CatacombsTravel + Restock(w.mercHpPercent) + HandOut(inventory, |inventory|) + AndarielFight)
  }

  /** The source's `andariel`. */
  method Andariel(w: Act1World) returns (err: Option<Error>, steps: seq<Step>)
    ensures err == AndarielOutcome(w).0
    ensures steps == AndarielOutcome(w).1
  {
    steps := [WayPoint(CatacombsLevel2)];
    err := w.outcome(WayPoint(CatacombsLevel2));
    if err.Some? {
      return;
    }
    steps := steps + [MoveToArea(CatacombsLevel3)];
    err := w.outcome(MoveToArea(CatacombsLevel3));
    steps := steps + [MoveToArea(CatacombsLevel4)];
    assert steps == CatacombsTravel;
    if err.Some? {
      return;
    }
    steps := steps + [ReturnTown];
    var potsToBuy := 4;
    if w.mercHpPercent > 0 {
      potsToBuy := 8;
    }
    steps := steps + [VendorRefill, BuyAntidotes(potsToBuy)];
    assert steps == CatacombsTravel + Restock(w.mercHpPercent);
    var handOut := DistributeAntidotes(InInventory(w.items));
    steps := steps + handOut;
    steps := steps + [UsePortalInTown, Buff, MoveToAndarielAttackPos, KillAndariel, ReturnTown, InteractWarriv];
    err := None;
  }

  /** The hand-out loop logs only drinks and hand-overs. */
  lemma {:induction false} HandOutOnlyAntidoteSteps(items: seq<Item>, i: nat)
    requires i <= |items|
    ensures forall s :: s in HandOut(items, i) ==> s.DrinkAntidote? || s.GiveAntidoteToMerc?
  {
    if i > 0 {
      HandOutOnlyAntidoteSteps(items, i - 1);
    }
  }

  /** The waypoint error returns before anything else; the Catacombs level 3
      error is returned only after the move to level 4 was attempted and
      before going back to town; with both travels done the step fights
      Andariel and returns nil. */
  lemma AndarielEarlyExits(w: Act1World)
    ensures w.outcome(WayPoint(CatacombsLevel2)).Some? ==>
      AndarielOutcome(w) == (w.outcome(WayPoint(CatacombsLevel2)), [WayPoint(CatacombsLevel2)])
    ensures w.outcome(WayPoint(CatacombsLevel2)).None? && w.outcome(MoveToArea(CatacombsLevel3)).Some? ==>
      && AndarielOutcome(w).0 == w.outcome(MoveToArea(CatacombsLevel3))
      && MoveToArea(CatacombsLevel4) in AndarielOutcome(w).1
      && ReturnTown !in AndarielOutcome(w).1
    ensures KillAndariel in AndarielOutcome(w).1 <==>
      w.outcome(WayPoint(CatacombsLevel2)).None? && w.outcome(MoveToArea(CatacombsLevel3)).None?
    ensures AndarielOutcome(w).0.None? <==>
      w.outcome(WayPoint(CatacombsLevel2)).None? && w.outcome(MoveToArea(CatacombsLevel3)).None?
  {
    if w.outcome(WayPoint(CatacombsLevel2)).None? && w.outcome(MoveToArea(CatacombsLevel3)).None? {
      assert AndarielFight[3] == KillAndariel;
    }
  }

  /** Andariel's merchant order, once both travels succeeded: the only
      purchase is of eight antidotes with a live merc, four otherwise. */
  lemma AndarielBuysAntidotes(w: Act1World)
    requires w.outcome(WayPoint(CatacombsLevel2)).None? && w.outcome(MoveToArea(CatacombsLevel3)).None?
    ensures forall q :: BuyAntidotes(q) in AndarielOutcome(w).1 <==> q == AntidotesToBuy(w.mercHpPercent)
    ensures BuyAntidotes(8) in AndarielOutcome(w).1 <==> w.mercHpPercent > 0
    ensures BuyAntidotes(4) in AndarielOutcome(w).1 <==> w.mercHpPercent <= 0
  {
    var inventory := InInventory(w.items);
    HandOutOnlyAntidoteSteps(inventory, |inventory|);
    assert Restock(w.mercHpPercent)[2] == BuyAntidotes(AntidotesToBuy(w.mercHpPercent));
  }

  /** The hand-out loop sees every antidote of the inventory grid and no other. */
  lemma {:induction false} AntidotesInInventory(items: seq<Item>)
    ensures Antidotes(InInventory(items)) == InventoryAntidotes(items)
  {
    if |items| > 0 {
      var init := items[..|items| - 1];
      var last := items[|items| - 1];
      AntidotesInInventory(init);
      if last.inInventory {
        var r := InInventory(items);
        assert r == InInventory(init) + [last];
        assert r[..|r| - 1] == InInventory(init);
      } else {
        assert InInventory(items) == InInventory(init);
      }
    }
  }

  /** A log without drinks and hand-overs. */
  lemma {:induction false} NoAntidoteSteps(steps: seq<Step>)
    requires forall k :: 0 <= k < |steps| ==> !steps[k].DrinkAntidote? && !steps[k].GiveAntidoteToMerc?
    ensures Drinks(steps) == 0 && Gifts(steps) == 0
  {
    if |steps| > 0 {
      NoAntidoteSteps(steps[..|steps| - 1]);
    }
  }

  lemma TravelAndFightHaveNoAntidoteSteps(mercHpPercent: int)
    ensures Drinks(CatacombsTravel + Restock(mercHpPercent)) == 0 && Gifts(CatacombsTravel + Restock(mercHpPercent)) == 0
    ensures Drinks(AndarielFight) == 0 && Gifts(AndarielFight) == 0
  {
    NoAntidoteSteps(CatacombsTravel + Restock(mercHpPercent));
    NoAntidoteSteps(AndarielFight);
  }

  /** Once both travels succeeded, the player drinks min(n, 4) antidotes
      and the merc gets the other n - 4, where n counts the antidotes in the
      inventory grid. */
  lemma AndarielAntidoteCounts(w: Act1World)
    requires w.outcome(WayPoint(CatacombsLevel2)).None? && w.outcome(MoveToArea(CatacombsLevel3)).None?
    ensures var n := InventoryAntidotes(w.items);
      && Drinks(AndarielOutcome(w).1) == (if n <= 4 then n else 4)
      && Gifts(AndarielOutcome(w).1) == (if n <= 4 then 0 else n - 4)
  {
    var inventory := InInventory(w.items);
    var handOut := HandOut(inventory, |inventory|);
    var before := CatacombsTravel + Restock(w.mercHpPercent);
    assert AndarielOutcome(w).1 == before + handOut + AndarielFight;
    TravelAndFightHaveNoAntidoteSteps(w.mercHpPercent);
    HandOutDrinks(inventory, |inventory|);
    HandOutGifts(inventory, |inventory|);
    assert inventory[..|inventory|] == inventory;
    AntidotesInInventory(w.items);
    DrinksAndGiftsOfAppend(before, handOut);
    DrinksAndGiftsOfAppend(before + handOut, AndarielFight);
  }

  /** The result does not depend on the move to Catacombs level 4. */
  lemma AndarielIgnoresLevel4Error(w: Act1World, e: Option<Error>)
    ensures AndarielOutcome(w) ==
      AndarielOutcome(w.(outcome := (s: Step) => if s == MoveToArea(CatacombsLevel4) then e else w.outcome(s)))
  {
  }

  // ---------------------------------------------------------------------
  // act1
  // ---------------------------------------------------------------------

  /** The source's `act1`: outside the Rogue Encampment nothing happens;
      otherwise each gate re-reads the level and runs its task below the
      threshold, discarding the task's error, and `andariel` runs last and
      decides the result. */
  method Act1(w: Act1World) returns (err: Option<Error>, steps: seq<Step>)
    ensures w.area != RogueEncampment ==> err == None && steps == []
    ensures w.area == RogueEncampment ==>
      err == AndarielOutcome(w).0 && steps == GatedSteps(w) + AndarielOutcome(w).1
  {
    var running := false;
    if running || w.area != RogueEncampment {
      return None, [];
    }
    running := true;
    var bloodMoor: seq<Step> := [];
    if w.levelAt(0) < 3 {
      var _, taskSteps := ZoneTask(w, OnFoot(BloodMoor));
      bloodMoor := taskSteps;
    }
    GateContributes(w, 0, bloodMoor);
    var coldPlains: seq<Step> := [];
    if w.levelAt(1) < 6 {
      var _, taskSteps := ZoneTask(w, OnFoot(ColdPlains));
      coldPlains := taskSteps;
    }
    GateContributes(w, 1, coldPlains);
    var stonyField: seq<Step> := [];
    if w.levelAt(2) < 7 {
      var _, taskSteps := ZoneTask(w, ByWaypoint(StonyField));
      stonyField := taskSteps;
    }
    GateContributes(w, 2, stonyField);
    var darkWood: seq<Step> := [];
    if w.levelAt(3) < 9 {
      var _, taskSteps := ZoneTask(w, ByWaypoint(DarkWood));
      darkWood := taskSteps;
    }
    GateContributes(w, 3, darkWood);
    var blackMarsh: seq<Step> := [];
    if w.levelAt(4) < 12 {
      var _, taskSteps := ZoneTask(w, ByWaypoint(BlackMarsh));
      blackMarsh := taskSteps;
    }
    GateContributes(w, 4, blackMarsh);
    var countess: seq<Step> := [];
    if w.levelAt(5) < 18 {
      var _, taskSteps := CountessTask(w);
      countess := taskSteps;
    }
    GateContributes(w, 5, countess);
    steps := bloodMoor + coldPlains + stonyField + darkWood + blackMarsh + countess;
    var andarielSteps;
    err, andarielSteps := Andariel(w);
    steps := steps + andarielSteps;
  }

  /** At level 18 or more at every gate, act1 goes straight to Andariel. */
  lemma HighLevelGoesStraightToAndariel(w: Act1World)
    requires w.area == RogueEncampment
    requires forall i: nat :: i < |Gates| ==> w.levelAt(i) >= 18
    ensures GatedSteps(w) + AndarielOutcome(w).1 == AndarielOutcome(w).1
  {
    HighLevelSkipsEveryGate(w);
  }
}
