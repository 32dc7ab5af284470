# Fire sorceress levelling: a Dafny model

This project models two parts of a Diablo II levelling bot.

**The fire sorceress character.** This covers:
- how she engages a target, tick after tick (`KillMonsterSequence`);
- the boss procedures built on that: `killMonster`, `KillCouncil`, `KillDiablo`, `KillAncients`, and the Static Field precasts before Duriel, Izual and Baal;
- her build tables: key bindings to check, buffs, skills to bind, stat targets, skill-point lists and the skill-reset rule.

**The act 1 levelling step.** This covers:
- a checklist of zone tasks, each run only below a character level read just before it;
- the Andariel step, with its early exits, its antidote purchase and the antidote hand-out loop.

The game is not simulated. The model represents it this way:
- **Sorceress.** The game is a trace of snapshots indexed by tick (`Game.world`). Each attack of an engagement reads the snapshot of its own tick. Attacks, precasts and moves are log entries (`Action`).
- **Act 1.** Travel, clearing and the other game calls are log entries (`Step`). A call whose error the code inspects gets its result from an oracle (`Act1World.outcome`).
- **Inputs.** The level read at each gate, the mercenary's health and the inventory are inputs of the world value.

The modules are:
- `GameData`: the shared vocabulary. It holds skills, npc ids, monsters, the player, a snapshot, and the monster lookups by name and type and by unit id.
- `SorceressLevelingFire`: the character file.
- `LevelingAct1`: the act 1 file.

## Model

| member | source | states |
|---|---|---|
| SorceressLevelingFire.PlannedAttackSpec | internal/character/sorceress_leveling_fire.go:77-97 | Low mana below level 15 gives the melee primary attack at distance 1..3. Otherwise a secondary attack uses the first bound skill of Blizzard, Meteor, Fire Ball, Fire Bolt, at distance 25..30. The primary attack is used iff mana is low or none of the four is bound. |
| SorceressLevelingFire.PlannedAttackFollowsChain | internal/character/sorceress_leveling_fire.go:82-97 | The if-chain over bound skills agrees with the ordered table Blizzard×1, Meteor×1, Fire Ball×4, Fire Bolt×4. |
| SorceressLevelingFire.KillMonsterSequence | internal/character/sorceress_leveling_fire.go:47-103 | The loop's stop reason and attack log equal the engagement relation `Engage`. It covers each exit: no target, failed pre-battle checks, the ten-attack ceiling on one target, the target missing by id. The counter is reset when the target changes. |
| SorceressLevelingFire.EngageTick | internal/character/sorceress_leveling_fire.go:55-101 | One pass of the loop: which exit is taken, or which attack is issued and how the counter and previous id are carried to the next tick. |
| SorceressLevelingFire.EngageLength | internal/character/sorceress_leveling_fire.go:47-103 | An engagement issues at most one attack per tick of its budget. It stops for lack of ticks only when every tick was used. |
| SorceressLevelingFire.EngageFollowsPlan | internal/character/sorceress_leveling_fire.go:55-101 | Attack k is the planned attack on the target the selector picks at tick start+k. At the stopping tick the snapshot shows the exit taken: no target, a failed check, or a checked target missing by id. For the ceiling it shows a selected, checked target; the run behind that stop is stated by `EngageCeilingAfterFullRun`. |
| SorceressLevelingFire.EngageCeilingAfterFullRun | internal/character/sorceress_leveling_fire.go:59-69 | A stop at the ceiling happens only after the unit selected at the stopping tick has taken exactly 10 attacks in a row. Those are the trailing attacks of the log on it, plus the attacks carried in when that run reaches back to the start and continues the previous target. |
| SorceressLevelingFire.EngageRunsBounded | internal/character/sorceress_leveling_fire.go:59-69 | No run of consecutive attacks on one unit is longer than 10. This holds even when attacks already counted before the engagement's start are included. |
| SorceressLevelingFire.EngageStuckTarget | internal/character/sorceress_leveling_fire.go:59-69 | Take a target that stays selected, passes its checks and stays listed. It receives exactly the attacks left under the ceiling, and then the loop returns at the ceiling. |
| SorceressLevelingFire.KillMonster | internal/character/sorceress_leveling_fire.go:105-114 | `killMonster` is the engagement whose selector is the first monster with the name and type, with no immunities skipped. |
| SorceressLevelingFire.KillMonsterHitsNamedMonster | internal/character/sorceress_leveling_fire.go:105-114 | Every attack hits the first monster with that name and type in its tick's list, at most 10 times in a row. If none is listed at the start, nothing is attacked. |
| SorceressLevelingFire.KillPlainBoss | internal/character/sorceress_leveling_fire.go:348-357 | `KillCountess` (the super unique Dark Stalker), `KillAndariel` and `KillSummoner` (unique) are each `killMonster` on a fixed name and type. The same wrapper models `KillMephisto` (line 392, unique) and `KillPindle` and `KillNihlathak` (lines 434-440, super unique). |
| SorceressLevelingFire.NearestCouncilMember | internal/character/sorceress_leveling_fire.go:368-388 | Selects a council member of the list at minimum distance from the player. None iff no council member is listed. |
| SorceressLevelingFire.KillCouncil | internal/character/sorceress_leveling_fire.go:366-390 | `KillCouncil` is the engagement whose selector is the nearest council member. |
| SorceressLevelingFire.KillCouncilHitsNearest | internal/character/sorceress_leveling_fire.go:366-390 | Every attack hits a council member that is nearest in that tick's snapshot. With no council member present, the engagement ends with no attack. |
| SorceressLevelingFire.StaticFieldCasts | internal/character/sorceress_leveling_fire.go:134-144 | Static Field is cast 8 times on Normal and 6 times on the other difficulties. |
| SorceressLevelingFire.PrecastThenKill | internal/character/sorceress_leveling_fire.go:359-364 | The log is one Static Field precast at the boss's unit id (0 when it is not listed), followed by exactly the `killMonster` engagement. |
| SorceressLevelingFire.KillDuriel | internal/character/sorceress_leveling_fire.go:359-364 | Static Field at Duriel from distance 1..5, then the engagement against the unique Duriel. |
| SorceressLevelingFire.KillIzual | internal/character/sorceress_leveling_fire.go:395-400 | Static Field at Izual from distance 1..5, then the engagement against the unique Izual. |
| SorceressLevelingFire.KillBaal | internal/character/sorceress_leveling_fire.go:455-460 | Static Field at the Baal crab from distance 1..4, then the engagement against it. |
| SorceressLevelingFire.EngagementHasNoPrecastOrMove | internal/character/sorceress_leveling_fire.go:77-97 | An engagement never casts Static Field and never moves. |
| SorceressLevelingFire.AncientsOnePrecastAndMovePerElite | internal/character/sorceress_leveling_fire.go:443-451 | Over the elites, the log has exactly one Static Field precast and one move to the tactical point per elite. |
| SorceressLevelingFire.KillAncients | internal/character/sorceress_leveling_fire.go:442-453 | For each elite in order: Static Field from 8..10, a move to (10062, 12639), then `killMonster` on the elite as a super unique. The result has one precast and one move per elite. |
| SorceressLevelingFire.DiabloNeverAlreadyDead | internal/character/sorceress_leveling_fire.go:413-423 | The "already dead" return is never taken. The found flag is still false whenever Diablo is missing, so the loop keeps waiting. |
| SorceressLevelingFire.DiabloNotFoundIffNeverSeen | internal/character/sorceress_leveling_fire.go:407-423 | The wait ends with "not found" iff Diablo is never listed alive before the timeout. In that case nothing is cast. |
| SorceressLevelingFire.DiabloFirstSighting | internal/character/sorceress_leveling_fire.go:425-430 | Let Diablo be first seen alive at some poll. The log is then Static Field at him from 1..5, followed by the engagement started at that tick. |
| SorceressLevelingFire.KillDiablo | internal/character/sorceress_leveling_fire.go:402-432 | The polling loop equals the wait relation. It ends "not found" iff Diablo is never alive within the timeout, and then with an empty log. |
| SorceressLevelingFire.CheckKeyBindings | internal/character/sorceress_leveling_fire.go:30-45 | The missing list is the required skills without a binding: the town portal tome when it is unbound, else nothing. |
| SorceressLevelingFire.BuffSkills | internal/character/sorceress_leveling_fire.go:116-128 | The buffs are the bound ones among Frozen Armor and Energy Shield, in that order. |
| SorceressLevelingFire.UtilityBindings | internal/character/sorceress_leveling_fire.go:155-169 | Always the town portal tome first. Then Frozen Armor from level 4, Static Field from 6 and Teleport from 18, in that order. |
| SorceressLevelingFire.SkillsToBind | internal/character/sorceress_leveling_fire.go:155-190 | The bindings are the utilities for the level plus the first learned skill of Blizzard, Meteor, Fire Ball, Fire Bolt, with the tome first. The main skill is Blizzard iff it is learned, else Meteor iff learned, else the basic attack. A main skill other than the basic attack is bound. |
| SorceressLevelingFire.BoundBuildCastsChosenSkill | internal/character/sorceress_leveling_fire.go:82-97 | With exactly the skills `SkillsToBind` chose bound and enough mana, the engagement casts the attack skill that was bound, or melees when none was. |
| SorceressLevelingFire.AssignEnergyStats | internal/character/sorceress_leveling_fire.go:207-223 | The energy target exceeds the starting 35: 40 below level 7 and 50 from level 7. |
| SorceressLevelingFire.StatPoints | internal/character/sorceress_leveling_fire.go:225-247 | Below level 7 all points go to Vitality (9999). From level 7 the only target is Energy, equal to the `AssignEnergyStats` target. |
| SorceressLevelingFire.LevellingPlanSpells | internal/character/sorceress_leveling_fire.go:254-278 | Below level 24 the list has 23 points: 10 in Fire Bolt and 8 in Fire Ball. |
| SorceressLevelingFire.LevellingPlanUtilities | internal/character/sorceress_leveling_fire.go:254-278 | Below level 24, Frozen Armor, Static Field and Warmth get one point each. |
| SorceressLevelingFire.LevellingPlanMobility | internal/character/sorceress_leveling_fire.go:254-278 | Below level 24, Telekinesis and Teleport get one point each. |
| SorceressLevelingFire.RespecPlanSpells | internal/character/sorceress_leveling_fire.go:280-340 | From level 24 the list has 60 points: 20 in Fire Ball and 20 in Meteor. |
| SorceressLevelingFire.RespecPlanMastery | internal/character/sorceress_leveling_fire.go:280-340 | From level 24, Fire Mastery gets 16 points. |
| SorceressLevelingFire.RespecPlanBoltAndWarmth | internal/character/sorceress_leveling_fire.go:280-340 | From level 24, the prerequisites Fire Bolt and Warmth get one point each. |
| SorceressLevelingFire.RespecPlanInfernoAndBlaze | internal/character/sorceress_leveling_fire.go:280-340 | From level 24, the prerequisites Inferno and Blaze get one point each. |
| SorceressLevelingFire.ResetSpendsRespecPlan | internal/character/sorceress_leveling_fire.go:146-153 | A reset is asked for only when the list then handed out is the 60-point respec list. Below level 24 no reset is asked for, and the 23-point list is in force. |
| LevelingAct1.ZoneTask | internal/run/leveling_act1.go:75-141 | A zone task travels (on foot or by waypoint) and returns the travel error without clearing. Otherwise it clears the level and returns the clear error. |
| LevelingAct1.ZoneTaskClearsOnlyAfterTravel | internal/run/leveling_act1.go:75-141 | The level is cleared iff the travel succeeded. A failed travel is the task's error. The task starts with its travel. |
| LevelingAct1.CountessTask | internal/run/leveling_act1.go:211-213 | The Countess task is one Countess run, and its error is that run's. |
| LevelingAct1.GateThresholdsIncrease | internal/run/leveling_act1.go:26-70 | The gate thresholds 3, 6, 7, 9, 12, 18 rise strictly along the checklist, and none exceeds 18. |
| LevelingAct1.GateRunsIffOpen | internal/run/leveling_act1.go:26-70 | A task of the checklist runs iff the level read at its gate is below its threshold. This holds whatever the other gates do and whatever errors earlier tasks return. |
| LevelingAct1.HighLevelSkipsEveryGate | internal/run/leveling_act1.go:26-70 | At level 18 or more at every gate, no zone task and no Countess run happens. |
| LevelingAct1.Act1 | internal/run/leveling_act1.go:17-73 | Outside the Rogue Encampment, act1 does nothing and returns nil. Otherwise it runs the gated tasks in order, ignoring their errors, then runs `andariel`, whose error is the result. |
| LevelingAct1.HighLevelGoesStraightToAndariel | internal/run/leveling_act1.go:17-73 | At level 18 or more at every gate, act1's steps are exactly Andariel's. |
| LevelingAct1.AntidotesToBuy | internal/run/leveling_act1.go:230-233 | Eight antidotes when the mercenary's health is above 0, otherwise four. |
| LevelingAct1.InInventory | internal/run/leveling_act1.go:245 | An item is looked at iff it is one of the items in the inventory grid. |
| LevelingAct1.InInventoryFollowsPositions | internal/run/leveling_act1.go:245 | The items looked at are the items at the inventory-grid positions, one per position, in increasing position order. |
| LevelingAct1.InInventoryCounts | internal/run/leveling_act1.go:245 | Every inventory-grid item is kept as often as it occurs, and no other item is kept. |
| LevelingAct1.AntidotesInInventory | internal/run/leveling_act1.go:245-248 | The hand-out loop sees exactly the antidotes of the inventory grid. |
| LevelingAct1.DistributeAntidotes | internal/run/leveling_act1.go:244-264 | The loop's steps equal the hand-out relation over all inventory items. |
| LevelingAct1.HandOutDecides | internal/run/leveling_act1.go:244-264 | Item j is drunk iff it is an antidote with at most three antidotes before it. It is given to the mercenary iff it is an antidote with four or more before it. Non-antidotes are skipped. |
| LevelingAct1.HandOutDrinks | internal/run/leveling_act1.go:244-264 | With n antidotes in the inventory, min(n, 4) are drunk. |
| LevelingAct1.HandOutGifts | internal/run/leveling_act1.go:244-264 | With n antidotes in the inventory, max(0, n − 4) go to the mercenary. |
| LevelingAct1.HandOutOnlyAntidoteSteps | internal/run/leveling_act1.go:244-264 | The hand-out loop only drinks or hands over. |
| LevelingAct1.Andariel | internal/run/leveling_act1.go:215-280 | The `andariel` step equals its outcome relation: travel, the early exits, restocking, the hand-out loop, then the fight and the return to Warriv. |
| LevelingAct1.AndarielEarlyExits | internal/run/leveling_act1.go:216-226 | A waypoint error returns at once. A Catacombs level 3 error returns only after the move to level 4 was attempted, and before going to town. Andariel is fought, and nil returned, iff both travels succeed. |
| LevelingAct1.AndarielAntidoteCounts | internal/run/leveling_act1.go:244-264 | Once both travels succeed, with n antidotes in the inventory grid, the player drinks min(n, 4) and the mercenary gets max(0, n − 4). |
| LevelingAct1.AndarielIgnoresLevel4Error | internal/run/leveling_act1.go:221-226 | The error of the move to Catacombs level 4 is discarded: the result and the steps do not depend on it. |
| LevelingAct1.AndarielBuysAntidotes | internal/run/leveling_act1.go:228-240 | Once both travels succeed, there is one purchase: eight antidotes with a live mercenary, four otherwise. |

## Left out

- **Real time.**
  - Wall-clock time and sleeps are replaced by ticks.
  - An engagement reads one snapshot per attack and has a tick budget (`Game.tickBudget`). The model-only stop reason `OutOfTicks` marks a run that hits it; the source loops until a game condition stops it.
  - The 20-second Diablo timeout is a number of polls (`timeoutPolls`).
- **Effects on the game.**
  - Attacks, precasts, moves, travel, clearing, the Countess run, the vendor, `ReturnTown`, `UsePortalInTown`, `Buff` and `InteractNPC` are log entries.
  - Their effect on the game shows only through the snapshots or oracles that follow.
  - Pathfinding is a distance parameter.
- **Keyboard, mouse and screen work.** This includes opening the inventory, the item and mercenary-avatar clicks, Escape and the final key sequence. The hand-out loop's left click plus avatar click is `GiveAntidoteToMerc`, and its right click is `DrinkAntidote`.
- **Logging and configuration.** These are not modelled; the difficulty is a parameter of `Game`.
- **Monster data** (d2go) is not part of this model:
  - `FindOne` is the first monster with the name whose type matches;
  - `FindByID` is the first monster with the unit id;
  - a failed lookup gives the zero monster, so precasts go to unit 0 and the Ancients engagement targets npc id 0.
- **`preBattleChecks`** belongs to the base character. It is an input predicate of `Game`.
- **The elite list of `KillAncients`** is read once when the loop starts. It is a parameter (`elites`).
- **Game data read by act1.** The inventory after the purchase and the level at each gate are inputs of `Act1World`; the purchase itself does not change the modelled inventory.
- **Unused act1 tasks.** Tristram, Cain, Den of Evil and the rest are called only from commented-out code, so they are not modelled. The Countess run is one opaque step.
- **SorceressLevelingFire.NearestCouncilMember:** the source sorts the council members by distance with an unstable sort and takes the first. The model takes a minimum instead, so among equally near members the one it picks may differ from the source's. The contract states only "a member at minimum distance", which holds for both.
- **SorceressLevelingFire.AssignEnergyStats:** `StatPoints` hard-codes 50 and does not call this function. The model states that they agree from level 7.
- **SorceressLevelingFire.SkillsToBind:** the source appends the attack skill inside its if-chain. The model chooses the attack first, as an optional skill, and then appends it. The resulting list is the same.
- **Gate comments.** Where a gate's comment and its code disagree, the model follows the code:
  - `internal/run/leveling_act1.go:40` is commented "until level 9" but tests `< 7`;
  - line 53 is commented "until level 10" but tests `< 9`;
  - line 68 is commented "until level 17" but tests `< 18`.
- **The `running` flag of act1** is a local that is always false when tested. It is kept as written and has no effect.
