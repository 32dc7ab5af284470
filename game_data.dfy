/** The game-state vocabulary the bot reads: skills, monsters, the player and
    one snapshot of the world. The lookups at the bottom stand for the
    game-data library's `Monsters.FindOne` and `Monsters.FindByID`. */
module GameData {

  datatype Option<T> = None | Some(value: T)

  type UnitId = int

  datatype Position = Position(x: int, y: int)

  datatype SkillId =
    | AttackSkill | TomeOfTownPortal
    | FrozenArmor | EnergyShield | StaticField | Telekinesis | Teleport | Warmth
    | FireBolt | FireBall | Inferno | Blaze | Meteor | FireMastery | Blizzard

  /** Monster names the core refers to; every other name is `OtherNpc`, and
      `OtherNpc(0)` is the zero value a failed lookup leaves behind. */
  datatype NpcId =
    | CouncilMember | CouncilMember2 | CouncilMember3
    | Andariel | DarkStalker | Summoner | Duriel | Mephisto | Izual | Diablo
    | DefiledWarrior | Nihlathak | BaalCrab
    | OtherNpc(code: nat)

  const ZeroNpc: NpcId := OtherNpc(0)

  datatype MonsterType = NoType | Champion | Minion | Unique | SuperUnique

  datatype Resist = FireImmune | ColdImmune | LightningImmune | PoisonImmune | MagicImmune | PhysicalImmune

  datatype Difficulty = Normal | Nightmare | Hell

  /** `life` is the monster's Life stat (0 when the stat is missing). */
  datatype Monster = Monster(unitId: UnitId, name: NpcId, kind: MonsterType, position: Position, life: int)

  /** `level` is the Level stat (0 when missing); `skillLevels` maps a skill to its points. */
  datatype Player = Player(level: int, mpPercent: int, skillLevels: map<SkillId, int>, position: Position)

  /** One reading of the game: the monster list, the player and the skills bound to keys. */
  datatype Snapshot = Snapshot(monsters: seq<Monster>, player: Player, bindings: set<SkillId>)

  /** `Skills[s].Level`: a missing entry reads as level 0. */
  function SkillLevel(p: Player, s: SkillId): int {
    if s in p.skillLevels then p.skillLevels[s] else 0
  }

  /** The skills with at least one point. */
  function Learned(p: Player): (learned: set<SkillId>)
    ensures forall s :: s in learned <==> SkillLevel(p, s) > 0
  {
    set s | s in p.skillLevels && p.skillLevels[s] > 0
  }

  /** `FindOne(name, kind)` matches on the name and, unless `kind` is NoType, on the type. */
  predicate Matches(m: Monster, name: NpcId, kind: MonsterType) {
    m.name == name && (kind == NoType || m.kind == kind)
  }

  /** The first monster, in list order, that matches the name and the type. */
  function FindOne(ms: seq<Monster>, name: NpcId, kind: MonsterType): (r: Option<Monster>)
    ensures r.None? <==> forall i :: 0 <= i < |ms| ==> !Matches(ms[i], name, kind)
    ensures r.Some? ==> r.value in ms && Matches(r.value, name, kind)
  {
    if |ms| == 0 then None
    else if Matches(ms[0], name, kind) then Some(ms[0])
    else FindOne(ms[1..], name, kind)
  }

  /** The first monster, in list order, with the given unit id. */
  function FindById(ms: seq<Monster>, id: UnitId): (r: Option<Monster>)
    ensures r.None? <==> forall i :: 0 <= i < |ms| ==> ms[i].unitId != id
    ensures r.Some? ==> r.value in ms && r.value.unitId == id
  {
    if |ms| == 0 then None
    else if ms[0].unitId == id then Some(ms[0])
    else FindById(ms[1..], id)
  }

  /** `m.UnitID` after `m, _ := FindOne(...)`: the zero unit id when nothing was found. */
  function UnitIdOrZero(m: Option<Monster>): UnitId {
    if m.Some? then m.value.unitId else 0
  }

  /** `m.Name` after `m, _ := FindOne(...)`: the zero npc id when nothing was found. */
  function NameOrZero(m: Option<Monster>): NpcId {
    if m.Some? then m.value.name else ZeroNpc
  }
}
