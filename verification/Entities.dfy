/**
 Records, constants and price tables of a room (GameServer/include/DungeonRoom.h).

 Floats are exact reals. A planar distance is a parameter (see Simulation.Env), because the
 simulation only relies on the laws of a norm. 32-bit ledgers wrap explicitly.
 */
module Entities {
  type Id = nat
  type Uid = nat

  const U32: nat := 0x1_0000_0000

  function Add32(a: nat, b: nat): nat { (a + b) % U32 }

  function Sub32(a: nat, b: nat): nat { (a - b) % U32 }

  function Min(a: nat, b: nat): nat { if a <= b then a else b }

  function MaxReal(a: real, b: real): real { if a >= b then a else b }

  /** m without the key k. */
  function Remove<V>(m: map<nat, V>, k: nat): (r: map<nat, V>)
    ensures forall j :: j in r <==> j in m && j != k
    ensures forall j | j in r :: r[j] == m[j]
  {
    m - {k}
  }

  function Abs(x: real): real { if x >= 0.0 then x else -x }

  // ---- geometry ----

  datatype Vec3 = Vec3(x: real, y: real, z: real)

  /** A displacement on the ground: the simulation measures distance in x and z only. */
  datatype Planar = Planar(x: real, z: real)

  const ORIGIN := Vec3(0.0, 0.0, 0.0)

  function Toward(a: Vec3, b: Vec3): Planar { Planar(b.x - a.x, b.z - a.z) }

  function Scale(k: real, d: Planar): Planar { Planar(k * d.x, k * d.z) }

  function Plus(d: Planar, d': Planar): Planar { Planar(d.x + d'.x, d.z + d'.z) }

  /** Move p by the fraction k of d; the height does not change. */
  function Along(p: Vec3, d: Planar, k: real): Vec3 { Vec3(p.x + k * d.x, p.y, p.z + k * d.z) }

  /** Add the ground part of an offset to a point. */
  function Shift(p: Vec3, o: Vec3): Vec3 { Vec3(p.x + o.x, p.y, p.z + o.z) }

  // ---- constants ----

  const VILLAGER: nat := 0

  const RESOURCE_CAMP: nat := 0
  const VILLAGER_INN: nat := 1
  const BARRACKS: nat := 2
  const CRYSTAL: nat := 3

  const RAW_BERRIES: nat := 0
  const RAW_GOLD: nat := 1
  const RAW_WOOD: nat := 2
  const RAW_FARM: nat := 3

  const ATTACK_RANGE := 2.0
  const ATTACK_DAMAGE := 20.0
  const ATTACK_COOLDOWN := 1.0
  const BUILDING_ATTACK_RANGE := 4.0
  const TRAIN_SPAWN_FRONT := 4.0
  const TRAIN_WALK_OUT := 3.0
  const TRAIN_LATERAL_SPACING := 1.5
  const MOVE_SPEED := 6.0
  const AGGRO_RANGE := 8.0
  const AGGRO_LEASH := 14.0
  const AGGRO_SCAN_TICKS: nat := 5
  const DEFEND_RANGE := 3.0

  const CARRY_CAPACITY: nat := 10
  const HARVEST_INTERVAL := 1.0
  const CARRY_LIFT_DURATION := 2.2
  const ARRIVE_RADIUS := 0.15
  const BUILD_RANGE := 2.5
  const CONSTRUCT_PERCENT_PER_SEC := 25.0
  const TRAIN_TIME := 2.0

  const TICK_SECONDS := 0.05
  const SNAPSHOT_INTERVAL: nat := 20

  // ---- records ----

  datatype UnitState = Idle | Moving | Working | Attacking | Dead

  datatype WorkerTask = NoTask | Gathering | PreparingReturn | Returning | Pickup | Constructing

  datatype Unit = Unit(
    id: Id,
    owner: Uid,
    team: nat,
    unitType: nat,
    pos: Vec3,
    target: Vec3,
    hasTarget: bool,
    path: seq<Vec3>,
    pathIndex: nat,
    yaw: real,
    hp: real,
    speed: real,
    state: UnitState,
    attackTarget: Id,   // 0 means none
    attackCd: real,
    task: WorkerTask,
    gatherField: Id,
    dropoff: Id,
    pickupDrop: Id,
    buildTarget: Id,
    slot: Vec3,         // where this worker stands around a shared target
    carried: nat,
    carriedRaw: nat,
    workCd: real,
    autoAggro: bool,
    aggroOrigin: Vec3)

  datatype TrainItem = TrainItem(unitType: nat, remaining: real)

  datatype Building = Building(
    id: Id,
    owner: Uid,
    team: nat,
    buildingType: nat,
    pos: Vec3,
    yaw: real,
    hp: real,
    maxHp: real,
    percent: real,
    underConstruction: bool,
    queue: seq<TrainItem>)

  datatype Field = Field(id: Id, raw: nat, pos: Vec3, yaw: real, amount: nat)

  datatype Drop = Drop(id: Id, raw: nat, pos: Vec3, amount: nat)

  datatype Player = Player(uid: Uid, team: nat, ready: bool)

  datatype Cost = Cost(food: nat, wood: nat, gold: nat) {
    function Sum(): nat { food + wood + gold }
  }

  /** A player's 32-bit ledger. */
  datatype Ledger = Ledger(food: nat, wood: nat, gold: nat) {
    predicate CanAfford(c: Cost) {
      food >= c.food && wood >= c.wood && gold >= c.gold
    }

    function Pay(c: Cost): Ledger {
      Ledger(Sub32(food, c.food), Sub32(wood, c.wood), Sub32(gold, c.gold))
    }

    function Add(r: Resource, amount: nat): Ledger {
      match r
      case Food => this.(food := Add32(food, amount))
      case Wood => this.(wood := Add32(wood, amount))
      case Gold => this.(gold := Add32(gold, amount))
      case Nothing => this
    }

    function Of(kind: Resource): nat {
      match kind
      case Food => food
      case Wood => wood
      case Gold => gold
      case Nothing => 0
    }

    function Sum(): nat { food + wood + gold }
  }

  datatype Resource = Food | Wood | Gold | Nothing

  const START_LEDGER := Ledger(200, 200, 100)

  // ---- tables ----

  function ResourceOf(raw: nat): Resource {
    if raw == RAW_BERRIES || raw == RAW_FARM then Food
    else if raw == RAW_WOOD then Wood
    else if raw == RAW_GOLD then Gold
    else Nothing
  }

  function BuildingCost(buildingType: nat): Cost {
    if buildingType == RESOURCE_CAMP then Cost(0, 50, 0)
    else if buildingType == VILLAGER_INN then Cost(0, 100, 0)
    else if buildingType == BARRACKS then Cost(0, 150, 0)
    else Cost(0, 0, 0)
  }

  function BuildingMaxHp(buildingType: nat): real {
    if buildingType == VILLAGER_INN || buildingType == CRYSTAL then 300.0
    else if buildingType == BARRACKS then 400.0
    else 200.0
  }

  function UnitCost(unitType: nat): Cost { Cost(50, 0, 0) }

  predicate Trains(buildingType: nat, unitType: nat) {
    if unitType == VILLAGER then buildingType == VILLAGER_INN || buildingType == CRYSTAL
    else buildingType == BARRACKS
  }

  // ---- commands ----

  datatype CommandKind =
    MoveCmd | StopCmd | AttackCmd | HarvestCmd | StoreCmd | PickupCmd | BuildCmd | ConstructCmd | TrainCmd

  datatype Command = Command(
    kind: CommandKind,
    owner: Uid,
    clientSeq: nat,
    unitIds: seq<Id>,
    target: Vec3,
    path: seq<Vec3>,
    targetEntity: Id,
    auxType: nat,
    yaw: real)

  datatype Reason = InvalidRequest | InvalidEntity | NotEnoughResources

  datatype Rejected = Rejected(uid: Uid, clientSeq: nat, reason: Reason)

  // ---- room state ----

  /** What changed in the current frame; a delta is made from these marks alone. */
  datatype Marks = Marks(
    dirty: set<Id>, spawned: seq<Id>, despawned: seq<Id>,
    siteDirty: set<Id>, siteSpawned: seq<Id>, siteDespawned: seq<Id>,
    fieldDirty: set<Id>, fieldSpawned: seq<Id>, fieldDespawned: seq<Id>,
    dropSpawned: seq<Id>, dropDespawned: seq<Id>,
    ledgerDirty: set<Uid>)

  const NO_MARKS := Marks({}, [], [], {}, [], [], {}, [], [], [], [], {})

  /** An amount of each kind of resource; `other` is what no ledger takes. */
  datatype Bundle = Bundle(food: nat, wood: nat, gold: nat, other: nat) {
    function Of(kind: Resource): nat {
      match kind
      case Food => food
      case Wood => wood
      case Gold => gold
      case Nothing => other
    }

    function More(kind: Resource, n: nat): Bundle {
      match kind
      case Food => this.(food := food + n)
      case Wood => this.(wood := wood + n)
      case Gold => this.(gold := gold + n)
      case Nothing => this.(other := other + n)
    }
  }

  const NO_RESOURCES := Bundle(0, 0, 0, 0)

  /** History of resources that left play, in all and by kind. Nothing in the simulation reads it. */
  datatype Audit = Audit(spent: nat, buried: nat, forfeited: nat, byKind: Bundle) {
    function Spend(c: Cost): Audit {
      this.(spent := spent + c.Sum(), byKind := byKind.More(Food, c.food).More(Wood, c.wood).More(Gold, c.gold))
    }

    function Bury(raw: nat, n: nat): Audit {
      this.(buried := buried + n, byKind := byKind.More(ResourceOf(raw), n))
    }

    function Forfeit(raw: nat, n: nat): Audit {
      this.(forfeited := forfeited + n, byKind := byKind.More(ResourceOf(raw), n))
    }
  }

  const NO_LOSSES := Audit(0, 0, 0, NO_RESOURCES)

  /** How many teams, and how many crystal teams, the battle started with. */
  datatype Battle = Battle(teams: nat, crystalTeams: nat, begun: bool)

  datatype World = World(
    players: map<Uid, Player>,
    ledgers: map<Uid, Ledger>,
    nextId: Id,
    units: map<Id, Unit>,
    buildings: map<Id, Building>,
    fields: map<Id, Field>,
    drops: map<Id, Drop>,
    scanTick: nat,
    marks: Marks,
    pending: seq<Command>,
    rejected: seq<Rejected>,
    battle: Battle,
    audit: Audit)

  const EMPTY_WORLD := World(map[], map[], 1, map[], map[], map[], map[], 0, NO_MARKS, [], [],
                             Battle(0, 0, false), NO_LOSSES)
}
