/**
 What one frame of a room computes (DungeonRoom.h, ApplyPending and Step).

 A unit decides on its next record and on at most one effect on the rest of the room
 (Decide..., giving an Outcome); Commit carries the outcome out and marks what changed.
 Commands are carried out the same way. Class Rooms.DungeonRoom does the same work in place
 and is proved to compute exactly these functions.
 */
module Simulation {
  import opened Entities

  /**
   What the simulation leaves open: the length of a planar displacement, the trigonometric
   functions, the slots around a shared target, and the iteration order of a hash map.
   */
  datatype Env = Env(
    len: Planar -> real,
    atan2: Planar -> real,
    sin: real -> real,
    cos: real -> real,
    slot: (nat, nat) -> Vec3,
    enum: set<Id> -> seq<Id>)

  ghost predicate IsNorm(len: Planar -> real) {
    && (forall d :: len(d) >= 0.0)
    && (forall k, d :: len(Scale(k, d)) == Abs(k) * len(d))
    && (forall d, d' :: len(Plus(d, d')) <= len(d) + len(d'))
    && len(Planar(1.0, 0.0)) == 1.0
  }

  ghost predicate IsEnumeration(ids: seq<Id>, keys: set<Id>) {
    && (forall i :: 0 <= i < |ids| ==> ids[i] in keys)
    && (forall k :: k in keys ==> k in ids)
    && (forall i, j :: 0 <= i < j < |ids| ==> ids[i] != ids[j])
  }

  ghost predicate Enumerates(enum: set<Id> -> seq<Id>) {
    forall keys :: IsEnumeration(enum(keys), keys)
  }

  // ---- effects ----

  datatype Effect =
    | NoEffect
    | Shed(raw: nat, amount: nat)        // the carried load becomes a drop
    | HitUnit(victim: Id)
    | HitBuilding(victim: Id)
    | Mine(field: Id, amount: nat)
    | Deposit(raw: nat, amount: nat)
    | Take(drop: Id, amount: nat)
    | Raise(site: Id, gain: real)

  datatype Outcome = Outcome(unit: Unit, effect: Effect)

  /** The effect only names entities that exist. */
  predicate Feasible(w: World, o: Outcome) {
    && o.unit.id in w.units
    && match o.effect
       case HitUnit(v) => v in w.units
       case HitBuilding(v) => v in w.buildings
       case Mine(f, n) => f in w.fields && n <= w.fields[f].amount
       case Take(d, n) => d in w.drops && n <= w.drops[d].amount
       case Raise(s, _) => s in w.buildings
       case _ => true
  }

  function Wound(hp: real): real { MaxReal(0.0, hp - ATTACK_DAMAGE) }

  function Raised(b: Building, gain: real): Building {
    if b.percent + gain >= 100.0 then
      b.(percent := 100.0, underConstruction := false, hp := b.maxHp)
    else
      b.(percent := b.percent + gain, hp := MaxReal(b.hp, b.maxHp * (b.percent + gain) / 100.0))
  }

  /** Store a unit and mark it. */
  function Touch(w: World, id: Id, u: Unit): World {
    w.(units := w.units[id := u], marks := w.marks.(dirty := w.marks.dirty + {id}))
  }

  /** Store a building and mark it. */
  function TouchSite(w: World, id: Id, b: Building): World {
    w.(buildings := w.buildings[id := b], marks := w.marks.(siteDirty := w.marks.siteDirty + {id}))
  }

  function SpawnDrop(w: World, raw: nat, pos: Vec3, amount: nat): World {
    w.(nextId := w.nextId + 1,
       drops := w.drops[w.nextId := Drop(w.nextId, raw, pos, amount)],
       marks := w.marks.(dropSpawned := w.marks.dropSpawned + [w.nextId]))
  }

  /** Pay a deposit into the owner's ledger; without a ledger, or of no known kind, it is lost. */
  function Credit(w: World, owner: Uid, raw: nat, amount: nat): World {
    var known := owner in w.ledgers;
    w.(ledgers := if known then w.ledgers[owner := w.ledgers[owner].Add(ResourceOf(raw), amount)] else w.ledgers,
       marks := w.marks.(ledgerDirty := w.marks.ledgerDirty + if known then {owner} else {}),
       audit := if known && ResourceOf(raw) != Nothing then w.audit
                else w.audit.Forfeit(raw, amount))
  }

  /** Take n from a field; an empty field disappears. */
  function MineField(w: World, f: Id, n: nat): World
    requires f in w.fields && n <= w.fields[f].amount
  {
    var rest := w.fields[f].amount - n;
    w.(fields := if rest > 0 then w.fields[f := w.fields[f].(amount := rest)] else Remove(w.fields, f),
       marks := w.marks.(fieldDirty := w.marks.fieldDirty + {f},
                         fieldDespawned := w.marks.fieldDespawned + if rest > 0 then [] else [f]))
  }

  /** Take n from a drop; an empty drop disappears. */
  function TakeDrop(w: World, d: Id, n: nat): World
    requires d in w.drops && n <= w.drops[d].amount
  {
    var rest := w.drops[d].amount - n;
    w.(drops := if rest > 0 then w.drops[d := w.drops[d].(amount := rest)] else Remove(w.drops, d),
       marks := w.marks.(dropDespawned := w.marks.dropDespawned + if rest > 0 then [] else [d]))
  }

  function HurtUnit(w: World, v: Id): World
    requires v in w.units
  {
    Touch(w, v, w.units[v].(hp := Wound(w.units[v].hp)))
  }

  function HurtBuilding(w: World, v: Id): World
    requires v in w.buildings
  {
    TouchSite(w, v, w.buildings[v].(hp := Wound(w.buildings[v].hp)))
  }

  function RaiseSite(w: World, s: Id, gain: real): World
    requires s in w.buildings
  {
    TouchSite(w, s, Raised(w.buildings[s], gain))
  }

  function Commit(w: World, o: Outcome): World
    requires Feasible(w, o)
  {
    var w := Touch(w, o.unit.id, o.unit);
    match o.effect
    case NoEffect => w
    case Shed(raw, n) => SpawnDrop(w, raw, o.unit.pos, n)
    case HitUnit(v) => HurtUnit(w, v)
    case HitBuilding(v) => HurtBuilding(w, v)
    case Mine(f, n) => MineField(w, f, n)
    case Deposit(raw, n) => Credit(w, o.unit.owner, raw, n)
    case Take(d, n) => TakeDrop(w, d, n)
    case Raise(s, gain) => RaiseSite(w, s, gain)
  }

  // ---- edits of one unit's record ----

  /** How far a unit walks in one frame. */
  function Stride(u: Unit, dt: real): real { u.speed * dt }

  function ClearTask(u: Unit): Unit {
    u.(task := NoTask, gatherField := 0, dropoff := 0, pickupDrop := 0, buildTarget := 0,
       slot := ORIGIN, workCd := 0.0, path := [], pathIndex := 0)
  }

  function Idled(u: Unit): Unit { ClearTask(u).(state := Idle) }

  function Face(e: Env, u: Unit, p: Vec3): (r: Unit)
    ensures r == u.(yaw := r.yaw)
  {
    var d := Toward(u.pos, p);
    if e.len(d) > 0.01 then u.(yaw := e.atan2(d)) else u
  }

  function ToPreparing(e: Env, u: Unit, face: Vec3): Unit {
    Face(e, u.(task := PreparingReturn, target := face, hasTarget := false,
               workCd := CARRY_LIFT_DURATION, state := Working), face)
  }

  function ToReturning(u: Unit): Unit { u.(task := Returning, workCd := 0.0, state := Moving) }

  /** One step in a straight line; true when p is already within the arrival radius. */
  function MoveToward(e: Env, u: Unit, p: Vec3, arrive: real, dt: real): (r: (Unit, bool))
    ensures r.0 == u.(pos := r.0.pos, yaw := r.0.yaw)
  {
    var d := Toward(u.pos, p);
    var dist := e.len(d);
    if dist <= arrive then (u, true)
    else if Stride(u, dt) > 0.0 && dist > 0.0001 then
      (u.(pos := Along(u.pos, d, Stride(u, dt) / dist), yaw := e.atan2(d)), false)
    else (u, false)
  }

  function Chase(e: Env, u: Unit, p: Vec3, dt: real, range: real): (r: (Unit, bool))
    requires range >= 0.0
    ensures r.0 == u.(pos := r.0.pos, yaw := r.0.yaw)
  {
    var d := Toward(u.pos, p);
    var dist := e.len(d);
    var u := if dist > 0.0001 then u.(yaw := e.atan2(d)) else u;
    if dist > range then
      (if Stride(u, dt) > 0.0 then u.(pos := Along(u.pos, d, Stride(u, dt) / dist)) else u, false)
    else (u, true)
  }

  predicate OnPath(u: Unit) { u.path != [] && u.pathIndex < |u.path| }

  function Destination(u: Unit): Vec3 { if OnPath(u) then u.path[u.pathIndex] else u.target }

  function Halted(u: Unit): Unit { u.(hasTarget := false, state := Idle) }

  /** Walk along the waypoints, or straight to the target, with this much step length left. */
  function Walk(e: Env, u: Unit, left: real): Unit
    decreases if OnPath(u) then |u.path| - u.pathIndex else 0
  {
    if left <= 0.00001 then u
    else
      var dest := Destination(u);
      var d := Toward(u.pos, dest);
      var dist := e.len(d);
      if dist <= left || dist < 0.0001 then
        var u' := u.(pos := dest);
        if !OnPath(u) then Halted(u')
        else if u.pathIndex + 1 >= |u.path| then Halted(u'.(path := [], pathIndex := 0))
        else Walk(e, u'.(pathIndex := u.pathIndex + 1), left - MaxReal(dist, 0.0))
      else
        u.(pos := Along(u.pos, d, left / dist), yaw := e.atan2(d), state := Moving)
  }

  // ---- looking around ----

  function Gap(e: Env, a: Vec3, b: Vec3): real { e.len(Toward(a, b)) }

  /** The nearest living enemy within range among ids, the first one of several; 0 if none. */
  function ScanEnemy(e: Env, w: World, u: Unit, range: real, ids: seq<Id>): (r: Id)
    ensures r == 0 || r in w.units
  {
    if ids == [] then 0
    else
      var best := ScanEnemy(e, w, u, range, ids[..|ids| - 1]);
      var k := ids[|ids| - 1];
      if k in w.units && w.units[k].team != u.team && w.units[k].hp > 0.0
         && Gap(e, u.pos, w.units[k].pos) < (if best == 0 then range else Gap(e, u.pos, w.units[best].pos))
      then k else best
  }

  function NearestEnemy(e: Env, w: World, u: Unit, range: real): Id {
    ScanEnemy(e, w, u, range, e.enum(w.units.Keys))
  }

  predicate IsDropoff(b: Building, team: nat) {
    b.team == team && !b.underConstruction && (b.buildingType == RESOURCE_CAMP || b.buildingType == CRYSTAL)
  }

  /** The nearest dropoff of the team among ids, the first one of several; 0 if none. */
  function ScanDropoff(e: Env, w: World, team: nat, from: Vec3, ids: seq<Id>): (r: Id)
    ensures r == 0 || r in w.buildings
  {
    if ids == [] then 0
    else
      var best := ScanDropoff(e, w, team, from, ids[..|ids| - 1]);
      var k := ids[|ids| - 1];
      if k in w.buildings && IsDropoff(w.buildings[k], team)
         && (best == 0 || Gap(e, from, w.buildings[k].pos) < Gap(e, from, w.buildings[best].pos))
      then k else best
  }

  function NearestDropoff(e: Env, w: World, team: nat, from: Vec3): Id {
    ScanDropoff(e, w, team, from, e.enum(w.buildings.Keys))
  }

  // ---- one unit's turn ----

  function CoolDown(cd: real, dt: real): real {
    if cd > 0.0 then MaxReal(0.0, cd - dt) else cd
  }

  function Cool(w: World, id: Id, dt: real): World
    requires id in w.units
  {
    w.(units := w.units[id := w.units[id].(attackCd := CoolDown(w.units[id].attackCd, dt))])
  }

  function Engaged(u: Unit, target: Id): Unit {
    u.(attackTarget := target, autoAggro := true, aggroOrigin := u.pos, state := Attacking)
  }

  /** A worker that drops its work to defend itself. */
  function Fighting(u: Unit, target: Id): Unit { Engaged(ClearTask(u).(hasTarget := false), target) }

  /** Put the load down as a drop, if there is one. */
  function Shedding(u: Unit, next: Unit): Outcome {
    if u.carried > 0 then Outcome(next.(carried := 0), Shed(u.carriedRaw, u.carried))
    else Outcome(next, NoEffect)
  }

  /** The automatic reaction on a scan tick; None when the unit ignores the scan. */
  datatype Reaction = Ignore | React(outcome: Outcome)

  function Alert(e: Env, w: World, u: Unit): Reaction {
    if u.attackTarget != 0 then Ignore
    else if u.task == NoTask then
      if u.hasTarget then Ignore
      else
        var foe := NearestEnemy(e, w, u, AGGRO_RANGE);
        if foe == 0 then Ignore else React(Outcome(Engaged(u, foe), NoEffect))
    else
      var foe := NearestEnemy(e, w, u, DEFEND_RANGE);
      if foe == 0 then Ignore
      else React(Shedding(u, Fighting(u, foe)))
  }

  function StopAttack(u: Unit): Unit { u.(attackTarget := 0, autoAggro := false, state := Idle) }

  function Strike(e: Env, u: Unit, p: Vec3, dt: real, range: real, hit: Effect): (o: Outcome)
    requires range >= 0.0
    ensures o.unit == u.(state := Attacking, pos := o.unit.pos, yaw := o.unit.yaw, attackCd := o.unit.attackCd)
    ensures o.effect == NoEffect || o.effect == hit
  {
    var (u, inRange) := Chase(e, u.(state := Attacking), p, dt, range);
    if inRange && u.attackCd <= 0.0 then Outcome(u.(attackCd := ATTACK_COOLDOWN), hit)
    else Outcome(u, NoEffect)
  }

  function DecideCombat(e: Env, w: World, u: Unit, dt: real): Outcome {
    if u.autoAggro && Gap(e, u.aggroOrigin, u.pos) > AGGRO_LEASH then
      Outcome(u.(autoAggro := false, attackTarget := 0, hasTarget := true, target := u.aggroOrigin, state := Moving),
              NoEffect)
    else if u.attackTarget in w.units then
      var t := w.units[u.attackTarget];
      if t.hp <= 0.0 || t.team == u.team then Outcome(StopAttack(u), NoEffect)
      else Strike(e, u, t.pos, dt, ATTACK_RANGE, HitUnit(u.attackTarget))
    else if u.attackTarget in w.buildings then
      var t := w.buildings[u.attackTarget];
      if t.hp <= 0.0 || t.team == u.team then Outcome(StopAttack(u), NoEffect)
      else Strike(e, u, t.pos, dt, BUILDING_ATTACK_RANGE, HitBuilding(u.attackTarget))
    else Outcome(StopAttack(u), NoEffect)
  }

  /** How many units of resource the accumulated work time yields. */
  function Yield(workCd: real, carried: nat, left: nat): (n: nat)
    ensures n <= left && (carried <= CARRY_CAPACITY ==> carried + n <= CARRY_CAPACITY)
    decreases left
  {
    if workCd >= HARVEST_INTERVAL && carried < CARRY_CAPACITY && left > 0
    then 1 + Yield(workCd - HARVEST_INTERVAL, carried + 1, left - 1)
    else 0
  }

  /** The unit after working at the field for one frame. */
  function Harvested(e: Env, u: Unit, field: Field, dt: real): Unit {
    var n := Yield(u.workCd + dt, u.carried, field.amount);
    var v := Face(e, u, field.pos).(state := Working, carriedRaw := field.raw, carried := u.carried + n,
                                    workCd := u.workCd + dt - n as real * HARVEST_INTERVAL);
    if (n == field.amount && v.carried > 0) || v.carried >= CARRY_CAPACITY then ToPreparing(e, v, field.pos) else v
  }

  function DecideGather(e: Env, w: World, u: Unit, dt: real): Outcome {
    if u.carried >= CARRY_CAPACITY then
      Outcome(ToPreparing(e, u, if u.gatherField in w.fields then w.fields[u.gatherField].pos else u.target), NoEffect)
    else if u.gatherField !in w.fields || w.fields[u.gatherField].amount == 0 then
      Outcome(if u.carried > 0 then ToPreparing(e, u, u.target) else Idled(u), NoEffect)
    else
      var field := w.fields[u.gatherField];
      var (u1, arrived) := MoveToward(e, u.(target := field.pos), Shift(field.pos, u.slot), ARRIVE_RADIUS, dt);
      if !arrived then Outcome(u1.(state := Moving), NoEffect)
      else
        Outcome(Harvested(e, u1, field, dt), Mine(u.gatherField, Yield(u.workCd + dt, u.carried, field.amount)))
  }

  function DecidePreparing(e: Env, u: Unit, dt: real): Outcome {
    var u := Face(e, u, u.target).(state := Working, workCd := u.workCd - dt);
    Outcome(if u.workCd > 0.0 then u else ToReturning(u), NoEffect)
  }

  /** Back to the field it came from, if that still exists. */
  function Resume(w: World, u: Unit): Unit {
    if u.gatherField != 0 && u.gatherField in w.fields then u.(task := Gathering, state := Moving)
    else Idled(u)
  }

  /** The building this worker returns to: the one it is bound to while usable, else the nearest. */
  function ChosenDropoff(e: Env, w: World, u: Unit): (r: Id)
    ensures r == 0 || r in w.buildings
  {
    if u.dropoff != 0 && u.dropoff in w.buildings
       && !w.buildings[u.dropoff].underConstruction && w.buildings[u.dropoff].team == u.team
    then u.dropoff
    else NearestDropoff(e, w, u.team, u.pos)
  }

  function DecideReturn(e: Env, w: World, u: Unit, dt: real): Outcome {
    if u.carried == 0 then Outcome(Resume(w, u), NoEffect)
    else
      var camp := ChosenDropoff(e, w, u);
      if camp == 0 then Outcome(u.(state := Idle), NoEffect)
      else
        var (u1, arrived) :=
          MoveToward(e, u.(dropoff := camp), Shift(w.buildings[camp].pos, u.slot), ARRIVE_RADIUS, dt);
        if !arrived then Outcome(u1.(state := Moving), NoEffect)
        else Outcome(Resume(w, u1.(carried := 0)), Deposit(u.carriedRaw, u.carried))
  }

  function DecidePickup(e: Env, w: World, u: Unit, dt: real): Outcome {
    if u.pickupDrop !in w.drops then
      Outcome(if u.carried > 0 then ToReturning(u) else Idled(u), NoEffect)
    else
      var drop := w.drops[u.pickupDrop];
      var (u1, arrived) := MoveToward(e, u, Shift(drop.pos, u.slot), ARRIVE_RADIUS, dt);
      if !arrived then Outcome(u1.(state := Moving), NoEffect)
      else
        var n := Min(Sub32(CARRY_CAPACITY, u.carried), drop.amount);
        Outcome(ToReturning(u1.(carriedRaw := drop.raw, carried := u.carried + n)), Take(u.pickupDrop, n))
  }

  function DecideConstruct(e: Env, w: World, u: Unit, dt: real): Outcome {
    if u.buildTarget !in w.buildings || !w.buildings[u.buildTarget].underConstruction then
      Outcome(Idled(u), NoEffect)
    else
      var b := w.buildings[u.buildTarget];
      var (u1, arrived) := MoveToward(e, u, b.pos, BUILD_RANGE, dt);
      if !arrived then Outcome(u1.(state := Moving), NoEffect)
      else
        var gain := CONSTRUCT_PERCENT_PER_SEC * dt;
        Outcome(if b.percent + gain >= 100.0 then Idled(u1) else u1.(state := Working), Raise(u.buildTarget, gain))
  }

  /** What a unit does once aggro is settled; Ignore when it has nothing to do. */
  function Decide(e: Env, w: World, u: Unit, dt: real): Reaction {
    if u.attackTarget != 0 then React(DecideCombat(e, w, u, dt))
    else
      match u.task
      case Gathering => React(DecideGather(e, w, u, dt))
      case PreparingReturn => React(DecidePreparing(e, u, dt))
      case Returning => React(DecideReturn(e, w, u, dt))
      case Pickup => React(DecidePickup(e, w, u, dt))
      case Constructing => React(DecideConstruct(e, w, u, dt))
      case NoTask => if u.hasTarget then React(Outcome(Walk(e, u, Stride(u, dt)), NoEffect)) else Ignore
  }

  /** Every decision is feasible (Laws.AlertLawful, Laws.DecideLawful); the guard keeps the function total. */
  function Settle(w: World, r: Reaction): World {
    if r.React? && Feasible(w, r.outcome) then Commit(w, r.outcome) else w
  }

  /** A unit's whole turn: cooldown, the scan reaction if this is a scan tick, then its activity. */
  function Turn(e: Env, w: World, id: Id, scan: bool, dt: real): World {
    if id !in w.units || w.units[id].hp <= 0.0 then w
    else
      var w1 := Cool(w, id, dt);
      var w2 := if scan then Settle(w1, Alert(e, w1, w1.units[id])) else w1;
      if id in w2.units then Settle(w2, Decide(e, w2, w2.units[id], dt)) else w2
  }

  function Turns(e: Env, w: World, ids: seq<Id>, scan: bool, dt: real): World {
    if ids == [] then w
    else Turn(e, Turns(e, w, ids[..|ids| - 1], scan, dt), ids[|ids| - 1], scan, dt)
  }

  // ---- buildings ----

  /** The point d in front of a building and l to its right. */
  function InFront(e: Env, b: Building, d: real, l: real, y: real): Vec3 {
    Vec3(b.pos.x + e.sin(b.yaw) * d + e.cos(b.yaw) * l, y, b.pos.z + e.cos(b.yaw) * d - e.sin(b.yaw) * l)
  }

  /** The unit a finished training item puts on the map, walking out in front of the building. */
  function Recruit(e: Env, b: Building, id: Id): Unit
    requires b.queue != []
  {
    NewUnit(id, b.owner, b.team, b.queue[0].unitType, InFront(e, b, TRAIN_SPAWN_FRONT, 0.0, b.pos.y),
            100.0, MOVE_SPEED, b.yaw)
    .(target := InFront(e, b, TRAIN_SPAWN_FRONT + TRAIN_WALK_OUT, Lateral(id), 0.0), hasTarget := true)
  }

  function Lateral(id: Id): real { ((id % 5) as real - 2.0) * TRAIN_LATERAL_SPACING }

  function NewUnit(id: Id, owner: Uid, team: nat, unitType: nat, pos: Vec3, hp: real, speed: real, yaw: real): Unit {
    Unit(id, owner, team, unitType, pos, pos, false, [], 0, yaw, hp, speed, Idle, 0, 0.0,
         NoTask, 0, 0, 0, 0, ORIGIN, 0, 0, 0.0, false, ORIGIN)
  }

  function NewBuilding(id: Id, owner: Uid, team: nat, buildingType: nat, pos: Vec3, yaw: real, site: bool): Building {
    var maxHp := BuildingMaxHp(buildingType);
    Building(id, owner, team, buildingType, pos, yaw,
             if site then MaxReal(1.0, maxHp * 0.05) else maxHp, maxHp, if site then 0.0 else 100.0, site, [])
  }

  function SpawnUnit(w: World, u: Unit): World {
    w.(nextId := w.nextId + 1, units := w.units[w.nextId := u],
       marks := w.marks.(spawned := w.marks.spawned + [w.nextId]))
  }

  function SpawnBuilding(w: World, b: Building): World {
    w.(nextId := w.nextId + 1, buildings := w.buildings[w.nextId := b],
       marks := w.marks.(siteSpawned := w.marks.siteSpawned + [w.nextId]))
  }

  function SpawnField(w: World, raw: nat, pos: Vec3, amount: nat): World {
    w.(nextId := w.nextId + 1, fields := w.fields[w.nextId := Field(w.nextId, raw, pos, 0.0, amount)],
       marks := w.marks.(fieldSpawned := w.marks.fieldSpawned + [w.nextId]))
  }

  /** Advance one building's training queue. */
  function Train(e: Env, w: World, id: Id, dt: real): World {
    if id !in w.buildings || w.buildings[id].queue == [] || w.buildings[id].underConstruction then w
    else
      var b := w.buildings[id];
      var left := b.queue[0].remaining - dt;
      if left <= 0.0 then
        TouchSite(SpawnUnit(w, Recruit(e, b, w.nextId)), id, b.(queue := b.queue[1..]))
      else
        TouchSite(w, id, b.(queue := b.queue[0 := b.queue[0].(remaining := left)]))
  }

  function Trainings(e: Env, w: World, ids: seq<Id>, dt: real): World {
    if ids == [] then w
    else Train(e, Trainings(e, w, ids[..|ids| - 1], dt), ids[|ids| - 1], dt)
  }

  // ---- the dead ----

  function SweepUnit(w: World, id: Id): World {
    if id in w.units && w.units[id].hp <= 0.0 then
      w.(units := Remove(w.units, id),
         marks := w.marks.(despawned := w.marks.despawned + [id]),
         audit := w.audit.Bury(w.units[id].carriedRaw, w.units[id].carried))
    else w
  }

  function SweepUnits(w: World, ids: seq<Id>): World {
    if ids == [] then w else SweepUnit(SweepUnits(w, ids[..|ids| - 1]), ids[|ids| - 1])
  }

  function SweepBuilding(w: World, id: Id): World {
    if id in w.buildings && w.buildings[id].hp <= 0.0 then
      w.(buildings := Remove(w.buildings, id), marks := w.marks.(siteDespawned := w.marks.siteDespawned + [id]))
    else w
  }

  function SweepBuildings(w: World, ids: seq<Id>): World {
    if ids == [] then w else SweepBuilding(SweepBuildings(w, ids[..|ids| - 1]), ids[|ids| - 1])
  }

  // ---- one fixed step ----

  function NextScan(w: World): World { w.(scanTick := Add32(w.scanTick, 1)) }

  predicate ScanDue(w: World) { w.scanTick % AGGRO_SCAN_TICKS == 0 }

  /** The four passes of a step, each over the entities present when it starts. */
  function Step(e: Env, w: World, dt: real): World {
    var w0 := NextScan(w);
    var w1 := Turns(e, w0, e.enum(w0.units.Keys), ScanDue(w0), dt);
    var w2 := Trainings(e, w1, e.enum(w1.buildings.Keys), dt);
    var w3 := SweepUnits(w2, e.enum(w2.units.Keys));
    SweepBuildings(w3, e.enum(w3.buildings.Keys))
  }

  // ---- commands ----

  predicate Owns(w: World, owner: Uid, id: Id) { id in w.units && w.units[id].owner == owner }

  function OwnedIds(w: World, owner: Uid, ids: seq<Id>): seq<Id> {
    if ids == [] then []
    else
      var k := ids[|ids| - 1];
      OwnedIds(w, owner, ids[..|ids| - 1]) + if Owns(w, owner, k) then [k] else []
  }

  function Insert(k: Id, ids: seq<Id>): seq<Id> {
    if ids == [] || k <= ids[0] then [k] + ids else [ids[0]] + Insert(k, ids[1..])
  }

  function SortIds(ids: seq<Id>): seq<Id> {
    if ids == [] then [] else Insert(ids[0], SortIds(ids[1..]))
  }

  /** The commander's own units among ids, in ascending order. */
  function Selected(w: World, owner: Uid, ids: seq<Id>): seq<Id> { SortIds(OwnedIds(w, owner, ids)) }

  /** The smallest c with count <= c * c, that is the rounded up square root. */
  function Columns(count: nat): nat { ColumnsFrom(count, 0) }

  function ColumnsFrom(count: nat, c: nat): (r: nat)
    ensures c <= r && count <= r * r
    decreases if count <= c * c then 0 else count - c * c
  {
    if count <= c * c then c else assert (c + 1) * (c + 1) == c * c + 2 * c + 1; ColumnsFrom(count, c + 1)
  }

  /** Sideways and forward coordinates of a place in a formation. */
  function Place(index: nat, count: nat): Planar
    requires index < count
  {
    var columns := Columns(count);
    var rows := (count + columns - 1) / columns;
    var row, column := index / columns, index % columns;
    var left := count - row * columns;
    Planar((column as real - ((if columns <= left then columns else left) as real - 1.0) * 0.5) * 2.8,
           ((rows as real - 1.0) * 0.5 - row as real) * 3.0)
  }

  /** The offset of a place when the formation faces the direction f. */
  function FormationSlot(index: nat, count: nat, f: Planar): Vec3
    requires index < count
  {
    if count <= 1 then ORIGIN
    else
      var p := Place(index, count);
      Vec3(f.z * p.x + f.x * p.z, 0.0, -f.x * p.x + f.z * p.z)
  }

  function PosSum(w: World, ids: seq<Id>): Vec3 {
    if ids == [] then ORIGIN
    else
      var s := PosSum(w, ids[..|ids| - 1]);
      var k := ids[|ids| - 1];
      if k in w.units then Vec3(s.x + w.units[k].pos.x, s.y + w.units[k].pos.y, s.z + w.units[k].pos.z) else s
  }

  function Mean(sum: Vec3, count: nat): Vec3
    requires count > 0
  {
    var k := 1.0 / count as real;
    Vec3(sum.x * k, sum.y * k, sum.z * k)
  }

  /** The direction of a displacement, or straight ahead when it has no length to speak of. */
  function Direction(e: Env, d: Planar): Planar {
    var length := e.len(d);
    if length > 0.0001 then Planar(d.x / length, d.z / length) else Planar(0.0, 1.0)
  }

  /** From the group's centre to the target. */
  function Heading(e: Env, w: World, ids: seq<Id>, target: Vec3): Planar
    requires ids != []
  {
    Direction(e, Toward(Mean(PosSum(w, ids), |ids|), target))
  }

  /** What every selected unit is told to do. */
  datatype Order =
    | March(target: Vec3, path: seq<Vec3>, heading: Planar)
    | Halt
    | Assault(victim: Id)
    | Harvesting(field: Id, at: Vec3)
    | Storing(camp: Id)
    | Fetching(drop: Id)
    | Raising(site: Id)

  function Shifted(path: seq<Vec3>, o: Vec3): seq<Vec3> { seq(|path|, i requires 0 <= i < |path| => Shift(path[i], o)) }

  /** A fresh worker assignment: whatever the unit was doing is dropped, the load is kept. */
  function Assigned(u: Unit, task: WorkerTask): Unit {
    ClearTask(u).(attackTarget := 0, hasTarget := false, task := task, state := Moving)
  }

  function Stopped(u: Unit): Unit { ClearTask(u).(hasTarget := false, attackTarget := 0, state := Idle) }

  function Obey(e: Env, order: Order, index: nat, count: nat, u: Unit): Outcome
    requires index < count
  {
    match order
    case March(target, path, heading) =>
      var o := FormationSlot(index, count, heading);
      Outcome(ClearTask(u).(target := Shift(target, o), path := Shifted(path, o), pathIndex := 0,
                            hasTarget := true, attackTarget := 0, state := Moving), NoEffect)
    case Halt => Shedding(u, Stopped(u))
    case Assault(victim) =>
      Outcome(ClearTask(u).(attackTarget := victim, autoAggro := false, hasTarget := false, state := Attacking),
              NoEffect)
    case Harvesting(f, at) =>
      Outcome(Assigned(u, Gathering).(slot := e.slot(index, count), gatherField := f, target := at), NoEffect)
    case Storing(camp) => Outcome(Assigned(u, Returning).(slot := e.slot(index, count), dropoff := camp), NoEffect)
    case Fetching(d) => Outcome(Assigned(u, Pickup).(slot := e.slot(index, count), pickupDrop := d), NoEffect)
    case Raising(site) => Outcome(Assigned(u, Constructing).(buildTarget := site), NoEffect)
  }

  /** Give the order to the first n of the selected units, one after another. */
  function Give(e: Env, w: World, order: Order, ids: seq<Id>, n: nat): World
    requires n <= |ids|
  {
    if n == 0 then w
    else
      var w := Give(e, w, order, ids, n - 1);
      var k := ids[n - 1];
      if k in w.units then Settle(w, React(Obey(e, order, n - 1, |ids|, w.units[k]))) else w
  }

  function GiveAll(e: Env, w: World, order: Order, ids: seq<Id>): World { Give(e, w, order, ids, |ids|) }

  function Without(ids: seq<Id>, k: Id): seq<Id> {
    if ids == [] then []
    else Without(ids[..|ids| - 1], k) + if ids[|ids| - 1] == k then [] else [ids[|ids| - 1]]
  }

  function Reject(w: World, c: Command, reason: Reason): World {
    w.(rejected := w.rejected + [Rejected(c.owner, c.clientSeq, reason)])
  }

  function Pay(w: World, owner: Uid, cost: Cost): World
    requires owner in w.ledgers
  {
    w.(ledgers := w.ledgers[owner := w.ledgers[owner].Pay(cost)],
       marks := w.marks.(ledgerDirty := w.marks.ledgerDirty + {owner}),
       audit := w.audit.Spend(cost))
  }

  function TeamOf(w: World, uid: Uid): nat { if uid in w.players then w.players[uid].team else 0 }

  /** Why a Build command is refused, if it is. */
  datatype Verdict = Accepted | Refused(reason: Reason)

  function JudgeBuild(w: World, c: Command): Verdict {
    if c.owner !in w.ledgers then Refused(InvalidRequest)
    else if c.auxType == CRYSTAL then Refused(InvalidRequest)
    else if !w.ledgers[c.owner].CanAfford(BuildingCost(c.auxType)) then Refused(NotEnoughResources)
    else Accepted
  }

  function ApplyBuild(e: Env, w: World, c: Command): World {
    match JudgeBuild(w, c)
    case Refused(reason) => Reject(w, c, reason)
    case Accepted =>
      var site := w.nextId;
      var w := SpawnBuilding(Pay(w, c.owner, BuildingCost(c.auxType)),
                             NewBuilding(site, c.owner, TeamOf(w, c.owner), c.auxType, c.target, c.yaw, true));
      GiveAll(e, w, Raising(site), OwnedIds(w, c.owner, c.unitIds))
  }

  function JudgeTrain(w: World, c: Command): Verdict {
    if c.targetEntity !in w.buildings then Refused(InvalidEntity)
    else
      var b := w.buildings[c.targetEntity];
      if b.owner != c.owner || b.underConstruction then Refused(InvalidEntity)
      else if !Trains(b.buildingType, c.auxType) then Refused(InvalidRequest)
      else if c.owner !in w.ledgers then Refused(InvalidRequest)
      else if !w.ledgers[c.owner].CanAfford(UnitCost(c.auxType)) then Refused(NotEnoughResources)
      else Accepted
  }

  function ApplyTrain(w: World, c: Command): World {
    match JudgeTrain(w, c)
    case Refused(reason) => Reject(w, c, reason)
    case Accepted =>
      var b := w.buildings[c.targetEntity];
      TouchSite(Pay(w, c.owner, UnitCost(c.auxType)), c.targetEntity,
                b.(queue := b.queue + [TrainItem(c.auxType, TRAIN_TIME)]))
  }

  /** Whom a unit command addresses, in the order they are served. */
  function Addressees(w: World, c: Command): seq<Id> {
    match c.kind
    case StopCmd => OwnedIds(w, c.owner, c.unitIds)
    case AttackCmd => Without(OwnedIds(w, c.owner, c.unitIds), c.targetEntity)
    case ConstructCmd =>
      if c.targetEntity in w.buildings && w.buildings[c.targetEntity].underConstruction
      then OwnedIds(w, c.owner, c.unitIds) else []
    case HarvestCmd => if c.targetEntity in w.fields then Selected(w, c.owner, c.unitIds) else []
    case PickupCmd => if c.targetEntity in w.drops then Selected(w, c.owner, c.unitIds) else []
    case _ => Selected(w, c.owner, c.unitIds)
  }

  function OrderOf(e: Env, w: World, c: Command): Order
    requires Addressees(w, c) != []
  {
    match c.kind
    case MoveCmd => March(c.target, c.path, Heading(e, w, Addressees(w, c), c.target))
    case AttackCmd => Assault(c.targetEntity)
    case HarvestCmd => Harvesting(c.targetEntity, w.fields[c.targetEntity].pos)
    case StoreCmd => Storing(c.targetEntity)
    case PickupCmd => Fetching(c.targetEntity)
    case ConstructCmd => Raising(c.targetEntity)
    case _ => Halt
  }

  function Apply(e: Env, w: World, c: Command): World {
    if c.kind == BuildCmd then ApplyBuild(e, w, c)
    else if c.kind == TrainCmd then ApplyTrain(w, c)
    else
      var ids := Addressees(w, c);
      if ids == [] then w else GiveAll(e, w, OrderOf(e, w, c), ids)
  }

  function ApplyAll(e: Env, w: World, cs: seq<Command>): World {
    if cs == [] then w else Apply(e, ApplyAll(e, w, cs[..|cs| - 1]), cs[|cs| - 1])
  }

  function ApplyPending(e: Env, w: World): World { ApplyAll(e, w, w.pending).(pending := []) }

  function ClearMarks(w: World): World { w.(marks := NO_MARKS) }
}
