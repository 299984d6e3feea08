/**
 Training accounts (DungeonRoom.h, ApplyTrain and StepBuildings): every accepted order comes out
 exactly once, in the order of acceptance, one unit every forty ticks while the queue is busy.
 */
module Training {
  import opened Entities
  import opened Simulation
  import opened Laws
  import opened Evolution
  import opened Replication
  import opened Bystanders
  import opened Combat

  function Types(queue: seq<TrainItem>): seq<nat> { seq(|queue|, i requires 0 <= i < |queue| => queue[i].unitType) }

  lemma TypesConcat(a: seq<TrainItem>, b: seq<TrainItem>)
    ensures Types(a + b) == Types(a) + Types(b)
  {}

  // ---- accepting orders ----

  predicate Accepts(w: World, c: Command, b: Id) {
    c.kind == TrainCmd && c.targetEntity == b && JudgeTrain(w, c) == Accepted
  }

  function QueuedItem(c: Command): TrainItem { TrainItem(c.auxType, TRAIN_TIME) }

  /** The orders for a building accepted from a batch of commands. */
  function AcceptedOrders(e: Env, w: World, cs: seq<Command>, b: Id): seq<TrainItem> {
    if cs == [] then []
    else
      var rest, c := cs[..|cs| - 1], cs[|cs| - 1];
      AcceptedOrders(e, w, rest, b) + if Accepts(ApplyAll(e, w, rest), c, b) then [QueuedItem(c)] else []
  }

  /** An accepted order is paid for, once and in full; nothing wraps. */
  lemma AcceptedPays(e: Env, w: World, c: Command, b: Id)
    requires Accepts(w, c, b)
    ensures c.owner in w.ledgers && c.owner in Apply(e, w, c).ledgers
    ensures var l, l' := w.ledgers[c.owner], Apply(e, w, c).ledgers[c.owner];
            l.food < U32 && l.wood < U32 && l.gold < U32 ==>
              l'.food + UnitCost(c.auxType).food == l.food && l'.wood == l.wood && l'.gold == l.gold
    ensures Apply(e, w, c).audit.spent == w.audit.spent + UnitCost(c.auxType).Sum()
  {}

  /** The building is there and is training what it was training. */
  ghost predicate SameQueue(w: World, v: World, b: Id) {
    b in w.buildings && b in v.buildings && v.buildings[b].queue == w.buildings[b].queue
  }

  lemma CommitQueue(w: World, o: Outcome, b: Id)
    requires Feasible(w, o) && b in w.buildings
    ensures SameQueue(w, Commit(w, o), b)
  {}

  lemma SettleQueue(w: World, r: Reaction, b: Id)
    requires b in w.buildings
    ensures SameQueue(w, Settle(w, r), b)
  {
    hide Commit;
    if r.React? && Feasible(w, r.outcome) { CommitQueue(w, r.outcome, b); }
  }

  lemma {:induction false} GiveQueue(e: Env, w: World, order: Order, ids: seq<Id>, n: nat, b: Id)
    requires n <= |ids| && b in w.buildings
    ensures SameQueue(w, Give(e, w, order, ids, n), b)
  {
    hide Obey, Settle;
    if n > 0 {
      GiveQueue(e, w, order, ids, n - 1, b);
      var mid, k := Give(e, w, order, ids, n - 1), ids[n - 1];
      if k in mid.units { SettleQueue(mid, React(Obey(e, order, n - 1, |ids|, mid.units[k])), b); }
    }
  }

  lemma ApplyQueue(e: Env, w: World, c: Command, b: Id)
    requires WellFormed(w) && b in w.buildings
    ensures b in Apply(e, w, c).buildings
    ensures Apply(e, w, c).buildings[b].queue == w.buildings[b].queue + if Accepts(w, c, b) then [QueuedItem(c)] else []
  {
    hide WellFormed, Give, OrderOf, Addressees, Pay;
    SiteId(w, b);
    if c.kind == BuildCmd {
      if JudgeBuild(w, c).Accepted? {
        PayNextId(w, c.owner, BuildingCost(c.auxType));
        var site := NewBuilding(w.nextId, c.owner, TeamOf(w, c.owner), c.auxType, c.target, c.yaw, true);
        var w2 := SpawnBuilding(Pay(w, c.owner, BuildingCost(c.auxType)), site);
        var ids := OwnedIds(w2, c.owner, c.unitIds);
        GiveQueue(e, w2, Raising(w.nextId), ids, |ids|, b);
      }
    } else if c.kind == TrainCmd {
      if JudgeTrain(w, c).Accepted? { PayNextId(w, c.owner, UnitCost(c.auxType)); }
    } else {
      var ids := Addressees(w, c);
      if ids != [] { GiveQueue(e, w, OrderOf(e, w, c), ids, |ids|, b); }
    }
  }

  lemma SiteId(w: World, b: Id)
    requires WellFormed(w) && b in w.buildings
    ensures b < w.nextId
  {}

  lemma {:induction false} BatchQueue(e: Env, w: World, cs: seq<Command>, b: Id)
    requires WellFormed(w) && b in w.buildings
    ensures b in ApplyAll(e, w, cs).buildings
    ensures ApplyAll(e, w, cs).buildings[b].queue == w.buildings[b].queue + AcceptedOrders(e, w, cs, b)
  {
    hide WellFormed, Evolves, Apply, Accepts;
    if cs != [] {
      var rest := cs[..|cs| - 1];
      BatchQueue(e, w, rest, b);
      ApplyAllKeeps(e, w, rest);
      ApplyQueue(e, ApplyAll(e, w, rest), cs[|cs| - 1], b);
    }
  }

  // ---- the rest of a tick ----

  lemma TurnQueue(e: Env, w: World, k: Id, scan: bool, dt: real, b: Id)
    requires b in w.buildings
    ensures SameQueue(w, Turn(e, w, k, scan, dt), b)
  {
    hide Alert, Decide, Settle, CoolDown;
    if k in w.units && w.units[k].hp > 0.0 {
      var w1 := Cool(w, k, dt);
      SettleQueue(w1, Alert(e, w1, w1.units[k]), b);
      var w2 := if scan then Settle(w1, Alert(e, w1, w1.units[k])) else w1;
      if k in w2.units { SettleQueue(w2, Decide(e, w2, w2.units[k], dt), b); }
    }
  }

  lemma {:induction false} TurnsQueue(e: Env, w: World, ids: seq<Id>, scan: bool, dt: real, b: Id)
    requires b in w.buildings
    ensures SameQueue(w, Turns(e, w, ids, scan, dt), b)
  {
    hide Turn;
    if ids != [] {
      TurnsQueue(e, w, ids[..|ids| - 1], scan, dt, b);
      TurnQueue(e, Turns(e, w, ids[..|ids| - 1], scan, dt), ids[|ids| - 1], scan, dt, b);
    }
  }

  predicate Busy(b: Building) { b.queue != [] && !b.underConstruction }

  /** This tick completes the first item. */
  predicate Completes(b: Building, dt: real) { Busy(b) && b.queue[0].remaining - dt <= 0.0 }

  /** The building after one tick of training. */
  function Trained(b: Building, dt: real): Building {
    if !Busy(b) then b
    else if Completes(b, dt) then b.(queue := b.queue[1..])
    else b.(queue := b.queue[0 := b.queue[0].(remaining := b.queue[0].remaining - dt)])
  }

  lemma SpawnShape(w: World, u: Unit)
    ensures SpawnUnit(w, u).units == w.units[w.nextId := u] && SpawnUnit(w, u).buildings == w.buildings
  {}

  lemma SiteShape(w: World, k: Id, b: Building)
    ensures TouchSite(w, k, b).units == w.units && TouchSite(w, k, b).buildings == w.buildings[k := b]
  {}

  /** Training replaces one building and adds the recruit when an item is complete. */
  lemma TrainShape(e: Env, w: World, k: Id, dt: real)
    ensures k !in w.buildings ==> Train(e, w, k, dt) == w
    ensures k in w.buildings ==>
              var b, v := w.buildings[k], Train(e, w, k, dt);
              && (v.buildings == if Busy(b) then w.buildings[k := Trained(b, dt)] else w.buildings)
              && (v.units == if Completes(b, dt) then w.units[w.nextId := Recruit(e, b, w.nextId)] else w.units)
  {
    hide Recruit, TouchSite, SpawnUnit;
    if k in w.buildings && Busy(w.buildings[k]) {
      var b := w.buildings[k];
      if Completes(b, dt) {
        var u := Recruit(e, b, w.nextId);
        SpawnShape(w, u);
        SiteShape(SpawnUnit(w, u), k, Trained(b, dt));
      } else {
        SiteShape(w, k, Trained(b, dt));
      }
    }
  }

  /** A completed item becomes a unit of its kind, of the building's owner and team, and nothing else appears. */
  lemma TrainSpawns(e: Env, w: World, b: Id, dt: real)
    requires b in w.buildings && w.nextId !in w.units
    ensures var v := Train(e, w, b, dt);
            if Completes(w.buildings[b], dt) then
              v.units.Keys == w.units.Keys + {w.nextId}
              && v.units[w.nextId].unitType == w.buildings[b].queue[0].unitType
              && v.units[w.nextId].owner == w.buildings[b].owner && v.units[w.nextId].team == w.buildings[b].team
            else v.units == w.units
  {
    hide Train, InFront, Lateral;
    TrainShape(e, w, b, dt);
  }

  lemma TrainOthers(e: Env, w: World, k: Id, dt: real, b: Id)
    requires b in w.buildings && b != k
    ensures b in Train(e, w, k, dt).buildings && Train(e, w, k, dt).buildings[b] == w.buildings[b]
  {
    hide Train, Recruit, Trained;
    TrainShape(e, w, k, dt);
  }

  lemma TrainOwn(e: Env, w: World, b: Id, dt: real)
    requires b in w.buildings
    ensures b in Train(e, w, b, dt).buildings && Train(e, w, b, dt).buildings[b] == Trained(w.buildings[b], dt)
  {
    hide Train, Recruit;
    TrainShape(e, w, b, dt);
  }

  ghost predicate Distinct(ids: seq<Id>) { forall i, j :: 0 <= i < j < |ids| ==> ids[i] != ids[j] }

  /** Each building is trained once in a pass. */
  lemma {:induction false} TrainingsQueue(e: Env, w: World, ids: seq<Id>, dt: real, b: Id)
    requires b in w.buildings && Distinct(ids)
    ensures b in Trainings(e, w, ids, dt).buildings
    ensures Trainings(e, w, ids, dt).buildings[b] == if b in ids then Trained(w.buildings[b], dt) else w.buildings[b]
  {
    hide Train, Trained;
    if ids != [] {
      var rest, k := ids[..|ids| - 1], ids[|ids| - 1];
      TrainingsQueue(e, w, rest, dt, b);
      var mid := Trainings(e, w, rest, dt);
      if k == b { TrainOwn(e, mid, b, dt); } else { TrainOthers(e, mid, k, dt, b); }
    }
  }

  lemma {:induction false} SweepsQueue(w: World, ids: seq<Id>, b: Id)
    ensures SweepUnits(w, ids).buildings == w.buildings
    ensures b in SweepBuildings(w, ids).buildings ==>
              b in w.buildings && SweepBuildings(w, ids).buildings[b] == w.buildings[b]
  {
    if ids != [] {
      hide SweepUnit, SweepBuilding;
      var rest := ids[..|ids| - 1];
      SweepsQueue(w, rest, b);
      SweepQueue(SweepUnits(w, rest), ids[|ids| - 1], b);
      SweepQueue(SweepBuildings(w, rest), ids[|ids| - 1], b);
    }
  }

  lemma SweepQueue(w: World, id: Id, b: Id)
    ensures SweepUnit(w, id).buildings == w.buildings
    ensures b in SweepBuilding(w, id).buildings ==>
              b in w.buildings && SweepBuilding(w, id).buildings[b] == w.buildings[b]
  {
    hide Remove;
  }

  // ---- the units of a pass ----

  /** The buildings that complete an item in a pass, in the order of the pass. */
  function Finished(w: World, ids: seq<Id>, dt: real): seq<Id> {
    if ids == [] then []
    else
      var k := ids[|ids| - 1];
      Finished(w, ids[..|ids| - 1], dt) + if k in w.buildings && Completes(w.buildings[k], dt) then [k] else []
  }

  lemma {:induction false} FinishedExactly(w: World, ids: seq<Id>, dt: real)
    requires Distinct(ids)
    ensures forall b :: b in Finished(w, ids, dt) <==> b in ids && b in w.buildings && Completes(w.buildings[b], dt)
    ensures Distinct(Finished(w, ids, dt))
  {
    hide Completes;
    if ids != [] { FinishedExactly(w, ids[..|ids| - 1], dt); }
  }

  /**
   The unit is the one that the building puts out: of the kind that was ordered first, for the owner and the
   team, unhurt, four in front of the building and on its way to a place seven in front of it, to the side.
   */
  predicate CameFrom(e: Env, u: Unit, b: Building) {
    && b.queue != [] && u.unitType == b.queue[0].unitType && u.owner == b.owner && u.team == b.team
    && u.hp == 100.0 && u.speed == 6.0 && u.carried == 0 && u.task == NoTask && u.attackTarget == 0
    && u.pos == Vec3(b.pos.x + 4.0 * e.sin(b.yaw), b.pos.y, b.pos.z + 4.0 * e.cos(b.yaw)) && u.yaw == b.yaw
    && u.hasTarget && u.path == []
    && var side := ((u.id % 5) as real - 2.0) * 1.5;
       u.target == Vec3(b.pos.x + e.sin(b.yaw) * 7.0 + e.cos(b.yaw) * side, 0.0,
                        b.pos.z + e.cos(b.yaw) * 7.0 - e.sin(b.yaw) * side)
  }

  /** Each of the finished buildings has put out the unit whose id has its number in the list. */
  ghost predicate OneEach(e: Env, v: World, units: map<Id, Unit>, f: seq<Id>) {
    forall i | 0 <= i < |f| ::
      f[i] in v.buildings && v.nextId + i in units && CameFrom(e, units[v.nextId + i], v.buildings[f[i]])
  }

  /** v is w with one new unit for each of the finished buildings, under consecutive ids. */
  ghost predicate Recruited(e: Env, w: World, v: World, f: seq<Id>) {
    && v.nextId == w.nextId + |f|
    && (forall k :: k in v.units <==> k in w.units || w.nextId <= k < w.nextId + |f|)
    && (forall k | k in w.units :: k in v.units && v.units[k] == w.units[k])
    && OneEach(e, w, v.units, f)
  }

  lemma RecruitedMore(e: Env, w: World, mid: World, v: World, f: seq<Id>, b: Id)
    requires forall k | k in w.units :: k < w.nextId
    requires Recruited(e, w, mid, f) && v.nextId == mid.nextId + 1 && v.units.Keys == mid.units.Keys + {mid.nextId}
    requires forall k | k in mid.units :: v.units[k] == mid.units[k]
    requires b in w.buildings && CameFrom(e, v.units[mid.nextId], w.buildings[b])
    ensures Recruited(e, w, v, f + [b])
  {
    hide CameFrom;
  }

  lemma TrainNextId(e: Env, w: World, k: Id, dt: real)
    ensures Train(e, w, k, dt).nextId
            == w.nextId + if k in w.buildings && Completes(w.buildings[k], dt) then 1 else 0
  {
    hide Recruit;
  }

  lemma RecruitCameFrom(e: Env, b: Building, id: Id)
    requires b.queue != []
    ensures CameFrom(e, Recruit(e, b, id), b) && Recruit(e, b, id).id == id
  {}

  /** A pass puts exactly one unit on the map for every building that completes an item. */
  lemma {:induction false} TrainingsRecruit(e: Env, w: World, ids: seq<Id>, dt: real)
    requires Distinct(ids) && forall k | k in w.units :: k < w.nextId
    ensures Recruited(e, w, Trainings(e, w, ids, dt), Finished(w, ids, dt))
  {
    hide Train, Recruit, CameFrom, Trained;
    if ids != [] {
      var rest, k := ids[..|ids| - 1], ids[|ids| - 1];
      var mid, v := Trainings(e, w, rest, dt), Trainings(e, w, ids, dt);
      TrainingsRecruit(e, w, rest, dt);
      TrainShape(e, mid, k, dt);
      TrainNextId(e, mid, k, dt);
      TrainingsSites(e, w, rest, dt, k);
      if k in w.buildings && Completes(w.buildings[k], dt) {
        RecruitCameFrom(e, w.buildings[k], mid.nextId);
        RecruitedMore(e, w, mid, v, Finished(w, rest, dt), k);
      }
    }
    hide Recruited;
  }

  /** A building whose turn has not come is as it was. */
  lemma {:induction false} TrainingsSites(e: Env, w: World, ids: seq<Id>, dt: real, b: Id)
    requires b !in ids
    ensures b in Trainings(e, w, ids, dt).buildings <==> b in w.buildings
    ensures b in w.buildings ==> Trainings(e, w, ids, dt).buildings[b] == w.buildings[b]
  {
    hide Train, Trained;
    if ids != [] {
      TrainingsSites(e, w, ids[..|ids| - 1], dt, b);
      TrainShape(e, Trainings(e, w, ids[..|ids| - 1], dt), ids[|ids| - 1], dt);
    }
  }

  // ---- one tick ----

  /** The room when the buildings' turn comes. */
  function Turned(w: World, input: Input): World {
    var w0 := Opened(w, input);
    Turns(input.env, w0, input.env.enum(w0.units.Keys), ScanDue(w0), TICK_SECONDS)
  }

  function TickOrders(w: World, input: Input, b: Id): seq<TrainItem> {
    AcceptedOrders(input.env, w.(pending := w.pending + input.commands), w.pending + input.commands, b)
  }

  lemma TickTrains(w: World, input: Input, b: Id)
    requires WellFormed(w) && Enumerates(input.env.enum) && b in w.buildings && b in Advance(w, input).buildings
    ensures var v, v' := Turned(w, input), Advance(w, input);
            && b in v.buildings && v.buildings[b].queue == w.buildings[b].queue + TickOrders(w, input, b)
            && v'.buildings[b] == Trained(v.buildings[b], TICK_SECONDS)
  {
    hide WellFormed, Evolves, Turns, ApplyAll, Trainings, SweepUnits, SweepBuildings, Enumerates, AcceptedOrders,
         Trained;
    var e, dt := input.env, TICK_SECONDS;
    var start := w.(pending := w.pending + input.commands);
    QueuesKeep(w, start);
    BatchQueue(e, start, start.pending, b);
    var w0 := Opened(w, input);
    var w1 := Turned(w, input);
    TurnsQueue(e, w0, e.enum(w0.units.Keys), ScanDue(w0), dt, b);
    var sites := e.enum(w1.buildings.Keys);
    EnumHas(e, w1.buildings.Keys);
    EnumDistinct(e, w1.buildings.Keys);
    TrainingsQueue(e, w1, sites, dt, b);
    var w2 := Trainings(e, w1, sites, dt);
    var w3 := SweepUnits(w2, e.enum(w2.units.Keys));
    SweepsQueue(w2, e.enum(w2.units.Keys), b);
    SweepsQueue(w3, e.enum(w3.buildings.Keys), b);
  }

  lemma EnumDistinct(e: Env, keys: set<Id>)
    requires Enumerates(e.enum)
    ensures Distinct(e.enum(keys))
  {
    assert IsEnumeration(e.enum(keys), keys);
  }

  // ---- the units of a tick ----

  /** The buildings that complete an item in this tick, in the order of their turns. */
  function Completed(w: World, input: Input): seq<Id> {
    var v := Turned(w, input);
    Finished(v, input.env.enum(v.buildings.Keys), TICK_SECONDS)
  }

  lemma TurnedFacts(w: World, input: Input)
    requires WellFormed(w)
    ensures WellFormed(Turned(w, input)) && Turned(w, input).units.Keys == w.units.Keys
  {
    hide WellFormed, Evolves, Opened;
    var w0 := Opened(w, input);
    OpenedKeys(w, input);
    TurnsKeeps(input.env, w0, input.env.enum(w0.units.Keys), ScanDue(w0), TICK_SECONDS);
  }

  lemma UnitsBelow(w: World)
    requires WellFormed(w)
    ensures forall k | k in w.units :: k < w.nextId
  {}

  /**
   The units that are new after a tick are exactly one for each building that completes an item in it,
   of the item's kind and of the building's owner and team.
   */
  lemma TickRecruits(w: World, input: Input)
    requires WellFormed(w) && Enumerates(input.env.enum)
    ensures var v, v', f := Turned(w, input), Advance(w, input), Completed(w, input);
            && (forall b :: b in f <==> b in v.buildings && Completes(v.buildings[b], TICK_SECONDS)) && Distinct(f)
            && (forall k :: k in v'.units && k !in w.units <==> v.nextId <= k < v.nextId + |f|)
            && OneEach(input.env, v, v'.units, f)
  {
    hide WellFormed, Completes, Trainings, SweepUnits, SweepBuildings, Enumerates, Finished, OneEach, Distinct;
    var e := input.env;
    var v := Turned(w, input);
    TurnedFacts(w, input);
    UnitsBelow(v);
    var sites := e.enum(v.buildings.Keys);
    EnumHas(e, v.buildings.Keys);
    EnumDistinct(e, v.buildings.Keys);
    FinishedExactly(v, sites, TICK_SECONDS);
    TrainingsRecruit(e, v, sites, TICK_SECONDS);
    SweptRecruits(w, input);
    hide Turned, Advance;
  }

  lemma LivingStay(w: World, ids: seq<Id>)
    ensures forall k | k in w.units && w.units[k].hp > 0.0 ::
              k in SweepUnits(w, ids).units && SweepUnits(w, ids).units[k] == w.units[k]
  {
    forall k | k in w.units && w.units[k].hp > 0.0
      ensures k in SweepUnits(w, ids).units && SweepUnits(w, ids).units[k] == w.units[k]
    {
      SweepsSpare(w, ids, k);
    }
  }

  /** Recruits are alive, so they are still there when only units that are not are taken away. */
  lemma RecruitsStay(e: Env, v: World, w2: World, units: map<Id, Unit>, f: seq<Id>)
    requires Recruited(e, v, w2, f) && units.Keys <= w2.units.Keys
    requires forall k | k in w2.units && w2.units[k].hp > 0.0 :: k in units && units[k] == w2.units[k]
    ensures forall k :: k in units && k !in v.units <==> k !in v.units && v.nextId <= k < v.nextId + |f|
    ensures OneEach(e, v, units, f)
  {
    forall k | k in w2.units && k !in v.units ensures k in units {
      var i := k - v.nextId;
      assert CameFrom(e, w2.units[v.nextId + i], v.buildings[f[i]]);
    }
    forall i | 0 <= i < |f|
      ensures v.nextId + i in units && f[i] in v.buildings && CameFrom(e, units[v.nextId + i], v.buildings[f[i]])
    {
      assert CameFrom(e, w2.units[v.nextId + i], v.buildings[f[i]]);
    }
  }

  /** The new units outlive the sweep of the tick, which adds none. */
  lemma SweptRecruits(w: World, input: Input)
    requires var v := Turned(w, input);
             Recruited(input.env, v, Trainings(input.env, v, input.env.enum(v.buildings.Keys), TICK_SECONDS),
                       Completed(w, input))
    ensures var v, v', f := Turned(w, input), Advance(w, input), Completed(w, input);
            && (forall k :: k in v'.units && k !in v.units <==> k !in v.units && v.nextId <= k < v.nextId + |f|)
            && OneEach(input.env, v, v'.units, f)
  {
    hide Turned, Trainings, SweepUnits, SweepBuildings, Completed, Recruited, OneEach;
    AdvanceParts(w, input);
    hide Advance;
    var e := input.env;
    var v := Turned(w, input);
    var w2 := Trainings(e, v, e.enum(v.buildings.Keys), TICK_SECONDS);
    var ids := e.enum(w2.units.Keys);
    var w3 := SweepUnits(w2, ids);
    SweepsOnlyRemove(w2, ids);
    SweepsOnlyRemove(w3, e.enum(w3.buildings.Keys));
    LivingStay(w2, ids);
    RecruitsStay(e, v, w2, w3.units, Completed(w, input));
  }

  lemma AdvanceParts(w: World, input: Input)
    ensures var e, v := input.env, Turned(w, input);
            var w2 := Trainings(e, v, e.enum(v.buildings.Keys), TICK_SECONDS);
            var w3 := SweepUnits(w2, e.enum(w2.units.Keys));
            Advance(w, input) == SweepBuildings(w3, e.enum(w3.buildings.Keys))
  {}

  /** What the unit is that came out of a building in this tick, if one did. */
  function CameOut(w: World, input: Input, b: Id): seq<nat> {
    var k := Turned(w, input).nextId + |Before(Completed(w, input), b)|;
    if b in Completed(w, input) && k in Advance(w, input).units then [Advance(w, input).units[k].unitType] else []
  }

  lemma CameOutIs(w: World, input: Input, b: Id)
    requires WellFormed(w) && Enumerates(input.env.enum)
    ensures var v := Turned(w, input);
            CameOut(w, input, b)
            == if b in v.buildings && Completes(v.buildings[b], TICK_SECONDS) then [v.buildings[b].queue[0].unitType]
               else []
  {
    hide WellFormed, Turned, Advance, Completed, Enumerates;
    TickRecruits(w, input);
    var f := Completed(w, input);
    if b in f {
      BeforeSplits(f, b);
      var i := |Before(f, b)|;
      assert f[i] == (Before(f, b) + [b])[i] == b;
    }
  }

  // ---- whole runs ----

  /** The kinds of units ordered from a building in a run, in order of acceptance. */
  ghost function Ordered(w: World, inputs: seq<Input>, b: Id): seq<nat> {
    if inputs == [] then []
    else
      var before := inputs[..|inputs| - 1];
      Ordered(w, before, b) + Types(TickOrders(Run(w, before), inputs[|inputs| - 1], b))
  }

  /** The kinds of the units on the map that came out of it, in order of appearance. */
  ghost function Appeared(w: World, inputs: seq<Input>, b: Id): seq<nat> {
    if inputs == [] then []
    else
      var before := inputs[..|inputs| - 1];
      Appeared(w, before, b) + CameOut(Run(w, before), inputs[|inputs| - 1], b)
  }

  /** The building stands after each of the first n ticks. */
  ghost predicate Stands(w: World, inputs: seq<Input>, b: Id) {
    forall n | 0 <= n <= |inputs| :: b in Run(w, inputs[..n]).buildings
  }

  lemma StandsBefore(w: World, inputs: seq<Input>, b: Id)
    requires Stands(w, inputs, b) && inputs != []
    ensures Stands(w, inputs[..|inputs| - 1], b)
    ensures b in Run(w, inputs[..|inputs| - 1]).buildings
    ensures b in Advance(Run(w, inputs[..|inputs| - 1]), inputs[|inputs| - 1]).buildings
  {
    hide Advance;
    assert inputs[..|inputs|] == inputs;
    var before := inputs[..|inputs| - 1];
    forall n | 0 <= n <= |before| ensures b in Run(w, before[..n]).buildings {
      assert before[..n] == inputs[..n];
    }
    assert before[..|before|] == before;
  }

  lemma TrainedTypes(b: Building, orders: seq<TrainItem>, queue: seq<TrainItem>, dt: real)
    requires b.queue == queue + orders
    ensures Types(queue) + Types(orders)
            == (if Completes(b, dt) then [b.queue[0].unitType] else []) + Types(Trained(b, dt).queue)
  {
    TypesConcat(queue, orders);
  }

  /**
   First in, first out, nothing lost, nothing doubled: while a building stands, what was queued at
   the start followed by what was ordered is what has come out followed by what is still queued.
   */
  lemma {:induction false} OrdersComeOut(w: World, inputs: seq<Input>, b: Id)
    requires WellFormed(w) && Regular(inputs) && Stands(w, inputs, b)
    ensures b in w.buildings && b in Run(w, inputs).buildings
    ensures Types(w.buildings[b].queue) + Ordered(w, inputs, b)
            == Appeared(w, inputs, b) + Types(Run(w, inputs).buildings[b].queue)
  {
    hide WellFormed, Advance, Enumerates, Stands, Turned, TickOrders, Types, Trained, CameOut;
    assert b in w.buildings by { StandsFirst(w, inputs, b); }
    if inputs != [] {
      var before, input := inputs[..|inputs| - 1], inputs[|inputs| - 1];
      StandsBefore(w, inputs, b);
      assert forall i | 0 <= i < |before| :: before[i] == inputs[i];
      OrdersComeOut(w, before, b);
      RunWellFormed(w, before);
      var v := Run(w, before);
      TickTrains(v, input, b);
      CameOutIs(v, input, b);
      var site := Turned(v, input).buildings[b];
      TrainedTypes(site, TickOrders(v, input, b), v.buildings[b].queue, TICK_SECONDS);
      var out := if Completes(site, TICK_SECONDS) then [site.queue[0].unitType] else [];
      AssociateFour(Types(w.buildings[b].queue), Ordered(w, before, b), Types(TickOrders(v, input, b)),
                    Appeared(w, before, b), Types(v.buildings[b].queue), out,
                    Types(Trained(site, TICK_SECONDS).queue));
    }
  }

  lemma AssociateFour(q: seq<nat>, o: seq<nat>, t: seq<nat>, a: seq<nat>, v: seq<nat>, x: seq<nat>, r: seq<nat>)
    requires q + o == a + v && v + t == x + r
    ensures q + (o + t) == (a + x) + r
  {
    assert q + (o + t) == (q + o) + t;
    assert (a + v) + t == a + (v + t);
    assert a + (x + r) == (a + x) + r;
  }

  lemma StandsFirst(w: World, inputs: seq<Input>, b: Id)
    requires Stands(w, inputs, b)
    ensures b in w.buildings
  {
    assert inputs[..0] == [];
  }

  // ---- the beat ----

  const BEAT: nat := 40

  /** Ticks since the first item of the queue came to the front. */
  function Elapsed(b: Building): int {
    if b.queue == [] then 0 else ((TRAIN_TIME - b.queue[0].remaining) / TICK_SECONDS).Floor
  }

  /** Items wait with their full time; the first one has been worked on for a whole number of ticks. */
  ghost predicate OnBeat(b: Building) {
    && (forall i | 1 <= i < |b.queue| :: b.queue[i].remaining == TRAIN_TIME)
    && (b.queue != [] ==> 0 <= Elapsed(b) < BEAT
                          && b.queue[0].remaining == TRAIN_TIME - Elapsed(b) as real * TICK_SECONDS)
  }

  lemma FullTimeElapsed(b: Building)
    requires b.queue != [] && b.queue[0].remaining == TRAIN_TIME
    ensures Elapsed(b) == 0
  {}

  lemma OneTickElapsed(left: real, n: int)
    requires left == TRAIN_TIME - n as real * TICK_SECONDS
    ensures ((TRAIN_TIME - left) / TICK_SECONDS).Floor == n
    ensures ((TRAIN_TIME - (left - TICK_SECONDS)) / TICK_SECONDS).Floor == n + 1
    ensures left - TICK_SECONDS == TRAIN_TIME - (n + 1) as real * TICK_SECONDS
    ensures left - TICK_SECONDS <= 0.0 <==> n + 1 >= BEAT
  {
    assert TRAIN_TIME - left == n as real * TICK_SECONDS;
    assert (TRAIN_TIME - left) / TICK_SECONDS == n as real;
    assert (TRAIN_TIME - (left - TICK_SECONDS)) / TICK_SECONDS == (n + 1) as real;
  }

  lemma BeatOrders(b: Building, site: Building, orders: seq<TrainItem>)
    requires OnBeat(b) && site.queue == b.queue + orders
    requires forall i | 0 <= i < |orders| :: orders[i].remaining == TRAIN_TIME
    ensures OnBeat(site) && Elapsed(site) == Elapsed(b)
  {
    if b.queue == [] && orders != [] { FullTimeElapsed(site); }
  }

  /** A tick of a busy queue advances it by one; the fortieth completes the first item. */
  lemma BeatTick(b: Building)
    requires OnBeat(b)
    ensures OnBeat(Trained(b, TICK_SECONDS))
    ensures Busy(b) ==> Elapsed(Trained(b, TICK_SECONDS)) + (if Completes(b, TICK_SECONDS) then BEAT else 0)
                        == Elapsed(b) + 1
  {
    if Busy(b) {
      OneTickElapsed(b.queue[0].remaining, Elapsed(b));
      if Completes(b, TICK_SECONDS) && |b.queue| > 1 { FullTimeElapsed(Trained(b, TICK_SECONDS)); }
    }
  }

  lemma {:induction false} OrdersFullTime(e: Env, w: World, cs: seq<Command>, b: Id)
    ensures forall i | 0 <= i < |AcceptedOrders(e, w, cs, b)| :: AcceptedOrders(e, w, cs, b)[i].remaining == TRAIN_TIME
  {
    hide Accepts, ApplyAll;
    if cs != [] { OrdersFullTime(e, w, cs[..|cs| - 1], b); }
  }

  /** At every tick of the run the building has something to train when its turn comes. */
  ghost predicate KeptBusy(w: World, inputs: seq<Input>, b: Id) {
    forall i | 0 <= i < |inputs| ::
      var v := Turned(Run(w, inputs[..i]), inputs[i]); b in v.buildings && Busy(v.buildings[b])
  }

  lemma KeptBusyBefore(w: World, inputs: seq<Input>, b: Id)
    requires KeptBusy(w, inputs, b) && inputs != []
    ensures KeptBusy(w, inputs[..|inputs| - 1], b)
    ensures var v := Turned(Run(w, inputs[..|inputs| - 1]), inputs[|inputs| - 1]);
            b in v.buildings && Busy(v.buildings[b])
  {
    hide Turned, Run, Busy;
    var before := inputs[..|inputs| - 1];
    forall i | 0 <= i < |before|
      ensures var v := Turned(Run(w, before[..i]), before[i]); b in v.buildings && Busy(v.buildings[b])
    {
      assert before[..i] == inputs[..i] && before[i] == inputs[i];
    }
  }

  /**
   Units appear forty ticks apart: while the queue is busy, forty times the number of units that have
   appeared, plus the progress on the next, grows by exactly one a tick.
   */
  lemma {:induction false} FortyTicksApart(w: World, inputs: seq<Input>, b: Id)
    requires WellFormed(w) && Regular(inputs) && Stands(w, inputs, b) && KeptBusy(w, inputs, b)
    requires b in w.buildings && OnBeat(w.buildings[b])
    ensures b in Run(w, inputs).buildings && OnBeat(Run(w, inputs).buildings[b])
    ensures BEAT * |Appeared(w, inputs, b)| + Elapsed(Run(w, inputs).buildings[b])
            == Elapsed(w.buildings[b]) + |inputs|
  {
    hide WellFormed, Advance, Enumerates, Stands, Turned, Types, Trained, KeptBusy, OnBeat, Elapsed, AcceptedOrders,
         CameOut;
    if inputs != [] {
      var before, input := inputs[..|inputs| - 1], inputs[|inputs| - 1];
      StandsBefore(w, inputs, b);
      KeptBusyBefore(w, inputs, b);
      assert forall i | 0 <= i < |before| :: before[i] == inputs[i];
      FortyTicksApart(w, before, b);
      RunWellFormed(w, before);
      var v := Run(w, before);
      TickTrains(v, input, b);
      CameOutIs(v, input, b);
      var site := Turned(v, input).buildings[b];
      OrdersFullTime(input.env, v.(pending := v.pending + input.commands), v.pending + input.commands, b);
      BeatOrders(v.buildings[b], site, TickOrders(v, input, b));
      BeatTick(site);
    }
  }
}
