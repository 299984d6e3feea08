/**
 Worker liveness (DungeonRoom.h, StepGather, StepPreparingReturn and StepReturn): a worker that is
 left alone walks to its field, fills up, lifts its load, walks back and deposits it, within a
 number of ticks that can be computed beforehand.
 */
module WorkerLiveness {
  import opened Entities
  import opened Simulation
  import opened Laws
  import opened Evolution
  import opened Replication
  import opened Bystanders
  import opened Movement

  /** Where the worker works, the finished buildings of its team that stand throughout, and how far they are. */
  datatype Plan = Plan(anchor: Vec3, camps: map<Id, Vec3>, reach: real)

  // ---- what is assumed of the surroundings ----

  ghost predicate Unthreatened(e: Env, w: World, u: Unit) {
    forall k | k in w.units && w.units[k].team != u.team && w.units[k].hp > 0.0 ::
      Gap(e, u.pos, w.units[k].pos) >= DEFEND_RANGE
  }

  /** The field it works at is not exhausted. */
  ghost predicate FieldServes(w: World, u: Unit, plan: Plan) {
    u.task == Gathering ==>
      u.gatherField in w.fields && w.fields[u.gatherField].amount > 0
      && Shift(w.fields[u.gatherField].pos, u.slot) == plan.anchor
  }

  /** The camps stand and are in reach of the place of work. */
  ghost predicate CampsStand(e: Env, w: World, u: Unit, plan: Plan) {
    forall c | c in plan.camps ::
      && c in w.buildings && w.buildings[c].team == u.team && !w.buildings[c].underConstruction && c != 0
      && w.buildings[c].pos == plan.camps[c]
      && Gap(e, plan.anchor, Shift(plan.camps[c], u.slot)) <= plan.reach
  }

  /** One of them is where the worker returns to. */
  ghost predicate CampServes(e: Env, w: World, u: Unit, plan: Plan) {
    u.task == Returning ==> ChosenDropoff(e, w, u) in plan.camps
  }

  ghost predicate Undisturbed(e: Env, w: World, u: Unit, plan: Plan) {
    Unthreatened(e, w, u) && FieldServes(w, u, plan) && CampServes(e, w, u, plan) && CampsStand(e, w, u, plan)
  }

  // ---- a worker in the cycle, and how many turns it needs at most ----

  ghost predicate OnDuty(u: Unit, dt: real) {
    && UnitOk(u) && 0.0 < Stride(u, dt) <= 2.0 * ARRIVE_RADIUS
    && (u.task == Gathering || ((u.task == PreparingReturn || u.task == Returning) && u.carried > 0))
  }

  /** The work still to be done until the load is full, in seconds. */
  function WorkLeft(u: Unit): real { CARRY_CAPACITY as real - u.carried as real - u.workCd }

  function WorkTurns(left: real, dt: real): nat
    requires dt > 0.0
  {
    if left <= 0.0 then 1 else Legs(left, dt, 0.0)
  }

  /** Turns from here to any camp. */
  function Trip(e: Env, u: Unit, plan: Plan, dt: real): nat
    requires Stride(u, dt) > 0.0
  {
    Legs(MaxReal(Gap(e, u.pos, plan.anchor), ARRIVE_RADIUS) + plan.reach, Stride(u, dt), ARRIVE_RADIUS)
  }

  /** Turns to the camp the worker is bound to, or to any camp while it is not bound. */
  function WayBack(e: Env, u: Unit, plan: Plan, dt: real): nat
    requires Stride(u, dt) > 0.0
  {
    if u.dropoff in plan.camps
    then Legs(Gap(e, u.pos, Shift(plan.camps[u.dropoff], u.slot)), Stride(u, dt), ARRIVE_RADIUS)
    else Trip(e, u, plan, dt)
  }

  /** The turns a worker needs at most before the one in which it deposits its load. */
  function Rank(e: Env, u: Unit, plan: Plan, dt: real): nat
    requires Stride(u, dt) > 0.0 && dt > 0.0
  {
    match u.task
    case Gathering =>
      Legs(Gap(e, u.pos, plan.anchor), Stride(u, dt), ARRIVE_RADIUS) + WorkTurns(WorkLeft(u), dt)
      + Legs(CARRY_LIFT_DURATION, dt, 0.0) + 1 + Trip(e, u, plan, dt)
    case PreparingReturn => Legs(u.workCd, dt, 0.0) + 1 + Trip(e, u, plan, dt)
    case _ => WayBack(e, u, plan, dt)
  }

  /** Closer to its deposit than before. */
  ghost predicate Nearer(e: Env, u: Unit, v: Unit, plan: Plan, dt: real)
    requires Stride(u, dt) > 0.0 && dt > 0.0
  {
    OnDuty(v, dt) && Rank(e, v, plan, dt) < Rank(e, u, plan, dt)
  }

  // ---- lifting ----

  lemma LegsStep(g: real, s: real)
    requires s > 0.0 && g > 0.0
    ensures Legs(g - s, s, 0.0) < Legs(g, s, 0.0)
  {
    if g - s > 0.0 { FloorStep(g, s); }
  }

  lemma SamePlace(e: Env, u: Unit, v: Unit, plan: Plan, dt: real)
    requires Stride(u, dt) > 0.0 && v.pos == u.pos && v.speed == u.speed
    ensures Stride(v, dt) == Stride(u, dt) && Trip(e, v, plan, dt) == Trip(e, u, plan, dt)
  {
    hide Legs, Gap;
  }

  /** Whichever camp it is bound to is within the trip. */
  lemma WayBackBound(e: Env, w: World, u: Unit, plan: Plan, dt: real)
    requires IsNorm(e.len) && Stride(u, dt) > 0.0 && CampsStand(e, w, u, plan)
    ensures WayBack(e, u, plan, dt) <= Trip(e, u, plan, dt)
  {
    if u.dropoff in plan.camps {
      var p := Shift(plan.camps[u.dropoff], u.slot);
      GapTriangle(e, u.pos, plan.anchor, p);
      LegsMonotone(Gap(e, u.pos, p), MaxReal(Gap(e, u.pos, plan.anchor), ARRIVE_RADIUS) + plan.reach,
                   Stride(u, dt), ARRIVE_RADIUS);
    }
    hide Legs, IsNorm, CampsStand;
  }

  lemma CampsStandSame(e: Env, w: World, u: Unit, v: Unit, plan: Plan)
    requires CampsStand(e, w, u, plan) && v.team == u.team && v.slot == u.slot
    ensures CampsStand(e, w, v, plan)
  {}

  lemma PreparingRanks(e: Env, w: World, u: Unit, plan: Plan, dt: real)
    requires IsNorm(e.len) && dt > 0.0 && OnDuty(u, dt) && CampsStand(e, w, u, plan) && u.task == PreparingReturn
    ensures Nearer(e, u, DecidePreparing(e, u, dt).unit, plan, dt)
  {
    hide Legs, IsNorm, Gap, CampsStand, Trip, WayBack;
    var v := DecidePreparing(e, u, dt).unit;
    SamePlace(e, u, v, plan, dt);
    if u.workCd - dt > 0.0 {
      LegsStep(u.workCd, dt);
    } else {
      CampsStandSame(e, w, u, v, plan);
      WayBackBound(e, w, v, plan, dt);
    }
  }

  // ---- returning ----

  /** A step toward p from outside the arrival radius brings arrival nearer. */
  lemma StepNearer(e: Env, u: Unit, p: Vec3, dt: real)
    requires IsNorm(e.len) && 0.0 < Stride(u, dt) <= 2.0 * ARRIVE_RADIUS
    ensures var (v, arrived) := MoveToward(e, u, p, ARRIVE_RADIUS, dt);
            && arrived == (Gap(e, u.pos, p) <= ARRIVE_RADIUS) && (arrived ==> v == u)
            && Stride(v, dt) == Stride(u, dt)
            && (!arrived ==> Legs(Gap(e, v.pos, p), Stride(u, dt), ARRIVE_RADIUS)
                             < Legs(Gap(e, u.pos, p), Stride(u, dt), ARRIVE_RADIUS))
            && (!arrived ==> MaxReal(Gap(e, v.pos, p), ARRIVE_RADIUS) <= MaxReal(Gap(e, u.pos, p), ARRIVE_RADIUS))
  {
    MoveGap(e, u, p, ARRIVE_RADIUS, dt);
    if Gap(e, u.pos, p) > ARRIVE_RADIUS {
      LegsDecrease(Gap(e, u.pos, p), Stride(u, dt), ARRIVE_RADIUS);
    }
    hide IsNorm, Legs, MoveToward;
  }

  lemma ReturnRanks(e: Env, w: World, u: Unit, plan: Plan, dt: real)
    requires IsNorm(e.len) && dt > 0.0 && OnDuty(u, dt) && u.task == Returning
    requires CampServes(e, w, u, plan) && CampsStand(e, w, u, plan)
    ensures var o := DecideReturn(e, w, u, dt);
            o.effect == Deposit(u.carriedRaw, u.carried) || (o.effect == NoEffect && Nearer(e, u, o.unit, plan, dt))
  {
    hide Legs, IsNorm, Gap, MoveToward, Trip, ChosenDropoff;
    var camp := ChosenDropoff(e, w, u);
    var bound := u.(dropoff := camp);
    var p := Shift(w.buildings[camp].pos, u.slot);
    StepNearer(e, bound, p, dt);
    SamePlace(e, u, bound, plan, dt);
    CampsStandSame(e, w, u, bound, plan);
    WayBackBound(e, w, bound, plan, dt);
    if u.dropoff in plan.camps { BoundCamp(e, w, u, plan); }
    assert WayBack(e, bound, plan, dt) <= WayBack(e, u, plan, dt);
    assert p == Shift(plan.camps[camp], u.slot);
    hide CampsStand, WayBack, Stride;
    var (u1, arrived) := MoveToward(e, bound, p, ARRIVE_RADIUS, dt);
    if !arrived {
      var v := u1.(state := Moving);
      assert DecideReturn(e, w, u, dt) == Outcome(v, NoEffect);
      BoundWay(e, bound, plan, dt);
      BoundWay(e, v, plan, dt);
      StrideSame(u, v, dt);
    }
  }

  lemma BoundWay(e: Env, u: Unit, plan: Plan, dt: real)
    requires Stride(u, dt) > 0.0 && u.dropoff in plan.camps
    ensures WayBack(e, u, plan, dt)
            == Legs(Gap(e, u.pos, Shift(plan.camps[u.dropoff], u.slot)), Stride(u, dt), ARRIVE_RADIUS)
  {}

  /** A worker bound to a standing camp stays bound to it. */
  lemma BoundCamp(e: Env, w: World, u: Unit, plan: Plan)
    requires CampsStand(e, w, u, plan) && u.dropoff in plan.camps
    ensures ChosenDropoff(e, w, u) == u.dropoff
  {}

  // ---- gathering ----

  /** When harvesting stops with room left in the load and the field, the work time is used up. */
  lemma {:induction false} YieldUsesUp(workCd: real, carried: nat, left: nat)
    ensures var n := Yield(workCd, carried, left);
            n < left && carried + n < CARRY_CAPACITY ==> workCd - n as real * HARVEST_INTERVAL < HARVEST_INTERVAL
    decreases left
  {
    if workCd >= HARVEST_INTERVAL && carried < CARRY_CAPACITY && left > 0 {
      YieldUsesUp(workCd - HARVEST_INTERVAL, carried + 1, left - 1);
    }
  }

  lemma TripShorter(e: Env, u: Unit, v: Unit, plan: Plan, dt: real)
    requires Stride(u, dt) > 0.0 && v.speed == u.speed
    requires MaxReal(Gap(e, v.pos, plan.anchor), ARRIVE_RADIUS) <= MaxReal(Gap(e, u.pos, plan.anchor), ARRIVE_RADIUS)
    ensures Stride(v, dt) == Stride(u, dt) && Trip(e, v, plan, dt) <= Trip(e, u, plan, dt)
  {
    LegsMonotone(MaxReal(Gap(e, v.pos, plan.anchor), ARRIVE_RADIUS) + plan.reach,
                 MaxReal(Gap(e, u.pos, plan.anchor), ARRIVE_RADIUS) + plan.reach, Stride(u, dt), ARRIVE_RADIUS);
    hide Legs, Gap;
  }

  /** Starting to lift is one step further than any gathering. */
  lemma LiftNearer(e: Env, u: Unit, v: Unit, face: Vec3, plan: Plan, dt: real)
    requires dt > 0.0 && OnDuty(u, dt) && u.task == Gathering && v.speed == u.speed && v.pos == u.pos
    requires UnitOk(v) && v.carried > 0 && v.attackTarget == 0 && v.gatherField != 0 && v.path == []
    ensures Nearer(e, u, ToPreparing(e, v, face), plan, dt)
  {
    hide Gap, Legs, Trip;
    var x := ToPreparing(e, v, face);
    SamePlace(e, u, x, plan, dt);
    assert Rank(e, x, plan, dt) == Legs(CARRY_LIFT_DURATION, dt, 0.0) + 1 + Trip(e, u, plan, dt);
    WorkTakesTurns(WorkLeft(u), dt);
  }

  lemma WorkTakesTurns(left: real, dt: real)
    requires dt > 0.0
    ensures WorkTurns(left, dt) >= 1
  {}

  /** A frame of work: the load is lifted next, or less work is left. */
  lemma HarvestRanks(e: Env, u: Unit, field: Field, plan: Plan, dt: real)
    requires dt > 0.0 && OnDuty(u, dt) && u.task == Gathering && u.carried < CARRY_CAPACITY && field.amount > 0
    ensures Nearer(e, u, Harvested(e, u, field, dt), plan, dt)
  {
    hide Gap, Legs, Trip, Yield;
    var n := Yield(u.workCd + dt, u.carried, field.amount);
    YieldUsesUp(u.workCd + dt, u.carried, field.amount);
    var v := Face(e, u, field.pos).(state := Working, carriedRaw := field.raw, carried := u.carried + n,
                                    workCd := u.workCd + dt - n as real * HARVEST_INTERVAL);
    if (n == field.amount && v.carried > 0) || v.carried >= CARRY_CAPACITY {
      LiftNearer(e, u, v, field.pos, plan, dt);
    } else {
      assert WorkLeft(v) == WorkLeft(u) - dt;
      assert WorkLeft(v) > 0.0;
      LegsStep(WorkLeft(u), dt);
      SamePlace(e, u, v, plan, dt);
    }
  }

  lemma GatherRanks(e: Env, w: World, u: Unit, plan: Plan, dt: real)
    requires IsNorm(e.len) && dt > 0.0 && OnDuty(u, dt) && u.task == Gathering && FieldServes(w, u, plan)
    ensures Nearer(e, u, DecideGather(e, w, u, dt).unit, plan, dt)
    ensures !DecideGather(e, w, u, dt).effect.Deposit?
  {
    hide Legs, IsNorm, Gap, MoveToward, Trip, Harvested, ToPreparing, Yield, WorkTurns;
    var field := w.fields[u.gatherField];
    if u.carried >= CARRY_CAPACITY {
      LiftNearer(e, u, u, field.pos, plan, dt);
    } else {
      var aimed := u.(target := field.pos);
      SamePlace(e, u, aimed, plan, dt);
      StepNearer(e, aimed, plan.anchor, dt);
      var (u1, arrived) := MoveToward(e, aimed, plan.anchor, ARRIVE_RADIUS, dt);
      if arrived {
        HarvestRanks(e, aimed, field, plan, dt);
      } else {
        var v := u1.(state := Moving);
        TripShorter(e, u, v, plan, dt);
      }
    }
  }

  // ---- one turn ----

  lemma {:induction false} ScanFindsNobody(e: Env, w: World, u: Unit, range: real, ids: seq<Id>)
    requires forall k | k in w.units && w.units[k].team != u.team && w.units[k].hp > 0.0 ::
               Gap(e, u.pos, w.units[k].pos) >= range
    ensures ScanEnemy(e, w, u, range, ids) == 0
  {
    if ids != [] { ScanFindsNobody(e, w, u, range, ids[..|ids| - 1]); }
  }

  /** A worker nobody threatens ignores the scan. */
  lemma NoAlert(e: Env, w: World, u: Unit)
    requires Unthreatened(e, w, u) && u.task != NoTask
    ensures Alert(e, w, u) == Ignore
  {
    ScanFindsNobody(e, w, u, DEFEND_RANGE, e.enum(w.units.Keys));
  }

  /** The unit as it decides: its attack cooldown has run down a little. */
  function Cooled(u: Unit, dt: real): Unit { u.(attackCd := CoolDown(u.attackCd, dt)) }

  lemma CooledSame(e: Env, w: World, id: Id, plan: Plan, dt: real)
    requires id in w.units && dt > 0.0 && OnDuty(w.units[id], dt) && Undisturbed(e, w, w.units[id], plan)
    ensures var w1, u1 := Cool(w, id, dt), Cooled(w.units[id], dt);
            && w1.units[id] == u1 && OnDuty(u1, dt) && Undisturbed(e, w1, u1, plan)
            && Rank(e, u1, plan, dt) == Rank(e, w.units[id], plan, dt)
  {
    hide CoolDown, Legs, NearestDropoff, Gap;
    var w1, u, u1 := Cool(w, id, dt), w.units[id], Cooled(w.units[id], dt);
    SamePlace(e, u, u1, plan, dt);
    CoolChoice(e, w, id, dt);
  }

  lemma CoolChoice(e: Env, w: World, id: Id, dt: real)
    requires id in w.units
    ensures ChosenDropoff(e, Cool(w, id, dt), Cooled(w.units[id], dt)) == ChosenDropoff(e, w, w.units[id])
  {
    SameDropoffs(e, Cool(w, id, dt), w, w.units[id].team, w.units[id].pos, e.enum(w.buildings.Keys));
  }

  lemma {:induction false} SameDropoffs(e: Env, a: World, b: World, team: nat, from: Vec3, ids: seq<Id>)
    requires a.buildings == b.buildings
    ensures ScanDropoff(e, a, team, from, ids) == ScanDropoff(e, b, team, from, ids)
  {
    if ids != [] { SameDropoffs(e, a, b, team, from, ids[..|ids| - 1]); }
  }

  /** The load has gone from the unit into its owner's ledger. */
  ghost predicate Delivered(before: World, after: World, id: Id) {
    && id in before.units && id in after.units
    && before.units[id].carried > 0 && after.units[id].carried == 0
    && var u := before.units[id];
       (u.owner in before.ledgers ==>
          after.ledgers == before.ledgers[u.owner := before.ledgers[u.owner].Add(ResourceOf(u.carriedRaw), u.carried)])
  }

  lemma SettleDeposit(w: World, id: Id, o: Outcome, raw: nat, n: nat)
    requires id in w.units && o.unit.id == id && o.effect == Deposit(raw, n) && o.unit.owner in w.ledgers
    ensures Settle(w, React(o)).ledgers == w.ledgers[o.unit.owner := w.ledgers[o.unit.owner].Add(ResourceOf(raw), n)]
  {}

  lemma DecideRanks(e: Env, w: World, id: Id, plan: Plan, dt: real)
    requires WellFormed(w) && IsNorm(e.len) && dt > 0.0 && id in w.units
    requires OnDuty(w.units[id], dt) && Undisturbed(e, w, w.units[id], plan)
    ensures var u, v := w.units[id], Settle(w, Decide(e, w, w.units[id], dt));
            id in v.units && (Delivered(w, v, id) || Nearer(e, u, v.units[id], plan, dt))
  {
    hide WellFormed, IsNorm, OnDuty, FieldServes, CampServes, CampsStand, Unthreatened, Nearer,
         DecideGather, DecidePreparing, DecideReturn, Settle, Lawful;
    var u := w.units[id];
    UnitFacts(w, id);
    DutyFacts(u, dt);
    DecideLawful(e, w, u, dt);
    var o := Decide(e, w, u, dt).outcome;
    LawfulFacts(w, u, o);
    match u.task {
      case Gathering => GatherRanks(e, w, u, plan, dt); GatherHitsNobody(e, w, u, dt);
      case PreparingReturn => PreparingRanks(e, w, u, plan, dt); LiftHitsNobody(e, u, dt);
      case _ =>
        ReturnRanks(e, w, u, plan, dt);
        if o.effect.Deposit? && u.owner in w.ledgers { SettleDeposit(w, id, o, u.carriedRaw, u.carried); }
    }
    SettleOwn(w, id, o);
  }

  lemma GatherHitsNobody(e: Env, w: World, u: Unit, dt: real)
    ensures !DecideGather(e, w, u, dt).effect.HitUnit?
  {}

  lemma LiftHitsNobody(e: Env, u: Unit, dt: real)
    ensures !DecidePreparing(e, u, dt).effect.HitUnit?
  {}

  lemma DutyFacts(u: Unit, dt: real)
    requires OnDuty(u, dt)
    ensures u.attackTarget == 0 && Stride(u, dt) > 0.0
    ensures u.task == Gathering || u.task == PreparingReturn || u.task == Returning
    ensures u.task != Gathering ==> u.carried > 0
  {}

  lemma LawfulFacts(w: World, u: Unit, o: Outcome)
    requires Lawful(w, u, o) && UnitOk(u)
    ensures o.unit.id == u.id && o.unit.owner == u.owner && Feasible(w, o)
    ensures o.effect.Deposit? ==> o.effect.amount == u.carried && o.unit.carried == 0
  {}

  /** One turn of an undisturbed worker: it delivers, or it comes nearer to delivering. */
  lemma TurnRanks(e: Env, w: World, id: Id, scan: bool, plan: Plan, dt: real)
    requires WellFormed(w) && IsNorm(e.len) && dt > 0.0 && id in w.units && w.units[id].hp > 0.0
    requires OnDuty(w.units[id], dt) && Undisturbed(e, w, w.units[id], plan)
    ensures var u, v := w.units[id], Turn(e, w, id, scan, dt);
            id in v.units && (Delivered(w, v, id) || Nearer(e, u, v.units[id], plan, dt))
  {
    hide WellFormed, IsNorm, FieldServes, CampServes, CampsStand, Unthreatened, Alert, Decide, UnitOk,
         CoolDown, Rank, Evolves, Settle;
    CooledSame(e, w, id, plan, dt);
    CoolKeeps(w, id, dt);
    var w1 := Cool(w, id, dt);
    NoAlert(e, w1, w1.units[id]);
    IgnoreSettles(w1);
    DecideRanks(e, w1, id, plan, dt);
  }

  lemma IgnoreSettles(w: World)
    ensures Settle(w, Ignore) == w
  {}

  // ---- whole runs ----

  /** A tick in which the worker survives, is not commanded, is not threatened and can work and return. */
  ghost predicate Calm(e: Env, w: World, input: Input, id: Id, plan: Plan) {
    && input.env.len == e.len && Enumerates(input.env.enum)
    && id in w.units && Unaddressed(w, input, id) && id in Advance(w, input).units
    && var eve := Eve(w, input, id);
       id in eve.units && Undisturbed(input.env, eve, eve.units[id], plan)
  }

  /** The rank does not depend on hit points, nor on anything of the environment but distances. */
  lemma RankSame(e: Env, e': Env, u: Unit, v: Unit, plan: Plan, dt: real)
    requires e'.len == e.len && Spared(u, v) && dt > 0.0 && OnDuty(u, dt)
    ensures OnDuty(v, dt) && Rank(e', v, plan, dt) == Rank(e, u, plan, dt)
  {
    hide Legs;
    assert Stride(v, dt) == Stride(u, dt);
    assert forall p: Vec3 :: Gap(e', v.pos, p) == Gap(e, u.pos, p);
    hide Gap, Stride, Shift;
    assert Trip(e', v, plan, dt) == Trip(e, u, plan, dt);
    assert WayBack(e', v, plan, dt) == WayBack(e, u, plan, dt);
    hide Trip, WayBack, WorkTurns;
  }

  lemma NearerSame(e: Env, e': Env, u: Unit, u': Unit, v: Unit, v': Unit, plan: Plan, dt: real)
    requires e'.len == e.len && Spared(u, u') && Spared(v, v') && dt > 0.0 && OnDuty(u, dt)
    ensures OnDuty(u', dt)
    ensures Nearer(e', u', v, plan, dt) ==> Nearer(e, u, v', plan, dt)
  {
    hide Rank, OnDuty, Spared;
    RankSame(e, e', u, u', plan, dt);
    if OnDuty(v, dt) { RankSame(e', e, v, v', plan, dt); }
  }

  lemma TickRanks(e: Env, w: World, input: Input, id: Id, plan: Plan)
    requires WellFormed(w) && IsNorm(e.len) && Calm(e, w, input, id, plan) && OnDuty(w.units[id], TICK_SECONDS)
    ensures OnDuty(w.units[id], TICK_SECONDS) && Stride(w.units[id], TICK_SECONDS) > 0.0
            && id in Advance(w, input).units
            && (Delivered(Eve(w, input, id), Morrow(w, input, id), id)
                || Nearer(e, w.units[id], Advance(w, input).units[id], plan, TICK_SECONDS))
  {
    hide WellFormed, IsNorm, Undisturbed, Enumerates, Advance, Eve, Turn, OnDuty, Rank, Spared, Delivered, Nearer,
         Opened, Unaddressed, ScanDue, Stride;
    var dt := TICK_SECONDS;
    DutyFacts(w.units[id], dt);
    TickIsTurn(w, input, id);
    var eve, after := Eve(w, input, id), Morrow(w, input, id);
    NearerSame(e, input.env, w.units[id], eve.units[id], after.units[id], Advance(w, input).units[id], plan, dt);
    TurnRanks(input.env, eve, id, ScanDue(Opened(w, input)), plan, dt);
  }

  lemma RunStep(w: World, inputs: seq<Input>, k: nat)
    requires k < |inputs|
    ensures Run(w, inputs[..k + 1]) == ClearMarks(Advance(Run(w, inputs[..k]), inputs[k]))
  {
    hide Advance;
    assert inputs[..k + 1][..k] == inputs[..k];
  }

  /** The worker delivers in this tick of a run. */
  ghost predicate DeliversIn(v: World, input: Input, id: Id) {
    Delivered(Eve(v, input, id), Morrow(v, input, id), id)
  }

  /** The worker is in the cycle, at least n turns nearer to its deposit than a rank of start. */
  ghost predicate NearerBy(e: Env, v: World, id: Id, plan: Plan, n: nat, start: nat) {
    && id in v.units && OnDuty(v.units[id], TICK_SECONDS)
    && Stride(v.units[id], TICK_SECONDS) > 0.0 && Rank(e, v.units[id], plan, TICK_SECONDS) + n <= start
  }

  /** One calm tick of a run. */
  lemma CalmTick(e: Env, v: World, input: Input, id: Id, plan: Plan, n: nat, start: nat)
    requires WellFormed(v) && IsNorm(e.len) && Calm(e, v, input, id, plan) && NearerBy(e, v, id, plan, n, start)
    ensures DeliversIn(v, input, id) || NearerBy(e, ClearMarks(Advance(v, input)), id, plan, n + 1, start)
  {
    hide WellFormed, IsNorm, Calm, Advance, Eve, Morrow, OnDuty, Rank, Delivered, Stride;
    TickRanks(e, v, input, id, plan);
    if !DeliversIn(v, input, id) { DutyFacts(Advance(v, input).units[id], TICK_SECONDS); }
  }

  /** After n calm ticks the worker has delivered, or its rank has gone down by n. */
  lemma {:induction false} CalmTicks(e: Env, w: World, inputs: seq<Input>, id: Id, plan: Plan, n: nat, start: nat)
    returns (delivered: bool, k: nat)
    requires WellFormed(w) && IsNorm(e.len) && n <= |inputs| && NearerBy(e, w, id, plan, 0, start)
    requires forall k | 0 <= k < n :: Calm(e, Run(w, inputs[..k]), inputs[k], id, plan)
    ensures delivered ==> k < n && DeliversIn(Run(w, inputs[..k]), inputs[k], id)
    ensures !delivered ==> NearerBy(e, Run(w, inputs[..n]), id, plan, n, start)
  {
    hide WellFormed, IsNorm, Advance, Calm, NearerBy, DeliversIn, Run;
    if n == 0 {
      delivered, k := false, 0;
      assert inputs[..0] == [];
      RunNone(w);
    } else {
      delivered, k := CalmTicks(e, w, inputs, id, plan, n - 1, start);
      if !delivered {
        var v := Run(w, inputs[..n - 1]);
        RunWellFormed(w, inputs[..n - 1]);
        CalmTick(e, v, inputs[n - 1], id, plan, n - 1, start);
        RunStep(w, inputs, n - 1);
        delivered, k := DeliversIn(v, inputs[n - 1], id), n - 1;
      }
    }
  }

  lemma RunNone(w: World)
    ensures Run(w, []) == w
  {}

  /**
   Worker liveness: while the ticks are calm, a worker anywhere in the cycle deposits its load
   within as many ticks as its rank, counting the delivering tick itself as one more.
   */
  lemma WorkerDelivers(e: Env, w: World, inputs: seq<Input>, id: Id, plan: Plan) returns (k: nat)
    requires WellFormed(w) && IsNorm(e.len) && id in w.units && OnDuty(w.units[id], TICK_SECONDS)
    requires |inputs| == Rank(e, w.units[id], plan, TICK_SECONDS) + 1
    requires forall k | 0 <= k < |inputs| :: Calm(e, Run(w, inputs[..k]), inputs[k], id, plan)
    ensures k < |inputs|
    ensures DeliversIn(Run(w, inputs[..k]), inputs[k], id)
  {
    hide WellFormed, IsNorm, Calm, Run, OnDuty, Delivered, Rank, Stride;
    DutyFacts(w.units[id], TICK_SECONDS);
    var start := Rank(e, w.units[id], plan, TICK_SECONDS);
    var delivered, j := CalmTicks(e, w, inputs, id, plan, |inputs|, start);
    k := j;
  }
}
