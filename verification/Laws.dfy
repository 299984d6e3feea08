/**
 The laws a single unit keeps: its mode invariant, and what any decision or order may change.
 Everything proved about whole runs rests on these, not on the individual decisions.
 */
module Laws {
  import opened Entities
  import opened Simulation

  /**
   A unit is in at most one mode (attacking, working, walking); a path belongs to a walk and its
   index is in range; a task carries what it needs; the load never exceeds the capacity.
   */
  ghost predicate UnitOk(u: Unit) {
    && (u.attackTarget != 0 ==> u.task == NoTask && !u.hasTarget)
    && (u.task != NoTask ==> !u.hasTarget)
    && (u.path != [] ==> u.hasTarget && u.pathIndex < |u.path|)
    && (u.path == [] ==> u.pathIndex == 0)
    && (u.task == Gathering || u.task == PreparingReturn ==> u.gatherField != 0)
    && (u.task == PreparingReturn ==> u.carried > 0)
    && (u.task == Pickup ==> u.pickupDrop != 0)
    && (u.task == Constructing ==> u.buildTarget != 0)
    && u.carried <= CARRY_CAPACITY
  }

  /** What a decision about itself never changes in a unit. */
  ghost predicate SameUnit(u: Unit, v: Unit) {
    && v.id == u.id && v.owner == u.owner && v.team == u.team && v.unitType == u.unitType
    && v.speed == u.speed && v.hp == u.hp
  }

  /** The effect is one the room can carry out, and the load accounts for it. */
  ghost predicate EffectOk(w: World, u: Unit, o: Outcome) {
    match o.effect
    case NoEffect => o.unit.carried == u.carried
    case Shed(_, n) => n == u.carried > 0 && o.unit.carried == 0
    case HitUnit(v) => o.unit.carried == u.carried && v != u.id && v in w.units
                       && w.units[v].team != u.team && w.units[v].hp > 0.0
    case HitBuilding(v) => o.unit.carried == u.carried && v in w.buildings
                           && w.buildings[v].team != u.team && w.buildings[v].hp > 0.0
    case Mine(f, n) => f in w.fields && n <= w.fields[f].amount && 0 < w.fields[f].amount
                       && o.unit.carried == u.carried + n
    case Deposit(_, n) => n == u.carried && o.unit.carried == 0
    case Take(d, n) => d in w.drops && n <= w.drops[d].amount && o.unit.carried == u.carried + n
    case Raise(s, _) => o.unit.carried == u.carried && s in w.buildings && w.buildings[s].underConstruction
  }

  ghost predicate Lawful(w: World, u: Unit, o: Outcome) {
    && SameUnit(u, o.unit)
    && (UnitOk(u) ==> UnitOk(o.unit) && EffectOk(w, u, o))
    && Feasible(w, o)
  }

  /** The state every room is in: keys are ids, ids are positive, fresh ids are above all, maps are disjoint. */
  ghost predicate WellFormed(w: World) {
    && (forall k | k in w.units :: w.units[k].id == k && 0 < k < w.nextId && UnitOk(w.units[k]))
    && (forall k | k in w.buildings :: w.buildings[k].id == k && 0 < k < w.nextId && SiteOk(w.buildings[k]))
    && (forall k | k in w.fields :: w.fields[k].id == k && 0 < k < w.nextId)
    && (forall k | k in w.drops :: w.drops[k].id == k && 0 < k < w.nextId)
    && (forall k | k in w.units :: k !in w.buildings && k !in w.fields && k !in w.drops)
    && (forall k | k in w.buildings :: k !in w.fields && k !in w.drops)
    && (forall k | k in w.fields :: k !in w.drops)
    && 0 < w.nextId
  }

  /** Nothing is trained in a building site. */
  ghost predicate SiteOk(b: Building) { b.underConstruction ==> b.queue == [] }

  // ---- decisions are lawful ----

  lemma AlertLawful(e: Env, w: World, u: Unit)
    requires u.id in w.units
    ensures var r := Alert(e, w, u); r.React? ==> Lawful(w, u, r.outcome)
  {}

  lemma CombatLawful(e: Env, w: World, u: Unit, dt: real)
    requires u.id in w.units && w.units[u.id] == u && u.attackTarget != 0
    ensures Lawful(w, u, DecideCombat(e, w, u, dt))
  {
    hide Strike, Toward;
  }

  lemma GatherLawful(e: Env, w: World, u: Unit, dt: real)
    requires u.id in w.units && u.task == Gathering && u.attackTarget == 0
    ensures Lawful(w, u, DecideGather(e, w, u, dt))
  {
    hide Face, MoveToward, Yield;
  }

  lemma PreparingLawful(e: Env, w: World, u: Unit, dt: real)
    requires u.id in w.units && u.task == PreparingReturn && u.attackTarget == 0
    ensures Lawful(w, u, DecidePreparing(e, u, dt))
  {}

  lemma ResumeLawful(w: World, u: Unit)
    requires u.task == Returning && u.attackTarget == 0
    ensures SameUnit(u, Resume(w, u)) && Resume(w, u).carried == u.carried
    ensures UnitOk(u) ==> UnitOk(Resume(w, u))
  {}

  /** Moving, binding a camp, changing the state or emptying the load keeps a returning worker in its mode. */
  lemma ReturningOk(u: Unit, v: Unit)
    requires v == u.(pos := v.pos, yaw := v.yaw, state := v.state, dropoff := v.dropoff, carried := v.carried)
    requires u.task == Returning && u.attackTarget == 0 && v.carried <= u.carried
    ensures SameUnit(u, v) && (UnitOk(u) ==> UnitOk(v))
  {}

  lemma ReturnLawful(e: Env, w: World, u: Unit, dt: real)
    requires u.id in w.units && u.task == Returning && u.attackTarget == 0
    ensures Lawful(w, u, DecideReturn(e, w, u, dt))
  {
    hide MoveToward, ChosenDropoff, Resume, UnitOk;
    ResumeLawful(w, u);
    var camp := ChosenDropoff(e, w, u);
    if u.carried > 0 && camp != 0 {
      var bound := u.(dropoff := camp);
      var (u1, arrived) := MoveToward(e, bound, Shift(w.buildings[camp].pos, u.slot), ARRIVE_RADIUS, dt);
      ReturningOk(u, u1.(state := Moving));
      ReturningOk(u, u1.(carried := 0));
      ResumeLawful(w, u1.(carried := 0));
    } else {
      ReturningOk(u, u.(state := Idle));
    }
  }

  lemma PickupLawful(e: Env, w: World, u: Unit, dt: real)
    requires u.id in w.units && u.task == Pickup && u.attackTarget == 0
    ensures UnitOk(u) ==> Lawful(w, u, DecidePickup(e, w, u, dt))
  {
    hide MoveToward;
  }

  lemma ConstructLawful(e: Env, w: World, u: Unit, dt: real)
    requires u.id in w.units && u.task == Constructing && u.attackTarget == 0
    ensures Lawful(w, u, DecideConstruct(e, w, u, dt))
  {
    hide MoveToward;
  }

  lemma {:induction false} WalkLawful(e: Env, u: Unit, left: real)
    requires u.hasTarget && u.task == NoTask && u.attackTarget == 0
    ensures SameUnit(u, Walk(e, u, left)) && Walk(e, u, left).carried == u.carried
    ensures UnitOk(u) ==> UnitOk(Walk(e, u, left))
    decreases if OnPath(u) then |u.path| - u.pathIndex else 0
  {
    if left > 0.00001 && OnPath(u) && u.pathIndex + 1 < |u.path| {
      var dist := e.len(Toward(u.pos, Destination(u)));
      if dist <= left || dist < 0.0001 {
        WalkLawful(e, u.(pos := Destination(u), pathIndex := u.pathIndex + 1), left - MaxReal(dist, 0.0));
      }
    }
  }

  lemma MoveLawful(e: Env, w: World, u: Unit, dt: real)
    requires u.id in w.units && u.task == NoTask && u.hasTarget && u.attackTarget == 0
    ensures Lawful(w, u, Outcome(Walk(e, u, Stride(u, dt)), NoEffect))
  {
    WalkLawful(e, u, Stride(u, dt));
  }

  lemma DecideLawful(e: Env, w: World, u: Unit, dt: real)
    requires u.id in w.units && w.units[u.id] == u && UnitOk(u)
    ensures var r := Decide(e, w, u, dt); r.React? ==> Lawful(w, u, r.outcome)
  {
    hide DecideCombat, DecideGather, DecidePreparing, DecideReturn, DecidePickup, DecideConstruct, Lawful;
    if u.attackTarget != 0 {
      CombatLawful(e, w, u, dt);
    } else {
      match u.task
      case Gathering => GatherLawful(e, w, u, dt);
      case PreparingReturn => PreparingLawful(e, w, u, dt);
      case Returning => ReturnLawful(e, w, u, dt);
      case Pickup => PickupLawful(e, w, u, dt);
      case Constructing => ConstructLawful(e, w, u, dt);
      case NoTask =>
        if u.hasTarget {
          MoveLawful(e, w, u, dt);
        }
    }
  }

  /** The target an order names is a live id. */
  ghost predicate OrderOk(order: Order) {
    match order
    case Harvesting(f, _) => f != 0
    case Fetching(d) => d != 0
    case Raising(s) => s != 0
    case _ => true
  }

  lemma ObeyLawful(e: Env, w: World, order: Order, index: nat, count: nat, u: Unit)
    requires index < count && OrderOk(order) && u.id in w.units && UnitOk(u)
    ensures Lawful(w, u, Obey(e, order, index, count, u))
  {}
}
