/**
 What a worker's turn comes to (DungeonRoom.h, StepGather, StepPreparingReturn, StepReturn and StepPickup):
 how much is harvested, picked up and paid in, and what the worker does next.
 */
module Labour {
  import opened Entities
  import opened Simulation
  import opened Laws
  import opened Evolution
  import opened Replication
  import opened Bystanders
  import opened Movement
  import opened Moments
  import opened Obedience
  import opened Strikes
  import Sight
  import WorkerLiveness

  // ---- a turn without a fight ----

  /** The unit is alive, fights nobody and has this task. */
  ghost predicate Does(w: World, id: Id, task: WorkerTask) {
    && id in w.units && w.units[id].hp > 0.0 && w.units[id].attackTarget == 0 && w.units[id].attackCd >= 0.0
    && w.units[id].task == task
  }

  /** No living enemy is near enough to be fought, when the unit looks around for one. */
  ghost predicate Peaceful(e: Env, w: World, id: Id, scan: bool)
    requires id in w.units
  {
    scan && Sight.Looks(w.units[id]) ==>
      forall k | Sight.Enemy(w, w.units[id], k) :: Gap(e, w.units[id].pos, w.units[k].pos) >= Sight.View(w.units[id])
  }

  /** The room after the unit has made its decision, if it has one to make. */
  ghost predicate Decided(e: Env, w: World, v: World, id: Id, dt: real)
    requires id in w.units
  {
    var u := Ready(w.units[id], dt);
    var w1 := w.(units := w.units[id := u]);
    var r := Decide(e, w1, u, dt);
    if r.React? then Feasible(w1, r.outcome) && v == Commit(w1, r.outcome) else v == w1
  }

  lemma PeacefulIgnores(e: Env, w: World, u: Unit, id: Id)
    requires id in w.units && u == w.units[id] && Peaceful(e, w, id, true)
    ensures Settle(w, Alert(e, w, u)) == w
  {
    hide Gap;
    if Sight.Looks(u) {
      WorkerLiveness.ScanFindsNobody(e, w, u, Sight.View(u), e.enum(w.units.Keys));
    }
    hide ScanEnemy;
  }

  lemma ReadyPeaceful(e: Env, w: World, id: Id, scan: bool, dt: real)
    requires id in w.units && Peaceful(e, w, id, scan)
    ensures Peaceful(e, w.(units := w.units[id := Ready(w.units[id], dt)]), id, scan)
  {
    var w1 := w.(units := w.units[id := Ready(w.units[id], dt)]);
    hide Gap, CooldownLeft;
    forall k | scan && Sight.Looks(w.units[id]) && Sight.Enemy(w1, w1.units[id], k)
      ensures Gap(e, w1.units[id].pos, w1.units[k].pos) >= Sight.View(w1.units[id])
    {
      assert Sight.Enemy(w, w.units[id], k);
    }
  }

  lemma PeacefulTurn(e: Env, w: World, id: Id, scan: bool, dt: real)
    requires WellFormed(w) && id in w.units && w.units[id].hp > 0.0 && w.units[id].attackCd >= 0.0 && dt >= 0.0
    requires Peaceful(e, w, id, scan)
    ensures Decided(e, w, Turn(e, w, id, scan, dt), id, dt)
  {
    hide Decide, Commit, Feasible, Alert, Peaceful, WellFormed, UnitOk, Lawful;
    var u := Ready(w.units[id], dt);
    assert CoolDown(w.units[id].attackCd, dt) == CooldownLeft(w.units[id].attackCd, dt);
    var w1 := Cool(w, id, dt);
    assert w1 == w.(units := w.units[id := u]);
    hide CoolDown, CooldownLeft;
    ReadyPeaceful(e, w, id, scan, dt);
    if scan { PeacefulIgnores(e, w1, u, id); }
    assert Deliberated(e, w, id, scan, dt) == w1;
    CoolKeeps(w, id, dt);
    KeepsWellFormed(w, w1);
    UnitFacts(w1, id);
    DecideLawful(e, w1, u, dt);
    var r := Decide(e, w1, u, dt);
    if r.React? { FeasibleIfLawful(w1, u, r.outcome); }
    TurnIs(e, w, id, scan, dt);
    hide Turn;
  }

  lemma FeasibleIfLawful(w: World, u: Unit, o: Outcome)
    requires Lawful(w, u, o)
    ensures Feasible(w, o) && o.unit.id == u.id
  {}

  // ---- idle and walking units ----

  /** A unit with nothing to do does nothing. */
  lemma IdleRests(e: Env, w: World, id: Id, scan: bool, dt: real)
    requires WellFormed(w) && Does(w, id, NoTask) && !w.units[id].hasTarget && dt >= 0.0 && Peaceful(e, w, id, scan)
    ensures Turn(e, w, id, scan, dt) == w.(units := w.units[id := Ready(w.units[id], dt)])
  {
    hide WellFormed, Turn, Peaceful, CooldownLeft;
    PeacefulTurn(e, w, id, scan, dt);
  }

  /** A unit on its way is not distracted, and gets on by its stride as WalkProgress says. */
  lemma WalkerWalks(e: Env, w: World, id: Id, scan: bool, dt: real)
    requires WellFormed(w) && IsNorm(e.len) && Does(w, id, NoTask) && w.units[id].hasTarget
    requires dt >= 0.0 && Stride(w.units[id], dt) >= 0.0
    ensures var u, v := w.units[id], Turn(e, w, id, scan, dt);
            && id in v.units && ActsAlone(w, v, id, v.units[id])
            && Progress(e, Ready(u, dt), v.units[id], Stride(u, dt))
  {
    hide WellFormed, IsNorm, Turn, CooldownLeft, Walk, Commit, Progress, ActsAlone, UnitOk;
    assert Peaceful(e, w, id, scan);
    hide Peaceful;
    PeacefulTurn(e, w, id, scan, dt);
    var u := Ready(w.units[id], dt);
    UnitFacts(w, id);
    ReadyOk(w.units[id], dt);
    StrideSame(w.units[id], u, dt);
    hide Stride;
    WalkProgress(e, u, Stride(u, dt));
    var o := Outcome(Walk(e, u, Stride(u, dt)), NoEffect);
    var w1 := w.(units := w.units[id := u]);
    WalkLawful(e, u, Stride(u, dt));
    CommitAlone(w1, o, id);
    ReadyAlone(w, Commit(w1, o), id, o.unit, u);
    AloneOwn(w, Commit(w1, o), id, o.unit);
    hide Ready;
  }

  lemma ReadyOk(u: Unit, dt: real)
    requires UnitOk(u)
    ensures UnitOk(Ready(u, dt)) && Ready(u, dt).id == u.id
  {}

  // ---- going to the place of work ----

  /** A worker on its way to p: nearer by its stride, the rest of the room untouched. */
  ghost predicate Approaches(e: Env, w: World, v: World, id: Id, p: Vec3, dt: real, u: Unit)
    requires id in w.units
  {
    && id in v.units && ActsAlone(w, v, id, v.units[id])
    && v.units[id] == Ready(u, dt).(state := Moving, pos := v.units[id].pos, yaw := e.atan2(Toward(u.pos, p)))
    && Gap(e, v.units[id].pos, p) == Abs(Gap(e, u.pos, p) - Stride(u, dt))
  }

  lemma StepIs(e: Env, u: Unit, p: Vec3, dt: real)
    requires IsNorm(e.len) && Stride(u, dt) > 0.0 && Gap(e, u.pos, p) > 0.15
    ensures var (v, arrived) := MoveToward(e, u, p, ARRIVE_RADIUS, dt);
            && !arrived && v == u.(pos := v.pos, yaw := e.atan2(Toward(u.pos, p)))
            && Gap(e, v.pos, p) == Abs(Gap(e, u.pos, p) - Stride(u, dt))
  {
    MoveGap(e, u, p, ARRIVE_RADIUS, dt);
    hide IsNorm;
  }

  lemma ArrivedIs(e: Env, u: Unit, p: Vec3, dt: real)
    requires Gap(e, u.pos, p) <= 0.15
    ensures MoveToward(e, u, p, ARRIVE_RADIUS, dt) == (u, true)
  {}

  /** A decision without effect changes the unit alone. */
  lemma DecidedAlone(e: Env, w: World, v: World, id: Id, dt: real, u: Unit)
    requires WellFormed(w) && id in w.units && Decided(e, w, v, id, dt) && u.id == id
    requires var r := Ready(w.units[id], dt);
             Decide(e, w.(units := w.units[id := r]), r, dt) == React(Outcome(u, NoEffect))
    ensures ActsAlone(w, v, id, u) && id in v.units && v.units[id] == u
  {
    hide WellFormed, Decide, Commit, Ready, ActsAlone;
    var r := Ready(w.units[id], dt);
    var w1 := w.(units := w.units[id := r]);
    CommitAlone(w1, Outcome(u, NoEffect), id);
    ReadyAlone(w, v, id, u, r);
    AloneOwn(w, v, id, u);
  }

  // ---- gathering ----

  /** The least of three. */
  function Least(a: int, b: int, c: int): int {
    if a <= b && a <= c then a else if b <= c then b else c
  }

  /** Harvesting takes one for each full second of work, as long as load and field allow. */
  lemma {:induction false} YieldIs(workCd: real, carried: nat, left: nat)
    requires workCd >= 0.0 && carried <= 10
    ensures Yield(workCd, carried, left) == Least(workCd.Floor, 10 - carried, left)
    decreases left
  {
    if workCd >= HARVEST_INTERVAL && carried < CARRY_CAPACITY && left > 0 {
      YieldIs(workCd - HARVEST_INTERVAL, carried + 1, left - 1);
      assert (workCd - 1.0).Floor == workCd.Floor - 1;
    }
  }

  /** The unit lifts its load, facing p, for 2.2 seconds. */
  function Lifting(e: Env, u: Unit, p: Vec3): Unit {
    u.(task := PreparingReturn, target := p, hasTarget := false, workCd := 2.2, state := Working,
       yaw := if Gap(e, u.pos, p) > 0.01 then e.atan2(Toward(u.pos, p)) else u.yaw)
  }

  lemma LiftingIs(e: Env, u: Unit, p: Vec3)
    ensures ToPreparing(e, u, p) == Lifting(e, u, p)
  {}

  /** n less in field f; an empty field is gone. */
  ghost predicate Mined(w: World, v: World, id: Id, u: Unit, f: Id, n: nat)
    requires f in w.fields
  {
    var field := w.fields[f];
    && v == w.(units := w.units[id := u], fields := v.fields, marks := v.marks)
    && n <= field.amount
    && (if n < field.amount then
          && v.fields == w.fields[f := field.(amount := field.amount - n)]
          && v.marks == w.marks.(dirty := w.marks.dirty + {id}, fieldDirty := w.marks.fieldDirty + {f})
        else
          && v.fields == w.fields - {f}
          && v.marks == w.marks.(dirty := w.marks.dirty + {id}, fieldDirty := w.marks.fieldDirty + {f},
                                 fieldDespawned := w.marks.fieldDespawned + [f]))
  }

  lemma CommitMines(w: World, o: Outcome, id: Id, f: Id, n: nat)
    requires id in w.units && o.unit.id == id && o.effect == Mine(f, n) && Feasible(w, o)
    ensures Mined(w, Commit(w, o), id, o.unit, f, n)
  {
    assert w.marks.fieldDespawned + [] == w.marks.fieldDespawned;
  }

  lemma ReadyMined(w: World, v: World, id: Id, u: Unit, r: Unit, f: Id, n: nat)
    requires id in w.units && f in w.fields && Mined(w.(units := w.units[id := r]), v, id, u, f, n)
    ensures Mined(w, v, id, u, f, n)
  {
    assert w.units[id := r][id := u] == w.units[id := u];
  }

  /** The worker after a frame at the field: n more of the field's kind; lifting if the field or the load is full. */
  function Harvester(e: Env, u: Unit, field: Field, dt: real, n: nat): Unit {
    var faced := u.(target := field.pos, state := Working, carriedRaw := field.raw, carried := u.carried + n,
                    workCd := u.workCd + dt - n as real,
                    yaw := if Gap(e, u.pos, field.pos) > 0.01 then e.atan2(Toward(u.pos, field.pos)) else u.yaw);
    if u.carried + n >= 10 || (n >= field.amount && u.carried + n > 0) then Lifting(e, faced, field.pos) else faced
  }

  lemma HarvestedIs(e: Env, u: Unit, field: Field, dt: real)
    requires u.workCd >= 0.0 && dt >= 0.0 && u.carried <= 10
    ensures var n := Least((u.workCd + dt).Floor, 10 - u.carried, field.amount);
            && n >= 0 && Yield(u.workCd + dt, u.carried, field.amount) == n
            && Harvested(e, u.(target := field.pos), field, dt) == Harvester(e, u, field, dt, n)
  {
    YieldIs(u.workCd + dt, u.carried, field.amount);
    hide Yield;
    var n := Least((u.workCd + dt).Floor, 10 - u.carried, field.amount);
    var v := Face(e, u.(target := field.pos), field.pos)
             .(state := Working, carriedRaw := field.raw, carried := u.carried + n,
               workCd := u.workCd + dt - n as real * HARVEST_INTERVAL);
    assert n as real * HARVEST_INTERVAL == n as real;
    LiftingIs(e, v, field.pos);
  }

  /**
   A frame at the field: the worker has taken one for each full second it has worked, at most up to ten in
   all and to what is left; the field has that much less, and is gone if nothing is left. With a full load,
   or when the field is gone, it begins to lift; nothing else in the room changes.
   */
  lemma WorkerHarvests(e: Env, w: World, id: Id, scan: bool, dt: real, f: Id)
    requires WellFormed(w) && Does(w, id, Gathering) && Peaceful(e, w, id, scan) && dt >= 0.0
    requires f == w.units[id].gatherField && f in w.fields && w.fields[f].amount > 0
    requires w.units[id].carried < 10 && w.units[id].workCd >= 0.0
    requires Gap(e, w.units[id].pos, Shift(w.fields[f].pos, w.units[id].slot)) <= 0.15
    ensures var u, field := Ready(w.units[id], dt), w.fields[f];
            var n := Least((u.workCd + dt).Floor, 10 - u.carried, field.amount);
            n >= 0 && Mined(w, Turn(e, w, id, scan, dt), id, Harvester(e, u, field, dt, n), f, n)
  {
    hide WellFormed, Turn, Commit, Peaceful, Yield, Harvested, Harvester, Gap, Mined, CooldownLeft, MoveToward;
    PeacefulTurn(e, w, id, scan, dt);
    var u, field := Ready(w.units[id], dt), w.fields[f];
    var w1 := w.(units := w.units[id := u]);
    UnitFacts(w, id);
    ArrivedIs(e, u.(target := field.pos), Shift(field.pos, u.slot), dt);
    HarvestedIs(e, u, field, dt);
    var n := Least((u.workCd + dt).Floor, 10 - u.carried, field.amount);
    var o := Outcome(Harvester(e, u, field, dt, n), Mine(f, n));
    assert Decide(e, w1, u, dt) == React(o);
    HarvesterId(e, u, field, dt, n);
    CommitMines(w1, o, id, f, n);
    ReadyMined(w, Commit(w1, o), id, o.unit, u, f, n);
  }

  lemma HarvesterId(e: Env, u: Unit, field: Field, dt: real, n: nat)
    ensures Harvester(e, u, field, dt, n).id == u.id
  {}

  /** On the way to the field. */
  lemma WorkerGoesToField(e: Env, w: World, id: Id, scan: bool, dt: real, f: Id)
    requires WellFormed(w) && IsNorm(e.len) && Does(w, id, Gathering) && Peaceful(e, w, id, scan) && dt >= 0.0
    requires f == w.units[id].gatherField && f in w.fields && w.fields[f].amount > 0 && w.units[id].carried < 10
    requires Stride(w.units[id], dt) > 0.0
    requires Gap(e, w.units[id].pos, Shift(w.fields[f].pos, w.units[id].slot)) > 0.15
    ensures var u, p := w.units[id].(target := w.fields[f].pos), Shift(w.fields[f].pos, w.units[id].slot);
            Approaches(e, w, Turn(e, w, id, scan, dt), id, p, dt, u)
  {
    hide WellFormed, IsNorm, Turn, Commit, Peaceful, Harvested, Gap, CooldownLeft, MoveToward, ActsAlone, Decided;
    PeacefulTurn(e, w, id, scan, dt);
    var u, field := Ready(w.units[id], dt), w.fields[f];
    var w1, p := w.(units := w.units[id := u]), Shift(field.pos, u.slot);
    UnitFacts(w, id);
    var aimed := u.(target := field.pos);
    StrideSame(w.units[id], aimed, dt);
    StrideSame(w.units[id], w.units[id].(target := field.pos), dt);
    hide Stride;
    StepIs(e, aimed, p, dt);
    var x := MoveToward(e, aimed, p, ARRIVE_RADIUS, dt).0.(state := Moving);
    assert Decide(e, w1, u, dt) == React(Outcome(x, NoEffect));
    DecidedAlone(e, w, Turn(e, w, id, scan, dt), id, dt, x);
  }

  /** With a full load, or a load and no field left, it begins to lift; with neither it is idle and free. */
  lemma WorkerStopsGathering(e: Env, w: World, id: Id, scan: bool, dt: real)
    requires WellFormed(w) && Does(w, id, Gathering) && Peaceful(e, w, id, scan) && dt >= 0.0
    requires var u := w.units[id];
             u.carried >= 10 || u.gatherField !in w.fields || w.fields[u.gatherField].amount == 0
    ensures var u := Ready(w.units[id], dt);
            var p := if u.carried >= 10 && u.gatherField in w.fields then w.fields[u.gatherField].pos else u.target;
            ActsAlone(w, Turn(e, w, id, scan, dt), id,
                      if u.carried > 0 then Lifting(e, u, p) else Released(u).(state := Idle))
  {
    hide WellFormed, Turn, Commit, Peaceful, Harvested, Gap, CooldownLeft, MoveToward, ActsAlone, Decided;
    PeacefulTurn(e, w, id, scan, dt);
    var u := Ready(w.units[id], dt);
    var w1 := w.(units := w.units[id := u]);
    UnitFacts(w, id);
    var p := if u.carried >= 10 && u.gatherField in w.fields then w.fields[u.gatherField].pos else u.target;
    var x := if u.carried > 0 then Lifting(e, u, p) else Released(u).(state := Idle);
    LiftingIs(e, u, p);
    assert UnitOk(u);
    assert Idled(u) == Released(u).(state := Idle);
    assert Decide(e, w1, u, dt) == React(Outcome(x, NoEffect));
    DecidedAlone(e, w, Turn(e, w, id, scan, dt), id, dt, x);
  }

  // ---- lifting ----

  /** Lifting goes on until its time is up; then the worker returns. */
  lemma WorkerLifts(e: Env, w: World, id: Id, scan: bool, dt: real)
    requires WellFormed(w) && Does(w, id, PreparingReturn) && Peaceful(e, w, id, scan) && dt >= 0.0
    ensures var u := Ready(w.units[id], dt);
            var faced := u.(state := Working, workCd := u.workCd - dt,
                            yaw := if Gap(e, u.pos, u.target) > 0.01 then e.atan2(Toward(u.pos, u.target)) else u.yaw);
            ActsAlone(w, Turn(e, w, id, scan, dt), id,
                      if u.workCd > dt then faced else faced.(task := Returning, workCd := 0.0, state := Moving))
  {
    hide WellFormed, Turn, Commit, Peaceful, CooldownLeft, ActsAlone, Decided;
    PeacefulTurn(e, w, id, scan, dt);
    var u := Ready(w.units[id], dt);
    var w1 := w.(units := w.units[id := u]);
    UnitFacts(w, id);
    var x := DecidePreparing(e, u, dt).unit;
    assert Decide(e, w1, u, dt) == React(Outcome(x, NoEffect));
    DecidedAlone(e, w, Turn(e, w, id, scan, dt), id, dt, x);
  }

  /**
   Each tick of lifting is one of those the time left amounts to, and after the last of them, no sooner and
   no later, the worker returns. A load is lifted for forty-four ticks.
   */
  lemma LiftCounts(e: Env, w: World, id: Id, scan: bool)
    requires WellFormed(w) && Does(w, id, PreparingReturn) && Peaceful(e, w, id, scan)
    ensures var u, v := w.units[id], Turn(e, w, id, scan, TICK_SECONDS);
            && id in v.units
            && (if TicksIn(u.workCd) == 1 then v.units[id].task == Returning
                else v.units[id].task == PreparingReturn && TicksIn(v.units[id].workCd) == TicksIn(u.workCd) - 1)
    ensures TicksIn(2.2) == 44
  {
    hide WellFormed, Turn, Peaceful, Gap;
    WorkerLifts(e, w, id, scan, TICK_SECONDS);
    TicksInStep(w.units[id].workCd);
    TicksInSteps(44);
  }

  // ---- returning ----

  /** Back to work at the field it came from, if that is still there; otherwise idle and free. */
  function GoesOn(w: World, u: Unit): Unit {
    if u.gatherField != 0 && u.gatherField in w.fields then u.(task := Gathering, state := Moving)
    else Released(u).(state := Idle)
  }

  lemma ResumeIs(w: World, u: Unit)
    requires UnitOk(u) && u.task == Returning
    ensures Resume(w, u) == GoesOn(w, u)
  {}

  /** A worker that is to return without a load goes back to work. */
  lemma EmptyHanded(e: Env, w: World, id: Id, scan: bool, dt: real)
    requires WellFormed(w) && Does(w, id, Returning) && Peaceful(e, w, id, scan) && dt >= 0.0
    requires w.units[id].carried == 0
    ensures ActsAlone(w, Turn(e, w, id, scan, dt), id, GoesOn(w, Ready(w.units[id], dt)))
  {
    hide WellFormed, Turn, Commit, Peaceful, CooldownLeft, ActsAlone, Decided, Resume, GoesOn;
    PeacefulTurn(e, w, id, scan, dt);
    var u := Ready(w.units[id], dt);
    var w1 := w.(units := w.units[id := u]);
    UnitFacts(w, id);
    ResumeIs(w1, u);
    SameFieldsGoOn(w, w1, u);
    assert Decide(e, w1, u, dt) == React(Outcome(GoesOn(w, u), NoEffect));
    DecidedAlone(e, w, Turn(e, w, id, scan, dt), id, dt, GoesOn(w, u));
  }

  lemma SameFieldsGoOn(w: World, v: World, u: Unit)
    requires v.fields == w.fields
    ensures GoesOn(v, u) == GoesOn(w, u) && GoesOn(w, u).id == u.id && GoesOn(w, u).owner == u.owner
  {}

  /** Where the worker can pay in: the building it is bound to, while it stands and is its team's, else the nearest. */
  ghost predicate PaysInAt(e: Env, w: World, u: Unit, camp: Id) {
    if u.dropoff != 0 && u.dropoff in w.buildings && !w.buildings[u.dropoff].underConstruction
       && w.buildings[u.dropoff].team == u.team
    then camp == u.dropoff
    else if camp == 0 then forall k :: !Sight.Dropoff(w, u.team, k)
    else Sight.FirstNearestDropoff(e, w, u.team, u.pos, e.enum(w.buildings.Keys), camp)
         && forall k | Sight.Dropoff(w, u.team, k) ::
              Gap(e, u.pos, w.buildings[camp].pos) <= Gap(e, u.pos, w.buildings[k].pos)
  }

  lemma ChosenPaysIn(e: Env, w: World, u: Unit)
    requires Enumerates(e.enum) && WellFormed(w)
    ensures PaysInAt(e, w, u, ChosenDropoff(e, w, u))
    ensures ChosenDropoff(e, w, u) != 0 ==> ChosenDropoff(e, w, u) in w.buildings
  {
    hide NearestDropoff, Gap, Enumerates, Sight.FirstNearestDropoff, Sight.Dropoff;
    Sight.NoZero(w);
    Sight.NearestDropoffIsNearest(e, w, u.team, u.pos);
    hide WellFormed;
  }

  lemma ReadyCamp(e: Env, w: World, id: Id, dt: real)
    requires id in w.units
    ensures var u := Ready(w.units[id], dt);
            ChosenDropoff(e, w.(units := w.units[id := u]), u) == ChosenDropoff(e, w, w.units[id])
  {
    hide CooldownLeft;
    var u := Ready(w.units[id], dt);
    WorkerLiveness.SameDropoffs(e, w.(units := w.units[id := u]), w, u.team, u.pos, e.enum(w.buildings.Keys));
  }

  /** A loaded worker with nowhere to pay in stands idle and keeps its load. */
  lemma NowhereToPayIn(e: Env, w: World, id: Id, scan: bool, dt: real)
    requires WellFormed(w) && Does(w, id, Returning) && Peaceful(e, w, id, scan) && dt >= 0.0
    requires Enumerates(e.enum) && w.units[id].carried > 0 && PaysInAt(e, w, w.units[id], 0)
    ensures ActsAlone(w, Turn(e, w, id, scan, dt), id, Ready(w.units[id], dt).(state := Idle))
  {
    hide WellFormed, Turn, Commit, Peaceful, CooldownLeft, ActsAlone, Decided, ChosenDropoff, Enumerates;
    PeacefulTurn(e, w, id, scan, dt);
    var u := Ready(w.units[id], dt);
    var w1 := w.(units := w.units[id := u]);
    UnitFacts(w, id);
    ChosenPaysIn(e, w, w.units[id]);
    Sight.NoZero(w);
    PlaceIsOne(e, w, w.units[id], 0, ChosenDropoff(e, w, w.units[id]));
    ReadyCamp(e, w, id, dt);
    hide PaysInAt;
    assert Decide(e, w1, u, dt) == React(Outcome(u.(state := Idle), NoEffect));
    DecidedAlone(e, w, Turn(e, w, id, scan, dt), id, dt, u.(state := Idle));
  }

  /** There is no choice of where to pay in. */
  lemma PlaceIsOne(e: Env, w: World, u: Unit, a: Id, b: Id)
    requires PaysInAt(e, w, u, a) && PaysInAt(e, w, u, b) && 0 !in w.buildings
    ensures a == b
  {
    hide Gap;
  }

  /** A loaded worker on its way to where it pays in. */
  lemma WorkerReturns(e: Env, w: World, id: Id, scan: bool, dt: real, camp: Id)
    requires WellFormed(w) && IsNorm(e.len) && Does(w, id, Returning) && Peaceful(e, w, id, scan) && dt >= 0.0
    requires Enumerates(e.enum) && w.units[id].carried > 0 && Stride(w.units[id], dt) > 0.0
    requires camp in w.buildings && PaysInAt(e, w, w.units[id], camp)
    requires Gap(e, w.units[id].pos, Shift(w.buildings[camp].pos, w.units[id].slot)) > 0.15
    ensures var u, p := w.units[id].(dropoff := camp), Shift(w.buildings[camp].pos, w.units[id].slot);
            Approaches(e, w, Turn(e, w, id, scan, dt), id, p, dt, u)
  {
    hide WellFormed, IsNorm, Turn, Commit, Peaceful, Gap, CooldownLeft, MoveToward, ActsAlone, Decided, ChosenDropoff,
         Enumerates, PaysInAt;
    PeacefulTurn(e, w, id, scan, dt);
    var u := Ready(w.units[id], dt);
    var w1, p := w.(units := w.units[id := u]), Shift(w.buildings[camp].pos, u.slot);
    UnitFacts(w, id);
    ChosenIs(e, w, id, dt, camp);
    var bound := u.(dropoff := camp);
    StrideSame(w.units[id], bound, dt);
    StrideSame(w.units[id], w.units[id].(dropoff := camp), dt);
    hide Stride;
    StepIs(e, bound, p, dt);
    var x := MoveToward(e, bound, p, ARRIVE_RADIUS, dt).0.(state := Moving);
    assert Decide(e, w1, u, dt) == React(Outcome(x, NoEffect));
    DecidedAlone(e, w, Turn(e, w, id, scan, dt), id, dt, x);
  }

  lemma ChosenIs(e: Env, w: World, id: Id, dt: real, camp: Id)
    requires WellFormed(w) && id in w.units && Enumerates(e.enum) && PaysInAt(e, w, w.units[id], camp)
    ensures var u := Ready(w.units[id], dt);
            ChosenDropoff(e, w.(units := w.units[id := u]), u) == camp
    ensures camp in w.buildings ==> camp != 0
  {
    hide WellFormed, PaysInAt, ChosenDropoff, Enumerates, Ready;
    ChosenPaysIn(e, w, w.units[id]);
    Sight.NoZero(w);
    PlaceIsOne(e, w, w.units[id], camp, ChosenDropoff(e, w, w.units[id]));
    ReadyCamp(e, w, id, dt);
  }

  /** What n of a raw resource are in a ledger: berries and crops are food, then wood and gold. */
  function PaidIn(l: Ledger, raw: nat, n: nat): Ledger {
    if raw == 0 || raw == 3 then l.(food := l.food + n)
    else if raw == 1 then l.(gold := l.gold + n)
    else if raw == 2 then l.(wood := l.wood + n)
    else l
  }

  lemma AddIs(l: Ledger, raw: nat, n: nat)
    requires l.food + n < U32 && l.wood + n < U32 && l.gold + n < U32
    ensures l.Add(ResourceOf(raw), n) == PaidIn(l, raw, n)
  {}

  /** The load is in its owner's ledger; nothing but the unit, the ledger and their marks has changed. */
  ghost predicate PaidFor(w: World, v: World, id: Id, u: Unit, raw: nat, n: nat) {
    && v == w.(units := w.units[id := u], ledgers := v.ledgers, marks := v.marks, audit := v.audit)
    && (if u.owner in w.ledgers then
          && v.ledgers == w.ledgers[u.owner := PaidIn(w.ledgers[u.owner], raw, n)]
          && v.marks == w.marks.(dirty := w.marks.dirty + {id}, ledgerDirty := w.marks.ledgerDirty + {u.owner})
        else v.ledgers == w.ledgers && v.marks == w.marks.(dirty := w.marks.dirty + {id}))
  }

  lemma CommitPays(w: World, o: Outcome, id: Id, raw: nat, n: nat)
    requires id in w.units && o.unit.id == id && o.effect == Deposit(raw, n)
    requires forall u | u in w.ledgers ::
               w.ledgers[u].food + n < U32 && w.ledgers[u].wood + n < U32 && w.ledgers[u].gold + n < U32
    ensures PaidFor(w, Commit(w, o), id, o.unit, raw, n)
  {
    if o.unit.owner in w.ledgers { AddIs(w.ledgers[o.unit.owner], raw, n); }
    assert w.marks.ledgerDirty + {} == w.marks.ledgerDirty;
    hide PaidIn, Ledger.Add, ResourceOf, Audit.Forfeit;
  }

  lemma ReadyPaid(w: World, v: World, id: Id, u: Unit, r: Unit, raw: nat, n: nat)
    requires id in w.units && PaidFor(w.(units := w.units[id := r]), v, id, u, raw, n)
    ensures PaidFor(w, v, id, u, raw, n)
  {
    assert w.units[id := r][id := u] == w.units[id := u];
    hide PaidIn;
  }

  /** At the place the whole load is paid in, as what it is, and the worker goes on at its field. */
  lemma WorkerPaysIn(e: Env, w: World, id: Id, scan: bool, dt: real, camp: Id)
    requires WellFormed(w) && Does(w, id, Returning) && Peaceful(e, w, id, scan) && dt >= 0.0
    requires Enumerates(e.enum) && w.units[id].carried > 0
    requires camp in w.buildings && PaysInAt(e, w, w.units[id], camp)
    requires Gap(e, w.units[id].pos, Shift(w.buildings[camp].pos, w.units[id].slot)) <= 0.15
    requires forall u | u in w.ledgers ::
               w.ledgers[u].food + 10 < U32 && w.ledgers[u].wood + 10 < U32 && w.ledgers[u].gold + 10 < U32
    ensures var u := Ready(w.units[id], dt);
            PaidFor(w, Turn(e, w, id, scan, dt), id, GoesOn(w, u.(dropoff := camp, carried := 0)),
                    u.carriedRaw, u.carried)
  {
    hide WellFormed, Turn, Commit, Peaceful, Gap, CooldownLeft, MoveToward, PaidFor, ChosenDropoff, Enumerates,
         PaysInAt, Resume, GoesOn;
    PeacefulTurn(e, w, id, scan, dt);
    var u := Ready(w.units[id], dt);
    var w1, p := w.(units := w.units[id := u]), Shift(w.buildings[camp].pos, u.slot);
    UnitFacts(w, id);
    ReadyOk(w.units[id], dt);
    LoadBound(u);
    ChosenIs(e, w, id, dt, camp);
    var bound := u.(dropoff := camp);
    ArrivedIs(e, bound, p, dt);
    var x := bound.(carried := 0);
    ReturningOk(u, x);
    ResumeIs(w1, x);
    SameFieldsGoOn(w, w1, x);
    hide UnitOk;
    var o := Outcome(GoesOn(w, x), Deposit(u.carriedRaw, u.carried));
    assert Decide(e, w1, u, dt) == React(o);
    CommitPays(w1, o, id, u.carriedRaw, u.carried);
    ReadyPaid(w, Commit(w1, o), id, o.unit, u, u.carriedRaw, u.carried);
  }

  lemma LoadBound(u: Unit)
    requires UnitOk(u)
    ensures u.carried <= 10
  {}

  // ---- picking up ----

  /** n less in drop d; an empty drop is gone. */
  ghost predicate PickedUp(w: World, v: World, id: Id, u: Unit, d: Id, n: nat)
    requires d in w.drops
  {
    var drop := w.drops[d];
    && v == w.(units := w.units[id := u], drops := v.drops, marks := v.marks)
    && n <= drop.amount
    && (if n < drop.amount then
          && v.drops == w.drops[d := drop.(amount := drop.amount - n)]
          && v.marks == w.marks.(dirty := w.marks.dirty + {id})
        else
          && v.drops == w.drops - {d}
          && v.marks == w.marks.(dirty := w.marks.dirty + {id}, dropDespawned := w.marks.dropDespawned + [d]))
  }

  lemma CommitPicksUp(w: World, o: Outcome, id: Id, d: Id, n: nat)
    requires id in w.units && o.unit.id == id && o.effect == Take(d, n) && Feasible(w, o)
    ensures PickedUp(w, Commit(w, o), id, o.unit, d, n)
  {
    assert w.marks.dropDespawned + [] == w.marks.dropDespawned;
  }

  lemma ReadyPickedUp(w: World, v: World, id: Id, u: Unit, r: Unit, d: Id, n: nat)
    requires id in w.units && d in w.drops && PickedUp(w.(units := w.units[id := r]), v, id, u, d, n)
    ensures PickedUp(w, v, id, u, d, n)
  {
    assert w.units[id := r][id := u] == w.units[id := u];
  }

  /** At a drop the worker takes all of it, or as much as makes ten, as what it is, and returns. */
  lemma WorkerPicksUp(e: Env, w: World, id: Id, scan: bool, dt: real, d: Id)
    requires WellFormed(w) && Does(w, id, Pickup) && Peaceful(e, w, id, scan) && dt >= 0.0
    requires d == w.units[id].pickupDrop && d in w.drops
    requires Gap(e, w.units[id].pos, Shift(w.drops[d].pos, w.units[id].slot)) <= 0.15
    ensures var u, drop := Ready(w.units[id], dt), w.drops[d];
            var n := if drop.amount <= 10 - u.carried then drop.amount else 10 - u.carried;
            n >= 0
            && PickedUp(w, Turn(e, w, id, scan, dt), id,
                        u.(carriedRaw := drop.raw, carried := u.carried + n, task := Returning, workCd := 0.0,
                           state := Moving), d, n)
  {
    hide WellFormed, Turn, Commit, Peaceful, Gap, CooldownLeft, MoveToward, PickedUp;
    PeacefulTurn(e, w, id, scan, dt);
    var u, drop := Ready(w.units[id], dt), w.drops[d];
    var w1 := w.(units := w.units[id := u]);
    UnitFacts(w, id);
    LoadBound(w.units[id]);
    ArrivedIs(e, u, Shift(drop.pos, u.slot), dt);
    var n := if drop.amount <= 10 - u.carried then drop.amount else 10 - u.carried;
    SpaceIs(u.carried, drop.amount);
    hide Sub32, Min;
    var o := Outcome(u.(carriedRaw := drop.raw, carried := u.carried + n, task := Returning, workCd := 0.0,
                        state := Moving), Take(d, n));
    assert Decide(e, w1, u, dt) == React(o);
    CommitPicksUp(w1, o, id, d, n);
    ReadyPickedUp(w, Commit(w1, o), id, o.unit, u, d, n);
  }

  lemma SpaceIs(carried: nat, amount: nat)
    requires carried <= 10
    ensures Min(Sub32(CARRY_CAPACITY, carried), amount) == if amount <= 10 - carried then amount else 10 - carried
  {}

  /** On the way to the drop. */
  lemma WorkerGoesToDrop(e: Env, w: World, id: Id, scan: bool, dt: real, d: Id)
    requires WellFormed(w) && IsNorm(e.len) && Does(w, id, Pickup) && Peaceful(e, w, id, scan) && dt >= 0.0
    requires d == w.units[id].pickupDrop && d in w.drops && Stride(w.units[id], dt) > 0.0
    requires Gap(e, w.units[id].pos, Shift(w.drops[d].pos, w.units[id].slot)) > 0.15
    ensures Approaches(e, w, Turn(e, w, id, scan, dt), id, Shift(w.drops[d].pos, w.units[id].slot), dt, w.units[id])
  {
    hide WellFormed, IsNorm, Turn, Commit, Peaceful, Gap, CooldownLeft, MoveToward, ActsAlone, Decided;
    PeacefulTurn(e, w, id, scan, dt);
    var u := Ready(w.units[id], dt);
    var w1, p := w.(units := w.units[id := u]), Shift(w.drops[d].pos, u.slot);
    UnitFacts(w, id);
    StrideSame(w.units[id], u, dt);
    hide Stride;
    StepIs(e, u, p, dt);
    var x := MoveToward(e, u, p, ARRIVE_RADIUS, dt).0.(state := Moving);
    assert Decide(e, w1, u, dt) == React(Outcome(x, NoEffect));
    DecidedAlone(e, w, Turn(e, w, id, scan, dt), id, dt, x);
  }

  /** If the drop is gone, a loaded worker returns and an empty one is idle and free. */
  lemma DropIsGone(e: Env, w: World, id: Id, scan: bool, dt: real)
    requires WellFormed(w) && Does(w, id, Pickup) && Peaceful(e, w, id, scan) && dt >= 0.0
    requires w.units[id].pickupDrop !in w.drops
    ensures var u := Ready(w.units[id], dt);
            ActsAlone(w, Turn(e, w, id, scan, dt), id,
                      if u.carried > 0 then u.(task := Returning, workCd := 0.0, state := Moving)
                      else Released(u).(state := Idle))
  {
    hide WellFormed, Turn, Commit, Peaceful, CooldownLeft, ActsAlone, Decided;
    PeacefulTurn(e, w, id, scan, dt);
    var u := Ready(w.units[id], dt);
    var w1 := w.(units := w.units[id := u]);
    UnitFacts(w, id);
    var x := if u.carried > 0 then u.(task := Returning, workCd := 0.0, state := Moving)
             else Released(u).(state := Idle);
    assert UnitOk(u);
    assert Idled(u) == Released(u).(state := Idle);
    assert Decide(e, w1, u, dt) == React(Outcome(x, NoEffect));
    DecidedAlone(e, w, Turn(e, w, id, scan, dt), id, dt, x);
  }
}
