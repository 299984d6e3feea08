/**
 One tick from the point of view of one unit: apart from its own turn, all that the rest of a tick
 (other players' commands, other units, training, the sweep of the dead) can do to it is damage.
 */
module Bystanders {
  import opened Entities
  import opened Simulation
  import opened Laws
  import opened Evolution
  import opened Replication
  import opened Commands

  /** The same record but for hit points, which did not go up. */
  ghost predicate Spared(u: Unit, v: Unit) { v == u.(hp := v.hp) && v.hp <= u.hp }

  lemma CommitSpares(w: World, o: Outcome, id: Id)
    requires Feasible(w, o) && HitsTheLiving(w, o) && id in w.units && id != o.unit.id
    ensures id in Commit(w, o).units && Spared(w.units[id], Commit(w, o).units[id])
  {
    if o.effect != HitUnit(id) {
      hide Commit;
      CommitLeaves(w, o, id);
    } else {
      assert Commit(w, o) == HurtUnit(Touch(w, o.unit.id, o.unit), id);
      hide Commit;
      assert w.units[id].hp > 0.0;
    }
  }

  lemma LawfulHits(w: World, u: Unit, o: Outcome)
    requires Lawful(w, u, o) && UnitOk(u)
    ensures HitsTheLiving(w, o) && o.unit.id == u.id
  {}

  lemma SettleSpares(w: World, k: Id, r: Reaction, id: Id)
    requires WellFormed(w) && k in w.units && id in w.units && id != k
    requires r.React? ==> Lawful(w, w.units[k], r.outcome)
    ensures id in Settle(w, r).units && Spared(w.units[id], Settle(w, r).units[id])
  {
    hide WellFormed, Lawful, UnitOk, Commit, HitsTheLiving;
    UnitFacts(w, k);
    if r.React? {
      LawfulHits(w, w.units[k], r.outcome);
      if Feasible(w, r.outcome) { CommitSpares(w, r.outcome, id); }
    }
  }

  lemma TurnSpares(e: Env, w: World, k: Id, scan: bool, dt: real, id: Id)
    requires WellFormed(w) && id in w.units && id != k
    ensures id in Turn(e, w, k, scan, dt).units && Spared(w.units[id], Turn(e, w, k, scan, dt).units[id])
  {
    hide WellFormed, Evolves, Lawful, UnitOk, Alert, Decide, Settle, Keeps;
    if k in w.units && w.units[k].hp > 0.0 {
      var w1 := Cool(w, k, dt);
      CoolKeeps(w, k, dt);
      KeepsWellFormed(w, w1);
      UnitFacts(w1, k);
      AlertLawful(e, w1, w1.units[k]);
      SettleSpares(w1, k, Alert(e, w1, w1.units[k]), id);
      AlertKeeps(e, w1, k);
      var w2 := if scan then Settle(w1, Alert(e, w1, w1.units[k])) else w1;
      KeepsWellFormed(w1, Settle(w1, Alert(e, w1, w1.units[k])));
      UnitFacts(w2, k);
      DecideLawful(e, w2, w2.units[k], dt);
      SettleSpares(w2, k, Decide(e, w2, w2.units[k], dt), id);
    }
  }

  lemma KeepsWellFormed(a: World, b: World)
    requires Keeps(a, b)
    ensures WellFormed(b)
  {}

  lemma {:induction false} TurnsSpare(e: Env, w: World, ids: seq<Id>, scan: bool, dt: real, id: Id)
    requires WellFormed(w) && id in w.units && id !in ids
    ensures id in Turns(e, w, ids, scan, dt).units && Spared(w.units[id], Turns(e, w, ids, scan, dt).units[id])
  {
    hide WellFormed, Evolves, Turn;
    if ids != [] {
      var rest := ids[..|ids| - 1];
      TurnsSpare(e, w, rest, scan, dt, id);
      TurnsKeeps(e, w, rest, scan, dt);
      TurnSpares(e, Turns(e, w, rest, scan, dt), ids[|ids| - 1], scan, dt, id);
    }
  }

  lemma {:induction false} TurnsConcat(e: Env, w: World, a: seq<Id>, b: seq<Id>, scan: bool, dt: real)
    ensures Turns(e, w, a + b, scan, dt) == Turns(e, Turns(e, w, a, scan, dt), b, scan, dt)
  {
    hide Turn;
    if b == [] {
      assert a + b == a;
    } else {
      var all, rest := a + b, b[..|b| - 1];
      TurnsConcat(e, w, a, rest, scan, dt);
      assert all[..|all| - 1] == a + rest && all[|all| - 1] == b[|b| - 1];
    }
  }

  lemma {:induction false} TrainingsSpare(e: Env, w: World, ids: seq<Id>, dt: real, id: Id)
    requires WellFormed(w) && id in w.units
    ensures id in Trainings(e, w, ids, dt).units && Trainings(e, w, ids, dt).units[id] == w.units[id]
  {
    hide WellFormed, Evolves, Train;
    if ids != [] {
      var rest := ids[..|ids| - 1];
      TrainingsSpare(e, w, rest, dt, id);
      TrainingsKeeps(e, w, rest, dt);
      TrainSpares(e, Trainings(e, w, rest, dt), ids[|ids| - 1], dt, id);
    }
  }

  lemma TrainSpares(e: Env, w: World, k: Id, dt: real, id: Id)
    requires WellFormed(w) && id in w.units
    ensures id in Train(e, w, k, dt).units && Train(e, w, k, dt).units[id] == w.units[id]
  {
    hide WellFormed, Recruit;
    UnitFacts(w, id);
  }

  /** The sweep removes exactly the dead among the swept ids. */
  lemma {:induction false} SweepsSpare(w: World, ids: seq<Id>, id: Id)
    requires id in w.units
    ensures var v := SweepUnits(w, ids);
            if id in ids && w.units[id].hp <= 0.0 then id !in v.units else id in v.units && v.units[id] == w.units[id]
  {
    hide Remove;
    if ids != [] { SweepsSpare(w, ids[..|ids| - 1], id); }
  }

  lemma {:induction false} SweepsOnlyRemove(w: World, ids: seq<Id>)
    ensures SweepUnits(w, ids).units.Keys <= w.units.Keys && SweepBuildings(w, ids).units == w.units
  {
    hide Remove;
    if ids != [] { SweepsOnlyRemove(w, ids[..|ids| - 1]); }
  }

  /** A decision leaves the deciding unit as decided, unless it hits itself. */
  lemma SettleOwn(w: World, id: Id, o: Outcome)
    requires id in w.units && o.unit.id == id && Feasible(w, o) && o.effect != HitUnit(id)
    ensures id in Settle(w, React(o)).units && Settle(w, React(o)).units[id] == o.unit
  {
    hide Touch, HurtUnit, HurtBuilding, RaiseSite, MineField, TakeDrop, SpawnDrop, Credit;
    var w1 := Touch(w, id, o.unit);
    TouchOwn(w, id, o.unit);
    match o.effect
    case NoEffect =>
    case Shed(raw, n) => SpawnDropUnits(w1, raw, o.unit.pos, n);
    case HitUnit(v) => HurtUnits(w1, v);
    case HitBuilding(v) => SitesUnits(w1, v, 0.0);
    case Mine(f, n) => MineFieldUnits(w1, f, n);
    case Deposit(raw, n) => CreditUnits(w1, o.unit.owner, raw, n);
    case Take(d, n) => TakeDropUnits(w1, d, n);
    case Raise(s, gain) => SitesUnits(w1, s, gain);
  }

  // ---- one turn ----

  predicate Acts(w: World, id: Id) { id in w.units && w.units[id].hp > 0.0 }

  /** The room when the unit decides: it has cooled down and, on a scan tick, looked around. */
  function Deliberated(e: Env, w: World, id: Id, scan: bool, dt: real): World
    requires id in w.units
  {
    var w1 := Cool(w, id, dt);
    if scan then Settle(w1, Alert(e, w1, w1.units[id])) else w1
  }

  /** A living unit's turn carries out what it decides then; a dead one has none. */
  lemma TurnIs(e: Env, w: World, id: Id, scan: bool, dt: real)
    ensures !Acts(w, id) ==> Turn(e, w, id, scan, dt) == w
    ensures Acts(w, id) && id in Deliberated(e, w, id, scan, dt).units
            ==> Turn(e, w, id, scan, dt)
                == var v := Deliberated(e, w, id, scan, dt); Settle(v, Decide(e, v, v.units[id], dt))
  {
    hide Cool, Alert, Settle, Decide;
  }

  // ---- a tick around one unit's turn ----

  /** The room when the step of a tick begins: the commands have been carried out. */
  function Commanded(w: World, input: Input): World {
    TakeRejected(ApplyPending(input.env, w.(pending := w.pending + input.commands)))
  }

  /** The room when the units start to take their turns. */
  function Opened(w: World, input: Input): World { NextScan(Commanded(w, input)) }

  function Before(ids: seq<Id>, k: Id): seq<Id> {
    if ids == [] || ids[0] == k then [] else [ids[0]] + Before(ids[1..], k)
  }

  lemma {:induction false} BeforeSplits(ids: seq<Id>, k: Id)
    requires k in ids
    ensures Before(ids, k) + [k] <= ids && k !in Before(ids, k)
  {
    if ids[0] != k {
      BeforeSplits(ids[1..], k);
      assert ids == [ids[0]] + ids[1..];
    }
  }

  /** The room in which a unit takes its turn. */
  function Eve(w: World, input: Input, id: Id): World {
    var w0 := Opened(w, input);
    Turns(input.env, w0, Before(input.env.enum(w0.units.Keys), id), ScanDue(w0), TICK_SECONDS)
  }

  /** The room right after that turn. */
  function Morrow(w: World, input: Input, id: Id): World {
    Turn(input.env, Eve(w, input, id), id, ScanDue(Opened(w, input)), TICK_SECONDS)
  }

  /** No command of this tick both belongs to the unit's owner and names the unit. */
  ghost predicate Unaddressed(w: World, input: Input, id: Id)
    requires id in w.units
  {
    forall c | c in w.pending + input.commands :: !(c.owner == w.units[id].owner && id in c.unitIds)
  }

  lemma OpenedSpares(w: World, input: Input, id: Id)
    requires WellFormed(w) && id in w.units && Unaddressed(w, input, id)
    ensures WellFormed(Opened(w, input)) && id in Opened(w, input).units
            && Opened(w, input).units[id] == w.units[id]
  {
    hide WellFormed, Evolves, ApplyAll;
    var w0 := w.(pending := w.pending + input.commands);
    QueuesKeep(w, w0);
    PendingKeeps(input.env, w0);
    BatchLeaves(input.env, w0, w0.pending, id);
    var w1 := ApplyPending(input.env, w0);
    QueuesKeep(w1, TakeRejected(w1));
    QueuesKeep(TakeRejected(w1), Opened(w, input));
  }

  /** The turns of a step around one unit's turn. */
  lemma TurnsAround(e: Env, w: World, scan: bool, dt: real, id: Id)
    requires WellFormed(w) && Enumerates(e.enum) && id in w.units
    ensures var ids := e.enum(w.units.Keys);
            var eve := Turns(e, w, Before(ids, id), scan, dt);
            var end := Turns(e, w, ids, scan, dt);
            && WellFormed(eve) && id in eve.units && Spared(w.units[id], eve.units[id])
            && WellFormed(end) && id in end.units
            && id in Turn(e, eve, id, scan, dt).units && Spared(Turn(e, eve, id, scan, dt).units[id], end.units[id])
  {
    hide WellFormed, Evolves, Turn, Before, Enumerates, Spared;
    var ids := e.enum(w.units.Keys);
    EnumHas(e, w.units.Keys);
    BeforeSplits(ids, id);
    var front := Before(ids, id);
    var back := ids[|front| + 1..];
    assert ids == front + [id] + back;
    EnumOnce(e, w.units.Keys, |front|);
    TurnsSpare(e, w, front, scan, dt, id);
    TurnsKeeps(e, w, front, scan, dt);
    var eve := Turns(e, w, front, scan, dt);
    TurnsConcat(e, w, front, [id], scan, dt);
    TurnsOne(e, eve, id, scan, dt);
    TurnsConcat(e, w, front + [id], back, scan, dt);
    hide Turns;
    TurnKeeps(e, eve, id, scan, dt);
    TurnsSpare(e, Turn(e, eve, id, scan, dt), back, scan, dt, id);
    TurnsKeeps(e, w, ids, scan, dt);
  }

  /** Training does nothing to a unit, and the sweep only removes it if it is dead. */
  lemma RestSpares(e: Env, w: World, dt: real, id: Id)
    requires WellFormed(w) && Enumerates(e.enum) && id in w.units
    ensures var w2 := Trainings(e, w, e.enum(w.buildings.Keys), dt);
            var w3 := SweepUnits(w2, e.enum(w2.units.Keys));
            var v := SweepBuildings(w3, e.enum(w3.buildings.Keys));
            if w.units[id].hp <= 0.0 then id !in v.units else id in v.units && v.units[id] == w.units[id]
  {
    hide WellFormed, Evolves, Trainings, SweepUnits, SweepBuildings, Enumerates;
    var w2 := Trainings(e, w, e.enum(w.buildings.Keys), dt);
    TrainingsSpare(e, w, e.enum(w.buildings.Keys), dt, id);
    var w3 := SweepUnits(w2, e.enum(w2.units.Keys));
    EnumHas(e, w2.units.Keys);
    SweepsSpare(w2, e.enum(w2.units.Keys), id);
    SweepsOnlyRemove(w3, e.enum(w3.buildings.Keys));
  }

  /** The step of a tick, for any unit that survives it: one turn, and otherwise at most damage. */
  lemma StepIsTurn(w: World, input: Input, id: Id)
    requires WellFormed(Opened(w, input)) && Enumerates(input.env.enum)
    requires id in Opened(w, input).units && id in Advance(w, input).units
    ensures var eve, after := Eve(w, input, id), Morrow(w, input, id);
            && WellFormed(eve) && id in eve.units && id in after.units
            && Spared(Opened(w, input).units[id], eve.units[id]) && eve.units[id].hp > 0.0
            && Spared(after.units[id], Advance(w, input).units[id])
  {
    hide WellFormed, Evolves, Turn, Turns, ApplyPending, Trainings, Before, SweepUnits, SweepBuildings, Enumerates;
    var e, dt := input.env, TICK_SECONDS;
    var w0 := Opened(w, input);
    var scan := ScanDue(w0);
    TurnsAround(e, w0, scan, dt, id);
    RestSpares(e, Turns(e, w0, e.enum(w0.units.Keys), scan, dt), dt, id);
    var eve := Eve(w, input, id);
    if eve.units[id].hp <= 0.0 { DeadStay(e, eve, id, scan, dt); }
  }

  /**
   What a tick does to a unit that no command addresses and that survives it: the unit takes one
   turn, as the unit it was except for damage, and keeps what the turn made of it except for damage.
   */
  lemma TickIsTurn(w: World, input: Input, id: Id)
    requires WellFormed(w) && Enumerates(input.env.enum) && id in w.units && Unaddressed(w, input, id)
    requires id in Advance(w, input).units
    ensures var eve, after := Eve(w, input, id), Morrow(w, input, id);
            && WellFormed(eve) && id in eve.units && id in after.units
            && Spared(w.units[id], eve.units[id]) && eve.units[id].hp > 0.0
            && Spared(after.units[id], Advance(w, input).units[id])
  {
    hide WellFormed, Opened, Eve, Morrow, Advance, Enumerates;
    OpenedSpares(w, input, id);
    StepIsTurn(w, input, id);
  }

  lemma EnumHas(e: Env, keys: set<Id>)
    requires Enumerates(e.enum)
    ensures forall k :: k in e.enum(keys) <==> k in keys
  {
    assert IsEnumeration(e.enum(keys), keys);
  }

  /** No id is visited twice. */
  lemma EnumOnce(e: Env, keys: set<Id>, i: nat)
    requires Enumerates(e.enum) && i < |e.enum(keys)|
    ensures e.enum(keys)[i] !in e.enum(keys)[i + 1..]
  {
    assert IsEnumeration(e.enum(keys), keys);
  }

  lemma TurnsOne(e: Env, w: World, id: Id, scan: bool, dt: real)
    ensures Turns(e, w, [id], scan, dt) == Turn(e, w, id, scan, dt)
  {
    hide Turn;
    assert Turns(e, w, [id][..0], scan, dt) == w;
  }

  lemma DeadStay(e: Env, w: World, id: Id, scan: bool, dt: real)
    requires id in w.units && w.units[id].hp <= 0.0
    ensures Turn(e, w, id, scan, dt) == w
  {}
}
