/**
 The moments of a tick around one unit's turn: the room when the tick starts, on the eve of the turn, on
 its morrow and when the tick ends. Each evolves into the next, and buildings stay until the end, when
 exactly the destroyed ones go.
 */
module Moments {
  import opened Entities
  import opened Simulation
  import opened Laws
  import opened Evolution
  import opened Replication
  import opened Bystanders
  import Combat
  import Training

  lemma {:induction false} SweepsRaze(w: World, ids: seq<Id>, b: Id)
    ensures var v := SweepBuildings(w, ids);
            && (b in v.buildings <==> b in w.buildings && !(b in ids && w.buildings[b].hp <= 0.0))
            && (b in v.buildings ==> v.buildings[b] == w.buildings[b])
  {
    hide Remove;
    if ids != [] {
      SweepsRaze(w, ids[..|ids| - 1], b);
      assert ids == ids[..|ids| - 1] + [ids[|ids| - 1]];
    }
  }

  lemma OpenedKeeps(w: World, input: Input)
    requires WellFormed(w)
    ensures Keeps(w, Opened(w, input))
  {
    hide WellFormed, Evolves, ApplyPending;
    var w0 := w.(pending := w.pending + input.commands);
    QueuesKeep(w, w0);
    PendingKeeps(input.env, w0);
    var w1 := ApplyPending(input.env, w0);
    KeepsTrans(w, w0, w1);
    QueuesKeep(w1, Opened(w, input));
    KeepsTrans(w, w1, Opened(w, input));
  }

  lemma OpenedSites(w: World, input: Input, b: Id)
    requires WellFormed(w) && b in w.buildings
    ensures b in Opened(w, input).buildings
  {
    hide WellFormed, Evolves, ApplyAll;
    var w0 := w.(pending := w.pending + input.commands);
    QueuesKeep(w, w0);
    Training.BatchQueue(input.env, w0, w0.pending, b);
  }

  lemma EveKeeps(w: World, input: Input, id: Id)
    requires WellFormed(w)
    ensures Keeps(w, Eve(w, input, id))
    ensures forall b | b in w.buildings :: b in Eve(w, input, id).buildings
  {
    hide WellFormed, Evolves, Opened, Turns, Before;
    var w0 := Opened(w, input);
    var front := Before(input.env.enum(w0.units.Keys), id);
    OpenedKeeps(w, input);
    TurnsKeeps(input.env, w0, front, ScanDue(w0), TICK_SECONDS);
    KeepsTrans(w, w0, Eve(w, input, id));
    forall b | b in w.buildings ensures b in Eve(w, input, id).buildings {
      OpenedSites(w, input, b);
      Training.TurnsQueue(input.env, w0, front, ScanDue(w0), TICK_SECONDS, b);
    }
  }

  lemma MorrowKeeps(w: World, input: Input, id: Id)
    requires WellFormed(w)
    ensures Keeps(Eve(w, input, id), Morrow(w, input, id))
    ensures forall b | b in Eve(w, input, id).buildings :: b in Morrow(w, input, id).buildings
  {
    hide WellFormed, Evolves, Eve, Turn, Opened;
    EveKeeps(w, input, id);
    var eve := Eve(w, input, id);
    TurnKeeps(input.env, eve, id, ScanDue(Opened(w, input)), TICK_SECONDS);
    forall b | b in eve.buildings ensures b in Morrow(w, input, id).buildings {
      Training.TurnQueue(input.env, eve, id, ScanDue(Opened(w, input)), TICK_SECONDS, b);
    }
  }

  /** The turns after a unit's own. */
  lemma TurnsAfter(w: World, input: Input, id: Id) returns (back: seq<Id>)
    requires Enumerates(input.env.enum) && id in Opened(w, input).units
    ensures Training.Turned(w, input)
            == Turns(input.env, Morrow(w, input, id), back, ScanDue(Opened(w, input)), TICK_SECONDS)
  {
    hide Opened, Turn, Turns, Before, Enumerates;
    var w0 := Opened(w, input);
    var ids := input.env.enum(w0.units.Keys);
    EnumHas(input.env, w0.units.Keys);
    BeforeSplits(ids, id);
    var front := Before(ids, id);
    back := ids[|front| + 1..];
    assert ids == front + [id] + back;
    TurnsConcat(input.env, w0, front, [id], ScanDue(w0), TICK_SECONDS);
    TurnsOne(input.env, Eve(w, input, id), id, ScanDue(w0), TICK_SECONDS);
    TurnsConcat(input.env, w0, front + [id], back, ScanDue(w0), TICK_SECONDS);
  }

  lemma RestKeeps(w: World, input: Input, id: Id)
    requires WellFormed(w) && Enumerates(input.env.enum) && id in w.units
    ensures Keeps(Morrow(w, input, id), Advance(w, input))
    ensures forall b | b in Morrow(w, input, id).buildings && b in Advance(w, input).buildings ::
              Advance(w, input).buildings[b].hp > 0.0
  {
    hide WellFormed, Evolves, Opened, Morrow, Turns, Training.Turned, Trainings, SweepUnits, SweepBuildings, Enumerates;
    Combat.OpenedKeys(w, input);
    var e, dt := input.env, TICK_SECONDS;
    var back := TurnsAfter(w, input, id);
    var m, v := Morrow(w, input, id), Training.Turned(w, input);
    MorrowWellFormed(w, input, id);
    TurnsKeeps(e, m, back, ScanDue(Opened(w, input)), dt);
    var w2 := Trainings(e, v, e.enum(v.buildings.Keys), dt);
    TrainingsKeeps(e, v, e.enum(v.buildings.Keys), dt);
    KeepsTrans(m, v, w2);
    var w3 := SweepUnits(w2, e.enum(w2.units.Keys));
    SweepsKeeps(w2, e.enum(w2.units.Keys));
    KeepsTrans(m, w2, w3);
    var sites := e.enum(w3.buildings.Keys);
    SweepsKeeps(w3, sites);
    KeepsTrans(m, w3, SweepBuildings(w3, sites));
    Training.AdvanceParts(w, input);
    hide Advance;
    EnumHas(e, w3.buildings.Keys);
    forall b | b in Advance(w, input).buildings ensures Advance(w, input).buildings[b].hp > 0.0 {
      SweepsRaze(w3, sites, b);
    }
  }

  lemma MorrowWellFormed(w: World, input: Input, id: Id)
    requires WellFormed(w)
    ensures WellFormed(Morrow(w, input, id))
  {
    hide WellFormed, Evolves, Eve, Morrow;
    EveKeeps(w, input, id);
    MorrowKeeps(w, input, id);
  }

  lemma KeepsBuilding(a: World, b: World, t: Id)
    requires Keeps(a, b) && t in a.buildings && t in b.buildings
    ensures SameBuilding(a.buildings[t], b.buildings[t])
  {}

  lemma MorrowIs(w: World, input: Input, id: Id)
    ensures Morrow(w, input, id) == Turn(input.env, Eve(w, input, id), id, ScanDue(Opened(w, input)), TICK_SECONDS)
  {}

  lemma AliveAtEnd(w: World, input: Input, id: Id)
    requires Enumerates(input.env.enum) && id in Advance(w, input).units
    ensures Advance(w, input).units[id].hp > 0.0
  {
    hide Enumerates, SweepUnits, SweepBuildings, Trainings, Training.Turned;
    Training.AdvanceParts(w, input);
    hide Advance;
    var e, v := input.env, Training.Turned(w, input);
    var w2 := Trainings(e, v, e.enum(v.buildings.Keys), TICK_SECONDS);
    var ids := e.enum(w2.units.Keys);
    var w3 := SweepUnits(w2, ids);
    SweepsOnlyRemove(w2, ids);
    SweepsOnlyRemove(w3, e.enum(w3.buildings.Keys));
    EnumHas(e, w2.units.Keys);
    SweepsSpare(w2, ids, id);
  }

  lemma SiteBelow(w: World, t: Id)
    requires WellFormed(w) && t in w.buildings
    ensures t < w.nextId
  {}

  /** A tick ends without exactly the units and buildings that have no hit points left. */
  lemma OnlyTheDeadGo(w: World, input: Input)
    requires Enumerates(input.env.enum)
    ensures var e, v, end := input.env, Training.Turned(w, input), Advance(w, input);
            var w2 := Trainings(e, v, e.enum(v.buildings.Keys), TICK_SECONDS);
            && (forall k :: k in end.units <==> k in w2.units && w2.units[k].hp > 0.0)
            && (forall k | k in end.units :: end.units[k] == w2.units[k])
            && (forall b :: b in end.buildings <==> b in w2.buildings && w2.buildings[b].hp > 0.0)
            && (forall b | b in end.buildings :: end.buildings[b] == w2.buildings[b])
  {
    hide Enumerates, SweepUnits, SweepBuildings, Trainings, Training.Turned;
    Training.AdvanceParts(w, input);
    hide Advance;
    var e, v := input.env, Training.Turned(w, input);
    var w2 := Trainings(e, v, e.enum(v.buildings.Keys), TICK_SECONDS);
    var ids := e.enum(w2.units.Keys);
    var w3 := SweepUnits(w2, ids);
    var sites := e.enum(w3.buildings.Keys);
    SweepsOnlyRemove(w2, ids);
    SweepsOnlyRemove(w3, sites);
    EnumHas(e, w2.units.Keys);
    EnumHas(e, w3.buildings.Keys);
    var end := Advance(w, input);
    forall k ensures (k in end.units <==> k in w2.units && w2.units[k].hp > 0.0)
                     && (k in end.units ==> end.units[k] == w2.units[k])
    {
      if k in w2.units { SweepsSpare(w2, ids, k); }
    }
    forall b ensures (b in end.buildings <==> b in w2.buildings && w2.buildings[b].hp > 0.0)
                     && (b in end.buildings ==> end.buildings[b] == w2.buildings[b])
    {
      Training.SweepsQueue(w2, ids, b);
      SweepsRaze(w3, sites, b);
    }
  }

  // ---- time in ticks ----

  /** The ticks until a timer has run down, at least one. */
  function TicksIn(seconds: real): (n: nat)
    ensures n >= 1
    decreases seconds * 20.0
  {
    if seconds <= 0.05 then 1 else 1 + TicksIn(seconds - 0.05)
  }

  lemma {:induction false} TicksInSteps(n: nat)
    requires n >= 1
    ensures TicksIn(n as real * 0.05) == n
  {
    if n > 1 {
      assert n as real * 0.05 - 0.05 == (n - 1) as real * 0.05;
      TicksInSteps(n - 1);
    }
  }

  lemma TicksInStep(seconds: real)
    ensures seconds > 0.05 ==> TicksIn(seconds - 0.05) == TicksIn(seconds) - 1
  {}

  /** A second is twenty ticks. */
  lemma TicksInSecond()
    ensures TicksIn(1.0) == 20
  {
    TicksInSteps(20);
  }
}
