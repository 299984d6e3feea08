/**
 What commands make of the units they address (DungeonRoom.h, the Apply functions), told from the
 command and the unit alone: each unit named by its owner drops its old assignment and takes up the new
 one; a command that names nothing to work at does nothing.
 */
module Obedience {
  import opened Entities
  import opened Simulation
  import opened Laws
  import opened Evolution
  import opened Commands
  import opened Bystanders

  /** The unit without an assignment: no task and nothing of one, no path, nowhere to go, nobody to attack. */
  function Released(u: Unit): Unit {
    u.(task := NoTask, gatherField := 0, dropoff := 0, pickupDrop := 0, buildTarget := 0,
       slot := Vec3(0.0, 0.0, 0.0), workCd := 0.0, path := [], pathIndex := 0, hasTarget := false, attackTarget := 0)
  }

  // ---- a group order, unit by unit ----

  /** Being told twice is being told once, in the place of the second time. */
  lemma ObeyTwice(e: Env, order: Order, i: nat, j: nat, count: nat, u: Unit)
    requires i < count && j < count
    ensures Obey(e, order, j, count, Obey(e, order, i, count, u).unit).unit == Obey(e, order, j, count, u).unit
  {
    hide FormationSlot, Shifted, Shift;
  }

  lemma CommitDirty(w: World, o: Outcome)
    requires Feasible(w, o) && (o.effect == NoEffect || o.effect.Shed?)
    ensures o.unit.id in Commit(w, o).marks.dirty && w.marks.dirty <= Commit(w, o).marks.dirty
  {}

  lemma PeacefulSettles(w: World, k: Id, o: Outcome)
    requires k in w.units && o.unit.id == k && (o.effect == NoEffect || o.effect.Shed?)
    ensures var v := Settle(w, React(o));
            && v == Commit(w, o) && k in v.units && v.units[k] == o.unit
            && k in v.marks.dirty && w.marks.dirty <= v.marks.dirty
            && forall j | j in w.units && j != k :: j in v.units && v.units[j] == w.units[j]
  {
    SettleOwn(w, k, o);
    CommitDirty(w, o);
    forall j | j in w.units && j != k ensures j in Commit(w, o).units && Commit(w, o).units[j] == w.units[j] {
      CommitLeaves(w, o, j);
    }
    hide Commit;
  }

  /** What the first n mentions have made of unit k: what the one in place i tells it, or nothing. */
  ghost predicate ToldOnce(e: Env, w: World, v: World, order: Order, ids: seq<Id>, n: nat, k: Id, i: nat)
    requires k in w.units && n <= |ids|
  {
    && k in v.units && w.marks.dirty <= v.marks.dirty
    && (if k in ids[..n] then
          i < n && ids[i] == k && v.units[k] == Obey(e, order, i, |ids|, w.units[k]).unit && k in v.marks.dirty
        else v.units[k] == w.units[k])
  }

  lemma ToldNext(e: Env, w: World, mid: World, order: Order, ids: seq<Id>, n: nat, k: Id, i: nat)
    requires k in w.units && n < |ids| && ToldOnce(e, w, mid, order, ids, n, k, i)
    requires ids[n] in mid.units && mid.units[ids[n]].id == ids[n]
    ensures var v := Settle(mid, React(Obey(e, order, n, |ids|, mid.units[ids[n]])));
            ToldOnce(e, w, v, order, ids, n + 1, k, if ids[n] == k then n else i)
  {
    hide Obey, Settle, Commit;
    var last := ids[n];
    assert ids[..n + 1] == ids[..n] + [last];
    ObeyIsPeaceful(e, order, n, |ids|, mid.units[last]);
    PeacefulSettles(mid, last, Obey(e, order, n, |ids|, mid.units[last]));
    if last == k && k in ids[..n] { ObeyTwice(e, order, i, n, |ids|, w.units[k]); }
  }

  lemma ToldNobody(e: Env, w: World, mid: World, order: Order, ids: seq<Id>, n: nat, k: Id, i: nat)
    requires k in w.units && n < |ids| && ToldOnce(e, w, mid, order, ids, n, k, i) && ids[n] !in mid.units
    ensures ToldOnce(e, w, mid, order, ids, n + 1, k, i)
  {
    hide Obey;
    assert ids[..n + 1] == ids[..n] + [ids[n]];
  }

  /** Each unit ends up as the last mention of it tells it, starting from what it was. */
  lemma {:induction false} GivenOrder(e: Env, w: World, order: Order, ids: seq<Id>, n: nat, k: Id)
    returns (i: nat)
    requires WellFormed(w) && OrderOk(order) && n <= |ids| && k in w.units
    ensures ToldOnce(e, w, Give(e, w, order, ids, n), order, ids, n, k, i)
  {
    hide WellFormed, Evolves, Obey, OrderOk, Settle;
    i := 0;
    if n > 0 {
      hide ToldOnce;
      i := GivenOrder(e, w, order, ids, n - 1, k);
      var mid, last := Give(e, w, order, ids, n - 1), ids[n - 1];
      GiveKeeps(e, w, order, ids, n - 1);
      if last in mid.units {
        UnitFacts(mid, last);
        ToldNext(e, w, mid, order, ids, n - 1, k, i);
        if last == k { i := n - 1; }
      } else {
        ToldNobody(e, w, mid, order, ids, n - 1, k, i);
      }
    }
  }

  // ---- each kind of command ----

  /** The command names something that can be worked at; it does not send a unit against itself. */
  predicate Workable(w: World, c: Command, k: Id) {
    match c.kind
    case HarvestCmd => c.targetEntity in w.fields
    case PickupCmd => c.targetEntity in w.drops
    case ConstructCmd => c.targetEntity in w.buildings && w.buildings[c.targetEntity].underConstruction
    case AttackCmd => c.targetEntity != k
    case _ => true
  }

  predicate UnitCommand(c: Command) { c.kind != BuildCmd && c.kind != TrainCmd }

  /** The units the command addresses, in their places. */
  predicate Group(c: Command) {
    c.kind == MoveCmd || c.kind == HarvestCmd || c.kind == StoreCmd || c.kind == PickupCmd
  }

  lemma {:induction false} OwnedAre(w: World, owner: Uid, ids: seq<Id>, k: Id)
    requires k in ids && Owns(w, owner, k)
    ensures k in OwnedIds(w, owner, ids)
  {
    if ids[|ids| - 1] != k { OwnedAre(w, owner, ids[..|ids| - 1], k); }
    hide Owns;
  }

  lemma {:induction false} WithoutOthers(ids: seq<Id>, victim: Id, k: Id)
    requires k in ids && k != victim
    ensures k in Without(ids, victim)
  {
    if ids[|ids| - 1] != k { WithoutOthers(ids[..|ids| - 1], victim, k); }
  }

  lemma SelectedAre(w: World, owner: Uid, ids: seq<Id>, k: Id)
    requires k in ids && Owns(w, owner, k)
    ensures k in Selected(w, owner, ids)
  {
    OwnedAre(w, owner, ids, k);
    SortKeeps(OwnedIds(w, owner, ids));
    assert k in multiset(OwnedIds(w, owner, ids));
    assert k in multiset(Selected(w, owner, ids));
  }

  /** Every named unit of the commander is addressed, if there is something to do. */
  lemma AddresseesAre(w: World, c: Command, k: Id)
    requires UnitCommand(c) && Addressed(w, c, k) && Workable(w, c, k)
    ensures k in Addressees(w, c)
  {
    hide Owns, Without, OwnedIds, Selected;
    OwnedAre(w, c.owner, c.unitIds, k);
    SelectedAre(w, c.owner, c.unitIds, k);
    if c.kind == AttackCmd { WithoutOthers(OwnedIds(w, c.owner, c.unitIds), c.targetEntity, k); }
  }

  /** The unit as the command leaves it, in place i of the group ids. */
  ghost predicate Obeys(e: Env, w: World, c: Command, i: nat, ids: seq<Id>, u: Unit, v: Unit)
    requires i < |ids|
  {
    var idle := Released(u);
    match c.kind
    case MoveCmd =>
      var o := FormationSlot(i, |ids|, Heading(e, w, ids, c.target));
      && v == idle.(target := Shift(c.target, o), hasTarget := true, path := v.path, state := Moving)
      && |v.path| == |c.path| && forall m | 0 <= m < |c.path| :: v.path[m] == Shift(c.path[m], o)
    case StopCmd => v == idle.(carried := 0, state := Idle)
    case AttackCmd => v == idle.(attackTarget := c.targetEntity, autoAggro := false, state := Attacking)
    case HarvestCmd =>
      && c.targetEntity in w.fields
      && v == idle.(task := Gathering, gatherField := c.targetEntity, slot := e.slot(i, |ids|),
                    target := w.fields[c.targetEntity].pos, state := Moving)
    case StoreCmd =>
      v == idle.(task := Returning, dropoff := c.targetEntity, slot := e.slot(i, |ids|), state := Moving)
    case PickupCmd =>
      v == idle.(task := Pickup, pickupDrop := c.targetEntity, slot := e.slot(i, |ids|), state := Moving)
    case ConstructCmd => v == idle.(task := Constructing, buildTarget := c.targetEntity, state := Moving)
    case _ => false
  }

  lemma ObeyObeys(e: Env, w: World, c: Command, i: nat, u: Unit)
    requires UnitCommand(c) && i < |Addressees(w, c)|
    ensures Obeys(e, w, c, i, Addressees(w, c), u, Obey(e, OrderOf(e, w, c), i, |Addressees(w, c)|, u).unit)
  {
    hide FormationSlot, Heading, OwnedIds, Selected, Without, Shift;
    var ids := Addressees(w, c);
    if c.kind == HarvestCmd { assert c.targetEntity in w.fields; }
    hide Addressees;
  }

  /**
   What a command makes of a unit that its owner names in it: the unit drops whatever it was doing and
   is told off for the new work, in the place of one of its mentions in the group; what it carries it
   keeps, unless it is stopped.
   */
  lemma CommandObeyed(e: Env, w: World, c: Command, k: Id) returns (i: nat)
    requires WellFormed(w) && UnitCommand(c) && Addressed(w, c, k) && Workable(w, c, k)
    ensures var v, ids := Apply(e, w, c), Addressees(w, c);
            && i < |ids| && ids[i] == k && k in v.units && k in v.marks.dirty
            && Obeys(e, w, c, i, ids, w.units[k], v.units[k])
  {
    hide WellFormed, Give, OrderOf, OrderOk, Obeys, Addressees, Obey, Workable;
    AddresseesAre(w, c, k);
    var ids := Addressees(w, c);
    OrderOfOk(e, w, c);
    assert ids[..|ids|] == ids;
    i := GivenOrder(e, w, OrderOf(e, w, c), ids, |ids|, k);
    ObeyObeys(e, w, c, i, w.units[k]);
  }

  /** A command whose field, drop or site is not there, or not a site, does nothing at all. */
  lemma NothingToDo(e: Env, w: World, c: Command)
    requires UnitCommand(c) && c.kind != AttackCmd && !Workable(w, c, 0)
    ensures Apply(e, w, c) == w
  {}

  /** Exactly the named units of the commander are addressed. */
  lemma AddresseesExactly(w: World, c: Command, k: Id)
    requires UnitCommand(c)
    ensures k in Addressees(w, c) <==> Addressed(w, c, k) && Workable(w, c, k)
  {
    hide Owns, OwnedIds, Selected, Without;
    AddresseesAreNamed(w, c);
    WithoutKeeps(OwnedIds(w, c.owner, c.unitIds), c.targetEntity);
    if Addressed(w, c, k) && Workable(w, c, k) { AddresseesAre(w, c, k); }
  }

  // ---- what a stopped worker puts down ----

  /** The unit's load lies where the unit stands, under an id that was not in use. */
  ghost predicate LaidDown(w: World, v: World, u: Unit, d: Id) {
    w.nextId <= d < v.nextId && d in v.drops && v.drops[d] == Drop(d, u.carriedRaw, u.pos, u.carried)
    && d in v.marks.dropSpawned
  }

  lemma HaltOne(e: Env, w: World, mid: World, k: Id, u: Unit, i: nat, n: nat)
    requires k in mid.units && i < n && w.nextId <= mid.nextId && mid.units[k].id == k
    requires mid.units[k].pos == u.pos && mid.units[k].carried == u.carried > 0
    requires mid.units[k].carriedRaw == u.carriedRaw
    ensures LaidDown(w, Settle(mid, React(Obey(e, Halt, i, n, mid.units[k]))), u, mid.nextId)
  {}

  lemma LaidStays(w: World, mid: World, u: Unit, d: Id, o: Outcome)
    requires LaidDown(w, mid, u, d) && (o.effect == NoEffect || o.effect.Shed?)
    ensures LaidDown(w, Settle(mid, React(o)), u, d)
  {}

  lemma NextIdGrows(w: World, o: Outcome)
    requires o.effect == NoEffect || o.effect.Shed?
    ensures w.nextId <= Settle(w, React(o)).nextId
  {}

  lemma {:induction false} HaltedLayDown(e: Env, w: World, ids: seq<Id>, n: nat, k: Id) returns (d: Id)
    requires WellFormed(w) && n <= |ids| && k in w.units && w.units[k].carried > 0
    ensures var v := Give(e, w, Halt, ids, n);
            && w.nextId <= v.nextId && k in v.units
            && (if k in ids[..n] then LaidDown(w, v, w.units[k], d) else v.units[k] == w.units[k])
  {
    hide WellFormed, Evolves, Obey, Settle, LaidDown;
    d := 0;
    if n > 0 {
      d := HaltedLayDown(e, w, ids, n - 1, k);
      var mid, last := Give(e, w, Halt, ids, n - 1), ids[n - 1];
      GiveKeeps(e, w, Halt, ids, n - 1);
      assert ids[..n] == ids[..n - 1] + [last];
      if last in mid.units {
        UnitFacts(mid, last);
        var o := Obey(e, Halt, n - 1, |ids|, mid.units[last]);
        ObeyIsPeaceful(e, Halt, n - 1, |ids|, mid.units[last]);
        PeacefulSettles(mid, last, o);
        NextIdGrows(mid, o);
        if k in ids[..n - 1] {
          LaidStays(w, mid, w.units[k], d, o);
        } else if last == k {
          d := mid.nextId;
          HaltOne(e, w, mid, k, w.units[k], n - 1, |ids|);
        }
      }
    }
  }

  /** A stopped worker's load is not lost: it lies where the worker was stopped, all of it, as what it was. */
  lemma StopLaysDown(e: Env, w: World, c: Command, k: Id) returns (d: Id)
    requires WellFormed(w) && c.kind == StopCmd && Addressed(w, c, k) && w.units[k].carried > 0
    ensures LaidDown(w, Apply(e, w, c), w.units[k], d)
  {
    hide WellFormed, Give, LaidDown;
    AddresseesAre(w, c, k);
    var ids := Addressees(w, c);
    assert ids[..|ids|] == ids;
    d := HaltedLayDown(e, w, ids, |ids|, k);
  }

  // ---- training orders ----

  /** Villagers come from inns and crystals, everything else from barracks. */
  predicate CanTrain(buildingType: nat, unitType: nat) {
    (unitType == 0 && (buildingType == 1 || buildingType == 3)) || (unitType != 0 && buildingType == 2)
  }

  /** Nothing but a refusal has happened. */
  ghost predicate OnlyRefused(w: World, v: World, c: Command, reason: Reason) {
    v == w.(rejected := w.rejected + [Rejected(c.owner, c.clientSeq, reason)])
  }

  /** An order to train, case by case; only the last is accepted, pays 50 food and queues two seconds of training. */
  lemma TrainOutcome(e: Env, w: World, c: Command)
    requires c.kind == TrainCmd && forall u | u in w.ledgers :: w.ledgers[u].food < U32
    ensures var v, b := Apply(e, w, c), c.targetEntity;
            if b !in w.buildings || w.buildings[b].owner != c.owner || w.buildings[b].underConstruction then
              OnlyRefused(w, v, c, InvalidEntity)
            else if !CanTrain(w.buildings[b].buildingType, c.auxType) || c.owner !in w.ledgers then
              OnlyRefused(w, v, c, InvalidRequest)
            else if w.ledgers[c.owner].food < 50 then OnlyRefused(w, v, c, NotEnoughResources)
            else
              && c.owner in v.ledgers && v.ledgers[c.owner].food == w.ledgers[c.owner].food - 50
              && v.audit.spent == w.audit.spent + 50 && c.owner in v.marks.ledgerDirty && b in v.marks.siteDirty
              && b in v.buildings
              && v.buildings[b].queue == w.buildings[b].queue + [TrainItem(c.auxType, 2.0)]
              && v == w.(ledgers := w.ledgers[c.owner := v.ledgers[c.owner]],
                         buildings := w.buildings[b := w.buildings[b].(queue := v.buildings[b].queue)],
                         marks := v.marks, audit := v.audit)
              && (w.ledgers[c.owner].wood < U32 && w.ledgers[c.owner].gold < U32 ==>
                    v.ledgers[c.owner] == w.ledgers[c.owner].(food := w.ledgers[c.owner].food - 50))
  {}
}
