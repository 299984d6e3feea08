/**
 Conservation of each kind of resource. A worker's load counts as the kind that was taken up last
 (DungeonRoom.h, StepGather and StepPickup overwrite carried_raw), so taking up another kind turns
 what was already carried into that kind. This is the only change of a kind in the whole simulation.
 */
module Kinds {
  import opened Entities
  import opened Simulation
  import opened Laws
  import opened Tracking
  import opened Evolution
  import opened Replication
  import Economy
  import Bystanders
  import Match
  import Movement
  import Sums

  /** The part of an amount that is of a kind. */
  function Portion(raw: nat, n: nat, kind: Resource): nat { if ResourceOf(raw) == kind then n else 0 }

  function LoadOf(u: Unit, kind: Resource): nat { Portion(u.carriedRaw, u.carried, kind) }

  ghost function Loads(units: map<Id, Unit>, kind: Resource): map<Id, nat> {
    map k | k in units :: LoadOf(units[k], kind)
  }

  ghost function FieldAmounts(fields: map<Id, Field>, kind: Resource): map<Id, nat> {
    map k | k in fields :: Portion(fields[k].raw, fields[k].amount, kind)
  }

  ghost function DropAmounts(drops: map<Id, Drop>, kind: Resource): map<Id, nat> {
    map k | k in drops :: Portion(drops[k].raw, drops[k].amount, kind)
  }

  ghost function Holdings(ledgers: map<Uid, Ledger>, kind: Resource): map<Uid, nat> {
    map k | k in ledgers :: ledgers[k].Of(kind)
  }

  /** All of a kind: in loads, fields, drops and ledgers, and what has left play. */
  ghost function KindWealth(w: World, kind: Resource): nat {
    Sums.Sum(Loads(w.units, kind)) + Sums.Sum(FieldAmounts(w.fields, kind)) + Sums.Sum(DropAmounts(w.drops, kind))
    + Sums.Sum(Holdings(w.ledgers, kind)) + w.audit.byKind.Of(kind)
  }

  /** Everything KindWealth looks at is the same. */
  ghost predicate SameGoods(a: World, b: World) {
    b.units == a.units && b.fields == a.fields && b.drops == a.drops && b.ledgers == a.ledgers && b.audit == a.audit
  }

  // ---- single changes ----

  lemma TouchKinds(w: World, id: Id, u: Unit, kind: Resource)
    requires id in w.units
    ensures KindWealth(Touch(w, id, u), kind) + LoadOf(w.units[id], kind) == KindWealth(w, kind) + LoadOf(u, kind)
  {
    hide LoadOf;
    Sums.Put(Loads(w.units, kind), id, LoadOf(u, kind));
    assert Loads(w.units[id := u], kind) == Loads(w.units, kind)[id := LoadOf(u, kind)];
  }

  lemma SpawnDropKinds(w: World, raw: nat, pos: Vec3, n: nat, kind: Resource)
    requires w.nextId !in w.drops
    ensures KindWealth(SpawnDrop(w, raw, pos, n), kind) == KindWealth(w, kind) + Portion(raw, n, kind)
  {
    hide Portion;
    var d := Drop(w.nextId, raw, pos, n);
    Sums.Put(DropAmounts(w.drops, kind), w.nextId, Portion(raw, n, kind));
    assert DropAmounts(w.drops[w.nextId := d], kind) == DropAmounts(w.drops, kind)[w.nextId := Portion(raw, n, kind)];
  }

  lemma FieldKinds(fields: map<Id, Field>, f: Id, field: Field, kind: Resource)
    requires f in fields
    ensures Sums.Sum(FieldAmounts(fields[f := field], kind)) + Portion(fields[f].raw, fields[f].amount, kind)
            == Sums.Sum(FieldAmounts(fields, kind)) + Portion(field.raw, field.amount, kind)
    ensures Sums.Sum(FieldAmounts(Remove(fields, f), kind)) + Portion(fields[f].raw, fields[f].amount, kind)
            == Sums.Sum(FieldAmounts(fields, kind))
  {
    hide Portion;
    var m, n := FieldAmounts(fields, kind), Portion(field.raw, field.amount, kind);
    Sums.Put(m, f, n);
    Sums.Split(m, f);
    assert FieldAmounts(fields[f := field], kind) == m[f := n];
    assert FieldAmounts(Remove(fields, f), kind) == m - {f};
  }

  lemma MineFieldKinds(w: World, f: Id, n: nat, kind: Resource)
    requires f in w.fields && n <= w.fields[f].amount
    ensures KindWealth(MineField(w, f, n), kind) + Portion(w.fields[f].raw, n, kind) == KindWealth(w, kind)
  {
    hide Sums.Sum, FieldAmounts, Loads, DropAmounts, Holdings, Portion, Remove;
    var field := w.fields[f];
    FieldKinds(w.fields, f, field.(amount := field.amount - n), kind);
    PortionAdds(field.raw, n, field.amount - n, kind);
  }

  lemma DropKinds(drops: map<Id, Drop>, d: Id, drop: Drop, kind: Resource)
    requires d in drops
    ensures Sums.Sum(DropAmounts(drops[d := drop], kind)) + Portion(drops[d].raw, drops[d].amount, kind)
            == Sums.Sum(DropAmounts(drops, kind)) + Portion(drop.raw, drop.amount, kind)
    ensures Sums.Sum(DropAmounts(Remove(drops, d), kind)) + Portion(drops[d].raw, drops[d].amount, kind)
            == Sums.Sum(DropAmounts(drops, kind))
  {
    hide Portion;
    var m, n := DropAmounts(drops, kind), Portion(drop.raw, drop.amount, kind);
    Sums.Put(m, d, n);
    Sums.Split(m, d);
    assert DropAmounts(drops[d := drop], kind) == m[d := n];
    assert DropAmounts(Remove(drops, d), kind) == m - {d};
  }

  lemma TakeDropKinds(w: World, d: Id, n: nat, kind: Resource)
    requires d in w.drops && n <= w.drops[d].amount
    ensures KindWealth(TakeDrop(w, d, n), kind) + Portion(w.drops[d].raw, n, kind) == KindWealth(w, kind)
  {
    hide Sums.Sum, FieldAmounts, Loads, DropAmounts, Holdings, Portion, Remove;
    var drop := w.drops[d];
    DropKinds(w.drops, d, drop.(amount := drop.amount - n), kind);
    PortionAdds(drop.raw, n, drop.amount - n, kind);
  }

  lemma LedgerKinds(w: World, owner: Uid, l: Ledger, kind: Resource)
    requires owner in w.ledgers
    ensures Sums.Sum(Holdings(w.ledgers[owner := l], kind)) + w.ledgers[owner].Of(kind)
            == Sums.Sum(Holdings(w.ledgers, kind)) + l.Of(kind)
  {
    var m := Holdings(w.ledgers, kind);
    Sums.Put(m, owner, l.Of(kind));
    assert Holdings(w.ledgers[owner := l], kind) == m[owner := l.Of(kind)];
  }

  lemma AddKinds(l: Ledger, raw: nat, n: nat, kind: Resource)
    requires l.Sum() + n < U32 && ResourceOf(raw) != Nothing
    ensures l.Add(ResourceOf(raw), n).Of(kind) == l.Of(kind) + Portion(raw, n, kind)
  {}

  lemma ForfeitKinds(a: Audit, raw: nat, n: nat, kind: Resource)
    ensures a.Forfeit(raw, n).byKind.Of(kind) == a.byKind.Of(kind) + Portion(raw, n, kind)
    ensures a.Bury(raw, n).byKind.Of(kind) == a.byKind.Of(kind) + Portion(raw, n, kind)
  {}

  lemma CreditKinds(w: World, owner: Uid, raw: nat, n: nat, kind: Resource)
    requires Economy.Wealth(w) + n < U32
    ensures KindWealth(Credit(w, owner, raw, n), kind) == KindWealth(w, kind) + Portion(raw, n, kind)
  {
    hide Sums.Sum, Holdings, ResourceOf, Portion, Ledger.Add, Ledger.Of, Ledger.Sum, Audit.Forfeit;
    ForfeitKinds(w.audit, raw, n, kind);
    if owner in w.ledgers {
      Economy.LedgerWealth(w, owner, w.ledgers[owner]);
      var l := w.ledgers[owner].Add(ResourceOf(raw), n);
      LedgerKinds(w, owner, l, kind);
      if ResourceOf(raw) == Nothing {
        AddNothing(w.ledgers[owner], n);
      } else {
        AddKinds(w.ledgers[owner], raw, n, kind);
      }
    }
  }

  lemma AddNothing(l: Ledger, n: nat)
    ensures l.Add(Nothing, n) == l
  {}

  lemma PayKinds(w: World, owner: Uid, cost: Cost, kind: Resource)
    requires owner in w.ledgers && w.ledgers[owner].CanAfford(cost) && Economy.Wealth(w) < U32
    ensures KindWealth(Pay(w, owner, cost), kind) == KindWealth(w, kind)
  {
    hide Sums.Sum, Holdings;
    Economy.LedgerWealth(w, owner, w.ledgers[owner]);
    LedgerKinds(w, owner, w.ledgers[owner].Pay(cost), kind);
    SpendKinds(w.ledgers[owner], w.audit, cost, kind);
    hide Ledger.Pay, Ledger.Sum, Ledger.Of, Audit.Spend;
  }

  lemma SpendKinds(l: Ledger, a: Audit, cost: Cost, kind: Resource)
    requires l.CanAfford(cost) && l.Sum() < U32
    ensures l.Pay(cost).Of(kind) + a.Spend(cost).byKind.Of(kind) == l.Of(kind) + a.byKind.Of(kind)
  {
    Economy.SubExact(l.food, cost.food);
    Economy.SubExact(l.wood, cost.wood);
    Economy.SubExact(l.gold, cost.gold);
    hide Sub32;
  }

  lemma SpawnUnitKinds(w: World, u: Unit, kind: Resource)
    requires w.nextId !in w.units && u.carried == 0
    ensures KindWealth(SpawnUnit(w, u), kind) == KindWealth(w, kind)
  {
    Sums.Put(Loads(w.units, kind), w.nextId, 0);
    assert Loads(w.units[w.nextId := u], kind) == Loads(w.units, kind)[w.nextId := 0];
  }

  lemma SweepUnitKinds(w: World, id: Id, kind: Resource)
    ensures KindWealth(SweepUnit(w, id), kind) == KindWealth(w, kind)
  {
    hide LoadOf, Portion, Audit.Bury;
    if id in w.units && w.units[id].hp <= 0.0 {
      var u := w.units[id];
      Sums.Split(Loads(w.units, kind), id);
      assert Loads(w.units - {id}, kind) == Loads(w.units, kind) - {id};
      ForfeitKinds(w.audit, u.carriedRaw, u.carried, kind);
      assert LoadOf(u, kind) == Portion(u.carriedRaw, u.carried, kind) by { LoadIs(u, kind); }
    }
  }

  lemma LoadIs(u: Unit, kind: Resource)
    ensures LoadOf(u, kind) == Portion(u.carriedRaw, u.carried, kind)
  {}

  lemma CoolKinds(w: World, id: Id, dt: real, kind: Resource)
    requires id in w.units
    ensures KindWealth(Cool(w, id, dt), kind) == KindWealth(w, kind)
  {
    assert Loads(Cool(w, id, dt).units, kind) == Loads(w.units, kind);
  }

  lemma SameGoodsKinds(a: World, b: World, kind: Resource)
    requires SameGoods(a, b)
    ensures KindWealth(b, kind) == KindWealth(a, kind)
  {}

  lemma HurtKinds(w: World, v: Id, kind: Resource)
    ensures v in w.units ==> KindWealth(HurtUnit(w, v), kind) == KindWealth(w, kind)
    ensures v in w.buildings ==> KindWealth(HurtBuilding(w, v), kind) == KindWealth(w, kind)
  {
    if v in w.units { TouchKinds(w, v, w.units[v].(hp := Wound(w.units[v].hp)), kind); }
    if v in w.buildings { SameGoodsKinds(w, HurtBuilding(w, v), kind); }
    hide KindWealth;
  }

  // ---- the label of a load ----

  /** What the label says after an outcome, and what goes into a drop or a ledger. */
  ghost predicate Labelled(w: World, u: Unit, o: Outcome) {
    match o.effect
    case Shed(raw, _) => raw == u.carriedRaw
    case Deposit(raw, _) => raw == u.carriedRaw
    case Mine(f, _) => f in w.fields && o.unit.carriedRaw == w.fields[f].raw
    case Take(d, _) => d in w.drops && o.unit.carriedRaw == w.drops[d].raw
    case _ => o.unit.carriedRaw == u.carriedRaw
  }

  /** The unit takes something up while it carries a load of another kind. */
  predicate Relabels(w: World, u: Unit, o: Outcome)
    requires Feasible(w, o)
  {
    && u.carried > 0
    && match o.effect
       case Mine(f, _) => ResourceOf(w.fields[f].raw) != ResourceOf(u.carriedRaw)
       case Take(d, _) => ResourceOf(w.drops[d].raw) != ResourceOf(u.carriedRaw)
       case _ => false
  }

  /** What a new label adds to a kind: the whole old load, or minus the whole old load. */
  function Turned(u: Unit, raw: nat, kind: Resource): int {
    Portion(raw, u.carried, kind) - LoadOf(u, kind)
  }

  function Drift(w: World, u: Unit, o: Outcome, kind: Resource): int
    requires Feasible(w, o)
  {
    match o.effect
    case Mine(f, _) => Turned(u, w.fields[f].raw, kind)
    case Take(d, _) => Turned(u, w.drops[d].raw, kind)
    case _ => 0
  }

  lemma PortionAdds(raw: nat, n: nat, n': nat, kind: Resource)
    ensures Portion(raw, n + n', kind) == Portion(raw, n, kind) + Portion(raw, n', kind)
    ensures Portion(raw, 0, kind) == 0
  {}

  /** What an outcome does to every kind, exactly. */
  lemma CommitKinds(w: World, o: Outcome, kind: Resource)
    requires Feasible(w, o) && EffectOk(w, w.units[o.unit.id], o) && Labelled(w, w.units[o.unit.id], o)
    requires w.nextId !in w.drops && Economy.Wealth(w) < U32
    ensures KindWealth(Commit(w, o), kind) == KindWealth(w, kind) + Drift(w, w.units[o.unit.id], o, kind)
  {
    hide KindWealth, Portion, Economy.Wealth, Raised, HurtUnit, HurtBuilding, Credit, MineField, TakeDrop, SpawnDrop;
    var u, v := w.units[o.unit.id], o.unit;
    var w1 := Touch(w, v.id, v);
    TouchKinds(w, v.id, v, kind);
    if o.effect.Mine? || o.effect.Take? { PortionAdds(v.carriedRaw, u.carried, o.effect.amount, kind); }
    PortionAdds(v.carriedRaw, 0, 0, kind);
    match o.effect
    case NoEffect =>
    case Shed(raw, n) => SpawnDropKinds(w1, raw, v.pos, n, kind);
    case HitUnit(t) => HurtKinds(w1, t, kind);
    case HitBuilding(t) => HurtKinds(w1, t, kind);
    case Mine(f, n) => MineFieldKinds(w1, f, n, kind);
    case Deposit(raw, n) =>
      Economy.TouchWealth(w, v.id, v);
      CreditKinds(w1, v.owner, raw, n, kind);
    case Take(d, n) => TakeDropKinds(w1, d, n, kind);
    case Raise(s, gain) => SameGoodsKinds(w1, RaiseSite(w1, s, gain), kind);
  }

  lemma DriftCondition(w: World, u: Unit, o: Outcome)
    requires Feasible(w, o)
    ensures (forall kind: Resource :: Drift(w, u, o, kind) == 0) <==> !Relabels(w, u, o)
  {
    hide ResourceOf;
    if Relabels(w, u, o) { assert Drift(w, u, o, ResourceOf(u.carriedRaw)) != 0; }
  }

  /** An outcome conserves every kind exactly if it puts nothing on top of a load of another kind. */
  lemma CommitKeepsKinds(w: World, o: Outcome)
    requires Feasible(w, o) && EffectOk(w, w.units[o.unit.id], o) && Labelled(w, w.units[o.unit.id], o)
    requires w.nextId !in w.drops && Economy.Wealth(w) < U32
    ensures (forall kind: Resource :: KindWealth(Commit(w, o), kind) == KindWealth(w, kind))
            <==> !Relabels(w, w.units[o.unit.id], o)
  {
    hide KindWealth, Commit, Economy.Wealth, Relabels, Drift, EffectOk, Labelled;
    var u := w.units[o.unit.id];
    DriftCondition(w, u, o);
    forall kind: Resource ensures KindWealth(Commit(w, o), kind) == KindWealth(w, kind) + Drift(w, u, o, kind) {
      CommitKinds(w, o, kind);
    }
  }

  // ---- every decision accounts for its label ----

  lemma AlertLabelled(e: Env, w: World, u: Unit)
    ensures var r := Alert(e, w, u);
            r.React? ==> Labelled(w, u, r.outcome) && !r.outcome.effect.Mine? && !r.outcome.effect.Take?
  {}

  lemma ObeyLabelled(e: Env, w: World, order: Order, index: nat, count: nat, u: Unit)
    requires index < count
    ensures var o := Obey(e, order, index, count, u);
            Labelled(w, u, o) && !o.effect.Mine? && !o.effect.Take?
  {}

  lemma {:induction false} WalkLabel(e: Env, u: Unit, left: real)
    ensures Walk(e, u, left).carriedRaw == u.carriedRaw
    decreases if OnPath(u) then |u.path| - u.pathIndex else 0
  {
    if left > 0.00001 && OnPath(u) && u.pathIndex + 1 < |u.path| {
      var dist := e.len(Toward(u.pos, Destination(u)));
      if dist <= left || dist < 0.0001 {
        WalkLabel(e, u.(pos := Destination(u), pathIndex := u.pathIndex + 1), left - MaxReal(dist, 0.0));
      }
    }
  }

  lemma GatherLabelled(e: Env, w: World, u: Unit, dt: real)
    ensures Labelled(w, u, DecideGather(e, w, u, dt))
  {
    hide MoveToward, Yield, Face;
  }

  lemma ReturnLabelled(e: Env, w: World, u: Unit, dt: real)
    ensures Labelled(w, u, DecideReturn(e, w, u, dt))
  {
    hide MoveToward, ChosenDropoff;
  }

  lemma PickupLabelled(e: Env, w: World, u: Unit, dt: real)
    ensures Labelled(w, u, DecidePickup(e, w, u, dt))
  {
    hide MoveToward;
  }

  lemma ConstructLabelled(e: Env, w: World, u: Unit, dt: real)
    ensures Labelled(w, u, DecideConstruct(e, w, u, dt))
  {
    hide MoveToward;
  }

  lemma CombatLabelled(e: Env, w: World, u: Unit, dt: real)
    ensures Labelled(w, u, DecideCombat(e, w, u, dt))
  {
    hide Strike;
  }

  lemma DecideLabelled(e: Env, w: World, u: Unit, dt: real)
    ensures var r := Decide(e, w, u, dt); r.React? ==> Labelled(w, u, r.outcome)
  {
    hide DecideCombat, DecideGather, DecideReturn, DecidePickup, DecideConstruct;
    CombatLabelled(e, w, u, dt);
    GatherLabelled(e, w, u, dt);
    ReturnLabelled(e, w, u, dt);
    PickupLabelled(e, w, u, dt);
    ConstructLabelled(e, w, u, dt);
    WalkLabel(e, u, Stride(u, dt));
    hide Walk;
  }

  // ---- when a worker turns its load into another kind ----

  /** A worker turns its load exactly by working at a field of another kind with a load that is not full. */
  lemma HarvestKeepsKinds(e: Env, w: World, u: Unit, dt: real)
    requires Feasible(w, DecideGather(e, w, u, dt))
    ensures Relabels(w, u, DecideGather(e, w, u, dt))
            <==> && 0 < u.carried < CARRY_CAPACITY
                 && u.gatherField in w.fields && w.fields[u.gatherField].amount > 0
                 && var f := w.fields[u.gatherField];
                    Gap(e, u.pos, Shift(f.pos, u.slot)) <= ARRIVE_RADIUS
                    && ResourceOf(f.raw) != ResourceOf(u.carriedRaw)
  {
    hide Yield, Harvested, ResourceOf;
  }

  /** Or by picking up a drop of another kind, however full it is. */
  lemma PickupKeepsKinds(e: Env, w: World, u: Unit, dt: real)
    requires Feasible(w, DecidePickup(e, w, u, dt))
    ensures Relabels(w, u, DecidePickup(e, w, u, dt))
            <==> && 0 < u.carried && u.pickupDrop in w.drops
                 && var d := w.drops[u.pickupDrop];
                    Gap(e, u.pos, Shift(d.pos, u.slot)) <= ARRIVE_RADIUS
                    && ResourceOf(d.raw) != ResourceOf(u.carriedRaw)
  {
    hide ResourceOf;
  }

  // ---- a turn ----

  function TurnDrift(e: Env, w: World, id: Id, scan: bool, dt: real, kind: Resource): int {
    if !Bystanders.Acts(w, id) then 0 else DecisionDrift(e, Bystanders.Deliberated(e, w, id, scan, dt), id, dt, kind)
  }

  function DecisionDrift(e: Env, w: World, id: Id, dt: real, kind: Resource): int {
    if id !in w.units then 0
    else
      var r := Decide(e, w, w.units[id], dt);
      if r.React? && Feasible(w, r.outcome) then Drift(w, w.units[id], r.outcome, kind) else 0
  }

  /** In its turn the unit takes something up on top of a load of another kind. */
  predicate TurnRelabels(e: Env, w: World, id: Id, scan: bool, dt: real) {
    Bystanders.Acts(w, id) && DecisionRelabels(e, Bystanders.Deliberated(e, w, id, scan, dt), id, dt)
  }

  predicate DecisionRelabels(e: Env, w: World, id: Id, dt: real) {
    id in w.units
    && var r := Decide(e, w, w.units[id], dt);
       r.React? && Feasible(w, r.outcome) && Relabels(w, w.units[id], r.outcome)
  }

  lemma SettleKinds(w: World, id: Id, r: Reaction, kind: Resource)
    requires WellFormed(w) && id in w.units && Economy.Wealth(w) < U32
    requires r.React? ==> Lawful(w, w.units[id], r.outcome) && Labelled(w, w.units[id], r.outcome)
    ensures KindWealth(Settle(w, r), kind)
            == KindWealth(w, kind) + if r.React? then Drift(w, w.units[id], r.outcome, kind) else 0
  {
    hide KindWealth, Commit, Economy.Wealth, Drift, Labelled, EffectOk;
    UnitFacts(w, id);
    if r.React? {
      FreshDrop(w);
      LawfulEffect(w, w.units[id], r.outcome);
      CommitKinds(w, r.outcome, kind);
    }
    hide WellFormed, UnitOk;
  }

  lemma FreshDrop(w: World)
    requires WellFormed(w)
    ensures w.nextId !in w.drops && w.nextId !in w.units
  {}

  lemma LawfulEffect(w: World, u: Unit, o: Outcome)
    requires Lawful(w, u, o) && UnitOk(u)
    ensures EffectOk(w, u, o) && o.unit.id == u.id && Feasible(w, o)
  {}

  lemma NoDrift(w: World, u: Unit, o: Outcome, kind: Resource)
    requires Feasible(w, o) && !o.effect.Mine? && !o.effect.Take?
    ensures Drift(w, u, o, kind) == 0
  {}

  lemma AlertedKinds(e: Env, w: World, id: Id, scan: bool, dt: real, kind: Resource)
    requires WellFormed(w) && id in w.units && Economy.Wealth(w) < U32
    ensures var v := Bystanders.Deliberated(e, w, id, scan, dt);
            && WellFormed(v) && id in v.units && Economy.Wealth(v) < U32
            && KindWealth(v, kind) == KindWealth(w, kind)
  {
    hide WellFormed, KindWealth, Economy.Wealth, Alert, Settle, Lawful, Labelled, UnitOk, Tracked, Persistent, Cool;
    var w1 := Cool(w, id, dt);
    CoolKeeps(w, id, dt);
    CoolKinds(w, id, dt, kind);
    if scan {
      var r := Alert(e, w1, w1.units[id]);
      UnitFacts(w1, id);
      AlertLawful(e, w1, w1.units[id]);
      AlertLabelled(e, w1, w1.units[id]);
      SettleKinds(w1, id, r, kind);
      SettleKeeps(w1, id, r);
      if r.React? {
        LawfulEffect(w1, w1.units[id], r.outcome);
        NoDrift(w1, w1.units[id], r.outcome, kind);
      }
    }
    hide Drift;
  }

  lemma TurnKinds(e: Env, w: World, id: Id, scan: bool, dt: real, kind: Resource)
    requires WellFormed(w) && Economy.Wealth(w) < U32
    ensures KindWealth(Turn(e, w, id, scan, dt), kind) == KindWealth(w, kind) + TurnDrift(e, w, id, scan, dt, kind)
  {
    hide WellFormed, KindWealth, Economy.Wealth, Bystanders.Deliberated, Decide, Settle, Turn,
         Lawful, Labelled, UnitOk, Drift;
    Bystanders.TurnIs(e, w, id, scan, dt);
    if Bystanders.Acts(w, id) {
      var v := Bystanders.Deliberated(e, w, id, scan, dt);
      AlertedKinds(e, w, id, scan, dt, kind);
      UnitFacts(v, id);
      DecideLawful(e, v, v.units[id], dt);
      DecideLabelled(e, v, v.units[id], dt);
      SettleKinds(v, id, Decide(e, v, v.units[id], dt), kind);
      if Decide(e, v, v.units[id], dt).React? { LawfulEffect(v, v.units[id], Decide(e, v, v.units[id], dt).outcome); }
    }
    hide Feasible;
  }

  /** A turn conserves every kind exactly if the unit does not turn its load into another kind. */
  lemma TurnKeepsKinds(e: Env, w: World, id: Id, scan: bool, dt: real)
    requires WellFormed(w) && Economy.Wealth(w) < U32
    ensures (forall kind: Resource :: KindWealth(Turn(e, w, id, scan, dt), kind) == KindWealth(w, kind))
            <==> !TurnRelabels(e, w, id, scan, dt)
  {
    hide WellFormed, KindWealth, Economy.Wealth, Turn, TurnDrift;
    TurnDriftCondition(e, w, id, scan, dt);
    forall kind: Resource
      ensures KindWealth(Turn(e, w, id, scan, dt), kind) == KindWealth(w, kind) + TurnDrift(e, w, id, scan, dt, kind)
    {
      TurnKinds(e, w, id, scan, dt, kind);
    }
    hide TurnRelabels;
  }

  lemma TurnDriftCondition(e: Env, w: World, id: Id, scan: bool, dt: real)
    ensures (forall kind: Resource :: TurnDrift(e, w, id, scan, dt, kind) == 0) <==> !TurnRelabels(e, w, id, scan, dt)
  {
    hide Bystanders.Deliberated, Decide, Drift, Relabels, Feasible;
    if Bystanders.Acts(w, id) {
      var v := Bystanders.Deliberated(e, w, id, scan, dt);
      if id in v.units {
        var r := Decide(e, v, v.units[id], dt);
        if r.React? && Feasible(v, r.outcome) {
          DriftCondition(v, v.units[id], r.outcome);
          assert forall kind: Resource :: TurnDrift(e, w, id, scan, dt, kind) == Drift(v, v.units[id], r.outcome, kind);
        }
      }
    }
  }

  // ---- a tick ----

  function TurnsDrift(e: Env, w: World, ids: seq<Id>, scan: bool, dt: real, kind: Resource): int {
    if ids == [] then 0
    else
      var rest := ids[..|ids| - 1];
      TurnsDrift(e, w, rest, scan, dt, kind) + TurnDrift(e, Turns(e, w, rest, scan, dt), ids[|ids| - 1], scan, dt, kind)
  }

  /** Nobody turns a load in these turns. */
  predicate TurnsPure(e: Env, w: World, ids: seq<Id>, scan: bool, dt: real) {
    ids != [] ==>
      var rest := ids[..|ids| - 1];
      TurnsPure(e, w, rest, scan, dt) && !TurnRelabels(e, Turns(e, w, rest, scan, dt), ids[|ids| - 1], scan, dt)
  }

  lemma {:induction false} TurnsKinds(e: Env, w: World, ids: seq<Id>, scan: bool, dt: real, kind: Resource)
    requires WellFormed(w) && Economy.Wealth(w) < U32
    ensures KindWealth(Turns(e, w, ids, scan, dt), kind) == KindWealth(w, kind) + TurnsDrift(e, w, ids, scan, dt, kind)
    ensures TurnsPure(e, w, ids, scan, dt) ==> TurnsDrift(e, w, ids, scan, dt, kind) == 0
  {
    hide WellFormed, KindWealth, Economy.Wealth, Turn, TurnDrift, TurnRelabels, Tracked, Persistent;
    if ids != [] {
      var rest, id := ids[..|ids| - 1], ids[|ids| - 1];
      var mid := Turns(e, w, rest, scan, dt);
      TurnsKinds(e, w, rest, scan, dt, kind);
      TurnsKeeps(e, w, rest, scan, dt);
      TurnKinds(e, mid, id, scan, dt, kind);
      TurnDriftCondition(e, mid, id, scan, dt);
    }
  }

  lemma TrainKinds(e: Env, w: World, id: Id, dt: real, kind: Resource)
    requires WellFormed(w)
    ensures KindWealth(Train(e, w, id, dt), kind) == KindWealth(w, kind)
  {
    hide KindWealth, Recruit, WellFormed, TouchSite, SpawnUnit;
    if id in w.buildings && w.buildings[id].queue != [] && !w.buildings[id].underConstruction {
      var b := w.buildings[id];
      var left := b.queue[0].remaining - dt;
      if left <= 0.0 {
        FreshDrop(w);
        RecruitOk(e, b, w.nextId);
        SpawnUnitKinds(w, Recruit(e, b, w.nextId), kind);
        TouchSiteGoods(SpawnUnit(w, Recruit(e, b, w.nextId)), id, b.(queue := b.queue[1..]), kind);
      } else {
        TouchSiteGoods(w, id, b.(queue := b.queue[0 := b.queue[0].(remaining := left)]), kind);
      }
    }
  }

  lemma TouchSiteGoods(w: World, id: Id, b: Building, kind: Resource)
    ensures KindWealth(TouchSite(w, id, b), kind) == KindWealth(w, kind)
  {
    SameGoodsKinds(w, TouchSite(w, id, b), kind);
  }

  lemma {:induction false} TrainingsKinds(e: Env, w: World, ids: seq<Id>, dt: real, kind: Resource)
    requires WellFormed(w)
    ensures KindWealth(Trainings(e, w, ids, dt), kind) == KindWealth(w, kind)
  {
    hide WellFormed, KindWealth, Train, Evolves;
    if ids != [] {
      var rest := ids[..|ids| - 1];
      TrainingsKinds(e, w, rest, dt, kind);
      TrainingsKeeps(e, w, rest, dt);
      TrainKinds(e, Trainings(e, w, rest, dt), ids[|ids| - 1], dt, kind);
    }
  }

  lemma {:induction false} SweepsKinds(w: World, ids: seq<Id>, kind: Resource)
    ensures KindWealth(SweepUnits(w, ids), kind) == KindWealth(w, kind)
    ensures KindWealth(SweepBuildings(w, ids), kind) == KindWealth(w, kind)
  {
    hide KindWealth, SweepUnit, SweepBuilding;
    if ids != [] {
      var rest, id := ids[..|ids| - 1], ids[|ids| - 1];
      SweepsKinds(w, rest, kind);
      SweepUnitKinds(SweepUnits(w, rest), id, kind);
      SweepBuildingGoods(SweepBuildings(w, rest), id, kind);
    }
  }

  lemma SweepBuildingGoods(w: World, id: Id, kind: Resource)
    ensures KindWealth(SweepBuilding(w, id), kind) == KindWealth(w, kind)
  {
    SameGoodsKinds(w, SweepBuilding(w, id), kind);
  }

  function StepDrift(e: Env, w: World, dt: real, kind: Resource): int {
    TurnsDrift(e, NextScan(w), e.enum(w.units.Keys), ScanDue(NextScan(w)), dt, kind)
  }

  predicate StepPure(e: Env, w: World, dt: real) {
    TurnsPure(e, NextScan(w), e.enum(w.units.Keys), ScanDue(NextScan(w)), dt)
  }

  lemma StepKinds(e: Env, w: World, dt: real, kind: Resource)
    requires WellFormed(w) && Economy.Wealth(w) < U32
    ensures KindWealth(Step(e, w, dt), kind) == KindWealth(w, kind) + StepDrift(e, w, dt, kind)
    ensures StepPure(e, w, dt) ==> StepDrift(e, w, dt, kind) == 0
  {
    hide WellFormed, KindWealth, Economy.Wealth, Tracked, Persistent, Turns, Trainings, SweepUnits, SweepBuildings;
    var w0 := NextScan(w);
    QueuesKeep(w, w0);
    SameGoodsKinds(w, w0, kind);
    var ids := e.enum(w0.units.Keys);
    TurnsKinds(e, w0, ids, ScanDue(w0), dt, kind);
    TurnsKeeps(e, w0, ids, ScanDue(w0), dt);
    var w1 := Turns(e, w0, ids, ScanDue(w0), dt);
    TrainingsKinds(e, w1, e.enum(w1.buildings.Keys), dt, kind);
    var w2 := Trainings(e, w1, e.enum(w1.buildings.Keys), dt);
    SweepsKinds(w2, e.enum(w2.units.Keys), kind);
    var w3 := SweepUnits(w2, e.enum(w2.units.Keys));
    SweepsKinds(w3, e.enum(w3.buildings.Keys), kind);
  }

  // ---- commands ----

  lemma {:induction false} GiveKinds(e: Env, w: World, order: Order, ids: seq<Id>, n: nat, kind: Resource)
    requires WellFormed(w) && Economy.Wealth(w) < U32 && OrderOk(order) && n <= |ids|
    ensures KindWealth(Give(e, w, order, ids, n), kind) == KindWealth(w, kind)
  {
    hide WellFormed, KindWealth, Economy.Wealth, Tracked, Persistent, Settle, Obey, Drift, Lawful, Labelled, UnitOk,
         OrderOk;
    if n > 0 {
      var mid, id := Give(e, w, order, ids, n - 1), ids[n - 1];
      GiveKinds(e, w, order, ids, n - 1, kind);
      GiveKeeps(e, w, order, ids, n - 1);
      if id in mid.units {
        var o := Obey(e, order, n - 1, |ids|, mid.units[id]);
        UnitFacts(mid, id);
        ObeyLawful(e, mid, order, n - 1, |ids|, mid.units[id]);
        ObeyLabelled(e, mid, order, n - 1, |ids|, mid.units[id]);
        LawfulEffect(mid, mid.units[id], o);
        SettleKinds(mid, id, React(o), kind);
        NoDrift(mid, mid.units[id], o, kind);
      }
    }
  }

  lemma BuildKinds(e: Env, w: World, c: Command, kind: Resource)
    requires WellFormed(w) && Economy.Wealth(w) < U32
    ensures KindWealth(ApplyBuild(e, w, c), kind) == KindWealth(w, kind)
  {
    hide WellFormed, KindWealth, Economy.Wealth, Tracked, Persistent, Pay, SpawnBuilding, Give, OwnedIds;
    match JudgeBuild(w, c)
    case Refused(reason) => SameGoodsKinds(w, Reject(w, c, reason), kind);
    case Accepted =>
      PositiveId(w);
      var w1 := Pay(w, c.owner, BuildingCost(c.auxType));
      PayKeeps(w, c.owner, BuildingCost(c.auxType));
      PayKinds(w, c.owner, BuildingCost(c.auxType), kind);
      PayNextId(w, c.owner, BuildingCost(c.auxType));
      var b := NewBuilding(w.nextId, c.owner, TeamOf(w, c.owner), c.auxType, c.target, c.yaw, true);
      var w2 := SpawnBuilding(w1, b);
      SpawnBuildingKeeps(w1, b);
      SpawnBuildingGoods(w1, b, kind);
      var ids := OwnedIds(w2, c.owner, c.unitIds);
      GiveKinds(e, w2, Raising(w.nextId), ids, |ids|, kind);
  }

  lemma SpawnBuildingGoods(w: World, b: Building, kind: Resource)
    ensures KindWealth(SpawnBuilding(w, b), kind) == KindWealth(w, kind)
  {
    SameGoodsKinds(w, SpawnBuilding(w, b), kind);
  }

  lemma TrainCommandKinds(w: World, c: Command, kind: Resource)
    requires WellFormed(w) && Economy.Wealth(w) < U32
    ensures KindWealth(ApplyTrain(w, c), kind) == KindWealth(w, kind)
  {
    hide WellFormed, KindWealth, Economy.Wealth, Pay, TouchSite;
    match JudgeTrain(w, c)
    case Refused(reason) => SameGoodsKinds(w, Reject(w, c, reason), kind);
    case Accepted =>
      var b := w.buildings[c.targetEntity];
      PayKinds(w, c.owner, UnitCost(c.auxType), kind);
      TouchSiteGoods(Pay(w, c.owner, UnitCost(c.auxType)), c.targetEntity,
                     b.(queue := b.queue + [TrainItem(c.auxType, TRAIN_TIME)]), kind);
  }

  lemma ApplyKinds(e: Env, w: World, c: Command, kind: Resource)
    requires WellFormed(w) && Economy.Wealth(w) < U32
    ensures KindWealth(Apply(e, w, c), kind) == KindWealth(w, kind)
  {
    hide WellFormed, KindWealth, Economy.Wealth, ApplyBuild, ApplyTrain, Give, Addressees, OrderOf, OrderOk;
    BuildKinds(e, w, c, kind);
    TrainCommandKinds(w, c, kind);
    var ids := Addressees(w, c);
    if ids != [] {
      OrderOfOk(e, w, c);
      GiveKinds(e, w, OrderOf(e, w, c), ids, |ids|, kind);
    }
  }

  lemma {:induction false} ApplyAllKinds(e: Env, w: World, cs: seq<Command>, kind: Resource)
    requires WellFormed(w) && Economy.Wealth(w) < U32
    ensures KindWealth(ApplyAll(e, w, cs), kind) == KindWealth(w, kind)
  {
    hide WellFormed, KindWealth, Economy.Wealth, Tracked, Persistent, Apply;
    if cs != [] {
      var rest := cs[..|cs| - 1];
      ApplyAllKinds(e, w, rest, kind);
      ApplyAllKeeps(e, w, rest);
      ApplyKinds(e, ApplyAll(e, w, rest), cs[|cs| - 1], kind);
    }
  }

  // ---- whole runs ----

  lemma CommandedKinds(w: World, input: Input, kind: Resource)
    requires WellFormed(w) && Economy.Wealth(w) < U32
    ensures var v := Bystanders.Commanded(w, input);
            WellFormed(v) && Economy.Wealth(v) < U32 && KindWealth(v, kind) == KindWealth(w, kind)
  {
    hide WellFormed, KindWealth, Economy.Wealth, Tracked, Persistent, ApplyAll;
    var w0 := w.(pending := w.pending + input.commands);
    QueuesKeep(w, w0);
    SameGoodsKinds(w, w0, kind);
    ApplyAllKinds(input.env, w0, w0.pending, kind);
    PendingKeeps(input.env, w0);
    var w1 := ApplyPending(input.env, w0);
    SameGoodsKinds(ApplyAll(input.env, w0, w0.pending), w1, kind);
    QueuesKeep(w1, TakeRejected(w1));
    SameGoodsKinds(w1, TakeRejected(w1), kind);
  }

  /** By how much the loads turned into a kind outweigh those turned from it, over a run. */
  function RunDrift(w: World, inputs: seq<Input>, kind: Resource): int {
    if inputs == [] then 0
    else
      var before, input := inputs[..|inputs| - 1], inputs[|inputs| - 1];
      RunDrift(w, before, kind) + StepDrift(input.env, Bystanders.Commanded(Run(w, before), input), TICK_SECONDS, kind)
  }

  /** In no turn of the run does anybody take something up on top of a load of another kind. */
  predicate RunPure(w: World, inputs: seq<Input>) {
    inputs != [] ==>
      var before, input := inputs[..|inputs| - 1], inputs[|inputs| - 1];
      RunPure(w, before) && StepPure(input.env, Bystanders.Commanded(Run(w, before), input), TICK_SECONDS)
  }

  /**
   Every kind over any run: fields, drops, loads, ledgers and losses together change by the loads that
   were turned, and by nothing else; deposits, sheds, payments, deaths and commands keep every kind.
   */
  lemma {:induction false} RunKinds(w: World, inputs: seq<Input>, kind: Resource)
    requires WellFormed(w) && Economy.Wealth(w) < U32
    ensures KindWealth(Run(w, inputs), kind) == KindWealth(w, kind) + RunDrift(w, inputs, kind)
    ensures RunPure(w, inputs) ==> KindWealth(Run(w, inputs), kind) == KindWealth(w, kind)
  {
    hide WellFormed, KindWealth, Economy.Wealth, Bystanders.Commanded, Step, StepDrift, StepPure;
    RunDriftPure(w, inputs, kind);
    if inputs != [] {
      var before, input := inputs[..|inputs| - 1], inputs[|inputs| - 1];
      RunKinds(w, before, kind);
      var a := Run(w, before);
      RunBounded(w, before);
      CommandedKinds(a, input, kind);
      StepKinds(input.env, Bystanders.Commanded(a, input), TICK_SECONDS, kind);
      AdvanceIs(a, input);
      SameGoodsKinds(Advance(a, input), ClearMarks(Advance(a, input)), kind);
      hide Advance;
    }
  }

  lemma AdvanceIs(w: World, input: Input)
    ensures Advance(w, input) == Step(input.env, Bystanders.Commanded(w, input), TICK_SECONDS)
  {}

  lemma RunBounded(w: World, inputs: seq<Input>)
    requires WellFormed(w) && Economy.Wealth(w) < U32
    ensures WellFormed(Run(w, inputs)) && Economy.Wealth(Run(w, inputs)) < U32
  {
    hide WellFormed, Run, Economy.Wealth;
    RunWellFormed(w, inputs);
    Match.RunConserves(w, inputs);
  }

  lemma {:induction false} RunDriftPure(w: World, inputs: seq<Input>, kind: Resource)
    requires WellFormed(w) && Economy.Wealth(w) < U32
    ensures RunPure(w, inputs) ==> RunDrift(w, inputs, kind) == 0
  {
    hide WellFormed, KindWealth, Economy.Wealth, Bystanders.Commanded, Advance, StepDrift, StepPure;
    if inputs != [] {
      var before, input := inputs[..|inputs| - 1], inputs[|inputs| - 1];
      RunDriftPure(w, before, kind);
      RunBounded(w, before);
      CommandedKinds(Run(w, before), input, kind);
      StepKinds(input.env, Bystanders.Commanded(Run(w, before), input), TICK_SECONDS, kind);
    }
    hide Run;
  }

  // ---- exactly the pure runs ----

  /** Each of these turns leaves every kind as it was. */
  ghost predicate TurnsKeepKinds(e: Env, w: World, ids: seq<Id>, scan: bool, dt: real) {
    ids != [] ==>
      var rest := ids[..|ids| - 1];
      && TurnsKeepKinds(e, w, rest, scan, dt)
      && forall kind: Resource ::
           KindWealth(Turns(e, w, ids, scan, dt), kind) == KindWealth(Turns(e, w, rest, scan, dt), kind)
  }

  lemma {:induction false} TurnsPureExactly(e: Env, w: World, ids: seq<Id>, scan: bool, dt: real)
    requires WellFormed(w) && Economy.Wealth(w) < U32
    ensures TurnsPure(e, w, ids, scan, dt) <==> TurnsKeepKinds(e, w, ids, scan, dt)
  {
    hide WellFormed, KindWealth, Economy.Wealth, Turn, TurnRelabels, Tracked, Persistent;
    if ids != [] {
      var rest, id := ids[..|ids| - 1], ids[|ids| - 1];
      TurnsPureExactly(e, w, rest, scan, dt);
      TurnsKeeps(e, w, rest, scan, dt);
      TurnKeepsKinds(e, Turns(e, w, rest, scan, dt), id, scan, dt);
    }
  }

  ghost predicate StepKeepsKinds(e: Env, w: World, dt: real) {
    TurnsKeepKinds(e, NextScan(w), e.enum(w.units.Keys), ScanDue(NextScan(w)), dt)
  }

  /** Each turn of each tick of the run leaves every kind as it was. */
  ghost predicate RunKeepsKinds(w: World, inputs: seq<Input>) {
    inputs != [] ==>
      var before, input := inputs[..|inputs| - 1], inputs[|inputs| - 1];
      RunKeepsKinds(w, before) && StepKeepsKinds(input.env, Bystanders.Commanded(Run(w, before), input), TICK_SECONDS)
  }

  /** Every kind is conserved through every turn of a run exactly if nobody ever turns a load in it. */
  lemma {:induction false} PureExactly(w: World, inputs: seq<Input>)
    requires WellFormed(w) && Economy.Wealth(w) < U32
    ensures RunPure(w, inputs) <==> RunKeepsKinds(w, inputs)
  {
    hide WellFormed, Economy.Wealth, Bystanders.Commanded, Advance, StepPure, StepKeepsKinds;
    if inputs != [] {
      var before, input := inputs[..|inputs| - 1], inputs[|inputs| - 1];
      PureExactly(w, before);
      RunBounded(w, before);
      var v := Bystanders.Commanded(Run(w, before), input);
      CommandedKinds(Run(w, before), input, Food);
      StepPureExactly(input.env, v, TICK_SECONDS);
    }
    hide Run;
  }

  lemma StepPureExactly(e: Env, w: World, dt: real)
    requires WellFormed(w) && Economy.Wealth(w) < U32
    ensures StepPure(e, w, dt) <==> StepKeepsKinds(e, w, dt)
  {
    hide WellFormed, Economy.Wealth, Tracked, Persistent, TurnsPure, TurnsKeepKinds;
    QueuesKeep(w, NextScan(w));
    TurnsPureExactly(e, NextScan(w), e.enum(w.units.Keys), ScanDue(NextScan(w)), dt);
  }

  // ---- a load that turns ----

  const MINER: Id := 2
  const SEAM: Id := 1

  /** A worker with five wood, standing where it would stand to work at a gold field. */
  function Miner(e: Env): Unit {
    NewUnit(MINER, 7, 0, VILLAGER, Shift(ORIGIN, e.slot(0, 1)), 100.0, MOVE_SPEED, 0.0)
    .(carried := 5, carriedRaw := RAW_WOOD)
  }

  function Quarry(e: Env): World {
    EMPTY_WORLD.(players := map[7 := Player(7, 0, true)], ledgers := map[7 := START_LEDGER], nextId := 3,
                 units := map[MINER := Miner(e)], fields := map[SEAM := Field(SEAM, RAW_GOLD, ORIGIN, 0.0, 100)])
  }

  const HARVEST: Command := Command(HarvestCmd, 7, 0, [MINER], ORIGIN, [], SEAM, 0, 0.0)

  /** The worker once it has been sent to the field. */
  function Dispatched(e: Env): Unit {
    Assigned(Miner(e), Gathering).(slot := e.slot(0, 1), gatherField := SEAM, target := ORIGIN)
  }

  lemma QuarryFacts(e: Env)
    ensures WellFormed(Quarry(e)) && Economy.Wealth(Quarry(e)) < U32
  {
    QuarryWealth(e);
    hide Economy.Wealth;
  }

  lemma QuarryWealth(e: Env)
    ensures Economy.Wealth(Quarry(e)) == 605
  {
    var w := Quarry(e);
    Sums.Put(map[], MINER, 5);
    Sums.Put(map[], SEAM, 100);
    Sums.Put(map[], 7, 500);
    assert Economy.Loads(w.units) == map[][MINER := 5];
    assert Economy.FieldAmounts(w.fields) == map[][SEAM := 100];
    assert Economy.DropAmounts(w.drops) == map[];
    assert Economy.Holdings(w.ledgers) == map[][7 := 500];
  }

  lemma MinerAddressed(w: World)
    requires MINER in w.units && w.units[MINER].owner == 7 && SEAM in w.fields
    ensures Addressees(w, HARVEST) == [MINER]
  {
    var ids := [MINER];
    assert ids[..0] == [];
    assert Owns(w, 7, MINER);
    assert OwnedIds(w, 7, ids) == OwnedIds(w, 7, ids[..0]) + [MINER] == [MINER];
    assert Insert(MINER, []) == [MINER];
    assert SortIds(ids) == Insert(MINER, SortIds(ids[1..])) == [MINER];
    hide Owns;
  }

  lemma CommandSendsMiner(e: Env)
    ensures Bystanders.Commanded(Quarry(e), Input(e, [HARVEST])).units == map[MINER := Dispatched(e)]
    ensures Bystanders.Commanded(Quarry(e), Input(e, [HARVEST])).fields == Quarry(e).fields
    ensures Bystanders.Commanded(Quarry(e), Input(e, [HARVEST])).scanTick == 0
  {
    var w := Quarry(e).(pending := Quarry(e).pending + [HARVEST]);
    assert Quarry(e).pending + [HARVEST] == [HARVEST];
    MinerAddressed(w);
    hide Addressees, Miner;
    assert Miner(e).id == MINER && Miner(e).owner == 7 by { MinerIs(e); }
    assert [HARVEST][..0] == [];
    assert ApplyAll(e, w, [HARVEST]) == Apply(e, w, HARVEST);
    var order := Harvesting(SEAM, ORIGIN);
    assert OrderOf(e, w, HARVEST) == order;
    assert Give(e, w, order, [MINER], 0) == w;
    assert Obey(e, order, 0, 1, Miner(e)) == Outcome(Dispatched(e), NoEffect);
    assert Give(e, w, order, [MINER], 1) == Touch(w, MINER, Dispatched(e));
    assert w.units[MINER := Dispatched(e)] == map[MINER := Dispatched(e)];
  }

  lemma MinerIs(e: Env)
    ensures Miner(e).id == MINER && Miner(e).owner == 7
  {}

  /** In its turn the worker makes its five wood gold. */
  lemma MinerTurn(e: Env, w: World, kind: Resource)
    requires IsNorm(e.len) && w.units == map[MINER := Dispatched(e)] && w.fields == Quarry(e).fields
    ensures TurnDrift(e, w, MINER, false, TICK_SECONDS, kind)
            == (if kind == Gold then 5 else if kind == Wood then -5 else 0)
  {
    hide Yield, Harvested, IsNorm;
    var u := Dispatched(e);
    Movement.GapZero(e, u.pos, Shift(ORIGIN, u.slot));
    assert Cool(w, MINER, TICK_SECONDS).units == w.units;
    assert Cool(w, MINER, TICK_SECONDS) == w;
    var o := DecideGather(e, w, u, TICK_SECONDS);
    assert Decide(e, w, u, TICK_SECONDS) == React(o);
    assert o.effect == Mine(SEAM, o.effect.amount);
    GatherLawful(e, w, u, TICK_SECONDS);
    assert Feasible(w, o);
    assert Drift(w, u, o, kind) == Turned(u, RAW_GOLD, kind);
    assert Bystanders.Deliberated(e, w, MINER, false, TICK_SECONDS) == w;
    hide DecideGather, Decide, Drift, Bystanders.Deliberated;
  }

  /**
   That kinds are conserved fails: a worker with five wood that is ordered to a gold field makes them
   five gold in its first frame there, and the room has five wood less and five gold more.
   */
  lemma WoodTurnsToGold(e: Env)
    requires IsNorm(e.len) && Enumerates(e.enum)
    ensures var w, v := Quarry(e), Run(Quarry(e), [Input(e, [HARVEST])]);
            && WellFormed(w) && Economy.Wealth(w) < U32 && !RunPure(w, [Input(e, [HARVEST])])
            && KindWealth(v, Wood) == KindWealth(w, Wood) - 5 && KindWealth(v, Gold) == KindWealth(w, Gold) + 5
  {
    hide Quarry, Bystanders.Commanded, Dispatched, TurnDrift, WellFormed, Economy.Wealth, KindWealth,
         RunPure, Run, IsNorm, StepDrift;
    var w, inputs := Quarry(e), [Input(e, [HARVEST])];
    QuarryFacts(e);
    QuarryDrift(e, Wood);
    QuarryDrift(e, Gold);
    RunKinds(w, inputs, Wood);
    RunKinds(w, inputs, Gold);
  }

  lemma QuarryDrift(e: Env, kind: Resource)
    requires IsNorm(e.len) && Enumerates(e.enum)
    ensures RunDrift(Quarry(e), [Input(e, [HARVEST])], kind)
            == (if kind == Gold then 5 else if kind == Wood then -5 else 0)
  {
    hide Quarry, Bystanders.Commanded, Dispatched, TurnDrift, IsNorm;
    var inputs := [Input(e, [HARVEST])];
    assert inputs[..0] == [];
    CommandSendsMiner(e);
    var v := Bystanders.Commanded(Quarry(e), inputs[0]);
    var ids := e.enum(v.units.Keys);
    assert IsEnumeration(ids, v.units.Keys);
    OnlyOne(ids, v.units.Keys);
    assert ids[..0] == [];
    MinerTurn(e, NextScan(v), kind);
    assert !ScanDue(NextScan(v));
    assert TurnsDrift(e, NextScan(v), ids[..0], false, TICK_SECONDS, kind) == 0;
    assert TurnsDrift(e, NextScan(v), ids, false, TICK_SECONDS, kind)
           == TurnDrift(e, NextScan(v), MINER, false, TICK_SECONDS, kind);
    assert Run(Quarry(e), []) == Quarry(e);
    assert RunDrift(Quarry(e), inputs, kind) == StepDrift(e, v, TICK_SECONDS, kind);
  }

  lemma OnlyOne(ids: seq<Id>, keys: set<Id>)
    requires IsEnumeration(ids, keys) && keys == {MINER}
    ensures ids == [MINER]
  {
    assert MINER in ids;
    assert ids[0] == ids[|ids| - 1];
  }
}
