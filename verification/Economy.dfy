/**
 Conservation of resources: what lies in fields and drops, what units carry, what players own,
 and what has left play (spent, buried with dead units, deposited without a ledger) always adds
 up to the same total.
 */
module Economy {
  import opened Entities
  import opened Simulation
  import opened Laws
  import Sums

  ghost function Loads(units: map<Id, Unit>): map<Id, nat> { map k | k in units :: units[k].carried }

  ghost function FieldAmounts(fields: map<Id, Field>): map<Id, nat> { map k | k in fields :: fields[k].amount }

  ghost function DropAmounts(drops: map<Id, Drop>): map<Id, nat> { map k | k in drops :: drops[k].amount }

  ghost function Holdings(ledgers: map<Uid, Ledger>): map<Uid, nat> { map k | k in ledgers :: ledgers[k].Sum() }

  ghost function Carried(w: World): nat { Sums.Sum(Loads(w.units)) }

  ghost function InFields(w: World): nat { Sums.Sum(FieldAmounts(w.fields)) }

  ghost function InDrops(w: World): nat { Sums.Sum(DropAmounts(w.drops)) }

  ghost function Owned(w: World): nat { Sums.Sum(Holdings(w.ledgers)) }

  /** Everything in play. */
  ghost function Stock(w: World): nat { Carried(w) + InFields(w) + InDrops(w) + Owned(w) }

  ghost function Gone(w: World): nat { w.audit.spent + w.audit.buried + w.audit.forfeited }

  ghost function Wealth(w: World): nat { Stock(w) + Gone(w) }

  /** While 32 bits hold the total, no ledger wraps and the total does not change. */
  ghost predicate Balanced(a: World, b: World) { Wealth(a) < U32 ==> Wealth(b) == Wealth(a) }

  // ---- single changes ----

  lemma TouchWealth(w: World, id: Id, u: Unit)
    requires id in w.units
    ensures Wealth(Touch(w, id, u)) + w.units[id].carried == Wealth(w) + u.carried
  {
    Sums.Put(Loads(w.units), id, u.carried);
    assert Loads(w.units[id := u]) == Loads(w.units)[id := u.carried];
  }

  lemma SpawnDropWealth(w: World, raw: nat, pos: Vec3, amount: nat)
    requires w.nextId !in w.drops
    ensures Wealth(SpawnDrop(w, raw, pos, amount)) == Wealth(w) + amount
  {
    var d := Drop(w.nextId, raw, pos, amount);
    Sums.Put(DropAmounts(w.drops), w.nextId, amount);
    assert DropAmounts(w.drops[w.nextId := d]) == DropAmounts(w.drops)[w.nextId := amount];
  }

  lemma MineFieldWealth(w: World, f: Id, n: nat)
    requires f in w.fields && n <= w.fields[f].amount
    ensures Wealth(MineField(w, f, n)) + n == Wealth(w)
  {
    hide Sums.Sum;
    var m, left := FieldAmounts(w.fields), w.fields[f].amount - n;
    Sums.Split(m, f);
    if left == 0 {
      assert FieldAmounts(w.fields - {f}) == m - {f};
    } else {
      Sums.Put(m, f, left);
      assert FieldAmounts(w.fields[f := w.fields[f].(amount := left)]) == m[f := left];
    }
  }

  lemma TakeDropWealth(w: World, d: Id, n: nat)
    requires d in w.drops && n <= w.drops[d].amount
    ensures Wealth(TakeDrop(w, d, n)) + n == Wealth(w)
  {
    hide Sums.Sum;
    var m, left := DropAmounts(w.drops), w.drops[d].amount - n;
    Sums.Split(m, d);
    if left == 0 {
      assert DropAmounts(w.drops - {d}) == m - {d};
    } else {
      Sums.Put(m, d, left);
      assert DropAmounts(w.drops[d := w.drops[d].(amount := left)]) == m[d := left];
    }
  }

  lemma LedgerWealth(w: World, owner: Uid, l: Ledger)
    requires owner in w.ledgers
    ensures Owned(w) >= w.ledgers[owner].Sum()
    ensures Sums.Sum(Holdings(w.ledgers[owner := l])) + w.ledgers[owner].Sum() == Owned(w) + l.Sum()
  {
    var m := Holdings(w.ledgers);
    Sums.Split(m, owner);
    Sums.Put(m, owner, l.Sum());
    assert Holdings(w.ledgers[owner := l]) == m[owner := l.Sum()];
  }

  lemma AddExact(l: Ledger, r: Resource, amount: nat)
    requires l.Sum() + amount < U32
    ensures l.Add(r, amount).Sum() == l.Sum() + if r == Nothing then 0 else amount
  {}

  lemma PayExact(l: Ledger, cost: Cost)
    requires l.CanAfford(cost) && l.Sum() < U32
    ensures l.Pay(cost).Sum() + cost.Sum() == l.Sum()
  {
    SubExact(l.food, cost.food);
    SubExact(l.wood, cost.wood);
    SubExact(l.gold, cost.gold);
    hide Sub32;
  }

  lemma SubExact(a: nat, b: nat)
    requires b <= a < U32
    ensures Sub32(a, b) == a - b
  {}

  lemma CreditWealth(w: World, owner: Uid, raw: nat, amount: nat)
    requires Wealth(w) + amount < U32
    ensures Wealth(Credit(w, owner, raw, amount)) == Wealth(w) + amount
  {
    hide Sums.Sum, Holdings;
    if owner in w.ledgers {
      LedgerWealth(w, owner, w.ledgers[owner].Add(ResourceOf(raw), amount));
      AddExact(w.ledgers[owner], ResourceOf(raw), amount);
      hide ResourceOf, Ledger.Add, Ledger.Sum;
    }
  }

  lemma PayWealth(w: World, owner: Uid, cost: Cost)
    requires owner in w.ledgers && w.ledgers[owner].CanAfford(cost) && Wealth(w) < U32
    ensures Wealth(Pay(w, owner, cost)) == Wealth(w)
  {
    hide Sums.Sum, Holdings;
    LedgerWealth(w, owner, w.ledgers[owner].Pay(cost));
    PayExact(w.ledgers[owner], cost);
    hide Ledger.Pay, Ledger.Sum;
  }

  lemma SpawnUnitWealth(w: World, u: Unit)
    requires w.nextId !in w.units
    ensures Wealth(SpawnUnit(w, u)) == Wealth(w) + u.carried
  {
    Sums.Put(Loads(w.units), w.nextId, u.carried);
    assert Loads(w.units[w.nextId := u]) == Loads(w.units)[w.nextId := u.carried];
  }

  lemma SweepUnitWealth(w: World, id: Id)
    ensures Wealth(SweepUnit(w, id)) == Wealth(w)
  {
    if id in w.units && w.units[id].hp <= 0.0 {
      Sums.Split(Loads(w.units), id);
      assert Loads(w.units - {id}) == Loads(w.units) - {id};
    }
  }

  lemma CoolWealth(w: World, id: Id, dt: real)
    requires id in w.units
    ensures Wealth(Cool(w, id, dt)) == Wealth(w)
  {
    assert Loads(Cool(w, id, dt).units) == Loads(w.units);
  }

  lemma TouchSiteWealth(w: World, id: Id, b: Building)
    ensures Wealth(TouchSite(w, id, b)) == Wealth(w)
  {}

  lemma HurtWealth(w: World, v: Id)
    ensures v in w.units ==> Wealth(HurtUnit(w, v)) == Wealth(w)
    ensures v in w.buildings ==> Wealth(HurtBuilding(w, v)) == Wealth(w)
  {
    if v in w.units { TouchWealth(w, v, w.units[v].(hp := Wound(w.units[v].hp))); }
    if v in w.buildings { TouchSiteWealth(w, v, w.buildings[v].(hp := Wound(w.buildings[v].hp))); }
    hide Wealth, Touch, TouchSite;
  }

  /** A lawful outcome only moves resources from one place to another. */
  lemma CommitBalanced(w: World, o: Outcome)
    requires Feasible(w, o) && EffectOk(w, w.units[o.unit.id], o)
    requires w.nextId !in w.drops
    ensures Balanced(w, Commit(w, o))
  {
    hide Wealth, Raised, HurtUnit, HurtBuilding, Credit, MineField, TakeDrop, SpawnDrop;
    if Wealth(w) < U32 {
      var w1 := Touch(w, o.unit.id, o.unit);
      TouchWealth(w, o.unit.id, o.unit);
      match o.effect
      case NoEffect =>
      case Shed(raw, n) => SpawnDropWealth(w1, raw, o.unit.pos, n);
      case HitUnit(v) => HurtWealth(w1, v);
      case HitBuilding(v) => HurtWealth(w1, v);
      case Mine(f, n) => MineFieldWealth(w1, f, n);
      case Deposit(raw, n) => CreditWealth(w1, o.unit.owner, raw, n);
      case Take(d, n) => TakeDropWealth(w1, d, n);
      case Raise(s, gain) => TouchSiteWealth(w1, s, Raised(w1.buildings[s], gain));
    }
  }
}
