/**
 What every part of a frame does to a room, whatever the commands, the iteration order and the
 trigonometry: it keeps the room well formed, and the room Evolves (Tracked, Balanced and
 Persistent). Each change is checked once; a frame is a chain of changes.
 */
module Evolution {
  import opened Entities
  import opened Simulation
  import opened Laws
  import opened Tracking
  import Economy

  /** What an entity keeps for life; hit points only go down, except while a building is a site. */
  ghost predicate Persistent(a: World, b: World) {
    && b.players == a.players && b.battle == a.battle
    && a.audit.spent <= b.audit.spent && a.audit.buried <= b.audit.buried && a.audit.forfeited <= b.audit.forfeited
    && (forall k | k in a.units && k in b.units :: SameLife(a.units[k], b.units[k]))
    && (forall k | k in a.buildings && k in b.buildings :: SameBuilding(a.buildings[k], b.buildings[k]))
    && (forall k | k in b.buildings && k !in a.buildings :: b.buildings[k].buildingType != CRYSTAL)
  }

  ghost predicate SameLife(u: Unit, v: Unit) {
    v.owner == u.owner && v.team == u.team && v.unitType == u.unitType && v.speed == u.speed && v.hp <= u.hp
  }

  ghost predicate SameBuilding(b: Building, c: Building) {
    && c.owner == b.owner && c.team == b.team && c.buildingType == b.buildingType && c.pos == b.pos
    && c.yaw == b.yaw && c.maxHp == b.maxHp
    && (!b.underConstruction ==> !c.underConstruction && c.hp <= b.hp && c.percent == b.percent)
  }

  ghost predicate Evolves(a: World, b: World) {
    Tracked(a, b) && Persistent(a, b) && Economy.Balanced(a, b)
  }

  lemma EvolvesRefl(a: World)
    ensures Evolves(a, a)
  {
    TrackedRefl(a);
  }

  lemma EvolvesTrans(a: World, b: World, c: World)
    requires WellFormed(a) && Evolves(a, b) && Evolves(b, c)
    ensures Evolves(a, c)
  {
    TrackedTrans(a, b, c);
    PersistentTrans(a, b, c);
    hide Tracked, Persistent, Economy.Wealth;
  }

  lemma PersistentTrans(a: World, b: World, c: World)
    requires WellFormed(a) && Tracked(a, b) && Tracked(b, c) && Persistent(a, b) && Persistent(b, c)
    ensures Persistent(a, c)
  {
    forall k | k in a.units && k in c.units ensures SameLife(a.units[k], c.units[k]) {
      assert k < b.nextId;
      assert k in b.units;
    }
    forall k | k in a.buildings && k in c.buildings ensures SameBuilding(a.buildings[k], c.buildings[k]) {
      assert k < b.nextId;
      assert k in b.buildings;
    }
    forall k | k in c.buildings && k !in a.buildings ensures c.buildings[k].buildingType != CRYSTAL {
      if k in b.buildings { assert SameBuilding(b.buildings[k], c.buildings[k]); }
    }
    hide WellFormed;
  }

  // ---- single changes keep a room well formed ----

  lemma TouchWellFormed(w: World, id: Id, u: Unit)
    requires WellFormed(w) && id in w.units && u.id == id && UnitOk(u)
    ensures WellFormed(Touch(w, id, u))
  {}

  lemma TouchSiteWellFormed(w: World, id: Id, b: Building)
    requires WellFormed(w) && id in w.buildings && b.id == id && SiteOk(b)
    ensures WellFormed(TouchSite(w, id, b))
  {}

  lemma SpawnDropWellFormed(w: World, raw: nat, pos: Vec3, amount: nat)
    requires WellFormed(w)
    ensures WellFormed(SpawnDrop(w, raw, pos, amount))
  {}

  lemma SpawnUnitWellFormed(w: World, u: Unit)
    requires WellFormed(w) && u.id == w.nextId && UnitOk(u)
    ensures WellFormed(SpawnUnit(w, u))
  {}

  lemma SpawnBuildingWellFormed(w: World, b: Building)
    requires WellFormed(w) && b.id == w.nextId && SiteOk(b)
    ensures WellFormed(SpawnBuilding(w, b))
  {}

  /** Fields and drops may change or go as long as the remaining ones keep their ids. */
  lemma ResourcesWellFormed(w: World, v: World)
    requires WellFormed(w) && v.units == w.units && v.buildings == w.buildings && v.nextId == w.nextId
    requires forall k | k in v.fields :: k in w.fields && v.fields[k].id == k
    requires forall k | k in v.drops :: k in w.drops && v.drops[k].id == k
    ensures WellFormed(v)
  {
    hide UnitOk, SiteOk;
  }

  lemma MineFieldWellFormed(w: World, f: Id, n: nat)
    requires WellFormed(w) && f in w.fields && n <= w.fields[f].amount
    ensures WellFormed(MineField(w, f, n))
  {
    hide Remove;
    ResourcesWellFormed(w, MineField(w, f, n));
    hide WellFormed;
  }

  lemma TakeDropWellFormed(w: World, d: Id, n: nat)
    requires WellFormed(w) && d in w.drops && n <= w.drops[d].amount
    ensures WellFormed(TakeDrop(w, d, n))
  {
    hide Remove;
    ResourcesWellFormed(w, TakeDrop(w, d, n));
    hide WellFormed;
  }

  lemma CreditWellFormed(w: World, owner: Uid, raw: nat, amount: nat)
    requires WellFormed(w)
    ensures WellFormed(Credit(w, owner, raw, amount))
  {}

  lemma SweepWellFormed(w: World, id: Id)
    requires WellFormed(w)
    ensures WellFormed(SweepUnit(w, id)) && WellFormed(SweepBuilding(w, id))
  {
    hide UnitOk, SiteOk, Remove;
  }

  // ---- carrying out an outcome ----

  lemma HurtUnitWellFormed(w: World, v: Id)
    requires WellFormed(w) && v in w.units
    ensures WellFormed(HurtUnit(w, v))
  {
    assert UnitOk(w.units[v].(hp := Wound(w.units[v].hp)));
    TouchWellFormed(w, v, w.units[v].(hp := Wound(w.units[v].hp)));
  }

  lemma HurtBuildingWellFormed(w: World, v: Id)
    requires WellFormed(w) && v in w.buildings
    ensures WellFormed(HurtBuilding(w, v))
  {
    assert SiteOk(w.buildings[v].(hp := Wound(w.buildings[v].hp)));
    TouchSiteWellFormed(w, v, w.buildings[v].(hp := Wound(w.buildings[v].hp)));
  }

  lemma RaiseSiteWellFormed(w: World, s: Id, gain: real)
    requires WellFormed(w) && s in w.buildings
    ensures WellFormed(RaiseSite(w, s, gain))
  {
    assert SiteOk(Raised(w.buildings[s], gain));
    TouchSiteWellFormed(w, s, Raised(w.buildings[s], gain));
  }

  lemma CommitWellFormed(w: World, o: Outcome)
    requires WellFormed(w) && Feasible(w, o) && UnitOk(o.unit)
    ensures WellFormed(Commit(w, o))
  {
    hide WellFormed, UnitOk, HurtUnit, HurtBuilding, RaiseSite, MineField, TakeDrop, SpawnDrop, Credit;
    var w1 := Touch(w, o.unit.id, o.unit);
    TouchWellFormed(w, o.unit.id, o.unit);
    match o.effect
    case NoEffect =>
    case Shed(raw, n) => SpawnDropWellFormed(w1, raw, o.unit.pos, n);
    case HitUnit(v) => HurtUnitWellFormed(w1, v);
    case HitBuilding(v) => HurtBuildingWellFormed(w1, v);
    case Mine(f, n) => MineFieldWellFormed(w1, f, n);
    case Deposit(raw, n) => CreditWellFormed(w1, o.unit.owner, raw, n);
    case Take(d, n) => TakeDropWellFormed(w1, d, n);
    case Raise(s, gain) => RaiseSiteWellFormed(w1, s, gain);
  }

  lemma CommitTracked(w: World, o: Outcome)
    requires WellFormed(w) && Feasible(w, o) && UnitOk(o.unit)
    ensures Tracked(w, Commit(w, o))
  {
    hide Tracked, WellFormed, UnitOk, HurtUnit, HurtBuilding, RaiseSite, MineField, TakeDrop, SpawnDrop, Credit;
    var w1 := Touch(w, o.unit.id, o.unit);
    TouchWellFormed(w, o.unit.id, o.unit);
    TouchTracked(w, o.unit.id, o.unit);
    TrackedRefl(w1);
    match o.effect {
      case NoEffect =>
      case Shed(raw, n) => SpawnDropTracked(w1, raw, o.unit.pos, n);
      case HitUnit(v) => HurtTracked(w1, v);
      case HitBuilding(v) => HurtTracked(w1, v);
      case Mine(f, n) => MineFieldTracked(w1, f, n);
      case Deposit(raw, n) => CreditTracked(w1, o.unit.owner, raw, n);
      case Take(d, n) => TakeDropTracked(w1, d, n);
      case Raise(s, gain) => RaiseTracked(w1, s, gain);
    }
    TrackedTrans(w, w1, Commit(w, o));
  }

  lemma HurtTracked(w: World, v: Id)
    ensures v in w.units ==> Tracked(w, HurtUnit(w, v))
    ensures v in w.buildings ==> Tracked(w, HurtBuilding(w, v))
  {
    if v in w.units { TouchTracked(w, v, w.units[v].(hp := Wound(w.units[v].hp))); }
    if v in w.buildings { TouchSiteTracked(w, v, w.buildings[v].(hp := Wound(w.buildings[v].hp))); }
    hide Tracked, Touch, TouchSite;
  }

  lemma RaiseTracked(w: World, s: Id, gain: real)
    requires s in w.buildings
    ensures Tracked(w, RaiseSite(w, s, gain))
  {
    TouchSiteTracked(w, s, Raised(w.buildings[s], gain));
  }

  lemma PersistentChain(a: World, b: World, c: World)
    requires a.units.Keys == b.units.Keys && a.buildings.Keys == b.buildings.Keys
    requires Persistent(a, b) && Persistent(b, c)
    ensures Persistent(a, c)
  {
    forall k | k in a.units && k in c.units ensures SameLife(a.units[k], c.units[k]) {
      assert k in b.units;
    }
    forall k | k in a.buildings && k in c.buildings ensures SameBuilding(a.buildings[k], c.buildings[k]) {
      assert k in b.buildings;
    }
  }

  lemma KeepPersistent(a: World, b: World)
    requires b.units == a.units && b.buildings == a.buildings && b.players == a.players && b.battle == a.battle
    requires a.audit.spent <= b.audit.spent && a.audit.buried <= b.audit.buried
    requires a.audit.forfeited <= b.audit.forfeited
    ensures Persistent(a, b)
  {}

  lemma TouchPersistent(w: World, id: Id, u: Unit)
    requires id in w.units && SameLife(w.units[id], u)
    ensures Persistent(w, Touch(w, id, u))
  {}

  lemma TouchSitePersistent(w: World, id: Id, b: Building)
    requires id in w.buildings && SameBuilding(w.buildings[id], b)
    ensures Persistent(w, TouchSite(w, id, b))
  {}

  /** The target of a hit is alive, and only an unfinished building is raised. */
  ghost predicate HitsTheLiving(w: World, o: Outcome) {
    match o.effect
    case HitUnit(v) => v in w.units ==> w.units[v].hp > 0.0
    case HitBuilding(v) => v in w.buildings ==> w.buildings[v].hp > 0.0
    case Raise(s, _) => s in w.buildings ==> w.buildings[s].underConstruction
    case _ => true
  }

  lemma HurtPersistent(w: World, v: Id)
    ensures v in w.units && w.units[v].hp > 0.0 ==> Persistent(w, HurtUnit(w, v))
    ensures v in w.buildings && w.buildings[v].hp > 0.0 ==> Persistent(w, HurtBuilding(w, v))
  {
    hide Persistent;
    if v in w.units && w.units[v].hp > 0.0 {
      TouchPersistent(w, v, w.units[v].(hp := Wound(w.units[v].hp)));
    }
    if v in w.buildings && w.buildings[v].hp > 0.0 {
      TouchSitePersistent(w, v, w.buildings[v].(hp := Wound(w.buildings[v].hp)));
    }
  }

  lemma RaisePersistent(w: World, s: Id, gain: real)
    requires s in w.buildings && w.buildings[s].underConstruction
    ensures Persistent(w, RaiseSite(w, s, gain))
  {
    TouchSitePersistent(w, s, Raised(w.buildings[s], gain));
  }

  /** Effects on resources leave units and buildings alone. */
  lemma ResourcesPersistent(w: World, o: Outcome)
    requires Feasible(w, o)
    ensures match o.effect
            case Shed(raw, n) => Persistent(w, SpawnDrop(w, raw, o.unit.pos, n))
            case Mine(f, n) => Persistent(w, MineField(w, f, n))
            case Deposit(raw, n) => Persistent(w, Credit(w, o.unit.owner, raw, n))
            case Take(d, n) => Persistent(w, TakeDrop(w, d, n))
            case _ => Persistent(w, w)
  {
    hide Persistent;
    match o.effect
    case Shed(raw, n) => KeepPersistent(w, SpawnDrop(w, raw, o.unit.pos, n));
    case Mine(f, n) => KeepPersistent(w, MineField(w, f, n));
    case Deposit(raw, n) => KeepPersistent(w, Credit(w, o.unit.owner, raw, n));
    case Take(d, n) => KeepPersistent(w, TakeDrop(w, d, n));
    case _ => KeepPersistent(w, w);
  }

  lemma CommitPersistent(w: World, o: Outcome)
    requires Feasible(w, o) && SameLife(w.units[o.unit.id], o.unit) && HitsTheLiving(w, o)
    requires o.effect.HitUnit? ==> o.effect.victim != o.unit.id
    ensures Persistent(w, Commit(w, o))
  {
    hide Persistent, HurtUnit, HurtBuilding, RaiseSite, MineField, TakeDrop, SpawnDrop, Credit;
    var w1 := Touch(w, o.unit.id, o.unit);
    TouchPersistent(w, o.unit.id, o.unit);
    CommitKeys(w, o);
    match o.effect {
      case HitUnit(v) => HurtPersistent(w1, v);
      case HitBuilding(v) => HurtPersistent(w1, v);
      case Raise(s, gain) => RaisePersistent(w1, s, gain);
      case _ => ResourcesPersistent(w1, o);
    }
    PersistentChain(w, w1, Commit(w, o));
  }

  lemma CommitKeys(w: World, o: Outcome)
    requires Feasible(w, o)
    ensures Touch(w, o.unit.id, o.unit).units.Keys == w.units.Keys
    ensures Touch(w, o.unit.id, o.unit).buildings.Keys == w.buildings.Keys
  {}

  lemma CommitEvolves(w: World, o: Outcome)
    requires WellFormed(w) && o.unit.id in w.units && Lawful(w, w.units[o.unit.id], o)
    ensures WellFormed(Commit(w, o)) && Evolves(w, Commit(w, o))
  {
    CommitWellFormed(w, o);
    CommitTracked(w, o);
    assert SameLife(w.units[o.unit.id], o.unit);
    CommitPersistent(w, o);
    Economy.CommitBalanced(w, o);
    hide Commit, Tracked, Persistent, Economy.Balanced;
  }

  // ---- a unit's turn ----

  /** The guarantee every part of a frame gives. */
  ghost predicate Keeps(a: World, b: World) { WellFormed(b) && Evolves(a, b) }

  lemma KeepsTrans(a: World, b: World, c: World)
    requires WellFormed(a) && Keeps(a, b) && Keeps(b, c)
    ensures Keeps(a, c)
  {
    EvolvesTrans(a, b, c);
  }

  lemma KeepsRefl(a: World)
    requires WellFormed(a)
    ensures Keeps(a, a)
  {
    EvolvesRefl(a);
  }

  lemma UnitFacts(w: World, id: Id)
    requires WellFormed(w) && id in w.units
    ensures w.units[id].id == id && UnitOk(w.units[id]) && 0 < id < w.nextId
  {}

  lemma CoolWellFormed(w: World, id: Id, dt: real)
    requires WellFormed(w) && id in w.units
    ensures WellFormed(Cool(w, id, dt))
  {}

  lemma CoolPersistent(w: World, id: Id, dt: real)
    requires id in w.units
    ensures Persistent(w, Cool(w, id, dt))
  {}

  lemma CoolKeeps(w: World, id: Id, dt: real)
    requires WellFormed(w) && id in w.units
    ensures Keeps(w, Cool(w, id, dt)) && id in Cool(w, id, dt).units
  {
    hide Tracked, Economy.Wealth, WellFormed, Persistent, CoolDown;
    CoolWellFormed(w, id, dt);
    CoolTracked(w, id, dt);
    CoolPersistent(w, id, dt);
    Economy.CoolWealth(w, id, dt);
  }

  lemma SettleKeeps(w: World, id: Id, r: Reaction)
    requires WellFormed(w) && id in w.units
    requires r.React? ==> Lawful(w, w.units[id], r.outcome)
    ensures Keeps(w, Settle(w, r))
    ensures Settle(w, r).units.Keys == w.units.Keys
  {
    KeepsRefl(w);
    if r.React? {
      assert r.outcome.unit.id == id && w.units[id].id == id;
      CommitEvolves(w, r.outcome);
      CommitSameUnits(w, r.outcome);
    }
    hide Keeps, Lawful, WellFormed, Commit;
  }

  lemma CommitSameUnits(w: World, o: Outcome)
    requires Feasible(w, o)
    ensures Commit(w, o).units.Keys == w.units.Keys
  {
    hide Touch, HurtUnit, HurtBuilding, RaiseSite, MineField, TakeDrop, SpawnDrop, Credit;
    var w1 := Touch(w, o.unit.id, o.unit);
    TouchOwn(w, o.unit.id, o.unit);
    match o.effect
    case NoEffect =>
    case Shed(raw, n) => SpawnDropUnits(w1, raw, o.unit.pos, n);
    case HitUnit(v) => HurtUnits(w1, v);
    case HitBuilding(v) => SitesUnits(w1, v, 0.0);
    case Mine(f, n) => MineFieldUnits(w1, f, n);
    case Deposit(raw, n) => CreditUnits(w1, o.unit.owner, raw, n);
    case Take(d, n) => TakeDropUnits(w1, d, n);
    case Raise(s, gain) => SitesUnits(w1, s, gain);
  }

  lemma TouchOwn(w: World, id: Id, u: Unit)
    ensures Touch(w, id, u).units == w.units[id := u] && Touch(w, id, u).buildings == w.buildings
    ensures Touch(w, id, u).fields == w.fields && Touch(w, id, u).drops == w.drops
  {}

  lemma HurtUnits(w: World, v: Id)
    requires v in w.units
    ensures HurtUnit(w, v).units == w.units[v := w.units[v].(hp := Wound(w.units[v].hp))]
  {}

  lemma SpawnDropUnits(w: World, raw: nat, pos: Vec3, n: nat)
    ensures SpawnDrop(w, raw, pos, n).units == w.units
  {}

  lemma SitesUnits(w: World, s: Id, gain: real)
    requires s in w.buildings
    ensures HurtBuilding(w, s).units == w.units && RaiseSite(w, s, gain).units == w.units
  {}

  lemma MineFieldUnits(w: World, f: Id, n: nat)
    requires f in w.fields && n <= w.fields[f].amount
    ensures MineField(w, f, n).units == w.units
  {}

  lemma CreditUnits(w: World, owner: Uid, raw: nat, n: nat)
    ensures Credit(w, owner, raw, n).units == w.units
  {}

  lemma TakeDropUnits(w: World, d: Id, n: nat)
    requires d in w.drops && n <= w.drops[d].amount
    ensures TakeDrop(w, d, n).units == w.units
  {}

  lemma AlertKeeps(e: Env, w: World, id: Id)
    requires WellFormed(w) && id in w.units
    ensures Keeps(w, Settle(w, Alert(e, w, w.units[id])))
    ensures Settle(w, Alert(e, w, w.units[id])).units.Keys == w.units.Keys
  {
    hide WellFormed, Keeps, Lawful, Alert, Settle, UnitOk;
    UnitFacts(w, id);
    AlertLawful(e, w, w.units[id]);
    SettleKeeps(w, id, Alert(e, w, w.units[id]));
  }

  lemma DecideKeeps(e: Env, w: World, id: Id, dt: real)
    requires WellFormed(w) && id in w.units
    ensures Keeps(w, Settle(w, Decide(e, w, w.units[id], dt)))
    ensures Settle(w, Decide(e, w, w.units[id], dt)).units.Keys == w.units.Keys
  {
    hide WellFormed, Keeps, Lawful, Decide, Settle, UnitOk;
    UnitFacts(w, id);
    DecideLawful(e, w, w.units[id], dt);
    SettleKeeps(w, id, Decide(e, w, w.units[id], dt));
  }

  lemma TurnKeeps(e: Env, w: World, id: Id, scan: bool, dt: real)
    requires WellFormed(w)
    ensures Keeps(w, Turn(e, w, id, scan, dt))
    ensures Turn(e, w, id, scan, dt).units.Keys == w.units.Keys
  {
    hide Evolves, WellFormed, Alert, Decide, Settle;
    KeepsRefl(w);
    if id in w.units && w.units[id].hp > 0.0 {
      var w1 := Cool(w, id, dt);
      CoolKeeps(w, id, dt);
      KeepsRefl(w1);
      AlertKeeps(e, w1, id);
      var w2 := if scan then Settle(w1, Alert(e, w1, w1.units[id])) else w1;
      KeepsTrans(w, w1, w2);
      DecideKeeps(e, w2, id, dt);
      KeepsTrans(w, w2, Settle(w2, Decide(e, w2, w2.units[id], dt)));
    }
  }

  lemma {:induction false} TurnsKeeps(e: Env, w: World, ids: seq<Id>, scan: bool, dt: real)
    requires WellFormed(w)
    ensures Keeps(w, Turns(e, w, ids, scan, dt))
    ensures Turns(e, w, ids, scan, dt).units.Keys == w.units.Keys
  {
    hide Evolves, WellFormed, Turn;
    if ids == [] {
      KeepsRefl(w);
    } else {
      var mid := Turns(e, w, ids[..|ids| - 1], scan, dt);
      TurnsKeeps(e, w, ids[..|ids| - 1], scan, dt);
      TurnKeeps(e, mid, ids[|ids| - 1], scan, dt);
      KeepsTrans(w, mid, Turns(e, w, ids, scan, dt));
    }
  }

  // ---- training and the dead ----

  lemma TrainKeeps(e: Env, w: World, id: Id, dt: real)
    requires WellFormed(w)
    ensures Keeps(w, Train(e, w, id, dt))
    ensures Train(e, w, id, dt).buildings.Keys == w.buildings.Keys
  {
    hide Tracked, WellFormed, Persistent, Economy.Balanced, Recruit;
    KeepsRefl(w);
    if id in w.buildings && w.buildings[id].queue != [] && !w.buildings[id].underConstruction {
      var b := w.buildings[id];
      var left := b.queue[0].remaining - dt;
      SiteFacts(w, id);
      if left <= 0.0 {
        RecruitOk(e, b, w.nextId);
        SpawnUnitKeeps(w, Recruit(e, b, w.nextId));
        var w1 := SpawnUnit(w, Recruit(e, b, w.nextId));
        QueueKeeps(w1, id, b.queue[1..]);
        KeepsTrans(w, w1, Train(e, w, id, dt));
      } else {
        QueueKeeps(w, id, b.queue[0 := b.queue[0].(remaining := left)]);
      }
    }
  }

  lemma RecruitOk(e: Env, b: Building, id: Id)
    requires b.queue != []
    ensures var u := Recruit(e, b, id); u.id == id && UnitOk(u) && u.carried == 0
  {}

  lemma SiteFacts(w: World, id: Id)
    requires WellFormed(w) && id in w.buildings
    ensures w.buildings[id].id == id && SiteOk(w.buildings[id])
  {}

  lemma SpawnUnitKeeps(w: World, u: Unit)
    requires WellFormed(w) && u.id == w.nextId && UnitOk(u) && u.carried == 0
    ensures Keeps(w, SpawnUnit(w, u))
  {
    SpawnUnitWellFormed(w, u);
    SpawnUnitTracked(w, u);
    Economy.SpawnUnitWealth(w, u);
    SpawnUnitPersistent(w, u);
    hide Tracked, Economy.Wealth, Persistent;
  }

  lemma SpawnUnitPersistent(w: World, u: Unit)
    requires WellFormed(w)
    ensures Persistent(w, SpawnUnit(w, u))
  {}

  lemma QueueKeeps(w: World, id: Id, queue: seq<TrainItem>)
    requires WellFormed(w) && id in w.buildings && !w.buildings[id].underConstruction
    ensures Keeps(w, TouchSite(w, id, w.buildings[id].(queue := queue)))
  {
    hide Tracked, WellFormed, Persistent, Economy.Wealth;
    var b := w.buildings[id].(queue := queue);
    SiteFacts(w, id);
    TouchSiteWellFormed(w, id, b);
    TouchSiteTracked(w, id, b);
    TouchSitePersistent(w, id, b);
    Economy.TouchSiteWealth(w, id, b);
  }

  lemma {:induction false} TrainingsKeeps(e: Env, w: World, ids: seq<Id>, dt: real)
    requires WellFormed(w)
    ensures Keeps(w, Trainings(e, w, ids, dt))
  {
    hide Evolves, WellFormed, Train;
    if ids == [] {
      KeepsRefl(w);
    } else {
      var mid := Trainings(e, w, ids[..|ids| - 1], dt);
      TrainingsKeeps(e, w, ids[..|ids| - 1], dt);
      TrainKeeps(e, mid, ids[|ids| - 1], dt);
      KeepsTrans(w, mid, Trainings(e, w, ids, dt));
    }
  }

  lemma SweepPersistent(w: World, id: Id)
    ensures Persistent(w, SweepUnit(w, id)) && Persistent(w, SweepBuilding(w, id))
  {
    hide Remove;
  }

  lemma SweepKeeps(w: World, id: Id)
    requires WellFormed(w)
    ensures Keeps(w, SweepUnit(w, id)) && Keeps(w, SweepBuilding(w, id))
  {
    SweepWellFormed(w, id);
    SweepUnitTracked(w, id);
    SweepBuildingTracked(w, id);
    SweepPersistent(w, id);
    Economy.SweepUnitWealth(w, id);
    SweepBuildingWealth(w, id);
    hide Tracked, Economy.Wealth, Persistent, SweepUnit, SweepBuilding, WellFormed;
  }

  lemma SweepBuildingWealth(w: World, id: Id)
    ensures Economy.Wealth(SweepBuilding(w, id)) == Economy.Wealth(w)
  {}

  lemma {:induction false} SweepsKeeps(w: World, ids: seq<Id>)
    requires WellFormed(w)
    ensures Keeps(w, SweepUnits(w, ids)) && Keeps(w, SweepBuildings(w, ids))
  {
    hide Evolves, WellFormed, SweepUnit, SweepBuilding;
    if ids == [] {
      KeepsRefl(w);
    } else {
      var rest, id := ids[..|ids| - 1], ids[|ids| - 1];
      SweepsKeeps(w, rest);
      SweepKeeps(SweepUnits(w, rest), id);
      KeepsTrans(w, SweepUnits(w, rest), SweepUnits(w, ids));
      SweepKeeps(SweepBuildings(w, rest), id);
      KeepsTrans(w, SweepBuildings(w, rest), SweepBuildings(w, ids));
    }
  }

  /** The command queue, the refusals and the scan counter are not part of the guarantee. */
  lemma QueuesKeep(w: World, v: World)
    requires WellFormed(w) && v == w.(pending := v.pending, rejected := v.rejected, scanTick := v.scanTick)
    ensures Keeps(w, v)
  {
    QueuesTracked(w, v);
    QueuesPersistent(w, v);
    assert Economy.Wealth(v) == Economy.Wealth(w);
    assert WellFormed(v);
    hide Tracked, Persistent, Economy.Wealth, WellFormed;
  }

  lemma QueuesTracked(w: World, v: World)
    requires v == w.(pending := v.pending, rejected := v.rejected, scanTick := v.scanTick)
    ensures Tracked(w, v)
  {}

  lemma QueuesPersistent(w: World, v: World)
    requires v == w.(pending := v.pending, rejected := v.rejected, scanTick := v.scanTick)
    ensures Persistent(w, v)
  {}

  /** One step keeps a room well formed and evolves it, whatever the iteration order. */
  lemma StepKeeps(e: Env, w: World, dt: real)
    requires WellFormed(w)
    ensures Keeps(w, Step(e, w, dt))
  {
    hide Evolves, WellFormed;
    var w0 := NextScan(w);
    QueuesKeep(w, w0);
    var w1 := Turns(e, w0, e.enum(w0.units.Keys), ScanDue(w0), dt);
    TurnsKeeps(e, w0, e.enum(w0.units.Keys), ScanDue(w0), dt);
    KeepsTrans(w, w0, w1);
    var w2 := Trainings(e, w1, e.enum(w1.buildings.Keys), dt);
    TrainingsKeeps(e, w1, e.enum(w1.buildings.Keys), dt);
    KeepsTrans(w, w1, w2);
    var w3 := SweepUnits(w2, e.enum(w2.units.Keys));
    SweepsKeeps(w2, e.enum(w2.units.Keys));
    KeepsTrans(w, w2, w3);
    SweepsKeeps(w3, e.enum(w3.buildings.Keys));
    KeepsTrans(w, w3, Step(e, w, dt));
  }

  // ---- commands ----

  lemma {:induction false} GiveKeeps(e: Env, w: World, order: Order, ids: seq<Id>, n: nat)
    requires WellFormed(w) && OrderOk(order) && n <= |ids|
    ensures Keeps(w, Give(e, w, order, ids, n))
  {
    hide Evolves, WellFormed, Settle, Obey, OrderOk, Lawful, UnitOk;
    KeepsRefl(w);
    if n > 0 {
      var mid, id := Give(e, w, order, ids, n - 1), ids[n - 1];
      GiveKeeps(e, w, order, ids, n - 1);
      if id in mid.units {
        UnitFacts(mid, id);
        ObeyLawful(e, mid, order, n - 1, |ids|, mid.units[id]);
        SettleKeeps(mid, id, React(Obey(e, order, n - 1, |ids|, mid.units[id])));
        KeepsTrans(w, mid, Give(e, w, order, ids, n));
      }
    }
  }

  lemma PayKeeps(w: World, owner: Uid, cost: Cost)
    requires WellFormed(w) && owner in w.ledgers && w.ledgers[owner].CanAfford(cost)
    ensures Keeps(w, Pay(w, owner, cost))
  {
    hide Tracked, Economy.Wealth, Persistent, Ledger.CanAfford, Cost.Sum, Ledger.Pay;
    assert WellFormed(Pay(w, owner, cost));
    PayTracked(w, owner, cost);
    KeepPersistent(w, Pay(w, owner, cost));
    if Economy.Wealth(w) < U32 { Economy.PayWealth(w, owner, cost); }
    hide WellFormed;
  }

  lemma SpawnBuildingKeeps(w: World, b: Building)
    requires WellFormed(w) && b.id == w.nextId && SiteOk(b) && b.buildingType != CRYSTAL
    ensures Keeps(w, SpawnBuilding(w, b))
  {
    hide Tracked, Economy.Wealth, WellFormed;
    SpawnBuildingWellFormed(w, b);
    SpawnBuildingTracked(w, b);
    SpawnBuildingWealth(w, b);
    SpawnBuildingPersistent(w, b);
    hide Persistent;
  }

  lemma SpawnBuildingWealth(w: World, b: Building)
    ensures Economy.Wealth(SpawnBuilding(w, b)) == Economy.Wealth(w)
  {}

  lemma SpawnBuildingPersistent(w: World, b: Building)
    requires WellFormed(w) && b.buildingType != CRYSTAL
    ensures Persistent(w, SpawnBuilding(w, b))
  {}

  lemma BuildKeeps(e: Env, w: World, c: Command)
    requires WellFormed(w)
    ensures Keeps(w, ApplyBuild(e, w, c))
  {
    hide Evolves, WellFormed, Pay, SpawnBuilding, Give;
    match JudgeBuild(w, c)
    case Refused(reason) => QueuesKeep(w, Reject(w, c, reason));
    case Accepted =>
      PositiveId(w);
      var w1 := Pay(w, c.owner, BuildingCost(c.auxType));
      PayKeeps(w, c.owner, BuildingCost(c.auxType));
      assert w1.nextId == w.nextId by { PayNextId(w, c.owner, BuildingCost(c.auxType)); }
      var b := NewBuilding(w.nextId, c.owner, TeamOf(w, c.owner), c.auxType, c.target, c.yaw, true);
      var w2 := SpawnBuilding(w1, b);
      SpawnBuildingKeeps(w1, b);
      KeepsTrans(w, w1, w2);
      var ids := OwnedIds(w2, c.owner, c.unitIds);
      GiveKeeps(e, w2, Raising(w.nextId), ids, |ids|);
      KeepsTrans(w, w2, ApplyBuild(e, w, c));
  }

  lemma PositiveId(w: World)
    requires WellFormed(w)
    ensures 0 < w.nextId
  {}

  lemma PayNextId(w: World, owner: Uid, cost: Cost)
    requires owner in w.ledgers
    ensures Pay(w, owner, cost).nextId == w.nextId && Pay(w, owner, cost).buildings == w.buildings
    ensures Pay(w, owner, cost).players == w.players && Pay(w, owner, cost).units == w.units
  {}

  lemma TrainCommandKeeps(w: World, c: Command)
    requires WellFormed(w)
    ensures Keeps(w, ApplyTrain(w, c))
  {
    hide Evolves, WellFormed, Pay;
    match JudgeTrain(w, c)
    case Refused(reason) => QueuesKeep(w, Reject(w, c, reason));
    case Accepted =>
      var w1 := Pay(w, c.owner, UnitCost(c.auxType));
      PayKeeps(w, c.owner, UnitCost(c.auxType));
      PayNextId(w, c.owner, UnitCost(c.auxType));
      QueueKeeps(w1, c.targetEntity, w.buildings[c.targetEntity].queue + [TrainItem(c.auxType, TRAIN_TIME)]);
      KeepsTrans(w, w1, ApplyTrain(w, c));
  }

  lemma OrderOfOk(e: Env, w: World, c: Command)
    requires WellFormed(w) && Addressees(w, c) != []
    ensures OrderOk(OrderOf(e, w, c))
  {}

  lemma ApplyKeeps(e: Env, w: World, c: Command)
    requires WellFormed(w)
    ensures Keeps(w, Apply(e, w, c))
  {
    hide Evolves, WellFormed, ApplyBuild, ApplyTrain, Give, Addressees, OrderOf, OrderOk;
    BuildKeeps(e, w, c);
    TrainCommandKeeps(w, c);
    KeepsRefl(w);
    var ids := Addressees(w, c);
    if ids != [] {
      OrderOfOk(e, w, c);
      GiveKeeps(e, w, OrderOf(e, w, c), ids, |ids|);
    }
  }

  lemma {:induction false} ApplyAllKeeps(e: Env, w: World, cs: seq<Command>)
    requires WellFormed(w)
    ensures Keeps(w, ApplyAll(e, w, cs))
  {
    hide Evolves, WellFormed, Apply;
    if cs == [] {
      KeepsRefl(w);
    } else {
      var mid := ApplyAll(e, w, cs[..|cs| - 1]);
      ApplyAllKeeps(e, w, cs[..|cs| - 1]);
      ApplyKeeps(e, mid, cs[|cs| - 1]);
      KeepsTrans(w, mid, ApplyAll(e, w, cs));
    }
  }

  /** Any batch of commands keeps a room well formed and evolves it. */
  lemma PendingKeeps(e: Env, w: World)
    requires WellFormed(w)
    ensures Keeps(w, ApplyPending(e, w))
  {
    hide Evolves, WellFormed;
    ApplyAllKeeps(e, w, w.pending);
    QueuesKeep(ApplyAll(e, w, w.pending), ApplyPending(e, w));
    KeepsTrans(w, ApplyAll(e, w, w.pending), ApplyPending(e, w));
  }
}
