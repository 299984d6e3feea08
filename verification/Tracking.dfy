/**
 Change tracking: from any world to a later one of the same frame, everything a client can see
 is either unchanged or marked. The relation Tracked is transitive, so a whole frame is tracked
 once every single change is.
 */
module Tracking {
  import opened Entities
  import opened Simulation
  import opened Laws

  // ---- what a client sees (LogicShard.cc, Fill...Snapshot) ----

  datatype UnitView = UnitView(id: Id, team: nat, unitType: nat, pos: Vec3, yaw: real, hp: real,
                               state: UnitState, carried: nat, carriedRaw: nat)

  datatype SiteView = SiteView(id: Id, team: nat, buildingType: nat, pos: Vec3, yaw: real, hp: real, percent: real)

  function ViewUnit(u: Unit): UnitView {
    UnitView(u.id, u.team, u.unitType, u.pos, u.yaw, u.hp, u.state, u.carried, u.carriedRaw)
  }

  function ViewSite(b: Building): SiteView {
    SiteView(b.id, b.team, b.buildingType, b.pos, b.yaw, b.hp, b.percent)
  }

  // ---- the relation between two worlds of one frame ----

  /** New ids are fresh and recorded as spawned, lost ids as despawned; no record is forgotten. */
  ghost predicate Recorded(was: set<Id>, now: set<Id>, next: Id, next': Id,
                           spawned: seq<Id>, spawned': seq<Id>, despawned: seq<Id>, despawned': seq<Id>) {
    && (forall k | k in now && k !in was :: next <= k && k in spawned')
    && (forall k | k in was && k !in now :: k in despawned')
    && (forall k | k in spawned :: k in spawned')
    && (forall k | k in despawned :: k in despawned')
    && (forall k | k in despawned' && k !in despawned :: k !in now && k < next')
  }

  lemma RecordedGone(was: set<Id>, id: Id, next: Id, spawned: seq<Id>, despawned: seq<Id>)
    requires id < next
    ensures Recorded(was, was - {id}, next, next, spawned, spawned, despawned, despawned + [id])
  {}

  lemma RecordedTrans(s0: set<Id>, s1: set<Id>, s2: set<Id>, n0: Id, n1: Id, n2: Id,
                      spawned0: seq<Id>, spawned1: seq<Id>, spawned2: seq<Id>,
                      despawned0: seq<Id>, despawned1: seq<Id>, despawned2: seq<Id>)
    requires (forall k | k in s0 :: k < n0) && n0 <= n1 <= n2
    requires Recorded(s0, s1, n0, n1, spawned0, spawned1, despawned0, despawned1)
    requires Recorded(s1, s2, n1, n2, spawned1, spawned2, despawned1, despawned2)
    ensures Recorded(s0, s2, n0, n2, spawned0, spawned2, despawned0, despawned2)
  {}

  ghost predicate TrackedUnits(a: World, b: World) {
    && Recorded(a.units.Keys, b.units.Keys, a.nextId, b.nextId, a.marks.spawned, b.marks.spawned,
                a.marks.despawned, b.marks.despawned)
    && a.marks.dirty <= b.marks.dirty
    && (forall k | k in a.units && k in b.units ::
          k in b.marks.dirty || ViewUnit(b.units[k]) == ViewUnit(a.units[k]))
  }

  ghost predicate TrackedSites(a: World, b: World) {
    && Recorded(a.buildings.Keys, b.buildings.Keys, a.nextId, b.nextId, a.marks.siteSpawned, b.marks.siteSpawned,
                a.marks.siteDespawned, b.marks.siteDespawned)
    && a.marks.siteDirty <= b.marks.siteDirty
    && (forall k | k in a.buildings && k in b.buildings ::
          k in b.marks.siteDirty || ViewSite(b.buildings[k]) == ViewSite(a.buildings[k]))
  }

  /** Fields and drops carry no change mark: all that may change is that the amount goes down. */
  ghost predicate TrackedFields(a: World, b: World) {
    && Recorded(a.fields.Keys, b.fields.Keys, a.nextId, b.nextId, a.marks.fieldSpawned, b.marks.fieldSpawned,
                a.marks.fieldDespawned, b.marks.fieldDespawned)
    && (forall k | k in a.fields && k in b.fields ::
          b.fields[k] == a.fields[k].(amount := b.fields[k].amount) && b.fields[k].amount <= a.fields[k].amount)
  }

  ghost predicate TrackedDrops(a: World, b: World) {
    && Recorded(a.drops.Keys, b.drops.Keys, a.nextId, b.nextId, a.marks.dropSpawned, b.marks.dropSpawned,
                a.marks.dropDespawned, b.marks.dropDespawned)
    && (forall k | k in a.drops && k in b.drops ::
          b.drops[k] == a.drops[k].(amount := b.drops[k].amount) && b.drops[k].amount <= a.drops[k].amount)
  }

  ghost predicate TrackedLedgers(a: World, b: World) {
    && b.ledgers.Keys == a.ledgers.Keys
    && a.marks.ledgerDirty <= b.marks.ledgerDirty
    && (forall k | k in a.ledgers :: k in b.marks.ledgerDirty || b.ledgers[k] == a.ledgers[k])
  }

  ghost predicate Tracked(a: World, b: World) {
    && TrackedUnits(a, b) && TrackedSites(a, b) && TrackedFields(a, b) && TrackedDrops(a, b) && TrackedLedgers(a, b)
    && a.nextId <= b.nextId
  }

  lemma TrackedRefl(a: World)
    ensures Tracked(a, a)
  {}

  lemma TrackedTrans(a: World, b: World, c: World)
    requires WellFormed(a) && Tracked(a, b) && Tracked(b, c)
    ensures Tracked(a, c)
  {
    TrackedUnitsTrans(a, b, c);
    TrackedSitesTrans(a, b, c);
    TrackedFieldsTrans(a, b, c);
    TrackedDropsTrans(a, b, c);
    hide TrackedUnits, TrackedSites, TrackedFields, TrackedDrops;
  }

  lemma TrackedUnitsTrans(a: World, b: World, c: World)
    requires WellFormed(a) && a.nextId <= b.nextId <= c.nextId && TrackedUnits(a, b) && TrackedUnits(b, c)
    ensures TrackedUnits(a, c)
  {
    RecordedTrans(a.units.Keys, b.units.Keys, c.units.Keys, a.nextId, b.nextId, c.nextId,
                  a.marks.spawned, b.marks.spawned, c.marks.spawned,
                  a.marks.despawned, b.marks.despawned, c.marks.despawned);
  }

  lemma TrackedSitesTrans(a: World, b: World, c: World)
    requires WellFormed(a) && a.nextId <= b.nextId <= c.nextId && TrackedSites(a, b) && TrackedSites(b, c)
    ensures TrackedSites(a, c)
  {
    RecordedTrans(a.buildings.Keys, b.buildings.Keys, c.buildings.Keys, a.nextId, b.nextId, c.nextId,
                  a.marks.siteSpawned, b.marks.siteSpawned, c.marks.siteSpawned,
                  a.marks.siteDespawned, b.marks.siteDespawned, c.marks.siteDespawned);
  }

  lemma TrackedFieldsTrans(a: World, b: World, c: World)
    requires WellFormed(a) && a.nextId <= b.nextId <= c.nextId && TrackedFields(a, b) && TrackedFields(b, c)
    ensures TrackedFields(a, c)
  {
    RecordedTrans(a.fields.Keys, b.fields.Keys, c.fields.Keys, a.nextId, b.nextId, c.nextId,
                  a.marks.fieldSpawned, b.marks.fieldSpawned, c.marks.fieldSpawned,
                  a.marks.fieldDespawned, b.marks.fieldDespawned, c.marks.fieldDespawned);
  }

  lemma TrackedDropsTrans(a: World, b: World, c: World)
    requires WellFormed(a) && a.nextId <= b.nextId <= c.nextId && TrackedDrops(a, b) && TrackedDrops(b, c)
    ensures TrackedDrops(a, c)
  {
    RecordedTrans(a.drops.Keys, b.drops.Keys, c.drops.Keys, a.nextId, b.nextId, c.nextId,
                  a.marks.dropSpawned, b.marks.dropSpawned, c.marks.dropSpawned,
                  a.marks.dropDespawned, b.marks.dropDespawned, c.marks.dropDespawned);
  }

  // ---- single changes ----

  lemma TouchTracked(w: World, id: Id, u: Unit)
    requires id in w.units
    ensures Tracked(w, Touch(w, id, u))
  {}

  lemma TouchSiteTracked(w: World, id: Id, b: Building)
    requires id in w.buildings
    ensures Tracked(w, TouchSite(w, id, b))
  {}

  lemma CreditTracked(w: World, owner: Uid, raw: nat, amount: nat)
    ensures Tracked(w, Credit(w, owner, raw, amount))
  {}

  lemma PayTracked(w: World, owner: Uid, cost: Cost)
    requires owner in w.ledgers
    ensures Tracked(w, Pay(w, owner, cost))
  {}

  lemma CoolTracked(w: World, id: Id, dt: real)
    requires id in w.units
    ensures Tracked(w, Cool(w, id, dt))
  {}

  lemma SpawnDropTracked(w: World, raw: nat, pos: Vec3, amount: nat)
    requires WellFormed(w)
    ensures Tracked(w, SpawnDrop(w, raw, pos, amount))
  {}

  lemma SpawnUnitTracked(w: World, u: Unit)
    requires WellFormed(w)
    ensures Tracked(w, SpawnUnit(w, u))
  {}

  lemma SpawnBuildingTracked(w: World, b: Building)
    requires WellFormed(w)
    ensures Tracked(w, SpawnBuilding(w, b))
  {}

  lemma SweepUnitTracked(w: World, id: Id)
    requires WellFormed(w)
    ensures Tracked(w, SweepUnit(w, id))
  {
    TrackedRefl(w);
    if id in w.units && w.units[id].hp <= 0.0 {
      RecordedGone(w.units.Keys, id, w.nextId, w.marks.spawned, w.marks.despawned);
      assert SweepUnit(w, id).units.Keys == w.units.Keys - {id};
      hide Recorded;
    }
  }

  lemma SweepBuildingTracked(w: World, id: Id)
    requires WellFormed(w)
    ensures Tracked(w, SweepBuilding(w, id))
  {
    TrackedRefl(w);
    if id in w.buildings && w.buildings[id].hp <= 0.0 {
      RecordedGone(w.buildings.Keys, id, w.nextId, w.marks.siteSpawned, w.marks.siteDespawned);
      assert SweepBuilding(w, id).buildings.Keys == w.buildings.Keys - {id};
      hide Recorded;
    }
  }

  lemma MineFieldTracked(w: World, f: Id, n: nat)
    requires WellFormed(w) && f in w.fields && n <= w.fields[f].amount
    ensures Tracked(w, MineField(w, f, n))
  {
    assert f < w.nextId;
    hide WellFormed, Remove;
    TrackedRefl(w);
    if n == w.fields[f].amount {
      RecordedGone(w.fields.Keys, f, w.nextId, w.marks.fieldSpawned, w.marks.fieldDespawned);
      assert MineField(w, f, n).fields.Keys == w.fields.Keys - {f};
    } else {
      assert MineField(w, f, n).fields.Keys == w.fields.Keys;
    }
    hide Recorded;
  }

  lemma TakeDropTracked(w: World, d: Id, n: nat)
    requires WellFormed(w) && d in w.drops && n <= w.drops[d].amount
    ensures Tracked(w, TakeDrop(w, d, n))
  {
    assert d < w.nextId;
    hide WellFormed, Remove;
    TrackedRefl(w);
    if n == w.drops[d].amount {
      RecordedGone(w.drops.Keys, d, w.nextId, w.marks.dropSpawned, w.marks.dropDespawned);
      assert TakeDrop(w, d, n).drops.Keys == w.drops.Keys - {d};
    } else {
      assert TakeDrop(w, d, n).drops.Keys == w.drops.Keys;
    }
    hide Recorded;
  }
}
