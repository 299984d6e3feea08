/**
 Looking around (DungeonRoom.h, NearestEnemy, FindNearestDropoff and the scan in Step): what is found
 really is the nearest of its kind, how a unit reacts to what it sees, and when it looks.
 */
module Sight {
  import opened Entities
  import opened Simulation
  import opened Laws
  import opened Evolution
  import opened Bystanders
  import opened Obedience

  // ---- the nearest enemy ----

  predicate Enemy(w: World, u: Unit, k: Id) {
    k in w.units && w.units[k].hp > 0.0 && w.units[k].team != u.team
  }

  /** r is the first of the nearest enemies within range, in the order of ids. */
  ghost predicate FirstNearestEnemy(e: Env, w: World, u: Unit, range: real, ids: seq<Id>, r: Id) {
    && Enemy(w, u, r) && Gap(e, u.pos, w.units[r].pos) < range
    && (forall k | k in ids && Enemy(w, u, k) :: Gap(e, u.pos, w.units[r].pos) <= Gap(e, u.pos, w.units[k].pos))
    && exists i :: 0 <= i < |ids| && ids[i] == r
                   && forall j | 0 <= j < i && Enemy(w, u, ids[j]) ::
                        Gap(e, u.pos, w.units[r].pos) < Gap(e, u.pos, w.units[ids[j]].pos)
  }

  ghost predicate NoEnemyWithin(e: Env, w: World, u: Unit, range: real, ids: seq<Id>) {
    forall k | k in ids && Enemy(w, u, k) :: Gap(e, u.pos, w.units[k].pos) >= range
  }

  lemma {:induction false} ScanEnemyFinds(e: Env, w: World, u: Unit, range: real, ids: seq<Id>)
    requires 0 !in w.units
    ensures var r := ScanEnemy(e, w, u, range, ids);
            if r == 0 then NoEnemyWithin(e, w, u, range, ids) else FirstNearestEnemy(e, w, u, range, ids, r)
  {
    hide Gap;
    if ids != [] {
      var rest, k := ids[..|ids| - 1], ids[|ids| - 1];
      ScanEnemyFinds(e, w, u, range, rest);
      var best, r := ScanEnemy(e, w, u, range, rest), ScanEnemy(e, w, u, range, ids);
      assert forall j | j in ids :: j in rest || j == k;
      if r == best && r != 0 {
        var i :| 0 <= i < |rest| && rest[i] == r
                 && forall j | 0 <= j < i && Enemy(w, u, rest[j]) ::
                      Gap(e, u.pos, w.units[r].pos) < Gap(e, u.pos, w.units[rest[j]].pos);
        assert ids[i] == r && forall j | 0 <= j < i :: ids[j] == rest[j];
      } else if r != 0 {
        assert ids[|rest|] == r && forall j | 0 <= j < |rest| :: ids[j] == rest[j] && rest[j] in rest;
      }
    }
  }

  /**
   The nearest enemy: a non-zero answer is a living unit of another team, strictly within range, no
   living enemy is nearer, and none that is met before it is as near; the answer is 0 exactly if no
   living enemy is within range.
   */
  lemma NearestEnemyIsNearest(e: Env, w: World, u: Unit, range: real)
    requires Enumerates(e.enum) && 0 !in w.units
    ensures var r, ids := NearestEnemy(e, w, u, range), e.enum(w.units.Keys);
            && (r == 0 <==> forall k | Enemy(w, u, k) :: Gap(e, u.pos, w.units[k].pos) >= range)
            && (r != 0 ==> FirstNearestEnemy(e, w, u, range, ids, r)
                           && forall k | Enemy(w, u, k) ::
                                Gap(e, u.pos, w.units[r].pos) <= Gap(e, u.pos, w.units[k].pos))
  {
    hide Gap, Enumerates;
    ScanEnemyFinds(e, w, u, range, e.enum(w.units.Keys));
    EnumHas(e, w.units.Keys);
    hide ScanEnemy;
  }

  // ---- the nearest dropoff ----

  /** A finished camp or crystal of the team. */
  predicate Dropoff(w: World, team: nat, k: Id) {
    && k in w.buildings && w.buildings[k].team == team && !w.buildings[k].underConstruction
    && (w.buildings[k].buildingType == 0 || w.buildings[k].buildingType == 3)
  }

  /** r is the first of the nearest dropoffs, in the order of ids. */
  ghost predicate FirstNearestDropoff(e: Env, w: World, team: nat, from: Vec3, ids: seq<Id>, r: Id) {
    && Dropoff(w, team, r)
    && (forall k | k in ids && Dropoff(w, team, k) ::
          Gap(e, from, w.buildings[r].pos) <= Gap(e, from, w.buildings[k].pos))
    && exists i :: 0 <= i < |ids| && ids[i] == r
                   && forall j | 0 <= j < i && Dropoff(w, team, ids[j]) ::
                        Gap(e, from, w.buildings[r].pos) < Gap(e, from, w.buildings[ids[j]].pos)
  }

  lemma {:induction false} ScanDropoffFinds(e: Env, w: World, team: nat, from: Vec3, ids: seq<Id>)
    requires 0 !in w.buildings
    ensures var r := ScanDropoff(e, w, team, from, ids);
            if r == 0 then forall k | k in ids :: !Dropoff(w, team, k)
            else FirstNearestDropoff(e, w, team, from, ids, r)
  {
    hide Gap;
    if ids != [] {
      var rest, k := ids[..|ids| - 1], ids[|ids| - 1];
      ScanDropoffFinds(e, w, team, from, rest);
      var best, r := ScanDropoff(e, w, team, from, rest), ScanDropoff(e, w, team, from, ids);
      assert forall j | j in ids :: j in rest || j == k;
      if r == best && r != 0 {
        var i :| 0 <= i < |rest| && rest[i] == r
                 && forall j | 0 <= j < i && Dropoff(w, team, rest[j]) ::
                      Gap(e, from, w.buildings[r].pos) < Gap(e, from, w.buildings[rest[j]].pos);
        assert ids[i] == r && forall j | 0 <= j < i :: ids[j] == rest[j];
      } else if r != 0 {
        assert ids[|rest|] == r && forall j | 0 <= j < |rest| :: ids[j] == rest[j] && rest[j] in rest;
      }
    }
  }

  /** The same for the place a worker returns to: the nearest finished camp or crystal of its team, or 0 if none. */
  lemma NearestDropoffIsNearest(e: Env, w: World, team: nat, from: Vec3)
    requires Enumerates(e.enum) && 0 !in w.buildings
    ensures var r, ids := NearestDropoff(e, w, team, from), e.enum(w.buildings.Keys);
            && (r == 0 <==> forall k :: !Dropoff(w, team, k))
            && (r != 0 ==> FirstNearestDropoff(e, w, team, from, ids, r)
                           && forall k | Dropoff(w, team, k) ::
                                Gap(e, from, w.buildings[r].pos) <= Gap(e, from, w.buildings[k].pos))
  {
    hide Gap, Enumerates;
    ScanDropoffFinds(e, w, team, from, e.enum(w.buildings.Keys));
    EnumHas(e, w.buildings.Keys);
    hide ScanDropoff;
  }

  // ---- how a unit reacts ----

  /** How far a unit looks: 8 when it has nothing to do, 3 when it works; otherwise it does not look. */
  predicate Looks(u: Unit) { u.attackTarget == 0 && (u.task != NoTask || !u.hasTarget) }

  function View(u: Unit): real { if u.task == NoTask then 8.0 else 3.0 }

  /** The unit attacks foe unprompted, from where it stands; a worker has given up its work for that. */
  ghost predicate Engages(w: World, v: World, id: Id, foe: Id)
    requires id in w.units
  {
    var u := w.units[id];
    var free := if u.task == NoTask then u else Released(u).(carried := 0);
    && v.units == w.units[id := free.(attackTarget := foe, autoAggro := true, aggroOrigin := u.pos, state := Attacking)]
    && id in v.marks.dirty
    && v.buildings == w.buildings && v.fields == w.fields && v.ledgers == w.ledgers
    && (if u.task != NoTask && u.carried > 0 then
          v.drops == w.drops[w.nextId := Drop(w.nextId, u.carriedRaw, u.pos, u.carried)] && v.nextId == w.nextId + 1
        else v.drops == w.drops && v.nextId == w.nextId)
  }

  lemma IdleReacts(e: Env, w: World, id: Id)
    requires id in w.units && w.units[id].id == id && w.units[id].task == NoTask && Looks(w.units[id])
    ensures var foe, v := NearestEnemy(e, w, w.units[id], 8.0), Settle(w, Alert(e, w, w.units[id]));
            if foe == 0 then v == w else Engages(w, v, id, foe)
  {
    hide NearestEnemy, Released;
  }

  lemma WorkerReacts(e: Env, w: World, id: Id)
    requires id in w.units && w.units[id].id == id && w.units[id].task != NoTask && Looks(w.units[id])
    ensures var foe, v := NearestEnemy(e, w, w.units[id], 3.0), Settle(w, Alert(e, w, w.units[id]));
            if foe == 0 then v == w else Engages(w, v, id, foe)
  {
    hide NearestEnemy, Engages;
    var u := w.units[id];
    var foe := NearestEnemy(e, w, u, 3.0);
    if foe != 0 {
      assert Fighting(u, foe)
             == Released(u).(attackTarget := foe, autoAggro := true, aggroOrigin := u.pos, state := Attacking);
      assert Alert(e, w, u) == React(Shedding(u, Fighting(u, foe)));
      WorkerEngages(w, id, foe);
    }
  }

  lemma WorkerEngages(w: World, id: Id, foe: Id)
    requires id in w.units && w.units[id].id == id && w.units[id].task != NoTask
    ensures Engages(w, Settle(w, React(Shedding(w.units[id], Fighting(w.units[id], foe)))), id, foe)
  {
    var u := w.units[id];
    var free := Released(u).(carried := 0);
    var v := free.(attackTarget := foe, autoAggro := true, aggroOrigin := u.pos, state := Attacking);
    assert Shedding(u, Fighting(u, foe)).unit == v;
    hide Fighting, Released, ClearTask;
  }

  /**
   The scan: a unit that is neither fighting nor walking attacks the nearest living enemy within 8, a
   worker one within 3, giving up its work and its load; if there is none, or the unit does not look,
   nothing happens at all.
   */
  lemma ScanReaction(e: Env, w: World, id: Id)
    requires WellFormed(w) && Enumerates(e.enum) && id in w.units
    ensures var u, v, ids := w.units[id], Settle(w, Alert(e, w, w.units[id])), e.enum(w.units.Keys);
            if Looks(u) && exists k :: Enemy(w, u, k) && Gap(e, u.pos, w.units[k].pos) < View(u) then
              exists foe :: FirstNearestEnemy(e, w, u, View(u), ids, foe) && Engages(w, v, id, foe)
            else v == w
  {
    hide WellFormed, Settle, Gap, Enumerates, Engages, NearestEnemy, FirstNearestEnemy;
    UnitFacts(w, id);
    assert 0 !in w.units by { NoZero(w); }
    var u := w.units[id];
    NearestEnemyIsNearest(e, w, u, View(u));
    if Looks(u) {
      if u.task == NoTask { IdleReacts(e, w, id); } else { WorkerReacts(e, w, id); }
    } else {
      NotLooking(e, w, u);
    }
    hide Alert;
  }

  lemma NoZero(w: World)
    requires WellFormed(w)
    ensures 0 !in w.units && 0 !in w.buildings
  {}

  lemma NotLooking(e: Env, w: World, u: Unit)
    requires !Looks(u)
    ensures Settle(w, Alert(e, w, u)) == w
  {}

  // ---- when it looks ----

  /** A step is a scan exactly if it is a fifth one, save for the step in which the 32-bit counter wraps. */
  lemma EveryFifthStep(w: World)
    requires w.scanTick < U32
    ensures (ScanDue(NextScan(w)) <==> w.scanTick % 5 == 4) <==> w.scanTick != 0xFFFF_FFFF
    ensures w.scanTick != 0xFFFF_FFFF ==> NextScan(w).scanTick == w.scanTick + 1
  {}

  /** When the 32-bit counter wraps the beat is broken: two steps in a row are scans. */
  lemma ScanBeatBreaks(w: World)
    requires w.scanTick == 0xFFFF_FFFE
    ensures ScanDue(NextScan(w)) && ScanDue(NextScan(NextScan(w)))
  {}
}
