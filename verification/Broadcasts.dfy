/**
 Writing the messages of a frame (LogicShard.cc, SendFullSnapshot and SendDelta): the loops over the
 room's entities and change sets produce exactly the messages that module Replication specifies.
 */
module Broadcasts {
  import opened Entities
  import opened Simulation
  import opened Tracking
  import opened Replication
  import opened Rooms

  // ---- describing entities ----

  method DescribeUnits(units: map<Id, Unit>, chosen: set<Id>, order: set<nat> -> seq<nat>)
    returns (views: map<Id, UnitView>)
    requires Enumerates(order)
    ensures views == map k | k in chosen && k in units :: ViewUnit(units[k])
  {
    hide ViewUnit;
    views := map[];
    var ids := order(chosen);
    assert IsEnumeration(ids, chosen);
    for i := 0 to |ids|
      invariant forall k | k in views :: k in chosen && k in units && views[k] == ViewUnit(units[k])
      invariant forall j | 0 <= j < i :: ids[j] in units ==> ids[j] in views
    {
      if ids[i] in units {
        views := views[ids[i] := ViewUnit(units[ids[i]])];
      }
    }
  }

  method DescribeSites(sites: map<Id, Building>, chosen: set<Id>, order: set<nat> -> seq<nat>)
    returns (views: map<Id, SiteView>)
    requires Enumerates(order)
    ensures views == map k | k in chosen && k in sites :: ViewSite(sites[k])
  {
    hide ViewSite;
    views := map[];
    var ids := order(chosen);
    assert IsEnumeration(ids, chosen);
    for i := 0 to |ids|
      invariant forall k | k in views :: k in chosen && k in sites && views[k] == ViewSite(sites[k])
      invariant forall j | 0 <= j < i :: ids[j] in sites ==> ids[j] in views
    {
      if ids[i] in sites {
        views := views[ids[i] := ViewSite(sites[ids[i]])];
      }
    }
  }

  method DescribeLedgers(ledgers: map<Uid, Ledger>, chosen: set<Uid>, order: set<nat> -> seq<nat>)
    returns (out: map<Uid, Ledger>)
    requires Enumerates(order)
    ensures out == map k | k in chosen && k in ledgers :: ledgers[k]
  {
    out := map[];
    var uids := order(chosen);
    assert IsEnumeration(uids, chosen);
    for i := 0 to |uids|
      invariant forall k | k in out :: k in chosen && k in ledgers && out[k] == ledgers[k]
      invariant forall j | 0 <= j < i :: uids[j] in ledgers ==> uids[j] in out
    {
      if uids[i] in ledgers {
        out := out[uids[i] := ledgers[uids[i]]];
      }
    }
  }

  method SendFullSnapshot(room: DungeonRoom, order: set<nat> -> seq<nat>) returns (m: Message)
    requires Enumerates(order)
    ensures m == Snapshot(ViewOf(room.State()))
  {
    var units := DescribeUnits(room.units, room.units.Keys, order);
    var sites := DescribeSites(room.buildings, room.buildings.Keys, order);
    m := Snapshot(Replica(units, sites, room.fields, room.drops, room.ledgers));
    assert units == UnitViews(room.State());
    assert sites == SiteViews(room.State());
  }

  // ---- spawns and despawns ----

  method AnnounceUnits(room: DungeonRoom) returns (ms: seq<Message>)
    ensures ms == UnitSpawns(UnitViews(room.State()), room.marks.spawned)
  {
    ms := [];
    var ids := room.marks.spawned;
    for i := 0 to |ids|
      invariant ms == UnitSpawns(UnitViews(room.State()), ids[..i])
    {
      assert ids[..i + 1][..i] == ids[..i];
      if ids[i] in room.units {
        ms := ms + [UnitSpawned(ViewUnit(room.units[ids[i]]))];
      }
    }
    assert ids[..|ids|] == ids;
  }

  method AnnounceSites(room: DungeonRoom) returns (ms: seq<Message>)
    ensures ms == SiteSpawns(SiteViews(room.State()), room.marks.siteSpawned)
  {
    ms := [];
    var ids := room.marks.siteSpawned;
    for i := 0 to |ids|
      invariant ms == SiteSpawns(SiteViews(room.State()), ids[..i])
    {
      assert ids[..i + 1][..i] == ids[..i];
      if ids[i] in room.buildings {
        ms := ms + [SiteSpawned(ViewSite(room.buildings[ids[i]]))];
      }
    }
    assert ids[..|ids|] == ids;
  }

  method AnnounceFields(room: DungeonRoom) returns (ms: seq<Message>)
    ensures ms == FieldSpawns(room.fields, room.marks.fieldSpawned)
  {
    ms := [];
    var ids := room.marks.fieldSpawned;
    for i := 0 to |ids|
      invariant ms == FieldSpawns(room.fields, ids[..i])
    {
      assert ids[..i + 1][..i] == ids[..i];
      if ids[i] in room.fields {
        ms := ms + [FieldSpawned(room.fields[ids[i]])];
      }
    }
    assert ids[..|ids|] == ids;
  }

  method AnnounceDrops(room: DungeonRoom) returns (ms: seq<Message>)
    ensures ms == DropSpawns(room.drops, room.marks.dropSpawned)
  {
    ms := [];
    var ids := room.marks.dropSpawned;
    for i := 0 to |ids|
      invariant ms == DropSpawns(room.drops, ids[..i])
    {
      assert ids[..i + 1][..i] == ids[..i];
      if ids[i] in room.drops {
        ms := ms + [DropSpawned(room.drops[ids[i]])];
      }
    }
    assert ids[..|ids|] == ids;
  }

  method AnnounceGone(kind: Kind, ids: seq<Id>) returns (ms: seq<Message>)
    ensures ms == Despawns(kind, ids)
  {
    ms := [];
    for i := 0 to |ids|
      invariant ms == Despawns(kind, ids[..i])
    {
      assert ids[..i + 1][..i] == ids[..i];
      ms := ms + [Despawned(kind, ids[i])];
    }
    assert ids[..|ids|] == ids;
  }

  // ---- one delta frame ----

  method SendDelta(room: DungeonRoom, order: set<nat> -> seq<nat>) returns (ms: seq<Message>)
    requires Enumerates(order)
    ensures ms == DeltaMessages(room.State())
  {
    hide UnitSpawns, SiteSpawns, FieldSpawns, DropSpawns, Despawns, Enumerates;
    var unitsNew := AnnounceUnits(room);
    var sitesNew := AnnounceSites(room);
    var fieldsNew := AnnounceFields(room);
    var dropsNew := AnnounceDrops(room);
    var unitsGone := AnnounceGone(UnitKind, room.marks.despawned);
    var sitesGone := AnnounceGone(BuildingKind, room.marks.siteDespawned);
    var fieldsGone := AnnounceGone(FieldKind, room.marks.fieldDespawned);
    var dropsGone := AnnounceGone(DropKind, room.marks.dropDespawned);
    ms := unitsNew + sitesNew + fieldsNew + dropsNew + (unitsGone + sitesGone + fieldsGone + dropsGone);
    var delta := DescribeChanges(room, order);
    if delta != Delta(map[], map[], map[]) {
      ms := ms + [delta];
    } else {
      assert ms + [] == ms;
    }
  }

  /** Changed entities, without those a spawn message has just described. */
  method DescribeChanges(room: DungeonRoom, order: set<nat> -> seq<nat>) returns (delta: Message)
    requires Enumerates(order)
    ensures delta == Changes(room.State())
  {
    var m := room.marks;
    var units := DescribeUnits(room.units, (set k | k in m.dirty && k !in m.spawned), order);
    var sites := DescribeSites(room.buildings, (set k | k in m.siteDirty && k !in m.siteSpawned), order);
    var ledgers := DescribeLedgers(room.ledgers, m.ledgerDirty, order);
    delta := Delta(units, sites, ledgers);
    assert units == Changes(room.State()).units;
    assert sites == Changes(room.State()).sites;
    assert ledgers == Changes(room.State()).ledgers;
  }
}
