/**
 What a match starts with (LogicShard.cc, SpawnInitialUnits; DungeonRoom.h, BeginBattle): for each player a
 crystal, six villagers, eight fields and the starting resources, and nothing else.
 */
module Openings {
  import opened Entities
  import opened Simulation
  import opened Laws
  import opened Match
  import opened Lobby
  import opened Evolution

  // ---- one base ----

  /** A fresh villager of the player, with the id k, at the place whose number is k counted from s. */
  predicate VillagerAt(u: Unit, l: Layout, p: Player, k: Id, s: Id) {
    && u.owner == p.uid && u.team == p.team && u.unitType == 0 && u.hp == 100.0 && u.speed == 6.0
    && k >= s && u.pos == l.villager(p.team, k - s)
    && u.task == NoTask && !u.hasTarget && u.attackTarget == 0 && u.carried == 0
  }

  /** The team's finished crystal. */
  predicate CrystalAt(b: Building, l: Layout, p: Player) {
    && b.owner == p.uid && b.team == p.team && b.buildingType == 3 && b.pos == l.crystal(p.team)
    && b.hp == 300.0 && b.maxHp == 300.0 && !b.underConstruction && b.percent == 100.0 && b.queue == []
  }

  /** Three fields of 450 berries, three of 600 wood and two of 400 gold. */
  predicate FieldAt(f: Field, l: Layout, p: Player, k: Id, s: Id) {
    && k >= s && f.pos == l.field(p.team, k - s)
    && (if k - s < 3 then f.raw == 0 && f.amount == 450
        else if k - s < 6 then f.raw == 2 && f.amount == 600
        else f.raw == 1 && f.amount == 400)
  }

  /** m is m' with n more units, the player's villagers, under the ids from s on. */
  ghost predicate Villagered(m': map<Id, Unit>, m: map<Id, Unit>, l: Layout, p: Player, s: Id, n: nat) {
    && (forall k | k in m :: k < s + n)
    && (forall k | k in m' :: k in m && m[k] == m'[k])
    && (forall k | s <= k < s + n :: k in m && VillagerAt(m[k], l, p, k, s))
  }

  lemma OneMoreVillager(m': map<Id, Unit>, m: map<Id, Unit>, l: Layout, p: Player, s: Id, n: nat, u: Unit)
    requires Villagered(m', m, l, p, s, n) && VillagerAt(u, l, p, s + n, s)
    ensures Villagered(m', m[s + n := u], l, p, s, n + 1) && |m[s + n := u]| == |m| + 1
  {
    assert |m[s + n := u]| == |m| + 1 by { GrowMap(m, s + n, u); }
    hide VillagerAt;
  }

  /** The rest of the room is as it was. */
  ghost predicate OnlyUnits(w: World, v: World) {
    v.buildings == w.buildings && v.fields == w.fields && v.drops == w.drops && v.players == w.players
    && v.ledgers == w.ledgers
  }

  lemma SpawnsUnit(w: World, u: Unit)
    ensures var v := SpawnUnit(w, u);
            v.units == w.units[w.nextId := u] && v.nextId == w.nextId + 1 && OnlyUnits(w, v)
  {}

  lemma {:induction false} VillagersStand(w: World, l: Layout, p: Player, n: nat)
    requires forall k | k in w.units :: k < w.nextId
    ensures var v := Villagers(w, l, p, n);
            v.nextId == w.nextId + n && OnlyUnits(w, v) && Villagered(w.units, v.units, l, p, w.nextId, n)
            && |v.units| == |w.units| + n
  {
    hide VillagerAt, NewUnit, SpawnUnit, Villagered;
    if n == 0 {
      NoVillagers(w.units, l, p, w.nextId);
    } else {
      VillagersStand(w, l, p, n - 1);
      var v := Villagers(w, l, p, n - 1);
      var u := NewUnit(v.nextId, p.uid, p.team, VILLAGER, l.villager(p.team, n - 1), UNIT_HP, MOVE_SPEED,
                       l.yaw(p.team));
      NewVillager(v.nextId, l, p, n - 1, w.nextId);
      SpawnsUnit(v, u);
      OneMoreVillager(w.units, v.units, l, p, w.nextId, n - 1, u);
    }
  }

  lemma NoVillagers(m: map<Id, Unit>, l: Layout, p: Player, s: Id)
    requires forall k | k in m :: k < s
    ensures Villagered(m, m, l, p, s, 0)
  {
    hide VillagerAt;
  }

  lemma NewVillager(id: Id, l: Layout, p: Player, i: nat, s: Id)
    requires id == s + i
    ensures VillagerAt(NewUnit(id, p.uid, p.team, VILLAGER, l.villager(p.team, i), UNIT_HP, MOVE_SPEED, l.yaw(p.team)),
                       l, p, id, s)
  {}

  /** m is m' with n more fields, the player's, under the ids from s on. */
  ghost predicate Fielded(m': map<Id, Field>, m: map<Id, Field>, l: Layout, p: Player, s: Id, n: nat) {
    && (forall k | k in m :: k < s + n)
    && (forall k | k in m' :: k in m && m[k] == m'[k])
    && (forall k | s <= k < s + n :: k in m && FieldAt(m[k], l, p, k, s))
  }

  lemma OneMoreField(m': map<Id, Field>, m: map<Id, Field>, l: Layout, p: Player, s: Id, n: nat, f: Field)
    requires Fielded(m', m, l, p, s, n) && FieldAt(f, l, p, s + n, s)
    ensures Fielded(m', m[s + n := f], l, p, s, n + 1) && |m[s + n := f]| == |m| + 1
  {
    assert |m[s + n := f]| == |m| + 1 by { GrowMap(m, s + n, f); }
    hide FieldAt;
  }

  ghost predicate OnlyFields(w: World, v: World) {
    v.buildings == w.buildings && v.units == w.units && v.drops == w.drops && v.players == w.players
    && v.ledgers == w.ledgers
  }

  lemma SpawnsField(w: World, raw: nat, pos: Vec3, amount: nat)
    ensures var v := SpawnField(w, raw, pos, amount);
            && v.fields == w.fields[w.nextId := Field(w.nextId, raw, pos, 0.0, amount)] && v.nextId == w.nextId + 1
            && OnlyFields(w, v)
  {}

  lemma {:induction false} DepositsLie(w: World, l: Layout, p: Player, n: nat)
    requires n <= |START_FIELDS| && forall k | k in w.fields :: k < w.nextId
    ensures var v := Deposits(w, l, p, n);
            v.nextId == w.nextId + n && OnlyFields(w, v) && Fielded(w.fields, v.fields, l, p, w.nextId, n)
            && |v.fields| == |w.fields| + n
  {
    hide FieldAt, SpawnField, Fielded;
    if n == 0 {
      NoFields(w.fields, l, p, w.nextId);
    } else {
      DepositsLie(w, l, p, n - 1);
      var v, d := Deposits(w, l, p, n - 1), START_FIELDS[n - 1];
      FieldIs(v.nextId, l, p, n - 1, w.nextId);
      SpawnsField(v, d.raw, l.field(p.team, n - 1), d.amount);
      OneMoreField(w.fields, v.fields, l, p, w.nextId, n - 1,
                   Field(v.nextId, d.raw, l.field(p.team, n - 1), 0.0, d.amount));
    }
    hide START_FIELDS;
  }

  lemma NoFields(m: map<Id, Field>, l: Layout, p: Player, s: Id)
    requires forall k | k in m :: k < s
    ensures Fielded(m, m, l, p, s, 0)
  {
    hide FieldAt;
  }

  lemma FieldIs(id: Id, l: Layout, p: Player, i: nat, s: Id)
    requires i < |START_FIELDS| && id == s + i
    ensures var d := START_FIELDS[i]; FieldAt(Field(id, d.raw, l.field(p.team, i), 0.0, d.amount), l, p, id, s)
  {}

  /** The player's base, under the fifteen ids from s on. */
  ghost predicate BaseAt(w: World, l: Layout, p: Player, s: Id) {
    && s in w.buildings && CrystalAt(w.buildings[s], l, p)
    && (forall k | s + 1 <= k < s + 7 :: k in w.units && VillagerAt(w.units[k], l, p, k, s + 1))
    && (forall k | s + 7 <= k < s + 15 :: k in w.fields && FieldAt(w.fields[k], l, p, k, s + 7))
  }

  /** All ids are taken below the next one, and what is there keeps its place. */
  ghost predicate Below(w: World) {
    && (forall k | k in w.units :: k < w.nextId) && (forall k | k in w.buildings :: k < w.nextId)
    && (forall k | k in w.fields :: k < w.nextId)
  }

  ghost predicate Extends(w: World, v: World) {
    && (forall k | k in w.units :: k in v.units && v.units[k] == w.units[k])
    && (forall k | k in w.buildings :: k in v.buildings && v.buildings[k] == w.buildings[k])
    && (forall k | k in w.fields :: k in v.fields && v.fields[k] == w.fields[k])
  }

  lemma BaseStands(w: World, l: Layout, p: Player)
    requires Below(w)
    ensures var v := Base(w, l, p);
            && Below(v) && Extends(w, v) && v.nextId == w.nextId + 15 && BaseAt(v, l, p, w.nextId)
            && |v.units| == |w.units| + 6 && |v.buildings| == |w.buildings| + 1 && |v.fields| == |w.fields| + 8
            && v.drops == w.drops && v.players == w.players && v.ledgers == w.ledgers
  {
    hide VillagerAt, FieldAt, CrystalAt, NewBuilding, Villagers, Deposits, Villagered, Fielded, SpawnBuilding;
    var b := NewBuilding(w.nextId, p.uid, p.team, CRYSTAL, l.crystal(p.team), l.yaw(p.team), false);
    CrystalIs(w.nextId, l, p);
    var v1 := SpawnBuilding(w, b);
    SpawnsBuilding(w, b);
    var v2 := Villagers(v1, l, p, START_UNITS);
    VillagersStand(v1, l, p, START_UNITS);
    var v3 := Deposits(v2, l, p, |START_FIELDS|);
    DepositsLie(v2, l, p, |START_FIELDS|);
    assert Base(w, l, p) == v3;
    hide Base, START_FIELDS;
    GrowMap(w.buildings, w.nextId, b);
    BaseMade(w, v3, l, p, b);
  }

  lemma SpawnsBuilding(w: World, b: Building)
    ensures var v := SpawnBuilding(w, b);
            && v.buildings == w.buildings[w.nextId := b] && v.nextId == w.nextId + 1
            && v.units == w.units && v.fields == w.fields && v.drops == w.drops && v.players == w.players
            && v.ledgers == w.ledgers
  {}

  lemma BaseMade(w: World, v: World, l: Layout, p: Player, b: Building)
    requires Below(w) && v.nextId == w.nextId + 15 && CrystalAt(b, l, p) && v.buildings == w.buildings[w.nextId := b]
    requires Villagered(w.units, v.units, l, p, w.nextId + 1, 6) && Fielded(w.fields, v.fields, l, p, w.nextId + 7, 8)
    ensures Below(v) && Extends(w, v) && BaseAt(v, l, p, w.nextId)
  {
    hide VillagerAt, FieldAt, CrystalAt;
  }

  lemma CrystalIs(id: Id, l: Layout, p: Player)
    ensures CrystalAt(NewBuilding(id, p.uid, p.team, CRYSTAL, l.crystal(p.team), l.yaw(p.team), false), l, p)
  {}

  // ---- all of them ----

  lemma BaseStays(w: World, v: World, l: Layout, p: Player, s: Id)
    requires BaseAt(w, l, p, s) && Extends(w, v)
    ensures BaseAt(v, l, p, s)
  {
    hide VillagerAt, FieldAt, CrystalAt;
  }

  lemma {:induction false} BasesStand(w: World, l: Layout, uids: seq<Uid>)
    requires Below(w) && forall i | 0 <= i < |uids| :: uids[i] in w.players
    ensures var v, n := Bases(w, l, uids), |uids|;
            && Below(v) && v.nextId == w.nextId + 15 * n && v.drops == w.drops && v.players == w.players
            && v.ledgers == w.ledgers
            && |v.units| == |w.units| + 6 * n && |v.buildings| == |w.buildings| + n && |v.fields| == |w.fields| + 8 * n
            && forall j | 0 <= j < n :: BaseAt(v, l, w.players[uids[j]], w.nextId + 15 * j)
  {
    hide Below, BaseAt, Extends, Base;
    if uids != [] {
      var rest, u := uids[..|uids| - 1], uids[|uids| - 1];
      assert forall i | 0 <= i < |rest| :: rest[i] == uids[i];
      BasesStand(w, l, rest);
      var v := Bases(w, l, rest);
      BaseStands(v, l, v.players[u]);
      forall j | 0 <= j < |rest|
        ensures BaseAt(Base(v, l, v.players[u]), l, w.players[uids[j]], w.nextId + 15 * j)
      {
        assert BaseAt(v, l, w.players[rest[j]], w.nextId + 15 * j);
        BaseStays(v, Base(v, l, v.players[u]), l, w.players[uids[j]], w.nextId + 15 * j);
      }
    }
  }

  /**
   The start of a match: every player has 200 food, 200 wood and 100 gold and a base with a crystal of 300
   hit points, six unhurt villagers and eight full fields at the places of its team, and there are no other
   units, buildings, fields or drops.
   */
  lemma OpeningMap(w: World, l: Layout, uids: seq<Uid>)
    requires Vacant(w) && IsEnumeration(uids, w.players.Keys)
    ensures var v, n := Opening(w, l, uids), |w.players|;
            && |uids| == n
            && (forall j | 0 <= j < n :: uids[j] in w.players && BaseAt(v, l, w.players[uids[j]], w.nextId + 15 * j))
            && |v.units| == 6 * n && |v.buildings| == n && |v.fields| == 8 * n && v.drops == map[]
            && v.ledgers.Keys == w.ledgers.Keys
            && forall u | u in v.ledgers :: v.ledgers[u] == Ledger(200, 200, 100) && u in v.marks.ledgerDirty
  {
    hide BaseAt, Bases, IsEnumeration;
    EnumerationKeys(w, uids);
    EnumerationSize(uids, w.players.Keys);
    assert |w.players| == |w.players.Keys|;
    BasesStand(w, l, uids);
    var v := Bases(w, l, uids);
    BeginsWith(v);
    forall j | 0 <= j < |uids| ensures BaseAt(Begin(v), l, w.players[uids[j]], w.nextId + 15 * j) {
      BaseStays(v, Begin(v), l, w.players[uids[j]], w.nextId + 15 * j);
    }
    hide Begin;
  }

  lemma BeginsWith(w: World)
    ensures var v := Begin(w);
            && Extends(w, v) && v.units == w.units && v.buildings == w.buildings && v.fields == w.fields
            && v.drops == w.drops && v.ledgers.Keys == w.ledgers.Keys
            && forall u | u in v.ledgers :: v.ledgers[u] == Ledger(200, 200, 100) && u in v.marks.ledgerDirty
  {}

  /** Every team of a player has units and a crystal when the match begins, and is counted once. */
  lemma TeamsCounted(w: World, l: Layout, uids: seq<Uid>)
    requires WellFormed(w) && Vacant(w) && IsEnumeration(uids, w.players.Keys) && w.ledgers.Keys == w.players.Keys
    ensures var v := Opening(w, l, uids);
            && UnitTeams(v) == CrystalTeams(v) == PlayerTeams(w)
            && v.battle == Battle(|PlayerTeams(w)|, |PlayerTeams(w)|, true)
  {
    hide WellFormed, IsEnumeration, BaseAt, Bases, UnitTeams, CrystalTeams, PlayerTeams, TeamsOf, OnlyCrystals;
    EnumerationKeys(w, uids);
    BasesFacts(w, l, uids);
    SameTeams(w, uids);
    VacantBelow(w);
    hide Vacant;
    BasesStand(w, l, uids);
    EveryTeamHasUnits(w, Bases(w, l, uids), l, uids);
    BeginCounts(Bases(w, l, uids));
    hide Begin;
  }

  lemma VacantBelow(w: World)
    requires Vacant(w)
    ensures Below(w)
  {}

  lemma BeginCounts(w: World)
    ensures UnitTeams(Begin(w)) == UnitTeams(w) && CrystalTeams(Begin(w)) == CrystalTeams(w)
    ensures Begin(w).battle == Battle(|UnitTeams(w)|, |CrystalTeams(w)|, true)
  {}

  lemma EveryTeamHasUnits(w: World, v: World, l: Layout, uids: seq<Uid>)
    requires forall u | u in w.players :: u in uids
    requires forall j | 0 <= j < |uids| :: uids[j] in w.players && BaseAt(v, l, w.players[uids[j]], w.nextId + 15 * j)
    ensures PlayerTeams(w) <= UnitTeams(v)
  {
    hide BaseAt, UnitTeams;
    forall t | t in PlayerTeams(w) ensures t in UnitTeams(v) {
      var u :| u in w.players && w.players[u].team == t;
      var j :| 0 <= j < |uids| && uids[j] == u;
      FirstVillager(v, l, w.players[u], w.nextId + 15 * j);
    }
  }

  lemma FirstVillager(w: World, l: Layout, p: Player, s: Id)
    requires BaseAt(w, l, p, s)
    ensures p.team in UnitTeams(w)
  {
    assert VillagerAt(w.units[s + 1], l, p, s + 1, s + 1);
  }
}
