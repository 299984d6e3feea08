/**
 A room before and at the start of its match: seats and teams (DungeonRoom.h, AddPlayer, RemovePlayer,
 SetReady), and the initial map (LogicShard.cc, SpawnInitialUnits, then DungeonRoom.h, BeginBattle).
 */
module Lobby {
  import opened Entities
  import opened Simulation
  import opened Laws
  import opened Evolution
  import opened Match
  import opened Replication
  import Economy
  import Sums

  const MAX_ROOM_PLAYERS: nat := 4
  const DEFAULT_MAX_PLAYERS: nat := 2

  function NormalizeMaxPlayers(n: nat): (r: nat)
    ensures 0 < r <= MAX_ROOM_PLAYERS
  {
    if n == 0 then DEFAULT_MAX_PLAYERS else Min(n, MAX_ROOM_PLAYERS)
  }

  // ---- seats ----

  datatype Seat = Seated(world: World, team: nat) | RoomFull

  /** A newcomer's team is the number of players present. */
  function AddPlayer(w: World, uid: Uid, maxPlayers: nat): Seat {
    if uid in w.players then Seated(w, w.players[uid].team)
    else if |w.players| >= maxPlayers then RoomFull
    else
      Seated(w.(players := w.players[uid := Player(uid, |w.players|, false)],
                ledgers := if uid in w.ledgers then w.ledgers else w.ledgers[uid := Ledger(0, 0, 0)]),
             |w.players|)
  }

  function SetReady(w: World, uid: Uid, ready: bool): World
    requires uid in w.players
  {
    w.(players := w.players[uid := w.players[uid].(ready := ready)])
  }

  function RemovePlayer(w: World, uid: Uid): World {
    w.(players := Remove(w.players, uid), ledgers := Remove(w.ledgers, uid))
  }

  predicate AllReady(w: World) {
    w.players != map[] && forall u | u in w.players :: w.players[u].ready
  }

  // ---- are teams distinct? ----

  ghost predicate TeamsDistinct(players: map<Uid, Player>) {
    forall u, v | u in players && v in players && u != v :: players[u].team != players[v].team
  }

  /** The team a newcomer would be given is not in use. */
  predicate NextTeamFree(players: map<Uid, Player>) { forall u | u in players :: players[u].team != |players| }

  /** A join keeps teams distinct exactly when the number of players is nobody's team yet. */
  lemma JoinKeepsTeams(w: World, uid: Uid, maxPlayers: nat)
    requires TeamsDistinct(w.players) && uid !in w.players && |w.players| < maxPlayers
    ensures TeamsDistinct(AddPlayer(w, uid, maxPlayers).world.players) <==> NextTeamFree(w.players)
  {
    var v := AddPlayer(w, uid, maxPlayers).world;
    if !NextTeamFree(w.players) {
      var u :| u in w.players && w.players[u].team == |w.players|;
      assert u in v.players && v.players[u].team == v.players[uid].team;
    }
  }

  /** While nobody leaves, teams are numbers below the player count, so the next one is free. */
  ghost predicate TeamsBelow(players: map<Uid, Player>) { forall u | u in players :: players[u].team < |players| }

  lemma JoinsKeepTeams(w: World, uid: Uid, maxPlayers: nat)
    requires TeamsDistinct(w.players) && TeamsBelow(w.players) && AddPlayer(w, uid, maxPlayers).Seated?
    ensures var v := AddPlayer(w, uid, maxPlayers).world; TeamsDistinct(v.players) && TeamsBelow(v.players)
  {
    if uid !in w.players { OneMore(w.players, uid, Player(uid, |w.players|, false)); }
    hide TeamsDistinct, TeamsBelow;
  }

  lemma OneMore(players: map<Uid, Player>, uid: Uid, p: Player)
    requires TeamsDistinct(players) && TeamsBelow(players) && uid !in players && p.team == |players|
    ensures TeamsDistinct(players[uid := p]) && TeamsBelow(players[uid := p])
  {
    GrowMap(players, uid, p);
  }

  lemma GrowMap<V>(m: map<nat, V>, k: nat, v: V)
    requires k !in m
    ensures |m[k := v]| == |m| + 1
  {
    assert m[k := v].Keys == m.Keys + {k};
    assert |m[k := v].Keys| == |m.Keys| + 1;
  }

  /** After a leave it is not: two players sit down, the first leaves, and the next one gets the second's team. */
  lemma LeaveThenJoinCollides(a: Uid, b: Uid, c: Uid)
    requires a != b && b != c && a != c
    ensures var w1 := AddPlayer(EMPTY_WORLD, a, 2).world;
            var w2 := AddPlayer(w1, b, 2).world;
            var w3 := AddPlayer(RemovePlayer(w2, a), c, 2).world;
            TeamsDistinct(w2.players) && b in w3.players && c in w3.players && w3.players[b].team == w3.players[c].team
  {
    var w1 := AddPlayer(EMPTY_WORLD, a, 2).world;
    assert w1.players == map[a := Player(a, 0, false)];
    var w2 := AddPlayer(w1, b, 2).world;
    assert w2.players == map[a := Player(a, 0, false), b := Player(b, 1, false)];
    var left := RemovePlayer(w2, a);
    assert left.players == map[b := Player(b, 1, false)];
  }

  // ---- the initial map ----

  /** Positions and headings of the initial map, by team and place. */
  datatype Layout = Layout(crystal: nat -> Vec3, yaw: nat -> real, villager: (nat, nat) -> Vec3,
                           field: (nat, nat) -> Vec3)

  const START_UNITS: nat := 6
  const UNIT_HP := 100.0

  datatype Patch = Patch(raw: nat, amount: nat)

  const START_FIELDS: seq<Patch> :=
    [Patch(RAW_BERRIES, 450), Patch(RAW_BERRIES, 450), Patch(RAW_BERRIES, 450),
     Patch(RAW_WOOD, 600), Patch(RAW_WOOD, 600), Patch(RAW_WOOD, 600),
     Patch(RAW_GOLD, 400), Patch(RAW_GOLD, 400)]

  const BASE_RESOURCES: nat := 3950

  function Villagers(w: World, l: Layout, p: Player, n: nat): World {
    if n == 0 then w
    else
      var v := Villagers(w, l, p, n - 1);
      SpawnUnit(v, NewUnit(v.nextId, p.uid, p.team, VILLAGER, l.villager(p.team, n - 1), UNIT_HP, MOVE_SPEED,
                           l.yaw(p.team)))
  }

  function Deposits(w: World, l: Layout, p: Player, n: nat): World
    requires n <= |START_FIELDS|
  {
    if n == 0 then w
    else
      var d := START_FIELDS[n - 1];
      SpawnField(Deposits(w, l, p, n - 1), d.raw, l.field(p.team, n - 1), d.amount)
  }

  /** A player's crystal, villagers and resource fields. */
  function Base(w: World, l: Layout, p: Player): World {
    var v := SpawnBuilding(w, NewBuilding(w.nextId, p.uid, p.team, CRYSTAL, l.crystal(p.team), l.yaw(p.team), false));
    Deposits(Villagers(v, l, p, START_UNITS), l, p, |START_FIELDS|)
  }

  function Bases(w: World, l: Layout, uids: seq<Uid>): World {
    if uids == [] then w
    else
      var v, u := Bases(w, l, uids[..|uids| - 1]), uids[|uids| - 1];
      if u in v.players then Base(v, l, v.players[u]) else v
  }

  /** The room when the match begins. */
  function Opening(w: World, l: Layout, uids: seq<Uid>): World { Begin(Bases(w, l, uids)) }

  // ---- what the initial map is like ----

  /** Nothing is on the map yet. */
  ghost predicate Vacant(w: World) {
    && w.units == map[] && w.buildings == map[] && w.fields == map[] && w.drops == map[]
    && w.audit == NO_LOSSES && !w.battle.begun && 0 < w.nextId
  }

  lemma NewUnitOk(id: Id, owner: Uid, team: nat, kind: nat, pos: Vec3, hp: real, speed: real, yaw: real)
    ensures var u := NewUnit(id, owner, team, kind, pos, hp, speed, yaw);
            u.id == id && UnitOk(u) && u.carried == 0 && u.team == team
  {}

  /** The parts of a world that building bases never touches, besides what it adds. */
  ghost predicate Beside(a: World, b: World) {
    b.players == a.players && b.ledgers == a.ledgers && b.drops == a.drops && b.audit == a.audit
    && b.battle == a.battle && b.pending == a.pending
  }

  lemma {:induction false} VillagersFacts(w: World, l: Layout, p: Player, n: nat)
    requires WellFormed(w)
    ensures var v := Villagers(w, l, p, n);
            && WellFormed(v) && Economy.Wealth(v) == Economy.Wealth(w) && Beside(w, v)
            && v.buildings == w.buildings && v.fields == w.fields
            && (forall k | k in v.units :: (k in w.units && v.units[k] == w.units[k]) || v.units[k].team == p.team)
  {
    hide WellFormed, Economy.Wealth, UnitOk;
    if n > 0 {
      VillagersFacts(w, l, p, n - 1);
      var v := Villagers(w, l, p, n - 1);
      var u := NewUnit(v.nextId, p.uid, p.team, VILLAGER, l.villager(p.team, n - 1), UNIT_HP, MOVE_SPEED,
                       l.yaw(p.team));
      NewUnitOk(v.nextId, p.uid, p.team, VILLAGER, l.villager(p.team, n - 1), UNIT_HP, MOVE_SPEED, l.yaw(p.team));
      SpawnUnitWellFormed(v, u);
      FreshUnit(v);
      Economy.SpawnUnitWealth(v, u);
      hide NewUnit;
    }
  }

  lemma FreshUnit(w: World)
    requires WellFormed(w)
    ensures w.nextId !in w.units && w.nextId !in w.buildings && w.nextId !in w.fields && w.nextId !in w.drops
  {}

  lemma SpawnFieldWellFormed(w: World, raw: nat, pos: Vec3, amount: nat)
    requires WellFormed(w)
    ensures WellFormed(SpawnField(w, raw, pos, amount))
  {
    hide UnitOk, SiteOk;
  }

  lemma SpawnFieldFacts(w: World, raw: nat, pos: Vec3, amount: nat)
    requires WellFormed(w)
    ensures WellFormed(SpawnField(w, raw, pos, amount))
    ensures Economy.Wealth(SpawnField(w, raw, pos, amount)) == Economy.Wealth(w) + amount
  {
    hide WellFormed, Sums.Sum;
    FreshUnit(w);
    SpawnFieldWellFormed(w, raw, pos, amount);
    var f := Field(w.nextId, raw, pos, 0.0, amount);
    Sums.Put(Economy.FieldAmounts(w.fields), w.nextId, amount);
    assert Economy.FieldAmounts(w.fields[w.nextId := f]) == Economy.FieldAmounts(w.fields)[w.nextId := amount];
  }

  /** The sum of the first n initial fields. */
  function Lain(n: nat): nat
    requires n <= |START_FIELDS|
  {
    if n == 0 then 0 else Lain(n - 1) + START_FIELDS[n - 1].amount
  }

  lemma {:induction false} DepositsFacts(w: World, l: Layout, p: Player, n: nat)
    requires WellFormed(w) && n <= |START_FIELDS|
    ensures var v := Deposits(w, l, p, n);
            && WellFormed(v) && Economy.Wealth(v) == Economy.Wealth(w) + Lain(n) && Beside(w, v)
            && v.buildings == w.buildings && v.units == w.units
  {
    hide WellFormed, Economy.Wealth;
    if n > 0 {
      DepositsFacts(w, l, p, n - 1);
      var d := START_FIELDS[n - 1];
      SpawnFieldFacts(Deposits(w, l, p, n - 1), d.raw, l.field(p.team, n - 1), d.amount);
    }
  }

  lemma LainAll()
    ensures |START_FIELDS| == 8 && Lain(8) == BASE_RESOURCES
  {
    assert Lain(2) == 900;
    assert Lain(4) == 1950;
    assert Lain(6) == 3150;
  }

  /** One base more: the same players, one crystal of its team, and the resources of a base. */
  lemma BaseFacts(w: World, l: Layout, p: Player)
    requires WellFormed(w)
    ensures var v := Base(w, l, p);
            && WellFormed(v) && Economy.Wealth(v) == Economy.Wealth(w) + BASE_RESOURCES && Beside(w, v)
            && v.buildings == w.buildings[w.nextId := NewBuilding(w.nextId, p.uid, p.team, CRYSTAL, l.crystal(p.team),
                                                                  l.yaw(p.team), false)]
            && w.nextId !in w.buildings
            && (forall k | k in v.units :: (k in w.units && v.units[k] == w.units[k]) || v.units[k].team == p.team)
  {
    hide WellFormed, Economy.Wealth, NewBuilding, SiteOk;
    var b := NewBuilding(w.nextId, p.uid, p.team, CRYSTAL, l.crystal(p.team), l.yaw(p.team), false);
    NewCrystal(w.nextId, p.uid, p.team, l.crystal(p.team), l.yaw(p.team));
    SpawnBuildingWellFormed(w, b);
    SpawnBuildingWealth(w, b);
    FreshUnit(w);
    var v1 := SpawnBuilding(w, b);
    VillagersFacts(v1, l, p, START_UNITS);
    var v2 := Villagers(v1, l, p, START_UNITS);
    DepositsFacts(v2, l, p, |START_FIELDS|);
    LainAll();
    hide Lain, Villagers, Deposits;
  }

  lemma NewCrystal(id: Id, owner: Uid, team: nat, pos: Vec3, yaw: real)
    ensures var b := NewBuilding(id, owner, team, CRYSTAL, pos, yaw, false);
            b.id == id && SiteOk(b) && b.team == team && b.buildingType == CRYSTAL
            && !b.underConstruction && b.hp == 300.0
  {}

  function TeamsOf(players: map<Uid, Player>, uids: seq<Uid>): set<nat> {
    set u | u in uids && u in players :: players[u].team
  }

  /** Every building is a finished crystal. */
  ghost predicate OnlyCrystals(w: World) {
    forall k | k in w.buildings ::
      w.buildings[k].buildingType == CRYSTAL && !w.buildings[k].underConstruction && w.buildings[k].hp > 0.0
  }

  lemma OneMoreCrystal(w: World, v: World, b: Building)
    requires OnlyCrystals(w) && w.nextId !in w.buildings && v.buildings == w.buildings[w.nextId := b]
    requires b.buildingType == CRYSTAL && !b.underConstruction && b.hp > 0.0
    ensures OnlyCrystals(v) && CrystalTeams(v) == CrystalTeams(w) + {b.team}
  {
    forall t | t in CrystalTeams(w) ensures t in CrystalTeams(v) {
      var k :| k in w.buildings && w.buildings[k].team == t;
      assert v.buildings[k].team == t;
    }
    assert v.buildings[w.nextId].team == b.team;
  }

  lemma LiveAll(w: World)
    requires OnlyCrystals(w)
    ensures LiveCrystalTeams(w) == CrystalTeams(w) && CrystalsBuilt(w)
  {}

  lemma TeamsStep(players: map<Uid, Player>, uids: seq<Uid>)
    requires uids != [] && uids[|uids| - 1] in players
    ensures TeamsOf(players, uids) == TeamsOf(players, uids[..|uids| - 1]) + {players[uids[|uids| - 1]].team}
  {
    var rest, last := uids[..|uids| - 1], uids[|uids| - 1];
    assert uids == rest + [last];
  }

  /** A base for each of the players listed. */
  lemma {:induction false} BasesFacts(w: World, l: Layout, uids: seq<Uid>)
    requires WellFormed(w) && Vacant(w) && forall i | 0 <= i < |uids| :: uids[i] in w.players
    ensures var v := Bases(w, l, uids);
            && WellFormed(v) && Economy.Wealth(v) == Economy.Wealth(w) + BASE_RESOURCES * |uids| && Beside(w, v)
            && OnlyCrystals(v) && CrystalTeams(v) == TeamsOf(w.players, uids)
            && UnitTeams(v) <= TeamsOf(w.players, uids)
  {
    hide WellFormed, Economy.Wealth, NewBuilding, Base, CrystalTeams, UnitTeams, TeamsOf;
    if uids == [] {
      NoTeams(w);
    } else {
      var rest, u := uids[..|uids| - 1], uids[|uids| - 1];
      BasesFacts(w, l, rest);
      var v := Bases(w, l, rest);
      var p := v.players[u];
      BaseFacts(v, l, p);
      NewCrystal(v.nextId, p.uid, p.team, l.crystal(p.team), l.yaw(p.team));
      OneMoreCrystal(v, Base(v, l, p),
                     NewBuilding(v.nextId, p.uid, p.team, CRYSTAL, l.crystal(p.team), l.yaw(p.team), false));
      TeamsStep(w.players, uids);
      UnitTeamsStep(v, Base(v, l, p), p.team);
    }
  }

  lemma NoTeams(w: World)
    requires Vacant(w)
    ensures CrystalTeams(w) == {} && UnitTeams(w) == {} && OnlyCrystals(w)
    ensures TeamsOf(w.players, []) == {}
  {}

  lemma UnitTeamsStep(w: World, v: World, team: nat)
    requires forall k | k in v.units :: (k in w.units && v.units[k] == w.units[k]) || v.units[k].team == team
    ensures UnitTeams(v) <= UnitTeams(w) + {team}
  {}

  // ---- the starting ledgers ----

  lemma {:induction false} SumConstant(m: map<nat, nat>, c: nat)
    requires forall k | k in m :: m[k] == c
    ensures Sums.Sum(m) == Multiple(c, |m|)
    decreases |m|
  {
    hide Multiple, Sums.Sum;
    if m == map[] {
      EmptySum(m);
      MultipleStep(c, 0);
    } else {
      var k :| k in m;
      Sums.Split(m, k);
      OneLess(m, k);
      SumConstant(m - {k}, c);
      MultipleStep(c, |m - {k}|);
    }
  }

  function Multiple(c: nat, n: nat): nat { c * n }

  lemma MultipleStep(c: nat, n: nat)
    ensures Multiple(c, n + 1) == Multiple(c, n) + c && Multiple(c, 0) == 0
  {}

  lemma EmptySum(m: map<nat, nat>)
    requires m == map[]
    ensures Sums.Sum(m) == 0 && |m| == 0
  {}

  lemma OneLess(m: map<nat, nat>, k: nat)
    requires k in m
    ensures |m| == |m - {k}| + 1
  {
    assert (m - {k}).Keys == m.Keys - {k};
    assert |m| == |m.Keys| && |m - {k}| == |(m - {k}).Keys|;
  }

  const START_SUM: nat := 500

  lemma BeginWealth(w: World)
    requires WellFormed(w)
    ensures WellFormed(Begin(w))
    ensures Economy.Wealth(Begin(w)) + Economy.Owned(w) == Economy.Wealth(w) + START_SUM * |w.ledgers|
  {
    hide WellFormed, Sums.Sum;
    BeginWellFormed(w);
    var v := Begin(w);
    var held := Economy.Holdings(v.ledgers);
    assert v.ledgers.Keys == w.ledgers.Keys;
    assert held.Keys == v.ledgers.Keys;
    assert |held| == |held.Keys| && |w.ledgers| == |w.ledgers.Keys|;
    SumConstant(held, START_SUM);
  }

  lemma BeginWellFormed(w: World)
    requires WellFormed(w)
    ensures WellFormed(Begin(w))
  {}

  lemma {:induction false} EnumerationSize(uids: seq<Uid>, keys: set<Uid>)
    requires IsEnumeration(uids, keys)
    ensures |uids| == |keys|
    decreases |uids|
  {
    if uids == [] {
      assert keys == {};
    } else {
      var last := uids[|uids| - 1];
      var rest := uids[..|uids| - 1];
      forall k | k in keys - {last} ensures k in rest {
        assert k in uids;
      }
      EnumerationSize(rest, keys - {last});
    }
  }

  /** The wealth a match starts with. */
  function StartWealth(players: nat): nat { players * (START_SUM + BASE_RESOURCES) }

  /** All teams of the players. */
  function PlayerTeams(w: World): set<nat> { set u | u in w.players :: w.players[u].team }

  lemma VacantWealth(w: World)
    requires Vacant(w)
    ensures Economy.Wealth(w) == Economy.Owned(w)
  {
    assert Economy.Loads(w.units) == map[] && Economy.FieldAmounts(w.fields) == map[]
           && Economy.DropAmounts(w.drops) == map[];
  }

  /**
   The start of a match: a well-formed room with a finished crystal for every player's team, and
   4450 resources a player, which for four players is far below what 32 bits hold.
   */
  lemma OpeningFacts(w: World, l: Layout, uids: seq<Uid>)
    requires WellFormed(w) && Vacant(w) && IsEnumeration(uids, w.players.Keys) && w.ledgers.Keys == w.players.Keys
    ensures var v := Opening(w, l, uids);
            && WellFormed(v) && v.players == w.players && v.ledgers.Keys == w.ledgers.Keys && v.pending == w.pending
            && v.battle.begun && CrystalsBuilt(v)
            && LiveCrystalTeams(v) == PlayerTeams(w) && v.battle.crystalTeams == |PlayerTeams(w)|
            && v.battle.teams <= |PlayerTeams(w)|
            && Economy.Wealth(v) == StartWealth(|w.players|)
    ensures |w.players| <= MAX_ROOM_PLAYERS ==> StartWealth(|w.players|) < U32
  {
    hide WellFormed, Economy.Wealth, Economy.Owned, IsEnumeration, Bases;
    EnumerationKeys(w, uids);
    EnumerationSize(uids, w.players.Keys);
    BasesFacts(w, l, uids);
    var v := Bases(w, l, uids);
    VacantWealth(w);
    BeginWealth(v);
    OwnedSame(w, v);
    LiveAll(v);
    BeginTeams(v);
    Sizes(UnitTeams(v), TeamsOf(w.players, uids));
    assert TeamsOf(w.players, uids) == PlayerTeams(w) by { SameTeams(w, uids); }
    assert |w.players| == |w.players.Keys| && |w.ledgers| == |w.ledgers.Keys|;
  }

  lemma OwnedSame(w: World, v: World)
    requires v.ledgers == w.ledgers
    ensures Economy.Owned(v) == Economy.Owned(w)
  {}

  lemma BeginTeams(w: World)
    ensures LiveCrystalTeams(Begin(w)) == LiveCrystalTeams(w) && (CrystalsBuilt(Begin(w)) <==> CrystalsBuilt(w))
    ensures Begin(w).battle.crystalTeams == |CrystalTeams(w)| && Begin(w).battle.begun
    ensures Begin(w).battle.teams == |UnitTeams(w)|
    ensures Begin(w).ledgers.Keys == w.ledgers.Keys
  {}

  lemma EnumerationKeys(w: World, uids: seq<Uid>)
    requires IsEnumeration(uids, w.players.Keys)
    ensures forall i | 0 <= i < |uids| :: uids[i] in w.players
    ensures forall u | u in w.players :: u in uids
  {}

  lemma SameTeams(w: World, uids: seq<Uid>)
    requires forall u | u in w.players :: u in uids
    ensures TeamsOf(w.players, uids) == PlayerTeams(w)
  {}

  /** A match between at least two teams is undecided when it begins. */
  lemma FairStart(w: World, l: Layout, uids: seq<Uid>)
    requires WellFormed(w) && Vacant(w) && IsEnumeration(uids, w.players.Keys) && w.ledgers.Keys == w.players.Keys
    requires |PlayerTeams(w)| >= 2
    ensures Match.Verdict(Opening(w, l, uids)) == Undecided
  {
    hide WellFormed, Vacant, IsEnumeration, Opening, PlayerTeams;
    OpeningFacts(w, l, uids);
  }

  /**
   If all players were given the same team, as a leave and a join can bring about, play can never
   decide the match: no crystal lost and no unit killed ends it.
   */
  lemma SameTeamNeverEnds(w: World, l: Layout, uids: seq<Uid>, inputs: seq<Input>)
    requires WellFormed(w) && Vacant(w) && IsEnumeration(uids, w.players.Keys) && w.ledgers.Keys == w.players.Keys
    requires |PlayerTeams(w)| <= 1
    ensures Match.Verdict(Run(ClearMarks(Opening(w, l, uids)), inputs)) == Undecided
  {
    hide WellFormed, Vacant, IsEnumeration, Opening, PlayerTeams, Run;
    OpeningFacts(w, l, uids);
    var v := ClearMarks(Opening(w, l, uids));
    ClearMarksWellFormed(Opening(w, l, uids));
    RunLasts(v, inputs);
  }
}
