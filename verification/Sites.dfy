/**
 From a Build command to a finished building (DungeonRoom.h, ApplyBuild and StepConstruct): what is paid
 and placed, what a frame of construction adds, and how long it takes until the building is finished.
 */
module Sites {
  import opened Entities
  import opened Simulation
  import opened Laws
  import opened Evolution
  import opened Replication
  import opened Commands
  import opened Bystanders
  import opened Movement
  import opened Moments
  import opened Obedience
  import Combat
  import Match
  import Sight
  import Strikes
  import Training
  import WorkerLiveness

  // ---- ordering a building ----

  /** Price in wood and full hit points: camps, inns and barracks have their own, anything else is free. */
  function WoodFor(buildingType: nat): nat {
    if buildingType == 0 then 50 else if buildingType == 1 then 100 else if buildingType == 2 then 150 else 0
  }

  function FullHp(buildingType: nat): real {
    if buildingType == 1 || buildingType == 3 then 300.0 else if buildingType == 2 then 400.0 else 200.0
  }

  /** A site as it is placed: a twentieth of its hit points, nothing built yet. */
  function Placed(id: Id, c: Command, team: nat): Building {
    Building(id, c.owner, team, c.auxType, c.target, c.yaw, FullHp(c.auxType) / 20.0, FullHp(c.auxType), 0.0, true, [])
  }

  /** Paid and placed: the commander is poorer by the price, and one site is there. */
  ghost predicate Bought(w: World, v: World, c: Command)
    requires c.owner in w.ledgers
  {
    var l, price := w.ledgers[c.owner], WoodFor(c.auxType);
    && c.owner in v.ledgers && v.ledgers == w.ledgers[c.owner := v.ledgers[c.owner]]
    && l.wood >= price && v.ledgers[c.owner] == l.(wood := l.wood - price)
    && v.audit.spent == w.audit.spent + price && c.owner in v.marks.ledgerDirty
    && w.nextId !in w.buildings && v.nextId == w.nextId + 1
    && v.buildings
       == w.buildings[w.nextId := Placed(w.nextId, c, if c.owner in w.players then w.players[c.owner].team else 0)]
    && v.marks.siteSpawned == w.marks.siteSpawned + [w.nextId]
    && v.fields == w.fields && v.drops == w.drops && v.rejected == w.rejected && v.players == w.players
  }

  lemma PriceIs(buildingType: nat)
    ensures BuildingCost(buildingType) == Cost(0, WoodFor(buildingType), 0)
    ensures BuildingMaxHp(buildingType) == FullHp(buildingType) && FullHp(buildingType) / 20.0 >= 1.0
  {}

  lemma PlacedIs(id: Id, c: Command, team: nat)
    ensures NewBuilding(id, c.owner, team, c.auxType, c.target, c.yaw, true) == Placed(id, c, team)
  {
    PriceIs(c.auxType);
    hide BuildingMaxHp, FullHp;
  }

  lemma PayPrice(l: Ledger, price: nat)
    requires l.food < U32 && l.wood < U32 && l.gold < U32 && price <= l.wood
    ensures l.Pay(Cost(0, price, 0)) == l.(wood := l.wood - price)
  {}

  /** Sending the builders changes units and their marks only. */
  lemma {:induction false} RaisingTouches(e: Env, w: World, site: Id, ids: seq<Id>, n: nat)
    requires n <= |ids|
    ensures var v := Give(e, w, Raising(site), ids, n);
            v == w.(units := v.units, marks := w.marks.(dirty := v.marks.dirty))
  {
    hide Settle;
    if n > 0 {
      RaisingTouches(e, w, site, ids, n - 1);
      var mid, k := Give(e, w, Raising(site), ids, n - 1), ids[n - 1];
      if k in mid.units { RaisingOne(e, mid, site, n - 1, |ids|, k); }
    }
  }

  lemma RaisingOne(e: Env, w: World, site: Id, i: nat, n: nat, k: Id)
    requires i < n && k in w.units
    ensures var v := Settle(w, React(Obey(e, Raising(site), i, n, w.units[k])));
            v == w.(units := v.units, marks := w.marks.(dirty := v.marks.dirty))
  {}

  lemma Purchase(w: World, c: Command)
    requires WellFormed(w) && c.owner in w.ledgers && w.ledgers[c.owner].wood >= WoodFor(c.auxType)
    requires var l := w.ledgers[c.owner]; l.food < U32 && l.wood < U32 && l.gold < U32
    ensures var w1 := Pay(w, c.owner, BuildingCost(c.auxType));
            var b := NewBuilding(w.nextId, c.owner, TeamOf(w, c.owner), c.auxType, c.target, c.yaw, true);
            Bought(w, SpawnBuilding(w1, b), c)
  {
    PriceIs(c.auxType);
    PlacedIs(w.nextId, c, TeamOf(w, c.owner));
    PayPrice(w.ledgers[c.owner], WoodFor(c.auxType));
    assert w.nextId !in w.buildings;
    hide NewBuilding, Placed, WoodFor, BuildingCost, Ledger.Pay, UnitOk, SiteOk, WellFormed;
  }

  /** A unit sent to a site: it has dropped what it did and goes to build. */
  function Builder(u: Unit, site: Id): Unit {
    Released(u).(task := Constructing, buildTarget := site, state := Moving)
  }

  /** Every owned unit that the command names goes to build the site; all others are as they were. */
  ghost predicate BuildersSent(w: World, v: World, c: Command, site: Id) {
    && v.units.Keys == w.units.Keys
    && forall k | k in w.units ::
         if w.units[k].owner == c.owner && k in c.unitIds then
           v.units[k] == Builder(w.units[k], site) && k in v.marks.dirty
         else v.units[k] == w.units[k]
  }

  lemma RaisingIs(e: Env, site: Id, i: nat, n: nat, u: Unit)
    requires i < n
    ensures Obey(e, Raising(site), i, n, u).unit == Builder(u, site)
  {}

  lemma SendBuilders(e: Env, w: World, c: Command, site: Id)
    requires WellFormed(w) && site != 0
    ensures var ids := OwnedIds(w, c.owner, c.unitIds);
            BuildersSent(w, Give(e, w, Raising(site), ids, |ids|), c, site)
  {
    hide WellFormed, Give, Obey, Builder, OwnedIds;
    var ids := OwnedIds(w, c.owner, c.unitIds);
    Combat.GiveKeys(e, w, Raising(site), ids, |ids|);
    OwnedIdsAreOwned(w, c.owner, c.unitIds);
    OwnedIdsAreListed(w, c.owner, c.unitIds);
    var v := Give(e, w, Raising(site), ids, |ids|);
    assert ids[..|ids|] == ids;
    forall k | k in w.units
      ensures if w.units[k].owner == c.owner && k in c.unitIds then
                v.units[k] == Builder(w.units[k], site) && k in v.marks.dirty
              else v.units[k] == w.units[k]
    {
      var i := GivenOrder(e, w, Raising(site), ids, |ids|, k);
      if w.units[k].owner == c.owner && k in c.unitIds {
        OwnedAre(w, c.owner, c.unitIds, k);
        RaisingIs(e, site, i, |ids|, w.units[k]);
      }
    }
  }

  lemma BoughtStays(w: World, v: World, v': World, c: Command)
    requires c.owner in w.ledgers && Bought(w, v, c)
    requires v' == v.(units := v'.units, marks := v.marks.(dirty := v'.marks.dirty))
    ensures Bought(w, v', c)
  {}

  lemma SentSame(w: World, a: World, v: World, c: Command, site: Id)
    requires BuildersSent(a, v, c, site) && a.units == w.units
    ensures BuildersSent(w, v, c, site)
  {}

  /** What follows the judgement on a Build command. */
  lemma BuildJudged(w: World, c: Command)
    ensures JudgeBuild(w, c)
            == if c.owner !in w.ledgers || c.auxType == 3 then Refused(InvalidRequest)
               else if w.ledgers[c.owner].wood < WoodFor(c.auxType) then Refused(NotEnoughResources)
               else Accepted
  {
    PriceIs(c.auxType);
    hide BuildingCost, WoodFor;
  }

  /**
   An order to build, case by case. Without a ledger, or for a crystal, the request is invalid; without
   the wood it is refused for lack of resources; a refusal changes nothing else. Otherwise the price of
   50, 100 or 150 wood is paid exactly, one site appears where and as ordered under a new id, for the
   commander and its team, and all of its named units, and no others, go to build it.
   */
  lemma BuildOutcome(e: Env, w: World, c: Command)
    requires WellFormed(w) && c.kind == BuildCmd
    requires forall u | u in w.ledgers :: w.ledgers[u].food < U32 && w.ledgers[u].wood < U32 && w.ledgers[u].gold < U32
    ensures var v := Apply(e, w, c);
            if c.owner !in w.ledgers || c.auxType == 3 then OnlyRefused(w, v, c, InvalidRequest)
            else if w.ledgers[c.owner].wood < WoodFor(c.auxType) then OnlyRefused(w, v, c, NotEnoughResources)
            else Bought(w, v, c) && BuildersSent(w, v, c, w.nextId)
  {
    hide WellFormed, JudgeBuild, Pay, SpawnBuilding, NewBuilding, Give, Bought, BuildersSent, OwnedIds, WoodFor,
         BuildingCost, Evolves;
    BuildJudged(w, c);
    if JudgeBuild(w, c).Accepted? {
      var w1 := Pay(w, c.owner, BuildingCost(c.auxType));
      var b := NewBuilding(w.nextId, c.owner, TeamOf(w, c.owner), c.auxType, c.target, c.yaw, true);
      var w2 := SpawnBuilding(w1, b);
      Purchase(w, c);
      PurchaseOk(w, c);
      var ids := OwnedIds(w2, c.owner, c.unitIds);
      SendBuilders(e, w2, c, w.nextId);
      RaisingTouches(e, w2, w.nextId, ids, |ids|);
      BoughtStays(w, w2, Apply(e, w, c), c);
      SentSame(w, w2, Apply(e, w, c), c, w.nextId);
    }
  }

  lemma PurchaseOk(w: World, c: Command)
    requires WellFormed(w) && JudgeBuild(w, c).Accepted?
    ensures var w1 := Pay(w, c.owner, BuildingCost(c.auxType));
            var b := NewBuilding(w.nextId, c.owner, TeamOf(w, c.owner), c.auxType, c.target, c.yaw, true);
            var w2 := SpawnBuilding(w1, b);
            WellFormed(w2) && w2.units == w.units && w.nextId != 0
  {
    hide WellFormed, Pay, Evolves, BuildingCost;
    PositiveId(w);
    PayNextId(w, c.owner, BuildingCost(c.auxType));
    PayKeeps(w, c.owner, BuildingCost(c.auxType));
    var w1 := Pay(w, c.owner, BuildingCost(c.auxType));
    SpawnBuildingKeeps(w1, NewBuilding(w.nextId, c.owner, TeamOf(w, c.owner), c.auxType, c.target, c.yaw, true));
  }
}
