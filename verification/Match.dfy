/**
 The course of a battle: how it begins, when it is over (DungeonRoom.h, BeginBattle and
 CheckGameOver), and what lasts over any number of ticks.
 */
module Match {
  import opened Entities
  import opened Simulation
  import opened Laws
  import opened Tracking
  import opened Evolution
  import opened Replication
  import Economy

  const NO_WINNER: nat := 0xFFFF_FFFF

  function UnitTeams(w: World): set<nat> { set k | k in w.units :: w.units[k].team }

  function CrystalTeams(w: World): set<nat> {
    set k | k in w.buildings && w.buildings[k].buildingType == CRYSTAL :: w.buildings[k].team
  }

  function LiveCrystalTeams(w: World): set<nat> {
    set k | k in w.buildings && w.buildings[k].buildingType == CRYSTAL && w.buildings[k].hp > 0.0 :: w.buildings[k].team
  }

  /** Count the teams and hand out the starting resources. */
  function Begin(w: World): World {
    w.(ledgers := map k | k in w.ledgers :: START_LEDGER,
       marks := w.marks.(ledgerDirty := w.marks.ledgerDirty + w.ledgers.Keys),
       battle := Battle(|UnitTeams(w)|, |CrystalTeams(w)|, true))
  }

  datatype Standing = Undecided | Won(team: nat)

  ghost function Survivor(teams: set<nat>): Standing {
    if |teams| == 0 then Won(NO_WINNER)
    else if |teams| == 1 then var t :| t in teams; Won(t)
    else Undecided
  }

  /** Crystals decide when at least two teams started with one, units otherwise. */
  ghost function Verdict(w: World): Standing {
    if !w.battle.begun then Undecided
    else if w.battle.crystalTeams >= 2 then Survivor(LiveCrystalTeams(w))
    else if w.battle.teams < 2 then Undecided
    else Survivor(UnitTeams(w))
  }

  // ---- what lasts over a run ----

  /** Entities never change hands, new ids are fresh and no new crystal appears. */
  ghost predicate Lasting(a: World, b: World) {
    && Persistent(a, b) && a.nextId <= b.nextId
    && (forall k | k in b.units && k !in a.units :: a.nextId <= k)
    && (forall k | k in b.buildings && k !in a.buildings :: a.nextId <= k)
  }

  lemma LastingTrans(a: World, b: World, c: World)
    requires WellFormed(a) && Lasting(a, b) && Lasting(b, c)
    ensures Lasting(a, c)
  {
    hide UnitOk, SiteOk;
    forall k | k in a.units && k in c.units ensures SameLife(a.units[k], c.units[k]) {
      assert k < b.nextId;
      assert k in b.units;
    }
    forall k | k in a.buildings && k in c.buildings ensures SameBuilding(a.buildings[k], c.buildings[k]) {
      assert k < b.nextId;
      assert k in b.buildings;
    }
    forall k | k in c.buildings && k !in a.buildings ensures c.buildings[k].buildingType != CRYSTAL {
      if k in b.buildings { assert SameBuilding(b.buildings[k], c.buildings[k]); }
    }
  }

  lemma LastingFrame(a: World, b: World)
    requires Evolves(a, b)
    ensures Lasting(a, ClearMarks(b))
  {}

  /** Over any run: entities last, and while 32 bits hold the total, resources are conserved. */
  lemma {:induction false} RunLasts(w: World, inputs: seq<Input>)
    requires WellFormed(w)
    ensures Lasting(w, Run(w, inputs)) && Economy.Balanced(w, Run(w, inputs))
  {
    hide WellFormed, Advance, Lasting, Economy.Wealth;
    if inputs == [] {
      LastingRefl(w);
    } else {
      var a := Run(w, inputs[..|inputs| - 1]);
      RunLasts(w, inputs[..|inputs| - 1]);
      RunWellFormed(w, inputs[..|inputs| - 1]);
      var b := Advance(a, inputs[|inputs| - 1]);
      AdvanceKeeps(a, inputs[|inputs| - 1]);
      LastingFrame(a, b);
      LastingTrans(w, a, ClearMarks(b));
      ClearMarksWealth(b);
    }
    hide Evolves;
  }

  lemma LastingRefl(w: World)
    ensures Lasting(w, w)
  {}

  lemma ClearMarksWealth(w: World)
    ensures Economy.Wealth(ClearMarks(w)) == Economy.Wealth(w)
  {}

  // ---- conservation ----

  lemma StockBounds(w: World, uid: Uid)
    requires uid in w.ledgers
    ensures w.ledgers[uid].Sum() <= Economy.Wealth(w)
  {
    Economy.LedgerWealth(w, uid, w.ledgers[uid]);
  }

  /**
   Conservation over whole runs: what is in play plus what has left play is what was there at the
   start, so no 32-bit ledger can ever wrap in a room that starts below 2^32.
   */
  lemma RunConserves(w: World, inputs: seq<Input>)
    requires WellFormed(w) && Economy.Wealth(w) < U32
    ensures Economy.Wealth(Run(w, inputs)) == Economy.Wealth(w)
    ensures forall uid | uid in Run(w, inputs).ledgers :: Run(w, inputs).ledgers[uid].Sum() <= Economy.Wealth(w)
    ensures Economy.Gone(w) <= Economy.Gone(Run(w, inputs))
  {
    hide WellFormed, Run, Economy.Wealth;
    RunLasts(w, inputs);
    forall uid | uid in Run(w, inputs).ledgers
      ensures Run(w, inputs).ledgers[uid].Sum() <= Economy.Wealth(w)
    {
      StockBounds(Run(w, inputs), uid);
    }
  }

  // ---- victory ----

  ghost predicate CrystalsBuilt(w: World) {
    forall k | k in w.buildings && w.buildings[k].buildingType == CRYSTAL :: !w.buildings[k].underConstruction
  }

  lemma CrystalsFade(a: World, b: World)
    requires Lasting(a, b) && CrystalsBuilt(a)
    ensures LiveCrystalTeams(b) <= LiveCrystalTeams(a) && CrystalsBuilt(b)
  {
    forall k | k in b.buildings && b.buildings[k].buildingType == CRYSTAL
      ensures k in a.buildings && SameBuilding(a.buildings[k], b.buildings[k])
    {}
  }

  lemma SurvivorOfSubset(s: set<nat>, t: set<nat>)
    requires s <= t && Survivor(t).Won?
    ensures Survivor(s) == Survivor(t) || Survivor(s) == Won(NO_WINNER)
  {
    Sizes(s, t);
    if |s| == 1 {
      assert s == t;
    }
  }

  lemma Sizes(s: set<nat>, t: set<nat>)
    requires s <= t
    ensures |s| <= |t| && (|s| == |t| ==> s == t)
  {
    assert t == s + (t - s);
    if s != t {
      var x :| x in t - s;
      assert |t - s| > 0;
    }
  }

  /**
   Victory is monotone: teams with a standing crystal only become fewer, a declared winner is the
   one surviving crystal team, and no further play can turn the verdict in another team's favour.
   */
  lemma VictoryStands(w: World, inputs: seq<Input>)
    requires WellFormed(w) && CrystalsBuilt(w) && w.battle.begun && w.battle.crystalTeams >= 2
    ensures LiveCrystalTeams(Run(w, inputs)) <= LiveCrystalTeams(w)
    ensures forall t: nat :: Verdict(w) == Won(t) && t != NO_WINNER ==> LiveCrystalTeams(w) == {t}
    ensures Verdict(w).Won? ==> Verdict(Run(w, inputs)) == Verdict(w) || Verdict(Run(w, inputs)) == Won(NO_WINNER)
  {
    hide WellFormed, Run;
    RunLasts(w, inputs);
    var v := Run(w, inputs);
    CrystalsFade(w, v);
    if Verdict(w).Won? { SurvivorOfSubset(LiveCrystalTeams(v), LiveCrystalTeams(w)); }
    forall t: nat | Verdict(w) == Won(t) && t != NO_WINNER ensures LiveCrystalTeams(w) == {t} {
      SoleSurvivor(LiveCrystalTeams(w), t);
    }
  }

  lemma SoleSurvivor(s: set<nat>, t: nat)
    requires Survivor(s) == Won(t) && t != NO_WINNER
    ensures s == {t}
  {
    Sizes({t}, s);
  }
}
