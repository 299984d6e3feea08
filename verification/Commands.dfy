/**
 Who a command may touch (DungeonRoom.h, CollectOwnedUnits and the Apply functions): a batch never
 reaches units of a player who gave no command, commands of different players commute, and a group
 order depends only on which units were named, not on the order in which they were listed.
 */
module Commands {
  import opened Entities
  import opened Simulation
  import opened Laws
  import opened Evolution

  // ---- selection ----

  lemma {:induction false} SortKeeps(ids: seq<Id>)
    ensures multiset(SortIds(ids)) == multiset(ids)
  {
    if ids != [] {
      assert ids == [ids[0]] + ids[1..];
      SortKeeps(ids[1..]);
      InsertAdds(ids[0], SortIds(ids[1..]));
    }
  }

  lemma {:induction false} InsertAdds(k: Id, ids: seq<Id>)
    ensures multiset(Insert(k, ids)) == multiset(ids) + multiset{k}
  {
    if ids != [] && k > ids[0] {
      assert ids == [ids[0]] + ids[1..];
      InsertAdds(k, ids[1..]);
    }
  }

  lemma {:induction false} OwnedIdsAreOwned(w: World, owner: Uid, ids: seq<Id>)
    ensures forall k | k in OwnedIds(w, owner, ids) :: Owns(w, owner, k)
  {
    if ids != [] { OwnedIdsAreOwned(w, owner, ids[..|ids| - 1]); }
  }

  lemma SelectedAreOwned(w: World, owner: Uid, ids: seq<Id>)
    ensures forall k | k in Selected(w, owner, ids) :: Owns(w, owner, k)
  {
    OwnedIdsAreOwned(w, owner, ids);
    var owned := OwnedIds(w, owner, ids);
    SortKeeps(owned);
    forall k | k in Selected(w, owner, ids) ensures Owns(w, owner, k) {
      assert k in multiset(SortIds(owned));
      assert k in multiset(owned);
    }
  }

  lemma {:induction false} OwnedIdsAreListed(w: World, owner: Uid, ids: seq<Id>)
    ensures forall k | k in OwnedIds(w, owner, ids) :: k in ids
  {
    if ids != [] { OwnedIdsAreListed(w, owner, ids[..|ids| - 1]); }
  }

  lemma {:induction false} WithoutKeeps(ids: seq<Id>, victim: Id)
    ensures forall k | k in Without(ids, victim) :: k in ids && k != victim
  {
    if ids != [] { WithoutKeeps(ids[..|ids| - 1], victim); }
  }

  lemma SelectedAreListed(w: World, owner: Uid, ids: seq<Id>)
    ensures forall k | k in Selected(w, owner, ids) :: k in ids
  {
    var owned := OwnedIds(w, owner, ids);
    OwnedIdsAreListed(w, owner, ids);
    SortKeeps(owned);
    forall k | k in SortIds(owned) ensures k in owned {
      assert k in multiset(SortIds(owned));
      assert k in multiset(owned);
    }
  }

  /** A command addresses only units of its owner that it names. */
  lemma AddresseesAreNamed(w: World, c: Command)
    ensures forall k | k in Addressees(w, c) :: Owns(w, c.owner, k) && k in c.unitIds
  {
    hide Owns, Without, OwnedIds, Selected;
    OwnedIdsAreOwned(w, c.owner, c.unitIds);
    OwnedIdsAreListed(w, c.owner, c.unitIds);
    SelectedAreOwned(w, c.owner, c.unitIds);
    SelectedAreListed(w, c.owner, c.unitIds);
    WithoutKeeps(OwnedIds(w, c.owner, c.unitIds), c.targetEntity);
  }

  // ---- isolation ----

  /** The command gives this unit an order. */
  predicate Addressed(w: World, c: Command, id: Id) { Owns(w, c.owner, id) && id in c.unitIds }

  lemma CommitLeaves(w: World, o: Outcome, id: Id)
    requires Feasible(w, o) && id in w.units && id != o.unit.id && o.effect != HitUnit(id)
    ensures id in Commit(w, o).units && Commit(w, o).units[id] == w.units[id]
  {}

  lemma ObeyIsPeaceful(e: Env, order: Order, index: nat, count: nat, u: Unit)
    requires index < count
    ensures var o := Obey(e, order, index, count, u);
            o.unit.id == u.id && (o.effect == NoEffect || o.effect.Shed?)
  {
    hide FormationSlot, Shifted;
  }

  lemma {:induction false} GiveLeaves(e: Env, w: World, order: Order, ids: seq<Id>, n: nat, id: Id)
    requires WellFormed(w) && OrderOk(order) && n <= |ids| && id in w.units && id !in ids
    ensures id in Give(e, w, order, ids, n).units && Give(e, w, order, ids, n).units[id] == w.units[id]
  {
    hide WellFormed, Evolves, Obey, OrderOk, Commit;
    if n > 0 {
      var mid, k := Give(e, w, order, ids, n - 1), ids[n - 1];
      GiveLeaves(e, w, order, ids, n - 1, id);
      GiveKeeps(e, w, order, ids, n - 1);
      if k in mid.units {
        UnitFacts(mid, k);
        ObeyIsPeaceful(e, order, n - 1, |ids|, mid.units[k]);
        var o := Obey(e, order, n - 1, |ids|, mid.units[k]);
        if Feasible(mid, o) { CommitLeaves(mid, o, id); }
      }
    }
  }

  lemma ApplyLeaves(e: Env, w: World, c: Command, id: Id)
    requires WellFormed(w) && id in w.units && !Addressed(w, c, id)
    ensures id in Apply(e, w, c).units && Apply(e, w, c).units[id] == w.units[id]
  {
    hide WellFormed, Evolves, Give, OrderOf, OrderOk, Addressees, Pay;
    if c.kind == BuildCmd {
      BuildLeaves(e, w, c, id);
    } else if c.kind == TrainCmd {
      if JudgeTrain(w, c).Accepted? { PayNextId(w, c.owner, UnitCost(c.auxType)); }
    } else {
      var ids := Addressees(w, c);
      AddresseesAreNamed(w, c);
      if ids != [] {
        OrderOfOk(e, w, c);
        GiveLeaves(e, w, OrderOf(e, w, c), ids, |ids|, id);
      }
    }
  }

  lemma BuildLeaves(e: Env, w: World, c: Command, id: Id)
    requires WellFormed(w) && id in w.units && !Addressed(w, c, id)
    ensures id in ApplyBuild(e, w, c).units && ApplyBuild(e, w, c).units[id] == w.units[id]
  {
    hide WellFormed, Evolves, Give, Pay;
    if JudgeBuild(w, c).Accepted? {
      PositiveId(w);
      PayNextId(w, c.owner, BuildingCost(c.auxType));
      PayKeeps(w, c.owner, BuildingCost(c.auxType));
      var b := NewBuilding(w.nextId, c.owner, TeamOf(w, c.owner), c.auxType, c.target, c.yaw, true);
      var w1 := Pay(w, c.owner, BuildingCost(c.auxType));
      var w2 := SpawnBuilding(w1, b);
      SpawnBuildingKeeps(w1, b);
      var ids := OwnedIds(w2, c.owner, c.unitIds);
      OwnedIdsAreOwned(w2, c.owner, c.unitIds);
      OwnedIdsAreListed(w2, c.owner, c.unitIds);
      GiveLeaves(e, w2, Raising(w.nextId), ids, |ids|, id);
    }
  }

  /** A batch leaves alone every unit that none of its commands both owns and names. */
  lemma {:induction false} BatchLeaves(e: Env, w: World, cs: seq<Command>, id: Id)
    requires WellFormed(w) && id in w.units
    requires forall c | c in cs :: !Addressed(w, c, id)
    ensures id in ApplyAll(e, w, cs).units && ApplyAll(e, w, cs).units[id] == w.units[id]
  {
    hide WellFormed, Evolves, Apply;
    if cs != [] {
      var rest, c := cs[..|cs| - 1], cs[|cs| - 1];
      assert forall d | d in rest :: d in cs;
      BatchLeaves(e, w, rest, id);
      ApplyAllKeeps(e, w, rest);
      assert c in cs;
      ApplyLeaves(e, ApplyAll(e, w, rest), c, id);
    }
  }

  /** Command isolation: whoever gave no command in the batch finds all units unchanged after it. */
  lemma BatchIsolation(e: Env, w: World, id: Id)
    requires WellFormed(w) && id in w.units
    requires forall c | c in w.pending :: c.owner != w.units[id].owner
    ensures id in ApplyPending(e, w).units && ApplyPending(e, w).units[id] == w.units[id]
  {
    BatchLeaves(e, w, w.pending, id);
    hide WellFormed, ApplyAll;
  }

  // ---- the order of the listed units ----

  lemma {:induction false} OwnedIdsCount(w: World, owner: Uid, ids: seq<Id>, k: Id)
    ensures multiset(OwnedIds(w, owner, ids))[k] == if Owns(w, owner, k) then multiset(ids)[k] else 0
  {
    if ids != [] {
      OwnedIdsCount(w, owner, ids[..|ids| - 1], k);
      assert ids == ids[..|ids| - 1] + [ids[|ids| - 1]];
    }
    hide Owns;
  }

  ghost predicate Ascending(ids: seq<Id>) { forall i, j :: 0 <= i < j < |ids| ==> ids[i] <= ids[j] }

  lemma {:induction false} InsertAscending(k: Id, ids: seq<Id>)
    requires Ascending(ids)
    ensures Ascending(Insert(k, ids))
  {
    if ids != [] && k > ids[0] {
      InsertAscending(k, ids[1..]);
      InsertAdds(k, ids[1..]);
      var rest := Insert(k, ids[1..]);
      forall j | 0 <= j < |rest| ensures ids[0] <= rest[j] {
        assert rest[j] in multiset(rest);
        assert rest[j] == k || rest[j] in ids[1..];
      }
    }
  }

  lemma {:induction false} SortAscending(ids: seq<Id>)
    ensures Ascending(SortIds(ids))
  {
    if ids != [] {
      SortAscending(ids[1..]);
      InsertAscending(ids[0], SortIds(ids[1..]));
    }
  }

  /** An ascending sequence is determined by how often each number occurs. */
  lemma {:induction false} AscendingUnique(a: seq<Id>, b: seq<Id>)
    requires Ascending(a) && Ascending(b) && multiset(a) == multiset(b)
    ensures a == b
  {
    assert |a| == |multiset(a)| == |multiset(b)| == |b|;
    if a != [] {
      assert a[0] in multiset(b) && b[0] in multiset(a);
      HeadIsLeast(a, b[0]);
      HeadIsLeast(b, a[0]);
      Tails(a, b);
      AscendingUnique(a[1..], b[1..]);
      assert a == [a[0]] + a[1..] && b == [b[0]] + b[1..];
    }
  }

  lemma HeadIsLeast(a: seq<Id>, k: Id)
    requires Ascending(a) && k in a
    ensures a[0] <= k
  {}

  lemma Tails(a: seq<Id>, b: seq<Id>)
    requires a != [] && b != [] && a[0] == b[0] && multiset(a) == multiset(b)
    ensures multiset(a[1..]) == multiset(b[1..])
  {
    assert a == [a[0]] + a[1..] && b == [b[0]] + b[1..];
    assert multiset(a[1..]) == multiset(a) - multiset{a[0]};
    assert multiset(b[1..]) == multiset(b) - multiset{b[0]};
  }

  lemma SelectedCanonical(w: World, owner: Uid, ids: seq<Id>, ids': seq<Id>)
    requires multiset(ids) == multiset(ids')
    ensures Selected(w, owner, ids) == Selected(w, owner, ids')
  {
    var a, b := OwnedIds(w, owner, ids), OwnedIds(w, owner, ids');
    forall k ensures multiset(a)[k] == multiset(b)[k] {
      OwnedIdsCount(w, owner, ids, k);
      OwnedIdsCount(w, owner, ids', k);
    }
    assert multiset(a) == multiset(b);
    SortKeeps(a);
    SortKeeps(b);
    SortAscending(a);
    SortAscending(b);
    AscendingUnique(SortIds(a), SortIds(b));
  }

  predicate GroupOrder(c: Command) {
    c.kind == MoveCmd || c.kind == HarvestCmd || c.kind == StoreCmd || c.kind == PickupCmd
  }

  /** A group order's outcome depends on how often each unit is named, not on the listing order. */
  lemma ListingOrderIrrelevant(e: Env, w: World, c: Command, ids: seq<Id>)
    requires GroupOrder(c) && multiset(ids) == multiset(c.unitIds)
    ensures Apply(e, w, c.(unitIds := ids)) == Apply(e, w, c)
  {
    hide Selected, Heading, GiveAll;
    SelectedCanonical(w, c.owner, ids, c.unitIds);
  }

  // ---- commands of different players commute ----

  /** Commands that only give orders, without putting loads down or paying. */
  predicate PureOrder(c: Command) {
    GroupOrder(c) || c.kind == AttackCmd || c.kind == ConstructCmd
  }

  /** One step of Give. */
  function Tell(e: Env, w: World, order: Order, index: nat, count: nat, k: Id): World
    requires index < count
  {
    if k in w.units then Settle(w, React(Obey(e, order, index, count, w.units[k]))) else w
  }

  /** The keys of the unit map are the units' ids. */
  ghost predicate Keyed(w: World) { forall k | k in w.units :: w.units[k].id == k }

  lemma TellTouches(e: Env, w: World, order: Order, index: nat, count: nat, k: Id)
    requires index < count && order != Halt && Keyed(w) && k in w.units
    ensures var u := Obey(e, order, index, count, w.units[k]).unit;
            Tell(e, w, order, index, count, k) == Touch(w, k, u) && u.id == k && u.owner == w.units[k].owner
            && u.pos == w.units[k].pos
  {
    hide FormationSlot, Shifted, Touch;
  }

  lemma TouchesCommute(w: World, a: Id, u: Unit, b: Id, v: Unit)
    requires a != b
    ensures Touch(Touch(w, a, u), b, v) == Touch(Touch(w, b, v), a, u)
  {
    assert w.units[a := u][b := v] == w.units[b := v][a := u];
    assert w.marks.dirty + {a} + {b} == w.marks.dirty + {b} + {a};
  }

  /** b has the same units, owners and places as a; nothing but unit records and their marks differs. */
  ghost predicate Regrouped(a: World, b: World) {
    && b == a.(units := b.units, marks := a.marks.(dirty := b.marks.dirty))
    && b.units.Keys == a.units.Keys
    && forall k | k in a.units :: b.units[k].owner == a.units[k].owner && b.units[k].pos == a.units[k].pos
  }

  lemma TellRegroups(e: Env, w: World, order: Order, index: nat, count: nat, k: Id)
    requires index < count && order != Halt && Keyed(w)
    ensures Keyed(Tell(e, w, order, index, count, k)) && Regrouped(w, Tell(e, w, order, index, count, k))
  {
    if k in w.units {
      TellTouches(e, w, order, index, count, k);
      hide Tell, Obey;
    }
  }

  lemma GiveIsTell(e: Env, w: World, order: Order, ids: seq<Id>, n: nat)
    requires n <= |ids|
    ensures n == 0 ==> Give(e, w, order, ids, n) == w
    ensures n > 0 ==>
              Give(e, w, order, ids, n)
              == Tell(e, Give(e, w, order, ids, n - 1), order, n - 1, |ids|, ids[n - 1])
  {
    hide Obey, Settle;
  }

  lemma RegroupedTrans(a: World, b: World, c: World)
    requires Regrouped(a, b) && Regrouped(b, c)
    ensures Regrouped(a, c)
  {}

  lemma {:induction false} GiveRegroups(e: Env, w: World, order: Order, ids: seq<Id>, n: nat)
    requires n <= |ids| && order != Halt && Keyed(w)
    ensures Keyed(Give(e, w, order, ids, n)) && Regrouped(w, Give(e, w, order, ids, n))
  {
    hide Tell, Give, Regrouped, Keyed;
    GiveIsTell(e, w, order, ids, n);
    if n > 0 {
      var mid := Give(e, w, order, ids, n - 1);
      GiveRegroups(e, w, order, ids, n - 1);
      TellRegroups(e, mid, order, n - 1, |ids|, ids[n - 1]);
      RegroupedTrans(w, mid, Give(e, w, order, ids, n));
    } else {
      SelfRegrouped(w);
    }
  }

  lemma {:induction false} RegroupedSelects(e: Env, a: World, b: World, owner: Uid, ids: seq<Id>)
    requires Regrouped(a, b)
    ensures OwnedIds(b, owner, ids) == OwnedIds(a, owner, ids) && PosSum(b, ids) == PosSum(a, ids)
  {
    if ids != [] { RegroupedSelects(e, a, b, owner, ids[..|ids| - 1]); }
  }

  /** Orders to others change neither whom a command addresses nor what it orders. */
  lemma RegroupedOrder(e: Env, a: World, b: World, c: Command)
    requires Regrouped(a, b) && PureOrder(c)
    ensures Addressees(b, c) == Addressees(a, c)
    ensures Addressees(a, c) != [] ==> OrderOf(e, b, c) == OrderOf(e, a, c) && OrderOf(e, a, c) != Halt
  {
    hide Mean, Direction, Without, SortIds;
    RegroupedSelects(e, a, b, c.owner, c.unitIds);
    RegroupedSelects(e, a, b, c.owner, Addressees(a, c));
    hide OwnedIds, PosSum;
  }

  lemma TellNone(e: Env, w: World, order: Order, index: nat, count: nat, k: Id)
    requires index < count && k !in w.units
    ensures Tell(e, w, order, index, count, k) == w
  {}

  lemma TouchedKeyed(w: World, k: Id, u: Unit)
    requires Keyed(w) && k in w.units && u.id == k
    ensures Keyed(Touch(w, k, u)) && Touch(w, k, u).units.Keys == w.units.Keys && Touch(w, k, u).units[k] == u
    ensures forall j | j in w.units && j != k :: Touch(w, k, u).units[j] == w.units[j]
  {}

  lemma TellsCommute(e: Env, w: World, o1: Order, i1: nat, n1: nat, k1: Id, o2: Order, i2: nat, n2: nat, k2: Id)
    requires i1 < n1 && i2 < n2 && o1 != Halt && o2 != Halt && k1 != k2 && Keyed(w)
    ensures Tell(e, Tell(e, w, o1, i1, n1, k1), o2, i2, n2, k2) == Tell(e, Tell(e, w, o2, i2, n2, k2), o1, i1, n1, k1)
  {
    hide Tell, Obey, Touch, Keyed;
    if k1 !in w.units {
      TellNone(e, w, o1, i1, n1, k1);
      if k2 in w.units {
        TellTouches(e, w, o2, i2, n2, k2);
        TouchedKeyed(w, k2, Obey(e, o2, i2, n2, w.units[k2]).unit);
        TellNone(e, Tell(e, w, o2, i2, n2, k2), o1, i1, n1, k1);
      } else {
        TellNone(e, w, o2, i2, n2, k2);
      }
    } else if k2 !in w.units {
      TellNone(e, w, o2, i2, n2, k2);
      TellTouches(e, w, o1, i1, n1, k1);
      TouchedKeyed(w, k1, Obey(e, o1, i1, n1, w.units[k1]).unit);
      TellNone(e, Tell(e, w, o1, i1, n1, k1), o2, i2, n2, k2);
    } else {
      var u1, u2 := Obey(e, o1, i1, n1, w.units[k1]).unit, Obey(e, o2, i2, n2, w.units[k2]).unit;
      TellTouches(e, w, o1, i1, n1, k1);
      TellTouches(e, w, o2, i2, n2, k2);
      TouchedKeyed(w, k1, u1);
      TouchedKeyed(w, k2, u2);
      TellTouches(e, Touch(w, k1, u1), o2, i2, n2, k2);
      TellTouches(e, Touch(w, k2, u2), o1, i1, n1, k1);
      TouchesCommute(w, k1, u1, k2, u2);
    }
  }

  lemma {:induction false} GiveTellCommute(e: Env, w: World, o1: Order, i1: nat, n1: nat, k1: Id,
                                           o2: Order, ids: seq<Id>, n: nat)
    requires i1 < n1 && n <= |ids| && o1 != Halt && o2 != Halt && k1 !in ids && Keyed(w)
    ensures Give(e, Tell(e, w, o1, i1, n1, k1), o2, ids, n) == Tell(e, Give(e, w, o2, ids, n), o1, i1, n1, k1)
  {
    hide Tell, Give, Regrouped, Keyed;
    GiveIsTell(e, w, o2, ids, n);
    GiveIsTell(e, Tell(e, w, o1, i1, n1, k1), o2, ids, n);
    if n > 0 {
      GiveTellCommute(e, w, o1, i1, n1, k1, o2, ids, n - 1);
      GiveRegroups(e, w, o2, ids, n - 1);
      TellsCommute(e, Give(e, w, o2, ids, n - 1), o1, i1, n1, k1, o2, n - 1, |ids|, ids[n - 1]);
    }
  }

  lemma {:induction false} GivesCommute(e: Env, w: World, o1: Order, ids1: seq<Id>, n1: nat,
                                        o2: Order, ids2: seq<Id>, n2: nat)
    requires n1 <= |ids1| && n2 <= |ids2| && o1 != Halt && o2 != Halt && Keyed(w)
    requires forall k | k in ids1 :: k !in ids2
    ensures Give(e, Give(e, w, o1, ids1, n1), o2, ids2, n2) == Give(e, Give(e, w, o2, ids2, n2), o1, ids1, n1)
  {
    hide Tell, Give, Regrouped, Keyed;
    GiveIsTell(e, w, o1, ids1, n1);
    GiveIsTell(e, Give(e, w, o2, ids2, n2), o1, ids1, n1);
    if n1 > 0 {
      var mid := Give(e, w, o1, ids1, n1 - 1);
      GiveRegroups(e, w, o1, ids1, n1 - 1);
      GivesCommute(e, w, o1, ids1, n1 - 1, o2, ids2, n2);
      GiveTellCommute(e, mid, o1, n1 - 1, |ids1|, ids1[n1 - 1], o2, ids2, n2);
    }
  }

  lemma WellFormedKeyed(w: World)
    requires WellFormed(w)
    ensures Keyed(w)
  {}

  /** Orders of different players can be applied in either order. */
  lemma OrdersCommute(e: Env, w: World, c: Command, d: Command)
    requires WellFormed(w) && PureOrder(c) && PureOrder(d) && c.owner != d.owner
    ensures Apply(e, Apply(e, w, c), d) == Apply(e, Apply(e, w, d), c)
  {
    hide WellFormed, Addressees, OrderOf, Give, Regrouped, Keyed;
    WellFormedKeyed(w);
    var ids, ids' := Addressees(w, c), Addressees(w, d);
    AddresseesAreNamed(w, c);
    AddresseesAreNamed(w, d);
    forall k | k in ids ensures k !in ids' {
      assert Owns(w, c.owner, k);
    }
    var wc, wd := Apply(e, w, c), Apply(e, w, d);
    SelfRegrouped(w);
    RegroupedOrder(e, w, w, c);
    RegroupedOrder(e, w, w, d);
    if ids != [] { GiveRegroups(e, w, OrderOf(e, w, c), ids, |ids|); }
    if ids' != [] { GiveRegroups(e, w, OrderOf(e, w, d), ids', |ids'|); }
    RegroupedOrder(e, w, wc, d);
    RegroupedOrder(e, w, wd, c);
    if ids != [] && ids' != [] {
      GivesCommute(e, w, OrderOf(e, w, c), ids, |ids|, OrderOf(e, w, d), ids', |ids'|);
    }
  }

  lemma SelfRegrouped(w: World)
    ensures Regrouped(w, w)
  {}
}
