/**
 Formations (DungeonRoom.h, FormationSlot and ApplyMove): units that are sent off together never get
 targets closer than 2.8 to each other.
 */
module Formation {
  import opened Entities
  import opened Simulation
  import opened Laws
  import opened Evolution
  import opened Commands

  const SPACING := 2.8

  // ---- the grid ----

  lemma {:induction false} ColumnsFromLeast(count: nat, c: nat)
    requires c > 0 ==> (c - 1) * (c - 1) < count
    ensures var r := ColumnsFrom(count, c); r > 0 ==> (r - 1) * (r - 1) < count
    decreases if count <= c * c then 0 else count - c * c
  {
    if count > c * c {
      assert (c + 1) * (c + 1) == c * c + 2 * c + 1;
      ColumnsFromLeast(count, c + 1);
    }
  }

  /** The column count is the rounded up square root. */
  lemma ColumnsIsRoot(count: nat)
    requires count > 0
    ensures var c := Columns(count); 0 < c && (c - 1) * (c - 1) < count <= c * c
  {
    ColumnsFromLeast(count, 0);
  }

  /** How many units stand in the row of this index. */
  function RowCount(index: nat, count: nat): (r: int)
    requires index < count
  {
    ColumnsIsRoot(count);
    var columns := Columns(count);
    var left := count - index / columns * columns;
    if columns <= left then columns else left
  }

  function Column(index: nat, count: nat): nat
    requires index < count
  {
    ColumnsIsRoot(count);
    index % Columns(count)
  }

  function Row(index: nat, count: nat): nat
    requires index < count
  {
    ColumnsIsRoot(count);
    index / Columns(count)
  }

  lemma DivMod(i: nat, c: nat)
    requires c > 0
    ensures i == i / c * c + i % c && 0 <= i % c < c
  {}

  lemma DivOf(q: nat, r: nat, c: nat)
    requires r < c
    ensures (q * c + r) / c == q && (q * c + r) % c == r
  {
    DivMod(q * c + r, c);
    var d := (q * c + r) / c;
    if d < q { MulLess(d, q, c); }
    if d > q { MulLess(q, d, c); }
  }

  lemma MulLess(a: nat, b: nat, c: nat)
    requires a < b
    ensures a * c + c <= b * c
  {
    assert b * c == (a + 1) * c + (b - a - 1) * c;
  }

  /** A row is never empty, so the unsigned subtraction never wraps, and every column lies in its row. */
  lemma RowFacts(index: nat, count: nat)
    requires index < count
    ensures Column(index, count) < RowCount(index, count) <= Columns(count)
    ensures Row(index, count) * Columns(count) < count
    ensures Row(index, count) * Columns(count) + Column(index, count) == index
  {
    ColumnsIsRoot(count);
    DivMod(index, Columns(count));
  }

  /** Within a row, places mirror each other: every row is centred. */
  lemma RowCentred(index: nat, count: nat)
    requires index < count
    ensures var mirror := Row(index, count) * Columns(count) + (RowCount(index, count) - 1 - Column(index, count));
            && 0 <= mirror < count && Row(mirror, count) == Row(index, count)
            && Place(mirror, count).x == -Place(index, count).x
            && Place(mirror, count).z == Place(index, count).z
  {
    RowFacts(index, count);
    ColumnsIsRoot(count);
    DivOf(Row(index, count), RowCount(index, count) - 1 - Column(index, count), Columns(count));
  }

  /** The mean of first and last row is the group's target line: the block is centred front to back. */
  lemma BlockCentred(count: nat)
    requires count > 0
    ensures Place(0, count).z == -Place(count - 1, count).z
  {
    ColumnsIsRoot(count);
    var c := Columns(count);
    DivMod(count - 1, c);
    var q, r := (count - 1) / c, (count - 1) % c;
    assert count + c - 1 == (q + 1) * c + r;
    DivOf(q + 1, r, c);
    DivOf(0, 0, c);
  }

  lemma PlacesApart(i: nat, j: nat, count: nat)
    requires i < count && j < count && i != j
    ensures var p, q := Place(i, count), Place(j, count);
            p.x - q.x >= SPACING || q.x - p.x >= SPACING || p.z - q.z >= SPACING || q.z - p.z >= SPACING
  {
    RowFacts(i, count);
    RowFacts(j, count);
    if Row(i, count) != Row(j, count) {
    } else {
      assert Column(i, count) != Column(j, count);
    }
  }

  /** Places are filled row by row from the front, and each row from one side to the other. */
  lemma PlacesInOrder(i: nat, j: nat, count: nat)
    requires i < j < count
    ensures var p, q := Place(i, count), Place(j, count);
            if Row(i, count) == Row(j, count) then p.z == q.z && q.x - p.x == (j - i) as real * 2.8
            else p.z - q.z >= 3.0
  {
    RowFacts(i, count);
    RowFacts(j, count);
    var c := Columns(count);
    if Row(i, count) > Row(j, count) { MulLess(Row(j, count), Row(i, count), c); }
  }

  // ---- facing a direction ----

  ghost predicate Euclidean(len: Planar -> real) {
    forall d :: len(d) >= 0.0 && len(d) * len(d) == d.x * d.x + d.z * d.z
  }

  function SquareOf(d: Planar): real { d.x * d.x + d.z * d.z }

  ghost predicate UnitVector(f: Planar) { SquareOf(f) == 1.0 }

  /** Turning the grid to face f preserves distances. */
  lemma TurnKeepsDistance(f: Planar, x: real, z: real)
    requires UnitVector(f)
    ensures SquareOf(Planar(f.z * x + f.x * z, -f.x * x + f.z * z)) == x * x + z * z
  {
    var a, b := f.x, f.z;
    assert (b * x + a * z) * (b * x + a * z) == b * b * (x * x) + 2.0 * (a * b * x * z) + a * a * (z * z);
    assert (-a * x + b * z) * (-a * x + b * z) == a * a * (x * x) - 2.0 * (a * b * x * z) + b * b * (z * z);
    assert b * b * (x * x) + a * a * (x * x) == (a * a + b * b) * (x * x);
    assert a * a * (z * z) + b * b * (z * z) == (a * a + b * b) * (z * z);
  }

  lemma SquareAtLeast(x: real, s: real)
    requires s >= 0.0 && (x >= s || -x >= s)
    ensures x * x >= s * s
  {
    if x >= s {
      assert x * x >= s * x >= s * s;
    } else {
      assert (-x) * (-x) >= s * (-x) >= s * s;
    }
  }

  function Between(a: Vec3, b: Vec3): real { SquareOf(Toward(a, b)) }

  lemma FacedDistance(f: Planar, p: Planar, q: Planar)
    requires UnitVector(f)
    ensures Between(Vec3(f.z * p.x + f.x * p.z, 0.0, -f.x * p.x + f.z * p.z),
                    Vec3(f.z * q.x + f.x * q.z, 0.0, -f.x * q.x + f.z * q.z))
            == SquareOf(Planar(q.x - p.x, q.z - p.z))
  {
    var x, z := q.x - p.x, q.z - p.z;
    assert f.z * q.x + f.x * q.z - (f.z * p.x + f.x * p.z) == f.z * x + f.x * z;
    assert -f.x * q.x + f.z * q.z - (-f.x * p.x + f.z * p.z) == -f.x * x + f.z * z;
    TurnKeepsDistance(f, x, z);
    hide SquareOf, UnitVector;
  }

  lemma FarEnough(x: real, z: real)
    requires x >= SPACING || -x >= SPACING || z >= SPACING || -z >= SPACING
    ensures SquareOf(Planar(x, z)) >= SPACING * SPACING
  {
    NonNegativeSquare(x);
    NonNegativeSquare(z);
    if x >= SPACING || -x >= SPACING { SquareAtLeast(x, SPACING); } else { SquareAtLeast(z, SPACING); }
  }

  lemma SlotsApart(i: nat, j: nat, count: nat, f: Planar)
    requires i < count && j < count && i != j && UnitVector(f)
    ensures Between(FormationSlot(i, count, f), FormationSlot(j, count, f)) >= SPACING * SPACING
  {
    hide Place, Between, SquareOf, UnitVector;
    var p, q := Place(i, count), Place(j, count);
    PlacesApart(i, j, count);
    assert FormationSlot(i, count, f) == Vec3(f.z * p.x + f.x * p.z, 0.0, -f.x * p.x + f.z * p.z);
    assert FormationSlot(j, count, f) == Vec3(f.z * q.x + f.x * q.z, 0.0, -f.x * q.x + f.z * q.z);
    hide FormationSlot;
    FacedDistance(f, p, q);
    FarEnough(q.x - p.x, q.z - p.z);
  }

  lemma NonNegativeSquare(x: real)
    ensures x * x >= 0.0
  {}

  lemma ShiftedApart(p: Vec3, o: Vec3, o': Vec3)
    ensures Between(Shift(p, o), Shift(p, o')) == Between(o, o')
  {}

  lemma DirectionIsUnit(e: Env, d: Planar)
    requires Euclidean(e.len)
    ensures UnitVector(Direction(e, d))
  {
    var n := e.len(d);
    if n > 0.0001 {
      Normalised(d.x / n, d.z / n, n, d.x, d.z);
    }
  }

  lemma Normalised(a: real, b: real, n: real, x: real, z: real)
    requires n > 0.0 && a * n == x && b * n == z && n * n == x * x + z * z
    ensures a * a + b * b == 1.0
  {
    SquareOfProduct(a, n);
    SquareOfProduct(b, n);
    PositiveSquare(n);
    Cancel(Square(a), Square(b), Square(n), Square(x), Square(z));
  }

  function Square(x: real): real { x * x }

  lemma SquareOfProduct(a: real, n: real)
    ensures Square(a * n) == Square(a) * Square(n)
  {
    assert a * n * (a * n) == a * a * (n * n);
  }

  lemma Cancel(a: real, b: real, m: real, p: real, q: real)
    requires m > 0.0 && a * m == p && b * m == q && p + q == m
    ensures a + b == 1.0
  {
    assert (a + b - 1.0) * m == 0.0;
  }

  lemma PositiveSquare(n: real)
    requires n > 0.0
    ensures Square(n) > 0.0
  {
    assert n * n / n == n;
  }

  // ---- a group that is sent off ----

  /** Each unit keeps the place of one of its mentions, namely the last one. */
  lemma {:induction false} LastMention(e: Env, w: World, target: Vec3, path: seq<Vec3>, f: Planar, ids: seq<Id>,
                                       n: nat, k: Id)
    returns (i: nat)
    requires n <= |ids| && Keyed(w) && k in w.units && k in ids[..n]
    ensures i < n && ids[i] == k
    ensures var u := Give(e, w, March(target, path, f), ids, n);
            k in u.units && var o := FormationSlot(i, |ids|, f);
            u.units[k].target == Shift(target, o) && u.units[k].path == Shifted(path, o)
  {
    hide Tell, Give, Keyed, FormationSlot, Shifted, Obey, Touch, Regrouped;
    var order := March(target, path, f);
    var mid := Give(e, w, order, ids, n - 1);
    GiveIsTell(e, w, order, ids, n);
    GiveRegroups(e, w, order, ids, n - 1);
    RegroupedKeys(w, mid);
    var last := ids[n - 1];
    if last in mid.units {
      TellTouches(e, mid, order, n - 1, |ids|, last);
      Marches(e, target, path, f, n - 1, |ids|, mid.units[last]);
      TouchedKeyed(mid, last, Obey(e, order, n - 1, |ids|, mid.units[last]).unit);
    } else {
      TellNone(e, mid, order, n - 1, |ids|, last);
    }
    if last == k {
      i := n - 1;
    } else {
      i := LastMention(e, w, target, path, f, ids, n - 1, k);
    }
  }

  lemma RegroupedKeys(a: World, b: World)
    requires Regrouped(a, b)
    ensures b.units.Keys == a.units.Keys
  {}

  lemma Marches(e: Env, target: Vec3, path: seq<Vec3>, f: Planar, i: nat, count: nat, u: Unit)
    requires i < count
    ensures var v := Obey(e, March(target, path, f), i, count, u).unit;
            var o := FormationSlot(i, count, f);
            v.target == Shift(target, o) && v.path == Shifted(path, o)
  {}

  /** All units named in a Move end up with targets and waypoints at least 2.8 apart, even if ids repeat. */
  lemma MoveSpacing(e: Env, w: World, c: Command, a: Id, b: Id)
    requires WellFormed(w) && Euclidean(e.len) && c.kind == MoveCmd && a != b
    requires Addressed(w, c, a) && Addressed(w, c, b)
    ensures var v := Apply(e, w, c);
            && a in v.units && b in v.units
            && Between(v.units[a].target, v.units[b].target) >= SPACING * SPACING
            && |v.units[a].path| == |v.units[b].path| == |c.path|
            && forall m | 0 <= m < |c.path| :: Between(v.units[a].path[m], v.units[b].path[m]) >= SPACING * SPACING
  {
    hide WellFormed, Give, FormationSlot, Heading, Between, Shift, Euclidean, UnitVector;
    WellFormedKeyed(w);
    NamedAreSelected(w, c, a);
    NamedAreSelected(w, c, b);
    var ids := Selected(w, c.owner, c.unitIds);
    hide Selected;
    var f := Heading(e, w, ids, c.target);
    HeadingIsUnit(e, w, ids, c.target);
    assert ids[..|ids|] == ids;
    var i := LastMention(e, w, c.target, c.path, f, ids, |ids|, a);
    var j := LastMention(e, w, c.target, c.path, f, ids, |ids|, b);
    var o, o' := FormationSlot(i, |ids|, f), FormationSlot(j, |ids|, f);
    SlotsApart(i, j, |ids|, f);
    ShiftedApart(c.target, o, o');
    forall m | 0 <= m < |c.path|
      ensures Between(Shifted(c.path, o)[m], Shifted(c.path, o')[m]) >= SPACING * SPACING
    {
      ShiftedApart(c.path[m], o, o');
    }
  }

  lemma HeadingIsUnit(e: Env, w: World, ids: seq<Id>, target: Vec3)
    requires Euclidean(e.len) && ids != []
    ensures UnitVector(Heading(e, w, ids, target))
  {
    DirectionIsUnit(e, Toward(Mean(PosSum(w, ids), |ids|), target));
  }

  lemma NamedAreSelected(w: World, c: Command, k: Id)
    requires Addressed(w, c, k)
    ensures k in Selected(w, c.owner, c.unitIds)
  {
    OwnedIdsCount(w, c.owner, c.unitIds, k);
    SortKeeps(OwnedIds(w, c.owner, c.unitIds));
    assert k in multiset(OwnedIds(w, c.owner, c.unitIds));
    assert k in multiset(Selected(w, c.owner, c.unitIds));
  }

  // ---- where a group faces ----

  lemma {:induction false} PosSumConcat(w: World, a: seq<Id>, b: seq<Id>)
    ensures var s, x, y := PosSum(w, a + b), PosSum(w, a), PosSum(w, b);
            s == Vec3(x.x + y.x, x.y + y.y, x.z + y.z)
  {
    if b == [] {
      assert a + b == a;
    } else {
      var all, rest := a + b, b[..|b| - 1];
      PosSumConcat(w, a, rest);
      assert all[..|all| - 1] == a + rest && all[|all| - 1] == b[|b| - 1];
    }
  }

  lemma PosSumOne(w: World, k: Id)
    requires k in w.units
    ensures PosSum(w, [k]) == w.units[k].pos
  {
    assert [k][..0] == [];
  }

  /**
   A group faces from its centre to the target: the centre times the number of units is the sum of their places,
   which is additive and for one unit is its place; the heading is the way to the target, scaled to length one.
   */
  lemma HeadingMeans(e: Env, w: World, ids: seq<Id>, target: Vec3) returns (centre: Vec3)
    requires ids != []
    ensures PosSum(w, ids)
            == Vec3(centre.x * |ids| as real, centre.y * |ids| as real, centre.z * |ids| as real)
    ensures var d, h := Toward(centre, target), Heading(e, w, ids, target);
            if e.len(d) > 0.0001 then Scale(e.len(d), h) == d else h == Planar(0.0, 1.0)
  {
    centre := Mean(PosSum(w, ids), |ids|);
    var n := |ids| as real;
    var s := PosSum(w, ids);
    InverseTimes(s.x, n);
    InverseTimes(s.y, n);
    InverseTimes(s.z, n);
    var d := Toward(centre, target);
    if e.len(d) > 0.0001 {
      DividedTimes(d.x, e.len(d));
      DividedTimes(d.z, e.len(d));
    }
  }

  lemma InverseTimes(x: real, n: real)
    requires n > 0.0
    ensures x * (1.0 / n) * n == x
  {
    assert (1.0 / n) * n == 1.0;
    assert x * (1.0 / n) * n == x * ((1.0 / n) * n);
  }

  lemma DividedTimes(x: real, n: real)
    requires n > 0.0
    ensures n * (x / n) == x
  {}
}
