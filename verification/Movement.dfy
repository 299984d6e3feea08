/**
 Moving on the ground, for any norm: straight steps toward a point (MoveToward) and walking along
 waypoints (StepMove).
 */
module Movement {
  import opened Entities
  import opened Simulation

  // ---- distances ----

  lemma GapZero(e: Env, a: Vec3, b: Vec3)
    requires IsNorm(e.len) && a.x == b.x && a.z == b.z
    ensures Gap(e, a, b) == 0.0
  {
    assert Toward(a, b) == Scale(0.0, Toward(a, b));
  }

  lemma GapTriangle(e: Env, a: Vec3, b: Vec3, c: Vec3)
    requires IsNorm(e.len)
    ensures Gap(e, a, c) <= Gap(e, a, b) + Gap(e, b, c)
  {
    assert Toward(a, c) == Plus(Toward(a, b), Toward(b, c));
  }

  lemma GapSymmetric(e: Env, a: Vec3, b: Vec3)
    requires IsNorm(e.len)
    ensures Gap(e, a, b) == Gap(e, b, a) && Gap(e, a, b) >= 0.0
  {
    assert Toward(b, a) == Scale(-1.0, Toward(a, b));
  }

  /** Going the fraction k of the way leaves the fraction 1 - k, even when it overshoots. */
  lemma AlongGap(e: Env, a: Vec3, b: Vec3, k: real)
    requires IsNorm(e.len)
    ensures Gap(e, Along(a, Toward(a, b), k), b) == Abs(1.0 - k) * Gap(e, a, b)
    ensures Gap(e, a, Along(a, Toward(a, b), k)) == Abs(k) * Gap(e, a, b)
  {
    var d := Toward(a, b);
    assert Toward(Along(a, d, k), b) == Scale(1.0 - k, d);
    assert Toward(a, Along(a, d, k)) == Scale(k, d);
  }

  /** A full step of length s toward b turns the distance g into |g - s|. */
  lemma StepGap(e: Env, a: Vec3, b: Vec3, s: real)
    requires IsNorm(e.len) && Gap(e, a, b) > 0.0 && s >= 0.0
    ensures Gap(e, Along(a, Toward(a, b), s / Gap(e, a, b)), b) == Abs(Gap(e, a, b) - s)
    ensures Gap(e, a, Along(a, Toward(a, b), s / Gap(e, a, b))) == s
  {
    var g := Gap(e, a, b);
    AlongGap(e, a, b, s / g);
    FractionOf(g, s);
  }

  lemma FractionOf(g: real, s: real)
    requires g > 0.0 && s >= 0.0
    ensures Abs(1.0 - s / g) * g == Abs(g - s) && Abs(s / g) * g == s
  {
    var k := s / g;
    assert k * g == s;
    assert k >= 0.0;
    if k <= 1.0 {
      assert (1.0 - k) * g == g - s;
    } else {
      assert (k - 1.0) * g == s - g;
    }
  }

  // ---- straight steps ----

  /** How many steps of length s it takes from distance g until within the radius r. */
  function Legs(g: real, s: real, r: real): nat
    requires s > 0.0
  {
    if g <= r || g <= 0.0 then 0 else FloorNat(g, s) + 1
  }

  function Times(n: real, s: real): real { n * s }

  lemma TimesFacts(a: real, b: real, s: real)
    requires s > 0.0
    ensures Times(a + 1.0, s) == Times(a, s) + s
    ensures a <= b ==> Times(a, s) <= Times(b, s)
    ensures a < b ==> Times(a, s) < Times(b, s)
    ensures Times(a / s, s) == a
    ensures a >= 0.0 ==> a / s >= 0.0
  {}

  /** The largest n with n * s <= g. */
  function FloorNat(g: real, s: real): (n: nat)
    requires g >= 0.0 && s > 0.0
    ensures Times(n as real, s) <= g < Times(n as real + 1.0, s)
  {
    var q := g / s;
    TimesFacts(g, g, s);
    var n := q.Floor;
    TimesFacts(n as real, q, s);
    TimesFacts(q, n as real + 1.0, s);
    n
  }

  lemma FloorIs(g: real, s: real, n: nat)
    requires g >= 0.0 && s > 0.0 && Times(n as real, s) <= g < Times(n as real + 1.0, s)
    ensures FloorNat(g, s) == n
  {
    var m := FloorNat(g, s);
    hide Times, FloorNat;
    if m < n { TimesFacts(m as real + 1.0, n as real, s); }
    if m > n { TimesFacts(n as real + 1.0, m as real, s); }
  }

  lemma FloorMonotone(g: real, h: real, s: real)
    requires 0.0 <= g <= h && s > 0.0
    ensures FloorNat(g, s) <= FloorNat(h, s)
  {
    var m, n := FloorNat(g, s), FloorNat(h, s);
    hide Times, FloorNat;
    if m > n { TimesFacts(n as real + 1.0, m as real, s); }
  }

  lemma FloorStep(g: real, s: real)
    requires 0.0 < s <= g
    ensures FloorNat(g - s, s) == FloorNat(g, s) - 1
  {
    var m := FloorNat(g - s, s);
    assert Times(m as real, s) <= g - s < Times(m as real + 1.0, s);
    hide Times, FloorNat;
    TimesFacts(m as real, 0.0, s);
    TimesFacts(m as real + 1.0, 0.0, s);
    assert (m + 1) as real == m as real + 1.0;
    FloorIs(g, s, m + 1);
  }

  lemma LegsMonotone(g: real, h: real, s: real, r: real)
    requires g <= h && s > 0.0
    ensures Legs(g, s, r) <= Legs(h, s, r)
  {
    if g > r && g > 0.0 { FloorMonotone(g, h, s); }
  }

  /** While a step is at most twice the radius, every step from outside it brings arrival nearer. */
  lemma LegsDecrease(g: real, s: real, r: real)
    requires r >= 0.0 && g > r && 0.0 < s <= 2.0 * r
    ensures Legs(Abs(g - s), s, r) < Legs(g, s, r)
  {
    if g >= s {
      FloorStep(g, s);
    } else {
      assert Abs(g - s) <= r;
    }
  }

  lemma StrideSame(u: Unit, v: Unit, dt: real)
    requires v.speed == u.speed
    ensures Stride(v, dt) == Stride(u, dt)
  {}

  /** The position after n steps toward p. */
  function Stepped(e: Env, u: Unit, p: Vec3, arrive: real, dt: real, n: nat): Unit {
    if n == 0 then u else MoveToward(e, Stepped(e, u, p, arrive, dt, n - 1), p, arrive, dt).0
  }

  function Arrived(e: Env, u: Unit, p: Vec3, arrive: real, dt: real, n: nat): bool {
    MoveToward(e, Stepped(e, u, p, arrive, dt, n), p, arrive, dt).1
  }

  lemma MoveGap(e: Env, u: Unit, p: Vec3, arrive: real, dt: real)
    requires IsNorm(e.len) && Stride(u, dt) > 0.0 && arrive > 0.0001
    ensures var (v, arrived) := MoveToward(e, u, p, arrive, dt);
            && arrived == (Gap(e, u.pos, p) <= arrive)
            && (arrived ==> v == u)
            && (!arrived ==> Gap(e, v.pos, p) == Abs(Gap(e, u.pos, p) - Stride(u, dt)))
            && Stride(v, dt) == Stride(u, dt)
  {
    if Gap(e, u.pos, p) > arrive { StepGap(e, u.pos, p, Stride(u, dt)); }
  }

  /** With steps of at most twice the radius, a unit arrives from anywhere within Legs steps. */
  lemma {:induction false} StepsArrive(e: Env, u: Unit, p: Vec3, arrive: real, dt: real)
    returns (n: nat)
    requires IsNorm(e.len) && arrive > 0.0001 && 0.0 < Stride(u, dt) <= 2.0 * arrive
    ensures n <= Legs(Gap(e, u.pos, p), Stride(u, dt), arrive)
    ensures Arrived(e, u, p, arrive, dt, n)
    decreases Legs(Gap(e, u.pos, p), Stride(u, dt), arrive)
  {
    MoveGap(e, u, p, arrive, dt);
    if Gap(e, u.pos, p) <= arrive {
      n := 0;
    } else {
      var v := MoveToward(e, u, p, arrive, dt).0;
      LegsDecrease(Gap(e, u.pos, p), Stride(u, dt), arrive);
      n := StepsArrive(e, v, p, arrive, dt);
      SteppedFirst(e, u, p, arrive, dt, n);
      n := n + 1;
    }
  }

  lemma {:induction false} SteppedFirst(e: Env, u: Unit, p: Vec3, arrive: real, dt: real, n: nat)
    ensures Stepped(e, u, p, arrive, dt, n + 1) == Stepped(e, MoveToward(e, u, p, arrive, dt).0, p, arrive, dt, n)
  {
    if n > 0 { SteppedFirst(e, u, p, arrive, dt, n - 1); }
  }

  /** With longer steps there is a place from which a unit jumps back and forth over the target for ever. */
  lemma {:induction false} LongStepsOscillate(e: Env, u: Unit, p: Vec3, arrive: real, dt: real, n: nat)
    requires IsNorm(e.len) && arrive > 0.0001 && Stride(u, dt) > 2.0 * arrive
    requires 2.0 * Gap(e, u.pos, p) == Stride(u, dt)
    ensures !Arrived(e, u, p, arrive, dt, n)
    ensures 2.0 * Gap(e, Stepped(e, u, p, arrive, dt, n).pos, p) == Stride(u, dt)
            && Stride(Stepped(e, u, p, arrive, dt, n), dt) == Stride(u, dt)
  {
    if n > 0 {
      LongStepsOscillate(e, u, p, arrive, dt, n - 1);
      MoveGap(e, Stepped(e, u, p, arrive, dt, n - 1), p, arrive, dt);
    }
    MoveGap(e, Stepped(e, u, p, arrive, dt, n), p, arrive, dt);
  }

  ghost predicate Arrives(e: Env, u: Unit, p: Vec3, arrive: real, dt: real) {
    exists n: nat :: Arrived(e, u, p, arrive, dt, n)
  }

  function From(u: Unit, pos: Vec3): Unit { u.(pos := pos) }

  /**
   Straight movement reaches its target from everywhere exactly when a step is at most twice the
   arrival radius; the simulation's step of 0.3 is exactly twice its radius of 0.15.
   */
  lemma ArrivalCondition(e: Env, u: Unit, arrive: real, dt: real)
    requires IsNorm(e.len) && arrive > 0.0001 && Stride(u, dt) > 0.0
    ensures (forall from: Vec3, p: Vec3 :: Arrives(e, From(u, from), p, arrive, dt)) <==> Stride(u, dt) <= 2.0 * arrive
    ensures MOVE_SPEED * TICK_SECONDS == 2.0 * ARRIVE_RADIUS
  {
    hide IsNorm;
    if Stride(u, dt) <= 2.0 * arrive {
      forall from: Vec3, p: Vec3 ensures Arrives(e, From(u, from), p, arrive, dt) {
        var n := StepsArrive(e, From(u, from), p, arrive, dt);
      }
    } else {
      var from := Oscillates(e, u, arrive, dt);
      assert !Arrives(e, From(u, from), ORIGIN, arrive, dt);
    }
  }

  lemma Oscillates(e: Env, u: Unit, arrive: real, dt: real) returns (from: Vec3)
    requires IsNorm(e.len) && arrive > 0.0001 && Stride(u, dt) > 2.0 * arrive
    ensures !Arrives(e, From(u, from), ORIGIN, arrive, dt)
  {
    var s := Stride(u, dt);
    from := Vec3(s / 2.0, 0.0, 0.0);
    assert Toward(from, ORIGIN) == Scale(-s / 2.0, Planar(1.0, 0.0));
    assert 2.0 * Gap(e, from, ORIGIN) == s;
    forall n: nat ensures !Arrived(e, From(u, from), ORIGIN, arrive, dt, n) {
      LongStepsOscillate(e, From(u, from), ORIGIN, arrive, dt, n);
    }
  }

  // ---- walking along waypoints ----

  /** The length of the waypoints after number i. */
  function Tail(e: Env, path: seq<Vec3>, i: nat): real
    decreases |path| - i
  {
    if i + 1 >= |path| then 0.0 else Gap(e, path[i], path[i + 1]) + Tail(e, path, i + 1)
  }

  /** The length of the way a walking unit still has before it. */
  function WayLeft(e: Env, u: Unit): real {
    Gap(e, u.pos, Destination(u)) + if OnPath(u) then Tail(e, u.path, u.pathIndex) else 0.0
  }

  function Goal(u: Unit): Vec3 { if OnPath(u) then u.path[|u.path| - 1] else u.target }

  lemma {:induction false} TailNonNegative(e: Env, path: seq<Vec3>, i: nat)
    requires IsNorm(e.len)
    ensures Tail(e, path, i) >= 0.0
    decreases |path| - i
  {
    if i + 1 < |path| {
      GapSymmetric(e, path[i], path[i + 1]);
      TailNonNegative(e, path, i + 1);
    }
  }

  /** The state of a walk after `left` more distance: ended at the goal, or further along the same way. */
  ghost predicate Progress(e: Env, u: Unit, v: Unit, left: real) {
    if v.hasTarget then
      && left - 0.00001 <= WayLeft(e, u) - WayLeft(e, v) <= left + 0.0001
      && v.path == u.path && v.target == u.target && u.pathIndex <= v.pathIndex && (OnPath(u) ==> OnPath(v))
    else
      && v.pos == Goal(u) && v.state == Idle && v.path == [] && WayLeft(e, u) <= left + 0.0001
  }

  /**
   Path following: a walk visits the waypoints in order and either ends, idle, at the last one,
   or comes nearer along the way by the distance walked, up to the two tolerances of the code.
   */
  lemma {:induction false} WalkProgress(e: Env, u: Unit, left: real)
    requires IsNorm(e.len) && u.hasTarget && (u.path == [] || OnPath(u)) && left >= -0.0001
    ensures Progress(e, u, Walk(e, u, left), left)
    decreases if OnPath(u) then |u.path| - u.pathIndex else 0
  {
    hide IsNorm, Tail, Gap;
    if left > 0.00001 {
      var dest := Destination(u);
      var dist := Gap(e, u.pos, dest);
      GapSymmetric(e, u.pos, dest);
      GapIs(e, u.pos, dest);
      if OnPath(u) && u.pathIndex + 1 < |u.path| { WayStep(e, u); } else { WayLast(e, u); }
      if dist <= left || dist < 0.0001 {
        if OnPath(u) && u.pathIndex + 1 < |u.path| {
          WalkProgress(e, u.(pos := dest, pathIndex := u.pathIndex + 1), left - dist);
        }
      } else {
        StepGap(e, u.pos, dest, left);
      }
    }
  }

  lemma GapIs(e: Env, a: Vec3, b: Vec3)
    ensures Gap(e, a, b) == e.len(Toward(a, b))
  {}

  lemma WayStep(e: Env, u: Unit)
    requires OnPath(u) && u.pathIndex + 1 < |u.path|
    ensures var u' := u.(pos := Destination(u), pathIndex := u.pathIndex + 1);
            WayLeft(e, u) == Gap(e, u.pos, Destination(u)) + WayLeft(e, u')
  {}

  lemma WayLast(e: Env, u: Unit)
    requires !(OnPath(u) && u.pathIndex + 1 < |u.path|)
    ensures WayLeft(e, u) == Gap(e, u.pos, Destination(u)) && Destination(u) == Goal(u)
  {}

  /** After n frames with step length s. */
  function Walked(e: Env, u: Unit, s: real, n: nat): Unit {
    if n == 0 then u else Walk(e, Walked(e, u, s, n - 1), s)
  }

  lemma {:induction false} WalkedFirst(e: Env, u: Unit, s: real, n: nat)
    ensures Walked(e, u, s, n + 1) == Walked(e, Walk(e, u, s), s, n)
  {
    hide Walk;
    if n > 0 { WalkedFirst(e, u, s, n - 1); } else { assert Walked(e, u, s, 0) == u; }
  }

  lemma WayNonNegative(e: Env, u: Unit)
    requires IsNorm(e.len)
    ensures WayLeft(e, u) >= 0.0
  {
    GapSymmetric(e, u.pos, Destination(u));
    TailNonNegative(e, u.path, u.pathIndex);
  }

  ghost function Frames(e: Env, u: Unit, s: real): nat
    requires s > 0.00001
  {
    if WayLeft(e, u) < 0.0 then 0 else FloorNat(WayLeft(e, u), s - 0.00001) + 1
  }

  /** A walk ends at its goal within the way left divided by the least progress of a frame, rounded up. */
  lemma {:induction false} WalkEnds(e: Env, u: Unit, s: real) returns (n: nat)
    requires IsNorm(e.len) && u.hasTarget && (u.path == [] || OnPath(u)) && s > 0.00001
    ensures n <= Frames(e, u, s)
    ensures !Walked(e, u, s, n).hasTarget && Walked(e, u, s, n).pos == Goal(u)
    decreases Frames(e, u, s)
  {
    hide IsNorm, FloorNat, WayLeft, Walk;
    WayNonNegative(e, u);
    WalkProgress(e, u, s);
    var v := Walk(e, u, s);
    n := 1;
    assert Walked(e, u, s, 0) == u;
    if v.hasTarget {
      WayNonNegative(e, v);
      FloorStep(WayLeft(e, u), s - 0.00001);
      FloorMonotone(WayLeft(e, v), WayLeft(e, u) - (s - 0.00001), s - 0.00001);
      var m := WalkEnds(e, v, s);
      WalkedFirst(e, u, s, m);
      assert Goal(v) == Goal(u);
      n := m + 1;
    }
  }
}
