/**
 Environments exist: the assumptions made about distances and iteration orders can be met together,
 for instance by the larger of the two coordinate differences and any listing of a set.
 */
module Environment {
  import opened Entities
  import opened Simulation

  function MaxNorm(d: Planar): real { MaxReal(Abs(d.x), Abs(d.z)) }

  lemma AbsProduct(k: real, x: real, y: real, a: real, b: real)
    requires y == k * x && a == Abs(k) && b == Abs(x)
    ensures Abs(y) == a * b
  {
    if k >= 0.0 {
      if x >= 0.0 { assert k * x >= 0.0; } else { assert k * -x >= 0.0; }
    } else {
      if x >= 0.0 { assert -k * x >= 0.0; } else { assert -k * -x >= 0.0; }
    }
  }

  lemma ScaledMax(k: real, a: real, b: real, p: real, q: real)
    requires k >= 0.0 && p == k * a && q == k * b
    ensures MaxReal(p, q) == k * MaxReal(a, b)
  {
    if a >= b { assert k * (a - b) >= 0.0; } else { assert k * (b - a) >= 0.0; }
  }

  lemma MaxNormScales(k: real, d: Planar)
    ensures MaxNorm(Scale(k, d)) == Abs(k) * MaxNorm(d)
  {
    hide Abs, MaxReal;
    AbsPositive(k);
    var s := Scale(k, d);
    var c, a, b := Abs(k), Abs(d.x), Abs(d.z);
    AbsProduct(k, d.x, s.x, c, a);
    AbsProduct(k, d.z, s.z, c, b);
    ScaledMax(c, a, b, Abs(s.x), Abs(s.z));
    assert MaxNorm(s) == MaxReal(Abs(s.x), Abs(s.z));
    assert MaxNorm(d) == MaxReal(Abs(d.x), Abs(d.z));
  }

  lemma AbsPositive(k: real)
    ensures Abs(k) >= 0.0
  {}

  lemma MaxNormAdds(d: Planar, d': Planar)
    ensures MaxNorm(d) >= 0.0 && MaxNorm(Plus(d, d')) <= MaxNorm(d) + MaxNorm(d')
  {}

  lemma MaxNormIsNorm(len: Planar -> real)
    requires forall d :: len(d) == MaxNorm(d)
    ensures IsNorm(len)
  {
    assert len(Planar(1.0, 0.0)) == 1.0;
    hide MaxNorm, Scale, Plus, Abs;
    forall k, d ensures len(Scale(k, d)) == Abs(k) * len(d) {
      MaxNormScales(k, d);
    }
    forall d, d' ensures len(Plus(d, d')) <= len(d) + len(d') {
      MaxNormAdds(d, d');
    }
    forall d ensures len(d) >= 0.0 {
      MaxNormAdds(d, d);
    }
  }

  ghost function Listing(keys: set<Id>): seq<Id> {
    if keys == {} then []
    else
      var k :| k in keys;
      [k] + Listing(keys - {k})
  }

  lemma {:induction false} ListingEnumerates(keys: set<Id>)
    ensures IsEnumeration(Listing(keys), keys)
  {
    if keys != {} {
      var k :| k in keys && Listing(keys) == [k] + Listing(keys - {k});
      ListingEnumerates(keys - {k});
    }
  }

  lemma EnvironmentsExist()
    ensures exists e: Env :: IsNorm(e.len) && Enumerates(e.enum)
  {
    var len := (d: Planar) => MaxNorm(d);
    MaxNormIsNorm(len);
    forall keys ensures IsEnumeration(Listing(keys), keys) {
      ListingEnumerates(keys);
    }
    ghost var e := Env(len, _ => 0.0, _ => 0.0, _ => 0.0, (_, _) => ORIGIN, keys => Listing(keys));
    assert IsNorm(e.len) && Enumerates(e.enum);
  }
}
