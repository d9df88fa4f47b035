/** Pairwise collision resolution of the 3D game (main.py, the MOVING
    branch's double loop over all stones). */
module Collisions {
  import opened Vectors
  import opened Constants
  import opened Stones

  /** Centres closer than this overlap: 2 * STONE_RADIUS. */
  const CONTACT: real := (2 * STONE_RADIUS) as real

  /** The restitution term 1.9 = 1 + e with e = 0.9. */
  const RESTITUTION: real := 1.9

  /** Separation vector and its length after the zero-distance guard, which
      substitutes the unit vector (1, 0) and the distance 1. */
  function Separation(a: StoneState, b: StoneState, root: real -> real): (Vec2, real) {
    var d := Sub(a.pos, b.pos);
    var dist := root(LenSq(d));
    if dist == 0.0 then (Vec2(1.0, 0.0), 1.0) else (d, dist)
  }

  /** Two in-play stones whose centres are closer than CONTACT. */
  predicate Touching(a: StoneState, b: StoneState, root: real -> real) {
    !a.outOfPlay && !b.outOfPlay && root(LenSq(Sub(a.pos, b.pos))) < CONTACT
  }

  /** normalize() of the separation vector. */
  function ContactNormal(a: StoneState, b: StoneState, root: real -> real): Vec2 {
    var sep := Separation(a, b, root);
    Scale(1.0 / sep.1, sep.0)
  }

  /** The relative velocity along the normal; negative means approaching. */
  function Closing(a: StoneState, b: StoneState, root: real -> real): real {
    Dot(Sub(a.vel, b.vel), ContactNormal(a, b, root))
  }

  /** How far each stone of a touching pair is pushed: half the overlap
      along the normal. */
  function Push(a: StoneState, b: StoneState, root: real -> real): Vec2 {
    Scale((CONTACT - Separation(a, b, root).1) * 0.5, ContactNormal(a, b, root))
  }

  /** The impulse an approaching pair exchanges along the normal. */
  function Impulse(a: StoneState, b: StoneState, root: real -> real): Vec2 {
    Scale(-RESTITUTION * Closing(a, b, root) / 2.0, ContactNormal(a, b, root))
  }

  /** One pair of the double loop: push apart by half the overlap each, then,
      if approaching, exchange the impulse and wake both stones. */
  function Collide(a: StoneState, b: StoneState, root: real -> real): (r: (StoneState, StoneState))
    ensures Add(r.0.vel, r.1.vel) == Add(a.vel, b.vel)
    ensures Add(r.0.pos, r.1.pos) == Add(a.pos, b.pos)
    ensures r.0.team == a.team && r.1.team == b.team
    ensures r.0.outOfPlay == a.outOfPlay && r.1.outOfPlay == b.outOfPlay
    ensures !Touching(a, b, root) ==> r == (a, b)
    ensures Touching(a, b, root) ==>
              r.0.pos == Add(a.pos, Push(a, b, root)) && r.1.pos == Sub(b.pos, Push(a, b, root))
    ensures Touching(a, b, root) && Closing(a, b, root) >= 0.0 ==>
              r.0.vel == a.vel && r.1.vel == b.vel && r.0.stopped == a.stopped && r.1.stopped == b.stopped
    ensures Touching(a, b, root) && Closing(a, b, root) < 0.0 ==>
              r.0.vel == Add(a.vel, Impulse(a, b, root)) && r.1.vel == Sub(b.vel, Impulse(a, b, root)) &&
              !r.0.stopped && !r.1.stopped
  {
    if !Touching(a, b, root) then (a, b)
    else
      var push := Push(a, b, root);
      var a1 := a.(pos := Add(a.pos, push));
      var b1 := b.(pos := Sub(b.pos, push));
      if Closing(a, b, root) < 0.0 then
        var impulse := Impulse(a, b, root);
        (a1.(vel := Add(a.vel, impulse), stopped := false), b1.(vel := Sub(b.vel, impulse), stopped := false))
      else
        (a1, b1)
  }

  /** With an exact square root the normal has unit length. */
  lemma NormalIsUnit(a: StoneState, b: StoneState, root: real -> real)
    requires RootAt(root, LenSq(Sub(a.pos, b.pos)))
    ensures Dot(ContactNormal(a, b, root), ContactNormal(a, b, root)) == 1.0
  {
    var d := Sub(a.pos, b.pos);
    var dist := root(LenSq(d));
    assert dist * dist == LenSq(d);
    if dist != 0.0 {
      var n := Scale(1.0 / dist, d);
      calc {
        Dot(n, n);
        (1.0 / dist) * d.x * ((1.0 / dist) * d.x) + (1.0 / dist) * d.y * ((1.0 / dist) * d.y);
        (d.x * d.x + d.y * d.y) / (dist * dist);
        1.0;
      }
    }
  }

  /** A non-degenerate contact leaves the centres exactly CONTACT apart. */
  lemma CollideSeparates(a: StoneState, b: StoneState, root: real -> real)
    requires RootAt(root, LenSq(Sub(a.pos, b.pos)))
    requires Touching(a, b, root) && LenSq(Sub(a.pos, b.pos)) > 0.0
    ensures var r := Collide(a, b, root);
            LenSq(Sub(r.0.pos, r.1.pos)) == CONTACT * CONTACT
  {
    var d := Sub(a.pos, b.pos);
    var dist := root(LenSq(d));
    assert dist * dist == LenSq(d);
    assert dist != 0.0;
    var r := Collide(a, b, root);
    var p := Push(a, b, root);
    assert p == Scale((CONTACT - dist) * 0.5, Scale(1.0 / dist, d));
    PushedApart(a.pos, b.pos, dist, p, CONTACT);
  }

  /** Two centres, each pushed by half the overlap along the unit normal,
      end up `c` apart. */
  lemma PushedApart(x: Vec2, y: Vec2, dist: real, p: Vec2, c: real)
    requires dist != 0.0 && dist * dist == LenSq(Sub(x, y))
    requires p == Scale((c - dist) * 0.5, Scale(1.0 / dist, Sub(x, y)))
    ensures LenSq(Sub(Add(x, p), Sub(y, p))) == c * c
  {
    var d := Sub(x, y);
    var e := Sub(Add(x, p), Sub(y, p));
    assert p == Vec2((c - dist) * 0.5 * ((1.0 / dist) * d.x), (c - dist) * 0.5 * ((1.0 / dist) * d.y));
    assert e == Vec2(d.x + 2.0 * p.x, d.y + 2.0 * p.y);
    Stretch(d.x, dist, c);
    Stretch(d.y, dist, c);
    assert e == Vec2((c / dist) * d.x, (c / dist) * d.y);
    ScaledLength(d.x, d.y, c / dist, dist, c);
  }

  lemma Stretch(u: real, dist: real, c: real)
    requires dist != 0.0
    ensures u + 2.0 * ((c - dist) * 0.5) * ((1.0 / dist) * u) == (c / dist) * u
  {
    var k := 1.0 / dist;
    assert k * dist == 1.0;
    calc {
      u + 2.0 * ((c - dist) * 0.5) * (k * u);
      u + (c - dist) * k * u;
      u + c * k * u - dist * k * u;
      c * k * u;
    }
    assert c / dist == c * k;
  }

  lemma ScaledLength(ux: real, uy: real, s: real, dist: real, c: real)
    requires dist != 0.0 && dist * dist == ux * ux + uy * uy
    requires s == c / dist
    ensures (s * ux) * (s * ux) + (s * uy) * (s * uy) == c * c
  {
    calc {
      (s * ux) * (s * ux) + (s * uy) * (s * uy);
      s * s * (ux * ux + uy * uy);
      s * s * (dist * dist);
      (s * dist) * (s * dist);
    }
    assert s * dist == c;
  }

  /** Coincident stones are split along x by CONTACT - 1 in all, because the
      guard takes the distance to be 1. (Only the root of 0 matters here.) */
  lemma CollideCoincident(a: StoneState, b: StoneState, root: real -> real)
    requires root(0.0) == 0.0
    requires !a.outOfPlay && !b.outOfPlay && a.pos == b.pos
    ensures var h := (CONTACT - 1.0) / 2.0;
            var r := Collide(a, b, root);
            r.0.pos == Add(a.pos, Vec2(h, 0.0)) && r.1.pos == Sub(b.pos, Vec2(h, 0.0))
  {
    CoincidentPush(a, b, root);
  }

  lemma CoincidentPush(a: StoneState, b: StoneState, root: real -> real)
    requires root(0.0) == 0.0
    requires !a.outOfPlay && !b.outOfPlay && a.pos == b.pos
    ensures Touching(a, b, root) && Push(a, b, root) == Vec2((CONTACT - 1.0) / 2.0, 0.0)
  {
    CoincidentSeparation(a, b, root);
    assert ContactNormal(a, b, root) == Vec2(1.0, 0.0);
  }

  lemma CoincidentSeparation(a: StoneState, b: StoneState, root: real -> real)
    requires root(0.0) == 0.0
    requires !a.outOfPlay && !b.outOfPlay && a.pos == b.pos
    ensures Touching(a, b, root) && Separation(a, b, root) == (Vec2(1.0, 0.0), 1.0)
  {
    CoincidentDistance(a.pos, b.pos, root);
  }

  lemma CoincidentDistance(p: Vec2, q: Vec2, root: real -> real)
    requires root(0.0) == 0.0 && p == q
    ensures root(LenSq(Sub(p, q))) == 0.0
  {
    assert Sub(p, q) == Zero;
  }

  /** An approaching pair: total velocity is kept and the relative normal
      velocity is reversed and scaled by 0.9. */
  lemma CollideRebounds(a: StoneState, b: StoneState, root: real -> real)
    requires RootAt(root, LenSq(Sub(a.pos, b.pos)))
    requires Touching(a, b, root) && Closing(a, b, root) < 0.0
    ensures var r := Collide(a, b, root);
            var n := ContactNormal(a, b, root);
            Dot(Sub(r.0.vel, r.1.vel), n) == -0.9 * Closing(a, b, root) &&
            Add(r.0.vel, r.1.vel) == Add(a.vel, b.vel) &&
            !r.0.stopped && !r.1.stopped
  {
    var n := ContactNormal(a, b, root);
    NormalIsUnit(a, b, root);
    var van := Closing(a, b, root);
    var j := -RESTITUTION * van / 2.0;
    var r := Collide(a, b, root);
    assert Impulse(a, b, root) == Scale(j, n);
    assert Sub(r.0.vel, r.1.vel) == Add(Sub(a.vel, b.vel), Scale(2.0 * j, n));
    calc {
      Dot(Add(Sub(a.vel, b.vel), Scale(2.0 * j, n)), n);
      van + 2.0 * j * Dot(n, n);
      van - RESTITUTION * van;
      -0.9 * van;
    }
  }

  /** Resolve the pair (i, j) of a roster. */
  function PairStep(ss: seq<StoneState>, i: nat, j: nat, root: real -> real): (r: seq<StoneState>)
    requires i < j < |ss|
    ensures |r| == |ss|
  {
    var (a, b) := Collide(ss[i], ss[j], root);
    ss[i := a][j := b]
  }

  /** The double loop `for i in range(n): for j in range(i + 1, n)`, from the
      pair (i, j) onwards. */
  function PassFrom(ss: seq<StoneState>, i: nat, j: nat, root: real -> real): (r: seq<StoneState>)
    requires i < j <= |ss| + 1
    ensures |r| == |ss|
    decreases |ss| - i, |ss| + 1 - j
  {
    if i >= |ss| then ss
    else if j >= |ss| then PassFrom(ss, i + 1, i + 2, root)
    else PassFrom(PairStep(ss, i, j, root), i, j + 1, root)
  }

  /** One collision pass over a whole roster. */
  function Pass(ss: seq<StoneState>, root: real -> real): (r: seq<StoneState>)
    ensures |r| == |ss|
  {
    PassFrom(ss, 0, 1, root)
  }

  /** The sum of all velocities (equal masses: the total momentum). */
  function TotalVel(ss: seq<StoneState>): Vec2 {
    if ss == [] then Zero else Add(TotalVel(ss[..|ss| - 1]), ss[|ss| - 1].vel)
  }

  lemma {:induction false} TotalVelUpdate(ss: seq<StoneState>, k: nat, s: StoneState)
    requires k < |ss|
    ensures TotalVel(ss[k := s]) == Add(Sub(TotalVel(ss), ss[k].vel), s.vel)
    decreases |ss|
  {
    var n := |ss| - 1;
    if k < n {
      assert ss[k := s][..n] == ss[..n][k := s];
      TotalVelUpdate(ss[..n], k, s);
    } else {
      assert ss[k := s][..n] == ss[..n];
    }
  }

  /** Resolving one pair keeps the total momentum. */
  lemma PairStepKeepsMomentum(ss: seq<StoneState>, i: nat, j: nat, root: real -> real)
    requires i < j < |ss|
    ensures TotalVel(PairStep(ss, i, j, root)) == TotalVel(ss)
  {
    var (a, b) := Collide(ss[i], ss[j], root);
    TotalVelUpdate(ss, i, a);
    TotalVelUpdate(ss[i := a], j, b);
  }

  /** The whole collision pass keeps the total momentum of the roster. */
  lemma {:induction false} PassKeepsMomentum(ss: seq<StoneState>, i: nat, j: nat, root: real -> real)
    requires i < j <= |ss| + 1
    ensures TotalVel(PassFrom(ss, i, j, root)) == TotalVel(ss)
    decreases |ss| - i, |ss| + 1 - j
  {
    if i >= |ss| {
    } else if j >= |ss| {
      PassKeepsMomentum(ss, i + 1, i + 2, root);
    } else {
      PairStepKeepsMomentum(ss, i, j, root);
      PassKeepsMomentum(PairStep(ss, i, j, root), i, j + 1, root);
    }
  }

  /** The pass keeps every stone's team and out-of-play flag, and the rule
      that a stone resting in play has no velocity. */
  lemma {:induction false} PassKeepsIdentity(ss: seq<StoneState>, i: nat, j: nat, root: real -> real)
    requires i < j <= |ss| + 1
    ensures var r := PassFrom(ss, i, j, root);
            forall k :: 0 <= k < |ss| ==>
              r[k].team == ss[k].team && r[k].outOfPlay == ss[k].outOfPlay &&
              (AtRest(ss[k]) ==> AtRest(r[k]))
    decreases |ss| - i, |ss| + 1 - j
  {
    if i >= |ss| {
    } else if j >= |ss| {
      PassKeepsIdentity(ss, i + 1, i + 2, root);
    } else {
      var t := PairStep(ss, i, j, root);
      CollideKeepsAtRest(ss[i], ss[j], root);
      PassKeepsIdentity(t, i, j + 1, root);
    }
  }

  lemma CollideKeepsAtRest(a: StoneState, b: StoneState, root: real -> real)
    ensures var r := Collide(a, b, root);
            (AtRest(a) ==> AtRest(r.0)) && (AtRest(b) ==> AtRest(r.1))
  {
  }

  /** The pair step of the loop body, on the two stone objects in place. */
  method Bump(s1: Stone, s2: Stone, root: real -> real)
    requires s1 != s2
    modifies s1, s2
    ensures (s1.State(), s2.State()) == Collide(old(s1.State()), old(s2.State()), root)
  {
    if s1.outOfPlay || s2.outOfPlay {
      return;
    }
    var distVec := Sub(s1.pos, s2.pos);
    var dist := root(LenSq(distVec));
    if dist < CONTACT {
      ghost var a, b := s1.State(), s2.State();
      if dist == 0.0 {
        distVec, dist := Vec2(1.0, 0.0), 1.0;
      }
      var overlap := CONTACT - dist;
      var normal := Scale(1.0 / dist, distVec);
      assert normal == ContactNormal(a, b, root);
      s1.pos := Add(s1.pos, Scale(overlap * 0.5, normal));
      s2.pos := Sub(s2.pos, Scale(overlap * 0.5, normal));
      var relVel := Sub(s1.vel, s2.vel);
      var velAlongNormal := Dot(relVel, normal);
      if velAlongNormal < 0.0 {
        var impulse := Scale(-RESTITUTION * velAlongNormal / 2.0, normal);
        s1.vel := Add(s1.vel, impulse);
        s2.vel := Sub(s2.vel, impulse);
        s1.stopped := false;
        s2.stopped := false;
      }
    }
  }

  /** The collision double loop over `all_stones`, in place. */
  method ResolveCollisions(all: seq<Stone>, root: real -> real)
    requires Distinct(all)
    modifies all
    ensures States(all) == Pass(old(States(all)), root)
  {
    ghost var goal := Pass(States(all), root);
    var n := |all|;
    var i := 0;
    while i < n
      invariant 0 <= i <= n
      invariant PassFrom(States(all), i, i + 1, root) == goal
    {
      var j := i + 1;
      while j < n
        invariant i + 1 <= j <= n
        invariant PassFrom(States(all), i, j, root) == goal
      {
        ghost var before := States(all);
        Bump(all[i], all[j], root);
        assert States(all) == PairStep(before, i, j, root);
        j := j + 1;
      }
      i := i + 1;
    }
  }
}
