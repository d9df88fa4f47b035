/** What the simpler game (curling.py) keeps true from frame to frame, and
    what its collision rule does. */
module CurlingFacts {
  import opened Vectors
  import opened Options
  import opened Controls
  import Constants
  import Flow
  import Collisions
  import opened Curling

  /** The colour of the k-th stone thrown: RED first, then alternating. */
  function Colour(k: nat): Team {
    if k % 2 == 0 then Constants.Red else Constants.Yellow
  }

  /** A stone only ever moves down the screen or sideways. */
  predicate Downward(s: StoneState) { s.vel.y >= 0.0 }

  /** The state of the main loop between frames. */
  predicate Inv(g: Sim) {
    && (g.chargeDir == 1 || g.chargeDir == -1)
    && 0.0 <= g.charge <= POWER_MAX
    && g.turn == Colour(|g.stones|)
    && g.current.team == g.turn
    && (forall k :: 0 <= k < |g.stones| ==> g.stones[k].team == Colour(k))
    && (forall k :: 0 <= k < |g.stones| ==> Downward(g.stones[k]))
    && Downward(g.current)
    && (g.phase == Aiming ==>
          g.current.stopped && g.current.vel == Zero && g.current.pos.y == SPAWN.y && Inside(g.current.pos.x))
    && (g.phase == Moving ==> !g.charging)
  }

  lemma StartInv()
    ensures Inv(Start)
  {
  }

  /** Stone.update's bounce rule: velocity x is reversed keeping 0.8 of it
      exactly when the wall was crossed, and a stone inside the walls keeps
      its x. */
  lemma AdvanceBounces(s: StoneState)
    ensures var m := if s.stopped then s else Glide(s);
            var r := Advance(s);
            (r.vel.x == if Inside(m.pos.x) then m.vel.x else -0.8 * m.vel.x) &&
            r.vel.y == m.vel.y &&
            (Inside(m.pos.x) ==> r.pos.x == m.pos.x) &&
            (m.pos.x < LEFT_WALL ==> r.pos.x == LEFT_WALL) &&
            (m.pos.x > RIGHT_WALL ==> r.pos.x == RIGHT_WALL)
  {
  }

  /** Scaling by a factor of square at most 1 does not grow a square. */
  lemma ScaledSquare(k: real, x: real)
    requires k * k <= 1.0
    ensures (k * x) * (k * x) <= x * x
  {
    SquarePositive(x);
    SquarePositive(k);
    var a, b := k * k, x * x;
    assert (k * x) * (k * x) == a * b;
    ProductNonNegative(1.0 - a, b);
    assert (1.0 - a) * b == b - a * b;
  }

  /** Stone.update never speeds a stone up: friction and the walls only take
      energy away. */
  lemma AdvanceSlows(s: StoneState)
    ensures LenSq(Advance(s).vel) <= LenSq(s.vel)
  {
    var m := if s.stopped then s else Glide(s);
    if !s.stopped {
      GlideSlows(s);
    }
    WallsSlow(m);
  }

  lemma GlideSlows(s: StoneState)
    ensures LenSq(Glide(s).vel) <= LenSq(s.vel)
  {
    if Slow(Scale(FRICTION, s.vel)) {
      LenSqZero();
    } else {
      ScaleShrinks(FRICTION, s.vel);
    }
  }

  /** Scaling by a factor of square at most 1 does not lengthen a vector. */
  lemma ScaleShrinks(k: real, v: Vec2)
    requires k * k <= 1.0
    ensures LenSq(Scale(k, v)) <= LenSq(v)
  {
    ScaledSquare(k, v.x);
    ScaledSquare(k, v.y);
  }

  lemma WallsSlow(s: StoneState)
    ensures LenSq(Walls(s).vel) <= LenSq(s.vel)
  {
    if !Inside(s.pos.x) {
      ScaledSquare(-0.8, s.vel.x);
      assert Walls(s).vel == Vec2(-0.8 * s.vel.x, s.vel.y);
    }
  }

  lemma AdvanceKeepsDownward(s: StoneState)
    requires Downward(s)
    ensures Downward(Advance(s))
  {
  }

  /** `for s in stones: s.update()` keeps every stone's colour and
      leaves no stone moving up the sheet. */
  lemma AdvanceAllKeepsDownward(ss: seq<StoneState>)
    requires forall k :: 0 <= k < |ss| ==> Downward(ss[k])
    ensures var r := AdvanceAll(ss);
      |r| == |ss| && forall k :: 0 <= k < |r| ==> Downward(r[k]) && r[k].team == ss[k].team
  {
    forall k | 0 <= k < |ss| ensures Downward(AdvanceAll(ss)[k]) {
      AdvanceKeepsDownward(ss[k]);
    }
  }

  /** With an exact square root, a hit raises exactly when the separation
      vector has length zero, i.e. the two centres coincide. */
  lemma HitRaisesIffCoincident(c: StoneState, s: StoneState, root: real -> real)
    requires RootAt(root, LenSq(Sub(c.pos, s.pos)))
    ensures Hit(c, s, root).None? <==> LenSq(Sub(c.pos, s.pos)) == 0.0
  {
    var x := LenSq(Sub(c.pos, s.pos));
    if x != 0.0 {
      RootOfPositive(root, x);
    }
  }

  lemma RootOfPositive(root: real -> real, x: real)
    requires RootAt(root, x) && x > 0.0
    ensures root(x) > 0.0
  {
    var r := root(x);
    assert r * r == x;
  }

  /** A hit that does not raise leaves the two centres exactly CONTACT
      apart. */
  lemma HitSeparates(c: StoneState, s: StoneState, root: real -> real)
    requires RootAt(root, LenSq(Sub(c.pos, s.pos)))
    requires root(LenSq(Sub(c.pos, s.pos))) < CONTACT && LenSq(Sub(c.pos, s.pos)) > 0.0
    ensures Hit(c, s, root).Some?
    ensures var r := Hit(c, s, root).value;
            LenSq(Sub(r.0.pos, r.1.pos)) == CONTACT * CONTACT
  {
    HitRaisesIffCoincident(c, s, root);
    var d := Sub(c.pos, s.pos);
    var dist := root(LenSq(d));
    assert dist * dist == LenSq(d);
    var p := Scale((CONTACT - dist) * 0.5, Scale(1.0 / dist, d));
    assert Hit(c, s, root).value.0.pos == Add(c.pos, p) && Hit(c, s, root).value.1.pos == Sub(s.pos, p);
    Collisions.PushedApart(c.pos, s.pos, dist, p, CONTACT);
  }

  /** The push is along the normal: an overlapping pair that does not raise
      ends with its separation vector scaled from dist to CONTACT, so the
      direction between the centres is kept. */
  lemma HitPushesAlongNormal(c: StoneState, s: StoneState, root: real -> real)
    requires Hit(c, s, root).Some? && root(LenSq(Sub(c.pos, s.pos))) < CONTACT
    ensures var r := Hit(c, s, root).value;
            Sub(r.0.pos, r.1.pos) == Scale(CONTACT / root(LenSq(Sub(c.pos, s.pos))), Sub(c.pos, s.pos))
  {
  }

  /** The velocity rule is not an exchange: a hit adds 0.3 of the thrown
      stone's velocity to the total. */
  lemma HitAddsMomentum(c: StoneState, s: StoneState, root: real -> real)
    requires Hit(c, s, root).Some? && root(LenSq(Sub(c.pos, s.pos))) < CONTACT
    ensures var r := Hit(c, s, root).value;
            Add(r.0.vel, r.1.vel) == Add(Add(c.vel, s.vel), Scale(0.3, c.vel))
  {
  }

  lemma HitKeepsDownward(c: StoneState, s: StoneState, root: real -> real)
    requires Downward(c) && Downward(s) && Hit(c, s, root).Some?
    ensures Downward(Hit(c, s, root).value.0) && Downward(Hit(c, s, root).value.1)
  {
  }

  lemma {:induction false} HitAllKeepsDownward(c: StoneState, ss: seq<StoneState>, root: real -> real)
    requires Downward(c) && forall k :: 0 <= k < |ss| ==> Downward(ss[k])
    requires HitAll(c, ss, root).Some?
    ensures var r := HitAll(c, ss, root).value;
            Downward(r.0) && forall k :: 0 <= k < |r.1| ==> Downward(r.1[k])
    decreases |ss|
  {
    if ss != [] {
      HitKeepsDownward(c, ss[0], root);
      var (c1, s1) := Hit(c, ss[0], root).value;
      HitAllKeepsDownward(c1, ss[1..], root);
      var (c2, rest) := HitAll(c1, ss[1..], root).value;
      assert HitAll(c, ss, root).value == (c2, [s1] + rest);
    }
  }

  /** The collision loop keeps every stone's colour. */
  lemma {:induction false} HitAllKeepsTeams(c: StoneState, ss: seq<StoneState>, root: real -> real)
    requires HitAll(c, ss, root).Some?
    ensures forall k :: 0 <= k < |ss| ==> HitAll(c, ss, root).value.1[k].team == ss[k].team
    decreases |ss|
  {
    if ss != [] {
      var (c1, s1) := Hit(c, ss[0], root).value;
      HitAllKeepsTeams(c1, ss[1..], root);
      var (c2, rest) := HitAll(c1, ss[1..], root).value;
      assert HitAll(c, ss, root).value.1 == [s1] + rest;
    }
  }

  /** The event loop keeps the invariant; while a stone is moving the
      space bar does nothing, and a press while aiming starts the gauge
      at 0, rising. */
  lemma {:induction false} OnEventsKeepInv(g: Sim, es: seq<Flow.Event>)
    requires Inv(g)
    ensures Inv(OnEvents(g, es))
    ensures g.phase == Moving ==> OnEvents(g, es) == g
    ensures g.phase == Aiming && es == [Flow.KeyDown(Flow.Space)] ==>
      OnEvents(g, es) == g.(charging := true, charge := 0.0, chargeDir := 1)
    decreases |es|
  {
    if es != [] {
      OnEventsKeepInv(OnEvent(g, es[0]), es[1..]);
    }
  }

  lemma AimingKeepsInv(g: Sim, left: bool, right: bool)
    requires Inv(g) && g.phase == Aiming
    ensures Inv(AimingStep(g, left, right))
  {
  }

  /** What MOVING does to the sheet: the turn changes exactly when every
      stone had stopped after its update, and then the thrown stone joins
      the sheet and the other colour aims a new stone with the charge at 0. */
  lemma MovingHandsOver(g: Sim, root: real -> real)
    requires MovingStep(g, root).Some?
    ensures var h := MovingStep(g, root).value;
            var settled := Advance(g.current).stopped && AllStopped(AdvanceAll(g.stones));
            (settled ==> |h.stones| == |g.stones| + 1 && h.turn == Constants.Other(g.turn) &&
                         h.phase == Aiming && h.charge == 0.0 && h.current == Placed(h.turn)) &&
            (!settled ==> |h.stones| == |g.stones| && h.turn == g.turn && h.phase == g.phase)
  {
  }

  lemma MovingKeepsInv(g: Sim, root: real -> real)
    requires Inv(g) && g.phase == Moving && MovingStep(g, root).Some?
    ensures Inv(MovingStep(g, root).value)
  {
    var c := Advance(g.current);
    var ss := AdvanceAll(g.stones);
    AdvanceKeepsDownward(g.current);
    AdvanceAllKeepsDownward(g.stones);
    HitAllKeepsDownward(c, ss, root);
    HitAllKeepsTeams(c, ss, root);
    var (c1, ss1) := HitAll(c, ss, root).value;
    var g1 := g.(stones := ss1, current := c1);
    assert Inv(g1);
    if c.stopped && AllStopped(ss) {
      NextTurnKeepsInv(g1);
    }
  }

  lemma NextTurnKeepsInv(g: Sim)
    requires Inv(g)
    ensures Inv(NextTurn(g))
  {
    var h := NextTurn(g);
    assert h.stones[|g.stones|] == g.current;
    assert |h.stones| == |g.stones| + 1;
  }

  /** Every frame that does not raise keeps the invariant. */
  lemma TickKeepsInv(g: Sim, f: Frame, root: real -> real)
    requires Inv(g) && Tick(g, f, root).Some?
    ensures Inv(Tick(g, f, root).value)
  {
    var g1 := OnEvents(g, f.events);
    OnEventsKeepInv(g, f.events);
    if g1.phase == Aiming {
      AimingKeepsInv(g1, f.left, f.right);
    } else {
      MovingKeepsInv(g1, root);
    }
  }

  /** From the start, whatever the frames: the gauge stays in [0, 25], the
      colours alternate RED, YELLOW, ..., and no stone moves up the screen. */
  lemma {:induction false} RunKeepsInv(g: Sim, frames: seq<Frame>, root: real -> real)
    requires Inv(g) && Run(g, frames, root).Some?
    ensures Inv(Run(g, frames, root).value)
    decreases |frames|
  {
    if frames != [] {
      TickKeepsInv(g, frames[0], root);
      var h := Tick(g, frames[0], root).value;
      if Flow.Quit !in frames[0].events {
        RunKeepsInv(h, frames[1..], root);
      }
    }
  }

  /** Press and release space in the same frame: a throw at charge 0. */
  const Throw: Frame := Frame([Flow.KeyDown(Flow.Space), Flow.KeyUp(Flow.Space)], false, false)

  lemma ThrowLaunches(g: Sim)
    requires g.phase == Aiming
    ensures OnEvents(g, Throw.events) ==
            g.(charging := false, charge := 0.0, chargeDir := 1, current := Launched(g.current, 0.0), phase := Moving)
  {
    var g1 := OnEvent(g, Flow.KeyDown(Flow.Space));
    assert g1 == g.(charging := true, charge := 0.0, chargeDir := 1);
    assert OnEvents(g1, [Flow.KeyUp(Flow.Space)]) == OnEvent(g1, Flow.KeyUp(Flow.Space));
  }

  /** Releasing space while aiming launches the stone toward increasing y
      at the gauge's power and starts MOVING. */
  lemma ReleaseLaunches(g: Sim)
    requires Inv(g) && g.phase == Aiming
    ensures var h := OnEvent(g, Flow.KeyUp(Flow.Space));
      && h.current.vel == Vec2(0.0, g.charge) && 0.0 <= g.charge <= POWER_MAX
      && !h.current.stopped && h.current.pos == g.current.pos
      && h.phase == Moving && !h.charging && h.stones == g.stones && h.turn == g.turn
  {
  }

  /** A stone thrown at charge 0 stops where it was placed. */
  lemma DeadThrowStops(t: Team)
    ensures Advance(Launched(Placed(t), 0.0)) == Placed(t)
  {
    var s := Launched(Placed(t), 0.0);
    assert s.vel == Zero;
    ScaleZero(FRICTION);
    LenSqZero();
    assert Slow(Scale(FRICTION, s.vel));
    AddZero(SPAWN);
    assert Glide(s) == s.(pos := SPAWN, vel := Zero, stopped := true);
    assert Glide(s) == Placed(t);
    assert Walls(Placed(t)) == Placed(t);
  }

  /** MOVING on an empty sheet when the thrown stone has stopped: the turn
      changes. */
  lemma SettledOnEmpty(g: Sim, root: real -> real, c: StoneState)
    requires g.stones == [] && Advance(g.current) == c && c.stopped
    ensures MovingStep(g, root) == Some(NextTurn(g.(current := c)))
  {
    assert AdvanceAll(g.stones) == [];
    assert HitAll(c, [], root) == Some((c, []));
  }

  lemma DeadThrowOf(g: Sim)
    requires g.current == Launched(Placed(g.turn), 0.0)
    ensures Advance(g.current) == Placed(g.turn)
  {
    DeadThrowStops(g.turn);
  }

  /** A throw at charge 0 onto an empty sheet: the stone stays put and
      the turn changes. */
  lemma LoneDeadThrow(g: Sim, root: real -> real)
    requires g.stones == [] && g.current == Launched(Placed(g.turn), 0.0)
    ensures MovingStep(g, root) == Some(NextTurn(g.(current := Placed(g.turn))))
  {
    DeadThrowOf(g);
    SettledOnEmpty(g, root, Placed(g.turn));
  }

  /** A throw at charge 0 from an empty sheet, as a frame. */
  lemma OpeningDeadThrow(g: Sim, root: real -> real)
    requires g.phase == Aiming && g.stones == [] && g.current == Placed(g.turn)
    ensures var h := Tick(g, Throw, root);
            h.Some? && h.value.phase == Aiming && h.value.stones == [Placed(g.turn)] &&
            h.value.turn == Constants.Other(g.turn) && h.value.current == Placed(h.value.turn)
  {
    var g1 := g.(charging := false, charge := 0.0, chargeDir := 1, current := Launched(g.current, 0.0), phase := Moving);
    ThrowLaunches(g);
    TickOfThrow(g, root);
    LoneDeadThrow(g1, root);
    LoneHandsOver(g1.(current := Placed(g.turn)));
  }

  /** The turn change on an empty sheet puts the thrown stone first. */
  lemma LoneHandsOver(g: Sim)
    requires g.stones == []
    ensures NextTurn(g).stones == [g.current] && NextTurn(g).phase == Aiming
    ensures NextTurn(g).turn == Constants.Other(g.turn) && NextTurn(g).current == Placed(NextTurn(g).turn)
  {
    assert [] + [g.current] == [g.current];
  }

  /** The first throw at charge 0: the stone stays put, the turn changes. */
  lemma FirstDeadThrow(root: real -> real)
    ensures var h := Tick(Start, Throw, root);
            h.Some? && h.value.phase == Aiming && h.value.stones == [Placed(Constants.Red)] &&
            h.value.turn == Constants.Yellow && h.value.current == Placed(Constants.Yellow)
  {
    OpeningDeadThrow(Start, root);
  }

  /** Two throws at charge 0 from where the stones appear: the first stone
      stops where it was placed and the turn changes in the same frame, and
      the second stone then sits exactly on it, so the collision loop
      normalizes a zero vector and the program raises. */
  lemma CoincidentThrowsRaise(root: real -> real)
    requires root(0.0) == 0.0
    ensures Run(Start, [Throw, Throw], root).None?
  {
    FirstDeadThrow(root);
    SecondThrowRaises(Tick(Start, Throw, root).value, root);
    ThrowIsNoQuit();
    RaisesInSecondFrame(Start, Throw, Throw, root);
  }

  lemma SecondThrowRaises(g: Sim, root: real -> real)
    requires root(0.0) == 0.0
    requires g.phase == Aiming && g.stones == [Placed(Constants.Red)] && g.current == Placed(Constants.Yellow)
    ensures Tick(g, Throw, root).None?
  {
    ThrowLaunches(g);
    TickOfThrow(g, root);
    ThrownOntoStone(OnEvents(g, Throw.events), root);
  }

  lemma ThrownOntoStone(g: Sim, root: real -> real)
    requires root(0.0) == 0.0
    requires g.stones == [Placed(Constants.Red)] && g.current == Launched(Placed(Constants.Yellow), 0.0)
    ensures MovingStep(g, root).None?
  {
    var red, yellow := Placed(Constants.Red), Placed(Constants.Yellow);
    DeadThrowStops(Constants.Yellow);
    RestingOne(red);
    SameSpotRaises(yellow, red, root);
    HitOne(yellow, red, root);
    MovingStepRaises(g, root);
  }

  /** Two stones on the same spot: the hit raises. */
  lemma SameSpotRaises(c: StoneState, s: StoneState, root: real -> real)
    requires root(0.0) == 0.0 && c.pos == s.pos
    ensures Hit(c, s, root).None?
  {
    assert Sub(c.pos, s.pos) == Vec2(0.0, 0.0);
    LenSqZero();
  }

  lemma ThrowIsNoQuit()
    ensures Flow.Quit !in Throw.events
  {
    assert Throw.events[0] != Flow.Quit && Throw.events[1] != Flow.Quit;
  }

  lemma TickOfThrow(g: Sim, root: real -> real)
    requires g.phase == Aiming
    ensures Tick(g, Throw, root) == MovingStep(OnEvents(g, Throw.events), root)
  {
    ThrowLaunches(g);
  }

  /** A stone at rest between the walls does not move. */
  lemma RestingOne(s: StoneState)
    requires s.stopped && Inside(s.pos.x)
    ensures AdvanceAll([s]) == [s]
  {
  }

  /** The collision loop over a single stone is the one hit. */
  lemma HitOne(c: StoneState, s: StoneState, root: real -> real)
    ensures Hit(c, s, root).None? ==> HitAll(c, [s], root).None?
    ensures Hit(c, s, root).Some? ==>
              HitAll(c, [s], root) == Some((Hit(c, s, root).value.0, [Hit(c, s, root).value.1]))
  {
    assert [s][1..] == [];
    if Hit(c, s, root).Some? {
      var (c1, s1) := Hit(c, s, root).value;
      assert HitAll(c1, [], root) == Some((c1, []));
      assert [s1] + [] == [s1];
    }
  }

  lemma MovingStepRaises(g: Sim, root: real -> real)
    requires HitAll(Advance(g.current), AdvanceAll(g.stones), root).None?
    ensures MovingStep(g, root).None?
  {
  }

  lemma RaisesInSecondFrame(g: Sim, f1: Frame, f2: Frame, root: real -> real)
    requires Tick(g, f1, root).Some? && Flow.Quit !in f1.events
    requires Tick(Tick(g, f1, root).value, f2, root).None?
    ensures Run(g, [f1, f2], root).None?
  {
    assert [f1, f2][1..] == [f2];
  }

  /** The turn-change test reads the flags from before the collisions: a
      stone that a hit sets moving in that frame does not delay it. Here the
      thrown stone stops 20 below a resting stone, pushes it, and the turn
      still changes with the pushed stone marked as moving. */
  lemma WakingDoesNotDelayTurn(g: Sim, root: real -> real)
    requires root(400.0) == 20.0
    requires |g.stones| == 1 && g.stones[0].pos == Vec2(300.0, 100.0) && g.stones[0].stopped
    requires g.current == Launched(Placed(g.turn), 0.0)
    ensures var h := MovingStep(g, root);
            h.Some? && h.value.turn == Constants.Other(g.turn) && |h.value.stones| == 2 && !h.value.stones[0].stopped
  {
    var rest := g.stones[0];
    var c := Placed(g.turn);
    assert g.stones == [rest];
    DeadThrowOf(g);
    RestingOne(rest);
    PushWakes(c, rest, root);
    var (c1, s1) := Hit(c, rest, root).value;
    SettledOnOne(g, root, c, rest, c1, s1);
    OneHandsOver(g.(stones := [s1], current := c1));
  }

  /** The turn change with one stone on the sheet puts it first. */
  lemma OneHandsOver(g: Sim)
    requires |g.stones| == 1
    ensures NextTurn(g).stones == [g.stones[0], g.current] && NextTurn(g).turn == Constants.Other(g.turn)
  {
    assert g.stones == [g.stones[0]];
  }

  /** MOVING with one stone on the sheet, when both had stopped after their
      update: the turn changes whatever the hit did. */
  lemma SettledOnOne(g: Sim, root: real -> real, c: StoneState, s: StoneState, c1: StoneState, s1: StoneState)
    requires g.stones == [s] && Advance(g.current) == c && AdvanceAll([s]) == [s]
    requires c.stopped && s.stopped && Hit(c, s, root) == Some((c1, s1))
    ensures MovingStep(g, root) == Some(NextTurn(g.(stones := [s1], current := c1)))
  {
    HitOne(c, s, root);
  }

  /** The thrown stone 20 above a resting stone pushes it and sets it
      moving. */
  lemma PushWakes(c: StoneState, s: StoneState, root: real -> real)
    requires root(400.0) == 20.0
    requires c.pos == Vec2(300.0, 80.0) && s.pos == Vec2(300.0, 100.0)
    ensures Hit(c, s, root).Some? && !Hit(c, s, root).value.1.stopped
  {
    assert Sub(c.pos, s.pos) == Vec2(0.0, -20.0);
    assert LenSq(Vec2(0.0, -20.0)) == 400.0;
  }
}
