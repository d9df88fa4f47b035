/** The main loop of the top-down game (curling.py, main) with its stones as
    objects changed in place. main()'s local variables are threaded through
    the methods as one `Sim` value whose `stones` and `current` mirror the
    stone objects; each method is proved to do what the matching function
    of `Curling` says, and a raise in the collision loop is reported as
    `ok == false`. */
module CurlingLoop {
  import opened Options
  import opened Vectors
  import opened Curling
  import opened CurlingFacts
  import Constants
  import Flow

  /** The value `g` describes the stone objects. */
  predicate Mirrors(g: Sim, stones: seq<Stone>, current: Stone)
    reads stones, current
  {
    g.stones == States(stones) && g.current == current.State()
  }

  /** No stone object is on the sheet twice, and the thrown stone is not on
      the sheet yet. */
  predicate Apart(stones: seq<Stone>, current: Stone) {
    Distinct(stones) && current !in stones
  }

  /** The event loop: the space bar while AIMING. */
  method HandleEvents(g: Sim, stones: seq<Stone>, current: Stone, es: seq<Flow.Event>) returns (h: Sim)
    requires Apart(stones, current) && Mirrors(g, stones, current)
    modifies current
    ensures Mirrors(h, stones, current) && h == OnEvents(g, es)
  {
    h := g;
    var i := 0;
    while i < |es|
      invariant 0 <= i <= |es|
      invariant Mirrors(h, stones, current)
      invariant OnEvents(h, es[i..]) == OnEvents(g, es)
    {
      assert es[i..] == [es[i]] + es[i + 1..];
      var e := es[i];
      if e == Flow.KeyDown(Flow.Space) && h.phase == Aiming {
        h := h.(charging := true, charge := 0.0, chargeDir := 1);
      }
      if e == Flow.KeyUp(Flow.Space) && h.phase == Aiming {
        current.vel := Vec2(0.0, h.charge);
        current.stopped := false;
        h := h.(charging := false, current := current.State(), phase := Moving);
      }
      i := i + 1;
    }
  }

  /** AIMING, on the waiting stone object: the arrow keys, the wall clamp
      and the gauge. */
  method Aim(g: Sim, stones: seq<Stone>, current: Stone, left: bool, right: bool) returns (h: Sim)
    requires Apart(stones, current) && Mirrors(g, stones, current)
    modifies current
    ensures Mirrors(h, stones, current) && h == AimingStep(g, left, right)
  {
    if left {
      current.pos := current.pos.(x := current.pos.x - 3.0);
    }
    if right {
      current.pos := current.pos.(x := current.pos.x + 3.0);
    }
    if current.pos.x < LEFT_WALL {
      current.pos := current.pos.(x := LEFT_WALL);
    }
    if current.pos.x > RIGHT_WALL {
      current.pos := current.pos.(x := RIGHT_WALL);
    }
    h := g.(current := current.State());
    if h.charging {
      var charge := h.charge + 0.5 * h.chargeDir as real;
      if charge >= POWER_MAX {
        h := h.(charge := POWER_MAX, chargeDir := -1);
      } else if charge <= 0.0 {
        h := h.(charge := 0.0, chargeDir := 1);
      } else {
        h := h.(charge := charge);
      }
    }
  }

  /** `for s in stones: s.update()`, noting whether each has stopped. */
  method UpdateAll(ss: seq<Stone>) returns (allStopped: bool)
    requires Distinct(ss)
    modifies set s | s in ss
    ensures States(ss) == AdvanceAll(old(States(ss)))
    ensures allStopped == AllStopped(States(ss))
  {
    ghost var before := States(ss);
    allStopped := true;
    var i := 0;
    while i < |ss|
      invariant 0 <= i <= |ss|
      invariant forall k :: 0 <= k < i ==> ss[k].State() == Advance(before[k])
      invariant forall k :: i <= k < |ss| ==> ss[k].State() == before[k]
      invariant allStopped == forall k :: 0 <= k < i ==> ss[k].stopped
    {
      assert forall k :: 0 <= k < |ss| && k != i ==> ss[k] != ss[i];
      ss[i].Update();
      if !ss[i].stopped {
        allStopped := false;
      }
      i := i + 1;
    }
  }

  /** The stones already hit, in front of what the rest of the loop gives. */
  function Resume(done: seq<StoneState>, r: Option<(StoneState, seq<StoneState>)>): Option<(StoneState, seq<StoneState>)> {
    match r
    case None => None
    case Some((c, rest)) => Some((c, done + rest))
  }

  /** One pass of the collision loop: the thrown stone against the stone
      `s`; `ok` is false where `normalize()` of a zero vector raises. */
  method Collide(current: Stone, s: Stone, root: real -> real, ghost r: Option<(StoneState, StoneState)>)
    returns (ok: bool)
    requires current != s && r == Hit(current.State(), s.State(), root)
    modifies current, s
    ensures ok <==> r.Some?
    ensures ok ==> r.value == (current.State(), s.State())
  {
    ghost var c0, s0 := current.State(), s.State();
    var d := Sub(current.pos, s.pos);
    var dist := root(LenSq(d));
    if dist >= CONTACT {
      HitMisses(c0, s0, root);
      return true;
    }
    if dist == 0.0 {
      return false;
    }
    var push := Scale((CONTACT - dist) * 0.5, Scale(1.0 / dist, d));
    HitPushes(c0, s0, root, dist, push);
    var v1, v2 := current.vel, s.vel;
    current.pos, current.vel := Add(current.pos, push), Add(v2, Scale(0.5, v1));
    s.pos, s.vel, s.stopped := Sub(s.pos, push), Scale(0.8, v1), false;
    ok := true;
  }

  /** The hit when the stones are at least a contact apart. */
  lemma HitMisses(c: StoneState, s: StoneState, root: real -> real)
    requires root(LenSq(Sub(c.pos, s.pos))) >= CONTACT
    ensures Hit(c, s, root) == Some((c, s))
  {
  }

  /** The hit when the stones overlap. */
  lemma HitPushes(c: StoneState, s: StoneState, root: real -> real, dist: real, push: Vec2)
    requires dist == root(LenSq(Sub(c.pos, s.pos))) && dist < CONTACT && dist != 0.0
    requires push == Scale((CONTACT - dist) * 0.5, Scale(1.0 / dist, Sub(c.pos, s.pos)))
    ensures Hit(c, s, root) == Some((c.(pos := Add(c.pos, push), vel := Add(s.vel, Scale(0.5, c.vel))),
                                     s.(pos := Sub(s.pos, push), vel := Scale(0.8, c.vel), stopped := false)))
  {
  }

  lemma ResumeNothing(r: Option<(StoneState, seq<StoneState>)>)
    ensures Resume([], r) == r
  {
    if r.Some? {
      assert [] + r.value.1 == r.value.1;
    }
  }

  /** The collision loop `for s in stones:` on the objects; `ok` is false
      where a hit raises. */
  method CollideAll(current: Stone, ss: seq<Stone>, root: real -> real) returns (ok: bool)
    requires Distinct(ss) && current !in ss
    modifies (set s | s in ss), current
    ensures ok <==> HitAll(old(current.State()), old(States(ss)), root).Some?
    ensures ok ==> HitAll(old(current.State()), old(States(ss)), root).value == (current.State(), States(ss))
  {
    ghost var before := States(ss);
    ghost var goal := HitAll(current.State(), before, root);
    ghost var c := current.State();
    ghost var done: seq<StoneState> := [];
    assert before[0..] == before;
    ResumeNothing(goal);
    var i := 0;
    while i < |ss|
      invariant 0 <= i <= |ss| && |done| == i
      invariant forall k :: 0 <= k < i ==> ss[k].State() == done[k]
      invariant forall k :: i <= k < |ss| ==> ss[k].State() == before[k]
      invariant current.State() == c
      invariant Resume(done, HitAll(c, before[i..], root)) == goal
    {
      var s := ss[i];
      assert forall k :: 0 <= k < |ss| ==> ss[k] != current && (k != i ==> ss[k] != s);
      ghost var r := Hit(c, before[i], root);
      HitAllStep(c, before[i..], done, root, r);
      ok := Collide(current, s, root, r);
      if !ok {
        return;
      }
      done := done + [s.State()];
      c := current.State();
      i := i + 1;
    }
    HitAllEnd(c, done, root);
    assert before[i..] == [];
    assert States(ss) == done;
    ok := true;
  }

  /** One more stone through the collision loop. */
  lemma HitAllStep(c: StoneState, ss: seq<StoneState>, done: seq<StoneState>, root: real -> real,
                    r: Option<(StoneState, StoneState)>)
    requires ss != [] && r == Hit(c, ss[0], root)
    ensures r.None? ==> Resume(done, HitAll(c, ss, root)).None?
    ensures r.Some? ==> Resume(done + [r.value.1], HitAll(r.value.0, ss[1..], root)) == Resume(done, HitAll(c, ss, root))
  {
    match r
    case None =>
    case Some((c1, s1)) =>
      match HitAll(c1, ss[1..], root)
      case None =>
      case Some((c2, rest)) =>
        assert done + [s1] + rest == done + ([s1] + rest);
  }

  /** The collision loop past the last stone. */
  lemma HitAllEnd(c: StoneState, done: seq<StoneState>, root: real -> real)
    ensures Resume(done, HitAll(c, [], root)) == Some((c, done))
  {
    assert done + [] == done;
  }

  /** The updates and the collisions of a MOVING frame; `settled` is
      whether every stone had stopped after its update. */
  method Slide(g: Sim, stones: seq<Stone>, current: Stone, root: real -> real)
    returns (ok: bool, h: Sim, settled: bool)
    requires Apart(stones, current) && Mirrors(g, stones, current)
    modifies (set s | s in stones), current
    ensures settled == (Advance(g.current).stopped && AllStopped(AdvanceAll(g.stones)))
    ensures ok <==> HitAll(Advance(g.current), AdvanceAll(g.stones), root).Some?
    ensures ok ==> Mirrors(h, stones, current) &&
                   h == g.(stones := HitAll(Advance(g.current), AdvanceAll(g.stones), root).value.1,
                           current := HitAll(Advance(g.current), AdvanceAll(g.stones), root).value.0)
  {
    h := g;
    current.Update();
    settled := current.stopped;
    var restStopped := UpdateAll(stones);
    settled := settled && restStopped;
    ok := CollideAll(current, stones, root);
    if ok {
      h := g.(stones := States(stones), current := current.State());
    }
  }

  /** The turn change on the objects: the thrown stone joins the sheet and
      a new stone of the other colour is made. */
  method HandOver(g: Sim, stones: seq<Stone>, current: Stone) returns (h: Sim, stones': seq<Stone>, current': Stone)
    requires Apart(stones, current) && Mirrors(g, stones, current)
    ensures Apart(stones', current') && Mirrors(h, stones', current') && h == NextTurn(g)
    ensures stones' == stones + [current] && fresh(current')
  {
    stones' := stones + [current];
    var t := Constants.Other(g.turn);
    current' := new Stone(t);
    h := g.(stones := g.stones + [g.current], turn := t, current := current'.State(), phase := Aiming, charge := 0.0);
    assert States(stones') == States(stones) + [current.State()];
  }

  /** MOVING, on the stone objects: update all, collide, and hand over to
      the other colour once everything had stopped. */
  method Move(g: Sim, stones: seq<Stone>, current: Stone, root: real -> real)
    returns (ok: bool, h: Sim, stones': seq<Stone>, current': Stone)
    requires Apart(stones, current) && Mirrors(g, stones, current)
    modifies (set s | s in stones), current
    ensures ok <==> MovingStep(g, root).Some?
    ensures ok ==> Apart(stones', current') && Mirrors(h, stones', current') && h == MovingStep(g, root).value
    ensures forall s :: s in stones' ==> s in stones || s == current
    ensures current' == current || fresh(current')
  {
    stones', current' := stones, current;
    var settled;
    ok, h, settled := Slide(g, stones, current, root);
    if ok && settled {
      h, stones', current' := HandOver(h, stones, current);
    }
  }

  /** One frame of the main loop. */
  method OneFrame(g: Sim, stones: seq<Stone>, current: Stone, f: Frame, root: real -> real)
    returns (ok: bool, h: Sim, stones': seq<Stone>, current': Stone)
    requires Apart(stones, current) && Mirrors(g, stones, current)
    modifies (set s | s in stones), current
    ensures ok <==> Tick(g, f, root).Some?
    ensures ok ==> Apart(stones', current') && Mirrors(h, stones', current') && h == Tick(g, f, root).value
    ensures forall s :: s in stones' ==> s in stones || s == current
    ensures current' == current || fresh(current')
  {
    h := HandleEvents(g, stones, current, f.events);
    stones', current' := stones, current;
    if h.phase == Aiming {
      h := Aim(h, stones, current, f.left, f.right);
      ok := true;
    } else {
      ok, h, stones', current' := Move(h, stones, current, root);
    }
  }

  /** The main loop: one frame per input until a frame delivers Quit or
      the collision loop raises. Every state it reaches keeps the
      invariant of `CurlingFacts`. */
  method Play(frames: seq<Frame>, root: real -> real) returns (raised: bool, h: Sim)
    ensures raised <==> Run(Start, frames, root).None?
    ensures !raised ==> h == Run(Start, frames, root).value && Inv(h)
  {
    h := Start;
    var stones: seq<Stone> := [];
    var current := new Stone(Constants.Red);
    StartInv();
    raised := false;
    var i := 0;
    var running := true;
    while i < |frames| && running
      invariant 0 <= i <= |frames|
      invariant Apart(stones, current) && Mirrors(h, stones, current)
      invariant forall s :: s in stones ==> fresh(s)
      invariant fresh(current)
      invariant Inv(h)
      invariant running ==> Run(h, frames[i..], root) == Run(Start, frames, root)
      invariant !running ==> Some(h) == Run(Start, frames, root)
      decreases |frames| - i, running
    {
      assert frames[i..][0] == frames[i] && frames[i..][1..] == frames[i + 1..];
      var ok;
      ghost var g := h;
      ok, h, stones, current := OneFrame(h, stones, current, frames[i], root);
      if !ok {
        raised := true;
        return;
      }
      TickKeepsInv(g, frames[i], root);
      running := Flow.Quit !in frames[i].events;
      i := i + 1;
    }
    if running {
      assert frames[i..] == [];
    }
  }
}
