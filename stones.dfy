/** A curling stone of the 3D game (main.py, class Stone): its kinematics for
    one tick, as a pure specification (`Advance`) and as the class whose
    `Update` method changes its fields in place. */
module Stones {
  import opened Vectors
  import opened Constants

  /** The load-bearing fields of a stone (the spin angle is cosmetic). */
  datatype StoneState = StoneState(pos: Vec2, vel: Vec2, team: Team, stopped: bool, outOfPlay: bool)

  /** A stone as it is created: at rest and in play. */
  function Placed(x: real, y: real, team: Team): StoneState {
    StoneState(Vec2(x, y), Zero, team, true, false)
  }

  /** `speed < 0.05`, compared on squares. */
  predicate Slow(v: Vec2) { LenSq(v) < 0.05 * 0.05 }

  predicate InCorridor(x: real) { MIN_CENTER_X <= x <= MAX_CENTER_X }

  /** A stone resting in play has no velocity. */
  predicate AtRest(s: StoneState) { s.stopped && !s.outOfPlay ==> s.vel == Zero }

  /** Velocity after friction and the stop threshold, before any wall bounce. */
  function Damped(v: Vec2, friction: real): Vec2 {
    var w := Scale(friction, v);
    if Slow(w) then Zero else w
  }

  /** Move by the velocity, apply friction, stop below the threshold. */
  function Glide(s: StoneState, friction: real): StoneState {
    var halted := Slow(Scale(friction, s.vel));
    s.(pos := Add(s.pos, s.vel), vel := Damped(s.vel, friction), stopped := s.stopped || halted)
  }

  /** The side walls of the corridor: clamp x, reverse and halve vel.x. */
  function WallX(s: StoneState): StoneState {
    if s.pos.x < MIN_CENTER_X then s.(pos := s.pos.(x := MIN_CENTER_X), vel := s.vel.(x := s.vel.x * -0.5))
    else if s.pos.x > MAX_CENTER_X then s.(pos := s.pos.(x := MAX_CENTER_X), vel := s.vel.(x := s.vel.x * -0.5))
    else s
  }

  /** The far wall at y = 0: clamp y, reverse and halve vel.y. */
  function WallY(s: StoneState): StoneState {
    if s.pos.y < 0.0 then s.(pos := s.pos.(y := 0.0), vel := s.vel.(y := s.vel.y * -0.5)) else s
  }

  /** Past WORLD_H the stone is lost: stopped and out of play, velocity kept. */
  function BackLine(s: StoneState): StoneState {
    if s.pos.y > WORLD_H as real then s.(stopped := true, outOfPlay := true) else s
  }

  /** One tick of Stone.update(friction). */
  function Advance(s: StoneState, friction: real): (r: StoneState)
    ensures r.team == s.team
    ensures s.stopped ==> r == s
    ensures !s.stopped ==> InCorridor(r.pos.x) && r.pos.y >= 0.0
    ensures !s.stopped && Slow(Scale(friction, s.vel)) ==> r.vel == Zero && r.stopped
    ensures !s.stopped && !Slow(Scale(friction, s.vel)) ==> r.vel != Zero
    ensures !s.stopped ==> (r.outOfPlay <==> s.outOfPlay || r.pos.y > WORLD_H as real)
    ensures !s.stopped && r.pos.y > WORLD_H as real ==> r.stopped
    ensures !s.stopped && !Slow(Scale(friction, s.vel)) && r.pos.y <= WORLD_H as real ==> !r.stopped
    ensures AtRest(s) ==> AtRest(r)
  {
    if s.stopped then s
    else
      var g := Glide(s, friction);
      assert !Slow(Scale(friction, s.vel)) ==> g.vel.x != 0.0 || g.vel.y != 0.0;
      BackLine(WallY(WallX(g)))
  }

  /** The bounce rule: a velocity component whose bound was crossed is
      reversed and halved; every other component keeps its damped value. */
  lemma AdvanceBounces(s: StoneState, friction: real)
    requires !s.stopped
    ensures var p := Add(s.pos, s.vel);
            var v := Damped(s.vel, friction);
            var r := Advance(s, friction);
            (r.vel.x == if p.x < MIN_CENTER_X || p.x > MAX_CENTER_X then -0.5 * v.x else v.x) &&
            (r.vel.y == if p.y < 0.0 then -0.5 * v.y else v.y) &&
            (InCorridor(p.x) ==> r.pos.x == p.x) &&
            (p.y >= 0.0 ==> r.pos.y == p.y)
  {
  }

  /** A stone lost past the far end is stopped but keeps its velocity. */
  lemma LostStoneKeepsVelocity()
    ensures var s := StoneState(Vec2(300.0, 2399.0), Vec2(0.0, 10.0), Red, false, false);
            var r := Advance(s, FRICTION_NORMAL);
            r.stopped && r.outOfPlay && r.vel == Vec2(0.0, 9.85)
  {
  }

  class Stone {
    var pos: Vec2
    var vel: Vec2
    const team: Team
    var stopped: bool
    var outOfPlay: bool

    function State(): StoneState
      reads this
    {
      StoneState(pos, vel, team, stopped, outOfPlay)
    }

    constructor (x: real, y: real, team: Team)
      ensures State() == Placed(x, y, team)
    {
      pos := Vec2(x, y);
      vel := Zero;
      this.team := team;
      stopped := true;
      outOfPlay := false;
    }

    /** Stone.update(friction): one tick of motion, in place. */
    method Update(friction: real)
      modifies this
      ensures State() == Advance(old(State()), friction)
    {
      if !stopped {
        ghost var s0 := State();
        pos := Add(pos, vel);
        vel := Scale(friction, vel);
        if Slow(vel) {
          vel := Zero;
          stopped := true;
        }
        assert State() == Glide(s0, friction);
        ghost var s1 := State();
        if pos.x < MIN_CENTER_X {
          pos := pos.(x := MIN_CENTER_X);
          vel := vel.(x := vel.x * -0.5);
        } else if pos.x > MAX_CENTER_X {
          pos := pos.(x := MAX_CENTER_X);
          vel := vel.(x := vel.x * -0.5);
        }
        assert State() == WallX(s1);
        ghost var s2 := State();
        if pos.y < 0.0 {
          pos := pos.(y := 0.0);
          vel := vel.(y := vel.y * -0.5);
        }
        assert State() == WallY(s2);
        if pos.y > WORLD_H as real {
          stopped := true;
          outOfPlay := true;
        }
      }
    }
  }

  /** No stone object appears twice. */
  predicate Distinct(ss: seq<Stone>) {
    forall p, q :: 0 <= p < q < |ss| ==> ss[p] != ss[q]
  }

  /** The states of a sequence of stone objects, in order. */
  function States(ss: seq<Stone>): (r: seq<StoneState>)
    reads ss
    ensures |r| == |ss|
    ensures forall k :: 0 <= k < |ss| ==> r[k] == ss[k].State()
  {
    seq(|ss|, k requires 0 <= k < |ss| reads ss => ss[k].State())
  }
}
