/** The simpler top-down curling game (curling.py): its constants, the
    stone's kinematics as a function (`Advance`) and as a class changed in
    place (`Stone.Update`), and one frame of its main loop as a function
    (`Tick`) over the loop's variables. */
module Curling {
  import opened Vectors
  import opened Options
  import opened Controls
  import Constants
  import Flow

  const SCREEN_W: int := 600
  const STONE_RADIUS: int := 20
  const FRICTION: real := 0.99
  const POWER_MAX: real := 25.0

  /** The walls a stone's centre is kept between: [20, 580]. */
  const LEFT_WALL: real := STONE_RADIUS as real
  const RIGHT_WALL: real := (SCREEN_W - STONE_RADIUS) as real

  /** Centres closer than this overlap: 2 * STONE_RADIUS. */
  const CONTACT: real := (2 * STONE_RADIUS) as real

  /** Every new stone appears at (SCREEN_W // 2, 80) = (300, 80). */
  const SPAWN: Vec2 := Vec2(300.0, 80.0)

  /** turn 0 is RED and turn 1 is YELLOW; `1 - turn` is `Other`. */
  type Team = Constants.Team

  datatype StoneState = StoneState(pos: Vec2, vel: Vec2, team: Team, stopped: bool)

  /** Stone(SCREEN_W // 2, 80, colour): a new stone at rest. */
  function Placed(team: Team): StoneState {
    StoneState(SPAWN, Zero, team, true)
  }

  /** `vel.length() < 0.1`, compared on squares. */
  predicate Slow(v: Vec2) { LenSq(v) < 0.1 * 0.1 }

  predicate Inside(x: real) { LEFT_WALL <= x <= RIGHT_WALL }

  /** A moving stone: move by the velocity, apply friction, and stop with
      zero velocity below the threshold. */
  function Glide(s: StoneState): StoneState {
    var p := Add(s.pos, s.vel);
    var v := Scale(FRICTION, s.vel);
    if Slow(v) then s.(pos := p, vel := Zero, stopped := true) else s.(pos := p, vel := v)
  }

  /** The side walls: clamp x and reverse vel.x, keeping 0.8 of it. */
  function Walls(s: StoneState): StoneState {
    if s.pos.x < LEFT_WALL then s.(pos := s.pos.(x := LEFT_WALL), vel := s.vel.(x := s.vel.x * -0.8))
    else if s.pos.x > RIGHT_WALL then s.(pos := s.pos.(x := RIGHT_WALL), vel := s.vel.(x := s.vel.x * -0.8))
    else s
  }

  /** Stone.update(): glide if moving; the walls apply even to a stopped
      stone. */
  function Advance(s: StoneState): (r: StoneState)
    ensures r.team == s.team
    ensures Inside(r.pos.x)
    ensures s.stopped ==> r.stopped && r.pos.y == s.pos.y && r.vel.y == s.vel.y
    ensures s.stopped && Inside(s.pos.x) ==> r == s
    ensures !s.stopped ==> r.pos.y == s.pos.y + s.vel.y
    ensures !s.stopped ==> (r.stopped <==> Slow(Scale(FRICTION, s.vel)))
    ensures !s.stopped && r.stopped ==> r.vel == Zero
  {
    Walls(if s.stopped then s else Glide(s))
  }

  /** The space bar while aiming: press to start the gauge from 0 going up,
      release to throw the stone straight down the screen at the charge. */
  function OnEvent(g: Sim, e: Flow.Event): Sim {
    if g.phase == Moving then g
    else if e == Flow.KeyDown(Flow.Space) then g.(charging := true, charge := 0.0, chargeDir := 1)
    else if e == Flow.KeyUp(Flow.Space) then
      g.(charging := false, current := Launched(g.current, g.charge), phase := Moving)
    else g
  }

  /** The launch: velocity (0, charge), moving. */
  function Launched(s: StoneState, charge: real): StoneState {
    s.(vel := Vec2(0.0, charge), stopped := false)
  }

  /** The event loop, in queue order. */
  function OnEvents(g: Sim, es: seq<Flow.Event>): Sim
    decreases |es|
  {
    if es == [] then g else OnEvents(OnEvent(g, es[0]), es[1..])
  }

  datatype Phase = Aiming | Moving

  /** The variables of main() that carry the game from frame to frame. */
  datatype Sim = Sim(stones: seq<StoneState>, turn: Team, charge: real, chargeDir: int,
                     charging: bool, phase: Phase, current: StoneState)

  /** The state before the first frame: RED aims a new stone. */
  const Start: Sim := Sim([], Constants.Red, 0.0, 1, false, Aiming, Placed(Constants.Red))

  /** What one frame reads: the queued events and the arrow keys held. */
  datatype Frame = Frame(events: seq<Flow.Event>, left: bool, right: bool)

  /** AIMING: move the stone 3 left and/or 3 right, keep it between the
      walls, and run the gauge while charging. */
  function AimingStep(g: Sim, left: bool, right: bool): Sim {
    var x := g.current.pos.x - (if left then 3.0 else 0.0) + (if right then 3.0 else 0.0);
    var g1 := g.(current := g.current.(pos := g.current.pos.(x := Clamp(x, LEFT_WALL, RIGHT_WALL))));
    if g.charging then
      var (c, d) := GaugeTick(g.charge, g.chargeDir, POWER_MAX);
      g1.(charge := c, chargeDir := d)
    else g1
  }

  /** The collision of the thrown stone `c` with the stone `s`, or None
      when it raises: at distance 0 the guard only changes `dist`, and
      `normalize()` of the zero vector still raises ValueError. Otherwise
      both are pushed apart by half the overlap each, `c` takes `s`'s
      velocity plus half its own, `s` takes 0.8 of `c`'s and moves. */
  function Hit(c: StoneState, s: StoneState, root: real -> real): (r: Option<(StoneState, StoneState)>)
    ensures r.None? <==> root(LenSq(Sub(c.pos, s.pos))) == 0.0
    ensures r.Some? && root(LenSq(Sub(c.pos, s.pos))) >= CONTACT ==> r.value == (c, s)
    ensures r.Some? ==> r.value.0.team == c.team && r.value.1.team == s.team
    ensures r.Some? ==> r.value.0.stopped == c.stopped
    ensures r.Some? ==> Add(r.value.0.pos, r.value.1.pos) == Add(c.pos, s.pos)
    ensures r.Some? && root(LenSq(Sub(c.pos, s.pos))) < CONTACT ==>
              r.value.0.vel == Add(s.vel, Scale(0.5, c.vel)) &&
              r.value.1.vel == Scale(0.8, c.vel) && !r.value.1.stopped
  {
    var d := Sub(c.pos, s.pos);
    var dist := root(LenSq(d));
    if dist >= CONTACT then Some((c, s))
    else if dist == 0.0 then None
    else
      var push := Scale((CONTACT - dist) * 0.5, Scale(1.0 / dist, d));
      Some((c.(pos := Add(c.pos, push), vel := Add(s.vel, Scale(0.5, c.vel))),
            s.(pos := Sub(s.pos, push), vel := Scale(0.8, c.vel), stopped := false)))
  }

  /** `for s in stones:` the thrown stone against each stone in turn, the
      thrown stone carrying the effect of each hit into the next. */
  function HitAll(c: StoneState, ss: seq<StoneState>, root: real -> real): (r: Option<(StoneState, seq<StoneState>)>)
    ensures r.Some? ==> |r.value.1| == |ss| && r.value.0.team == c.team && r.value.0.stopped == c.stopped
    decreases |ss|
  {
    if ss == [] then Some((c, []))
    else
      match Hit(c, ss[0], root)
      case None => None
      case Some((c1, s1)) =>
        match HitAll(c1, ss[1..], root)
        case None => None
        case Some((c2, rest)) => Some((c2, [s1] + rest))
  }

  /** `for s in stones: s.update()`. */
  function AdvanceAll(ss: seq<StoneState>): (r: seq<StoneState>)
    ensures |r| == |ss| && forall k :: 0 <= k < |ss| ==> r[k] == Advance(ss[k])
  {
    seq(|ss|, k requires 0 <= k < |ss| => Advance(ss[k]))
  }

  predicate AllStopped(ss: seq<StoneState>) {
    forall k :: 0 <= k < |ss| ==> ss[k].stopped
  }

  /** The turn change: the thrown stone joins the sheet, the other colour
      aims a new stone, and the charge is back at 0. */
  function NextTurn(g: Sim): Sim {
    var t := Constants.Other(g.turn);
    g.(stones := g.stones + [g.current], turn := t, current := Placed(t), phase := Aiming, charge := 0.0)
  }

  /** MOVING: update every stone, then the collisions; whether everything
      had stopped is decided from the updates, before the collisions. None
      when a collision raises. */
  function MovingStep(g: Sim, root: real -> real): Option<Sim> {
    var c := Advance(g.current);
    var ss := AdvanceAll(g.stones);
    match HitAll(c, ss, root)
    case None => None
    case Some((c1, ss1)) =>
      var g1 := g.(stones := ss1, current := c1);
      Some(if c.stopped && AllStopped(ss) then NextTurn(g1) else g1)
  }

  /** One frame: the events, then the update of the phase the events left. */
  function Tick(g: Sim, f: Frame, root: real -> real): Option<Sim> {
    var g1 := OnEvents(g, f.events);
    if g1.phase == Aiming then Some(AimingStep(g1, f.left, f.right)) else MovingStep(g1, root)
  }

  /** The loop over frames, ending after a frame that delivers Quit, or
      None when a frame raises. */
  function Run(g: Sim, frames: seq<Frame>, root: real -> real): Option<Sim>
    decreases |frames|
  {
    if frames == [] then Some(g)
    else
      match Tick(g, frames[0], root)
      case None => None
      case Some(h) => if Flow.Quit in frames[0].events then Some(h) else Run(h, frames[1..], root)
  }

  /** curling.py's Stone. */
  class Stone {
    var pos: Vec2
    var vel: Vec2
    const team: Team
    var stopped: bool

    function State(): StoneState
      reads this
    {
      StoneState(pos, vel, team, stopped)
    }

    constructor (team: Team)
      ensures State() == Placed(team)
    {
      pos := SPAWN;
      vel := Zero;
      this.team := team;
      stopped := true;
    }

    /** Stone.update(), in place. */
    method Update()
      modifies this
      ensures State() == Advance(old(State()))
    {
      if !stopped {
        pos := Add(pos, vel);
        vel := Scale(FRICTION, vel);
        if LenSq(vel) < 0.1 * 0.1 {
          vel := Zero;
          stopped := true;
        }
      }
      if pos.x < LEFT_WALL {
        pos := pos.(x := LEFT_WALL);
        vel := vel.(x := vel.x * -0.8);
      } else if pos.x > RIGHT_WALL {
        pos := pos.(x := RIGHT_WALL);
        vel := vel.(x := vel.x * -0.8);
      }
    }
  }

  /** The states of a sequence of stone objects, in order. */
  function States(ss: seq<Stone>): (r: seq<StoneState>)
    reads set s | s in ss
    ensures |r| == |ss|
    ensures forall k :: 0 <= k < |ss| ==> r[k] == ss[k].State()
  {
    seq(|ss|, k requires 0 <= k < |ss| reads ss => ss[k].State())
  }

  /** No stone object appears twice. */
  predicate Distinct(ss: seq<Stone>) {
    forall p, q :: 0 <= p < q < |ss| ==> ss[p] != ss[q]
  }
}
