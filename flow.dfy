/** One frame of the 3D game's main loop (main.py, main) as a function on
    the whole game state: the event loop, then the branch of the current
    phase. */
module Flow {
  import opened Options
  import opened Vectors
  import opened Constants
  import opened Stones
  import opened Collisions
  import opened Scoring
  import opened Controls
  import opened Bot

  /** game_state; RESET is `ResetEnd`. */
  datatype Phase = StartMenu | ResetEnd | CutIn | Aiming | Moving | Result | GameOver

  /** view_mode. */
  datatype View = ThreeD | TopDown

  datatype Key = Digit1 | Digit2 | Digit3 | Space | OtherKey

  datatype Event = Quit | KeyDown(key: Key) | KeyUp(key: Key)

  /** What one frame reads from the outside world: the queued events, the
      arrow keys and left mouse button held, whether the result screen's
      clock condition fires this frame, and the bot's two random draws. */
  datatype Input = Input(events: seq<Event>, left: bool, right: bool, mouseHeld: bool,
                         fire: bool, ux: real, up: real)

  /** The variables of main() that carry game logic from frame to frame. */
  datatype GameState = GameState(
    difficulty: int, phase: Phase, view: View,
    roster: seq<StoneState>, current: Option<StoneState>,
    thrown: int, turn: Team, currentEnd: int,
    scoreRed: int, scoreYellow: int, hammer: Team,
    charge: real, chargeDir: int, charging: bool,
    camera: real,
    botTargetX: real, botPower: real, botStage: int,
    cutinTimer: int, cutinNext: Phase, cutinCamStart: real)

  /** The state before the first frame. */
  const Initial: GameState := GameState(
    2, StartMenu, ThreeD, [], None, 0, Red, 1, 0, 0, Yellow,
    0.0, 1, false, START_Y + 500.0, 0.0, 0.0, 0, 0, StartMenu, 0.0)

  const AIM_CAMERA: real := START_Y + 600.0
  const CUTIN_CAMERA: real := START_Y + 500.0


  /** start_cutin: show a banner, then move on to `next`. */
  function StartCutin(g: GameState, next: Phase): GameState {
    g.(phase := CutIn, cutinTimer := 0, cutinNext := next, cutinCamStart := g.camera)
  }

  /** The release of a stone with speed `speed` straight up the sheet. */
  function Released(c: StoneState, speed: real): StoneState {
    c.(vel := Vec2(0.0, -speed), stopped := false)
  }

  /** The digit keys 1, 2, 3 of the menu and the difficulty they choose. */
  predicate IsDigit(k: Key) { k == Digit1 || k == Digit2 || k == Digit3 }

  function DigitValue(k: Key): int { if k == Digit1 then 1 else if k == Digit2 then 2 else 3 }

  /** An event seen by the start menu: a digit key chooses the difficulty
      and starts the game. */
  function MenuEvent(g: GameState, e: Event): GameState {
    if g.phase == StartMenu && e.KeyDown? && IsDigit(e.key) then
      g.(difficulty := DigitValue(e.key), phase := ResetEnd)
    else g
  }

  /** An event seen while the human team (RED) aims: pressing space starts
      the gauge from 0, releasing it throws the stone. */
  function AimEvent(g: GameState, e: Event): GameState {
    if g.phase == Aiming && g.turn == Red && g.current.Some? then
      if e == KeyDown(Space) then g.(charging := true, charge := 0.0, chargeDir := 1)
      else if e == KeyUp(Space) then
        g.(charging := false, current := Some(Released(g.current.value, g.charge)),
           phase := Moving, thrown := g.thrown + 1)
      else g
    else g
  }

  /** One event of the event loop. */
  function OnEvent(g: GameState, e: Event): GameState {
    AimEvent(MenuEvent(g, e), e)
  }

  /** The event loop, in queue order. */
  function OnEvents(g: GameState, es: seq<Event>): GameState
    decreases |es|
  {
    if es == [] then g else OnEvents(OnEvent(g, es[0]), es[1..])
  }

  /** RESET: clear the sheet; the team without the hammer throws first. */
  function ResetPhase(g: GameState): GameState {
    StartCutin(g.(roster := [], thrown := 0, turn := Other(g.hammer), current := None), Aiming)
  }

  /** CUT_IN: move the camera from where it was to the throwing end over
      CUTIN_DURATION frames; at the end go on, placing a new stone when the
      next phase is AIMING. */
  function CutInPhase(g: GameState): GameState {
    var timer := g.cutinTimer + 1;
    var t := timer as real / CUTIN_DURATION as real;
    var g1 := g.(cutinTimer := timer, camera := g.cutinCamStart * (1.0 - t) + CUTIN_CAMERA * t);
    if timer >= CUTIN_DURATION then
      var g2 := g1.(phase := g.cutinNext, view := ThreeD);
      if g.cutinNext == Aiming then
        g2.(current := Some(Placed((SCREEN_W / 2) as real, START_Y, g.turn)), charge := 0.0, botStage := 0)
      else g2
    else g1
  }

  /** The human thrower's frame: arrow keys move the stone 4 sideways and
      the held space bar runs the gauge. */
  function HumanAim(g: GameState, c: StoneState, left: bool, right: bool): GameState {
    var x0 := if left then c.pos.x - 4.0 else c.pos.x;
    var x1 := if right then x0 + 4.0 else x0;
    var gauge := if g.charging then GaugeTick(g.charge, g.chargeDir, POWER_MAX) else (g.charge, g.chargeDir);
    g.(current := Some(c.(pos := c.pos.(x := x1))), charge := gauge.0, chargeDir := gauge.1)
  }

  /** Bot stage 0: plan the shot. */
  function BotPlan(g: GameState, ux: real, up: real): GameState {
    var shot := Strategy(g.roster, g.difficulty, ux, up);
    g.(botTargetX := shot.targetX, botPower := shot.power, botStage := 1)
  }

  /** Bot stage 1: walk towards the target line. */
  function BotWalk(g: GameState, c: StoneState): GameState {
    var (x, arrived) := WalkStep(c.pos.x, g.botTargetX);
    g.(current := Some(c.(pos := c.pos.(x := x))), botStage := if arrived then 2 else 1)
  }

  /** Bot stage 2: charge, and release once the planned power is reached. */
  function BotCharge(g: GameState, c: StoneState): GameState {
    var (charge, release) := ChargeTick(g.charge, g.botPower);
    if release then
      g.(current := Some(Released(c, charge)), phase := Moving, thrown := g.thrown + 1,
         botStage := 0, charge := 0.0)
    else g.(charge := charge)
  }

  /** The bot's frame: plan, walk to the target line, then charge and
      release. */
  function BotAim(g: GameState, c: StoneState, ux: real, up: real): GameState {
    if g.botStage == 0 then BotPlan(g, ux, up)
    else if g.botStage == 1 then BotWalk(g, c)
    else if g.botStage == 2 then BotCharge(g, c)
    else g
  }

  /** The stone's x kept within the corridor. */
  function KeepInCorridor(g: GameState): GameState {
    if g.current.Some? then
      var c := g.current.value;
      g.(current := Some(c.(pos := c.pos.(x := Clamp(c.pos.x, MIN_CENTER_X, MAX_CENTER_X)))))
    else g
  }

  /** The camera eased a tenth of the way towards the throwing end. */
  function AimCamera(g: GameState): GameState {
    g.(camera := g.camera + (AIM_CAMERA - g.camera) * 0.1, view := ThreeD)
  }

  /** AIMING: ease the camera towards the throwing end, let the thrower of
      this turn act, and keep the stone in the corridor. */
  function AimingPhase(g: GameState, inp: Input): GameState {
    var g1 := AimCamera(g);
    if g1.current.None? then g1
    else
      var g2 := if g1.turn == Red then HumanAim(g1, g1.current.value, inp.left, inp.right)
                else BotAim(g1, g1.current.value, inp.ux, inp.up);
      KeepInCorridor(g2)
  }

  /** Every stone of a list moved by one tick with the same friction. */
  function AdvanceAll(ss: seq<StoneState>, friction: real): (r: seq<StoneState>)
    ensures |r| == |ss|
    ensures forall k :: 0 <= k < |ss| ==> r[k] == Advance(ss[k], friction)
  {
    seq(|ss|, k requires 0 <= k < |ss| => Advance(ss[k], friction))
  }

  /** The camera target while following a stone at depth `y`. */
  function FollowTarget(y: real): (r: real)
    ensures TARGET_Y + 700.0 <= r <= AIM_CAMERA
    ensures TARGET_Y <= y <= AIM_CAMERA - 700.0 ==> r == y + 700.0
  {
    var near := if y + 700.0 <= AIM_CAMERA then y + 700.0 else AIM_CAMERA;
    if near >= TARGET_Y + 700.0 then near else TARGET_Y + 700.0
  }

  /** The camera of a MOVING frame: top-down once the followed stone is
      past SWITCH_VIEW_LINE, else ease towards FollowTarget. */
  function Follow(g: GameState, focus: Option<StoneState>): GameState {
    if focus.Some? && focus.value.pos.y < SWITCH_VIEW_LINE then g.(view := TopDown)
    else
      var y := if focus.Some? then focus.value.pos.y else START_Y;
      g.(view := ThreeD, camera := g.camera + (FollowTarget(y) - g.camera) * 0.1)
  }

  predicate AllStopped(ss: seq<StoneState>) {
    forall k :: 0 <= k < |ss| ==> ss[k].stopped
  }

  function AsList(o: Option<StoneState>): seq<StoneState> {
    if o.Some? then [o.value] else []
  }

  /** The thrown stone after its tick, swept or not. */
  function Thrown(g: GameState, sweeping: bool): Option<StoneState> {
    if g.current.Some? then
      Some(Advance(g.current.value, if sweeping then FRICTION_SWEEP else FRICTION_NORMAL))
    else None
  }

  /** Every stone moved by one tick: the thrown one, then the sheet. */
  function Advanced(g: GameState, sweeping: bool): GameState {
    g.(current := Thrown(g, sweeping), roster := AdvanceAll(g.roster, FRICTION_NORMAL))
  }

  /** The stone the camera follows: the thrown one, else the last on the
      sheet. */
  function Focus(g: GameState): Option<StoneState> {
    if g.current.Some? then g.current
    else if g.roster != [] then Some(g.roster[|g.roster| - 1])
    else None
  }

  /** The collision pass over the sheet's stones in order, then the thrown
      stone. */
  function Collided(g: GameState, root: real -> real): GameState {
    var all := Pass(g.roster + AsList(g.current), root);
    var n := |g.roster|;
    g.(roster := all[..n], current := if g.current.Some? then Some(all[n]) else None)
  }

  /** Once every stone rests: the thrown stone joins the sheet, and the end
      is over after STONES_PER_END throws, else the other team aims. */
  function Handover(g: GameState): GameState {
    var g1 := g.(roster := g.roster + AsList(g.current), current := None);
    if g1.thrown >= STONES_PER_END then g1.(phase := Result)
    else StartCutin(g1.(turn := Other(g1.turn)), Aiming)
  }

  /** MOVING: move the thrown stone (swept or not) and every stone on the
      sheet, follow with the camera, resolve collisions and, once all
      stones rest, record the throw and hand over. */
  function MovingPhase(g: GameState, sweeping: bool, root: real -> real): GameState {
    var g1 := Advanced(g, sweeping);
    var g2 := Follow(g1, Focus(g1));
    var g3 := Collided(g2, root);
    if AllStopped(g3.roster + AsList(g3.current)) then Handover(g3) else g3
  }

  /** The hammer after an end: the scoring team gives it up; a blank end
      keeps it where it was. */
  function NextHammer(pr: int, py: int, hammer: Team): Team {
    if pr > 0 then Yellow else if py > 0 then Red else hammer
  }

  /** The end scored with `pr` points for RED and `py` for YELLOW: add
      them, pass the hammer, and start the next end or finish the game. */
  function EndScored(g: GameState, pr: int, py: int): GameState {
    var g1 := g.(scoreRed := g.scoreRed + pr, scoreYellow := g.scoreYellow + py,
                 hammer := NextHammer(pr, py, g.hammer), currentEnd := g.currentEnd + 1);
    if g1.currentEnd > MAX_ENDS then g1.(phase := GameOver) else StartCutin(g1, ResetEnd)
  }

  /** RESULT: show the sheet from above; when the clock condition fires,
      score the end. */
  function ResultPhase(g: GameState, fire: bool): GameState {
    var g1 := g.(view := TopDown);
    if !fire then g1 else EndScored(g1, Score(g1.roster).0, Score(g1.roster).1)
  }

  /** One frame: the events, then the branch of the phase they leave. */
  function Tick(g: GameState, inp: Input, root: real -> real): GameState {
    var g1 := OnEvents(g, inp.events);
    var sweeping := g1.phase == Moving && g1.turn == Red && inp.mouseHeld;
    match g1.phase
    case ResetEnd => ResetPhase(g1)
    case CutIn => CutInPhase(g1)
    case Aiming => AimingPhase(g1, inp)
    case Moving => MovingPhase(g1, sweeping, root)
    case Result => ResultPhase(g1, inp.fire)
    case _ => g1
  }

  /** `while running`: frame after frame, stopping after the first frame
      that delivers a Quit event. */
  function Run(g: GameState, frames: seq<Input>, root: real -> real): GameState
    decreases |frames|
  {
    if frames == [] then g
    else
      var h := Tick(g, frames[0], root);
      if Quit in frames[0].events then h else Run(h, frames[1..], root)
  }
}
