/** The main loop of the 3D game (main.py, main) with its stones as objects
    changed in place. main()'s local variables are threaded through the
    methods as one `GameState` value whose `roster` and `current` mirror the
    stone objects; each method is proved to do what the matching function
    of `Flow` says. */
module MainLoop {
  import opened Options
  import opened Vectors
  import opened Constants
  import opened Stones
  import opened Collisions
  import opened Scoring
  import opened Controls
  import opened Bot
  import opened Flow
  import opened FlowFacts

  function StateOf(c: Stone?): Option<StoneState>
    reads c
  {
    if c == null then None else Some(c.State())
  }

  /** The value `g` describes the stone objects. */
  predicate Mirrors(g: GameState, stones: seq<Stone>, current: Stone?)
    reads stones, current
  {
    g.roster == States(stones) && g.current == StateOf(current)
  }

  /** No stone object is on the sheet twice, and the thrown stone is not on
      the sheet yet. */
  predicate Apart(stones: seq<Stone>, current: Stone?) {
    Distinct(stones) && current !in stones
  }

  /** `for s in stones: s.update(friction)`. */
  method UpdateAll(ss: seq<Stone>, friction: real)
    requires Distinct(ss)
    modifies ss
    ensures States(ss) == AdvanceAll(old(States(ss)), friction)
  {
    ghost var before := States(ss);
    var i := 0;
    while i < |ss|
      invariant 0 <= i <= |ss|
      invariant forall k :: 0 <= k < i ==> ss[k].State() == Advance(before[k], friction)
      invariant forall k :: i <= k < |ss| ==> ss[k].State() == before[k]
    {
      ss[i].Update(friction);
      i := i + 1;
    }
  }

  /** The space bar while RED aims: press to start the gauge, release to
      throw. */
  method AimKey(g: GameState, stones: seq<Stone>, current: Stone?, e: Event) returns (h: GameState)
    requires Apart(stones, current) && Mirrors(g, stones, current)
    modifies current
    ensures Mirrors(h, stones, current) && h == AimEvent(g, e)
  {
    h := g;
    if h.phase == Aiming && h.turn == Red && current != null {
      if e == KeyDown(Space) {
        h := h.(charging := true, charge := 0.0, chargeDir := 1);
      } else if e == KeyUp(Space) {
        current.vel := Vec2(0.0, -h.charge);
        current.stopped := false;
        h := h.(charging := false, current := StateOf(current), phase := Moving, thrown := h.thrown + 1);
      }
    }
  }

  /** The event loop. */
  method HandleEvents(g: GameState, stones: seq<Stone>, current: Stone?, es: seq<Event>) returns (h: GameState)
    requires Apart(stones, current) && Mirrors(g, stones, current)
    modifies current
    ensures Mirrors(h, stones, current) && h == OnEvents(g, es)
  {
    h := g;
    var i := 0;
    while i < |es|
      invariant 0 <= i <= |es|
      invariant Mirrors(h, stones, current)
      invariant OnEvents(h, es[i..]) == OnEvents(g, es)
    {
      assert es[i..] == [es[i]] + es[i + 1..];
      var e := es[i];
      if h.phase == StartMenu && e.KeyDown? {
        if e.key == Digit1 { h := h.(difficulty := 1, phase := ResetEnd); }
        else if e.key == Digit2 { h := h.(difficulty := 2, phase := ResetEnd); }
        else if e.key == Digit3 { h := h.(difficulty := 3, phase := ResetEnd); }
      }
      h := AimKey(h, stones, current, e);
      i := i + 1;
    }
  }

  /** RESET: a new, empty sheet. */
  method Reset(g: GameState) returns (h: GameState, stones: seq<Stone>, current: Stone?)
    ensures Apart(stones, current) && Mirrors(h, stones, current) && h == ResetPhase(g)
  {
    stones, current := [], null;
    h := g.(roster := [], thrown := 0, turn := Other(g.hammer), current := None);
    h := StartCutin(h, Aiming);
  }

  /** CUT_IN; a new stone object when AIMING follows. */
  method RunCutIn(g: GameState, stones: seq<Stone>, current: Stone?) returns (h: GameState, current': Stone?)
    requires Apart(stones, current) && Mirrors(g, stones, current)
    ensures Apart(stones, current') && Mirrors(h, stones, current') && h == CutInPhase(g)
    ensures current' == current || fresh(current')
  {
    current' := current;
    var timer := g.cutinTimer + 1;
    var t := timer as real / CUTIN_DURATION as real;
    h := g.(cutinTimer := timer, camera := g.cutinCamStart * (1.0 - t) + CUTIN_CAMERA * t);
    if timer >= CUTIN_DURATION {
      h := h.(phase := g.cutinNext, view := ThreeD);
      if h.phase == Aiming {
        current' := new Stone((SCREEN_W / 2) as real, START_Y, h.turn);
        h := h.(current := StateOf(current'), charge := 0.0, botStage := 0);
      }
    }
  }

  /** RED's frame on the stone object: the arrow keys and the gauge. */
  method AimHuman(g: GameState, stones: seq<Stone>, current: Stone, left: bool, right: bool) returns (h: GameState)
    requires Apart(stones, current) && Mirrors(g, stones, current)
    modifies current
    ensures Mirrors(h, stones, current) && h == HumanAim(g, old(current.State()), left, right)
  {
    h := g;
    if left { current.pos := current.pos.(x := current.pos.x - 4.0); }
    if right { current.pos := current.pos.(x := current.pos.x + 4.0); }
    if h.charging {
      var charge := h.charge + 0.5 * h.chargeDir as real;
      if charge >= POWER_MAX {
        h := h.(charge := POWER_MAX, chargeDir := -1);
      } else if charge <= 0.0 {
        h := h.(charge := 0.0, chargeDir := 1);
      } else {
        h := h.(charge := charge);
      }
    }
    h := h.(current := StateOf(current));
  }

  /** Bot stage 1 on the stone object: walk towards the target line. */
  method WalkBot(g: GameState, stones: seq<Stone>, current: Stone) returns (h: GameState)
    requires Apart(stones, current) && Mirrors(g, stones, current) && g.botStage == 1
    modifies current
    ensures Mirrors(h, stones, current) && h == BotWalk(g, old(current.State()))
  {
    h := g;
    var dx := h.botTargetX - current.pos.x;
    if dx > 4.0 || dx < -4.0 {
      current.pos := current.pos.(x := current.pos.x + if dx > 0.0 then 4.0 else -4.0);
      current.pos := current.pos.(x := Clamp(current.pos.x, MIN_CENTER_X, MAX_CENTER_X));
    } else {
      current.pos := current.pos.(x := Clamp(current.pos.x, MIN_CENTER_X, MAX_CENTER_X));
      h := h.(botStage := 2);
    }
    h := h.(current := StateOf(current));
  }

  /** Bot stage 2 on the stone object: charge, and release at the planned
      power. */
  method ChargeBot(g: GameState, stones: seq<Stone>, current: Stone) returns (h: GameState)
    requires Apart(stones, current) && Mirrors(g, stones, current)
    modifies current
    ensures Mirrors(h, stones, current) && h == BotCharge(g, old(current.State()))
  {
    h := g;
    var charge := h.charge + 0.5;
    if charge >= h.botPower {
      current.vel := Vec2(0.0, -charge);
      current.stopped := false;
      h := h.(current := StateOf(current), phase := Moving, thrown := h.thrown + 1,
              botStage := 0, charge := 0.0);
    } else {
      h := h.(charge := charge);
    }
  }

  /** AIMING, on the waiting stone object. */
  method Aim(g: GameState, stones: seq<Stone>, current: Stone?, inp: Input) returns (h: GameState)
    requires Apart(stones, current) && Mirrors(g, stones, current)
    modifies current
    ensures Mirrors(h, stones, current) && h == AimingPhase(g, inp)
  {
    h := AimCamera(g);
    if current != null {
      if h.turn == Red {
        h := AimHuman(h, stones, current, inp.left, inp.right);
      } else if h.botStage == 0 {
        var shot := Strategy(States(stones), h.difficulty, inp.ux, inp.up);
        h := h.(botTargetX := shot.targetX, botPower := shot.power, botStage := 1);
      } else if h.botStage == 1 {
        h := WalkBot(h, stones, current);
      } else if h.botStage == 2 {
        h := ChargeBot(h, stones, current);
      }
      current.pos := current.pos.(x := Clamp(current.pos.x, MIN_CENTER_X, MAX_CENTER_X));
      h := h.(current := StateOf(current));
    }
  }

  /** The stones on the sheet, then the thrown one: `all_stones`. */
  function AllStones(stones: seq<Stone>, current: Stone?): (r: seq<Stone>)
    ensures Apart(stones, current) ==> Distinct(r)
  {
    stones + if current != null then [current] else []
  }

  /** `current_stone.update(...)` and `for s in stones: s.update(...)`. */
  method AdvanceStones(g: GameState, stones: seq<Stone>, current: Stone?, sweeping: bool) returns (h: GameState)
    requires Apart(stones, current) && Mirrors(g, stones, current)
    modifies stones, current
    ensures Mirrors(h, stones, current) && h == Advanced(g, sweeping)
  {
    if current != null {
      current.Update(if sweeping then FRICTION_SWEEP else FRICTION_NORMAL);
    }
    UpdateAll(stones, FRICTION_NORMAL);
    h := g.(roster := States(stones), current := StateOf(current));
  }

  /** The camera of a MOVING frame, following the thrown stone or else the
      last one on the sheet. */
  method FollowCamera(g: GameState, stones: seq<Stone>, current: Stone?) returns (h: GameState)
    requires Mirrors(g, stones, current)
    ensures Mirrors(h, stones, current) && h == Follow(g, Focus(g))
  {
    var focus: Stone? := if current != null then current
                         else if |stones| > 0 then stones[|stones| - 1] else null;
    assert StateOf(focus) == Focus(g);
    if focus != null && focus.pos.y < SWITCH_VIEW_LINE {
      h := g.(view := TopDown);
    } else {
      var y := if focus != null then focus.pos.y else START_Y;
      h := g.(view := ThreeD, camera := g.camera + (FollowTarget(y) - g.camera) * 0.1);
    }
  }

  /** The collision double loop over `all_stones`. */
  method CollideStones(g: GameState, stones: seq<Stone>, current: Stone?, root: real -> real) returns (h: GameState)
    requires Apart(stones, current) && Mirrors(g, stones, current)
    modifies stones, current
    ensures Mirrors(h, stones, current) && h == Collided(g, root)
  {
    var all := AllStones(stones, current);
    assert States(all) == g.roster + AsList(g.current);
    ResolveCollisions(all, root);
    assert States(stones) == States(all)[..|stones|];
    h := g.(roster := States(stones), current := StateOf(current));
  }

  /** Once every stone rests: the thrown stone joins the sheet, then the
      end is over or the other team aims. */
  method HandOver(g: GameState, stones: seq<Stone>, current: Stone?)
    returns (h: GameState, stones': seq<Stone>, current': Stone?)
    requires Apart(stones, current) && Mirrors(g, stones, current)
    ensures Apart(stones', current') && Mirrors(h, stones', current') && h == Handover(g)
    ensures forall s :: s in stones' ==> s in stones || s == current
    ensures current' == null
  {
    stones', current' := AllStones(stones, current), null;
    h := g.(roster := States(stones'), current := None);
    if h.thrown >= STONES_PER_END {
      h := h.(phase := Result);
    } else {
      h := StartCutin(h.(turn := Other(h.turn)), Aiming);
    }
  }

  lemma StatesOfAll(stones: seq<Stone>, current: Stone?)
    ensures States(AllStones(stones, current)) == States(stones) + AsList(StateOf(current))
  {
  }

  /** MOVING, on the stone objects. */
  method Move(g: GameState, stones: seq<Stone>, current: Stone?, sweeping: bool, root: real -> real)
    returns (h: GameState, stones': seq<Stone>, current': Stone?)
    requires Apart(stones, current) && Mirrors(g, stones, current)
    modifies stones, current
    ensures Apart(stones', current') && Mirrors(h, stones', current')
    ensures h == MovingPhase(g, sweeping, root)
    ensures forall s :: s in stones' ==> s in stones || s == current
    ensures current' == null || current' == current
  {
    h := AdvanceStones(g, stones, current, sweeping);
    h := FollowCamera(h, stones, current);
    h := CollideStones(h, stones, current, root);
    ghost var g3 := h;
    assert MovingPhase(g, sweeping, root) ==
      if AllStopped(g3.roster + AsList(g3.current)) then Handover(g3) else g3;
    stones', current' := stones, current;
    StatesOfAll(stones, current);
    if AllStopped(States(AllStones(stones, current))) {
      h, stones', current' := HandOver(h, stones, current);
    }
  }

  /** The end's points added, the hammer passed, and the next end or the
      end of the game. */
  method ScoreEnd(g: GameState, pr: int, py: int) returns (h: GameState)
    ensures h == EndScored(g, pr, py)
  {
    h := g.(scoreRed := g.scoreRed + pr, scoreYellow := g.scoreYellow + py);
    if pr > 0 {
      h := h.(hammer := Yellow);
    } else if py > 0 {
      h := h.(hammer := Red);
    }
    h := h.(currentEnd := h.currentEnd + 1);
    if h.currentEnd > MAX_ENDS {
      h := h.(phase := GameOver);
    } else {
      h := StartCutin(h, ResetEnd);
    }
  }

  /** RESULT, scoring with get_score. */
  method Settle(g: GameState, fire: bool) returns (h: GameState)
    ensures h == ResultPhase(g, fire)
  {
    h := g.(view := TopDown);
    if fire {
      var pr, py := GetScore(h.roster);
      h := ScoreEnd(h, pr, py);
    }
  }

  /** One frame of the main loop. */
  method Frame(g: GameState, stones: seq<Stone>, current: Stone?, inp: Input, root: real -> real)
    returns (h: GameState, stones': seq<Stone>, current': Stone?)
    requires Apart(stones, current) && Mirrors(g, stones, current)
    modifies (set s | s in stones), current
    ensures Apart(stones', current') && Mirrors(h, stones', current')
    ensures h == Tick(g, inp, root)
    ensures forall s :: s in stones' ==> s in stones || s == current
    ensures current' == null || current' == current || fresh(current')
  {
    h := HandleEvents(g, stones, current, inp.events);
    stones', current' := stones, current;
    var sweeping := h.phase == Moving && h.turn == Red && inp.mouseHeld;
    match h.phase
    case ResetEnd =>
      h, stones', current' := Reset(h);
    case CutIn =>
      h, current' := RunCutIn(h, stones, current);
    case Aiming =>
      h := Aim(h, stones, current, inp);
    case Moving =>
      h, stones', current' := Move(h, stones, current, sweeping, root);
    case Result =>
      h := Settle(h, inp.fire);
    case _ =>
  }

  /** The main loop from the opening menu: one frame per input until a
      frame delivers Quit. The invariant of `FlowFacts` holds at the end
      when every random draw is in range. */
  method Play(frames: seq<Input>, root: real -> real) returns (h: GameState)
    ensures h == Run(Initial, frames, root)
    ensures DrawsInRange(frames) ==> Inv(h)
  {
    h := Initial;
    var stones: seq<Stone> := [];
    var current: Stone? := null;
    InitialInv();
    var i := 0;
    var running := true;
    while i < |frames| && running
      invariant 0 <= i <= |frames|
      invariant Apart(stones, current) && Mirrors(h, stones, current)
      invariant forall s :: s in stones ==> fresh(s)
      invariant current == null || fresh(current)
      invariant running ==> Run(h, frames[i..], root) == Run(Initial, frames, root)
      invariant !running ==> h == Run(Initial, frames, root)
      invariant DrawsInRange(frames) ==> Inv(h)
      decreases |frames| - i, running
    {
      assert frames[i..][0] == frames[i] && frames[i..][1..] == frames[i + 1..];
      if DrawsInRange(frames) {
        TickKeepsInv(h, frames[i], root);
      }
      h, stones, current := Frame(h, stones, current, frames[i], root);
      running := Quit !in frames[i].events;
      i := i + 1;
    }
    if running {
      assert frames[i..] == [];
    }
  }
}
