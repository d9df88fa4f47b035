/** What every frame of the 3D game keeps true, and what each phase
    achieves (main.py, main). */
module FlowFacts {
  import opened Options
  import opened Vectors
  import opened Constants
  import opened Stones
  import opened Collisions
  import opened Scoring
  import opened Controls
  import opened Bot
  import opened Flow

  /** Consecutive throws of an end come from alternating teams. */
  predicate Alternating(r: seq<StoneState>) {
    forall k :: 0 < k < |r| ==> r[k].team == Other(r[k - 1].team)
  }

  /** The team to throw next is not the one that threw last. */
  predicate NextInTurn(r: seq<StoneState>, turn: Team) {
    r != [] ==> turn == Other(r[|r| - 1].team)
  }

  /** A stone waiting on the start line: at rest, in play, in the corridor,
      of the team whose turn it is. */
  predicate Waiting(c: StoneState, turn: Team) {
    c.pos.y == START_Y && InCorridor(c.pos.x) && c.vel == Zero && c.stopped &&
    !c.outOfPlay && c.team == turn
  }

  /** The gauge is within range; the bot's charge starts at 0 and stays
      below the power it planned, which is positive and at most POWER_MAX. */
  predicate ChargeOk(g: GameState) {
    0.0 <= g.charge <= POWER_MAX &&
    (g.turn == Yellow ==>
      (g.botStage < 2 ==> g.charge == 0.0) &&
      (g.botStage >= 1 ==> 0.0 < g.botPower <= POWER_MAX) &&
      (g.botStage == 2 ==> g.charge < g.botPower))
  }

  predicate Inv(g: GameState) {
    && 1 <= g.difficulty <= 3
    && (g.chargeDir == 1 || g.chargeDir == -1)
    && 0 <= g.botStage <= 2
    && 0 <= g.thrown <= STONES_PER_END
    && 0 <= g.scoreRed && 0 <= g.scoreYellow
    && g.scoreRed + g.scoreYellow <= STONES_PER_END * (g.currentEnd - 1)
    && 1 <= g.currentEnd <= MAX_ENDS + 1
    && (g.currentEnd == MAX_ENDS + 1 <==> g.phase == GameOver)
    && (g.current.Some? <==> g.phase == Aiming || g.phase == Moving)
    && |g.roster| == (if g.phase == Moving then g.thrown - 1 else g.thrown)
    && Alternating(g.roster)
    && (forall k :: 0 <= k < |g.roster| ==> AtRest(g.roster[k]))
    && (g.phase != Moving ==> AllStopped(g.roster))
    && (g.phase == Aiming ==>
          g.thrown < STONES_PER_END && Waiting(g.current.value, g.turn) &&
          NextInTurn(g.roster, g.turn) && ChargeOk(g))
    && (g.phase == Moving ==>
          g.current.value.team == g.turn && AtRest(g.current.value) && NextInTurn(g.roster, g.turn))
    && (g.phase == Result ==> g.thrown == STONES_PER_END)
    && (g.phase == CutIn ==>
          0 <= g.cutinTimer < CUTIN_DURATION &&
          (g.cutinNext == ResetEnd ||
           (g.cutinNext == Aiming && g.thrown < STONES_PER_END && NextInTurn(g.roster, g.turn))))
  }

  lemma InitialInv()
    ensures Inv(Initial)
  {
  }

  lemma OnEventKeepsInv(g: GameState, e: Event)
    requires Inv(g)
    ensures Inv(OnEvent(g, e))
  {
  }

  lemma {:induction false} OnEventsKeepInv(g: GameState, es: seq<Event>)
    requires Inv(g)
    ensures Inv(OnEvents(g, es))
    decreases |es|
  {
    if es != [] {
      OnEventKeepsInv(g, es[0]);
      OnEventsKeepInv(OnEvent(g, es[0]), es[1..]);
    }
  }

  /** RESET clears the sheet and the throw count, gives the first throw
      to the team without the hammer and starts the cut-in to AIMING. */
  lemma ResetKeepsInv(g: GameState)
    requires Inv(g) && g.phase == ResetEnd
    ensures Inv(ResetPhase(g))
    ensures var h := ResetPhase(g);
      h.roster == [] && h.current.None? && h.thrown == 0 && h.turn == Other(g.hammer) && h.turn != g.hammer &&
      h.phase == CutIn && h.cutinNext == Aiming && h.cutinTimer == 0
  {
  }

  lemma CutInKeepsInv(g: GameState)
    requires Inv(g) && g.phase == CutIn
    ensures Inv(CutInPhase(g))
  {
  }

  lemma AimingKeepsInv(g: GameState, inp: Input)
    requires Inv(g) && g.phase == Aiming
    requires UnitDraw(inp.ux) && UnitDraw(inp.up)
    ensures Inv(AimingPhase(g, inp))
  {
    var g1 := AimCamera(g);
    var c := g1.current.value;
    if g1.turn == Red {
      HumanAimKeepsInv(g1, c, inp.left, inp.right);
    } else if g1.botStage == 0 {
      StrategyWithinNoise(g1.roster, g1.difficulty, inp.ux, inp.up);
      BotPlanKeepsInv(g1, inp.ux, inp.up);
    } else if g1.botStage == 1 {
      BotWalkKeepsInv(g1, c);
    } else {
      BotChargeKeepsInv(g1, c);
    }
  }

  lemma HumanAimKeepsInv(g: GameState, c: StoneState, left: bool, right: bool)
    requires Inv(g) && g.phase == Aiming && g.current == Some(c) && g.turn == Red
    ensures Inv(KeepInCorridor(HumanAim(g, c, left, right)))
  {
  }

  lemma BotPlanKeepsInv(g: GameState, ux: real, up: real)
    requires Inv(g) && g.phase == Aiming && g.turn == Yellow && g.botStage == 0
    requires 0.0 < Strategy(g.roster, g.difficulty, ux, up).power <= POWER_MAX
    ensures Inv(KeepInCorridor(BotPlan(g, ux, up)))
  {
  }

  lemma BotWalkKeepsInv(g: GameState, c: StoneState)
    requires Inv(g) && g.phase == Aiming && g.current == Some(c) && g.turn == Yellow && g.botStage == 1
    ensures Inv(KeepInCorridor(BotWalk(g, c)))
  {
  }

  lemma BotChargeKeepsInv(g: GameState, c: StoneState)
    requires Inv(g) && g.phase == Aiming && g.current == Some(c) && g.turn == Yellow && g.botStage == 2
    ensures Inv(KeepInCorridor(BotCharge(g, c)))
  {
  }

  /** Every stone after its tick and the collision pass. */
  function MovedStones(g: GameState, sweeping: bool, root: real -> real): seq<StoneState> {
    var a := Advanced(g, sweeping);
    Pass(a.roster + AsList(a.current), root)
  }

  /** The moved stones keep their teams, in throwing order, and a stone
      resting in play has no velocity. */
  lemma MovedFacts(g: GameState, sweeping: bool, root: real -> real)
    requires Inv(g) && g.phase == Moving
    ensures var all := MovedStones(g, sweeping, root);
      var n := |g.roster|;
      && |all| == n + 1
      && Alternating(all)
      && (forall k :: 0 <= k < |all| ==> AtRest(all[k]))
      && all[n].team == g.turn
  {
    var a := Advanced(g, sweeping);
    var before := a.roster + AsList(a.current);
    AdvancedFacts(g, sweeping);
    PassedFacts(before, root);
    AlternatingByTeams(before, Pass(before, root));
  }

  /** Every stone after its tick, before the collision pass. */
  lemma AdvancedFacts(g: GameState, sweeping: bool)
    requires Inv(g) && g.phase == Moving
    ensures var a := Advanced(g, sweeping);
      var before := a.roster + AsList(a.current);
      && |before| == |g.roster| + 1
      && Alternating(before)
      && (forall k :: 0 <= k < |before| ==> AtRest(before[k]))
      && before[|g.roster|].team == g.turn
  {
    var a := Advanced(g, sweeping);
    var before := a.roster + AsList(a.current);
    var n := |g.roster|;
    assert forall k :: 0 <= k < n ==> before[k] == Advance(g.roster[k], FRICTION_NORMAL);
    assert before[n] == Thrown(g, sweeping).value;
  }

  /** The collision pass keeps each stone's team and a resting stone's
      rest. */
  lemma PassedFacts(ss: seq<StoneState>, root: real -> real)
    ensures var r := Pass(ss, root);
      |r| == |ss| &&
      forall k :: 0 <= k < |ss| ==> r[k].team == ss[k].team && (AtRest(ss[k]) ==> AtRest(r[k]))
  {
    PassKeepsIdentity(ss, 0, 1, root);
  }

  lemma AlternatingByTeams(a: seq<StoneState>, b: seq<StoneState>)
    requires |a| == |b| && Alternating(a)
    requires forall k :: 0 <= k < |a| ==> b[k].team == a[k].team
    ensures Alternating(b)
  {
    forall k | 0 < k < |b| ensures b[k].team == Other(b[k - 1].team) {
      assert b[k].team == a[k].team && b[k - 1].team == a[k - 1].team;
    }
  }

  /** Follow only moves the camera. */
  lemma FollowKeepsRest(g: GameState, focus: Option<StoneState>)
    ensures Follow(g, focus) == g.(view := Follow(g, focus).view, camera := Follow(g, focus).camera)
  {
  }

  /** The MOVING frame before the hand-over: only the camera and the
      stones have changed. */
  lemma CollidedShape(g: GameState, sweeping: bool, root: real -> real)
    requires g.current.Some?
    ensures var a := Advanced(g, sweeping);
      var g3 := Collided(Follow(a, Focus(a)), root);
      var all := MovedStones(g, sweeping, root);
      var n := |g.roster|;
      && g3 == g.(view := g3.view, camera := g3.camera, roster := all[..n], current := Some(all[n]))
      && g3.roster + AsList(g3.current) == all
      && MovingPhase(g, sweeping, root) == if AllStopped(all) then Handover(g3) else g3
  {
    var a := Advanced(g, sweeping);
    FollowKeepsRest(a, Focus(a));
    var all := MovedStones(g, sweeping, root);
    assert all[..|g.roster|] + [all[|g.roster|]] == all;
  }

  /** The frame where some stone still moves keeps the invariant. */
  lemma RunningKeepsInv(g: GameState, g3: GameState, all: seq<StoneState>)
    requires Inv(g) && g.phase == Moving
    requires |all| == |g.roster| + 1 && Alternating(all) && all[|g.roster|].team == g.turn
    requires forall k :: 0 <= k < |all| ==> AtRest(all[k])
    requires g3 == g.(view := g3.view, camera := g3.camera, roster := all[..|g.roster|], current := Some(all[|g.roster|]))
    ensures Inv(g3)
  {
    var r := all[..|g.roster|];
    assert Alternating(r);
    assert forall k :: 0 <= k < |r| ==> AtRest(r[k]);
  }

  /** The hand-over once all stones rest keeps the invariant: the thrown
      stone joins the sheet, and the end goes to RESULT exactly when the
      throw count has reached STONES_PER_END; otherwise the other team
      aims next, after a cut-in. */
  lemma HandoverKeepsInv(g: GameState, g3: GameState, all: seq<StoneState>)
    requires Inv(g) && g.phase == Moving
    requires |all| == |g.roster| + 1 && Alternating(all) && all[|g.roster|].team == g.turn
    requires forall k :: 0 <= k < |all| ==> AtRest(all[k])
    requires AllStopped(all)
    requires g3 == g.(view := g3.view, camera := g3.camera, roster := all[..|g.roster|], current := Some(all[|g.roster|]))
    requires g3.roster + AsList(g3.current) == all
    ensures Inv(Handover(g3))
    ensures Handover(g3).roster == all && Handover(g3).current.None? && Handover(g3).thrown == g.thrown
    ensures Handover(g3).phase == Result <==> g.thrown >= STONES_PER_END
    ensures g.thrown < STONES_PER_END ==>
      Handover(g3).phase == CutIn && Handover(g3).cutinNext == Aiming && Handover(g3).turn == Other(g.turn)
  {
    assert NextInTurn(all, Other(g.turn));
  }

  lemma MovingKeepsInv(g: GameState, sweeping: bool, root: real -> real)
    requires Inv(g) && g.phase == Moving
    ensures Inv(MovingPhase(g, sweeping, root))
  {
    var a := Advanced(g, sweeping);
    var g3 := Collided(Follow(a, Focus(a)), root);
    var all := MovedStones(g, sweeping, root);
    MovedFacts(g, sweeping, root);
    CollidedShape(g, sweeping, root);
    if AllStopped(all) {
      HandoverKeepsInv(g, g3, all);
    } else {
      RunningKeepsInv(g, g3, all);
    }
  }

  /** Both teams score from nothing to at most the number of stones. */
  lemma ScorePoints(ss: seq<StoneState>)
    ensures var (pr, py) := Score(ss);
      0 <= pr && 0 <= py && pr + py <= |ss|
  {
    ScoreZeroIffNoneQualify(ss);
    if Qualifying(ss) != [] {
      ScoreBounds(ss);
    }
  }

  /** RESULT keeps the invariant. Without the clock signal only the view
      changes; with it the end's points are added to both scores, the end
      counter goes up by one, and the game is over iff it passes MAX_ENDS,
      otherwise a cut-in leads to RESET. */
  lemma ResultKeepsInv(g: GameState, fire: bool)
    requires Inv(g) && g.phase == Result
    ensures Inv(ResultPhase(g, fire))
    ensures ResultPhase(g, false) == g.(view := TopDown)
    ensures var h := ResultPhase(g, true);
      && h.scoreRed == g.scoreRed + Score(g.roster).0 >= g.scoreRed
      && h.scoreYellow == g.scoreYellow + Score(g.roster).1 >= g.scoreYellow
      && h.currentEnd == g.currentEnd + 1
      && (h.phase == GameOver <==> g.currentEnd + 1 > MAX_ENDS)
      && (h.phase != GameOver ==> h.phase == CutIn && h.cutinNext == ResetEnd)
  {
    ScorePoints(g.roster);
  }

  /** Every frame keeps the invariant, given random draws in range. */
  lemma TickKeepsInv(g: GameState, inp: Input, root: real -> real)
    requires Inv(g) && UnitDraw(inp.ux) && UnitDraw(inp.up)
    ensures Inv(Tick(g, inp, root))
  {
    var g1 := OnEvents(g, inp.events);
    OnEventsKeepInv(g, inp.events);
    var sweeping := g1.phase == Moving && g1.turn == Red && inp.mouseHeld;
    match g1.phase
    case ResetEnd => ResetKeepsInv(g1);
    case CutIn => CutInKeepsInv(g1);
    case Aiming => AimingKeepsInv(g1, inp);
    case Moving => MovingKeepsInv(g1, sweeping, root);
    case Result => ResultKeepsInv(g1, inp.fire);
    case _ =>
  }

  /** The number of stones of team `t`. */
  function Count(r: seq<StoneState>, t: Team): (n: nat)
    ensures n <= |r|
  {
    if r == [] then 0 else (if r[0].team == t then 1 else 0) + Count(r[1..], t)
  }

  /** An even number of alternating throws is split evenly. */
  lemma {:induction false} AlternatingSplitsEvenly(r: seq<StoneState>, t: Team)
    requires Alternating(r) && |r| % 2 == 0
    ensures 2 * Count(r, t) == |r|
    decreases |r|
  {
    if r != [] {
      var rest := r[2..];
      assert r[1].team == Other(r[0].team);
      forall k | 0 < k < |rest| ensures rest[k].team == Other(rest[k - 1].team) {
        assert rest[k] == r[k + 2] && rest[k - 1] == r[k + 1];
      }
      AlternatingSplitsEvenly(rest, t);
      assert r[1..][1..] == rest;
    }
  }

  /** When an end is scored, each team has thrown STONES_PER_TEAM stones. */
  lemma ResultHasEqualThrows(g: GameState)
    requires Inv(g) && g.phase == Result
    ensures Count(g.roster, Red) == STONES_PER_TEAM && Count(g.roster, Yellow) == STONES_PER_TEAM
  {
    AlternatingSplitsEvenly(g.roster, Red);
    AlternatingSplitsEvenly(g.roster, Yellow);
  }

  /** `a` blended into `b` by a fraction `t` in [0, 1] lies between them. */
  lemma Blend(a: real, b: real, t: real, c: real)
    requires 0.0 <= t <= 1.0 && c == a * (1.0 - t) + b * t
    ensures a <= b ==> a <= c <= b
    ensures b <= a ==> b <= c <= a
  {
    assert c - a == (b - a) * t;
    assert b - c == (b - a) * (1.0 - t);
    if a <= b {
      ProductNonNegative(b - a, t);
      ProductNonNegative(b - a, 1.0 - t);
    } else {
      ProductNonNegative(a - b, t);
      ProductNonNegative(a - b, 1.0 - t);
      assert a - c == (a - b) * t;
      assert c - b == (a - b) * (1.0 - t);
    }
  }

  /** The cut-in camera glides from where it was to the throwing end and is
      exactly there on the last frame. */
  lemma CutInCameraGlides(g: GameState)
    requires Inv(g) && g.phase == CutIn
    ensures var c := CutInPhase(g).camera;
      var a := g.cutinCamStart;
      (a <= CUTIN_CAMERA ==> a <= c <= CUTIN_CAMERA) &&
      (CUTIN_CAMERA <= a ==> CUTIN_CAMERA <= c <= a) &&
      (g.cutinTimer + 1 == CUTIN_DURATION ==> c == CUTIN_CAMERA)
  {
    var t := (g.cutinTimer + 1) as real / CUTIN_DURATION as real;
    assert t * 120.0 == (g.cutinTimer + 1) as real;
    Blend(g.cutinCamStart, CUTIN_CAMERA, t, CutInPhase(g).camera);
  }

  /** Pressing space while RED aims starts the gauge from 0, rising, and
      changes nothing else. */
  lemma HumanPress(g: GameState)
    requires Inv(g) && g.phase == Aiming && g.turn == Red
    ensures OnEvent(g, KeyDown(Space)) == g.(charging := true, charge := 0.0, chargeDir := 1)
  {
  }

  /** Releasing space launches the waiting stone straight up the sheet at
      the gauge's speed, between 0 and POWER_MAX. */
  lemma HumanRelease(g: GameState)
    requires Inv(g) && g.phase == Aiming && g.turn == Red
    ensures var h := OnEvent(g, KeyUp(Space));
      var c := g.current.value;
      && h.phase == Moving && h.thrown == g.thrown + 1
      && h.current == Some(c.(vel := Vec2(0.0, -g.charge), stopped := false))
      && 0.0 <= g.charge <= POWER_MAX
  {
  }

  /** The bot launches at the first charge that reaches its planned power,
      so at most half a unit above it and above POWER_MAX. */
  lemma BotRelease(g: GameState, inp: Input)
    requires Inv(g) && g.phase == Aiming && g.turn == Yellow
    requires AimingPhase(g, inp).phase == Moving
    ensures var c := AimingPhase(g, inp).current.value;
      && c.vel.x == 0.0 && g.botPower <= -c.vel.y < g.botPower + 0.5
      && -c.vel.y < POWER_MAX + 0.5 && !c.stopped
      && AimingPhase(g, inp).thrown == g.thrown + 1
  {
  }

  /** GAME_OVER ignores every event. */
  lemma {:induction false} GameOverIgnoresEvents(g: GameState, es: seq<Event>)
    requires g.phase == GameOver
    ensures OnEvents(g, es) == g
    decreases |es|
  {
    if es != [] {
      GameOverIgnoresEvents(OnEvent(g, es[0]), es[1..]);
    }
  }

  /** GAME_OVER is final: no frame changes the state. */
  lemma GameOverIsFinal(g: GameState, inp: Input, root: real -> real)
    requires g.phase == GameOver
    ensures Tick(g, inp, root) == g
  {
    GameOverIgnoresEvents(g, inp.events);
  }

  /** The team that scores an end throws first in the next; after a blank
      end the team without the hammer still throws first. */
  lemma ScorerLeadsNextEnd(g: GameState)
    requires Inv(g) && g.phase == Result
    ensures var (pr, py) := Score(g.roster);
      var h := ResultPhase(g, true);
      var first := ResetPhase(h.(phase := ResetEnd)).turn;
      (pr > 0 ==> first == Red) && (py > 0 ==> first == Yellow) &&
      (pr == 0 && py == 0 ==> first == Other(g.hammer)) && (pr == 0 || py == 0)
  {
    ScoreZeroIffNoneQualify(g.roster);
    if Qualifying(g.roster) != [] {
      ScoreBounds(g.roster);
    }
  }

  /** Choosing difficulty 3 on the menu starts the first end at once, RED
      first (YELLOW holds the hammer). */
  lemma MenuStartsFirstEnd(root: real -> real)
    ensures var h := Tick(Initial, Input([KeyDown(Digit3)], false, false, false, false, 0.0, 0.0), root);
      h.phase == CutIn && h.cutinNext == Aiming && h.difficulty == 3 && h.turn == Red &&
      h.roster == [] && h.thrown == 0
  {
    assert OnEvents(Initial, [KeyDown(Digit3)]) == OnEvent(Initial, KeyDown(Digit3));
  }

  /** Every frame's random draws are in range. */
  predicate DrawsInRange(frames: seq<Input>) {
    forall k :: 0 <= k < |frames| ==> UnitDraw(frames[k].ux) && UnitDraw(frames[k].up)
  }

  /** The whole game keeps the invariant. */
  lemma {:induction false} RunKeepsInv(g: GameState, frames: seq<Input>, root: real -> real)
    requires Inv(g) && DrawsInRange(frames)
    ensures Inv(Run(g, frames, root))
    decreases |frames|
  {
    if frames != [] {
      TickKeepsInv(g, frames[0], root);
      if Quit !in frames[0].events {
        RunKeepsInv(Tick(g, frames[0], root), frames[1..], root);
      }
    }
  }
}
