# Curling, modelled in Dafny

This project models the game logic of two pygame curling games.

- **main.py** is a 3D curling match. Two teams (RED, the human; YELLOW, the
  computer) play two ends of eight stones each. The model covers:
  - the stone's kinematics (`Stone.update`): friction, the stop threshold,
    the side walls, the far wall and loss past the back line;
  - the pairwise collision pass with its half-overlap correction and the
    restitution impulse;
  - end scoring (`get_score`);
  - the 3D and top-down projections (`project_3d`, `project_topdown`);
  - the bot's shot (`calculate_bot_strategy`) and its walk-and-charge
    script;
  - the frame-by-frame state machine of `main()`: START_MENU, RESET,
    CUT_IN, AIMING, MOVING, RESULT and GAME_OVER, with `start_cutin`.
- **curling.py** is a simpler top-down game with endless alternating turns.
  The model covers its `Stone.update`, the aiming controls, the launch on
  key-up, its own velocity-swap collision rule and the turn change.

Each game is modelled twice:

- As pure functions over value datatypes, with lemmas about them. For main.py
  this is `Stones.Advance`, `Collisions`, `Scoring`, `Projection`, `Bot` and
  `Flow.Tick`, with the lemmas in `FlowFacts`. For curling.py it is
  `Curling.Advance`, `Curling.Hit` and `Curling.Tick`, with the lemmas in
  `CurlingFacts`.
- As imperative code over `Stone` objects whose fields change in place:
  `Stones.Stone.Update`, `Collisions.ResolveCollisions`, `MainLoop`,
  `Curling.Stone.Update` and `CurlingLoop`. Each method is proved equal to
  the matching function. The locals of `main()` are threaded through as one
  value (`Flow.GameState`, `Curling.Sim`) that mirrors the stone objects.

Numbers are exact reals. A few things are parameters of the model:

- the square root inside `Vector2.length()` and `normalize()` is a function
  `root`;
- the bot's two `random.uniform` draws are the inputs `ux`, `up`, taken in
  [-1, 1];
- each frame's events, held keys, mouse button and RESULT clock condition
  are an `Input` value.

Lemmas that need an exact root say so with `RootAt(root, x)` at the one point
they use.

Code behaviour worth noting, which the model follows as written:

- curling.py's zero-distance guard (curling.py:140) only sets `dist = 0.1`.
  `normalize()` of the zero vector on the next line still raises, so a hit
  between coincident stones is an error outcome (`None`), not a substituted
  normal. Two throws at charge 0 reach it (`CurlingFacts.CoincidentThrowsRaise`).
  Only main.py substitutes the vector (1, 0).
- curling.py's velocity rule is not an exchange: each hit adds 0.3 of the
  thrown stone's velocity to the total (`CurlingFacts.HitAddsMomentum`).
- curling.py decides the turn change from the stopped flags taken before the
  collisions. A stone that a hit sets moving does not delay the change
  (`CurlingFacts.WakingDoesNotDelayTurn`).
- In main.py, a stone lost past the back line is stopped but keeps its
  velocity (`Stones.LostStoneKeepsVelocity`).
- The bot's stage-1 walk ends only when its noisy target is within 4 of the
  corridor. Otherwise stage 1 never ends (`Bot.WalkNeverArrives`,
  `Bot.BotCanAimOutOfReach`).
- The bot releases at the first charge that reaches its planned power, up to
  0.5 above it (`FlowFacts.BotRelease`).

## Model

| member | source | states |
|---|---|---|
| Stones.Advance | main.py:97-119 | A stopped stone is unchanged. A moving stone ends inside the corridor [18, 582] with y >= 0. If its speed after friction is below 0.05, the velocity is exactly zero and it stops; otherwise the velocity is non-zero. It is out of play iff it was already or its y passed WORLD_H, and then it is stopped. A moving stone that is not slow and not lost stays moving. The team and the rule "a resting stone in play has no velocity" are kept. |
| Stones.AdvanceBounces | main.py:107-116 | The velocity component whose bound was crossed is multiplied by -0.5, the other keeps its damped value. A coordinate within its bound keeps the moved position. |
| Stones.LostStoneKeepsVelocity | main.py:117-119 | Crossing y > WORLD_H sets stopped and out_of_play but leaves the velocity (0, 9.85) as it was. |
| Stones.Stone.constructor | main.py:88-95 | A new stone is at (x, y) with zero velocity, stopped and in play. |
| Stones.Stone.Update | main.py:97-119 | The in-place update leaves the stone in the state `Advance` gives for its old state and friction. |
| Controls.Clamp | main.py:586-587 | The aim ends within [lo, hi]. A value inside is unchanged, one below becomes lo, one above becomes hi. |
| Controls.GaugeTick | main.py:571-574 | The charge stays in [0, top] and the direction stays ±1. Reaching top turns the gauge down, reaching 0 turns it up, and strictly between them it moves by 0.5 in its direction. |
| Controls.GaugeRisesFromZero | main.py:571-574 | Going up from a charge below top, after k ticks that stay below top the charge has risen by k/2 and still goes up. |
| Collisions.Collide | main.py:609-621 | Out-of-play or non-touching pairs are unchanged. Touching stones are pushed apart by half the overlap each along the normal. A separating pair keeps its velocities and flags. An approaching pair exchanges the impulse and both stones wake. The sum of velocities and of positions, the teams and the out-of-play flags are always kept. |
| Collisions.NormalIsUnit | main.py:612-614 | With an exact root the contact normal has unit length, including the substituted (1, 0). |
| Collisions.CollideSeparates | main.py:613-616 | A non-degenerate touching pair ends exactly 2 * STONE_RADIUS apart. |
| Collisions.CollideCoincident | main.py:611-616 | Coincident stones are split along x by CONTACT - 1 in all, because the guard takes the distance to be 1. |
| Collisions.CollideRebounds | main.py:617-621 | For an approaching pair the total velocity is kept, the relative normal velocity becomes -0.9 times its old value, and both stones are un-stopped. |
| Collisions.CollideKeepsAtRest | main.py:609-621 | A stone at rest in play stays with zero velocity after a pair step. |
| Collisions.PairStepKeepsMomentum | main.py:606-621 | Resolving one pair of the roster keeps the roster's total velocity. |
| Collisions.PassKeepsMomentum | main.py:606-621 | The whole double loop keeps the total velocity of all stones. |
| Collisions.PassKeepsIdentity | main.py:606-621 | The double loop keeps each stone's team, out-of-play flag and rest. |
| Collisions.Bump | main.py:608-621 | The loop body on two stone objects leaves them in the states `Collide` gives. |
| Collisions.ResolveCollisions | main.py:604-621 | The in-place double loop over `all_stones` leaves the objects in the states of the pure pass `Pass`. |
| Scoring.Qualifying | main.py:215 | Only stones in play short of the half-way line are kept, and no more stones than given. |
| Scoring.QualifyingExactly | main.py:215 | Every qualifying stone is kept as often as it occurs, and every other stone is dropped. |
| Scoring.Insert | main.py:217 | The insertion step adds exactly the one stone: a permutation of the list plus it. |
| Scoring.InsertSorted | main.py:217 | Inserting into a list sorted by distance keeps it sorted. |
| Scoring.SortByDistance | main.py:217 | The sort is ordered by distance to the button, is a permutation of its input, and is stable: the stones at any one distance keep their roster order, so a tie for the nearest stone goes to the one listed first. |
| Scoring.LeadingRun | main.py:218-222 | The count is the length of the leading run of one colour: every counted stone has it, and the next stone does not. |
| Scoring.GetScore | main.py:213-223 | The counting loop returns exactly `Score`. |
| Scoring.ScoreZeroIffNoneQualify | main.py:213-216 | The score is (0, 0) iff no stone qualifies. |
| Scoring.ScoreBounds | main.py:218-223 | Only the nearest stone's team scores, between 1 and the number of qualifying stones. |
| Scoring.ScoredStonesAreNearest | main.py:217-222 | The scoring team's first stone is nearest of all, and no opposing qualifying stone is nearer than a scoring stone. |
| Scoring.ScoreExampleRun | main.py:213-223 | RED, RED, YELLOW at distances 1, 2, 3 score (2, 0). |
| Scoring.ScoreExampleBroken | main.py:213-223 | RED, YELLOW, RED by distance, listed farthest first, score (1, 0). |
| Projection.Trunc | main.py:205 | Python's int() truncates toward zero, within 1 of the real. |
| Projection.TruncMonotone | main.py:205 | Truncation keeps order. |
| Projection.Project3D | main.py:196-205 | The point is visible iff 10 <= camera_y - y <= VIEW_DIST + 2000. Then scale = FOCAL_LENGTH / rel_y > 0, and screen y is below the horizon line HORIZON_Y. |
| Projection.NearerLooksLarger | main.py:200-205 | Of two visible points, the nearer has the larger scale and a screen y no smaller. |
| Projection.CentreLineStaysCentred | main.py:202-205 | A visible point on the centre line projects to screen x 300. |
| Projection.ProjectTopdown | main.py:207-211 | The top-down map is always visible with scale 0.8. |
| Projection.TopdownCentredAndMonotone | main.py:207-211 | The button maps to the screen centre, and both coordinates keep their order. |
| Bot.Amplitude | main.py:238-239 | A difficulty in the `noises` table gets its entry; any other difficulty gets the fallback (30, 1.5), which is difficulty 2's. All amplitudes are positive and the power noise is at most 4. |
| Bot.Strategy | main.py:225-242 | The returned power is at most POWER_MAX. |
| Bot.StrategyWithinNoise | main.py:238-242 | With draws in [-1, 1], the aim is within the aim amplitude of the plan and the power within the power amplitude (then clamped), and the power is positive. |
| Bot.RankedQualify | main.py:226-228 | Every stone the bot ranks is in play, short of the half-way line, and on the sheet. |
| Bot.PlanPowerAtLeast | main.py:229-237 | Both plans ask for a power of at least 21.6. |
| Bot.PlanTargetsRedLeader | main.py:225-237 | A take-out aims at the x of a red qualifying stone of the sheet that is nearest the button, with power (START_Y - its y) * 0.015 * 1.6. Otherwise the plan is the draw (300, 1700 * 0.015 * 1.02). |
| Bot.HarderBotIsSteadier | main.py:238 | A higher difficulty never has a larger noise amplitude. |
| Bot.WalkStep | main.py:578-587 | One walk tick ends in the corridor and arrives iff the target was within 4; on arrival a stone in the corridor keeps its x. |
| Bot.WalkArrives | main.py:578-587 | From the corridor, a reachable target is reached after one tick more than a quarter of the distance. |
| Bot.WalkNeverArrives | main.py:578-587 | A target more than 4 outside the corridor is never reached: stage 1 never ends. |
| Bot.BotCanAimOutOfReach | main.py:225-242 | A red leader at x 575 and an aim draw of 0.5 at difficulty 2 put the target at 590, out of reach. |
| Bot.ChargeTick | main.py:582-585 | The charge grows by 0.5. A released stone has reached the planned power, and from below it by at most 0.5; a stone not released is still below it. |
| Flow.FollowTarget | main.py:599-601 | The camera target lies in [TARGET_Y + 700, START_Y + 600] and is y + 700 within that range. |
| FlowFacts.InitialInv | main.py:466-497 | The game before the first frame satisfies the invariant `Inv`. |
| FlowFacts.OnEventKeepsInv | main.py:514-527 | Each event keeps the invariant. |
| FlowFacts.OnEventsKeepInv | main.py:514-527 | The whole event loop keeps the invariant. |
| FlowFacts.ResetKeepsInv | main.py:537-545 | RESET keeps the invariant and leaves an empty sheet, no stone in hand, no throws, the team without the hammer to throw, and a cut-in to AIMING from timer 0. |
| FlowFacts.CutInKeepsInv | main.py:547-560 | CUT_IN keeps the invariant, including the new waiting stone when AIMING follows. |
| FlowFacts.AimingKeepsInv | main.py:562-587 | With draws in range, AIMING keeps the invariant. That includes the gauge in [0, POWER_MAX], the direction ±1, the aim in the corridor, and the roster length equal to thrown_count in AIMING and thrown_count - 1 in MOVING. |
| FlowFacts.HumanAimKeepsInv | main.py:567-574 | RED's arrow keys and gauge, then the clamp, keep the invariant. |
| FlowFacts.BotPlanKeepsInv | main.py:576-577 | Planning a shot with positive power at most POWER_MAX keeps the invariant. |
| FlowFacts.BotWalkKeepsInv | main.py:578-581 | A walk tick keeps the invariant. |
| FlowFacts.BotChargeKeepsInv | main.py:582-585 | A charge tick or the release keeps the invariant. |
| FlowFacts.MovedFacts | main.py:589-621 | After the updates and the collision pass there is one more stone than on the sheet. The colours still alternate, resting stones have no velocity, and the last stone is the thrower's. |
| FlowFacts.AdvancedFacts | main.py:589-592 | The same facts hold after the updates alone. |
| FlowFacts.PassedFacts | main.py:604-621 | The collision pass keeps the length, every team and every rest. |
| FlowFacts.FollowKeepsRest | main.py:594-602 | The camera step changes only the view and the camera. |
| FlowFacts.CollidedShape | main.py:589-634 | Before the hand-over, a MOVING frame changes only the camera, the view and the stones. It hands over iff all stones have stopped. |
| FlowFacts.RunningKeepsInv | main.py:589-621 | A MOVING frame in which some stone still moves keeps the invariant. |
| FlowFacts.HandoverKeepsInv | main.py:623-634 | The hand-over keeps the invariant. The thrown stone joins the sheet and none is in hand; the phase becomes RESULT iff thrown_count >= 8, and otherwise the other team aims next, after a cut-in. |
| FlowFacts.MovingKeepsInv | main.py:589-634 | The whole MOVING branch keeps the invariant. |
| FlowFacts.ScorePoints | main.py:213-223 | Both teams' points are non-negative, and together at most the number of stones. |
| FlowFacts.ResultKeepsInv | main.py:636-650 | RESULT keeps the invariant. Without the clock signal only the view changes. With it, each team's score grows by its points of the end (never decreasing), current_end goes up by exactly 1, the game is over iff current_end then exceeds MAX_ENDS, and otherwise a cut-in leads to RESET. |
| FlowFacts.TickKeepsInv | main.py:510-650 | With draws in range, every frame keeps the invariant. |
| FlowFacts.AlternatingSplitsEvenly | main.py:623-634 | An even number of alternating throws is split evenly between the teams. |
| FlowFacts.ResultHasEqualThrows | main.py:623-628 | When the end is scored, each team has thrown exactly STONES_PER_TEAM stones. |
| FlowFacts.CutInCameraGlides | main.py:547-551 | The cut-in camera lies between its start and the throwing end, and is there exactly on the last frame. |
| FlowFacts.HumanPress | main.py:521-524 | Pressing space while RED aims starts the gauge at 0, rising, and changes nothing else. |
| FlowFacts.HumanRelease | main.py:525-527 | Releasing space launches the waiting stone with velocity (0, -charge), charge in [0, POWER_MAX], moves to MOVING and adds exactly 1 to thrown_count. |
| FlowFacts.BotRelease | main.py:582-585 | The bot's release has velocity (0, -charge) with charge in [bot_power, bot_power + 0.5), below POWER_MAX + 0.5. It adds exactly 1 to thrown_count. |
| FlowFacts.GameOverIgnoresEvents | main.py:514-527 | No event changes a finished game. |
| FlowFacts.GameOverIsFinal | main.py:510-650 | No frame changes a finished game. |
| FlowFacts.ScorerLeadsNextEnd | main.py:639-643 | Only one team scores an end, and it gives up the hammer, so the next RESET lets it throw first. After a blank end the hammer stays where it was. |
| FlowFacts.MenuStartsFirstEnd | main.py:516-520 | Key 3 on the menu sets difficulty 3 and starts the first end with RED to throw, no stones and no throws. |
| FlowFacts.RunKeepsInv | main.py:509-515 | The whole game keeps the invariant, up to and including the frame that delivers Quit. |
| MainLoop.UpdateAll | main.py:592 | Updating the sheet's stone objects in place gives `AdvanceAll` of their old states: each stone takes exactly one `Advance`, in place. What that keeps is in `FlowFacts.AdvancedFacts`. |
| MainLoop.AimKey | main.py:521-527 | The space bar on the objects does what `AimEvent` says. |
| MainLoop.HandleEvents | main.py:514-527 | The event loop on the objects does what `OnEvents` says. |
| MainLoop.Reset | main.py:537-545 | RESET drops every stone object and does what `ResetPhase` says. |
| MainLoop.RunCutIn | main.py:547-560 | CUT_IN does what `CutInPhase` says, with a new stone object when AIMING follows. |
| MainLoop.AimHuman | main.py:567-574 | RED's frame on the stone object does what `HumanAim` says. |
| MainLoop.WalkBot | main.py:578-581 | Bot stage 1 on the object does what `BotWalk` says. |
| MainLoop.ChargeBot | main.py:582-585 | Bot stage 2 on the object does what `BotCharge` says. |
| MainLoop.Aim | main.py:562-587 | AIMING on the object does what `AimingPhase` says. |
| MainLoop.AllStones | main.py:604-605 | `all_stones` holds no object twice. |
| MainLoop.AdvanceStones | main.py:590-592 | The updates on the objects do what `Advanced` says. |
| MainLoop.FollowCamera | main.py:594-602 | The camera step does what `Follow` says. |
| MainLoop.CollideStones | main.py:604-621 | The collision loop on the objects does what `Collided` says. |
| MainLoop.HandOver | main.py:623-634 | The hand-over appends the thrown object to the sheet and does what `Handover` says. |
| MainLoop.Move | main.py:589-634 | MOVING on the objects does what `MovingPhase` says. |
| MainLoop.ScoreEnd | main.py:641-650 | Adding the points, passing the hammer and moving to the next end do what `EndScored` says. |
| MainLoop.Settle | main.py:636-650 | RESULT with `get_score` does what `ResultPhase` says. |
| MainLoop.Frame | main.py:510-650 | One frame on the objects does what `Tick` says. |
| MainLoop.Play | main.py:509-515 | The loop gives `Run` of the opening state. With draws in range, the final state satisfies the invariant. |
| Curling.Advance | curling.py:27-44 | After any update x is within [20, 580] and the team is kept. A stopped stone keeps its flag, y and vel.y, and a stopped stone inside the walls is unchanged. A moving stone moves y by vel.y. It stops iff its speed after friction is below 0.1, and then its velocity is zero. |
| Curling.Hit | curling.py:136-153 | A hit raises iff the measured distance is 0. Apart from that: a pair at least 40 apart is unchanged. The position sum, the teams and the thrown stone's flag are kept. An overlapping pair gets c.vel = v2 + 0.5 v1 and s.vel = 0.8 v1, and s moves. |
| Curling.HitAll | curling.py:136-153 | The loop over the sheet keeps its length, the thrown stone's colour and its stopped flag. |
| Curling.Stone.constructor | curling.py:20-25 | A new stone is at (300, 80) with zero velocity, stopped. |
| Curling.Stone.Update | curling.py:27-44 | The in-place update leaves the stone in the state `Advance` gives. |
| CurlingFacts.StartInv | curling.py:64-75 | The opening state satisfies the invariant `Inv`. |
| CurlingFacts.AdvanceBounces | curling.py:37-44 | vel.x is multiplied by -0.8 exactly when a wall was crossed, and x is clamped to that wall. Inside the walls, x and the velocity are kept. |
| CurlingFacts.AdvanceSlows | curling.py:27-44 | An update never increases a stone's speed. |
| CurlingFacts.GlideSlows | curling.py:28-35 | Friction and the stop never increase the speed. |
| CurlingFacts.WallsSlow | curling.py:39-44 | A wall bounce never increases the speed. |
| CurlingFacts.AdvanceKeepsDownward | curling.py:27-44 | A stone whose vel.y is non-negative keeps it so. |
| CurlingFacts.AdvanceAllKeepsDownward | curling.py:131-132 | Updating every stone on the sheet keeps each stone's colour and keeps every velocity pointing down the screen. |
| CurlingFacts.HitRaisesIffCoincident | curling.py:137-141 | With an exact root, a hit raises iff the two centres coincide. |
| CurlingFacts.HitSeparates | curling.py:139-146 | A non-degenerate overlap leaves the centres exactly 40 apart. |
| CurlingFacts.HitPushesAlongNormal | curling.py:139-146 | An overlapping hit that does not raise pushes along the normal: the separation vector keeps its direction and is scaled from dist to 40. |
| CurlingFacts.HitAddsMomentum | curling.py:148-153 | An overlapping hit adds 0.3 of the thrown stone's velocity to the total. |
| CurlingFacts.HitKeepsDownward | curling.py:136-153 | A hit keeps both velocities pointing down the screen. |
| CurlingFacts.HitAllKeepsDownward | curling.py:136-153 | The collision loop keeps every velocity pointing down the screen. |
| CurlingFacts.HitAllKeepsTeams | curling.py:136-153 | The collision loop keeps every stone's colour. |
| CurlingFacts.OnEventsKeepInv | curling.py:79-97 | The event loop keeps the invariant. While a stone moves, events change nothing; a key press while aiming starts the gauge at 0, rising, and changes nothing else. |
| CurlingFacts.AimingKeepsInv | curling.py:101-124 | AIMING keeps the invariant: the aim between the walls, the charge in [0, 25] and the direction ±1. |
| CurlingFacts.MovingHandsOver | curling.py:126-161 | The turn changes iff every stone had stopped after its update. The sheet then grows by exactly one, the other colour aims a new stone at (300, 80), and the charge is 0. Otherwise the sheet, turn and phase stay. |
| CurlingFacts.MovingKeepsInv | curling.py:126-161 | MOVING without a raise keeps the invariant. |
| CurlingFacts.NextTurnKeepsInv | curling.py:155-161 | The turn change keeps the invariant. |
| CurlingFacts.TickKeepsInv | curling.py:79-161 | Every frame that does not raise keeps the invariant. |
| CurlingFacts.RunKeepsInv | curling.py:77-161 | Any run that does not raise keeps the invariant. The gauge stays in [0, 25], the colours alternate RED, YELLOW, ... and no stone moves up the screen. |
| CurlingFacts.ReleaseLaunches | curling.py:90-97 | Releasing space while aiming gives the stone velocity (0, charge), toward increasing y, with the charge in [0, POWER_MAX]; the stone moves, charging stops and the phase becomes MOVING. |
| CurlingFacts.ThrowLaunches | curling.py:84-97 | Press then release: charge 0, then the stone launched with velocity (0, charge), MOVING. |
| CurlingFacts.DeadThrowStops | curling.py:27-35 | A stone launched at charge 0 stops where it was placed. |
| CurlingFacts.OpeningDeadThrow | curling.py:126-161 | A charge-0 throw onto an empty sheet: the stone stays put and the other colour aims in the same frame. |
| CurlingFacts.FirstDeadThrow | curling.py:126-161 | The first throw at charge 0 leaves one RED stone on the sheet, with YELLOW to aim. |
| CurlingFacts.CoincidentThrowsRaise | curling.py:139-141 | Two throws at charge 0 from the start raise: the second stone sits on the first and `normalize()` gets a zero vector. |
| CurlingFacts.SameSpotRaises | curling.py:137-141 | A hit between stones on the same spot raises. |
| CurlingFacts.WakingDoesNotDelayTurn | curling.py:127-161 | A stone pushed and woken by a hit in the settling frame does not delay the turn change. |
| CurlingFacts.PushWakes | curling.py:139-153 | A thrown stone 20 above a resting stone pushes it and sets it moving. |
| CurlingLoop.HandleEvents | curling.py:79-97 | The event loop on the stone object does what `OnEvents` says. |
| CurlingLoop.Aim | curling.py:101-124 | AIMING on the object does what `AimingStep` says. |
| CurlingLoop.UpdateAll | curling.py:131-133 | Updating the sheet's objects in place gives `AdvanceAll` (one `Advance` per stone), and the flag says whether all of them stopped. What that keeps is in `CurlingFacts.AdvanceAllKeepsDownward`. |
| CurlingLoop.Collide | curling.py:137-153 | One pass of the collision loop on the two objects: `ok` is false iff the hit raises, and otherwise the objects hold the hit's result. |
| CurlingLoop.CollideAll | curling.py:136-153 | The collision loop on the objects fails iff `HitAll` raises, and otherwise leaves the objects in its result. |
| CurlingLoop.Slide | curling.py:126-153 | The updates and collisions on the objects. The flag records the stops before the collisions, and the state is `HitAll` of the advanced stones. |
| CurlingLoop.HandOver | curling.py:155-161 | The thrown object joins the sheet, a fresh stone of the other colour is made, and the state is `NextTurn`. |
| CurlingLoop.Move | curling.py:126-161 | MOVING on the objects does what `MovingStep` says, including the raise. |
| CurlingLoop.OneFrame | curling.py:79-161 | One frame on the objects does what `Tick` says. |
| CurlingLoop.Play | curling.py:64-161 | The loop raises iff `Run` from the opening state raises. Otherwise it ends in `Run`'s state, which satisfies the invariant. |

## Left out

- Drawing is not modelled: `Stone.draw`, the stage, UI, broom, cut-in and
  hammer drawing, the ice texture, fonts, and the menu and game-over screens.
  Apart from the exit below, none of it has game logic.
- The game-over screen's held-space exit (main.py:704) is not modelled: it
  ends the loop like a window close, and `Input` has no held-space field.
  The final state is the same either way, since GAME_OVER is a fixed point
  of a frame (`FlowFacts.GameOverIsFinal`).
- The sweep particles and the spin angle are cosmetic and are left out.
  `angle` never feeds back into motion.
- Cut-in texts, sub-texts and colours are display strings and are left out.
  The phase, timer, pending phase and camera start are modelled.
- Event polling, key and mouse state, `clock.tick` and `pg.time.delay` are
  not modelled. What a frame reads becomes the `Input`/`Frame` value.
- The RESULT clock test `get_ticks() % 100 == 0` becomes the input `fire`.
- `random.uniform` is not modelled: the draws are inputs, and the invariant
  lemmas require them in [-1, 1].
- Floating-point rounding is not modelled: positions, velocities and the
  charge are exact reals.
- The square root of `length()` and `normalize()` is a parameter `root`.
  Properties that need it to be exact require `RootAt` at the point used.
- The exit on a window-close event is modelled as stopping after the frame
  that delivers `Quit`. The process exit is left out.
- 00_game.py is not part of this model. It is a separate bouncing-ball demo
  with no game rules.
- CurlingLoop.Collide: a raise of `normalize()` is reported as `ok == false`,
  and the objects are left as they were at that point. The traceback is not
  modelled.
- Curling.HitAll: its own contract states only the length and the thrown
  stone's colour and flag. Every stone's colour is stated separately in
  `CurlingFacts.HitAllKeepsTeams`.
