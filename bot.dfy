/** The computer player of the 3D game: the shot it chooses
    (main.py, calculate_bot_strategy) and its walk to the aiming line and
    charge before releasing (main.py, AIMING branch, bot stages 1 and 2). */
module Bot {
  import opened Vectors
  import opened Constants
  import opened Stones
  import opened Scoring
  import opened Controls

  /** The chosen aim and power. */
  datatype Shot = Shot(targetX: real, power: real)

  /** The noise amplitudes (aim, power) of the three difficulties. */
  const NOISES: map<int, (real, real)> := map[1 := (80.0, 4.0), 2 := (30.0, 1.5), 3 := (2.0, 0.2)]

  /** The amplitudes of a difficulty: its entry in NOISES, and for any
      other difficulty the fallback (30, 1.5), which is the middle one's. */
  function Amplitude(difficulty: int): (r: (real, real))
    ensures difficulty in NOISES ==> r == NOISES[difficulty]
    ensures difficulty !in NOISES ==> r == NOISES[2] == (30.0, 1.5)
    ensures 0.0 < r.0 && 0.0 < r.1 <= 4.0
  {
    if difficulty in NOISES then NOISES[difficulty] else (30.0, 1.5)
  }

  /** A draw of `random.uniform(-1, 1)`; `random.uniform(-a, a)` is `a`
      times such a draw. The draws are parameters of the model. */
  predicate UnitDraw(u: real) { -1.0 <= u <= 1.0 }

  /** The bot tries to knock out the stone nearest the button when it is
      red and the difficulty is at least 2. */
  predicate TakesOut(ss: seq<StoneState>, difficulty: int) {
    var v := Ranked(ss);
    v != [] && difficulty >= 2 && v[0].team == Red
  }

  /** The shot before noise: aim at the red leader with power for its
      distance, or draw to the button. */
  function Plan(ss: seq<StoneState>, difficulty: int): Shot {
    if TakesOut(ss, difficulty) then
      var t := Ranked(ss)[0];
      Shot(t.pos.x, (START_Y - t.pos.y) * (1.0 - FRICTION_NORMAL) * 1.6)
    else
      Shot(BUTTON.x, (START_Y - TARGET_Y) * (1.0 - FRICTION_NORMAL) * 1.02)
  }

  function Min(a: real, b: real): real { if a <= b then a else b }

  /** calculate_bot_strategy, with the two random draws `ux`, `up`
      scaled by the difficulty's amplitudes. */
  function Strategy(ss: seq<StoneState>, difficulty: int, ux: real, up: real): (r: Shot)
    ensures r.power <= POWER_MAX
  {
    var p := Plan(ss, difficulty);
    var a := Amplitude(difficulty);
    Shot(p.targetX + a.0 * ux, Min(p.power + a.1 * up, POWER_MAX))
  }

  /** The noise moves the aim by at most the aim amplitude and the power by
      at most the power amplitude, and the power stays positive. */
  lemma StrategyWithinNoise(ss: seq<StoneState>, difficulty: int, ux: real, up: real)
    requires UnitDraw(ux) && UnitDraw(up)
    ensures var r := Strategy(ss, difficulty, ux, up);
      var p := Plan(ss, difficulty);
      var ax := Amplitude(difficulty).0;
      var ap := Amplitude(difficulty).1;
      && 0.0 < r.power
      && p.targetX - ax <= r.targetX <= p.targetX + ax
      && Min(p.power - ap, POWER_MAX) <= r.power <= Min(p.power + ap, POWER_MAX)
  {
    var a := Amplitude(difficulty);
    PlanPowerAtLeast(ss, difficulty);
    NoiseBounds(a.0, ux);
    NoiseBounds(a.1, up);
  }

  lemma NoiseBounds(a: real, u: real)
    requires a >= 0.0
    ensures UnitDraw(u) ==> -a <= a * u <= a
  {
    if UnitDraw(u) {
      assert a * u - a == a * (u - 1.0);
      assert a * u + a == a * (u + 1.0);
    }
  }

  /** Every ranked stone qualifies; in particular the leader lies short of
      the half-way line. */
  lemma RankedQualify(ss: seq<StoneState>, k: int)
    requires 0 <= k < |Ranked(ss)|
    ensures Qualifies(Ranked(ss)[k])
    ensures Ranked(ss)[k] in ss
  {
    var s := Ranked(ss)[k];
    assert s in multiset(Ranked(ss));
    assert s in multiset(Qualifying(ss));
    QualifyingExactly(ss);
    assert multiset(ss)[s] > 0;
    var j :| 0 <= j < |Qualifying(ss)| && Qualifying(ss)[j] == s;
  }

  /** Both plans ask for a power of at least 21.6: a take-out target lies
      short of the half-way line, at least 900 from the start. */
  lemma PlanPowerAtLeast(ss: seq<StoneState>, difficulty: int)
    ensures Plan(ss, difficulty).power >= 21.6
  {
    if TakesOut(ss, difficulty) {
      RankedQualify(ss, 0);
    }
  }

  /** The take-out aims at a red stone of the roster that is in play and at
      least as near the button as every qualifying stone, with a power for
      its distance from the start; otherwise the bot draws to the button
      with power 26.01. */
  lemma {:induction false} PlanTargetsRedLeader(ss: seq<StoneState>, difficulty: int)
    ensures TakesOut(ss, difficulty) ==>
      exists t :: t in ss && t.team == Red && Qualifies(t) && Plan(ss, difficulty).targetX == t.pos.x &&
        Plan(ss, difficulty).power == (START_Y - t.pos.y) * 0.015 * 1.6 &&
        forall s :: s in ss && Qualifies(s) ==> DistSq(t) <= DistSq(s)
    ensures !TakesOut(ss, difficulty) ==> Plan(ss, difficulty) == Shot(300.0, 26.01)
  {
    if TakesOut(ss, difficulty) {
      var v := Ranked(ss);
      RankedQualify(ss, 0);
      forall s | s in ss && Qualifies(s) ensures DistSq(v[0]) <= DistSq(s) {
        QualifyingExactly(ss);
        assert multiset(ss)[s] > 0;
        assert s in multiset(v);
        var j :| 0 <= j < |v| && v[j] == s;
      }
    }
  }

  /** A harder bot aims and judges power at least as closely. */
  lemma HarderBotIsSteadier(d1: int, d2: int)
    requires 1 <= d1 <= d2 <= 3
    ensures Amplitude(d2).0 <= Amplitude(d1).0 && Amplitude(d2).1 <= Amplitude(d1).1
  {
  }

  /** Stage 1 for one tick: step 4 towards the target unless already
      within 4 of it, then keep the stone in the corridor; the flag says
      the stone has arrived. */
  function WalkStep(x: real, target: real): (r: (real, bool))
    ensures InCorridor(r.0)
    ensures r.1 <==> -4.0 <= target - x <= 4.0
    ensures InCorridor(x) && r.1 ==> r.0 == x
  {
    var dx := target - x;
    if dx > 4.0 || dx < -4.0 then
      (Clamp(x + (if dx > 0.0 then 4.0 else -4.0), MIN_CENTER_X, MAX_CENTER_X), false)
    else
      (Clamp(x, MIN_CENTER_X, MAX_CENTER_X), true)
  }

  /** Stage 1 over at most `n` ticks, stopping on arrival. */
  function WalkAfter(x: real, target: real, n: nat): (real, bool)
    decreases n
  {
    if n == 0 then (x, false)
    else
      var (x1, arrived) := WalkStep(x, target);
      if arrived then (x1, true) else WalkAfter(x1, target, n - 1)
  }

  /** A target that a stone in the corridor can come within 4 of. */
  predicate Reachable(target: real) {
    MIN_CENTER_X - 4.0 <= target <= MAX_CENTER_X + 4.0
  }

  /** A reachable target is reached: within one tick more than a quarter
      of the distance. */
  lemma {:induction false} WalkArrives(x: real, target: real, n: nat)
    requires InCorridor(x) && Reachable(target)
    requires -4.0 * n as real <= target - x <= 4.0 * n as real
    ensures WalkAfter(x, target, n + 1).1
    decreases n
  {
    var (x1, arrived) := WalkStep(x, target);
    if !arrived {
      assert n >= 1;
      WalkArrives(x1, target, n - 1);
    }
  }

  /** An unreachable target is never reached: the stone walks to the wall
      and stays there, and stage 1 never ends. */
  lemma {:induction false} WalkNeverArrives(x: real, target: real, n: nat)
    requires InCorridor(x) && !Reachable(target)
    ensures !WalkAfter(x, target, n).1
    decreases n
  {
    if n > 0 {
      var (x1, arrived) := WalkStep(x, target);
      WalkNeverArrives(x1, target, n - 1);
    }
  }

  /** A red stone alone near the side wall on the button line: at
      difficulty 2 an aim draw of 0.5 (noise 15) makes the target 590,
      beyond reach. */
  lemma BotCanAimOutOfReach()
    ensures var s := StoneState(Vec2(575.0, 400.0), Zero, Red, true, false);
      var r := Strategy([s], 2, 0.5, 0.0);
      r.targetX == 590.0 && !Reachable(r.targetX)
  {
    var s := StoneState(Vec2(575.0, 400.0), Zero, Red, true, false);
    assert Qualifying([s]) == [s];
    assert Ranked([s]) == [s];
  }

  /** Stage 2 for one tick: add 0.5 to the charge; `true` when it reaches
      the planned power and the stone is released. A charge still below
      the power is released at most half a unit above it, and one that is
      not released stays below it. */
  function ChargeTick(charge: real, power: real): (r: (real, bool))
    ensures r.0 - charge == 0.5
    ensures r.1 ==> power <= r.0 && (charge < power ==> r.0 < power + 0.5)
    ensures !r.1 ==> r.0 < power
  {
    (charge + 0.5, charge + 0.5 >= power)
  }
}
