/** End scoring of the 3D game (main.py, get_score): the stones in play in the
    scoring half are ordered by distance to the button, and the team of the
    nearest one scores one point per stone of its colour before the first
    stone of the other colour. */
module Scoring {
  import opened Vectors
  import opened Constants
  import opened Stones

  /** The centre of the house: (SCREEN_W // 2, TARGET_Y). */
  const BUTTON: Vec2 := Vec2((SCREEN_W / 2) as real, TARGET_Y)

  /** Squared distance to the button; it orders stones as distance_to does. */
  function DistSq(s: StoneState): real { LenSq(Sub(s.pos, BUTTON)) }

  /** In play and short of the half-way line y = WORLD_H / 2. */
  predicate Qualifies(s: StoneState) { !s.outOfPlay && s.pos.y < WORLD_H as real / 2.0 }

  /** The qualifying stones, in roster order. */
  function Qualifying(ss: seq<StoneState>): (r: seq<StoneState>)
    ensures |r| <= |ss|
    ensures forall k :: 0 <= k < |r| ==> Qualifies(r[k])
  {
    if ss == [] then []
    else
      var n := |ss| - 1;
      Qualifying(ss[..n]) + (if Qualifies(ss[n]) then [ss[n]] else [])
  }

  /** Exactly the stones in play short of the half-way line qualify, each as
      often as it occurs in the roster. */
  lemma {:induction false} QualifyingExactly(ss: seq<StoneState>)
    ensures forall s :: multiset(Qualifying(ss))[s] == if Qualifies(s) then multiset(ss)[s] else 0
  {
    if ss != [] {
      var n := |ss| - 1;
      assert ss == ss[..n] + [ss[n]];
      QualifyingExactly(ss[..n]);
    }
  }

  predicate SortedByDistance(v: seq<StoneState>) {
    forall p, q :: 0 <= p < q < |v| ==> DistSq(v[p]) <= DistSq(v[q])
  }

  /** Insert `x` before the first stone that is not nearer than it. */
  function Insert(x: StoneState, t: seq<StoneState>): (r: seq<StoneState>)
    ensures multiset(r) == multiset(t) + multiset{x}
    ensures |r| == |t| + 1
  {
    if t == [] || DistSq(x) <= DistSq(t[0]) then [x] + t
    else
      assert t == [t[0]] + t[1..];
      [t[0]] + Insert(x, t[1..])
  }

  lemma {:induction false} InsertSorted(x: StoneState, t: seq<StoneState>)
    requires SortedByDistance(t)
    ensures SortedByDistance(Insert(x, t))
    decreases |t|
  {
    if t == [] || DistSq(x) <= DistSq(t[0]) {
    } else {
      var rest := Insert(x, t[1..]);
      InsertSorted(x, t[1..]);
      forall k | 0 <= k < |rest| ensures DistSq(t[0]) <= DistSq(rest[k]) {
        InsertMembers(x, t[1..], k);
        if rest[k] != x {
          SortedHead(t, rest[k]);
        }
      }
      assert Insert(x, t) == [t[0]] + rest;
    }
  }

  /** Every stone of `Insert(x, t)` is `x` or a stone of `t`. */
  lemma InsertMembers(x: StoneState, t: seq<StoneState>, k: nat)
    requires k < |Insert(x, t)|
    ensures Insert(x, t)[k] == x || Insert(x, t)[k] in t
  {
    var r := Insert(x, t);
    assert r[k] in multiset(r);
  }

  /** The first stone of a sorted list is nearest. */
  lemma SortedHead(t: seq<StoneState>, y: StoneState)
    requires SortedByDistance(t) && t != [] && y in t[1..]
    ensures DistSq(t[0]) <= DistSq(y)
  {
    var m :| 0 <= m < |t[1..]| && t[1..][m] == y;
    assert t[m + 1] == y;
  }

  /** The stones of `v` whose squared distance to the button is `d`, in
      the order of `v`. */
  function AtDistance(v: seq<StoneState>, d: real): seq<StoneState>
    decreases |v|
  {
    if v == [] then []
    else (if DistSq(v[0]) == d then [v[0]] else []) + AtDistance(v[1..], d)
  }

  /** Inserting `x` in front of stones it is farther than keeps, at every
      distance, the order of `x` followed by `t`. */
  lemma {:induction false} InsertStable(x: StoneState, t: seq<StoneState>, d: real)
    ensures AtDistance(Insert(x, t), d) == AtDistance([x] + t, d)
    decreases |t|
  {
    if t == [] || DistSq(x) <= DistSq(t[0]) {
    } else {
      InsertStable(x, t[1..], d);
      assert ([t[0]] + Insert(x, t[1..]))[1..] == Insert(x, t[1..]);
      assert ([x] + t[1..])[1..] == t[1..];
      assert ([x] + t)[1..] == t;
      assert ([t[0]] + t[1..])[1..] == t[1..];
    }
  }

  /** Python's stable `sort(key=distance)`, as an insertion sort: a stone
      goes before every stone of equal distance that came after it, so
      stones at the same distance keep their roster order. */
  function SortByDistance(ss: seq<StoneState>): (r: seq<StoneState>)
    ensures SortedByDistance(r)
    ensures multiset(r) == multiset(ss)
    ensures |r| == |ss|
    ensures forall d :: AtDistance(r, d) == AtDistance(ss, d)
  {
    if ss == [] then []
    else
      assert ss == [ss[0]] + ss[1..];
      var t := SortByDistance(ss[1..]);
      InsertSorted(ss[0], t);
      forall d ensures AtDistance(Insert(ss[0], t), d) == AtDistance(ss, d) {
        InsertStable(ss[0], t, d);
        assert ([ss[0]] + t)[1..] == t;
      }
      Insert(ss[0], t)
  }

  /** The ordered list `valid` of get_score. */
  function Ranked(ss: seq<StoneState>): seq<StoneState> {
    SortByDistance(Qualifying(ss))
  }

  /** The number of leading stones of `v` that belong to `w`. */
  function LeadingRun(v: seq<StoneState>, w: Team): (r: nat)
    ensures r <= |v|
    ensures forall k :: 0 <= k < r ==> v[k].team == w
    ensures r < |v| ==> v[r].team != w
  {
    if v == [] || v[0].team != w then 0 else 1 + LeadingRun(v[1..], w)
  }

  /** get_score: (points for RED, points for YELLOW). */
  function Score(ss: seq<StoneState>): (int, int) {
    var v := Ranked(ss);
    if v == [] then (0, 0)
    else
      var pts := LeadingRun(v, v[0].team);
      if v[0].team == Red then (pts, 0) else (0, pts)
  }

  /** get_score with its counting loop. */
  method GetScore(stones: seq<StoneState>) returns (pr: int, py: int)
    ensures (pr, py) == Score(stones)
  {
    var valid := Ranked(stones);
    if valid == [] {
      return 0, 0;
    }
    var winner := valid[0].team;
    var pts := 0;
    var k := 0;
    while k < |valid|
      invariant 0 <= k <= |valid|
      invariant pts == k && forall m :: 0 <= m < k ==> valid[m].team == winner
    {
      if valid[k].team == winner {
        pts := pts + 1;
      } else {
        break;
      }
      k := k + 1;
    }
    assert pts == LeadingRun(valid, winner);
    if winner == Red {
      pr, py := pts, 0;
    } else {
      pr, py := 0, pts;
    }
  }

  /** No qualifying stone: (0, 0); otherwise the score is not (0, 0). */
  lemma ScoreZeroIffNoneQualify(ss: seq<StoneState>)
    ensures Score(ss) == (0, 0) <==> Qualifying(ss) == []
  {
    var q := Qualifying(ss);
    if q != [] {
      assert |Ranked(ss)| == |q| > 0;
    }
  }

  /** Only the nearest stone's team scores, between 1 and the number of
      qualifying stones. */
  lemma ScoreBounds(ss: seq<StoneState>)
    requires Qualifying(ss) != []
    ensures var (pr, py) := Score(ss);
            var w := Ranked(ss)[0].team;
            (w == Red ==> 1 <= pr <= |Qualifying(ss)| && py == 0) &&
            (w == Yellow ==> pr == 0 && 1 <= py <= |Qualifying(ss)|)
  {
    assert |Ranked(ss)| == |Qualifying(ss)|;
  }

  /** The scoring team's nearest stone is nearest of all, and no qualifying
      stone of the other team is nearer than any stone that scores. */
  lemma {:induction false} ScoredStonesAreNearest(ss: seq<StoneState>)
    requires Qualifying(ss) != []
    ensures var v := Ranked(ss);
            var w := v[0].team;
            var pts := LeadingRun(v, w);
            (forall s :: s in Qualifying(ss) ==> DistSq(v[0]) <= DistSq(s)) &&
            (forall s, k :: s in Qualifying(ss) && s.team != w && 0 <= k < pts ==> DistSq(v[k]) <= DistSq(s))
  {
    var q := Qualifying(ss);
    var v := Ranked(ss);
    var w := v[0].team;
    var pts := LeadingRun(v, w);
    forall s | s in q
      ensures DistSq(v[0]) <= DistSq(s)
      ensures s.team != w ==> forall k :: 0 <= k < pts ==> DistSq(v[k]) <= DistSq(s)
    {
      assert s in multiset(q);
      assert s in multiset(v);
      var m :| 0 <= m < |v| && v[m] == s;
      if s.team != w {
        assert m >= pts;
      }
    }
  }

  /** Three stones at distances 1, 2, 3 from the button with teams RED,
      RED, YELLOW score (2, 0). */
  lemma ScoreExampleRun()
    ensures Score([StoneAt(401.0, Red), StoneAt(402.0, Red), StoneAt(403.0, Yellow)]) == (2, 0)
  {
    var a, b, c := StoneAt(401.0, Red), StoneAt(402.0, Red), StoneAt(403.0, Yellow);
    QualifyingThree(a, b, c);
    SortedThree(a, b, c);
    RunOfTwo(a, b, c);
  }

  /** With RED, YELLOW, RED at increasing distances only the first counts:
      (1, 0). The stones are listed farthest first, so the sort matters. */
  lemma ScoreExampleBroken()
    ensures Score([StoneAt(403.0, Red), StoneAt(402.0, Yellow), StoneAt(401.0, Red)]) == (1, 0)
  {
    var a, b, c := StoneAt(401.0, Red), StoneAt(402.0, Yellow), StoneAt(403.0, Red);
    QualifyingThree(c, b, a);
    ReversedThree(a, b, c);
    RunOfOne(a, b, c);
  }

  lemma RunOfTwo(a: StoneState, b: StoneState, c: StoneState)
    requires a.team == Red && b.team == Red && c.team == Yellow
    ensures LeadingRun([a, b, c], Red) == 2
  {
    assert [a, b, c][1..] == [b, c];
    assert [b, c][1..] == [c];
    assert LeadingRun([c], Red) == 0;
    assert LeadingRun([b, c], Red) == 1;
  }

  lemma RunOfOne(a: StoneState, b: StoneState, c: StoneState)
    requires a.team == Red && b.team == Yellow
    ensures LeadingRun([a, b, c], Red) == 1
  {
    assert [a, b, c][1..] == [b, c];
  }

  /** A resting stone on the centre line at depth y. */
  function StoneAt(y: real, t: Team): StoneState {
    StoneState(Vec2(300.0, y), Zero, t, true, false)
  }

  lemma QualifyingThree(a: StoneState, b: StoneState, c: StoneState)
    requires Qualifies(a) && Qualifies(b) && Qualifies(c)
    ensures Qualifying([a, b, c]) == [a, b, c]
  {
    assert [a][..0] == [];
    assert Qualifying([a]) == [a];
    assert [a, b][..1] == [a];
    assert Qualifying([a, b]) == [a, b];
    assert [a, b, c][..2] == [a, b];
  }

  lemma Distances(a: StoneState, b: StoneState, c: StoneState)
    requires a == StoneAt(401.0, a.team) && b == StoneAt(402.0, b.team) && c == StoneAt(403.0, c.team)
    ensures DistSq(a) == 1.0 && DistSq(b) == 4.0 && DistSq(c) == 9.0
  {
    assert BUTTON == Vec2(300.0, 400.0);
  }

  lemma SortedThree(a: StoneState, b: StoneState, c: StoneState)
    requires a == StoneAt(401.0, a.team) && b == StoneAt(402.0, b.team) && c == StoneAt(403.0, c.team)
    ensures SortByDistance([a, b, c]) == [a, b, c]
  {
    Distances(a, b, c);
    assert [a, b, c][1..] == [b, c];
    assert [b, c][1..] == [c];
    assert [c][1..] == [];
    assert SortByDistance([c]) == [c];
    assert SortByDistance([b, c]) == [b, c];
  }

  lemma ReversedThree(a: StoneState, b: StoneState, c: StoneState)
    requires a == StoneAt(401.0, a.team) && b == StoneAt(402.0, b.team) && c == StoneAt(403.0, c.team)
    ensures SortByDistance([c, b, a]) == [a, b, c]
  {
    Distances(a, b, c);
    assert [c, b, a][1..] == [b, a];
    assert [b, a][1..] == [a];
    assert [a][1..] == [];
    assert SortByDistance([a]) == [a];
    assert Insert(b, [a]) == [a] + Insert(b, []);
    assert SortByDistance([b, a]) == [a, b];
    assert [a, b][1..] == [b];
    assert Insert(c, [b]) == [b] + Insert(c, []);
    assert Insert(c, [a, b]) == [a] + Insert(c, [b]);
  }
}
