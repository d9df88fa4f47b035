/** The aiming controls shared by both games: the lateral clamp and the
    oscillating power gauge (main.py AIMING branch, curling.py AIMING
    branch). */
module Controls {

  /** `max(lo, min(hi, x))`, as main.py writes the clamp. */
  function Clamp(x: real, lo: real, hi: real): (r: real)
    requires lo <= hi
    ensures lo <= r <= hi
    ensures lo <= x <= hi ==> r == x
    ensures x < lo ==> r == lo
    ensures x > hi ==> r == hi
  {
    if x > hi then hi else if x < lo then lo else x
  }

  /** One tick of the gauge while charging: move 0.5 in direction `dir`;
      at or past `top` stop at `top` and turn down, at or below 0 stop at 0
      and turn up. */
  function GaugeTick(charge: real, dir: int, top: real): (r: (real, int))
    requires top > 0.0
    ensures 0.0 <= r.0 <= top
    ensures dir == 1 || dir == -1 ==> r.1 == 1 || r.1 == -1
    ensures r.0 == top && charge + 0.5 * dir as real >= top ==> r.1 == -1
    ensures r.0 == 0.0 && charge + 0.5 * dir as real <= 0.0 ==> r.1 == 1
    ensures 0.0 < charge + 0.5 * dir as real < top ==> r == (charge + 0.5 * dir as real, dir)
  {
    var c := charge + 0.5 * dir as real;
    if c >= top then (top, -1)
    else if c <= 0.0 then (0.0, 1)
    else (c, dir)
  }

  /** The gauge runs up from 0 to `top` and back: starting at 0 going up,
      after k <= 2 * top ticks (steps of 0.5) the charge is k / 2. */
  function GaugeAfter(charge: real, dir: int, top: real, k: nat): (real, int)
    requires top > 0.0
    decreases k
  {
    if k == 0 then (charge, dir)
    else
      var (c, d) := GaugeTick(charge, dir, top);
      GaugeAfter(c, d, top, k - 1)
  }

  lemma {:induction false} GaugeRisesFromZero(charge: real, top: real, k: nat)
    requires top > 0.0 && 0.0 <= charge
    requires charge + 0.5 * k as real < top
    ensures GaugeAfter(charge, 1, top, k) == (charge + 0.5 * k as real, 1)
    decreases k
  {
    if k > 0 {
      assert GaugeTick(charge, 1, top) == (charge + 0.5, 1);
      GaugeRisesFromZero(charge + 0.5, top, k - 1);
    }
  }
}
