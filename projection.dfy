/** The two world-to-screen maps of the 3D game (main.py, project_3d and
    project_topdown). Screen coordinates are Python's `int()` of a real,
    which truncates toward zero. */
module Projection {
  import opened Vectors
  import opened Constants

  /** A projected point, or "not visible" (project_3d's `None, 0`). */
  datatype Projected = Hidden | Shown(x: int, y: int, scale: real)

  /** The far clip distance of project_3d: VIEW_DIST + 2000. */
  const FAR_CLIP: real := VIEW_DIST + 2000.0
  const NEAR_CLIP: real := 10.0
  const TOPDOWN_SCALE: real := 0.8

  /** Python's int() on a float: truncation toward zero. */
  function Trunc(r: real): (t: int)
    ensures r >= 0.0 ==> 0 <= t && t as real <= r < t as real + 1.0
    ensures r < 0.0 ==> t <= 0 && t as real - 1.0 < r <= t as real
  {
    if r >= 0.0 then r.Floor else -((-r).Floor)
  }

  /** Truncation is monotone. */
  lemma TruncMonotone(a: real, b: real)
    requires a <= b
    ensures Trunc(a) <= Trunc(b)
  {
    if a >= 0.0 {
      assert a.Floor <= b.Floor;
    } else if b < 0.0 {
      assert (-b).Floor <= (-a).Floor;
    }
  }

  /** project_3d(world_pos, camera_y). */
  function Project3D(p: Vec2, cameraY: real): (r: Projected)
    ensures r.Shown? <==> NEAR_CLIP <= cameraY - p.y <= FAR_CLIP
    ensures r.Shown? ==> r.scale == FOCAL_LENGTH / (cameraY - p.y) && r.scale > 0.0
    ensures r.Shown? ==> r.y > HORIZON_Y.Floor
  {
    var relY := cameraY - p.y;
    if relY < NEAR_CLIP then Hidden
    else if relY > FAR_CLIP then Hidden
    else
      var scale := FOCAL_LENGTH / relY;
      assert scale >= FOCAL_LENGTH / FAR_CLIP by { DivideMonotone(FOCAL_LENGTH, relY, FAR_CLIP); }
      var screenY := HORIZON_Y + CAMERA_HEIGHT * scale;
      var centerX := SCREEN_W as real / 2.0;
      var screenX := centerX + (p.x - centerX) * scale;
      Shown(Trunc(screenX), Trunc(screenY), scale)
  }

  lemma DivideMonotone(c: real, a: real, b: real)
    requires c > 0.0 && 0.0 < a <= b
    ensures c / a >= c / b > 0.0
  {
    assert c / a * a == c;
    assert c / b * b == c;
  }

  /** Of two visible points, the nearer one is drawn larger and no higher on
      the screen. */
  lemma NearerLooksLarger(p: Vec2, q: Vec2, cameraY: real)
    requires Project3D(p, cameraY).Shown? && Project3D(q, cameraY).Shown?
    requires cameraY - p.y <= cameraY - q.y
    ensures Project3D(p, cameraY).scale >= Project3D(q, cameraY).scale
    ensures Project3D(p, cameraY).y >= Project3D(q, cameraY).y
  {
    var a, b := cameraY - p.y, cameraY - q.y;
    DivideMonotone(FOCAL_LENGTH, a, b);
    var sa, sb := FOCAL_LENGTH / a, FOCAL_LENGTH / b;
    assert CAMERA_HEIGHT * sa >= CAMERA_HEIGHT * sb;
    TruncMonotone(HORIZON_Y + CAMERA_HEIGHT * sb, HORIZON_Y + CAMERA_HEIGHT * sa);
  }

  /** The centre line x = SCREEN_W / 2 projects onto the screen's centre
      column whenever it is visible. */
  lemma CentreLineStaysCentred(y: real, cameraY: real)
    requires Project3D(Vec2(300.0, y), cameraY).Shown?
    ensures Project3D(Vec2(300.0, y), cameraY).x == 300
  {
  }

  /** project_topdown(world_pos): always visible, scale 0.8. */
  function ProjectTopdown(p: Vec2): (r: Projected)
    ensures r.Shown? && r.scale == TOPDOWN_SCALE
  {
    var scale := TOPDOWN_SCALE;
    var half := (SCREEN_W / 2) as real;
    var screenX := half + (p.x - half) * scale;
    var screenY := (SCREEN_H / 2) as real + (p.y - TARGET_Y) * scale;
    Shown(Trunc(screenX), Trunc(screenY), scale)
  }

  /** The button (SCREEN_W / 2, TARGET_Y) is drawn at the screen's centre, and
      the top-down map keeps left-right and near-far order. */
  lemma TopdownCentredAndMonotone(p: Vec2, q: Vec2)
    ensures ProjectTopdown(Vec2(300.0, TARGET_Y)) == Shown(SCREEN_W / 2, SCREEN_H / 2, TOPDOWN_SCALE)
    ensures p.x <= q.x ==> ProjectTopdown(p).x <= ProjectTopdown(q).x
    ensures p.y <= q.y ==> ProjectTopdown(p).y <= ProjectTopdown(q).y
  {
    if p.x <= q.x {
      TruncMonotone(300.0 + (p.x - 300.0) * 0.8, 300.0 + (q.x - 300.0) * 0.8);
    }
    if p.y <= q.y {
      TruncMonotone(400.0 + (p.y - TARGET_Y) * 0.8, 400.0 + (q.y - TARGET_Y) * 0.8);
    }
  }
}
