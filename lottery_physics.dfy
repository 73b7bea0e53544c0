/** The straight-line kinematics of the ball-drop lottery (lottery_ball.py).
    Positions and velocities are reals: the source uses Python floats, whose
    rounding is not modelled. Square roots are not computed here: a resolver
    receives the distance its caller measured, and a property that depends on
    that distance being exact says so in its requires. */
module LotteryPhysics {

  // The playing field, in pixels.
  const GameLeft: real := 50.0
  const GameRight: real := 850.0
  const GameTop: real := 100.0
  const FunnelTopY: real := 620.0
  const FunnelHeight: real := 120.0
  const FunnelBottomY: real := 740.0
  const FunnelX: real := 450.0
  const FunnelTopWidth: real := 180.0
  const FunnelBottomWidth: real := 45.0

  // Every ball has the same radius and material constants.
  const BallRadius: real := 16.0
  const Gravity: real := 0.4
  const Friction: real := 0.995
  const Bounce: real := 0.7

  /** A ball finishes once its centre is below this line. */
  const FinishY: real := 770.0

  const StuckWindow: nat := 30
  const StuckMovement: real := 2.0

  /** The position and velocity of one ball. */
  datatype Motion = Motion(x: real, y: real, dx: real, dy: real)

  function Abs(v: real): real {
    if v < 0.0 then -v else v
  }

  /** Gravity, friction, then one step of the position (lottery_ball.py:239-242). */
  function Advance(m: Motion): Motion {
    var dx := m.dx * Friction;
    var dy := m.dy + Gravity;
    Motion(m.x + dx, m.y + dy, dx, dy)
  }

  /** The side walls and the ceiling; there is no floor. */
  function Walls(m: Motion): Motion {
    var (x, dx) :=
      if m.x <= GameLeft + BallRadius then (GameLeft + BallRadius, Abs(m.dx) * Bounce)
      else if m.x >= GameRight - BallRadius then (GameRight - BallRadius, -Abs(m.dx) * Bounce)
      else (m.x, m.dx);
    var (y, dy) :=
      if m.y <= GameTop + BallRadius then (GameTop + BallRadius, Abs(m.dy) * Bounce)
      else (m.y, m.dy);
    Motion(x, y, dx, dy)
  }

  /** The walls keep the ball within the sides and below the ceiling: a ball
      past a side or the ceiling is put back on it with its speed turned
      inwards and damped, a ball inside is left alone, and no speed grows. */
  lemma WallsBounds(m: Motion)
    ensures GameLeft + BallRadius <= Walls(m).x <= GameRight - BallRadius
    ensures GameTop + BallRadius <= Walls(m).y
    ensures m.x <= GameLeft + BallRadius ==> Walls(m).x == GameLeft + BallRadius && Walls(m).dx >= 0.0
    ensures GameLeft + BallRadius < m.x && m.x >= GameRight - BallRadius ==>
      Walls(m).x == GameRight - BallRadius && Walls(m).dx <= 0.0
    ensures GameLeft + BallRadius < m.x < GameRight - BallRadius ==> Walls(m).x == m.x && Walls(m).dx == m.dx
    ensures m.y <= GameTop + BallRadius ==> Walls(m).y == GameTop + BallRadius && Walls(m).dy >= 0.0
    ensures m.y > GameTop + BallRadius ==> Walls(m).y == m.y && Walls(m).dy == m.dy
    ensures Abs(Walls(m).dx) <= Abs(m.dx) && Abs(Walls(m).dy) <= Abs(m.dy)
  {
  }

  // ---------------------------------------------------------------------
  // Contact geometry shared by the peg, platform, spinner and pair resolvers

  /** The source measures a distance with math.sqrt and divides the offset
      by it to get the contact normal. The measurement is exact when that
      normal has length 1; properties that need it require this. */
  predicate ExactDistance(ex: real, ey: real, dist: real) {
    dist > 0.0 && (ex / dist) * (ex / dist) + (ey / dist) * (ey / dist) == 1.0
  }

  lemma QuotientTimes(a: real, b: real)
    requires b != 0.0
    ensures (a / b) * b == a
  {
  }

  /** Pushing a point x away from cx along the normal (x - cx) / dist by
      overlap moves it to distance dist + overlap along that normal. */
  lemma PushAlong(x: real, cx: real, dist: real, overlap: real)
    requires dist > 0.0
    ensures x + (x - cx) / dist * overlap - cx == (x - cx) / dist * (dist + overlap)
  {
    QuotientTimes(x - cx, dist);
  }

  /** A unit vector scaled by k has length |k|. */
  lemma ScaledLength(nx: real, ny: real, k: real)
    requires nx * nx + ny * ny == 1.0
    ensures (nx * k) * (nx * k) + (ny * k) * (ny * k) == k * k
  {
    assert (nx * k) * (nx * k) + (ny * k) * (ny * k) == (nx * nx + ny * ny) * (k * k);
  }

  /** The squared distance between two points. */
  function SqDist(x1: real, y1: real, x2: real, y2: real): real {
    (x1 - x2) * (x1 - x2) + (y1 - y2) * (y1 - y2)
  }

  lemma SqDistOffset(x1: real, y1: real, x2: real, y2: real, ex: real, ey: real)
    requires x1 - x2 == ex && y1 - y2 == ey
    ensures SqDist(x1, y1, x2, y2) == ex * ex + ey * ey
  {
  }

  /** A point (x, y) at exact distance dist from (cx, cy), pushed out along
      the normal by reach - dist, ends at distance exactly reach. */
  lemma PushOutDistance(x: real, y: real, cx: real, cy: real, dist: real, reach: real)
    requires ExactDistance(x - cx, y - cy, dist)
    ensures SqDist(x + (x - cx) / dist * (reach - dist), y + (y - cy) / dist * (reach - dist), cx, cy)
            == reach * reach
  {
    PushAlong(x, cx, dist, reach - dist);
    PushAlong(y, cy, dist, reach - dist);
    SqDistOffset(x + (x - cx) / dist * (reach - dist), y + (y - cy) / dist * (reach - dist), cx, cy,
                 (x - cx) / dist * reach, (y - cy) / dist * reach);
    ScaledLength((x - cx) / dist, (y - cy) / dist, reach);
  }

  /** The point of a segment nearest to (px, py), as platforms and spinners compute it. */
  datatype Projection = Projection(t: real, cx: real, cy: real)

  function Clamp01(v: real): (r: real)
    ensures 0.0 <= r <= 1.0
    ensures 0.0 <= v <= 1.0 ==> r == v
  {
    if v < 0.0 then 0.0 else if v > 1.0 then 1.0 else v
  }

  /** The dot product of (ux, uy) and (vx, vy). */
  function Dot(ux: real, uy: real, vx: real, vy: real): real {
    ux * vx + uy * vy
  }

  function Project(x1: real, y1: real, x2: real, y2: real, px: real, py: real): (r: Projection)
    requires Dot(x2 - x1, y2 - y1, x2 - x1, y2 - y1) != 0.0
    ensures 0.0 <= r.t <= 1.0
    ensures r.cx == x1 + r.t * (x2 - x1) && r.cy == y1 + r.t * (y2 - y1)
  {
    var dx, dy := x2 - x1, y2 - y1;
    var t := Clamp01(Dot(px - x1, py - y1, dx, dy) / Dot(dx, dy, dx, dy));
    Projection(t, x1 + t * dx, y1 + t * dy)
  }


  /** The clamped projection really is the nearest point of the segment: no
      point x1 + s * (x2 - x1), 0 <= s <= 1, is closer to (px, py). */
  lemma ProjectIsNearest(x1: real, y1: real, x2: real, y2: real, px: real, py: real, s: real)
    requires Dot(x2 - x1, y2 - y1, x2 - x1, y2 - y1) != 0.0
    requires 0.0 <= s <= 1.0
    ensures var p := Project(x1, y1, x2, y2, px, py);
            SqDist(px, py, p.cx, p.cy) <= SqDist(px, py, x1 + s * (x2 - x1), y1 + s * (y2 - y1))
  {
    var dx, dy := x2 - x1, y2 - y1;
    var len := Dot(dx, dy, dx, dy);
    var dot := Dot(px - x1, py - y1, dx, dy);
    var p := Project(x1, y1, x2, y2, px, py);
    SquaresNonNegative(dx, dy);
    SqDistAlong(px, py, x1, y1, dx, dy, s);
    SqDistAlong(px, py, x1, y1, dx, dy, p.t);
    NearestParameter(Dot(dx, dy, dx, dy), Dot(px - x1, py - y1, dx, dy), p.t, s);
  }

  /** The quadratic u -> u * u * len - 2 * u * dot has its minimum over [0, 1]
      at the clamped vertex dot / len. */
  lemma NearestParameter(len: real, dot: real, t: real, s: real)
    requires len >= 0.0 && len != 0.0
    requires t == Clamp01(dot / len)
    requires 0.0 <= s <= 1.0
    ensures t * t * len - 2.0 * t * dot <= s * s * len - 2.0 * s * dot
  {
    assert (s * s * len - 2.0 * s * dot) - (t * t * len - 2.0 * t * dot)
        == (s - t) * (s - t) * len - 2.0 * (s - t) * (dot - t * len);
    assert (s - t) * (s - t) * len >= 0.0 by { MulSigns((s - t) * (s - t), len); }
    QuotientTimes(dot, len);
    if dot / len < 0.0 {
      assert t == 0.0;
      assert dot < 0.0 by { QuotientSign(dot, len); }
      assert (s - t) * (dot - t * len) == s * dot;
      assert s * (-dot) >= 0.0 by { MulSigns(s, -dot); }
    } else if dot / len > 1.0 {
      assert t == 1.0;
      assert dot - len == (dot / len - 1.0) * len;
      assert dot - len >= 0.0 by { MulSigns(dot / len - 1.0, len); }
      assert (s - t) * (dot - t * len) == -((1.0 - s) * (dot - len));
      assert (1.0 - s) * (dot - len) >= 0.0 by { MulSigns(1.0 - s, dot - len); }
    } else {
      assert t == dot / len;
      MulEqual(t, dot / len, len);
      assert dot - t * len == 0.0;
    }
  }


  lemma QuotientSign(a: real, b: real)
    requires b > 0.0 && a / b < 0.0
    ensures a < 0.0
  {
  }

  lemma MulEqual(a: real, b: real, c: real)
    requires a == b
    ensures a * c == b * c
  {
  }

  /** The squared distance from (px, py) to the point of parameter u on the
      line through (x1, y1) with direction (dx, dy). */
  lemma SqDistAlong(px: real, py: real, x1: real, y1: real, dx: real, dy: real, u: real)
    ensures SqDist(px, py, x1 + u * dx, y1 + u * dy) ==
      SqDist(px, py, x1, y1) + (u * u * Dot(dx, dy, dx, dy) - 2.0 * u * Dot(px - x1, py - y1, dx, dy))
  {
    var ax, ay := px - x1, py - y1;
    assert px - (x1 + u * dx) == ax - u * dx;
    assert py - (y1 + u * dy) == ay - u * dy;
  }

  lemma SquaresNonNegative(dx: real, dy: real)
    ensures Dot(dx, dy, dx, dy) >= 0.0
  {
  }

  lemma MulSigns(a: real, b: real)
    requires 0.0 <= a && 0.0 <= b
    ensures 0.0 <= a * b
  {
  }

  // ---------------------------------------------------------------------
  // Pegs (lottery_ball.py:259-274)

  /** A peg of radius pr at (px, py) is hit when the measured distance is in (0, r + pr). */
  predicate PegContact(pr: real, dist: real) {
    dist < BallRadius + pr && dist > 0.0
  }

  /** A hit reflects the velocity in the contact normal (nx, ny), damps it by
      the bounce factor, adds the horizontal jitter and pushes the ball out
      along the normal by the overlap. */
  function PegBounce(m: Motion, nx: real, ny: real, overlap: real, jitter: real): Motion {
    var dot := m.dx * nx + m.dy * ny;
    Motion(m.x + nx * overlap, m.y + ny * overlap,
           (m.dx - 2.0 * dot * nx) * Bounce + jitter, (m.dy - 2.0 * dot * ny) * Bounce)
  }

  /** The peg test and resolution for one peg of radius pr at (px, py), given
      the measured distance of the ball's centre from the peg's. */
  function PegStep(m: Motion, px: real, py: real, pr: real, dist: real, jitter: real): (r: Motion)
    ensures !PegContact(pr, dist) ==> r == m
  {
    if PegContact(pr, dist) then
      PegBounce(m, (m.x - px) / dist, (m.y - py) / dist, BallRadius + pr - dist, jitter)
    else m
  }

  /** For a unit normal, a peg bounce reverses the normal component of the
      velocity and keeps the tangential one, both damped by the bounce factor
      (before the jitter). */
  lemma PegBounceReflects(m: Motion, nx: real, ny: real, overlap: real, jitter: real)
    requires nx * nx + ny * ny == 1.0
    ensures var r := PegBounce(m, nx, ny, overlap, jitter);
            (r.dx - jitter) * nx + r.dy * ny == -Bounce * (m.dx * nx + m.dy * ny) &&
            (r.dx - jitter) * ny - r.dy * nx == Bounce * (m.dx * ny - m.dy * nx)
  {
    var dot := m.dx * nx + m.dy * ny;
    var rx, ry := m.dx - 2.0 * dot * nx, m.dy - 2.0 * dot * ny;
    Reflection(m.dx, m.dy, nx, ny, 2.0);
    assert (rx * Bounce) * nx + (ry * Bounce) * ny == Bounce * (rx * nx + ry * ny);
    assert (rx * Bounce) * ny - (ry * Bounce) * nx == Bounce * (rx * ny - ry * nx);
  }

  /** With an exact distance, a peg hit leaves the ball exactly touching the peg. */
  lemma PegStepTouches(m: Motion, px: real, py: real, pr: real, dist: real, jitter: real)
    requires PegContact(pr, dist)
    requires ExactDistance(m.x - px, m.y - py, dist)
    ensures var r := PegStep(m, px, py, pr, dist, jitter);
            SqDist(r.x, r.y, px, py) == (BallRadius + pr) * (BallRadius + pr)
  {
    PushOutDistance(m.x, m.y, px, py, dist, BallRadius + pr);
  }

  /** The algebra of a reflection v - c * dot * n, for a unit normal n: the
      normal component is scaled by 1 - c, the tangential one is kept. */
  lemma Reflection(vx: real, vy: real, nx: real, ny: real, c: real)
    requires nx * nx + ny * ny == 1.0
    ensures var dot := vx * nx + vy * ny;
            (vx - c * dot * nx) * nx + (vy - c * dot * ny) * ny == (1.0 - c) * dot &&
            (vx - c * dot * nx) * ny - (vy - c * dot * ny) * nx == vx * ny - vy * nx
  {
    var dot := vx * nx + vy * ny;
    assert (vx - c * dot * nx) * nx + (vy - c * dot * ny) * ny == dot - c * dot * (nx * nx + ny * ny);
  }

  // ---------------------------------------------------------------------
  // Platforms (lottery_ball.py:84-113)

  /** A platform hit with the ball moving into it (dot < 0) reflects the normal
      velocity with the bounce factor, pushes the ball out by the overlap and
      adds the jitter; a touch with the ball already moving away changes nothing. */
  function PlatformBounce(m: Motion, nx: real, ny: real, overlap: real, jitter: real): (r: Motion)
    ensures m.dx * nx + m.dy * ny >= 0.0 ==> r == m
  {
    var dot := m.dx * nx + m.dy * ny;
    if dot < 0.0 then
      Motion(m.x + nx * overlap, m.y + ny * overlap,
             m.dx - 2.0 * dot * nx * Bounce + jitter, m.dy - 2.0 * dot * ny * Bounce)
    else m
  }

  /** For a unit normal, a platform bounce turns an approaching ball into one
      that moves away (normal speed -0.4 times the old one, before the
      jitter) and keeps its tangential velocity unchanged. */
  lemma PlatformBounceSeparates(m: Motion, nx: real, ny: real, overlap: real, jitter: real)
    requires nx * nx + ny * ny == 1.0
    requires m.dx * nx + m.dy * ny < 0.0
    ensures var r := PlatformBounce(m, nx, ny, overlap, jitter);
            (r.dx - jitter) * nx + r.dy * ny == (1.0 - 2.0 * Bounce) * (m.dx * nx + m.dy * ny) > 0.0 &&
            (r.dx - jitter) * ny - r.dy * nx == m.dx * ny - m.dy * nx
  {
    Reflection(m.dx, m.dy, nx, ny, 2.0 * Bounce);
    var dot := m.dx * nx + m.dy * ny;
    assert m.dx - 2.0 * dot * nx * Bounce == m.dx - 2.0 * Bounce * dot * nx;
    assert m.dy - 2.0 * dot * ny * Bounce == m.dy - 2.0 * Bounce * dot * ny;
  }

  /** The contact test shared by platforms and spinners: the measured distance
      to the nearest point is in (0, r + thickness / 2). */
  predicate SegmentContact(thickness: real, dist: real) {
    dist < BallRadius + thickness / 2.0 && dist > 0.0
  }

  // ---------------------------------------------------------------------
  // Spinners (lottery_ball.py:156-164)

  /** A spinner hit kicks the ball along the normal and in the turning
      direction and pushes it out of the bar; the bar's own speed enters the
      horizontal kick. */
  function SpinnerKick(m: Motion, nx: real, ny: real, overlap: real, speed: real): Motion {
    Motion(m.x + nx * overlap, m.y + ny * overlap, m.dx + nx * 3.0 + speed * 20.0, m.dy + ny * 2.0)
  }

  /** For a unit normal the kick adds 2 + nx^2 + 20 * speed * nx to the
      velocity along the normal, so a bar turning slower than 0.1 per tick
      always drives the ball away from itself. */
  lemma SpinnerKickRepels(m: Motion, nx: real, ny: real, overlap: real, speed: real)
    requires nx * nx + ny * ny == 1.0
    ensures var r := SpinnerKick(m, nx, ny, overlap, speed);
      (r.dx - m.dx) * nx + (r.dy - m.dy) * ny == 2.0 + nx * nx + 20.0 * speed * nx &&
      (-0.1 < speed < 0.1 ==> (r.dx - m.dx) * nx + (r.dy - m.dy) * ny > 0.0)
  {
    var r := SpinnerKick(m, nx, ny, overlap, speed);
    assert (r.dx - m.dx) * nx + (r.dy - m.dy) * ny == 3.0 * (nx * nx) + 2.0 * (ny * ny) + 20.0 * speed * nx;
    if -0.1 < speed < 0.1 {
      assert nx * nx <= 1.0;
      assert -1.0 <= nx <= 1.0 by {
        if nx > 1.0 { MulSigns(nx - 1.0, nx + 1.0); }
        if nx < -1.0 { MulSigns(-1.0 - nx, 1.0 - nx); }
      }
      assert -2.0 < 20.0 * speed * nx < 2.0 by {
        if nx >= 0.0 {
          MulSigns(0.1 - speed, nx);
          MulSigns(speed + 0.1, nx);
        } else {
          MulSigns(0.1 - speed, -nx);
          MulSigns(speed + 0.1, -nx);
        }
      }
    }
  }

  /** With an exact distance dist to the bar's nearest point (cx, cy), the
      kick pushes the ball out to exactly r + thickness / 2 from it. */
  lemma SpinnerKickTouches(m: Motion, cx: real, cy: real, dist: real, thickness: real, speed: real)
    requires ExactDistance(m.x - cx, m.y - cy, dist)
    ensures var r := SpinnerKick(m, (m.x - cx) / dist, (m.y - cy) / dist, BallRadius + thickness / 2.0 - dist, speed);
      SqDist(r.x, r.y, cx, cy) == (BallRadius + thickness / 2.0) * (BallRadius + thickness / 2.0)
  {
    PushOutDistance(m.x, m.y, cx, cy, dist, BallRadius + thickness / 2.0);
  }

  // ---------------------------------------------------------------------
  // Bounce pads (lottery_ball.py:185-194)

  predicate InPadBox(m: Motion, x: real, y: real, width: real, height: real) {
    x - width / 2.0 < m.x < x + width / 2.0 &&
    y - height < m.y + BallRadius < y + height
  }

  /** A pad fires on a falling ball: it is thrown up at least 5 px per tick,
      faster the faster it fell, and gets a horizontal jitter of at most 3. */
  function PadBoost(m: Motion, jitter: real): (r: Motion)
    requires m.dy > 0.0
    requires -3.0 <= jitter <= 3.0
    ensures r.dy <= -5.0 && r.dy < -m.dy
    ensures r.x == m.x && r.y == m.y
    ensures -3.0 <= r.dx - m.dx <= 3.0
  {
    Motion(m.x, m.y, m.dx + jitter, -Abs(m.dy) * 1.5 - 5.0)
  }

  // ---------------------------------------------------------------------
  // Hit and activity timers (lottery_ball.py:70-73, 196-200)

  /** One tick of a peg's hit timer or a pad's active timer. */
  datatype Timer = Timer(on: bool, count: int)

  function Countdown(s: Timer): (r: Timer)
    ensures !s.on ==> r == s
    ensures s.on ==> r.count == s.count - 1 && (r.on <==> s.count > 1)
  {
    if s.on then
      var c := s.count - 1;
      Timer(c > 0, c)
    else s
  }

  function CountdownTimes(s: Timer, n: nat): Timer {
    if n == 0 then s else Countdown(CountdownTimes(s, n - 1))
  }

  /** A timer started at t >= 1 is still on after k < t ticks (showing t - k),
      and goes off at exactly the t-th tick. */
  lemma {:induction false} CountdownClears(t: int, k: nat)
    requires t >= 1 && k <= t
    ensures CountdownTimes(Timer(true, t), k) == Timer(k < t, t - k)
  {
    if k > 0 {
      CountdownClears(t, k - 1);
    }
  }

  // ---------------------------------------------------------------------
  // The stuck detector (lottery_ball.py:289-296)

  datatype Stuck = Stuck(timer: nat, count: nat)

  predicate StuckValid(s: Stuck) {
    s.timer < StuckWindow
  }

  /** One tick: a vertical movement below 2 px advances the window, a full
      window of 30 such ticks raises the count, any larger movement empties
      the window. */
  function StuckStep(s: Stuck, yMovement: real): (r: Stuck)
    requires StuckValid(s)
    ensures StuckValid(r)
    ensures yMovement >= StuckMovement ==> r == Stuck(0, s.count)
    ensures yMovement < StuckMovement ==>
      r.timer == (s.timer + 1) % StuckWindow && r.count == s.count + (s.timer + 1) / StuckWindow
  {
    if yMovement < StuckMovement then
      var t := s.timer + 1;
      if t >= StuckWindow then Stuck(0, s.count + 1) else Stuck(t, s.count)
    else Stuck(0, s.count)
  }

  /** The detector run over the vertical movements of consecutive ticks, in order. */
  function StuckTicks(s: Stuck, moves: seq<real>): (r: Stuck)
    requires StuckValid(s)
    ensures StuckValid(r)
    decreases |moves|
  {
    if |moves| == 0 then s else StuckStep(StuckTicks(s, moves[..|moves| - 1]), moves[|moves| - 1])
  }

  /** Consecutive ticks that each move less than 2 px raise the count by
      exactly one per full window of 30 ticks. */
  lemma {:induction false} StillTicksCount(s: Stuck, moves: seq<real>)
    requires StuckValid(s)
    requires forall i :: 0 <= i < |moves| ==> moves[i] < StuckMovement
    ensures StuckTicks(s, moves) ==
            Stuck((s.timer + |moves|) % StuckWindow, s.count + (s.timer + |moves|) / StuckWindow)
    decreases |moves|
  {
    if |moves| > 0 {
      StillTicksCount(s, moves[..|moves| - 1]);
      WindowAdvance(s.timer + |moves| - 1);
    }
  }

  /** Adding one tick to n ticks, split into full windows and a remainder. */
  lemma WindowAdvance(n: nat)
    ensures (n % StuckWindow + 1) % StuckWindow == (n + 1) % StuckWindow
    ensures n / StuckWindow + (n % StuckWindow + 1) / StuckWindow == (n + 1) / StuckWindow
  {
    var q, r := n / StuckWindow, n % StuckWindow;
    assert n == q * StuckWindow + r;
    if r + 1 == StuckWindow {
      assert n + 1 == (q + 1) * StuckWindow;
    } else {
      assert n + 1 == q * StuckWindow + (r + 1);
    }
  }

  // ---------------------------------------------------------------------
  // The funnel (lottery_ball.py:301-322)

  /** How far down the funnel a height is, clamped to [0, 1]. */
  function FunnelProgress(y: real): (p: real)
    ensures 0.0 <= p <= 1.0
    ensures y <= FunnelTopY ==> p == 0.0
    ensures y >= FunnelBottomY ==> p == 1.0
  {
    Clamp01((y - FunnelTopY) / FunnelHeight)
  }

  /** The width of the funnel opening at height y: 180 at the top, 45 at the
      bottom, linear in between. */
  function FunnelWidth(y: real): (w: real)
    ensures FunnelBottomWidth <= w <= FunnelTopWidth
    ensures y <= FunnelTopY ==> w == FunnelTopWidth
    ensures y >= FunnelBottomY ==> w == FunnelBottomWidth
  {
    FunnelTopWidth - (FunnelTopWidth - FunnelBottomWidth) * FunnelProgress(y)
  }

  /** The funnel only narrows going down. */
  lemma FunnelNarrows(y1: real, y2: real)
    requires y1 <= y2
    ensures FunnelWidth(y2) <= FunnelWidth(y1)
  {
    assert (y1 - FunnelTopY) / FunnelHeight <= (y2 - FunnelTopY) / FunnelHeight;
  }

  /** The funnel walls at height y, on either side of its centre line. */
  function FunnelLeft(y: real): (r: real)
    ensures FunnelX - FunnelTopWidth / 2.0 <= r <= FunnelX - FunnelBottomWidth / 2.0
  {
    FunnelX - FunnelWidth(y) / 2.0
  }

  function FunnelRight(y: real): (r: real)
    ensures FunnelX + FunnelBottomWidth / 2.0 <= r <= FunnelX + FunnelTopWidth / 2.0
    ensures r - FunnelLeft(y) == FunnelWidth(y)
  {
    FunnelX + FunnelWidth(y) / 2.0
  }

  /** The funnel region of move. */
  function Funnel(m: Motion): Motion
  {
    if m.y + BallRadius > FunnelTopY then
      var left, right := FunnelLeft(m.y), FunnelRight(m.y);
      if m.x < left - 10.0 || m.x > right + 10.0 then
        Motion(m.x, FunnelTopY - BallRadius, if m.x < FunnelX then m.dx + 3.0 else m.dx - 3.0,
               -Abs(m.dy) * Bounce * 0.5)
      else if m.x - BallRadius < left then
        Motion(left + BallRadius, m.y, Abs(m.dx) * 0.3 + 2.0, m.dy)
      else if m.x + BallRadius > right then
        Motion(right - BallRadius, m.y, -Abs(m.dx) * 0.3 - 2.0, m.dy)
      else m
    else m
  }

  /** A ball overlapping the funnel's top line is either bounced back up onto
      the floor beside the funnel (when it is more than 10 px outside the
      opening), with its horizontal speed nudged towards the middle, or kept
      between the funnel walls, with its horizontal speed turned inwards. */
  lemma FunnelCases(m: Motion)
    ensures m.y + BallRadius <= FunnelTopY ==> Funnel(m) == m
    ensures m.y + BallRadius > FunnelTopY && Rejected(m) ==>
      Funnel(m).y == FunnelTopY - BallRadius && Funnel(m).dy <= 0.0 && Funnel(m).x == m.x &&
      Funnel(m).dx == (if m.x < FunnelX then m.dx + 3.0 else m.dx - 3.0)
    ensures m.y + BallRadius > FunnelTopY && !Rejected(m) ==>
      Funnel(m).y == m.y && Funnel(m).dy == m.dy &&
      FunnelLeft(m.y) <= Funnel(m).x - BallRadius && Funnel(m).x + BallRadius <= FunnelRight(m.y)
    ensures m.y + BallRadius > FunnelTopY && !Rejected(m) && m.x - BallRadius < FunnelLeft(m.y) ==>
      Funnel(m).dx >= 2.0
    ensures m.y + BallRadius > FunnelTopY && !Rejected(m) && m.x - BallRadius >= FunnelLeft(m.y) &&
            m.x + BallRadius > FunnelRight(m.y) ==>
      Funnel(m).dx <= -2.0
  {
  }

  predicate Rejected(m: Motion) {
    m.x < FunnelLeft(m.y) - 10.0 || m.x > FunnelRight(m.y) + 10.0
  }

  // ---------------------------------------------------------------------
  // Two balls (lottery_ball.py:332-354)

  datatype Pair = Pair(a: Motion, b: Motion)

  predicate PairContact(dist: real) {
    dist < BallRadius + BallRadius && dist > 0.0
  }

  /** The relative velocity of a towards b along the normal from a to b. */
  function Approach(a: Motion, b: Motion, dist: real): real
    requires dist > 0.0
  {
    (a.dx - b.dx) * ((b.x - a.x) / dist) + (a.dy - b.dy) * ((b.y - a.y) / dist)
  }

  /** Two touching balls that approach each other exchange half the normal
      component of their relative velocity; touching balls are then pushed
      apart symmetrically. The summed position and velocity of the pair never
      change, and velocities change only when the balls approach. */
  function Exchange(a: Motion, b: Motion, dist: real): (r: Pair)
    ensures r.a.dx + r.b.dx == a.dx + b.dx && r.a.dy + r.b.dy == a.dy + b.dy
    ensures r.a.x + r.b.x == a.x + b.x && r.a.y + r.b.y == a.y + b.y
    ensures !PairContact(dist) ==> r == Pair(a, b)
    ensures PairContact(dist) && Approach(a, b, dist) <= 0.0 ==>
      r.a.dx == a.dx && r.a.dy == a.dy && r.b.dx == b.dx && r.b.dy == b.dy
  {
    if PairContact(dist) then
      var nx, ny := (b.x - a.x) / dist, (b.y - a.y) / dist;
      var dvn := Approach(a, b, dist);
      var k := if dvn > 0.0 then dvn * 0.5 else 0.0;
      var overlap := (BallRadius + BallRadius - dist) / 2.0;
      Pair(Motion(a.x - nx * overlap, a.y - ny * overlap, a.dx - k * nx, a.dy - k * ny),
           Motion(b.x + nx * overlap, b.y + ny * overlap, b.dx + k * nx, b.dy + k * ny))
    else Pair(a, b)
  }

  /** With an exact distance, an exchange between approaching balls leaves
      them with no normal relative velocity, and any exchange leaves the two
      centres exactly two radii apart. */
  lemma ExchangeSeparates(a: Motion, b: Motion, dist: real)
    requires PairContact(dist)
    requires ExactDistance(b.x - a.x, b.y - a.y, dist)
    ensures var r := Exchange(a, b, dist);
            (Approach(a, b, dist) > 0.0 ==>
               (r.a.dx - r.b.dx) * ((b.x - a.x) / dist) + (r.a.dy - r.b.dy) * ((b.y - a.y) / dist) == 0.0) &&
            SqDist(r.b.x, r.b.y, r.a.x, r.a.y) == (BallRadius + BallRadius) * (BallRadius + BallRadius)
  {
    var r := Exchange(a, b, dist);
    if Approach(a, b, dist) > 0.0 {
      Reflection(a.dx - b.dx, a.dy - b.dy, (b.x - a.x) / dist, (b.y - a.y) / dist, 1.0);
    }
    PushOutDistance(b.x, b.y, a.x, a.y, dist, BallRadius + BallRadius);
    SqDistShift(r.b.x, r.b.y, r.a.x, r.a.y,
                b.x + (b.x - a.x) / dist * (BallRadius + BallRadius - dist),
                b.y + (b.y - a.y) / dist * (BallRadius + BallRadius - dist), a.x, a.y);
  }

  lemma SqDistShift(x1: real, y1: real, x2: real, y2: real, x3: real, y3: real, x4: real, y4: real)
    requires x1 - x2 == x3 - x4 && y1 - y2 == y3 - y4
    ensures SqDist(x1, y1, x2, y2) == SqDist(x3, y3, x4, y4)
  {
  }

  // ---------------------------------------------------------------------
  // Sums over all balls

  function Sum(s: seq<real>): real {
    if |s| == 0 then 0.0 else Sum(s[..|s| - 1]) + s[|s| - 1]
  }

  /** Changing two entries of a sequence without changing their sum leaves
      the sum of the sequence unchanged. */
  lemma {:induction false} SumTwoChanged(s: seq<real>, t: seq<real>, i: nat, j: nat)
    requires |s| == |t| && i < |s| && j < |s| && i != j
    requires forall k :: 0 <= k < |s| && k != i && k != j ==> s[k] == t[k]
    requires s[i] + s[j] == t[i] + t[j]
    ensures Sum(s) == Sum(t)
  {
    var n := |s|;
    var s', t' := s[..n - 1], t[..n - 1];
    if i == n - 1 || j == n - 1 {
      var o := if i == n - 1 then j else i;
      SumOneChanged(s', t', o, s[o] - t[o]);
    } else {
      SumTwoChanged(s', t', i, j);
    }
  }

  /** Changing one entry by delta changes the sum by delta. */
  lemma {:induction false} SumOneChanged(s: seq<real>, t: seq<real>, i: nat, delta: real)
    requires |s| == |t| && i < |s|
    requires forall k :: 0 <= k < |s| && k != i ==> s[k] == t[k]
    requires s[i] == t[i] + delta
    ensures Sum(s) == Sum(t) + delta
  {
    var n := |s|;
    if i != n - 1 {
      SumOneChanged(s[..n - 1], t[..n - 1], i, delta);
    } else {
      assert s[..n - 1] == t[..n - 1];
    }
  }
}
