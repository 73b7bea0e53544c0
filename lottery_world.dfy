/** The obstacles and balls of the ball-drop lottery (lottery_ball.py:56-354),
    without their drawing code. Pegs, spinners, bounce pads and balls are
    objects whose fields change in place; a platform never changes and is a
    value. Each collision loop of Ball.move is proved against a function that
    folds the matching resolver of module LotteryPhysics over the obstacles
    in list order. */
module LotteryWorld {
  import opened LotteryPhysics

  /** The maths library calls the source makes: math.sqrt in every contact
      test, math.cos and math.sin for the spinner bars. */
  datatype Maths = Maths(sqrt: real -> real, cos: real -> real, sin: real -> real)

  /** The random draws one call of Ball.move consumes: random.uniform(-1.5, 1.5)
      per peg hit, random.uniform(-0.3, 0.3) per platform bounce and
      random.uniform(-3, 3) per pad boost, given here one per obstacle. */
  datatype Draws = Draws(peg: seq<real>, platform: seq<real>, pad: seq<real>)

  predicate DrawsFit(d: Draws, pegs: nat, platforms: nat, pads: nat) {
    |d.peg| == pegs && |d.platform| == platforms && |d.pad| == pads &&
    (forall i :: 0 <= i < |d.peg| ==> -1.5 <= d.peg[i] <= 1.5) &&
    (forall i :: 0 <= i < |d.platform| ==> -0.3 <= d.platform[i] <= 0.3) &&
    PadJitterFits(d.pad)
  }

  const PegHitTicks: int := 15
  const PadActiveTicks: int := 10

  /** The lamps after one collision loop: each obstacle the loop hit is lit
      for ticks, the others are as they were. */
  function Restart(lights: seq<Timer>, hits: seq<bool>, ticks: int): (r: seq<Timer>)
    requires |hits| == |lights|
    ensures |r| == |lights|
  {
    seq(|lights|, i requires 0 <= i < |lights| => if hits[i] then Timer(true, ticks) else lights[i])
  }

  // ---------------------------------------------------------------------
  // Pegs (lottery_ball.py:56-73)

  class Peg {
    const x: real
    const y: real
    const radius: real
    var hit: bool
    var hitTimer: int

    constructor (x: real, y: real, radius: real)
      ensures this.x == x && this.y == y && this.radius == radius
      ensures !hit && hitTimer == 0
    {
      this.x := x;
      this.y := y;
      this.radius := radius;
      hit := false;
      hitTimer := 0;
    }

    /** Whether the peg is lit, and for how many more ticks. */
    function Light(): Timer
      reads this
    {
      Timer(hit, hitTimer)
    }

    /** The countdown at the end of Peg.draw: a hit peg stays lit until its
        timer runs out. */
    method Decay()
      modifies this
      ensures Light() == Countdown(old(Light()))
    {
      if hit {
        hitTimer := hitTimer - 1;
        if hitTimer <= 0 {
          hit := false;
        }
      }
    }
  }

  /** The length of (ex, ey), with the square root the source calls. */
  function Length(ex: real, ey: real, sqrt: real -> real): real {
    sqrt(ex * ex + ey * ey)
  }

  function PegDistance(m: Motion, p: Peg, sqrt: real -> real): real {
    Length(m.x - p.x, m.y - p.y, sqrt)
  }

  predicate PegTouched(m: Motion, p: Peg, sqrt: real -> real) {
    PegContact(p.radius, PegDistance(m, p, sqrt))
  }

  function PegAt(m: Motion, p: Peg, sqrt: real -> real, jitter: real): Motion {
    PegStep(m, p.x, p.y, p.radius, PegDistance(m, p, sqrt), jitter)
  }

  /** The ball's motion after the peg loop has visited the pegs in order. */
  function PegsPass(m: Motion, pegs: seq<Peg>, sqrt: real -> real, jitter: seq<real>): Motion
    requires |jitter| == |pegs|
  {
    if |pegs| == 0 then m
    else
      var n := |pegs| - 1;
      PegAt(PegsPass(m, pegs[..n], sqrt, jitter[..n]), pegs[n], sqrt, jitter[n])
  }

  /** Whether the loop hits the i-th peg, the ball arriving from the pegs before it. */
  predicate PegHitAt(m: Motion, pegs: seq<Peg>, sqrt: real -> real, jitter: seq<real>, i: nat)
    requires |jitter| == |pegs| && i < |pegs|
  {
    PegTouched(PegsPass(m, pegs[..i], sqrt, jitter[..i]), pegs[i], sqrt)
  }

  /** Which pegs the peg loop hits, in list order. */
  function PegHits(m: Motion, pegs: seq<Peg>, sqrt: real -> real, jitter: seq<real>): (r: seq<bool>)
    requires |jitter| == |pegs|
    ensures |r| == |pegs|
  {
    seq(|pegs|, i requires 0 <= i < |pegs| => PegHitAt(m, pegs, sqrt, jitter, i))
  }

  /** The lamps of the pegs, in list order. */
  function PegLights(pegs: seq<Peg>): (r: seq<Timer>)
    reads pegs
    ensures |r| == |pegs|
  {
    seq(|pegs|, i requires 0 <= i < |pegs| reads pegs => pegs[i].Light())
  }

  // ---------------------------------------------------------------------
  // Platforms (lottery_ball.py:76-113)

  datatype Platform = Platform(x1: real, y1: real, x2: real, y2: real, thickness: real)

  /** What Platform.collide does to a ball: find the nearest point of the
      segment, measure the distance to it, bounce if the ball overlaps. */
  function PlatformAt(m: Motion, pl: Platform, sqrt: real -> real, jitter: real): Motion {
    var dx, dy := pl.x2 - pl.x1, pl.y2 - pl.y1;
    if Dot(dx, dy, dx, dy) == 0.0 then m
    else
      var p := Project(pl.x1, pl.y1, pl.x2, pl.y2, m.x, m.y);
      var ex, ey := m.x - p.cx, m.y - p.cy;
      var dist := Length(ex, ey, sqrt);
      if SegmentContact(pl.thickness, dist) then
        PlatformBounce(m, ex / dist, ey / dist, BallRadius + pl.thickness / 2.0 - dist, jitter)
      else m
  }

  /** Whether Platform.collide reports a touch. */
  predicate PlatformTouched(m: Motion, pl: Platform, sqrt: real -> real) {
    var dx, dy := pl.x2 - pl.x1, pl.y2 - pl.y1;
    Dot(dx, dy, dx, dy) != 0.0 &&
    var p := Project(pl.x1, pl.y1, pl.x2, pl.y2, m.x, m.y);
    var ex, ey := m.x - p.cx, m.y - p.cy;
    SegmentContact(pl.thickness, Length(ex, ey, sqrt))
  }

  function PlatformsPass(m: Motion, platforms: seq<Platform>, sqrt: real -> real, jitter: seq<real>): Motion
    requires |jitter| == |platforms|
  {
    if |platforms| == 0 then m
    else
      var n := |platforms| - 1;
      PlatformAt(PlatformsPass(m, platforms[..n], sqrt, jitter[..n]), platforms[n], sqrt, jitter[n])
  }

  // ---------------------------------------------------------------------
  // Spinners (lottery_ball.py:120-164)

  class Spinner {
    const x: real
    const y: real
    const length: real
    const speed: real
    const thickness: real := SpinnerThickness
    var angle: real

    /** The starting angle is random.uniform(0, 2 * pi), given here. */
    constructor (x: real, y: real, length: real, speed: real, angle: real)
      ensures this.x == x && this.y == y && this.length == length && this.speed == speed
      ensures this.angle == angle
    {
      this.x := x;
      this.y := y;
      this.length := length;
      this.speed := speed;
      this.angle := angle;
    }

    method Update()
      modifies this
      ensures angle == old(angle) + speed
    {
      angle := angle + speed;
    }

    /** What a collision with this spinner reads of it. */
    function State(): SpinnerState
      reads this
    {
      SpinnerState(x, y, length, speed, angle)
    }
  }

  const SpinnerThickness: real := 8.0

  /** A spinner as a ball sees it: nothing changes a spinner while the balls
      move, so each ball reads this snapshot of the spinner's fields. */
  datatype SpinnerState = SpinnerState(x: real, y: real, length: real, speed: real, angle: real)

  /** The spinners' current states, in list order. */
  function States(spinners: seq<Spinner>): (r: seq<SpinnerState>)
    reads spinners
    ensures |r| == |spinners|
    ensures forall i :: 0 <= i < |spinners| ==> r[i] == spinners[i].State()
  {
    if |spinners| == 0 then [] else States(spinners[..|spinners| - 1]) + [spinners[|spinners| - 1].State()]
  }

  /** The two ends of a spinner's bar at the given angle. */
  datatype Bar = Bar(x1: real, y1: real, x2: real, y2: real)

  function BarEnds(x: real, y: real, length: real, angle: real, maths: Maths): (r: Bar)
    ensures r.x1 + r.x2 == 2.0 * x && r.y1 + r.y2 == 2.0 * y
  {
    var c, sn := maths.cos(angle), maths.sin(angle);
    Bar(x + c * length, y + sn * length, x - c * length, y - sn * length)
  }

  /** What Spinner.collide does to a ball: the bar runs through the centre
      at the current angle, from (x + cos * length, y + sin * length) to
      (x - cos * length, y - sin * length). */
  function SpinnerAt(m: Motion, s: SpinnerState, maths: Maths): Motion {
    var b := BarEnds(s.x, s.y, s.length, s.angle, maths);
    var dx, dy := b.x2 - b.x1, b.y2 - b.y1;
    if Dot(dx, dy, dx, dy) == 0.0 then m
    else
      var p := Project(b.x1, b.y1, b.x2, b.y2, m.x, m.y);
      var ex, ey := m.x - p.cx, m.y - p.cy;
      var dist := Length(ex, ey, maths.sqrt);
      if SegmentContact(SpinnerThickness, dist) then
        SpinnerKick(m, ex / dist, ey / dist, BallRadius + SpinnerThickness / 2.0 - dist, s.speed)
      else m
  }

  function SpinnersPass(m: Motion, spinners: seq<SpinnerState>, maths: Maths): Motion {
    if |spinners| == 0 then m
    else
      var n := |spinners| - 1;
      SpinnerAt(SpinnersPass(m, spinners[..n], maths), spinners[n], maths)
  }

  // ---------------------------------------------------------------------
  // Bounce pads (lottery_ball.py:176-200)

  class BouncePad {
    const x: real
    const y: real
    const width: real
    const height: real := 12.0
    var active: bool
    var activeTimer: int

    constructor (x: real, y: real, width: real)
      ensures this.x == x && this.y == y && this.width == width
      ensures !active && activeTimer == 0
    {
      this.x := x;
      this.y := y;
      this.width := width;
      active := false;
      activeTimer := 0;
    }

    /** Whether the pad is lit, and for how many more ticks. */
    function Light(): Timer
      reads this
    {
      Timer(active, activeTimer)
    }

    /** The countdown of BouncePad.update. */
    method Update()
      modifies this
      ensures Light() == Countdown(old(Light()))
    {
      if active {
        activeTimer := activeTimer - 1;
        if activeTimer <= 0 {
          active := false;
        }
      }
    }
  }

  /** A pad fires when a falling ball's bottom is within its box. */
  predicate PadFires(m: Motion, p: BouncePad) {
    InPadBox(m, p.x, p.y, p.width, p.height) && m.dy > 0.0
  }

  function PadAt(m: Motion, p: BouncePad, jitter: real): Motion
    requires -3.0 <= jitter <= 3.0
  {
    if PadFires(m, p) then PadBoost(m, jitter) else m
  }

  predicate PadJitterFits(jitter: seq<real>) {
    forall i :: 0 <= i < |jitter| ==> -3.0 <= jitter[i] <= 3.0
  }

  function PadsPass(m: Motion, pads: seq<BouncePad>, jitter: seq<real>): Motion
    requires |jitter| == |pads| && PadJitterFits(jitter)
  {
    if |pads| == 0 then m
    else
      var n := |pads| - 1;
      PadAt(PadsPass(m, pads[..n], jitter[..n]), pads[n], jitter[n])
  }

  /** Whether the loop fires the i-th pad, the ball arriving from the pads before it. */
  predicate PadFiresAt(m: Motion, pads: seq<BouncePad>, jitter: seq<real>, i: nat)
    requires |jitter| == |pads| && PadJitterFits(jitter) && i < |pads|
  {
    PadFires(PadsPass(m, pads[..i], jitter[..i]), pads[i])
  }

  /** Which pads the pad loop fires, in list order. */
  function PadHits(m: Motion, pads: seq<BouncePad>, jitter: seq<real>): (r: seq<bool>)
    requires |jitter| == |pads| && PadJitterFits(jitter)
    ensures |r| == |pads|
  {
    seq(|pads|, i requires 0 <= i < |pads| => PadFiresAt(m, pads, jitter, i))
  }

  /** The lamps of the pads, in list order. */
  function PadLights(pads: seq<BouncePad>): (r: seq<Timer>)
    reads pads
    ensures |r| == |pads|
  {
    seq(|pads|, i requires 0 <= i < |pads| reads pads => pads[i].Light())
  }

  // ---------------------------------------------------------------------
  // The maze and one ball's own movement

  /** The obstacles the balls fall through, in the order move visits them;
      the spinners are given as the states the balls read. */
  datatype Maze = Maze(pegs: seq<Peg>, platforms: seq<Platform>, spinners: seq<SpinnerState>, pads: seq<BouncePad>)

  predicate MazeDistinct(z: Maze) {
    DistinctPegs(z.pegs) && DistinctPads(z.pads)
  }

  predicate DrawsFor(d: Draws, z: Maze) {
    DrawsFit(d, |z.pegs|, |z.platforms|, |z.pads|)
  }

  /** The motion after gravity, friction, the step and the walls. */
  function Integrated(m: Motion): Motion {
    Walls(Advance(m))
  }

  /** The motion after the pegs, platforms and spinners, in that order. */
  function BeforePads(m: Motion, z: Maze, maths: Maths, d: Draws): Motion
    requires DrawsFor(d, z)
  {
    SpinnersPass(PlatformsPass(PegsPass(m, z.pegs, maths.sqrt, d.peg), z.platforms, maths.sqrt, d.platform),
                 z.spinners, maths)
  }

  /** The motion after all obstacles. */
  function Obstacles(m: Motion, z: Maze, maths: Maths, d: Draws): Motion
    requires DrawsFor(d, z)
  {
    PadsPass(BeforePads(m, z, maths, d), z.pads, d.pad)
  }

  /** One ball's own movement in a tick, before it collides with the other
      balls: integration, the obstacles unless the maze is broken, the funnel. */
  function OwnStep(m: Motion, z: Maze, mazeBroken: bool, maths: Maths, d: Draws): Motion
    requires DrawsFor(d, z)
  {
    var m1 := Integrated(m);
    Funnel(if mazeBroken then m1 else Obstacles(m1, z, maths, d))
  }

  /** The peg lamps after one ball's own step: lit where its peg loop hit,
      untouched when the maze is broken. */
  function PegLightsAfter(lights: seq<Timer>, m: Motion, z: Maze, mazeBroken: bool, maths: Maths, d: Draws): seq<Timer>
    requires DrawsFor(d, z) && |lights| == |z.pegs|
  {
    if mazeBroken then lights
    else Restart(lights, PegHits(Integrated(m), z.pegs, maths.sqrt, d.peg), PegHitTicks)
  }

  /** The pad lamps after one ball's own step: lit where its pad loop fired,
      untouched when the maze is broken. */
  function PadLightsAfter(lights: seq<Timer>, m: Motion, z: Maze, mazeBroken: bool, maths: Maths, d: Draws): seq<Timer>
    requires DrawsFor(d, z) && |lights| == |z.pads|
  {
    if mazeBroken then lights
    else Restart(lights, PadHits(BeforePads(Integrated(m), z, maths, d), z.pads, d.pad), PadActiveTicks)
  }

  // ---------------------------------------------------------------------
  // Distinct objects

  predicate DistinctPegs(s: seq<Peg>) {
    forall i, j :: 0 <= i < j < |s| ==> s[i] != s[j]
  }

  predicate DistinctPads(s: seq<BouncePad>) {
    forall i, j :: 0 <= i < j < |s| ==> s[i] != s[j]
  }

  predicate DistinctBalls(s: seq<Ball>) {
    forall i, j :: 0 <= i < j < |s| ==> s[i] != s[j]
  }

  // ---------------------------------------------------------------------
  // Balls (lottery_ball.py:209-354)

  datatype Color = Color(r: int, g: int, b: int)

  const StartY: real := GameTop + 25.0

  /** One coordinate of a ball, to state what the pair collisions preserve. */
  datatype Axis = X | Y | DX | DY

  function Coordinate(m: Motion, a: Axis): real {
    match a
    case X => m.x
    case Y => m.y
    case DX => m.dx
    case DY => m.dy
  }

  /** The motions of the balls, in roster order. */
  function Motions(balls: seq<Ball>): (r: seq<Motion>)
    reads balls
    ensures |r| == |balls|
  {
    seq(|balls|, k requires 0 <= k < |balls| reads balls => balls[k].Current())
  }

  function Coordinates(ms: seq<Motion>, a: Axis): (r: seq<real>)
    ensures |r| == |ms|
  {
    seq(|ms|, k requires 0 <= k < |ms| => Coordinate(ms[k], a))
  }

  /** A ball's fields other than its position and velocity. */
  datatype BallStatus = BallStatus(finished: bool, winner: bool, stuckCount: nat, stuckTimer: nat, lastY: real)

  /** The stuck timer stays below its window, and only a finished ball wins. */
  predicate StatusValid(st: BallStatus) {
    st.stuckTimer < StuckWindow && (st.winner ==> st.finished)
  }

  /** The stuck detector of move run once, the ball now at height y. */
  function Tracked(st: BallStatus, y: real): BallStatus
    requires st.stuckTimer < StuckWindow
  {
    var s := StuckStep(Stuck(st.stuckTimer, st.stuckCount), Abs(y - st.lastY));
    st.(stuckCount := s.count, stuckTimer := s.timer, lastY := y)
  }

  /** A ball's status after its own step from motion m: the stuck detector
      runs on the height reached past the obstacles unless the maze is
      broken, and the ball finishes once it is below the finish line. */
  function StatusAfter(st: BallStatus, m: Motion, z: Maze, mazeBroken: bool, maths: Maths, d: Draws): BallStatus
    requires DrawsFor(d, z) && st.stuckTimer < StuckWindow
  {
    var s := if mazeBroken then st else Tracked(st, Obstacles(Integrated(m), z, maths, d).y);
    s.(finished := s.finished || OwnStep(m, z, mazeBroken, maths, d).y > FinishY)
  }

  /** The ball's own step keeps its status valid, finishes it exactly when
      it was finished or ends below the finish line, never touches the
      winner flag, and while the maze is broken leaves the stuck detector
      as it was. */
  lemma StatusAfterKeeps(st: BallStatus, m: Motion, z: Maze, mazeBroken: bool, maths: Maths, d: Draws)
    requires DrawsFor(d, z) && StatusValid(st)
    ensures var r := StatusAfter(st, m, z, mazeBroken, maths, d);
      StatusValid(r) && r.winner == st.winner &&
      (r.finished <==> st.finished || OwnStep(m, z, mazeBroken, maths, d).y > FinishY) &&
      (mazeBroken ==> r.stuckCount == st.stuckCount && r.stuckTimer == st.stuckTimer && r.lastY == st.lastY)
  {
  }

  /** The statuses of the balls, in roster order. */
  function Statuses(balls: seq<Ball>): (r: seq<BallStatus>)
    reads balls
    ensures |r| == |balls|
  {
    seq(|balls|, k requires 0 <= k < |balls| reads balls => balls[k].Status())
  }

  /** The summed position and velocity of a list of motions. */
  function SumMotions(ms: seq<Motion>): Motion {
    Motion(Sum(Coordinates(ms, X)), Sum(Coordinates(ms, Y)), Sum(Coordinates(ms, DX)), Sum(Coordinates(ms, DY)))
  }

  /** The summed position and velocity of the balls. */
  function Totals(balls: seq<Ball>): Motion
    reads balls
  {
    SumMotions(Motions(balls))
  }

  /** A sum t in which one term changed from a to b. */
  function Replace(t: Motion, a: Motion, b: Motion): Motion {
    Motion(t.x - a.x + b.x, t.y - a.y + b.y, t.dx - a.dx + b.dx, t.dy - a.dy + b.dy)
  }

  /** When only the motion at index i changed, to b, the summed motion
      changes by exactly that one term. */
  lemma OneMovedTotals(before: seq<Motion>, after: seq<Motion>, i: nat, b: Motion)
    requires |before| == |after| && i < |after| && after[i] == b
    requires forall k :: 0 <= k < |after| && k != i ==> after[k] == before[k]
    ensures SumMotions(after) == Replace(SumMotions(before), before[i], b)
  {
    var a := before[i];
    SumOneChanged(Coordinates(after, X), Coordinates(before, X), i, b.x - a.x);
    SumOneChanged(Coordinates(after, Y), Coordinates(before, Y), i, b.y - a.y);
    SumOneChanged(Coordinates(after, DX), Coordinates(before, DX), i, b.dx - a.dx);
    SumOneChanged(Coordinates(after, DY), Coordinates(before, DY), i, b.dy - a.dy);
  }

  /** When only the motions at indices i and j changed, by an exchange, the
      summed motion is unchanged. */
  lemma PairMovedTotals(before: seq<Motion>, after: seq<Motion>, i: nat, j: nat, dist: real)
    requires |before| == |after| && i < |after| && j < |after| && i != j
    requires Pair(after[i], after[j]) == Exchange(before[i], before[j], dist)
    requires forall k :: 0 <= k < |after| && k != i && k != j ==> after[k] == before[k]
    ensures SumMotions(after) == SumMotions(before)
  {
    SumTwoChanged(Coordinates(after, X), Coordinates(before, X), i, j);
    SumTwoChanged(Coordinates(after, Y), Coordinates(before, Y), i, j);
    SumTwoChanged(Coordinates(after, DX), Coordinates(before, DX), i, j);
    SumTwoChanged(Coordinates(after, DY), Coordinates(before, DY), i, j);
  }

  /** The exchange of collide_with between the balls at me and i, as values. */
  function PushPair(ms: seq<Motion>, me: nat, i: nat, sqrt: real -> real): (r: seq<Motion>)
    requires me < |ms| && i < |ms|
  {
    var p := Exchange(ms[me], ms[i], Length(ms[i].x - ms[me].x, ms[i].y - ms[me].y, sqrt));
    ms[me := p.a][i := p.b]
  }

  /** Two motions changed by an exchange, and nothing else: one PushPair. */
  lemma PairPushed(before: seq<Motion>, after: seq<Motion>, me: nat, i: nat, sqrt: real -> real)
    requires |before| == |after| && me < |after| && i < |after| && me != i
    requires Pair(after[me], after[i]) ==
             Exchange(before[me], before[i], Length(before[i].x - before[me].x, before[i].y - before[me].y, sqrt))
    requires forall k :: 0 <= k < |after| && k != me && k != i ==> after[k] == before[k]
    ensures after == PushPair(before, me, i, sqrt)
  {
  }

  /** The last loop of move (lottery_ball.py:328-330) from index i on, as
      values: the ball at me exchanges with every other ball of the roster
      that has not finished, in roster order. */
  function Pushes(ms: seq<Motion>, st: seq<BallStatus>, me: nat, i: nat, sqrt: real -> real): (r: seq<Motion>)
    requires |st| == |ms| && me < |ms| && i <= |ms|
    ensures |r| == |ms|
    decreases |ms| - i
  {
    if i == |ms| then ms
    else if i == me || st[i].finished then Pushes(ms, st, me, i + 1, sqrt)
    else Pushes(PushPair(ms, me, i, sqrt), st, me, i + 1, sqrt)
  }

  /** One pass of the last loop of move: ball i is skipped or pushed. */
  lemma PushesStep(ms: seq<Motion>, ms1: seq<Motion>, st: seq<BallStatus>, me: nat, i: nat, sqrt: real -> real)
    requires |st| == |ms| && me < |ms| && i < |ms|
    requires i == me || st[i].finished ==> ms1 == ms
    requires i != me && !st[i].finished ==> ms1 == PushPair(ms, me, i, sqrt)
    ensures Pushes(ms1, st, me, i + 1, sqrt) == Pushes(ms, st, me, i, sqrt)
  {
  }

  /** The pair collisions keep the summed position and velocity of the roster. */
  lemma {:induction false} PushesTotals(ms: seq<Motion>, st: seq<BallStatus>, me: nat, i: nat, sqrt: real -> real)
    requires |st| == |ms| && me < |ms| && i <= |ms|
    ensures SumMotions(Pushes(ms, st, me, i, sqrt)) == SumMotions(ms)
    decreases |ms| - i
  {
    if i < |ms| {
      if i == me || st[i].finished {
        PushesTotals(ms, st, me, i + 1, sqrt);
      } else {
        var after := PushPair(ms, me, i, sqrt);
        PairMovedTotals(ms, after, me, i, Length(ms[i].x - ms[me].x, ms[i].y - ms[me].y, sqrt));
        PushesTotals(after, st, me, i + 1, sqrt);
      }
    }
  }

  /** The pair collisions move no finished ball and no ball before index i,
      except the ball at me itself. */
  lemma {:induction false} PushesKeep(ms: seq<Motion>, st: seq<BallStatus>, me: nat, i: nat, sqrt: real -> real, k: nat)
    requires |st| == |ms| && me < |ms| && i <= |ms|
    requires k < |ms| && k != me && (k < i || st[k].finished)
    ensures Pushes(ms, st, me, i, sqrt)[k] == ms[k]
    decreases |ms| - i
  {
    if i < |ms| {
      if i == me || st[i].finished {
        PushesKeep(ms, st, me, i + 1, sqrt, k);
      } else {
        PushesKeep(PushPair(ms, me, i, sqrt), st, me, i + 1, sqrt, k);
      }
    }
  }

  class Ball {
    const name: string
    const color: Color
    const startX: int
    var x: real
    var y: real
    var dx: real
    var dy: real
    var finished: bool
    var winner: bool
    var stuckCount: nat
    var stuckTimer: nat
    var lastY: real

    ghost predicate Valid()
      reads this
    {
      StatusValid(Status())
    }

    function Current(): Motion
      reads this
    {
      Motion(x, y, dx, dy)
    }

    /** The state reset_position leaves a ball in: at its start column at
        the top, at rest, not finished, not a winner, not stuck. */
    ghost predicate AtStart()
      reads this
    {
      x == startX as real && y == StartY && dx == 0.0 && dy == 0.0 &&
      !finished && !winner && stuckCount == 0 && stuckTimer == 0 && lastY == y
    }

    /** Everything but the position and velocity. */
    function Status(): BallStatus
      reads this
    {
      BallStatus(finished, winner, stuckCount, stuckTimer, lastY)
    }

    constructor (name: string, color: Color, startX: int)
      ensures this.name == name && this.color == color && this.startX == startX
      ensures AtStart() && Valid()
    {
      this.name := name;
      this.color := color;
      this.startX := startX;
      x := startX as real;
      y := StartY;
      dx, dy := 0.0, 0.0;
      finished, winner := false, false;
      stuckCount, stuckTimer := 0, 0;
      lastY := StartY;
    }

    method ResetPosition()
      modifies this
      ensures AtStart() && Valid()
    {
      x := startX as real;
      y := StartY;
      dx, dy := 0.0, 0.0;
      finished, winner := false, false;
      stuckCount := 0;
      lastY := y;
      stuckTimer := 0;
    }

    method SetMotion(m: Motion)
      modifies this
      ensures Current() == m && Status() == old(Status())
    {
      x, y, dx, dy := m.x, m.y, m.dx, m.dy;
    }

    /** Gravity, friction, one step, then the walls (lottery_ball.py:239-254). */
    method Integrate()
      modifies this
      ensures Current() == Walls(Advance(old(Current())))
      ensures Status() == old(Status())
    {
      dy := dy + Gravity;
      dx := dx * Friction;
      x := x + dx;
      y := y + dy;
      if x <= GameLeft + BallRadius {
        x := GameLeft + BallRadius;
        dx := Abs(dx) * Bounce;
      } else if x >= GameRight - BallRadius {
        x := GameRight - BallRadius;
        dx := -Abs(dx) * Bounce;
      }
      if y <= GameTop + BallRadius {
        y := GameTop + BallRadius;
        dy := Abs(dy) * Bounce;
      }
    }

    /** One peg of the peg loop of move (lottery_ball.py:260-274): the
        reflection off the peg and the push out of it, and the peg lit. */
    method CollidePeg(peg: Peg, sqrt: real -> real, jitter: real)
      modifies this, peg
      ensures Current() == PegAt(old(Current()), peg, sqrt, jitter)
      ensures peg.Light() == if PegTouched(old(Current()), peg, sqrt) then Timer(true, PegHitTicks) else old(peg.Light())
      ensures Status() == old(Status())
    {
      var m := Current();
      var dist := Length(x - peg.x, y - peg.y, sqrt);
      if dist < BallRadius + peg.radius && dist > 0.0 {
        var nx, ny := (x - peg.x) / dist, (y - peg.y) / dist;
        SetMotion(PegBounce(m, nx, ny, BallRadius + peg.radius - dist, jitter));
        peg.hit := true;
        peg.hitTimer := PegHitTicks;
      }
    }

    /** The peg loop of move (lottery_ball.py:259-274). */
    method BouncePegs(pegs: seq<Peg>, sqrt: real -> real, jitter: seq<real>)
      requires |jitter| == |pegs| && DistinctPegs(pegs)
      modifies this, pegs
      ensures Current() == PegsPass(old(Current()), pegs, sqrt, jitter)
      ensures Status() == old(Status())
      ensures PegLights(pegs) == Restart(old(PegLights(pegs)), PegHits(old(Current()), pegs, sqrt, jitter), PegHitTicks)
    {
      ghost var m0, lights := Current(), PegLights(pegs);
      ghost var hits := PegHits(m0, pegs, sqrt, jitter);
      for i := 0 to |pegs|
        invariant Current() == PegsPass(m0, pegs[..i], sqrt, jitter[..i])
        invariant Status() == old(Status())
        invariant forall j :: 0 <= j < |pegs| ==>
          pegs[j].Light() == if j < i && hits[j] then Timer(true, PegHitTicks) else lights[j]
      {
        CollidePeg(pegs[i], sqrt, jitter[i]);
        assert pegs[..i + 1][..i] == pegs[..i] && jitter[..i + 1][..i] == jitter[..i];
      }
      assert pegs[..|pegs|] == pegs && jitter[..|jitter|] == jitter;
    }

    /** Platform.collide applied to this ball (lottery_ball.py:84-113). */
    method CollidePlatform(pl: Platform, sqrt: real -> real, jitter: real) returns (touched: bool)
      modifies this
      ensures Current() == PlatformAt(old(Current()), pl, sqrt, jitter)
      ensures touched == PlatformTouched(old(Current()), pl, sqrt)
      ensures Status() == old(Status())
    {
      var m := Current();
      var sx, sy := pl.x2 - pl.x1, pl.y2 - pl.y1;
      if Dot(sx, sy, sx, sy) == 0.0 {
        return false;
      }
      var p := Project(pl.x1, pl.y1, pl.x2, pl.y2, x, y);
      var ex, ey := x - p.cx, y - p.cy;
      var dist := Length(ex, ey, sqrt);
      if dist < BallRadius + pl.thickness / 2.0 && dist > 0.0 {
        SetMotion(PlatformBounce(m, ex / dist, ey / dist, BallRadius + pl.thickness / 2.0 - dist, jitter));
        return true;
      }
      return false;
    }

    /** The platform loop of move (lottery_ball.py:277-278). */
    method BouncePlatforms(platforms: seq<Platform>, sqrt: real -> real, jitter: seq<real>)
      requires |jitter| == |platforms|
      modifies this
      ensures Current() == PlatformsPass(old(Current()), platforms, sqrt, jitter)
      ensures Status() == old(Status())
    {
      ghost var m0 := Current();
      for i := 0 to |platforms|
        invariant Current() == PlatformsPass(m0, platforms[..i], sqrt, jitter[..i])
        invariant Status() == old(Status())
      {
        var _ := CollidePlatform(platforms[i], sqrt, jitter[i]);
        assert platforms[..i + 1][..i] == platforms[..i] && jitter[..i + 1][..i] == jitter[..i];
      }
      assert platforms[..|platforms|] == platforms && jitter[..|jitter|] == jitter;
    }

    /** Spinner.collide applied to this ball (lottery_ball.py:132-164). */
    method CollideSpinner(s: SpinnerState, maths: Maths)
      modifies this
      ensures Current() == SpinnerAt(old(Current()), s, maths)
      ensures Status() == old(Status())
    {
      var m := Current();
      var b := BarEnds(s.x, s.y, s.length, s.angle, maths);
      var x1, y1, x2, y2 := b.x1, b.y1, b.x2, b.y2;
      var sx, sy := x2 - x1, y2 - y1;
      if Dot(sx, sy, sx, sy) == 0.0 {
        return;
      }
      var p := Project(x1, y1, x2, y2, x, y);
      var ex, ey := x - p.cx, y - p.cy;
      var dist := Length(ex, ey, maths.sqrt);
      if dist < BallRadius + SpinnerThickness / 2.0 && dist > 0.0 {
        SetMotion(SpinnerKick(m, ex / dist, ey / dist, BallRadius + SpinnerThickness / 2.0 - dist, s.speed));
      }
    }

    /** The spinner loop of move (lottery_ball.py:281-282). */
    method BounceSpinners(spinners: seq<SpinnerState>, maths: Maths)
      modifies this
      ensures Current() == SpinnersPass(old(Current()), spinners, maths)
      ensures Status() == old(Status())
    {
      ghost var m0 := Current();
      for i := 0 to |spinners|
        invariant Current() == SpinnersPass(m0, spinners[..i], maths)
        invariant Status() == old(Status())
      {
        CollideSpinner(spinners[i], maths);
        assert spinners[..i + 1][..i] == spinners[..i];
      }
      assert spinners[..|spinners|] == spinners;
    }

    /** BouncePad.collide applied to this ball (lottery_ball.py:185-194). */
    method CollidePad(pad: BouncePad, jitter: real) returns (fired: bool)
      requires -3.0 <= jitter <= 3.0
      modifies this, pad
      ensures Current() == PadAt(old(Current()), pad, jitter)
      ensures fired == PadFires(old(Current()), pad)
      ensures pad.Light() == if fired then Timer(true, PadActiveTicks) else old(pad.Light())
      ensures Status() == old(Status())
    {
      if pad.x - pad.width / 2.0 < x < pad.x + pad.width / 2.0 &&
         pad.y - pad.height < y + BallRadius < pad.y + pad.height {
        if dy > 0.0 {
          dy := -Abs(dy) * 1.5 - 5.0;
          dx := dx + jitter;
          pad.active := true;
          pad.activeTimer := PadActiveTicks;
          return true;
        }
      }
      return false;
    }

    /** The bounce pad loop of move (lottery_ball.py:285-286). */
    method BouncePads(pads: seq<BouncePad>, jitter: seq<real>)
      requires |jitter| == |pads| && PadJitterFits(jitter) && DistinctPads(pads)
      modifies this, pads
      ensures Current() == PadsPass(old(Current()), pads, jitter)
      ensures Status() == old(Status())
      ensures PadLights(pads) == Restart(old(PadLights(pads)), PadHits(old(Current()), pads, jitter), PadActiveTicks)
    {
      ghost var m0, lights := Current(), PadLights(pads);
      ghost var hits := PadHits(m0, pads, jitter);
      for i := 0 to |pads|
        invariant Current() == PadsPass(m0, pads[..i], jitter[..i])
        invariant Status() == old(Status())
        invariant forall j :: 0 <= j < |pads| ==>
          pads[j].Light() == if j < i && hits[j] then Timer(true, PadActiveTicks) else lights[j]
      {
        var _ := CollidePad(pads[i], jitter[i]);
        assert pads[..i + 1][..i] == pads[..i] && jitter[..i + 1][..i] == jitter[..i];
      }
      assert pads[..|pads|] == pads && jitter[..|jitter|] == jitter;
    }

    /** The stuck detector of move (lottery_ball.py:289-298). */
    method TrackStuck()
      requires Valid()
      modifies this
      ensures Status() == Tracked(old(Status()), old(y))
      ensures Current() == old(Current())
      ensures Valid()
    {
      var yMovement := Abs(y - lastY);
      if yMovement < StuckMovement {
        stuckTimer := stuckTimer + 1;
        if stuckTimer >= StuckWindow {
          stuckCount := stuckCount + 1;
          stuckTimer := 0;
        }
      } else {
        stuckTimer := 0;
      }
      lastY := y;
    }

    /** The funnel region of move (lottery_ball.py:301-322). */
    method EnterFunnel()
      modifies this
      ensures Current() == Funnel(old(Current()))
      ensures Status() == old(Status())
    {
      if y + BallRadius > FunnelTopY {
        var progress := Clamp01((y - FunnelTopY) / FunnelHeight);
        var currentWidth := FunnelTopWidth - (FunnelTopWidth - FunnelBottomWidth) * progress;
        var leftEdge := FunnelX - currentWidth / 2.0;
        var rightEdge := FunnelX + currentWidth / 2.0;
        if x < leftEdge - 10.0 || x > rightEdge + 10.0 {
          y := FunnelTopY - BallRadius;
          dy := -Abs(dy) * Bounce * 0.5;
          if x < FunnelX {
            dx := dx + 3.0;
          } else {
            dx := dx - 3.0;
          }
        } else {
          if x - BallRadius < leftEdge {
            x := leftEdge + BallRadius;
            dx := Abs(dx) * 0.3 + 2.0;
          } else if x + BallRadius > rightEdge {
            x := rightEdge - BallRadius;
            dx := -Abs(dx) * 0.3 - 2.0;
          }
        }
      }
    }

    /** collide_with (lottery_ball.py:332-354): the pair exchange with the
        distance measured between the two centres. */
    method CollideWith(other: Ball, sqrt: real -> real)
      requires other != this
      modifies this, other
      ensures Pair(Current(), other.Current()) ==
              Exchange(old(Current()), old(other.Current()),
                       Length(old(other.x - x), old(other.y - y), sqrt))
      ensures Status() == old(Status()) && other.Status() == old(other.Status())
    {
      var dist := Length(other.x - x, other.y - y, sqrt);
      if dist < BallRadius + BallRadius && dist > 0.0 {
        var r := Exchange(Current(), other.Current(), dist);
        SetMotion(r.a);
        other.SetMotion(r.b);
      }
    }

    /** The peg, platform and spinner loops of move (lottery_ball.py:259-282). */
    method PassBeforePads(z: Maze, maths: Maths, d: Draws)
      requires MazeDistinct(z) && DrawsFor(d, z)
      modifies this, z.pegs
      ensures Current() == BeforePads(old(Current()), z, maths, d)
      ensures Status() == old(Status())
      ensures PegLights(z.pegs) ==
              Restart(old(PegLights(z.pegs)), PegHits(old(Current()), z.pegs, maths.sqrt, d.peg), PegHitTicks)
    {
      BouncePegs(z.pegs, maths.sqrt, d.peg);
      label pegs:
      BouncePlatforms(z.platforms, maths.sqrt, d.platform);
      BounceSpinners(z.spinners, maths);
      assert unchanged@pegs(z.pegs);
    }

    /** The obstacle block of move (lottery_ball.py:257-298), run while the
        maze stands: pegs, platforms, spinners and pads in turn, then the stuck
        detector on the height reached. */
    method PassObstacles(z: Maze, maths: Maths, d: Draws)
      requires Valid() && MazeDistinct(z) && DrawsFor(d, z)
      modifies this, z.pegs, z.pads
      ensures Valid()
      ensures Current() == Obstacles(old(Current()), z, maths, d)
      ensures Status() == Tracked(old(Status()), y)
      ensures PegLights(z.pegs) ==
              Restart(old(PegLights(z.pegs)), PegHits(old(Current()), z.pegs, maths.sqrt, d.peg), PegHitTicks)
      ensures PadLights(z.pads) ==
              Restart(old(PadLights(z.pads)), PadHits(BeforePads(old(Current()), z, maths, d), z.pads, d.pad), PadActiveTicks)
    {
      PassBeforePads(z, maths, d);
      label pads:
      BouncePads(z.pads, d.pad);
      TrackStuck();
      assert unchanged@pads(z.pegs);
    }

    /** The ball's own step within move (lottery_ball.py:236-326): everything
        before the collisions with the other balls. */
    method OwnMove(z: Maze, mazeBroken: bool, maths: Maths, d: Draws)
      requires Valid() && MazeDistinct(z) && DrawsFor(d, z)
      modifies this, z.pegs, z.pads
      ensures Valid()
      ensures Current() == OwnStep(old(Current()), z, mazeBroken, maths, d)
      ensures Status() == StatusAfter(old(Status()), old(Current()), z, mazeBroken, maths, d)
      ensures PegLights(z.pegs) == PegLightsAfter(old(PegLights(z.pegs)), old(Current()), z, mazeBroken, maths, d)
      ensures PadLights(z.pads) == PadLightsAfter(old(PadLights(z.pads)), old(Current()), z, mazeBroken, maths, d)
    {
      Integrate();
      if !mazeBroken {
        PassObstacles(z, maths, d);
      }
      EnterFunnel();
      if y > FinishY {
        finished := true;
      }
    }

    /** The ball's own step within move, seen from the roster: only this
        ball's motion and status change, so each summed coordinate changes by
        this ball's own displacement. */
    method OwnMoveInRoster(z: Maze, balls: seq<Ball>, ghost me: nat, mazeBroken: bool, maths: Maths, d: Draws)
      requires Valid() && MazeDistinct(z) && DrawsFor(d, z)
      requires me < |balls| && balls[me] == this && DistinctBalls(balls)
      modifies this, z.pegs, z.pads
      ensures Valid()
      ensures Current() == OwnStep(old(Current()), z, mazeBroken, maths, d)
      ensures Status() == StatusAfter(old(Status()), old(Current()), z, mazeBroken, maths, d)
      ensures Statuses(balls) == old(Statuses(balls))[me := Status()]
      ensures Motions(balls) == old(Motions(balls))[me := Current()]
      ensures Totals(balls) == Replace(old(Totals(balls)), old(Current()), Current())
      ensures PegLights(z.pegs) == PegLightsAfter(old(PegLights(z.pegs)), old(Current()), z, mazeBroken, maths, d)
      ensures PadLights(z.pads) == PadLightsAfter(old(PadLights(z.pads)), old(Current()), z, mazeBroken, maths, d)
    {
      ghost var before, statuses := Motions(balls), Statuses(balls);
      OwnMove(z, mazeBroken, maths, d);
      ghost var after := Motions(balls);
      assert forall k :: 0 <= k < |balls| && k != me ==> after[k] == before[k];
      assert Statuses(balls) == statuses[me := Status()];
      assert after == before[me := Current()];
      OneMovedTotals(before, after, me, Current());
    }

    /** Ball.move (lottery_ball.py:232-330) once the game runs and this
        ball is not finished: the ball takes its own step (own), and then
        collides with the unfinished balls. Those collisions keep every
        summed coordinate; no ball's status changes beyond this ball's own
        step. */
    method MoveStarted(z: Maze, balls: seq<Ball>, ghost me: nat, mazeBroken: bool, maths: Maths, d: Draws)
      returns (ghost own: Motion)
      requires Valid() && MazeDistinct(z) && DrawsFor(d, z)
      requires me < |balls| && balls[me] == this && DistinctBalls(balls)
      modifies balls, z.pegs, z.pads
      ensures Valid()
      ensures own == OwnStep(old(Current()), z, mazeBroken, maths, d)
      ensures Status() == StatusAfter(old(Status()), old(Current()), z, mazeBroken, maths, d)
      ensures Statuses(balls) == old(Statuses(balls))[me := Status()]
      ensures Motions(balls) == Pushes(old(Motions(balls))[me := own], Statuses(balls), me, 0, maths.sqrt)
      ensures Totals(balls) == Replace(old(Totals(balls)), old(Current()), own)
      ensures PegLights(z.pegs) == PegLightsAfter(old(PegLights(z.pegs)), old(Current()), z, mazeBroken, maths, d)
      ensures PadLights(z.pads) == PadLightsAfter(old(PadLights(z.pads)), old(Current()), z, mazeBroken, maths, d)
    {
      OwnMoveInRoster(z, balls, me, mazeBroken, maths, d);
      own := Current();
      label collisions:
      CollideWithOthers(balls, me, maths.sqrt);
      assert unchanged@collisions(z.pegs) && unchanged@collisions(z.pads);
    }

    /** Ball.move (lottery_ball.py:232-330): a finished ball, or any ball
        before the start, does not move at all; otherwise the moves of
        MoveStarted. */
    method Move(z: Maze, balls: seq<Ball>, ghost me: nat, gameStarted: bool, mazeBroken: bool,
                maths: Maths, d: Draws) returns (ghost own: Motion)
      requires Valid() && MazeDistinct(z) && DrawsFor(d, z)
      requires me < |balls| && balls[me] == this && DistinctBalls(balls)
      modifies balls, z.pegs, z.pads
      ensures Valid()
      ensures old(finished) || !gameStarted ==>
        own == old(Current()) && Statuses(balls) == old(Statuses(balls)) && Motions(balls) == old(Motions(balls)) &&
        PegLights(z.pegs) == old(PegLights(z.pegs)) && PadLights(z.pads) == old(PadLights(z.pads))
      ensures !old(finished) && gameStarted ==>
        own == OwnStep(old(Current()), z, mazeBroken, maths, d) &&
        Status() == StatusAfter(old(Status()), old(Current()), z, mazeBroken, maths, d) &&
        Statuses(balls) == old(Statuses(balls))[me := Status()] &&
        Motions(balls) == Pushes(old(Motions(balls))[me := own], Statuses(balls), me, 0, maths.sqrt) &&
        Totals(balls) == Replace(old(Totals(balls)), old(Current()), own) &&
        PegLights(z.pegs) == PegLightsAfter(old(PegLights(z.pegs)), old(Current()), z, mazeBroken, maths, d) &&
        PadLights(z.pads) == PadLightsAfter(old(PadLights(z.pads)), old(Current()), z, mazeBroken, maths, d)
    {
      own := Current();
      if finished {
        return;
      }
      if !gameStarted {
        return;
      }
      own := MoveStarted(z, balls, me, mazeBroken, maths, d);
    }

    /** One pair of the last loop of move: the exchange with ball i keeps
        every summed coordinate of the balls and every ball's status. */
    method CollideInRoster(balls: seq<Ball>, ghost me: nat, i: nat, sqrt: real -> real)
      requires me < |balls| && i < |balls| && me != i
      requires balls[me] == this && DistinctBalls(balls)
      modifies this, balls[i]
      ensures Motions(balls) == PushPair(old(Motions(balls)), me, i, sqrt)
      ensures Totals(balls) == old(Totals(balls))
      ensures Statuses(balls) == old(Statuses(balls)) && Status() == old(Status())
    {
      var other := balls[i];
      ghost var before, statuses := Motions(balls), Statuses(balls);
      ghost var dist := Length(other.x - x, other.y - y, sqrt);
      CollideWith(other, sqrt);
      ghost var after := Motions(balls);
      assert Statuses(balls) == statuses;
      assert Pair(after[me], after[i]) == Exchange(before[me], before[i], dist);
      assert forall k :: 0 <= k < |balls| && k != me && k != i ==> after[k] == before[k];
      PairMovedTotals(before, after, me, i, dist);
      PairPushed(before, after, me, i, sqrt);
    }

    /** The last loop of move (lottery_ball.py:328-330): this ball collides
        with every other ball that has not finished. The summed position and
        velocity of all balls never change, and no ball's status does. */
    method CollideWithOthers(balls: seq<Ball>, ghost me: nat, sqrt: real -> real)
      requires me < |balls| && balls[me] == this && DistinctBalls(balls)
      modifies balls
      ensures Motions(balls) == Pushes(old(Motions(balls)), old(Statuses(balls)), me, 0, sqrt)
      ensures Totals(balls) == old(Totals(balls))
      ensures Statuses(balls) == old(Statuses(balls)) && Status() == old(Status())
    {
      ghost var statuses := Statuses(balls);
      ghost var pushed := Pushes(Motions(balls), statuses, me, 0, sqrt);
      for i := 0 to |balls|
        invariant Pushes(Motions(balls), statuses, me, i, sqrt) == pushed
        invariant Statuses(balls) == statuses && Status() == old(Status())
      {
        var other := balls[i];
        ghost var ms := Motions(balls);
        assert other.finished == statuses[i].finished && (other == this <==> i == me);
        if other != this && !other.finished {
          CollideInRoster(balls, me, i, sqrt);
        }
        PushesStep(ms, Motions(balls), statuses, me, i, sqrt);
      }
      PushesTotals(old(Motions(balls)), statuses, me, 0, sqrt);
    }
  }
}
