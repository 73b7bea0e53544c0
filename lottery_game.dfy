/** The game state and the per-tick update of the ball-drop lottery
    (lottery_ball.py:525-655): the roster commands of the event loop and
    the update that turns the spinners, counts the pads down, moves every
    ball, breaks the maze once the balls are stuck often enough, latches
    the winner and lets the peg lamps fade. The state lives in local
    variables of main; here it is the class Game. */
module LotteryGame {
  import opened LotteryPhysics
  import opened LotteryWorld

  const MaxBalls: nat := 15
  const MaxHits: nat := 100

  /** BALL_COLORS, in order. */
  const BallColors: seq<Color> := [
    Color(255, 80, 80), Color(255, 165, 0), Color(255, 230, 100), Color(100, 255, 100),
    Color(100, 150, 255), Color(200, 100, 255), Color(255, 150, 200), Color(100, 255, 255)]

  /** GAME_LEFT + 70: the leftmost of the five start columns, 155 apart. */
  const FirstColumn: int := 120
  const ColumnGap: int := 155

  /** Where the winner is shown: below the funnel, on its axis. */
  const WinnerX: real := FunnelX
  const WinnerY: real := FunnelBottomY + 65.0

  /** One entry of names_colors: what retry rebuilds a ball from. */
  datatype Entrant = Entrant(name: string, color: Color, startX: int)

  /** The launch velocity start gives one ball. */
  datatype Launch = Launch(dx: real, dy: real)

  function Countdowns(lights: seq<Timer>): (r: seq<Timer>)
    ensures |r| == |lights|
  {
    seq(|lights|, i requires 0 <= i < |lights| => Countdown(lights[i]))
  }

  predicate DistinctSpinners(s: seq<Spinner>) {
    forall i, j :: 0 <= i < j < |s| ==> s[i] != s[j]
  }

  /** The spinner angles, in maze order. */
  function Angles(spinners: seq<Spinner>): (r: seq<real>)
    reads spinners
    ensures |r| == |spinners|
  {
    seq(|spinners|, k requires 0 <= k < |spinners| reads spinners => spinners[k].angle)
  }

  /** The spinner angles one turn on: each moved by its own speed. */
  function Turned(spinners: seq<Spinner>): (r: seq<real>)
    reads spinners
    ensures |r| == |spinners|
  {
    seq(|spinners|, k requires 0 <= k < |spinners| reads spinners => spinners[k].angle + spinners[k].speed)
  }

  /** sum(ball.stuck_count for ball in balls). */
  function StuckTotal(st: seq<BallStatus>): nat {
    if |st| == 0 then 0 else StuckTotal(st[..|st| - 1]) + st[|st| - 1].stuckCount
  }

  /** The finished flags, in roster order. */
  function FinishedFlags(st: seq<BallStatus>): (r: seq<bool>)
    ensures |r| == |st|
  {
    seq(|st|, k requires 0 <= k < |st| => st[k].finished)
  }

  /** The statuses after the winner check: the ball at index first, if
      any, carries the winner flag. */
  function Crown(st: seq<BallStatus>, first: int): (r: seq<BallStatus>)
    ensures |r| == |st|
  {
    seq(|st|, k requires 0 <= k < |st| => if k == first then st[k].(winner := true) else st[k])
  }

  /** The motions after the winner check: the ball at index first, if any,
      is put in the winner's spot. */
  function Place(ms: seq<Motion>, first: int): (r: seq<Motion>)
    ensures |r| == |ms|
  {
    seq(|ms|, k requires 0 <= k < |ms| => if k == first then ms[k].(x := WinnerX, y := WinnerY) else ms[k])
  }

  /** The first index holding true, or -1 when there is none. */
  function FirstTrue(s: seq<bool>): (r: int)
    ensures -1 <= r < |s|
    ensures r >= 0 ==> s[r] && forall j :: 0 <= j < r ==> !s[j]
    ensures r == -1 ==> forall j :: 0 <= j < |s| ==> !s[j]
  {
    if |s| == 0 then -1
    else if s[0] then 0
    else
      var r := FirstTrue(s[1..]);
      if r == -1 then -1 else r + 1
  }

  /** The launch loop of start: each ball keeps its place and gets its
      launch velocity. */
  method LaunchAll(balls: seq<Ball>, launch: seq<Launch>)
    requires |launch| == |balls| && DistinctBalls(balls)
    modifies balls
    ensures forall k :: 0 <= k < |balls| ==>
      balls[k].Current() == Motion(old(balls[k].x), old(balls[k].y), launch[k].dx, launch[k].dy) &&
      balls[k].Status() == old(balls[k].Status())
  {
    for i := 0 to |balls|
      invariant forall k :: 0 <= k < i ==>
        balls[k].Current() == Motion(old(balls[k].x), old(balls[k].y), launch[k].dx, launch[k].dy) &&
        balls[k].Status() == old(balls[k].Status())
      invariant forall k :: i <= k < |balls| ==> unchanged(balls[k])
    {
      balls[i].dx := launch[i].dx;
      balls[i].dy := launch[i].dy;
    }
  }

  /** The roster loop of retry: a fresh ball per entry, in entry order, each
      at its entry's start column moved by its offset. */
  method Roster(entrants: seq<Entrant>, offsets: seq<int>) returns (roster: seq<Ball>)
    requires |offsets| == |entrants|
    ensures |roster| == |entrants| && DistinctBalls(roster)
    ensures forall j :: 0 <= j < |roster| ==>
      fresh(roster[j]) && roster[j].name == entrants[j].name && roster[j].color == entrants[j].color &&
      roster[j].startX == entrants[j].startX + offsets[j] && roster[j].AtStart() && roster[j].Valid()
  {
    roster := [];
    for k := 0 to |entrants|
      invariant |roster| == k && DistinctBalls(roster)
      invariant forall j :: 0 <= j < k ==>
        fresh(roster[j]) && roster[j].name == entrants[j].name && roster[j].color == entrants[j].color &&
        roster[j].startX == entrants[j].startX + offsets[j] && roster[j].AtStart() && roster[j].Valid()
    {
      var e := entrants[k];
      var ball := new Ball(e.name, e.color, e.startX + offsets[k]);
      roster := roster + [ball];
    }
  }

  /** Every status is valid, and exactly the winner carries the winner flag. */
  predicate Flags(st: seq<BallStatus>, balls: seq<Ball>, winner: Ball?) {
    |st| == |balls| && (winner != null ==> winner in balls) && AllValid(st) &&
    forall k :: 0 <= k < |st| ==> (st[k].winner <==> balls[k] == winner)
  }

  predicate AllValid(st: seq<BallStatus>) {
    forall k :: 0 <= k < |st| ==> StatusValid(st[k])
  }

  /** What one ball's move may do to a ball's status: keep it valid, never
      clear finished, never change the winner flag, and while the maze is
      broken never change the stuck count. */
  predicate Kept(s0: BallStatus, s: BallStatus, mazeBroken: bool) {
    s.winner == s0.winner && (s0.finished ==> s.finished) &&
    (mazeBroken ==> s.stuckCount == s0.stuckCount)
  }

  predicate StatusesKept(s0: seq<BallStatus>, s: seq<BallStatus>, mazeBroken: bool) {
    |s| == |s0| && forall k :: 0 <= k < |s| ==> Kept(s0[k], s[k], mazeBroken)
  }

  lemma StatusesKeptTrans(s0: seq<BallStatus>, s1: seq<BallStatus>, s2: seq<BallStatus>, mazeBroken: bool)
    requires StatusesKept(s0, s1, mazeBroken) && StatusesKept(s1, s2, mazeBroken)
    ensures StatusesKept(s0, s2, mazeBroken)
  {
  }

  lemma KeptFlags(s0: seq<BallStatus>, s: seq<BallStatus>, balls: seq<Ball>, winner: Ball?, mazeBroken: bool)
    requires Flags(s0, balls, winner) && StatusesKept(s0, s, mazeBroken) && AllValid(s)
    ensures Flags(s, balls, winner)
  {
  }

  /** Each lamp is as it was or was lit afresh for ticks. */
  predicate LitOrKept(l0: seq<Timer>, l: seq<Timer>, ticks: int) {
    |l| == |l0| && forall j :: 0 <= j < |l| ==> l[j] == l0[j] || l[j] == Timer(true, ticks)
  }

  lemma LitOrKeptTrans(l0: seq<Timer>, l1: seq<Timer>, l2: seq<Timer>, ticks: int)
    requires LitOrKept(l0, l1, ticks) && LitOrKept(l1, l2, ticks)
    ensures LitOrKept(l0, l2, ticks)
  {
  }

  /** A lamp lit at t > 1 shows t - 1 after one countdown. */
  lemma CountdownsLit(l0: seq<Timer>, l: seq<Timer>, t: int)
    requires LitOrKept(l0, l, t) && t > 1
    ensures LitOrKept(Countdowns(l0), Countdowns(l), t - 1)
  {
  }

  /** Two rosters of statuses with the same finished flags and stuck counts. */
  predicate SameCounts(s0: seq<BallStatus>, s: seq<BallStatus>) {
    |s| == |s0| &&
    forall k :: 0 <= k < |s| ==> s[k].finished == s0[k].finished && s[k].stuckCount == s0[k].stuckCount
  }

  /** Crowning a ball keeps every finished flag and every stuck count, so
      the total of the stuck counts too. */
  lemma {:induction false} CrownKeeps(st: seq<BallStatus>, first: int)
    ensures FinishedFlags(Crown(st, first)) == FinishedFlags(st)
    ensures SameCounts(st, Crown(st, first))
    ensures StuckTotal(Crown(st, first)) == StuckTotal(st)
  {
    if |st| > 0 {
      var n := |st| - 1;
      CrownKeeps(st[..n], first);
      assert Crown(st, first)[..n] == Crown(st[..n], first);
    }
  }

  /** The winner check crowns the first finished ball, which is finished;
      so the winner flags again mark exactly the winner. */
  lemma CrownFlags(st: seq<BallStatus>, balls: seq<Ball>)
    requires Flags(st, balls, null) && DistinctBalls(balls)
    ensures var first := FirstTrue(FinishedFlags(st));
      Flags(Crown(st, first), balls, if first < 0 then null else balls[first])
  {
  }

  /** The winner check of the update (lottery_ball.py:631-637), run while
      there is no winner yet: the first finished ball in roster order, if
      any, becomes the winner and is put in the winner's spot; no other
      ball changes. */
  method Latch(balls: seq<Ball>) returns (w: Ball?)
    requires DistinctBalls(balls)
    modifies balls
    ensures var first := FirstTrue(FinishedFlags(old(Statuses(balls))));
      w == (if first < 0 then null else balls[first]) &&
      Statuses(balls) == Crown(old(Statuses(balls)), first) &&
      Motions(balls) == Place(old(Motions(balls)), first)
  {
    ghost var statuses, motions := Statuses(balls), Motions(balls);
    ghost var first := FirstTrue(FinishedFlags(statuses));
    w := null;
    for i := 0 to |balls|
      invariant w == (if 0 <= first < i then balls[first] else null)
      invariant forall k :: 0 <= k < |balls| ==>
        balls[k].Status() == (if k == first && first < i then statuses[k].(winner := true) else statuses[k]) &&
        balls[k].Current() == (if k == first && first < i then motions[k].(x := WinnerX, y := WinnerY) else motions[k])
    {
      var ball := balls[i];
      assert ball.finished == FinishedFlags(statuses)[i];
      if ball.finished && w == null {
        w := ball;
        ball.winner := true;
        ball.x := WinnerX;
        ball.y := WinnerY;
      }
    }
  }

  /** The balls of a roster as values: their motions and their statuses. */
  datatype Crowd = Crowd(motions: seq<Motion>, statuses: seq<BallStatus>)

  function CrowdOf(balls: seq<Ball>): Crowd
    reads balls
  {
    Crowd(Motions(balls), Statuses(balls))
  }

  /** Ball.move of ball i in a started game (lottery_ball.py:232-330), as
      values: a finished ball stays as it is; any other ball takes its own
      step and then collides with the other unfinished balls. */
  function MoveBall(c: Crowd, i: nat, z: Maze, mazeBroken: bool, maths: Maths, d: Draws): (r: Crowd)
    requires |c.motions| == |c.statuses| && i < |c.statuses| && AllValid(c.statuses) && DrawsFor(d, z)
    ensures |r.motions| == |r.statuses| == |c.statuses| && AllValid(r.statuses)
  {
    if c.statuses[i].finished then c
    else
      StatusAfterKeeps(c.statuses[i], c.motions[i], z, mazeBroken, maths, d);
      var st := c.statuses[i := StatusAfter(c.statuses[i], c.motions[i], z, mazeBroken, maths, d)];
      Crowd(Pushes(c.motions[i := OwnStep(c.motions[i], z, mazeBroken, maths, d)], st, i, 0, maths.sqrt), st)
  }

  /** Every ball's draws fit the maze. */
  predicate AllDrawsFor(draws: seq<Draws>, z: Maze) {
    forall k :: 0 <= k < |draws| ==> DrawsFor(draws[k], z)
  }

  /** What Ball.Move states about ball i's move, on values (c, p, q
      before, c1, p1, q1 after), gives what one pass of the ball loop keeps,
      and in a started game the move is MoveBall. */
  lemma MoveOneFacts(c: Crowd, p: seq<Timer>, q: seq<Timer>, c1: Crowd, p1: seq<Timer>, q1: seq<Timer>, own: Motion,
                     i: nat, z: Maze, gameStarted: bool, mazeBroken: bool, maths: Maths, d: Draws)
    requires |c.motions| == |c.statuses| && i < |c.statuses| && AllValid(c.statuses) && DrawsFor(d, z)
    requires |p| == |z.pegs| && |q| == |z.pads|
    requires c.statuses[i].finished || !gameStarted ==> c1 == c && p1 == p && q1 == q
    requires !c.statuses[i].finished && gameStarted ==>
      own == OwnStep(c.motions[i], z, mazeBroken, maths, d) &&
      c1.statuses == c.statuses[i := StatusAfter(c.statuses[i], c.motions[i], z, mazeBroken, maths, d)] &&
      c1.motions == Pushes(c.motions[i := own], c1.statuses, i, 0, maths.sqrt) &&
      p1 == PegLightsAfter(p, c.motions[i], z, mazeBroken, maths, d) &&
      q1 == PadLightsAfter(q, c.motions[i], z, mazeBroken, maths, d)
    ensures |c1.motions| == |c1.statuses| && AllValid(c1.statuses)
    ensures StatusesKept(c.statuses, c1.statuses, mazeBroken)
    ensures mazeBroken || !gameStarted ==> p1 == p && q1 == q
    ensures !gameStarted ==> c1 == c
    ensures LitOrKept(p, p1, PegHitTicks) && LitOrKept(q, q1, PadActiveTicks)
    ensures gameStarted ==> c1 == MoveBall(c, i, z, mazeBroken, maths, d)
  {
    StatusAfterKeeps(c.statuses[i], c.motions[i], z, mazeBroken, maths, d);
  }

  /** The ball loop of the update (lottery_ball.py:621-622) from ball i on,
      in roster order, each ball with its own draws. */
  function MovesFrom(c: Crowd, i: nat, z: Maze, mazeBroken: bool, maths: Maths, draws: seq<Draws>): (r: Crowd)
    requires |c.motions| == |c.statuses| == |draws| && i <= |draws| && AllValid(c.statuses)
    requires AllDrawsFor(draws, z)
    ensures |r.motions| == |r.statuses| == |c.statuses| && AllValid(r.statuses)
    decreases |draws| - i
  {
    if i == |draws| then c
    else MovesFrom(MoveBall(c, i, z, mazeBroken, maths, draws[i]), i + 1, z, mazeBroken, maths, draws)
  }

  /** One pass of the ball loop leaves the rest of the loop to do. */
  lemma MovesStep(c: Crowd, c1: Crowd, i: nat, z: Maze, mazeBroken: bool, maths: Maths, draws: seq<Draws>)
    requires |c.motions| == |c.statuses| == |draws| && i < |draws| && AllValid(c.statuses)
    requires AllDrawsFor(draws, z)
    requires c1 == MoveBall(c, i, z, mazeBroken, maths, draws[i])
    ensures MovesFrom(c1, i + 1, z, mazeBroken, maths, draws) == MovesFrom(c, i, z, mazeBroken, maths, draws)
  {
  }

  /** What the ball loop keeps after its first i passes, on values: the
      statuses c.statuses keep the flags of c0, each lamp of pegs and pads is
      as in p0 and q0 or freshly lit (and untouched while the maze is broken),
      before the start nothing has changed, and in a started game the rest of
      the loop from c ends in moved. */
  ghost predicate BallLoop(c0: Crowd, p0: seq<Timer>, q0: seq<Timer>, moved: Crowd,
                           c: Crowd, p: seq<Timer>, q: seq<Timer>, i: nat,
                           z: Maze, gameStarted: bool, mazeBroken: bool, maths: Maths, draws: seq<Draws>)
  {
    |c.motions| == |c.statuses| == |draws| && i <= |draws| && AllValid(c.statuses) && AllDrawsFor(draws, z) &&
    StatusesKept(c0.statuses, c.statuses, mazeBroken) &&
    (mazeBroken ==> p == p0 && q == q0) &&
    (!gameStarted ==> c == c0 && p == p0 && q == q0) &&
    LitOrKept(p0, p, PegHitTicks) && LitOrKept(q0, q, PadActiveTicks) &&
    (gameStarted ==> MovesFrom(c, i, z, mazeBroken, maths, draws) == moved)
  }

  /** Ball i's move, as MoveOne states it, keeps BallLoop. */
  lemma BallLoopStep(c0: Crowd, p0: seq<Timer>, q0: seq<Timer>, moved: Crowd,
                     c1: Crowd, p1: seq<Timer>, q1: seq<Timer>, c2: Crowd, p2: seq<Timer>, q2: seq<Timer>, i: nat,
                     z: Maze, gameStarted: bool, mazeBroken: bool, maths: Maths, draws: seq<Draws>)
    requires BallLoop(c0, p0, q0, moved, c1, p1, q1, i, z, gameStarted, mazeBroken, maths, draws) && i < |draws|
    requires |c2.motions| == |c2.statuses| && AllValid(c2.statuses)
    requires StatusesKept(c1.statuses, c2.statuses, mazeBroken)
    requires mazeBroken || !gameStarted ==> p2 == p1 && q2 == q1
    requires !gameStarted ==> c2 == c1
    requires LitOrKept(p1, p2, PegHitTicks) && LitOrKept(q1, q2, PadActiveTicks)
    requires gameStarted ==> c2 == MoveBall(c1, i, z, mazeBroken, maths, draws[i])
    ensures BallLoop(c0, p0, q0, moved, c2, p2, q2, i + 1, z, gameStarted, mazeBroken, maths, draws)
  {
    StatusesKeptTrans(c0.statuses, c1.statuses, c2.statuses, mazeBroken);
    LitOrKeptTrans(p0, p1, p2, PegHitTicks);
    LitOrKeptTrans(q0, q1, q2, PadActiveTicks);
    if gameStarted {
      MovesStep(c1, c2, i, z, mazeBroken, maths, draws);
    }
  }

  /** A ball that has finished is never moved again: not by its own move,
      which returns at once, and not by the others, which skip it. */
  lemma {:induction false} MovesKeepFinished(c: Crowd, i: nat, z: Maze, mazeBroken: bool, maths: Maths,
                                             draws: seq<Draws>, k: nat)
    requires |c.motions| == |c.statuses| == |draws| && i <= |draws| && AllValid(c.statuses)
    requires AllDrawsFor(draws, z)
    requires k < |draws| && c.statuses[k].finished
    ensures MovesFrom(c, i, z, mazeBroken, maths, draws).motions[k] == c.motions[k]
    ensures MovesFrom(c, i, z, mazeBroken, maths, draws).statuses[k] == c.statuses[k]
    decreases |draws| - i
  {
    if i < |draws| {
      var c1 := MoveBall(c, i, z, mazeBroken, maths, draws[i]);
      if !c.statuses[i].finished {
        var st := c.statuses[i := StatusAfter(c.statuses[i], c.motions[i], z, mazeBroken, maths, draws[i])];
        PushesKeep(c.motions[i := OwnStep(c.motions[i], z, mazeBroken, maths, draws[i])], st, i, 0, maths.sqrt, k);
      }
      MovesKeepFinished(c1, i + 1, z, mazeBroken, maths, draws, k);
    }
  }

  /** What one update can change in a game, as values: the balls' statuses
      and motions, the peg and pad lamps, the spinner angles, the winner and
      the broken flag. */
  datatype View = View(statuses: seq<BallStatus>, motions: seq<Motion>, pegLights: seq<Timer>,
                       padLights: seq<Timer>, angles: seq<real>, winner: Ball?, mazeBroken: bool)

  /** The update up to the maze check (lottery_ball.py:612-628), from v0 to
      v1: the spinners turn while the maze stands, the pads count down, the
      balls move, ending in a started game as moved, keeping their flags
      and, while the maze is broken, their stuck counts; every lamp is as it was after its countdown or freshly
      lit, and nothing but the countdown happens before the start; the maze
      breaks once the stuck counts of a started game reach 100. */
  ghost predicate Moved(v0: View, v1: View, balls: seq<Ball>, gameStarted: bool, turned: seq<real>, moved: Crowd) {
    v1.winner == v0.winner && |v1.motions| == |balls| &&
    (gameStarted ==> v1.motions == moved.motions && v1.statuses == moved.statuses) &&
    Flags(v1.statuses, balls, v1.winner) &&
    StatusesKept(v0.statuses, v1.statuses, v0.mazeBroken) &&
    v1.mazeBroken == (v0.mazeBroken || (gameStarted && StuckTotal(v1.statuses) >= MaxHits)) &&
    v1.angles == (if v0.mazeBroken then v0.angles else turned) &&
    (!gameStarted ==> v1.statuses == v0.statuses && v1.motions == v0.motions) &&
    LitOrKept(Countdowns(v0.padLights), v1.padLights, PadActiveTicks) &&
    (v0.mazeBroken || !gameStarted ==> v1.padLights == Countdowns(v0.padLights)) &&
    LitOrKept(v0.pegLights, v1.pegLights, PegHitTicks) &&
    (v0.mazeBroken || !gameStarted ==> v1.pegLights == v0.pegLights)
  }

  /** The first half of an update (lottery_ball.py:612-622), from v0 to
      va: the spinners turn while the maze stands, the pads count down and
      the balls move, ending in a started game as moved; no flag is cleared,
      no winner flag changes and, while the maze is broken, no stuck count
      changes; each lamp is as it was after its countdown or freshly lit, and
      before the start or while the maze is broken nothing is lit. */
  ghost predicate Advanced(v0: View, va: View, gameStarted: bool, turned: seq<real>, moved: Crowd) {
    va.winner == v0.winner && va.mazeBroken == v0.mazeBroken && |va.motions| == |va.statuses| &&
    va.angles == (if v0.mazeBroken then v0.angles else turned) &&
    AllValid(va.statuses) && StatusesKept(v0.statuses, va.statuses, v0.mazeBroken) &&
    (!gameStarted ==> va.statuses == v0.statuses && va.motions == v0.motions) &&
    (gameStarted ==> va.motions == moved.motions && va.statuses == moved.statuses) &&
    LitOrKept(Countdowns(v0.padLights), va.padLights, PadActiveTicks) &&
    (v0.mazeBroken || !gameStarted ==> va.padLights == Countdowns(v0.padLights)) &&
    LitOrKept(v0.pegLights, va.pegLights, PegHitTicks) &&
    (v0.mazeBroken || !gameStarted ==> va.pegLights == v0.pegLights)
  }

  /** An Advanced step (from v0 to va) and the maze check (from va to v1)
      make up a Moved step. */
  lemma MovedBy(v0: View, va: View, v1: View, balls: seq<Ball>, gameStarted: bool, turned: seq<real>, moved: Crowd)
    requires Flags(v0.statuses, balls, v0.winner) && |va.motions| == |balls|
    requires Advanced(v0, va, gameStarted, turned, moved)
    requires v1 == va.(mazeBroken := v0.mazeBroken || (gameStarted && StuckTotal(va.statuses) >= MaxHits))
    ensures Moved(v0, v1, balls, gameStarted, turned, moved)
  {
    KeptFlags(v0.statuses, va.statuses, balls, v0.winner, v0.mazeBroken);
  }

  /** The winner check (lottery_ball.py:631-637), from v1 to v2: in a
      started game without a winner the first finished ball becomes the
      winner and goes to the winner's spot; no flag but its winner flag and
      no stuck count change, and the flags keep marking exactly the winner. */
  ghost predicate Latched(v1: View, v2: View, balls: seq<Ball>, gameStarted: bool) {
    var first := FirstTrue(FinishedFlags(v2.statuses));
    v2.pegLights == v1.pegLights && v2.padLights == v1.padLights && v2.angles == v1.angles &&
    v2.mazeBroken == v1.mazeBroken &&
    Flags(v2.statuses, balls, v2.winner) &&
    FinishedFlags(v2.statuses) == FinishedFlags(v1.statuses) &&
    SameCounts(v1.statuses, v2.statuses) &&
    StuckTotal(v2.statuses) == StuckTotal(v1.statuses) &&
    if gameStarted && v1.winner == null then
      v2.winner == (if first < 0 then null else balls[first]) &&
      v2.statuses == Crown(v1.statuses, first) && v2.motions == Place(v1.motions, first)
    else
      v2.winner == v1.winner && v2.statuses == v1.statuses && v2.motions == v1.motions
  }

  /** The peg countdown (lottery_ball.py:647-655), from v2 to v3. */
  ghost predicate Faded(v2: View, v3: View) {
    v3 == v2.(pegLights := if v2.mazeBroken then v2.pegLights else Countdowns(v2.pegLights))
  }

  /** The winner check's effect, crowning and placing the first finished
      ball, is a Latched step. */
  lemma LatchedBy(v1: View, v2: View, balls: seq<Ball>, gameStarted: bool)
    requires DistinctBalls(balls) && Flags(v1.statuses, balls, v1.winner)
    requires v2.pegLights == v1.pegLights && v2.padLights == v1.padLights && v2.angles == v1.angles
    requires v2.mazeBroken == v1.mazeBroken
    requires var first := FirstTrue(FinishedFlags(v1.statuses));
      if gameStarted && v1.winner == null then
        v2.winner == (if first < 0 then null else balls[first]) &&
        v2.statuses == Crown(v1.statuses, first) && v2.motions == Place(v1.motions, first)
      else
        v2.winner == v1.winner && v2.statuses == v1.statuses && v2.motions == v1.motions
    ensures Latched(v1, v2, balls, gameStarted)
  {
    var first := FirstTrue(FinishedFlags(v1.statuses));
    if gameStarted && v1.winner == null {
      CrownKeeps(v1.statuses, first);
      CrownFlags(v1.statuses, balls);
    }
  }

  /** One whole update, from v0 to v3, in which the balls' own moves end
      in moved. */
  ghost predicate Stepped(v0: View, v3: View, balls: seq<Ball>, gameStarted: bool, turned: seq<real>, moved: Crowd) {
    var first := FirstTrue(FinishedFlags(v3.statuses));
    |v0.statuses| == |balls| && |v3.motions| == |balls| &&
    (gameStarted && v0.winner == null ==>
      v3.statuses == Crown(moved.statuses, first) && v3.motions == Place(moved.motions, first)) &&
    (gameStarted && v0.winner != null ==> v3.statuses == moved.statuses && v3.motions == moved.motions) &&
    Flags(v3.statuses, balls, v3.winner) &&
    v3.angles == (if v0.mazeBroken then v0.angles else turned) &&
    v3.mazeBroken == (v0.mazeBroken || (gameStarted && StuckTotal(v3.statuses) >= MaxHits)) &&
    (forall k :: 0 <= k < |balls| ==> (v0.statuses[k].finished ==> v3.statuses[k].finished)) &&
    (v0.mazeBroken ==> forall k :: 0 <= k < |balls| ==> v3.statuses[k].stuckCount == v0.statuses[k].stuckCount) &&
    (v0.winner != null ==> v3.winner == v0.winner) &&
    (v0.winner == null && gameStarted ==>
      v3.winner == (if first < 0 then null else balls[first]) &&
      (first >= 0 ==> v3.motions[first].x == WinnerX && v3.motions[first].y == WinnerY)) &&
    (!gameStarted ==> v3.statuses == v0.statuses && v3.motions == v0.motions) &&
    LitOrKept(Countdowns(v0.padLights), v3.padLights, PadActiveTicks) &&
    (v0.mazeBroken || !gameStarted ==> v3.padLights == Countdowns(v0.padLights)) &&
    (v3.mazeBroken ==> LitOrKept(v0.pegLights, v3.pegLights, PegHitTicks)) &&
    (!v3.mazeBroken ==> LitOrKept(Countdowns(v0.pegLights), v3.pegLights, PegHitTicks - 1)) &&
    (v0.mazeBroken || !gameStarted ==>
      v3.pegLights == if v3.mazeBroken then v0.pegLights else Countdowns(v0.pegLights))
  }

  /** Every ball of a roster at rest in its start column, as values. */
  predicate Resting(ms: seq<Motion>, st: seq<BallStatus>, balls: seq<Ball>) {
    |ms| == |st| == |balls| &&
    forall k :: 0 <= k < |balls| ==>
      ms[k] == Motion(balls[k].startX as real, StartY, 0.0, 0.0) && st[k] == BallStatus(false, false, 0, 0, StartY)
  }

  /** Resting says of the values what AtStart says of the balls. */
  lemma RestingAtStart(balls: seq<Ball>)
    ensures (forall k :: 0 <= k < |balls| ==> balls[k].AtStart()) <==> Resting(Motions(balls), Statuses(balls), balls)
  {
    if forall k :: 0 <= k < |balls| ==> balls[k].AtStart() {
      forall k | 0 <= k < |balls|
        ensures Motions(balls)[k] == Motion(balls[k].startX as real, StartY, 0.0, 0.0)
        ensures Statuses(balls)[k] == BallStatus(false, false, 0, 0, StartY)
      {
        assert balls[k].AtStart();
      }
    }
    if Resting(Motions(balls), Statuses(balls), balls) {
      forall k | 0 <= k < |balls|
        ensures balls[k].AtStart()
      {
        assert Motions(balls)[k] == balls[k].Current();
        assert Statuses(balls)[k] == balls[k].Status();
      }
    }
  }

  /** The three stages make up one update. */
  lemma StepStages(v0: View, v1: View, v2: View, v3: View, balls: seq<Ball>, gameStarted: bool, turned: seq<real>,
                    moved: Crowd)
    requires |v0.statuses| == |balls|
    requires Moved(v0, v1, balls, gameStarted, turned, moved) && Latched(v1, v2, balls, gameStarted) && Faded(v2, v3)
    ensures Stepped(v0, v3, balls, gameStarted, turned, moved)
  {
    if !v3.mazeBroken {
      CountdownsLit(v0.pegLights, v1.pegLights, PegHitTicks);
    }
  }

  class Game {
    var balls: seq<Ball>
    var entrants: seq<Entrant>
    var colorIndex: nat
    var winner: Ball?
    var gameStarted: bool
    var mazeBroken: bool
    const pegs: seq<Peg>
    const platforms: seq<Platform>
    const spinners: seq<Spinner>
    const pads: seq<BouncePad>

    /** The roster matches names_colors entry by entry and holds at most 15
        balls; the winner is the one ball whose winner flag is set; nothing
        has started moving, finished or won before the start; and the maze
        can only be broken in a started game. */
    ghost predicate Valid()
      reads this, balls
    {
      |balls| == |entrants| <= MaxBalls && colorIndex == |entrants| &&
      DistinctBalls(balls) && DistinctPegs(pegs) && DistinctPads(pads) && DistinctSpinners(spinners) &&
      (forall k :: 0 <= k < |balls| ==> balls[k].name == entrants[k].name && balls[k].color == entrants[k].color) &&
      (forall k :: 0 <= k < |entrants| ==> entrants[k].name != "") &&
      Flags(Statuses(balls), balls, winner) &&
      (mazeBroken ==> gameStarted) &&
      (!gameStarted ==> winner == null && forall k :: 0 <= k < |balls| ==> balls[k].AtStart())
    }

    /** At most one ball carries the winner flag, and the winner, once there
        is one, is a finished ball of the roster carrying it. */
    lemma OneWinner()
      requires Valid()
      ensures forall i, j :: 0 <= i < |balls| && 0 <= j < |balls| && balls[i].winner && balls[j].winner ==> i == j
      ensures winner != null ==> winner in balls && winner.winner && winner.finished
    {
      forall i, j | 0 <= i < |balls| && 0 <= j < |balls| && balls[i].winner && balls[j].winner
        ensures i == j
      {
        assert Statuses(balls)[i].winner && Statuses(balls)[j].winner;
      }
      if winner != null {
        var k :| 0 <= k < |balls| && balls[k] == winner;
        assert Statuses(balls)[k] == winner.Status();
      }
    }

    /** The part of the state one update changes, as a value. */
    function Look(): View
      reads this, balls, pegs, pads, spinners
    {
      View(Statuses(balls), Motions(balls), PegLights(pegs), PadLights(pads), Angles(spinners), winner, mazeBroken)
    }

    /** The maze as the balls see it in this tick. */
    function Layout(): Maze
      reads spinners
    {
      Maze(pegs, platforms, States(spinners), pads)
    }

    /** The state main sets up before its loop, around the obstacles that
        create_maze lays out. */
    constructor (pegs: seq<Peg>, platforms: seq<Platform>, spinners: seq<Spinner>, pads: seq<BouncePad>)
      requires DistinctPegs(pegs) && DistinctPads(pads) && DistinctSpinners(spinners)
      ensures Valid()
      ensures this.pegs == pegs && this.platforms == platforms && this.spinners == spinners && this.pads == pads
      ensures balls == [] && entrants == [] && winner == null && !gameStarted && !mazeBroken
    {
      this.pegs := pegs;
      this.platforms := platforms;
      this.spinners := spinners;
      this.pads := pads;
      balls, entrants, colorIndex := [], [], 0;
      winner := null;
      gameStarted, mazeBroken := false, false;
    }

    /** Adding a name (the Enter key or the add button, lottery_ball.py:542-561):
        only before the start, for a non-empty name, while fewer than 15 balls
        are in; the ball gets the next colour in turn and a start column
        chosen by its position, scattered by jitter. */
    method Add(name: string, jitter: int) returns (added: bool)
      requires Valid() && -15 <= jitter <= 15
      modifies this
      ensures Valid()
      ensures added == (!old(gameStarted) && name != "" && |old(balls)| < MaxBalls)
      ensures !added ==> unchanged(this)
      ensures added ==>
        var n := |old(balls)|;
        var entrant := Entrant(name, BallColors[old(colorIndex) % |BallColors|], FirstColumn + (n % 5) * ColumnGap + jitter);
        entrants == old(entrants) + [entrant] && |balls| == n + 1 && balls[..n] == old(balls) &&
        fresh(balls[n]) && balls[n].name == name && balls[n].color == entrant.color &&
        balls[n].startX == entrant.startX && balls[n].AtStart() &&
        colorIndex == old(colorIndex) + 1 && winner == old(winner) &&
        gameStarted == old(gameStarted) && mazeBroken == old(mazeBroken)
    {
      if gameStarted || name == "" || |balls| >= MaxBalls {
        return false;
      }
      var color := BallColors[colorIndex % |BallColors|];
      var startX := FirstColumn + (|balls| % 5) * ColumnGap + jitter;
      var ball := new Ball(name, color, startX);
      balls := balls + [ball];
      entrants := entrants + [Entrant(name, color, startX)];
      colorIndex := colorIndex + 1;
      return true;
    }

    /** The start button (lottery_ball.py:563-567): with at least two balls
        and before the start, the game starts and every ball gets its launch
        velocity. */
    method Start(launch: seq<Launch>) returns (started: bool)
      requires Valid() && |launch| == |balls|
      requires forall k :: 0 <= k < |launch| ==> -2.0 <= launch[k].dx <= 2.0 && 3.0 <= launch[k].dy <= 6.0
      modifies this, balls
      ensures Valid()
      ensures started == (!old(gameStarted) && |balls| >= 2)
      ensures !started ==> unchanged(this) && unchanged(balls)
      ensures started ==>
        gameStarted && balls == old(balls) && entrants == old(entrants) && winner == old(winner) &&
        mazeBroken == old(mazeBroken) && colorIndex == old(colorIndex) &&
        forall k :: 0 <= k < |balls| ==>
          balls[k].Current() == Motion(old(balls[k].x), old(balls[k].y), launch[k].dx, launch[k].dy) &&
          balls[k].Status() == old(balls[k].Status())
    {
      if gameStarted || |balls| < 2 {
        return false;
      }
      gameStarted := true;
      LaunchAll(balls, launch);
      return true;
    }

    /** The retry button (lottery_ball.py:569-580 and 592-601): with at
        least two entrants, a fresh roster in entry order, each ball starting
        from its entry's column moved by its offset; no winner, not started,
        the maze whole again, and every peg unlit. The peg timers and the
        pads are left as they were. */
    method Retry(offsets: seq<int>) returns (retried: bool)
      requires Valid() && |offsets| == |entrants|
      requires forall k :: 0 <= k < |offsets| ==> -30 <= offsets[k] <= 30
      modifies this, pegs
      ensures Valid()
      ensures retried == (|entrants| >= 2)
      ensures !retried ==> unchanged(this) && unchanged(pegs)
      ensures retried ==>
        entrants == old(entrants) && colorIndex == old(colorIndex) && |balls| == |entrants| &&
        winner == null && !gameStarted && !mazeBroken &&
        (forall k :: 0 <= k < |balls| ==>
          fresh(balls[k]) && balls[k].name == entrants[k].name && balls[k].color == entrants[k].color &&
          balls[k].startX == entrants[k].startX + offsets[k] && balls[k].AtStart()) &&
        forall j :: 0 <= j < |pegs| ==> !pegs[j].hit && pegs[j].hitTimer == old(pegs[j].hitTimer)
    {
      if |entrants| < 2 {
        return false;
      }
      balls := Roster(entrants, offsets);
      winner := null;
      gameStarted := false;
      mazeBroken := false;
      UnlightPegs();
      return true;
    }

    /** The peg loop of retry: every peg unlit, its timer left as it was. */
    method UnlightPegs()
      requires DistinctPegs(pegs)
      modifies pegs
      ensures forall j :: 0 <= j < |pegs| ==> !pegs[j].hit && pegs[j].hitTimer == old(pegs[j].hitTimer)
    {
      for j := 0 to |pegs|
        invariant forall i :: 0 <= i < j ==> !pegs[i].hit && pegs[i].hitTimer == old(pegs[i].hitTimer)
        invariant forall i :: j <= i < |pegs| ==> unchanged(pegs[i])
      {
        pegs[j].hit := false;
      }
    }

    /** The reset button (lottery_ball.py:582-588 and 603-609): the roster
        and names_colors are emptied and the colours start over; the pegs
        and pads are left as they were. */
    method Reset()
      requires Valid()
      modifies this
      ensures Valid()
      ensures balls == [] && entrants == [] && colorIndex == 0
      ensures winner == null && !gameStarted && !mazeBroken
    {
      balls := [];
      entrants := [];
      winner := null;
      gameStarted := false;
      mazeBroken := false;
      colorIndex := 0;
    }

    /** The spinner loop of the update (lottery_ball.py:612-614): the
        spinners turn only while the maze stands. */
    method TurnSpinners()
      requires DistinctSpinners(spinners)
      modifies spinners
      ensures Angles(spinners) == if mazeBroken then old(Angles(spinners)) else old(Turned(spinners))
      ensures Look() == old(Look()).(angles := Angles(spinners)) && CrowdOf(balls) == old(CrowdOf(balls))
    {
      if !mazeBroken {
        ghost var angles, turned := Angles(spinners), Turned(spinners);
        for i := 0 to |spinners|
          invariant forall k :: 0 <= k < |spinners| ==> spinners[k].angle == if k < i then turned[k] else angles[k]
        {
          spinners[i].Update();
        }
        assert Angles(spinners) == turned;
      }
    }

    /** The pad loop of the update (lottery_ball.py:617-618). */
    method CountPadsDown()
      requires DistinctPads(pads)
      modifies pads
      ensures PadLights(pads) == Countdowns(old(PadLights(pads)))
      ensures Look() == old(Look()).(padLights := PadLights(pads)) && CrowdOf(balls) == old(CrowdOf(balls))
      ensures unchanged(spinners)
    {
      for i := 0 to |pads|
        invariant forall k :: 0 <= k < i ==> pads[k].Light() == Countdown(old(pads[k].Light()))
        invariant forall k :: i <= k < |pads| ==> unchanged(pads[k])
      {
        pads[i].Update();
      }
    }

    /** The peg countdown of the drawing code (lottery_ball.py:647-655 and
        70-73): Peg.draw runs, and the lamps fade, only while the maze stands. */
    method FadePegs()
      requires DistinctPegs(pegs)
      modifies pegs
      ensures PegLights(pegs) == if mazeBroken then old(PegLights(pegs)) else Countdowns(old(PegLights(pegs)))
      ensures Faded(old(Look()), Look())
      ensures unchanged(spinners)
    {
      if !mazeBroken {
        for i := 0 to |pegs|
          invariant forall k :: 0 <= k < i ==> pegs[k].Light() == Countdown(old(pegs[k].Light()))
          invariant forall k :: i <= k < |pegs| ==> unchanged(pegs[k])
        {
          pegs[i].Decay();
        }
      }
    }

    /** One pass of the ball loop (lottery_ball.py:621-622): ball i moves,
        as MoveBall states in a started game, and what the loop keeps after
        i passes it keeps after i + 1. */
    method MoveOne(i: nat, z: Maze, maths: Maths, draws: seq<Draws>,
                   ghost c0: Crowd, ghost p0: seq<Timer>, ghost q0: seq<Timer>, ghost moved: Crowd)
      requires i < |balls| && DistinctBalls(balls)
      requires z.pegs == pegs && z.pads == pads && DistinctPegs(pegs) && DistinctPads(pads)
      requires BallLoop(c0, p0, q0, moved, CrowdOf(balls), PegLights(pegs), PadLights(pads), i,
                        z, gameStarted, mazeBroken, maths, draws)
      modifies balls, pegs, pads
      ensures BallLoop(c0, p0, q0, moved, CrowdOf(balls), PegLights(pegs), PadLights(pads), i + 1,
                       z, gameStarted, mazeBroken, maths, draws)
      ensures gameStarted ==> CrowdOf(balls) == MoveBall(old(CrowdOf(balls)), i, z, mazeBroken, maths, draws[i])
    {
      var ball := balls[i];
      ghost var c, p, q := CrowdOf(balls), PegLights(pegs), PadLights(pads);
      assert ball.Status() == c.statuses[i] && ball.Current() == c.motions[i];
      ghost var own := ball.Move(z, balls, i, gameStarted, mazeBroken, maths, draws[i]);
      ghost var c1, p1, q1 := CrowdOf(balls), PegLights(pegs), PadLights(pads);
      MoveOneFacts(c, p, q, c1, p1, q1, own, i, z, gameStarted, mazeBroken, maths, draws[i]);
      BallLoopStep(c0, p0, q0, moved, c, p, q, c1, p1, q1, i, z, gameStarted, mazeBroken, maths, draws);
    }

    /** The ball loop of the update (lottery_ball.py:621-622): every ball
        moves in roster order, and in a started game the balls end as
        MovesFrom computes from their state before the loop. No finished flag
        is ever cleared and no winner flag changes; while the maze is broken
        no stuck count changes and no lamp is lit; before the start nothing
        changes at all. Each peg or pad lamp is either as it was or freshly
        lit. */
    method MoveBalls(maths: Maths, draws: seq<Draws>)
      requires |draws| == |balls| && DistinctBalls(balls) && DistinctPegs(pegs) && DistinctPads(pads)
      requires AllValid(Statuses(balls))
      requires forall k :: 0 <= k < |draws| ==> DrawsFit(draws[k], |pegs|, |platforms|, |pads|)
      modifies balls, pegs, pads
      ensures AllValid(Statuses(balls))
      ensures StatusesKept(old(Statuses(balls)), Statuses(balls), mazeBroken)
      ensures !gameStarted ==>
        CrowdOf(balls) == old(CrowdOf(balls)) && PegLights(pegs) == old(PegLights(pegs)) && PadLights(pads) == old(PadLights(pads))
      ensures mazeBroken ==> PegLights(pegs) == old(PegLights(pegs)) && PadLights(pads) == old(PadLights(pads))
      ensures LitOrKept(old(PegLights(pegs)), PegLights(pegs), PegHitTicks)
      ensures LitOrKept(old(PadLights(pads)), PadLights(pads), PadActiveTicks)
      ensures gameStarted ==> CrowdOf(balls) == MovesFrom(old(CrowdOf(balls)), 0, Layout(), mazeBroken, maths, draws)
      ensures unchanged(spinners)
    {
      var z := Layout();
      ghost var c0, pegLights, padLights := CrowdOf(balls), PegLights(pegs), PadLights(pads);
      assert AllDrawsFor(draws, z);
      ghost var moved := MovesFrom(CrowdOf(balls), 0, z, mazeBroken, maths, draws);
      for i := 0 to |balls|
        invariant z.pegs == pegs && z.platforms == platforms && z.pads == pads
        invariant BallLoop(c0, pegLights, padLights, moved, CrowdOf(balls), PegLights(pegs), PadLights(pads), i,
                           z, gameStarted, mazeBroken, maths, draws)
      {
        MoveOne(i, z, maths, draws, c0, pegLights, padLights, moved);
      }
      assert unchanged(spinners);
      assert Layout() == z;
      assert gameStarted ==> MovesFrom(CrowdOf(balls), |balls|, z, mazeBroken, maths, draws) == CrowdOf(balls);
      assert moved == MovesFrom(old(CrowdOf(balls)), 0, z, mazeBroken, maths, draws);
    }

    /** The first half of an update (lottery_ball.py:612-622): the
        spinners turn while the maze stands, the pads count down and every
        ball moves. */
    method Advance(maths: Maths, draws: seq<Draws>)
      requires |draws| == |balls| && AllValid(Statuses(balls))
      requires DistinctBalls(balls) && DistinctPegs(pegs) && DistinctPads(pads) && DistinctSpinners(spinners)
      requires forall k :: 0 <= k < |draws| ==> DrawsFit(draws[k], |pegs|, |platforms|, |pads|)
      modifies balls, pegs, pads, spinners
      ensures Advanced(old(Look()), Look(), gameStarted, old(Turned(spinners)),
                       MovesFrom(old(CrowdOf(balls)), 0, Layout(), mazeBroken, maths, draws))
    {
      ghost var c := CrowdOf(balls);
      TurnSpinners();
      CountPadsDown();
      assert CrowdOf(balls) == c;
      MoveBalls(maths, draws);
    }

    /** The maze check of the update (lottery_ball.py:625-628): in a started
        game the maze breaks once the stuck counts add up to 100. */
    method CheckMaze()
      modifies this`mazeBroken
      ensures mazeBroken == (old(mazeBroken) || (gameStarted && StuckTotal(Statuses(balls)) >= MaxHits))
      ensures Look() == old(Look()).(mazeBroken := mazeBroken) && Layout() == old(Layout())
    {
      if gameStarted && !mazeBroken {
        var totalStuck := StuckTotal(Statuses(balls));
        if totalStuck >= MaxHits {
          mazeBroken := true;
        }
      }
    }

    /** The update up to the maze check (lottery_ball.py:612-628). */
    method MoveAndCheck(maths: Maths, draws: seq<Draws>)
      requires |draws| == |balls| && Flags(Statuses(balls), balls, winner)
      requires DistinctBalls(balls) && DistinctPegs(pegs) && DistinctPads(pads) && DistinctSpinners(spinners)
      requires forall k :: 0 <= k < |draws| ==> DrawsFit(draws[k], |pegs|, |platforms|, |pads|)
      modifies this, balls, pegs, pads, spinners
      ensures balls == old(balls) && entrants == old(entrants) && colorIndex == old(colorIndex)
      ensures gameStarted == old(gameStarted)
      ensures Moved(old(Look()), Look(), balls, gameStarted, old(Turned(spinners)),
                    MovesFrom(old(CrowdOf(balls)), 0, Layout(), old(mazeBroken), maths, draws))
    {
      ghost var v0 := Look();
      Advance(maths, draws);
      ghost var va := Look();
      CheckMaze();
      MovedBy(v0, va, Look(), balls, gameStarted, old(Turned(spinners)),
              MovesFrom(old(CrowdOf(balls)), 0, Layout(), old(mazeBroken), maths, draws));
    }

    /** The winner check of the update (lottery_ball.py:631-637), run in a
        started game while there is no winner: the first finished ball, if
        any, becomes the winner; the flags keep marking exactly the winner,
        and no finished flag or stuck count changes. */
    method LatchWinner()
      requires DistinctBalls(balls) && Flags(Statuses(balls), balls, winner)
      modifies this, balls
      ensures balls == old(balls) && entrants == old(entrants) && colorIndex == old(colorIndex)
      ensures gameStarted == old(gameStarted)
      ensures Latched(old(Look()), Look(), balls, gameStarted)
      ensures unchanged(spinners)
    {
      ghost var v1 := Look();
      if gameStarted && winner == null {
        winner := Latch(balls);
      }
      LatchedBy(v1, Look(), balls, gameStarted);
    }

    /** The rest of the update (lottery_ball.py:631-655): the winner check,
        then the peg countdown; v2 is the state between the two. */
    method Settle()
      requires DistinctBalls(balls) && DistinctPegs(pegs) && Flags(Statuses(balls), balls, winner)
      modifies this, balls, pegs
      ensures balls == old(balls) && entrants == old(entrants) && colorIndex == old(colorIndex)
      ensures gameStarted == old(gameStarted)
      ensures var v2 := Look().(pegLights := old(PegLights(pegs)));
        Latched(old(Look()), v2, balls, gameStarted) && Faded(v2, Look())
      ensures unchanged(spinners)
    {
      LatchWinner();
      FadePegs();
    }

    /** One pass of the main loop after its events (lottery_ball.py:612-655,
        without the drawing): the spinners turn and the pads count down,
        every ball moves, the maze breaks once the balls of a started game
        have been stuck 100 times in all, the first finished ball becomes
        the winner if there is none yet, and the peg lamps fade while the
        maze stands. */
    method Step(maths: Maths, draws: seq<Draws>)
      requires Valid() && |draws| == |balls|
      requires forall k :: 0 <= k < |draws| ==> DrawsFit(draws[k], |pegs|, |platforms|, |pads|)
      modifies this, balls, pegs, pads, spinners
      ensures Valid()
      ensures balls == old(balls) && entrants == old(entrants) && colorIndex == old(colorIndex)
      ensures gameStarted == old(gameStarted)
      ensures Stepped(old(Look()), Look(), balls, gameStarted, old(Turned(spinners)),
                      MovesFrom(old(CrowdOf(balls)), 0, Layout(), old(mazeBroken), maths, draws))
    {
      ghost var v0, turned, c0, mazeBroken0 := Look(), Turned(spinners), CrowdOf(balls), mazeBroken;
      RestingAtStart(balls);
      MoveAndCheck(maths, draws);
      ghost var v1, z := Look(), Layout();
      ghost var moved := MovesFrom(c0, 0, z, mazeBroken0, maths, draws);
      Settle();
      StepStages(v0, v1, Look().(pegLights := v1.pegLights), Look(), balls, gameStarted, turned, moved);
      RestingAtStart(balls);
      assert Layout() == z;
    }
  }
}
