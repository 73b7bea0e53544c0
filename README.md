# Search routines and the ball-drop lottery, modelled in Dafny

This project models two parts of a small collection of teaching programs.

**Integer search.** There are four search routines: linear, binary, jump and interpolation search. Each returns `(index, comparisons)`. They exist twice:
- in Python, in `search_algorithms.py`;
- in Java, in `SearchAlgorithms.java`, where every value is a 32-bit `int`.

The modules are:
- Module `Searching` (`search_spec.dfy`) gives each routine's loop as a recursive reference function over `seq<int>`. It proves what the routines promise:
  - a found index holds the target;
  - linear search finds the first match;
  - on an ascending array, `-1` means the target is absent;
  - binary search uses at most ⌊log₂ n⌋ + 1 comparisons;
  - every interpolation prediction lies inside the window.
- Module `PySearch` (`py_search.dfy`) holds the Python loops as `while` methods. Each is proved equal to its reference function.
- Module `JavaSearch` (`java_search.dfy`) holds the Java loops as methods on `array<Int32>`:
  - `+`, `-` and `*` wrap around modulo 2³²;
  - `/` truncates toward zero.

  Each method's contract is written against the same reference function as the Python method, so the two routines are proved to return the same result:
  - linear search on every array;
  - binary and jump search on every array of at most 2³⁰ elements, which the methods require;
  - interpolation search on every input satisfying `InterpolationFits`, which says that no bracketing window's prediction overflows. On other inputs only memory safety, a correct found index and the comparison bound are proved.

**The lottery simulation** (`lottery_ball.py`, without rendering). Named balls fall through a maze of pegs, tilted platforms, rotating spinners and bounce pads into a funnel. The first ball to leave the funnel wins. Once the balls have been stuck for 100 stuck windows in total, the maze "breaks" and stops acting on them. The modules are:
- Module `LotteryPhysics` (`lottery_physics.dfy`) has the straight-line kinematics as functions over `real`, with lemmas about them:
  - the integrator and the walls;
  - each obstacle's bounce, given the contact normal and the measured distance;
  - the peg and pad lamp timers;
  - the stuck window;
  - the funnel taper;
  - the pair exchange between two balls.
- Module `LotteryWorld` (`lottery_world.dfy`) has pegs, spinners, bounce pads and balls as classes whose fields change in place. `Ball.Move` is the per-ball step. Each collision loop in it is proved against a function that folds the matching resolver over the obstacles in list order. The ball-to-ball loop is proved equal to the fold `Pushes`, which exchanges with every other unfinished ball in roster order, and to conserve the summed positions and velocities of the roster.
- Module `LotteryGame` (`lottery_game.dfy`) has the state of `main` as class `Game`:
  - the roster commands add, start, retry and reset;
  - the per-tick update `Step`.

  `Step` is proved against the value predicate `Stepped`, which covers:
  - in a started game the balls move as the fold `MovesFrom` computes, one ball after the other in roster order, each ball's own step followed by its collisions with the unfinished balls;
  - the spinners turn only while the maze stands;
  - the pads and peg lamps count down;
  - `finished` is never cleared;
  - stuck counts freeze once the maze is broken;
  - the maze breaks exactly when a started game reaches 100 stuck windows;
  - the winner is set once, to the first finished ball in roster order, and moved to the winner's spot.

  `Game.Valid` is kept by every command. It includes the fact that exactly the winner carries a winner flag.

Environment and randomness are parameters:
- `math.sqrt`, `math.cos` and `math.sin` are passed in as the functions of a `Maths` value.
- Every `random.uniform`/`random.randint` draw is a parameter. Each is constrained to the range the source draws from, except a spinner's start angle, which is any real.

Where the code and the prose description of the program disagree, the model follows the code:
- Reset empties the roster but does not clear the pegs' `hit` flags.
- Retry clears `hit` but neither a peg's `hit_timer` nor a pad's `active` flag.
- A peg's lamp only counts down in `Peg.draw`, which runs only while the maze stands.

## Model

| member | source | states |
|---|---|---|
| Searching.FloorSqrt | search_algorithms.py:49 | the block length `int(math.sqrt(n))` is the integer square root: s² ≤ n < (s+1)², and s ≥ 1 when n ≥ 1 |
| Searching.LinearFrom | search_algorithms.py:19-23 | the for loop from index i as a recursive function: one comparison per element, the first later match, or (-1, len) after the last; LinearFromFirstMatch states what it returns |
| Searching.Linear | search_algorithms.py:16-23 | linear_search: the loop from index 0; LinearFirstMatch states what it returns |
| Searching.LinearFromFirstMatch | search_algorithms.py:19-23 | with no match before i, the loop from i returns the first later match with comparisons = index + 1, or (-1, len) |
| Searching.LinearFirstMatch | search_algorithms.py:16-23 | linear search returns the first index holding the target with comparisons = index + 1, or (-1, len(arr)) when the target is absent |
| Searching.BinaryLoop | search_algorithms.py:31-42 | the while loop over the window [left, right]: compare arr[(left + right) // 2], return it on a match, otherwise continue on the half the target can be in, and -1 once the window is empty; the three lemmas below state what it returns |
| Searching.Binary | search_algorithms.py:26-42 | binary_search: the loop from the window [0, len − 1] with no comparisons yet |
| Searching.BitsIsLog | search_algorithms.py:31-40 | for n ≥ 1, 2^(Bits(n) − 1) ≤ n < 2^Bits(n), so Bits(n), the bound of BinaryComparisons, is ⌊log₂ n⌋ + 1 |
| Searching.BinaryLoopFound | search_algorithms.py:31-40 | a non-(-1) result of the loop from window [left, right] is an index in that window holding the target |
| Searching.BinaryLoopAbsent | search_algorithms.py:31-42 | on an ascending array, with everything left of the window smaller and right of it larger than the target, -1 means the target is absent |
| Searching.BinaryLoopBound | search_algorithms.py:31-40 | the loop from a window of w elements adds at most ⌊log₂ w⌋ + 1 comparisons, because each iteration halves the window |
| Searching.BinaryFound | search_algorithms.py:26-42 | a found index lies in the array and holds the target |
| Searching.BinaryAbsent | search_algorithms.py:26-42 | on an ascending array, -1 means the target occurs nowhere |
| Searching.BinaryComparisons | search_algorithms.py:26-42 | binary search makes at most ⌊log₂ n⌋ + 1 comparisons (0 on the empty array) |
| Searching.JumpScan | search_algorithms.py:61-67 | the in-block scan from prev up to end = min(step, n), one comparison per element, the first match or -1 |
| Searching.JumpBlocks | search_algorithms.py:53-67 | the block loop with block length b: jump one block while the block's last element is below the target, -1 once prev reaches n, then the in-block scan |
| Searching.JumpWith | search_algorithms.py:47-67 | jump_search with any block length b: the block loop from prev = 0, step = b |
| Searching.Jump | search_algorithms.py:45-67 | jump_search with the block length int(math.sqrt(n)), which is FloorSqrt(n) |
| Searching.JumpScanSpec | search_algorithms.py:61-67 | the in-block scan of [prev, end) returns an index in the block holding the target, or -1 when no element of the block is the target |
| Searching.JumpBlocksSpec | search_algorithms.py:53-67 | the block loop, with every element before prev smaller than the target on an ascending array, finds only the target and returns -1 only when the target is absent, including the early return when prev passes n |
| Searching.JumpWithCorrect | search_algorithms.py:45-67 | with any block length b ≥ 1: every read is in bounds, a found index holds the target, -1 on an ascending array means absent, and 0 ≤ comparisons ≤ n |
| Searching.Predict | search_algorithms.py:84 | the interpolation formula low + ((target − arr[low]) · (high − low)) // (arr[high] − arr[low]), with Python's floor division |
| Searching.PredictInRange | search_algorithms.py:75-87 | whenever the loop guard holds and arr[high] ≠ arr[low], the predicted pos lies in [low, high], so the break on an out-of-range pos is never taken |
| Searching.InterpolationLoop | search_algorithms.py:75-96 | the while loop: its guard, the equal-ends branch, the break on an out-of-range pos, and the window update after each miss |
| Searching.Interpolation | search_algorithms.py:70-96 | interpolation_search: the loop from the window [0, len − 1] |
| Searching.InterpolationLoopSpec | search_algorithms.py:75-96 | the loop from [low, high] finds only the target, and on an ascending array returns -1 only when the target is absent |
| Searching.InterpolationCorrect | search_algorithms.py:70-96 | a found index holds the target, -1 on an ascending array means absent, and 0 ≤ comparisons ≤ n |
| PySearch.LinearSearch | search_algorithms.py:16-23 | the loop returns the reference result: the first match with comparisons = i + 1, or (-1, len(arr)) |
| PySearch.BinarySearch | search_algorithms.py:26-42 | the loop returns the reference result; a found index holds the target, -1 on an ascending array means absent, and comparisons ≤ ⌊log₂ n⌋ + 1 |
| PySearch.JumpSearch | search_algorithms.py:45-67 | the loops read only in-bounds elements and return the reference result; found means match, -1 on an ascending array means absent, comparisons ≤ n |
| PySearch.InterpolationSearch | search_algorithms.py:70-96 | the loop returns the reference result; found means match, -1 on an ascending array means absent, comparisons ≤ n |
| JavaSearch.Wrap | SearchAlgorithms.java:103 | 32-bit wrap-around of an arithmetic result leaves a value that already fits in an int unchanged |
| JavaSearch.Add | SearchAlgorithms.java:103 | Java's int +: the exact sum wrapped to 32 bits |
| JavaSearch.Sub | SearchAlgorithms.java:103 | Java's int −: the exact difference wrapped to 32 bits |
| JavaSearch.Mul | SearchAlgorithms.java:103 | Java's int *: the exact product wrapped to 32 bits |
| JavaSearch.TruncDiv | SearchAlgorithms.java:103 | integer division rounding toward zero, as Java's / rounds; TruncDivAgreesWithFloor relates it to floor division |
| JavaSearch.Div | SearchAlgorithms.java:103 | Java's int /: the truncated quotient wrapped to 32 bits, so only MIN_VALUE / −1 wraps |
| JavaSearch.TruncDivAgreesWithFloor | SearchAlgorithms.java:103 | Java's truncating division equals Python's floor division for a non-negative numerator and a positive denominator |
| JavaSearch.LinearSearch | SearchAlgorithms.java:27-36 | for every array, the Java loop returns the Python result: the first match with comparisons = i + 1, or (-1, arr.length) |
| JavaSearch.LinearFacts | SearchAlgorithms.java:27-36 | the Python result read back on the Int32 array: first match with comparisons = i + 1, or (-1, arr.length) when absent |
| JavaSearch.BinarySearch | SearchAlgorithms.java:39-56 | for arrays of at most 2³⁰ elements, (left + right) / 2 does not overflow and stays in [left, right]; the result equals the Python result, found means match, and -1 on sorted input means absent |
| JavaSearch.JumpSearch | SearchAlgorithms.java:59-85 | for arrays of at most 2³⁰ elements, every read is in bounds and no step overflows; the result equals the Python result, found means match, -1 on sorted input means absent |
| JavaSearch.JumpFacts | SearchAlgorithms.java:59-85 | the Python jump result read back on the Int32 array: found means match, -1 on sorted input means absent |
| JavaSearch.InterpolationSearch | SearchAlgorithms.java:88-119 | with wrap-around arithmetic, a found index still holds the target and comparisons ≤ length; when no prediction product overflows, the result equals the Python result and -1 on sorted input means absent |
| JavaSearch.PredictPosition | SearchAlgorithms.java:103 | without overflow, the 32-bit prediction formula computes the Python predicted position |
| JavaSearch.PredictFits | SearchAlgorithms.java:103-107 | when the product fits in 32 bits, the wrapped and truncated prediction equals the exact floor formula |
| JavaSearch.PredictArith | SearchAlgorithms.java:103 | the wrapped prediction equals the exact one when the product, the difference and the result fit in an int |
| JavaSearch.MulExact | SearchAlgorithms.java:103 | a product that fits in 32 bits is not changed by wrap-around |
| JavaSearch.DivExact | SearchAlgorithms.java:103 | a non-negative int divided by a positive int is exact, non-negative division |
| JavaSearch.InterpolationFacts | SearchAlgorithms.java:88-119 | when no prediction overflows, -1 on sorted input means the target is absent |
| LotteryPhysics.Advance | lottery_ball.py:239-242 | gravity 0.4 added to dy, dx scaled by the friction 0.995, then one step of the position by the new velocity |
| LotteryPhysics.Walls | lottery_ball.py:245-254 | the wall block: the left wall, or else the right one, clamps x and reflects dx scaled by the bounce 0.7, and the top wall clamps y and reflects dy; WallsBounds states its effect |
| LotteryPhysics.WallsBounds | lottery_ball.py:245-254 | after the wall block GAME_LEFT+r ≤ x ≤ GAME_RIGHT−r; a left hit leaves dx ≥ 0, a right hit dx ≤ 0, a top hit y = GAME_TOP+r and dy ≥ 0; no bottom wall; speeds never grow |
| LotteryPhysics.Clamp01 | lottery_ball.py:93 | max(0, min(1, v)) lies in [0, 1] and is v when v already does |
| LotteryPhysics.Project | lottery_ball.py:93-95 | the closest point lies on the segment at parameter t ∈ [0, 1] |
| LotteryPhysics.ProjectIsNearest | lottery_ball.py:93-95 | the clamped projection is the point of the segment nearest to the ball |
| LotteryPhysics.PegStep | lottery_ball.py:263-272 | outside the contact range the ball is untouched |
| LotteryPhysics.PegBounce | lottery_ball.py:264-272 | a peg hit: the velocity reflected about the normal and scaled by the bounce, dx jittered, the ball pushed out by the overlap; PegBounceReflects states its effect |
| LotteryPhysics.PegBounceReflects | lottery_ball.py:264-272 | for a unit normal, a peg hit reverses and damps the normal velocity by the bounce factor and damps the tangential one, apart from the jitter |
| LotteryPhysics.PegStepTouches | lottery_ball.py:263-272 | with an exact measured distance, a hit pushes the ball out to exactly r + peg radius from the peg's centre |
| LotteryPhysics.PlatformBounce | lottery_ball.py:104-111 | a ball not moving into the platform (dot ≥ 0) keeps its motion |
| LotteryPhysics.PlatformBounceSeparates | lottery_ball.py:104-111 | for a unit normal, an approaching ball leaves moving away from the platform with normal speed scaled by 1 − 2·bounce, tangential speed unchanged, apart from the jitter |
| LotteryPhysics.SpinnerKick | lottery_ball.py:160-164 | a spinner hit: the kick (3·nx + 20·speed, 2·ny) added to the velocity and the ball pushed out by the overlap along the normal; the two lemmas below state its effect |
| LotteryPhysics.SpinnerKickRepels | lottery_ball.py:156-164 | for a unit normal the kick raises the velocity along the normal by 2 + nx² + 20·speed·nx, which is positive whenever the bar turns slower than 0.1 per tick, so the hit drives the ball away from the bar |
| LotteryPhysics.SpinnerKickTouches | lottery_ball.py:152-164 | with an exact measured distance to the bar's nearest point, the push leaves the ball exactly r + thickness / 2 from that point |
| LotteryPhysics.PadBoost | lottery_ball.py:188-190 | a pad hit on a falling ball throws it up at dy ≤ −5, faster than it fell, with dx changed by at most 3 and the position unchanged |
| LotteryPhysics.Countdown | lottery_ball.py:196-200 | one tick of an off timer changes nothing; an on timer counts down by one and stays on only while it was above 1 |
| LotteryPhysics.CountdownClears | lottery_ball.py:196-200 | a timer started at t stays on for t − 1 ticks and is off after exactly t ticks (pad: 10, peg: 15) |
| LotteryPhysics.StuckStep | lottery_ball.py:289-296 | the stuck timer stays in [0, 29]; a tick moving ≥ 2 px resets it and keeps the count; otherwise a full window of 30 raises the count by one |
| LotteryPhysics.StillTicksCount | lottery_ball.py:289-296 | any run of consecutive ticks that each move less than 2 px raises the stuck count by exactly one per full window of 30 ticks, and leaves the timer at the remainder |
| LotteryPhysics.FunnelProgress | lottery_ball.py:302-303 | progress is clamped to [0, 1]: 0 at or above the funnel top, 1 at or below its bottom |
| LotteryPhysics.FunnelWidth | lottery_ball.py:304 | the current width lies between 45 and 180: 180 at the top and 45 at the bottom |
| LotteryPhysics.FunnelNarrows | lottery_ball.py:304 | the funnel never widens as a ball goes down |
| LotteryPhysics.FunnelLeft | lottery_ball.py:305 | the left edge lies left of FUNNEL_X, between its top and bottom positions |
| LotteryPhysics.FunnelRight | lottery_ball.py:306 | the right edge lies right of FUNNEL_X and is the left edge plus the current width |
| LotteryPhysics.Funnel | lottery_ball.py:301-322 | the funnel block: nothing above the funnel; a ball more than 10 px outside the edges is rejected above the funnel; otherwise a ball crossing an edge is put back inside and pushed off it; FunnelCases states each branch |
| LotteryPhysics.FunnelCases | lottery_ball.py:301-322 | above the funnel nothing changes; a rejected ball ends at FUNNEL_TOP_Y − r with dy ≤ 0 and a ±3 nudge toward the axis; an accepted ball ends between the edges, pushed right (dx ≥ 2) or left (dx ≤ −2) off an edge it crossed |
| LotteryPhysics.Exchange | lottery_ball.py:337-354 | the pair's summed x, y, dx and dy are unchanged for any normal; the velocities change only when the balls approach (dvn > 0); out of contact nothing changes |
| LotteryPhysics.ExchangeSeparates | lottery_ball.py:337-354 | with an exact distance, approaching balls leave with no relative normal velocity, and the pair ends exactly 2r apart |
| LotteryWorld.BarEnds | lottery_ball.py:134-137 | the spinner bar's two ends are symmetric about its centre |
| LotteryWorld.PegAt | lottery_ball.py:260-274 | one pass of the peg loop on values: the distance to the peg's centre measured with sqrt, then PegStep |
| LotteryWorld.PlatformAt | lottery_ball.py:84-113 | Platform.collide on values: a degenerate segment does nothing; otherwise the nearest point of the segment, the measured distance, and the bounce when the ball overlaps |
| LotteryWorld.SpinnerAt | lottery_ball.py:132-164 | Spinner.collide on values: the bar's ends at the current angle, the nearest point, the measured distance, and the kick when the ball overlaps |
| LotteryWorld.PadAt | lottery_ball.py:185-194 | BouncePad.collide on values: the boost when the pad fires on a falling ball, otherwise nothing |
| LotteryWorld.OwnStep | lottery_ball.py:239-322 | one ball's own movement: integration, the obstacle loops in order unless the maze is broken, then the funnel |
| LotteryWorld.StatusAfter | lottery_ball.py:288-325 | the status after the own movement: the stuck detector on the height past the obstacles unless the maze is broken, and finished once the ball is below FUNNEL_BOTTOM_Y + 30; StatusAfterKeeps states its effect |
| LotteryWorld.StatusAfterKeeps | lottery_ball.py:232-330 | one move keeps the status valid and the winner flag, sets finished exactly when it was set or the ball passed below the funnel, and touches nothing of the stuck detector while the maze is broken |
| LotteryWorld.PairMovedTotals | lottery_ball.py:332-354 | one pair exchange leaves the roster's summed positions and velocities unchanged |
| LotteryWorld.PushPair | lottery_ball.py:332-354 | one collide_with between the balls at me and i, on the roster's motions |
| LotteryWorld.PairPushed | lottery_ball.py:332-354 | two motions changed by one exchange, with every other motion kept, are exactly one PushPair |
| LotteryWorld.Pushes | lottery_ball.py:328-330 | the last loop of move from index i on: the ball at me exchanges with every other unfinished ball in roster order, keeping the roster's length |
| LotteryWorld.PushesStep | lottery_ball.py:328-330 | one pass of that loop skips ball i when it is the mover or finished and pushes it otherwise, leaving the rest of the loop to do |
| LotteryWorld.PushesTotals | lottery_ball.py:328-354 | the pair collisions of one move keep the roster's summed positions and velocities |
| LotteryWorld.PushesKeep | lottery_ball.py:328-330 | a finished ball, and a ball the loop has passed, keeps its motion through the pair collisions unless it is the mover |
| LotteryWorld.Peg.constructor | lottery_ball.py:57-62 | a new peg is at its place with its radius, unlit, timer 0 |
| LotteryWorld.Peg.Decay | lottery_ball.py:70-73 | the lit peg's timer counts down by one and goes off at 0 |
| LotteryWorld.Spinner.constructor | lottery_ball.py:121-127 | a new spinner has its centre, length and speed and the given start angle |
| LotteryWorld.Spinner.Update | lottery_ball.py:129-130 | the angle advances by the speed |
| LotteryWorld.BouncePad.constructor | lottery_ball.py:177-183 | a new pad is at its place with its width, inactive, timer 0 |
| LotteryWorld.BouncePad.Update | lottery_ball.py:196-200 | the active pad's timer counts down by one and goes off at 0 |
| LotteryWorld.Ball.constructor | lottery_ball.py:210-215 | a new ball carries its name, colour and start column and is at its start position |
| LotteryWorld.Ball.ResetPosition | lottery_ball.py:217-230 | the ball is back at its start column at GAME_TOP + 25, at rest, not finished, not a winner, stuck window cleared |
| LotteryWorld.Ball.Integrate | lottery_ball.py:239-254 | the motion becomes gravity, friction and one step followed by the wall clamp; nothing else changes |
| LotteryWorld.Ball.CollidePeg | lottery_ball.py:260-274 | the ball gets the peg bounce, and the peg is lit for 15 ticks exactly when it was hit |
| LotteryWorld.Ball.BouncePegs | lottery_ball.py:259-274 | the peg loop applies each peg's resolver in list order and lights exactly the pegs hit along the way |
| LotteryWorld.Ball.CollidePlatform | lottery_ball.py:84-113 | the ball gets the platform resolution, and the result says whether it touched |
| LotteryWorld.Ball.BouncePlatforms | lottery_ball.py:277-278 | the platform loop applies each platform's resolver in list order |
| LotteryWorld.Ball.CollideSpinner | lottery_ball.py:132-164 | the ball gets the spinner resolution at the spinner's current angle |
| LotteryWorld.Ball.BounceSpinners | lottery_ball.py:281-282 | the spinner loop applies each spinner's resolver in list order |
| LotteryWorld.Ball.CollidePad | lottery_ball.py:185-194 | the ball gets the pad boost, and the pad is lit for 10 ticks exactly when it fired |
| LotteryWorld.Ball.BouncePads | lottery_ball.py:285-286 | the pad loop applies each pad in list order and lights exactly the pads that fired |
| LotteryWorld.Ball.TrackStuck | lottery_ball.py:289-298 | the stuck detector runs once on the current height, and last_y becomes that height |
| LotteryWorld.Ball.EnterFunnel | lottery_ball.py:301-322 | the motion becomes the funnel function of the old motion |
| LotteryWorld.Ball.CollideWith | lottery_ball.py:332-354 | the pair's motions become the exchange for the measured distance; both statuses are unchanged |
| LotteryWorld.Ball.PassBeforePads | lottery_ball.py:259-282 | pegs, platforms, then spinners in order, with peg lamps lit as hit |
| LotteryWorld.Ball.PassObstacles | lottery_ball.py:257-298 | all obstacle loops then the stuck detector, lighting exactly the pegs and pads hit |
| LotteryWorld.Ball.OwnMove | lottery_ball.py:236-326 | the ball's own step: integrate, obstacles only while the maze stands, the funnel, and finished once below the funnel bottom + 30 |
| LotteryWorld.Ball.OwnMoveInRoster | lottery_ball.py:236-326 | the same step seen from the roster: only this ball's status changes and the totals change by its motion |
| LotteryWorld.Ball.MoveStarted | lottery_ball.py:232-330 | a started, unfinished ball's move: its motion takes the own step OwnStep and its status becomes StatusAfter; then the roster's motions become Pushes, the collisions with every other unfinished ball in roster order; no other status changes, the totals change by the own step only, and the peg and pad lamps are lit exactly where this ball hit |
| LotteryWorld.Ball.Move | lottery_ball.py:232-330 | a finished ball, or any ball before the start, changes no ball, peg or pad; otherwise exactly as MoveStarted |
| LotteryWorld.Ball.CollideInRoster | lottery_ball.py:328-330 | one pair collision conserves the roster's summed positions and velocities and changes no status |
| LotteryWorld.Ball.CollideWithOthers | lottery_ball.py:328-330 | the roster's motions become Pushes: this ball exchanges with every other ball in roster order and skips the finished ones; no status changes and the roster totals are kept |
| LotteryGame.FirstTrue | lottery_ball.py:632-634 | the first true index, or -1 exactly when there is none |
| LotteryGame.StuckTotal | lottery_ball.py:626 | sum(ball.stuck_count for ball in balls), over the statuses in roster order |
| LotteryGame.LaunchAll | lottery_ball.py:565-567 | every ball keeps its position and status and gets its drawn launch velocity |
| LotteryGame.Roster | lottery_ball.py:572-574 | one new ball per entrant, in order, with the entrant's name and colour, its start column shifted by the draw, at its start position |
| LotteryGame.CountdownsLit | lottery_ball.py:70-73 | a lamp freshly lit at t > 1 shows t − 1 after one countdown |
| LotteryGame.CrownKeeps | lottery_ball.py:631-637 | crowning the winner changes no finished flag and no stuck count |
| LotteryGame.CrownFlags | lottery_ball.py:631-637 | after crowning the first finished ball, exactly that ball carries the winner flag |
| LotteryGame.Latch | lottery_ball.py:632-637 | the winner loop makes the first finished ball in roster order the winner (or none), sets its flag and moves it to the winner's spot |
| LotteryGame.MoveBall | lottery_ball.py:232-330 | Ball.move of ball i on the roster's values: a finished ball changes nothing; otherwise its own step and status, then its collisions with the unfinished balls; every status stays valid |
| LotteryGame.MoveOneFacts | lottery_ball.py:232-330 | what Ball.Move states of ball i gives what one pass of the ball loop keeps, and in a started game that move is MoveBall |
| LotteryGame.MovesFrom | lottery_ball.py:621-622 | the ball loop from ball i on: each ball moves by MoveBall on the roster as the balls before it left it; every status stays valid |
| LotteryGame.MovesStep | lottery_ball.py:621-622 | one pass of the ball loop leaves MovesFrom of the next ball to do |
| LotteryGame.BallLoopStep | lottery_ball.py:621-622 | one ball's move keeps the loop invariant: statuses valid with their flags kept, stuck counts frozen and lamps unlit while the maze is broken, nothing changed before the start, and the rest of the loop ending as MovesFrom of the whole loop |
| LotteryGame.MovesKeepFinished | lottery_ball.py:232-330 | a ball finished before the ball loop keeps its motion and status through the whole loop: its own move returns at once and every other ball skips it |
| LotteryGame.MovedBy | lottery_ball.py:612-628 | the spinners, pads and balls of Advance followed by the maze check form a Moved step |
| LotteryGame.LatchedBy | lottery_ball.py:631-637 | the winner check keeps flags marking exactly the winner and keeps every finished flag and stuck count |
| LotteryGame.RestingAtStart | lottery_ball.py:217-230 | every ball is at its start exactly when the roster's values are the start values |
| LotteryGame.StepStages | lottery_ball.py:612-655 | spinners and moves, then the winner check, then the peg fade compose to one whole update as Stepped states it |
| LotteryGame.Game.OneWinner | lottery_ball.py:631-637 | at most one ball carries the winner flag, and a winner is a finished ball of the roster carrying it |
| LotteryGame.Game.constructor | lottery_ball.py:525-534 | a new game has an empty roster, no winner, not started, maze intact, and the given maze |
| LotteryGame.Game.Add | lottery_ball.py:542-561 | a ball is added exactly when the game has not started, the name is non-empty and fewer than 15 balls exist; it gets the next colour and its column ((n mod 5) · 155 + 120 + draw), and the roster is otherwise unchanged |
| LotteryGame.Game.Start | lottery_ball.py:563-567 | the game starts exactly when it was not started and at least 2 balls exist; every ball gets its drawn launch velocity |
| LotteryGame.Game.Retry | lottery_ball.py:569-580 | with at least 2 entrants the roster is rebuilt in the same order and length from the entrants, shifted by the draws, and winner, started and broken flags clear, as does every peg's hit (not its timer) |
| LotteryGame.Game.UnlightPegs | lottery_ball.py:579-580 | every peg's hit flag clears and its timer is kept |
| LotteryGame.Game.Reset | lottery_ball.py:582-588 | the roster and entrants empty, colour index 0, no winner, not started, maze intact |
| LotteryGame.Game.TurnSpinners | lottery_ball.py:612-614 | each spinner advances by its speed while the maze stands, none moves once it is broken |
| LotteryGame.Game.CountPadsDown | lottery_ball.py:617-618 | every pad timer counts down once |
| LotteryGame.Game.MoveOne | lottery_ball.py:621-622 | ball i moves; in a started game the roster's values become MoveBall of the old ones, and the ball loop's invariant passes from i to i + 1 |
| LotteryGame.Game.MoveBalls | lottery_ball.py:621-622 | in a started game the roster's motions and statuses become MovesFrom of the old ones; statuses stay valid and keep their flags, stuck counts freeze and no lamp lights while the maze is broken, each lamp is kept or freshly lit, and before the start nothing changes |
| LotteryGame.Game.Advance | lottery_ball.py:612-622 | an Advanced step: the spinners turn while the maze stands, the pads count down, in a started game the balls end as MovesFrom computes, and before the start they do not move |
| LotteryGame.Game.CheckMaze | lottery_ball.py:625-628 | the maze is broken afterwards exactly when it was, or the game is started and the stuck counts sum to at least 100 |
| LotteryGame.Game.MoveAndCheck | lottery_ball.py:612-628 | a Moved step: Advance's effect, with the balls of a started game ending as MovesFrom computes, then the maze check |
| LotteryGame.Game.FadePegs | lottery_ball.py:647-655 | each peg lamp counts down once while the maze stands and is frozen once it is broken |
| LotteryGame.Game.LatchWinner | lottery_ball.py:631-637 | in a started game without winner the first finished ball becomes the winner at the winner's spot; a set winner is never reassigned |
| LotteryGame.Game.Settle | lottery_ball.py:631-655 | the winner check, a Latched step, followed by the peg countdown, a Faded step |
| LotteryGame.Game.Step | lottery_ball.py:612-655 | one tick keeps Valid and is a Stepped update: in a started game the balls end as MovesFrom computes and then the first finished ball is crowned and placed; spinners turn only while intact, finished is never cleared, stuck counts freeze once broken, the maze breaks exactly when a started game's stuck total reaches 100, the winner is set once, and lamps count down or are relit |

## Left out

- Rendering, the pygame event loop, fonts, `Button`, `InputBox` (its name stripping and 5-character limit), `clock.tick`, `draw_funnel`, ball `pulse` and everything after `lottery_ball.py:639`: these are drawing and I/O. Each command handler is one method call of `Game`.
- `create_maze`: its fixed layout is not modelled. The `Game` constructor takes any pegs, platforms, spinners and pads.
- Square roots and trigonometry: `math.sqrt`, `math.cos` and `math.sin` are passed in as the functions of a `Maths` value. A property that needs the measured distance to be exact states that in its requires (`ExactDistance`).
- IEEE float rounding: positions and velocities are unbounded reals.
- Random draws (peg, platform and pad jitter, launch velocities, start columns): each is a parameter constrained to the range the source draws from.
- The spinner's start angle, drawn from `uniform(0, 2π)`, is an unconstrained parameter of the `Spinner` constructor. No proved property depends on its range.
- The return values of `Platform.collide` and `BouncePad.collide` are computed but never used by `move`. They are kept only as method results.
- The demo, visualisation, timing and `main` functions of both search files, `printHeader`, and the other programs of the repository (the news web app, breakout and the number games): console, network and game I/O.
- LotteryGame.Game.Step: states that each lamp is counted down, kept or relit, not which lamps the balls relit. Which lamps are relit depends on the contacts measured during the tick.
- LotteryGame.Game.MoveBalls: the same lamp statement as Step. `Ball.Move` states each ball's lamps exactly (`PegLightsAfter`, `PadLightsAfter`), but the roster fold `MovesFrom` carries only the motions and statuses.
- LotteryGame.Game.Advance: the same lamp statement as MoveBalls, for the same reason.
- LotteryGame.Game.MoveOne: the same lamp statement as MoveBalls, for the same reason.
- LotteryGame.Game.MoveAndCheck: the same lamp statement as MoveBalls, for the same reason.
- JavaSearch.BinarySearch: requires at most 2³⁰ elements. Beyond that `left + right` can overflow in Java and the read would be out of bounds.
- JavaSearch.JumpSearch: requires at most 2³⁰ elements so that `step += sqrt(n)` cannot overflow.
- JavaSearch.InterpolationSearch: equality with the Python result is stated only when no prediction product overflows (`InterpolationFits`). Otherwise only memory safety, a correct found index and the comparison bound are stated.
