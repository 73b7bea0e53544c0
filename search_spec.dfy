/** Reference semantics of the four integer search routines that the Python
    program (search_algorithms.py) and the Java program (SearchAlgorithms.java)
    both implement. Each routine returns an index, or -1 when the target was
    not found, together with the number of loop iterations it ran (the
    programs call that number "comparisons").

    Every function below follows one loop of the routines, one iteration per
    recursive call, over unbounded integers (Python semantics). The lemmas
    state what the routines promise: a found index holds the target, on an
    ascending array -1 means the target is absent, and the iteration count is
    bounded. */
module Searching {

  datatype SearchResult = SearchResult(index: int, comparisons: int)

  /** The array is in ascending order, as every caller arranges before searching. */
  predicate Sorted(s: seq<int>) {
    forall i, j :: 0 <= i < j < |s| ==> s[i] <= s[j]
  }

  function Min(a: int, b: int): int {
    if a <= b then a else b
  }

  /** Number of binary digits of n, and Bits(0) == 0 (see BitsIsLog). */
  function Bits(n: nat): nat {
    if n == 0 then 0 else 1 + Bits(n / 2)
  }

  function Pow2(k: nat): nat {
    if k == 0 then 1 else 2 * Pow2(k - 1)
  }

  /** Bits(n) is floor(log2 n) + 1: a number n >= 1 has exactly Bits(n) binary digits. */
  lemma {:induction false} BitsIsLog(n: nat)
    requires n >= 1
    ensures Pow2(Bits(n) - 1) <= n < Pow2(Bits(n))
    decreases n
  {
    if n > 1 {
      BitsIsLog(n / 2);
      assert Bits(n) == 1 + Bits(n / 2);
      assert Pow2(Bits(n)) == 2 * Pow2(Bits(n / 2));
      assert Pow2(Bits(n) - 1) == 2 * Pow2(Bits(n / 2) - 1);
    }
  }

  lemma {:induction false} BitsMonotone(a: nat, b: nat)
    requires a <= b
    ensures Bits(a) <= Bits(b)
    decreases b
  {
    if a != 0 {
      BitsMonotone(a / 2, b / 2);
    }
  }

  // ---------------------------------------------------------------------
  // Floor square root (the block length of jump search)
  // ---------------------------------------------------------------------

  function SqrtFrom(n: nat, r: nat): (s: nat)
    requires r * r <= n
    ensures s * s <= n < (s + 1) * (s + 1)
    decreases n - r
  {
    assert r <= n by {
      if r > 0 { assert r <= r * r; }
    }
    if (r + 1) * (r + 1) <= n then SqrtFrom(n, r + 1) else r
  }

  /** The integer part of the square root of n, which is what int(math.sqrt(n))
      computes for every n below 2^52 and (int) Math.sqrt(n) for every Java int. */
  function FloorSqrt(n: nat): (s: nat)
    ensures s * s <= n < (s + 1) * (s + 1)
    ensures n > 0 ==> s >= 1
  {
    SqrtFrom(n, 0)
  }

  // ---------------------------------------------------------------------
  // Linear search (search_algorithms.py:16-23)
  // ---------------------------------------------------------------------

  /** The loop from index i on; i iterations have already compared and missed. */
  function LinearFrom(arr: seq<int>, target: int, i: nat): SearchResult
    requires i <= |arr|
    decreases |arr| - i
  {
    if i == |arr| then SearchResult(-1, |arr|)
    else if arr[i] == target then SearchResult(i, i + 1)
    else LinearFrom(arr, target, i + 1)
  }

  function Linear(arr: seq<int>, target: int): SearchResult {
    LinearFrom(arr, target, 0)
  }

  lemma {:induction false} LinearFromFirstMatch(arr: seq<int>, target: int, i: nat)
    requires i <= |arr|
    requires forall j :: 0 <= j < i ==> arr[j] != target
    ensures var r := LinearFrom(arr, target, i);
      if target in arr then
        0 <= r.index < |arr| && arr[r.index] == target && r.comparisons == r.index + 1 &&
        forall j :: 0 <= j < r.index ==> arr[j] != target
      else
        r == SearchResult(-1, |arr|)
    decreases |arr| - i
  {
    if i == |arr| {
      assert forall k :: 0 <= k < |arr| ==> arr[k] != target;
    } else if arr[i] != target {
      LinearFromFirstMatch(arr, target, i + 1);
    }
  }

  /** Linear search finds the FIRST index holding the target after index + 1
      comparisons, and otherwise answers -1 after comparing every element. */
  lemma LinearFirstMatch(arr: seq<int>, target: int)
    ensures var r := Linear(arr, target);
      if target in arr then
        0 <= r.index < |arr| && arr[r.index] == target && r.comparisons == r.index + 1 &&
        forall j :: 0 <= j < r.index ==> arr[j] != target
      else
        r == SearchResult(-1, |arr|)
  {
    LinearFromFirstMatch(arr, target, 0);
  }

  // ---------------------------------------------------------------------
  // Binary search (search_algorithms.py:26-42)
  // ---------------------------------------------------------------------

  /** The loop with the window [left, right] and comps iterations done.
      The precondition is what makes every read arr[mid] in bounds. */
  function BinaryLoop(arr: seq<int>, target: int, left: int, right: int, comps: nat): SearchResult
    requires 0 <= left <= right + 1 <= |arr|
    decreases right - left + 1
  {
    if left > right then SearchResult(-1, comps)
    else
      var mid := (left + right) / 2;
      if arr[mid] == target then SearchResult(mid, comps + 1)
      else if arr[mid] < target then BinaryLoop(arr, target, mid + 1, right, comps + 1)
      else BinaryLoop(arr, target, left, mid - 1, comps + 1)
  }

  function Binary(arr: seq<int>, target: int): SearchResult {
    BinaryLoop(arr, target, 0, |arr| - 1, 0)
  }

  lemma {:induction false} BinaryLoopFound(arr: seq<int>, target: int, left: int, right: int, comps: nat)
    requires 0 <= left <= right + 1 <= |arr|
    ensures var r := BinaryLoop(arr, target, left, right, comps);
      r.index != -1 ==> left <= r.index <= right && arr[r.index] == target
    decreases right - left + 1
  {
    if left <= right {
      var mid := (left + right) / 2;
      if arr[mid] < target {
        BinaryLoopFound(arr, target, mid + 1, right, comps + 1);
      } else if arr[mid] > target {
        BinaryLoopFound(arr, target, left, mid - 1, comps + 1);
      }
    }
  }

  lemma {:induction false} BinaryLoopAbsent(arr: seq<int>, target: int, left: int, right: int, comps: nat)
    requires 0 <= left <= right + 1 <= |arr|
    requires Sorted(arr)
    requires forall j :: 0 <= j < left ==> arr[j] < target
    requires forall j :: right < j < |arr| ==> arr[j] > target
    ensures BinaryLoop(arr, target, left, right, comps).index == -1 ==> target !in arr
    decreases right - left + 1
  {
    if left > right {
      assert forall j :: 0 <= j < |arr| ==> arr[j] != target;
    } else {
      var mid := (left + right) / 2;
      if arr[mid] < target {
        BinaryLoopAbsent(arr, target, mid + 1, right, comps + 1);
      } else if arr[mid] > target {
        BinaryLoopAbsent(arr, target, left, mid - 1, comps + 1);
      }
    }
  }

  lemma {:induction false} BinaryLoopBound(arr: seq<int>, target: int, left: int, right: int, comps: nat)
    requires 0 <= left <= right + 1 <= |arr|
    ensures BinaryLoop(arr, target, left, right, comps).comparisons <= comps + Bits(right - left + 1)
    decreases right - left + 1
  {
    if left <= right {
      var mid := (left + right) / 2;
      var w := right - left + 1;
      assert Bits(w) == 1 + Bits(w / 2);
      if arr[mid] < target {
        BinaryLoopBound(arr, target, mid + 1, right, comps + 1);
        BitsMonotone(right - mid, w / 2);
      } else if arr[mid] > target {
        BinaryLoopBound(arr, target, left, mid - 1, comps + 1);
        BitsMonotone(mid - left, w / 2);
      }
    }
  }

  /** A found index holds the target. */
  lemma BinaryFound(arr: seq<int>, target: int)
    ensures var r := Binary(arr, target);
      r.index != -1 ==> 0 <= r.index < |arr| && arr[r.index] == target
  {
    BinaryLoopFound(arr, target, 0, |arr| - 1, 0);
  }

  /** On an ascending array, -1 means the target occurs nowhere. */
  lemma BinaryAbsent(arr: seq<int>, target: int)
    requires Sorted(arr)
    ensures Binary(arr, target).index == -1 ==> target !in arr
  {
    BinaryLoopAbsent(arr, target, 0, |arr| - 1, 0);
  }

  /** Every iteration halves the window, so binary search runs at most
      floor(log2 n) + 1 iterations on n elements (none on an empty array). */
  lemma BinaryComparisons(arr: seq<int>, target: int)
    ensures Binary(arr, target).comparisons <= Bits(|arr|)
    ensures |arr| >= 1 ==> Pow2(Bits(|arr|) - 1) <= |arr| < Pow2(Bits(|arr|))
  {
    BinaryLoopBound(arr, target, 0, |arr| - 1, 0);
    if |arr| >= 1 {
      BitsIsLog(|arr|);
    }
  }

  // ---------------------------------------------------------------------
  // Jump search (search_algorithms.py:45-67)
  // ---------------------------------------------------------------------

  /** The second loop: a linear scan of the block [prev, end), end = min(step, n). */
  function JumpScan(arr: seq<int>, target: int, prev: nat, end: nat, comps: nat): SearchResult
    requires end <= |arr|
    decreases end - prev
  {
    if prev < end then
      if arr[prev] == target then SearchResult(prev, comps + 1)
      else JumpScan(arr, target, prev + 1, end, comps + 1)
    else SearchResult(-1, comps)
  }

  /** The first loop, jumping by blocks of length b with step == prev + b.
      Only b >= 1 is needed (b is the floor square root of n, at least 1 when
      the array is not empty); for an empty array the prev < n test fails
      before any read. */
  function JumpBlocks(arr: seq<int>, target: int, b: nat, prev: nat, step: nat, comps: nat): SearchResult
    requires step == prev + b
    requires |arr| > 0 ==> b >= 1
    decreases |arr| - prev
  {
    if prev < |arr| && arr[Min(step, |arr|) - 1] < target then
      if step >= |arr| then SearchResult(-1, comps + 1)
      else JumpBlocks(arr, target, b, step, step + b, comps + 1)
    else JumpScan(arr, target, prev, Min(step, |arr|), comps)
  }

  function JumpWith(arr: seq<int>, target: int, b: nat): SearchResult
    requires |arr| > 0 ==> b >= 1
  {
    JumpBlocks(arr, target, b, 0, b, 0)
  }

  function Jump(arr: seq<int>, target: int): SearchResult {
    JumpWith(arr, target, FloorSqrt(|arr|))
  }

  lemma {:induction false} JumpScanSpec(arr: seq<int>, target: int, prev: nat, end: nat, comps: nat)
    requires prev <= end <= |arr|
    ensures var r := JumpScan(arr, target, prev, end, comps);
      (r.index != -1 ==> prev <= r.index < end && arr[r.index] == target &&
                         r.comparisons == comps + (r.index - prev) + 1) &&
      (r.index == -1 ==> r.comparisons == comps + (end - prev) &&
                         forall j :: prev <= j < end ==> arr[j] != target)
    decreases end - prev
  {
    if prev < end && arr[prev] != target {
      JumpScanSpec(arr, target, prev + 1, end, comps + 1);
    }
  }

  lemma {:induction false} JumpBlocksSpec(arr: seq<int>, target: int, b: nat, prev: nat, step: nat, comps: nat)
    requires step == prev + b
    requires |arr| > 0 ==> b >= 1
    requires comps <= prev
    requires prev <= |arr|
    requires Sorted(arr) ==> forall j :: 0 <= j < prev ==> arr[j] < target
    ensures var r := JumpBlocks(arr, target, b, prev, step, comps);
      (r.index != -1 ==> 0 <= r.index < |arr| && arr[r.index] == target) &&
      (Sorted(arr) && r.index == -1 ==> target !in arr) &&
      r.comparisons <= |arr|
    decreases |arr| - prev
  {
    var n := |arr|;
    if prev < n && arr[Min(step, n) - 1] < target {
      if Sorted(arr) {
        assert forall j :: 0 <= j < Min(step, n) ==> arr[j] < target by {
          forall j | 0 <= j < Min(step, n) ensures arr[j] < target {
            assert arr[j] <= arr[Min(step, n) - 1];
          }
        }
      }
      if step < n {
        JumpBlocksSpec(arr, target, b, step, step + b, comps + 1);
      } else if Sorted(arr) {
        assert forall j :: 0 <= j < n ==> arr[j] != target;
      }
    } else {
      var end := Min(step, n);
      JumpScanSpec(arr, target, prev, end, comps);
      var r := JumpScan(arr, target, prev, end, comps);
      if Sorted(arr) && r.index == -1 {
        if prev < n {
          // the block's last element is at least the target, and it was scanned
          assert prev <= end - 1 && arr[end - 1] >= target && arr[end - 1] != target;
          forall j | 0 <= j < n ensures arr[j] != target {
            if j >= end { assert arr[end - 1] <= arr[j]; }
          }
        } else {
          assert forall j :: 0 <= j < n ==> arr[j] != target;
        }
      }
    }
  }

  /** Jump search with any block length b >= 1: a found index holds the target,
      on an ascending array -1 means the target is absent (including the early
      exit when a jump passes the end), and it never runs more than n iterations. */
  lemma JumpWithCorrect(arr: seq<int>, target: int, b: nat)
    requires |arr| > 0 ==> b >= 1
    ensures var r := JumpWith(arr, target, b);
      (r.index != -1 ==> 0 <= r.index < |arr| && arr[r.index] == target) &&
      (Sorted(arr) && r.index == -1 ==> target !in arr) &&
      0 <= r.comparisons <= |arr|
  {
    JumpBlocksSpec(arr, target, b, 0, b, 0);
    JumpComparisonsNonNegative(arr, target, b, 0, b, 0);
  }

  lemma {:induction false} JumpComparisonsNonNegative(arr: seq<int>, target: int, b: nat, prev: nat, step: nat, comps: nat)
    requires step == prev + b
    requires |arr| > 0 ==> b >= 1
    ensures JumpBlocks(arr, target, b, prev, step, comps).comparisons >= comps
    decreases |arr| - prev
  {
    var n := |arr|;
    if prev < n && arr[Min(step, n) - 1] < target {
      if step < n {
        JumpComparisonsNonNegative(arr, target, b, step, step + b, comps + 1);
      }
    } else {
      JumpScanGrows(arr, target, prev, Min(step, n), comps);
    }
  }

  lemma {:induction false} JumpScanGrows(arr: seq<int>, target: int, prev: nat, end: nat, comps: nat)
    requires end <= |arr|
    ensures JumpScan(arr, target, prev, end, comps).comparisons >= comps
    decreases end - prev
  {
    if prev < end && arr[prev] != target {
      JumpScanGrows(arr, target, prev + 1, end, comps + 1);
    }
  }

  // ---------------------------------------------------------------------
  // Interpolation search (search_algorithms.py:70-96)
  // ---------------------------------------------------------------------

  /** The loop guard: a non-empty window whose end values bracket the target. */
  predicate InterpolationGuard(arr: seq<int>, target: int, low: int, high: int)
    requires 0 <= low && high < |arr|
  {
    low <= high && arr[low] <= target <= arr[high]
  }

  /** The predicted position. Python's // rounds towards minus infinity; here the
      numerator is never negative and the denominator is positive, so Dafny's
      division computes the same quotient. */
  function Predict(arr: seq<int>, target: int, low: int, high: int): int
    requires 0 <= low <= high < |arr|
    requires arr[high] != arr[low]
  {
    low + ((target - arr[low]) * (high - low)) / (arr[high] - arr[low])
  }

  lemma CancelFactor(d: int, x: int, y: int)
    requires 0 < d && d * x <= d * y
    ensures x <= y
  {
    assert d * (y - x) >= 0;
  }

  lemma ScaledQuotientBound(a: int, w: int, d: int)
    requires 0 <= a <= d && 0 < d && 0 <= w
    ensures 0 <= (a * w) / d <= w
  {
    var p := a * w;
    assert 0 <= p <= d * w by {
      assert (d - a) * w >= 0;
    }
    var q, rest := p / d, p % d;
    assert p == d * q + rest && 0 <= rest < d;
    CancelFactor(d, q, w);
    CancelFactor(d, -1, q);
  }

  /** Whenever the loop guard holds and the end values differ, the predicted
      position lies inside [low, high]: the "pos out of range" exit is never
      taken, and the read arr[pos] is in bounds. */
  lemma PredictInRange(arr: seq<int>, target: int, low: int, high: int)
    requires 0 <= low && high < |arr|
    requires InterpolationGuard(arr, target, low, high)
    requires arr[high] != arr[low]
    ensures low <= Predict(arr, target, low, high) <= high
  {
    ScaledQuotientBound(target - arr[low], high - low, arr[high] - arr[low]);
  }

  function InterpolationLoop(arr: seq<int>, target: int, low: int, high: int, comps: nat): SearchResult
    requires 0 <= low && -1 <= high < |arr|
    decreases high - low + 1
  {
    if InterpolationGuard(arr, target, low, high) then
      if arr[high] == arr[low] then
        if arr[low] == target then SearchResult(low, comps + 1) else SearchResult(-1, comps + 1)
      else
        var pos := Predict(arr, target, low, high);
        if pos < low || pos > high then SearchResult(-1, comps + 1)
        else if arr[pos] == target then SearchResult(pos, comps + 1)
        else if arr[pos] < target then InterpolationLoop(arr, target, pos + 1, high, comps + 1)
        else InterpolationLoop(arr, target, low, pos - 1, comps + 1)
    else SearchResult(-1, comps)
  }

  function Interpolation(arr: seq<int>, target: int): SearchResult {
    InterpolationLoop(arr, target, 0, |arr| - 1, 0)
  }

  lemma {:induction false} InterpolationLoopSpec(arr: seq<int>, target: int, low: int, high: int, comps: nat)
    requires 0 <= low <= high + 1 && high < |arr|
    requires Sorted(arr) ==> forall j :: 0 <= j < low ==> arr[j] < target
    requires Sorted(arr) ==> forall j :: high < j < |arr| ==> arr[j] > target
    ensures var r := InterpolationLoop(arr, target, low, high, comps);
      (r.index != -1 ==> low <= r.index <= high && arr[r.index] == target) &&
      (Sorted(arr) && r.index == -1 ==> target !in arr) &&
      comps <= r.comparisons <= comps + (high - low + 1)
    decreases high - low + 1
  {
    if InterpolationGuard(arr, target, low, high) {
      if arr[high] != arr[low] {
        PredictInRange(arr, target, low, high);
        var pos := Predict(arr, target, low, high);
        if arr[pos] < target {
          if Sorted(arr) {
            forall j | 0 <= j < pos + 1 ensures arr[j] < target {
              assert arr[j] <= arr[pos];
            }
          }
          InterpolationLoopSpec(arr, target, pos + 1, high, comps + 1);
        } else if arr[pos] > target {
          if Sorted(arr) {
            forall j | pos - 1 < j < |arr| ensures arr[j] > target {
              assert arr[pos] <= arr[j];
            }
          }
          InterpolationLoopSpec(arr, target, low, pos - 1, comps + 1);
        }
      }
    } else if Sorted(arr) {
      forall j | 0 <= j < |arr| ensures arr[j] != target {
        if low <= j <= high {
          if arr[low] > target {
            assert arr[low] <= arr[j];
          } else {
            assert arr[j] <= arr[high];
          }
        }
      }
    }
  }

  /** A found index holds the target; on an ascending array -1 means the target
      is absent; the loop runs at most n iterations. */
  lemma InterpolationCorrect(arr: seq<int>, target: int)
    ensures var r := Interpolation(arr, target);
      (r.index != -1 ==> 0 <= r.index < |arr| && arr[r.index] == target) &&
      (Sorted(arr) && r.index == -1 ==> target !in arr) &&
      0 <= r.comparisons <= |arr|
  {
    InterpolationLoopSpec(arr, target, 0, |arr| - 1, 0);
  }
}
