/** The four search routines of search_algorithms.py, as the loops they are.
    A Python list of integers is a seq<int> (the routines only read it), and
    Python integers are unbounded, like Dafny's int. Each method is tied to
    its reference function in module Searching, and states the routine's
    promise directly. */
module PySearch {
  import opened Searching

  /** linear_search: the first index holding the target after index + 1
      comparisons, otherwise (-1, len(arr)). */
  method LinearSearch(arr: seq<int>, target: int) returns (r: SearchResult)
    ensures r == Linear(arr, target)
    ensures target in arr ==>
      0 <= r.index < |arr| && arr[r.index] == target && r.comparisons == r.index + 1 &&
      forall j :: 0 <= j < r.index ==> arr[j] != target
    ensures target !in arr ==> r == SearchResult(-1, |arr|)
  {
    LinearFirstMatch(arr, target);
    var comparisons := 0;
    for i := 0 to |arr|
      invariant comparisons == i
      invariant LinearFrom(arr, target, i) == Linear(arr, target)
    {
      comparisons := comparisons + 1;
      if arr[i] == target {
        return SearchResult(i, comparisons);
      }
    }
    return SearchResult(-1, comparisons);
  }

  /** binary_search: every read arr[mid] is in bounds (mid lies in the current
      window), a found index holds the target, on an ascending array -1 means
      absent, and at most floor(log2 n) + 1 iterations run. */
  method BinarySearch(arr: seq<int>, target: int) returns (r: SearchResult)
    ensures r == Binary(arr, target)
    ensures r.index != -1 ==> 0 <= r.index < |arr| && arr[r.index] == target
    ensures Sorted(arr) && r.index == -1 ==> target !in arr
    ensures 0 <= r.comparisons <= Bits(|arr|)
  {
    var comparisons := 0;
    var left, right := 0, |arr| - 1;
    while left <= right
      invariant 0 <= left <= right + 1 <= |arr|
      invariant 0 <= comparisons
      invariant BinaryLoop(arr, target, left, right, comparisons) == Binary(arr, target)
      decreases right - left
    {
      comparisons := comparisons + 1;
      var mid := (left + right) / 2;
      assert left <= mid <= right;
      if arr[mid] == target {
        r := SearchResult(mid, comparisons);
        break;
      } else if arr[mid] < target {
        left := mid + 1;
      } else {
        right := mid - 1;
      }
    }
    if left > right {
      r := SearchResult(-1, comparisons);
    }
    BinaryFound(arr, target);
    if Sorted(arr) { BinaryAbsent(arr, target); }
    BinaryComparisons(arr, target);
  }

  /** jump_search: blocks of length int(math.sqrt(n)), then a scan of one block.
      Every read is in bounds (also for n == 0, where the prev < n test fails
      first); a found index holds the target; on an ascending array -1 means
      absent, also on the early exit when a jump passes the end. */
  method JumpSearch(arr: seq<int>, target: int) returns (r: SearchResult)
    ensures r == Jump(arr, target)
    ensures r.index != -1 ==> 0 <= r.index < |arr| && arr[r.index] == target
    ensures Sorted(arr) && r.index == -1 ==> target !in arr
    ensures 0 <= r.comparisons <= |arr|
  {
    JumpWithCorrect(arr, target, FloorSqrt(|arr|));
    var comparisons := 0;
    var n := |arr|;
    var step := FloorSqrt(n);
    var prev := 0;

    while prev < n && arr[Min(step, n) - 1] < target
      invariant step == prev + FloorSqrt(n)
      invariant JumpBlocks(arr, target, FloorSqrt(n), prev, step, comparisons) == Jump(arr, target)
      decreases n - prev
    {
      comparisons := comparisons + 1;
      prev := step;
      step := step + FloorSqrt(n);
      if prev >= n {
        return SearchResult(-1, comparisons);
      }
    }

    var end := Min(step, n);
    while prev < Min(step, n)
      invariant JumpScan(arr, target, prev, end, comparisons) == Jump(arr, target)
      decreases end - prev
    {
      comparisons := comparisons + 1;
      if arr[prev] == target {
        return SearchResult(prev, comparisons);
      }
      prev := prev + 1;
    }
    return SearchResult(-1, comparisons);
  }

  /** interpolation_search: the predicted position always lies in [low, high]
      while the guard holds (so the out-of-range exit is never taken), a found
      index holds the target, on an ascending array -1 means absent, and at
      most n iterations run. */
  method InterpolationSearch(arr: seq<int>, target: int) returns (r: SearchResult)
    ensures r == Interpolation(arr, target)
    ensures r.index != -1 ==> 0 <= r.index < |arr| && arr[r.index] == target
    ensures Sorted(arr) && r.index == -1 ==> target !in arr
    ensures 0 <= r.comparisons <= |arr|
  {
    InterpolationCorrect(arr, target);
    var comparisons := 0;
    var low, high := 0, |arr| - 1;

    while low <= high && arr[low] <= target <= arr[high]
      invariant 0 <= low && -1 <= high < |arr|
      invariant InterpolationLoop(arr, target, low, high, comparisons) == Interpolation(arr, target)
      decreases high - low
    {
      comparisons := comparisons + 1;

      if arr[high] == arr[low] {
        if arr[low] == target {
          return SearchResult(low, comparisons);
        }
        break;
      }

      var pos := low + ((target - arr[low]) * (high - low)) / (arr[high] - arr[low]);
      assert pos == Predict(arr, target, low, high);

      if pos < low || pos > high {
        break;
      }

      if arr[pos] == target {
        return SearchResult(pos, comparisons);
      } else if arr[pos] < target {
        low := pos + 1;
      } else {
        high := pos - 1;
      }
    }

    return SearchResult(-1, comparisons);
  }
}
