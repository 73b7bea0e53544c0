/** The four search routines of SearchAlgorithms.java. Java's int is a 32-bit
    two's-complement integer whose +, -, * wrap around and whose / rounds
    towards zero; Int32 and the operations below model exactly that, so any
    overflow the routines could suffer is visible in the model. SearchResult
    is a value: its two fields are set by its constructor and never changed.

    Each method states what the routine promises and when it returns the
    same (index, comparisons) pair as the Python routine of the same name
    (the reference functions of module Searching): linear search always;
    binary and jump search on every array of at most 2^30 elements, which
    they require; interpolation search on every input satisfying
    InterpolationFits, and otherwise only its safety, a correct found index
    and its comparison bound. */
module JavaSearch {
  import S = Searching

  newtype Int32 = x: int | -0x8000_0000 <= x < 0x8000_0000

  predicate IsInt32(x: int) {
    -0x8000_0000 <= x < 0x8000_0000
  }

  /** Two's-complement wrap-around of a mathematical integer into a Java int. */
  function Wrap(x: int): (r: Int32)
    ensures IsInt32(x) ==> r as int == x
    ensures 0 < x < 0x1_0000_0000 ==> r != 0
  {
    if IsInt32(x) then x as Int32
    else ((x + 0x8000_0000) % 0x1_0000_0000 - 0x8000_0000) as Int32
  }

  function Add(a: Int32, b: Int32): Int32 { Wrap(a as int + b as int) }

  function Sub(a: Int32, b: Int32): Int32 { Wrap(a as int - b as int) }

  function Mul(a: Int32, b: Int32): Int32 { Wrap(a as int * b as int) }

  /** Integer division rounding towards zero, as Java's / does. */
  function TruncDiv(a: int, b: int): int
    requires b != 0
  {
    var q := (if a < 0 then -a else a) / (if b < 0 then -b else b);
    if (a < 0) == (b < 0) then q else -q
  }

  /** Java's int division; only MIN_VALUE / -1 wraps around. */
  function Div(a: Int32, b: Int32): Int32
    requires b != 0
  {
    Wrap(TruncDiv(a as int, b as int))
  }

  /** With a numerator that is not negative and a positive denominator, Java's
      truncating division and Python's floor division give the same quotient. */
  lemma TruncDivAgreesWithFloor(a: int, b: int)
    requires 0 <= a && 0 < b
    ensures TruncDiv(a, b) == a / b
  {
  }

  function MinInt(a: Int32, b: Int32): Int32 {
    if a <= b then a else b
  }

  datatype SearchResult = SearchResult(index: Int32, comparisons: Int32)

  function ToPython(r: SearchResult): S.SearchResult {
    S.SearchResult(r.index as int, r.comparisons as int)
  }

  /** The integers an int[] holds. */
  function Widen(s: seq<Int32>): (r: seq<int>)
    ensures |r| == |s|
    ensures forall i :: 0 <= i < |s| ==> r[i] == s[i] as int
  {
    seq(|s|, i requires 0 <= i < |s| => s[i] as int)
  }

  /** linearSearch returns what linear_search returns: the first index holding
      the target with index + 1 comparisons, or (-1, arr.length). No overflow
      is possible, since a Java array has fewer than 2^31 elements. */
  method LinearSearch(arr: array<Int32>, target: Int32) returns (r: SearchResult)
    requires arr.Length < 0x8000_0000
    ensures ToPython(r) == S.Linear(Widen(arr[..]), target as int)
    ensures target in arr[..] ==>
      0 <= r.index as int < arr.Length && arr[r.index] == target &&
      r.comparisons as int == r.index as int + 1 &&
      forall j :: 0 <= j < r.index as int ==> arr[j] != target
    ensures target !in arr[..] ==> r.index == -1 && r.comparisons as int == arr.Length
  {
    ghost var a := Widen(arr[..]);
    var comparisons: Int32 := 0;
    var i: Int32 := 0;
    while i < arr.Length as Int32
      invariant 0 <= i as int <= arr.Length
      invariant comparisons == i
      invariant S.LinearFrom(a, target as int, i as int) == S.Linear(a, target as int)
      decreases arr.Length - i as int
    {
      comparisons := Add(comparisons, 1);
      if arr[i] == target {
        r := SearchResult(i, comparisons);
        LinearFacts(arr, target, r);
        return;
      }
      i := Add(i, 1);
    }
    r := SearchResult(-1, comparisons);
    LinearFacts(arr, target, r);
  }

  lemma LinearFacts(arr: array<Int32>, target: Int32, r: SearchResult)
    requires ToPython(r) == S.Linear(Widen(arr[..]), target as int)
    ensures target in arr[..] ==>
      0 <= r.index as int < arr.Length && arr[r.index] == target &&
      r.comparisons as int == r.index as int + 1 &&
      forall j :: 0 <= j < r.index as int ==> arr[j] != target
    ensures target !in arr[..] ==> r.index == -1 && r.comparisons as int == arr.Length
  {
    var a := Widen(arr[..]);
    S.LinearFirstMatch(a, target as int);
    assert target in arr[..] <==> target as int in a by {
      if target as int in a {
        var k :| 0 <= k < |a| && a[k] == target as int;
        assert arr[..][k] == target;
      }
      if target in arr[..] {
        var k :| 0 <= k < arr.Length && arr[..][k] == target;
        assert a[k] == target as int;
      }
    }
  }

  /** binarySearch: while the array has at most 2^30 elements, left + right
      never overflows, so mid == (left + right) / 2 lies in [left, right] and
      the routine returns what binary_search returns; a found index holds the
      target, and on an ascending array -1 means absent. */
  method BinarySearch(arr: array<Int32>, target: Int32) returns (r: SearchResult)
    requires arr.Length <= 0x4000_0000
    ensures ToPython(r) == S.Binary(Widen(arr[..]), target as int)
    ensures r.index != -1 ==> 0 <= r.index as int < arr.Length && arr[r.index] == target
    ensures (S.Sorted(Widen(arr[..])) && r.index == -1) ==> target !in arr[..]
  {
    ghost var a := Widen(arr[..]);
    var comparisons: Int32 := 0;
    var left: Int32, right: Int32 := 0, Sub(arr.Length as Int32, 1);
    while left <= right
      invariant 0 <= left as int <= right as int + 1 <= arr.Length
      invariant 0 <= comparisons as int <= arr.Length - (right as int - left as int + 1)
      invariant S.BinaryLoop(a, target as int, left as int, right as int, comparisons as int) == S.Binary(a, target as int)
      decreases right - left
    {
      comparisons := Add(comparisons, 1);
      var sum := Add(left, right);
      assert sum as int == left as int + right as int;
      TruncDivAgreesWithFloor(sum as int, 2);
      var mid := Div(sum, 2);
      ghost var m := (left as int + right as int) / 2;
      assert mid as int == m && left as int <= m <= right as int;
      assert arr[mid] as int == a[m];
      if arr[mid] == target {
        r := SearchResult(mid, comparisons);
        break;
      } else if arr[mid] < target {
        left := Add(mid, 1);
      } else {
        right := Sub(mid, 1);
      }
    }
    if left > right {
      r := SearchResult(-1, comparisons);
    }
    S.BinaryFound(a, target as int);
    if S.Sorted(a) && r.index == -1 {
      S.BinaryAbsent(a, target as int);
      NotInWiden(arr, target);
    }
  }

  lemma NotInWiden(arr: array<Int32>, target: Int32)
    requires target as int !in Widen(arr[..])
    ensures target !in arr[..]
  {
    forall k | 0 <= k < arr.Length ensures arr[k] != target {
      assert Widen(arr[..])[k] == arr[k] as int;
    }
  }

  /** jumpSearch: while the array has at most 2^30 elements, step never
      overflows, every read (arr[min(step, n) - 1], arr[prev]) is in bounds,
      and the routine returns what jump_search returns; a found index holds the
      target, and on an ascending array -1 means absent. */
  method JumpSearch(arr: array<Int32>, target: Int32) returns (r: SearchResult)
    requires arr.Length <= 0x4000_0000
    ensures ToPython(r) == S.Jump(Widen(arr[..]), target as int)
    ensures r.index != -1 ==> 0 <= r.index as int < arr.Length && arr[r.index] == target
    ensures (S.Sorted(Widen(arr[..])) && r.index == -1) ==> target !in arr[..]
  {
    ghost var a := Widen(arr[..]);
    ghost var b := S.FloorSqrt(arr.Length);
    var comparisons: Int32 := 0;
    var n: Int32 := arr.Length as Int32;
    // (int) Math.sqrt(n): the square root of an int is never far enough from
    // an integer for the conversion to round across it.
    var root: Int32 := S.FloorSqrt(n as int) as Int32;
    var step: Int32 := root;
    var prev: Int32 := 0;

    while prev < n && arr[Sub(MinInt(step, n), 1)] < target
      invariant 0 <= comparisons as int <= prev as int <= n as int
      invariant step as int == prev as int + b
      invariant S.JumpBlocks(a, target as int, b, prev as int, step as int, comparisons as int) == S.Jump(a, target as int)
      decreases n - prev
    {
      assert (MinInt(step, n) as int) - 1 == S.Min(step as int, n as int) - 1;
      comparisons := Add(comparisons, 1);
      prev := step;
      step := Add(step, root);
      if prev >= n {
        r := SearchResult(-1, comparisons);
        JumpFacts(arr, target, r);
        return;
      }
    }

    while prev < MinInt(step, n)
      invariant 0 <= comparisons as int <= prev as int <= n as int
      invariant S.JumpScan(a, target as int, prev as int, S.Min(step as int, n as int), comparisons as int) == S.Jump(a, target as int)
      decreases n - prev
    {
      comparisons := Add(comparisons, 1);
      if arr[prev] == target {
        r := SearchResult(prev, comparisons);
        JumpFacts(arr, target, r);
        return;
      }
      prev := Add(prev, 1);
    }
    r := SearchResult(-1, comparisons);
    JumpFacts(arr, target, r);
  }

  lemma JumpFacts(arr: array<Int32>, target: Int32, r: SearchResult)
    requires ToPython(r) == S.Jump(Widen(arr[..]), target as int)
    ensures r.index != -1 ==> 0 <= r.index as int < arr.Length && arr[r.index] == target
    ensures (S.Sorted(Widen(arr[..])) && r.index == -1) ==> target !in arr[..]
  {
    S.JumpWithCorrect(Widen(arr[..]), target as int, S.FloorSqrt(arr.Length));
    if S.Sorted(Widen(arr[..])) && r.index == -1 {
      NotInWiden(arr, target);
    }
  }

  /** No intermediate value of interpolationSearch's prediction can overflow:
      for every window [lo, hi] of the array that brackets the target with
      distinct ends, whether or not the loop reaches it, the product
      (target - arr[lo]) * (hi - lo) and the difference arr[hi] - arr[lo] fit
      in a Java int. */
  predicate InterpolationFits(a: seq<int>, target: int) {
    forall lo, hi :: 0 <= lo < hi < |a| ==> PredictionFitsAt(a, target, lo, hi)
  }

  /** The window [lo, hi], if the loop guard admits it, computes its prediction without overflow. */
  predicate PredictionFitsAt(a: seq<int>, target: int, lo: int, hi: int)
    requires 0 <= lo < hi < |a|
  {
    a[lo] <= target <= a[hi] && a[lo] < a[hi] ==>
      IsInt32((target - a[lo]) * (hi - lo)) && IsInt32(a[hi] - a[lo])
  }

  /** interpolationSearch, with Java's wrap-around arithmetic. Even when the
      prediction overflows, the range test on pos keeps every read in bounds, a
      found index holds the target and at most n iterations run. When no
      overflow occurs, pos lies in [low, high] (Java's truncating / agrees with
      floor division there) and the routine returns what interpolation_search
      returns; so on an ascending array -1 then means absent. */
  method InterpolationSearch(arr: array<Int32>, target: Int32) returns (r: SearchResult)
    requires arr.Length < 0x8000_0000
    ensures r.index != -1 ==> 0 <= r.index as int < arr.Length && arr[r.index] == target
    ensures 0 <= r.comparisons as int <= arr.Length
    ensures InterpolationFits(Widen(arr[..]), target as int) ==>
      ToPython(r) == S.Interpolation(Widen(arr[..]), target as int)
    ensures (InterpolationFits(Widen(arr[..]), target as int) && S.Sorted(Widen(arr[..])) &&
             r.index == -1) ==> target !in arr[..]
  {
    ghost var a := Widen(arr[..]);
    ghost var fits := InterpolationFits(a, target as int);
    var comparisons: Int32 := 0;
    var low: Int32, high: Int32 := 0, Sub(arr.Length as Int32, 1);

    while low <= high && arr[low] <= target && target <= arr[high]
      invariant 0 <= low as int <= high as int + 1 <= arr.Length
      invariant 0 <= comparisons as int <= arr.Length - (high as int - low as int + 1)
      invariant fits ==> S.InterpolationLoop(a, target as int, low as int, high as int, comparisons as int) == S.Interpolation(a, target as int)
      decreases high - low
    {
      assert S.InterpolationGuard(a, target as int, low as int, high as int);
      comparisons := Add(comparisons, 1);

      if arr[high] == arr[low] {
        if arr[low] == target {
          r := SearchResult(low, comparisons);
          InterpolationFacts(arr, target, r);
          return;
        }
        break;
      }

      var pos := PredictPosition(arr, target, low, high);

      if pos < low || pos > high {
        break;
      }

      if arr[pos] == target {
        r := SearchResult(pos, comparisons);
        InterpolationFacts(arr, target, r);
        return;
      } else if arr[pos] < target {
        low := Add(pos, 1);
      } else {
        high := Sub(pos, 1);
      }
    }

    r := SearchResult(-1, comparisons);
    InterpolationFacts(arr, target, r);
  }

  /** The statement int pos = low + ((target - arr[low]) * (high - low)) / (arr[high] - arr[low]),
      evaluated with Java's arithmetic; without overflow it is Python's prediction. */
  method PredictPosition(arr: array<Int32>, target: Int32, low: Int32, high: Int32) returns (pos: Int32)
    requires 0 <= low <= high && high as int < arr.Length
    requires arr[low] <= target <= arr[high] && arr[low] != arr[high]
    ensures InterpolationFits(Widen(arr[..]), target as int) ==>
      pos as int == S.Predict(Widen(arr[..]), target as int, low as int, high as int)
  {
    var den := Sub(arr[high], arr[low]);
    assert den != 0;
    var num := Mul(Sub(target, arr[low]), Sub(high, low));
    pos := Add(low, Div(num, den));
    if InterpolationFits(Widen(arr[..]), target as int) {
      PredictFits(arr, target, low, high, num, den, pos);
    }
  }

  /** Without overflow, each Java operation of the prediction computes the
      mathematical value, so Java's pos equals Python's. */
  lemma PredictFits(arr: array<Int32>, target: Int32, low: Int32, high: Int32, num: Int32, den: Int32, pos: Int32)
    requires InterpolationFits(Widen(arr[..]), target as int)
    requires 0 <= low <= high && high as int < arr.Length
    requires arr[low] <= target <= arr[high] && arr[low] != arr[high]
    requires num == Mul(Sub(target, arr[low]), Sub(high, low))
    requires den == Sub(arr[high], arr[low]) && den != 0
    requires pos == Add(low, Div(num, den))
    ensures pos as int == S.Predict(Widen(arr[..]), target as int, low as int, high as int)
  {
    ghost var a := Widen(arr[..]);
    assert a[low] == arr[low] as int && a[high] == arr[high] as int;
    assert low < high;
    assert PredictionFitsAt(a, target as int, low as int, high as int);
    S.PredictInRange(a, target as int, low as int, high as int);
    PredictArith(target, arr[low], arr[high], low, high, num, den, pos);
  }

  /** The arithmetic of PredictFits, free of arrays and quantifiers. */
  lemma PredictArith(t: Int32, al: Int32, ah: Int32, lo: Int32, hi: Int32, num: Int32, den: Int32, pos: Int32)
    requires al as int <= t as int < ah as int + 1 && al < ah && 0 <= lo < hi
    requires IsInt32((t as int - al as int) * (hi as int - lo as int)) && IsInt32(ah as int - al as int)
    requires lo as int + ((t as int - al as int) * (hi as int - lo as int)) / (ah as int - al as int) <= hi as int
    requires num == Mul(Sub(t, al), Sub(hi, lo))
    requires den == Sub(ah, al) && den != 0
    requires pos == Add(lo, Div(num, den))
    ensures pos as int == lo as int + ((t as int - al as int) * (hi as int - lo as int)) / (ah as int - al as int)
  {
    var d := Sub(t, al);
    var w := Sub(hi, lo);
    ghost var n := (t as int - al as int) * (hi as int - lo as int);
    ghost var e := ah as int - al as int;
    assert d as int == t as int - al as int;
    assert w as int == hi as int - lo as int;
    assert d as int * w as int == n;
    MulExact(d, w);
    assert num as int == n;
    assert den as int == e;
    MulNonNegative(t as int - al as int, hi as int - lo as int);
    DivExact(num, den);
    ghost var q := Div(num, den);
    assert q as int == n / e;
    assert 0 <= lo as int + q as int <= hi as int;
  }

  lemma MulNonNegative(a: int, b: int)
    requires 0 <= a && 0 <= b
    ensures 0 <= a * b
  {
  }

  lemma MulExact(a: Int32, b: Int32)
    requires IsInt32(a as int * b as int)
    ensures Mul(a, b) as int == a as int * b as int
  {
  }

  lemma DivExact(a: Int32, b: Int32)
    requires 0 <= a && 0 < b
    ensures Div(a, b) as int == a as int / b as int
    ensures 0 <= Div(a, b)
  {
    TruncDivAgreesWithFloor(a as int, b as int);
    QuotientBounds(a as int, b as int);
  }

  lemma QuotientBounds(a: int, b: int)
    requires 0 <= a && 0 < b
    ensures 0 <= a / b <= a
  {
    var q := a / b;
    assert q * b + a % b == a;
    if q > a {
      assert q * b >= q by { MulAtLeast(q, b); }
    }
  }

  lemma MulAtLeast(q: int, b: int)
    requires 0 <= q && 1 <= b
    ensures q * b >= q
  {
  }

  lemma InterpolationFacts(arr: array<Int32>, target: Int32, r: SearchResult)
    requires r.index != -1 ==> 0 <= r.index as int < arr.Length && arr[r.index] == target
    requires InterpolationFits(Widen(arr[..]), target as int) ==>
      ToPython(r) == S.Interpolation(Widen(arr[..]), target as int)
    ensures (InterpolationFits(Widen(arr[..]), target as int) && S.Sorted(Widen(arr[..])) &&
             r.index == -1) ==> target !in arr[..]
  {
    S.InterpolationCorrect(Widen(arr[..]), target as int);
    if InterpolationFits(Widen(arr[..]), target as int) && S.Sorted(Widen(arr[..])) && r.index == -1 {
      NotInWiden(arr, target);
    }
  }
}
