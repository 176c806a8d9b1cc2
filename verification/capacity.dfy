/** Replica counts for a monthly volume, and the polyline that charts their cost. */
module Capacity {
  import opened Domain
  import opened Arithmetic

  /** The least integer at least a / b. */
  function CeilDiv(a: int, b: int): int
    requires b > 0
  {
    -((-a) / b)
  }

  datatype CapacityError = NonPositiveInput

  function RequiredReplicas(monthlyRequests: int, perReplica: int): Result<int, CapacityError> {
    if monthlyRequests < 1 || perReplica < 1 then Err(NonPositiveInput)
    else Ok(CeilDiv(monthlyRequests, perReplica))
  }

  lemma CeilDivBrackets(a: int, b: int)
    requires b > 0
    ensures (CeilDiv(a, b) - 1) * b < a <= CeilDiv(a, b) * b
  {
    var q, r := (-a) / b, (-a) % b;
    assert -a == q * b + r;
    assert (-q - 1) * b == -(q * b) - b;
    assert (-q) * b == -(q * b);
  }

  lemma CeilDivUnique(a: int, b: int, n: int)
    requires b > 0 && (n - 1) * b < a <= n * b
    ensures CeilDiv(a, b) == n
  {
    CeilDivBrackets(a, b);
    var c := CeilDiv(a, b);
    StrictlyLess(n - 1, c, b);
    StrictlyLess(c - 1, n, b);
  }

  /** For positive inputs alone there is an answer: it suffices for the volume, and no smaller number does. */
  lemma RequiredReplicasIsLeastSufficient(volume: int, perReplica: int, n: int)
    ensures RequiredReplicas(volume, perReplica).Ok? <==> volume >= 1 && perReplica >= 1
    ensures volume >= 1 && perReplica >= 1 ==>
              var required := RequiredReplicas(volume, perReplica).value;
              required >= 1 && (n * perReplica >= volume <==> n >= required)
  {
    if volume < 1 || perReplica < 1 {
      return;
    }
    CeilDivBrackets(volume, perReplica);
    var required := CeilDiv(volume, perReplica);
    StrictlyLess(0, required, perReplica);
    if n >= required {
      assert (n - required) * perReplica >= 0;
    } else {
      assert (required - 1 - n) * perReplica >= 0;
    }
  }

  // ----- the step polyline -----

  type Vertex = (int, real)

  function CostOf(replicas: int, replicaCost: real): real {
    replicas as real * replicaCost
  }

  /** The vertices from the multiple n * capacity on: two at each multiple below `high`. */
  function Steps(capacity: int, replicaCost: real, n: int, high: int): seq<Vertex>
    requires capacity > 0
    decreases high - n * capacity
  {
    if n * capacity >= high then []
    else
      assert (n + 1) * capacity == n * capacity + capacity;
      [(n * capacity, CostOf(n, replicaCost)), (n * capacity, CostOf(n + 1, replicaCost))]
      + Steps(capacity, replicaCost, n + 1, high)
  }

  function Polyline(capacity: int, replicaCost: real, low: int, high: int): seq<Vertex>
    requires capacity > 0
  {
    [(low, CostOf(CeilDiv(low, capacity), replicaCost))]
    + Steps(capacity, replicaCost, low / capacity + 1, high)
    + [(high, CostOf(CeilDiv(high, capacity), replicaCost))]
  }

  method PrivateSteps(capacity: int, replicaCost: real, low: int, high: int) returns (path: seq<Vertex>)
    requires capacity > 0
    ensures path == Polyline(capacity, replicaCost, low, high)
  {
    path := [(low, CostOf(CeilDiv(low, capacity), replicaCost))];
    ghost var first := path;
    var boundary := (low / capacity + 1) * capacity;
    ghost var n := low / capacity + 1;
    ghost var rest := Steps(capacity, replicaCost, n, high);
    while boundary < high
      invariant boundary == n * capacity
      invariant rest == Steps(capacity, replicaCost, n, high)
      invariant path + rest == first + Steps(capacity, replicaCost, low / capacity + 1, high)
      decreases high - boundary
    {
      var replicas := boundary / capacity;
      MultipleDivides(n, capacity);
      var pair := [(boundary, CostOf(replicas, replicaCost)), (boundary, CostOf(replicas + 1, replicaCost))];
      rest := Steps(capacity, replicaCost, n + 1, high);
      assert path + (pair + rest) == path + pair + rest;
      path := path + pair;
      assert (n + 1) * capacity == n * capacity + capacity;
      boundary := boundary + capacity;
      n := n + 1;
    }
    assert path + [] == path;
    path := path + [(high, CostOf(CeilDiv(high, capacity), replicaCost))];
  }

  lemma MultipleDivides(n: int, b: int)
    requires b > 0
    ensures (n * b) / b == n && (n * b) % b == 0
  {
    var q, r := (n * b) / b, (n * b) % b;
    assert n * b == q * b + r;
    assert (q + 1) * b == q * b + b;
    StrictlyLess(n, q + 1, b);
    if q < n {
      Scaled(q + 1, n, b);
    }
  }

  // ----- vertices -----

  /** The multiples of capacity from n * capacity up to but excluding `high`. */
  function Multiples(capacity: int, n: int, high: int): set<int>
    requires capacity > 0
  {
    set m | n * capacity <= m < high && m % capacity == 0
  }

  lemma {:induction false} StepsCountMultiples(capacity: int, replicaCost: real, n: int, high: int)
    requires capacity > 0
    ensures |Steps(capacity, replicaCost, n, high)| == 2 * |Multiples(capacity, n, high)|
    decreases high - n * capacity
  {
    if n * capacity < high {
      assert (n + 1) * capacity == n * capacity + capacity;
      StepsCountMultiples(capacity, replicaCost, n + 1, high);
      MultipleDivides(n, capacity);
      var later := Multiples(capacity, n + 1, high);
      assert n * capacity !in later;
      forall m | m in Multiples(capacity, n, high) ensures m == n * capacity || m in later {
        NoMultipleBetween(m, n, capacity);
      }
      assert Multiples(capacity, n, high) == later + {n * capacity};
    } else {
      assert Multiples(capacity, n, high) == {};
    }
  }

  lemma NoMultipleBetween(m: int, n: int, b: int)
    requires b > 0 && m % b == 0 && n * b <= m
    ensures m == n * b || (n + 1) * b <= m
  {
    var q := m / b;
    assert m == q * b;
    assert (n - 1) * b == n * b - b && (q + 1) * b == q * b + b;
    StrictlyLess(n - 1, q, b);
    if q > n {
      Scaled(n + 1, q, b);
    }
  }

  lemma FirstMultiple(low: int, b: int)
    requires b > 0
    ensures (low / b) * b <= low < (low / b + 1) * b
    ensures forall m :: m % b == 0 && low < m ==> (low / b + 1) * b <= m
  {
    var q := low / b;
    assert low == q * b + low % b;
    assert (q + 1) * b == q * b + b;
    forall m | m % b == 0 && low < m ensures (q + 1) * b <= m {
      NoMultipleBetween(m, q, b);
    }
  }

  /** The polyline has two vertices and two more for each multiple of capacity strictly inside. */
  lemma VertexCount(capacity: int, replicaCost: real, low: int, high: int)
    requires capacity > 0
    ensures |Polyline(capacity, replicaCost, low, high)|
            == 2 + 2 * |set m | low < m < high && m % capacity == 0|
  {
    FirstMultiple(low, capacity);
    StepsCountMultiples(capacity, replicaCost, low / capacity + 1, high);
    assert (set m | low < m < high && m % capacity == 0) == Multiples(capacity, low / capacity + 1, high);
  }

  // ----- segments -----

  /** A segment is level and does not go back, or rises by one replica at a multiple of capacity. */
  ghost predicate ProperSegment(capacity: int, replicaCost: real, a: Vertex, b: Vertex)
    requires capacity > 0
  {
    || (a.0 <= b.0 && a.1 == b.1)
    || (a.0 == b.0 && a.0 % capacity == 0 && b.1 == a.1 + replicaCost)
  }

  ghost predicate ProperSegments(capacity: int, replicaCost: real, path: seq<Vertex>)
    requires capacity > 0
  {
    forall i | 0 <= i < |path| - 1 :: ProperSegment(capacity, replicaCost, path[i], path[i + 1])
  }

  /** The polyline from a vertex at height n replicas on, with the next multiple n * capacity ahead. */
  function Onward(capacity: int, replicaCost: real, x: int, n: int, high: int): seq<Vertex>
    requires capacity > 0
  {
    [(x, CostOf(n, replicaCost))] + Steps(capacity, replicaCost, n, high)
    + [(high, CostOf(CeilDiv(high, capacity), replicaCost))]
  }

  ghost predicate Ahead(capacity: int, x: int, n: int, high: int)
    requires capacity > 0
  {
    (n - 1) * capacity <= x < n * capacity && x < high
  }

  lemma OnwardUnfolds(capacity: int, replicaCost: real, x: int, n: int, high: int)
    requires capacity > 0 && Ahead(capacity, x, n, high)
    ensures n * capacity >= high ==>
              Onward(capacity, replicaCost, x, n, high) == [(x, CostOf(n, replicaCost)), (high, CostOf(n, replicaCost))]
    ensures n * capacity < high ==>
              && Ahead(capacity, n * capacity, n + 1, high)
              && Onward(capacity, replicaCost, x, n, high)
                 == [(x, CostOf(n, replicaCost)), (n * capacity, CostOf(n, replicaCost))]
                    + Onward(capacity, replicaCost, n * capacity, n + 1, high)
  {
    assert (n + 1) * capacity == n * capacity + capacity;
    if n * capacity >= high {
      CeilDivUnique(high, capacity, n);
    }
  }

  lemma {:induction false} OnwardIsProper(capacity: int, replicaCost: real, x: int, n: int, high: int)
    requires capacity > 0 && Ahead(capacity, x, n, high)
    ensures ProperSegments(capacity, replicaCost, Onward(capacity, replicaCost, x, n, high))
    decreases high - n * capacity
  {
    OnwardUnfolds(capacity, replicaCost, x, n, high);
    if n * capacity < high {
      assert (n + 1) * capacity == n * capacity + capacity;
      var rest := Onward(capacity, replicaCost, n * capacity, n + 1, high);
      OnwardIsProper(capacity, replicaCost, n * capacity, n + 1, high);
      MultipleDivides(n, capacity);
      assert CostOf(n + 1, replicaCost) == CostOf(n, replicaCost) + replicaCost;
      var path := Onward(capacity, replicaCost, x, n, high);
      forall i | 0 <= i < |path| - 1 ensures ProperSegment(capacity, replicaCost, path[i], path[i + 1]) {
        if i >= 2 {
          assert path[i] == rest[i - 2] && path[i + 1] == rest[i - 1];
        }
      }
    }
  }

  lemma StartsOnward(capacity: int, replicaCost: real, low: int, high: int)
    requires capacity > 0 && low < high && (low % capacity != 0 || replicaCost == 0.0)
    ensures Ahead(capacity, low, low / capacity + 1, high)
    ensures Polyline(capacity, replicaCost, low, high) == Onward(capacity, replicaCost, low, low / capacity + 1, high)
  {
    FirstMultiple(low, capacity);
    assert low == low / capacity * capacity + low % capacity;
    if low % capacity != 0 {
      CeilDivUnique(low, capacity, low / capacity + 1);
    }
  }

  /** Starting on a multiple, the first segment climbs from q replicas to q + 1 along a slope. */
  lemma StartsSloped(capacity: int, replicaCost: real, low: int, high: int)
    requires capacity > 0 && low < high && low % capacity == 0
    ensures CostOf(low / capacity + 1, replicaCost) == CostOf(low / capacity, replicaCost) + replicaCost
    ensures var path := Polyline(capacity, replicaCost, low, high);
            var next := (low / capacity + 1) * capacity;
            && |path| >= 2
            && path[0] == (low, CostOf(low / capacity, replicaCost))
            && path[1] == (if next < high then next else high, CostOf(low / capacity + 1, replicaCost))
            && next == low + capacity
  {
    var q := low / capacity;
    assert low == q * capacity;
    assert (q + 1) * capacity == low + capacity;
    assert (q - 1) * capacity == low - capacity;
    CeilDivUnique(low, capacity, q);
    if low + capacity >= high {
      CeilDivUnique(high, capacity, q + 1);
    }
  }

  /**
   * Every segment is level or a one-replica jump exactly when the start is not a multiple of
   * capacity, or replicas are free.
   */
  lemma SegmentsProperExactly(capacity: int, replicaCost: real, low: int, high: int)
    requires capacity > 0 && low < high
    ensures ProperSegments(capacity, replicaCost, Polyline(capacity, replicaCost, low, high))
            <==> low % capacity != 0 || replicaCost == 0.0
  {
    if low % capacity != 0 || replicaCost == 0.0 {
      StartsOnward(capacity, replicaCost, low, high);
      OnwardIsProper(capacity, replicaCost, low, low / capacity + 1, high);
    } else {
      var path := Polyline(capacity, replicaCost, low, high);
      StartsSloped(capacity, replicaCost, low, high);
      assert !ProperSegment(capacity, replicaCost, path[0], path[1]);
    }
  }

  // ----- heights -----

  /** The height of the path just at or before v, past its first vertex: jumps count from the left. */
  function HeightAfter(path: seq<Vertex>, v: int): real
    requires |path| >= 2 && path[0].0 < v <= path[|path| - 1].0
  {
    var (a, b) := (path[0], path[1]);
    if v <= b.0 then a.1 + (b.1 - a.1) * ((v - a.0) as real / (b.0 - a.0) as real)
    else HeightAfter(path[1..], v)
  }

  function HeightAt(path: seq<Vertex>, v: int): real
    requires |path| >= 2 && path[0].0 <= v <= path[|path| - 1].0
  {
    if v == path[0].0 then path[0].1 else HeightAfter(path, v)
  }

  lemma {:induction false} OnwardTracesCeiling(capacity: int, replicaCost: real, x: int, n: int, high: int, v: int)
    requires capacity > 0 && Ahead(capacity, x, n, high) && x < v <= high
    ensures HeightAfter(Onward(capacity, replicaCost, x, n, high), v) == CostOf(CeilDiv(v, capacity), replicaCost)
    decreases high - n * capacity
  {
    OnwardUnfolds(capacity, replicaCost, x, n, high);
    if v <= n * capacity {
      CeilDivUnique(v, capacity, n);
    } else {
      assert (n + 1) * capacity == n * capacity + capacity;
      var path := Onward(capacity, replicaCost, x, n, high);
      var rest := Onward(capacity, replicaCost, n * capacity, n + 1, high);
      assert path[1..][1..] == rest;
      OnwardTracesCeiling(capacity, replicaCost, n * capacity, n + 1, high, v);
    }
  }

  /** At every volume of the range the height is that of so many replicas. */
  ghost predicate FollowsCost(capacity: int, replicaCost: real, low: int, high: int)
    requires capacity > 0 && 0 < low < high
  {
    forall v | low <= v <= high ::
      HeightAt(Polyline(capacity, replicaCost, low, high), v) == CostOf(CeilDiv(v, capacity), replicaCost)
  }

  lemma CostOfRequired(capacity: int, replicaCost: real, v: int)
    requires capacity > 0 && v > 0
    ensures CostOf(CeilDiv(v, capacity), replicaCost) == RequiredReplicas(v, capacity).value as real * replicaCost
  {
  }

  lemma FollowsCostMeansTraces(capacity: int, replicaCost: real, low: int, high: int)
    requires capacity > 0 && 0 < low < high
    ensures FollowsCost(capacity, replicaCost, low, high) <==> TracesCeiling(capacity, replicaCost, low, high)
  {
    forall v | low <= v <= high
      ensures CostOf(CeilDiv(v, capacity), replicaCost) == RequiredReplicas(v, capacity).value as real * replicaCost
    {
      CostOfRequired(capacity, replicaCost, v);
    }
  }

  ghost predicate TracesCeiling(capacity: int, replicaCost: real, low: int, high: int)
    requires capacity > 0 && 0 < low < high
  {
    forall v | low <= v <= high ::
      HeightAt(Polyline(capacity, replicaCost, low, high), v)
      == RequiredReplicas(v, capacity).value as real * replicaCost
  }

  /**
   * Read from the left, the polyline is the cost of the required replicas at every volume of its
   * range, exactly when it does not start on a multiple of capacity, or no volume lies strictly
   * inside the sloped first segment it then draws, or replicas are free.
   */
  lemma PolylineTracesCeilingExactly(capacity: int, replicaCost: real, low: int, high: int)
    requires capacity > 0 && 0 < low < high
    ensures TracesCeiling(capacity, replicaCost, low, high)
            <==> low % capacity != 0 || capacity == 1 || high == low + 1 || replicaCost == 0.0
  {
    FollowsCostMeansTraces(capacity, replicaCost, low, high);
    if low % capacity != 0 || replicaCost == 0.0 {
      StartsOnward(capacity, replicaCost, low, high);
      forall v | low <= v <= high
        ensures HeightAt(Polyline(capacity, replicaCost, low, high), v) == CostOf(CeilDiv(v, capacity), replicaCost)
      {
        if v > low {
          OnwardTracesCeiling(capacity, replicaCost, low, low / capacity + 1, high, v);
        }
      }
    } else {
      SlopedStartTraces(capacity, replicaCost, low, high);
    }
  }

  /** On the slope the height at one volume past the start falls short of the cost of q + 1 replicas. */
  lemma SlopeMissesCeiling(capacity: int, replicaCost: real, low: int, high: int)
    requires capacity > 1 && 0 < low && low + 1 < high && low % capacity == 0 && replicaCost != 0.0
    ensures |Polyline(capacity, replicaCost, low, high)| >= 2
    ensures HeightAt(Polyline(capacity, replicaCost, low, high), low + 1)
            != CostOf(CeilDiv(low + 1, capacity), replicaCost)
  {
    StartsSloped(capacity, replicaCost, low, high);
    CeilDivAtStart(capacity, low);
    var path := Polyline(capacity, replicaCost, low, high);
    var (a, b) := (path[0], path[1]);
    assert HeightAt(path, low + 1) == a.1 + (b.1 - a.1) * ((low + 1 - a.0) as real / (b.0 - a.0) as real);
    SlopeFallsShort(a.1, b.1, (b.0 - a.0) as real);
  }

  lemma SlopedStartTraces(capacity: int, replicaCost: real, low: int, high: int)
    requires capacity > 0 && 0 < low < high && low % capacity == 0 && replicaCost != 0.0
    ensures FollowsCost(capacity, replicaCost, low, high) <==> capacity == 1 || high == low + 1
  {
    if capacity == 1 || high == low + 1 {
      forall v | low <= v <= high
        ensures HeightAt(Polyline(capacity, replicaCost, low, high), v) == CostOf(CeilDiv(v, capacity), replicaCost)
      {
        ShortSlopeTraces(capacity, replicaCost, low, high, v);
      }
    } else {
      SlopeMissesCeiling(capacity, replicaCost, low, high);
    }
  }

  lemma ShortSlopeTraces(capacity: int, replicaCost: real, low: int, high: int, v: int)
    requires capacity > 0 && 0 < low < high && low % capacity == 0
    requires capacity == 1 || high == low + 1
    requires low <= v <= high
    ensures |Polyline(capacity, replicaCost, low, high)| >= 2
    ensures HeightAt(Polyline(capacity, replicaCost, low, high), v) == CostOf(CeilDiv(v, capacity), replicaCost)
  {
    CeilDivAtStart(capacity, low);
    if v == low + 1 {
      StartsSloped(capacity, replicaCost, low, high);
      HeightAtFirstCorner(Polyline(capacity, replicaCost, low, high), v);
    } else if v > low {
      UnitStepsTrace(replicaCost, low, high, v);
    }
  }

  lemma HeightAtFirstCorner(path: seq<Vertex>, v: int)
    requires |path| >= 2 && path[0].0 < v <= path[|path| - 1].0 && path[1].0 == v
    ensures HeightAt(path, v) == path[1].1
  {
  }

  lemma CeilDivAtStart(capacity: int, low: int)
    requires capacity > 0 && low % capacity == 0
    ensures CeilDiv(low, capacity) == low / capacity
    ensures CeilDiv(low + 1, capacity) == low / capacity + 1
  {
    var q := low / capacity;
    assert low == q * capacity;
    assert (q - 1) * capacity == low - capacity && (q + 1) * capacity == low + capacity;
    CeilDivUnique(low, capacity, q);
    CeilDivUnique(low + 1, capacity, q + 1);
  }

  lemma SlopeFallsShort(start: real, end: real, width: real)
    requires width > 1.0 && start != end
    ensures start + (end - start) * (1.0 / width) != end
  {
    var fraction, rise := 1.0 / width, end - start;
    assert fraction * width == 1.0;
    var gap := 1.0 - fraction;
    assert rise - rise * fraction == rise * gap;
    NonZeroProduct(rise, gap);
  }

  lemma NonZeroProduct(x: real, y: real)
    requires x != 0.0 && y > 0.0
    ensures x * y != 0.0
  {
    if x > 0.0 {
      assert x * y > 0.0;
    } else {
      assert (-x) * y > 0.0;
    }
  }

  lemma UnitStepsTrace(replicaCost: real, low: int, high: int, v: int)
    requires 0 < low && low + 1 < v <= high
    ensures HeightAt(Polyline(1, replicaCost, low, high), v) == CostOf(CeilDiv(v, 1), replicaCost)
  {
    var path := Polyline(1, replicaCost, low, high);
    var onward := Onward(1, replicaCost, low + 1, low + 2, high);
    var first, lower, upper := path[0], CostOf(low + 1, replicaCost), CostOf(low + 2, replicaCost);
    assert path == [first, (low + 1, lower)] + onward;
    assert path[1..] == [(low + 1, lower)] + onward;
    assert path[1..][1..] == onward;
    assert HeightAfter(path, v) == HeightAfter(path[1..], v);
    assert HeightAfter(path[1..], v) == HeightAfter(onward, v);
    OnwardTracesCeiling(1, replicaCost, low + 1, low + 2, high, v);
  }
}
