/**
 * The arithmetic of a math channel: the five element-wise operators and
 * their symbols, the sorted duplicate-free union of two time vectors
 * (`np.unique` of their concatenation), linear interpolation with value 0
 * outside the sampled range (`np.interp(..., left=0, right=0)`), and the
 * combination of two operand graphs that `retrieve` performs.
 */
module MathOps {
  import opened Common
  import opened Oscilloscope

  datatype Operator = Add | Subtract | Multiply | Minimum | Maximum

  /** The keys of `_operators_avail`, in order. */
  function OperatorsAvail(): (syms: seq<string>)
    ensures |syms| == 5
    ensures forall i, j :: 0 <= i < j < |syms| ==> syms[i] != syms[j]
  {
    ["+", "-", "*", "<- min ->", "<- max ->"]
  }

  /** The symbol `_operators_avail` maps to an operator. */
  function Symbol(op: Operator): string
  {
    match op
    case Add => "+"
    case Subtract => "-"
    case Multiply => "*"
    case Minimum => "<- min ->"
    case Maximum => "<- max ->"
  }

  /** `_operators_avail[value]`, or None where Python raises KeyError. */
  function FromSymbol(s: string): (op: Option<Operator>)
    ensures op.Some? <==> s in OperatorsAvail()
  {
    if s == "+" then Some(Add)
    else if s == "-" then Some(Subtract)
    else if s == "*" then Some(Multiply)
    else if s == "<- min ->" then Some(Minimum)
    else if s == "<- max ->" then Some(Maximum)
    else None
  }

  /** Setting an operator by its symbol and reading it back gives that symbol, and every operator is reachable. */
  lemma SymbolRoundTrip(s: string, op: Operator)
    ensures FromSymbol(s) == Some(op) ==> Symbol(op) == s
    ensures FromSymbol(Symbol(op)) == Some(op)
    ensures Symbol(op) in OperatorsAvail()
  {
  }

  /** One element of `np.add`, `np.subtract`, `np.multiply`, `np.minimum`, `np.maximum`. */
  function ApplyOne(op: Operator, a: real, b: real): real
  {
    match op
    case Add => a + b
    case Subtract => a - b
    case Multiply => a * b
    case Minimum => if b < a then b else a
    case Maximum => if b > a then b else a
  }

  /** The operator applied element-wise to two vectors of equal length. */
  function Apply(op: Operator, a: seq<real>, b: seq<real>): (r: seq<real>)
    requires |a| == |b|
    ensures |r| == |a|
    ensures forall i :: 0 <= i < |r| ==> r[i] == ApplyOne(op, a[i], b[i])
  {
    if a == [] then [] else [ApplyOne(op, a[0], b[0])] + Apply(op, a[1..], b[1..])
  }

  /** What each operator means for one pair of samples. */
  lemma OperatorMeaning(a: real, b: real)
    ensures ApplyOne(Subtract, a, b) + b == a
    ensures ApplyOne(Add, a, b) == ApplyOne(Add, b, a)
    ensures ApplyOne(Minimum, a, b) <= a && ApplyOne(Minimum, a, b) <= b
    ensures ApplyOne(Minimum, a, b) == a || ApplyOne(Minimum, a, b) == b
    ensures ApplyOne(Maximum, a, b) >= a && ApplyOne(Maximum, a, b) >= b
    ensures ApplyOne(Maximum, a, b) == a || ApplyOne(Maximum, a, b) == b
    ensures ApplyOne(Minimum, a, b) + ApplyOne(Maximum, a, b) == a + b
  {
  }

  // ---------------------------------------------------------------------
  // np.unique(np.concatenate(...))

  predicate Increasing(s: seq<real>)
  {
    forall i, j :: 0 <= i < j < |s| ==> s[i] < s[j]
  }

  /** Insert `x` into an increasing vector unless it is already there. */
  function Insert(x: real, s: seq<real>): (r: seq<real>)
  {
    if s == [] then [x]
    else if x < s[0] then [x] + s
    else if x == s[0] then s
    else [s[0]] + Insert(x, s[1..])
  }

  lemma {:induction false} InsertSpec(x: real, s: seq<real>)
    requires Increasing(s)
    ensures Increasing(Insert(x, s))
    ensures forall y :: y in Insert(x, s) <==> y == x || y in s
  {
    if s != [] && x > s[0] {
      var t := s[1..];
      IncreasingTail(s);
      InsertSpec(x, t);
      var u := Insert(x, t);
      var r := [s[0]] + u;
      forall i, j | 0 <= i < j < |r| ensures r[i] < r[j] {
        if i == 0 {
          assert r[j] == u[j - 1] && u[j - 1] in u;
        } else {
          assert r[i] == u[i - 1] && r[j] == u[j - 1];
        }
      }
    } else if s != [] && x < s[0] {
      IncreasingTail(s);
      var r := [x] + s;
      forall i, j | 0 <= i < j < |r| ensures r[i] < r[j] {
        if i == 0 {
          assert r[j] == s[j - 1] && s[j - 1] in s;
        } else {
          assert r[i] == s[i - 1] && r[j] == s[j - 1];
        }
      }
    }
  }

  /** `np.unique`: the distinct values of `s` in ascending order. */
  function Unique(s: seq<real>): (r: seq<real>)
  {
    if s == [] then [] else Insert(s[|s| - 1], Unique(s[..|s| - 1]))
  }

  lemma {:induction false} UniqueSpec(s: seq<real>)
    ensures Increasing(Unique(s))
    ensures forall y :: y in Unique(s) <==> y in s
  {
    if s != [] {
      var init := s[..|s| - 1];
      UniqueSpec(init);
      InsertSpec(s[|s| - 1], Unique(init));
      assert s == init + [s[|s| - 1]];
      assert forall y :: y in s <==> y in init || y == s[|s| - 1];
    }
  }

  /** The tail of an ascending vector is ascending and holds every value but the head. */
  lemma IncreasingTail(s: seq<real>)
    requires Increasing(s) && s != []
    ensures Increasing(s[1..])
    ensures forall y :: y in s ==> s[0] <= y
    ensures forall y :: y in s[1..] <==> y in s && y != s[0]
  {
    var t := s[1..];
    forall i, j | 0 <= i < j < |t| ensures t[i] < t[j] {
      assert t[i] == s[i + 1] && t[j] == s[j + 1];
    }
    forall y | y in s ensures s[0] <= y {
      var i :| 0 <= i < |s| && s[i] == y;
    }
    forall y ensures y in t <==> y in s && y != s[0] {
      if y in t {
        var i :| 0 <= i < |t| && t[i] == y;
        assert s[i + 1] == y;
      }
      assert s == [s[0]] + t;
    }
  }

  /** An ascending duplicate-free vector is determined by its set of values. */
  lemma {:induction false} IncreasingDeterminedByValues(a: seq<real>, b: seq<real>)
    requires Increasing(a) && Increasing(b)
    requires forall y :: y in a <==> y in b
    ensures a == b
  {
    if a != [] {
      assert a[0] in a;
    }
    if b != [] {
      assert b[0] in b;
    }
    if a != [] && b != [] {
      IncreasingTail(a);
      IncreasingTail(b);
      assert a[0] == b[0] by {
        assert a[0] in b && b[0] in a;
      }
      IncreasingDeterminedByValues(a[1..], b[1..]);
      assert a == [a[0]] + a[1..] && b == [b[0]] + b[1..];
    }
  }

  // ---------------------------------------------------------------------
  // np.interp(x, xs, ys, left=0, right=0)

  /**
   * Linear interpolation of the samples `(xs[i], ys[i])` at `x`, 0 left of
   * the first and right of the last sample point.
   */
  function Interp(x: real, xs: seq<real>, ys: seq<real>): real
    requires |xs| == |ys|
  {
    if xs == [] || x < xs[0] || x > xs[|xs| - 1] then 0.0 else Scan(x, xs, ys)
  }

  /** The value on the first segment `[xs[i], xs[i+1]]` that contains `x`. */
  function Scan(x: real, xs: seq<real>, ys: seq<real>): real
    requires |xs| == |ys| && |xs| >= 1
    decreases |xs|
  {
    if |xs| == 1 then ys[0]
    else if x <= xs[1] then
      (if xs[1] == xs[0] then ys[1] else ys[0] + (x - xs[0]) * (ys[1] - ys[0]) / (xs[1] - xs[0]))
    else Scan(x, xs[1..], ys[1..])
  }

  /** The straight line through two sample points, evaluated at `x`. */
  function Line(x0: real, y0: real, x1: real, y1: real, x: real): real
    requires x0 < x1
  {
    y0 + (x - x0) * (y1 - y0) / (x1 - x0)
  }

  lemma LineEnds(x0: real, y0: real, x1: real, y1: real)
    requires x0 < x1
    ensures Line(x0, y0, x1, y1, x0) == y0 && Line(x0, y0, x1, y1, x1) == y1
  {
    assert (x1 - x0) * (y1 - y0) / (x1 - x0) == y1 - y0;
  }

  lemma {:induction false} ScanOnSegment(x: real, xs: seq<real>, ys: seq<real>, k: nat)
    requires |xs| == |ys| && Increasing(xs)
    requires k + 1 < |xs| && xs[k] <= x <= xs[k + 1]
    ensures Scan(x, xs, ys) == Line(xs[k], ys[k], xs[k + 1], ys[k + 1], x)
  {
    if k == 0 {
    } else {
      if x <= xs[1] {
        // x == xs[1] == xs[k] is only possible for k == 1
        assert k == 1 && x == xs[1];
        LineEnds(xs[0], ys[0], xs[1], ys[1]);
        LineEnds(xs[1], ys[1], xs[2], ys[2]);
      } else {
        var xs', ys' := xs[1..], ys[1..];
        assert Increasing(xs') by {
          forall i, j | 0 <= i < j < |xs'| ensures xs'[i] < xs'[j] { assert xs'[i] == xs[i + 1] && xs'[j] == xs[j + 1]; }
        }
        ScanOnSegment(x, xs', ys', k - 1);
      }
    }
  }

  /**
   * Interpolation for increasing sample points: 0 outside the sampled range,
   * the straight line through the neighbouring samples inside it.
   */
  lemma InterpSpec(x: real, xs: seq<real>, ys: seq<real>)
    requires |xs| == |ys| && Increasing(xs)
    ensures xs == [] || x < xs[0] || x > xs[|xs| - 1] ==> Interp(x, xs, ys) == 0.0
    ensures forall k :: 0 <= k < |xs| - 1 && xs[k] <= x <= xs[k + 1] ==>
      Interp(x, xs, ys) == Line(xs[k], ys[k], xs[k + 1], ys[k + 1], x)
  {
    forall k | 0 <= k < |xs| - 1 && xs[k] <= x <= xs[k + 1]
      ensures Interp(x, xs, ys) == Line(xs[k], ys[k], xs[k + 1], ys[k + 1], x)
    {
      assert xs[0] <= xs[k] && xs[k + 1] <= xs[|xs| - 1];
      ScanOnSegment(x, xs, ys, k);
    }
  }

  /** At a sample point, interpolation returns that sample. */
  lemma InterpAtSample(xs: seq<real>, ys: seq<real>, k: nat)
    requires |xs| == |ys| && Increasing(xs) && k < |xs|
    ensures Interp(xs[k], xs, ys) == ys[k]
  {
    if k + 1 < |xs| {
      InterpSpec(xs[k], xs, ys);
      LineEnds(xs[k], ys[k], xs[k + 1], ys[k + 1]);
    } else if k > 0 {
      InterpSpec(xs[k], xs, ys);
      LineEnds(xs[k - 1], ys[k - 1], xs[k], ys[k]);
    } else {
      assert |xs| == 1;
    }
  }

  /** Interpolate at every point of a time vector. */
  function InterpAll(ts: seq<real>, xs: seq<real>, ys: seq<real>): (r: seq<real>)
    requires |xs| == |ys|
    ensures |r| == |ts|
    ensures forall i :: 0 <= i < |ts| ==> r[i] == Interp(ts[i], xs, ys)
  {
    if ts == [] then [] else [Interp(ts[0], xs, ys)] + InterpAll(ts[1..], xs, ys)
  }

  // ---------------------------------------------------------------------
  // MathOscChannel.retrieve

  /** The outcome of `retrieve`: no data, a time and voltage vector, or an exception from numpy. */
  datatype MathResult = NoData | Data(time: seq<real>, voltage: seq<real>) | Fault

  function Xs(g: seq<Point>, shift: real): (r: seq<real>)
    ensures |r| == |g| && forall i :: 0 <= i < |g| ==> r[i] == g[i].x + shift
  {
    if g == [] then [] else [g[0].x + shift] + Xs(g[1..], shift)
  }

  function Ys(g: seq<Point>): (r: seq<real>)
    ensures |r| == |g| && forall i :: 0 <= i < |g| ==> r[i] == g[i].y
  {
    if g == [] then [] else [g[0].y] + Ys(g[1..])
  }

  /**
   * The computation of `retrieve` once both operands are set: `g1` and `g2`
   * are the normal points each operand's oscilloscope publishes for the
   * operand channel's number (None when there is no such entry).
   */
  function Combine(g1: Option<seq<Point>>, g2: Option<seq<Point>>, shift: real, op: Operator): (r: MathResult)
    ensures r.NoData? <==> g1.None? || g2.None?
    ensures r.Fault? <==> g1.Some? && g2.Some? && (g1.value == [] || g2.value == [])
    ensures r.Data? ==> |r.time| == |r.voltage| && r.time != []
  {
    if g1.None? || g2.None? then NoData
    else if g1.value == [] || g2.value == [] then Fault
    else
      var xs1, ys1 := Xs(g1.value, 0.0), Ys(g1.value);
      var xs2, ys2 := Xs(g2.value, shift), Ys(g2.value);
      var time := Unique(xs1 + xs2);
      assert xs1[0] in time by { UniqueSpec(xs1 + xs2); assert (xs1 + xs2)[0] == xs1[0]; }
      Data(time, Apply(op, InterpAll(time, xs1, ys1), InterpAll(time, xs2, ys2)))
  }

  /** A time occurs in a shifted operand's times exactly when some point of the operand, shifted, sits there. */
  lemma XsMember(g: seq<Point>, shift: real, t: real)
    ensures t in Xs(g, shift) <==> exists i :: 0 <= i < |g| && g[i].x + shift == t
  {
    if t in Xs(g, shift) {
      var k :| 0 <= k < |g| && Xs(g, shift)[k] == t;
    }
    if exists i :: 0 <= i < |g| && g[i].x + shift == t {
      var i :| 0 <= i < |g| && g[i].x + shift == t;
      assert Xs(g, shift)[i] == t;
    }
  }

  /** The values of the concatenated time vectors are operand 1's times and operand 2's shifted times. */
  lemma ConcatTimes(g1: seq<Point>, g2: seq<Point>, shift: real, t: real)
    ensures t in Xs(g1, 0.0) + Xs(g2, shift) <==>
      (exists i :: 0 <= i < |g1| && g1[i].x == t) || (exists i :: 0 <= i < |g2| && g2[i].x + shift == t)
  {
    XsMember(g1, 0.0, t);
    XsMember(g2, shift, t);
    assert (exists i :: 0 <= i < |g1| && g1[i].x == t) <==> (exists i :: 0 <= i < |g1| && g1[i].x + 0.0 == t);
  }

  /** The time vector of a successful `retrieve`. */
  function CombinedTime(g1: seq<Point>, g2: seq<Point>, shift: real): seq<real>
  {
    Unique(Xs(g1, 0.0) + Xs(g2, shift))
  }

  /**
   * What a successful `retrieve` delivers: the time vector is the ascending,
   * duplicate-free union of operand 1's times and operand 2's times plus
   * the shift, and each voltage is the operator applied to the two operands
   * interpolated at that time.
   */
  lemma CombineSpec(g1: seq<Point>, g2: seq<Point>, shift: real, op: Operator)
    requires g1 != [] && g2 != []
    ensures Combine(Some(g1), Some(g2), shift, op) ==
      Data(CombinedTime(g1, g2, shift),
           Apply(op, InterpAll(CombinedTime(g1, g2, shift), Xs(g1, 0.0), Ys(g1)),
                     InterpAll(CombinedTime(g1, g2, shift), Xs(g2, shift), Ys(g2))))
    ensures Increasing(CombinedTime(g1, g2, shift))
    ensures forall t :: t in CombinedTime(g1, g2, shift) <==>
      (exists i :: 0 <= i < |g1| && g1[i].x == t) || (exists i :: 0 <= i < |g2| && g2[i].x + shift == t)
  {
    UniqueSpec(Xs(g1, 0.0) + Xs(g2, shift));
    forall t ensures t in CombinedTime(g1, g2, shift) <==>
      (exists i :: 0 <= i < |g1| && g1[i].x == t) || (exists i :: 0 <= i < |g2| && g2[i].x + shift == t)
    {
      ConcatTimes(g1, g2, shift, t);
    }
  }
}
