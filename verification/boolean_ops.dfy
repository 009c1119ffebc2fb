// The discrete part of Aqui's polygon boolean operations (BooleanOperators.mjs):
// result naming, the segment-intersection test, the even-odd point-in-polygon
// test, epsilon de-duplication, the early exits of `difference`, and the
// dispatch that builds the result shape. Coordinates are exact reals.

module BooleanOps {
  import opened Common
  import opened Values
  import opened ShapeRules

  // ---- points -------------------------------------------------------------

  datatype Point = Point(x: real, y: real)

  /** `this.epsilon` */
  const Epsilon: real := 0.0001

  function Abs(r: real): real { if r < 0.0 then -r else r }

  /** Two points within epsilon of each other in both coordinates. */
  predicate Close(p: Point, q: Point)
  {
    Abs(p.x - q.x) < Epsilon && Abs(p.y - q.y) < Epsilon
  }

  // ---- result naming ------------------------------------------------------

  /** How a template literal prints a built-in function: `function name() { [native code] }`. */
  function NativeFunctionText(name: string): string
  {
    "function " + name + "() { [native code] }"
  }

  /**
   * `operationSymbols[operation]` as the name template prints it. The symbol
   * table is an object literal, so a key it inherits from `Object.prototype`
   * reads the inherited property: `constructor` is the function `Object`,
   * `__proto__` is the prototype object itself, every other such key a
   * built-in method. Any other unknown operation reads as `undefined`.
   */
  function Symbol(operation: string): string
  {
    match operation
    case "union" => "u"
    case "difference" => "d"
    case "intersection" => "i"
    case "constructor" => NativeFunctionText("Object")
    case "__proto__" => "[object Object]"
    case _ => if operation in PrototypeKeys then NativeFunctionText(operation) else "undefined"
  }

  /** The template `${shapes[0]}_${opSymbol}${count}`. */
  function ResultName(first: string, operation: string, count: nat): string
  {
    first + "_" + Symbol(operation) + NatToString(count)
  }

  /** Two results of one operation named from the same first operand get different names. */
  lemma {:induction false} ResultNamesDiffer(first: string, operation: string, k1: nat, k2: nat)
    requires k1 != k2
    ensures ResultName(first, operation, k1) != ResultName(first, operation, k2)
  {
    var prefix := first + "_" + Symbol(operation);
    if ResultName(first, operation, k1) == ResultName(first, operation, k2) {
      assert NatToString(k1) == ResultName(first, operation, k1)[|prefix|..];
      assert NatToString(k2) == ResultName(first, operation, k2)[|prefix|..];
      NatToStringInjective(k1, k2);
    }
  }

  function Occurrences(s: seq<string>, x: string): nat
  {
    if s == [] then 0 else Occurrences(s[..|s| - 1], x) + (if s[|s| - 1] == x then 1 else 0)
  }

  /** The per-operation counters of `BooleanNaming`. */
  class BooleanNaming {
    var counter: map<string, nat>
    /** The operations `getNextCount` was called with since the last reset. */
    ghost var calls: seq<string>

    ghost predicate Valid()
      reads this
    {
      forall op :: (op in counter ==> counter[op] == Occurrences(calls, op) && counter[op] > 0)
                   && (op !in counter ==> Occurrences(calls, op) == 0)
    }

    constructor()
      ensures Valid() && calls == []
    {
      counter := map[];
      calls := [];
    }

    /** `reset`: afterwards every operation counts from 1 again. */
    method Reset()
      modifies this
      ensures Valid() && calls == [] && counter == map[]
    {
      counter := map[];
      calls := [];
    }

    /** `getNextCount`: one more than the number of earlier calls for `operation` since the last reset. */
    method GetNextCount(operation: string) returns (count: nat)
      requires Valid()
      modifies this
      ensures Valid() && calls == old(calls) + [operation]
      ensures count == Occurrences(old(calls), operation) + 1
      ensures forall op :: op != operation ==> Occurrences(calls, op) == Occurrences(old(calls), op)
    {
      var current := if operation in counter then counter[operation] else 0;
      counter := counter[operation := current + 1];
      calls := calls + [operation];
      count := current + 1;
      assert calls[..|calls| - 1] == old(calls);
    }

    /** `generateName` */
    method GenerateName(operation: string, names: seq<string>) returns (name: string)
      requires Valid()
      modifies this
      ensures Valid() && calls == old(calls) + [operation]
      ensures name == ResultName(if names == [] then "undefined" else names[0], operation,
                                 Occurrences(old(calls), operation) + 1)
    {
      var count := GetNextCount(operation);
      name := (if names == [] then "undefined" else names[0]) + "_" + Symbol(operation) + NatToString(count);
    }
  }

  // ---- segment intersection ----------------------------------------------

  function Denominator(p1: Point, p2: Point, p3: Point, p4: Point): real
  {
    (p1.x - p2.x) * (p3.y - p4.y) - (p1.y - p2.y) * (p3.x - p4.x)
  }

  function NumeratorT(p1: Point, p2: Point, p3: Point, p4: Point): real
  {
    (p1.x - p3.x) * (p3.y - p4.y) - (p1.y - p3.y) * (p3.x - p4.x)
  }

  function NumeratorU(p1: Point, p2: Point, p3: Point, p4: Point): real
  {
    -((p1.x - p2.x) * (p1.y - p3.y) - (p1.y - p2.y) * (p1.x - p3.x))
  }

  /** Position of the crossing along p1→p2 (0 at p1, 1 at p2). */
  function ParamT(p1: Point, p2: Point, p3: Point, p4: Point): real
    requires Denominator(p1, p2, p3, p4) != 0.0
  {
    NumeratorT(p1, p2, p3, p4) / Denominator(p1, p2, p3, p4)
  }

  /** Position of the crossing along p3→p4 (0 at p3, 1 at p4). */
  function ParamU(p1: Point, p2: Point, p3: Point, p4: Point): real
    requires Denominator(p1, p2, p3, p4) != 0.0
  {
    NumeratorU(p1, p2, p3, p4) / Denominator(p1, p2, p3, p4)
  }

  function Lerp(a: Point, b: Point, t: real): Point
  {
    Point(a.x + t * (b.x - a.x), a.y + t * (b.y - a.y))
  }

  /**
   * `findIntersection`: the crossing point of segments p1p2 and p3p4, or
   * `null` when they are (nearly) parallel or cross outside either segment.
   */
  function FindIntersection(p1: Point, p2: Point, p3: Point, p4: Point): (r: Option<Point>)
    ensures Abs(Denominator(p1, p2, p3, p4)) < Epsilon ==> r.None?
    ensures r.Some? ==>
              var t := ParamT(p1, p2, p3, p4);
              var u := ParamU(p1, p2, p3, p4);
              0.0 <= t <= 1.0 && 0.0 <= u <= 1.0 && r.value == Lerp(p1, p2, t)
    ensures r.None? && Abs(Denominator(p1, p2, p3, p4)) >= Epsilon ==>
              var t := ParamT(p1, p2, p3, p4);
              var u := ParamU(p1, p2, p3, p4);
              !(0.0 <= t <= 1.0 && 0.0 <= u <= 1.0)
  {
    var d := Denominator(p1, p2, p3, p4);
    if Abs(d) < Epsilon then None
    else
      var t := ParamT(p1, p2, p3, p4);
      var u := ParamU(p1, p2, p3, p4);
      if 0.0 <= t <= 1.0 && 0.0 <= u <= 1.0 then Some(Lerp(p1, p2, t)) else None
  }

  /** The cross-multiplied form of "p1 + t(p2 - p1) = p3 + u(p4 - p3)", coordinate by coordinate. */
  lemma CrossingPolynomial(p1: Point, p2: Point, p3: Point, p4: Point)
    ensures (p1.x - p3.x) * Denominator(p1, p2, p3, p4) + NumeratorT(p1, p2, p3, p4) * (p2.x - p1.x)
            == NumeratorU(p1, p2, p3, p4) * (p4.x - p3.x)
    ensures (p1.y - p3.y) * Denominator(p1, p2, p3, p4) + NumeratorT(p1, p2, p3, p4) * (p2.y - p1.y)
            == NumeratorU(p1, p2, p3, p4) * (p4.y - p3.y)
  {
  }

  /** Dividing the cross-multiplied identity by a non-zero d, for one coordinate. */
  lemma DivideThrough(x1: real, x2: real, x3: real, x4: real, d: real, tn: real, un: real, t: real, u: real)
    requires d != 0.0 && t == tn / d && u == un / d
    requires (x1 - x3) * d + tn * (x2 - x1) == un * (x4 - x3)
    ensures x1 + t * (x2 - x1) == x3 + u * (x4 - x3)
  {
    assert t * d == tn && u * d == un;
    assert (x1 + t * (x2 - x1)) * d == x1 * d + tn * (x2 - x1);
    assert (x3 + u * (x4 - x3)) * d == x3 * d + un * (x4 - x3);
  }

  /** The point `findIntersection` returns lies on the second segment as well, at parameter u. */
  lemma IntersectionOnBothSegments(p1: Point, p2: Point, p3: Point, p4: Point)
    requires FindIntersection(p1, p2, p3, p4).Some?
    ensures FindIntersection(p1, p2, p3, p4).value == Lerp(p3, p4, ParamU(p1, p2, p3, p4))
  {
    var d, tn, un := Denominator(p1, p2, p3, p4), NumeratorT(p1, p2, p3, p4), NumeratorU(p1, p2, p3, p4);
    var t, u := ParamT(p1, p2, p3, p4), ParamU(p1, p2, p3, p4);
    CrossingPolynomial(p1, p2, p3, p4);
    DivideThrough(p1.x, p2.x, p3.x, p4.x, d, tn, un, t, u);
    DivideThrough(p1.y, p2.y, p3.y, p4.y, d, tn, un, t, u);
  }

  /** The intersection of edge i of polygon a (to its successor) with edge j of polygon b. */
  function EdgeIntersection(a: seq<Point>, i: nat, b: seq<Point>, j: nat): Option<Point>
    requires i < |a| && j < |b|
  {
    FindIntersection(a[i], a[(i + 1) % |a|], b[j], b[(j + 1) % |b|])
  }

  /** Whether some edge of a crosses some edge of b. */
  predicate EdgesIntersect(a: seq<Point>, b: seq<Point>)
  {
    exists i, j :: 0 <= i < |a| && 0 <= j < |b| && EdgeIntersection(a, i, b, j).Some?
  }

  /** p is the crossing point of some edge of a with some edge of b. */
  predicate IsEdgeCrossing(a: seq<Point>, b: seq<Point>, p: Point)
  {
    exists i, j :: 0 <= i < |a| && 0 <= j < |b| && EdgeIntersection(a, i, b, j) == Some(p)
  }

  /** Some point of r lies within epsilon of p. */
  predicate Covers(r: seq<Point>, p: Point)
  {
    exists k :: 0 <= k < |r| && Close(r[k], p)
  }

  /** No two points of r lie within epsilon of each other. */
  predicate Separated(r: seq<Point>)
  {
    forall k, l :: 0 <= k < l < |r| ==> !Close(r[k], r[l])
  }

  predicate AllCrossings(a: seq<Point>, b: seq<Point>, r: seq<Point>)
  {
    forall k :: 0 <= k < |r| ==> IsEdgeCrossing(a, b, r[k])
  }

  /** Every crossing of edge pairs (i', j') before (i, j) in row-major order has a point of r near it. */
  predicate CoversEdgesBefore(a: seq<Point>, b: seq<Point>, r: seq<Point>, i: nat, j: nat)
  {
    forall i', j' :: 0 <= i' < |a| && 0 <= j' < |b| && (i' < i || (i' == i && j' < j)) ==>
      EdgeIntersection(a, i', b, j').Some? ==> Covers(r, EdgeIntersection(a, i', b, j').value)
  }

  /** Appending a crossing point that no kept point is near keeps all three invariants of the search. */
  lemma AppendCrossing(a: seq<Point>, b: seq<Point>, r: seq<Point>, i: nat, j: nat, q: Point)
    requires i < |a| && j < |b| && EdgeIntersection(a, i, b, j) == Some(q)
    requires Separated(r) && AllCrossings(a, b, r) && CoversEdgesBefore(a, b, r, i, j) && !Covers(r, q)
    ensures Separated(r + [q]) && AllCrossings(a, b, r + [q]) && CoversEdgesBefore(a, b, r + [q], i, j + 1)
  {
    var r' := r + [q];
    assert r'[|r|] == q;
    forall p | Covers(r, p) ensures Covers(r', p) {
      var k :| 0 <= k < |r| && Close(r[k], p);
      assert r'[k] == r[k];
    }
    assert Covers(r', q);
    assert IsEdgeCrossing(a, b, q);
  }

  // ---- point in polygon ---------------------------------------------------

  /** The even-odd test's edge condition for the edge from pi to its predecessor pj. */
  predicate Crosses(p: Point, pi: Point, pj: Point)
  {
    ((pi.y > p.y) != (pj.y > p.y)) && p.x < (pj.x - pi.x) * (p.y - pi.y) / (pj.y - pi.y) + pi.x
  }

  /** How many of the first n edges (vertex i with its predecessor) the rightward ray from p crosses. */
  function Crossings(p: Point, polygon: seq<Point>, n: nat): nat
    requires n <= |polygon|
  {
    if n == 0 then 0
    else Crossings(p, polygon, n - 1)
         + (if Crosses(p, polygon[n - 1], polygon[if n == 1 then |polygon| - 1 else n - 2]) then 1 else 0)
  }

  /** One more edge flips the parity exactly when the ray crosses it. */
  lemma OddCrossingsStep(p: Point, polygon: seq<Point>, n: nat)
    requires n < |polygon|
    ensures var c := Crosses(p, polygon[n], polygon[if n == 0 then |polygon| - 1 else n - 1]);
            (Crossings(p, polygon, n + 1) % 2 == 1) == ((Crossings(p, polygon, n) % 2 == 1) != c)
  {
  }

  /** The even-odd rule: p is inside when the ray from p crosses the boundary an odd number of times. */
  predicate InsidePolygon(p: Point, polygon: seq<Point>)
  {
    Crossings(p, polygon, |polygon|) % 2 == 1
  }

  /** A point on or above every vertex, or below every vertex, is never inside. */
  lemma {:induction false} OutsideVerticalExtent(p: Point, polygon: seq<Point>, n: nat)
    requires n <= |polygon|
    requires (forall k :: 0 <= k < |polygon| ==> polygon[k].y <= p.y)
          || (forall k :: 0 <= k < |polygon| ==> polygon[k].y > p.y)
    ensures Crossings(p, polygon, n) == 0
  {
    if n > 0 {
      OutsideVerticalExtent(p, polygon, n - 1);
    }
  }

  // ---- de-duplication -----------------------------------------------------

  /** Some point before index i lies within epsilon of points[i]. */
  predicate HasEarlierClose(points: seq<Point>, i: nat)
    requires i < |points|
  {
    exists j :: 0 <= j < i && Close(points[i], points[j])
  }

  /** The filter of `removeDuplicates`/`removeDuplicatePoints` over the first n points. */
  function KeepFirsts(points: seq<Point>, n: nat): (r: seq<Point>)
    requires n <= |points|
  {
    if n == 0 then []
    else KeepFirsts(points, n - 1) + (if HasEarlierClose(points, n - 1) then [] else [points[n - 1]])
  }

  /** `removeDuplicates` and `removeDuplicatePoints` (the two are the same filter). */
  function RemoveDuplicates(points: seq<Point>): seq<Point>
  {
    KeepFirsts(points, |points|)
  }

  /** The indices (below n) of the points the filter keeps, in increasing order. */
  function KeptIndices(points: seq<Point>, n: nat): (r: seq<nat>)
    requires n <= |points|
  {
    if n == 0 then []
    else KeptIndices(points, n - 1) + (if HasEarlierClose(points, n - 1) then [] else [n - 1])
  }

  /**
   * The filter keeps exactly the points with no earlier point within
   * epsilon, in their original order: a subsequence of the input.
   */
  lemma {:induction false} KeepFirstsSpec(points: seq<Point>, n: nat)
    requires n <= |points|
    ensures var idx, r := KeptIndices(points, n), KeepFirsts(points, n);
      && |idx| == |r|
      && (forall k :: 0 <= k < |idx| ==> idx[k] < n && r[k] == points[idx[k]])
      && (forall k, l :: 0 <= k < l < |idx| ==> idx[k] < idx[l])
      && (forall i :: 0 <= i < n ==> (i in idx <==> !HasEarlierClose(points, i)))
  {
    if n > 0 {
      KeepFirstsSpec(points, n - 1);
    }
  }

  /** No two kept points are within epsilon, and the first input point is always kept. */
  lemma RemoveDuplicatesSeparated(points: seq<Point>)
    ensures var r := RemoveDuplicates(points);
      && (forall k, l :: 0 <= k < l < |r| ==> !Close(r[l], r[k]))
      && (points != [] ==> r != [] && r[0] == points[0])
  {
    var idx, r := KeptIndices(points, |points|), RemoveDuplicates(points);
    KeepFirstsSpec(points, |points|);
    forall k, l | 0 <= k < l < |r| ensures !Close(r[l], r[k]) {
      assert idx[l] in idx;
      assert !HasEarlierClose(points, idx[l]);
    }
    if points != [] {
      assert !HasEarlierClose(points, 0);
      assert 0 in idx;
    }
  }

  // ---- the operator -------------------------------------------------------

  /** An operand as the operations see it: its `name` ("" when absent) and its outline from `getPoints`. */
  datatype Operand = Operand(name: string, points: seq<Point>)

  /** `shapes.map(s => s.name || 'shape')` */
  function OperandNames(shapes: seq<Operand>): (r: seq<string>)
    ensures |r| == |shapes|
    ensures forall k :: 0 <= k < |r| ==> r[k] == if shapes[k].name == "" then "shape" else shapes[k].name
  {
    if shapes == [] then []
    else [if shapes[0].name == "" then "shape" else shapes[0].name] + OperandNames(shapes[1..])
  }

  /** The name a result is named after: the first operand's, `shape` when it has none, `undefined` with no operand. */
  function FirstName(shapes: seq<Operand>): string
  {
    if shapes == [] then "undefined" else OperandNames(shapes)[0]
  }

  /**
   * The outline `difference` gives the first two of two or more shapes: the
   * boundary walk (`walk`) when their edges cross; otherwise nothing when the
   * base's first point lies inside the subtracted outline and the base itself
   * when it does not. An empty base has no first point to test.
   */
  function DifferenceOutline(a: seq<Point>, b: seq<Point>, walk: (seq<Point>, seq<Point>) -> seq<Point>)
    : Result<seq<Point>, BooleanError>
  {
    if EdgesIntersect(a, b) then Ok(walk(a, b))
    else if a == [] then Err(UndefinedOperand)
    else if InsidePolygon(a[0], b) then Ok([])
    else Ok(a)
  }

  /** The path shape `createResultShape` builds; `points` is `None` where the source passes `null`. */
  datatype ResultShape = ResultShape(
    kind: string, name: string, points: Option<seq<Point>>, closed: bool, operation: string,
    transform: ShapeTransform)

  datatype BooleanError =
    | NeedsTwoShapes(operation: string)
    | UnknownOperation(operation: string)
    | UndefinedOperand      // reading a coordinate or a type of `undefined`

  class BooleanOperator {
    const naming: BooleanNaming

    constructor()
      ensures fresh(naming) && naming.Valid() && naming.calls == []
    {
      naming := new BooleanNaming();
    }

    /** `isPointInPolygon`: the even-odd rule over the edges (i, i-1), starting with (0, last). */
    method IsPointInPolygon(point: Point, polygon: seq<Point>) returns (inside: bool)
      ensures inside == InsidePolygon(point, polygon)
    {
      inside := false;
      var i, j := 0, |polygon| - 1;
      while i < |polygon|
        invariant 0 <= i <= |polygon|
        invariant i > 0 ==> j == i - 1
        invariant i == 0 ==> j == |polygon| - 1
        invariant inside == (Crossings(point, polygon, i) % 2 == 1)
      {
        var pi, pj := polygon[i], polygon[j];
        OddCrossingsStep(point, polygon, i);
        if Crosses(point, pi, pj) {
          inside := !inside;
        }
        j, i := i, i + 1;
      }
    }

    /**
     * `findAllIntersections`: every edge pair's crossing point is kept unless
     * a point within epsilon was kept before it.
     */
    method FindAllIntersections(a: seq<Point>, b: seq<Point>) returns (r: seq<Point>)
      ensures Separated(r)
      ensures forall k :: 0 <= k < |r| ==> IsEdgeCrossing(a, b, r[k])
      ensures forall i, j :: 0 <= i < |a| && 0 <= j < |b| && EdgeIntersection(a, i, b, j).Some? ==>
                Covers(r, EdgeIntersection(a, i, b, j).value)
      ensures r == [] <==> !EdgesIntersect(a, b)
    {
      r := [];
      for i := 0 to |a|
        invariant Separated(r) && AllCrossings(a, b, r)
        invariant CoversEdgesBefore(a, b, r, i, 0)
      {
        for j := 0 to |b|
          invariant Separated(r) && AllCrossings(a, b, r)
          invariant CoversEdgesBefore(a, b, r, i, j)
        {
          var intersection := EdgeIntersection(a, i, b, j);
          if intersection.Some? {
            var q := intersection.value;
            if !Covers(r, q) {
              AppendCrossing(a, b, r, i, j, q);
              r := r + [q];
            }
          }
        }
        assert CoversEdgesBefore(a, b, r, i + 1, 0);
      }
      assert CoversEdgesBefore(a, b, r, |a|, 0);
      if EdgesIntersect(a, b) {
        var i, j :| 0 <= i < |a| && 0 <= j < |b| && EdgeIntersection(a, i, b, j).Some?;
        assert Covers(r, EdgeIntersection(a, i, b, j).value);
      }
      if r != [] {
        assert IsEdgeCrossing(a, b, r[0]);
      }
    }

    /**
     * `difference` up to its boundary walk: `null` for fewer than two
     * shapes; with no crossing edges, `[]` when the base's first point lies
     * inside the subtracted outline and the base unchanged otherwise. The
     * walk itself (`walk`) is outside the model.
     */
    method Difference(shapes: seq<Operand>, walk: (seq<Point>, seq<Point>) -> seq<Point>)
      returns (r: Result<Option<seq<Point>>, BooleanError>)
      ensures |shapes| < 2 ==> r == Ok(None)
      ensures |shapes| >= 2 && !EdgesIntersect(shapes[0].points, shapes[1].points) ==>
                if shapes[0].points == [] then r == Err(UndefinedOperand)
                else if InsidePolygon(shapes[0].points[0], shapes[1].points) then r == Ok(Some([]))
                else r == Ok(Some(shapes[0].points))
      ensures |shapes| >= 2 && EdgesIntersect(shapes[0].points, shapes[1].points) ==>
                r == Ok(Some(walk(shapes[0].points, shapes[1].points)))
    {
      if |shapes| < 2 {
        return Ok(None);
      }
      var resultPoints, subtractPoints := shapes[0].points, shapes[1].points;
      var intersections := FindAllIntersections(resultPoints, subtractPoints);
      if |intersections| == 0 {
        if resultPoints == [] {
          return Err(UndefinedOperand);
        }
        var inside := IsPointInPolygon(resultPoints[0], subtractPoints);
        if inside {
          return Ok(Some([]));
        }
        return Ok(Some(resultPoints));
      }
      return Ok(Some(walk(resultPoints, subtractPoints)));
    }

    /** `createResultShape` */
    method CreateResultShape(points: Option<seq<Point>>, operation: string, shapes: seq<Operand>)
      returns (shape: ResultShape)
      requires naming.Valid()
      modifies naming
      ensures naming.Valid() && naming.calls == old(naming.calls) + [operation]
      ensures shape.kind == "path" && shape.closed && shape.operation == operation
      ensures shape.points == points && shape.transform == IdentityTransform
      ensures shape.name == ResultName(FirstName(shapes), operation, Occurrences(old(naming.calls), operation) + 1)
    {
      var names := OperandNames(shapes);
      var name := naming.GenerateName(operation, names);
      shape := ResultShape("path", name, points, true, operation, IdentityTransform);
    }

    /**
     * `union` and `intersection` as seen from `performOperation`: the
     * first operand's outline when it is alone, otherwise the fold `fold`,
     * which lies outside the model.
     */
    function Fold(operation: string, shapes: seq<Operand>, fold: (string, seq<Operand>) -> seq<Point>)
      : Result<Option<seq<Point>>, BooleanError>
    {
      if shapes == [] then Err(UndefinedOperand)
      else if |shapes| == 1 then Ok(Some(shapes[0].points))
      else Ok(Some(fold(operation, shapes)))
    }

    /**
     * `performOperation`: at least two shapes and a known operation, else
     * an error and no name is used up. `union` and `intersection` then
     * succeed with the fold's outline; `difference` gives its outline, or
     * its error before any name is used up. A result carries the
     * operation's next name.
     */
    method PerformOperation(operation: string, shapes: seq<Operand>,
                            fold: (string, seq<Operand>) -> seq<Point>,
                            walk: (seq<Point>, seq<Point>) -> seq<Point>)
      returns (r: Result<ResultShape, BooleanError>)
      requires naming.Valid()
      modifies naming
      ensures naming.Valid()
      ensures |shapes| < 2 ==> r == Err(NeedsTwoShapes(operation)) && naming.calls == old(naming.calls)
      ensures |shapes| >= 2 && operation !in {"union", "difference", "intersection"} ==>
                r == Err(UnknownOperation(operation)) && naming.calls == old(naming.calls)
      ensures r.Ok? ==>
                && |shapes| >= 2 && operation in {"union", "difference", "intersection"}
                && naming.calls == old(naming.calls) + [operation]
                && r.value.operation == operation
                && r.value.name == ResultName(FirstName(shapes), operation, Occurrences(old(naming.calls), operation) + 1)
      ensures |shapes| >= 2 && (operation == "union" || operation == "intersection") ==>
                r.Ok? && r.value.points == Some(fold(operation, shapes))
      ensures |shapes| >= 2 && operation == "difference" ==>
                var d := DifferenceOutline(shapes[0].points, shapes[1].points, walk);
                (d.Err? ==> r == Err(d.error) && naming.calls == old(naming.calls)) &&
                (d.Ok? ==> r.Ok? && r.value.points == Some(d.value))
    {
      if |shapes| < 2 {
        return Err(NeedsTwoShapes(operation));
      }
      var resultPoints: Option<seq<Point>>;
      if operation == "union" || operation == "intersection" {
        var pts := Fold(operation, shapes, fold);
        resultPoints := pts.value;
      } else if operation == "difference" {
        var pts := Difference(shapes, walk);
        if pts.Err? {
          return Err(pts.error);
        }
        resultPoints := pts.value;
      } else {
        return Err(UnknownOperation(operation));
      }
      var shape := CreateResultShape(resultPoints, operation, shapes);
      return Ok(shape);
    }

    /** `performDifference`: no arity check, so fewer than two shapes give a `null` outline. */
    method PerformDifference(shapes: seq<Operand>, walk: (seq<Point>, seq<Point>) -> seq<Point>)
      returns (r: Result<ResultShape, BooleanError>)
      requires naming.Valid()
      modifies naming
      ensures naming.Valid()
      ensures |shapes| < 2 ==> r.Ok? && r.value.points.None?
      ensures |shapes| >= 2 ==>
                var d := DifferenceOutline(shapes[0].points, shapes[1].points, walk);
                (d.Err? ==> r == Err(d.error) && naming.calls == old(naming.calls)) &&
                (d.Ok? ==> r.Ok? && r.value.points == Some(d.value))
      ensures r.Ok? ==>
                r.value.operation == "difference" && naming.calls == old(naming.calls) + ["difference"] &&
                r.value.name == ResultName(FirstName(shapes), "difference", Occurrences(old(naming.calls), "difference") + 1)
    {
      var pts := Difference(shapes, walk);
      if pts.Err? {
        return Err(pts.error);
      }
      var shape := CreateResultShape(pts.value, "difference", shapes);
      return Ok(shape);
    }

    /** `performUnion` */
    method PerformUnion(shapes: seq<Operand>, fold: (string, seq<Operand>) -> seq<Point>)
      returns (r: Result<ResultShape, BooleanError>)
      requires naming.Valid()
      modifies naming
      ensures naming.Valid()
      ensures shapes == [] ==> r == Err(UndefinedOperand) && naming.calls == old(naming.calls)
      ensures |shapes| == 1 ==> r.Ok? && r.value.points == Some(shapes[0].points)
      ensures |shapes| >= 2 ==> r.Ok? && r.value.points == Some(fold("union", shapes))
      ensures r.Ok? ==>
                r.value.operation == "union" && naming.calls == old(naming.calls) + ["union"] &&
                r.value.name == ResultName(FirstName(shapes), "union", Occurrences(old(naming.calls), "union") + 1)
    {
      var pts := Fold("union", shapes, fold);
      if pts.Err? {
        return Err(pts.error);
      }
      var shape := CreateResultShape(pts.value, "union", shapes);
      return Ok(shape);
    }

    /** `performIntersection` */
    method PerformIntersection(shapes: seq<Operand>, fold: (string, seq<Operand>) -> seq<Point>)
      returns (r: Result<ResultShape, BooleanError>)
      requires naming.Valid()
      modifies naming
      ensures naming.Valid()
      ensures shapes == [] ==> r == Err(UndefinedOperand) && naming.calls == old(naming.calls)
      ensures |shapes| == 1 ==> r.Ok? && r.value.points == Some(shapes[0].points)
      ensures |shapes| >= 2 ==> r.Ok? && r.value.points == Some(fold("intersection", shapes))
      ensures r.Ok? ==>
                r.value.operation == "intersection" && naming.calls == old(naming.calls) + ["intersection"] &&
                r.value.name == ResultName(FirstName(shapes), "intersection", Occurrences(old(naming.calls), "intersection") + 1)
    {
      var pts := Fold("intersection", shapes, fold);
      if pts.Err? {
        return Err(pts.error);
      }
      var shape := CreateResultShape(pts.value, "intersection", shapes);
      return Ok(shape);
    }

    /** `resetNaming` */
    method ResetNaming()
      modifies naming
      ensures naming.Valid() && naming.calls == []
    {
      naming.Reset();
    }
  }
}
