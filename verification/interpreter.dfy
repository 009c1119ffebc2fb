// The tree-walking interpreter of interpreter.mjs: an `Environment` that
// stores shapes, layers, variables, a scope stack and the loop context, and
// an `Interpreter` that evaluates statements against it.

module Interpreter {
  import opened Common
  import opened Values
  import opened ShapeRules
  import opened Ast
  import opened Scene

  // ---- expressions (pure: they read the environment's bindings only) --------

  /** The variable bindings an expression sees: the global `variables` and the `scope` stack (innermost last). */
  datatype Bindings = Bindings(globals: map<string, Value>, scopes: seq<map<string, Value>>)

  /**
   * `resolveIdentifier` (the later definition): the innermost scope that binds
   * the name, else the global variables, else the name itself as a string.
   */
  function Lookup(scopes: seq<map<string, Value>>, globals: map<string, Value>, name: string): Value
    decreases |scopes|
  {
    if scopes == [] then (if name in globals then globals[name] else Str(name))
    else if name in scopes[|scopes| - 1] then scopes[|scopes| - 1][name]
    else Lookup(scopes[..|scopes| - 1], globals, name)
  }

  function Resolve(b: Bindings, name: string): Value
  {
    Lookup(b.scopes, b.globals, name)
  }

  /** The innermost binding wins over every outer scope and the globals. */
  lemma {:induction false} ResolveInnermost(scopes: seq<map<string, Value>>, globals: map<string, Value>, name: string, k: nat)
    requires k < |scopes| && name in scopes[k]
    requires forall j :: k < j < |scopes| ==> name !in scopes[j]
    ensures Lookup(scopes, globals, name) == scopes[k][name]
    decreases |scopes|
  {
    if k < |scopes| - 1 {
      ResolveInnermost(scopes[..|scopes| - 1], globals, name, k);
    }
  }

  /** With no scope binding the name, a global variable is used, and failing that the name itself. */
  lemma {:induction false} ResolveOutsideScopes(scopes: seq<map<string, Value>>, globals: map<string, Value>, name: string)
    requires forall j :: 0 <= j < |scopes| ==> name !in scopes[j]
    ensures Lookup(scopes, globals, name) == (if name in globals then globals[name] else Str(name))
    decreases |scopes|
  {
    if scopes != [] {
      ResolveOutsideScopes(scopes[..|scopes| - 1], globals, name);
    }
  }

  /** `evaluateComparisonOp` once both operands are values. */
  function Compare(op: string, left: Value, right: Value): Result<bool, RuntimeError>
  {
    match op
    case "==" => Ok(StrictEquals(left, right))
    case "!=" => Ok(!StrictEquals(left, right))
    case ">" => Less(right, left)
    case "<" => Less(left, right)
    case ">=" => (var lt :- Less(left, right); Ok(!lt))
    case "<=" => (var gt :- Less(right, left); Ok(!gt))
    case _ => Err(UnknownComparisonOperator(op))
  }

  /** The `catch` of `evaluateComparisonOp`: whatever was thrown becomes `false`. */
  function CatchAsFalse(r: Result<Value, RuntimeError>): Result<Value, RuntimeError>
  {
    if r.Err? && Thrown(r.error) then Ok(Bool(false)) else r
  }

  /** `evaluateExpression` and the evaluators it dispatches to. */
  function Eval(b: Bindings, e: Expr): Result<Value, RuntimeError>
    decreases e
  {
    match e
    case NumberLit(x) => Ok(Num(x))
    case StringLit(s) => Ok(Str(s))
    case BooleanLit(p) => Ok(Bool(p))
    case ArrayLit(elements) => (var vs :- EvalAll(b, elements); Ok(Arr(vs)))
    case Ident(name) => Ok(Resolve(b, name))
    case PropertyAccess(_, _) => Err(NotAFunction("evaluatePropertyAccess"))
    case LogicalOp(op, left, right) =>
      if ToLower(op) == "and" then
        var l :- Eval(b, left);
        if !Truthy(l) then Ok(Bool(false)) else Eval(b, right)
      else if ToLower(op) == "or" then
        var l :- Eval(b, left);
        if Truthy(l) then Ok(Bool(true)) else Eval(b, right)
      else Err(UnknownLogicalOperator(op))
    case ComparisonOp(op, left, right) =>
      CatchAsFalse(
        var l :- Eval(b, left);
        var r :- Eval(b, right);
        var c :- Compare(op, l, r);
        Ok(Bool(c)))
    case BinaryOp(op, left, right) =>
      var l :- Eval(b, left);
      var r :- Eval(b, right);
      BinaryOperator(op, l, r)
    case UnaryOp(op, operand) =>
      var v :- Eval(b, operand);
      if op == "minus" || op == "plus" then NumericUnary(op, v)
      else if op == "not" then Ok(Bool(!Truthy(v)))
      else Err(UnknownUnaryOperator(op))
    case RawString(_) => Err(InvalidExpression)
  }

  /** `elements.map(evaluateExpression)`: left to right, the first throw wins. */
  function EvalAll(b: Bindings, es: seq<Expr>): Result<seq<Value>, RuntimeError>
    decreases es
  {
    if es == [] then Ok([])
    else
      var v :- Eval(b, es[0]);
      var vs :- EvalAll(b, es[1..]);
      Ok([v] + vs)
  }

  /** The evaluator as a function value, for the shared transform and layer-command definitions. */
  function EvalWith(b: Bindings): Expr -> Result<Value, RuntimeError>
  {
    (e: Expr) => Eval(b, e)
  }

  /** A successful array literal has one value per element. */
  lemma {:induction false} EvalAllLength(b: Bindings, es: seq<Expr>)
    requires EvalAll(b, es).Ok?
    ensures |EvalAll(b, es).value| == |es|
    ensures forall k :: 0 <= k < |es| ==> Eval(b, es[k]).Ok? && EvalAll(b, es).value[k] == Eval(b, es[k]).value
    decreases es
  {
    if es != [] {
      EvalAllLength(b, es[1..]);
      forall k | 0 <= k < |es|
        ensures Eval(b, es[k]).Ok? && EvalAll(b, es).value[k] == Eval(b, es[k]).value
      {
        if k > 0 {
          assert es[1..][k - 1] == es[k];
        }
      }
    }
  }

  /**
   * "Division by zero" is thrown exactly when it is thrown by an operand, or
   * both operands evaluate and the right one is the number 0.
   */
  lemma DivideThrowsOnZero(b: Bindings, left: Expr, right: Expr)
    ensures Eval(b, BinaryOp("divide", left, right)) == Err(DivisionByZero) <==>
            Eval(b, left) == Err(DivisionByZero) ||
            (Eval(b, left).Ok? && (Eval(b, right) == Err(DivisionByZero) || Eval(b, right) == Ok(Num(0.0))))
  {
  }

  /** A comparison never throws: it gives a boolean, or a result the model does not cover. */
  lemma ComparisonNeverThrows(b: Bindings, op: string, left: Expr, right: Expr)
    ensures var r := Eval(b, ComparisonOp(op, left, right));
            (r.Ok? && r.value.Bool?) || (r.Err? && !Thrown(r.error))
  {
  }

  /** An unknown comparison operator, or an operand that throws, makes the comparison false. */
  lemma ComparisonFailureIsFalse(b: Bindings, op: string, left: Expr, right: Expr)
    requires Eval(b, left).Err? ==> Thrown(Eval(b, left).error)
    requires Eval(b, left).Ok? && Eval(b, right).Err? ==> Thrown(Eval(b, right).error)
    requires Eval(b, left).Err? || Eval(b, right).Err? || op !in {"==", "!=", ">", "<", ">=", "<="}
    ensures Eval(b, ComparisonOp(op, left, right)) == Ok(Bool(false))
  {
  }

  /**
   * `and` and `or` (in any letter case) evaluate the right operand only when
   * the left one does not decide: a falsy left gives `false` for `and`, a
   * truthy left gives `true` for `or`, whatever the right operand would do.
   */
  lemma ShortCircuit(b: Bindings, op: string, left: Expr, right: Expr)
    requires Eval(b, left).Ok?
    ensures ToLower(op) == "and" ==>
              Eval(b, LogicalOp(op, left, right)) ==
              (if Truthy(Eval(b, left).value) then Eval(b, right) else Ok(Bool(false)))
    ensures ToLower(op) == "or" ==>
              Eval(b, LogicalOp(op, left, right)) ==
              (if Truthy(Eval(b, left).value) then Ok(Bool(true)) else Eval(b, right))
  {
  }

  /** `not` always gives a boolean: the negated truthiness of its operand. */
  lemma NotNegatesTruthiness(b: Bindings, operand: Expr)
    requires Eval(b, operand).Ok?
    ensures Eval(b, UnaryOp("not", operand)) == Ok(Bool(!Truthy(Eval(b, operand).value)))
  {
  }

  // ---- ranges -------------------------------------------------------------

  /** How many values a range from `start` below `end` still has to produce, for a positive step. */
  function Remaining(start: real, end: real, step: real): nat
  {
    if start < end && step > 0.0 then ((end - start) / step).Floor + 1 else 0
  }

  /** One step along the range leaves one value fewer to produce. */
  lemma RemainingDecreases(start: real, end: real, step: real)
    requires step > 0.0 && start < end
    ensures Remaining(start + step, end, step) < Remaining(start, end, step)
  {
    assert step / step == 1.0;
    assert (end - (start + step)) / step == (end - start) / step - step / step;
  }

  /**
   * `createRange(start, end, step)`: start, start + step, ... while below
   * `end`. A range that starts at or above `end` is empty whatever the step;
   * one that starts below `end` with a step that is not positive never ends.
   */
  function RangeValues(start: real, end: real, step: real): seq<real>
    requires step > 0.0 || end <= start
    decreases Remaining(start, end, step)
  {
    if start < end then
      RemainingDecreases(start, end, step);
      [start] + RangeValues(start + step, end, step)
    else []
  }

  /** The range is end-exclusive and complete: the k-th value is start + k·step, below `end`, and the next would not be. */
  lemma {:induction false} RangeValuesSpec(start: real, end: real, step: real)
    requires step > 0.0 || end <= start
    ensures var r := RangeValues(start, end, step);
            (forall k :: 0 <= k < |r| ==> r[k] == start + k as real * step && r[k] < end) &&
            start + |r| as real * step >= end
    decreases Remaining(start, end, step)
  {
    if start < end {
      RemainingDecreases(start, end, step);
      var r := RangeValues(start, end, step);
      var rest := RangeValues(start + step, end, step);
      RangeValuesSpec(start + step, end, step);
      assert r == [start] + rest;
      forall k | 0 <= k < |r|
        ensures r[k] == start + k as real * step && r[k] < end
      {
        if k > 0 {
          assert r[k] == rest[k - 1];
          assert (k - 1) as real * step + step == k as real * step;
        }
      }
      assert |r| as real * step == (|rest| as real) * step + step;
    }
  }

  // ---- the environment ----------------------------------------------------

  /** The name `createShape` stores a shape under: `name_<counter>` inside a loop. */
  function LoopName(inLoop: bool, counter: nat, name: string): string
  {
    if inLoop then name + "_" + NatToString(counter) else name
  }

  /**
   * Everything statements read and update, as values: the scene, the global
   * variables, the scope stack and the loop context.
   */
  datatype World = World(store: Store, variables: map<string, Value>, scope: seq<map<string, Value>>,
                         inLoop: bool, loopCounter: nat)

  function BindingsOf(w: World): Bindings
  {
    Bindings(w.variables, w.scope)
  }

  /**
   * `createShape` on values: the name and counter step happen first; a shape
   * that fails validation is not stored; a valid one is stored under its
   * final name, replacing any shape of that name, and joins the current
   * layer if there is one.
   */
  function CreateShapeIn(w: World, shapeType: string, name: string, params: map<string, Value>)
    : (r: (World, Result<Res, RuntimeError>))
    requires WellFormed(w.store)
    ensures WellFormed(r.0.store) && r.0.variables == w.variables && r.0.scope == w.scope && r.0.inLoop == w.inLoop
    ensures r.0.loopCounter == (if w.inLoop then w.loopCounter + 1 else w.loopCounter)
    ensures r.1.Ok? <==> ValidateShapeParams(shapeType, params).Ok?
    ensures r.1.Err? ==> r.1.error == ValidateShapeParams(shapeType, params).error && r.0.store == w.store
    ensures r.1.Ok? ==> |r.0.store.shapeObjs| == |w.store.shapeObjs| + 1
    ensures r.1.Ok? ==>
              var id := |w.store.shapeObjs|;
              r.1.value == ShapeR(id) && r.0.store.shapeObjs[id].name == LoopName(w.inLoop, w.loopCounter, name) &&
              r.0.store.shapes == w.store.shapes[LoopName(w.inLoop, w.loopCounter, name) := id]
  {
    var w1 := w.(loopCounter := if w.inLoop then w.loopCounter + 1 else w.loopCounter);
    var valid := ValidateShapeParams(shapeType, params);
    if valid.Err? then (w1, Err(valid.error))
    else
      var shape := ShapeVal(shapeType, LoopName(w.inLoop, w.loopCounter, name),
                            NormalizeParams(shapeType, params), InitialTransform(params));
      var added := StoreShape(w.store, shape);
      (w1.(store := added.0), Ok(ShapeR(added.1)))
  }

  /**
   * The environment of interpreter.mjs. The `shapes` and `layers` maps and
   * `currentLayer` refer to shape and layer objects by their index in the
   * object tables; updating an object in place replaces its table entry.
   */
  class Environment {
    var shapes: map<string, nat>
    var layers: map<string, nat>
    var variables: map<string, Value>
    var currentLayer: Option<nat>
    var scope: seq<map<string, Value>>
    var inLoop: bool
    var loopCounter: nat
    /** Every shape and layer object created so far, in creation order. */
    var shapeTable: seq<ShapeVal>
    var layerTable: seq<LayerVal>

    /** The scene the environment holds. */
    function Contents(): Store
      reads this
    {
      Store(shapeTable, layerTable, shapes, layers, currentLayer)
    }

    /** Every reference the environment holds denotes an object. */
    predicate Valid()
      reads this
    {
      WellFormed(Contents())
    }

    /** The environment as values. */
    function AsWorld(): World
      reads this
    {
      World(Contents(), variables, scope, inLoop, loopCounter)
    }

    constructor ()
      ensures Valid() && AsWorld() == World(EmptyStore, map[], [], false, 0)
    {
      shapes := map[];
      layers := map[];
      variables := map[];
      currentLayer := None;
      scope := [];
      inLoop := false;
      loopCounter := 0;
      shapeTable := [];
      layerTable := [];
    }

    /** The bindings expressions are evaluated against. */
    function Snapshot(): Bindings
      reads this
    {
      Bindings(variables, scope)
    }

    /** The first step of `createShape`: inside a loop the name gets the counter as a suffix, and the counter moves on. */
    method UniqueName(name: string) returns (finalName: string)
      modifies this
      ensures finalName == LoopName(old(inLoop), old(loopCounter), name)
      ensures AsWorld() == old(AsWorld()).(loopCounter := if old(inLoop) then old(loopCounter) + 1 else old(loopCounter))
    {
      finalName := name;
      if inLoop {
        finalName := name + "_" + NatToString(loopCounter);
        loopCounter := loopCounter + 1;
      }
    }

    method EnterLoop()
      modifies this
      ensures AsWorld() == old(AsWorld()).(inLoop := true, loopCounter := 0)
    {
      inLoop := true;
      loopCounter := 0;
    }

    method ExitLoop()
      modifies this
      ensures AsWorld() == old(AsWorld()).(inLoop := false, loopCounter := 0)
    {
      inLoop := false;
      loopCounter := 0;
    }

    /**
     * `createShape`: inside a loop the name gets the counter as a suffix and
     * the counter moves on, before the parameters are validated. A valid
     * shape is stored under its final name, replacing any shape of that
     * name, and joins the current layer if there is one.
     */
    method CreateShape(shapeType: string, name: string, params: map<string, Value>)
      returns (r: Result<nat, RuntimeError>)
      requires Valid()
      modifies this
      ensures Valid()
      ensures (AsWorld(), ShapeOutcome(r)) == CreateShapeIn(old(AsWorld()), shapeType, name, params)
    {
      var finalName := UniqueName(name);
      var valid := CheckRequiredParams(shapeType, params);
      if valid.Err? {
        return Err(valid.error);
      }
      var shape := ShapeVal(shapeType, finalName, NormalizeParams(shapeType, params), InitialTransform(params));
      var id := |shapeTable|;
      shapeTable := shapeTable + [shape];
      shapes := shapes[finalName := id];
      if currentLayer.Some? {
        var c := currentLayer.value;
        var layer := layerTable[c];
        layerTable := layerTable[c := layer.(state := layer.state.(members := layer.state.members[finalName := id]))];
      }
      return Ok(id);
    }

    /** `createLayer`: a new, empty layer is stored under its name, replacing any other, and becomes current. */
    method CreateLayer(name: string) returns (layer: nat)
      requires Valid()
      modifies this
      ensures Valid()
      ensures (Contents(), layer) == StoreLayer(old(Contents()), name)
      ensures AsWorld() == old(AsWorld()).(store := Contents())
    {
      layer := |layerTable|;
      layerTable := layerTable + [LayerVal(name, LayerState(map[], [], IdentityTransform))];
      layers := layers[name := layer];
      currentLayer := Some(layer);
    }

    /** `getShape`: the shape stored under the name, or an error naming it. */
    function GetShape(name: string): (r: Result<nat, RuntimeError>)
      reads this
      ensures r.Ok? <==> name in shapes
      ensures r.Ok? ==> r.value == shapes[name]
      ensures r.Err? ==> r.error == ShapeNotFound(name)
    {
      if name in shapes then Ok(shapes[name]) else Err(ShapeNotFound(name))
    }

    /** `addToLayer`: the layer must exist, then the shape; the shape becomes the layer's member under its name. */
    method AddToLayer(layerName: string, shapeName: string) returns (r: Result<nat, RuntimeError>)
      requires Valid()
      modifies this
      ensures Valid()
      ensures var m := AddMember(old(Contents()), layerName, shapeName);
              AsWorld() == old(AsWorld()).(store := m.0) && LayerOutcome(r) == m.1
    {
      if layerName !in layers {
        return Err(LayerNotFound(layerName));
      }
      var shape := GetShape(shapeName);
      if shape.Err? {
        return Err(shape.error);
      }
      var id := layers[layerName];
      var layer := layerTable[id];
      layerTable := layerTable[id := layer.(state := layer.state.(members := layer.state.members[shapeName := shape.value]))];
      return Ok(id);
    }

    /** `subtractFromLayer`: the layer must exist, then the shape; the shape is appended to the layer's operations. */
    method SubtractFromLayer(layerName: string, shapeName: string) returns (r: Result<nat, RuntimeError>)
      requires Valid()
      modifies this
      ensures Valid()
      ensures var m := AddOperation(old(Contents()), layerName, shapeName);
              AsWorld() == old(AsWorld()).(store := m.0) && LayerOutcome(r) == m.1
    {
      if layerName !in layers {
        return Err(LayerNotFound(layerName));
      }
      var shape := GetShape(shapeName);
      if shape.Err? {
        return Err(shape.error);
      }
      var id := layers[layerName];
      var layer := layerTable[id];
      layerTable := layerTable[id := layer.(state := layer.state.(operations := layer.state.operations + [shape.value]))];
      return Ok(id);
    }

    /**
     * `applyTransform`: the target is looked up among the shapes, then the
     * layers; its transform goes through the operations in order, and an
     * operation that throws keeps the updates before it.
     */
    method ApplyTransform(target: string, ops: seq<(string, Expr)>) returns (r: Result<Res, RuntimeError>)
      requires Valid()
      modifies this
      ensures Valid()
      ensures var t := TransformTarget(old(Contents()), EvalWith(old(Snapshot())), target, ops);
              AsWorld() == old(AsWorld()).(store := t.0) && r == t.1
    {
      var eval := EvalWith(Snapshot());
      if target in shapes {
        var id := shapes[target];
        var t, err := RunTransformOps(shapeTable[id].transform, eval, ops);
        shapeTable := shapeTable[id := shapeTable[id].(transform := t)];
        if err.Some? {
          return Err(err.value);
        }
        return Ok(ShapeR(id));
      } else if target in layers {
        var id := layers[target];
        var t, err := RunTransformOps(layerTable[id].state.transform, eval, ops);
        layerTable := layerTable[id := layerTable[id].(state := layerTable[id].state.(transform := t))];
        if err.Some? {
          return Err(err.value);
        }
        return Ok(LayerR(id));
      }
      return Err(TargetNotFound(target));
    }

    /** `createRange`: the loop pushes start, start + step, ... while below `end`. */
    method CreateRange(start: real, end: real, step: real) returns (range: seq<real>)
      requires step > 0.0 || end <= start
      ensures range == RangeValues(start, end, step)
    {
      range := [];
      var i := start;
      while i < end
        invariant step > 0.0 || i == start
        invariant RangeValues(start, end, step) == range + RangeValues(i, end, step)
        decreases Remaining(i, end, step)
      {
        RemainingDecreases(i, end, step);
        range := range + [i];
        i := i + step;
      }
    }

    /** `pushScope`: a new, empty innermost scope, which changes what no name resolves to. */
    method PushScope()
      modifies this
      ensures AsWorld() == old(AsWorld()).(scope := old(scope) + [map[]])
      ensures forall name :: Resolve(Snapshot(), name) == Resolve(old(Snapshot()), name)
    {
      scope := scope + [map[]];
    }

    /** `popScope`: drops the innermost scope; with none, nothing happens. */
    method PopScope()
      modifies this
      ensures AsWorld() == old(AsWorld()).(scope := if old(scope) == [] then [] else old(scope)[..|old(scope)| - 1])
    {
      if |scope| > 0 {
        scope := scope[..|scope| - 1];
      }
    }

    /**
     * `setVariable`: binds in the innermost scope, or among the globals when
     * there is no scope; the name then resolves to the value.
     */
    method SetVariable(name: string, value: Value)
      modifies this
      ensures old(scope) != [] ==>
                AsWorld() == old(AsWorld()).(scope := old(scope)[..|old(scope)| - 1] + [old(scope)[|old(scope)| - 1][name := value]])
      ensures old(scope) == [] ==> AsWorld() == old(AsWorld()).(variables := old(variables)[name := value])
      ensures Resolve(Snapshot(), name) == value
    {
      if |scope| > 0 {
        var top := |scope| - 1;
        scope := scope[..top] + [scope[top][name := value]];
        assert scope[..top] == old(scope)[..top];
      } else {
        variables := variables[name := value];
      }
    }

    /** The loop of `resolveIdentifier`, from the innermost scope outwards. */
    method ResolveIdentifier(name: string) returns (v: Value)
      ensures v == Resolve(Snapshot(), name)
    {
      var i := |scope|;
      assert scope[..i] == scope;
      while i > 0
        invariant 0 <= i <= |scope|
        invariant Lookup(scope, variables, name) == Lookup(scope[..i], variables, name)
      {
        assert scope[..i][..i - 1] == scope[..i - 1];
        if name in scope[i - 1] {
          return scope[i - 1][name];
        }
        i := i - 1;
      }
      assert scope[..0] == [];
      if name in variables {
        return variables[name];
      }
      return Str(name);
    }
  }

  /** Inside a loop, shapes created under different counter values get different names. */
  lemma LoopNamesDistinct(name: string, a: nat, b: nat)
    requires a != b
    ensures name + "_" + NatToString(a) != name + "_" + NatToString(b)
  {
    if name + "_" + NatToString(a) == name + "_" + NatToString(b) {
      assert (name + "_" + NatToString(a))[|name| + 1..] == NatToString(a);
      assert (name + "_" + NatToString(b))[|name| + 1..] == NatToString(b);
      NatToStringInjective(a, b);
    }
  }

  // ---- statements ---------------------------------------------------------

  /** Statements that leave a value in the results: all but `if`, whose result is `undefined`. */
  predicate ProducesResult(s: Stmt)
  {
    !s.IfStmt?
  }

  /** The statements an `if` runs for a condition value. */
  function Branch(s: Stmt, condition: Value): (r: seq<Stmt>)
    requires s.IfStmt?
    ensures forall k :: 0 <= k < |r| ==> r[k] < s
  {
    if Truthy(condition) then s.body
    else if s.elseBody.Else? then s.elseBody.stmts
    else []
  }

  /** The parameter object of a shape statement: each value evaluated in order, a later key overriding. */
  function EvalParams(b: Bindings, acc: map<string, Value>, ps: seq<(string, Expr)>): Result<map<string, Value>, RuntimeError>
    decreases |ps|
  {
    if ps == [] then Ok(acc)
    else
      var v :- Eval(b, ps[0].1);
      EvalParams(b, acc[ps[0].0 := v], ps[1..])
  }

  /** A shape statement: its parameters, then `createShape`; a parameter that throws stores nothing. */
  function ExecShape(w: World, s: Stmt): (r: (World, Result<Res, RuntimeError>))
    requires s.ShapeDecl? && WellFormed(w.store)
    ensures WellFormed(r.0.store) && r.0.scope == w.scope
  {
    var ps := EvalParams(BindingsOf(w), map[], s.params);
    if ps.Err? then (w, Err(ps.error)) else CreateShapeIn(w, s.shapeType, s.name, ps.value)
  }

  /** A layer block, where `rotation` sets the layer's rotation. */
  function ExecLayer(w: World, s: Stmt): (r: (World, Result<Res, RuntimeError>))
    requires s.LayerDecl? && WellFormed(w.store)
    ensures WellFormed(r.0.store) && r.0.scope == w.scope
  {
    var run := LayerBlock(w.store, EvalWith(BindingsOf(w)), "rotation", s.name, s.commands);
    (w.(store := run.0), run.1)
  }

  /** A transform statement: `applyTransform` on its target. */
  function ExecTransform(w: World, s: Stmt): (r: (World, Result<Res, RuntimeError>))
    requires s.TransformDecl? && WellFormed(w.store)
    ensures WellFormed(r.0.store) && r.0.scope == w.scope
  {
    var run := TransformTarget(w.store, EvalWith(BindingsOf(w)), s.target, s.operations);
    (w.(store := run.0), run.1)
  }

  /** A statement's value, when it is one that leaves a value in the results. */
  function Produced(r: (World, Result<Res, RuntimeError>)): (World, Result<Option<Res>, RuntimeError>)
  {
    (r.0, if r.1.Ok? then Ok(Some(r.1.value)) else Err(r.1.error))
  }

  /**
   * `evaluateNode`: what a statement does to the world, and its value;
   * `None` is the `undefined` an `if` statement returns. A `fillet`
   * statement has no evaluator. No statement changes the scope stack.
   */
  function Exec(w: World, s: Stmt): (r: (World, Result<Option<Res>, RuntimeError>))
    requires WellFormed(w.store)
    ensures WellFormed(r.0.store) && r.0.scope == w.scope
    ensures s.FilletDecl? ==> r == (w, Err(UnknownNodeType("fillet")))
    ensures r.1.Ok? ==> (r.1.value.None? <==> s.IfStmt?)
    ensures r.1.Ok? && s.ForLoop? ==> r.1.value.value.ListR?
    decreases s, 2
  {
    match s
    case ShapeDecl(_, _, _) => Produced(ExecShape(w, s))
    case LayerDecl(_, _) => Produced(ExecLayer(w, s))
    case TransformDecl(_, _) => Produced(ExecTransform(w, s))
    case IfStmt(_, _, _) =>
      var run := ExecIf(w, s);
      (run.0, if run.1.Ok? then Ok(None) else Err(run.1.error))
    case ForLoop(_, _, _) =>
      var run := ExecFor(w, s);
      (run.0, if run.1.Ok? then Ok(Some(ListR(run.1.value))) else Err(run.1.error))
    case FilletDecl(_) => (w, Err(UnknownNodeType("fillet")))
  }

  /**
   * Statements in order, collecting into `acc` the value of each that
   * produces one; the first that throws stops the rest.
   */
  function ExecSeq(w: World, ss: seq<Stmt>, acc: seq<Res>): (r: (World, Result<seq<Res>, RuntimeError>))
    requires WellFormed(w.store)
    ensures WellFormed(r.0.store) && r.0.scope == w.scope
    ensures r.1.Ok? ==> |r.1.value| == |acc| + CountIf(ss, ProducesResult) && r.1.value[..|acc|] == acc
    decreases ss, 0
  {
    if ss == [] then (w, Ok(acc))
    else
      var first := Exec(w, ss[0]);
      if first.1.Err? then (first.0, Err(first.1.error))
      else
        var acc' := if first.1.value.Some? then acc + [first.1.value.value] else acc;
        var rest := ExecSeq(first.0, ss[1..], acc');
        CountIfAppend([ss[0]], ss[1..], ProducesResult);
        assert [ss[0]] + ss[1..] == ss;
        assert rest.1.Ok? ==> rest.1.value[..|acc|] == rest.1.value[..|acc'|][..|acc|];
        rest
  }

  /** `evaluateIfStatement`: the statements of the branch the condition selects; their values are discarded. */
  function ExecIf(w: World, s: Stmt): (r: (World, Result<(), RuntimeError>))
    requires s.IfStmt? && WellFormed(w.store)
    ensures WellFormed(r.0.store) && r.0.scope == w.scope
    decreases s, 1
  {
    var condition := Eval(BindingsOf(w), s.condition);
    if condition.Err? then (w, Err(condition.error))
    else
      var run :=
        if Truthy(condition.value) then ExecSeq(w, s.body, [])
        else if s.elseBody.Else? then ExecSeq(w, s.elseBody.stmts, [])
        else (w, Ok([]));
      (run.0, if run.1.Ok? then Ok(()) else Err(run.1.error))
  }

  /** Entering the loop context: `enterLoop`. */
  function EnterLoopIn(w: World): World
  {
    w.(inLoop := true, loopCounter := 0)
  }

  /** Leaving the loop context: `exitLoop`, then the iterator is unbound. */
  function LeaveLoop(w: World, iter: string): World
  {
    w.(inLoop := false, loopCounter := 0, variables := w.variables - {iter})
  }

  /**
   * `evaluateForLoop`: both bounds are evaluated once, before the loop; the
   * body runs with the iterator bound among the global variables to start,
   * start + 1, ... while below `end`; afterwards the loop context is left
   * and the iterator unbound. A `for i in e` statement has no bounds to
   * evaluate.
   */
  function ExecFor(w: World, s: Stmt): (r: (World, Result<seq<Res>, RuntimeError>))
    requires s.ForLoop? && WellFormed(w.store)
    ensures WellFormed(r.0.store) && r.0.scope == w.scope
    ensures s.range.RangeOf? ==> r == (w, Err(InvalidExpression))
    ensures r.1.Ok? ==> !r.0.inLoop && r.0.loopCounter == 0 && s.iter !in r.0.variables
    decreases s, 1
  {
    if s.range.RangeOf? then (w, Err(InvalidExpression))
    else
      var b := BindingsOf(w);
      var start := Eval(b, s.range.start);
      if start.Err? then (w, Err(start.error))
      else
        var end := Eval(b, s.range.end);
        if end.Err? then (w, Err(end.error))
        else if !(start.value.Num? && end.value.Num?) then
          // Only a loop that does not start is within the model once `i++` leaves the numbers.
          if Less(start.value, end.value) != Ok(false) then (w, Err(NotModelled("loop over bounds that are not numbers")))
          else (LeaveLoop(EnterLoopIn(w), s.iter), Ok([]))
        else
          var run := ExecLoop(EnterLoopIn(w), s, start.value.n, end.value.n, []);
          if run.1.Err? then run else (LeaveLoop(run.0, s.iter), run.1)
  }

  /** The iterations of a `for` loop from `i` on, collecting the body's values into `acc`. */
  function ExecLoop(w: World, s: Stmt, i: real, end: real, acc: seq<Res>): (r: (World, Result<seq<Res>, RuntimeError>))
    requires s.ForLoop? && WellFormed(w.store)
    ensures WellFormed(r.0.store) && r.0.scope == w.scope
    decreases s, 0, Remaining(i, end, 1.0)
  {
    if i < end then
      RemainingDecreases(i, end, 1.0);
      var run := ExecSeq(w.(variables := w.variables[s.iter := Num(i)]), s.body, acc);
      if run.1.Err? then run else ExecLoop(run.0, s, i + 1.0, end, run.1.value)
    else (w, Ok(acc))
  }

  /** The body run once for each value of `values`, bound to the iterator. */
  function ExecEach(w: World, s: Stmt, values: seq<real>, acc: seq<Res>): (r: (World, Result<seq<Res>, RuntimeError>))
    requires s.ForLoop? && WellFormed(w.store)
    ensures WellFormed(r.0.store)
    decreases |values|
  {
    if values == [] then (w, Ok(acc))
    else
      var run := ExecSeq(w.(variables := w.variables[s.iter := Num(values[0])]), s.body, acc);
      if run.1.Err? then run else ExecEach(run.0, s, values[1..], run.1.value)
  }

  /** The loop binds the iterator to exactly the values of `createRange(i, end, 1)`, in order. */
  lemma {:induction false} LoopRunsOverRange(w: World, s: Stmt, i: real, end: real, acc: seq<Res>)
    requires s.ForLoop? && WellFormed(w.store)
    ensures ExecLoop(w, s, i, end, acc) == ExecEach(w, s, RangeValues(i, end, 1.0), acc)
    decreases Remaining(i, end, 1.0)
  {
    if i < end {
      RemainingDecreases(i, end, 1.0);
      var values := RangeValues(i, end, 1.0);
      assert values == [i] + RangeValues(i + 1.0, end, 1.0);
      assert values[0] == i && values[1..] == RangeValues(i + 1.0, end, 1.0);
      var run := ExecSeq(w.(variables := w.variables[s.iter := Num(i)]), s.body, acc);
      if run.1.Ok? {
        LoopRunsOverRange(run.0, s, i + 1.0, end, run.1.value);
      }
    }
  }

  /** A `for` loop leaves as many values as its body's statements produce on each iteration, in total. */
  lemma {:induction false} EachCount(w: World, s: Stmt, values: seq<real>, acc: seq<Res>)
    requires s.ForLoop? && WellFormed(w.store)
    ensures var r := ExecEach(w, s, values, acc);
            r.1.Ok? ==> |r.1.value| == |acc| + |values| * CountIf(s.body, ProducesResult)
    decreases |values|
  {
    if values != [] {
      var run := ExecSeq(w.(variables := w.variables[s.iter := Num(values[0])]), s.body, acc);
      if run.1.Ok? {
        EachCount(run.0, s, values[1..], run.1.value);
        var n := CountIf(s.body, ProducesResult);
        assert (|values| - 1) * n + n == |values| * n;
      }
    }
  }

  /**
   * A `for` loop over numeric bounds runs its body once for each value of
   * `createRange(start, end, 1)`, in order, inside the loop context, and
   * leaves as many values as that many runs of its body produce.
   */
  lemma ForLoopOverRange(w: World, s: Stmt)
    requires s.ForLoop? && s.range.RangeCall? && WellFormed(w.store)
    requires Eval(BindingsOf(w), s.range.start).Ok? && Eval(BindingsOf(w), s.range.start).value.Num?
    requires Eval(BindingsOf(w), s.range.end).Ok? && Eval(BindingsOf(w), s.range.end).value.Num?
    ensures var values := RangeValues(Eval(BindingsOf(w), s.range.start).value.n, Eval(BindingsOf(w), s.range.end).value.n, 1.0);
            var run := ExecEach(EnterLoopIn(w), s, values, []);
            ExecFor(w, s) == (if run.1.Ok? then (LeaveLoop(run.0, s.iter), run.1) else run) &&
            (run.1.Ok? ==> |run.1.value| == |values| * CountIf(s.body, ProducesResult))
  {
    var a, e := Eval(BindingsOf(w), s.range.start).value.n, Eval(BindingsOf(w), s.range.end).value.n;
    LoopRunsOverRange(EnterLoopIn(w), s, a, e, []);
    EachCount(EnterLoopIn(w), s, RangeValues(a, e, 1.0), []);
  }

  /** An `if` whose condition is falsy and which has no `else` changes nothing. */
  lemma IfWithoutElse(w: World, s: Stmt)
    requires s.IfStmt? && s.elseBody.NoElse? && WellFormed(w.store)
    requires Eval(BindingsOf(w), s.condition).Ok? && !Truthy(Eval(BindingsOf(w), s.condition).value)
    ensures Exec(w, s) == (w, Ok(None))
  {
    assert ExecIf(w, s) == (w, Ok(()));
  }

  /** Running `a + b` is running `a`, then, if nothing threw, `b` from where `a` left off. */
  lemma {:induction false} ExecSeqAppend(w: World, a: seq<Stmt>, b: seq<Stmt>, acc: seq<Res>)
    requires WellFormed(w.store)
    ensures var ra := ExecSeq(w, a, acc);
            ExecSeq(w, a + b, acc) == (if ra.1.Ok? then ExecSeq(ra.0, b, ra.1.value) else ra)
    decreases |a|
  {
    if a == [] {
      assert a + b == b;
    } else {
      assert (a + b)[0] == a[0] && (a + b)[1..] == a[1..] + b;
      var first := Exec(w, a[0]);
      if first.1.Ok? {
        var acc' := if first.1.value.Some? then acc + [first.1.value.value] else acc;
        ExecSeqAppend(first.0, a[1..], b, acc');
      }
    }
  }

  class Interpreter {
    const env: Environment

    constructor ()
      ensures fresh(env) && env.Valid() && env.AsWorld() == World(EmptyStore, map[], [], false, 0)
    {
      env := new Environment();
    }

    /**
     * `interpret`: the statements in order; every statement except an `if`
     * contributes its value to the results.
     */
    method Interpret(ast: seq<Stmt>) returns (r: Result<seq<Res>, RuntimeError>)
      requires env.Valid()
      modifies env
      ensures env.Valid()
      ensures (env.AsWorld(), r) == ExecSeq(old(env.AsWorld()), ast, [])
    {
      var results := [];
      var i := 0;
      while i < |ast|
        invariant 0 <= i <= |ast| && env.Valid()
        invariant ExecSeq(old(env.AsWorld()), ast, []) == ExecSeq(env.AsWorld(), ast[i..], results)
      {
        assert ast[i..][0] == ast[i] && ast[i..][1..] == ast[i + 1..];
        var res := EvaluateNode(ast[i]);
        if res.Err? {
          return Err(res.error);
        }
        if res.value.Some? {
          results := results + [res.value.value];
        }
        i := i + 1;
      }
      return Ok(results);
    }

    /** `evaluateNode`: dispatch on the statement; a `fillet` statement has no evaluator. */
    method EvaluateNode(node: Stmt) returns (r: Result<Option<Res>, RuntimeError>)
      requires env.Valid()
      modifies env
      ensures env.Valid()
      ensures (env.AsWorld(), r) == Exec(old(env.AsWorld()), node)
      decreases node, 2
    {
      match node
      case ShapeDecl(_, _, _) =>
        var s := EvaluateShape(node);
        r := if s.Ok? then Ok(Some(ShapeR(s.value))) else Err(s.error);
      case LayerDecl(_, _) =>
        var l := EvaluateLayer(node);
        r := if l.Ok? then Ok(Some(LayerR(l.value))) else Err(l.error);
      case TransformDecl(target, ops) =>
        var t := env.ApplyTransform(target, ops);
        r := if t.Ok? then Ok(Some(t.value)) else Err(t.error);
      case IfStmt(_, _, _) =>
        var c := EvaluateIf(node);
        r := if c.Ok? then Ok(None) else Err(c.error);
      case ForLoop(_, _, _) =>
        var f := EvaluateForLoop(node);
        r := if f.Ok? then Ok(Some(ListR(f.value))) else Err(f.error);
      case FilletDecl(_) =>
        r := Err(UnknownNodeType("fillet"));
    }

    /** The body of one iteration of `evaluateForLoop`, pushing the values its statements produce. */
    method RunBody(node: Stmt, results: seq<Res>) returns (r: Result<seq<Res>, RuntimeError>)
      requires node.ForLoop? && env.Valid()
      modifies env
      ensures env.Valid()
      ensures (env.AsWorld(), r) == ExecSeq(old(env.AsWorld()), node.body, results)
      decreases node, 0
    {
      var acc := results;
      var j := 0;
      while j < |node.body|
        invariant 0 <= j <= |node.body| && env.Valid()
        invariant ExecSeq(old(env.AsWorld()), node.body, results) == ExecSeq(env.AsWorld(), node.body[j..], acc)
      {
        assert node.body[j..][0] == node.body[j] && node.body[j..][1..] == node.body[j + 1..];
        var res := EvaluateNode(node.body[j]);
        if res.Err? {
          return Err(res.error);
        }
        if res.value.Some? {
          acc := acc + [res.value.value];
        }
        j := j + 1;
      }
      return Ok(acc);
    }

    /**
     * `evaluateForLoop`: both bounds are evaluated once, before the loop; the
     * iterator is bound among the global variables to start, start + 1, ...
     * while below `end`; afterwards the loop context is left and the
     * iterator unbound. A `for i in e` statement has no bounds to evaluate.
     */
    method EvaluateForLoop(node: Stmt) returns (r: Result<seq<Res>, RuntimeError>)
      requires node.ForLoop? && env.Valid()
      modifies env
      ensures env.Valid()
      ensures (env.AsWorld(), r) == ExecFor(old(env.AsWorld()), node)
      decreases node, 1
    {
      var b := env.Snapshot();
      if node.range.RangeOf? {
        return Err(InvalidExpression);
      }
      var startValue := Eval(b, node.range.start);
      if startValue.Err? {
        return Err(startValue.error);
      }
      var endValue := Eval(b, node.range.end);
      if endValue.Err? {
        return Err(endValue.error);
      }
      var s, e := startValue.value, endValue.value;
      if !(s.Num? && e.Num?) {
        if Less(s, e) != Ok(false) {
          return Err(NotModelled("loop over bounds that are not numbers"));
        }
        env.EnterLoop();
        env.ExitLoop();
        env.variables := env.variables - {node.iter};
        return Ok([]);
      }
      env.EnterLoop();
      ghost var entered := env.AsWorld();
      var results := [];
      var i := s.n;
      while i < e.n
        invariant env.Valid()
        invariant ExecLoop(entered, node, s.n, e.n, []) == ExecLoop(env.AsWorld(), node, i, e.n, results)
        decreases Remaining(i, e.n, 1.0)
      {
        RemainingDecreases(i, e.n, 1.0);
        env.variables := env.variables[node.iter := Num(i)];
        var body := RunBody(node, results);
        if body.Err? {
          return Err(body.error);
        }
        results := body.value;
        i := i + 1.0;
      }
      env.ExitLoop();
      env.variables := env.variables - {node.iter};
      return Ok(results);
    }

    /**
     * `evaluateIfStatement`: the condition is evaluated, then exactly the
     * statements of the branch its truthiness selects run, in order; their
     * results are discarded.
     */
    method EvaluateIf(node: Stmt) returns (r: Result<(), RuntimeError>)
      requires node.IfStmt? && env.Valid()
      modifies env
      ensures env.Valid()
      ensures (env.AsWorld(), r) == ExecIf(old(env.AsWorld()), node)
      decreases node, 1
    {
      var condition := Eval(env.Snapshot(), node.condition);
      if condition.Err? {
        return Err(condition.error);
      }
      var branch := Branch(node, condition.value);
      ghost var discarded: seq<Res> := [];
      var j := 0;
      while j < |branch|
        invariant 0 <= j <= |branch| && env.Valid()
        invariant ExecSeq(old(env.AsWorld()), branch, []) == ExecSeq(env.AsWorld(), branch[j..], discarded)
      {
        assert branch[j..][0] == branch[j] && branch[j..][1..] == branch[j + 1..];
        var res := EvaluateNode(branch[j]);
        if res.Err? {
          return Err(res.error);
        }
        if res.value.Some? {
          discarded := discarded + [res.value.value];
        }
        j := j + 1;
      }
      return Ok(());
    }

    /** `evaluateShape`: the parameters are evaluated in order, then `createShape` runs. */
    method EvaluateShape(node: Stmt) returns (r: Result<nat, RuntimeError>)
      requires node.ShapeDecl? && env.Valid()
      modifies env
      ensures env.Valid()
      ensures (env.AsWorld(), ShapeOutcome(r)) == ExecShape(old(env.AsWorld()), node)
    {
      var b := env.Snapshot();
      var params := map[];
      var i := 0;
      while i < |node.params|
        invariant 0 <= i <= |node.params|
        invariant EvalParams(b, map[], node.params) == EvalParams(b, params, node.params[i..])
      {
        assert node.params[i..][0] == node.params[i] && node.params[i..][1..] == node.params[i + 1..];
        var v := Eval(b, node.params[i].1);
        if v.Err? {
          return Err(v.error);
        }
        params := params[node.params[i].0 := v.value];
        i := i + 1;
      }
      assert EvalParams(b, params, node.params[i..]) == Ok(params);
      r := env.CreateShape(node.shapeType, node.name, params);
    }

    /**
     * `evaluateLayer`: a new layer is created and made current, then its
     * commands run in order against it (`rotation` sets its rotation).
     */
    method EvaluateLayer(node: Stmt) returns (r: Result<nat, RuntimeError>)
      requires node.LayerDecl? && env.Valid()
      modifies env
      ensures env.Valid()
      ensures (env.AsWorld(), LayerOutcome(r)) == ExecLayer(old(env.AsWorld()), node)
    {
      var b := env.Snapshot();
      ghost var before := env.Contents();
      var layer := env.CreateLayer(node.name);
      ghost var created := env.Contents();
      ghost var start := LayerState(map[], [], IdentityTransform);
      ghost var ls := start;
      var i := 0;
      while i < |node.commands|
        invariant 0 <= i <= |node.commands| && env.Valid()
        invariant layer < |created.layerObjs| && env.Contents() == SetLayerState(created, layer, ls)
        invariant env.AsWorld() == old(env.AsWorld()).(store := env.Contents())
        invariant RunLayerCommands(EvalWith(b), "rotation", before.shapes, start, node.commands) ==
                  RunLayerCommands(EvalWith(b), "rotation", before.shapes, ls, node.commands[i..])
      {
        var command := node.commands[i];
        assert node.commands[i..][0] == command && node.commands[i..][1..] == node.commands[i + 1..];
        var done := EvaluateLayerCommand(node.name, layer, command, b, created, ls);
        if done.Err? {
          return Err(done.error);
        }
        ls := LayerStep(EvalWith(b), "rotation", created.shapes, ls, command).value;
        i := i + 1;
      }
      return Ok(layer);
    }

    /**
     * One command of a layer block, against the block's layer `layer`, stored
     * under `name`, whose contents are `ls`: `add` and `subtract` go through
     * the environment, and the transform settings assign the layer's
     * transform fields in place.
     */
    method EvaluateLayerCommand(name: string, layer: nat, command: Command, b: Bindings, ghost created: Store, ghost ls: LayerState<nat>)
      returns (r: Result<(), RuntimeError>)
      requires env.Valid() && WellFormed(created) && layer < |created.layerObjs|
      requires name in created.layers && created.layers[name] == layer
      requires env.Contents() == SetLayerState(created, layer, ls)
      requires b == env.Snapshot()
      modifies env
      ensures env.Valid()
      ensures var step := LayerStep(EvalWith(b), "rotation", created.shapes, ls, command);
              (r.Ok? <==> step.Ok?) &&
              (r.Err? ==> r.error == step.error && env.AsWorld() == old(env.AsWorld())) &&
              (r.Ok? ==> env.AsWorld() == old(env.AsWorld()).(store := SetLayerState(created, layer, step.value)))
    {
      match command {
      case AddShape(shapeName) =>
        var added := env.AddToLayer(name, shapeName);
        if added.Err? {
          return Err(added.error);
        }
      case SubtractShape(shapeName) =>
        var subtracted := env.SubtractFromLayer(name, shapeName);
        if subtracted.Err? {
          return Err(subtracted.error);
        }
      case Setting(kind, value) =>
        if kind == "add" || kind == "subtract" {
          return Err(ShapeNotFound("undefined"));
        } else if kind == "rotation" || kind == "scale" || kind == "position" {
          var v := Eval(b, value);
          if v.Err? {
            return Err(v.error);
          }
          var t := env.layerTable[layer].state.transform;
          if kind == "rotation" {
            t := t.(rotation := v.value);
          } else if kind == "scale" {
            t := t.(scale := (v.value, v.value));
          } else {
            t := t.(position := v.value);
          }
          env.layerTable := env.layerTable[layer := env.layerTable[layer].(state := env.layerTable[layer].state.(transform := t))];
        } else {
          return Err(UnknownLayerCommand(kind));
        }
      }
      return Ok(());
    }
  }
}
