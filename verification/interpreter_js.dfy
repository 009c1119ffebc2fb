// The earlier interpreter of interpreter.js: the same scene store without
// variables, scopes or loops, an arithmetic-only evaluator, and statements
// limited to shapes, layers and transforms.

module EarlyInterpreter {
  import opened Common
  import opened Values
  import opened ShapeRules
  import opened Ast
  import opened Scene
  import Later = Interpreter

  /** The `type` string of an expression node, as the parsers write it. */
  function ExprTypeName(e: Expr): string
  {
    match e
    case NumberLit(_) => "number"
    case StringLit(_) => "string"
    case BooleanLit(_) => "boolean"
    case ArrayLit(_) => "array"
    case Ident(_) => "identifier"
    case PropertyAccess(_, _) => "property_access"
    case LogicalOp(_, _, _) => "logical_op"
    case ComparisonOp(_, _, _) => "comparison_op"
    case BinaryOp(_, _, _) => "binary_op"
    case UnaryOp(_, _) => "unary_op"
    case RawString(_) => "string"
  }

  /**
   * `evaluateExpression` of interpreter.js: numbers, strings, arrays,
   * identifiers (which stand for their own name), binary operators and unary
   * `minus`/`plus`; every other node type is unknown. A bare string is not a
   * node and is rejected.
   */
  function Eval(e: Expr): Result<Value, RuntimeError>
    decreases e
  {
    match e
    case NumberLit(x) => Ok(Num(x))
    case StringLit(s) => Ok(Str(s))
    case ArrayLit(elements) => (var vs :- EvalAll(elements); Ok(Arr(vs)))
    case Ident(name) => Ok(Str(name))
    case BinaryOp(op, left, right) =>
      var l :- Eval(left);
      var r :- Eval(right);
      BinaryOperator(op, l, r)
    case UnaryOp(op, operand) =>
      var v :- Eval(operand);
      if op == "minus" || op == "plus" then NumericUnary(op, v) else Err(UnknownUnaryOperator(op))
    case RawString(_) => Err(InvalidExpression)
    case _ => Err(UnknownExpressionType(ExprTypeName(e)))
  }

  function EvalAll(es: seq<Expr>): Result<seq<Value>, RuntimeError>
    decreases es
  {
    if es == [] then Ok([])
    else
      var v :- Eval(es[0]);
      var vs :- EvalAll(es[1..]);
      Ok([v] + vs)
  }

  function EvalFn(): Expr -> Result<Value, RuntimeError>
  {
    (e: Expr) => Eval(e)
  }

  /** `resolveIdentifier` of interpreter.js: every identifier evaluates to its own name. */
  lemma IdentifierIsItsName(name: string)
    ensures Eval(Ident(name)) == Ok(Str(name))
  {
  }

  /** `boolean`, `logical_op`, `comparison_op` and `property_access` nodes are rejected as unknown. */
  lemma UnknownExpressionTypes(e: Expr)
    requires e.BooleanLit? || e.LogicalOp? || e.ComparisonOp? || e.PropertyAccess?
    ensures Eval(e) == Err(UnknownExpressionType(ExprTypeName(e)))
  {
  }

  /** `not` is not a unary operator here. */
  lemma NotIsUnknown(operand: Expr)
    requires Eval(operand).Ok?
    ensures Eval(UnaryOp("not", operand)) == Err(UnknownUnaryOperator("not"))
  {
  }

  /** The expressions this evaluator accepts: numbers, strings, identifiers, arrays, binary and unary minus/plus. */
  predicate Accepted(e: Expr)
    decreases e
  {
    match e
    case NumberLit(_) => true
    case StringLit(_) => true
    case Ident(_) => true
    case ArrayLit(elements) => AllAccepted(elements)
    case BinaryOp(_, left, right) => Accepted(left) && Accepted(right)
    case UnaryOp(op, operand) => (op == "minus" || op == "plus") && Accepted(operand)
    case _ => false
  }

  predicate AllAccepted(es: seq<Expr>)
    decreases es
  {
    es == [] || (Accepted(es[0]) && AllAccepted(es[1..]))
  }

  /**
   * The evaluator of interpreter.mjs extends this one: with no variables
   * bound, the two agree on every expression this one accepts.
   */
  lemma {:induction false} LaterEvaluatorAgrees(e: Expr)
    requires Accepted(e)
    ensures Later.Eval(Later.Bindings(map[], []), e) == Eval(e)
    decreases e
  {
    match e
    case NumberLit(_) =>
    case StringLit(_) =>
    case Ident(_) =>
    case ArrayLit(elements) => LaterEvaluatorAgreesAll(elements);
    case BinaryOp(_, left, right) =>
      LaterEvaluatorAgrees(left);
      LaterEvaluatorAgrees(right);
    case UnaryOp(_, operand) => LaterEvaluatorAgrees(operand);
  }

  lemma {:induction false} LaterEvaluatorAgreesAll(es: seq<Expr>)
    requires AllAccepted(es)
    ensures Later.EvalAll(Later.Bindings(map[], []), es) == EvalAll(es)
    decreases es
  {
    if es != [] {
      LaterEvaluatorAgrees(es[0]);
      LaterEvaluatorAgreesAll(es[1..]);
    }
  }

  /** The `type` string of a statement node. */
  function StmtTypeName(s: Stmt): string
  {
    match s
    case ShapeDecl(_, _, _) => "shape"
    case FilletDecl(_) => "fillet"
    case IfStmt(_, _, _) => "if_statement"
    case ForLoop(_, _, _) => "for_loop"
    case LayerDecl(_, _) => "layer"
    case TransformDecl(_, _) => "transform"
  }

  /** The parameter object of a shape statement, evaluated in order. */
  function EvalParams(acc: map<string, Value>, ps: seq<(string, Expr)>): Result<map<string, Value>, RuntimeError>
    decreases |ps|
  {
    if ps == [] then Ok(acc)
    else
      var v :- Eval(ps[0].1);
      EvalParams(acc[ps[0].0 := v], ps[1..])
  }

  /**
   * `createShape` of interpreter.js: the parameters are validated, then the
   * shape is stored under its own name, replacing any shape of that name,
   * and joins the current layer if there is one.
   */
  function CreateShapeIn(st: Store, shapeType: string, name: string, params: map<string, Value>)
    : (r: (Store, Result<Res, RuntimeError>))
    requires WellFormed(st)
    ensures WellFormed(r.0)
    ensures r.1.Ok? <==> ValidateShapeParams(shapeType, params).Ok?
    ensures r.1.Err? ==> r == (st, Err(ValidateShapeParams(shapeType, params).error))
    ensures r.1.Ok? ==>
              var id := |st.shapeObjs|;
              r.1.value == ShapeR(id) &&
              r.0.shapeObjs == st.shapeObjs + [ShapeVal(shapeType, name, NormalizeParams(shapeType, params), InitialTransform(params))] &&
              r.0.shapes == st.shapes[name := id] && r.0.layers == st.layers
  {
    var valid := ValidateShapeParams(shapeType, params);
    if valid.Err? then (st, Err(valid.error))
    else
      var added := StoreShape(st, ShapeVal(shapeType, name, NormalizeParams(shapeType, params), InitialTransform(params)));
      (added.0, Ok(ShapeR(added.1)))
  }

  /**
   * `evaluateNode` of interpreter.js: shape, layer and transform statements
   * only, each leaving a value; any other statement type is unknown.
   */
  function Exec(st: Store, s: Stmt): (r: (Store, Result<Res, RuntimeError>))
    requires WellFormed(st)
    ensures WellFormed(r.0)
    ensures !(s.ShapeDecl? || s.LayerDecl? || s.TransformDecl?) ==> r == (st, Err(UnknownNodeType(StmtTypeName(s))))
  {
    match s
    case ShapeDecl(shapeType, name, ps) =>
      var params := EvalParams(map[], ps);
      if params.Err? then (st, Err(params.error)) else CreateShapeIn(st, shapeType, name, params.value)
    case LayerDecl(name, cmds) => LayerBlock(st, EvalFn(), "rotate", name, cmds)
    case TransformDecl(target, ops) => TransformTarget(st, EvalFn(), target, ops)
    case _ => (st, Err(UnknownNodeType(StmtTypeName(s))))
  }

  /** `interpret` of interpreter.js: the statements in order, each value appended to `acc`; the first that throws stops the rest. */
  function ExecSeq(st: Store, ss: seq<Stmt>, acc: seq<Res>): (r: (Store, Result<seq<Res>, RuntimeError>))
    requires WellFormed(st)
    ensures WellFormed(r.0)
    ensures r.1.Ok? ==> |r.1.value| == |acc| + |ss| && r.1.value[..|acc|] == acc
    ensures r.1.Ok? ==> forall k :: 0 <= k < |ss| ==> ss[k].ShapeDecl? || ss[k].LayerDecl? || ss[k].TransformDecl?
    decreases |ss|
  {
    if ss == [] then (st, Ok(acc))
    else
      var first := Exec(st, ss[0]);
      if first.1.Err? then (first.0, Err(first.1.error))
      else
        var rest := ExecSeq(first.0, ss[1..], acc + [first.1.value]);
        assert rest.1.Ok? ==> rest.1.value[..|acc|] == rest.1.value[..|acc| + 1][..|acc|];
        assert forall k :: 1 <= k < |ss| ==> ss[k] == ss[1..][k - 1];
        rest
  }

  /**
   * On a shape statement whose parameters this evaluator accepts, run
   * outside any loop, the interpreter of interpreter.mjs stores the same
   * shape under the same name as this one, and leaves the same value.
   */
  lemma {:induction false} LaterShapeAgrees(st: Store, s: Stmt)
    requires WellFormed(st) && s.ShapeDecl?
    requires forall k :: 0 <= k < |s.params| ==> Accepted(s.params[k].1)
    ensures var later := Later.Exec(Later.World(st, map[], [], false, 0), s);
            later.0.store == Exec(st, s).0 && later.1 == (if Exec(st, s).1.Ok? then Ok(Some(Exec(st, s).1.value)) else Err(Exec(st, s).1.error))
  {
    LaterParamsAgree(map[], s.params);
  }

  lemma {:induction false} LaterParamsAgree(acc: map<string, Value>, ps: seq<(string, Expr)>)
    requires forall k :: 0 <= k < |ps| ==> Accepted(ps[k].1)
    ensures Later.EvalParams(Later.Bindings(map[], []), acc, ps) == EvalParams(acc, ps)
    decreases |ps|
  {
    if ps != [] {
      LaterEvaluatorAgrees(ps[0].1);
      assert forall k :: 0 <= k < |ps[1..]| ==> ps[1..][k] == ps[k + 1];
      if Eval(ps[0].1).Ok? {
        LaterParamsAgree(acc[ps[0].0 := Eval(ps[0].1).value], ps[1..]);
      }
    }
  }

  /**
   * The environment of interpreter.js: shapes, layers and the current
   * layer, referring to objects by their index in the object tables.
   */
  class Environment {
    var shapes: map<string, nat>
    var layers: map<string, nat>
    var currentLayer: Option<nat>
    /** Every shape and layer object created so far, in creation order. */
    var shapeTable: seq<ShapeVal>
    var layerTable: seq<LayerVal>

    /** The scene the environment holds. */
    function Contents(): Store
      reads this
    {
      Store(shapeTable, layerTable, shapes, layers, currentLayer)
    }

    /** Every reference the environment holds denotes an object. */
    predicate Valid()
      reads this
    {
      WellFormed(Contents())
    }

    constructor ()
      ensures Valid() && Contents() == EmptyStore
    {
      shapes := map[];
      layers := map[];
      currentLayer := None;
      shapeTable := [];
      layerTable := [];
    }

    /**
     * `createShape`: the parameters are validated, then the shape is stored
     * under its name, replacing any shape of that name, and joins the
     * current layer if there is one.
     */
    method CreateShape(shapeType: string, name: string, params: map<string, Value>)
      returns (r: Result<nat, RuntimeError>)
      requires Valid()
      modifies this
      ensures Valid()
      ensures (Contents(), ShapeOutcome(r)) == CreateShapeIn(old(Contents()), shapeType, name, params)
    {
      var valid := CheckRequiredParams(shapeType, params);
      if valid.Err? {
        return Err(valid.error);
      }
      var shape := ShapeVal(shapeType, name, NormalizeParams(shapeType, params), InitialTransform(params));
      var id := |shapeTable|;
      shapeTable := shapeTable + [shape];
      shapes := shapes[name := id];
      if currentLayer.Some? {
        var c := currentLayer.value;
        var layer := layerTable[c];
        layerTable := layerTable[c := layer.(state := layer.state.(members := layer.state.members[name := id]))];
      }
      return Ok(id);
    }

    /** `createLayer`: a new, empty layer is stored under its name, replacing any other, and becomes current. */
    method CreateLayer(name: string) returns (layer: nat)
      requires Valid()
      modifies this
      ensures Valid()
      ensures (Contents(), layer) == StoreLayer(old(Contents()), name)
    {
      layer := |layerTable|;
      layerTable := layerTable + [LayerVal(name, LayerState(map[], [], IdentityTransform))];
      layers := layers[name := layer];
      currentLayer := Some(layer);
    }

    /** `getShape`: the stored shape, or "Shape ... not found". */
    function GetShape(name: string): (r: Result<nat, RuntimeError>)
      reads this
      ensures r.Ok? <==> name in shapes
      ensures r.Ok? ==> r.value == shapes[name]
      ensures r.Err? ==> r.error == ShapeNotFound(name)
    {
      if name in shapes then Ok(shapes[name]) else Err(ShapeNotFound(name))
    }

    /** `addToLayer`: the layer must exist, then the shape; the shape becomes a member under its name. */
    method AddToLayer(layerName: string, shapeName: string) returns (r: Result<nat, RuntimeError>)
      requires Valid()
      modifies this
      ensures Valid()
      ensures (Contents(), LayerOutcome(r)) == AddMember(old(Contents()), layerName, shapeName)
    {
      if layerName !in layers {
        return Err(LayerNotFound(layerName));
      }
      var shape := GetShape(shapeName);
      if shape.Err? {
        return Err(shape.error);
      }
      var id := layers[layerName];
      var layer := layerTable[id];
      layerTable := layerTable[id := layer.(state := layer.state.(members := layer.state.members[shapeName := shape.value]))];
      return Ok(id);
    }

    /** `subtractFromLayer`: the layer must exist, then the shape; the shape is appended to the layer's operations. */
    method SubtractFromLayer(layerName: string, shapeName: string) returns (r: Result<nat, RuntimeError>)
      requires Valid()
      modifies this
      ensures Valid()
      ensures (Contents(), LayerOutcome(r)) == AddOperation(old(Contents()), layerName, shapeName)
    {
      if layerName !in layers {
        return Err(LayerNotFound(layerName));
      }
      var shape := GetShape(shapeName);
      if shape.Err? {
        return Err(shape.error);
      }
      var id := layers[layerName];
      var layer := layerTable[id];
      layerTable := layerTable[id := layer.(state := layer.state.(operations := layer.state.operations + [shape.value]))];
      return Ok(id);
    }

    /** `applyTransform`: as in interpreter.mjs, with this module's evaluator. */
    method ApplyTransform(target: string, ops: seq<(string, Expr)>) returns (r: Result<Res, RuntimeError>)
      requires Valid()
      modifies this
      ensures Valid()
      ensures (Contents(), r) == TransformTarget(old(Contents()), EvalFn(), target, ops)
    {
      if target in shapes {
        var id := shapes[target];
        var t, err := RunTransformOps(shapeTable[id].transform, EvalFn(), ops);
        shapeTable := shapeTable[id := shapeTable[id].(transform := t)];
        if err.Some? {
          return Err(err.value);
        }
        return Ok(ShapeR(id));
      } else if target in layers {
        var id := layers[target];
        var t, err := RunTransformOps(layerTable[id].state.transform, EvalFn(), ops);
        layerTable := layerTable[id := layerTable[id].(state := layerTable[id].state.(transform := t))];
        if err.Some? {
          return Err(err.value);
        }
        return Ok(LayerR(id));
      }
      return Err(TargetNotFound(target));
    }
  }

  class Interpreter {
    const env: Environment

    constructor ()
      ensures fresh(env) && env.Valid() && env.Contents() == EmptyStore
    {
      env := new Environment();
    }

    /** `interpret`: every statement contributes one value, in order. */
    method Interpret(ast: seq<Stmt>) returns (r: Result<seq<Res>, RuntimeError>)
      requires env.Valid()
      modifies env
      ensures env.Valid()
      ensures (env.Contents(), r) == ExecSeq(old(env.Contents()), ast, [])
    {
      var results := [];
      var i := 0;
      while i < |ast|
        invariant 0 <= i <= |ast| && env.Valid()
        invariant ExecSeq(old(env.Contents()), ast, []) == ExecSeq(env.Contents(), ast[i..], results)
      {
        assert ast[i..][0] == ast[i] && ast[i..][1..] == ast[i + 1..];
        var res := EvaluateNode(ast[i]);
        if res.Err? {
          return Err(res.error);
        }
        results := results + [res.value];
        i := i + 1;
      }
      return Ok(results);
    }

    /** `evaluateNode`: only shape, layer and transform statements; any other type is unknown. */
    method EvaluateNode(node: Stmt) returns (r: Result<Res, RuntimeError>)
      requires env.Valid()
      modifies env
      ensures env.Valid()
      ensures (env.Contents(), r) == Exec(old(env.Contents()), node)
    {
      match node
      case ShapeDecl(_, _, _) =>
        var s := EvaluateShape(node);
        r := ShapeOutcome(s);
      case LayerDecl(_, _) =>
        var l := EvaluateLayer(node);
        r := LayerOutcome(l);
      case TransformDecl(target, ops) =>
        r := env.ApplyTransform(target, ops);
      case _ =>
        r := Err(UnknownNodeType(StmtTypeName(node)));
    }

    /** `evaluateShape`: the parameters are evaluated in order, then `createShape` runs. */
    method EvaluateShape(node: Stmt) returns (r: Result<nat, RuntimeError>)
      requires node.ShapeDecl? && env.Valid()
      modifies env
      ensures env.Valid()
      ensures (env.Contents(), ShapeOutcome(r)) == Exec(old(env.Contents()), node)
    {
      var params := map[];
      var i := 0;
      while i < |node.params|
        invariant 0 <= i <= |node.params|
        invariant EvalParams(map[], node.params) == EvalParams(params, node.params[i..])
      {
        assert node.params[i..][0] == node.params[i] && node.params[i..][1..] == node.params[i + 1..];
        var v := Eval(node.params[i].1);
        if v.Err? {
          return Err(v.error);
        }
        params := params[node.params[i].0 := v.value];
        i := i + 1;
      }
      assert EvalParams(params, node.params[i..]) == Ok(params);
      r := env.CreateShape(node.shapeType, node.name, params);
    }

    /** `evaluateLayer`: as in interpreter.mjs, except that the rotation command is spelt `rotate`. */
    method EvaluateLayer(node: Stmt) returns (r: Result<nat, RuntimeError>)
      requires node.LayerDecl? && env.Valid()
      modifies env
      ensures env.Valid()
      ensures (env.Contents(), LayerOutcome(r)) == LayerBlock(old(env.Contents()), EvalFn(), "rotate", node.name, node.commands)
    {
      ghost var before := env.Contents();
      var layer := env.CreateLayer(node.name);
      ghost var created := env.Contents();
      ghost var start := LayerState(map[], [], IdentityTransform);
      ghost var ls := start;
      var i := 0;
      while i < |node.commands|
        invariant 0 <= i <= |node.commands| && env.Valid()
        invariant layer < |created.layerObjs| && env.Contents() == SetLayerState(created, layer, ls)
        invariant RunLayerCommands(EvalFn(), "rotate", before.shapes, start, node.commands) ==
                  RunLayerCommands(EvalFn(), "rotate", before.shapes, ls, node.commands[i..])
      {
        var command := node.commands[i];
        assert node.commands[i..][0] == command && node.commands[i..][1..] == node.commands[i + 1..];
        var done := EvaluateLayerCommand(node.name, layer, command, created, ls);
        if done.Err? {
          return Err(done.error);
        }
        ls := LayerStep(EvalFn(), "rotate", created.shapes, ls, command).value;
        i := i + 1;
      }
      return Ok(layer);
    }

    /**
     * One command of a layer block, against the block's layer `layer`, stored
     * under `name`, whose contents are `ls`: `add` and `subtract` go through
     * the environment, and the transform settings assign the layer's
     * transform fields in place.
     */
    method EvaluateLayerCommand(name: string, layer: nat, command: Command, ghost created: Store, ghost ls: LayerState<nat>)
      returns (r: Result<(), RuntimeError>)
      requires env.Valid() && WellFormed(created) && layer < |created.layerObjs|
      requires name in created.layers && created.layers[name] == layer
      requires env.Contents() == SetLayerState(created, layer, ls)
      modifies env
      ensures env.Valid()
      ensures var step := LayerStep(EvalFn(), "rotate", created.shapes, ls, command);
              (r.Ok? <==> step.Ok?) &&
              (r.Err? ==> r.error == step.error && env.Contents() == old(env.Contents())) &&
              (r.Ok? ==> env.Contents() == SetLayerState(created, layer, step.value))
    {
      match command {
      case AddShape(shapeName) =>
        var added := env.AddToLayer(name, shapeName);
        if added.Err? {
          return Err(added.error);
        }
      case SubtractShape(shapeName) =>
        var subtracted := env.SubtractFromLayer(name, shapeName);
        if subtracted.Err? {
          return Err(subtracted.error);
        }
      case Setting(kind, value) =>
        if kind == "add" || kind == "subtract" {
          return Err(ShapeNotFound("undefined"));
        } else if kind == "rotate" || kind == "scale" || kind == "position" {
          var v := Eval(value);
          if v.Err? {
            return Err(v.error);
          }
          var t := env.layerTable[layer].state.transform;
          if kind == "rotate" {
            t := t.(rotation := v.value);
          } else if kind == "scale" {
            t := t.(scale := (v.value, v.value));
          } else {
            t := t.(position := v.value);
          }
          env.layerTable := env.layerTable[layer := env.layerTable[layer].(state := env.layerTable[layer].state.(transform := t))];
        } else {
          return Err(UnknownLayerCommand(kind));
        }
      }
      return Ok(());
    }
  }
}
