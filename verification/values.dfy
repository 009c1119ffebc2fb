// The JavaScript values the Aqui interpreters compute with, the operators
// they apply to them, and the per-shape-type parameter tables.

module Values {
  import opened Common

  /**
   * A JavaScript value produced by evaluating an Aqui expression. Numbers are
   * exact reals: NaN, the infinities and floating-point rounding are outside
   * the model (see `NotModelled`).
   */
  datatype Value = Num(n: real) | Str(s: string) | Bool(b: bool) | Arr(items: seq<Value>)

  /** JavaScript truthiness. Every array, even an empty one, is an object and so truthy. */
  predicate Truthy(v: Value)
  {
    match v
    case Num(x) => x != 0.0
    case Str(s) => s != ""
    case Bool(b) => b
    case Arr(_) => true
  }

  /** What an evaluation or an interpreter step throws. */
  datatype RuntimeError =
    | InvalidExpression                        // the expression is not a node object
    | UnknownExpressionType(typeName: string)
    | NotAFunction(member: string)             // a call of a method that does not exist
    | UnknownBinaryOperator(op: string)
    | DivisionByZero
    | UnknownLogicalOperator(op: string)
    | UnknownComparisonOperator(op: string)
    | UnknownUnaryOperator(op: string)
    | MissingParameter(shapeType: string, param: string)
    | NotIterable
    | ParameterNotFound(name: string)
    | ShapeNotFound(shape: string)
    | LayerNotFound(layer: string)
    | TargetNotFound(target: string)
    | PositionNot2D
    | UnknownTransformOperation(op: string)
    | UnknownLayerCommand(command: string)
    | UnknownNodeType(typeName: string)
    /** The JavaScript result exists but lies outside this model (NaN, Infinity, string/number coercion). */
    | NotModelled(what: string)

  /** A `try`/`catch` catches what JavaScript throws; `NotModelled` is not a JavaScript error. */
  predicate Thrown(e: RuntimeError) { !e.NotModelled? }

  // ---- operators ----------------------------------------------------------

  /** `ToNumber` on the values whose conversion the model covers. */
  function ToNumber(v: Value): Option<real>
  {
    match v
    case Num(x) => Some(x)
    case Bool(b) => Some(if b then 1.0 else 0.0)
    case _ => None
  }

  /** `left + right`: concatenation of two strings, otherwise numeric addition. */
  function Plus(left: Value, right: Value): Result<Value, RuntimeError>
  {
    if left.Str? && right.Str? then Ok(Str(left.s + right.s))
    else if left.Str? || right.Str? || left.Arr? || right.Arr? then Err(NotModelled("string conversion"))
    else Ok(Num(ToNumber(left).value + ToNumber(right).value))
  }

  /** `-`, `*` and `/` convert both operands to numbers. */
  function Numeric(op: string, left: Value, right: Value): Result<Value, RuntimeError>
    requires op in {"minus", "multiply", "divide"}
  {
    match (ToNumber(left), ToNumber(right))
    case (Some(x), Some(y)) =>
      if op == "minus" then Ok(Num(x - y))
      else if op == "multiply" then Ok(Num(x * y))
      else if y == 0.0 then Err(NotModelled("division giving Infinity or NaN"))
      else Ok(Num(x / y))
    case _ => Err(NotModelled("number conversion"))
  }

  /**
   * `evaluateBinaryOp` once both operands are values (interpreter.mjs:252-266,
   * interpreter.js:199-213): only a right operand that is strictly equal to 0
   * raises "Division by zero".
   */
  function BinaryOperator(op: string, left: Value, right: Value): (r: Result<Value, RuntimeError>)
    ensures r == Err(DivisionByZero) <==> op == "divide" && right == Num(0.0)
    ensures r.Err? && r.error.UnknownBinaryOperator? <==> op !in {"plus", "minus", "multiply", "divide"}
    ensures op in {"minus", "multiply", "divide"} && r.Ok? ==> r.value.Num?
  {
    if op == "plus" then Plus(left, right)
    else if op == "minus" || op == "multiply" then Numeric(op, left, right)
    else if op == "divide" then
      if right == Num(0.0) then Err(DivisionByZero) else Numeric(op, left, right)
    else Err(UnknownBinaryOperator(op))
  }

  /** `===`: arrays are objects, and every array the evaluator builds is a fresh one. */
  predicate StrictEquals(a: Value, b: Value)
  {
    match (a, b)
    case (Num(x), Num(y)) => x == y
    case (Str(s), Str(t)) => s == t
    case (Bool(p), Bool(q)) => p == q
    case _ => false
  }

  /** Lexicographic order of strings, character by character. */
  predicate StringLess(s: string, t: string)
    decreases |s|
  {
    if s == [] then t != []
    else if t == [] then false
    else if s[0] != t[0] then s[0] < t[0]
    else StringLess(s[1..], t[1..])
  }

  /** `a < b` for two strings or two numbers (booleans read as 0 and 1). */
  function Less(a: Value, b: Value): Result<bool, RuntimeError>
  {
    if a.Str? && b.Str? then Ok(StringLess(a.s, b.s))
    else match (ToNumber(a), ToNumber(b))
      case (Some(x), Some(y)) => Ok(x < y)
      case _ => Err(NotModelled("relational comparison with conversion"))
  }

  /** `evaluateUnaryOp`'s arithmetic cases. */
  function NumericUnary(op: string, v: Value): Result<Value, RuntimeError>
    requires op in {"minus", "plus"}
  {
    match ToNumber(v)
    case Some(x) => Ok(Num(if op == "minus" then -x else x))
    case None => Err(NotModelled("number conversion"))
  }

  // ---- transforms ---------------------------------------------------------

  /** `{position, rotation, scale: [sx, sy]}` of a shape or a layer. */
  datatype ShapeTransform = ShapeTransform(position: Value, rotation: Value, scale: (Value, Value))

  /** `{position: [0, 0], rotation: 0, scale: [1, 1]}` */
  const IdentityTransform := ShapeTransform(Arr([Num(0.0), Num(0.0)]), Num(0.0), (Num(1.0), Num(1.0)))

  /** `params[key] || fallback` */
  function OrDefault(params: map<string, Value>, key: string, fallback: Value): (r: Value)
    ensures key in params && Truthy(params[key]) ==> r == params[key]
    ensures !(key in params && Truthy(params[key])) ==> r == fallback
  {
    if key in params && Truthy(params[key]) then params[key] else fallback
  }
}

/**
 * The per-shape-type tables that both interpreters share: required
 * parameters, defaults, and the transform a new shape starts with
 * (interpreter.mjs:26-103; interpreter.js:10-83 holds the same tables).
 */
module ShapeRules {
  import opened Common
  import opened Values

  /** Property names every JavaScript object inherits from `Object.prototype`. */
  const PrototypeKeys: set<string> := {
    "constructor", "hasOwnProperty", "isPrototypeOf", "propertyIsEnumerable",
    "toLocaleString", "toString", "valueOf", "__proto__",
    "__defineGetter__", "__defineSetter__", "__lookupGetter__", "__lookupSetter__"
  }

  /** `requiredParams[shapeType]` in `validateShapeParams`. */
  function RequiredParams(shapeType: string): Option<seq<string>>
  {
    match shapeType
    case "rectangle" => Some(["width", "height"])
    case "circle" => Some(["radius"])
    case "triangle" => Some(["base", "height"])
    case "ellipse" => Some(["radiusX", "radiusY"])
    case "text" => Some(["content"])
    case "gear" => Some(["diameter", "teeth"])
    case "star" => Some(["outerRadius", "innerRadius", "points"])
    case "arc" => Some(["radius", "startAngle", "endAngle"])
    case "spiral" => Some(["startRadius", "endRadius", "turns"])
    case "cross" => Some(["width", "thickness"])
    case "slot" => Some(["length", "width"])
    case "path" => Some(["points"])
    case "wave" => Some(["width", "amplitude", "frequency"])
    case "donut" => Some(["outerRadius", "innerRadius"])
    case _ => None
  }

  /** The first name of `required` that `params` lacks. */
  function FirstMissing(required: seq<string>, params: map<string, Value>): (r: Option<nat>)
    ensures r.Some? ==> r.value < |required| && required[r.value] !in params
                        && forall k :: 0 <= k < r.value ==> required[k] in params
    ensures r.None? ==> forall k :: 0 <= k < |required| ==> required[k] in params
  {
    if required == [] then None
    else if required[0] !in params then Some(0)
    else match FirstMissing(required[1..], params)
      case None => None
      case Some(k) => Some(k + 1)
  }

  /**
   * `validateShapeParams`: the first required parameter missing from
   * `params`, in table order, is reported. A type with no table passes,
   * except a name `Object.prototype` provides, whose table entry is not
   * iterable.
   */
  function ValidateShapeParams(shapeType: string, params: map<string, Value>): (r: Result<(), RuntimeError>)
    ensures r.Ok? <==>
              shapeType !in PrototypeKeys &&
              (RequiredParams(shapeType).Some? ==> forall p :: p in RequiredParams(shapeType).value ==> p in params)
    ensures r.Err? && r.error.MissingParameter? ==>
      r.error.shapeType == shapeType && r.error.param !in params &&
      RequiredParams(shapeType).Some? && r.error.param in RequiredParams(shapeType).value
  {
    if shapeType in PrototypeKeys then Err(NotIterable)
    else match RequiredParams(shapeType)
      case None => Ok(())
      case Some(required) =>
        match FirstMissing(required, params)
        case None => Ok(())
        case Some(k) => Err(MissingParameter(shapeType, required[k]))
  }

  /** The loop of `validateShapeParams` over the required names, in table order. */
  method CheckRequiredParams(shapeType: string, params: map<string, Value>) returns (r: Result<(), RuntimeError>)
    ensures r == ValidateShapeParams(shapeType, params)
  {
    if shapeType in PrototypeKeys {
      return Err(NotIterable);
    }
    var table := RequiredParams(shapeType);
    if table.None? {
      return Ok(());
    }
    var required := table.value;
    var i := 0;
    while i < |required|
      invariant 0 <= i <= |required|
      invariant forall k :: 0 <= k < i ==> required[k] in params
    {
      if required[i] !in params {
        return Err(MissingParameter(shapeType, required[i]));
      }
      i := i + 1;
    }
    return Ok(());
  }

  /** `defaults[shapeType]` in `normalizeParams`. */
  function Defaults(shapeType: string): Option<map<string, Value>>
  {
    match shapeType
    case "rectangle" => Some(map["width" := Num(100.0), "height" := Num(100.0)])
    case "circle" => Some(map["radius" := Num(50.0)])
    case "text" => Some(map["fontSize" := Num(16.0)])
    case "gear" => Some(map["teeth" := Num(12.0)])
    case "star" => Some(map["points" := Num(5.0)])
    case "spiral" => Some(map["turns" := Num(2.0)])
    case "wave" => Some(map["frequency" := Num(1.0)])
    case _ => None
  }

  /**
   * `normalizeParams`: every supplied parameter keeps its value, and a
   * default fills a parameter only when it was not supplied.
   */
  function NormalizeParams(shapeType: string, params: map<string, Value>): (r: map<string, Value>)
    ensures forall k :: k in params ==> k in r && r[k] == params[k]
    ensures Defaults(shapeType).Some? ==>
      forall k :: k in Defaults(shapeType).value && k !in params ==> k in r && r[k] == Defaults(shapeType).value[k]
    ensures forall k :: k in r ==> k in params || (Defaults(shapeType).Some? && k in Defaults(shapeType).value)
  {
    match Defaults(shapeType)
    case None => params
    case Some(defaults) => defaults + params
  }

  /** The transform a new shape starts with: `position || [0, 0]`, `rotation || 0`, `[scaleX || 1, scaleY || 1]`. */
  function InitialTransform(params: map<string, Value>): ShapeTransform
  {
    ShapeTransform(
      OrDefault(params, "position", IdentityTransform.position),
      OrDefault(params, "rotation", IdentityTransform.rotation),
      (OrDefault(params, "scaleX", Num(1.0)), OrDefault(params, "scaleY", Num(1.0))))
  }

  /** A zero scale is falsy, so `scaleX || 1` turns it into 1. */
  lemma ZeroScaleBecomesOne(params: map<string, Value>)
    requires "scaleX" in params && params["scaleX"] == Num(0.0)
    ensures InitialTransform(params).scale.0 == Num(1.0)
  {
  }
}
