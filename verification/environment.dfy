// The parameter/shape/layer store of environment.mjs: three independent
// maps, updated in place.

module SceneStore {
  import opened Common
  import opened Values

  /** A stored shape: `type`, a shallow copy of `params`, and its transform. The `Date.now()` id is left out. */
  datatype StoredShape = StoredShape(kind: string, params: map<string, Value>, transform: ShapeTransform)

  /** A stored layer: its name, member shapes, operations and transform. */
  datatype StoredLayer = StoredLayer(name: string, shapes: map<string, StoredShape>, operations: seq<StoredShape>,
                                     transform: ShapeTransform)

  /**
   * The shape `createShape` builds: the transform takes `params.position`
   * when that is truthy and `[0, 0]` otherwise, and always starts unrotated
   * and unscaled, whatever `params` says about rotation or scale.
   */
  function NewShape(kind: string, params: map<string, Value>): (s: StoredShape)
    ensures s.kind == kind && s.params == params
    ensures s.transform.rotation == Num(0.0) && s.transform.scale == (Num(1.0), Num(1.0))
    ensures "position" in params && Truthy(params["position"]) ==> s.transform.position == params["position"]
    ensures !("position" in params && Truthy(params["position"])) ==> s.transform.position == Arr([Num(0.0), Num(0.0)])
  {
    StoredShape(kind, params, ShapeTransform(OrDefault(params, "position", IdentityTransform.position),
                                             Num(0.0), (Num(1.0), Num(1.0))))
  }

  /** The layer `createLayer` builds: no shapes, no operations, the identity transform. */
  function NewLayer(name: string): (l: StoredLayer)
    ensures l.name == name && l.shapes == map[] && l.operations == [] && l.transform == IdentityTransform
  {
    StoredLayer(name, map[], [], IdentityTransform)
  }

  class Environment {
    var parameters: map<string, Value>
    var shapes: map<string, StoredShape>
    var layers: map<string, StoredLayer>

    constructor()
      ensures parameters == map[] && shapes == map[] && layers == map[]
    {
      parameters, shapes, layers := map[], map[], map[];
    }

    /** `getParameter`: the bound value, or "Parameter not found". */
    method GetParameter(name: string) returns (r: Result<Value, RuntimeError>)
      ensures r.Ok? <==> name in parameters
      ensures r.Ok? ==> r.value == parameters[name]
      ensures r.Err? ==> r.error == ParameterNotFound(name)
    {
      if name !in parameters {
        return Err(ParameterNotFound(name));
      }
      return Ok(parameters[name]);
    }

    /** `setParameter`: binds `name`, leaving the other parameters and both other maps as they were. */
    method SetParameter(name: string, value: Value)
      modifies this
      ensures parameters == old(parameters)[name := value]
      ensures shapes == old(shapes) && layers == old(layers)
    {
      parameters := parameters[name := value];
    }

    /** `createShape`: stores the new shape under `name`, replacing any shape of that name. */
    method CreateShape(kind: string, name: string, params: map<string, Value>) returns (shape: StoredShape)
      modifies this
      ensures shape == NewShape(kind, params)
      ensures shapes == old(shapes)[name := shape]
      ensures parameters == old(parameters) && layers == old(layers)
    {
      shape := NewShape(kind, params);
      shapes := shapes[name := shape];
    }

    /** `getShape`: the stored shape, or "Shape not found". */
    method GetShape(name: string) returns (r: Result<StoredShape, RuntimeError>)
      ensures r.Ok? <==> name in shapes
      ensures r.Ok? ==> r.value == shapes[name]
      ensures r.Err? ==> r.error == ShapeNotFound(name)
    {
      if name !in shapes {
        return Err(ShapeNotFound(name));
      }
      return Ok(shapes[name]);
    }

    /** `createLayer`: stores a fresh empty layer under `name`, replacing any layer of that name. */
    method CreateLayer(name: string) returns (layer: StoredLayer)
      modifies this
      ensures layer == NewLayer(name)
      ensures layers == old(layers)[name := layer]
      ensures parameters == old(parameters) && shapes == old(shapes)
    {
      layer := NewLayer(name);
      layers := layers[name := layer];
    }
  }

  /** After `setParameter(n, v)`, `getParameter(n)` returns v and every other name reads as before. */
  method SetThenGet(env: Environment, name: string, other: string, value: Value)
    returns (r: Result<Value, RuntimeError>, s: Result<Value, RuntimeError>)
    modifies env
    ensures r == Ok(value)
    ensures other != name ==> s.Ok? == (other in old(env.parameters))
    ensures other != name && s.Ok? ==> s.value == old(env.parameters)[other]
  {
    env.SetParameter(name, value);
    r := env.GetParameter(name);
    s := env.GetParameter(other);
  }
}
