// The scene objects both interpreters build (interpreter.mjs and
// interpreter.js). Shapes and layers are JavaScript objects shared by
// reference between the environment's maps and the layers' maps, and their
// `transform` objects are updated in place. Here every object created so far
// is an entry of an object table, and a reference is its index in the table:
// two map entries share an object exactly when they hold the same index, and
// updating an object in place replaces its table entry.

module Scene {
  import opened Common
  import opened Values
  import opened Ast

  // ---- transform operations (applyTransform) ----------------------------------

  predicate IsTransformOp(kind: string)
  {
    kind == "scale" || kind == "rotate" || kind == "position"
  }

  /**
   * One operation of `applyTransform`: `scale` sets both factors to the value,
   * `rotate` replaces the rotation, `position` replaces the position with a
   * two-element array. An unknown kind throws before its value is evaluated.
   */
  function TransformStep(eval: Expr -> Result<Value, RuntimeError>, t: ShapeTransform, op: (string, Expr))
    : (r: Result<ShapeTransform, RuntimeError>)
    ensures !IsTransformOp(op.0) ==> r == Err(UnknownTransformOperation(op.0))
    ensures IsTransformOp(op.0) && eval(op.1).Err? ==> r == Err(eval(op.1).error)
    ensures r.Ok? && op.0 == "scale" ==>
              r.value == t.(scale := (eval(op.1).value, eval(op.1).value))
    ensures r.Ok? && op.0 == "rotate" ==> r.value == t.(rotation := eval(op.1).value)
    ensures op.0 == "position" && eval(op.1).Ok? ==>
              (r.Ok? <==> eval(op.1).value.Arr? && |eval(op.1).value.items| == 2)
    ensures r.Ok? && op.0 == "position" ==> r.value == t.(position := eval(op.1).value)
  {
    if !IsTransformOp(op.0) then Err(UnknownTransformOperation(op.0))
    else
      var v :- eval(op.1);
      if op.0 == "scale" then Ok(t.(scale := (v, v)))
      else if op.0 == "rotate" then Ok(t.(rotation := v))
      else if v.Arr? && |v.items| == 2 then Ok(t.(position := v))
      else Err(PositionNot2D)
  }

  /**
   * The operations applied in order. The result is the transform after the
   * operations that completed, and the error that stopped the rest: an
   * operation that throws leaves the earlier updates in place.
   */
  function ApplyOps(eval: Expr -> Result<Value, RuntimeError>, t: ShapeTransform, ops: seq<(string, Expr)>)
    : (ShapeTransform, Option<RuntimeError>)
    decreases |ops|
  {
    if ops == [] then (t, None)
    else match TransformStep(eval, t, ops[0])
      case Err(e) => (t, Some(e))
      case Ok(t') => ApplyOps(eval, t', ops[1..])
  }

  /** Applying `a + b` is applying `a`, then, if nothing threw, `b`. */
  lemma {:induction false} ApplyOpsAppend(eval: Expr -> Result<Value, RuntimeError>, t: ShapeTransform,
                                          a: seq<(string, Expr)>, b: seq<(string, Expr)>)
    ensures ApplyOps(eval, t, a + b) ==
            (if ApplyOps(eval, t, a).1.None? then ApplyOps(eval, ApplyOps(eval, t, a).0, b) else ApplyOps(eval, t, a))
    decreases |a|
  {
    if a == [] {
      assert a + b == b;
    } else {
      assert (a + b)[0] == a[0] && (a + b)[1..] == a[1..] + b;
      match TransformStep(eval, t, a[0])
      case Err(_) =>
      case Ok(t') => ApplyOpsAppend(eval, t', a[1..], b);
    }
  }

  /** Of two `rotate` operations that both succeed, only the later one's value remains. */
  lemma RotateReplaces(eval: Expr -> Result<Value, RuntimeError>, t: ShapeTransform, e1: Expr, e2: Expr)
    requires eval(e1).Ok? && eval(e2).Ok?
    ensures ApplyOps(eval, t, [("rotate", e1), ("rotate", e2)]) == (t.(rotation := eval(e2).value), None)
  {
    var t1 := t.(rotation := eval(e1).value);
    assert TransformStep(eval, t, ("rotate", e1)) == Ok(t1);
    assert [("rotate", e1), ("rotate", e2)][1..] == [("rotate", e2)];
    var t2 := t.(rotation := eval(e2).value);
    assert TransformStep(eval, t1, ("rotate", e2)) == Ok(t2);
    assert [("rotate", e2)][1..] == [];
    assert ApplyOps(eval, t1, [("rotate", e2)]) == ApplyOps(eval, t2, []);
  }

  /**
   * The loop of `applyTransform` over the operations, assigning a field of
   * the target's transform at each one; an operation that throws leaves the
   * earlier assignments in place.
   */
  method RunTransformOps(t: ShapeTransform, eval: Expr -> Result<Value, RuntimeError>, ops: seq<(string, Expr)>)
    returns (current: ShapeTransform, err: Option<RuntimeError>)
    ensures (current, err) == ApplyOps(eval, t, ops)
  {
    current := t;
    var i := 0;
    while i < |ops|
      invariant 0 <= i <= |ops|
      invariant ApplyOps(eval, t, ops) == ApplyOps(eval, current, ops[i..])
    {
      var op := ops[i];
      assert ops[i..][0] == op && ops[i..][1..] == ops[i + 1..];
      if !IsTransformOp(op.0) {
        return current, Some(UnknownTransformOperation(op.0));
      }
      var value := eval(op.1);
      if value.Err? {
        return current, Some(value.error);
      }
      var v := value.value;
      if op.0 == "scale" {
        current := current.(scale := (v, v));
      } else if op.0 == "rotate" {
        current := current.(rotation := v);
      } else {
        if !(v.Arr? && |v.items| == 2) {
          return current, Some(PositionNot2D);
        }
        current := current.(position := v);
      }
      i := i + 1;
    }
    assert ops[i..] == [];
    return current, None;
  }

  // ---- layer commands (evaluateLayer) -------------------------------------------

  /** What the commands of a layer block build up: member shapes, `subtract` operations, transform. */
  datatype LayerState<S> = LayerState(members: map<string, S>, operations: seq<S>, transform: ShapeTransform)

  /**
   * One command of a layer block. `add` stores the named shape among the
   * members, `subtract` appends it to the operations; both throw when no shape
   * has that name. `rotateKey` (`rotation` in interpreter.mjs, `rotate` in
   * interpreter.js), `scale` and `position` set the layer's transform, with no
   * check on the position's shape; any other command throws. A property
   * command that reads `add` or `subtract` has no `shape`, and looking up
   * `undefined` fails.
   */
  function LayerStep<S>(eval: Expr -> Result<Value, RuntimeError>, rotateKey: string,
                        shapes: map<string, S>, st: LayerState<S>, cmd: Command)
    : (r: Result<LayerState<S>, RuntimeError>)
    ensures cmd.AddShape? ==>
              r == (if cmd.shape in shapes then Ok(st.(members := st.members[cmd.shape := shapes[cmd.shape]]))
                    else Err(ShapeNotFound(cmd.shape)))
    ensures cmd.SubtractShape? ==>
              r == (if cmd.shape in shapes then Ok(st.(operations := st.operations + [shapes[cmd.shape]]))
                    else Err(ShapeNotFound(cmd.shape)))
    ensures r.Ok? && cmd.Setting? ==> r.value.members == st.members && r.value.operations == st.operations
  {
    match cmd
    case AddShape(name) =>
      if name in shapes then Ok(st.(members := st.members[name := shapes[name]])) else Err(ShapeNotFound(name))
    case SubtractShape(name) =>
      if name in shapes then Ok(st.(operations := st.operations + [shapes[name]])) else Err(ShapeNotFound(name))
    case Setting(kind, value) =>
      if kind == "add" || kind == "subtract" then Err(ShapeNotFound("undefined"))
      else if kind == rotateKey then
        var v :- eval(value);
        Ok(st.(transform := st.transform.(rotation := v)))
      else if kind == "scale" then
        var v :- eval(value);
        Ok(st.(transform := st.transform.(scale := (v, v))))
      else if kind == "position" then
        var v :- eval(value);
        Ok(st.(transform := st.transform.(position := v)))
      else Err(UnknownLayerCommand(kind))
  }

  /** The commands run in order; the state after those that completed, and the error that stopped the rest. */
  function RunLayerCommands<S>(eval: Expr -> Result<Value, RuntimeError>, rotateKey: string,
                               shapes: map<string, S>, st: LayerState<S>, cmds: seq<Command>)
    : (LayerState<S>, Option<RuntimeError>)
    decreases |cmds|
  {
    if cmds == [] then (st, None)
    else match LayerStep(eval, rotateKey, shapes, st, cmds[0])
      case Err(e) => (st, Some(e))
      case Ok(st') => RunLayerCommands(eval, rotateKey, shapes, st', cmds[1..])
  }

  /** The shapes `subtract` commands name, in order. */
  function Subtracted(cmds: seq<Command>): seq<string>
  {
    if cmds == [] then []
    else (if cmds[0].SubtractShape? then [cmds[0].shape] else []) + Subtracted(cmds[1..])
  }

  /**
   * When a layer block completes, every shape an `add` names is a member,
   * bound to the environment's shape of that name, and every earlier member
   * is still there.
   */
  lemma {:induction false} LayerAddsMembers<S>(eval: Expr -> Result<Value, RuntimeError>, rotateKey: string,
                                               shapes: map<string, S>, st: LayerState<S>, cmds: seq<Command>)
    requires RunLayerCommands(eval, rotateKey, shapes, st, cmds).1.None?
    ensures forall k :: 0 <= k < |cmds| && cmds[k].AddShape? ==>
              cmds[k].shape in shapes &&
              cmds[k].shape in RunLayerCommands(eval, rotateKey, shapes, st, cmds).0.members &&
              RunLayerCommands(eval, rotateKey, shapes, st, cmds).0.members[cmds[k].shape] == shapes[cmds[k].shape]
    ensures var fin := RunLayerCommands(eval, rotateKey, shapes, st, cmds).0.members;
            forall n :: n in st.members ==>
              n in fin && (fin[n] == st.members[n] || (n in shapes && fin[n] == shapes[n]))
    decreases |cmds|
  {
    if cmds != [] {
      var st' := LayerStep(eval, rotateKey, shapes, st, cmds[0]).value;
      LayerAddsMembers(eval, rotateKey, shapes, st', cmds[1..]);
      var fin := RunLayerCommands(eval, rotateKey, shapes, st, cmds).0;
      assert fin == RunLayerCommands(eval, rotateKey, shapes, st', cmds[1..]).0;
      forall k | 0 <= k < |cmds| && cmds[k].AddShape?
        ensures cmds[k].shape in shapes && cmds[k].shape in fin.members && fin.members[cmds[k].shape] == shapes[cmds[k].shape]
      {
        if k > 0 {
          assert cmds[1..][k - 1] == cmds[k];
        }
      }
    }
  }

  /** `ops` is `before` followed by the shapes `names` name, in order; every name is a shape. */
  ghost predicate AppendsShapes<S>(ops: seq<S>, before: seq<S>, names: seq<string>, shapes: map<string, S>)
  {
    |ops| == |before| + |names| && ops[..|before|] == before &&
    forall k :: 0 <= k < |names| ==> names[k] in shapes && ops[|before| + k] == shapes[names[k]]
  }

  lemma AppendsShapesJoin<S>(ops: seq<S>, mid: seq<S>, before: seq<S>,
                             pre: seq<string>, rest: seq<string>, shapes: map<string, S>)
    requires AppendsShapes(mid, before, pre, shapes) && AppendsShapes(ops, mid, rest, shapes)
    ensures AppendsShapes(ops, before, pre + rest, shapes)
  {
    assert ops[..|mid|] == mid;
    assert ops[..|before|] == mid[..|before|];
    var names := pre + rest;
    forall k | 0 <= k < |names|
      ensures names[k] in shapes && ops[|before| + k] == shapes[names[k]]
    {
      if k < |pre| {
        assert names[k] == pre[k];
        assert ops[|before| + k] == mid[|before| + k];
      } else {
        assert names[k] == rest[k - |pre|];
        assert |before| + k == |mid| + (k - |pre|);
      }
    }
  }

  /**
   * When a layer block completes, its operations are the earlier ones
   * followed by the shapes its `subtract` commands name, in order.
   */
  lemma {:induction false} LayerSubtractsInOrder<S>(eval: Expr -> Result<Value, RuntimeError>, rotateKey: string,
                                                    shapes: map<string, S>, st: LayerState<S>, cmds: seq<Command>)
    requires RunLayerCommands(eval, rotateKey, shapes, st, cmds).1.None?
    ensures AppendsShapes(RunLayerCommands(eval, rotateKey, shapes, st, cmds).0.operations,
                          st.operations, Subtracted(cmds), shapes)
    decreases |cmds|
  {
    var fin := RunLayerCommands(eval, rotateKey, shapes, st, cmds);
    if cmds == [] {
      assert fin.0.operations[..|st.operations|] == st.operations;
    } else {
      var step := LayerStep(eval, rotateKey, shapes, st, cmds[0]);
      assert step.Ok?;
      var st' := step.value;
      assert fin == RunLayerCommands(eval, rotateKey, shapes, st', cmds[1..]);
      LayerSubtractsInOrder(eval, rotateKey, shapes, st', cmds[1..]);
      var pre := if cmds[0].SubtractShape? then [cmds[0].shape] else [];
      assert Subtracted(cmds) == pre + Subtracted(cmds[1..]);
      assert st'.operations[..|st.operations|] == st.operations;
      assert AppendsShapes(st'.operations, st.operations, pre, shapes);
      AppendsShapesJoin(fin.0.operations, st'.operations, st.operations, pre, Subtracted(cmds[1..]), shapes);
    }
  }

  // ---- the scene as values ------------------------------------------------------

  /** What a shape object holds, its transform's current fields included. */
  datatype ShapeVal = ShapeVal(kind: string, name: string, params: map<string, Value>, transform: ShapeTransform)

  /** What a layer object holds; its members and operations are indices in the shape table. */
  datatype LayerVal = LayerVal(name: string, state: LayerState<nat>)

  /**
   * The scene an environment holds, as values: every shape and layer object
   * created so far, in creation order, and the environment's `shapes` and
   * `layers` maps and `currentLayer`, which refer to objects by index. Two
   * map entries share an object exactly when they hold the same index.
   */
  datatype Store = Store(shapeObjs: seq<ShapeVal>, layerObjs: seq<LayerVal>,
                         shapes: map<string, nat>, layers: map<string, nat>, current: Option<nat>)

  /** A statement's result with objects given by their indices. */
  datatype Res = ShapeR(shape: nat) | LayerR(layer: nat) | ListR(items: seq<Res>)

  /** Every index a map or `current` holds denotes an object. */
  predicate WellFormed(st: Store)
  {
    (forall k :: k in st.shapes ==> st.shapes[k] < |st.shapeObjs|) &&
    (forall k :: k in st.layers ==> st.layers[k] < |st.layerObjs|) &&
    (st.current.Some? ==> st.current.value < |st.layerObjs|)
  }

  const EmptyStore := Store([], [], map[], map[], None)

  /**
   * The end of `createShape`: a new shape object, stored under its name,
   * replacing any other shape of that name, and joining the current layer
   * if there is one. Nothing else changes.
   */
  function StoreShape(st: Store, v: ShapeVal): (r: (Store, nat))
    requires WellFormed(st)
    ensures WellFormed(r.0) && r.1 == |st.shapeObjs| && r.0.shapeObjs == st.shapeObjs + [v]
    ensures r.0.shapes == st.shapes[v.name := r.1] && r.0.layers == st.layers && r.0.current == st.current
    ensures |r.0.layerObjs| == |st.layerObjs|
    ensures forall i :: 0 <= i < |st.layerObjs| && st.current != Some(i) ==> r.0.layerObjs[i] == st.layerObjs[i]
    ensures st.current.Some? ==>
              var c := st.current.value;
              r.0.layerObjs[c].name == st.layerObjs[c].name &&
              r.0.layerObjs[c].state == st.layerObjs[c].state.(members := st.layerObjs[c].state.members[v.name := r.1])
  {
    var id := |st.shapeObjs|;
    var layerObjs :=
      if st.current.None? then st.layerObjs
      else
        var c := st.current.value;
        var l := st.layerObjs[c];
        st.layerObjs[c := l.(state := l.state.(members := l.state.members[v.name := id]))];
    (Store(st.shapeObjs + [v], layerObjs, st.shapes[v.name := id], st.layers, st.current), id)
  }

  /** `createLayer`: a new empty layer object, stored under its name, replacing any other, and made current. */
  function StoreLayer(st: Store, name: string): (r: (Store, nat))
    requires WellFormed(st)
    ensures WellFormed(r.0) && r.1 == |st.layerObjs|
    ensures r.0.layerObjs == st.layerObjs + [LayerVal(name, LayerState(map[], [], IdentityTransform))]
    ensures r.0.layers == st.layers[name := r.1] && r.0.current == Some(r.1)
    ensures r.0.shapeObjs == st.shapeObjs && r.0.shapes == st.shapes
  {
    var id := |st.layerObjs|;
    (st.(layerObjs := st.layerObjs + [LayerVal(name, LayerState(map[], [], IdentityTransform))],
         layers := st.layers[name := id], current := Some(id)), id)
  }

  /** The layer object `id` with new contents; everything else unchanged. */
  function SetLayerState(st: Store, id: nat, ls: LayerState<nat>): (r: Store)
    requires WellFormed(st) && id < |st.layerObjs|
    ensures WellFormed(r) && r.layerObjs == st.layerObjs[id := LayerVal(st.layerObjs[id].name, ls)]
    ensures r.shapeObjs == st.shapeObjs && r.shapes == st.shapes && r.layers == st.layers && r.current == st.current
  {
    st.(layerObjs := st.layerObjs[id := st.layerObjs[id].(state := ls)])
  }

  /** The shape object `id` with a new transform; everything else unchanged. */
  function SetShapeTransform(st: Store, id: nat, t: ShapeTransform): (r: Store)
    requires WellFormed(st) && id < |st.shapeObjs|
    ensures WellFormed(r) && r.shapeObjs == st.shapeObjs[id := st.shapeObjs[id].(transform := t)]
    ensures r.layerObjs == st.layerObjs && r.shapes == st.shapes && r.layers == st.layers && r.current == st.current
  {
    st.(shapeObjs := st.shapeObjs[id := st.shapeObjs[id].(transform := t)])
  }

  /** `addToLayer`: the layer must exist, then the shape; the shape becomes the layer's member under its name. */
  function AddMember(st: Store, layerName: string, shapeName: string): (r: (Store, Result<Res, RuntimeError>))
    requires WellFormed(st)
    ensures WellFormed(r.0)
    ensures layerName !in st.layers ==> r == (st, Err(LayerNotFound(layerName)))
    ensures layerName in st.layers && shapeName !in st.shapes ==> r == (st, Err(ShapeNotFound(shapeName)))
    ensures layerName in st.layers && shapeName in st.shapes ==>
              var id := st.layers[layerName];
              var ls := st.layerObjs[id].state;
              r == (SetLayerState(st, id, ls.(members := ls.members[shapeName := st.shapes[shapeName]])), Ok(LayerR(id)))
  {
    if layerName !in st.layers then (st, Err(LayerNotFound(layerName)))
    else if shapeName !in st.shapes then (st, Err(ShapeNotFound(shapeName)))
    else
      var id := st.layers[layerName];
      var ls := st.layerObjs[id].state;
      (SetLayerState(st, id, ls.(members := ls.members[shapeName := st.shapes[shapeName]])), Ok(LayerR(id)))
  }

  /** `subtractFromLayer`: the layer must exist, then the shape; the shape is appended to the layer's operations. */
  function AddOperation(st: Store, layerName: string, shapeName: string): (r: (Store, Result<Res, RuntimeError>))
    requires WellFormed(st)
    ensures WellFormed(r.0)
    ensures layerName !in st.layers ==> r == (st, Err(LayerNotFound(layerName)))
    ensures layerName in st.layers && shapeName !in st.shapes ==> r == (st, Err(ShapeNotFound(shapeName)))
    ensures layerName in st.layers && shapeName in st.shapes ==>
              var id := st.layers[layerName];
              var ls := st.layerObjs[id].state;
              r == (SetLayerState(st, id, ls.(operations := ls.operations + [st.shapes[shapeName]])), Ok(LayerR(id)))
  {
    if layerName !in st.layers then (st, Err(LayerNotFound(layerName)))
    else if shapeName !in st.shapes then (st, Err(ShapeNotFound(shapeName)))
    else
      var id := st.layers[layerName];
      var ls := st.layerObjs[id].state;
      (SetLayerState(st, id, ls.(operations := ls.operations + [st.shapes[shapeName]])), Ok(LayerR(id)))
  }

  /**
   * `applyTransform`: the target is looked up among the shapes, then the
   * layers; its transform goes through the operations in order, keeping the
   * updates made before an operation that throws. Only that object changes.
   */
  function TransformTarget(st: Store, eval: Expr -> Result<Value, RuntimeError>, target: string, ops: seq<(string, Expr)>)
    : (r: (Store, Result<Res, RuntimeError>))
    requires WellFormed(st)
    ensures WellFormed(r.0) && r.0.shapes == st.shapes && r.0.layers == st.layers && r.0.current == st.current
    ensures |r.0.shapeObjs| == |st.shapeObjs| && |r.0.layerObjs| == |st.layerObjs|
    ensures target !in st.shapes && target !in st.layers ==> r == (st, Err(TargetNotFound(target)))
    ensures target in st.shapes ==>
              var id := st.shapes[target];
              var run := ApplyOps(eval, st.shapeObjs[id].transform, ops);
              r.0 == SetShapeTransform(st, id, run.0) &&
              r.1 == (if run.1.Some? then Err(run.1.value) else Ok(ShapeR(id)))
    ensures target !in st.shapes && target in st.layers ==>
              var id := st.layers[target];
              var run := ApplyOps(eval, st.layerObjs[id].state.transform, ops);
              r.0 == SetLayerState(st, id, st.layerObjs[id].state.(transform := run.0)) &&
              r.1 == (if run.1.Some? then Err(run.1.value) else Ok(LayerR(id)))
  {
    if target in st.shapes then
      var id := st.shapes[target];
      var run := ApplyOps(eval, st.shapeObjs[id].transform, ops);
      (SetShapeTransform(st, id, run.0),
       if run.1.Some? then Err(run.1.value) else Ok(ShapeR(id)))
    else if target in st.layers then
      var id := st.layers[target];
      var run := ApplyOps(eval, st.layerObjs[id].state.transform, ops);
      (SetLayerState(st, id, st.layerObjs[id].state.(transform := run.0)),
       if run.1.Some? then Err(run.1.value) else Ok(LayerR(id)))
    else (st, Err(TargetNotFound(target)))
  }

  /** A layer block: a new layer, then its commands against it; the commands see the shapes as they were. */
  function LayerBlock(st: Store, eval: Expr -> Result<Value, RuntimeError>, rotateKey: string,
                      name: string, cmds: seq<Command>): (r: (Store, Result<Res, RuntimeError>))
    requires WellFormed(st)
    ensures WellFormed(r.0) && r.0.shapeObjs == st.shapeObjs && r.0.shapes == st.shapes
    ensures r.0.layers == st.layers[name := |st.layerObjs|] && r.0.current == Some(|st.layerObjs|)
    ensures |r.0.layerObjs| == |st.layerObjs| + 1 && r.0.layerObjs[..|st.layerObjs|] == st.layerObjs
    ensures r.0.layerObjs[|st.layerObjs|].name == name
    ensures r.1.Ok? ==> r.1.value == LayerR(|st.layerObjs|)
    ensures var run := RunLayerCommands(eval, rotateKey, st.shapes, LayerState(map[], [], IdentityTransform), cmds);
            r.0.layerObjs[|st.layerObjs|].state == run.0 && (r.1.Err? <==> run.1.Some?) &&
            (r.1.Err? ==> r.1.error == run.1.value)
  {
    var created := StoreLayer(st, name);
    var run := RunLayerCommands(eval, rotateKey, st.shapes, LayerState(map[], [], IdentityTransform), cmds);
    (SetLayerState(created.0, created.1, run.0), if run.1.Some? then Err(run.1.value) else Ok(LayerR(created.1)))
  }

  /** What `createShape` returns, a shape object, as a statement result. */
  function ShapeOutcome(r: Result<nat, RuntimeError>): Result<Res, RuntimeError>
  {
    if r.Ok? then Ok(ShapeR(r.value)) else Err(r.error)
  }

  /** What `createLayer` and the layer commands return, a layer object, as a statement result. */
  function LayerOutcome(r: Result<nat, RuntimeError>): Result<Res, RuntimeError>
  {
    if r.Ok? then Ok(LayerR(r.value)) else Err(r.error)
  }
}
