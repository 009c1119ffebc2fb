# Aqui core in Dafny

Aqui is a small language for declaring parametric 2D shapes. Programs compose
shapes into layers, transform them, and combine them with polygon boolean
operations. This project models the language's front ends and its two
interpreters. The model follows the JavaScript sources file by file.

| Dafny file | module(s) | source | what it models |
|---|---|---|---|
| `common.dfy` | `Common` | (shared) | `Option`/`Result`, the character classes of the lexers' regular expressions, decimal numerals, ASCII `toLowerCase` |
| `ast.dfy` | `Tokens`, `Ast` | `src/lexer_parser_unified.mjs`, `src/logical_lexer_and_parser.mjs` | token kinds and tokens; the syntax tree the indentation parsers build (a shape's parameters are an ordered list of distinct keys, like a JavaScript object) |
| `values.dfy` | `Values`, `ShapeRules` | `src/interpreter.mjs`, `src/interpreter.js` | JavaScript values and truthiness (strings as Unicode scalar sequences, see "Left out"), the binary, unary and comparison operators, the shape transform, the required-parameter and default tables, `validateShapeParams`, `normalizeParams` |
| `unified_lexer.dfy` | `UnifiedLexer` | `src/lexer_parser_unified.mjs` | the indentation lexer: a cursor class whose methods are proved equal to pure functions, with INDENT/DEDENT from a width stack, strings with escapes, and `tokenize` |
| `unified_parser.dfy` | `UnifiedParser` | `src/lexer_parser_unified.mjs` | the parser over the token list, as a class with a `current` cursor; shape, fillet, if, for, layer and transform blocks; the expression chain |
| `logical_lexer.dfy` | `LogicalLexer` | `src/logical_lexer_and_parser.mjs` | the logical lexer: one NEWLINE per line feed, multi-level dedent, no strings or arithmetic |
| `logical_parser.dfy` | `LogicalParser` | `src/logical_lexer_and_parser.mjs` | `if`/`else` blocks over `and`/`or` conditions, with the inherited statement parsers as a parameter |
| `brace_parser.dfy` | `BraceParser` | `src/parser.mjs` | the brace-delimited parser pulling tokens from a lexer object |
| `calc_front_end.dfy` | `CalcLexer`, `CalcParser` | `src/lexer_and_parser.js` | the first front end: `param`/`shape` declarations with arithmetic |
| `environment.dfy` | `SceneStore` | `src/environment.mjs` | the parameter, shape and layer maps, as a class |
| `scene.dfy` | `Scene` | `src/interpreter.mjs`, `src/interpreter.js` | the scene both interpreters build: the shape and layer objects in object tables, the maps that refer to them, and the transform and layer command steps |
| `interpreter.dfy` | `Interpreter` | `src/interpreter.mjs` | the expression evaluator, the `Environment` class with scopes and loop naming, the meaning of each statement as a function `Exec` of the environment, and the `Interpreter` class, whose methods are proved to compute it |
| `interpreter_js.dfy` | `EarlyInterpreter` | `src/interpreter.js` | the earlier interpreter, and the proof that its evaluator agrees with the later one where both are defined |
| `boolean_ops.dfy` | `BooleanOps` | `src/BooleanOperators.mjs` | result naming, segment intersection, the even-odd point-in-polygon test, de-duplication, the early exits of `difference`, and the result shape |

Code that changes state in place stays imperative. This covers the lexers'
cursors and indentation stacks, the parsers' cursors, the environments and the
interpreters. Each such class is written with `modifies`/`reads` frames. Each
method is proved to end in the state, and with the result, that a pure
function of the old state gives. The properties the source promises are then
lemmas about those functions:
- the INDENT/DEDENT balance and the EOF at the end of `tokenize`;
- the escape round trip of strings;
- operator precedence and associativity in each parser;
- which token each error is raised on;
- the loop-naming and scoping rules of the interpreter;
- the transform and layer commands;
- which statements run, how often a loop body runs, and how many values a program leaves.

JavaScript objects that several maps share are modelled as entries of an
object table: a map or layer holds an object's index, two entries share an
object exactly when they hold the same index, and an update in place, such as
`targetObj.transform.rotation = v`, replaces the object's table entry. Every
holder of the index then sees the update, as every holder of the reference
does in JavaScript.

The model follows the code where it and the language's design disagree:
- In the unified parser, `+ - * /` share one precedence level, so `2+3*4` is `(2+3)*4`.
- Every array is truthy, the empty one included.
- In both indentation lexers, a final line made only of blanks ends with an IDENTIFIER token whose name is empty (`UnifiedLexer.EmptyWordAtEnd`). When the indentation check has consumed the rest of the input, the letter test runs on `null`, which the regular expression reads as the text "null".
- `interpreter.mjs` calls `evaluatePropertyAccess` but never defines it, so evaluating a property access throws a `TypeError`. The model gives `NotAFunction`.
- Where a class defines a method twice, the later definition is the one modelled (`resolveIdentifier` in `src/interpreter.mjs`).

## Model

| member | source | states |
|---|---|---|
| Common.NatToStringInjective | src/interpreter.mjs:29-32 | two counters with the same decimal rendering are equal, so the `name_counter` suffix tells loop iterations apart |
| Common.NatToString | src/interpreter.mjs:30 | the rendering of the loop counter is a non-empty string of digits, one digit long exactly when the counter is below 10 |
| Ast.SetParam | src/lexer_parser_unified.mjs:680-684 | `params[property] = value`: the new pair is present, every pair with that key holds the new value, every pair with another key is kept, and no other pair appears |
| Ast.SetParamKeepsKeysDistinct | src/lexer_parser_unified.mjs:674-688 | assigning a property of the parameter object never stores a key twice |
| Values.BinaryOperator | src/interpreter.mjs:252-266 | "Division by zero" exactly when the operator is `divide` and the right value is 0; an unknown-operator error exactly for operators other than plus, minus, multiply and divide; minus, multiply and divide give numbers |
| Values.OrDefault | src/interpreter.mjs:43-46 | `params[key] or fallback`: the parameter when it is present and truthy, the fallback otherwise |
| ShapeRules.FirstMissing | src/interpreter.mjs:75-82 | the index of the first required name `params` lacks, every earlier one being present; none when all are present |
| ShapeRules.ValidateShapeParams | src/interpreter.mjs:58-84 | succeeds exactly when the type is not an inherited object key and, if the type has a table, every required parameter is present; a missing-parameter error names the type and a required parameter that is absent |
| ShapeRules.CheckRequiredParams | src/interpreter.mjs:75-83 | the loop over the required names returns exactly what `ValidateShapeParams` specifies |
| ShapeRules.NormalizeParams | src/interpreter.mjs:86-103 | every supplied parameter keeps its value, a default fills exactly the parameters not supplied, and no other key appears |
| ShapeRules.ZeroScaleBecomesOne | src/interpreter.mjs:46 | a supplied `scaleX` of 0 is falsy and becomes 1 in the initial transform |
| SceneStore.NewShape | src/environment.mjs:20-33 | the stored shape keeps type and parameters, starts unrotated and unscaled, and is placed at `params.position` when truthy, else at [0, 0] |
| SceneStore.NewLayer | src/environment.mjs:42-55 | a new layer has its name, no shapes, no operations and the identity transform |
| SceneStore.Environment.constructor | src/environment.mjs:3-7 | parameters, shapes and layers start empty |
| SceneStore.Environment.GetParameter | src/environment.mjs:9-14 | the bound value exactly when the name is bound, otherwise "Parameter not found" |
| SceneStore.Environment.SetParameter | src/environment.mjs:16-18 | binds the name and changes nothing else |
| SceneStore.Environment.CreateShape | src/environment.mjs:20-33 | stores `NewShape` under the name, replacing any shape of that name, and changes nothing else |
| SceneStore.Environment.GetShape | src/environment.mjs:35-40 | the stored shape exactly when the name is stored, otherwise "Shape not found" |
| SceneStore.Environment.CreateLayer | src/environment.mjs:42-55 | stores `NewLayer` under the name, replacing any layer of that name, and changes nothing else |
| SceneStore.SetThenGet | src/environment.mjs:9-18 | after `setParameter(n, v)`, `getParameter(n)` gives v and every other name reads as before |
| Scene.TransformStep | src/interpreter.mjs:293-312 | `scale` sets both factors to the value, `rotate` replaces the rotation, `position` succeeds exactly on a two-element array and replaces the position; an unknown kind or a throwing operand is an error |
| Scene.ApplyOpsAppend | src/interpreter.mjs:292-314 | applying `a + b` applies `a`, then `b` only if nothing in `a` threw |
| Scene.RotateReplaces | src/interpreter.mjs:301-304 | of two successful `rotate` operations only the later value remains |
| Scene.RunTransformOps | src/interpreter.mjs:292-314 | the loop leaves the target's transform, and the error if any, as `ApplyOps` specifies from the old transform |
| Scene.LayerStep | src/interpreter.mjs:442-463 | `add` stores the named shape among the members and `subtract` appends it to the operations, each exactly when the shape exists and otherwise "Shape not found"; transform settings leave members and operations alone |
| Scene.LayerAddsMembers | src/interpreter.mjs:439-466 | after a layer block that does not throw, every shape an `add` names is a member bound to the environment's shape, and every earlier member is still there |
| Scene.LayerSubtractsInOrder | src/interpreter.mjs:439-466 | after a layer block that does not throw, its operations are the earlier ones followed by the shapes named by `subtract`, in command order |
| Scene.StoreShape | src/interpreter.mjs:37-54 | the new shape object is appended to the table and stored under its name, replacing any shape of that name; when there is a current layer it becomes that layer's member under the same name, the same object by index; every other layer object, the layer map and the current layer are unchanged |
| Scene.StoreLayer | src/interpreter.mjs:106-121 | a new layer object with no members, no operations and the identity transform is appended, stored under its name replacing any other, and made current; the shapes are unchanged |
| Scene.AddMember | src/interpreter.mjs:131-140 | a missing layer throws "Layer not found" and then a missing shape "Shape not found", both changing nothing; otherwise the layer's members gain the shape object under its name, nothing else changes, and the layer is the result |
| Scene.AddOperation | src/interpreter.mjs:142-154 | the same lookups and errors as `AddMember`; otherwise the shape object is appended to the layer's operations, nothing else changes, and the layer is the result |
| Scene.TransformTarget | src/interpreter.mjs:286-317 | a shape of that name is the target, else a layer of that name, else "Transform target not found" with nothing changed; the target's transform ends as `ApplyOps` gives from its old value, updates before a throwing operation kept, and no other object and no map changes |
| Scene.LayerBlock | src/interpreter.mjs:439-466 | a new layer object is appended, stored under the block's name and made current; the earlier objects and the shapes are unchanged; its contents, and the error if any, are what `RunLayerCommands` gives from an empty layer against the shapes as they were |
| Interpreter.ResolveInnermost | src/interpreter.mjs:345-357 | the innermost scope that binds a name decides its value |
| Interpreter.ResolveOutsideScopes | src/interpreter.mjs:345-357 | a name no scope binds resolves to the global variable, and failing that to the name itself as a string |
| Interpreter.EvalAllLength | src/interpreter.mjs:175-176 | an array literal evaluates to one value per element, each the element's value |
| Interpreter.DivideThrowsOnZero | src/interpreter.mjs:252-266 | a division throws "Division by zero" exactly when an operand throws it, or both evaluate and the right one is 0 |
| Interpreter.ComparisonNeverThrows | src/interpreter.mjs:231-250 | a comparison never throws: it gives a boolean, or an outcome the model leaves out (a JavaScript coercion) |
| Interpreter.ComparisonFailureIsFalse | src/interpreter.mjs:231-250 | an operand that throws, or an unknown comparison operator, makes the comparison `false` |
| Interpreter.ShortCircuit | src/interpreter.mjs:213-228 | `and` gives `false` on a falsy left operand and otherwise the right operand's result; `or` gives `true` on a truthy left operand and otherwise the right operand's result; the operator's letter case does not matter |
| Interpreter.NotNegatesTruthiness | src/interpreter.mjs:268-277 | `not` gives the boolean negation of the operand's truthiness |
| Interpreter.RemainingDecreases | src/interpreter.mjs:321 | each step of the range loop leaves one value fewer to produce, so the loop ends |
| Interpreter.RangeValuesSpec | src/interpreter.mjs:319-325 | the k-th value of a range is start + k·step and below `end`, and the value after the last is not |
| Interpreter.CreateShapeIn | src/interpreter.mjs:26-55 | the name and counter step happen before validation, so a shape that fails still moves the counter; the result is an error exactly when validation fails, and then the scene is unchanged; otherwise the new shape is stored under `name_counter` inside a loop and `name` outside, and the variables, scopes and loop flag are unchanged |
| Interpreter.Environment.constructor | src/interpreter.mjs:4-12 | every map, table and the scope stack start empty, with no current layer, outside a loop, counter 0 |
| Interpreter.Environment.UniqueName | src/interpreter.mjs:28-32 | inside a loop the name gets the counter as suffix and the counter moves on; outside, the name is kept; nothing else changes |
| Interpreter.Environment.EnterLoop | src/interpreter.mjs:15-18 | sets the loop flag and resets the counter, nothing else |
| Interpreter.Environment.ExitLoop | src/interpreter.mjs:20-23 | clears the loop flag and resets the counter, nothing else |
| Interpreter.Environment.CreateShape | src/interpreter.mjs:26-55 | ends in the state, with the result, that `CreateShapeIn` gives from the old state |
| Interpreter.Environment.CreateLayer | src/interpreter.mjs:106-121 | ends with the scene and the layer `StoreLayer` gives; variables, scopes and loop context unchanged |
| Interpreter.Environment.GetShape | src/interpreter.mjs:123-129 | the stored shape exactly when the name is stored, otherwise "Shape not found" |
| Interpreter.Environment.AddToLayer | src/interpreter.mjs:131-140 | ends with the scene and result `AddMember` gives; nothing outside the scene changes |
| Interpreter.Environment.SubtractFromLayer | src/interpreter.mjs:142-154 | ends with the scene and result `AddOperation` gives; nothing outside the scene changes |
| Interpreter.Environment.ApplyTransform | src/interpreter.mjs:286-317 | ends with the scene and result `TransformTarget` gives, the operands evaluated against the bindings before the call; nothing outside the scene changes |
| Interpreter.Environment.CreateRange | src/interpreter.mjs:319-325 | the loop produces exactly `RangeValues(start, end, step)` |
| Interpreter.Environment.PushScope | src/interpreter.mjs:327-329 | pushes an empty scope and changes nothing else; every name resolves as before |
| Interpreter.Environment.PopScope | src/interpreter.mjs:331-335 | drops the innermost scope, does nothing when there is none, and changes nothing else |
| Interpreter.Environment.SetVariable | src/interpreter.mjs:337-343 | binds in the innermost scope, or among the globals when there is none, changing nothing else; the name then resolves to the value |
| Interpreter.Environment.ResolveIdentifier | src/interpreter.mjs:345-357 | the loop from the innermost scope outwards returns exactly `Resolve` of the current bindings |
| Interpreter.LoopNamesDistinct | src/interpreter.mjs:29-32 | shapes created under different counter values get different names |
| Interpreter.ExecShape | src/interpreter.mjs:431-437 | a shape statement keeps the scene well formed and the scope stack unchanged; a parameter that throws stores nothing |
| Interpreter.ExecLayer | src/interpreter.mjs:439-466 | a layer block keeps the scene well formed and the scope stack unchanged |
| Interpreter.ExecTransform | src/interpreter.mjs:468-470 | a transform statement keeps the scene well formed and the scope stack unchanged |
| Interpreter.Exec | src/interpreter.mjs:381-400 | no statement changes the scope stack or leaves a dangling reference; a `fillet` statement throws "Unknown node type" and changes nothing; a statement that completes yields no value exactly when it is an `if`, and a loop yields a list |
| Interpreter.ExecSeq | src/interpreter.mjs:365-379 | the values collected are the earlier ones followed by one per statement that is not an `if`; no statement list changes the scope stack |
| Interpreter.ExecIf | src/interpreter.mjs:472-484 | an `if` statement keeps the scene well formed and the scope stack unchanged |
| Interpreter.ExecFor | src/interpreter.mjs:403-429 | a `for e` loop throws "Invalid expression" and changes nothing; a loop that completes leaves the loop context with the counter at 0 and the iterator unbound, and the scope stack unchanged |
| Interpreter.ExecLoop | src/interpreter.mjs:412-420 | the iterations keep the scene well formed and the scope stack unchanged |
| Interpreter.LoopRunsOverRange | src/interpreter.mjs:412-420 | the loop binds the iterator to exactly the values `createRange(start, end, 1)` gives, in order, running the body once for each |
| Interpreter.EachCount | src/interpreter.mjs:412-420 | running the body once per value collects, on success, the number of values times the number of the body's statements that produce a value |
| Interpreter.ForLoopOverRange | src/interpreter.mjs:403-429 | a loop over numeric bounds enters the loop context, runs the body once per value of `createRange(start, end, 1)`, then leaves the context and unbinds the iterator; its list holds that many values per run of the body |
| Interpreter.IfWithoutElse | src/interpreter.mjs:472-484 | an `if` with a falsy condition and no `else` changes nothing and yields no value |
| Interpreter.ExecSeqAppend | src/interpreter.mjs:365-379 | running `a + b` is running `a`, then `b` from the state `a` left, unless `a` threw |
| Interpreter.Interpreter.constructor | src/interpreter.mjs:361-363 | a fresh, empty environment |
| Interpreter.Interpreter.Interpret | src/interpreter.mjs:365-379 | ends in the state, with the results, that `ExecSeq` gives for the program from the old state |
| Interpreter.Interpreter.EvaluateNode | src/interpreter.mjs:381-400 | ends in the state, with the value, that `Exec` gives for the statement from the old state |
| Interpreter.Interpreter.RunBody | src/interpreter.mjs:414-419 | one pass over the loop body ends as `ExecSeq` gives, extending the loop's results |
| Interpreter.Interpreter.EvaluateForLoop | src/interpreter.mjs:403-429 | ends in the state, with the list, that `ExecFor` gives from the old state |
| Interpreter.Interpreter.EvaluateIf | src/interpreter.mjs:472-484 | ends in the state `ExecIf` gives: exactly the branch the condition selects runs, and a condition that throws runs nothing |
| Interpreter.Interpreter.EvaluateShape | src/interpreter.mjs:431-437 | ends in the state, with the shape, that `ExecShape` gives from the old state |
| Interpreter.Interpreter.EvaluateLayer | src/interpreter.mjs:439-466 | ends in the state, with the layer, that `ExecLayer` gives: the commands run against the new layer, each replacing its table entry |
| Interpreter.Interpreter.EvaluateLayerCommand | src/interpreter.mjs:442-463 | one command against the block's layer does what `LayerStep` gives: on success the layer's table entry holds the new contents and nothing else changes; on error nothing changes and the error is `LayerStep`'s |
| Common.ToLower | src/interpreter.mjs:215 | `toLowerCase` keeps the length and lowers each character in place |
| EarlyInterpreter.IdentifierIsItsName | src/interpreter.js:225-228 | every identifier evaluates to its own name as a string |
| EarlyInterpreter.UnknownExpressionTypes | src/interpreter.js:173-196 | boolean, logical, comparison and property-access nodes throw "Unknown expression type" |
| EarlyInterpreter.NotIsUnknown | src/interpreter.js:215-223 | `not` throws "Unknown unary operator" |
| EarlyInterpreter.LaterEvaluatorAgrees | src/interpreter.js:168-228 | with no variables bound, the evaluator of interpreter.mjs gives the same outcome on every expression this one accepts |
| EarlyInterpreter.LaterEvaluatorAgreesAll | src/interpreter.js:180-183 | the same agreement for the elements of an array literal |
| EarlyInterpreter.CreateShapeIn | src/interpreter.js:10-33 | an error exactly when validation fails, and then nothing changes; otherwise the new shape, with normalised parameters and the initial transform, is appended and stored under its own name |
| EarlyInterpreter.Exec | src/interpreter.js:252-267 | any statement other than shape, layer and transform throws "Unknown node type" and changes nothing |
| EarlyInterpreter.ExecSeq | src/interpreter.js:236-250 | on success the values are the earlier ones followed by one per statement, and every statement is a shape, layer or transform |
| EarlyInterpreter.LaterShapeAgrees | src/interpreter.js:269-275 | outside a loop and with parameters this evaluator accepts, the shape statement of interpreter.mjs ends in the same scene with the same value |
| EarlyInterpreter.LaterParamsAgree | src/interpreter.js:270-273 | the two evaluators give the same parameter object for parameters this one accepts |
| EarlyInterpreter.Environment.constructor | src/interpreter.js:4-8 | shapes, layers and tables start empty, with no current layer |
| EarlyInterpreter.Environment.CreateShape | src/interpreter.js:10-33 | ends with the scene and result `CreateShapeIn` gives |
| EarlyInterpreter.Environment.CreateLayer | src/interpreter.js:85-100 | ends with the scene and layer `StoreLayer` gives |
| EarlyInterpreter.Environment.GetShape | src/interpreter.js:102-108 | the stored shape exactly when the name is stored, otherwise "Shape not found" |
| EarlyInterpreter.Environment.AddToLayer | src/interpreter.js:110-119 | ends with the scene and result `AddMember` gives |
| EarlyInterpreter.Environment.SubtractFromLayer | src/interpreter.js:121-133 | ends with the scene and result `AddOperation` gives |
| EarlyInterpreter.Environment.ApplyTransform | src/interpreter.js:135-166 | ends with the scene and result `TransformTarget` gives with this evaluator |
| EarlyInterpreter.Interpreter.constructor | src/interpreter.js:232-234 | a fresh, empty environment |
| EarlyInterpreter.Interpreter.Interpret | src/interpreter.js:236-250 | ends with the scene and results `ExecSeq` gives for the program from the old scene |
| EarlyInterpreter.Interpreter.EvaluateNode | src/interpreter.js:252-267 | ends with the scene and value `Exec` gives |
| EarlyInterpreter.Interpreter.EvaluateShape | src/interpreter.js:269-275 | ends with the scene and shape `Exec` gives for the shape statement |
| EarlyInterpreter.Interpreter.EvaluateLayer | src/interpreter.js:277-304 | ends with the scene and layer `LayerBlock` gives with the `rotate` command spelling |
| EarlyInterpreter.Interpreter.EvaluateLayerCommand | src/interpreter.js:281-299 | one command against the block's layer does what `LayerStep` gives with the `rotate` spelling; on error nothing changes |
| BooleanOps.ResultNamesDiffer | src/BooleanOperators.mjs:38-48 | two results of one operation named after the same operand get different names |
| BooleanOps.BooleanNaming.constructor | src/BooleanOperators.mjs:25-32 | no operation has been counted |
| BooleanOps.BooleanNaming.Reset | src/BooleanOperators.mjs:34-36 | every operation counts from 1 again |
| BooleanOps.BooleanNaming.GetNextCount | src/BooleanOperators.mjs:38-42 | one more than the number of earlier calls for this operation since the last reset; other operations' counts are unchanged |
| BooleanOps.BooleanNaming.GenerateName | src/BooleanOperators.mjs:44-48 | the first operand's name (`undefined` when there is none), the operation's letter and the next count |
| BooleanOps.FindIntersection | src/BooleanOperators.mjs:157-177 | none when the denominator is below epsilon; otherwise a point exactly when both segment parameters lie in [0, 1], and then the point at parameter t on the first segment |
| BooleanOps.IntersectionOnBothSegments | src/BooleanOperators.mjs:157-177 | the returned point also lies on the second segment, at parameter u |
| BooleanOps.OddCrossingsStep | src/BooleanOperators.mjs:144-152 | one more edge flips the inside flag exactly when the horizontal ray crosses it |
| BooleanOps.OutsideVerticalExtent | src/BooleanOperators.mjs:140-155 | a point on or above every vertex, or below every vertex, is never inside |
| BooleanOps.KeepFirstsSpec | src/BooleanOperators.mjs:217-225 | the filter keeps exactly the points with no earlier point within epsilon, in their original order |
| BooleanOps.RemoveDuplicatesSeparated | src/BooleanOperators.mjs:217-225 | no two kept points are within epsilon, and the first input point is kept |
| BooleanOps.OperandNames | src/BooleanOperators.mjs:479 | one name per shape: its name, or `shape` when the name is empty |
| BooleanOps.BooleanOperator.constructor | src/BooleanOperators.mjs:52-55 | a fresh naming object with no counts |
| BooleanOps.BooleanOperator.IsPointInPolygon | src/BooleanOperators.mjs:140-155 | the loop returns exactly the even-odd rule over the edges (i, i-1), starting with (0, last) |
| BooleanOps.BooleanOperator.FindAllIntersections | src/BooleanOperators.mjs:179-204 | no two kept points are within epsilon, each is a crossing of an edge pair, every edge pair's crossing is within epsilon of a kept point, and none is kept exactly when no edges cross |
| BooleanOps.BooleanOperator.Difference | src/BooleanOperators.mjs:286-304 | `null` for fewer than two shapes; with no crossings, an empty base throws, an empty outline results when the base's first point is inside the subtracted shape and the base unchanged otherwise; with crossings, the boundary walk |
| BooleanOps.BooleanOperator.CreateResultShape | src/BooleanOperators.mjs:476-496 | a closed `path` holding the points and the operation, with the identity transform, named by the next count for the operation after the first operand |
| BooleanOps.BooleanOperator.PerformOperation | src/BooleanOperators.mjs:498-519 | fewer than two shapes or an unknown operation is an error and uses no name; otherwise the computed outline under the operation's next name |
| BooleanOps.BooleanOperator.PerformDifference | src/BooleanOperators.mjs:522-525 | no arity check: fewer than two shapes give a `null` outline and still use up a name |
| BooleanOps.BooleanOperator.PerformUnion | src/BooleanOperators.mjs:527-530 | no shapes is an error that uses no name; one shape gives its own outline; a result is named for `union` |
| BooleanOps.BooleanOperator.PerformIntersection | src/BooleanOperators.mjs:532-535 | no shapes is an error that uses no name; one shape gives its own outline; a result is named for `intersection` |
| BooleanOps.BooleanOperator.ResetNaming | src/BooleanOperators.mjs:538-540 | every operation counts from 1 again |
| UnifiedLexer.Advanced | src/lexer_parser_unified.mjs:36-44 | `advance` moves the cursor by one, and the column only while a character remains |
| UnifiedLexer.Scan | src/lexer_parser_unified.mjs:54-58 | the text read is exactly the input from the cursor up to the first character that fails the test, every character read passes it, and the cursor stops there |
| UnifiedLexer.NewlineRun | src/lexer_parser_unified.mjs:77-80 | the loop consumes exactly the further line feeds, one line each, and stops before a character that is not a line feed |
| UnifiedLexer.NewLine | src/lexer_parser_unified.mjs:70-84 | a single NEWLINE for a run of line feeds: the run is consumed whole, one line is counted per line feed, and no line feed follows |
| UnifiedLexer.IndentRun | src/lexer_parser_unified.mjs:91-95 | the loop consumes exactly the leading spaces and tabs and counts their width, a space 1 and a tab 4 |
| UnifiedLexer.Indentation | src/lexer_parser_unified.mjs:86-124 | on success the cursor does not move back, and a token it gives carries a width and strictly shrinks the lexer's measure |
| UnifiedLexer.IndentationCases | src/lexer_parser_unified.mjs:86-124 | a blank or comment line changes nothing; INDENT exactly when the line is deeper than the top level, and its width is pushed; DEDENT pops one level; an error exactly when the width lies strictly between the top two levels; the token's value is the width |
| UnifiedLexer.WordKind | src/lexer_parser_unified.mjs:234 | `keywords[result] or 'IDENTIFIER'`: the table's entry for a keyword, IDENTIFIER exactly for words that are neither keywords nor keys every object inherits |
| UnifiedLexer.KeywordsAreNeverIdentifiers | src/lexer_parser_unified.mjs:139-234 | no keyword of the table is typed as an IDENTIFIER |
| UnifiedLexer.LexWord | src/lexer_parser_unified.mjs:131-236 | `identifier` consumes at least one character on a word character and never makes EOF, INDENT or DEDENT |
| UnifiedLexer.LexWordReadsWord | src/lexer_parser_unified.mjs:131-236 | `identifier` reads the longest run of word characters at the cursor and types it with `WordKind` |
| UnifiedLexer.LexNumber | src/lexer_parser_unified.mjs:239-266 | `number` gives a NUMBER and consumes at least one character |
| UnifiedLexer.LexNumberReadsNumeral | src/lexer_parser_unified.mjs:239-266 | what `number` consumes is a numeral (optional `-`, digits, optional `.` and digits) and no digit follows it |
| UnifiedLexer.Unescape | src/lexer_parser_unified.mjs:280-298 | an escape succeeds exactly on `n`, `t`, `r`, `"` and backslash |
| UnifiedLexer.StringBody | src/lexer_parser_unified.mjs:275-310 | on success the loop has consumed at least the closing quote, which is the last character consumed, on the same line |
| UnifiedLexer.LexString | src/lexer_parser_unified.mjs:269-313 | `string` gives a STRING and consumes at least both quotes |
| UnifiedLexer.UnescapeInvertsEscape | src/lexer_parser_unified.mjs:280-298 | each escape letter is read back as the character it stands for; quote and backslash always need an escape |
| UnifiedLexer.StringRoundTrip | src/lexer_parser_unified.mjs:269-313 | a string written with the five escapes and a closing quote is read back as exactly that string, ending just past the quote |
| UnifiedLexer.UnterminatedStringRejected | src/lexer_parser_unified.mjs:305-307 | with no quote ahead, a string literal is an error |
| UnifiedLexer.LexOperator | src/lexer_parser_unified.mjs:366-393 | a two-character comparison exactly when `=` follows the first character |
| UnifiedLexer.NextToken | src/lexer_parser_unified.mjs:318-433 | `getNextToken`: every token but EOF strictly shrinks the measure; EOF comes only at the end of input with every level popped; a token with a width comes only from column 1 |
| UnifiedLexer.Dispatch | src/lexer_parser_unified.mjs:326-423 | the loop body after the indentation check never gives a token with a width, and gives EOF only at the end with every level popped |
| UnifiedLexer.LexAt | src/lexer_parser_unified.mjs:341-423 | the token-making tests never give EOF or a width token and, before the end, always consume a character |
| UnifiedLexer.LexAtRoutes | src/lexer_parser_unified.mjs:341-357 | a line feed gives a NEWLINE, a quote a string, a digit or a `-` before a digit a number, anything else the word and symbol tests |
| UnifiedLexer.LexWordOrSymbol | src/lexer_parser_unified.mjs:360-423 | the word, operator and punctuation tests consume a character before the end and never give EOF or a width token |
| UnifiedLexer.TokensFrom | src/lexer_parser_unified.mjs:438-450 | `tokenize` ends with exactly one EOF, the last token |
| UnifiedLexer.Dedents | src/lexer_parser_unified.mjs:427-430 | n DEDENT tokens with no width |
| UnifiedLexer.FlushAtEnd | src/lexer_parser_unified.mjs:426-433 | at the end of input, one DEDENT per level above the base, then a single EOF |
| UnifiedLexer.BlankLinesHideIndentation | src/lexer_parser_unified.mjs:77-80 | after several line feeds the column is past 1, so the next line's indentation is never examined |
| UnifiedLexer.MinusStartsNumberOnlyBeforeDigit | src/lexer_parser_unified.mjs:352-357 | a `-` starts a NUMBER exactly when a digit follows; otherwise it is the MINUS token |
| UnifiedLexer.MinusIsPunctuation | src/lexer_parser_unified.mjs:395-421 | the punctuation table maps `-` to MINUS |
| UnifiedLexer.OneDedentPerLine | src/lexer_parser_unified.mjs:108-120 | a drop of several levels to a width above zero gives one DEDENT, and the next token carries no width, so the remaining levels are not popped on that line |
| UnifiedLexer.TrailingBlankLineGivesEmptyName | src/lexer_parser_unified.mjs:360-362 | a last line of only blanks as wide as the current level ends in an IDENTIFIER with the empty name, because the letter test passes on `null` |
| UnifiedLexer.DispatchAtEnd | src/lexer_parser_unified.mjs:360-362 | with no current character only the letter test passes, and `identifier` reads the empty name |
| UnifiedLexer.EmptyNameIsIdentifier | src/lexer_parser_unified.mjs:234 | the empty name is neither a keyword nor an inherited key |
| UnifiedLexer.DispatchSteps | src/lexer_parser_unified.mjs:326-339 | blanks and comments are skipped and the loop goes round again; otherwise the token-making tests run |
| UnifiedLexer.NextTokenSteps | src/lexer_parser_unified.mjs:319-324 | at column 1 the indentation is checked first and a token it gives ends the call; otherwise the rest of the loop body runs |
| UnifiedLexer.Lexer.constructor | src/lexer_parser_unified.mjs:19-28 | the lexer starts at position 0, line 1, column 1, with the level stack [0] |
| UnifiedLexer.Lexer.Advance | src/lexer_parser_unified.mjs:36-44 | the state moves as `Advanced` specifies |
| UnifiedLexer.Lexer.Peek | src/lexer_parser_unified.mjs:46-52 | the character after the cursor, or none |
| UnifiedLexer.Lexer.ScanWhile | src/lexer_parser_unified.mjs:54-58 | the loop reads exactly what `Scan` specifies |
| UnifiedLexer.Lexer.SkipWhitespace | src/lexer_parser_unified.mjs:54-58 | the loop skips exactly the blanks at the cursor |
| UnifiedLexer.Lexer.SkipComment | src/lexer_parser_unified.mjs:60-65 | the loop skips up to the next line feed or the end |
| UnifiedLexer.Lexer.HandleNewLine | src/lexer_parser_unified.mjs:70-84 | the token and new state are exactly `NewLine` |
| UnifiedLexer.Lexer.HandleIndentation | src/lexer_parser_unified.mjs:86-124 | the outcome and new state are exactly `Indentation` |
| UnifiedLexer.Lexer.CountIndent | src/lexer_parser_unified.mjs:91-95 | the width and new state are exactly `IndentRun` |
| UnifiedLexer.Lexer.ReadIdentifier | src/lexer_parser_unified.mjs:131-236 | the token and new state are exactly `LexWord` |
| UnifiedLexer.Lexer.ReadNumber | src/lexer_parser_unified.mjs:239-266 | the token and new state are exactly `LexNumber` |
| UnifiedLexer.Lexer.ReadString | src/lexer_parser_unified.mjs:269-313 | the outcome and new state are exactly `LexString` |
| UnifiedLexer.Lexer.ReadOperator | src/lexer_parser_unified.mjs:366-393 | the token and new state are exactly `LexOperator` |
| UnifiedLexer.Lexer.ReadWordOrSymbol | src/lexer_parser_unified.mjs:360-423 | the outcome and new state are exactly `LexWordOrSymbol` |
| UnifiedLexer.Lexer.ReadToken | src/lexer_parser_unified.mjs:341-423 | the outcome and new state are exactly `LexAt` |
| UnifiedLexer.Lexer.ReadNumberOrWord | src/lexer_parser_unified.mjs:352-423 | the outcome and new state are exactly `LexNumberOrWord` for the reader the two characters select |
| UnifiedLexer.Lexer.GetNextToken | src/lexer_parser_unified.mjs:318-433 | the outcome and new state are exactly `NextToken` |
| UnifiedLexer.Lexer.CheckIndentation | src/lexer_parser_unified.mjs:321-324 | a token or error from the indentation check is `NextToken`'s outcome; otherwise `NextToken` continues with the rest of the loop body from the new state |
| UnifiedLexer.Lexer.SkipBlankOrComment | src/lexer_parser_unified.mjs:326-339 | a skip moves the cursor and `getNextToken` restarts from there; otherwise nothing changes and the token-making tests run |
| UnifiedLexer.Lexer.EndOfInput | src/lexer_parser_unified.mjs:426-433 | at the end of input the token and new state are exactly `NextToken` |
| UnifiedLexer.Lexer.Tokenize | src/lexer_parser_unified.mjs:438-450 | the tokens are exactly `TokensFrom` the starting state |
| UnifiedLexer.LexNumberOrWord | src/lexer_parser_unified.mjs:352-423 | the number, word and symbol tests consume at least one character while one remains, leave the stack alone, and never give EOF or a width token |
| UnifiedLexer.MinusBeforeDigit | src/lexer_parser_unified.mjs:352-357 | a `-` before a digit starts a number |
| UnifiedLexer.MinusAlone | src/lexer_parser_unified.mjs:395-421 | a `-` with no digit after it is a MINUS token of one character |
| UnifiedLexer.ClosingQuote | src/lexer_parser_unified.mjs:276-312 | the string loop stops at the closing quote, consumes it and returns the text collected |
| UnifiedLexer.EmptyWordAtEnd | src/lexer_parser_unified.mjs:360-362 | when the indentation check has consumed the last characters, the letter test passes on null and the lexer gives an IDENTIFIER with the empty name without moving |
| UnifiedParser.Next | src/lexer_parser_unified.mjs:483 | `current++` past a token that is not the EOF stays inside the stream |
| UnifiedParser.Eaten | src/lexer_parser_unified.mjs:480-487 | `eat` succeeds exactly when the current token has the type, then moves past it; otherwise "Expected type, but got ..." |
| UnifiedParser.PastNewline | src/lexer_parser_unified.mjs:669-671 | an optional NEWLINE is skipped exactly when it is there |
| UnifiedParser.ComparisonOperator | src/lexer_parser_unified.mjs:883-908 | exactly the six comparison token types have an operator, and it is one of `== != > < >= <=` |
| UnifiedParser.LogicalExpression | src/lexer_parser_unified.mjs:862-880 | consumes at least one token and stops at a token that is not `and` or `or`; with no parentheses ahead the tree is left-folded logic over comparisons |
| UnifiedParser.LogicalTail | src/lexer_parser_unified.mjs:865-878 | the `and`/`or` loop stops at a token that is neither, and keeps the tree left-folded |
| UnifiedParser.ComparisonExpression | src/lexer_parser_unified.mjs:883-908 | consumes at least one token and stops at a token that is not a comparison; with no parentheses ahead the tree is left-folded comparisons over arithmetic |
| UnifiedParser.ComparisonTail | src/lexer_parser_unified.mjs:886-906 | the comparison loop stops at a token that is not a comparison, and keeps the tree left-folded |
| UnifiedParser.ArithmeticExpression | src/lexer_parser_unified.mjs:912-932 | consumes at least one token and stops at a token that is not `+ - * /`; with no parentheses ahead the tree is a left fold of basic expressions |
| UnifiedParser.ArithmeticTail | src/lexer_parser_unified.mjs:915-930 | the arithmetic loop stops at a token that is not `+ - * /`, and keeps the tree left-folded |
| UnifiedParser.BasicExpression | src/lexer_parser_unified.mjs:935-1017 | consumes at least one token; any token that cannot start a basic expression is "Unexpected token in expression" |
| UnifiedParser.Parenthesized | src/lexer_parser_unified.mjs:1003-1009 | a parenthesised expression consumes at least the `(` |
| UnifiedParser.NameOrAccess | src/lexer_parser_unified.mjs:975-1001 | the name alone unless a `.` follows; otherwise a property access |
| UnifiedParser.ArrayLiteral | src/lexer_parser_unified.mjs:1019-1042 | an array literal consumes at least the `[` and, with no parentheses ahead, its elements are left-folded expressions |
| UnifiedParser.ArrayItems | src/lexer_parser_unified.mjs:1023-1035 | the element loop only appends to the elements already read |
| UnifiedParser.ArrayItemsAfter | src/lexer_parser_unified.mjs:1027-1034 | after an element a comma continues the loop and anything else ends it; elements are only appended |
| UnifiedParser.LogicalOneLine | src/lexer_parser_unified.mjs:855-1042 | an expression never spans a NEWLINE, INDENT or DEDENT token |
| UnifiedParser.ArithmeticIsOneLevel | src/lexer_parser_unified.mjs:912-932 | `2 + 3 * 4` parses as `(2 + 3) * 4`: the four operators share one level and fold to the left |
| UnifiedParser.ComparisonsChainLeft | src/lexer_parser_unified.mjs:883-908 | `a < b < c` parses as `(a < b) < c` |
| UnifiedParser.LogicIsOneLevel | src/lexer_parser_unified.mjs:862-880 | `a or b and c` parses as `(a or b) and c` |
| UnifiedParser.ComparisonBindsTighter | src/lexer_parser_unified.mjs:862-908 | `a and b < c` parses as `a and (b < c)` |
| UnifiedParser.PropertyPair | src/lexer_parser_unified.mjs:832-846 | a property is keyed by its own token's text, and a token that is not a PROPERTY is "Expected PROPERTY" |
| UnifiedParser.Params | src/lexer_parser_unified.mjs:674-688 | the property loop ends at DEDENT or EOF; a token that is neither a property nor a line break makes it spin (modelled as an error) |
| UnifiedParser.ParamsKeysDistinct | src/lexer_parser_unified.mjs:674-688 | repeating a property overwrites its value, so the parameters never hold a name twice |
| UnifiedParser.ShapeKeysDistinct | src/lexer_parser_unified.mjs:663-697 | a parsed shape's parameters hold each property name once |
| UnifiedParser.ShapeDeclaration | src/lexer_parser_unified.mjs:663-697 | a shape declaration consumes tokens and keeps the shape type's text |
| UnifiedParser.FilletDeclaration | src/lexer_parser_unified.mjs:702-728 | a fillet declaration consumes tokens and gives a fillet node |
| UnifiedParser.Body | src/lexer_parser_unified.mjs:558-566 | the statement loop only appends and ends at DEDENT or EOF |
| UnifiedParser.Suite | src/lexer_parser_unified.mjs:552-567 | an indented block consumes at least one token |
| UnifiedParser.IfStatement | src/lexer_parser_unified.mjs:546-598 | an `if` gives an if node, and one without an `else` block is not followed by ELSE |
| UnifiedParser.IfBlocks | src/lexer_parser_unified.mjs:552-597 | the blocks of an `if` give an if node, and no `else` block is left unread |
| UnifiedParser.LoopRangeOf | src/lexer_parser_unified.mjs:609-621 | the range is a `range(start, end)` call exactly when it starts with RANGE |
| UnifiedParser.ForStatement | src/lexer_parser_unified.mjs:603-658 | a `for` consumes tokens and gives a loop node |
| UnifiedParser.LayerCommand | src/lexer_parser_unified.mjs:762-786 | a token other than ADD, SUBTRACT or PROPERTY is "Unexpected token in layer command" |
| UnifiedParser.LayerCommands | src/lexer_parser_unified.mjs:744-752 | the command loop only appends and ends at DEDENT or EOF |
| UnifiedParser.LayerDeclaration | src/lexer_parser_unified.mjs:733-760 | a layer declaration consumes tokens and gives a layer node |
| UnifiedParser.TransformOperation | src/lexer_parser_unified.mjs:820-827 | an operation is keyed by its own token's text, and a token that is not a PROPERTY is "Expected PROPERTY" |
| UnifiedParser.TransformOperations | src/lexer_parser_unified.mjs:802-810 | the operation loop only appends and ends at DEDENT or EOF |
| UnifiedParser.TransformDeclaration | src/lexer_parser_unified.mjs:791-818 | a transform declaration consumes tokens and gives a transform node |
| UnifiedParser.Statement | src/lexer_parser_unified.mjs:522-541 | a token that starts no statement is "Unexpected token in statement" |
| UnifiedParser.PastNewlines | src/lexer_parser_unified.mjs:497-499 | skips exactly the NEWLINE tokens ahead |
| UnifiedParser.Statements | src/lexer_parser_unified.mjs:492-517 | the statement loop only appends |
| UnifiedParser.Parser.constructor | src/lexer_parser_unified.mjs:457-463 | the parser starts on the first token, outside any loop |
| UnifiedParser.Parser.CurrentToken | src/lexer_parser_unified.mjs:472-474 | the current token is one of the tokens |
| UnifiedParser.Parser.Eat | src/lexer_parser_unified.mjs:480-487 | on a match the token is returned and `current` moves on by one; otherwise "Expected" and nothing moves; the outcome is `Eaten` |
| UnifiedParser.Parser.SkipNewline | src/lexer_parser_unified.mjs:669-671 | `current` ends where `PastNewline` says |
| UnifiedParser.Parser.ParseExpression | src/lexer_parser_unified.mjs:855-859 | the outcome and new position are exactly `LogicalExpression` |
| UnifiedParser.Parser.ParseLogicalExpression | src/lexer_parser_unified.mjs:862-880 | the outcome and new position are exactly `LogicalExpression` |
| UnifiedParser.Parser.ParseComparisonExpression | src/lexer_parser_unified.mjs:883-908 | the outcome and new position are exactly `ComparisonExpression` |
| UnifiedParser.Parser.ParseArithmeticExpression | src/lexer_parser_unified.mjs:912-932 | the outcome and new position are exactly `ArithmeticExpression` |
| UnifiedParser.Parser.ParseBasicExpression | src/lexer_parser_unified.mjs:935-1017 | the outcome and new position are exactly `BasicExpression` |
| UnifiedParser.Parser.ParseArray | src/lexer_parser_unified.mjs:1019-1042 | the outcome and new position are exactly `ArrayLiteral` |
| UnifiedParser.Parser.ParseProperty | src/lexer_parser_unified.mjs:832-846 | the outcome and new position are exactly `PropertyPair` |
| UnifiedParser.Parser.ParseParams | src/lexer_parser_unified.mjs:674-688 | the outcome and new position are exactly `Params` from no parameters |
| UnifiedParser.Parser.ParseShapeDeclaration | src/lexer_parser_unified.mjs:663-697 | the outcome and new position are exactly `ShapeDeclaration` |
| UnifiedParser.Parser.ParseFillet | src/lexer_parser_unified.mjs:702-728 | the outcome and new position are exactly `FilletDeclaration` |
| UnifiedParser.Parser.ParseBody | src/lexer_parser_unified.mjs:558-566 | the outcome and new position are exactly `Body` |
| UnifiedParser.Parser.ParseSuite | src/lexer_parser_unified.mjs:552-567 | the outcome and new position are exactly `Suite` |
| UnifiedParser.Parser.ParseIfStatement | src/lexer_parser_unified.mjs:546-598 | the outcome and new position are exactly `IfStatement` |
| UnifiedParser.Parser.ParseLoopRange | src/lexer_parser_unified.mjs:609-621 | the outcome and new position are exactly `LoopRangeOf` |
| UnifiedParser.Parser.ParseForLoop | src/lexer_parser_unified.mjs:603-658 | the outcome and new position are exactly `ForStatement`; on success the loop flag and iterator are as before |
| UnifiedParser.Parser.ParseLoopSuite | src/lexer_parser_unified.mjs:624-650 | the block is parsed as `Suite`, and on success the loop context is put back |
| UnifiedParser.Parser.ParseLayerCommand | src/lexer_parser_unified.mjs:762-786 | the outcome and new position are exactly `LayerCommand` |
| UnifiedParser.Parser.ParseLayer | src/lexer_parser_unified.mjs:733-760 | the outcome and new position are exactly `LayerDeclaration` |
| UnifiedParser.Parser.ParseTransformOperation | src/lexer_parser_unified.mjs:820-827 | the outcome and new position are exactly `TransformOperation` |
| UnifiedParser.Parser.ParseTransform | src/lexer_parser_unified.mjs:791-818 | the outcome and new position are exactly `TransformDeclaration` |
| UnifiedParser.Parser.ParseStatement | src/lexer_parser_unified.mjs:522-541 | the outcome and new position are exactly `Statement` |
| UnifiedParser.Parser.Parse | src/lexer_parser_unified.mjs:492-517 | the statements are exactly `Statements` from the current position |
| UnifiedParser.ParseInput | src/lexer_parser_unified.mjs:438-517 | lexing then parsing a text gives exactly `ParseSource` of it |
| LogicalLexer.WordKind | src/logical_lexer_and_parser.mjs:7-70 | a word is IDENTIFIER exactly when the keyword table has no entry for it and it is not a name inherited from `Object.prototype`; a table word takes its table type |
| LogicalLexer.KeywordsAreNeverIdentifiers | src/logical_lexer_and_parser.mjs:121 | a word of the keyword table is never read as an identifier |
| LogicalLexer.Word | src/logical_lexer_and_parser.mjs:112-123 | `identifier` reads exactly the longest run of word characters, types it by the table, keeps its start column and line, and consumes at least one character on a letter |
| LogicalLexer.PopLevels | src/logical_lexer_and_parser.mjs:146-155 | the dedent loop pops exactly the levels deeper than the width, leaving a stack that is a prefix of the old one with a top no deeper than the width; its only error is "Invalid dedentation" |
| LogicalLexer.DedentLandsOnLevel | src/logical_lexer_and_parser.mjs:146-155 | a dedent succeeds exactly when the new width is one of the open levels |
| LogicalLexer.Indentation | src/logical_lexer_and_parser.mjs:125-158 | `handleIndentation` consumes only blanks on the current line and gives only INDENT and DEDENT tokens |
| LogicalLexer.IndentationBalance | src/logical_lexer_and_parser.mjs:136-156 | the INDENT tokens minus the DEDENT tokens of `handleIndentation` equal the growth of the stack, and it gives no NEWLINE |
| LogicalLexer.IndentationRejects | src/logical_lexer_and_parser.mjs:136-155 | `handleIndentation` fails exactly on a line that is not blank or a comment, shallower than the top, whose width is not an open level |
| LogicalLexer.MoreNewlines | src/logical_lexer_and_parser.mjs:93-97 | the loop over further line feeds moves forward and leaves the stack as it was |
| LogicalLexer.NewlineRun | src/logical_lexer_and_parser.mjs:93-97 | that loop consumes exactly the further line feeds, gives one NEWLINE per line feed, moves the line counter once per line feed, and stops before a character that is not one |
| LogicalLexer.NewLines | src/logical_lexer_and_parser.mjs:85-110 | `handleNewLine` consumes at least the line feed it stands on and gives no EOF |
| LogicalLexer.NewLinesCount | src/logical_lexer_and_parser.mjs:85-110 | `handleNewLine` gives one NEWLINE per line feed it consumes, moves the line counter once per NEWLINE, and its INDENT minus DEDENT tokens equal the growth of the stack |
| LogicalLexer.SpecialKind | src/logical_lexer_and_parser.mjs:349-357 | the `specialChars` table has an entry exactly for `: . , [ ] ( )` |
| LogicalLexer.Classify | src/logical_lexer_and_parser.mjs:286-370 | the tests of the loop body in their order: a name starts on a letter, a number on a digit or on a `-` before a digit, an operator on one of `> < = !`, a punctuation mark on a `specialChars` entry |
| LogicalLexer.ReadOne | src/logical_lexer_and_parser.mjs:306-368 | a name, a number, an operator or a punctuation mark is one token on the current line that consumes at least one character and leaves the stack alone |
| LogicalLexer.Rest | src/logical_lexer_and_parser.mjs:286-370 | the tests of one loop round move forward while a character remains and give no EOF |
| LogicalLexer.RestAccounts | src/logical_lexer_and_parser.mjs:286-370 | the tests of one round give one NEWLINE per line feed consumed and INDENT minus DEDENT equal to the growth of the stack |
| LogicalLexer.NoArithmeticOrStrings | src/logical_lexer_and_parser.mjs:349-370 | a quote, a brace, `+`, `*`, a `-` with no digit after it and a `/` that does not start a comment are each "Unexpected character" |
| LogicalLexer.LoopRound | src/logical_lexer_and_parser.mjs:273-371 | one round of the `tokenize` loop consumes at least one character and gives no EOF |
| LogicalLexer.RoundAccounts | src/logical_lexer_and_parser.mjs:273-371 | one round gives one NEWLINE per line feed consumed and INDENT minus DEDENT equal to the growth of the stack |
| LogicalLexer.Flush | src/logical_lexer_and_parser.mjs:373-380 | the end of `tokenize` is one token per open level and then EOF, the only EOF |
| LogicalLexer.FlushAccounts | src/logical_lexer_and_parser.mjs:373-377 | the closing tokens are DEDENT tokens, one per open level above the base, and no NEWLINE |
| LogicalLexer.Run | src/logical_lexer_and_parser.mjs:271-381 | a token list `tokenize` returns ends with EOF, its only EOF |
| LogicalLexer.RunAccounts | src/logical_lexer_and_parser.mjs:271-381 | from any state, the rest of `tokenize` gives one NEWLINE per line feed left and closes every level that is open |
| LogicalLexer.IndentsBalance | src/logical_lexer_and_parser.mjs:271-381 | a token list `tokenize` returns holds as many DEDENT as INDENT tokens and one NEWLINE per line feed of the input |
| LogicalLexer.Lexer.constructor | src/lexer_parser_unified.mjs:19-28 | the cursor starts at the first character, on line 1 and column 1, with the indentation stack `[0]` |
| LogicalLexer.Lexer.Advance | src/lexer_parser_unified.mjs:36-44 | `advance` moves the cursor as the specification of the shared cursor says |
| LogicalLexer.Lexer.Peek | src/lexer_parser_unified.mjs:46-52 | `peek` is the character after the cursor, or null past the end |
| LogicalLexer.Lexer.ScanWhile | src/logical_lexer_and_parser.mjs:116-119 | the reading loop ends in the state, and with the text, that the shared scan specifies |
| LogicalLexer.Lexer.SkipWhitespace | src/logical_lexer_and_parser.mjs:73-77 | `skipWhitespace` ends where the blank run ends |
| LogicalLexer.Lexer.SkipComment | src/logical_lexer_and_parser.mjs:79-83 | `skipComment` ends at the next line feed or at the end of input |
| LogicalLexer.Lexer.HandleNewLine | src/logical_lexer_and_parser.mjs:85-110 | `handleNewLine` gives the tokens and the new state of `NewLines` |
| LogicalLexer.Lexer.FurtherLines | src/logical_lexer_and_parser.mjs:93-97 | the loop over further line feeds gives the tokens and the state of `MoreNewlines` |
| LogicalLexer.Lexer.Identifier | src/logical_lexer_and_parser.mjs:112-123 | `identifier` gives the token and the state of `Word` |
| LogicalLexer.Lexer.HandleIndentation | src/logical_lexer_and_parser.mjs:125-158 | `handleIndentation` gives the tokens and the state of `Indentation` |
| LogicalLexer.Lexer.CountIndent | src/logical_lexer_and_parser.mjs:126-133 | the counting loop gives the width and the state of the shared indentation run, a space 1 and a tab 4 |
| LogicalLexer.Lexer.PopDeeper | src/logical_lexer_and_parser.mjs:146-155 | the dedent loop leaves the stack `PopLevels` computes, with one DEDENT per level popped, or fails exactly when `PopLevels` does |
| LogicalLexer.Lexer.ReadNumber | src/logical_lexer_and_parser.mjs:160-185 | `number` gives the token and the state of the shared number reader |
| LogicalLexer.Lexer.ReadComparison | src/logical_lexer_and_parser.mjs:320-346 | a comparison character, alone or followed by `=`, gives the token and the state of the shared operator reader |
| LogicalLexer.Lexer.Tests | src/logical_lexer_and_parser.mjs:286-370 | the tests of one round give the tokens, the state or the error of `Rest` |
| LogicalLexer.Lexer.ReadOneToken | src/logical_lexer_and_parser.mjs:306-368 | the one-token tests give the token and the state of `ReadOne` |
| LogicalLexer.Lexer.Round | src/logical_lexer_and_parser.mjs:273-371 | one round of the loop gives the tokens, the state or the error of `LoopRound` |
| LogicalLexer.Lexer.Tokenize | src/logical_lexer_and_parser.mjs:271-381 | `tokenize` returns the tokens or the error of `Run` |
| LogicalLexer.Lexer.Rounds | src/logical_lexer_and_parser.mjs:273-371 | the main loop reaches the end of input having collected a prefix of `Run`, or fails with the error `Run` gives |
| LogicalLexer.Lexer.Close | src/logical_lexer_and_parser.mjs:373-380 | at the end of input, the closing tokens are what `Run` gives there |
| LogicalParser.Eaten | src/lexer_parser_unified.mjs:480-487 | `eat(type)` succeeds exactly when the current token has the type, and then moves the cursor past it; otherwise it fails naming the type expected and the token found |
| LogicalParser.LogicalExpression | src/logical_lexer_and_parser.mjs:484-502 | a condition uses at least one token and stops before any `and` or `or`; over tokens with no parenthesis, the result is comparisons joined by `and`/`or` nodes |
| LogicalParser.LogicalTail | src/logical_lexer_and_parser.mjs:487-499 | the `and`/`or` loop runs until the current token is neither, folding each operand into the left-hand tree |
| LogicalParser.ComparisonExpression | src/logical_lexer_and_parser.mjs:504-530 | a comparison uses at least one token; over tokens with no parenthesis it is a basic expression or a single comparison of two basic expressions |
| LogicalParser.BasicExpression | src/logical_lexer_and_parser.mjs:532-592 | a basic expression uses at least one token; a token that starts none of the listed forms is "Unexpected token in expression" |
| LogicalParser.Parenthesized | src/logical_lexer_and_parser.mjs:583-587 | a parenthesised condition uses its tokens up to past the `)` |
| LogicalParser.NameOrAccess | src/logical_lexer_and_parser.mjs:557-581 | after a name, a `.` makes a property access and anything else leaves the name alone, consuming nothing more |
| LogicalParser.NameAlone | src/logical_lexer_and_parser.mjs:557-581 | a name not followed by `.` is an identifier node and uses one token |
| LogicalParser.ComparisonsDoNotChain | src/logical_lexer_and_parser.mjs:516-529 | in `a < b < c` the comparison takes `a < b` only and the second `<` is left over |
| LogicalParser.ChainedConditionRejected | src/logical_lexer_and_parser.mjs:434-438 | so `if a < b < c:` fails with the colon expected where the second `<` stands |
| LogicalParser.LogicIsOneLevel | src/logical_lexer_and_parser.mjs:484-502 | `a or b and c` is `(a or b) and c`: `and` and `or` have one precedence and fold to the left |
| LogicalParser.NoNegation | src/logical_lexer_and_parser.mjs:589-591 | `not`, `-` and `[` start no condition: each is "Unexpected token in expression" |
| LogicalParser.Statement | src/logical_lexer_and_parser.mjs:417-432 | `parseStatement` uses at least one token; shapes, layers and transforms go to the inherited parsers unchanged, and any token other than those and IF is "Unexpected token in statement" |
| LogicalParser.Body | src/logical_lexer_and_parser.mjs:445-451 | the block loop keeps every statement it has, and stops only at DEDENT or EOF |
| LogicalParser.Suite | src/logical_lexer_and_parser.mjs:438-453 | a block after `:` uses its tokens up to and including a DEDENT |
| LogicalParser.IfStatement | src/logical_lexer_and_parser.mjs:434-482 | `parseIfStatement` gives an `if` node and uses at least one token; with no `else` block, the next token is not ELSE |
| LogicalParser.IfBlocks | src/logical_lexer_and_parser.mjs:438-481 | the part after the condition gives an `if` node; with no `else` block the next token is not ELSE |
| LogicalParser.ElseClause | src/logical_lexer_and_parser.mjs:455-474 | with no ELSE token there is no `else` block and nothing is consumed; an `else` block ends just after a DEDENT |
| LogicalParser.Statements | src/logical_lexer_and_parser.mjs:390-415 | the `parse` loop keeps every statement it has already collected |
| LogicalParser.Parser.constructor | src/logical_lexer_and_parser.mjs:386-388 | the parser starts at the first token of the list |
| LogicalParser.Parser.Eat | src/lexer_parser_unified.mjs:480-487 | `eat` returns the current token and moves past it exactly as `Eaten` says, or fails with its error |
| LogicalParser.Parser.SkipNewline | src/logical_lexer_and_parser.mjs:439-441 | the optional line break is consumed when present and only then |
| LogicalParser.Parser.ParseLogicalExpression | src/logical_lexer_and_parser.mjs:484-502 | the loop gives the expression, the cursor or the error of `LogicalExpression` |
| LogicalParser.Parser.ParseComparisonExpression | src/logical_lexer_and_parser.mjs:504-530 | the method gives the outcome of `ComparisonExpression` |
| LogicalParser.Parser.ParseBasicExpression | src/logical_lexer_and_parser.mjs:532-592 | the method gives the outcome of `BasicExpression` |
| LogicalParser.Parser.ParseStatement | src/logical_lexer_and_parser.mjs:417-432 | the method gives the outcome of `Statement` |
| LogicalParser.Parser.ParseBody | src/logical_lexer_and_parser.mjs:445-451 | the block loop gives the statements, the cursor or the error of `Body` |
| LogicalParser.Parser.ParseSuite | src/logical_lexer_and_parser.mjs:438-453 | the method gives the outcome of `Suite` |
| LogicalParser.Parser.ParseIfStatement | src/logical_lexer_and_parser.mjs:434-482 | the method gives the outcome of `IfStatement` |
| LogicalParser.Parser.ParseElse | src/logical_lexer_and_parser.mjs:455-474 | the method gives the outcome of `ElseClause` |
| LogicalParser.Parser.Parse | src/logical_lexer_and_parser.mjs:390-415 | `parse` returns the statements or the error of `Statements` from the cursor |
| LogicalParser.ParseInput | src/logical_lexer_and_parser.mjs:271-415 | tokenizing and then parsing a text gives `ParseSource`: a lexical error, or the statements of the token list |
| BraceParser.Pull | src/parser.mjs:7 | the lexer hands out the tokens in order and then keeps returning the final EOF |
| BraceParser.Eaten | src/parser.mjs:14-22 | `eat(type)` succeeds exactly when the current token has the type; it then pulls the lexer's next token, which moves forward unless EOF was eaten; otherwise it fails naming the type expected and the token found |
| BraceParser.Consume | src/parser.mjs:14-22 | `eat` of the type just tested always succeeds and gives the state `eat` would |
| BraceParser.ComparisonNames | src/parser.mjs:68-69 | the operator of a comparison node is the lower-cased token type, one of the six comparison names |
| BraceParser.Condition | src/parser.mjs:25-45 | a condition uses at least one token and stops before any `or`; over tokens with no parenthesis it is `and` chains under left-folded `or` nodes, with precedence `or` < `and` < comparison < `+ -` < `* /` < factor |
| BraceParser.OrTail | src/parser.mjs:34-43 | the `or` loop runs until the current token is not `or`, folding each `and` chain into the left-hand tree |
| BraceParser.LogicalAnd | src/parser.mjs:48-62 | an `and` chain uses at least one token and stops before any `and`; over tokens with no parenthesis it is comparisons under left-folded `and` nodes |
| BraceParser.AndTail | src/parser.mjs:51-60 | the `and` loop runs until the current token is not `and`, folding each comparison into the left-hand tree |
| BraceParser.Comparison | src/parser.mjs:65-79 | a comparison uses at least one token; over tokens with no parenthesis it is a sum or a single comparison node over two sums |
| BraceParser.Expression | src/parser.mjs:81-94 | an expression uses at least one token and stops before `+` and `-`; over tokens with no parenthesis it is products under left-folded `+`/`-` nodes |
| BraceParser.ExprTail | src/parser.mjs:83-92 | the `+`/`-` loop folds each product into the left-hand tree until neither sign is current |
| BraceParser.Term | src/parser.mjs:96-109 | a term uses at least one token and stops before `*` and `/`; over tokens with no parenthesis it is factors under left-folded `*`/`/` nodes |
| BraceParser.TermTail | src/parser.mjs:98-107 | the `*`/`/` loop folds each factor into the left-hand tree until neither sign is current |
| BraceParser.Factor | src/parser.mjs:111-166 | a factor uses at least one token; over tokens with no parenthesis it is a literal, a name, a property reference, an array, or `not`/`-` over a single factor; any other leading token is "Unexpected token in factor" |
| BraceParser.StringWords | src/parser.mjs:199-203 | the loop that reads straight from the lexer keeps the words it has and moves forward while tokens remain |
| BraceParser.StringWordsRead | src/parser.mjs:199-203 | that loop collects exactly the values of the tokens before the first QUOTE or EOF, and the lexer stops just past that token |
| BraceParser.StringLiteral | src/parser.mjs:197-206 | entered on a quote, the string literal gives a string node and uses at least one token; entered on anything else, the final `eat('QUOTE')` fails |
| BraceParser.ArrayLiteral | src/parser.mjs:208-217 | an array uses at least one token and, over tokens with no parenthesis, its elements are sums |
| BraceParser.ArrayItems | src/parser.mjs:211-214 | the element loop stops only at `]` |
| BraceParser.IfStatement | src/parser.mjs:169-196 | `parseIfStatement` gives an `if` node and uses at least one token |
| BraceParser.ElsePart | src/parser.mjs:180-188 | with no ELSE token the else branch is the empty list and nothing is consumed |
| BraceParser.Block | src/parser.mjs:175-177 | a branch body keeps every statement it has and stops only at `}` or EOF |
| BraceParser.ParamDecl | src/parser.mjs:219-225 | `parseParam` gives a `param` node and uses at least one token |
| BraceParser.ShapeName | src/parser.mjs:231-235 | the shape name is present exactly when the token after the type is an IDENTIFIER, and is that token's value |
| BraceParser.ShapeDecl | src/parser.mjs:227-249 | `parseShape` gives a `shape` node and uses at least one token |
| BraceParser.ShapeBody | src/parser.mjs:236-248 | the braces of a shape give a `shape` node and use at least the closing `}` |
| BraceParser.ShapeParams | src/parser.mjs:238-246 | the parameter loop stops at `}`, keeps every name already stored, and a token other than `}`, IDENTIFIER or POSITION is "Expected property name" |
| BraceParser.LayerDecl | src/parser.mjs:251-277 | `parseLayer` gives a `layer` node and uses at least one token |
| BraceParser.LayerCommand | src/parser.mjs:258-273 | a layer command is an `if`, `add`, `subtract` or `rotate` node; any other token is "Unknown layer command" |
| BraceParser.LayerCommands | src/parser.mjs:257-274 | the layer loop stops at `}`, keeps the commands it has, adds only layer commands, and fails on an unknown command |
| BraceParser.TransformDecl | src/parser.mjs:279-306 | `parseTransform` gives a `transform` node and uses at least one token |
| BraceParser.TransformCommand | src/parser.mjs:286-302 | a transform operation is an `if`, `scale`, `rotate` or `translate` node; any other token is "Unknown transform command" |
| BraceParser.TransformOps | src/parser.mjs:285-303 | the transform loop stops at `}`, keeps the operations it has, adds only transform operations, and fails on an unknown command |
| BraceParser.TransformOp | src/parser.mjs:288-299 | `scale:`, `rotate:` and `position:` give a `scale`, a `rotate` and a `translate` node |
| BraceParser.Statement | src/parser.mjs:308-346 | a statement uses at least one token; a leading token other than IF, PARAM, SHAPE, LAYER, TRANSFORM, ADD and ROTATE is "Unexpected token" |
| BraceParser.AddStatement | src/parser.mjs:326-333 | the ADD arm gives an `add` node |
| BraceParser.RotateStatement | src/parser.mjs:334-341 | the ROTATE arm gives a `rotate` node |
| BraceParser.Statements | src/parser.mjs:348-354 | the `parse` loop keeps every statement it has already collected |
| BraceParser.TokenSource.constructor | src/parser.mjs:7 | the lexer starts at the first token |
| BraceParser.TokenSource.GetNextToken | src/parser.mjs:17 | `getNextToken` hands out the token and the position `Pull` gives |
| BraceParser.Parser.constructor | src/parser.mjs:5-8 | the constructor takes the lexer's first token as current |
| BraceParser.Parser.Eat | src/parser.mjs:14-22 | `eat` gives the state or the error of `Eaten` |
| BraceParser.Parser.Advance | src/parser.mjs:14-22 | `eat` of the type just tested gives the state of `Consume` |
| BraceParser.Parser.ParseCondition | src/parser.mjs:25-28 | the method gives the outcome of `Condition` |
| BraceParser.Parser.ParseLogicalOr | src/parser.mjs:31-45 | the `or` loop gives the outcome of `Condition` |
| BraceParser.Parser.ParseLogicalAnd | src/parser.mjs:48-62 | the `and` loop gives the outcome of `LogicalAnd` |
| BraceParser.Parser.ParseComparison | src/parser.mjs:65-79 | the method gives the outcome of `Comparison` |
| BraceParser.Parser.ParseExpression | src/parser.mjs:81-94 | the `+`/`-` loop gives the outcome of `Expression` |
| BraceParser.Parser.ParseTerm | src/parser.mjs:96-109 | the `*`/`/` loop gives the outcome of `Term` |
| BraceParser.Parser.ParseFactor | src/parser.mjs:111-166 | the method gives the outcome of `Factor` |
| BraceParser.Parser.ParseStringLiteral | src/parser.mjs:197-206 | the method gives the outcome of `StringLiteral` |
| BraceParser.Parser.ParseArray | src/parser.mjs:208-217 | the element loop gives the outcome of `ArrayLiteral` |
| BraceParser.Parser.ParseBlock | src/parser.mjs:175-177 | the statement loop of a branch gives the outcome of `Block` |
| BraceParser.Parser.ParseIfStatement | src/parser.mjs:169-196 | the method gives the outcome of `IfStatement` |
| BraceParser.Parser.ParseParam | src/parser.mjs:219-225 | the method gives the outcome of `ParamDecl` |
| BraceParser.Parser.ParseShape | src/parser.mjs:227-249 | the method gives the outcome of `ShapeDecl` |
| BraceParser.Parser.ParseShapeParams | src/parser.mjs:238-246 | the parameter loop gives the outcome of `ShapeParams`, a later value for a name replacing the earlier one |
| BraceParser.Parser.ParseLayer | src/parser.mjs:251-277 | the method gives the outcome of `LayerDecl` |
| BraceParser.Parser.ParseTransform | src/parser.mjs:279-306 | the method gives the outcome of `TransformDecl` |
| BraceParser.Parser.ParseStatement | src/parser.mjs:308-346 | the method gives the outcome of `Statement` |
| BraceParser.Parser.ParseAdd | src/parser.mjs:326-333 | the method gives the outcome of `AddStatement` |
| BraceParser.Parser.ParseRotate | src/parser.mjs:334-341 | the method gives the outcome of `RotateStatement` |
| BraceParser.Parser.Parse | src/parser.mjs:348-354 | `parse` returns the statements or the error of `Statements` from the current state |
| BraceParser.ParseProgram | src/parser.mjs:5-8 | a parser over a lexer that hands out the tokens returns `Parse` of them |
| CalcLexer.Advanced | src/lexer_and_parser.js:20-28 | `advance` moves the cursor by one on the same line |
| CalcLexer.SkipWs | src/lexer_and_parser.js:30-38 | `skipWhitespace` consumes exactly the run of white space at the cursor and stops before a character that is not white space |
| CalcLexer.SkipCountsLines | src/lexer_and_parser.js:30-38 | `line` grows by exactly the number of line feeds skipped |
| CalcLexer.Scan | src/lexer_and_parser.js:42-45 | the reading loop takes exactly the longest run of accepted characters from the cursor, on the same line |
| CalcLexer.LexNumber | src/lexer_and_parser.js:40-55 | `number` gives a NUMBER token and consumes at least one character |
| CalcLexer.KeywordKind | src/lexer_and_parser.js:64-73 | a word is IDENTIFIER exactly when it is none of the six keywords and not a name inherited from `Object.prototype` |
| CalcLexer.LexWord | src/lexer_and_parser.js:57-75 | `identifier` consumes at least one character |
| CalcLexer.NextToken | src/lexer_and_parser.js:77-126 | `getNextToken` moves forward; a token other than EOF consumes at least one character; EOF comes only at the end of input; no parenthesis token is ever produced |
| CalcLexer.SkipsFirst | src/lexer_and_parser.js:79-82 | white space before a token makes no difference to the token read |
| CalcLexer.EofForever | src/lexer_and_parser.js:125 | at the end of input every call answers EOF and leaves the cursor where it is |
| CalcLexer.ReadsNumber | src/lexer_and_parser.js:40-55 | a number is unsigned digits with an optional `.` and fraction, and its value is the decimal they spell |
| CalcLexer.NumberText | src/lexer_and_parser.js:40-55 | the text `number` reads is digits, or digits, a point and digits, and its value is the decimal they spell |
| CalcLexer.ReadsWord | src/lexer_and_parser.js:57-75 | a word is the longest run of word characters, its value is its text and its type comes from the keyword table |
| CalcLexer.MinusIsAlwaysAnOperator | src/lexer_and_parser.js:108-110 | `-` never starts a number: it is always a MINUS token of one character |
| CalcLexer.RejectsOnlyInvalidCharacters | src/lexer_and_parser.js:77-122 | `getNextToken` fails exactly on a character outside digits, letters, `_`, white space and `{ } [ ] + - * / :`, with "Invalid character" naming it |
| CalcLexer.Lexer.constructor | src/lexer_and_parser.js:12-18 | the lexer starts at the first character, on line 1 and column 1 |
| CalcLexer.Lexer.Advance | src/lexer_and_parser.js:20-28 | `advance` gives the state of `Advanced` |
| CalcLexer.Lexer.SkipWhitespace | src/lexer_and_parser.js:30-38 | `skipWhitespace` gives the state of `SkipWs` |
| CalcLexer.Lexer.ScanWhile | src/lexer_and_parser.js:42-45 | the reading loop gives the text and the state of `Scan` |
| CalcLexer.Lexer.Number | src/lexer_and_parser.js:40-55 | `number` gives the token and the state of `LexNumber` |
| CalcLexer.Lexer.Identifier | src/lexer_and_parser.js:57-75 | `identifier` gives the token and the state of `LexWord` |
| CalcLexer.Lexer.GetNextToken | src/lexer_and_parser.js:77-126 | `getNextToken` succeeds exactly when `NextToken` does, with its token and state, or fails with its error |
| CalcParser.Fetch | src/lexer_and_parser.js:133 | pulling the next token moves forward, never gives a parenthesis, and consumes input unless it is EOF |
| CalcParser.Eaten | src/lexer_and_parser.js:136-142 | `eat(type)` on a token of another type fails naming both types; on success the next token is pulled and the input left shrinks unless EOF was eaten |
| CalcParser.Expression | src/lexer_and_parser.js:178-203 | an expression uses at least one token and stops before `+` and `-`; with no parenthesis it is terms under left-folded `+`/`-` nodes |
| CalcParser.ExprTail | src/lexer_and_parser.js:181-200 | the `+`/`-` loop folds each term into the left-hand tree until neither sign is current |
| CalcParser.Term | src/lexer_and_parser.js:205-230 | a term uses at least one token and stops before `*` and `/`; with no parenthesis it is factors under left-folded `*`/`/` nodes |
| CalcParser.TermTail | src/lexer_and_parser.js:208-227 | the `*`/`/` loop folds each factor into the left-hand tree until neither sign is current |
| CalcParser.Factor | src/lexer_and_parser.js:232-253 | a factor uses at least one token and, with no parenthesis, is a number or a variable; any other token than NUMBER, IDENTIFIER and LPAREN is "Unexpected token" |
| CalcParser.ParamDecl | src/lexer_and_parser.js:144-154 | `parseParam` gives a `param` node whose value has the precedence shape |
| CalcParser.ShapeParams | src/lexer_and_parser.js:163-168 | the parameter loop stops only at `}` and keeps every name already stored |
| CalcParser.ShapeDecl | src/lexer_and_parser.js:156-176 | `parseShape` gives a `shape` node and uses at least one token |
| CalcParser.ParseStatements | src/lexer_and_parser.js:255-266 | `parse` keeps the statements it has; a leading token other than EOF, PARAM and SHAPE is never consumed, and is reported as the loop that makes no progress |
| CalcParser.ParsedParamsAreShaped | src/lexer_and_parser.js:255-266 | every `param` value the parse loop collects has the precedence shape |
| CalcParser.ProgramsAreShaped | src/lexer_and_parser.js:178-230 | every `param` value of a parsed program has `* /` below `+ -`, both left-associative |
| CalcParser.Parser.constructor | src/lexer_and_parser.js:131-134 | the parser holds the lexer and the first token read |
| CalcParser.Parser.Eat | src/lexer_and_parser.js:136-142 | `eat` gives the state or the error of `Eaten` |
| CalcParser.Parser.ParseExpression | src/lexer_and_parser.js:178-203 | the `+`/`-` loop gives the outcome of `Expression` |
| CalcParser.Parser.ParseTerm | src/lexer_and_parser.js:205-230 | the `*`/`/` loop gives the outcome of `Term` |
| CalcParser.Parser.ParseFactor | src/lexer_and_parser.js:232-253 | the method gives the outcome of `Factor` |
| CalcParser.Parser.ParseParam | src/lexer_and_parser.js:144-154 | the method gives the outcome of `ParamDecl` |
| CalcParser.Parser.ParseShape | src/lexer_and_parser.js:156-176 | the method gives the outcome of `ShapeDecl` |
| CalcParser.Parser.Parse | src/lexer_and_parser.js:255-266 | `parse` returns the statements or the error of `ParseStatements`, reporting a stray token where the source loops for ever |
| CalcParser.ParseProgram | src/lexer_and_parser.js:130-134 | reading the first token and then `parse` gives `Parse` of the text |

## Left out

- Shape ids: the `id` of a shape is built from `Date.now()`, which depends on the clock. The three shape stores leave it out of the shape objects.
- Floating point: numbers are exact reals, and `parseFloat` of a numeral gives the decimal it spells. NaN, the infinities and rounding are not modelled. A division that would give them yields `NotModelled`, which is not a JavaScript error.
- Implicit conversions: arithmetic on a string or an array, and relational comparison across types, yield `NotModelled`. These are JavaScript's conversions to string and number.
- Polygon geometry:
  - `createShapeInstance` and `getPoints` delegate to `Shapes.mjs`, which is not part of this model. Operands of the boolean operations are therefore given as point lists.
  - Also left out: `transformPoints`, `orderPoints`, `orderPointsForDifference`, `sortIntersectionPoints`, `distance`, `isPointOnSegment`, `getSubtractShapeBoundary`, `union` and `intersection`, and the boundary walk of `difference`. They need `cos`, `sin`, `atan2`, `sqrt` and floating-point sorting.
  - The union/intersection fold and the boundary walk are function parameters (`fold`, `walk`) of the operations that call them.
- `lexer_and_parser.mjs` is not part of this model. The logical lexer's cursor (`advance`, `peek`, `indentStack = [0]`) is the unified lexer's, and its `eat` is the unified parser's. The statement parsers it inherits (`parseShapeDeclaration`, `parseLayer`, `parseTransform`) are the `base` parameter. The model asks only that they use up at least one token when they succeed (`Advances`).
- The logical lexer's own `getNextToken` (src/logical_lexer_and_parser.mjs:187-269) is not modelled. `tokenize` does not call it, and the model's logical parser reads the list `tokenize` returns; the base class that would choose between them is not part of this model.
- `lexer.mjs` is not part of this model. The brace parser reads from `TokenSource`, a lexer that hands out a fixed token sequence ending in EOF and keeps answering EOF after it.
- Loops that never end: the source spins for ever on a stray token in two places. The model returns an error for each:
  - `Stuck` for the unified parser's block loops;
  - `NoProgress` for the first front end's `parse`.
- Error messages: an error is modelled by its kind and the offending token or name. The message text and the line and column it quotes are left out.
- BraceParser.StringLiteral: the string node keeps the values of the words between the quotes, not the text `parseStringLiteral` builds by joining them with spaces and trimming (src/parser.mjs:201, 205). That text needs JavaScript's conversion of number tokens to strings.
- Interpreter.Environment.CreateRange: a range that starts below its end with a step of zero or less never ends in the source (src/interpreter.mjs:321). The model requires a positive step in that case, and so does `RangeValues`; `evaluateForLoop` always steps by 1.
- BraceParser.ShapeParams: the parameter object is a map, so the insertion order of its keys is not kept. Nothing in this model reads that order.
- CalcParser.ShapeParams: the same, for the first front end's parameter object.
- The `{type: 'subtract', shape}` records that `subtractFromLayer` appends are modelled by the shape's index alone, since their `type` is always `subtract`.
- Values.StringLess: strings are sequences of Unicode scalar values, not of UTF-16 code units as in JavaScript. For a character above U+FFFF (a surrogate pair in JavaScript) string ordering differs: JavaScript has `"\u{10000}" < "\uFFFF"`, the model the reverse. This reaches `<`, `>`, `<=` and `>=` through `Values.Less`. For the same reason the lexers advance their cursor (`pos`) and `column` by 1 for such a character where the source advances by 2 (for example in strings and comments, src/lexer_parser_unified.mjs:36-44).
- The renderer, the 3D scene and export, the editor and `test.js` are drawing, UI and demo code.
