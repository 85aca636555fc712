# Ren'Py script generation from JSON: a verified model

This project models the checks and lowering rules of a toolkit that turns
JSON dialog and scene projects into Ren'Py script text:

- the **dialog-project validator** (`validate` of `src/dialoggen/validator.py`).
  It runs fail-fast structural checks with a path-shaped error context.
  Tree ids, node ids within a tree and choice ids within a choice node must
  be unique. `entry_node`, `next`, choice and branch targets and internal
  jump/call labels must resolve. A depth-first search from the entry node
  reports unreachable nodes as a warning;
- the **scene-project validator** (`validate` of `scenegen/validator.py`).
  It covers enum and range checks, the hex-colour test, recursive layer
  validation with ids unique per sibling list, hotspot shapes that depend
  on the coordinate mode, and the keys each action type needs;
- the **scene generator** (`generate_rpy` of `scenegen/generator.py`).
  It covers coordinate conversion, bounding boxes, the transition mapping,
  action lowering, stable z-order sorting, the choice of background and the
  map of output files;
- the **expression allow-list** (`_Validator` and `eval_expr` of
  `src/dialoggen/expr.py`) over an `Expr` datatype that stands for the
  Python AST subset;
- **label naming and the node IR** (`src/dialoggen/models.py`);
- the **flat dialogue converter** (`json_to_renpy` of
  `src/make_renpy_script/converter.py`).

Both validators read raw JSON (`JsonValue.Json`). A raised
`ValidationError` becomes `Invalid(message)` with the source's message
text. Strings, integers, booleans and None are printed in the message as
Python's `str` prints them. Any other value (a float, a list, a dict) is
printed by a `show` parameter that stands for Python's `str`. Any other exception the source lets escape becomes `Crash(reason)`;
these are the TypeErrors, KeyErrors and AttributeErrors of unguarded
subscripts. The warnings that `warnings.warn` would issue are returned as a
list.

The code works by loops and mutation. Each loop is a Dafny `method` with a
`while` or `for` loop, proved equal to a recursive specification function.
Lemmas then characterise that function: the input is accepted exactly when
a declarative predicate holds, the first failing item decides the error,
and the result holds the documented data. Examples are the tree loop, node
loop, choice loop and reference loop, the explicit-stack search, the layer
recursion, the hotspot loop and scene loop, the attribute-chain walk, the
converter loop, and the per-scene file loop. Coordinates are exact reals.
Python's `round` is `Numbers.RoundHalfEven` and `int()` is `Numbers.Trunc`.

In a few places the code does less than its data model suggests. The model
follows the code:

- the transition of a `go_scene` action is computed and then dropped
  (`SceneGeneratorProps.GoSceneIgnoresTransition`);
- the converter copies text without escaping quotes
  (`ConverterProps.TextVerbatim`);
- `NoteNode` is a node kind of the IR (`src/dialoggen/models.py:196-203`).
  The validator's type chain (`src/dialoggen/validator.py:127-168`) has no
  branch for `note`, so a `note` node ends in "type unknown"
  (`DialogValidatorProps.NodeBodyMeans`).

## Model

| member | source | states |
|---|---|---|
| Converter.Shown | src/make_renpy_script/converter.py:22 | A string inside the f-string is printed as itself; other values go through the given printer |
| Converter.Iterated | src/make_renpy_script/converter.py:18 | Iterating a list yields exactly its items |
| Converter.EntryLine | src/make_renpy_script/converter.py:19-24 | An entry yields a line exactly when it is a dict; anything else raises from `.get` |
| Converter.LinesUpTo | src/make_renpy_script/converter.py:18-24 | After n entries without a failure, `lines` holds exactly n items |
| Converter.Strs | src/make_renpy_script/converter.py:25 | When `"\n".join` succeeds it reads one string per line |
| Converter.JsonToRenpy | src/make_renpy_script/converter.py:10-25 | The loop that appends one line per entry and joins at the end returns `json_to_renpy(data)`, failures included |
| Converter.LinesFailStay | src/make_renpy_script/converter.py:18-24 | Once an entry raises, the loop's outcome is that failure, whatever follows |
| ConverterProps.Terminated | src/make_renpy_script/converter.py:25 | The lines each followed by a newline are empty exactly when there are no lines |
| ConverterProps.ConvertWellShaped | src/make_renpy_script/converter.py:18-25 | For entries whose speaker and text are strings, the script is each entry's line plus a newline, in input order, one line per entry |
| ConverterProps.LinesWellShaped | src/make_renpy_script/converter.py:18-24 | Well-shaped entries give exactly their script lines, in order |
| ConverterProps.StrsOfStrings | src/make_renpy_script/converter.py:25 | A list of strings is joined as those strings |
| ConverterProps.JoinTerminated | src/make_renpy_script/converter.py:25 | Joining by newlines and adding one more newline ends every line with a newline |
| ConverterProps.SpeakerLine | src/make_renpy_script/converter.py:19-22 | A non-empty speaker gives the line `speaker "text"` |
| ConverterProps.NarrationLine | src/make_renpy_script/converter.py:23-24 | A missing or empty speaker gives the text alone |
| ConverterProps.TextVerbatim | src/make_renpy_script/converter.py:22 | The text is copied unescaped: the line holds the text verbatim and is exactly four characters longer than speaker plus text |
| ConverterProps.NoDialogues | src/make_renpy_script/converter.py:17-25 | A missing or empty `dialogues` gives the empty script |
| ConverterProps.FinalNewline | src/make_renpy_script/converter.py:25 | A successful script ends with a newline exactly when there is at least one entry |
| ConverterProps.LinesOk | src/make_renpy_script/converter.py:18-24 | The loop succeeds exactly when every entry is a dict, and item k is then entry k's line |
| ConverterProps.LinesFirstFailure | src/make_renpy_script/converter.py:18-20 | The first entry that is not a dict decides the failure |
| ConverterProps.StrsOk | src/make_renpy_script/converter.py:25 | `"\n".join` succeeds exactly when every item is a string |
| ConverterProps.ConvertFails | src/make_renpy_script/converter.py:17-25 | Conversion raises exactly when `dialogues` cannot be read or iterated, some entry is not a dict, or a speakerless entry has non-string text |
| ConverterProps.ConvertFirstBadEntry | src/make_renpy_script/converter.py:18-19 | An entry that is not a dict and comes before any other such entry raises the AttributeError naming its type |
| DialogGraph.NextsOf | src/dialoggen/validator.py:221-225 | The targets read from a choice or branch list: one per item, taken from its `next` |
| DialogGraph.Ids | src/dialoggen/validator.py:226 | The node ids, one per node, in order |
| DialogGraph.Keep | src/dialoggen/validator.py:215-217 | `add_edge` pushes exactly the non-empty targets that name a node of the tree |
| DialogGraph.Successors | src/dialoggen/validator.py:215-225 | The nodes pushed from a node are exactly its next, choice and branch targets that are non-empty and name a node of the tree |
| DialogGraph.ReachableSet | src/dialoggen/validator.py:206-225 | The nodes reachable from the entry by edges lie inside the tree |
| DialogGraph.ReachableSelf | src/dialoggen/validator.py:207-212 | The entry node reaches itself |
| DialogGraph.ReachableStep | src/dialoggen/validator.py:215-225 | Reachability extends along every edge |
| DialogGraph.PathStaysInClosed | src/dialoggen/validator.py:206-225 | A path that starts in a set closed under edges stays in it |
| DialogGraph.ReachableSetLeast | src/dialoggen/validator.py:206-225 | The reachable set holds the entry, is closed under edges, and lies inside every other such set |
| DialogGraph.Reach | src/dialoggen/validator.py:206-225 | The stack-driven search, with its skip-if-seen pop, ends with exactly the set of nodes reachable from the entry |
| DialogGraph.Unreached | src/dialoggen/validator.py:226 | The dangling nodes are exactly the node ids not reached, without repeats when the ids have none |
| DialogGraph.DanglingExact | src/dialoggen/validator.py:226-229 | The warned list is sorted, has no repeats and holds exactly the ids not reached |
| DialogModels.NodeLabel | src/dialoggen/models.py:12-20 | A node label starts with `dlg_`, ends with `__` and the node id, and is 6 characters longer than the two ids |
| DialogModels.TreeStartLabel | src/dialoggen/models.py:23-26 | A tree's start label is `dlg_` + tree id + `__start`, the node label of node `start` |
| DialogModels.NodeLabelInjectiveInNode | src/dialoggen/models.py:20 | Within one tree, different node ids give different labels |
| DialogModels.FirstDoubleUnderscore | src/dialoggen/models.py:20 | The position of the first `__` in a label lies within the label |
| DialogModels.FirstDoubleUnderscoreAfterPlainId | src/dialoggen/models.py:20 | For a tree id without `__`, the first `__` of its label part is the separator |
| DialogModels.NodeLabelInjective | src/dialoggen/models.py:12-20 | For tree ids without `__`, the label determines both the tree id and the node id |
| DialogModels.NodeLabelCollision | src/dialoggen/models.py:20 | Without that condition labels collide: tree `a__b` node `c` and tree `a` node `b__c` share a label |
| DialogModels.Defaults | src/dialoggen/models.py:33-56 | `Naming` defaults to prefixes `dlg_` and `m_`; `ProjectConfig` defaults to no language, no default character and the default `Naming`; `LocalVar.default` is None |
| DialogModels.DirectNext | src/dialoggen/models.py:97-193 | Only Say, Script and Screen nodes carry a direct `next`, and they carry their own |
| DialogModels.Targets | src/dialoggen/models.py:97-203 | Jump, Call, Return and Note lead nowhere; an If node leads to each branch's next in order; a Choice node leads exactly to its options' nexts; the others lead to their next |
| DialogModels.ChoiceTargets | src/dialoggen/models.py:112-128 | The targets of a choice node are exactly the nexts its options carry |
| DialogValidator.ExpectFields | src/dialoggen/validator.py:36-42 | The type checks of a node's fields pass exactly when every field has its type; a failure is a ValidationError |
| DialogValidator.ExpectShape | src/dialoggen/validator.py:127-164 | The key and type checks of a node pass exactly when every required key is present with its type; a failure is a ValidationError |
| DialogValidator.RootCheck | src/dialoggen/validator.py:64-71 | The root passes exactly when it is a mapping whose `version` is a string, `project` a mapping and `dialog_trees` a list; a non-mapping gives "root: expected mapping" |
| DialogValidator.NamingCheck | src/dialoggen/validator.py:75-81 | `naming` passes exactly when each prefix it has is a string |
| DialogValidator.LabelPrefix | src/dialoggen/validator.py:73-82 | The label prefix is `naming.label_prefix` when given and `""` otherwise; it is read exactly when `naming`, if present, is a well-typed mapping |
| DialogValidator.NextRef | src/dialoggen/validator.py:178-181 | A node's string `next` check passes exactly when the next names a node of the tree |
| DialogValidator.LabelRef | src/dialoggen/validator.py:196-203 | A jump or call label passes exactly when it does not start with the prefix or is already defined |
| DialogValidator.TreeHeader | src/dialoggen/validator.py:90-107 | A tree header passes exactly when the tree is a mapping with string id, title and entry_node, a `nodes` list, list-valued `locals` and `using_characters` when present, and an id not seen before |
| DialogValidator.CheckChoices | src/dialoggen/validator.py:136-145 | The choice loop with its `seen_choice_ids` set returns the choice-list outcome (see ChoicesFromMeans) |
| DialogValidator.CheckBranches | src/dialoggen/validator.py:149-153 | The branch loop returns the branch-list outcome (see BranchesFromMeans) |
| DialogValidator.CheckNodeBody | src/dialoggen/validator.py:126-168 | The per-type checks of a node return the outcome NodeBodyMeans characterises |
| DialogValidator.CollectNodes | src/dialoggen/validator.py:110-168 | The node loop that fills `node_map` and `defined_labels` returns the scan ScanNodesMeans characterises |
| DialogValidator.CheckTargets | src/dialoggen/validator.py:182-195 | The loop over choice or branch targets returns the outcome TargetRefsMeans characterises |
| DialogValidator.CheckNodeRefs | src/dialoggen/validator.py:175-203 | One node's reference checks return the outcome NodeRefsMeans characterises |
| DialogValidator.CheckReferences | src/dialoggen/validator.py:174-203 | The reference loop over a tree's nodes returns the outcome RefsFromMeans characterises |
| DialogValidator.ValidateTree | src/dialoggen/validator.py:89-242 | One iteration of the tree loop returns the tree record or error, the labels defined and the warning, as TreeSpecMeans characterises |
| DialogValidator.Validate | src/dialoggen/validator.py:45-244 | `validate` with its tree loop returns the project or error, with the warnings issued, that ValidateSpecOk and ValidateSpecErr characterise |
| DialogValidatorProps.NodeShapedKnownType | src/dialoggen/validator.py:126-168 | A node of valid shape has one of the eight known types, so `note` is not one |
| DialogValidatorProps.KeysPresent | src/dialoggen/validator.py:30-33 | `_expect_keys` on a mapping passes exactly when every key is present |
| DialogValidatorProps.ChoicesFromMeans | src/dialoggen/validator.py:136-145 | The choices pass exactly when each has string id, text and next and no two share an id |
| DialogValidatorProps.BranchesFromMeans | src/dialoggen/validator.py:149-153 | The branches pass exactly when each has a string condition and next |
| DialogValidatorProps.ShapeMeans2 | src/dialoggen/validator.py:157-164 | A two-field check passes exactly when both keys are present with their types |
| DialogValidatorProps.ChoiceBodyMeans | src/dialoggen/validator.py:132-145 | A choice node passes exactly when its prompt is a string and its choices are a list of well-formed options with unique ids |
| DialogValidatorProps.IfBodyMeans | src/dialoggen/validator.py:146-153 | An if node passes exactly when its branches are a list of well-formed branches |
| DialogValidatorProps.NodeBodyMeans | src/dialoggen/validator.py:126-168 | A node body passes exactly when it has the keys and types its type requires; any other type is rejected with "type unknown: t" |
| DialogValidatorProps.NodeCheckMeans | src/dialoggen/validator.py:112-168 | A node passes the first pass exactly when it is well-shaped and its id is new in the tree |
| DialogValidatorProps.NodeMapFromKeys | src/dialoggen/validator.py:111-120 | `node_map` ends up keyed by exactly the ids of the nodes |
| DialogValidatorProps.ScanNodesMeans | src/dialoggen/validator.py:110-168 | The node scan succeeds exactly when every node is well-shaped with an id unique in the tree, and then yields the node map and every label prefix + tree id + `__` + node id |
| DialogValidatorProps.TargetRefsMeans | src/dialoggen/validator.py:182-195 | A target list passes exactly when every target names a node of the tree |
| DialogValidatorProps.NodeRefsMeans | src/dialoggen/validator.py:175-203 | A node's references pass exactly when its next, choice and branch targets name nodes of the tree and a jump or call label carrying the prefix is defined |
| DialogValidatorProps.RefsFromMeans | src/dialoggen/validator.py:174-203 | The reference loop passes exactly when every node's references resolve |
| DialogValidatorProps.TreeSpecMeans | src/dialoggen/validator.py:89-242 | A tree is accepted exactly when its header, nodes, entry and references are well-formed, and then yields its record, the labels defined so far plus its own, and its dangling-node warning |
| DialogValidatorProps.NodesPhaseMeans | src/dialoggen/validator.py:109-242 | The node phase of a tree is accepted exactly when the nodes are well-formed and the entry and references resolve |
| DialogValidatorProps.LoopAtOkStep | src/dialoggen/validator.py:89-242 | A well-formed tree lets the loop continue to the next tree |
| DialogValidatorProps.LoopAtBadStep | src/dialoggen/validator.py:89-242 | An ill-formed tree stops the loop with its error, keeping the warnings of the trees before it |
| DialogValidatorProps.LoopAtIsTreesAt | src/dialoggen/validator.py:84-242 | The tree loop with its accumulated sets equals the per-tree recursion over ids and labels of earlier trees |
| DialogValidatorProps.TreeResultAtMeans | src/dialoggen/validator.py:89-242 | Tree k is accepted exactly when it is well-formed against the ids and labels of the trees before it |
| DialogValidatorProps.AllTreesOkMeans | src/dialoggen/validator.py:89-242 | All remaining trees pass exactly when each is well-formed against the trees before it |
| DialogValidatorProps.TreesAtOk | src/dialoggen/validator.py:89-244 | The tree loop succeeds exactly when all trees pass, and then yields every tree's record in input order with every tree's warning |
| DialogValidatorProps.TreesAtErr | src/dialoggen/validator.py:89-244 | A failing tree loop fails with the error of the first ill-formed tree and the warnings of the trees before it |
| DialogValidatorProps.LabelPrefixMeans | src/dialoggen/validator.py:75-82 | The prefix is read exactly when the naming block is well-typed, and is `""` by default |
| DialogValidatorProps.ValidateSpecOk | src/dialoggen/validator.py:45-244 | `validate` succeeds exactly when the root and naming are well-typed and every tree is well-formed; it then returns the version, the project and the tree records in input order with one warning per tree that has unreachable nodes |
| DialogValidatorProps.ValidateSpecErr | src/dialoggen/validator.py:65-244 | A bad root raises a ValidationError with no warnings; a non-mapping raises "root: expected mapping"; a non-mapping `naming` crashes; otherwise a failure is the first bad tree's error, with the warnings of the trees before it |
| DialogValidatorProps.LabelsBeforeMeans | src/dialoggen/validator.py:112-121 | The labels defined before tree i are exactly prefix + tree id + `__` + node id for the nodes of earlier trees |
| DialogValidatorProps.ValidatedTrees | src/dialoggen/validator.py:233-244 | A validated project is well-typed and holds exactly the records of its trees, each well-formed |
| DialogValidatorProps.TreeIdsUnique | src/dialoggen/validator.py:93-97 | The trees of a validated project have pairwise distinct ids |
| DialogValidatorProps.IdsFromIsIdSet | src/dialoggen/validator.py:111-120 | The ids the scan collects are the ids of the nodes |
| DialogValidatorProps.TreeOkNodesSound | src/dialoggen/validator.py:110-195 | An accepted tree has distinct node ids, only well-shaped nodes of known type, an entry that is a node, and next, choice and branch targets that are nodes |
| DialogValidatorProps.TreeNodesSound | src/dialoggen/validator.py:110-195 | Every tree of a validated project has that node soundness |
| DialogValidatorProps.JumpLabelsResolve | src/dialoggen/validator.py:196-203 | In a validated project a jump or call label carrying the prefix names a node of the same tree or of an earlier one, never a later one |
| DialogValidatorProps.EmptyPrefixChecksAll | src/dialoggen/validator.py:196-202 | With the default prefix `""` a jump or call label passes exactly when defined; with another prefix, a label outside it passes unchecked |
| DialogValidatorProps.DefinedLabelIsNodeLabel | src/dialoggen/validator.py:121 | With prefix `dlg_` the labels the validator defines are the IR's node labels |
| DialogValidatorProps.TreeWarningMeans | src/dialoggen/validator.py:205-231 | An accepted tree warns exactly when some node is unreachable from the entry, and its warning lists exactly those ids, sorted and without repeats |
| DialogValidatorProps.WarningOfDistinct | src/dialoggen/validator.py:205-231 | The same holds for any tree with distinct node ids |
| ExprAllowList.CmpOpsCheck | src/dialoggen/expr.py:86-89 | A comparison chain passes exactly when every one of its operators is allowed |
| ExprAllowList.ChainCheckMeans | src/dialoggen/expr.py:96-104 | An attribute chain passes exactly when no segment starts with `_` and its root is the name `persistent` |
| ExprAllowList.CheckChain | src/dialoggen/expr.py:96-104 | The while loop that walks the chain returns that chain check |
| ExprAllowList.VisitAsWrittenMeans | src/dialoggen/expr.py:59-106 | The visitor as written accepts exactly the allowed expressions that contain no operator node |
| ExprAllowList.VisitAllAsWrittenMeans | src/dialoggen/expr.py:66-69 | As written, a list of children passes exactly when each is allowed and operator-free |
| ExprAllowList.CmpOpsCheckAll | src/dialoggen/expr.py:86-90 | Every operator of a chained comparison is checked |
| ExprAllowList.AsWrittenRejectsAddition | src/dialoggen/expr.py:66-79 | As written, `a + 2` with `a` known is rejected with "Disallowed expression: Add"; the corrected visitor accepts it |
| ExprAllowList.VisitMeans | src/dialoggen/expr.py:59-106 | The corrected visitor accepts exactly the allowed expressions: whitelisted node kinds and operators, known names, and `persistent` chains without `_` segments |
| ExprAllowList.VisitAllMeans | src/dialoggen/expr.py:66-69 | A list of children passes exactly when each is allowed |
| ExprAllowList.AllowedContents | src/dialoggen/expr.py:46-106 | An allowed expression uses only allowed names, no attribute starting with `_`, and no node outside the whitelist |
| ExprAllowList.OtherRejected | src/dialoggen/expr.py:66-69 | An expression containing any node kind outside the whitelist (call, subscript, comprehension) is rejected |
| ExprAllowList.OtherNotAllowed | src/dialoggen/expr.py:46-69 | Such an expression is not allowed |
| ExprAllowList.AllowedMonotonic | src/dialoggen/expr.py:92-94 | More allowed names never reject an expression that was accepted |
| ExprAllowList.UnknownIdentifier | src/dialoggen/expr.py:92-94 | A name not in the set is rejected with "Unknown identifier: x", as written and corrected |
| ExprAllowList.PersistentNeedsName | src/dialoggen/expr.py:103-106 | `persistent.x` with a public x passes exactly when `persistent` is an allowed name |
| ExprAllowList.NameSet | src/dialoggen/expr.py:140-144 | The allowed names are the local names, plus `default` exactly when a default is given, plus `persistent` exactly when persistent is given |
| ExprAllowList.GlobalsOf | src/dialoggen/expr.py:147-151 | The globals are empty builtins plus `default` and `persistent` exactly when given, bound to the given values |
| ExprAllowList.EvalExpr | src/dialoggen/expr.py:120-152 | An unparseable expression gives "Invalid expression"; evaluation happens exactly when the parsed tree is allowed over the name set, with those globals and locals; otherwise the visitor's message is returned |
| GeneratedText.RenderLine | scenegen/generator.py:48-50 | A rendered line is its depth in spaces plus its text, and is empty exactly when blank |
| GeneratedText.SplitLines | scenegen/generator.py:50 | `str.splitlines` cuts at every Python line break (`\r\n` counts once) and keeps no trailing empty piece; its pieces hold no break, and there are none exactly for `""` |
| GeneratedText.SplitJoin | scenegen/generator.py:50 | Splitting pieces that hold no break, joined by newlines, gives the pieces back when the last one is not empty |
| GeneratedText.JoinSplit | scenegen/generator.py:50 | A text whose only breaks are newlines, and that does not end in one, is the newline join of its pieces |
| GeneratedText.IndentPiece | scenegen/generator.py:50 | A non-empty piece gets n spaces in front; an empty one stays empty |
| GeneratedText.Indent | scenegen/generator.py:48-50 | `_indent` gives one line per piece of the split text, so a break inside a line's text starts a new line; each line holds no break and is blank or at depth n |
| GeneratedText.IndentLines | scenegen/generator.py:48-50 | For lines without breaks whose last line is not blank, the line count is kept and each line gets n spaces in front, a blank one staying empty |
| GeneratedText.IndentSplitsText | scenegen/generator.py:48-50 | A newline inside a line's text yields two indented lines |
| GeneratedText.IndentTwice | scenegen/generator.py:82-87 | Indenting by a and then by b renders like indenting by a + b, line for line, when the split text does not end in an empty piece |
| GeneratedText.RenderFlatten | scenegen/generator.py:201-226 | Appending non-empty blocks and joining all lines by newlines gives the newline join of the blocks' texts |
| GeneratedText.FlattenBlock | scenegen/generator.py:201-225 | Appending blocks one after another places block k at its offset, unchanged |
| GeneratedText.FlattenBlockAt | scenegen/generator.py:201-225 | Each appended block occurs in the result at its offset |
| JsonValue.Contains | src/dialoggen/validator.py:30-33 | Python `in`: key membership on a dict, item membership on a list, substring on a string, a TypeError otherwise |
| JsonValue.Get | src/dialoggen/validator.py:93 | Subscripting succeeds exactly on a dict holding the key, and gives its value |
| JsonValue.GetOr | src/make_renpy_script/converter.py:17-20 | `.get(key, default)` works exactly on a dict and gives the value or the default |
| JsonValue.ExpectKeys | src/dialoggen/validator.py:30-33 | `_expect_keys` passes exactly when every key is contained; otherwise it fails for the first missing key |
| JsonValue.ExpectKeysDict | src/dialoggen/validator.py:30-33 | On a mapping it passes exactly when every key is present, and fails with a ValidationError |
| JsonValue.ExpectType | src/dialoggen/validator.py:36-42 | `_expect_type` passes exactly on an instance of the type, else raises the message naming the expected and actual type |
| Numbers.RoundHalfEven | scenegen/generator.py:5 | Rounding gives the nearest integer, the even one on a tie |
| Numbers.RoundHalfEvenUnique | scenegen/generator.py:5 | That integer is unique |
| Numbers.RoundInt | scenegen/generator.py:5 | An integer rounds to itself |
| Numbers.RoundExamples | scenegen/generator.py:5 | Ties go to the even neighbour: 0.5 to 0, 1.5 to 2, 2.5 to 2, -1.5 to -2 |
| Numbers.Trunc | scenegen/generator.py:164-165 | `int()` truncates toward zero |
| Numbers.TruncInt | scenegen/generator.py:164-165 | An integer truncates to itself |
| Numbers.TruncExamples | scenegen/generator.py:54 | `int(-2.7)` is -2, not the floor -3 |
| SceneGenerator.DictGetMeans | scenegen/generator.py:29-30 | `.get(key, default)` on dict items gives the default for a missing key and a stored value otherwise |
| SceneGenerator.DictPut | scenegen/generator.py:245 | Assigning a key adds an item exactly when the key is new |
| SceneGenerator.Px | scenegen/generator.py:4-5 | `_px` is the integer nearest to val times ref in relative mode and nearest to val in absolute mode |
| SceneGenerator.MinOf | scenegen/generator.py:17 | `min` is an element no larger than any other |
| SceneGenerator.MaxOf | scenegen/generator.py:18 | `max` is an element no smaller than any other |
| SceneGenerator.XsOf | scenegen/generator.py:15 | The converted x of each point, in order |
| SceneGenerator.YsOf | scenegen/generator.py:16 | The converted y of each point, in order |
| SceneGenerator.BBoxPoints | scenegen/generator.py:14-19 | The box has w, h at least 0, holds every converted point, and its x, x+w, y and y+h are the minima and maxima of the converted coordinates |
| SceneGenerator.BBoxCircle | scenegen/generator.py:21-25 | The circle's box is a square of even side centred on the converted centre, with half-side the radius converted against the width |
| SceneGenerator.KwArgs | scenegen/generator.py:148 | Each keyword item is printed as `k=v`, in order |
| SceneGenerator.NonEmpty | scenegen/generator.py:157 | Exactly the non-empty parts are kept |
| SceneGenerator.AsLines | scenegen/generator.py:128 | Each text becomes one line at the given depth, in order |
| SceneGenerator.HotspotButton | scenegen/generator.py:103-129 | The button lines, with the hover lines built in a loop, are the button template for the box, tooltip, hover and action |
| SceneGenerator.BuildHoverLines | scenegen/generator.py:106-114 | The hover lines are a fill when highlighted and then the four edges |
| SceneGenerator.AddLines | scenegen/generator.py:64-77 | The `add` code of an image or colour layer starts at the layer's own depth |
| SceneGenerator.PosCoord | scenegen/generator.py:58-93 | `int(round(...))` of the layer's pos.x or pos.y; its defaults are stated by SceneGeneratorProps.PosCoordDefaults |
| SceneGenerator.TransformText | scenegen/generator.py:58-96 | The `at Transform(...)` clause, with the computed position and the printed anchor, zoom and rotation; how it closes a layer's code is stated by SceneGeneratorProps.LayerText |
| SceneGenerator.LayerCode | scenegen/generator.py:52-101 | A layer always produces some code; a non-group layer's text is stated by SceneGeneratorProps.LayerText and a group's children by SceneGeneratorProps.GroupChildBlock |
| SceneGenerator.LayerToCode | scenegen/generator.py:52-101 | `_layer_to_code`'s appends, recursion into groups included, produce exactly SceneGenerator.LayerCode: for a non-group layer that is the add code, a space, the transform clause and a newline under its `if` condition (SceneGeneratorProps.LayerText) |
| SceneGenerator.GroupToCode | scenegen/generator.py:78-88 | A group is its head, then each child's code indented by four, in listed order |
| SceneGenerator.BuildAddLines | scenegen/generator.py:64-74 | The image add code with its variant loop is the layer's add code |
| SceneGenerator.InsertZSorted | scenegen/generator.py:201 | Inserting a layer into z-sorted layers keeps them sorted and adds exactly that layer |
| SceneGenerator.SortZSorted | scenegen/generator.py:201 | The z-order sort yields sorted layers that are a permutation of the input |
| SceneGenerator.FindBackground | scenegen/generator.py:231-235 | The break-loop finds the first image layer in sorted order |
| SceneGenerator.BuildLayerBlocks | scenegen/generator.py:202-204 | The layer loop appends each sorted layer's block in order |
| SceneGenerator.BuildHotspotBlocks | scenegen/generator.py:207-225 | The hotspot loop appends each hotspot's block in listed order |
| SceneGenerator.HotspotBlock | scenegen/generator.py:208-225 | One hotspot's block is its button for its shape's box and lowered action, indented by four |
| SceneGenerator.BuildScreen | scenegen/generator.py:195-226 | The screen is its head, the sorted layers' blocks, the hotspots comment, the hotspots' blocks and a blank line |
| SceneGenerator.BuildLabel | scenegen/generator.py:228-243 | The `show_<id>` label with its background line and the screen shows |
| SceneGenerator.BuildSceneFile | scenegen/generator.py:192-245 | One scene's file text is the screen, a blank line and the label |
| SceneGenerator.SceneFileAt | scenegen/generator.py:191-245 | Scene i's text is rendered |
| SceneGenerator.AddSceneFiles | scenegen/generator.py:191-245 | The scene loop assigns each scene's file in turn |
| SceneGenerator.GenerateRpy | scenegen/generator.py:161-246 | `generate_rpy` returns the helper file followed by each scene's file assignment in order (see GenerateKeys, GenerateLayout, GenerateSceneFile) |
| SceneGeneratorProps.PxAbsoluteInt | scenegen/generator.py:4-5 | In absolute mode an integer value is returned unchanged |
| SceneGeneratorProps.PxRelativeExact | scenegen/generator.py:4-5 | In relative mode an exact multiple is returned exactly |
| SceneGeneratorProps.PxRelativeExamples | scenegen/generator.py:4-5 | 0.5 of 1920 is 960; 0.5 of 5 rounds to 2 and 0.5 of 7 to 4, ties going to even |
| SceneGenerator.CoordsRect | scenegen/generator.py:7-12 | `_coords_rect`: x and w against the width, y and h against the height; characterised by SceneGeneratorProps.CoordsRectAxes, CoordsRectAbsolute and CoordsRectRelative |
| SceneGeneratorProps.PosCoordDefaults | scenegen/generator.py:58-93 | Without `pos` a layer sits at round(0.5·ref) in relative mode and at 0 in absolute mode, where a missing coordinate of a given `pos` is 0 too |
| SceneGeneratorProps.CoordsRectAxes | scenegen/generator.py:7-12 | Only the width scales x and w, and only the height scales y and h |
| SceneGeneratorProps.CoordsRectAbsolute | scenegen/generator.py:7-12 | In absolute mode the reference size does not matter |
| SceneGeneratorProps.CoordsRectRelative | scenegen/generator.py:7-12 | In relative mode each component is within a half of its scaled value |
| SceneGeneratorProps.BBoxPointsSmallest | scenegen/generator.py:14-19 | The points' box holds every point and lies inside every box that does |
| SceneGeneratorProps.BBoxPointsSame | scenegen/generator.py:14-19 | A single repeated point gives an empty box at that point |
| SceneGeneratorProps.BBoxCircleAbsolute | scenegen/generator.py:21-25 | An integer circle in absolute mode gives `(cx-r, cy-r, 2r, 2r)` |
| SceneGeneratorProps.BBoxCircleRadiusByWidth | scenegen/generator.py:24 | The radius is converted against the width: the height does not change the side |
| SceneGeneratorProps.DictGetItem | scenegen/generator.py:29-30 | With distinct keys, looking up a stored key gives its value |
| SceneGeneratorProps.DictPutGet | scenegen/generator.py:245 | After an assignment the key gives the new value and every other key is unchanged |
| SceneGeneratorProps.DictPutFirst | scenegen/generator.py:189-245 | An assignment never moves the first entry |
| SceneGeneratorProps.DictPutKeys | scenegen/generator.py:245 | An assignment adds exactly its key |
| SceneGeneratorProps.DictPutDistinct | scenegen/generator.py:245 | An assignment keeps the keys distinct |
| SceneGenerator.TransitionCode | scenegen/generator.py:27-46 | `_transition_code`; characterised by SceneGeneratorProps.TransitionAbsent and SceneGeneratorProps.TransitionCodeMeans |
| SceneGeneratorProps.TransitionAbsent | scenegen/generator.py:27-46 | A transition gives `""` exactly when it is missing or empty |
| SceneGeneratorProps.SlideSides | scenegen/generator.py:42-44 | The six wipe and slide names give sides left, right, top (up) and bottom (down) |
| SceneGeneratorProps.TransitionClassMeans | scenegen/generator.py:32-45 | Apart from slides, `fade` gives Fade and every other type Dissolve |
| SceneGeneratorProps.TransitionCodeMeans | scenegen/generator.py:27-46 | A given transition becomes `with SlideTransition(push_side=…, duration=d)`, `with Fade(d)` or `with Dissolve(d)` by type, with default type dissolve and duration 0.2 |
| SceneGeneratorProps.TransitionDefaults | scenegen/generator.py:29-30 | Without type and duration a transition is `with Dissolve(0.2)` |
| SceneGeneratorProps.FadeExample | scenegen/generator.py:45-46 | A fade of 0.5 is `with Fade(0.5)` |
| SceneGenerator.ActionToCode | scenegen/generator.py:131-159 | `_action_to_code`; characterised by SceneGeneratorProps.NullActionOnlyForOther, GoSceneIgnoresTransition, GoSceneJumpsToHelper, CallScreenNoParams and FunctionCallText |
| SceneGeneratorProps.NullActionOnlyForOther | scenegen/generator.py:131-159 | `NullAction()` comes exactly from an unrecognised action type |
| SceneGeneratorProps.GoSceneIgnoresTransition | scenegen/generator.py:133-136 | The code of a go_scene action does not depend on its transition |
| SceneGeneratorProps.GoSceneJumpsToHelper | scenegen/generator.py:133-136 | go_scene sets `_next_scene` and jumps to `scene__internal__go`, a label the helper file defines |
| SceneGeneratorProps.CallScreenNoParams | scenegen/generator.py:143-150 | call_screen without params is `CallScreen('s')` |
| SceneGeneratorProps.FunctionCallText | scenegen/generator.py:151-158 | A function action is `Function(name` then the positional and keyword parts that are non-empty, comma separated, then `)` |
| SceneGeneratorProps.FunctionCallExamples | scenegen/generator.py:151-158 | `Function(f)` without arguments; `Function(f, 1, 'a', x=2)` with them |
| SceneGenerator.ZKey | scenegen/generator.py:201 | The sort key `int(L.get("zorder", 0))` |
| SceneGenerator.SortZ | scenegen/generator.py:201 | `sorted(..., key=ZKey)`; a sorted permutation (SceneGenerator.SortZSorted) and stable (SceneGeneratorProps.SortZStable) |
| SceneGeneratorProps.WithKey | scenegen/generator.py:201 | The layers selected for one z-key all have that key |
| SceneGeneratorProps.NoneWithKey | scenegen/generator.py:201 | No layer of sorted layers has a key below the first one's |
| SceneGeneratorProps.InsertZWithKey | scenegen/generator.py:201 | Insertion puts a layer after every earlier layer of its key |
| SceneGeneratorProps.SortZStable | scenegen/generator.py:201 | The sort is stable: layers of equal z-order keep their listed order |
| SceneGeneratorProps.FirstImageMeans | scenegen/generator.py:231-235 | There is no background exactly when no layer is an image; otherwise it is the image of the first image layer |
| SceneGenerator.SceneLine | scenegen/generator.py:236-239 | The label's background line; characterised by SceneGeneratorProps.SceneLineMeans |
| SceneGeneratorProps.SceneLineMeans | scenegen/generator.py:230-239 | Without an image layer, or when the first image layer in z-order has an empty image, the label has the no-base-image comment; otherwise it shows that first image, which some image layer of the scene holds, with the enter transition, rstripped |
| SceneGeneratorProps.GroupChildBlock | scenegen/generator.py:86-87 | Each group child's code appears in the group's code indented by four, at its offset after the head, in listed order |
| SceneGeneratorProps.ScreenLayerBlock | scenegen/generator.py:195-204 | Each layer block appears in the screen at its offset after the head |
| SceneGeneratorProps.ScreenHotspotsComment | scenegen/generator.py:206 | The hotspots comment follows the layer blocks |
| SceneGeneratorProps.ScreenHotspotBlock | scenegen/generator.py:206-225 | Each hotspot block appears after the comment at its offset |
| SceneGeneratorProps.ButtonParts | scenegen/generator.py:103-129 | A button carries the box position and size, the tooltip and the action on their own lines, and then the hover lines indented by 16; when the hover opacity holds no line break that is five lines when highlighted and four otherwise |
| SceneGeneratorProps.LayerText | scenegen/generator.py:89-101 | A non-group layer renders as its add code, a space, the transform clause and a newline, after `if <vis>:` and a newline plus four spaces when it has a visibility condition |
| SceneGeneratorProps.LayerCodeNonEmpty | scenegen/generator.py:52-101 | A layer's code never renders as the empty text |
| SceneGeneratorProps.ScreenText | scenegen/generator.py:195-226 | The screen's text is the newline join of the banner, the screen head, each sorted layer's code, the hotspots comment, each hotspot's code and a final empty string, as the source appends them |
| SceneGeneratorProps.FilesAfterKeys | scenegen/generator.py:191-245 | After n scenes the file names are the initial ones plus those of the first n scenes |
| SceneGeneratorProps.FilesAfterFirst | scenegen/generator.py:189-245 | The scene loop never moves the first file |
| SceneGeneratorProps.FilesAfterDistinct | scenegen/generator.py:189-245 | The file names stay distinct |
| SceneGeneratorProps.FilesAfterGet | scenegen/generator.py:245 | A scene's file holds its text unless a later scene has the same id |
| SceneGeneratorProps.FilesAfterGetOther | scenegen/generator.py:245 | A file no scene names is left unchanged |
| SceneGeneratorProps.DistinctKeysCount | scenegen/generator.py:168-245 | With distinct keys there are as many files as names |
| SceneGeneratorProps.SceneFileNameInjective | scenegen/generator.py:245 | Different scene ids give different file names |
| SceneGeneratorProps.SceneFileNameHelpers | scenegen/generator.py:189-245 | A scene's file name is the helper file's exactly when its id is `helpers` |
| SceneGeneratorProps.GenerateKeys | scenegen/generator.py:189-245 | The output holds exactly `_gen/scene_helpers.rpy` and `_gen/scene_<id>.rpy` for each scene |
| SceneGeneratorProps.GenerateLayout | scenegen/generator.py:189-245 | The helper file comes first, names are distinct, and there is one entry per name |
| SceneGeneratorProps.GenerateSceneFile | scenegen/generator.py:191-245 | A scene's file is its rendered text unless a later scene has the same id |
| SceneGeneratorProps.GenerateHelpers | scenegen/generator.py:170-189 | Unless a scene is called `helpers`, the helper file holds the helper text |
| SceneValidator.Quoted | scenegen/validator.py:19 | Each allowed value is quoted, in order |
| SceneValidator.Display | scenegen/validator.py:19 | A string prints as itself; a value that is not a string, integer, boolean or None prints through `show` |
| SceneValidator.ExpectIn | scenegen/validator.py:17-19 | Passes exactly for a string among the allowed values; otherwise raises "ctx: expected one of [...], got v" |
| SceneValidator.ExpectColor | scenegen/validator.py:28-30 | Passes exactly for a hex colour; otherwise raises "ctx: expected hex color like #RRGGBB or #RRGGBBAA, got v" |
| SceneValidator.ExpectNumberRange | scenegen/validator.py:32-35 | Passes exactly for a number with lo ≤ v ≤ hi, both ends inclusive; a non-number gets the type message and a number out of range "ctx: expected in range [lo.0..hi.0], got v" |
| SceneValidator.AndThen | scenegen/validator.py:37-44 | Two checks in a row pass exactly when both pass |
| SceneValidator.ExpectTypeAt | scenegen/validator.py:42-43 | A field check passes exactly on a dict holding the key with a value of the type |
| SceneValidator.CheckLayers | scenegen/validator.py:46-76 | The sibling loop with its `seen_ids` set returns the outcome LayersFromMeans characterises |
| SceneValidator.CheckLayer | scenegen/validator.py:48-76 | One layer's checks, recursion into children included, return the outcome LayerCheckMeans characterises |
| SceneValidator.CheckVariants | scenegen/validator.py:70-76 | The variants loop returns the outcome VariantsFromMeans characterises |
| SceneValidator.CheckComponents | scenegen/validator.py:86-113 | The component loop of a rect or circle returns the outcome ComponentsFromMeans characterises |
| SceneValidator.CheckPoints | scenegen/validator.py:97-105 | The point loop returns the outcome PointsFromMeans characterises |
| SceneValidator.CheckHotspot | scenegen/validator.py:78-127 | `_validate_hotspot` returns the outcome HotspotCheckMeans characterises |
| SceneValidator.Validate | scenegen/validator.py:129-152 | `validate` with its scene loop returns the outcome ValidateSpecMeans characterises |
| SceneValidator.CheckScene | scenegen/validator.py:138-152 | One scene's checks return the outcome SceneCheckMeans characterises |
| SceneValidatorProps.IsColorMeans | scenegen/validator.py:21-26 | `_is_color` holds exactly for `#` followed by 3, 4, 6 or 8 hex digits |
| SceneValidatorProps.IsColorExamples | scenegen/validator.py:21-26 | `#fff`, `#1a2B3c` and `#FFAA00CC` are colours |
| SceneValidatorProps.IsColorRejects | scenegen/validator.py:21-26 | `#12345`, `fff`, `#ggg` and non-strings are not |
| SceneValidatorProps.CoordOkRange | scenegen/validator.py:88-90 | A component is valid exactly when it is a number and, in relative mode, within [0, 1] |
| SceneValidatorProps.ValidateProjectMeans | scenegen/validator.py:37-44 | The project passes exactly when it has a reference resolution with numeric width and height and a mode of relative or absolute |
| SceneValidatorProps.LayerHeadMeans | scenegen/validator.py:49-56 | A layer head passes exactly for a string id new in its list, a type of image, color or group, and a numeric z-order |
| SceneValidatorProps.VariantsFromMeans | scenegen/validator.py:70-76 | Variants pass exactly when each has string `if` and `image` |
| SceneValidatorProps.LayerVariantsMeans | scenegen/validator.py:70-76 | The optional variants are a list of valid variants |
| SceneValidatorProps.LayerBodyMeans | scenegen/validator.py:58-68 | An image layer needs a string image; a colour layer a hex colour and an alpha in [0, 1]; a group a list of children that are valid siblings |
| SceneValidatorProps.LayerCheckMeans | scenegen/validator.py:48-76 | A layer passes exactly when it is valid and its id is new in its list |
| SceneValidatorProps.LayersFromMeans | scenegen/validator.py:46-76 | A sibling list passes exactly when every layer is valid and the ids are unique within the list |
| SceneValidatorProps.LayersValid | scenegen/validator.py:46-76 | `_validate_layers` passes exactly on a valid sibling list |
| SceneValidatorProps.NestedIdMayRepeat | scenegen/validator.py:65-68 | A child may reuse its group's id: each children list starts a fresh id set |
| SceneValidatorProps.ComponentsFromMeans | scenegen/validator.py:86-90 | The components pass exactly when each is present and a valid coordinate |
| SceneValidatorProps.PointsFromMeans | scenegen/validator.py:97-105 | Points pass exactly when each is a pair of valid coordinates |
| SceneValidatorProps.ComponentsCheckMeans | scenegen/validator.py:86-113 | A rect or circle passes exactly when it is a dict of valid components |
| SceneValidatorProps.RectShapeMeans | scenegen/validator.py:83-90 | A rect hotspot passes exactly with a rect of valid x, y, w, h |
| SceneValidatorProps.RectPassIsOk | scenegen/validator.py:83-90 | A passing rect hotspot has a rect of valid x, y, w, h |
| SceneValidatorProps.RectOkPasses | scenegen/validator.py:83-90 | Such a rect passes |
| SceneValidatorProps.CircleShapeMeans | scenegen/validator.py:106-113 | A circle hotspot passes exactly with a circle of valid cx, cy, r |
| SceneValidatorProps.CirclePassIsOk | scenegen/validator.py:106-113 | A passing circle hotspot has a circle of valid cx, cy, r |
| SceneValidatorProps.CircleOkPasses | scenegen/validator.py:106-113 | Such a circle passes |
| SceneValidatorProps.PolygonShapeMeans | scenegen/validator.py:91-105 | A polygon passes exactly with at least three points, each a pair of valid coordinates |
| SceneValidatorProps.ShapeCheckMeans | scenegen/validator.py:81-113 | Each shape passes exactly when its own data is valid |
| SceneValidatorProps.ActionCheckMeans | scenegen/validator.py:116-127 | An action passes exactly when its type is one of the five and it has that type's key: scene_id, label, screen or name |
| SceneValidatorProps.HotspotCheckMeans | scenegen/validator.py:78-127 | A hotspot passes exactly with a string id, a known shape whose data is valid, and a valid action |
| SceneValidatorProps.PolygonTooFew | scenegen/validator.py:95-96 | A polygon of fewer than three points raises "points must have >=3 points" |
| SceneValidatorProps.BadPointFails | scenegen/validator.py:97-99 | A point that is not a 2-element list raises "must be [x,y]" |
| SceneValidatorProps.RelativeStricter | scenegen/validator.py:87-113 | A hotspot valid in relative mode is valid in absolute mode |
| SceneValidatorProps.AbsoluteAcceptsAnyNumber | scenegen/validator.py:87-113 | 640 is a valid coordinate only in absolute mode; a numeric string is never one |
| SceneValidatorProps.HotspotsFromMeans | scenegen/validator.py:149-152 | The hotspot loop passes exactly when every hotspot is valid |
| SceneValidatorProps.SceneCheckMeans | scenegen/validator.py:139-152 | A scene passes exactly when it is valid and its id is new |
| SceneValidatorProps.ScenePassIsOk | scenegen/validator.py:139-152 | A passing scene is valid with a new id |
| SceneValidatorProps.SceneOkPasses | scenegen/validator.py:139-152 | A valid scene with a new id passes |
| SceneValidatorProps.ScenesFromMeans | scenegen/validator.py:137-152 | The scene loop passes exactly when every scene is valid and the scene ids are unique |
| SceneValidatorProps.RootHeadMeans | scenegen/validator.py:131-136 | The root head passes exactly with a string version, a valid project and a scene list, and yields the scenes and coordinate mode |
| SceneValidatorProps.ValidateSpecMeans | scenegen/validator.py:129-152 | `validate` passes exactly on a well-formed project file |
| SceneValidatorProps.NonDictRootFails | scenegen/validator.py:131 | A root that is not a dict always fails, and crashes unless it is a list or string |
| Strings.NatToString | src/dialoggen/validator.py:90 | The decimal form of an index is a non-empty run of digits |
| Strings.NatToStringLeadingZero | src/dialoggen/validator.py:90 | It starts with `0` exactly for zero |
| Strings.NatToStringRoundTrip | src/dialoggen/validator.py:90 | It reads back as the number and is canonical |
| Strings.Join | src/make_renpy_script/converter.py:25 | Joining no parts gives `""` and one part gives that part |
| Strings.JoinConcat | src/make_renpy_script/converter.py:25 | Joining two non-empty lists puts the separator once between their joins |
| Strings.IsSubstringMeans | src/dialoggen/validator.py:32 | `in` on strings holds exactly when the pattern occurs at some position |
| Strings.RStrip | scenegen/generator.py:237 | `rstrip` drops exactly the trailing whitespace, Unicode separators included |
| Strings.RStripWideSpace | scenegen/generator.py:237 | The ideographic space, the line separator and the no-break space are stripped too |
| Strings.Spaces | scenegen/generator.py:49 | n spaces |
| Strings.LessIrreflexive | src/dialoggen/validator.py:229 | String order is irreflexive |
| Strings.LessTransitive | src/dialoggen/validator.py:229 | String order is transitive |
| Strings.LessTotal | src/dialoggen/validator.py:229 | Distinct strings are ordered one way or the other |
| Strings.LessAsymmetric | src/dialoggen/validator.py:229 | String order is asymmetric |
| Strings.LessEqTransitive | src/dialoggen/validator.py:229 | Non-strict string order is transitive |
| Strings.Insert | src/dialoggen/validator.py:229 | Insertion into a sorted list keeps it sorted and adds exactly one item |
| Strings.Sort | src/dialoggen/validator.py:229 | `sorted` yields a sorted permutation of its input |

## Left out

- Python parsing and evaluation. `ast.parse` is the `parsed: Option<Expr>` parameter of `ExprAllowList.EvalExpr`, and `eval` is left as the `Evaluate` request that result carries.
- ExprAllowList.EvalExpr: it models the corrected visitor (see Findings), not the as-written one. The value of an evaluated expression is not modelled.
- Floating point. Numbers are exact reals; `round` is round-half-even on exact values and `int()` is truncation, so IEEE rounding of `val*ref` is not captured. Alpha, zoom, rotate, opacity and duration are only printed, and are carried as their printed text. An anchor coordinate is printed and also rounded, so it is carried as a number with its printed text (`SceneGenerator.PrintedReal`).
- SceneGenerator.GenerateRpy: it works on a typed view of a validated scene project (`SceneProject`), not on the raw dict. The reading of that view from JSON is not modelled.
- SceneGenerator.LayerCode: the offsets `ax` and `ay` (scenegen/generator.py:94-95) are computed from the anchor and never used, so they are not modelled. On raw JSON that computation raises a TypeError for a non-numeric anchor, which the scene validator does not check; the typed view holds only numeric anchors, so that TypeError is not modelled.
- SceneGenerator.LayerToCode: the method leaves out the unused `ax`/`ay` computation (scenegen/generator.py:94-95) and the TypeError it raises on a non-numeric anchor; anchors in the typed view are numbers.
- SceneGenerator.BBoxPoints: it requires a non-empty point list. `min` on an empty list raises in the source, and the validator lets only polygons of three or more points through.
- Converter.Shown: `str()` of a non-string speaker or text is Python's own printed form, so it is a parameter (`show`).
- SceneValidator.Display: `str()` of a float, list or dict in a scene validation message is Python's own printed form, so it is the parameter `show`; the messages are stated exactly up to that printed form.
- Python `repr` of call_screen params and of function args and kwargs (scenegen/generator.py:148, 155-156) is abstract: those values are carried already printed.
- Python dicts in the generator (transition settings, the output map) are insertion-ordered item lists; `dict.get` and item assignment are modelled on them.
- Converter dict iteration: iterating a non-empty dict as `dialogues` yields string keys, whose `.get` fails at once; the model returns that failure without listing the keys.
- Byte-exact whitespace of the triple-quoted button template and of the helper file. The model keeps the emitted fragments, their order and their nesting depth. scenegen/generator.py as shown is not importable, because of stray indentation and a missing `textwrap` import; the helper text is modelled as intended.
- `parallax` is read by the generator but never used, so it is not part of the model.
- The go_scene transition: the source computes it and drops it. A test expects `with Fade(0.3)`; the model follows the code.
- Quote escaping in the converter: a test expects escaped quotes; the code does not escape them, and the model follows the code.
- `warnings.warn` is modelled as a returned list of warning strings.
- The CLI modules, `load_json`, `convert_file` and other package glue do file and console I/O, so they are not part of this model.
- The dialog generator (`src/dialoggen/generator.py`) is not part of this model.
- The `Branch` record carrying both `condition` and `next` is a property of the datatype (`DialogModels.Branch`). It needs no lemma.

## Findings

| source | as written | input that shows it | evidently intended | confidence | as-written member | corrected member |
|---|---|---|---|---|---|---|
| src/dialoggen/expr.py:66-69 | `generic_visit` also visits the operator fields (`Add()`, `And()`, `Eq()` and the like), and those node kinds are not in `_ALLOWED_NODES`. So every BoolOp, BinOp, UnaryOp and Compare is rejected, even though the operator whitelists at lines 23-43 allow them. | `a + 2` with names {"a"} is rejected with "Disallowed expression: Add" (ExprAllowList.AsWrittenRejectsAddition); ExprAllowList.VisitAsWrittenMeans shows that as written only operator-free expressions pass | The whitelisted operators are accepted, each operator checked against its whitelist only; ExprAllowList.VisitMeans proves the corrected visitor accepts exactly the allowed expressions | not executed | ExprAllowList.VisitAsWritten | ExprAllowList.Visit |
