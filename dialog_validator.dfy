/** `validate(data)` of the dialog-project validator: fail-fast structural
    checks over the raw project JSON, id uniqueness per scope, reference
    resolution, and the reachability warning. Each loop of the validator is a
    method proved equal to a specification function; the lemmas in
    DialogValidatorProps say what those functions accept. */
module DialogValidator {
  import opened Strings
  import opened JsonValue
  import opened DialogGraph

  /** `DialogTree`: a validated tree, with `locals` and `using_characters`
      defaulted to the empty list. */
  datatype DialogTree = DialogTree(
    id: string,
    title: string,
    entryNode: string,
    locals: seq<Json>,
    usingCharacters: seq<Json>,
    nodes: seq<Json>)

  /** `DialogProject` */
  datatype DialogProject = DialogProject(version: string, project: map<string, Json>, dialogTrees: seq<DialogTree>)

  /** The outcome of `validate` together with the warnings it issued. */
  datatype Validation = Validation(result: Result<DialogProject>, warnings: seq<string>)

  // ---------------------------------------------------------------------------
  // Checking helpers

  function KeysOf(shape: seq<(string, PyType)>): (r: seq<string>)
    ensures |r| == |shape| && forall k :: 0 <= k < |shape| ==> r[k] == shape[k].0
  {
    if shape == [] then [] else [shape[0].0] + KeysOf(shape[1..])
  }

  /** `_expect_type(v[k], t, f"{ctx}.{k}")` for each (k, t) in turn. */
  function ExpectFields(v: Json, shape: seq<(string, PyType)>, ctx: string): (r: Outcome)
    requires v.JDict? && forall k :: 0 <= k < |shape| ==> shape[k].0 in v.fields
    ensures r.Pass? <==> forall k :: 0 <= k < |shape| ==> IsInstance(v.fields[shape[k].0], shape[k].1)
    ensures r.Fail? ==> r.failure.Invalid?
  {
    if shape == [] then Pass
    else
      var o := ExpectType(v.fields[shape[0].0], shape[0].1, ctx + "." + shape[0].0);
      if o.Fail? then o else ExpectFields(v, shape[1..], ctx)
  }

  /** `_expect_keys(v, keys, ctx)` followed by the type check of each key. */
  function ExpectShape(v: Json, shape: seq<(string, PyType)>, ctx: string): (r: Outcome)
    requires v.JDict?
    ensures r.Pass? <==> forall k :: 0 <= k < |shape| ==> shape[k].0 in v.fields && IsInstance(v.fields[shape[k].0], shape[k].1)
    ensures r.Fail? ==> r.failure.Invalid?
  {
    var keys := KeysOf(shape);
    var o := ExpectKeys(v, keys, ctx);
    ExpectKeysDict(v, keys, ctx);
    assert o.Pass? <==> forall k :: 0 <= k < |shape| ==> shape[k].0 in v.fields by {
      assert forall k :: k in keys <==> exists j :: 0 <= j < |shape| && shape[j].0 == k;
    }
    if o.Fail? then o else ExpectFields(v, shape, ctx)
  }

  function TreeCtx(idx: int): string { Index("dialog_trees", idx) }

  function NodeCtx(tctx: string, nidx: int): string { Index(tctx + ".nodes", nidx) }

  /** The label the validator records for a node: `f"{label_prefix}{tid}__{nid}"`. */
  function DefinedLabel(prefix: string, tid: string, nid: string): string
  {
    prefix + tid + "__" + nid
  }

  // ---------------------------------------------------------------------------
  // Root and project naming

  /** The root checks: a mapping with the three required keys, of the
      required types. */
  function RootCheck(data: Json): (r: Outcome)
    ensures r.Pass? <==> data.JDict? && "version" in data.fields && "project" in data.fields
                          && "dialog_trees" in data.fields && data.fields["version"].JStr?
                          && data.fields["project"].JDict? && data.fields["dialog_trees"].JList?
    ensures r.Fail? ==> r.failure.Invalid?
    ensures !data.JDict? ==> r == Fail(Invalid("root: expected mapping"))
  {
    if !data.JDict? then Fail(Invalid("root: expected mapping"))
    else
      var keys := ["version", "project", "dialog_trees"];
      var o := ExpectKeys(data, keys, "root");
      ExpectKeysDict(data, keys, "root");
      assert o.Pass? <==> keys[0] in data.fields && keys[1] in data.fields && keys[2] in data.fields;
      if o.Fail? then o
      else
        var o1 := ExpectType(data.fields["version"], StrType, "version");
        if o1.Fail? then o1
        else
          var o2 := ExpectType(data.fields["project"], MappingType, "project");
          if o2.Fail? then o2 else ExpectType(data.fields["dialog_trees"], ListType, "dialog_trees")
  }

  /** The optional checks of `project["naming"]`, when it is a mapping. */
  function NamingCheck(naming: map<string, Json>): (r: Outcome)
    ensures r.Pass? <==> ("label_prefix" in naming ==> naming["label_prefix"].JStr?)
                          && ("menu_prefix" in naming ==> naming["menu_prefix"].JStr?)
  {
    if "label_prefix" in naming && !naming["label_prefix"].JStr? then
      ExpectType(naming["label_prefix"], StrType, "project.naming.label_prefix")
    else if "menu_prefix" in naming then
      ExpectType(naming["menu_prefix"], StrType, "project.naming.menu_prefix")
    else Pass
  }

  /** The naming checks, then `project.get("naming", {}).get("label_prefix", "")`,
      which raises AttributeError when `naming` is present but not a dict. */
  function LabelPrefix(project: map<string, Json>): (r: Result<string>)
    ensures r.Ok? <==> "naming" in project ==> project["naming"].JDict? && NamingCheck(project["naming"].fields).Pass?
    ensures "naming" !in project ==> r == Ok("")
    ensures r.Ok? && "naming" in project ==> project["naming"].JDict?
    ensures r.Ok? && "naming" in project && "label_prefix" in project["naming"].fields ==>
              project["naming"].fields["label_prefix"] == JStr(r.value)
    ensures r.Ok? && "naming" in project && "label_prefix" !in project["naming"].fields ==> r.value == ""
  {
    var o := if "naming" in project && project["naming"].JDict? then NamingCheck(project["naming"].fields) else Pass;
    if o.Fail? then Err(o.failure)
    else
      var naming := if "naming" in project then project["naming"] else JDict(map[]);
      match GetOr(naming, "label_prefix", JStr(""))
      case Err(f) => Err(f)
      case Ok(v) => Ok(v.s)
  }

  // ---------------------------------------------------------------------------
  // The first pass over the nodes of a tree

  /** The loop over the choices of a choice node, from index i on, with the
      choice ids seen so far. */
  function ChoicesFrom(cs: seq<Json>, i: nat, nctx: string, seen: set<string>): Outcome
    requires i <= |cs|
    decreases |cs| - i
  {
    if i == |cs| then Pass
    else
      var c := cs[i];
      var cctx := Index(nctx + ".choices", i);
      var o := ExpectKeys(c, ["id", "text", "next"], cctx);
      if o.Fail? then o
      else
        match Get(c, "id")
        case Err(f) => Fail(f)
        case Ok(cid) =>
          var o1 := ExpectType(cid, StrType, cctx + ".id");
          if o1.Fail? then o1
          else if cid.s in seen then Fail(Invalid(cctx + ".id duplicated: " + cid.s))
          else
            assert "text" in ["id", "text", "next"] && "next" in ["id", "text", "next"];
            var o2 := ExpectType(c.fields["text"], StrType, cctx + ".text");
            if o2.Fail? then o2
            else
              var o3 := ExpectType(c.fields["next"], StrType, cctx + ".next");
              if o3.Fail? then o3 else ChoicesFrom(cs, i + 1, nctx, seen + {cid.s})
  }

  /** The loop over the branches of an if node, from index i on. */
  function BranchesFrom(bs: seq<Json>, i: nat, nctx: string): Outcome
    requires i <= |bs|
    decreases |bs| - i
  {
    if i == |bs| then Pass
    else
      var b := bs[i];
      var bctx := Index(nctx + ".branches", i);
      var o := ExpectKeys(b, ["condition", "next"], bctx);
      if o.Fail? then o
      else
        match Get(b, "condition")
        case Err(f) => Fail(f)
        case Ok(cond) =>
          var o1 := ExpectType(cond, StrType, bctx + ".condition");
          if o1.Fail? then o1
          else
            assert "next" in ["condition", "next"];
            var o2 := ExpectType(b.fields["next"], StrType, bctx + ".next");
            if o2.Fail? then o2 else BranchesFrom(bs, i + 1, nctx)
  }

  /** The type-specific checks of a node whose `type` is ntype. */
  function NodeBody(n: Json, ntype: string, nctx: string): Outcome
    requires n.JDict?
  {
    if ntype == "say" then
      ExpectShape(n, [("character", StrType), ("text", StrType), ("next", StrType)], nctx)
    else if ntype == "choice" then
      var shape := [("prompt", StrType), ("choices", ListType)];
      var o := ExpectShape(n, shape, nctx);
      if o.Fail? then o
      else
        assert shape[1].0 in n.fields && IsInstance(n.fields[shape[1].0], shape[1].1);
        ChoicesFrom(n.fields["choices"].items, 0, nctx, {})
    else if ntype == "if" then
      var shape := [("branches", ListType)];
      var o := ExpectShape(n, shape, nctx);
      if o.Fail? then o
      else
        assert shape[0].0 in n.fields && IsInstance(n.fields[shape[0].0], shape[0].1);
        BranchesFrom(n.fields["branches"].items, 0, nctx)
    else if ntype == "jump" || ntype == "call" then
      ExpectShape(n, [("label", StrType)], nctx)
    else if ntype == "screen" then
      ExpectShape(n, [("screen", StrType), ("next", StrType)], nctx)
    else if ntype == "script" then
      ExpectShape(n, [("code", StrType), ("next", StrType)], nctx)
    else if ntype == "return" then Pass
    else Fail(Invalid(nctx + ".type unknown: " + ntype))
  }

  /** All checks of the first pass on node number nidx, given the ids of the
      nodes before it. */
  function NodeCheck(n: Json, nidx: int, tctx: string, ids: set<string>): Outcome
  {
    var nctx := NodeCtx(tctx, nidx);
    var o := ExpectType(n, MappingType, nctx);
    if o.Fail? then o
    else
      var o1 := ExpectKeys(n, ["id", "type"], nctx);
      ExpectKeysDict(n, ["id", "type"], nctx);
      assert o1.Pass? ==> "id" in n.fields && "type" in n.fields by {
        assert "id" in ["id", "type"] && "type" in ["id", "type"];
      }
      if o1.Fail? then o1
      else
        var nid := n.fields["id"];
        var o2 := ExpectType(nid, StrType, nctx + ".id");
        if o2.Fail? then o2
        else if nid.s in ids then Fail(Invalid(nctx + ".id duplicated: " + nid.s))
        else
          var ntype := n.fields["type"];
          var o3 := ExpectType(ntype, StrType, nctx + ".type");
          if o3.Fail? then o3 else NodeBody(n, ntype.s, nctx)
  }

  /** What the first pass builds: `node_map`, and `defined_labels`, which
      carries over from one tree to the next. */
  datatype Scan = Scan(nodeMap: map<string, Json>, labels: set<string>)

  /** The first pass over the nodes of a tree, from index i on. */
  function ScanNodes(nodes: seq<Json>, i: nat, tctx: string, tid: string, prefix: string, acc: Scan): Result<Scan>
    requires i <= |nodes|
    decreases |nodes| - i
  {
    if i == |nodes| then Ok(acc)
    else
      var o := NodeCheck(nodes[i], i, tctx, acc.nodeMap.Keys);
      if o.Fail? then Err(o.failure)
      else
        var nid := IdOf(nodes[i]);
        ScanNodes(nodes, i + 1, tctx, tid, prefix,
                  Scan(acc.nodeMap[nid := nodes[i]], acc.labels + {DefinedLabel(prefix, tid, nid)}))
  }

  // ---------------------------------------------------------------------------
  // The second pass: references

  /** Each target, from index i on, must name a node. */
  function TargetRefs(targets: seq<string>, i: nat, listCtx: string, g: map<string, Json>): Outcome
    requires i <= |targets|
    decreases |targets| - i
  {
    if i == |targets| then Pass
    else if targets[i] in g then TargetRefs(targets, i + 1, listCtx, g)
    else Fail(Invalid(Index(listCtx, i) + ".next references unknown node '" + targets[i] + "'"))
  }

  /** A node's own string `next` must name a node. */
  function NextRef(n: Json, rctx: string, g: map<string, Json>): (r: Outcome)
    ensures r.Pass? <==> (NextOf(n).Some? ==> NextOf(n).value in g)
  {
    if NextOf(n).Some? && NextOf(n).value !in g then
      Fail(Invalid(rctx + ".next references unknown node '" + NextOf(n).value + "'"))
    else Pass
  }

  /** A jump/call label that starts with the prefix must be a defined label;
      any other label is external and not checked. */
  function LabelRef(target: string, rctx: string, prefix: string, labels: set<string>): (r: Outcome)
    ensures r.Pass? <==> (StartsWith(target, prefix) ==> target in labels)
  {
    if StartsWith(target, prefix) && target !in labels then
      Fail(Invalid(rctx + ".label references unknown label '" + target + "'"))
    else Pass
  }

  /** The reference checks of node number nidx. */
  function NodeRefs(n: Json, nidx: int, tctx: string, g: map<string, Json>, prefix: string, labels: set<string>): Outcome
  {
    var rctx := NodeCtx(tctx, nidx);
    var o := NextRef(n, rctx, g);
    if o.Fail? then o
    else if TypeOf(n) == "choice" then TargetRefs(ChoiceNexts(n), 0, rctx + ".choices", g)
    else if TypeOf(n) == "if" then TargetRefs(BranchNexts(n), 0, rctx + ".branches", g)
    else if TypeOf(n) == "jump" || TypeOf(n) == "call" then LabelRef(LabelOf(n), rctx, prefix, labels)
    else Pass
  }

  function RefsFrom(nodes: seq<Json>, i: nat, tctx: string, g: map<string, Json>, prefix: string, labels: set<string>): Outcome
    requires i <= |nodes|
    decreases |nodes| - i
  {
    if i == |nodes| then Pass
    else
      var o := NodeRefs(nodes[i], i, tctx, g, prefix, labels);
      if o.Fail? then o else RefsFrom(nodes, i + 1, tctx, g, prefix, labels)
  }

  // ---------------------------------------------------------------------------
  // One tree

  /** `t.get(key, [])` must be a list. */
  predicate OptionalList(t: Json, key: string)
    requires t.JDict?
  {
    key !in t.fields || t.fields[key].JList?
  }

  function OptionalItems(t: Json, key: string): seq<Json>
  {
    if t.JDict? && key in t.fields && t.fields[key].JList? then t.fields[key].items else []
  }

  /** The checks of a tree record made before its nodes are looked at. */
  function TreeHeader(t: Json, tctx: string, seen: set<string>): (r: Outcome)
    ensures r.Pass? <==> t.JDict? && StrAt(t, "id") && StrAt(t, "title") && StrAt(t, "entry_node")
                         && ListAt(t, "nodes") && OptionalList(t, "locals") && OptionalList(t, "using_characters")
                         && IdOf(t) !in seen
    ensures r.Fail? ==> r.failure.Invalid?
  {
    var o := ExpectType(t, MappingType, tctx);
    if o.Fail? then o
    else
      var keys := ["id", "title", "entry_node", "nodes"];
      var o1 := ExpectKeys(t, keys, tctx);
      ExpectKeysDict(t, keys, tctx);
      assert o1.Pass? ==> keys[0] in t.fields && keys[1] in t.fields && keys[2] in t.fields && keys[3] in t.fields;
      if o1.Fail? then o1
      else
        var tid := t.fields["id"];
        var o2 := ExpectType(tid, StrType, tctx + ".id");
        if o2.Fail? then o2
        else if tid.s in seen then Fail(Invalid(tctx + ".id duplicated: " + tid.s))
        else
          var shape := [("title", StrType), ("entry_node", StrType), ("nodes", ListType)];
          assert forall k :: 0 <= k < |shape| ==> shape[k].0 == keys[k + 1];
          var o3 := ExpectFields(t, shape, tctx);
          assert o3.Pass? ==> IsInstance(t.fields[shape[0].0], shape[0].1) && IsInstance(t.fields[shape[1].0], shape[1].1)
                              && IsInstance(t.fields[shape[2].0], shape[2].1);
          if o3.Fail? then o3
          else if !OptionalList(t, "locals") then Fail(Invalid(tctx + ".locals: expected list"))
          else if !OptionalList(t, "using_characters") then Fail(Invalid(tctx + ".using_characters: expected list"))
          else Pass
  }

  /** The record kept for a tree that passed. */
  function TreeRecord(t: Json): DialogTree
  {
    DialogTree(IdOf(t), StrOr(t, "title"), StrOr(t, "entry_node"),
               OptionalItems(t, "locals"), OptionalItems(t, "using_characters"), ItemsAt(t, "nodes"))
  }

  /** What one iteration of the tree loop yields: the tree or the error, the
      labels defined so far, and the warning it issued. */
  datatype TreeStep = TreeStep(tree: Result<DialogTree>, labels: set<string>, warning: Option<string>)

  ghost function TreeSpec(t: Json, idx: int, prefix: string, seen: set<string>, labels: set<string>): TreeStep
  {
    var h := TreeHeader(t, TreeCtx(idx), seen);
    if h.Fail? then TreeStep(Err(h.failure), labels, None)
    else NodesSpec(t, TreeCtx(idx), prefix, labels)
  }

  /** The rest of one iteration once the tree record's own keys passed: the
      node scan, the entry node, the references and the reachability
      search. */
  ghost function NodesSpec(t: Json, tctx: string, prefix: string, labels: set<string>): TreeStep
  {
    var nodes := ItemsAt(t, "nodes");
    match ScanNodes(nodes, 0, tctx, IdOf(t), prefix, Scan(map[], labels))
    case Err(f) => TreeStep(Err(f), labels, None)
    case Ok(scan) =>
      var entry := StrOr(t, "entry_node");
      if entry !in scan.nodeMap then
        TreeStep(Err(Invalid(tctx + ".entry_node references unknown node '" + entry + "'")), labels, None)
      else
        var o := RefsFrom(nodes, 0, tctx, scan.nodeMap, prefix, scan.labels);
        if o.Fail? then TreeStep(Err(o.failure), labels, None)
        else
          var dangling := Dangling(Ids(nodes), ReachableSet(entry, scan.nodeMap));
          TreeStep(Ok(TreeRecord(t)), scan.labels,
                   if dangling == [] then None else Some(DanglingWarning(tctx, dangling)))
  }

  /** The tree loop from index i on. */
  ghost function TreesFrom(ts: seq<Json>, i: nat, prefix: string, seen: set<string>, labels: set<string>,
                           acc: seq<DialogTree>, warnings: seq<string>): (Result<seq<DialogTree>>, seq<string>)
    requires i <= |ts|
    decreases |ts| - i
  {
    if i == |ts| then (Ok(acc), warnings)
    else
      var step := TreeSpec(ts[i], i, prefix, seen, labels);
      match step.tree
      case Err(f) => (Err(f), warnings)
      case Ok(tree) =>
        TreesFrom(ts, i + 1, prefix, seen + {tree.id}, step.labels, acc + [tree], warnings + OptionToSeq(step.warning))
  }

  /** `validate(data)` with the warnings it issues. */
  ghost function ValidateSpec(data: Json): Validation
  {
    var o := RootCheck(data);
    if o.Fail? then Validation(Err(o.failure), [])
    else
      var project := data.fields["project"].fields;
      match LabelPrefix(project)
      case Err(f) => Validation(Err(f), [])
      case Ok(prefix) =>
        var r := TreesFrom(data.fields["dialog_trees"].items, 0, prefix, {}, {}, [], []);
        match r.0
        case Err(f) => Validation(Err(f), r.1)
        case Ok(trees) => Validation(Ok(DialogProject(data.fields["version"].s, project, trees)), r.1)
  }

  // ---------------------------------------------------------------------------
  // The validator's loops

  method CheckChoices(cs: seq<Json>, nctx: string) returns (o: Outcome)
    ensures o == ChoicesFrom(cs, 0, nctx, {})
  {
    hide ExpectType, ExpectKeys, Index, MissingKeyFailure, TypeMessage;
    var seen: set<string> := {};
    for i := 0 to |cs|
      invariant ChoicesFrom(cs, 0, nctx, {}) == ChoicesFrom(cs, i, nctx, seen)
    {
      var choice := cs[i];
      var cctx := Index(nctx + ".choices", i);
      o := ExpectKeys(choice, ["id", "text", "next"], cctx);
      if o.Fail? { return; }
      var cid := Get(choice, "id");
      if cid.Err? { return Fail(cid.failure); }
      o := ExpectType(cid.value, StrType, cctx + ".id");
      if o.Fail? { return; }
      if cid.value.s in seen {
        return Fail(Invalid(cctx + ".id duplicated: " + cid.value.s));
      }
      seen := seen + {cid.value.s};
      assert "text" in ["id", "text", "next"] && "next" in ["id", "text", "next"];
      o := ExpectType(choice.fields["text"], StrType, cctx + ".text");
      if o.Fail? { return; }
      o := ExpectType(choice.fields["next"], StrType, cctx + ".next");
      if o.Fail? { return; }
    }
    return Pass;
  }

  method CheckBranches(bs: seq<Json>, nctx: string) returns (o: Outcome)
    ensures o == BranchesFrom(bs, 0, nctx)
  {
    hide ExpectType, ExpectKeys, Index, MissingKeyFailure, TypeMessage;
    for i := 0 to |bs|
      invariant BranchesFrom(bs, 0, nctx) == BranchesFrom(bs, i, nctx)
    {
      var br := bs[i];
      var bctx := Index(nctx + ".branches", i);
      o := ExpectKeys(br, ["condition", "next"], bctx);
      if o.Fail? { return; }
      var cond := Get(br, "condition");
      if cond.Err? { return Fail(cond.failure); }
      o := ExpectType(cond.value, StrType, bctx + ".condition");
      if o.Fail? { return; }
      assert "next" in ["condition", "next"];
      o := ExpectType(br.fields["next"], StrType, bctx + ".next");
      if o.Fail? { return; }
    }
    return Pass;
  }

  method CheckNodeBody(n: Json, ntype: string, nctx: string) returns (o: Outcome)
    requires n.JDict?
    ensures o == NodeBody(n, ntype, nctx)
  {
    if ntype == "say" {
      o := ExpectShape(n, [("character", StrType), ("text", StrType), ("next", StrType)], nctx);
    } else if ntype == "choice" {
      var shape := [("prompt", StrType), ("choices", ListType)];
      o := ExpectShape(n, shape, nctx);
      if o.Pass? {
        assert shape[1].0 in n.fields && IsInstance(n.fields[shape[1].0], shape[1].1);
        o := CheckChoices(n.fields["choices"].items, nctx);
      }
    } else if ntype == "if" {
      var shape := [("branches", ListType)];
      o := ExpectShape(n, shape, nctx);
      if o.Pass? {
        assert shape[0].0 in n.fields && IsInstance(n.fields[shape[0].0], shape[0].1);
        o := CheckBranches(n.fields["branches"].items, nctx);
      }
    } else if ntype == "jump" || ntype == "call" {
      o := ExpectShape(n, [("label", StrType)], nctx);
    } else if ntype == "screen" {
      o := ExpectShape(n, [("screen", StrType), ("next", StrType)], nctx);
    } else if ntype == "script" {
      o := ExpectShape(n, [("code", StrType), ("next", StrType)], nctx);
    } else if ntype == "return" {
      o := Pass;
    } else {
      o := Fail(Invalid(nctx + ".type unknown: " + ntype));
    }
  }

  /** The first pass: check every node, fill `node_map` and add each node's
      label to the labels defined so far. */
  method CollectNodes(nodes: seq<Json>, tctx: string, tid: string, prefix: string, labels: set<string>)
    returns (r: Result<Scan>)
    ensures r == ScanNodes(nodes, 0, tctx, tid, prefix, Scan(map[], labels))
  {
    var nodeMap: map<string, Json> := map[];
    var defined := labels;
    for nidx := 0 to |nodes|
      invariant ScanNodes(nodes, 0, tctx, tid, prefix, Scan(map[], labels))
                == ScanNodes(nodes, nidx, tctx, tid, prefix, Scan(nodeMap, defined))
    {
      var n := nodes[nidx];
      var nctx := NodeCtx(tctx, nidx);
      var o := ExpectType(n, MappingType, nctx);
      if o.Fail? { return Err(o.failure); }
      o := ExpectKeys(n, ["id", "type"], nctx);
      if o.Fail? { return Err(o.failure); }
      ExpectKeysDict(n, ["id", "type"], nctx);
      assert "id" in ["id", "type"] && "type" in ["id", "type"];
      var nid := n.fields["id"];
      o := ExpectType(nid, StrType, nctx + ".id");
      if o.Fail? { return Err(o.failure); }
      if nid.s in nodeMap {
        return Err(Invalid(nctx + ".id duplicated: " + nid.s));
      }
      nodeMap := nodeMap[nid.s := n];
      defined := defined + {DefinedLabel(prefix, tid, nid.s)};
      var ntype := n.fields["type"];
      o := ExpectType(ntype, StrType, nctx + ".type");
      if o.Fail? { return Err(o.failure); }
      o := CheckNodeBody(n, ntype.s, nctx);
      if o.Fail? { return Err(o.failure); }
    }
    return Ok(Scan(nodeMap, defined));
  }

  method CheckTargets(targets: seq<string>, listCtx: string, g: map<string, Json>) returns (o: Outcome)
    ensures o == TargetRefs(targets, 0, listCtx, g)
  {
    for i := 0 to |targets|
      invariant TargetRefs(targets, 0, listCtx, g) == TargetRefs(targets, i, listCtx, g)
    {
      if targets[i] !in g {
        return Fail(Invalid(Index(listCtx, i) + ".next references unknown node '" + targets[i] + "'"));
      }
    }
    return Pass;
  }

  method CheckNodeRefs(n: Json, nidx: int, tctx: string, g: map<string, Json>, prefix: string, labels: set<string>)
    returns (o: Outcome)
    ensures o == NodeRefs(n, nidx, tctx, g, prefix, labels)
  {
    var rctx := NodeCtx(tctx, nidx);
    o := NextRef(n, rctx, g);
    if o.Fail? {
      return;
    }
    var ntype := TypeOf(n);
    if ntype == "choice" {
      o := CheckTargets(ChoiceNexts(n), rctx + ".choices", g);
    } else if ntype == "if" {
      o := CheckTargets(BranchNexts(n), rctx + ".branches", g);
    } else if ntype == "jump" || ntype == "call" {
      o := LabelRef(LabelOf(n), rctx, prefix, labels);
    }
  }

  /** The second pass: every reference of every node. */
  method CheckReferences(nodes: seq<Json>, tctx: string, g: map<string, Json>, prefix: string, labels: set<string>)
    returns (o: Outcome)
    ensures o == RefsFrom(nodes, 0, tctx, g, prefix, labels)
  {
    for nidx := 0 to |nodes|
      invariant RefsFrom(nodes, 0, tctx, g, prefix, labels) == RefsFrom(nodes, nidx, tctx, g, prefix, labels)
    {
      o := CheckNodeRefs(nodes[nidx], nidx, tctx, g, prefix, labels);
      if o.Fail? { return; }
    }
    return Pass;
  }

  /** One iteration of the tree loop. */
  method ValidateTree(t: Json, idx: int, prefix: string, seen: set<string>, labels: set<string>)
    returns (step: TreeStep)
    ensures step == TreeSpec(t, idx, prefix, seen, labels)
  {
    var tctx := TreeCtx(idx);
    var h := TreeHeader(t, tctx, seen);
    if h.Fail? {
      return TreeStep(Err(h.failure), labels, None);
    }
    var nodes := ItemsAt(t, "nodes");
    var scan := CollectNodes(nodes, tctx, IdOf(t), prefix, labels);
    if scan.Err? {
      return TreeStep(Err(scan.failure), labels, None);
    }
    var entry := StrOr(t, "entry_node");
    if entry !in scan.value.nodeMap {
      return TreeStep(Err(Invalid(tctx + ".entry_node references unknown node '" + entry + "'")), labels, None);
    }
    var o := CheckReferences(nodes, tctx, scan.value.nodeMap, prefix, scan.value.labels);
    if o.Fail? {
      return TreeStep(Err(o.failure), labels, None);
    }
    var reachable := Reach(entry, scan.value.nodeMap);
    var dangling := Dangling(Ids(nodes), reachable);
    var warning := if dangling == [] then None else Some(DanglingWarning(tctx, dangling));
    return TreeStep(Ok(TreeRecord(t)), scan.value.labels, warning);
  }

  /** `validate(data)`: the project or the first error, and the warnings
      issued before it returned or raised. */
  method Validate(data: Json) returns (result: Result<DialogProject>, warnings: seq<string>)
    ensures Validation(result, warnings) == ValidateSpec(data)
  {
    var o := RootCheck(data);
    if o.Fail? {
      return Err(o.failure), [];
    }
    var project := data.fields["project"].fields;
    var prefix := LabelPrefix(project);
    if prefix.Err? {
      return Err(prefix.failure), [];
    }
    var ts := data.fields["dialog_trees"].items;
    var trees: seq<DialogTree> := [];
    var seen: set<string> := {};
    var defined: set<string> := {};
    warnings := [];
    for idx := 0 to |ts|
      invariant TreesFrom(ts, 0, prefix.value, {}, {}, [], [])
                == TreesFrom(ts, idx, prefix.value, seen, defined, trees, warnings)
    {
      var step := ValidateTree(ts[idx], idx, prefix.value, seen, defined);
      if step.tree.Err? {
        return Err(step.tree.failure), warnings;
      }
      seen := seen + {step.tree.value.id};
      defined := step.labels;
      trees := trees + [step.tree.value];
      warnings := warnings + OptionToSeq(step.warning);
    }
    return Ok(DialogProject(data.fields["version"].s, project, trees)), warnings;
  }
}
