/** What the dialog-project validator accepts, stated without reference to the
    order of its checks: a declarative description of a well-formed node, tree
    and project, proved equivalent to the validator's passes, and the
    properties the validator promises as corollaries. */
module DialogValidatorProps {
  import opened Strings
  import opened JsonValue
  import opened DialogGraph
  import opened DialogValidator
  import DialogModels

  // ---------------------------------------------------------------------------
  // Well-formed nodes

  predicate ChoiceShaped(c: Json)
  {
    StrAt(c, "id") && StrAt(c, "text") && StrAt(c, "next")
  }

  predicate BranchShaped(b: Json)
  {
    StrAt(b, "condition") && StrAt(b, "next")
  }

  /** No two items carry the same `id`. */
  predicate DistinctIds(items: seq<Json>)
  {
    forall j, k :: 0 <= j < k < |items| ==> IdOf(items[j]) != IdOf(items[k])
  }

  /** The node types the validator knows; `note` is not one of them. */
  predicate KnownType(t: string)
  {
    t in ["say", "choice", "if", "jump", "call", "screen", "script", "return"]
  }

  /** The fields a node of type t must carry. */
  predicate BodyShaped(n: Json, t: string)
  {
    if t == "say" then StrAt(n, "character") && StrAt(n, "text") && StrAt(n, "next")
    else if t == "choice" then
      && StrAt(n, "prompt") && ListAt(n, "choices")
      && (forall k :: 0 <= k < |ItemsAt(n, "choices")| ==> ChoiceShaped(ItemsAt(n, "choices")[k]))
      && DistinctIds(ItemsAt(n, "choices"))
    else if t == "if" then
      && ListAt(n, "branches")
      && (forall k :: 0 <= k < |ItemsAt(n, "branches")| ==> BranchShaped(ItemsAt(n, "branches")[k]))
    else if t == "jump" || t == "call" then StrAt(n, "label")
    else if t == "screen" then StrAt(n, "screen") && StrAt(n, "next")
    else if t == "script" then StrAt(n, "code") && StrAt(n, "next")
    else t == "return"
  }

  predicate NodeShaped(n: Json)
  {
    StrAt(n, "id") && StrAt(n, "type") && BodyShaped(n, TypeOf(n))
  }

  lemma NodeShapedKnownType(n: Json)
    requires NodeShaped(n)
    ensures KnownType(TypeOf(n))
  {
  }

  // ---------------------------------------------------------------------------
  // The first pass accepts exactly the well-formed nodes

  /** Choices i.. are well-formed, their ids distinct and not in seen. */
  predicate ChoicesOk(cs: seq<Json>, i: nat, seen: set<string>)
  {
    && (forall k :: i <= k < |cs| ==> ChoiceShaped(cs[k]) && IdOf(cs[k]) !in seen)
    && (forall j, k :: i <= j < k < |cs| ==> IdOf(cs[j]) != IdOf(cs[k]))
  }

  lemma KeysPresent(v: Json, keys: seq<string>, ctx: string)
    requires v.JDict?
    ensures ExpectKeys(v, keys, ctx).Pass? <==> forall k :: 0 <= k < |keys| ==> keys[k] in v.fields
  {
    ExpectKeysDict(v, keys, ctx);
    assert forall k :: k in keys <==> exists j :: 0 <= j < |keys| && keys[j] == k;
  }

  lemma {:induction false} ChoicesFromMeans(cs: seq<Json>, i: nat, nctx: string, seen: set<string>)
    requires i <= |cs|
    ensures ChoicesFrom(cs, i, nctx, seen).Pass? <==> ChoicesOk(cs, i, seen)
    decreases |cs| - i
  {
    if i < |cs| {
      var c := cs[i];
      var cctx := Index(nctx + ".choices", i);
      var keys := ["id", "text", "next"];
      if c.JDict? {
        KeysPresent(c, keys, cctx);
        assert ExpectKeys(c, keys, cctx).Pass? <==> "id" in c.fields && "text" in c.fields && "next" in c.fields by {
          assert keys[0] == "id" && keys[1] == "text" && keys[2] == "next";
        }
      }
      if ChoiceShaped(c) && IdOf(c) !in seen {
        ChoicesFromMeans(cs, i + 1, nctx, seen + {IdOf(c)});
        assert ChoicesOk(cs, i, seen) <==> ChoicesOk(cs, i + 1, seen + {IdOf(c)});
      } else if ChoiceShaped(c) {
        assert !ChoicesOk(cs, i, seen);
      } else {
        assert !ChoicesOk(cs, i, seen);
        assert ChoicesFrom(cs, i, nctx, seen).Fail?;
      }
    }
  }

  lemma {:induction false} BranchesFromMeans(bs: seq<Json>, i: nat, nctx: string)
    requires i <= |bs|
    ensures BranchesFrom(bs, i, nctx).Pass? <==> forall k :: i <= k < |bs| ==> BranchShaped(bs[k])
    decreases |bs| - i
  {
    if i < |bs| {
      var b := bs[i];
      var bctx := Index(nctx + ".branches", i);
      var keys := ["condition", "next"];
      if b.JDict? {
        KeysPresent(b, keys, bctx);
        assert ExpectKeys(b, keys, bctx).Pass? <==> "condition" in b.fields && "next" in b.fields by {
          assert keys[0] == "condition" && keys[1] == "next";
        }
      }
      BranchesFromMeans(bs, i + 1, nctx);
    }
  }

  lemma ShapeMeans2(n: Json, k1: string, t1: PyType, k2: string, t2: PyType, nctx: string)
    requires n.JDict?
    ensures ExpectShape(n, [(k1, t1), (k2, t2)], nctx).Pass? <==>
              k1 in n.fields && IsInstance(n.fields[k1], t1) && k2 in n.fields && IsInstance(n.fields[k2], t2)
  {
    var shape := [(k1, t1), (k2, t2)];
    assert shape[0] == (k1, t1) && shape[1] == (k2, t2);
  }

  lemma ChoiceBodyMeans(n: Json, nctx: string)
    requires n.JDict?
    ensures NodeBody(n, "choice", nctx).Pass? <==> BodyShaped(n, "choice")
  {
    ShapeMeans2(n, "prompt", StrType, "choices", ListType, nctx);
    if ExpectShape(n, [("prompt", StrType), ("choices", ListType)], nctx).Pass? {
      ChoicesFromMeans(n.fields["choices"].items, 0, nctx, {});
    }
  }

  lemma IfBodyMeans(n: Json, nctx: string)
    requires n.JDict?
    ensures NodeBody(n, "if", nctx).Pass? <==> BodyShaped(n, "if")
  {
    var shape := [("branches", ListType)];
    assert shape[0].0 == "branches";
    if ExpectShape(n, shape, nctx).Pass? {
      BranchesFromMeans(n.fields["branches"].items, 0, nctx);
      assert ItemsAt(n, "branches") == n.fields["branches"].items;
    }
  }

  /** The type-specific checks pass exactly when the node carries the fields
      its type requires; an unknown type never passes. */
  lemma NodeBodyMeans(n: Json, t: string, nctx: string)
    requires n.JDict?
    ensures NodeBody(n, t, nctx).Pass? <==> BodyShaped(n, t)
    ensures !KnownType(t) ==> NodeBody(n, t, nctx) == Fail(Invalid(nctx + ".type unknown: " + t))
  {
    if t == "say" {
      var shape := [("character", StrType), ("text", StrType), ("next", StrType)];
      assert shape[0].0 == "character" && shape[1].0 == "text" && shape[2].0 == "next";
    } else if t == "choice" {
      ChoiceBodyMeans(n, nctx);
    } else if t == "if" {
      IfBodyMeans(n, nctx);
    } else if t == "jump" || t == "call" {
      var shape := [("label", StrType)];
      assert shape[0].0 == "label";
    } else if t == "screen" {
      ShapeMeans2(n, "screen", StrType, "next", StrType, nctx);
    } else if t == "script" {
      ShapeMeans2(n, "code", StrType, "next", StrType, nctx);
    }
  }

  lemma NodeCheckMeans(n: Json, nidx: int, tctx: string, ids: set<string>)
    ensures NodeCheck(n, nidx, tctx, ids).Pass? <==> NodeShaped(n) && IdOf(n) !in ids
  {
    hide NodeBody;
    var nctx := NodeCtx(tctx, nidx);
    if n.JDict? {
      KeysPresent(n, ["id", "type"], nctx);
      if StrAt(n, "type") {
        NodeBodyMeans(n, TypeOf(n), nctx);
      }
    }
  }

  /** Nodes i.. are well-formed, with ids distinct from each other and from ids. */
  predicate NodesOk(nodes: seq<Json>, i: nat, ids: set<string>)
  {
    && (forall k :: i <= k < |nodes| ==> NodeShaped(nodes[k]) && IdOf(nodes[k]) !in ids)
    && (forall j, k :: i <= j < k < |nodes| ==> IdOf(nodes[j]) != IdOf(nodes[k]))
  }

  /** `node_map` after inserting nodes i.. into m. */
  function NodeMapFrom(nodes: seq<Json>, i: nat, m: map<string, Json>): map<string, Json>
    requires i <= |nodes|
    decreases |nodes| - i
  {
    if i == |nodes| then m else NodeMapFrom(nodes, i + 1, m[IdOf(nodes[i]) := nodes[i]])
  }

  /** `node_map` of a tree. */
  function NodeMapOf(nodes: seq<Json>): map<string, Json>
  {
    NodeMapFrom(nodes, 0, map[])
  }

  /** The ids of nodes i.. */
  function IdsFrom(nodes: seq<Json>, i: nat): set<string>
  {
    set k | i <= k < |nodes| :: IdOf(nodes[k])
  }

  /** The labels nodes i.. of tree tid define. */
  function LabelsFrom(prefix: string, tid: string, nodes: seq<Json>, i: nat): set<string>
  {
    set k | i <= k < |nodes| :: DefinedLabel(prefix, tid, IdOf(nodes[k]))
  }

  lemma {:induction false} NodeMapFromKeys(nodes: seq<Json>, i: nat, m: map<string, Json>)
    requires i <= |nodes|
    ensures NodeMapFrom(nodes, i, m).Keys == m.Keys + IdsFrom(nodes, i)
    decreases |nodes| - i
  {
    if i < |nodes| {
      NodeMapFromKeys(nodes, i + 1, m[IdOf(nodes[i]) := nodes[i]]);
      assert IdsFrom(nodes, i) == {IdOf(nodes[i])} + IdsFrom(nodes, i + 1);
    }
  }

  lemma {:induction false} ScanNodesMeans(nodes: seq<Json>, i: nat, tctx: string, tid: string, prefix: string, acc: Scan)
    requires i <= |nodes|
    ensures ScanNodes(nodes, i, tctx, tid, prefix, acc).Ok? <==> NodesOk(nodes, i, acc.nodeMap.Keys)
    ensures ScanNodes(nodes, i, tctx, tid, prefix, acc).Ok? ==>
              ScanNodes(nodes, i, tctx, tid, prefix, acc).value
                == Scan(NodeMapFrom(nodes, i, acc.nodeMap), acc.labels + LabelsFrom(prefix, tid, nodes, i))
    decreases |nodes| - i
  {
    if i < |nodes| {
      NodeCheckMeans(nodes[i], i, tctx, acc.nodeMap.Keys);
      if NodeCheck(nodes[i], i, tctx, acc.nodeMap.Keys).Pass? {
        var nid := IdOf(nodes[i]);
        var next := Scan(acc.nodeMap[nid := nodes[i]], acc.labels + {DefinedLabel(prefix, tid, nid)});
        ScanNodesMeans(nodes, i + 1, tctx, tid, prefix, next);
        assert next.nodeMap.Keys == acc.nodeMap.Keys + {nid};
        assert NodesOk(nodes, i, acc.nodeMap.Keys) <==> NodesOk(nodes, i + 1, next.nodeMap.Keys);
        assert LabelsFrom(prefix, tid, nodes, i) == {DefinedLabel(prefix, tid, nid)} + LabelsFrom(prefix, tid, nodes, i + 1);
      }
    }
  }

  // ---------------------------------------------------------------------------
  // The second pass accepts exactly the resolved references

  /** Every reference a node makes resolves: its string `next`, its choices'
      and branches' `next` name nodes of ids, and a jump/call label that
      starts with the prefix is a defined label. */
  predicate NodeRefsResolved(n: Json, ids: set<string>, prefix: string, defined: set<string>)
  {
    && (NextOf(n).Some? ==> NextOf(n).value in ids)
    && (forall x :: x in ChoiceNexts(n) ==> x in ids)
    && (forall x :: x in BranchNexts(n) ==> x in ids)
    && ((TypeOf(n) == "jump" || TypeOf(n) == "call") && StartsWith(LabelOf(n), prefix) ==> LabelOf(n) in defined)
  }

  lemma {:induction false} TargetRefsMeans(targets: seq<string>, i: nat, listCtx: string, g: map<string, Json>)
    requires i <= |targets|
    ensures TargetRefs(targets, i, listCtx, g).Pass? <==> forall k :: i <= k < |targets| ==> targets[k] in g
    decreases |targets| - i
  {
    if i < |targets| {
      TargetRefsMeans(targets, i + 1, listCtx, g);
    }
  }

  lemma NodeRefsMeans(n: Json, nidx: int, tctx: string, g: map<string, Json>, prefix: string, labels: set<string>)
    ensures NodeRefs(n, nidx, tctx, g, prefix, labels).Pass? <==> NodeRefsResolved(n, g.Keys, prefix, labels)
  {
    var rctx := NodeCtx(tctx, nidx);
    TargetRefsMeans(ChoiceNexts(n), 0, rctx + ".choices", g);
    TargetRefsMeans(BranchNexts(n), 0, rctx + ".branches", g);
    assert (forall x :: x in ChoiceNexts(n) ==> x in g) <==>
           (forall k :: 0 <= k < |ChoiceNexts(n)| ==> ChoiceNexts(n)[k] in g);
    assert (forall x :: x in BranchNexts(n) ==> x in g) <==>
           (forall k :: 0 <= k < |BranchNexts(n)| ==> BranchNexts(n)[k] in g);
  }

  lemma {:induction false} RefsFromMeans(nodes: seq<Json>, i: nat, tctx: string, g: map<string, Json>, prefix: string,
                                         labels: set<string>)
    requires i <= |nodes|
    ensures RefsFrom(nodes, i, tctx, g, prefix, labels).Pass? <==>
              forall k :: i <= k < |nodes| ==> NodeRefsResolved(nodes[k], g.Keys, prefix, labels)
    decreases |nodes| - i
  {
    if i < |nodes| {
      NodeRefsMeans(nodes[i], i, tctx, g, prefix, labels);
      RefsFromMeans(nodes, i + 1, tctx, g, prefix, labels);
    }
  }

  // ---------------------------------------------------------------------------
  // One tree

  /** The checks made on a tree record before its nodes. */
  predicate TreeHeaderOk(t: Json, seen: set<string>)
  {
    && t.JDict? && StrAt(t, "id") && StrAt(t, "title") && StrAt(t, "entry_node") && ListAt(t, "nodes")
    && OptionalList(t, "locals") && OptionalList(t, "using_characters") && IdOf(t) !in seen
  }

  /** A tree the validator accepts, given the ids of the trees before it and
      the labels those trees define. */
  predicate TreeWellFormed(t: Json, prefix: string, seen: set<string>, labels: set<string>)
  {
    TreeHeaderOk(t, seen) && NodesWellFormed(t, prefix, labels)
  }

  /** The nodes of a tree the validator accepts: the scan passes, the entry
      node exists and every reference resolves. */
  predicate NodesWellFormed(t: Json, prefix: string, labels: set<string>)
  {
    var nodes := ItemsAt(t, "nodes");
    && NodesOk(nodes, 0, {})
    && StrOr(t, "entry_node") in IdsFrom(nodes, 0)
    && forall k :: 0 <= k < |nodes| ==>
         NodeRefsResolved(nodes[k], IdsFrom(nodes, 0), prefix, labels + LabelsFrom(prefix, IdOf(t), nodes, 0))
  }

  /** The warning the reachability search issues for a tree. */
  ghost function TreeWarning(t: Json, idx: int): Option<string>
  {
    var nodes := ItemsAt(t, "nodes");
    var d := Dangling(Ids(nodes), ReachableSet(StrOr(t, "entry_node"), NodeMapOf(nodes)));
    if d == [] then None else Some(DanglingWarning(TreeCtx(idx), d))
  }

  /** One tree passes exactly when it is well-formed; the reachability search
      only ever adds a warning. */
  lemma TreeSpecMeans(t: Json, idx: int, prefix: string, seen: set<string>, labels: set<string>)
    ensures TreeSpec(t, idx, prefix, seen, labels).tree.Ok? <==> TreeWellFormed(t, prefix, seen, labels)
    ensures TreeSpec(t, idx, prefix, seen, labels).tree.Ok? ==>
              TreeSpec(t, idx, prefix, seen, labels)
                == TreeStep(Ok(TreeRecord(t)), labels + LabelsFrom(prefix, IdOf(t), ItemsAt(t, "nodes"), 0), TreeWarning(t, idx))
  {
    if TreeHeader(t, TreeCtx(idx), seen).Fail? {
      assert TreeSpec(t, idx, prefix, seen, labels).tree.Err?;
      assert !TreeWellFormed(t, prefix, seen, labels);
    } else {
      NodesPhaseMeans(t, idx, prefix, labels);
    }
  }

  /** The same, for the part after the tree record's own keys: what is
      left are the node scan, the entry node and the references. */
  lemma NodesPhaseMeans(t: Json, idx: int, prefix: string, labels: set<string>)
    ensures NodesSpec(t, TreeCtx(idx), prefix, labels).tree.Ok? <==> NodesWellFormed(t, prefix, labels)
    ensures NodesSpec(t, TreeCtx(idx), prefix, labels).tree.Ok? ==>
              NodesSpec(t, TreeCtx(idx), prefix, labels)
                == TreeStep(Ok(TreeRecord(t)), labels + LabelsFrom(prefix, IdOf(t), ItemsAt(t, "nodes"), 0), TreeWarning(t, idx))
  {
    hide ScanNodes, RefsFrom, NodeMapFrom, NodesOk, NodeRefsResolved, LabelsFrom, ReachableSet, Dangling;
    var nodes := ItemsAt(t, "nodes");
    var acc := Scan(map[], labels);
    ScanNodesMeans(nodes, 0, TreeCtx(idx), IdOf(t), prefix, acc);
    var scan := ScanNodes(nodes, 0, TreeCtx(idx), IdOf(t), prefix, acc);
    assert acc.nodeMap.Keys == {};
    if scan.Err? {
      assert !NodesOk(nodes, 0, {});
    } else {
      var g := scan.value.nodeMap;
      assert g.Keys == IdsFrom(nodes, 0) by { NodeMapFromKeys(nodes, 0, map[]); }
      if StrOr(t, "entry_node") in g {
        RefsFromMeans(nodes, 0, TreeCtx(idx), g, prefix, scan.value.labels);
      }
    }
  }

  // ---------------------------------------------------------------------------
  // All trees

  /** The ids of trees 0 .. i-1. */
  function TreeIdsBefore(ts: seq<Json>, i: nat): set<string>
  {
    set j | 0 <= j < i && j < |ts| :: IdOf(ts[j])
  }

  /** The labels trees 0 .. i-1 define. */
  function LabelsBefore(ts: seq<Json>, i: nat, prefix: string): set<string>
    requires i <= |ts|
  {
    if i == 0 then {} else LabelsBefore(ts, i - 1, prefix) + LabelsFrom(prefix, IdOf(ts[i - 1]), ItemsAt(ts[i - 1], "nodes"), 0)
  }

  /** The records kept for trees 0 .. i-1. */
  function RecordsBefore(ts: seq<Json>, i: nat): (r: seq<DialogTree>)
    requires i <= |ts|
    ensures |r| == i
  {
    seq(i, j requires 0 <= j < i => TreeRecord(ts[j]))
  }

  /** The warnings trees 0 .. i-1 issue, in order. */
  ghost function WarningsBefore(ts: seq<Json>, i: nat): seq<string>
    requires i <= |ts|
  {
    if i == 0 then [] else WarningsBefore(ts, i - 1) + OptionToSeq(TreeWarning(ts[i - 1], i - 1))
  }

  /** Tree k is well-formed in the context of the trees before it. */
  predicate TreeOkAt(ts: seq<Json>, k: nat, prefix: string)
    requires k < |ts|
  {
    TreeWellFormed(ts[k], prefix, TreeIdsBefore(ts, k), LabelsBefore(ts, k, prefix))
  }

  lemma TreeIdsBeforeNext(ts: seq<Json>, i: nat)
    requires i < |ts|
    ensures TreeIdsBefore(ts, i + 1) == TreeIdsBefore(ts, i) + {IdOf(ts[i])}
  {
  }

  lemma RecordsBeforeNext(ts: seq<Json>, i: nat)
    requires i < |ts|
    ensures RecordsBefore(ts, i) + [TreeRecord(ts[i])] == RecordsBefore(ts, i + 1)
  {
  }

  /** The tree loop entered at tree i in the state the trees before i
      leave. */
  ghost function LoopAt(ts: seq<Json>, i: nat, prefix: string): (Result<seq<DialogTree>>, seq<string>)
    requires i <= |ts|
  {
    TreesFrom(ts, i, prefix, TreeIdsBefore(ts, i), LabelsBefore(ts, i, prefix), RecordsBefore(ts, i), WarningsBefore(ts, i))
  }

  /** What checking tree k after the trees before it yields. */
  ghost function TreeResultAt(ts: seq<Json>, k: nat, prefix: string): Result<DialogTree>
    requires k < |ts|
  {
    TreeSpec(ts[k], k, prefix, TreeIdsBefore(ts, k), LabelsBefore(ts, k, prefix)).tree
  }

  /** The outcome of the tree loop from tree i on, tree by tree: the first
      tree that fails its checks stops it with the warnings of the trees
      before it, and past the last tree it keeps every record and warning. */
  ghost function TreesAt(ts: seq<Json>, i: nat, prefix: string): (Result<seq<DialogTree>>, seq<string>)
    requires i <= |ts|
    decreases |ts| - i
  {
    if i == |ts| then (Ok(RecordsBefore(ts, |ts|)), WarningsBefore(ts, |ts|))
    else match TreeResultAt(ts, i, prefix)
      case Err(f) => (Err(f), WarningsBefore(ts, i))
      case Ok(_) => TreesAt(ts, i + 1, prefix)
  }

  lemma LoopAtOkStep(ts: seq<Json>, i: nat, prefix: string)
    requires i < |ts| && TreeOkAt(ts, i, prefix)
    ensures TreeResultAt(ts, i, prefix).Ok?
    ensures LoopAt(ts, i, prefix) == LoopAt(ts, i + 1, prefix)
  {
    var seen := TreeIdsBefore(ts, i);
    var labels := LabelsBefore(ts, i, prefix);
    TreeSpecMeans(ts[i], i, prefix, seen, labels);
    TreeIdsBeforeNext(ts, i);
    RecordsBeforeNext(ts, i);
  }

  lemma LoopAtBadStep(ts: seq<Json>, i: nat, prefix: string)
    requires i < |ts| && !TreeOkAt(ts, i, prefix)
    ensures TreeResultAt(ts, i, prefix).Err?
    ensures LoopAt(ts, i, prefix) == (Err(TreeResultAt(ts, i, prefix).failure), WarningsBefore(ts, i))
  {
    TreeSpecMeans(ts[i], i, prefix, TreeIdsBefore(ts, i), LabelsBefore(ts, i, prefix));
  }

  /** The loop's own state threading agrees with the tree-by-tree outcome. */
  lemma {:induction false} LoopAtIsTreesAt(ts: seq<Json>, i: nat, prefix: string)
    requires i <= |ts|
    ensures LoopAt(ts, i, prefix) == TreesAt(ts, i, prefix)
    decreases |ts| - i
  {
    hide TreeSpec, TreeResultAt, TreeOkAt, WarningsBefore, RecordsBefore;
    if i < |ts| {
      if TreeOkAt(ts, i, prefix) {
        LoopAtOkStep(ts, i, prefix);
        LoopAtIsTreesAt(ts, i + 1, prefix);
      } else {
        LoopAtBadStep(ts, i, prefix);
      }
    }
  }

  /** Each tree passes its checks exactly when it is well-formed. */
  lemma TreeResultAtMeans(ts: seq<Json>, prefix: string)
    ensures forall k :: 0 <= k < |ts| ==> (TreeResultAt(ts, k, prefix).Ok? <==> TreeOkAt(ts, k, prefix))
  {
    forall k | 0 <= k < |ts|
      ensures TreeResultAt(ts, k, prefix).Ok? <==> TreeOkAt(ts, k, prefix)
    {
      TreeSpecMeans(ts[k], k, prefix, TreeIdsBefore(ts, k), LabelsBefore(ts, k, prefix));
    }
  }

  /** Every tree from i on passes its checks. */
  ghost predicate AllTreesOk(ts: seq<Json>, i: nat, prefix: string)
    requires i <= |ts|
    decreases |ts| - i
  {
    i == |ts| || (TreeResultAt(ts, i, prefix).Ok? && AllTreesOk(ts, i + 1, prefix))
  }

  /** Every tree from i on passes its checks exactly when each one is
      well-formed after the trees before it. */
  lemma {:induction false} AllTreesOkMeans(ts: seq<Json>, i: nat, prefix: string)
    requires i <= |ts|
    ensures AllTreesOk(ts, i, prefix) <==> forall k :: i <= k < |ts| ==> TreeOkAt(ts, k, prefix)
    decreases |ts| - i
  {
    hide TreeSpec, TreeWellFormed, TreeWarning, LabelsBefore, TreeIdsBefore;
    if i < |ts| {
      AllTreesOkMeans(ts, i + 1, prefix);
      TreeSpecMeans(ts[i], i, prefix, TreeIdsBefore(ts, i), LabelsBefore(ts, i, prefix));
      assert (forall k :: i <= k < |ts| ==> TreeOkAt(ts, k, prefix))
             <==> TreeOkAt(ts, i, prefix) && (forall k :: i + 1 <= k < |ts| ==> TreeOkAt(ts, k, prefix));
    }
  }

  /** The tree loop from i on passes exactly when every remaining tree
      passes its checks, and then keeps one record per tree and every tree's
      warning. */
  lemma {:induction false} TreesAtOk(ts: seq<Json>, i: nat, prefix: string)
    requires i <= |ts|
    ensures TreesAt(ts, i, prefix).0.Ok? <==> AllTreesOk(ts, i, prefix)
    ensures TreesAt(ts, i, prefix).0.Ok? ==>
              TreesAt(ts, i, prefix) == (Ok(RecordsBefore(ts, |ts|)), WarningsBefore(ts, |ts|))
    decreases |ts| - i
  {
    hide TreeResultAt, WarningsBefore, RecordsBefore;
    if i < |ts| && TreeResultAt(ts, i, prefix).Ok? {
      TreesAtOk(ts, i + 1, prefix);
    }
  }

  /** Tree k is the first tree from i on that fails its checks. */
  ghost predicate FirstBadTree(ts: seq<Json>, i: nat, k: nat, prefix: string)
  {
    && i <= k < |ts| && TreeResultAt(ts, k, prefix).Err?
    && forall j :: i <= j < k ==> TreeResultAt(ts, j, prefix).Ok?
  }

  /** Otherwise it fails with the error of the first tree that fails, after
      issuing the warnings of the trees before that one. */
  lemma {:induction false} TreesAtErr(ts: seq<Json>, i: nat, prefix: string)
    requires i <= |ts|
    ensures TreesAt(ts, i, prefix).0.Err? ==>
              exists k :: FirstBadTree(ts, i, k, prefix)
                          && TreesAt(ts, i, prefix) == (Err(TreeResultAt(ts, k, prefix).failure), WarningsBefore(ts, k))
    decreases |ts| - i
  {
    if i < |ts| {
      if TreeResultAt(ts, i, prefix).Ok? {
        TreesAtErr(ts, i + 1, prefix);
        if TreesAt(ts, i, prefix).0.Err? {
          var k :| FirstBadTree(ts, i + 1, k, prefix)
                   && TreesAt(ts, i + 1, prefix) == (Err(TreeResultAt(ts, k, prefix).failure), WarningsBefore(ts, k));
          assert FirstBadTree(ts, i, k, prefix);
        }
      } else {
        assert FirstBadTree(ts, i, i, prefix);
      }
    }
  }

  // ---------------------------------------------------------------------------
  // The whole project

  /** The root is a mapping with a string `version`, a mapping `project` and
      a list `dialog_trees`. */
  predicate RootShaped(data: Json)
  {
    && data.JDict? && "version" in data.fields && "project" in data.fields && "dialog_trees" in data.fields
    && data.fields["version"].JStr? && data.fields["project"].JDict? && data.fields["dialog_trees"].JList?
  }

  /** `project.naming`, when present, is a mapping whose prefixes are strings. */
  predicate NamingOk(project: map<string, Json>)
  {
    "naming" in project ==>
      && project["naming"].JDict?
      && ("label_prefix" in project["naming"].fields ==> project["naming"].fields["label_prefix"].JStr?)
      && ("menu_prefix" in project["naming"].fields ==> project["naming"].fields["menu_prefix"].JStr?)
  }

  /** The configured label prefix, "" by default. */
  function PrefixOf(project: map<string, Json>): string
  {
    if "naming" in project && project["naming"].JDict? && "label_prefix" in project["naming"].fields
       && project["naming"].fields["label_prefix"].JStr?
    then project["naming"].fields["label_prefix"].s
    else ""
  }

  function ProjectOf(data: Json): map<string, Json>
    requires RootShaped(data)
  {
    data.fields["project"].fields
  }

  function TreesOf(data: Json): seq<Json>
    requires RootShaped(data)
  {
    data.fields["dialog_trees"].items
  }

  lemma LabelPrefixMeans(project: map<string, Json>)
    ensures LabelPrefix(project).Ok? <==> NamingOk(project)
    ensures LabelPrefix(project).Ok? ==> LabelPrefix(project).value == PrefixOf(project)
  {
  }

  lemma TreesAtStart(ts: seq<Json>, prefix: string)
    ensures TreesAt(ts, 0, prefix) == TreesFrom(ts, 0, prefix, {}, {}, [], [])
  {
    LoopAtIsTreesAt(ts, 0, prefix);
    assert TreeIdsBefore(ts, 0) == {};
    assert RecordsBefore(ts, 0) == [];
  }

  /** `validate` returns a project exactly when the root is well-shaped, the
      naming is well-typed and every tree is well-formed after the trees
      before it; the project then holds the version, the project mapping and
      one record per tree, in order, and every tree's warning was issued. */
  lemma ValidateSpecOk(data: Json)
    ensures ValidateSpec(data).result.Ok? <==>
              && RootShaped(data) && NamingOk(ProjectOf(data))
              && forall k :: 0 <= k < |TreesOf(data)| ==> TreeOkAt(TreesOf(data), k, PrefixOf(ProjectOf(data)))
    ensures ValidateSpec(data).result.Ok? ==>
              ValidateSpec(data) == Validation(
                Ok(DialogProject(data.fields["version"].s, ProjectOf(data), RecordsBefore(TreesOf(data), |TreesOf(data)|))),
                WarningsBefore(TreesOf(data), |TreesOf(data)|))
  {
    if RootShaped(data) {
      var project := ProjectOf(data);
      LabelPrefixMeans(project);
      if NamingOk(project) {
        var ts := TreesOf(data);
        var prefix := PrefixOf(project);
        TreesAtStart(ts, prefix);
        TreesAtOk(ts, 0, prefix);
        AllTreesOkMeans(ts, 0, prefix);
      }
    }
  }

  /** A root or naming error stops `validate` before any warning; a tree error
      comes from the first tree that fails, after the warnings of the trees
      before it. */
  lemma ValidateSpecErr(data: Json)
    ensures !RootShaped(data) ==> ValidateSpec(data).result.Err? && ValidateSpec(data).result.failure.Invalid?
                                  && ValidateSpec(data).warnings == []
    ensures !data.JDict? ==> ValidateSpec(data) == Validation(Err(Invalid("root: expected mapping")), [])
    ensures RootShaped(data) && !NamingOk(ProjectOf(data)) ==>
              ValidateSpec(data).result.Err? && ValidateSpec(data).warnings == []
    ensures RootShaped(data) && "naming" in ProjectOf(data) && !ProjectOf(data)["naming"].JDict? ==>
              ValidateSpec(data).result.Err? && ValidateSpec(data).result.failure.Crash?
    ensures RootShaped(data) && NamingOk(ProjectOf(data)) && ValidateSpec(data).result.Err? ==>
              exists k :: FirstBadTree(TreesOf(data), 0, k, PrefixOf(ProjectOf(data)))
                          && ValidateSpec(data).result.failure == TreeResultAt(TreesOf(data), k, PrefixOf(ProjectOf(data))).failure
                          && ValidateSpec(data).warnings == WarningsBefore(TreesOf(data), k)
  {
    if RootShaped(data) {
      var project := ProjectOf(data);
      LabelPrefixMeans(project);
      if NamingOk(project) {
        var ts := TreesOf(data);
        var prefix := PrefixOf(project);
        TreesAtStart(ts, prefix);
        TreesAtErr(ts, 0, prefix);
      }
    }
  }

  // ---------------------------------------------------------------------------
  // What a validated project guarantees

  lemma {:induction false} LabelsBeforeMeans(ts: seq<Json>, i: nat, prefix: string, x: string)
    requires i <= |ts|
    ensures x in LabelsBefore(ts, i, prefix) <==>
              exists j, m :: 0 <= j < i && 0 <= m < |ItemsAt(ts[j], "nodes")|
                             && x == DefinedLabel(prefix, IdOf(ts[j]), IdOf(ItemsAt(ts[j], "nodes")[m]))
  {
    if i > 0 {
      LabelsBeforeMeans(ts, i - 1, prefix, x);
      var nodes := ItemsAt(ts[i - 1], "nodes");
      var here := LabelsFrom(prefix, IdOf(ts[i - 1]), nodes, 0);
      assert LabelsBefore(ts, i, prefix) == LabelsBefore(ts, i - 1, prefix) + here;
      if x in here {
        var m :| 0 <= m < |nodes| && x == DefinedLabel(prefix, IdOf(ts[i - 1]), IdOf(nodes[m]));
        assert 0 <= i - 1 < i && 0 <= m < |ItemsAt(ts[i - 1], "nodes")|;
      } else if x in LabelsBefore(ts, i - 1, prefix) {
        var j, m :| 0 <= j < i - 1 && 0 <= m < |ItemsAt(ts[j], "nodes")|
                    && x == DefinedLabel(prefix, IdOf(ts[j]), IdOf(ItemsAt(ts[j], "nodes")[m]));
        assert 0 <= j < i;
      } else {
        forall j, m | 0 <= j < i && 0 <= m < |ItemsAt(ts[j], "nodes")|
          ensures x != DefinedLabel(prefix, IdOf(ts[j]), IdOf(ItemsAt(ts[j], "nodes")[m]))
        {
          if j == i - 1 {
            assert DefinedLabel(prefix, IdOf(ts[j]), IdOf(nodes[m])) in here;
          }
        }
      }
    }
  }

  /** The trees of a validated project, and the raw trees they came from. */
  lemma ValidatedTrees(data: Json)
    requires ValidateSpec(data).result.Ok?
    ensures RootShaped(data) && NamingOk(ProjectOf(data))
    ensures ValidateSpec(data).result.value.dialogTrees == RecordsBefore(TreesOf(data), |TreesOf(data)|)
    ensures forall k :: 0 <= k < |TreesOf(data)| ==> TreeOkAt(TreesOf(data), k, PrefixOf(ProjectOf(data)))
  {
    ValidateSpecOk(data);
  }

  /** Tree ids are unique across the project. */
  lemma TreeIdsUnique(data: Json)
    requires ValidateSpec(data).result.Ok?
    ensures var trees := ValidateSpec(data).result.value.dialogTrees;
            forall j, k :: 0 <= j < k < |trees| ==> trees[j].id != trees[k].id
  {
    ValidatedTrees(data);
    var ts := TreesOf(data);
    var prefix := PrefixOf(ProjectOf(data));
    forall j, k | 0 <= j < k < |ts| ensures IdOf(ts[j]) != IdOf(ts[k]) {
      assert TreeOkAt(ts, k, prefix);
      assert IdOf(ts[j]) in TreeIdsBefore(ts, k);
    }
  }

  /** The node properties of one well-formed tree's nodes. */
  ghost predicate NodesSound(nodes: seq<Json>, entry: string)
  {
    var ids := set n | n in nodes :: IdOf(n);
    && Distinct(Ids(nodes))
    && (forall n :: n in nodes ==> NodeShaped(n) && KnownType(TypeOf(n)))
    && entry in ids
    && (forall n :: n in nodes && NextOf(n).Some? ==> NextOf(n).value in ids)
    && (forall n, x :: n in nodes && x in ChoiceNexts(n) ==> x in ids)
    && (forall n, x :: n in nodes && x in BranchNexts(n) ==> x in ids)
  }

  /** The ids the scan collects are the ids of the nodes. */
  lemma IdsFromIsIdSet(nodes: seq<Json>)
    ensures IdsFrom(nodes, 0) == set n | n in nodes :: IdOf(n)
  {
    var ids := set n | n in nodes :: IdOf(n);
    forall x ensures x in IdsFrom(nodes, 0) <==> x in ids {
      if x in ids {
        var n :| n in nodes && x == IdOf(n);
        var m :| 0 <= m < |nodes| && nodes[m] == n;
        assert x == IdOf(nodes[m]);
      }
    }
  }

  lemma TreeOkNodesSound(ts: seq<Json>, k: nat, prefix: string)
    requires k < |ts| && TreeOkAt(ts, k, prefix)
    ensures NodesSound(TreeRecord(ts[k]).nodes, TreeRecord(ts[k]).entryNode)
  {
    var nodes := ItemsAt(ts[k], "nodes");
    IdsFromIsIdSet(nodes);
    forall n | n in nodes ensures NodeShaped(n) && KnownType(TypeOf(n)) {
      NodeShapedKnownType(n);
    }
  }

  /** Within a validated tree: node ids are unique, every node has a known
      type and the fields it requires, the entry node exists, and every
      `next` of a node, a choice or a branch names a node of the same tree. */
  lemma TreeNodesSound(data: Json, k: nat)
    requires ValidateSpec(data).result.Ok? && k < |ValidateSpec(data).result.value.dialogTrees|
    ensures var tree := ValidateSpec(data).result.value.dialogTrees[k];
            var ids := set n | n in tree.nodes :: IdOf(n);
            && Distinct(Ids(tree.nodes))
            && (forall n :: n in tree.nodes ==> NodeShaped(n) && KnownType(TypeOf(n)))
            && tree.entryNode in ids
            && (forall n :: n in tree.nodes && NextOf(n).Some? ==> NextOf(n).value in ids)
            && (forall n, x :: n in tree.nodes && x in ChoiceNexts(n) ==> x in ids)
            && (forall n, x :: n in tree.nodes && x in BranchNexts(n) ==> x in ids)
  {
    ValidatedTrees(data);
    TreeOkNodesSound(TreesOf(data), k, PrefixOf(ProjectOf(data)));
    assert NodesSound(ValidateSpec(data).result.value.dialogTrees[k].nodes, ValidateSpec(data).result.value.dialogTrees[k].entryNode);
  }

  /** A jump or call whose label starts with the prefix targets a node label
      of its own tree or of an earlier one. */
  lemma JumpLabelsResolve(data: Json, k: nat, m: nat)
    requires ValidateSpec(data).result.Ok? && k < |ValidateSpec(data).result.value.dialogTrees|
    requires m < |ValidateSpec(data).result.value.dialogTrees[k].nodes|
    ensures var trees := ValidateSpec(data).result.value.dialogTrees;
            var n := trees[k].nodes[m];
            var prefix := PrefixOf(ProjectOf(data));
            (TypeOf(n) == "jump" || TypeOf(n) == "call") && StartsWith(LabelOf(n), prefix) ==>
              exists j, q :: 0 <= j <= k && 0 <= q < |trees[j].nodes|
                             && LabelOf(n) == DefinedLabel(prefix, trees[j].id, IdOf(trees[j].nodes[q]))
  {
    hide ValidateSpec, TreeSpec, LabelsBefore, WarningsBefore;
    ValidatedTrees(data);
    var ts := TreesOf(data);
    var trees := ValidateSpec(data).result.value.dialogTrees;
    var prefix := PrefixOf(ProjectOf(data));
    assert TreeOkAt(ts, k, prefix);
    var nodes := ItemsAt(ts[k], "nodes");
    var n := nodes[m];
    var x := LabelOf(n);
    if (TypeOf(n) == "jump" || TypeOf(n) == "call") && StartsWith(x, prefix) {
      assert NodeRefsResolved(n, IdsFrom(nodes, 0), prefix, LabelsBefore(ts, k, prefix) + LabelsFrom(prefix, IdOf(ts[k]), nodes, 0));
      if x in LabelsFrom(prefix, IdOf(ts[k]), nodes, 0) {
        var q :| 0 <= q < |nodes| && x == DefinedLabel(prefix, IdOf(ts[k]), IdOf(nodes[q]));
        assert trees[k].nodes == nodes;
      } else {
        LabelsBeforeMeans(ts, k, prefix, x);
        var j, q :| 0 <= j < k && 0 <= q < |ItemsAt(ts[j], "nodes")|
                    && x == DefinedLabel(prefix, IdOf(ts[j]), IdOf(ItemsAt(ts[j], "nodes")[q]));
        assert trees[j] == TreeRecord(ts[j]);
      }
    }
  }

  /** Pins the default prefix "": every label starts with it, so a jump or
      call passes the label check only when its label is defined; with any
      other prefix, a label outside it passes unchecked. */
  lemma EmptyPrefixChecksAll(target: string, rctx: string, prefix: string, labels: set<string>)
    ensures LabelRef(target, rctx, "", labels).Pass? <==> target in labels
    ensures !StartsWith(target, prefix) ==> LabelRef(target, rctx, prefix, labels).Pass?
  {
  }

  /** With the prefix "dlg_", the labels the validator records are the labels
      the code generator emits for nodes. */
  lemma DefinedLabelIsNodeLabel(tid: string, nid: string)
    ensures DefinedLabel("dlg_", tid, nid) == DialogModels.NodeLabel(tid, nid)
  {
  }

  /** The warning for a well-formed tree lists its unreachable nodes: each
      exactly once, in code-point order, and only those. */
  lemma TreeWarningMeans(ts: seq<Json>, k: nat, prefix: string)
    requires k < |ts| && TreeOkAt(ts, k, prefix)
    ensures var t := ts[k];
            var nodes := ItemsAt(t, "nodes");
            var reached := ReachableSet(StrOr(t, "entry_node"), NodeMapOf(nodes));
            && (TreeWarning(t, k).None? <==> forall n :: n in nodes ==> IdOf(n) in reached)
            && (TreeWarning(t, k).Some? ==>
                  exists d :: TreeWarning(t, k) == Some(DanglingWarning(TreeCtx(k), d))
                              && IsSorted(d) && Distinct(d)
                              && forall x :: x in d <==> x in Ids(nodes) && x !in reached)
  {
    var nodes := ItemsAt(ts[k], "nodes");
    assert NodesOk(nodes, 0, {});
    WarningOfDistinct(ts[k], k);
  }

  /** The same for any tree whose node ids are distinct. */
  lemma WarningOfDistinct(t: Json, idx: int)
    requires Distinct(Ids(ItemsAt(t, "nodes")))
    ensures var nodes := ItemsAt(t, "nodes");
            var reached := ReachableSet(StrOr(t, "entry_node"), NodeMapOf(nodes));
            && (TreeWarning(t, idx).None? <==> forall n :: n in nodes ==> IdOf(n) in reached)
            && (TreeWarning(t, idx).Some? ==>
                  exists d :: TreeWarning(t, idx) == Some(DanglingWarning(TreeCtx(idx), d))
                              && IsSorted(d) && Distinct(d)
                              && forall x :: x in d <==> x in Ids(nodes) && x !in reached)
  {
    var nodes := ItemsAt(t, "nodes");
    var reached := ReachableSet(StrOr(t, "entry_node"), NodeMapOf(nodes));
    var order := Ids(nodes);
    DanglingExact(order, reached);
    var d := Dangling(order, reached);
    if d == [] {
      forall n | n in nodes ensures IdOf(n) in reached {
        var m :| 0 <= m < |nodes| && nodes[m] == n;
        assert order[m] == IdOf(n);
      }
    } else {
      var x := d[0];
      assert x in order && x !in reached;
      var m :| 0 <= m < |order| && order[m] == x;
      assert nodes[m] in nodes && IdOf(nodes[m]) !in reached;
    }
  }
}
