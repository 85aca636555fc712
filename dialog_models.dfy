/** The dialog IR: label naming and the record types of a dialog project, with
    the defaults the dataclasses declare. */
module DialogModels {
  import opened Strings
  import opened JsonValue

  // ---------------------------------------------------------------------------
  // Label naming

  /** `node_label(tree_id, node_id)`: the Ren'Py label of a node. */
  function NodeLabel(treeId: string, nodeId: string): (r: string)
    ensures StartsWith(r, "dlg_")
    ensures EndsWith(r, "__" + nodeId)
    ensures |r| == 6 + |treeId| + |nodeId|
  {
    var r := "dlg_" + treeId + "__" + nodeId;
    assert r[..4] == "dlg_";
    assert r[|r| - (2 + |nodeId|)..] == "__" + nodeId;
    r
  }

  /** `tree_start_label(tree_id)`: the label a tree is entered by. */
  function TreeStartLabel(treeId: string): (r: string)
    ensures r == "dlg_" + treeId + "__start"
    ensures StartsWith(r, "dlg_")
  {
    NodeLabel(treeId, "start")
  }

  /** Within one tree, the label determines the node. */
  lemma NodeLabelInjectiveInNode(t: string, n1: string, n2: string)
    requires NodeLabel(t, n1) == NodeLabel(t, n2)
    ensures n1 == n2
  {
    var l := NodeLabel(t, n1);
    assert n1 == l[6 + |t|..];
    assert n2 == NodeLabel(t, n2)[6 + |t|..];
  }

  /** No "__" inside the id and no trailing "_". */
  predicate PlainId(t: string)
  {
    (forall i :: 0 <= i < |t| - 1 ==> !(t[i] == '_' && t[i + 1] == '_')) && (t == [] || t[|t| - 1] != '_')
  }

  /** Index of the first "__" in s at or after i (|s| if there is none). */
  function FirstDoubleUnderscore(s: string, i: nat): (r: nat)
    ensures r <= |s|
    decreases |s| - i
  {
    if i + 1 >= |s| then |s|
    else if s[i] == '_' && s[i + 1] == '_' then i
    else FirstDoubleUnderscore(s, i + 1)
  }

  lemma {:induction false} FirstDoubleUnderscoreAfterPlainId(t: string, n: string, i: nat)
    requires PlainId(t) && i <= |t|
    ensures FirstDoubleUnderscore(t + "__" + n, i) == |t|
    decreases |t| - i
  {
    var s := t + "__" + n;
    assert s[|t|] == '_' && s[|t| + 1] == '_';
    if i < |t| {
      assert s[i] == t[i];
      if i + 1 < |t| {
        assert s[i + 1] == t[i + 1];
      } else {
        assert t[i] != '_';
      }
      FirstDoubleUnderscoreAfterPlainId(t, n, i + 1);
    }
  }

  /** Across trees, labels are collision-free as long as tree ids are plain:
      the first "__" after the "dlg_" prefix then ends the tree id. */
  lemma NodeLabelInjective(t1: string, n1: string, t2: string, n2: string)
    requires PlainId(t1) && PlainId(t2)
    requires NodeLabel(t1, n1) == NodeLabel(t2, n2)
    ensures t1 == t2 && n1 == n2
  {
    var l := NodeLabel(t1, n1);
    assert l[4..] == t1 + "__" + n1;
    assert l[4..] == t2 + "__" + n2 by { assert l == NodeLabel(t2, n2); }
    FirstDoubleUnderscoreAfterPlainId(t1, n1, 0);
    FirstDoubleUnderscoreAfterPlainId(t2, n2, 0);
    assert t1 == l[4..4 + |t1|] == t2;
    NodeLabelInjectiveInNode(t1, n1, n2);
  }

  /** Without that restriction two different (tree, node) pairs share a label. */
  lemma NodeLabelCollision()
    ensures NodeLabel("a__b", "c") == NodeLabel("a", "b__c")
  {
  }

  // ---------------------------------------------------------------------------
  // Project configuration

  /** `Naming` */
  datatype Naming = Naming(labelPrefix: string := "dlg_", menuPrefix: string := "m_")

  /** `ProjectConfig` */
  datatype ProjectConfig = ProjectConfig(
    language: Option<string> := None,
    defaultCharacter: Option<string> := None,
    naming: Naming := Naming())

  /** `LocalVar`; a missing default is Python's None. */
  datatype LocalVar = LocalVar(name: string, varType: string, default: Json := JNull)

  /** Pins the defaults of the configuration records and of a local
      variable. */
  lemma Defaults(name: string, varType: string)
    ensures Naming() == Naming("dlg_", "m_")
    ensures ProjectConfig() == ProjectConfig(None, None, Naming("dlg_", "m_"))
    ensures LocalVar(name, varType).default == JNull
  {
  }

  // ---------------------------------------------------------------------------
  // Nodes: the `Node` class hierarchy as one closed sum type

  /** The fields of the `Node` base class. */
  datatype NodeHeader = NodeHeader(
    id: string,
    nodeType: string,
    comment: Option<string> := None,
    tags: Option<seq<string>> := None)

  /** `Choice`: one option of a choice node. */
  datatype Choice = Choice(
    id: string,
    text: string,
    conditions: Option<seq<string>> := None,
    effects: Option<seq<string>> := None,
    next: Option<string> := None)

  /** `Branch`: both fields are required. */
  datatype Branch = Branch(condition: string, next: string)

  datatype Node =
    | SayNode(header: NodeHeader, character: Option<string> := None, text: string := "",
              textTags: Option<seq<string>> := None, voice: Option<string> := None,
              autoAdvance: Option<bool> := None, next: Option<string> := None)
    | ChoiceNode(header: NodeHeader, prompt: Option<string> := None, choices: seq<Choice> := [])
    | IfNode(header: NodeHeader, branches: seq<Branch> := [])
    | ScriptNode(header: NodeHeader, code: seq<string> := [], next: Option<string> := None)
    | JumpNode(header: NodeHeader, targetLabel: string := "")
    | CallNode(header: NodeHeader, targetLabel: string := "")
    | ReturnNode(header: NodeHeader)
    | ScreenNode(header: NodeHeader, screen: string := "", params: Option<map<string, Json>> := None,
                 next: Option<string> := None)
    | NoteNode(header: NodeHeader, text: string := "")

  /** The node's own `next` field: only Say, Script and Screen nodes have one. */
  function DirectNext(n: Node): (r: Option<string>)
    ensures r.Some? ==> n.SayNode? || n.ScriptNode? || n.ScreenNode?
    ensures n.SayNode? || n.ScriptNode? || n.ScreenNode? ==> r == n.next
  {
    match n
    case SayNode(_, _, _, _, _, _, next) => next
    case ScriptNode(_, _, next) => next
    case ScreenNode(_, _, _, next) => next
    case _ => None
  }

  /** Every node id a node names as a successor, in field order. */
  function Targets(n: Node): (r: seq<string>)
    ensures n.JumpNode? || n.CallNode? || n.ReturnNode? || n.NoteNode? ==> r == []
    ensures n.IfNode? ==> |r| == |n.branches| && forall i :: 0 <= i < |r| ==> r[i] == n.branches[i].next
    ensures n.ChoiceNode? ==> forall t :: t in r <==> exists c :: c in n.choices && c.next == Some(t)
    ensures DirectNext(n).Some? ==> r == [DirectNext(n).value]
  {
    match n
    case ChoiceNode(_, _, choices) => ChoiceTargets(choices)
    case IfNode(_, branches) => seq(|branches|, i requires 0 <= i < |branches| => branches[i].next)
    case SayNode(_, _, _, _, _, _, next) => OptionToSeq(next)
    case ScriptNode(_, _, next) => OptionToSeq(next)
    case ScreenNode(_, _, _, next) => OptionToSeq(next)
    case _ => []
  }

  function OptionToSeq(o: Option<string>): seq<string>
  {
    if o.Some? then [o.value] else []
  }

  function ChoiceTargets(choices: seq<Choice>): (r: seq<string>)
    ensures forall t :: t in r <==> exists c :: c in choices && c.next == Some(t)
  {
    if choices == [] then []
    else
      var rest := ChoiceTargets(choices[1..]);
      assert forall c :: c in choices <==> c == choices[0] || c in choices[1..];
      (if choices[0].next.Some? then [choices[0].next.value] else []) + rest
  }
}
