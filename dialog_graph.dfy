/** The node graph of one dialog tree as the validator sees it: the fields
    it reads from a raw node, the edges its depth-first search follows, the
    search itself, and the list of unreachable nodes it warns about. */
module DialogGraph {
  import opened Strings
  import opened JsonValue

  // ---------------------------------------------------------------------------
  // Reading fields of a raw node

  /** v is a dict whose `key` holds a string. */
  predicate StrAt(v: Json, key: string)
  {
    v.JDict? && key in v.fields && v.fields[key].JStr?
  }

  /** v is a dict whose `key` holds a list. */
  predicate ListAt(v: Json, key: string)
  {
    v.JDict? && key in v.fields && v.fields[key].JList?
  }

  /** The string at v[key], or "" when there is none. */
  function StrOr(v: Json, key: string): string
  {
    if StrAt(v, key) then v.fields[key].s else ""
  }

  /** The list at v[key], or [] when there is none. */
  function ItemsAt(v: Json, key: string): seq<Json>
  {
    if ListAt(v, key) then v.fields[key].items else []
  }

  function IdOf(n: Json): string { StrOr(n, "id") }

  function TypeOf(n: Json): string { StrOr(n, "type") }

  function LabelOf(n: Json): string { StrOr(n, "label") }

  /** `n["next"]` when `"next" in n and isinstance(n["next"], str)`. */
  function NextOf(n: Json): Option<string>
  {
    if StrAt(n, "next") then Some(n.fields["next"].s) else None
  }

  /** `item["next"]` of every item, in list order. */
  function NextsOf(items: seq<Json>): (r: seq<string>)
    ensures |r| == |items|
    ensures forall k :: 0 <= k < |items| ==> r[k] == StrOr(items[k], "next")
  {
    if items == [] then [] else [StrOr(items[0], "next")] + NextsOf(items[1..])
  }

  /** The `next` of every choice of a choice node. */
  function ChoiceNexts(n: Json): seq<string>
  {
    if TypeOf(n) == "choice" then NextsOf(ItemsAt(n, "choices")) else []
  }

  /** The `next` of every branch of an if node. */
  function BranchNexts(n: Json): seq<string>
  {
    if TypeOf(n) == "if" then NextsOf(ItemsAt(n, "branches")) else []
  }

  /** The node ids of a node list, in list order. */
  function Ids(nodes: seq<Json>): (r: seq<string>)
    ensures |r| == |nodes|
    ensures forall k :: 0 <= k < |nodes| ==> r[k] == IdOf(nodes[k])
  {
    if nodes == [] then [] else [IdOf(nodes[0])] + Ids(nodes[1..])
  }

  // ---------------------------------------------------------------------------
  // Edges

  function OptionToSeq(o: Option<string>): (r: seq<string>)
    ensures o.None? ==> r == []
    ensures o.Some? ==> r == [o.value]
  {
    if o.Some? then [o.value] else []
  }

  /** What the search hands to `add_edge` for a node, in push order: the
      node's own `next`, then each choice's, then each branch's. */
  function EdgeTargets(n: Json): seq<string>
  {
    OptionToSeq(NextOf(n)) + ChoiceNexts(n) + BranchNexts(n)
  }

  /** `add_edge` keeps a target only when it is non-empty and names a node. */
  function Keep(targets: seq<string>, g: map<string, Json>): (r: seq<string>)
    ensures forall t :: t in r <==> t in targets && t != "" && t in g
  {
    if targets == [] then []
    else
      var rest := Keep(targets[1..], g);
      assert forall t :: t in targets <==> t == targets[0] || t in targets[1..];
      if targets[0] != "" && targets[0] in g then [targets[0]] + rest else rest
  }

  /** The nodes the search pushes after visiting n. */
  function Successors(n: Json, g: map<string, Json>): (r: seq<string>)
    ensures forall t :: t in r ==> t in g && t != ""
    ensures forall t :: t in r <==> t in EdgeTargets(n) && t != "" && t in g
  {
    Keep(EdgeTargets(n), g)
  }

  // ---------------------------------------------------------------------------
  // Reachability, defined by paths

  /** The search pushes b when it visits a. */
  predicate Edge(g: map<string, Json>, a: string, b: string)
  {
    a in g && b in Successors(g[a], g)
  }

  ghost predicate IsPath(p: seq<string>, g: map<string, Json>)
  {
    && |p| >= 1
    && (forall k :: 0 <= k < |p| ==> p[k] in g)
    && (forall k :: 0 <= k < |p| - 1 ==> Edge(g, p[k], p[k + 1]))
  }

  ghost predicate Reachable(g: map<string, Json>, a: string, b: string)
  {
    exists p :: IsPath(p, g) && p[0] == a && p[|p| - 1] == b
  }

  /** The node ids reachable from entry along next/choice/branch edges. */
  ghost function ReachableSet(entry: string, g: map<string, Json>): (r: set<string>)
    ensures r <= g.Keys
  {
    set b | b in g.Keys && Reachable(g, entry, b)
  }

  /** Every successor of a member of R is in R. */
  ghost predicate Closed(r: set<string>, g: map<string, Json>)
  {
    forall v, w :: v in r && Edge(g, v, w) ==> w in r
  }

  lemma ReachableSelf(g: map<string, Json>, a: string)
    requires a in g
    ensures Reachable(g, a, a)
  {
    assert IsPath([a], g);
  }

  lemma PathExtend(p: seq<string>, g: map<string, Json>, c: string)
    requires IsPath(p, g) && Edge(g, p[|p| - 1], c)
    ensures IsPath(p + [c], g)
  {
    var q := p + [c];
    forall k | 0 <= k < |q| ensures q[k] in g {
      if k < |p| { assert q[k] == p[k]; }
    }
    forall k | 0 <= k < |q| - 1 ensures Edge(g, q[k], q[k + 1]) {
      assert q[k] == p[k];
      if k < |p| - 1 { assert q[k + 1] == p[k + 1]; }
    }
  }

  lemma ReachableStep(g: map<string, Json>, a: string, b: string, c: string)
    requires Reachable(g, a, b) && Edge(g, b, c)
    ensures Reachable(g, a, c)
  {
    var p :| IsPath(p, g) && p[0] == a && p[|p| - 1] == b;
    PathExtend(p, g, c);
    var q := p + [c];
    assert q[0] == a && q[|q| - 1] == c;
  }

  lemma {:induction false} PathStaysInClosed(p: seq<string>, g: map<string, Json>, r: set<string>)
    requires IsPath(p, g) && p[0] in r && Closed(r, g)
    ensures p[|p| - 1] in r
    decreases |p|
  {
    if |p| > 1 {
      var q := p[..|p| - 1];
      assert IsPath(q, g);
      PathStaysInClosed(q, g, r);
      assert Edge(g, p[|p| - 2], p[|p| - 1]);
    }
  }

  /** The reachable set is the least closed set that holds the entry. */
  lemma ReachableSetLeast(entry: string, g: map<string, Json>, r: set<string>)
    requires entry in g
    ensures entry in ReachableSet(entry, g)
    ensures Closed(ReachableSet(entry, g), g)
    ensures entry in r && Closed(r, g) ==> ReachableSet(entry, g) <= r
  {
    ReachableSelf(g, entry);
    forall v, w | v in ReachableSet(entry, g) && Edge(g, v, w)
      ensures w in ReachableSet(entry, g)
    {
      ReachableStep(g, entry, v, w);
    }
    if entry in r && Closed(r, g) {
      forall b | b in ReachableSet(entry, g) ensures b in r {
        var p :| IsPath(p, g) && p[0] == entry && p[|p| - 1] == b;
        PathStaysInClosed(p, g, r);
      }
    }
  }

  /** What holds between two steps of the search: everything visited or on
      the stack is reachable, the entry has been seen, and every successor of
      a visited node is visited or still on the stack. */
  ghost predicate SearchInv(entry: string, g: map<string, Json>, reachable: set<string>, stack: seq<string>)
  {
    && reachable <= g.Keys
    && StackReachable(entry, g, stack)
    && (forall v :: v in reachable ==> Reachable(g, entry, v))
    && (entry in reachable || entry in stack)
    && (forall v, w :: v in reachable && Edge(g, v, w) ==> w in reachable || w in stack)
  }

  /** Every node on the stack is a node reachable from the entry. */
  ghost predicate StackReachable(entry: string, g: map<string, Json>, stack: seq<string>)
  {
    forall k :: 0 <= k < |stack| ==> stack[k] in g && Reachable(g, entry, stack[k])
  }

  lemma SkipStep(entry: string, g: map<string, Json>, reachable: set<string>, stack: seq<string>, cur: string)
    requires SearchInv(entry, g, reachable, stack + [cur]) && cur in reachable
    ensures SearchInv(entry, g, reachable, stack)
  {
    var before := stack + [cur];
    assert forall x :: x in before <==> x in stack || x == cur;
    forall k | 0 <= k < |stack| ensures stack[k] in g && Reachable(g, entry, stack[k]) {
      assert stack[k] == before[k];
    }
  }

  lemma VisitStep(entry: string, g: map<string, Json>, reachable: set<string>, stack: seq<string>, cur: string)
    requires SearchInv(entry, g, reachable, stack + [cur]) && cur in g && cur !in reachable
    ensures SearchInv(entry, g, reachable + {cur}, stack + Successors(g[cur], g))
  {
    VisitStack(entry, g, stack, cur);
    VisitEdges(g, reachable, stack, cur);
    assert forall x :: x in stack + [cur] <==> x in stack || x == cur;
  }

  /** Popping a reachable node and pushing its successors keeps the stack
      reachable. */
  lemma VisitStack(entry: string, g: map<string, Json>, stack: seq<string>, cur: string)
    requires StackReachable(entry, g, stack + [cur])
    ensures cur in g && Reachable(g, entry, cur)
    ensures StackReachable(entry, g, stack + Successors(g[cur], g))
  {
    var before := stack + [cur];
    assert before[|stack|] == cur;
    var next := Successors(g[cur], g);
    var after := stack + next;
    forall k | 0 <= k < |after| ensures after[k] in g && Reachable(g, entry, after[k]) {
      if k < |stack| {
        assert after[k] == before[k];
      } else {
        assert after[k] == next[k - |stack|];
        ReachableStep(g, entry, cur, after[k]);
      }
    }
  }

  /** Marking the popped node visited and pushing its successors keeps every
      edge out of a visited node covered. */
  lemma VisitEdges(g: map<string, Json>, reachable: set<string>, stack: seq<string>, cur: string)
    requires cur in g
    requires forall v, w :: v in reachable && Edge(g, v, w) ==> w in reachable || w in stack + [cur]
    ensures forall v, w :: v in reachable + {cur} && Edge(g, v, w) ==>
              w in reachable + {cur} || w in stack + Successors(g[cur], g)
  {
    forall v, w | v in reachable + {cur} && Edge(g, v, w)
      ensures w in reachable + {cur} || w in stack + Successors(g[cur], g)
    {
      if v != cur {
        assert w in stack + [cur] ==> w in stack || w == cur;
      }
    }
  }

  /** The depth-first search of the validator: a stack seeded with the entry
      node, popped from the end; a popped node already visited is skipped,
      otherwise it is marked and its successors are pushed. */
  method Reach(entry: string, g: map<string, Json>) returns (reachable: set<string>)
    requires entry in g
    ensures reachable == ReachableSet(entry, g)
  {
    reachable := {};
    var stack := [entry];
    ReachableSelf(g, entry);
    while stack != []
      invariant SearchInv(entry, g, reachable, stack)
      decreases |g.Keys - reachable|, |stack|
    {
      ghost var before := stack;
      var cur := stack[|stack| - 1];
      stack := stack[..|stack| - 1];
      assert stack + [cur] == before;
      assert cur == before[|before| - 1];
      if cur in reachable {
        SkipStep(entry, g, reachable, stack, cur);
        continue;
      }
      VisitStep(entry, g, reachable, stack, cur);
      assert g.Keys - (reachable + {cur}) < g.Keys - reachable;
      reachable := reachable + {cur};
      stack := stack + Successors(g[cur], g);
    }
    ReachableSetLeast(entry, g, reachable);
  }

  // ---------------------------------------------------------------------------
  // The unreachable-node warning

  predicate Distinct(s: seq<string>)
  {
    forall j, k :: 0 <= j < k < |s| ==> s[j] != s[k]
  }

  /** The elements of order that are not in reached, in order. */
  function Unreached(order: seq<string>, reached: set<string>): (r: seq<string>)
    ensures forall t :: t in r <==> t in order && t !in reached
    ensures Distinct(order) ==> Distinct(r)
  {
    if order == [] then []
    else
      var rest := Unreached(order[1..], reached);
      assert forall t :: t in order <==> t == order[0] || t in order[1..];
      if order[0] !in reached then [order[0]] + rest else rest
  }

  /** `sorted(set(node_map.keys()) - reachable)`, with the keys given in the
      order the nodes were listed. */
  function Dangling(order: seq<string>, reached: set<string>): seq<string>
  {
    Sort(Unreached(order, reached))
  }

  lemma {:induction false} DistinctMultiset(s: seq<string>, t: seq<string>)
    requires Distinct(s) && multiset(s) == multiset(t)
    ensures Distinct(t)
  {
    forall j, k | 0 <= j < k < |t| ensures t[j] != t[k] {
      if t[j] == t[k] {
        assert multiset(t)[t[j]] >= 2 by {
          assert t == t[..j] + [t[j]] + t[j + 1..k] + [t[k]] + t[k + 1..];
        }
        var i :| 0 <= i < |s| && s[i] == t[j];
        DistinctCount(s, i);
        assert false;
      }
    }
  }

  lemma {:induction false} DistinctCount(s: seq<string>, i: nat)
    requires Distinct(s) && i < |s|
    ensures multiset(s)[s[i]] == 1
    decreases |s|
  {
    assert s == [s[0]] + s[1..];
    if i == 0 {
      assert s[0] !in s[1..];
    } else {
      assert Distinct(s[1..]);
      DistinctCount(s[1..], i - 1);
    }
  }

  /** The warning lists every unreached node exactly once, in code-point
      order, and nothing else. */
  lemma DanglingExact(order: seq<string>, reached: set<string>)
    requires Distinct(order)
    ensures IsSorted(Dangling(order, reached)) && Distinct(Dangling(order, reached))
    ensures forall t :: t in Dangling(order, reached) <==> t in order && t !in reached
  {
    var u := Unreached(order, reached);
    var d := Sort(u);
    DistinctMultiset(u, d);
    forall t ensures t in d <==> t in u {
      assert t in d <==> t in multiset(d);
    }
  }

  function DanglingWarning(tctx: string, dangling: seq<string>): string
  {
    tctx + ": unreachable nodes detected: " + Join(dangling, ", ")
  }
}
