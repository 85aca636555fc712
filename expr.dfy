/** The expression allow-list of the dialog conditions: a stand-in for the
    Python AST subset, the `_Validator` visitor as the source writes it, the
    visitor as its whitelists intend it, the allowed name set, and the
    request `eval_expr` hands to Python's `eval`. */
module ExprAllowList {
  import opened Strings
  import JsonValue

  // ---------------------------------------------------------------------------
  // The AST

  datatype BoolOperator = And | Or

  datatype BinOperator = Add | Sub | Mult | Div | FloorDiv | Mod | Pow | LShift | RShift | BitOr | BitXor | BitAnd | MatMult

  datatype UnaryOperator = UAdd | USub | Not | Invert

  datatype CmpOperator = Eq | NotEq | Lt | LtE | Gt | GtE | Is | IsNot | In | NotIn

  datatype Const = CNone | CBool(b: bool) | CInt(i: int) | CFloat(f: real) | CStr(s: string)

  /** The expression nodes of `ast.parse(expr, mode="eval").body`. Every node
      class the visitor does not name (Call, Subscript, ListComp, Lambda,
      IfExp, ...) is `Other`, with its class name; its children do not matter,
      because the visitor rejects it before looking at them. */
  datatype Expr =
    | BoolOp(bop: BoolOperator, values: seq<Expr>)
    | BinOp(left: Expr, op: BinOperator, right: Expr)
    | UnaryOp(uop: UnaryOperator, operand: Expr)
    | Compare(first: Expr, ops: seq<CmpOperator>, comparators: seq<Expr>)
    | Name(id: string)
    | Constant(value: Const)
    | Attribute(base: Expr, attr: string)
    | Other(kind: string)

  /** `type(op).__name__` */
  function BoolOperatorName(op: BoolOperator): string
  {
    match op
    case And => "And"
    case Or => "Or"
  }

  function BinOperatorName(op: BinOperator): string
  {
    match op
    case Add => "Add"
    case Sub => "Sub"
    case Mult => "Mult"
    case Div => "Div"
    case FloorDiv => "FloorDiv"
    case Mod => "Mod"
    case Pow => "Pow"
    case LShift => "LShift"
    case RShift => "RShift"
    case BitOr => "BitOr"
    case BitXor => "BitXor"
    case BitAnd => "BitAnd"
    case MatMult => "MatMult"
  }

  function UnaryOperatorName(op: UnaryOperator): string
  {
    match op
    case UAdd => "UAdd"
    case USub => "USub"
    case Not => "Not"
    case Invert => "Invert"
  }

  function CmpOperatorName(op: CmpOperator): string
  {
    match op
    case Eq => "Eq"
    case NotEq => "NotEq"
    case Lt => "Lt"
    case LtE => "LtE"
    case Gt => "Gt"
    case GtE => "GtE"
    case Is => "Is"
    case IsNot => "IsNot"
    case In => "In"
    case NotIn => "NotIn"
  }

  // ---------------------------------------------------------------------------
  // The whitelists

  /** `_ALLOWED_BOOL_OPS`: both boolean operators Python has. */
  predicate BoolOpAllowed(op: BoolOperator)
  {
    op in {And, Or}
  }

  /** `_ALLOWED_BIN_OPS`: + - * / // % */
  predicate BinOpAllowed(op: BinOperator)
  {
    op in {Add, Sub, Mult, Div, FloorDiv, Mod}
  }

  /** `_ALLOWED_UNARY_OPS`: unary + - and `not` */
  predicate UnaryOpAllowed(op: UnaryOperator)
  {
    op in {UAdd, USub, Not}
  }

  /** `_ALLOWED_COMPARE_OPS`: == != < <= > >= */
  predicate CmpOpAllowed(op: CmpOperator)
  {
    op in {Eq, NotEq, Lt, LtE, Gt, GtE}
  }

  /** What a visit yields: nothing, or the `ValueError` it raises. */
  datatype Check = Accept | Reject(message: string)

  function DisallowedNode(kind: string): string
  {
    "Disallowed expression: " + kind
  }

  /** The first operator of ops, from i on, that is not whitelisted. */
  function CmpOpsCheck(ops: seq<CmpOperator>, i: nat): (r: Check)
    requires i <= |ops|
    ensures r.Accept? <==> forall k :: i <= k < |ops| ==> CmpOpAllowed(ops[k])
    decreases |ops| - i
  {
    if i == |ops| then Accept
    else if !CmpOpAllowed(ops[i]) then Reject("Disallowed comparison operator: " + CmpOperatorName(ops[i]))
    else CmpOpsCheck(ops, i + 1)
  }

  // ---------------------------------------------------------------------------
  // Attribute chains

  /** The loop of `visit_Attribute`, one link at a time: a segment starting
      with "_" is reported before the root is looked at. */
  function ChainCheck(e: Expr): Check
  {
    if e.Attribute? then
      if StartsWith(e.attr, "_") then Reject("Access to private attributes is not allowed")
      else ChainCheck(e.base)
    else if e.Name? && e.id == "persistent" then Accept
    else Reject("Only 'persistent.*' attribute access is permitted")
  }

  /** The attribute names along the chain, outermost first. */
  function Segments(e: Expr): seq<string>
  {
    if e.Attribute? then [e.attr] + Segments(e.base) else []
  }

  /** The first node of the chain that is not an attribute access. */
  function ChainRoot(e: Expr): Expr
  {
    if e.Attribute? then ChainRoot(e.base) else e
  }

  lemma {:induction false} ChainCheckMeans(e: Expr)
    ensures ChainCheck(e).Accept? <==>
              (forall s :: s in Segments(e) ==> !StartsWith(s, "_")) && ChainRoot(e) == Name("persistent")
  {
    if e.Attribute? {
      ChainCheckMeans(e.base);
      assert forall s :: s in Segments(e) <==> s == e.attr || s in Segments(e.base);
    }
  }

  /** `visit_Attribute`'s `while` loop over the chain. */
  method CheckChain(node: Expr) returns (r: Check)
    ensures r == ChainCheck(node)
  {
    var cur := node;
    while cur.Attribute?
      invariant ChainCheck(cur) == ChainCheck(node)
      decreases cur
    {
      if StartsWith(cur.attr, "_") {
        return Reject("Access to private attributes is not allowed");
      }
      cur := cur.base;
    }
    if !(cur.Name? && cur.id == "persistent") {
      return Reject("Only 'persistent.*' attribute access is permitted");
    }
    return Accept;
  }

  // ---------------------------------------------------------------------------
  // The visitor as written

  /** `_Validator(names).visit(e)` as the source behaves. Each `visit_*`
      checks its own operator and then calls `generic_visit`, which walks
      every field that is an AST node. The operator fields (`Add()`, `And()`,
      `Eq()`, ...) are AST nodes too, and no operator class is in
      `_ALLOWED_NODES`, so the walk rejects every boolean, binary, unary and
      comparison operation once its earlier fields have passed. */
  function VisitAsWritten(e: Expr, names: set<string>): Check
    decreases e, 1
  {
    match e
    case BoolOp(op, values) =>
      if !BoolOpAllowed(op) then Reject("Disallowed boolean operator: " + BoolOperatorName(op))
      else Reject(DisallowedNode(BoolOperatorName(op)))
    case BinOp(left, op, right) =>
      if !BinOpAllowed(op) then Reject("Disallowed binary operator: " + BinOperatorName(op))
      else
        var l := VisitAsWritten(left, names);
        if l.Reject? then l else Reject(DisallowedNode(BinOperatorName(op)))
    case UnaryOp(op, operand) =>
      if !UnaryOpAllowed(op) then Reject("Disallowed unary operator: " + UnaryOperatorName(op))
      else Reject(DisallowedNode(UnaryOperatorName(op)))
    case Compare(first, ops, comparators) =>
      var o := CmpOpsCheck(ops, 0);
      if o.Reject? then o
      else
        var l := VisitAsWritten(first, names);
        if l.Reject? then l
        else if ops != [] then Reject(DisallowedNode(CmpOperatorName(ops[0])))
        else VisitAllAsWritten(comparators, names)
    case Name(id) => if id in names then Accept else Reject("Unknown identifier: " + id)
    case Constant(_) => Accept
    case Attribute(base, _) =>
      var c := ChainCheck(e);
      if c.Reject? then c else VisitAsWritten(base, names)
    case Other(kind) => Reject(DisallowedNode(kind))
  }

  function VisitAllAsWritten(es: seq<Expr>, names: set<string>): Check
    decreases es, 0
  {
    if es == [] then Accept
    else
      var c := VisitAsWritten(es[0], names);
      if c.Reject? then c else VisitAllAsWritten(es[1..], names)
  }

  /** An expression with no boolean, binary, unary or comparison operation
      (an empty comparison list aside). */
  predicate OperatorFree(e: Expr)
  {
    match e
    case BoolOp(_, _) => false
    case BinOp(_, _, _) => false
    case UnaryOp(_, _) => false
    case Compare(first, ops, comparators) =>
      ops == [] && OperatorFree(first) && forall k :: 0 <= k < |comparators| ==> OperatorFree(comparators[k])
    case Attribute(base, _) => OperatorFree(base)
    case _ => true
  }

  /** The visitor as written accepts an expression exactly when the intended
      allow-list accepts it and it uses no operator at all. */
  lemma {:induction false} VisitAsWrittenMeans(e: Expr, names: set<string>)
    ensures VisitAsWritten(e, names).Accept? <==> Allowed(e, names) && OperatorFree(e)
    decreases e, 1
  {
    match e
    case BoolOp(_, _) =>
    case BinOp(left, _, _) =>
    case UnaryOp(_, _) =>
    case Compare(first, ops, comparators) =>
      CmpOpsCheckAll(ops);
      VisitAsWrittenMeans(first, names);
      VisitAllAsWrittenMeans(comparators, names);
    case Name(_) =>
    case Constant(_) =>
    case Attribute(base, _) =>
      ChainCheckMeans(e);
      VisitAsWrittenMeans(base, names);
    case Other(_) =>
  }

  lemma {:induction false} VisitAllAsWrittenMeans(es: seq<Expr>, names: set<string>)
    ensures VisitAllAsWritten(es, names).Accept? <==>
              forall k :: 0 <= k < |es| ==> Allowed(es[k], names) && OperatorFree(es[k])
    decreases es, 0
  {
    if es != [] {
      VisitAsWrittenMeans(es[0], names);
      VisitAllAsWrittenMeans(es[1..], names);
      assert forall k :: 1 <= k < |es| ==> es[k] == es[1..][k - 1];
    }
  }

  lemma CmpOpsCheckAll(ops: seq<CmpOperator>)
    ensures CmpOpsCheck(ops, 0).Accept? <==> forall k :: 0 <= k < |ops| ==> CmpOpAllowed(ops[k])
  {
  }

  /** `a + 2` with `a` known: the documented example is rejected by the
      visitor as written and accepted by the intended one. */
  lemma AsWrittenRejectsAddition()
    ensures VisitAsWritten(BinOp(Name("a"), Add, Constant(CInt(2))), {"a"}) == Reject("Disallowed expression: Add")
    ensures Visit(BinOp(Name("a"), Add, Constant(CInt(2))), {"a"}) == Accept
  {
  }

  // ---------------------------------------------------------------------------
  // The visitor as intended

  /** `_Validator(names).visit(e)` with `generic_visit` walking the
      expression children only, as the whitelists intend: each `visit_*`
      checks its operators, then the children are visited in field order. */
  function Visit(e: Expr, names: set<string>): Check
    decreases e, 1
  {
    match e
    case BoolOp(op, values) =>
      if !BoolOpAllowed(op) then Reject("Disallowed boolean operator: " + BoolOperatorName(op))
      else VisitAll(values, names)
    case BinOp(left, op, right) =>
      if !BinOpAllowed(op) then Reject("Disallowed binary operator: " + BinOperatorName(op))
      else
        var l := Visit(left, names);
        if l.Reject? then l else Visit(right, names)
    case UnaryOp(op, operand) =>
      if !UnaryOpAllowed(op) then Reject("Disallowed unary operator: " + UnaryOperatorName(op))
      else Visit(operand, names)
    case Compare(first, ops, comparators) =>
      var o := CmpOpsCheck(ops, 0);
      if o.Reject? then o
      else
        var l := Visit(first, names);
        if l.Reject? then l else VisitAll(comparators, names)
    case Name(id) => if id in names then Accept else Reject("Unknown identifier: " + id)
    case Constant(_) => Accept
    case Attribute(base, _) =>
      var c := ChainCheck(e);
      if c.Reject? then c else Visit(base, names)
    case Other(kind) => Reject(DisallowedNode(kind))
  }

  function VisitAll(es: seq<Expr>, names: set<string>): Check
    decreases es, 0
  {
    if es == [] then Accept
    else
      var c := Visit(es[0], names);
      if c.Reject? then c else VisitAll(es[1..], names)
  }

  /** The allow-list, stated per node: whitelisted operators, known names,
      `persistent.*` chains with no private segment, no other node kind. */
  predicate Allowed(e: Expr, names: set<string>)
  {
    match e
    case BoolOp(op, values) => BoolOpAllowed(op) && forall k :: 0 <= k < |values| ==> Allowed(values[k], names)
    case BinOp(left, op, right) => BinOpAllowed(op) && Allowed(left, names) && Allowed(right, names)
    case UnaryOp(op, operand) => UnaryOpAllowed(op) && Allowed(operand, names)
    case Compare(first, ops, comparators) =>
      && (forall k :: 0 <= k < |ops| ==> CmpOpAllowed(ops[k]))
      && Allowed(first, names)
      && forall k :: 0 <= k < |comparators| ==> Allowed(comparators[k], names)
    case Name(id) => id in names
    case Constant(_) => true
    case Attribute(base, _) =>
      && (forall s :: s in Segments(e) ==> !StartsWith(s, "_"))
      && ChainRoot(e) == Name("persistent")
      && Allowed(base, names)
    case Other(_) => false
  }

  /** The intended visitor accepts exactly the allowed expressions. */
  lemma {:induction false} VisitMeans(e: Expr, names: set<string>)
    ensures Visit(e, names).Accept? <==> Allowed(e, names)
    decreases e, 1
  {
    match e
    case BoolOp(_, values) =>
      VisitAllMeans(values, names);
    case BinOp(left, _, right) =>
      VisitMeans(left, names);
      VisitMeans(right, names);
    case UnaryOp(_, operand) =>
      VisitMeans(operand, names);
    case Compare(first, ops, comparators) =>
      CmpOpsCheckAll(ops);
      VisitMeans(first, names);
      VisitAllMeans(comparators, names);
    case Name(_) =>
    case Constant(_) =>
    case Attribute(base, _) =>
      ChainCheckMeans(e);
      VisitMeans(base, names);
    case Other(_) =>
  }

  lemma {:induction false} VisitAllMeans(es: seq<Expr>, names: set<string>)
    ensures VisitAll(es, names).Accept? <==> forall k :: 0 <= k < |es| ==> Allowed(es[k], names)
    decreases es, 0
  {
    if es != [] {
      VisitMeans(es[0], names);
      VisitAllMeans(es[1..], names);
      assert forall k :: 1 <= k < |es| ==> es[k] == es[1..][k - 1];
    }
  }

  // ---------------------------------------------------------------------------
  // What an allowed expression contains

  /** Every name the expression reads, attribute roots included. */
  function NamesIn(e: Expr): set<string>
  {
    match e
    case BoolOp(_, values) => set k, x | 0 <= k < |values| && x in NamesIn(values[k]) :: x
    case BinOp(left, _, right) => NamesIn(left) + NamesIn(right)
    case UnaryOp(_, operand) => NamesIn(operand)
    case Compare(first, _, comparators) =>
      NamesIn(first) + set k, x | 0 <= k < |comparators| && x in NamesIn(comparators[k]) :: x
    case Name(id) => {id}
    case Constant(_) => {}
    case Attribute(base, _) => NamesIn(base)
    case Other(_) => {}
  }

  /** Every attribute name the expression looks up. */
  function AttrsIn(e: Expr): set<string>
  {
    match e
    case BoolOp(_, values) => set k, x | 0 <= k < |values| && x in AttrsIn(values[k]) :: x
    case BinOp(left, _, right) => AttrsIn(left) + AttrsIn(right)
    case UnaryOp(_, operand) => AttrsIn(operand)
    case Compare(first, _, comparators) =>
      AttrsIn(first) + set k, x | 0 <= k < |comparators| && x in AttrsIn(comparators[k]) :: x
    case Name(_) => {}
    case Constant(_) => {}
    case Attribute(base, attr) => {attr} + AttrsIn(base)
    case Other(_) => {}
  }

  /** An allowed expression reads only known names and no private
      attribute; an `Other` node anywhere (a call, a subscript, a
      comprehension) makes the expression disallowed. */
  lemma {:induction false} AllowedContents(e: Expr, names: set<string>)
    requires Allowed(e, names)
    ensures NamesIn(e) <= names
    ensures forall a :: a in AttrsIn(e) ==> !StartsWith(a, "_")
    ensures !e.Other?
    decreases e
  {
    match e
    case BoolOp(_, values) =>
      forall k | 0 <= k < |values| { AllowedContents(values[k], names); }
    case BinOp(left, _, right) =>
      AllowedContents(left, names);
      AllowedContents(right, names);
    case UnaryOp(_, operand) =>
      AllowedContents(operand, names);
    case Compare(first, _, comparators) =>
      AllowedContents(first, names);
      forall k | 0 <= k < |comparators| { AllowedContents(comparators[k], names); }
    case Name(_) =>
    case Constant(_) =>
    case Attribute(base, _) =>
      AllowedContents(base, names);
    case Other(_) =>
  }

  /** Nodes the visitor does not know are rejected wherever they occur. */
  predicate ContainsOther(e: Expr)
  {
    match e
    case BoolOp(_, values) => exists k :: 0 <= k < |values| && ContainsOther(values[k])
    case BinOp(left, _, right) => ContainsOther(left) || ContainsOther(right)
    case UnaryOp(_, operand) => ContainsOther(operand)
    case Compare(first, _, comparators) =>
      ContainsOther(first) || exists k :: 0 <= k < |comparators| && ContainsOther(comparators[k])
    case Attribute(base, _) => ContainsOther(base)
    case Other(_) => true
    case _ => false
  }

  lemma {:induction false} OtherRejected(e: Expr, names: set<string>)
    requires ContainsOther(e)
    ensures Visit(e, names).Reject?
    decreases e
  {
    VisitMeans(e, names);
    OtherNotAllowed(e, names);
  }

  lemma {:induction false} OtherNotAllowed(e: Expr, names: set<string>)
    requires ContainsOther(e)
    ensures !Allowed(e, names)
    decreases e
  {
    match e
    case BoolOp(_, values) =>
      var k :| 0 <= k < |values| && ContainsOther(values[k]);
      OtherNotAllowed(values[k], names);
    case BinOp(left, _, right) =>
      if ContainsOther(left) { OtherNotAllowed(left, names); } else { OtherNotAllowed(right, names); }
    case UnaryOp(_, operand) =>
      OtherNotAllowed(operand, names);
    case Compare(first, _, comparators) =>
      if ContainsOther(first) {
        OtherNotAllowed(first, names);
      } else {
        var k :| 0 <= k < |comparators| && ContainsOther(comparators[k]);
        OtherNotAllowed(comparators[k], names);
      }
    case Attribute(base, _) =>
      OtherNotAllowed(base, names);
    case Other(_) =>
  }

  /** More known names never turn an accepted expression into a rejected one. */
  lemma {:induction false} AllowedMonotonic(e: Expr, names: set<string>, more: set<string>)
    requires Allowed(e, names) && names <= more
    ensures Allowed(e, more)
    decreases e
  {
    match e
    case BoolOp(_, values) =>
      forall k | 0 <= k < |values| ensures Allowed(values[k], more) { AllowedMonotonic(values[k], names, more); }
    case BinOp(left, _, right) =>
      AllowedMonotonic(left, names, more);
      AllowedMonotonic(right, names, more);
    case UnaryOp(_, operand) =>
      AllowedMonotonic(operand, names, more);
    case Compare(first, _, comparators) =>
      AllowedMonotonic(first, names, more);
      forall k | 0 <= k < |comparators| ensures Allowed(comparators[k], more) {
        AllowedMonotonic(comparators[k], names, more);
      }
    case Name(_) =>
    case Constant(_) =>
    case Attribute(base, _) =>
      AllowedMonotonic(base, names, more);
    case Other(_) =>
  }

  /** An unknown identifier is reported with its name. */
  lemma UnknownIdentifier(x: string, names: set<string>)
    requires x !in names
    ensures Visit(Name(x), names) == Reject("Unknown identifier: " + x)
    ensures VisitAsWritten(Name(x), names) == Reject("Unknown identifier: " + x)
  {
  }

  /** `persistent.x` needs `persistent` itself among the allowed names. */
  lemma PersistentNeedsName(attr: string, names: set<string>)
    requires !StartsWith(attr, "_")
    ensures Visit(Attribute(Name("persistent"), attr), names).Accept? <==> "persistent" in names
  {
    var e := Attribute(Name("persistent"), attr);
    assert ChainCheck(e.base) == Accept;
    assert ChainCheck(e) == Accept;
  }

  // ---------------------------------------------------------------------------
  // eval_expr

  /** The names `eval_expr` allows: the keys of `local_vars`, "default" when
      a default is given and "persistent" when a persistent object is. */
  function NameSet(localNames: set<string>, hasDefault: bool, hasPersistent: bool): (r: set<string>)
    ensures forall x :: x in r <==> x in localNames || (x == "default" && hasDefault) || (x == "persistent" && hasPersistent)
  {
    localNames + (if hasDefault then {"default"} else {}) + (if hasPersistent then {"persistent"} else {})
  }

  /** A global of the evaluation environment: the emptied builtins, or a
      given value. */
  datatype Global<V> = NoBuiltins | Given(value: V)

  /** What `eval_expr` does: reject the expression, or evaluate the
      validated tree with these globals and locals (evaluation itself is
      Python's `eval`). */
  datatype EvalRequest<V> =
    | Rejected(message: string)
    | Evaluate(tree: Expr, globals: map<string, Global<V>>, locals: map<string, V>)

  /** `globals_env` */
  function GlobalsOf<V>(default: JsonValue.Option<V>, persistent: JsonValue.Option<V>): (r: map<string, Global<V>>)
    ensures r.Keys == NameSet({"__builtins__"}, default.Some?, persistent.Some?)
    ensures r["__builtins__"] == NoBuiltins
    ensures default.Some? ==> r["default"] == Given(default.value)
    ensures persistent.Some? ==> r["persistent"] == Given(persistent.value)
  {
    var g := map["__builtins__" := NoBuiltins];
    var g := if default.Some? then g["default" := Given(default.value)] else g;
    if persistent.Some? then g["persistent" := Given(persistent.value)] else g
  }

  /** `eval_expr(expr, local_vars, default=..., persistent=...)`; `parsed` is
      the result of `ast.parse`, None on a syntax error. */
  method EvalExpr<V>(parsed: JsonValue.Option<Expr>, localVars: map<string, V>, default: JsonValue.Option<V>, persistent: JsonValue.Option<V>)
    returns (r: EvalRequest<V>)
    ensures var names := NameSet(localVars.Keys, default.Some?, persistent.Some?);
            && (r.Evaluate? <==> parsed.Some? && Allowed(parsed.value, names))
            && (parsed.None? ==> r == Rejected("Invalid expression"))
            && (parsed.Some? && r.Rejected? ==> Visit(parsed.value, names) == Reject(r.message))
            && (r.Evaluate? ==> r == Evaluate(parsed.value, GlobalsOf(default, persistent), localVars))
  {
    var names := localVars.Keys;
    if default.Some? {
      names := names + {"default"};
    }
    if persistent.Some? {
      names := names + {"persistent"};
    }
    assert names == NameSet(localVars.Keys, default.Some?, persistent.Some?);
    if parsed.None? {
      return Rejected("Invalid expression");
    }
    var c := Visit(parsed.value, names);
    VisitMeans(parsed.value, names);
    if c.Reject? {
      return Rejected(c.message);
    }
    var globalsEnv: map<string, Global<V>> := map["__builtins__" := NoBuiltins];
    if default.Some? {
      globalsEnv := globalsEnv["default" := Given(default.value)];
    }
    if persistent.Some? {
      globalsEnv := globalsEnv["persistent" := Given(persistent.value)];
    }
    return Evaluate(parsed.value, globalsEnv, localVars);
  }
}
