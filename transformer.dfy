/**
 * The tree transformer (transformer.py): a bottom-up walk of the parsed RQL
 * tree that coerces literals and calls the backend's operator functions.
 * The parse tree is given as the `Expr` datatype; the operator functions
 * are an `Algebra` record over an opaque condition type `C` and a backend
 * state `S` that a call may change (the SQLAlchemy builder records joins
 * there) and that keeps its changes when a call raises.
 */
module Transformer {
  import opened Wrappers
  import opened Dataclasses
  import opened Errors

  /** A literal as the grammar's terminals hand it to `literal`. */
  datatype Token =
    | IntToken(i: int)
    | FloatToken(floatText: string)
    | DateToken(dateText: string)
    | DateTimeToken(dateTimeText: string)
    | StringToken(s: string)

  /** A value after coercion, as the operator functions receive it. */
  datatype Value =
    | Null
    | Bool(b: bool)
    | Int(i: int)
    | Float(floatText: string)
    | Date(dateText: string)
    | DateTime(dateTimeText: string)
    | Str(s: string)
    | Tuple(items: seq<Value>)

  /** The second argument of a comparison: one literal or a parenthesised tuple. */
  datatype ValueNode = Single(token: Token) | TupleNode(tokens: seq<Token>)

  datatype ComparisonOp = EqOp | NeOp | GtOp | LtOp | GteOp | LteOp | InOp | OutOp | LikeOp | IlikeOp

  datatype LogicalOp = AndOp | OrOp | NotOp

  /** An order item: the optional sign token (kept as text) and the property. */
  datatype OrderItem = OrderItem(sign: string, property: string)

  /** The parse tree of one top-level RQL expression. */
  datatype Expr =
    | Comparison(comparator: ComparisonOp, property: string, value: ValueNode)
    | Logical(connective: LogicalOp, args: seq<Expr>)
    | AnyOf(relationship: string, condition: Expr)
    | OrderBy(items: seq<OrderItem>)

  /** The state after a call and either its result or the error it raised. */
  datatype Step<S, T> = Step(state: S, result: Result<T, Error>)

  /**
   * `OperatorFunctions`: the logical functions (and, or, not) and the
   * comparison functions (one per comparison operator, selected by tag)
   * plus `any`.
   */
  datatype Algebra<!S, !C> = Algebra(
    logical: (LogicalOp, seq<C>) -> Result<C, Error>,
    comparison: (S, ComparisonOp, string, Value) -> Step<S, C>,
    any: (S, string, C) -> Step<S, C>)

  /** The Operator each comparison callback is bound to. */
  function OperatorOf(op: ComparisonOp): (r: Operator)
    ensures r != ANY
  {
    match op
    case EqOp => EQ
    case NeOp => NE
    case GtOp => GT
    case LtOp => LT
    case GteOp => GTE
    case LteOp => LTE
    case InOp => IN
    case OutOp => OUT
    case LikeOp => LIKE
    case IlikeOp => ILIKE
  }

  /** The value a terminal produces before `literal` looks at it. */
  function Plain(t: Token): Value {
    match t
    case IntToken(i) => Int(i)
    case FloatToken(x) => Float(x)
    case DateToken(x) => Date(x)
    case DateTimeToken(x) => DateTime(x)
    case StringToken(s) => Str(s)
  }

  /** The four string sentinels `literal` recognises. */
  predicate IsSentinel(t: Token) {
    t.StringToken? && (t.s == "true" || t.s == "false" || t.s == "null()" || t.s == "empty()")
  }

  /** `literal`: the four string sentinels become true, false, null and "". */
  function Literal(t: Token): (v: Value)
    ensures v != Plain(t) <==> IsSentinel(t)
    ensures v.Null? <==> t == StringToken("null()")
    ensures v.Bool? <==> t == StringToken("true") || t == StringToken("false")
    ensures v.Bool? ==> (v.b <==> t == StringToken("true"))
    ensures v == Str("") <==> t == StringToken("empty()") || t == StringToken("")
  {
    if t.StringToken? then
      if t.s == "true" then Bool(true)
      else if t.s == "false" then Bool(false)
      else if t.s == "null()" then Null
      else if t.s == "empty()" then Str("")
      else Plain(t)
    else Plain(t)
  }

  /** `null()` and `empty()` are never conflated. */
  lemma NullIsNotEmpty()
    ensures Literal(StringToken("null()")) == Null
    ensures Literal(StringToken("empty()")) == Str("")
    ensures Literal(StringToken("null()")) != Literal(StringToken("empty()"))
  {
  }

  /** `value` / `tuple`: a tuple keeps its elements, each coerced, in order. */
  function Coerce(v: ValueNode): (r: Value)
    ensures v.Single? ==> r == Literal(v.token)
    ensures v.TupleNode? ==> r.Tuple? && |r.items| == |v.tokens|
    ensures v.TupleNode? ==> forall i :: 0 <= i < |v.tokens| ==> r.items[i] == Literal(v.tokens[i])
  {
    match v
    case Single(t) => Literal(t)
    case TupleNode(ts) => Tuple(seq(|ts|, i requires 0 <= i < |ts| => Literal(ts[i])))
  }

  /** `order_list` / `order_item`: one OrderField per item, in declaration order. */
  function OrderFields(items: seq<OrderItem>): (fs: seq<OrderField>)
    ensures |fs| == |items|
    ensures forall i :: 0 <= i < |items| ==> fs[i].direction == items[i].sign && fs[i].fieldPath == items[i].property
  {
    seq(|items|, i requires 0 <= i < |items| => OrderField(items[i].sign, items[i].property))
  }

  /** Wraps a condition-producing step into a FilterExpression. */
  function Wrap<S, C>(st: Step<S, C>): Step<S, Expression<C>> {
    Step(st.state, match st.result case Ok(c) => Ok(FilterExpression(c)) case Err(e) => Err(e))
  }

  /**
   * `[argument.condition for argument in argument_list]`: fails on the first
   * argument that is an order-by expression.
   */
  function Conditions<C>(xs: seq<Expression<C>>): (r: Result<seq<C>, Error>)
    ensures r.Ok? <==> forall i :: 0 <= i < |xs| ==> xs[i].FilterExpression?
    ensures r.Ok? ==> |r.value| == |xs| && forall i :: 0 <= i < |xs| ==> r.value[i] == xs[i].condition
    ensures r.Err? ==> r.error == NotACondition
  {
    if |xs| == 0 then Ok([])
    else if xs[0].OrderByExpression? then Err(NotACondition)
    else match Conditions(xs[1..])
      case Err(e) => Err(e)
      case Ok(cs) => Ok([xs[0].condition] + cs)
  }

  /**
   * One node, children first and left to right, as lark's Transformer
   * visits it. An error stops the walk; the state reached so far is kept.
   */
  function TransformExpr<S, C>(alg: Algebra<S, C>, s: S, e: Expr): (r: Step<S, Expression<C>>)
    ensures e.OrderBy? ==> r.state == s && r.result.Ok?
    ensures r.result.Ok? ==> (r.result.value.OrderByExpression? <==> e.OrderBy?)
    decreases e, 1
  {
    match e
    case Comparison(op, p, v) =>
      Wrap(alg.comparison(s, op, p, Coerce(v)))
    case Logical(op, args) =>
      var st := TransformList(alg, s, args);
      if st.result.Err? then Step(st.state, Err(st.result.error))
      else (
        match Conditions(st.result.value)
        case Err(err) => Step(st.state, Err(err))
        case Ok(cs) => Wrap(Step(st.state, alg.logical(op, cs))))
    case AnyOf(rel, inner) =>
      var st := TransformExpr(alg, s, inner);
      if st.result.Err? then Step(st.state, Err(st.result.error))
      else if st.result.value.OrderByExpression? then Step(st.state, Err(NotACondition))
      else Wrap(alg.any(st.state, rel, st.result.value.condition))
    case OrderBy(items) =>
      Step(s, Ok(OrderByExpression(OrderFields(items))))
  }

  /** A sequence of sibling nodes, left to right. */
  function TransformList<S, C>(alg: Algebra<S, C>, s: S, es: seq<Expr>): (r: Step<S, seq<Expression<C>>>)
    ensures r.result.Ok? ==> |r.result.value| == |es|
    ensures r.result.Ok? ==> forall i :: 0 <= i < |es| ==> (r.result.value[i].OrderByExpression? <==> es[i].OrderBy?)
    decreases es, 0
  {
    if |es| == 0 then Step(s, Ok([]))
    else
      var first := TransformExpr(alg, s, es[0]);
      if first.result.Err? then Step(first.state, Err(first.result.error))
      else
        var rest := TransformList(alg, first.state, es[1..]);
        if rest.result.Err? then Step(rest.state, Err(rest.result.error))
        else Step(rest.state, Ok([first.result.value] + rest.result.value))
  }

  /**
   * `combined_expression`: the `&`-joined top-level expressions in order.
   * One output per input; an order-by stays an order-by with its fields in
   * order, and everything else becomes a filter.
   */
  lemma {:induction false} TopLevelOrderPreserved<S, C>(alg: Algebra<S, C>, s: S, es: seq<Expr>)
    requires TransformList(alg, s, es).result.Ok?
    ensures var xs := TransformList(alg, s, es).result.value;
      && |xs| == |es|
      && (forall i :: 0 <= i < |es| ==> (xs[i].OrderByExpression? <==> es[i].OrderBy?))
      && (forall i :: 0 <= i < |es| && es[i].OrderBy? ==> xs[i].fields == OrderFields(es[i].items))
    decreases es
  {
    if |es| > 0 {
      var first := TransformExpr(alg, s, es[0]);
      TopLevelOrderPreserved(alg, first.state, es[1..]);
    }
  }

  /** The tree contains no order-by where a condition is expected. */
  predicate NoOrderBy(e: Expr)
  {
    match e
    case Comparison(_, _, _) => true
    case Logical(_, args) => forall i :: 0 <= i < |args| ==> NoOrderBy(args[i])
    case AnyOf(_, inner) => NoOrderBy(inner)
    case OrderBy(_) => false
  }

  /** The conditions of the free algebra: a record of which function was called with what. */
  datatype Term =
    | Compared(op: ComparisonOp, property: string, value: Value)
    | Combined(connective: LogicalOp, children: seq<Term>)
    | Exists(relationship: string, body: Term)

  /** The calls that receive the backend state, in the order they are made. */
  datatype Call = ComparisonCall(op: ComparisonOp, property: string, value: Value) | AnyCall(relationship: string)

  /** The free algebra: every function builds a Term; the state logs the stateful calls. */
  function FreeAlgebra(): Algebra<seq<Call>, Term> {
    Algebra(
      (op, cs) => Ok(Combined(op, cs)),
      (log: seq<Call>, op, p, v) => Step(log + [ComparisonCall(op, p, v)], Ok(Compared(op, p, v))),
      (log: seq<Call>, r, c) => Step(log + [AnyCall(r)], Ok(Exists(r, c))))
  }

  /** The term a tree denotes, defined by structure alone. */
  function Denote(e: Expr): Term
    requires NoOrderBy(e)
  {
    match e
    case Comparison(op, p, v) => Compared(op, p, Coerce(v))
    case Logical(op, args) => Combined(op, seq(|args|, i requires 0 <= i < |args| => Denote(args[i])))
    case AnyOf(r, inner) => Exists(r, Denote(inner))
  }

  /** The stateful calls a tree makes, children before parents, left to right. */
  function Calls(e: Expr): seq<Call>
    decreases e, 1
  {
    match e
    case Comparison(op, p, v) => [ComparisonCall(op, p, Coerce(v))]
    case Logical(_, args) => CallsList(args)
    case AnyOf(r, inner) => Calls(inner) + [AnyCall(r)]
    case OrderBy(_) => []
  }

  function CallsList(es: seq<Expr>): seq<Call>
    decreases es, 0
  {
    if |es| == 0 then [] else Calls(es[0]) + CallsList(es[1..])
  }

  /**
   * Under the free algebra the transformer returns exactly the denoted
   * term and makes exactly the calls of `Calls`, once each, in order.
   */
  lemma {:induction false} FreeTransform(log: seq<Call>, e: Expr)
    requires NoOrderBy(e)
    ensures TransformExpr(FreeAlgebra(), log, e) == Step(log + Calls(e), Ok(FilterExpression(Denote(e))))
    decreases e, 1
  {
    match e
    case Comparison(op, p, v) =>
    case Logical(op, args) =>
      FreeTransformList(log, args);
      var ts := seq(|args|, i requires 0 <= i < |args| => Denote(args[i]));
      var xs := FreeResults(args);
      assert forall i :: 0 <= i < |xs| ==> xs[i].FilterExpression?;
      var r := Conditions(xs);
      assert r.Ok? && |r.value| == |ts|;
      assert forall i :: 0 <= i < |ts| ==> r.value[i] == ts[i];
      assert r.value == ts;
    case AnyOf(r, inner) =>
      FreeTransform(log, inner);
      assert log + Calls(inner) + [AnyCall(r)] == log + (Calls(inner) + [AnyCall(r)]);
  }

  /** The denotations of a list of expressions, each as a filter expression, in order. */
  function FreeResults(es: seq<Expr>): (r: seq<Expression<Term>>)
    requires forall i :: 0 <= i < |es| ==> NoOrderBy(es[i])
    ensures |r| == |es| && forall i :: 0 <= i < |es| ==> r[i] == FilterExpression(Denote(es[i]))
  {
    if |es| == 0 then [] else [FilterExpression(Denote(es[0]))] + FreeResults(es[1..])
  }

  lemma {:induction false} FreeTransformList(log: seq<Call>, es: seq<Expr>)
    requires forall i :: 0 <= i < |es| ==> NoOrderBy(es[i])
    ensures TransformList(FreeAlgebra(), log, es) == Step(log + CallsList(es), Ok(FreeResults(es)))
    decreases es, 0
  {
    if |es| == 0 {
      assert log + CallsList(es) == log;
    } else {
      FreeTransform(log, es[0]);
      FreeTransformList(log + Calls(es[0]), es[1..]);
      assert log + Calls(es[0]) + CallsList(es[1..]) == log + CallsList(es);
    }
  }

  /**
   * `logical_expression` calls its operator once with every child
   * condition, unwrapped and in order: `and(a,b,c)` is one ternary call,
   * never nested pairs.
   */
  lemma LogicalIsVariadic(log: seq<Call>, op: LogicalOp, args: seq<Expr>)
    requires forall i :: 0 <= i < |args| ==> NoOrderBy(args[i])
    ensures var r := TransformExpr(FreeAlgebra(), log, Logical(op, args)).result;
      && r.Ok? && r.value.FilterExpression? && r.value.condition.Combined?
      && r.value.condition.connective == op
      && |r.value.condition.children| == |args|
      && forall i :: 0 <= i < |args| ==> r.value.condition.children[i] == Denote(args[i])
  {
    FreeTransform(log, Logical(op, args));
  }

  /** `comparison` calls its operator function exactly once, with the property and the coerced value. */
  lemma ComparisonCallsOnce(log: seq<Call>, op: ComparisonOp, p: string, v: ValueNode)
    ensures TransformExpr(FreeAlgebra(), log, Comparison(op, p, v))
         == Step(log + [ComparisonCall(op, p, Coerce(v))], Ok(FilterExpression(Compared(op, p, Coerce(v)))))
  {
  }

  /** `any_expression` passes the relationship name and the unwrapped nested condition. */
  lemma AnyUnwraps(log: seq<Call>, r: string, inner: Expr)
    requires NoOrderBy(inner)
    ensures TransformExpr(FreeAlgebra(), log, AnyOf(r, inner)).result == Ok(FilterExpression(Exists(r, Denote(inner))))
  {
    FreeTransform(log, AnyOf(r, inner));
  }


  /**
   * A transform that succeeds placed no order-by where a condition is
   * expected: an order-by inside `and`/`or`/`not` or `any` always raises.
   */
  lemma {:induction false} MisplacedOrderByRaises<S, C>(alg: Algebra<S, C>, s: S, e: Expr)
    ensures TransformExpr(alg, s, e).result.Ok? ==> NoOrderBy(e) || e.OrderBy?
    decreases e, 1
  {
    match e
    case Comparison(_, _, _) =>
    case OrderBy(_) =>
    case Logical(op, args) =>
      var st := TransformList(alg, s, args);
      if TransformExpr(alg, s, e).result.Ok? {
        MisplacedOrderByList(alg, s, args);
        TopLevelOrderPreserved(alg, s, args);
      }
    case AnyOf(r, inner) =>
      MisplacedOrderByRaises(alg, s, inner);
  }

  lemma {:induction false} MisplacedOrderByList<S, C>(alg: Algebra<S, C>, s: S, es: seq<Expr>)
    requires TransformList(alg, s, es).result.Ok?
    ensures forall i :: 0 <= i < |es| ==> NoOrderBy(es[i]) || es[i].OrderBy?
    decreases es, 0
  {
    if |es| > 0 {
      var first := TransformExpr(alg, s, es[0]);
      MisplacedOrderByRaises(alg, s, es[0]);
      MisplacedOrderByList(alg, first.state, es[1..]);
      assert forall i :: 1 <= i < |es| ==> es[i] == es[1..][i - 1];
    }
  }
}
