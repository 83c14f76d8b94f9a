/**
 * The builder contract (builders/base.py): the three optional callbacks a
 * rule set installs, `apply_operator` (validate, then dispatch), and
 * `build_query`, which transforms the tree and folds the expressions onto
 * an accumulating query before applying the recorded joins once.
 */
module Builder {
  import opened Wrappers
  import opened Dataclasses
  import opened Errors
  import opened Transformer

  /** The callbacks a builder is constructed with; `None` is Python's `None`. */
  datatype Hooks = Hooks(
    resolveAlias: Option<string -> Result<string, Error>>,
    validateOperatorAndField: Option<(string, Operator) -> Result<(), Error>>,
    validateOrdering: Option<string -> Result<(), Error>>)

  function NoHooks(): Hooks {
    Hooks(None, None, None)
  }

  /** `resolve_alias`: the callback's answer, or the alias itself when there is none. */
  function ResolveAlias(h: Hooks, alias: string): (r: Result<string, Error>)
    ensures h.resolveAlias.None? ==> r == Ok(alias)
    ensures h.resolveAlias.Some? ==> r == h.resolveAlias.value(alias)
  {
    if h.resolveAlias.Some? then h.resolveAlias.value(alias) else Ok(alias)
  }

  /** `validate_operator_and_field`: the callback's verdict, or success when there is none. */
  function ValidateOperatorAndField(h: Hooks, field: string, op: Operator): (r: Result<(), Error>)
    ensures h.validateOperatorAndField.None? ==> r == Ok(())
    ensures h.validateOperatorAndField.Some? ==> r == h.validateOperatorAndField.value(field, op)
  {
    if h.validateOperatorAndField.Some? then h.validateOperatorAndField.value(field, op) else Ok(())
  }

  /**
   * What a concrete builder supplies. `apply` stands for the family of
   * `apply_<op>` methods, selected by the operator's tag; `logical` for
   * `apply_and`, `apply_or` and `apply_not`. The state `S` is the
   * builder's own mutable data (the SQLAlchemy builder's `joins`).
   */
  datatype Backend<!S, !C, !Q> = Backend(
    hooks: Hooks,
    initialQuery: Q,
    logical: (LogicalOp, seq<C>) -> Result<C, Error>,
    apply: (S, ComparisonOp, string, Value) -> Step<S, C>,
    any: (S, string, C) -> Step<S, C>,
    applyFilter: (Q, C) -> Q,
    applyOrderBy: (S, Q, seq<OrderField>) -> Step<S, Q>,
    applyJoins: (S, Q) -> Q)

  /**
   * `apply_operator`: the validation callback runs first; when it raises,
   * no `apply_<op>` runs and the state is untouched.
   */
  function ApplyOperator<S, C, Q>(b: Backend<S, C, Q>, s: S, op: ComparisonOp, prop: string, v: Value): (r: Step<S, C>)
    ensures ValidateOperatorAndField(b.hooks, prop, OperatorOf(op)).Err? ==>
      r == Step(s, Err(ValidateOperatorAndField(b.hooks, prop, OperatorOf(op)).error))
    ensures ValidateOperatorAndField(b.hooks, prop, OperatorOf(op)).Ok? ==> r == b.apply(s, op, prop, v)
  {
    match ValidateOperatorAndField(b.hooks, prop, OperatorOf(op))
    case Err(e) => Step(s, Err(e))
    case Ok(_) => b.apply(s, op, prop, v)
  }

  /** The `OperatorFunctions` a builder hands to its transformer. */
  function AlgebraOf<S, C, Q>(b: Backend<S, C, Q>): Algebra<S, C> {
    Algebra(b.logical, (s: S, op: ComparisonOp, p: string, v: Value) => ApplyOperator(b, s, op, p, v), b.any)
  }

  /** Runs the ordering callback on every field path, stopping at the first error. */
  function CheckOrdering(h: Hooks, fields: seq<OrderField>): (r: Result<(), Error>)
    ensures r.Ok? <==> h.validateOrdering.None? || forall j :: 0 <= j < |fields| ==> h.validateOrdering.value(fields[j].fieldPath).Ok?
  {
    if h.validateOrdering.None? || |fields| == 0 then Ok(())
    else match h.validateOrdering.value(fields[0].fieldPath)
      case Err(e) => Err(e)
      case Ok(_) => CheckOrdering(h, fields[1..])
  }

  /** One iteration of `build_query`'s loop. */
  function ApplyExpression<S, C, Q>(b: Backend<S, C, Q>, s: S, q: Q, x: Expression<C>): (r: Step<S, Q>)
    ensures x.FilterExpression? ==> r == Step(s, Ok(b.applyFilter(q, x.condition)))
    ensures x.OrderByExpression? && CheckOrdering(b.hooks, x.fields).Err? ==> r == Step(s, Err(CheckOrdering(b.hooks, x.fields).error))
    ensures x.OrderByExpression? && CheckOrdering(b.hooks, x.fields).Ok? ==> r == b.applyOrderBy(s, q, x.fields)
  {
    match x
    case FilterExpression(c) => Step(s, Ok(b.applyFilter(q, c)))
    case OrderByExpression(fields) =>
      match CheckOrdering(b.hooks, fields)
      case Err(e) => Step(s, Err(e))
      case Ok(_) => b.applyOrderBy(s, q, fields)
  }

  /** The loop of `build_query` over the first |xs| expressions. */
  function Fold<S, C, Q>(b: Backend<S, C, Q>, s: S, q: Q, xs: seq<Expression<C>>): (r: Step<S, Q>)
    ensures (forall i :: 0 <= i < |xs| ==> xs[i].FilterExpression?) ==> r.state == s && r.result.Ok?
    decreases |xs|
  {
    if |xs| == 0 then Step(s, Ok(q))
    else
      var prev := Fold(b, s, q, xs[..|xs| - 1]);
      if prev.result.Err? then prev
      else ApplyExpression(b, prev.state, prev.result.value, xs[|xs| - 1])
  }

  /** `build_query` over an already parsed tree; the initial query is `initial` unless it is None. */
  function BuildQuerySpec<S, C, Q>(b: Backend<S, C, Q>, s: S, tree: seq<Expr>, initial: Option<Q>): (r: Step<S, Q>)
    ensures var t := TransformList(AlgebraOf(b), s, tree);
      t.result.Err? ==> r == Step(t.state, Err(t.result.error))
    ensures var t := TransformList(AlgebraOf(b), s, tree);
      r.result.Ok? <==> t.result.Ok? && Fold(b, t.state, if initial.Some? then initial.value else b.initialQuery, t.result.value).result.Ok?
    ensures var t := TransformList(AlgebraOf(b), s, tree);
      r.result.Ok? ==> (t.result.Ok? &&
        var f := Fold(b, t.state, if initial.Some? then initial.value else b.initialQuery, t.result.value);
        r.state == f.state && f.result.Ok? && r.result.value == b.applyJoins(f.state, f.result.value))
  {
    var q := if initial.Some? then initial.value else b.initialQuery;
    var t := TransformList(AlgebraOf(b), s, tree);
    if t.result.Err? then Step(t.state, Err(t.result.error))
    else
      var f := Fold(b, t.state, q, t.result.value);
      if f.result.Err? then f else Step(f.state, Ok(b.applyJoins(f.state, f.result.value)))
  }

  /** A builder object: its backend functions and its mutable state. */
  class QueryBuilder<S, C, Q> {
    const backend: Backend<S, C, Q>
    var state: S

    constructor (b: Backend<S, C, Q>, s: S)
      ensures backend == b && state == s
    {
      backend := b;
      state := s;
    }

    /** `build_query`; the state keeps what the run recorded, also when it fails. */
    method BuildQuery(tree: seq<Expr>, initial: Option<Q>) returns (r: Result<Q, Error>)
      modifies this
      ensures Step(state, r) == BuildQuerySpec(backend, old(state), tree, initial)
    {
      var query := if initial.Some? then initial.value else backend.initialQuery;
      ghost var q0 := query;
      var t := TransformList(AlgebraOf(backend), state, tree);
      state := t.state;
      if t.result.Err? {
        return Err(t.result.error);
      }
      var expressions := t.result.value;
      var i := 0;
      while i < |expressions|
        invariant 0 <= i <= |expressions|
        invariant Fold(backend, t.state, q0, expressions[..i]) == Step(state, Ok(query))
        decreases |expressions| - i
      {
        FoldStep(backend, t.state, q0, expressions, i);
        match expressions[i] {
          case FilterExpression(c) =>
            query := backend.applyFilter(query, c);
          case OrderByExpression(fields) =>
            var ok := RunOrderingCheck(fields);
            if ok.Err? {
              FoldStopsAtError(backend, t.state, q0, expressions, i + 1);
              return Err(ok.error);
            }
            var st := backend.applyOrderBy(state, query, fields);
            state := st.state;
            if st.result.Err? {
              FoldStopsAtError(backend, t.state, q0, expressions, i + 1);
              return Err(st.result.error);
            }
            query := st.result.value;
        }
        i := i + 1;
      }
      assert expressions[..i] == expressions;
      r := Ok(backend.applyJoins(state, query));
    }

    /** The ordering callback run on each field path in turn, stopping at the first error. */
    method RunOrderingCheck(fields: seq<OrderField>) returns (ok: Result<(), Error>)
      ensures ok == CheckOrdering(backend.hooks, fields)
    {
      if backend.hooks.validateOrdering.None? {
        return Ok(());
      }
      var j := 0;
      while j < |fields|
        invariant 0 <= j <= |fields|
        invariant CheckOrdering(backend.hooks, fields) == CheckOrdering(backend.hooks, fields[j..])
      {
        var v := backend.hooks.validateOrdering.value(fields[j].fieldPath);
        if v.Err? {
          return Err(v.error);
        }
        assert fields[j..][1..] == fields[j + 1..];
        j := j + 1;
      }
      return Ok(());
    }
  }

  /** One more iteration of the loop, after a prefix that succeeded. */
  lemma FoldStep<S, C, Q>(b: Backend<S, C, Q>, s: S, q: Q, xs: seq<Expression<C>>, i: nat)
    requires i < |xs| && Fold(b, s, q, xs[..i]).result.Ok?
    ensures var prev := Fold(b, s, q, xs[..i]);
      Fold(b, s, q, xs[..i + 1]) == ApplyExpression(b, prev.state, prev.result.value, xs[i])
  {
    assert xs[..i + 1][..i] == xs[..i];
  }

  /** Once an expression raises, the rest of the loop never runs. */
  lemma {:induction false} FoldStopsAtError<S, C, Q>(b: Backend<S, C, Q>, s: S, q: Q, xs: seq<Expression<C>>, k: nat)
    requires k <= |xs|
    requires Fold(b, s, q, xs[..k]).result.Err?
    ensures Fold(b, s, q, xs) == Fold(b, s, q, xs[..k])
    decreases |xs| - k
  {
    if k < |xs| {
      assert xs[..k + 1][..k] == xs[..k];
      FoldStopsAtError(b, s, q, xs, k + 1);
    } else {
      assert xs[..k] == xs;
    }
  }

  /**
   * No partial query: a build that succeeds transformed the whole tree and
   * ran the ordering callback, successfully, on every field of every
   * order-by it emitted.
   */
  lemma {:induction false} OrderingCheckedBeforeEveryOrderBy<S, C, Q>(b: Backend<S, C, Q>, s: S, q: Q, xs: seq<Expression<C>>)
    requires Fold(b, s, q, xs).result.Ok?
    requires b.hooks.validateOrdering.Some?
    ensures forall i, j :: 0 <= i < |xs| && xs[i].OrderByExpression? && 0 <= j < |xs[i].fields| ==>
      b.hooks.validateOrdering.value(xs[i].fields[j].fieldPath).Ok?
    decreases |xs|
  {
    if |xs| > 0 {
      var init := xs[..|xs| - 1];
      OrderingCheckedBeforeEveryOrderBy(b, s, q, init);
      assert forall i :: 0 <= i < |init| ==> xs[i] == init[i];
    }
  }

  /** What a trace query records: each call the builder made on it, in order. */
  datatype Event<C> = Started(fromInitial: bool) | Filtered(condition: C) | Ordered(fields: seq<OrderField>) | JoinsApplied

  /** The same backend with its query operations replaced by recording ones. */
  function Traced<S, C, Q>(b: Backend<S, C, Q>): Backend<S, C, seq<Event<C>>> {
    Backend(
      b.hooks, [Started(false)], b.logical, b.apply, b.any,
      (q: seq<Event<C>>, c: C) => q + [Filtered(c)],
      (s: S, q: seq<Event<C>>, fs: seq<OrderField>) => Step(s, Ok(q + [Ordered(fs)])),
      (s: S, q: seq<Event<C>>) => q + [JoinsApplied])
  }

  /** The event each transformed expression contributes. */
  function EventOf<C>(x: Expression<C>): Event<C> {
    match x
    case FilterExpression(c) => Filtered(c)
    case OrderByExpression(fs) => Ordered(fs)
  }

  lemma {:induction false} TracedFold<S, C, Q>(b: Backend<S, C, Q>, s: S, q: seq<Event<C>>, xs: seq<Expression<C>>)
    requires forall i :: 0 <= i < |xs| && xs[i].OrderByExpression? ==> CheckOrdering(b.hooks, xs[i].fields).Ok?
    ensures Fold(Traced(b), s, q, xs) == Step(s, Ok(q + seq(|xs|, i requires 0 <= i < |xs| => EventOf(xs[i]))))
    decreases |xs|
  {
    if |xs| > 0 {
      var init := xs[..|xs| - 1];
      assert forall i :: 0 <= i < |init| ==> init[i] == xs[i];
      TracedFold(b, s, q, init);
      var prev := q + seq(|init|, i requires 0 <= i < |init| => EventOf(init[i]));
      assert Fold(Traced(b), s, q, xs) == ApplyExpression(Traced(b), s, prev, xs[|xs| - 1]);
      assert ApplyExpression(Traced(b), s, prev, xs[|xs| - 1]) == Step(s, Ok(prev + [EventOf(xs[|xs| - 1])]));
      assert q + seq(|init|, i requires 0 <= i < |init| => EventOf(init[i])) + [EventOf(xs[|xs| - 1])]
          == q + seq(|xs|, i requires 0 <= i < |xs| => EventOf(xs[i]));
    } else {
      assert q + seq(|xs|, i requires 0 <= i < |xs| => EventOf(xs[i])) == q;
    }
  }

  /**
   * The query starts from `initial` when one is given, receives one call
   * per transformed expression in transformer order (filters through
   * `apply_filter`, order-bys through `apply_order_by`), and has its joins
   * applied exactly once, after everything else. This holds whenever the
   * ordering callback accepts the fields of every order-by.
   */
  lemma BuildQueryOrder<S, C, Q>(b: Backend<S, C, Q>, s: S, tree: seq<Expr>, initial: Option<seq<Event<C>>>)
    requires TransformList(AlgebraOf(Traced(b)), s, tree).result.Ok?
    requires var xs := TransformList(AlgebraOf(Traced(b)), s, tree).result.value;
      forall i :: 0 <= i < |xs| && xs[i].OrderByExpression? ==> CheckOrdering(b.hooks, xs[i].fields).Ok?
    ensures var xs := TransformList(AlgebraOf(Traced(b)), s, tree).result.value;
      var start := if initial.Some? then initial.value else [Started(false)];
      BuildQuerySpec(Traced(b), s, tree, initial).result
        == Ok(start + seq(|xs|, i requires 0 <= i < |xs| => EventOf(xs[i])) + [JoinsApplied])
  {
    var t := TransformList(AlgebraOf(Traced(b)), s, tree);
    var start := if initial.Some? then initial.value else [Started(false)];
    TracedFold(b, t.state, start, t.result.value);
  }
}
