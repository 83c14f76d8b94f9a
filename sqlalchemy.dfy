/**
 * The SQLAlchemy builder (builders/sqlalchemy.py): property paths are
 * walked through relationships, each step aliasing its target and, for a
 * to-one relationship, recording a join in the builder's `joins` list;
 * conditions are SQL expression trees; the statement is a record of its
 * where clauses, joins and order terms.
 */
module SqlAlchemy {
  import opened Wrappers
  import opened Dataclasses
  import opened Errors
  import opened Strings
  import opened Transformer
  import Builder

  /** A column type's `python_type`, or a type that raises NotImplementedError for it. */
  datatype ColumnType = Typed(pythonType: PyType) | WithoutPythonType(typeName: string)

  datatype Column = Column(name: string, columnType: ColumnType, nullable: bool)

  /** A relationship property: the target class, `uselist`, and its `local_columns`. */
  datatype Relationship = Relationship(target: string, uselist: bool, localColumns: seq<Column>)

  /** A mapped attribute: a column property or a relationship property. */
  datatype Attribute = ColumnAttr(column: Column) | RelationshipAttr(relationship: Relationship)

  /** The mapped classes: each class's attributes by name. */
  type Schema = map<string, map<string, Attribute>>

  /** The builder's model class, or the `id`-th `aliased(...)` made by this builder. */
  datatype Entity = Root(model: string) | Alias(id: nat, model: string)

  /** An instrumented attribute: a mapped attribute read from an entity. */
  datatype Bound = Bound(entity: Entity, name: string, attribute: Attribute)

  /** A recorded join: the aliased target, the relationship attribute it joins on, outer or inner. */
  type Join = JoinExpression<Entity, Bound>

  /** The builder's mutable data: `self.joins`, and how many aliases it has made (for fresh ids). */
  datatype State = State(joins: seq<Join>, aliases: nat)

  /** `getattr(entity, name)`. */
  function GetAttr(schema: Schema, e: Entity, name: string): (r: Result<Bound, Error>)
    ensures r.Ok? <==> e.model in schema && name in schema[e.model]
    ensures r.Ok? ==> r.value == Bound(e, name, schema[e.model][name])
    ensures r.Err? ==> r.error == AttributeMissing(name)
  {
    if e.model in schema && name in schema[e.model] then Ok(Bound(e, name, schema[e.model][name]))
    else Err(AttributeMissing(name))
  }

  /** `any(column.nullable for column in local_columns)`. */
  function AnyNullable(cols: seq<Column>): (r: bool)
    ensures r <==> exists i :: 0 <= i < |cols| && cols[i].nullable
  {
    if |cols| == 0 then false else cols[0].nullable || AnyNullable(cols[1..])
  }

  /**
   * The walk of `resolve_property` from `current` along `parts`: every
   * part but the last must be a relationship; each is aliased, and a
   * to-one one records a join, outer when a local column is nullable.
   */
  function Walk(schema: Schema, current: Entity, parts: seq<string>, st: State): (r: Step<State, Bound>)
    requires |parts| >= 1
    ensures r.result.Ok? ==> r.result.value.name == parts[|parts| - 1]
    ensures r.result.Err? ==> IsAttributeError(r.result.error)
    decreases |parts|
  {
    if |parts| == 1 then Step(st, GetAttr(schema, current, parts[0]))
    else match GetAttr(schema, current, parts[0])
      case Err(e) => Step(st, Err(e))
      case Ok(b) =>
        if !b.attribute.RelationshipAttr? then Step(st, Err(NotARelationship(parts[0])))
        else Walk(schema, Alias(st.aliases, b.attribute.relationship.target), parts[1..], Through(st, b))
  }

  /**
   * The state after stepping through relationship `b`: its target gets the
   * next alias and, when to-one, a join on `b` to that alias is recorded.
   */
  function Through(st: State, b: Bound): (r: State)
    requires b.attribute.RelationshipAttr?
    ensures r.aliases == st.aliases + 1 && st.joins <= r.joins
  {
    var rel := b.attribute.relationship;
    State(st.joins + (if rel.uselist then [] else [JoinExpression(Alias(st.aliases, rel.target), b, AnyNullable(rel.localColumns))]),
          st.aliases + 1)
  }

  /** `resolve_property`: resolve the alias, split it at dots, walk it from the model class. */
  function ResolveProperty(schema: Schema, model: string, h: Builder.Hooks, st: State, path: string): (r: Step<State, Bound>)
    ensures Builder.ResolveAlias(h, path).Err? ==> r == Step(st, Err(Builder.ResolveAlias(h, path).error))
    ensures Builder.ResolveAlias(h, path).Ok? && r.result.Ok? ==>
      var parts := Split(Builder.ResolveAlias(h, path).value, '.');
      r.result.value.name == parts[|parts| - 1]
    ensures Builder.ResolveAlias(h, path).Ok? && r.result.Err? ==> IsAttributeError(r.result.error)
    ensures st.joins <= r.state.joins && st.aliases <= r.state.aliases
  {
    match Builder.ResolveAlias(h, path)
    case Err(e) => Step(st, Err(e))
    case Ok(p) => WalkGrows(schema, Root(model), Split(p, '.'), st); Walk(schema, Root(model), Split(p, '.'), st)
  }

  /** What a join records, without the alias object: the relationship's name, its target class, outer or not. */
  function Shape(j: Join): (string, string, bool) {
    (j.on.name, j.target.model, j.isOuter)
  }

  function Shapes(js: seq<Join>): (r: seq<(string, string, bool)>)
    ensures |r| == |js| && forall i :: 0 <= i < |js| ==> r[i] == Shape(js[i])
  {
    seq(|js|, i requires 0 <= i < |js| => Shape(js[i]))
  }

  /** Whether `parts` can be walked from class `model`: relationships up to the last part, which exists. */
  predicate PathResolves(schema: Schema, model: string, parts: seq<string>)
    requires |parts| >= 1
    decreases |parts|
  {
    model in schema && parts[0] in schema[model]
    && (|parts| > 1 ==>
          schema[model][parts[0]].RelationshipAttr?
          && PathResolves(schema, schema[model][parts[0]].relationship.target, parts[1..]))
  }

  /** The joins a walk of `parts` from class `model` records, one per to-one intermediate, in path order. */
  function ExpectedJoins(schema: Schema, model: string, parts: seq<string>): seq<(string, string, bool)>
    requires |parts| >= 1 && PathResolves(schema, model, parts)
    decreases |parts|
  {
    if |parts| == 1 then []
    else
      var rel := schema[model][parts[0]].relationship;
      (if rel.uselist then [] else [(parts[0], rel.target, AnyNullable(rel.localColumns))])
      + ExpectedJoins(schema, rel.target, parts[1..])
  }

  /** Shapes distribute over concatenation. */
  lemma ShapesConcat(a: seq<Join>, b: seq<Join>)
    ensures Shapes(a + b) == Shapes(a) + Shapes(b)
  {
    assert |Shapes(a + b)| == |Shapes(a) + Shapes(b)|;
    forall i | 0 <= i < |a + b|
      ensures Shapes(a + b)[i] == (Shapes(a) + Shapes(b))[i]
    {
      if i < |a| {
        assert (a + b)[i] == a[i];
      } else {
        assert (a + b)[i] == b[i - |a|];
      }
    }
  }

  /** The joins one step records, as shapes. */
  lemma ThroughShapes(st: State, b: Bound, name: string)
    requires b.attribute.RelationshipAttr? && b.name == name
    ensures var rel := b.attribute.relationship;
      Shapes(Through(st, b).joins[|st.joins|..]) == (if rel.uselist then [] else [(name, rel.target, AnyNullable(rel.localColumns))])
  {
    var rel := b.attribute.relationship;
    var added := if rel.uselist then [] else [JoinExpression(Alias(st.aliases, rel.target), b, AnyNullable(rel.localColumns))];
    assert Through(st, b).joins[|st.joins|..] == added;
  }

  /** The walk only appends to `joins`, also when it raises. */
  lemma {:induction false} WalkGrows(schema: Schema, current: Entity, parts: seq<string>, st: State)
    requires |parts| >= 1
    ensures var r := Walk(schema, current, parts, st);
      st.joins <= r.state.joins && st.aliases <= r.state.aliases
    decreases |parts|
  {
    if |parts| > 1 {
      var b := GetAttr(schema, current, parts[0]);
      if b.Ok? && b.value.attribute.RelationshipAttr? {
        WalkGrows(schema, Alias(st.aliases, b.value.attribute.relationship.target), parts[1..], Through(st, b.value));
      }
    }
  }

  /** The walk succeeds exactly when the path resolves. */
  lemma {:induction false} WalkResolves(schema: Schema, current: Entity, parts: seq<string>, st: State)
    requires |parts| >= 1
    ensures Walk(schema, current, parts, st).result.Ok? <==> PathResolves(schema, current.model, parts)
    decreases |parts|
  {
    if |parts| > 1 {
      var b := GetAttr(schema, current, parts[0]);
      if b.Ok? && b.value.attribute.RelationshipAttr? {
        WalkResolves(schema, Alias(st.aliases, b.value.attribute.relationship.target), parts[1..], Through(st, b.value));
      }
    }
  }

  /** A successful walk appends exactly the expected joins, in path order. */
  lemma {:induction false} WalkAppends(schema: Schema, current: Entity, parts: seq<string>, st: State)
    requires |parts| >= 1 && Walk(schema, current, parts, st).result.Ok?
    ensures var r := Walk(schema, current, parts, st);
      PathResolves(schema, current.model, parts) && st.joins <= r.state.joins
      && Shapes(r.state.joins[|st.joins|..]) == ExpectedJoins(schema, current.model, parts)
    decreases |parts|
  {
    WalkResolves(schema, current, parts, st);
    if |parts| > 1 {
      var b := GetAttr(schema, current, parts[0]).value;
      var st1 := Through(st, b);
      var next := Alias(st.aliases, b.attribute.relationship.target);
      WalkAppends(schema, next, parts[1..], st1);
      var r := Walk(schema, next, parts[1..], st1);
      assert r.state.joins[|st.joins|..] == st1.joins[|st.joins|..] + r.state.joins[|st1.joins|..];
      ShapesConcat(st1.joins[|st.joins|..], r.state.joins[|st1.joins|..]);
      ThroughShapes(st, b, parts[0]);
    } else {
      assert st.joins[|st.joins|..] == [];
    }
  }

  /**
   * The walk only appends to `joins` (also when it raises), succeeds
   * exactly when the path resolves, and then appends exactly the expected
   * joins: one per to-one intermediate relationship, in path order, outer
   * exactly when one of its local columns is nullable.
   */
  lemma WalkJoins(schema: Schema, current: Entity, parts: seq<string>, st: State)
    requires |parts| >= 1
    ensures var r := Walk(schema, current, parts, st);
      st.joins <= r.state.joins && st.aliases <= r.state.aliases
    ensures Walk(schema, current, parts, st).result.Ok? <==> PathResolves(schema, current.model, parts)
    ensures Walk(schema, current, parts, st).result.Ok? ==>
      Shapes(Walk(schema, current, parts, st).state.joins[|st.joins|..]) == ExpectedJoins(schema, current.model, parts)
  {
    WalkGrows(schema, current, parts, st);
    WalkResolves(schema, current, parts, st);
    if Walk(schema, current, parts, st).result.Ok? {
      WalkAppends(schema, current, parts, st);
    }
  }

  /** A path without a dot names an attribute of the model class and records no join. */
  lemma SingleSegmentNoJoin(schema: Schema, model: string, h: Builder.Hooks, st: State, path: string)
    requires Builder.ResolveAlias(h, path).Ok? && '.' !in Builder.ResolveAlias(h, path).value
    ensures ResolveProperty(schema, model, h, st, path)
      == Step(st, GetAttr(schema, Root(model), Builder.ResolveAlias(h, path).value))
  {
  }

  /**
   * No deduplication: resolving the same dotted path twice, the second
   * time from the state the first left, records its joins twice, and the
   * second set targets fresh aliases.
   */
  lemma RepeatedPathJoinsTwice(schema: Schema, model: string, parts: seq<string>, st: State)
    requires |parts| >= 1 && PathResolves(schema, model, parts)
    ensures var first := Walk(schema, Root(model), parts, st);
      var second := Walk(schema, Root(model), parts, first.state);
      second.result.Ok? && st.joins <= second.state.joins
      && Shapes(second.state.joins[|st.joins|..]) == ExpectedJoins(schema, model, parts) + ExpectedJoins(schema, model, parts)
  {
    var first := Walk(schema, Root(model), parts, st);
    WalkResolves(schema, Root(model), parts, st);
    WalkAppends(schema, Root(model), parts, st);
    var second := Walk(schema, Root(model), parts, first.state);
    WalkResolves(schema, Root(model), parts, first.state);
    WalkAppends(schema, Root(model), parts, first.state);
    assert second.state.joins[|st.joins|..]
        == first.state.joins[|st.joins|..] + second.state.joins[|first.state.joins|..];
    ShapesConcat(first.state.joins[|st.joins|..], second.state.joins[|first.state.joins|..]);
  }

  /** `resolve_property`'s loop over `parts[:-1]`, rebinding `current` and appending to `joins`. */
  method ResolvePropertyLoop(schema: Schema, model: string, h: Builder.Hooks, st0: State, path: string)
    returns (st: State, r: Result<Bound, Error>)
    ensures Step(st, r) == ResolveProperty(schema, model, h, st0, path)
  {
    st := st0;
    var resolved := Builder.ResolveAlias(h, path);
    if resolved.Err? {
      return st, Err(resolved.error);
    }
    var parts := Split(resolved.value, '.');
    if |parts| > 1 {
      var current := Root(model);
      var i := 0;
      while i < |parts| - 1
        invariant 0 <= i <= |parts| - 1
        invariant Walk(schema, current, parts[i..], st) == Walk(schema, Root(model), parts, st0)
      {
        assert parts[i..][1..] == parts[i + 1..];
        var b := GetAttr(schema, current, parts[i]);
        if b.Err? {
          return st, Err(b.error);
        }
        if !b.value.attribute.RelationshipAttr? {
          return st, Err(NotARelationship(parts[i]));
        }
        var rel := b.value.attribute.relationship;
        var alias := Alias(st.aliases, rel.target);
        var added := [];
        if !rel.uselist {
          added := [JoinExpression(alias, b.value, AnyNullable(rel.localColumns))];
        }
        assert State(st.joins + added, st.aliases + 1) == Through(st, b.value);
        assert Walk(schema, current, parts[i..], st) == Walk(schema, alias, parts[i + 1..], Through(st, b.value));
        st := State(st.joins + added, st.aliases + 1);
        current := alias;
        i := i + 1;
      }
      assert parts[i..] == [parts[|parts| - 1]];
      r := GetAttr(schema, current, parts[|parts| - 1]);
      return;
    }
    r := GetAttr(schema, Root(model), resolved.value);
  }

  /** `get_field_type`: the Python type of the attribute's first column. */
  function GetFieldType(schema: Schema, model: string, field: string): (r: Result<PyType, Error>)
    ensures GetAttr(schema, Root(model), field).Err? ==> r == Err(AttributeMissing(field))
    ensures r.Ok? <==> GetAttr(schema, Root(model), field).Ok? && schema[model][field].ColumnAttr?
                       && schema[model][field].column.columnType.Typed?
    ensures r.Ok? ==> r.value == schema[model][field].column.columnType.pythonType
    ensures r.Err? ==> (IsAttributeError(r.error) <==> !r.error.PythonTypeUnavailable?)
  {
    match GetAttr(schema, Root(model), field)
    case Err(e) => Err(e)
    case Ok(b) =>
      match b.attribute
      case RelationshipAttr(_) => Err(NotAColumn(field))
      case ColumnAttr(c) =>
        match c.columnType
        case Typed(t) => Ok(t)
        case WithoutPythonType(n) => Err(PythonTypeUnavailable(n))
  }

  /** A SQL expression operand: an instrumented attribute, or a table column itself. */
  datatype Operand = AttrOperand(bound: Bound) | ColumnOperand(column: Column)

  /** The SQL expressions the builder constructs. */
  datatype Clause =
    | Is(left: Operand, value: Value)
    | IsNot(left: Operand, value: Value)
    | Binary(op: ComparisonOp, attr: Bound, value: Value)
    | Like(attr: Bound, pattern: string, insensitive: bool)
    | Conjunction(clauses: seq<Clause>)
    | Disjunction(clauses: seq<Clause>)
    | Negation(clause: Clause)
    | ExistsWhere(relationship: Bound, condition: Clause)

  /** `value.replace("*", "%")`. */
  function SqlPattern(value: string): (r: string)
    ensures |r| == |value| && '*' !in r
    ensures forall k :: 0 <= k < |value| ==> r[k] == if value[k] == '*' then '%' else value[k]
  {
    forall k | 0 <= k < |value| ensures Replace(value, '*', "%")[k] == if value[k] == '*' then '%' else value[k] {
      ReplaceByChar(value, '*', '%', k);
    }
    Replace(value, '*', "%")
  }

  /**
   * What `value.replace("*", "%")` raises for a value that is not a string:
   * `date` and `datetime` have a `replace` taking integer fields, so they
   * raise TypeError; the other values have no `replace` at all.
   */
  function PatternError(v: Value): (e: Error)
    requires !v.Str?
    ensures IsAttributeError(e) <==> !(v.Date? || v.DateTime?)
    ensures (v.Date? || v.DateTime?) ==> e == ReplaceNeedsIntegers
    ensures !(v.Date? || v.DateTime?) ==> e == NotAString
  {
    if v.Date? || v.DateTime? then ReplaceNeedsIntegers else NotAString
  }

  /** `apply_eq_to_relationship`: every local column IS NULL. */
  function RelationshipIsNull(rel: Relationship): (c: Clause)
    ensures c.Conjunction? && |c.clauses| == |rel.localColumns|
    ensures forall i :: 0 <= i < |rel.localColumns| ==> c.clauses[i] == Is(ColumnOperand(rel.localColumns[i]), Null)
  {
    Conjunction(seq(|rel.localColumns|, i requires 0 <= i < |rel.localColumns| => Is(ColumnOperand(rel.localColumns[i]), Null)))
  }

  /** `apply_ne_to_relationship`: some local column IS NOT NULL. */
  function RelationshipIsNotNull(rel: Relationship): (c: Clause)
    ensures c.Disjunction? && |c.clauses| == |rel.localColumns|
    ensures forall i :: 0 <= i < |rel.localColumns| ==> c.clauses[i] == IsNot(ColumnOperand(rel.localColumns[i]), Null)
  {
    Disjunction(seq(|rel.localColumns|, i requires 0 <= i < |rel.localColumns| => IsNot(ColumnOperand(rel.localColumns[i]), Null)))
  }

  /** The clause a comparison builds on a resolved attribute. */
  function Compare(op: ComparisonOp, b: Bound, v: Value): (r: Result<Clause, Error>)
    ensures (op == EqOp || op == NeOp) && b.attribute.RelationshipAttr? ==>
      (r.Ok? <==> v.Null?) && (r.Err? ==> r.error == RelationshipNeedsNull(OperatorOf(op)))
    ensures op == EqOp && b.attribute.RelationshipAttr? && v.Null? ==> r == Ok(RelationshipIsNull(b.attribute.relationship))
    ensures op == NeOp && b.attribute.RelationshipAttr? && v.Null? ==> r == Ok(RelationshipIsNotNull(b.attribute.relationship))
    ensures op == EqOp && b.attribute.ColumnAttr? ==>
      r == Ok(if v.Bool? || v.Null? then Is(AttrOperand(b), v) else Binary(EqOp, b, v))
    ensures op == NeOp && b.attribute.ColumnAttr? ==>
      r == Ok(if v.Bool? || v.Null? then IsNot(AttrOperand(b), v) else Binary(NeOp, b, v))
    ensures (op == LikeOp || op == IlikeOp) ==> (r.Ok? <==> v.Str?)
    ensures (op == LikeOp || op == IlikeOp) && v.Str? ==> r == Ok(Like(b, SqlPattern(v.s), op == IlikeOp))
    ensures (op == LikeOp || op == IlikeOp) && !v.Str? ==> r == Err(PatternError(v))
  {
    match op
    case EqOp =>
      if b.attribute.RelationshipAttr? then
        if v.Null? then Ok(RelationshipIsNull(b.attribute.relationship)) else Err(RelationshipNeedsNull(EQ))
      else if v.Bool? || v.Null? then Ok(Is(AttrOperand(b), v))
      else Ok(Binary(EqOp, b, v))
    case NeOp =>
      if b.attribute.RelationshipAttr? then
        if v.Null? then Ok(RelationshipIsNotNull(b.attribute.relationship)) else Err(RelationshipNeedsNull(NE))
      else if v.Bool? || v.Null? then Ok(IsNot(AttrOperand(b), v))
      else Ok(Binary(NeOp, b, v))
    case LikeOp => if v.Str? then Ok(Like(b, SqlPattern(v.s), false)) else Err(PatternError(v))
    case IlikeOp => if v.Str? then Ok(Like(b, SqlPattern(v.s), true)) else Err(PatternError(v))
    case _ => Ok(Binary(op, b, v))
  }

  /**
   * `apply_<op>`: LIKE and ILIKE rewrite the pattern before resolving, so
   * a non-string pattern raises first; the others resolve first. Joins a
   * resolution records stay recorded when the comparison then raises.
   */
  function Apply(schema: Schema, model: string, h: Builder.Hooks, st: State, op: ComparisonOp, prop: string, v: Value): (r: Step<State, Clause>)
    ensures (op == LikeOp || op == IlikeOp) && !v.Str? ==> r == Step(st, Err(PatternError(v)))
    ensures ((op != LikeOp && op != IlikeOp) || v.Str?) ==> r.state == ResolveProperty(schema, model, h, st, prop).state
    ensures ((op != LikeOp && op != IlikeOp) || v.Str?) ==>
      var rp := ResolveProperty(schema, model, h, st, prop);
      r.result == (if rp.result.Ok? then Compare(op, rp.result.value, v) else Err(rp.result.error))
  {
    if (op == LikeOp || op == IlikeOp) && !v.Str? then Step(st, Err(PatternError(v)))
    else
      var rp := ResolveProperty(schema, model, h, st, prop);
      match rp.result
      case Err(e) => Step(rp.state, Err(e))
      case Ok(b) => Step(rp.state, Compare(op, b, v))
  }

  /** A comparison only ever adds joins. */
  lemma ApplyOnlyAppends(schema: Schema, model: string, h: Builder.Hooks, st: State, op: ComparisonOp, prop: string, v: Value)
    ensures st.joins <= Apply(schema, model, h, st, op, prop, v).state.joins
  {
    var p := Builder.ResolveAlias(h, prop);
    if p.Ok? {
      WalkJoins(schema, Root(model), Split(p.value, '.'), st);
    }
  }

  /** `apply_and` / `apply_or` / `apply_not`: `and_`, `or_`, and `~` on exactly one clause. */
  function Logical(op: LogicalOp, cs: seq<Clause>): (r: Result<Clause, Error>)
    ensures op == AndOp ==> r == Ok(Conjunction(cs))
    ensures op == OrOp ==> r == Ok(Disjunction(cs))
    ensures op == NotOp ==> (r.Ok? <==> |cs| == 1) && (r.Ok? ==> r.value == Negation(cs[0]))
  {
    match op
    case AndOp => Ok(Conjunction(cs))
    case OrOp => Ok(Disjunction(cs))
    case NotOp => if |cs| == 1 then Ok(Negation(cs[0])) else Err(WrongArity(|cs|))
  }

  /**
   * `apply_any`, up to the rewriting of the condition onto the alias: the
   * name must be a relationship of the model class.
   */
  function ApplyAny(schema: Schema, model: string, st: State, name: string, c: Clause): (r: Step<State, Clause>)
    ensures r.state == st
    ensures r.result.Ok? <==> GetAttr(schema, Root(model), name).Ok? && schema[model][name].RelationshipAttr?
  {
    match GetAttr(schema, Root(model), name)
    case Err(e) => Step(st, Err(e))
    case Ok(b) => if b.attribute.RelationshipAttr? then Step(st, Ok(ExistsWhere(b, c))) else Step(st, Err(NotARelationship(name)))
  }

  /** An order-by term: the attribute, descending or not. */
  datatype OrderTerm = OrderTerm(attr: Bound, descending: bool)

  /** A `select(model)` statement: its where criteria, its joins (target, on, outer) and its order terms. */
  datatype Select = Select(model: string, wheres: seq<Clause>, joins: seq<(Entity, Bound, bool)>, orderBy: seq<OrderTerm>)

  /** `apply_filter`. */
  function ApplyFilter(q: Select, c: Clause): (r: Select)
    ensures r.wheres == q.wheres + [c] && r.joins == q.joins && r.orderBy == q.orderBy && r.model == q.model
  {
    q.(wheres := q.wheres + [c])
  }

  /** `apply_joins`: every recorded join, in list order, after the statement's own. */
  function ApplyJoinsSpec(st: State, q: Select): (r: Select)
    ensures r.wheres == q.wheres && r.orderBy == q.orderBy && r.model == q.model
    ensures |r.joins| == |q.joins| + |st.joins| && r.joins[..|q.joins|] == q.joins
    ensures forall i :: 0 <= i < |st.joins| ==>
      r.joins[|q.joins| + i] == (st.joins[i].target, st.joins[i].on, st.joins[i].isOuter)
  {
    q.(joins := q.joins + seq(|st.joins|, i requires 0 <= i < |st.joins| => (st.joins[i].target, st.joins[i].on, st.joins[i].isOuter)))
  }

  /** `apply_joins`'s loop. */
  method ApplyJoins(st: State, q0: Select) returns (q: Select)
    ensures q == ApplyJoinsSpec(st, q0)
  {
    q := q0;
    var i := 0;
    while i < |st.joins|
      invariant 0 <= i <= |st.joins|
      invariant q == q0.(joins := q0.joins + seq(i, k requires 0 <= k < i => (st.joins[k].target, st.joins[k].on, st.joins[k].isOuter)))
    {
      var j := st.joins[i];
      q := q.(joins := q.joins + [(j.target, j.on, j.isOuter)]);
      i := i + 1;
    }
  }

  /**
   * Term t orders by field f: f's path resolves, t's attribute is the one
   * its last segment names, and t is descending exactly for `-`.
   */
  predicate OrdersBy(h: Builder.Hooks, f: OrderField, t: OrderTerm) {
    Builder.ResolveAlias(h, f.fieldPath).Ok? &&
    (var parts := Split(Builder.ResolveAlias(h, f.fieldPath).value, '.');
     t.attr.name == parts[|parts| - 1]) &&
    t.descending == (f.direction == "-")
  }

  /** The order terms of the first |fields| fields, resolving each in turn; the first failure stops. */
  function OrderTerms(schema: Schema, model: string, h: Builder.Hooks, st: State, fields: seq<OrderField>): (r: Step<State, seq<OrderTerm>>)
    ensures r.result.Ok? ==> |r.result.value| == |fields|
    ensures r.result.Ok? ==> forall i :: 0 <= i < |fields| ==> OrdersBy(h, fields[i], r.result.value[i])
    ensures st.joins <= r.state.joins && st.aliases <= r.state.aliases
    decreases |fields|
  {
    if |fields| == 0 then Step(st, Ok([]))
    else
      var prev := OrderTerms(schema, model, h, st, fields[..|fields| - 1]);
      match prev.result
      case Err(e) => prev
      case Ok(terms) =>
        var f := fields[|fields| - 1];
        var rp := ResolveProperty(schema, model, h, prev.state, f.fieldPath);
        match rp.result
        case Err(e) => Step(rp.state, Err(e))
        case Ok(b) =>
          var t := OrderTerm(b, f.direction == "-");
          assert OrdersBy(h, f, t);
          assert forall i :: 0 <= i < |terms| ==> fields[i] == fields[..|fields| - 1][i];
          Step(rp.state, Ok(terms + [t]))
  }

  /** `apply_order_by`: one `order_by` call with every term in field order. */
  function OrderBySpec(schema: Schema, model: string, h: Builder.Hooks, st: State, q: Select, fields: seq<OrderField>): Step<State, Select> {
    var t := OrderTerms(schema, model, h, st, fields);
    match t.result
    case Err(e) => Step(t.state, Err(e))
    case Ok(terms) => Step(t.state, Ok(q.(orderBy := q.orderBy + terms)))
  }

  /** `apply_order_by`'s loop. */
  method ApplyOrderBy(schema: Schema, model: string, h: Builder.Hooks, st0: State, q: Select, fields: seq<OrderField>)
    returns (st: State, r: Result<Select, Error>)
    ensures Step(st, r) == OrderBySpec(schema, model, h, st0, q, fields)
  {
    st := st0;
    var terms: seq<OrderTerm> := [];
    var i := 0;
    while i < |fields|
      invariant 0 <= i <= |fields|
      invariant OrderTerms(schema, model, h, st0, fields[..i]) == Step(st, Ok(terms))
    {
      OrderTermsStep(schema, model, h, st0, fields, i);
      var b;
      st, b := ResolvePropertyLoop(schema, model, h, st, fields[i].fieldPath);
      if b.Err? {
        OrderTermsStayFailed(schema, model, h, st0, fields, i + 1);
        return st, Err(b.error);
      }
      terms := terms + [OrderTerm(b.value, fields[i].direction == "-")];
      i := i + 1;
    }
    assert fields[..i] == fields;
    return st, Ok(q.(orderBy := q.orderBy + terms));
  }

  /** One more field resolves against the prefix's state and appends its term. */
  lemma OrderTermsStep(schema: Schema, model: string, h: Builder.Hooks, st: State, fields: seq<OrderField>, i: nat)
    requires i < |fields| && OrderTerms(schema, model, h, st, fields[..i]).result.Ok?
    ensures var prev := OrderTerms(schema, model, h, st, fields[..i]);
      var rp := ResolveProperty(schema, model, h, prev.state, fields[i].fieldPath);
      OrderTerms(schema, model, h, st, fields[..i + 1])
        == if rp.result.Err? then Step(rp.state, Err(rp.result.error))
           else Step(rp.state, Ok(prev.result.value + [OrderTerm(rp.result.value, fields[i].direction == "-")]))
  {
    assert fields[..i + 1][..i] == fields[..i];
  }

  lemma {:induction false} OrderTermsStayFailed(schema: Schema, model: string, h: Builder.Hooks, st: State, fields: seq<OrderField>, k: nat)
    requires k <= |fields| && OrderTerms(schema, model, h, st, fields[..k]).result.Err?
    ensures OrderTerms(schema, model, h, st, fields) == OrderTerms(schema, model, h, st, fields[..k])
    decreases |fields| - k
  {
    if k < |fields| {
      assert fields[..k + 1][..k] == fields[..k];
      OrderTermsStayFailed(schema, model, h, st, fields, k + 1);
    } else {
      assert fields[..k] == fields;
    }
  }

  /** An SQLAlchemy builder for `model` with the given callbacks; its state is `self.joins`. */
  function BackendFor(schema: Schema, model: string, h: Builder.Hooks): (b: Builder.Backend<State, Clause, Select>)
    ensures b.hooks == h && b.initialQuery == Select(model, [], [], [])
    ensures forall op, cs :: b.logical(op, cs) == Logical(op, cs)
    ensures forall st, op, p, v :: b.apply(st, op, p, v) == Apply(schema, model, h, st, op, p, v)
    ensures forall st, name, c :: b.any(st, name, c) == ApplyAny(schema, model, st, name, c)
    ensures forall q, c :: b.applyFilter(q, c) == ApplyFilter(q, c)
    ensures forall st, q, fs :: b.applyOrderBy(st, q, fs) == OrderBySpec(schema, model, h, st, q, fs)
    ensures forall st, q :: b.applyJoins(st, q) == ApplyJoinsSpec(st, q)
  {
    Builder.Backend(
      h, Select(model, [], [], []), Logical,
      (st: State, op: ComparisonOp, p: string, v: Value) => Apply(schema, model, h, st, op, p, v),
      (st: State, name: string, c: Clause) => ApplyAny(schema, model, st, name, c),
      ApplyFilter,
      (st: State, q: Select, fs: seq<OrderField>) => OrderBySpec(schema, model, h, st, q, fs),
      ApplyJoinsSpec)
  }

  /** A new builder starts with no joins. */
  function InitialState(): State {
    State([], 0)
  }

  /** The parts of the test models that the relationship scenario touches: users with a to-one, non-null `account`. */
  function UserAccountSchema(): Schema {
    map[
      "User" := map[
        "name" := ColumnAttr(UserName()),
        "account" := RelationshipAttr(AccountOfUser())],
      "Account" := map["name" := ColumnAttr(AccountName())]]
  }

  function UserName(): Column { Column("name", Typed(StrType), false) }
  function AccountName(): Column { Column("name", Typed(StrType), false) }
  function AccountOfUser(): Relationship { Relationship("Account", false, [Column("account_id", Typed(IntType), false)]) }

  function ScenarioTree(): seq<Expr> {
    [Comparison(EqOp, "account.name", Single(StringToken("My Account"))), OrderBy([OrderItem("", "name")])]
  }

  function AccountAlias(): Bound { Bound(Alias(0, "Account"), "name", ColumnAttr(AccountName())) }
  function UserAccount(): Bound { Bound(Root("User"), "account", RelationshipAttr(AccountOfUser())) }
  function UserNameAttr(): Bound { Bound(Root("User"), "name", ColumnAttr(UserName())) }
  function ScenarioCondition(): Clause { Binary(EqOp, AccountAlias(), Str("My Account")) }

  /** `User.account` is the to-one relationship to Account. */
  lemma UserAccountLookup()
    ensures GetAttr(UserAccountSchema(), Root("User"), "account") == Ok(UserAccount())
  {
    var schema := UserAccountSchema();
    assert "User" in schema && "account" in schema["User"];
  }

  /** The aliased Account has its `name` column. */
  lemma AccountNameLookup()
    ensures GetAttr(UserAccountSchema(), Alias(0, "Account"), "name") == Ok(AccountAlias())
  {
    var schema := UserAccountSchema();
    assert "Account" in schema && "name" in schema["Account"];
  }

  /** Walking `account`, `name` from User passes through the account relationship. */
  lemma ScenarioWalk()
    ensures Walk(UserAccountSchema(), Root("User"), ["account", "name"], InitialState())
      == Step(State([JoinExpression(Alias(0, "Account"), UserAccount(), false)], 1), Ok(AccountAlias()))
  {
    var schema := UserAccountSchema();
    var parts := ["account", "name"];
    UserAccountLookup();
    AccountNameLookup();
    var st1 := State([JoinExpression(Alias(0, "Account"), UserAccount(), false)], 1);
    assert !AnyNullable(AccountOfUser().localColumns);
    assert Through(InitialState(), UserAccount()) == st1;
    assert parts[1..] == ["name"];
    assert Walk(schema, Alias(0, "Account"), ["name"], st1) == Step(st1, Ok(AccountAlias()));
  }

  /** `account.name` resolves to the account alias's name, recording one inner join. */
  lemma ScenarioResolves()
    ensures ResolveProperty(UserAccountSchema(), "User", Builder.NoHooks(), InitialState(), "account.name")
      == Step(State([JoinExpression(Alias(0, "Account"), UserAccount(), false)], 1), Ok(AccountAlias()))
  {
    ScenarioSplits();
    ScenarioWalk();
  }

  lemma ScenarioSplits()
    ensures Split("account.name", '.') == ["account", "name"]
  {
    var parts := ["account", "name"];
    assert '.' !in parts[0] && '.' !in parts[1];
    SplitJoin(parts, '.');
    assert parts[1..] == ["name"];
    assert Strings.Join(parts[1..], ".") == "name";
    assert Strings.Join(parts, ".") == "account" + "." + "name";
    assert "account" + "." + "name" == "account.name";
  }

  /** The comparison `eq(account.name,My Account)` becomes a filter on the alias, recording the join. */
  lemma ScenarioComparison()
    ensures var alg := Builder.AlgebraOf(BackendFor(UserAccountSchema(), "User", Builder.NoHooks()));
      TransformExpr(alg, InitialState(), ScenarioTree()[0])
      == Step(State([JoinExpression(Alias(0, "Account"), UserAccount(), false)], 1), Ok(FilterExpression(ScenarioCondition())))
  {
    var schema := UserAccountSchema();
    var h := Builder.NoHooks();
    var b := BackendFor(schema, "User", h);
    var st1 := State([JoinExpression(Alias(0, "Account"), UserAccount(), false)], 1);
    var v := Str("My Account");
    assert Coerce(Single(StringToken("My Account"))) == v;
    ScenarioResolves();
    assert Compare(EqOp, AccountAlias(), v) == Ok(ScenarioCondition());
    assert Apply(schema, "User", h, InitialState(), EqOp, "account.name", v) == Step(st1, Ok(ScenarioCondition()));
    assert Builder.ApplyOperator(b, InitialState(), EqOp, "account.name", v) == Step(st1, Ok(ScenarioCondition()));
  }

  /** The transformer turns the scenario into one filter and one order-by, keeping the join. */
  lemma ScenarioTransforms()
    ensures var alg := Builder.AlgebraOf(BackendFor(UserAccountSchema(), "User", Builder.NoHooks()));
      TransformList(alg, InitialState(), ScenarioTree())
      == Step(State([JoinExpression(Alias(0, "Account"), UserAccount(), false)], 1),
              Ok([FilterExpression(ScenarioCondition()), OrderByExpression([OrderField("", "name")])]))
  {
    var alg := Builder.AlgebraOf(BackendFor(UserAccountSchema(), "User", Builder.NoHooks()));
    var st1 := State([JoinExpression(Alias(0, "Account"), UserAccount(), false)], 1);
    var tree := ScenarioTree();
    var fields := [OrderField("", "name")];
    ScenarioComparison();
    assert OrderFields([OrderItem("", "name")]) == fields;
    OrderByTransforms(alg, st1, [OrderItem("", "name")]);
    TransformPair(alg, InitialState(), tree[0], tree[1], st1, FilterExpression(ScenarioCondition()), st1, OrderByExpression(fields));
    assert tree == [tree[0], tree[1]];
  }

  /** A top-level `order_by` clause becomes its order-by expression with no operator call, in any algebra. */
  lemma OrderByTransforms<S, C>(alg: Algebra<S, C>, s: S, items: seq<OrderItem>)
    ensures TransformExpr(alg, s, OrderBy(items)) == Step(s, Ok(OrderByExpression(OrderFields(items))))
  {
  }

  /** Two sibling nodes that both succeed, threaded left to right. */
  lemma TransformPair<S, C>(alg: Algebra<S, C>, s: S, e1: Expr, e2: Expr, s1: S, x1: Expression<C>, s2: S, x2: Expression<C>)
    requires TransformExpr(alg, s, e1) == Step(s1, Ok(x1))
    requires TransformExpr(alg, s1, e2) == Step(s2, Ok(x2))
    ensures TransformList(alg, s, [e1, e2]) == Step(s2, Ok([x1, x2]))
  {
    assert [e1, e2][1..] == [e2];
    assert [e2][1..] == [];
    assert TransformList(alg, s2, []) == Step(s2, Ok([]));
    assert [x2] + [] == [x2];
    assert TransformList(alg, s1, [e2]) == Step(s2, Ok([x2]));
    assert [x1] + [x2] == [x1, x2];
  }

  /** `name` resolves to the user's own name column, from any state, recording nothing. */
  lemma ScenarioOrderResolves(st: State)
    ensures ResolveProperty(UserAccountSchema(), "User", Builder.NoHooks(), st, "name") == Step(st, Ok(UserNameAttr()))
  {
    assert Builder.ResolveAlias(Builder.NoHooks(), "name") == Ok("name");
    assert '.' !in "name";
    assert Split("name", '.') == ["name"];
    assert GetAttr(UserAccountSchema(), Root("User"), "name") == Ok(UserNameAttr());
  }

  /** Folding the scenario's expressions: the filter, then the order term on the user's name. */
  lemma ScenarioFolds(st: State)
    ensures Builder.Fold(BackendFor(UserAccountSchema(), "User", Builder.NoHooks()), st, Select("User", [], [], []),
              [FilterExpression(ScenarioCondition()), OrderByExpression([OrderField("", "name")])])
      == Step(st, Ok(Select("User", [ScenarioCondition()], [], [OrderTerm(UserNameAttr(), false)])))
  {
    var schema := UserAccountSchema();
    var h := Builder.NoHooks();
    var b := BackendFor(schema, "User", h);
    var xs := [FilterExpression(ScenarioCondition()), OrderByExpression([OrderField("", "name")])];
    var fields := [OrderField("", "name")];
    var q0 := Select("User", [], [], []);
    var q1 := Select("User", [ScenarioCondition()], [], []);
    assert xs[..1][..0] == [];
    assert Builder.Fold(b, st, q0, []) == Step(st, Ok(q0));
    assert b.applyFilter(q0, ScenarioCondition()) == q1;
    assert Builder.ApplyExpression(b, st, q0, xs[..1][0]) == Step(st, Ok(q1));
    assert Builder.Fold(b, st, q0, xs[..1]) == Step(st, Ok(q1));
    ScenarioOrderResolves(st);
    assert fields[..0] == [];
    assert OrderTerms(schema, "User", h, st, []) == Step(st, Ok([]));
    assert [] + [OrderTerm(UserNameAttr(), false)] == [OrderTerm(UserNameAttr(), false)];
    assert OrderTerms(schema, "User", h, st, fields) == Step(st, Ok([OrderTerm(UserNameAttr(), false)]));
    var q2 := Select("User", [ScenarioCondition()], [], [OrderTerm(UserNameAttr(), false)]);
    assert Builder.CheckOrdering(h, fields) == Ok(());
    assert b.applyOrderBy(st, q1, fields) == Step(st, Ok(q2));
    assert xs[..2][..1] == xs[..1] && xs[..2] == xs;
    assert Builder.ApplyExpression(b, st, q1, xs[1]) == Step(st, Ok(q2));
  }

  /**
   * `eq(account.name,My Account)&order_by(name)` on users, without rule
   * callbacks: one filter on the aliased account's name, one ascending
   * order term on the user's name, and exactly one inner join to the
   * account alias, applied after both.
   */
  lemma ManyToOneScenario()
    ensures Builder.BuildQuerySpec(BackendFor(UserAccountSchema(), "User", Builder.NoHooks()), InitialState(), ScenarioTree(), None).result
      == Ok(Select("User", [ScenarioCondition()], [(Alias(0, "Account"), UserAccount(), false)], [OrderTerm(UserNameAttr(), false)]))
  {
    var b := BackendFor(UserAccountSchema(), "User", Builder.NoHooks());
    var st1 := State([JoinExpression(Alias(0, "Account"), UserAccount(), false)], 1);
    var q2 := Select("User", [ScenarioCondition()], [], [OrderTerm(UserNameAttr(), false)]);
    ScenarioTransforms();
    ScenarioFolds(st1);
    var joined := ApplyJoinsSpec(st1, q2);
    assert joined.joins == [(Alias(0, "Account"), UserAccount(), false)];
    assert b.applyJoins(st1, q2) == joined;
    assert b.initialQuery == Select("User", [], [], []);
  }
}
