/**
 * The Django builder (builders/django.py): conditions are `Q` objects,
 * property paths are rewritten from dots to `__` lookups, LIKE patterns
 * are classified by their wildcards, and the query set is a record of the
 * calls made on it. The builder keeps no state of its own.
 */
module Django {
  import opened Wrappers
  import opened Dataclasses
  import opened Errors
  import opened Strings
  import opened Transformer
  import Builder

  /** A Django model: its name and each field's `get_internal_type()`. */
  datatype Model = Model(name: string, fields: map<string, string>)

  /** `get_field_type`: six internal types map to Python types; a missing field is an AttributeError. */
  function GetFieldType(m: Model, field: string): (r: Result<PyType, Error>)
    ensures field !in m.fields <==> r == Err(AttributeMissing(field))
    ensures field in m.fields ==>
      match m.fields[field]
      case "CharField" => r == Ok(StrType)
      case "DateTimeField" => r == Ok(DateTimeType)
      case "DateField" => r == Ok(DateType)
      case "IntegerField" => r == Ok(IntType)
      case "FloatField" => r == Ok(FloatType)
      case "BooleanField" => r == Ok(BoolType)
      case other => r == Err(UnsupportedFieldType(other))
    ensures r.Ok? ==> !r.value.EnumType? && !r.value.OtherType?
  {
    if field !in m.fields then Err(AttributeMissing(field))
    else
      var internal := m.fields[field];
      if internal == "CharField" then Ok(StrType)
      else if internal == "DateTimeField" then Ok(DateTimeType)
      else if internal == "DateField" then Ok(DateType)
      else if internal == "IntegerField" then Ok(IntType)
      else if internal == "FloatField" then Ok(FloatType)
      else if internal == "BooleanField" then Ok(BoolType)
      else Err(UnsupportedFieldType(internal))
  }

  /** A `Q` object: empty, one lookup, or negations and combinations of them. */
  datatype Q = QEmpty | Leaf(lookup: string, value: Value) | QNot(q: Q) | QAnd(left: Q, right: Q) | QOr(left: Q, right: Q)

  /** A condition: a `Q`, or the `PrefetchExpression` that `apply_any` returns. */
  datatype Condition = QCondition(q: Q) | Prefetch(relationshipName: string, condition: Condition)

  /** The query set, as the sequence of calls made on `objects.all()`. */
  datatype QuerySet =
    | AllObjects(model: string)
    | FilterCall(base: QuerySet, condition: Condition)
    | PrefetchCall(base: QuerySet, relationship: string)
    | OrderByCall(base: QuerySet, fields: seq<string>)

  /** `&` and `|` on Q: an empty operand leaves the other one. */
  function Combine(a: Q, b: Q, conjunction: bool): (r: Q)
    ensures a == QEmpty ==> r == b
    ensures b == QEmpty ==> r == a
  {
    if a == QEmpty then b
    else if b == QEmpty then a
    else if conjunction then QAnd(a, b) else QOr(a, b)
  }

  /**
   * When a Q holds for a row, given which single lookups hold: the empty
   * Q holds everywhere. Two-valued: SQL's three-valued NULL logic is not
   * modelled.
   */
  predicate Holds(q: Q, row: (string, Value) -> bool) {
    match q
    case QEmpty => true
    case Leaf(k, v) => row(k, v)
    case QNot(p) => !Holds(p, row)
    case QAnd(l, r) => Holds(l, row) && Holds(r, row)
    case QOr(l, r) => Holds(l, row) || Holds(r, row)
  }

  /** Folding `&=` (or `|=`) over the conditions, starting from `Q()`. */
  function Fold(cs: seq<Condition>, conjunction: bool): (r: Result<Q, Error>)
    ensures r.Ok? <==> forall i :: 0 <= i < |cs| ==> cs[i].QCondition?
    ensures r.Err? ==> r.error == NotCombinable
    decreases |cs|
  {
    if |cs| == 0 then Ok(QEmpty)
    else match Fold(cs[..|cs| - 1], conjunction)
      case Err(e) => Err(e)
      case Ok(q) =>
        if cs[|cs| - 1].Prefetch? then Err(NotCombinable)
        else Ok(Combine(q, cs[|cs| - 1].q, conjunction))
  }

  /** None of the conditions is the empty Q (no `apply_*` produces one). */
  predicate NonEmptyQs(cs: seq<Condition>) {
    forall i :: 0 <= i < |cs| ==> cs[i].QCondition? && cs[i].q != QEmpty
  }

  /** `apply_and` holds exactly where every condition holds. */
  lemma {:induction false} AndHoldsIffAll(cs: seq<Condition>, row: (string, Value) -> bool)
    requires NonEmptyQs(cs)
    ensures Fold(cs, true).Ok?
    ensures Holds(Fold(cs, true).value, row) <==> forall i :: 0 <= i < |cs| ==> Holds(cs[i].q, row)
    decreases |cs|
  {
    if |cs| > 0 {
      var init := cs[..|cs| - 1];
      AndHoldsIffAll(init, row);
      assert forall i :: 0 <= i < |init| ==> init[i] == cs[i];
    }
  }

  /** `apply_or` over at least one condition holds exactly where some condition holds. */
  lemma {:induction false} OrHoldsIffSome(cs: seq<Condition>, row: (string, Value) -> bool)
    requires NonEmptyQs(cs)
    ensures Fold(cs, false).Ok?
    ensures |cs| > 0 ==> (Holds(Fold(cs, false).value, row) <==> exists i :: 0 <= i < |cs| && Holds(cs[i].q, row))
    ensures |cs| == 0 ==> Fold(cs, false).value == QEmpty
    decreases |cs|
  {
    if |cs| > 0 {
      var init := cs[..|cs| - 1];
      OrHoldsIffSome(init, row);
      assert forall i :: 0 <= i < |init| ==> init[i] == cs[i];
      if |init| > 0 {
        assert Fold(init, false).value != QEmpty by {
          NonEmptyFold(init, false);
        }
      }
    }
  }

  lemma {:induction false} NonEmptyFold(cs: seq<Condition>, conjunction: bool)
    requires NonEmptyQs(cs) && |cs| > 0
    ensures Fold(cs, conjunction).Ok? && Fold(cs, conjunction).value != QEmpty
    decreases |cs|
  {
    if |cs| > 1 {
      NonEmptyFold(cs[..|cs| - 1], conjunction);
    }
  }

  /** The loops of `apply_and` (`conjunction`) and `apply_or`. */
  method ApplyFold(cs: seq<Condition>, conjunction: bool) returns (r: Result<Q, Error>)
    ensures r == Fold(cs, conjunction)
  {
    var query := QEmpty;
    var i := 0;
    while i < |cs|
      invariant 0 <= i <= |cs|
      invariant Fold(cs[..i], conjunction) == Ok(query)
    {
      assert cs[..i + 1][..i] == cs[..i];
      if cs[i].Prefetch? {
        FoldStaysFailed(cs, conjunction, i + 1);
        return Err(NotCombinable);
      }
      query := Combine(query, cs[i].q, conjunction);
      i := i + 1;
    }
    assert cs[..i] == cs;
    return Ok(query);
  }

  lemma {:induction false} FoldStaysFailed(cs: seq<Condition>, conjunction: bool, k: nat)
    requires k <= |cs| && Fold(cs[..k], conjunction).Err?
    ensures Fold(cs, conjunction).Err?
  {
    assert forall i :: 0 <= i < k ==> cs[..k][i] == cs[i];
  }

  /** `apply_and`, `apply_or` and `apply_not`; `~` is defined on Q only and takes exactly one operand. */
  function Logical(op: LogicalOp, cs: seq<Condition>): (r: Result<Condition, Error>)
    ensures op == NotOp ==> (r.Ok? <==> |cs| == 1 && cs[0].QCondition?)
    ensures op == NotOp && |cs| == 1 && cs[0].QCondition? ==> r == Ok(QCondition(QNot(cs[0].q)))
    ensures op != NotOp ==> (r.Ok? <==> forall i :: 0 <= i < |cs| ==> cs[i].QCondition?)
  {
    match op
    case AndOp => (match Fold(cs, true) case Err(e) => Err(e) case Ok(q) => Ok(QCondition(q)))
    case OrOp => (match Fold(cs, false) case Err(e) => Err(e) case Ok(q) => Ok(QCondition(q)))
    case NotOp =>
      if |cs| != 1 then Err(WrongArity(|cs|))
      else if cs[0].Prefetch? then Err(NotCombinable)
      else Ok(QCondition(QNot(cs[0].q)))
  }

  /** `resolve_property`: the resolved alias with every dot replaced by `__`. */
  function ResolveProperty(h: Builder.Hooks, path: string): (r: Result<string, Error>)
    ensures r.Ok? <==> Builder.ResolveAlias(h, path).Ok?
    ensures r.Ok? ==> '.' !in r.value
    ensures r.Ok? ==> r.value == Replace(Builder.ResolveAlias(h, path).value, '.', "__")
  {
    match Builder.ResolveAlias(h, path)
    case Err(e) => Err(e)
    case Ok(p) => Ok(Replace(p, '.', "__"))
  }

  /** A dotted path of dot-free segments becomes the same segments joined by `__`. */
  lemma {:induction false} DotsBecomeLookups(segments: seq<string>)
    requires forall k :: 0 <= k < |segments| ==> '.' !in segments[k]
    ensures Replace(Join(segments, "."), '.', "__") == Join(segments, "__")
  {
    if |segments| == 1 {
      ReplaceAbsent(segments[0], '.', "__");
    } else if |segments| > 1 {
      var rest := segments[1..];
      DotsBecomeLookups(rest);
      ReplaceConcat(segments[0] + ".", Join(rest, "."), '.', "__");
      ReplaceConcat(segments[0], ".", '.', "__");
      ReplaceAbsent(segments[0], '.', "__");
      assert Replace(".", '.', "__") == "__";
      assert Join(segments, ".") == segments[0] + "." + Join(rest, ".");
    }
  }

  /** Where the wildcards of a LIKE pattern stand. */
  datatype Wildcards = BothEnds | LeadingOnly | TrailingOnly | NoWildcard

  function WildcardsOf(value: string): (w: Wildcards)
    ensures w == BothEnds <==> StartsWith(value, "*") && EndsWith(value, "*")
    ensures w == LeadingOnly <==> StartsWith(value, "*") && !EndsWith(value, "*")
    ensures w == TrailingOnly <==> !StartsWith(value, "*") && EndsWith(value, "*")
    ensures w == NoWildcard <==> !StartsWith(value, "*") && !EndsWith(value, "*")
  {
    if StartsWith(value, "*") && EndsWith(value, "*") then BothEnds
    else if StartsWith(value, "*") then LeadingOnly
    else if EndsWith(value, "*") then TrailingOnly
    else NoWildcard
  }

  /** The lookup a LIKE pattern becomes: contains, endswith, startswith, or contains for no wildcard. */
  function LikeLookup(w: Wildcards): string {
    match w
    case BothEnds => "contains"
    case LeadingOnly => "endswith"
    case TrailingOnly => "startswith"
    case NoWildcard => "contains"
  }

  /** The operand a LIKE pattern becomes: the pattern without the wildcards its class names. */
  function LikeOperand(value: string): (r: string)
    ensures WildcardsOf(value) == BothEnds && value != "*" ==> "*" + r + "*" == value
    ensures WildcardsOf(value) == BothEnds && value == "*" ==> r == ""
    ensures WildcardsOf(value) == LeadingOnly ==> "*" + r == value
    ensures WildcardsOf(value) == TrailingOnly ==> r + "*" == value
    ensures WildcardsOf(value) == NoWildcard ==> r == value
  {
    match WildcardsOf(value)
    case BothEnds => Inner(value)
    case LeadingOnly => DropFirst(value)
    case TrailingOnly => DropLast(value)
    case NoWildcard => value
  }

  /** The Q built for LIKE (`insensitive` picks the `i`-lookups of ILIKE) on a resolved property. */
  function Like(property: string, value: string, insensitive: bool): (q: Q)
    ensures q.Leaf? && q.value == Str(LikeOperand(value))
    ensures q.lookup == property + "__" + (if insensitive then "i" else "") + LikeLookup(WildcardsOf(value))
  {
    Leaf(property + "__" + (if insensitive then "i" else "") + LikeLookup(WildcardsOf(value)), Str(LikeOperand(value)))
  }

  /** ILIKE differs from LIKE only by the `i` in front of the lookup. */
  lemma IlikeIsCaseInsensitiveLike(property: string, value: string)
    ensures Like(property, value, true).value == Like(property, value, false).value
    ensures Like(property, value, true).lookup == property + "__i" + LikeLookup(WildcardsOf(value))
    ensures Like(property, value, false).lookup == property + "__" + LikeLookup(WildcardsOf(value))
  {
  }

  /** The Q a comparison builds on a resolved property (`apply_eq` … `apply_out`). */
  function Compare(op: ComparisonOp, p: string, v: Value): (r: Result<Q, Error>)
    ensures r.Ok? <==> (op != LikeOp && op != IlikeOp) || v.Str?
    ensures r.Err? ==> r.error == NotAString
    ensures r.Ok? ==> r.value != QEmpty
  {
    match op
    case EqOp => Ok(if v.Null? then Leaf(p + "__isnull", Bool(true)) else Leaf(p, v))
    case NeOp => Ok(if v.Null? then Leaf(p + "__isnull", Bool(false)) else QNot(Leaf(p, v)))
    case GtOp => Ok(Leaf(p + "__gt", v))
    case LtOp => Ok(Leaf(p + "__lt", v))
    case GteOp => Ok(Leaf(p + "__gte", v))
    case LteOp => Ok(Leaf(p + "__lte", v))
    case InOp => Ok(Leaf(p + "__in", v))
    case OutOp => Ok(QNot(Leaf(p + "__in", v)))
    case LikeOp => if v.Str? then Ok(Like(p, v.s, false)) else Err(NotAString)
    case IlikeOp => if v.Str? then Ok(Like(p, v.s, true)) else Err(NotAString)
  }

  /**
   * `apply_<op>`: LIKE and ILIKE inspect the value before resolving the
   * property, so a non-string pattern raises first; the others resolve
   * first.
   */
  function Apply(h: Builder.Hooks, op: ComparisonOp, prop: string, v: Value): (r: Result<Condition, Error>)
    ensures (op == LikeOp || op == IlikeOp) && !v.Str? ==> r == Err(NotAString)
    ensures ((op != LikeOp && op != IlikeOp) || v.Str?) ==>
      (r.Ok? <==> ResolveProperty(h, prop).Ok?)
    ensures r.Ok? ==> r == Ok(QCondition(Compare(op, ResolveProperty(h, prop).value, v).value))
    ensures r.Ok? ==> r.value.q != QEmpty
  {
    if (op == LikeOp || op == IlikeOp) && !v.Str? then Err(NotAString)
    else match ResolveProperty(h, prop)
      case Err(e) => Err(e)
      case Ok(p) => Ok(QCondition(Compare(op, p, v).value))
  }

  /** Django answers `__isnull` consistently: false exactly where true fails. */
  ghost predicate IsNullConsistent(row: (string, Value) -> bool) {
    forall k :: row(k + "__isnull", Bool(false)) == !row(k + "__isnull", Bool(true))
  }

  /**
   * Each negated operator is the complement of its positive one: `ne` of
   * `eq` (null included, given a consistent `__isnull`), `out` of `in`.
   */
  lemma NegationsComplement(p: string, v: Value, row: (string, Value) -> bool)
    requires IsNullConsistent(row)
    ensures Holds(Compare(NeOp, p, v).value, row) == !Holds(Compare(EqOp, p, v).value, row)
    ensures Holds(Compare(OutOp, p, v).value, row) == !Holds(Compare(InOp, p, v).value, row)
  {
  }

  /** `eq` and `ne` test nullity, rather than comparing with null, exactly for `null()`. */
  lemma NullTests(p: string, v: Value)
    ensures v.Null? <==> Compare(EqOp, p, v).value == Leaf(p + "__isnull", Bool(true))
    ensures v.Null? <==> Compare(NeOp, p, v).value == Leaf(p + "__isnull", Bool(false))
  {
    if !v.Null? {
      assert |p + "__isnull"| > |p|;
    }
  }

  /** `apply_filter`: a prefetch condition adds `prefetch_related` before filtering on the inner condition. */
  function ApplyFilter(qs: QuerySet, c: Condition): (r: QuerySet)
    ensures c.QCondition? ==> r == FilterCall(qs, c)
    ensures c.Prefetch? ==> r == FilterCall(PrefetchCall(qs, c.relationshipName), c.condition)
  {
    match c
    case QCondition(_) => FilterCall(qs, c)
    case Prefetch(name, inner) => FilterCall(PrefetchCall(qs, name), inner)
  }

  /** The order keys for the first |fields| fields: the resolved property, `-`-prefixed when descending. */
  function OrderKeys(h: Builder.Hooks, fields: seq<OrderField>): (r: Result<seq<string>, Error>)
    ensures r.Ok? <==> forall i :: 0 <= i < |fields| ==> ResolveProperty(h, fields[i].fieldPath).Ok?
    ensures r.Ok? ==> |r.value| == |fields|
    ensures r.Ok? ==> forall i :: 0 <= i < |fields| ==>
      r.value[i] == (if fields[i].direction == "-" then "-" else "") + ResolveProperty(h, fields[i].fieldPath).value
    decreases |fields|
  {
    if |fields| == 0 then Ok([])
    else match OrderKeys(h, fields[..|fields| - 1])
      case Err(e) => Err(e)
      case Ok(keys) =>
        var f := fields[|fields| - 1];
        match ResolveProperty(h, f.fieldPath)
        case Err(e) => Err(e)
        case Ok(p) => Ok(keys + [if f.direction == "-" then "-" + p else p])
  }

  /** `apply_order_by`'s loop, then one `order_by` call with every key in order. */
  method ApplyOrderBy(h: Builder.Hooks, qs: QuerySet, fields: seq<OrderField>) returns (r: Result<QuerySet, Error>)
    ensures OrderKeys(h, fields).Err? ==> r == Err(OrderKeys(h, fields).error)
    ensures OrderKeys(h, fields).Ok? ==> r == Ok(OrderByCall(qs, OrderKeys(h, fields).value))
  {
    var keys: seq<string> := [];
    var i := 0;
    while i < |fields|
      invariant 0 <= i <= |fields|
      invariant OrderKeys(h, fields[..i]) == Ok(keys)
    {
      assert fields[..i + 1][..i] == fields[..i];
      var p := ResolveProperty(h, fields[i].fieldPath);
      if p.Err? {
        OrderKeysStayFailed(h, fields, i + 1);
        return Err(p.error);
      }
      var key := p.value;
      if fields[i].direction == "-" {
        key := "-" + key;
      }
      keys := keys + [key];
      i := i + 1;
    }
    assert fields[..i] == fields;
    return Ok(OrderByCall(qs, keys));
  }

  /** The first field that fails to resolve is the error the whole order-by raises. */
  lemma {:induction false} OrderKeysStayFailed(h: Builder.Hooks, fields: seq<OrderField>, k: nat)
    requires k <= |fields| && OrderKeys(h, fields[..k]).Err?
    ensures OrderKeys(h, fields) == OrderKeys(h, fields[..k])
    decreases |fields| - k
  {
    if k < |fields| {
      assert fields[..k + 1][..k] == fields[..k];
      OrderKeysStayFailed(h, fields, k + 1);
    } else {
      assert fields[..k] == fields;
    }
  }

  /** The order-by as the builder applies it. */
  function OrderBy(h: Builder.Hooks, qs: QuerySet, fields: seq<OrderField>): (r: Result<QuerySet, Error>)
    ensures r.Ok? <==> OrderKeys(h, fields).Ok?
    ensures r.Ok? ==> r.value == OrderByCall(qs, OrderKeys(h, fields).value)
    ensures r.Err? ==> r.error == OrderKeys(h, fields).error
  {
    match OrderKeys(h, fields)
    case Err(e) => Err(e)
    case Ok(keys) => Ok(OrderByCall(qs, keys))
  }

  /** A Django builder for `m` with the given callbacks; it keeps no state (`()`). */
  function BackendFor(m: Model, h: Builder.Hooks): (b: Builder.Backend<(), Condition, QuerySet>)
    ensures b.hooks == h && b.initialQuery == AllObjects(m.name)
    ensures forall q :: b.applyJoins((), q) == q
  {
    Builder.Backend(
      h, AllObjects(m.name), Logical,
      (s: (), op: ComparisonOp, p: string, v: Value) => Step(s, Apply(h, op, p, v)),
      (s: (), rel: string, c: Condition) => Step(s, Ok(Prefetch(rel, c))),
      ApplyFilter,
      (s: (), qs: QuerySet, fs: seq<OrderField>) => Step(s, OrderBy(h, qs, fs)),
      (s: (), qs: QuerySet) => qs)
  }
}
