/**
 * The rule engine of rules.py: field and relationship rules, alias
 * resolution through relationship prefixes, the operator and ordering
 * checks installed as builder callbacks, the validation a rule set runs
 * on instantiation, and the metaclass's harvesting of rules from a class
 * and its bases.
 */
module Rules {
  import opened Wrappers
  import opened Dataclasses
  import opened Errors
  import opened Strings
  import Builder

  /** `FieldRule`: `None` operators mean "infer from the field's type". */
  datatype FieldRule = FieldRule(allowedOperators: Option<set<Operator>>, alias: Option<string>, allowOrdering: bool)

  /** `FieldRule()` with every default. */
  function DefaultRule(): FieldRule {
    FieldRule(None, None, true)
  }

  /** A rule set's `_fields` and `_relations`, in dictionary order. */
  datatype RuleSet = RuleSet(fields: seq<(string, FieldRule)>, relations: seq<(string, RelationshipRule)>)

  /** `RelationshipRule`: an alias prefix and the rule set of the related model. */
  datatype RelationshipRule = RelationshipRule(alias: string, rules: RuleSet)

  /** The test in `_get_field_by_alias`'s first loop. */
  predicate Matches(entry: (string, FieldRule), alias: string) {
    entry.1.alias == Some(alias) || entry.0 == alias
  }

  /** The position of the first local field that answers to `alias`. */
  function FirstMatch(fields: seq<(string, FieldRule)>, alias: string): (r: Option<nat>)
    ensures r.Some? ==> r.value < |fields| && Matches(fields[r.value], alias)
    ensures r.Some? ==> forall j :: 0 <= j < r.value ==> !Matches(fields[j], alias)
    ensures r.None? <==> forall j :: 0 <= j < |fields| ==> !Matches(fields[j], alias)
  {
    if |fields| == 0 then None
    else if Matches(fields[0], alias) then Some(0)
    else match FirstMatch(fields[1..], alias)
      case None => None
      case Some(i) => Some(i + 1)
  }

  /**
   * Whether a relation aliased `relAlias` is a candidate for `alias`. As
   * written (`atSegment` false) its alias need only be a string prefix;
   * at a segment boundary (`atSegment` true) the prefix must be followed by
   * the dot that the lookup then drops.
   */
  predicate Selects(relAlias: string, alias: string, atSegment: bool) {
    if atSegment then StartsWith(alias, relAlias + ".") else StartsWith(alias, relAlias)
  }

  /** The positions of the relations that are candidates for `alias`, in order. */
  function PrefixRelations(rels: seq<(string, RelationshipRule)>, alias: string, atSegment: bool): (r: seq<nat>)
    ensures forall k :: 0 <= k < |r| ==> r[k] < |rels| && Selects(rels[r[k]].1.alias, alias, atSegment)
    ensures forall i :: 0 <= i < |rels| && Selects(rels[i].1.alias, alias, atSegment) ==> i in r
    ensures forall k, l :: 0 <= k < l < |r| ==> r[k] < r[l]
    decreases |rels|
  {
    if |rels| == 0 then []
    else
      var init := PrefixRelations(rels[..|rels| - 1], alias, atSegment);
      if Selects(rels[|rels| - 1].1.alias, alias, atSegment) then init + [|rels| - 1] else init
  }

  /** `_get_relation_by_alias`: exactly one relation must be a candidate. */
  function RelationByAlias(rels: seq<(string, RelationshipRule)>, alias: string, atSegment: bool): (r: Result<nat, Error>)
    ensures r.Ok? ==> r.value < |rels| && Selects(rels[r.value].1.alias, alias, atSegment)
    ensures r.Ok? ==> forall i :: 0 <= i < |rels| && i != r.value ==> !Selects(rels[i].1.alias, alias, atSegment)
    ensures r == Err(RelationNotFound(alias)) <==> forall i :: 0 <= i < |rels| ==> !Selects(rels[i].1.alias, alias, atSegment)
    ensures r == Err(MultipleRelations(alias)) <==>
      exists i, j :: 0 <= i < j < |rels| && Selects(rels[i].1.alias, alias, atSegment) && Selects(rels[j].1.alias, alias, atSegment)
    ensures r.Err? ==> r == Err(RelationNotFound(alias)) || r == Err(MultipleRelations(alias))
  {
    var m := PrefixRelations(rels, alias, atSegment);
    if |m| == 0 then Err(RelationNotFound(alias))
    else if |m| > 1 then
      assert Selects(rels[m[0]].1.alias, alias, atSegment) && Selects(rels[m[1]].1.alias, alias, atSegment);
      Err(MultipleRelations(alias))
    else
      assert forall i :: 0 <= i < |rels| && Selects(rels[i].1.alias, alias, atSegment) ==> i == m[0];
      Ok(m[0])
  }

  /**
   * `_get_field_by_alias`: a local field by alias or name first; otherwise
   * the one candidate relation, searched with its alias prefix and one more
   * character removed, the result prefixed with the relation's name and a
   * dot.
   */
  function FieldByAlias(rs: RuleSet, alias: string, atSegment: bool): (r: Result<(string, FieldRule), Error>)
    ensures r.Err? ==> r.error.RelationNotFound? || r.error.MultipleRelations?
    decreases rs
  {
    match FirstMatch(rs.fields, alias)
    case Some(i) => Ok(rs.fields[i])
    case None =>
      match RelationByAlias(rs.relations, alias, atSegment)
      case Err(e) => Err(e)
      case Ok(k) =>
        var (name, rel) := rs.relations[k];
        match FieldByAlias(rel.rules, DropFirst(RemovePrefix(alias, rel.alias)), atSegment)
        case Err(e) => Err(e)
        case Ok((n, f)) => Ok((name + "." + n, f))
  }

  /** The lookup the rule callbacks use: `_get_field_by_alias` as written, relations selected by a bare prefix. */
  function Lookup(rs: RuleSet, alias: string): (r: Result<(string, FieldRule), Error>)
    ensures r.Ok? ==> Declared(rs, r.value.0, r.value.1)
    ensures r.Err? ==> r.error.RelationNotFound? || r.error.MultipleRelations?
  {
    if FieldByAlias(rs, alias, false).Err? then FieldByAlias(rs, alias, false)
    else ResolvedPathIsDeclared(rs, alias, false); FieldByAlias(rs, alias, false)
  }

  /** `path` names a declared field with rule `f`: a local name, or a relation name, a dot and a path below it. */
  predicate Declared(rs: RuleSet, path: string, f: FieldRule)
    decreases rs
  {
    (exists i :: 0 <= i < |rs.fields| && rs.fields[i] == (path, f))
    || (exists k :: 0 <= k < |rs.relations| && rs.relations[k].0 + "." <= path
          && Declared(rs.relations[k].1.rules, path[|rs.relations[k].0| + 1..], f))
  }

  /** Resolution is sound: what an alias resolves to is a declared field path and its rule. */
  lemma {:induction false} ResolvedPathIsDeclared(rs: RuleSet, alias: string, atSegment: bool)
    requires FieldByAlias(rs, alias, atSegment).Ok?
    ensures Declared(rs, FieldByAlias(rs, alias, atSegment).value.0, FieldByAlias(rs, alias, atSegment).value.1)
    decreases rs
  {
    match FirstMatch(rs.fields, alias)
    case Some(i) =>
    case None =>
      var k := RelationByAlias(rs.relations, alias, atSegment).value;
      var (name, rel) := rs.relations[k];
      var rest := DropFirst(RemovePrefix(alias, rel.alias));
      ResolvedPathIsDeclared(rel.rules, rest, atSegment);
      var (n, f) := FieldByAlias(rel.rules, rest, atSegment).value;
      var path := name + "." + n;
      assert path[|name| + 1..] == n;
      assert rs.relations[k].0 + "." <= path;
  }

  /** A local field is found by its own name unless an earlier field answers to that name. */
  lemma LocalNameResolves(rs: RuleSet, i: nat, atSegment: bool)
    requires i < |rs.fields|
    requires forall j :: 0 <= j < i ==> !Matches(rs.fields[j], rs.fields[i].0)
    ensures FieldByAlias(rs, rs.fields[i].0, atSegment) == Ok(rs.fields[i])
  {
  }

  /** Without a local match, the relation lookup's errors surface unchanged. */
  lemma RelationErrors(rs: RuleSet, alias: string, atSegment: bool)
    requires forall j :: 0 <= j < |rs.fields| ==> !Matches(rs.fields[j], alias)
    ensures (forall i :: 0 <= i < |rs.relations| ==> !Selects(rs.relations[i].1.alias, alias, atSegment))
      ==> FieldByAlias(rs, alias, atSegment) == Err(RelationNotFound(alias))
    ensures (exists i, j :: 0 <= i < j < |rs.relations| && Selects(rs.relations[i].1.alias, alias, atSegment)
                                                   && Selects(rs.relations[j].1.alias, alias, atSegment))
      ==> FieldByAlias(rs, alias, atSegment) == Err(MultipleRelations(alias))
  {
  }

  /** The loop of `_get_relation_by_alias`: the candidates, in order. */
  method CollectCandidates(rels: seq<(string, RelationshipRule)>, alias: string, atSegment: bool) returns (found: seq<nat>)
    ensures found == PrefixRelations(rels, alias, atSegment)
  {
    found := [];
    var k := 0;
    while k < |rels|
      invariant 0 <= k <= |rels|
      invariant found == PrefixRelations(rels[..k], alias, atSegment)
    {
      assert rels[..k + 1][..k] == rels[..k];
      if Selects(rels[k].1.alias, alias, atSegment) {
        found := found + [k];
      }
      k := k + 1;
    }
    assert rels[..k] == rels;
  }

  /** The loops of `_get_field_by_alias` and `_get_relation_by_alias`. */
  method GetFieldByAlias(rs: RuleSet, alias: string, atSegment: bool) returns (r: Result<(string, FieldRule), Error>)
    ensures r == FieldByAlias(rs, alias, atSegment)
    decreases rs
  {
    var i := 0;
    while i < |rs.fields|
      invariant 0 <= i <= |rs.fields|
      invariant forall j :: 0 <= j < i ==> !Matches(rs.fields[j], alias)
    {
      if rs.fields[i].1.alias == Some(alias) || rs.fields[i].0 == alias {
        return Ok(rs.fields[i]);
      }
      i := i + 1;
    }
    assert FirstMatch(rs.fields, alias).None?;
    var found := CollectCandidates(rs.relations, alias, atSegment);
    if |found| == 0 {
      return Err(RelationNotFound(alias));
    }
    if |found| > 1 {
      return Err(MultipleRelations(alias));
    }
    assert RelationByAlias(rs.relations, alias, atSegment) == Ok(found[0]);
    var (name, rel) := rs.relations[found[0]];
    var nested := GetFieldByAlias(rel.rules, DropFirst(RemovePrefix(alias, rel.alias)), atSegment);
    if nested.Err? {
      return Err(nested.error);
    }
    return Ok((name + "." + nested.value.0, nested.value.1));
  }

  /** Two relations, `account` and `accounts`, each aliased by its own name. */
  function AccountAndAccounts(): RuleSet {
    RuleSet([], [
      ("account", RelationshipRule("account", RuleSet([("name", DefaultRule())], []))),
      ("accounts", RelationshipRule("accounts", RuleSet([("name", DefaultRule())], [])))])
  }

  /**
   * As written, `accounts.name` is ambiguous: `account` is a string prefix
   * of it too, so the lookup raises "Multiple relations".
   */
  lemma PrefixWithoutSeparatorIsAmbiguous()
    ensures FieldByAlias(AccountAndAccounts(), "accounts.name", false) == Err(MultipleRelations("accounts.name"))
    ensures ResolveAlias(AccountAndAccounts(), "accounts.name") == Err(MultipleRelations("accounts.name"))
  {
    var rels := AccountAndAccounts().relations;
    assert Selects(rels[0].1.alias, "accounts.name", false);
    assert Selects(rels[1].1.alias, "accounts.name", false);
    RelationErrors(AccountAndAccounts(), "accounts.name", false);
  }

  /** One relation `account`, aliased by its name. */
  function AccountOnly(): RuleSet {
    RuleSet([], [("account", RelationshipRule("account", RuleSet([("name", DefaultRule())], [])))])
  }

  /**
   * As written, any character after the relation alias acts as the
   * separator: `account_name` resolves to `account.name`.
   */
  lemma AnySeparatorResolves()
    ensures Lookup(AccountOnly(), "account_name") == Ok(("account.name", DefaultRule()))
    ensures ResolveAlias(AccountOnly(), "account_name") == Ok("account.name")
  {
    var rs := AccountOnly();
    var rels := rs.relations;
    assert "account_name" == "account" + "_name";
    assert Selects(rels[0].1.alias, "account_name", false);
    assert RelationByAlias(rels, "account_name", false) == Ok(0);
    var nested := RuleSet([("name", DefaultRule())], []);
    assert RemovePrefix("account_name", "account") == "_name";
    assert DropFirst("_name") == "name";
    assert FieldByAlias(nested, "name", false) == Ok(("name", DefaultRule()));
    assert FirstMatch(rs.fields, "account_name").None?;
    assert FieldByAlias(rs, "account_name", false) == Ok(("account" + "." + "name", DefaultRule()));
    assert "account" + "." + "name" == "account.name";
  }

  /** At a segment boundary the same alias resolves to the relation it names. */
  lemma SegmentLookupResolvesAccounts()
    ensures FieldByAlias(AccountAndAccounts(), "accounts.name", true) == Ok(("accounts.name", DefaultRule()))
  {
    var rels := AccountAndAccounts().relations;
    DotFreeAliasesSelectOne(rels, 1, "name");
    assert "accounts" + "." + "name" == "accounts.name";
    var nested := RuleSet([("name", DefaultRule())], []);
    assert RemovePrefix("accounts.name", "accounts") == ".name";
    assert DropFirst(".name") == "name";
    assert FieldByAlias(nested, "name", true) == Ok(("name", DefaultRule()));
  }

  /**
   * At a segment boundary, relation aliases that are distinct and free of
   * dots never clash: `alias.rest` selects exactly the relation `alias`,
   * whatever `rest` is.
   */
  lemma DotFreeAliasesSelectOne(rels: seq<(string, RelationshipRule)>, k: nat, rest: string)
    requires k < |rels|
    requires forall i :: 0 <= i < |rels| ==> '.' !in rels[i].1.alias
    requires forall i, j :: 0 <= i < j < |rels| ==> rels[i].1.alias != rels[j].1.alias
    ensures RelationByAlias(rels, rels[k].1.alias + "." + rest, true) == Ok(k)
  {
    var a := rels[k].1.alias;
    var alias := a + "." + rest;
    assert Selects(a, alias, true) by {
      assert alias[..|a| + 1] == a + ".";
    }
    forall i | 0 <= i < |rels| && Selects(rels[i].1.alias, alias, true)
      ensures i == k
    {
      SegmentPrefixIsTheAlias(rels[i].1.alias, a, rest);
    }
  }

  /** A dot-free `b` followed by a dot prefixes `a.rest`, with `a` dot-free, only when `b` is `a`. */
  lemma SegmentPrefixIsTheAlias(b: string, a: string, rest: string)
    requires '.' !in a && '.' !in b
    requires StartsWith(a + "." + rest, b + ".")
    ensures b == a
  {
    var alias := a + "." + rest;
    IndexOfConcat(a, '.', rest);
    assert alias == b + "." + alias[|b| + 1..];
    IndexOfConcat(b, '.', alias[|b| + 1..]);
    assert b == alias[..|b|] && a == alias[..|a|];
  }

  /** `_resolve_alias`: the internal path an alias stands for. */
  function ResolveAlias(rs: RuleSet, alias: string): (r: Result<string, Error>)
    ensures r.Ok? <==> Lookup(rs, alias).Ok?
    ensures r.Ok? ==> r.value == Lookup(rs, alias).value.0 && exists f :: Declared(rs, r.value, f)
  {
    match Lookup(rs, alias)
    case Err(e) => Err(e)
    case Ok((path, f)) =>
      ResolvedPathIsDeclared(rs, alias, false);
      Ok(path)
  }

  /**
   * The check `_validate_operator_and_field` makes on a lookup's outcome:
   * the field must list the operator; a field whose operators were never
   * set raises TypeError.
   */
  function OperatorCheck(found: Result<(string, FieldRule), Error>, field: string, op: Operator): (r: Result<(), Error>)
    ensures r.Ok? <==> found.Ok? && found.value.1.allowedOperators.Some? && op in found.value.1.allowedOperators.value
    ensures found.Err? ==> r == Err(found.error)
    ensures found.Ok? && found.value.1.allowedOperators.None? ==> r == Err(OperatorsNotSet(field))
    ensures (found.Ok? && found.value.1.allowedOperators.Some? && op !in found.value.1.allowedOperators.value)
      ==> r == Err(OperatorNotAllowed(op, field))
  {
    match found
    case Err(e) => Err(e)
    case Ok((_, f)) =>
      if f.allowedOperators.None? then Err(OperatorsNotSet(field))
      else if op !in f.allowedOperators.value then Err(OperatorNotAllowed(op, field))
      else Ok(())
  }

  /** The check `_validate_ordering` makes on a lookup's outcome. */
  function OrderingCheck(found: Result<(string, FieldRule), Error>, field: string): (r: Result<(), Error>)
    ensures r.Ok? <==> found.Ok? && found.value.1.allowOrdering
    ensures found.Err? ==> r == Err(found.error)
    ensures found.Ok? && !found.value.1.allowOrdering ==> r == Err(OrderingNotAllowed(field))
  {
    match found
    case Err(e) => Err(e)
    case Ok((_, f)) => if f.allowOrdering then Ok(()) else Err(OrderingNotAllowed(field))
  }

  /** `_validate_operator_and_field` on this rule set. */
  function ValidateOperatorAndField(rs: RuleSet, field: string, op: Operator): (r: Result<(), Error>)
    ensures r.Ok? <==> Lookup(rs, field).Ok? && Lookup(rs, field).value.1.allowedOperators.Some?
                       && op in Lookup(rs, field).value.1.allowedOperators.value
    ensures r.Ok? ==> Declared(rs, Lookup(rs, field).value.0, Lookup(rs, field).value.1)
  {
    OperatorCheck(Lookup(rs, field), field, op)
  }

  /** `_validate_ordering` on this rule set. */
  function ValidateOrdering(rs: RuleSet, field: string): (r: Result<(), Error>)
    ensures r.Ok? <==> Lookup(rs, field).Ok? && Lookup(rs, field).value.1.allowOrdering
    ensures r.Ok? ==> Declared(rs, Lookup(rs, field).value.0, Lookup(rs, field).value.1)
  {
    OrderingCheck(Lookup(rs, field), field)
  }

  /** `_get_builder`'s three callbacks, bound to this rule set. */
  function HooksOf(rs: RuleSet): (h: Builder.Hooks)
    ensures h.resolveAlias.Some? && h.validateOperatorAndField.Some? && h.validateOrdering.Some?
    ensures forall a :: Builder.ResolveAlias(h, a) == ResolveAlias(rs, a)
    ensures forall a, op :: Builder.ValidateOperatorAndField(h, a, op) == ValidateOperatorAndField(rs, a, op)
    ensures forall a :: h.validateOrdering.value(a) == ValidateOrdering(rs, a)
  {
    Builder.Hooks(
      Some((a: string) => ResolveAlias(rs, a)),
      Some((a: string, op: Operator) => ValidateOperatorAndField(rs, a, op)),
      Some((a: string) => ValidateOrdering(rs, a)))
  }

  /*
   * Validation
   */

  /** DEFAULT_OPERATORS as `_validate` and `_validate_operators` consult it: Enum subclasses under Enum. */
  function OperatorsForType(t: PyType): (r: Option<set<Operator>>)
    ensures r.None? <==> t.OtherType?
    ensures t.EnumType? ==> r == Some(DefaultOperators[EnumKey])
    ensures r.Some? ==> r.value != {} && ANY !in r.value && EQ in r.value && NE in r.value
  {
    match t
    case StrType => Some(DefaultOperators[StrKey])
    case IntType => Some(DefaultOperators[IntKey])
    case FloatType => Some(DefaultOperators[FloatKey])
    case BoolType => Some(DefaultOperators[BoolKey])
    case DateTimeType => Some(DefaultOperators[DateTimeKey])
    case DateType => Some(DefaultOperators[DateKey])
    case EnumType(_) => Some(DefaultOperators[EnumKey])
    case OtherType(_) => None
  }

  /** `_validate_operators`: the operators the type does not support; all of them for a type without defaults. */
  function UnsupportedOperators(t: PyType, ops: set<Operator>): (r: set<Operator>)
    ensures r <= ops
    ensures OperatorsForType(t).None? ==> r == ops
    ensures OperatorsForType(t).Some? ==> forall op :: op in r <==> op in ops && op !in OperatorsForType(t).value
  {
    var valid := OperatorsForType(t);
    if valid.None? || valid.value == {} then ops
    else set op | op in ops && op !in valid.value
  }

  /** The defaults inferred for a type never fail that type's own check. */
  lemma DefaultsAreValid(t: PyType)
    requires OperatorsForType(t).Some?
    ensures UnsupportedOperators(t, OperatorsForType(t).value) == {}
  {
  }

  /** A field's rule after its turn in `_validate`'s loop, and the report it added, if any. */
  datatype FieldCheck = FieldCheck(rule: FieldRule, issue: Option<Issue>)

  /**
   * One iteration of `_validate`'s loop: an AttributeError from the type
   * lookup is reported, any other error escapes the loop.
   */
  function CheckField(model: string, name: string, rule: FieldRule, fieldType: Result<PyType, Error>): (r: Result<FieldCheck, Error>)
    ensures r.Err? <==> fieldType.Err? && !IsAttributeError(fieldType.error)
    ensures r.Err? ==> r.error == fieldType.error
    ensures fieldType.Err? && IsAttributeError(fieldType.error) ==> r == Ok(FieldCheck(rule, Some(FieldNotInModel(name, model))))
    ensures r.Ok? ==> r.value.rule.alias == rule.alias && r.value.rule.allowOrdering == rule.allowOrdering
    ensures r.Ok? && rule.allowedOperators.Some? ==> r.value.rule == rule
    ensures fieldType.Ok? && rule.allowedOperators.None? ==> r.value.rule.allowedOperators == OperatorsForType(fieldType.value)
    ensures fieldType.Ok? ==>
      (r.value.issue.Some? <==>
        (rule.allowedOperators.None? && OperatorsForType(fieldType.value).None?)
        || (rule.allowedOperators.Some? && UnsupportedOperators(fieldType.value, rule.allowedOperators.value) != {}))
  {
    match fieldType
    case Err(e) =>
      if IsAttributeError(e) then Ok(FieldCheck(rule, Some(FieldNotInModel(name, model)))) else Err(e)
    case Ok(t) =>
      if rule.allowedOperators.None? then
        match OperatorsForType(t)
        case None => Ok(FieldCheck(rule, Some(CannotInferOperators(name, t))))
        case Some(d) =>
          DefaultsAreValid(t);
          Ok(FieldCheck(rule.(allowedOperators := Some(d)), None))
      else
        var ops := rule.allowedOperators.value;
        if ops != {} && UnsupportedOperators(t, ops) != {} then
          Ok(FieldCheck(rule, Some(InvalidOperators(name, UnsupportedOperators(t, ops), t))))
        else
          Ok(FieldCheck(rule, None))
  }

  /** The fields after validation, the issues in field order, and an error that left the loop. */
  datatype Validation = Validation(fields: seq<(string, FieldRule)>, issues: seq<Issue>, escaped: Option<Error>)

  /** `_validate`'s loop over the fields `fs`, given the builder's `get_field_type`. */
  function ValidateFields(model: string, fs: seq<(string, FieldRule)>, fieldType: string -> Result<PyType, Error>): Validation
    decreases |fs|
  {
    if |fs| == 0 then Validation([], [], None)
    else
      var prev := ValidateFields(model, fs[..|fs| - 1], fieldType);
      var entry := fs[|fs| - 1];
      if prev.escaped.Some? then Validation(prev.fields + [entry], prev.issues, prev.escaped)
      else match CheckField(model, entry.0, entry.1, fieldType(entry.0))
        case Err(e) => Validation(prev.fields + [entry], prev.issues, Some(e))
        case Ok(c) =>
          Validation(prev.fields + [(entry.0, c.rule)], prev.issues + (if c.issue.Some? then [c.issue.value] else []), None)
  }

  /** `_validate`'s verdict: the escaped error, else one ValueError carrying every issue. */
  function Outcome(v: Validation): (r: Result<(), Error>)
    ensures r.Ok? <==> v.escaped.None? && v.issues == []
  {
    if v.escaped.Some? then Err(v.escaped.value)
    else if v.issues != [] then Err(ValidationFailed(v.issues))
    else Ok(())
  }

  /** The field a check reports on, kept with its name. */
  predicate Checked(model: string, entry: (string, FieldRule), fieldType: string -> Result<PyType, Error>, after: (string, FieldRule)) {
    CheckField(model, entry.0, entry.1, fieldType(entry.0)).Ok?
    && after == (entry.0, CheckField(model, entry.0, entry.1, fieldType(entry.0)).value.rule)
  }

  /**
   * Validation keeps every field, its name, its alias and its ordering
   * flag, in order; explicit operator sets are never touched.
   */
  lemma {:induction false} ValidationKeepsFields(model: string, fs: seq<(string, FieldRule)>, ft: string -> Result<PyType, Error>)
    ensures var v := ValidateFields(model, fs, ft);
      |v.fields| == |fs|
      && (forall i :: 0 <= i < |fs| ==>
            v.fields[i].0 == fs[i].0 && v.fields[i].1.alias == fs[i].1.alias && v.fields[i].1.allowOrdering == fs[i].1.allowOrdering)
      && (forall i :: 0 <= i < |fs| && fs[i].1.allowedOperators.Some? ==> v.fields[i] == fs[i])
    decreases |fs|
  {
    if |fs| > 0 {
      var init := fs[..|fs| - 1];
      ValidationKeepsFields(model, init, ft);
      LastFieldKept(model, fs, ft);
      var v := ValidateFields(model, fs, ft);
      var prev := ValidateFields(model, init, ft);
      forall i | 0 <= i < |fs|
        ensures v.fields[i].0 == fs[i].0 && v.fields[i].1.alias == fs[i].1.alias
                && v.fields[i].1.allowOrdering == fs[i].1.allowOrdering
        ensures fs[i].1.allowedOperators.Some? ==> v.fields[i] == fs[i]
      {
        if i < |init| {
          assert v.fields[i] == prev.fields[i] && fs[i] == init[i];
        }
      }
    }
  }

  /** One step of validation appends the last field with its name, alias and ordering flag. */
  lemma LastFieldKept(model: string, fs: seq<(string, FieldRule)>, ft: string -> Result<PyType, Error>)
    requires |fs| > 0
    ensures var v := ValidateFields(model, fs, ft);
      var prev := ValidateFields(model, fs[..|fs| - 1], ft);
      var e := fs[|fs| - 1];
      |v.fields| == |prev.fields| + 1 && v.fields[..|prev.fields|] == prev.fields
      && v.fields[|prev.fields|].0 == e.0 && v.fields[|prev.fields|].1.alias == e.1.alias
      && v.fields[|prev.fields|].1.allowOrdering == e.1.allowOrdering
      && (e.1.allowedOperators.Some? ==> v.fields[|prev.fields|] == e)
  {
  }

  /**
   * A validation that raises nothing checked every field without a report,
   * and afterwards every field has operators, all supported by its type.
   */
  lemma {:induction false} ValidatedFieldsAreComplete(model: string, fs: seq<(string, FieldRule)>, ft: string -> Result<PyType, Error>)
    ensures var v := ValidateFields(model, fs, ft);
      Outcome(v).Ok? <==>
        (|v.fields| == |fs| && forall i :: 0 <= i < |fs| ==>
          CheckField(model, fs[i].0, fs[i].1, ft(fs[i].0)).Ok? && CheckField(model, fs[i].0, fs[i].1, ft(fs[i].0)).value.issue.None?
          && v.fields[i] == (fs[i].0, CheckField(model, fs[i].0, fs[i].1, ft(fs[i].0)).value.rule))
    ensures var v := ValidateFields(model, fs, ft);
      Outcome(v).Ok? ==> forall i :: 0 <= i < |v.fields| ==>
        ft(v.fields[i].0).Ok? && v.fields[i].1.allowedOperators.Some?
        && UnsupportedOperators(ft(v.fields[i].0).value, v.fields[i].1.allowedOperators.value) == {}
    decreases |fs|
  {
    var v := ValidateFields(model, fs, ft);
    if |fs| > 0 {
      var init := fs[..|fs| - 1];
      ValidatedFieldsAreComplete(model, init, ft);
      ValidationKeepsFields(model, init, ft);
      var prev := ValidateFields(model, init, ft);
      assert forall i :: 0 <= i < |init| ==> fs[i] == init[i];
      if Outcome(v).Ok? {
        assert Outcome(prev).Ok?;
        var e := fs[|fs| - 1];
        var c := CheckField(model, e.0, e.1, ft(e.0)).value;
        assert v.fields == prev.fields + [(e.0, c.rule)];
        if e.1.allowedOperators.None? {
          assert c.rule.allowedOperators.Some?;
          DefaultsAreValid(ft(e.0).value);
        }
      }
    }
  }

  /**
   * All issues are collected before raising: a field the model lacks is
   * reported whatever the other fields hold, unless a non-AttributeError
   * left the loop.
   */
  lemma {:induction false} EveryMissingFieldReported(model: string, fs: seq<(string, FieldRule)>, ft: string -> Result<PyType, Error>, i: nat)
    requires i < |fs|
    requires ft(fs[i].0).Err? && IsAttributeError(ft(fs[i].0).error)
    requires ValidateFields(model, fs, ft).escaped.None?
    ensures FieldNotInModel(fs[i].0, model) in ValidateFields(model, fs, ft).issues
    ensures Outcome(ValidateFields(model, fs, ft)).Err?
    decreases |fs|
  {
    var init := fs[..|fs| - 1];
    var prev := ValidateFields(model, init, ft);
    assert prev.escaped.None?;
    if i < |init| {
      EveryMissingFieldReported(model, init, ft, i);
    }
  }

  /** Once an error escapes, the remaining fields are left exactly as declared. */
  lemma {:induction false} EscapeStopsTheLoop(model: string, fs: seq<(string, FieldRule)>, ft: string -> Result<PyType, Error>, k: nat)
    requires k <= |fs|
    requires ValidateFields(model, fs[..k], ft).escaped.Some?
    ensures ValidateFields(model, fs, ft) ==
      Validation(ValidateFields(model, fs[..k], ft).fields + fs[k..], ValidateFields(model, fs[..k], ft).issues,
                 ValidateFields(model, fs[..k], ft).escaped)
    decreases |fs| - k
  {
    if k < |fs| {
      assert fs[..k + 1][..k] == fs[..k];
      EscapeStopsTheLoop(model, fs, ft, k + 1);
      assert fs[k..] == [fs[k]] + fs[k + 1..];
    } else {
      assert fs[..k] == fs;
    }
  }

  /** `_validate`'s loop: updates the field rules in place, then raises once with every issue. */
  method RunValidation(model: string, fs: seq<(string, FieldRule)>, ft: string -> Result<PyType, Error>)
    returns (fields: seq<(string, FieldRule)>, r: Result<(), Error>)
    ensures fields == ValidateFields(model, fs, ft).fields
    ensures r == Outcome(ValidateFields(model, fs, ft))
  {
    var issues, escaped;
    fields, issues, escaped := CheckFields(model, fs, ft);
    if escaped.Some? {
      return fields, Err(escaped.value);
    }
    if issues != [] {
      return fields, Err(ValidationFailed(issues));
    }
    return fields, Ok(());
  }

  /**
   * The loop itself: each field's rule is replaced in place by its checked
   * rule; the first error that is not an AttributeError leaves the loop.
   */
  method CheckFields(model: string, fs: seq<(string, FieldRule)>, ft: string -> Result<PyType, Error>)
    returns (fields: seq<(string, FieldRule)>, issues: seq<Issue>, escaped: Option<Error>)
    ensures Validation(fields, issues, escaped) == ValidateFields(model, fs, ft)
  {
    fields := fs;
    issues := [];
    var i := 0;
    while i < |fs|
      invariant 0 <= i <= |fs| && |fields| == |fs|
      invariant ValidateFields(model, fs[..i], ft) == Validation(fields[..i], issues, None)
      invariant fields[i..] == fs[i..]
    {
      var c := CheckField(model, fs[i].0, fs[i].1, ft(fs[i].0));
      if c.Err? {
        EscapeAt(model, fs, ft, i);
        assert fields == fields[..i] + [fs[i]] + fs[i + 1..];
        return fields, issues, Some(c.error);
      }
      CheckedAt(model, fs, ft, i);
      ghost var before := fields;
      fields := fields[i := (fs[i].0, c.value.rule)];
      if c.value.issue.Some? {
        issues := issues + [c.value.issue.value];
      }
      UpdateSlices(before, i, (fs[i].0, c.value.rule));
      i := i + 1;
    }
    assert fs[..i] == fs && fields[..i] == fields;
    return fields, issues, None;
  }

  /** Replacing position `i` changes the prefix up to it and nothing after it. */
  lemma UpdateSlices<T>(a: seq<T>, i: nat, x: T)
    requires i < |a|
    ensures a[i := x][..i + 1] == a[..i] + [x] && a[i := x][i + 1..] == a[i + 1..]
  {
  }

  /** One field checked without escape: its new rule is kept and its issue, if any, appended. */
  lemma CheckedAt(model: string, fs: seq<(string, FieldRule)>, ft: string -> Result<PyType, Error>, i: nat)
    requires i < |fs| && ValidateFields(model, fs[..i], ft).escaped.None?
    requires CheckField(model, fs[i].0, fs[i].1, ft(fs[i].0)).Ok?
    ensures var prev := ValidateFields(model, fs[..i], ft);
      var c := CheckField(model, fs[i].0, fs[i].1, ft(fs[i].0)).value;
      ValidateFields(model, fs[..i + 1], ft)
      == Validation(prev.fields + [(fs[i].0, c.rule)], prev.issues + (if c.issue.Some? then [c.issue.value] else []), None)
  {
    assert fs[..i + 1][..i] == fs[..i];
  }

  /** The first escape ends the loop: what was checked, then the rest as declared. */
  lemma EscapeAt(model: string, fs: seq<(string, FieldRule)>, ft: string -> Result<PyType, Error>, i: nat)
    requires i < |fs| && ValidateFields(model, fs[..i], ft).escaped.None?
    requires CheckField(model, fs[i].0, fs[i].1, ft(fs[i].0)).Err?
    ensures var prev := ValidateFields(model, fs[..i], ft);
      ValidateFields(model, fs, ft)
      == Validation(prev.fields + [fs[i]] + fs[i + 1..], prev.issues, Some(CheckField(model, fs[i].0, fs[i].1, ft(fs[i].0)).error))
  {
    assert fs[..i + 1][..i] == fs[..i];
    EscapeStopsTheLoop(model, fs, ft, i + 1);
  }

  /*
   * Harvesting (the metaclass)
   */

  /** A class attribute, as far as harvesting is concerned. */
  datatype Attr = FieldAttr(rule: FieldRule) | RelationAttr(relation: RelationshipRule) | OtherAttr

  /** A class: its name, its own namespace (`vars`) and its `__bases__`. */
  datatype ClassDecl = ClassDecl(name: string, namespace: seq<(string, Attr)>, bases: seq<ClassDecl>)

  /** The first value stored under `k`. */
  function Get<V>(d: seq<(string, V)>, k: string): (r: Option<V>)
    ensures r.None? <==> forall i :: 0 <= i < |d| ==> d[i].0 != k
    decreases |d|
  {
    if |d| == 0 then None
    else if Get(d[..|d| - 1], k).Some? then Get(d[..|d| - 1], k)
    else if d[|d| - 1].0 == k then Some(d[|d| - 1].1)
    else None
  }

  predicate DistinctKeys<V>(d: seq<(string, V)>) {
    forall i, j :: 0 <= i < j < |d| ==> d[i].0 != d[j].0
  }

  /** Append each entry whose key is not yet present: `if key not in fields: fields[key] = value`. */
  function AddNew<V>(acc: seq<(string, V)>, items: seq<(string, V)>): (r: seq<(string, V)>)
    ensures acc <= r
    decreases |items|
  {
    if |items| == 0 then acc
    else
      var prev := AddNew(acc, items[..|items| - 1]);
      if Get(prev, items[|items| - 1].0).None? then prev + [items[|items| - 1]] else prev
  }

  /** The field rules of a namespace, in order. */
  function FieldsIn(attrs: seq<(string, Attr)>): seq<(string, FieldRule)>
    decreases |attrs|
  {
    if |attrs| == 0 then []
    else
      var (k, a) := attrs[|attrs| - 1];
      FieldsIn(attrs[..|attrs| - 1]) + (if a.FieldAttr? then [(k, a.rule)] else [])
  }

  /** The relationship rules of a namespace, in order. */
  function RelationsIn(attrs: seq<(string, Attr)>): seq<(string, RelationshipRule)>
    decreases |attrs|
  {
    if |attrs| == 0 then []
    else
      var (k, a) := attrs[|attrs| - 1];
      RelationsIn(attrs[..|attrs| - 1]) + (if a.RelationAttr? then [(k, a.relation)] else [])
  }

  /** The namespaces of the direct bases, in order. */
  function DirectVars(bases: seq<ClassDecl>): seq<(string, Attr)>
    decreases |bases|
  {
    if |bases| == 0 then [] else DirectVars(bases[..|bases| - 1]) + bases[|bases| - 1].namespace
  }

  /** The namespaces `collect_rules_from_bases` visits: the class, then each base depth-first. */
  function Visit(c: ClassDecl): seq<(string, Attr)>
    decreases c, 1
  {
    c.namespace + VisitAll(c.bases)
  }

  function VisitAll(bases: seq<ClassDecl>): seq<(string, Attr)>
    decreases bases, 0
  {
    if |bases| == 0 then [] else VisitAll(bases[..|bases| - 1]) + Visit(bases[|bases| - 1])
  }

  /** What the metaclass stores as `_fields` and `_relations`. */
  datatype Harvest = Harvest(fields: seq<(string, FieldRule)>, relations: seq<(string, RelationshipRule)>)

  /** The namespaces in the order the metaclass reads them after the class's own. */
  function BaseOrder(bases: seq<ClassDecl>): seq<(string, Attr)> {
    DirectVars(bases) + VisitAll(bases)
  }

  /**
   * `ModelRQLRulesMeta.__new__`: nothing for the base class itself, an
   * error for a class without its own `__model__`, else the class's own
   * rules followed by unseen rules from its bases.
   */
  function HarvestSpec(c: ClassDecl): Result<Option<Harvest>, Error> {
    if c.name == "ModelRQLRules" then Ok(None)
    else if Get(c.namespace, "__model__").None? then Err(MissingModel(c.name))
    else Ok(Some(Harvest(AddNew(FieldsIn(c.namespace), FieldsIn(BaseOrder(c.bases))),
                         AddNew(RelationsIn(c.namespace), RelationsIn(BaseOrder(c.bases))))))
  }

  lemma {:induction false} FieldsInConcat(a: seq<(string, Attr)>, b: seq<(string, Attr)>)
    ensures FieldsIn(a + b) == FieldsIn(a) + FieldsIn(b)
    ensures RelationsIn(a + b) == RelationsIn(a) + RelationsIn(b)
    decreases |b|
  {
    if |b| == 0 {
      assert a + b == a;
    } else {
      assert (a + b)[..|a + b| - 1] == a + b[..|b| - 1];
      FieldsInConcat(a, b[..|b| - 1]);
    }
  }

  lemma {:induction false} AddNewConcat<V>(acc: seq<(string, V)>, x: seq<(string, V)>, y: seq<(string, V)>)
    ensures AddNew(acc, x + y) == AddNew(AddNew(acc, x), y)
    decreases |y|
  {
    if |y| == 0 {
      assert x + y == x;
    } else {
      assert (x + y)[..|x + y| - 1] == x + y[..|y| - 1];
      AddNewConcat(acc, x, y[..|y| - 1]);
    }
  }

  /** Adding only unseen keys: an existing key keeps its value, a new key takes its first value among the items. */
  lemma {:induction false} AddNewGet<V>(acc: seq<(string, V)>, items: seq<(string, V)>, k: string)
    ensures Get(AddNew(acc, items), k) == if Get(acc, k).Some? then Get(acc, k) else Get(items, k)
    decreases |items|
  {
    if |items| > 0 {
      var init := items[..|items| - 1];
      AddNewGet(acc, init, k);
      var prev := AddNew(acc, init);
      var last := items[|items| - 1];
      if Get(prev, last.0).None? {
        GetAppend(prev, last, k);
      }
    }
  }

  lemma AddNewAppend<V>(acc: seq<(string, V)>, xs: seq<(string, V)>, e: (string, V))
    ensures AddNew(acc, xs + [e]) == if Get(AddNew(acc, xs), e.0).None? then AddNew(acc, xs) + [e] else AddNew(acc, xs)
  {
    assert (xs + [e])[..|xs + [e]| - 1] == xs;
  }

  lemma GetAppend<V>(d: seq<(string, V)>, e: (string, V), k: string)
    ensures Get(d + [e], k) == if Get(d, k).Some? then Get(d, k) else if e.0 == k then Some(e.1) else None
  {
    assert (d + [e])[..|d + [e]| - 1] == d;
  }

  /** Only unseen keys are added, so keys stay distinct. */
  lemma {:induction false} AddNewDistinct<V>(acc: seq<(string, V)>, items: seq<(string, V)>)
    requires DistinctKeys(acc)
    ensures DistinctKeys(AddNew(acc, items))
    decreases |items|
  {
    if |items| > 0 {
      AddNewDistinct(acc, items[..|items| - 1]);
    }
  }

  lemma FieldsInDistinct(attrs: seq<(string, Attr)>)
    requires DistinctKeys(attrs)
    ensures DistinctKeys(FieldsIn(attrs)) && DistinctKeys(RelationsIn(attrs))
    ensures forall i :: 0 <= i < |FieldsIn(attrs)| ==> exists j :: 0 <= j < |attrs| && attrs[j].0 == FieldsIn(attrs)[i].0
    ensures forall i :: 0 <= i < |RelationsIn(attrs)| ==> exists j :: 0 <= j < |attrs| && attrs[j].0 == RelationsIn(attrs)[i].0
  {
    FieldKeysDistinct(attrs);
    RelationKeysDistinct(attrs);
  }

  /** The field rules of a namespace with unique keys have unique keys, all from the namespace. */
  lemma {:induction false} FieldKeysDistinct(attrs: seq<(string, Attr)>)
    requires DistinctKeys(attrs)
    ensures DistinctKeys(FieldsIn(attrs))
    ensures forall i :: 0 <= i < |FieldsIn(attrs)| ==> exists j :: 0 <= j < |attrs| && attrs[j].0 == FieldsIn(attrs)[i].0
    decreases |attrs|
  {
    if |attrs| > 0 {
      var init := attrs[..|attrs| - 1];
      var last := attrs[|attrs| - 1];
      assert DistinctKeys(init);
      FieldKeysDistinct(init);
      var before := FieldsIn(init);
      assert forall i :: 0 <= i < |before| ==> before[i].0 != last.0 by {
        forall i | 0 <= i < |before|
          ensures before[i].0 != last.0
        {
          var j :| 0 <= j < |init| && init[j].0 == before[i].0;
          assert attrs[j] == init[j];
        }
      }
      forall i | 0 <= i < |FieldsIn(attrs)|
        ensures exists j :: 0 <= j < |attrs| && attrs[j].0 == FieldsIn(attrs)[i].0
      {
        if i < |before| {
          var j :| 0 <= j < |init| && init[j].0 == before[i].0;
          assert attrs[j] == init[j];
        } else {
          assert attrs[|attrs| - 1].0 == FieldsIn(attrs)[i].0;
        }
      }
    }
  }

  /** The relationship rules of a namespace with unique keys have unique keys, all from the namespace. */
  lemma {:induction false} RelationKeysDistinct(attrs: seq<(string, Attr)>)
    requires DistinctKeys(attrs)
    ensures DistinctKeys(RelationsIn(attrs))
    ensures forall i :: 0 <= i < |RelationsIn(attrs)| ==> exists j :: 0 <= j < |attrs| && attrs[j].0 == RelationsIn(attrs)[i].0
    decreases |attrs|
  {
    if |attrs| > 0 {
      var init := attrs[..|attrs| - 1];
      var last := attrs[|attrs| - 1];
      assert DistinctKeys(init);
      RelationKeysDistinct(init);
      var before := RelationsIn(init);
      assert forall i :: 0 <= i < |before| ==> before[i].0 != last.0 by {
        forall i | 0 <= i < |before|
          ensures before[i].0 != last.0
        {
          var j :| 0 <= j < |init| && init[j].0 == before[i].0;
          assert attrs[j] == init[j];
        }
      }
      forall i | 0 <= i < |RelationsIn(attrs)|
        ensures exists j :: 0 <= j < |attrs| && attrs[j].0 == RelationsIn(attrs)[i].0
      {
        if i < |before| {
          var j :| 0 <= j < |init| && init[j].0 == before[i].0;
          assert attrs[j] == init[j];
        } else {
          assert attrs[|attrs| - 1].0 == RelationsIn(attrs)[i].0;
        }
      }
    }
  }

  /**
   * Precedence: the class's own declaration of a name wins; otherwise the
   * first declaration met in the direct bases' namespaces and then in the
   * depth-first walk. Keys stay unique.
   */
  lemma HarvestPrecedence(c: ClassDecl, k: string)
    requires DistinctKeys(c.namespace)
    requires HarvestSpec(c).Ok? && HarvestSpec(c).value.Some?
    ensures var h := HarvestSpec(c).value.value;
      Get(h.fields, k) == Get(FieldsIn(c.namespace + BaseOrder(c.bases)), k)
      && Get(h.relations, k) == Get(RelationsIn(c.namespace + BaseOrder(c.bases)), k)
      && DistinctKeys(h.fields) && DistinctKeys(h.relations)
  {
    FieldsInConcat(c.namespace, BaseOrder(c.bases));
    AddNewGet(FieldsIn(c.namespace), FieldsIn(BaseOrder(c.bases)), k);
    AddNewGet(RelationsIn(c.namespace), RelationsIn(BaseOrder(c.bases)), k);
    GetConcat(FieldsIn(c.namespace), FieldsIn(BaseOrder(c.bases)), k);
    GetConcat(RelationsIn(c.namespace), RelationsIn(BaseOrder(c.bases)), k);
    FieldsInDistinct(c.namespace);
    AddNewDistinct(FieldsIn(c.namespace), FieldsIn(BaseOrder(c.bases)));
    AddNewDistinct(RelationsIn(c.namespace), RelationsIn(BaseOrder(c.bases)));
  }

  lemma {:induction false} GetConcat<V>(a: seq<(string, V)>, b: seq<(string, V)>, k: string)
    ensures Get(a + b, k) == if Get(a, k).Some? then Get(a, k) else Get(b, k)
    decreases |b|
  {
    if |b| == 0 {
      assert a + b == a;
    } else {
      var init := b[..|b| - 1];
      assert (a + b)[..|a + b| - 1] == a + init;
      GetConcat(a, init, k);
    }
  }

  /** `__model__ not in namespace` is the only way harvesting fails. */
  lemma MissingModelRaises(c: ClassDecl)
    ensures HarvestSpec(c).Err? <==> c.name != "ModelRQLRules" && forall i :: 0 <= i < |c.namespace| ==> c.namespace[i].0 != "__model__"
    ensures HarvestSpec(c).Err? ==> HarvestSpec(c).error == MissingModel(c.name)
  {
  }

  /** One pass over a namespace, adding the rules whose names are still unseen. */
  method AddFromVars(attrs: seq<(string, Attr)>, fields0: seq<(string, FieldRule)>, relations0: seq<(string, RelationshipRule)>)
    returns (fields: seq<(string, FieldRule)>, relations: seq<(string, RelationshipRule)>)
    ensures fields == AddNew(fields0, FieldsIn(attrs)) && relations == AddNew(relations0, RelationsIn(attrs))
  {
    fields, relations := fields0, relations0;
    var i := 0;
    while i < |attrs|
      invariant 0 <= i <= |attrs|
      invariant fields == AddNew(fields0, FieldsIn(attrs[..i])) && relations == AddNew(relations0, RelationsIn(attrs[..i]))
    {
      assert attrs[..i + 1][..i] == attrs[..i];
      var (key, value) := attrs[i];
      assert FieldsIn(attrs[..i + 1]) == FieldsIn(attrs[..i]) + (if value.FieldAttr? then [(key, value.rule)] else []);
      assert RelationsIn(attrs[..i + 1]) == RelationsIn(attrs[..i]) + (if value.RelationAttr? then [(key, value.relation)] else []);
      if value.FieldAttr? {
        AddNewAppend(fields0, FieldsIn(attrs[..i]), (key, value.rule));
      } else {
        assert FieldsIn(attrs[..i]) + [] == FieldsIn(attrs[..i]);
      }
      if value.RelationAttr? {
        AddNewAppend(relations0, RelationsIn(attrs[..i]), (key, value.relation));
      } else {
        assert RelationsIn(attrs[..i]) + [] == RelationsIn(attrs[..i]);
      }
      if value.FieldAttr? && Get(fields, key).None? {
        fields := fields + [(key, value.rule)];
      } else if value.RelationAttr? && Get(relations, key).None? {
        relations := relations + [(key, value.relation)];
      }
      i := i + 1;
    }
    assert attrs[..i] == attrs;
  }

  lemma VisitAllStep(bases: seq<ClassDecl>, i: nat)
    requires i < |bases|
    ensures VisitAll(bases[..i + 1]) == VisitAll(bases[..i]) + Visit(bases[i])
  {
    assert bases[..i + 1][..i] == bases[..i];
  }

  /** Adding the rules of `x` and then those of `y` is adding the rules of `x + y`. */
  lemma AddVisited(fs: seq<(string, FieldRule)>, rs: seq<(string, RelationshipRule)>, x: seq<(string, Attr)>, y: seq<(string, Attr)>)
    ensures AddNew(AddNew(fs, FieldsIn(x)), FieldsIn(y)) == AddNew(fs, FieldsIn(x + y))
    ensures AddNew(AddNew(rs, RelationsIn(x)), RelationsIn(y)) == AddNew(rs, RelationsIn(x + y))
  {
    FieldsInConcat(x, y);
    AddNewConcat(fs, FieldsIn(x), FieldsIn(y));
    AddNewConcat(rs, RelationsIn(x), RelationsIn(y));
  }

  /** One more base walked: the rules added so far extend to those of the longer walk. */
  lemma CollectStep(c: ClassDecl, i: nat, fs: seq<(string, FieldRule)>, rs: seq<(string, RelationshipRule)>)
    requires i < |c.bases|
    ensures AddNew(AddNew(fs, FieldsIn(c.namespace + VisitAll(c.bases[..i]))), FieldsIn(Visit(c.bases[i])))
            == AddNew(fs, FieldsIn(c.namespace + VisitAll(c.bases[..i + 1])))
    ensures AddNew(AddNew(rs, RelationsIn(c.namespace + VisitAll(c.bases[..i]))), RelationsIn(Visit(c.bases[i])))
            == AddNew(rs, RelationsIn(c.namespace + VisitAll(c.bases[..i + 1])))
  {
    var before := c.namespace + VisitAll(c.bases[..i]);
    AddVisited(fs, rs, before, Visit(c.bases[i]));
    VisitAllStep(c.bases, i);
    assert before + Visit(c.bases[i]) == c.namespace + VisitAll(c.bases[..i + 1]);
  }

  /** `collect_rules_from_bases`. */
  method CollectFromBases(c: ClassDecl, fields0: seq<(string, FieldRule)>, relations0: seq<(string, RelationshipRule)>)
    returns (fields: seq<(string, FieldRule)>, relations: seq<(string, RelationshipRule)>)
    ensures fields == AddNew(fields0, FieldsIn(Visit(c))) && relations == AddNew(relations0, RelationsIn(Visit(c)))
    decreases c
  {
    fields, relations := AddFromVars(c.namespace, fields0, relations0);
    assert c.bases[..0] == [] && c.namespace + [] == c.namespace;
    var i := 0;
    while i < |c.bases|
      invariant 0 <= i <= |c.bases|
      invariant fields == AddNew(fields0, FieldsIn(c.namespace + VisitAll(c.bases[..i])))
      invariant relations == AddNew(relations0, RelationsIn(c.namespace + VisitAll(c.bases[..i])))
    {
      var b := c.bases[i];
      fields, relations := CollectFromBases(b, fields, relations);
      CollectStep(c, i, fields0, relations0);
      i := i + 1;
    }
    assert c.bases[..i] == c.bases;
  }

  /** The metaclass's three passes: own namespace, direct bases' namespaces, then the depth-first walk. */
  method HarvestClass(c: ClassDecl) returns (r: Result<Option<Harvest>, Error>)
    requires DistinctKeys(c.namespace)
    ensures r == HarvestSpec(c)
  {
    if c.name == "ModelRQLRules" {
      return Ok(None);
    }
    if Get(c.namespace, "__model__").None? {
      return Err(MissingModel(c.name));
    }
    var fields, relations := SplitNamespace(c.namespace);
    ghost var own := (fields, relations);
    fields, relations := AddDirectBases(c.bases, fields, relations);
    fields, relations := CollectAll(c.bases, fields, relations);
    FieldsInConcat(DirectVars(c.bases), VisitAll(c.bases));
    AddNewConcat(own.0, FieldsIn(DirectVars(c.bases)), FieldsIn(VisitAll(c.bases)));
    AddNewConcat(own.1, RelationsIn(DirectVars(c.bases)), RelationsIn(VisitAll(c.bases)));
    return Ok(Some(Harvest(fields, relations)));
  }

  /** The first loop: the class's own field and relationship rules, in namespace order. */
  method SplitNamespace(attrs: seq<(string, Attr)>) returns (fields: seq<(string, FieldRule)>, relations: seq<(string, RelationshipRule)>)
    ensures fields == FieldsIn(attrs) && relations == RelationsIn(attrs)
  {
    fields, relations := [], [];
    var i := 0;
    while i < |attrs|
      invariant 0 <= i <= |attrs|
      invariant fields == FieldsIn(attrs[..i]) && relations == RelationsIn(attrs[..i])
    {
      assert attrs[..i + 1][..i] == attrs[..i];
      var (key, value) := attrs[i];
      if value.FieldAttr? {
        fields := fields + [(key, value.rule)];
      } else if value.RelationAttr? {
        relations := relations + [(key, value.relation)];
      }
      i := i + 1;
    }
    assert attrs[..i] == attrs;
  }

  /** The second loop: each direct base's own namespace, adding only new keys. */
  method AddDirectBases(bases: seq<ClassDecl>, fields0: seq<(string, FieldRule)>, relations0: seq<(string, RelationshipRule)>)
    returns (fields: seq<(string, FieldRule)>, relations: seq<(string, RelationshipRule)>)
    ensures fields == AddNew(fields0, FieldsIn(DirectVars(bases)))
    ensures relations == AddNew(relations0, RelationsIn(DirectVars(bases)))
  {
    fields, relations := fields0, relations0;
    var j := 0;
    while j < |bases|
      invariant 0 <= j <= |bases|
      invariant fields == AddNew(fields0, FieldsIn(DirectVars(bases[..j])))
      invariant relations == AddNew(relations0, RelationsIn(DirectVars(bases[..j])))
    {
      assert bases[..j + 1][..j] == bases[..j];
      var before := DirectVars(bases[..j]);
      fields, relations := AddFromVars(bases[j].namespace, fields, relations);
      FieldsInConcat(before, bases[j].namespace);
      AddNewConcat(fields0, FieldsIn(before), FieldsIn(bases[j].namespace));
      AddNewConcat(relations0, RelationsIn(before), RelationsIn(bases[j].namespace));
      j := j + 1;
    }
    assert bases[..j] == bases;
  }

  /** The third loop: `collect_rules_from_bases` on each direct base in turn. */
  method CollectAll(bases: seq<ClassDecl>, fields0: seq<(string, FieldRule)>, relations0: seq<(string, RelationshipRule)>)
    returns (fields: seq<(string, FieldRule)>, relations: seq<(string, RelationshipRule)>)
    ensures fields == AddNew(fields0, FieldsIn(VisitAll(bases)))
    ensures relations == AddNew(relations0, RelationsIn(VisitAll(bases)))
  {
    fields, relations := fields0, relations0;
    var k := 0;
    while k < |bases|
      invariant 0 <= k <= |bases|
      invariant fields == AddNew(fields0, FieldsIn(VisitAll(bases[..k])))
      invariant relations == AddNew(relations0, RelationsIn(VisitAll(bases[..k])))
    {
      assert bases[..k + 1][..k] == bases[..k];
      var before := VisitAll(bases[..k]);
      fields, relations := CollectFromBases(bases[k], fields, relations);
      FieldsInConcat(before, Visit(bases[k]));
      AddNewConcat(fields0, FieldsIn(before), FieldsIn(Visit(bases[k])));
      AddNewConcat(relations0, RelationsIn(before), RelationsIn(Visit(bases[k])));
      k := k + 1;
    }
    assert bases[..k] == bases;
  }

  /**
   * A rule-set class after the metaclass ran: `_fields` and `_relations`.
   * The field rules are the objects `_validate` updates in place.
   */
  class RulesClass {
    const name: string
    const model: string
    var fields: seq<(string, FieldRule)>
    const relations: seq<(string, RelationshipRule)>

    constructor (name: string, model: string, h: Harvest)
      ensures this.name == name && this.model == model
      ensures fields == h.fields && relations == h.relations
    {
      this.name := name;
      this.model := model;
      fields := h.fields;
      relations := h.relations;
    }

    /** The rules the class-level lookups read. */
    function Rules(): RuleSet
      reads this
    {
      RuleSet(fields, relations)
    }

    /** The callbacks `_get_builder` hands to the builder; they read the rules at call time. */
    function Hooks(): (h: Builder.Hooks)
      reads this
      ensures h == HooksOf(Rules())
    {
      HooksOf(Rules())
    }

    /** `_validate`: the rules stay updated even when it raises. */
    method Validate(ft: string -> Result<PyType, Error>) returns (r: Result<(), Error>)
      modifies this
      ensures fields == ValidateFields(model, old(fields), ft).fields
      ensures r == Outcome(ValidateFields(model, old(fields), ft))
    {
      var updated;
      updated, r := RunValidation(model, fields, ft);
      fields := updated;
    }
  }
}
