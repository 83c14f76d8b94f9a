/**
 * The filter engine of filters.py: the same validation and callbacks as
 * rules.py, but rules are read from the class's own namespace only, and a
 * nested field is addressed as `relation_name.nested_alias`, split at the
 * first dot, with the relation looked up by its name.
 */
module Filters {
  import opened Wrappers
  import opened Dataclasses
  import opened Errors
  import opened Strings
  import Rules
  import Builder

  /** `FieldDefinition`: the field declaration of a filter, with FieldRule's three attributes. */
  type FieldDefinition = Rules.FieldRule

  /** A filter's `_fields`, and its `_relations`: nested filters keyed by relation name. */
  datatype FilterSet = FilterSet(fields: seq<(string, FieldDefinition)>, relations: seq<(string, FilterSet)>)

  /** The position of the relation called `name`. */
  function FindRelation(rels: seq<(string, FilterSet)>, name: string): (r: Option<nat>)
    ensures r.Some? ==> r.value < |rels| && rels[r.value].0 == name
    ensures r.Some? ==> forall i :: 0 <= i < r.value ==> rels[i].0 != name
    ensures r.None? <==> forall i :: 0 <= i < |rels| ==> rels[i].0 != name
  {
    if |rels| == 0 then None
    else if rels[0].0 == name then Some(0)
    else match FindRelation(rels[1..], name)
      case None => None
      case Some(i) => Some(i + 1)
  }

  /**
   * `_get_field_by_alias`: a local field by alias or name first; then, for
   * a dotted alias whose head names a relation, the rest is looked up in
   * that relation's filter and the result prefixed with the head.
   */
  function FieldByAlias(fs: FilterSet, alias: string): (r: Result<(string, FieldDefinition), Error>)
    ensures r.Err? ==> r.error.FieldNotFound?
    decreases fs
  {
    match Rules.FirstMatch(fs.fields, alias)
    case Some(i) => Ok(fs.fields[i])
    case None =>
      if '.' !in alias then Err(FieldNotFound(alias))
      else
        var (head, nested) := SplitOnce(alias, '.');
        match FindRelation(fs.relations, head)
        case None => Err(FieldNotFound(alias))
        case Some(k) =>
          match FieldByAlias(fs.relations[k].1, nested)
          case Err(e) => Err(e)
          case Ok((n, f)) => Ok((head + "." + n, f))
  }

  /** `path` names a declared field: a local name, or a relation name, a dot and a path below it. */
  predicate Declared(fs: FilterSet, path: string, f: FieldDefinition)
    decreases fs
  {
    (exists i :: 0 <= i < |fs.fields| && fs.fields[i] == (path, f))
    || (exists k :: 0 <= k < |fs.relations| && fs.relations[k].0 + "." <= path
          && Declared(fs.relations[k].1, path[|fs.relations[k].0| + 1..], f))
  }

  /** Resolution is sound: the result is a declared field path and its definition. */
  lemma {:induction false} ResolvedPathIsDeclared(fs: FilterSet, alias: string)
    requires FieldByAlias(fs, alias).Ok?
    ensures Declared(fs, FieldByAlias(fs, alias).value.0, FieldByAlias(fs, alias).value.1)
    decreases fs
  {
    match Rules.FirstMatch(fs.fields, alias)
    case Some(i) =>
    case None =>
      var (head, nested) := SplitOnce(alias, '.');
      var k := FindRelation(fs.relations, head).value;
      ResolvedPathIsDeclared(fs.relations[k].1, nested);
      var (n, f) := FieldByAlias(fs.relations[k].1, nested).value;
      var path := head + "." + n;
      assert path[|head| + 1..] == n;
      assert fs.relations[k].0 + "." <= path;
  }

  /**
   * Paths by name resolve segment by segment: `rel.rest`, when no local
   * field answers to it, is `rest` resolved in the relation named `rel`.
   */
  lemma {:induction false} DottedAliasResolves(fs: FilterSet, rel: string, rest: string, k: nat)
    requires '.' !in rel
    requires k < |fs.relations| && fs.relations[k].0 == rel
    requires forall i :: 0 <= i < k ==> fs.relations[i].0 != rel
    requires Rules.FirstMatch(fs.fields, rel + "." + rest).None?
    ensures FieldByAlias(fs, rel + "." + rest) ==
      match FieldByAlias(fs.relations[k].1, rest)
      case Err(e) => Err(e)
      case Ok((n, f)) => Ok((rel + "." + n, f))
  {
    var alias := rel + "." + rest;
    assert alias == rel + ['.'] + rest;
    SplitOnceOf(rel, '.', rest);
    assert SplitOnce(alias, '.') == (rel, rest);
    assert FindRelation(fs.relations, rel) == Some(k);
  }

  /** The lookup fails with "not found" when neither a local field nor a named relation applies. */
  lemma NotFound(fs: FilterSet, alias: string)
    requires Rules.FirstMatch(fs.fields, alias).None?
    ensures '.' !in alias ==> FieldByAlias(fs, alias) == Err(FieldNotFound(alias))
    ensures '.' in alias && FindRelation(fs.relations, SplitOnce(alias, '.').0).None? ==>
      FieldByAlias(fs, alias) == Err(FieldNotFound(alias))
  {
  }

  /** `_validate_operator_and_field` on this filter. */
  function ValidateOperatorAndField(fs: FilterSet, field: string, op: Operator): (r: Result<(), Error>)
    ensures r.Ok? <==> FieldByAlias(fs, field).Ok? && FieldByAlias(fs, field).value.1.allowedOperators.Some?
                       && op in FieldByAlias(fs, field).value.1.allowedOperators.value
    ensures r.Ok? ==> Declared(fs, FieldByAlias(fs, field).value.0, FieldByAlias(fs, field).value.1)
  {
    if FieldByAlias(fs, field).Err? then Rules.OperatorCheck(FieldByAlias(fs, field), field, op)
    else ResolvedPathIsDeclared(fs, field); Rules.OperatorCheck(FieldByAlias(fs, field), field, op)
  }

  /** `_validate_ordering` on this filter. */
  function ValidateOrdering(fs: FilterSet, field: string): (r: Result<(), Error>)
    ensures r.Ok? <==> FieldByAlias(fs, field).Ok? && FieldByAlias(fs, field).value.1.allowOrdering
    ensures r.Ok? ==> Declared(fs, FieldByAlias(fs, field).value.0, FieldByAlias(fs, field).value.1)
  {
    if FieldByAlias(fs, field).Err? then Rules.OrderingCheck(FieldByAlias(fs, field), field)
    else ResolvedPathIsDeclared(fs, field); Rules.OrderingCheck(FieldByAlias(fs, field), field)
  }

  /** `_get_builder`'s three callbacks, bound to this filter. */
  function HooksOf(fs: FilterSet): (h: Builder.Hooks)
    ensures h.resolveAlias.Some? && h.validateOperatorAndField.Some? && h.validateOrdering.Some?
    ensures forall a :: Builder.ResolveAlias(h, a).Ok? <==> FieldByAlias(fs, a).Ok?
    ensures forall a :: FieldByAlias(fs, a).Ok? ==> Builder.ResolveAlias(h, a) == Ok(FieldByAlias(fs, a).value.0)
    ensures forall a, op :: Builder.ValidateOperatorAndField(h, a, op) == ValidateOperatorAndField(fs, a, op)
    ensures forall a :: h.validateOrdering.value(a) == ValidateOrdering(fs, a)
  {
    Builder.Hooks(
      Some((a: string) => match FieldByAlias(fs, a) case Err(e) => Err(e) case Ok((path, _)) => Ok(path)),
      Some((a: string, op: Operator) => ValidateOperatorAndField(fs, a, op)),
      Some((a: string) => ValidateOrdering(fs, a)))
  }

  /** A filter-class attribute: a field definition, a nested filter instance, or anything else. */
  datatype Attr = DefinitionAttr(definition: FieldDefinition) | FilterAttr(filter: FilterSet) | OtherAttr

  /** The definitions of a namespace, in order. */
  function DefinitionsIn(attrs: seq<(string, Attr)>): seq<(string, FieldDefinition)>
    decreases |attrs|
  {
    if |attrs| == 0 then []
    else
      var (k, a) := attrs[|attrs| - 1];
      DefinitionsIn(attrs[..|attrs| - 1]) + (if a.DefinitionAttr? then [(k, a.definition)] else [])
  }

  /** The nested filters of a namespace, in order. */
  function FiltersIn(attrs: seq<(string, Attr)>): seq<(string, FilterSet)>
    decreases |attrs|
  {
    if |attrs| == 0 then []
    else
      var (k, a) := attrs[|attrs| - 1];
      FiltersIn(attrs[..|attrs| - 1]) + (if a.FilterAttr? then [(k, a.filter)] else [])
  }

  /**
   * `ModelFilterMeta.__new__`: nothing for the base class, an error without
   * an own `__model__`, else exactly the class's own definitions and
   * nested filters in declaration order; base classes are not consulted.
   */
  function HarvestSpec(name: string, namespace: seq<(string, Attr)>): Result<Option<FilterSet>, Error> {
    if name == "ModelFilter" then Ok(None)
    else if Rules.Get(namespace, "__model__").None? then Err(MissingModel(name))
    else Ok(Some(FilterSet(DefinitionsIn(namespace), FiltersIn(namespace))))
  }

  /** With unique keys, the stored value of each entry's key is that entry's value. */
  lemma {:induction false} GetDistinct<V>(d: seq<(string, V)>, i: nat)
    requires Rules.DistinctKeys(d) && i < |d|
    ensures Rules.Get(d, d[i].0) == Some(d[i].1)
    decreases |d|
  {
    var init := d[..|d| - 1];
    if i < |init| {
      assert Rules.DistinctKeys(init);
      assert init[i] == d[i];
      GetDistinct(init, i);
    } else {
      assert forall j :: 0 <= j < |init| ==> init[j].0 != d[i].0 by {
        assert forall j :: 0 <= j < |init| ==> init[j] == d[j];
      }
    }
  }

  /** With unique keys, a name has a definition exactly when its attribute is one. */
  lemma {:induction false} DefinitionsGet(attrs: seq<(string, Attr)>, k: string)
    requires Rules.DistinctKeys(attrs)
    ensures var a := Rules.Get(attrs, k);
      Rules.Get(DefinitionsIn(attrs), k) == if a.Some? && a.value.DefinitionAttr? then Some(a.value.definition) else None
    decreases |attrs|
  {
    if |attrs| > 0 {
      var init := attrs[..|attrs| - 1];
      var last := attrs[|attrs| - 1];
      assert Rules.DistinctKeys(init);
      DefinitionsGet(init, k);
      if last.1.DefinitionAttr? {
        Rules.GetAppend(DefinitionsIn(init), (last.0, last.1.definition), k);
      } else {
        assert DefinitionsIn(attrs) == DefinitionsIn(init) + [] == DefinitionsIn(init);
      }
      if last.0 == k {
        assert forall j :: 0 <= j < |init| ==> init[j].0 != k by {
          assert forall j :: 0 <= j < |init| ==> init[j] == attrs[j];
        }
      }
    }
  }

  /** With unique keys, a name has a nested filter exactly when its attribute is one. */
  lemma {:induction false} FiltersGet(attrs: seq<(string, Attr)>, k: string)
    requires Rules.DistinctKeys(attrs)
    ensures var a := Rules.Get(attrs, k);
      Rules.Get(FiltersIn(attrs), k) == if a.Some? && a.value.FilterAttr? then Some(a.value.filter) else None
    decreases |attrs|
  {
    if |attrs| > 0 {
      var init := attrs[..|attrs| - 1];
      var last := attrs[|attrs| - 1];
      assert Rules.DistinctKeys(init);
      FiltersGet(init, k);
      if last.1.FilterAttr? {
        Rules.GetAppend(FiltersIn(init), (last.0, last.1.filter), k);
      } else {
        assert FiltersIn(attrs) == FiltersIn(init) + [] == FiltersIn(init);
      }
      if last.0 == k {
        assert forall j :: 0 <= j < |init| ==> init[j].0 != k by {
          assert forall j :: 0 <= j < |init| ==> init[j] == attrs[j];
        }
      }
    }
  }

  /**
   * With a namespace's unique keys, a name is harvested as a field exactly
   * when it holds a field definition, and as a relation exactly when it
   * holds a nested filter.
   */
  lemma HarvestIsExact(attrs: seq<(string, Attr)>, k: string)
    requires Rules.DistinctKeys(attrs)
    ensures forall i :: 0 <= i < |attrs| && attrs[i].0 == k ==>
      Rules.Get(DefinitionsIn(attrs), k) == (if attrs[i].1.DefinitionAttr? then Some(attrs[i].1.definition) else None)
      && Rules.Get(FiltersIn(attrs), k) == (if attrs[i].1.FilterAttr? then Some(attrs[i].1.filter) else None)
    ensures (forall i :: 0 <= i < |attrs| ==> attrs[i].0 != k) ==>
      Rules.Get(DefinitionsIn(attrs), k).None? && Rules.Get(FiltersIn(attrs), k).None?
  {
    DefinitionsGet(attrs, k);
    FiltersGet(attrs, k);
    forall i | 0 <= i < |attrs| && attrs[i].0 == k
      ensures Rules.Get(attrs, k) == Some(attrs[i].1)
    {
      GetDistinct(attrs, i);
    }
  }

  /** The metaclass's single pass over the namespace. */
  method Harvest(name: string, namespace: seq<(string, Attr)>) returns (r: Result<Option<FilterSet>, Error>)
    ensures r == HarvestSpec(name, namespace)
  {
    if name == "ModelFilter" {
      return Ok(None);
    }
    if Rules.Get(namespace, "__model__").None? {
      return Err(MissingModel(name));
    }
    var fields: seq<(string, FieldDefinition)> := [];
    var relations: seq<(string, FilterSet)> := [];
    var i := 0;
    while i < |namespace|
      invariant 0 <= i <= |namespace|
      invariant fields == DefinitionsIn(namespace[..i]) && relations == FiltersIn(namespace[..i])
    {
      assert namespace[..i + 1][..i] == namespace[..i];
      var (key, value) := namespace[i];
      if value.DefinitionAttr? {
        fields := fields + [(key, value.definition)];
      } else if value.FilterAttr? {
        relations := relations + [(key, value.filter)];
      }
      i := i + 1;
    }
    assert namespace[..i] == namespace;
    return Ok(Some(FilterSet(fields, relations)));
  }

  /** A filter class after the metaclass ran; `_validate` updates its definitions in place. */
  class FilterClass {
    const name: string
    const model: string
    var fields: seq<(string, FieldDefinition)>
    const relations: seq<(string, FilterSet)>

    constructor (name: string, model: string, h: FilterSet)
      ensures this.name == name && this.model == model
      ensures fields == h.fields && relations == h.relations
    {
      this.name := name;
      this.model := model;
      fields := h.fields;
      relations := h.relations;
    }

    function Filters(): FilterSet
      reads this
    {
      FilterSet(fields, relations)
    }

    /** `_validate`, the same loop as a rule set's. */
    method Validate(ft: string -> Result<PyType, Error>) returns (r: Result<(), Error>)
      modifies this
      ensures fields == Rules.ValidateFields(model, old(fields), ft).fields
      ensures r == Rules.Outcome(Rules.ValidateFields(model, old(fields), ft))
    {
      var updated;
      updated, r := Rules.RunValidation(model, fields, ft);
      fields := updated;
    }
  }
}
