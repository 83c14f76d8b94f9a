# requela, modelled in Dafny

requela turns RQL filter strings into ORM queries. Examples of such strings:
- `and(eq(name,John),gt(age,18))`
- `any(events,eq(kind,created))`
- `order_by(-created_at)`

The grammar yields a parse tree. A transformer folds that tree into filter expressions and order-by expressions. For this fold it calls an operator table that the query builder supplies. The builder then folds those expressions into a query:
- it validates operators and ordering through optional callbacks;
- it applies each filter in turn;
- it applies each ordering in turn;
- at the end it applies the joins it collected along the way.

Rule classes declare which fields may be filtered and with which operators:
- `ModelRQLRules` declares field rules and relationship rules, collected through the class hierarchy.
- `ModelFilter` declares field definitions and nested filters.

Each rule class resolves aliases to field paths and validates itself against the model.

This project models that core:

| module | file | models |
|---|---|---|
| `Dataclasses` | `dataclasses.dfy` | The operators and their values. The default operator table. Order fields and the two kinds of expression. Join records. |
| `Errors` | `errors.dfy` | The exceptions raised, as values; `Result` and `Step` carry them. |
| `Transformer` | `transformer.dfy` | The parse tree after lark, and the transformer as a fold over it. The fold is parameterised by an `Algebra`, the operator table. A free algebra records every call. |
| `Builder` | `builder.dfy` | `QueryBuilder` and its pieces: the callback hooks, `apply_operator`, `build_query`'s loop (a class holding the builder's state) and its specification `BuildQuerySpec`. |
| `Rules` | `rules.dfy` | Field and relationship rules, alias lookup, validation, and the metaclass's harvest over the class hierarchy. `RulesClass` holds the rule class's field table, which validation updates in place. |
| `Filters` | `filters.dfy` | `ModelFilter`: the same roles, with dotted lookup through nested filters. |
| `Django` | `django.dfy` | The Django builder. `Q` objects are trees, and a two-valued `Holds` gives them their meaning on a row. Querysets are call chains. |
| `SqlAlchemy` | `sqlalchemy.dfy` | The SQLAlchemy builder: a schema, property paths walked through relationships with aliases and join recording, SQL clauses as trees, and a statement record. |
| `Strings` | `strings.dfy` | The Python `str` operations used: startswith, endswith, slicing, removeprefix, replace, split, join. |

A builder's mutable `joins` list is threaded as a `State` through every call. Errors keep that state: joins appended before an exception stay in the list.

The ORM is represented by data:
- Django: a model is a map from field names to internal type names.
- SQLAlchemy: a schema maps model names to columns and relationships.

Python's `get_field_type`, given to validation, becomes a function parameter.

## Model

| member | source | states |
|---|---|---|
| Dataclasses.Lower | src/requela/dataclasses.py:31-42 | Lower-casing maps each character of an operator name to its lower-case form and keeps the length. |
| Dataclasses.ValueIsLowerName | src/requela/dataclasses.py:31-42 | Every operator's value is its member name in lower case. |
| Dataclasses.ValuesDistinct | src/requela/dataclasses.py:31-42 | No two operators share a value, so an operator is determined by its value. |
| Dataclasses.ElevenOperators | src/requela/dataclasses.py:31-42 | There are exactly eleven operators, and every one is enumerated. |
| Dataclasses.TableIsTotal | src/requela/dataclasses.py:46-93 | DEFAULT_OPERATORS has an entry for every supported type: str, int, float, bool, datetime, date and Enum. |
| Dataclasses.LikeOnlyForStrings | src/requela/dataclasses.py:46-93 | like and ilike are defaults for str and for no other type. |
| Dataclasses.BoolSetIsLeast | src/requela/dataclasses.py:46-93 | bool allows exactly eq and ne, and every type's defaults include them. |
| Dataclasses.NumericAndTemporalSets | src/requela/dataclasses.py:46-93 | int and float share one default set, and date and datetime share another. The temporal set has neither membership nor pattern operators. |
| Dataclasses.AnyIsNeverDefault | src/requela/dataclasses.py:46-93 | `any` is in no type's default set. |
| Dataclasses.EnumSetWithinStrAndInt | src/requela/dataclasses.py:46-93 | Enum allows eq, ne, in and out, a subset of both the str set and the int set. |
| Transformer.OperatorOf | src/requela/transformer.py:41-69 | A comparison-operator node maps to a comparison operator, and never to `any`. |
| Transformer.Literal | src/requela/transformer.py:90-101 | The four sentinels `true`, `false`, `null()` and `empty()` become True, False, None and "". Every other token keeps its plain value. |
| Transformer.NullIsNotEmpty | src/requela/transformer.py:97-100 | `null()` becomes None and `empty()` becomes "", and the two differ. |
| Transformer.Coerce | src/requela/transformer.py:86-119 | A single value goes through `literal`. A tuple keeps its length, and each item goes through `literal`. |
| Transformer.OrderFields | src/requela/transformer.py:131-135 | Each order item becomes an OrderField with the same direction and path, in the same order. |
| Transformer.Conditions | src/requela/transformer.py:29 | Reading `.condition` from each argument succeeds exactly when every argument is a filter expression, and then yields their conditions in order. Otherwise it raises AttributeError. |
| Transformer.TransformExpr | src/requela/transformer.py:21-135 | An `order_by` node always succeeds, leaves the state alone and is the only node that yields an order-by expression. |
| Transformer.TransformList | src/requela/transformer.py:140-145 | A successful transform of a list yields one expression per element, an order-by exactly where the element is an `order_by` node. |
| Transformer.TopLevelOrderPreserved | src/requela/transformer.py:140-145 | A combined expression keeps its operations in order. Those written as `order_by` clauses come out as order-by expressions. |
| Transformer.FreeTransform | src/requela/transformer.py:25-135 | With the recording algebra, transforming a tree without misplaced `order_by` clauses succeeds. It yields the tree's denotation and appends exactly the tree's operator calls, innermost first. |
| Transformer.FreeResults | src/requela/transformer.py:140-145 | Each expression's denotation as a filter expression, one per expression, in order. |
| Transformer.FreeTransformList | src/requela/transformer.py:140-145 | The same for a list of expressions: left to right, with the calls concatenated. |
| Transformer.LogicalIsVariadic | src/requela/transformer.py:25-30 | A logical expression passes all of its argument conditions, in order, to one operator call. |
| Transformer.ComparisonCallsOnce | src/requela/transformer.py:77-81 | A comparison makes exactly one operator call, with its property and coerced value. |
| Transformer.AnyUnwraps | src/requela/transformer.py:121-125 | `any` passes the relationship name and the inner expression's condition to the `any` operator. |
| Transformer.MisplacedOrderByRaises | src/requela/transformer.py:25-30 | A `order_by` clause nested inside a logical or `any` expression makes the transform fail. |
| Transformer.MisplacedOrderByList | src/requela/transformer.py:140-145 | A transform of a list succeeds only if no element nests a `order_by` clause. |
| Builder.ResolveAlias | src/requela/builders/base.py:132-135 | Without a callback an alias resolves to itself. With one, the callback's answer or error is used. |
| Builder.ValidateOperatorAndField | src/requela/builders/base.py:128-130 | Without a callback every operator is accepted. With one, its verdict is used. |
| Builder.ApplyOperator | src/requela/builders/base.py:124-126 | The operator is validated first. If it is rejected, the operator function is never called; otherwise it is dispatched to the operator function. |
| Builder.CheckOrdering | src/requela/builders/base.py:147-150 | The ordering check passes exactly when there is no callback, or the callback accepts every field path. |
| Builder.ApplyExpression | src/requela/builders/base.py:145-151 | A filter goes to `apply_filter`. An order-by runs the ordering check first: if the check fails, `apply_order_by` is not called and the state is kept. |
| Builder.Fold | src/requela/builders/base.py:144-151 | A sequence of filters alone always succeeds and leaves the builder's state unchanged. |
| Builder.BuildQuerySpec | src/requela/builders/base.py:137-152 | A failed transform fails the build with the transform's state. The build succeeds exactly when the transform and the loop do, and then the joins are applied once, to the loop's query, with its final state. |
| Builder.QueryBuilder.constructor | src/requela/builders/base.py:18-46 | A new builder holds its backend and its initial state. |
| Builder.QueryBuilder.BuildQuery | src/requela/builders/base.py:137-152 | The loop's result and the builder's new state are those of the specification fold `BuildQuerySpec`. |
| Builder.QueryBuilder.RunOrderingCheck | src/requela/builders/base.py:148-150 | The loop over the order fields gives exactly `CheckOrdering`. |
| Builder.FoldStep | src/requela/builders/base.py:144-151 | After a prefix that succeeded, one more iteration applies the next expression to the loop's state and query. |
| Builder.FoldStopsAtError | src/requela/builders/base.py:144-151 | Once applying an expression fails, the expressions after it are never applied. |
| Builder.OrderingCheckedBeforeEveryOrderBy | src/requela/builders/base.py:147-151 | If the fold succeeds, every order field of every order-by expression passed the ordering check. |
| Builder.TracedFold | src/requela/builders/base.py:144-151 | Whenever the ordering callback accepts every order field, filters and orderings are applied one per expression, in the transformer's order. |
| Builder.BuildQueryOrder | src/requela/builders/base.py:137-152 | Whenever the ordering callback accepts every order field, build_query applies all filters and orderings in the order they were written, then applies the joins once, last. |
| Rules.FirstMatch | src/requela/rules.py:186-188 | It finds the first local field whose alias or name equals the lookup. When there is none, no field matches. |
| Rules.PrefixRelations | src/requela/rules.py:172-175 | It collects exactly the relations that are candidates for the alias, in declaration order. |
| Rules.CollectCandidates | src/requela/rules.py:172-175 | The candidate loop collects exactly the `PrefixRelations` indices, in order. |
| Rules.RelationByAlias | src/requela/rules.py:171-180 | There is a unique candidate, or the error is "not found" when there is none and "multiple" when there are two or more. |
| Rules.ResolvedPathIsDeclared | src/requela/rules.py:183-193 | A resolved path is a declared field: local, or a relation name, a dot and a declared path of the nested rules. |
| Rules.LocalNameResolves | src/requela/rules.py:186-188 | A field is found by its own name unless an earlier field answers to that name. |
| Rules.RelationErrors | src/requela/rules.py:176-179 | Without a local match, the relation lookup's two errors surface unchanged. |
| Rules.FieldByAlias | src/requela/rules.py:183-193 | The lookup fails only with the two relation errors, "not found" and "multiple". |
| Rules.Lookup | src/requela/rules.py:183-193 | The callbacks' lookup, as written: when it succeeds the path is a declared field with that rule, and it fails only with the two relation errors. |
| Rules.GetFieldByAlias | src/requela/rules.py:183-193 | The two loops compute `FieldByAlias`. |
| Rules.PrefixWithoutSeparatorIsAmbiguous | src/requela/rules.py:174 | As written, `accounts.name` with relations `account` and `accounts` raises "multiple relations". |
| Rules.SegmentLookupResolvesAccounts | src/requela/rules.py:190-193 | With a segment boundary, the same alias resolves to `accounts.name`. |
| Rules.DotFreeAliasesSelectOne | src/requela/rules.py:171-180 | With distinct, dot-free relation aliases and a segment boundary, `alias.rest` selects exactly the relation named by `alias`. |
| Rules.SegmentPrefixIsTheAlias | src/requela/rules.py:174 | A dot-free alias followed by a dot can be a prefix of `a.rest` only when it is `a`. |
| Rules.AnySeparatorResolves | src/requela/rules.py:174-193 | As written, any character after a relation alias separates it: `account_name` resolves to `account.name`, through the callbacks' lookup too. |
| Rules.ResolveAlias | src/requela/rules.py:85-88 | It succeeds exactly when the lookup does. It yields the lookup's path, which is a declared field. |
| Rules.OperatorCheck | src/requela/rules.py:90-94 | It passes exactly when the field is found and its operators are set and include the operator. A lookup error surfaces unchanged. Unset operators give a TypeError. An absent operator gives "not allowed". |
| Rules.OrderingCheck | src/requela/rules.py:96-100 | It passes exactly when the field is found and allows ordering. Otherwise it gives the lookup error or "not allowed". |
| Rules.ValidateOperatorAndField | src/requela/rules.py:90-94 | The check passes exactly when the alias resolves to a field whose operators are set and include the operator. Such a field is declared. |
| Rules.ValidateOrdering | src/requela/rules.py:96-100 | The check passes exactly when the alias resolves to a field that allows ordering. Such a field is declared. |
| Rules.HooksOf | src/requela/rules.py:102-109 | The builder gets all three callbacks, and each one answers as the rule class's own method. |
| Rules.OperatorsForType | src/requela/rules.py:119-125 | Enum subclasses take the Enum defaults, and an unlisted type has none. Every set found is non-empty, contains eq and ne, and excludes `any`. |
| Rules.UnsupportedOperators | src/requela/rules.py:156-168 | It returns the declared operators the type does not support, or all of them for a type without defaults. |
| Rules.DefaultsAreValid | src/requela/rules.py:119-136 | Operators inferred from a type are never reported as invalid for it. |
| Rules.CheckField | src/requela/rules.py:114-147 | It raises only a non-AttributeError from `get_field_type`. An AttributeError becomes a "not found" report. Unset operators are filled with the type's defaults. An explicit set is kept. Invalid operators are reported. |
| Rules.Outcome | src/requela/rules.py:149-150 | Validation passes exactly when nothing escaped and nothing was reported. |
| Rules.ValidationKeepsFields | src/requela/rules.py:114-132 | Validation keeps every field's name, alias and ordering flag, in order. It never touches an explicit operator set. |
| Rules.ValidatedFieldsAreComplete | src/requela/rules.py:111-150 | On success every field was checked without a report. Afterwards each field has operators that its type fully supports. |
| Rules.EveryMissingFieldReported | src/requela/rules.py:144-147 | Every field missing from the model is reported, not just the first, so validation fails. |
| Rules.EscapeStopsTheLoop | src/requela/rules.py:114-117 | After an exception escapes, the remaining fields stay as declared. |
| Rules.LastFieldKept | src/requela/rules.py:114-132 | Checking one more field appends one entry with that field's name, alias and ordering flag, and an explicit operator set unchanged. The earlier entries stay. |
| Rules.CheckedAt | src/requela/rules.py:114-147 | A field checked without an escape contributes its new rule and, if any, its one issue. |
| Rules.EscapeAt | src/requela/rules.py:114-117 | At the first escape the table is the checked prefix, then the failing field and the rest as declared, and the error is that field's. |
| Rules.CheckFields | src/requela/rules.py:114-147 | The in-place loop over the field table computes `ValidateFields`: the new rules, the issues in order, and the error that escaped, if any. |
| Rules.RunValidation | src/requela/rules.py:111-150 | `_validate` leaves the field table `ValidateFields` computes. It raises the escaped error if there is one, else one report of every issue when there are any, else nothing. |
| Rules.Get | src/requela/rules.py:45 | A dictionary key is absent exactly when no entry has it. |
| Rules.AddNew | src/requela/rules.py:45-55 | Adding entries only where the key is new never changes existing entries. |
| Rules.FieldsInConcat | src/requela/rules.py:36-40 | Sorting a namespace into fields and relations distributes over concatenation. |
| Rules.AddNewConcat | src/requela/rules.py:43-62 | Adding two batches one after the other is adding their concatenation. |
| Rules.AddNewGet | src/requela/rules.py:45-55 | After an add-if-new, a key keeps its earlier value and otherwise takes the new one. |
| Rules.AddNewAppend | src/requela/rules.py:52-55 | It steps the add-if-new loop by one entry. |
| Rules.GetAppend | src/requela/rules.py:45 | Lookup in an extended dictionary favours the old entries. |
| Rules.AddNewDistinct | src/requela/rules.py:32-55 | `fields` and `relations` stay dictionaries: keys stay unique. |
| Rules.FieldsInDistinct | src/requela/rules.py:36-40 | Splitting a namespace keeps keys unique and adds no key. |
| Rules.FieldKeysDistinct | src/requela/rules.py:36-38 | The field rules taken from a namespace with unique keys have unique keys, each one a key of the namespace. |
| Rules.RelationKeysDistinct | src/requela/rules.py:36-40 | The same for the relationship rules. |
| Rules.HarvestPrecedence | src/requela/rules.py:32-65 | Each key takes its value from the class's own namespace first. Otherwise it comes from the bases in the order the metaclass visits them: direct bases, then a depth-first walk. Keys stay unique. |
| Rules.GetConcat | src/requela/rules.py:45-55 | Lookup in a concatenation favours the front. |
| Rules.MissingModelRaises | src/requela/rules.py:26-30 | Harvesting fails exactly for a class other than the base that lacks `__model__`, and then it fails with that class's name. |
| Rules.AddFromVars | src/requela/rules.py:43-55 | The loop over `vars(base)` adds the new fields and relations. |
| Rules.VisitAllStep | src/requela/rules.py:61-62 | It steps the walk over the direct bases. |
| Rules.AddVisited | src/requela/rules.py:50-62 | Adding the batches of successive walks is adding the batch of the combined walk. |
| Rules.CollectStep | src/requela/rules.py:57-62 | Adding one more base's walk to what was collected so far gives what the longer walk collects. |
| Rules.CollectFromBases | src/requela/rules.py:50-58 | The recursive `collect_rules_from_bases` adds exactly the entries of its depth-first walk. |
| Rules.HarvestClass | src/requela/rules.py:25-66 | The metaclass's loops compute the harvest specification. |
| Rules.SplitNamespace | src/requela/rules.py:35-40 | The first loop takes exactly the class's own field and relationship rules, in namespace order. |
| Rules.AddDirectBases | src/requela/rules.py:42-48 | The second loop adds only the new keys of each direct base's own namespace, in base order. |
| Rules.CollectAll | src/requela/rules.py:60-62 | The third loop adds the new keys of each direct base's depth-first walk, in base order. |
| Rules.RulesClass.constructor | src/requela/rules.py:64-66 | A rule class holds the harvested fields and relations. |
| Rules.RulesClass.Hooks | src/requela/rules.py:102-109 | It returns the class's callbacks for the builder. |
| Rules.RulesClass.Validate | src/requela/rules.py:111-150 | `_validate` updates the field table in place and raises once with every issue. |
| Filters.FindRelation | src/requela/filters.py:142 | It finds the first nested filter with the given name, or reports none. |
| Filters.FieldByAlias | src/requela/filters.py:132-148 | The lookup fails only with "field not found". |
| Filters.ResolvedPathIsDeclared | src/requela/filters.py:132-148 | A resolved path is local, or a relation name, a dot and a path declared below it. |
| Filters.DottedAliasResolves | src/requela/filters.py:140-146 | `rel.rest` without a local match is looked up as `rest` in the nested filter, and the result is prefixed with `rel.`. |
| Filters.NotFound | src/requela/filters.py:140-148 | An alias with no dot, or with a head naming no relation, raises "not found". |
| Filters.HooksOf | src/requela/filters.py:46-70 | All three callbacks answer as the filter's own methods. |
| Filters.ValidateOperatorAndField | src/requela/filters.py:51-55 | The check passes exactly when the alias resolves to a definition whose operators are set and include the operator. Such a path is declared. |
| Filters.ValidateOrdering | src/requela/filters.py:57-61 | The check passes exactly when the alias resolves to a definition that allows ordering. Such a path is declared. |
| Filters.HarvestIsExact | src/requela/filters.py:19-23 | Field definitions and nested filters are taken from the namespace exactly, each under its own key. |
| Filters.GetDistinct | src/requela/filters.py:19-23 | In a dictionary with unique keys, each entry's key looks up that entry's value. |
| Filters.DefinitionsGet | src/requela/filters.py:19-21 | A name has a field definition exactly when its attribute in the namespace is one, and it is that definition. |
| Filters.FiltersGet | src/requela/filters.py:22-23 | A name has a nested filter exactly when its attribute in the namespace is one, and it is that filter. |
| Filters.Harvest | src/requela/filters.py:9-27 | The metaclass's loop computes the harvest specification. |
| Filters.FilterClass.constructor | src/requela/filters.py:25-27 | A filter class holds its fields and relations. |
| Filters.FilterClass.Validate | src/requela/filters.py:72-111 | The same in-place validation as the rule classes. |
| Django.GetFieldType | src/requela/builders/django.py:23-43 | A missing field gives AttributeError. Each of the six internal types maps to its Python type. Other internal types give ValueError. |
| Django.Combine | src/requela/builders/django.py:45-55 | An empty `Q()` is the identity of `&` and `\|`. |
| Django.Fold | src/requela/builders/django.py:45-55 | Folding succeeds exactly when every operand is a `Q`. Otherwise the error is "not combinable". |
| Django.AndHoldsIffAll | src/requela/builders/django.py:45-49 | `apply_and` holds on a row exactly when every condition does. |
| Django.OrHoldsIffSome | src/requela/builders/django.py:51-55 | `apply_or` holds exactly when some condition does. With no conditions it is the empty `Q()`. |
| Django.NonEmptyFold | src/requela/builders/django.py:45-55 | A fold of one or more non-empty `Q`s is not empty. |
| Django.ApplyFold | src/requela/builders/django.py:45-55 | The loops compute `Fold`. |
| Django.FoldStaysFailed | src/requela/builders/django.py:45-55 | A failing prefix makes the whole fold fail. |
| Django.Logical | src/requela/builders/django.py:45-58 | `not` takes exactly one `Q` and negates it. `and` and `or` succeed exactly on `Q` operands. |
| Django.ResolveProperty | src/requela/builders/django.py:108-110 | It succeeds exactly when alias resolution does, and the result is the resolved path with every dot replaced by `__`. |
| Django.DotsBecomeLookups | src/requela/builders/django.py:108-110 | Dotted segments become `__`-joined Django lookups. |
| Django.WildcardsOf | src/requela/builders/django.py:89-96 | It classifies the four cases of a leading or trailing `*`. |
| Django.LikeOperand | src/requela/builders/django.py:88-96 | It strips exactly the wildcards that were present. A lone `*` gives "". |
| Django.Like | src/requela/builders/django.py:88-106 | The lookup is contains, endswith or startswith by wildcard position, with an `i` prefix for ilike. |
| Django.IlikeIsCaseInsensitiveLike | src/requela/builders/django.py:98-106 | ilike differs from like only by the `i` lookup prefix. |
| Django.Apply | src/requela/builders/django.py:60-106 | The pattern operators applied to a non-string raise AttributeError. Otherwise it yields the comparison on the resolved property, and the result is never empty. |
| Django.Compare | src/requela/builders/django.py:60-106 | Every operator builds a non-empty `Q` except like and ilike on a non-string, which raise AttributeError. |
| Django.NegationsComplement | src/requela/builders/django.py:65-86 | ne is the negation of eq, and out is the negation of in. |
| Django.NullTests | src/requela/builders/django.py:60-68 | eq and ne with None become `__isnull` True and False, and only None does. |
| Django.ApplyFilter | src/requela/builders/django.py:115-119 | A `Q` is filtered directly. A prefetch expression adds `prefetch_related` and then filters its condition. |
| Django.OrderKeys | src/requela/builders/django.py:125-130 | Keys are the resolved properties, with `-` for descending, in order. They fail exactly when one property fails. |
| Django.ApplyOrderBy | src/requela/builders/django.py:124-131 | The loop yields `order_by` of exactly those keys, or their error. |
| Django.OrderBy | src/requela/builders/django.py:124-131 | `order_by` is called once, with exactly the keys, and only when every field resolves. Otherwise the first failure is raised. |
| Django.OrderKeysStayFailed | src/requela/builders/django.py:125-130 | The first failing field decides the error. |
| Django.BackendFor | src/requela/builders/django.py:19-131 | The Django builder's operator table: `objects.all()` to start, and joins left as they are. |
| SqlAlchemy.GetAttr | src/requela/builders/sqlalchemy.py:150-152 | `getattr` finds a declared attribute of the entity's model, or raises AttributeError with its name. |
| SqlAlchemy.Walk | src/requela/builders/sqlalchemy.py:133-150 | A successful walk yields the attribute named by the last segment. A failing walk raises only AttributeError. |
| SqlAlchemy.ResolveProperty | src/requela/builders/sqlalchemy.py:128-152 | An alias error is raised with nothing recorded. Otherwise the result is the attribute named by the last segment of the resolved path, or an AttributeError. Recorded joins and aliases only grow. |
| SqlAlchemy.AnyNullable | src/requela/builders/sqlalchemy.py:142-144 | A join is outer exactly when some local column is nullable. |
| SqlAlchemy.Shapes | src/requela/builders/sqlalchemy.py:145-147 | It gives each join's target model, relationship name and outer flag, in order. |
| SqlAlchemy.Through | src/requela/builders/sqlalchemy.py:138-148 | Stepping through a relationship takes one new alias and keeps every earlier join. |
| SqlAlchemy.ShapesConcat | src/requela/builders/sqlalchemy.py:145-147 | The shapes of appended joins are the shapes of each part, in order. |
| SqlAlchemy.ThroughShapes | src/requela/builders/sqlalchemy.py:139-147 | One step records no join for a to-many relationship. For a to-one relationship it records one join with that relationship's name, its target and the outer flag of its local columns. |
| SqlAlchemy.WalkGrows | src/requela/builders/sqlalchemy.py:128-152 | The walk only appends joins and takes aliases, also when it raises. |
| SqlAlchemy.WalkResolves | src/requela/builders/sqlalchemy.py:133-152 | The walk succeeds exactly when each inner segment is a relationship and the last segment exists. |
| SqlAlchemy.WalkAppends | src/requela/builders/sqlalchemy.py:138-147 | A successful walk appends exactly the expected joins, in path order. |
| SqlAlchemy.WalkJoins | src/requela/builders/sqlalchemy.py:128-152 | Joins and aliases only grow. Resolution succeeds exactly when every inner segment is a relationship and the last is an attribute. On success exactly one join is appended per to-one relationship on the path, in path order. |
| SqlAlchemy.SingleSegmentNoJoin | src/requela/builders/sqlalchemy.py:133-152 | An undotted path is a root attribute, and it adds no join. |
| SqlAlchemy.RepeatedPathJoinsTwice | src/requela/builders/sqlalchemy.py:145-147 | Resolving the same dotted path twice appends its joins twice, because joins are not deduplicated. |
| SqlAlchemy.ResolvePropertyLoop | src/requela/builders/sqlalchemy.py:128-152 | The loop over `parts[:-1]` computes the recursive walk. |
| SqlAlchemy.GetFieldType | src/requela/builders/sqlalchemy.py:40-42 | It gives the column's `python_type`. A missing attribute or a relationship gives AttributeError. A type without a Python type gives NotImplementedError. |
| SqlAlchemy.SqlPattern | src/requela/builders/sqlalchemy.py:121 | Every `*` becomes `%` and every other character stays, so no `*` is left. |
| SqlAlchemy.PatternError | src/requela/builders/sqlalchemy.py:120-126 | `replace` on a date or datetime raises TypeError, since their `replace` takes integer fields. On any other non-string it raises AttributeError. |
| SqlAlchemy.RelationshipIsNull | src/requela/builders/sqlalchemy.py:66-72 | It is the conjunction of `IS NULL` over the local columns, in order. |
| SqlAlchemy.RelationshipIsNotNull | src/requela/builders/sqlalchemy.py:86-92 | It is the disjunction of `IS NOT NULL` over the local columns. |
| SqlAlchemy.Compare | src/requela/builders/sqlalchemy.py:53-126 | On a relationship, eq and ne need None and become the null tests. On a column, eq gives IS for booleans and None and `==` otherwise, and ne gives IS NOT for booleans and None and `!=` otherwise. like and ilike need a string and use the SQL pattern; on anything else they raise `PatternError`. |
| SqlAlchemy.Apply | src/requela/builders/sqlalchemy.py:53-126 | A non-string pattern raises before resolving: TypeError for a date or datetime, AttributeError otherwise. Otherwise the new state is the resolution's, even on error, and the clause is `Compare` on the resolved attribute. |
| SqlAlchemy.ApplyOnlyAppends | src/requela/builders/sqlalchemy.py:145-147 | Applying an operator only appends to `joins`. |
| SqlAlchemy.Logical | src/requela/builders/sqlalchemy.py:44-51 | `and_` and `or_` take all clauses, and `~` takes exactly one. |
| SqlAlchemy.ApplyAny | src/requela/builders/sqlalchemy.py:154-168 | It succeeds exactly for a relationship of the root model and adds no join. |
| SqlAlchemy.ApplyFilter | src/requela/builders/sqlalchemy.py:177-178 | It appends one where clause and changes nothing else. |
| SqlAlchemy.ApplyJoinsSpec | src/requela/builders/sqlalchemy.py:180-183 | It adds every recorded join, in order, after the existing ones, with target, on-clause and outer flag. |
| SqlAlchemy.ApplyJoins | src/requela/builders/sqlalchemy.py:180-183 | The loop computes `ApplyJoinsSpec`. |
| SqlAlchemy.OrderTerms | src/requela/builders/sqlalchemy.py:186-191 | There is one term per field, in field order: term i orders by the attribute named by the last segment of `fields[i]`'s resolved path, descending exactly for `-`. Recorded joins only grow, also when a field fails. |
| SqlAlchemy.OrderTermsStep | src/requela/builders/sqlalchemy.py:187-191 | One more field is resolved against the earlier fields' state; on success its term is appended, and otherwise its error stops the ordering. |
| SqlAlchemy.ApplyOrderBy | src/requela/builders/sqlalchemy.py:185-192 | The loop computes `OrderBySpec`, including the joins it records. |
| SqlAlchemy.OrderTermsStayFailed | src/requela/builders/sqlalchemy.py:187-188 | The first field that fails to resolve decides the result. |
| SqlAlchemy.BackendFor | src/requela/builders/sqlalchemy.py:21-192 | The SQLAlchemy operator table: `select(model)` to start, and every entry as specified above. |
| SqlAlchemy.ScenarioResolves | src/requela/builders/sqlalchemy.py:128-152 | `account.name` from User resolves to the aliased Account's name, recording one inner join. |
| SqlAlchemy.ScenarioSplits | src/requela/builders/sqlalchemy.py:131 | `account.name` splits into its two segments. |
| SqlAlchemy.UserAccountLookup | src/requela/builders/sqlalchemy.py:150-152 | `account` on User is its to-one relationship to Account. |
| SqlAlchemy.AccountNameLookup | src/requela/builders/sqlalchemy.py:150-152 | The aliased Account has its `name` column. |
| SqlAlchemy.ScenarioWalk | src/requela/builders/sqlalchemy.py:133-152 | Walking `account` then `name` from User records one inner join on the aliased Account and yields its name column. |
| SqlAlchemy.ScenarioComparison | src/requela/builders/sqlalchemy.py:53-64 | `eq(account.name,My Account)` becomes an equality on the aliased column and records its join. |
| SqlAlchemy.ScenarioTransforms | src/requela/builders/base.py:141 | The two-clause query transforms into a filter and an ordering. |
| SqlAlchemy.TransformPair | src/requela/transformer.py:140-145 | Two successful transforms in a row give the pair, with the state threaded through. |
| SqlAlchemy.OrderByTransforms | src/requela/transformer.py:131-135 | A top-level `order_by` clause becomes its order-by expression with no operator call, whatever the operator table. |
| SqlAlchemy.ScenarioOrderResolves | src/requela/builders/sqlalchemy.py:152 | `name` resolves on the root with no join. |
| SqlAlchemy.ScenarioFolds | src/requela/builders/base.py:144-151 | After the filter and the ordering, the statement holds the where clause and the order term. |
| SqlAlchemy.ManyToOneScenario | src/requela/builders/base.py:137-152 | The whole query built for a many-to-one filter with sorting is a select of User with one where clause, one inner join on the aliased Account, and one ascending order term. |

## Findings

| source | as written | input that shows it | evidently intended | confidence | as-written member | corrected member |
|---|---|---|---|---|---|---|
| src/requela/rules.py:174 | `alias.startswith(relation_def.alias)` selects a relation by a bare string prefix. Yet line 191 drops one more character, assuming a separator. | Relations `account` and `accounts`, each aliased by its name, and alias `accounts.name`: both are prefixes, so "Multiple relations found" is raised. | A relation is selected when the alias starts with its alias followed by a dot, so `accounts.name` resolves to `accounts.name`. | not executed | Rules.PrefixWithoutSeparatorIsAmbiguous | Rules.DotFreeAliasesSelectOne |

`Rules.FieldByAlias` takes a flag:
- `false` is the code as written.
- `true` checks for the segment boundary.

`Rules.Lookup` fixes the flag to `false`, so the callbacks behave as the code does. Those callbacks are `Rules.ResolveAlias`, `Rules.ValidateOperatorAndField`, `Rules.ValidateOrdering`, `Rules.HooksOf` and `Rules.RulesClass.Hooks`. `PrefixWithoutSeparatorIsAmbiguous` shows the ambiguity reaching `ResolveAlias`. `AnySeparatorResolves` shows the other side of the bare prefix: `account_name` resolves to `account.name`. The corrected lookup is `FieldByAlias` with `true`; `SegmentLookupResolvesAccounts` and `DotFreeAliasesSelectOne` are about it. The general facts `ResolvedPathIsDeclared`, `LocalNameResolves`, `RelationErrors` and `GetFieldByAlias` hold for both settings.

## Left out

- Parsing: the lark grammar and `parse` (parser.py) are not part of this model. The transformer starts from the parse tree, and a token's text arrives already split into its lexical class.
- Lark's token callbacks `FLOAT`, `INT`, `DATETIME` and `DATE` (transformer.py:103-113): they are library number and ISO-date parsing. A typed token carries its parsed value.
- The unwrapping of `VisitError` in `build_query` (base.py:140-143): the model's errors are not wrapped in the first place.
- Builder choice, `get_builder_for_model` (builders/__init__.py): the model builds each builder's table directly.
- Query execution: a Django `QuerySet` is a call chain, and a SQLAlchemy `Select` is a record of its clauses. Neither is evaluated. The meaning of `Q` objects is given only through the two-valued `Django.Holds`, so SQL's three-valued NULL logic is not modelled.
- SQLAlchemy `_adapt_condition` (sqlalchemy.py:170-175) and the correlation clause built from `local_remote_pairs` in `apply_any`: `SqlAlchemy.ApplyAny` keeps the inner clause unadapted, with the relationship it correlates through. An `IndexError` for a relationship without local–remote pairs is not modelled.
- SqlAlchemy.ApplyAny: does not model the `aliased` object it creates; aliases are numbered only for entities on property paths.
- SQLAlchemy comparator semantics: `gt`, `lt`, `in` and the like applied to a relationship attribute are recorded as a `Binary` clause. The ORM's own error for them is not modelled.
- Float, date and datetime values appear only as opaque value constructors. Their ordering and parsing are not modelled.
- Error message text, and the sorting of invalid operator values inside a message: errors carry the data the message is formatted from.
- Shared `FieldRule` objects: Python validation mutates a rule object that a subclass may share with its base. The model updates the class's own table, so the aliasing between classes is not captured.
- Filters: `FieldDefinition` is taken to have `FieldRule`'s shape: allowed operators, alias and ordering flag.
- Rules.HarvestClass: requires the class namespace to have distinct keys, as a Python dict always does.
- Django: `filter` called with a prefetch expression nested in another (`any` inside `any`) is recorded as a filter call. Django's own rejection of that argument is not modelled.
- Django ilike: tests/django/test_comparison.py:271-285 expects case-sensitive lookups for `ilike`. Those tests are not followed. The model uses the lookups the code builds: `icontains`, `iendswith` and `istartswith`.
- Newer-version behaviour visible in some tests is not modelled: dedicated error classes, and rule sets that nest a rule-set instance instead of a `RelationshipRule`.
- Rules.RelationByAlias: the relation lookup is modelled on the code: a prefix match, then a single candidate. The rule callbacks use this as-written match. A relation is selected by its `alias` only; its name is never compared (rules.py:174).
- Rules.RuleSet: a rule set built by hand may list two relations under one name, where a Python dict keeps only one. Then `RelationByAlias` can report `MultipleRelations` where Python would not. Harvested rule sets have distinct keys (`RelationKeysDistinct`).
- Rules.HooksOf: nested rule sets are taken as declared. Python validates a nested rule set when it is built, before it is nested. So a nested field with unset operators gives `OperatorsNotSet` (a TypeError) here, where Python would already have filled in the type's defaults.
