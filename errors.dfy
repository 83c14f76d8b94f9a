/**
 * The exceptions the core raises, as values. Each constructor names the
 * Python exception it stands for; messages are kept as the data they are
 * formatted from.
 */
module Errors {
  import opened Dataclasses

  /** One problem found by a rule set's validation of its own declarations. */
  datatype Issue =
    | FieldNotInModel(field: string, model: string)
    | CannotInferOperators(field: string, fieldType: PyType)
    | InvalidOperators(field: string, operators: set<Operator>, fieldType: PyType)

  datatype Error =
      /** ValueError: a rule-set class without its own `__model__`. */
    | MissingModel(className: string)
      /** ValueError: no local field and no relation path for this alias (filters.py). */
    | FieldNotFound(alias: string)
      /** ValueError: no relation alias is a prefix of this alias (rules.py). */
    | RelationNotFound(alias: string)
      /** ValueError: more than one relation alias is a prefix of this alias. */
    | MultipleRelations(alias: string)
      /** ValueError: the resolved field does not list the operator. */
    | OperatorNotAllowed(operator: Operator, field: string)
      /** ValueError: the resolved field has `allow_ordering` false. */
    | OrderingNotAllowed(field: string)
      /** TypeError: `operator in None`, a field whose operators were never set. */
    | OperatorsNotSet(field: string)
      /** ValueError: the newline-joined report of every validation issue. */
    | ValidationFailed(issues: seq<Issue>)
      /** ValueError: a Django field whose internal type has no Python type. */
    | UnsupportedFieldType(internalType: string)
      /** AttributeError: no such attribute (or Django field) on the model. */
    | AttributeMissing(name: string)
      /** AttributeError: a path step that is a column, not a relationship. */
    | NotARelationship(name: string)
      /** AttributeError: a field whose mapped property has no columns (a relationship). */
    | NotAColumn(name: string)
      /** NotImplementedError: a column type that declares no Python type. */
    | PythonTypeUnavailable(typeName: string)
      /** ValueError: `eq`/`ne` on a relationship with a value other than null. */
    | RelationshipNeedsNull(operator: Operator)
      /** AttributeError: a string method applied to a value that is not a string. */
    | NotAString
      /** TypeError: `date.replace("*", "%")`, a date or datetime given string arguments. */
    | ReplaceNeedsIntegers
      /** AttributeError: `.condition` read from an order-by expression. */
    | NotACondition
      /** TypeError: `apply_not` called with other than one condition. */
    | WrongArity(count: nat)
      /** TypeError: a Django `Q` combined with something that is not a `Q`. */
    | NotCombinable

  /** The errors a Python `except AttributeError` clause catches. */
  predicate IsAttributeError(e: Error) {
    e.AttributeMissing? || e.NotARelationship? || e.NotAColumn? || e.NotAString? || e.NotACondition?
  }
}
