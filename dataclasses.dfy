/**
 * The plain data of the query compiler: the closed set of comparison
 * operators, the default operator sets per field type, and the records the
 * transformer hands to a builder (filter and order-by expressions, order
 * fields, and the join bookkeeping of the SQLAlchemy builder).
 */
module Dataclasses {

  /** `Operator`: eleven members, each valued by its lower-case name. */
  datatype Operator = EQ | NE | GT | LT | GTE | LTE | IN | OUT | LIKE | ILIKE | ANY

  /** The member's `.name`. */
  function Name(op: Operator): string {
    match op
    case EQ => "EQ"
    case NE => "NE"
    case GT => "GT"
    case LT => "LT"
    case GTE => "GTE"
    case LTE => "LTE"
    case IN => "IN"
    case OUT => "OUT"
    case LIKE => "LIKE"
    case ILIKE => "ILIKE"
    case ANY => "ANY"
  }

  /** The member's `.value`, the token used in RQL text and in error messages. */
  function Value(op: Operator): string {
    match op
    case EQ => "eq"
    case NE => "ne"
    case GT => "gt"
    case LT => "lt"
    case GTE => "gte"
    case LTE => "lte"
    case IN => "in"
    case OUT => "out"
    case LIKE => "like"
    case ILIKE => "ilike"
    case ANY => "any"
  }

  function LowerChar(c: char): char {
    if 'A' <= c <= 'Z' then (c as int + 32) as char else c
  }

  function Lower(s: string): (r: string)
    ensures |r| == |s| && forall i :: 0 <= i < |s| ==> r[i] == LowerChar(s[i])
  {
    if |s| == 0 then "" else [LowerChar(s[0])] + Lower(s[1..])
  }

  const AllOperators: set<Operator> := {EQ, NE, GT, LT, GTE, LTE, IN, OUT, LIKE, ILIKE, ANY}

  /** Every value is the lower-case form of the member's name. */
  lemma ValueIsLowerName(op: Operator)
    ensures Value(op) == Lower(Name(op))
  {
    match op
    case EQ => assert Lower("EQ") == [LowerChar('E')] + Lower("Q");
    case NE => assert Lower("NE") == [LowerChar('N')] + Lower("E");
    case GT => assert Lower("GT") == [LowerChar('G')] + Lower("T");
    case LT => assert Lower("LT") == [LowerChar('L')] + Lower("T");
    case GTE => assert Lower("GTE") == [LowerChar('G')] + Lower("TE");
    case LTE => assert Lower("LTE") == [LowerChar('L')] + Lower("TE");
    case IN => assert Lower("IN") == [LowerChar('I')] + Lower("N");
    case OUT => assert Lower("OUT") == [LowerChar('O')] + Lower("UT");
    case LIKE => assert Lower("LIKE") == [LowerChar('L')] + Lower("IKE");
    case ILIKE => assert Lower("ILIKE") == [LowerChar('I')] + Lower("LIKE");
    case ANY => assert Lower("ANY") == [LowerChar('A')] + Lower("NY");
  }

  /** Values identify members: the eleven members have eleven distinct values. */
  lemma ValuesDistinct(a: Operator, b: Operator)
    ensures Value(a) == Value(b) ==> a == b
  {
  }

  lemma ElevenOperators()
    ensures |AllOperators| == 11
    ensures forall op: Operator :: op in AllOperators
  {
    forall op: Operator ensures op in AllOperators {
      match op
      case EQ =>
      case NE =>
      case GT =>
      case LT =>
      case GTE =>
      case LTE =>
      case IN =>
      case OUT =>
      case LIKE =>
      case ILIKE =>
      case ANY =>
    }
  }

  /**
   * The Python types a field can report. The first six are the scalar
   * types keyed in DEFAULT_OPERATORS; `EnumType` is any subclass of Enum
   * (StrEnum and IntEnum included); `OtherType` is everything else (a UUID
   * or Decimal column, say), which has no entry in the table.
   */
  datatype PyType =
    | StrType | IntType | FloatType | BoolType | DateTimeType | DateType
    | EnumType(enumName: string)
    | OtherType(typeName: string)

  /** The type's `__name__`, as it appears in validation messages. */
  function TypeName(t: PyType): string {
    match t
    case StrType => "str"
    case IntType => "int"
    case FloatType => "float"
    case BoolType => "bool"
    case DateTimeType => "datetime"
    case DateType => "date"
    case EnumType(n) => n
    case OtherType(n) => n
  }

  /** The keys of DEFAULT_OPERATORS: six scalar types and the Enum base class. */
  datatype TypeKey = StrKey | IntKey | FloatKey | BoolKey | DateTimeKey | DateKey | EnumKey

  const DefaultOperators: map<TypeKey, set<Operator>> := map[
    StrKey := {EQ, NE, IN, OUT, LIKE, ILIKE},
    IntKey := {EQ, NE, GT, LT, GTE, LTE, IN, OUT},
    FloatKey := {EQ, NE, GT, LT, GTE, LTE, IN, OUT},
    BoolKey := {EQ, NE},
    DateTimeKey := {EQ, NE, GT, LT, GTE, LTE},
    DateKey := {EQ, NE, GT, LT, GTE, LTE},
    EnumKey := {EQ, NE, IN, OUT}
  ]

  /** The table has an entry for every key. */
  lemma TableIsTotal(k: TypeKey)
    ensures k in DefaultOperators
  {
  }

  /** LIKE and ILIKE are only ever defaults for strings. */
  lemma LikeOnlyForStrings(k: TypeKey)
    ensures LIKE in DefaultOperators[k] <==> k == StrKey
    ensures ILIKE in DefaultOperators[k] <==> k == StrKey
  {
  }

  /** The bool set {eq, ne} is contained in every default set. */
  lemma BoolSetIsLeast(k: TypeKey)
    ensures DefaultOperators[BoolKey] == {EQ, NE}
    ensures DefaultOperators[BoolKey] <= DefaultOperators[k]
  {
  }

  /** int and float agree; date and datetime agree and allow no set or pattern operators. */
  lemma NumericAndTemporalSets()
    ensures DefaultOperators[IntKey] == DefaultOperators[FloatKey]
    ensures DefaultOperators[DateKey] == DefaultOperators[DateTimeKey]
    ensures DefaultOperators[DateKey] * {IN, OUT, LIKE, ILIKE} == {}
  {
  }

  /** ANY is never a default operator: it is dispatched structurally. */
  lemma AnyIsNeverDefault(k: TypeKey)
    ensures ANY !in DefaultOperators[k]
  {
  }

  /** The Enum set is contained in both the str and the int sets. */
  lemma EnumSetWithinStrAndInt()
    ensures DefaultOperators[EnumKey] == {EQ, NE, IN, OUT}
    ensures DefaultOperators[EnumKey] <= DefaultOperators[StrKey]
    ensures DefaultOperators[EnumKey] <= DefaultOperators[IntKey]
  {
  }

  /** `OrderField`: a sign token ("+", "-" or none) and the property path as written. */
  datatype OrderField = OrderField(direction: string, fieldPath: string)

  /**
   * What the transformer emits at top level: a `FilterExpression` wrapping
   * one backend condition, or an `OrderByExpression` with its fields in order.
   */
  datatype Expression<C> =
    | FilterExpression(condition: C)
    | OrderByExpression(fields: seq<OrderField>)

  /** `JoinExpression`: a join target, its on-clause, and whether it is an outer join. */
  datatype JoinExpression<T, O> = JoinExpression(target: T, on: O, isOuter: bool)
}
