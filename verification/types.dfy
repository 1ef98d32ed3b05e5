/**
 * The configuration that drives the translator, the query tree it emits,
 * its error outcomes, and the shape of a `where` argument.
 */
module Types {
  import opened Json

  /** `db_type` of an argument; `DbNone` is the configuration's "None". */
  datatype DbType = DbKeyword | DbText | DbBoolean | DbLong | DbNested | DbMatchPhrase | DbNone

  /** `nested_type`: the clause shape used for a nested field. */
  datatype NestedType = NestedText | NestedKeyword | NestedMatchPhrase

  /** `type`: whether the GraphQL argument is a string or an array. */
  datatype ValueType = StringValue | ArrayValue

  /** One entry of `filter.arguments`. Absent optional settings are `None` (or `Undefined`). */
  datatype FieldConfig = FieldConfig(
    description: string,
    dbFieldName: string,
    dbType: DbType,
    valueType: ValueType,
    queryType: Option<string>,
    prefixType: Option<string>,
    nestedType: Option<NestedType>,
    fields: Option<seq<string>>,
    operator: Value)

  /** `filterConfig.filter`: the two allow-lists and the argument descriptors. */
  datatype FilterConfig = FilterConfig(
    isNull: seq<string>,
    isNotNull: seq<string>,
    arguments: map<string, FieldConfig>)

  /** The occurrence kinds of a bool query. */
  datatype Occur = Must | Should | MustNot

  datatype Bound = Lte | Gte

  /**
   * The search-engine clauses the translator builds. `Exists` carries the
   * looked-up field name, which JavaScript leaves `undefined` (here `None`)
   * when the allow-listed name has no descriptor. `BareMatchPhrase` is a
   * `match_phrase` clause without any field in it.
   */
  datatype QueryNode =
    | Bool(occur: Occur, clauses: seq<QueryNode>)
    | Range(field: string, bound: Bound, limit: Value)
    | Term(field: string, value: Value)
    | BoostedTerm(field: string, value: Value, boost: Value)
    | Terms(field: string, values: Value)
    | Match(field: string, query: Value)
    | BoostedMatch(field: string, query: Value, boost: Value)
    | MatchPhrase(field: string, query: Value)
    | BareMatchPhrase
    | Prefix(field: string, prefix: Value)
    | MultiMatch(fields: Option<seq<string>>, query: Value, queryType: Option<string>, operator: Option<Value>)
    | Exists(target: Option<string>)
    | Nested(path: string, inner: seq<QueryNode>)

  /** Why a request was refused with 400 BAD REQUEST. */
  datatype Reason =
    | OneKeyPerElement(occur: Occur)
    | NotCamelCase(arg: string)
    | NestedAfterNonNested(arg: string)
    | NonNestedAfterNested(arg: string)
    | DepthExceeded(max: int)
    | OverArrayLimit(field: string, limit: int)
    | EmptyIsIn(arg: string)
    | NotInNullList(name: string)
    | NotInNotNullList(name: string)

  /**
   * Error outcomes: an `ApolloError` with status 400 or 500, the plain
   * `Error` thrown for an argument without a descriptor, and the runtime
   * `TypeError` of calling a string method on the missing first key of an
   * empty object.
   */
  datatype Error =
    | BadRequest(reason: Reason)
    | OperationNotFound
    | UnmappedArgument
    | TypeError

  function StatusCode(e: Error): Option<int>
  {
    match e
    case BadRequest(_) => Some(400)
    case OperationNotFound => Some(500)
    case _ => None
  }

  datatype Result<+T> = Ok(value: T) | Err(error: Error)

  /** The clause kinds the argument name (and, for phrases, the db type) selects. */
  datatype Op =
    | RangeLte | RangeGte
    | OrOp | AndOp | NotOp
    | IsNotNullOp | IsNullOp
    | NotInOp | InOp
    | MultiMatchOp | MatchPhraseOp | PrefixOp | BoostOp
    | EqualsOp

  /**
   * The dispatcher's order of tests on an argument name: suffixes are found
   * by substring, the combinator and null-check keys by equality, and a
   * `match_phrase` db type wins over the later suffixes.
   */
  function Classify(arg: string, dbType: Option<DbType>): Op
  {
    if Contains(arg, "IsLte") then RangeLte
    else if Contains(arg, "IsGte") then RangeGte
    else if arg == "or" then OrOp
    else if arg == "and" then AndOp
    else if arg == "not" then NotOp
    else if arg == "isNotNull" then IsNotNullOp
    else if arg == "isNull" then IsNullOp
    else if Contains(arg, "IsNotIn") then NotInOp
    else if Contains(arg, "IsIn") then InOp
    else if Contains(arg, "MultiMatch") then MultiMatchOp
    else if dbType == Some(DbMatchPhrase) then MatchPhraseOp
    else if Contains(arg, "Prefix") then PrefixOp
    else if Contains(arg, "Boost") then BoostOp
    else EqualsOp
  }

  /** The reserved keys are recognised by equality, whatever the db type. */
  lemma ReservedKeys(d: Option<DbType>)
    ensures Classify("or", d) == OrOp
    ensures Classify("and", d) == AndOp
    ensures Classify("not", d) == NotOp
    ensures Classify("isNotNull", d) == IsNotNullOp
    ensures Classify("isNull", d) == IsNullOp
  {
    Absent("or", "IsLte", 0);
    Absent("or", "IsGte", 0);
    Absent("and", "IsLte", 0);
    Absent("and", "IsGte", 0);
    Absent("not", "IsLte", 0);
    Absent("not", "IsGte", 0);
    Absent("isNotNull", "IsLte", 0);
    Absent("isNotNull", "IsGte", 0);
    Absent("isNull", "IsLte", 0);
    Absent("isNull", "IsGte", 0);
  }

  /**
   * A name with none of the suffix letters `I`, `M`, `P`, `B` that is not
   * reserved is a plain equality unless its db type is `match_phrase`.
   */
  lemma PlainName(arg: string, d: Option<DbType>)
    requires 'I' !in arg && 'M' !in arg && 'P' !in arg && 'B' !in arg
    requires arg != "or" && arg != "and" && arg != "not" && arg != "isNotNull" && arg != "isNull"
    ensures Classify(arg, d) == if d == Some(DbMatchPhrase) then MatchPhraseOp else EqualsOp
  {
    Absent(arg, "IsLte", 0);
    Absent(arg, "IsGte", 0);
    Absent(arg, "IsNotIn", 0);
    Absent(arg, "IsIn", 0);
    Absent(arg, "MultiMatch", 0);
    Absent(arg, "Prefix", 0);
    Absent(arg, "Boost", 0);
  }

  /** Below the `match_phrase` test, the db type plays no part in the classification. */
  lemma ClassifyIgnoresDbType(arg: string, d: Option<DbType>)
    ensures Classify(arg, d) != MatchPhraseOp ==> Classify(arg, d) == Classify(arg, None)
  {
  }

  predicate IsCombinator(op: Op)
  {
    op.OrOp? || op.AndOp? || op.NotOp?
  }

  /**
   * A `where` object as the GraphQL layer delivers it: keys are distinct,
   * no value is `undefined`, `and`/`or`/`not` hold arrays of `where`
   * objects, `isNull`/`isNotNull` and `...Prefix` hold a string, and
   * `...IsIn`/`...IsNotIn` hold an array.
   */
  predicate IsWhere(w: JsObject)
    decreases w
  {
    && DistinctKeys(w)
    && forall i | 0 <= i < |w.entries| :: IsArgument(w.entries[i].0, w.entries[i].1)
  }

  predicate IsArgument(k: string, v: Value)
    decreases v
  {
    && v != Undefined
    && match Classify(k, None)
       case OrOp => IsWhereList(v)
       case AndOp => IsWhereList(v)
       case NotOp => IsWhereList(v)
       case IsNotNullOp => v.Lit?
       case IsNullOp => v.Lit?
       case PrefixOp => v.Lit?
       case NotInOp => v.Arr?
       case InOp => v.Arr?
       case _ => true
  }

  /** An array whose every element is a `where` object. */
  predicate IsWhereList(v: Value)
    decreases v, 0
  {
    v.Arr? && forall j | 0 <= j < |v.items| :: v.items[j].Obj? && IsWhere(v.items[j].obj)
  }
}
