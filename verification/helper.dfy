/**
 * The static lookups and validations of `QueryBuilder` (src/helper.ts):
 * pure functions over the filter configuration.
 */
module Helper {
  import opened Json
  import opened Types

  /** `getDBFieldName`: "_score" passes through, otherwise the descriptor's db field name. */
  function GetDBFieldName(str: string, cfg: FilterConfig): Option<string>
  {
    if str == "_score" then Some(str)
    else if str in cfg.arguments then Some(cfg.arguments[str].dbFieldName)
    else None
  }

  /** `getDBFieldType`. */
  function GetDBFieldType(str: string, cfg: FilterConfig): Option<DbType>
  {
    if str in cfg.arguments then Some(cfg.arguments[str].dbType) else None
  }

  /** `getNestedType`: absent both when the argument or its `nested_type` is missing. */
  function GetNestedType(str: string, cfg: FilterConfig): Option<NestedType>
  {
    if str in cfg.arguments then cfg.arguments[str].nestedType else None
  }

  /** The three lookups agree on which arguments exist, and "_score" is always a field name. */
  lemma LookupsAgree(str: string, cfg: FilterConfig)
    ensures GetDBFieldName("_score", cfg) == Some("_score")
    ensures str in cfg.arguments ==>
      && GetDBFieldName(str, cfg) == (if str == "_score" then Some("_score") else Some(cfg.arguments[str].dbFieldName))
      && GetDBFieldType(str, cfg) == Some(cfg.arguments[str].dbType)
      && GetNestedType(str, cfg) == cfg.arguments[str].nestedType
    ensures str !in cfg.arguments ==>
      && GetDBFieldType(str, cfg) == None
      && GetNestedType(str, cfg) == None
      && (GetDBFieldName(str, cfg).Some? <==> str == "_score")
    ensures str != "_score" ==> (GetDBFieldName(str, cfg).Some? <==> GetDBFieldType(str, cfg).Some?)
  {
  }

  /** `searchItems.map(item => ({match: {[key]: item}}))`. */
  function MatchClauses(items: seq<Value>, key: string): (r: seq<QueryNode>)
    ensures |r| == |items|
    ensures forall i :: 0 <= i < |items| ==> r[i] == Match(key, items[i])
  {
    if items == [] then [] else [Match(key, items[0])] + MatchClauses(items[1..], key)
  }

  /** `getMatchItemsQuery`: a `should` bool with one `match` per item, in order. */
  function GetMatchItemsQuery(items: seq<Value>, key: string): (r: QueryNode)
    ensures r.Bool? && r.occur == Should && |r.clauses| == |items|
    ensures forall i :: 0 <= i < |items| ==> r.clauses[i] == Match(key, items[i])
  {
    Bool(Should, MatchClauses(items, key))
  }

  /** `validateField`: true for an allow-listed field, otherwise it throws. */
  function ValidateField(operation: string, fieldName: string, cfg: FilterConfig): Result<bool>
  {
    match operation
    case "isNull" =>
      if fieldName in cfg.isNull then Ok(true) else Err(BadRequest(NotInNullList(fieldName)))
    case "isNotNull" =>
      if fieldName in cfg.isNotNull then Ok(true) else Err(BadRequest(NotInNotNullList(fieldName)))
    case _ => Err(OperationNotFound)
  }

  /**
   * The two known operations accept exactly the allow-listed fields and
   * refuse the rest with a 400; any other operation is a 500; the function
   * never answers false.
   */
  lemma ValidateFieldOutcomes(operation: string, fieldName: string, cfg: FilterConfig)
    ensures ValidateField(operation, fieldName, cfg) != Ok(false)
    ensures operation == "isNull" ==>
      (ValidateField(operation, fieldName, cfg) == Ok(true) <==> fieldName in cfg.isNull)
    ensures operation == "isNotNull" ==>
      (ValidateField(operation, fieldName, cfg) == Ok(true) <==> fieldName in cfg.isNotNull)
    ensures ValidateField(operation, fieldName, cfg).Err? ==>
      StatusCode(ValidateField(operation, fieldName, cfg).error) ==
        (if operation == "isNull" || operation == "isNotNull" then Some(400) else Some(500))
  {
  }

  // ---------------------------------------------------------------------
  // `isCamelCase`: the anchored regular expression /^[a-z][A-Za-z0-9]*$/.

  predicate IsLower(c: char) { 'a' <= c <= 'z' }

  predicate IsAlnum(c: char) { 'a' <= c <= 'z' || 'A' <= c <= 'Z' || '0' <= c <= '9' }

  /** States of the automaton the expression compiles to. */
  datatype Scan = Start | Tail | Reject

  function StepScan(q: Scan, c: char): Scan
  {
    match q
    case Start => if IsLower(c) then Tail else Reject
    case Tail => if IsAlnum(c) then Tail else Reject
    case Reject => Reject
  }

  function RunScan(q: Scan, s: string): Scan
    decreases |s|
  {
    if s == [] then q else RunScan(StepScan(q, s[0]), s[1..])
  }

  /** `isCamelCase(arg)`: `test` succeeds when the whole string drives the automaton to `Tail`. */
  predicate IsCamelCase(arg: string)
  {
    RunScan(Start, arg) == Tail
  }

  /** `validateGraphQLStandard` delegates to `isCamelCase`. */
  predicate ValidateGraphQLStandard(arg: string)
  {
    IsCamelCase(arg)
  }

  /** The language of the expression, stated character by character. */
  predicate CamelCaseShape(s: string)
  {
    |s| > 0 && IsLower(s[0]) && forall i | 1 <= i < |s| :: IsAlnum(s[i])
  }

  lemma {:induction false} TailRun(s: string)
    ensures RunScan(Tail, s) == Tail <==> forall i | 0 <= i < |s| :: IsAlnum(s[i])
    decreases |s|
  {
    if s != [] {
      TailRun(s[1..]);
      RejectRun(s[1..]);
      assert forall i | 1 <= i < |s| :: s[i] == s[1..][i - 1];
    }
  }

  lemma {:induction false} RejectRun(s: string)
    ensures RunScan(Reject, s) == Reject
    decreases |s|
  {
    if s != [] {
      RejectRun(s[1..]);
    }
  }

  /**
   * The automaton accepts exactly the non-empty strings that start with a
   * lower-case ASCII letter and continue with ASCII letters and digits; so
   * does `validateGraphQLStandard`.
   */
  lemma CamelCaseCharacterised(arg: string)
    ensures IsCamelCase(arg) <==> CamelCaseShape(arg)
    ensures ValidateGraphQLStandard(arg) <==> CamelCaseShape(arg)
  {
    if arg != [] {
      TailRun(arg[1..]);
      RejectRun(arg[1..]);
      assert forall i | 1 <= i < |arg| :: arg[i] == arg[1..][i - 1];
    }
  }

  /** "_score", the one name `getDBFieldName` passes through, is never accepted as an argument. */
  lemma ScoreIsNotCamelCase()
    ensures !IsCamelCase("_score")
  {
    CamelCaseCharacterised("_score");
  }
}
