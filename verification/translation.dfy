/**
 * The translation engine of `QueryGenerator` (src/generator.ts) as pure
 * functions over an explicit engine state.
 *
 * `EngineState` holds the instance fields the generator updates while it
 * walks a `where` tree: the depth bound and the array limit, the
 * precomputed `filterDepth`, the stack of open nested paths, the per-path
 * pending counters (`nestedDict`), the combinator level and the
 * "non-nested field seen in this scope" flag. Each operation takes the
 * state before the call and yields the clause(s) built and the state
 * after it, or the error it throws. The class in module `Generator`
 * performs the same steps by updating fields, and each of its methods is
 * proved to agree with the function here.
 */
module Translation {
  import opened Json
  import opened Types
  import opened Helper
  import opened Util

  /** The constructor's defaults (src/generator.ts:9, 31). */
  const DefaultMaxFilterDepth: int := 3
  const DefaultArrayLimit: int := 150

  datatype EngineState = EngineState(
    maxFilterDepth: int,
    arrayLimit: int,
    filterDepth: int,
    stack: seq<string>,
    counts: map<string, int>,
    level: int,
    nonNested: bool)

  /** The state a freshly constructed generator starts in. */
  function Fresh(maxFilterDepth: int, arrayLimit: int): (st: EngineState)
    ensures st.stack == [] && st.counts == map[] && st.level == 0 && !st.nonNested
    ensures st.filterDepth == 0
    ensures st.maxFilterDepth == maxFilterDepth && st.arrayLimit == arrayLimit
  {
    EngineState(maxFilterDepth, arrayLimit, 0, [], map[], 0, false)
  }

  /** The outcome of a call: its result and the state after it, or the error it throws. */
  datatype Step<+T> = Done(value: T, st: EngineState) | Fail(error: Error)

  // ---------------------------------------------------------------------
  // Nested paths.

  /** `s.indexOf(c)`: the first position of `c`, or -1. */
  function IndexOfChar(s: string, c: char): (r: int)
    ensures r == -1 <==> c !in s
    ensures r >= 0 ==> r < |s| && s[r] == c && c !in s[..r]
  {
    if s == [] then -1
    else if s[0] == c then 0
    else
      var i := IndexOfChar(s[1..], c);
      if i < 0 then -1 else i + 1
  }

  function Clamp(i: int, n: nat): nat
  {
    if i < 0 then 0 else if i > n then n else i
  }

  /** `s.substring(start, end)`: both ends clamped into the string, swapped when reversed. */
  function Substring(s: string, start: int, end: int): string
  {
    var a := Clamp(start, |s|);
    var b := Clamp(end, |s|);
    if a <= b then s[a..b] else s[b..a]
  }

  /** The nested path of a db field: the part before its first `.` (src/generator.ts:261-262). */
  function PathOf(key: string): string
  {
    Substring(key, 0, IndexOfChar(key, '.'))
  }

  // ---------------------------------------------------------------------
  // Pending counters. A counter JavaScript holds as `NaN` behaves exactly
  // like a missing one (`NaN + 1 || 0` is 0, `NaN - 1` stays `NaN`, and
  // `NaN < 0` is false), so both are represented by an absent key.

  /** `nestedDict[p] = nestedDict[p] + 1 || 0`. */
  function Bump(counts: map<string, int>, p: string): map<string, int>
  {
    counts[p := if p in counts then counts[p] + 1 else 0]
  }

  /** `nestedDict[p] = nestedDict[p] - 1`. */
  function Dec(counts: map<string, int>, p: string): map<string, int>
  {
    if p in counts then counts[p := counts[p] - 1] else counts
  }

  /** `nestedDict[p] < 0`. */
  predicate Negative(counts: map<string, int>, p: string)
  {
    p in counts && counts[p] < 0
  }

  // ---------------------------------------------------------------------
  // Scope tracking on entry to `buildMetaQueries` (src/generator.ts:246-285).

  /**
   * A nested argument is refused inside a combinator once a real
   * non-nested argument was seen in the scope; otherwise its path is
   * pushed and counted. A real non-nested argument (db type other than
   * "None") inside a combinator is refused while a nested path is open;
   * otherwise it marks the scope.
   */
  function Track(st: EngineState, arg: string, key: string, dbType: Option<DbType>): Result<EngineState>
  {
    if dbType == Some(DbNested) then
      if st.level > 0 && st.nonNested then Err(BadRequest(NestedAfterNonNested(arg)))
      else
        var p := PathOf(key);
        Ok(st.(stack := st.stack + [p], counts := Bump(st.counts, p)))
    else if dbType != Some(DbNone) && st.level > 0 then
      if st.stack != [] then Err(BadRequest(NonNestedAfterNested(arg)))
      else Ok(st.(nonNested := true))
    else Ok(st)
  }

  // ---------------------------------------------------------------------
  // Closing nested scopes: `nestedQuery` and `buildSubQuery`
  // (src/generator.ts:170-214).

  /** `nestedQuery(path)` with the clause pushed into its `query` array. */
  function NestedQuery(path: string, q: QueryNode): (r: QueryNode)
    ensures r.Nested? && r.path == path && r.inner == [q]
  {
    Nested(path, [q])
  }

  /** The top of the stack as `pop` reports it. */
  function Top(stack: seq<string>): Popped<string>
  {
    if stack == [] then Underflow else Item(stack[|stack| - 1])
  }

  /** The stack after `pop`. */
  function Below(stack: seq<string>): seq<string>
  {
    if stack == [] then [] else stack[..|stack| - 1]
  }

  /** The string `buildSubQuery` compares with the `"underflow"` sentinel. */
  function Spelled(p: Popped<string>): string
  {
    match p
    case Item(x) => x
    case Underflow => "underflow"
  }

  /**
   * The drain loop (src/generator.ts:200-209): pop paths and decrement
   * their counters until one drops below zero; report that path (if any),
   * the remaining stack and the counters.
   */
  function Drain(stack: seq<string>, counts: map<string, int>): (Option<string>, seq<string>, map<string, int>)
    decreases |stack|
  {
    if stack == [] then (None, stack, counts)
    else
      var p := stack[|stack| - 1];
      var c := Dec(counts, p);
      if Negative(c, p) then (Some(p), stack[..|stack| - 1], c)
      else Drain(stack[..|stack| - 1], c)
  }

  /** `buildSubQuery(q)`: the clause to push in place of `q`, and the state after it. */
  function SubQuery(st: EngineState, q: QueryNode): (QueryNode, EngineState)
  {
    var path := Spelled(Top(st.stack));
    var rest := Below(st.stack);
    var level := if st.level > 0 then st.level - 1 else st.level;
    if path == "underflow" then (q, st.(stack := rest, level := level))
    else
      var counts := Dec(st.counts, path);
      if Negative(counts, path) then
        (NestedQuery(path, q), st.(stack := rest, counts := counts, level := level))
      else if level == 0 && rest != [] then DrainFrom(st.(stack := rest, counts := counts, level := level), q)
      else (q, st.(stack := rest, counts := counts, level := level))
  }

  /** The drain loop run on the state's stack: `q` is wrapped for the path it stops at. */
  function DrainFrom(st: EngineState, q: QueryNode): (QueryNode, EngineState)
  {
    var (found, remaining, counts) := Drain(st.stack, st.counts);
    var r := match found case Some(p) => NestedQuery(p, q) case None => q;
    (r, st.(stack := remaining, counts := counts))
  }

  // ---------------------------------------------------------------------
  // Leaf clauses (src/generator.ts:293-312, 336-484).

  /**
   * The clause a leaf argument contributes: `Plain` is pushed as is;
   * `Scoped` is a nested-typed clause that first goes through
   * `buildSubQuery` when no combinator is open, and is then wrapped in a
   * `must_not` bool when `negated` (the `IsNotIn` form).
   */
  datatype Leaf = Plain(node: QueryNode) | Scoped(node: QueryNode, negated: bool)

  /** Range clauses of nested fields are scoped. */
  function ScopedIfNested(dbType: Option<DbType>, n: QueryNode): Leaf
  {
    if dbType == Some(DbNested) then Scoped(n, false) else Plain(n)
  }

  /** The clause of a nested `IsIn`/`IsNotIn`: match items for text, `terms` otherwise. */
  function NestedItems(nestedType: Option<NestedType>, key: string, value: Value): QueryNode
    requires value.Arr?
  {
    if nestedType == Some(NestedText) then GetMatchItemsQuery(value.items, key) else Terms(key, value)
  }

  /** The clause of a nested equality, shaped by `nested_type`. */
  function NestedEquals(nestedType: Option<NestedType>, key: string, value: Value): QueryNode
  {
    if nestedType == Some(NestedMatchPhrase) then MatchPhrase(key, value)
    else if nestedType == Some(NestedKeyword) then Term(key, value)
    else Match(key, value)
  }

  /** `filter.query_type` is copied only when truthy. */
  function TruthyText(t: Option<string>): Option<string>
  {
    if t.Some? && t.value != "" then t else None
  }

  /** `filter.operator` is copied only when truthy. */
  function TruthyValue(v: Value): Option<Value>
  {
    if Truthy(v) then Some(v) else None
  }

  /**
   * The leaf clause of argument `arg` (db field `key`, db type `dbType`)
   * with value `value`, chosen in the dispatcher's order of tests; the
   * combinator keys are handled by `Meta` itself.
   */
  function LeafShape(cfg: FilterConfig, limit: int, arg: string, key: string, value: Value, dbType: Option<DbType>): Result<Leaf>
    requires IsArgument(arg, value)
    requires !IsCombinator(Classify(arg, dbType))
  {
    match Classify(arg, dbType)
    case RangeLte => Ok(ScopedIfNested(dbType, Range(key, Lte, value)))
    case RangeGte => Ok(ScopedIfNested(dbType, Range(key, Gte, value)))
    case IsNotNullOp =>
      (match ValidateField("isNotNull", value.text, cfg)
       case Err(e) => Err(e)
       case Ok(valid) =>
         // `validateField` never answers false (`Helper.ValidateFieldOutcomes`);
         // the source pushes nothing in that case, and this branch is unreachable.
         if valid then Ok(Plain(Exists(GetDBFieldName(value.text, cfg))))
         else Err(TypeError))
    case IsNullOp =>
      (match ValidateField("isNull", value.text, cfg)
       case Err(e) => Err(e)
       case Ok(valid) =>
         Ok(Plain(Bool(MustNot, if valid then [Exists(GetDBFieldName(value.text, cfg))] else []))))
    case NotInOp =>
      if |value.items| > limit then Err(BadRequest(OverArrayLimit(key, limit)))
      else if dbType == Some(DbNested) then Ok(Scoped(NestedItems(GetNestedType(arg, cfg), key, value), true))
      else if dbType == Some(DbKeyword) then Ok(Plain(Bool(MustNot, [Terms(key, value)])))
      else Ok(Plain(Bool(MustNot, [GetMatchItemsQuery(value.items, key)])))
    case InOp =>
      if |value.items| > limit then Err(BadRequest(OverArrayLimit(key, limit)))
      else if |value.items| == 0 then Err(BadRequest(EmptyIsIn(arg)))
      else if dbType == Some(DbNested) then Ok(Scoped(NestedItems(GetNestedType(arg, cfg), key, value), false))
      else if dbType == Some(DbKeyword) then Ok(Plain(Terms(key, value)))
      else Ok(Plain(GetMatchItemsQuery(value.items, key)))
    case MultiMatchOp =>
      if arg !in cfg.arguments then Err(TypeError)
      else
        var filter := cfg.arguments[arg];
        Ok(Plain(MultiMatch(filter.fields, value, TruthyText(filter.queryType), TruthyValue(filter.operator))))
    case MatchPhraseOp => Ok(Plain(BareMatchPhrase))
    case PrefixOp =>
      if arg !in cfg.arguments then Err(TypeError)
      else
        var text := if cfg.arguments[arg].prefixType == Some("reverse") then Reverse(value.text) else value.text;
        Ok(Plain(Prefix(key, Lit(text))))
    case BoostOp =>
      var v := Prop(value, "fieldValue");
      var b := Prop(value, "boostRelevance");
      Ok(Plain(if dbType == Some(DbText) then BoostedMatch(key, v, b) else BoostedTerm(key, v, b)))
    case EqualsOp =>
      if dbType == Some(DbNested) then Ok(Scoped(NestedEquals(GetNestedType(arg, cfg), key, value), false))
      else if dbType == Some(DbKeyword) then Ok(Plain(Term(key, value)))
      else Ok(Plain(Match(key, value)))
  }

  /** The occurrence kind a combinator key builds. */
  function OccurOf(op: Op): Occur
  {
    match op
    case OrOp => Should
    case NotOp => MustNot
    case _ => Must
  }

  /** The argument name `buildMetaQueries` reads: the first key, `"undefined"` for an empty object. */
  function ArgName(exp: JsObject): string
  {
    if exp.entries == [] then "undefined" else exp.entries[0].0
  }

  // ---------------------------------------------------------------------
  // `buildMetaQueries` and `buildFilterQueries` (src/generator.ts:216-487).

  /**
   * `buildMetaQueries(exp)`: the one clause it pushes onto `basefilter`.
   * Only the first key of `exp` is read. The name is checked, looked up
   * and tracked, and the depth bound enforced, before any clause is built.
   */
  function Meta(st: EngineState, cfg: FilterConfig, exp: JsObject): Step<QueryNode>
    requires IsWhere(exp)
    decreases ObjSize(exp), 1
  {
    var arg := ArgName(exp);
    if !ValidateGraphQLStandard(arg) then Fail(BadRequest(NotCamelCase(arg)))
    else match GetDBFieldName(arg, cfg)
    case None => Fail(UnmappedArgument)
    case Some(key) =>
      var dbType := GetDBFieldType(arg, cfg);
      match Track(st, arg, key, dbType)
      case Err(e) => Fail(e)
      case Ok(st1) =>
        if st1.filterDepth > st1.maxFilterDepth then Fail(BadRequest(DepthExceeded(st1.maxFilterDepth)))
        else if exp.entries == [] then Fail(TypeError)
        else Dispatch(st1, cfg, exp, key, dbType)
  }

  /**
   * The clause of the first entry of `exp` (src/generator.ts:293-484): a
   * combinator opens a level, builds its children and closes the scope;
   * a leaf builds its clause and, when nested-typed outside any
   * combinator, closes the scope at once.
   */
  function Dispatch(st: EngineState, cfg: FilterConfig, exp: JsObject, key: string, dbType: Option<DbType>): Step<QueryNode>
    requires IsWhere(exp) && exp.entries != []
    decreases ObjSize(exp), 0
  {
    var arg := exp.entries[0].0;
    var value := exp.entries[0].1;
    var op := Classify(arg, dbType);
    assert IsArgument(arg, value);
    ClassifyIgnoresDbType(arg, dbType);
    MemberSizeBound(exp, 0, 0);
    assert IsCombinator(op) ==> IsWhereList(value);
    if IsCombinator(op) then
      match FilterQueries(st.(level := st.level + 1), cfg, Many(value.items))
      case Fail(e) => Fail(e)
      case Done(clauses, st2) =>
        var (n, st3) := SubQuery(st2, Bool(OccurOf(op), clauses));
        Done(n, st3)
    else
      match LeafShape(cfg, st.arrayLimit, arg, key, value, dbType)
      case Err(e) => Fail(e)
      case Ok(Plain(n)) => Done(n, st)
      case Ok(Scoped(n, negated)) =>
        var (m, st2) := if st.level < 1 then SubQuery(st, n) else (n, st);
        Done(if negated then Bool(MustNot, [m]) else m, st2)
  }

  /** What `buildFilterQueries` is given: an array of `where` objects or one whole object. */
  datatype Filters = Many(items: seq<Value>) | One(w: JsObject)

  predicate FiltersOk(f: Filters)
  {
    match f
    case Many(items) => IsWhereList(Arr(items))
    case One(w) => IsWhere(w)
  }

  function FSize(f: Filters): nat
  {
    match f
    case Many(items) => ItemsSize(items)
    case One(w) => ObjSize(w)
  }

  /** `buildFilterQueries`: resets the scope flag, then collects one clause per element. */
  function FilterQueries(st: EngineState, cfg: FilterConfig, f: Filters): Step<seq<QueryNode>>
    requires FiltersOk(f)
    decreases FSize(f), 2
  {
    var st0 := st.(nonNested := false);
    match f
    case Many(items) => FilterList(st0, cfg, items, [])
    case One(w) =>
      match Meta(st0, cfg, w)
      case Fail(e) => Fail(e)
      case Done(n, st1) => Done([n], st1)
  }

  /** The `forEach` over an array: `acc` is `basefilter` so far. */
  function FilterList(st: EngineState, cfg: FilterConfig, items: seq<Value>, acc: seq<QueryNode>): Step<seq<QueryNode>>
    requires IsWhereList(Arr(items))
    decreases ItemsSize(items), 1
  {
    if items == [] then Done(acc, st)
    else
      ItemSizeBound(items, 0);
      match Meta(st, cfg, items[0].obj)
      case Fail(e) => Fail(e)
      case Done(n, st1) => FilterList(st1, cfg, items[1..], acc + [n])
  }

  // ---------------------------------------------------------------------
  // The bool builders and `getFilterQuery` (src/generator.ts:67-167).

  /** Some element of an array argument has more than one key. */
  predicate SomeElementHasManyKeys(f: Filters)
    requires FiltersOk(f)
  {
    f.Many? && exists j | 0 <= j < |f.items| :: |f.items[j].obj.entries| > 1
  }

  /** `buildBoolANDQuery` / `buildBoolORQuery` / `buildBoolNOTQuery`: the bool clause added. */
  function BoolQuery(st: EngineState, cfg: FilterConfig, occur: Occur, f: Filters): Step<QueryNode>
    requires FiltersOk(f)
  {
    if SomeElementHasManyKeys(f) then Fail(BadRequest(OneKeyPerElement(occur)))
    else
      match FilterQueries(st, cfg, f)
      case Fail(e) => Fail(e)
      case Done(clauses, st1) => Done(Bool(occur, clauses), st1)
  }

  /** `buildBoolISNULLQuery`: a `must_not` bool around the `exists` clause. */
  function IsNullQuery(cfg: FilterConfig, name: string): Result<QueryNode>
  {
    match ValidateField("isNull", name, cfg)
    case Err(e) => Err(e)
    case Ok(valid) => Ok(Bool(MustNot, if valid then [Exists(GetDBFieldName(name, cfg))] else []))
  }

  /** `buildBoolISNOTNULLQuery`: a `must` bool around the `exists` clause. */
  function IsNotNullQuery(cfg: FilterConfig, name: string): Result<QueryNode>
  {
    match ValidateField("isNotNull", name, cfg)
    case Err(e) => Err(e)
    case Ok(valid) => Ok(Bool(Must, if valid then [Exists(GetDBFieldName(name, cfg))] else []))
  }

  /** The occurrence kind of the bool clause a top-level key adds. */
  function KeyOccur(k: string): Occur
  {
    match k
    case "or" => Should
    case "not" => MustNot
    case "isNull" => MustNot
    case _ => Must
  }

  /** The bool clause one top-level key adds; a key that is no operator sends the whole object. */
  function KeyClause(st: EngineState, cfg: FilterConfig, w: JsObject, k: string, v: Value): Step<QueryNode>
    requires IsWhere(w) && IsArgument(k, v)
  {
    ReservedKeys(None);
    assert k == "and" || k == "or" || k == "not" ==> IsWhereList(v);
    assert k == "isNull" || k == "isNotNull" ==> v.Lit?;
    match k
    case "and" => BoolQuery(st, cfg, Must, Many(v.items))
    case "or" => BoolQuery(st, cfg, Should, Many(v.items))
    case "not" => BoolQuery(st, cfg, MustNot, Many(v.items))
    case "isNotNull" =>
      (match IsNotNullQuery(cfg, v.text)
       case Err(e) => Fail(e)
       case Ok(n) => Done(n, st))
    case "isNull" =>
      (match IsNullQuery(cfg, v.text)
       case Err(e) => Fail(e)
       case Ok(n) => Done(n, st))
    case _ => BoolQuery(st, cfg, Must, One(w))
  }

  /** The `forEach` over the top-level keys from position `i` on; `query` holds the clauses added so far. */
  function Operators(st: EngineState, cfg: FilterConfig, w: JsObject, i: nat, query: seq<QueryNode>): Step<seq<QueryNode>>
    requires IsWhere(w)
    decreases |w.entries| - i
  {
    if i >= |w.entries| then Done(query, st)
    else
      match KeyClause(st, cfg, w, w.entries[i].0, w.entries[i].1)
      case Fail(e) => Fail(e)
      case Done(n, st1) => Operators(st1, cfg, w, i + 1, query + [n])
  }

  /** `getFilterQuery(query, value)`: fixes `filterDepth`, then adds one bool clause per key. */
  function FilterQuery(st: EngineState, cfg: FilterConfig, value: JsObject, query: seq<QueryNode>): Step<seq<QueryNode>>
    requires IsWhere(value)
  {
    Operators(st.(filterDepth := Depth(value) - 1), cfg, value, 0, query)
  }

  // ---------------------------------------------------------------------
  // `getSortObject` (src/generator.ts:50-59).

  /** `o[k] = v` on a plain object: an existing key keeps its place, a new one goes last. */
  function Put(o: JsObject, k: string, v: Value): JsObject
  {
    match IndexOf(o.entries, k)
    case Some(i) => JsObject(o.entries[i := (k, v)])
    case None => JsObject(o.entries + [(k, v)])
  }

  /** The sort object built from the sort entries `e`, taken in order. */
  function SortOf(e: seq<(string, Value)>, cfg: FilterConfig): JsObject
  {
    if e == [] then JsObject([])
    else
      var prev := SortOf(e[..|e| - 1], cfg);
      var last := e[|e| - 1];
      match GetDBFieldName(last.0, cfg)
      case None => prev
      case Some(k) => Put(prev, k, last.1)
  }
}
