/**
 * `QueryGenerator` (src/generator.ts) as a class whose methods update its
 * fields in place. Every method is proved to do what the corresponding
 * function of module `Translation` says, read on the state `State()` the
 * fields spell out; the properties of the engine are proved about those
 * functions.
 *
 * The Bodybuilder query a caller threads through is modelled as the list
 * of top-level bool clauses added to it so far; `query.query("bool", kind,
 * clauses)` appends `Bool(kind, clauses)`.
 */
module Generator {
  import opened Json
  import opened Types
  import opened Helper
  import opened Util
  import opened Translation

  /** A method's outcome read in the reference model's terms. */
  function Project<T>(r: Result<T>, st: EngineState): Step<T>
  {
    match r
    case Ok(v) => Done(v, st)
    case Err(e) => Fail(e)
  }

  /** The list `acc` after pushing the clause of a successful step. */
  function Pushed(s: Step<QueryNode>, acc: seq<QueryNode>): Step<seq<QueryNode>>
  {
    match s
    case Done(n, st) => Done(acc + [n], st)
    case Fail(e) => Fail(e)
  }

  /** One turn of the `forEach` of `buildFilterQueries`, as the list function takes it. */
  lemma CollectStep(before: EngineState, after: EngineState, cfg: FilterConfig, items: seq<Value>, i: nat, acc: seq<QueryNode>, res: Result<seq<QueryNode>>)
    requires i < |items| && IsWhereList(Arr(items[i..]))
    requires Project(res, after) == Pushed(Meta(before, cfg, items[i].obj), acc)
    ensures res.Err? ==> FilterList(before, cfg, items[i..], acc) == Fail(res.error)
    ensures res.Ok? ==> IsWhereList(Arr(items[i + 1..])) && FilterList(before, cfg, items[i..], acc) == FilterList(after, cfg, items[i + 1..], res.value)
  {
    assert items[i..][0] == items[i] && items[i..][1..] == items[i + 1..];
  }

  class QueryGenerator {
    var maxFilterDepth: int
    var arrayLimit: int
    var filterDepth: int
    /** Open nested paths. */
    const nestedPath: Stack<string>
    /** Pending counters per nested path. */
    var nestedDict: map<string, int>
    /** Number of open `or`/`and`/`not` combinators whose scope is not yet closed. */
    var nestedLevel: int
    /** A non-nested field was seen in the current combinator scope. */
    var nonNestedField: bool

    ghost function State(): EngineState
      reads this, nestedPath
    {
      EngineState(maxFilterDepth, arrayLimit, filterDepth, nestedPath.items, nestedDict, nestedLevel, nonNestedField)
    }

    constructor(maxFilterDepth: int := DefaultMaxFilterDepth, arrayLimit: int := DefaultArrayLimit)
      ensures State() == Fresh(maxFilterDepth, arrayLimit)
      ensures fresh(nestedPath)
    {
      this.maxFilterDepth := maxFilterDepth;
      this.arrayLimit := arrayLimit;
      filterDepth := 0;
      nestedPath := new Stack<string>();
      nestedDict := map[];
      nestedLevel := 0;
      nonNestedField := false;
    }

    /** `getSortObject`: maps each sort field to its db field name, dropping unmapped ones. */
    method GetSortObject(sort: JsObject, cfg: FilterConfig) returns (dbSort: JsObject)
      ensures dbSort == SortOf(sort.entries, cfg)
    {
      dbSort := JsObject([]);
      var i := 0;
      while i < |sort.entries|
        invariant 0 <= i <= |sort.entries|
        invariant dbSort == SortOf(sort.entries[..i], cfg)
      {
        var field := sort.entries[i].0;
        var key := GetDBFieldName(field, cfg);
        if key != None {
          dbSort := Put(dbSort, key.value, sort.entries[i].1);
        }
        assert sort.entries[..i + 1][..i] == sort.entries[..i];
        i := i + 1;
      }
      assert sort.entries[..i] == sort.entries;
    }

    /** `getFilterQuery`: fixes `filterDepth`, then adds one bool clause per top-level key. */
    method GetFilterQuery(query: seq<QueryNode>, value: JsObject, cfg: FilterConfig) returns (r: Result<seq<QueryNode>>)
      requires IsWhere(value)
      modifies this, nestedPath
      ensures Project(r, State()) == FilterQuery(old(State()), cfg, value, query)
    {
      filterDepth := Depth(value) - 1;
      ghost var target := Operators(State(), cfg, value, 0, query);
      var q := query;
      var i := 0;
      while i < |value.entries|
        invariant 0 <= i <= |value.entries|
        invariant Operators(State(), cfg, value, i, q) == target
        decreases |value.entries| - i
      {
        var res := AddKeyClause(q, value, i, cfg);
        if res.Err? {
          return Err(res.error);
        }
        q := res.value;
        i := i + 1;
      }
      return Ok(q);
    }

    /** The `forEach` callback of `getFilterQuery`: the builder key `i` selects adds its bool clause. */
    method AddKeyClause(q: seq<QueryNode>, value: JsObject, i: nat, cfg: FilterConfig) returns (res: Result<seq<QueryNode>>)
      requires IsWhere(value) && i < |value.entries|
      modifies this, nestedPath
      ensures Project(res, State()) == Pushed(KeyClause(old(State()), cfg, value, value.entries[i].0, value.entries[i].1), q)
    {
      var operator := value.entries[i].0;
      var v := value.entries[i].1;
      ReservedKeys(None);
      assert IsArgument(operator, v);
      assert operator == "and" || operator == "or" || operator == "not" ==> IsWhereList(v);
      assert operator == "isNull" || operator == "isNotNull" ==> v.Lit?;
      match operator {
      case "and" =>
        res := BuildBoolAndQuery(q, Many(v.items), cfg);
      case "or" =>
        res := BuildBoolOrQuery(q, Many(v.items), cfg);
      case "not" =>
        res := BuildBoolNotQuery(q, Many(v.items), cfg);
      case "isNotNull" =>
        res := BuildBoolIsNotNullQuery(q, v.text, cfg);
      case "isNull" =>
        res := BuildBoolIsNullQuery(q, v.text, cfg);
      case _ =>
        res := BuildBoolAndQuery(q, One(value), cfg);
      }
    }

    /**
     * The common body of the three combinator builders: refuse an array
     * element with more than one key, then add the bool clause holding
     * what `buildFilterQueries` returns.
     */
    method BuildBoolQuery(query: seq<QueryNode>, occur: Occur, expression: Filters, cfg: FilterConfig) returns (r: Result<seq<QueryNode>>)
      requires FiltersOk(expression)
      modifies this, nestedPath
      ensures Project(r, State()) == Pushed(BoolQuery(old(State()), cfg, occur, expression), query)
    {
      if expression.Many? {
        var j := 0;
        while j < |expression.items|
          invariant 0 <= j <= |expression.items|
          invariant forall k | 0 <= k < j :: |expression.items[k].obj.entries| <= 1
        {
          if |expression.items[j].obj.entries| > 1 {
            return Err(BadRequest(OneKeyPerElement(occur)));
          }
          j := j + 1;
        }
      }
      var clauses := BuildFilterQueries(expression, cfg);
      if clauses.Err? {
        return Err(clauses.error);
      }
      return Ok(query + [Bool(occur, clauses.value)]);
    }

    /** `buildBoolANDQuery`: a `must` bool. */
    method BuildBoolAndQuery(query: seq<QueryNode>, expression: Filters, cfg: FilterConfig) returns (r: Result<seq<QueryNode>>)
      requires FiltersOk(expression)
      modifies this, nestedPath
      ensures Project(r, State()) == Pushed(BoolQuery(old(State()), cfg, Must, expression), query)
    {
      r := BuildBoolQuery(query, Must, expression, cfg);
    }

    /** `buildBoolORQuery`: a `should` bool. */
    method BuildBoolOrQuery(query: seq<QueryNode>, expression: Filters, cfg: FilterConfig) returns (r: Result<seq<QueryNode>>)
      requires FiltersOk(expression)
      modifies this, nestedPath
      ensures Project(r, State()) == Pushed(BoolQuery(old(State()), cfg, Should, expression), query)
    {
      r := BuildBoolQuery(query, Should, expression, cfg);
    }

    /** `buildBoolNOTQuery`: a `must_not` bool. */
    method BuildBoolNotQuery(query: seq<QueryNode>, expression: Filters, cfg: FilterConfig) returns (r: Result<seq<QueryNode>>)
      requires FiltersOk(expression)
      modifies this, nestedPath
      ensures Project(r, State()) == Pushed(BoolQuery(old(State()), cfg, MustNot, expression), query)
    {
      r := BuildBoolQuery(query, MustNot, expression, cfg);
    }

    /** `buildBoolISNULLQuery`: adds `must_not: [exists]` for an allow-listed field. */
    method BuildBoolIsNullQuery(query: seq<QueryNode>, expression: string, cfg: FilterConfig) returns (r: Result<seq<QueryNode>>)
      ensures r.Ok? <==> expression in cfg.isNull
      ensures r.Ok? ==> r.value == query + [Bool(MustNot, [Exists(GetDBFieldName(expression, cfg))])]
      ensures r.Err? ==> r.error == BadRequest(NotInNullList(expression))
      ensures Project(r, State()) == Pushed(KeyClause(State(), cfg, JsObject([("isNull", Lit(expression))]), "isNull", Lit(expression)), query)
    {
      var mustNotExists := [];
      var valid := ValidateField("isNull", expression, cfg);
      ValidateFieldOutcomes("isNull", expression, cfg);
      if valid.Err? {
        return Err(valid.error);
      }
      if valid.value {
        var key := GetDBFieldName(expression, cfg);
        mustNotExists := mustNotExists + [Exists(key)];
        assert mustNotExists == [Exists(key)];
      }
      ReservedKeys(None);
      return Ok(query + [Bool(MustNot, mustNotExists)]);
    }

    /** `buildBoolISNOTNULLQuery`: adds `must: [exists]` for an allow-listed field. */
    method BuildBoolIsNotNullQuery(query: seq<QueryNode>, expression: string, cfg: FilterConfig) returns (r: Result<seq<QueryNode>>)
      ensures r.Ok? <==> expression in cfg.isNotNull
      ensures r.Ok? ==> r.value == query + [Bool(Must, [Exists(GetDBFieldName(expression, cfg))])]
      ensures r.Err? ==> r.error == BadRequest(NotInNotNullList(expression))
      ensures Project(r, State()) == Pushed(KeyClause(State(), cfg, JsObject([("isNotNull", Lit(expression))]), "isNotNull", Lit(expression)), query)
    {
      var mustExists := [];
      var valid := ValidateField("isNotNull", expression, cfg);
      ValidateFieldOutcomes("isNotNull", expression, cfg);
      if valid.Err? {
        return Err(valid.error);
      }
      if valid.value {
        var key := GetDBFieldName(expression, cfg);
        mustExists := mustExists + [Exists(key)];
        assert mustExists == [Exists(key)];
      }
      ReservedKeys(None);
      return Ok(query + [Bool(Must, mustExists)]);
    }

    /**
     * `buildSubQuery`: pops the innermost open path and decides whether
     * the clause is wrapped in a `nested` node now.
     */
    method BuildSubQuery(q: QueryNode) returns (r: QueryNode)
      modifies this, nestedPath
      ensures (r, State()) == SubQuery(old(State()), q)
    {
      var popped := nestedPath.Pop();
      if nestedLevel > 0 {
        nestedLevel := nestedLevel - 1;
      }
      var path := Spelled(popped);
      r := q;
      if path != "underflow" {
        nestedDict := Dec(nestedDict, path);
        if Negative(nestedDict, path) {
          r := NestedQuery(path, q);
        } else if nestedLevel == 0 {
          var empty := nestedPath.IsEmpty();
          if !empty {
            r := DrainPaths(q);
          }
        }
      }
    }

    /**
     * The drain loop of `buildSubQuery`: pops paths until one's counter
     * drops below zero and wraps `q` for that path.
     */
    method DrainPaths(q: QueryNode) returns (r: QueryNode)
      modifies this, nestedPath
      ensures (r, State()) == DrainFrom(old(State()), q)
    {
      ghost var st0 := State();
      var empty := nestedPath.IsEmpty();
      while !empty
        invariant empty <==> nestedPath.items == []
        invariant Drain(nestedPath.items, nestedDict) == Drain(st0.stack, st0.counts)
        invariant State() == st0.(stack := nestedPath.items, counts := nestedDict)
        decreases |nestedPath.items|
      {
        var sub := nestedPath.Pop();
        var subPath := Spelled(sub);
        nestedDict := Dec(nestedDict, subPath);
        if Negative(nestedDict, subPath) {
          return NestedQuery(subPath, q);
        }
        empty := nestedPath.IsEmpty();
      }
      return q;
    }

    /** `buildFilterQueries`: resets the scope flag and collects one clause per element. */
    method BuildFilterQueries(expression: Filters, cfg: FilterConfig) returns (r: Result<seq<QueryNode>>)
      requires FiltersOk(expression)
      modifies this, nestedPath
      ensures Project(r, State()) == FilterQueries(old(State()), cfg, expression)
      decreases FSize(expression), 2
    {
      nonNestedField := false;
      assert State() == old(State()).(nonNested := false);
      if expression.Many? {
        r := CollectClauses(expression.items, cfg);
      } else {
        ghost var st1 := State();
        r := BuildMetaQueries(expression.w, [], cfg);
        match Meta(st1, cfg, expression.w) {
          case Done(n, _) => assert [] + [n] == [n];
          case Fail(_) =>
        }
      }
    }

    /** The `forEach` of `buildFilterQueries` over an array: each element's clause is pushed in turn. */
    method CollectClauses(items: seq<Value>, cfg: FilterConfig) returns (r: Result<seq<QueryNode>>)
      requires IsWhereList(Arr(items))
      modifies this, nestedPath
      ensures Project(r, State()) == FilterList(old(State()), cfg, items, [])
      decreases ItemsSize(items), 1
    {
      ghost var target := FilterList(State(), cfg, items, []);
      var basefilter: seq<QueryNode> := [];
      var i := 0;
      while i < |items|
        invariant 0 <= i <= |items|
        invariant IsWhereList(Arr(items[i..]))
        invariant FilterList(State(), cfg, items[i..], basefilter) == target
        decreases |items| - i
      {
        ItemSizeBound(items, i);
        ghost var before := State();
        var res := BuildMetaQueries(items[i].obj, basefilter, cfg);
        CollectStep(before, State(), cfg, items, i, basefilter, res);
        if res.Err? {
          return Err(res.error);
        }
        basefilter := res.value;
        i := i + 1;
      }
      return Ok(basefilter);
    }

    /** `buildMetaQueries`: pushes the clause of the first key of `exp` onto `basefilter`. */
    method BuildMetaQueries(exp: JsObject, basefilter: seq<QueryNode>, cfg: FilterConfig) returns (r: Result<seq<QueryNode>>)
      requires IsWhere(exp)
      modifies this, nestedPath
      ensures Project(r, State()) == Pushed(Meta(old(State()), cfg, exp), basefilter)
      decreases ObjSize(exp), 1
    {
      ghost var st0 := State();
      var arg := ArgName(exp);
      if !ValidateGraphQLStandard(arg) {
        return Err(BadRequest(NotCamelCase(arg)));
      }
      var k := GetDBFieldName(arg, cfg);
      if k == None {
        return Err(UnmappedArgument);
      }
      var key := k.value;
      var dbType := GetDBFieldType(arg, cfg);
      if dbType == Some(DbNested) {
        if nestedLevel > 0 && nonNestedField {
          return Err(BadRequest(NestedAfterNonNested(arg)));
        }
        var path := PathOf(key);
        nestedPath.Push(path);
        nestedDict := nestedDict[path := if path in nestedDict then nestedDict[path] + 1 else 0];
      } else if dbType != Some(DbNone) && nestedLevel > 0 {
        var empty := nestedPath.IsEmpty();
        if !empty {
          return Err(BadRequest(NonNestedAfterNested(arg)));
        }
        nonNestedField := true;
      }
      assert Track(st0, arg, key, dbType) == Ok(State());
      if filterDepth > maxFilterDepth {
        return Err(BadRequest(DepthExceeded(maxFilterDepth)));
      }
      if exp.entries == [] {
        return Err(TypeError);
      }
      r := DispatchArgument(exp, key, dbType, basefilter, cfg);
    }

    /** The clause-building half of `buildMetaQueries`, for the first entry of `exp`. */
    method DispatchArgument(exp: JsObject, key: string, dbType: Option<DbType>, basefilter: seq<QueryNode>, cfg: FilterConfig)
      returns (r: Result<seq<QueryNode>>)
      requires IsWhere(exp) && exp.entries != []
      modifies this, nestedPath
      ensures Project(r, State()) == Pushed(Dispatch(old(State()), cfg, exp, key, dbType), basefilter)
      decreases ObjSize(exp), 0
    {
      var arg := exp.entries[0].0;
      var value := exp.entries[0].1;
      var op := Classify(arg, dbType);
      assert IsArgument(arg, value);
      ClassifyIgnoresDbType(arg, dbType);
      MemberSizeBound(exp, 0, 0);
      if IsCombinator(op) {
        assert IsWhereList(value);
        nestedLevel := nestedLevel + 1;
        var inner := BuildFilterQueries(Many(value.items), cfg);
        if inner.Err? {
          return Err(inner.error);
        }
        var sub := BuildSubQuery(Bool(OccurOf(op), inner.value));
        return Ok(basefilter + [sub]);
      }
      var leaf := LeafShape(cfg, arrayLimit, arg, key, value, dbType);
      match leaf
      case Err(e) =>
        return Err(e);
      case Ok(Plain(n)) =>
        return Ok(basefilter + [n]);
      case Ok(Scoped(n, negated)) =>
        var m := n;
        if nestedLevel < 1 {
          m := BuildSubQuery(n);
        }
        return Ok(basefilter + [if negated then Bool(MustNot, [m]) else m]);
    }
  }
}
