/**
 * Properties of the clauses the generator builds: leaf shapes and their
 * bounds, the one-key rule of the bool builders, the shape of the list
 * `getFilterQuery` adds to, the depth bound, the mixed-scope refusal, and
 * the sort object.
 */
module Clauses {
  import opened Json
  import opened Types
  import opened Helper
  import opened Util
  import opened Translation
  import opened Scope

  // ---------------------------------------------------------------------
  // Nested paths (src/generator.ts:261-262).

  /**
   * The path of a db field is the text before its first dot: it holds no
   * dot, and the field starts with the path and a dot; a field without a
   * dot has the empty path.
   */
  lemma PathOfShape(key: string)
    ensures '.' !in PathOf(key)
    ensures '.' !in key ==> PathOf(key) == ""
    ensures '.' in key ==> |PathOf(key)| < |key| && key[..|PathOf(key)| + 1] == PathOf(key) + "."
  {
    var i := IndexOfChar(key, '.');
    if i >= 0 {
      assert PathOf(key) == key[..i];
      assert key[..i + 1] == key[..i] + [key[i]];
    }
  }

  // ---------------------------------------------------------------------
  // Leaf clauses (src/generator.ts:336-443).

  /** Only an argument of db type "nested" yields a clause that goes through the scope machinery. */
  lemma OnlyNestedIsScoped(cfg: FilterConfig, limit: int, arg: string, key: string, value: Value, dbType: Option<DbType>)
    requires IsArgument(arg, value) && !IsCombinator(Classify(arg, dbType))
    ensures LeafShape(cfg, limit, arg, key, value, dbType).Ok? && dbType != Some(DbNested) ==>
      LeafShape(cfg, limit, arg, key, value, dbType).value.Plain?
  {
  }

  /**
   * `...IsIn`: the array must hold between one item and the limit, both
   * ends included; a longer one is refused for exceeding the limit, an
   * empty one as empty. A text field matches any of the items.
   */
  lemma IsInBounds(cfg: FilterConfig, limit: int, arg: string, key: string, value: Value, dbType: Option<DbType>)
    requires IsArgument(arg, value) && Classify(arg, dbType) == InOp
    ensures value.Arr?
    ensures var r := LeafShape(cfg, limit, arg, key, value, dbType);
      && (r.Ok? <==> 0 < |value.items| <= limit)
      && (|value.items| > limit ==> r == Err(BadRequest(OverArrayLimit(key, limit))))
      && (|value.items| == 0 && limit >= 0 ==> r == Err(BadRequest(EmptyIsIn(arg))))
      && (r.Ok? && dbType != Some(DbNested) && dbType != Some(DbKeyword) ==>
            && r.value.Plain? && r.value.node.Bool? && r.value.node.occur == Should
            && |r.value.node.clauses| == |value.items|
            && forall i | 0 <= i < |value.items| :: r.value.node.clauses[i] == Match(key, value.items[i]))
  {
    ClassifyIgnoresDbType(arg, dbType);
  }

  /**
   * `...IsNotIn`: any array up to the limit is accepted, the empty one
   * included, and a longer one is refused; the clause excludes the items.
   */
  lemma IsNotInBounds(cfg: FilterConfig, limit: int, arg: string, key: string, value: Value, dbType: Option<DbType>)
    requires IsArgument(arg, value) && Classify(arg, dbType) == NotInOp
    ensures value.Arr?
    ensures var r := LeafShape(cfg, limit, arg, key, value, dbType);
      && (r.Ok? <==> |value.items| <= limit)
      && (|value.items| > limit ==> r == Err(BadRequest(OverArrayLimit(key, limit))))
      && (r.Ok? ==> match r.value
            case Plain(n) => n.Bool? && n.occur == MustNot && |n.clauses| == 1
            case Scoped(_, negated) => negated && dbType == Some(DbNested))
  {
    ClassifyIgnoresDbType(arg, dbType);
  }

  /**
   * Whatever its db type, a successful `...IsNotIn` argument contributes a
   * `must_not` bool around exactly one clause, nested-typed ones included.
   */
  lemma IsNotInExcludes(st: EngineState, cfg: FilterConfig, exp: JsObject, key: string, dbType: Option<DbType>)
    requires IsWhere(exp) && exp.entries != []
    requires Classify(exp.entries[0].0, dbType) == NotInOp
    ensures Dispatch(st, cfg, exp, key, dbType).Done? ==>
      var n := Dispatch(st, cfg, exp, key, dbType).value;
      n.Bool? && n.occur == MustNot && |n.clauses| == 1
  {
    assert IsArgument(exp.entries[0].0, exp.entries[0].1);
    IsNotInBounds(cfg, st.arrayLimit, exp.entries[0].0, key, exp.entries[0].1, dbType);
  }

  /**
   * `...Prefix`: refused for an argument without a descriptor; otherwise a
   * prefix clause on the field whose text has the value's length, and is
   * the value itself or, for `prefix_type` "reverse", the value read
   * backwards (so reversing it again gives the value back).
   */
  lemma PrefixReversal(cfg: FilterConfig, limit: int, arg: string, key: string, value: Value, dbType: Option<DbType>)
    requires IsArgument(arg, value) && Classify(arg, dbType) == PrefixOp
    ensures value.Lit?
    ensures arg !in cfg.arguments ==> LeafShape(cfg, limit, arg, key, value, dbType) == Err(TypeError)
    ensures arg in cfg.arguments ==>
      var r := LeafShape(cfg, limit, arg, key, value, dbType);
      && r.Ok? && r.value.Plain? && r.value.node.Prefix? && r.value.node.field == key
      && r.value.node.prefix.Lit?
      && var t := r.value.node.prefix.text;
      && |t| == |value.text|
      && (cfg.arguments[arg].prefixType == Some("reverse") ==>
            && Reverse(t) == value.text
            && forall i | 0 <= i < |t| :: t[i] == value.text[|t| - 1 - i])
      && (cfg.arguments[arg].prefixType != Some("reverse") ==> t == value.text)
  {
    ClassifyIgnoresDbType(arg, dbType);
    if arg in cfg.arguments && cfg.arguments[arg].prefixType == Some("reverse") {
      ReverseInvolutive(value.text);
      forall i | 0 <= i < |value.text| ensures Reverse(value.text)[i] == value.text[|value.text| - 1 - i] {
        ReverseAt(value.text, i);
      }
    }
  }

  /**
   * The top-level null checks: an allow-listed field gives a `must_not`
   * (`isNull`) or `must` (`isNotNull`) bool around the `exists` clause of
   * its db field; any other field is refused with a 400 naming it.
   */
  lemma NullChecks(cfg: FilterConfig, name: string)
    ensures IsNullQuery(cfg, name).Ok? <==> name in cfg.isNull
    ensures IsNullQuery(cfg, name).Ok? ==>
      IsNullQuery(cfg, name).value == Bool(MustNot, [Exists(GetDBFieldName(name, cfg))])
    ensures IsNullQuery(cfg, name).Err? ==> IsNullQuery(cfg, name).error == BadRequest(NotInNullList(name))
    ensures IsNotNullQuery(cfg, name).Ok? <==> name in cfg.isNotNull
    ensures IsNotNullQuery(cfg, name).Ok? ==>
      IsNotNullQuery(cfg, name).value == Bool(Must, [Exists(GetDBFieldName(name, cfg))])
    ensures IsNotNullQuery(cfg, name).Err? ==> IsNotNullQuery(cfg, name).error == BadRequest(NotInNotNullList(name))
  {
    ValidateFieldOutcomes("isNull", name, cfg);
    ValidateFieldOutcomes("isNotNull", name, cfg);
  }

  // ---------------------------------------------------------------------
  // The bool builders (src/generator.ts:95-143, 216-228).

  /** The `forEach` adds exactly one clause per element, after those already collected. */
  lemma {:induction false} FilterListLength(st: EngineState, cfg: FilterConfig, items: seq<Value>, acc: seq<QueryNode>)
    requires IsWhereList(Arr(items))
    ensures FilterList(st, cfg, items, acc).Done? ==>
      var r := FilterList(st, cfg, items, acc).value;
      |r| == |acc| + |items| && r[..|acc|] == acc
    decreases |items|
  {
    if items != [] {
      match Meta(st, cfg, items[0].obj)
      case Fail(_) =>
      case Done(n, st1) =>
        assert IsWhereList(Arr(items[1..])) by {
          forall j | 0 <= j < |items[1..]| ensures items[1..][j].Obj? && IsWhere(items[1..][j].obj) {
            assert items[1..][j] == items[j + 1];
          }
        }
        FilterListLength(st1, cfg, items[1..], acc + [n]);
        if FilterList(st1, cfg, items[1..], acc + [n]).Done? {
          var r := FilterList(st1, cfg, items[1..], acc + [n]).value;
          assert r[..|acc|] == (r[..|acc| + 1])[..|acc|];
        }
    }
  }

  /**
   * `and`/`or`/`not` arrays: an element with more than one key refuses the
   * whole array with a 400 naming the combinator; on success the result is
   * one bool of the combinator's kind with one clause per element.
   */
  lemma OneKeyPerElementRule(st: EngineState, cfg: FilterConfig, occur: Occur, items: seq<Value>)
    requires IsWhereList(Arr(items))
    ensures (exists j | 0 <= j < |items| :: |items[j].obj.entries| > 1) ==>
      BoolQuery(st, cfg, occur, Many(items)) == Fail(BadRequest(OneKeyPerElement(occur)))
    ensures BoolQuery(st, cfg, occur, Many(items)).Done? ==>
      var n := BoolQuery(st, cfg, occur, Many(items)).value;
      && (forall j | 0 <= j < |items| :: |items[j].obj.entries| <= 1)
      && n.Bool? && n.occur == occur && |n.clauses| == |items|
  {
    FilterListLength(st.(nonNested := false), cfg, items, []);
  }

  /** The bool clause a top-level key adds has that key's occurrence kind, and the bounds stay. */
  lemma KeyClauseShape(st: EngineState, cfg: FilterConfig, w: JsObject, k: string, v: Value)
    requires IsWhere(w) && IsArgument(k, v)
    ensures KeyClause(st, cfg, w, k, v).Done? ==>
      && KeyClause(st, cfg, w, k, v).value.Bool?
      && KeyClause(st, cfg, w, k, v).value.occur == KeyOccur(k)
      && Settled(cfg, st, KeyClause(st, cfg, w, k, v).st)
  {
    ReservedKeys(None);
    assert k == "and" || k == "or" || k == "not" ==> IsWhereList(v);
    match k
    case "and" => FilterQueriesSettles(st, cfg, Many(v.items));
    case "or" => FilterQueriesSettles(st, cfg, Many(v.items));
    case "not" => FilterQueriesSettles(st, cfg, Many(v.items));
    case "isNotNull" =>
    case "isNull" =>
    case _ => FilterQueriesSettles(st, cfg, One(w));
  }

  /** Clause `j` is a bool of the occurrence kind key `j` calls for. */
  predicate KindsMatch(clauses: seq<QueryNode>, entries: seq<(string, Value)>)
  {
    && |clauses| == |entries|
    && forall j | 0 <= j < |clauses| :: clauses[j].Bool? && clauses[j].occur == KeyOccur(entries[j].0)
  }

  /**
   * The `forEach` over the top-level keys adds one bool clause per key, in
   * key order, each of the kind `KeyOccur` gives, after the clauses
   * already present.
   */
  lemma {:induction false} OperatorsShape(st: EngineState, cfg: FilterConfig, w: JsObject, i: nat, query: seq<QueryNode>)
    requires IsWhere(w) && i <= |w.entries|
    ensures Operators(st, cfg, w, i, query).Done? ==>
      var r := Operators(st, cfg, w, i, query).value;
      && |query| <= |r|
      && r[..|query|] == query
      && KindsMatch(r[|query|..], w.entries[i..])
    decreases |w.entries| - i
  {
    if i < |w.entries| {
      var k := w.entries[i].0;
      assert IsArgument(k, w.entries[i].1);
      KeyClauseShape(st, cfg, w, k, w.entries[i].1);
      match KeyClause(st, cfg, w, k, w.entries[i].1)
      case Fail(_) =>
      case Done(n, st1) =>
        OperatorsShape(st1, cfg, w, i + 1, query + [n]);
        if Operators(st1, cfg, w, i + 1, query + [n]).Done? {
          var r := Operators(st1, cfg, w, i + 1, query + [n]).value;
          assert r[..|query|] == (r[..|query| + 1])[..|query|];
          assert r[|query|] == (r[..|query| + 1])[|query|] == n;
          assert r[|query|..] == [n] + r[|query| + 1..];
          assert w.entries[i..] == [w.entries[i]] + w.entries[i + 1..];
        }
    }
  }

  /** `getFilterQuery` adds exactly one bool clause per top-level key of the `where` object, in key order. */
  lemma FilterQueryShape(st: EngineState, cfg: FilterConfig, value: JsObject, query: seq<QueryNode>)
    requires IsWhere(value)
    ensures FilterQuery(st, cfg, value, query).Done? ==>
      var r := FilterQuery(st, cfg, value, query).value;
      && |r| == |query| + |value.entries|
      && r[..|query|] == query
      && KindsMatch(r[|query|..], value.entries)
  {
    OperatorsShape(st.(filterDepth := Depth(value) - 1), cfg, value, 0, query);
    assert value.entries[0..] == value.entries;
  }

  /**
   * An argument the configuration does not describe is refused by
   * `buildMetaQueries` before any clause is built: with the camelCase
   * error, or else with the plain `Error` of the failed lookup. The
   * `TypeError` branches of `LeafShape` for `MultiMatch` and `Prefix`
   * therefore cannot be reached from `Meta`.
   */
  lemma UndescribedRefusedFirst(st: EngineState, cfg: FilterConfig, exp: JsObject)
    requires IsWhere(exp) && ArgName(exp) !in cfg.arguments
    ensures Meta(st, cfg, exp) ==
      if ValidateGraphQLStandard(ArgName(exp)) then Fail(UnmappedArgument)
      else Fail(BadRequest(NotCamelCase(ArgName(exp))))
  {
    ScoreIsNotCamelCase();
  }

  // ---------------------------------------------------------------------
  // The depth bound (src/generator.ts:68, 287-290).

  /**
   * Past the depth bound `buildMetaQueries` always throws: the depth error
   * unless the name check, the lookup or the scope check refused the
   * argument first.
   */
  lemma MetaBeyondDepth(st: EngineState, cfg: FilterConfig, exp: JsObject)
    requires IsWhere(exp) && st.filterDepth > st.maxFilterDepth
    ensures Meta(st, cfg, exp).Fail?
    ensures var arg := ArgName(exp);
      ValidateGraphQLStandard(arg) && GetDBFieldName(arg, cfg).Some? &&
      Track(st, arg, GetDBFieldName(arg, cfg).value, GetDBFieldType(arg, cfg)).Ok? ==>
        Meta(st, cfg, exp).error == BadRequest(DepthExceeded(st.maxFilterDepth))
  {
  }

  /** From key `i` on, a key holding a non-empty `and`/`or` array makes the rest of the walk fail. */
  lemma {:induction false} OperatorsFailPastDepth(st: EngineState, cfg: FilterConfig, w: JsObject, i: nat, query: seq<QueryNode>, j: nat)
    requires IsWhere(w) && i <= j < |w.entries|
    requires w.entries[j].0 == "and" || w.entries[j].0 == "or"
    requires w.entries[j].1.Arr? && w.entries[j].1.items != []
    requires st.filterDepth > st.maxFilterDepth
    ensures Operators(st, cfg, w, i, query).Fail?
    decreases j - i
  {
    var k := w.entries[i].0;
    var v := w.entries[i].1;
    assert IsArgument(k, v);
    KeyClauseShape(st, cfg, w, k, v);
    if i < j {
      match KeyClause(st, cfg, w, k, v)
      case Fail(_) =>
      case Done(n, st1) => OperatorsFailPastDepth(st1, cfg, w, i + 1, query + [n], j);
    } else {
      ReservedKeys(None);
      var items := v.items;
      assert IsWhereList(v);
      var occur := if k == "and" then Must else Should;
      assert KeyClause(st, cfg, w, k, v) == BoolQuery(st, cfg, occur, Many(items));
      var st0 := st.(nonNested := false);
      MetaBeyondDepth(st0, cfg, items[0].obj);
      assert FilterList(st0, cfg, items, []).Fail?;
      assert FilterQueries(st, cfg, Many(items)).Fail?;
    }
  }

  /**
   * `getFilterQuery` refuses a `where` object nested deeper than the bound
   * allows, whenever it has a combinator level at all (depth above 1).
   */
  lemma FilterQueryBeyondDepth(st: EngineState, cfg: FilterConfig, value: JsObject, query: seq<QueryNode>)
    requires IsWhere(value)
    requires Depth(value) - 1 > st.maxFilterDepth && Depth(value) > 1
    ensures FilterQuery(st, cfg, value, query).Fail?
  {
    DepthOfCombinators(value);
    ReservedKeys(None);
    var k := if Truthy(Get(value, "and")) then "and" else "or";
    assert Truthy(Get(value, k));
    var j :| IndexOf(value.entries, k) == Some(j);
    assert IsArgument(k, value.entries[j].1);
    assert IsWhereList(value.entries[j].1);
    OperatorsFailPastDepth(st.(filterDepth := Depth(value) - 1), cfg, value, 0, query, j);
  }

  // ---------------------------------------------------------------------
  // Mixing nested and non-nested fields (src/generator.ts:246-285).

  /**
   * A one-key `where` object whose key is a mapped, camel-case leaf
   * argument, of db type "nested" or of a real non-nested db type.
   */
  predicate LeafOf(cfg: FilterConfig, v: Value, nested: bool)
  {
    && v.Obj? && IsWhere(v.obj) && |v.obj.entries| == 1
    && var arg := v.obj.entries[0].0;
    && IsCamelCase(arg) && arg in cfg.arguments
    && !IsCombinator(Classify(arg, Some(cfg.arguments[arg].dbType)))
    && (if nested then cfg.arguments[arg].dbType == DbNested
        else cfg.arguments[arg].dbType != DbNested && cfg.arguments[arg].dbType != DbNone)
  }

  /** A leaf leaves the state as it is, unless it is a nested-typed clause outside every combinator. */
  lemma LeafLeavesState(st: EngineState, cfg: FilterConfig, exp: JsObject, key: string, dbType: Option<DbType>)
    requires IsWhere(exp) && exp.entries != [] && !IsCombinator(Classify(exp.entries[0].0, dbType))
    requires st.level >= 1 || dbType != Some(DbNested)
    ensures Dispatch(st, cfg, exp, key, dbType).Done? ==> Dispatch(st, cfg, exp, key, dbType).st == st
  {
    assert IsArgument(exp.entries[0].0, exp.entries[0].1);
    OnlyNestedIsScoped(cfg, st.arrayLimit, exp.entries[0].0, key, exp.entries[0].1, dbType);
  }

  /**
   * Inside a combinator, a nested leaf is refused once the scope is marked
   * non-nested; otherwise, when accepted, it pushes its path, bumps that
   * path's counter and changes nothing else.
   */
  lemma NestedLeafInScope(st: EngineState, cfg: FilterConfig, a: Value)
    requires LeafOf(cfg, a, true) && st.level >= 1
    ensures st.nonNested ==> Meta(st, cfg, a.obj) == Fail(BadRequest(NestedAfterNonNested(a.obj.entries[0].0)))
    ensures Meta(st, cfg, a.obj).Done? ==>
      Meta(st, cfg, a.obj).st
        == st.(stack := st.stack + [PathOf(cfg.arguments[a.obj.entries[0].0].dbFieldName)],
               counts := Bump(st.counts, PathOf(cfg.arguments[a.obj.entries[0].0].dbFieldName)))
  {
    var arg := a.obj.entries[0].0;
    ScoreIsNotCamelCase();
    assert ArgName(a.obj) == arg;
    var key := cfg.arguments[arg].dbFieldName;
    assert GetDBFieldName(arg, cfg) == Some(key);
    if !st.nonNested {
      var st1 := st.(stack := st.stack + [PathOf(key)], counts := Bump(st.counts, PathOf(key)));
      assert Track(st, arg, key, Some(DbNested)) == Ok(st1);
      if st1.filterDepth <= st1.maxFilterDepth {
        LeafLeavesState(st1, cfg, a.obj, key, Some(DbNested));
      }
    }
  }

  /**
   * Inside a combinator, a non-nested leaf is refused while a nested path
   * is open; otherwise, when accepted, it only marks the scope non-nested.
   */
  lemma PlainLeafInScope(st: EngineState, cfg: FilterConfig, b: Value)
    requires LeafOf(cfg, b, false) && st.level >= 1
    ensures st.stack != [] ==> Meta(st, cfg, b.obj) == Fail(BadRequest(NonNestedAfterNested(b.obj.entries[0].0)))
    ensures Meta(st, cfg, b.obj).Done? ==> Meta(st, cfg, b.obj).st == st.(nonNested := true)
  {
    var arg := b.obj.entries[0].0;
    ScoreIsNotCamelCase();
    assert ArgName(b.obj) == arg;
    var key := cfg.arguments[arg].dbFieldName;
    var dbType := Some(cfg.arguments[arg].dbType);
    assert GetDBFieldName(arg, cfg) == Some(key);
    if st.stack == [] {
      var st1 := st.(nonNested := true);
      assert Track(st, arg, key, dbType) == Ok(st1);
      if st1.filterDepth <= st1.maxFilterDepth {
        LeafLeavesState(st1, cfg, b.obj, key, dbType);
      }
    }
  }

  /**
   * Inside a combinator a nested and a non-nested field cannot be
   * siblings, in either order: when the first of the two is accepted, the
   * second is refused for the conflict.
   */
  lemma MixedScopeRefused(st: EngineState, cfg: FilterConfig, a: Value, b: Value)
    requires LeafOf(cfg, a, true) && LeafOf(cfg, b, false)
    requires st.level >= 1
    ensures FilterQueries(st, cfg, Many([a, b])).Fail?
    ensures FilterQueries(st, cfg, Many([b, a])).Fail?
    ensures Meta(st.(nonNested := false), cfg, a.obj).Done? ==>
      FilterQueries(st, cfg, Many([a, b])) == Fail(BadRequest(NonNestedAfterNested(b.obj.entries[0].0)))
    ensures Meta(st.(nonNested := false), cfg, b.obj).Done? ==>
      FilterQueries(st, cfg, Many([b, a])) == Fail(BadRequest(NestedAfterNonNested(a.obj.entries[0].0)))
  {
    var st0 := st.(nonNested := false);
    assert [a, b][1..] == [b] && [b, a][1..] == [a];
    assert IsWhereList(Arr([a, b])) && IsWhereList(Arr([b, a]));
    NestedLeafInScope(st0, cfg, a);
    match Meta(st0, cfg, a.obj) {
      case Fail(e) =>
        assert FilterList(st0, cfg, [a, b], []) == Fail(e);
      case Done(n, st1) =>
        PlainLeafInScope(st1, cfg, b);
        assert FilterList(st0, cfg, [a, b], []) == FilterList(st1, cfg, [b], [n]);
    }
    PlainLeafInScope(st0, cfg, b);
    match Meta(st0, cfg, b.obj) {
      case Fail(e) =>
        assert FilterList(st0, cfg, [b, a], []) == Fail(e);
      case Done(n, st1) =>
        NestedLeafInScope(st1, cfg, a);
        assert FilterList(st0, cfg, [b, a], []) == FilterList(st1, cfg, [a], [n]);
    }
  }

  // ---------------------------------------------------------------------
  // `getSortObject` (src/generator.ts:50-59).

  /** In an object with distinct keys, `IndexOf` finds a key at its one position. */
  lemma IndexOfDistinct(o: JsObject, i: nat)
    requires DistinctKeys(o) && i < |o.entries|
    ensures IndexOf(o.entries, o.entries[i].0) == Some(i)
  {
  }

  /**
   * `o[k] = v`: afterwards `k` holds `v`, every other property is as it
   * was, and the keys stay distinct.
   */
  lemma PutGet(o: JsObject, k: string, v: Value)
    requires DistinctKeys(o)
    ensures DistinctKeys(Put(o, k, v))
    ensures IndexOf(Put(o, k, v).entries, k).Some? && Get(Put(o, k, v), k) == v
    ensures forall k' | k' != k :: IndexOf(Put(o, k, v).entries, k').Some? == IndexOf(o.entries, k').Some?
    ensures forall k' | k' != k :: Get(Put(o, k, v), k') == Get(o, k')
  {
    var p := Put(o, k, v);
    match IndexOf(o.entries, k)
    case Some(i) =>
      assert p.entries[i] == (k, v);
      IndexOfDistinct(p, i);
      forall k' | k' != k ensures Get(p, k') == Get(o, k') && IndexOf(p.entries, k').Some? == IndexOf(o.entries, k').Some? {
        match IndexOf(o.entries, k')
        case Some(j) =>
          IndexOfDistinct(p, j);
        case None =>
      }
    case None =>
      assert p.entries[|o.entries|] == (k, v);
      IndexOfDistinct(p, |o.entries|);
      forall k' | k' != k ensures Get(p, k') == Get(o, k') && IndexOf(p.entries, k').Some? == IndexOf(o.entries, k').Some? {
        match IndexOf(o.entries, k')
        case Some(j) =>
          IndexOfDistinct(p, j);
        case None =>
      }
  }

  /** Some sort entry maps onto db field `k`. */
  predicate Maps(e: seq<(string, Value)>, cfg: FilterConfig, k: string)
  {
    exists i | 0 <= i < |e| :: GetDBFieldName(e[i].0, cfg) == Some(k)
  }

  /** Entry `i` is the last one mapping onto its db field. */
  predicate LastFor(e: seq<(string, Value)>, cfg: FilterConfig, i: int)
  {
    && 0 <= i < |e|
    && GetDBFieldName(e[i].0, cfg).Some?
    && forall j | i < j < |e| :: GetDBFieldName(e[j].0, cfg) != GetDBFieldName(e[i].0, cfg)
  }

  /**
   * The sort object has one property per db field some sort entry maps
   * onto (unmapped entries are dropped, "_score" kept), and its keys are
   * distinct.
   */
  lemma {:induction false} SortOfKeys(e: seq<(string, Value)>, cfg: FilterConfig)
    ensures DistinctKeys(SortOf(e, cfg))
    ensures forall k :: IndexOf(SortOf(e, cfg).entries, k).Some? <==> Maps(e, cfg, k)
    decreases |e|
  {
    if e != [] {
      var n := |e| - 1;
      var init := e[..n];
      SortOfKeys(init, cfg);
      var prev := SortOf(init, cfg);
      match GetDBFieldName(e[n].0, cfg)
      case None =>
        forall k ensures Maps(e, cfg, k) <==> Maps(init, cfg, k) {
          if Maps(e, cfg, k) {
            var i :| 0 <= i < |e| && GetDBFieldName(e[i].0, cfg) == Some(k);
            assert init[i] == e[i];
          }
          if Maps(init, cfg, k) {
            var i :| 0 <= i < |init| && GetDBFieldName(init[i].0, cfg) == Some(k);
            assert init[i] == e[i];
          }
        }
      case Some(key) =>
        PutGet(prev, key, e[n].1);
        forall k ensures Maps(e, cfg, k) <==> Maps(init, cfg, k) || k == key {
          if Maps(e, cfg, k) && k != key {
            var i :| 0 <= i < |e| && GetDBFieldName(e[i].0, cfg) == Some(k);
            assert init[i] == e[i];
          }
          if Maps(init, cfg, k) {
            var i :| 0 <= i < |init| && GetDBFieldName(init[i].0, cfg) == Some(k);
            assert init[i] == e[i];
          }
        }
    }
  }

  /** Each property of the sort object holds the direction of the last entry that maps onto it. */
  lemma {:induction false} SortOfLastWins(e: seq<(string, Value)>, cfg: FilterConfig, i: nat)
    requires LastFor(e, cfg, i)
    ensures Get(SortOf(e, cfg), GetDBFieldName(e[i].0, cfg).value) == e[i].1
    decreases |e|
  {
    var n := |e| - 1;
    var init := e[..n];
    var k := GetDBFieldName(e[i].0, cfg).value;
    SortOfKeys(init, cfg);
    var prev := SortOf(init, cfg);
    if i < n {
      assert init[i] == e[i];
      assert LastFor(init, cfg, i) by {
        forall j | i < j < |init| ensures GetDBFieldName(init[j].0, cfg) != GetDBFieldName(init[i].0, cfg) {
          assert init[j] == e[j];
        }
      }
      SortOfLastWins(init, cfg, i);
      match GetDBFieldName(e[n].0, cfg)
      case None =>
      case Some(key) => PutGet(prev, key, e[n].1);
    } else {
      PutGet(prev, k, e[n].1);
    }
  }
}
