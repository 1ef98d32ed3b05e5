/**
 * The configuration of the repository's own test suite
 * (src/__tests__/generator.test.ts:7-57) and the clauses `getFilterQuery`
 * adds for its example arguments, together with a few refusals and the
 * behaviours of the code that its method names and comments do not
 * announce.
 */
module Scenarios {
  import opened Json
  import opened Types
  import opened Helper
  import opened Util
  import opened Translation
  import opened Siblings

  /** A field of the test configuration. */
  function Field(name: string, dbType: DbType): FieldConfig
  {
    FieldConfig("", name, dbType, StringValue, None, None, None, None, Undefined)
  }

  /** The test configuration: two keyword fields and the five operator keys. */
  function TestConfig(): FilterConfig
  {
    FilterConfig(["id"], ["email"], map[
      "id" := Field("id", DbKeyword),
      "email" := Field("email.raw", DbKeyword),
      "and" := Field("None", DbNone),
      "or" := Field("None", DbNone),
      "not" := Field("None", DbNone),
      "isNotNull" := Field("None", DbNone),
      "isNull" := Field("None", DbNone)])
  }

  /** A one-key `where` object. */
  function One(k: string, v: Value): JsObject
  {
    JsObject([(k, v)])
  }

  /** A freshly constructed generator with the defaults. */
  function Start(): EngineState
  {
    Fresh(DefaultMaxFilterDepth, DefaultArrayLimit)
  }

  /** What the test configuration's names classify as. */
  lemma Names()
    ensures forall d: Option<DbType> :: Classify("id", d) == (if d == Some(DbMatchPhrase) then MatchPhraseOp else EqualsOp)
    ensures forall d: Option<DbType> :: Classify("email", d) == (if d == Some(DbMatchPhrase) then MatchPhraseOp else EqualsOp)
    ensures ValidateGraphQLStandard("id") && ValidateGraphQLStandard("email")
  {
    forall d: Option<DbType> ensures Classify("id", d) == (if d == Some(DbMatchPhrase) then MatchPhraseOp else EqualsOp) {
      PlainName("id", d);
    }
    forall d: Option<DbType> ensures Classify("email", d) == (if d == Some(DbMatchPhrase) then MatchPhraseOp else EqualsOp) {
      PlainName("email", d);
    }
    ReservedKeys(None);
    CamelCaseCharacterised("id");
    CamelCaseCharacterised("email");
  }

  /** A field key of the test configuration, outside every combinator, yields a `term` on its db field. */
  lemma FieldClause(st: EngineState, k: string, text: string)
    requires k == "id" || k == "email"
    requires st.level == 0 && st.filterDepth <= st.maxFilterDepth
    ensures IsWhere(One(k, Lit(text)))
    ensures Meta(st, TestConfig(), One(k, Lit(text))) == Done(Term(TestConfig().arguments[k].dbFieldName, Lit(text)), st)
  {
    Names();
    var cfg := TestConfig();
    var key := cfg.arguments[k].dbFieldName;
    assert cfg.arguments[k].dbType == DbKeyword;
    assert ArgName(One(k, Lit(text))) == k;
    assert GetDBFieldName(k, cfg) == Some(key);
    assert GetDBFieldType(k, cfg) == Some(DbKeyword);
    assert Track(st, k, key, Some(DbKeyword)) == Ok(st);
    assert LeafShape(cfg, st.arrayLimit, k, key, Lit(text), Some(DbKeyword)) == Ok(Plain(Term(key, Lit(text))));
  }

  /** A one-key object that is neither `and` nor `or` has depth 1. */
  lemma FlatDepth(k: string, v: Value)
    requires k != "and" && k != "or"
    ensures Depth(One(k, v)) == 1
  {
    assert Get(One(k, v), "and") == Undefined && Get(One(k, v), "or") == Undefined;
  }

  /** `getFilterQuery` on a one-key object adds exactly the clause of that key. */
  lemma OneKeyQuery(st: EngineState, cfg: FilterConfig, k: string, v: Value, b: QueryNode, st1: EngineState)
    requires IsArgument(k, v)
    requires KeyClause(st.(filterDepth := Depth(One(k, v)) - 1), cfg, One(k, v), k, v) == Done(b, st1)
    ensures FilterQuery(st, cfg, One(k, v), []) == Done([b], st1)
  {
    assert [] + [b] == [b];
    assert Operators(st1, cfg, One(k, v), 1, [b]) == Done([b], st1);
  }

  /** `getFilterQuery` on a one-key object throws the error of that key. */
  lemma OneKeyRefused(st: EngineState, cfg: FilterConfig, k: string, v: Value, e: Error)
    requires IsArgument(k, v)
    requires KeyClause(st.(filterDepth := Depth(One(k, v)) - 1), cfg, One(k, v), k, v) == Fail(e)
    ensures FilterQuery(st, cfg, One(k, v), []) == Fail(e)
  {
  }

  /** `{email: "test@test.com"}`: one `must` bool holding a `term` on the db field. */
  lemma EmailExample()
    ensures IsWhere(One("email", Lit("test@test.com")))
    ensures FilterQuery(Start(), TestConfig(), One("email", Lit("test@test.com")), []) ==
      Done([Bool(Must, [Term("email.raw", Lit("test@test.com"))])], Start())
  {
    var w := One("email", Lit("test@test.com"));
    FlatDepth("email", Lit("test@test.com"));
    FieldClause(Start(), "email", "test@test.com");
    Names();
    assert Start().(filterDepth := Depth(w) - 1) == Start();
    assert FilterQueries(Start(), TestConfig(), Filters.One(w)) == Done([Term("email.raw", Lit("test@test.com"))], Start());
    var b := Bool(Must, [Term("email.raw", Lit("test@test.com"))]);
    assert KeyClause(Start(), TestConfig(), w, "email", Lit("test@test.com")) == Done(b, Start());
    OneKeyQuery(Start(), TestConfig(), "email", Lit("test@test.com"), b, Start());
  }

  /** The two elements the `and` and `or` examples combine. */
  function Pair(): seq<Value>
  {
    [Obj(One("id", Lit("123"))), Obj(One("email", Lit("test@test.com")))]
  }

  /** The two elements are `where` objects of depth 1. */
  lemma PairShape()
    ensures IsWhereList(Arr(Pair()))
    ensures MaxDepth(Pair()) == 1
  {
    var e2 := One("email", Lit("test@test.com"));
    FieldClause(Start(), "id", "123");
    FieldClause(Start(), "email", "test@test.com");
    FlatDepth("id", Lit("123"));
    FlatDepth("email", Lit("test@test.com"));
    assert Pair()[1..] == [Obj(e2)] && [Obj(e2)][1..] == [];
    assert IsWhereList(Arr([Obj(e2)]));
  }

  /** The second element alone, after the first element's `term`. */
  lemma PairTail(st: EngineState)
    requires st.level == 0 && st.filterDepth <= st.maxFilterDepth
    ensures IsWhereList(Arr([Obj(One("email", Lit("test@test.com")))]))
    ensures FilterList(st, TestConfig(), [Obj(One("email", Lit("test@test.com")))], [Term("id", Lit("123"))]) ==
      Done([Term("id", Lit("123")), Term("email.raw", Lit("test@test.com"))], st)
  {
    var e2 := One("email", Lit("test@test.com"));
    FieldClause(st, "email", "test@test.com");
    assert [Obj(e2)][1..] == [];
    var t1 := Term("id", Lit("123"));
    var t2 := Term("email.raw", Lit("test@test.com"));
    assert [t1] + [t2] == [t1, t2];
    assert FilterList(st, TestConfig(), [], [t1, t2]) == Done([t1, t2], st);
  }

  /** Outside every combinator each of the two elements yields its `term`, in order. */
  lemma PairFacts(st: EngineState)
    requires st.level == 0 && st.filterDepth <= st.maxFilterDepth
    ensures IsWhereList(Arr(Pair()))
    ensures FilterList(st, TestConfig(), Pair(), []) ==
      Done([Term("id", Lit("123")), Term("email.raw", Lit("test@test.com"))], st)
  {
    PairShape();
    FieldClause(st, "id", "123");
    PairTail(st);
    var t1 := Term("id", Lit("123"));
    assert Pair()[0].obj == One("id", Lit("123"));
    FilterListStep(st, TestConfig(), Pair(), [], t1, st);
    assert Pair()[1..] == [Obj(One("email", Lit("test@test.com")))];
    assert [] + [t1] == [t1];
  }

  /** A combinator key over the pair has depth 2. */
  lemma PairDepth(c: string)
    requires c == "and" || c == "or"
    ensures Depth(One(c, Arr(Pair()))) == 2
  {
    PairShape();
    var w := One(c, Arr(Pair()));
    assert Get(w, c) == Arr(Pair());
    assert c == "or" ==> Get(w, "and") == Undefined;
  }

  /** The pair under a combinator key is a `where` object, and the key's clause is the bool over the pair. */
  lemma PairUnder(st: EngineState, c: string, occur: Occur)
    requires (c == "and" && occur == Must) || (c == "or" && occur == Should)
    ensures IsArgument(c, Arr(Pair())) && IsWhere(One(c, Arr(Pair())))
    ensures KeyClause(st, TestConfig(), One(c, Arr(Pair())), c, Arr(Pair())) == BoolQuery(st, TestConfig(), occur, Many(Pair()))
  {
    PairShape();
    ReservedKeys(None);
    assert IsArgument(c, Arr(Pair()));
  }

  /** The bool over the pair outside every combinator. */
  lemma PairBool(st: EngineState, occur: Occur)
    requires st.level == 0 && st.filterDepth <= st.maxFilterDepth && !st.nonNested
    ensures IsWhereList(Arr(Pair()))
    ensures BoolQuery(st, TestConfig(), occur, Many(Pair())) ==
      Done(Bool(occur, [Term("id", Lit("123")), Term("email.raw", Lit("test@test.com"))]), st)
  {
    PairFacts(st);
    assert st.(nonNested := false) == st;
    assert !SomeElementHasManyKeys(Many(Pair()));
  }

  /**
   * A combinator key over the pair at the top: the elements' clauses are
   * collected in order into one bool of kind `occur`, and the state only
   * records the depth.
   */
  lemma CombinatorExample(c: string, occur: Occur)
    requires (c == "and" && occur == Must) || (c == "or" && occur == Should)
    ensures IsWhere(One(c, Arr(Pair())))
    ensures FilterQuery(Start(), TestConfig(), One(c, Arr(Pair())), []) ==
      Done([Bool(occur, [Term("id", Lit("123")), Term("email.raw", Lit("test@test.com"))])], Start().(filterDepth := 1))
  {
    var st := Start().(filterDepth := 1);
    var w := One(c, Arr(Pair()));
    var b := Bool(occur, [Term("id", Lit("123")), Term("email.raw", Lit("test@test.com"))]);
    PairDepth(c);
    assert Start().(filterDepth := Depth(w) - 1) == st;
    PairUnder(st, c, occur);
    PairBool(st, occur);
    assert KeyClause(st, TestConfig(), w, c, Arr(Pair())) == Done(b, st);
    OneKeyQuery(Start(), TestConfig(), c, Arr(Pair()), b, st);
  }

  /** `{and: [{id: "123"}, {email: "test@test.com"}]}`: a `must` bool with a `term` per element, in order. */
  lemma AndExample()
    ensures IsWhere(One("and", Arr(Pair())))
    ensures FilterQuery(Start(), TestConfig(), One("and", Arr(Pair())), []) ==
      Done([Bool(Must, [Term("id", Lit("123")), Term("email.raw", Lit("test@test.com"))])], Start().(filterDepth := 1))
  {
    CombinatorExample("and", Must);
  }

  /** `{or: [{id: "123"}, {email: "test@test.com"}]}`: the same clauses in a `should` bool. */
  lemma OrExample()
    ensures IsWhere(One("or", Arr(Pair())))
    ensures FilterQuery(Start(), TestConfig(), One("or", Arr(Pair())), []) ==
      Done([Bool(Should, [Term("id", Lit("123")), Term("email.raw", Lit("test@test.com"))])], Start().(filterDepth := 1))
  {
    CombinatorExample("or", Should);
  }

  /** A top-level `isNull` or `isNotNull` key adds the clause of its builder, or throws its error. */
  lemma NullCheckAtTop(st: EngineState, op: string, name: string, r: Result<QueryNode>)
    requires op == "isNull" || op == "isNotNull"
    requires r == if op == "isNull" then IsNullQuery(TestConfig(), name) else IsNotNullQuery(TestConfig(), name)
    ensures IsWhere(One(op, Lit(name)))
    ensures r.Ok? ==> FilterQuery(st, TestConfig(), One(op, Lit(name)), []) == Done([r.value], st.(filterDepth := 0))
    ensures r.Err? ==> FilterQuery(st, TestConfig(), One(op, Lit(name)), []) == Fail(r.error)
  {
    var w := One(op, Lit(name));
    FlatDepth(op, Lit(name));
    var st0 := st.(filterDepth := Depth(w) - 1);
    assert st0 == st.(filterDepth := 0);
    NullKeyClause(st0, op, name, r);
    if r.Ok? {
      OneKeyQuery(st, TestConfig(), op, Lit(name), r.value, st0);
    } else {
      OneKeyRefused(st, TestConfig(), op, Lit(name), r.error);
    }
  }

  /** The clause a null-check key adds is its builder's clause, on an unchanged state. */
  lemma NullKeyClause(st: EngineState, op: string, name: string, r: Result<QueryNode>)
    requires op == "isNull" || op == "isNotNull"
    requires r == if op == "isNull" then IsNullQuery(TestConfig(), name) else IsNotNullQuery(TestConfig(), name)
    ensures IsWhere(One(op, Lit(name))) && IsArgument(op, Lit(name))
    ensures KeyClause(st, TestConfig(), One(op, Lit(name)), op, Lit(name)) == if r.Ok? then Done(r.value, st) else Fail(r.error)
  {
    ReservedKeys(None);
    assert IsArgument(op, Lit(name));
  }

  /** `{isNull: "id"}`: a `must_not` bool around `exists` on the db field. */
  lemma IsNullExample()
    ensures IsWhere(One("isNull", Lit("id")))
    ensures FilterQuery(Start(), TestConfig(), One("isNull", Lit("id")), []) ==
      Done([Bool(MustNot, [Exists(Some("id"))])], Start())
  {
    assert IsNullQuery(TestConfig(), "id") == Ok(Bool(MustNot, [Exists(Some("id"))]));
    NullCheckAtTop(Start(), "isNull", "id", IsNullQuery(TestConfig(), "id"));
  }

  /** `{isNotNull: "email"}`: a `must` bool around `exists` on the db field. */
  lemma IsNotNullExample()
    ensures IsWhere(One("isNotNull", Lit("email")))
    ensures FilterQuery(Start(), TestConfig(), One("isNotNull", Lit("email")), []) ==
      Done([Bool(Must, [Exists(Some("email.raw"))])], Start())
  {
    assert IsNotNullQuery(TestConfig(), "email") == Ok(Bool(Must, [Exists(Some("email.raw"))]));
    NullCheckAtTop(Start(), "isNotNull", "email", IsNotNullQuery(TestConfig(), "email"));
  }

  /** A field outside the allow-list of `isNull` is refused with a 400. */
  lemma IsNullOutsideAllowList()
    ensures IsWhere(One("isNull", Lit("email")))
    ensures FilterQuery(Start(), TestConfig(), One("isNull", Lit("email")), []) == Fail(BadRequest(NotInNullList("email")))
  {
    assert IsNullQuery(TestConfig(), "email") == Err(BadRequest(NotInNullList("email")));
    NullCheckAtTop(Start(), "isNull", "email", IsNullQuery(TestConfig(), "email"));
  }

  /** A top-level key that is no operator adds a `must` bool around the clause of the whole object. */
  lemma FieldKeyAtTop(st: EngineState, cfg: FilterConfig, k: string, v: Value)
    requires IsArgument(k, v)
    requires k != "and" && k != "or" && k != "not" && k != "isNull" && k != "isNotNull"
    ensures IsWhere(One(k, v))
    ensures Meta(st.(nonNested := false), cfg, One(k, v)).Fail? ==>
      KeyClause(st, cfg, One(k, v), k, v) == Fail(Meta(st.(nonNested := false), cfg, One(k, v)).error)
    ensures Meta(st.(nonNested := false), cfg, One(k, v)).Done? ==>
      KeyClause(st, cfg, One(k, v), k, v) ==
        Done(Bool(Must, [Meta(st.(nonNested := false), cfg, One(k, v)).value]), Meta(st.(nonNested := false), cfg, One(k, v)).st)
  {
  }

  /** An argument without a descriptor makes the lookup fail with the plain error. */
  lemma UnmappedExample()
    ensures IsWhere(One("phone", Lit("1")))
    ensures FilterQuery(Start(), TestConfig(), One("phone", Lit("1")), []) == Fail(UnmappedArgument)
  {
    var w := One("phone", Lit("1"));
    PlainName("phone", None);
    CamelCaseCharacterised("phone");
    FlatDepth("phone", Lit("1"));
    assert IsArgument("phone", Lit("1"));
    assert GetDBFieldName("phone", TestConfig()) == None;
    assert Meta(Start(), TestConfig(), w) == Fail(UnmappedArgument);
    FieldKeyAtTop(Start(), TestConfig(), "phone", Lit("1"));
    assert Start().(filterDepth := Depth(w) - 1) == Start() && Start().(nonNested := false) == Start();
    OneKeyRefused(Start(), TestConfig(), "phone", Lit("1"), UnmappedArgument);
  }

  /** A name that is not camel case is refused before it is looked up. */
  lemma NotCamelCaseExample()
    ensures IsWhere(One("Id", Lit("1")))
    ensures FilterQuery(Start(), TestConfig(), One("Id", Lit("1")), []) == Fail(BadRequest(NotCamelCase("Id")))
  {
    var w := One("Id", Lit("1"));
    Absent("Id", "IsLte", 1);
    Absent("Id", "IsGte", 1);
    Absent("Id", "IsNotIn", 1);
    Absent("Id", "IsIn", 1);
    Absent("Id", "MultiMatch", 0);
    Absent("Id", "Prefix", 0);
    Absent("Id", "Boost", 0);
    CamelCaseCharacterised("Id");
    FlatDepth("Id", Lit("1"));
    assert IsArgument("Id", Lit("1"));
    assert Meta(Start(), TestConfig(), w) == Fail(BadRequest(NotCamelCase("Id")));
    FieldKeyAtTop(Start(), TestConfig(), "Id", Lit("1"));
    assert Start().(filterDepth := Depth(w) - 1) == Start() && Start().(nonNested := false) == Start();
    OneKeyRefused(Start(), TestConfig(), "Id", Lit("1"), BadRequest(NotCamelCase("Id")));
  }

  /** An element of an `and` array with two keys is refused before any clause is built. */
  lemma TwoKeysInElement()
    ensures IsWhere(One("and", Arr([Obj(JsObject([("id", Lit("1")), ("email", Lit("x"))]))])))
    ensures FilterQuery(Start(), TestConfig(), One("and", Arr([Obj(JsObject([("id", Lit("1")), ("email", Lit("x"))]))])), []) ==
      Fail(BadRequest(OneKeyPerElement(Must)))
  {
    Names();
    var e := Obj(JsObject([("id", Lit("1")), ("email", Lit("x"))]));
    var v := Arr([e]);
    assert IsWhere(e.obj);
    assert IsArgument("and", v);
    assert SomeElementHasManyKeys(Many([e])) by {
      assert |[e][0].obj.entries| > 1;
    }
    var st0 := Start().(filterDepth := Depth(One("and", v)) - 1);
    assert KeyClause(st0, TestConfig(), One("and", v), "and", v) == Fail(BadRequest(OneKeyPerElement(Must)));
    OneKeyRefused(Start(), TestConfig(), "and", v, BadRequest(OneKeyPerElement(Must)));
  }

  /** The object `{id: "1", email: "x"}` used below. */
  function TwoFields(): JsObject
  {
    JsObject([("id", Lit("1")), ("email", Lit("x"))])
  }

  /** Built as one expression, `{id: "1", email: "x"}` yields the clause of its first key only. */
  lemma TwoFieldsMeta()
    ensures IsWhere(TwoFields())
    ensures FilterQueries(Start(), TestConfig(), Filters.One(TwoFields())) == Done([Term("id", Lit("1"))], Start())
  {
    Names();
    var w := TwoFields();
    FieldClause(Start(), "id", "1");
    assert IsWhere(w);
    assert ArgName(w) == "id";
    assert Meta(Start(), TestConfig(), w) == Meta(Start(), TestConfig(), One("id", Lit("1")));
    assert Start().(nonNested := false) == Start();
  }

  /** Each key of `{id: "1", email: "x"}` sends the whole object, whose first key is `id`. */
  lemma TwoFieldsKeyClause(k: string)
    requires k == "id" || k == "email"
    ensures IsWhere(TwoFields()) && IsArgument(k, Lit(if k == "id" then "1" else "x"))
    ensures KeyClause(Start(), TestConfig(), TwoFields(), k, Lit(if k == "id" then "1" else "x")) ==
      Done(Bool(Must, [Term("id", Lit("1"))]), Start())
  {
    Names();
    TwoFieldsMeta();
    assert BoolQuery(Start(), TestConfig(), Must, Filters.One(TwoFields())) == Done(Bool(Must, [Term("id", Lit("1"))]), Start());
  }

  /**
   * A plain object with two field keys: each key adds a `must` bool built
   * from the whole object, and the builder reads only its first key, so
   * both bools hold the clause of `id` and `email` is never queried.
   */
  lemma TwoFieldKeys()
    ensures IsWhere(TwoFields())
    ensures FilterQuery(Start(), TestConfig(), TwoFields(), []) ==
      Done([Bool(Must, [Term("id", Lit("1"))]), Bool(Must, [Term("id", Lit("1"))])], Start())
  {
    var w := TwoFields();
    var b := Bool(Must, [Term("id", Lit("1"))]);
    TwoFieldsKeyClause("id");
    TwoFieldsKeyClause("email");
    assert Get(w, "and") == Undefined && Get(w, "or") == Undefined;
    assert Start().(filterDepth := Depth(w) - 1) == Start();
    assert Operators(Start(), TestConfig(), w, 2, [b, b]) == Done([b, b], Start());
    assert [] + [b] == [b] && [b] + [b] == [b, b];
    assert Operators(Start(), TestConfig(), w, 1, [b]) == Operators(Start(), TestConfig(), w, 2, [b, b]);
    assert Operators(Start(), TestConfig(), w, 0, []) == Operators(Start(), TestConfig(), w, 1, [b]);
  }

  /**
   * The depth bound is enforced only inside `buildMetaQueries`: with a
   * negative bound a field key is refused, yet a top-level `isNull` never
   * reaches that check and succeeds.
   */
  lemma NegativeBound()
    ensures IsWhere(One("id", Lit("1"))) && IsWhere(One("isNull", Lit("id")))
    ensures FilterQuery(Fresh(-1, 150), TestConfig(), One("id", Lit("1")), []) == Fail(BadRequest(DepthExceeded(-1)))
    ensures FilterQuery(Fresh(-1, 150), TestConfig(), One("isNull", Lit("id")), []).Done?
  {
    var st := Fresh(-1, 150);
    var w := One("id", Lit("1"));
    Names();
    FlatDepth("id", Lit("1"));
    assert IsArgument("id", Lit("1"));
    assert st.(filterDepth := Depth(w) - 1) == st && st.(nonNested := false) == st;
    assert Track(st, "id", "id", Some(DbKeyword)) == Ok(st);
    assert Meta(st, TestConfig(), w) == Fail(BadRequest(DepthExceeded(-1)));
    FieldKeyAtTop(st, TestConfig(), "id", Lit("1"));
    OneKeyRefused(st, TestConfig(), "id", Lit("1"), BadRequest(DepthExceeded(-1)));
    assert IsNullQuery(TestConfig(), "id") == Ok(Bool(MustNot, [Exists(Some("id"))]));
    NullCheckAtTop(st, "isNull", "id", IsNullQuery(TestConfig(), "id"));
  }
}
