/**
 * The nested-scope state machine: the path stack, the pending counters
 * and the combinator level (src/generator.ts:179-214, 246-285, 313-335).
 *
 * The central invariant `Inv` says that every counter stands for the
 * number of open occurrences of its path on the stack: a counter `c`
 * means `c + 1` occurrences and a missing counter means none. From it
 * follows when `buildSubQuery` wraps a clause: exactly when the path it
 * pops has no other open occurrence, or, with no combinator left open,
 * for the first path the drain loop reaches whose occurrence is the
 * lowest one on the stack.
 */
module Scope {
  import opened Json
  import opened Types
  import opened Helper
  import opened Util
  import opened Translation

  /** The string `pop` answers for an empty stack. */
  const Sentinel: string := "underflow"

  /** Occurrences of `p` on the stack `s`. */
  function Count(s: seq<string>, p: string): nat
  {
    if s == [] then 0 else Count(s[..|s| - 1], p) + (if s[|s| - 1] == p then 1 else 0)
  }

  /** The number of open occurrences a counter stands for. */
  function Pending(counts: map<string, int>, p: string): int
  {
    if p in counts then counts[p] + 1 else 0
  }

  /** The counters agree with the stack, which holds no path spelled like the sentinel. */
  ghost predicate Inv(st: EngineState)
  {
    && Sentinel !in st.stack
    && forall p :: Pending(st.counts, p) == Count(st.stack, p)
  }

  /** No nested argument of the configuration has the sentinel as its path. */
  predicate NoSentinelPaths(cfg: FilterConfig)
  {
    forall a | a in cfg.arguments && cfg.arguments[a].dbType == DbNested ::
      PathOf(cfg.arguments[a].dbFieldName) != Sentinel
  }

  lemma CountAppend(s: seq<string>, x: string, p: string)
    ensures Count(s + [x], p) == Count(s, p) + (if x == p then 1 else 0)
  {
    assert (s + [x])[..|s|] == s;
  }

  /** A path has no occurrence exactly when it is not on the stack. */
  lemma {:induction false} CountZero(s: seq<string>, p: string)
    ensures Count(s, p) == 0 <==> p !in s
    decreases |s|
  {
    if s != [] {
      CountZero(s[..|s| - 1], p);
      assert s == s[..|s| - 1] + [s[|s| - 1]];
    }
  }

  /** The fresh state satisfies the invariant. */
  lemma FreshInv(maxFilterDepth: int, arrayLimit: int)
    ensures Inv(Fresh(maxFilterDepth, arrayLimit))
  {
  }

  // ---------------------------------------------------------------------
  // Entering an argument.

  /**
   * Tracking an argument keeps the invariant; it changes neither the
   * level nor the bounds; a nested argument's path goes on top of the
   * stack and its counter becomes the number of its earlier occurrences.
   */
  lemma TrackKeepsInv(st: EngineState, arg: string, key: string, dbType: Option<DbType>)
    requires Inv(st)
    requires dbType == Some(DbNested) ==> PathOf(key) != Sentinel
    requires Track(st, arg, key, dbType).Ok?
    ensures var st1 := Track(st, arg, key, dbType).value;
      && Inv(st1)
      && st1.level == st.level
      && st1.maxFilterDepth == st.maxFilterDepth && st1.arrayLimit == st.arrayLimit
      && st1.filterDepth == st.filterDepth
      && (dbType == Some(DbNested) ==>
            && st1.stack == st.stack + [PathOf(key)]
            && st1.counts[PathOf(key)] == Count(st.stack, PathOf(key)))
  {
    if dbType == Some(DbNested) {
      var p := PathOf(key);
      var st1 := Track(st, arg, key, dbType).value;
      forall q ensures Pending(st1.counts, q) == Count(st1.stack, q) {
        CountAppend(st.stack, p, q);
      }
    }
  }

  // ---------------------------------------------------------------------
  // Closing scopes.

  /** One path's counter after the top path is popped and decremented. */
  lemma PopOne(stack: seq<string>, counts: map<string, int>, p: string)
    requires stack != []
    requires Pending(counts, p) == Count(stack, p)
    requires Pending(counts, stack[|stack| - 1]) == Count(stack, stack[|stack| - 1])
    ensures Pending(Dec(counts, stack[|stack| - 1]), p) == Count(stack[..|stack| - 1], p)
  {
  }

  /**
   * Popping the top path and decrementing its counter keeps the counters
   * in step with the shorter stack, and the counter goes negative exactly
   * when no occurrence of the path is left.
   */
  lemma PopStep(stack: seq<string>, counts: map<string, int>)
    requires stack != []
    requires forall p :: Pending(counts, p) == Count(stack, p)
    ensures var top := stack[|stack| - 1];
      var c := Dec(counts, top);
      && (forall p :: Pending(c, p) == Count(stack[..|stack| - 1], p))
      && (Negative(c, top) <==> top !in stack[..|stack| - 1])
  {
    var top := stack[|stack| - 1];
    var below := stack[..|stack| - 1];
    var c := Dec(counts, top);
    assert Pending(counts, top) == Count(stack, top);
    forall p ensures Pending(c, p) == Count(below, p) {
      PopOne(stack, counts, p);
    }
    CountZero(below, top);
    assert Pending(c, top) == Count(below, top);
  }

  /**
   * Position `i` holds the lowest occurrence of its path, and every
   * position above `i` holds a path that also occurs lower down.
   */
  predicate StopsAt(stack: seq<string>, i: int)
  {
    && 0 <= i < |stack|
    && stack[i] !in stack[..i]
    && forall j | i < j < |stack| :: stack[j] in stack[..j]
  }

  /**
   * The drain loop on a stack whose counters are in step: it keeps them in
   * step; it finds a path exactly when the stack is not empty; the path it
   * finds sits at the highest position holding the lowest occurrence of its
   * path, and the stack is cut just below that position.
   */
  lemma {:induction false} DrainFinds(stack: seq<string>, counts: map<string, int>)
    requires forall p :: Pending(counts, p) == Count(stack, p)
    ensures var (found, rest, c) := Drain(stack, counts);
      && (forall p :: Pending(c, p) == Count(rest, p))
      && (found.Some? <==> stack != [])
      && (found.None? ==> rest == [] && c == counts)
      && (found.Some? ==> StopsAt(stack, |rest|) && found.value == stack[|rest|] && rest == stack[..|rest|])
    decreases |stack|
  {
    if stack != [] {
      var top := stack[|stack| - 1];
      var below := stack[..|stack| - 1];
      PopStep(stack, counts);
      var c := Dec(counts, top);
      if !Negative(c, top) {
        DrainFinds(below, c);
        var (found, rest, c') := Drain(below, c);
        var i := |rest|;
        assert StopsAt(below, i);
        assert stack[..i] == below[..i];
        forall j | i < j < |stack| ensures stack[j] in stack[..j] {
          if j < |below| {
            assert below[..j] == stack[..j];
            assert below[j] in below[..j];
          } else {
            assert stack[..j] == below;
          }
        }
      } else {
        assert stack[..|below|] == below;
      }
    }
  }

  /** The state after `buildSubQuery` differs only in the stack, the counters and the level. */
  predicate Closed(st: EngineState, st1: EngineState)
  {
    && st1 == st.(stack := st1.stack, counts := st1.counts, level := st1.level)
    && st1.level == (if st.level > 0 then st.level - 1 else st.level)
  }

  /**
   * `buildSubQuery` on a state that satisfies the invariant: it keeps the
   * invariant and lowers a positive level by one. An empty stack leaves
   * the clause as it is. Otherwise, with `top` the popped path and `below`
   * the rest: if `top` has no other occurrence the clause is wrapped for
   * `top`; if it has one and a combinator is still open the clause stays
   * unwrapped; if it has one and no combinator is open, the drain loop
   * wraps it for the path at the highest position of `below` that holds
   * the lowest occurrence of its path, and cuts the stack there.
   */
  lemma SubQueryOutcome(st: EngineState, q: QueryNode)
    requires Inv(st)
    ensures var (r, st1) := SubQuery(st, q);
      && Inv(st1)
      && Closed(st, st1)
      && (st.stack == [] ==> r == q && st1.stack == [] && st1.counts == st.counts)
      && (st.stack != [] ==>
            var top := st.stack[|st.stack| - 1];
            var below := st.stack[..|st.stack| - 1];
            && (top !in below ==> r == Nested(top, [q]) && st1.stack == below)
            && (top in below && st1.level != 0 ==> r == q && st1.stack == below)
            && (top in below && st1.level == 0 ==>
                  && StopsAt(below, |st1.stack|)
                  && st1.stack == below[..|st1.stack|]
                  && r == Nested(below[|st1.stack|], [q])))
  {
    if st.stack != [] {
      var top := st.stack[|st.stack| - 1];
      var below := st.stack[..|st.stack| - 1];
      var level := if st.level > 0 then st.level - 1 else st.level;
      PopStep(st.stack, st.counts);
      assert top != Sentinel;
      assert Spelled(Top(st.stack)) == top && Below(st.stack) == below;
      assert Sentinel !in below by {
        forall j | 0 <= j < |below| ensures below[j] != Sentinel {
          assert below[j] == st.stack[j];
        }
      }
      var c := Dec(st.counts, top);
      if Negative(c, top) {
        assert SubQuery(st, q) == (Nested(top, [q]), st.(stack := below, counts := c, level := level));
      } else if level != 0 {
        assert SubQuery(st, q) == (q, st.(stack := below, counts := c, level := level));
      } else {
        DrainTail(st.(stack := below, counts := c, level := level), q);
      }
    }
  }

  /** The drain branch of `buildSubQuery`. */
  lemma DrainTail(st: EngineState, q: QueryNode)
    requires st.stack != []
    requires Sentinel !in st.stack
    requires forall p :: Pending(st.counts, p) == Count(st.stack, p)
    ensures var (r, st1) := DrainFrom(st, q);
      && Inv(st1)
      && st1 == st.(stack := st1.stack, counts := st1.counts)
      && StopsAt(st.stack, |st1.stack|)
      && st1.stack == st.stack[..|st1.stack|]
      && r == Nested(st.stack[|st1.stack|], [q])
  {
    DrainFinds(st.stack, st.counts);
    var (found, rest, c) := Drain(st.stack, st.counts);
    assert Sentinel !in rest by {
      forall j | 0 <= j < |rest| ensures rest[j] != Sentinel {
        assert rest[j] == st.stack[j];
      }
    }
  }

  lemma NestedIsNotInner(p: string, q: QueryNode)
    ensures Nested(p, [q]) != q
  {
    assert [q][0] == q;
  }

  /**
   * Whether `buildSubQuery` wraps: exactly when the stack is not empty and
   * either the popped path has no other occurrence or no combinator is left
   * open; when it wraps, it is for a path that was on the stack.
   */
  lemma SubQueryWrapsExactly(st: EngineState, q: QueryNode)
    requires Inv(st)
    ensures var (r, st1) := SubQuery(st, q);
      && (r != q <==>
            && st.stack != []
            && (st.stack[|st.stack| - 1] !in st.stack[..|st.stack| - 1] || st1.level == 0))
      && (r != q ==> r.Nested? && r.path in st.stack && r.inner == [q])
  {
    SubQueryOutcome(st, q);
    var (r, st1) := SubQuery(st, q);
    if st.stack != [] {
      var top := st.stack[|st.stack| - 1];
      var below := st.stack[..|st.stack| - 1];
      if top !in below {
        NestedIsNotInner(top, q);
      } else if st1.level == 0 {
        NestedIsNotInner(below[|st1.stack|], q);
        assert below[|st1.stack|] == st.stack[|st1.stack|];
      }
    }
  }

  // ---------------------------------------------------------------------
  // Whole calls.

  /**
   * A successful call leaves the bounds alone, restores a non-negative
   * level, and keeps the invariant when the configuration has no nested
   * path spelled like the sentinel.
   */
  ghost predicate Settled(cfg: FilterConfig, st: EngineState, st1: EngineState)
  {
    && st1.maxFilterDepth == st.maxFilterDepth
    && st1.arrayLimit == st.arrayLimit
    && st1.filterDepth == st.filterDepth
    && (st.level >= 0 ==> st1.level == st.level)
    && (Inv(st) && NoSentinelPaths(cfg) ==> Inv(st1))
  }

  /** `buildMetaQueries` settles: in particular, the level after an `or`/`and`/`not` element is the level before it. */
  lemma {:induction false} MetaSettles(st: EngineState, cfg: FilterConfig, exp: JsObject)
    requires IsWhere(exp)
    ensures Meta(st, cfg, exp).Done? ==> Settled(cfg, st, Meta(st, cfg, exp).st)
    decreases ObjSize(exp), 1
  {
    var arg := ArgName(exp);
    if ValidateGraphQLStandard(arg) && GetDBFieldName(arg, cfg).Some? {
      var key := GetDBFieldName(arg, cfg).value;
      var dbType := GetDBFieldType(arg, cfg);
      if Track(st, arg, key, dbType).Ok? {
        var st1 := Track(st, arg, key, dbType).value;
        CamelCaseCharacterised(arg);
        if Inv(st) && NoSentinelPaths(cfg) {
          TrackKeepsInv(st, arg, key, dbType);
        }
        if st1.filterDepth <= st1.maxFilterDepth && exp.entries != [] {
          DispatchSettles(st1, cfg, exp, key, dbType);
        }
      }
    }
  }

  lemma {:induction false} DispatchSettles(st: EngineState, cfg: FilterConfig, exp: JsObject, key: string, dbType: Option<DbType>)
    requires IsWhere(exp) && exp.entries != []
    ensures Dispatch(st, cfg, exp, key, dbType).Done? ==> Settled(cfg, st, Dispatch(st, cfg, exp, key, dbType).st)
    decreases ObjSize(exp), 0
  {
    var arg := exp.entries[0].0;
    var value := exp.entries[0].1;
    var op := Classify(arg, dbType);
    assert IsArgument(arg, value);
    ClassifyIgnoresDbType(arg, dbType);
    MemberSizeBound(exp, 0, 0);
    assert IsCombinator(op) ==> IsWhereList(value);
    if IsCombinator(op) {
      var f := Many(value.items);
      var st0 := st.(level := st.level + 1);
      FilterQueriesSettles(st0, cfg, f);
      match FilterQueries(st0, cfg, f)
      case Fail(_) =>
      case Done(clauses, st2) =>
        SubQuerySettles(st2, Bool(OccurOf(op), clauses));
    } else {
      LeafSettles(st, cfg, arg, key, value, dbType);
    }
  }

  /** `buildSubQuery` changes only the stack, the counters and the level, and keeps the invariant. */
  lemma SubQuerySettles(st: EngineState, q: QueryNode)
    ensures Closed(st, SubQuery(st, q).1)
    ensures Inv(st) ==> Inv(SubQuery(st, q).1)
  {
    if Inv(st) {
      SubQueryOutcome(st, q);
    }
  }

  /** A leaf argument settles: only a scoped clause with no combinator open goes through `buildSubQuery`. */
  lemma LeafSettles(st: EngineState, cfg: FilterConfig, arg: string, key: string, value: Value, dbType: Option<DbType>)
    requires IsArgument(arg, value) && !IsCombinator(Classify(arg, dbType))
    ensures match LeafShape(cfg, st.arrayLimit, arg, key, value, dbType)
      case Err(_) => true
      case Ok(Plain(_)) => true
      case Ok(Scoped(n, _)) =>
        var st2 := if st.level < 1 then SubQuery(st, n).1 else st;
        Settled(cfg, st, st2)
  {
    match LeafShape(cfg, st.arrayLimit, arg, key, value, dbType)
    case Err(_) =>
    case Ok(Plain(_)) =>
    case Ok(Scoped(n, _)) => SubQuerySettles(st, n);
  }

  lemma {:induction false} FilterQueriesSettles(st: EngineState, cfg: FilterConfig, f: Filters)
    requires FiltersOk(f)
    ensures FilterQueries(st, cfg, f).Done? ==> Settled(cfg, st, FilterQueries(st, cfg, f).st)
    decreases FSize(f), 2
  {
    var st0 := st.(nonNested := false);
    match f
    case Many(items) => FilterListSettles(st0, cfg, items, []);
    case One(w) => MetaSettles(st0, cfg, w);
  }

  lemma {:induction false} FilterListSettles(st: EngineState, cfg: FilterConfig, items: seq<Value>, acc: seq<QueryNode>)
    requires IsWhereList(Arr(items))
    ensures FilterList(st, cfg, items, acc).Done? ==> Settled(cfg, st, FilterList(st, cfg, items, acc).st)
    decreases ItemsSize(items), 1
  {
    if items != [] {
      ItemSizeBound(items, 0);
      MetaSettles(st, cfg, items[0].obj);
      match Meta(st, cfg, items[0].obj)
      case Fail(_) =>
      case Done(n, st1) => FilterListSettles(st1, cfg, items[1..], acc + [n]);
    }
  }
}
