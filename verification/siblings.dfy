/**
 * How nested-typed leaves end up wrapped (src/generator.ts:179-214,
 * 246-285, 313-335, 352-484): siblings on one path inside a combinator
 * share a single `nested` clause around the combinator's bool; a nested
 * leaf outside every combinator gets a `nested` clause of its own; and a
 * combinator over two different paths is wrapped for the last one only,
 * leaving the first on the stack; and one path across two combinator
 * levels can be wrapped twice, one `nested` clause inside the other.
 */
module Siblings {
  import opened Json
  import opened Types
  import opened Helper
  import opened Util
  import opened Translation
  import opened Scope
  import opened Clauses

  /** The argument name of a one-key leaf object. */
  function ArgOf(v: Value): string
    requires v.Obj? && v.obj.entries != []
  {
    v.obj.entries[0].0
  }

  /** A one-key nested leaf whose clause the dispatcher accepts. */
  predicate NestedLeaf(cfg: FilterConfig, limit: int, v: Value)
  {
    && LeafOf(cfg, v, true)
    && IsArgument(ArgOf(v), v.obj.entries[0].1)
    && LeafShape(cfg, limit, ArgOf(v), cfg.arguments[ArgOf(v)].dbFieldName, v.obj.entries[0].1, Some(DbNested)).Ok?
  }

  /** The nested path of a nested leaf. */
  function PathOfLeaf(cfg: FilterConfig, v: Value): string
    requires LeafOf(cfg, v, true)
  {
    PathOf(cfg.arguments[ArgOf(v)].dbFieldName)
  }

  /** The leaf clause of a nested leaf. */
  function ShapeOf(cfg: FilterConfig, limit: int, v: Value): Leaf
    requires NestedLeaf(cfg, limit, v)
  {
    LeafShape(cfg, limit, ArgOf(v), cfg.arguments[ArgOf(v)].dbFieldName, v.obj.entries[0].1, Some(DbNested)).value
  }

  /** What is pushed for a leaf once its node has become `m`: the `must_not` form for `IsNotIn`. */
  function Finish(l: Leaf, m: QueryNode): QueryNode
  {
    if l.Scoped? && l.negated then Bool(MustNot, [m]) else m
  }

  /** Every element is an accepted nested leaf. */
  predicate Leaves(cfg: FilterConfig, limit: int, items: seq<Value>)
    decreases |items|
  {
    items != [] ==> NestedLeaf(cfg, limit, items[0]) && Leaves(cfg, limit, items[1..])
  }

  /** All the leaves are on path `p`. */
  predicate OnPath(cfg: FilterConfig, limit: int, items: seq<Value>, p: string)
    requires Leaves(cfg, limit, items)
    decreases |items|
  {
    items != [] ==> PathOfLeaf(cfg, items[0]) == p && OnPath(cfg, limit, items[1..], p)
  }

  /** All the leaves are scoped, on paths that are neither open on `stack` nor the sentinel. */
  predicate OffStack(cfg: FilterConfig, limit: int, items: seq<Value>, stack: seq<string>)
    requires Leaves(cfg, limit, items)
    decreases |items|
  {
    items != [] ==>
      && ShapeOf(cfg, limit, items[0]).Scoped?
      && PathOfLeaf(cfg, items[0]) !in stack && PathOfLeaf(cfg, items[0]) != Sentinel
      && OffStack(cfg, limit, items[1..], stack)
  }

  /** The clause a nested leaf pushes inside a combinator, unwrapped. */
  function Bare(cfg: FilterConfig, limit: int, v: Value): QueryNode
    requires NestedLeaf(cfg, limit, v)
  {
    var l := ShapeOf(cfg, limit, v);
    Finish(l, l.node)
  }

  /** The clauses of nested leaves inside a combinator, none of them wrapped. */
  function Unwrapped(cfg: FilterConfig, limit: int, items: seq<Value>): (r: seq<QueryNode>)
    requires Leaves(cfg, limit, items)
    ensures |r| == |items|
    decreases |items|
  {
    if items == [] then []
    else [Bare(cfg, limit, items[0])] + Unwrapped(cfg, limit, items[1..])
  }

  /** The clauses of nested leaves outside every combinator, each in its own `nested` clause. */
  function WrappedEach(cfg: FilterConfig, limit: int, items: seq<Value>): (r: seq<QueryNode>)
    requires Leaves(cfg, limit, items)
    ensures |r| == |items|
    decreases |items|
  {
    if items == [] then []
    else
      var l := ShapeOf(cfg, limit, items[0]);
      [Finish(l, Nested(PathOfLeaf(cfg, items[0]), [l.node]))] + WrappedEach(cfg, limit, items[1..])
  }

  /** `n` copies of path `p`. */
  function Rep(p: string, n: nat): (r: seq<string>)
    ensures |r| == n && forall j | 0 <= j < n :: r[j] == p
  {
    if n == 0 then [] else [p] + Rep(p, n - 1)
  }

  /** The counters after `n` leaves on path `p` were tracked. */
  function BumpN(counts: map<string, int>, p: string, n: nat): map<string, int>
    decreases n
  {
    if n == 0 then counts else BumpN(Bump(counts, p), p, n - 1)
  }

  // ---------------------------------------------------------------------
  // Counting lemmas.

  lemma {:induction false} BumpNPending(counts: map<string, int>, p: string, n: nat, q: string)
    ensures Pending(BumpN(counts, p, n), q) == Pending(counts, q) + (if q == p then n else 0)
    decreases n
  {
    if n > 0 {
      BumpNPending(Bump(counts, p), p, n - 1, q);
    }
  }

  lemma {:induction false} CountRep(s: seq<string>, p: string, n: nat, q: string)
    ensures Count(s + Rep(p, n), q) == Count(s, q) + (if q == p then n else 0)
    decreases n
  {
    if n > 0 {
      RepSnoc(p, n);
      var t := s + Rep(p, n - 1);
      assert s + Rep(p, n) == t + [p];
      CountRep(s, p, n - 1, q);
      CountAppend(t, p, q);
      assert Count(s + Rep(p, n), q) == Count(t + [p], q);
    } else {
      assert s + Rep(p, n) == s;
    }
  }

  lemma RepSnoc(p: string, n: nat)
    requires n > 0
    ensures Rep(p, n) == Rep(p, n - 1) + [p]
  {
    assert forall j | 0 <= j < n :: Rep(p, n)[j] == (Rep(p, n - 1) + [p])[j];
  }

  /** Tracking `n` leaves on a path keeps the counters in step with the stack. */
  lemma PushedInv(st: EngineState, p: string, n: nat)
    requires Inv(st) && p != Sentinel
    ensures Inv(st.(stack := st.stack + Rep(p, n), counts := BumpN(st.counts, p, n)))
  {
    forall q ensures Pending(BumpN(st.counts, p, n), q) == Count(st.stack + Rep(p, n), q) {
      BumpNPending(st.counts, p, n, q);
      CountRep(st.stack, p, n, q);
    }
  }

  // ---------------------------------------------------------------------
  // One leaf.

  /** Facts about a nested leaf the proofs below share. */
  lemma LeafFacts(cfg: FilterConfig, limit: int, v: Value)
    requires NestedLeaf(cfg, limit, v)
    ensures ArgName(v.obj) == ArgOf(v)
    ensures ValidateGraphQLStandard(ArgOf(v))
    ensures GetDBFieldName(ArgOf(v), cfg) == Some(cfg.arguments[ArgOf(v)].dbFieldName)
    ensures GetDBFieldType(ArgOf(v), cfg) == Some(DbNested)
  {
    ScoreIsNotCamelCase();
  }

  /**
   * Inside a combinator with no non-nested field seen, an accepted nested
   * leaf pushes its clause unwrapped and leaves its path on the stack.
   */
  lemma LeafInCombinator(st: EngineState, cfg: FilterConfig, v: Value)
    requires NestedLeaf(cfg, st.arrayLimit, v)
    requires st.level >= 1 && !st.nonNested && st.filterDepth <= st.maxFilterDepth
    ensures Meta(st, cfg, v.obj) ==
      Done(Bare(cfg, st.arrayLimit, v), st.(stack := st.stack + [PathOfLeaf(cfg, v)], counts := Bump(st.counts, PathOfLeaf(cfg, v))))
  {
    LeafFacts(cfg, st.arrayLimit, v);
  }

  /**
   * Outside every combinator, a nested leaf whose clause is scoped and whose
   * path is not open yet is wrapped in a `nested` clause of its own, and
   * the stack is as it was.
   */
  lemma LeafAtTop(st: EngineState, cfg: FilterConfig, v: Value)
    requires NestedLeaf(cfg, st.arrayLimit, v) && ShapeOf(cfg, st.arrayLimit, v).Scoped?
    requires st.level == 0 && st.filterDepth <= st.maxFilterDepth
    requires Inv(st) && PathOfLeaf(cfg, v) != Sentinel && PathOfLeaf(cfg, v) !in st.stack
    ensures var l := ShapeOf(cfg, st.arrayLimit, v);
      var p := PathOfLeaf(cfg, v);
      && Meta(st, cfg, v.obj).Done?
      && Meta(st, cfg, v.obj).value == Finish(l, Nested(p, [l.node]))
      && var st1 := Meta(st, cfg, v.obj).st;
      && st1 == st.(counts := st1.counts)
      && Inv(st1)
  {
    LeafFacts(cfg, st.arrayLimit, v);
    var p := PathOfLeaf(cfg, v);
    var key := cfg.arguments[ArgOf(v)].dbFieldName;
    var l := ShapeOf(cfg, st.arrayLimit, v);
    TrackKeepsInv(st, ArgOf(v), key, Some(DbNested));
    var st1 := st.(stack := st.stack + [p], counts := Bump(st.counts, p));
    assert Track(st, ArgOf(v), key, Some(DbNested)) == Ok(st1);
    SubQueryOutcome(st1, l.node);
    assert st1.stack[..|st1.stack| - 1] == st.stack;
  }

  // ---------------------------------------------------------------------
  // Many leaves.

  lemma Regroup<T>(a: seq<T>, x: T, b: seq<T>)
    ensures a + [x] + b == a + ([x] + b)
  {
  }

  /** Leaves are `where` objects. */
  lemma {:induction false} LeavesAreWhere(cfg: FilterConfig, limit: int, items: seq<Value>)
    requires Leaves(cfg, limit, items)
    ensures IsWhereList(Arr(items))
    decreases |items|
  {
    if items != [] {
      LeavesAreWhere(cfg, limit, items[1..]);
      assert forall j | 1 <= j < |items| :: items[j] == items[1..][j - 1];
    }
  }

  /** The `forEach` step: a first element that is accepted is followed by the rest. */
  lemma FilterListStep(st: EngineState, cfg: FilterConfig, items: seq<Value>, acc: seq<QueryNode>, n: QueryNode, st1: EngineState)
    requires items != [] && IsWhereList(Arr(items))
    requires Meta(st, cfg, items[0].obj) == Done(n, st1)
    ensures IsWhereList(Arr(items[1..]))
    ensures FilterList(st, cfg, items, acc) == FilterList(st1, cfg, items[1..], acc + [n])
  {
    assert forall j | 0 <= j < |items[1..]| :: items[1..][j] == items[j + 1];
  }

  /**
   * Inside a combinator, nested leaves all on path `p` push their clauses
   * unwrapped, and leave `p` once per leaf on the stack.
   */
  lemma {:induction false} LeavesInCombinator(st: EngineState, cfg: FilterConfig, items: seq<Value>, acc: seq<QueryNode>, p: string)
    requires Leaves(cfg, st.arrayLimit, items) && OnPath(cfg, st.arrayLimit, items, p)
    requires st.level >= 1 && !st.nonNested && st.filterDepth <= st.maxFilterDepth
    ensures IsWhereList(Arr(items))
    ensures FilterList(st, cfg, items, acc) ==
      Done(acc + Unwrapped(cfg, st.arrayLimit, items),
           st.(stack := st.stack + Rep(p, |items|), counts := BumpN(st.counts, p, |items|)))
    decreases |items|
  {
    LeavesAreWhere(cfg, st.arrayLimit, items);
    if items == [] {
      assert st.stack + Rep(p, 0) == st.stack;
      assert acc + Unwrapped(cfg, st.arrayLimit, items) == acc;
      assert BumpN(st.counts, p, 0) == st.counts;
    } else {
      var limit := st.arrayLimit;
      var n := |items|;
      LeafInCombinator(st, cfg, items[0]);
      var st1 := st.(stack := st.stack + [p], counts := Bump(st.counts, p));
      var acc1 := acc + [Bare(cfg, limit, items[0])];
      FilterListStep(st, cfg, items, acc, Bare(cfg, limit, items[0]), st1);
      LeavesInCombinator(st1, cfg, items[1..], acc1, p);
      var u := Unwrapped(cfg, limit, items[1..]);
      StackShift(st.stack, p, n);
      assert Unwrapped(cfg, limit, items) == [Bare(cfg, limit, items[0])] + u;
      Regroup(acc, Bare(cfg, limit, items[0]), u);
    }
  }

  lemma StackShift(s: seq<string>, p: string, n: nat)
    requires n >= 1
    ensures s + [p] + Rep(p, n - 1) == s + Rep(p, n)
  {
    assert Rep(p, n) == [p] + Rep(p, n - 1);
  }

  /**
   * Outside every combinator, scoped nested leaves on paths that are not
   * open are each wrapped in a `nested` clause of their own, and the stack
   * ends as it started.
   */
  lemma {:induction false} LeavesAtTop(st: EngineState, cfg: FilterConfig, items: seq<Value>, acc: seq<QueryNode>)
    requires Leaves(cfg, st.arrayLimit, items) && OffStack(cfg, st.arrayLimit, items, st.stack)
    requires st.level == 0 && st.filterDepth <= st.maxFilterDepth && Inv(st)
    ensures IsWhereList(Arr(items))
    ensures FilterList(st, cfg, items, acc).Done?
    ensures FilterList(st, cfg, items, acc).value == acc + WrappedEach(cfg, st.arrayLimit, items)
    ensures var st1 := FilterList(st, cfg, items, acc).st;
      st1 == st.(counts := st1.counts) && Inv(st1)
    decreases |items|
  {
    LeavesAreWhere(cfg, st.arrayLimit, items);
    if items == [] {
      assert acc + WrappedEach(cfg, st.arrayLimit, items) == acc;
    } else {
      var limit := st.arrayLimit;
      LeafAtTop(st, cfg, items[0]);
      var st1 := Meta(st, cfg, items[0].obj).st;
      var n := Meta(st, cfg, items[0].obj).value;
      FilterListStep(st, cfg, items, acc, n, st1);
      LeavesAtTop(st1, cfg, items[1..], acc + [n]);
      var l := ShapeOf(cfg, limit, items[0]);
      assert n == Finish(l, Nested(PathOfLeaf(cfg, items[0]), [l.node]));
      var w := WrappedEach(cfg, limit, items[1..]);
      assert WrappedEach(cfg, limit, items) == [n] + w;
      Regroup(acc, n, w);
      var st2 := FilterList(st1, cfg, items[1..], acc + [n]).st;
      assert st2 == st.(counts := st2.counts);
    }
  }

  // ---------------------------------------------------------------------
  // Combinators.

  /** The one-entry `where` object `{c: items}`. */
  function Combine(c: string, items: seq<Value>): JsObject
  {
    JsObject([(c, Arr(items))])
  }

  /** `c` is a combinator key declared in the configuration with a non-nested db type. */
  predicate CombinatorKey(cfg: FilterConfig, c: string)
  {
    (c == "or" || c == "and" || c == "not") && c in cfg.arguments && cfg.arguments[c].dbType != DbNested
  }

  /** The occurrence kind of the bool clause combinator `c` builds. */
  function Occurrence(c: string): Occur
  {
    if c == "or" then Should else if c == "not" then MustNot else Must
  }

  /**
   * Entering `{c: items}` outside every combinator: the children are built
   * one level down on an unchanged state, and their bool goes through
   * `buildSubQuery`.
   */
  lemma EnterCombinator(st: EngineState, cfg: FilterConfig, c: string, items: seq<Value>, clauses: seq<QueryNode>, st2: EngineState)
    requires CombinatorKey(cfg, c) && IsWhereList(Arr(items))
    requires st.level == 0 && st.filterDepth <= st.maxFilterDepth
    requires FilterQueries(st.(level := 1), cfg, Many(items)) == Done(clauses, st2)
    ensures IsWhere(Combine(c, items))
    ensures Meta(st, cfg, Combine(c, items)) ==
      Done(SubQuery(st2, Bool(Occurrence(c), clauses)).0, SubQuery(st2, Bool(Occurrence(c), clauses)).1)
  {
    ReservedKeys(None);
    ReservedKeys(Some(cfg.arguments[c].dbType));
    CamelCaseCharacterised(c);
    assert IsArgument(c, Arr(items));
    var w := Combine(c, items);
    assert ArgName(w) == c;
    assert GetDBFieldName(c, cfg) == Some(cfg.arguments[c].dbFieldName);
    assert Track(st, c, cfg.arguments[c].dbFieldName, Some(cfg.arguments[c].dbType)) == Ok(st);
  }

  /**
   * Nested leaves all on one path `p`, as the elements of an `or`, `and`
   * or `not` array outside every combinator, share one `nested` clause on
   * `p` around the combinator's bool; the stack is as it was and the level
   * back at 0.
   */
  lemma CombinatorOnOnePath(st: EngineState, cfg: FilterConfig, c: string, items: seq<Value>, p: string)
    requires CombinatorKey(cfg, c)
    requires items != []
    requires Leaves(cfg, st.arrayLimit, items) && OnPath(cfg, st.arrayLimit, items, p)
    requires st.level == 0 && st.filterDepth <= st.maxFilterDepth
    requires Inv(st) && p != Sentinel && p !in st.stack
    ensures IsWhere(Combine(c, items))
    ensures Meta(st, cfg, Combine(c, items)).Done?
    ensures Meta(st, cfg, Combine(c, items)).value == Nested(p, [Bool(Occurrence(c), Unwrapped(cfg, st.arrayLimit, items))])
    ensures Meta(st, cfg, Combine(c, items)).st == st.(counts := Meta(st, cfg, Combine(c, items)).st.counts, nonNested := false)
    ensures Inv(Meta(st, cfg, Combine(c, items)).st)
  {
    var n := |items|;
    var u := Unwrapped(cfg, st.arrayLimit, items);
    var s0 := st.(level := 1, nonNested := false);
    LeavesInCombinator(s0, cfg, items, [], p);
    var s2 := Opened(st, p, n);
    assert [] + u == u;
    assert s0.(stack := s0.stack + Rep(p, n), counts := BumpN(s0.counts, p, n)) == s2;
    assert st.(level := 1).(nonNested := false) == s0;
    assert FilterQueries(st.(level := 1), cfg, Many(items)) == FilterList(s0, cfg, items, []);
    EnterCombinator(st, cfg, c, items, u, s2);
    CloseShared(st, p, n, Bool(Occurrence(c), u));
  }

  /** The state once `n` leaves on path `p` were tracked one level inside a combinator opened at the top. */
  function Opened(st: EngineState, p: string, n: nat): EngineState
  {
    st.(level := 1, nonNested := false, stack := st.stack + Rep(p, n), counts := BumpN(st.counts, p, n))
  }

  /**
   * Closing a combinator whose `n` leaves all pushed path `p`, which was
   * not open before: the drain stops at the first copy of `p`, so the
   * combinator's bool is wrapped once on `p` and the stack is as before.
   */
  lemma CloseShared(st: EngineState, p: string, n: nat, q: QueryNode)
    requires n >= 1 && st.level == 0
    requires Inv(st) && p != Sentinel && p !in st.stack
    ensures SubQuery(Opened(st, p, n), q).0 == Nested(p, [q])
    ensures SubQuery(Opened(st, p, n), q).1 == st.(counts := SubQuery(Opened(st, p, n), q).1.counts, nonNested := false)
    ensures Inv(SubQuery(Opened(st, p, n), q).1)
  {
    var s0 := st.(level := 1, nonNested := false);
    var s2 := Opened(st, p, n);
    PushedInv(s0, p, n);
    SubQueryOutcome(s2, q);
    RepSnoc(p, n);
    var below := s2.stack[..|s2.stack| - 1];
    assert below == st.stack + Rep(p, n - 1);
    var top := s2.stack[|s2.stack| - 1];
    assert top == p;
    var s3 := SubQuery(s2, q).1;
    var r := SubQuery(s2, q).0;
    assert s3.level == 0;
    if n == 1 {
      assert below == st.stack;
      assert r == Nested(p, [q]) && s3.stack == st.stack;
    } else {
      assert below[|st.stack|] == p;
      SharedStop(st.stack, p, n - 1, |s3.stack|);
      assert r == Nested(p, [q]) && s3.stack == st.stack;
    }
    assert s3 == st.(counts := s3.counts, nonNested := false);
  }

  /** In `stack + Rep(p, m)` with `p` not in `stack`, the drain can stop only at the first copy of `p`. */
  lemma SharedStop(stack: seq<string>, p: string, m: nat, i: int)
    requires m >= 1 && p !in stack
    requires StopsAt(stack + Rep(p, m), i)
    ensures i == |stack| && (stack + Rep(p, m))[..i] == stack
  {
    var below := stack + Rep(p, m);
    assert below[|stack|] == p && below[..|stack|] == stack;
  }

  /**
   * An `or` over two nested leaves on different paths, outside every
   * combinator, is wrapped for the second path only: the first leaf's
   * clause ends up inside the second path's `nested` clause, and the
   * first path stays on the stack.
   */
  lemma TwoPathsUnderOr(st: EngineState, cfg: FilterConfig, a: Value, b: Value)
    requires CombinatorKey(cfg, "or")
    requires NestedLeaf(cfg, st.arrayLimit, a) && NestedLeaf(cfg, st.arrayLimit, b)
    requires PathOfLeaf(cfg, a) != PathOfLeaf(cfg, b)
    requires st.level == 0 && st.filterDepth <= st.maxFilterDepth
    requires Inv(st) && PathOfLeaf(cfg, b) != Sentinel && PathOfLeaf(cfg, b) !in st.stack
    ensures IsWhere(Combine("or", [a, b]))
    ensures Meta(st, cfg, Combine("or", [a, b])).Done?
    ensures Meta(st, cfg, Combine("or", [a, b])).value ==
      Nested(PathOfLeaf(cfg, b), [Bool(Should, [Bare(cfg, st.arrayLimit, a), Bare(cfg, st.arrayLimit, b)])])
    ensures Meta(st, cfg, Combine("or", [a, b])).st.stack == st.stack + [PathOfLeaf(cfg, a)]
  {
    var limit := st.arrayLimit;
    var p := PathOfLeaf(cfg, a);
    var q := PathOfLeaf(cfg, b);
    var s0 := st.(level := 1, nonNested := false);
    LeafInCombinator(s0, cfg, a);
    var s1 := s0.(stack := s0.stack + [p], counts := Bump(s0.counts, p));
    LeafInCombinator(s1, cfg, b);
    var s2 := s1.(stack := s1.stack + [q], counts := Bump(s1.counts, q));
    var u := [Bare(cfg, limit, a), Bare(cfg, limit, b)];
    assert IsWhereList(Arr([a, b]));
    assert [a, b][1..] == [b];
    FilterListStep(s0, cfg, [a, b], [], Bare(cfg, limit, a), s1);
    FilterListStep(s1, cfg, [b], [Bare(cfg, limit, a)], Bare(cfg, limit, b), s2);
    assert st.(level := 1).(nonNested := false) == s0;
    assert FilterQueries(st.(level := 1), cfg, Many([a, b])) == FilterList(s0, cfg, [a, b], []);
    assert [b][1..] == [] && [] + [Bare(cfg, limit, a)] + [Bare(cfg, limit, b)] == u;
    assert FilterList(s2, cfg, [], u) == Done(u, s2);
    EnterCombinator(st, cfg, "or", [a, b], u, s2);
    CloseLast(st, p, q, Bool(Should, u));
  }

  /**
   * Closing a combinator whose two leaves pushed `p` and then `q`, where
   * `q` was not open before: the bool is wrapped on `q` alone, and `p`
   * stays on the stack.
   */
  lemma CloseLast(st: EngineState, p: string, q: string, x: QueryNode)
    requires Inv(st) && q != Sentinel && q !in st.stack && p != q
    ensures var s2 := st.(level := 1, nonNested := false, stack := st.stack + [p] + [q], counts := Bump(Bump(st.counts, p), q));
      && SubQuery(s2, x).0 == Nested(q, [x])
      && SubQuery(s2, x).1.stack == st.stack + [p]
  {
    var s2 := st.(level := 1, nonNested := false, stack := st.stack + [p] + [q], counts := Bump(Bump(st.counts, p), q));
    CountZero(st.stack, q);
    assert Pending(st.counts, q) == Count(st.stack, q) == 0;
    assert s2.counts[q] == 0;
    assert Spelled(Top(s2.stack)) == q;
    assert Negative(Dec(s2.counts, q), q);
    assert s2.stack[..|s2.stack| - 1] == st.stack + [p];
  }

  /**
   * An `and` holding one nested leaf, one level inside a combinator whose
   * scope does not have the leaf's path open: the path is pushed and, at
   * level 2, popped again at once; as no other copy of it is open, the
   * `and` is wrapped in a `nested` clause of its own. The stack is as
   * before and the path's counter is left at -1.
   */
  lemma InnerAndClosesAtOnce(st: EngineState, cfg: FilterConfig, a: Value)
    requires CombinatorKey(cfg, "and") && cfg.arguments["and"].dbType == DbNone
    requires NestedLeaf(cfg, st.arrayLimit, a)
    requires st.level == 1 && !st.nonNested && st.filterDepth <= st.maxFilterDepth
    requires Inv(st) && PathOfLeaf(cfg, a) != Sentinel && PathOfLeaf(cfg, a) !in st.stack
    ensures IsWhere(Combine("and", [a]))
    ensures Meta(st, cfg, Combine("and", [a])) ==
      Done(Nested(PathOfLeaf(cfg, a), [Bool(Must, [Bare(cfg, st.arrayLimit, a)])]),
           st.(counts := st.counts[PathOfLeaf(cfg, a) := -1]))
  {
    var p := PathOfLeaf(cfg, a);
    var x := Bare(cfg, st.arrayLimit, a);
    var s0 := st.(level := 2);
    LeafInCombinator(s0, cfg, a);
    var s1 := s0.(stack := s0.stack + [p], counts := Bump(s0.counts, p));
    assert IsWhereList(Arr([a]));
    FilterListStep(s0, cfg, [a], [], x, s1);
    assert [a][1..] == [] && [] + [x] == [x];
    assert st.(level := 2).(nonNested := false) == s0;
    EnterUntyped(st, cfg, "and", [a], [x], s1);
    CloseFresh(st, p, Bool(Must, [x]));
  }

  /**
   * Entering `{c: items}` where `c` is declared with db type "None": the
   * scope checks do not apply to it at any level, so the children are
   * built one level down and their bool goes through `buildSubQuery`.
   */
  lemma EnterUntyped(st: EngineState, cfg: FilterConfig, c: string, items: seq<Value>, clauses: seq<QueryNode>, st2: EngineState)
    requires CombinatorKey(cfg, c) && cfg.arguments[c].dbType == DbNone && IsWhereList(Arr(items))
    requires st.filterDepth <= st.maxFilterDepth
    requires FilterQueries(st.(level := st.level + 1), cfg, Many(items)) == Done(clauses, st2)
    ensures IsWhere(Combine(c, items))
    ensures Meta(st, cfg, Combine(c, items)) ==
      Done(SubQuery(st2, Bool(Occurrence(c), clauses)).0, SubQuery(st2, Bool(Occurrence(c), clauses)).1)
  {
    ReservedKeys(Some(DbNone));
    CamelCaseCharacterised(c);
    assert IsArgument(c, Arr(items));
    assert ArgName(Combine(c, items)) == c;
    assert GetDBFieldName(c, cfg) == Some(cfg.arguments[c].dbFieldName);
    assert Track(st, c, cfg.arguments[c].dbFieldName, Some(DbNone)) == Ok(st);
  }

  /**
   * Closing a combinator one level inside another, whose only leaf pushed
   * `p`, not open before: `p` is popped, its counter drops to -1 and the
   * bool is wrapped on `p`; the stack is as before.
   */
  lemma CloseFresh(st: EngineState, p: string, x: QueryNode)
    requires Inv(st) && p != Sentinel && p !in st.stack && st.level == 1
    ensures var s1 := st.(level := 2, stack := st.stack + [p], counts := Bump(st.counts, p));
      SubQuery(s1, x) == (Nested(p, [x]), st.(counts := st.counts[p := -1]))
  {
    var s1 := st.(level := 2, stack := st.stack + [p], counts := Bump(st.counts, p));
    CountZero(st.stack, p);
    assert Pending(st.counts, p) == 0;
    assert Bump(st.counts, p)[p] == 0;
    assert Spelled(Top(s1.stack)) == p;
    assert s1.stack[..|s1.stack| - 1] == st.stack;
    assert Dec(s1.counts, p) == st.counts[p := -1];
  }

  /**
   * The same path across two combinator levels: in `{or: [{and: [a]}, b]}`
   * outside every combinator, with `a` and `b` nested leaves on one path
   * `p` not open before, the inner `and` wraps `a` on `p` at once, `b`
   * then reopens `p`, and the `or` is wrapped on `p` again, so a `nested`
   * clause on `p` ends up inside another on `p`. The stack is as before.
   */
  lemma NestedTwiceOnOnePath(st: EngineState, cfg: FilterConfig, a: Value, b: Value)
    requires CombinatorKey(cfg, "or") && CombinatorKey(cfg, "and") && cfg.arguments["and"].dbType == DbNone
    requires NestedLeaf(cfg, st.arrayLimit, a) && NestedLeaf(cfg, st.arrayLimit, b)
    requires PathOfLeaf(cfg, a) == PathOfLeaf(cfg, b)
    requires st.level == 0 && st.filterDepth <= st.maxFilterDepth
    requires Inv(st) && PathOfLeaf(cfg, a) != Sentinel && PathOfLeaf(cfg, a) !in st.stack
    ensures IsWhere(Combine("or", [Obj(Combine("and", [a])), b]))
    ensures Meta(st, cfg, Combine("or", [Obj(Combine("and", [a])), b])).Done?
    ensures Meta(st, cfg, Combine("or", [Obj(Combine("and", [a])), b])).value ==
      Nested(PathOfLeaf(cfg, a), [Bool(Should, [
        Nested(PathOfLeaf(cfg, a), [Bool(Must, [Bare(cfg, st.arrayLimit, a)])]),
        Bare(cfg, st.arrayLimit, b)])])
    ensures Meta(st, cfg, Combine("or", [Obj(Combine("and", [a])), b])).st.stack == st.stack
  {
    var limit := st.arrayLimit;
    var p := PathOfLeaf(cfg, a);
    var inner := Obj(Combine("and", [a]));
    var u := [Nested(p, [Bool(Must, [Bare(cfg, limit, a)])]), Bare(cfg, limit, b)];
    var s2 := st.(level := 1, nonNested := false, stack := st.stack + [p], counts := st.counts[p := 0]);
    OrChildren(st, cfg, a, b);
    assert st.(level := 1).(nonNested := false) == st.(level := 1, nonNested := false);
    EnterCombinator(st, cfg, "or", [inner, b], u, s2);
    assert s2.stack[..|s2.stack| - 1] == st.stack;
  }

  /**
   * The children of that `or`, walked one level down: the inner `and`'s
   * own `nested` clause and `b`'s bare clause, with `p` open once more and
   * its counter back at 0.
   */
  lemma OrChildren(st: EngineState, cfg: FilterConfig, a: Value, b: Value)
    requires CombinatorKey(cfg, "and") && cfg.arguments["and"].dbType == DbNone
    requires NestedLeaf(cfg, st.arrayLimit, a) && NestedLeaf(cfg, st.arrayLimit, b)
    requires PathOfLeaf(cfg, a) == PathOfLeaf(cfg, b)
    requires st.level == 0 && st.filterDepth <= st.maxFilterDepth
    requires Inv(st) && PathOfLeaf(cfg, a) != Sentinel && PathOfLeaf(cfg, a) !in st.stack
    ensures IsWhereList(Arr([Obj(Combine("and", [a])), b]))
    ensures FilterList(st.(level := 1, nonNested := false), cfg, [Obj(Combine("and", [a])), b], []) ==
      Done([Nested(PathOfLeaf(cfg, a), [Bool(Must, [Bare(cfg, st.arrayLimit, a)])]), Bare(cfg, st.arrayLimit, b)],
           st.(level := 1, nonNested := false, stack := st.stack + [PathOfLeaf(cfg, a)], counts := st.counts[PathOfLeaf(cfg, a) := 0]))
  {
    var limit := st.arrayLimit;
    var p := PathOfLeaf(cfg, a);
    var first := Nested(p, [Bool(Must, [Bare(cfg, limit, a)])]);
    var s0 := st.(level := 1, nonNested := false);
    InnerFirst(s0, cfg, a, b);
    var s1 := s0.(counts := st.counts[p := -1]);
    LastLeaf(s1, cfg, b, first);
    assert Bump(s1.counts, p) == st.counts[p := 0];
  }

  /** The first step of that walk: the inner `and` becomes its own `nested` clause and `p` is closed again. */
  lemma InnerFirst(st: EngineState, cfg: FilterConfig, a: Value, b: Value)
    requires CombinatorKey(cfg, "and") && cfg.arguments["and"].dbType == DbNone
    requires NestedLeaf(cfg, st.arrayLimit, a) && b.Obj? && IsWhere(b.obj)
    requires st.level == 1 && !st.nonNested && st.filterDepth <= st.maxFilterDepth
    requires Inv(st) && PathOfLeaf(cfg, a) != Sentinel && PathOfLeaf(cfg, a) !in st.stack
    ensures IsWhereList(Arr([Obj(Combine("and", [a])), b]))
    ensures FilterList(st, cfg, [Obj(Combine("and", [a])), b], []) ==
      FilterList(st.(counts := st.counts[PathOfLeaf(cfg, a) := -1]), cfg, [b],
                 [Nested(PathOfLeaf(cfg, a), [Bool(Must, [Bare(cfg, st.arrayLimit, a)])])])
  {
    var inner := Obj(Combine("and", [a]));
    var first := Nested(PathOfLeaf(cfg, a), [Bool(Must, [Bare(cfg, st.arrayLimit, a)])]);
    InnerAndClosesAtOnce(st, cfg, a);
    assert IsWhereList(Arr([inner, b])) by { assert IsWhere(Combine("and", [a])); }
    assert [inner, b][1..] == [b];
    FilterListStep(st, cfg, [inner, b], [], first, st.(counts := st.counts[PathOfLeaf(cfg, a) := -1]));
    assert [] + [first] == [first];
  }


  /** A nested leaf as the last element inside a combinator: its bare clause follows `first`. */
  lemma LastLeaf(st: EngineState, cfg: FilterConfig, b: Value, first: QueryNode)
    requires NestedLeaf(cfg, st.arrayLimit, b)
    requires st.level >= 1 && !st.nonNested && st.filterDepth <= st.maxFilterDepth
    ensures IsWhereList(Arr([b]))
    ensures FilterList(st, cfg, [b], [first]) ==
      Done([first, Bare(cfg, st.arrayLimit, b)],
           st.(stack := st.stack + [PathOfLeaf(cfg, b)], counts := Bump(st.counts, PathOfLeaf(cfg, b))))
  {
    LeafInCombinator(st, cfg, b);
    var s1 := st.(stack := st.stack + [PathOfLeaf(cfg, b)], counts := Bump(st.counts, PathOfLeaf(cfg, b)));
    FilterListStep(st, cfg, [b], [first], Bare(cfg, st.arrayLimit, b), s1);
    assert [b][1..] == [] && [first] + [Bare(cfg, st.arrayLimit, b)] == [first, Bare(cfg, st.arrayLimit, b)];
  }

}
