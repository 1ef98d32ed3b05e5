/**
 * src/util/index.ts: the nesting depth of a `where` object and the small
 * stack the generator keeps its open nested paths on.
 */
module Util {
  import opened Json

  // ---------------------------------------------------------------------
  // `getDepth`

  /**
   * `getDepth(obj)`: one plus the deepest child under `and` when `and` is
   * truthy, else under `or` when that is truthy; every other key, `not`
   * included, is not descended into.
   */
  function Depth(w: JsObject): nat
    decreases ObjSize(w), 1
  {
    var a := Get(w, "and");
    var o := Get(w, "or");
    GetSizeBound(w, "and");
    GetSizeBound(w, "or");
    1 + (if Truthy(a) then ChildrenDepth(a) else if Truthy(o) then ChildrenDepth(o) else 0)
  }

  /**
   * The children of a truthy `and`/`or` value; the GraphQL layer only
   * delivers arrays there (a non-array would make `forEach` throw).
   */
  function ChildrenDepth(v: Value): nat
    decreases ValueSize(v), 0
  {
    if v.Arr? then MaxDepth(v.items) else 0
  }

  /** The running maximum of `getDepth` over the children, starting from 0. */
  function MaxDepth(items: seq<Value>): nat
    decreases ItemsSize(items), 2
  {
    if items == [] then 0
    else
      var d := ItemDepth(items[0]);
      var rest := MaxDepth(items[1..]);
      if d > rest then d else rest
  }

  /** `getDepth` of one child: a non-object has no `and`/`or` property, so its depth is 1. */
  function ItemDepth(v: Value): (d: nat)
    ensures d >= 1
    decreases ValueSize(v), 1
  {
    if v.Obj? then Depth(v.obj) else 1
  }

  /** The value of any property is smaller than the object holding it. */
  lemma GetSizeBound(w: JsObject, k: string)
    ensures Get(w, k) != Undefined ==> ValueSize(Get(w, k)) < ObjSize(w)
  {
    match IndexOf(w.entries, k)
    case None =>
    case Some(i) => MemberSizeBound(w, 0, i);
  }

  lemma {:induction false} MemberSizeBound(w: JsObject, i: nat, j: nat)
    requires i <= j < |w.entries|
    ensures ValueSize(w.entries[j].1) <= MembersSize(w, i)
    decreases j - i
  {
    if i < j {
      MemberSizeBound(w, i + 1, j);
    }
  }

  /** Every depth is at least 1, and it is exactly 1 when neither `and` nor `or` is truthy. */
  lemma DepthAtLeastOne(w: JsObject)
    ensures Depth(w) >= 1
    ensures !Truthy(Get(w, "and")) && !Truthy(Get(w, "or")) ==> Depth(w) == 1
  {
  }

  /**
   * `MaxDepth` is the maximum of the children's depths: it bounds each of
   * them, it is attained by one of them, and it is 0 for no children.
   */
  lemma {:induction false} MaxDepthIsMaximum(items: seq<Value>)
    ensures forall j | 0 <= j < |items| :: ItemDepth(items[j]) <= MaxDepth(items)
    ensures items == [] <==> MaxDepth(items) == 0
    ensures items != [] ==> exists j | 0 <= j < |items| :: ItemDepth(items[j]) == MaxDepth(items)
    decreases |items|
  {
    if items != [] {
      MaxDepthIsMaximum(items[1..]);
      assert forall j | 1 <= j < |items| :: items[j] == items[1..][j - 1];
      if ItemDepth(items[0]) <= MaxDepth(items[1..]) {
        var j :| 0 <= j < |items[1..]| && ItemDepth(items[1..][j]) == MaxDepth(items[1..]);
        assert ItemDepth(items[j + 1]) == MaxDepth(items);
      }
    }
  }

  /**
   * With a truthy `and` array the depth is one more than its deepest child
   * (1 for an empty array) and `or` is ignored; with no truthy `and`, a
   * truthy `or` array plays the same part.
   */
  lemma DepthOfCombinators(w: JsObject)
    ensures Get(w, "and").Arr? ==>
      && Depth(w) == 1 + MaxDepth(Get(w, "and").items)
      && (forall j | 0 <= j < |Get(w, "and").items| :: ItemDepth(Get(w, "and").items[j]) < Depth(w))
      && (Get(w, "and").items == [] <==> Depth(w) == 1)
    ensures !Truthy(Get(w, "and")) && Get(w, "or").Arr? ==>
      && Depth(w) == 1 + MaxDepth(Get(w, "or").items)
      && (forall j | 0 <= j < |Get(w, "or").items| :: ItemDepth(Get(w, "or").items[j]) < Depth(w))
      && (Get(w, "or").items == [] <==> Depth(w) == 1)
  {
    if Get(w, "and").Arr? {
      MaxDepthIsMaximum(Get(w, "and").items);
    }
    if Get(w, "or").Arr? {
      MaxDepthIsMaximum(Get(w, "or").items);
    }
  }

  /** Only the `and` and `or` properties matter: `not` and every other key leave the depth alone. */
  lemma DepthOnlyReadsAndOr(w1: JsObject, w2: JsObject)
    requires Get(w1, "and") == Get(w2, "and") && Get(w1, "or") == Get(w2, "or")
    ensures Depth(w1) == Depth(w2)
  {
  }

  // ---------------------------------------------------------------------
  // `Stack<T>`

  /** What `pop` hands back: the top item, or the `"underflow"` signal of an empty stack. */
  datatype Popped<T> = Item(item: T) | Underflow

  /** `Stack<T>`: `items` is the backing array, its last element the top. */
  class Stack<T> {
    var items: seq<T>

    constructor()
      ensures items == []
    {
      items := [];
    }

    /** `push`: the item goes on top. */
    method Push(item: T)
      modifies this
      ensures items == old(items) + [item]
    {
      items := items + [item];
    }

    /** `pop`: removes and returns the top item; an empty stack answers `Underflow` and stays empty. */
    method Pop() returns (r: Popped<T>)
      modifies this
      ensures old(items) == [] ==> r == Underflow && items == []
      ensures old(items) != [] ==>
        && r == Item(old(items)[|old(items)| - 1])
        && items == old(items)[..|old(items)| - 1]
    {
      if |items| == 0 {
        return Underflow;
      }
      r := Item(items[|items| - 1]);
      items := items[..|items| - 1];
    }

    /** `isEmpty`. */
    method IsEmpty() returns (b: bool)
      ensures b <==> |items| == 0
    {
      b := |items| == 0;
    }
  }

  /** A push followed by a pop hands back the pushed item and leaves the stack as it was. */
  method PushThenPop<T>(s: Stack<T>, x: T) returns (r: Popped<T>)
    modifies s
    ensures r == Item(x)
    ensures s.items == old(s.items)
  {
    s.Push(x);
    r := s.Pop();
    assert old(s.items) + [x] == s.items + [x];
  }
}
