/**
 * The JavaScript values the translator receives and emits, modelled as data.
 *
 * A filter expression arrives as a plain JSON object (GraphQL arguments
 * already parsed), so a `JsObject` keeps its properties as an ordered
 * sequence of key/value pairs: the order is the one `Object.keys` reports,
 * which decides what "the first key" of an object is. Scalars are opaque
 * tokens kept by their text; `Undefined` is what JavaScript yields when a
 * property (or the first key of an empty object) is read but absent.
 */
module Json {

  datatype Option<+T> = None | Some(value: T)

  datatype Value =
    | Lit(text: string)
    | Arr(items: seq<Value>)
    | Obj(obj: JsObject)
    | Undefined

  datatype JsObject = JsObject(entries: seq<(string, Value)>)

  /** Position of property `k` in `entries`, if present. */
  function IndexOf(entries: seq<(string, Value)>, k: string): (r: Option<nat>)
    ensures r.Some? ==> r.value < |entries| && entries[r.value].0 == k
    ensures r.None? ==> forall i :: 0 <= i < |entries| ==> entries[i].0 != k
  {
    if entries == [] then None
    else if entries[0].0 == k then Some(0)
    else match IndexOf(entries[1..], k)
      case None => None
      case Some(i) => Some(i + 1)
  }

  /** `obj[k]`: the property's value, or `undefined` when there is none. */
  function Get(obj: JsObject, k: string): Value
  {
    match IndexOf(obj.entries, k)
    case None => Undefined
    case Some(i) => obj.entries[i].1
  }

  /** A property read `v.k` on an arbitrary value: only objects have own properties here. */
  function Prop(v: Value, k: string): Value
  {
    if v.Obj? then Get(v.obj, k) else Undefined
  }

  /** JavaScript objects never repeat a key. */
  predicate DistinctKeys(obj: JsObject)
  {
    forall i, j :: 0 <= i < j < |obj.entries| ==> obj.entries[i].0 != obj.entries[j].0
  }

  /** `Object.keys(obj)[0]`, or nothing for an empty object. */
  function FirstKey(obj: JsObject): Option<string>
  {
    if obj.entries == [] then None else Some(obj.entries[0].0)
  }

  /** `obj[Object.keys(obj)[0]]`: `undefined` for an empty object. */
  function FirstValue(obj: JsObject): Value
  {
    if obj.entries == [] then Undefined else obj.entries[0].1
  }

  /** JavaScript truthiness; a literal token counts as a string. */
  predicate Truthy(v: Value)
  {
    match v
    case Lit(t) => t != ""
    case Arr(_) => true
    case Obj(_) => true
    case Undefined => false
  }

  // ---------------------------------------------------------------------
  // Sizes, used only as termination measures for the recursive translator.

  function ValueSize(v: Value): (n: nat)
    ensures n >= 1
    decreases v
  {
    match v
    case Arr(items) => 1 + ItemsSize(items)
    case Obj(o) => 1 + ObjSize(o)
    case _ => 1
  }

  function ItemsSize(items: seq<Value>): nat
  {
    if items == [] then 0 else ValueSize(items[0]) + ItemsSize(items[1..])
  }

  function ObjSize(o: JsObject): (n: nat)
    ensures n >= 1
  {
    1 + MembersSize(o, 0)
  }

  /** Sizes of the property values of `o` from position `i` on. */
  function MembersSize(o: JsObject, i: nat): nat
    decreases o, |o.entries| - i
  {
    if i >= |o.entries| then 0 else ValueSize(o.entries[i].1) + MembersSize(o, i + 1)
  }

  /** Every element of an array is smaller than the array. */
  lemma {:induction false} ItemSizeBound(items: seq<Value>, i: nat)
    requires i < |items|
    ensures ValueSize(items[i]) <= ItemsSize(items)
  {
    if i > 0 {
      ItemSizeBound(items[1..], i - 1);
    }
  }

  // ---------------------------------------------------------------------
  // Strings.

  predicate MatchesAt(s: string, sub: string, i: nat)
  {
    i + |sub| <= |s| && s[i..i + |sub|] == sub
  }

  /** `s.includes(sub)`. */
  predicate Contains(s: string, sub: string)
  {
    exists i: nat | i <= |s| :: MatchesAt(s, sub, i)
  }

  /** A substring that holds a character the string lacks is not in it. */
  lemma Absent(s: string, sub: string, k: nat)
    requires k < |sub| && sub[k] !in s
    ensures !Contains(s, sub)
  {
    forall i: nat | i <= |s| ensures !MatchesAt(s, sub, i) {
      if i + |sub| <= |s| {
        assert s[i..i + |sub|][k] == s[i + k];
      }
    }
  }

  /** `s.split("").reverse().join("")`. */
  function Reverse(s: string): (r: string)
    ensures |r| == |s|
  {
    if s == [] then [] else Reverse(s[1..]) + [s[0]]
  }

  /** Reversal mirrors positions. */
  lemma {:induction false} ReverseAt(s: string, k: nat)
    requires k < |s|
    ensures Reverse(s)[k] == s[|s| - 1 - k]
  {
    if k < |s| - 1 {
      ReverseAt(s[1..], k);
    }
  }

  /** Reversal is its own inverse. */
  lemma ReverseInvolutive(s: string)
    ensures Reverse(Reverse(s)) == s
  {
    forall k | 0 <= k < |s| ensures Reverse(Reverse(s))[k] == s[k] {
      ReverseAt(Reverse(s), k);
      ReverseAt(s, |s| - 1 - k);
    }
  }
}
