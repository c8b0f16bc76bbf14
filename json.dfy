/**
 * JavaScript values as they reach the chat code: what `JSON.parse` produces,
 * plus `undefined`, together with the three pieces of JavaScript semantics the
 * code leans on: truthiness, property access and `String(x)`.
 */
module Json {
  import opened Text

  datatype Option<T> = None | Some(value: T)

  /** A JavaScript value. Objects keep their members in insertion order. */
  datatype Value =
    | Undefined
    | Null
    | Bool(b: bool)
    | Num(n: int)
    | Str(s: string)
    | Arr(items: seq<Value>)
    | Obj(members: seq<Member>)

  datatype Member = Member(key: string, value: Value)

  /** JavaScript truthiness: `undefined`, `null`, `false`, `0` and `''` are falsy. */
  predicate Truthy(v: Value)
  {
    match v
    case Undefined => false
    case Null => false
    case Bool(b) => b
    case Num(n) => n != 0
    case Str(s) => s != ""
    case Arr(_) => true
    case Obj(_) => true
  }

  /** Index of the member that `o[key]` reads: the last one with that key, or -1. */
  function KeyIndex(ms: seq<Member>, key: string): (i: int)
    ensures -1 <= i < |ms|
    ensures i >= 0 ==> ms[i].key == key && forall j :: i < j < |ms| ==> ms[j].key != key
    ensures i < 0 ==> forall j :: 0 <= j < |ms| ==> ms[j].key != key
  {
    if ms == [] then -1
    else if ms[|ms| - 1].key == key then |ms| - 1
    else KeyIndex(ms[..|ms| - 1], key)
  }

  /**
   * `v?.[key]` for the keys the chat code reads (`text`, `content`, `type`,
   * `tool`, `latency`): an own member of an object, otherwise `undefined`.
   * Strings, arrays, numbers and booleans have no such property, and `?.`
   * turns `null`/`undefined` into `undefined`.
   */
  function Prop(v: Value, key: string): (r: Value)
    ensures !v.Obj? ==> r == Undefined
  {
    if v.Obj? && KeyIndex(v.members, key) >= 0 then v.members[KeyIndex(v.members, key)].value
    else Undefined
  }

  /** The member a lookup finds is the last one with that key. */
  lemma PropAt(ms: seq<Member>, i: nat, key: string)
    requires i < |ms| && ms[i].key == key
    requires forall j :: i < j < |ms| ==> ms[j].key != key
    ensures Prop(Obj(ms), key) == ms[i].value
  {
  }

  /** `String(v)`, which `Array.prototype.join` also applies to every element that is not null or undefined. */
  function JsToString(v: Value): (r: string)
    ensures v.Str? ==> r == v.s
  {
    match v
    case Undefined => "undefined"
    case Null => "null"
    case Bool(b) => if b then "true" else "false"
    case Num(n) => IntToDecimal(n)
    case Str(s) => s
    case Arr(items) =>
      Join(seq(|items|, i requires 0 <= i < |items| =>
        if items[i].Undefined? || items[i].Null? then "" else JsToString(items[i])), ",")
    case Obj(_) => "[object Object]"
  }

  /** The largest of some naturals, 0 for none. */
  function SeqMax(xs: seq<nat>): (r: nat)
    ensures forall i :: 0 <= i < |xs| ==> xs[i] <= r
  {
    if xs == [] then 0
    else
      var m := SeqMax(xs[1..]);
      assert forall i :: 1 <= i < |xs| ==> xs[i] == xs[1..][i - 1];
      if xs[0] < m then m else xs[0]
  }

  /** Length of the longest string inside `v`: the measure that `JSON.parse` strictly shrinks. */
  ghost function MaxStrLen(v: Value): (r: nat)
    ensures v.Obj? ==> forall i :: 0 <= i < |v.members| ==> MaxStrLen(v.members[i].value) <= r
    ensures v.Arr? ==> forall i :: 0 <= i < |v.items| ==> MaxStrLen(v.items[i]) <= r
  {
    match v
    case Str(s) => |s|
    case Arr(items) =>
      var lens := seq(|items|, i requires 0 <= i < |items| => MaxStrLen(items[i]));
      assert forall i :: 0 <= i < |items| ==> lens[i] == MaxStrLen(items[i]);
      SeqMax(lens)
    case Obj(ms) =>
      var lens := seq(|ms|, i requires 0 <= i < |ms| => MaxStrLen(ms[i].value));
      assert forall i :: 0 <= i < |ms| ==> lens[i] == MaxStrLen(ms[i].value);
      SeqMax(lens)
    case _ => 0
  }

  lemma PropShrinks(v: Value, key: string)
    ensures MaxStrLen(Prop(v, key)) <= MaxStrLen(v)
  {
  }
}
