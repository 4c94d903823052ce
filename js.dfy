/** JavaScript values as the engine handles them: hook payloads, `params`, `shared`,
    and the few language operations the engine applies to them (truthiness, object
    spread, `for..of` iteration). The engine never looks inside a payload otherwise. */
module Js {

  datatype Option<+T> = None | Some(value: T)

  /** A JavaScript value. Numbers are modelled as integers; `Error` stands for any
      thrown error object (its `name` and `message`). */
  datatype Value =
    | Undefined
    | Null
    | Bool(b: bool)
    | Num(n: int)
    | Str(s: string)
    | Arr(items: seq<Value>)
    | Obj(fields: map<string, Value>)
    | Error(name: string, message: string)

  /** A completed computation: a value, or the value it threw. */
  datatype Result<+T> = Ok(value: T) | Throw(error: Value)

  type Outcome = Result<Value>

  /** `Params` and `SharedData`: string-keyed bags of arbitrary values. */
  type Params = map<string, Value>
  type Shared = map<string, Value>

  function TypeError(message: string): Value {
    Error("TypeError", message)
  }

  /** JavaScript truthiness: `undefined`, `null`, `false`, `0` and `""` are falsy. */
  predicate Truthy(v: Value) {
    match v
    case Undefined => false
    case Null => false
    case Bool(b) => b
    case Num(n) => n != 0
    case Str(s) => s != ""
    case _ => true
  }

  /** `v || []` */
  function OrEmpty(v: Value): (r: Value)
    ensures Truthy(v) ==> r == v
    ensures !Truthy(v) ==> r == Arr([])
  {
    if Truthy(v) then v else Arr([])
  }

  /** `{ ...base, ...extra }`: every key of either map, the value from `extra`
      winning wherever both have the key. */
  function Merge(base: Params, extra: Params): (m: Params)
    ensures m.Keys == base.Keys + extra.Keys
    ensures forall k :: k in extra ==> m[k] == extra[k]
    ensures forall k :: k in base && k !in extra ==> m[k] == base[k]
  {
    base + extra
  }

  /** Merging a map that already starts from `base` into `base` adds nothing:
      `{ ...p, ...{ ...p, ...e } }` is `{ ...p, ...e }`. */
  lemma MergeAbsorbsBase(base: Params, extra: Params)
    ensures Merge(base, Merge(base, extra)) == Merge(base, extra)
  {
  }

  /** The decimal digit character for `d`. */
  function Digit(d: nat): (c: char)
    requires d < 10
    ensures '0' <= c <= '9'
  {
    (48 + d) as char
  }

  /** The property key of array index `n`: its decimal numeral, as in `"0"`, `"12"`. */
  function IndexKey(n: nat): (key: string)
    ensures 1 <= |key|
    ensures n < 10 <==> |key| == 1
    ensures key[|key| - 1] == Digit(n % 10)
    decreases n
  {
    if n < 10 then [Digit(n)] else IndexKey(n / 10) + [Digit(n % 10)]
  }

  /** Distinct indices have distinct property keys. */
  lemma {:induction false} IndexKeyInjective(a: nat, b: nat)
    requires IndexKey(a) == IndexKey(b)
    ensures a == b
    decreases a
  {
    if a >= 10 && b >= 10 {
      var ka, kb := IndexKey(a), IndexKey(b);
      assert ka[..|ka| - 1] == IndexKey(a / 10);
      assert kb[..|kb| - 1] == IndexKey(b / 10);
      IndexKeyInjective(a / 10, b / 10);
    }
  }

  /** The index-keyed own properties of an array-like value: `"0" -> items[0]`, ... */
  function Indexed(items: seq<Value>): (m: Params)
    ensures forall i :: 0 <= i < |items| ==> IndexKey(i) in m
    decreases |items|
  {
    if items == [] then map[]
    else
      var last := |items| - 1;
      Indexed(items[..last])[IndexKey(last) := items[last]]
  }

  /** Each element of an array-like value is found under its own index key. */
  lemma {:induction false} IndexedAt(items: seq<Value>, i: nat)
    requires i < |items|
    ensures IndexKey(i) in Indexed(items) && Indexed(items)[IndexKey(i)] == items[i]
    decreases |items|
  {
    var last := |items| - 1;
    var front := items[..last];
    assert Indexed(items) == Indexed(front)[IndexKey(last) := items[last]];
    if i < last {
      IndexedAt(front, i);
      assert front[i] == items[i];
      if IndexKey(i) == IndexKey(last) {
        IndexKeyInjective(i, last);
      }
    }
  }

  /** The one-character strings a `for..of` loop visits in a string. */
  function Chars(s: string): (r: seq<Value>)
    ensures |r| == |s|
    ensures forall i :: 0 <= i < |s| ==> r[i] == Str([s[i]])
  {
    seq(|s|, i requires 0 <= i < |s| => Str([s[i]]))
  }

  /** The own enumerable properties `{ ...v }` copies: an object's fields, the
      index-keyed elements of an array or string, nothing for anything else
      (`null` and `undefined` included; an Error's message is not enumerable). */
  function Spread(v: Value): (m: Params)
    ensures v.Obj? ==> m == v.fields
    ensures v.Arr? ==> forall i :: 0 <= i < |v.items| ==> IndexKey(i) in m
    ensures v.Str? ==> forall i :: 0 <= i < |v.s| ==> IndexKey(i) in m
    ensures !(v.Obj? || v.Arr? || v.Str?) ==> m == map[]
  {
    match v
    case Obj(fields) => fields
    case Arr(items) => Indexed(items)
    case Str(s) => Indexed(Chars(s))
    case _ => map[]
  }

  /** The values `for (const x of v)` visits, or the TypeError it throws for a
      value that is not iterable. */
  function Elements(v: Value): (r: Result<seq<Value>>)
    ensures v.Arr? ==> r == Ok(v.items)
    ensures v.Str? ==> r.Ok? && |r.value| == |v.s| && forall i :: 0 <= i < |v.s| ==> r.value[i] == Str([v.s[i]])
    ensures !(v.Arr? || v.Str?) ==> r == Throw(TypeError("prepRes is not iterable"))
  {
    match v
    case Arr(items) => Ok(items)
    case Str(s) => Ok(Chars(s))
    case _ => Throw(TypeError("prepRes is not iterable"))
  }
}
