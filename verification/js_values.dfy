/** JSON-like JavaScript values as the table code sees them: records handed in by the caller,
    declared key lists, and the operands of `deepEqual`.

    Numbers are integers here: NaN, fractions and -0 are not represented. An object is the list of
    its own enumerable properties in insertion order; a JavaScript object never has two own
    properties with the same key, which `DistinctKeys` states. */
module JsValues {

  datatype JsValue =
    | Undefined
    | Null
    | Bool(b: bool)
    | Num(n: int)
    | Str(s: string)
    | Arr(elems: seq<JsValue>)
    | Obj(props: seq<Prop>)

  datatype Prop = Prop(key: string, value: JsValue)

  /** The answers of the `typeof` operator for these values. */
  datatype JsType = TUndefined | TObject | TBoolean | TNumber | TString

  function TypeOf(v: JsValue): (t: JsType)
    ensures t == TObject <==> (v.Null? || v.Arr? || v.Obj?)
  {
    match v
    case Undefined => TUndefined
    case Null => TObject
    case Bool(_) => TBoolean
    case Num(_) => TNumber
    case Str(_) => TString
    case Arr(_) => TObject
    case Obj(_) => TObject
  }

  /** `v == null`: loose equality with null holds for null and undefined only. */
  predicate IsNullish(v: JsValue) {
    v.Undefined? || v.Null?
  }

  /** JavaScript truthiness (`if (v)`, `!!v`). */
  predicate Truthy(v: JsValue) {
    match v
    case Undefined => false
    case Null => false
    case Bool(b) => b
    case Num(n) => n != 0
    case Str(s) => s != ""
    case Arr(_) => true
    case Obj(_) => true
  }

  predicate DistinctKeys(props: seq<Prop>) {
    forall i, j :: 0 <= i < j < |props| ==> props[i].key != props[j].key
  }

  /** The decimal digit string of `n`, which is also the property key of array index `n`. */
  function IndexKey(n: nat): (s: string)
    ensures |s| > 0
    ensures forall c :: c in s ==> '0' <= c <= '9'
  {
    var d := ['0', '1', '2', '3', '4', '5', '6', '7', '8', '9'][n % 10];
    if n < 10 then [d] else IndexKey(n / 10) + [d]
  }

  /** `Object.keys(v)` for an array or an object. */
  function OwnKeys(v: JsValue): (keys: seq<string>)
    requires v.Arr? || v.Obj?
    ensures v.Arr? ==> |keys| == |v.elems|
    ensures v.Obj? ==> |keys| == |v.props|
  {
    if v.Arr? then seq(|v.elems|, i requires 0 <= i < |v.elems| => IndexKey(i))
    else seq(|v.props|, i requires 0 <= i < |v.props| => v.props[i].key)
  }

  /** The first own property named `key`, or `undefined`. */
  function PropGet(props: seq<Prop>, key: string): (r: JsValue)
    ensures (forall i :: 0 <= i < |props| ==> props[i].key != key) ==> r == Undefined
  {
    if |props| == 0 then Undefined
    else if props[0].key == key then props[0].value
    else PropGet(props[1..], key)
  }

  /** The element whose index key is `key` (searching from index `from`), or `undefined`. */
  function ElemGet(elems: seq<JsValue>, key: string, from: nat): JsValue
    decreases |elems| - from
  {
    if from >= |elems| then Undefined
    else if IndexKey(from) == key then elems[from]
    else ElemGet(elems, key, from + 1)
  }

  /** Property access `v[key]` on an array or an object. Properties inherited from a prototype
      (`toString`, ...) are not modelled; apart from `length` on arrays, a missing key reads as
      `undefined`. */
  function Get(v: JsValue, key: string): JsValue {
    match v
    case Obj(props) => PropGet(props, key)
    case Arr(elems) => if key == "length" then Num(|elems|) else ElemGet(elems, key, 0)
    case _ => Undefined
  }

  /** With distinct keys, reading an own property gives that property's value. */
  lemma {:induction false} PropGetOwn(props: seq<Prop>, i: nat)
    requires DistinctKeys(props) && i < |props|
    ensures PropGet(props, props[i].key) == props[i].value
  {
    if i > 0 {
      assert DistinctKeys(props[1..]) by {
        forall a, b | 0 <= a < b < |props[1..]| ensures props[1..][a].key != props[1..][b].key {
          assert props[1..][a] == props[a + 1] && props[1..][b] == props[b + 1];
        }
      }
      assert props[0].key != props[i].key;
      PropGetOwn(props[1..], i - 1);
      assert props[1..][i - 1] == props[i];
    }
  }
}
