/** `deepEqual` of `utils.ts`: structural equality over JSON-like values, quirks included. */
module Utils {
  import opened JsValues

  /** `deepEqual(a, b)`.
      - `a === b` answers true at once. On arrays and objects `===` is reference identity; the model
        compares values, which gives the same answers because the walk below also accepts a copy
        (`CopyIsDeepEqual`).
      - one side nullish, or different `typeof`: false.
      - two arrays: same length and element-wise deep equality (the `for` loop with early return).
      - otherwise two `typeof "object"` values, which includes an array against a plain object:
        equal own-key counts, and every own key of `a` reads a deep-equal value from `b`, where a key
        missing in `b` reads as `undefined`.
      - remaining cases (distinct primitives of one type): false. */
  function DeepEqual(a: JsValue, b: JsValue): (r: bool)
    decreases a
    ensures a == b ==> r
    ensures IsNullish(a) != IsNullish(b) ==> !r
    ensures TypeOf(a) != TypeOf(b) ==> !r
    ensures r && a != b ==> TypeOf(a) == TObject && !a.Null? && !b.Null?
    ensures (a.Arr? || a.Obj?) && (b.Arr? || b.Obj?) && |OwnKeys(a)| != |OwnKeys(b)| ==> !r
  {
    if a == b then true
    else if IsNullish(a) || IsNullish(b) || TypeOf(a) != TypeOf(b) then false
    else if a.Arr? && b.Arr? then
      |a.elems| == |b.elems| &&
      forall i :: 0 <= i < |a.elems| ==> DeepEqual(a.elems[i], b.elems[i])
    else if TypeOf(a) == TObject && TypeOf(b) == TObject then
      |OwnKeys(a)| == |OwnKeys(b)| &&
      match a
      case Arr(elems) =>
        forall i :: 0 <= i < |elems| ==> DeepEqual(elems[i], Get(b, IndexKey(i)))
      case Obj(props) =>
        forall i :: 0 <= i < |props| ==> DeepEqual(props[i].value, Get(b, props[i].key))
    else false
  }

  /** Two arrays are deep-equal iff they have the same length and are deep-equal element-wise. */
  lemma ArraysDeepEqual(xs: seq<JsValue>, ys: seq<JsValue>)
    ensures DeepEqual(Arr(xs), Arr(ys)) <==>
            |xs| == |ys| && forall i :: 0 <= i < |xs| ==> DeepEqual(xs[i], ys[i])
  {
  }

  /** Two objects are deep-equal iff they have as many own keys and every own property of the
      first is deep-equal to what the second holds under that key (`undefined` when it has none).
      This holds also when the two are the same object, which the `===` shortcut answers. */
  lemma ObjectsDeepEqual(p1: seq<Prop>, p2: seq<Prop>)
    requires DistinctKeys(p1)
    ensures DeepEqual(Obj(p1), Obj(p2)) <==>
            |p1| == |p2| && forall i :: 0 <= i < |p1| ==> DeepEqual(p1[i].value, PropGet(p2, p1[i].key))
  {
    if p1 == p2 {
      forall i | 0 <= i < |p1| ensures DeepEqual(p1[i].value, PropGet(p2, p1[i].key)) {
        PropGetOwn(p1, i);
      }
    }
  }

  /** Missing keys read as `undefined`, so the comparison is not symmetric:
      `deepEqual({a: undefined}, {b: 1})` is true while `deepEqual({b: 1}, {a: undefined})` is false. */
  lemma DeepEqualNotSymmetric()
    ensures DeepEqual(Obj([Prop("a", Undefined)]), Obj([Prop("b", Num(1))]))
    ensures !DeepEqual(Obj([Prop("b", Num(1))]), Obj([Prop("a", Undefined)]))
  {
    var x, y := Obj([Prop("a", Undefined)]), Obj([Prop("b", Num(1))]);
    assert PropGet(y.props, "a") == Undefined;
    assert DeepEqual(x.props[0].value, Get(y, x.props[0].key));
    assert PropGet(x.props, "b") == Undefined;
    assert !DeepEqual(y.props[0].value, Get(x, y.props[0].key));
  }

  /** An array and a plain object both have `typeof` "object", so they are compared key by key:
      `deepEqual([], {})` and `deepEqual(["x"], {"0": "x"})` are true, and so is
      `deepEqual({length: 1}, ["x"])`, since `["x"].length` is 1. */
  lemma ArrayAgainstObject()
    ensures DeepEqual(Arr([]), Obj([]))
    ensures DeepEqual(Arr([Str("x")]), Obj([Prop("0", Str("x"))]))
    ensures DeepEqual(Obj([Prop("length", Num(1))]), Arr([Str("x")]))
  {
    assert IndexKey(0) == "0";
    var a, o := Arr([Str("x")]), Obj([Prop("0", Str("x"))]);
    assert Get(o, IndexKey(0)) == Str("x");
    assert DeepEqual(a.elems[0], Get(o, IndexKey(0)));
    var l := Obj([Prop("length", Num(1))]);
    assert Get(a, "length") == Num(1);
    assert DeepEqual(l.props[0].value, Get(a, l.props[0].key));
  }

  /** Where the model's `===` and JavaScript's part ways, two distinct objects with the same
      contents, the key walk that follows the identity test answers true as well: every own key of
      a well-formed object reads back a deep-equal value. So comparing values instead of references
      changes no answer. (For arrays the walk compares each element with itself.) */
  lemma CopyIsDeepEqual(props: seq<Prop>)
    requires DistinctKeys(props)
    ensures forall i :: 0 <= i < |props| ==> DeepEqual(props[i].value, Get(Obj(props), props[i].key))
  {
    forall i | 0 <= i < |props|
      ensures DeepEqual(props[i].value, Get(Obj(props), props[i].key))
    {
      PropGetOwn(props, i);
    }
  }
}
