/** `useTableCallback.tsx`: a registry filled through one setter per callback name, the names
    being the fixed list of `constant.ts`. */
module TableCallback {
  import opened TableTypes

  /** The callback names, in their declared order. */
  const CALLBACK_NAME: seq<EventName> :=
    [RefreshCallback, HeaderResizeStart, HeaderResizeEnd, HeaderMoveStart, HeaderMoveEnd,
     SelectChange, RowClick, PageChange, TableSync, DescSort, HandleSelect, AscSort,
     ColVisibleChange]

  /** Thirteen distinct names; `setUpdate` is not among them. */
  lemma CallbackNamesDistinct()
    ensures |CALLBACK_NAME| == 13
    ensures forall i, j :: 0 <= i < j < |CALLBACK_NAME| ==> CALLBACK_NAME[i] != CALLBACK_NAME[j]
    ensures SetUpdate !in CALLBACK_NAME
    ensures forall n :: n in CALLBACK_NAME <==> n != SetUpdate
  {
    forall n ensures n in CALLBACK_NAME <==> n != SetUpdate {
      if n != SetUpdate {
        match n
        case RefreshCallback => assert CALLBACK_NAME[0] == n;
        case HeaderResizeStart => assert CALLBACK_NAME[1] == n;
        case HeaderResizeEnd => assert CALLBACK_NAME[2] == n;
        case HeaderMoveStart => assert CALLBACK_NAME[3] == n;
        case HeaderMoveEnd => assert CALLBACK_NAME[4] == n;
        case SelectChange => assert CALLBACK_NAME[5] == n;
        case RowClick => assert CALLBACK_NAME[6] == n;
        case PageChange => assert CALLBACK_NAME[7] == n;
        case TableSync => assert CALLBACK_NAME[8] == n;
        case DescSort => assert CALLBACK_NAME[9] == n;
        case HandleSelect => assert CALLBACK_NAME[10] == n;
        case AscSort => assert CALLBACK_NAME[11] == n;
        case ColVisibleChange => assert CALLBACK_NAME[12] == n;
      }
    }
  }

  /** The setter built for one name: `(cb) => setRef(name, cb)`. */
  datatype Setter = Setter(name: EventName)

  /** The setter map `callback_unstable` holds: one setter per callback name. */
  function SetterMap(names: seq<EventName>): map<EventName, Setter> {
    map n | n in names :: Setter(n)
  }

  /** `callback_unstable`: a setter for each callback name, each bound to its own name. */
  method CallbackUnstable() returns (callback: map<EventName, Setter>)
    ensures callback == SetterMap(CALLBACK_NAME)
    ensures callback.Keys == set n | n in CALLBACK_NAME
    ensures forall n :: n in callback ==> callback[n].name == n
  {
    callback := map[];
    var i := 0;
    while i < |CALLBACK_NAME|
      invariant 0 <= i <= |CALLBACK_NAME|
      invariant callback == SetterMap(CALLBACK_NAME[..i])
    {
      assert CALLBACK_NAME[..i + 1] == CALLBACK_NAME[..i] + [CALLBACK_NAME[i]];
      var name := CALLBACK_NAME[i];
      callback := callback[name := Setter(name)];
      i := i + 1;
    }
    assert CALLBACK_NAME[..i] == CALLBACK_NAME;
  }

  /** The hook's registry, `callbackRef.current.m`. */
  class CallbackRegistry {
    var m: map<EventName, Handler>

    constructor ()
      ensures m == map[]
    {
      m := map[];
    }

    /** `setRef(name, cb)`: the handler replaces any earlier one under that name. */
    method SetRef(name: EventName, cb: Handler)
      modifies this
      ensures m == old(m)[name := cb]
    {
      m := m[name := cb];
    }

    /** Calling a setter from `callback_unstable` stores the handler under the setter's own name
        and leaves every other entry as it was. */
    method Invoke(setter: Setter, cb: Handler)
      modifies this
      ensures m == old(m)[setter.name := cb]
      ensures forall n :: n != setter.name ==> (n in m <==> n in old(m)) && (n in m ==> m[n] == old(m)[n])
    {
      SetRef(setter.name, cb);
    }
  }
}
