/** `useATable.tsx`: the hook that owns a registry of event handlers, forwards the slot's events
    to whatever handler is registered at the time, and builds the slot with a context value. */
module ATable {
  import opened Wrappers
  import opened TableTypes
  import Reducer
  import opened TableSlot

  /** The names a handler can be registered under: the keys of `IEffect`. */
  predicate Registrable(name: EventName) {
    name != HandleSelect && name != ColVisibleChange
  }

  /** The forwarders the hook hands to the slot. */
  datatype Forwarder =
    | OnRowSelectionChange | OnColHeaderResizeStart | OnTableRefreshCallback | OnColHeaderResizeEnd
    | OnTableRowClick | OnTableColInfoChange | OnTableAscSort | OnTableDescSort | OnTablePageChange
    | OnColHeaderMoveStart | OnColHeaderMoveEnd

  /** The registry entry a forwarder reads. */
  function Target(f: Forwarder): (name: EventName)
    ensures Registrable(name) && name != SetUpdate
  {
    match f
    case OnRowSelectionChange => SelectChange
    case OnColHeaderResizeStart => HeaderResizeStart
    case OnTableRefreshCallback => RefreshCallback
    case OnColHeaderResizeEnd => HeaderResizeEnd
    case OnTableRowClick => RowClick
    case OnTableColInfoChange => TableSync
    case OnTableAscSort => AscSort
    case OnTableDescSort => DescSort
    case OnTablePageChange => PageChange
    case OnColHeaderMoveStart => HeaderMoveStart
    case OnColHeaderMoveEnd => HeaderMoveEnd
  }

  /** No two forwarders read the same entry, and every registrable name but `setUpdate` has a
      forwarder. */
  lemma ForwardersCoverRegistry(f: Forwarder, g: Forwarder, name: EventName)
    ensures Target(f) == Target(g) ==> f == g
    ensures Registrable(name) && name != SetUpdate ==> exists h :: Target(h) == name
  {
    if Registrable(name) && name != SetUpdate {
      var h := match name
        case SelectChange => OnRowSelectionChange
        case HeaderResizeStart => OnColHeaderResizeStart
        case RefreshCallback => OnTableRefreshCallback
        case HeaderResizeEnd => OnColHeaderResizeEnd
        case RowClick => OnTableRowClick
        case TableSync => OnTableColInfoChange
        case AscSort => OnTableAscSort
        case DescSort => OnTableDescSort
        case PageChange => OnTablePageChange
        case HeaderMoveStart => OnColHeaderMoveStart
        case HeaderMoveEnd => OnColHeaderMoveEnd;
      assert Target(h) == name;
    }
  }

  /** What a forwarder does with a registry: `m.X?.(payload)`. */
  function Dispatch(m: map<EventName, Handler>, f: Forwarder, payload: Payload): (r: Option<Invocation>)
    ensures r.Some? <==> Target(f) in m
    ensures r.Some? ==> r.value == Invocation(m[Target(f)], payload)
  {
    if Target(f) in m then Some(Invocation(m[Target(f)], payload)) else None
  }

  /** The last registration under a name is the one its forwarder calls. */
  lemma LastRegistrationWins(m: map<EventName, Handler>, f: Forwarder, first: Handler, second: Handler, payload: Payload)
    ensures Dispatch(m[Target(f) := first][Target(f) := second], f, payload) == Some(Invocation(second, payload))
  {
  }

  /** Registering under one name changes no other forwarder. */
  lemma RegistrationIsolated(m: map<EventName, Handler>, name: EventName, cb: Handler, f: Forwarder, payload: Payload)
    requires Target(f) != name
    ensures Dispatch(m[name := cb], f, payload) == Dispatch(m, f, payload)
  {
  }

  /** The event props the table creator wires into the slot. */
  const WiredProps: set<EventName> :=
    {SelectChange, HeaderResizeStart, HeaderResizeEnd, HeaderMoveEnd, HeaderMoveStart,
     RefreshCallback, RowClick, PageChange, TableSync, AscSort, DescSort}

  /** The forwarder wired into each slot prop. */
  function WiredForwarder(prop: EventName): (f: Option<Forwarder>)
    ensures f.Some? <==> prop in WiredProps
    ensures f.Some? ==> Target(f.value) == prop
  {
    match prop
    case SelectChange => Some(OnRowSelectionChange)
    case HeaderResizeStart => Some(OnColHeaderResizeStart)
    case HeaderResizeEnd => Some(OnColHeaderResizeEnd)
    case HeaderMoveEnd => Some(OnColHeaderMoveEnd)
    case HeaderMoveStart => Some(OnColHeaderMoveStart)
    case RefreshCallback => Some(OnTableRefreshCallback)
    case RowClick => Some(OnTableRowClick)
    case PageChange => Some(OnTablePageChange)
    case TableSync => Some(OnTableColInfoChange)
    case AscSort => Some(OnTableAscSort)
    case DescSort => Some(OnTableDescSort)
    case _ => None
  }

  /** A call the slot makes, followed through its forwarder into the registry. */
  function RouteSlotCall(m: map<EventName, Handler>, call: SlotCall): Option<Invocation>
    requires call.prop in WiredProps
  {
    Dispatch(m, WiredForwarder(call.prop).value, call.payload)
  }

  /** Every slot event reaches the handler registered under its own name, with its own payload,
      and nothing when no handler is registered. */
  lemma SlotCallsReachSameNamedHandler(m: map<EventName, Handler>, call: SlotCall)
    requires call.prop in WiredProps
    ensures call.prop in m ==> RouteSlotCall(m, call) == Some(Invocation(m[call.prop], call.payload))
    ensures call.prop !in m ==> RouteSlotCall(m, call).None?
  {
  }

  /** The context value the slot sees: the reducer state's fields are overwritten by the hook's
      tag and the builder's config. */
  function ProvidedState(state: Reducer.TableState, tag: Option<string>, config: Config): (r: Reducer.TableState)
    ensures r.config == config && r.tag == tag
  {
    state.(tag := tag, config := config)
  }

  /** Whatever is dispatched to the reducer, the slot sees the same context state. */
  lemma DispatchIsInvisibleToSlot(state: Reducer.TableState, action: Reducer.Action, tag: Option<string>, config: Config)
    requires Reducer.TableReducer(state, action).Ok?
    ensures ProvidedState(Reducer.TableReducer(state, action).value, tag, config) == ProvidedState(state, tag, config)
  {
  }

  /** The wired slot never throws on its unguarded paging and selection reports. */
  lemma WiredReportsNeverThrow(pageInfo: Payload, rows: Payload)
    ensures DirectCall(WiredProps, PageChange, pageInfo).Ok?
    ensures DirectCall(WiredProps, SelectChange, rows).Ok?
  {
  }

  /** The table creator does not wire `onColVisibleChange`, so the unguarded visible-column report
      throws on every slot it builds; with the guard the report is dropped. */
  lemma WiredSlotThrowsOnVisibleColumns(ids: seq<string>)
    ensures ColVisibleChange !in WiredProps
    ensures VisibleColumnsCallAsWritten(WiredProps, ids).Err?
    ensures VisibleColumnsCall(WiredProps, ids) == []
  {
  }

  /** What the table creator renders: nothing for a falsy table state, otherwise the slot with its
      wired props, its context state and the custom pagination node. */
  datatype Rendered =
    | Nothing
    | Slot(props: set<EventName>, state: Reducer.TableState, customPagination: Option<Node>)

  /** The hook's state: the handler registry `m`, the custom pagination node `p`, and the reducer
      state. */
  class EffectRegistry {
    const tag: Option<string>
    var m: map<EventName, Handler>
    var p: Option<Node>
    var state: Reducer.TableState

    constructor (tag: Option<string>)
      ensures this.tag == tag && m == map[] && p == None && state == Reducer.InitialTableState()
    {
      this.tag := tag;
      m := map[];
      p := None;
      state := Reducer.InitialTableState();
    }

    /** One of the registration functions the hook returns: the handler replaces any earlier one
        under the same name. */
    method Register(name: EventName, cb: Handler)
      requires Registrable(name)
      modifies this`m
      ensures m == old(m)[name := cb]
      ensures forall f, payload :: Target(f) == name ==> Dispatch(m, f, payload) == Some(Invocation(cb, payload))
      ensures forall f, payload :: Target(f) != name ==> Dispatch(m, f, payload) == Dispatch(old(m), f, payload)
    {
      m := m[name := cb];
    }

    /** A forwarder called with its payload. */
    method Forward(f: Forwarder, payload: Payload) returns (r: Option<Invocation>)
      ensures r == Dispatch(m, f, payload)
      ensures r.Some? <==> Target(f) in m
    {
      if Target(f) in m {
        r := Some(Invocation(m[Target(f)], payload));
      } else {
        r := None;
      }
    }

    /** `setPagination`: the node the next built slot gets. */
    method SetPagination(node: Option<Node>)
      modifies this`p
      ensures p == node
    {
      p := node;
    }

    /** `dispatch` of the context. */
    method DispatchAction(action: Reducer.Action) returns (r: Result<(), string>)
      modifies this`state
      ensures r.Ok? <==> Reducer.TableReducer(old(state), action).Ok?
      ensures r.Ok? ==> state == Reducer.TableReducer(old(state), action).value
      ensures r.Err? ==> state == old(state)
    {
      var next := Reducer.TableReducer(state, action);
      if next.Err? {
        return Err(next.error);
      }
      state := next.value;
      r := Ok(());
    }

    /** `slotBuilder(config)(tableState)`, with the truthiness of the table state given. */
    method Build(config: Config, tableStateGiven: bool) returns (r: Rendered)
      ensures !tableStateGiven ==> r == Nothing
      ensures tableStateGiven ==> r == Slot(WiredProps, ProvidedState(state, tag, config), p)
      ensures r.Slot? ==> r.state.config == config && r.state.tag == tag && ColVisibleChange !in r.props
    {
      if !tableStateGiven {
        return Nothing;
      }
      r := Slot(WiredProps, ProvidedState(state, tag, config), p);
    }
  }
}
