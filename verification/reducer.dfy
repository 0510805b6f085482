/** `reducer.ts`: the table context's state and its two-action reducer. */
module Reducer {
  import opened Wrappers
  import opened TableTypes

  /** `ITableInitState`: the configuration and an optional tag. */
  datatype TableState = TableState(config: Config, tag: Option<string>)

  /** `initialTableState`: `{config: {}, tag: undefined}`. */
  function InitialTableState(): (s: TableState)
    ensures s.config == EmptyConfig && !HasRowKey(s.config) && s.tag.None?
  {
    TableState(EmptyConfig, None)
  }

  /** An action; its `type` can be anything at run time, so unknown types are a case of their own. */
  datatype Action =
    | UpdateConfig(config: Config)
    | UpdateTableTag(tag: Option<string>)
    | OtherAction(actionType: string)

  /** `TableReducer`: a tag update replaces the tag only, a config update replaces the config only,
      and any other action type throws. */
  function TableReducer(state: TableState, action: Action): (r: Result<TableState, string>)
    ensures action.UpdateTableTag? ==> r.Ok? && r.value.tag == action.tag && r.value.config == state.config
    ensures action.UpdateConfig? ==> r.Ok? && r.value.config == action.config && r.value.tag == state.tag
    ensures r.Err? <==> action.OtherAction?
    ensures r.Err? ==> r.error == "No case for type " + action.actionType + " found in ruler."
  {
    match action
    case UpdateTableTag(tag) => Ok(state.(tag := tag))
    case UpdateConfig(config) => Ok(state.(config := config))
    case OtherAction(t) => Err("No case for type " + t + " found in ruler.")
  }

  /** Applying the same action twice has the effect of applying it once. */
  lemma ReducerIdempotent(state: TableState, action: Action)
    requires !action.OtherAction?
    ensures TableReducer(TableReducer(state, action).value, action) == TableReducer(state, action)
  {
  }

  /** A tag update and a config update commute: each touches only its own field. */
  lemma TagAndConfigUpdatesCommute(state: TableState, tag: Option<string>, config: Config)
    ensures TableReducer(TableReducer(state, UpdateTableTag(tag)).value, UpdateConfig(config))
         == TableReducer(TableReducer(state, UpdateConfig(config)).value, UpdateTableTag(tag))
  {
  }
}
