# ATable table state coordinator, in Dafny

This project models the state logic of the `ATable` React table component. The parts modelled are:

- **The table slot (`TableSlot.tsx`).** It holds the state of one rendered table:
  - the column list, with a selection/expand sentinel column injected in place;
  - column visibility and initial row selection from declared key lists;
  - the zero-based page state;
  - the single-row click highlight;
  - header drag reordering, with the splice semantics of `arrayMove`;
  - a permission bitmask whose `SYNC` bit gates column-sync reports;
  - the "selected rows only" filter flag, the footer total and the expansion state.
- **The `useATable` hook.** It keeps a mutable registry of user handlers. It hands the slot forwarders that read the registry at call time, and it builds the slot with a context value.
- **The `useTableCallback` hook.** It fills a handler map through one setter per name in the fixed callback-name list.
- **The context reducer** (`reducer.ts`).
- **The merge of persisted column records with live column definitions** (`useMergeCol.tsx`).
- **The recursive structural equality** `deepEqual` (`utils.ts`).

JavaScript values appear as a `JsValue` datatype with `typeof`, truthiness and property access (module `JsValues`). A missing key reads as `undefined`. Arrays answer `length` and decimal index keys.

The slot's state is a class with one field per state cell. Each effect and event handler is a method that states the new state and the calls it makes on its event props. A call written `onX?.()` is a no-op when the prop is absent. A call written `onX()` without a guard yields an error value when the prop is absent. The class uses the corrected behaviour for the two defects listed under "## Findings"; the as-written behaviour is modelled beside it as a function.

Two kinds of input are parameters:

- what the table engine reports (its column list with visibility and sizes, its visible flat columns, its selected rows, its row count);
- what the drag-and-drop kit reports (the active and the hovered item ids).

Handlers are opaque values. Invoking one appears as an `Invocation` record.

## Model

| member | source | states |
|---|---|---|
| Utils.DeepEqual | packages/components/src/Table/utils.ts:2-39 | identical values are equal; one nullish side or different `typeof`s give false; distinct values are equal only when both are objects (arrays included) and neither is null; different own-key counts give false |
| Utils.ArraysDeepEqual | packages/components/src/Table/utils.ts:10-19 | two arrays are equal iff they have the same length and are element-wise equal |
| Utils.ObjectsDeepEqual | packages/components/src/Table/utils.ts:22-35 | two objects are equal iff they have the same own-key count and every key of the first is equal to the second's value at that key, a missing key reading as undefined |
| Utils.CopyIsDeepEqual | packages/components/src/Table/utils.ts:22-35 | every own key of a well-formed object reads back a deep-equal value, so the key walk accepts a copy just as `===` accepts the same object |
| Utils.DeepEqualNotSymmetric | packages/components/src/Table/utils.ts:29-35 | `{a: undefined}` equals `{b: 1}` but not the reverse |
| Utils.ArrayAgainstObject | packages/components/src/Table/utils.ts:10-35 | an array and an object can compare equal: `[]` and `{}`, `["x"]` and `{"0": "x"}`, `{length: 1}` and `["x"]` |
| Reducer.InitialTableState | packages/components/src/Table/reducer.ts:26-29 | the initial state has an empty config, no row key and no tag |
| Reducer.TableReducer | packages/components/src/Table/reducer.ts:36-53 | a tag update sets the tag and keeps the config; a config update sets the config and keeps the tag; any other action type is an error with the "No case for type … found in ruler." message |
| Reducer.ReducerIdempotent | packages/components/src/Table/reducer.ts:39-49 | applying an accepted action twice equals applying it once |
| Reducer.TagAndConfigUpdatesCommute | packages/components/src/Table/reducer.ts:40-49 | a tag update and a config update commute |
| MergeCol.ToMapLast | packages/components/src/Table/useMergeCol.tsx:18-22 | the key map has an entry exactly for the keys that occur, holding the last item with that key |
| MergeCol.ArrayToMap | packages/components/src/Table/useMergeCol.tsx:12-25 | the key list has one key per item in input order, duplicates kept, and the map is the last-writer-wins map |
| MergeCol.LastIndexOf | packages/components/src/Table/useMergeCol.tsx:18-22 | the index found holds the key and no later item does; -1 means no item holds it |
| MergeCol.Merge1 | packages/components/src/Table/useMergeCol.tsx:37-45 | a merged column is the last live column with that id, with `size` replaced by the `flex` of the last target record with that field |
| MergeCol.Origins | packages/components/src/Table/useMergeCol.tsx:36-40 | the target indices that emit a column, increasing, each emitting and every emitting index listed |
| MergeCol.MergeColumns | packages/components/src/Table/useMergeCol.tsx:30-53 | the merge yields the merged columns in target order and the visibility map of the emitted fields |
| MergeCol.MergedColumnsComeFromBoth | packages/components/src/Table/useMergeCol.tsx:36-49 | there are at most as many merged columns as target records; each has an id that is a target field and a live column id, so live columns absent from the target are dropped |
| MergeCol.VisibilityCoversMerged | packages/components/src/Table/useMergeCol.tsx:40-46 | the visibility map has an entry exactly for the ids of the merged columns |
| MergeCol.DuplicateFieldsEmittedPerOccurrence | packages/components/src/Table/useMergeCol.tsx:20-46 | a field listed twice in the target is emitted once per occurrence, each copy with the width of its last occurrence |
| MergeCol.EmptyTargetMergesToNothing | packages/components/src/Table/useMergeCol.tsx:30-53 | an empty target list gives no columns and an empty visibility map |
| MergeCol.AgeStatusExample | packages/components/src/Table/useMergeCol.tsx:30-53 | a record for `age` (invisible, width 80) merged with live `age` and `status` gives only `age`, with size 80 and visibility false |
| MergeCol.PersistedPayloadRoundTrip | packages/components/src/Table/useMergeCol.tsx:36-46 | records made from sync entries for distinct live columns, in order, merge back into those columns with the recorded widths and visibility |
| MergeCol.SyncedColumnsMergeBack | packages/components/src/Table/TableSlot.tsx:813-822 | the slot's column-sync payload, once persisted, merges back into the reported columns with their reported widths and visibility |
| TableSlot.ColumnsFor | packages/components/src/Table/TableSlot.tsx:492-578 | outside selection/expand mode the columns are kept; in that mode an empty list throws, and otherwise the list is kept exactly when its first column already has the sentinel's accessor key, the sentinel being put in front otherwise, so the first column always has that key |
| TableSlot.GetColumnsIdempotent | packages/components/src/Table/TableSlot.tsx:493-497 | a second `getColumns` on its own result changes nothing |
| TableSlot.ColumnArray.GetColumns | packages/components/src/Table/TableSlot.tsx:492-570 | the caller's array is updated in place to the result of `getColumns` |
| TableSlot.SetVisibleAct | packages/components/src/Table/TableSlot.tsx:460-491 | no declared list gives `{}`; otherwise there is an entry exactly for each truthy column id, true iff the id is listed or is the sentinel's |
| TableSlot.SetSelectionAct | packages/components/src/Table/TableSlot.tsx:601-619 | no row key or no declared list gives `{}`; otherwise there is an entry exactly for the string keys declared, and every entry is true |
| TableSlot.ZeroBasedPageIndex | packages/components/src/Table/TableSlot.tsx:579-582 | the index is never negative, is `pageIndex - 1` from page 1 on, and 0 below |
| TableSlot.PageReportRoundTrip | packages/components/src/Table/TableSlot.tsx:780-787 | a page from the props is reported back unchanged for every page from 1 on, and as page 1 below |
| TableSlot.ClickedAfter | packages/components/src/Table/TableSlot.tsx:870-876 | the highlight list has at most one element, holds only the clicked key, and holds it iff it was not highlighted before |
| TableSlot.ClickTwiceClears | packages/components/src/Table/TableSlot.tsx:869-876 | clicking one row twice restores the state after one click; clicking another row moves the highlight |
| TableSlot.IndexOf | packages/components/src/Table/TableSlot.tsx:807-808 | the first position of the id, or -1 exactly when it is absent |
| TableSlot.SpliceStart | packages/components/src/Table/TableSlot.tsx:809 | an index of -1 counts from the end, others are kept |
| TableSlot.ArrayMove | packages/components/src/Table/TableSlot.tsx:806-810 | the length is kept and the dragged element lands at the drop index |
| TableSlot.ArrayMovePermutes | packages/components/src/Table/TableSlot.tsx:806-810 | the reorder is a permutation |
| TableSlot.ArrayMoveKeepsOthersInOrder | packages/components/src/Table/TableSlot.tsx:806-810 | without the moved element, the new order equals the old one without it |
| TableSlot.SentinelStaysFirst | packages/components/src/Table/TableSlot.tsx:805-810 | a drag that passes the guard never moves a leading sentinel column |
| TableSlot.ToggleSync | packages/components/src/Table/TableSlot.tsx:1078 | the switch flips the sync bit and leaves every other bit as it was |
| TableSlot.PermissionsStartWithoutSync | packages/components/src/Table/TableSlot.tsx:627 | permissions start with resize and drag set and sync off; toggling twice restores any value |
| TableSlot.SyncPayload | packages/components/src/Table/TableSlot.tsx:189-196 | one entry per engine column: its id as field, the table's tag as module key, its visibility and its width |
| TableSlot.OrderOf | packages/components/src/Table/TableSlot.tsx:658-665 | the order lists each column's id, or "" for a column without one |
| TableSlot.ResetOrderStartsWithSentinel | packages/components/src/Table/TableSlot.tsx:662-665 | after a fresh sentinel is injected, the reset order starts with the sentinel's id |
| TableSlot.KeptIndices | packages/components/src/Table/TableSlot.tsx:774-777 | the positions the filter keeps: strictly increasing, each in range and not the sentinel's id, and every position holding another id is among them |
| TableSlot.VisibleColumnReport | packages/components/src/Table/TableSlot.tsx:774-777 | the reported ids are the visible flat column ids with every copy of the sentinel's id removed and nothing else |
| TableSlot.VisibleColumnReportKeepsOrder | packages/components/src/Table/TableSlot.tsx:774-777 | the report keeps the engine's order: its j-th id is the id at the j-th kept position |
| TableSlot.VisibleColumnsCallAsWritten | packages/components/src/Table/TableSlot.tsx:772-778 | the unguarded report throws exactly when `onColVisibleChange` is absent, and otherwise calls it with the report |
| TableSlot.VisibleColumnsCall | packages/components/src/Table/TableSlot.tsx:772-778 | the guarded report calls `onColVisibleChange` with the report when present and does nothing otherwise |
| TableSlot.VisibleColumnsCallAgrees | packages/components/src/Table/TableSlot.tsx:772-778 | the guarded report makes the same call as the unguarded one wherever that one does not throw |
| TableSlot.LocaleNumber | packages/components/src/Table/TableSlot.tsx:1295 | a row count reads back through `toLocaleString` below 1000 and gives NaN from 1000 on |
| TableSlot.FooterTotalAsWritten | packages/components/src/Table/TableSlot.tsx:1294-1296 | while filtered, the selection key count; otherwise the truthy `total`, else the locale-formatted row count read back |
| TableSlot.FooterTotal | packages/components/src/Table/TableSlot.tsx:1294-1296 | while filtered, the selection key count; otherwise the truthy `total`, else the row count |
| TableSlot.FooterTotalAsWrittenLosesLargeCounts | packages/components/src/Table/TableSlot.tsx:1294-1296 | the footer as written shows NaN exactly for an unfiltered footer without `total` and with 1000 rows or more, and agrees with the corrected total everywhere else |
| TableSlot.ExpandedAfterCollapse | packages/components/src/Table/TableSlot.tsx:640-648 | an absent `collapse` keeps the expansion, true expands all, false expands none |
| TableSlot.SlotState.constructor | packages/components/src/Table/TableSlot.tsx:579-660 | the first render holds the columns from `getColumns` (in place), the declared visibility, the initial selection, the order of those columns, the declared clicked rows, drag+resize permissions, no filter, no expansion and the zero-based page |
| TableSlot.SlotState.OnColumnsChange | packages/components/src/Table/TableSlot.tsx:632-665 | `getColumns` reruns in place under the new context config and visibility is reset; the order is reset only when the `col` array is a new one, so with the same array a dragged order is kept, and so is an order without the sentinel after the config turns selection or expand mode on; a throwing `getColumns` changes nothing, config included |
| TableSlot.SlotState.ResetSelection | packages/components/src/Table/TableSlot.tsx:600-626 | the config becomes the new context config and the selection is rebuilt from the declaration under its `rowKey` |
| TableSlot.SlotState.OnCollapseChange | packages/components/src/Table/TableSlot.tsx:640-648 | the expansion follows the `collapse` prop |
| TableSlot.SlotState.SyncPageFromProps | packages/components/src/Table/TableSlot.tsx:784-787 | the page state becomes the zero-based props, which report back unchanged from page 1 on |
| TableSlot.SlotState.OnPagerChange | packages/components/src/Table/TableSlot.tsx:1316-1319 | the pager's one-based page is stored zero-based and reports back unchanged |
| TableSlot.SlotState.ReportPage | packages/components/src/Table/TableSlot.tsx:780-782 | `onPageChange` gets the one-based page and the size; an absent prop throws |
| TableSlot.SlotState.ReportSelection | packages/components/src/Table/TableSlot.tsx:769-771 | `onSelectChange` gets the engine's selected rows; an absent prop throws |
| TableSlot.SlotState.ReportVisibleColumns | packages/components/src/Table/TableSlot.tsx:772-778 | the guarded visible-column report, which never carries the sentinel's id |
| TableSlot.SlotState.OnHandleResizeOver | packages/components/src/Table/TableSlot.tsx:265-287 | `onHeaderResizeEnd` gets the header id; `onTableSync` follows iff the sync bit is set and the prop is present |
| TableSlot.SlotState.ToggleSyncPermission | packages/components/src/Table/TableSlot.tsx:1077-1079 | the sync bit flips |
| TableSlot.SlotState.OnPopupToggleVisibility | packages/components/src/Table/TableSlot.tsx:186-197 | the column's visibility becomes the checkbox value and the table is synced whatever the permissions |
| TableSlot.SlotState.HandleDragEnd | packages/components/src/Table/TableSlot.tsx:801-827 | past the guard, the order becomes the `arrayMove` of the two ids' indices and `onHeaderMoveEnd` fires, with `onTableSync` only while sync is on; otherwise the order is unchanged and nothing fires; the order stays a permutation and a leading sentinel stays first |
| TableSlot.SlotState.ShownTotal | packages/components/src/Table/TableSlot.tsx:1289-1297 | while filtered, the footer shows the selection key count; otherwise `total` or the row count |
| TableSlot.SlotState.OnHandleQuitFilter | packages/components/src/Table/TableSlot.tsx:855-857 | the filter returns to all rows |
| TableSlot.SlotState.OnHandleClearSelection | packages/components/src/Table/TableSlot.tsx:858-860 | the selection becomes empty and the filter is untouched |
| TableSlot.SlotState.OnFilterSelectionRows | packages/components/src/Table/TableSlot.tsx:883-887 | the filter changes only from all rows to selected rows |
| TableSlot.SlotState.OnHandleClickRow | packages/components/src/Table/TableSlot.tsx:861-881 | without a row key it throws and changes nothing; otherwise a truthy key toggles the highlight, a falsy one leaves it, and `onRowClick` gets the row when present |
| ATable.Target | packages/components/src/Table/useATable.tsx:17-58 | every forwarder reads a registrable entry other than `setUpdate` |
| ATable.ForwardersCoverRegistry | packages/components/src/Table/useATable.tsx:17-58 | no two forwarders read the same entry, and every registrable name but `setUpdate` has one |
| ATable.Dispatch | packages/components/src/Table/useATable.tsx:17-58 | a forwarder calls the handler registered under its name with its argument, and does nothing when none is registered |
| ATable.LastRegistrationWins | packages/components/src/Table/useATable.tsx:111-163 | the last handler registered under a name is the one its forwarder calls |
| ATable.RegistrationIsolated | packages/components/src/Table/useATable.tsx:111-163 | registering under one name changes no other forwarder |
| ATable.WiredForwarder | packages/components/src/Table/useATable.tsx:66-80 | exactly the eleven wired slot props have a forwarder, each reading the entry of its own name |
| ATable.SlotCallsReachSameNamedHandler | packages/components/src/Table/useATable.tsx:66-78 | every call the slot makes on a wired prop reaches the handler registered under the same name with the same payload, or nothing |
| ATable.ProvidedState | packages/components/src/Table/useATable.tsx:63 | the context state carries the builder's config and the hook's tag |
| ATable.DispatchIsInvisibleToSlot | packages/components/src/Table/useATable.tsx:62-64 | no accepted reducer action changes the state the slot sees |
| ATable.WiredReportsNeverThrow | packages/components/src/Table/useATable.tsx:66-80 | the wired slot's unguarded page and selection reports never throw |
| ATable.WiredSlotThrowsOnVisibleColumns | packages/components/src/Table/useATable.tsx:66-80 | `onColVisibleChange` is not wired, so the unguarded visible-column report throws on every built slot and the guarded one calls nothing |
| ATable.EffectRegistry.constructor | packages/components/src/Table/useATable.tsx:8-15 | the registry starts empty, with no pagination node and the initial reducer state |
| ATable.EffectRegistry.Register | packages/components/src/Table/useATable.tsx:111-163 | the handler replaces the one under its name; that name's forwarder calls it and every other forwarder is unchanged |
| ATable.EffectRegistry.Forward | packages/components/src/Table/useATable.tsx:17-58 | a forwarder invokes the handler stored at call time, or does nothing when none is stored |
| ATable.EffectRegistry.SetPagination | packages/components/src/Table/useATable.tsx:167-169 | the stored pagination node is replaced |
| ATable.EffectRegistry.DispatchAction | packages/components/src/Table/useATable.tsx:15 | the context's dispatch applies the reducer; a rejected action leaves the state as it was |
| ATable.EffectRegistry.Build | packages/components/src/Table/useATable.tsx:59-109 | a falsy table state renders nothing; otherwise the slot gets the eleven wired props, the builder's config and the hook's tag, and the current pagination node |
| TableCallback.CallbackNamesDistinct | packages/components/src/Table/constant.ts:3-17 | there are thirteen distinct callback names: every event name except `setUpdate` |
| TableCallback.CallbackUnstable | packages/components/src/Table/useTableCallback.tsx:19-29 | there is exactly one setter per callback name, each bound to its own name |
| TableCallback.CallbackRegistry.constructor | packages/components/src/Table/useTableCallback.tsx:6-10 | the callback map starts empty |
| TableCallback.CallbackRegistry.SetRef | packages/components/src/Table/useTableCallback.tsx:12-17 | the entry for the name is set and no other changes |
| TableCallback.CallbackRegistry.Invoke | packages/components/src/Table/useTableCallback.tsx:24-26 | a setter stores the handler under its own name and leaves every other entry as it was |

## Left out

- Rendering is not modelled: JSX, styles, icons, the tool-bar layout, the antd pager, popover and loading views, and the header/cell components beyond their handlers.
- The table engine's internals are parameters or left out: row models, per-row selection toggles, sizing deltas, row ids and sub-rows.
- TableSlot.SlotState.SyncPageFromProps, TableSlot.SlotState.OnPagerChange: store the page index and size as given. The engine's clamping of page indices in `setPageIndex`, and its rescaling of the page index when `setPageSize` changes the size, are not applied to the page state.
- Sync payloads take the engine's column report as given. Whether that report already reflects a state update made earlier in the same handler is not modelled.
- Drag-and-drop sensors, collision detection and transforms are not modelled. The active and hovered ids arrive as parameters.
- TableSlot.SlotState.HandleDragEnd: requires a non-empty column order once the guard passes, because a drag can only start on a rendered header. Reordering an empty order is not modelled.
- Sort requests (`onAscSort`/`onDescSort`), resize start, drag start and refresh forward an id or nothing, and change no state. They are covered only through the generic `ATable.Dispatch` forwarding, not as slot methods.
- React scheduling is not modelled. Each effect and memo is an explicit method, and a functional state update is applied at once.
- Function-valued declarations (`colVisibleColIdList`, `selectedRowKeyList`, `clickedRowKeyList`) are taken already resolved, because calling them is code outside the model.
- Numbers are integers. NaN, fractional widths and `undefined` page props are not represented. `Number(n.toLocaleString())` is modelled for a locale that groups thousands with ",".
- `===` on arrays and objects is modelled as value equality rather than reference identity. Prototype properties other than an array's `length` do not exist in `JsValue`.
- `scrollTo` is DOM I/O, and `console.log` is output only; neither is modelled.
- TableSlot.SlotState.ReportVisibleColumns: makes the guarded call of the corrected `TableSlot.VisibleColumnsCall` (see "## Findings"); the unguarded call as written, which throws when the prop is absent, is `TableSlot.VisibleColumnsCallAsWritten`.
- TableSlot.SlotState.ShownTotal: uses the corrected `TableSlot.FooterTotal` (see "## Findings"); the NaN the fallback total gives as written for 1000 rows or more is `TableSlot.FooterTotalAsWritten`.
- Reducer.TableReducer: an unknown action type gives an error value carrying the message, rather than a thrown exception that unwinds the caller.

## Findings

| source | as written | input that shows it | evidently intended | confidence | as-written member | corrected member |
|---|---|---|---|---|---|---|
| packages/components/src/Table/TableSlot.tsx:775 | `onColVisibleChange` is called without `?.`, and the table creator in `useATable.tsx:66-80` never passes that prop | any table built with `slotBuilder`, on its first render | a guarded call, like the other optional event props, that reports nothing when no handler is given | not executed; high | TableSlot.VisibleColumnsCallAsWritten | TableSlot.VisibleColumnsCall |
| packages/components/src/Table/TableSlot.tsx:1295 | the fallback total is `Number(rowCount.toLocaleString())` | no `total` prop, no filter, 1000 rows, in a locale that writes "1,000" | the row count, 1000 | not executed; medium, depends on the locale | TableSlot.FooterTotalAsWritten | TableSlot.FooterTotal |
