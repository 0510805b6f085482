/** The state rules of `TableSlot.tsx`: the column set with its selection/expand sentinel column,
    column visibility, initial row selection, paging, clicked-row highlight, column reorder,
    the sync permission bitmask, the selected-only filter flag and the expansion state. */
module TableSlot {
  import opened Wrappers
  import opened JsValues
  import opened TableTypes

  /** Id and accessor key of the injected selection/expand column. */
  const SELECT_KEY: string := "__selectionCheckBox__"
  const DEFAULT_SELECT_WIDTH: int := 40

  /** The permission bits. */
  const RESIZABLE: bv32 := 1
  const DRAGGABLE: bv32 := 2
  const SYNC: bv32 := 4
  const INITIAL_PERMISSIONS: bv32 := DRAGGABLE | RESIZABLE

  /** A call the slot makes on one of its event props. */
  datatype SlotCall = SlotCall(prop: EventName, payload: Payload)

  /** `onX?.(payload)`: no call when the prop was not supplied. */
  function GuardedCall(props: set<EventName>, name: EventName, payload: Payload): (calls: seq<SlotCall>)
    ensures name in props ==> calls == [SlotCall(name, payload)]
    ensures name !in props ==> calls == []
  {
    if name in props then [SlotCall(name, payload)] else []
  }

  /** `onX(payload)`: calling a prop that was not supplied throws a TypeError. */
  function DirectCall(props: set<EventName>, name: EventName, payload: Payload): (r: Result<seq<SlotCall>, string>)
    ensures r.Ok? <==> name in props
    ensures r.Ok? ==> r.value == [SlotCall(name, payload)]
  {
    if name in props then Ok([SlotCall(name, payload)]) else Err("TypeError: the prop is not a function")
  }

  // ---------------------------------------------------------------------------------------------
  // Columns

  function SentinelColumn(): Column {
    Column(Some(SELECT_KEY), Some(SELECT_KEY), Some(DEFAULT_SELECT_WIDTH), SelectionTemplate)
  }

  /** Selection or tree-expansion mode is on, so the table needs the sentinel column. */
  predicate SentinelMode(config: Config) {
    config.selectModel || config.expand
  }

  /** `getColumns`: in selection/expand mode, the sentinel is put in front unless the first
      column already has the sentinel's accessor key; reading the first column of an empty list
      throws. Outside those modes the list is returned as it is. */
  function ColumnsFor(config: Config, col: seq<Column>): (r: Result<seq<Column>, string>)
    ensures !SentinelMode(config) ==> r == Ok(col)
    ensures SentinelMode(config) ==> (r.Err? <==> |col| == 0)
    ensures r.Ok? ==> r.value == col || r.value == [SentinelColumn()] + col
    ensures r.Ok? && SentinelMode(config) ==> r.value[0].accessorKey == Some(SELECT_KEY)
    ensures SentinelMode(config) && |col| > 0 ==> (r.value == col <==> col[0].accessorKey == Some(SELECT_KEY))
  {
    if !SentinelMode(config) then Ok(col)
    else if |col| == 0 then Err("TypeError: cannot read accessorKey of undefined")
    else if col[0].accessorKey == Some(SELECT_KEY) then Ok(col)
    else Ok([SentinelColumn()] + col)
  }

  /** A second `getColumns` on its own result changes nothing: the sentinel is added once. */
  lemma GetColumnsIdempotent(config: Config, col: seq<Column>)
    requires ColumnsFor(config, col).Ok?
    ensures ColumnsFor(config, ColumnsFor(config, col).value) == ColumnsFor(config, col)
  {
  }

  /** The caller's column array, which `getColumns` updates in place (`col.unshift(...)`). */
  class ColumnArray {
    var items: seq<Column>

    constructor (items: seq<Column>)
      ensures this.items == items
    {
      this.items := items;
    }

    /** `getColumns`. */
    method GetColumns(config: Config) returns (r: Result<seq<Column>, string>)
      modifies this
      ensures r == ColumnsFor(config, old(items))
      ensures items == if r.Ok? then r.value else old(items)
    {
      if SentinelMode(config) {
        if |items| == 0 {
          return Err("TypeError: cannot read accessorKey of undefined");
        }
        if items[0].accessorKey != Some(SELECT_KEY) {
          items := [SentinelColumn()] + items;
        }
      }
      r := Ok(items);
    }
  }

  /** A column whose `id` is truthy. */
  predicate HasTruthyId(c: Column) {
    c.id.Some? && c.id.value != ""
  }

  function TruthyIds(columns: seq<Column>): set<string> {
    set c | c in columns && HasTruthyId(c) :: c.id.value
  }

  /** The visibility map for a declared list of visible ids: nothing when no list is declared;
      otherwise every truthy column id is visible iff it is listed or is the sentinel's. */
  function VisibilityFor(columns: seq<Column>, declared: Option<seq<JsValue>>): map<string, bool> {
    if declared.None? then map[]
    else map k | k in TruthyIds(columns) :: Str(k) in declared.value || k == SELECT_KEY
  }

  /** `setVisibleAct`, with the declared list already resolved (a function-valued declaration is
      called with no arguments first). */
  method SetVisibleAct(columns: seq<Column>, declared: Option<seq<JsValue>>) returns (list: map<string, bool>)
    ensures list == VisibilityFor(columns, declared)
    ensures declared.None? ==> list == map[]
    ensures declared.Some? ==> forall k :: k in list <==> exists c :: c in columns && c.id == Some(k) && k != ""
    ensures forall k :: k in list ==> list[k] == (Str(k) in declared.value || k == SELECT_KEY)
    ensures SELECT_KEY in list ==> list[SELECT_KEY]
  {
    list := map[];
    if declared.Some? {
      var i := 0;
      while i < |columns|
        invariant 0 <= i <= |columns|
        invariant list == VisibilityFor(columns[..i], declared)
      {
        assert columns[..i + 1] == columns[..i] + [columns[i]];
        var c := columns[i];
        if c.id.Some? && c.id.value != "" {
          if Str(c.id.value) in declared.value || c.id.value == SELECT_KEY {
            list := list[c.id.value := true];
          } else {
            list := list[c.id.value := false];
          }
        }
        i := i + 1;
      }
      assert columns[..i] == columns;
    }
  }

  /** The strings among the declared keys. */
  function StringKeys(declared: seq<JsValue>): set<string> {
    set v | v in declared && v.Str? :: v.s
  }

  /** The initial row selection: nothing without a truthy `rowKey` or without a declared list;
      otherwise every declared key that is a string is selected. */
  function InitialSelection(config: Config, declared: Option<seq<JsValue>>): map<string, bool> {
    if !HasRowKey(config) || declared.None? then map[]
    else map k | k in StringKeys(declared.value) :: true
  }

  /** `setSelectionAct`, with the declared list already resolved. */
  method SetSelectionAct(config: Config, declared: Option<seq<JsValue>>) returns (selection: map<string, bool>)
    ensures selection == InitialSelection(config, declared)
    ensures !HasRowKey(config) || declared.None? ==> selection == map[]
    ensures HasRowKey(config) && declared.Some? ==> forall k :: k in selection <==> Str(k) in declared.value
    ensures forall k :: k in selection ==> selection[k]
  {
    if !HasRowKey(config) {
      return map[];
    }
    selection := map[];
    if declared.Some? {
      var keys := declared.value;
      var i := 0;
      while i < |keys|
        invariant 0 <= i <= |keys|
        invariant selection == InitialSelection(config, Some(keys[..i]))
      {
        assert keys[..i + 1] == keys[..i] + [keys[i]];
        if keys[i].Str? {
          selection := selection[keys[i].s := true];
        }
        i := i + 1;
      }
      assert keys[..i] == keys;
    }
  }

  // ---------------------------------------------------------------------------------------------
  // Paging

  datatype PaginationState = PaginationState(pageIndex: int, pageSize: int)

  /** The table's zero-based page index for a one-based `pageIndex` prop; anything below page 1
      becomes the first page. */
  function ZeroBasedPageIndex(pageIndex: int): (r: int)
    ensures r >= 0
    ensures pageIndex >= 1 ==> r == pageIndex - 1
    ensures pageIndex <= 1 ==> r == 0
  {
    if pageIndex - 1 <= 0 then 0 else pageIndex - 1
  }

  /** The payload of `onPageChange`: the page is reported one-based again. */
  function ReportedPage(p: PaginationState): Payload {
    PageInfo(p.pageIndex + 1, p.pageSize)
  }

  /** A page taken from the props is reported back unchanged, for every page from 1 on;
      pages below 1 are reported as page 1. */
  lemma PageReportRoundTrip(pageIndex: int, pageSize: int)
    ensures pageIndex >= 1 ==>
      ReportedPage(PaginationState(ZeroBasedPageIndex(pageIndex), pageSize)) == PageInfo(pageIndex, pageSize)
    ensures pageIndex < 1 ==>
      ReportedPage(PaginationState(ZeroBasedPageIndex(pageIndex), pageSize)) == PageInfo(1, pageSize)
  {
  }

  // ---------------------------------------------------------------------------------------------
  // Clicked rows

  /** The clicked-row list after a click on a row whose key is `cur`: the click toggles that row
      and unhighlights any other. */
  function ClickedAfter(rows: seq<JsValue>, cur: JsValue): (r: seq<JsValue>)
    ensures |r| <= 1
    ensures cur in r <==> cur !in rows
    ensures forall v :: v in r ==> v == cur
  {
    if cur in rows then [] else [cur]
  }

  /** Two clicks on the same row leave nothing highlighted; a click on a second row moves the
      highlight. */
  lemma ClickTwiceClears(rows: seq<JsValue>, cur: JsValue, other: JsValue)
    ensures ClickedAfter(ClickedAfter(ClickedAfter(rows, cur), cur), cur) == ClickedAfter(rows, cur)
    ensures cur != other ==> ClickedAfter([cur], other) == [other]
  {
  }

  // ---------------------------------------------------------------------------------------------
  // Column reorder

  /** `Array.prototype.indexOf`: the first position of `x`, or -1. */
  function IndexOf<T(==)>(s: seq<T>, x: T): (r: int)
    ensures -1 <= r < |s|
    ensures r == -1 <==> x !in s
    ensures r >= 0 ==> s[r] == x && x !in s[..r]
  {
    if |s| == 0 then -1
    else if s[0] == x then 0
    else
      var k := IndexOf(s[1..], x);
      if k == -1 then -1 else k + 1
  }

  /** `s` without the element at `i`. */
  function Without<T>(s: seq<T>, i: nat): seq<T>
    requires i < |s|
  {
    s[..i] + s[i + 1..]
  }

  /** `s` with `x` inserted before position `i`. */
  function InsertAt<T>(s: seq<T>, i: nat, x: T): seq<T>
    requires i <= |s|
  {
    s[..i] + [x] + s[i..]
  }

  /** The position a splice starts at for an index in -1 .. len - 1: -1 counts from the end. */
  function SpliceStart(k: int, len: nat): (r: nat)
    requires len > 0 && -1 <= k < len
    ensures r < len
    ensures k >= 0 ==> r == k
    ensures k == -1 ==> r == len - 1
  {
    if k < 0 then len + k else k
  }

  /** `arrayMove` of the drag-and-drop kit: the element at `from` is taken out and put back at
      `to`; an index of -1 (a missing id) counts from the end, as `splice` does. */
  function ArrayMove<T>(a: seq<T>, from: int, to: int): (r: seq<T>)
    requires |a| > 0 && -1 <= from < |a| && -1 <= to < |a|
    ensures |r| == |a|
    ensures r[SpliceStart(to, |a|)] == a[SpliceStart(from, |a|)]
  {
    var f := SpliceStart(from, |a|);
    InsertAt(Without(a, f), SpliceStart(to, |a|), a[f])
  }

  /** The reorder is a permutation. */
  lemma ArrayMovePermutes<T>(a: seq<T>, from: int, to: int)
    requires |a| > 0 && -1 <= from < |a| && -1 <= to < |a|
    ensures multiset(ArrayMove(a, from, to)) == multiset(a)
  {
    var f, t := SpliceStart(from, |a|), SpliceStart(to, |a|);
    var rest := Without(a, f);
    assert a == a[..f] + [a[f]] + a[f + 1..];
    assert rest == rest[..t] + rest[t..];
    calc {
      multiset(ArrayMove(a, from, to));
      multiset(rest[..t]) + multiset{a[f]} + multiset(rest[t..]);
      multiset(rest) + multiset{a[f]};
      multiset(a[..f]) + multiset(a[f + 1..]) + multiset{a[f]};
      multiset(a);
    }
  }

  /** Apart from the moved element, every element keeps its relative order. */
  lemma ArrayMoveKeepsOthersInOrder<T>(a: seq<T>, from: int, to: int)
    requires |a| > 0 && -1 <= from < |a| && -1 <= to < |a|
    ensures Without(ArrayMove(a, from, to), SpliceStart(to, |a|)) == Without(a, SpliceStart(from, |a|))
  {
    var f, t := SpliceStart(from, |a|), SpliceStart(to, |a|);
    var rest := Without(a, f);
    var r := ArrayMove(a, from, to);
    assert r == rest[..t] + [a[f]] + rest[t..];
    assert r[..t] == rest[..t];
    assert r[t + 1..] == rest[t..];
    assert rest == rest[..t] + rest[t..];
  }

  /** The column order after a drag of `active` onto `over`. */
  function DraggedOrder(order: seq<string>, active: string, over: string): seq<string>
    requires |order| > 0
  {
    ArrayMove(order, IndexOf(order, active), IndexOf(order, over))
  }

  /** The drop guard of `handleDragEnd`: both ends present, distinct, and not dropped on the
      sentinel column. */
  predicate DragAccepted(active: Option<string>, over: Option<string>) {
    active.Some? && over.Some? && active.value != over.value && over.value != SELECT_KEY
  }

  /** A drag never moves the sentinel column out of first place, since the sentinel carries no
      drag listeners and nothing can be dropped on it. */
  lemma SentinelStaysFirst(order: seq<string>, active: string, over: string)
    requires |order| > 0 && order[0] == SELECT_KEY
    requires active != SELECT_KEY && over != SELECT_KEY
    ensures DraggedOrder(order, active, over)[0] == SELECT_KEY
  {
    var from, to := IndexOf(order, active), IndexOf(order, over);
    var f, t := SpliceStart(from, |order|), SpliceStart(to, |order|);
    var rest := Without(order, f);
    if |order| == 1 {
      assert from == -1 && f == 0 && t == 0;
      assert DraggedOrder(order, active, over) == [order[0]];
    } else {
      assert f >= 1 && t >= 1;
      assert rest[0] == SELECT_KEY;
      assert DraggedOrder(order, active, over) == rest[..t] + [order[f]] + rest[t..];
    }
  }

  // ---------------------------------------------------------------------------------------------
  // Permissions

  /** `permissions & SYNC` is truthy. */
  predicate SyncEnabled(p: bv32) {
    p & SYNC != 0
  }

  /** The sync switch of the tool bar: `permissions ^ SYNC`. */
  function ToggleSync(p: bv32): (q: bv32)
    ensures SyncEnabled(q) <==> !SyncEnabled(p)
    ensures q & !SYNC == p & !SYNC
  {
    p ^ SYNC
  }

  /** A table starts with resize and drag allowed and sync off; switching sync twice restores
      the permissions. */
  lemma PermissionsStartWithoutSync(p: bv32)
    ensures !SyncEnabled(INITIAL_PERMISSIONS)
    ensures INITIAL_PERMISSIONS & RESIZABLE != 0 && INITIAL_PERMISSIONS & DRAGGABLE != 0
    ensures ToggleSync(ToggleSync(p)) == p
  {
  }

  // ---------------------------------------------------------------------------------------------
  // Column reports

  /** What the engine reports about one column: its id, whether it is shown, and its width. */
  datatype ColumnReport = ColumnReport(id: string, visible: bool, size: int)

  /** The `onTableSync` payload: one entry per engine column, tagged with the table's tag. */
  function SyncPayload(report: seq<ColumnReport>, tag: Option<string>): (p: seq<SyncEntry>)
    ensures |p| == |report|
    ensures forall i :: 0 <= i < |p| ==>
      p[i].field == Some(report[i].id) && p[i].moduleKey == tag &&
      p[i].visible == report[i].visible && p[i].flex == report[i].size
  {
    seq(|report|, i requires 0 <= i < |report| =>
      SyncEntry(Some(report[i].id), tag, report[i].visible, report[i].size))
  }

  /** The column order for a column list: each column's id, or "" when it has none. */
  function OrderOf(columns: seq<Column>): (o: seq<string>)
    ensures |o| == |columns|
    ensures forall i :: 0 <= i < |o| ==> o[i] == columns[i].id.GetOr("")
  {
    seq(|columns|, i requires 0 <= i < |columns| => columns[i].id.GetOr(""))
  }

  /** After `getColumns` in selection or expand mode with a fresh sentinel, the order starts with
      the sentinel's id. */
  lemma ResetOrderStartsWithSentinel(config: Config, col: seq<Column>)
    requires ColumnsFor(config, col).Ok? && |ColumnsFor(config, col).value| > |col|
    ensures OrderOf(ColumnsFor(config, col).value)[0] == SELECT_KEY
  {
  }

  /** The positions of `ids` that are not the sentinel's id, in increasing order. */
  function KeptIndices(ids: seq<string>): (o: seq<nat>)
    ensures forall j :: 0 <= j < |o| ==> o[j] < |ids| && ids[o[j]] != SELECT_KEY
    ensures forall j, k :: 0 <= j < k < |o| ==> o[j] < o[k]
    ensures forall i :: 0 <= i < |ids| && ids[i] != SELECT_KEY ==> i in o
    decreases |ids|
  {
    if |ids| == 0 then []
    else
      var o := KeptIndices(ids[..|ids| - 1]);
      if ids[|ids| - 1] == SELECT_KEY then o else o + [|ids| - 1]
  }

  /** The visible column ids the slot reports: the engine's visible ids without the sentinel. */
  function VisibleColumnReport(ids: seq<string>): (r: seq<string>)
    ensures multiset(r) == multiset(ids)[SELECT_KEY := 0]
    ensures SELECT_KEY !in r
    ensures forall x :: x in r <==> x in ids && x != SELECT_KEY
    decreases |ids|
  {
    if |ids| == 0 then []
    else
      var init, last := ids[..|ids| - 1], ids[|ids| - 1];
      var rest := VisibleColumnReport(init);
      assert ids == init + [last];
      if last == SELECT_KEY then rest else rest + [last]
  }

  /** The report keeps the engine's order: its j-th id is the id at the j-th kept position. */
  lemma {:induction false} VisibleColumnReportKeepsOrder(ids: seq<string>)
    ensures |VisibleColumnReport(ids)| == |KeptIndices(ids)|
    ensures forall j :: 0 <= j < |KeptIndices(ids)| ==> VisibleColumnReport(ids)[j] == ids[KeptIndices(ids)[j]]
    decreases |ids|
  {
    if |ids| > 0 {
      var init, last := ids[..|ids| - 1], ids[|ids| - 1];
      VisibleColumnReportKeepsOrder(init);
      var r, o := VisibleColumnReport(init), KeptIndices(init);
      assert forall j :: 0 <= j < |o| ==> ids[o[j]] == init[o[j]];
      if last == SELECT_KEY {
        assert VisibleColumnReport(ids) == r && KeptIndices(ids) == o;
      } else {
        assert VisibleColumnReport(ids) == r + [last] && KeptIndices(ids) == o + [|ids| - 1];
      }
    }
  }

  /** The visible-column report as written: `onColVisibleChange` is called without a guard, so a
      slot built without that prop throws. */
  function VisibleColumnsCallAsWritten(props: set<EventName>, ids: seq<string>): (r: Result<seq<SlotCall>, string>)
    ensures r.Err? <==> ColVisibleChange !in props
    ensures r.Ok? ==> r.value == [SlotCall(ColVisibleChange, ColumnIds(VisibleColumnReport(ids)))]
  {
    DirectCall(props, ColVisibleChange, ColumnIds(VisibleColumnReport(ids)))
  }

  /** The visible-column report with the guard the other optional props get. */
  function VisibleColumnsCall(props: set<EventName>, ids: seq<string>): (calls: seq<SlotCall>)
    ensures ColVisibleChange in props ==> calls == [SlotCall(ColVisibleChange, ColumnIds(VisibleColumnReport(ids)))]
    ensures ColVisibleChange !in props ==> calls == []
  {
    GuardedCall(props, ColVisibleChange, ColumnIds(VisibleColumnReport(ids)))
  }

  /** The guarded report agrees with the report as written wherever the latter does not throw. */
  lemma VisibleColumnsCallAgrees(props: set<EventName>, ids: seq<string>)
    ensures VisibleColumnsCallAsWritten(props, ids).Ok? ==>
      VisibleColumnsCallAsWritten(props, ids).value == VisibleColumnsCall(props, ids)
    ensures VisibleColumnsCallAsWritten(props, ids).Err? ==> VisibleColumnsCall(props, ids) == []
  {
  }

  // ---------------------------------------------------------------------------------------------
  // Footer total

  datatype FilterModel = NoFilter | SelectedOnly

  /** `Number(n.toLocaleString())` under a locale that groups thousands with ",": the digits read
      back below 1000 and give NaN (None) from 1000 on. */
  function LocaleNumber(n: nat): (r: Option<int>)
    ensures r.Some? <==> n < 1000
    ensures r.Some? ==> r.value == n
  {
    if n < 1000 then Some(n) else None
  }

  /** `total` is truthy. */
  predicate TotalGiven(total: Option<int>) {
    total.Some? && total.value != 0
  }

  /** The footer total as written: the `total` prop, else the row count read back through
      `toLocaleString`; the number of selected rows while only selected rows are shown. None is
      NaN. */
  function FooterTotalAsWritten(total: Option<int>, rowCount: nat, filter: FilterModel, selection: map<string, bool>): (r: Option<int>)
    ensures filter == SelectedOnly ==> r == Some(|selection.Keys|)
    ensures filter == NoFilter && TotalGiven(total) ==> r == total
    ensures filter == NoFilter && !TotalGiven(total) ==> r == LocaleNumber(rowCount)
  {
    if filter == NoFilter then
      (if TotalGiven(total) then total else LocaleNumber(rowCount))
    else Some(|selection.Keys|)
  }

  /** The footer total: the `total` prop, else the row count; the number of selected rows while
      only selected rows are shown. */
  function FooterTotal(total: Option<int>, rowCount: nat, filter: FilterModel, selection: map<string, bool>): (r: int)
    ensures filter == SelectedOnly ==> r == |selection.Keys|
    ensures filter == NoFilter && TotalGiven(total) ==> r == total.value
    ensures filter == NoFilter && !TotalGiven(total) ==> r == rowCount
  {
    if filter == NoFilter then
      (if TotalGiven(total) then total.value else rowCount)
    else |selection.Keys|
  }

  /** The two totals agree except on a fallback row count of 1000 or more, which the total as
      written shows as NaN. */
  lemma FooterTotalAsWrittenLosesLargeCounts(total: Option<int>, rowCount: nat, filter: FilterModel, selection: map<string, bool>)
    ensures FooterTotalAsWritten(total, rowCount, filter, selection).None? <==>
      filter == NoFilter && !TotalGiven(total) && rowCount >= 1000
    ensures FooterTotalAsWritten(total, rowCount, filter, selection).Some? ==>
      FooterTotalAsWritten(total, rowCount, filter, selection).value == FooterTotal(total, rowCount, filter, selection)
    ensures FooterTotalAsWritten(None, 1000, NoFilter, map[]).None? && FooterTotal(None, 1000, NoFilter, map[]) == 1000
  {
  }

  // ---------------------------------------------------------------------------------------------
  // Expansion

  /** The expansion state: every row, or a per-row map (`{}` is none). */
  datatype Expanded = AllExpanded | ByRow(rows: map<string, bool>)

  /** The `collapse` prop, when given, expands every row (truthy) or none. */
  function ExpandedAfterCollapse(e: Expanded, collapse: Option<bool>): (r: Expanded)
    ensures collapse.None? ==> r == e
    ensures collapse == Some(true) ==> r == AllExpanded
    ensures collapse == Some(false) ==> r == ByRow(map[])
  {
    match collapse
    case None => e
    case Some(c) => if c then AllExpanded else ByRow(map[])
  }

  // ---------------------------------------------------------------------------------------------
  // The slot's state

  /** The state a mounted `TableSlot` keeps. The engine's own reports (its column list with
      visibility and sizes, its visible flat columns, its selected rows, its row count) are
      passed in where a handler reads them. */
  class SlotState {
    /** The context's config, read again on every render. */
    var config: Config
    const tag: Option<string>
    /** The event props the slot was given. */
    const props: set<EventName>
    var col: ColumnArray
    var columns: seq<Column>
    var columnVisibility: map<string, bool>
    var rowSelection: map<string, bool>
    var columnOrder: seq<string>
    var clickedRows: seq<JsValue>
    var permissions: bv32
    var filterModel: FilterModel
    var expanded: Expanded
    var pagination: PaginationState

    /** The first render: columns (with the sentinel when needed), visibility, selection, order,
        clicked rows, permissions, filter, expansion and paging. The declared lists are the
        resolved `colVisibleColIdList`, `selectedRowKeyList` and `clickedRowKeyList`. */
    constructor (config: Config, tag: Option<string>, props: set<EventName>, colArray: ColumnArray,
                 pageIndex: int, pageSize: int, visibleDecl: Option<seq<JsValue>>,
                 selectedDecl: Option<seq<JsValue>>, clickedDecl: Option<seq<JsValue>>)
      requires ColumnsFor(config, colArray.items).Ok?
      modifies colArray
      ensures this.config == config && this.tag == tag && this.props == props && col == colArray
      ensures columns == ColumnsFor(config, old(colArray.items)).value && colArray.items == columns
      ensures columnVisibility == VisibilityFor(columns, visibleDecl)
      ensures rowSelection == InitialSelection(config, selectedDecl)
      ensures columnOrder == OrderOf(columns)
      ensures clickedRows == clickedDecl.GetOr([])
      ensures permissions == INITIAL_PERMISSIONS && filterModel == NoFilter && expanded == ByRow(map[])
      ensures pagination == PaginationState(ZeroBasedPageIndex(pageIndex), pageSize)
    {
      this.config := config;
      this.tag := tag;
      this.props := props;
      col := colArray;
      pagination := PaginationState(ZeroBasedPageIndex(pageIndex), pageSize);
      clickedRows := clickedDecl.GetOr([]);
      filterModel := NoFilter;
      permissions := INITIAL_PERMISSIONS;
      expanded := ByRow(map[]);
      new;
      // The visibility initialiser and the column memo both call `getColumns`.
      ghost var given := colArray.items;
      var first := colArray.GetColumns(config);
      assert first == ColumnsFor(config, given);
      GetColumnsIdempotent(config, given);
      var second := colArray.GetColumns(config);
      assert second == first;
      var cols := second.value;
      var visibility := SetVisibleAct(cols, visibleDecl);
      var selection := SetSelectionAct(config, selectedDecl);
      columns, columnVisibility, rowSelection, columnOrder := cols, visibility, selection, OrderOf(cols);
    }

    /** A new `col` prop, context config or visibility declaration: the column memo runs
        `getColumns` under the new config and visibility is reset. `getColumns` hands back the
        caller's array itself, so the memo's value only changes, and the column order is only
        reset, when the array is a new one. With the same array a dragged order survives, and so
        does an order taken before the config turned the selection or expand mode on, which then
        lacks the sentinel's id although the columns now start with it. */
    method OnColumnsChange(newConfig: Config, newCol: ColumnArray, visibleDecl: Option<seq<JsValue>>) returns (r: Result<seq<Column>, string>)
      modifies this`config, this`col, this`columns, this`columnVisibility, this`columnOrder, newCol
      ensures r == ColumnsFor(newConfig, old(newCol.items))
      ensures r.Ok? ==>
        config == newConfig && col == newCol && columns == r.value && newCol.items == r.value &&
        columnVisibility == VisibilityFor(r.value, visibleDecl)
      ensures r.Ok? && newCol != old(col) ==> columnOrder == OrderOf(r.value)
      ensures newCol == old(col) ==> columnOrder == old(columnOrder)
      ensures r.Err? ==>
        config == old(config) && col == old(col) && columns == old(columns) && newCol.items == old(newCol.items) &&
        columnVisibility == old(columnVisibility) && columnOrder == old(columnOrder)
    {
      var isNewArray := newCol != col;
      r := newCol.GetColumns(newConfig);
      if r.Ok? {
        config := newConfig;
        col := newCol;
        columns := r.value;
        columnVisibility := SetVisibleAct(columns, visibleDecl);
        if isNewArray {
          columnOrder := OrderOf(columns);
        }
      }
    }

    /** A new `selectedRowKeyList` or a context config with a new `rowKey`: the selection is
        rebuilt from the declaration under the new config. */
    method ResetSelection(newConfig: Config, selectedDecl: Option<seq<JsValue>>)
      modifies this`config, this`rowSelection
      ensures config == newConfig
      ensures rowSelection == InitialSelection(newConfig, selectedDecl)
    {
      config := newConfig;
      rowSelection := SetSelectionAct(config, selectedDecl);
    }

    /** A new `collapse` prop. */
    method OnCollapseChange(collapse: Option<bool>)
      modifies this`expanded
      ensures expanded == ExpandedAfterCollapse(old(expanded), collapse)
    {
      if collapse.Some? {
        if collapse.value {
          expanded := AllExpanded;
        } else {
          expanded := ByRow(map[]);
        }
      }
    }

    /** New `pageIndex`/`pageSize` props are pushed into the table. */
    method SyncPageFromProps(pageIndex: int, pageSize: int)
      modifies this`pagination
      ensures pagination == PaginationState(ZeroBasedPageIndex(pageIndex), pageSize)
      ensures pageIndex >= 1 ==> ReportedPage(pagination) == PageInfo(pageIndex, pageSize)
    {
      pagination := PaginationState(ZeroBasedPageIndex(pageIndex), pageSize);
      PageReportRoundTrip(pageIndex, pageSize);
    }

    /** The footer pager reports a one-based page. */
    method OnPagerChange(page: int, pageSize: int)
      requires page >= 1
      modifies this`pagination
      ensures pagination == PaginationState(page - 1, pageSize)
      ensures ReportedPage(pagination) == PageInfo(page, pageSize)
    {
      pagination := PaginationState(page - 1, pageSize);
    }

    /** The paging effect: `onPageChange` with the one-based page, called without a guard. */
    method ReportPage() returns (r: Result<seq<SlotCall>, string>)
      ensures r.Ok? <==> PageChange in props
      ensures r.Ok? ==> r.value == [SlotCall(PageChange, PageInfo(pagination.pageIndex + 1, pagination.pageSize))]
    {
      r := DirectCall(props, PageChange, ReportedPage(pagination));
    }

    /** The selection effect: `onSelectChange` with the engine's selected rows, called without a
        guard. */
    method ReportSelection(selectedRows: seq<JsValue>) returns (r: Result<seq<SlotCall>, string>)
      ensures r.Ok? <==> SelectChange in props
      ensures r.Ok? ==> r.value == [SlotCall(SelectChange, Rows(selectedRows))]
    {
      r := DirectCall(props, SelectChange, Rows(selectedRows));
    }

    /** The visibility effect, with the guard (see `VisibleColumnsCallAsWritten` for the
        unguarded call): the engine's visible flat column ids without the sentinel. */
    method ReportVisibleColumns(visibleFlatIds: seq<string>) returns (calls: seq<SlotCall>)
      ensures calls == VisibleColumnsCall(props, visibleFlatIds)
      ensures forall c :: c in calls ==> c.prop == ColVisibleChange && SELECT_KEY !in c.payload.ids
    {
      calls := GuardedCall(props, ColVisibleChange, ColumnIds(VisibleColumnReport(visibleFlatIds)));
    }

    /** A resize ends on header `headerId`: `onHeaderResizeEnd`, then `onTableSync` only while
        sync is on. */
    method OnHandleResizeOver(headerId: string, report: seq<ColumnReport>) returns (calls: seq<SlotCall>)
      ensures calls == GuardedCall(props, HeaderResizeEnd, ColumnProp(headerId)) +
        (if SyncEnabled(permissions) then GuardedCall(props, TableSync, ColInfo(SyncPayload(report, tag))) else [])
      ensures (exists c :: c in calls && c.prop == TableSync) <==> SyncEnabled(permissions) && TableSync in props
    {
      calls := GuardedCall(props, HeaderResizeEnd, ColumnProp(headerId));
      if SyncEnabled(permissions) {
        calls := calls + GuardedCall(props, TableSync, ColInfo(SyncPayload(report, tag)));
      }
    }

    /** The sync switch in the tool bar. */
    method ToggleSyncPermission()
      modifies this`permissions
      ensures permissions == ToggleSync(old(permissions))
      ensures SyncEnabled(permissions) <==> !SyncEnabled(old(permissions))
    {
      permissions := permissions ^ SYNC;
    }

    /** A column is shown or hidden from the column popup: the table is synced whatever the
        permissions say. */
    method OnPopupToggleVisibility(id: string, checked: bool, report: seq<ColumnReport>) returns (calls: seq<SlotCall>)
      modifies this`columnVisibility
      ensures columnVisibility == old(columnVisibility)[id := checked]
      ensures calls == GuardedCall(props, TableSync, ColInfo(SyncPayload(report, tag)))
    {
      columnVisibility := columnVisibility[id := checked];
      calls := GuardedCall(props, TableSync, ColInfo(SyncPayload(report, tag)));
    }

    /** A header drag ends: when the guard holds, the dragged column moves to the drop position,
        `onHeaderMoveEnd` reports it, and `onTableSync` follows while sync is on; otherwise
        nothing happens. */
    method HandleDragEnd(active: Option<string>, over: Option<string>, report: seq<ColumnReport>) returns (calls: seq<SlotCall>)
      requires DragAccepted(active, over) ==> |columnOrder| > 0
      modifies this`columnOrder
      ensures DragAccepted(active, over) ==>
        columnOrder == DraggedOrder(old(columnOrder), active.value, over.value) &&
        calls == GuardedCall(props, HeaderMoveEnd, ColumnProp(active.value)) +
          (if SyncEnabled(permissions) then GuardedCall(props, TableSync, ColInfo(SyncPayload(report, tag))) else [])
      ensures !DragAccepted(active, over) ==> columnOrder == old(columnOrder) && calls == []
      ensures multiset(columnOrder) == multiset(old(columnOrder))
      ensures old(|columnOrder| > 0 && columnOrder[0] == SELECT_KEY) && active != Some(SELECT_KEY) ==>
        columnOrder[0] == SELECT_KEY
    {
      calls := [];
      if active.Some? && over.Some? && active.value != over.value && over.value != SELECT_KEY {
        var oldIndex := IndexOf(columnOrder, active.value);
        var newIndex := IndexOf(columnOrder, over.value);
        ArrayMovePermutes(columnOrder, oldIndex, newIndex);
        if columnOrder[0] == SELECT_KEY && active.value != SELECT_KEY {
          SentinelStaysFirst(columnOrder, active.value, over.value);
        }
        columnOrder := ArrayMove(columnOrder, oldIndex, newIndex);
        calls := GuardedCall(props, HeaderMoveEnd, ColumnProp(active.value));
        if SyncEnabled(permissions) {
          calls := calls + GuardedCall(props, TableSync, ColInfo(SyncPayload(report, tag)));
        }
      }
    }

    /** The number the footer shows next to the pager. */
    function ShownTotal(total: Option<int>, rowCount: nat): (r: int)
      reads this
      ensures filterModel == SelectedOnly ==> r == |rowSelection.Keys|
      ensures filterModel == NoFilter && TotalGiven(total) ==> r == total.value
      ensures filterModel == NoFilter && !TotalGiven(total) ==> r == rowCount
    {
      FooterTotal(total, rowCount, filterModel, rowSelection)
    }

    /** "Show all rows" in the tool bar. */
    method OnHandleQuitFilter()
      modifies this`filterModel
      ensures filterModel == NoFilter
    {
      filterModel := NoFilter;
    }

    /** "Clear selection" in the tool bar; the filter stays as it is. */
    method OnHandleClearSelection()
      modifies this`rowSelection
      ensures rowSelection == map[]
    {
      rowSelection := map[];
    }

    /** "Show selected rows" in the tool bar: switches from all rows to selected rows only. */
    method OnFilterSelectionRows()
      modifies this`filterModel
      ensures old(filterModel) == NoFilter ==> filterModel == SelectedOnly
      ensures old(filterModel) != NoFilter ==> filterModel == old(filterModel)
    {
      if filterModel == NoFilter {
        filterModel := SelectedOnly;
      }
    }

    /** A click on a row: without a `rowKey` the slot throws; otherwise a truthy key toggles the
        highlight, and `onRowClick` gets the row. */
    method OnHandleClickRow(row: JsValue) returns (r: Result<seq<SlotCall>, string>)
      modifies this`clickedRows
      ensures !HasRowKey(config) ==> r == Err("rowKey 必须存在") && clickedRows == old(clickedRows)
      ensures HasRowKey(config) ==> r == Ok(GuardedCall(props, RowClick, Row(row)))
      ensures HasRowKey(config) && Truthy(Get(row, config.rowKey.value)) ==>
        clickedRows == ClickedAfter(old(clickedRows), Get(row, config.rowKey.value))
      ensures HasRowKey(config) && !Truthy(Get(row, config.rowKey.value)) ==> clickedRows == old(clickedRows)
    {
      if config.rowKey.None? || config.rowKey.value == "" {
        return Err("rowKey 必须存在");
      }
      var cur := Get(row, config.rowKey.value);
      if Truthy(cur) {
        clickedRows := ClickedAfter(clickedRows, cur);
      }
      r := Ok(GuardedCall(props, RowClick, Row(row)));
    }
  }
}
