/** The shapes of `type.ts` that the state code uses, and the event names of `constant.ts`. */
module TableTypes {
  import opened Wrappers
  import opened JsValues

  /** The table configuration (`IATableConfig`) as far as the state code reads it. An absent
      `selectModel`/`expand` and `false` behave alike (only their truthiness is read), so they are
      booleans; `rowKey` keeps the difference between absent and present. */
  datatype Config = Config(selectModel: bool, expand: bool, rowKey: Option<string>, subRowsKey: Option<string>)

  /** The empty configuration `{}`. */
  const EmptyConfig := Config(false, false, None, None)

  /** `config.rowKey` is truthy: present and not the empty string. */
  predicate HasRowKey(c: Config) {
    c.rowKey.Some? && c.rowKey.value != ""
  }

  /** What a column definition carries besides its id, accessor key and size: the header, cell and
      footer renderers, which the state code never inspects. */
  datatype Template = UserTemplate(name: string) | SelectionTemplate

  /** A column definition (`ColumnDef`): `id` and `accessorKey` may be absent, `size` is optional. */
  datatype Column = Column(id: Option<string>, accessorKey: Option<string>, size: Option<int>, template: Template)

  /** One entry of the column-sync payload (`IColInfo`): `{field, moduleKey, visible, flex}`. */
  datatype SyncEntry = SyncEntry(field: Option<string>, moduleKey: Option<string>, visible: bool, flex: int)

  /** The names of the table's events: the fields of `IEffect` and the entries of `CALLBACK_NAME`. */
  datatype EventName =
    | RefreshCallback | HeaderResizeStart | HeaderResizeEnd | HeaderMoveStart | HeaderMoveEnd
    | SelectChange | RowClick | PageChange | TableSync | DescSort | HandleSelect | AscSort
    | ColVisibleChange | SetUpdate

  /** The argument an event handler is called with. */
  datatype Payload =
    | NoArgs
    | Rows(rows: seq<JsValue>)
    | ColumnProp(prop: string)
    | PageInfo(pageIndex: int, pageSize: int)
    | ColInfo(entries: seq<SyncEntry>)
    | Row(row: JsValue)
    | ColumnIds(ids: seq<string>)

  /** A handler function supplied by the table's owner, known only by its identity. */
  datatype Handler = Handler(id: nat)

  /** A call of a registered handler with its argument. */
  datatype Invocation = Invocation(handler: Handler, payload: Payload)

  /** A rendered node (the custom pagination element), known only by its identity. */
  datatype Node = Node(id: nat)
}
