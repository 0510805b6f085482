/** `useMergeCol.tsx`: joins persisted column records with the live column definitions by id. */
module MergeCol {
  import opened Wrappers
  import opened TableTypes
  import TableSlot

  /** A persisted column record (`ITargetCol`). `field` is read as a map key and its type is
      checked at run time, so it may be absent. */
  datatype TargetCol = TargetCol(field: Option<string>, flex: int, id: int, moduleKey: Option<string>, visible: bool)

  function FieldOf(t: TargetCol): Option<string> { t.field }

  function IdOf(c: Column): Option<string> { c.id }

  /** The map `arrayToMap` builds: items are written in input order, so a later item overwrites an
      earlier one with the same key. */
  function ToMap<A, K(==)>(items: seq<A>, keyOf: A -> K): map<K, A>
    decreases |items|
  {
    if |items| == 0 then map[]
    else ToMap(items[..|items| - 1], keyOf)[keyOf(items[|items| - 1]) := items[|items| - 1]]
  }

  /** The index of the last item with key `k`, or -1 when there is none. */
  function LastIndexOf<A, K(==)>(items: seq<A>, keyOf: A -> K, k: K): (r: int)
    ensures -1 <= r < |items|
    ensures r >= 0 ==> keyOf(items[r]) == k && forall j :: r < j < |items| ==> keyOf(items[j]) != k
    ensures r == -1 ==> forall j :: 0 <= j < |items| ==> keyOf(items[j]) != k
    decreases |items|
  {
    if |items| == 0 then -1
    else if keyOf(items[|items| - 1]) == k then |items| - 1
    else LastIndexOf(items[..|items| - 1], keyOf, k)
  }

  /** The map of `arrayToMap` has an entry exactly for the keys that occur, and holds the last item
      with that key. */
  lemma {:induction false} ToMapLast<A, K>(items: seq<A>, keyOf: A -> K, k: K)
    ensures k in ToMap(items, keyOf) <==> LastIndexOf(items, keyOf, k) >= 0
    ensures k in ToMap(items, keyOf) ==> ToMap(items, keyOf)[k] == items[LastIndexOf(items, keyOf, k)]
    decreases |items|
  {
    if |items| > 0 {
      ToMapLast(items[..|items| - 1], keyOf, k);
    }
  }

  /** `arrayToMap(p1, p2)`: one key per item, in input order and with duplicates kept, and the map
      from each key to (a copy of) its last item. */
  method ArrayToMap<A, K(==)>(items: seq<A>, keyOf: A -> K) returns (m: map<K, A>, order: seq<K>)
    ensures |order| == |items| && forall i :: 0 <= i < |items| ==> order[i] == keyOf(items[i])
    ensures m == ToMap(items, keyOf)
  {
    m, order := map[], [];
    var i := 0;
    while i < |items|
      invariant 0 <= i <= |items|
      invariant |order| == i && forall j :: 0 <= j < i ==> order[j] == keyOf(items[j])
      invariant m == ToMap(items[..i], keyOf)
    {
      assert items[..i + 1][..i] == items[..i];
      m := m[keyOf(items[i]) := items[i]];
      order := order + [keyOf(items[i])];
      i := i + 1;
    }
    assert items[..i] == items;
  }

  /** Target record `i` is emitted: its field is a string and some live column has that id. */
  predicate Emits(target: seq<TargetCol>, source: seq<Column>, i: nat)
    requires i < |target|
  {
    target[i].field.Some? && LastIndexOf(source, IdOf, target[i].field) >= 0
  }

  /** The column emitted for target record `i`: the last live column with that id, with its size
      replaced by the `flex` of the last target record with that field. */
  function Merge1(target: seq<TargetCol>, source: seq<Column>, i: nat): (c: Column)
    requires i < |target| && Emits(target, source, i)
    ensures c.id == target[i].field
    ensures c.size == Some(target[LastIndexOf(target, FieldOf, target[i].field)].flex)
    ensures var s := source[LastIndexOf(source, IdOf, target[i].field)];
            s.id == c.id && s.accessorKey == c.accessorKey && s.template == c.template
  {
    var k := target[i].field;
    source[LastIndexOf(source, IdOf, k)].(size := Some(target[LastIndexOf(target, FieldOf, k)].flex))
  }

  /** The indices, in increasing order, of the target records among the first `n` that are emitted. */
  function Origins(target: seq<TargetCol>, source: seq<Column>, n: nat): (r: seq<nat>)
    requires n <= |target|
    ensures |r| <= n
    ensures forall j :: 0 <= j < |r| ==> r[j] < n && Emits(target, source, r[j])
    ensures forall j1, j2 :: 0 <= j1 < j2 < |r| ==> r[j1] < r[j2]
    ensures forall i :: 0 <= i < n && Emits(target, source, i) ==> i in r
  {
    if n == 0 then []
    else
      var rest := Origins(target, source, n - 1);
      if Emits(target, source, n - 1) then rest + [n - 1] else rest
  }

  /** The merged columns of the first `n` target records: the `j`-th is the column emitted for the
      `j`-th emitted target record, so the output follows the target order. */
  function Merged(target: seq<TargetCol>, source: seq<Column>, n: nat): (r: seq<Column>)
    requires n <= |target|
    ensures |r| == |Origins(target, source, n)|
    ensures forall j :: 0 <= j < |r| ==> r[j] == Merge1(target, source, Origins(target, source, n)[j])
  {
    if n == 0 then []
    else
      var rest := Merged(target, source, n - 1);
      if Emits(target, source, n - 1) then rest + [Merge1(target, source, n - 1)] else rest
  }

  /** The field names of the emitted target records among the first `n`. */
  function EmittedNames(target: seq<TargetCol>, source: seq<Column>, n: nat): set<string>
    requires n <= |target|
  {
    set i | 0 <= i < n && Emits(target, source, i) :: target[i].field.value
  }

  /** The visibility map of the first `n` target records: an entry for each emitted field, holding
      `visible` of the last target record with that field. */
  function Visibility(target: seq<TargetCol>, source: seq<Column>, n: nat): (v: map<string, bool>)
    requires n <= |target|
  {
    map s | s in EmittedNames(target, source, n) :: target[LastIndexOf(target, FieldOf, Some(s))].visible
  }

  /** On target record `i`, the maps of `arrayToMap` answer as the reference definitions do. */
  lemma MergeStepMaps(target: seq<TargetCol>, source: seq<Column>, i: nat)
    requires i < |target|
    ensures var id, sm, tm := target[i].field, ToMap(source, IdOf), ToMap(target, FieldOf);
      && ((id in sm && id in tm && id.Some?) <==> Emits(target, source, i))
      && (Emits(target, source, i) ==>
            && sm[id].(size := Some(tm[id].flex)) == Merge1(target, source, i)
            && tm[id] == target[LastIndexOf(target, FieldOf, id)])
  {
    ToMapLast(source, IdOf, target[i].field);
    ToMapLast(target, FieldOf, target[i].field);
  }

  lemma VisibilityStep(target: seq<TargetCol>, source: seq<Column>, i: nat)
    requires i < |target|
    ensures Emits(target, source, i) ==>
      Visibility(target, source, i + 1) ==
      Visibility(target, source, i)[target[i].field.value := target[LastIndexOf(target, FieldOf, target[i].field)].visible]
    ensures !Emits(target, source, i) ==> Visibility(target, source, i + 1) == Visibility(target, source, i)
  {
    var id := target[i].field;
    assert EmittedNames(target, source, i + 1) ==
      EmittedNames(target, source, i) + (if Emits(target, source, i) then {id.value} else {});
  }

  /** The merge body of `useMergeCol`: walks the target keys in order and, for each key that is a
      string and the id of some live column, records its visibility and pushes the live column with
      the persisted width. */
  method MergeColumns(target: seq<TargetCol>, source: seq<Column>)
    returns (col: seq<Column>, visibilityList: map<string, bool>)
    ensures col == Merged(target, source, |target|)
    ensures visibilityList == Visibility(target, source, |target|)
  {
    var sourceMap, _ := ArrayToMap(source, IdOf);
    var targetMap, order := ArrayToMap(target, FieldOf);
    visibilityList, col := map[], [];
    var i := 0;
    while i < |order|
      invariant 0 <= i <= |target|
      invariant col == Merged(target, source, i)
      invariant visibilityList == Visibility(target, source, i)
    {
      var id := order[i];
      MergeStepMaps(target, source, i);
      VisibilityStep(target, source, i);
      if id in sourceMap {
        if id in targetMap && id.Some? {
          visibilityList := visibilityList[id.value := targetMap[id].visible];
          col := col + [sourceMap[id].(size := Some(targetMap[id].flex))];
        }
      }
      i := i + 1;
    }
  }

  /** Every merged column comes from a target record whose field is a string and is the id of a
      live column: live columns the target does not list are dropped, and there are at most as
      many merged columns as target records. */
  lemma MergedColumnsComeFromBoth(target: seq<TargetCol>, source: seq<Column>)
    ensures var col := Merged(target, source, |target|);
      && |col| <= |target|
      && forall c :: c in col ==>
           && c.id.Some?
           && (exists i :: 0 <= i < |target| && target[i].field == c.id)
           && (exists j :: 0 <= j < |source| && source[j].id == c.id)
  {
    var col := Merged(target, source, |target|);
    var o := Origins(target, source, |target|);
    forall c | c in col
      ensures c.id.Some?
      ensures exists i :: 0 <= i < |target| && target[i].field == c.id
      ensures exists j :: 0 <= j < |source| && source[j].id == c.id
    {
      var j :| 0 <= j < |col| && col[j] == c;
      assert c == Merge1(target, source, o[j]);
      assert target[o[j]].field == c.id;
      assert source[LastIndexOf(source, IdOf, c.id)].id == c.id;
    }
  }

  /** The visibility map has an entry exactly for the ids of the merged columns. */
  lemma {:induction false} VisibilityCoversMerged(target: seq<TargetCol>, source: seq<Column>)
    ensures var col, vis := Merged(target, source, |target|), Visibility(target, source, |target|);
      forall s :: s in vis <==> Some(s) in (set c | c in col :: c.id)
  {
    var col, vis := Merged(target, source, |target|), Visibility(target, source, |target|);
    var o := Origins(target, source, |target|);
    forall s ensures s in vis <==> Some(s) in (set c | c in col :: c.id) {
      if s in vis {
        var i :| 0 <= i < |target| && Emits(target, source, i) && target[i].field.value == s;
        var j :| 0 <= j < |o| && o[j] == i;
        assert col[j].id == Some(s);
      }
      if Some(s) in (set c | c in col :: c.id) {
        var c :| c in col && c.id == Some(s);
        var j :| 0 <= j < |col| && col[j] == c;
        assert Merge1(target, source, o[j]).id == target[o[j]].field;
        assert s in EmittedNames(target, source, |target|);
      }
    }
  }

  /** A field listed twice in the target is emitted once per occurrence, and every copy uses the
      width of its last occurrence. */
  lemma DuplicateFieldsEmittedPerOccurrence(target: seq<TargetCol>, source: seq<Column>, i1: nat, i2: nat)
    requires i1 < i2 < |target| && target[i1].field == target[i2].field && Emits(target, source, i1)
    ensures var o := Origins(target, source, |target|);
      && i1 in o && i2 in o
      && Merge1(target, source, i1) == Merge1(target, source, i2)
      && Merge1(target, source, i1).size == Some(target[LastIndexOf(target, FieldOf, target[i1].field)].flex)
  {
  }

  /** An empty target list merges to no columns and an empty visibility map. */
  lemma EmptyTargetMergesToNothing(source: seq<Column>)
    ensures Merged([], source, 0) == [] && Visibility([], source, 0) == map[]
  {
  }

  /** Persisted `[{field: "age", visible: false, flex: 80}]` merged with live columns `age` and
      `status` gives the single column `age` with size 80, and the visibility map `{age: false}`. */
  lemma AgeStatusExample(header: Template)
    ensures var age, status := Column(Some("age"), None, None, header), Column(Some("status"), None, None, header);
      var target := [TargetCol(Some("age"), 80, 1, None, false)];
      && Merged(target, [age, status], 1) == [age.(size := Some(80))]
      && Visibility(target, [age, status], 1) == map["age" := false]
  {
    var age, status := Column(Some("age"), None, None, header), Column(Some("status"), None, None, header);
    var target := [TargetCol(Some("age"), 80, 1, None, false)];
    assert LastIndexOf([age, status], IdOf, Some("age")) == 0;
    assert LastIndexOf(target, FieldOf, Some("age")) == 0;
    assert Emits(target, [age, status], 0);
    assert EmittedNames(target, [age, status], 1) == {"age"};
  }

  /** The record the persistence side stores for one entry of the column-sync payload. */
  function AsTarget(e: SyncEntry, recordId: int): (t: TargetCol)
    ensures t.field == e.field && t.flex == e.flex && t.visible == e.visible && t.moduleKey == e.moduleKey
  {
    TargetCol(e.field, e.flex, recordId, e.moduleKey, e.visible)
  }

  function AsTargets(entries: seq<SyncEntry>): (ts: seq<TargetCol>)
    ensures |ts| == |entries|
    ensures forall i :: 0 <= i < |ts| ==> ts[i] == AsTarget(entries[i], i)
  {
    seq(|entries|, i requires 0 <= i < |entries| => AsTarget(entries[i], i))
  }

  predicate DistinctIds(cols: seq<Column>) {
    forall i, j :: 0 <= i < j < |cols| ==> cols[i].id != cols[j].id
  }

  lemma {:induction false} LastIndexOfDistinct<A, K>(items: seq<A>, keyOf: A -> K, i: nat)
    requires i < |items|
    requires forall a, b :: 0 <= a < b < |items| ==> keyOf(items[a]) != keyOf(items[b])
    ensures LastIndexOf(items, keyOf, keyOf(items[i])) == i
  {
  }

  lemma {:induction false} OriginsAll(target: seq<TargetCol>, source: seq<Column>, n: nat)
    requires n <= |target|
    requires forall i :: 0 <= i < n ==> Emits(target, source, i)
    ensures Origins(target, source, n) == seq(n, i requires 0 <= i < n => i)
  {
    if n > 0 {
      OriginsAll(target, source, n - 1);
    }
  }

  /** Round trip with the column-sync payload: when the live columns have distinct string ids and
      the persisted records are the payload entries for exactly those columns, in order, merging
      gives back the live columns, each with its reported width, and the reported visibility. */
  lemma PersistedPayloadRoundTrip(cols: seq<Column>, entries: seq<SyncEntry>)
    requires |entries| == |cols| && DistinctIds(cols)
    requires forall i :: 0 <= i < |cols| ==> cols[i].id.Some? && entries[i].field == cols[i].id
    ensures var target := AsTargets(entries);
      && Merged(target, cols, |target|) == seq(|cols|, i requires 0 <= i < |cols| => cols[i].(size := Some(entries[i].flex)))
      && forall i :: 0 <= i < |cols| ==>
           cols[i].id.value in Visibility(target, cols, |target|) &&
           Visibility(target, cols, |target|)[cols[i].id.value] == entries[i].visible
  {
    var target := AsTargets(entries);
    var n := |cols|;
    forall i | 0 <= i < n
      ensures LastIndexOf(cols, IdOf, cols[i].id) == i
      ensures LastIndexOf(target, FieldOf, target[i].field) == i
      ensures Emits(target, cols, i)
    {
      LastIndexOfDistinct(cols, IdOf, i);
      LastIndexOfDistinct(target, FieldOf, i);
    }
    OriginsAll(target, cols, n);
    var merged := Merged(target, cols, n);
    forall i | 0 <= i < n ensures merged[i] == cols[i].(size := Some(entries[i].flex)) {
      assert Origins(target, cols, n)[i] == i;
    }
    forall i | 0 <= i < n
      ensures cols[i].id.value in Visibility(target, cols, n)
      ensures Visibility(target, cols, n)[cols[i].id.value] == entries[i].visible
    {
      assert cols[i].id.value in EmittedNames(target, cols, n);
    }
  }

  /** What the slot reports through `onTableSync`, once persisted, merges back into the live
      columns it was reported for: each keeps its definition, takes the reported width, and gets
      the reported visibility. */
  lemma SyncedColumnsMergeBack(cols: seq<Column>, report: seq<TableSlot.ColumnReport>, tag: Option<string>)
    requires |report| == |cols| && DistinctIds(cols)
    requires forall i :: 0 <= i < |cols| ==> cols[i].id == Some(report[i].id)
    ensures var target := AsTargets(TableSlot.SyncPayload(report, tag));
      && Merged(target, cols, |target|) == seq(|cols|, i requires 0 <= i < |cols| => cols[i].(size := Some(report[i].size)))
      && forall i :: 0 <= i < |cols| ==>
           report[i].id in Visibility(target, cols, |target|) &&
           Visibility(target, cols, |target|)[report[i].id] == report[i].visible
  {
    var entries := TableSlot.SyncPayload(report, tag);
    PersistedPayloadRoundTrip(cols, entries);
  }
}
