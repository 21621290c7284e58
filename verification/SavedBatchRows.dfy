/** Children of a Saved Batch as numbered rows of two tables, and the loops that read the joined
    rows back. */
module SavedBatchRows {
  import opened Common
  import P = Parameters

  /** Either a value or a SavedBatchStoreError. */
  datatype Result<+T> = Ok(value: T) | StoreError

  // ---------- bindings with numbered values ----------

  datatype Cell<V> = Cell(position: int, value: V)

  /** A binding row with the value rows that belong to it. */
  datatype Group<H, V> = Group(position: int, head: H, cells: seq<Cell<V>>)

  /** One row of `binding LEFT JOIN value`. */
  datatype Joined<H, V> = Joined(position: int, head: H, cell: Option<Cell<V>>)

  function GroupRows<H, V>(g: Group<H, V>): (rows: seq<Joined<H, V>>)
    ensures |rows| == Width(g)
  {
    if g.cells == [] then [Joined(g.position, g.head, None)]
    else seq(|g.cells|, k requires 0 <= k < |g.cells| => Joined(g.position, g.head, Some(g.cells[k])))
  }

  function Width<H, V>(g: Group<H, V>): nat { if g.cells == [] then 1 else |g.cells| }

  /** The joined rows in order of binding position and value position. */
  function Rows<H, V>(groups: seq<Group<H, V>>): seq<Joined<H, V>> {
    if groups == [] then [] else Rows(groups[..|groups| - 1]) + GroupRows(groups[|groups| - 1])
  }

  /** The primary keys: positions go up, and within a binding value positions go up. */
  ghost predicate Ascending<H, V>(groups: seq<Group<H, V>>) {
    && (forall i, j :: 0 <= i < j < |groups| ==> groups[i].position < groups[j].position)
    && (forall i :: 0 <= i < |groups| ==> AscendingCells(groups[i].cells))
  }

  ghost predicate AscendingCells<V>(cells: seq<Cell<V>>) {
    forall i, j :: 0 <= i < j < |cells| ==> cells[i].position < cells[j].position
  }

  /** Where the rows of group g begin. */
  ghost function Start<H, V>(groups: seq<Group<H, V>>, g: nat): nat
    requires g <= |groups|
  {
    if g == 0 then 0 else Start(groups, g - 1) + Width(groups[g - 1])
  }

  lemma {:induction false} RowsLength<H, V>(groups: seq<Group<H, V>>)
    ensures |Rows(groups)| == Start(groups, |groups|)
  {
    if groups != [] {
      var init := groups[..|groups| - 1];
      RowsLength(init);
      StartPrefix(groups, |init|, |init|);
    }
  }

  lemma {:induction false} RowsPrefix<H, V>(groups: seq<Group<H, V>>, g: nat)
    requires g <= |groups|
    ensures Rows(groups[..g]) <= Rows(groups)
  {
    if g == |groups| {
      assert groups[..g] == groups;
    } else {
      var init := groups[..|groups| - 1];
      RowsPrefix(init, g);
      assert init[..g] == groups[..g];
    }
  }

  lemma {:induction false} StartPrefix<H, V>(groups: seq<Group<H, V>>, n: nat, g: nat)
    requires g <= n <= |groups|
    ensures Start(groups[..n], g) == Start(groups, g)
  {
    if g > 0 { StartPrefix(groups, n, g - 1); }
  }

  /** The k-th row of group g, and the fact that nothing comes after the last group. */
  lemma RowAt<H, V>(groups: seq<Group<H, V>>, g: nat, k: nat)
    requires g < |groups| && k < Width(groups[g])
    ensures Start(groups, g) + k < |Rows(groups)|
    ensures Rows(groups)[Start(groups, g) + k] == GroupRows(groups[g])[k]
  {
    var upto := groups[..g + 1];
    assert upto[..g] == groups[..g] && Rows(upto) == Rows(groups[..g]) + GroupRows(groups[g]);
    RowsLength(groups[..g]);
    StartPrefix(groups, g, g);
    RowsPrefix(groups, g + 1);
  }

  // ---------- the decoding loop ----------

  /** The values of a binding: numbered 1, 2, ... and each readable. */
  function ReadCells<V, B>(cells: seq<Cell<V>>, readValue: V -> Result<B>): Result<seq<B>> {
    if cells == [] then Ok([])
    else
      match ReadCells(cells[..|cells| - 1], readValue)
      case StoreError => StoreError
      case Ok(values) =>
        if cells[|cells| - 1].position != |cells| then StoreError
        else
          match readValue(cells[|cells| - 1].value)
          case StoreError => StoreError
          case Ok(value) => Ok(values + [value])
  }

  function ReadGroup<H, V, A, B, C>(g: Group<H, V>, readHead: H -> Result<A>, readValue: V -> Result<B>,
                                    finish: (A, seq<B>) -> Result<C>): Result<C>
  {
    match readHead(g.head)
    case StoreError => StoreError
    case Ok(head) =>
      match ReadCells(g.cells, readValue)
      case StoreError => StoreError
      case Ok(values) => finish(head, values)
  }

  /** All bindings: numbered 1, 2, ... and each readable. */
  function ReadGroups<H, V, A, B, C>(groups: seq<Group<H, V>>, readHead: H -> Result<A>, readValue: V -> Result<B>,
                                     finish: (A, seq<B>) -> Result<C>): Result<seq<C>>
  {
    if groups == [] then Ok([])
    else
      match ReadGroups(groups[..|groups| - 1], readHead, readValue, finish)
      case StoreError => StoreError
      case Ok(earlier) =>
        if groups[|groups| - 1].position != |groups| then StoreError
        else
          match ReadGroup(groups[|groups| - 1], readHead, readValue, finish)
          case StoreError => StoreError
          case Ok(last) => Ok(earlier + [last])
  }

  lemma {:induction false} CellsErrorStays<V, B>(cells: seq<Cell<V>>, readValue: V -> Result<B>, k: nat)
    requires k <= |cells| && ReadCells(cells[..k], readValue) == StoreError
    ensures ReadCells(cells, readValue) == StoreError
  {
    if k == |cells| {
      assert cells[..k] == cells;
    } else {
      assert cells[..|cells| - 1][..k] == cells[..k];
      CellsErrorStays(cells[..|cells| - 1], readValue, k);
    }
  }

  lemma {:induction false} GroupsErrorStays<H, V, A, B, C>(groups: seq<Group<H, V>>, readHead: H -> Result<A>,
                                                           readValue: V -> Result<B>, finish: (A, seq<B>) -> Result<C>,
                                                           k: nat)
    requires k <= |groups| && ReadGroups(groups[..k], readHead, readValue, finish) == StoreError
    ensures ReadGroups(groups, readHead, readValue, finish) == StoreError
  {
    if k == |groups| {
      assert groups[..k] == groups;
    } else {
      assert groups[..|groups| - 1][..k] == groups[..k];
      GroupsErrorStays(groups[..|groups| - 1], readHead, readValue, finish, k);
    }
  }

  /** The next row continues the current group, or opens the next one. */
  lemma NextRow<H, V>(groups: seq<Group<H, V>>, g: nat, k: nat)
    requires Ascending(groups) && g < |groups| && 1 <= k <= Width(groups[g]) && Start(groups, g) + k < |Rows(groups)|
    ensures var row := Rows(groups)[Start(groups, g) + k];
      if k < Width(groups[g])
      then k < |groups[g].cells| && row == Joined(groups[g].position, groups[g].head, Some(groups[g].cells[k]))
      else g + 1 < |groups| && row == GroupRows(groups[g + 1])[0] && row.position != groups[g].position
           && Start(groups, g + 1) == Start(groups, g) + k
  {
    RowsLength(groups);
    if k < Width(groups[g]) {
      RowAt(groups, g, k);
    } else {
      assert Start(groups, g + 1) == Start(groups, g) + k;
      RowAt(groups, g + 1, 0);
    }
  }

  /** Group g is open with k of its rows read. */
  ghost predicate Open<H, V, A, B>(groups: seq<Group<H, V>>, g: nat, k: nat, n: nat, readHead: H -> Result<A>,
                                   readValue: V -> Result<B>, position: int, head: A, values: seq<B>)
  {
    && g < |groups| && 1 <= k <= Width(groups[g]) && n == Start(groups, g) + k
    && position == groups[g].position == g + 1
    && readHead(groups[g].head) == Ok(head)
    && (if groups[g].cells == [] then values == []
        else ReadCells(groups[g].cells[..k], readValue) == Ok(values) && |values| == k)
  }

  lemma {:induction false} ReadCellsLength<V, B>(cells: seq<Cell<V>>, readValue: V -> Result<B>)
    ensures ReadCells(cells, readValue).Ok? ==> |ReadCells(cells, readValue).value| == |cells|
  {
    if cells != [] { ReadCellsLength(cells[..|cells| - 1], readValue); }
  }

  /** A value row either extends the values or is refused. */
  method ReadCell<V, B>(cell: Cell<V>, ghost cells: seq<Cell<V>>, ghost k: nat, readValue: V -> Result<B>,
                        values: seq<B>, expected: int)
    returns (r: Result<seq<B>>)
    requires k < |cells| && cells[k] == cell && ReadCells(cells[..k], readValue) == Ok(values) && expected == k + 1
    ensures r == ReadCells(cells[..k + 1], readValue)
  {
    assert cells[..k + 1][..k] == cells[..k];
    if cell.position != expected {
      return StoreError;
    }
    var value := readValue(cell.value);
    return if value.Ok? then Ok(values + [value.value]) else StoreError;
  }

  lemma ReadNothing<H, V, A, B, C>(groups: seq<Group<H, V>>, readHead: H -> Result<A>, readValue: V -> Result<B>,
                                   finish: (A, seq<B>) -> Result<C>)
    ensures ReadGroups(groups[..0], readHead, readValue, finish) == Ok([])
  {
  }

  lemma FirstRow<H, V>(groups: seq<Group<H, V>>)
    requires Rows(groups) != []
    ensures groups != [] && Rows(groups)[0] == GroupRows(groups[0])[0]
    ensures Start(groups, 0) == 0
  {
    RowAt(groups, 0, 0);
  }

  /** A binding that does not read makes the whole list unreadable. */
  lemma BadGroup<H, V, A, B, C>(groups: seq<Group<H, V>>, g: nat, readHead: H -> Result<A>, readValue: V -> Result<B>,
                                finish: (A, seq<B>) -> Result<C>)
    requires g < |groups|
    requires (groups[g].position != g + 1 || ReadGroup(groups[g], readHead, readValue, finish).StoreError?)
    ensures ReadGroups(groups, readHead, readValue, finish) == StoreError
  {
    var upto := groups[..g + 1];
    assert ReadGroups(upto, readHead, readValue, finish) == StoreError;
    GroupsErrorStays(groups, readHead, readValue, finish, g + 1);
  }

  /** After the last row of a group: its binding is finished and appended. */
  method Close<H, V, A, B, C>(ghost groups: seq<Group<H, V>>, ghost g: nat, readHead: H -> Result<A>,
                              readValue: V -> Result<B>, finish: (A, seq<B>) -> Result<C>, head: A, values: seq<B>,
                              bindings: seq<C>) returns (r: Result<seq<C>>)
    requires g < |groups| && groups[g].position == g + 1 && readHead(groups[g].head) == Ok(head)
    requires ReadCells(groups[g].cells, readValue) == Ok(values)
    requires ReadGroups(groups[..g], readHead, readValue, finish) == Ok(bindings)
    ensures r.Ok? ==> ReadGroups(groups[..g + 1], readHead, readValue, finish) == r
    ensures r.StoreError? ==> ReadGroups(groups, readHead, readValue, finish) == StoreError
  {
    var binding := finish(head, values);
    if binding.StoreError? {
      BadGroup(groups, g, readHead, readValue, finish);
      return StoreError;
    }
    assert groups[..g + 1][..g] == groups[..g];
    return Ok(bindings + [binding.value]);
  }

  lemma BadCell<H, V, A, B, C>(groups: seq<Group<H, V>>, g: nat, k: nat, readHead: H -> Result<A>,
                               readValue: V -> Result<B>, finish: (A, seq<B>) -> Result<C>)
    requires g < |groups| && k <= |groups[g].cells| && ReadCells(groups[g].cells[..k], readValue) == StoreError
    ensures ReadGroups(groups, readHead, readValue, finish) == StoreError
  {
    CellsErrorStays(groups[g].cells, readValue, k);
    BadGroup(groups, g, readHead, readValue, finish);
  }

  lemma HeadProblem<H, V, A, B, C>(groups: seq<Group<H, V>>, g: nat, readHead: H -> Result<A>,
                                   readValue: V -> Result<B>, finish: (A, seq<B>) -> Result<C>)
    requires g < |groups| && (groups[g].position != g + 1 || readHead(groups[g].head).StoreError?)
    ensures ReadGroups(groups, readHead, readValue, finish) == StoreError
  {
    BadGroup(groups, g, readHead, readValue, finish);
  }

  /** At its last row a group has given all its values. */
  lemma FullGroup<H, V, A, B>(groups: seq<Group<H, V>>, g: nat, k: nat, n: nat, readHead: H -> Result<A>,
                              readValue: V -> Result<B>, position: int, head: A, values: seq<B>)
    requires Open(groups, g, k, n, readHead, readValue, position, head, values) && k == Width(groups[g])
    ensures ReadCells(groups[g].cells, readValue) == Ok(values)
  {
    if groups[g].cells != [] { assert groups[g].cells[..k] == groups[g].cells; }
  }

  /** Once the rows run out, so do the groups. */
  lemma LastGroup<H, V>(groups: seq<Group<H, V>>, g: nat, k: nat)
    requires g < |groups| && 1 <= k <= Width(groups[g]) && Start(groups, g) + k == |Rows(groups)|
    ensures g + 1 == |groups| && k == Width(groups[g])
  {
    RowsLength(groups);
    assert Start(groups, g + 1) == Start(groups, g) + Width(groups[g]);
    StartGrows(groups, g + 1, |groups|);
  }

  lemma {:induction false} StartGrows<H, V>(groups: seq<Group<H, V>>, a: nat, b: nat)
    requires a <= b <= |groups|
    ensures Start(groups, a) <= Start(groups, b) && (a < b ==> Start(groups, a) < Start(groups, b))
  {
    if a < b { StartGrows(groups, a, b - 1); }
  }

  lemma NoRows<H, V>(groups: seq<Group<H, V>>)
    requires Rows(groups) == []
    ensures groups == []
  {
  }

  /** The decoding loop: one pass over the joined rows, noticing where a binding begins. */
  method Regroup<H, V, A, B, C>(rows: seq<Joined<H, V>>, ghost groups: seq<Group<H, V>>, readHead: H -> Result<A>,
                                readValue: V -> Result<B>, finish: (A, seq<B>) -> Result<C>) returns (r: Result<seq<C>>)
    requires rows == Rows(groups) && Ascending(groups)
    ensures r == ReadGroups(groups, readHead, readValue, finish)
  {
    hide Rows, ReadGroups, ReadGroup, Ascending, Start;
    var bindings: seq<C> := [];
    var current: Option<int> := None;
    var head: Option<A> := None;
    var values: seq<B> := [];
    var expectedBinding, expectedValue := 1, 1;
    ghost var g, k := 0, 0;
    ReadNothing(groups, readHead, readValue, finish);
    for n := 0 to |rows|
      invariant
        n == 0 ==> current.None? && g == 0 && k == 0 && expectedBinding == 1 && expectedValue == 1 && values == []
      invariant n > 0 ==>
        current.Some? && head.Some? && Open(groups, g, k, n, readHead, readValue, current.value, head.value, values)
      invariant n > 0 ==> expectedBinding == g + 1 && expectedValue == |values| + 1
      invariant ReadGroups(groups[..g], readHead, readValue, finish) == Ok(bindings)
    {
      var row := rows[n];
      if n == 0 { FirstRow(groups); } else { NextRow(groups, g, k); }
      if current.Some? && row.position != current.value {
        FullGroup(groups, g, k, n, readHead, readValue, current.value, head.value, values);
        var closed := Close(groups, g, readHead, readValue, finish, head.value, values, bindings);
        if closed.StoreError? {
          return StoreError;
        }
        bindings, values := closed.value, [];
        expectedBinding, expectedValue := expectedBinding + 1, 1;
        g, k := g + 1, 0;
      }
      if current != Some(row.position) {
        var read := readHead(row.head);
        if row.position != expectedBinding || read.StoreError? {
          HeadProblem(groups, g, readHead, readValue, finish);
          return StoreError;
        }
        current, head := Some(row.position), Some(read.value);
      }
      if row.cell.Some? {
        var more := ReadCell(row.cell.value, groups[g].cells, k, readValue, values, expectedValue);
        if more.StoreError? {
          BadCell(groups, g, k + 1, readHead, readValue, finish);
          return StoreError;
        }
        ReadCellsLength(groups[g].cells[..k + 1], readValue);
        values, expectedValue := more.value, expectedValue + 1;
      }
      k := k + 1;
    }
    if current.Some? {
      LastGroup(groups, g, k);
      FullGroup(groups, g, k, |rows|, readHead, readValue, current.value, head.value, values);
      r := Close(groups, g, readHead, readValue, finish, head.value, values, bindings);
    } else {
      NoRows(groups);
      r := Ok(bindings);
    }
    assert groups[..|groups|] == groups;
  }

  // ---------- reading and writing are inverse ----------

  /** The values of a binding as numbered rows. */
  function Numbered<V>(values: seq<V>): (cells: seq<Cell<V>>)
    ensures |cells| == |values| && forall k :: 0 <= k < |values| ==> cells[k] == Cell(k + 1, values[k])
  {
    seq(|values|, k requires 0 <= k < |values| => Cell(k + 1, values[k]))
  }

  lemma {:induction false} ReadCellsMeaning<V, B>(cells: seq<Cell<V>>, readValue: V -> Result<B>, values: seq<B>)
    ensures ReadCells(cells, readValue) == Ok(values) <==>
      |values| == |cells|
      && forall k :: 0 <= k < |cells| ==> cells[k].position == k + 1 && readValue(cells[k].value) == Ok(values[k])
  {
    if cells != [] {
      var n := |cells| - 1;
      ReadCellsLength(cells, readValue);
      ReadCellsLength(cells[..n], readValue);
      if |values| == |cells| {
        ReadCellsMeaning(cells[..n], readValue, values[..n]);
        assert values == values[..n] + [values[n]];
      }
    }
  }

  lemma {:induction false} ReadGroupsMeaning<H, V, A, B, C>(groups: seq<Group<H, V>>, readHead: H -> Result<A>,
                                                            readValue: V -> Result<B>, finish: (A, seq<B>) -> Result<C>,
                                                            results: seq<C>)
    ensures ReadGroups(groups, readHead, readValue, finish) == Ok(results) <==>
      |results| == |groups| && forall i :: 0 <= i < |groups| ==>
        groups[i].position == i + 1 && ReadGroup(groups[i], readHead, readValue, finish) == Ok(results[i])
  {
    if groups != [] {
      var n := |groups| - 1;
      ReadGroupsLength(groups, readHead, readValue, finish);
      ReadGroupsLength(groups[..n], readHead, readValue, finish);
      if |results| == |groups| {
        ReadGroupsMeaning(groups[..n], readHead, readValue, finish, results[..n]);
        assert results == results[..n] + [results[n]];
      }
    }
  }

  lemma {:induction false} ReadGroupsLength<H, V, A, B, C>(groups: seq<Group<H, V>>, readHead: H -> Result<A>,
                                                           readValue: V -> Result<B>, finish: (A, seq<B>) -> Result<C>)
    ensures ReadGroups(groups, readHead, readValue, finish).Ok? ==>
      |ReadGroups(groups, readHead, readValue, finish).value| == |groups|
  {
    if groups != [] { ReadGroupsLength(groups[..|groups| - 1], readHead, readValue, finish); }
  }

  // ---------- image bindings ----------

  /** The values are asset ids; None leaves the workflow's own image in place. */
  datatype ImageBinding = ImageBinding(key: string, values: seq<Option<string>>)

  function ReadText(s: string): Result<string> { if s == "" then StoreError else Ok(s) }

  function ReadAsset(v: Option<string>): Result<Option<string>> { if v == Some("") then StoreError else Ok(v) }

  function ImageOf(key: string, values: seq<Option<string>>): Result<ImageBinding> { Ok(ImageBinding(key, values)) }

  ghost predicate NoDuplicates<T>(values: seq<T>) { forall i, j :: 0 <= i < j < |values| ==> values[i] != values[j] }

  ghost predicate ImageAlternatives(values: seq<Option<string>>) {
    values != [] && NoDuplicates(values) && (None in values ==> values[0] == None)
  }

  /** A key, and no empty asset id. */
  ghost predicate NamedAssets(b: ImageBinding) {
    b.key != "" && forall k :: 0 <= k < |b.values| ==> b.values[k] != Some("")
  }

  ghost predicate ValidImage(b: ImageBinding) { NamedAssets(b) && ImageAlternatives(b.values) }

  ghost predicate ValidImages(bindings: seq<ImageBinding>) {
    forall i :: 0 <= i < |bindings| ==> ValidImage(bindings[i])
  }

  function ImageGroup(b: ImageBinding, i: nat): Group<string, Option<string>> {
    Group(i + 1, b.key, Numbered(b.values))
  }

  /** The rows of the two image tables, as joined. */
  function ImageGroups(bindings: seq<ImageBinding>): seq<Group<string, Option<string>>> {
    seq(|bindings|, i requires 0 <= i < |bindings| => ImageGroup(bindings[i], i))
  }

  lemma ImageGroupMeaning(g: Group<string, Option<string>>, i: nat, b: ImageBinding)
    ensures g.position == i + 1 && ReadGroup(g, ReadText, ReadAsset, ImageOf) == Ok(b)
      <==> g == ImageGroup(b, i) && NamedAssets(b)
  {
    ReadCellsMeaning(g.cells, ReadAsset, b.values);
    if g.position == i + 1 && ReadGroup(g, ReadText, ReadAsset, ImageOf) == Ok(b) {
      assert g.cells == Numbered(b.values);
    }
  }

  /** _image_bindings_from_rows */
  method ImageBindings(rows: seq<Joined<string, Option<string>>>, ghost groups: seq<Group<string, Option<string>>>)
    returns (r: Result<seq<ImageBinding>>)
    requires rows == Rows(groups) && Ascending(groups)
    ensures forall bindings :: r == Ok(bindings) <==> ValidImages(bindings) && groups == ImageGroups(bindings)
  {
    hide ReadGroups, Rows, Ascending, ValidImages, ImageGroups, ImageAlternatives;
    r := Regroup(rows, groups, ReadText, ReadAsset, ImageOf);
    forall bindings | ValidImages(bindings) && groups == ImageGroups(bindings) ensures r == Ok(bindings) {
      ImagesReadBack(groups, bindings);
    }
    if r.Ok? {
      ImagesRead(groups, r.value);
      var proper := CheckAllImages(r.value);
      if !proper {
        return StoreError;
      }
    }
  }

  /** The three checks over all bindings that were read. */
  method CheckAllImages(bindings: seq<ImageBinding>) returns (proper: bool)
    requires forall i :: 0 <= i < |bindings| ==> NamedAssets(bindings[i])
    ensures proper == ValidImages(bindings)
  {
    for i := 0 to |bindings|
      invariant forall j :: 0 <= j < i ==> ImageAlternatives(bindings[j].values)
    {
      var good := CheckImages(bindings[i].values);
      if !good {
        return false;
      }
    }
    return true;
  }

  /** Nonempty, no duplicates, Base first. */
  method CheckImages(values: seq<Option<string>>) returns (proper: bool)
    ensures proper == ImageAlternatives(values)
  {
    if values == [] || (None in values && values[0] != None) {
      return false;
    }
    var seen: set<Option<string>> := {};
    for i := 0 to |values|
      invariant seen == set j | 0 <= j < i :: values[j]
      invariant NoDuplicates(values[..i])
    {
      if values[i] in seen {
        return false;
      }
      seen := seen + {values[i]};
    }
    assert values[..|values|] == values;
    return true;
  }

  lemma ImagesRead(groups: seq<Group<string, Option<string>>>, bindings: seq<ImageBinding>)
    requires ReadGroups(groups, ReadText, ReadAsset, ImageOf) == Ok(bindings)
    ensures groups == ImageGroups(bindings)
    ensures forall i :: 0 <= i < |bindings| ==> NamedAssets(bindings[i])
  {
    ReadGroupsMeaning(groups, ReadText, ReadAsset, ImageOf, bindings);
    forall i | 0 <= i < |groups|
      ensures groups[i] == ImageGroup(bindings[i], i) && NamedAssets(bindings[i])
    {
      ImageGroupMeaning(groups[i], i, bindings[i]);
    }
  }

  lemma ImagesReadBack(groups: seq<Group<string, Option<string>>>, bindings: seq<ImageBinding>)
    requires groups == ImageGroups(bindings) && ValidImages(bindings)
    ensures ReadGroups(groups, ReadText, ReadAsset, ImageOf) == Ok(bindings)
  {
    forall i | 0 <= i < |groups|
      ensures groups[i].position == i + 1 && ReadGroup(groups[i], ReadText, ReadAsset, ImageOf) == Ok(bindings[i])
    {
      ImageGroupMeaning(groups[i], i, bindings[i]);
    }
    ReadGroupsMeaning(groups, ReadText, ReadAsset, ImageOf, bindings);
  }

  // ---------- parameter intents ----------

  /** The columns of a parameter binding. */
  datatype Head = Head(key: string, mode: string, includeBase: int, start: Option<string>, end: Option<string>,
                       step: Option<string>)

  /** A stored JSON text as decoded: null is Base; lists, objects and malformed text are unusable. */
  datatype Stored = Scalar(v: P.Scalar) | Unusable

  datatype Opened = Opened(key: string, mode: string, includeBase: bool, range: Option<P.Range>)

  function ReadHead(h: Head): Result<Opened> {
    if h.key == "" || h.mode == "" || (h.includeBase != 0 && h.includeBase != 1) then StoreError
    else if h.start.None? && h.end.None? && h.step.None? then Ok(Opened(h.key, h.mode, h.includeBase == 1, None))
    else if h.start.Some? && h.end.Some? && h.step.Some?
    then Ok(Opened(h.key, h.mode, h.includeBase == 1, Some(P.Range(h.start.value, h.end.value, h.step.value))))
    else StoreError
  }

  function ReadScalar(v: Stored): Result<P.Scalar> { if v.Scalar? && P.Safe(v.v) then Ok(v.v) else StoreError }

  /** _persisted_parameter_intent */
  function IntentOf(head: Opened, values: seq<P.Scalar>): Result<P.Intent> {
    if head.mode == "values" then
      if head.includeBase || head.range.Some? then StoreError else Ok(P.ValuesIntent(head.key, values))
    else if head.mode == "range" then
      if head.range.None? || values != [] then StoreError
      else Ok(P.RangeIntent(head.key, head.includeBase, head.range.value))
    else StoreError
  }

  ghost predicate ValidIntent(intent: P.Intent) {
    intent.key != "" && (intent.ValuesIntent? ==> P.ValidAlternatives(intent.values))
  }

  ghost predicate ValidIntents(intents: seq<P.Intent>) { forall i :: 0 <= i < |intents| ==> ValidIntent(intents[i]) }

  function StoredValues(values: seq<P.Scalar>): (stored: seq<Stored>)
    ensures |stored| == |values| && forall k :: 0 <= k < |values| ==> stored[k] == Scalar(values[k])
  {
    seq(|values|, k requires 0 <= k < |values| => Scalar(values[k]))
  }

  function IntentGroup(intent: P.Intent, i: nat): Group<Head, Stored> {
    match intent
    case ValuesIntent(key, values) =>
      Group(i + 1, Head(key, "values", 0, None, None, None), Numbered(StoredValues(values)))
    case RangeIntent(key, includeBase, range) =>
      Group(i + 1,
            Head(key, "range", if includeBase then 1 else 0, Some(range.start), Some(range.end), Some(range.step)), [])
  }

  /** The rows of the two parameter tables, as joined: a range has no value rows. */
  function IntentGroups(intents: seq<P.Intent>): seq<Group<Head, Stored>> {
    seq(|intents|, i requires 0 <= i < |intents| => IntentGroup(intents[i], i))
  }

  ghost predicate SafeValues(intent: P.Intent) {
    intent.key != "" && (intent.ValuesIntent? ==> forall k :: 0 <= k < |intent.values| ==> P.Safe(intent.values[k]))
  }

  lemma IntentGroupMeaning(g: Group<Head, Stored>, i: nat, intent: P.Intent)
    ensures g.position == i + 1 && ReadGroup(g, ReadHead, ReadScalar, IntentOf) == Ok(intent)
      <==> g == IntentGroup(intent, i) && SafeValues(intent)
  {
    match intent
    case ValuesIntent(key, values) =>
      ReadCellsMeaning(g.cells, ReadScalar, values);
      if g.position == i + 1 && ReadGroup(g, ReadHead, ReadScalar, IntentOf) == Ok(intent) {
        assert g.cells == Numbered(StoredValues(values));
      }
    case RangeIntent(key, includeBase, range) =>
      ReadCellsMeaning(g.cells, ReadScalar, []);
  }

  /** _parameter_bindings_from_rows */
  method ParameterBindings(rows: seq<Joined<Head, Stored>>, ghost groups: seq<Group<Head, Stored>>)
    returns (r: Result<seq<P.Intent>>)
    requires rows == Rows(groups) && Ascending(groups)
    ensures forall intents :: r == Ok(intents) <==> ValidIntents(intents) && groups == IntentGroups(intents)
  {
    hide ReadGroups, Rows, Ascending, ValidIntents, IntentGroups;
    r := Regroup(rows, groups, ReadHead, ReadScalar, IntentOf);
    forall intents | ValidIntents(intents) && groups == IntentGroups(intents) ensures r == Ok(intents) {
      IntentsReadBack(groups, intents);
    }
    if r.Ok? {
      IntentsRead(groups, r.value);
      var proper := CheckIntents(r.value);
      if !proper {
        return StoreError;
      }
    }
  }

  /** The explicit values of every binding read are proper alternatives. */
  method CheckIntents(intents: seq<P.Intent>) returns (proper: bool)
    requires forall i :: 0 <= i < |intents| ==> SafeValues(intents[i])
    ensures proper == ValidIntents(intents)
  {
    hide P.ValidAlternatives;
    for i := 0 to |intents|
      invariant forall j :: 0 <= j < i ==> ValidIntent(intents[j])
    {
      if intents[i].ValuesIntent? {
        var checked := P.ValidateAlternatives(intents[i].values);
        if checked.Err? {
          return false;
        }
      }
    }
    return true;
  }

  lemma IntentsRead(groups: seq<Group<Head, Stored>>, intents: seq<P.Intent>)
    requires ReadGroups(groups, ReadHead, ReadScalar, IntentOf) == Ok(intents)
    ensures groups == IntentGroups(intents) && forall i :: 0 <= i < |intents| ==> SafeValues(intents[i])
  {
    ReadGroupsMeaning(groups, ReadHead, ReadScalar, IntentOf, intents);
    forall i | 0 <= i < |groups| ensures groups[i] == IntentGroup(intents[i], i) && SafeValues(intents[i]) {
      IntentGroupMeaning(groups[i], i, intents[i]);
    }
  }

  lemma IntentsReadBack(groups: seq<Group<Head, Stored>>, intents: seq<P.Intent>)
    requires groups == IntentGroups(intents) && ValidIntents(intents)
    ensures ReadGroups(groups, ReadHead, ReadScalar, IntentOf) == Ok(intents)
  {
    forall i | 0 <= i < |groups|
      ensures groups[i].position == i + 1 && ReadGroup(groups[i], ReadHead, ReadScalar, IntentOf) == Ok(intents[i])
    {
      assert ValidIntent(intents[i]);
      IntentGroupMeaning(groups[i], i, intents[i]);
    }
    ReadGroupsMeaning(groups, ReadHead, ReadScalar, IntentOf, intents);
  }
}
