/** Linked parameter sets: members and rows as numbered tables, and the decoder of their cross join. */
module LinkedSetRows {
  import opened Common
  import P = Parameters
  import opened SavedBatchRows
  import opened Positions

  // ---------- the four tables of one Saved Batch ----------

  datatype Member = Member(position: int, key: string)

  datatype TableRow = TableRow(position: int, title: Option<string>)

  /** A set row with its member rows, its table rows, and its value rows by (row, member) position. */
  datatype StoredSet = StoredSet(position: int, key: string, title: string, members: seq<Member>, rows: seq<TableRow>,
                                 values: map<(int, int), Stored>)

  /** One row of `set LEFT JOIN member LEFT JOIN row LEFT JOIN value`. */
  datatype JoinedRow = JoinedRow(position: int, key: string, title: string, member: Option<Member>,
                                 row: Option<TableRow>, value: Option<Stored>)

  function Lookup(s: StoredSet, row: Option<TableRow>, member: Option<Member>): Option<Stored> {
    if row.Some? && member.Some? && (row.value.position, member.value.position) in s.values
    then Some(s.values[(row.value.position, member.value.position)])
    else None
  }

  function Cross(s: StoredSet, row: Option<TableRow>, member: Option<Member>): JoinedRow {
    JoinedRow(s.position, s.key, s.title, member, row, Lookup(s, row, member))
  }

  /** The rows of one table row: one per member, or a single one without. */
  function RowBlock(s: StoredSet, row: Option<TableRow>): (rows: seq<JoinedRow>)
    ensures |rows| >= 1
  {
    if s.members == [] then [Cross(s, row, None)]
    else seq(|s.members|, i requires 0 <= i < |s.members| => Cross(s, row, Some(s.members[i])))
  }

  /** ORDER BY row position, then member position. */
  function Blocks(s: StoredSet, rows: seq<TableRow>): seq<JoinedRow> {
    if rows == [] then [] else Blocks(s, rows[..|rows| - 1]) + RowBlock(s, Some(rows[|rows| - 1]))
  }

  function SetRows(s: StoredSet): seq<JoinedRow> { if s.rows == [] then RowBlock(s, None) else Blocks(s, s.rows) }

  function AllRows(sets: seq<StoredSet>): seq<JoinedRow> {
    if sets == [] then [] else AllRows(sets[..|sets| - 1]) + SetRows(sets[|sets| - 1])
  }

  /** Primary and foreign keys of one set. */
  ghost predicate Keyed(s: StoredSet) {
    && (forall i, j :: 0 <= i < j < |s.members| ==> s.members[i].position < s.members[j].position)
    && (forall i, j :: 0 <= i < j < |s.rows| ==> s.rows[i].position < s.rows[j].position)
    && (forall key :: key in s.values ==>
          (exists i :: 0 <= i < |s.rows| && s.rows[i].position == key.0)
          && (exists j :: 0 <= j < |s.members| && s.members[j].position == key.1))
  }

  ghost predicate Tables(sets: seq<StoredSet>) {
    && (forall i, j :: 0 <= i < j < |sets| ==> sets[i].position < sets[j].position)
    && (forall i :: 0 <= i < |sets| ==> Keyed(sets[i]))
  }

  // ---------- definitions and how they are stored ----------

  datatype LinkedRow = LinkedRow(values: seq<P.Scalar>, title: Option<string>)

  datatype LinkedSet = LinkedSet(key: string, title: string, members: seq<string>, rows: seq<LinkedRow>)

  ghost predicate ValidRow(row: LinkedRow, members: nat) {
    |row.values| == members && row.title != Some("") && forall j :: 0 <= j < |row.values| ==> P.Safe(row.values[j])
  }

  ghost predicate ValidSet(x: LinkedSet) {
    && x.key != "" && x.title != ""
    && |x.members| >= 2 && (forall j :: 0 <= j < |x.members| ==> x.members[j] != "")
    && |x.rows| >= 1 && (forall i :: 0 <= i < |x.rows| ==> ValidRow(x.rows[i], |x.members|))
  }

  function ValueMap(x: LinkedSet): map<(int, int), Stored> {
    map k, j | 0 <= k < |x.rows| && 0 <= j < |x.rows[k].values| :: (k + 1, j + 1) := Scalar(x.rows[k].values[j])
  }

  /** The rows that storing x as set number i + 1 inserts into the four tables. */
  function StoredAs(x: LinkedSet, i: nat): (s: StoredSet) {
    StoredSet(i + 1, x.key, x.title,
              seq(|x.members|, j requires 0 <= j < |x.members| => Member(j + 1, x.members[j])),
              seq(|x.rows|, k requires 0 <= k < |x.rows| => TableRow(k + 1, x.rows[k].title)),
              ValueMap(x))
  }

  ghost predicate CellHolds(s: StoredSet, x: LinkedSet, k: nat, j: nat)
    requires k < |x.rows|
  {
    j < |x.rows[k].values| && (k + 1, j + 1) in s.values && s.values[(k + 1, j + 1)] == Scalar(x.rows[k].values[j])
  }

  /** s holds x, cell by cell. */
  ghost predicate Holds(s: StoredSet, x: LinkedSet) {
    && ValidSet(x)
    && s.key == x.key && s.title == x.title
    && |s.members| == |x.members| && (forall j :: 0 <= j < |s.members| ==> s.members[j] == Member(j + 1, x.members[j]))
    && |s.rows| == |x.rows| && (forall k :: 0 <= k < |s.rows| ==> s.rows[k] == TableRow(k + 1, x.rows[k].title))
    && (forall k, j :: 0 <= k < |x.rows| && 0 <= j < |x.members| ==> CellHolds(s, x, k, j))
  }

  lemma StoredHolds(x: LinkedSet, i: nat)
    requires ValidSet(x)
    ensures Holds(StoredAs(x, i), x)
  {
    var s := StoredAs(x, i);
    forall k, j | 0 <= k < |x.rows| && 0 <= j < |x.members| ensures CellHolds(s, x, k, j) {
      assert ValidRow(x.rows[k], |x.members|);
      ValueAt(x, k, j);
    }
  }

  lemma RowsSized(x: LinkedSet)
    requires ValidSet(x)
    ensures forall k :: 0 <= k < |x.rows| ==> |x.rows[k].values| == |x.members|
  {
    forall k | 0 <= k < |x.rows| ensures |x.rows[k].values| == |x.members| { assert ValidRow(x.rows[k], |x.members|); }
  }

  /** Only the rows that store x hold it. */
  lemma HoldsIsStored(s: StoredSet, x: LinkedSet, i: nat)
    requires Keyed(s) && s.position == i + 1 && Holds(s, x)
    ensures s == StoredAs(x, i)
  {
    hide CellHolds, Keyed, ValueMap, ValidSet;
    var stored := StoredAs(x, i);
    assert s.members == stored.members && s.rows == stored.rows;
    ValuesStored(s, x);
  }

  lemma ValuesStored(s: StoredSet, x: LinkedSet)
    requires Keyed(s) && Holds(s, x)
    ensures s.values == ValueMap(x)
  {
    hide Keyed, ValidSet, ValueMap, Holds;
    forall key | key in s.values ensures key in ValueMap(x) && ValueMap(x)[key] == s.values[key] {
      ValueStored(s, x, key);
    }
    forall key | key in ValueMap(x) ensures key in s.values { ValueHeld(s, x, key); }
  }

  lemma ValueHeld(s: StoredSet, x: LinkedSet, key: (int, int))
    requires Holds(s, x) && key in ValueMap(x)
    ensures key in s.values
  {
    RowsSized(x);
    hide ValidSet;
    var k, j :| 0 <= k < |x.rows| && 0 <= j < |x.rows[k].values| && key == (k + 1, j + 1);
    assert CellHolds(s, x, k, j);
  }

  lemma ValueStored(s: StoredSet, x: LinkedSet, key: (int, int))
    requires Keyed(s) && Holds(s, x) && key in s.values
    ensures key in ValueMap(x) && ValueMap(x)[key] == s.values[key]
  {
    hide ValueMap, ValidSet;
    var k :| 0 <= k < |s.rows| && s.rows[k].position == key.0;
    var j :| 0 <= j < |s.members| && s.members[j].position == key.1;
    assert s.rows[k] == TableRow(k + 1, x.rows[k].title) && s.members[j] == Member(j + 1, x.members[j]);
    assert CellHolds(s, x, k, j);
    ValueAt(x, k, j);
  }

  lemma ValueAt(x: LinkedSet, k: nat, j: nat)
    requires k < |x.rows| && j < |x.rows[k].values|
    ensures (k + 1, j + 1) in ValueMap(x) && ValueMap(x)[(k + 1, j + 1)] == Scalar(x.rows[k].values[j])
  {
  }

  lemma HoldsOnce(s: StoredSet, x: LinkedSet, y: LinkedSet)
    requires Holds(s, x) && Holds(s, y)
    ensures x == y
  {
    assert x.members == y.members;
    forall k | 0 <= k < |x.rows| ensures x.rows[k] == y.rows[k] {
      assert ValidRow(x.rows[k], |x.members|) && ValidRow(y.rows[k], |y.members|);
      forall j | 0 <= j < |x.members| ensures x.rows[k].values[j] == y.rows[k].values[j] {
        assert CellHolds(s, x, k, j) && CellHolds(s, y, k, j);
      }
      assert x.rows[k].values == y.rows[k].values;
      assert s.rows[k].title == x.rows[k].title == y.rows[k].title;
    }
    assert x.rows == y.rows;
  }

  // ---------- selecting rows ----------

  /** [row for row in rows if row[0] == position] */
  function OfSet(rows: seq<JoinedRow>, position: int): seq<JoinedRow> {
    if rows == [] then []
    else OfSet(rows[..|rows| - 1], position) + if rows[|rows| - 1].position == position then [rows[|rows| - 1]] else []
  }

  /** [row for row in rows if row[5] == position] */
  function OfRow(rows: seq<JoinedRow>, position: int): seq<JoinedRow> {
    if rows == [] then []
    else OfRow(rows[..|rows| - 1], position)
         + if rows[|rows| - 1].row.Some? && rows[|rows| - 1].row.value.position == position
           then [rows[|rows| - 1]] else []
  }

  lemma {:induction false} OfSetAppend(a: seq<JoinedRow>, b: seq<JoinedRow>, position: int)
    ensures OfSet(a + b, position) == OfSet(a, position) + OfSet(b, position)
  {
    if b == [] {
      assert a + b == a;
    } else {
      OfSetAppend(a, b[..|b| - 1], position);
      assert (a + b)[..|a + b| - 1] == a + b[..|b| - 1];
    }
  }

  lemma {:induction false} OfRowAppend(a: seq<JoinedRow>, b: seq<JoinedRow>, position: int)
    ensures OfRow(a + b, position) == OfRow(a, position) + OfRow(b, position)
  {
    if b == [] {
      assert a + b == a;
    } else {
      OfRowAppend(a, b[..|b| - 1], position);
      assert (a + b)[..|a + b| - 1] == a + b[..|b| - 1];
    }
  }

  lemma {:induction false} OfSetUniform(rows: seq<JoinedRow>, owner: int, position: int)
    requires forall i :: 0 <= i < |rows| ==> rows[i].position == owner
    ensures OfSet(rows, position) == if owner == position then rows else []
  {
    if rows != [] { OfSetUniform(rows[..|rows| - 1], owner, position); }
  }

  lemma {:induction false} OfRowUniform(rows: seq<JoinedRow>, owner: int, position: int)
    requires forall i :: 0 <= i < |rows| ==> rows[i].row.Some? && rows[i].row.value.position == owner
    ensures OfRow(rows, position) == if owner == position then rows else []
  {
    if rows != [] { OfRowUniform(rows[..|rows| - 1], owner, position); }
  }

  /** The rows of a set carry its position; there is at least one. */
  lemma {:induction false} BlocksMembers(s: StoredSet, rows: seq<TableRow>)
    ensures forall x :: x in Blocks(s, rows) ==> x.position == s.position && x.key == s.key && x.title == s.title
    ensures rows != [] ==> Blocks(s, rows) != []
    ensures forall x :: x in Blocks(s, rows) <==> exists k :: 0 <= k < |rows| && x in RowBlock(s, Some(rows[k]))
  {
    if rows != [] {
      var init := rows[..|rows| - 1];
      BlocksMembers(s, init);
      forall x ensures x in Blocks(s, rows) <==> exists k :: 0 <= k < |rows| && x in RowBlock(s, Some(rows[k])) {
        if x in Blocks(s, init) {
          var k :| 0 <= k < |init| && x in RowBlock(s, Some(init[k]));
          assert rows[k] == init[k];
        }
        if k :| 0 <= k < |rows| && x in RowBlock(s, Some(rows[k])) {
          if k < |init| { assert init[k] == rows[k]; }
        }
      }
    }
  }

  lemma SetRowsUniform(s: StoredSet)
    ensures SetRows(s) != []
    ensures forall i :: 0 <= i < |SetRows(s)| ==>
      SetRows(s)[i].position == s.position && SetRows(s)[i].key == s.key && SetRows(s)[i].title == s.title
  {
    if s.rows != [] {
      BlocksMembers(s, s.rows);
      forall i | 0 <= i < |SetRows(s)|
        ensures SetRows(s)[i].position == s.position && SetRows(s)[i].key == s.key && SetRows(s)[i].title == s.title
      {
        assert SetRows(s)[i] in Blocks(s, s.rows);
      }
    }
  }

  /** Selecting by set position recovers that set's rows. */
  lemma {:induction false} OfSetAll(sets: seq<StoredSet>, i: nat)
    requires i < |sets| && forall a, b :: 0 <= a < b < |sets| ==> sets[a].position < sets[b].position
    ensures OfSet(AllRows(sets), sets[i].position) == SetRows(sets[i])
  {
    hide SetRows;
    var init, last := sets[..|sets| - 1], sets[|sets| - 1];
    OfSetAppend(AllRows(init), SetRows(last), sets[i].position);
    SetRowsUniform(last);
    OfSetUniform(SetRows(last), last.position, sets[i].position);
    if i < |init| {
      assert init[i] == sets[i];
      OfSetAll(init, i);
    } else {
      OfSetNone(init, last.position);
    }
  }

  lemma {:induction false} OfSetNone(sets: seq<StoredSet>, position: int)
    requires forall i :: 0 <= i < |sets| ==> sets[i].position != position
    ensures OfSet(AllRows(sets), position) == []
  {
    if sets != [] {
      var init, last := sets[..|sets| - 1], sets[|sets| - 1];
      OfSetNone(init, position);
      OfSetAppend(AllRows(init), SetRows(last), position);
      SetRowsUniform(last);
      OfSetUniform(SetRows(last), last.position, position);
    }
  }

  lemma BlockUniform(s: StoredSet, row: TableRow)
    ensures forall i :: 0 <= i < |RowBlock(s, Some(row))| ==>
      RowBlock(s, Some(row))[i].row.Some? && RowBlock(s, Some(row))[i].row.value.position == row.position
  {
  }

  /** Selecting by row position recovers that row's block. */
  lemma {:induction false} OfRowAll(s: StoredSet, rows: seq<TableRow>, k: nat)
    requires k < |rows| && forall i, j :: 0 <= i < j < |rows| ==> rows[i].position < rows[j].position
    ensures OfRow(Blocks(s, rows), rows[k].position) == RowBlock(s, Some(rows[k]))
  {
    BlockUniform(s, rows[|rows| - 1]);
    hide RowBlock;
    var init, last := rows[..|rows| - 1], rows[|rows| - 1];
    OfRowAppend(Blocks(s, init), RowBlock(s, Some(last)), rows[k].position);
    OfRowUniform(RowBlock(s, Some(last)), last.position, rows[k].position);
    if k < |init| {
      assert init[k] == rows[k];
      OfRowAll(s, init, k);
    } else {
      OfRowNone(s, init, last.position);
    }
  }

  lemma {:induction false} OfRowNone(s: StoredSet, rows: seq<TableRow>, position: int)
    requires forall i :: 0 <= i < |rows| ==> rows[i].position != position
    ensures OfRow(Blocks(s, rows), position) == []
  {
    if rows != [] {
      BlockUniform(s, rows[|rows| - 1]);
      var init, last := rows[..|rows| - 1], rows[|rows| - 1];
      OfRowNone(s, init, position);
      OfRowAppend(Blocks(s, init), RowBlock(s, Some(last)), position);
      OfRowUniform(RowBlock(s, Some(last)), last.position, position);
    }
  }

  // ---------- one row of a set ----------

  function ReadOptional(v: Option<Stored>): Result<P.Scalar> { if v.None? then StoreError else ReadScalar(v.value) }

  function ReadAll(rows: seq<JoinedRow>): Result<seq<P.Scalar>> {
    if rows == [] then Ok([])
    else
      match ReadAll(rows[..|rows| - 1])
      case StoreError => StoreError
      case Ok(values) =>
        match ReadOptional(rows[|rows| - 1].value)
        case StoreError => StoreError
        case Ok(value) => Ok(values + [value])
  }

  /** The rows of one table row, in member order, as a linked row. */
  function ReadBlock(rows: seq<JoinedRow>, members: nat): Result<LinkedRow> {
    if |rows| != members || rows == [] || rows[0].row.None? || rows[0].row.value.title == Some("") then StoreError
    else
      match ReadAll(rows)
      case StoreError => StoreError
      case Ok(values) => Ok(LinkedRow(values, rows[0].row.value.title))
  }

  predicate Before(a: JoinedRow, b: JoinedRow) {
    a.member.Some? && b.member.Some? && a.member.value.position < b.member.value.position
  }

  /** rows.sort(key=member position), stable. */
  function Sorted(rows: seq<JoinedRow>): seq<JoinedRow> {
    if rows == [] then [] else Placed(Sorted(rows[..|rows| - 1]), rows[|rows| - 1])
  }

  function Placed(rows: seq<JoinedRow>, row: JoinedRow): seq<JoinedRow> {
    if rows == [] || !Before(row, rows[|rows| - 1]) then rows + [row]
    else Placed(rows[..|rows| - 1], row) + [rows[|rows| - 1]]
  }

  lemma {:induction false} SortedAlready(rows: seq<JoinedRow>)
    requires forall i, j :: 0 <= i < j < |rows| ==> !Before(rows[j], rows[i])
    ensures Sorted(rows) == rows
  {
    if rows != [] { SortedAlready(rows[..|rows| - 1]); }
  }

  lemma {:induction false} ReadAllMeaning(rows: seq<JoinedRow>, values: seq<P.Scalar>)
    ensures ReadAll(rows) == Ok(values) <==>
      |values| == |rows| && forall j :: 0 <= j < |rows| ==> ReadOptional(rows[j].value) == Ok(values[j])
  {
    if rows != [] {
      var n := |rows| - 1;
      ReadAllLength(rows);
      ReadAllLength(rows[..n]);
      if |values| == |rows| {
        ReadAllMeaning(rows[..n], values[..n]);
        assert values == values[..n] + [values[n]];
      }
    }
  }

  lemma {:induction false} ReadAllLength(rows: seq<JoinedRow>)
    ensures ReadAll(rows).Ok? ==> |ReadAll(rows).value| == |rows|
  {
    if rows != [] { ReadAllLength(rows[..|rows| - 1]); }
  }

  lemma {:induction false} ReadAllErrorStays(rows: seq<JoinedRow>, k: nat)
    requires k <= |rows| && ReadAll(rows[..k]) == StoreError
    ensures ReadAll(rows) == StoreError
  {
    if k == |rows| {
      assert rows[..k] == rows;
    } else {
      assert rows[..|rows| - 1][..k] == rows[..k];
      ReadAllErrorStays(rows[..|rows| - 1], k);
    }
  }

  /** The part of the loop that turns the rows of one row position into a linked row. */
  method ReadRow(found: seq<JoinedRow>, members: nat) returns (r: Result<LinkedRow>)
    ensures r == ReadBlock(Sorted(found), members)
  {
    var rows := Sorted(found);
    if |rows| != members || rows == [] || rows[0].row.None? {
      return StoreError;
    }
    var values: seq<P.Scalar> := [];
    for i := 0 to |rows|
      invariant ReadAll(rows[..i]) == Ok(values)
    {
      assert rows[..i + 1][..i] == rows[..i];
      var value := ReadOptional(rows[i].value);
      if value.StoreError? {
        ReadAllErrorStays(rows, i + 1);
        return StoreError;
      }
      values := values + [value.value];
    }
    assert rows[..|rows|] == rows;
    if rows[0].row.value.title == Some("") {
      return StoreError;
    }
    return Ok(LinkedRow(values, rows[0].row.value.title));
  }

  /** What a stored row reads as. */
  ghost predicate RowHolds(s: StoredSet, row: TableRow, x: LinkedRow) {
    && x.title == row.title && x.title != Some("")
    && |x.values| == |s.members|
    && forall j :: 0 <= j < |s.members| ==>
         (row.position, s.members[j].position) in s.values
         && s.values[(row.position, s.members[j].position)] == Scalar(x.values[j]) && P.Safe(x.values[j])
  }

  lemma BlockSorted(s: StoredSet, row: TableRow)
    requires forall i, j :: 0 <= i < j < |s.members| ==> s.members[i].position < s.members[j].position
    ensures Sorted(RowBlock(s, Some(row))) == RowBlock(s, Some(row))
  {
    SortedAlready(RowBlock(s, Some(row)));
  }

  lemma BlockMeaning(s: StoredSet, row: TableRow, x: LinkedRow)
    requires s.members != []
    ensures ReadBlock(RowBlock(s, Some(row)), |s.members|) == Ok(x) <==> RowHolds(s, row, x)
  {
    var rows := RowBlock(s, Some(row));
    ReadAllMeaning(rows, x.values);
    assert forall j :: 0 <= j < |rows| ==> rows[j].value == Lookup(s, Some(row), Some(s.members[j]));
    if ReadBlock(rows, |s.members|) == Ok(x) {
      forall j | 0 <= j < |s.members|
        ensures (row.position, s.members[j].position) in s.values
          && s.values[(row.position, s.members[j].position)] == Scalar(x.values[j]) && P.Safe(x.values[j])
      {
        assert ReadOptional(rows[j].value) == Ok(x.values[j]);
      }
    }
  }

  // ---------- one set, and all of them ----------

  /** The members and table rows that a set's joined rows mention. */
  lemma {:induction false} BlocksPositions(s: StoredSet, rows: seq<TableRow>)
    requires s.members != []
    ensures forall x ::
      x in Blocks(s, rows) ==> x.member.Some? && x.row.Some? && x.member.value in s.members && x.row.value in rows
    ensures forall k, j ::
      0 <= k < |rows| && 0 <= j < |s.members| ==> Cross(s, Some(rows[k]), Some(s.members[j])) in Blocks(s, rows)
  {
    if rows != [] {
      var init, last := rows[..|rows| - 1], rows[|rows| - 1];
      BlocksPositions(s, init);
      forall k, j | 0 <= k < |rows| && 0 <= j < |s.members|
        ensures Cross(s, Some(rows[k]), Some(s.members[j])) in Blocks(s, rows)
      {
        if k < |init| {
          assert init[k] == rows[k];
        } else {
          assert RowBlock(s, Some(last))[j] == Cross(s, Some(last), Some(s.members[j]));
        }
      }
    }
  }

  /** A set without members or without rows joins to rows that say so. */
  lemma EmptyJoin(s: StoredSet)
    ensures s.members == [] ==> SetRows(s)[0].member.None?
    ensures s.rows == [] ==> SetRows(s)[0].row.None?
  {
    if s.rows != [] {
      BlocksMembers(s, s.rows);
      if s.members == [] { FirstOfBlocks(s, s.rows); }
    }
  }

  lemma {:induction false} FirstOfBlocks(s: StoredSet, rows: seq<TableRow>)
    requires rows != []
    ensures RowBlock(s, Some(rows[0])) <= Blocks(s, rows)
  {
    if |rows| > 1 { FirstOfBlocks(s, rows[..|rows| - 1]); }
  }

  ghost function MemberPositions(s: StoredSet): seq<int> {
    seq(|s.members|, j requires 0 <= j < |s.members| => s.members[j].position)
  }

  ghost function RowPositions(s: StoredSet): seq<int> {
    seq(|s.rows|, k requires 0 <= k < |s.rows| => s.rows[k].position)
  }

  predicate Placeable(x: JoinedRow) {
    x.member.Some? && x.member.value.position >= 1 && x.row.Some? && x.row.value.position >= 1
  }

  /** What the two sets of positions collected from the joined rows are. */
  lemma Collected(s: StoredSet, rows: seq<JoinedRow>)
    requires rows == SetRows(s) && forall i :: 0 <= i < |rows| ==> rows[i].member.Some? && rows[i].row.Some?
    ensures s.members != [] && s.rows != []
    ensures (set i | 0 <= i < |rows| :: rows[i].member.value.position) == set x | x in MemberPositions(s)
    ensures (set i | 0 <= i < |rows| :: rows[i].row.value.position) == set x | x in RowPositions(s)
  {
    EmptyJoin(s);
    SetRowsUniform(s);
    BlocksPositions(s, s.rows);
    MemberPositionsCollected(s, rows);
    RowPositionsCollected(s, rows);
  }

  lemma MemberPositionsCollected(s: StoredSet, rows: seq<JoinedRow>)
    requires s.members != [] && s.rows != [] && rows == Blocks(s, s.rows)
    requires forall i :: 0 <= i < |rows| ==> rows[i].member.Some?
    ensures (set i | 0 <= i < |rows| :: rows[i].member.value.position) == set x | x in MemberPositions(s)
  {
    BlocksPositions(s, s.rows);
    forall i | 0 <= i < |rows| ensures rows[i].member.value.position in MemberPositions(s) {
      assert rows[i] in Blocks(s, s.rows);
      var j :| 0 <= j < |s.members| && s.members[j] == rows[i].member.value;
      assert MemberPositions(s)[j] == rows[i].member.value.position;
    }
    forall x | x in MemberPositions(s) ensures exists i :: 0 <= i < |rows| && rows[i].member.value.position == x {
      var j :| 0 <= j < |s.members| && MemberPositions(s)[j] == x;
      assert Cross(s, Some(s.rows[0]), Some(s.members[j])) in Blocks(s, s.rows);
    }
  }

  lemma RowPositionsCollected(s: StoredSet, rows: seq<JoinedRow>)
    requires s.members != [] && s.rows != [] && rows == Blocks(s, s.rows)
    requires forall i :: 0 <= i < |rows| ==> rows[i].row.Some?
    ensures (set i | 0 <= i < |rows| :: rows[i].row.value.position) == set x | x in RowPositions(s)
  {
    BlocksPositions(s, s.rows);
    forall i | 0 <= i < |rows| ensures rows[i].row.value.position in RowPositions(s) {
      assert rows[i] in Blocks(s, s.rows);
      var k :| 0 <= k < |s.rows| && s.rows[k] == rows[i].row.value;
      assert RowPositions(s)[k] == rows[i].row.value.position;
    }
    forall x | x in RowPositions(s) ensures exists i :: 0 <= i < |rows| && rows[i].row.value.position == x {
      var k :| 0 <= k < |s.rows| && RowPositions(s)[k] == x;
      assert Cross(s, Some(s.rows[k]), Some(s.members[0])) in Blocks(s, s.rows);
    }
  }

  /** Members and rows numbered from one, at least two members and one row. */
  ghost predicate Shaped(s: StoredSet) {
    && |s.members| >= 2 && (forall j :: 0 <= j < |s.members| ==> s.members[j].position == j + 1)
    && |s.rows| >= 1 && (forall k :: 0 <= k < |s.rows| ==> s.rows[k].position == k + 1)
  }

  lemma HoldsShaped(s: StoredSet, x: LinkedSet)
    requires Holds(s, x)
    ensures Shaped(s)
  {
    hide CellHolds, ValidRow;
  }

  lemma ShapedPlaceable(s: StoredSet, rows: seq<JoinedRow>)
    requires Shaped(s) && rows == SetRows(s)
    ensures forall i :: 0 <= i < |rows| ==> Placeable(rows[i])
  {
    BlocksPositions(s, s.rows);
    forall i | 0 <= i < |rows| ensures Placeable(rows[i]) { assert rows[i] in Blocks(s, s.rows); }
  }

  ghost predicate RowReads(s: StoredSet, k: nat, y: LinkedRow)
    requires k < |s.rows|
  {
    ReadBlock(RowBlock(s, Some(s.rows[k])), |s.members|) == Ok(y)
  }

  ghost predicate RowUnreadable(s: StoredSet, k: nat)
    requires k < |s.rows|
  {
    ReadBlock(RowBlock(s, Some(s.rows[k])), |s.members|) == StoreError
  }

  /** The parts of a set are read independently. */
  ghost predicate Parts(s: StoredSet, x: LinkedSet) {
    && s.key != "" && s.title != "" && x.key == s.key && x.title == s.title
    && |x.members| == |s.members|
       && (forall j :: 0 <= j < |s.members| ==> x.members[j] == s.members[j].key && s.members[j].key != "")
    && |x.rows| == |s.rows| && (forall k :: 0 <= k < |s.rows| ==> RowReads(s, k, x.rows[k]))
  }

  lemma PartsHold(s: StoredSet, x: LinkedSet)
    requires Shaped(s) && Parts(s, x)
    ensures Holds(s, x)
  {
    hide ReadBlock, RowBlock;
    forall k | 0 <= k < |x.rows| ensures RowHolds(s, s.rows[k], x.rows[k]) {
      assert RowReads(s, k, x.rows[k]);
      BlockMeaning(s, s.rows[k], x.rows[k]);
    }
    forall k, j | 0 <= k < |x.rows| && 0 <= j < |x.members| ensures CellHolds(s, x, k, j) {
      CellFromRow(s, x, k, j);
    }
    forall k | 0 <= k < |s.rows|
      ensures s.rows[k] == TableRow(k + 1, x.rows[k].title) && ValidRow(x.rows[k], |x.members|)
    {
      assert RowHolds(s, s.rows[k], x.rows[k]);
    }
    assert forall j :: 0 <= j < |s.members| ==> s.members[j] == Member(j + 1, x.members[j]);
  }

  lemma CellFromRow(s: StoredSet, x: LinkedSet, k: nat, j: nat)
    requires k < |s.rows| && k < |x.rows| && j < |s.members|
    requires RowHolds(s, s.rows[k], x.rows[k]) && s.rows[k].position == k + 1 && s.members[j].position == j + 1
    ensures CellHolds(s, x, k, j)
  {
  }

  lemma HoldsParts(s: StoredSet, x: LinkedSet)
    requires Holds(s, x)
    ensures Parts(s, x)
  {
    hide ReadBlock, RowBlock;
    forall k | 0 <= k < |s.rows| ensures RowReads(s, k, x.rows[k]) {
      assert ValidRow(x.rows[k], |x.members|) && s.rows[k] == TableRow(k + 1, x.rows[k].title);
      forall j | 0 <= j < |s.members|
        ensures (s.rows[k].position, s.members[j].position) in s.values
          && s.values[(s.rows[k].position, s.members[j].position)] == Scalar(x.rows[k].values[j])
      {
        assert CellHolds(s, x, k, j) && s.members[j] == Member(j + 1, x.members[j]);
      }
      BlockMeaning(s, s.rows[k], x.rows[k]);
    }
  }

  /** next(row[4] for row in rows if row[3] == position), for every position. */
  method MemberKeys(rows: seq<JoinedRow>, ghost s: StoredSet, count: nat) returns (r: Result<seq<string>>)
    requires Shaped(s) && rows == SetRows(s) && count == |s.members|
    ensures
      r.Ok? ==> |r.value| == count && forall j :: 0 <= j < count ==> r.value[j] == s.members[j].key && r.value[j] != ""
    ensures r.StoreError? ==> exists j :: 0 <= j < count && s.members[j].key == ""
  {
    var keys: seq<string> := [];
    for j := 0 to count
      invariant |keys| == j && forall i :: 0 <= i < j ==> keys[i] == s.members[i].key && keys[i] != ""
    {
      var key := KeyAt(rows, s, j);
      if key == "" {
        return StoreError;
      }
      keys := keys + [key];
    }
    return Ok(keys);
  }

  method KeyAt(rows: seq<JoinedRow>, ghost s: StoredSet, j: nat) returns (key: string)
    requires Shaped(s) && rows == SetRows(s) && j < |s.members|
    ensures key == s.members[j].key
  {
    hide Shaped, SetRows;
    FirstBlock(s, rows, j);
    var i := 0;
    while rows[i].member.value.position != j + 1
      invariant i <= j
      decreases j - i
    {
      i := i + 1;
    }
    return rows[i].member.value.key;
  }

  /** The joined rows begin with the members, in order. */
  lemma FirstBlock(s: StoredSet, rows: seq<JoinedRow>, j: nat)
    requires Shaped(s) && rows == SetRows(s) && j < |s.members|
    ensures j < |rows|
    ensures forall i :: 0 <= i <= j ==> rows[i].member == Some(s.members[i]) && s.members[i].position == i + 1
  {
    FirstOfBlocks(s, s.rows);
  }

  /** The loop over row positions. */
  method LinkedRows(rows: seq<JoinedRow>, ghost s: StoredSet, count: nat, members: nat)
    returns (r: Result<seq<LinkedRow>>)
    requires Shaped(s) && rows == SetRows(s) && count == |s.rows| && members == |s.members|
    ensures r.Ok? ==> |r.value| == count && forall k :: 0 <= k < count ==> RowReads(s, k, r.value[k])
    ensures r.StoreError? ==> exists k :: 0 <= k < count && RowUnreadable(s, k)
  {
    hide ReadBlock, RowBlock, Sorted;
    var linked: seq<LinkedRow> := [];
    for k := 0 to count
      invariant |linked| == k && forall i :: 0 <= i < k ==> RowReads(s, i, linked[i])
    {
      OfRowAll(s, s.rows, k);
      BlockSorted(s, s.rows[k]);
      var row := ReadRow(OfRow(rows, k + 1), members);
      if row.StoreError? {
        assert RowUnreadable(s, k);
        return StoreError;
      }
      linked := linked + [row.value];
    }
    return Ok(linked);
  }

  /** The numbering checks on the collected positions. */
  method CheckPositions(rows: seq<JoinedRow>, ghost s: StoredSet) returns (shaped: bool, members: nat, count: nat)
    requires rows == SetRows(s) && Keyed(s)
    ensures shaped == Shaped(s)
    ensures shaped ==> members == |s.members| && count == |s.rows|
  {
    hide SetRows, Contiguous;
    if exists i :: 0 <= i < |rows| && !Placeable(rows[i]) {
      if Shaped(s) { ShapedPlaceable(s, rows); }
      return false, 0, 0;
    }
    var memberPositions := set i | 0 <= i < |rows| :: rows[i].member.value.position;
    var rowPositions := set i | 0 <= i < |rows| :: rows[i].row.value.position;
    Collected(s, rows);
    RisingContiguous(MemberPositions(s));
    RisingContiguous(RowPositions(s));
    RisingCount(MemberPositions(s));
    RisingCount(RowPositions(s));
    shaped := Contiguous(memberPositions) && |memberPositions| >= 2 && Contiguous(rowPositions) && rowPositions != {};
    members, count := |memberPositions|, |rowPositions|;
    PositionsShape(s);
  }

  lemma PositionsShape(s: StoredSet)
    ensures Shaped(s) <==>
      (|MemberPositions(s)| >= 2 && |RowPositions(s)| >= 1
       && (forall j :: 0 <= j < |MemberPositions(s)| ==> MemberPositions(s)[j] == j + 1)
       && (forall k :: 0 <= k < |RowPositions(s)| ==> RowPositions(s)[k] == k + 1))
  {
    assert forall j :: 0 <= j < |s.members| ==> MemberPositions(s)[j] == s.members[j].position;
    assert forall k :: 0 <= k < |s.rows| ==> RowPositions(s)[k] == s.rows[k].position;
  }

  /** The body of the loop over sets. */
  method ReadSet(rows: seq<JoinedRow>, ghost s: StoredSet) returns (r: Result<LinkedSet>)
    requires rows == SetRows(s) && Keyed(s)
    ensures forall x :: r == Ok(x) <==> Holds(s, x)
  {
    hide SetRows, Holds, Shaped, ReadBlock, RowBlock, Keyed;
    SetRowsUniform(s);
    forall x | Holds(s, x) ensures Shaped(s) && Parts(s, x) {
      HoldsShaped(s, x);
      HoldsParts(s, x);
    }
    if rows[0].key == "" || rows[0].title == "" {
      return StoreError;
    }
    var shaped, members, count := CheckPositions(rows, s);
    if !shaped {
      return StoreError;
    }
    var keys := MemberKeys(rows, s, members);
    if keys.StoreError? {
      return StoreError;
    }
    var linked := LinkedRows(rows, s, count, members);
    if linked.StoreError? {
      ghost var k :| 0 <= k < count && RowUnreadable(s, k);
      forall x: LinkedSet | |x.rows| == |s.rows| ensures !RowReads(s, k, x.rows[k]) {}
      return StoreError;
    }
    var x := LinkedSet(rows[0].key, rows[0].title, keys.value, linked.value);
    PartsHold(s, x);
    forall y | Holds(s, y) ensures y == x { HoldsOnce(s, x, y); }
    return Ok(x);
  }

  // ---------- the whole decoder ----------

  ghost predicate AllHold(stored: seq<StoredSet>, sets: seq<LinkedSet>) {
    |sets| == |stored| && forall i :: 0 <= i < |stored| ==> stored[i].position == i + 1 && Holds(stored[i], sets[i])
  }

  lemma {:induction false} RowsBelong(stored: seq<StoredSet>, x: JoinedRow)
    requires x in AllRows(stored)
    ensures exists i :: 0 <= i < |stored| && stored[i].position == x.position
  {
    var init, last := stored[..|stored| - 1], stored[|stored| - 1];
    if x in AllRows(init) {
      RowsBelong(init, x);
      var i :| 0 <= i < |init| && init[i].position == x.position;
      assert stored[i] == init[i];
    } else {
      SetRowsUniform(last);
    }
  }

  lemma {:induction false} SetsAppear(stored: seq<StoredSet>, i: nat)
    requires i < |stored|
    ensures exists x :: x in AllRows(stored) && x.position == stored[i].position
  {
    var init, last := stored[..|stored| - 1], stored[|stored| - 1];
    if i < |init| {
      SetsAppear(init, i);
      var x :| x in AllRows(init) && x.position == init[i].position;
      assert x in AllRows(stored);
    } else {
      SetRowsUniform(last);
      assert SetRows(last)[0] in AllRows(stored);
    }
  }

  ghost function SetPositions(stored: seq<StoredSet>): seq<int> {
    seq(|stored|, i requires 0 <= i < |stored| => stored[i].position)
  }

  /** The set positions collected from the rows are those of the table. */
  lemma PositionsCollected(stored: seq<StoredSet>, rows: seq<JoinedRow>)
    requires rows == AllRows(stored)
    ensures (set i | 0 <= i < |rows| :: rows[i].position) == set p | p in SetPositions(stored)
  {
    hide AllRows;
    forall i | 0 <= i < |rows| ensures rows[i].position in SetPositions(stored) {
      RowsBelong(stored, rows[i]);
      var k :| 0 <= k < |stored| && stored[k].position == rows[i].position;
      assert SetPositions(stored)[k] == rows[i].position;
    }
    forall p | p in SetPositions(stored) ensures exists i :: 0 <= i < |rows| && rows[i].position == p {
      var k :| 0 <= k < |stored| && SetPositions(stored)[k] == p;
      SetsAppear(stored, k);
      var x :| x in rows && x.position == stored[k].position;
    }
  }

  /** _linked_parameter_sets_from_rows */
  method LinkedSets(rows: seq<JoinedRow>, ghost stored: seq<StoredSet>) returns (r: Result<seq<LinkedSet>>)
    requires rows == AllRows(stored) && Tables(stored)
    ensures forall sets :: r == Ok(sets) <==> AllHold(stored, sets)
  {
    hide AllRows, Holds, SetRows, Keyed, OfSet, Contiguous;
    var positions := set i | 0 <= i < |rows| :: rows[i].position;
    PositionsCollected(stored, rows);
    RisingContiguous(SetPositions(stored));
    RisingCount(SetPositions(stored));
    if !Contiguous(positions) {
      return StoreError;
    }
    assert forall i :: 0 <= i < |stored| ==> stored[i].position == SetPositions(stored)[i] == i + 1;
    var sets: seq<LinkedSet> := [];
    for i := 0 to |positions|
      invariant |sets| == i && forall j :: 0 <= j < i ==> Holds(stored[j], sets[j])
    {
      OfSetAll(stored, i);
      var x := ReadSet(OfSet(rows, i + 1), stored[i]);
      if x.StoreError? {
        return StoreError;
      }
      sets := sets + [x.value];
    }
    forall others | AllHold(stored, others) ensures others == sets {
      forall i | 0 <= i < |stored| ensures others[i] == sets[i] { HoldsOnce(stored[i], others[i], sets[i]); }
    }
    return Ok(sets);
  }

  /** The rows that storing the sets inserts. */
  function StoredSets(sets: seq<LinkedSet>): seq<StoredSet> {
    seq(|sets|, i requires 0 <= i < |sets| => StoredAs(sets[i], i))
  }

  ghost predicate ValidSets(sets: seq<LinkedSet>) { forall i :: 0 <= i < |sets| ==> ValidSet(sets[i]) }

  lemma StoredKeyed(x: LinkedSet, i: nat)
    requires ValidSet(x)
    ensures Keyed(StoredAs(x, i))
  {
    RowsSized(x);
    var s := StoredAs(x, i);
    forall key | key in s.values
      ensures (exists k :: 0 <= k < |s.rows| && s.rows[k].position == key.0)
      ensures (exists j :: 0 <= j < |s.members| && s.members[j].position == key.1)
    {
      var k, j :| 0 <= k < |x.rows| && 0 <= j < |x.rows[k].values| && key == (k + 1, j + 1);
      assert s.rows[k].position == key.0 && s.members[j].position == key.1;
    }
  }

  /** Round trip: what storing valid sets leaves in the tables holds exactly those sets, and tables that
      hold sets at all are what storing them leaves. */
  lemma SetsRoundTrip(sets: seq<LinkedSet>, stored: seq<StoredSet>)
    requires ValidSets(sets) && Tables(stored)
    ensures Tables(StoredSets(sets))
    ensures AllHold(stored, sets) <==> stored == StoredSets(sets)
  {
    hide ValidSet, Keyed, Holds, StoredAs;
    var target := StoredSets(sets);
    forall i | 0 <= i < |sets| ensures target[i].position == i + 1 && Keyed(target[i]) && Holds(target[i], sets[i]) {
      StoredPosition(sets[i], i);
      StoredKeyed(sets[i], i);
      StoredHolds(sets[i], i);
    }
    if AllHold(stored, sets) {
      forall i | 0 <= i < |stored| ensures stored[i] == target[i] { HoldsIsStored(stored[i], sets[i], i); }
    }
  }

  lemma StoredPosition(x: LinkedSet, i: nat)
    ensures StoredAs(x, i).position == i + 1
  {
  }
}
