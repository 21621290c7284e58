/** The four tables that linked parameter sets are stored in, the query that joins them, and the whole
    way there and back. */
module LinkedSetTables {
  import opened Common
  import opened SavedBatchRows
  import opened LinkedSetRows
  import opened Positions

  // ---------- tables and query ----------

  datatype Name = Name(key: string, title: string)

  /** The rows of one Saved Batch by the rest of their primary keys: (set), (set, member), (set, row) and
      (set, row, member). */
  datatype Flat = Flat(sets: map<nat, Name>, members: map<(int, int), string>, rows: map<(int, int), Option<string>>,
                       values: map<(int, int, int), Stored>)

  /** The four inserts, each over its own nested enumeration of the sets. */
  function Inserted(sets: seq<LinkedSet>): Flat {
    Flat(SetTable(sets), MemberTable(sets), RowTable(sets), ValueTable(sets))
  }

  function SetTable(sets: seq<LinkedSet>): map<nat, Name> {
    if sets == [] then map[]
    else
      var last := sets[|sets| - 1];
      SetTable(sets[..|sets| - 1])[|sets| := Name(last.key, last.title)]
  }

  function MemberTable(sets: seq<LinkedSet>): map<(int, int), string> {
    if sets == [] then map[]
    else
      var last := sets[|sets| - 1];
      MemberTable(sets[..|sets| - 1]) + map j | 0 <= j < |last.members| :: (|sets|, j + 1) := last.members[j]
  }

  function RowTable(sets: seq<LinkedSet>): map<(int, int), Option<string>> {
    if sets == [] then map[]
    else
      var last := sets[|sets| - 1];
      RowTable(sets[..|sets| - 1]) + map k | 0 <= k < |last.rows| :: (|sets|, k + 1) := last.rows[k].title
  }

  function ValueTable(sets: seq<LinkedSet>): map<(int, int, int), Stored> {
    if sets == [] then map[]
    else
      var last := ValueMap(sets[|sets| - 1]);
      ValueTable(sets[..|sets| - 1]) + map key | key in last :: (|sets|, key.0, key.1) := last[key]
  }

  /** The foreign keys. */
  ghost predicate Referenced(f: Flat) {
    && (forall key :: key in f.members ==> key.0 in f.sets)
    && (forall key :: key in f.rows ==> key.0 in f.sets)
    && (forall key :: key in f.values ==> (key.0, key.1) in f.rows && (key.0, key.2) in f.members)
  }

  predicate JoinsMember(f: Flat, owner: int, m: Option<Member>) {
    match m
    case Some(member) => (owner, member.position) in f.members && f.members[(owner, member.position)] == member.key
    case None => forall key :: key in f.members ==> key.0 != owner
  }

  predicate JoinsRow(f: Flat, owner: int, r: Option<TableRow>) {
    match r
    case Some(row) => (owner, row.position) in f.rows && f.rows[(owner, row.position)] == row.title
    case None => forall key :: key in f.rows ==> key.0 != owner
  }

  function ValueOf(f: Flat, owner: int, r: Option<TableRow>, m: Option<Member>): Option<Stored> {
    if r.Some? && m.Some? && (owner, r.value.position, m.value.position) in f.values
    then Some(f.values[(owner, r.value.position, m.value.position)])
    else None
  }

  /** x is a row of set LEFT JOIN member LEFT JOIN row LEFT JOIN value. */
  predicate Joins(f: Flat, x: JoinedRow) {
    && x.position in f.sets && f.sets[x.position] == Name(x.key, x.title)
    && JoinsMember(f, x.position, x.member) && JoinsRow(f, x.position, x.row)
    && x.value == ValueOf(f, x.position, x.row, x.member)
  }

  function RowPosition(x: JoinedRow): Option<int> { if x.row.Some? then Some(x.row.value.position) else None }

  function MemberPosition(x: JoinedRow): Option<int> { if x.member.Some? then Some(x.member.value.position) else None }

  /** ORDER BY set position, row position, member position. */
  predicate Earlier(a: JoinedRow, b: JoinedRow) {
    || a.position < b.position
    || (a.position == b.position
        && (Less(RowPosition(a), RowPosition(b))
            || (RowPosition(a) == RowPosition(b) && Less(MemberPosition(a), MemberPosition(b)))))
  }

  ghost predicate InOrder(rows: seq<JoinedRow>) { forall i, j :: 0 <= i < j < |rows| ==> Earlier(rows[i], rows[j]) }

  /** What the query returns. */
  ghost predicate Answers(f: Flat, rows: seq<JoinedRow>) {
    InOrder(rows) && forall x :: x in rows <==> Joins(f, x)
  }

  lemma OneOrder(a: seq<JoinedRow>, b: seq<JoinedRow>)
    requires InOrder(a) && InOrder(b) && forall x :: x in a <==> x in b
    ensures a == b
  {
    assert Strictly(a, Earlier) && Strictly(b, Earlier);
    OneStrictList(a, b, Earlier);
  }

  // ---------- the tables, grouped ----------

  ghost function MembersOf(f: Flat, owner: int): (members: seq<Member>)
    ensures |members| == |Listed(Under(f.members, owner))|
    ensures forall i :: 0 <= i < |members| ==>
      JoinsMember(f, owner, Some(members[i])) && members[i].position == Listed(Under(f.members, owner))[i]
  {
    var positions := Listed(Under(f.members, owner));
    seq(|positions|, i requires 0 <= i < |positions| => assert positions[i] in positions;
        Member(positions[i], f.members[(owner, positions[i])]))
  }

  ghost function RowsOf(f: Flat, owner: int): (rows: seq<TableRow>)
    ensures |rows| == |Listed(Under(f.rows, owner))|
    ensures forall i :: 0 <= i < |rows| ==>
      JoinsRow(f, owner, Some(rows[i])) && rows[i].position == Listed(Under(f.rows, owner))[i]
  {
    var positions := Listed(Under(f.rows, owner));
    seq(|positions|, i requires 0 <= i < |positions| => assert positions[i] in positions;
        TableRow(positions[i], f.rows[(owner, positions[i])]))
  }

  lemma MembersJoined(f: Flat, owner: int)
    ensures forall m :: m in MembersOf(f, owner) <==> JoinsMember(f, owner, Some(m))
    ensures MembersOf(f, owner) == [] <==> JoinsMember(f, owner, None)
  {
    var positions := Listed(Under(f.members, owner));
    forall m | JoinsMember(f, owner, Some(m)) ensures m in MembersOf(f, owner) {
      assert m.position in positions;
      var i :| 0 <= i < |positions| && positions[i] == m.position;
      assert MembersOf(f, owner)[i] == m;
    }
    forall m | m in MembersOf(f, owner) ensures JoinsMember(f, owner, Some(m)) {
      var i :| 0 <= i < |MembersOf(f, owner)| && MembersOf(f, owner)[i] == m;
    }
    NoneUnder(f.members, owner);
  }

  lemma RowsJoined(f: Flat, owner: int)
    ensures forall r :: r in RowsOf(f, owner) <==> JoinsRow(f, owner, Some(r))
    ensures RowsOf(f, owner) == [] <==> JoinsRow(f, owner, None)
  {
    var positions := Listed(Under(f.rows, owner));
    forall r | JoinsRow(f, owner, Some(r)) ensures r in RowsOf(f, owner) {
      assert r.position in positions;
      var i :| 0 <= i < |positions| && positions[i] == r.position;
      assert RowsOf(f, owner)[i] == r;
    }
    forall r | r in RowsOf(f, owner) ensures JoinsRow(f, owner, Some(r)) {
      var i :| 0 <= i < |RowsOf(f, owner)| && RowsOf(f, owner)[i] == r;
    }
    NoneUnder(f.rows, owner);
  }

  function ValuesOf(f: Flat, owner: int): map<(int, int), Stored> {
    map key | key in f.values && key.0 == owner :: (key.1, key.2) := f.values[key]
  }

  ghost function GroupOf(f: Flat, owner: int): StoredSet
    requires owner in f.sets
  {
    StoredSet(owner, f.sets[owner].key, f.sets[owner].title, MembersOf(f, owner), RowsOf(f, owner), ValuesOf(f, owner))
  }

  /** The rows of the four tables, one group per set. */
  ghost function Grouped(f: Flat): (groups: seq<StoredSet>)
    ensures |groups| == |Listed(f.sets.Keys)|
    ensures forall i :: 0 <= i < |groups| ==>
      groups[i].position == Listed(f.sets.Keys)[i] && groups[i].position in f.sets
      && groups[i] == GroupOf(f, groups[i].position)
  {
    var positions := Listed(f.sets.Keys);
    seq(|positions|, i requires 0 <= i < |positions| => assert positions[i] in positions; GroupOf(f, positions[i]))
  }

  lemma GroupKeyed(f: Flat, owner: int)
    requires Referenced(f) && owner in f.sets
    ensures Keyed(GroupOf(f, owner))
  {
    var g := GroupOf(f, owner);
    forall key | key in g.values
      ensures (exists i :: 0 <= i < |g.rows| && g.rows[i].position == key.0)
      ensures (exists j :: 0 <= j < |g.members| && g.members[j].position == key.1)
    {
      assert (owner, key.0, key.1) in f.values;
      assert (owner, key.0) in f.rows && (owner, key.1) in f.members;
      RowsJoined(f, owner);
      MembersJoined(f, owner);
      assert TableRow(key.0, f.rows[(owner, key.0)]) in g.rows;
      assert Member(key.1, f.members[(owner, key.1)]) in g.members;
    }
  }

  lemma GroupedTables(f: Flat)
    requires Referenced(f)
    ensures Tables(Grouped(f))
  {
    hide Keyed, GroupOf;
    forall i | 0 <= i < |Grouped(f)| ensures Keyed(Grouped(f)[i]) { GroupKeyed(f, Grouped(f)[i].position); }
  }

  // ---------- the query's result ----------

  /** x combines the set with one of its rows and one of its members, or with none where it has none. */
  ghost predicate Crosses(s: StoredSet, x: JoinedRow) {
    && x == Cross(s, x.row, x.member)
    && (if x.row.None? then s.rows == [] else x.row.value in s.rows)
    && (if x.member.None? then s.members == [] else x.member.value in s.members)
  }

  lemma BlockCrosses(s: StoredSet, row: Option<TableRow>, x: JoinedRow)
    ensures x in RowBlock(s, row) <==>
      x == Cross(s, row, x.member) && (if x.member.None? then s.members == [] else x.member.value in s.members)
  {
    if s.members != [] && x == Cross(s, row, x.member) && x.member.Some? && x.member.value in s.members {
      var i :| 0 <= i < |s.members| && s.members[i] == x.member.value;
      assert RowBlock(s, row)[i] == x;
    }
  }

  lemma SetCrosses(s: StoredSet, x: JoinedRow)
    ensures x in SetRows(s) <==> Crosses(s, x)
  {
    hide RowBlock;
    BlockCrosses(s, x.row, x);
    if s.rows == [] {
      BlockCrosses(s, None, x);
    } else {
      BlocksMembers(s, s.rows);
      if x in Blocks(s, s.rows) {
        var k :| 0 <= k < |s.rows| && x in RowBlock(s, Some(s.rows[k]));
        BlockCrosses(s, Some(s.rows[k]), x);
      }
      if Crosses(s, x) && x.row.Some? {
        var k :| 0 <= k < |s.rows| && s.rows[k] == x.row.value;
        assert x in RowBlock(s, Some(s.rows[k]));
      }
    }
  }

  lemma {:induction false} AllCross(groups: seq<StoredSet>, x: JoinedRow)
    ensures x in AllRows(groups) <==> exists i :: 0 <= i < |groups| && Crosses(groups[i], x)
  {
    hide SetRows, Crosses;
    if groups != [] {
      var init, last := groups[..|groups| - 1], groups[|groups| - 1];
      AllCross(init, x);
      SetCrosses(last, x);
      if i :| 0 <= i < |init| && Crosses(init[i], x) { assert Crosses(groups[i], x); }
      if i :| 0 <= i < |groups| && Crosses(groups[i], x) {
        if i < |init| { assert Crosses(init[i], x); }
      }
    }
  }

  lemma GroupLookup(f: Flat, owner: int, row: Option<TableRow>, member: Option<Member>)
    requires owner in f.sets
    ensures Lookup(GroupOf(f, owner), row, member) == ValueOf(f, owner, row, member)
  {
    hide MembersOf, RowsOf;
    if row.Some? && member.Some? {
      var k, j := row.value.position, member.value.position;
      assert (k, j) in ValuesOf(f, owner) <==> (owner, k, j) in f.values;
    }
  }

  lemma GroupCrosses(f: Flat, owner: int, x: JoinedRow)
    requires owner in f.sets
    ensures Crosses(GroupOf(f, owner), x) <==> x.position == owner && Joins(f, x)
  {
    MembersJoined(f, owner);
    RowsJoined(f, owner);
    GroupLookup(f, owner, x.row, x.member);
    hide MembersOf, RowsOf, ValuesOf, JoinsMember, JoinsRow, Lookup, ValueOf;
  }

  lemma GroupedJoins(f: Flat, x: JoinedRow)
    ensures x in AllRows(Grouped(f)) <==> Joins(f, x)
  {
    hide AllRows, Crosses, Joins, GroupOf;
    var groups := Grouped(f);
    AllCross(groups, x);
    forall i | 0 <= i < |groups| ensures Crosses(groups[i], x) <==> x.position == groups[i].position && Joins(f, x) {
      GroupCrosses(f, groups[i].position, x);
    }
    if Joins(f, x) {
      assert x.position in f.sets by { JoinsOwner(f, x); }
      var positions := Listed(f.sets.Keys);
      assert x.position in positions;
      var i :| 0 <= i < |positions| && positions[i] == x.position;
      assert groups[i].position == x.position;
    }
  }

  lemma JoinsOwner(f: Flat, x: JoinedRow)
    requires Joins(f, x)
    ensures x.position in f.sets
  {
  }

  lemma BlockInOrder(s: StoredSet, row: Option<TableRow>)
    requires Keyed(s)
    ensures InOrder(RowBlock(s, row))
  {
  }

  lemma InOrderAppend(a: seq<JoinedRow>, b: seq<JoinedRow>)
    requires InOrder(a) && InOrder(b) && forall x, y :: x in a && y in b ==> Earlier(x, y)
    ensures InOrder(a + b)
  {
    hide Earlier;
    forall i, j | 0 <= i < j < |a + b| ensures Earlier((a + b)[i], (a + b)[j]) {
      if i < |a| <= j { assert a[i] in a && b[j - |a|] in b; }
    }
  }

  lemma {:induction false} BlocksInOrder(s: StoredSet, rows: seq<TableRow>)
    requires Keyed(s) && forall i, j :: 0 <= i < j < |rows| ==> rows[i].position < rows[j].position
    ensures InOrder(Blocks(s, rows))
  {
    if rows != [] {
      var init, last := rows[..|rows| - 1], rows[|rows| - 1];
      BlocksInOrder(s, init);
      BlockInOrder(s, Some(last));
      BlocksMembers(s, init);
      forall x, y | x in Blocks(s, init) && y in RowBlock(s, Some(last)) ensures Earlier(x, y) {
        var k :| 0 <= k < |init| && x in RowBlock(s, Some(init[k]));
        BlockCrosses(s, Some(init[k]), x);
        BlockCrosses(s, Some(last), y);
      }
      InOrderAppend(Blocks(s, init), RowBlock(s, Some(last)));
    }
  }

  lemma SetInOrder(s: StoredSet)
    requires Keyed(s)
    ensures InOrder(SetRows(s))
  {
    hide InOrder, Keyed;
    if s.rows == [] {
      BlockInOrder(s, None);
    } else {
      assert forall i, j :: 0 <= i < j < |s.rows| ==> s.rows[i].position < s.rows[j].position by { KeyedRows(s); }
      BlocksInOrder(s, s.rows);
    }
  }

  lemma KeyedRows(s: StoredSet)
    requires Keyed(s)
    ensures forall i, j :: 0 <= i < j < |s.rows| ==> s.rows[i].position < s.rows[j].position
  {
  }

  lemma {:induction false} AllInOrder(groups: seq<StoredSet>)
    requires Tables(groups)
    ensures InOrder(AllRows(groups))
  {
    assert InOrder([]);
    hide InOrder, Keyed, SetRows;
    if groups != [] {
      var init, last := groups[..|groups| - 1], groups[|groups| - 1];
      assert Tables(init) by { assert forall i :: 0 <= i < |init| ==> init[i] == groups[i]; }
      AllInOrder(init);
      SetInOrder(last);
      SetRowsUniform(last);
      forall x, y | x in AllRows(init) && y in SetRows(last) ensures Earlier(x, y) { RowsBelong(init, x); }
      InOrderAppend(AllRows(init), SetRows(last));
    }
  }

  /** The query returns exactly the rows of the groups, in this order. */
  lemma QueryIsAllRows(f: Flat, rows: seq<JoinedRow>)
    requires Referenced(f)
    ensures Answers(f, rows) <==> rows == AllRows(Grouped(f))
  {
    hide AllRows, Joins, InOrder, Tables;
    GroupedTables(f);
    AllInOrder(Grouped(f));
    forall x ensures x in AllRows(Grouped(f)) <==> Joins(f, x) { GroupedJoins(f, x); }
    if Answers(f, rows) { OneOrder(rows, AllRows(Grouped(f))); }
  }

  // ---------- there and back ----------

  lemma {:induction false} SetAt(sets: seq<LinkedSet>, owner: int)
    ensures owner in SetTable(sets) <==> 1 <= owner <= |sets|
    ensures 1 <= owner <= |sets| ==> SetTable(sets)[owner] == Name(sets[owner - 1].key, sets[owner - 1].title)
  {
    if sets != [] { SetAt(sets[..|sets| - 1], owner); }
  }

  lemma {:induction false} MemberAt(sets: seq<LinkedSet>, owner: int, p: int)
    ensures (owner, p) in MemberTable(sets) <==> 1 <= owner <= |sets| && 1 <= p <= |sets[owner - 1].members|
    ensures (owner, p) in MemberTable(sets) ==> MemberTable(sets)[(owner, p)] == sets[owner - 1].members[p - 1]
  {
    if sets != [] {
      MemberAt(sets[..|sets| - 1], owner, p);
      var last := sets[|sets| - 1];
      if owner == |sets| && 1 <= p <= |last.members| { var j := p - 1; assert last.members[j] == last.members[p - 1]; }
    }
  }

  lemma {:induction false} RowAt(sets: seq<LinkedSet>, owner: int, p: int)
    ensures (owner, p) in RowTable(sets) <==> 1 <= owner <= |sets| && 1 <= p <= |sets[owner - 1].rows|
    ensures (owner, p) in RowTable(sets) ==> RowTable(sets)[(owner, p)] == sets[owner - 1].rows[p - 1].title
  {
    if sets != [] {
      RowAt(sets[..|sets| - 1], owner, p);
      var last := sets[|sets| - 1];
      if owner == |sets| && 1 <= p <= |last.rows| { var k := p - 1; assert last.rows[k] == last.rows[p - 1]; }
    }
  }

  lemma {:induction false} ValueAtKey(sets: seq<LinkedSet>, owner: int, key: (int, int))
    ensures (owner, key.0, key.1) in ValueTable(sets) <==> 1 <= owner <= |sets| && key in ValueMap(sets[owner - 1])
    ensures (owner, key.0, key.1) in ValueTable(sets) ==>
      ValueTable(sets)[(owner, key.0, key.1)] == ValueMap(sets[owner - 1])[key]
  {
    hide ValueMap;
    if sets != [] { ValueAtKey(sets[..|sets| - 1], owner, key); }
  }

  lemma InsertedMembers(sets: seq<LinkedSet>, i: nat)
    requires i < |sets|
    ensures MembersOf(Inserted(sets), i + 1) == StoredAs(sets[i], i).members
  {
    hide MemberTable, RowTable, ValueTable, SetTable, MembersOf, ValueMap, Lists;
    var positions := Under(MemberTable(sets), i + 1);
    forall p ensures p in positions <==> 1 <= p <= |sets[i].members| { MemberAt(sets, i + 1, p); }
    ListedUpTo(positions, |sets[i].members|);
    forall j | 0 <= j < |sets[i].members|
      ensures MembersOf(Inserted(sets), i + 1)[j] == Member(j + 1, sets[i].members[j])
    {
      MemberAt(sets, i + 1, j + 1);
    }
  }

  lemma InsertedRows(sets: seq<LinkedSet>, i: nat)
    requires i < |sets|
    ensures RowsOf(Inserted(sets), i + 1) == StoredAs(sets[i], i).rows
  {
    hide MemberTable, RowTable, ValueTable, SetTable, RowsOf, ValueMap, Lists;
    var positions := Under(RowTable(sets), i + 1);
    forall p ensures p in positions <==> 1 <= p <= |sets[i].rows| { RowAt(sets, i + 1, p); }
    ListedUpTo(positions, |sets[i].rows|);
    forall k | 0 <= k < |sets[i].rows|
      ensures RowsOf(Inserted(sets), i + 1)[k] == TableRow(k + 1, sets[i].rows[k].title)
    {
      RowAt(sets, i + 1, k + 1);
    }
  }

  lemma ValuesOfAt(f: Flat, owner: int, key: (int, int))
    ensures key in ValuesOf(f, owner) <==> (owner, key.0, key.1) in f.values
    ensures key in ValuesOf(f, owner) ==> ValuesOf(f, owner)[key] == f.values[(owner, key.0, key.1)]
  {
    if (owner, key.0, key.1) in f.values {
      var full := (owner, key.0, key.1);
      assert full in f.values && full.0 == owner && (full.1, full.2) == key;
    }
  }

  lemma InsertedValues(sets: seq<LinkedSet>, i: nat)
    requires i < |sets|
    ensures ValuesOf(Inserted(sets), i + 1) == ValueMap(sets[i])
  {
    hide ValueTable, ValueMap, ValuesOf;
    var f := Inserted(sets);
    var found, all := ValuesOf(f, i + 1), ValueMap(sets[i]);
    forall key: (int, int)
      ensures key in found <==> key in all
      ensures key in all ==> found[key] == all[key]
    {
      ValuesOfAt(f, i + 1, key);
      ValueAtKey(sets, i + 1, key);
    }
  }

  lemma GroupedUpTo(f: Flat, n: nat)
    requires forall p :: p in f.sets <==> 1 <= p <= n
    ensures |Grouped(f)| == n
    ensures forall i :: 0 <= i < n ==> Grouped(f)[i].position == i + 1
  {
    hide GroupOf, Lists;
    ListedUpTo(f.sets.Keys, n);
  }

  /** Inserting the sets by nested enumerations stores each set as its group. */
  lemma InsertedGrouped(sets: seq<LinkedSet>)
    ensures Grouped(Inserted(sets)) == StoredSets(sets)
  {
    hide SetTable, StoredAs, GroupOf, Grouped, Lists;
    var f := Inserted(sets);
    forall p ensures p in f.sets <==> 1 <= p <= |sets| { SetAt(sets, p); }
    GroupedUpTo(f, |sets|);
    hide Inserted;
    var groups := Grouped(f);
    forall i | 0 <= i < |sets| ensures groups[i] == StoredAs(sets[i], i) { InsertedGroup(sets, i); }
    assert groups == StoredSets(sets);
  }

  lemma InsertedGroup(sets: seq<LinkedSet>, i: nat)
    requires i < |sets|
    ensures i + 1 in Inserted(sets).sets && GroupOf(Inserted(sets), i + 1) == StoredAs(sets[i], i)
  {
    hide MemberTable, RowTable, ValueTable, SetTable, MembersOf, RowsOf, ValuesOf, ValueMap;
    InsertedMembers(sets, i);
    InsertedRows(sets, i);
    InsertedValues(sets, i);
    SetAt(sets, i + 1);
  }

  lemma InsertedReferenced(sets: seq<LinkedSet>)
    requires ValidSets(sets)
    ensures Referenced(Inserted(sets))
  {
    hide MemberTable, RowTable, ValueTable, SetTable, ValueMap, ValidSet;
    var f := Inserted(sets);
    forall key | key in f.members ensures key.0 in f.sets { MemberAt(sets, key.0, key.1); SetAt(sets, key.0); }
    forall key | key in f.rows ensures key.0 in f.sets { RowAt(sets, key.0, key.1); SetAt(sets, key.0); }
    forall key | key in f.values ensures (key.0, key.1) in f.rows && (key.0, key.2) in f.members {
      ValueAtKey(sets, key.0, (key.1, key.2));
      ValueMapKeys(sets[key.0 - 1], key.1, key.2);
      RowAt(sets, key.0, key.1);
      MemberAt(sets, key.0, key.2);
    }
  }

  lemma ValueMapKeys(x: LinkedSet, row: int, member: int)
    requires ValidSet(x) && (row, member) in ValueMap(x)
    ensures 1 <= row <= |x.rows| && 1 <= member <= |x.members|
  {
    RowsSized(x);
  }

  /** No row of the four tables is lost on the way into groups. */
  lemma GroupedDetermines(f: Flat, g: Flat)
    requires Referenced(f) && Referenced(g) && Grouped(f) == Grouped(g)
    ensures f == g
  {
    hide Grouped, GroupOf, Referenced;
    forall owner: nat
      ensures owner in f.sets <==> owner in g.sets
      ensures owner in f.sets ==> GroupOf(f, owner) == GroupOf(g, owner)
    {
      if owner in f.sets { GroupAgrees(f, g, owner); }
      if owner in g.sets { GroupAgrees(g, f, owner); }
    }
    SameTables(f, g);
  }

  lemma GroupAgrees(f: Flat, g: Flat, owner: int)
    requires Grouped(f) == Grouped(g) && owner in f.sets
    ensures owner in g.sets && GroupOf(f, owner) == GroupOf(g, owner)
  {
    var positions := Listed(f.sets.Keys);
    assert owner in positions;
    hide Lists, GroupOf;
    var i :| 0 <= i < |positions| && positions[i] == owner;
    assert Grouped(f)[i] == Grouped(g)[i] && Grouped(f)[i].position == owner;
  }

  ghost predicate SameGroups(f: Flat, g: Flat) {
    && Referenced(f) && Referenced(g)
    && (forall owner: nat :: owner in f.sets <==> owner in g.sets)
    && (forall owner: nat :: owner in f.sets ==> GroupOf(f, owner) == GroupOf(g, owner))
  }

  lemma SameTables(f: Flat, g: Flat)
    requires SameGroups(f, g)
    ensures f == g
  {
    SameNames(f, g);
    SameMembers(f, g);
    SameRows(f, g);
    SameValues(f, g);
  }

  lemma SameNames(f: Flat, g: Flat)
    requires SameGroups(f, g)
    ensures f.sets == g.sets
  {
    hide MembersOf, RowsOf, ValuesOf, Lists, Referenced;
    forall owner | owner in f.sets ensures f.sets[owner] == g.sets[owner] {
      assert GroupOf(f, owner) == GroupOf(g, owner);
    }
    SameMap(f.sets, g.sets);
  }

  lemma SameMembers(f: Flat, g: Flat)
    requires SameGroups(f, g)
    ensures f.members == g.members
  {
    hide GroupOf, Lists;
    forall key: (int, int)
      ensures key in f.members <==> key in g.members
      ensures key in f.members ==> f.members[key] == g.members[key]
    {
      if key.0 in f.sets { SameMember(f, g, key); }
    }
    SameMap(f.members, g.members);
  }

  lemma SameRows(f: Flat, g: Flat)
    requires SameGroups(f, g)
    ensures f.rows == g.rows
  {
    hide GroupOf, Lists;
    forall key: (int, int)
      ensures key in f.rows <==> key in g.rows
      ensures key in f.rows ==> f.rows[key] == g.rows[key]
    {
      if key.0 in f.sets { SameRow(f, g, key); }
    }
    SameMap(f.rows, g.rows);
  }

  lemma SameValues(f: Flat, g: Flat)
    requires SameGroups(f, g)
    ensures f.values == g.values
  {
    hide GroupOf, Lists;
    forall key: (int, int, int)
      ensures key in f.values <==> key in g.values
      ensures key in f.values ==> f.values[key] == g.values[key]
    {
      if key.0 in f.sets { SameValue(f, g, key); }
    }
    SameMap(f.values, g.values);
  }

  lemma SameValue(f: Flat, g: Flat, key: (int, int, int))
    requires key.0 in f.sets && key.0 in g.sets && GroupOf(f, key.0) == GroupOf(g, key.0)
    ensures key in f.values <==> key in g.values
    ensures key in f.values ==> f.values[key] == g.values[key]
  {
    hide MembersOf, RowsOf, ValuesOf, Lists;
    assert ValuesOf(f, key.0) == GroupOf(f, key.0).values == GroupOf(g, key.0).values == ValuesOf(g, key.0);
    ValuesOfAt(f, key.0, (key.1, key.2));
    ValuesOfAt(g, key.0, (key.1, key.2));
  }

  lemma SameMember(f: Flat, g: Flat, key: (int, int))
    requires key.0 in f.sets && key.0 in g.sets && GroupOf(f, key.0) == GroupOf(g, key.0)
    ensures key in f.members <==> key in g.members
    ensures key in f.members ==> f.members[key] == g.members[key]
  {
    MembersJoined(f, key.0);
    MembersJoined(g, key.0);
    hide MembersOf, RowsOf, ValuesOf, Lists;
    assert MembersOf(f, key.0) == GroupOf(f, key.0).members == GroupOf(g, key.0).members == MembersOf(g, key.0);
    if key in f.members { assert Member(key.1, f.members[key]) in MembersOf(f, key.0); }
    if key in g.members { assert Member(key.1, g.members[key]) in MembersOf(g, key.0); }
  }

  lemma SameRow(f: Flat, g: Flat, key: (int, int))
    requires key.0 in f.sets && key.0 in g.sets && GroupOf(f, key.0) == GroupOf(g, key.0)
    ensures key in f.rows <==> key in g.rows
    ensures key in f.rows ==> f.rows[key] == g.rows[key]
  {
    RowsJoined(f, key.0);
    RowsJoined(g, key.0);
    hide MembersOf, RowsOf, ValuesOf, Lists;
    assert RowsOf(f, key.0) == GroupOf(f, key.0).rows == GroupOf(g, key.0).rows == RowsOf(g, key.0);
    if key in f.rows { assert TableRow(key.1, f.rows[key]) in RowsOf(f, key.0); }
    if key in g.rows { assert TableRow(key.1, g.rows[key]) in RowsOf(g, key.0); }
  }

  /** The groups of tables that keep their foreign keys hold sets exactly when the tables are what
      storing these sets leaves. */
  lemma FlatRoundTrip(f: Flat, sets: seq<LinkedSet>)
    requires Referenced(f)
    ensures AllHold(Grouped(f), sets) <==> ValidSets(sets) && f == Inserted(sets)
  {
    hide Referenced, Grouped, Inserted, StoredSets, Tables;
    if AllHold(Grouped(f), sets) { AllHoldValid(Grouped(f), sets); }
    if ValidSets(sets) {
      hide ValidSets, AllHold;
      GroupedTables(f);
      InsertedReferenced(sets);
      InsertedGrouped(sets);
      SetsRoundTrip(sets, Grouped(f));
      if Grouped(f) == StoredSets(sets) { GroupedDetermines(f, Inserted(sets)); }
    }
  }

  lemma AllHoldValid(stored: seq<StoredSet>, sets: seq<LinkedSet>)
    requires AllHold(stored, sets)
    ensures ValidSets(sets)
  {
    forall i | 0 <= i < |sets| ensures ValidSet(sets[i]) { assert Holds(stored[i], sets[i]); }
  }

  /** Decoding what the query returns succeeds exactly when the tables are what storing the decoded sets
      leaves; so valid sets that are stored come back as they were. */
  method ReadLinkedSets(rows: seq<JoinedRow>, ghost f: Flat) returns (r: Result<seq<LinkedSet>>)
    requires Referenced(f) && Answers(f, rows)
    ensures forall sets :: r == Ok(sets) <==> ValidSets(sets) && f == Inserted(sets)
  {
    hide Referenced, Answers, Grouped, Inserted, Tables, AllHold, ValidSets;
    QueryIsAllRows(f, rows);
    GroupedTables(f);
    r := LinkedSets(rows, Grouped(f));
    forall sets ensures r == Ok(sets) <==> ValidSets(sets) && f == Inserted(sets) { FlatRoundTrip(f, sets); }
  }

  /** The query on what storing valid sets leaves, which is possible for them: its answer, and only it,
      is the numbered cross joins in order. */
  lemma StoredQuery(sets: seq<LinkedSet>, rows: seq<JoinedRow>)
    requires ValidSets(sets)
    ensures Referenced(Inserted(sets))
    ensures Answers(Inserted(sets), rows) <==> rows == AllRows(StoredSets(sets))
  {
    hide Referenced, Answers, Grouped, Inserted, AllRows, StoredSets, ValidSets;
    InsertedReferenced(sets);
    InsertedGrouped(sets);
    QueryIsAllRows(Inserted(sets), rows);
  }
}
