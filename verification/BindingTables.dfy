/** The two tables that numbered bindings are stored in, the query that joins them, and the whole way
    there and back, for image bindings and for parameter intents. */
module BindingTables {
  import opened Common
  import P = Parameters
  import opened SavedBatchRows
  import opened Positions

  // ---------- tables and query ----------

  /** The rows of one Saved Batch by the rest of their primary keys: (binding) and (binding, value). */
  datatype Tables<H, V> = Tables(bindings: map<nat, H>, values: map<(int, int), V>)

  /** The foreign key. */
  ghost predicate Referenced<H, V>(f: Tables<H, V>) { forall key :: key in f.values ==> key.0 in f.bindings }

  ghost predicate JoinsCell<H, V>(f: Tables<H, V>, binding: int, c: Option<Cell<V>>) {
    match c
    case Some(cell) => (binding, cell.position) in f.values && f.values[(binding, cell.position)] == cell.value
    case None => forall key :: key in f.values ==> key.0 != binding
  }

  /** x is a row of binding LEFT JOIN value. */
  ghost predicate Joins<H, V>(f: Tables<H, V>, x: Joined<H, V>) {
    x.position in f.bindings && f.bindings[x.position] == x.head && JoinsCell(f, x.position, x.cell)
  }

  function CellPosition<H, V>(x: Joined<H, V>): Option<int> {
    if x.cell.Some? then Some(x.cell.value.position) else None
  }

  /** ORDER BY binding position, value position. */
  predicate Earlier<H, V>(a: Joined<H, V>, b: Joined<H, V>) {
    a.position < b.position || (a.position == b.position && Less(CellPosition(a), CellPosition(b)))
  }

  ghost predicate InOrder<H, V>(rows: seq<Joined<H, V>>) {
    forall i, j :: 0 <= i < j < |rows| ==> Earlier(rows[i], rows[j])
  }

  /** What the query returns. */
  ghost predicate Answers<H(!new), V(!new)>(f: Tables<H, V>, rows: seq<Joined<H, V>>) {
    InOrder(rows) && forall x :: x in rows <==> Joins(f, x)
  }

  // ---------- the tables, grouped ----------

  ghost function CellsAt<H, V>(f: Tables<H, V>, binding: int): (cells: seq<Cell<V>>)
    ensures |cells| == |Listed(Under(f.values, binding))|
    ensures forall i :: 0 <= i < |cells| ==>
      JoinsCell(f, binding, Some(cells[i])) && cells[i].position == Listed(Under(f.values, binding))[i]
  {
    var positions := Listed(Under(f.values, binding));
    seq(|positions|, i requires 0 <= i < |positions| =>
      assert positions[i] in positions;
      Cell(positions[i], f.values[(binding, positions[i])]))
  }

  lemma CellsJoined<H, V>(f: Tables<H, V>, binding: int)
    ensures forall c :: c in CellsAt(f, binding) <==> JoinsCell(f, binding, Some(c))
    ensures CellsAt(f, binding) == [] <==> JoinsCell(f, binding, None)
  {
    var positions := Listed(Under(f.values, binding));
    forall c | JoinsCell(f, binding, Some(c)) ensures c in CellsAt(f, binding) {
      assert c.position in positions;
      var i :| 0 <= i < |positions| && positions[i] == c.position;
      assert CellsAt(f, binding)[i] == c;
    }
    forall c | c in CellsAt(f, binding) ensures JoinsCell(f, binding, Some(c)) {
      var i :| 0 <= i < |CellsAt(f, binding)| && CellsAt(f, binding)[i] == c;
    }
    NoneUnder(f.values, binding);
  }

  ghost function GroupAt<H, V>(f: Tables<H, V>, binding: int): Group<H, V>
    requires binding in f.bindings
  {
    Group(binding, f.bindings[binding], CellsAt(f, binding))
  }

  /** The rows of the two tables, one group per binding. */
  ghost function Grouped<H, V>(f: Tables<H, V>): (groups: seq<Group<H, V>>)
    ensures |groups| == |Listed(f.bindings.Keys)|
    ensures forall i :: 0 <= i < |groups| ==>
      groups[i].position == Listed(f.bindings.Keys)[i]
      && groups[i].position in f.bindings && groups[i] == GroupAt(f, groups[i].position)
  {
    var positions := Listed(f.bindings.Keys);
    seq(|positions|, i requires 0 <= i < |positions| => assert positions[i] in positions; GroupAt(f, positions[i]))
  }

  lemma GroupedAscending<H, V>(f: Tables<H, V>)
    ensures Ascending(Grouped(f))
  {
    forall i | 0 <= i < |Grouped(f)| ensures AscendingCells(Grouped(f)[i].cells) {
      assert Grouped(f)[i].cells == CellsAt(f, Grouped(f)[i].position);
    }
  }

  // ---------- the query's result ----------

  /** x combines the binding with one of its values, or with none where it has none. */
  ghost predicate Combines<H, V>(g: Group<H, V>, x: Joined<H, V>) {
    x.position == g.position && x.head == g.head && if x.cell.None? then g.cells == [] else x.cell.value in g.cells
  }

  lemma GroupCombines<H, V>(g: Group<H, V>, x: Joined<H, V>)
    ensures x in GroupRows(g) <==> Combines(g, x)
  {
    if Combines(g, x) && x.cell.Some? {
      var k :| 0 <= k < |g.cells| && g.cells[k] == x.cell.value;
      assert GroupRows(g)[k] == x;
    }
  }

  lemma {:induction false} RowsCombine<H, V>(groups: seq<Group<H, V>>, x: Joined<H, V>)
    ensures x in Rows(groups) <==> exists i :: 0 <= i < |groups| && Combines(groups[i], x)
  {
    hide GroupRows, Combines;
    if groups != [] {
      var init, last := groups[..|groups| - 1], groups[|groups| - 1];
      RowsCombine(init, x);
      GroupCombines(last, x);
      if i :| 0 <= i < |init| && Combines(init[i], x) { assert Combines(groups[i], x); }
      if i :| 0 <= i < |groups| && Combines(groups[i], x) {
        if i < |init| { assert Combines(init[i], x); }
      }
    }
  }

  lemma GroupJoins<H, V>(f: Tables<H, V>, binding: int, x: Joined<H, V>)
    requires binding in f.bindings
    ensures Combines(GroupAt(f, binding), x) <==> x.position == binding && Joins(f, x)
  {
    CellsJoined(f, binding);
    hide CellsAt, JoinsCell;
  }

  lemma JoinsOwner<H, V>(f: Tables<H, V>, x: Joined<H, V>)
    requires Joins(f, x)
    ensures x.position in f.bindings
  {
  }

  lemma GroupedJoins<H, V>(f: Tables<H, V>, x: Joined<H, V>)
    ensures x in Rows(Grouped(f)) <==> Joins(f, x)
  {
    hide Rows, Combines, Joins, GroupAt;
    var groups := Grouped(f);
    RowsCombine(groups, x);
    forall i | 0 <= i < |groups| ensures Combines(groups[i], x) <==> x.position == groups[i].position && Joins(f, x) {
      GroupJoins(f, groups[i].position, x);
    }
    if Joins(f, x) {
      JoinsOwner(f, x);
      var positions := Listed(f.bindings.Keys);
      assert x.position in positions;
      var i :| 0 <= i < |positions| && positions[i] == x.position;
      assert groups[i].position == x.position;
    }
  }

  lemma {:induction false} RowsInOrder<H, V>(groups: seq<Group<H, V>>)
    requires Ascending(groups)
    ensures InOrder(Rows(groups))
  {
    if groups != [] {
      var init, last := groups[..|groups| - 1], groups[|groups| - 1];
      assert Ascending(init);
      RowsInOrder(init);
      GroupInOrder(last);
      forall x, y | x in Rows(init) && y in GroupRows(last) ensures Earlier(x, y) {
        RowsCombine(init, x);
        GroupCombines(last, y);
      }
      InOrderAppend(Rows(init), GroupRows(last));
    }
  }

  lemma GroupInOrder<H, V>(g: Group<H, V>)
    requires AscendingCells(g.cells)
    ensures InOrder(GroupRows(g))
  {
  }

  lemma InOrderAppend<H, V>(a: seq<Joined<H, V>>, b: seq<Joined<H, V>>)
    requires InOrder(a) && InOrder(b) && forall x, y :: x in a && y in b ==> Earlier(x, y)
    ensures InOrder(a + b)
  {
    hide Earlier;
    forall i, j | 0 <= i < j < |a + b| ensures Earlier((a + b)[i], (a + b)[j]) {
      if i < |a| <= j { assert a[i] in a && b[j - |a|] in b; }
    }
  }

  /** The query returns exactly the rows of the groups, in this order. */
  lemma QueryIsRows<H(!new), V(!new)>(f: Tables<H, V>, rows: seq<Joined<H, V>>)
    ensures Answers(f, rows) <==> rows == Rows(Grouped(f))
  {
    hide Rows, Joins, Ascending;
    GroupedAscending(f);
    RowsInOrder(Grouped(f));
    forall x ensures x in Rows(Grouped(f)) <==> Joins(f, x) { GroupedJoins(f, x); }
    if Answers(f, rows) {
      assert Strictly(rows, Earlier) && Strictly(Rows(Grouped(f)), Earlier);
      OneStrictList(rows, Rows(Grouped(f)), Earlier);
    }
  }

  // ---------- storing ----------

  /** The two inserts: one row per binding, and one per value, binding by binding. */
  function Inserted<H, V>(groups: seq<Group<H, V>>): Tables<H, V>
    requires Placed(groups)
  {
    Tables(BindingTable(groups), ValueTable(groups))
  }

  /** Positions are those of rows: the schema has them positive. */
  ghost predicate Placed<H, V>(groups: seq<Group<H, V>>) {
    Ascending(groups) && forall i :: 0 <= i < |groups| ==> groups[i].position >= 1
  }

  function BindingTable<H, V>(groups: seq<Group<H, V>>): map<nat, H>
    requires forall i :: 0 <= i < |groups| ==> groups[i].position >= 1
  {
    if groups == [] then map[]
    else
      var last := groups[|groups| - 1];
      BindingTable(groups[..|groups| - 1])[last.position := last.head]
  }

  function ValueTable<H, V>(groups: seq<Group<H, V>>): map<(int, int), V>
    requires Ascending(groups)
  {
    if groups == [] then map[]
    else ValueTable(groups[..|groups| - 1]) + OwnedValues(groups[|groups| - 1])
  }

  function OwnedValues<H, V>(g: Group<H, V>): map<(int, int), V>
    requires AscendingCells(g.cells)
  {
    map k | 0 <= k < |g.cells| :: (g.position, g.cells[k].position) := g.cells[k].value
  }

  lemma {:induction false} BindingTableAt<H, V>(groups: seq<Group<H, V>>, p: int)
    requires Placed(groups)
    ensures p in BindingTable(groups) ==> exists i :: 0 <= i < |groups| && groups[i].position == p
    ensures forall i :: 0 <= i < |groups| && groups[i].position == p ==>
      p in BindingTable(groups) && BindingTable(groups)[p] == groups[i].head
  {
    if groups != [] {
      var init := groups[..|groups| - 1];
      BindingTableAt(init, p);
      if i :| 0 <= i < |init| && init[i].position == p { assert groups[i].position == p; }
    }
  }

  lemma OwnedAt<H, V>(g: Group<H, V>, p: int, c: Cell<V>)
    requires AscendingCells(g.cells)
    ensures (p, c.position) in OwnedValues(g) && OwnedValues(g)[(p, c.position)] == c.value
      <==> p == g.position && c in g.cells
  {
  }

  lemma {:induction false} OwnerOf<H, V>(groups: seq<Group<H, V>>, key: (int, int))
    requires Ascending(groups) && key in ValueTable(groups)
    ensures exists i :: 0 <= i < |groups| && groups[i].position == key.0
  {
    var init, last := groups[..|groups| - 1], groups[|groups| - 1];
    if key in ValueTable(init) {
      OwnerOf(init, key);
      var i :| 0 <= i < |init| && init[i].position == key.0;
      assert groups[i].position == key.0;
    } else {
      assert last.position == key.0;
    }
  }

  ghost predicate HasValue<H, V>(groups: seq<Group<H, V>>, p: int, c: Cell<V>) {
    exists i :: 0 <= i < |groups| && groups[i].position == p && c in groups[i].cells
  }

  lemma HasValueLast<H, V>(groups: seq<Group<H, V>>, p: int, c: Cell<V>)
    requires Ascending(groups) && groups != []
    ensures var init, last := groups[..|groups| - 1], groups[|groups| - 1];
      HasValue(groups, p, c) <==> if last.position == p then c in last.cells else HasValue(init, p, c)
  {
    var init, last := groups[..|groups| - 1], groups[|groups| - 1];
    if i :| 0 <= i < |groups| && groups[i].position == p && c in groups[i].cells {
      if i < |init| { assert init[i].position == p && c in init[i].cells; }
    }
    if i :| 0 <= i < |init| && init[i].position == p && c in init[i].cells {
      assert groups[i].position == p && c in groups[i].cells;
    }
    if last.position == p && c in last.cells { assert groups[|groups| - 1].position == p; }
  }

  /** A value row is in the table exactly when its group has the value. */
  lemma {:induction false} ValueTableAt<H, V>(groups: seq<Group<H, V>>, p: int, c: Cell<V>)
    requires Ascending(groups)
    ensures (p, c.position) in ValueTable(groups) && ValueTable(groups)[(p, c.position)] == c.value
      <==> HasValue(groups, p, c)
  {
    if groups != [] {
      var init, last := groups[..|groups| - 1], groups[|groups| - 1];
      assert Ascending(init);
      ValueTableAt(init, p, c);
      HasValueLast(groups, p, c);
      OwnedAt(last, p, c);
      if p == last.position {
        NoOwner(init, p, c.position);
      } else {
        assert (p, c.position) !in OwnedValues(last);
      }
    }
  }

  lemma NoOwner<H, V>(groups: seq<Group<H, V>>, p: int, q: int)
    requires Ascending(groups) && forall i :: 0 <= i < |groups| ==> groups[i].position != p
    ensures (p, q) !in ValueTable(groups)
  {
    if (p, q) in ValueTable(groups) { OwnerOf(groups, (p, q)); }
  }

  predicate CellBefore<V>(a: Cell<V>, b: Cell<V>) { a.position < b.position }

  predicate GroupBefore<H, V>(a: Group<H, V>, b: Group<H, V>) { a.position < b.position }

  lemma InsertedCells<H, V>(groups: seq<Group<H, V>>, i: nat)
    requires Placed(groups) && i < |groups|
    ensures CellsAt(Inserted(groups), groups[i].position) == groups[i].cells
  {
    var f, p := Inserted(groups), groups[i].position;
    CellsJoined(f, p);
    forall c ensures c in CellsAt(f, p) <==> c in groups[i].cells {
      ValueTableAt(groups, p, c);
      assert JoinsCell(f, p, Some(c)) <==> HasValue(groups, p, c);
      if k :| 0 <= k < |groups| && groups[k].position == p && c in groups[k].cells { assert k == i; }
    }
    CellsAscend(f, p);
    assert Strictly(groups[i].cells, CellBefore);
    OneStrictList(CellsAt(f, p), groups[i].cells, CellBefore);
  }

  lemma CellsAscend<H, V>(f: Tables<H, V>, binding: int)
    ensures Strictly(CellsAt(f, binding), CellBefore)
  {
  }

  /** Storing groups stores them: the tables, grouped, are the groups again. */
  lemma InsertedGrouped<H, V>(groups: seq<Group<H, V>>)
    requires Placed(groups)
    ensures Grouped(Inserted(groups)) == groups
  {
    var f := Inserted(groups);
    var found := Grouped(f);
    forall g ensures g in found <==> g in groups { InsertedGroup(groups, g); }
    GroupedAscending(f);
    assert Strictly(found, GroupBefore) && Strictly(groups, GroupBefore);
    OneStrictList(found, groups, GroupBefore);
  }

  lemma InsertedGroup<H, V>(groups: seq<Group<H, V>>, g: Group<H, V>)
    requires Placed(groups)
    ensures g in Grouped(Inserted(groups)) <==> g in groups
  {
    var f := Inserted(groups);
    var found := Grouped(f);
    BindingTableAt(groups, g.position);
    if g in found {
      var i :| 0 <= i < |found| && found[i] == g;
      var k :| 0 <= k < |groups| && groups[k].position == g.position;
      InsertedCells(groups, k);
      assert g == groups[k];
    }
    if g in groups {
      var k :| 0 <= k < |groups| && groups[k] == g;
      InsertedCells(groups, k);
      GroupAtFound(f, g.position);
    }
  }

  lemma GroupAtFound<H, V>(f: Tables<H, V>, binding: int)
    requires binding in f.bindings
    ensures GroupAt(f, binding) in Grouped(f)
  {
    var positions := Listed(f.bindings.Keys);
    assert binding in positions;
    var i :| 0 <= i < |positions| && positions[i] == binding;
    assert Grouped(f)[i] == GroupAt(f, binding);
  }

  lemma InsertedReferenced<H, V>(groups: seq<Group<H, V>>)
    requires Placed(groups)
    ensures Referenced(Inserted(groups))
  {
    var f := Inserted(groups);
    forall key | key in f.values ensures key.0 in f.bindings {
      OwnerOf(groups, key);
      BindingTableAt(groups, key.0);
    }
  }

  /** No row of the two tables is lost on the way into groups. */
  lemma GroupedDetermines<H, V>(f: Tables<H, V>, g: Tables<H, V>)
    requires Referenced(f) && Referenced(g) && Grouped(f) == Grouped(g)
    ensures f == g
  {
    hide Grouped, GroupAt, Referenced;
    forall b: nat
      ensures b in f.bindings <==> b in g.bindings
      ensures b in f.bindings ==> GroupAt(f, b) == GroupAt(g, b)
    {
      if b in f.bindings { GroupAgrees(f, g, b); }
      if b in g.bindings { GroupAgrees(g, f, b); }
    }
    SameTables(f, g);
  }

  lemma GroupAgrees<H, V>(f: Tables<H, V>, g: Tables<H, V>, b: nat)
    requires Grouped(f) == Grouped(g) && b in f.bindings
    ensures b in g.bindings && GroupAt(f, b) == GroupAt(g, b)
  {
    GroupAtFound(f, b);
    hide GroupAt, CellsAt, Lists;
    var i :| 0 <= i < |Grouped(f)| && Grouped(f)[i] == GroupAt(f, b);
    assert Grouped(g)[i] == GroupAt(g, Grouped(g)[i].position);
    GroupPosition(f, b);
  }

  lemma GroupPosition<H, V>(f: Tables<H, V>, b: nat)
    requires b in f.bindings
    ensures GroupAt(f, b).position == b
  {
  }

  lemma SameTables<H, V>(f: Tables<H, V>, g: Tables<H, V>)
    requires Referenced(f) && Referenced(g)
    requires forall b: nat :: b in f.bindings <==> b in g.bindings
    requires forall b: nat :: b in f.bindings ==> GroupAt(f, b) == GroupAt(g, b)
    ensures f == g
  {
    forall b | b in f.bindings ensures f.bindings[b] == g.bindings[b] { assert GroupAt(f, b) == GroupAt(g, b); }
    SameMap(f.bindings, g.bindings);
    hide CellsAt, Lists;
    forall key: (int, int)
      ensures key in f.values <==> key in g.values
      ensures key in f.values ==> f.values[key] == g.values[key]
    {
      if key.0 in f.bindings { SameValue(f, g, key); }
    }
    SameMap(f.values, g.values);
  }

  lemma SameValue<H, V>(f: Tables<H, V>, g: Tables<H, V>, key: (int, int))
    requires key.0 in f.bindings && key.0 in g.bindings && GroupAt(f, key.0) == GroupAt(g, key.0)
    ensures key in f.values <==> key in g.values
    ensures key in f.values ==> f.values[key] == g.values[key]
  {
    CellsJoined(f, key.0);
    CellsJoined(g, key.0);
    hide CellsAt, Lists;
    assert CellsAt(f, key.0) == GroupAt(f, key.0).cells == GroupAt(g, key.0).cells == CellsAt(g, key.0);
    if key in f.values { assert Cell(key.1, f.values[key]) in CellsAt(f, key.0); }
    if key in g.values { assert Cell(key.1, g.values[key]) in CellsAt(g, key.0); }
  }

  /** For any tables that keep their foreign key: they group to these groups exactly when they are what
      storing the groups leaves. */
  lemma GroupedIsInserted<H, V>(f: Tables<H, V>, groups: seq<Group<H, V>>)
    requires Referenced(f) && Placed(groups)
    ensures Grouped(f) == groups <==> f == Inserted(groups)
  {
    hide Grouped, Inserted, Referenced;
    InsertedGrouped(groups);
    InsertedReferenced(groups);
    if Grouped(f) == groups { GroupedDetermines(f, Inserted(groups)); }
  }

  // ---------- image bindings and parameter intents ----------

  /** What storing image bindings leaves in its two tables. */
  function ImageTables(bindings: seq<ImageBinding>): Tables<string, Option<string>> {
    ImagesPlaced(bindings);
    Inserted(ImageGroups(bindings))
  }

  lemma ImagesPlaced(bindings: seq<ImageBinding>)
    ensures Placed(ImageGroups(bindings))
  {
  }

  /** What storing parameter intents leaves in its two tables. */
  function IntentTables(intents: seq<P.Intent>): Tables<Head, Stored> {
    IntentsPlaced(intents);
    Inserted(IntentGroups(intents))
  }

  lemma IntentsPlaced(intents: seq<P.Intent>)
    ensures Placed(IntentGroups(intents))
  {
  }

  /** Tables that keep their foreign key read as these image bindings exactly when they are what storing
      them leaves. */
  lemma ImagesRoundTrip(f: Tables<string, Option<string>>, bindings: seq<ImageBinding>)
    requires Referenced(f) && ValidImages(bindings)
    ensures ReadGroups(Grouped(f), ReadText, ReadAsset, ImageOf) == Ok(bindings) <==> f == ImageTables(bindings)
  {
    hide Referenced, Grouped, Inserted, ValidImages, ReadGroups;
    ImagesPlaced(bindings);
    GroupedIsInserted(f, ImageGroups(bindings));
    if Grouped(f) == ImageGroups(bindings) { ImagesReadBack(Grouped(f), bindings); }
    if ReadGroups(Grouped(f), ReadText, ReadAsset, ImageOf) == Ok(bindings) { ImagesRead(Grouped(f), bindings); }
  }

  /** The same for parameter intents, explicit values and ranges alike; a range has no value rows. */
  lemma IntentsRoundTrip(f: Tables<Head, Stored>, intents: seq<P.Intent>)
    requires Referenced(f) && ValidIntents(intents)
    ensures ReadGroups(Grouped(f), ReadHead, ReadScalar, IntentOf) == Ok(intents) <==> f == IntentTables(intents)
  {
    hide Referenced, Grouped, Inserted, ValidIntents, ReadGroups;
    IntentsPlaced(intents);
    GroupedIsInserted(f, IntentGroups(intents));
    if Grouped(f) == IntentGroups(intents) { IntentsReadBack(Grouped(f), intents); }
    if ReadGroups(Grouped(f), ReadHead, ReadScalar, IntentOf) == Ok(intents) { IntentsRead(Grouped(f), intents); }
  }

  /** Decoding what the query returns gives image bindings exactly when they are valid and the tables are
      what storing them leaves; so valid bindings that are stored come back as they were. */
  method ReadImageBindings(rows: seq<Joined<string, Option<string>>>, ghost f: Tables<string, Option<string>>)
    returns (r: Result<seq<ImageBinding>>)
    requires Referenced(f) && Answers(f, rows)
    ensures forall bindings :: r == Ok(bindings) <==> ValidImages(bindings) && f == ImageTables(bindings)
  {
    hide Referenced, Answers, Grouped, Inserted, ValidImages;
    QueryIsRows(f, rows);
    GroupedAscending(f);
    r := ImageBindings(rows, Grouped(f));
    forall bindings ensures r == Ok(bindings) <==> ValidImages(bindings) && f == ImageTables(bindings) {
      ImagesPlaced(bindings);
      GroupedIsInserted(f, ImageGroups(bindings));
    }
  }

  /** The same for parameter intents. */
  method ReadParameterBindings(rows: seq<Joined<Head, Stored>>, ghost f: Tables<Head, Stored>)
    returns (r: Result<seq<P.Intent>>)
    requires Referenced(f) && Answers(f, rows)
    ensures forall intents :: r == Ok(intents) <==> ValidIntents(intents) && f == IntentTables(intents)
  {
    hide Referenced, Answers, Grouped, Inserted, ValidIntents;
    QueryIsRows(f, rows);
    GroupedAscending(f);
    r := ParameterBindings(rows, Grouped(f));
    forall intents ensures r == Ok(intents) <==> ValidIntents(intents) && f == IntentTables(intents) {
      IntentsPlaced(intents);
      GroupedIsInserted(f, IntentGroups(intents));
    }
  }
}
