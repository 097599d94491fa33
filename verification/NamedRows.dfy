/** Roles and permissions as their repositories list them: the active rows of one application,
    roles sorted by name, cut off at a limit; and when a name is found in such a list. */
module NamedRows {
  import opened Text

  type Id = nat

  datatype Row = Row(id: Id, app: Id, name: string, active: bool)

  function ActiveOf(rows: seq<Row>, app: Id): seq<Row> {
    if rows == [] then []
    else (if rows[0].app == app && rows[0].active then [rows[0]] else []) + ActiveOf(rows[1..], app)
  }

  /** The first row of the name. */
  function FirstNamed(rows: seq<Row>, name: string): Option<Id> {
    if rows == [] then None
    else if rows[0].name == name then Some(rows[0].id)
    else FirstNamed(rows[1..], name)
  }

  function LastNamed(rows: seq<Row>, name: string): Option<Id> {
    if rows == [] then None
    else if rows[|rows| - 1].name == name then Some(rows[|rows| - 1].id)
    else LastNamed(rows[..|rows| - 1], name)
  }

  function Take(rows: seq<Row>, limit: nat): seq<Row> {
    if |rows| <= limit then rows else rows[..limit]
  }

  /** How many rows have a name that sorts before this one. */
  function Before(rows: seq<Row>, name: string): nat {
    if rows == [] then 0
    else (if Less(rows[0].name, name) then 1 else 0) + Before(rows[1..], name)
  }

  // ---------------------------------------------------------------- the stable sort

  function Insert(row: Row, sorted: seq<Row>): seq<Row> {
    if sorted == [] || !Less(sorted[0].name, row.name) then [row] + sorted
    else [sorted[0]] + Insert(row, sorted[1..])
  }

  function SortByName(rows: seq<Row>): seq<Row> {
    if rows == [] then [] else Insert(rows[0], SortByName(rows[1..]))
  }

  predicate IsSorted(rows: seq<Row>) {
    forall i, j :: 0 <= i < j < |rows| ==> !Less(rows[j].name, rows[i].name)
  }

  lemma {:induction false} InsertSorted(row: Row, sorted: seq<Row>)
    requires IsSorted(sorted)
    ensures IsSorted(Insert(row, sorted))
    ensures multiset(Insert(row, sorted)) == multiset(sorted) + multiset{row}
  {
    if sorted == [] {
    } else if !Less(sorted[0].name, row.name) {
      forall j | 0 <= j < |sorted| ensures !Less(sorted[j].name, row.name) {
        LessIrreflexive(sorted[0].name);
        NotLessTransitive(sorted[j].name, sorted[0].name, row.name);
      }
    } else {
      InsertSorted(row, sorted[1..]);
      var rest := Insert(row, sorted[1..]);
      assert sorted == [sorted[0]] + sorted[1..];
      forall j | 0 <= j < |rest| ensures !Less(rest[j].name, sorted[0].name) {
        assert rest[j] in multiset(rest);
        if rest[j] == row {
          NotBothWays(sorted[0].name, row.name);
        } else {
          assert rest[j] in sorted[1..];
        }
      }
    }
  }

  lemma NotBothWays(a: string, b: string)
    requires Less(a, b)
    ensures !Less(b, a)
  {
    if Less(b, a) {
      LessTransitive(a, b, a);
      LessIrreflexive(a);
    }
  }

  lemma {:induction false} SortSorts(rows: seq<Row>)
    ensures IsSorted(SortByName(rows)) && multiset(SortByName(rows)) == multiset(rows)
  {
    if rows != [] {
      SortSorts(rows[1..]);
      InsertSorted(rows[0], SortByName(rows[1..]));
      assert rows == [rows[0]] + rows[1..];
    }
  }

  // ---------------------------------------------------------------- found within the limit

  lemma {:induction false} NoneBefore(sorted: seq<Row>, name: string)
    requires IsSorted(sorted) && (sorted == [] || !Less(sorted[0].name, name))
    ensures Before(sorted, name) == 0
  {
    if sorted != [] {
      if |sorted| > 1 { NotLessTransitive(sorted[1].name, sorted[0].name, name); }
      assert IsSorted(sorted[1..]);
      NoneBefore(sorted[1..], name);
    }
  }

  /** In a sorted list a name is found within the limit exactly when fewer rows sort before it. */
  lemma {:induction false} FoundInSorted(sorted: seq<Row>, name: string, limit: nat)
    requires IsSorted(sorted)
    ensures FirstNamed(Take(sorted, limit), name) ==
            if Before(sorted, name) < limit then FirstNamed(sorted, name) else None
    decreases |sorted|
  {
    if sorted == [] {
    } else if Less(sorted[0].name, name) {
      LessIrreflexive(name);
      if limit > 0 {
        FoundInSorted(sorted[1..], name, limit - 1);
        assert Take(sorted, limit) == [sorted[0]] + Take(sorted[1..], limit - 1);
        assert Take(sorted, limit)[1..] == Take(sorted[1..], limit - 1);
      }
    } else {
      NoneBefore(sorted, name);
      if sorted[0].name == name {
        if limit > 0 { assert Take(sorted, limit)[0] == sorted[0]; }
      } else {
        NotNamed(sorted, name);
        NotNamedInTake(sorted, name, limit);
      }
    }
  }

  lemma {:induction false} NotNamed(sorted: seq<Row>, name: string)
    requires IsSorted(sorted) && sorted != [] && !Less(sorted[0].name, name) && sorted[0].name != name
    ensures forall i :: 0 <= i < |sorted| ==> sorted[i].name != name
  {
    LessExactlyOne(sorted[0].name, name);
    assert forall i :: 0 < i < |sorted| ==> !Less(sorted[i].name, sorted[0].name);
  }

  lemma {:induction false} NotNamedInTake(rows: seq<Row>, name: string, limit: nat)
    requires forall i :: 0 <= i < |rows| ==> rows[i].name != name
    ensures FirstNamed(rows, name) == None && FirstNamed(Take(rows, limit), name) == None
  {
    NoneNamed(rows, name);
    NoneNamed(Take(rows, limit), name);
  }

  lemma {:induction false} NoneNamed(rows: seq<Row>, name: string)
    ensures FirstNamed(rows, name) == None <==> forall i :: 0 <= i < |rows| ==> rows[i].name != name
  {
    if rows != [] {
      NoneNamed(rows[1..], name);
      assert rows == [rows[0]] + rows[1..];
    }
  }

  lemma {:induction false} InsertFinds(row: Row, sorted: seq<Row>, name: string)
    requires IsSorted(sorted)
    ensures FirstNamed(Insert(row, sorted), name) == FirstNamed([row] + sorted, name)
    ensures Before(Insert(row, sorted), name) == Before([row] + sorted, name)
  {
    if sorted != [] && Less(sorted[0].name, row.name) {
      var rest := sorted[1..];
      InsertFinds(row, rest, name);
      assert Insert(row, sorted)[1..] == Insert(row, rest);
      assert ([row] + sorted)[1..] == sorted && ([row] + rest)[1..] == rest;
      LessIrreflexive(row.name);
    }
  }

  lemma {:induction false} SortFinds(rows: seq<Row>, name: string)
    ensures FirstNamed(SortByName(rows), name) == FirstNamed(rows, name)
    ensures Before(SortByName(rows), name) == Before(rows, name)
  {
    if rows != [] {
      SortFinds(rows[1..], name);
      SortSorts(rows[1..]);
      var sorted := SortByName(rows[1..]);
      InsertFinds(rows[0], sorted, name);
      assert ([rows[0]] + sorted)[1..] == sorted;
    }
  }

  /** What looking a name up in the sorted, cut-off list comes to. */
  lemma FoundInListing(rows: seq<Row>, name: string, limit: nat)
    ensures FirstNamed(Take(SortByName(rows), limit), name) ==
            if Before(rows, name) < limit then FirstNamed(rows, name) else None
  {
    SortSorts(rows);
    SortFinds(rows, name);
    FoundInSorted(SortByName(rows), name, limit);
  }

  // ---------------------------------------------------------------- what is found is there

  lemma {:induction false} FirstNamedRow(rows: seq<Row>, name: string) returns (row: Row)
    requires FirstNamed(rows, name).Some?
    ensures row in rows && row.name == name && row.id == FirstNamed(rows, name).value
  {
    row := rows[0];
    if rows[0].name != name { row := FirstNamedRow(rows[1..], name); }
  }

  lemma {:induction false} LastNamedRow(rows: seq<Row>, name: string) returns (row: Row)
    requires LastNamed(rows, name).Some?
    ensures row in rows && row.name == name && row.id == LastNamed(rows, name).value
  {
    row := rows[|rows| - 1];
    if row.name != name { row := LastNamedRow(rows[..|rows| - 1], name); }
  }

  lemma {:induction false} ActiveRow(rows: seq<Row>, app: Id, row: Row) returns (i: nat)
    requires row in ActiveOf(rows, app)
    ensures i < |rows| && rows[i] == row && row.app == app && row.active
  {
    i := 0;
    if !(rows[0] == row && row.app == app && row.active) {
      var j := ActiveRow(rows[1..], app, row);
      i := j + 1;
    }
  }

  // ---------------------------------------------------------------- a row more

  lemma {:induction false} ActiveAppend(rows: seq<Row>, row: Row, app: Id)
    ensures ActiveOf(rows + [row], app) == ActiveOf(rows, app) + if row.app == app && row.active then [row] else []
  {
    if rows == [] {
      assert ([] + [row])[1..] == [];
    } else {
      ActiveAppend(rows[1..], row, app);
      assert (rows + [row])[1..] == rows[1..] + [row];
    }
  }

  lemma {:induction false} FirstAppend(rows: seq<Row>, row: Row, name: string)
    ensures FirstNamed(rows + [row], name) ==
            if FirstNamed(rows, name).Some? then FirstNamed(rows, name)
            else if row.name == name then Some(row.id) else None
  {
    if rows == [] {
      assert ([] + [row])[1..] == [];
    } else {
      FirstAppend(rows[1..], row, name);
      assert (rows + [row])[1..] == rows[1..] + [row];
    }
  }

  lemma {:induction false} BeforeAppend(rows: seq<Row>, row: Row, name: string)
    ensures Before(rows + [row], name) == Before(rows, name) + if Less(row.name, name) then 1 else 0
  {
    if rows == [] {
      assert ([] + [row])[1..] == [];
    } else {
      BeforeAppend(rows[1..], row, name);
      assert (rows + [row])[1..] == rows[1..] + [row];
    }
  }

  /** A row whose name was not listed is found afterwards in the list, or else as the last one. */
  lemma JustListed(rows: seq<Row>, row: Row, limit: nat)
    requires row.active && FirstNamed(Take(SortByName(ActiveOf(rows, row.app)), limit), row.name) == None
    ensures var longer := ActiveOf(rows + [row], row.app);
            && LastNamed(longer, row.name) == Some(row.id)
            && FirstNamed(Take(SortByName(longer), limit), row.name) in {None, Some(row.id)}
  {
    var active := ActiveOf(rows, row.app);
    ActiveAppend(rows, row, row.app);
    BeforeAppend(active, row, row.name);
    LessIrreflexive(row.name);
    FirstAppend(active, row, row.name);
    FoundInListing(active, row.name, limit);
    FoundInListing(active + [row], row.name, limit);
  }

  lemma {:induction false} NoneActive(rows: seq<Row>, app: Id)
    requires forall i :: 0 <= i < |rows| ==> rows[i].app != app
    ensures ActiveOf(rows, app) == []
  {
    if rows != [] { NoneActive(rows[1..], app); }
  }
}
