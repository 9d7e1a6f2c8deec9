/**
 * The table-booking board: a row of numbered tables, a booking form that
 * books the selected table, and a block that appends new tables.
 *
 * The form's text boxes are modelled by what the handlers read from them:
 * the customer name as the raw string, and the two number boxes as
 * `Option<int>` (`None` for an empty box, `Some(n)` for a box holding `n`).
 */
module TableBooking {
  import opened Wrappers
  import opened JsStrings
  import opened JsArrays

  datatype Table = Table(id: int, booked: bool, bookedBy: string, members: int)

  /** `count` unbooked tables numbered `after + 1 .. after + count` (the `Array.from` blocks). */
  function FreshTables(after: nat, count: nat): (r: seq<Table>)
    ensures |r| == count
  {
    seq(count, i requires 0 <= i < count => Table(after + i + 1, false, "", 0))
  }

  /** Table `i` of the row carries the number `i + 1`. */
  predicate ConsecutiveIds(tables: seq<Table>)
  {
    forall i :: 0 <= i < |tables| ==> tables[i].id == i + 1
  }

  /** A free table carries no booking details. */
  predicate FreeTablesBlank(tables: seq<Table>)
  {
    forall i :: 0 <= i < |tables| && !tables[i].booked ==> tables[i].bookedBy == "" && tables[i].members == 0
  }

  /** Consecutive numbering makes the table numbers unique. */
  lemma ConsecutiveIdsUnique(tables: seq<Table>, i: int, j: int)
    requires ConsecutiveIds(tables)
    requires 0 <= i < |tables| && 0 <= j < |tables|
    ensures tables[i].id == tables[j].id <==> i == j
  {
  }

  /** The initial board: tables 1 to 8, all free. */
  lemma InitialTables()
    ensures |FreshTables(0, 8)| == 8
    ensures ConsecutiveIds(FreshTables(0, 8)) && FreshTablesFree(FreshTables(0, 8))
  {
  }

  predicate FreshTablesFree(tables: seq<Table>)
  {
    forall i :: 0 <= i < |tables| ==> !tables[i].booked && tables[i].bookedBy == "" && tables[i].members == 0
  }

  /** Appending fresh tables after the last number keeps the numbering `1..n` and the free tables blank. */
  lemma AppendFreshKeepsNumbering(tables: seq<Table>, count: nat)
    requires ConsecutiveIds(tables) && FreeTablesBlank(tables)
    ensures ConsecutiveIds(tables + FreshTables(|tables|, count))
    ensures FreeTablesBlank(tables + FreshTables(|tables|, count))
    ensures |tables + FreshTables(|tables|, count)| == |tables| + count
    ensures (tables + FreshTables(|tables|, count))[..|tables|] == tables
  {
    var r := tables + FreshTables(|tables|, count);
    forall i | 0 <= i < |r| ensures r[i].id == i + 1 {
      if i >= |tables| {
        assert r[i] == FreshTables(|tables|, count)[i - |tables|];
      }
    }
  }

  /** The per-table step of `bookTable`'s `map`: the selected table takes the booking. */
  function BookIfSelected(selected: int, name: string, members: int): Table -> Table
  {
    (t: Table) => if t.id == selected then t.(booked := true, bookedBy := name, members := members) else t
  }

  function MarkBooked(tables: seq<Table>, selected: int, name: string, members: int): seq<Table>
  {
    Map(tables, BookIfSelected(selected, name, members))
  }

  /** The map books every table with the selected number and leaves every other table as it was. */
  lemma MarkBookedEffect(tables: seq<Table>, selected: int, name: string, members: int)
    ensures |MarkBooked(tables, selected, name, members)| == |tables|
    ensures forall i :: 0 <= i < |tables| ==>
              MarkBooked(tables, selected, name, members)[i] ==
                if tables[i].id == selected then Table(selected, true, name, members) else tables[i]
  {
  }

  /** Under consecutive numbering exactly table `selected - 1` of the row changes. */
  lemma MarkBookedAt(tables: seq<Table>, selected: int, name: string, members: int)
    requires ConsecutiveIds(tables) && 1 <= selected <= |tables|
    ensures MarkBooked(tables, selected, name, members) ==
            tables[selected - 1 := Table(selected, true, name, members)]
  {
    MarkBookedEffect(tables, selected, name, members);
  }

  /** Booking one table keeps the numbering and leaves every free table blank. */
  lemma BookingKeepsInvariants(tables: seq<Table>, selected: int, name: string, members: int)
    requires ConsecutiveIds(tables) && FreeTablesBlank(tables) && 1 <= selected <= |tables|
    ensures ConsecutiveIds(tables[selected - 1 := Table(selected, true, name, members)])
    ensures FreeTablesBlank(tables[selected - 1 := Table(selected, true, name, members)])
    ensures SelectionFree(tables[selected - 1 := Table(selected, true, name, members)], None)
  {
  }

  /** How many tables are booked. */
  function BookedCount(tables: seq<Table>): nat
  {
    if tables == [] then 0
    else BookedCount(tables[..|tables| - 1]) + (if tables[|tables| - 1].booked then 1 else 0)
  }

  /** Replacing one table changes the count by the difference of the two booked flags. */
  lemma {:induction false} BookedCountUpdate(tables: seq<Table>, k: nat, t: Table)
    requires k < |tables|
    ensures BookedCount(tables[k := t]) + (if tables[k].booked then 1 else 0)
            == BookedCount(tables) + (if t.booked then 1 else 0)
  {
    var n := |tables|;
    if k < n - 1 {
      assert tables[k := t][..n - 1] == tables[..n - 1][k := t];
      BookedCountUpdate(tables[..n - 1], k, t);
    } else {
      assert tables[k := t][..n - 1] == tables[..n - 1];
    }
  }

  /** Booking a free table of a well-numbered row: one entry changes, one more table is booked, the invariants hold. */
  lemma BookSelected(tables: seq<Table>, selected: int, name: string, members: int)
    requires ConsecutiveIds(tables) && FreeTablesBlank(tables) && SelectionFree(tables, Some(selected))
    ensures MarkBooked(tables, selected, name, members) == tables[selected - 1 := Table(selected, true, name, members)]
    ensures BookedCount(tables[selected - 1 := Table(selected, true, name, members)]) == BookedCount(tables) + 1
    ensures ConsecutiveIds(tables[selected - 1 := Table(selected, true, name, members)])
    ensures FreeTablesBlank(tables[selected - 1 := Table(selected, true, name, members)])
    ensures SelectionFree(tables[selected - 1 := Table(selected, true, name, members)], None)
  {
    MarkBookedAt(tables, selected, name, members);
    BookedCountUpdate(tables, selected - 1, Table(selected, true, name, members));
    BookingKeepsInvariants(tables, selected, name, members);
  }

  /** The selection, when there is one, names a free table of the row. */
  predicate SelectionFree(tables: seq<Table>, selectedTable: Option<int>)
  {
    selectedTable.Some? ==>
      1 <= selectedTable.value <= |tables| && !tables[selectedTable.value - 1].booked
  }

  class TableBoard {
    var tables: seq<Table>
    var customerName: string
    var members: Option<int>
    var selectedTable: Option<int>
    var newTableCount: Option<int>

    /** Tables numbered 1..n, free tables blank, and only a free table can be selected. */
    ghost predicate Valid()
      reads this
    {
      ConsecutiveIds(tables) && FreeTablesBlank(tables) && SelectionFree(tables, selectedTable)
    }

    constructor ()
      ensures Valid()
      ensures tables == FreshTables(0, 8)
      ensures customerName == "" && members == None && selectedTable == None && newTableCount == None
    {
      tables := FreshTables(0, 8);
      customerName, members, selectedTable, newTableCount := "", None, None, None;
    }

    method SetCustomerName(text: string)
      modifies this`customerName
      ensures customerName == text
    {
      customerName := text;
    }

    method SetMembers(entered: Option<int>)
      modifies this`members
      ensures members == entered
    {
      members := entered;
    }

    method SetNewTableCount(entered: Option<int>)
      modifies this`newTableCount
      ensures newTableCount == entered
    {
      newTableCount := entered;
    }

    /** Clicking the card of table `k` selects it only when it is free. */
    method ClickTable(k: nat)
      requires Valid() && k < |tables|
      modifies this`selectedTable
      ensures Valid()
      ensures !tables[k].booked ==> selectedTable == Some(k + 1)
      ensures tables[k].booked ==> selectedTable == old(selectedTable)
    {
      if !tables[k].booked {
        selectedTable := Some(tables[k].id);
      }
    }

    /**
     * `bookTable`: without a selection, with a blank name or with an empty
     * members box nothing changes and an alert is raised; otherwise the
     * selected table is booked under the name as typed, and the form is reset.
     */
    method BookTable() returns (alerted: bool)
      requires Valid()
      modifies this`tables, this`customerName, this`members, this`selectedTable
      ensures Valid()
      ensures alerted <==> old(selectedTable).None? || IsBlank(old(customerName)) || old(members).None?
      ensures alerted ==> tables == old(tables) && customerName == old(customerName)
                          && members == old(members) && selectedTable == old(selectedTable)
      ensures !alerted ==>
                && tables == MarkBooked(old(tables), old(selectedTable).value, old(customerName), old(members).value)
                && tables == old(tables)[old(selectedTable).value - 1 :=
                                         Table(old(selectedTable).value, true, old(customerName), old(members).value)]
                && BookedCount(tables) == BookedCount(old(tables)) + 1
                && customerName == "" && members == None && selectedTable == None
    {
      TrimEmptyIffBlank(customerName);
      if selectedTable.None? || Trim(customerName) == "" || members.None? {
        return true;
      }
      var sel := selectedTable.value;
      BookSelected(tables, sel, customerName, members.value);
      tables := tables[sel - 1 := Table(sel, true, customerName, members.value)];
      customerName := "";
      members := None;
      selectedTable := None;
      alerted := false;
    }

    /**
     * `addTables`: a missing, zero or negative count does nothing; otherwise
     * that many free tables are appended after the last number and the
     * count box is cleared.
     */
    method AddTables()
      requires Valid()
      modifies this`tables, this`newTableCount
      ensures Valid()
      ensures old(newTableCount).None? || old(newTableCount).value <= 0 ==>
                tables == old(tables) && newTableCount == old(newTableCount)
      ensures old(newTableCount).Some? && old(newTableCount).value > 0 ==>
                && tables == old(tables) + FreshTables(|old(tables)|, old(newTableCount).value)
                && |tables| == |old(tables)| + old(newTableCount).value
                && newTableCount == None
    {
      if newTableCount.None? || newTableCount.value <= 0 {
        return;
      }
      var count := newTableCount.value;
      AppendFreshKeepsNumbering(tables, count);
      tables := tables + FreshTables(|tables|, count);
      newTableCount := None;
    }
  }

  /** A booking never overwrites an earlier one: every booked table keeps its details. */
  lemma BookingKeepsEarlierBookings(tables: seq<Table>, selected: int, name: string, members: int)
    requires ConsecutiveIds(tables) && SelectionFree(tables, Some(selected))
    ensures forall i :: 0 <= i < |tables| && tables[i].booked ==>
              MarkBooked(tables, selected, name, members)[i] == tables[i]
  {
    MarkBookedAt(tables, selected, name, members);
  }
}
