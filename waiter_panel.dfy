/**
 * The waiter's screen: the state variables of the panel and the event
 * handlers that update them. The line arithmetic lives in OrderCart.
 */
module WaiterPanel {
  import opened Wrappers
  import opened OrderCart
  import opened JsStrings

  const NoTableError := "Please select a table before placing the order."
  const EmptyCartAlert := "Please add at least one item."

  class WaiterPanel {
    var tableNo: string
    var tableError: string
    var category: string
    var search: string
    var selectedItem: Option<MenuItem>
    var qty: int
    var orderItems: seq<Line>
    var submittedOrders: seq<PlacedOrder>
    var editingOrderIndex: Option<nat>
    var editedOrders: seq<PlacedOrder>

    /** One line per dish, positive quantities, an entered quantity of at least 1, a known category. */
    ghost predicate Valid()
      reads this`orderItems, this`qty, this`category
    {
      WellFormed(orderItems) && qty >= 1 && category in Categories
    }

    constructor ()
      ensures Valid()
      ensures tableNo == "" && tableError == "" && category == "starter" && search == ""
      ensures selectedItem == None && qty == 1 && orderItems == []
      ensures submittedOrders == [] && editingOrderIndex == None && editedOrders == []
    {
      tableNo, tableError, category, search := "", "", "starter", "";
      selectedItem, qty, orderItems := None, 1, [];
      submittedOrders, editingOrderIndex, editedOrders := [], None, [];
    }

    /** The dishes offered in the dish list. */
    function Dishes(): (r: seq<MenuItem>)
      reads this
      requires category in Menu
      ensures |r| <= |Menu[category]|
      ensures forall x :: x in r <==> x in Menu[category] && Includes(ToLower(x.name), ToLower(search))
    {
      FilteredItemsExactly(Menu[category], search);
      FilteredItems(Menu[category], search)
    }

    /** The total shown under the order summary. */
    function TotalAmount(): (r: int)
      reads this
      ensures orderItems == [] ==> r == 0
      ensures |orderItems| == 1 ==> r == orderItems[0].price * orderItems[0].qty
    {
      SingleLine(orderItems);
      Total(orderItems)
    }

    /** Choosing a table clears the table error. */
    method ChooseTable(value: string)
      modifies this`tableNo, this`tableError
      ensures tableNo == value && tableError == ""
    {
      tableNo := value;
      tableError := "";
    }

    method ChooseCategory(c: string)
      requires Valid() && c in Categories
      modifies this`category
      ensures Valid() && category == c
    {
      category := c;
    }

    method SetSearch(text: string)
      modifies this`search
      ensures search == text
    {
      search := text;
    }

    /** Picking a dish from the list selects the first dish of the category with that id, or nothing. */
    method SelectDish(id: int)
      requires Valid()
      modifies this`selectedItem
      ensures category in Menu && selectedItem == FindItem(Menu[category], id)
    {
      CategoriesAreMenuKeys();
      selectedItem := FindItem(Menu[category], id);
    }

    /** The quantity box keeps the entered number, but never less than 1. */
    method EnterQty(entered: int)
      requires Valid()
      modifies this`qty
      ensures Valid()
      ensures qty == if entered > 1 then entered else 1
    {
      qty := if entered > 1 then entered else 1;
    }

    /** `addItem`: nothing happens without a selected dish; otherwise merge or append, then reset the selection. */
    method AddItem()
      requires Valid()
      modifies this`orderItems, this`selectedItem, this`qty
      ensures Valid()
      ensures old(selectedItem).None? ==> orderItems == old(orderItems) && selectedItem == None && qty == old(qty)
      ensures old(selectedItem).Some? ==>
                && orderItems == AddLine(old(orderItems), old(selectedItem).value, old(qty))
                && HasLine(orderItems, old(selectedItem).value.id)
                && selectedItem == None && qty == 1
    {
      if selectedItem.None? {
        return;
      }
      AddLineWellFormed(orderItems, selectedItem.value, qty);
      orderItems := AddLine(orderItems, selectedItem.value, qty);
      selectedItem := None;
      qty := 1;
    }

    /** `changeQty` from the order summary. */
    method ChangeQty(id: int, kind: string)
      requires Valid()
      modifies this`orderItems
      ensures Valid()
      ensures orderItems == OrderCart.ChangeQty(old(orderItems), id, kind)
    {
      ChangeQtyWellFormed(orderItems, id, kind);
      orderItems := OrderCart.ChangeQty(orderItems, id, kind);
    }

    /** `removeItem` from the order summary. */
    method RemoveItem(id: int)
      requires Valid()
      modifies this`orderItems
      ensures Valid()
      ensures orderItems == RemoveLine(old(orderItems), id) && !HasLine(orderItems, id)
    {
      RemoveLineWellFormed(orderItems, id);
      orderItems := RemoveLine(orderItems, id);
    }

    /**
     * `submitOrder`: a missing table sets the table error; an empty cart only
     * raises an alert; otherwise the order is appended locally and the cart,
     * the table and the error are cleared. Assigning the placed orders also
     * re-copies them into the edit buffer, dropping unsaved edits.
     */
    method SubmitOrder() returns (alert: Option<string>)
      requires Valid()
      modifies this`tableError, this`submittedOrders, this`editedOrders, this`orderItems, this`tableNo
      ensures Valid()
      ensures old(tableNo) == "" ==>
                && alert == None && tableError == NoTableError && tableNo == old(tableNo)
                && orderItems == old(orderItems) && submittedOrders == old(submittedOrders)
                && editedOrders == old(editedOrders)
      ensures old(tableNo) != "" && old(orderItems) == [] ==>
                && alert == Some(EmptyCartAlert) && tableError == old(tableError) && tableNo == old(tableNo)
                && orderItems == old(orderItems) && submittedOrders == old(submittedOrders)
                && editedOrders == old(editedOrders)
      ensures old(tableNo) != "" && old(orderItems) != [] ==>
                && alert == None
                && submittedOrders == old(submittedOrders) + [PlacedOrder(old(tableNo), old(orderItems))]
                && editedOrders == submittedOrders
                && orderItems == [] && tableNo == "" && tableError == ""
                && TotalAmount() == 0
    {
      if tableNo == "" {
        tableError := NoTableError;
        return None;
      }
      if |orderItems| == 0 {
        return Some(EmptyCartAlert);
      }
      submittedOrders := submittedOrders + [PlacedOrder(tableNo, orderItems)];
      editedOrders := submittedOrders;
      orderItems := [];
      tableNo := "";
      tableError := "";
      alert := None;
    }

    /** The Edit button of a placed order. */
    method StartEditing(idx: nat)
      modifies this`editingOrderIndex
      ensures editingOrderIndex == Some(idx)
    {
      editingOrderIndex := Some(idx);
    }

    /** `updatePlacedOrderItem`: change one line of one order in the edit buffer, in place. */
    method UpdatePlacedOrderItem(orderIdx: nat, itemIdx: nat, action: string)
      requires orderIdx < |editedOrders| && itemIdx < |editedOrders[orderIdx].items|
      modifies this`editedOrders
      ensures |editedOrders| == |old(editedOrders)|
      ensures editedOrders[orderIdx] ==
              old(editedOrders)[orderIdx].(items := EditPlacedLine(old(editedOrders)[orderIdx].items, itemIdx, action))
      ensures forall i :: 0 <= i < |editedOrders| && i != orderIdx ==> editedOrders[i] == old(editedOrders)[i]
    {
      var items := editedOrders[orderIdx].items;
      if action == "inc" {
        items := items[itemIdx := items[itemIdx].(qty := items[itemIdx].qty + 1)];
      }
      if action == "dec" && items[itemIdx].qty > 1 {
        items := items[itemIdx := items[itemIdx].(qty := items[itemIdx].qty - 1)];
      }
      if action == "remove" {
        items := items[..itemIdx] + items[itemIdx + 1..];
      }
      editedOrders := editedOrders[orderIdx := editedOrders[orderIdx].(items := items)];
    }

    /** Save: the edit buffer becomes the placed orders and editing ends. */
    method SaveEdits()
      modifies this`submittedOrders, this`editedOrders, this`editingOrderIndex
      ensures submittedOrders == old(editedOrders) && editedOrders == old(editedOrders)
      ensures editingOrderIndex == None
    {
      submittedOrders := editedOrders;
      editedOrders := submittedOrders;
      editingOrderIndex := None;
    }

    /** Cancel: the edit buffer is reset from the placed orders and editing ends. */
    method CancelEdits()
      modifies this`editedOrders, this`editingOrderIndex
      ensures editedOrders == submittedOrders && editingOrderIndex == None
    {
      editedOrders := submittedOrders;
      editingOrderIndex := None;
    }
  }

  /** Dish 1 of the starters is the Paneer Pakoda at 120. */
  lemma PakodaIsFirstStarter()
    ensures "starter" in Menu && FindItem(Menu["starter"], 1) == Some(MenuItem(1, "Paneer Pakoda", 120))
  {
  }

  /** The total of a cart with one line is that line's amount. */
  lemma SingleLine(lines: seq<Line>)
    ensures |lines| == 1 ==> Total(lines) == lines[0].price * lines[0].qty
  {
    if |lines| == 1 {
      assert lines[..0] == [];
    }
  }

  /** A fresh panel on which the waiter picked "Table 3" and added two Paneer Pakoda. */
  method PakodaCart() returns (panel: WaiterPanel)
    ensures fresh(panel) && panel.Valid()
    ensures panel.tableNo == "Table 3" && panel.orderItems == [Line(1, "Paneer Pakoda", 120, 2)]
    ensures panel.submittedOrders == []
  {
    var pakoda := MenuItem(1, "Paneer Pakoda", 120);
    panel := new WaiterPanel();
    PakodaIsFirstStarter();
    AddLineNew([], pakoda, 2);
    panel.ChooseTable("Table 3");
    panel.SelectDish(1);
    assert panel.selectedItem == Some(pakoda) && panel.orderItems == [];
    panel.EnterQty(2);
    panel.AddItem();
    assert [] + [Line(1, "Paneer Pakoda", 120, 2)] == [Line(1, "Paneer Pakoda", 120, 2)];
  }

  /**
   * Two Paneer Pakoda (120 each) for "Table 3": the order carries a total of
   * 240 and the cart is empty afterwards.
   */
  method PakodaForTableThree() returns (placedTotal: int, cartAfter: seq<Line>)
    ensures placedTotal == 240 && cartAfter == []
  {
    var panel := PakodaCart();
    var line := Line(1, "Paneer Pakoda", 120, 2);
    var alert := panel.SubmitOrder();
    assert panel.submittedOrders == [PlacedOrder("Table 3", [line])];
    SingleLine([line]);
    placedTotal := Total(panel.submittedOrders[0].items);
    cartAfter := panel.orderItems;
  }
}
