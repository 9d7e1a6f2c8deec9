/**
 * The waiter's order lines: the fixed dish catalogue, the dish search, and the
 * pure line transforms behind `addItem`, `changeQty`, `removeItem`, `total` and
 * the editing of a placed order.
 */
module OrderCart {
  import opened Wrappers
  import opened JsStrings
  import opened JsArrays

  /** A dish of the catalogue. */
  datatype MenuItem = MenuItem(id: int, name: string, price: int)

  /** An order line: the dish's fields spread out, plus the quantity. */
  datatype Line = Line(id: int, name: string, price: int, qty: int)

  /** An order handed over for a table. */
  datatype PlacedOrder = PlacedOrder(tableNo: string, items: seq<Line>)

  /** The catalogue, keyed by category (prices are whole rupees). */
  const Menu: map<string, seq<MenuItem>> := map[
    "starter" := [MenuItem(1, "Paneer Pakoda", 120), MenuItem(2, "Veg Manchurian", 150), MenuItem(3, "Masala Papad", 25)],
    "roti" := [MenuItem(4, "Chapati", 12), MenuItem(5, "Tandoori Roti", 15), MenuItem(6, "Butter Naan", 25)],
    "rice" := [MenuItem(7, "Jeera Rice", 120), MenuItem(8, "Plain Rice", 100)],
    "dal" := [MenuItem(9, "Dal Tadka", 140), MenuItem(10, "Dal Fry", 130)],
    "paneer" := [MenuItem(11, "Palak Paneer", 180), MenuItem(12, "Kaju Kari", 240), MenuItem(13, "Paneer Maharaja", 260)],
    "dessert" := [MenuItem(14, "Gulab Jamun", 60), MenuItem(15, "Ice Cream", 80)],
    "soup" := [MenuItem(16, "Tomato Soup", 60), MenuItem(17, "Spinach Soup", 80)],
    "brakefast" := [MenuItem(18, "Vada Pav", 12), MenuItem(19, "Pohe", 15), MenuItem(20, "Upma", 25)],
    "pizza" := [MenuItem(21, "Onion Pizza", 150), MenuItem(22, "Cheese Pizza", 150), MenuItem(23, "Margherita Pizza", 180)]
  ]

  /** The category buttons, in display order. */
  const Categories: seq<string> :=
    ["brakefast", "starter", "soup", "roti", "rice", "dal", "paneer", "dessert", "pizza"]

  /** Every category button names a catalogue key, and every key has a button. */
  lemma CategoriesAreMenuKeys()
    ensures forall c :: c in Categories <==> c in Menu
  {
  }

  // ---------------------------------------------------------------- search

  /** The test of `filteredItems`: the lower-cased name contains the lower-cased search text. */
  function NameMatches(search: string): MenuItem -> bool
  {
    (item: MenuItem) => Includes(ToLower(item.name), ToLower(search))
  }

  /** `filteredItems`: the dishes of one category whose name contains the search text. */
  function FilteredItems(items: seq<MenuItem>, search: string): seq<MenuItem>
  {
    Filter(items, NameMatches(search))
  }

  /** A dish is listed exactly when it is in the category and the search text occurs in its name, ignoring ASCII case. */
  lemma FilteredItemsMember(items: seq<MenuItem>, search: string, x: MenuItem)
    ensures x in FilteredItems(items, search) <==>
            x in items && exists k :: 0 <= k <= |x.name| && ToLower(search) <= ToLower(x.name)[k..]
  {
    FilterMember(items, NameMatches(search), x);
    IncludesIffOccurs(ToLower(x.name), ToLower(search));
  }

  /** The dishes listed are exactly the category's dishes that pass the search test. */
  lemma FilteredItemsExactly(items: seq<MenuItem>, search: string)
    ensures forall x :: x in FilteredItems(items, search) <==> x in items && NameMatches(search)(x)
  {
    forall x {
      FilterMember(items, NameMatches(search), x);
    }
  }

  /** An empty search lists the whole category, in order. */
  lemma EmptySearchListsAll(items: seq<MenuItem>)
    ensures FilteredItems(items, "") == items
  {
    forall i | 0 <= i < |items| ensures NameMatches("")(items[i]) {
      IncludesEmpty(ToLower(items[i].name));
    }
    FilterAllPass(items, NameMatches(""));
  }

  /** `items.find(i => i.id === id)`: the first dish with that id, if any. */
  function FindItem(items: seq<MenuItem>, id: int): (r: Option<MenuItem>)
    ensures r.None? <==> forall i :: 0 <= i < |items| ==> items[i].id != id
    ensures r.Some? ==> exists k :: 0 <= k < |items| && items[k] == r.value && r.value.id == id &&
                                    forall j :: 0 <= j < k ==> items[j].id != id
  {
    if items == [] then None
    else if items[0].id == id then Some(items[0])
    else
      var r := FindItem(items[1..], id);
      assert r.Some? ==> exists k :: 0 <= k < |items| && items[k] == r.value && r.value.id == id &&
                                     forall j :: 0 <= j < k ==> items[j].id != id by {
        if r.Some? {
          var k :| 0 <= k < |items| - 1 && items[1..][k] == r.value && r.value.id == id &&
                   forall j :: 0 <= j < k ==> items[1..][j].id != id;
          assert items[k + 1] == r.value;
          forall j | 0 <= j < k + 1 ensures items[j].id != id {
            if j > 0 { assert items[j] == items[1..][j - 1]; }
          }
        }
      }
      r
  }

  // ---------------------------------------------------------------- lines

  predicate HasLine(lines: seq<Line>, id: int)
  {
    exists i :: 0 <= i < |lines| && lines[i].id == id
  }

  /** Each id appears on at most one line. */
  predicate UniqueIds(lines: seq<Line>)
  {
    forall i, j :: 0 <= i < j < |lines| ==> lines[i].id != lines[j].id
  }

  predicate AllPositive(lines: seq<Line>)
  {
    forall i :: 0 <= i < |lines| ==> lines[i].qty >= 1
  }

  /** The cart invariant: one line per dish, and every quantity at least 1. */
  predicate WellFormed(lines: seq<Line>)
  {
    UniqueIds(lines) && AllPositive(lines)
  }

  /** The per-line step of the `map` in `addItem` and `changeQty`. */
  function Bump(id: int, delta: int): Line -> Line
  {
    (l: Line) => if l.id == id then l.(qty := l.qty + delta) else l
  }

  function AdjustQty(lines: seq<Line>, id: int, delta: int): seq<Line>
  {
    Map(lines, Bump(id, delta))
  }

  /** `addItem`'s update: merge into the line with the same id, or append a new line. */
  function AddLine(lines: seq<Line>, item: MenuItem, qty: int): seq<Line>
  {
    if HasLine(lines, item.id) then AdjustQty(lines, item.id, qty)
    else lines + [Line(item.id, item.name, item.price, qty)]
  }

  function QtyPositive(l: Line): bool { l.qty > 0 }

  /** The step of `changeQty`: "inc" adds one, any other kind subtracts one. */
  function Delta(kind: string): int
  {
    if kind == "inc" then 1 else -1
  }

  /** `changeQty`: the line's quantity moves by one step; lines left at 0 or below are dropped. */
  function ChangeQty(lines: seq<Line>, id: int, kind: string): seq<Line>
  {
    Filter(AdjustQty(lines, id, Delta(kind)), QtyPositive)
  }

  function OtherId(id: int): Line -> bool
  {
    (l: Line) => l.id != id
  }

  /** `removeItem`. */
  function RemoveLine(lines: seq<Line>, id: int): seq<Line>
  {
    Filter(lines, OtherId(id))
  }

  function LineAmount(l: Line): int { l.price * l.qty }

  /** Changing a line's quantity moves its amount by the unit price times the change. */
  lemma AmountWithQty(l: Line, q: int)
    ensures LineAmount(l.(qty := q)) == LineAmount(l) + l.price * (q - l.qty)
  {
    assert l.price * q == l.price * l.qty + l.price * (q - l.qty);
  }

  /** `total`: the `reduce` from the left, starting at 0. */
  function Total(lines: seq<Line>): int
  {
    if lines == [] then 0 else Total(lines[..|lines| - 1]) + LineAmount(lines[|lines| - 1])
  }

  // ---------------------------------------------------------------- totals

  lemma {:induction false} TotalAppend(a: seq<Line>, b: seq<Line>)
    ensures Total(a + b) == Total(a) + Total(b)
  {
    if b == [] {
      assert a + b == a;
    } else {
      TotalAppend(a, b[..|b| - 1]);
      assert (a + b)[..|a + b| - 1] == a + b[..|b| - 1];
    }
  }

  lemma TotalSingleton(l: Line)
    ensures Total([l]) == LineAmount(l)
  {
    assert [l][..0] == [];
  }

  /** Replacing one line changes the total by the difference of the two line amounts. */
  lemma TotalUpdate(lines: seq<Line>, k: nat, l: Line)
    requires k < |lines|
    ensures Total(lines[k := l]) == Total(lines) - LineAmount(lines[k]) + LineAmount(l)
  {
    var pre, replaced, post := lines[..k], lines[k], lines[k + 1..];
    assert lines == pre + [replaced] + post;
    assert lines[k := l] == pre + [l] + post;
    TotalAppend(pre + [replaced], post);
    TotalAppend(pre, [replaced]);
    TotalAppend(pre + [l], post);
    TotalAppend(pre, [l]);
    TotalSingleton(replaced);
    TotalSingleton(l);
  }

  /** A step that takes a line's quantity to 0 removes exactly that line's amount. */
  lemma AmountWhenDropped(l: Line, d: int)
    requires l.qty + d == 0
    ensures LineAmount(l) == -(l.price * d)
  {
    assert l.qty == -d;
  }

  /** Changing the quantity at `k` by `d` moves the total by `d` unit prices. */
  lemma TotalBumpAt(lines: seq<Line>, k: nat, d: int)
    requires k < |lines|
    ensures Total(lines[k := lines[k].(qty := lines[k].qty + d)]) == Total(lines) + lines[k].price * d
  {
    TotalUpdate(lines, k, lines[k].(qty := lines[k].qty + d));
    AmountWithQty(lines[k], lines[k].qty + d);
  }

  /** Splicing one line out of a list lowers its total by that line's amount. */
  lemma TotalSplice(pre: seq<Line>, x: Line, post: seq<Line>)
    ensures Total(pre + [x] + post) == Total(pre + post) + LineAmount(x)
  {
    TotalAppend(pre + [x], post);
    TotalAppend(pre, [x]);
    TotalAppend(pre, post);
    TotalSingleton(x);
  }

  /** Dropping one line lowers the total by that line's amount. */
  lemma TotalRemoveAt(lines: seq<Line>, k: nat)
    requires k < |lines|
    ensures Total(lines[..k] + lines[k + 1..]) == Total(lines) - LineAmount(lines[k])
  {
    TotalSplice(lines[..k], lines[k], lines[k + 1..]);
    assert lines[..k] + [lines[k]] + lines[k + 1..] == lines;
  }

  // ---------------------------------------------------------------- shapes

  /** With unique ids, the `map` of `addItem`/`changeQty` touches exactly the line at `k`. */
  lemma AdjustAt(lines: seq<Line>, id: int, delta: int, k: nat)
    requires UniqueIds(lines) && k < |lines| && lines[k].id == id
    ensures AdjustQty(lines, id, delta) == lines[k := lines[k].(qty := lines[k].qty + delta)]
  {
    var r := AdjustQty(lines, id, delta);
    forall i | 0 <= i < |lines| ensures r[i] == lines[k := lines[k].(qty := lines[k].qty + delta)][i] {
      assert r[i] == Bump(id, delta)(lines[i]);
    }
  }

  /** The `map` leaves a cart without the id as it is. */
  lemma AdjustAbsent(lines: seq<Line>, id: int, delta: int)
    requires !HasLine(lines, id)
    ensures AdjustQty(lines, id, delta) == lines
  {
    var r := AdjustQty(lines, id, delta);
    forall i | 0 <= i < |lines| ensures r[i] == lines[i] {
      assert r[i] == Bump(id, delta)(lines[i]);
    }
  }

  lemma {:induction false} FilterKeepsUnique(lines: seq<Line>, keep: Line -> bool)
    requires UniqueIds(lines)
    ensures UniqueIds(Filter(lines, keep))
  {
    if lines != [] {
      var rest := Filter(lines[1..], keep);
      FilterKeepsUnique(lines[1..], keep);
      if keep(lines[0]) {
        var r := [lines[0]] + rest;
        assert Filter(lines, keep) == r;
        forall j | 0 <= j < |rest| ensures rest[j].id != lines[0].id {
          FilterMember(lines[1..], keep, rest[j]);
          var m :| 0 <= m < |lines[1..]| && lines[1..][m] == rest[j];
          assert lines[m + 1] == rest[j];
        }
        forall i, j | 0 <= i < j < |r| ensures r[i].id != r[j].id {
          if i > 0 { assert r[i] == rest[i - 1]; }
          assert r[j] == rest[j - 1];
        }
      }
    }
  }

  lemma FilterKeepsPositive(lines: seq<Line>, keep: Line -> bool)
    requires AllPositive(lines)
    ensures AllPositive(Filter(lines, keep))
  {
    var r := Filter(lines, keep);
    forall i | 0 <= i < |r| ensures r[i].qty >= 1 {
      FilterMember(lines, keep, r[i]);
    }
  }

  // ---------------------------------------------------------------- addItem

  /** Adding a dish already in the cart raises that line's quantity and adds no line. */
  lemma AddLineExisting(lines: seq<Line>, item: MenuItem, qty: int, k: nat)
    requires UniqueIds(lines) && k < |lines| && lines[k].id == item.id
    ensures AddLine(lines, item, qty) == lines[k := lines[k].(qty := lines[k].qty + qty)]
  {
    AdjustAt(lines, item.id, qty, k);
  }

  /** Adding a new dish appends one line with the entered quantity and leaves the others as they were. */
  lemma AddLineNew(lines: seq<Line>, item: MenuItem, qty: int)
    requires !HasLine(lines, item.id)
    ensures AddLine(lines, item, qty) == lines + [Line(item.id, item.name, item.price, qty)]
  {
  }

  /** `addItem` with a quantity of at least 1 keeps one line per dish and every quantity positive. */
  lemma AddLineWellFormed(lines: seq<Line>, item: MenuItem, qty: int)
    requires WellFormed(lines) && qty >= 1
    ensures WellFormed(AddLine(lines, item, qty))
    ensures HasLine(AddLine(lines, item, qty), item.id)
  {
    if HasLine(lines, item.id) {
      var k :| 0 <= k < |lines| && lines[k].id == item.id;
      AddLineExisting(lines, item, qty, k);
      assert AddLine(lines, item, qty)[k].id == item.id;
    } else {
      var r := AddLine(lines, item, qty);
      assert r[|lines|].id == item.id;
    }
  }

  /** When the cart's lines carry catalogue prices, `addItem` raises the total by price times quantity. */
  lemma AddLineTotal(lines: seq<Line>, item: MenuItem, qty: int)
    requires UniqueIds(lines)
    requires forall i :: 0 <= i < |lines| && lines[i].id == item.id ==> lines[i].price == item.price
    ensures Total(AddLine(lines, item, qty)) == Total(lines) + item.price * qty
  {
    if HasLine(lines, item.id) {
      var k :| 0 <= k < |lines| && lines[k].id == item.id;
      AddLineExisting(lines, item, qty, k);
      TotalBumpAt(lines, k, qty);
    } else {
      var added := Line(item.id, item.name, item.price, qty);
      TotalAppend(lines, [added]);
      assert [added][..0] == [];
    }
  }

  /** Adding the same dish with 2 and then 3 gives one line of 5. */
  lemma AddTwiceMerges(item: MenuItem)
    ensures AddLine(AddLine([], item, 2), item, 3) == [Line(item.id, item.name, item.price, 5)]
  {
    var once := AddLine([], item, 2);
    assert once == [Line(item.id, item.name, item.price, 2)];
    AddLineExisting(once, item, 3, 0);
  }

  // ---------------------------------------------------------------- changeQty

  /**
   * `changeQty` on a line of a well-formed cart moves that line's quantity by
   * one step, or drops the line when the quantity reaches 0; the other lines
   * keep their values and order.
   */
  lemma ChangeQtyAt(lines: seq<Line>, id: int, kind: string, k: nat)
    requires WellFormed(lines) && k < |lines| && lines[k].id == id
    ensures lines[k].qty + Delta(kind) == 0 ==> ChangeQty(lines, id, kind) == lines[..k] + lines[k + 1..]
    ensures lines[k].qty + Delta(kind) != 0 ==>
            ChangeQty(lines, id, kind) == lines[k := lines[k].(qty := lines[k].qty + Delta(kind))]
  {
    var adjusted := lines[k := lines[k].(qty := lines[k].qty + Delta(kind))];
    AdjustAt(lines, id, Delta(kind), k);
    if lines[k].qty + Delta(kind) == 0 {
      FilterDropsOne(adjusted, QtyPositive, k);
      assert adjusted[..k] == lines[..k] && adjusted[k + 1..] == lines[k + 1..];
    } else {
      FilterAllPass(adjusted, QtyPositive);
    }
  }

  /** `changeQty` on an id that is not in a cart of positive quantities is a no-op. */
  lemma ChangeQtyAbsent(lines: seq<Line>, id: int, kind: string)
    requires AllPositive(lines) && !HasLine(lines, id)
    ensures ChangeQty(lines, id, kind) == lines
  {
    AdjustAbsent(lines, id, Delta(kind));
    FilterAllPass(lines, QtyPositive);
  }

  /** After `changeQty` every remaining line has a positive quantity and ids stay unique. */
  lemma ChangeQtyWellFormed(lines: seq<Line>, id: int, kind: string)
    requires UniqueIds(lines)
    ensures WellFormed(ChangeQty(lines, id, kind))
  {
    var delta := Delta(kind);
    var adjusted := AdjustQty(lines, id, delta);
    forall i | 0 <= i < |lines| ensures adjusted[i].id == lines[i].id {
      assert adjusted[i] == Bump(id, delta)(lines[i]);
    }
    FilterKeepsUnique(adjusted, QtyPositive);
    var r := ChangeQty(lines, id, kind);
    forall i | 0 <= i < |r| ensures r[i].qty >= 1 {
      FilterMember(adjusted, QtyPositive, r[i]);
    }
  }

  /** `changeQty` moves the total by exactly one unit price, up for "inc" and down otherwise. */
  lemma ChangeQtyTotal(lines: seq<Line>, id: int, kind: string, k: nat)
    requires WellFormed(lines) && k < |lines| && lines[k].id == id
    ensures Total(ChangeQty(lines, id, kind)) == Total(lines) + lines[k].price * Delta(kind)
  {
    ChangeQtyAt(lines, id, kind, k);
    if lines[k].qty + Delta(kind) == 0 {
      TotalRemoveAt(lines, k);
      AmountWhenDropped(lines[k], Delta(kind));
    } else {
      TotalBumpAt(lines, k, Delta(kind));
    }
  }

  // ---------------------------------------------------------------- removeItem

  /** `removeItem` deletes the one line with that id and keeps the others in order. */
  lemma RemoveLineAt(lines: seq<Line>, k: nat)
    requires UniqueIds(lines) && k < |lines|
    ensures RemoveLine(lines, lines[k].id) == lines[..k] + lines[k + 1..]
  {
    FilterDropsOne(lines, OtherId(lines[k].id), k);
  }

  /** `removeItem` of an id that is not in the cart changes nothing. */
  lemma RemoveLineAbsent(lines: seq<Line>, id: int)
    requires !HasLine(lines, id)
    ensures RemoveLine(lines, id) == lines
  {
    FilterAllPass(lines, OtherId(id));
  }

  lemma RemoveLineWellFormed(lines: seq<Line>, id: int)
    requires WellFormed(lines)
    ensures WellFormed(RemoveLine(lines, id))
    ensures !HasLine(RemoveLine(lines, id), id)
  {
    FilterKeepsUnique(lines, OtherId(id));
    FilterKeepsPositive(lines, OtherId(id));
    var r := RemoveLine(lines, id);
    forall i | 0 <= i < |r| ensures r[i].id != id {
      FilterMember(lines, OtherId(id), r[i]);
    }
  }

  /** `removeItem` lowers the total by the removed line's amount. */
  lemma RemoveLineTotal(lines: seq<Line>, k: nat)
    requires UniqueIds(lines) && k < |lines|
    ensures Total(RemoveLine(lines, lines[k].id)) == Total(lines) - lines[k].price * lines[k].qty
  {
    RemoveLineAt(lines, k);
    TotalRemoveAt(lines, k);
  }

  // ---------------------------------------------------------------- placed orders

  /**
   * `updatePlacedOrderItem` on one order's lines: "inc" adds 1, "dec" subtracts 1
   * only above 1, "remove" splices out the line; the three tests run in sequence.
   */
  function EditPlacedLine(items: seq<Line>, idx: nat, action: string): seq<Line>
    requires idx < |items|
  {
    var afterInc := if action == "inc" then items[idx := items[idx].(qty := items[idx].qty + 1)] else items;
    var afterDec := if action == "dec" && afterInc[idx].qty > 1
                    then afterInc[idx := afterInc[idx].(qty := afterInc[idx].qty - 1)] else afterInc;
    if action == "remove" then afterDec[..idx] + afterDec[idx + 1..] else afterDec
  }

  /** What each action does to the placed order's lines. */
  lemma EditPlacedLineEffect(items: seq<Line>, idx: nat, action: string)
    requires idx < |items|
    ensures action == "inc" ==> EditPlacedLine(items, idx, action) == items[idx := items[idx].(qty := items[idx].qty + 1)]
    ensures action == "dec" && items[idx].qty > 1 ==>
            EditPlacedLine(items, idx, action) == items[idx := items[idx].(qty := items[idx].qty - 1)]
    ensures action == "dec" && items[idx].qty <= 1 ==> EditPlacedLine(items, idx, action) == items
    ensures action == "remove" ==> EditPlacedLine(items, idx, action) == items[..idx] + items[idx + 1..]
    ensures action !in {"inc", "dec", "remove"} ==> EditPlacedLine(items, idx, action) == items
  {
  }

  /** Editing a placed order never brings a quantity below 1. */
  lemma EditPlacedLinePositive(items: seq<Line>, idx: nat, action: string)
    requires idx < |items| && AllPositive(items)
    ensures AllPositive(EditPlacedLine(items, idx, action))
  {
    var r := EditPlacedLine(items, idx, action);
    if action == "remove" {
      forall i | 0 <= i < |r| ensures r[i].qty >= 1 {
        if i >= idx { assert r[i] == items[i + 1]; }
      }
    }
  }

  /** How an edit moves the placed order's total. */
  lemma EditPlacedLineTotal(items: seq<Line>, idx: nat, action: string)
    requires idx < |items|
    ensures Total(EditPlacedLine(items, idx, action)) ==
            Total(items) + (if action == "inc" then items[idx].price
                            else if action == "dec" && items[idx].qty > 1 then -items[idx].price
                            else if action == "remove" then -LineAmount(items[idx])
                            else 0)
  {
    var r := EditPlacedLine(items, idx, action);
    EditPlacedLineEffect(items, idx, action);
    if action == "inc" {
      TotalBumpAt(items, idx, 1);
    } else if action == "dec" && items[idx].qty > 1 {
      TotalBumpAt(items, idx, -1);
    } else if action == "remove" {
      TotalRemoveAt(items, idx);
    } else {
      assert r == items;
    }
  }
}
