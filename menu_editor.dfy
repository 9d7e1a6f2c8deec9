/**
 * The menu page: the list of categories with their dishes, and the form
 * that appends a new dish to one category.
 *
 * The price box is modelled as `Option<int>` (`None` for an empty box), and
 * the clock that supplies a new dish's id is a parameter.
 */
module MenuEditor {
  import opened Wrappers
  import opened JsArrays

  datatype Dish = Dish(id: int, name: string, price: int, desc: string)

  datatype Category = Category(category: string, items: seq<Dish>)

  /** The add-item form. An empty category, name or description is "". */
  datatype NewItemForm = NewItemForm(category: string, name: string, price: Option<int>, desc: string)

  const EmptyForm := NewItemForm("", "", None, "")

  const DefaultDesc := "New item"

  /** The page's initial list: nine categories, 23 dishes. */
  const InitialMenu: seq<Category> := [
    Category("Breakfast", [
      Dish(18, "Vada Pav", 12, "Classic Mumbai snack"),
      Dish(19, "Pohe", 15, "Light breakfast dish"),
      Dish(20, "Upma", 25, "South Indian breakfast")]),
    Category("Starters", [
      Dish(1, "Paneer Pakoda", 120, "Crispy paneer fritters"),
      Dish(2, "Veg Manchurian", 150, "Indo-Chinese starter"),
      Dish(3, "Masala Papad", 25, "Papad with toppings")]),
    Category("Soups", [
      Dish(16, "Tomato Soup", 60, "Fresh tomato soup"),
      Dish(17, "Spinach Soup", 80, "Healthy spinach soup")]),
    Category("Roti", [
      Dish(4, "Chapati", 12, "Soft wheat roti"),
      Dish(5, "Tandoori Roti", 15, "Clay oven roti"),
      Dish(6, "Butter Naan", 25, "Buttery naan")]),
    Category("Rice", [
      Dish(7, "Jeera Rice", 120, "Cumin flavored rice"),
      Dish(8, "Plain Rice", 100, "Steamed rice")]),
    Category("Dal", [
      Dish(9, "Dal Tadka", 140, "Tempered dal"),
      Dish(10, "Dal Fry", 130, "Restaurant style dal")]),
    Category("Paneer", [
      Dish(11, "Palak Paneer", 180, "Paneer in spinach gravy"),
      Dish(12, "Kaju Kari", 240, "Cashew curry"),
      Dish(13, "Paneer Maharaja", 260, "Rich paneer dish")]),
    Category("Desserts", [
      Dish(14, "Gulab Jamun", 60, "Soft milk dessert"),
      Dish(15, "Ice Cream", 80, "Vanilla / Chocolate")]),
    Category("Pizza", [
      Dish(21, "Onion Pizza", 150, "Onion topping pizza"),
      Dish(22, "Cheese Pizza", 150, "Extra cheese pizza"),
      Dish(23, "Margherita Pizza", 180, "Classic pizza")])
  ]

  /** No two categories share a name. */
  predicate DistinctNames(menu: seq<Category>)
  {
    forall i, j :: 0 <= i < j < |menu| ==> menu[i].category != menu[j].category
  }

  /** How many categories carry the name `name`. */
  function MatchCount(menu: seq<Category>, name: string): nat
  {
    if menu == [] then 0
    else MatchCount(menu[..|menu| - 1], name) + (if menu[|menu| - 1].category == name then 1 else 0)
  }

  /** How many dishes the menu lists. */
  function ItemCount(menu: seq<Category>): nat
  {
    if menu == [] then 0 else ItemCount(menu[..|menu| - 1]) + |menu[|menu| - 1].items|
  }

  /** The dish the form describes: price taken as a number, description defaulting to "New item". */
  function NewDish(form: NewItemForm, now: int): (d: Dish)
    requires form.price.Some?
    ensures d.id == now && d.name == form.name && d.price == form.price.value
    ensures d.desc == DefaultDesc <==> form.desc == "" || form.desc == DefaultDesc
    ensures form.desc != "" ==> d.desc == form.desc
  {
    Dish(now, form.name, form.price.value, if form.desc == "" then DefaultDesc else form.desc)
  }

  /** The per-category step of `addNewItem`'s `map`. */
  function AppendIfMatching(name: string, dish: Dish): Category -> Category
  {
    (c: Category) => if c.category == name then c.(items := c.items + [dish]) else c
  }

  function AddToMenu(menu: seq<Category>, name: string, dish: Dish): seq<Category>
  {
    Map(menu, AppendIfMatching(name, dish))
  }

  /** Every category keeps its name and position; only those named `name` gain the dish, at the end. */
  lemma AddToMenuEffect(menu: seq<Category>, name: string, dish: Dish)
    ensures |AddToMenu(menu, name, dish)| == |menu|
    ensures forall i :: 0 <= i < |menu| ==>
              && AddToMenu(menu, name, dish)[i].category == menu[i].category
              && AddToMenu(menu, name, dish)[i].items ==
                   if menu[i].category == name then menu[i].items + [dish] else menu[i].items
  {
  }

  /** Two menus that differ by one dish in each category named `name` differ in size by the number of such categories. */
  lemma {:induction false} ItemCountGrows(before: seq<Category>, after: seq<Category>, name: string)
    requires |after| == |before|
    requires forall i :: 0 <= i < |before| ==>
               |after[i].items| == |before[i].items| + (if before[i].category == name then 1 else 0)
    ensures ItemCount(after) == ItemCount(before) + MatchCount(before, name)
  {
    if before != [] {
      var n := |before|;
      ItemCountGrows(before[..n - 1], after[..n - 1], name);
    }
  }

  /** A category name occurs once in a menu whose names are distinct. */
  lemma {:induction false} MatchCountDistinct(menu: seq<Category>, name: string)
    requires DistinctNames(menu)
    ensures MatchCount(menu, name) == (if exists i :: 0 <= i < |menu| && menu[i].category == name then 1 else 0)
  {
    if menu != [] {
      var n := |menu|;
      var init := menu[..n - 1];
      MatchCountDistinct(init, name);
      if exists i :: 0 <= i < |init| && init[i].category == name {
        var i :| 0 <= i < |init| && init[i].category == name;
        assert menu[i].category == name;
      }
      if exists i :: 0 <= i < n && menu[i].category == name {
        var i :| 0 <= i < n && menu[i].category == name;
        if i < n - 1 {
          assert init[i].category == name;
        }
      }
    }
  }

  /** Adding to an existing category of a menu with distinct names adds exactly one dish. */
  lemma AddToMenuCount(menu: seq<Category>, k: nat, dish: Dish)
    requires DistinctNames(menu) && k < |menu|
    ensures ItemCount(AddToMenu(menu, menu[k].category, dish)) == ItemCount(menu) + 1
  {
    AddToMenuEffect(menu, menu[k].category, dish);
    ItemCountGrows(menu, AddToMenu(menu, menu[k].category, dish), menu[k].category);
    MatchCountDistinct(menu, menu[k].category);
  }

  /** Category names are left as they are, so distinct names stay distinct. */
  lemma AddToMenuKeepsNames(menu: seq<Category>, name: string, dish: Dish)
    ensures Names(AddToMenu(menu, name, dish)) == Names(menu)
    ensures DistinctNames(menu) ==> DistinctNames(AddToMenu(menu, name, dish))
  {
    AddToMenuEffect(menu, name, dish);
  }

  /** The category names of the initial list, in display order. */
  const CategoryNames: seq<string> := ["Breakfast", "Starters", "Soups", "Roti", "Rice", "Dal", "Paneer", "Desserts", "Pizza"]

  function Names(menu: seq<Category>): (r: seq<string>)
    ensures |r| == |menu| && forall i :: 0 <= i < |menu| ==> r[i] == menu[i].category
  {
    seq(|menu|, i requires 0 <= i < |menu| => menu[i].category)
  }

  /** The initial names are distinct. */
  lemma CategoryNamesDistinct()
    ensures forall i, j :: 0 <= i < j < |CategoryNames| ==> CategoryNames[i] != CategoryNames[j]
  {
  }

  /** The initial list has the nine categories above, with distinct names. */
  lemma InitialMenuShape()
    ensures Names(InitialMenu) == CategoryNames
    ensures DistinctNames(InitialMenu)
  {
    assert Names(InitialMenu) == CategoryNames;
    CategoryNamesDistinct();
  }

  /** The initial list holds 23 dishes. */
  lemma InitialItemCount()
    ensures ItemCount(InitialMenu) == 23
  {
    var m := InitialMenu;
    assert ItemCount(m[..1]) == 3 by { assert m[..1][..0] == []; }
    assert ItemCount(m[..2]) == 6 by { assert m[..2][..1] == m[..1]; }
    assert ItemCount(m[..3]) == 8 by { assert m[..3][..2] == m[..2]; }
    assert ItemCount(m[..4]) == 11 by { assert m[..4][..3] == m[..3]; }
    assert ItemCount(m[..5]) == 13 by { assert m[..5][..4] == m[..4]; }
    assert ItemCount(m[..6]) == 15 by { assert m[..6][..5] == m[..5]; }
    assert ItemCount(m[..7]) == 18 by { assert m[..7][..6] == m[..6]; }
    assert ItemCount(m[..8]) == 20 by { assert m[..8][..7] == m[..7]; }
    assert m[..9] == m;
  }

  /** Adding a dish to a menu holding the initial categories keeps them, and adds one dish when the name is one of them. */
  lemma AddToPageMenu(menu: seq<Category>, name: string, dish: Dish)
    requires Names(menu) == CategoryNames && DistinctNames(menu)
    ensures Names(AddToMenu(menu, name, dish)) == CategoryNames && DistinctNames(AddToMenu(menu, name, dish))
    ensures |AddToMenu(menu, name, dish)| == |menu|
    ensures name in CategoryNames ==> ItemCount(AddToMenu(menu, name, dish)) == ItemCount(menu) + 1
  {
    AddToMenuKeepsNames(menu, name, dish);
    if name in CategoryNames {
      var k :| 0 <= k < |CategoryNames| && CategoryNames[k] == name;
      AddToMenuCount(menu, k, dish);
    }
  }

  class MenuPage {
    var menuData: seq<Category>
    var newItem: NewItemForm

    /** The categories are always the initial nine, in their order. */
    ghost predicate Valid()
      reads this
    {
      Names(menuData) == CategoryNames && DistinctNames(menuData)
    }

    constructor ()
      ensures Valid() && menuData == InitialMenu && newItem == EmptyForm
    {
      InitialMenuShape();
      menuData := InitialMenu;
      newItem := EmptyForm;
    }

    method SetCategory(value: string)
      modifies this`newItem
      ensures newItem == old(newItem).(category := value)
    {
      newItem := newItem.(category := value);
    }

    method SetName(value: string)
      modifies this`newItem
      ensures newItem == old(newItem).(name := value)
    {
      newItem := newItem.(name := value);
    }

    method SetPrice(value: Option<int>)
      modifies this`newItem
      ensures newItem == old(newItem).(price := value)
    {
      newItem := newItem.(price := value);
    }

    method SetDesc(value: string)
      modifies this`newItem
      ensures newItem == old(newItem).(desc := value)
    {
      newItem := newItem.(desc := value);
    }

    /**
     * `addNewItem`: with an empty category, name or price nothing changes and
     * an alert is raised; otherwise the new dish, numbered by the clock, is
     * appended to the matching category and the form is emptied.
     */
    method AddNewItem(now: int) returns (alerted: bool)
      requires Valid()
      modifies this`menuData, this`newItem
      ensures Valid()
      ensures alerted <==> old(newItem).category == "" || old(newItem).name == "" || old(newItem).price.None?
      ensures alerted ==> menuData == old(menuData) && newItem == old(newItem)
      ensures !alerted ==>
                && menuData == AddToMenu(old(menuData), old(newItem).category, NewDish(old(newItem), now))
                && |menuData| == |old(menuData)|
                && newItem == EmptyForm
      ensures !alerted && old(newItem).category in CategoryNames ==>
                ItemCount(menuData) == ItemCount(old(menuData)) + 1
    {
      if newItem.category == "" || newItem.name == "" || newItem.price.None? {
        return true;
      }
      var dish := NewDish(newItem, now);
      AddToPageMenu(menuData, newItem.category, dish);
      menuData := AddToMenu(menuData, newItem.category, dish);
      newItem := EmptyForm;
      alerted := false;
    }
  }
}
