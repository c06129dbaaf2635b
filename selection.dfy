/** The selection state of the order form: the menu items with their check
    boxes, the add-on check boxes inside each item, and the prices attached
    to them as `data-price` attributes. */
module Selection {

  datatype Option<T> = None | Some(value: T)

  /** An add-on check box; `price` is None when its `data-price` is missing or empty. */
  datatype Addon = Addon(name: string, price: Option<real>, checked: bool)

  /** A menu item check box (its value is `name`) and the add-ons shown inside it. */
  datatype MenuItem = MenuItem(name: string, price: Option<real>, checked: bool, addons: seq<Addon>)

  /** `parseFloat(price || 0)`: a missing price counts as 0. */
  function PriceOf(tag: Option<real>): (p: real)
  {
    match tag
    case None => 0.0
    case Some(p) => p
  }

  predicate ItemPricesNonNegative(item: MenuItem)
  {
    PriceOf(item.price) >= 0.0
    && forall j :: 0 <= j < |item.addons| ==> PriceOf(item.addons[j].price) >= 0.0
  }

  predicate PricesNonNegative(menu: seq<MenuItem>)
  {
    forall i :: 0 <= i < |menu| ==> ItemPricesNonNegative(menu[i])
  }

  predicate NothingChecked(menu: seq<MenuItem>)
  {
    forall i :: 0 <= i < |menu| ==> !menu[i].checked
  }

  /** The add-ons with every check box cleared. */
  function ClearedAddons(addons: seq<Addon>): (cleared: seq<Addon>)
  {
    seq(|addons|, k requires 0 <= k < |addons| => addons[k].(checked := false))
  }

  /** Item `i` unchecked, together with all of its add-ons. */
  function Deselected(menu: seq<MenuItem>, i: nat): (m: seq<MenuItem>)
    requires i < |menu|
  {
    menu[i := menu[i].(checked := false, addons := ClearedAddons(menu[i].addons))]
  }

  /** A click on item `i`: the box flips; when it ends up unchecked, the
      change handler clears the item's add-ons as well. */
  function ItemToggled(menu: seq<MenuItem>, i: nat): (m: seq<MenuItem>)
    requires i < |menu|
  {
    if menu[i].checked then Deselected(menu, i) else menu[i := menu[i].(checked := true)]
  }

  /** A click on add-on `j` of item `i`: only that box flips, whether or not
      the item itself is checked. */
  function AddonToggled(menu: seq<MenuItem>, i: nat, j: nat): (m: seq<MenuItem>)
    requires i < |menu| && j < |menu[i].addons|
  {
    var addons := menu[i].addons;
    menu[i := menu[i].(addons := addons[j := addons[j].(checked := !addons[j].checked)])]
  }

  /** Unchecking an item leaves none of its add-ons checked; the add-ons keep
      their names and prices, the item keeps its own, and every other item is
      as it was. */
  lemma DeselectCascade(menu: seq<MenuItem>, i: nat)
    requires i < |menu|
    ensures var m := Deselected(menu, i);
      && |m| == |menu|
      && !m[i].checked && m[i].name == menu[i].name && m[i].price == menu[i].price
      && |m[i].addons| == |menu[i].addons|
      && (forall j :: 0 <= j < |m[i].addons| ==>
            !m[i].addons[j].checked
            && m[i].addons[j].name == menu[i].addons[j].name
            && m[i].addons[j].price == menu[i].addons[j].price)
      && (forall k :: 0 <= k < |menu| && k != i ==> m[k] == menu[k])
  {
  }

  /** Unchecking an item a second time changes nothing. */
  lemma DeselectIdempotent(menu: seq<MenuItem>, i: nat)
    requires i < |menu|
    ensures Deselected(Deselected(menu, i), i) == Deselected(menu, i)
  {
    var a := ClearedAddons(menu[i].addons);
    assert ClearedAddons(a) == a;
  }

  /** Checking an item flips its box and nothing else: name, price and
      add-ons stay; unchecking it is `Deselected`. */
  lemma ItemToggleEffect(menu: seq<MenuItem>, i: nat)
    requires i < |menu|
    ensures var m := ItemToggled(menu, i);
      && |m| == |menu|
      && m[i].checked == !menu[i].checked
      && (menu[i].checked ==> m == Deselected(menu, i))
      && (!menu[i].checked ==> m[i].addons == menu[i].addons)
      && (!menu[i].checked ==> m[i] == menu[i].(checked := true))
      && (forall k :: 0 <= k < |menu| && k != i ==> m[k] == menu[k])
  {
  }
}
