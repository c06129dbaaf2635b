/** The order record built at submission: the checked items, one line each
    with its description and its price including add-ons, and the subtotal
    recomputed from those lines. */
module OrderRecord {
  import opened Format
  import opened Selection
  import opened OrderSummary

  datatype OrderLine = OrderLine(name: string, description: string, price: real)

  /** `Array.from(menuItems).filter(item => item.checked)`. */
  function SelectedItems(menu: seq<MenuItem>): (sel: seq<MenuItem>)
  {
    if menu == [] then []
    else SelectedItems(menu[..|menu| - 1]) + (if menu[|menu| - 1].checked then [menu[|menu| - 1]] else [])
  }

  /** The positions in the menu of the items `SelectedItems` keeps. */
  ghost function SelectedPositions(menu: seq<MenuItem>): (pos: seq<nat>)
  {
    if menu == [] then []
    else SelectedPositions(menu[..|menu| - 1]) + (if menu[|menu| - 1].checked then [|menu| - 1] else [])
  }

  /** An add-on as the description mentions it: its name and "(+$price)". */
  function Annotation(addon: Addon): (note: string)
  {
    addon.name + " (+$" + Fixed2(PriceOf(addon.price)) + ")"
  }

  /** The annotations of the checked add-ons, in order. */
  function Annotations(addons: seq<Addon>): (notes: seq<string>)
  {
    if addons == [] then []
    else
      var last := addons[|addons| - 1];
      Annotations(addons[..|addons| - 1]) + (if last.checked then [Annotation(last)] else [])
  }

  /** The item name, followed by " with " and the comma-separated
      annotations when at least one add-on is checked. */
  function Describe(item: MenuItem): (description: string)
  {
    var notes := Annotations(item.addons);
    if |notes| > 0 then item.name + " with " + Join(notes, ", ") else item.name
  }

  function LineFor(item: MenuItem): (line: OrderLine)
  {
    OrderLine(item.name, Describe(item), LinePrice(item))
  }

  function LinesFor(items: seq<MenuItem>): (lines: seq<OrderLine>)
  {
    seq(|items|, k requires 0 <= k < |items| => LineFor(items[k]))
  }

  /** `lines.reduce((sum, item) => sum + item.price, 0)`: a left fold. */
  function RecordSubtotal(lines: seq<OrderLine>): (subtotal: real)
  {
    if lines == [] then 0.0 else RecordSubtotal(lines[..|lines| - 1]) + lines[|lines| - 1].price
  }

  /** The loops of the submit handler that build one order line per selected
      item: the running item price and the list of add-on annotations. */
  method BuildOrderLines(selected: seq<MenuItem>) returns (lines: seq<OrderLine>)
    ensures lines == LinesFor(selected)
  {
    lines := [];
    var i := 0;
    while i < |selected|
      invariant 0 <= i <= |selected|
      invariant |lines| == i
      invariant forall k :: 0 <= k < i ==> lines[k] == LineFor(selected[k])
    {
      var item := selected[i];
      var totalItemPrice := PriceOf(item.price);
      var notes: seq<string> := [];
      var j := 0;
      while j < |item.addons|
        invariant 0 <= j <= |item.addons|
        invariant totalItemPrice == PriceOf(item.price) + CheckedAddonsTotal(item.addons[..j])
        invariant notes == Annotations(item.addons[..j])
      {
        var addon := item.addons[j];
        if addon.checked {
          var addonPrice := PriceOf(addon.price);
          notes := notes + [addon.name + " (+$" + Fixed2(addonPrice) + ")"];
          totalItemPrice := totalItemPrice + addonPrice;
        }
        assert item.addons[..j + 1][..j] == item.addons[..j];
        j := j + 1;
      }
      assert item.addons[..j] == item.addons;
      var description := item.name;
      if |notes| > 0 {
        description := description + " with " + Join(notes, ", ");
      }
      lines := lines + [OrderLine(item.name, description, totalItemPrice)];
      i := i + 1;
    }
  }

  /** The filter keeps exactly the checked items, in menu order. */
  lemma {:induction false} SelectedItemsInMenuOrder(menu: seq<MenuItem>)
    ensures var sel, pos := SelectedItems(menu), SelectedPositions(menu);
      && |sel| == |pos|
      && (forall k :: 0 <= k < |pos| ==> pos[k] < |menu| && sel[k] == menu[pos[k]])
      && (forall k, l :: 0 <= k < l < |pos| ==> pos[k] < pos[l])
      && (forall i :: 0 <= i < |menu| ==> (menu[i].checked <==> i in pos))
  {
    if menu != [] {
      var n := |menu| - 1;
      var init := menu[..n];
      SelectedItemsInMenuOrder(init);
      var sel, pos := SelectedItems(menu), SelectedPositions(menu);
      var sel0, pos0 := SelectedItems(init), SelectedPositions(init);
      assert forall k :: 0 <= k < |pos0| ==> pos[k] == pos0[k] && sel[k] == sel0[k];
      assert forall i :: 0 <= i < n ==> menu[i] == init[i];
    }
  }

  /** Submission is refused exactly when no item is checked. */
  lemma {:induction false} NoSelectionIffNothingChecked(menu: seq<MenuItem>)
    ensures |SelectedItems(menu)| == 0 <==> NothingChecked(menu)
  {
    if menu != [] {
      var init := menu[..|menu| - 1];
      NoSelectionIffNothingChecked(init);
      assert forall i :: 0 <= i < |init| ==> menu[i] == init[i];
    }
  }

  /** The description carries annotations exactly when an add-on is checked. */
  lemma {:induction false} AnnotationsIffAddonChecked(addons: seq<Addon>)
    ensures |Annotations(addons)| > 0 <==> exists j :: 0 <= j < |addons| && addons[j].checked
  {
    if addons != [] {
      var init := addons[..|addons| - 1];
      AnnotationsIffAddonChecked(init);
      assert forall j :: 0 <= j < |init| ==> addons[j] == init[j];
    }
  }

  /** The line's description is the bare item name when no add-on is
      checked, and the name, " with " and the joined annotations otherwise. */
  lemma DescriptionShape(item: MenuItem)
    ensures (exists j :: 0 <= j < |item.addons| && item.addons[j].checked)
      ==> Describe(item) == item.name + " with " + Join(Annotations(item.addons), ", ")
    ensures (forall j :: 0 <= j < |item.addons| ==> !item.addons[j].checked)
      ==> Describe(item) == item.name
    ensures Describe(item) == item.name
      <==> forall j :: 0 <= j < |item.addons| ==> !item.addons[j].checked
  {
    AnnotationsIffAddonChecked(item.addons);
  }

  /** For each checked item, in menu order, the record has one line: the
      item's name, its description, and its price plus its checked add-ons. */
  lemma {:induction false} OrderLinesFollowMenu(menu: seq<MenuItem>)
    ensures var lines, pos := LinesFor(SelectedItems(menu)), SelectedPositions(menu);
      && |lines| == |pos|
      && (forall k :: 0 <= k < |pos| ==>
            pos[k] < |menu|
            && lines[k].name == menu[pos[k]].name
            && lines[k].description == Describe(menu[pos[k]])
            && lines[k].price == PriceOf(menu[pos[k]].price) + CheckedAddonsTotal(menu[pos[k]].addons))
      && (forall k, l :: 0 <= k < l < |pos| ==> pos[k] < pos[l])
      && (forall i :: 0 <= i < |menu| ==> (menu[i].checked <==> i in pos))
  {
    SelectedItemsInMenuOrder(menu);
  }

  /** The subtotal recomputed from the record's lines equals the live
      subtotal of the selection the record was built from. */
  lemma {:induction false} RecordSubtotalMatchesLive(menu: seq<MenuItem>)
    ensures RecordSubtotal(LinesFor(SelectedItems(menu))) == Subtotal(menu)
  {
    if menu != [] {
      var init, last := menu[..|menu| - 1], menu[|menu| - 1];
      RecordSubtotalMatchesLive(init);
      var lines0 := LinesFor(SelectedItems(init));
      var lines := LinesFor(SelectedItems(menu));
      if last.checked {
        assert lines == lines0 + [LineFor(last)];
        assert lines[..|lines| - 1] == lines0;
      } else {
        assert lines == lines0;
      }
    }
  }

  /** The burger of the sample order, with its cheese add-on checked. */
  lemma CheeseBurgerLine()
    ensures LineFor(MenuItem("Burger", Some(8.99), true, [Addon("Cheese", Some(1.00), true)]))
      == OrderLine("Burger", "Burger with Cheese (+$1.00)", 9.99)
  {
    var cheese := Addon("Cheese", Some(1.00), true);
    var burger := MenuItem("Burger", Some(8.99), true, [cheese]);
    assert [cheese][..0] == [];
    assert CheckedAddonsTotal([cheese]) == 1.00;
    Fixed2Samples();
    assert Annotation(cheese) == "Cheese (+$1.00)";
    assert Annotations([cheese]) == ["Cheese (+$1.00)"];
  }

  /** A burger at 8.99 with a 1.00 cheese add-on, and unchecked fries:
      one line, "Burger with Cheese (+$1.00)" at 9.99. */
  lemma BurgerOrderLines()
    ensures var menu := [
        MenuItem("Burger", Some(8.99), true, [Addon("Cheese", Some(1.00), true)]),
        MenuItem("Fries", Some(3.50), false, [])];
      && Subtotal(menu) == 9.99
      && LinesFor(SelectedItems(menu)) == [OrderLine("Burger", "Burger with Cheese (+$1.00)", 9.99)]
  {
    var burger := MenuItem("Burger", Some(8.99), true, [Addon("Cheese", Some(1.00), true)]);
    var menu := [burger, MenuItem("Fries", Some(3.50), false, [])];
    CheeseBurgerLine();
    assert menu[..1] == [burger] && [burger][..0] == [];
    assert Subtotal([burger]) == 9.99;
    assert SelectedItems([burger]) == [burger];
    assert SelectedItems(menu) == [burger];
    assert LinesFor([burger])[0] == LineFor(burger);
  }
}
