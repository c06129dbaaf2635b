/** The order summary shown under the form: subtotal, tax and total of the
    current selection. */
module OrderSummary {
  import opened Selection

  /** South Carolina sales tax, 8.5%. */
  const TAX_RATE: real := 0.085

  datatype Summary = Summary(subtotal: real, tax: real, total: real)

  function AddonCharge(addon: Addon): (charge: real)
  {
    if addon.checked then PriceOf(addon.price) else 0.0
  }

  /** Sum of the prices of the checked add-ons. */
  function CheckedAddonsTotal(addons: seq<Addon>): (total: real)
  {
    if addons == [] then 0.0
    else CheckedAddonsTotal(addons[..|addons| - 1]) + AddonCharge(addons[|addons| - 1])
  }

  /** An item's price plus the prices of its checked add-ons. */
  function LinePrice(item: MenuItem): (price: real)
  {
    PriceOf(item.price) + CheckedAddonsTotal(item.addons)
  }

  /** What an item adds to the subtotal: nothing unless it is checked. */
  function ItemCharge(item: MenuItem): (charge: real)
  {
    if item.checked then LinePrice(item) else 0.0
  }

  /** The subtotal: over the checked items only, the item's price plus its
      checked add-ons. */
  function Subtotal(menu: seq<MenuItem>): (subtotal: real)
  {
    if menu == [] then 0.0 else Subtotal(menu[..|menu| - 1]) + ItemCharge(menu[|menu| - 1])
  }

  /** Tax is the subtotal times the tax rate; the total adds it to the subtotal. */
  function SummaryFor(subtotal: real): (s: Summary)
  {
    var tax := subtotal * TAX_RATE;
    Summary(subtotal, tax, subtotal + tax)
  }

  function SummaryOf(menu: seq<MenuItem>): (s: Summary)
  {
    SummaryFor(Subtotal(menu))
  }

  /** The running sum of `updateOrderSummary`: one pass over the items, and
      for each checked item one pass over its checked add-ons. */
  method ComputeSummary(menu: seq<MenuItem>) returns (summary: Summary)
    ensures summary == SummaryOf(menu)
  {
    var subtotal := 0.0;
    var i := 0;
    while i < |menu|
      invariant 0 <= i <= |menu|
      invariant subtotal == Subtotal(menu[..i])
    {
      var item := menu[i];
      if item.checked {
        subtotal := subtotal + PriceOf(item.price);
        var j := 0;
        while j < |item.addons|
          invariant 0 <= j <= |item.addons|
          invariant subtotal == Subtotal(menu[..i]) + PriceOf(item.price) + CheckedAddonsTotal(item.addons[..j])
        {
          var addon := item.addons[j];
          if addon.checked {
            subtotal := subtotal + PriceOf(addon.price);
          }
          assert item.addons[..j + 1][..j] == item.addons[..j];
          j := j + 1;
        }
        assert item.addons[..j] == item.addons;
      }
      assert menu[..i + 1][..i] == menu[..i];
      i := i + 1;
    }
    assert menu[..i] == menu;
    var tax := subtotal * TAX_RATE;
    var total := subtotal + tax;
    summary := Summary(subtotal, tax, total);
  }

  lemma {:induction false} AddonsTotalNonNegative(addons: seq<Addon>)
    requires forall j :: 0 <= j < |addons| ==> PriceOf(addons[j].price) >= 0.0
    ensures CheckedAddonsTotal(addons) >= 0.0
  {
    if addons != [] {
      AddonsTotalNonNegative(addons[..|addons| - 1]);
    }
  }

  lemma {:induction false} SubtotalNonNegative(menu: seq<MenuItem>)
    requires PricesNonNegative(menu)
    ensures Subtotal(menu) >= 0.0
  {
    if menu != [] {
      SubtotalNonNegative(menu[..|menu| - 1]);
      AddonsTotalNonNegative(menu[|menu| - 1].addons);
    }
  }

  /** With non-negative prices, 0 <= subtotal <= total, and the tax is the
      8.5% of the subtotal that the total adds. */
  lemma SummaryBounds(menu: seq<MenuItem>)
    requires PricesNonNegative(menu)
    ensures var s := SummaryOf(menu);
      0.0 <= s.subtotal <= s.total && 0.0 <= s.tax && s.total == s.subtotal + s.tax
      && s.tax == s.subtotal * 0.085
  {
    SubtotalNonNegative(menu);
  }

  /** With nothing checked, subtotal, tax and total are all 0, whatever the
      add-on boxes say. */
  lemma {:induction false} NothingCheckedSumsToZero(menu: seq<MenuItem>)
    requires NothingChecked(menu)
    ensures SummaryOf(menu) == Summary(0.0, 0.0, 0.0)
  {
    if menu != [] {
      NothingCheckedSumsToZero(menu[..|menu| - 1]);
    }
  }

  lemma {:induction false} SubtotalConcat(a: seq<MenuItem>, b: seq<MenuItem>)
    ensures Subtotal(a + b) == Subtotal(a) + Subtotal(b)
  {
    if b == [] {
      assert a + b == a;
    } else {
      assert (a + b)[..|a + b| - 1] == a + b[..|b| - 1];
      SubtotalConcat(a, b[..|b| - 1]);
    }
  }

  lemma {:induction false} AddonsTotalConcat(a: seq<Addon>, b: seq<Addon>)
    ensures CheckedAddonsTotal(a + b) == CheckedAddonsTotal(a) + CheckedAddonsTotal(b)
  {
    if b == [] {
      assert a + b == a;
    } else {
      assert (a + b)[..|a + b| - 1] == a + b[..|b| - 1];
      AddonsTotalConcat(a, b[..|b| - 1]);
    }
  }

  /** Replacing one item changes the subtotal by exactly the difference of
      the two items' charges. */
  lemma SubtotalUpdate(menu: seq<MenuItem>, i: nat, x: MenuItem)
    requires i < |menu|
    ensures Subtotal(menu[i := x]) == Subtotal(menu) - ItemCharge(menu[i]) + ItemCharge(x)
  {
    assert menu == menu[..i] + [menu[i]] + menu[i + 1..];
    assert menu[i := x] == menu[..i] + [x] + menu[i + 1..];
    assert Subtotal([x]) == ItemCharge(x) by { assert [x][..0] == []; }
    assert Subtotal([menu[i]]) == ItemCharge(menu[i]) by { assert [menu[i]][..0] == []; }
    SubtotalConcat(menu[..i] + [x], menu[i + 1..]);
    SubtotalConcat(menu[..i], [x]);
    SubtotalConcat(menu[..i] + [menu[i]], menu[i + 1..]);
    SubtotalConcat(menu[..i], [menu[i]]);
  }

  lemma AddonsTotalUpdate(addons: seq<Addon>, j: nat, x: Addon)
    requires j < |addons|
    ensures CheckedAddonsTotal(addons[j := x])
      == CheckedAddonsTotal(addons) - AddonCharge(addons[j]) + AddonCharge(x)
  {
    assert addons == addons[..j] + [addons[j]] + addons[j + 1..];
    assert addons[j := x] == addons[..j] + [x] + addons[j + 1..];
    assert CheckedAddonsTotal([x]) == AddonCharge(x) by { assert [x][..0] == []; }
    assert CheckedAddonsTotal([addons[j]]) == AddonCharge(addons[j]) by { assert [addons[j]][..0] == []; }
    AddonsTotalConcat(addons[..j] + [x], addons[j + 1..]);
    AddonsTotalConcat(addons[..j], [x]);
    AddonsTotalConcat(addons[..j] + [addons[j]], addons[j + 1..]);
    AddonsTotalConcat(addons[..j], [addons[j]]);
  }

  /** An unchecked item contributes nothing: replacing it by any other
      unchecked item, whatever its add-on boxes say, leaves the subtotal
      unchanged. */
  lemma UncheckedItemContributesNothing(menu: seq<MenuItem>, i: nat, x: MenuItem)
    requires i < |menu| && !menu[i].checked && !x.checked
    ensures Subtotal(menu[i := x]) == Subtotal(menu)
  {
    SubtotalUpdate(menu, i, x);
  }

  /** Clicking an item adds its line price (with the add-ons already checked
      inside it) when it becomes checked, and removes it when it becomes
      unchecked. */
  lemma {:induction false} ItemToggleSubtotal(menu: seq<MenuItem>, i: nat)
    requires i < |menu|
    ensures menu[i].checked ==> Subtotal(ItemToggled(menu, i)) == Subtotal(menu) - LinePrice(menu[i])
    ensures !menu[i].checked ==> Subtotal(ItemToggled(menu, i)) == Subtotal(menu) + LinePrice(menu[i])
  {
    var m := ItemToggled(menu, i);
    assert m == menu[i := m[i]];
    SubtotalUpdate(menu, i, m[i]);
  }

  /** Clicking an add-on moves the subtotal by its price only when its item
      is checked. */
  lemma AddonToggleSubtotal(menu: seq<MenuItem>, i: nat, j: nat)
    requires i < |menu| && j < |menu[i].addons|
    ensures var addon := menu[i].addons[j];
      Subtotal(AddonToggled(menu, i, j))
      == if !menu[i].checked then Subtotal(menu)
         else if addon.checked then Subtotal(menu) - PriceOf(addon.price)
         else Subtotal(menu) + PriceOf(addon.price)
  {
    var m := AddonToggled(menu, i, j);
    var addons := menu[i].addons;
    assert m == menu[i := m[i]];
    SubtotalUpdate(menu, i, m[i]);
    AddonsTotalUpdate(addons, j, addons[j].(checked := !addons[j].checked));
  }
}
