/** The order page's controller: the live form state and one method per
    event the script handles (page load, item and add-on clicks, order type
    change, submit, and the completion timer). */
module OrderPage {
  import opened Selection
  import opened OrderSummary
  import opened OrderRecord
  import opened EmailPayload

  const NO_ITEMS_MESSAGE: string := "Please select at least one menu item."
  const SUCCESS_MESSAGE: string := "Order submitted successfully! We'll contact you soon to confirm details."

  /** The message shown above the submit button. */
  datatype Banner = NoBanner | ErrorBanner(text: string) | SuccessBanner(text: string)

  datatype SubmitOutcome =
    | Blocked             // the submit button is disabled: the browser does not submit
    | Rejected(message: string)
    | Accepted

  class OrderForm {
    /** The check boxes and the order type as the page declares them, which
        a form reset restores. */
    const defaults: seq<MenuItem>
    const defaultOrderType: Option<string>

    var menu: seq<MenuItem>
    var orderType: Option<string>
    var deliveryVisible: bool
    var addressRequired: bool
    var cityRequired: bool
    var zipcodeRequired: bool
    var loading: bool
    var disabled: bool
    /** The subtotal, tax and total on display. */
    var shown: Summary
    var banner: Banner
    /** The email content waiting for the completion timer, if any. */
    var pending: Option<EmailContent>

    /** The submit button is loading and disabled exactly while an order
        waits for the timer, and the three address fields are required
        together or not at all. */
    ghost predicate Valid()
      reads this
    {
      && loading == disabled
      && (pending.Some? <==> disabled)
      && addressRequired == cityRequired == zipcodeRequired
    }

    /** The display shows the summary of the current selection. */
    ghost predicate SummaryCurrent()
      reads this
    {
      shown == SummaryOf(menu)
    }

    /** Page load: the form as declared, and the summary computed once. */
    constructor (defaults: seq<MenuItem>, defaultOrderType: Option<string>, deliveryShown: bool, deliveryRequired: bool)
      ensures Valid() && SummaryCurrent()
      ensures this.defaults == defaults && this.defaultOrderType == defaultOrderType
      ensures menu == defaults && orderType == defaultOrderType
      ensures deliveryVisible == deliveryShown && addressRequired == deliveryRequired
      ensures !loading && !disabled && banner == NoBanner && pending == None
    {
      this.defaults := defaults;
      this.defaultOrderType := defaultOrderType;
      menu := defaults;
      orderType := defaultOrderType;
      deliveryVisible := deliveryShown;
      addressRequired, cityRequired, zipcodeRequired := deliveryRequired, deliveryRequired, deliveryRequired;
      loading, disabled := false, false;
      banner := NoBanner;
      pending := None;
      shown := Summary(0.0, 0.0, 0.0);
      new;
      UpdateOrderSummary();
    }

    /** `updateOrderSummary`: recompute and display subtotal, tax and total. */
    method UpdateOrderSummary()
      modifies this`shown
      ensures SummaryCurrent()
    {
      shown := ComputeSummary(menu);
    }

    /** The change handler of item `i`: the box has flipped; if it is now
        unchecked, every add-on box inside the item is cleared one by one;
        then the summary is recomputed once. */
    method ToggleItem(i: nat)
      requires Valid() && i < |menu|
      modifies this`menu, this`shown
      ensures Valid() && SummaryCurrent()
      ensures menu == ItemToggled(old(menu), i)
    {
      var item := menu[i].(checked := !menu[i].checked);
      if !item.checked {
        var addons := item.addons;
        var j := 0;
        while j < |addons|
          invariant 0 <= j <= |addons| == |item.addons|
          invariant forall k :: 0 <= k < j ==> addons[k] == item.addons[k].(checked := false)
          invariant forall k :: j <= k < |addons| ==> addons[k] == item.addons[k]
        {
          addons := addons[j := addons[j].(checked := false)];
          j := j + 1;
        }
        assert addons == ClearedAddons(item.addons);
        item := item.(addons := addons);
      }
      menu := menu[i := item];
      UpdateOrderSummary();
    }

    /** The change handler of add-on `j` of item `i`: the box has flipped,
        whether or not the item is checked; the summary is recomputed. */
    method ToggleAddon(i: nat, j: nat)
      requires Valid() && i < |menu| && j < |menu[i].addons|
      modifies this`menu, this`shown
      ensures Valid() && SummaryCurrent()
      ensures menu == AddonToggled(old(menu), i, j)
    {
      var addons := menu[i].addons;
      menu := menu[i := menu[i].(addons := addons[j := addons[j].(checked := !addons[j].checked)])];
      UpdateOrderSummary();
    }

    /** The change handler of the order type radio buttons: delivery shows
        the address section and makes address, city and zipcode required;
        any other value hides the section and makes none of them required. */
    method ChooseOrderType(value: string)
      requires Valid()
      modifies this`orderType, this`deliveryVisible, this`addressRequired, this`cityRequired, this`zipcodeRequired
      ensures Valid()
      ensures orderType == Some(value)
      ensures deliveryVisible == (value == DELIVERY)
      ensures addressRequired == cityRequired == zipcodeRequired == (value == DELIVERY)
    {
      orderType := Some(value);
      if value == DELIVERY {
        deliveryVisible := true;
        addressRequired, cityRequired, zipcodeRequired := true, true, true;
      } else {
        deliveryVisible := false;
        addressRequired, cityRequired, zipcodeRequired := false, false, false;
      }
    }

    /** The submit handler. With no item checked it shows the error and
        stops: the button stays idle and no record is built. Otherwise the
        button turns loading and disabled, the order lines are built from
        the checked items, and the email content waits for the timer. */
    method Submit(fields: FormFields) returns (outcome: SubmitOutcome)
      requires Valid()
      modifies this`loading, this`disabled, this`banner, this`pending
      ensures Valid()
      ensures old(disabled) ==> outcome == Blocked && unchanged(this)
      ensures !old(disabled) && NothingChecked(menu) ==>
        && outcome == Rejected(NO_ITEMS_MESSAGE) && banner == ErrorBanner(NO_ITEMS_MESSAGE)
        && !loading && !disabled && pending == None
      ensures !old(disabled) && !NothingChecked(menu) ==>
        && outcome == Accepted && loading && disabled && banner == old(banner)
        && pending == Some(SubmissionContent(menu, fields, orderType))
    {
      if disabled {
        return Blocked;
      }
      var selected := SelectedItems(menu);
      NoSelectionIffNothingChecked(menu);
      if |selected| == 0 {
        banner := ErrorBanner(NO_ITEMS_MESSAGE);
        return Rejected(NO_ITEMS_MESSAGE);
      }
      loading, disabled := true, true;
      var lines := BuildOrderLines(selected);
      var data := OrderDataOf(fields, orderType, lines);
      pending := Some(EmailContentOf(data));
      outcome := Accepted;
    }

    /** The completion timer: the success message, `orderForm.reset()`
        (check boxes and order type back to their declared state), the
        address section hidden, the button idle again, and the email content
        handed to the notification sink. The displayed summary is not
        recomputed and the required flags are not touched. */
    method Complete() returns (sent: EmailContent)
      requires Valid() && pending.Some?
      modifies this`menu, this`orderType, this`deliveryVisible, this`loading, this`disabled, this`banner, this`pending
      ensures Valid()
      ensures sent == old(pending.value)
      ensures banner == SuccessBanner(SUCCESS_MESSAGE)
      ensures menu == defaults && orderType == defaultOrderType && !deliveryVisible
      ensures !loading && !disabled && pending == None
      ensures shown == old(shown)
    {
      sent := pending.value;
      banner := SuccessBanner(SUCCESS_MESSAGE);
      menu := defaults;
      orderType := defaultOrderType;
      deliveryVisible := false;
      loading, disabled := false, false;
      pending := None;
    }

    /** Completion followed by the summary refresh it lacks: the display
        again shows the selection, all zeros when the declared form has
        nothing checked. */
    method CompleteAndRefresh() returns (sent: EmailContent)
      requires Valid() && pending.Some?
      modifies this`menu, this`orderType, this`deliveryVisible, this`loading, this`disabled, this`banner, this`pending, this`shown
      ensures Valid() && SummaryCurrent()
      ensures sent == old(pending.value)
      ensures banner == SuccessBanner(SUCCESS_MESSAGE)
      ensures menu == defaults && orderType == defaultOrderType && !deliveryVisible
      ensures !loading && !disabled && pending == None
      ensures NothingChecked(defaults) ==> shown == Summary(0.0, 0.0, 0.0)
      ensures addressRequired == old(addressRequired) && cityRequired == old(cityRequired)
        && zipcodeRequired == old(zipcodeRequired)
    {
      sent := Complete();
      UpdateOrderSummary();
      if NothingChecked(defaults) {
        NothingCheckedSumsToZero(defaults);
      }
    }
  }

  /** A page with one unchecked 10.00 burger: check it, submit, and let the
      timer complete. `shownTotal` is the total the form displays after
      `Complete` (`form.shown.total`) and `liveTotal` the total of the form's
      selection at that point (`SummaryOf(form.menu).total`): the selection
      is cleared, yet the display still shows the burger's total. */
  method StaleSummaryAfterCompletion() returns (shownTotal: real, liveTotal: real)
    ensures shownTotal == 10.85 && liveTotal == 0.0
  {
    var burger := MenuItem("Burger", Some(10.0), false, []);
    var form := new OrderForm([burger], Some("pickup"), false, false);
    form.ToggleItem(0);
    var checkedBurger := burger.(checked := true);
    assert form.menu == [checkedBurger];
    assert [checkedBurger][..0] == [];
    assert Subtotal([checkedBurger]) == 10.0;
    assert form.shown.total == 10.85;
    assert !NothingChecked(form.menu) by { assert form.menu[0].checked; }
    var fields := FormFields(Some("Ann"), None, None, None, None, None, None);
    var outcome := form.Submit(fields);
    assert form.pending.Some?;
    var sent := form.Complete();
    assert form.menu == [burger];
    assert [burger][..0] == [];
    shownTotal := form.shown.total;
    liveTotal := SummaryOf(form.menu).total;
  }
}
