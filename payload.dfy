/** The order data collected from the form at submission, and the flat
    email content `sendOrderEmail` derives from it for the notification sink. */
module EmailPayload {
  import opened Format
  import opened Selection
  import opened OrderSummary
  import opened OrderRecord

  const DELIVERY: string := "delivery"

  /** What `new FormData(orderForm).get(field)` returns for the text fields:
      None where the form has no such value. */
  datatype FormFields = FormFields(
    customerName: Option<string>,
    customerPhone: Option<string>,
    customerEmail: Option<string>,
    address: Option<string>,
    city: Option<string>,
    zipcode: Option<string>,
    specialInstructions: Option<string>)

  datatype OrderData = OrderData(
    customerName: Option<string>,
    customerPhone: Option<string>,
    customerEmail: Option<string>,
    orderType: Option<string>,
    address: string,
    city: string,
    zipcode: string,
    menuItems: seq<OrderLine>,
    specialInstructions: string)

  datatype EmailContent = EmailContent(
    fromName: Option<string>,
    customerName: Option<string>,
    customerPhone: Option<string>,
    customerEmail: Option<string>,
    orderType: Option<string>,
    deliveryAddress: string,
    menuItems: string,
    specialInstructions: string,
    subtotal: string,
    tax: string,
    orderTotal: string)

  /** `value || ''`: a missing value and the empty string both give "". */
  function OrEmpty(value: Option<string>): (s: string)
  {
    match value
    case None => ""
    case Some(s) => s
  }

  /** The `orderData` object of the submit handler. */
  function OrderDataOf(fields: FormFields, orderType: Option<string>, lines: seq<OrderLine>): (data: OrderData)
  {
    OrderData(
      fields.customerName, fields.customerPhone, fields.customerEmail, orderType,
      OrEmpty(fields.address), OrEmpty(fields.city), OrEmpty(fields.zipcode),
      lines, OrEmpty(fields.specialInstructions))
  }

  /** One text line per order line: description, " - $" and the price. */
  function ItemListing(lines: seq<OrderLine>): (listing: string)
  {
    Join(seq(|lines|, k requires 0 <= k < |lines| => lines[k].description + " - $" + Fixed2(lines[k].price)), "\n")
  }

  /** The `emailContent` object of `sendOrderEmail` (without the fixed
      recipient and the order date and time). */
  function EmailContentOf(data: OrderData): (content: EmailContent)
  {
    var totals := SummaryFor(RecordSubtotal(data.menuItems));
    EmailContent(
      data.customerName, data.customerName, data.customerPhone, data.customerEmail,
      data.orderType,
      if data.orderType == Some(DELIVERY) then data.address + ", " + data.city + ", " + data.zipcode else "N/A",
      ItemListing(data.menuItems),
      if data.specialInstructions == "" then "None" else data.specialInstructions,
      "$" + Fixed2(totals.subtotal), "$" + Fixed2(totals.tax), "$" + Fixed2(totals.total))
  }

  /** The email content sent for a submission of `menu` with `fields` and `orderType`. */
  function SubmissionContent(menu: seq<MenuItem>, fields: FormFields, orderType: Option<string>): (content: EmailContent)
  {
    EmailContentOf(OrderDataOf(fields, orderType, LinesFor(SelectedItems(menu))))
  }

  /** The delivery address is "address, city, zipcode", with a missing field
      read as "", exactly when the order type is delivery, and "N/A" otherwise. */
  lemma DeliveryAddressField(fields: FormFields, orderType: Option<string>, lines: seq<OrderLine>)
    ensures var c := EmailContentOf(OrderDataOf(fields, orderType, lines));
      && (orderType == Some(DELIVERY) ==>
            c.deliveryAddress == OrEmpty(fields.address) + ", " + OrEmpty(fields.city) + ", " + OrEmpty(fields.zipcode))
      && (c.deliveryAddress == "N/A" <==> orderType != Some(DELIVERY))
  {
    var c := EmailContentOf(OrderDataOf(fields, orderType, lines));
    if orderType == Some(DELIVERY) {
      assert |c.deliveryAddress| >= 4;
    }
  }

  /** Blank special instructions, missing or empty, are sent as "None";
      anything else is sent as typed. */
  lemma SpecialInstructionsField(fields: FormFields, orderType: Option<string>, lines: seq<OrderLine>)
    ensures var c := EmailContentOf(OrderDataOf(fields, orderType, lines));
      && ((fields.specialInstructions == None || fields.specialInstructions == Some(""))
          ==> c.specialInstructions == "None")
      && ((fields.specialInstructions.Some? && fields.specialInstructions.value != "")
          ==> c.specialInstructions == fields.specialInstructions.value)
  {
  }

  /** The subtotal, tax and total in the email are the ones the live
      summary shows for the submitted selection. */
  lemma EmailTotalsMatchSummary(menu: seq<MenuItem>, fields: FormFields, orderType: Option<string>)
    ensures var c, s := SubmissionContent(menu, fields, orderType), SummaryOf(menu);
      && c.subtotal == "$" + Fixed2(s.subtotal)
      && c.tax == "$" + Fixed2(s.tax)
      && c.orderTotal == "$" + Fixed2(s.total)
  {
    RecordSubtotalMatchesLive(menu);
  }

  /** The customer's contact fields and the order type pass through unchanged. */
  lemma ContactFieldsPassThrough(fields: FormFields, orderType: Option<string>, lines: seq<OrderLine>)
    ensures var c := EmailContentOf(OrderDataOf(fields, orderType, lines));
      && c.fromName == fields.customerName && c.customerName == fields.customerName
      && c.customerPhone == fields.customerPhone && c.customerEmail == fields.customerEmail
      && c.orderType == orderType
  {
  }

  /** A burger at 8.99 with a 1.00 cheese add-on, and unchecked fries at
      3.50: subtotal $9.99, tax $0.85, total $10.84, and the burger's line
      reads "Burger with Cheese (+$1.00) - $9.99". */
  lemma BurgerOrderExample(fields: FormFields, orderType: Option<string>)
    ensures var menu := [
        MenuItem("Burger", Some(8.99), true, [Addon("Cheese", Some(1.00), true)]),
        MenuItem("Fries", Some(3.50), false, [])];
      var c := SubmissionContent(menu, fields, orderType);
      && SummaryOf(menu) == Summary(9.99, 0.84915, 10.83915)
      && c.subtotal == "$9.99" && c.tax == "$0.85" && c.orderTotal == "$10.84"
      && c.menuItems == "Burger with Cheese (+$1.00) - $9.99"
  {
    BurgerOrderLines();
    Fixed2Samples();
    var lines := [OrderLine("Burger", "Burger with Cheese (+$1.00)", 9.99)];
    assert RecordSubtotal(lines) == 9.99 by { assert lines[..0] == []; }
    assert ItemListing(lines) == "Burger with Cheese (+$1.00) - $9.99";
  }
}
