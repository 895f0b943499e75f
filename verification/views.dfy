/**
 * The booking webhook handler: from a booking-system payload it builds the
 * booker's CRM contact and reconciles it, writes one row of the master-data
 * ledger (updating the booking's row when the ledger already has it,
 * appending otherwise), then reconciles a contact for every additional
 * passenger slot with an email. The collaborators (item names, status
 * labels, keyword tables, the ledger lookup, the CRM's replies, the clock
 * and the rendering of dates and amounts) are parameters; the CRM requests
 * and the ledger write are returned as effects, in order.
 */
module Views {
  import opened Wrappers
  import opened PyText
  import opened Models
  import opened KeapApi
  import opened Locals
  import KeapCountries

  // ---------------------------------------------------------------------
  // The payload
  // ---------------------------------------------------------------------

  /**
   * A payload value where text is expected: a string, null, or the empty
   * object the booking system sends for a blank field.
   */
  datatype Value = Str(s: string) | Null | EmptyObject

  type Dict = map<string, Value>

  /** `d.get(key, default)` */
  function ValueAt(d: Dict, key: string, default: Value): Value {
    if key in d then d[key] else default
  }

  /** The value as a truthiness test and `x if x else ""` see it: null and `{}` are both falsy. */
  function AsPyStr(v: Value): (r: PyStr)
    ensures Truthy(r) <==> v.Str? && v.s != ""
  {
    if v.Str? then Some(v.s) else None
  }

  /** `str(v)`, also what an f-string interpolates. */
  function Render(v: Value): string {
    match v
    case Str(s) => s
    case Null => "None"
    case EmptyObject => "{}"
  }

  /** One ordered item: its `@attributes.item_id` and its `qty`. */
  datatype Item = Item(itemId: PyStr, qty: int)

  /**
   * `order.items.item`: a list of items, a single item, an object without
   * `@attributes` (this includes the `{}` default), or another value.
   */
  datatype ItemsShape = ItemList(items: seq<Item>) | SingleItem(item: Item) | BareObject | OtherShape

  datatype WebhookBooking = WebhookBooking(
    code: string, status: Value, customer: Dict, fields: Dict, order: Dict, items: ItemsShape)

  /** Booking timestamps rendered in the Europe/London zone. */
  datatype Dates = Dates(
    createdIso: string, startIso: string, endIso: string,   // %Y-%m-%d
    createdUk: string,                                       // %d/%m/%Y
    startCompact: string, endCompact: string)                // %Y%m%d

  /** What the handler obtains from its collaborators. */
  datatype Env = Env(
    itemName: PyStr -> string,         // str() of the item's name, from the booking system's API
    statuses: map<string, string>,     // the booking system's status labels
    productKeywords: seq<string>,
    venueKeywords: seq<string>,
    dates: Dates,
    taxIncludedTotal: string,          // sub_total + tax_total, to two decimals
    balanceDue: string,                // total - paid_total, to two decimals
    ledgerRow: Option<nat>,            // the ledger row holding the booking code, if any
    crm: nat -> CrmReplies,            // the CRM's replies to the contact of slot s (1 is the booker)
    now: int,
    tokenReply: TokenReply)

  const BOOKING_URL_PREFIX := "https://activeaway.checkfront.co.uk/booking/"

  function BookingUrl(code: string): string {
    BOOKING_URL_PREFIX + code
  }

  /**
   * `CHECKFRONT_STATUSES.get(status, status)` for a hashable status. An
   * empty object cannot be a dictionary key: `Webhook` raises before this
   * lookup is reached.
   */
  function StatusLabel(statuses: map<string, string>, status: Value): (r: Value)
    ensures status.Str? && status.s in statuses ==> r == Str(statuses[status.s])
    ensures !(status.Str? && status.s in statuses) ==> r == status
  {
    if status.Str? && status.s in statuses then Str(statuses[status.s]) else status
  }

  // ---------------------------------------------------------------------
  // Items: names, order name, quantity
  // ---------------------------------------------------------------------

  /** The item names looked up for the payload's items, in order. */
  function ItemNames(shape: ItemsShape, itemName: PyStr -> string): (names: seq<string>)
    ensures shape.ItemList? ==> |names| == |shape.items|
    ensures shape.ItemList? ==> forall i | 0 <= i < |names| :: names[i] == itemName(shape.items[i].itemId)
    ensures shape.SingleItem? ==> names == [itemName(shape.item.itemId)]
    ensures shape.BareObject? || shape.OtherShape? ==> names == []
  {
    match shape
    case ItemList(xs) => seq(|xs|, i requires 0 <= i < |xs| => itemName(xs[i].itemId))
    case SingleItem(x) => [itemName(x.itemId)]
    case _ => []
  }

  /** Collecting the item names, as the handler's loop does. */
  method ProductNames(shape: ItemsShape, itemName: PyStr -> string) returns (products: seq<string>)
    ensures products == ItemNames(shape, itemName)
  {
    products := [];
    if shape.ItemList? {
      var xs := shape.items;
      for i := 0 to |xs|
        invariant |products| == i
        invariant forall j | 0 <= j < i :: products[j] == itemName(xs[j].itemId)
      {
        products := products + [itemName(xs[i].itemId)];
      }
    } else if shape.SingleItem? {
      products := products + [itemName(shape.item.itemId)];
    }
  }

  /** The order name lists every item name: each occurs in the ", "-joined text. */
  lemma OrderNameListsEveryItem(names: seq<string>, i: int)
    requires 0 <= i < |names|
    ensures Contains(Join(names, ", "), names[i])
  {
    assert OccursAt(names[i], names[i], 0);
    JoinContains(names, ", ", i, names[i]);
  }

  predicate NoNegativeQuantity(xs: seq<Item>) {
    forall i | 0 <= i < |xs| :: xs[i].qty >= 0
  }

  /** The sum of the quantities; without negative lines it is at least each line. */
  function ListQuantity(xs: seq<Item>): (q: int)
    ensures NoNegativeQuantity(xs) ==> q >= 0 && forall i | 0 <= i < |xs| :: q >= xs[i].qty
  {
    if |xs| == 0 then 0 else ListQuantity(xs[..|xs| - 1]) + xs[|xs| - 1].qty
  }

  /** The quantity of a list is additive over any split of the list. */
  lemma {:induction false} ListQuantityAppend(xs: seq<Item>, ys: seq<Item>)
    ensures ListQuantity(xs + ys) == ListQuantity(xs) + ListQuantity(ys)
    decreases |ys|
  {
    if |ys| == 0 {
      assert xs + ys == xs;
    } else {
      assert (xs + ys)[..|xs + ys| - 1] == xs + ys[..|ys| - 1];
      ListQuantityAppend(xs, ys[..|ys| - 1]);
    }
  }

  /** The ordered quantity: the sum over a list, the single item's, or 0. */
  function TotalQuantity(shape: ItemsShape): (q: int)
    ensures !shape.ItemList? && !shape.SingleItem? ==> q == 0
    ensures shape.ItemList? && NoNegativeQuantity(shape.items) ==>
      q >= 0 && forall i | 0 <= i < |shape.items| :: q >= shape.items[i].qty
  {
    match shape
    case ItemList(xs) => ListQuantity(xs)
    case SingleItem(x) => x.qty
    case _ => 0
  }

  /** A one-element list and the same item sent alone give the same names and quantity. */
  lemma SingleItemListAgreesWithItem(x: Item, itemName: PyStr -> string)
    ensures TotalQuantity(ItemList([x])) == TotalQuantity(SingleItem(x))
    ensures ItemNames(ItemList([x]), itemName) == ItemNames(SingleItem(x), itemName)
  {
    assert [x][..0] == [];
    assert ListQuantity([x]) == ListQuantity([]) + x.qty;
  }

  /** Summing the quantities, as the handler's loop does. */
  method ProductQuantity(shape: ItemsShape) returns (quantity: int)
    ensures quantity == TotalQuantity(shape)
  {
    quantity := 0;
    if shape.ItemList? {
      var xs := shape.items;
      for i := 0 to |xs|
        invariant quantity == ListQuantity(xs[..i])
      {
        assert xs[..i + 1][..i] == xs[..i];
        quantity := quantity + xs[i].qty;
      }
      assert xs[..|xs|] == xs;
    }
    if shape.SingleItem? {
      quantity := shape.item.qty;
    }
  }

  // ---------------------------------------------------------------------
  // The records built from the payload
  // ---------------------------------------------------------------------

  /** What every contact of one booking shares. */
  datatype Order = Order(orderName: string, product: PyStr, venue: PyStr, booking: Booking)

  function BookingRecord(b: WebhookBooking, env: Env, product: PyStr, venue: PyStr): (r: Booking)
    ensures r.id == b.code && r.url == BookingUrl(b.code)
    ensures r.eventType == OrEmpty(product) && r.eventLocation == OrEmpty(venue)
  {
    NewBooking(
      Some(b.code), Some(BookingUrl(b.code)), AsPyStr(StatusLabel(env.statuses, b.status)),
      Some(env.dates.createdIso), Some(env.dates.startIso), Some(env.dates.endIso),
      product, AsPyStr(ValueAt(b.customer, "tennisclub", Null)),
      AsPyStr(ValueAt(b.customer, "p5grp_ldr", Null)), venue)
  }

  /** The order-level values, from the item names and the keyword tables. */
  function OrderOf(b: WebhookBooking, env: Env): (o: Order)
    ensures o.orderName == Join(ItemNames(b.items, env.itemName), ", ")
    ensures o.product == LastMatch(env.productKeywords, o.orderName)
    ensures o.venue == LastMatch(env.venueKeywords, o.orderName)
    ensures o.booking.id == b.code
  {
    var name := Join(ItemNames(b.items, env.itemName), ", ");
    var product := LastMatch(env.productKeywords, name);
    var venue := LastMatch(env.venueKeywords, name);
    Order(name, product, venue, BookingRecord(b, env, product, venue))
  }

  /** A product keyword inside the name of any ordered item gives the order a product. */
  lemma ItemKeywordSetsProduct(b: WebhookBooking, env: Env, i: int, k: int)
    requires 0 <= i < |ItemNames(b.items, env.itemName)| && 0 <= k < |env.productKeywords|
    requires Contains(ItemNames(b.items, env.itemName)[i], env.productKeywords[k])
    ensures OrderOf(b, env).product.Some?
  {
    KeywordInAnItemIsRecognised(ItemNames(b.items, env.itemName), i, env.productKeywords, k);
  }

  function BookerBasic(b: WebhookBooking): BasicContactInfo {
    NewBasicContactInfo(
      AsPyStr(ValueAt(b.customer, "email", Str(""))),
      AsPyStr(ValueAt(b.customer, "name", Str(""))),
      AsPyStr(ValueAt(b.customer, "lplastname", Str(""))),
      Some(FilterTitle(AsPyStr(ValueAt(b.customer, "lptitle", Str(""))))),
      AsPyStr(ValueAt(b.customer, "phone", Str(""))))
  }

  function BookerBilling(b: WebhookBooking): BillingAddress {
    NewBillingAddress(
      AsPyStr(ValueAt(b.customer, "address", Str(""))),
      AsPyStr(ValueAt(b.customer, "addressline2", Str(""))),
      AsPyStr(ValueAt(b.customer, "city", Str(""))),
      AsPyStr(ValueAt(b.customer, "postal_zip", Str(""))),
      AsPyStr(ValueAt(b.customer, "country", Str(""))))
  }

  /** The passenger record read from the `p{n}...` booking fields. */
  function FieldPassenger(b: WebhookBooking, n: nat): AdditionalPassengerInfo
  {
    NewAdditionalPassengerInfo(
      AsPyStr(ValueAt(b.fields, SlotKey(n, "firstname"), Null)),
      AsPyStr(ValueAt(b.fields, SlotKey(n, "lastname"), Null)),
      AsPyStr(ValueAt(b.fields, SlotKey(n, "tennislevel"), Null)))
  }

  /**
   * The booker's contact: passengers 1, 2 and 3 are read from the fields
   * of p2, p3 and p3 again.
   */
  function BookerAttrs(b: WebhookBooking, o: Order): (a: ContactAttrs)
    ensures a.emailAddresses == [EmailAddress(OrEmpty(AsPyStr(ValueAt(b.customer, "email", Str("")))), "EMAIL1")]
    ensures Marker(a.customFields) == Some(Some(o.booking.id))
  {
    NewContactAttrs(
      BookerBasic(b), o.product, o.venue, o.orderName, BookerBilling(b),
      Render(ValueAt(b.customer, "iptennislevel", Null)),
      Render(ValueAt(b.fields, "tennis_standard__more_informat", Null)),
      FieldPassenger(b, 2), FieldPassenger(b, 3), FieldPassenger(b, 3), o.booking)
  }

  /**
   * The booker's third passenger repeats the second (both are read from the
   * p3 fields), so CRM fields 257/259 carry the 247/249 contents.
   */
  lemma ThirdPassengerRepeatsSecond(b: WebhookBooking, o: Order)
    ensures var fs := BookerAttrs(b, o).customFields;
      && fs[7] == CustomField(257, fs[4].content) && fs[8] == CustomField(259, fs[5].content)
  {
    RepeatedPassengerRepeatsFields(
      Render(ValueAt(b.customer, "iptennislevel", Null)),
      Render(ValueAt(b.fields, "tennis_standard__more_informat", Null)),
      FieldPassenger(b, 2), FieldPassenger(b, 3), o.booking);
  }

  // ---------------------------------------------------------------------
  // Passenger slots
  // ---------------------------------------------------------------------

  /** `f"p{n}{suffix}"` */
  function SlotKey(n: nat, suffix: string): string {
    "p" + NatText(n) + suffix
  }

  /**
   * Slot `n` is handled when its `p{n}_email` field is set; slot 2 also
   * answers to the hyphenated `p2-email` key. Only a key present in the
   * payload with a non-empty value triggers a slot.
   */
  function SlotTriggered(fields: Dict, n: nat): (r: bool)
    ensures SlotKey(n, "_email") in fields && Truthy(AsPyStr(fields[SlotKey(n, "_email")])) ==> r
    ensures n == 2 && "p2-email" in fields && Truthy(AsPyStr(fields["p2-email"])) ==> r
    ensures r ==> (SlotKey(n, "_email") in fields && Truthy(AsPyStr(fields[SlotKey(n, "_email")])))
                  || (n == 2 && "p2-email" in fields && Truthy(AsPyStr(fields["p2-email"])))
  {
    (n == 2 && Truthy(AsPyStr(ValueAt(fields, "p2-email", Str("")))))
    || Truthy(AsPyStr(ValueAt(fields, SlotKey(n, "_email"), Str(""))))
  }

  /** The email the contact of slot `n` is created with. */
  function SlotEmail(fields: Dict, n: nat): (v: Value)
    ensures Truthy(AsPyStr(v)) ==> SlotTriggered(fields, n)
    ensures n != 2 ==> (Truthy(AsPyStr(v)) <==> SlotTriggered(fields, n))
    ensures v == ValueAt(fields, if n == 2 then "p2-email" else SlotKey(n, "_email"), Str(""))
  {
    if n == 2 then ValueAt(fields, "p2-email", Str("")) else ValueAt(fields, SlotKey(n, "_email"), Str(""))
  }

  function PassengerBasic(b: WebhookBooking, n: nat): BasicContactInfo
  {
    NewBasicContactInfo(
      AsPyStr(SlotEmail(b.fields, n)),
      AsPyStr(ValueAt(b.fields, SlotKey(n, "firstname"), Str(""))),
      AsPyStr(ValueAt(b.fields, SlotKey(n, "lastname"), Str(""))),
      Some(FilterTitle(AsPyStr(ValueAt(b.fields, SlotKey(n, "title"), Str(""))))),
      AsPyStr(if n == 2 then ValueAt(b.fields, "p2-phone", Str("")) else ValueAt(b.fields, SlotKey(n, "_phone"), Str(""))))
  }

  const BLANK_BILLING := NewBillingAddress(Some(""), Some(""), Some(""), Some(""), Some(""))
  const BLANK_PASSENGER := NewAdditionalPassengerInfo(Some(""), Some(""), Some(""))

  /** The contact of passenger slot `n`: same order and booking, blank address and passengers. */
  function PassengerAttrs(b: WebhookBooking, o: Order, n: nat): (a: ContactAttrs)
    ensures |a.emailAddresses| == 1 && a.emailAddresses[0].email == OrEmpty(AsPyStr(SlotEmail(b.fields, n)))
    ensures a.emailAddresses[0].email
         == OrEmpty(AsPyStr(ValueAt(b.fields, if n == 2 then "p2-email" else SlotKey(n, "_email"), Str(""))))
    ensures |a.phoneNumbers| == 1 && a.phoneNumbers[0].number
         == OrEmpty(AsPyStr(ValueAt(b.fields, if n == 2 then "p2-phone" else SlotKey(n, "_phone"), Str(""))))
    ensures a.givenName == OrEmpty(AsPyStr(ValueAt(b.fields, SlotKey(n, "firstname"), Str(""))))
    ensures a.familyName == OrEmpty(AsPyStr(ValueAt(b.fields, SlotKey(n, "lastname"), Str(""))))
    ensures a.prefix == FilterTitle(AsPyStr(ValueAt(b.fields, SlotKey(n, "title"), Str(""))))
    ensures Marker(a.customFields) == Some(Some(o.booking.id))
    ensures a.addresses == [Address(KeapCountries.CountryCode(""), "BILLING", "", "", "", "", "", "", "")]
    ensures |a.customFields| == 19
    ensures a.customFields[0] == CustomField(9, Some(Render(ValueAt(b.fields, SlotKey(n, "tennislevel"), Str(""))) + " - "))
    ensures forall i | 1 <= i < 9 :: a.customFields[i].content == Some("")
  {
    var level := Render(ValueAt(b.fields, SlotKey(n, "tennislevel"), Str("")));
    BlankPassengersSendEmptyFields(level, o.booking);
    NewContactAttrs(
      PassengerBasic(b, n), o.product, o.venue, o.orderName, BLANK_BILLING,
      level, "", BLANK_PASSENGER, BLANK_PASSENGER, BLANK_PASSENGER, o.booking)
  }

  /**
   * Slot 2 is triggered by `p2_email` alone, but its contact takes its
   * email from `p2-email`, so it is created with an empty email.
   */
  lemma SlotTwoMayHaveNoEmail(b: WebhookBooking, o: Order, email: string)
    requires email != "" && "p2-email" !in b.fields
    requires b.fields == b.fields[SlotKey(2, "_email") := Str(email)]
    ensures SlotTriggered(b.fields, 2)
    ensures PassengerAttrs(b, o, 2).emailAddresses[0].email == ""
  {
  }

  // ---------------------------------------------------------------------
  // The ledger row
  // ---------------------------------------------------------------------

  /** A ledger cell before coercion: a payload value, or the summed quantity. */
  datatype Cell = Raw(v: Value) | Count(n: int)

  /** `str(i) if i != {} else ""` */
  function CellText(c: Cell): (t: string)
    ensures c == Raw(EmptyObject) ==> t == ""
    ensures c.Raw? && c.v.Str? ==> t == c.v.s
    ensures c == Raw(Null) ==> t == "None"
    ensures c.Count? && c.n >= 0 ==> ParseNat(t) == c.n
  {
    match c
    case Raw(EmptyObject) => ""
    case Raw(v) => Render(v)
    case Count(n) =>
      if n >= 0 then ParseNatText(n); IntText(n) else IntText(n)
  }

  function FormatRow(cells: seq<Cell>): (row: seq<string>)
    ensures |row| == |cells|
    ensures forall i | 0 <= i < |cells| :: row[i] == CellText(cells[i])
  {
    seq(|cells|, i requires 0 <= i < |cells| => CellText(cells[i]))
  }

  function OptionCell(v: PyStr): Cell {
    match v
    case None => Raw(Null)
    case Some(s) => Raw(Str(s))
  }

  datatype DictName = CustomerDict | FieldsDict

  /** A ledger column copied from the payload: `booking[dict].get(key, default)`. */
  datatype Column = Column(dict: DictName, key: string, default: Value)

  /** The payload columns of the ledger row from date of birth to the inbound flight number. */
  const DETAIL_COLUMNS: seq<Column> := [
    Column(CustomerDict, "lpdob", Str("")), Column(CustomerDict, "email", Null),
    Column(CustomerDict, "phone", Str("")), Column(CustomerDict, "iptennislevel", Str("")),
    Column(FieldsDict, "tennis_standard__more_informat", Str("")), Column(CustomerDict, "address", Str("")),
    Column(CustomerDict, "addressline2", Str("")), Column(CustomerDict, "city", Str("")),
    Column(CustomerDict, "postal_zip", Str("")), Column(CustomerDict, "country", Str("")),
    Column(FieldsDict, "promo", Str("")), Column(FieldsDict, "how_did_hear_about_this_holida", Str("")),
    Column(FieldsDict, "numbertravelling", Str("")), Column(FieldsDict, "how_many_players", Str("")),
    Column(FieldsDict, "tennisclub", Str("")), Column(FieldsDict, "coachgroup", Str("")),
    Column(CustomerDict, "p5grp_ldr", Str("")), Column(FieldsDict, "sales_agent", Str("")),
    Column(FieldsDict, "linked_booking_id", Str("")), Column(FieldsDict, "p5board_basis", Str("")),
    Column(FieldsDict, "p5r1_type", Str("")), Column(FieldsDict, "p5room1_basis", Str("")),
    Column(FieldsDict, "p5r1_sharing", Str("")), Column(FieldsDict, "room_1_id", Str("")),
    Column(FieldsDict, "p5room2_type", Str("")), Column(FieldsDict, "p5room2_basis", Str("")),
    Column(FieldsDict, "p5r2_sharing", Str("")), Column(FieldsDict, "room_2_id", Str("")),
    Column(FieldsDict, "p5r3_type", Str("")), Column(FieldsDict, "p5room3_basis", Str("")),
    Column(FieldsDict, "p5r3_sharing", Str("")), Column(FieldsDict, "room_3_id", Str("")),
    Column(FieldsDict, "p2firstname", Str("")), Column(FieldsDict, "p2lastname", Str("")),
    Column(FieldsDict, "p2dob", Str("")), Column(FieldsDict, "p2-email", Str("")),
    Column(FieldsDict, "p2-phone", Str("")), Column(FieldsDict, "p2tennislevel", Str("")),
    Column(FieldsDict, "p3firstname", Str("")), Column(FieldsDict, "p3lastname", Str("")),
    Column(FieldsDict, "p3dob", Str("")), Column(FieldsDict, "p3_email", Str("")),
    Column(FieldsDict, "p3_phone", Str("")), Column(FieldsDict, "p3tennislevel", Str("")),
    Column(FieldsDict, "p4firstname", Str("")), Column(FieldsDict, "p4lastname", Str("")),
    Column(FieldsDict, "p4dob", Str("")), Column(FieldsDict, "p4_email", Str("")),
    Column(FieldsDict, "p4_phone", Str("")), Column(FieldsDict, "p4tennislevel", Str("")),
    Column(FieldsDict, "p5firstname", Str("")), Column(FieldsDict, "p5lastname", Str("")),
    Column(FieldsDict, "p5dob", Str("")), Column(FieldsDict, "p5_email", Str("")),
    Column(FieldsDict, "p5_phone", Str("")), Column(FieldsDict, "p5tennislevel", Str("")),
    Column(FieldsDict, "p6firstname", Str("")), Column(FieldsDict, "p6lastname", Str("")),
    Column(FieldsDict, "p6dob", Str("")), Column(FieldsDict, "p6_email", Str("")),
    Column(FieldsDict, "p6_phone", Str("")), Column(FieldsDict, "p6tennislevel", Str("")),
    Column(FieldsDict, "tenfitpackage", Str("")), Column(FieldsDict, "outbound_flight_arrival_date", Str("")),
    Column(FieldsDict, "outflighttime", Str("")), Column(FieldsDict, "outbound_flight_departure_airp", Str("")),
    Column(FieldsDict, "outbound_flight_arrival_airpor", Str("")), Column(FieldsDict, "outflightnum", Str("")),
    Column(FieldsDict, "inbound_flight_departure_date", Str("")), Column(FieldsDict, "inflighttime", Str("")),
    Column(FieldsDict, "inbound_flight_departure_airpo", Str("")), Column(FieldsDict, "inbound_flight_arrival_airport", Str("")),
    Column(FieldsDict, "inflightnum", Str(""))
  ]

  function DetailCell(b: WebhookBooking, col: Column): Cell {
    Raw(ValueAt(if col.dict == CustomerDict then b.customer else b.fields, col.key, col.default))
  }

  /** The ledger range is columns A to CU: 99 columns. */
  const LEDGER_COLUMNS := 99

  /** The ledger row for a booking, before coercion. */
  function LedgerCells(b: WebhookBooking, env: Env, o: Order, quantity: int, booker: ContactAttrs): (cells: seq<Cell>)
    ensures |cells| == 98 && |cells| <= LEDGER_COLUMNS
    ensures cells[0] == Raw(Str(b.code)) && cells[1] == Raw(StatusLabel(env.statuses, b.status))
    ensures cells[5] == OptionCell(o.product) && cells[6] == OptionCell(o.venue) && cells[7] == Count(quantity)
    ensures cells[17] == Raw(Str(o.orderName))
    ensures cells[19] == Raw(Str(booker.givenName)) && cells[20] == Raw(Str(booker.familyName))
    ensures cells[94] == Raw(Str(BookingUrl(b.code)))
  {
    [
      Raw(Str(b.code)), Raw(StatusLabel(env.statuses, b.status)), Raw(Str(env.dates.createdUk)),
      Raw(Str("")), Raw(Str("")), OptionCell(o.product), OptionCell(o.venue), Count(quantity),
      Raw(ValueAt(b.order, "sub_total", Str(""))), Raw(ValueAt(b.order, "tax_total", Null)),
      Raw(Str(env.taxIncludedTotal)), Raw(ValueAt(b.order, "discount", Null)), Raw(Str("")), Raw(Str("")),
      Raw(ValueAt(b.order, "paid_total", Str(""))), Raw(Str(env.balanceDue)), Raw(ValueAt(b.order, "total", Str(""))),
      Raw(Str(o.orderName)), Raw(ValueAt(b.customer, "lptitle", Str(""))),
      Raw(Str(booker.givenName)), Raw(Str(booker.familyName))
    ]
    + seq(|DETAIL_COLUMNS|, k requires 0 <= k < |DETAIL_COLUMNS| => DetailCell(b, DETAIL_COLUMNS[k]))
    + [Raw(Str(BookingUrl(b.code))), Raw(Str("")), Raw(Str(env.dates.startCompact)), Raw(Str(env.dates.endCompact))]
  }

  datatype LedgerWrite = UpdateRange(range: string, rows: seq<seq<string>>) | AppendRow(row: seq<string>)

  /** `f"A{r}:CU{r}"` */
  function RangeFor(r: nat): (s: string)
    ensures |s| == 2 * |NatText(r)| + 4
    ensures ParseNat(s[1..1 + |NatText(r)|]) == r
    ensures var t := NatText(r);
      && s[..1] == "A" && s[1..1 + |t|] == t && s[1 + |t|..4 + |t|] == ":CU" && s[4 + |t|..] == t
  {
    var t := NatText(r);
    InfixAt("A", t, ":CU", t);
    ParseNatText(r);
    "A" + t + ":CU" + t
  }

  /** Different ledger rows are addressed by different ranges. */
  lemma RangeNamesOneRow(r1: nat, r2: nat)
    requires RangeFor(r1) == RangeFor(r2)
    ensures r1 == r2
  {
    var t1, t2 := NatText(r1), NatText(r2);
    assert |RangeFor(r1)| == 2 * |t1| + 4 && |RangeFor(r2)| == 2 * |t2| + 4;
    InfixAt("A", t1, ":CU", t1);
    InfixAt("A", t2, ":CU", t2);
    NatTextInjective(r1, r2);
  }

  lemma InfixAt(p: string, t: string, q: string, u: string)
    ensures (p + t + q + u)[|p|..|p| + |t|] == t
  {
    var s := p + t + q + u;
    forall k | 0 <= k < |t|
      ensures s[|p|..|p| + |t|][k] == t[k]
    {
      assert s[|p| + k] == t[k];
    }
  }

  /** Update the booking's row when the lookup found one (a truthy row number), append otherwise. */
  function LedgerWriteFor(found: Option<nat>, cells: seq<Cell>): (w: LedgerWrite)
    ensures w.UpdateRange? <==> found.Some? && found.value != 0
    ensures w.UpdateRange? ==> w.range == RangeFor(found.value) && w.rows == [FormatRow(cells)]
    ensures w.AppendRow? ==> w.row == FormatRow(cells)
  {
    if found.Some? && found.value != 0 then UpdateRange(RangeFor(found.value), [FormatRow(cells)])
    else AppendRow(FormatRow(cells))
  }

  // ---------------------------------------------------------------------
  // The whole request, on values
  // ---------------------------------------------------------------------

  /** An outside effect: a CRM request made for the contact of a slot, or the ledger write. */
  datatype Effect = Crm(slot: nat, request: CrmRequest) | Ledger(write: LedgerWrite)

  datatype WebhookError = ItemWithoutAttributes | UnhashableStatus | CrmFailed(slot: nat, cause: CrmError)

  /** The handler's answer: 200, or an exception that escapes it. */
  datatype Response = Responded(status: int) | Raised(error: WebhookError)

  function AsEffects(slot: nat, requests: seq<CrmRequest>): (es: seq<Effect>)
    ensures |es| == |requests|
    ensures forall j | 0 <= j < |es| :: es[j] == Crm(slot, requests[j])
  {
    seq(|requests|, j requires 0 <= j < |requests| => Crm(slot, requests[j]))
  }

  /** The reconciliation of slot `n`'s contact, starting from credential `c`. */
  function SlotSaga(b: WebhookBooking, env: Env, o: Order, n: nat, c: Credential): Saga
  {
    Reconcile(PassengerAttrs(b, o, n), INITIAL_TAG_IDS, c, env.now, env.tokenReply, env.crm(n))
  }

  datatype PassengerRun = PassengerRun(
    failure: Option<WebhookError>, effects: seq<Effect>, cred: Credential, tokenRequests: seq<TokenRequest>)

  /**
   * Slots `n` to 6 in turn: a triggered slot runs its reconciliation; the
   * first failure escapes and the later slots are not reached.
   */
  function RunSlots(triggered: nat -> bool, saga: (nat, Credential) -> Saga, n: nat, c: Credential): (run: PassengerRun)
    ensures run.failure.Some? ==> run.failure.value.CrmFailed? && n <= run.failure.value.slot
    decreases 7 - n
  {
    if n > 6 then PassengerRun(None, [], c, [])
    else if !triggered(n) then RunSlots(triggered, saga, n + 1, c)
    else
      var s := saga(n, c);
      if s.result.Failure? then
        PassengerRun(Some(CrmFailed(n, s.result.error)), AsEffects(n, s.requests), s.cred, s.tokenRequests)
      else
        var rest := RunSlots(triggered, saga, n + 1, s.cred);
        PassengerRun(rest.failure, AsEffects(n, s.requests) + rest.effects, rest.cred, s.tokenRequests + rest.tokenRequests)
  }

  function Triggers(b: WebhookBooking): nat -> bool {
    (k: nat) => SlotTriggered(b.fields, k)
  }

  function Sagas(b: WebhookBooking, env: Env, o: Order): (nat, Credential) -> Saga {
    (k: nat, c: Credential) => SlotSaga(b, env, o, k, c)
  }

  /** The passenger slots of a booking from slot `n` on. */
  function Passengers(b: WebhookBooking, env: Env, o: Order, n: nat, c: Credential): PassengerRun {
    RunSlots(Triggers(b), Sagas(b, env, o), n, c)
  }

  datatype Outcome = Outcome(response: Response, effects: seq<Effect>, cred: Credential, tokenRequests: seq<TokenRequest>)

  /**
   * The request's outcome from its parts: the booker's reconciliation, the
   * ledger write and the passenger run; a booker failure escapes before the
   * other two.
   */
  function Assemble(primary: Saga, write: LedgerWrite, run: PassengerRun): Outcome {
    if primary.result.Failure? then
      Outcome(Raised(CrmFailed(1, primary.result.error)), AsEffects(1, primary.requests), primary.cred, primary.tokenRequests)
    else
      Outcome(
        if run.failure.Some? then Raised(run.failure.value) else Responded(200),
        AsEffects(1, primary.requests) + [Ledger(write)] + run.effects,
        run.cred, primary.tokenRequests + run.tokenRequests)
  }

  function BookerSaga(b: WebhookBooking, env: Env, o: Order, c: Credential): Saga {
    Reconcile(BookerAttrs(b, o), INITIAL_TAG_IDS, c, env.now, env.tokenReply, env.crm(1))
  }

  function LedgerWriteOf(b: WebhookBooking, env: Env, o: Order): LedgerWrite {
    LedgerWriteFor(env.ledgerRow, LedgerCells(b, env, o, TotalQuantity(b.items), BookerAttrs(b, o)))
  }

  function BookerSagas(b: WebhookBooking, env: Env, o: Order): Credential -> Saga {
    (c: Credential) => BookerSaga(b, env, o, c)
  }

  /** The ledger write, made only once the booker is reconciled. */
  function LedgerWrites(b: WebhookBooking, env: Env, o: Order): () -> LedgerWrite {
    () => LedgerWriteOf(b, env, o)
  }

  /**
   * The handler past its item check, from its stages: the booker's
   * reconciliation, the ledger write and the passenger slots from 2 on.
   */
  function Handle(
    booker: Credential -> Saga, ledger: () -> LedgerWrite,
    triggered: nat -> bool, saga: (nat, Credential) -> Saga, c: Credential): Outcome
  {
    var primary := booker(c);
    Assemble(primary, ledger(), RunSlots(triggered, saga, 2, primary.cred))
  }

  /**
   * The payload survives the handler's first reads: the single item has
   * `@attributes`, and the status can be looked up (an empty object is
   * unhashable).
   */
  predicate PayloadReadable(b: WebhookBooking) {
    !b.items.BareObject? && b.status != EmptyObject
  }

  /**
   * `WebhooksView.post` on values. It only ever answers 200; a payload it
   * cannot read raises before any call is made.
   */
  function Webhook(b: WebhookBooking, env: Env, c: Credential): (w: Outcome)
    ensures w.response.Responded? ==> w.response.status == 200 && PayloadReadable(b)
    ensures !PayloadReadable(b) ==> w.response.Raised? && w.effects == [] && w.cred == c && w.tokenRequests == []
  {
    if b.items.BareObject? then Outcome(Raised(ItemWithoutAttributes), [], c, [])
    else if b.status == EmptyObject then Outcome(Raised(UnhashableStatus), [], c, [])
    else
      var o := OrderOf(b, env);
      Handle(BookerSagas(b, env, o), LedgerWrites(b, env, o), Triggers(b), Sagas(b, env, o), c)
  }

  /** The position of an effect in the handler's call order: booker, ledger, then slots 2 to 6. */
  function Rank(e: Effect): nat {
    match e
    case Crm(slot, _) => if slot <= 1 then 0 else slot
    case Ledger(_) => 1
  }

  predicate InCallOrder(es: seq<Effect>) {
    forall x, y | 0 <= x < y < |es| :: Rank(es[x]) <= Rank(es[y])
  }

  /** Two runs in call order, the first ranked no later than the second, are in call order together. */
  lemma InCallOrderConcat(xs: seq<Effect>, ys: seq<Effect>, mid: nat)
    requires InCallOrder(xs) && InCallOrder(ys)
    requires forall x | 0 <= x < |xs| :: Rank(xs[x]) <= mid
    requires forall y | 0 <= y < |ys| :: mid <= Rank(ys[y])
    ensures InCallOrder(xs + ys)
  {
    var es := xs + ys;
    forall x, y | 0 <= x < y < |es|
      ensures Rank(es[x]) <= Rank(es[y])
    {
      if x < |xs| && y >= |xs| {
        assert es[x] == xs[x] && es[y] == ys[y - |xs|];
      } else if x >= |xs| {
        assert es[x] == ys[x - |xs|] && es[y] == ys[y - |xs|];
      }
    }
  }

  /** A run's effects are CRM requests of triggered slots from `n` to 6, slot by slot. */
  lemma {:induction false} RunInSlotOrder(triggered: nat -> bool, saga: (nat, Credential) -> Saga, n: nat, c: Credential)
    requires n >= 2
    ensures var es := RunSlots(triggered, saga, n, c).effects;
      && InCallOrder(es)
      && forall x | 0 <= x < |es| :: es[x].Crm? && n <= es[x].slot <= 6 && triggered(es[x].slot)
    decreases 7 - n
  {
    if n <= 6 {
      if !triggered(n) {
        RunInSlotOrder(triggered, saga, n + 1, c);
      } else {
        var s := saga(n, c);
        if s.result.Success? {
          RunInSlotOrder(triggered, saga, n + 1, s.cred);
          var head, tail := AsEffects(n, s.requests), RunSlots(triggered, saga, n + 1, s.cred).effects;
          InCallOrderConcat(head, tail, n);
          var es := head + tail;
          forall x | 0 <= x < |es|
            ensures es[x].Crm? && n <= es[x].slot <= 6 && triggered(es[x].slot)
          {
            if x >= |head| {
              assert es[x] == tail[x - |head|];
            }
          }
        }
      }
    }
  }

  /**
   * A failing slot is the last one a run reaches: it was triggered, and no
   * request of a later slot was made.
   */
  lemma {:induction false} FailedSlotIsTheLast(triggered: nat -> bool, saga: (nat, Credential) -> Saga, n: nat, c: Credential)
    requires n >= 2
    ensures var run := RunSlots(triggered, saga, n, c);
      run.failure.Some? ==>
        && run.failure.value.CrmFailed?
        && n <= run.failure.value.slot <= 6 && triggered(run.failure.value.slot)
        && forall x | 0 <= x < |run.effects| :: run.effects[x].Crm? && run.effects[x].slot <= run.failure.value.slot
    decreases 7 - n
  {
    if n <= 6 {
      if !triggered(n) {
        FailedSlotIsTheLast(triggered, saga, n + 1, c);
      } else {
        var s := saga(n, c);
        if s.result.Success? {
          FailedSlotIsTheLast(triggered, saga, n + 1, s.cred);
          var run := RunSlots(triggered, saga, n + 1, s.cred);
          var head := AsEffects(n, s.requests);
          var es := head + run.effects;
          if run.failure.Some? {
            RunInSlotOrder(triggered, saga, n + 1, s.cred);
            forall x | 0 <= x < |es|
              ensures es[x].Crm? && es[x].slot <= run.failure.value.slot
            {
              if x >= |head| {
                assert es[x] == run.effects[x - |head|];
              }
            }
          }
        }
      }
    }
  }

  /** The credential slot `k` starts from when the run from slot `n` reaches it. */
  function SlotStart(triggered: nat -> bool, saga: (nat, Credential) -> Saga, n: nat, c: Credential, k: nat): Credential
    decreases 7 - n
  {
    if n > 6 || k <= n then c
    else if !triggered(n) then SlotStart(triggered, saga, n + 1, c, k)
    else SlotStart(triggered, saga, n + 1, saga(n, c).cred, k)
  }

  /** The number of effects the run from slot `n` makes before slot `k`. */
  function SlotOffset(triggered: nat -> bool, saga: (nat, Credential) -> Saga, n: nat, c: Credential, k: nat): nat
    decreases 7 - n
  {
    if n > 6 || k <= n then 0
    else if !triggered(n) then SlotOffset(triggered, saga, n + 1, c, k)
    else |saga(n, c).requests| + SlotOffset(triggered, saga, n + 1, saga(n, c).cred, k)
  }

  /**
   * Slot `k`'s reconciliation `s` succeeded and its requests sit in `es`
   * from position `off` on, in order, as slot `k`'s.
   */
  predicate SlotRunAt(es: seq<Effect>, s: Saga, off: nat, k: nat) {
    && s.result.Success?
    && off + |s.requests| <= |es|
    && forall j | 0 <= j < |s.requests| :: es[off + j] == Crm(k, s.requests[j])
  }

  lemma SlotRunAtHead(s: Saga, rest: seq<Effect>, k: nat)
    requires s.result.Success?
    ensures SlotRunAt(AsEffects(k, s.requests) + rest, s, 0, k)
  {
    var es := AsEffects(k, s.requests) + rest;
    forall j | 0 <= j < |s.requests|
      ensures es[j] == Crm(k, s.requests[j])
    {
      assert es[j] == AsEffects(k, s.requests)[j];
    }
  }

  lemma SlotRunShifts(head: seq<Effect>, rest: seq<Effect>, s: Saga, off: nat, k: nat)
    requires SlotRunAt(rest, s, off, k)
    ensures SlotRunAt(head + rest, s, |head| + off, k)
  {
    var es := head + rest;
    forall j | 0 <= j < |s.requests|
      ensures es[|head| + off + j] == Crm(k, s.requests[j])
    {
      assert es[|head| + off + j] == rest[off + j];
    }
  }

  /**
   * A run that raises nothing reconciles every triggered slot: the saga of
   * slot `k`, started from the credential the earlier slots left, succeeds,
   * and its requests appear in the run's effects, in order, as slot `k`'s.
   */
  lemma {:induction false} TriggeredSlotIsRun(triggered: nat -> bool, saga: (nat, Credential) -> Saga, n: nat, c: Credential, k: nat)
    requires n <= k <= 6 && triggered(k)
    requires RunSlots(triggered, saga, n, c).failure.None?
    ensures SlotRunAt(RunSlots(triggered, saga, n, c).effects,
      saga(k, SlotStart(triggered, saga, n, c, k)), SlotOffset(triggered, saga, n, c, k), k)
    decreases 7 - n
  {
    var s := saga(n, c);
    var rest := RunSlots(triggered, saga, n + 1, s.cred);
    if n == k {
      assert SlotStart(triggered, saga, n, c, k) == c && SlotOffset(triggered, saga, n, c, k) == 0;
      assert s.result.Success?;
      assert RunSlots(triggered, saga, n, c).effects == AsEffects(n, s.requests) + rest.effects;
      SlotRunAtHead(s, rest.effects, k);
    } else if !triggered(n) {
      assert RunSlots(triggered, saga, n, c).effects == RunSlots(triggered, saga, n + 1, c).effects;
      assert RunSlots(triggered, saga, n + 1, c).failure.None?;
      assert SlotStart(triggered, saga, n, c, k) == SlotStart(triggered, saga, n + 1, c, k);
      assert SlotOffset(triggered, saga, n, c, k) == SlotOffset(triggered, saga, n + 1, c, k);
      TriggeredSlotIsRun(triggered, saga, n + 1, c, k);
    } else {
      assert s.result.Success? && rest.failure.None?;
      var head := AsEffects(n, s.requests);
      assert RunSlots(triggered, saga, n, c).effects == head + rest.effects;
      assert SlotStart(triggered, saga, n, c, k) == SlotStart(triggered, saga, n + 1, s.cred, k);
      assert SlotOffset(triggered, saga, n, c, k) == |head| + SlotOffset(triggered, saga, n + 1, s.cred, k);
      TriggeredSlotIsRun(triggered, saga, n + 1, s.cred, k);
      SlotRunShifts(head, rest.effects, saga(k, SlotStart(triggered, saga, n + 1, s.cred, k)),
        SlotOffset(triggered, saga, n + 1, s.cred, k), k);
    }
  }

  /** A run that stays within slots 2 to 6 and in slot order keeps the assembled effects in call order. */
  lemma AssembledInCallOrder(primary: Saga, write: LedgerWrite, run: PassengerRun)
    requires InCallOrder(run.effects)
    requires forall x | 0 <= x < |run.effects| :: run.effects[x].Crm? && 2 <= run.effects[x].slot
    ensures InCallOrder(Assemble(primary, write, run).effects)
  {
    var head := AsEffects(1, primary.requests);
    assert InCallOrder(head);
    if primary.result.Success? {
      InCallOrderConcat(head, [Ledger(write)], 0);
      InCallOrderConcat(head + [Ledger(write)], run.effects, 1);
    }
  }

  /**
   * The assembled effects hold one ledger write, right after the booker's
   * requests, when the booker succeeded, and none otherwise.
   */
  lemma AssembledLedgerWrite(primary: Saga, write: LedgerWrite, run: PassengerRun)
    requires forall x | 0 <= x < |run.effects| :: run.effects[x].Crm?
    ensures var es := Assemble(primary, write, run).effects;
      var k := |primary.requests|;
      && (primary.result.Success? ==> k < |es| && es[k] == Ledger(write) && forall x | 0 <= x < |es| && x != k :: es[x].Crm?)
      && (primary.result.Failure? ==> forall x | 0 <= x < |es| :: es[x] == Crm(1, primary.requests[x]))
  {
    var head := AsEffects(1, primary.requests);
    if primary.result.Success? {
      var es := head + [Ledger(write)] + run.effects;
      forall x | 0 <= x < |es| && x != |head|
        ensures es[x].Crm?
      {
        if x > |head| {
          assert es[x] == run.effects[x - |head| - 1];
        }
      }
    }
  }

  /**
   * Whatever the stages do, the effects come in the handler's order: the
   * booker's CRM requests, then the ledger write, then the passengers slot
   * by slot; and only triggered slots, never beyond 6, make requests.
   */
  lemma HandledInCallOrder(
    booker: Credential -> Saga, ledger: () -> LedgerWrite,
    triggered: nat -> bool, saga: (nat, Credential) -> Saga, c: Credential)
    ensures var es := Handle(booker, ledger, triggered, saga, c).effects;
      && InCallOrder(es)
      && forall x | 0 <= x < |es| :: es[x].Crm? && es[x].slot >= 2 ==> es[x].slot <= 6 && triggered(es[x].slot)
  {
    var primary := booker(c);
    var write := ledger();
    var run := RunSlots(triggered, saga, 2, primary.cred);
    RunInSlotOrder(triggered, saga, 2, primary.cred);
    AssembledInCallOrder(primary, write, run);
    var head := AsEffects(1, primary.requests);
    var es := Assemble(primary, write, run).effects;
    assert primary.result.Failure? ==> es == head;
    assert primary.result.Success? ==> es == head + [Ledger(write)] + run.effects;
    forall x | 0 <= x < |es| && es[x].Crm? && es[x].slot >= 2
      ensures es[x].slot <= 6 && triggered(es[x].slot)
    {
      assert primary.result.Success? && x > |head|;
      assert es[x] == run.effects[x - |head| - 1];
    }
  }

  /** The handler's effects, for every payload, follow its call order; only triggered slots make requests. */
  lemma EffectsFollowCallOrder(b: WebhookBooking, env: Env, c: Credential)
    ensures var es := Webhook(b, env, c).effects;
      && InCallOrder(es)
      && forall x | 0 <= x < |es| :: es[x].Crm? && es[x].slot >= 2 ==> es[x].slot <= 6 && SlotTriggered(b.fields, es[x].slot)
  {
    if PayloadReadable(b) {
      var o := OrderOf(b, env);
      HandledInCallOrder(BookerSagas(b, env, o), LedgerWrites(b, env, o), Triggers(b), Sagas(b, env, o), c);
    }
  }

  /** A payload item object without `@attributes` raises before any call is made. */
  lemma BareItemRaisesFirst(b: WebhookBooking, env: Env, c: Credential)
    requires b.items.BareObject?
    ensures Webhook(b, env, c) == Outcome(Raised(ItemWithoutAttributes), [], c, [])
  {
  }

  /** A status sent as an empty object cannot be looked up: the handler raises before any call is made. */
  lemma UnhashableStatusRaisesFirst(b: WebhookBooking, env: Env, c: Credential)
    requires !b.items.BareObject? && b.status == EmptyObject
    ensures Webhook(b, env, c) == Outcome(Raised(UnhashableStatus), [], c, [])
  {
  }

  /**
   * When the booker's reconciliation fails its exception escapes with the
   * booker's requests as the only effects: no ledger write, no passenger.
   */
  lemma HandledBookerFailure(
    booker: Credential -> Saga, ledger: () -> LedgerWrite,
    triggered: nat -> bool, saga: (nat, Credential) -> Saga, c: Credential)
    requires booker(c).result.Failure?
    ensures var h := Handle(booker, ledger, triggered, saga, c);
      && h.response == Raised(CrmFailed(1, booker(c).result.error))
      && h.effects == AsEffects(1, booker(c).requests)
  {
  }

  /**
   * After a reconciled booker exactly one ledger write is made, right after
   * the booker's requests; every other effect is a CRM request.
   */
  lemma HandledLedgerWrite(
    booker: Credential -> Saga, ledger: () -> LedgerWrite,
    triggered: nat -> bool, saga: (nat, Credential) -> Saga, c: Credential)
    requires booker(c).result.Success?
    ensures var es := Handle(booker, ledger, triggered, saga, c).effects;
      var k := |booker(c).requests|;
      && k < |es| && es[k] == Ledger(ledger())
      && forall x | 0 <= x < |es| && x != k :: es[x].Crm?
  {
    var primary := booker(c);
    RunInSlotOrder(triggered, saga, 2, primary.cred);
    AssembledLedgerWrite(primary, ledger(), RunSlots(triggered, saga, 2, primary.cred));
  }

  /**
   * The handler answers 200 exactly when the booker and every triggered
   * passenger slot were reconciled; otherwise the first failure escapes.
   */
  lemma HandledOkExactlyWhenAllReconciled(
    booker: Credential -> Saga, ledger: () -> LedgerWrite,
    triggered: nat -> bool, saga: (nat, Credential) -> Saga, c: Credential)
    ensures var h := Handle(booker, ledger, triggered, saga, c);
      && (h.response.Responded? ==> h.response.status == 200)
      && (h.response == Responded(200) <==>
            booker(c).result.Success? && RunSlots(triggered, saga, 2, booker(c).cred).failure.None?)
      && (h.response.Raised? && booker(c).result.Success? ==>
            h.response.error == RunSlots(triggered, saga, 2, booker(c).cred).failure.value)
  {
  }

  /**
   * A 200 answer means every triggered passenger slot was reconciled: its
   * saga succeeded and its requests follow the booker's requests and the
   * ledger write, at the slot's place in the run.
   */
  lemma HandledTriggeredSlot(
    booker: Credential -> Saga, ledger: () -> LedgerWrite,
    triggered: nat -> bool, saga: (nat, Credential) -> Saga, c: Credential, k: nat)
    requires 2 <= k <= 6 && triggered(k)
    requires Handle(booker, ledger, triggered, saga, c).response == Responded(200)
    ensures SlotRunAt(Handle(booker, ledger, triggered, saga, c).effects,
      saga(k, SlotStart(triggered, saga, 2, booker(c).cred, k)),
      |booker(c).requests| + 1 + SlotOffset(triggered, saga, 2, booker(c).cred, k), k)
  {
    var primary := booker(c);
    var run := RunSlots(triggered, saga, 2, primary.cred);
    HandledOkExactlyWhenAllReconciled(booker, ledger, triggered, saga, c);
    assert primary.result.Success? && run.failure.None?;
    TriggeredSlotIsRun(triggered, saga, 2, primary.cred, k);
    var head := AsEffects(1, primary.requests) + [Ledger(ledger())];
    assert Handle(booker, ledger, triggered, saga, c).effects == head + run.effects;
    SlotRunShifts(head, run.effects, saga(k, SlotStart(triggered, saga, 2, primary.cred, k)),
      SlotOffset(triggered, saga, 2, primary.cred, k), k);
  }

  /** Each request of a triggered slot's reconciliation appears among the effects of a 200 answer. */
  lemma HandledSlotRequest(
    booker: Credential -> Saga, ledger: () -> LedgerWrite,
    triggered: nat -> bool, saga: (nat, Credential) -> Saga, c: Credential, k: nat, j: nat)
    requires 2 <= k <= 6 && triggered(k)
    requires Handle(booker, ledger, triggered, saga, c).response == Responded(200)
    requires j < |saga(k, SlotStart(triggered, saga, 2, booker(c).cred, k)).requests|
    ensures var es := Handle(booker, ledger, triggered, saga, c).effects;
      exists x | 0 <= x < |es| :: es[x] == Crm(k, saga(k, SlotStart(triggered, saga, 2, booker(c).cred, k)).requests[j])
  {
    HandledTriggeredSlot(booker, ledger, triggered, saga, c, k);
    var es := Handle(booker, ledger, triggered, saga, c).effects;
    var s := saga(k, SlotStart(triggered, saga, 2, booker(c).cred, k));
    var off := |booker(c).requests| + 1 + SlotOffset(triggered, saga, 2, booker(c).cred, k);
    assert SlotRunAt(es, s, off, k);
    assert es[off + j] == Crm(k, s.requests[j]);
  }

  /**
   * A 200 answer upserts the contact of every triggered slot whose
   * reconciliation is that of a fixed contact `a`.
   */
  lemma HandledSlotUpserts(
    booker: Credential -> Saga, ledger: () -> LedgerWrite,
    triggered: nat -> bool, saga: (nat, Credential) -> Saga, c: Credential, k: nat,
    a: ContactAttrs, tagIds: seq<int>, now: int, tr: TokenReply, replies: CrmReplies)
    requires 2 <= k <= 6 && triggered(k) && |a.emailAddresses| >= 1
    requires forall cr :: saga(k, cr) == Reconcile(a, tagIds, cr, now, tr, replies)
    requires Handle(booker, ledger, triggered, saga, c).response == Responded(200)
    ensures var es := Handle(booker, ledger, triggered, saga, c).effects;
      exists x | 0 <= x < |es| ::
        es[x].Crm? && es[x].slot == k && es[x].request.PutContact? && es[x].request.payload == PayloadOf(a)
  {
    HandledTriggeredSlot(booker, ledger, triggered, saga, c, k);
    var ck := SlotStart(triggered, saga, 2, booker(c).cred, k);
    var s := saga(k, ck);
    CompletedReconcileCallsInOrder(a, tagIds, ck, now, tr, replies);
    HandledSlotRequest(booker, ledger, triggered, saga, c, k, 1);
    var es := Handle(booker, ledger, triggered, saga, c).effects;
    var x :| 0 <= x < |es| && es[x] == Crm(k, s.requests[1]);
    assert es[x].request.payload == PayloadOf(a);
  }

  /** `TriggeredPassengerIsUpserted` for any order the handler derives. */
  lemma HandledPassengerIsUpserted(b: WebhookBooking, env: Env, o: Order, c: Credential, k: nat)
    requires 2 <= k <= 6 && SlotTriggered(b.fields, k)
    requires Handle(BookerSagas(b, env, o), LedgerWrites(b, env, o), Triggers(b), Sagas(b, env, o), c).response == Responded(200)
    ensures var es := Handle(BookerSagas(b, env, o), LedgerWrites(b, env, o), Triggers(b), Sagas(b, env, o), c).effects;
      exists x | 0 <= x < |es| ::
        && es[x].Crm? && es[x].slot == k && es[x].request.PutContact?
        && es[x].request.payload == PayloadOf(PassengerAttrs(b, o, k))
  {
    var saga := Sagas(b, env, o);
    var a := PassengerAttrs(b, o, k);
    forall cr
      ensures saga(k, cr) == Reconcile(a, INITIAL_TAG_IDS, cr, env.now, env.tokenReply, env.crm(k))
    {
    }
    HandledSlotUpserts(BookerSagas(b, env, o), LedgerWrites(b, env, o), Triggers(b), saga, c, k,
      a, INITIAL_TAG_IDS, env.now, env.tokenReply, env.crm(k));
  }

  /**
   * A 200 answer means every passenger slot whose email key is set was
   * reconciled: the contact built from the slot's fields was upserted.
   */
  lemma TriggeredPassengerIsUpserted(b: WebhookBooking, env: Env, c: Credential, k: nat)
    requires 2 <= k <= 6 && SlotTriggered(b.fields, k)
    requires Webhook(b, env, c).response == Responded(200)
    ensures var es := Webhook(b, env, c).effects;
      exists x | 0 <= x < |es| ::
        && es[x].Crm? && es[x].slot == k && es[x].request.PutContact?
        && es[x].request.payload == PayloadOf(PassengerAttrs(b, OrderOf(b, env), k))
  {
    HandledPassengerIsUpserted(b, env, OrderOf(b, env), c, k);
  }

  /**
   * When the booker's reconciliation fails the exception escapes: no ledger
   * write, and no passenger is reached.
   */
  lemma BookerFailureStopsEverything(b: WebhookBooking, env: Env, c: Credential)
    requires PayloadReadable(b) && BookerSaga(b, env, OrderOf(b, env), c).result.Failure?
    ensures var w := Webhook(b, env, c);
      && w.response == Raised(CrmFailed(1, BookerSaga(b, env, OrderOf(b, env), c).result.error))
      && forall x | 0 <= x < |w.effects| :: w.effects[x].Crm? && w.effects[x].slot == 1
  {
    var o := OrderOf(b, env);
    HandledBookerFailure(BookerSagas(b, env, o), LedgerWrites(b, env, o), Triggers(b), Sagas(b, env, o), c);
  }

  /**
   * After the booker is reconciled, exactly one ledger write is made, right
   * after the booker's requests: an update of the booking's row range when
   * the lookup found a row, an append otherwise.
   */
  lemma LedgerWrittenOnceAfterBooker(b: WebhookBooking, env: Env, c: Credential)
    requires PayloadReadable(b) && BookerSaga(b, env, OrderOf(b, env), c).result.Success?
    ensures var o := OrderOf(b, env);
      var k := |BookerSaga(b, env, o, c).requests|;
      var es := Webhook(b, env, c).effects;
      && k < |es| && es[k] == Ledger(LedgerWriteOf(b, env, o))
      && (forall x | 0 <= x < |es| && x != k :: es[x].Crm?)
      && (es[k].write.UpdateRange? <==> env.ledgerRow.Some? && env.ledgerRow.value != 0)
      && (es[k].write.UpdateRange? ==> es[k].write.range == RangeFor(env.ledgerRow.value))
  {
    var o := OrderOf(b, env);
    HandledLedgerWrite(BookerSagas(b, env, o), LedgerWrites(b, env, o), Triggers(b), Sagas(b, env, o), c);
  }

  /**
   * The handler answers 200 exactly when the booker and every triggered
   * passenger slot were reconciled; otherwise the first failure escapes.
   */
  lemma RespondsOkExactlyWhenAllReconciled(b: WebhookBooking, env: Env, c: Credential)
    ensures var w := Webhook(b, env, c);
      var o := OrderOf(b, env);
      var primary := BookerSaga(b, env, o, c);
      && (w.response.Responded? ==> w.response.status == 200)
      && (w.response == Responded(200) <==>
            PayloadReadable(b) && primary.result.Success? && Passengers(b, env, o, 2, primary.cred).failure.None?)
  {
    var o := OrderOf(b, env);
    HandledOkExactlyWhenAllReconciled(BookerSagas(b, env, o), LedgerWrites(b, env, o), Triggers(b), Sagas(b, env, o), c);
  }

  // ---------------------------------------------------------------------
  // The handler
  // ---------------------------------------------------------------------

  /** The body of the passenger loop for a triggered slot: build the contact and reconcile it. */
  method AddPassenger(b: WebhookBooking, env: Env, o: Order, n: nat, auth: KeapAuth)
    returns (r: Result<int, CrmError>, sent: seq<CrmRequest>)
    modifies auth
    ensures var s := SlotSaga(b, env, o, n, old(auth.Cred()));
      && r == s.result && sent == s.requests
      && auth.Cred() == s.cred && auth.sent == old(auth.sent) + s.tokenRequests
  {
    var contact := new Contact(
      PassengerBasic(b, n), o.product, o.venue, o.orderName, BLANK_BILLING,
      Render(ValueAt(b.fields, SlotKey(n, "tennislevel"), Str(""))), "",
      BLANK_PASSENGER, BLANK_PASSENGER, BLANK_PASSENGER, o.booking);
    assert contact.attrs == PassengerAttrs(b, o, n);
    r, sent := contact.AddOrUpdateContactInKeap(auth, env.now, env.tokenReply, env.crm(n));
  }

  /** The passenger loop over slots 2 to 6. */
  method AddPassengers(b: WebhookBooking, env: Env, o: Order, auth: KeapAuth)
    returns (failure: Option<WebhookError>, effects: seq<Effect>)
    modifies auth
    ensures var run := Passengers(b, env, o, 2, old(auth.Cred()));
      && failure == run.failure && effects == run.effects
      && auth.Cred() == run.cred && auth.sent == old(auth.sent) + run.tokenRequests
  {
    ghost var whole := Passengers(b, env, o, 2, auth.Cred());
    ghost var sent0 := auth.sent;
    failure, effects := None, [];
    for n := 2 to 7
      invariant var rest := Passengers(b, env, o, n, auth.Cred());
        && whole.failure == rest.failure && whole.effects == effects + rest.effects && whole.cred == rest.cred
        && sent0 + whole.tokenRequests == auth.sent + rest.tokenRequests
    {
      ghost var c := auth.Cred();
      ghost var sentBefore := auth.sent;
      ghost var effectsBefore := effects;
      if SlotTriggered(b.fields, n) {
        ghost var s := SlotSaga(b, env, o, n, c);
        var r, sent := AddPassenger(b, env, o, n, auth);
        effects := effects + AsEffects(n, sent);
        if r.Failure? {
          assert Passengers(b, env, o, n, c) == PassengerRun(Some(CrmFailed(n, r.error)), AsEffects(n, sent), s.cred, s.tokenRequests);
          return Some(CrmFailed(n, r.error)), effects;
        }
        ghost var next := Passengers(b, env, o, n + 1, s.cred);
        assert Passengers(b, env, o, n, c) == PassengerRun(next.failure, AsEffects(n, sent) + next.effects, next.cred, s.tokenRequests + next.tokenRequests);
        ConcatAssociates(effectsBefore, AsEffects(n, sent), next.effects);
        assert auth.sent == sentBefore + s.tokenRequests;
        ConcatAssociates(sentBefore, s.tokenRequests, next.tokenRequests);
      } else {
        assert Passengers(b, env, o, n, c) == Passengers(b, env, o, n + 1, c);
      }
    }
  }

  /** `WebhooksView.post` */
  method Post(b: WebhookBooking, env: Env, auth: KeapAuth) returns (r: Response, effects: seq<Effect>)
    modifies auth
    ensures var w := Webhook(b, env, old(auth.Cred()));
      && r == w.response && effects == w.effects
      && auth.Cred() == w.cred && auth.sent == old(auth.sent) + w.tokenRequests
  {
    if b.items.BareObject? {
      return Raised(ItemWithoutAttributes), [];
    }
    if b.status == EmptyObject {
      return Raised(UnhashableStatus), [];
    }
    var products := ProductNames(b.items, env.itemName);
    var orderName := Join(products, ", ");
    var product := FindReplaceProductName(env.productKeywords, orderName);
    var venue := FindReplaceVenueName(env.venueKeywords, orderName);
    var booking := BookingRecord(b, env, product, venue);
    var o := Order(orderName, product, venue, booking);
    assert o == OrderOf(b, env);

    var contact := new Contact(
      BookerBasic(b), product, venue, orderName, BookerBilling(b),
      Render(ValueAt(b.customer, "iptennislevel", Null)),
      Render(ValueAt(b.fields, "tennis_standard__more_informat", Null)),
      FieldPassenger(b, 2), FieldPassenger(b, 3), FieldPassenger(b, 3), booking);
    ghost var primary := BookerSaga(b, env, o, auth.Cred());
    var added, sent := contact.AddOrUpdateContactInKeap(auth, env.now, env.tokenReply, env.crm(1));
    effects := AsEffects(1, sent);
    if added.Failure? {
      return Raised(CrmFailed(1, added.error)), effects;
    }

    var found := env.ledgerRow;
    var quantity := ProductQuantity(b.items);
    var row := FormatRow(LedgerCells(b, env, o, quantity, contact.attrs));
    if found.Some? && found.value != 0 {
      effects := effects + [Ledger(UpdateRange(RangeFor(found.value), [row]))];
    } else {
      effects := effects + [Ledger(AppendRow(row))];
    }

    ghost var run := Passengers(b, env, o, 2, auth.Cred());
    var failure, more := AddPassengers(b, env, o, auth);
    ConcatAssociates(old(auth.sent), primary.tokenRequests, run.tokenRequests);
    effects := effects + more;
    if failure.Some? {
      return Raised(failure.value), effects;
    }
    return Responded(200), effects;
  }
}
