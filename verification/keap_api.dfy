/**
 * The CRM side of a booking: the contact records built from webhook data,
 * the contact object sent to the CRM, and the reconciliation saga
 * (booking-already-recorded check, tag choice, upsert, tags, note). Every
 * CRM call first obtains a bearer token from the credential record; CRM
 * replies are inputs, and the requests sent are returned in order.
 */
module KeapApi {
  import opened Wrappers
  import opened PyText
  import opened Models
  import opened KeapCountries

  const TITLES: seq<string> := ["Mr.", "Mrs.", "Dr.", "Ms.", "Miss", "Mstr", "Professor"]

  /** `filter_title`: a recognised title is kept, anything else becomes "". */
  function FilterTitle(title: PyStr): (r: string)
    ensures r in TITLES || r == ""
    ensures title.Some? && title.value in TITLES ==> r == title.value
    ensures r != "" ==> title == Some(r)
  {
    if title.Some? && title.value in TITLES then title.value else ""
  }

  lemma FilterTitleIdempotent(title: PyStr)
    ensures FilterTitle(Some(FilterTitle(title))) == FilterTitle(title)
  {
  }

  // ---------------------------------------------------------------------
  // Sub-records: every field is its argument when truthy and "" otherwise.
  // ---------------------------------------------------------------------

  /** The field a record stores for argument `arg`. */
  predicate DefaultsTo(field: string, arg: PyStr) {
    (Truthy(arg) ==> field == arg.value) && (!Truthy(arg) ==> field == "")
  }

  datatype BillingAddress = BillingAddress(line1: string, line2: string, city: string, zipCode: string, country: string)

  datatype AdditionalPassengerInfo = AdditionalPassengerInfo(firstName: string, surname: string, tennisStandard: string)

  datatype Booking = Booking(
    id: string, url: string, status: string, createdDate: string, startDate: string, endDate: string,
    eventType: string, tennisClub: string, groupOrganiser: string, eventLocation: string)

  datatype BasicContactInfo = BasicContactInfo(email: string, firstName: string, lastName: string, title: string, phoneNumber: string)

  /** `BillingAddress(...)` */
  function NewBillingAddress(line1: PyStr, line2: PyStr, city: PyStr, zipCode: PyStr, country: PyStr): (b: BillingAddress)
    ensures DefaultsTo(b.line1, line1) && DefaultsTo(b.line2, line2) && DefaultsTo(b.city, city)
    ensures DefaultsTo(b.zipCode, zipCode) && DefaultsTo(b.country, country)
  {
    BillingAddress(OrEmpty(line1), OrEmpty(line2), OrEmpty(city), OrEmpty(zipCode), OrEmpty(country))
  }

  /** `AdditionalPassengerInfo(...)` */
  function NewAdditionalPassengerInfo(firstName: PyStr, surname: PyStr, tennisStandard: PyStr): (p: AdditionalPassengerInfo)
    ensures DefaultsTo(p.firstName, firstName) && DefaultsTo(p.surname, surname)
    ensures DefaultsTo(p.tennisStandard, tennisStandard)
  {
    AdditionalPassengerInfo(OrEmpty(firstName), OrEmpty(surname), OrEmpty(tennisStandard))
  }

  /** `Booking(...)` */
  function NewBooking(
    id: PyStr, url: PyStr, status: PyStr, createdDate: PyStr, startDate: PyStr, endDate: PyStr,
    eventType: PyStr, tennisClub: PyStr, groupOrganiser: PyStr, eventLocation: PyStr): (b: Booking)
    ensures DefaultsTo(b.id, id) && DefaultsTo(b.url, url) && DefaultsTo(b.status, status)
    ensures DefaultsTo(b.createdDate, createdDate) && DefaultsTo(b.startDate, startDate)
    ensures DefaultsTo(b.endDate, endDate) && DefaultsTo(b.eventType, eventType)
    ensures DefaultsTo(b.tennisClub, tennisClub) && DefaultsTo(b.groupOrganiser, groupOrganiser)
    ensures DefaultsTo(b.eventLocation, eventLocation)
  {
    Booking(
      OrEmpty(id), OrEmpty(url), OrEmpty(status), OrEmpty(createdDate), OrEmpty(startDate), OrEmpty(endDate),
      OrEmpty(eventType), OrEmpty(tennisClub), OrEmpty(groupOrganiser), OrEmpty(eventLocation))
  }

  /** `BasicContacInfo(...)` */
  function NewBasicContactInfo(email: PyStr, firstName: PyStr, lastName: PyStr, title: PyStr, phoneNumber: PyStr): (c: BasicContactInfo)
    ensures DefaultsTo(c.email, email) && DefaultsTo(c.firstName, firstName) && DefaultsTo(c.lastName, lastName)
    ensures DefaultsTo(c.title, title) && DefaultsTo(c.phoneNumber, phoneNumber)
  {
    BasicContactInfo(OrEmpty(email), OrEmpty(firstName), OrEmpty(lastName), OrEmpty(title), OrEmpty(phoneNumber))
  }

  /** Building a record again from the fields of a built one gives the same record. */
  lemma RebuildingIsIdentity(a: BillingAddress, p: AdditionalPassengerInfo, b: Booking, c: BasicContactInfo)
    ensures NewBillingAddress(Some(a.line1), Some(a.line2), Some(a.city), Some(a.zipCode), Some(a.country)) == a
    ensures NewAdditionalPassengerInfo(Some(p.firstName), Some(p.surname), Some(p.tennisStandard)) == p
    ensures NewBooking(
      Some(b.id), Some(b.url), Some(b.status), Some(b.createdDate), Some(b.startDate), Some(b.endDate),
      Some(b.eventType), Some(b.tennisClub), Some(b.groupOrganiser), Some(b.eventLocation)) == b
    ensures NewBasicContactInfo(Some(c.email), Some(c.firstName), Some(c.lastName), Some(c.title), Some(c.phoneNumber)) == c
  {
  }

  // ---------------------------------------------------------------------
  // The CRM contact
  // ---------------------------------------------------------------------

  datatype EmailAddress = EmailAddress(email: string, field: string)

  datatype Address = Address(
    countryCode: string, field: string, line1: string, line2: string, locality: string,
    postalCode: string, region: string, zipCode: string, zipFour: string)

  datatype PhoneNumber = PhoneNumber(extension: string, field: string, number: string, kind: string)

  /** A CRM custom field; `content` is `None` when the CRM holds null or no content. */
  datatype CustomField = CustomField(id: int, content: PyStr)

  /** A value of the contact's attribute dictionary (`vars(contact)`). */
  datatype Attr =
    | Text(text: string)
    | Number(number: int)
    | Numbers(numbers: seq<int>)
    | Emails(emails: seq<EmailAddress>)
    | Addresses(addresses: seq<Address>)
    | Phones(phones: seq<PhoneNumber>)
    | Fields(fields: seq<CustomField>)

  const OPT_IN_REASON := "User has authorized."
  const DUPLICATE_OPTION := "Email"
  const INITIAL_TAG_IDS: seq<int> := [1342, 13988]
  const SOURCE_TYPE := "OTHER"
  const LEAD_SOURCE_ID := 784
  /** The tag of a booking not yet recorded against the contact. */
  const NEW_BOOKING_TAG := 13988
  /** The tag of a booking the CRM already holds for the contact. */
  const REPEAT_BOOKING_TAG := 14052
  /** The custom field that carries the booking code. */
  const BOOKING_ID_FIELD := 514

  /** The note text: product, venue and the booked items, each as `str()` renders it. */
  function NoteText(product: PyStr, venue: PyStr, bookedItems: string): (r: string)
    ensures Contains(r, StrOf(product)) && Contains(r, StrOf(venue)) && Contains(r, bookedItems)
  {
    var p, v := StrOf(product), StrOf(venue);
    var created := "\n        Booking created - ";
    var booked := "\n        Booking - ";
    var tail := "        \n        ";
    var r := created + p + " - " + v + booked + bookedItems + tail;
    ContainsInMiddle(created, p, " - " + v + booked + bookedItems + tail);
    assert r == created + p + (" - " + v + booked + bookedItems + tail);
    ContainsInMiddle(created + p + " - ", v, booked + bookedItems + tail);
    assert r == created + p + " - " + v + (booked + bookedItems + tail);
    ContainsInMiddle(created + p + " - " + v + booked, bookedItems, tail);
    r
  }

  /** The contact's single billing address entry. */
  function BillingEntry(b: BillingAddress): Address {
    Address(CountryCode(b.country), "BILLING", b.line1, b.line2, b.city, "", "", b.zipCode, "")
  }

  function PhoneEntry(number: string): PhoneNumber {
    PhoneNumber("", "PHONE1", number, "")
  }

  /**
   * `next(index for (index, d) in enumerate(fields) if d["id"] == id)`:
   * the first position holding `id`, or `None`.
   */
  function FieldIndex(fields: seq<CustomField>, id: int): (r: Option<nat>)
    ensures r.Some? ==> r.value < |fields| && fields[r.value].id == id
    ensures r.Some? ==> forall j :: 0 <= j < r.value ==> fields[j].id != id
    ensures r.None? <==> forall j :: 0 <= j < |fields| ==> fields[j].id != id
  {
    if |fields| == 0 then None
    else if fields[0].id == id then Some(0)
    else
      match FieldIndex(fields[1..], id)
      case None => None
      case Some(k) => Some(k + 1)
  }

  /** A position holding `id` with no earlier one is what `FieldIndex` finds. */
  lemma FieldIndexAt(fields: seq<CustomField>, id: int, i: nat)
    requires i < |fields| && fields[i].id == id
    requires forall j :: 0 <= j < i ==> fields[j].id != id
    ensures FieldIndex(fields, id) == Some(i)
  {
    var r := FieldIndex(fields, id);
    assert r.Some?;
    assert !(r.value < i);
  }

  /** The content of the first booking-id field, if there is one. */
  function Marker(fields: seq<CustomField>): Option<PyStr> {
    match FieldIndex(fields, BOOKING_ID_FIELD)
    case None => None
    case Some(i) => Some(fields[i].content)
  }

  /**
   * The contact's custom fields, in the CRM's field-id order; `levelOfTennis`
   * is the argument as an f-string renders it.
   */
  function CustomFieldsFor(
    levelOfTennis: string, moreInfo: string,
    p1: AdditionalPassengerInfo, p2: AdditionalPassengerInfo, p3: AdditionalPassengerInfo, b: Booking): (fs: seq<CustomField>)
    ensures |fs| == 19
    ensures FieldIndex(fs, BOOKING_ID_FIELD) == Some(9) && Marker(fs) == Some(Some(b.id))
  {
    var fs := [
      CustomField(9, Some(levelOfTennis + " - " + moreInfo)),
      CustomField(239, Some(p1.firstName)),
      CustomField(241, Some(p1.surname)),
      CustomField(245, Some(p1.tennisStandard)),
      CustomField(247, Some(p2.firstName)),
      CustomField(249, Some(p2.surname)),
      CustomField(255, Some(p2.tennisStandard)),
      CustomField(257, Some(p3.firstName)),
      CustomField(259, Some(p3.surname)),
      CustomField(514, Some(b.id)),
      CustomField(516, Some(b.url)),
      CustomField(518, Some(b.status)),
      CustomField(520, Some(b.startDate)),
      CustomField(524, Some(b.endDate)),
      CustomField(526, Some(b.eventType)),
      CustomField(528, Some(b.tennisClub)),
      CustomField(530, Some(b.groupOrganiser)),
      CustomField(532, Some(b.createdDate)),
      CustomField(534, Some(b.eventLocation))
    ];
    FieldIndexAt(fs, BOOKING_ID_FIELD, 9);
    fs
  }

  /**
   * Blank passenger details send empty passenger fields; field 9 keeps the
   * tennis level followed by the separator.
   */
  lemma BlankPassengersSendEmptyFields(levelOfTennis: string, b: Booking)
    ensures var blank := NewAdditionalPassengerInfo(Some(""), Some(""), Some(""));
      var fs := CustomFieldsFor(levelOfTennis, "", blank, blank, blank, b);
      && fs[0] == CustomField(9, Some(levelOfTennis + " - "))
      && forall i | 1 <= i < 9 :: fs[i].content == Some("")
  {
    var blank := NewAdditionalPassengerInfo(Some(""), Some(""), Some(""));
    assert blank == AdditionalPassengerInfo("", "", "");
    assert levelOfTennis + " - " + "" == levelOfTennis + " - ";
  }

  /** Every custom field is sent once, with content. */
  lemma CustomFieldIdsAreDistinct(
    levelOfTennis: string, moreInfo: string,
    p1: AdditionalPassengerInfo, p2: AdditionalPassengerInfo, p3: AdditionalPassengerInfo, b: Booking)
    ensures var fs := CustomFieldsFor(levelOfTennis, moreInfo, p1, p2, p3, b);
      && (forall i, j | 0 <= i < j < |fs| :: fs[i].id != fs[j].id)
      && (forall i | 0 <= i < |fs| :: fs[i].content.Some?)
  {
    var fs := CustomFieldsFor(levelOfTennis, moreInfo, p1, p2, p3, b);
    assert forall k | 0 <= k < |fs| - 1 :: fs[k].id < fs[k + 1].id;
    forall i, j | 0 <= i < j < |fs|
      ensures fs[i].id != fs[j].id
    {
      IdsIncrease(fs, i, j);
    }
  }

  /** Ids that increase from each field to the next increase along the whole list. */
  lemma {:induction false} IdsIncrease(fs: seq<CustomField>, i: nat, j: nat)
    requires forall k | 0 <= k < |fs| - 1 :: fs[k].id < fs[k + 1].id
    requires i < j < |fs|
    ensures fs[i].id < fs[j].id
    decreases j - i
  {
    if i + 1 < j {
      IdsIncrease(fs, i + 1, j);
    }
  }

  /**
   * Passing the same record as second and third passenger fills fields
   * 257/259 with the 247/249 contents.
   */
  lemma RepeatedPassengerRepeatsFields(
    levelOfTennis: string, moreInfo: string, p1: AdditionalPassengerInfo, p2: AdditionalPassengerInfo, b: Booking)
    ensures var fs := CustomFieldsFor(levelOfTennis, moreInfo, p1, p2, p2, b);
      && fs[4].id == 247 && fs[5].id == 249 && fs[7].id == 257 && fs[8].id == 259
      && fs[7].content == fs[4].content && fs[8].content == fs[5].content
  {
  }

  /** The attributes `Contact.__init__` fixes; `tag_ids` is kept apart, on the object. */
  datatype ContactAttrs = ContactAttrs(
    optInReason: string, duplicateOption: string, sourceType: string,
    emailAddresses: seq<EmailAddress>, givenName: string, familyName: string, leadSourceId: int,
    note: string, addresses: seq<Address>, phoneNumbers: seq<PhoneNumber>, prefix: string,
    customFields: seq<CustomField>)

  /** What `Contact.__init__` assigns, from its keyword arguments. */
  function NewContactAttrs(
    basic: BasicContactInfo, product: PyStr, venue: PyStr, bookedItems: string, billing: BillingAddress,
    levelOfTennis: string, moreInfo: string,
    p1: AdditionalPassengerInfo, p2: AdditionalPassengerInfo, p3: AdditionalPassengerInfo, booking: Booking): (a: ContactAttrs)
    ensures a.emailAddresses == [EmailAddress(basic.email, "EMAIL1")]
    ensures a.givenName == basic.firstName && a.familyName == basic.lastName && a.prefix == basic.title
    ensures a.optInReason == OPT_IN_REASON && a.duplicateOption == DUPLICATE_OPTION
    ensures a.sourceType == SOURCE_TYPE && a.leadSourceId == LEAD_SOURCE_ID
    ensures a.note == NoteText(product, venue, bookedItems)
    ensures a.addresses == [BillingEntry(billing)]
    ensures |a.addresses| == 1 && a.addresses[0].field == "BILLING"
    ensures billing.country in COUNTRY_CODES ==> a.addresses[0].countryCode == COUNTRY_CODES[billing.country]
    ensures billing.country !in COUNTRY_CODES ==> a.addresses[0].countryCode == billing.country
    ensures |a.phoneNumbers| == 1 && a.phoneNumbers[0].number == basic.phoneNumber
    ensures a.customFields == CustomFieldsFor(levelOfTennis, moreInfo, p1, p2, p3, booking)
    ensures Marker(a.customFields) == Some(Some(booking.id))
  {
    ContactAttrs(
      OPT_IN_REASON, DUPLICATE_OPTION, SOURCE_TYPE,
      [EmailAddress(basic.email, "EMAIL1")], basic.firstName, basic.lastName, LEAD_SOURCE_ID,
      NoteText(product, venue, bookedItems), [BillingEntry(billing)], [PhoneEntry(basic.phoneNumber)], basic.title,
      CustomFieldsFor(levelOfTennis, moreInfo, p1, p2, p3, booking))
  }

  /** The upsert body: every attribute except `note` and `tag_ids`. */
  function PayloadOf(a: ContactAttrs): (m: map<string, Attr>)
    ensures "note" !in m && "tag_ids" !in m
    ensures "custom_fields" in m && m["custom_fields"] == Fields(a.customFields)
    ensures "email_addresses" in m && m["email_addresses"] == Emails(a.emailAddresses)
  {
    map[
      "opt_in_reason" := Text(a.optInReason), "duplicate_option" := Text(a.duplicateOption),
      "source_type" := Text(a.sourceType),
      "email_addresses" := Emails(a.emailAddresses), "given_name" := Text(a.givenName),
      "family_name" := Text(a.familyName), "lead_source_id" := Number(a.leadSourceId),
      "addresses" := Addresses(a.addresses),
      "phone_numbers" := Phones(a.phoneNumbers), "prefix" := Text(a.prefix),
      "custom_fields" := Fields(a.customFields)
    ]
  }

  // ---------------------------------------------------------------------
  // The "booking already recorded" decision
  // ---------------------------------------------------------------------

  /**
   * The contact search reply: `count` (`None` when absent) and the custom
   * fields of each returned contact.
   */
  datatype SearchReply = SearchReply(count: Option<int>, contacts: seq<seq<CustomField>>)

  datatype CrmError =
    | TokenFailed(cause: TokenError)
    | SearchUnreadable        // no first contact, or no booking-id field to index
    | RequestError(status: int)
    | MissingContactId        // an accepted upsert reply without "id"

  /**
   * The comparison of `check_if_booking_exists`: false when nothing was
   * found; otherwise whether the first contact's booking id equals ours,
   * failing (not false) when either side has no booking-id field.
   */
  function BookingRecorded(ours: seq<CustomField>, reply: SearchReply): (r: Result<bool, CrmError>)
    ensures reply.count == Some(0) ==> r == Success(false)
    ensures reply.count != Some(0) ==>
      (r.Success? <==> |reply.contacts| > 0 && Marker(ours).Some? && Marker(reply.contacts[0]).Some?)
    ensures reply.count != Some(0) && r.Success? ==> (r.value <==> Marker(ours) == Marker(reply.contacts[0]))
    ensures r.Failure? ==> r.error == SearchUnreadable
  {
    if reply.count == Some(0) then Success(false)
    else if |reply.contacts| == 0 then Failure(SearchUnreadable)
    else
      var theirs := reply.contacts[0];
      match (FieldIndex(ours, BOOKING_ID_FIELD), FieldIndex(theirs, BOOKING_ID_FIELD))
      case (Some(i), Some(j)) => Success(ours[i].content == theirs[j].content)
      case _ => Failure(SearchUnreadable)
  }

  /**
   * Replaying a booking: when the CRM returns the contact with the custom
   * fields this contact sent, the booking is recognised as recorded; when
   * its booking id differs it is not; when it has no booking-id field at
   * all the check fails.
   */
  lemma ReplayIsRecognised(ours: seq<CustomField>, other: PyStr, n: int)
    requires Marker(ours).Some? && Marker(ours) != Some(other) && n != 0
    ensures BookingRecorded(ours, SearchReply(Some(n), [ours])) == Success(true)
    ensures BookingRecorded(ours, SearchReply(Some(n), [[CustomField(BOOKING_ID_FIELD, other)]])) == Success(false)
    ensures BookingRecorded(ours, SearchReply(Some(n), [[]])) == Failure(SearchUnreadable)
  {
    var single := [CustomField(BOOKING_ID_FIELD, other)];
    assert FieldIndex(single, BOOKING_ID_FIELD) == Some(0);
  }

  /** `[14052] if booking_exists else [13988]`: one tag, the repeat-booking tag exactly for a recorded booking. */
  function TagsFor(recorded: bool): (r: seq<int>)
    ensures |r| == 1
    ensures r[0] == REPEAT_BOOKING_TAG <==> recorded
    ensures r[0] == NEW_BOOKING_TAG <==> !recorded
  {
    if recorded then [REPEAT_BOOKING_TAG] else [NEW_BOOKING_TAG]
  }

  // ---------------------------------------------------------------------
  // CRM calls and the reconciliation saga, on values
  // ---------------------------------------------------------------------

  /** A request sent to the CRM's contact API, with the bearer token it carried. */
  datatype CrmRequest =
    | SearchContacts(token: string, email: string)
    | PutContact(token: string, payload: map<string, Attr>)
    | PostTags(token: string, contactId: int, tagIds: seq<int>)
    | PostNote(token: string, contactId: int, body: string)

  datatype UpsertReply = UpsertReply(status: int, id: Option<int>)

  /** The CRM's replies to one reconciliation, in call order. */
  datatype CrmReplies = CrmReplies(search: SearchReply, upsert: UpsertReply, tagsStatus: int, noteStatus: int)

  /** One CRM call: its result, the credential afterwards and the requests sent. */
  datatype Step<T> = Step(result: Result<T, CrmError>, cred: Credential, tokenRequests: seq<TokenRequest>, requests: seq<CrmRequest>)

  /**
   * `check_if_booking_exists`: a token, the search, the comparison. The
   * search is sent exactly when a token was obtained, with the credential's
   * current access token, and its answer is the comparison.
   */
  function SearchStep(c: Credential, now: int, tr: TokenReply, email: string, ours: seq<CustomField>, reply: SearchReply): (r: Step<bool>)
    ensures |r.requests| <= 1 && |r.tokenRequests| <= 1
    ensures r.requests != [] <==> Fetch(c, now, tr).outcome.Success?
    ensures r.requests != [] ==> r.requests[0] == SearchContacts(r.cred.accessToken, email) && r.result == BookingRecorded(ours, reply)
    ensures r.requests == [] ==> r.result.Failure? && r.result.error.TokenFailed?
  {
    var f := Fetch(c, now, tr);
    match f.outcome
    case Failure(e) => Step(Failure(TokenFailed(e)), f.cred, f.requests, [])
    case Success(token) => Step(BookingRecorded(ours, reply), f.cred, f.requests, [SearchContacts(token, email)])
  }

  /**
   * `add_tags_to_contact`: the tags are posted for the contact exactly when
   * a token was obtained, and accepted only on status 200.
   */
  function TagStep(c: Credential, now: int, tr: TokenReply, contactId: int, tagIds: seq<int>, status: int): (r: Step<bool>)
    ensures |r.requests| <= 1 && |r.tokenRequests| <= 1
    ensures r.requests != [] <==> Fetch(c, now, tr).outcome.Success?
    ensures r.requests != [] ==> r.requests[0] == PostTags(r.cred.accessToken, contactId, tagIds)
    ensures r.result.Success? <==> r.requests != [] && status == 200
    ensures r.requests != [] && status != 200 ==> r.result == Failure(RequestError(status))
  {
    var f := Fetch(c, now, tr);
    match f.outcome
    case Failure(e) => Step(Failure(TokenFailed(e)), f.cred, f.requests, [])
    case Success(token) =>
      Step(if status == 200 then Success(true) else Failure(RequestError(status)), f.cred, f.requests, [PostTags(token, contactId, tagIds)])
  }

  /**
   * `create_contact_notes`: the note is posted for the contact exactly when
   * a token was obtained, and accepted only on status 201.
   */
  function NoteStep(c: Credential, now: int, tr: TokenReply, contactId: int, note: string, status: int): (r: Step<bool>)
    ensures |r.requests| <= 1 && |r.tokenRequests| <= 1
    ensures r.requests != [] <==> Fetch(c, now, tr).outcome.Success?
    ensures r.requests != [] ==> r.requests[0] == PostNote(r.cred.accessToken, contactId, note)
    ensures r.result.Success? <==> r.requests != [] && status == 201
    ensures r.requests != [] && status != 201 ==> r.result == Failure(RequestError(status))
  {
    var f := Fetch(c, now, tr);
    match f.outcome
    case Failure(e) => Step(Failure(TokenFailed(e)), f.cred, f.requests, [])
    case Success(token) =>
      Step(if status == 201 then Success(true) else Failure(RequestError(status)), f.cred, f.requests, [PostNote(token, contactId, note)])
  }

  predicate UpsertAccepted(status: int) {
    status == 200 || status == 201
  }

  /** What one reconciliation did: the contact id or the error, the contact's tags afterwards, and what was sent. */
  datatype Saga = Saga(result: Result<int, CrmError>, tagIds: seq<int>, cred: Credential, tokenRequests: seq<TokenRequest>, requests: seq<CrmRequest>)

  /**
   * `add_or_update_contact_in_keap` on values: a token for the upsert, the
   * existence check, the tag choice, the upsert, then tags and note with
   * the returned id. Nothing is retried and nothing is rolled back.
   */
  function Reconcile(
    a: ContactAttrs, tagIds: seq<int>, c: Credential, now: int, tr: TokenReply, replies: CrmReplies): (s: Saga)
    requires |a.emailAddresses| >= 1
    ensures s.requests == [] || BookingRecorded(a.customFields, replies.search).Failure? ==> s.tagIds == tagIds
    ensures s.requests != [] && BookingRecorded(a.customFields, replies.search).Success? ==>
      s.tagIds == TagsFor(BookingRecorded(a.customFields, replies.search).value)
  {
    var f := Fetch(c, now, tr);
    if f.outcome.Failure? then Saga(Failure(TokenFailed(f.outcome.error)), tagIds, f.cred, f.requests, [])
    else
      var search := SearchStep(f.cred, now, tr, a.emailAddresses[0].email, a.customFields, replies.search);
      var tokens := f.requests + search.tokenRequests;
      if search.result.Failure? then Saga(Failure(search.result.error), tagIds, search.cred, tokens, search.requests)
      else
        var rest := Upsert(a, TagsFor(search.result.value), f.outcome.value, search.cred, now, tr, replies);
        Saga(rest.result, rest.tagIds, rest.cred, tokens + rest.tokenRequests, search.requests + rest.requests)
  }

  /** Reconcile unfolded: the three ways a reconciliation ends, by the first stage that fails. */
  lemma ReconcileStages(a: ContactAttrs, tagIds: seq<int>, c: Credential, now: int, tr: TokenReply, replies: CrmReplies)
    requires |a.emailAddresses| >= 1
    ensures var f := Fetch(c, now, tr);
      var s := Reconcile(a, tagIds, c, now, tr, replies);
      && (f.outcome.Failure? ==> s == Saga(Failure(TokenFailed(f.outcome.error)), tagIds, f.cred, f.requests, []))
      && (f.outcome.Success? ==>
            var search := SearchStep(f.cred, now, tr, a.emailAddresses[0].email, a.customFields, replies.search);
            && (search.result.Failure? ==>
                  s == Saga(Failure(search.result.error), tagIds, search.cred, f.requests + search.tokenRequests, search.requests))
            && (search.result.Success? ==>
                  var rest := Upsert(a, TagsFor(search.result.value), f.outcome.value, search.cred, now, tr, replies);
                  s == Saga(rest.result, rest.tagIds, rest.cred, f.requests + search.tokenRequests + rest.tokenRequests, search.requests + rest.requests)))
  {
  }

  /**
   * A reconciliation that sent nothing failed for want of a token and kept
   * its preset tags. Otherwise its first call is the search by the
   * contact's first email. When the existence check cannot be answered,
   * the search is all that was sent and the reconciliation fails; once
   * past the search, the second call is the upsert.
   */
  lemma ReconcileStartsWithSearch(a: ContactAttrs, tagIds: seq<int>, c: Credential, now: int, tr: TokenReply, replies: CrmReplies)
    requires |a.emailAddresses| >= 1
    ensures var s := Reconcile(a, tagIds, c, now, tr, replies);
      && (s.requests == [] ==> s.result.Failure? && s.result.error.TokenFailed? && s.tagIds == tagIds)
      && (s.requests != [] ==> s.requests[0].SearchContacts? && s.requests[0].email == a.emailAddresses[0].email)
      && (BookingRecorded(a.customFields, replies.search).Failure? ==> s.result.Failure? && |s.requests| <= 1)
      && (|s.requests| >= 2 ==> s.requests[1].PutContact?)
  {
    ReconcileStages(a, tagIds, c, now, tr, replies);
    var s := Reconcile(a, tagIds, c, now, tr, replies);
    var f := Fetch(c, now, tr);
    if f.outcome.Success? {
      var search := SearchStep(f.cred, now, tr, a.emailAddresses[0].email, a.customFields, replies.search);
      if search.result.Success? {
        var u := Upsert(a, TagsFor(search.result.value), f.outcome.value, search.cred, now, tr, replies);
        assert s.requests == search.requests + u.requests;
        assert s.requests[0] == search.requests[0] && s.requests[1] == u.requests[0];
      }
    }
  }

  /**
   * The upsert of the payload with the token fetched first, then, when the
   * CRM accepts it and returns an id, the follow-up calls.
   */
  function Upsert(
    a: ContactAttrs, tags: seq<int>, token: string, c: Credential, now: int, tr: TokenReply, replies: CrmReplies): (u: Saga)
    ensures u.tagIds == tags
    ensures |u.requests| >= 1 && u.requests[0] == PutContact(token, PayloadOf(a))
  {
    var sent := [PutContact(token, PayloadOf(a))];
    if !UpsertAccepted(replies.upsert.status) then Saga(Failure(RequestError(replies.upsert.status)), tags, c, [], sent)
    else if replies.upsert.id.None? then Saga(Failure(MissingContactId), tags, c, [], sent)
    else
      var rest := FollowUps(replies.upsert.id.value, tags, a.note, c, now, tr, replies);
      Saga(rest.result, tags, rest.cred, rest.tokenRequests, sent + rest.requests)
  }

  /**
   * The calls after an accepted upsert: the tags, then the note, both for
   * the returned contact id; a failed tagging skips the note.
   */
  function FollowUps(id: int, tags: seq<int>, note: string, c: Credential, now: int, tr: TokenReply, replies: CrmReplies): (s: Saga)
    ensures s.tagIds == tags
    ensures |s.requests| <= 2
    ensures s.requests != [] <==> Fetch(c, now, tr).outcome.Success?
    ensures s.requests != [] ==> s.requests[0] == PostTags(s.requests[0].token, id, tags)
    ensures |s.requests| == 2 ==> s.requests[1] == PostNote(s.requests[1].token, id, note)
    ensures replies.tagsStatus != 200 ==> s.result.Failure? && |s.requests| <= 1
    ensures s.result.Success? <==> |s.requests| == 2 && replies.tagsStatus == 200 && replies.noteStatus == 201
    ensures s.result.Success? ==> s.result.value == id
  {
    var tagging := TagStep(c, now, tr, id, tags, replies.tagsStatus);
    if tagging.result.Failure? then
      Saga(Failure(tagging.result.error), tags, tagging.cred, tagging.tokenRequests, tagging.requests)
    else
      var noting := NoteStep(tagging.cred, now, tr, id, note, replies.noteStatus);
      Saga(
        if noting.result.Failure? then Failure(noting.result.error) else Success(id),
        tags, noting.cred,
        tagging.tokenRequests + noting.tokenRequests,
        tagging.requests + noting.requests)
  }

  /**
   * A completed upsert stage made three calls: the upsert of the payload,
   * then tags and note for the id it returned, each reply accepted.
   */
  lemma CompletedUpsertCallsInOrder(
    a: ContactAttrs, tags: seq<int>, token: string, c: Credential, now: int, tr: TokenReply, replies: CrmReplies)
    requires Upsert(a, tags, token, c, now, tr, replies).result.Success?
    ensures var u := Upsert(a, tags, token, c, now, tr, replies);
      && UpsertAccepted(replies.upsert.status) && replies.tagsStatus == 200 && replies.noteStatus == 201
      && replies.upsert.id == Some(u.result.value) && u.tagIds == tags
      && |u.requests| == 3
      && u.requests[0] == PutContact(token, PayloadOf(a))
      && u.requests[1] == PostTags(u.requests[1].token, u.result.value, tags)
      && u.requests[2] == PostNote(u.requests[2].token, u.result.value, a.note)
  {
  }

  /**
   * A completed reconciliation made exactly four calls, in order (search,
   * upsert of the payload, tags, note), the last two with the id the
   * upsert returned, and every reply on the way was accepted.
   */
  lemma CompletedReconcileCallsInOrder(
    a: ContactAttrs, tagIds: seq<int>, c: Credential, now: int, tr: TokenReply, replies: CrmReplies)
    requires |a.emailAddresses| >= 1
    requires Reconcile(a, tagIds, c, now, tr, replies).result.Success?
    ensures var s := Reconcile(a, tagIds, c, now, tr, replies);
      && UpsertAccepted(replies.upsert.status) && replies.tagsStatus == 200 && replies.noteStatus == 201
      && replies.upsert.id == Some(s.result.value)
      && BookingRecorded(a.customFields, replies.search).Success?
      && s.tagIds == TagsFor(BookingRecorded(a.customFields, replies.search).value)
      && |s.requests| == 4
      && s.requests[0].SearchContacts? && s.requests[0].email == a.emailAddresses[0].email
      && s.requests[1].PutContact? && s.requests[1].payload == PayloadOf(a)
      && s.requests[2] == PostTags(s.requests[2].token, s.result.value, s.tagIds)
      && s.requests[3] == PostNote(s.requests[3].token, s.result.value, a.note)
  {
    var f := Fetch(c, now, tr);
    var search := SearchStep(f.cred, now, tr, a.emailAddresses[0].email, a.customFields, replies.search);
    CompletedUpsertCallsInOrder(a, TagsFor(search.result.value), f.outcome.value, search.cred, now, tr, replies);
  }

  /**
   * The requests of the upsert stage: the upsert first; after it only tags
   * and note, for the returned id and only once the upsert was accepted; a
   * rejected upsert sends nothing more, and a rejected tagging no note.
   */
  lemma UpsertStageRequests(
    a: ContactAttrs, tags: seq<int>, token: string, c: Credential, now: int, tr: TokenReply, replies: CrmReplies)
    ensures var u := Upsert(a, tags, token, c, now, tr, replies);
      && (forall i | 1 <= i < |u.requests| ::
            && (u.requests[i].PostTags? || u.requests[i].PostNote?)
            && UpsertAccepted(replies.upsert.status) && replies.upsert.id.Some?
            && u.requests[i].contactId == replies.upsert.id.value)
      && (!UpsertAccepted(replies.upsert.status) ==>
            u.requests == [PutContact(token, PayloadOf(a))] && u.result == Failure(RequestError(replies.upsert.status)))
      && (replies.tagsStatus != 200 ==> u.result.Failure? && forall i | 0 <= i < |u.requests| :: !u.requests[i].PostNote?)
  {
    var u := Upsert(a, tags, token, c, now, tr, replies);
    if UpsertAccepted(replies.upsert.status) && replies.upsert.id.Some? {
      var id := replies.upsert.id.value;
      var rest := FollowUps(id, tags, a.note, c, now, tr, replies);
      var tagging := TagStep(c, now, tr, id, tags, replies.tagsStatus);
      assert u.requests == [PutContact(token, PayloadOf(a))] + rest.requests;
      forall i | 1 <= i < |u.requests|
        ensures (u.requests[i].PostTags? || u.requests[i].PostNote?) && u.requests[i].contactId == id
      {
        assert u.requests[i] == rest.requests[i - 1];
        if tagging.result.Success? {
          var noting := NoteStep(tagging.cred, now, tr, id, a.note, replies.noteStatus);
          assert rest.requests == tagging.requests + noting.requests;
        }
      }
    }
  }

  /**
   * An upsert answered with anything but 200 or 201 raises `RequestError`
   * with that status, and neither tags nor a note are sent.
   */
  lemma RejectedUpsertStops(
    a: ContactAttrs, tagIds: seq<int>, c: Credential, now: int, tr: TokenReply, replies: CrmReplies)
    requires |a.emailAddresses| >= 1
    requires !UpsertAccepted(replies.upsert.status)
    ensures var s := Reconcile(a, tagIds, c, now, tr, replies);
      && s.result.Failure? && |s.requests| <= 2
      && (|s.requests| == 2 ==> s.requests[1].PutContact? && s.result == Failure(RequestError(replies.upsert.status)))
      && forall i | 0 <= i < |s.requests| :: !s.requests[i].PostTags? && !s.requests[i].PostNote?
  {
    ReconcileStages(a, tagIds, c, now, tr, replies);
    var f := Fetch(c, now, tr);
    if f.outcome.Success? {
      var search := SearchStep(f.cred, now, tr, a.emailAddresses[0].email, a.customFields, replies.search);
      if search.result.Success? {
        UpsertStageRequests(a, TagsFor(search.result.value), f.outcome.value, search.cred, now, tr, replies);
      }
    }
  }

  /**
   * Tags and note go out only after an accepted upsert, as third or fourth
   * call, addressed to the id it returned.
   */
  lemma FollowUpsUseReturnedId(a: ContactAttrs, tagIds: seq<int>, c: Credential, now: int, tr: TokenReply, replies: CrmReplies)
    requires |a.emailAddresses| >= 1
    ensures var s := Reconcile(a, tagIds, c, now, tr, replies);
      forall i | 0 <= i < |s.requests| :: s.requests[i].PostTags? || s.requests[i].PostNote? ==>
        && UpsertAccepted(replies.upsert.status) && replies.upsert.id.Some?
        && 2 <= i && s.requests[1].PutContact?
        && s.requests[i].contactId == replies.upsert.id.value
  {
    ReconcileStages(a, tagIds, c, now, tr, replies);
    var s := Reconcile(a, tagIds, c, now, tr, replies);
    var f := Fetch(c, now, tr);
    if f.outcome.Success? {
      var search := SearchStep(f.cred, now, tr, a.emailAddresses[0].email, a.customFields, replies.search);
      if search.result.Success? {
        var u := Upsert(a, TagsFor(search.result.value), f.outcome.value, search.cred, now, tr, replies);
        UpsertStageRequests(a, TagsFor(search.result.value), f.outcome.value, search.cred, now, tr, replies);
        assert s.requests == search.requests + u.requests && |search.requests| == 1;
        forall i | 0 <= i < |s.requests| && (s.requests[i].PostTags? || s.requests[i].PostNote?)
          ensures 2 <= i && s.requests[1].PutContact?
        {
          assert s.requests[0] == search.requests[0];
          assert s.requests[1] == u.requests[0];
        }
        forall i | 1 <= i < |s.requests|
          ensures s.requests[i] == u.requests[i - 1]
        {
        }
      }
    }
  }

  /** The only upsert is the second call, and it carries the payload. */
  lemma UpsertSendsPayload(a: ContactAttrs, tagIds: seq<int>, c: Credential, now: int, tr: TokenReply, replies: CrmReplies)
    requires |a.emailAddresses| >= 1
    ensures var s := Reconcile(a, tagIds, c, now, tr, replies);
      forall i | 0 <= i < |s.requests| :: s.requests[i].PutContact? ==> i == 1 && s.requests[i].payload == PayloadOf(a)
  {
    ReconcileStages(a, tagIds, c, now, tr, replies);
    var s := Reconcile(a, tagIds, c, now, tr, replies);
    var f := Fetch(c, now, tr);
    if f.outcome.Success? {
      var search := SearchStep(f.cred, now, tr, a.emailAddresses[0].email, a.customFields, replies.search);
      if search.result.Success? {
        var u := Upsert(a, TagsFor(search.result.value), f.outcome.value, search.cred, now, tr, replies);
        UpsertStageRequests(a, TagsFor(search.result.value), f.outcome.value, search.cred, now, tr, replies);
        assert s.requests == search.requests + u.requests && |search.requests| == 1;
        assert s.requests[0] == search.requests[0];
        forall i | 0 <= i < |s.requests| && s.requests[i].PutContact?
          ensures i == 1 && s.requests[i].payload == PayloadOf(a)
        {
          if i > 0 {
            assert s.requests[i] == u.requests[i - 1];
          }
        }
      }
    }
  }

  /** A tag call answered with anything but 200 fails the saga before the note. */
  lemma FailedTaggingSkipsNote(
    a: ContactAttrs, tagIds: seq<int>, c: Credential, now: int, tr: TokenReply, replies: CrmReplies)
    requires |a.emailAddresses| >= 1
    requires replies.tagsStatus != 200
    ensures var s := Reconcile(a, tagIds, c, now, tr, replies);
      s.result.Failure? && forall i | 0 <= i < |s.requests| :: !s.requests[i].PostNote?
  {
    ReconcileStages(a, tagIds, c, now, tr, replies);
    var s := Reconcile(a, tagIds, c, now, tr, replies);
    var f := Fetch(c, now, tr);
    if f.outcome.Success? {
      var search := SearchStep(f.cred, now, tr, a.emailAddresses[0].email, a.customFields, replies.search);
      if search.result.Success? {
        var u := Upsert(a, TagsFor(search.result.value), f.outcome.value, search.cred, now, tr, replies);
        UpsertStageRequests(a, TagsFor(search.result.value), f.outcome.value, search.cred, now, tr, replies);
        assert s.requests == search.requests + u.requests && |search.requests| == 1;
        forall i | 0 <= i < |s.requests|
          ensures !s.requests[i].PostNote?
        {
          if i == 0 {
            assert s.requests[0] == search.requests[0];
          } else {
            assert s.requests[i] == u.requests[i - 1];
          }
        }
      }
    }
  }

  /**
   * The tags a contact holds before reconciliation are never sent: the
   * existence check overwrites them first. So the `[13988]` preset by the
   * additional-passenger path changes nothing the CRM sees.
   */
  lemma PresetTagsAreNeverSent(
    a: ContactAttrs, tags1: seq<int>, tags2: seq<int>, c: Credential, now: int, tr: TokenReply, replies: CrmReplies)
    requires |a.emailAddresses| >= 1
    ensures var s1 := Reconcile(a, tags1, c, now, tr, replies);
      var s2 := Reconcile(a, tags2, c, now, tr, replies);
      s1.result == s2.result && s1.requests == s2.requests && s1.cred == s2.cred && s1.tokenRequests == s2.tokenRequests
  {
  }

  lemma ConcatAssociates<T>(a: seq<T>, b: seq<T>, c: seq<T>)
    ensures a + (b + c) == (a + b) + c
  {
  }

  // ---------------------------------------------------------------------
  // The contact object
  // ---------------------------------------------------------------------

  /** `Contact`: the fixed attributes, and `tagIds`, which reconciliation overwrites. */
  class Contact {
    const attrs: ContactAttrs
    var tagIds: seq<int>

    ghost predicate Valid() {
      |attrs.emailAddresses| == 1
    }

    constructor (
      basic: BasicContactInfo, product: PyStr, venue: PyStr, bookedItems: string, billing: BillingAddress,
      levelOfTennis: string, moreInfo: string,
      p1: AdditionalPassengerInfo, p2: AdditionalPassengerInfo, p3: AdditionalPassengerInfo, booking: Booking)
      ensures Valid()
      ensures attrs == NewContactAttrs(basic, product, venue, bookedItems, billing, levelOfTennis, moreInfo, p1, p2, p3, booking)
      ensures tagIds == INITIAL_TAG_IDS
    {
      attrs := NewContactAttrs(basic, product, venue, bookedItems, billing, levelOfTennis, moreInfo, p1, p2, p3, booking);
      tagIds := INITIAL_TAG_IDS;
    }

    /** `vars(self)`: every attribute by name. */
    function Vars(): map<string, Attr>
      reads this
    {
      map[
        "opt_in_reason" := Text(attrs.optInReason), "duplicate_option" := Text(attrs.duplicateOption),
        "tag_ids" := Numbers(tagIds), "source_type" := Text(attrs.sourceType),
        "email_addresses" := Emails(attrs.emailAddresses), "given_name" := Text(attrs.givenName),
        "family_name" := Text(attrs.familyName), "lead_source_id" := Number(attrs.leadSourceId),
        "note" := Text(attrs.note), "addresses" := Addresses(attrs.addresses),
        "phone_numbers" := Phones(attrs.phoneNumbers), "prefix" := Text(attrs.prefix),
        "custom_fields" := Fields(attrs.customFields)
      ]
    }

    /**
     * Deleting `note` and `tag_ids` from `vars(self)` leaves the upsert body,
     * whatever the tags are, while the contact itself keeps both.
     */
    lemma VarsWithoutNoteAndTags()
      ensures Vars() - {"note", "tag_ids"} == PayloadOf(attrs)
      ensures Vars()["note"] == Text(attrs.note) && Vars()["tag_ids"] == Numbers(tagIds)
    {
    }

    /** `check_if_booking_exists()` */
    method CheckIfBookingExists(auth: KeapAuth, now: int, tr: TokenReply, reply: SearchReply)
      returns (r: Result<bool, CrmError>, sent: seq<CrmRequest>)
      requires Valid()
      modifies auth
      ensures var s := SearchStep(old(auth.Cred()), now, tr, attrs.emailAddresses[0].email, attrs.customFields, reply);
        r == s.result && sent == s.requests && auth.Cred() == s.cred && auth.sent == old(auth.sent) + s.tokenRequests
    {
      var token := auth.GetActualAccessToken(now, tr);
      if token.Failure? {
        return Failure(TokenFailed(token.error)), [];
      }
      sent := [SearchContacts(token.value, attrs.emailAddresses[0].email)];
      r := BookingRecorded(attrs.customFields, reply);
    }

    /** `add_tags_to_contact(contact_id)` */
    method AddTagsToContact(contactId: int, auth: KeapAuth, now: int, tr: TokenReply, status: int)
      returns (r: Result<bool, CrmError>, sent: seq<CrmRequest>)
      modifies auth
      ensures var s := TagStep(old(auth.Cred()), now, tr, contactId, tagIds, status);
        r == s.result && sent == s.requests && auth.Cred() == s.cred && auth.sent == old(auth.sent) + s.tokenRequests
    {
      var token := auth.GetActualAccessToken(now, tr);
      if token.Failure? {
        return Failure(TokenFailed(token.error)), [];
      }
      sent := [PostTags(token.value, contactId, tagIds)];
      if status == 200 {
        return Success(true), sent;
      }
      return Failure(RequestError(status)), sent;
    }

    /** `create_contact_notes(contact_id)` */
    method CreateContactNotes(contactId: int, auth: KeapAuth, now: int, tr: TokenReply, status: int)
      returns (r: Result<bool, CrmError>, sent: seq<CrmRequest>)
      modifies auth
      ensures var s := NoteStep(old(auth.Cred()), now, tr, contactId, attrs.note, status);
        r == s.result && sent == s.requests && auth.Cred() == s.cred && auth.sent == old(auth.sent) + s.tokenRequests
    {
      var token := auth.GetActualAccessToken(now, tr);
      if token.Failure? {
        return Failure(TokenFailed(token.error)), [];
      }
      sent := [PostNote(token.value, contactId, attrs.note)];
      if status == 201 {
        return Success(true), sent;
      }
      return Failure(RequestError(status)), sent;
    }

    /** `add_or_update_contact_in_keap()`; the result is the CRM contact id. */
    method AddOrUpdateContactInKeap(auth: KeapAuth, now: int, tr: TokenReply, replies: CrmReplies)
      returns (r: Result<int, CrmError>, sent: seq<CrmRequest>)
      requires Valid()
      modifies this, auth
      ensures var s := Reconcile(attrs, old(tagIds), old(auth.Cred()), now, tr, replies);
        && r == s.result && sent == s.requests && tagIds == s.tagIds
        && auth.Cred() == s.cred && auth.sent == old(auth.sent) + s.tokenRequests
    {
      ghost var c0 := auth.Cred();
      ghost var tokens0 := auth.sent;
      ReconcileStages(attrs, tagIds, c0, now, tr, replies);
      var token := auth.GetActualAccessToken(now, tr);
      ghost var f := Fetch(c0, now, tr);
      if token.Failure? {
        return Failure(TokenFailed(token.error)), [];
      }
      var found;
      found, sent := CheckIfBookingExists(auth, now, tr, replies.search);
      ghost var search := SearchStep(f.cred, now, tr, attrs.emailAddresses[0].email, attrs.customFields, replies.search);
      assert auth.sent == tokens0 + f.requests + search.tokenRequests;
      if found.Failure? {
        return Failure(found.error), sent;
      }
      tagIds := if found.value then [REPEAT_BOOKING_TAG] else [NEW_BOOKING_TAG];
      var more;
      r, more := UpsertContact(token.value, auth, now, tr, replies);
      ghost var rest := Upsert(attrs, tagIds, token.value, search.cred, now, tr, replies);
      ConcatAssociates(tokens0, f.requests, search.tokenRequests);
      ConcatAssociates(tokens0, f.requests + search.tokenRequests, rest.tokenRequests);
      return r, sent + more;
    }

    /** The upsert request and, once it is accepted, the follow-up calls. */
    method UpsertContact(token: string, auth: KeapAuth, now: int, tr: TokenReply, replies: CrmReplies)
      returns (r: Result<int, CrmError>, sent: seq<CrmRequest>)
      modifies auth
      ensures var s := Upsert(attrs, tagIds, token, old(auth.Cred()), now, tr, replies);
        && r == s.result && sent == s.requests
        && auth.Cred() == s.cred && auth.sent == old(auth.sent) + s.tokenRequests
    {
      var fields := Vars();
      fields := fields - {"note"};
      fields := fields - {"tag_ids"};
      VarsWithoutNoteAndTags();
      assert fields == PayloadOf(attrs);
      sent := [PutContact(token, fields)];

      if replies.upsert.status == 200 || replies.upsert.status == 201 {
        if replies.upsert.id.None? {
          return Failure(MissingContactId), sent;
        }
        var more;
        r, more := FollowUpUpsert(replies.upsert.id.value, auth, now, tr, replies);
        return r, sent + more;
      }
      return Failure(RequestError(replies.upsert.status)), sent;
    }

    /** The two calls after an accepted upsert, with the returned contact id. */
    method FollowUpUpsert(id: int, auth: KeapAuth, now: int, tr: TokenReply, replies: CrmReplies)
      returns (r: Result<int, CrmError>, sent: seq<CrmRequest>)
      modifies auth
      ensures var s := FollowUps(id, tagIds, attrs.note, old(auth.Cred()), now, tr, replies);
        && r == s.result && sent == s.requests
        && auth.Cred() == s.cred && auth.sent == old(auth.sent) + s.tokenRequests
    {
      ghost var tokens0 := auth.sent;
      var tagged, tagCalls := AddTagsToContact(id, auth, now, tr, replies.tagsStatus);
      ghost var tagging := TagStep(old(auth.Cred()), now, tr, id, tagIds, replies.tagsStatus);
      if tagged.Failure? {
        return Failure(tagged.error), tagCalls;
      }
      var noted, noteCalls := CreateContactNotes(id, auth, now, tr, replies.noteStatus);
      ghost var noting := NoteStep(tagging.cred, now, tr, id, attrs.note, replies.noteStatus);
      ConcatAssociates(tokens0, tagging.tokenRequests, noting.tokenRequests);
      if noted.Failure? {
        return Failure(noted.error), tagCalls + noteCalls;
      }
      return Success(id), tagCalls + noteCalls;
    }

    /** `add_or_update_additional_passenger_in_keap()`: presets `[13988]`, then reconciles. */
    method AddOrUpdateAdditionalPassengerInKeap(auth: KeapAuth, now: int, tr: TokenReply, replies: CrmReplies)
      returns (r: Result<int, CrmError>, sent: seq<CrmRequest>)
      requires Valid()
      modifies this, auth
      ensures var s := Reconcile(attrs, [NEW_BOOKING_TAG], old(auth.Cred()), now, tr, replies);
        && r == s.result && sent == s.requests && tagIds == s.tagIds
        && auth.Cred() == s.cred && auth.sent == old(auth.sent) + s.tokenRequests
    {
      tagIds := [NEW_BOOKING_TAG];
      r, sent := AddOrUpdateContactInKeap(auth, now, tr, replies);
    }
  }
}
