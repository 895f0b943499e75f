# ActiveAway booking webhook — a Dafny model

ActiveAway sells tennis holidays through a booking system (Checkfront) and
keeps its customers in a CRM (Keap). When the booking system posts a booking
to the webhook, the handler:

1. looks up the name of every ordered item and joins them into the order name;
2. finds the product and venue keywords (the last configured keyword that
   occurs in the order name);
3. builds a CRM contact for the booker and reconciles it with the CRM: it
   searches by email, decides whether the booking is already recorded (same
   booking id in custom field 514), picks the tag (14052 for a repeat
   booking, 13988 for a new one), upserts the contact, tags it and adds a
   note;
4. writes one row of 98 cells to the master-data ledger, updating the
   booking's row when the ledger already has it and appending otherwise;
5. reconciles one more contact for every passenger slot 2 to 6 whose email
   field is set;
6. answers 200.

Each CRM call first obtains an access token from the stored OAuth
credential (`KeapAuth`). The credential is reused while it is fresh and
refreshed with the refresh token once it has expired.

The model has these modules:

- `Wrappers`: `Option` and `Result`.
- `PyText`: the Python behaviour the code relies on. This covers truthiness of
  optional text, `x if x else ""`, `str()`, substring `in`, `", ".join` and
  decimal rendering of integers.
- `Models` (`main/models.py`): the token lifecycle. It has three pure step
  functions (`Exchange`, `Refresh` and `Fetch`) and the `KeapAuth` class,
  whose methods update the credential in place. A request log on the class
  records what was sent to the token endpoint.
- `KeapCountries` (`main/utils/keap_api.py`): the country-code table.
- `KeapApi` (`main/utils/keap_api.py`): the records the handler builds, the
  contact payload, the existence check and the reconciliation saga. The
  `Contact` class carries the fixed attributes and the tag list that
  reconciliation overwrites.
- `Locals` (`main/utils/locals.py`): the keyword search, as a loop proved
  against `LastMatch`.
- `Views` (`main/views.py`): `WebhooksView.post`. It is modelled by `Webhook`,
  a function from the payload, the collaborators and the credential to the
  response and the ordered effects. `Post` is the method proved equal to it.

HTTP is not modelled. Each CRM or ledger call becomes a request value in an
ordered log, and the replies are parameters:

- the CRM's replies, per contact slot;
- the token endpoint's reply;
- the ledger row lookup;
- the item-name and status-label lookups;
- the keyword tables;
- the clock;
- the rendered dates and amounts.

A raised exception becomes a `Failure`, which carries the reason.

## Model

| member | source | states |
|---|---|---|
| PyText.OrEmpty | main/utils/keap_api.py:280-284 | `x if x else ""` is empty exactly for falsy input, and otherwise returns the input text |
| PyText.ContainsInLeft | main/utils/locals.py:9 | a keyword contained in a string is still contained after text is appended |
| PyText.ContainsInRight | main/utils/locals.py:9 | a keyword contained in a string is still contained after text is prepended |
| PyText.JoinContains | main/views.py:40 | a keyword contained in one name is contained in the joined order name, whatever the separator |
| PyText.NatText | main/views.py:254 | `str()` of a count is never empty |
| PyText.ParseNatText | main/views.py:254 | the decimal text of a count reads back as the same count |
| PyText.NatTextInjective | main/views.py:251 | different row numbers have different decimal texts |
| Models.Exchange | main/models.py:40-63 | a falsy code raises before any request; otherwise exactly one code grant is sent. The exchange succeeds iff the reply carries the token fields, and then the credential is the grant's with expiry now plus the lifetime. A failure leaves the credential unchanged |
| Models.Refresh | main/models.py:65-94 | without a refresh token it raises and sends nothing; otherwise exactly one refresh grant is sent. A status other than 200 raises with that status. It succeeds iff status is 200 and the token fields are present, and then the credential is replaced. A failure keeps the credential |
| Models.Fetch | main/models.py:96-102 | a fresh token is returned as stored with no request; an expired one goes through `Refresh`; at most one request; a returned token is the stored one |
| Models.FreshTokenIsReused | main/models.py:97-99 | before expiry the stored token is returned, nothing is sent and the record is unchanged |
| Models.ExpiredTokenIsRefreshedOnce | main/models.py:100-102 | after expiry exactly one refresh is sent (none without a refresh token, which fails). A success returns the newly granted token. A failure keeps the record |
| Models.GrantMakesCredentialFresh | main/models.py:40-102 | after a successful exchange or refresh with a positive lifetime, the next fetch sends nothing and returns the granted token |
| Models.ExchangeIgnoresStatus | main/models.py:53-61 | a code exchange answered with 401 but carrying token fields is accepted |
| Models.KeapAuth.constructor | main/models.py:35-38 | a new record has no credential and has sent nothing |
| Models.KeapAuth.RequestAccessToken | main/models.py:40-63 | the result, the new credential and the appended token requests are those of `Exchange` on the old credential |
| Models.KeapAuth.RefreshAccessToken | main/models.py:65-94 | the result, the new credential and the appended token requests are those of `Refresh` on the old credential |
| Models.KeapAuth.GetActualAccessToken | main/models.py:96-102 | the result, the new credential and the appended token requests are those of `Fetch` on the old credential |
| KeapCountries.CountryCode | main/utils/keap_api.py:360-362 | a country in the table maps to its code, and any other country passes through unchanged |
| Locals.LastMatch | main/utils/locals.py:4-11 | None iff no keyword occurs in the items. Otherwise the result is a keyword that occurs in the items, and no later keyword occurs |
| Locals.ScanKeywords | main/utils/locals.py:8-11 | the loop over the keywords returns `LastMatch` |
| Locals.FindReplaceProductName | main/utils/locals.py:4-11 | the product is the last product keyword contained in the order name |
| Locals.FindReplaceVenueName | main/utils/locals.py:14-21 | the venue is the last venue keyword contained in the order name |
| Locals.KeywordInAnItemIsRecognised | main/utils/locals.py:8-10 | a keyword contained in any one item name is found in the joined order name |
| Locals.UnmatchedKeywordsAreIgnored | main/utils/locals.py:8-11 | appending keywords that do not occur does not change the result |
| KeapApi.FilterTitle | main/utils/keap_api.py:265-271 | the result is one of the seven titles or empty; a known title is kept, and anything else becomes empty |
| KeapApi.FilterTitleIdempotent | main/utils/keap_api.py:268-271 | filtering an already filtered title changes nothing |
| KeapApi.NewBillingAddress | main/utils/keap_api.py:278-284 | every field is its argument when truthy and empty otherwise |
| KeapApi.NewAdditionalPassengerInfo | main/utils/keap_api.py:287-291 | every field is its argument when truthy and empty otherwise |
| KeapApi.NewBooking | main/utils/keap_api.py:294-317 | every one of the ten fields is its argument when truthy and empty otherwise |
| KeapApi.NewBasicContactInfo | main/utils/keap_api.py:320-328 | every field is its argument when truthy and empty otherwise |
| KeapApi.RebuildingIsIdentity | main/utils/keap_api.py:278-328 | rebuilding any of the four records from its own fields gives the same record |
| KeapApi.FieldIndex | main/utils/keap_api.py:482-485 | returns the first position with the given id, or None iff no field has it |
| KeapApi.FieldIndexAt | main/utils/keap_api.py:482-485 | a position holding the id with no earlier match is the one returned |
| KeapApi.CustomFieldsFor | main/utils/keap_api.py:382-459 | nineteen custom fields; field 514 sits at position 9 and carries the booking id |
| KeapApi.CustomFieldIdsAreDistinct | main/utils/keap_api.py:382-459 | no id occurs twice, and every field has content |
| KeapApi.RepeatedPassengerRepeatsFields | main/utils/keap_api.py:399-418 | when the second and third passengers are the same record, fields 257/259 repeat 247/249 |
| KeapApi.BlankPassengersSendEmptyFields | main/utils/keap_api.py:382-418 | with blank passenger details and no further information, field 9 is the tennis level followed by " - ", and fields 239 to 259 are empty |
| KeapApi.NewContactAttrs | main/utils/keap_api.py:331-459 | the constants (opt-in reason, duplicate option, source type, lead source 784) and one EMAIL1 address. The names and prefix come from the basic info. The note is the booking note built from the product, the venue and the booked items. The single address is the billing entry of the billing address, and its country code comes from the table or passes through. The custom fields are the nineteen above, marked with the booking id |
| KeapApi.NoteText | main/utils/keap_api.py:354-357 | the note contains the product's and the venue's `str()` text and the booked items |
| KeapApi.PayloadOf | main/utils/keap_api.py:517-521 | the upsert body has no note and no tag_ids, and it carries the custom fields and email addresses |
| KeapApi.BookingRecorded | main/utils/keap_api.py:479-498 | a count of 0 means not recorded. Otherwise the answer is whether the first contact's field 514 equals ours, and the check fails when there is no first contact or either side lacks field 514 |
| KeapApi.ReplayIsRecognised | main/utils/keap_api.py:479-498 | a contact carrying our own fields is recognised, one with another booking id is not, and one without field 514 fails the check |
| KeapApi.SearchStep | main/utils/keap_api.py:461-498 | at most one token request and one search. The search is sent iff a token was obtained, it looks up the given email with that token, and its result is the existence check on the reply. Without a token the failure is the token's |
| KeapApi.TagsFor | main/utils/keap_api.py:514 | one tag: 14052 iff the booking is already recorded, and 13988 iff not |
| KeapApi.TagStep | main/utils/keap_api.py:540-556 | succeeds iff the tag call was made and answered 200. The call posts the given tags for the id with the fetched token, and any other status fails with that status |
| KeapApi.NoteStep | main/utils/keap_api.py:558-576 | succeeds iff the note call was made and answered 201. The call posts the given note for the id with the fetched token, and any other status fails with that status |
| KeapApi.Reconcile | main/utils/keap_api.py:504-538 | without a token or after a failed existence check the preset tags are kept. After a successful check the tags are the ones chosen for its answer |
| KeapApi.ReconcileStartsWithSearch | main/utils/keap_api.py:504-538 | without a token nothing is sent, the failure is the token's and the preset tags are kept. Otherwise the first call searches by the contact's first email. A failed existence check stops after at most that search. A second call is always the PUT |
| KeapApi.Upsert | main/utils/keap_api.py:517-538 | the first request is the PUT of the payload with the fetched token, and the tags are those chosen |
| KeapApi.FollowUps | main/utils/keap_api.py:532-535 | the tags are kept. At most two calls are made, and calls are made iff a token is obtained: first the tag call for the id with the tags, then the note call for the id with the note. A tag status other than 200 fails with no note. The stage succeeds, with the id, iff both calls were made and answered 200 and 201 |
| KeapApi.CompletedUpsertCallsInOrder | main/utils/keap_api.py:524-535 | a completed upsert stage means the statuses were accepted (200/201, 200, 201). It made exactly PUT, tags and note, the last two for the returned id |
| KeapApi.CompletedReconcileCallsInOrder | main/utils/keap_api.py:504-535 | a completed reconciliation made exactly four calls: search by our email, PUT of the payload, then tags and note for the returned id. The tags were chosen by the existence check |
| KeapApi.UpsertStageRequests | main/utils/keap_api.py:524-538 | every call after the PUT is a tag or note call for the returned id of an accepted upsert. A rejected upsert sends only the PUT and raises with its status. A tag status other than 200 fails with no note |
| KeapApi.RejectedUpsertStops | main/utils/keap_api.py:532-538 | an upsert status other than 200/201 fails the saga with that status after at most the search and the PUT, and no tag or note call is made |
| KeapApi.FollowUpsUseReturnedId | main/utils/keap_api.py:532-534 | every tag or note call comes after the PUT, follows an accepted upsert with an id, and uses that id |
| KeapApi.UpsertSendsPayload | main/utils/keap_api.py:517-527 | the only PUT is the second call, and it carries the payload |
| KeapApi.FailedTaggingSkipsNote | main/utils/keap_api.py:533-556 | a tag status other than 200 fails the saga, and no note is posted |
| KeapApi.PresetTagsAreNeverSent | main/utils/keap_api.py:500-514 | the tags held before reconciliation change neither the result nor any request |
| KeapApi.Contact.constructor | main/utils/keap_api.py:332-459 | the attributes are `NewContactAttrs` of the arguments, and the tags are [1342, 13988] |
| KeapApi.Contact.VarsWithoutNoteAndTags | main/utils/keap_api.py:517-521 | removing note and tag_ids from the attributes leaves exactly the upsert body |
| KeapApi.Contact.CheckIfBookingExists | main/utils/keap_api.py:461-498 | fetches a token and searches by the first email; the result, the requests and the credential are those of the search step |
| KeapApi.Contact.AddTagsToContact | main/utils/keap_api.py:540-556 | fetches a token and posts the contact's tags to the given id; any status but 200 raises |
| KeapApi.Contact.CreateContactNotes | main/utils/keap_api.py:558-576 | fetches a token and posts the note for the given id; any status but 201 raises |
| KeapApi.Contact.AddOrUpdateContactInKeap | main/utils/keap_api.py:504-538 | the result, the requests, the credential, the token log and the new tags equal `Reconcile` on the old state |
| KeapApi.Contact.UpsertContact | main/utils/keap_api.py:516-538 | builds the body from the attributes without note and tags, PUTs it and runs the follow-ups; equals `Upsert` |
| KeapApi.Contact.FollowUpUpsert | main/utils/keap_api.py:532-535 | tags, then notes, for the returned id; equals `FollowUps` |
| KeapApi.Contact.AddOrUpdateAdditionalPassengerInKeap | main/utils/keap_api.py:500-502 | presets [13988] and reconciles; equals `Reconcile` with that preset |
| Views.AsPyStr | main/views.py:50-63 | a payload value is truthy iff it is a non-empty string |
| Views.StatusLabel | main/views.py:68-70 | a known status maps to its label, and any other hashable value passes through |
| Views.ItemNames | main/views.py:25-39 | a list gives one name per item, in order; a single item gives one name; anything else gives none |
| Views.ProductNames | main/views.py:27-39 | the loop over the items returns `ItemNames` |
| Views.OrderNameListsEveryItem | main/views.py:40 | every item name occurs in the order name |
| Views.ListQuantityAppend | main/views.py:124-127 | the quantity of two item lists is the sum of their quantities |
| Views.ListQuantity | main/views.py:124-127 | without negative quantities the total is at least 0 and at least every line's quantity |
| Views.TotalQuantity | main/views.py:124-129 | anything but a list or a single item counts 0. A list without negative quantities totals at least 0 and at least every line |
| Views.SingleItemListAgreesWithItem | main/views.py:25-39 | a one-item list and the single item give the same names and the same quantity |
| Views.ProductQuantity | main/views.py:124-129 | the loop sums the quantities of a list, takes the quantity of a single item, and is 0 otherwise |
| Views.BookingRecord | main/views.py:64-84 | the booking id is the code and the URL is the booking page for it; the event type and location are the product and venue, or empty |
| Views.OrderOf | main/views.py:25-84 | the order name is the item names joined with ", ". The product and venue are the last keywords found in it, and the booking id is the code |
| Views.ItemKeywordSetsProduct | main/views.py:40-44 | a product keyword inside any one item's name gives the order a product |
| Views.BookerAttrs | main/views.py:50-114 | the booker's contact has one EMAIL1 address: the customer's `email`, or "" when it is missing or falsy. Its custom fields are marked with the booking id |
| Views.ThirdPassengerRepeatsSecond | main/views.py:90-99 | the booker's fields 257/259 carry the 247/249 contents, because both passenger records read the p3 fields |
| Views.PassengerAttrs | main/views.py:267-304 | a passenger contact has one email, read from `p2-email` for slot 2 and from `p{n}_email` otherwise, and one phone number, read from `p2-phone` for slot 2 and from `p{n}_phone` otherwise; a missing or falsy value gives "". Its names come from `p{n}firstname` and `p{n}lastname`, and its prefix is the filtered `p{n}title`. It is marked with the booking id. Its billing address is empty in every field except the country code, which is the table's code for "". Custom field 9 is the slot's tennis level followed by " - ", and the passenger fields 239 to 259 are empty |
| Views.SlotTwoMayHaveNoEmail | main/views.py:263-270 | slot 2 is triggered by `p2_email`, but its contact is built from `p2-email` and may have an empty email |
| Views.SlotTriggered | main/views.py:264-266 | a set `p{n}_email` triggers slot n, and a set `p2-email` also triggers slot 2. A slot is triggered only by one of these keys when it is present with a non-empty value |
| Views.SlotEmail | main/views.py:267-270 | the email is the `p2-email` value for slot 2 and the `p{n}_email` value otherwise, "" when missing. A truthy email means the slot is triggered, and outside slot 2 the email is truthy iff the slot is triggered |
| Views.CellText | main/views.py:254 | an empty object becomes "", a string itself, null "None", and a count reads back as itself |
| Views.FormatRow | main/views.py:252-260 | the row has one text per cell, in order, each being that cell's text |
| Views.RangeFor | main/views.py:251 | the range name is "A", the row's text, ":CU" and the row's text again, and the row number reads back from it |
| Views.LedgerCells | main/views.py:138-245 | 98 cells, within the 99 columns A to CU. They hold the code, the status label, the product, venue and quantity, the order name, the booker's names and the booking URL at their columns |
| Views.RangeNamesOneRow | main/views.py:251 | two rows never share a range name |
| Views.LedgerWriteFor | main/views.py:248-260 | an update of the row's range iff the lookup found a non-zero row, and an append otherwise; both write the formatted row |
| Views.AsEffects | main/views.py:118 | each CRM request of a slot becomes one effect of that slot, in order |
| Views.RunSlots | main/views.py:263-305 | a raised failure is the CRM failure of a slot no earlier than the first slot run |
| Views.InCallOrderConcat | main/views.py:116-305 | effects in call order, followed by effects of later calls, stay in call order |
| Views.RunInSlotOrder | main/views.py:263-305 | the passenger loop's effects are CRM requests of triggered slots from 2 to 6, in slot order |
| Views.FailedSlotIsTheLast | main/views.py:263-305 | a failed slot is triggered, lies in 2 to 6, and is the last slot with effects |
| Views.TriggeredSlotIsRun | main/views.py:263-305 | a run that raises nothing reconciles every triggered slot: the slot's saga succeeds and all its requests appear among the run's effects, in order, tagged with the slot |
| Views.AssembledInCallOrder | main/views.py:116-305 | booker requests, ledger write and passenger requests together are in call order |
| Views.AssembledLedgerWrite | main/views.py:116-260 | after a reconciled booker the ledger write comes right after the booker's requests, and it is the only non-CRM effect. After a failed booker there are only the booker's requests |
| Views.HandledInCallOrder | main/views.py:116-305 | for any booker saga, ledger write and passenger slots, the effects follow the call order, and only triggered slots from 2 to 6 make passenger requests |
| Views.EffectsFollowCallOrder | main/views.py:19-305 | for every payload the handler's effects follow its call order, and only slots whose email is set send requests |
| Views.BareItemRaisesFirst | main/views.py:36-38 | a single item without attributes raises before any effect and leaves the credential untouched |
| Views.UnhashableStatusRaisesFirst | main/views.py:68-70 | a status that is an empty object raises (unhashable dictionary key) before any effect and leaves the credential untouched |
| Views.HandledBookerFailure | main/views.py:116-119 | a failed booker saga raises its error, and its requests are the only effects |
| Views.HandledLedgerWrite | main/views.py:116-260 | after a reconciled booker exactly one ledger write is made, right after the booker's requests |
| Views.HandledOkExactlyWhenAllReconciled | main/views.py:116-307 | the only response status is 200, given iff the booker and every triggered passenger are reconciled. Otherwise the first failure is raised |
| Views.HandledTriggeredSlot | main/views.py:116-305 | after a 200 answer every triggered slot's saga succeeded, and its requests follow the booker's requests and the ledger write, in order |
| Views.HandledSlotRequest | main/views.py:263-305 | after a 200 answer each request of a triggered slot's saga is among the effects |
| Views.HandledSlotUpserts | main/views.py:263-305 | after a 200 answer a triggered slot reconciling a fixed contact has PUT that contact's payload |
| Views.HandledPassengerIsUpserted | main/views.py:263-305 | after a 200 answer every triggered slot has PUT the payload of its passenger contact, for any order |
| Views.BookerFailureStopsEverything | main/views.py:116-119 | for a readable payload, when the booker's reconciliation fails its error escapes; no ledger write and no passenger call happen |
| Views.LedgerWrittenOnceAfterBooker | main/views.py:121-260 | for a readable payload, after a reconciled booker exactly one ledger write follows its requests. It updates the found row's range iff a non-zero row was found |
| Views.RespondsOkExactlyWhenAllReconciled | main/views.py:19-307 | the handler answers 200 iff the items and the status are readable, the booker is reconciled and no passenger slot fails, and it never answers another status |
| Views.TriggeredPassengerIsUpserted | main/views.py:263-307 | after a 200 answer every slot from 2 to 6 whose email key is set had its contact PUT to the CRM, with the payload built from the slot's fields |
| Views.AddPassenger | main/views.py:267-305 | builds the slot's contact and reconciles it; equals the slot's saga |
| Views.AddPassengers | main/views.py:263-305 | the loop over slots 2 to 6 equals the passenger run: it stops at the first failure and accumulates effects and token requests |
| Views.Webhook | main/views.py:19-307 | the only status answered is 200, and only for a readable payload. A single item without attributes or a status that is an empty object raises with no effect and no token request, and leaves the credential untouched |
| Views.Post | main/views.py:19-307 | the response, the effects in order, the credential and the token log equal `Webhook` on the old credential |

## Left out

- HTTP, JSON, the Django ORM and logging are not modelled. Requests are values in ordered logs; replies, the stored keywords and the `KeapAuth` row are parameters.
- The `checkfront_api` and `sheet_api` collaborators are parameters: item names, status labels and the ledger row lookup. Their own code is not part of this model.
- Date rendering in the Europe/London zone and the float arithmetic and two-decimal formatting of the amounts are given as ready texts (`Dates`, `taxIncludedTotal`, `balanceDue`). `int()` parsing of timestamps and quantities is left out; quantities arrive as integers.
- The `int()` and `float()` conversions at main/views.py:71-79 and main/views.py:124-137 are assumed to succeed. In the code they can raise. A missing or non-numeric timestamp raises before any CRM call. A missing or non-numeric quantity raises after the booker's CRM calls and before the ledger write. So does a missing `total` or `paid_total`, whose `""` default does not parse as a float. For such payloads the handler raises where `Webhook` goes on, so `LedgerWrittenOnceAfterBooker` and `RespondsOkExactlyWhenAllReconciled` describe the code only for payloads whose numbers parse.
- Missing-key errors other than the single item without `@attributes` are left out. These are a missing `booking`, `order`, `customer`, `fields` or `code`, an `items` that is absent (the `""` default has no `.get`), and a list item without `@attributes`; the payload is assumed to have those keys.
- A JSON `{}` passed to the record constructors is falsy in Python and is treated like a missing value. It still shows where the code renders it with `str()`: in the ledger cells (`CellText`) and, as "{}", in the tennis level of custom field 9. A status that is `{}` cannot be looked up in the status table and raises before any call (`Webhook`, `UnhashableStatusRaisesFirst`).
- One clock reading and one token-endpoint reply serve the whole request. Each CRM call re-reads the credential, which is modelled, but the time does not advance between calls.
- The authorization-link and callback views, and `make_auth_request`, are left out. They only format a URL or call `RequestAccessToken`.
- `make_auth_request` stores a new `KeapAuth` row on every OAuth callback (main/utils/keap_api.py:274-275), while every CRM call reads the first row (`KeapAuth.objects.all()[0]`). The model's single credential stands for that first row. Rows stored by later callbacks are never read, and they are not modelled.
- Concurrency (two webhooks sharing the credential row) is not modelled.
- KeapCountries.CountryCode: no property of the table's contents beyond lookup-or-pass-through is stated.
- Views.PassengerAttrs: the blank address's country code is stated as `CountryCode("")`, not as "". That none of the 250 keys of the table is empty is not proved, because the solver cannot refute membership in a map display that large.
- The model follows the code in these behaviours, which a reader of the handler might not expect:
  - The passenger loop has no exception handling, so a failing passenger aborts the remaining slots and the 200 response (`FailedSlotIsTheLast`, `HandledOkExactlyWhenAllReconciled`).
  - A CRM contact without custom field 514 makes the existence check fail rather than count as a different booking (`BookingRecorded`).
  - The `[13988]` preset of the additional-passenger path is always overwritten (`PresetTagsAreNeverSent`), and the handler never calls that path.
  - The code exchange ignores the HTTP status (`ExchangeIgnoresStatus`).
  - The third passenger record repeats the second (`ThirdPassengerRepeatsSecond`).
  - Slot 2 is triggered by `p2_email`, but its contact is built from `p2-email` (`SlotTwoMayHaveNoEmail`).
  - The row has 98 cells for the 99-column range `A:CU` (`LedgerCells`).
- `UpsertContact` and `FollowUpUpsert` split `add_or_update_contact_in_keap` into its PUT and its follow-up calls; together they perform its steps in the same order.
