# skyward-ui, modelled in Dafny

skyward-ui is the browser client of a flight-booking service. This project models its core:

- **The AI widget pipeline.** Each page has a `useAIWidget` hook. It records a page visit, asks the server for a widget directive and decodes it. The widget renderer shows the directive as a popup, a banner, a side panel or a plain card. Each page routes the widget's action tokens to its own handler.
- **Web check-in.** The lookup form, the seat map grouped into rows, and the seat-recommendation heuristic. Also the upgrade panel and dialog, and the seat-assignment flow that refreshes the booking.
- **The booking page.** The total with payment-offer discounts, ancillary (add-on) selection, the first-three bundle, the offer list and the page state.
- **The payment step.** The card-number, expiry and CVV formatters, and the widget actions that switch the payment method.
- **Search and results.** The search form and the query it builds. The results page reads that query back with defaults and runs the search. Each result card has a duration label.
- **The bookings list.** Its badge and label rules.

## Layout

There is one module per source file, and each takes the form of its source:

- **State the source changes in place** is a `class` whose methods say in `ensures` exactly what the new state is. Examples are the widget hook and the check-in, booking, payment, search and results pages.
- **Expressions and filters** are functions with named results, plus lemmas.

A few shared modules sit underneath:

- `Wrappers` holds `Option`.
- `Text` holds character classes, ASCII case mapping, decimal numerals and `parseInt`.
- `Api` holds the server's record shapes.
- `Effects` holds the outside world.

### How the outside world is modelled

- **Network calls.** A call is replaced by the outcome it is handed, a `Reply` that is either `Ok` or `Err(Failure(message, detail))`.
- **Decoding and the credential.** `JSON.parse` is a function parameter. The credential is an `Option<string>`; as in the source, an empty string counts as signed out.
- **Effects.** Every toast, navigation, console line and request is appended in order to the trace of one `Env` object.
- **State during an await.** The widget hook, the results page, the detail page and the check-in page each keep a ghost `pending` sequence. It records the state a render sees while each await is outstanding. That is how "loading is on while the request is out" is stated.
- **Prices.** These are exact reals, not IEEE doubles.

### Where the code and the design description differ

The model follows the code:

- **Tied preference.** A tied window/aisle preference gives `Aisle`, because the comparison is a strict `>` at `CheckIn.tsx:142`.
- **The page-visit call.** It is awaited before the widget request, and its failure skips that request (`useAIWidget.ts:38-41`). Nothing discards a stale response from an earlier page.
- **Decoded directives.** They are stored without structural validation (`useAIWidget.ts:46-54`).
- **Failed seat assignment.** `selectedSeat` is not rolled back (`CheckIn.tsx:59`, `71-79`). Nothing in the page reads the `success` flag of the reply.
- **Upgrade panel price.** The panel's price is always derived from historical spend (`CheckIn.tsx:187`). The server's `price_upgrade` appears only in the dialog.
- **Action tokens.** No page handles a results reordering token.
- **The results page.** It has no widget.
- **The add-ons widget.** It is rendered only on the flight-not-found branch (`FlightDetail.tsx:157-169`).

## Model

| member | source | states |
|---|---|---|
| AIWidget.FetchSettled | src/hooks/useAIWidget.ts:36-62 | the visit is tracked first; the widget is requested iff tracking succeeded; an error is recorded iff either call failed, and then the config is cleared; an object reply is stored as is; a string reply is parsed without validation, and text that does not parse gives no widget and no error |
| AIWidget.WidgetHook.constructor | src/hooks/useAIWidget.ts:21-24 | the hook starts for its page with no config, not loading, no error and nothing rendered |
| AIWidget.WidgetHook.FetchAIWidget | src/hooks/useAIWidget.ts:27-63 | no page name or no credential changes nothing; otherwise the outcome is `FetchSettled`'s; loading is on (and the error cleared) during each await and off at the end |
| AIWidget.WidgetHook.DismissWidget | src/hooks/useAIWidget.ts:65-67 | the config is gone and no other field changes |
| AIWidget.CTAEffects | src/hooks/useAIWidget.ts:70-76 | acknowledging a token emits two effects, the second the "Action Received" toast naming it; neither navigates nor calls the server |
| AIWidget.WidgetHook.HandleCTAAction | src/hooks/useAIWidget.ts:69-83 | every token, known or not, is acknowledged, dismisses the widget and is handed back unchanged |
| AIWidget.DismissIsIdempotent | src/hooks/useAIWidget.ts:65-83 | for any token, the state after one dismiss, after a second dismiss and after acting on the token are the same: the old state with the config cleared; the only effects are the token's acknowledgement |
| WidgetRenderer.PriorityTier | src/components/AIWidgetRenderer.tsx:47-58 | `high`, `medium` and `low` each get their own tier (primary, secondary, muted); the neutral style is used exactly for every other priority |
| WidgetRenderer.ShapeLayout | src/components/AIWidgetRenderer.tsx:101-141 | popup iff overlay; banner iff a top or bottom banner, top iff the position is `top`; sidepanel iff a left or right panel, right iff the position is `right` |
| WidgetRenderer.Buttons | src/components/AIWidgetRenderer.tsx:85-94 | one button per entry in list order, carrying its caption and action; only the first is the primary variant |
| WidgetRenderer.Render | src/components/AIWidgetRenderer.tsx:31-97 | nothing is shown iff there is no config; otherwise title, body, icon (default robot), layout (position default `top`), tier, buttons and the dismiss control follow the config |
| WidgetRenderer.Click | src/components/AIWidgetRenderer.tsx:43-45 | pressing button i of a rendered directive hands the page the action of the directive's entry i |
| WidgetRenderer.ClickPassesEntryAction | src/components/AIWidgetRenderer.tsx:43-45 | pressing button i passes entry i's action to the page |
| WidgetRenderer.MissingPositionIsTop | src/components/AIWidgetRenderer.tsx:39-40 | without a position a banner sits on top and a side panel on the left; without an icon the robot is shown |
| WidgetRenderer.PopupIgnoresPosition | src/components/AIWidgetRenderer.tsx:102-109 | a popup is the overlay for every position |
| WidgetRenderer.PriorityOnlyChangesTier | src/components/AIWidgetRenderer.tsx:47-61 | changing the priority changes the tier and nothing else of what is rendered |
| WidgetRenderer.UnknownShapeStillShown | src/components/AIWidgetRenderer.tsx:139-140 | an unknown component type is still shown as the plain card with all its buttons |
| CheckIn.PreferredSeatType | src/pages/CheckIn.tsx:142 | the preference is Window iff there is no history or window count exceeds aisle count, so a tie is Aisle |
| CheckIn.FirstAnalytics | src/pages/CheckIn.tsx:136 | the first analytics record exists iff the list is present and non-empty |
| CheckIn.Unbooked | src/pages/CheckIn.tsx:147 | the unbooked seats are exactly the map's seats that are not booked; one seat is kept iff it is unbooked |
| CheckIn.UnbookedAppend | src/pages/CheckIn.tsx:147 | the filter distributes over concatenation, so with the one-seat case it keeps the unbooked seats in map order |
| CheckIn.FirstFit | src/pages/CheckIn.tsx:147-150 | the index of the first unbooked seat of a kind, with every earlier seat unfit; none iff no seat fits |
| CheckIn.FindInUnbooked | src/pages/CheckIn.tsx:147-150 | filtering out booked seats and then finding the first seat of a type equals finding the first unbooked seat of that type in the whole map |
| CheckIn.FirstUnbooked | src/pages/CheckIn.tsx:147-150 | the unbooked list is empty exactly when no seat is free, and otherwise starts with the first free seat of the map |
| CheckIn.FindOfType | src/pages/CheckIn.tsx:148-149 | a seat found is in the list and of the preferred kind, compared without case; nothing is found iff no seat is of that kind |
| CheckIn.RecommendSeat | src/pages/CheckIn.tsx:147-150 | a recommendation is an unbooked seat of the map; there is none iff every seat is booked; a recommendation of the preferred kind is the first such unbooked seat |
| CheckIn.RecommendedSeatIsFirstFit | src/pages/CheckIn.tsx:147-150 | the recommendation is the first unbooked seat of the preferred kind, else the first unbooked seat, else none (iff every seat is booked); it is never a booked seat |
| CheckIn.StretchSeatsLeft | src/pages/CheckIn.tsx:181 | the stretch-seat count is at most the number of unbooked seats |
| CheckIn.StretchSeatsAppend | src/pages/CheckIn.tsx:181 | the stretch-seat count adds up over any split of the seat map |
| CheckIn.StretchSeatsOfOne | src/pages/CheckIn.tsx:181 | one seat counts 1 exactly when it is unbooked and its type is exactly `window`, else 0 |
| CheckIn.StretchIndices | src/pages/CheckIn.tsx:181 | the ascending positions of every unbooked, exactly-`window` seat, and of no other seat |
| CheckIn.StretchSeatsCount | src/pages/CheckIn.tsx:181 | the stretch-seat count is the number of positions holding an unbooked, exactly-`window` seat |
| CheckIn.StretchCountIsCaseSensitive | src/pages/CheckIn.tsx:148-149 | a lone unbooked `Window` seat is recommended but not counted as a stretch seat (see also line 181 of the same file) |
| CheckIn.JsRound | src/pages/CheckIn.tsx:187 | `Math.round` lands within one half of its argument, ties rounding up |
| CheckIn.DisplayPrice | src/pages/CheckIn.tsx:187 | no (or zero) spend shows 3200; otherwise the price p satisfies 20p-10 ≤ spend < 20p+10 |
| CheckIn.DisplayPriceOfWholeSpend | src/pages/CheckIn.tsx:187 | for a whole spend s the price is floor((s+10)/20) |
| CheckIn.AgentRecommendation | src/pages/CheckIn.tsx:132-217 | the panel's preferred kind, upgrade target (the recommended seat), price and stretch count come from the rules above; "Upgrade Now" is disabled iff there is no seat or a selection is in flight |
| CheckIn.InsertRow | src/pages/CheckIn.tsx:83 | inserting keeps the row list strictly ascending and adds exactly that row |
| CheckIn.RowNumbers | src/pages/CheckIn.tsx:83 | the rows are strictly ascending, contain every seat's row, and only rows that some seat has |
| CheckIn.SeatsInRow | src/pages/CheckIn.tsx:104 | a row holds exactly the map's seats with that row number |
| CheckIn.RowsFor | src/pages/CheckIn.tsx:103-104 | one entry per row number, with that row's seats |
| CheckIn.SeatMapRows | src/pages/CheckIn.tsx:83-104 | every rendered row has a seat, a row holds exactly the map's seats with its number, and every seat's row is rendered |
| CheckIn.SeatMapRowsPartition | src/pages/CheckIn.tsx:83-126 | the rendered rows are ascending, each holds only its own seats, and together they hold every seat as often as the map does |
| CheckIn.SeatsInRowKeepsOrder | src/pages/CheckIn.tsx:104 | a row lists its seats in map order |
| CheckIn.SeatButtonOf | src/pages/CheckIn.tsx:109-122 | a seat button is disabled iff the seat is booked or a selection is in flight; booked look iff booked; selected look iff unbooked and in the booking's selected seats |
| CheckIn.InFlightDisablesEverySeat | src/pages/CheckIn.tsx:111 | while a selection is in flight every seat button is disabled |
| CheckIn.RecommendationPopup | src/pages/CheckIn.tsx:219-294 | the dialog is open iff it is requested and the server recommended a seat; it shows that seat's id, type, row, class and features; the upgrade slot is empty for a missing price, a stray `0` for a price of 0, and the price line otherwise |
| CheckIn.CheckInPage.constructor | src/pages/CheckIn.tsx:15-22 | empty form, nothing loaded, nothing in flight, dialog closed |
| CheckIn.CheckInPage.SetPnr | src/pages/CheckIn.tsx:318 | the PNR field holds the upper-cased input |
| CheckIn.CheckInPage.SetEmail | src/pages/CheckIn.tsx:328 | the email field holds the input |
| CheckIn.CheckInPage.HandleFindBooking | src/pages/CheckIn.tsx:24-51 | without a credential only a destructive toast; otherwise one lookup with loading on while it is out; success replaces the data, toasts the PNR and opens the dialog iff a seat is recommended; failure keeps the data and toasts the server's detail or the fallback |
| CheckIn.CheckInPage.HandleSeatSelect | src/pages/CheckIn.tsx:53-80 | nothing without data or credential; otherwise the seat is marked, selection is in flight during both awaits, the data is replaced wholesale by the refresh only when both calls succeed, and selection ends in every case |
| CheckIn.CheckInPage.UpgradeNow | src/pages/CheckIn.tsx:205-213 | selects the panel's recommended seat, or does nothing without one |
| CheckIn.CheckInPage.CloseRecommendationPopup | src/pages/CheckIn.tsx:277 | the dialog is closed |
| CheckIn.CheckInPage.SelectRecommendedSeat | src/pages/CheckIn.tsx:283-286 | the dialog is closed before the selection's first await, so every state rendered while the requests are out has it closed; with a credential the recommended seat is selected, in flight during the awaits, and the data refreshed only when both calls succeed, while PNR, email and loading keep their values and selection ends |
| CheckIn.CheckInPage.FindDisabled | src/pages/CheckIn.tsx:332 | the Web Check-in button is disabled while a lookup is out, and otherwise iff both PNR and email are empty |
| CheckIn.CheckInPage.CheckAnotherBooking | src/pages/CheckIn.tsx:426-430 | data, PNR and email are cleared |
| FlightDetail.RemoveAll | src/pages/FlightDetail.tsx:79 | the removed id is gone and every other id keeps its membership |
| FlightDetail.RemoveAllAppend | src/pages/FlightDetail.tsx:79 | removal distributes over concatenation, so the remaining ids keep their order |
| FlightDetail.Toggle | src/pages/FlightDetail.tsx:76-82 | the id is selected afterwards iff it was not before; other ids keep their membership; a present id is removed by `RemoveAll`, which keeps the other ids' order and copies; an absent id is appended at the end |
| FlightDetail.ToggleTwiceRestores | src/pages/FlightDetail.tsx:76-82 | ticking an unticked box and unticking it restores the selection |
| FlightDetail.ToggleTwiceFromSelected | src/pages/FlightDetail.tsx:76-82 | from a ticked box the round trip removes all copies and appends the id once |
| FlightDetail.AncillaryTotal | src/pages/FlightDetail.tsx:88-90 | the add-on sum is 0 when no add-on is selected, and never negative when no price is |
| FlightDetail.AncillaryTotalBySelectedSet | src/pages/FlightDetail.tsx:88-90 | the add-on sum depends only on which ids are selected, not on order or repetition |
| FlightDetail.ToggleChangesAncillaryTotal | src/pages/FlightDetail.tsx:76-90 | ticking an id adds the price of the listed add-ons with that id; unticking subtracts it |
| FlightDetail.FindOffer | src/pages/FlightDetail.tsx:95 | the first offer with that id; none iff no offer has it |
| FlightDetail.AppliedOffer | src/pages/FlightDetail.tsx:94-96 | an offer applies iff a non-zero id is selected and some offer has it |
| FlightDetail.CalculateTotal | src/pages/FlightDetail.tsx:85-106 | 0 without a flight; otherwise the subtotal less the percentage share, or less the fixed value (unclamped), or the subtotal for any other kind or no applied offer |
| FlightDetail.OfferWithIdZeroNeverApplies | src/pages/FlightDetail.tsx:94 | a selected offer id of 0 is falsy and never discounts |
| FlightDetail.FixedOfferCanGoNegative | src/pages/FlightDetail.tsx:99-100 | a fixed offer worth more than the subtotal makes the total negative |
| FlightDetail.DiscountLine | src/pages/FlightDetail.tsx:391-405 | the discount line appears iff a non-zero offer id is selected; an id no offer has shows a discount of 0 |
| FlightDetail.DiscountLineMatchesTotal | src/pages/FlightDetail.tsx:391-405 | for percentage and fixed offers the discount shown is exactly subtotal minus total |
| FlightDetail.OtherDiscountShownButNotApplied | src/pages/FlightDetail.tsx:97-105 | an offer of another kind is shown at its value yet leaves the total at the subtotal (see also line 404 of the same file) |
| FlightDetail.VisibleOffers | src/pages/FlightDetail.tsx:301-302 | the listed offers are exactly those accepting the current method |
| FlightDetail.VisibleOffersAppend | src/pages/FlightDetail.tsx:301-302 | the offer filter keeps the list order |
| FlightDetail.OfferClick | src/pages/FlightDetail.tsx:306 | clicking the selected offer deselects it; clicking any other selects it |
| FlightDetail.OfferClickTwice | src/pages/FlightDetail.tsx:306 | two clicks on a card restore the selection only if that card or none was selected |
| FlightDetail.BundleIds | src/pages/FlightDetail.tsx:37 | the bundle is the ids of the first min(3, n) ancillaries, in list order |
| FlightDetail.BundleTicksLeadingAncillaries | src/pages/FlightDetail.tsx:37-38 | each of the first three ancillaries is ticked by the bundle |
| FlightDetail.PassengersFrom | src/pages/FlightDetail.tsx:352 | the count is never 0: the parsed number, or 1 for `NaN` or 0 |
| FlightDetail.PassengersFromNumeral | src/pages/FlightDetail.tsx:352 | a typed positive count is taken as is |
| FlightDetail.PassengersFromNegative | src/pages/FlightDetail.tsx:352 | a typed negative count is taken as is |
| FlightDetail.ViewOf | src/pages/FlightDetail.tsx:146-188 | spinner iff loading; the add-ons widget is rendered iff loaded, without a flight and not paying; payment iff loaded with a flight and paying |
| FlightDetail.FlightDetailPage.constructor | src/pages/FlightDetail.tsx:22-32 | a fresh `addons` widget hook, nothing loaded or selected, one passenger, credit card, loading, nothing recorded |
| FlightDetail.FlightDetailPage.LoadFlightDetails | src/pages/FlightDetail.tsx:48-75 | without a credential or id nothing happens and the spinner stays; otherwise the three loads go out together while the recorded state is the old one with loading on, so the spinner is shown; either all results are stored or a failure toast is shown; loading ends |
| FlightDetail.FlightDetailPage.ToggleAncillary | src/pages/FlightDetail.tsx:76-82 | only the selection changes, by `Toggle`, and ticking raises the subtotal by that add-on's price (see also line 279 of the same file) |
| FlightDetail.FlightDetailPage.OnWidgetAction | src/pages/FlightDetail.tsx:34-46 | every token is acknowledged and dismisses; `apply_bundle` selects the bundle and toasts; `skip_addons` opens payment; nothing else changes |
| FlightDetail.FlightDetailPage.ClickOffer | src/pages/FlightDetail.tsx:306 | the selection becomes `OfferClick` of the old one |
| FlightDetail.FlightDetailPage.SetPaymentMethod | src/pages/FlightDetail.tsx:359-361 | the method changes and the total does not, even if the selected offer is now hidden |
| FlightDetail.FlightDetailPage.SetPassengers | src/pages/FlightDetail.tsx:352 | the count becomes `PassengersFrom` of the input |
| FlightDetail.FlightDetailPage.ProceedToPayment | src/pages/FlightDetail.tsx:108-110 | the payment step opens |
| FlightDetail.FlightDetailPage.BackFromPayment | src/pages/FlightDetail.tsx:184 | the payment step closes |
| PaymentGateway.Group | src/components/PaymentGatewayWithAI.tsx:46 | runs of four joined by spaces; length n + (n-1)/4 for non-empty input |
| PaymentGateway.GroupSpaces | src/components/PaymentGatewayWithAI.tsx:46 | over whitespace-free text the grouping has a space exactly at every fifth position |
| PaymentGateway.GroupStrip | src/components/PaymentGatewayWithAI.tsx:45-46 | removing the separators gives the grouped text back |
| PaymentGateway.GroupTake | src/components/PaymentGatewayWithAI.tsx:46-47 | the first 5k-1 characters of the grouping are the grouping of the first 4k characters |
| PaymentGateway.FormatCardNumber | src/components/PaymentGatewayWithAI.tsx:44-48 | the card field never exceeds 19 characters |
| PaymentGateway.CardNumberIsGroupedPrefix | src/components/PaymentGatewayWithAI.tsx:44-48 | the formatted number is the grouping of the first 16 non-whitespace characters |
| PaymentGateway.CardNumberSpaces | src/components/PaymentGatewayWithAI.tsx:44-48 | the formatted number has a space at index 4, 9 or 14 when it is that long, and no space anywhere else |
| PaymentGateway.CardNumberShape | src/components/PaymentGatewayWithAI.tsx:44-48 | spaces sit at positions 4, 9 and 14 and nowhere else; without them the text is a prefix of the input minus whitespace, non-digits kept |
| PaymentGateway.CardNumberIdempotent | src/components/PaymentGatewayWithAI.tsx:44-48 | reformatting the field's own text changes nothing (see also line 130 of the same file) |
| PaymentGateway.FormatExpiryDate | src/components/PaymentGatewayWithAI.tsx:50-56 | at most 5 characters, all digits except a `/` only at index 2; that slash is present from two digits on; under two digits the result is the digits typed |
| PaymentGateway.DigitsAroundSlash | src/components/PaymentGatewayWithAI.tsx:50-56 | removing the non-digits from `{mm}/{yy}` leaves the two digit groups joined |
| PaymentGateway.ExpiryKeepsLeadingDigits | src/components/PaymentGatewayWithAI.tsx:50-56 | the digits of the formatted date are the first four digits typed |
| PaymentGateway.ExpiryIdempotent | src/components/PaymentGatewayWithAI.tsx:50-56 | reformatting the field's own text changes nothing (see also line 152 of the same file) |
| PaymentGateway.SanitizeCvv | src/components/PaymentGatewayWithAI.tsx:164 | at most four characters, all digits, a prefix of the digits typed, and four whenever four were typed |
| PaymentGateway.CvvIdempotent | src/components/PaymentGatewayWithAI.tsx:164 | re-sanitising changes nothing |
| PaymentGateway.MethodAfterAction | src/components/PaymentGatewayWithAI.tsx:37-41 | UPI and wallet offers choose the wallet, a card offer the credit card, any other token keeps the method |
| PaymentGateway.ExactlyOneForm | src/components/PaymentGatewayWithAI.tsx:122 | for every method exactly one of the card form and the wallet field is shown (see also line 173 of the same file) |
| PaymentGateway.PaymentStep.constructor | src/components/PaymentGatewayWithAI.tsx:28-33 | a fresh `payment` widget hook and empty fields |
| PaymentGateway.PaymentStep.OnWidgetAction | src/components/PaymentGatewayWithAI.tsx:35-42 | every token is acknowledged and dismisses; the parent's method becomes `MethodAfterAction`; the total is unchanged |
| PaymentGateway.PaymentStep.ChooseMethod | src/components/PaymentGatewayWithAI.tsx:91-93 | the parent's method is the one chosen |
| PaymentGateway.PaymentStep.EnterCardNumber | src/components/PaymentGatewayWithAI.tsx:130 | the field holds the formatted number |
| PaymentGateway.PaymentStep.EnterCardName | src/components/PaymentGatewayWithAI.tsx:141 | the field holds the input |
| PaymentGateway.PaymentStep.EnterExpiryDate | src/components/PaymentGatewayWithAI.tsx:152 | the field holds the formatted date |
| PaymentGateway.PaymentStep.EnterCvv | src/components/PaymentGatewayWithAI.tsx:164 | the field holds the sanitised CVV |
| PaymentGateway.PaymentStep.EnterWalletId | src/components/PaymentGatewayWithAI.tsx:180 | the field holds the input |
| PaymentGateway.PaymentStep.Back | src/components/PaymentGatewayWithAI.tsx:69-73 | the payment step closes unless a booking is being made |
| Search.SearchQuery | src/pages/Search.tsx:50-58 | keys origin, destination, departure_date, passengers, cabin_class, trip_type in that order, then return_date iff one was typed; keys are distinct and carry the form's values |
| Search.StaleReturnDateIsSent | src/pages/Search.tsx:57 | a return date typed before switching back to one way is sent although its field is hidden (see also lines 94, 153 of the same file) |
| Search.SearchPage.constructor | src/pages/Search.tsx:17-26 | a fresh `search` widget hook; passengers "1", economy, one way, all else empty |
| Search.SearchPage.SetOrigin | src/pages/Search.tsx:118 | only the origin changes |
| Search.SearchPage.SetDestination | src/pages/Search.tsx:131 | only the destination changes |
| Search.SearchPage.SetDepartureDate | src/pages/Search.tsx:149 | only the departure date changes |
| Search.SearchPage.SetReturnDate | src/pages/Search.tsx:164 | only the return date changes |
| Search.SearchPage.SetPassengers | src/pages/Search.tsx:179 | only the passengers change |
| Search.SearchPage.SetCabinClass | src/pages/Search.tsx:197 | only the cabin class changes |
| Search.SearchPage.SetTripType | src/pages/Search.tsx:94 | only the trip type changes; a typed return date is kept (see also line 101 of the same file) |
| Search.SearchPage.HandleSearch | src/pages/Search.tsx:37-61 | a missing origin, destination or date gives only the destructive toast; otherwise exactly one navigation to `/flights` with `SearchQuery` |
| Search.SearchPage.OnWidgetAction | src/pages/Search.tsx:28-35 | every token is acknowledged and dismisses; `manage_existing` also navigates to `/bookings`; nothing else happens |
| Flights.Get | src/pages/Flights.tsx:31-37 | `get` finds the first entry with the key, and none iff no entry has it |
| Flights.GetUnique | src/pages/Flights.tsx:31-37 | with distinct keys `get` returns the one value stored |
| Flights.GetAbsent | src/pages/Flights.tsx:31-37 | a key that no entry carries is not found |
| Flights.ValueOr | src/pages/Flights.tsx:31-37 | a missing or empty value gives the fallback |
| Flights.ReadSearchRequest | src/pages/Flights.tsx:30-38 | each of origin, destination and departure date is the query's non-empty value or `""`; cabin class is the value or `economy`, trip type the value or `one_way`; a return date is sent iff the query has a non-empty one; passengers is `parseInt` of the value, and 1 when the value is missing or empty |
| Flights.EmptyQueryDefaults | src/pages/Flights.tsx:30-38 | an empty query reads as empty places and date, no return, one passenger, economy, one way |
| Flights.LookupQuery | src/pages/Flights.tsx:31-37 | each key of the form's query is found with its value |
| Flights.SearchQueryLookups | src/pages/Flights.tsx:31-37 | all seven keys of the form's query are found with the form's values, return_date only when typed |
| Flights.ReturnDateLookup | src/pages/Flights.tsx:34 | return_date is found exactly when the form had one |
| Flights.SearchRoundTrip | src/pages/Flights.tsx:30-38 | the request read from the form's query reproduces every string field, the presence of the return date, and passengers as `parseInt` of the chosen text |
| Flights.SearchRoundTripPassengers | src/pages/Flights.tsx:35 | a passenger count chosen as a numeral arrives as that number |
| Flights.FlightsPage.constructor | src/pages/Flights.tsx:13-14 | no flights and loading, nothing recorded |
| Flights.FlightsPage.SearchFlightsFromQuery | src/pages/Flights.tsx:17-58 | without a credential only the auth toast and the spinner stays; otherwise the request read from the query is sent while the recorded state is the old one with loading on, its results shown, with a toast for no results or for a failure; loading ends |
| Flights.FlightsPage.ShowResults | src/pages/Flights.tsx:41-54 | the results replace the list on success and the list is kept on failure; exactly one toast unless results came back, naming no results or the failure's detail |
| Flights.SearchFollowUp | src/pages/Flights.tsx:43-54 | at most one toast after a search, and none exactly when results came back |
| FlightCard.FormatDuration | src/components/FlightCard.tsx:21-25 | a non-negative duration reads as its whole hours, `h `, its remaining minutes and `m`; every label ends in `m` |
| FlightCard.DurationParts | src/components/FlightCard.tsx:21-23 | for minutes ≥ 0, hours·60 + mins = minutes with 0 ≤ mins < 60; for negative minutes the remainder is non-positive |
| FlightCard.NegativeDurationMisadds | src/components/FlightCard.tsx:22-23 | for a negative duration off the hour the parts no longer add up |
| FlightCard.LabelInjective | src/components/FlightCard.tsx:24 | two `{h}h {m}m` labels built from numerals agree only when their hours and their minutes agree |
| FlightCard.FormatDurationInjective | src/components/FlightCard.tsx:21-25 | distinct non-negative durations get distinct labels |
| FlightCard.SixtyFiveMinutes | src/components/FlightCard.tsx:24 | 65 minutes is labelled `1h 5m`, with no padding |
| FlightCard.SelectFlightPath | src/components/FlightCard.tsx:82 | Select Flight opens a `/flight/` path |
| FlightCard.SelectFlightRouteId | src/components/FlightCard.tsx:82 | with src/pages/FlightDetail.tsx:56, `parseInt` of the path's last segment is the card's flight id, for every id including negative ones |
| Bookings.StatusColor | src/pages/Bookings.tsx:45-56 | default iff the lower-cased status is `confirmed`, secondary iff `pending`, destructive iff `cancelled`, outline otherwise |
| Bookings.StatusColorIgnoresCase | src/pages/Bookings.tsx:46 | an upper-cased status gets the same badge |
| Bookings.FirstUnderscore | src/pages/Bookings.tsx:126 | the position of the first underscore, or the length |
| Bookings.PaymentMethodLabel | src/pages/Bookings.tsx:126 | same length; only the first underscore becomes a space |
| Bookings.SecondUnderscoreKept | src/pages/Bookings.tsx:126 | a second underscore is left in the label |
| Bookings.PaymentStatusVariant | src/pages/Bookings.tsx:133 | default iff the payment status is exactly `paid`, secondary otherwise |
| Bookings.PaymentStatusIsCaseSensitive | src/pages/Bookings.tsx:46 | `PAID` is not treated as paid although `CONFIRMED` is treated as confirmed (see also line 133 of the same file) |
| Bookings.AddonsLine | src/pages/Bookings.tsx:140-147 | the add-ons line appears iff the booking has add-ons, and shows their count and the add-ons total |
| Bookings.ViewOf | src/pages/Bookings.tsx:70-84 | spinner iff loading; the empty message iff loaded with no bookings; otherwise one card per booking in order |
| Text.StripWhitespace | src/components/PaymentGatewayWithAI.tsx:45 | no whitespace remains, every other character value survives, and one character is kept iff it is not whitespace |
| Text.StripWhitespaceAppend | src/components/PaymentGatewayWithAI.tsx:45 | the filter distributes over concatenation, so with the one-character case it keeps every other character in order |
| Text.DigitsOnly | src/components/PaymentGatewayWithAI.tsx:51 | only ASCII digits remain, every digit value survives, and one character is kept iff it is a digit (see also line 164 of the same file) |
| Text.DigitsOnlyAppend | src/components/PaymentGatewayWithAI.tsx:51 | the filter distributes over concatenation, so with the one-character case it keeps every digit in order |
| Text.Upper | src/pages/CheckIn.tsx:318 | same length, each character upper-cased |
| Text.Lower | src/pages/CheckIn.tsx:149 | same length, each character lower-cased |
| Text.ParseInt | src/pages/Flights.tsx:35 | `NaN` (none) exactly when no digit follows the leading whitespace and an optional sign |
| Text.ParseIntOfNatToString | src/pages/Flights.tsx:35 | `parseInt` of a number's decimal numeral is that number |
| Text.ParseIntSkipsWhitespace | src/pages/Flights.tsx:35 | leading white space does not change the result |
| Text.ParseIntStopsAtNonDigit | src/pages/Flights.tsx:35 | a numeral followed by nothing or by a non-digit reads as the numeral's value |
| Text.ParseIntNegative | src/pages/Flights.tsx:35 | a minus sign before a numeral negates its value |
| Effects.DetailOr | src/pages/CheckIn.tsx:45 | the server's detail when present and non-empty, otherwise the fallback |

## Left out

- I/O: the network, `localStorage`, the router and the toast system are outside the model. Calls become `Reply` parameters; navigation and toasts become `Env` trace entries. `api.ts`, `auth.ts`, `Navbar.tsx`, `App.tsx` and `Signup.tsx` are not part of this model.
- Concurrency: each handler runs to completion on the outcomes it is given. Interleavings of two handlers are not modelled. Re-running the widget fetch when the page changes is not modelled either.
- JSON decoding is an abstract function parameter. A string field of a decoded directive is taken to be a string; non-string values and `null` in optional fields are not modelled.
- A decoded widget value that is not an object, or an object without a required field such as `cta_list`, is not modelled: the hook stores whatever `JSON.parse` returns, and the renderer's `cta_list.map` would then throw. The model only has well-formed directives, JSON `null` and a syntax error.
- `agent_response` is taken to be present in check-in data. The recommended seat is read only along the `response.recommended_seat` path that the page checks.
- Text handling:
  - Upper- and lower-casing cover ASCII letters only.
  - Characters are Unicode scalar values, so a character outside the Basic Multilingual Plane counts as one, where `/.{1,4}/` and `substring` count two.
  - `parseInt` is modelled for decimal input only; a `0x` prefix is not.
- Display detail is not modelled:
  - `toFixed`, `toLocaleString` and date formatting;
  - URL encoding of the query;
  - CSS classes;
  - the passenger-info card;
  - a discount line rendering a bare `0` for offer id 0;
  - `scrollIntoView` for "Change seat".
- Whole numbers: ids, durations, seat counts and seat rows are typed `number` in `api.ts` but taken here as integers. A fractional value is not modelled; a duration of 65.5 minutes, for instance, would read `1h 5.5m` (`FlightCard.tsx:21-24`), a label `FlightCard.FormatDuration` cannot produce. Prices are exact reals, so floating-point rounding is not modelled.
- FlightDetail `handleBooking` and Bookings `loadBookings` (network round trips with no logic beyond what is modelled) are not modelled.
- FlightDetail.FlightDetailPage.LoadFlightDetails: the three loads are given one combined outcome, so which of several failures `Promise.all` reports is not modelled.
- CheckIn.CheckInPage.UpgradeNow: states only the selected seat and the no-seat case; the rest is `HandleSeatSelect`'s contract.
- CheckIn.CheckInPage.SelectRecommendedSeat: the whole page state and the recorded states are stated; the requests and toasts are `HandleSeatSelect`'s contract.
- FlightDetail.PassengersFrom: negative counts typed into the field are accepted as the source accepts them (the `min` attribute does not stop typing).
