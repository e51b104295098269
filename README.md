# BHT dispatch front end — a Dafny model of its planning logic

This project models the planning logic of a concrete-delivery dispatch front end: a React app
that plans deliveries from the factory in Tlemcen. The modelled logic covers:

- building the Google Maps directions link for a route (`getGoogleMapsDirectionsUrl`);
- the link and timing the confirmation modal shows (`DeliveryRecapModal`);
- on the home page, the batching adjustment of the recap and the delivery payload sent on
  confirmation (cost, volume, schedule, load minutes, departure, estimated return, trucks and
  the persisted link), plus the route request;
- on the truck page, which drivers the add and edit forms offer, the required-field checks,
  the server-message mapping and the `driver_id` conversion;
- on the agenda page, the calendar events, their colours and the delivery actions;
- on the scheduling page, form changes, validation, the request body and the available-truck
  filter.

JavaScript semantics the pages rely on are written out in `JsValues` (`js_values.dfy`):

- values with truthiness, `||`, `===` and `+`;
- `String(v)`, `join`, `Number(v)`, `parseInt`, `Math.ceil` and `Math.round`;
- `new Date(x)`, including TimeClip: a time beyond 8.64e15 ms is an invalid date, and
  `toISOString` throws on it.

`UriComponent` (`uri_component.dfy`) holds `encodeURIComponent` with `decodeURIComponent` as its
partner, following sections 19.2.6.2 and 19.2.6.5 of ECMA-262.

Some engine functions are parameters of type `Env`, because their exact output is not what the
pages decide:

- rendering a non-integral number as text;
- `toFixed(1)`;
- `parseFloat`;
- `Number` of a text with a decimal point or exponent;
- parsing a date text;
- `JSON.parse`.

Instants are integer milliseconds. A thrown exception is `Completion.Throw`. Server replies and
the clock are parameters of the page handlers. The home, truck and scheduling pages' state is
a class whose handlers update its fields; the agenda's action popup is a datatype that pure
functions update.

The model keeps the source's behaviour where it is surprising:

- The persisted return time multiplies the route's `duration`, which is in seconds, as if it
  were minutes (`HomePage.ReturnUsesSecondsAsMinutes`).
- Without a selected route, the formatted text `"… min"` is multiplied, so the return time falls
  back to the schedule (`HomePage.ReturnFallsBackOnFormattedDuration`).
- The modal swaps `[lng, lat]` pairs but the persisted link does not
  (`HomePage.LinksDifferOnSwap`).
- The edit form hides the truck's own driver once the driver select has been touched: the form
  then holds text, and text is never `===` a number (`TruckManagementPage.EditHidesOwnDriverAfterChange`).

## Model

| member | source | states |
|---|---|---|
| RouteQRCode.GoogleMapsDirectionsUrl | src/components/RouteQRCode.jsx:9-18 | A falsy input, or an array of fewer than 2 entries, gives `''`. For an array of at least 2 entries it returns normally exactly when every entry is an array; otherwise `join` throws. A text gives `''` exactly when its UTF-16 length is below 2 and throws otherwise. A non-empty link comes from an array of ≥ 2 entries, starts with the prefix, the origin and `&destination=`, and ends with `&travelmode=driving`. An array of ≥ 2 entries that are all arrays gives exactly `DirectionsUrl` of them. |
| RouteQRCode.AstralCharacterThrows | src/components/RouteQRCode.jsx:10-12 | A one-character text outside the Basic Multilingual Plane passes the length test (two code units) and throws. |
| RouteQRCode.DirectionsUrl | src/components/RouteQRCode.jsx:11-17 | The link starts with `…/dir/?api=1&origin=`, then the first pair joined with `,`, then `&destination=`; it ends with `&travelmode=driving`. |
| RouteQRCode.PairTexts | src/components/RouteQRCode.jsx:13 | Each pair renders as its `join(',')` text, one text per pair. |
| RouteQRCode.DirectionsUrlShape | src/components/RouteQRCode.jsx:14-16 | The link is the base, `?`, then the `api`, `origin`, `destination`, optional `waypoints` and `travelmode` parameters joined by `&`. |
| RouteQRCode.DirectionsUrlParams | src/components/RouteQRCode.jsx:11-16 | If the end pairs contain no `&`, parsing the query back gives exactly the expected parameters. The origin is the first pair and the destination the last, both unencoded. |
| RouteQRCode.WaypointsRoundTrip | src/components/RouteQRCode.jsx:13-15 | Decoding the `waypoints` value and splitting it on `\|` gives back the interior pairs' texts in order. |
| RouteQRCode.WaypointsPresence | src/components/RouteQRCode.jsx:13-15 | `&waypoints=` is appended exactly when there are at least 4 entries, or 3 entries whose middle pair renders non-empty. |
| RouteQRCode.TwoEntryUrl | src/components/RouteQRCode.jsx:14-17 | With exactly 2 entries the link is prefix + origin + `&destination=` + destination + `&travelmode=driving`. |
| RouteQRCode.SplitJoin | src/components/RouteQRCode.jsx:13 | Splitting a `\|`-joined list of separator-free texts gives back the list. |
| RouteQRCode.QueryParamsOfPieces | src/components/RouteQRCode.jsx:14-16 | Parsing `name=value` pieces joined by `&` gives back the parameters. |
| UriComponent.EncodeURIComponent | src/components/RouteQRCode.jsx:15 | The encoding holds only unreserved characters and `%`, and leaves an all-unreserved text unchanged. |
| UriComponent.DecodeEncode | src/components/RouteQRCode.jsx:15 | `decodeURIComponent(encodeURIComponent(s)) === s` for every text. |
| UriComponent.DecodeEncodeChar | src/components/RouteQRCode.jsx:15 | One encoded character decodes back to itself, whatever follows it. |
| UriComponent.Utf8Bits | src/components/RouteQRCode.jsx:15 | The UTF-8 bytes of a non-ASCII character announce their length and carry exactly its code point, never in overlong form. |
| UriComponent.ReadContinuationsOfEscapes | src/components/RouteQRCode.jsx:15 | Escaped continuation bytes read back as the same bytes. |
| DeliveryRecapModal.FlatConcat | src/components/DeliveryRecapModal.jsx:24-27 | `flat()` distributes over concatenation, so order is preserved. |
| DeliveryRecapModal.FlatOfLines | src/components/DeliveryRecapModal.jsx:24-27 | Flattening two lines gives the first line's points followed by the second's. |
| DeliveryRecapModal.FlatOfScalars | src/components/DeliveryRecapModal.jsx:24-27 | Flattening a list without nested arrays leaves it unchanged. |
| DeliveryRecapModal.NormalizePairSpec | src/components/DeliveryRecapModal.jsx:31-39 | An entry survives exactly when it is an array of at least 2 components. A survivor becomes `[b, a]` exactly when \|b\| ≤ 90 and 90 < \|a\| ≤ 180; otherwise it stays `[a, b]`. |
| DeliveryRecapModal.LngLatKept | src/components/DeliveryRecapModal.jsx:36-39 | A pair with both components within ±90 is kept as it is. |
| DeliveryRecapModal.LngLatSwapped | src/components/DeliveryRecapModal.jsx:37 | A `[lng, lat]` pair with 90 < \|lng\| ≤ 180 and \|lat\| ≤ 90 is swapped. |
| DeliveryRecapModal.NormalizedPairs | src/components/DeliveryRecapModal.jsx:31-40 | Every survivor is an array, which the link builder needs. |
| DeliveryRecapModal.NormalizedPairsSpec | src/components/DeliveryRecapModal.jsx:31-40 | The normalised list is the pair-shaped entries, in their original order, each normalised. |
| DeliveryRecapModal.RouteUrlAbsent | src/components/DeliveryRecapModal.jsx:10-11 | Without a truthy `route_trajectory` the link is empty. |
| DeliveryRecapModal.RouteUrlHttp | src/components/DeliveryRecapModal.jsx:44-52 | A text trajectory starting with `http` is used verbatim. |
| DeliveryRecapModal.RouteUrlOfCoordinates | src/components/DeliveryRecapModal.jsx:29-43 | For a parsed candidate of at least 2 entries, the link is built from the normalised pairs when at least 2 survive, and is empty otherwise. |
| DeliveryRecapModal.RouteUrlNeedsTwoPairs | src/components/DeliveryRecapModal.jsx:29-45 | A link that is not the verbatim fallback comes from at least 2 normalised pairs and is their directions link. |
| DeliveryRecapModal.RouteUrlUnwrapsGeoJson | src/components/DeliveryRecapModal.jsx:19-22 | An object with a `type` and an array `coordinates` is replaced by its `coordinates` before any other step. |
| DeliveryRecapModal.LoadMinutesDerived | src/components/DeliveryRecapModal.jsx:80-82 | Without explicit load minutes, the load is `ceil(rate × volume)`, at least the product and less than one above it. |
| DeliveryRecapModal.DerivedLoadOfFinite | src/components/DeliveryRecapModal.jsx:82 | For a numeric rate and volume, the derived load is `Math.ceil(rate × volume)`. |
| DeliveryRecapModal.DefaultRate | src/components/DeliveryRecapModal.jsx:80 | Without `minutes_per_m3` or `minutesPerM3` the rate is 5. |
| DeliveryRecapModal.LoadMinutesExplicit | src/components/DeliveryRecapModal.jsx:82 | A truthy `load_minutes` is shown as given. |
| DeliveryRecapModal.LoadMinutesCamelCase | src/components/DeliveryRecapModal.jsx:82 | Without a truthy `load_minutes`, a truthy `loadMinutes` is shown as given. |
| DeliveryRecapModal.TimingFromSchedule | src/components/DeliveryRecapModal.jsx:83-86 | Without explicit times, departure is the schedule minus load × 60000 ms and the return is the schedule plus (load + route minutes) × 60000 ms. |
| DeliveryRecapModal.TimingWithoutSchedule | src/components/DeliveryRecapModal.jsx:83-86 | With no schedule, date or time, both departure and return are absent. |
| DeliveryRecapModal.FormattedDurationIgnored | src/components/DeliveryRecapModal.jsx:84 | A formatted `adjustedDuration` text (`"… min"`) counts as 0 route minutes. |
| DeliveryRecapModal.TimingOrdered | src/components/DeliveryRecapModal.jsx:85-86 | When neither `departure_time` nor `estimated_return_time` is truthy, the schedule is a valid date, the load and route minutes are non-negative numbers, and both derived dates are valid (inside the TimeClip range): departure ≤ schedule ≤ return. |
| HomePage.FindRoute | src/pages/HomePage.jsx:82 | The found route is in the list and has the id. Nothing is found exactly when no route has the id. The first route wins. |
| HomePage.SelectedRoute | src/pages/HomePage.jsx:116-117 | A route is found exactly when the selected id is truthy and some listed route carries it; a found route is in the list and carries that id. |
| HomePage.Multiplier | src/pages/HomePage.jsx:85 | The batching multiplier is the feasibility's `tripsPerTruck` when that is truthy and 1 otherwise, so it is never 0. |
| HomePage.PriorTrips | src/pages/HomePage.jsx:86 | The route's own trips per truck is its batching's `tripsPerTruck` when that is truthy; no batching, or an absent or 0 value, gives 1. It is never 0. |
| HomePage.EnrichRecapUnchanged | src/pages/HomePage.jsx:80-99 | An infeasible reply, or no selected route, leaves the recap equal to the submitted form. |
| HomePage.EnrichRecapFields | src/pages/HomePage.jsx:88-96 | An enriched recap keeps every other form field. Its batching carries the multiplier as `tripsPerTruck` and the route's other batching fields. Its price is empty exactly when the adjusted cost is 0 or NaN. |
| HomePage.AdjustedWithoutPriorBatching | src/pages/HomePage.jsx:86-87 | Without a prior batching, the cost is round(cost × multiplier) and the duration is duration × multiplier. |
| HomePage.AdjustedCostRescales | src/pages/HomePage.jsx:86 | The cost is round(cost / prior × multiplier), within half a unit of the exact value. |
| HomePage.RouteLink | src/pages/HomePage.jsx:131-139 | A falsy trajectory gives `null`. Otherwise the link builder runs on the unwrapped and flattened candidate: it throws exactly when the builder throws, and a non-null link is the builder's non-empty result. Conversely, a builder result is persisted as is when non-empty and as `null` when empty. |
| HomePage.KeepDigitsAndDots | src/pages/HomePage.jsx:141-142 | Only digits and dots are in the result. |
| HomePage.KeepDigitsAndDotsOfChar | src/pages/HomePage.jsx:141-142 | A single character is kept exactly when it is a digit or a dot. |
| HomePage.KeepDigitsAndDotsConcat | src/pages/HomePage.jsx:141-142 | The replacement distributes over concatenation, so every digit and dot is kept in order. |
| HomePage.KeepDigitsAndDotsIsFilter | src/pages/HomePage.jsx:141-142 | The result equals the filter of the text by "digit or dot". |
| HomePage.KeepDigitsAndDotsIdempotent | src/pages/HomePage.jsx:141-142 | Applying the replacement again changes nothing. |
| HomePage.PriceRoundTrip | src/pages/HomePage.jsx:141-142 | The `"n DA"` price the recap stores for a positive whole cost reads back as n on confirmation. |
| HomePage.TruckIds | src/pages/HomePage.jsx:159 | An array is kept, a truthy scalar becomes a singleton, and a falsy value gives `[]`. |
| HomePage.LoadZeroForZeroVolume | src/pages/HomePage.jsx:143-164 | A zero volume gives 0 load minutes. |
| HomePage.LoadMinutesOfRate | src/pages/HomePage.jsx:164 | The load is rate × volume rounded up. |
| HomePage.LoadMinutesIsCeil | src/pages/HomePage.jsx:164 | With a numeric rate, the load is `Math.ceil(rate × volume)`. |
| HomePage.LoadMinutesMonotone | src/pages/HomePage.jsx:164 | At a non-negative rate, a larger volume never needs fewer load minutes. |
| HomePage.LoadForMonotone | src/pages/HomePage.jsx:164 | For numbers, at a fixed non-negative rate the ceiling of rate × volume grows with the volume. |
| HomePage.LoadForIsCeil | src/pages/HomePage.jsx:164 | With a numeric rate, `(rate * volume) || 0` rounded up is `Math.ceil(rate × volume)`: a zero product stays zero. |
| HomePage.ScheduleDefaultsToNow | src/pages/HomePage.jsx:145 | Unless both a date and a time are given, the schedule is now. |
| HomePage.DepartureExact | src/pages/HomePage.jsx:167-174 | Departure is the schedule minus load × 60000 ms whenever that is a valid date. |
| HomePage.ReturnUsesSecondsAsMinutes | src/pages/HomePage.jsx:175-183 | With a selected route, the return is the schedule plus load × 60000 ms plus the route's `duration` × 60000 ms. |
| HomePage.ReturnFallsBackOnFormattedDuration | src/pages/HomePage.jsx:175-183 | Without a route, the formatted `adjustedDuration` text makes the sum NaN, so the return falls back to the schedule. |
| HomePage.DurationTextHasM | src/pages/HomePage.jsx:92 | The stored `adjustedDuration` text ends in `min`. |
| HomePage.TimelineOrdered | src/pages/HomePage.jsx:164-183 | For a non-negative rate, volume and route duration, departure ≤ schedule ≤ return. |
| HomePage.LinksAgreeWithoutSwap | src/pages/HomePage.jsx:131-139 | For numeric pairs that need no swap, the modal's link and the persisted link are the same. |
| HomePage.LinksDifferOnSwap | src/pages/HomePage.jsx:131-139 | For `[lng, lat]` pairs beyond ±90, the modal links the swapped pairs and the persisted link the original ones. |
| HomePage.LinksOnNonArrayEntry | src/pages/HomePage.jsx:131-139 | An entry that is not an array makes the persisted link's builder throw, while the modal's link drops it and equals the link of the other entries. |
| HomePage.NormalizedPairsDropsLast | src/components/DeliveryRecapModal.jsx:30-39 | A last entry that is not an array is dropped by the normalisation. |
| HomePage.LoadMinutesAgree | src/pages/HomePage.jsx:164 | For a numeric volume without explicit load or `minutesPerM3`, the modal and the payload agree on the load. |
| HomePage.RoutesRequestFor | src/pages/HomePage.jsx:260-268 | The factory and customer are sent as `[lng, lat]`. `tripsPerTruck` is the feasibility's when truthy and 1 otherwise, and is never 0. |
| HomePage.HomePageState.HandleDeliveryFormSubmit | src/pages/HomePage.jsx:63-107 | Opens the recap. A reply stores the feasibility, its reason and the enriched recap. A failed check stores `false` and the fixed message. Loading ends either way. Only the modal, feasibility, loading and recap fields are written. |
| HomePage.HomePageState.GenerateRoutes | src/pages/HomePage.jsx:254-284 | Without a position nothing changes. Otherwise it sends the request, clears the selection, stores `routes \|\| []` or the error message, and ends loading. |
| HomePage.HomePageState.HandleConfirmDelivery | src/pages/HomePage.jsx:110-221 | Without a recap nothing changes. A thrown payload computation leaves loading set. Otherwise it sends the payload, closes the recap on success or stores the error, and ends loading. Only the loading flag, the feasibility error and the recap modal are written. |
| TruckManagementPage.AddFormDriversSpec | src/pages/TruckManagementPage.jsx:352-358 | The add form offers exactly the drivers no truck with a truthy `driver_id` carries, in driver-list order. |
| TruckManagementPage.EditOffersSpec | src/pages/TruckManagementPage.jsx:309-320 | A driver assigned to another truck is never offered. One whose id `===` the form's is offered. Any other is offered exactly when no truck carries its id. |
| TruckManagementPage.EditFormDrivers | src/pages/TruckManagementPage.jsx:309-320 | The offered drivers are exactly the listed drivers that pass the test. |
| TruckManagementPage.EditNeverOffersAssignedElsewhere | src/pages/TruckManagementPage.jsx:311-315 | No offered driver is assigned to another truck. |
| TruckManagementPage.EditOffersOwnDriverOnOpen | src/pages/TruckManagementPage.jsx:309-320 | Right after opening, the truck's own driver is offered unless another truck has it. |
| TruckManagementPage.EditHidesOwnDriverAfterChange | src/pages/TruckManagementPage.jsx:309-320 | Once the select holds text, a driver whose numeric id a truck carries is not offered. |
| TruckManagementPage.EditFormOf | src/pages/TruckManagementPage.jsx:6-13 | The edit form holds the truck's values, with `driver_id \|\| ''`. |
| TruckManagementPage.DriverIdPayload | src/pages/TruckManagementPage.jsx:38 | A falsy `driver_id` is sent as `null`. |
| TruckManagementPage.DriverIdPayloadOfText | src/pages/TruckManagementPage.jsx:38 | A selected option's integer text is sent as that integer. |
| TruckManagementPage.DriverIdPayloadOfNumber | src/pages/TruckManagementPage.jsx:38 | An opened form's numeric driver id is sent back as the same integer. |
| TruckManagementPage.DriverIdPayloadSpec | src/pages/TruckManagementPage.jsx:38 | For every `driver_id`, the payload is `parseInt(String(id), 10)` when the id is truthy and `null` otherwise; in particular `true` and objects give NaN. |
| TruckManagementPage.TruckErrorMessage | src/pages/TruckManagementPage.jsx:54-55 | The server message, or the default, is used as it is unless it mentions `plate` in any letter case, which gives the plate message. |
| TruckManagementPage.TruckErrorMessageIdempotent | src/pages/TruckManagementPage.jsx:54-55 | Mapping the mapped message again changes nothing. |
| TruckManagementPage.TruckErrorMessageUpperCase | src/pages/TruckManagementPage.jsx:55 | `PLATE` in capitals also yields the plate message. |
| TruckManagementPage.TruckErrorMessageFallback | src/pages/TruckManagementPage.jsx:54 | Without a server message, a default free of `p` is used as it is. |
| TruckManagementPage.TruckManagementState.HandleAddTruck | src/pages/TruckManagementPage.jsx:175-212 | Writes only the add form, its error, the add modal, the notification and the loading flag. A missing plate, status or capacity sends nothing and sets the required message. Otherwise it posts the form. Success resets the form and closes the modal; a rejection stores the mapped message; a failed request leaves everything but the cleared error as it was. |
| TruckManagementPage.TruckManagementState.HandleEditTruck | src/pages/TruckManagementPage.jsx:23-59 | The same for the edit form, its error and modal, which it puts to the edited truck's id. |
| TruckManagementPage.TruckManagementState.HandleAddDriver | src/pages/TruckManagementPage.jsx:107-134 | Writes only the driver form, its error, its modal and the notification. An empty name or phone sends nothing and sets its message. Otherwise it posts both. Success resets the form; a rejection stores the server message or the default; a failed request changes nothing but the cleared error. |
| TruckManagementPage.TruckManagementState.HandleRetireTruck | src/pages/TruckManagementPage.jsx:74-92 | Deletes the given truck id. Writes only the notification, the loading flag and the retire modal. A 204 gives the success notification and reloads; another status the failure notification; the modal then closes. A rejected request leaves all four as they were. |
| TruckManagementPage.TruckManagementState.OpenEditModal | src/pages/TruckManagementPage.jsx:6-16 | Fills the edit form from the truck, clears its error and opens it, and writes nothing else. |
| TruckManagementPage.TruckManagementState.OpenRetireModal | src/pages/TruckManagementPage.jsx:269 | Opens the retire confirmation for the row's truck id, and writes nothing else. |
| TruckManagementPage.TruckManagementState.ChangeForm | src/pages/TruckManagementPage.jsx:170-173 | Writes the input's text into its field. |
| TruckManagementPage.TruckManagementState.ChangeEditForm | src/pages/TruckManagementPage.jsx:18-21 | Writes the input's text into its field of the edit form. |
| TruckManagementPage.TruckManagementState.ChangeDriverForm | src/pages/TruckManagementPage.jsx:102-105 | Writes the input's text into the driver's name or phone and leaves the other as it was. |
| TruckManagementPage.TruckManagementState.ReceiveTrucks | src/pages/TruckManagementPage.jsx:143-154 | A parsed list replaces the trucks; a failed request keeps them and sets `'Failed to fetch trucks.'`. Loading ends either way. |
| TruckManagementPage.TruckManagementState.ReceiveDrivers | src/pages/TruckManagementPage.jsx:163-168 | A parsed list replaces the drivers; a failed request empties the list. |
| TruckManagementPage.TruckManagementState.AddFormOffers | src/pages/TruckManagementPage.jsx:352-358 | From the page's current lists, the add form offers exactly the listed drivers that no truck carries. |
| TruckManagementPage.TruckManagementState.EditFormOffers | src/pages/TruckManagementPage.jsx:309-320 | From the page's current lists and edit form, an offered driver is listed and carried by no other truck. Every such driver is offered when it is the form's own driver or no truck carries it. |
| AgendaPage.Events | src/pages/AgendaPage.jsx:56-66 | There are no more events than deliveries, and every event comes from a delivery with a truthy `scheduled_at`. |
| AgendaPage.EventsOfOne | src/pages/AgendaPage.jsx:56-57 | A delivery yields one event when scheduled and none otherwise. |
| AgendaPage.EventsConcat | src/pages/AgendaPage.jsx:56-57 | Events follow the order of the deliveries. |
| AgendaPage.EventOf | src/pages/AgendaPage.jsx:58-66 | The id is `delivery_id`, the status is copied, the resource is the delivery, and `allDay` is false. |
| AgendaPage.EventLastsOneHour | src/pages/AgendaPage.jsx:61-62 | An event ends exactly 3 600 000 ms after its start when both are valid dates. An invalid start gives an invalid end. |
| AgendaPage.TitleMarksCompletion | src/pages/AgendaPage.jsx:60 | The title ends in ` ✔` exactly when the status is `'completed'`. |
| AgendaPage.TitleStartsWithName | src/pages/AgendaPage.jsx:60 | The title starts with the customer's name, or with `Delivery` when there is none. |
| AgendaPage.EventColorSpec | src/pages/AgendaPage.jsx:69-73 | completed → `#bbf7d0`, scheduled → `#fef9c3`, delayed → `#fecaca`, and any other status → `#fde68a`, each in both directions. |
| AgendaPage.DeleteClicked | src/pages/AgendaPage.jsx:116 | Closes the popup and asks to confirm deleting that delivery. |
| AgendaPage.CompleteClickedSpec | src/pages/AgendaPage.jsx:124-130 | Clicking does nothing exactly when the delivery is completed; otherwise it asks to confirm completing it. |
| DeliverySchedulingPage.ApplyChangeSpec | src/pages/DeliverySchedulingPage.jsx:34-41 | A text change stores the raw value in its own field only. A multi-select change replaces only the truck ids with the parsed selection. The driver id, which no input renders, is never changed. |
| DeliverySchedulingPage.ParseSelection | src/pages/DeliverySchedulingPage.jsx:37 | One base-10 `parseInt` per selected option, in selection order. |
| DeliverySchedulingPage.SelectionRoundTrip | src/pages/DeliverySchedulingPage.jsx:37 | Options rendered from integer truck ids are stored back as those ids. |
| DeliverySchedulingPage.EmptyFormRejected | src/pages/DeliverySchedulingPage.jsx:6-13 | The initial and reset form is rejected by validation. |
| DeliverySchedulingPage.RequestOf | src/pages/DeliverySchedulingPage.jsx:54-60 | `cost` is `null` exactly when empty; the schedule and truck ids are sent as stored. |
| DeliverySchedulingPage.RequestCustomerId | src/pages/DeliverySchedulingPage.jsx:55 | A customer option's integer id is sent as that integer. |
| DeliverySchedulingPage.AvailableTrucks | src/pages/DeliverySchedulingPage.jsx:73 | The offered trucks are exactly the listed trucks whose status is `'available'`. |
| DeliverySchedulingPage.DeliverySchedulingState.ReceiveTrucks | src/pages/DeliverySchedulingPage.jsx:21-23 | The parsed truck list replaces the page's trucks. |
| DeliverySchedulingPage.DeliverySchedulingState.OfferedTrucks | src/pages/DeliverySchedulingPage.jsx:73 | From the page's current list, the multi-select offers exactly the trucks whose status is `'available'`, and never more trucks than are listed. |
| DeliverySchedulingPage.AvailableTrucksConcat | src/pages/DeliverySchedulingPage.jsx:73 | The offered trucks keep the list order. |
| DeliverySchedulingPage.AvailableTrucksExclude | src/pages/DeliverySchedulingPage.jsx:73 | A truck in any other status is never offered. |
| DeliverySchedulingPage.DeliverySchedulingState.HandleFormChange | src/pages/DeliverySchedulingPage.jsx:34-41 | The form becomes the changed form. |
| DeliverySchedulingPage.DeliverySchedulingState.HandleSubmit | src/pages/DeliverySchedulingPage.jsx:43-70 | Writes only the form, its error and the notification. A missing customer, volume, schedule or truck sends nothing and sets `'All fields are required.'`. Otherwise it posts the body. Success resets the form to the initial one; a rejection stores the server message or the default; a failed request changes nothing but the cleared error. |
| JsValues.ParseIntOfDecimalText | src/pages/TruckManagementPage.jsx:38 | `parseInt(String(n), 10)` is n for every integer. |
| JsValues.Filter | src/pages/AgendaPage.jsx:57 | The survivors pass the test, come from the list, and include every element that passes. |
| JsValues.FilterConcat | src/components/DeliveryRecapModal.jsx:40 | Filtering preserves the order of the survivors. |
| JsValues.Contains | src/pages/TruckManagementPage.jsx:55 | `includes` holds exactly when the pattern occurs at some position. |
| JsValues.StringToNumber | src/pages/HomePage.jsx:141 | A text with a character no numeric literal contains converts to NaN. |
| JsValues.DateFromTime | src/pages/AgendaPage.jsx:62 | A time gives a valid date exactly when it is finite and within ±8.64e15 ms. |
| JsValues.Or | src/pages/HomePage.jsx:85 | `a \|\| b` is `a` when `a` is truthy; the result is truthy exactly when either side is. |
| JsValues.Utf16Length | src/components/RouteQRCode.jsx:10 | `length` counts between one and two code units per character, exactly one each for text within the Basic Multilingual Plane. |

## Left out

- Network requests, `window` refresh events, the notification auto-dismiss timers, toasts,
  `console` output and JSX rendering are I/O or presentation. Replies are handler parameters,
  and a reload after a save is modelled only as the loading flag it sets. Lists that arrive are
  passed to the `Receive…` methods already parsed. The scheduling page's customer list is only
  rendered as options, so it is not part of the model.
- The asynchronous handlers are modelled as single steps. Interleavings of state changes
  between their `await` points are not modelled.
- `JSON.parse`, date-text parsing, `parseFloat`, `toFixed`, `Number` of texts with a decimal
  point or exponent, and `String` of non-integral numbers are parameters (`Env`). Properties
  that depend on their exact output are not stated.
- Numbers are reals or NaN. Infinity and negative zero are not represented.
- The confirm payload's `final_price`, `route_distance_km`, `road_quality`,
  `route_description`, `pricing_details` and `assigned_driver_id` fields are not modelled.
  They are `toFixed` arithmetic or plain copies.
- `handleAutoFill` and `handleOpenDeliveryModalPrefill` in src/pages/HomePage.jsx are not part of this model.
- Server replies are typed. A route's absent `cost` or `duration` is `None`, and a `null` one
  (which `Number` reads as 0) is not distinguished. The feasibility reply is an object with a
  boolean `feasible`. An error body's `error` is text or absent; a non-text `error`, on which
  `toLowerCase` would throw, is not modelled. A `fetch` that rejects, or an error body that is
  not JSON, is the `RequestFailed` reply: the handler stops after its synchronous prefix.
- TruckManagementPage.TruckErrorMessage: lower-cases ASCII letters only. Full Unicode
  lower-casing cannot create or remove the ASCII word `plate`.
- HomePage.PriceRoundTrip: stated only for whole costs below 10^21, where `String(n)` is the
  plain decimal text.
- HomePage.TimelineOrdered: stated for a non-negative rate, volume and route duration. A
  negative volume typed into the form would reverse the order.
- HomePage.DepartureTime and HomePage.ReturnTime take the round trip of `scheduledAtIso`
  through `toISOString` and `new Date` to be exact, which it is at millisecond precision.
- The edit form's reload after saving (src/pages/TruckManagementPage.jsx:46) fetches a
  single-quoted path in which `${API_BASE_URL}` is not substituted. Fetching is I/O, so only
  the loading flag it sets is modelled.
- Lone UTF-16 surrogates, on which `encodeURIComponent` throws, cannot occur: a Dafny `char` is
  a Unicode scalar value. Text lengths the source compares are counted in UTF-16 code units
  (`Utf16Length`); other text operations work on characters.
- The agenda's other style fields (text colour, border, fonts), its details modal, PDF export
  and the delete and complete requests sent after confirmation are presentation or I/O.
