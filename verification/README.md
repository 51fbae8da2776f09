# Flash-driver back end and back office, modelled in Dafny

This project models the logic core of the Flash-driver transport platform. The core has three parts.

- **The WhatsApp session controller** of the Express back end. It keeps three module-level fields: the stored QR data URL, `isWhatsAppConnected` and `isClientInitializing`. Five client-library events (`qr`, `authenticated`, `auth_failure`, `ready`, `disconnected`) and a guarded internal `startWhatsApp` change those fields. Five HTTP handlers read them: start, QR, send, status and logout. The model is an immutable `Session` record. Each event or handler is a pure transition to a `Step`: the new session, the HTTP response if any, and the calls into the client library, in order. A call's settlement (`Succeeds` or `Fails`) is a parameter of the transition. The late rejection of a pending `initialize` is an input of its own, so any sequence of inputs can be run.
- **The route guard** of the Next.js back office. It is a pure decision from the request path and the admin-token cookies: let the request through, redirect to `/login`, or redirect to `/`.
- **The derived data of the admin pages.** This covers filters, partition counts, totals and averages, record transforms, de-duplication, the "most common country" fold, and the guards and payloads of the requests the pages send. Each is a pure function over immutable sequences of records.

Shared modules:

- `Optional` holds JavaScript's `undefined`/`null` and the truthiness of strings.
- `Text` holds ASCII `toLowerCase`/`toUpperCase`, `includes`, `trim`, `slice` and `split`, and integer `toString`.
- `Listing` holds an order-preserving `filter` with its sub-sequence laws, `filter(...).length`, `map` and a sum.
- `Locations` holds what the ports and airports pages share.

## Model

| member | source | states |
|---|---|---|
| WhatsApp.Start | backend/controllers/whatsappController.js:67-80 | While connected or initializing: no call and the session unchanged. Otherwise: exactly one `initialize` call, the QR kept, not connected, and initializing left set exactly when `initialize` succeeds. Keeps the never-connected-while-initializing invariant. |
| WhatsApp.OnQr | backend/controllers/whatsappController.js:27-30 | The QR payload is stored; both flags are untouched. |
| WhatsApp.OnAuthenticated | backend/controllers/whatsappController.js:33-37 | Connected and no longer initializing; the stored QR is kept. |
| WhatsApp.OnReady | backend/controllers/whatsappController.js:48-52 | Connected and no longer initializing; the stored QR is kept. |
| WhatsApp.OnAuthFailure | backend/controllers/whatsappController.js:40-45 | Back to the module-load state: no QR, neither flag set. |
| WhatsApp.OnInitializeRejected | backend/controllers/whatsappController.js:76-79 | A late `initialize` rejection drops only the initializing flag. |
| WhatsApp.OnDisconnected | backend/controllers/whatsappController.js:55-63 | QR cleared and not connected. Exactly one fresh `initialize` is issued, which leaves initializing set exactly when it succeeds. |
| WhatsApp.HttpStart | backend/controllers/whatsappController.js:84-93 | Always 200 with `success: true`. "Already connected" when connected, "in progress" when initializing, both without a start. Otherwise the internal start runs and "starting" is answered. |
| WhatsApp.GetQrCode | backend/controllers/whatsappController.js:95-102 | 404 with the fixed error exactly when no non-empty QR is stored; otherwise 200 with that QR. |
| WhatsApp.KeepDigits | backend/controllers/whatsappController.js:118 | The result holds only decimal digits and is no longer than the phone. |
| WhatsApp.KeepDigitsIsFilter | backend/controllers/whatsappController.js:118 | The digits are the order-preserving filter of the phone by "is a digit": a sub-sequence that keeps every digit. |
| WhatsApp.ChatId | backend/controllers/whatsappController.js:118-119 | The chat id ends in `@c.us`, and everything before that suffix is a digit. |
| WhatsApp.KeepDigitsIdempotent | backend/controllers/whatsappController.js:118 | Stripping non-digits twice is stripping them once. |
| WhatsApp.KeepDigitsAppend | backend/controllers/whatsappController.js:118 | Stripping non-digits distributes over concatenation. |
| WhatsApp.ChatIdIdempotent | backend/controllers/whatsappController.js:117-119 | Normalising an already normalised chat id gives it back. |
| WhatsApp.ChatIdExample | backend/controllers/whatsappController.js:117-119 | "216 99 999 999" goes to chat "21699999999@c.us". |
| WhatsApp.SendMessage | backend/controllers/whatsappController.js:104-128 | A missing or empty phone or message gives 400, checked before the connection. Not connected gives 403. In both cases there is no send. Otherwise exactly one send goes to the normalised chat id, answered 200 on success and 500 on failure. The session never changes. |
| WhatsApp.GetStatus | backend/controllers/whatsappController.js:131-133 | 200 with `isConnected` exactly when connected. |
| WhatsApp.LogoutWhatsApp | backend/controllers/whatsappController.js:135-149 | Not connected: `success: false`, no call, session unchanged. Otherwise one `logout`. On success every field is cleared; on failure the answer is 500 and the session is unchanged. |
| WhatsApp.Apply | backend/controllers/whatsappController.js:4-149 | Every event and handler keeps the never-connected-while-initializing invariant. |
| WhatsApp.RunKeepsValid | backend/controllers/whatsappController.js:4-6 | From a valid session, any sequence of events and requests keeps the invariant. |
| WhatsApp.NeverConnectedWhileInitializing | backend/controllers/whatsappController.js:4-6 | From module load, connected and initializing are never both set. |
| WhatsApp.StartIdempotentWhileInitializing | backend/controllers/whatsappController.js:88-90 | While initializing, any number of start requests leave the session as it was and issue no call. |
| WhatsApp.StaleQrServedWhileConnected | backend/controllers/whatsappController.js:48-52 | After `ready`, the QR stored before it is still served and the status reads connected. |
| WhatsApp.Scenario | backend/controllers/whatsappController.js:84-121 | Start, QR, ready, then send: the QR is served, the status is connected, and the message goes to the normalised chat. |
| Middleware.Target | backoffice/src/middleware.ts:40-47 | A redirect goes to `/login` or to `/`. |
| Middleware.Classify | backoffice/src/middleware.ts:11-21 | Public exactly for `/login` and `/register`. API exactly for paths starting with `/api`. Protected exactly for `/` itself and paths starting with `/dashboard`. |
| Middleware.Token | backoffice/src/middleware.ts:30-31 | A token is present exactly when either cookie holds a non-empty value. |
| Middleware.Guard | backoffice/src/middleware.ts:4-53 | `/api` paths pass. Redirect to login exactly for a non-API protected path without a token. Redirect to `/` exactly for `/login` with a token. Everything else passes. |
| Middleware.ApiPassesThrough | backoffice/src/middleware.ts:17-27 | Every `/api` path, `/apiary` included, passes with or without a token. |
| Middleware.EitherCookieCounts | backoffice/src/middleware.ts:30-31 | Either cookie alone decides as a present token. |
| Middleware.EmptyFirstCookieFallsBack | backoffice/src/middleware.ts:30-31 | An empty `adminToken` falls back to `admin-token`. |
| Middleware.TokenNeverRedirectsToLogin | backoffice/src/middleware.ts:38-42 | With a token, never a redirect to the login page. |
| Middleware.OpenPaths | backoffice/src/middleware.ts:50-52 | `/register` always passes, `/login` without a token passes, and an unknown path passes. |
| Middleware.NoRedirectLoop | backoffice/src/middleware.ts:38-52 | Following a redirect with the same token status lands on a path that passes. |
| Middleware.PublicFlagIsIgnored | backoffice/src/middleware.ts:11-52 | Whether a path is listed as public never changes the decision. |
| Trajets.DriverName | backoffice/src/components/TrajetsPage.tsx:128 | A route without a driver searches as the empty name. |
| Trajets.FilteredTrajets | backoffice/src/components/TrajetsPage.tsx:126-137 | An order-preserving sub-sequence. It holds exactly the routes matching both the search and the transport filter, each with its multiplicity in the input. Under a filter other than "all", every kept mode equals it exactly. |
| Trajets.FilteredTrajetsIdentity | backoffice/src/components/TrajetsPage.tsx:127-134 | An empty search with "all" shows every route. |
| Trajets.Stats | backoffice/src/components/TrajetsPage.tsx:225-230 | Plane, boat and land counts sum to the total. The first two are the exact-case "Avion" and "Bateau" counts. |
| Trajets.TransportColor | backoffice/src/components/TrajetsPage.tsx:193-206 | Blue exactly for lower-cased "avion", green exactly for "bateau", orange exactly for "camion" or "voiture", gray otherwise. |
| Trajets.TransportIcon | backoffice/src/components/TrajetsPage.tsx:179-191 | Plane, ship and truck glyphs for the same lower-cased groups. |
| Trajets.BadgeAndIconAgree | backoffice/src/components/TrajetsPage.tsx:179-206 | Badge and icon depend only on the lower-cased mode, and they fall in the same group. |
| Trajets.StatsAndBadgeDisagreeOnCase | backoffice/src/components/TrajetsPage.tsx:225-230 | A route in "avion" wears the plane badge but is counted as land transport. |
| Trajets.EditFormOf | backoffice/src/components/TrajetsPage.tsx:144-156 | Every editable field is copied. The date is the prefix of the route date before its first 'T', or the whole date when it has none. |
| Trajets.EditDateDropsTime | backoffice/src/components/TrajetsPage.tsx:150 | An ISO `date` + "T" + `time` is cut back to `date`. |
| Trajets.HandleAction | backoffice/src/components/TrajetsPage.tsx:139-165 | "edit" selects the route, fills the form and opens the edit modal. "delete" selects it and opens the delete modal. Anything else changes nothing. |
| Trajets.HandleEditSubmit | backoffice/src/components/TrajetsPage.tsx:167-171 | No request without a selection; otherwise an update of the selected route with the form. |
| Trajets.HandleDeleteConfirm | backoffice/src/components/TrajetsPage.tsx:173-177 | No request without a selection; otherwise a deletion of the selected route. |
| Trajets.EditThenSubmit | backoffice/src/components/TrajetsPage.tsx:139-177 | Edit then submit updates that route with its own form; delete then confirm deletes it; the initial view sends nothing. |
| Drivers.TransformApiUser | backoffice/src/components/DriverPage.tsx:41-53 | Status "actif" exactly when verified, else "en_attente", never "inactif". Role is always "transporteur". A missing or empty phone reads "N/A". |
| Drivers.TransformAll | backoffice/src/components/DriverPage.tsx:70 | Transforms every driver, in order. |
| Drivers.FilteredUsers | backoffice/src/components/DriverPage.tsx:129-135 | An order-preserving sub-sequence holding exactly the drivers matching search, role and status, each as often as in the input. |
| Drivers.FilteredUsersIdentity | backoffice/src/components/DriverPage.tsx:129-135 | An empty search with both filters on "all" shows every driver. |
| Drivers.InactifFilterIsEmpty | backoffice/src/components/DriverPage.tsx:129-135 | The "inactif" status filter never shows a transformed driver. |
| Drivers.Stats | backoffice/src/components/DriverPage.tsx:188-192 | Verified plus pending is the total. |
| Drivers.StatusLabel | backoffice/src/components/DriverPage.tsx:179-186 | The three known statuses get their fixed labels. The label equals the input exactly when the status is unknown. |
| Drivers.HandleSaveEdit | backoffice/src/components/DriverPage.tsx:151-159 | No request without a driver being edited; otherwise exactly its name, e-mail and phone. |
| Drivers.SaveEditRoundTrip | backoffice/src/components/DriverPage.tsx:151-159 | Saving an untouched driver sends back the API's fields, with a missing phone as "N/A". |
| Payments.BaseItems | backoffice/src/components/historiquepayementPage.tsx:94-99 | All payments without a selection. With one, an order-preserving sub-sequence holding exactly the payments of that driver, each as often as in the input; payments without a driver are dropped. |
| Payments.TableItems | backoffice/src/components/historiquepayementPage.tsx:109-122 | The base itself for an empty search. Otherwise an order-preserving sub-sequence holding exactly the rows matching the lower-cased term, each as often as in the base. |
| Payments.ComputeStats | backoffice/src/components/historiquepayementPage.tsx:169-173 | The count is the number of payments and the total is their sum. The average times the count is the total, or 0 when there is no payment. |
| Payments.Recompute | backoffice/src/components/historiquepayementPage.tsx:92-124 | Stats come from the driver-filtered base. The driver total is absent exactly without a selection, else the base's sum. The table is the search-filtered base, a sub-sequence of the history. |
| Payments.StatsIgnoreSearch | backoffice/src/components/historiquepayementPage.tsx:102-106 | The search term never changes the stats or the driver total, which equals the stats total. |
| Payments.DriverOptions | backoffice/src/components/historiquepayementPage.tsx:162-167 | All drivers for an empty term. Otherwise an order-preserving sub-sequence holding exactly the drivers whose name contains the term, case-insensitively, each as often as in the input. |
| Payments.OnDriverSearchChange | backoffice/src/components/historiquepayementPage.tsx:139-146 | Typing sets the text, clears any selection and opens the list. |
| Payments.OnDriverSelect | backoffice/src/components/historiquepayementPage.tsx:148-152 | Selecting sets the id and shows the driver's name as the text, and closes the list. |
| Payments.ClearDriverSelection | backoffice/src/components/historiquepayementPage.tsx:154-158 | Clearing resets both id and text and closes the list. |
| Payments.SelectedDriverStaysOffered | backoffice/src/components/historiquepayementPage.tsx:162-167 | After a selection, that driver is still among the offered options. |
| Payments.ClearShowsEverything | backoffice/src/components/historiquepayementPage.tsx:154-158 | After clearing, with no search, the table is the whole history and there is no driver total; the picker offers every driver again. |
| Text.IntToString | backoffice/src/components/historiquepayementPage.tsx:116 | The rendering is canonical: "0", or digits with no leading zero, after a minus sign exactly for a negative number. |
| Text.IntToStringRoundTrip | backoffice/src/components/historiquepayementPage.tsx:116 | Reading the digits of a non-negative amount back gives the amount. |
| Text.IntToStringParses | backoffice/src/components/historiquepayementPage.tsx:116 | Every amount, negative ones included, reads back from its rendering. |
| Text.ToLower | backoffice/src/components/BagagesPage.tsx:76-77 | Same length; each character is lower-cased, ASCII letters only. |
| Text.ToUpper | backoffice/src/components/BagagesPage.tsx:256 | Same length; each character is upper-cased, ASCII letters only. |
| Text.ContainsAt | backoffice/src/components/BagagesPage.tsx:76-77 | `includes` holds exactly when the term occurs at some offset of the field. |
| Text.Trim | backoffice/src/components/PortsPage.tsx:69 | The result is a block of the input with only white space cut at both ends, and it neither starts nor ends with white space. |
| Text.TrimEmptyIffBlank | backoffice/src/components/PortsPage.tsx:69 | The trimmed name is empty exactly when the name is all white space. |
| Text.TakeLast | backoffice/src/components/BagagesPage.tsx:256 | `slice(-8)`: the last 8 characters (code points), or the whole string when shorter; what it drops is a prefix. |
| Text.BeforeFirst | backoffice/src/components/TrajetsPage.tsx:150 | `split('T')[0]`: a prefix without 'T', either the whole string or followed by a 'T'. |
| Optional.OrElse | backoffice/src/components/DriverPage.tsx:47 | The "N/A" default for a missing phone: the value when it is truthy (present and non-empty), else the default; never empty with a non-empty default. |
| Cities.TransformApiCity | backoffice/src/components/villePage.tsx:50-56 | Id, name and country are carried over unchanged. |
| Cities.Distinct | backoffice/src/components/villePage.tsx:163 | An order-preserving sub-sequence without duplicates, holding exactly the elements not already seen, ordered by their first occurrence in the input. |
| Cities.UniqueCountries | backoffice/src/components/villePage.tsx:163 | No duplicates, exactly the countries of the cities, never more of them than cities, ordered by where each first appears in the list. |
| Cities.CountryCountIsFilterLength | backoffice/src/components/villePage.tsx:212 | A country's count is the length of the list filtered on that country. |
| Cities.FilteredCities | backoffice/src/components/villePage.tsx:165-170 | An order-preserving sub-sequence holding exactly the cities whose name or country contains the term and whose country passes the exact filter, each as often as in the input. |
| Cities.FilteredCitiesIdentity | backoffice/src/components/villePage.tsx:165-170 | An empty search with "all" shows every city. |
| Cities.CodeUnit | backoffice/src/components/villePage.tsx:203 | `charCodeAt` is a UTF-16 code unit: the character itself inside the Basic Multilingual Plane, and above it the high surrogate whose 1024-wide block holds the character. |
| Cities.CountryColor | backoffice/src/components/villePage.tsx:195-205 | No class exactly for the empty country. Otherwise the palette entry at the first code unit modulo 5. |
| Cities.SameInitialSameColor | backoffice/src/components/villePage.tsx:203 | Countries starting with the same character share a colour. |
| Cities.ReduceFrom | backoffice/src/components/villePage.tsx:211-213 | The `reduce` ends on a country with the largest count, after which only strictly smaller counts follow. |
| Cities.MostCommonCountry | backoffice/src/components/villePage.tsx:210-214 | "N/A" without cities. Otherwise a city's country whose count is at least every other's, the last of the maximal ones among the distinct countries. |
| Cities.Stats | backoffice/src/components/villePage.tsx:207-215 | Total is the number of cities. Countries is the number of distinct countries, never more than the total. |
| Cities.MostCommonIsLastToAppear | backoffice/src/components/villePage.tsx:210-214 | On a tie, the country shown is the one appearing last: every other country with the same count first appears earlier in the list. |
| Cities.NotAvailableIffNoCity | backoffice/src/components/villePage.tsx:210-214 | Without a country literally named "N/A", the card reads "N/A" exactly when there is no city. |
| Cities.NotAvailableCountryIsAmbiguous | backoffice/src/components/villePage.tsx:210-214 | One city in country "N/A" also shows "N/A". |
| Cities.HandleAddCity | backoffice/src/components/villePage.tsx:84-98 | No request unless both name and country are non-empty; otherwise exactly {name, payer}. |
| Cities.AddedCityShowsAsTyped | backoffice/src/components/villePage.tsx:50-98 | An added city, read back from the API under any id, shows the typed name and country; saving it unchanged sends the same payload as the add. |
| Cities.HandleSaveEdit | backoffice/src/components/villePage.tsx:186-193 | No request without a city being edited; otherwise exactly its name and country. |
| Cities.SaveEditRoundTrip | backoffice/src/components/villePage.tsx:186-193 | Saving an untouched city sends back the API's fields. |
| Cities.HandleCityAction | backoffice/src/components/villePage.tsx:172-184 | "view" and "edit" open their modal on the city. A deletion is requested exactly for a confirmed "delete". Nothing else changes. |
| Cities.EditThenSave | backoffice/src/components/villePage.tsx:177-193 | Edit then save updates that city with its own fields. |
| Bagages.FilteredBagages | backoffice/src/components/BagagesPage.tsx:75-80 | An order-preserving sub-sequence holding exactly the pieces whose id or description contains the term, each as often as in the input. |
| Bagages.FilteredBagagesIdentity | backoffice/src/components/BagagesPage.tsx:75-80 | An empty search shows every piece. |
| Bagages.Stats | backoffice/src/components/BagagesPage.tsx:131-135 | "With images" plus "without images" is the total. "With" counts non-empty image lists. |
| Bagages.DisplayId | backoffice/src/components/BagagesPage.tsx:256 | The last 8 characters (code points), or the whole id when shorter, upper-cased position by position. |
| Bagages.DisplayIdSeesOnlyTheTail | backoffice/src/components/BagagesPage.tsx:256 | Ids whose last 8 characters agree up to case show alike, whatever comes before. |
| Bagages.ImageCellOf | backoffice/src/components/BagagesPage.tsx:265-295 | "No image" exactly for a missing or empty list. Otherwise at most 3 thumbnails, each the image or the placeholder once its load failed, and a count label of the full list length. |
| Bagages.StatsMatchCells | backoffice/src/components/BagagesPage.tsx:131-135 | The "with images" count is the number of rows showing thumbnails. |
| Bagages.NoErrorShowsImages | backoffice/src/components/BagagesPage.tsx:268-283 | Without a load error, the thumbnails are the first images themselves. |
| Bagages.HandleBagageAction | backoffice/src/components/BagagesPage.tsx:82-93 | A deletion exactly for a confirmed "delete"; any other action does nothing. |
| Bagages.ActionDeletesAShownBagage | backoffice/src/components/BagagesPage.tsx:75-93 | An action on a shown row can only request the deletion of that row, whose id belongs to a loaded piece. |
| Balances.TransformApiDriver | backoffice/src/components/SoldeDriverPage.tsx:35-41 | Id, name and e-mail pass through. A missing or empty phone reads "N/A". A missing balance reads 0. |
| Balances.FilteredDrivers | backoffice/src/components/SoldeDriverPage.tsx:78-85 | An order-preserving sub-sequence holding exactly the drivers whose name, e-mail or phone contains the term, each as often as in the input. |
| Balances.FilteredDriversIdentity | backoffice/src/components/SoldeDriverPage.tsx:78-85 | An empty search shows every driver. |
| Balances.MissingPhoneFoundAsNA | backoffice/src/components/SoldeDriverPage.tsx:39-85 | A driver without a phone is found by searching "n/a". |
| Balances.OpenPaymentModal | backoffice/src/components/SoldeDriverPage.tsx:87-90 | The modal opens on the driver. |
| Balances.ClosePaymentModal | backoffice/src/components/SoldeDriverPage.tsx:92-95 | The modal closes and the selection is cleared. |
| Balances.HandlePayCommission | backoffice/src/components/SoldeDriverPage.tsx:98-106 | A full-commission payment exactly when a driver is selected and its balance is positive. |
| Balances.BalanceColor | backoffice/src/components/SoldeDriverPage.tsx:202 | Red exactly while the pay button is enabled, green exactly while it is disabled. |
| Balances.ButtonMatchesGuard | backoffice/src/components/SoldeDriverPage.tsx:87-99 | Opening the modal on a row leads to a payment exactly when its button is enabled; after closing, nothing is paid. |
| Balances.MissingBalanceOwesNothing | backoffice/src/components/SoldeDriverPage.tsx:35-41 | A driver whose balance the API left out has a disabled button and is never paid. |
| Locations.TransformApiLocation | backoffice/src/components/PortsPage.tsx:35-38 | Only the id and the name are kept. |
| Locations.FilteredByName | backoffice/src/components/PortsPage.tsx:141-143 | An order-preserving sub-sequence holding exactly the locations whose name contains the term, each as often as in the input. |
| Locations.FilteredByNameIdentity | backoffice/src/components/AirportsPage.tsx:151-153 | An empty search shows every location. |
| Locations.HandleDelete | backoffice/src/components/PortsPage.tsx:117-118 | A deletion exactly when confirmed. |
| Locations.OpenView | backoffice/src/components/PortsPage.tsx:210 | The view modal opens on the row; the edit modal is untouched. |
| Locations.OpenEdit | backoffice/src/components/PortsPage.tsx:211 | The edit modal opens on the row; the view modal is untouched. |
| Ports.AddPort | backoffice/src/components/PortsPage.tsx:68-79 | No request exactly for a blank name. Otherwise the name as typed, untrimmed, with mode "Bateau". |
| Ports.UpdatePort | backoffice/src/components/PortsPage.tsx:93-104 | No request without a port being edited or with a blank name; otherwise its new name only. |
| Ports.NameSentUntrimmed | backoffice/src/components/PortsPage.tsx:69-79 | " Rades " passes the guard and is sent with its spaces. |
| Ports.EditThenSave | backoffice/src/components/PortsPage.tsx:93-104 | Edit then save renames that port, for a non-blank name. |
| Airports.AddAirport | backoffice/src/components/AirportsPage.tsx:70-85 | No request exactly for the empty name. Otherwise the name with mode "Avion". |
| Airports.HandleSaveEdit | backoffice/src/components/AirportsPage.tsx:155-158 | No request without an airport being edited; otherwise its name, even an empty one. |
| Airports.BlankNameGuardsDiffer | backoffice/src/components/AirportsPage.tsx:71 | A lone space makes an airport but not a port. |
| Airports.GuardsDifferOnlyOnBlankNames | backoffice/src/components/AirportsPage.tsx:71 | The two add guards disagree exactly on non-empty blank names; every accepted port name is an accepted airport name. |
| Airports.EmptyRenameAccepted | backoffice/src/components/AirportsPage.tsx:155-158 | Renaming an airport to "" goes through; a port refuses it. |

## Left out

- The WhatsApp client library, its browser options and the QR encoding (`qrcode.toDataURL`) are foreign code. The QR is an opaque string, and `initialize`, `sendMessage` and `logout` are abstract calls whose settlement is a parameter.
- WhatsApp.Start: settles `initialize` within the same step. A rejection that lands after other events is a separate input, `InitializeRejected`, allowed at any point. The reconnect loop is modelled one step at a time, and the `await` points otherwise are not modelled.
- WhatsApp.SendMessage: only string `phone` and `message` fields are modelled. A truthy non-string `phone` in the request body passes both checks, then throws at `phone.replace` and is answered 500 without a send; this path is not represented.
- Logging (`console.log`/`console.error`) is left out; it has no effect on state or responses.
- Every `fetch`, `localStorage`, `window.confirm` and `alert` call is I/O. A confirmation's answer is a parameter, and a request is a value the page would send.
- Loading and error flags, and the re-fetch after a successful request, are left out. They only reflect I/O.
- The route guard's `config.matcher`, which keeps static files away from the guard, is Next.js configuration.
- Text.TakeLast: counts characters as code points, while `slice(-8)` counts UTF-16 code units. The two differ only for ids holding characters above the Basic Multilingual Plane; `Bagages.DisplayId` is applied to 24-hex-digit MongoDB ObjectIds, which hold none, so the column is unaffected.
- Text.ToLower: maps ASCII letters only, while JavaScript's `toLowerCase` follows full Unicode case mapping. The same holds for `Text.ToUpper`.
- Drivers.TransformApiUser: the registration date (`createdAt` rendered with `toLocaleDateString('fr-FR')`) is not part of `DisplayUser`; it is display-only and locale formatting is not modelled.
- Payments.MatchesSearch: the French rendering of the payment date is an opaque precomputed field, because locale formatting is not modelled.
- The monthly chart of the payment page and its random placeholder data depend on dates, locale formatting and randomness.
- Amounts: payments are integers and balances and prices are reals, not IEEE doubles. `NaN` and `toFixed` are not modelled, so a `NaN` balance, which `|| 0` would also turn into 0, is out of scope.
- Cities.CountryColor: for an empty country the page indexes the palette with `NaN` and gets `undefined`; the model returns `None`.
- The role and status colour helpers of the drivers page, its `handleUserAction`, and all view-only modals are presentation.
- The pages' server-side transport-mode query (`?transportMode=Bateau` / `Avion`) is decided by the server.
- The dashboard home, the requests page, the commission page, the login and register forms, the layout components and the polling WhatsApp client are left out. They are UI over HTTP calls. `DemandesPage.tsx` does not parse as written (line 10).
- The driver controller and the route files are thin wrappers over the database and Express. In `backend/routes/driverroute.js:17-18`, `PUT /update-password` is declared after `PUT /:id`, so Express's matching order shadows it; this is outside the model.
