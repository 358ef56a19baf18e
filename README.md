# Community exchange platform: a verified model of its core

This project models the behaviour of a community marketplace built with Next.js. Users list second-hand
goods near them, browse listings by city, district or state, and chat with sellers in real time. The
model covers these parts:

- **Conversation route.** `GET /api/conversation` lists the caller's conversations. `POST` finds or
  creates the conversation of the caller with a product's owner. Model: `conversation.dfy`, as a pure
  table function plus a stored table whose handler is proved against it.
- **Live chat view.** This is the selection effect, the `new-message` and `online-presence` handlers,
  the liveness and heartbeat intervals, teardown, sending, the current-chat lookup, the counterpart
  shown and the sidebar preview. Model: `chat.dfy`, as a class whose fields are the component's state,
  with one method per effect run, broker callback or timer tick.
- **Presence route and broker.** The presence route publishes one `online-presence` event on
  `conversation-<id>` (`presence.dfy`). The publish/subscribe broker is an event log (`pusher.dfy`).
- **Expiring location cache.** This is the persisted location store and its 30-minute expiry on
  rehydration (`location_store.dfy`).
- **Product filter route.** It builds up to three case-insensitive substring filters and keeps the
  approved products matching any of them (`product_filter.dfy`).
- **Product upload route.** It validates the listing before any side effect, uploads the images in
  order and stores the product with null defaults for missing address parts (`product_upload.dfy`).
- **Upload page.** This covers the condition mapping, form updates, image selection and removal, and
  the submitted payload and reset (`upload_page.dfy`).
- **Product grid.** It pictures each card by the product's first image and applies the own-listing rule for a card's link and label (`product_grid.dfy`).
- **Dashboard.** This covers the caching guards of the location effects, the filter-mode query and the
  filter label (`dashboard.dfy`).
- **Authentication callbacks.** Sign-in finds or creates the user by email. The token and session
  callbacks copy fields (`auth.dfy`).

`common.dfy` holds the shared vocabulary: optional values, JavaScript truthiness of strings, case mapping,
substring search, `trim`, decimal rendering of ids and `Number(...)` on numeric input. `catalog.dfy`
holds the product rows that the upload route writes and the filter route reads.

External services are parameters or plain state:
- The database is sequences of rows.
- The broker is an event log.
- The media service is a list of uploads, whose secure URLs are opaque strings.
- The clock is an explicit `now` argument.
- Request outcomes the client cannot see in advance (the broker, HTTP responses, database faults) are
  arguments of the method that receives them.

One point where the code is followed over its natural reading: in `handleSendMessage`
(src/components/custom/chat.tsx:307-322), the input is cleared only after the POST resolves. A
rejected POST throws before `setMessageInput('')`, so the input then stays.
`ChatSession.ChatView.SendMessage` says exactly that.

## Model

| member | source | states |
|---|---|---|
| Common.OrNull | src/app/api/product/upload/route.ts:49-55 | `s \|\| null` is present exactly when `s` is truthy, and then it is `s` |
| Common.Lower | src/app/api/products/filter/route.ts:21-23 | lower-casing keeps the length and maps every character |
| Common.Upper | src/app/product/upload/page.tsx:151 | upper-casing keeps the length and maps every character |
| Common.LowerNormalises | src/app/api/products/filter/route.ts:21-23 | lower-casing is idempotent and erases a prior upper-casing |
| Common.ContainsAt | src/app/api/products/filter/route.ts:21-23 | the substring test holds exactly when the needle occurs at some offset |
| Common.TrimTruthy | src/components/custom/chat.tsx:308 | `s.trim()` is non-empty exactly when `s` has a character that is not white space |
| Common.Decimal | src/app/api/pusher/presence/route.ts:15 | a rendered id is a non-empty run of digits |
| Common.ParseDecimal | src/app/api/pusher/presence/route.ts:15 | reading a rendered id back gives the id |
| Common.DecimalInjective | src/app/api/pusher/presence/route.ts:15 | distinct ids render differently |
| Common.NumberOf | src/app/product/upload/page.tsx:148 | `Number("")` is 0 and a digit string is its value |
| ConversationRoute.Participating | src/app/api/conversation/route.ts:16-22 | a row is listed exactly when the user is its sender or its receiver |
| ConversationRoute.FindFirst | src/app/api/conversation/route.ts:78-84 | nothing is found exactly when no row matches the triple; a found row is stored and matches |
| ConversationRoute.FindFirstAppended | src/app/api/conversation/route.ts:78-95 | after the only matching row is appended, the lookup finds that row |
| ConversationRoute.Get | src/app/api/conversation/route.ts:6-22 | 401 exactly without a session user; otherwise exactly the caller's conversations |
| ConversationRoute.Post | src/app/api/conversation/route.ts:58-100 | 401 exactly without a session user; 500 for an unparsable body; 400 for a missing field; 400 `SelfConversation` exactly when both fields are present and the receiver is the caller; every non-created reply leaves the table unchanged; a returned conversation is stored and matches the triple with sender = caller; a throwing lookup gives 500; with no matching row the conversation is created under the next id and appended, except that a throwing create or a missing product or participant gives exactly 500 |
| ConversationRoute.PostReturnsExisting | src/app/api/conversation/route.ts:78-87 | an existing conversation for the triple is returned as-is and the table stays the same |
| ConversationRoute.PostPreservesValid | src/app/api/conversation/route.ts:75-95 | for POSTs handled one after another, ids stay ordered, no sender equals its receiver, and each triple is stored at most once |
| ConversationRoute.PostIdempotent | src/app/api/conversation/route.ts:78-95 | a repeated identical POST, handled after the first, gives the same reply and table; the table grows by at most one row |
| ConversationRoute.ConversationStore.HandleGet | src/app/api/conversation/route.ts:6-22 | the handler answers as `Get` on the stored table |
| ConversationRoute.ConversationStore.HandlePost | src/app/api/conversation/route.ts:58-100 | the new table and the reply are those of `Post`; invariants kept; nothing changes unless a conversation is returned |
| Channels.ChannelName | src/app/api/pusher/presence/route.ts:15 | the channel is `conversation-` followed by the rendered id |
| Channels.ChannelNameInjective | src/components/custom/chat.tsx:154 | distinct conversations subscribe to distinct channels |
| Channels.EventsOnMembers | src/components/custom/chat.tsx:154-166 | a subscriber receives exactly the events published on its channel |
| Channels.EventsOnAppend | src/app/api/pusher/presence/route.ts:15 | a publish extends only its own channel's stream, at the end |
| Channels.Pusher.Trigger | src/app/api/pusher/presence/route.ts:15 | a trigger appends exactly one event to the log |
| PresenceRoute.Post | src/app/api/pusher/presence/route.ts:11-20 | 200 with success exactly when the body parses and the trigger resolves, and then exactly one `online-presence` event with the body's user id on `conversation-<id>`; otherwise 500 and nothing published |
| PresenceRoute.HeartbeatReachesOnlyItsChannel | src/app/api/pusher/presence/route.ts:15 | a heartbeat reaches its own conversation's subscribers, at the end of their stream, and no other conversation's |
| ChatSession.FindChat | src/components/custom/chat.tsx:305 | nothing is found exactly when no listed conversation has the selected id; a found one is listed with that id |
| ChatSession.Counterpart | src/components/custom/chat.tsx:385-386 | the receiver when the own user is the sender, otherwise the sender |
| ChatSession.Avatar | src/components/custom/chat.tsx:452 | the profile's image, or `/default-avatar.png` when it has none |
| ChatSession.CounterpartIsTheOtherParticipant | src/components/custom/chat.tsx:451-452 | for a participant of a two-party conversation, the profile shown is the other participant, and the header image is that participant's image, or `/default-avatar.png` when they have none |
| ChatSession.PreviewLeaksOpenChat | src/components/custom/chat.tsx:397-404 | as written, another conversation's row shows the open chat's last message |
| ChatSession.Listed | src/app/api/conversation/route.ts:23-49 | a listed conversation carries no messages |
| ChatSession.PreviewOfListedChatFails | src/components/custom/chat.tsx:401-402 | as written, a listed row fails to render while the local list is empty |
| ChatSession.RowPreview | src/components/custom/chat.tsx:397-420 | the corrected preview shows nothing only for a row that is not open or whose local list is empty |
| ChatSession.RowPreviewBelongsToChat | src/components/custom/chat.tsx:397-420 | the corrected preview only shows a message of the row's own conversation |
| ChatSession.RowPreviewOfListedChat | src/components/custom/chat.tsx:397-420 | the corrected preview of a listed row is the open chat's last local message, or blank |
| ChatSession.ChatView.constructor | src/components/custom/chat.tsx:101-108 | mounting starts with nothing selected, no messages, offline, empty input, last seen = now |
| ChatSession.ChatView.ConversationsLoaded | src/components/custom/chat.tsx:110-117 | the listing replaces the conversations while mounted |
| ChatSession.ChatView.Teardown | src/components/custom/chat.tsx:183-188 | the cleanup leaves no channel bound and no interval running |
| ChatSession.ChatView.SelectChat | src/components/custom/chat.tsx:142-154 | a new selection empties the message list first and subscribes to its channel; deselecting only tears down |
| ChatSession.ChatView.HistoryLoaded | src/components/custom/chat.tsx:146-149 | a successful history fetch replaces the list; a failed one leaves it |
| ChatSession.ChatView.Deliver | src/components/custom/chat.tsx:156-166 | `new-message` appends at the end, changing nothing else; own presence echoes change nothing; another user's presence sets online and last seen = now; other channels change nothing |
| ChatSession.ChatView.OnlineCheck | src/components/custom/chat.tsx:169-173 | online is cleared exactly when more than 5000 ms passed since last seen, and never set |
| ChatSession.ChatView.Heartbeat | src/components/custom/chat.tsx:176-182 | while a chat is open and the route's trigger resolves, one presence event with the own id goes to its channel; otherwise nothing is published |
| ChatSession.ChatView.SessionChanged | src/components/custom/chat.tsx:142-190 | a changed user id re-runs the selection effect: an open chat's local list is emptied and its channel bound again; an unchanged id changes nothing |
| ChatSession.ChatView.Unmount | src/components/custom/chat.tsx:183-190 | unmounting tears the effect down and later updates are dropped |
| ChatSession.ChatView.InputChanged | src/components/custom/chat.tsx:531 | the textarea's value becomes the input |
| ChatSession.ChatView.SendMessage | src/components/custom/chat.tsx:307-322 | no request and no change unless the trimmed input is non-empty and the chat is listed; otherwise the input is posted, toasts follow `success`, and the input is cleared unless the POST rejected |
| ChatSession.SendGuard | src/components/custom/chat.tsx:308 | the send guard holds exactly when the input has a visible character and a listed conversation is selected |
| ProductFilter.BuildFilters | src/app/api/products/filter/route.ts:19-23 | at most three filters, one per non-empty parameter, in the order city, state, state_district |
| ProductFilter.Select | src/app/api/products/filter/route.ts:25-31 | a product is returned exactly when it is approved and located and matches some filter |
| ProductFilter.Get | src/app/api/products/filter/route.ts:7-52 | 401 exactly without a session user; otherwise exactly the approved products matching some non-empty parameter case-insensitively on its own column |
| ProductFilter.MatchIgnoresCase | src/app/api/products/filter/route.ts:21-23 | matching is unaffected by the case of the column or of the parameter |
| ProductFilter.EmptyOrMatchesNothing | src/app/api/products/filter/route.ts:28-30 | with no filter, nothing is returned |
| UploadRoute.StoredLocationOf | src/app/api/product/upload/route.ts:47-60 | city, state and country are kept; amenity, road, county, state_district and ISO code are kept when truthy and become null otherwise; postcode and country code are taken as given |
| UploadRoute.MediaStore.Upload | src/app/api/product/upload/route.ts:31-34 | one upload is recorded and its secure URL returned |
| UploadRoute.ProductTable.Create | src/app/api/product/upload/route.ts:38-69 | the product is appended under the next id |
| UploadRoute.UploadedCount | src/app/api/product/upload/route.ts:30-34 | the loop stops at the first rejected upload: fewer than all images are uploaded exactly when a rejection falls within them |
| UploadRoute.UploadAll | src/app/api/product/upload/route.ts:29-35 | one URL per image, in input order, each for the upload of that image, up to the first rejected upload; success exactly when none rejects |
| UploadRoute.Post | src/app/api/product/upload/route.ts:7-76 | 401 without a session user; 500 for an unparsable body; 400 for a falsy required field or address part; in all of these nothing is uploaded or stored; otherwise created exactly when no upload rejects and the create succeeds, with the caller's id, the body's fields, null-defaulted address and the image URLs in order; else 500, nothing stored, and the images before the failure stay uploaded |
| UploadPage.ConditionMapping | src/app/product/upload/page.tsx:16-21 | a mapped text is that condition's label |
| UploadPage.ConditionMappingInverse | src/app/product/upload/page.tsx:9-21 | a text maps to a condition exactly when it is its label; the four enum names are distinct; every label is a dropdown option |
| UploadPage.ConditionsAllMapped | src/app/product/upload/page.tsx:89-91 | every dropdown option maps to a condition |
| UploadPage.WithField | src/app/product/upload/page.tsx:93-99 | the named field takes the value and every other field stays |
| UploadPage.ImageDataOnlyImages | src/app/product/upload/page.tsx:121-133 | only data of files whose type starts with `image/` is added, and every such file's data is |
| UploadPage.ImageDataAppend | src/app/product/upload/page.tsx:122-132 | one more file adds at most its own data, at the end |
| UploadPage.RemoveAt | src/app/product/upload/page.tsx:135-137 | exactly the element at the index is removed, the others keep their order; an index out of range removes nothing |
| UploadPage.SerializedCondition | src/app/product/upload/page.tsx:152 | the condition is sent as its enum name exactly when its text is mapped |
| UploadPage.Payload | src/app/product/upload/page.tsx:146-153 | the category is upper-cased and the images and address are those held by the page |
| UploadPage.PayloadAccepted | src/app/product/upload/page.tsx:146-153 | the route accepts the payload exactly when the inputs are filled, the price is a non-zero number, the condition is a dropdown option, the coordinates are known and the address has a city, state and country |
| UploadPage.OutcomeOf | src/app/product/upload/page.tsx:180-183 | success exactly for a created product; every refusal carries its error text |
| UploadPage.UploadForm.constructor | src/app/product/upload/page.tsx:24-48 | the form starts blank, with no images, position or address |
| UploadPage.UploadForm.PositionFound | src/app/product/upload/page.tsx:53-58 | the position and its coordinate text are stored |
| UploadPage.UploadForm.AddressFound | src/app/product/upload/page.tsx:70-82 | the address is stored and copied into the form |
| UploadPage.UploadForm.InputChanged | src/app/product/upload/page.tsx:93-99 | the form becomes `WithField` of the change |
| UploadPage.UploadForm.HandleFiles | src/app/product/upload/page.tsx:121-133 | the images become the old images followed by the image files' data, in file order |
| UploadPage.UploadForm.RemoveImage | src/app/product/upload/page.tsx:135-137 | the images lose exactly the element at the index |
| UploadPage.UploadForm.HandleSubmit | src/app/product/upload/page.tsx:139-185 | without an address, an error toast and no request; otherwise the payload is sent, a success resets the form and empties the images, a failure toasts the server's error or "Something went wrong!" |
| UploadPage.SecondListingRefused | src/app/product/upload/page.tsx:159-178 | as written, whatever is typed after a successful submit, the next payload lacks a required field |
| UploadPage.ResetKeepingLocation | src/app/product/upload/page.tsx:159-178 | the corrected reset blanks every input and keeps the fetched coordinates and address |
| UploadPage.SecondListingAccepted | src/app/product/upload/page.tsx:159-178 | after the corrected reset, a refilled form is accepted again |
| ProductGrid.CardImage | src/components/custom/product-grid.tsx:58-62 | a card is pictured exactly when the product has an image, and then by its first image |
| ProductGrid.Cards | src/components/custom/product-grid.tsx:37-124 | with the picture guarded, one card per product, in input order |
| ProductGrid.CardsAsWritten | src/components/custom/product-grid.tsx:37-62 | as written, the grid fails to render exactly when some product has no image |
| ProductGrid.ImagelessListingBreaksGrid | src/components/custom/product-grid.tsx:59 | a listing the upload route created from a body without images makes the as-written grid fail wherever it is shown |
| ProductGrid.EveryListingHasACard | src/components/custom/product-grid.tsx:37-62 | with the guard every product gets its card, pictured exactly when it has an image; where every product has one, the grid equals the as-written one |
| ProductGrid.ProductParam | src/components/custom/chat.tsx:100 | a chat link read back gives the text after `/chat?product=` |
| ProductGrid.CardLinks | src/components/custom/product-grid.tsx:110-119 | "Your Listing" exactly when the link is `#`, which is exactly an own listing; otherwise the link opens the chat about this product |
| ProductGrid.ContactIsNeverSelf | src/components/custom/product-grid.tsx:110 | a card of another seller sends this product's id and an owner that is not the viewer, so the conversation route never refuses it as a self-conversation |
| LocationStore.Merge | src/store/location-store.ts:32-50 | falsy persisted data keeps the current state; data older than 30 minutes clears all three fields; otherwise every persisted key overrides |
| LocationStore.ExpiryBoundary | src/store/location-store.ts:5-46 | data exactly 1800000 ms old is kept, and one millisecond older is cleared |
| LocationStore.RehydrateRoundTrip | src/store/location-store.ts:32-49 | a stamped state read back within the expiry time is restored unchanged |
| LocationStore.RehydratedIsFresh | src/store/location-store.ts:37-46 | rehydrating the initial state never gives data older than the expiry time |
| LocationStore.MergeIdempotent | src/store/location-store.ts:32-50 | merging the same data twice equals merging once |
| LocationStore.LocationCache.constructor | src/store/location-store.ts:18-20 | location, address and timestamp start null |
| LocationStore.LocationCache.SetLocation | src/store/location-store.ts:25-26 | the location is set and stamped now; the address stays |
| LocationStore.LocationCache.SetLocationInfo | src/store/location-store.ts:22-23 | the address is set and stamped now; the location stays |
| LocationStore.LocationCache.Rehydrate | src/store/location-store.ts:32-50 | the store becomes `Merge` of the storage data into its state |
| Dashboard.Capitalize | src/app/dashboard/page.tsx:191 | the first character is upper-cased and the rest kept |
| Dashboard.FilterLabels | src/app/dashboard/page.tsx:191 | the labels are "City", "State-District" and "State", one per mode |
| Dashboard.QueryFor | src/app/dashboard/page.tsx:82-90 | the query names the mode's parameter with its address field |
| Dashboard.QueryRequestsOneFilter | src/app/dashboard/page.tsx:82-90 | each mode's query makes the filter route build exactly one filter on its own column, or none for an empty field |
| Dashboard.GeocodeTarget | src/app/dashboard/page.tsx:66-76 | geocoding is asked exactly when a position and no address are cached |
| Dashboard.ProductsQuery | src/app/dashboard/page.tsx:78-90 | no query without an address; otherwise the mode's query |
| Dashboard.ReloadUsesCache | src/app/dashboard/page.tsx:44-79 | within 30 minutes a reload asks for neither position nor address; after that it starts again with geolocation |
| Dashboard.DashboardView.constructor | src/app/dashboard/page.tsx:38-42 | the mode starts as city, with no products and loading shown |
| Dashboard.DashboardView.GeolocationEffect | src/app/dashboard/page.tsx:44-64 | a geolocation request only when no position is cached and geolocation is available |
| Dashboard.DashboardView.PositionFound | src/app/dashboard/page.tsx:49-55 | the position is cached, stamped now |
| Dashboard.DashboardView.ReverseGeocodeEffect | src/app/dashboard/page.tsx:66-76 | a geocoding request for the cached position only when no address is cached |
| Dashboard.DashboardView.AddressFound | src/app/dashboard/page.tsx:72-74 | the address is cached, stamped now |
| Dashboard.DashboardView.ProductsEffect | src/app/dashboard/page.tsx:78-94 | no request without an address; otherwise exactly one query for the mode, and loading is off again before it resolves |
| Dashboard.DashboardView.ProductsLoaded | src/app/dashboard/page.tsx:83 | the response replaces the products |
| Dashboard.DashboardView.SetFilter | src/app/dashboard/page.tsx:154-172 | the mode becomes the chosen one |
| Auth.FindUnique | src/lib/authOptions.ts:24-26 | nothing is found exactly when no user has the email; a found user has it |
| Auth.FoundIsTheOne | src/lib/authOptions.ts:24-26 | under the unique email constraint, looking up a row's email finds that very row |
| Auth.NameOrDefault | src/lib/authOptions.ts:31 | a truthy name is kept, otherwise "user" |
| Auth.SignIn | src/lib/authOptions.ts:17-41 | false and no change without an email or when a call throws; true with no change for a known email; an unknown email with no fault is registered, with the default name and the next id, and true is returned; a failing create returns false with no change |
| Auth.SignInPreservesValid | src/lib/authOptions.ts:24-36 | sign-in keeps emails and ids unique |
| Auth.SignInIdempotent | src/lib/authOptions.ts:24-37 | after a successful sign-in the email is registered and signing in again changes nothing |
| Auth.UserTable.HandleSignIn | src/lib/authOptions.ts:17-41 | the table and the answer are those of `SignIn`; uniqueness kept |
| Auth.JwtClaims | src/lib/authOptions.ts:43-58 | with a sign-in user found by email, id, name, email and picture come from the row (picture undefined for a null image); otherwise the claims stay |
| Auth.TokenAfterSignIn | src/lib/authOptions.ts:43-57 | after a successful sign-in the token holds the provider's email and the id of the one row with it |
| Auth.Token.Jwt | src/lib/authOptions.ts:43-58 | the token becomes `JwtClaims` of its claims; a throwing lookup on sign-in fails the callback and leaves the token unchanged |
| Auth.Session.Callback | src/lib/authOptions.ts:59-67 | when the session has a user, its id, name, email and image are the token's |

## Left out

- Database faults on the conversation listing (GET /api/conversation) and on the filter route, and their 500 replies, are not modelled. These failures are modelled:
  - POST /api/conversation: an unparsable body, a throwing lookup and a throwing or refused create;
  - the upload route: an unparsable body, a rejected upload and a throwing create;
  - the presence route: an unparsable body and a rejected trigger;
  - sign-in: both throwing calls;
  - the JWT callback: its throwing lookup.
- ConversationRoute.Post: a create that is refused or throws uses no id, so the next row gets `nextId`. If the database draws ids from a sequence, a failed insert can use up a value; later ids then still increase but can skip numbers. That gap is not modelled.
- UploadPage.UploadForm.HandleSubmit: the browser's constraint validation is not modelled. The inputs marked `required` (src/app/product/upload/page.tsx:305, 325, 343, 363, 385, 402) keep the browser from calling `handleSubmit` while one of them is empty, while the model also submits such a form and receives the route's 400. The coordinates input is disabled and exempt from that validation.
- PresenceRoute.Post: a rejected trigger is taken to publish nothing; a trigger that reaches subscribers and still rejects is not modelled.
- ConversationRoute.PostPreservesValid: uniqueness of each triple holds for POSTs handled one after another. The route runs `findFirst` and then `create` outside a transaction, so unless the database has a unique index on the triple, two concurrent POSTs for it can both create a row; that interleaving is not modelled.
- ConversationRoute.PostIdempotent: likewise for a repeated POST handled after the first one, not beside it.
- The message store and its send endpoint are not part of this model. Sending is modelled up to the request the view sends and the outcome it receives.
- The joins the routes add (product, profiles, images, selected location columns) are not modelled. Rows carry only the fields the behaviour uses.
- The chat view's `?product=` effect (fetch the product, POST the conversation, select it) is not modelled as view state. Its link and its POST are covered by `ProductGrid.ContactIsNeverSelf`.
- Effect scheduling, interval timing and the race between a history response and a later selection are concurrency. Each callback is a separate method call, and a stale history response is indistinguishable from a current one.
- The key-press handler and purely visual state (search box, view mode, drag highlight) are markup only.
- URL encoding of query strings and of the chat link is not modelled. Values are taken verbatim.
- Unicode beyond ASCII is not modelled. `toLowerCase`/`toUpperCase` and the database's case-insensitive mode map ASCII letters only. `trim` removes the ASCII white space, NBSP and BOM.
- Common.NumberOf: signs, fractions, exponents and surrounding white space are outside the model. They read as NaN.
- UploadRoute.Post: the price is an integer, so the truncation done by `parseInt` on a fractional price is not modelled.
- UploadPage.UploadForm.HandleFiles: each reader's data is appended in file order. Readers finishing out of order are not modelled.
- Floating-point coordinates and their `lat;lon` text are opaque values.
- Date formatting of message times is presentation only.
- Cloudinary URLs are opaque: the n-th upload's URL is a fixed distinct string.
- The conversation id in a presence body is a number or absent. An absent id renders as `undefined`. Other JSON values are not modelled.
- The product's default moderation status is a parameter. The database schema is not part of this model.
- Auth.LookupByEmail: a sign-in user without an email is treated as not found. This case never reaches the JWT callback, because sign-in already refuses it.
- Session signatures, providers and cookies belong to the authentication library.

## Findings

| source | as written | input that shows it | evidently intended | confidence | as-written member | corrected member |
|---|---|---|---|---|---|---|
| src/components/custom/chat.tsx:397-404 | every sidebar row previews `messages`, the open chat's local list, whenever it is non-empty | open conversation 1 with one message; the row of conversation 2 shows that message | each row previews its own conversation's first listed message (the open one: its last local message) | medium, not executed | ChatSession.PreviewLeaksOpenChat | ChatSession.RowPreviewBelongsToChat |
| src/components/custom/chat.tsx:401-402 | with an empty local list a row reads `chat.messages[0].createdAt`, but the listing (src/app/api/conversation/route.ts:23-49) includes no `messages` | any listed conversation while no chat is open | rows without messages render blank | medium, not executed | ChatSession.PreviewOfListedChatFails | ChatSession.RowPreviewOfListedChat |
| src/app/product/upload/page.tsx:159-178 | a successful submit resets `locationCoords` to `''`, and the position is fetched only on mount | submit one listing, fill the form again and submit: the route answers "Missing required fields" | the reset keeps the fetched coordinates and address | medium, not executed | UploadPage.SecondListingRefused | UploadPage.SecondListingAccepted |
| src/components/custom/product-grid.tsx:59 | every card reads `product.images[0].url`, which throws for a product without images; the upload route accepts one (`images \|\| []`, src/app/api/product/upload/route.ts:30) and the page does not require one | list a product without choosing an image; once approved, the dashboard's grid showing it fails to render | a listing without images gets a card without a picture | medium, not executed | ProductGrid.ImagelessListingBreaksGrid | ProductGrid.EveryListingHasACard |
