# Student Nest core rules, modelled in Dafny

Student Nest is a student-housing platform: a Next.js website and an Expo
mobile app. This project models five pieces of its logic and proves
properties about them.

- **Room distance utilities** (`Distance`, file `distance.dfy`):
  - keep the rooms within a radius of the user;
  - rank rooms nearest-first with a stable sort, putting rooms without
    coordinates last;
  - choose between metres and kilometres for display.

  The great-circle distance is a parameter of type
  `(LatLng, LatLng) -> real`. The rules hold for any distance function.
- **Admin amenity and floor repair** (`FixValidation`, file
  `fix_validation.dfy`). This is the `POST /api/admin/fix-validation`
  handler:
  - it checks the bearer token;
  - it scans every room;
  - it repairs a `totalFloors` below 1;
  - it rewrites the amenity list into the canonical vocabulary with
    duplicates removed;
  - it writes only rooms that changed;
  - it reports counts and per-room update errors.
- **Mobile session store** (`AuthStore`, file `auth_store.dfy`). The
  store keeps `isAuthenticated`, `isLoading`, `user` and `token`, with the
  actions `initialize`, `login`, `register`, `logout` and `updateUser`.
  - The store is a class. It holds a `SecureStorage` object with the
    persisted token and user.
  - Each call into storage or the API is given its outcome as a parameter.
- **Mobile route guard** (`AuthProvider`, file `auth_provider.dfy`):
  - the redirect decided from `isLoading`, `isAuthenticated` and the
    route's first segment;
  - the login the provider attempts on mount with what storage holds.
- **Booking payment card** (`BookingPayment`, file `booking_payment.dfy`):
  - the three status tests and the case-insensitive status badge;
  - the PATCH bodies of the online and the offline payment handlers;
  - which notices and offers are shown;
  - the card's `isProcessing` and `showPaymentOptions` flags.

`JsRuntime` (file `js_runtime.dfy`) holds the pieces of JavaScript
behaviour these rely on:
- `undefined`/`null` as `Option`;
- truthiness of strings;
- `toLowerCase`;
- `startsWith`;
- the `\s` class and `replace(/\s+/g, '_')`.

Characters are Unicode scalar values. Strings are `seq<char>`.

Inputs the model takes as parameters:
- The distance function.
- Token verification (`verify` returns a rejection, no payload, or a
  payload with a `userId`).
- The room collection, or its rejection.
- Which room updates fail, and with what message (`updateFailure`).
- Whether each secure-storage call and each API call resolves, and what
  the API returns.
- The two demo accounts. They live outside the modelled files.
- The current time for `paymentDate`.

Observations the proofs make explicit:
- The admin endpoint accepts any token whose payload has a non-empty
  `userId`. There is no role check.
- On mount, `AuthProvider` calls `login(userData.email, token)`, so it
  passes the stored token as the password.
  - `AuthProvider.RemountAfterDemoLogin` shows that this restores a demo
    session only if the account's password equals the token the demo
    login stored.
  - `AuthStore.SessionSurvivesRestart` shows that the store's own
    `initialize` restores the session exactly.
- `getStatusBadge` lower-cases the status, but the confirmed notice tests
  the status exactly. `"CONFIRMED"` therefore gets a green badge but no
  "Booking Confirmed!" notice.

## Model

| member | source | states |
|---|---|---|
| JsRuntime.Truthy | App/src/store/auth.store.ts:60 | a string is truthy exactly when it is not empty |
| JsRuntime.StartsWith | Website/src/app/api/admin/fix-validation/route.ts:39 | `startsWith` is the prefix relation |
| JsRuntime.IsWhitespace | Website/src/app/api/admin/fix-validation/route.ts:94 | the code points `\s` matches: ECMAScript WhiteSpace and LineTerminator |
| JsRuntime.ToLower | Website/src/app/api/admin/fix-validation/route.ts:94 | `toLowerCase` character by character; the length is kept |
| JsRuntime.LowerChar | Website/src/components/booking/BookingPaymentCard.tsx:72 | the lower case of a character is never an ASCII capital and is whitespace exactly when the character is |
| JsRuntime.ToLowerIdempotent | Website/src/app/api/admin/fix-validation/route.ts:94 | lower-casing a lower-cased string changes nothing |
| JsRuntime.ToLowerIdentity | Website/src/app/api/admin/fix-validation/route.ts:94 | a string with no capital letter is its own lower case |
| JsRuntime.SkipWhitespace | Website/src/app/api/admin/fix-validation/route.ts:94 | what follows a leading `\s+` run is a suffix of the input that does not start with whitespace, and every character it drops is whitespace |
| JsRuntime.ReplaceWhitespaceRuns | Website/src/app/api/admin/fix-validation/route.ts:94 | `replace(/\s+/g, '_')` leaves no whitespace and never lengthens the string |
| JsRuntime.SkipWhitespaceRun | Website/src/app/api/admin/fix-validation/route.ts:94 | skipping a whitespace run in front of a string that does not start with whitespace leaves exactly that string |
| JsRuntime.ReplaceWhitespaceRunsKeepsPrefix | Website/src/app/api/admin/fix-validation/route.ts:94 | characters before the first whitespace are copied unchanged |
| JsRuntime.ReplaceWhitespaceRunsOfRun | Website/src/app/api/admin/fix-validation/route.ts:94 | a whole leading whitespace run, however long, becomes one `_` |
| JsRuntime.ReplaceWhitespaceRunsStep | Website/src/app/api/admin/fix-validation/route.ts:94 | for a whitespace-free `u`, a non-empty run `w`, and a `v` that does not start with whitespace, `u + w + v` becomes `u + "_"` followed by the replacement of `v` |
| JsRuntime.ReplaceWhitespaceRunsIdentity | Website/src/app/api/admin/fix-validation/route.ts:94 | a string without whitespace is left unchanged |
| JsRuntime.ReplaceWhitespaceRunsKeepsLower | Website/src/app/api/admin/fix-validation/route.ts:94 | replacing whitespace runs in a string with no capitals introduces none |
| Distance.WithinRadius | Website/src/utils/distance.ts:59-68 | the filter callback: the room has coordinates and its distance is at most the radius |
| Distance.FilterRoomsByDistance | Website/src/utils/distance.ts:58-69 | the result keeps the input order; every kept room has coordinates within the radius; every such room is kept as many times as it occurs |
| Distance.FilterDropsRoomsWithoutCoordinates | Website/src/utils/distance.ts:59 | no room without coordinates survives the filter |
| Distance.FilterWithCoveringRadius | Website/src/utils/distance.ts:58-69 | when the radius covers every located room, the filter keeps exactly the located rooms |
| Distance.Located | Website/src/utils/distance.ts:59 | the rooms with coordinates, in their order, each kept as many times as it occurs; no other room |
| Distance.DistanceOf | Website/src/utils/distance.ts:91-98 | a room's distance, or Infinity when it has no coordinates |
| Distance.Annotate | Website/src/utils/distance.ts:90-101 | each room is paired with its distance, or with Infinity when it has no coordinates |
| Distance.Compare | Website/src/utils/distance.ts:102 | the comparator's sign: zero exactly for equal distances (Infinity against Infinity included), negative exactly when the first distance is nearer |
| Distance.CompareConsistent | Website/src/utils/distance.ts:102 | the comparator is antisymmetric and transitive, so it is a consistent order |
| Distance.AtDistance | Website/src/utils/distance.ts:102 | the entries at one distance, in order |
| Distance.AtDistanceSelects | Website/src/utils/distance.ts:102 | the entries at one distance keep their order, each as many times as it occurs, and nothing else is included |
| Distance.Insert | Website/src/utils/distance.ts:102 | inserting into the sorted prefix adds exactly the one element |
| Distance.InsertSorted | Website/src/utils/distance.ts:102 | inserting into a sorted list keeps it sorted |
| Distance.InsertStable | Website/src/utils/distance.ts:102 | inserting keeps the order among entries at equal distance |
| Distance.StableSort | Website/src/utils/distance.ts:102 | the sort returns a sorted permutation of its input |
| Distance.StableSortStable | Website/src/utils/distance.ts:102 | entries at each distance keep their input order |
| Distance.SortedStableUnique | Website/src/utils/distance.ts:102 | any two sorted lists with the same entries at every distance, in the same order, are equal, so a stable sort has exactly one result |
| Distance.SortRoomsByDistance | Website/src/utils/distance.ts:89-102 | the result is a nearest-first permutation of the annotated rooms, each carrying its own distance |
| Distance.SortRoomsStable | Website/src/utils/distance.ts:89-102 | rooms at equal distance keep their input order |
| Distance.SortPutsMissingCoordinatesLast | Website/src/utils/distance.ts:91-98 | every room with coordinates comes before every room without |
| Distance.SortRoomsDeterminate | Website/src/utils/distance.ts:102 | any sorted and stable arrangement of the rooms equals the one computed |
| Distance.FilterAgreesWithSort | Website/src/utils/distance.ts:58-102 | a room is within the radius exactly when it appears in the ranking with a finite distance no larger than the radius |
| Distance.Round | Website/src/utils/distance.ts:112 | `Math.round` gives the integer within half a unit |
| Distance.FormatDistance | Website/src/utils/distance.ts:110-114 | metres exactly below 1 km, holding the rounded metre count; otherwise kilometres, holding the distance |
| Distance.FormatDistanceMetreRange | Website/src/utils/distance.ts:111-112 | below 1 km the metre count lies in 0..1000, and reaches 1000 from 0.9995 km |
| FixValidation.MappingTargetsValid | Website/src/app/api/admin/fix-validation/route.ts:6-29 | every mapping target is a valid amenity |
| FixValidation.MappingTargetsLowerCase | Website/src/app/api/admin/fix-validation/route.ts:15-29 | every mapping target is lower case |
| FixValidation.Canonical | Website/src/app/api/admin/fix-validation/route.ts:94 | the normalised spelling has no capitals and no whitespace |
| FixValidation.CanonicalExample | Website/src/app/api/admin/fix-validation/route.ts:94-97 | `"Swimming  Pool"` normalises to `"swimming_pool"` |
| FixValidation.NormaliseAmenity | Website/src/app/api/admin/fix-validation/route.ts:82-100 | a valid name is kept; otherwise the mapped name is used; otherwise the normalised spelling is used if valid; otherwise nothing; every result is valid |
| FixValidation.CamelCaseOnlyVerbatim | Website/src/app/api/admin/fix-validation/route.ts:83-97 | `powerBackup`, `washingMachine` and `fireExtinguisher` are produced only from themselves: no other spelling normalises to them |
| FixValidation.NormaliseList | Website/src/app/api/admin/fix-validation/route.ts:81-101 | the mapped and filtered list holds only valid amenities and is no longer than the input |
| FixValidation.NormaliseListOfValid | Website/src/app/api/admin/fix-validation/route.ts:81-101 | a list of valid amenities passes through unchanged |
| FixValidation.NormaliseListAppend | Website/src/app/api/admin/fix-validation/route.ts:81-101 | the list of a concatenation is the concatenation of the lists: each name is mapped on its own and the order is kept |
| FixValidation.NormaliseListSingle | Website/src/app/api/admin/fix-validation/route.ts:81-101 | one name becomes the name it normalises to, or nothing when `filter(Boolean)` drops it |
| FixValidation.NormaliseListMembers | Website/src/app/api/admin/fix-validation/route.ts:81-101 | a name is in the list exactly when some input normalises to it |
| FixValidation.FirstIndex | Website/src/app/api/admin/fix-validation/route.ts:103 | the position of the first occurrence |
| FixValidation.DedupeAfter | Website/src/app/api/admin/fix-validation/route.ts:103 | the elements not yet seen, each once |
| FixValidation.Dedupe | Website/src/app/api/admin/fix-validation/route.ts:103 | `[...new Set(xs)]` has no duplicates and the same members as `xs` |
| FixValidation.DedupeFirstOccurrenceOrder | Website/src/app/api/admin/fix-validation/route.ts:103 | the distinct elements come in the order of their first occurrence |
| FixValidation.DedupeAfterFirstOccurrenceOrder | Website/src/app/api/admin/fix-validation/route.ts:103 | the same, for the inductive step |
| FixValidation.DedupeAfterOfDistinct | Website/src/app/api/admin/fix-validation/route.ts:103 | a list without duplicates and without already-seen elements is unchanged |
| FixValidation.FixAmenities | Website/src/app/api/admin/fix-validation/route.ts:81-103 | the repaired list is valid, duplicate-free and no longer than the input |
| FixValidation.FixAmenitiesFixpoint | Website/src/app/api/admin/fix-validation/route.ts:81-108 | a list is left unchanged exactly when it is already valid and duplicate-free, which is when no amenity update is written |
| FixValidation.FixAmenitiesIdempotent | Website/src/app/api/admin/fix-validation/route.ts:81-108 | repairing twice is repairing once, so a second run fixes no amenities |
| FixValidation.FixAmenitiesMembers | Website/src/app/api/admin/fix-validation/route.ts:81-103 | an amenity is in the repaired list exactly when some input normalises to it |
| FixValidation.FloorOrZero | Website/src/app/api/admin/fix-validation/route.ts:74 | the fallback to 0 of the current floor: absent, null and 0 read as 0 |
| FixValidation.NeedsFloorFix | Website/src/app/api/admin/fix-validation/route.ts:73 | a present `totalFloors` below 1, with null included because `null < 1` holds |
| FixValidation.TotalFloorsFix | Website/src/app/api/admin/fix-validation/route.ts:73-77 | a fix happens exactly for a present `totalFloors` below 1 (null included); the value is `Math.max(floor + 1, 1)` over JavaScript numbers, so it is at least 1 and at least the current floor plus 1, is one of those two, and needs no further fix |
| FixValidation.AmenitiesUpdate | Website/src/app/api/admin/fix-validation/route.ts:80-108 | an amenity update is written exactly when the repaired list differs from the stored one, and it is the repaired list |
| FixValidation.UpdateFor | Website/src/app/api/admin/fix-validation/route.ts:70-109 | the `updates` object for one room: the floor fix and the amenity update |
| FixValidation.ErrorLine | Website/src/app/api/admin/fix-validation/route.ts:116 | the error line `Failed to update room <id>: <message>` |
| FixValidation.CountFloorFixes | Website/src/app/api/admin/fix-validation/route.ts:76 | the floor-fix count is at most the room count |
| FixValidation.CountAmenityFixes | Website/src/app/api/admin/fix-validation/route.ts:107 | the amenity-fix count is at most the room count |
| FixValidation.WritesFor | Website/src/app/api/admin/fix-validation/route.ts:111-118 | at most one update per room |
| FixValidation.ErrorsFor | Website/src/app/api/admin/fix-validation/route.ts:113-117 | at most one error line per attempted update |
| FixValidation.FixRooms | Website/src/app/api/admin/fix-validation/route.ts:58-119 | the loop's counters, writes and error lines equal the per-room specification over all rooms |
| FixValidation.WritesAreClean | Website/src/app/api/admin/fix-validation/route.ts:73-118 | every write is non-empty, writes only valid duplicate-free amenities, and writes only floor counts of at least 1 |
| FixValidation.WritesCountFixedRooms | Website/src/app/api/admin/fix-validation/route.ts:76-112 | the number of writes lies between each fix count and their sum |
| FixValidation.Post | Website/src/app/api/admin/fix-validation/route.ts:35-135 | 401 without a bearer header or with a payload lacking `userId`; 500 when verification or the database fails; otherwise 200 with the loop's results; no write on any of these error paths, all of which arise before the loop |
| FixValidation.MappingLookupAsWritten | Website/src/app/api/admin/fix-validation/route.ts:88 | `AMENITY_MAPPING[amenity]` as written: own keys give their string, and `Object.prototype` members give the inherited value |
| FixValidation.NormaliseAmenityAsWritten | Website/src/app/api/admin/fix-validation/route.ts:82-100 | the as-written lookup, including inherited object keys; it agrees with the corrected lookup on every name that is not an `Object.prototype` member |
| FixValidation.InheritedKeyEscapesAsWritten | Website/src/app/api/admin/fix-validation/route.ts:88-91 | as written, `"constructor"` maps to the inherited function; with own keys only, it is dropped |
| AuthStore.DemoUser | App/src/store/auth.store.ts:67-73 | the demo user record: id, name, email and role |
| AuthStore.SignupEndpoint | App/src/store/auth.store.ts:131-133 | `/auth/student/signup` for students, `/auth/owner/signup` otherwise |
| AuthStore.RefusalMessage | App/src/store/auth.store.ts:141 | the server's error when it is truthy, otherwise the fallback message |
| AuthStore.Merge | App/src/store/auth.store.ts:191 | the merged user has the union of both field sets; the server's fields win; other existing fields are kept |
| AuthStore.Store.constructor | App/src/store/auth.store.ts:33-37 | the initial state is signed out and loading, with no user and no token |
| AuthStore.Store.Initialize | App/src/store/auth.store.ts:39-54 | authenticated exactly when both reads resolve and a truthy token and a user are stored; the session is then those values; otherwise it is cleared; loading ends |
| AuthStore.Store.Persist | App/src/store/auth.store.ts:77-80 | each storage write that resolves takes effect; the pair succeeds exactly when both do |
| AuthStore.Store.IsDemo | App/src/store/auth.store.ts:65-92 | the credentials equal the student pair or the owner pair |
| AuthStore.Store.DemoSession | App/src/store/auth.store.ts:65-116 | the student account gets `s1`, `Demo Student`, role `student` and `mock-token-student`; the owner account gets `o1`, `Demo Owner`, role `owner` and `mock-token-owner` |
| AuthStore.Store.Login | App/src/store/auth.store.ts:56-125 | empty or unknown credentials fail and change neither the session nor storage; a demo account is stored and adopted when both writes succeed; any failure keeps the session; loading always ends; the invariant is kept |
| AuthStore.Store.Register | App/src/store/auth.store.ts:127-160 | posts to the role's signup endpoint; adopts the server's token and user exactly when the reply succeeds, carries both, and both writes succeed; each failure (request, refusal with its message, missing data, missing token or user) keeps the session |
| AuthStore.Store.Logout | App/src/store/auth.store.ts:162-177 | when `clearAuth` resolves, the session and storage are cleared and loading ends, whatever the server call did; when it rejects, nothing else changes |
| AuthStore.Store.UpdateUser | App/src/store/auth.store.ts:179-198 | on success the user becomes the current one with the server's fields spread over it, and is stored; otherwise the user and storage are unchanged, and the failure reason (request, refusal with its message, missing data, storage) is given; the token and authentication never change |
| AuthStore.SessionSurvivesRestart | App/src/store/auth.store.ts:39-125 | a persisted demo login is restored by `initialize` after a restart, bringing back the same token and user |
| AuthProvider.InPublicGroup | App/components/providers/auth-provider.tsx:36-37 | the first segment is `(auth)` or `(landing)`; an empty route is in neither |
| AuthProvider.HomeRoute | App/components/providers/auth-provider.tsx:51 | both arms of the role test give `/(drawer)/home` |
| AuthProvider.Redirect | App/components/providers/auth-provider.tsx:33-61 | no redirect while loading; `/(landing)` exactly for a signed-out user outside `(auth)` and `(landing)`; `/(drawer)/home` exactly for a signed-in user inside them; nothing otherwise |
| AuthProvider.RedirectIffNotAllowed | App/components/providers/auth-provider.tsx:36-53 | once loaded, the guard leaves a route alone exactly when the session may stay there |
| AuthProvider.RedirectIgnoresRole | App/components/providers/auth-provider.tsx:51 | the role never changes where the guard sends the user |
| AuthProvider.FirstSegment | App/components/providers/auth-provider.tsx:36-37 | the first segment of an absolute path is a non-empty prefix without `/` |
| AuthProvider.LandingTargetSegment | App/components/providers/auth-provider.tsx:44 | `/(landing)` lies in the landing group |
| AuthProvider.HomeTargetSegment | App/components/providers/auth-provider.tsx:51-52 | `/(drawer)/home` lies in the drawer group |
| AuthProvider.RedirectSettles | App/components/providers/auth-provider.tsx:39-58 | on the route a redirect leads to, the guard makes no further redirect |
| AuthProvider.InitLogin | App/components/providers/auth-provider.tsx:14-26 | a login is attempted exactly when both reads resolve and a truthy token and user data are stored, with the stored email and the token as password |
| AuthProvider.InitializeProvider | App/components/providers/auth-provider.tsx:12-30 | the mount effect's login succeeds exactly when the stored email and token form a demo account and both writes succeed, and the store then holds that demo session; a failed attempt keeps the session; loading ends after any attempt; without an attempt nothing changes |
| AuthProvider.RemountAfterDemoLogin | App/components/providers/auth-provider.tsx:21-23 | after a demo login, the next mount restores the session exactly when the account's password is the token that was stored |
| BookingPayment.IsPaymentPending | Website/src/components/booking/BookingPaymentCard.tsx:57 | both `paymentStatus` and `status` are exactly `pending` |
| BookingPayment.IsPaymentPaid | Website/src/components/booking/BookingPaymentCard.tsx:58 | `paymentStatus` is exactly `paid` |
| BookingPayment.IsBookingConfirmed | Website/src/components/booking/BookingPaymentCard.tsx:59 | `status` is exactly `confirmed` or `active` |
| BookingPayment.BadgeClasses | Website/src/components/booking/BookingPaymentCard.tsx:73-82 | the CSS classes of each badge colour |
| BookingPayment.StatusBadge | Website/src/components/booking/BookingPaymentCard.tsx:71-84 | green for confirmed or active, yellow for pending, red for cancelled or rejected, compared after lower-casing; gray otherwise, including a missing status |
| BookingPayment.StatusBadgeIgnoresCase | Website/src/components/booking/BookingPaymentCard.tsx:72 | a status and its lower-cased form get the same colour |
| BookingPayment.StatusBadgeCaseInsensitive | Website/src/components/booking/BookingPaymentCard.tsx:72 | statuses equal up to case get the same colour |
| BookingPayment.StatusTestsAgreeWithBadge | Website/src/components/booking/BookingPaymentCard.tsx:57-84 | a confirmed booking is green and a booking awaiting payment is yellow |
| BookingPayment.BookingPath | Website/src/components/booking/BookingPaymentCard.tsx:91 | the URL `/api/bookings/<id>` both handlers patch |
| BookingPayment.OnlinePatch | Website/src/components/booking/BookingPaymentCard.tsx:93-103 | paid and confirmed, online, with the payment id, and with the booking's total, deposit and rent as the amounts paid |
| BookingPayment.OfflinePatch | Website/src/components/booking/BookingPaymentCard.tsx:129-137 | pending and pending, offline, with the student note |
| BookingPayment.ApplyPatch | Website/src/components/booking/BookingPaymentCard.tsx:91-105 | the stored booking takes its statuses and payment method from the patch |
| BookingPayment.ShowsPaymentPrompt | Website/src/components/booking/BookingPaymentCard.tsx:232-250 | the payment alert and the "Choose Payment Method" button: pending, options hidden |
| BookingPayment.ShowsPaymentOptions | Website/src/components/booking/BookingPaymentCard.tsx:253 | the options panel: options shown and pending |
| BookingPayment.ShowsConfirmedNotice | Website/src/components/booking/BookingPaymentCard.tsx:366 | the confirmed notice: confirmed or active, and paid |
| BookingPayment.ShowsOfflineNotice | Website/src/components/booking/BookingPaymentCard.tsx:376 | the offline notice: offline method and not paid |
| BookingPayment.PaymentOffersOnlyWhilePending | Website/src/components/booking/BookingPaymentCard.tsx:232-253 | a pending booking shows exactly one of the prompt and the options panel; any other booking shows neither |
| BookingPayment.NoticesExclusive | Website/src/components/booking/BookingPaymentCard.tsx:366-376 | the confirmed and the offline notices never appear together, and a confirmed booking is offered no payment |
| BookingPayment.OnlinePatchConfirms | Website/src/components/booking/BookingPaymentCard.tsx:93-103 | after the online patch, the booking shows the confirmed notice and a green badge, and no payment offer |
| BookingPayment.OfflinePatchStaysPending | Website/src/components/booking/BookingPaymentCard.tsx:129-137 | after the offline patch, the booking is never confirmed, still awaits payment, and shows the offline notice and a yellow badge |
| BookingPayment.OnlineToast | Website/src/components/booking/BookingPaymentCard.tsx:107-116 | a success toast exactly when the reply succeeds, with the success text; a rejected request and a refusal each show their own fixed error text |
| BookingPayment.OfflineToast | Website/src/components/booking/BookingPaymentCard.tsx:140-151 | a success toast exactly when the reply succeeds, with the success text; a rejected request shows the fixed failure text and a refusal the server's error or the default message |
| BookingPayment.PaymentCard.constructor | Website/src/components/booking/BookingPaymentCard.tsx:52-54 | online, not processing, options hidden |
| BookingPayment.PaymentCard.OpenOptions | Website/src/components/booking/BookingPaymentCard.tsx:245 | shows the options and changes nothing else |
| BookingPayment.PaymentCard.CancelOptions | Website/src/components/booking/BookingPaymentCard.tsx:315 | hides the options and changes nothing else |
| BookingPayment.PaymentCard.ChooseMethod | Website/src/components/booking/BookingPaymentCard.tsx:257 | sets the method and changes nothing else |
| BookingPayment.PaymentCard.HandleOnlinePaymentSuccess | Website/src/components/booking/BookingPaymentCard.tsx:87-121 | sends the online patch to the booking's URL; picks the toast and the callbacks by the reply; ends with both flags false whatever the reply |
| BookingPayment.PaymentCard.HandleOfflinePayment | Website/src/components/booking/BookingPaymentCard.tsx:124-156 | sends the offline patch to the booking's URL; picks the toast and the callback by the reply; ends with both flags false whatever the reply |
| BookingPayment.ChooseOfflineFlow | Website/src/components/booking/BookingPaymentCard.tsx:124-156 | choosing offline for a pending booking returns the card to rest; the reloaded booking shows the offline notice and the payment prompt again |

## Left out

- `calculateDistance` (Website/src/utils/distance.ts:9-30) and `toRadians` (Website/src/utils/distance.ts:35-37) are not modelled; the distance is an abstract function parameter. This is floating-point trigonometry.
- Distance.FilterRoomsByDistance: a NaN distance is not modelled; in JavaScript it fails `<= radiusKm`, so such a room is dropped.
- Distance.SortRoomsByDistance: a NaN distance is not modelled. Against it, `a.distance - b.distance` is NaN, which SortCompare reads as +0, so the comparator is no longer a consistent order and the resulting order is implementation-defined.
- Distance.FormatDistance: the `"${n} m"` and `toFixed(1)` text is not modelled; the result is the chosen unit and its number.
- FixValidation.FixAmenities: built on the corrected own-key lookup `FixValidation.NormaliseAmenity`. As written, the twelve `Object.prototype` names (e.g. `"constructor"`) map to an inherited function or object (`__proto__` gives `Object.prototype` itself). That function survives `filter(Boolean)`, so "the repaired list is valid" does not hold of the source for those names (see Findings).
- FixValidation.AmenitiesUpdate: built on the corrected lookup. As written, `["constructor"]` becomes a list holding a function, which `JSON.stringify` renders as `[null]`. The source therefore records and counts an update that the model does not.
- FixValidation.FixRooms: built on the corrected lookup, so its counts and writes differ from the source's for rooms holding `Object.prototype` names.
- FixValidation.Post: built on the corrected lookup (as above). Also, an exception inside the loop, such as `toLowerCase` on a non-string amenity, yields the 500 only after `updateOne` has already run for the earlier rooms, and those writes stand. The model's "no write on any error path" covers only the errors raised before the loop.
- FixValidation.TotalFloorsFix: numbers are finite reals; NaN and non-numeric field values are not modelled.
- FixValidation.NormaliseAmenity: amenity elements that are not strings are not modelled. Calling `toLowerCase` on them throws, and the whole request ends in 500.
- FixValidation.Post: the `details` field of the 500 response, which is present only in development mode, is left out.
- FixValidation.Post: the JWT check, `connectDB`, `Room.find` and `Room.updateOne` are parameters. A rejected `updateOne` is reported through `updateFailure`.
- JsRuntime.LowerChar: covers the ASCII capitals and KELVIN SIGN only. Every string it is compared with is ASCII, so no comparison outcome depends on the rest of Unicode case mapping.
- Strings are sequences of Unicode scalar values, not UTF-16 code units.
- AuthStore.Store.Logout: the session is cleared only when `clearAuth` resolves. When it rejects, the `finally` block rethrows before its `set`, so `isLoading` stays true. A partial clear of storage is not modelled.
- AuthStore.Store.Login: the rethrown error's message text is not modelled; the reason is an `AuthError` value.
- AuthStore: `isLoading = true` during an awaited call is an intermediate state that each method overwrites before it returns. Interleaving with other actions during the await is not modelled.
- AuthStore: the demo credentials file is not part of this model. The accounts are a parameter of the store.
- AuthProvider.InitializeProvider: the login is not awaited in the source, and its rejection goes unhandled. The model runs it to completion.
- AuthProvider: `console.log` and the navigation `try`/`catch` (App/components/providers/auth-provider.tsx:55-57) are left out. `router.replace` is the returned target.
- AuthProvider.FirstSegment: assumes the router's first segment of a path is its first path component.
- BookingPayment.ApplyPatch: the booking PATCH route is not part of this model. The card is assumed to reload the booking with the statuses and payment method it sent.
- BookingPayment.PaymentCard: `isProcessing` being true during the await is not observable in the model; every method returns at rest. The handler methods return the callbacks to call, and leave calling them to the caller.
- The card's markup, date formatting, Razorpay checkout and toast display are left out; only the conditions that choose what is shown are modelled.

## Findings

| source | as written | input that shows it | evidently intended | confidence | as-written member | corrected member |
|---|---|---|---|---|---|---|
| Website/src/app/api/admin/fix-validation/route.ts:88-91 | `AMENITY_MAPPING[amenity]` also finds properties a plain object inherits, so an inherited function (or, for `__proto__`, `Object.prototype`) is truthy and is returned as the "mapped" amenity | a room whose amenities contain `"constructor"` (also `"toString"`, `"valueOf"`, `"hasOwnProperty"`, ...) | only the mapping's own keys are looked up, and such a name is dropped as invalid | not executed | FixValidation.NormaliseAmenityAsWritten, FixValidation.InheritedKeyEscapesAsWritten | FixValidation.NormaliseAmenity |
