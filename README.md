# Checklist client state, modelled in Dafny

This project models the state layer of a React/Redux checklist client. The
layer has three Redux Toolkit slices and the route guard in front of the
signed-in pages:

- **Checklist cache** (`ChecklistSlice`). A flat list of checklists with a
  request `status` and `error`.
  - The fetch payload is chosen by truthiness: `data`, then `items`, then the
    bare body.
  - Fetching replaces the list, or empties it when the payload is not an array.
  - Creating appends a checklist; deleting filters the list by id.
- **Checklist-item cache** (`ChecklistItemSlice`). A flat `items` list, the
  last fetched list per checklist (`itemsByChecklistId`), a loading flag per
  checklist (`loadingItems`), and `status` and `error`.
  - The fetch payload goes through an `Array.isArray` ladder: the bare array,
    then `data`, then `items`, else `[]`.
  - Create, status change, rename and delete act on the flat `items` list only.
  - Status change and rename write the first item whose id matches.
- **Session** (`AuthSlice`). `token`, `username`, `status` and `error`,
  mirrored into local storage under `token`, `username` and `tokenExpiry`.
  - Login stores a token that is valid for one hour.
  - Registration never logs anyone in.
  - Logout clears the identity and its storage keys.
- **Route guard** (`App.PrivateRoute`). A function of the storage map and the
  clock reading.
  - It lets the pages render while a token is stored.
  - It purges `token` and `tokenExpiry` and redirects to login once the stored
    expiry has passed.

Each slice is a class whose fields are the slice's state. Its methods are the
reducer cases, plus a `Dispatch` method for the whole reducer. Each method's
`ensures` gives the complete new state. In the session, `Pending` serves both
`login.pending` and `register.pending`, and `Rejected` serves both rejected
cases, because the source gives each pair the same body.

The thunks' request-to-action logic is pure, so each thunk is a function from
an `HttpResult` to the `Phase` (pending, fulfilled or rejected action) it
dispatches.

Supporting modules:

- `JsValues` models the JavaScript values involved: truthiness, `||`,
  property reads that throw on null, strict-mode writes, `===` and `String(v)`.
- `IdLists` models the searches and the filter by id. Both caches delete with
  `filter`; only the item cache searches, with `find` for a status change and
  `findIndex` for a rename. These are loops, so they are methods proved
  against recursive specification functions.
- `JsNumbers` models `String(n)` and `parseInt`, which the expiry goes through
  on its way into and out of storage.
- `WebStorage` models local storage.
- `AsyncThunks` models the toolkit's lifecycle actions.

A reducer callback that throws changes nothing: Redux discards the draft when
that happens. This covers a `find` or `filter` that reaches a null element, and
a field write on a primitive.

## Model

| member | source | states |
|---|---|---|
| JsNumbers.IntToString | src/store/features/authSlice.js:74-75 | the string written for the expiry is non-empty, starts with `-` exactly for negative numbers, and has no leading zero |
| JsNumbers.ParseInt | src/App.jsx:12 | `parseInt` of the empty string is NaN; a string that starts with a digit from 1 to 9 reads as a non-negative number; a string that starts with neither white space, a sign nor a decimal digit reads as NaN |
| JsNumbers.ParseIntRoundTrip | src/App.jsx:12 | `parseInt` of the string written for any integer reads back that integer, so the guard compares against the instant login stored |
| JsNumbers.LeadingSpaceSkipped | src/App.jsx:12 | white space before the stored expiry does not change what `parseInt` reads |
| JsNumbers.DigitsValueOfNaturalDigits | src/store/features/authSlice.js:74-75 | the decimal digits written for `n` denote `n` |
| JsNumbers.ParseUnsignedOfNaturalDigits | src/App.jsx:12 | the digits written for a natural number are read as that number, not as a hexadecimal prefix |
| JsValues.Truthy | src/store/features/checklistSlice.js:14-18 | a value is falsy exactly when it is undefined, null, false, 0 or the empty string, so `[]` and `{}` are truthy |
| JsValues.Or | src/store/features/checklistSlice.js:14-18 | `a || b` is one of its operands: `a` when `a` is truthy. It is truthy exactly when either operand is |
| JsValues.StrictEquals | src/store/features/checklistItemSlice.js:130 | `===` holds exactly for equal values that are not arrays or objects |
| JsValues.ArrayElems | src/store/features/checklistSlice.js:64-71 | an array payload gives its elements and anything else gives the empty list |
| JsValues.GetOpt | src/store/features/authSlice.js:14 | `v?.key` is undefined on null or undefined, and otherwise reads what `v.key` reads |
| JsValues.Get | src/store/features/checklistSlice.js:14-18 | a property read throws exactly on null or undefined; a present field reads its value; a field an object lacks, or any field of a primitive, reads undefined |
| JsValues.SetField | src/store/features/checklistItemSlice.js:132 | a field write throws exactly on a primitive, and an object gets that one field replaced |
| JsValues.ToJsString | src/store/features/authSlice.js:70-75 | storing a string keeps it as is, and storing a number stores its decimal digits |
| WebStorage.GetItem | src/App.jsx:9-10 | reading a key gives null exactly when it is absent, else the stored string |
| WebStorage.SetItem | src/store/features/authSlice.js:70-75 | writing a key stores `String(v)` under it and keeps every other key and value |
| WebStorage.RemoveItem | src/store/features/authSlice.js:50-52 | removing a key drops exactly that key and keeps every other value |
| AsyncThunks.RejectWithValue | src/store/features/checklistSlice.js:20 | `rejectWithValue(p)` dispatches a rejected action whose payload is `p` and whose error message is "Rejected" |
| AsyncThunks.RejectWithError | src/store/features/checklistSlice.js:41-47 | a thunk with no `catch` rejects with no payload and the request error's own message |
| IdLists.Matches | src/store/features/checklistItemSlice.js:130 | the callback `i.id === id` holds exactly when the element is not null or undefined, its `id` equals `id`, and `id` is neither an array nor an object |
| IdLists.FindById | src/store/features/checklistItemSlice.js:136-138 | a search ends at the first matching index with no null element before it; it ends past the end when nothing matches; it throws exactly when a null element comes first |
| IdLists.FindIndex | src/store/features/checklistItemSlice.js:136-138 | the `findIndex` loop returns what the search specification returns |
| IdLists.WithoutId | src/store/features/checklistItemSlice.js:144 | the filtered list holds only non-matching elements of the list, and every non-matching element is kept |
| IdLists.FilterById | src/store/features/checklistItemSlice.js:144 | the `filter` loop returns the filtered list, or the list unchanged when a null element makes the callback throw |
| IdLists.WithoutIdAppend | src/store/features/checklistItemSlice.js:144 | filtering a concatenation is concatenating the filtered parts |
| IdLists.WithoutAbsentId | src/store/features/checklistItemSlice.js:144 | filtering by an id nobody carries keeps the list |
| IdLists.Deleted | src/store/features/checklistSlice.js:82 | the list after delete is no longer than before and holds only elements of the list; none of them matches the id; when a null element makes the callback throw, the list is unchanged |
| IdLists.DeletedWhenThrows | src/store/features/checklistItemSlice.js:144 | a null or undefined element anywhere in the list makes delete return the list as it was |
| IdLists.DeleteAppendedMatch | src/store/features/checklistSlice.js:78-83 | appending an element that matches an id nobody else carries, then deleting that id, gives back the list |
| IdLists.DeletedRemovesExactly | src/store/features/checklistSlice.js:82 | after delete, an element is present if and only if it was present and its id does not match |
| IdLists.DeletedAbsent | src/store/features/checklistSlice.js:82 | deleting an absent id changes nothing |
| IdLists.DeletedIdempotent | src/store/features/checklistSlice.js:82 | deleting twice is deleting once |
| IdLists.DeletedKeepsOrder | src/store/features/checklistItemSlice.js:144 | the survivors keep their original order |
| ChecklistSlice.Envelope | src/store/features/checklistSlice.js:14-18 | the payload is `data` when truthy, else `items` when truthy, else the body; a null body throws |
| ChecklistSlice.FetchChecklistsOutcome | src/store/features/checklistSlice.js:4-23 | a fetch fulfils exactly on a non-null response body, with the envelope; an error rejects with the error's response body and the message "Rejected" |
| ChecklistSlice.CreateChecklistOutcome | src/store/features/checklistSlice.js:25-39 | a created checklist is exactly `{id, name}`, with the id from the server and the name from the caller |
| ChecklistSlice.DeleteChecklistOutcome | src/store/features/checklistSlice.js:41-47 | delete fulfils exactly when the request succeeds, with the id it was given |
| ChecklistSlice.ChecklistCache.constructor | src/store/features/checklistSlice.js:51-55 | the initial state is an empty list, idle, and no error |
| ChecklistSlice.ChecklistCache.FetchPending | src/store/features/checklistSlice.js:59-61 | pending sets only the status to loading; the list and the error stay |
| ChecklistSlice.ChecklistCache.FetchFulfilled | src/store/features/checklistSlice.js:62-73 | fulfilled sets the status to succeeded, and the list to the payload when it is an array, else to empty |
| ChecklistSlice.ChecklistCache.FetchRejected | src/store/features/checklistSlice.js:74-77 | rejected sets the status to failed and records the error message; the cached list stays |
| ChecklistSlice.ChecklistCache.CreateFulfilled | src/store/features/checklistSlice.js:78-80 | a created checklist is appended last and the earlier ones stay |
| ChecklistSlice.ChecklistCache.DeleteFulfilled | src/store/features/checklistSlice.js:81-83 | delete leaves the list filtered by the id |
| ChecklistSlice.ChecklistCache.Dispatch | src/store/features/checklistSlice.js:57-84 | the reducer gives each handled action its state change, and leaves the state alone for create and delete pending or rejected |
| ChecklistSlice.DeleteUndoesCreate | src/store/features/checklistSlice.js:78-83 | deleting the primitive id a create returned removes the created checklist again |
| ChecklistSlice.FetchShapesAgree | src/store/features/checklistSlice.js:14-18 | a bare array, `{data: array}` and `{items: array}` give the same list |
| ChecklistSlice.TruthyDataHidesItems | src/store/features/checklistSlice.js:14-18 | a truthy non-array `data` wins over an `items` array, and the stored list is then empty |
| ChecklistItemSlice.KeyOf | src/store/features/checklistItemSlice.js:105-106 | a string checklist id is its own map key, and a numeric id keys the entry its decimal string keys, so the numeric id and the route parameter name the same entry |
| ChecklistItemSlice.ItemsEnvelope | src/store/features/checklistItemSlice.js:16-25 | the payload is always an array: the bare array, else `data`, else `items` if an array, else empty |
| ChecklistItemSlice.FetchItemsOutcome | src/store/features/checklistItemSlice.js:4-31 | an item fetch fulfils exactly on a non-null body, always with an array; an error rejects with the error's response body |
| ChecklistItemSlice.CreateItemOutcome | src/store/features/checklistItemSlice.js:33-52 | a new item is `{id, name, status: false}`, with the server id when truthy, else the clock reading, and the caller's name |
| ChecklistItemSlice.UpdateStatusOutcome | src/store/features/checklistItemSlice.js:54-62 | a status change fulfils exactly when the request succeeds, with the item id and the new status |
| ChecklistItemSlice.UpdateNameOutcome | src/store/features/checklistItemSlice.js:64-82 | a rename fulfils exactly when the request succeeds, with the item id and the caller's name; an error rejects with its response body |
| ChecklistItemSlice.DeleteItemOutcome | src/store/features/checklistItemSlice.js:84-90 | an item delete fulfils exactly when the request succeeds, with the item id |
| ChecklistItemSlice.WithStatus | src/store/features/checklistItemSlice.js:129-134 | only the first matching item gets the new status and every other item stays; with no match the list is unchanged |
| ChecklistItemSlice.WithName | src/store/features/checklistItemSlice.js:135-142 | only the first matching item gets the new name and every other item stays; with no match the list is unchanged |
| ChecklistItemSlice.StatusChangeReadsBack | src/store/features/checklistItemSlice.js:129-134 | the changed item reads back the new status and keeps its id and name |
| ChecklistItemSlice.StatusChangeIdempotent | src/store/features/checklistItemSlice.js:129-134 | applying the same status change twice is applying it once |
| ChecklistItemSlice.RenameKeepsIdAndStatus | src/store/features/checklistItemSlice.js:135-142 | the renamed item reads back the new name and keeps its id and status |
| ChecklistItemSlice.RenameIdempotent | src/store/features/checklistItemSlice.js:135-142 | applying the same rename twice is applying it once |
| ChecklistItemSlice.FindByIdAt | src/store/features/checklistItemSlice.js:136-138 | the search ends at any index that matches with only readable, non-matching elements before it |
| ChecklistItemSlice.FindByIdAfterWrite | src/store/features/checklistItemSlice.js:129-142 | writing a field other than `id` keeps the written item as the first match |
| ChecklistItemSlice.FetchedListIsStored | src/store/features/checklistItemSlice.js:117 | a fulfilled item fetch always carries an array, so the reducer stores it as is |
| ChecklistItemSlice.FetchShapesAgree | src/store/features/checklistItemSlice.js:16-25 | a bare array, `{data: array}` and `{items: array}` give the same list |
| ChecklistItemSlice.DeleteUndoesCreate | src/store/features/checklistItemSlice.js:126-145 | deleting the primitive id a create gave its item removes that item again |
| ChecklistItemSlice.ItemCache.constructor | src/store/features/checklistItemSlice.js:94-100 | the initial state is empty lists and maps, idle, and no error |
| ChecklistItemSlice.ItemCache.FetchPending | src/store/features/checklistItemSlice.js:104-109 | pending raises only that checklist's flag, sets loading, clears the error, and keeps the lists |
| ChecklistItemSlice.ItemCache.FetchFulfilled | src/store/features/checklistItemSlice.js:110-118 | fulfilled records the payload for that checklist and lowers its flag; `items` becomes the payload if it is an array, else empty; the error stays |
| ChecklistItemSlice.ItemCache.FetchRejected | src/store/features/checklistItemSlice.js:119-125 | rejected lowers that checklist's flag, records the payload as the error, empties `items`, and keeps the per-checklist lists |
| ChecklistItemSlice.ItemCache.CreateFulfilled | src/store/features/checklistItemSlice.js:126-128 | a new item is appended last; the maps, the status and the error stay |
| ChecklistItemSlice.ItemCache.StatusFulfilled | src/store/features/checklistItemSlice.js:129-134 | the status change rewrites `items` as the first-match update specifies and nothing else |
| ChecklistItemSlice.ItemCache.NameFulfilled | src/store/features/checklistItemSlice.js:135-142 | the rename rewrites `items` as the first-match update specifies and nothing else |
| ChecklistItemSlice.ItemCache.DeleteFulfilled | src/store/features/checklistItemSlice.js:143-145 | delete leaves `items` filtered by the id and nothing else changed |
| ChecklistItemSlice.ItemCache.Dispatch | src/store/features/checklistItemSlice.js:102-146 | the reducer gives each handled action its state change, and leaves the state alone for the mutations' pending and rejected actions |
| AuthSlice.ExtractToken | src/store/features/authSlice.js:14 | the token is the nested `data.token` when truthy, else the top-level `token`; a null body throws |
| AuthSlice.LoginOutcome | src/store/features/authSlice.js:4-22 | login fulfils exactly when a truthy token is found, with the caller's username; otherwise it rejects with the server's message, or "Login failed" |
| AuthSlice.RegisterOutcome | src/store/features/authSlice.js:24-36 | register fulfils exactly when the request succeeds; otherwise it rejects with the server's message, or "Registration failed" |
| AuthSlice.StoredOrNull | src/store/features/authSlice.js:41-42 | a stored value is read back as is, and a missing or empty one becomes null |
| AuthSlice.LoginStorage | src/store/features/authSlice.js:70-75 | login stores the token, the username and an expiry of now plus 3600000, and keeps every other key |
| AuthSlice.LogoutStorage | src/store/features/authSlice.js:50-52 | logout removes `token`, `username` and `tokenExpiry` and keeps every other key |
| AuthSlice.ReloadRestoresLogin | src/store/features/authSlice.js:40-45 | for a login with a non-empty string token and a non-empty username, a session started from the storage it left has that token and username again (an empty username reloads as null, and a numeric token reloads as its string) |
| AuthSlice.ReloadAfterLogout | src/store/features/authSlice.js:40-45 | a session started from the storage a logout left is anonymous |
| AuthSlice.Session.constructor | src/store/features/authSlice.js:40-45 | the initial token and username come from storage, with a missing or empty one as null |
| AuthSlice.Session.Logout | src/store/features/authSlice.js:47-53 | logout nulls the token and username and clears their storage; the status and error stay |
| AuthSlice.Session.Pending | src/store/features/authSlice.js:57-60 | login or register pending sets loading and clears the error; the identity and storage stay |
| AuthSlice.Session.LoginFulfilled | src/store/features/authSlice.js:61-76 | login fulfilled sets succeeded, and sets the token and username in the state and in storage with the expiry |
| AuthSlice.Session.RegisterFulfilled | src/store/features/authSlice.js:85-87 | register fulfilled only sets succeeded and never logs anyone in |
| AuthSlice.Session.Rejected | src/store/features/authSlice.js:77-80 | rejected sets failed and records the payload; the token and username stay |
| AuthSlice.Session.Dispatch | src/store/features/authSlice.js:46-92 | the reducer gives logout and each login or register action its state change |
| App.PrivateRoute | src/App.jsx:8-19 | the pages render exactly when a non-empty token is stored and has not expired; an expired token and its expiry are purged; otherwise storage stays |
| App.Expired | src/App.jsx:12 | the stored token has expired exactly when a non-empty token and a non-empty expiry are stored, the expiry parses to a number, and `now` is past it |
| App.ExpiryKeepsUsername | src/App.jsx:13-14 | purging an expired token keeps the stored username |
| App.ExpiryIsInclusive | src/App.jsx:12 | at the expiry instant the pages still render, and one millisecond later the guard purges and redirects |
| App.NoExpiryNeverExpires | src/App.jsx:12-18 | a token with no stored expiry is always let through, and storage stays |
| App.NoTokenRedirects | src/App.jsx:18 | with no token the guard redirects and leaves storage alone |
| App.EarlierStaysAllowed | src/App.jsx:12 | whatever the guard lets through, it also lets through at any earlier time |
| App.GuardIdempotent | src/App.jsx:8-19 | running the guard again at the same time decides the same and purges nothing more |
| App.GuardAfterLogin | src/App.jsx:12 | after a login at time t whose token is stored as a non-empty string, the pages render exactly while now is at most t plus 3600000, and the token is purged after that |
| App.EmptyStoredTokenRedirects | src/App.jsx:18 | after a login whose token is stored as the empty string, the guard redirects at once and purges nothing |
| App.EmptyArrayTokenStoresEmpty | src/store/features/authSlice.js:70 | the token `[]` passes the truthiness test of login but is stored as the empty string |
| App.GuardAfterLogout | src/App.jsx:18 | after a logout the guard redirects and has nothing to purge |

## Left out

- HTTP transport and the axios instance (`src/api/api.js`) are not modelled. This includes the interceptor that removes `token` and `tokenExpiry` on a 401 response and redirects. A request's outcome is an `HttpResult` parameter.
- Store wiring (`src/store/store.js`) is not modelled. Each slice's reducer is modelled on its own.
- Pages and components are not modelled: rendering, prompts, navigation, and the duplicate storage writes in the login page.
- Concurrency is not modelled. Each pending, fulfilled or rejected action is one atomic call, so interleaved requests and "last response wins" races are not modelled.
- `console.log` and `console.error` are left out because they have no effect on state.
- The clock is not modelled. `Date.now()` is the integer parameter `now` of `CreateItemOutcome`, `Session.LoginFulfilled`, `Session.Dispatch` and `PrivateRoute`.
- Local storage is a map field or parameter, with no persistence across page loads. Reloading is modelled by building a new `Session` from the stored map.
- `initializeItemsForChecklist` is imported by the dashboard page but never defined. The item slice has no plain reducers, so there is nothing to model.
- The item slice does not update the per-checklist lists on create, status change, rename or delete. The model follows that code and adds no partitioned update.
- The `register` response body becomes the fulfilled payload, but the reducer never reads it. The model carries it without further property.
- JsValues.Value: numbers are unbounded integers. Fractions, NaN, infinities and the 2^53 precision limit are not modelled. The exponent notation `String` uses from 1e21 upwards is not modelled either.
- JsValues.StrictEquals: arrays and objects compare by reference, which values here do not carry, so an array or object id never matches anything.
- JsValues.SetField: a named field written on an array is not kept, since arrays hold only their elements here. `Get` reads inherited properties as undefined.
- JsNumbers.ParseInt: models `parseInt` with no radix on an integer string. What is proved is the round trip, the skipping of leading white space, and the NaN and non-negative cases its contract names. A fully general statement of what `parseInt` reads, such as where it stops on trailing text, is not proved.
- AuthSlice.LoginPayload: the username is a string. A missing `credentials.username` (which would be stored as "undefined") is not modelled.
