# ResQNet incident core, modelled in Dafny

ResQNet is an incident-reporting system. Citizens report fires, accidents,
crimes and disasters with a location. An admin verifies and resolves them.
Every change is pushed live to all connected browsers.

This project models the core of both sides:

- **Server.**
  - The Mongoose `Incident` schema: its defaults, validators and title trimming.
  - The Express controller: create, list with filters, read, status update, delete and the nearby pre-checks.
  - The Socket.IO fan-out of `incident:new`, `incident:update` and `incident:delete`.
- **Client.**
  - The Redux incident cache: every reducer and every fulfilled/rejected case of the async thunks.
  - The selectors over the cache.
  - The admin session slice with its `localStorage` record.
  - The map helpers.
  - The REST parameter and URL builder.

Where the source mutates state, the model is imperative:

- `IncidentServer` is a class over the document store.
- `Broker` is a class over the socket room table.
- `IncidentStore` and `AdminStore` are classes over the Redux slice state.

Each of their methods is proved equal to a pure function of the old state: the
reducer or the handler outcome. The properties the system relies on are
proved about those functions:

- The cache's `ids` list always names cached items.
- A fetched list is shown exactly and in order.
- The feed filter is an order-preserving sub-list.
- Deletes are idempotent.
- The server reads back exactly the truthy filters the client sends.
- A listing is newest-first with distinct ids.
- Room members receive an update twice; everyone else receives it once.

Modules, one per file:

| module | file |
|---|---|
| `Wrappers` | `wrappers.dfy` |
| `JsValues` (truthiness, `parseInt`) | `jsvalues.dfy` |
| `Schema` | `schema.dfy` |
| `Fanout` | `fanout.dfy` |
| `Controller` | `controller.dfy` |
| `IncidentSlice` | `incident_slice.dfy` |
| `IncidentSelectors` | `incident_selectors.dfy` |
| `AdminSlice` | `admin_slice.dfy` |
| `MapService` | `map_service.dfy` |
| `IncidentApi` | `incident_api.dfy` |

JavaScript values are modelled explicitly:

- A possibly-absent string is an `Option<string>`.
- `Truthy` is JavaScript truthiness for such a value.
- `parseInt` yields a `Num`, an integer or `NaN`. A `NaN` that reaches the severity condition fails Mongoose's Number cast, and the list request forwards that error.
- Document ids are strings.
- The store is a map from id to document.
- The id a new document receives and the save instant are parameters.

When either bound is given, an exact `severity` is discarded. The code
spreads the previous value into the bound object
(`{ ...query.severity, $gte: … }`), and spreading a number adds no keys
(`Controller.BuildQuery`). For the same reason an unparsable `severity`
beside a bound causes no cast error.

The model also shows a client-side duplicate. The server emits
`incident:new` before it answers the creating request. If that socket event
is applied first, `createIncident.fulfilled` unshifts the id a second time
(`IncidentSlice.SocketThenCreateListsTwice`).

## Model

| member | source | states |
|---|---|---|
| Schema.TrimStart | server/src/models/Incident.model.js:5-9 | the result is a suffix of the input that starts with no whitespace, and everything dropped is whitespace |
| Schema.TrimEnd | server/src/models/Incident.model.js:5-9 | the result is a prefix of the input that ends with no whitespace, and everything dropped is whitespace |
| Schema.BlankTitleInvalid | server/src/models/Incident.model.js:5-9 | a title made only of whitespace (including no-break and other Unicode spaces) trims to the empty string, so the document fails validation |
| Schema.TrimIdempotent | server/src/models/Incident.model.js:8 | trimming a trimmed title changes nothing |
| Schema.Construct | server/src/models/Incident.model.js:3-50 | the built document has the given id, both timestamps at the save instant, the trimmed title, the default status when none is given, a Point location with the coordinates as given, and every other field as submitted |
| Schema.ConstructValid | server/src/models/Incident.model.js:5-40 | a document passes validation iff its trimmed title and its description are non-empty, its category is one of the four, its severity is in 1..5, and its status (or the default) is one of the three |
| Schema.DefaultStatusIsPending | server/src/models/Incident.model.js:25-29 | a draft without a status is stored as `pending`, which is itself a valid status |
| JsValues.ParseInt | server/src/controllers/incident.controller.js:63-73 | `parseInt` is NaN exactly when no digit follows the optional sign |
| JsValues.ParseIntText | server/src/controllers/incident.controller.js:64 | parsing the decimal text of any integer gives back that integer |
| JsValues.DecimalValueOfText | server/src/controllers/incident.controller.js:64 | the digit string of a natural number has that number as its value |
| Fanout.TopicOf | server/src/sockets/incident.socket.js:27-28 | an event names a room exactly when it carries an incident with a non-empty id, and then the room is that id's |
| Fanout.Members | server/src/sockets/incident.socket.js:10-19 | a room's members are exactly the connected sockets that joined it |
| Fanout.Recipients | server/src/sockets/incident.socket.js:23-31 | every socket receives exactly the number of copies `Copies` counts: one from the broadcast if connected, plus one more if it is in the event's room |
| Fanout.RoomNameInjective | server/src/sockets/incident.socket.js:11 | distinct incident ids give distinct room names |
| Fanout.EventNamesDistinct | server/src/sockets/incident.socket.js:33-43 | the three event names differ pairwise |
| Fanout.DeleteDeliveredOnce | server/src/sockets/incident.socket.js:40-42 | a delete event carries only an id, so each connected socket receives it exactly once, even inside the room |
| Fanout.UpdateDeliveredTwiceToMembers | server/src/sockets/incident.socket.js:23-39 | a socket in an incident's room receives that incident's new or update event twice |
| Fanout.UpdateDeliveredOnceToOthers | server/src/sockets/incident.socket.js:23-39 | a connected socket outside the room receives an update once, and an unconnected one receives none |
| Fanout.JoinThenUpdate | server/src/sockets/incident.socket.js:10-39 | after joining an incident's room, a socket's copies of that incident's updates go from one to two |
| Fanout.Broker.constructor | server/src/sockets/incident.socket.js:1-2 | the broker starts with no connected socket |
| Fanout.Broker.Connect | server/src/sockets/incident.socket.js:2 | a connecting socket is registered with no room, and every other socket is unchanged |
| Fanout.Broker.Disconnect | server/src/sockets/incident.socket.js:5-7 | a disconnecting socket leaves the table together with its rooms |
| Fanout.Broker.JoinIncident | server/src/sockets/incident.socket.js:10-13 | `join:incident` adds exactly the room `incident:<id>` to that socket, and no other socket changes |
| Fanout.Broker.LeaveIncident | server/src/sockets/incident.socket.js:16-19 | `leave:incident` removes exactly that room from that socket, and no other socket changes |
| Fanout.Broker.Emit | server/src/sockets/incident.socket.js:23-31 | the delivered multiset is `Recipients`: every connected socket gets at least one copy and no unconnected socket gets any |
| Controller.DraftOf | server/src/controllers/incident.controller.js:9-29 | the draft takes the status `pending` whatever was submitted, the coordinates as given, and media defaulting to the empty list |
| Controller.CreateIgnoresSubmittedStatus | server/src/controllers/incident.controller.js:18-29 | the submitted status has no effect on the built document, which is always `pending` |
| Controller.BuildQuery | server/src/controllers/incident.controller.js:52-73 | category and status are filters only when truthy; without bounds a truthy severity is an exact match; either bound alone, or both, replaces it with a range; the query matches a document iff the reference predicate `ListedBy` holds; and it holds a NaN iff `CastFails` holds of the request |
| Controller.InsertNewestFirst | server/src/controllers/incident.controller.js:75 | the sorted insertion is a permutation of the old list plus the new document |
| Controller.InsertMembers | server/src/controllers/incident.controller.js:75 | the members after insertion are the old members plus the new document |
| Controller.InsertKeepsNewestFirst | server/src/controllers/incident.controller.js:75 | insertion keeps a list ordered by decreasing `createdAt` |
| Controller.InsertKeepsDistinctIds | server/src/controllers/incident.controller.js:75 | inserting a document with a fresh id keeps ids distinct |
| Controller.Find | server/src/controllers/incident.controller.js:75 | `find(query).sort({createdAt: -1})` returns exactly the stored documents that match, newest first, each once |
| Controller.NearbyRequest | server/src/controllers/incident.controller.js:113-122 | the request is rejected with 400 iff `lng` or `lat` is falsy; otherwise the geo lookup gets both, and the radius given or the default of 5 |
| Controller.IncidentServer.constructor | server/src/controllers/incident.controller.js:34-36 | the server starts with an empty store and no event emitted, with socket handlers attached or not |
| Controller.IncidentServer.CreateIncident | server/src/controllers/incident.controller.js:7-45 | a falsy required field gives 400 and no change; a document failing validation, or an id collision, goes to the error handler with no change; otherwise the document is stored, announced when sockets are attached, and returned with 201 |
| Controller.IncidentServer.GetIncidents | server/src/controllers/incident.controller.js:50-85 | a severity value that fails the cast is forwarded as an error, and only then; otherwise the listing holds exactly the stored documents `ListedBy` the query, newest first and distinct, with `count` its length |
| Controller.IncidentServer.GetIncidentById | server/src/controllers/incident.controller.js:90-108 | a stored id gives 200 with the document, and any other id gives 404 |
| Controller.IncidentServer.UpdateIncidentStatus | server/src/controllers/incident.controller.js:143-179 | a status outside the three gives 400; an unknown id gives 404; otherwise only that document's status and `updatedAt` change, and the new document is announced and returned; the store stays well formed |
| Controller.IncidentServer.DeleteIncident | server/src/controllers/incident.controller.js:184-208 | an unknown id gives 404 with no change; otherwise exactly that key leaves the store, the delete event is announced, and the removed document is returned |
| Controller.IncidentServer.DeleteThenGet | server/src/controllers/incident.controller.js:184-208 | reading an id right after deleting it always gives 404 |
| IncidentSlice.Merge | client/src/features/incidents/incidentSlice.js:107 | each field of `{ ...old, ...patch }` is the patch's when present and the old one otherwise |
| IncidentSlice.MergeWholeAndEmpty | client/src/features/incidents/incidentSlice.js:104-112 | merging a whole document yields that document, and merging a bare id keeps the old one |
| IncidentSlice.RemoveId | client/src/features/incidents/incidentSlice.js:116 | the filtered id list holds every other id as often as before and the target not at all, and is unchanged when the target was absent |
| IncidentSlice.IdsOf | client/src/features/incidents/incidentSlice.js:146 | the id list has one entry per payload incident, at the same position |
| IncidentSlice.Normalize | client/src/features/incidents/incidentSlice.js:141-145 | the normalized map's keys are exactly the payload's ids |
| IncidentSlice.NormalizeEntries | client/src/features/incidents/incidentSlice.js:141-145 | every map entry is stored under its own id and comes from the payload |
| IncidentSlice.NormalizeDistinct | client/src/features/incidents/incidentSlice.js:141-145 | with distinct payload ids, each id maps to its own incident |
| IncidentSlice.SocketNew | client/src/features/incidents/incidentSlice.js:97-103 | a cached id is ignored; a new one is cached and put first in `ids`, and nothing else changes |
| IncidentSlice.SocketUpdate | client/src/features/incidents/incidentSlice.js:104-112 | only a cached entry with that id is merged, the current incident is merged when its id matches, and the key set is unchanged |
| IncidentSlice.RemoveIncident | client/src/features/incidents/incidentSlice.js:113-120 | the id leaves the map, every other entry stays, the list is the old list with that id filtered out, a matching current incident is cleared, and nothing else changes |
| IncidentSlice.SetFiltersIn | client/src/features/incidents/incidentSlice.js:121-123 | each filter is the patch's when present and the old one otherwise, and nothing else changes |
| IncidentSlice.StartRequest | client/src/features/incidents/incidentSlice.js:134-137 | a pending request sets `loading`, clears the error and keeps all data |
| IncidentSlice.FailRequest | client/src/features/incidents/incidentSlice.js:149-152 | a rejected request clears `loading`, stores the message and keeps all data |
| IncidentSlice.ReplaceAll | client/src/features/incidents/incidentSlice.js:138-148 | a fetched list replaces items and ids, the map's keys are exactly the listed ids, and `lastUpdate` is set |
| IncidentSlice.StoreFetched | client/src/features/incidents/incidentSlice.js:158-163 | a fetched incident becomes current and is cached, but is not listed |
| IncidentSlice.StoreCreated | client/src/features/incidents/incidentSlice.js:173-178 | a created incident is cached and unshifted onto `ids` unconditionally |
| IncidentSlice.StoreUpdated | client/src/features/incidents/incidentSlice.js:188-195 | the returned incident replaces the cached one, and the current one when ids match |
| IncidentSlice.ReducePreservesIdsInItems | client/src/features/incidents/incidentSlice.js:95-212 | every reducer and thunk case keeps each listed id in the map |
| IncidentSlice.SocketNewIdempotent | client/src/features/incidents/incidentSlice.js:97-103 | applying the same new-incident event twice equals applying it once |
| IncidentSlice.FetchByIdLeavesItemUnlisted | client/src/features/incidents/incidentSlice.js:158-163 | a fetched-by-id incident is cached without being listed, so the converse of the invariant fails |
| IncidentSlice.SocketThenCreateListsTwice | client/src/features/incidents/incidentSlice.js:97-178 | a socket `new` followed by the create reply lists the id twice over a single map entry |
| IncidentSlice.RemoveIdempotent | client/src/features/incidents/incidentSlice.js:113-120 | deleting the same id twice equals deleting it once |
| IncidentSlice.IncidentStore.constructor | client/src/features/incidents/incidentSlice.js:77-90 | the store starts in the initial state |
| IncidentSlice.IncidentStore.SocketNewIncident | client/src/features/incidents/incidentSlice.js:97-103 | the new state is `SocketNew` of the old |
| IncidentSlice.IncidentStore.SocketUpdateIncident | client/src/features/incidents/incidentSlice.js:104-112 | the new state is `SocketUpdate` of the old |
| IncidentSlice.IncidentStore.DeleteIncident | client/src/features/incidents/incidentSlice.js:113-120 | both the socket delete and `deleteIncident.fulfilled` give `RemoveIncident` of the old state |
| IncidentSlice.IncidentStore.SetFilters | client/src/features/incidents/incidentSlice.js:121-123 | the new state is `SetFiltersIn` of the old |
| IncidentSlice.IncidentStore.ClearCurrentIncident | client/src/features/incidents/incidentSlice.js:124-126 | only the current incident is cleared |
| IncidentSlice.IncidentStore.ClearError | client/src/features/incidents/incidentSlice.js:127-129 | only the error is cleared |
| IncidentSlice.IncidentStore.RequestPending | client/src/features/incidents/incidentSlice.js:134-137 | any of the four handled `pending` cases gives `StartRequest` of the old state |
| IncidentSlice.IncidentStore.RequestRejected | client/src/features/incidents/incidentSlice.js:149-152 | any of the four handled `rejected` cases gives `FailRequest` of the old state |
| IncidentSlice.IncidentStore.FetchIncidentsFulfilled | client/src/features/incidents/incidentSlice.js:138-148 | the `forEach` loop builds `Normalize` of the payload, so the new state is `ReplaceAll` of the old |
| IncidentSlice.IncidentStore.FetchIncidentByIdFulfilled | client/src/features/incidents/incidentSlice.js:158-163 | the new state is `StoreFetched` of the old |
| IncidentSlice.IncidentStore.CreateIncidentFulfilled | client/src/features/incidents/incidentSlice.js:173-178 | the new state is `StoreCreated` of the old |
| IncidentSlice.IncidentStore.UpdateIncidentStatusFulfilled | client/src/features/incidents/incidentSlice.js:188-195 | the new state is `StoreUpdated` of the old |
| IncidentSlice.IncidentStore.FetchNearbyIncidentsFulfilled | client/src/features/incidents/incidentSlice.js:210-212 | only the nearby list is replaced |
| IncidentSlice.IncidentStore.Dispatch | client/src/features/incidents/incidentSlice.js:131-212 | dispatching any action gives `Reduce` of the old state and keeps the ids-in-items invariant |
| IncidentSelectors.Project | client/src/features/incidents/incidentSelectors.js:7 | `ids.map(id => items[id])` has one incident per id, at the same position |
| IncidentSelectors.SelectAll | client/src/features/incidents/incidentSelectors.js:5-8 | the list is the cached incident of each id, in `ids` order |
| IncidentSelectors.SelectById | client/src/features/incidents/incidentSelectors.js:10-14 | a cached id gives its incident; otherwise the current incident is the fallback |
| IncidentSelectors.SelectByIdFallbackIgnoresId | client/src/features/incidents/incidentSelectors.js:13 | the fallback can return an incident whose id is not the one asked for |
| IncidentSelectors.FilterMembers | client/src/features/incidents/incidentSelectors.js:20 | `filter` keeps exactly the members that pass the test |
| IncidentSelectors.FilterSubsequence | client/src/features/incidents/incidentSelectors.js:20 | `filter` keeps the passing elements at increasing positions, and a position is kept iff its element passes |
| IncidentSelectors.RemoveIdIsFilter | client/src/features/incidents/incidentSlice.js:116 | removing an id from the list is `filter` with the test `id !== target` |
| IncidentSelectors.RemoveIdKeepsOrder | client/src/features/incidents/incidentSlice.js:116 | after a delete the list is the old list at increasing positions, and a position is kept iff its id is not the deleted one, so the order and duplicates of the other ids survive |
| IncidentSelectors.FilteredMembers | client/src/features/incidents/incidentSelectors.js:16-27 | an incident is in the feed iff it is listed and each non-empty filter matches it, with severity compared after `parseInt` |
| IncidentSelectors.FilteredWithoutFilters | client/src/features/incidents/incidentSelectors.js:16-27 | with every filter empty the feed is the whole list |
| IncidentSelectors.FilteredIsSubsequence | client/src/features/incidents/incidentSelectors.js:16-27 | the feed is the list at increasing positions |
| IncidentSelectors.PendingIsByStatus | client/src/features/incidents/incidentSelectors.js:29-36 | the pending selector equals the by-status selector for `pending`, and holds only pending incidents |
| IncidentSelectors.FetchedListIsShown | client/src/features/incidents/incidentSelectors.js:5-8 | after a fetch with distinct ids, the listed incidents are exactly the fetched list, in order |
| AdminSlice.Start | client/src/features/admin/adminSlice.js:14-17 | `loginStart` sets `loading`, clears the error and keeps the session |
| AdminSlice.Succeed | client/src/features/admin/adminSlice.js:18-25 | `loginSuccess` authenticates with the profile and persists the same record |
| AdminSlice.Fail | client/src/features/admin/adminSlice.js:26-31 | `loginFailure` signs out, records the message and leaves the record alone |
| AdminSlice.SignOut | client/src/features/admin/adminSlice.js:32-37 | `logout` clears authentication, profile and error, keeps `loading`, and removes the record |
| AdminSlice.Restore | client/src/features/admin/adminSlice.js:38-51 | `checkAuth` restores from an authenticated record with a profile, drops an unparsable record, and otherwise changes nothing; a parsable or absent record is never touched |
| AdminSlice.LoginActions | client/src/features/admin/adminSlice.js:61-85 | `loginAdmin` dispatches `loginStart`, then success with the fixed profile iff the credentials are `admin`/`admin123`, else failure with the fixed message |
| AdminSlice.LoginOutcome | client/src/features/admin/adminSlice.js:61-85 | after `loginAdmin` the slice is not loading; it is authenticated iff the credentials match, then with the admin profile persisted, else with the error and the old record |
| AdminSlice.LoginPersistsAcrossReload | client/src/features/admin/adminSlice.js:18-51 | a successful login is restored by `checkAuth` on a freshly initialised slice |
| AdminSlice.LogoutThenCheckAuth | client/src/features/admin/adminSlice.js:32-51 | after `logout`, `checkAuth` restores nothing, before or after a reload |
| AdminSlice.AdminStore.constructor | client/src/features/admin/adminSlice.js:3-8 | the slice starts signed out, beside whatever record is persisted |
| AdminSlice.AdminStore.LoginStart | client/src/features/admin/adminSlice.js:14-17 | the new session is `Start` of the old |
| AdminSlice.AdminStore.LoginSuccess | client/src/features/admin/adminSlice.js:18-25 | the new session is `Succeed` of the old |
| AdminSlice.AdminStore.LoginFailure | client/src/features/admin/adminSlice.js:26-31 | the new session is `Fail` of the old |
| AdminSlice.AdminStore.Logout | client/src/features/admin/adminSlice.js:32-37 | the new session is `SignOut` of the old |
| AdminSlice.AdminStore.CheckAuth | client/src/features/admin/adminSlice.js:38-51 | the new session is `Restore` of the old |
| AdminSlice.AdminStore.LoginAdmin | client/src/features/admin/adminSlice.js:61-85 | the result is true iff the credentials match, and the session is the old one run through `LoginActions` |
| MapService.SeverityColor | client/src/services/map.service.js:11-26 | severities 1..5 map to green, blue, yellow, orange and red in that order, and every other value maps to gray |
| MapService.SeverityColorsDistinct | client/src/services/map.service.js:11-26 | distinct valid severities get distinct colours, none of them gray |
| MapService.CategoryIcon | client/src/services/map.service.js:31-39 | each of the four categories gets its own icon, and any other value gets the pin |
| MapService.CategoryIconsDistinct | client/src/services/map.service.js:31-39 | the four categories get four distinct icons, none of them the pin |
| MapService.FormatCoordinates | client/src/services/map.service.js:44-47 | the result is 'N/A' exactly when the coordinates are missing or not two long; otherwise index 1 is shown before index 0 |
| MapService.FromCoordinates | client/src/services/map.service.js:44-47 | a coordinate array reads as a position exactly when it has two entries |
| MapService.CoordinatesRoundTrip | client/src/services/map.service.js:44-47 | the `[lng, lat]` order and the position convert into each other without loss |
| MapService.FormatShowsLatitudeFirst | client/src/services/map.service.js:44-47 | a stored position is displayed latitude first |
| IncidentApi.NamesDistinct | client/src/features/incidents/incidentAPI.js:16-20 | no two query keys share a name on the wire |
| IncidentApi.KeyRank | client/src/features/incidents/incidentAPI.js:16-20 | a filter key's rank is its position in the append order |
| IncidentApi.LookupFinds | client/src/features/incidents/incidentAPI.js:15 | a lookup finds nothing exactly when no entry has the key, and a found value belongs to an entry with that key |
| IncidentApi.Entry | client/src/features/incidents/incidentAPI.js:16 | a filter contributes one entry iff its value is truthy, and that entry carries the key and value |
| IncidentApi.DropFalsy | server/src/controllers/incident.controller.js:55-72 | each query value is kept when truthy and dropped otherwise |
| IncidentApi.DropFalsyListsSame | server/src/controllers/incident.controller.js:55-72 | the server selects the same documents whether a falsy parameter is sent or left out |
| IncidentApi.GetIncidentsParams | client/src/features/incidents/incidentAPI.js:14-22 | the appends send one entry per truthy filter and no others, in the order category, status, severity, minSeverity, maxSeverity, with nothing for empty filters; the server reads back exactly the truthy filters |
| IncidentApi.FilterParamsCount | client/src/features/incidents/incidentAPI.js:16-20 | the number of parameters is the number of truthy filters |
| IncidentApi.FilterParamsRanked | client/src/features/incidents/incidentAPI.js:16-20 | parameters are filter keys with truthy values, in strictly increasing key order |
| IncidentApi.FilterParamsRead | client/src/features/incidents/incidentAPI.js:16-22 | looking each filter key up in the parameters gives that filter if truthy and nothing otherwise |
| IncidentApi.SentFiltersListSame | client/src/features/incidents/incidentAPI.js:14-22 | the server selects the same incidents from the sent parameters as from the filters object itself |
| IncidentApi.UpdateStatusRequest | client/src/features/incidents/incidentAPI.js:39-42 | the request is a PATCH to `/<id>/status` with body `{ status }` and no query |
| IncidentApi.NearbyRequest | client/src/features/incidents/incidentAPI.js:51-54 | the request is a GET to `/nearby` with `lng`, `lat` and `radius` in that order, the radius defaulting to 5 |
| IncidentApi.UpdateStatusRoutes | server/src/routes/incident.routes.js:17 | a status update for an id without `/` reaches `updateIncidentStatus` with that id |
| IncidentApi.StatusRouteIsBuilt | server/src/routes/incident.routes.js:17 | any path the status route accepts is the one built for its id |
| IncidentApi.ByIdRoutes | server/src/routes/incident.routes.js:15-18 | by-id reads and deletes reach their handlers with the id, unless the path is `/nearby` |
| IncidentApi.NearbyReachesGeoLookup | client/src/features/incidents/incidentAPI.js:51-52 | a nearby request with both coordinates passes the controller's checks and reaches the geo lookup with them and its radius |

## Left out

- The geo lookup `findNearbyIncidents` (Haversine distance, `$near` queries) lives in `server/src/utils/geo.utils.js`, which is not part of this model. `Controller.NearbyRequest` stops at the arguments the lookup receives.
- `parseFloat` of the nearby arguments is not modelled: its text is passed through to the lookup.
- JsValues.ParseInt: does not skip leading whitespace, because query values come from URLs and form fields where it does not occur. It also does not accept the `0x` prefix or other radices.
- Controller.IncidentServer.CreateIncident: a non-numeric `severity` in the body is not modelled, because the body's severity is an integer here. A Mongoose cast error therefore does not occur.
- Controller.IncidentServer.GetIncidentById, Controller.IncidentServer.UpdateIncidentStatus, Controller.IncidentServer.DeleteIncident and Controller.IncidentServer.DeleteThenGet: a malformed id that Mongoose rejects with a cast error in `findById`, `findByIdAndUpdate` or `findByIdAndDelete` is not modelled. Ids are plain strings. Such an id is simply absent from the store, so the model gives 404 where the source forwards the error.
- Express parsing of repeated query keys into arrays is not modelled: every parameter is one string.
- The 2dsphere index's rejection of malformed points on save is left out. Coordinates of any length are accepted, as the schema declares them.
- The error middleware that receives `next(error)` is not part of this model. A forwarded error is the `Forward` response.
- `toFixed(6)` formatting in `formatCoordinates` and the `'lat, lng'` text are left out: the display keeps the two numbers in display order.
- MapService.CategoryIcon: keys inherited from `Object.prototype` (such as `constructor`) are not modelled. In JavaScript they would give a function instead of the pin.
- MapService.SeverityColor: a severity of another JavaScript type (a string `"3"`) is not modelled, because severities are integers here. The source's strict `switch` would give gray.
- Percent-encoding by `URLSearchParams.toString()` and the unescaped template literal of `getNearbyIncidents` are left out. Parameters are kept as key/value pairs.
- Concurrency, the timing of `setTimeout` in `loginAdmin` and the order in which sockets and HTTP replies arrive are not modelled. Each interleaving is a sequence of reducer calls.
- The transports (axios, Socket.IO, `localStorage`, the MongoDB driver) are not modelled. The persisted admin record is a field of `AdminStore` and the store is a map.
- The clock is not modelled: `new Date()` and the save instant are parameters.
- The read-only selectors for loading, error, current incident, nearby list and filters are not modelled, because each returns a field unchanged.
- Console logging in the socket handlers is left out.
