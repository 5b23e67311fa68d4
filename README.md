# arena-cue core in Dafny

A model of the core of arena-cue: a show-control companion for Resolume Arena. The companion talks to the engine's REST API, keeps a list of cues and stores projects in the browser. The model covers six parts of the application:

- **The REST client** (`ResolumeApi`). This is the `ResolumeAPI` object with its address, base URL and connected flag. It probes the engine and issues the composition, thumbnail, clip-connect, transition-time and clear-layer calls, and a registry holds the shared instance. Replies come from an oracle `net`: the k-th request the object issues receives `net(k)`. Every request is appended to the object's `trace`, so the contracts state which calls are issued, in which order, and what is made of each reply. Composition parsing is a pure function over the JSON body, with every field optional.
- **The connection session** (`ResolumeContext`). This is the React provider's state, modelled as a class. It holds the settings, the connection status and the error message. It covers `testConnection`, `updateConnection`, `disconnect` and the auto-connect at mount. A React callback sees the settings of the render that created it, so the model passes that snapshot as an explicit parameter.
- **Settings persistence** (`ConnectionSettings`). Settings are loaded from, saved to and cleared from a key-value store (`KeyValueStore.Storage`, a class over a `map<string, string>`). A load repairs the stored record field by field from the defaults and rewrites the version tag.
- **The project store** (`ProjectStorage`). This is the browser fallback: one JSON array of projects under one key. It covers save by id (replace or append), load, list, delete, create and "last opened" stamping.
- **The cue list** (`Workspace`). Adding, deleting and updating a cue build a new list and a new selection.
- **The connection dialog** (`ConnectionDialog`). It validates host and port before an attempt, chooses the result toast, resets to defaults, and phrases the time since the last connection.

The JavaScript primitives the core relies on are modelled in `JsStrings` and `Seqs`:

- `String.prototype.trim`;
- `parseInt` with no radix: leading whitespace, a sign, a `0x` prefix, and the longest run of digits;
- decimal rendering of integers;
- `Array.prototype.filter`.

`JSON.stringify` and `JSON.parse` of settings and projects are a pair of functions in a codec value. The round-trip lemmas ask only that parsing the record or array that was written gives it back (`RoundTrips`), for that record or array alone. The remaining outside inputs are parameters:

- reply oracle;
- clock readings and elapsed milliseconds;
- generated ids;
- whether a browser window and the desktop bridge are present.

## Model

| member | source | states |
|---|---|---|
| ResolumeApi.ParseComposition | src/lib/resolumeAPI.ts:125-137 | the parsed composition has exactly as many layers as the body, none when the body has none |
| ResolumeApi.ParseLayers | src/lib/resolumeAPI.ts:125-133 | one parsed layer per raw layer |
| ResolumeApi.ParseClips | src/lib/resolumeAPI.ts:128-132 | one parsed clip per raw clip |
| ResolumeApi.ParseDefaults | src/lib/resolumeAPI.ts:125-137 | for a layer and for a clip alike, a present non-zero id is kept and an absent or zero one becomes the 1-based position, and a present non-empty name is kept while an absent or empty one becomes `Layer n` / `Clip n`; absent clips give none and the clip count is kept; a clip's duration passes through; non-zero columns are kept, absent or zero columns give 0 |
| ResolumeApi.ParsedIsWellFormed | src/lib/resolumeAPI.ts:125-133 | whatever the body, every parsed layer and clip has a non-zero id and a non-empty name |
| ResolumeApi.ParseOfUnparse | src/lib/resolumeAPI.ts:125-137 | a well-formed composition written out in full parses back to itself |
| ResolumeApi.ParseIdempotent | src/lib/resolumeAPI.ts:125-137 | re-parsing the full description of a parsed composition changes nothing |
| ResolumeApi.BaseUrlDistinguishesTargets | src/lib/resolumeAPI.ts:40-48 | a relayed base URL never equals a direct one, and for one host a direct base URL determines the port |
| ResolumeApi.BaseUrlNamesTarget | src/lib/resolumeAPI.ts:40-48 | a direct base URL is `http://host:` and `/api/v1` around a text that `parseInt` reads back as the port |
| ResolumeApi.Path | src/lib/resolumeAPI.ts:69-251 | the paths of the fetch calls at lines 69, 111, 152, 191, 227 and 251: every engine endpoint lies under `/composition`, and only the relay's retarget endpoint has no path |
| ResolumeApi.Url | src/lib/resolumeAPI.ts:53-251 | the retarget request goes to the relay's fixed `/api/resolume/connection` (line 53); every other request goes to its base URL followed by `/composition…` |
| ResolumeApi.RetargetRequests | src/lib/resolumeAPI.ts:50-62 | the relay is told the target (one request) exactly in relayed mode |
| ResolumeApi.CompositionFrom | src/lib/resolumeAPI.ts:118-142 | a composition results exactly when the reply is ok and its body parses, and it is the parse of that body; otherwise null |
| ResolumeApi.ClipRequests | src/lib/resolumeAPI.ts:185-198 | one clip trigger issues two requests with a transition time (zero included) and one without; the last is the connect POST and the first, when there are two, is the transition-time PUT |
| ResolumeApi.TriggerRequests | src/lib/resolumeAPI.ts:213-215 | a batch issues at least one request per target |
| ResolumeApi.TriggerResults | src/lib/resolumeAPI.ts:213-217 | a batch yields exactly one result per target |
| ResolumeApi.TriggerRequestsAppend | src/lib/resolumeAPI.ts:213-215 | the requests of a concatenation of targets are those of the first part followed by those of the second |
| ResolumeApi.TriggerResultsAppend | src/lib/resolumeAPI.ts:213-217 | the results of a concatenation are the first part's followed by the second part's, as issued right after the first part's requests |
| ResolumeApi.TriggerResultAt | src/lib/resolumeAPI.ts:213-217 | result i of a batch is the connect reply of target i, issued (in the model's sequential order) right after the requests of targets 0..i-1 |
| ResolumeApi.TriggerRequestsAt | src/lib/resolumeAPI.ts:213-215 | target i's own requests come right after those of the targets before it, within the batch's requests, in the model's sequential order |
| ResolumeApi.ResolumeAPI.constructor | src/lib/resolumeAPI.ts:32-38 | takes the address, relays exactly in a browser window without the desktop bridge, starts disconnected with no requests, base URL consistent |
| ResolumeApi.ResolumeAPI.UpdateBaseUrl | src/lib/resolumeAPI.ts:40-48 | the base URL is the relay path in relayed mode and `http://host:port/api/v1` otherwise |
| ResolumeApi.ResolumeAPI.Fetch | src/lib/resolumeAPI.ts:69-74 | a request is appended to the trace and receives the reply for its call number |
| ResolumeApi.ResolumeAPI.UpdateProxyTarget | src/lib/resolumeAPI.ts:50-62 | issues the retarget post only in relayed mode; its reply is ignored |
| ResolumeApi.ResolumeAPI.Connect | src/lib/resolumeAPI.ts:64-88 | issues the retarget (if relayed) and then one composition GET; connected, both as result and as flag, exactly when that reply is ok; a rejected fetch counts as not connected |
| ResolumeApi.ResolumeAPI.Disconnect | src/lib/resolumeAPI.ts:90-92 | the flag is false afterwards |
| ResolumeApi.ResolumeAPI.GetConnectionStatus | src/lib/resolumeAPI.ts:94-96 | reports the flag |
| ResolumeApi.ResolumeAPI.UpdateConnection | src/lib/resolumeAPI.ts:98-103 | new host and port, base URL recomputed for them, and never connected afterwards |
| ResolumeApi.ResolumeAPI.GetComposition | src/lib/resolumeAPI.ts:105-143 | not connected: raises "Not connected to Resolume Arena" and issues nothing; otherwise one GET, and the result is the parsed composition or null on a failed, non-ok or unparseable reply |
| ResolumeApi.ResolumeAPI.GetThumbnail | src/lib/resolumeAPI.ts:145-176 | not connected: raises and issues nothing; otherwise one GET of that clip's thumbnail, with the data URL on an ok reply and null otherwise |
| ResolumeApi.ResolumeAPI.SetLayerTransitionTime | src/lib/resolumeAPI.ts:220-242 | not connected: raises and issues nothing; otherwise one PUT of the value, and the result is the reply's ok |
| ResolumeApi.ResolumeAPI.ClearLayer | src/lib/resolumeAPI.ts:244-265 | not connected: raises and issues nothing; otherwise one clear POST, and the result is the reply's ok |
| ResolumeApi.ResolumeAPI.TriggerClip | src/lib/resolumeAPI.ts:178-205 | not connected: raises and issues nothing; otherwise the transition-time PUT (only when a time is given) strictly before the connect POST, and the result is the connect reply's ok |
| ResolumeApi.ResolumeAPI.TriggerEach | src/lib/resolumeAPI.ts:213-215 | the `map` of the clip trigger over the targets issues exactly the batch's requests and yields exactly the batch's results |
| ResolumeApi.ResolumeAPI.TriggerMultipleLayers | src/lib/resolumeAPI.ts:207-218 | not connected: raises and issues nothing; otherwise each target's requests in target order, and one result per target in target order |
| ResolumeApi.ResolumeAPI.GetBaseUrl | src/lib/resolumeAPI.ts:267-269 | the base URL always agrees with the current mode, host and port |
| ResolumeApi.ApiRegistry.constructor | src/lib/resolumeAPI.ts:280-281 | no shared instance at first |
| ResolumeApi.ApiRegistry.GetResolumeAPI | src/lib/resolumeAPI.ts:283-290 | the first call creates the instance (absent arguments give localhost:8080); later calls return that same instance, retargeted and disconnected only when both a non-empty host and a non-zero port are given, and otherwise untouched |
| ResolumeApi.ApiRegistry.ResetResolumeAPI | src/lib/resolumeAPI.ts:292-294 | the shared instance is forgotten |
| ResolumeContext.NoAutoConnectWithoutRecord | src/contexts/ResolumeContext.tsx:72-77 | the auto-connect condition (line 74) never holds on the default settings, nor on what a load gives after the settings are cleared |
| ResolumeContext.AutoConnectAfterSuccess | src/contexts/ResolumeContext.tsx:72-77 | once a successful connection has been saved (a usable record the codec round-trips), the next mount auto-connects exactly when reconnecting is switched on and the stamp is non-empty |
| ResolumeContext.Stamped | src/contexts/ResolumeContext.tsx:34-37 | the snapshot with host, port and reconnect flag kept and the connection time set |
| ResolumeContext.Session.constructor | src/contexts/ResolumeContext.tsx:20-23 | settings are the load of the store (whose version tag is rewritten), the client is built on them, and the status starts disconnected with no message |
| ResolumeContext.Session.BeginProbe | src/contexts/ResolumeContext.tsx:26-27 | status connecting, message cleared |
| ResolumeContext.Session.FinishProbe | src/contexts/ResolumeContext.tsx:30-45 | success: connected, with the stamped snapshot set and saved; failure: error "Failed to connect to Resolume Arena", with nothing set or saved |
| ResolumeContext.Session.TestConnection | src/contexts/ResolumeContext.tsx:25-51 | one probe through the client; the result is the probe reply's ok; on success connected, no message, and the stamped snapshot set and saved; on failure error with the fixed message and nothing saved; status and client agree afterwards |
| ResolumeContext.Session.UpdateConnection | src/contexts/ResolumeContext.tsx:53-64 | retargets the client, sets and saves the new host and port with the snapshot's reconnect flag and no connection time, then probes; on success the stamped snapshot (the old address) ends up set and saved |
| ResolumeContext.Session.UpdateConnectionFixed | src/contexts/ResolumeContext.tsx:53-64 | as above, but on success the new host and port, stamped, end up set and saved; the message is cleared on success and is the fixed hint on failure |
| ResolumeContext.Session.Disconnect | src/contexts/ResolumeContext.tsx:66-70 | status disconnected, message cleared, client disconnected, settings untouched |
| ResolumeContext.Session.AutoConnectOnMount | src/contexts/ResolumeContext.tsx:72-77 | probes exactly when the loaded settings ask for auto-connect; then the probe's requests are issued and, on success, status connected with no message and the stamped loaded settings set and saved, on failure status error with the fixed message and nothing set or saved; otherwise settings, status, message, client flag, store and trace are all unchanged |
| ResolumeContext.StaleSnapshotRun | src/contexts/ResolumeContext.tsx:53-64 | from a store holding 192.168.1.20:7070, retargeting to 10.0.0.5:7000 with every reply ok leaves the client on the new address; the settings held and those the next launch loads name 192.168.1.20:7070 |
| ResolumeContext.FreshSnapshotRun | src/contexts/ResolumeContext.tsx:53-64 | the same run with the corrected update holds, and persists for the next launch, 10.0.0.5:7000 with the connection time |
| ConnectionSettings.Repair | src/lib/connectionSettings.ts:36-41 | a present non-empty host, non-zero port and present reconnect flag are kept, each missing or falsy one takes its default, and `lastConnected` passes through; the result always has a host and a port |
| ConnectionSettings.Loaded | src/lib/connectionSettings.ts:28-45 | a load gives the defaults when nothing usable is stored (missing, empty or unparseable), otherwise the repair of what was parsed; the result always has a non-empty host and a non-zero port |
| ConnectionSettings.SaveWritesOnlyItsKeys | src/lib/connectionSettings.ts:48-55 | a save (`Saved`) writes the serialised settings and the current version tag and leaves every other key as it was |
| ConnectionSettings.ClearRemovesOnlyItsKeys | src/lib/connectionSettings.ts:57-64 | a clear (`Cleared`) removes exactly the two keys and leaves every other key as it was |
| ConnectionSettings.GetConnectionSettings | src/lib/connectionSettings.ts:18-46 | only the version tag is rewritten, and the result is the load of the store as found |
| ConnectionSettings.SaveConnectionSettings | src/lib/connectionSettings.ts:48-55 | writes the serialised settings and the current version tag, nothing else |
| ConnectionSettings.ClearConnectionSettings | src/lib/connectionSettings.ts:57-64 | removes both keys, nothing else |
| ConnectionSettings.LoadFallsBackToDefaults | src/lib/connectionSettings.ts:28-31 | with nothing stored, an empty value or an unparseable one, a load gives localhost:8080, reconnect on, no connection time |
| ConnectionSettings.VersionRewriteKeepsSettings | src/lib/connectionSettings.ts:20-26 | rewriting the version tag leaves the settings key and every other key as they were, and does not change what a load gives |
| ConnectionSettings.RepairOfStored | src/lib/connectionSettings.ts:36-41 | repairing the serialised fields of settings with a host and a port gives them back |
| ConnectionSettings.SaveThenLoad | src/lib/connectionSettings.ts:48-55 | save followed by load gives the saved settings when the host is non-empty, the port non-zero and the codec round-trips that record |
| ConnectionSettings.SaveThenLoadRepairs | src/lib/connectionSettings.ts:48-55 | save followed by load gives the repair of what was saved (when the codec round-trips it), so an empty host or zero port comes back as the default |
| ConnectionSettings.ClearThenLoad | src/lib/connectionSettings.ts:57-64 | after a clear neither key is present and a load gives the defaults |
| KeyValueStore.Storage.GetItem | src/lib/connectionSettings.ts:20 | a value exactly when the key is present, and it is the stored one |
| KeyValueStore.Storage.SetItem | src/lib/connectionSettings.ts:25 | that key maps to the value, every other key is unchanged |
| KeyValueStore.Storage.RemoveItem | src/lib/connectionSettings.ts:59 | that key is absent, every other key is unchanged |
| ProjectStorage.Stored | src/lib/projectStorage.ts:115-122 | no projects when the key is missing or empty or its text is not JSON; the array when it holds one; a failure marker when it holds JSON that is not an array, which is handed on as it is |
| ProjectStorage.FindIndex | src/lib/projectStorage.ts:28 | the first position holding the id, or none when no position does |
| ProjectStorage.FindProject | src/lib/projectStorage.ts:51 | a project exactly when one has the id, and then the first of the array's with that id |
| ProjectStorage.Upserted | src/lib/projectStorage.ts:28-34 | the saved project is in the result; the array keeps its length when the id was present and grows by one otherwise; every project with another id stays where it was |
| ProjectStorage.WithoutId | src/lib/projectStorage.ts:81 | exactly the projects with another id remain |
| ProjectStorage.ListMetadata | src/lib/projectStorage.ts:60-69 | one summary per project in the same order, each field copied and the cue count equal to the number of cues |
| ProjectStorage.LastSegment | src/lib/projectStorage.ts:95 | a suffix of the path containing no `/` or `\`, preceded by a separator unless it is the whole path |
| ProjectStorage.FileNameOf | src/lib/projectStorage.ts:95 | the last segment, or `unknown.avc` when that is empty; never empty |
| ProjectStorage.NewProject | src/lib/projectStorage.ts:90-101 | the given id, name and path, with the file name drawn from the path; no cues; localhost:8080; created and opened now |
| ProjectStorage.ProjectStore.constructor | src/lib/projectStorage.ts:129 | the store and codec given |
| ProjectStorage.ProjectStore.ReadProjects | src/lib/projectStorage.ts:115-122 | what `Stored` gives for the current store |
| ProjectStorage.ProjectStore.SaveProject | src/lib/projectStorage.ts:21-42 | over a stored array, writes it back with the project upserted by id and reports success with its id; over a stored non-array, the array method throws, failure is reported with an error and nothing is written |
| ProjectStorage.ProjectStore.LoadProject | src/lib/projectStorage.ts:44-53 | the first stored project with that id, or null; rejects when the stored value is not an array |
| ProjectStorage.ProjectStore.ListProjects | src/lib/projectStorage.ts:55-71 | the summaries of the stored array; rejects when the stored value is not an array |
| ProjectStorage.ProjectStore.DeleteProject | src/lib/projectStorage.ts:73-88 | over a stored array, writes it back without that id and reports true, also when nothing matched; over a stored non-array, reports false and writes nothing |
| ProjectStorage.ProjectStore.CreateProject | src/lib/projectStorage.ts:90-105 | returns the new project whatever the save reported; it is upserted into a stored array, and nothing is written over a stored non-array |
| ProjectStorage.ProjectStore.UpdateLastOpened | src/lib/projectStorage.ts:107-113 | an existing project is saved again with the new time, otherwise nothing is written; rejects, writing nothing, when the stored value is not an array |
| ProjectStorage.UpsertShape | src/lib/projectStorage.ts:28-34 | an existing id is replaced at its first position with every other entry unchanged; otherwise the project is appended |
| ProjectStorage.UpsertGrowsByAtMostOne | src/lib/projectStorage.ts:28-34 | the array grows by at most one, and by one exactly when the id was absent |
| ProjectStorage.UpsertThenFind | src/lib/projectStorage.ts:28-34 | after an upsert, finding the id gives the saved project |
| ProjectStorage.FindIndexIsFirst | src/lib/projectStorage.ts:28 | the first position with the id is the one found |
| ProjectStorage.DeleteThenFind | src/lib/projectStorage.ts:81 | after a delete nothing with that id is found, and deleting another id does not change what is found |
| ProjectStorage.FindSkipsHead | src/lib/projectStorage.ts:51 | finding an id that the first project lacks searches the rest |
| ProjectStorage.FindAfterFilter | src/lib/projectStorage.ts:81 | removing another id does not change what a find gives |
| ProjectStorage.DeleteKeepsOrder | src/lib/projectStorage.ts:81 | delete distributes over concatenation, so the remaining projects keep their order |
| ProjectStorage.DeleteAbsentIsNoop | src/lib/projectStorage.ts:81 | deleting an id that is not stored leaves the array as it was |
| ProjectStorage.UnreadableStoreIsEmpty | src/lib/projectStorage.ts:115-122 | a missing store, or one whose text is not JSON, reads, and lists, as no projects |
| ProjectStorage.SaveThenLoad | src/lib/projectStorage.ts:26-37 | when the store held an array and the codec round-trips the array written, save followed by load gives back the saved project |
| ProjectStorage.WrittenReadsBack | src/lib/projectStorage.ts:36 | a written array that the codec round-trips reads back as itself |
| ProjectStorage.RoundTripsIsMeetable | src/lib/projectStorage.ts:36 | for every array some codec meets the round-trip requirement, so the round-trip lemmas are not vacuous |
| ProjectStorage.DeleteThenLoad | src/lib/projectStorage.ts:79-83 | when the store held an array and the codec round-trips the array written, delete followed by load finds nothing with that id |
| ProjectStorage.CreatedProjectIsListed | src/lib/projectStorage.ts:90-104 | a newly created project with a new id is listed last, with no cues |
| ProjectStorage.FileNameOfPath | src/lib/projectStorage.ts:95 | for `dir/name` or `dir\name` with a separator-free name, the file name is that name |
| ProjectStorage.LastSegmentOfName | src/lib/projectStorage.ts:95 | the last segment after a separator-terminated prefix is the rest |
| ProjectStorage.FileNameOfDirectory | src/lib/projectStorage.ts:95 | a path ending in a separator records `unknown.avc` |
| Workspace.Initial | src/pages/Workspace.tsx:19-26 | four demonstration cues, with the first one selected |
| Workspace.AddCue | src/pages/Workspace.tsx:28-38 | exactly one cue appended, the old ones kept; it is numbered and named after the new length, of type clip, disarmed, with the given id; it is selected |
| Workspace.DeleteCue | src/pages/Workspace.tsx:40-45 | exactly the cues with another id remain; the selection is cleared exactly when the selected cue has that id, and kept otherwise |
| Workspace.UpdateCue | src/pages/Workspace.tsx:47-50 | same length; exactly the positions with the updated id hold the updated cue and the others are unchanged; it is selected |
| Workspace.AddedNumberIsPosition | src/pages/Workspace.tsx:31 | the new cue's number reads back through `parseInt` as the new length |
| Workspace.DeleteUndoesAdd | src/pages/Workspace.tsx:28-45 | deleting a cue just added under a fresh id restores the list and clears the selection |
| Workspace.DeleteAbsentIsNoop | src/pages/Workspace.tsx:41 | deleting an id that no cue has leaves the list as it was |
| Workspace.DeleteKeepsOrder | src/pages/Workspace.tsx:41 | delete distributes over concatenation, so the remaining cues keep their order |
| Workspace.UpdateIdempotent | src/pages/Workspace.tsx:47-50 | a second identical update changes nothing |
| Workspace.DeleteOfReplaced | src/pages/Workspace.tsx:41-48 | replacing the cues with an id and then removing that id equals removing it directly |
| Workspace.DeleteAfterUpdate | src/pages/Workspace.tsx:40-50 | updating a cue and then deleting its id gives the same list as deleting it straight away, with no selection |
| ConnectionDialog.ResetDefaults | src/components/settings/ConnectionDialog.tsx:102-106 | the form shows the default settings: localhost, "8080", reconnect on |
| ConnectionDialog.FormFromSettings | src/components/settings/ConnectionDialog.tsx:50-56 | the opened form shows the settings' host and reconnect flag, and a port text that `parseInt` reads back as the port |
| ConnectionDialog.Validate | src/components/settings/ConnectionDialog.tsx:63-85 | rejected exactly when the trimmed host is empty or the port does not parse to 1..65535; the host message takes precedence; an attempt gets the trimmed host and the parsed port |
| ConnectionDialog.ResultToast | src/components/settings/ConnectionDialog.tsx:88-99 | success names the host and port as typed; failure is destructive and shows the message of the render in which the button was pressed, or the fixed hint when there was none |
| ConnectionDialog.FormatLastConnected | src/components/settings/ConnectionDialog.tsx:108-122 | no timestamp gives "Never"; an unreadable one gives "NaN day ago"; otherwise under a minute gives "Just now", then minutes below an hour, hours below a day, and days, each count the floor of the elapsed time over the unit |
| ConnectionDialog.BlankHostRejectedFirst | src/components/settings/ConnectionDialog.tsx:66-73 | a host made only of whitespace is refused with the host message, whatever the port |
| ConnectionDialog.OpenedFormValidates | src/components/settings/ConnectionDialog.tsx:50-85 | a form opened on settings with a clean host and an in-range port leads to an attempt on exactly those settings |
| ConnectionDialog.ResetFormValidates | src/components/settings/ConnectionDialog.tsx:102-106 | the reset form leads to an attempt on localhost:8080 |
| ConnectionDialog.OutOfRangePortRejected | src/components/settings/ConnectionDialog.tsx:75-82 | a port written as any integer outside 1..65535 is refused with the port message |
| ConnectionDialog.AgoShowsCount | src/components/settings/ConnectionDialog.tsx:120-122 | the count at the head of a relative time (`Ago`) reads back through `parseInt` as the count |
| ConnectionDialog.MinuteBoundary | src/components/settings/ConnectionDialog.tsx:115-120 | worked example: 59 999 ms is "Just now" and 60 000 ms is "1 minute ago" |
| ConnectionDialog.HourBoundary | src/components/settings/ConnectionDialog.tsx:115-121 | worked example: one millisecond short of an hour is "59 minutes ago", an hour is "1 hour ago" |
| ConnectionDialog.DayBoundary | src/components/settings/ConnectionDialog.tsx:116-122 | worked example: one millisecond short of a day is "23 hours ago", a day is "1 day ago" |
| JsStrings.TrimStart | src/components/settings/ConnectionDialog.tsx:66 | a suffix of the input, with no whitespace before it |
| JsStrings.TrimEnd | src/components/settings/ConnectionDialog.tsx:66 | a prefix of the input, with no whitespace after it |
| JsStrings.Trim | src/components/settings/ConnectionDialog.tsx:66 | the input's middle part, with only whitespace cut from either end; empty exactly when every character is whitespace; otherwise neither starts nor ends with whitespace |
| JsStrings.TrimOfTrimmed | src/components/settings/ConnectionDialog.tsx:85 | a text without outer whitespace trims to itself |
| JsStrings.TrimIdempotent | src/components/settings/ConnectionDialog.tsx:85 | trimming twice is trimming once |
| JsStrings.NatToString | src/pages/Workspace.tsx:31 | a non-empty run of decimal digits with no leading zero, one digit exactly below ten |
| JsStrings.IntToString | src/components/settings/ConnectionDialog.tsx:38 | the decimal numeral, with a minus sign exactly for a negative number |
| JsStrings.DigitValue | src/components/settings/ConnectionDialog.tsx:65 | a value from -1 up to 35, and 0..9 exactly for a decimal digit |
| JsStrings.DigitPrefix | src/components/settings/ConnectionDialog.tsx:65 | the longest prefix made of digits of the radix |
| JsStrings.ParseInt | src/components/settings/ConnectionDialog.tsx:65 | NaN exactly when no digit follows the whitespace, sign and prefix |
| JsStrings.DigitPrefixOfDigits | src/components/settings/ConnectionDialog.tsx:65 | a digit run followed by a non-digit reads as that run |
| JsStrings.DigitsValueOfNatToString | src/components/settings/ConnectionDialog.tsx:65 | the digits of a rendered number denote that number |
| JsStrings.NumeralIsUnsigned | src/components/settings/ConnectionDialog.tsx:65 | a rendered number, alone or before a space, starts with no whitespace, sign or hex prefix |
| JsStrings.MinusNumeral | src/components/settings/ConnectionDialog.tsx:65 | a minus sign before a numeral is read as the sign, and the numeral follows it |
| JsStrings.ParseIntOfNumeral | src/components/settings/ConnectionDialog.tsx:65 | `parseInt` of a rendered number, alone or before a space, gives the number |
| JsStrings.ParseIntOfIntToString | src/components/settings/ConnectionDialog.tsx:65 | `parseInt(String(i)) == i` for every integer of the model, which has no double-precision limit (see Left out) |
| Seqs.Filter | src/pages/Workspace.tsx:41 | no longer than the input, and an element is kept exactly when it is in the input and passes the test |
| Seqs.FilterAppend | src/pages/Workspace.tsx:41 | filtering distributes over concatenation |
| Seqs.FilterKeepsAll | src/lib/projectStorage.ts:81 | when every element passes, the filter is the input |
| Seqs.FilterIdempotent | src/pages/Workspace.tsx:41 | filtering twice is filtering once |

## Left out

- Real `fetch`, HTTP headers, JSON request bodies and the blob-to-data-URL conversion in `getThumbnail`: replies come from the oracle `net`, and a thumbnail reply carries its data URL.
- ResolumeApi.ResolumeAPI.TriggerMultipleLayers: the triggers run one after the other, each to completion. In the source, `map` starts every `triggerClip` at once, and each runs up to its first `await`, so every target's first request is issued, in target order, before any connect POST that waits behind a transition-time PUT. The model's request order therefore differs from the source's whenever a target with a transition time is followed by another target: for layer 1 clip 1 with a transition time, then layer 2 clip 5, the source issues PUT layer 1, POST layer 2 clip 5, POST layer 1 clip 1, and the model PUT layer 1, POST layer 1 clip 1, POST layer 2 clip 5. The positions that TriggerRequestsAt and TriggerResultAt state hold in the model only. The results agree: one per target, in target order, each the `ok` of that target's connect reply.
- ResolumeApi.ResolumeAPI.UpdateProxyTarget: a failure of the retarget post, which the source swallows and logs, is a reply that is ignored like any other. All `console` output is left out.
- The proxy relay. The client addresses `/api/resolume/connection` and `/api/resolume/proxy`. The server in the repository defines no such routes, so no relay behaviour is modelled beyond the requests the client issues.
- Cue GO sequencing, timers and auto-continue: the application implements none of them; the transport controls only toggle a flag.
- The desktop build: Electron IPC, the preload bridge, and the desktop branches of the project store, which call into the desktop process. The browser-window and desktop-bridge tests are boolean parameters.
- Purely presentational components (dialogs, start menu, inspector, cue list, toolbar, header, status indicator) and `src/lib/timeUtils.ts`, which only formats floating-point times.
- `Date.now`, `Math.random` and ISO timestamps: ids, `now` and elapsed milliseconds are parameters. ProjectStorage.NewProject: `createProject` reads the clock twice (projectStorage.ts:96-97), and the model takes one `now` for both, so `createdAt == lastOpened` is the model's guarantee, not the source's; the two stamps can differ by a millisecond.
- Storage exceptions (quota, disabled storage). Of `saveProject`'s `success: false` and `deleteProject`'s `false`, only the cases where a stored non-array makes the array method throw are modelled; the logging catch blocks of the settings functions are left out.
- JSON text itself. The codecs decide what a stored text parses to. For settings, `parse` gives `None` both for text that is not JSON and for JSON whose field access throws, such as `null`; a JSON object of another shape gives whichever fields it has. For projects, `parse` tells apart text that is not JSON, JSON that is not an array, and an array, whose elements are taken to be projects; an array of something else is not modelled.
- ProjectStorage.ProjectStore.SaveProject, LoadProject: the error message of the `TypeError` an array method raises on a stored non-array is the JavaScript engine's; the model uses one fixed text for it.
- ResolumeContext.Session.TestConnection: the exception branch of `testConnection`, status error with the exception's message, is not modelled. The client's probe catches every failure itself and never raises.
- ConnectionDialog.FormatLastConnected: the "Unknown" catch branch is not modelled. Reading an unparseable timestamp gives NaN arithmetic, not an exception, and the model gives "NaN day ago" for it.
- ConnectionDialog.ResultToast: the failure toast uses the error message of the render in which the button was pressed. That is the source's behaviour, and it means a failure right after a success shows the fallback hint. The model takes that message as a parameter instead of deriving it from the session.
- The dialog's auto-reconnect checkbox: the dialog never passes it on, so it has no effect, and the model gives it none.
- React scheduling and re-rendering: each state setter is an assignment, and a callback's captured settings are an explicit snapshot parameter.
- Numbers and JSON field types. Numbers are integers of unbounded size: ports, ids, columns and elapsed milliseconds are not IEEE doubles, so `String(n)` never switches to exponent notation (it does from 1e21) and `parseInt` never loses precision (it does above 2^53); `parseInt(String(i)) == i` and the port read back from a base URL hold only for integers within those limits in the source. JSON fields have the declared types: a stored port of `"7000"` or `8080.5`, or a string clip id, which the source would keep, cannot be represented. A composition body on which the source's mapping throws (a `null` body, `layers: "x"`, `layers: [null]`) is a reply with `json` None.
- ResolumeApi.ResolumeAPI.GetHost, GetPort: plain field reads with no contract of their own.

## Findings

| source | as written | input that shows it | evidently intended | confidence | as-written member | corrected member |
|---|---|---|---|---|---|---|
| src/contexts/ResolumeContext.tsx:53-64 | `updateConnection` retargets and saves the new host and port, then calls the `testConnection` of the same render. That callback still holds the render's old settings, so a successful probe sets and saves the OLD host and port, stamped with the connection time | stored settings 192.168.1.20:7070, every reply ok, `updateConnection("10.0.0.5", 7000)`: the client talks to 10.0.0.5:7000 but the settings held and persisted are 192.168.1.20:7070, so the next launch reconnects to the old address | a successful update persists the new host and port with the connection time | high; not executed | ResolumeContext.StaleSnapshotRun | ResolumeContext.Session.UpdateConnectionFixed |
