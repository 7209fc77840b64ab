# Group-discount campaigns: a verified model of the local core

This project models the local behaviour of a group-discount ("carro grupal") web
front end. A campaign offers a product at a group price once enough people have
joined. The model covers:

- the **campaign coordination engine** in `CampaignContext.tsx`: create, update,
  duplicate, change status, remove, join, load and list. It works over a local
  campaign store and the provider's in-memory list and active campaign;
- the **local campaign store** in `localStorage.ts`: campaigns kept in Web Storage
  under `campaign_<id>` keys, listed newest first;
- the **levelled log buffer** in `logger.ts`: a threshold filter in front of a FIFO
  buffer that holds at most 1000 entries;
- the **page and component rules**:
  - the tracking page: the payment-status cycle, de-duplicated visit records, the
    capped participant counter and the remaining-time arithmetic;
  - the admin dashboard: the statistics, the tabs and the pause/resume toggle;
  - the campaign page: the default product, the buttons, the price fallback and
    the simulate-completion loop;
  - the payment confirmation: the tracking record and its guards;
  - the progress panel;
  - the participant list: initials, avatar colour and the three renders.

Stateful parts are classes:

- `WebStorage.Storage` is `window.localStorage`. It holds a map of items and the
  order in which `key(i)` enumerates their keys.
- `CampaignContext.CampaignEngine` is the provider. It holds the storage, the
  `campaigns` list and the active campaign.
- `Logger.Logger` is the logger module's buffer and configuration.
- `TrackingPage.TrackingStore` holds the stored `trackings` and `campaigns` arrays.

Each method is stated against pure functions of the old state, such as
`LocalStore.Put`, `Types.ReplaceById` and `Logger.Appended`. The lemmas about those
functions carry the properties.

Modelling choices:

- **Times.** Timestamps are integer milliseconds. The clock reading (`now`) is a
  parameter.
- **Random ids.** The random parts of ids (`idToken`, `userToken`, a tracking id)
  are parameters.
- **Prices** are integers.
- **Strings** are Dafny strings, sequences of Unicode scalar values. JavaScript
  strings are sequences of UTF-16 code units. The two agree on every character of
  the Basic Multilingual Plane.
- **Storage failures.** A Web Storage write can throw, for example when the quota
  is exceeded or storage is disabled. The engine operations whose `catch` recovers
  take a flag `writeFails` that says whether the write throws. The failure branch
  is stated in each contract.
- **JSON.** A stored item is either the encoding of a campaign, which parses back
  to it, or other text, which does not parse as a campaign.

The remote API calls are fire-and-forget and are absent from the model. The one
asynchronous result that changes local state is the campaign list the API may
return. It is a separate operation, `CampaignEngine.ApplyRemoteList`.

Some behaviours of the code are easy to miss. The model follows the code:

- Creation does not validate its input: there is no check on names, prices or the
  threshold.
- No operation derives `expired`. Only a join sets `completed`. An update or a
  status change never re-derives the status from the counts or the deadline.
- A duplicate's deadline is the original's *absolute* deadline plus 48 hours
  (`DuplicateShiftsDeadline`). It is not the original's duration measured from the
  new creation time.
- On the tracking page, the visit effect stores the record the page showed
  *before* its own update. The first visit to `/seguimiento/X` stores the demo
  record and not one with id X (`FirstVisitStoresDemoId`).

## Model

| member | source | states |
|---|---|---|
| LocalStore.KeyOfInjective | client/src/utils/localStorage.ts:3-6 | different campaign ids give different storage keys, so saves of different ids never collide |
| LocalStore.Lookup | client/src/utils/localStorage.ts:9-19 | `getCampaign` finds a campaign exactly when its key is present and holds a campaign encoding; absent keys and text that does not parse give null |
| LocalStore.Decode | client/src/utils/localStorage.ts:13-18 | `JSON.parse` gives a campaign exactly for a campaign's encoding, and that campaign is the one encoded |
| LocalStore.Put | client/src/utils/localStorage.ts:5-7 | a save writes the campaign's encoding under `campaign_<id>` and leaves every other key present or absent, and unchanged, as before |
| LocalStore.Deleted | client/src/utils/localStorage.ts:42-44 | a delete removes exactly the key `campaign_<id>` and leaves every other key as it was |
| LocalStore.SaveCampaign | client/src/utils/localStorage.ts:5-7 | the storage items become `Put(old, c)`; a new key is enumerated last |
| LocalStore.GetCampaign | client/src/utils/localStorage.ts:9-19 | the answer is `Lookup` of the current items, covering the missing-key and unparseable-text branches |
| LocalStore.DeleteCampaign | client/src/utils/localStorage.ts:42-44 | the storage items become `Deleted(old, id)` and the key leaves the enumeration |
| LocalStore.InsertByDate | client/src/utils/localStorage.ts:37-39 | inserting into a newest-first list keeps it newest first and adds exactly the inserted campaign (multiset) |
| LocalStore.SortNewestFirst | client/src/utils/localStorage.ts:37-39 | the comparator sort returns a permutation of its input ordered by `createdAt`, newest first |
| LocalStore.GetAllCampaigns | client/src/utils/localStorage.ts:21-40 | the index loop collects the campaigns under prefixed keys in enumeration order; the result is newest first and a permutation of that collection |
| LocalStore.KeyRoundTrip | client/src/utils/localStorage.ts:27-28 | stripping the prefix with `replace` recovers the id from its key, and the key of the recovered id is the enumerated key |
| LocalStore.CollectedExactly | client/src/utils/localStorage.ts:25-34 | a campaign is collected iff some enumerated key has the `campaign_` prefix and holds its encoding; other keys and unparseable text are skipped |
| LocalStore.Collected | client/src/utils/localStorage.ts:25-34 | at most one campaign is collected per enumerated key |
| LocalStore.NewestFirst | client/src/utils/localStorage.ts:37-39 | in a newest-first list the head is at least as new as every entry |
| LocalStore.GetAfterSave | client/src/utils/localStorage.ts:5-19 | after saving `c`, getting `c.id` gives `c` |
| LocalStore.GetAfterSaveOther | client/src/utils/localStorage.ts:5-19 | saving `c` leaves the answer for every other id unchanged |
| LocalStore.LaterSaveWins | client/src/utils/localStorage.ts:5-7 | two saves for the same id leave the store as the second save alone does |
| LocalStore.GetAfterDelete | client/src/utils/localStorage.ts:42-44 | after deleting `id`, getting it gives null, and other ids keep their answers |
| LocalStore.DeleteIdempotent | client/src/utils/localStorage.ts:42-44 | deleting twice is deleting once |
| LocalStore.SavePreservesWellKeyed | client/src/utils/localStorage.ts:5-7 | saves keep every stored campaign under the key of its own id |
| LocalStore.DeletePreservesWellKeyed | client/src/utils/localStorage.ts:42-44 | deletes keep every stored campaign under the key of its own id |
| LocalStore.LookupCarriesId | client/src/utils/localStorage.ts:9-19 | in a well-keyed store, the campaign found for an id carries that id |
| WebStorage.Storage.SetItem | client/src/utils/localStorage.ts:6 | `setItem` maps the key to the value and keeps the enumeration duplicate-free and in step with the keys present |
| WebStorage.Storage.RemoveItem | client/src/utils/localStorage.ts:43 | `removeItem` drops the key from the items and from the enumeration |
| WebStorage.Storage.Length | client/src/utils/localStorage.ts:25 | `length` is the number of stored keys |
| WebStorage.Storage.Key | client/src/utils/localStorage.ts:26 | `key(i)` is the i-th enumerated key, or null past the end |
| WebStorage.Storage.GetItem | client/src/utils/localStorage.ts:10 | `getItem` gives the stored item for a present key and null for an absent one |
| Text.ReplacePrefixStrips | client/src/utils/localStorage.ts:28 | `replace` of a string's own prefix by "" removes exactly that prefix |
| Text.IndexFrom | client/src/utils/localStorage.ts:28 | the first occurrence of the pattern at or after a position, or none |
| Text.StartsWith | client/src/utils/localStorage.ts:27 | `startsWith(prefix)` holds iff the string is the prefix followed by some rest |
| Text.ReplaceFirst | client/src/utils/localStorage.ts:28 | `replace` with a string pattern changes nothing when the pattern does not occur, and otherwise swaps only its first occurrence, keeping what is before and after |
| Text.Decimal | client/src/context/CampaignContext.tsx:315 | `toString()` of a non-negative integer is non-empty, all decimal digits, without a leading zero |
| Text.DecimalRoundTrip | client/src/pages/TrackingPage.tsx:225 | the decimal text of a number reads back as that number |
| Text.SliceFromEnd | client/src/context/CampaignContext.tsx:315 | `slice(-k)` is the last k characters, or the whole string when it is shorter |
| Logger.LevelIndexIsSeverity | client/src/utils/logger.ts:25-28 | `levels.indexOf(l)` is the rank of `l` in DEBUG < INFO < WARNING < ERROR; no level is missing (-1) |
| Logger.Logger.ShouldLog | client/src/utils/logger.ts:25-31 | `shouldLog(l)` holds iff `l` ranks at least as high as the configured level |
| Logger.DefaultLevelSuppressesDebug | client/src/utils/logger.ts:18-31 | with the default level INFO, DEBUG is filtered out and the other three pass |
| Logger.Appended | client/src/utils/logger.ts:51-57 | an accepted entry is appended at the end; when the buffer was full only the oldest entry is dropped; a buffer within 1000 stays within 1000 |
| Logger.Logger.constructor | client/src/utils/logger.ts:14-22 | the initial state is an empty buffer, both outputs on and level INFO |
| Logger.Logger.Log | client/src/utils/logger.ts:34-77 | a filtered-out call returns null and leaves the buffer alone; an accepted call returns its entry, appended via `Appended` when memory storage is on and not stored otherwise; the bound of 1000 is kept |
| Logger.Logger.GetLogs | client/src/utils/logger.ts:93 | the copy has the buffer's contents in order |
| Logger.Logger.GetLogsByLevel | client/src/utils/logger.ts:96-97 | exactly the buffer's entries with that level, in buffer order (a subsequence) and with every copy of a repeated entry |
| Logger.Logger.GetLogsByContext | client/src/utils/logger.ts:100-101 | exactly the buffer's entries with that context, in buffer order (a subsequence) and with every copy of a repeated entry |
| Logger.ByLevelAfterAppend | client/src/utils/logger.ts:51-97 | the by-level query after a log call is the old answer, less a shifted-out entry, followed by the new entry when it matches: buffer order is kept |
| Logger.Logger.ClearLogs | client/src/utils/logger.ts:104-106 | the buffer becomes empty |
| Logger.Logger.SetLogLevel | client/src/utils/logger.ts:109-111 | the threshold used by later calls becomes the given level |
| Logger.Logger.EnableMemoryStorage | client/src/utils/logger.ts:117-119 | the memory-storage switch becomes the given value |
| Logger.Logger.EnableConsoleOutput | client/src/utils/logger.ts:113-115 | the console switch becomes the given value |
| SeqUtil.FilterConcat | client/src/utils/logger.ts:96-101 | `filter` distributes over concatenation: it keeps the order and adds nothing |
| SeqUtil.FilterIsSubsequence | client/src/pages/AdminPage.tsx:524-530 | `filter` returns an order-preserving subsequence of its input |
| Types.ReplaceById | client/src/context/CampaignContext.tsx:136 | `map(c => c.id === id ? x : c)` keeps the length, replaces exactly the entries with that id and keeps the others |
| Types.WithoutId | client/src/context/CampaignContext.tsx:213 | `filter(c => c.id !== id)` keeps exactly the entries with another id, in their order (a subsequence) and with every copy |
| Types.Find | client/src/context/CampaignContext.tsx:268 | `find` returns the first entry that passes the test, or none when no entry passes |
| Types.FindById | client/src/context/CampaignContext.tsx:268 | `find(c => c.id === id)` returns the first entry with the id, or none when no entry has it |
| CampaignContext.NewCampaign | client/src/context/CampaignContext.tsx:52-100 | the optimistic campaign has a `temp_` id, count 1 and exactly one participant named Administrador, is active, was created now, keeps an explicit deadline or gets now + 48h, and copies the input's other fields unvalidated |
| CampaignContext.CampaignEngine.CreateCampaignWithParams | client/src/context/CampaignContext.tsx:52-105 | returns `NewCampaign(input, …)` and saves exactly it under its id |
| CampaignContext.CampaignEngine.CreateCampaign | client/src/context/CampaignContext.tsx:108-116 | creation with the fixed headphones input (30, 20, 10 people, no deadline) |
| CampaignContext.CampaignEngine.UpdateCampaign | client/src/context/CampaignContext.tsx:119-147 | an id missing from the store, or a save that throws, gives null and changes nothing; otherwise the merged record is saved, replaces the list entries with that id, and replaces the active campaign only when its id matches |
| CampaignContext.MergeLaws | client/src/context/CampaignContext.tsx:129 | a patch sets exactly the properties it carries: the empty patch gives the stored record back, and a patch applied twice is applied once |
| CampaignContext.Merge | client/src/context/CampaignContext.tsx:129 | each property the patch carries overrides the stored one, and every property it lacks keeps the stored value |
| CampaignContext.UpdateNeverDerivesStatus | client/src/context/CampaignContext.tsx:129 | an update without a status keeps the stored status whatever the counts |
| CampaignContext.CampaignEngine.ChangeCampaignStatus | client/src/context/CampaignContext.tsx:204-206 | the stored record with only `status` changed is saved and returned, in the list and the matching active campaign; participants, counts and deadline stay; an unknown id or a throwing save gives null and changes nothing |
| CampaignContext.StatusPatchChangesOnlyStatus | client/src/context/CampaignContext.tsx:204-206 | the status patch merged into a record is that record with only its status replaced |
| CampaignContext.Duplicated | client/src/context/CampaignContext.tsx:159-183 | the copy has a `cmp_` id, the name plus " (copia)", count 1 with one Administrador participant, active, created now, the original's prices, threshold, description, image and category, and a deadline 48h after the original's (or after now) |
| CampaignContext.DuplicateShiftsDeadline | client/src/context/CampaignContext.tsx:164-166 | the copy's deadline is the original's absolute deadline plus 48 hours |
| CampaignContext.CampaignEngine.DuplicateCampaign | client/src/context/CampaignContext.tsx:150-201 | an unknown id or a throwing save gives null and changes nothing; otherwise the copy is saved, returned and appended at the end of the list |
| CampaignContext.DuplicateKeepsOriginal | client/src/context/CampaignContext.tsx:160-187 | saving the copy leaves the original's stored record untouched when the fresh id differs |
| CampaignContext.CampaignEngine.RemoveCampaign | client/src/context/CampaignContext.tsx:209-223 | true iff the removal does not throw; then the id leaves the store and the list, and the active campaign is cleared iff it had that id; a throwing removal answers false and changes nothing |
| CampaignContext.RemoveTwiceIsRemoveOnce | client/src/context/CampaignContext.tsx:209-218 | a second removal of the same id changes neither the store nor the list |
| CampaignContext.CampaignEngine.LoadCampaign | client/src/context/CampaignContext.tsx:241-283 | the synchronous answer is the first list entry with the id, else the stored campaign, else null; an answer becomes the active campaign |
| CampaignContext.Joined | client/src/context/CampaignContext.tsx:324-343 | a join adds one to the count and appends one participant at the end; the status becomes completed when the new count reaches the threshold and is unchanged otherwise; nothing else changes |
| CampaignContext.CampaignEngine.JoinCampaign | client/src/context/CampaignContext.tsx:311-358 | an unknown id, or a save that throws (the catch only logs), changes nothing locally; otherwise the joined record is saved, becomes the active campaign and replaces the list entries with that id |
| CampaignContext.SequentialJoins | client/src/context/CampaignContext.tsx:324-343 | k joins add exactly those k participants in order and change nothing but the count, the participants and the status; after at least one join that brings the count to the threshold the campaign is completed, and while the final count stays below it the status is kept |
| CampaignContext.JoinsKeepCount | client/src/context/CampaignContext.tsx:327-329 | joins keep `currentParticipants == |participants|` |
| CampaignContext.JoinAll | client/src/context/CampaignContext.tsx:324-343 | repeated joins keep the campaign's id and threshold |
| CampaignContext.ThresholdUnlock | client/src/context/CampaignContext.tsx:324-343 | a new campaign for 3 people is still active after one join and completed with count 3 after two |
| CampaignContext.JoinNameShape | client/src/context/CampaignContext.tsx:315 | the participant name is "Participante " followed by the last one to four digits of the clock reading |
| CampaignContext.CampaignEngine.GetAllCampaigns | client/src/context/CampaignContext.tsx:380-388 | the synchronous answer is the list when it is non-empty, else the stored campaigns newest first |
| CampaignContext.CampaignEngine.ApplyRemoteList | client/src/context/CampaignContext.tsx:366-374 | the API list replaces the in-memory list and each entry is saved in turn |
| CampaignContext.WriteThroughStoresLast | client/src/context/CampaignContext.tsx:373 | after the write-through, the store answers each id with the last API entry for it |
| CampaignContext.WriteThroughKeepsOthers | client/src/context/CampaignContext.tsx:373 | ids the API list does not mention keep their stored answer |
| CampaignContext.CampaignEngine.ReceiveQueryData | client/src/context/CampaignContext.tsx:22-33 | the list becomes the query's data when there is any, else the stored campaigns newest first |
| CampaignContext.CampaignEngine.constructor | client/src/context/CampaignContext.tsx:11-12 | the provider starts with an empty list and no active campaign |
| TrackingPage.NextStatus | client/src/pages/TrackingPage.tsx:22-31 | every step of the status cycle changes the status |
| TrackingPage.NextStatusCycle | client/src/pages/TrackingPage.tsx:22-31 | Pendiente → Confirmado → Reembolsado → Pendiente: every step changes the status and three steps are the identity |
| TrackingPage.RouteTracking | client/src/pages/TrackingPage.tsx:72-79 | a non-empty route id resets the shown record to the demo record (status Pendiente) carrying the route's tracking id; without one the record stays |
| TrackingPage.RouteChangeResetsStatus | client/src/pages/TrackingPage.tsx:72-79 | a status toggled on one route is lost when the route changes: the next route shows Pendiente with its own id |
| TrackingPage.WithTracking | client/src/pages/TrackingPage.tsx:83-90 | the visit keeps the old entries as a prefix and adds the record iff no entry has its tracking id, so unique tracking ids stay unique |
| TrackingPage.WithCampaign | client/src/pages/TrackingPage.tsx:93-99 | the visit adds the campaign iff no entry has its id, so unique ids stay unique |
| TrackingPage.TrackingStore.RecordVisit | client/src/pages/TrackingPage.tsx:81-102 | the two stored arrays become `WithTracking` and `WithCampaign` of their old contents |
| TrackingPage.RecordVisitIdempotent | client/src/pages/TrackingPage.tsx:86-99 | recording the same visit twice stores it once |
| TrackingPage.FirstVisitStoresDemoId | client/src/pages/TrackingPage.tsx:68-90 | on the first visit the stored record is the demo record, which lacks the route's tracking id |
| TrackingPage.SetPaymentStatus | client/src/pages/TrackingPage.tsx:133-137 | the list keeps its length; entries with the tracking id get the new status and nothing else changes |
| TrackingPage.TrackingStore.TogglePaymentStatus | client/src/pages/TrackingPage.tsx:119-139 | the shown record moves one step along the cycle and the stored records with its id get that status |
| TrackingPage.ThreeTogglesRestore | client/src/pages/TrackingPage.tsx:119-139 | three toggles bring back every stored record |
| TrackingPage.CappedIncrement | client/src/pages/TrackingPage.tsx:152-164 | no change once the count reaches the threshold, otherwise count + 1 with nothing else changed; a count at or below the threshold stays at or below it |
| TrackingPage.Presses | client/src/pages/TrackingPage.tsx:152-164 | k presses add at most k people, keep the threshold, and never push a count at or below the threshold past it |
| TrackingPage.PressesSaturate | client/src/pages/TrackingPage.tsx:152-164 | k presses bring a count at or below the threshold to min(count + k, threshold) and change nothing else |
| TrackingPage.TrackingStore.AddParticipant | client/src/pages/TrackingPage.tsx:148-181 | a full campaign changes nothing; otherwise the incremented campaign replaces the stored entries with its id, keeping the list length |
| TrackingPage.TimeRemaining | client/src/pages/TrackingPage.tsx:214-226 | "expired" iff timestamp + 48h − now ≤ 0; otherwise the hours and minutes (minutes < 60) bracket the remaining milliseconds to the minute, and at most 48 hours remain |
| TrackingPage.TimeRemainingText | client/src/pages/TrackingPage.tsx:220-225 | "Tiempo expirado" when time is up; otherwise "<h> horas <m> minutos", whose decimal numerals read back as the hours and minutes |
| TrackingPage.TimeRemainingMilestones | client/src/pages/TrackingPage.tsx:214-226 | 48 h 0 min right after the purchase, 0 h 1 min one minute before the end, expired at the end |
| AdminPage.Displayed | client/src/pages/AdminPage.tsx:522 | the API's list whenever there is one, even an empty one, else the context list |
| AdminPage.CampaignStats | client/src/pages/AdminPage.tsx:259-267 | total is the list length, active + completed + other = total, and each count is the size of its tab |
| AdminPage.PartitionCount | client/src/pages/AdminPage.tsx:264-266 | the three status filters' sizes add up to the list length |
| AdminPage.FilterByTab | client/src/pages/AdminPage.tsx:524-530 | a campaign is shown iff it is in the list and passes the tab's test |
| AdminPage.TabsAreTheClasses | client/src/pages/AdminPage.tsx:526-528 | the "active", "completed" and "other" tabs filter by exactly the three status classes |
| AdminPage.AllAndUnknownTabsShowEverything | client/src/pages/AdminPage.tsx:524-530 | "all" and every tab name other than the three give the whole list |
| AdminPage.TabKeepsOrder | client/src/pages/AdminPage.tsx:524-530 | each tab's result is an order-preserving subsequence of the list |
| AdminPage.TabsPartition | client/src/pages/AdminPage.tsx:526-528 | every campaign of the list is under exactly one of the three status tabs |
| AdminPage.ToggleTarget | client/src/pages/AdminPage.tsx:403 | the toggle gives paused iff the status is active, and active for every other status or none |
| AdminPage.ToggleTwice | client/src/pages/AdminPage.tsx:403 | two toggles restore active or paused; any other status ends paused |
| CampaignPage.FindByName | client/src/pages/CampaignPage.tsx:141 | `find` by name returns the first product with that name, or none when no product has it |
| CampaignPage.DefaultProduct | client/src/pages/CampaignPage.tsx:138-144 | the chosen product is one of the four, named like the campaign when one is, else the first |
| CampaignPage.InitialSelection | client/src/pages/CampaignPage.tsx:138-144 | a default is chosen only with an active campaign and no selection; a selection is never replaced |
| CampaignPage.IsCampaignComplete | client/src/pages/CampaignPage.tsx:205 | the page's test is the progress panel's: complete iff nobody is missing |
| CampaignPage.ActionButtons | client/src/pages/CampaignPage.tsx:446-477 | exactly one button is shown: finalize iff the count reaches the threshold, pay otherwise |
| CampaignPage.DisplayedPrice | client/src/pages/CampaignPage.tsx:466 | the selected product's group price, falling back to the campaign's when there is no selection or the price is 0 |
| CampaignPage.DisplayedName | client/src/pages/CampaignPage.tsx:473 | the selected product's name, falling back to the campaign's when there is no selection or the name is empty |
| CampaignPage.AlternativesNeverFallBack | client/src/pages/CampaignPage.tsx:16-45 | for the four offered products neither fallback applies |
| CampaignPage.ShouldLoad | client/src/pages/CampaignPage.tsx:130 | the effect loads only for a matched, non-empty route id, and then exactly when it differs from the id loaded last |
| CampaignPage.AfterLoadEffect | client/src/pages/CampaignPage.tsx:129-135 | the remembered id becomes the route id exactly when the effect loads |
| CampaignPage.LoadOncePerId | client/src/pages/CampaignPage.tsx:130-134 | re-running the effect for the same route does not load again |
| CampaignPage.Missing | client/src/pages/CampaignPage.tsx:556-560 | the simulation makes required − current joins when incomplete and none otherwise |
| CampaignPage.Joiners | client/src/pages/CampaignPage.tsx:559-562 | one participant per join the tool makes |
| CampaignPage.JoinerAt | client/src/pages/CampaignPage.tsx:559-562 | the i-th added participant is the join participant for the i-th clock reading and user id |
| CampaignPage.JoinOnce | client/src/pages/CampaignPage.tsx:195-199 | one press of the join handler saves the stored campaign after one more join, makes it active and puts it in the list; an unknown id changes nothing |
| CampaignPage.JoinStep | client/src/pages/CampaignPage.tsx:560-562 | one more iteration of the loop extends the state after i joins to the state after i + 1 joins |
| CampaignPage.SimulateCompletion | client/src/pages/CampaignPage.tsx:552-562 | the tool joins the shown id `Missing` times; the store then holds the stored campaign after exactly those joins, which is also the active campaign and replaces the list entries; an unknown id or a complete campaign changes nothing |
| CampaignPage.SimulationCompletes | client/src/pages/CampaignPage.tsx:556-562 | when the page shows the stored counts, the simulation ends with the count exactly at the threshold and the campaign completed |
| PaymentSuccessPage.TrackingIdAfterLoad | client/src/pages/PaymentSuccessPage.tsx:47-54 | a new tracking id is used only when none is set |
| PaymentSuccessPage.TrackingIdSetOnce | client/src/pages/PaymentSuccessPage.tsx:47-54 | once set, the tracking id survives later runs of the effect |
| PaymentSuccessPage.TrackingRecord | client/src/pages/PaymentSuccessPage.tsx:81-89 | the record carries the tracking id, the campaign's id, Pendiente, the contact as typed and the time; name and price come from the selection unless it has none |
| PaymentSuccessPage.RecordShowsCampaignPageChoice | client/src/pages/PaymentSuccessPage.tsx:81-89 | with the campaign page's default selection, the record stores that alternative's own name and positive price, the ones the page displayed, and the campaign's product name when it is offered |
| PaymentSuccessPage.SubmitContactInfo | client/src/pages/PaymentSuccessPage.tsx:68-95 | a contact that trims to empty, or no campaign, writes nothing; otherwise the record is appended at the end, keeping the prior entries |
| PaymentSuccessPage.SubmitDoesNotDeduplicate | client/src/pages/PaymentSuccessPage.tsx:92-95 | submitting twice stores two records with one tracking id, unlike the tracking page's visit |
| Text.Trim | client/src/pages/PaymentSuccessPage.tsx:69 | `trim()` never lengthens, leaves no white space at either end, and gives "" iff every character is ECMAScript white space or a line terminator |
| Text.UpperChar | client/src/components/ParticipantsList.tsx:17 | `toUpperCase` of one character moves a-z and the Latin-1 small letters to their capitals and keeps every character outside those ranges |
| Text.SpanishCapitals | client/src/components/ParticipantsList.tsx:17 | á, é, í, ó, ú, ü and ñ become Á, É, Í, Ó, Ú, Ü and Ñ |
| SeqUtil.FilterMultiplicity | client/src/utils/logger.ts:96-101 | `filter` keeps every copy of an accepted element and no copy of a rejected one |
| CampaignProgress.Remaining | client/src/components/CampaignProgress.tsx:12 | `max(0, required − current)` is at least 0 and at least required − current, and is one of the two |
| CampaignProgress.IsComplete | client/src/components/CampaignProgress.tsx:11-12 | complete iff nobody is missing |
| CampaignProgress.OneMoreParticipant | client/src/components/CampaignProgress.tsx:11-12 | one more participant lowers the number missing by one until none is missing |
| CampaignProgress.View | client/src/components/CampaignProgress.tsx:16-47 | the unlocked panel iff complete; otherwise the locked panel shows required − current > 0 people missing |
| ParticipantsList.Split | client/src/components/ParticipantsList.tsx:14 | `split(' ')` gives at least one piece and no piece holds a space |
| ParticipantsList.SplitJoinRoundTrip | client/src/components/ParticipantsList.tsx:14 | joining the pieces with spaces gives the name back |
| ParticipantsList.Heads | client/src/components/ParticipantsList.tsx:15-16 | one character per non-empty piece: empty pieces' `undefined` joins as nothing |
| ParticipantsList.HeadsAreWordStarts | client/src/components/ParticipantsList.tsx:13-16 | the heads of the pieces are exactly the characters that start a word |
| ParticipantsList.Initials | client/src/components/ParticipantsList.tsx:12-18 | the initials are the upper-cased word-initial characters, one per non-empty piece |
| ParticipantsList.InitialsExample | client/src/components/ParticipantsList.tsx:12-18 | "a  b" gives "AB" and "" gives "" |
| ParticipantsList.ColorIndex | client/src/components/ParticipantsList.tsx:32 | a non-empty name gives the code of its first character mod 7, within [0, 7); the empty name gives none |
| ParticipantsList.ColorClass | client/src/components/ParticipantsList.tsx:21-34 | a non-empty name gets one of the seven classes; the empty name gets none |
| ParticipantsList.SameFirstCharSameColor | client/src/components/ParticipantsList.tsx:32-33 | names with the same first character get the same class |
| ParticipantsList.View | client/src/components/ParticipantsList.tsx:36-88 | no list gives the loading placeholder, an empty list the empty message, otherwise one row per participant in order |

## Left out

- Remote API traffic is not modelled: queries, mutations, `apiRequest`, cache invalidation and the API-first branch of `loadCampaign`. It is asynchronous network I/O. The API's list reaches the model only as the input of `ApplyRemoteList` and `ReceiveQueryData`.
- The lost-update race between overlapping joins, and every timer (the 30-second refresh, the one-second countdown) are left out. The model is sequential.
- Floating-point results are left out: discount and progress percentages, the bar width and `parseFloat` in the form. Prices are integers.
- Console output of the logger is console I/O. The `logInfo`, `logWarning`, `logError` and `logDebug` wrappers only call `log` with a fixed level.
- The rendering of timestamps is left out: ISO strings, `toLocaleString` and `formatDistanceToNow`. Times are integer milliseconds.
- One clock reading stands in for the several `Date.now()`/`new Date()` calls of one operation. For example, a join's name and its `joinedAt` share one reading.
- Fresh ids are parameters, and their generation is not modelled. This covers the base-36 text of `Math.random` and `Date.now` and the `substring(2, 9)` slice.
- LocalStore.Decode: JSON that parses to something other than a campaign is treated like text that fails to parse, so `getCampaign` answers null. The real code would return the parsed value.
- CampaignContext.Merge: a patch property that is present but `undefined` is modelled as absent. The spread would overwrite the stored value with `undefined`.
- LocalStore.SortNewestFirst: it is a stable insertion sort, as `Array.prototype.sort` is. Only orderedness and permutation are proved; stability is not.
- WebStorage.Storage.SetItem: the browser's enumeration order for `key(i)` is not specified. The model appends a new key last and keeps an existing key in place, and `getAllCampaigns` collects in that order before sorting.
- Text.UpperChar: `toUpperCase` is modelled for the Basic Latin and Latin-1 letters only. Other characters are kept as they are, including letters of the later Latin blocks, Greek and Cyrillic, and `ß`, whose capital form is the two letters "SS".
- The `trackings`, `campaigns` and `selectedProduct` storage keys hold whole JSON arrays. `TrackingPage.TrackingStore` models them as the parsed arrays, and a parse failure of those arrays is not modelled.
- CampaignPage.SimulateCompletion takes one clock reading and one user id per join as inputs, in sequences of exactly `Missing(shown)` entries.
- Share links, clipboard, navigation, toasts and alerts are browser I/O. This includes the `selectedProduct` write before payment.
- Characters outside the Basic Multilingual Plane are one Dafny character but two UTF-16 code units in JavaScript. Every string operation of the model treats such a character as one unit.
- ParticipantsList.Heads: for a piece that starts with such a character, the source's `n[0]` is its first code unit, a lone surrogate. The model takes the whole character.
- ParticipantsList.Initials: built on `Heads`, so it differs in the same way for those characters.
- ParticipantsList.ColorIndex: `charCodeAt(0)` of a name that starts with such a character is its high surrogate. The model uses the character's scalar value, so the colour can differ.
- ParticipantsList.ColorClass: chosen by `ColorIndex`, so it differs in the same way.
- The engine's log calls (`logInfo`, `logWarning` and `logError` at each step of create, update, duplicate, remove, join and load) are not modelled. They only append to the logger's buffer, which `Logger.Logger.Log` models on its own, and they do not change the engine's state or answers.
- CampaignContext.CampaignEngine.constructor: it requires the storage to be well keyed, so that every item under `campaign_<id>` is the encoding of a campaign with id `<id>`. The source assumes this without checking it. Every engine operation keeps it.
- CampaignContext.CampaignEngine.CreateCampaignWithParams: a save that throws is not modelled. Its `catch` logs and rethrows, so no local state is left to describe.
- CampaignContext.CampaignEngine.ApplyRemoteList: a save that throws inside the write-through is not modelled. It rejects the promise part-way through the list, and the list state is already set.
- CampaignPage.SimulateCompletion: every storage write of the loop is assumed to succeed.
- The stored `trackings` and `campaigns` arrays of `TrackingPage.TrackingStore` are assumed to be written without error.
- CampaignContext.JoinParticipant has no contract of its own. `CampaignPage.JoinerAt`, `CampaignContext.JoinNameShape` and the contract of `CampaignContext.Joined` state what a join adds.
