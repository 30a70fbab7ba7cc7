# WellBoard, verified

WellBoard keeps a routing configuration (subscription sources, servers, groups, routes), compiles it
into a mihomo rule profile and applies that profile to a live router, rolling back when the router
does not come up healthy. This project models that logic in Dafny and proves what it is for.

A module follows a component of the program. Code that runs loops over mutable state is a method or
a class proved against a function; the theorems are lemmas about the function, so they speak about
what the loops compute. Everything the program asks of the outside world (network answers, clocks,
files, the UCI tool, the mihomo binary, hashes, a few Go library calls) is an input, free to answer
anything.

| files | what they hold |
|---|---|
| `Prelude`, `Text`, `Sorting`, `Model` | Option and Result, the Go string operations, the stable sort, the state document |
| `Names`, `Generator`, `Build` | the compiler: name table, what each pass produces, the passes as loops |
| `WellFormedness`, `Meaning`, `Closure` | when it succeeds, what the rules mean, that references close |
| `FailClosed`, `Leaks` | which routes can end at DIRECT, through any chain of groups, and exactly which leak when a group is named DIRECT |
| `Distinctness` | when all names of a profile differ |
| `RuleLine` | rule lines as text: print, parse, and the value checks between them |
| `Merge`, `PoolHistory`, `MergeIds`, `Updater` | the in-place pool merge, whole runs of it, what it does to server IDs, update rounds and backoff |
| `Apply`, `ApplySafety`, `ApplyContent` | the apply/rollback protocol over the router adapter, its guarantees, and which documents it runs |
| `Ids`, `Api`, `Import`, `OwnProfile` | ID minting, the request handlers, rule import, and importing one's own profile |
| `ApiSafety`, `ApiRoutes`, `ApiProfile` | what every run of requests and merges keeps: references, route IDs, distinct IDs |
| `ApiCompiles` | exactly when each request leaves a compilable document compilable |
| `Witnesses` | concrete inputs for the shortfalls listed below |
| `Limiter` | the login throttle |
| `Geodata` | the geosite tag scanner |
| `Templates` | the overlay catalog |

`dafny verify dfyconfig.toml` checks the project.

## What came out

Main results, each for all inputs and all runs within the provisos it names:

- The compiler succeeds on exactly the well-formed states, and then the first rule that matches a
  packet belongs to the least (order, ID) enabled route that the packet hits.
- With no group named DIRECT, the service group of a route ID reaches DIRECT through groups, cycles
  included, exactly when an enabled route of that ID asks for it, or the ID is "default" and the
  default policy is DIRECT. So a blocking route with an ID of its own stays closed. The condition
  without that proviso is given too.
- A subscription pool that starts empty is a function of the last three answers, however merges of
  other sources interleave and whatever rounds and single refreshes there are. Any other pool without
  repeated keys, edited or not, is so three answers later, up to IDs and measured latencies.
- Every activation in every run of applies and rollbacks concerns a profile that was validated here
  or was there before; every history record follows its activation and a healthy answer. When apply
  names are new, what is activated is the very document that was validated under its name, and a
  record stands for the profile compiled from a state of its hash.
- If attempts of an address do not interleave, at most five wrong passwords of it fall into any ten
  minutes without a success between them. A success starts the count over
  (`Witnesses.SuccessStartsOver`).
- Bulk import is conservative, harmless and idempotent. It imports nothing of the program's own profile
  exactly when no line is importable into the document, which holds when no server or group name
  starts with "rt:".
- Over runs of all requests and update rounds, references between routes, groups and servers dangle
  only through five steps: group patches, source deletions, pasted links, update rounds and document
  imports. For each of them the exact condition is given.
- For each request and each merge, the exact condition under which a compilable document stays
  compilable, when no ID is carried twice.

Where the code falls short of what one would expect of it, each with a concrete input and, where
there is one, the exact condition:

- Display names "N", "N", "N #2" get two equal names (`Names.ThreeGroupClash`). All names of a profile
  differ iff group IDs do, no display name reads like a suffixed repetition of another, enabled routes
  share no ID nor use "default", and no server is shown under a service name, which takes a route ID
  with a bracket (`Distinctness.NamesDistinctIff`, `Distinctness.MintedNamesDistinctIff`). Only a group
  name can read like a repetition (`Distinctness.ClashNeedsGroupName`).
- A user group called DIRECT defeats fail-closed routing (`Witnesses.BlockingRouteLeaks`), for exactly
  the routes from whose target, or from a group called REJECT, group IDs lead to it (`Leaks.LeaksIff`).
- A document import may bring two routes of one ID, or a route with the ID "default"; a blocking route
  then leaks through the other (`Witnesses.SharedRouteIdLeaks`, `Witnesses.DefaultIdLeaks`), exactly
  when `FailClosed.FailClosedIff` says.
- A document import may bring a route ID with a comma; its lines split into too many segments
  (`Witnesses.CommaIdSplitsWrong`). All lines of a profile split back iff no enabled route has such an
  ID (`RuleLine.ProfileLinesSplitIff`).
- A server may be renamed to "rt:rt_1"; importing the running rules then brings back the condition of
  the deleted route rt_1 (`Witnesses.OwnProfileIsImported`; iff `OwnProfile.OwnProfileImportedIff`).
- An accepted condition with outer white space is imported without it (`Witnesses.OuterSpaceIsLost`);
  printing and importing gives the condition back iff there is none (`RuleLine.PrintParseIff`).
- A restart that fails after the commit stops at "activate" and rolls nothing back
  (`Witnesses.ActivateLeavesNewProfile`, in general `ApplySafety.ActivateFailureKeepsSelection`).
- An apply that fails after a manual rollback returns to the newest applied profile
  (`Witnesses.FailureForgetsRollback`), which is the one the user went back to iff both are one file
  (`ApplySafety.FailureAfterManualRollback`).
- Retry-After rounds up to whole seconds and the window's last instant still refuses: an attempt at the
  announced time is refused iff the remaining wait is a positive whole number of seconds
  (`Limiter.RetryHeaderExact`; both cases in `Witnesses.AnnouncedTimeIsRefused`).
- Deleting a source leaves a route without its target (`ApiSafety.SourceDeletionBreaksLinks`; iff
  something needs a server only that source provides, `ApiSafety.SourceDeletionIff`).
- Pasting links ages every pasted server they lack and drops it at the third time, routed or not
  (`Witnesses.PastedLinksBreakLinks`; iff `ApiSafety.CreateServersIff`). Update rounds do the same
  (`ApiSafety.MergeIff`).
- Renaming a pasted server and pasting its link again gives two servers one ID
  (`Witnesses.RenameThenPasteClashes`). A merge keeps IDs distinct iff each key it adds gets an ID
  that no surviving server and no other added key has (`MergeIds.MergeDistinctIff`).
- A group patch can name members that do not exist (`Witnesses.GroupPatchBreaksLinks`; iff
  `ApiSafety.GroupPatchIff`).
- A document import accepts a switched-off route without a target (`Witnesses.ImportBreaksLinks`; iff
  `ApiSafety.ReplaceIff`).
- A route that names a provider twice is accepted and the profile no longer compiles
  (`Witnesses.RepeatedProviderBreaksProfile`). What validation leaves open is exactly
  `ApiCompiles.BeyondValidation`; the condition for every request is `ApiCompiles.StepKeepsCompilableIff`.
- Deleting a server or group that nothing routes to can make the profile uncompilable
  (`Witnesses.ServerDeletionBreaksProfile`, `Witnesses.GroupDeletionBreaksProfile`; iff
  `ApiProfile.ServerDeletionCompilesIff` and `ApiProfile.GroupDeletionCompilesIff`).

Code against documentation: the comment at `internal/model/model.go:153` calls the conditions of a
route an "AND set"; the generator emits one rule per condition, so they are alternatives, and that is
what the model has.

## Model

| member | source | states |
|---|---|---|
| Build.Compile | internal/generator/generator.go:192-490 | the passes of `build`, run as loops over a mutable name table, yield exactly the profile or problem report of the specification, problems in order |
| Build.GenerateWithProviders | internal/generator/generator.go:136-159 | on top of that, a provider without payload turns success into one error naming all missing ones |
| Build.CollectProxies | internal/generator/generator.go:209-230 | the server loop: names in order of appearance, one proxy per active server with a raw map, one problem per empty one |
| Build.ResolveGroup | internal/generator/generator.go:247-291 | members resolve to a server first, else a group; the health check follows the type; every skipped member is reported |
| Build.EmitRoute | internal/generator/generator.go:346-430 | what one route adds to groups, rules, providers, losses and problems |
| Build.CheckAdditions | internal/generator/generator.go:336-344 | the set of geodata addition keys with an invalid entry, whatever order the map is walked in |
| Names.NameTable.UniqueName | internal/generator/generator.go:585-592 | the name handed out depends on how often the display name was asked for before, as the history of requests tells |
| Names.UniqueNamesIff | internal/generator/generator.go:585-592 | handed-out names are pairwise distinct iff no display name equals "x #k" for some x asked for at least k times, k >= 2 |
| Names.ThreeGroupClash | internal/generator/generator.go:585-592 | "N", "N", "N #2" produce two equal names |
| Sorting.SortSorted | internal/generator/generator.go:296-302 | routes come out in (order, ID) order |
| Sorting.SortStable | internal/generator/generator.go:296-302 | routes with equal keys keep their stored order |
| Sorting.SortedUnique | internal/generator/generator.go:296-302 | when keys identify elements, a sorted arrangement is the only one: the tie-break makes output deterministic |
| WellFormedness.CompilesIff | internal/generator/generator.go:192-468 | `build` succeeds iff the state is well-formed: active servers have raw maps, groups are unreserved, known-typed, non-empty and fully resolvable without themselves, enabled routes resolve and have good conditions, additions and globally distinct providers, default policy and geodata URLs resolve |
| WellFormedness.GeneratesIff | internal/generator/generator.go:136-159 | with the payload check, success needs in addition that every referenced provider is known |
| WellFormedness.LostExactly | internal/generator/generator.go:306-354 | the lost-target report lists exactly the enabled routes whose target is not usable, with the true reason |
| Meaning.RoutingMeaning | internal/generator/generator.go:346-444 | on success the first rule matching a packet points at `rt:<id>` of a least (order, ID) enabled route the packet hits through a condition, an addition to its category or a provider, and at `rt:default` iff there is none; matching itself is arbitrary |
| Meaning.DecisionUnique | internal/generator/generator.go:296-302 | the deciding route's ID is unique |
| Meaning.RouteMeaning | internal/generator/generator.go:380-429 | the lines of one route catch exactly the packets the route describes: conditions are alternatives |
| Meaning.PermutationInvariance | internal/generator/generator.go:296-302 | permuting the stored routes, with distinct IDs, changes neither profile nor problem report |
| Closure.ReferencesClosed | internal/generator/generator.go:247-291 | every group member is DIRECT, REJECT, an emitted proxy or an emitted group; every rule policy is an emitted group; rule providers are declared exactly for the RULE-SET names |
| Closure.UserGroupShape | internal/generator/generator.go:247-291 | the i-th group is printed as the i-th proxy group with every member's name in priority order; select groups have no health check, the others the fixed URL, the configured interval or 300 s, and tolerance 50 for url-test only |
| Closure.ServiceGroupShape | internal/generator/generator.go:356-374 | each enabled route has a fallback group, probed at the fixed URL every 60 s: its target, then where it fails over to |
| FailClosed.FailClosedIff | internal/generator/generator.go:306-374 | with no user group named DIRECT, DIRECT is reachable from `rt:<id>` through group membership, cycles included, iff some enabled route of that ID targets DIRECT or allows it when unavailable, or the ID is "default" and the default policy is DIRECT; shared and reserved IDs included |
| FailClosed.ReachesDirectIff | internal/generator/generator.go:247-374 | with no proviso on names: DIRECT is reachable iff an enabled route of that ID asks for it, or its target name, or REJECT, starts a chain of groups by printed name that ends at DIRECT; likewise the default policy |
| FailClosed.OwnPolicyDecides | internal/generator/generator.go:306-374 | a route with an ID of its own reaches DIRECT iff its own fields say so |
| FailClosed.GroupNamedDirectLeaks | internal/generator/generator.go:312-322 | a route to a group printed as DIRECT reaches that name whatever its policy says |
| Leaks.LeaksIff | internal/generator/generator.go:247-374 | told on the state: for distinct group IDs and unclashing display names, a service group ends at DIRECT iff an enabled route of the ID asks for it, or from its target, or from the first group named REJECT, group IDs lead to the first group named DIRECT; likewise the default policy |
| Distinctness.NamesDistinctIff | internal/generator/generator.go:209-374 | on success, all proxy and group names of the profile differ iff group IDs do, no display name imitates a suffixed repetition, enabled route IDs are distinct and not "default", and no server is shown under the service name of an enabled route, all told on the state |
| Distinctness.MintedNamesDistinctIff | internal/generator/generator.go:209-374 | for route IDs as they are minted (distinct, without brackets, not "default") the first two decide |
| Distinctness.ClashNeedsGroupName | internal/generator/generator.go:221-244 | such an imitation is always the name of a user group |
| RuleLine.PrintParseIff | internal/nikki/external.go:100-130 | the line of an accepted condition splits into three segments, keeps type and policy, and is imported as the same condition iff the value has no surrounding white space |
| RuleLine.ParsedLine | internal/nikki/external.go:100-130 | how any printed rule line is read back: type, trimmed value, policy |
| RuleLine.LineSplitsIff | internal/generator/generator.go:389-428 | a line of a compiled profile splits at commas into exactly the segments it was made of iff its policy has no comma |
| RuleLine.ProfileLinesSplitIff | internal/generator/generator.go:389-428 | all lines of a compiled profile do iff no enabled route has a comma in its ID |
| RuleLine.ProfileLine | internal/generator/generator.go:370-428 | every rule but the last names the service group of some enabled route and has a value without commas, whatever the route IDs |
| Merge.LiveState.Merge | internal/subscription/merge.go:61-134 | the in-place loop leaves exactly the specified pool; added + updated counts the usable keys, and sizes before and after balance with added and deleted |
| Merge.LiveState.IndexPool | internal/subscription/merge.go:65-71 | the index holds the last server of the source under each key |
| Merge.LiveState.FoldAnswer | internal/subscription/merge.go:73-105 | the answer loop updates in place or appends, first usable entry of a key wins |
| Merge.LiveState.Rebuild | internal/subscription/merge.go:107-132 | the rebuild ages, drops or keeps each server of the source and passes the others through |
| PoolHistory.RunReflects | internal/subscription/merge.go:61-134 | after any answers the pool of a source that started empty has one server per key seen in the last three, with ID from source and key, raw map from the first usable entry of its latest answer, and a miss counter equal to the updates since, stale iff positive |
| PoolHistory.RunFollows | internal/subscription/merge.go:61-134 | from any start with distinct keys and counters in order: each server is as its key was last answered, under its first or its derived ID, or is still waiting with its misses counted |
| PoolHistory.PoolConverges | internal/subscription/merge.go:61-134 | so three answers later keys, counters and raw maps are those of the last three answers, whatever the pool was |
| PoolHistory.KeysAreLastThree | internal/subscription/merge.go:61-134 | from an empty start its keys are exactly the union of the usable keys of the last three answers |
| PoolHistory.MergeOwn | internal/subscription/merge.go:107-132 | a merge acts on its source's servers as if the pool held nothing else |
| PoolHistory.MergeOther | internal/subscription/merge.go:107-132 | and leaves the servers of every other source as they were, in order |
| PoolHistory.InterleavingIrrelevant | internal/subscription/merge.go:61-134 | over any interleaving of merges, from any pool, each source sees only its own answers |
| PoolHistory.MergeKeepsCounted | internal/subscription/merge.go:107-132 | every merge keeps: stale iff the counter is positive, counter below the deletion window |
| MergeIds.MergedIds | internal/subscription/merge.go:61-134 | the server IDs after a merge, exactly: those of servers not at a third miss, and those minted for keys the source did not have |
| MergeIds.MergeDistinctIff | internal/subscription/merge.go:42-132 | a merge keeps server IDs distinct iff every ID it mints is free among the surviving servers and minted for one key only, for any hash |
| PoolHistory.MigrateMisses | internal/store/store.go:117-125 | the schema step establishes that invariant on servers whose counters did not exist |
| Updater.Update | internal/subscription/updater.go:109-186 | one round attempts exactly the due sources, and stores their new fields and the merged pool, or nothing when saving fails |
| Updater.UpdateOne | internal/subscription/updater.go:191-259 | the first source of the ID decides: absent, not a subscription, or refreshed whatever its interval; a failed save is an error unless the fetch failed; nothing is stored otherwise |
| Updater.RoundIsLocal | internal/subscription/updater.go:109-186 | what a round does to a source depends on that source, its servers and its answer only |
| Updater.RoundLeavesAlone | internal/subscription/updater.go:120-150 | sources that are disabled, manual, not due or failed keep their servers |
| Updater.RoundOrderIrrelevant | internal/subscription/updater.go:120-180 | the result for a source does not depend on the order of sources |
| Updater.PoolOverUpdates | internal/subscription/updater.go:109-259 | over any run of rounds and single refreshes, from any stored state with distinct source IDs, a source's servers are what the answers it received make of those it had |
| Updater.PoolReflects | internal/subscription/updater.go:109-259 | so a source that had none reflects the last three answers received |
| Updater.PoolSettles | internal/subscription/updater.go:109-259 | and any other one without repeated keys does, up to IDs and latencies, once it has received three |
| Updater.CountLive | internal/subscription/updater.go:283-291 | counts the non-stale servers of a source |
| Updater.ComputeDelay | internal/subscription/updater.go:340-350 | the doubling loop computes min(30 * 2^(n-1), 1800) seconds for every n |
| Updater.BackoffHolds | internal/subscription/updater.go:318-350 | in any run of scheduled rounds of a failing source, an attempt waits out the delay of the one before, counted from its whole second |
| Updater.BackoffOnWholeSeconds | internal/subscription/updater.go:318-350 | for attempts at whole seconds the gap is at least min(30 * 2^k, 1800) seconds |
| Updater.FetchesAreAttempts | internal/subscription/updater.go:120-147 | in the rounds of a whole run, over all sources, a failing source is fetched exactly at these attempts and carries the counters they leave |
| Updater.BackoffOverRounds | internal/subscription/updater.go:120-147 | hence two fetches of a failing source in such a run are apart by the delay |
| Apply.Applyer.Apply | internal/apply/apply.go:206-295 | the flow over the adapter, every call free to fail, against its step function |
| Apply.Applyer.Start | internal/apply/apply.go:244-294 | from activation on: stop, fail over or commit |
| Apply.Applyer.Rollback | internal/apply/apply.go:319-353 | manual rollback, including a history read twice |
| Apply.Applyer.AdapterRollback | internal/apply/apply.go:298-303 | activate, then ask for health |
| Apply.Applyer.AppendHistory | internal/apply/apply.go:307-314 | append and trim to five; a history that cannot be read counts as empty |
| Apply.RouterAdapter.Detect | internal/nikki/router.go:143-154 | the seed: the selected profile when its file exists |
| Apply.RouterAdapter.Activate | internal/nikki/router.go:278-297 | each external step may fail; the selection changes iff the commit went through |
| Apply.RouterAdapter.WriteProfile | internal/nikki/router.go:244-259 | a successful write puts the document under the sanitized name |
| Apply.RouterAdapter.MarkHealthy | internal/nikki/router.go:416-421 | the rollback target becomes the named profile |
| ApplySafety.ApplySucceedsIff | internal/apply/apply.go:206-295 | success iff the state generates, every call succeeds and the router is healthy; then the compiled profile is on disk, selected, running and the rollback target; otherwise history and target are unchanged |
| ApplySafety.RollsBackIff | internal/apply/apply.go:255-275 | exactly when an apply rolls back, and that the last good profile is then selected, running and healthy with history unchanged |
| ApplySafety.ActivateFailureKeepsSelection | internal/apply/apply.go:250-255 | a stop at "activate" restores nothing |
| ApplySafety.RunIsSafe | internal/apply/apply.go:206-353 | in every run, records follow an activation and a healthy answer, activations concern profiles validated here or present at start, validation judges the file just written |
| ApplySafety.LastGoodIsLatestOk | internal/nikki/router.go:407-421 | the rollback target is the latest successful apply's profile, or the seed; manual rollbacks do not move it |
| ApplySafety.HistoryIsLastFive | internal/apply/apply.go:307-314 | the stored history is always a tail of the success log, and exactly its last five when reads work |
| ApplySafety.RollbackTwice | internal/apply/apply.go:319-353 | two single-step rollbacks restore the newest profile and state hash, also across rotation |
| ApplySafety.PendingAfterApply | internal/apply/apply.go:173-191 | after a recorded apply a state is pending iff its hash differs from the applied state's |
| ApplySafety.PendingAfterRollback | internal/apply/apply.go:341-352 | after a recorded rollback the comparison is with the restored state |
| ApplySafety.FailureAfterManualRollback | internal/apply/apply.go:255-352 | an apply failing after a manual rollback selects and runs the newest applied profile, which is the restored one iff the two names are one file |
| ApplyContent.RunIsTrue | internal/apply/apply.go:206-353 | in every run with new apply names: an activated file holds the document last accepted under its name, or one in place and recalled at start-up, and neither is overwritten |
| ApplyContent.RunStands | internal/apply/apply.go:206-353 | if the records at start-up do, every record of such a run has a file holding the profile compiled from a state with the recorded hash |
| ApplyContent.RollbackRestoresState | internal/apply/apply.go:319-353 | a rollback that reports success therefore runs, healthy, the profile compiled from a state of the restored hash |
| Limiter.Limiter.Login | internal/auth/middleware.go:122-153 | the allow, verify, fail or reset order on the table of entries |
| Limiter.Limiter.Allow | internal/auth/middleware.go:331-344 | a lapsed entry is dropped, a full one refuses |
| Limiter.Limiter.Fail | internal/auth/middleware.go:361-371 | a lapsed entry starts over; the window restarts at every failure |
| Limiter.ThrottledIff | internal/auth/middleware.go:331-371 | an attempt is refused iff the last five or more failures of its address followed each other within the window and the last one's window is open |
| Limiter.SlidingWindow | internal/auth/middleware.go:331-371 | any failures of an address within ten minutes, without a success between them, number at most five, at any point of any run whose attempts of that address do not interleave |
| Limiter.RetryAfterExact | internal/auth/middleware.go:348-359 | a refused address gets in again after the remaining wait, and not at its end |
| Limiter.RetryHeaderExact | internal/auth/middleware.go:127-137 | for any three clock readings of a refused attempt: when a header is sent, the announced time is refused iff the remaining wait is a whole number of seconds, every later attempt passes, and none a full second earlier; without one every later attempt passes |
| Geodata.ReadVarint | internal/geodata/geodata.go:311-326 | the shift loop against its specification, and how far it reads |
| Geodata.ReadsBack | internal/geodata/geodata.go:311-326 | reading undoes the base-128 varint encoding (Protocol Buffers Encoding guide, section "Base 128 Varints") of every value below 2^63, at any position |
| Geodata.ParseTags | internal/geodata/geodata.go:283-307 | the scan loop against its specification |
| Geodata.ParsesStream | internal/geodata/geodata.go:283-307 | on any concatenation of records the tags are exactly theirs and ok holds |
| Geodata.DesyncKeepsPrefix | internal/geodata/geodata.go:283-307 | junk behind well-formed records keeps their tags and clears ok |
| Templates.Load | internal/templates/templates.go:101-133 | strict: succeeds iff every file is a template and there is one; the list is sorted with distinct IDs |
| Templates.LoadMerged | internal/templates/templates.go:150-203 | sorted, distinct IDs; look-up gives the valid overlay entry, else the shipped one; overridden iff both exist; each broken overlay file adds one warning and nothing else |
| Templates.Get | internal/templates/templates.go:344-351 | linear search is look-up by ID |
| Templates.CatalogUnique | internal/templates/templates.go:150-203 | the same files give the same catalog, however directories are listed |
| Templates.WrittenIsServed | internal/templates/templates.go:283-327 | a saved template that passes the checks is the one served, as an override iff a shipped one has its ID |
| Templates.WriteDeleteRestores | internal/templates/templates.go:283-341 | writing then deleting an overlay file for an ID that had none restores catalog and warnings |
| Templates.DeleteRestoresShipped | internal/templates/templates.go:333-341 | deleting an override brings the shipped template back |
| Ids.MintId | internal/api/api.go:2340-2370 | the unbounded probe ends after at most one probe more than there are IDs, with an unused ID and all smaller ones used |
| Ids.NewIdIsLeast | internal/api/api.go:2340-2370 | an ID is the minted one iff it is the smallest-numbered unused one |
| Ids.NextOrder | internal/api/api.go:2373-2381 | ten above the largest order, hence after every route |
| Ids.RemoveString | internal/api/api.go:2328-2336 | filtering into the slice's own array leaves the list without the string as its first cells |
| Api.Handlers.HandleRoutesCreate | internal/api/api.go:1055-1096 | validation, minting and defaults of a new route; a refusal changes nothing |
| Api.Handlers.HandleRoutePatch | internal/api/api.go:1098-1167 | the sent fields replace the stored ones and the merged route is validated as a whole before it is saved |
| Api.Handlers.HandleTemplateApply | internal/api/api.go:1901-1958 | a route from a template, or a new default policy for all-vpn |
| Api.Handlers.HandleGroupsCreate | internal/api/api.go:770-824 | group validation and minting |
| Api.Handlers.HandleServerDelete | internal/api/api.go:695-731 | guarded by routes only; the ID leaves every member list in place |
| Api.Handlers.HandleGroupDelete | internal/api/api.go:867-905 | guarded by routes only; groups carrying the deleted ID keep their lists |
| Api.Handlers.HandleServerUpdate | internal/api/api.go:637-693 | name and raw map change, ID and source do not |
| Api.Handlers.HandleSourceDelete | internal/api/api.go:490-527 | the guard looks at routes targeting the source's own ID; its servers go |
| Api.Handlers.HandleGroupPatch | internal/api/api.go:826-865 | name is checked, type and members are not |
| Api.Handlers.HandleServersCreate | internal/api/api.go:553-608 | pasted links are merged into the manual source, which is made on first use; nothing is saved when no link is usable |
| Api.Handlers.HandleImport | internal/api/export.go:72-149 | a document replaces the state iff it generates |
| ApiSafety.StepKeepsLinkedIff | internal/api/api.go:127-166 | for every request that changes the document and every merge: references resolve after it iff it was careful, where only group patches, source deletions, pasted links, merges of update rounds and document imports have anything to check |
| ApiSafety.RunKeepsLinked | internal/api/api.go:127-166 | hence over every run of requests and update rounds in which those five are careful, refusals included, route targets and group members name existing objects |
| ApiSafety.RoundIsRun | internal/subscription/updater.go:120-180 | what an update round does to the servers is such a run of merges |
| ApiSafety.MergeIff | internal/subscription/merge.go:61-134 | a merge keeps references resolved iff every ID that is referred to stays: a carrier of it is not at a third miss, or it is minted anew, or a group has it |
| ApiSafety.CreateServersIff | internal/api/api.go:553-608 | the same for pasted links, which age the manual servers they lack |
| ApiSafety.ReplaceIff | internal/api/export.go:72-149 | an imported document the compiler accepts has no dangling reference iff its switched-off routes have none and no ID is empty |
| ApiSafety.DeletionKeepsLinked | internal/api/api.go:695-905 | both guarded deletions keep every reference resolved |
| ApiSafety.DeletionForgets | internal/api/api.go:695-905 | after a deletion no route targets the ID and no other group lists it |
| ApiSafety.OthersStay | internal/api/api.go:695-905 | objects of other IDs exist after a deletion iff they did before |
| ApiSafety.SourceDeletionIff | internal/api/api.go:490-527 | deleting a source keeps references resolved iff nothing refers to a server only it provides |
| ApiSafety.SourceDeletionBreaksLinks | internal/api/api.go:503-520 | a concrete accepted deletion that leaves a route without its target |
| ApiSafety.GroupPatchIff | internal/api/api.go:826-865 | a group patch keeps references resolved iff the new members exist |
| ApiRoutes.StepKeepsPlainIff | internal/api/api.go:2340-2370 | a step keeps route IDs distinct and free of commas, brackets, surrounding space and the ID "default", unless it imports a document without such IDs |
| ApiRoutes.RunKeepsPlain | internal/api/api.go:2340-2370 | hence over every run whose imported documents have such IDs, as the compiler and importer theorems ask |
| ApiRoutes.RunFailsClosed | internal/generator/generator.go:306-374 | fail-closed routing by the route alone in every state such runs reach, with no group named DIRECT |
| ApiProfile.LinkedLosesOnlyServers | internal/generator/generator.go:306-354 | without dangling references the only losses reported are servers that exist but are stale, switched off or empty |
| ApiProfile.ServerDeletionCompilesIff | internal/api/api.go:695-731 | deleting a server keeps a compilable state compilable iff no group consisted of it alone and the default policy does not use it |
| ApiProfile.GroupDeletionCompilesIff | internal/api/api.go:867-905 | the same for a group |
| ApiProfile.StepKeepsTidyIff | internal/api/api.go:127-166 | a step keeps IDs of servers and groups distinct and group names non-empty iff the merge it makes mints free IDs, or the document it imports is so |
| ApiProfile.RunKeepsTidy | internal/api/api.go:127-166 | hence the hypotheses of the deletion theorems survive every run of such steps |
| ApiCompiles.AcceptedFitsIff | internal/api/api.go:926-1017 | a route that passed validation can be on beside the others iff its server can be used, the additions to its categories are valid, and no provider is empty, repeated or used by another route |
| ApiCompiles.NewGroupIff | internal/api/api.go:770-824 | an accepted new group keeps the document compilable iff its members can be used now |
| ApiCompiles.PatchedGroupIff | internal/api/api.go:826-865 | an accepted patch does iff the type is known and there are members, none the group itself, that can be used now |
| ApiCompiles.SourceDeletionCompilesIff | internal/api/api.go:490-527 | deleting a source does iff the servers of the others serve every route, member list and the default policy |
| ApiCompiles.MergeCompilesIff | internal/subscription/merge.go:61-134 | a merge does iff the servers it leaves usable do: those of other sources, those answered, those added; one miss takes a server away |
| ApiCompiles.StepKeepsCompilableIff | internal/api/api.go:127-166 | for every request and every merge: a compilable document with distinct IDs compiles after it iff its condition holds; route deletions, server edits and all imports have none |
| ApiCompiles.RunKeepsCompilable | internal/api/api.go:127-166 | hence it stays compilable over every run of such steps |
| Import.ImportOne | internal/api/api.go:1299-1381 | one rule found by its text: the asked target, else its built-in policy, else the group or server of that name |
| Import.ImportAll | internal/api/api.go:1407-1482 | the handler's loop over a growing document; imported + skipped is the number of rules |
| Import.LoadExternalRules | internal/nikki/external.go:68-95 | one entry per line, unparsable lines shown raw |
| Import.ImportConserves | internal/api/api.go:1407-1482 | old routes stay an unchanged prefix and nothing but routes is added, one per imported rule |
| Import.ImportIsHarmless | internal/api/api.go:1407-1482 | new routes are disabled, with new distinct IDs, orders strictly increasing above all earlier ones, and conditions the document did not have, each once |
| Import.ImportedIff | internal/api/api.go:1425-1475 | a rule is imported iff it is the first eligible one with its condition and the document had no such condition; eligibility does not look at routes |
| Import.ImportIsIdempotent | internal/api/api.go:1418-1424 | importing the same rules again changes nothing |
| Import.NothingImportedIff | internal/api/api.go:1407-1482 | an import adds nothing iff the document has the condition of every eligible rule |
| OwnProfile.ReadBack | internal/nikki/external.go:100-130 | how a line of a profile is read back for any route ID: comma pieces of the ID may become part of the policy, an option, or make the line unreadable |
| OwnProfile.OwnProfileImportedIff | internal/api/api.go:1407-1546 | reading back the program's own generated profile imports nothing iff no line has an importable condition the document lacks and a policy, as read back, that names a group or a server that is not stale |
| OwnProfile.OwnProfileNotImported | internal/api/api.go:1407-1546 | hence nothing is imported when no server or group name starts with "rt:", for any route IDs |
| Witnesses.BlockingRouteLeaks | internal/generator/generator.go:312-374 | a compilable state whose blocking route reaches DIRECT through a group of that name |
| Witnesses.SharedRouteIdLeaks | internal/api/export.go:116-130 | an importable document with two routes of one ID, the blocking one leaking |
| Witnesses.DefaultIdLeaks | internal/api/export.go:116-130 | an importable document with a blocking route called "default", leaking through the default policy |
| Witnesses.OuterSpaceIsLost | internal/nikki/external.go:100-130 | a condition the routes API accepts that its own line does not give back |
| Witnesses.CommaIdSplitsWrong | internal/api/export.go:116-130 | an importable document with the route ID "a,b", whose line splits into four segments |
| Witnesses.OwnProfileIsImported | internal/api/api.go:637-693 | an accepted rename and a route deletion after which the rules still running are imported |
| Witnesses.RepeatedProviderBreaksProfile | internal/api/api.go:1055-1096 | an accepted route that names a provider twice, after which the state no longer compiles |
| Witnesses.GroupPatchBreaksLinks | internal/api/api.go:826-865 | an accepted group patch that names a missing member |
| Witnesses.ServerDeletionBreaksProfile | internal/api/api.go:695-731 | an accepted server deletion after which the state no longer compiles |
| Witnesses.GroupDeletionBreaksProfile | internal/api/api.go:867-905 | the same for a group |
| Witnesses.PastedLinksBreakLinks | internal/api/api.go:553-608 | accepted pasted links that drop a routed server, for any hash that tells two keys apart |
| Witnesses.RenameThenPasteClashes | internal/api/api.go:553-693 | a run of two accepted requests that leaves two servers with one ID, for any hash |
| Witnesses.ImportBreaksLinks | internal/api/export.go:116-130 | an importable document with a dangling switched-off route |
| Witnesses.ActivateLeavesNewProfile | internal/apply/apply.go:250-255 | a failed restart that leaves the new profile selected and nothing running |
| Witnesses.FailureForgetsRollback | internal/apply/apply.go:255-352 | apply A, apply B, roll back to A, fail to apply C: the router runs B |
| Witnesses.AnnouncedTimeIsRefused | internal/auth/middleware.go:127-137 | a refusal that announces 600 s after which an attempt is refused, and one where it is not |
| Witnesses.SuccessStartsOver | internal/auth/middleware.go:122-153 | four wrong, one right and four wrong passwords within ten minutes, all checked |

## Left out

- HTTP, JSON, YAML, cookies, WebSocket, static UI: plumbing over libraries; handlers are modelled from decoded input to saved document.
- File atomicity, permissions, processes, UCI, health polling: adapter and store calls that succeed or fail.
- Failing loads and saves in the API handlers: a failed save keeps the old document, which is the refused case.
- Source create, patch and discovery, settings, template toggles and geodata settings: one step free to write any sources and settings (`ApiSafety.Command.EditElsewhere`); their own checks are not modelled. LAN devices have no part in anything here.
- Decoding of requests (blank or unparsable links, format and version of an imported document): refused before the modelled step.
- Template file handlers: modelled at the overlay directory they write (`Templates`).
- Fetching and parsing subscriptions (`internal/convert`, `ParseBody`, `Client.Fetch`): an oracle that answers proxies or fails.
- SHA-256: server IDs and state hashes are arbitrary functions; nothing assumes them injective.
- `strings.ToLower`, `net.ParseCIDR` and `netip.ParseAddr`: arbitrary functions; `strings.ToUpper` on ASCII letters only.
- `normalize` and proxy entry encoding: a proxy entry is its raw map with the name replaced.
- Texts of errors and problems: structured values; only their kind, subject and order are kept.
- The rule index of an external rule: notes carry the raw line and the reason; entries of the rules section that are not strings are outside.
- Import.ImportName: counts characters where the source counts bytes.
- Geodata.ParseTags: positions are unbounded, so the wrap-around of `np+int(ln)` for lengths near 2^63 is not modelled; or-ing groups is adding them, since they do not overlap.
- Limiter.SlidingWindow: asks that attempts of one address do not interleave and its clock does not run backwards.
- Updater.UpdateOne: one clock reading stands for the several the source makes; returned live counts and log lines are left out.
- Panel headers (`UserInfo`, `Announce`, `HWIDStatus`): one opaque value.
- Apply.RouterAdapter.Detect: its role as a start-up seed only; diagnostics calling it later would re-seed the target. The simulated adapter is not modelled.
- Leaks.LeaksIff: asks for distinct group IDs and unclashing display names, since two things of one name are one to the router, which refuses such a profile; `FailClosed.ReachesDirectIff` covers them by printed names.
- FailClosed.ReachesDirectIff: asks for route IDs without "[", as minted ones are; the same holds for `FailClosed.FailClosedIff` and `Leaks.LeaksIff`.
- ApplyContent.RunIsTrue: asks for apply names that are not on disk nor recalled, as the time-stamped ones are while the clock does not run backwards; `ApplySafety.RunIsSafe` holds for any names, by name only. `ApplyContent.RunStands` asks it too.
- PoolHistory.PoolConverges: asks that no key is held twice; of two servers of one key only the last is updated, so the other never settles.
- ApiCompiles.StepKeepsCompilableIff: asks for distinct IDs and named groups, which `ApiProfile.RunKeepsTidy` keeps. For sources and settings edited elsewhere the condition is told on the new ones.
- ApiSafety.RunKeepsLinked: the default policy is not guarded on deletion and is not part of it.
- State fields without a part in any of this (version, delays of servers, labels beyond their carriage): not interpreted.
- Scheduler, LAN leases, application log, session manager, string scrapers, web assets: simple or UI-bound.
