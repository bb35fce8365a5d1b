# Verified model of the node agent

The agent runs an Xray process for a panel. It keeps a population of proxy users in two places, the client lists of
its in-memory Xray config and the users of the running core, and it supervises the process. This project models that
logic in Dafny and proves what the agent is for: both ways of maintaining a client list end in the same list, config
and core agree, the config is prepared for the agent's own API, at most one process is alive, sessions and backends
belong together, and the mutexes cannot deadlock. `dafny verify dfyconfig.toml` checks everything.

The modules, from the user lists outwards:

- `Base64`, `Helper`: standard base64 (section 4 of RFC 4648) and the Shadowsocks-2022 key normalisation.
- `Accounts`, `ClientLists`, `LatestLists`, `UserSync`: users, accounts, the bulk rebuild and the one-user step as
  functions on sequences, and the theorem that the second refines the first. `Inbounds` has the same operations as
  methods on a list that is edited in place: a backing array with a length.
- `Agreement`: config against running core on one inbound, over runs of syncs and restarts. `SyncCalls`, `XrayUsers`
  and `UserStream`: the loops of `SyncUser`, `SyncUsers` and a restart over all inbounds, panics included, as
  functions; the Xray object whose methods do just that; and the receive loop that calls it.
- `Interleaving`: concurrent `SyncUser` calls and the steps of restarts, in every order.
- `ApiConfig`: rewriting a config for the API, with the loop that deletes from the slice it ranges over.
- `CoreLifecycle`, `NodeLifecycle`, `Controllers`, `KeepAlive`, `Locks`: the process and its core; every backend of the
  node with its core, and the sessions; the Xray and Controller objects; the keep-alive clock; lock ranking.
- `LogPump`, `StartCheck`, `CounterNames`: the bounded log channel, the verdict on a start, and the counter names.

What the code reads from outside is a parameter: the SHA-256 function (any function with 32-byte results), UUID
parsing (any partial function), the inbounds on which the core turns a user down, whether a process spawns or a
restarted core comes up, the regular expression of the log format.

In `Agreement`, `XrayUsers` and `UserStream` a `SyncUser` call and a restart do not overlap. In the source they can:
`SyncUser` takes no lock of the Xray object, and the health job restarts the core at any moment. `Interleaving` takes
both apart into steps and says exactly which overlaps leave config and core in agreement
(`Interleaving.FinishedAgreesIff`).

Where the code has a limit, the limit is proved exactly, with the input that shows it:

- The two sync paths normalise a Shadowsocks-2022 key once and twice. They agree for every hash if and only if the
  method names `aes-128-gcm`, `aes-256-gcm` or `chacha20-poly1305` (`UserSync.PathsAgreeIffProperCipher`); with any
  other method they agree on a user if and only if hashing the key gives what hashing the password gave, whatever the
  hash (`UserSync.PathsAgreeOnUserIff`).
- An id that is no UUID makes the bulk path store a nil pointer (Vmess) or dereference one (Vless), while the
  incremental path drops the user; `UserSync.RunMatchesBulk` is an equivalence with "all ids parse". A stored nil
  pointer makes a later scan panic (`SyncCalls.CrashedIff`).
- A restart between the removal of a user from the core and the edit of the stored list brings the user back, and
  `SyncUser` reports no error (`Interleaving.RestartBringsUserBack`).
- The deletion loop of `ApplyAPI` is right if and only if at most one inbound has the API tag, or no two of them are
  adjacent and the last inbound is not one. Having at most one is sufficient but not necessary.
- A rule that decodes neither as an object nor as null makes `ApplyAPI` drop all rules: the error of `filterRules` is
  overwritten before it is looked at.
- A REST start that fails in `StartBackend` leaves its session alive, and that session's tracker disconnects a later
  client. The gRPC front end connects after the backend has started and does not have this behaviour.
- A backend that is shut down while a health probe is in flight can be started again by that probe.
- A keep-alive above 9223372036 seconds overflows the duration, and then the promised bound fails
  (`KeepAlive.BoundedIff`).
- The readers for all users (or inbounds, outbounds) and for a single one swap the type and the link of a counter.
- An `http` header clears a Vless flow only under the key `Type`, as the code looks it up; under `type`, where Xray
  configs have it, it is ignored (`ClientLists.LowerCaseTypeIsIgnored`).

## Model

| member | source | states |
|---|---|---|
| Base64.DecodeEncode | common/helper.go:41-64 | decoding undoes encoding for every byte sequence, in the format that the key normalisation reads and writes |
| Base64.AlphabetIsStandard | common/helper.go:41-64 | the sextets have the symbols of Table 1 of RFC 4648 |
| Base64.QuantumIsNumber | common/helper.go:64-64 | three bytes are written as the four sextets of their 24-bit number; one or two as if zero bytes followed, with padding |
| Base64.LineBreaksAreIgnored | common/helper.go:41-41 | line breaks anywhere in a text change nothing for the decoder |
| Base64.DecodedLength | common/helper.go:41-45 | a text that decodes consists of whole quanta, with three bytes for each but for the padding |
| Base64.DecodesIff | common/helper.go:41-42 | a text decodes if and only if it consists, besides line breaks, of whole quanta of symbols with padding only at the end |
| Helper.ContainsIff | common/helper.go:44-58 | containing a text means that the whole is something, then the text, then something |
| Helper.EnsuredKeyIs | common/helper.go:39-65 | a password that decodes to an accepted length is its own key; the key of any other decodes to the first 16 bytes of its hash for aes-128-gcm and to all 32 otherwise |
| Helper.EnsuredKeyDecodes | common/helper.go:39-65 | the normalised key always decodes; for a method that names a cipher to a length that the method accepts, else to 32 bytes |
| Helper.EnsureIsIdempotent | common/helper.go:39-65 | for a method that names a cipher a second pass changes nothing |
| Helper.UnknownMethodIsNotIdempotent | common/helper.go:44-62 | for any other method there is a hash for which the key of the empty password changes in a second pass |
| Helper.SecondPassKeepsIff | common/helper.go:39-65 | for any hash: a second pass keeps the key if and only if the method names a known cipher or the key and the password have the same hash |
| Helper.IdempotentIffKnownCipher | common/helper.go:39-65 | idempotent for every hash and password if and only if the method names a known cipher |
| Helper.Blake3KeyLengths | common/helper.go:57-64 | the three 2022-blake3 methods give 16, 32 and 32 bytes exactly |
| ClientLists.VlessFlowKeptIff | backend/xray/user.go:40-79 | a flow is kept if and only if network and security carry it and the header, looked up in the raw or else the TCP settings, does not say http under `Type`; otherwise it becomes empty, and nothing else changes |
| ClientLists.LowerCaseTypeIsIgnored | backend/xray/user.go:63-76 | what a header says under `type` never matters, and with `type` http the flow survives over TCP with TLS |
| ClientLists.SentHasListKind | backend/xray/user.go:87-126 | an account that goes to the core is the user's own and has the type of the inbound's client list |
| ClientLists.SentIsTheUsers | backend/xray/user.go:87-126 | an account goes to the core exactly for a user listed on the inbound, with a proxy of its protocol and an id that parses; it is of the protocol's type and carries the user's own email, id and kept flow, password, key of the password, or listed cipher |
| ClientLists.RebuiltEntryIsTheUsers | backend/xray/api/account.go:43-179 | the same of the account that the rebuild stores |
| ClientLists.StepWithDistinct | backend/xray/config.go:146-232 | a one-user step keeps every email at most once in the list |
| ClientLists.RemoveFirstDistinct | backend/xray/config.go:234-314 | deleting the first match suffices: in a list without repeats the email is gone |
| LatestLists.RunIsListWith | backend/xray/user.go:128-164 | a run of one-user steps yields the accounts of the last version of every email, in the order of the last syncs, for any way of making accounts |
| LatestLists.LastVersionsSnoc | backend/xray/config.go:158-165 | one more sync takes the email's earlier version out and puts the new one last |
| LatestLists.LastVersionsDistinct | backend/xray/user.go:128-164 | a list of users in which no email repeats is its own list of last versions |
| UserSync.EntryIsStored | backend/xray/config.go:69-143 | both paths store the same account for a user if and only if its id parses; otherwise the bulk path stores nil for Vmess and crashes for Vless |
| UserSync.BulkIsListWith | backend/xray/config.go:64-144 | with parsing ids the rebuild runs to its end and lists the accounts of the incremental path |
| UserSync.RunMatchesBulk | backend/xray/config.go:64-314 | after a bulk sync of any base, any run of SyncUser calls leaves the list that a bulk sync of the last versions builds, element for element, if and only if their ids parse |
| UserSync.PathsAgreeOnUserIff | backend/xray/user.go:109-117 | for the hash in use the two paths agree on a user if and only if the cipher is proper, the inbound takes no account of the user, or the key and the password have the same hash |
| UserSync.PathsAgreeIffProperCipher | backend/xray/user.go:109-117 | the two paths agree on an inbound for every hash and user if and only if a 2022 method names a known cipher |
| Inbounds.Inbound.SyncUsers | backend/xray/config.go:64-144 | crashes if and only if some user's nil account is dereferenced, leaving everything as it was; otherwise stores exactly the specified list, with the element type that protocol and method call for; other protocols are untouched |
| Inbounds.Collect | backend/xray/config.go:70-83 | the loop over the users yields exactly the accounts of the bulk list, in order, or the crash |
| Inbounds.Inbound.UpdateUser | backend/xray/config.go:146-232 | the in-place edit equals deleting the first entry of the email and appending the stored form of the account; an ill-typed list counts as empty; crashes if and only if the scan meets a nil pointer first, changing nothing |
| Inbounds.Inbound.RemoveUser | backend/xray/config.go:234-314 | the in-place edit equals deleting the first entry of the email; it crashes if and only if the scan meets a nil pointer first; other protocols are untouched |
| Inbounds.DeleteFirst | backend/xray/config.go:158-163 | the scan with its shift in the backing array deletes exactly the first match, unless a nil pointer comes before it |
| Inbounds.Append | backend/xray/config.go:165-165 | appending keeps the elements, in place or in a larger array |
| Inbounds.BulkListOfKind | backend/xray/config.go:64-144 | every account of the rebuilt list has the list's type |
| Agreement.StoredIsSent | backend/xray/config.go:225-227 | the account stored after two key normalisations is the one sent after one |
| Agreement.SyncAgreement | backend/xray/user.go:141-158 | a sync, with no restart inside it, that the core takes restores agreement at its email; a refused one breaks it there and nowhere else |
| Agreement.AgreementAlongRun | backend/xray/user.go:128-172 | after any run of syncs, restarts and bulk syncs, one after another, the core has exactly the stored accounts except the lost ones |
| Agreement.LostIffLastLeaves | backend/xray/user.go:150-172 | an email is lost if and only if the last event that settles it was a refused sync of it, or a restart or bulk sync after which no core came up while it was stored |
| XrayUsers.CoreUsers.RemoveInboundUser | backend/xray/user.go:146-146 | removing from the core fails only if the user is absent |
| XrayUsers.CoreUsers.AddInboundUser | backend/xray/user.go:150-150 | adding to the core changes one entry, or fails and changes nothing |
| SyncCalls.CalledMeans | backend/xray/user.go:128-164 | a SyncUser call that does not panic steps every list and the core's users on every inbound that is not excluded, and fails if and only if some inbound rejected the account |
| SyncCalls.CrashedIff | backend/xray/config.go:158-163 | a call panics if and only if the scan of some maintained list meets a nil pointer; then the lists before the first such are stepped and the others are as they were |
| SyncCalls.CrashedCore | backend/xray/user.go:146-149 | a call that panics has stepped the core's users before the list that panics, removed the email there, and left the others |
| SyncCalls.RoundsOn | backend/xray/user.go:141-158 | with distinct tags the rounds of the loop do not disturb each other in the core |
| SyncCalls.RebuiltMeans | backend/xray/config.go:55-62 | the bulk rebuild panics if and only if it does on some inbound; every maintained list and its type are replaced, whatever was there, and the others stay; after a panic that is so of the inbounds before the first that panics, and all from there on are as they were |
| SyncCalls.LoadedHas | backend/xray/xray.go:114-121 | a core that has loaded a config has the users of every loaded inbound |
| SyncCalls.LoadedBeside | backend/xray/xray.go:114-121 | on inbounds beside them it has what it loads there by itself |
| XrayUsers.SyncInbound | backend/xray/user.go:141-157 | the loop body does to list, core, error and panic what the step functions say, in the order of the source |
| XrayUsers.Xray.SyncUser | backend/xray/user.go:128-164 | lists, core, error and panic after the call are those of the function that CalledMeans and CrashedIff describe, and the lists keep their types |
| XrayUsers.Xray.SyncUsers | backend/xray/user.go:166-172 | lists, types and panic are those of the rebuild that RebuiltMeans describes; unless it panics, the lists are typed and the core is restarted with them; if it does, they are typed if they were |
| XrayUsers.Xray.Restart | backend/xray/xray.go:114-121 | a restart that comes up has loaded the stored lists and the users of all other inbounds; one that does not leaves no core |
| XrayUsers.RestartLoads | backend/xray/xray.go:114-121 | after a restart every maintained inbound has exactly the stored accounts in the core |
| XrayUsers.SyncStepOfKind | backend/xray/config.go:152-227 | a one-user step keeps the list's type, so no fallback to an empty list is taken |
| XrayUsers.CalledKeepsTypes | backend/xray/config.go:146-314 | a whole call keeps the types of all maintained lists, wherever it ends |
| XrayUsers.RebuiltIsTyped | backend/xray/config.go:64-144 | a rebuild that does not panic gives every maintained list the type that its inbound calls for; one that does keeps typed lists typed |
| XrayUsers.SyncUserIsEvent | backend/xray/user.go:141-158 | on a maintained inbound a SyncUser call is one sync event of the agreement runs |
| XrayUsers.SyncUsersIsEvent | backend/xray/user.go:166-172 | on a maintained inbound a SyncUsers call that does not panic is one bulk sync event of the agreement runs |
| XrayUsers.RestartIsEvent | backend/xray/xray.go:114-121 | on a maintained inbound a restart of the Xray object is one restart event of the agreement runs |
| XrayUsers.SyncUserKeepsAgreement | backend/xray/user.go:128-164 | from agreement, a call with no restart inside it leaves agreement unless the inbound rejects the account, and then the core lacks that email and no other |
| UserStream.StopIsEnd | controller/rpc/user.go:16-32 | the loop stops at the first missing email, failing call or panic, all calls before having named a user and succeeded |
| UserStream.SyncStream | controller/rpc/user.go:15-33 | lists and core are those that the synced users' calls lead to; the loop stops at the first missing email, failing call or panic, and says which |
| UserStream.StreamIsSafe | controller/rpc/user.go:15-33 | from lists without repeats no call of a stream panics, and the lists stay without repeats |
| UserStream.StreamIsRun | controller/rpc/user.go:15-33 | on every maintained inbound the calls of a stream are a run of sync events |
| UserStream.StreamStores | controller/rpc/user.go:15-33 | the list after a run of sync events is that of a run of SyncUser calls, to which RunMatchesBulk applies |
| UserStream.StreamKeepsAgreement | controller/rpc/user.go:28-31 | from agreement, a stream with no restart inside it keeps it until the call that fails, which leaves the core without that user on exactly the inbounds that rejected it |
| Interleaving.CallsOfValid | backend/xray/user.go:141-158 | SyncUser calls for distinct emails meet the assumptions of the interleaving theorems |
| Interleaving.RunTracks | backend/xray/user.go:141-158 | in every state of every interleaving of calls and restart steps each inbound holds, for each call, what that call and the last restart alone decide, and for all other users what the last restart decides |
| Interleaving.AnyOrderSameAccounts | backend/xray/user.go:141-158 | two interleavings in which all calls finish end with the same accounts by email in the config, and in the core too if it was not restarted |
| Interleaving.FinishedAgreesIff | backend/xray/user.go:146-157 | a finished call leaves list and core in agreement at its email if and only if a stated condition on where the last restart read the lists and loaded them among the call's three steps holds |
| Interleaving.AddFailsIff | backend/xray/user.go:148-154 | a call about to add meets an account of its user in the core if and only if a restart has loaded one since its removal, and it ends in an error if and only if there is an account to add and the core is down, turns it down or has such an account |
| Interleaving.ErrorYetAgreementIff | backend/xray/user.go:148-163 | a call whose add fails leaves list and core in agreement all the same if and only if the core has loaded the very account since the removal |
| Interleaving.RestartBringsUserBack | backend/xray/jobs.go:54-80 | a restart between the first two steps of a call that takes a user off leaves the account in the core and not in the config, while the call adds nothing and so reports no error |
| Interleaving.CallsStoreWhatTheySend | backend/xray/config.go:225-227 | with a proper cipher the calls store what they send, as FinishedAgreesIff needs |
| Interleaving.OneByOneCompletes | backend/xray/user.go:141-158 | the calls one after another, in any order, are such an interleaving |
| Interleaving.ThreeStepsAreSync | backend/xray/user.go:146-157 | the three steps of a call on one inbound, undisturbed, are one sync event |
| Interleaving.WholeRestartIsRestart | backend/xray/core.go:206-227 | a restart with no call's step inside it is one restart event |
| ApiConfig.SweepPanicsIff | backend/xray/config.go:354-360 | the deletion loop slices out of range if and only if the last inbound is an API one and another comes before it |
| ApiConfig.SweepIsOthersIff | backend/xray/config.go:354-360 | the loop removes exactly the API inbounds and keeps the others in order if and only if there is at most one, or none are adjacent and the last inbound is not one |
| ApiConfig.TwoApiInboundsFail | backend/xray/config.go:356-360 | two API inbounds around another panic; two adjacent ones leave one behind |
| ApiConfig.FilterRules | backend/xray/config.go:331-352 | fails if and only if some rule is neither an object nor null; otherwise keeps the rules that do not lead to the API, in order |
| ApiConfig.OtherRulesKeep | backend/xray/config.go:336-349 | a rule is kept if and only if it does not lead to the API |
| ApiConfig.CheckedPolicyCounts | backend/xray/config.go:407-438 | the checked policy counts user and outbound traffic, is unchanged if it did already, and keeps all other levels and all other fields |
| ApiConfig.MissingPolicyCounts | backend/xray/config.go:408-433 | where policy, levels, level 0 or system were absent, the new part counts that and nothing more |
| ApiConfig.Config.RemoveApiInbounds | backend/xray/config.go:356-360 | the in-place loop over the shared backing array is the modelled loop, panic included |
| ApiConfig.Config.CheckPolicy | backend/xray/config.go:407-438 | the field updates yield the checked policy |
| ApiConfig.Config.ApplyAPI | backend/xray/config.go:354-405 | the whole new state, or the panic, as a function of the old one |
| ApiConfig.Config.Reroute | backend/xray/config.go:369-402 | the routing rules are replaced by the API rule and the filtered rules, or by the API rule alone if the filter fails |
| ApiConfig.Config.Prepend | backend/xray/config.go:386-386 | the new inbound comes first and the others follow in order |
| ApiConfig.ApplySettlesIff | backend/xray/config.go:354-405 | an inbound on the given port of the local host at the head with all other inbounds in order, the rule from it to the API and no other such rule, the services, the counters, all else kept, and a second application changing nothing: if and only if the inbounds are removable |
| ApiConfig.ApiIsThere | backend/xray/config.go:362-402 | whatever the inbounds, unless it panics: the inbound with port, address and protocol, the rule, the services and the counters are there, and the rest of the router section and of the policy is kept |
| ApiConfig.RulesKeptIff | backend/xray/config.go:373-402 | the other rules are kept in order if and only if every rule is an object or null |
| CoreLifecycle.XrayCore.Start | backend/xray/core.go:105-179 | the critical section of a start, with its refusals and its failures before and after the orphan is killed |
| CoreLifecycle.XrayCore.Stop | backend/xray/core.go:181-204 | the critical section of a stop |
| CoreLifecycle.XrayCore.Restart | backend/xray/core.go:206-227 | an undisturbed restart is a stop followed by a start and clears the flag however it ends; while one is under way it is refused |
| CoreLifecycle.EveryReachableState | backend/xray/core.go:95-227 | in every reachable state of every interleaving only the held process is alive, and the restarting flag is set exactly while one thread is inside Restart |
| CoreLifecycle.AtMostOneAlive | backend/xray/core.go:125-164 | no two processes of a core are alive at once |
| CoreLifecycle.LeavingClears | backend/xray/core.go:212-219 | leaving Restart clears the flag, whatever other threads did in between |
| CoreLifecycle.RestartCanFinish | backend/xray/core.go:206-227 | from every reachable state the thread inside Restart can finish by itself |
| CoreLifecycle.SectionsMean | backend/xray/core.go:105-204 | in every reachable state a stop leaves nothing alive; a start succeeds exactly if no unreaped process is held and it spawns, leaving the new process held and alone alive, and otherwise leaves all as it is or nothing alive; no other process is touched |
| CoreLifecycle.StepsMean | backend/xray/core.go:105-204 | a stop step leaves nothing alive, a start step from no held process leaves the new one alone alive, an unprepared start changes nothing, and an exit or a wait changes one process only |
| CoreLifecycle.UndisturbedRestart | backend/xray/core.go:206-227 | a thread that goes through Restart undisturbed replaces whatever ran by one new process, or by none if it cannot be started, and leaves the flag clear |
| NodeLifecycle.RestartedMeans | backend/xray/core.go:221-225 | a restart stops whatever ran; if its start goes well exactly one new process runs and is held, otherwise none runs |
| NodeLifecycle.MadeIsSound | backend/xray/xray.go:26-94 | at whatever step NewXray fails, and whatever its process does meanwhile, what it leaves behind has no process running and no health job |
| NodeLifecycle.EveryRunHeld | backend/xray/core.go:95-227 | over every serial run of requests, probes, exits and reaping each backend's core has at most its held process running |
| NodeLifecycle.QuietRunsOnlyCurrent | controller/controller.go:65-107 | over any such run with no probe in flight at a shutdown every backend ever created is the current one, or nothing of it runs or will be started again |
| NodeLifecycle.OneProcessOfAll | controller/controller.go:65-107 | over such a run at most one process of the whole node is alive, counting every start of every backend, and it is the current backend's |
| NodeLifecycle.FailedStartLeavesNothing | backend/xray/xray.go:26-94 | after such a run a start that fails at whatever step leaves no process of any backend running and no backend current, through either front end |
| NodeLifecycle.StopLeavesNothing | controller/controller.go:65-77 | after such a run a stop request or a keep-alive leaves nothing running and no backend |
| NodeLifecycle.SuccessfulStartRuns | controller/rpc/base.go:38-49 | after such a run a start that succeeds makes its backend current, watched and with the new core's process, nothing else runs, and the latest session is live with the keep-alive asked for, through either front end |
| NodeLifecycle.RestartsTheCore | backend/xray/user.go:166-172 | a SyncUsers request and an unhealthy probe restart the core of their backend and touch nothing else |
| NodeLifecycle.NothingHappens | controller/rpc/base.go:16-19 | a rejected start leaves the node as it is, and a healthy probe every core |
| NodeLifecycle.EnvironmentMeans | backend/xray/core.go:166-169 | an exit, a wait and the beginning of a probe each change just that of one backend |
| NodeLifecycle.SilentWithoutKeepAlive | controller/controller.go:60-62 | in a run whose starts ask for no keep-alive no keep-alive fires |
| NodeLifecycle.CancelledIsSilent | controller/controller.go:115-119 | once a session is cancelled its keep-alive fires in no continuation |
| NodeLifecycle.ShutDownIsFinalIff | backend/xray/jobs.go:54-80 | after every run, a backend now shut down has no process over all continuations if and only if no probe of it is in flight; otherwise that probe can start its core again |
| NodeLifecycle.SessionsInOrderIff | controller/rpc/base.go:38-55 | after every event the backend is set iff the latest session is live, with no earlier session live, if and only if no REST start fails after connecting |
| NodeLifecycle.LeftoverTrackerDisconnects | controller/rest/base.go:37-42 | the session that a failed REST start leaves behind takes the running backend of a later client away and lives on |
| Controllers.XrayInstance.Shutdown | backend/xray/xray.go:123-135 | the health job is cancelled and no process of the core runs, if at most the held one did |
| Controllers.XrayInstance.Restart | backend/xray/xray.go:114-121 | succeeds if and only if the config is prepared and a process spawns; then exactly one new process runs and is held, otherwise none |
| Controllers.Make | backend/xray/xray.go:26-94 | NewXray succeeds if and only if each of its steps does, named one by one; the object then is watched with the new process, and otherwise finished |
| Controllers.Controller.NewXray | backend/xray/xray.go:26-94 | a success returns the one new object, watched; a failure leaves at most one, with nothing running; all earlier ones are untouched |
| Controllers.Controller.Connect | controller/controller.go:51-63 | the new session is the last, lives and is the one cancelled next; all earlier sessions and the backend are as before |
| Controllers.Controller.Disconnect | controller/controller.go:65-77 | the session that it cancels is over and all others are as before; nothing of the backend runs, its health job has ended, and it is gone |
| Controllers.Controller.StartBackend | controller/controller.go:91-107 | the created backend becomes current, and only on success |
| Controllers.Controller.RpcStart | controller/rpc/base.go:15-50 | take away, start, and connect on success: the step that the node theorems are about; it succeeds if and only if the request is accepted and every step of NewXray goes well |
| Controllers.Controller.RestStart | controller/rest/base.go:19-45 | take away, connect, start: the step that the node theorems are about; it succeeds if and only if the request is accepted and every step of NewXray goes well |
| KeepAlive.DurationExactIff | controller/controller.go:61-61 | the duration is the keep-alive in nanoseconds if and only if the keep-alive is at most 9223372036 seconds |
| KeepAlive.Track | controller/controller.go:115-131 | the polling loop stops at the first poll that finds the keep-alive expired |
| KeepAlive.FiresWithinOnePoll | controller/controller.go:124-128 | the disconnect comes no earlier than the duration after the last request seen, and less than one poll later |
| KeepAlive.NoDisconnectInGaps | controller/controller.go:85-89 | no disconnect before the final request while the gaps stay below the duration |
| KeepAlive.KeepAliveBound | controller/controller.go:51-131 | for 1 to 9223372036 seconds the disconnect comes between the keep-alive and the keep-alive plus five seconds after the last request |
| KeepAlive.BoundedIff | controller/controller.go:51-131 | for a keep-alive of at least 1 the bound holds for all connections and requests if and only if it is at most 9223372036 seconds |
| KeepAlive.WrappedFiresAtOnce | controller/controller.go:61-61 | the client is disconnected at once if and only if the wrapped duration is not positive, as for 9223372037 seconds |
| Locks.EveryEntryRanked | backend/xray/config.go:318-322 | every entry point, with every early return of a start and a refused restart, takes its mutexes in ascending rank: controller, Xray, core, logger, inbounds in order |
| Locks.ToBytesHoldsAll | backend/xray/config.go:318-329 | marshalling takes the read locks of all inbounds in order before it releases any |
| Locks.HeldTogether | backend/xray/core.go:206-227 | which mutexes a disconnect, a restart and a read of version or logs hold at once, one inside the other |
| Locks.OpsDisciplined | backend/xray/core.go:105-227 | a ranked path acquires upwards only, releases what it holds and ends with nothing held |
| Locks.ReachedDisciplined | backend/xray/xray.go:96-135 | that discipline holds of every thread in every reachable state |
| Locks.NoDeadlock | controller/controller.go:65-173 | in every state that any number of threads reach, an unfinished thread means that some thread can go on, whether or not waiting writers hold readers back |
| Locks.MutualExclusion | backend/xray/config.go:51-52 | in every reachable state a mutex that two threads hold is held by both for reading |
| Locks.NeverRetaken | backend/xray/core.go:206-227 | no thread asks for a mutex it holds, and a finished thread holds none |
| LogPump.LinesConserved | backend/xray/log.go:28-46 | lines offered are received, queued or dropped; the queue keeps its bound; what was kept comes out in the order offered |
| LogPump.DropsIffFull | backend/xray/log.go:37-42 | a line is dropped if and only if the channel is full and no receiver waits |
| LogPump.ReceivedInOrder | backend/xray/log.go:28-46 | the lines received from a pipe are those at some ascending places of its output |
| LogPump.SendAllMeans | backend/xray/log.go:37-42 | of lines sent one after another the first are received or queued, as many as receivers wait and places are free, and the rest dropped |
| LogPump.ReachedConserved | backend/xray/core.go:32-38 | the invariant of the pump over all interleavings of readers and receivers |
| LogPump.LogChannel.TrySend | backend/xray/log.go:37-42 | the non-blocking send is the step of the model: it delivers the line if and only if a receiver waits or a place is free |
| LogPump.LogChannel.Capture | backend/xray/log.go:28-46 | every scanned line up to the cancellation is sent in order, so that as many as there is room are received or queued and the rest dropped; all are logged, access lines apart from others |
| StartCheck.CheckStatus | backend/xray/jobs.go:13-52 | the loop consumes the stream up to the first decisive event and returns its verdict |
| StartCheck.LinesSay | backend/xray/jobs.go:30-48 | which lines say that the core has started and which that it has failed, as texts around the fixed words |
| StartCheck.ReasonSays | backend/xray/jobs.go:39-50 | the reason of a failure ends in the message or the line, or names the timeout |
| StartCheck.SuccessIff | backend/xray/jobs.go:28-50 | success if and only if a started line comes before any failure line and before the deadline; a line that is both counts as started |
| StartCheck.VerdictIsFinal | backend/xray/jobs.go:27-51 | no continuation of the stream changes the verdict or what was consumed |
| CounterNames.JoinOfSplit | backend/xray/api/stats.go:85-85 | joining the parts of a split gives the name back |
| CounterNames.CleanNameIff | backend/xray/api/stats.go:85-85 | a name is clean if and only if `>>>` stands nowhere in it and it does not end in `>` |
| CounterNames.FieldsRecoveredIff | backend/xray/api/stats.go:80-95 | splitting a counter name recovers its four fields if and only if the name in it neither contains `>>>` nor ends in `>` |
| CounterNames.ReadPlural | backend/xray/api/stats.go:79-98 | one statistic a counter, in order, link third and type fourth; panics if and only if some name has fewer than four parts |
| CounterNames.ReadSingular | backend/xray/api/stats.go:165-183 | one statistic a counter, in order, type third and link fourth; panics if and only if some name has fewer than four parts |
| CounterNames.ReadersAgree | backend/xray/api/stats.go:73-184 | on well-formed counters the two readers agree on name and value and swap type and link |

## Left out

- Process execution, pipes, files, TLS, HTTP routing, gRPC transport, protobuf encoding and JSON text; only their
  outcomes appear, as parameters.
- The regular expressions of the log format and of access lines; the start check takes the former as a parameter.
- API-key check, status-code mapping, environment, port search and system statistics: single branches or
  system-dependent.
- The account level, which is always 0, and the typed messages built from accounts.
- Configs with a null inbound, a null settings object or a null policy level, which the source dereferences.
- A shared tag: inbound tags are assumed distinct wherever several inbounds of one core are modelled.
- The slice capacity that Go's append chooses; the model grows to some larger array.
- The five copies of the list code, one for each account type, are modelled once, with the element type as a value.
- Helper.EnsureBase64Password: SHA-256 is any function with 32-byte results, so nothing depends on the digest's value.
- Agreement.AgreementAlongRun: a restart inside a SyncUser call is not one of its events; Interleaving.FinishedAgreesIff
  covers it.
- XrayUsers.SyncUserKeepsAgreement: the same holds of it, and of UserStream.StreamKeepsAgreement.
- XrayUsers.Xray.SyncUser: the text of the joined error messages is not modelled.
- Interleaving.AnyOrderSameAccounts: whether a running core takes an account is fixed for each call and inbound, and
  calls for the same email are not interleaved; the order of entries within a list depends on the interleaving.
- CoreLifecycle.XrayCore.Start: the logger, its files and the log level of the config are not part of the state; a
  kill ends a process at once.
- NodeLifecycle.QuietRunsOnlyCurrent: start and stop requests are serial, as the test for a present backend is not
  atomic with starting one, and a restart of a backend's core is one step, as the mutex of its Xray object makes it.
- KeepAlive.KeepAliveBound: the clock is ideal and a poll takes no time.
- Locks.NoDeadlock: waiting for a log line or a deadline while holding a mutex is not a wait for a mutex and does not
  appear; the outcomes of the tests on a path are free, so some combinations of paths are covered that do not occur.
- LogPump.LogChannel.Capture: the concurrent receivers appear in the interleavings of the pump, not in this method.
- The closing reply of the SyncUser stream, which is the same whether the stream ended or broke off.
