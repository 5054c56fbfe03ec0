# Verified cores of the workbench

A Dafny model of the stateful and parsing cores of the workbench: the hub's process provisioner and its
allocation store, the Punycode decoder behind server names, mail thread derivation, the write-behind query
cache, the per-workspace queue that stores Exa, the deferred-tool selection, the line reader of workflow
children, pkt-line coding, the extraction of a package from a message body, the run insights and replay-safe
forking. `dafny verify dfyconfig.toml` checks it.

Code that changes state is a class or a method proved against a function on values. Protocols are step
machines with one step for the code between two awaits, and their theorems hold over every run.

## Modules

- `AllocationRecord`, `AllocationStore`, `AllocationReplies`, `ExclusiveQueue`: one record and its fence, the store
  in memory and on file with failed writes and crashes, its exact answers, and the promise chain that runs its
  operations one by one.
- `Provisioner`, `ProvisionerSafety`, `ProvisionerService`, `ProvisionerProgress`, `ProvisionerLimits`,
  `ProvisionerRules`, `EnsureCoalescing`, `PublicEnsure`, `ExternalRef`: ensure and destroy requests on one
  allocation, interleaved at every await over the record, the pid files and the live processes; the invariant;
  what a request does for its caller; that every run can come to rest; where the invariant breaks; how the ensures
  are kept apart, and that this is what the invariant asks for; the textual reference.
- `Punycode`, `Rfc3492`, `PunycodeRoundTrip`: the decoder, section 6.2 of RFC 3492, against the encoder of section
  6.3 with parameters and a bias adaptation of its own, which imports nothing of the decoder.
- `ParticipantKey`, `Threads`, `ThreadsProperties`, `ThreadKeys`: reply forest, grouping, merging by text key, what
  the threads are shown as.
- `DeployablePackage`, `PackageNames`, `PackageReadBack`: the fenced blocks of a message, which texts name a file,
  and that a written package is found.
- `QueryCache`, `McpServers`, `DeferredTools` with `SearchAgreement`, `LineReader`, `PktLine`, `Insights`,
  `ForkReplay`: one core each. `Text` and `Options` are shared.

## What the provisioner needs

`Provisioner.Rule` names five rules. Four bind callers: ensures of one allocation do not overlap, an ensure names
a generation of at least 1, an ensure is not retried at a generation whose record write failed, and a destroy names
no reference or the recorded one. The fifth is about the file system: listing the unit directories and their pid
files never fails. Under all five, no orphan process survives. Destroys need no rule about interleaving.

Without the fifth rule a sweep can end early, after its own unit was recorded. The processes left over are then
among those it was to stop, they keep their pid files, and the next listing that succeeds makes up for it:
`missed` in the state is what is left, and `NextSweepRepairs` says that it comes to nothing.

Each rule is needed from every state of its kind, not only in some run (`ProvisionerRules`): from every state at
rest where an ensure would start a unit, an overlapping one loses a process; wherever a live process was filed and
not recorded, a retry loses it; wherever a live unit of generation 0 is recorded, the next generation loses it;
wherever a live unit is recorded, a destroy naming another one leaves it; and wherever an ensure would start a unit,
a failed listing leaves every process that lived. A lost process is named by no record, no pid file that is ever
listed and no request, and stays lost. The rules ask for more than they must where the process in question has
died already.

## Where the code does less than it says

- The coalescing of ensures promises that racing retries cannot spawn duplicate processes
  (`apps/hub/src/provisioners/process.ts:689-690`). A chained call is not registered itself, so a call made while
  a chained one is pending can overlap it. The exact condition is `EnsureCoalescing.Admissible`; carried through to
  the processes, one inadmissible call is enough to lose one (`PublicEnsure.InadmissibleCallLosesProcess`).
- A destroy that finds no recorded unit lists the directories later, and can then, by its own steps alone, stop the
  recorded unit of a newer, ensured generation (`apps/hub/src/provisioners/process.ts:788-799`).
- `ensureBuiltInMcpServers` promises that a later ensure sees the Exa an earlier one added
  (`apps/web/src/mcp-servers.ts:504-506`). It does not when a provider of Exa's name carries another plugin: the
  rows on it are never listed, and each ensure that succeeds adds one.
- A failed add is said to leave nothing behind (`apps/web/src/mcp-servers.ts:367-370`). It leaves its credential row
  exactly when the answer to the store or to the patch was lost, or when the deletion failed; and there is a provider
  row afterwards unless there was none before and the add failed ahead of its request for one, as the cleanup
  never removes that row (`McpServers.FailedAddLeavesNothingIff`). It is one credential row at most, so the main claim is
  not touched.
- The director and the search tool are said never to disagree on what a query matched
  (`packages/deferred-tools/src/match.ts:1-4`). They can, when another director published its catalogue last: over
  all queries they agree exactly when each published definition's own text, searched for, has that tool sent
  (`SearchAgreement.SearchAgreesIff`). Knowing the published names is enough for a blank search only.
- An invalidation with timestamp 0 drops an unflushed write of the same query
  (`apps/web/src/query-cache-persistence.ts:184-193`); `QueryCache.DropsWrite` is exactly when this matters.
- A deferred tool whose own name is `tool_search` is sent next to the search tool once it is surfaced
  (`packages/deferred-tools/src/director.ts:57-67`).
- A label's wrapping backticks and colon are said to be stripped (`apps/web/src/chat/deployable-package.ts:122-123`).
  Those behind the name are exactly when at most one colon stands there, before the closing backticks; otherwise
  the label names nothing (`PackageNames.LabelNames`).
- `pktLine` does not bound its payload: one more byte than 0xFFFF - 4 and the line does not read back. A header
  with a sign moves the reader back (`apps/web/src/git-push.ts:22-39`). It ends exactly when no offset recurs; it
  does when no header it meets has a sign, whatever the payloads hold.
- A fork with an empty subject, or any other empty field the row schema refuses, is recorded in a row that is
  skipped on load, so its retry is sent again (`apps/web/src/needs-list.ts:73-86`). So is a fork whose id the hub
  gives out twice, one that overlaps an equal fork, and one whose answer was lost.

## Model

| member | source | states |
|---|---|---|
| `AllocationRecord.EnsureDecidesByFence` | apps/hub/src/provisioners/process.ts:253-296 | an ensure is refused exactly when no record granting it would respect the fence, with the right code; otherwise it is granted, written only if it is not there yet, and a new generation starts without a reference |
| `AllocationRecord.DestroyDecidesByFence` | apps/hub/src/provisioners/process.ts:298-334 | the same for destroy, which is never refused for a generation already destroyed and carries the reference over |
| `AllocationRecord.RecordsWhileEnsured` | apps/hub/src/provisioners/process.ts:336-357 | a unit is recorded exactly while its generation is the ensured one |
| `AllocationStore.AllocationStateStore.EnsureLoaded` | apps/hub/src/provisioners/process.ts:209-241 | the loading loop leaves the state that the specification gives, on every file and every failure |
| `AllocationStore.AllocationStateStore.Serve` | apps/hub/src/provisioners/process.ts:252-358 | one operation decides, persists, and only then remembers and answers |
| `AllocationStore.LoadAppends` | apps/hub/src/provisioners/process.ts:234-240 | a load succeeds exactly on rows without a repeated id, and yields them |
| `AllocationStore.StepIsDurable` | apps/hub/src/provisioners/process.ts:195-383 | every operation and every crash keeps the file equal to memory, or to memory and one update nobody was told of, and only moves the records up the fence |
| `AllocationStore.RunIsDurable` | apps/hub/src/provisioners/process.ts:195-383 | so does every run |
| `AllocationStore.RunIsFenced` | apps/hub/src/provisioners/process.ts:252-358 | over every run with crashes each allocation's sidecar never changes and its (generation, desired) pair never decreases |
| `AllocationStore.AcknowledgedIsNeverLost` | apps/hub/src/provisioners/process.ts:243-383 | a record returned to a caller is never lost, whatever fails or crashes later |
| `AllocationStore.RecordedIsNeverLost` | apps/hub/src/provisioners/process.ts:336-357 | a recorded unit's generation keeps a reference until a newer generation |
| `AllocationStore.DestroyedStaysDestroyed` | apps/hub/src/provisioners/process.ts:252-358 | once destroying generation g was acknowledged, no later request ensures or records a generation up to g, even across crashes |
| `AllocationReplies.DecidesExactly` | apps/hub/src/provisioners/process.ts:252-358 | a decision answers exactly as the fence says, and asks for a write exactly when the request is granted and the record does not grant it already |
| `AllocationReplies.ServesExactly` | apps/hub/src/provisioners/process.ts:195-383 | a request fails exactly when the records cannot be loaded or a write that is called for does not commit; otherwise an ensure or destroy is observed exactly when the fence admits it, with the right code if not, and recording a unit is confirmed exactly when the record is ensured at that generation; the record is then the granted one and no other allocation changes |
| `ExclusiveQueue.RunsInCallOrder` | apps/hub/src/provisioners/process.ts:200-207 | queued operations run once each, in call order, one at a time, also after failures |
| `ExclusiveQueue.NeverStuck` | apps/hub/src/provisioners/process.ts:200-207 | until every operation is settled, some step is possible, whatever failed before |
| `ExclusiveQueue.EventsLowerTotal` | apps/hub/src/provisioners/process.ts:200-207 | the operations of a run take at most two steps each |
| `ExclusiveQueue.EveryCallCanSettle` | apps/hub/src/provisioners/process.ts:200-207 | a failed operation never blocks the later ones: from every state all can settle, without a new call |
| `ProvisionerSafety.StepKeeps` | apps/hub/src/provisioners/process.ts:563-802 | every step between two awaits, a failed listing included, keeps the invariant that each live process is filed or about to be, and is expected by the record, attended by a request, or missed by a failed listing |
| `ProvisionerSafety.NoOrphanAtRest` | apps/hub/src/provisioners/process.ts:563-803 | in every interleaving that obeys all five rules, with no request in flight nothing lives under a destroyed record and at most the recorded unit under an ensured one, and each live process has its pid file |
| `ProvisionerSafety.FailedListingsLeaveFiles` | apps/hub/src/provisioners/process.ts:443-458 | where listings may fail, any further live process is one that a failed listing was to stop since a sweep last began, and has its pid file too |
| `ProvisionerSafety.NextSweepRepairs` | apps/hub/src/provisioners/process.ts:645-687 | whichever listings failed before: once a request begins to list, and from then on none fails, no orphan process survives |
| `ProvisionerSafety.NoProcessIsForgotten` | apps/hub/src/provisioners/process.ts:671-743 | in every disciplined run, while requests are in flight, every live process is the expected one, or some request will stop or record it, or a failed listing missed it, which takes one |
| `ProvisionerSafety.RecordedUnitIsFenced` | apps/hub/src/provisioners/process.ts:715-743 | in every disciplined run, listings failing or not, a recorded unit is never newer than its record, and of its generation while that is ensured |
| `ProvisionerService.EnsureSparesRecordedUnit` | apps/hub/src/provisioners/process.ts:671-743 | in every disciplined run, listings failing or not, no step of an ensure stops the live unit that an ensured record names |
| `ProvisionerService.UndisturbedEnsureServes` | apps/hub/src/provisioners/process.ts:693-743 | an ensure that nothing disturbs keeps the recorded unit alive to its end, and the record as it was if a unit is recorded for its generation |
| `ProvisionerService.EnsureCanStartUnit` | apps/hub/src/provisioners/process.ts:715-743 | from every disciplined state at rest, an ensure that has a unit to start can end by its own steps with the new unit recorded for its generation and alive |
| `ProvisionerService.UndisturbedDestroyCleans` | apps/hub/src/provisioners/process.ts:768-802 | a destroy that nothing disturbs ends with the unit that it names, or else the recorded one, dead, its directory with the pid file gone and the record destroyed |
| `ProvisionerService.UndisturbedSweepIs` | apps/hub/src/provisioners/process.ts:645-687 | a cleanup that nothing disturbs stops exactly the processes that are filed under a listed generation and alive, but for the one to keep, and removes exactly their directories; every other process, directory and pid file stays |
| `ProvisionerProgress.StepsLowerRank` | apps/hub/src/provisioners/process.ts:563-803 | a request's own steps bring it nearer to its end and no other request's step touches it, so it takes finitely many |
| `ProvisionerProgress.CanRest` | apps/hub/src/provisioners/process.ts:563-803 | from every state of every run the requests in flight can all end, without a new one, a death or a failed listing; a process lost by then is lost still |
| `ProvisionerRules.EveryRuleIsNeeded` | apps/hub/src/provisioners/process.ts:645-803 | without any one of the five rules some run at rest keeps a process that the record does not account for |
| `ProvisionerRules.OverlapLosesProcess` | apps/hub/src/provisioners/process.ts:671-743 | from every disciplined state at rest where an ensure would start a unit, two overlapping ones can come to rest with a process lost |
| `ProvisionerRules.RetryLosesProcess` | apps/hub/src/provisioners/process.ts:594-743 | from every disciplined state at rest whose ensured generation has no reference but a live filed process, a retry can come to rest with that process lost |
| `ProvisionerRules.GenerationZeroIsNeverSwept` | apps/hub/src/provisioners/process.ts:480-484 | from every state at rest with a live recorded unit of generation 0, the next ensure that starts a unit can come to rest with it lost |
| `ProvisionerRules.ForeignRefLeavesUnit` | apps/hub/src/provisioners/process.ts:783-801 | from every state at rest with a live recorded unit, any accepted destroy naming any other process can run to its end, with nothing else begun, and the recorded unit lives |
| `ProvisionerRules.FailedListLeavesUnits` | apps/hub/src/provisioners/process.ts:645-672 | from every state at rest where an ensure would start a unit, a failed listing can leave all processes that lived, beside the recorded one |
| `ProvisionerRules.RunTraces` | apps/hub/src/provisioners/process.ts:594-607 | in every run, whatever the rules, a filed or recorded pid was spawned for its generation |
| `ProvisionerLimits.LostStaysLost` | apps/hub/src/provisioners/process.ts:645-687 | a lost process stays lost until it dies or a caller names its reference |
| `ProvisionerLimits.DestroyOfRecordedUnitIsFenced` | apps/hub/src/provisioners/process.ts:774-801 | in every disciplined run, listings failing or not, a destroy that observes a recorded unit never sets out to stop one of a newer generation |
| `ProvisionerLimits.UpToStays` | apps/hub/src/provisioners/process.ts:794-800 | nor does it come to stop one later |
| `ProvisionerProgress.DestroyMayStopNewer` | apps/hub/src/provisioners/process.ts:788-799 | from every disciplined state at rest, a destroy that is accepted and observes no recorded unit can come to find the live unit of the next generation, recorded meanwhile; by its own steps alone it then stops that unit, which the record goes on naming as ensured |
| `ProvisionerProgress.MindedIsStopped` | apps/hub/src/provisioners/process.ts:645-687 | what a cleanup minds it can stop, in its own steps alone |
| `EnsureCoalescing.AdmissibleCallsNeverOverlap` | apps/hub/src/provisioners/process.ts:751-766 | ensures never overlap while each call finds nothing pending but the registered operation |
| `EnsureCoalescing.InadmissibleCallCanOverlap` | apps/hub/src/provisioners/process.ts:751-766 | the condition is exact: any other call can be continued to an overlap |
| `EnsureCoalescing.CallsCanSettle` | apps/hub/src/provisioners/process.ts:751-766 | from every run, careful or not and whatever failed, all calls can settle without another one, and a call that comes then runs at once |
| `EnsureCoalescing.RejectedTogether` | apps/hub/src/provisioners/process.ts:751-766 | a call chained on one that was rejected is rejected with it and never runs, whatever comes |
| `PublicEnsure.CarefulCallsObeyNoOverlap` | apps/hub/src/provisioners/process.ts:693-766 | with each ensure request part of a coalesced operation, careful calls make every run of the units obey the rule against overlap |
| `PublicEnsure.CarefulCallsLeaveNoOrphan` | apps/hub/src/provisioners/process.ts:745-803 | so through the public calls no orphan survives, under careful calls and the four other rules |
| `PublicEnsure.InadmissibleCallLosesProcess` | apps/hub/src/provisioners/process.ts:751-766 | from every state at rest that careful calls have led to, where an ensure would start a unit, one inadmissible call and no other can come to rest with a process lost |
| `ExternalRef.ParseOfPrinted` | apps/hub/src/provisioners/process.ts:460-478 | a printed reference parses back exactly when the id is not empty and has no colon and the pid is not 0; otherwise it does not parse |
| `Text.DecimalWrites` | apps/hub/src/provisioners/process.ts:460-462 | a printed number is its decimal numeral, without leading zeros |
| `ExternalRef.ExternalRefsAreInjective` | apps/hub/src/provisioners/process.ts:389-478 | for valid ids, equal texts name equal units |
| `ExternalRef.RecordedRefParsesBack` | apps/hub/src/provisioners/process.ts:693-743 | in every disciplined run the recorded reference parses back to the allocation the record is of, its process and a generation no newer than the record's |
| `Punycode.ComputeAdapt` | apps/web/src/mcp-server-name.ts:59-68 | the bias loop ends and computes the specified adaptation |
| `Punycode.ReadDelta` | apps/web/src/mcp-server-name.ts:79-88 | the digit loop ends and reads one generalized variable-length integer, or fails |
| `Punycode.DecodePunycodeLabel` | apps/web/src/mcp-server-name.ts:44-100 | the nested loops end on every label and compute the decoding, or the label itself |
| `PunycodeRoundTrip.IntegerReadsBack` | apps/web/src/mcp-server-name.ts:79-88 | reading inverts the integer encoding of section 3.3 of RFC 3492 at every bias |
| `PunycodeRoundTrip.ScanDecodes` | apps/web/src/mcp-server-name.ts:78-95 | from every point of the encoder's scan, the decoder rebuilds the whole text |
| `PunycodeRoundTrip.DecodeInvertsEncode` | apps/web/src/mcp-server-name.ts:44-100 | decoding inverts the encoder of section 6.3, which has parameters of its own, on every text of code points below 0x10000 |
| `PunycodeRoundTrip.AdaptationsAgree` | apps/web/src/mcp-server-name.ts:59-68 | the bias is that of section 6.1 of RFC 3492, for every delta |
| `PunycodeRoundTrip.ThresholdsAgree` | apps/web/src/mcp-server-name.ts:85 | the threshold is that of section 6.2, for every position and bias |
| `PunycodeRoundTrip.DigitIff` | apps/web/src/mcp-server-name.ts:53-58 | a character is a digit exactly when it is one of the 36, a letter in either case |
| `PunycodeRoundTrip.OtherLabelsStay` | apps/web/src/mcp-server-name.ts:45 | a label without the prefix comes back as it is |
| `PunycodeRoundTrip.NonDigitsStay` | apps/web/src/mcp-server-name.ts:70-99 | a label whose tail has a character that is no digit comes back as it is |
| `PunycodeRoundTrip.BareNonDigitsStay` | apps/web/src/mcp-server-name.ts:70-99 | and so without a hyphen, or with only a leading one |
| `PunycodeRoundTrip.PairStandsForPoint` | apps/web/src/mcp-server-name.ts:93 | a code point above 0xFFFF is inserted as the surrogate pair that stands for it |
| `ParticipantKey.KeyIsTheSet` | apps/web/src/threads.ts:80-86 | two groups have the same participant key exactly when they have the same set of participants |
| `ParticipantKey.StringifyArrayIsInjective` | apps/web/src/threads.ts:85 | the JSON text of an array of strings determines it |
| `Threads.ChainsEnd` | apps/web/src/threads.ts:70-77 | with acyclic links every reply chain reaches a root within as many steps as there are links |
| `Threads.CyclesNeverEnd` | apps/web/src/threads.ts:70-77 | on a cycle the walk never ends |
| `Threads.FindRoot` | apps/web/src/threads.ts:70-77 | the loop ends at the root |
| `Threads.FindParent` | apps/web/src/threads.ts:48-58 | the loop back through the references finds the specified parent |
| `Threads.CollectParents` | apps/web/src/threads.ts:48-69 | the parent links that the specification gives |
| `Threads.GroupByRoot` | apps/web/src/threads.ts:87-102 | the groups that the specification gives, in the order of their first message |
| `Threads.MergeGroups` | apps/web/src/threads.ts:104-123 | the merged and the solo groups that the specification gives |
| `Threads.DeriveThreads` | apps/web/src/threads.ts:63-132 | the whole derivation computes the specified threads |
| `ThreadsProperties.GroupsAreGrouped` | apps/web/src/threads.ts:87-102 | each root's group holds exactly the messages under it, in order, with their first List-ID and subject |
| `ThreadsProperties.ThreadsConserveMessages` | apps/web/src/threads.ts:63-132 | over all threads every message id appears as often as in the input |
| `ThreadsProperties.KeyTextIsFaithful` | apps/web/src/threads.ts:107-119 | text keys are equal exactly when the groups share a List-ID, or a subject and a participant set, despite the NUL-separated form |
| `ThreadsProperties.TogetherIffSameKey` | apps/web/src/threads.ts:79-132 | two messages share a thread exactly when their groups have the same root or the same key |
| `ThreadsProperties.ParticipantsAreCorrespondents` | apps/web/src/threads.ts:32-39 | the participants are exactly the normalized From, To and Cc addresses of the members |
| `ThreadKeys.ShownKeysAreDistinct` | apps/web/src/threads.ts:125-131 | where message ids are distinct, no two threads are shown under one key or root, and each names its first message |
| `ThreadKeys.ThreadsAreInOrder` | apps/web/src/threads.ts:104-126 | keyed threads come ahead of those that stay alone, each kind in the order of their first messages |
| `ThreadsProperties.RepliesStayTogether` | apps/web/src/threads.ts:60-77 | with acyclic links a message and its resolved parent are in one thread |
| `ThreadsProperties.ParentIsNearestKnown` | apps/web/src/threads.ts:48-58 | the parent is the message replied to, if known, and else the last reference that is |
| `ThreadsProperties.ParentsAreKnown` | apps/web/src/threads.ts:64-69 | a resolved parent is one of the messages |
| `QueryCache.QueryCachePersistence.Handle` | apps/web/src/query-cache-persistence.ts:176-215 | the event handler changes the pending sets and the schedule as specified |
| `QueryCache.QueryCachePersistence.RunFlush` | apps/web/src/query-cache-persistence.ts:134-163 | a flush clears the schedule and the pending sets, and opens a transaction unless they were empty |
| `QueryCache.QueryCachePersistence.CommitNext` | apps/web/src/query-cache-persistence.ts:143-163 | the oldest transaction, deletes before puts, is applied to the store |
| `QueryCache.EventIsDirectUnlessItDrops` | apps/web/src/query-cache-persistence.ts:176-215 | coalescing an event equals applying it at once, unless and only unless it drops an unflushed write |
| `QueryCache.FlushSettlesTheSame` | apps/web/src/query-cache-persistence.ts:134-163 | a flush never changes what will be stored |
| `QueryCache.CommitSettlesTheSame` | apps/web/src/query-cache-persistence.ts:143-163 | nor does a commit |
| `QueryCache.PendingIsScheduled` | apps/web/src/query-cache-persistence.ts:132-216 | over every run the pending sets are disjoint and pending work has a flush scheduled |
| `QueryCache.RunIsDirect` | apps/web/src/query-cache-persistence.ts:132-216 | for any events and any flush and commit timing, the store with everything under way equals the events applied one by one, as long as none drops an unflushed write |
| `QueryCache.FlushOpens` | apps/web/src/query-cache-persistence.ts:134-163 | a flush leaves nothing pending and nothing scheduled, and opens one transaction with what was pending, if anything was |
| `QueryCache.CommitCloses` | apps/web/src/query-cache-persistence.ts:143-163 | each commit writes the oldest open transaction and leaves one fewer |
| `QueryCache.FlushedRunIsStored` | apps/web/src/query-cache-persistence.ts:132-216 | after any run, a flush and as many commits as there are transactions leave the store itself equal to the events applied one by one, as long as none drops an unflushed write |
| `QueryCache.EveryRunCanDrop` | apps/web/src/query-cache-persistence.ts:182-193 | every run can be continued to such a drop: a write and then an invalidation with timestamp 0 lose the write exactly when the store did not have it already |
| `McpServers.OneEnsureAtATime` | apps/web/src/mcp-servers.ts:507-529 | in any interleaving at most one ensure of the workspace runs |
| `McpServers.NeverStuck` | apps/web/src/mcp-servers.ts:518-529 | until every ensure is done, some step is possible, whatever failed before |
| `McpServers.StepsLowerRank` | apps/web/src/mcp-servers.ts:514-547 | the ensures of a run take at most nine steps each |
| `McpServers.EveryFlightCanEnd` | apps/web/src/mcp-servers.ts:518-529 | a failed or slow ensure never blocks the later ones: from every state all can end, without a new call |
| `McpServers.SuccessLeavesListedRow` | apps/web/src/mcp-servers.ts:531-547 | over every run from a sound hub, once an ensure has succeeded the hub lists an Exa row, and keeps it |
| `McpServers.SucceedsIffNothingWentWrong` | apps/web/src/mcp-servers.ts:334-406 | over every run from any hub, an ensure that has ended succeeded exactly if none of its requests was refused, threw or lost its answer |
| `McpServers.NeverTwoRows` | apps/web/src/mcp-servers.ts:334-547 | from a hub that holds at most one listed Exa row, the workspace never holds two, however calls interleave and whatever requests fail or lose their answers |
| `McpServers.FailedAddLeavesNothingIff` | apps/web/src/mcp-servers.ts:334-406 | from every state of the invariant, an add that fails leaves no credential row, exactly unless the answer to its store or patch was lost or its deletion failed; and no provider row, exactly if it failed before its request for one, where there was none |
| `McpServers.FailedAddCanLeaveRow` | apps/web/src/mcp-servers.ts:334-406 | each of these three ends some run from an empty hub, with the add failed and the credential row left |
| `McpServers.FailedAddCanLeaveProvider` | apps/web/src/mcp-servers.ts:188-252 | a refused store ends a run from an empty hub, with the add failed and the provider row left |
| `McpServers.ForeignProviderAddsRow` | apps/web/src/mcp-servers.ts:155-198 | after every run that left no ensure under way, on a provider with another plugin, one more undisturbed call can add a row |
| `McpServers.ForeignSuccessesAddRows` | apps/web/src/mcp-servers.ts:155-198 | in every run there, whatever interleaves and fails, each ensure that succeeds has left one more row |
| `McpServers.ForeignSucceedsByPatch` | apps/web/src/mcp-servers.ts:531-546 | there no ensure takes an earlier row for its own: one that succeeds has patched a row that it stored |
| `McpServers.ForeignProviderHoldsTwoRows` | apps/web/src/mcp-servers.ts:155-198 | so two ensures, one after the other, leave two rows |
| `DeferredTools.DeferredToolSelection.SurfaceQuery` | packages/deferred-tools/src/director.ts:77-86 | surfacing adds every deferred tool of each matched namespace, in catalogue order |
| `DeferredTools.DeferredToolSelection.Tools` | packages/deferred-tools/src/director.ts:90-98 | the fixed block, then the surfaced tools in their order |
| `DeferredTools.EarlierToolsArePrefix` | packages/deferred-tools/src/director.ts:44-108 | the tool list of each turn is a prefix of every later one |
| `DeferredTools.SurfacedIsWholeNamespaces` | packages/deferred-tools/src/director.ts:74-86 | surfaced tools are deferred, each once, in whole namespaces |
| `DeferredTools.AddedInCatalogueOrder` | packages/deferred-tools/src/director.ts:77-86 | what one search surfaces is added in the order of the catalogue |
| `SearchAgreement.NamespaceIsBeforeSeparator` | packages/deferred-tools/src/match.ts:34-40 | the namespace is the longest start of the name without `_` or `.` |
| `SearchAgreement.TokensNarrow` | packages/deferred-tools/src/match.ts:49-62 | every token has to occur in the folded name and description, so more tokens only narrow a search, and none leave everything |
| `SearchAgreement.DeferredAreHeldBack` | packages/deferred-tools/src/director.ts:57-98 | a deferred tool is sent exactly once some search has surfaced it, and so not before the first; every other tool always is |
| `DeferredTools.NoNameTwice` | packages/deferred-tools/src/director.ts:57-98 | with distinct definitions no name is sent twice, unless and only unless a deferred tool called like the search tool was surfaced |
| `SearchAgreement.NoNameEverTwiceIff` | packages/deferred-tools/src/director.ts:57-98 | a configuration never sends a name twice, whatever is searched, exactly when it defers no tool called like the search tool |
| `DeferredTools.DeferredCatalog.Publish` | packages/deferred-tools/src/catalog.ts:16-28 | the shared cell, made on demand, holds what was published last |
| `DeferredTools.FoundToolsAreSent` | packages/deferred-tools/src/tool-search.ts:36-45 | as long as the director was the last to publish, every tool a search lists is sent on the next turn, for every query |
| `SearchAgreement.SearchAgreesIff` | packages/deferred-tools/src/match.ts:1-4 | whoever published last, every tool listed for any query is sent on the next turn, exactly when each published definition's own text, as a query, has it sent |
| `SearchAgreement.SameNameMayDisagree` | packages/deferred-tools/src/catalog.ts:25-33 | where only the published text of a tool matches a query, the tool is listed and not sent, though its name is known |
| `DeferredTools.BlankSearchAgreesIff` | packages/deferred-tools/src/catalog.ts:25-33 | for a blank search the condition is that no published name is foreign to the agent |
| `LineReader.ReadLines` | apps/sidecar/src/workflow-child-spawner.ts:77-106 | the lines depend only on the concatenated text and are those of the split at line feeds, whatever the chunks |
| `LineReader.AtEndIsSplit` | apps/sidecar/src/workflow-child-spawner.ts:77-106 | what is yielded at the end is the split text: one return stripped, empty lines dropped, the tail as it is |
| `LineReader.YieldedIsPrefix` | apps/sidecar/src/workflow-child-spawner.ts:87-98 | a yielded line is never taken back |
| `PktLine.ReadPktLines` | apps/web/src/git-push.ts:26-39 | on every body on which the loop ends, it comes to the result of its turns, offsets below zero included |
| `PktLine.ReadsOneResult` | apps/web/src/git-push.ts:26-39 | a body reads to one result only |
| `PktLine.ReadInvertsEncode` | apps/web/src/git-push.ts:20-39 | reading any stream of fitting lines and flush packets returns exactly the lines |
| `PktLine.HeaderIs` | apps/web/src/git-push.ts:20-24 | the header of a fitting line is its length, with itself, as four hex digits in lower case |
| `PktLine.SubarrayIs` | apps/web/src/git-push.ts:31-36 | a slice is exactly the positions between its bounds, a negative bound counting from the end |
| `PktLine.LineReadsBackIffItFits` | apps/web/src/git-push.ts:20-39 | a line reads back exactly when its payload and header fit 0xFFFF |
| `PktLine.UnsignedHeadersEnd` | apps/web/src/git-push.ts:30-38 | the reader ends when no header that it meets is read as negative, whatever the payloads hold |
| `PktLine.HexHeadersEnd` | apps/web/src/git-push.ts:30-38 | on a body whose headers are hex digits it ends and does not throw |
| `PktLine.EndsIffNoOffsetRecurs` | apps/web/src/git-push.ts:30-38 | it ends exactly when no offset recurs, and exactly when it has ended after twice the body's length of turns |
| `PktLine.RecurringOffsetNeverEnds` | apps/web/src/git-push.ts:30-38 | on every body, once an offset recurs the reader never ends |
| `PktLine.SignedBodyNeverEnds` | apps/web/src/git-push.ts:30-38 | such a body exists, as parseInt accepts a sign |
| `DeployablePackage.ReadFence` | apps/web/src/chat/deployable-package.ts:170-198 | one fence is read to its end and named by info string, line above or first line, in this order |
| `DeployablePackage.FindNamedFencedBlocks` | apps/web/src/chat/deployable-package.ts:160-208 | one pass ends with the first block of each file |
| `DeployablePackage.BlocksAreOpened` | apps/web/src/chat/deployable-package.ts:160-208 | the blocks are exactly those opened outside every fence, by a two-state reading of the lines |
| `DeployablePackage.BlocksAreDisjoint` | apps/web/src/chat/deployable-package.ts:149-208 | all ranges are in bounds, in order and pairwise disjoint, label lines included |
| `DeployablePackage.ClosingNeverNames` | apps/web/src/chat/deployable-package.ts:124-138 | a closing line never names a file |
| `Text.TrimIs` | apps/web/src/chat/deployable-package.ts:127-133 | trimming takes off exactly the white space at either end |
| `Text.LowerIs` | apps/web/src/chat/deployable-package.ts:135-136 | of the ASCII letters each capital is read as its small letter, and nothing else changes |
| `PackageNames.LabelNames` | apps/web/src/chat/deployable-package.ts:122-138 | through white space around it, a comment marker, a path, capitals and any backticks in front, a file name names its file exactly when at most one colon follows it, and only backticks after that; otherwise it names nothing |
| `PackageNames.InfoNamesLastToken` | apps/web/src/chat/deployable-package.ts:140-147 | a name behind a language, or behind anything and white space, names its file as an info string |
| `DeployablePackage.PackageFromBody` | apps/web/src/chat/deployable-package.ts:212-237 | the body keeps, in order, exactly the lines that neither block covers |
| `DeployablePackage.TidyKeepsText` | apps/web/src/chat/deployable-package.ts:232-235 | tidying the kept lines changes nothing but white space |
| `PackageReadBack.PackageReadsBack` | apps/web/src/chat/deployable-package.ts:160-237 | a package written as two fences, each named by its info string, by the line above or by its first line, is found whole and the text around it is kept |
| `PackageReadBack.LanguageNames` | apps/web/src/chat/deployable-package.ts:140-147 | a language before the file name is one such info string |
| `PackageReadBack.InfoIs` | apps/web/src/chat/deployable-package.ts:164-170 | a line opens a fence exactly when, but for white space around it, it starts with three backticks and has no line terminator inside |
| `DeployablePackage.RunsCollapse` | apps/web/src/chat/deployable-package.ts:232-235 | wherever it stands, a run of line feeds becomes two if it has more, and stays as it is otherwise |
| `DeployablePackage.CollapseIs` | apps/web/src/chat/deployable-package.ts:232-235 | so no three line feeds in a row are left, and a text without any is kept |
| `Insights.RoundIsDayIff` | apps/web/src/insights-stats.ts:168-169 | the rounded index is the local day exactly when the shift is at least -12 hours and under 12 hours |
| `Insights.BucketIs` | apps/web/src/insights-stats.ts:131-137 | each status and end time falls in its bucket |
| `Insights.CountedIff` | apps/web/src/insights-stats.ts:157-160 | a run is counted exactly when its purpose and its creation time, both ends included, are in range |
| `Insights.SameRowIff` | apps/web/src/insights-stats.ts:179-180 | two runs share a workflow row exactly when the routine, or the definition of one without, is the same text |
| `Insights.PartsSumToWhole` | apps/web/src/insights-stats.ts:157-202 | distinct classes that cover the runs share out their tallies |
| `Insights.DaysSumToTotal` | apps/web/src/insights-stats.ts:142-182 | in such a calendar the day buckets add up to the headline, bucket by bucket |
| `Insights.RunsFallOnTheirDay` | apps/web/src/insights-stats.ts:164-169 | with local days that only go up, and shifts under half a day, every counted run falls in the bucket of its local day, which exists |
| `Insights.ComputeBenchInsights` | apps/web/src/insights-stats.ts:142-216 | headline counts, day tallies and one row for each workflow, which add up to the headline |
| `ForkReplay.ForkReferences` | apps/web/src/threads.ts:171-178 | the parent closes the references, once, behind the unchanged ancestry |
| `ForkReplay.ThreadLinkStore.LoadLinks` | apps/web/src/needs-list.ts:103-121 | the loop loads the well-formed rows in order |
| `ForkReplay.ThreadLinkStore.RecordLink` | apps/web/src/needs-list.ts:124-128 | the row is put last, in place of any row with its id |
| `ForkReplay.ThreadLinkStore.ForkSubThread` | apps/web/src/needs-converge.ts:150-190 | sends exactly when no link matches, and records exactly what was sent |
| `ForkReplay.RecordedAsSent` | apps/web/src/needs-converge.ts:172-189 | what is recorded is the mail that was sent, with the ancestry closed by the parent |
| `ForkReplay.LegacyRowsMatchAny` | apps/web/src/needs-converge.ts:161-170 | a row from before recipients or the body were kept matches any, a row with them only its own |
| `ForkReplay.LoadedIff` | apps/web/src/needs-list.ts:73-121 | a stored row is loaded exactly when none of the texts that the schema wants non-empty is empty |
| `ForkReplay.MailsAreAccepted` | apps/web/src/needs-converge.ts:150-190 | over every run the mails in the log are those that the hub accepted, as many as its replies say |
| `ForkReplay.EqualForksAreSentOnce` | apps/web/src/needs-converge.ts:150-190 | over every run of recordable forks with fresh message ids, equal ones not on their way at once, from whatever the storage held: once a fork got an id, every later equal one is replayed under it |
| `ForkReplay.OnlyLostAnswersRepeat` | apps/web/src/needs-converge.ts:173-189 | so the hub accepts equal mails twice only where the answer to the first one was lost |
| `ForkReplay.LostAnswerSendsTwice` | apps/web/src/needs-converge.ts:173-189 | and there the retry does send the mail again |
| `ForkReplay.ReplaysWereSent` | apps/web/src/needs-converge.ts:158-171 | in the same runs, from an empty store, every replayed id is that of an earlier send of an equal fork |
| `ForkReplay.RetryIsReplayedIff` | apps/web/src/needs-list.ts:73-128 | a retry is replayed exactly when every field the schema wants non-empty is |
| `ForkReplay.OverlapSendsTwice` | apps/web/src/needs-converge.ts:158-188 | two equal forks on their way at once are both sent |
| `ForkReplay.RepeatedIdForgets` | apps/web/src/needs-list.ts:124-128 | an id given out twice forgets the first fork |

## Left out

- Whole parts: user interface, routes, canvas, server wiring, redaction, path and redirect checks, liveness
  tables, scripts. They are wiring or easy members.
- AllocationStore: `updatedAt` timestamps, directory creation, and loss of an fsynced file; a crash is the death
  of the hub process. Rows that fail the schema read as a malformed file.
- Provisioner: pids are never reused, stops succeed and unit directories are removed; signal timing and partly
  written pid files are not steps. One allocation at a time: other allocations touch none of
  its state, except a destroy that names another allocation's reference.
- Provisioner: no hub crash between spawning and recording (crashes belong to the store), and no write of the
  record that fails after the file was replaced.
- Provisioner: request validation, tokens and the environment of a spawned process.
- ExternalRef: `Number` is a parameter that reads decimals back. Arithmetic on references is exact.
- PunycodeRoundTrip.DecodeInvertsEncode: the integers are unbounded, so `delta >> 1` is a division, and texts with
  code points above 0xFFFF are outside the round trip. The decoder itself is modelled on all labels; what it inserts
  for such a code point is proved apart (`PairStandsForPoint`).
- Threads.FindRoot: requires acyclic links, as the loop does not end otherwise; so do the methods that call it.
- Threads: address and subject normalizers are parameters; strings compare by code unit as `sort` does.
  `deriveDmThreads` filters the threads and is not modelled.
- QueryCache: failed transactions, detaching, hydration, and two databases opened out of order.
- McpServers: tool catalogs, sign-in, other servers' rows, writers outside the queue, resolving the workspace.
- McpServers.NeverTwoRows: assumes at the start what `Sound` says, since rows stored earlier are never removed.
- DeferredTools: name patterns, case folding and the classes of letters and digits are parameters; folding is
  taken to leave white space at either end alone.
- LineReader: UTF-8 decoding of chunks and the release of the reader.
- PktLine: `parseInt` is a parameter that reads four hex digits; text decoding of the lines.
- PktLine.ReadPktLines: requires that the loop ends, as it does not otherwise; when it does is proved exactly.
- DeployablePackage: JSON parsing and the shape of the two files, a parameter here; attachments.
- Insights: names, medians, the five newest failures and the order of the rows; the time zone is a parameter,
  as are the first day's start and the purpose filter.
- ForkReplay: JSON text (a row is a link, or the key holds none), storage that throws, tenant ids.
- `dedupeMcpName`, `dedupeMcpHandle`, `appendRoster` and `stripRoster`: short string functions with one easy
  property each.
