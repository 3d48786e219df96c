# A verified model of the policy gate

The gate admits requests and streams by subject. It caches the decisions of a policy authority, keeps
them current from a watch stream, refreshes them before they expire, and cuts a stream whose subject
loses its admission. This project models the parts of it that race or keep state over time, and proves
what they promise.

`dafny verify dfyconfig.toml` checks everything.

## How it is built

**The subject cache as a transition system** (`Gate*.dfy`). `GateModel` has one step for each atomic
action: a load or a compare-and-swap of an entry's cell or slot, one action inside a map-lock section
(pop, invalidation and the emptying of the slot are separate), one publish-lock section, one clock
reading, one move of the authority or of its stream. Its parties are unary lookups, proactive refreshes,
handles, snapshot rebuilds, the watcher, and an abstract authority with a decision per subject and a
first-in-first-out buffer of undelivered changes. Every stored snapshot has a number that is never
reused, which is what pointer equality compares.

- `GateInvariants` states what every reachable state keeps, one record at a time; `GatePreservation`
  and `GateRuns` prove that every step and every run keeps it.
- `GateTheorems`, `GateDelays` and `GateHistory` say what this means for callers, over all runs.
- `GateRefreshes` bounds the refreshes of one entry that land inside the window, over its whole life in any run.
- `GateCallers` adds any number of calls of `admit` as parties of their own, with a program counter each;
  only they insert entries. `GateCharges` accounts for every round of every call, whatever else moves, and
  `GateRounds` says what that means: how many rounds a call can take, that it is never stuck, that it only
  times out when due. `GateOutcomes` says what an admitted call has read.
- `GateAdmission` says how a call goes on alone from any point. `GateCosts` shows what single steps of others
  can cost a call, and `GateWitness` builds a run from the beginning in which a call takes every round that
  the bound allows it.
- `GateSolo`, `GateOperations` and `GateWatching` run the other operations to their end without
  interference, in the very steps of the transition system, and state what they achieve.

The system allows more runs than the code: whoever holds the map lock may insert or pop any subject (so
every eviction choice is covered), a refresh may be claimed before it is due (the revalidation after the
claim decides), an aborted or outdated fetch may carry on and act late at any point, any number of
rebuilds may overlap, and the clock may advance between any two steps. A watch change reads the clock
at or before the step that stores it. A call of `admit` takes its own map sections whole, reads an entry
with a clock reading taken at any point since its round saw the flag up, and may pass over a refresh that
is due.

**The mutable pieces.** `EntryCell` has the compare-and-swap loops of one entry as methods that run
against arbitrary foreign stores; their contracts are why the transition system takes each loop as one
step. `SubjectMap` is the map with its order and idle times, as a class proved against a table of
values. `EnforcedBody` is the stream wrapper, with its poll loop, against any environment.
`WatchLoop` and `Backoff` are the watcher's loop and the doubling delays. `Deadlines` is the arithmetic
they share.

Three findings.

- The comment at `src/stream.rs:160-167` says that a replacement readmission that resolves at once "is
  picked up on the next poll"; the code stores the completed future and polls it again, and resuming a
  completed readmission panics. The replacement reads the clock once for its delay and once more when the
  delay is first polled, so this takes a clock that moves by the whole admission timeout between the two
  readings, and an admission that resolves at once, as it does once the watcher has been dropped. It can
  happen at every timeout: `EnforcedBody.NeverResumedIffDriftIsShort` gives the exact condition on the
  clock. A timeout of zero would need no drift, but then no entry is ever made and nothing is ever
  admitted, so there is no body to enforce (`GateRounds.ZeroTimeoutAdmitsNothing`).
- A reconnect delay of more than 14757395258967641293 whole milliseconds overflows 64 bits for some draw
  of the jitter, and no shorter one does (`Backoff.JitterOverflows`). `src/lib.rs:664-692` accepts such a
  delay wherever the platform's clock can represent it.
- A step of others can cost a call of `admit` two rounds, not one: an invalidation just before the verdict
  check ends that round, and the next goes to removing the stale entry. A call that begins with the
  connection flag up is also behind it, because it waits on a clone of a receiver that is itself never
  advanced (`src/gate.rs:1048`), so one more round can go to the version it has missed.
  `GateRounds.RoundsAreBounded` counts all this, and `GateWitness.TheBoundIsMet` shows that it has to: a
  call reached from the beginning begins its sixth round after two steps of others, one of which killed an
  entry.

## Model

| member | source | states |
|---|---|---|
| GateHistory.VerdictsAreTheAuthoritys | src/gate.rs:1291-1342 | in every run, a live verdict is a decision the authority held for that subject at some point after which no new stream was opened; nothing is invented and nothing outlives its stream |
| GateTheorems.QuiescentAgreement | src/gate.rs:1474-1517 | while the stream is open, a live verdict of a mapped subject with no undelivered change is the authority's current decision, and so is any decision a fetch has read and may still store there |
| GateTheorems.LiveHandlesAgree | src/gate.rs:152-210 | the same for any live handle, whether its entry is mapped or being removed |
| GateTheorems.RemovalIsTerminal | src/gate.rs:707-724 | an entry that left the map and was marked is Stale in every later state of every run, whatever still runs against it |
| GateTheorems.FastPathRefinesTheMap | src/gate.rs:1015-1033 | an entry read out of the snapshot and later found live is, at that instant, what the map holds for the subject, or is being removed under the map lock |
| GateTheorems.DisconnectEmptiesTheSnapshot | src/gate.rs:1462-1471 | whenever the watch is marked disconnected the published snapshot is empty |
| GateTheorems.OvertakenRebuildsStoreNothing | src/gate.rs:1521-1548 | a rebuild that claimed before the latest publish section of the watcher never changes the snapshot, however late it stores |
| GateTheorems.MapDatesFromTheLastClear | src/gate.rs:1446-1454 | every map entry was inserted, and every call begun for it started, after the last clear |
| GateTheorems.NothingIsLiveWhileDown | src/gate.rs:1462-1471 | from a disconnect's clear to the next connect no map entry has a verdict and no source call has begun for one |
| GateTheorems.DroppedWatchersStopTheGate | src/watcher.rs:148-159 | once a dropped watcher has cleared up, in every later state the gate is disconnected, its snapshot is empty, no handle is live and no call begins |
| GateTheorems.CellsChangeForCause | src/gate.rs:1315-1374 | a cell changes only by a watch change, by a lookup over Pending, by a refresh over exactly its own origin while that is an unexpired verdict, or by a mark; a fetch marks only an entry it still holds, pending and mapped |
| GateTheorems.ExpiryIsLatched | src/gate.rs:643-661 | after an observer has found an entry expired, it is live again only if a watch change was stored in it since |
| GateTheorems.StaleUntilAChange | src/gate.rs:643-661 | a stale entry stays stale along every run without a watch change for it |
| GateTheorems.NeverPendingAgain | src/gate.rs:547-560 | an entry that has left Pending never returns to it, so the observation that is declared impossible is impossible |
| GateTheorems.PendingIsServed | src/gate.rs:1114-1124 | in every reachable state a Pending entry's slot holds a lookup that is neither aborted nor finished |
| GateTheorems.SingleFlight | src/gate.rs:1202-1289 | an unaborted source call occupies its entry's slot, and two such calls for one entry are the same |
| GateTheorems.NoOrphanClaims | src/gate.rs:471-489 | a held refresh claim has a live guard, is queued, or is with the watcher, unless a disconnect is about to abort it |
| GateTheorems.OutdatedAnswersAreDropped | src/gate.rs:1299-1301 | a fetch that lost its slot before its answer was checked changes no entry at any later point of any run |
| GateTheorems.LateActionsSpareNewerOperations | src/gate.rs:677-691 | no action of a fetch, however late, takes another operation out of a slot |
| GateTheorems.CellsAreSound | src/gate.rs:986-1012 | in every reachable state only an Allowed snapshot carries a payload, and every deadline fits its word |
| GateDelays.CooldownHoldsAgainstDelayedClaimants | src/gate.rs:1397-1431 | a refresh not yet revalidated when another failed at tick T is queued only at or after T plus the cooldown, even if it was claimed before the failure |
| GateDelays.PermanentFailuresCoolDown | src/gate.rs:1344-1357 | the retry left by a permanent failure has not begun its call until the cooldown has passed |
| GateDelays.RebuildsAreSpaced | src/gate.rs:1521-1535 | two rebuilds of the snapshot are claimed at least the republish interval apart, whoever claims them |
| GateRuns.StepKeeps | src/gate.rs:895-909 | the whole invariant survives every step of every party |
| GateRuns.RunKeeps | src/gate.rs:895-909 | and so every run |
| GateRounds.RoundsAreBounded | src/gate.rs:1043-1200 | in every interleaving a call has begun at most two rounds more than the steps of others that concerned its subject, plus those of them that killed an entry of it, plus one for a version of the connection flag that its receiver had missed |
| GateRounds.RoundsAreCharged | src/gate.rs:1093-1180 | a round ends by `continue` only after a step of others that concerned the subject since the round saw the flag up, or by taking a dead entry out of the map, or on a version of the flag not seen before |
| GateCosts.OneMarkCostsTwoRounds | src/gate.rs:1103-1136 | one invalidation just before the verdict check costs the caller two rounds |
| GateCosts.TwoMoreThanForeignIsNotEnough | src/gate.rs:1043-1200 | a call that has spent one round on a dead entry and one on each missed version, and none on others, can have three rounds taken by one publication and one invalidation: two more than the foreign steps and the missed version do not bound the rounds |
| GateWitness.TheBoundIsMet | src/gate.rs:1043-1200 | a system of calls is reachable in which one call, having missed one version of the flag, has begun its sixth round after two steps of others, one of them a mark: the bound on rounds is attained |
| GateRounds.NobodyIsStuck | src/gate.rs:1043-1200 | a call that has not ended can act unless it waits for the flag, the map's lock, an unfinished lookup, or the clock |
| GateRounds.ActsAdvance | src/gate.rs:1050-1200 | every action of a call ends its round or gets it further, by a rank of at most 29 |
| GateRounds.OthersTakeLittleBack | src/gate.rs:1050-1068 | what others do never ends a round and takes it back by at most one rank, and that only by a value sent on the flag while the call waits for it, so a round has at most 29 actions and one more for each such value |
| GateOutcomes.OutcomesAreDue | src/gate.rs:1043-1200 | over every run from the beginning, a call times out only at or past its deadline, and hands out only an entry of its own subject in which it has read an unexpired verdict since its last round saw the flag up: a decision the authority held since the current stream opened, and its current one if no change of the subject was on its way |
| GateRounds.ZeroTimeoutAdmitsNothing | src/gate.rs:1044-1068 | with a zero admission timeout no entry is ever made and every call that ends has timed out |
| GateRounds.CallersOnlyRunTheGate | src/gate.rs:1043-1200 | with any number of calls under way the gate still reaches only states of the transition system, so everything proved of those holds |
| GateAdmission.AdmitAlone | src/gate.rs:1043-1200 | however a call goes on from any undisturbed point with nobody else moving: it can end only by handing out a verdict, and only if the map holds an unexpired one; it can come to wait only for a Pending entry's lookup, and only if the map holds none; until then it can act; it takes at most one round for a dead entry and one for a missed version of the flag, and a bounded number of moves |
| GateAdmission.RoundAlone | src/gate.rs:1050-1140 | one such round hands out the map's verdict, waits for the lookup it has loaded, rechecked and matched, or ends by exactly one of the two removals of an obstacle |
| GateOperations.WhatIsStored | src/gate.rs:1300-1314 | an answer is stored exactly when the authority has a decision, its cap is ahead and the freshness is representable; it then has the authority's decision and expires at the earlier of the two limits |
| GateOperations.LookupAlone | src/gate.rs:1291-1376 | a lookup stores the answer and frees the slot, or removes the entry on a transient failure, or leaves it Pending behind a delayed retry |
| GateOperations.RefreshAlone | src/gate.rs:1386-1440 | a due refresh replaces the snapshot, or keeps it and bars refreshes for the cooldown; one that is not due changes nothing; the slot is free again |
| GateOperations.InvalidateHandleAlone | src/gate.rs:203-205 | invalidating a handle marks its entry and aborts its operation but leaves it in the map |
| GateWatching.ChangeAlone | src/gate.rs:1474-1517 | a change gives a mapped subject its decision and takes its operation, a withdrawal removes and marks the entry, a change for an unmapped subject does nothing |
| GateWatching.RebuildAlone | src/gate.rs:1521-1548 | a due rebuild while connected publishes exactly the map and clears the flag |
| GateWatching.ClearAlone | src/gate.rs:853-859 | a clear marks every entry that was in the map, empties their slots and leaves the map empty |
| GateWatching.ConnectAlone | src/gate.rs:1446-1454 | after a connect the map and the snapshot are empty and every entry there ever was is stale |
| GateWatching.DisconnectAlone | src/gate.rs:1462-1471 | however the watch goes down the same holds and the gate is disconnected; only a dropped watcher never reopens |
| Deadlines.PackingRoundTrips | src/gate.rs:607-609 | a state always survives the packed word, and a deadline does if and only if it fits 62 bits |
| Deadlines.StaleWordKeepsDeadline | src/gate.rs:649-655 | marking the word stale keeps the deadline and changes the word unless it was stale |
| Deadlines.ExpiresExactlyAtTheEarlierLimit | src/gate.rs:986-1012 | with the clock in range a decision is expired exactly when its freshness or the source's cap has been reached |
| Deadlines.OnlyAnUncappedSentinelNeverExpires | src/gate.rs:593-620 | the no-expiry deadline is stored exactly for an unlimited freshness without a cap; a saturated clock expires everything else |
| Deadlines.RefreshHalvesTheRemainder | src/gate.rs:998-1004 | a refresh that lands in the window leaves at most half of the remaining life |
| GateRefreshes.RefreshesOfAnEntryAreLogarithmic | src/gate.rs:626-641 | over the whole life of an entry in any run of the gate, if the source keeps answering with the same cap and no watch change renews it, the refreshes stored inside the window number at most one more than the binary logarithm of the window |
| GateRefreshes.LandsInTheWindow | src/gate.rs:998-1004 | an unexpired snapshot bars refreshes for half of its life exactly when it is prepared inside the refresh window |
| EntryCell.EntryCell.CompareAndSwap | src/gate.rs:584-588 | it stores over exactly the value it was given, once, or reports the value that got in first |
| EntryCell.EntryCell.CompareExchange | src/gate.rs:574-591 | it replaces one value in the expected state, or stores nothing and reports a state that the cell holds |
| EntryCell.EntryCell.CurrentAt | src/gate.rs:643-661 | it returns the cell's current value; an expired one is marked, and only an expired unmarked value is ever replaced |
| EntryCell.EntryCell.Invalidate | src/gate.rs:707-722 | it marks exactly one value, keeping its deadline and dropping its payload |
| EntryCell.EntryCell.StoreDecision | src/gate.rs:1479-1504 | whatever state it meets, it ends by storing the decision once, dated by the clock of its last attempt |
| SubjectMap.SubjectMap.constructor | src/gate.rs:746-760 | an empty map with its limits |
| SubjectMap.SubjectMap.Evict | src/gate.rs:869-884 | the loop removes the idle prefix and invalidates it in order |
| SubjectMap.SubjectMap.GetOrInsertWith | src/gate.rs:762-791 | the found or created entry, and the table after renewal or insertion, capacity pop and sweeps |
| SubjectMap.SubjectMap.Touch | src/gate.rs:793-807 | a slot is renewed exactly when it still holds this entry |
| SubjectMap.SubjectMap.Update | src/gate.rs:809-816 | the entry a change is stored in, after a sweep and without a renewal |
| SubjectMap.SubjectMap.RemoveIf | src/gate.rs:818-845 | removes and invalidates exactly the entry the predicate accepts |
| SubjectMap.SubjectMap.Clear | src/gate.rs:853-859 | invalidates every entry, most recent first, and empties the map |
| SubjectMap.SubjectMap.Copy | src/gate.rs:1537-1540 | the copied snapshot has the map's subjects and entries |
| SubjectMap.OrderedMapIsSimple | src/gate.rs:762-884 | with synchronised callers every operation is its counterpart on a map of last touch times, and only a full map gives up a least recently touched subject |
| SubjectMap.SweepIsExactUpToSkew | src/gate.rs:869-884 | a sweep drops only slots idle too long, and survivors are idle for at most the limit plus the clock skew |
| SubjectMap.SweepIsExact | src/gate.rs:869-884 | without skew the survivors are exactly the slots not idle too long |
| SubjectMap.OpKeepsGood | src/gate.rs:762-884 | capacity, one slot per subject, and recency order up to the skew survive every operation |
| SubjectMap.OpConserves | src/gate.rs:762-884 | every operation invalidates exactly what leaves the map, once |
| SubjectMap.RunsKeepTheMapGood | src/gate.rs:762-884 | both, with exact sweeps up to the skew, over every sequence of operations |
| SubjectMap.RenewedEntriesStay | src/gate.rs:762-807 | an entry just returned or renewed survives that call and is the last to go |
| SubjectMap.UpdatesRenewNothing | src/gate.rs:809-816 | a watch update leaves a tail of the map with its idle times as they were |
| EnforcedBody.TraceIsSafe | src/stream.rs:84-198 | over every run of polls the forwarded results are a prefix of the inner body's, nothing but the end follows a final answer, and there is at most one rejection, none once the inner body has ended |
| EnforcedBody.NothingPulledPastADenial | src/stream.rs:97-187 | a poll pulls the inner body only if its last observation was Allowed or Stale, and rejects exactly on a denial it saw on its last turn |
| EnforcedBody.NoLostWakeUp | src/stream.rs:136-184 | a poll that goes to sleep on a stale admission leaves a readmission holding its waker, or has fired it |
| EnforcedBody.ReadmissionsAreSpaced | src/stream.rs:153-173 | an admission that follows a failed one began at least the admission timeout after it |
| EnforcedBody.NoAdmissionDuringTheDelay | src/stream.rs:131-184 | while the replacement of a failed readmission sleeps out its delay, every run of polls gives the same answers and the same body whatever admissions would answer |
| EnforcedBody.NeverResumedIffDriftIsShort | src/stream.rs:153-173 | with clocks that move at most so far between arming the replacement and first polling it, no poll ever resumes a completed readmission if and only if the admission timeout is longer than that |
| EnforcedBody.LongDriftResumes | src/stream.rs:153-173 | at every timeout, two polls whose clock moves that far resume a completed readmission |
| EnforcedBody.EnforcedBody.PollFrame | src/stream.rs:84-198 | the loop over the mutable fields answers and ends as the specified poll, and counts a cutoff for each rejection |
| EnforcedBody.EnforcedBody.IsEndStream | src/stream.rs:200-207 | true exactly when the next poll, whatever it meets, ends the stream |
| EnforcedBody.EnforcedBody.SizeHint | src/stream.rs:209-216 | a size is promised exactly when every further poll ends the stream, and it is zero |
| EnforcedBody.EnforcedBody.PollInner | src/stream.rs:219-244 | the latches set with the last frame |
| WatchLoop.SinceIsTheFirstDisconnect | src/gate.rs:1457-1471 | the recorded instant is that of the first disconnect since the last stable period, however often the watch flaps |
| WatchLoop.FailingMeansALongUnstableSpell | src/watcher.rs:60-69 | the source counts as failed if and only if a disconnect at least the timeout old has had no stable period since |
| WatchLoop.Watcher.Drive | src/watcher.rs:199-250 | driving one open watch records its stable periods, resets the delay with them, and yields once per full group of changes |
| WatchLoop.Watcher.MarkDisconnected | src/gate.rs:1550-1555 | only the first disconnect since a stable period is recorded |
| WatchLoop.Watcher.RunCycle | src/watcher.rs:186-269 | one turn waits the jittered delay and doubles it up to the maximum |
| WatchLoop.Watcher.Run | src/watcher.rs:161-270 | over any run of turns each wait is the jitter of initial times two to the reopenings since the last stable period, capped |
| Backoff.DelayIsGeometric | src/watcher.rs:268-268 | doubling n times gives the initial delay times two to the n, capped |
| Backoff.JitterStaysNearTheDelay | src/watcher.rs:272-279 | the wait lies from three quarters up to five quarters of the whole milliseconds, or is the delay itself |
| Backoff.JitterOverflows | src/watcher.rs:272-279 | no draw overflows if and only if the delay is at most 14757395258967641293 whole milliseconds |
| Backoff.OneMoreMillisecondOverflows | src/watcher.rs:272-279 | one millisecond more is a valid duration and overflows for a draw that the longest safe delay survives |
| Backoff.RetrySleeps | src/gate.rs:1189-1198 | completed retry sleeps are the first delays and add up to less than the admission timeout; one that reaches the deadline times out even on a tie |

## Left out

- Who raises the flag that asks for a rebuild: in the protocol any party may raise it at any time; SubjectMap keeps it exactly for evictions.
- Weak memory: every atomic access is sequentially consistent, and the deferred reclamation behind the swapped pointers is not part of this model.
- The publish lock is a single step, except around a disconnect, whose empty publish and flag change are two steps under it.
- A refresh's failure reads the clock and stores its cooldown in one step; in the code a slow store could be dated slightly early.
- GateDelays.CooldownHoldsAgainstDelayedClaimants: says nothing of refreshes that were revalidated before the failure, because the code admits them too.
- GateAdmission.AdmitAlone: does not say how long a lookup or a missing connection is waited for; the retry sleeps of a call are in the protocol, their sum is Backoff.RetrySleeps.
- GateRounds.RoundsAreBounded: a caller's own map section is one step for it, and evictions that its section makes of other subjects are steps of others.
- GateRefreshes.RefreshesOfAnEntryAreLogarithmic: a watch change in between starts the count anew, because it replaces the snapshot with one of full freshness.
- EnforcedBody.EnforcedBody.PollFrame: the environment supplies the answers of the admission, of the cached check and of the readmission; a poll whose answers run out is reported as unfinished.
- EntryCell.EntryCell.CurrentAt: a stale value past its deadline also counts as expired, as in the code.
- Deadlines.ExpiresExactlyAtTheEarlierLimit: stated for a clock within the 62-bit range of an entry; OnlyAnUncappedSentinelNeverExpires says what happens past it.
- The payload type is a number, and subjects and entries are numbers compared for equality only.
- Panics of a source are transient failures, and a source that never answers is one that takes no further step until its timeout.
- Arithmetic on instants is unbounded: the configuration's own overflow checks (src/lib.rs:636-711) are not modelled.
- Response rendering, middleware and log limits (src/layer.rs, src/grpc.rs): header and trait wiring.
- The client and server bindings (src/tonic_source.rs, src/policy_proto.rs): short total mappings and generated code.
- Metrics other than the stream cutoff count, configuration setters, and the time driver (src/time.rs), which is an arbitrary monotone clock here.
- Wakers, shared and abortable futures and the bounded channel are taken as a queue and results that are delivered once; the connection flag is a value with a version that receivers compare, and a receiver may start with any version seen.
