/**
 What every reachable state keeps. Each fact speaks of one entry, or of one fetch and its entry,
 against the shared state, so that one action is checked on the records it touches.
 */
module GateInvariants {
  import opened Options
  import opened Deadlines
  import opened GateModel

  // ---------------------------------------------------------------- phases

  /** The claimant still holds its enqueue guard. */
  predicate Guarded(phase: Phase) {
    phase.Claimed? || phase.SameSnapshot? || phase.Clocked? || phase.Sending? || phase.Dropping?
  }

  predicate Active(phase: Phase) {
    !phase.Loaded? && !phase.Finished?
  }

  /** The claim was compared with the entry's snapshot and found current. */
  predicate Validated(phase: Phase) {
    Active(phase) && !phase.Claimed? && !phase.Dropping?
  }

  predicate CallBegun(phase: Phase) {
    Active(phase) && !Guarded(phase) && !phase.Queued? && !phase.Waiting? && !phase.Cooling?
  }

  /** The source call is in progress. */
  predicate InCall(phase: Phase) {
    phase.Calling? || phase.Replying?
  }

  /** The decision a fetch has read and could still publish. */
  function Carried(phase: Phase): Option<Decision> {
    match phase
    case Replying(found) => found
    case Answered(answer) => if answer.Decided? then Some(answer.result.decision) else None
    case Checked(answer) => if answer.Decided? then Some(answer.result.decision) else None
    case Prepared(snapshot) => DecisionOf(snapshot)
    case Publishing(snapshot, _) => DecisionOf(snapshot)
    case _ => None
  }

  function DecisionOf(snapshot: Snapshot): Option<Decision> {
    match snapshot.state
    case Allowed => Some(Decision.Allowed)
    case Denied => Some(Decision.Denied)
    case _ => None
  }

  // ---------------------------------------------------------------- one entry

  ghost predicate EntryBasics(sh: Shared, entry: Entry) {
    && entry.cell.id < sh.nextCell
    && Sound(entry.cell.snapshot)
    && (StateIn(entry).Pending? ==>
          entry.slot.Some? && entry.cell.snapshot.deadline == NO_EXPIRY && entry.owedAborts == 0)
  }

  /** An entry outside the map is stale, except between its removal and its invalidation under the lock. */
  ghost predicate EntryPlace(sh: Shared, e: nat, entry: Entry) {
    && (!InMap(sh, e, entry) && !Owes(sh, InvalidateDue(e)) ==> StateIn(entry).Stale?)
    && (Owes(sh, PopDue(e)) ==> InMap(sh, e, entry) && StateIn(entry).Stale?)
    && (Owes(sh, InvalidateDue(e)) ==> !InMap(sh, e, entry))
    && (Owes(sh, AbortDue(e)) ==> !StateIn(entry).Pending?)
    && (sh.lock.Held? && sh.lock.owner.Clearer? ==>
          && (e in sh.lock.owner.left ==> InMap(sh, e, entry))
          && (InMap(sh, e, entry) && e !in sh.lock.owner.left ==> StateIn(entry).Stale?))
  }

  /** The map holds the entry, or a removal has taken it out and has yet to mark it. */
  predicate Kept(sh: Shared, e: nat, entry: Entry) {
    InMap(sh, e, entry) || Owes(sh, InvalidateDue(e))
  }

  /** Map entries were inserted after the last clear, and none is in use while the watch is down. */
  ghost predicate EntryEra(sh: Shared, e: nat, entry: Entry) {
    && entry.born <= sh.clears
    && (InMap(sh, e, entry) ==> entry.born == sh.clears)
    && (Kept(sh, e, entry) && !sh.connected && !sh.watcher.DisconnectClear? ==> !entry.active)
    && (!entry.active ==> !Live(entry))
  }

  ghost predicate Agrees(sh: Shared, subject: Subject, decision: Option<Decision>) {
    Current(sh, subject) == decision || Mentions(Undelivered(sh), subject)
  }

  ghost predicate EntryAgrees(sh: Shared, e: nat, entry: Entry) {
    sh.streamOpen && Kept(sh, e, entry) && Live(entry) ==>
      Agrees(sh, entry.subject, DecisionOf(entry.cell.snapshot))
  }

  ghost predicate EntryCooling(c: Config, sh: Shared, entry: Entry) {
    forall i :: 0 <= i < |entry.failures| ==>
      entry.failures[i] <= Tick(entry.epoch, sh.now) && CooledDown(c, entry.failures[i]) <= entry.notBefore
  }

  ghost predicate EntryInv(c: Config, sh: Shared, e: nat, entry: Entry) {
    && EntryBasics(sh, entry)
    && EntryPlace(sh, e, entry)
    && EntryEra(sh, e, entry)
    && EntryAgrees(sh, e, entry)
    && EntryCooling(c, sh, entry)
  }

  // ---------------------------------------------------------------- one fetch and its entry

  predicate FitsKind(fetch: Fetch) {
    match fetch.kind
    case Lookup => !Guarded(fetch.phase) && !fetch.phase.Loaded? && !fetch.phase.Queued?
    case Refresh(origin) =>
      && origin.snapshot.state.IsVerdict()
      && !fetch.phase.Cooling? && !fetch.phase.Replacing?
      && (fetch.phase.Waiting? ==> !fetch.phase.delayed)
  }

  ghost predicate FetchBasics(sh: Shared, fetch: Fetch, entry: Entry) {
    && FitsKind(fetch)
    && (fetch.kind.Refresh? ==>
          && fetch.kind.origin.id < sh.nextCell
          && (fetch.kind.origin.id == entry.cell.id ==> fetch.kind.origin == entry.cell))
    && (fetch.phase.Prepared? || fetch.phase.Publishing? ==>
          fetch.phase.snapshot.state.IsVerdict() && Sound(fetch.phase.snapshot))
    && (fetch.phase.Clocked? ==> fetch.phase.readAt <= sh.now)
  }

  /** An operation that nobody has aborted occupies its entry's slot, and only such an operation does. */
  ghost predicate FetchSlot(sh: Shared, f: nat, fetch: Fetch, entry: Entry) {
    && (Active(fetch.phase) && !fetch.aborted && f !in sh.aborting ==> entry.slot == Some(f))
    && (fetch.phase.Loaded? ==> !fetch.aborted && f !in sh.aborting)
    && (entry.slot == Some(f) ==>
          && !fetch.aborted && f !in sh.aborting && !fetch.phase.Loaded?
          && (fetch.kind.Refresh? ==> !fetch.phase.Finished?))
  }

  /** What a Pending entry's callers wait for is a lookup that has yet to resolve the entry. */
  ghost predicate FetchServes(f: nat, fetch: Fetch, entry: Entry) {
    && (StateIn(entry).Pending? && entry.slot == Some(f) ==>
          fetch.kind.Lookup? && !fetch.phase.Finished? && !fetch.phase.Releasing?)
    && (StateIn(entry).Pending? && fetch.kind.Lookup? ==> !fetch.phase.Releasing?)
  }

  ghost predicate FetchQueued(sh: Shared, f: nat, fetch: Fetch) {
    && (f in sh.queue <==> fetch.phase.Queued?)
    && (f in sh.running ==> fetch.kind.Refresh? && !fetch.phase.Loaded? && !Guarded(fetch.phase) && !fetch.phase.Queued?)
  }

  predicate Disconnecting(watcher: Watcher) {
    watcher.DisconnectPublish? || watcher.DisconnectFlag? || watcher.DisconnectClear?
  }

  /** The entry is in the map and no clear has finished with it, or its removal has yet to empty its slot. */
  ghost predicate SlotStillSwept(sh: Shared, e: nat, entry: Entry) {
    || (InMap(sh, e, entry) && !(sh.lock.Held? && sh.lock.owner.Clearer? && e !in sh.lock.owner.left))
    || Owes(sh, InvalidateDue(e))
    || Owes(sh, AbortDue(e))
  }

  ghost predicate FetchClaim(sh: Shared, f: nat, fetch: Fetch, entry: Entry) {
    fetch.kind.Refresh? && entry.slot == Some(f) ==>
      && (Guarded(fetch.phase) || fetch.phase.Queued? || f in sh.running || Disconnecting(sh.watcher))
      && (Validated(fetch.phase) ==> SlotStillSwept(sh, fetch.entry, entry))
  }

  /** Source calls start only in entries some connected caller has seen, so never before their insertion. */
  ghost predicate FetchEra(sh: Shared, fetch: Fetch, entry: Entry) {
    && (fetch.kind.Refresh? ==> entry.active)
    && (fetch.startedIn.Some? ==> entry.active && entry.born <= fetch.startedIn.value <= sh.clears)
    && (CallBegun(fetch.phase) ==> fetch.startedIn.Some?)
    && (fetch.phase.Cooling? ==> entry.active)
  }

  ghost predicate FetchAgrees(sh: Shared, fetch: Fetch, entry: Entry) {
    sh.streamOpen && Kept(sh, fetch.entry, entry) && Carried(fetch.phase).Some? && MayStore(fetch, entry) ==>
      Agrees(sh, entry.subject, Carried(fetch.phase))
  }

  ghost predicate FetchCooling(c: Config, sh: Shared, fetch: Fetch, entry: Entry) {
    && fetch.seenFailures <= |entry.failures|
    && (fetch.phase.Sending? ==> fetch.dueAt <= Tick(entry.epoch, sh.now))
    && (forall i :: 0 <= i < fetch.seenFailures ==> entry.failures[i] + c.cooldown <= fetch.dueAt)
  }

  ghost predicate FetchInv(c: Config, sh: Shared, f: nat, fetch: Fetch, entry: Entry) {
    && FetchBasics(sh, fetch, entry)
    && FetchSlot(sh, f, fetch, entry)
    && FetchServes(f, fetch, entry)
    && FetchQueued(sh, f, fetch)
    && FetchClaim(sh, f, fetch, entry)
    && FetchEra(sh, fetch, entry)
    && FetchAgrees(sh, fetch, entry)
    && FetchCooling(c, sh, fetch, entry)
  }

  // ---------------------------------------------------------------- the shared state

  ghost predicate LockShape(sh: Shared) {
    && (sh.watcher.Applying? || sh.watcher.Applied? <==> sh.lock.Held? && sh.lock.owner.Applier?)
    && (sh.lock.Held? && sh.lock.owner.Clearer? ==>
          && (sh.watcher.ConnectClear? || sh.watcher.DisconnectClear?)
          && (sh.lock.todo.Nothing? || sh.lock.todo.AbortDue?))
    && (sh.lock.Held? && sh.lock.todo.PopDue? ==> sh.lock.owner.Caller?)
  }

  predicate InStream(watcher: Watcher) {
    watcher.Serving? || watcher.Arrived? || watcher.Applying? || watcher.Applied?
  }

  ghost predicate WatchShape(sh: Shared) {
    && (InStream(sh.watcher) ==> sh.connected)
    && (sh.connected ==> InStream(sh.watcher) || sh.watcher.DisconnectPublish? || sh.watcher.DisconnectFlag?)
    && (sh.streamOpen ==>
          || InStream(sh.watcher) || sh.watcher.Opening?
          || sh.watcher.ConnectPublish? || sh.watcher.ConnectClear? || sh.watcher.ConnectFlag?)
    && (sh.running != {} ==> InStream(sh.watcher))
    && (sh.watcher.Applying? && sh.watcher.prepared.Some? ==>
          && sh.watcher.change.decision.Some?
          && Sound(sh.watcher.prepared.value)
          && sh.watcher.prepared.value.state == StateOf(sh.watcher.change.decision.value))
  }

  ghost predicate Distinct(queue: seq<nat>) {
    forall i, j :: 0 <= i < j < |queue| ==> queue[i] != queue[j]
  }

  /** The last undelivered change of a subject carries the authority's current decision. */
  ghost predicate Ordered(sh: Shared, changes: seq<Change>) {
    forall i :: 0 <= i < |changes| && !Mentions(changes[i + 1..], changes[i].subject) ==>
      changes[i].decision == Current(sh, changes[i].subject)
  }

  ghost predicate SharedInv(sh: Shared) {
    && LockShape(sh)
    && WatchShape(sh)
    && Distinct(sh.queue)
    && (sh.streamOpen ==> Ordered(sh, Undelivered(sh)))
  }
}
