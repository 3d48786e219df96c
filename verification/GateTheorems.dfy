/** What the invariant means for callers, over every reachable state and every run. */
module GateTheorems {
  import opened Options
  import opened Deadlines
  import opened GateModel
  import opened GateInvariants
  import opened GatePreservation
  import opened GateRuns

  // ---------------------------------------------------------------- growth

  /** Entries and fetches are only ever added, and keep what identifies them. */
  ghost predicate Extends(s: State, t: State) {
    && |s.entries| <= |t.entries|
    && |s.fetches| <= |t.fetches|
    && (forall e: nat :: e < |s.entries| ==>
          && t.entries[e].subject == s.entries[e].subject
          && s.entries[e].failures <= t.entries[e].failures)
    && (forall f: nat :: f < |s.fetches| ==>
          t.fetches[f].entry == s.fetches[f].entry && t.fetches[f].kind == s.fetches[f].kind)
  }

  lemma FetchStepMoves(c: Config, s: State, f: nat, action: FetchAction)
    requires Inv(c, s) && Enabled(c, s, OnFetch(f, action))
    ensures
      var t := Apply(c, s, OnFetch(f, action));
      && Extends(s, t)
      && FetchMovesShared(s.shared, t.shared, f, s.fetches[f].entry)
  {
    var e := s.fetches[f].entry;
    assert FetchInv(c, s.shared, f, s.fetches[f], s.entries[e]);
    FetchMoves(c, s.shared, f, s.fetches[f], s.entries[e], |s.fetches|, action);
    FetchKeepsIdentity(c, s.shared, f, s.fetches[f], s.entries[e], |s.fetches|, action);
    FetchOutcomeExtends(c, s, f, FetchApply(c, s.shared, f, s.fetches[f], s.entries[e], |s.fetches|, action));
  }

  lemma FetchOutcomeExtends(c: Config, s: State, f: nat, next: FetchOutcome)
    requires f < |s.fetches| && s.fetches[f].entry < |s.entries|
    requires next.fetch.entry == s.fetches[f].entry && next.fetch.kind == s.fetches[f].kind
    requires FetchMovesEntry(c, s.shared, f, s.fetches[f], |s.fetches|, s.entries[s.fetches[f].entry], next.entry)
    ensures Extends(s, Replaced(s, s.fetches[f].entry, next.entry, Some(f), next.fetch, next.retry, next.shared))
  {
  }

  lemma StepExtends(c: Config, s: State, step: Step)
    requires Inv(c, s) && Enabled(c, s, step)
    ensures Extends(s, Apply(c, s, step))
  {
    match step
    case OnEntry(e', action) => EntryActionsMove(c, s.shared, e', s.entries[e'], action);
    case OnFetch(f, action) => FetchStepMoves(c, s, f, action);
    case _ =>
  }

  // ---------------------------------------------------------------- agreement with the authority

  /**
   While the stream is open, a live verdict of a subject without undelivered changes is the authority's
   current decision, and so is any decision still on its way into that entry.
   */
  lemma QuiescentAgreement(c: Config, s: State, subject: Subject)
    requires Reachable(c, s) && s.shared.streamOpen
    requires subject in s.shared.subjects && !Mentions(Undelivered(s.shared), subject)
    ensures s.shared.subjects[subject] < |s.entries|
    ensures
      var e := s.shared.subjects[subject];
      Live(s.entries[e]) ==> DecisionOf(s.entries[e].cell.snapshot) == Current(s.shared, subject)
    ensures
      forall f: nat :: f < |s.fetches| && s.fetches[f].entry == s.shared.subjects[subject]
                       && Carried(s.fetches[f].phase).Some? && MayStore(s.fetches[f], s.entries[s.fetches[f].entry]) ==>
                         Carried(s.fetches[f].phase) == Current(s.shared, subject)
  {
    ReachableHolds(c, s);
    var e := s.shared.subjects[subject];
    assert EntryInv(c, s.shared, e, s.entries[e]);
    forall f: nat | f < |s.fetches| && s.fetches[f].entry == e
      ensures FetchAgrees(s.shared, s.fetches[f], s.entries[e])
    {
      assert FetchInv(c, s.shared, f, s.fetches[f], s.entries[s.fetches[f].entry]);
    }
  }

  /** The same for any handle, whether or not its entry is still in the map. */
  lemma LiveHandlesAgree(c: Config, s: State, e: nat)
    requires Reachable(c, s) && s.shared.streamOpen && e < |s.entries|
    requires Live(s.entries[e]) && !Mentions(Undelivered(s.shared), s.entries[e].subject)
    ensures DecisionOf(s.entries[e].cell.snapshot) == Current(s.shared, s.entries[e].subject)
  {
    ReachableHolds(c, s);
    assert EntryInv(c, s.shared, e, s.entries[e]);
  }

  // ---------------------------------------------------------------- removal

  /** The entry has left the map and its removal has marked it. */
  predicate Removed(s: State, e: nat) {
    e < |s.entries| && !InMap(s.shared, e, s.entries[e]) && !Owes(s.shared, InvalidateDue(e))
  }

  lemma StepKeepsRemoved(c: Config, s: State, step: Step, e: nat)
    requires Inv(c, s) && Enabled(c, s, step) && Removed(s, e)
    ensures Removed(Apply(c, s, step), e)
  {
    StepExtends(c, s, step);
    match step
    case OnEntry(e', action) => EntryActionsMove(c, s.shared, e', s.entries[e'], action);
    case OnFetch(f, action) => FetchStepMoves(c, s, f, action);
    case _ =>
  }

  lemma {:induction false} RunKeepsRemoved(c: Config, s: State, steps: seq<Step>, e: nat)
    requires Inv(c, s) && Runs(c, s, steps) && Removed(s, e)
    ensures Removed(After(c, s, steps), e)
    decreases |steps|
  {
    if steps != [] {
      StepKeepsRemoved(c, s, steps[0], e);
      StepKeeps(c, s, steps[0]);
      RunKeepsRemoved(c, Apply(c, s, steps[0]), steps[1..], e);
    }
  }

  /** An entry that has left the map is stale from then on, whatever is still running against it. */
  lemma RemovalIsTerminal(c: Config, s: State, steps: seq<Step>, e: nat)
    requires Reachable(c, s) && Runs(c, s, steps) && Removed(s, e)
    ensures
      var t := After(c, s, steps);
      Removed(t, e) && StateIn(t.entries[e]).Stale?
  {
    ReachableHolds(c, s);
    RunKeepsRemoved(c, s, steps, e);
    RunKeeps(c, s, steps);
    var t := After(c, s, steps);
    assert EntryInv(c, t.shared, e, t.entries[e]);
  }

  // ---------------------------------------------------------------- the read snapshot

  lemma {:induction false} RunExtends(c: Config, s: State, steps: seq<Step>, e: nat)
    requires Inv(c, s) && Runs(c, s, steps) && e < |s.entries|
    ensures e < |After(c, s, steps).entries|
    ensures After(c, s, steps).entries[e].subject == s.entries[e].subject
    decreases |steps|
  {
    if steps != [] {
      StepExtends(c, s, steps[0]);
      StepKeeps(c, s, steps[0]);
      RunExtends(c, Apply(c, s, steps[0]), steps[1..], e);
    }
  }

  /**
   A reader that took entry `e` for `subject` out of the snapshot, and later finds a live verdict in it,
   finds it while the map holds that same entry, or while the removal that took it out holds the lock.
   */
  lemma FastPathRefinesTheMap(c: Config, s: State, subject: Subject, steps: seq<Step>)
    requires Reachable(c, s) && Runs(c, s, steps) && subject in s.reader.snapshot
    ensures
      var e, t := s.reader.snapshot[subject], After(c, s, steps);
      && e < |t.entries|
      && (Live(t.entries[e]) ==>
            || (subject in t.shared.subjects && t.shared.subjects[subject] == e)
            || Owes(t.shared, InvalidateDue(e)))
  {
    ReachableHolds(c, s);
    var e, t := s.reader.snapshot[subject], After(c, s, steps);
    RunExtends(c, s, steps, e);
    RunKeeps(c, s, steps);
    assert EntryInv(c, t.shared, e, t.entries[e]);
  }

  /** With the watch down the published snapshot is empty, whatever rebuilds are under way. */
  lemma DisconnectEmptiesTheSnapshot(c: Config, s: State)
    requires Reachable(c, s) && !s.shared.connected
    ensures s.reader.snapshot == map[]
  {
    ReachableHolds(c, s);
  }

  /** A rebuild that claimed its generation before the latest publish section of the watcher. */
  predicate Overtaken(s: State, r: nat) {
    && r < |s.reader.rebuilds|
    && match s.reader.rebuilds[r]
       case SawDirty => false
       case ClaimedRebuild(generation) => generation < s.reader.generation
       case ClearedDirty(generation) => generation < s.reader.generation
       case Copied(generation, _) => generation < s.reader.generation
       case DoneRebuild => true
  }

  lemma {:induction false} RunKeepsOvertaken(c: Config, s: State, steps: seq<Step>, r: nat)
    requires Runs(c, s, steps) && Overtaken(s, r)
    ensures Overtaken(After(c, s, steps), r)
    decreases |steps|
  {
    if steps != [] {
      RunKeepsOvertaken(c, Apply(c, s, steps[0]), steps[1..], r);
    }
  }

  /** A rebuild overtaken by a connect or a disconnect never changes the snapshot, however late it stores. */
  lemma OvertakenRebuildsStoreNothing(c: Config, s: State, steps: seq<Step>, r: nat)
    requires Runs(c, s, steps) && Overtaken(s, r)
    requires Enabled(c, After(c, s, steps), OnRebuild(StoreCopy(r)))
    ensures
      var t := After(c, s, steps);
      Apply(c, t, OnRebuild(StoreCopy(r))).reader.snapshot == t.reader.snapshot
  {
    RunKeepsOvertaken(c, s, steps, r);
  }

  // ---------------------------------------------------------------- connection epochs

  /** Every entry in the map, and every lookup begun for it, dates from after the last clear. */
  lemma MapDatesFromTheLastClear(c: Config, s: State, e: nat)
    requires Reachable(c, s) && e < |s.entries| && InMap(s.shared, e, s.entries[e])
    ensures s.entries[e].born == s.shared.clears
    ensures forall f: nat :: f < |s.fetches| && s.fetches[f].entry == e && CallBegun(s.fetches[f].phase) ==>
              s.fetches[f].startedIn == Some(s.shared.clears)
  {
    ReachableHolds(c, s);
    assert EntryInv(c, s.shared, e, s.entries[e]);
    forall f: nat | f < |s.fetches| && s.fetches[f].entry == e && CallBegun(s.fetches[f].phase)
      ensures s.fetches[f].startedIn == Some(s.shared.clears)
    {
      assert FetchInv(c, s.shared, f, s.fetches[f], s.entries[s.fetches[f].entry]);
    }
  }

  /** From a disconnect's clear to the next connect the map holds no verdict and no lookup has begun for it. */
  lemma NothingIsLiveWhileDown(c: Config, s: State, e: nat)
    requires Reachable(c, s) && e < |s.entries| && InMap(s.shared, e, s.entries[e])
    requires !s.shared.connected && !s.shared.watcher.DisconnectClear?
    ensures StateIn(s.entries[e]).Pending? || StateIn(s.entries[e]).Stale?
    ensures forall f: nat :: f < |s.fetches| && s.fetches[f].entry == e ==> !CallBegun(s.fetches[f].phase)
  {
    ReachableHolds(c, s);
    assert EntryInv(c, s.shared, e, s.entries[e]);
    forall f: nat | f < |s.fetches| && s.fetches[f].entry == e
      ensures !CallBegun(s.fetches[f].phase)
    {
      assert FetchInv(c, s.shared, f, s.fetches[f], s.entries[s.fetches[f].entry]);
    }
  }

  lemma StepKeepsGone(c: Config, s: State, step: Step)
    requires Inv(c, s) && Enabled(c, s, step) && s.shared.watcher.Gone?
    ensures Apply(c, s, step).shared.watcher.Gone?
  {
    match step
    case OnFetch(f, action) => FetchStepMoves(c, s, f, action);
    case _ =>
  }

  lemma {:induction false} RunKeepsGone(c: Config, s: State, steps: seq<Step>)
    requires Inv(c, s) && Runs(c, s, steps) && s.shared.watcher.Gone?
    ensures After(c, s, steps).shared.watcher.Gone?
    decreases |steps|
  {
    if steps != [] {
      StepKeepsGone(c, s, steps[0]);
      StepKeeps(c, s, steps[0]);
      RunKeepsGone(c, Apply(c, s, steps[0]), steps[1..]);
    }
  }

  /**
   Once the watcher has been dropped and has cleared up, the gate never connects again: no handle is
   live, the snapshot is empty, and no source call begins for the map.
   */
  lemma DroppedWatchersStopTheGate(c: Config, s: State, steps: seq<Step>)
    requires Reachable(c, s) && Runs(c, s, steps) && s.shared.watcher.Gone?
    ensures
      var t := After(c, s, steps);
      && !t.shared.connected && t.reader.snapshot == map[]
      && (forall e: nat :: e < |t.entries| ==> !Live(t.entries[e]))
      && (forall f: nat :: f < |t.fetches| && t.fetches[f].entry < |t.entries|
                           && InMap(t.shared, t.fetches[f].entry, t.entries[t.fetches[f].entry]) ==>
                             !CallBegun(t.fetches[f].phase))
  {
    ReachableHolds(c, s);
    RunKeepsGone(c, s, steps);
    RunKeeps(c, s, steps);
    var t := After(c, s, steps);
    forall e: nat | e < |t.entries| ensures !Live(t.entries[e]) {
      assert EntryInv(c, t.shared, e, t.entries[e]);
    }
    forall f: nat | f < |t.fetches| && InMap(t.shared, t.fetches[f].entry, t.entries[t.fetches[f].entry])
      ensures !CallBegun(t.fetches[f].phase)
    {
      assert EntryInv(c, t.shared, t.fetches[f].entry, t.entries[t.fetches[f].entry]);
      assert FetchInv(c, t.shared, f, t.fetches[f], t.entries[t.fetches[f].entry]);
    }
  }

  // ---------------------------------------------------------------- expiry and publication order

  /**
   What may put a verdict into an entry: a watch change, a lookup over Pending, or a refresh over exactly
   the snapshot it began from, if that was still a verdict and unexpired when the answer was prepared.
   */
  predicate Publishes(s: State, step: Step, e: nat)
    requires e < |s.entries|
  {
    match step
    case OnEntry(e', action) => e' == e && action.StoreChange?
    case OnFetch(f, action) =>
      && f < |s.fetches| && s.fetches[f].entry == e && action.Publish? && s.fetches[f].phase.Publishing?
      && (match s.fetches[f].kind
          case Lookup => StateIn(s.entries[e]).Pending?
          case Refresh(origin) =>
            && s.entries[e].cell == origin && Live(s.entries[e])
            && !IsExpired(origin.snapshot, s.entries[e].epoch, s.fetches[f].phase.checkedAt))
    case _ => false
  }

  /** What may put a stale mark into an entry: an observed expiry, an invalidation, or its own failed lookup. */
  predicate Marks(s: State, step: Step, e: nat)
    requires e < |s.entries|
  {
    match step
    case OnEntry(e', action) => e' == e && !action.StoreChange?
    case OnFetch(f, action) =>
      && f < |s.fetches| && s.fetches[f].entry == e && action.FailRemove?
      && s.entries[e].slot == Some(f) && StateIn(s.entries[e]).Pending? && InMap(s.shared, e, s.entries[e])
    case _ => false
  }

  lemma FetchStoresForCause(
    c: Config, sh: Shared, f: nat, fetch: Fetch, entry: Entry, spare: nat, action: FetchAction)
    requires FetchEnabled(c, sh, f, fetch, entry, action)
    ensures
      var next := FetchApply(c, sh, f, fetch, entry, spare, action).entry;
      next.cell != entry.cell ==>
        || (action.Publish? && MayStore(fetch, entry) && next.cell.snapshot == fetch.phase.snapshot
            && (fetch.kind.Refresh? ==> !IsExpired(fetch.kind.origin.snapshot, entry.epoch, fetch.phase.checkedAt)))
        || (action.FailRemove? && entry.slot == Some(f) && StateIn(entry).Pending?
            && InMap(sh, fetch.entry, entry) && StateIn(next).Stale?)
  {
    match action
    case Publish =>
    case _ =>
  }

  lemma EntryStoresForCause(c: Config, sh: Shared, e: nat, entry: Entry, action: EntryAction)
    requires EntryEnabled(c, sh, e, entry, action) && WatchShape(sh)
    ensures
      var next := EntryApply(c, sh, e, entry, action).entry;
      next.cell != entry.cell ==> if action.StoreChange? then Live(next) else StateIn(next).Stale?
  {
  }

  /** An entry's cell changes only by a publication, which makes it live, or by a mark, which makes it stale. */
  lemma CellsChangeForCause(c: Config, s: State, step: Step, e: nat)
    requires Reachable(c, s) && Enabled(c, s, step) && e < |s.entries|
    ensures e < |Apply(c, s, step).entries|
    ensures
      var entry := Apply(c, s, step).entries[e];
      entry.cell != s.entries[e].cell ==>
        if Live(entry) then Publishes(s, step, e) else StateIn(entry).Stale? && Marks(s, step, e)
  {
    ReachableHolds(c, s);
    StepExtends(c, s, step);
    match step
    case OnFetch(f, action) =>
      assert FetchInv(c, s.shared, f, s.fetches[f], s.entries[s.fetches[f].entry]);
      FetchStoresForCause(c, s.shared, f, s.fetches[f], s.entries[s.fetches[f].entry], |s.fetches|, action);
    case OnEntry(e', action) => EntryStoresForCause(c, s.shared, e', s.entries[e'], action);
    case _ =>
  }

  predicate IsChangeFor(step: Step, e: nat) {
    step.OnEntry? && step.e == e && step.entryAction.StoreChange?
  }

  lemma {:induction false} StaleUntilAChange(c: Config, s: State, steps: seq<Step>, e: nat)
    requires Inv(c, s) && Runs(c, s, steps) && e < |s.entries| && StateIn(s.entries[e]).Stale?
    requires forall i :: 0 <= i < |steps| ==> !IsChangeFor(steps[i], e)
    ensures e < |After(c, s, steps).entries| && StateIn(After(c, s, steps).entries[e]).Stale?
    decreases |steps|
  {
    if steps != [] {
      var t := Apply(c, s, steps[0]);
      StepExtends(c, s, steps[0]);
      assert !IsChangeFor(steps[0], e);
      StepKeepsStale(c, s, steps[0], e);
      StepKeeps(c, s, steps[0]);
      StaleUntilAChange(c, t, steps[1..], e);
    }
  }

  lemma StepKeepsStale(c: Config, s: State, step: Step, e: nat)
    requires Inv(c, s) && Enabled(c, s, step) && e < |s.entries| && StateIn(s.entries[e]).Stale?
    requires !IsChangeFor(step, e)
    ensures e < |Apply(c, s, step).entries| && StateIn(Apply(c, s, step).entries[e]).Stale?
  {
    if step.OnFetch? {
      assert FetchInv(c, s.shared, step.f, s.fetches[step.f], s.entries[s.fetches[step.f].entry]);
    }
  }

  /**
   Once an observer has found the entry expired, only a change from the watch makes it live again: no
   refresh and no lookup does, at whatever time its source answered.
   */
  lemma ExpiryIsLatched(c: Config, s: State, e: nat, readAt: nat, rest: seq<Step>)
    requires Reachable(c, s) && Runs(c, s, [OnEntry(e, Observe(readAt))] + rest)
    ensures e < |s.entries| && e < |After(c, s, [OnEntry(e, Observe(readAt))] + rest).entries|
    ensures Live(After(c, s, [OnEntry(e, Observe(readAt))] + rest).entries[e]) ==>
              exists i :: 0 <= i < |rest| && IsChangeFor(rest[i], e)
  {
    ReachableHolds(c, s);
    var steps := [OnEntry(e, Observe(readAt))] + rest;
    var t := Apply(c, s, steps[0]);
    assert steps[1..] == rest;
    StepKeeps(c, s, steps[0]);
    RunExtends(c, t, rest, e);
    if forall i :: 0 <= i < |rest| ==> !IsChangeFor(rest[i], e) {
      StaleUntilAChange(c, t, rest, e);
    }
  }

  lemma StepKeepsResolved(c: Config, s: State, step: Step, e: nat)
    requires Inv(c, s) && Enabled(c, s, step) && e < |s.entries| && !StateIn(s.entries[e]).Pending?
    ensures e < |Apply(c, s, step).entries| && !StateIn(Apply(c, s, step).entries[e]).Pending?
  {
    StepExtends(c, s, step);
    match step
    case OnFetch(f, action) =>
      var g := s.fetches[f].entry;
      assert FetchInv(c, s.shared, f, s.fetches[f], s.entries[g]);
      FetchMoves(c, s.shared, f, s.fetches[f], s.entries[g], |s.fetches|, action);
    case _ =>
  }

  lemma {:induction false} RunKeepsResolved(c: Config, s: State, steps: seq<Step>, e: nat)
    requires Inv(c, s) && Runs(c, s, steps) && e < |s.entries| && !StateIn(s.entries[e]).Pending?
    ensures e < |After(c, s, steps).entries| && !StateIn(After(c, s, steps).entries[e]).Pending?
    decreases |steps|
  {
    if steps != [] {
      StepKeepsResolved(c, s, steps[0], e);
      StepKeeps(c, s, steps[0]);
      RunKeepsResolved(c, Apply(c, s, steps[0]), steps[1..], e);
    }
  }

  /**
   An entry that has been resolved or marked never becomes Pending again, so no admission handle, which
   is only made from a verdict, ever observes the state its observer rules out.
   */
  lemma NeverPendingAgain(c: Config, s: State, steps: seq<Step>, e: nat)
    requires Reachable(c, s) && Runs(c, s, steps) && e < |s.entries| && !StateIn(s.entries[e]).Pending?
    ensures e < |After(c, s, steps).entries| && !StateIn(After(c, s, steps).entries[e]).Pending?
  {
    ReachableHolds(c, s);
    RunKeepsResolved(c, s, steps, e);
  }

  // ---------------------------------------------------------------- single flight

  /** A Pending entry's slot holds a lookup that nobody has aborted and that has yet to resolve the entry. */
  lemma PendingIsServed(c: Config, s: State, e: nat)
    requires Reachable(c, s) && e < |s.entries| && StateIn(s.entries[e]).Pending?
    ensures s.entries[e].slot.Some? && s.entries[e].slot.value < |s.fetches|
    ensures
      var fetch := s.fetches[s.entries[e].slot.value];
      && fetch.entry == e && fetch.kind.Lookup? && !fetch.aborted
      && s.entries[e].slot.value !in s.shared.aborting
      && Active(fetch.phase) && !fetch.phase.Releasing?
  {
    ReachableHolds(c, s);
    assert EntryInv(c, s.shared, e, s.entries[e]);
    var f := s.entries[e].slot.value;
    assert FetchInv(c, s.shared, f, s.fetches[f], s.entries[s.fetches[f].entry]);
  }

  predicate InFlight(s: State, f: nat) {
    f < |s.fetches| && InCall(s.fetches[f].phase) && !s.fetches[f].aborted && f !in s.shared.aborting
  }

  /** A source call that nobody has aborted occupies its entry's slot, so an entry has at most one. */
  lemma SingleFlight(c: Config, s: State, f: nat, g: nat)
    requires Reachable(c, s) && InFlight(s, f) && InFlight(s, g) && s.fetches[f].entry == s.fetches[g].entry
    ensures s.fetches[f].entry < |s.entries| && s.entries[s.fetches[f].entry].slot == Some(f)
    ensures f == g
  {
    ReachableHolds(c, s);
    assert FetchInv(c, s.shared, f, s.fetches[f], s.entries[s.fetches[f].entry]);
    assert FetchInv(c, s.shared, g, s.fetches[g], s.entries[s.fetches[g].entry]);
  }

  /** A held refresh claim belongs to a live guard, the queue or the watcher, until the disconnect clear. */
  lemma NoOrphanClaims(c: Config, s: State, e: nat)
    requires Reachable(c, s) && e < |s.entries| && s.entries[e].slot.Some?
    ensures s.entries[e].slot.value < |s.fetches|
    ensures
      var f := s.entries[e].slot.value;
      s.fetches[f].kind.Refresh? ==>
        || Guarded(s.fetches[f].phase)
        || f in s.shared.queue
        || f in s.shared.running
        || Disconnecting(s.shared.watcher)
  {
    ReachableHolds(c, s);
    var f := s.entries[e].slot.value;
    assert FetchInv(c, s.shared, f, s.fetches[f], s.entries[s.fetches[f].entry]);
  }

  /** A fetch that has lost its slot before its answer was checked, and so has nothing left to apply. */
  predicate Outdated(f: nat, fetch: Fetch, entry: Entry) {
    && entry.slot != Some(f) && !fetch.phase.Loaded? && !Applying(fetch.phase)
  }

  /** The answer has been found to belong to the entry's current operation, and is being applied. */
  predicate Applying(phase: Phase) {
    || phase.Checked? || phase.Prepared? || phase.Publishing? || phase.Failed?
    || phase.Replacing? || phase.Releasing?
  }

  lemma FetchKeepsOutdated(
    c: Config, sh: Shared, f: nat, fetch: Fetch, entry: Entry, spare: nat, action: FetchAction)
    requires FetchBasics(sh, fetch, entry) && FetchQueued(sh, f, fetch)
    requires FetchEnabled(c, sh, f, fetch, entry, action) && Outdated(f, fetch, entry)
    ensures
      var next := FetchApply(c, sh, f, fetch, entry, spare, action);
      Outdated(f, next.fetch, next.entry) && next.entry == entry
  {
  }

  lemma StepKeepsOutdated(c: Config, s: State, step: Step, f: nat)
    requires Inv(c, s) && Enabled(c, s, step) && ValidFetch(s, f)
    requires Outdated(f, s.fetches[f], s.entries[s.fetches[f].entry])
    ensures
      var t := Apply(c, s, step);
      && ValidFetch(t, f) && t.fetches[f].entry == s.fetches[f].entry
      && Outdated(f, t.fetches[f], t.entries[t.fetches[f].entry])
  {
    StepExtends(c, s, step);
    match step
    case OnFetch(g, action) =>
      var e := s.fetches[g].entry;
      assert FetchInv(c, s.shared, g, s.fetches[g], s.entries[e]);
      FetchMoves(c, s.shared, g, s.fetches[g], s.entries[e], |s.fetches|, action);
      if g == f { FetchKeepsOutdated(c, s.shared, f, s.fetches[f], s.entries[e], |s.fetches|, action); }
    case _ =>
  }

  lemma {:induction false} RunKeepsOutdated(c: Config, s: State, steps: seq<Step>, f: nat)
    requires Inv(c, s) && Runs(c, s, steps) && ValidFetch(s, f)
    requires Outdated(f, s.fetches[f], s.entries[s.fetches[f].entry])
    ensures
      var t := After(c, s, steps);
      ValidFetch(t, f) && Outdated(f, t.fetches[f], t.entries[t.fetches[f].entry])
    decreases |steps|
  {
    if steps != [] {
      StepKeepsOutdated(c, s, steps[0], f);
      StepKeeps(c, s, steps[0]);
      RunKeepsOutdated(c, Apply(c, s, steps[0]), steps[1..], f);
    }
  }

  /**
   A fetch that was replaced or aborted before its answer was checked changes no entry at any later
   point of any run: its answer is dropped, whenever it comes and whatever it is.
   */
  lemma OutdatedAnswersAreDropped(c: Config, s: State, steps: seq<Step>, f: nat, action: FetchAction)
    requires Reachable(c, s) && Runs(c, s, steps) && ValidFetch(s, f)
    requires Outdated(f, s.fetches[f], s.entries[s.fetches[f].entry])
    requires Enabled(c, After(c, s, steps), OnFetch(f, action))
    ensures Apply(c, After(c, s, steps), OnFetch(f, action)).entries == After(c, s, steps).entries
  {
    ReachableHolds(c, s);
    RunKeepsOutdated(c, s, steps, f);
    RunKeeps(c, s, steps);
    var t := After(c, s, steps);
    var e := t.fetches[f].entry;
    assert FetchInv(c, t.shared, f, t.fetches[f], t.entries[e]);
    FetchKeepsOutdated(c, t.shared, f, t.fetches[f], t.entries[e], |t.fetches|, action);
  }

  /** Whatever fetch `f` does, it never takes another operation out of the slot. */
  lemma LateActionsSpareNewerOperations(c: Config, s: State, f: nat, action: FetchAction, e: nat)
    requires Reachable(c, s) && Enabled(c, s, OnFetch(f, action)) && e < |s.entries|
    requires s.entries[e].slot.Some? && s.entries[e].slot != Some(f)
    ensures Apply(c, s, OnFetch(f, action)).entries[e].slot == s.entries[e].slot
  {
    ReachableHolds(c, s);
    if s.fetches[f].entry == e {
      assert FetchInv(c, s.shared, f, s.fetches[f], s.entries[e]);
      FetchMoves(c, s.shared, f, s.fetches[f], s.entries[e], |s.fetches|, action);
    }
  }

  // ---------------------------------------------------------------- stored snapshots

  /** No reachable cell carries a payload beside anything but Allowed, nor a deadline its word cannot hold. */
  lemma CellsAreSound(c: Config, s: State, e: nat)
    requires Reachable(c, s) && e < |s.entries|
    ensures Sound(s.entries[e].cell.snapshot)
  {
    ReachableHolds(c, s);
    assert EntryInv(c, s.shared, e, s.entries[e]);
  }
}
