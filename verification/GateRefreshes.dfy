/** How many refreshes of one entry land inside the refresh window, over its whole life in any run. */
module GateRefreshes {
  import opened Options
  import opened Deadlines
  import opened GateModel
  import opened GateInvariants
  import opened GatePreservation
  import opened GateRuns
  import opened GateTheorems
  import opened GateDelays

  // ---------------------------------------------------------------- snapshots inside the window

  /** What is left of a snapshot's life from when it may be refreshed. */
  function Life(snapshot: Snapshot): nat {
    SatSub(snapshot.deadline, snapshot.refreshAfter)
  }

  /** The snapshot was prepared inside the refresh window before the source's cap. */
  predicate Landed(c: Config, epoch: nat, cap: Option<nat>, snapshot: Snapshot) {
    && cap.Some? && snapshot.deadline == Tick(epoch, cap.value)
    && 0 < snapshot.refreshAfter <= snapshot.deadline && 2 * Life(snapshot) <= c.refreshBefore
  }

  predicate Within(c: Config, epoch: nat, cap: Option<nat>, snapshot: Snapshot) {
    snapshot.refreshAfter == 0 || Landed(c, epoch, cap, snapshot)
  }

  /** The later snapshot has at most half of the life of the earlier one, which had some. */
  predicate Halves(c: Config, epoch: nat, cap: Option<nat>, earlier: Snapshot, later: Snapshot) {
    Landed(c, epoch, cap, later) && 2 * Life(later) <= Life(earlier) && 1 <= Life(earlier)
  }

  lemma PreparedIsWithin(c: Config, epoch: nat, now: nat, result: DecisionResult)
    requires c.refreshBefore < c.freshness && c.freshness != DURATION_MAX
    ensures
      var snapshot := DecisionSnapshot(epoch, c.refreshBefore, c.freshness, now, result);
      IsExpired(snapshot, epoch, now) || Within(c, epoch, result.validUntil, snapshot)
  {
  }

  lemma PreparedHalves(c: Config, epoch: nat, now: nat, result: DecisionResult, origin: Snapshot)
    requires c.refreshBefore < c.freshness && c.freshness != DURATION_MAX
    requires Landed(c, epoch, result.validUntil, origin) && origin.refreshAfter <= Tick(epoch, now)
    ensures
      var snapshot := DecisionSnapshot(epoch, c.refreshBefore, c.freshness, now, result);
      IsExpired(snapshot, epoch, now) || Halves(c, epoch, result.validUntil, origin, snapshot)
  {
  }

  /** An unexpired snapshot lands in the window exactly when it bars refreshes until half of its life is over. */
  lemma LandsInTheWindow(c: Config, epoch: nat, now: nat, result: DecisionResult)
    requires c.refreshBefore < c.freshness && c.freshness != DURATION_MAX
    ensures
      var snapshot := DecisionSnapshot(epoch, c.refreshBefore, c.freshness, now, result);
      !IsExpired(snapshot, epoch, now) ==>
        (snapshot.refreshAfter > 0 <==> snapshot.deadline - Tick(epoch, now) <= c.refreshBefore)
  {
  }

  // ---------------------------------------------------------------- what each record keeps

  ghost predicate FetchCapped(c: Config, sh: Shared, fetch: Fetch, entry: Entry, cap: Option<nat>) {
    && (fetch.phase.Answered? && fetch.phase.answer.Decided? ==> fetch.phase.answer.result.validUntil == cap)
    && (fetch.phase.Checked? && fetch.phase.answer.Decided? ==> fetch.phase.answer.result.validUntil == cap)
    && (fetch.kind.Refresh? && !BeforeRevalidation(fetch.phase) ==>
          fetch.kind.origin.snapshot.refreshAfter <= Tick(entry.epoch, sh.now))
    && (fetch.phase.Prepared? && !IsExpired(fetch.phase.snapshot, entry.epoch, sh.now) ==>
          MadeWithin(c, fetch, entry, cap, fetch.phase.snapshot))
    && (fetch.phase.Publishing? ==> MadeWithin(c, fetch, entry, cap, fetch.phase.snapshot))
  }

  predicate MadeWithin(c: Config, fetch: Fetch, entry: Entry, cap: Option<nat>, snapshot: Snapshot) {
    && Within(c, entry.epoch, cap, snapshot)
    && (fetch.kind.Refresh? && Landed(c, entry.epoch, cap, fetch.kind.origin.snapshot) ==>
          Halves(c, entry.epoch, cap, fetch.kind.origin.snapshot, snapshot))
  }

  /** `landings` refreshes have landed in the window so far. */
  predicate EntryCapped(c: Config, entry: Entry, cap: Option<nat>, landings: nat) {
    && (Live(entry) ==> Within(c, entry.epoch, cap, entry.cell.snapshot))
    && (landings > 0 ==>
          && Pow2(landings - 1) <= c.refreshBefore
          && (Live(entry) ==>
                && Landed(c, entry.epoch, cap, entry.cell.snapshot)
                && Pow2(landings) * Life(entry.cell.snapshot) <= c.refreshBefore))
  }

  /** The action is not a reply, or a reply with this very cap. */
  predicate RepliesWith(action: FetchAction, cap: Option<nat>) {
    action.Reply? ==> action.validUntil == cap
  }

  /** A refresh is stored whose snapshot lands in the window. */
  predicate LandsNow(fetch: Fetch, entry: Entry, next: Entry, action: FetchAction) {
    action.Publish? && fetch.kind.Refresh? && next.cell != entry.cell && next.cell.snapshot.refreshAfter > 0
  }

  lemma FetchStaysCapped(
    c: Config, sh: Shared, f: nat, fetch: Fetch, entry: Entry, spare: nat, action: FetchAction, cap: Option<nat>)
    requires c.refreshBefore < c.freshness && c.freshness != DURATION_MAX
    requires FetchEnabled(c, sh, f, fetch, entry, action) && FetchBasics(sh, fetch, entry) && FetchQueued(sh, f, fetch)
    requires FetchCapped(c, sh, fetch, entry, cap) && RepliesWith(action, cap)
    ensures
      var next := FetchApply(c, sh, f, fetch, entry, spare, action);
      FetchCapped(c, next.shared, next.fetch, next.entry, cap)
  {
    match action
    case Prepare =>
      if fetch.phase.answer.Decided? {
        var result := fetch.phase.answer.result;
        PreparedIsWithin(c, entry.epoch, sh.now, result);
        if fetch.kind.Refresh? && Landed(c, entry.epoch, cap, fetch.kind.origin.snapshot) {
          PreparedHalves(c, entry.epoch, sh.now, result, fetch.kind.origin.snapshot);
        }
      }
    case Revalidate => TickIsMonotone(entry.epoch, fetch.phase.readAt, sh.now);
    case Publish =>
    case _ =>
  }

  lemma CappedAsTimePasses(
    c: Config, sh: Shared, sh': Shared, fetch: Fetch, entry: Entry, next: Entry, cap: Option<nat>)
    requires FetchCapped(c, sh, fetch, entry, cap) && sh.now <= sh'.now && next.epoch == entry.epoch
    ensures FetchCapped(c, sh', fetch, next, cap)
  {
    TickIsMonotone(entry.epoch, sh.now, sh'.now);
  }

  lemma HalvingPays(k: nat, earlier: nat, later: nat, limit: nat)
    requires Pow2(k) * earlier <= limit && 2 * later <= earlier && 1 <= earlier
    ensures Pow2(k) <= limit && Pow2(k + 1) * later <= limit
  {
    assert Pow2(k) * 1 <= Pow2(k) * earlier;
    assert Pow2(k + 1) * later == Pow2(k) * (2 * later);
    assert Pow2(k) * (2 * later) <= Pow2(k) * earlier;
  }

  ghost predicate EntryAccounts(c: Config, entry: Entry, cap: Option<nat>, landings: nat) {
    EntryCapped(c, entry, cap, landings) && (landings > 0 ==> !StateIn(entry).Pending?)
  }

  function Counted(b: bool): nat {
    if b then 1 else 0
  }

  lemma FetchStepAccounts(
    c: Config, sh: Shared, f: nat, fetch: Fetch, entry: Entry, spare: nat, action: FetchAction, cap: Option<nat>, k: nat)
    requires 0 < c.refreshBefore < c.freshness
    requires FetchEnabled(c, sh, f, fetch, entry, action) && FetchBasics(sh, fetch, entry) && FetchQueued(sh, f, fetch)
    requires FetchCapped(c, sh, fetch, entry, cap) && EntryAccounts(c, entry, cap, k) && entry.cell.id < sh.nextCell
    ensures
      var next := FetchApply(c, sh, f, fetch, entry, spare, action).entry;
      EntryAccounts(c, next, cap, k + Counted(LandsNow(fetch, entry, next, action)))
  {
    FetchMoves(c, sh, f, fetch, entry, spare, action);
    FetchStoresForCause(c, sh, f, fetch, entry, spare, action);
    var next := FetchApply(c, sh, f, fetch, entry, spare, action).entry;
    if next.cell != entry.cell && action.Publish? && fetch.kind.Refresh? {
      if k > 0 {
        HalvingPays(k, Life(entry.cell.snapshot), Life(next.cell.snapshot), c.refreshBefore);
      } else {
        assert Pow2(1) == 2 && Pow2(0) == 1;
      }
    }
  }

  lemma EntryStepAccounts(c: Config, sh: Shared, e: nat, entry: Entry, action: EntryAction, cap: Option<nat>, k: nat)
    requires EntryEnabled(c, sh, e, entry, action) && !action.StoreChange? && EntryAccounts(c, entry, cap, k)
    ensures EntryAccounts(c, EntryApply(c, sh, e, entry, action).entry, cap, k)
  {
  }

  // ---------------------------------------------------------------- over a run

  /** From `s` to `t` this step has stored a refresh of entry `e` inside the window. */
  predicate LandsBy(s: State, t: State, step: Step, e: nat) {
    && step.OnFetch? && step.f < |s.fetches| && s.fetches[step.f].entry == e && e < |s.entries| && e < |t.entries|
    && LandsNow(s.fetches[step.f], s.entries[e], t.entries[e], step.fetchAction)
  }

  function Landings(c: Config, s: State, steps: seq<Step>, e: nat): nat
    requires Runs(c, s, steps)
    decreases |steps|
  {
    if steps == [] then 0
    else Counted(LandsBy(s, Apply(c, s, steps[0]), steps[0], e)) + Landings(c, Apply(c, s, steps[0]), steps[1..], e)
  }

  predicate FitsCap(s: State, step: Step, e: nat, cap: Option<nat>) {
    && !IsChangeFor(step, e)
    && (step.OnFetch? && step.f < |s.fetches| && s.fetches[step.f].entry == e ==> RepliesWith(step.fetchAction, cap))
  }

  /** The source answers every call for entry `e` with the same cap, and no watch change touches the entry. */
  predicate SameCap(c: Config, s: State, steps: seq<Step>, e: nat, cap: Option<nat>)
    requires Runs(c, s, steps)
    decreases |steps|
  {
    steps != [] ==>
      && FitsCap(s, steps[0], e, cap)
      && SameCap(c, Apply(c, s, steps[0]), steps[1..], e, cap)
  }

  ghost predicate Accounts(c: Config, s: State, e: nat, cap: Option<nat>, k: nat) {
    && (if e < |s.entries| then EntryAccounts(c, s.entries[e], cap, k) else k == 0)
    && (forall f: nat :: f < |s.fetches| && s.fetches[f].entry == e && e < |s.entries| ==>
          FetchCapped(c, s.shared, s.fetches[f], s.entries[e], cap))
  }

  lemma FetchRecordsAccount(
    c: Config, sh: Shared, f: nat, fetch: Fetch, entry: Entry, spare: nat, action: FetchAction, cap: Option<nat>, k: nat)
    requires 0 < c.refreshBefore < c.freshness && c.freshness != DURATION_MAX
    requires FetchEnabled(c, sh, f, fetch, entry, action) && FetchBasics(sh, fetch, entry) && FetchQueued(sh, f, fetch)
    requires FetchCapped(c, sh, fetch, entry, cap) && EntryAccounts(c, entry, cap, k) && entry.cell.id < sh.nextCell
    requires RepliesWith(action, cap)
    ensures
      var next := FetchApply(c, sh, f, fetch, entry, spare, action);
      && FetchCapped(c, next.shared, next.fetch, next.entry, cap)
      && EntryAccounts(c, next.entry, cap, k + Counted(LandsNow(fetch, entry, next.entry, action)))
      && (next.retry.Some? ==> FetchCapped(c, next.shared, next.retry.value, next.entry, cap))
  {
    FetchStaysCapped(c, sh, f, fetch, entry, spare, action, cap);
    FetchStepAccounts(c, sh, f, fetch, entry, spare, action, cap, k);
  }

  /** A fetch action whose own records are in order keeps those of the entry in order. */
  lemma FetchOutcomeAccounts(c: Config, s: State, f: nat, next: FetchOutcome, e: nat, cap: Option<nat>, k: nat, k': nat)
    requires f < |s.fetches| && s.fetches[f].entry < |s.entries| && Accounts(c, s, e, cap, k)
    requires next.fetch.entry == s.fetches[f].entry && next.shared.now == s.shared.now
    requires next.retry.Some? ==> next.retry.value.entry == s.fetches[f].entry
    requires next.entry.epoch == s.entries[s.fetches[f].entry].epoch
    requires if s.fetches[f].entry == e then
               && FetchCapped(c, next.shared, next.fetch, next.entry, cap) && EntryAccounts(c, next.entry, cap, k')
               && (next.retry.Some? ==> FetchCapped(c, next.shared, next.retry.value, next.entry, cap))
             else k' == k
    ensures
      var t := Replaced(s, s.fetches[f].entry, next.entry, Some(f), next.fetch, next.retry, next.shared);
      Accounts(c, t, e, cap, k')
  {
    var t := Replaced(s, s.fetches[f].entry, next.entry, Some(f), next.fetch, next.retry, next.shared);
    forall h: nat | h < |t.fetches| && t.fetches[h].entry == e && e < |t.entries|
      ensures FetchCapped(c, t.shared, t.fetches[h], t.entries[e], cap)
    {
      if h < |s.fetches| && h != f {
        CappedAsTimePasses(c, s.shared, t.shared, s.fetches[h], s.entries[e], t.entries[e], cap);
      }
    }
  }

  lemma FetchStepKeepsAccounts(c: Config, s: State, f: nat, action: FetchAction, e: nat, cap: Option<nat>, k: nat)
    requires 0 < c.refreshBefore < c.freshness && c.freshness != DURATION_MAX
    requires Inv(c, s) && Enabled(c, s, OnFetch(f, action)) && Accounts(c, s, e, cap, k)
    requires s.fetches[f].entry == e ==> RepliesWith(action, cap)
    ensures
      var t := Apply(c, s, OnFetch(f, action));
      Accounts(c, t, e, cap, k + Counted(LandsBy(s, t, OnFetch(f, action), e)))
  {
    var g := s.fetches[f].entry;
    assert FetchInv(c, s.shared, f, s.fetches[f], s.entries[g]) && EntryInv(c, s.shared, g, s.entries[g]);
    ServedFetchAccounts(c, s, f, action, e, cap, k);
  }

  lemma ServedFetchAccounts(c: Config, s: State, f: nat, action: FetchAction, e: nat, cap: Option<nat>, k: nat)
    requires 0 < c.refreshBefore < c.freshness && c.freshness != DURATION_MAX
    requires Enabled(c, s, OnFetch(f, action)) && Accounts(c, s, e, cap, k)
    requires s.fetches[f].entry == e ==> RepliesWith(action, cap)
    requires
      var entry := s.entries[s.fetches[f].entry];
      && FetchBasics(s.shared, s.fetches[f], entry) && FetchQueued(s.shared, f, s.fetches[f])
      && entry.cell.id < s.shared.nextCell
    ensures
      var t := Apply(c, s, OnFetch(f, action));
      Accounts(c, t, e, cap, k + Counted(LandsBy(s, t, OnFetch(f, action), e)))
  {
    var g, t := s.fetches[f].entry, Apply(c, s, OnFetch(f, action));
    var next := FetchApply(c, s.shared, f, s.fetches[f], s.entries[g], |s.fetches|, action);
    FetchKeepsOrigins(c, s.shared, f, s.fetches[f], s.entries[g], |s.fetches|, action);
    if g == e { FetchRecordsAccount(c, s.shared, f, s.fetches[f], s.entries[e], |s.fetches|, action, cap, k); }
    FetchOutcomeAccounts(c, s, f, next, e, cap, k, k + Counted(LandsBy(s, t, OnFetch(f, action), e)));
  }

  lemma FetchKeepsOrigins(
    c: Config, sh: Shared, f: nat, fetch: Fetch, entry: Entry, spare: nat, action: FetchAction)
    requires FetchEnabled(c, sh, f, fetch, entry, action)
    ensures
      var next := FetchApply(c, sh, f, fetch, entry, spare, action);
      && next.fetch.entry == fetch.entry && next.entry.epoch == entry.epoch && next.shared.now == sh.now
      && (next.retry.Some? ==> next.retry.value.entry == fetch.entry)
  {
  }

  lemma EntryStepKeepsAccounts(c: Config, s: State, e': nat, action: EntryAction, e: nat, cap: Option<nat>, k: nat)
    requires Inv(c, s) && Enabled(c, s, OnEntry(e', action)) && Accounts(c, s, e, cap, k)
    requires !IsChangeFor(OnEntry(e', action), e)
    ensures Accounts(c, Apply(c, s, OnEntry(e', action)), e, cap, k)
  {
    var t := Apply(c, s, OnEntry(e', action));
    EntryActionsMove(c, s.shared, e', s.entries[e'], action);
    StepKeepsTime(c, s, OnEntry(e', action));
    if e' == e { EntryStepAccounts(c, s.shared, e, s.entries[e], action, cap, k); }
    forall h: nat | h < |s.fetches| && s.fetches[h].entry == e && e < |t.entries|
      ensures FetchCapped(c, t.shared, t.fetches[h], t.entries[e], cap)
    {
      CappedAsTimePasses(c, s.shared, t.shared, s.fetches[h], s.entries[e], t.entries[e], cap);
    }
  }

  lemma OtherStepKeepsAccounts(c: Config, s: State, step: Step, e: nat, cap: Option<nat>, k: nat)
    requires SlotsNumbered(s.entries, s.fetches) && Enabled(c, s, step) && Accounts(c, s, e, cap, k)
    requires !step.OnFetch? && !step.OnEntry?
    ensures Accounts(c, Apply(c, s, step), e, cap, k)
  {
    var t := Apply(c, s, step);
    StepKeepsTime(c, s, step);
    forall h: nat | h < |s.fetches| && s.fetches[h].entry == e && e < |t.entries|
      ensures FetchCapped(c, t.shared, t.fetches[h], t.entries[e], cap)
    {
      CappedAsTimePasses(c, s.shared, t.shared, s.fetches[h], s.entries[e], t.entries[e], cap);
    }
  }

  lemma StepKeepsAccounts(c: Config, s: State, step: Step, e: nat, cap: Option<nat>, k: nat) returns (k': nat)
    requires 0 < c.refreshBefore < c.freshness && c.freshness != DURATION_MAX
    requires Inv(c, s) && Enabled(c, s, step) && Accounts(c, s, e, cap, k) && FitsCap(s, step, e, cap)
    ensures k' == k + Counted(LandsBy(s, Apply(c, s, step), step, e)) && Accounts(c, Apply(c, s, step), e, cap, k')
  {
    k' := k + Counted(LandsBy(s, Apply(c, s, step), step, e));
    if step.OnFetch? {
      FetchStepKeepsAccounts(c, s, step.f, step.fetchAction, e, cap, k);
    } else if step.OnEntry? {
      EntryStepKeepsAccounts(c, s, step.e, step.entryAction, e, cap, k);
    } else {
      OtherStepKeepsAccounts(c, s, step, e, cap, k);
    }
  }

  lemma {:induction false} RunKeepsAccounts(c: Config, s: State, steps: seq<Step>, e: nat, cap: Option<nat>, k: nat)
    returns (n: nat)
    requires 0 < c.refreshBefore < c.freshness && c.freshness != DURATION_MAX
    requires Inv(c, s) && Runs(c, s, steps) && SameCap(c, s, steps, e, cap) && Accounts(c, s, e, cap, k)
    ensures n == k + Landings(c, s, steps, e) && Accounts(c, After(c, s, steps), e, cap, n)
    decreases |steps|
  {
    n := k;
    if steps != [] {
      n := StepKeepsAccounts(c, s, steps[0], e, cap, k);
      StepKeeps(c, s, steps[0]);
      n := RunKeepsAccounts(c, Apply(c, s, steps[0]), steps[1..], e, cap, n);
    }
  }

  /**
   Over the whole life of an entry, in any run of the gate: if the source keeps answering for it with the
   same cap, or with none, and no watch change renews it, the refreshes stored inside the refresh window
   number at most one more than the binary logarithm of the window.
   */
  lemma RefreshesOfAnEntryAreLogarithmic(c: Config, s: State, steps: seq<Step>, e: nat, cap: Option<nat>)
    requires 0 < c.refreshBefore < c.freshness && c.freshness != DURATION_MAX
    requires Reachable(c, s) && |s.entries| <= e && Runs(c, s, steps) && SameCap(c, s, steps, e, cap)
    ensures Landings(c, s, steps, e) > 0 ==> Pow2(Landings(c, s, steps, e) - 1) <= c.refreshBefore
  {
    ReachableHolds(c, s);
    var n := RunKeepsAccounts(c, s, steps, e, cap, 0);
  }
}
