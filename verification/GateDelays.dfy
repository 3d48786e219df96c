/** Waiting that no interleaving shortens: the two cooldowns after failures and the rebuild rate limit. */
module GateDelays {
  import opened GateModel
  import opened GateInvariants
  import opened GateRuns
  import opened GateTheorems

  // ---------------------------------------------------------------- failure cooldown

  /** The refresh has not passed its revalidation: it is before it, or it gave up. */
  predicate BeforeRevalidation(phase: Phase) {
    || phase.Loaded? || phase.Claimed? || phase.SameSnapshot? || phase.Clocked?
    || phase.Dropping? || phase.Finished?
  }

  predicate NotRevalidated(s: State, f: nat) {
    f < |s.fetches| ==> s.fetches[f].kind.Refresh? && BeforeRevalidation(s.fetches[f].phase)
  }

  predicate KnowsFailures(fetch: Fetch, n: nat) {
    fetch.kind.Refresh? && !BeforeRevalidation(fetch.phase) ==> n <= fetch.seenFailures
  }

  /** Every one of the first `n` failures of the refresh's entry was known when it was revalidated. */
  predicate Aware(s: State, f: nat, e: nat, n: nat) {
    && e < |s.entries| && n <= |s.entries[e].failures|
    && (f < |s.fetches| && s.fetches[f].entry == e ==> KnowsFailures(s.fetches[f], n))
  }

  lemma FetchKeepsAware(
    c: Config, sh: Shared, f: nat, fetch: Fetch, entry: Entry, spare: nat, action: FetchAction, n: nat)
    requires FetchBasics(sh, fetch, entry) && FetchQueued(sh, f, fetch)
    requires FetchEnabled(c, sh, f, fetch, entry, action)
    requires n <= |entry.failures| && KnowsFailures(fetch, n)
    ensures KnowsFailures(FetchApply(c, sh, f, fetch, entry, spare, action).fetch, n)
  {
  }

  lemma StepKeepsAware(c: Config, s: State, step: Step, f: nat, e: nat, n: nat)
    requires Inv(c, s) && Enabled(c, s, step) && Aware(s, f, e, n)
    ensures Aware(Apply(c, s, step), f, e, n)
  {
    StepExtends(c, s, step);
    match step
    case OnFetch(g, action) =>
      assert FetchInv(c, s.shared, g, s.fetches[g], s.entries[s.fetches[g].entry]);
      if g == f && s.fetches[f].entry == e {
        FetchKeepsAware(c, s.shared, f, s.fetches[f], s.entries[e], |s.fetches|, action, n);
      }
    case _ =>
  }

  lemma {:induction false} RunKeepsAware(c: Config, s: State, steps: seq<Step>, f: nat, e: nat, n: nat)
    requires Inv(c, s) && Runs(c, s, steps) && Aware(s, f, e, n)
    ensures Aware(After(c, s, steps), f, e, n)
    decreases |steps|
  {
    if steps != [] {
      StepKeepsAware(c, s, steps[0], f, e, n);
      StepKeeps(c, s, steps[0]);
      RunKeepsAware(c, Apply(c, s, steps[0]), steps[1..], f, e, n);
    }
  }

  /**
   A refresh that had not been revalidated when its entry's refresh failed at tick `failures[i]` is in
   the queue later only if it was queued at or after that tick plus the cooldown, even if it had loaded
   its snapshot, or claimed the slot, before the failure.
   */
  lemma CooldownHoldsAgainstDelayedClaimants(c: Config, s: State, steps: seq<Step>, f: nat, e: nat, i: nat)
    requires Reachable(c, s) && Runs(c, s, steps)
    requires e < |s.entries| && i < |s.entries[e].failures| && NotRevalidated(s, f)
    requires f < |After(c, s, steps).fetches| && After(c, s, steps).fetches[f].entry == e
    requires f in After(c, s, steps).shared.queue
    ensures e < |After(c, s, steps).entries| && s.entries[e].failures <= After(c, s, steps).entries[e].failures
    ensures s.entries[e].failures[i] + c.cooldown <= After(c, s, steps).fetches[f].dueAt
  {
    ReachableHolds(c, s);
    RunKeepsAware(c, s, steps, f, e, i + 1);
    RunKeepsFailures(c, s, steps, e);
    RunKeeps(c, s, steps);
    var t := After(c, s, steps);
    assert FetchInv(c, t.shared, f, t.fetches[f], t.entries[t.fetches[f].entry]);
    assert t.entries[e].failures[i] + c.cooldown <= t.fetches[f].dueAt;
  }

  lemma {:induction false} RunKeepsFailures(c: Config, s: State, steps: seq<Step>, e: nat)
    requires Inv(c, s) && Runs(c, s, steps) && e < |s.entries|
    ensures e < |After(c, s, steps).entries| && s.entries[e].failures <= After(c, s, steps).entries[e].failures
    decreases |steps|
  {
    if steps != [] {
      StepExtends(c, s, steps[0]);
      StepKeeps(c, s, steps[0]);
      RunKeepsFailures(c, Apply(c, s, steps[0]), steps[1..], e);
    }
  }

  // ---------------------------------------------------------------- delays

  lemma FetchTakesNoTime(
    c: Config, sh: Shared, f: nat, fetch: Fetch, entry: Entry, spare: nat, action: FetchAction)
    requires FetchEnabled(c, sh, f, fetch, entry, action)
    ensures FetchApply(c, sh, f, fetch, entry, spare, action).shared.now == sh.now
  {
  }

  lemma EntryTakesNoTime(c: Config, sh: Shared, e: nat, entry: Entry, action: EntryAction)
    requires EntryEnabled(c, sh, e, entry, action)
    ensures EntryApply(c, sh, e, entry, action).shared.now == sh.now
  {
  }

  /** Time never runs back, and only the world outside moves it. */
  lemma StepKeepsTime(c: Config, s: State, step: Step)
    requires Enabled(c, s, step)
    ensures s.shared.now <= Apply(c, s, step).shared.now
    ensures !step.Outside? ==> s.shared.now == Apply(c, s, step).shared.now
  {
    match step
    case OnFetch(f, action) =>
      FetchTakesNoTime(c, s.shared, f, s.fetches[f], s.entries[s.fetches[f].entry], |s.fetches|, action);
    case OnEntry(e, action) => EntryTakesNoTime(c, s.shared, e, s.entries[e], action);
    case OnWatch(onWatch) => assert WatchApply(c, s.shared, onWatch).now == s.shared.now;
    case _ =>
  }

  /** From `from` on the retry has waited to be polled, or slept, or its cooldown is over. */
  predicate HeldBack(c: Config, now: nat, fetch: Fetch, from: nat) {
    && from <= now
    && (|| (fetch.phase.Waiting? && fetch.phase.delayed)
        || (fetch.phase.Cooling? && from + c.cooldown <= fetch.phase.until)
        || from + c.cooldown <= now)
  }

  lemma FetchKeepsHeldBack(
    c: Config, sh: Shared, f: nat, fetch: Fetch, entry: Entry, spare: nat, action: FetchAction, from: nat)
    requires FetchBasics(sh, fetch, entry) && FetchQueued(sh, f, fetch)
    requires FetchEnabled(c, sh, f, fetch, entry, action) && HeldBack(c, sh.now, fetch, from)
    ensures HeldBack(c, sh.now, FetchApply(c, sh, f, fetch, entry, spare, action).fetch, from)
  {
  }

  lemma StepKeepsHeldBack(c: Config, s: State, step: Step, f: nat, from: nat)
    requires Inv(c, s) && Enabled(c, s, step) && f < |s.fetches| && HeldBack(c, s.shared.now, s.fetches[f], from)
    ensures
      var t := Apply(c, s, step);
      f < |t.fetches| && HeldBack(c, t.shared.now, t.fetches[f], from)
  {
    StepKeepsTime(c, s, step);
    match step
    case OnFetch(g, action) =>
      if g == f {
        assert FetchInv(c, s.shared, f, s.fetches[f], s.entries[s.fetches[f].entry]);
        FetchKeepsHeldBack(c, s.shared, f, s.fetches[f], s.entries[s.fetches[f].entry], |s.fetches|, action, from);
      }
    case _ =>
  }

  lemma {:induction false} RunKeepsHeldBack(c: Config, s: State, steps: seq<Step>, f: nat, from: nat)
    requires Inv(c, s) && Runs(c, s, steps) && f < |s.fetches| && HeldBack(c, s.shared.now, s.fetches[f], from)
    ensures
      var t := After(c, s, steps);
      f < |t.fetches| && HeldBack(c, t.shared.now, t.fetches[f], from)
    decreases |steps|
  {
    if steps != [] {
      StepKeepsHeldBack(c, s, steps[0], f, from);
      StepKeeps(c, s, steps[0]);
      RunKeepsHeldBack(c, Apply(c, s, steps[0]), steps[1..], f, from);
    }
  }

  /** The retry left behind by a permanent failure asks the source no sooner than the cooldown after it was made. */
  lemma PermanentFailuresCoolDown(c: Config, s: State, steps: seq<Step>, f: nat)
    requires Reachable(c, s) && Runs(c, s, steps)
    requires f < |s.fetches| && s.fetches[f].phase == Waiting(true)
    ensures f < |After(c, s, steps).fetches|
    ensures CallBegun(After(c, s, steps).fetches[f].phase) ==> s.shared.now + c.cooldown <= After(c, s, steps).shared.now
  {
    ReachableHolds(c, s);
    RunKeepsHeldBack(c, s, steps, f, s.shared.now);
  }

  lemma StepKeepsTheRateLimit(c: Config, s: State, step: Step, limit: nat)
    requires Enabled(c, s, step) && limit <= s.reader.nextAllowed && limit <= s.shared.now + c.republishInterval
    ensures
      var t := Apply(c, s, step);
      limit <= t.reader.nextAllowed && limit <= t.shared.now + c.republishInterval
  {
    StepKeepsTime(c, s, step);
    var reader := Apply(c, s, step).reader;
    match step
    case OnRebuild(onRebuild) => assert reader == RebuildApply(c, s.shared, s.reader, onRebuild);
    case OnWatch(onWatch) => assert reader == WatchReader(s.reader, onWatch);
    case _ => assert reader == s.reader;
  }

  lemma {:induction false} RunKeepsTheRateLimit(c: Config, s: State, steps: seq<Step>, limit: nat)
    requires Runs(c, s, steps) && limit <= s.reader.nextAllowed && limit <= s.shared.now + c.republishInterval
    ensures limit <= After(c, s, steps).reader.nextAllowed
    decreases |steps|
  {
    if steps != [] {
      StepKeepsTheRateLimit(c, s, steps[0], limit);
      RunKeepsTheRateLimit(c, Apply(c, s, steps[0]), steps[1..], limit);
    }
  }

  /** Two rebuilds are claimed at least one republish interval apart, whoever claims them. */
  lemma RebuildsAreSpaced(c: Config, s: State, r: nat, rest: seq<Step>, r': nat)
    requires Runs(c, s, [OnRebuild(ClaimRebuild(r))] + rest)
    requires Enabled(c, After(c, s, [OnRebuild(ClaimRebuild(r))] + rest), OnRebuild(ClaimRebuild(r')))
    ensures s.shared.now + c.republishInterval <= After(c, s, [OnRebuild(ClaimRebuild(r))] + rest).shared.now
  {
    var steps := [OnRebuild(ClaimRebuild(r))] + rest;
    assert steps[1..] == rest;
    RunKeepsTheRateLimit(c, Apply(c, s, steps[0]), rest, s.shared.now + c.republishInterval);
  }
}
