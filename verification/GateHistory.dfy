/** Where verdicts come from: every one was the authority's decision at some point of the current stream. */
module GateHistory {
  import opened Options
  import opened Deadlines
  import opened GateModel
  import opened GateInvariants
  import opened GatePreservation
  import opened GateRuns

  /** The subjects that the authority has allowed, and those it has denied. */
  datatype Decisions = Decisions(allowed: set<Subject>, denied: set<Subject>)

  function Standing(sh: Shared): Decisions {
    Decisions(set x | x in sh.authority && sh.authority[x].Allowed?,
              set x | x in sh.authority && sh.authority[x].Denied?)
  }

  /** A new stream forgets what was decided before it. */
  function Remembered(held: Decisions, step: Step, t: Shared): Decisions {
    if step == OnWatch(StreamOpened) then Standing(t)
    else Decisions(held.allowed + Standing(t).allowed, held.denied + Standing(t).denied)
  }

  predicate Holds(held: Decisions, subject: Subject, decision: Option<Decision>) {
    match decision
    case None => true
    case Some(Allowed) => subject in held.allowed
    case Some(Denied) => subject in held.denied
  }

  ghost predicate SharedHonest(sh: Shared, held: Decisions) {
    && (forall x :: x in sh.authority ==> Holds(held, x, Some(sh.authority[x])))
    && (forall change :: change in Undelivered(sh) ==> Holds(held, change.subject, change.decision))
  }

  ghost predicate EntryHonest(sh: Shared, e: nat, entry: Entry, held: Decisions) {
    Kept(sh, e, entry) ==> Holds(held, entry.subject, DecisionOf(entry.cell.snapshot))
  }

  ghost predicate FetchHonest(sh: Shared, fetch: Fetch, entry: Entry, held: Decisions) {
    Kept(sh, fetch.entry, entry) ==> Holds(held, entry.subject, Carried(fetch.phase))
  }

  /** Every verdict in the map, and every decision on its way there, is among those held. */
  ghost predicate Honest(s: State, held: Decisions)
    requires Numbers(s)
  {
    && SharedHonest(s.shared, held)
    && (forall e: nat :: e < |s.entries| ==> EntryHonest(s.shared, e, s.entries[e], held))
    && (forall f: nat :: f < |s.fetches| ==> FetchHonest(s.shared, s.fetches[f], s.entries[s.fetches[f].entry], held))
  }

  // ---------------------------------------------------------------- one step

  lemma OutsideStaysHonest(sh: Shared, step: OutsideStep, held: Decisions)
    requires OutsideEnabled(sh, step) && SharedHonest(sh, held)
    ensures SharedHonest(OutsideApply(sh, step), Remembered(held, Outside(step), OutsideApply(sh, step)))
  {
    var next := OutsideApply(sh, step);
    if step.Decide? && sh.streamOpen {
      assert Undelivered(next) == Undelivered(sh) + [Change(step.subject, step.decision)];
    }
  }

  lemma WatchStaysHonest(c: Config, sh: Shared, step: WatchStep, held: Decisions)
    requires WatchEnabled(sh, step) && SharedHonest(sh, held)
    ensures SharedHonest(WatchApply(c, sh, step), Remembered(held, OnWatch(step), WatchApply(c, sh, step)))
  {
    var next := WatchApply(c, sh, step);
    if step.TakeChange? {
      assert Undelivered(next) == Undelivered(sh);
    } else {
      assert forall change :: change in Undelivered(next) ==> change in Undelivered(sh);
    }
  }

  /** Nothing in the map is live, or on its way there, when a stream opens. */
  lemma NothingToForget(c: Config, sh: Shared, f: nat, fetch: Fetch, entry: Entry)
    requires sh.watcher.Opening? && SharedInv(sh) && Kept(sh, fetch.entry, entry)
    requires EntryInv(c, sh, fetch.entry, entry) && FetchInv(c, sh, f, fetch, entry)
    ensures Carried(fetch.phase).None?
  {
  }

  lemma EntryStaysHonest(c: Config, sh: Shared, e: nat, entry: Entry, action: EntryAction, held: Decisions)
    requires EntryEnabled(c, sh, e, entry, action) && SharedInv(sh)
    requires SharedHonest(sh, held) && EntryHonest(sh, e, entry, held)
    ensures
      var next := EntryApply(c, sh, e, entry, action);
      && SharedHonest(next.shared, held) && EntryHonest(next.shared, e, next.entry, held)
      && (next.claim.Some? ==> Carried(next.claim.value.phase).None? && next.claim.value.entry == e)
  {
    var next := EntryApply(c, sh, e, entry, action);
    if action.StoreChange? {
      assert sh.watcher.change in Undelivered(sh);
    }
    assert forall change :: change in Undelivered(next.shared) ==> change in Undelivered(sh);
  }

  lemma FetchStaysHonest(
    c: Config, sh: Shared, f: nat, fetch: Fetch, entry: Entry, spare: nat, action: FetchAction, held: Decisions)
    requires FetchEnabled(c, sh, f, fetch, entry, action) && FetchBasics(sh, fetch, entry) && FetchQueued(sh, f, fetch)
    requires SharedHonest(sh, held) && EntryHonest(sh, fetch.entry, entry, held) && FetchHonest(sh, fetch, entry, held)
    ensures
      var next := FetchApply(c, sh, f, fetch, entry, spare, action);
      && SharedHonest(next.shared, held) && EntryHonest(next.shared, fetch.entry, next.entry, held)
      && next.fetch.entry == fetch.entry && FetchHonest(next.shared, next.fetch, next.entry, held)
      && (next.retry.Some? ==> Carried(next.retry.value.phase).None? && next.retry.value.entry == fetch.entry)
  {
    var next := FetchApply(c, sh, f, fetch, entry, spare, action);
    FetchMoves(c, sh, f, fetch, entry, spare, action);
    FetchCarriesOn(c, sh, f, fetch, entry, spare, action);
    FetchKeepsIdentity(c, sh, f, fetch, entry, spare, action);
    assert Undelivered(next.shared) == Undelivered(sh);
    assert Holds(held, entry.subject, Current(sh, entry.subject));
  }

  predicate Includes(more: Decisions, held: Decisions) {
    held.allowed <= more.allowed && held.denied <= more.denied
  }

  /** Steps that touch no entry and no fetch, and keep no entry that was not kept before. */
  lemma UntouchedStaysHonest(s: State, t: State, held: Decisions, more: Decisions)
    requires Numbers(s) && Honest(s, held) && t.entries == s.entries && t.fetches == s.fetches && Numbers(t)
    requires forall e: nat :: e < |s.entries| && Kept(t.shared, e, s.entries[e]) ==> Kept(s.shared, e, s.entries[e])
    requires SharedHonest(t.shared, more) && Includes(more, held)
    ensures Honest(t, more)
  {
    forall e: nat | e < |t.entries| ensures EntryHonest(t.shared, e, t.entries[e], more) {
      assert EntryHonest(s.shared, e, s.entries[e], held);
    }
    forall f: nat | f < |t.fetches| ensures FetchHonest(t.shared, t.fetches[f], t.entries[t.fetches[f].entry], more) {
      assert FetchHonest(s.shared, s.fetches[f], s.entries[s.fetches[f].entry], held);
    }
  }

  lemma InsertStaysHonest(c: Config, s: State, subject: Subject, readAt: nat, held: Decisions)
    requires Numbers(s) && Honest(s, held) && InsertEnabled(s.shared, subject, readAt)
    requires Numbers(Apply(c, s, Insert(subject, readAt)))
    ensures Honest(Apply(c, s, Insert(subject, readAt)), held)
  {
    var t := Apply(c, s, Insert(subject, readAt));
    assert Undelivered(t.shared) == Undelivered(s.shared);
    forall e: nat | e < |t.entries| ensures EntryHonest(t.shared, e, t.entries[e], held) {
      if e < |s.entries| { assert EntryHonest(s.shared, e, s.entries[e], held); }
    }
    forall f: nat | f < |t.fetches| ensures FetchHonest(t.shared, t.fetches[f], t.entries[t.fetches[f].entry], held) {
      if f < |s.fetches| { assert FetchHonest(s.shared, s.fetches[f], s.entries[s.fetches[f].entry], held); }
    }
  }

  /** Steps on one entry, and perhaps one fetch of it, that leave both honest. */
  lemma ReplacedStaysHonest(
    s: State, e: nat, entry: Entry, f: Option<nat>, fetch: Fetch, extra: Option<Fetch>, shared: Shared, held: Decisions)
    requires Numbers(s) && Honest(s, held) && e < |s.entries| && (f.Some? ==> f.value < |s.fetches|)
    requires Numbers(Replaced(s, e, entry, f, fetch, extra, shared))
    requires entry.subject == s.entries[e].subject && shared.subjects == s.shared.subjects
    requires shared.lock.Held? && shared.lock.todo.InvalidateDue? ==> shared.lock == s.shared.lock
    requires SharedHonest(shared, held) && EntryHonest(shared, e, entry, held)
    requires f.Some? ==> fetch.entry == e && FetchHonest(shared, fetch, entry, held)
    requires extra.Some? ==> Carried(extra.value.phase).None? && extra.value.entry == e
    ensures Honest(Replaced(s, e, entry, f, fetch, extra, shared), held)
  {
    var t := Replaced(s, e, entry, f, fetch, extra, shared);
    forall e': nat | e' < |t.entries| ensures EntryHonest(t.shared, e', t.entries[e'], held) {
      assert EntryHonest(s.shared, e', s.entries[e'], held);
    }
    forall g: nat | g < |t.fetches| ensures FetchHonest(t.shared, t.fetches[g], t.entries[t.fetches[g].entry], held) {
      if g < |s.fetches| { assert FetchHonest(s.shared, s.fetches[g], s.entries[s.fetches[g].entry], held); }
    }
  }

  lemma WatchLeavesHonest(c: Config, s: State, step: WatchStep, held: Decisions)
    requires Inv(c, s) && Enabled(c, s, OnWatch(step)) && Honest(s, held)
    requires Numbers(Apply(c, s, OnWatch(step)))
    ensures Honest(Apply(c, s, OnWatch(step)), Remembered(held, OnWatch(step), Apply(c, s, OnWatch(step)).shared))
  {
    var t := Apply(c, s, OnWatch(step));
    var more := Remembered(held, OnWatch(step), t.shared);
    WatchStaysHonest(c, s.shared, step, held);
    if step.StreamOpened? {
      forall e: nat | e < |t.entries| ensures EntryHonest(t.shared, e, t.entries[e], more) {
        assert EntryInv(c, s.shared, e, s.entries[e]);
      }
      forall f: nat | f < |t.fetches| ensures FetchHonest(t.shared, t.fetches[f], t.entries[t.fetches[f].entry], more) {
        var entry := s.entries[s.fetches[f].entry];
        if Kept(s.shared, s.fetches[f].entry, entry) { NothingToForget(c, s.shared, f, s.fetches[f], entry); }
      }
    } else {
      UntouchedStaysHonest(s, t, held, more);
    }
  }

  lemma EntryLeavesHonest(c: Config, s: State, e: nat, action: EntryAction, held: Decisions)
    requires Inv(c, s) && Enabled(c, s, OnEntry(e, action)) && Honest(s, held)
    requires Numbers(Apply(c, s, OnEntry(e, action)))
    ensures Honest(Apply(c, s, OnEntry(e, action)), held)
  {
    var entry, next := s.entries[e], EntryApply(c, s.shared, e, s.entries[e], action);
    EntryActionsMove(c, s.shared, e, entry, action);
    EntryStaysHonest(c, s.shared, e, entry, action, held);
    ReplacedStaysHonest(s, e, next.entry, None, NewLookup(e, false), next.claim, next.shared, held);
  }

  lemma FetchLeavesHonest(c: Config, s: State, f: nat, action: FetchAction, held: Decisions)
    requires Inv(c, s) && Enabled(c, s, OnFetch(f, action)) && Honest(s, held)
    requires Numbers(Apply(c, s, OnFetch(f, action)))
    ensures Honest(Apply(c, s, OnFetch(f, action)), held)
  {
    var e := s.fetches[f].entry;
    assert FetchInv(c, s.shared, f, s.fetches[f], s.entries[e]);
    var next := FetchApply(c, s.shared, f, s.fetches[f], s.entries[e], |s.fetches|, action);
    FetchMoves(c, s.shared, f, s.fetches[f], s.entries[e], |s.fetches|, action);
    FetchStaysHonest(c, s.shared, f, s.fetches[f], s.entries[e], |s.fetches|, action, held);
    ReplacedStaysHonest(s, e, next.entry, Some(f), next.fetch, next.retry, next.shared, held);
  }

  lemma OutsideLeavesHonest(c: Config, s: State, step: OutsideStep, held: Decisions)
    requires Numbers(s) && Honest(s, held) && OutsideEnabled(s.shared, step)
    requires Numbers(Apply(c, s, Outside(step)))
    ensures Honest(Apply(c, s, Outside(step)), Remembered(held, Outside(step), Apply(c, s, Outside(step)).shared))
  {
    var t := Apply(c, s, Outside(step));
    OutsideStaysHonest(s.shared, step, held);
    UntouchedStaysHonest(s, t, held, Remembered(held, Outside(step), t.shared));
  }

  lemma MapLeavesHonest(c: Config, s: State, step: MapStep, held: Decisions)
    requires Numbers(s) && Honest(s, held) && MapEnabled(s.shared, step)
    requires Numbers(Apply(c, s, OnMap(step)))
    ensures Honest(Apply(c, s, OnMap(step)), held)
  {
    var t := Apply(c, s, OnMap(step));
    assert Undelivered(t.shared) == Undelivered(s.shared);
    UntouchedStaysHonest(s, t, held, held);
  }

  /** One step keeps every verdict among the decisions held since the stream opened. */
  lemma StepStaysHonest(c: Config, s: State, step: Step, held: Decisions)
    requires Inv(c, s) && Enabled(c, s, step) && Honest(s, held)
    requires Numbers(Apply(c, s, step))
    ensures Honest(Apply(c, s, step), Remembered(held, step, Apply(c, s, step).shared))
  {
    var t := Apply(c, s, step);
    var more := Remembered(held, step, t.shared);
    match step
    case Outside(outside) => OutsideLeavesHonest(c, s, outside, held);
    case OnMap(onMap) =>
      MapLeavesHonest(c, s, onMap, held);
      HonestOfMore(t, held, more);
    case OnRebuild(_) => UntouchedStaysHonest(s, t, held, more);
    case OnWatch(onWatch) => WatchLeavesHonest(c, s, onWatch, held);
    case Insert(subject, readAt) =>
      InsertStaysHonest(c, s, subject, readAt, held);
      HonestOfMore(t, held, more);
    case OnEntry(e, action) =>
      EntryLeavesHonest(c, s, e, action, held);
      HonestOfMore(t, held, more);
    case OnFetch(f, action) =>
      FetchLeavesHonest(c, s, f, action, held);
      HonestOfMore(t, held, more);
  }

  lemma HonestOfMore(s: State, held: Decisions, more: Decisions)
    requires Numbers(s) && Honest(s, held) && Includes(more, held)
    ensures Honest(s, more)
  {
    UntouchedStaysHonest(s, s, held, more);
  }

  // ---------------------------------------------------------------- whole runs

  lemma {:induction false} RunsPrefix(c: Config, start: State, steps: seq<Step>, n: nat)
    requires Runs(c, start, steps) && n < |steps|
    ensures Runs(c, start, steps[..n]) && Enabled(c, After(c, start, steps[..n]), steps[n])
    ensures Runs(c, start, steps[..n + 1])
    ensures After(c, start, steps[..n + 1]) == Apply(c, After(c, start, steps[..n]), steps[n])
    decreases n
  {
    if n == 0 {
      assert steps[..1][1..] == [];
      assert Runs(c, Apply(c, start, steps[0]), []);
    } else {
      RunsPrefix(c, Apply(c, start, steps[0]), steps[1..], n - 1);
      assert steps[..n][1..] == steps[1..][..n - 1] && steps[..n + 1][1..] == steps[1..][..n];
    }
  }

  /** At some point of the run with no later opening of a stream, the authority held this decision. */
  ghost predicate HeldSinceOpening(c: Config, start: State, steps: seq<Step>, subject: Subject, decision: Decision) {
    exists i: nat ::
      && i <= |steps| && Runs(c, start, steps[..i])
      && (forall j :: i <= j < |steps| ==> steps[j] != OnWatch(StreamOpened))
      && Current(After(c, start, steps[..i]).shared, subject) == Some(decision)
  }

  lemma StandingIsHeld(c: Config, start: State, steps: seq<Step>)
    requires Runs(c, start, steps)
    ensures
      var sh := After(c, start, steps).shared;
      && (forall x :: x in Standing(sh).allowed ==> HeldSinceOpening(c, start, steps, x, Decision.Allowed))
      && (forall x :: x in Standing(sh).denied ==> HeldSinceOpening(c, start, steps, x, Decision.Denied))
  {
    assert steps[..|steps|] == steps;
  }

  lemma HeldStaysHeld(c: Config, start: State, steps: seq<Step>, subject: Subject, decision: Decision)
    requires steps != [] && steps[|steps| - 1] != OnWatch(StreamOpened)
    requires HeldSinceOpening(c, start, steps[..|steps| - 1], subject, decision)
    ensures HeldSinceOpening(c, start, steps, subject, decision)
  {
    var before := steps[..|steps| - 1];
    var i: nat :| i <= |before| && Runs(c, start, before[..i])
                  && (forall j :: i <= j < |before| ==> before[j] != OnWatch(StreamOpened))
                  && Current(After(c, start, before[..i]).shared, subject) == Some(decision);
    assert before[..i] == steps[..i];
  }

  /** The decisions that the authority has held since the last opening of a stream in a run. */
  ghost predicate AllHeld(c: Config, start: State, steps: seq<Step>, held: Decisions) {
    && (forall x :: x in held.allowed ==> HeldSinceOpening(c, start, steps, x, Decision.Allowed))
    && (forall x :: x in held.denied ==> HeldSinceOpening(c, start, steps, x, Decision.Denied))
  }

  lemma {:induction false} RunStaysHonest(c: Config, start: State, steps: seq<Step>) returns (held: Decisions)
    requires Init(start) && Runs(c, start, steps)
    ensures Inv(c, After(c, start, steps)) && Honest(After(c, start, steps), held)
    ensures AllHeld(c, start, steps, held)
    decreases |steps|
  {
    StandingIsHeld(c, start, steps);
    InitHolds(c, start);
    RunKeeps(c, start, steps);
    if steps == [] {
      held := Standing(start.shared);
    } else {
      var n := |steps| - 1;
      RunsPrefix(c, start, steps, n);
      assert steps[..n + 1] == steps;
      var before := RunStaysHonest(c, start, steps[..n]);
      StepStaysHonest(c, After(c, start, steps[..n]), steps[n], before);
      held := Remembered(before, steps[n], After(c, start, steps).shared);
      RememberedIsHeld(c, start, steps, before);
    }
  }

  lemma RememberedIsHeld(c: Config, start: State, steps: seq<Step>, before: Decisions)
    requires steps != [] && Runs(c, start, steps) && AllHeld(c, start, steps[..|steps| - 1], before)
    ensures AllHeld(c, start, steps, Remembered(before, steps[|steps| - 1], After(c, start, steps).shared))
  {
    StandingIsHeld(c, start, steps);
    if steps[|steps| - 1] != OnWatch(StreamOpened) {
      forall x | x in before.allowed ensures HeldSinceOpening(c, start, steps, x, Decision.Allowed) {
        HeldStaysHeld(c, start, steps, x, Decision.Allowed);
      }
      forall x | x in before.denied ensures HeldSinceOpening(c, start, steps, x, Decision.Denied) {
        HeldStaysHeld(c, start, steps, x, Decision.Denied);
      }
    }
  }

  /**
   No verdict is invented, and none outlives its stream: any live verdict is a decision that the authority
   held for that very subject at some point of the run after which no new stream was opened.
   */
  lemma VerdictsAreTheAuthoritys(c: Config, start: State, steps: seq<Step>, e: nat)
    requires Init(start) && Runs(c, start, steps)
    requires e < |After(c, start, steps).entries| && Live(After(c, start, steps).entries[e])
    ensures
      var entry := After(c, start, steps).entries[e];
      && DecisionOf(entry.cell.snapshot).Some?
      && HeldSinceOpening(c, start, steps, entry.subject, DecisionOf(entry.cell.snapshot).value)
  {
    var held := RunStaysHonest(c, start, steps);
    var s := After(c, start, steps);
    assert EntryInv(c, s.shared, e, s.entries[e]);
    assert EntryHonest(s.shared, e, s.entries[e], held);
  }
}
