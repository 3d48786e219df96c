/** What the rounds of an admission are charged to, over every interleaving of callers and others. */
module GateCharges {
  import opened Options
  import opened Deadlines
  import opened GateModel
  import opened GateInvariants
  import opened GatePreservation
  import opened GateRuns
  import opened GateSolo
  import opened GateTheorems
  import opened GateDelays
  import opened GateCallers

  // ---------------------------------------------------------------- how the gate moves

  /** A resolved entry stays resolved, and its subject and epoch stay. */
  predicate Grown(entry: Entry, next: Entry) {
    && next.subject == entry.subject && next.epoch == entry.epoch
    && (!StateIn(entry).Pending? ==> !StateIn(next).Pending?)
  }

  predicate FreshlyBound(t: State, e: nat)
    requires e < |t.entries|
  {
    && Bound(t, t.entries[e].subject) == Some(e)
    && StateIn(t.entries[e]).Pending? && t.entries[e].cell.snapshot.deadline == NO_EXPIRY
  }

  /** Time and entries only grow, and the map binds a subject anew only to a new Pending entry. */
  ghost predicate Moves(s: State, t: State) {
    && |s.entries| <= |t.entries| && |s.fetches| <= |t.fetches| && s.shared.now <= t.shared.now
    && (forall e: nat :: e < |s.entries| ==> Grown(s.entries[e], t.entries[e]))
    && (forall x :: x in t.shared.subjects && t.shared.subjects[x] < |s.entries| ==> Bound(s, x) == Bound(t, x))
    && (forall e: nat :: |s.entries| <= e < |t.entries| ==> FreshlyBound(t, e))
  }

  lemma StepKeepsEpochs(c: Config, s: State, step: Step, e: nat)
    requires Inv(c, s) && Enabled(c, s, step) && e < |s.entries|
    ensures e < |Apply(c, s, step).entries| && Apply(c, s, step).entries[e].epoch == s.entries[e].epoch
  {
    StepExtends(c, s, step);
    match step
    case OnEntry(e', action) => EntryActionsMove(c, s.shared, e', s.entries[e'], action);
    case OnFetch(f, action) =>
      var g := s.fetches[f].entry;
      assert FetchInv(c, s.shared, f, s.fetches[f], s.entries[g]);
      FetchMoves(c, s.shared, f, s.fetches[f], s.entries[g], |s.fetches|, action);
    case _ =>
  }

  lemma StepKeepsBounds(c: Config, s: State, step: Step)
    requires Inv(c, s) && Enabled(c, s, step) && !step.Insert?
    ensures
      var t := Apply(c, s, step);
      && |t.entries| == |s.entries|
      && forall x :: x in t.shared.subjects ==> Bound(s, x) == Bound(t, x)
  {
    var subjects := Apply(c, s, step).shared.subjects;
    match step
    case OnFetch(f, action) =>
      FetchStepMoves(c, s, f, action);
      assert subjects == s.shared.subjects;
    case OnEntry(e, action) =>
      EntryActionsMove(c, s.shared, e, s.entries[e], action);
      assert subjects == s.shared.subjects;
    case OnWatch(onWatch) => assert subjects == WatchApply(c, s.shared, onWatch).subjects;
    case OnMap(onMap) => assert subjects == MapApply(s.shared, onMap).subjects;
    case _ =>
  }

  lemma StepMoves(c: Config, s: State, step: Step)
    requires Inv(c, s) && Enabled(c, s, step) && !step.Insert?
    ensures Moves(s, Apply(c, s, step)) && |Apply(c, s, step).entries| == |s.entries|
  {
    var t := Apply(c, s, step);
    StepExtends(c, s, step);
    StepKeepsTime(c, s, step);
    StepKeepsBounds(c, s, step);
    forall e: nat | e < |s.entries| ensures Grown(s.entries[e], t.entries[e]) {
      StepKeepsEpochs(c, s, step, e);
      if !StateIn(s.entries[e]).Pending? { StepKeepsResolved(c, s, step, e); }
    }
  }

  /** One map-lock section that inserts. */
  lemma InsertRuns(c: Config, s: State, subject: Subject, readAt: nat)
    requires s.shared.lock.Free? && subject !in s.shared.subjects && readAt <= s.shared.now
    ensures Runs(c, s, InsertSteps(subject, readAt))
    ensures
      var t := After(c, s, InsertSteps(subject, readAt));
      && t.entries == s.entries + [NewEntry(s.shared, subject, readAt, |s.fetches|)]
      && t.fetches == s.fetches + [NewLookup(|s.entries|, false)]
      && t.shared == Numbered(s.shared).(subjects := s.shared.subjects[subject := |s.entries|])
  {
    var s1 := Apply(c, s, OnMap(Acquire));
    var s2 := Apply(c, s1, Insert(subject, readAt));
    var s3 := Apply(c, s2, OnMap(Unlock));
    var steps := InsertSteps(subject, readAt);
    assert Runs(c, s3, []);
    assert Runs(c, s2, steps[2..]) && After(c, s2, steps[2..]) == s3 by { assert steps[2..][1..] == []; }
    assert Runs(c, s1, steps[1..]) && After(c, s1, steps[1..]) == s3 by { assert steps[1..][1..] == steps[2..]; }
  }

  /** What the holder of the lock owes after a pop. */
  lemma MarkRuns(c: Config, s: State, e: nat)
    requires s.shared.lock == Held(Owner.Caller, InvalidateDue(e)) && e < |s.entries|
    ensures
      var steps := [OnEntry(e, Invalidate), OnEntry(e, EmptySlot), OnMap(Unlock)];
      && Runs(c, s, steps)
      && var t := After(c, s, steps);
      && t.entries == s.entries[e := WithCell(s.shared, s.entries[e], StaleOf(s.entries[e].cell.snapshot)).(slot := None)]
      && t.fetches == s.fetches
      && t.shared == Taken(s.shared, s.entries[e]).(nextCell := s.shared.nextCell + 1, lock := Free)
  {
    var steps := [OnEntry(e, Invalidate), OnEntry(e, EmptySlot), OnMap(Unlock)];
    var s1 := Apply(c, s, steps[0]);
    assert s1.shared.lock == Held(Owner.Caller, AbortDue(e));
    var s2 := Apply(c, s1, steps[1]);
    assert s2.shared.lock == Held(Owner.Caller, Nothing);
    var s3 := Apply(c, s2, steps[2]);
    assert Runs(c, s3, []) && steps[2..][1..] == [] && steps[1..][1..] == steps[2..];
    assert Runs(c, s2, steps[2..]) && After(c, s2, steps[2..]) == s3;
    assert Runs(c, s1, steps[1..]) && After(c, s1, steps[1..]) == s3;
  }

  /** One map-lock section that takes an entry out of the map and marks it. */
  lemma RemovalRuns(c: Config, s: State, subject: Subject, e: nat)
    requires s.shared.lock.Free? && Bound(s, subject) == Some(e) && e < |s.entries|
    ensures Runs(c, s, RemovalSteps(subject, e))
    ensures
      var t := After(c, s, RemovalSteps(subject, e));
      && |t.entries| == |s.entries| && t.entries == s.entries[e := t.entries[e]] && t.fetches == s.fetches
      && t.entries[e].subject == s.entries[e].subject && t.entries[e].epoch == s.entries[e].epoch
      && t.entries[e].cell.snapshot == StaleOf(s.entries[e].cell.snapshot)
      && t.shared.subjects == s.shared.subjects - {subject} && t.shared.lock.Free?
      && t.shared.authority == s.shared.authority && t.shared.connected == s.shared.connected
      && t.shared.now == s.shared.now
  {
    var steps, rest := RemovalSteps(subject, e), [OnEntry(e, Invalidate), OnEntry(e, EmptySlot), OnMap(Unlock)];
    var s1 := Apply(c, s, OnMap(Acquire));
    var s2 := Apply(c, s1, OnMap(Pop(subject)));
    MarkRuns(c, s2, e);
    assert steps[1..][1..] == rest;
    assert Runs(c, s1, steps[1..]) && After(c, s1, steps[1..]) == After(c, s2, rest);
  }

  // ---------------------------------------------------------------- what a caller keeps

  predicate Lives(s: State, e: nat)
    requires e < |s.entries|
  {
    Live(s.entries[e]) && !Expired(s, e)
  }

  /** No deadline of the subject's entries has come since this round saw the flag up. */
  ghost predicate FreshSince(s: State, subject: Subject, since: nat) {
    forall e: nat :: e < |s.entries| && s.entries[e].subject == subject && Expired(s, e) ==>
      IsExpired(s.entries[e].cell.snapshot, s.entries[e].epoch, since)
  }

  /** What a stage has learned, as long as nothing has concerned the subject since the flag was seen up. */
  predicate Learned(s: State, caller: Caller)
    requires Named(s, caller)
  {
    match caller.stage
    case Found(e) => Bound(s, caller.subject) == Some(e)
    case InTime(e) => Bound(s, caller.subject) == Some(e)
    case Classifying(e) => Bound(s, caller.subject) == Some(e)
    case Accessing(e, late) => late || (Bound(s, caller.subject) == Some(e) && Lives(s, e))
    case Offering(e, late) => late || (Bound(s, caller.subject) == Some(e) && Lives(s, e))
    case Refreshing(e, _, late) => late || (Bound(s, caller.subject) == Some(e) && Lives(s, e))
    case Confirming(e, _, late) => late || (Bound(s, caller.subject) == Some(e) && Lives(s, e))
    case GivingBack(e, _, late, granted) => late || (granted && Bound(s, caller.subject) == Some(e) && Lives(s, e))
    case LoadingSlot(e) => Bound(s, caller.subject) == Some(e) && StateIn(s.entries[e]).Pending?
    case Rechecking(e, f) => Bound(s, caller.subject) == Some(e) && AwaitsLookup(s.entries[e], f)
    case Matching(e, f) => Bound(s, caller.subject) == Some(e) && AwaitsLookup(s.entries[e], f)
    case Awaiting(e, f) => Bound(s, caller.subject) == Some(e) && AwaitsLookup(s.entries[e], f)
    case Removing(e) => Bound(s, caller.subject) == Some(e) && Dead(s, e)
    case Discarding(_) => false
    case Completed(_, _) => false
    case Rereading(_, _) => false
    case Sleeping(_) => false
    case _ => true
  }

  predicate AwaitsLookup(entry: Entry, f: nat) {
    StateIn(entry).Pending? && entry.slot == Some(f)
  }

  ghost predicate StillTrue(s: State, caller: Caller)
    requires Named(s, caller)
  {
    s.shared.connected && FreshSince(s, caller.subject, caller.since) && Learned(s, caller)
  }

  /** A handle is only offered for a resolved entry. */
  predicate OffersResolved(s: State, stage: Stage)
    requires EntryOf(stage).Some? ==> EntryOf(stage).value < |s.entries|
  {
    match stage
    case Offering(e, _) => !StateIn(s.entries[e]).Pending?
    case Refreshing(e, _, _) => !StateIn(s.entries[e]).Pending?
    case Confirming(e, _, _) => !StateIn(s.entries[e]).Pending?
    case GivingBack(e, _, _, granted) => granted ==> !StateIn(s.entries[e]).Pending?
    case Ended(Admitted(e)) => !StateIn(s.entries[e]).Pending?
    case _ => true
  }

  function One(b: bool): nat {
    if b then 1 else 0
  }

  /** The receiver has a version to catch up with while the flag is up. */
  predicate Behind(s: State, sends: nat, caller: Caller) {
    s.shared.connected && caller.seen != sends
  }

  /** The map holds a dead entry for the subject. */
  predicate DeadBound(s: State, subject: Subject) {
    Bound(s, subject).Some? && Bound(s, subject).value < |s.entries| && Dead(s, Bound(s, subject).value)
  }

  /** Something has concerned the subject since this round saw the flag up. */
  predicate Disturbed(caller: Caller) {
    PastConnect(caller.stage) && !caller.quiet
  }

  /** Every round that has ended is paid for, and so is every stale entry that was or is in the way. */
  predicate Paid(s: State, sends: nat, caller: Caller) {
    && caller.rounds + One(Disturbed(caller)) + One(Behind(s, sends, caller))
       <= 1 + caller.foreign + caller.removals + caller.missed
    && caller.removals + One(DeadBound(s, caller.subject)) <= 1 + caller.marks
    && caller.missed <= 1
  }

  predicate Bounded(caller: Caller) {
    caller.rounds <= 2 + caller.foreign + caller.marks + caller.missed && caller.missed <= 1
  }

  ghost predicate CallerInv(s: State, sends: nat, caller: Caller) {
    && Named(s, caller) && OffersResolved(s, caller.stage)
    && (PastConnect(caller.stage) ==> caller.since <= s.shared.now)
    && (if caller.stage.Ended? then Bounded(caller) else caller.seen <= sends && Paid(s, sends, caller))
    && (PastConnect(caller.stage) && caller.quiet ==> StillTrue(s, caller))
  }

  // ---------------------------------------------------------------- others' moves

  /** A value sent on the flag puts it up when it was down, or leaves it down. */
  predicate Sent(s: State, t: State, sends: nat, sends': nat) {
    || (sends' == sends && t.shared.connected == s.shared.connected)
    || (sends' == sends + 1 && (t.shared.connected ==> !s.shared.connected))
  }

  /** A new entry for the subject concerns it. */
  lemma UnconcernedIsOld(c: Config, s: State, t: State, subject: Subject)
    requires Inv(c, s) && Moves(s, t) && !Concerns(s, t, subject)
    ensures forall e: nat :: e < |t.entries| && t.entries[e].subject == subject ==> e < |s.entries|
  {
    forall e: nat | |s.entries| <= e < |t.entries| ensures t.entries[e].subject != subject {
      assert FreshlyBound(t, e);
      assert Bound(s, subject).Some? ==> Bound(s, subject).value < |s.entries|;
    }
  }

  lemma UnconcernedStaysTrue(c: Config, s: State, t: State, caller: Caller)
    requires Inv(c, s) && Moves(s, t) && Named(s, caller) && Named(t, caller)
    requires StillTrue(s, caller) && !Concerns(s, t, caller.subject)
    ensures StillTrue(t, caller)
  {
    UnconcernedIsOld(c, s, t, caller.subject);
    forall e: nat | e < |t.entries| && t.entries[e].subject == caller.subject
      ensures s.entries[e].subject == caller.subject && !Touched(s, t, e)
      ensures t.entries[e].epoch == s.entries[e].epoch
    {
      assert Grown(s.entries[e], t.entries[e]);
    }
  }

  lemma DeathsAreMarked(c: Config, s: State, t: State, subject: Subject)
    requires Inv(c, s) && Inv(c, t) && Moves(s, t) && DeadBound(t, subject) && !DeadBound(s, subject)
    ensures Marked(s, t, subject)
  {
    var e := t.shared.subjects[subject];
    assert t.entries[e].subject == subject;
    assert e >= |s.entries| ==> FreshlyBound(t, e);
    assert Bound(s, subject) == Bound(t, subject);
    assert Grown(s.entries[e], t.entries[e]);
  }

  lemma NoticedKeeps(c: Config, s: State, t: State, sends: nat, sends': nat, caller: Caller)
    requires Inv(c, s) && Inv(c, t) && Moves(s, t) && Sent(s, t, sends, sends')
    requires CallerInv(s, sends, caller)
    ensures CallerInv(t, sends', Noticed(s, t, caller))
  {
    var next := Noticed(s, t, caller);
    assert Named(t, next) by {
      if EntryOf(caller.stage).Some? {
        assert Grown(s.entries[EntryOf(caller.stage).value], t.entries[EntryOf(caller.stage).value]);
      }
    }
    if !caller.stage.Ended? {
      if DeadBound(t, caller.subject) && !DeadBound(s, caller.subject) { DeathsAreMarked(c, s, t, caller.subject); }
      if PastConnect(caller.stage) && next.quiet {
        UnconcernedStaysTrue(c, s, t, caller);
        assert StillTrue(t, next);
      }
    }
  }

  // ---------------------------------------------------------------- a caller's own actions

  /**
   What the end of a round is charged to: a step of others that concerned the subject since the round saw
   the flag up, a dead entry that the caller has taken out of the map, or a version of the flag that its
   receiver had yet to see.
   */
  predicate Charged(s: State, sends: nat, caller: Caller, act: Act, effect: Effect) {
    || !caller.quiet
    || (act.Remove? && effect.steps != [])
    || (act.Interrupt? && Behind(s, sends, caller))
  }

  ghost predicate KeepsCaller(s: State, t: State, sends: nat, caller: Caller, act: Act, effect: Effect) {
    CallerInv(t, sends, effect.caller) && (effect.again ==> Charged(s, sends, caller, act, effect))
  }

  /** A Pending entry that a quiet caller has matched with its lookup is still being looked up. */
  lemma AwaitedIsInFlight(c: Config, s: State, caller: Caller)
    requires Inv(c, s) && Named(s, caller) && caller.stage.Awaiting? && StillTrue(s, caller)
    ensures !s.fetches[caller.stage.f].phase.Finished? && !s.fetches[caller.stage.f].aborted
    ensures !s.shared.watcher.Gone?
  {
    var e, f := caller.stage.e, caller.stage.f;
    assert s.fetches[f].entry == e;
    assert FetchInv(c, s.shared, f, s.fetches[f], s.entries[e]);
  }

  /** Up to the connection: nothing has been learned yet. */
  lemma ConnectingActKeeps(c: Config, a: AdmitConfig, s: State, sends: nat, caller: Caller, act: Act)
    requires CallerInv(s, sends, caller) && Attempt(c, a, s, sends, caller, act).Some?
    requires act.ReadDeadline? || act.CheckClock? || act.NoticeChange? || act.NoticeUp? || act.NoticeClosed?
    ensures
      var effect := Attempt(c, a, s, sends, caller, act).value;
      effect.steps == [] && KeepsCaller(s, s, sends, caller, act, effect)
  {
  }

  /** Actions that look at nothing but the clock. */
  lemma ClockActKeeps(c: Config, a: AdmitConfig, s: State, sends: nat, caller: Caller, act: Act)
    requires CallerInv(s, sends, caller) && Attempt(c, a, s, sends, caller, act).Some?
    requires act.RunOut? || act.CheckDeadline?
    ensures
      var effect := Attempt(c, a, s, sends, caller, act).value;
      effect.steps == [] && KeepsCaller(s, s, sends, caller, act, effect)
  {
  }

  /** After a lookup the flag is looked at again. */
  lemma AfterFetchKeeps(c: Config, a: AdmitConfig, s: State, sends: nat, caller: Caller, act: Act)
    requires CallerInv(s, sends, caller) && Attempt(c, a, s, sends, caller, act).Some?
    requires act.AfterFetch?
    ensures
      var effect := Attempt(c, a, s, sends, caller, act).value;
      effect.steps == [] && KeepsCaller(s, s, sends, caller, act, effect)
  {
  }

  /** A retry's sleep ends. */
  lemma WakeUpKeeps(c: Config, a: AdmitConfig, s: State, sends: nat, caller: Caller, act: Act)
    requires CallerInv(s, sends, caller) && Attempt(c, a, s, sends, caller, act).Some?
    requires act.WakeUp?
    ensures
      var effect := Attempt(c, a, s, sends, caller, act).value;
      effect.steps == [] && KeepsCaller(s, s, sends, caller, act, effect)
  {
  }

  /** Actions that hand out a verdict already checked. */
  lemma OfferingActKeeps(c: Config, a: AdmitConfig, s: State, sends: nat, caller: Caller, act: Act)
    requires CallerInv(s, sends, caller) && Attempt(c, a, s, sends, caller, act).Some?
    requires act.Keep? || act.Unclaimed? || act.HandedOver?
    ensures
      var effect := Attempt(c, a, s, sends, caller, act).value;
      effect.steps == [] && KeepsCaller(s, s, sends, caller, act, effect)
  {
  }

  /** Actions that look at the entry's slot. */
  lemma SlotActKeeps(c: Config, a: AdmitConfig, s: State, sends: nat, caller: Caller, act: Act)
    requires SlotsNumbered(s.entries, s.fetches) && CallerInv(s, sends, caller)
    requires Attempt(c, a, s, sends, caller, act).Some?
    requires act.LoadSlot? || act.Match?
    requires EntryOf(caller.stage).Some? ==> EntryBasics(s.shared, s.entries[EntryOf(caller.stage).value])
    ensures
      var effect := Attempt(c, a, s, sends, caller, act).value;
      effect.steps == [] && KeepsCaller(s, s, sends, caller, act, effect)
  {
  }

  /** Actions that end the wait for a lookup. */
  lemma WaitingActKeeps(c: Config, a: AdmitConfig, s: State, sends: nat, caller: Caller, act: Act)
    requires CallerInv(s, sends, caller) && Attempt(c, a, s, sends, caller, act).Some?
    requires act.Interrupt? || act.SeeAbort? || act.Complete?
    requires caller.quiet ==>
               && !s.fetches[caller.stage.f].phase.Finished? && !s.fetches[caller.stage.f].aborted
               && !s.shared.watcher.Gone?
    ensures
      var effect := Attempt(c, a, s, sends, caller, act).value;
      effect.steps == [] && KeepsCaller(s, s, sends, caller, act, effect)
  {
  }

  lemma WaitingActHolds(c: Config, a: AdmitConfig, s: State, sends: nat, caller: Caller, act: Act)
    requires Inv(c, s) && CallerInv(s, sends, caller) && Attempt(c, a, s, sends, caller, act).Some?
    requires act.Interrupt? || act.SeeAbort? || act.Complete?
    ensures
      var effect := Attempt(c, a, s, sends, caller, act).value;
      effect.steps == [] && KeepsCaller(s, s, sends, caller, act, effect)
  {
    if caller.quiet { AwaitedIsInFlight(c, s, caller); }
    WaitingActKeeps(c, a, s, sends, caller, act);
  }

  /** What a reading does to the gate: an expired entry is marked, and nothing else. */
  ghost predicate WasRead(s: State, t: State, e: nat, readAt: nat)
    requires e < |s.entries|
  {
    var entry := s.entries[e];
    && t.shared == s.shared.(nextCell := t.shared.nextCell) && t.fetches == s.fetches && |t.entries| == |s.entries|
    && (|| t.entries == s.entries
        || (&& IsExpired(entry.cell.snapshot, entry.epoch, readAt)
            && t.entries == s.entries[e := entry.(cell := Cell(s.shared.nextCell, StaleOf(entry.cell.snapshot)))]))
  }

  lemma ReadRuns(c: Config, s: State, e: nat, readAt: nat)
    requires e < |s.entries| && readAt <= s.shared.now
    ensures Runs(c, s, ReadSteps(s, e, readAt)) && WasRead(s, After(c, s, ReadSteps(s, e, readAt)), e, readAt)
  {
    var steps := ReadSteps(s, e, readAt);
    if steps != [] {
      var t := Apply(c, s, steps[0]);
      assert steps[1..] == [] && Runs(c, t, []) && After(c, t, []) == t;
    }
  }

  /** A reading brings no entry closer to its end than the clock has. */
  lemma ReadChangesNoFate(s: State, t: State, e: nat, readAt: nat, subject: Subject, since: nat)
    requires e < |s.entries| && WasRead(s, t, e, readAt) && readAt <= s.shared.now
    ensures DeadBound(t, subject) == DeadBound(s, subject)
    ensures FreshSince(s, subject, since) ==> FreshSince(t, subject, since)
    ensures Bound(t, subject) == Bound(s, subject) && Dead(t, e) == Dead(s, e)
    ensures forall x: nat :: x < |s.entries| ==> Grown(s.entries[x], t.entries[x])
  {
    TickIsMonotone(s.entries[e].epoch, readAt, s.shared.now);
  }

  /** What a reading taken since the flag was seen up finds is what the entry is, as far as expiry goes. */
  lemma ReadingIsCurrent(s: State, caller: Caller, e: nat, readAt: nat)
    requires Named(s, caller) && StillTrue(s, caller) && Readable(s, caller, readAt)
    requires e < |s.entries| && s.entries[e].subject == caller.subject
    ensures IsExpired(s.entries[e].cell.snapshot, s.entries[e].epoch, readAt) == Expired(s, e)
  {
    TickIsMonotone(s.entries[e].epoch, caller.since, readAt);
    TickIsMonotone(s.entries[e].epoch, readAt, s.shared.now);
  }

  lemma ClassifyKeeps(c: Config, a: AdmitConfig, s: State, t: State, sends: nat, caller: Caller, readAt: nat)
    requires CallerInv(s, sends, caller) && Attempt(c, a, s, sends, caller, Classify(readAt)).Some?
    requires WasRead(s, t, caller.stage.e, readAt)
    ensures KeepsCaller(s, t, sends, caller, Classify(readAt), Attempt(c, a, s, sends, caller, Classify(readAt)).value)
  {
    var e := caller.stage.e;
    ReadChangesNoFate(s, t, e, readAt, caller.subject, caller.since);
    if caller.quiet { ReadingIsCurrent(s, caller, e, readAt); }
  }

  /** What holds of a caller in the middle of a round whatever its stage has learned. */
  ghost predicate MidRound(s: State, sends: nat, caller: Caller) {
    && PastConnect(caller.stage) && caller.since <= s.shared.now && caller.seen <= sends && Paid(s, sends, caller)
    && (caller.quiet ==> s.shared.connected && FreshSince(s, caller.subject, caller.since))
  }

  lemma ReadKeepsMidRound(s: State, t: State, sends: nat, caller: Caller, e: nat, readAt: nat)
    requires e < |s.entries| && WasRead(s, t, e, readAt) && readAt <= s.shared.now && MidRound(s, sends, caller)
    ensures MidRound(t, sends, caller)
  {
    ReadChangesNoFate(s, t, e, readAt, caller.subject, caller.since);
  }

  lemma NextStageHolds(s: State, sends: nat, caller: Caller, stage: Stage)
    requires MidRound(s, sends, caller) && PastConnect(stage)
    requires Named(s, caller.(stage := stage)) && OffersResolved(s, stage)
    requires caller.quiet ==> Learned(s, caller.(stage := stage))
    ensures CallerInv(s, sends, caller.(stage := stage))
  {
  }

  lemma NextRoundHolds(s: State, sends: nat, caller: Caller)
    requires MidRound(s, sends, caller) && !caller.quiet
    ensures CallerInv(s, sends, Round([], caller).caller)
  {
  }

  lemma EndHolds(s: State, sends: nat, caller: Caller, outcome: Outcome)
    requires MidRound(s, sends, caller) && Named(s, caller.(stage := Ended(outcome))) && OffersResolved(s, Ended(outcome))
    ensures CallerInv(s, sends, caller.(stage := Ended(outcome)))
  {
  }

  /** A verdict read at `readAt` is left as it is, and still stands if nothing has disturbed the round. */
  lemma VerdictIsLeft(s: State, t: State, caller: Caller, e: nat, readAt: nat)
    requires e < |s.entries| && WasRead(s, t, e, readAt) && Readable(s, caller, readAt)
    requires Named(s, caller) && s.entries[e].subject == caller.subject && StateAt(s.entries[e], readAt).IsVerdict()
    ensures t.entries == s.entries && Live(t.entries[e])
    ensures StillTrue(s, caller) ==> Lives(t, e)
  {
    if StillTrue(s, caller) { ReadingIsCurrent(s, caller, e, readAt); }
  }

  /** A verdict check hands the entry on resolved, ends the call, or ends a disturbed round. */
  lemma VerdictOrElseKeeps(
    s: State, t: State, sends: nat, caller: Caller, e: nat, late: bool, readAt: nat, then': Stage)
    requires CallerInv(s, sends, caller) && Readable(s, caller, readAt)
    requires
      caller.stage == Accessing(e, late)
      || (caller.stage.Confirming? && caller.stage.e == e && caller.stage.late == late)
    requires then' == Ended(Admitted(e)) || then' == Offering(e, late)
    requires WasRead(s, t, e, readAt)
    ensures
      var effect := VerdictOrElse(s, caller, e, late, readAt, then');
      CallerInv(t, sends, effect.caller) && (effect.again ==> !caller.quiet)
  {
    ReadKeepsMidRound(s, t, sends, caller, e, readAt);
    if caller.quiet && !late { ReadingIsCurrent(s, caller, e, readAt); }
    if StateAt(s.entries[e], readAt).IsVerdict() {
      VerdictIsLeft(s, t, caller, e, readAt);
      if then'.Ended? { EndHolds(t, sends, caller, Admitted(e)); } else { NextStageHolds(t, sends, caller, then'); }
    } else if late {
      EndHolds(t, sends, caller, TimedOut);
    } else {
      NextRoundHolds(t, sends, caller);
    }
  }

  lemma AccessKeeps(c: Config, a: AdmitConfig, s: State, t: State, sends: nat, caller: Caller, readAt: nat)
    requires CallerInv(s, sends, caller) && Attempt(c, a, s, sends, caller, Access(readAt)).Some?
    requires WasRead(s, t, caller.stage.e, readAt)
    ensures KeepsCaller(s, t, sends, caller, Access(readAt), Attempt(c, a, s, sends, caller, Access(readAt)).value)
  {
    var e, late := caller.stage.e, caller.stage.late;
    var offered := if c.refreshBefore == 0 then Ended(Admitted(e)) else Offering(e, late);
    VerdictOrElseKeeps(s, t, sends, caller, e, late, readAt, offered);
  }

  /** The last look at the entry before a claim that was given up is released. */
  lemma LastLookKeeps(s: State, t: State, sends: nat, caller: Caller, readAt: nat)
    requires CallerInv(s, sends, caller) && Readable(s, caller, readAt) && caller.stage.Confirming?
    requires WasRead(s, t, caller.stage.e, readAt)
    ensures
      var granted := StateAt(s.entries[caller.stage.e], readAt).IsVerdict();
      CallerInv(t, sends, caller.(stage := GivingBack(caller.stage.e, caller.stage.f, caller.stage.late, granted)))
  {
    var e, f, late := caller.stage.e, caller.stage.f, caller.stage.late;
    ReadKeepsMidRound(s, t, sends, caller, e, readAt);
    if caller.quiet && !late { ReadingIsCurrent(s, caller, e, readAt); }
    if StateAt(s.entries[e], readAt).IsVerdict() {
      VerdictIsLeft(s, t, caller, e, readAt);
      NextStageHolds(t, sends, caller, GivingBack(e, f, late, true));
    } else {
      NextStageHolds(t, sends, caller, GivingBack(e, f, late, false));
    }
  }

  lemma ConfirmKeeps(c: Config, a: AdmitConfig, s: State, t: State, sends: nat, caller: Caller, readAt: nat)
    requires CallerInv(s, sends, caller) && Attempt(c, a, s, sends, caller, Confirm(readAt)).Some?
    requires WasRead(s, t, caller.stage.e, readAt)
    ensures KeepsCaller(s, t, sends, caller, Confirm(readAt), Attempt(c, a, s, sends, caller, Confirm(readAt)).value)
  {
    if s.fetches[caller.stage.f].phase.Dropping? {
      LastLookKeeps(s, t, sends, caller, readAt);
    } else {
      VerdictOrElseKeeps(s, t, sends, caller, caller.stage.e, caller.stage.late, readAt, Ended(Admitted(caller.stage.e)));
    }
  }

  lemma RecheckStateKeeps(c: Config, a: AdmitConfig, s: State, t: State, sends: nat, caller: Caller, readAt: nat)
    requires CallerInv(s, sends, caller) && Attempt(c, a, s, sends, caller, RecheckState(readAt)).Some?
    requires WasRead(s, t, caller.stage.e, readAt)
    requires EntryBasics(s.shared, s.entries[caller.stage.e])
    ensures
      var act := RecheckState(readAt);
      KeepsCaller(s, t, sends, caller, act, Attempt(c, a, s, sends, caller, act).value)
  {
    var e := caller.stage.e;
    ReadChangesNoFate(s, t, e, readAt, caller.subject, caller.since);
    if caller.quiet { ReadingIsCurrent(s, caller, e, readAt); }
  }

  lemma AfterLookupKeeps(
    a: AdmitConfig, s: State, t: State, sends: nat, caller: Caller, e: nat, result: FetchResult, readAt: nat)
    requires CallerInv(s, sends, caller) && Readable(s, caller, readAt)
    requires caller.stage == Rereading(e, result) && WasRead(s, t, e, readAt)
    ensures
      var effect := AfterLookup(a, s, caller, e, result, readAt);
      CallerInv(t, sends, effect.caller) && (effect.again ==> !caller.quiet)
  {
    ReadKeepsMidRound(s, t, sends, caller, e, readAt);
    if StateAt(s.entries[e], readAt).IsVerdict() {
      VerdictIsLeft(s, t, caller, e, readAt);
      NextStageHolds(t, sends, caller, Accessing(e, false));
    } else if result.Succeeded? {
      NextRoundHolds(t, sends, caller);
    } else if !result.error.Transient? {
      EndHolds(t, sends, caller, Refused);
    } else {
      var slower := Asleep(a, s, caller, []).caller;
      NextStageHolds(t, sends, slower.(stage := caller.stage), slower.stage);
    }
  }

  lemma RereadKeeps(c: Config, a: AdmitConfig, s: State, t: State, sends: nat, caller: Caller, readAt: nat)
    requires CallerInv(s, sends, caller) && Attempt(c, a, s, sends, caller, Reread(readAt)).Some?
    requires WasRead(s, t, caller.stage.e, readAt)
    ensures KeepsCaller(s, t, sends, caller, Reread(readAt), Attempt(c, a, s, sends, caller, Reread(readAt)).value)
  {
    AfterLookupKeeps(a, s, t, sends, caller, caller.stage.e, caller.stage.result, readAt);
  }

  /** An action can be taken whenever it is attempted, and it moves the gate without touching the flag. */
  ghost predicate Takes(c: Config, s: State, effect: Effect) {
    && Runs(c, s, effect.steps)
    && Moves(s, After(c, s, effect.steps)) && After(c, s, effect.steps).shared.connected == s.shared.connected
  }

  lemma StandingStillTakes(c: Config, s: State, effect: Effect)
    requires effect.steps == []
    ensures Takes(c, s, effect) && After(c, s, effect.steps) == s
  {
  }

  lemma ReadTakes(c: Config, s: State, effect: Effect, e: nat, readAt: nat)
    requires e < |s.entries| && readAt <= s.shared.now && effect.steps == ReadSteps(s, e, readAt)
    ensures Takes(c, s, effect) && WasRead(s, After(c, s, effect.steps), e, readAt)
  {
    ReadRuns(c, s, e, readAt);
    ReadChangesNoFate(s, After(c, s, effect.steps), e, readAt, 0, 0);
  }

  lemma InsertTakes(c: Config, s: State, effect: Effect, subject: Subject, readAt: nat)
    requires s.shared.lock.Free? && subject !in s.shared.subjects && readAt <= s.shared.now
    requires effect.steps == InsertSteps(subject, readAt)
    ensures Takes(c, s, effect)
  {
    InsertRuns(c, s, subject, readAt);
  }

  lemma RemovalTakes(c: Config, s: State, effect: Effect, subject: Subject, e: nat)
    requires s.shared.lock.Free? && Bound(s, subject) == Some(e) && e < |s.entries|
    requires effect.steps == RemovalSteps(subject, e)
    ensures Takes(c, s, effect) && After(c, s, effect.steps).fetches == s.fetches
  {
    RemovalRuns(c, s, subject, e);
  }

  lemma InsertKeepsCaller(c: Config, s: State, sends: nat, caller: Caller, readAt: nat)
    requires Points(s.entries, s.shared.subjects) && CallerInv(s, sends, caller) && caller.stage.Finding?
    requires s.shared.lock.Free? && caller.subject !in s.shared.subjects && readAt <= s.shared.now
    ensures Runs(c, s, InsertSteps(caller.subject, readAt))
    ensures CallerInv(After(c, s, InsertSteps(caller.subject, readAt)), sends, caller.(stage := Found(|s.entries|)))
  {
    InsertRuns(c, s, caller.subject, readAt);
    var t := After(c, s, InsertSteps(caller.subject, readAt));
    assert !DeadBound(t, caller.subject);
    assert MidRound(t, sends, caller);
    NextStageHolds(t, sends, caller, Found(|s.entries|));
  }

  lemma FindKeeps(c: Config, a: AdmitConfig, s: State, sends: nat, caller: Caller, readAt: nat)
    requires Points(s.entries, s.shared.subjects) && CallerInv(s, sends, caller)
    requires Attempt(c, a, s, sends, caller, Find(readAt)).Some?
    ensures
      var effect := Attempt(c, a, s, sends, caller, Find(readAt)).value;
      Takes(c, s, effect) && CallerInv(After(c, s, effect.steps), sends, effect.caller) && !effect.again
  {
    var effect := Attempt(c, a, s, sends, caller, Find(readAt)).value;
    if Bound(s, caller.subject).Some? {
      StandingStillTakes(c, s, effect);
      NextStageHolds(s, sends, caller, Found(Bound(s, caller.subject).value));
    } else {
      InsertTakes(c, s, effect, caller.subject, readAt);
      InsertKeepsCaller(c, s, sends, caller, readAt);
    }
  }

  /** Taking out an entry of the subject ends a round that was disturbed, or pays for the end itself. */
  lemma RemovalKeepsCaller(c: Config, s: State, sends: nat, caller: Caller, e: nat)
    requires CallerInv(s, sends, caller) && (caller.stage == Discarding(e) || caller.stage == Removing(e))
    requires s.shared.lock.Free? && Bound(s, caller.subject) == Some(e)
    requires caller.stage.Removing? ==> Dead(s, e)
    ensures Runs(c, s, RemovalSteps(caller.subject, e))
    ensures
      var removals := caller.removals + One(caller.stage.Removing?);
      CallerInv(After(c, s, RemovalSteps(caller.subject, e)), sends, Round([], caller.(removals := removals)).caller)
  {
    RemovalRuns(c, s, caller.subject, e);
  }

  lemma DiscardKeeps(c: Config, a: AdmitConfig, s: State, sends: nat, caller: Caller)
    requires CallerInv(s, sends, caller) && Attempt(c, a, s, sends, caller, Discard).Some?
    ensures
      var effect := Attempt(c, a, s, sends, caller, Discard).value;
      Takes(c, s, effect) && KeepsCaller(s, After(c, s, effect.steps), sends, caller, Discard, effect)
  {
    var effect, e := Attempt(c, a, s, sends, caller, Discard).value, caller.stage.e;
    if Bound(s, caller.subject) == Some(e) {
      RemovalTakes(c, s, effect, caller.subject, e);
      RemovalKeepsCaller(c, s, sends, caller, e);
    } else {
      StandingStillTakes(c, s, effect);
      NextRoundHolds(s, sends, caller);
    }
  }

  lemma RemoveKeeps(c: Config, a: AdmitConfig, s: State, sends: nat, caller: Caller, readAt: nat)
    requires CallerInv(s, sends, caller) && Attempt(c, a, s, sends, caller, Remove(readAt)).Some?
    ensures
      var effect := Attempt(c, a, s, sends, caller, Remove(readAt)).value;
      Takes(c, s, effect) && KeepsCaller(s, After(c, s, effect.steps), sends, caller, Remove(readAt), effect)
  {
    var effect, e := Attempt(c, a, s, sends, caller, Remove(readAt)).value, caller.stage.e;
    TickIsMonotone(s.entries[e].epoch, readAt, s.shared.now);
    if caller.quiet { ReadingIsCurrent(s, caller, e, readAt); }
    if effect.steps != [] {
      RemovalTakes(c, s, effect, caller.subject, e);
      RemovalKeepsCaller(c, s, sends, caller, e);
    } else {
      StandingStillTakes(c, s, effect);
      NextRoundHolds(s, sends, caller);
    }
  }

  /** Cells, map, flag and clock are as they were. */
  ghost predicate SameCells(s: State, t: State) {
    && t.shared.connected == s.shared.connected && t.shared.now == s.shared.now && t.shared.subjects == s.shared.subjects
    && |t.entries| == |s.entries| && |s.fetches| <= |t.fetches|
    && (forall e: nat :: e < |s.entries| ==>
          && t.entries[e].cell == s.entries[e].cell && t.entries[e].subject == s.entries[e].subject
          && t.entries[e].epoch == s.entries[e].epoch)
  }

  lemma SameCellsKeep(s: State, t: State, sends: nat, caller: Caller)
    requires CallerInv(s, sends, caller) && PastConnect(caller.stage) && SameCells(s, t)
    ensures MidRound(t, sends, caller) && Moves(s, t)
    ensures OffersResolved(t, caller.stage)
    ensures forall e: nat :: e < |s.entries| && Lives(s, e) ==> Lives(t, e)
  {
    assert forall e: nat :: e < |s.entries| ==> Expired(t, e) == Expired(s, e);
  }

  lemma ClaimActionsKeepCells(
    c: Config, sh: Shared, f: nat, fetch: Fetch, entry: Entry, spare: nat, action: FetchAction)
    requires FetchEnabled(c, sh, f, fetch, entry, action) && (IsClaimAction(action) || action.DropClaim?)
    ensures
      var next := FetchApply(c, sh, f, fetch, entry, spare, action);
      && next.entry == entry.(slot := next.entry.slot) && next.retry.None?
      && next.shared == sh.(queue := next.shared.queue)
  {
  }

  lemma OneStepRuns(c: Config, s: State, step: Step)
    requires Enabled(c, s, step)
    ensures Runs(c, s, [step]) && After(c, s, [step]) == Apply(c, s, step)
  {
    var t := Apply(c, s, step);
    assert [step][1..] == [] && Runs(c, t, []);
  }

  /** The actions of a refresh claim, and seeing the flag up, leave every cell alone. */
  lemma QuietActTakes(c: Config, a: AdmitConfig, s: State, sends: nat, caller: Caller, act: Act)
    requires CallerInv(s, sends, caller) && Attempt(c, a, s, sends, caller, act).Some?
    requires act.LoadCurrent? || act.Claiming? || (act.ReadFlag? && s.shared.connected)
    ensures
      var effect := Attempt(c, a, s, sends, caller, act).value;
      && Runs(c, s, effect.steps) && SameCells(s, After(c, s, effect.steps)) && !effect.again
      && (act.LoadCurrent? ==> |After(c, s, effect.steps).fetches| == |s.fetches| + 1)
  {
    var effect := Attempt(c, a, s, sends, caller, act).value;
    OneStepRuns(c, s, effect.steps[0]);
    if act.Claiming? {
      var f := caller.stage.f;
      ClaimActionsKeepCells(c, s.shared, f, s.fetches[f], s.entries[s.fetches[f].entry], |s.fetches|, act.action);
    }
  }

  lemma QuietActKeeps(c: Config, a: AdmitConfig, s: State, sends: nat, caller: Caller, act: Act)
    requires CallerInv(s, sends, caller) && Attempt(c, a, s, sends, caller, act).Some?
    requires act.LoadCurrent? || act.Claiming? || act.ReadFlag?
    ensures
      var effect := Attempt(c, a, s, sends, caller, act).value;
      Takes(c, s, effect) && CallerInv(After(c, s, effect.steps), sends, effect.caller) && !effect.again
  {
    var effect := Attempt(c, a, s, sends, caller, act).value;
    if act.ReadFlag? && !s.shared.connected {
      StandingStillTakes(c, s, effect);
      NextStageHolds(s, sends, caller, effect.caller.stage);
    } else {
      QuietActTakes(c, a, s, sends, caller, act);
      var t := After(c, s, effect.steps);
      SameCellsKeep(s, t, sends, caller);
      NextStageHolds(t, sends, caller, effect.caller.stage);
    }
  }

  predicate IsReadAct(act: Act) {
    act.Classify? || act.Access? || act.Confirm? || act.RecheckState? || act.Reread?
  }

  lemma MapActKeeps(c: Config, a: AdmitConfig, s: State, sends: nat, caller: Caller, act: Act)
    requires Inv(c, s) && CallerInv(s, sends, caller) && Attempt(c, a, s, sends, caller, act).Some?
    requires act.Find? || act.Discard? || act.Remove?
    ensures
      var effect := Attempt(c, a, s, sends, caller, act).value;
      Takes(c, s, effect) && KeepsCaller(s, After(c, s, effect.steps), sends, caller, act, effect)
  {
    match act
    case Find(readAt) => FindKeeps(c, a, s, sends, caller, readAt);
    case Discard => DiscardKeeps(c, a, s, sends, caller);
    case Remove(readAt) => RemoveKeeps(c, a, s, sends, caller, readAt);
  }

  lemma ReadActSteps(c: Config, a: AdmitConfig, s: State, sends: nat, caller: Caller, act: Act, readAt: nat)
    requires CallerInv(s, sends, caller) && Attempt(c, a, s, sends, caller, act).Some?
    requires IsReadAct(act) && act.readAt == readAt
    requires EntryOf(caller.stage).Some? && EntryBasics(s.shared, s.entries[EntryOf(caller.stage).value])
    ensures Readable(s, caller, readAt)
    ensures Attempt(c, a, s, sends, caller, act).value.steps == ReadSteps(s, EntryOf(caller.stage).value, readAt)
  {
  }

  lemma ReadActKeepsCaller(
    c: Config, a: AdmitConfig, s: State, t: State, sends: nat, caller: Caller, act: Act, readAt: nat)
    requires CallerInv(s, sends, caller) && Attempt(c, a, s, sends, caller, act).Some?
    requires IsReadAct(act) && act.readAt == readAt
    requires EntryOf(caller.stage).Some? && WasRead(s, t, EntryOf(caller.stage).value, readAt)
    requires EntryBasics(s.shared, s.entries[EntryOf(caller.stage).value])
    ensures KeepsCaller(s, t, sends, caller, act, Attempt(c, a, s, sends, caller, act).value)
  {
    if act.Classify? {
      ClassifyKeeps(c, a, s, t, sends, caller, readAt);
    } else if act.Access? {
      AccessKeeps(c, a, s, t, sends, caller, readAt);
    } else if act.Confirm? {
      ConfirmKeeps(c, a, s, t, sends, caller, readAt);
    } else if act.RecheckState? {
      RecheckStateKeeps(c, a, s, t, sends, caller, readAt);
    } else {
      RereadKeeps(c, a, s, t, sends, caller, readAt);
    }
  }

  lemma ReadActKeeps(c: Config, a: AdmitConfig, s: State, sends: nat, caller: Caller, act: Act)
    requires Inv(c, s) && CallerInv(s, sends, caller) && Attempt(c, a, s, sends, caller, act).Some? && IsReadAct(act)
    ensures
      var effect := Attempt(c, a, s, sends, caller, act).value;
      Takes(c, s, effect) && KeepsCaller(s, After(c, s, effect.steps), sends, caller, act, effect)
  {
    var effect := Attempt(c, a, s, sends, caller, act).value;
    var e := EntryOf(caller.stage).value;
    assert EntryInv(c, s.shared, e, s.entries[e]);
    ReadActSteps(c, a, s, sends, caller, act, act.readAt);
    ReadTakes(c, s, effect, e, act.readAt);
    ReadActKeepsCaller(c, a, s, After(c, s, effect.steps), sends, caller, act, act.readAt);
  }

  predicate IsStillAct(act: Act) {
    && !act.Find? && !act.ReadFlag? && !act.Discard? && !act.Remove? && !act.LoadCurrent? && !act.Claiming?
    && !act.Classify? && !act.Access? && !act.Confirm? && !act.RecheckState? && !act.Reread? && !act.GiveBack?
  }

  lemma StillActKeepsCaller(c: Config, a: AdmitConfig, s: State, sends: nat, caller: Caller, act: Act)
    requires Inv(c, s) && CallerInv(s, sends, caller) && Attempt(c, a, s, sends, caller, act).Some? && IsStillAct(act)
    ensures
      var effect := Attempt(c, a, s, sends, caller, act).value;
      effect.steps == [] && KeepsCaller(s, s, sends, caller, act, effect)
  {
    if act.RunOut? || act.CheckDeadline? {
      ClockActKeeps(c, a, s, sends, caller, act);
    } else if act.AfterFetch? {
      AfterFetchKeeps(c, a, s, sends, caller, act);
    } else if act.WakeUp? {
      WakeUpKeeps(c, a, s, sends, caller, act);
    } else if act.Keep? || act.Unclaimed? || act.HandedOver? {
      OfferingActKeeps(c, a, s, sends, caller, act);
    } else if act.LoadSlot? || act.Match? {
      SlotActHolds(c, a, s, sends, caller, act);
    } else if act.Interrupt? || act.SeeAbort? || act.Complete? {
      WaitingActHolds(c, a, s, sends, caller, act);
    } else {
      ConnectingActKeeps(c, a, s, sends, caller, act);
    }
  }

  lemma StillActKeeps(c: Config, a: AdmitConfig, s: State, sends: nat, caller: Caller, act: Act)
    requires Inv(c, s) && CallerInv(s, sends, caller) && Attempt(c, a, s, sends, caller, act).Some? && IsStillAct(act)
    ensures
      var effect := Attempt(c, a, s, sends, caller, act).value;
      Takes(c, s, effect) && KeepsCaller(s, After(c, s, effect.steps), sends, caller, act, effect)
  {
    StillActKeepsCaller(c, a, s, sends, caller, act);
    StandingStillTakes(c, s, Attempt(c, a, s, sends, caller, act).value);
  }

  lemma SlotActHolds(c: Config, a: AdmitConfig, s: State, sends: nat, caller: Caller, act: Act)
    requires Inv(c, s) && CallerInv(s, sends, caller) && Attempt(c, a, s, sends, caller, act).Some?
    requires act.LoadSlot? || act.Match?
    ensures
      var effect := Attempt(c, a, s, sends, caller, act).value;
      effect.steps == [] && KeepsCaller(s, s, sends, caller, act, effect)
  {
    assert EntryInv(c, s.shared, caller.stage.e, s.entries[caller.stage.e]);
    SlotActKeeps(c, a, s, sends, caller, act);
  }

  /** Whatever a caller does next, it can do it, and its own account stays in order. */
  lemma ActKeeps(c: Config, a: AdmitConfig, s: State, sends: nat, caller: Caller, act: Act)
    requires Inv(c, s) && CallerInv(s, sends, caller) && Attempt(c, a, s, sends, caller, act).Some?
    ensures
      var effect := Attempt(c, a, s, sends, caller, act).value;
      Takes(c, s, effect) && KeepsCaller(s, After(c, s, effect.steps), sends, caller, act, effect)
  {
    if IsReadAct(act) {
      ReadActKeeps(c, a, s, sends, caller, act);
    } else if act.LoadCurrent? || act.Claiming? || act.ReadFlag? {
      QuietActKeeps(c, a, s, sends, caller, act);
    } else if act.Find? || act.Discard? || act.Remove? {
      MapActKeeps(c, a, s, sends, caller, act);
    } else if act.GiveBack? {
      GiveBackKeeps(c, a, s, sends, caller);
    } else {
      StillActKeeps(c, a, s, sends, caller, act);
    }
  }

  /** Releasing the claim ends the call with the verdict already read, or without one. */
  lemma ReleaseKeeps(s: State, t: State, sends: nat, caller: Caller)
    requires CallerInv(s, sends, caller) && caller.stage.GivingBack? && SameCells(s, t)
    ensures caller.stage.granted ==> CallerInv(t, sends, caller.(stage := Ended(Admitted(caller.stage.e))))
    ensures CallerInv(t, sends, caller.(stage := Ended(TimedOut)))
    ensures !caller.stage.granted && !caller.stage.late ==> !caller.quiet && CallerInv(t, sends, Round([], caller).caller)
  {
    SameCellsKeep(s, t, sends, caller);
    EndHolds(t, sends, caller, TimedOut);
    if caller.stage.granted { EndHolds(t, sends, caller, Admitted(caller.stage.e)); }
    if !caller.stage.granted && !caller.stage.late { NextRoundHolds(t, sends, caller); }
  }

  lemma ReleaseRuns(c: Config, a: AdmitConfig, s: State, sends: nat, caller: Caller)
    requires CallerInv(s, sends, caller) && Attempt(c, a, s, sends, caller, GiveBack).Some?
    ensures
      var effect := Attempt(c, a, s, sends, caller, GiveBack).value;
      && Runs(c, s, effect.steps) && SameCells(s, After(c, s, effect.steps))
      && After(c, s, effect.steps).shared.lock == s.shared.lock
  {
    var effect := Attempt(c, a, s, sends, caller, GiveBack).value;
    if effect.steps != [] {
      var f := caller.stage.f;
      OneStepRuns(c, s, effect.steps[0]);
      ClaimActionsKeepCells(c, s.shared, f, s.fetches[f], s.entries[s.fetches[f].entry], |s.fetches|, DropClaim);
    }
  }

  lemma GiveBackKeeps(c: Config, a: AdmitConfig, s: State, sends: nat, caller: Caller)
    requires CallerInv(s, sends, caller) && Attempt(c, a, s, sends, caller, GiveBack).Some?
    ensures
      var effect := Attempt(c, a, s, sends, caller, GiveBack).value;
      Takes(c, s, effect) && KeepsCaller(s, After(c, s, effect.steps), sends, caller, GiveBack, effect)
  {
    var effect := Attempt(c, a, s, sends, caller, GiveBack).value;
    ReleaseRuns(c, a, s, sends, caller);
    SameCellsKeep(s, After(c, s, effect.steps), sends, caller);
    ReleaseKeeps(s, After(c, s, effect.steps), sends, caller);
  }

  // ---------------------------------------------------------------- the whole system

  ghost predicate SystemInv(c: Config, sys: System) {
    && Reachable(c, sys.gate)
    && (forall i: nat :: i < |sys.callers| ==> CallerInv(sys.gate, sys.sends, sys.callers[i]))
  }

  lemma ReachableExtends(c: Config, s: State, steps: seq<Step>)
    requires Reachable(c, s) && Runs(c, s, steps)
    ensures Reachable(c, After(c, s, steps))
  {
    var start: State, before: seq<Step> :| Init(start) && Runs(c, start, before) && After(c, start, before) == s;
    RunsJoin(c, start, before, steps);
  }

  lemma StepsAreSent(c: Config, s: State, step: Step, sends: nat)
    requires Inv(c, s) && Enabled(c, s, step)
    ensures Sent(s, Apply(c, s, step), sends, sends + (if IsSend(step) then 1 else 0))
  {
    match step
    case OnFetch(f, action) => FetchStepMoves(c, s, f, action);
    case OnEntry(e, action) =>
      assert EntryApply(c, s.shared, e, s.entries[e], action).shared.connected == s.shared.connected;
    case _ =>
  }

  /** Everybody's account is in order after a move that each caller has either made or noticed. */
  lemma NoticedSystemHolds(c: Config, sys: System, next: System)
    requires SystemInv(c, sys) && Reachable(c, next.gate) && Moves(sys.gate, next.gate)
    requires Sent(sys.gate, next.gate, sys.sends, next.sends) && |next.callers| == |sys.callers|
    requires forall i: nat :: i < |sys.callers| ==>
               || next.callers[i] == Noticed(sys.gate, next.gate, sys.callers[i])
               || CallerInv(next.gate, next.sends, next.callers[i])
    ensures SystemInv(c, next)
  {
    ReachableHolds(c, sys.gate);
    ReachableHolds(c, next.gate);
    forall i: nat | i < |next.callers| ensures CallerInv(next.gate, next.sends, next.callers[i]) {
      NoticedKeeps(c, sys.gate, next.gate, sys.sends, next.sends, sys.callers[i]);
    }
  }

  /** What caller `i` does next keeps its own account in order and leads to a reachable gate. */
  lemma OwnActHolds(c: Config, a: AdmitConfig, sys: System, i: nat, act: Act)
    requires SystemInv(c, sys) && i < |sys.callers| && Named(sys.gate, sys.callers[i])
    requires Attempt(c, a, sys.gate, sys.sends, sys.callers[i], act).Some?
    ensures
      var effect := Attempt(c, a, sys.gate, sys.sends, sys.callers[i], act).value;
      && Takes(c, sys.gate, effect) && Reachable(c, After(c, sys.gate, effect.steps))
      && KeepsCaller(sys.gate, After(c, sys.gate, effect.steps), sys.sends, sys.callers[i], act, effect)
  {
    ReachableHolds(c, sys.gate);
    assert CallerInv(sys.gate, sys.sends, sys.callers[i]);
    ActKeeps(c, a, sys.gate, sys.sends, sys.callers[i], act);
    ReachableExtends(c, sys.gate, Attempt(c, a, sys.gate, sys.sends, sys.callers[i], act).value.steps);
  }

  lemma OwnMoveKeeps(c: Config, a: AdmitConfig, sys: System, i: nat, act: Act)
    requires SystemInv(c, sys) && AllNamed(sys) && i < |sys.callers|
    requires Attempt(c, a, sys.gate, sys.sends, sys.callers[i], act).Some?
    ensures Possible(c, a, sys, Own(i, act)) && SystemInv(c, AfterMove(c, a, sys, Own(i, act)))
    ensures
      var effect := Attempt(c, a, sys.gate, sys.sends, sys.callers[i], act).value;
      effect.again ==> Charged(sys.gate, sys.sends, sys.callers[i], act, effect)
  {
    OwnActHolds(c, a, sys, i, act);
    NoticedSystemHolds(c, sys, AfterMove(c, a, sys, Own(i, act)));
  }

  lemma OtherMoveKeeps(c: Config, a: AdmitConfig, sys: System, step: Step)
    requires SystemInv(c, sys) && AllNamed(sys) && Possible(c, a, sys, Other(step))
    ensures SystemInv(c, AfterMove(c, a, sys, Other(step)))
  {
    ReachableHolds(c, sys.gate);
    OneStepRuns(c, sys.gate, step);
    ReachableExtends(c, sys.gate, [step]);
    StepMoves(c, sys.gate, step);
    StepsAreSent(c, sys.gate, step, sys.sends);
    NoticedSystemHolds(c, sys, AfterMove(c, a, sys, Other(step)));
  }

  lemma MoveKeeps(c: Config, a: AdmitConfig, sys: System, move: Move)
    requires SystemInv(c, sys) && AllNamed(sys) && Possible(c, a, sys, move)
    ensures SystemInv(c, AfterMove(c, a, sys, move))
  {
    match move
    case Begin(subject, seen) =>
    case Own(i, act) => OwnMoveKeeps(c, a, sys, i, act);
    case Other(step) => OtherMoveKeeps(c, a, sys, step);
  }
}
