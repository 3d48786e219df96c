/** What each operation achieves when it runs to its end without interference. */
module GateOperations {
  import opened Options
  import opened Deadlines
  import opened GateModel
  import opened GateInvariants
  import opened GateSolo

  /** How the source answers one call: with a payload and a cap for its decision, or with an error. */
  datatype SourceAnswer = Answers(payload: Option<Payload>, validUntil: Option<nat>) | Fails(kind: ErrorKind)

  /** What the gate makes of the answer: an absent or expired decision is a transient failure. */
  function AnswerOf(sh: Shared, subject: Subject, source: SourceAnswer): Answer {
    match source
    case Fails(kind) => Erred(kind)
    case Answers(payload, validUntil) =>
      if Current(sh, subject).None? || (validUntil.Some? && validUntil.value <= sh.now) then Erred(Transient)
      else Decided(DecisionResult(Current(sh, subject).value, payload, validUntil))
  }

  /** What is to be stored, or the failure to be handled, once the answer has been prepared. */
  function Settled(c: Config, sh: Shared, entry: Entry, answer: Answer): Phase {
    match answer
    case Erred(error) => Failed(error)
    case Decided(result) =>
      var snapshot := DecisionSnapshot(entry.epoch, c.refreshBefore, c.freshness, sh.now, result);
      if IsExpired(snapshot, entry.epoch, sh.now) then Failed(Transient) else Publishing(snapshot, sh.now)
  }

  predicate Ready(s: State, f: nat, phase: Phase) {
    ValidFetch(s, f) && s.fetches[f].phase == phase
  }

  function EntryFor(s: State, f: nat): Entry
    requires ValidFetch(s, f)
  {
    s.entries[s.fetches[f].entry]
  }

  /** From the first poll of a fetch to the source's answer. */
  method AskAlone(c: Config, start: State, steps: seq<Step>, s: State, f: nat, source: SourceAnswer)
    returns (t: State, taken: seq<Step>)
    requires At(c, start, steps, s) && Ready(s, f, Waiting(false))
    requires FetchEnabled(c, s.shared, f, s.fetches[f], EntryFor(s, f), Poll)
    ensures At(c, start, taken, t) && t.entries == s.entries && t.shared == s.shared && t.reader == s.reader
    ensures
      t.fetches == s.fetches[f := s.fetches[f].(phase := Answered(AnswerOf(s.shared, EntryFor(s, f).subject, source)),
                                               startedIn := Some(s.shared.clears))]
  {
    var e, found := s.fetches[f].entry, Current(s.shared, EntryFor(s, f).subject);
    t, taken := Take(c, start, steps, s, OnFetch(f, Poll));
    match source {
      case Fails(kind) =>
        t, taken := Take(c, start, taken, t, OnFetch(f, SourceError(kind)));
      case Answers(payload, validUntil) =>
        t, taken := Take(c, start, taken, t, OnFetch(f, Consult));
        if found.None? || (validUntil.Some? && validUntil.value <= s.shared.now) {
          t, taken := Take(c, start, taken, t, OnFetch(f, SourceError(Transient)));
        } else {
          t, taken := Take(c, start, taken, t, OnFetch(f, Reply(payload, validUntil)));
        }
    }
  }

  /** From the answer to the decision on what to do with it. */
  method SettleAlone(c: Config, start: State, steps: seq<Step>, s: State, f: nat)
    returns (t: State, taken: seq<Step>)
    requires At(c, start, steps, s) && ValidFetch(s, f)
    requires s.fetches[f].phase.Answered? && EntryFor(s, f).slot == Some(f)
    ensures At(c, start, taken, t)
    ensures
      var settled := Settled(c, s.shared, EntryFor(s, f), s.fetches[f].phase.answer);
      t == s.(fetches := s.fetches[f := s.fetches[f].(phase := settled)])
  {
    var sh, fetch, entry, n := s.shared, s.fetches[f], EntryFor(s, f), |s.fetches|;
    ghost var next := FetchApply(c, sh, f, fetch, entry, n, CheckGeneration);
    t, taken := TakePhase(c, start, steps, s, f, CheckGeneration, next);
    next := FetchApply(c, sh, f, next.fetch, entry, n, Prepare);
    t, taken := TakePhase(c, start, taken, t, f, Prepare, next);
    if fetch.phase.answer.Decided? {
      next := FetchApply(c, sh, f, next.fetch, entry, n, Recheck);
      t, taken := TakePhase(c, start, taken, t, f, Recheck, next);
    }
  }

  /** Storing a prepared snapshot and giving the slot back. */
  method PublishAlone(c: Config, start: State, steps: seq<Step>, s: State, f: nat)
    returns (t: State, taken: seq<Step>)
    requires At(c, start, steps, s) && ValidFetch(s, f) && s.fetches[f].phase.Publishing?
    requires MayStore(s.fetches[f], EntryFor(s, f)) && EntryFor(s, f).slot == Some(f)
    requires s.fetches[f].kind.Refresh? ==>
               !IsExpired(s.fetches[f].kind.origin.snapshot, EntryFor(s, f).epoch, s.fetches[f].phase.checkedAt)
    ensures At(c, start, taken, t) && t.shared == Numbered(s.shared) && t.reader == s.reader
    ensures t.fetches == s.fetches[f := s.fetches[f].(phase := Finished)]
    ensures
      t.entries == s.entries[s.fetches[f].entry :=
                               WithCell(s.shared, EntryFor(s, f), s.fetches[f].phase.snapshot).(slot := None)]
  {
    t, taken := Take(c, start, steps, s, OnFetch(f, Publish));
    t, taken := Take(c, start, taken, t, OnFetch(f, Release));
  }

  /** A lookup that failed for good this time: the entry leaves the map and is marked. */
  method WithdrawAlone(c: Config, start: State, steps: seq<Step>, s: State, f: nat)
    returns (t: State, taken: seq<Step>)
    requires At(c, start, steps, s) && Ready(s, f, Failed(Transient)) && s.fetches[f].kind.Lookup?
    requires s.shared.lock.Free? && InMap(s.shared, s.fetches[f].entry, EntryFor(s, f))
    requires StateIn(EntryFor(s, f)).Pending? && EntryFor(s, f).slot == Some(f)
    ensures At(c, start, taken, t) && t.shared.lock.Free? && t.reader == s.reader && |t.entries| == |s.entries|
    ensures t.shared.subjects == s.shared.subjects - {EntryFor(s, f).subject}
    ensures t.fetches == s.fetches[f := s.fetches[f].(phase := Finished)]
    ensures StateIn(t.entries[s.fetches[f].entry]).Stale? && t.entries[s.fetches[f].entry].slot.None?
  {
    var e := s.fetches[f].entry;
    t, taken := Take(c, start, steps, s, OnMap(Acquire));
    t, taken := Take(c, start, taken, t, OnFetch(f, FailRemove));
    t, taken := Take(c, start, taken, t, OnMap(Pop(s.entries[e].subject)));
    t, taken := Take(c, start, taken, t, OnEntry(e, Invalidate));
    t, taken := Take(c, start, taken, t, OnEntry(e, EmptySlot));
    t, taken := Take(c, start, taken, t, OnMap(Unlock));
  }

  /** A lookup that failed permanently: the entry stays Pending behind a retry that waits out the cooldown. */
  method RetryAlone(c: Config, start: State, steps: seq<Step>, s: State, f: nat)
    returns (t: State, taken: seq<Step>)
    requires At(c, start, steps, s) && ValidFetch(s, f) && s.fetches[f].kind.Lookup?
    requires s.fetches[f].phase.Failed? && !s.fetches[f].phase.error.Transient?
    requires StateIn(EntryFor(s, f)).Pending? && EntryFor(s, f).slot == Some(f)
    ensures At(c, start, taken, t) && t.shared == s.shared && t.reader == s.reader
    ensures t.entries == s.entries[s.fetches[f].entry := EntryFor(s, f).(slot := Some(|s.fetches|))]
    ensures t.fetches == s.fetches[f := s.fetches[f].(phase := Finished)] + [NewLookup(s.fetches[f].entry, true)]
  {
    t, taken := Take(c, start, steps, s, OnFetch(f, CheckPending));
    t, taken := Take(c, start, taken, t, OnFetch(f, Replace));
  }

  // ---------------------------------------------------------------- whole operations

  /**
   What the answer comes to while the clock is in range: the authority's decision is stored exactly
   when there is one, its cap and the configured freshness are still ahead, and the freshness can be
   represented. It then carries the authority's decision and expires at the earlier of the two limits.
   */
  lemma WhatIsStored(c: Config, sh: Shared, entry: Entry, source: SourceAnswer)
    requires entry.epoch <= sh.now < entry.epoch + MAX_FINITE_DEADLINE
    ensures
      var settled := Settled(c, sh, entry, AnswerOf(sh, entry.subject, source));
      && (settled.Publishing? <==>
            && source.Answers? && Current(sh, entry.subject).Some?
            && (source.validUntil.Some? ==> sh.now < source.validUntil.value)
            && c.freshness > 0 && (c.freshness == DURATION_MAX || sh.now - entry.epoch + c.freshness < NO_EXPIRY))
      && (settled.Publishing? ==>
            && settled.checkedAt == sh.now && DecisionOf(settled.snapshot) == Current(sh, entry.subject)
            && forall later :: sh.now <= later < entry.epoch + MAX_FINITE_DEADLINE ==>
                 (IsExpired(settled.snapshot, entry.epoch, later) <==>
                  || (c.freshness != DURATION_MAX && sh.now + c.freshness <= later)
                  || (source.validUntil.Some? && source.validUntil.value <= later)))
      && (!settled.Publishing? ==>
            && settled.Failed?
            && (settled.error.Transient? <==> source.Answers? || source.kind.Transient?))
  {
    if source.Answers? && Current(sh, entry.subject).Some? {
      var result := DecisionResult(Current(sh, entry.subject).value, source.payload, source.validUntil);
      forall later | sh.now <= later < entry.epoch + MAX_FINITE_DEADLINE
        ensures
          var snapshot := DecisionSnapshot(entry.epoch, c.refreshBefore, c.freshness, sh.now, result);
          var limit := ConfiguredLimit(entry.epoch, sh.now, c.freshness);
          IsExpired(snapshot, entry.epoch, later) <==>
          || (limit.Some? && limit.value <= later)
          || (result.validUntil.Some? && result.validUntil.value <= later)
      {
        ExpiresExactlyAtTheEarlierLimit(entry.epoch, c.refreshBefore, c.freshness, sh.now, later, result);
      }
    }
  }

  /** The fetch its entry's callers wait for, about to be polled. */
  predicate LookupDue(s: State, f: nat) {
    && Ready(s, f, Waiting(false)) && s.fetches[f].kind.Lookup?
    && EntryFor(s, f).active && StateIn(EntryFor(s, f)).Pending? && EntryFor(s, f).slot == Some(f)
    && s.shared.lock.Free? && InMap(s.shared, s.fetches[f].entry, EntryFor(s, f))
  }

  /**
   A lookup run alone resolves its entry one way or another: it stores what the source answered and
   frees the slot, or removes the entry for a transient failure, or leaves a delayed retry behind.
   */
  method LookupAlone(c: Config, start: State, f: nat, source: SourceAnswer)
    returns (t: State, steps: seq<Step>)
    requires LookupDue(start, f)
    ensures At(c, start, steps, t) && |t.entries| == |start.entries| && t.shared.lock.Free?
    ensures |t.fetches| > f && t.fetches[f].phase.Finished?
    ensures
      var e, entry := start.fetches[f].entry, EntryFor(start, f);
      var settled := Settled(c, start.shared, entry, AnswerOf(start.shared, entry.subject, source));
      if settled.Publishing? then
        && t.shared.subjects == start.shared.subjects
        && t.entries[e].cell.snapshot == settled.snapshot && t.entries[e].slot.None?
      else if settled == Failed(Transient) then
        && t.shared.subjects == start.shared.subjects - {entry.subject}
        && StateIn(t.entries[e]).Stale? && t.entries[e].slot.None?
      else
        && t.shared.subjects == start.shared.subjects && t.entries[e].cell == entry.cell
        && t.entries[e].slot == Some(|start.fetches|)
        && |t.fetches| == |start.fetches| + 1 && t.fetches[|start.fetches|] == NewLookup(e, true)
  {
    t, steps := AskAlone(c, start, [], start, f, source);
    t, steps := SettleAlone(c, start, steps, t, f);
    if t.fetches[f].phase.Publishing? {
      t, steps := PublishAlone(c, start, steps, t, f);
    } else if t.fetches[f].phase.error.Transient? {
      t, steps := WithdrawAlone(c, start, steps, t, f);
    } else {
      t, steps := RetryAlone(c, start, steps, t, f);
    }
  }

  // ---------------------------------------------------------------- refreshes

  predicate Due(c: Config, s: State, e: nat)
    requires e < |s.entries|
  {
    var entry := s.entries[e];
    RefreshEligible(entry.cell.snapshot, Tick(entry.epoch, s.shared.now), c.refreshBefore, entry.notBefore)
  }

  /** A claimant loads the snapshot, takes the free slot and reads the clock. */
  method ClaimAlone(c: Config, start: State, steps: seq<Step>, s: State, e: nat)
    returns (t: State, taken: seq<Step>)
    requires At(c, start, steps, s) && e < |s.entries| && s.entries[e].slot.None?
    requires EntryEnabled(c, s.shared, e, s.entries[e], Load)
    ensures At(c, start, taken, t) && t.shared == s.shared && t.reader == s.reader
    ensures t.entries == s.entries[e := s.entries[e].(slot := Some(|s.fetches|))]
    ensures t.fetches == s.fetches + [Fetch(e, Refresh(s.entries[e].cell), Clocked(s.shared.now), false, None, 0, 0)]
  {
    var f := |s.fetches|;
    t, taken := Take(c, start, steps, s, OnEntry(e, Load));
    t, taken := Take(c, start, taken, t, OnFetch(f, Claim));
    t, taken := Take(c, start, taken, t, OnFetch(f, Compare));
    t, taken := Take(c, start, taken, t, OnFetch(f, ReadClock));
  }

  /** Revalidation: a claim that is due goes to the watcher, any other is given back. */
  method HandOverAlone(c: Config, start: State, steps: seq<Step>, s: State, f: nat)
    returns (t: State, taken: seq<Step>)
    requires At(c, start, steps, s) && Ready(s, f, Clocked(s.shared.now)) && s.fetches[f].kind.Refresh?
    requires s.fetches[f].kind.origin == EntryFor(s, f).cell && EntryFor(s, f).slot == Some(f)
    requires s.shared.watcher.Serving? && s.shared.queue == [] && c.queueCapacity > 0
    ensures At(c, start, taken, t) && t.reader == s.reader && |t.fetches| == |s.fetches|
    ensures
      if Due(c, s, s.fetches[f].entry) then
        && t.entries == s.entries && t.shared == s.shared.(running := s.shared.running + {f})
        && t.fetches[f].phase == Waiting(false)
        && t.fetches[f].entry == s.fetches[f].entry && t.fetches[f].kind == s.fetches[f].kind
      else
        && t.entries == s.entries[s.fetches[f].entry := EntryFor(s, f).(slot := None)] && t.shared == s.shared
        && t.fetches[f].phase.Finished?
  {
    t, taken := Take(c, start, steps, s, OnFetch(f, Revalidate));
    if Due(c, s, s.fetches[f].entry) {
      t, taken := Take(c, start, taken, t, OnFetch(f, Send));
      assert [f][1..] == [];
      t, taken := Take(c, start, taken, t, OnFetch(f, Receive));
    } else {
      t, taken := Take(c, start, taken, t, OnFetch(f, DropClaim));
    }
  }

  /** A failed refresh records its cooldown and gives the slot back; the snapshot stays. */
  method CoolAlone(c: Config, start: State, steps: seq<Step>, s: State, f: nat)
    returns (t: State, taken: seq<Step>)
    requires At(c, start, steps, s) && ValidFetch(s, f) && s.fetches[f].phase.Failed? && s.fetches[f].kind.Refresh?
    requires EntryFor(s, f).slot == Some(f)
    ensures At(c, start, taken, t) && t.shared == s.shared && t.reader == s.reader
    ensures t.fetches == s.fetches[f := s.fetches[f].(phase := Finished)]
    ensures
      var entry := EntryFor(s, f);
      var tick := Tick(entry.epoch, s.shared.now);
      t.entries == s.entries[s.fetches[f].entry :=
                               entry.(slot := None, notBefore := CooledDown(c, tick), failures := entry.failures + [tick])]
  {
    t, taken := Take(c, start, steps, s, OnFetch(f, CoolDown));
    t, taken := Take(c, start, taken, t, OnFetch(f, Release));
  }

  /** From a refresh in the watcher's hands to its end: the answer is stored or the cooldown recorded. */
  method FinishRefreshAlone(c: Config, start: State, steps: seq<Step>, s: State, f: nat, source: SourceAnswer)
    returns (t: State, taken: seq<Step>)
    requires At(c, start, steps, s) && Ready(s, f, Waiting(false)) && s.fetches[f].kind == Refresh(EntryFor(s, f).cell)
    requires EntryFor(s, f).slot == Some(f) && f in s.shared.running
    requires !IsExpired(EntryFor(s, f).cell.snapshot, EntryFor(s, f).epoch, s.shared.now)
    ensures At(c, start, taken, t) && |t.fetches| == |s.fetches| && |t.entries| == |s.entries|
    ensures t.fetches[f].phase.Finished? && t.shared == s.shared.(nextCell := t.shared.nextCell)
    ensures
      var e, entry := s.fetches[f].entry, EntryFor(s, f);
      var settled := Settled(c, s.shared, entry, AnswerOf(s.shared, entry.subject, source));
      && t.entries[e].slot.None?
      && (if settled.Publishing? then
            t.entries[e].cell.snapshot == settled.snapshot && t.entries[e].notBefore == entry.notBefore
          else
            t.entries[e].cell == entry.cell && t.entries[e].notBefore == CooledDown(c, Tick(entry.epoch, s.shared.now)))
  {
    t, taken := AskAlone(c, start, steps, s, f, source);
    t, taken := SettleAlone(c, start, taken, t, f);
    if t.fetches[f].phase.Publishing? {
      t, taken := PublishAlone(c, start, taken, t, f);
    } else {
      t, taken := CoolAlone(c, start, taken, t, f);
    }
  }

  /**
   A refresh run alone on an entry with a live verdict and a free slot. When it is due, a stored answer
   replaces the snapshot and a failure keeps it, bars refreshes for the cooldown and removes nothing;
   when it is not due, nothing changes. Either way the slot is free again and the watcher is rid of it.
   */
  method RefreshAlone(c: Config, start: State, e: nat, source: SourceAnswer)
    returns (t: State, steps: seq<Step>)
    requires e < |start.entries| && start.entries[e].slot.None? && EntryEnabled(c, start.shared, e, start.entries[e], Load)
    requires start.shared.watcher.Serving? && start.shared.queue == [] && c.queueCapacity > 0
    ensures At(c, start, steps, t) && t.shared.subjects == start.shared.subjects && t.shared.queue == []
    ensures |t.entries| == |start.entries| && t.entries[e].slot.None?
    ensures |t.fetches| == |start.fetches| + 1 && t.fetches[|start.fetches|].phase.Finished?
    ensures Due(c, start, e) ==> |start.fetches| !in t.shared.running
    ensures
      var entry := start.entries[e];
      var settled := Settled(c, start.shared, entry, AnswerOf(start.shared, entry.subject, source));
      if !Due(c, start, e) then
        t.entries == start.entries && t.shared == start.shared
      else if settled.Publishing? then
        t.entries[e].cell.snapshot == settled.snapshot && t.entries[e].notBefore == entry.notBefore
      else
        t.entries[e].cell == entry.cell && t.entries[e].notBefore == CooledDown(c, Tick(entry.epoch, start.shared.now))
  {
    var f := |start.fetches|;
    t, steps := ClaimAlone(c, start, [], start, e);
    t, steps := HandOverAlone(c, start, steps, t, f);
    if t.fetches[f].phase.Finished? {
      return;
    }
    t, steps := FinishRefreshAlone(c, start, steps, t, f, source);
    t, steps := Take(c, start, steps, t, OnWatch(Retire(f)));
  }

  /**
   Invalidating a handle alone marks its entry and empties the slot, but leaves the entry in the map,
   where a later change may make it live again.
   */
  method InvalidateHandleAlone(c: Config, start: State, e: nat)
    returns (t: State, steps: seq<Step>)
    requires e < |start.entries| && !StateIn(start.entries[e]).Pending?
    ensures At(c, start, steps, t) && |t.entries| == |start.entries| && t.shared.subjects == start.shared.subjects
    ensures StateIn(t.entries[e]).Stale? && t.entries[e].slot.None?
    ensures t.entries[e].cell.snapshot.deadline == start.entries[e].cell.snapshot.deadline
    ensures t.entries[e].owedAborts == start.entries[e].owedAborts
    ensures start.entries[e].slot.Some? ==> start.entries[e].slot.value in t.shared.aborting
  {
    t, steps := Take(c, start, [], start, OnEntry(e, UserInvalidate));
    t, steps := Take(c, start, steps, t, OnEntry(e, UserAbort));
  }
}
