/** The watcher's operations and the snapshot rebuild, each run to its end without interference. */
module GateWatching {
  import opened Options
  import opened Deadlines
  import opened GateModel
  import opened GateInvariants
  import opened GateRuns
  import opened GateSolo

  // ---------------------------------------------------------------- changes

  /** Everything but the entries, the counters and the aborts in progress. */
  predicate SameElsewhere(sh: Shared, sh': Shared) {
    && sh'.subjects == sh.subjects && sh'.connected == sh.connected && sh'.authority == sh.authority
    && sh'.streamOpen == sh.streamOpen && sh'.buffer == sh.buffer && sh'.watcher == sh.watcher && sh'.lock == sh.lock
  }

  /** Receiving a change and taking the map lock for it. */
  method TakeChangeAlone(c: Config, start: State, steps: seq<Step>, s: State)
    returns (t: State, taken: seq<Step>)
    requires At(c, start, steps, s) && s.shared.watcher.Serving? && s.shared.lock.Free? && s.shared.buffer != []
    ensures At(c, start, taken, t)
    ensures
      t == s.(shared := s.shared.(watcher := Applying(s.shared.buffer[0], None), buffer := s.shared.buffer[1..],
                                  lock := Held(Applier, Nothing)))
  {
    t, taken := Take(c, start, steps, s, OnWatch(TakeChange));
    t, taken := Take(c, start, taken, t, OnWatch(LockForChange));
  }

  /** Letting the map lock go after a change, whether or not the map holds its subject. */
  method LeaveChangeAlone(c: Config, start: State, steps: seq<Step>, s: State)
    returns (t: State, taken: seq<Step>)
    requires At(c, start, steps, s) && s.shared.lock == Held(Applier, Nothing) && s.shared.watcher.Applying?
    requires s.shared.watcher.change.subject !in s.shared.subjects
    ensures At(c, start, taken, t) && t == s.(shared := s.shared.(watcher := Serving, lock := Free))
  {
    t, taken := Take(c, start, steps, s, OnWatch(SkipChange));
    t, taken := Take(c, start, taken, t, OnWatch(UnlockAfterChange));
  }

  /** Storing the decision of a change in the entry the map holds for its subject. */
  method StoreChangeAlone(c: Config, start: State, steps: seq<Step>, s: State, decision: Decision)
    returns (t: State, taken: seq<Step>)
    requires At(c, start, steps, s) && s.shared.lock == Held(Applier, Nothing)
    requires s.shared.watcher.Applying?
    requires s.shared.watcher == Applying(Change(s.shared.watcher.change.subject, Some(decision)), None)
    requires s.shared.watcher.change.subject in s.shared.subjects
    requires
      var e := s.shared.subjects[s.shared.watcher.change.subject];
      e < |s.entries| && s.entries[e].subject == s.shared.watcher.change.subject
    ensures At(c, start, taken, t) && t.reader == s.reader && t.fetches == s.fetches
    ensures SameElsewhere(s.shared.(watcher := Serving, lock := Free), t.shared)
    ensures
      var e := s.shared.subjects[s.shared.watcher.change.subject];
      var result := DecisionResult(decision, None, None);
      var snapshot := DecisionSnapshot(s.entries[e].epoch, c.refreshBefore, c.freshness, s.shared.now, result);
      t.entries == s.entries[e := WithCell(s.shared, s.entries[e], snapshot).(active := true, slot := None)]
  {
    var e := s.shared.subjects[s.shared.watcher.change.subject];
    t, taken := Take(c, start, steps, s, OnWatch(PrepareChange(s.shared.now, s.entries[e].epoch)));
    t, taken := Take(c, start, taken, t, OnEntry(e, StoreChange));
    t, taken := Take(c, start, taken, t, OnEntry(e, EmptySlot));
    t, taken := Take(c, start, taken, t, OnWatch(UnlockAfterChange));
  }

  /** A withdrawal removes the subject's entry and marks it. */
  method WithdrawChangeAlone(c: Config, start: State, steps: seq<Step>, s: State)
    returns (t: State, taken: seq<Step>)
    requires At(c, start, steps, s) && s.shared.lock == Held(Applier, Nothing) && s.shared.watcher.Applying?
    requires s.shared.watcher.change.decision.None? && s.shared.watcher.change.subject in s.shared.subjects
    requires s.shared.subjects[s.shared.watcher.change.subject] < |s.entries|
    ensures At(c, start, taken, t) && t.reader == s.reader && t.fetches == s.fetches && |t.entries| == |s.entries|
    ensures
      SameElsewhere(s.shared.(watcher := Serving, lock := Free,
                              subjects := s.shared.subjects - {s.shared.watcher.change.subject}), t.shared)
    ensures
      var e := s.shared.subjects[s.shared.watcher.change.subject];
      StateIn(t.entries[e]).Stale? && t.entries[e].slot.None?
  {
    var subject := s.shared.watcher.change.subject;
    var e := s.shared.subjects[subject];
    t, taken := Take(c, start, steps, s, OnMap(Pop(subject)));
    t, taken := Take(c, start, taken, t, OnEntry(e, Invalidate));
    t, taken := Take(c, start, taken, t, OnEntry(e, EmptySlot));
    t, taken := LeaveChangeAlone(c, start, taken, t);
  }

  /** Every subject of the map leads to an entry for that subject. */
  lemma MapPoints(c: Config, s: State)
    requires Reachable(c, s)
    ensures Points(s.entries, s.shared.subjects)
  {
    ReachableHolds(c, s);
  }

  /**
   Applying the next change of the stream alone. A subject the map does not hold is left out; a held
   one takes the change's decision, whatever state it was in, and loses its pending operation; a
   withdrawn one leaves the map stale.
   */
  method ChangeAlone(c: Config, start: State)
    returns (t: State, steps: seq<Step>)
    requires Reachable(c, start) && start.shared.watcher.Serving? && start.shared.lock.Free? && start.shared.buffer != []
    ensures At(c, start, steps, t) && t.shared.watcher.Serving? && t.shared.lock.Free?
    ensures t.shared.buffer == start.shared.buffer[1..] && |t.entries| == |start.entries|
    ensures
      var change := start.shared.buffer[0];
      if change.subject !in start.shared.subjects then
        t.shared.subjects == start.shared.subjects && t.entries == start.entries
      else
        var e := start.shared.subjects[change.subject];
        && e < |start.entries| && t.entries[e].slot.None?
        && (if change.decision.Some? then
              && t.shared.subjects == start.shared.subjects
              && DecisionOf(t.entries[e].cell.snapshot) == change.decision
            else
              t.shared.subjects == start.shared.subjects - {change.subject} && StateIn(t.entries[e]).Stale?)
  {
    MapPoints(c, start);
    var change := start.shared.buffer[0];
    t, steps := TakeChangeAlone(c, start, [], start);
    if change.subject !in start.shared.subjects {
      t, steps := LeaveChangeAlone(c, start, steps, t);
    } else if change.decision.Some? {
      t, steps := StoreChangeAlone(c, start, steps, t, change.decision.value);
    } else {
      t, steps := WithdrawChangeAlone(c, start, steps, t);
    }
  }

  // ---------------------------------------------------------------- rebuilding the snapshot

  /**
   A rebuild run alone after the rate limit's instant, while connected and with the flag set, publishes
   exactly the map and clears the flag.
   */
  method RebuildAlone(c: Config, start: State)
    returns (t: State, steps: seq<Step>)
    requires start.reader.dirty && start.reader.nextAllowed <= start.shared.now
    requires start.shared.connected && start.shared.lock.Free? && !start.shared.watcher.DisconnectFlag?
    ensures At(c, start, steps, t) && t.shared == start.shared && t.entries == start.entries
    ensures t.reader.snapshot == start.shared.subjects && !t.reader.dirty
    ensures t.reader.nextAllowed == start.shared.now + c.republishInterval
  {
    var r := |start.reader.rebuilds|;
    t, steps := Take(c, start, [], start, OnRebuild(NoticeDirty));
    t, steps := Take(c, start, steps, t, OnRebuild(ClaimRebuild(r)));
    t, steps := Take(c, start, steps, t, OnRebuild(ClearDirty(r)));
    t, steps := Take(c, start, steps, t, OnRebuild(CopyMap(r)));
    t, steps := Take(c, start, steps, t, OnRebuild(StoreCopy(r)));
  }

  // ---------------------------------------------------------------- connecting and disconnecting

  predicate Cleared(entry: Entry) {
    StateIn(entry).Stale? && entry.slot.None?
  }

  /** One entry of a clear: marked, and its operation taken out. */
  method ClearOneAlone(c: Config, start: State, steps: seq<Step>, s: State, e: nat)
    returns (t: State, taken: seq<Step>)
    requires At(c, start, steps, s) && e < |s.entries| && s.shared.lock.Held? && s.shared.lock.owner.Clearer?
    requires s.shared.lock.todo.Nothing? && e in s.shared.lock.owner.left
    ensures At(c, start, taken, t) && t.reader == s.reader
    ensures SameElsewhere(s.shared.(lock := Held(Clearer(s.shared.lock.owner.left - {e}), Nothing)), t.shared)
    ensures |t.entries| == |s.entries| && Cleared(t.entries[e]) && t.entries == s.entries[e := t.entries[e]]
  {
    t, taken := Take(c, start, steps, s, OnEntry(e, ClearEntry));
    t, taken := Take(c, start, taken, t, OnEntry(e, EmptySlot));
  }

  /** Clearing the map under its lock: every entry in it is marked before it is dropped. */
  method ClearAlone(c: Config, start: State, steps: seq<Step>, s: State)
    returns (t: State, taken: seq<Step>)
    requires At(c, start, steps, s) && (s.shared.watcher.ConnectClear? || s.shared.watcher.DisconnectClear?)
    requires s.shared.lock.Free? && forall e :: e in s.shared.subjects.Values ==> e < |s.entries|
    ensures At(c, start, taken, t) && t.reader == s.reader && |t.entries| == |s.entries|
    ensures
      SameElsewhere(s.shared.(subjects := map[],
                              watcher := if s.shared.watcher.ConnectClear? then ConnectFlag
                                         else if s.shared.watcher.dropped then Gone else Idle), t.shared)
    ensures forall e :: e in s.shared.subjects.Values ==> Cleared(t.entries[e])
  {
    t, taken := Take(c, start, steps, s, OnWatch(BeginClear));
    while t.shared.lock.owner.left != {}
      invariant At(c, start, taken, t) && t.reader == s.reader && |t.entries| == |s.entries|
      invariant t.shared.lock.Held? && t.shared.lock.owner.Clearer? && t.shared.lock.todo.Nothing?
      invariant SameElsewhere(s.shared.(lock := t.shared.lock), t.shared)
      invariant t.shared.lock.owner.left <= s.shared.subjects.Values
      invariant forall e :: e in s.shared.subjects.Values && e !in t.shared.lock.owner.left ==> Cleared(t.entries[e])
      decreases t.shared.lock.owner.left
    {
      var e :| e in t.shared.lock.owner.left;
      t, taken := ClearOneAlone(c, start, taken, t, e);
    }
    t, taken := Take(c, start, taken, t, OnWatch(FinishClear));
  }

  /** A connect leaves nothing of the connection before it: no map entry, no snapshot, no live handle. */
  method ConnectAlone(c: Config, start: State)
    returns (t: State, steps: seq<Step>)
    requires Reachable(c, start) && start.shared.watcher.ConnectPublish? && start.shared.lock.Free?
    ensures At(c, start, steps, t) && t.shared.watcher.Serving? && t.shared.connected
    ensures t.shared.subjects == map[] && t.reader.snapshot == map[]
    ensures |t.entries| == |start.entries| && forall e: nat :: e < |t.entries| ==> StateIn(t.entries[e]).Stale?
  {
    MapPoints(c, start);
    t, steps := Take(c, start, [], start, OnWatch(PublishForConnect));
    t, steps := ClearAlone(c, start, steps, t);
    t, steps := Take(c, start, steps, t, OnWatch(SetConnected));
    NothingMappedIsStale(c, start, steps, t);
  }

  /**
   However a watch goes down (its stream ends, it fails to open, or the watcher is dropped) it leaves no
   snapshot, no map entry and no live handle, and only a dropped watcher is gone for good.
   */
  method DisconnectAlone(c: Config, start: State, cause: WatchStep)
    returns (t: State, steps: seq<Step>)
    requires Reachable(c, start) && start.shared.lock.Free?
    requires (cause.Leave? || cause.OpenFailed? || cause.DropWatcher?) && WatchEnabled(start.shared, cause)
    ensures At(c, start, steps, t) && !t.shared.connected && !t.shared.streamOpen
    ensures t.shared.watcher == if cause.DropWatcher? then Gone else Idle
    ensures t.shared.subjects == map[] && t.reader.snapshot == map[]
    ensures |t.entries| == |start.entries| && forall e: nat :: e < |t.entries| ==> StateIn(t.entries[e]).Stale?
  {
    MapPoints(c, start);
    t, steps := Take(c, start, [], start, OnWatch(cause));
    t, steps := Take(c, start, steps, t, OnWatch(PublishForDisconnect));
    t, steps := Take(c, start, steps, t, OnWatch(ClearConnected));
    t, steps := ClearAlone(c, start, steps, t);
    NothingMappedIsStale(c, start, steps, t);
  }

  lemma NothingMappedIsStale(c: Config, start: State, steps: seq<Step>, t: State)
    requires Reachable(c, start) && At(c, start, steps, t) && t.shared.subjects == map[] && t.shared.lock.Free?
    ensures forall e: nat :: e < |t.entries| ==> StateIn(t.entries[e]).Stale?
  {
    ReachableHolds(c, start);
    RunKeeps(c, start, steps);
    forall e: nat | e < |t.entries| ensures StateIn(t.entries[e]).Stale? {
      assert EntryInv(c, t.shared, e, t.entries[e]);
    }
  }
}
