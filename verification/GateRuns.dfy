/** The whole invariant and its preservation by every step and every run. */
module GateRuns {
  import opened Options
  import opened GateModel
  import opened GateInvariants
  import opened GatePreservation

  // ---------------------------------------------------------------- numbers in range

  ghost predicate Points(entries: seq<Entry>, table: map<Subject, nat>) {
    forall x :: x in table ==> table[x] < |entries| && entries[table[x]].subject == x
  }

  ghost predicate SlotsNumbered(entries: seq<Entry>, fetches: seq<Fetch>) {
    && (forall e: nat :: e < |entries| && entries[e].slot.Some? ==>
          entries[e].slot.value < |fetches| && fetches[entries[e].slot.value].entry == e)
    && (forall f: nat :: f < |fetches| ==> fetches[f].entry < |entries|)
  }

  ghost predicate SharedNumbered(sh: Shared, entries: nat, fetches: nat) {
    && (forall f :: f in sh.queue ==> f < fetches)
    && (forall f :: f in sh.running ==> f < fetches)
    && (forall f :: f in sh.aborting ==> f < fetches)
    && (sh.lock.Held? ==>
          && (!sh.lock.todo.Nothing? ==> sh.lock.todo.entry < entries)
          && (sh.lock.owner.Clearer? ==> forall e :: e in sh.lock.owner.left ==> e < entries))
  }

  ghost predicate ReaderInv(sh: Shared, entries: seq<Entry>, reader: Reader) {
    && Points(entries, reader.snapshot)
    && (forall r: nat :: r < |reader.rebuilds| && reader.rebuilds[r].Copied? ==> Points(entries, reader.rebuilds[r].copy))
    && (!sh.connected || sh.watcher.DisconnectFlag? ==> reader.snapshot == map[])
  }

  ghost predicate Numbers(s: State) {
    && Points(s.entries, s.shared.subjects)
    && SlotsNumbered(s.entries, s.fetches)
    && SharedNumbered(s.shared, |s.entries|, |s.fetches|)
    && ReaderInv(s.shared, s.entries, s.reader)
  }

  ghost predicate Inv(c: Config, s: State) {
    && Numbers(s)
    && SharedInv(s.shared)
    && (forall e: nat :: e < |s.entries| ==> EntryInv(c, s.shared, e, s.entries[e]))
    && (forall f: nat :: f < |s.fetches| ==> FetchInv(c, s.shared, f, s.fetches[f], s.entries[s.fetches[f].entry]))
  }

  // ---------------------------------------------------------------- one step

  lemma InitHolds(c: Config, s: State)
    requires Init(s)
    ensures Inv(c, s)
  {
  }

  lemma OutsideKeeps(c: Config, s: State, step: OutsideStep)
    requires Inv(c, s) && OutsideEnabled(s.shared, step)
    ensures Inv(c, Apply(c, s, Outside(step)))
  {
    var t := Apply(c, s, Outside(step));
    OutsideKeepsShared(s.shared, step);
    forall e: nat | e < |t.entries| ensures EntryInv(c, t.shared, e, t.entries[e]) {
      OutsideKeepsEntries(c, s.shared, step, e, s.entries[e]);
    }
    forall f: nat | f < |t.fetches| ensures FetchInv(c, t.shared, f, t.fetches[f], t.entries[t.fetches[f].entry]) {
      OutsideKeepsFetches(c, s.shared, step, f, s.fetches[f], s.entries[s.fetches[f].entry]);
    }
  }

  lemma MapKeeps(c: Config, s: State, step: MapStep)
    requires Inv(c, s) && MapEnabled(s.shared, step)
    ensures Inv(c, Apply(c, s, OnMap(step)))
  {
    var t := Apply(c, s, OnMap(step));
    MapKeepsShared(s.shared, step);
    forall e: nat | e < |t.entries| ensures EntryInv(c, t.shared, e, t.entries[e]) {
      MapKeepsEntries(c, s.shared, step, e, s.entries[e]);
    }
    forall f: nat | f < |t.fetches| ensures FetchInv(c, t.shared, f, t.fetches[f], t.entries[t.fetches[f].entry]) {
      MapKeepsFetches(c, s.shared, step, f, s.fetches[f], s.entries[s.fetches[f].entry]);
    }
  }

  lemma InsertKeeps(c: Config, s: State, subject: Subject, readAt: nat)
    requires Inv(c, s) && InsertEnabled(s.shared, subject, readAt)
    ensures Inv(c, Apply(c, s, Insert(subject, readAt)))
  {
    var t := Apply(c, s, Insert(subject, readAt));
    var e', f' := |s.entries|, |s.fetches|;
    InsertedEntryIsServed(c, s.shared, subject, readAt, e', f');
    forall e: nat | e < |t.entries| ensures EntryInv(c, t.shared, e, t.entries[e]) {
      if e != e' { InsertKeepsEntries(c, s.shared, subject, readAt, e', e, s.entries[e]); }
    }
    forall f: nat | f < |t.fetches| ensures FetchInv(c, t.shared, f, t.fetches[f], t.entries[t.fetches[f].entry]) {
      if f != f' { InsertKeepsFetches(c, s.shared, subject, readAt, e', f, s.fetches[f], s.entries[s.fetches[f].entry]); }
    }
  }

  /** The state after entry `e`, and perhaps fetch `f`, have been replaced and one fetch appended. */
  function Replaced(
    s: State, e: nat, entry: Entry, f: Option<nat>, fetch: Fetch, extra: Option<Fetch>, shared: Shared): State
    requires e < |s.entries| && (f.Some? ==> f.value < |s.fetches|)
  {
    var fetches := if f.Some? then s.fetches[f.value := fetch] else s.fetches;
    State(s.entries[e := entry], Appended(fetches, extra), shared, s.reader)
  }

  /** The new entry only takes a slot number that belongs to it, and the shared state names nothing new. */
  ghost predicate KeepsNumbers(s: State, e: nat, entry: Entry, extra: Option<Fetch>, shared: Shared)
    requires e < |s.entries|
  {
    && entry.subject == s.entries[e].subject
    && (entry.slot.Some? && entry.slot != s.entries[e].slot ==>
          || (entry.slot.value < |s.fetches| && s.fetches[entry.slot.value].entry == e)
          || (entry.slot.value == |s.fetches| && extra.Some?))
    && (extra.Some? ==> extra.value.entry == e)
    && shared.subjects == s.shared.subjects
    && (shared.connected == s.shared.connected && (shared.watcher.DisconnectFlag? ==> s.shared.watcher.DisconnectFlag?))
    && SharedNumbered(shared, |s.entries|, |s.fetches|)
  }

  lemma ReplacedKeepsNumbers(
    s: State, e: nat, entry: Entry, f: Option<nat>, fetch: Fetch, extra: Option<Fetch>, shared: Shared)
    requires Numbers(s) && e < |s.entries| && KeepsNumbers(s, e, entry, extra, shared)
    requires f.Some? ==> f.value < |s.fetches| && fetch.entry == s.fetches[f.value].entry
    ensures Numbers(Replaced(s, e, entry, f, fetch, extra, shared))
  {
  }

  lemma ReplacedHolds(
    c: Config, s: State, e: nat, entry: Entry, f: Option<nat>, fetch: Fetch, extra: Option<Fetch>, shared: Shared)
    requires Numbers(s) && e < |s.entries| && KeepsNumbers(s, e, entry, extra, shared)
    requires f.Some? ==> f.value < |s.fetches| && fetch.entry == s.fetches[f.value].entry
    requires SharedInv(shared) && EntryInv(c, shared, e, entry)
    requires forall e': nat :: e' < |s.entries| && e' != e ==> EntryInv(c, shared, e', s.entries[e'])
    requires forall g: nat :: g < |s.fetches| && Some(g) != f ==>
      FetchInv(c, shared, g, s.fetches[g], if s.fetches[g].entry == e then entry else s.entries[s.fetches[g].entry])
    requires f.Some? ==> fetch.entry == e && FetchInv(c, shared, f.value, fetch, entry)
    requires extra.Some? ==> FetchInv(c, shared, |s.fetches|, extra.value, entry)
    ensures Inv(c, Replaced(s, e, entry, f, fetch, extra, shared))
  {
    ReplacedKeepsNumbers(s, e, entry, f, fetch, extra, shared);
    var t := Replaced(s, e, entry, f, fetch, extra, shared);
    forall e': nat | e' < |t.entries| ensures EntryInv(c, t.shared, e', t.entries[e']) {
      if e' != e { assert EntryInv(c, shared, e', s.entries[e']); }
    }
    forall g: nat | g < |t.fetches| ensures FetchInv(c, t.shared, g, t.fetches[g], t.entries[t.fetches[g].entry]) {
      if g < |s.fetches| && Some(g) != f {
        assert FetchInv(c, shared, g, s.fetches[g],
                        if s.fetches[g].entry == e then entry else s.entries[s.fetches[g].entry]);
      }
    }
  }

  lemma EntryKeeps(c: Config, s: State, e: nat, action: EntryAction)
    requires Inv(c, s) && e < |s.entries| && EntryEnabled(c, s.shared, e, s.entries[e], action)
    ensures Inv(c, Apply(c, s, OnEntry(e, action)))
  {
    var entry, next := s.entries[e], EntryApply(c, s.shared, e, s.entries[e], action);
    EntryKeepsShared(c, s.shared, e, entry, action);
    EntryKeepsItself(c, s.shared, e, entry, action);
    ClaimIsServed(c, s.shared, e, entry, action, |s.fetches|);
    forall e': nat | e' < |s.entries| && e' != e ensures EntryInv(c, next.shared, e', s.entries[e']) {
      EntryKeepsOtherEntries(c, s.shared, e, entry, action, e', s.entries[e']);
    }
    forall g: nat | g < |s.fetches|
      ensures FetchInv(c, next.shared, g, s.fetches[g],
                       if s.fetches[g].entry == e then next.entry else s.entries[s.fetches[g].entry])
    {
      EntryKeepsFetches(c, s.shared, e, entry, action, g, s.fetches[g], s.entries[s.fetches[g].entry]);
    }
    ReplacedHolds(c, s, e, next.entry, None, NewLookup(e, false), next.claim, next.shared);
  }

  lemma FetchKeeps(c: Config, s: State, f: nat, action: FetchAction)
    requires Inv(c, s) && Enabled(c, s, OnFetch(f, action))
    ensures Inv(c, Apply(c, s, OnFetch(f, action)))
  {
    var e := s.fetches[f].entry;
    var next := FetchApply(c, s.shared, f, s.fetches[f], s.entries[e], |s.fetches|, action);
    FetchKeepsRecords(c, s.shared, f, s.fetches[f], s.entries[e], |s.fetches|, action);
    FetchOutcomeHolds(c, s, f, next);
  }

  /** A fetch action whose own records are in order leaves the whole state in order. */
  lemma FetchOutcomeHolds(c: Config, s: State, f: nat, next: FetchOutcome)
    requires Inv(c, s) && f < |s.fetches|
    requires
      var e := s.fetches[f].entry;
      && next.fetch.entry == e
      && FetchMovesShared(s.shared, next.shared, f, e)
      && FetchMovesEntry(c, s.shared, f, s.fetches[f], |s.fetches|, s.entries[e], next.entry)
      && SharedInv(next.shared) && EntryInv(c, next.shared, e, next.entry)
      && FetchInv(c, next.shared, f, next.fetch, next.entry)
      && (next.retry.Some? ==>
            next.retry.value.entry == e && FetchInv(c, next.shared, |s.fetches|, next.retry.value, next.entry))
      && (next.entry.slot == Some(|s.fetches|) && s.entries[e].slot != Some(|s.fetches|) ==> next.retry.Some?)
    ensures Inv(c, Replaced(s, s.fetches[f].entry, next.entry, Some(f), next.fetch, next.retry, next.shared))
  {
    FetchKeepsRest(c, s, f, next);
    ReplacedHolds(c, s, s.fetches[f].entry, next.entry, Some(f), next.fetch, next.retry, next.shared);
  }

  lemma FetchKeepsRest(c: Config, s: State, f: nat, next: FetchOutcome)
    requires Inv(c, s) && f < |s.fetches|
    requires
      var e := s.fetches[f].entry;
      && FetchMovesShared(s.shared, next.shared, f, e)
      && FetchMovesEntry(c, s.shared, f, s.fetches[f], |s.fetches|, s.entries[e], next.entry)
    ensures
      var e := s.fetches[f].entry;
      && (forall e': nat :: e' < |s.entries| && e' != e ==> EntryInv(c, next.shared, e', s.entries[e']))
      && (forall g: nat :: g < |s.fetches| && g != f ==>
            FetchInv(c, next.shared, g, s.fetches[g],
                     if s.fetches[g].entry == e then next.entry else s.entries[s.fetches[g].entry]))
      && SharedNumbered(next.shared, |s.entries|, |s.fetches|)
  {
    var e := s.fetches[f].entry;
    forall e': nat | e' < |s.entries| && e' != e ensures EntryInv(c, next.shared, e', s.entries[e']) {
      FetchKeepsOtherEntries(c, s.shared, next.shared, f, e, e', s.entries[e']);
    }
    forall g: nat | g < |s.fetches| && g != f
      ensures FetchInv(c, next.shared, g, s.fetches[g],
                       if s.fetches[g].entry == e then next.entry else s.entries[s.fetches[g].entry])
    {
      FetchKeepsOthers(c, s.shared, next.shared, f, s.fetches[f], s.entries[e], next.entry, |s.fetches|,
                       g, s.fetches[g], s.entries[s.fetches[g].entry]);
    }
    forall x | x in next.shared.queue ensures x < |s.fetches| {
      assert x == f || x in s.shared.queue;
    }
  }

  lemma RebuildKeeps(c: Config, s: State, step: RebuildStep)
    requires Inv(c, s) && RebuildEnabled(s.shared, s.reader, step)
    ensures Inv(c, Apply(c, s, OnRebuild(step)))
  {
  }

  lemma WatchKeeps(c: Config, s: State, step: WatchStep)
    requires Inv(c, s) && Enabled(c, s, OnWatch(step))
    ensures Inv(c, Apply(c, s, OnWatch(step)))
  {
    var t := Apply(c, s, OnWatch(step));
    WatchKeepsShared(c, s.shared, step);
    forall e: nat | e < |t.entries| ensures EntryInv(c, t.shared, e, t.entries[e]) {
      WatchKeepsEntries(c, s.shared, step, e, s.entries[e]);
    }
    forall f: nat | f < |t.fetches| ensures FetchInv(c, t.shared, f, t.fetches[f], t.entries[t.fetches[f].entry]) {
      WatchKeepsFetches(c, s.shared, step, f, s.fetches[f], s.entries[s.fetches[f].entry]);
    }
  }

  lemma StepKeeps(c: Config, s: State, step: Step)
    requires Inv(c, s) && Enabled(c, s, step)
    ensures Inv(c, Apply(c, s, step))
  {
    match step
    case Outside(outside) => OutsideKeeps(c, s, outside);
    case OnMap(onMap) => MapKeeps(c, s, onMap);
    case Insert(subject, readAt) => InsertKeeps(c, s, subject, readAt);
    case OnEntry(e, action) => EntryKeeps(c, s, e, action);
    case OnFetch(f, action) => FetchKeeps(c, s, f, action);
    case OnRebuild(onRebuild) => RebuildKeeps(c, s, onRebuild);
    case OnWatch(onWatch) => WatchKeeps(c, s, onWatch);
  }

  // ---------------------------------------------------------------- every run

  ghost predicate Reachable(c: Config, s: State) {
    exists start: State, steps: seq<Step> :: Init(start) && Runs(c, start, steps) && After(c, start, steps) == s
  }

  lemma {:induction false} RunKeeps(c: Config, s: State, steps: seq<Step>)
    requires Inv(c, s) && Runs(c, s, steps)
    ensures Inv(c, After(c, s, steps))
    decreases |steps|
  {
    if steps != [] {
      StepKeeps(c, s, steps[0]);
      RunKeeps(c, Apply(c, s, steps[0]), steps[1..]);
    }
  }

  lemma ReachableHolds(c: Config, s: State)
    requires Reachable(c, s)
    ensures Inv(c, s)
  {
    var start: State, steps: seq<Step> :| Init(start) && Runs(c, start, steps) && After(c, start, steps) == s;
    InitHolds(c, start);
    RunKeeps(c, start, steps);
  }
}
