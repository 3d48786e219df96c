/**
 The subject cache and the parties that race on it, as a transition system.

 One step is one atomic action: a load or a compare-and-swap of an entry's cell or slot, one action
 inside a map-lock section, one publish-lock section, one clock reading, or one move of the
 authority. Entries, fetches and rebuilds are numbered in creation order and never reused; every
 stored snapshot gets a new number, which is what pointer equality compares.
 */
module GateModel {
  import opened Options
  import opened Deadlines

  type Subject = nat

  datatype Config = Config(
    refreshBefore: nat,
    freshness: nat,
    cooldown: nat,
    republishInterval: nat,
    queueCapacity: nat)

  // ---------------------------------------------------------------- state

  datatype Cell = Cell(id: nat, snapshot: Snapshot)

  /**
   `born` is the number of map clears that preceded the insertion, `active` says that some caller saw
   the watch connected after finding the entry in the map, `owedAborts` counts handle invalidations
   that have marked the cell and not yet emptied the slot, and `failures` lists the ticks at which
   refreshes failed.
   */
  datatype Entry = Entry(
    subject: Subject,
    epoch: nat,
    cell: Cell,
    slot: Option<nat>,
    notBefore: nat,
    born: nat,
    active: bool,
    owedAborts: nat,
    failures: seq<nat>)

  datatype ErrorKind = Transient | Permanent | Wire

  datatype Answer = Decided(result: DecisionResult) | Erred(error: ErrorKind)

  datatype Kind = Lookup | Refresh(origin: Cell)

  datatype Phase =
    // a refresh claimant, holding its enqueue guard
    | Loaded
    | Claimed
    | SameSnapshot
    | Clocked(readAt: nat)
    | Sending
    | Dropping
    // a fetch waiting for its first poll, then asking the source
    | Queued
    | Waiting(delayed: bool)
    | Cooling(until: nat)
    | Calling
    | Replying(found: Option<Decision>)
    // applying the answer
    | Answered(answer: Answer)
    | Checked(answer: Answer)
    | Prepared(snapshot: Snapshot)
    | Publishing(snapshot: Snapshot, checkedAt: nat)
    | Failed(error: ErrorKind)
    | Replacing
    | Releasing
    | Finished

  /**
   `startedIn` is the number of clears that preceded the source call, `dueAt` the tick at which a
   refresh claim was last found due or was queued, and `seenFailures` how many failures its entry
   had when the claim was revalidated.
   */
  datatype Fetch = Fetch(
    entry: nat,
    kind: Kind,
    phase: Phase,
    aborted: bool,
    startedIn: Option<nat>,
    dueAt: nat,
    seenFailures: nat)

  datatype Rebuild =
    | SawDirty
    | ClaimedRebuild(generation: nat)
    | ClearedDirty(generation: nat)
    | Copied(generation: nat, copy: map<Subject, nat>)
    | DoneRebuild

  /** What the holder of the map lock must do before anything else. */
  datatype Todo = Nothing | PopDue(entry: nat) | InvalidateDue(entry: nat) | AbortDue(entry: nat)

  datatype Owner = Caller | Applier | Clearer(left: set<nat>)

  datatype Lock = Free | Held(owner: Owner, todo: Todo)

  datatype Change = Change(subject: Subject, decision: Option<Decision>)

  datatype Watcher =
    | Idle
    | Opening
    | ConnectPublish
    | ConnectClear
    | ConnectFlag
    | Serving
    | Arrived(change: Change)
    | Applying(change: Change, prepared: Option<Snapshot>)
    | Applied
    | DisconnectPublish(dropped: bool)
    | DisconnectFlag(dropped: bool)
    | DisconnectClear(dropped: bool)
    | Gone

  /** Everything racing parties share apart from the entries and fetches themselves. */
  datatype Shared = Shared(
    now: nat,
    nextCell: nat,
    aborting: set<nat>,
    subjects: map<Subject, nat>,
    lock: Lock,
    clears: nat,
    connected: bool,
    watcher: Watcher,
    queue: seq<nat>,
    running: set<nat>,
    authority: map<Subject, Decision>,
    buffer: seq<Change>,
    streamOpen: bool)

  /** The read snapshot and what rebuilds it. */
  datatype Reader = Reader(
    snapshot: map<Subject, nat>,
    generation: nat,
    nextAllowed: nat,
    dirty: bool,
    rebuilds: seq<Rebuild>)

  datatype State = State(entries: seq<Entry>, fetches: seq<Fetch>, shared: Shared, reader: Reader)

  ghost predicate Init(s: State) {
    && s.entries == [] && s.fetches == []
    && s.shared.aborting == {} && s.shared.subjects == map[] && s.shared.lock == Free && s.shared.clears == 0
    && !s.shared.connected && s.shared.watcher == Idle
    && s.shared.queue == [] && s.shared.running == {} && s.shared.buffer == [] && !s.shared.streamOpen
    && s.reader.snapshot == map[] && s.reader.generation == 0 && !s.reader.dirty && s.reader.rebuilds == []
  }

  // ---------------------------------------------------------------- vocabulary

  /** The subject map currently holds this very entry. */
  predicate InMap(sh: Shared, e: nat, entry: Entry) {
    entry.subject in sh.subjects && sh.subjects[entry.subject] == e
  }

  function StateIn(entry: Entry): EntryState {
    entry.cell.snapshot.state
  }

  predicate Live(entry: Entry) {
    StateIn(entry).IsVerdict()
  }

  /** The holder of the map lock owes this action. */
  predicate Owes(sh: Shared, todo: Todo) {
    sh.lock.Held? && sh.lock.todo == todo
  }

  /** The change in the watcher's hands, then those it has not received. */
  function Undelivered(sh: Shared): seq<Change> {
    if sh.watcher.Arrived? || sh.watcher.Applying? then [sh.watcher.change] + sh.buffer else sh.buffer
  }

  predicate Mentions(changes: seq<Change>, subject: Subject) {
    exists i :: 0 <= i < |changes| && changes[i].subject == subject
  }

  function Current(sh: Shared, subject: Subject): Option<Decision> {
    if subject in sh.authority then Some(sh.authority[subject]) else None
  }

  /** A store always installs a new snapshot number. */
  function WithCell(sh: Shared, entry: Entry, snapshot: Snapshot): Entry {
    entry.(cell := Cell(sh.nextCell, snapshot))
  }

  function Numbered(sh: Shared): Shared {
    sh.(nextCell := sh.nextCell + 1)
  }

  /** The operation taken out of the slot is aborted by a later action. */
  function Taken(sh: Shared, entry: Entry): Shared {
    if entry.slot.Some? then sh.(aborting := sh.aborting + {entry.slot.value}) else sh
  }

  // ---------------------------------------------------------------- the world outside the gate

  datatype OutsideStep =
    | Advance(to: nat)
    | Decide(subject: Subject, decision: Option<Decision>)
    | EndStream

  predicate OutsideEnabled(sh: Shared, step: OutsideStep) {
    match step
    case Advance(to) => sh.now <= to
    case Decide(_, _) => true
    case EndStream => sh.streamOpen
  }

  function OutsideApply(sh: Shared, step: OutsideStep): Shared
    requires OutsideEnabled(sh, step)
  {
    match step
    case Advance(to) => sh.(now := to)
    case Decide(subject, decision) =>
      sh.(authority := if decision.Some? then sh.authority[subject := decision.value] else sh.authority - {subject},
          buffer := if sh.streamOpen then sh.buffer + [Change(subject, decision)] else sh.buffer)
    case EndStream => sh.(streamOpen := false)
  }

  // ---------------------------------------------------------------- the map and its lock

  datatype MapStep =
    | Acquire
    | Unlock
    | Pop(subject: Subject)

  predicate MapEnabled(sh: Shared, step: MapStep) {
    match step
    case Acquire => sh.lock.Free?
    case Unlock => sh.lock == Held(Caller, Nothing)
    case Pop(subject) =>
      && sh.lock.Held? && !sh.lock.owner.Clearer? && subject in sh.subjects
      && (sh.lock.todo.Nothing? || sh.lock.todo == PopDue(sh.subjects[subject]))
  }

  function MapApply(sh: Shared, step: MapStep): Shared
    requires MapEnabled(sh, step)
  {
    match step
    case Acquire => sh.(lock := Held(Caller, Nothing))
    case Unlock => sh.(lock := Free)
    case Pop(subject) =>
      sh.(subjects := sh.subjects - {subject}, lock := sh.lock.(todo := InvalidateDue(sh.subjects[subject])))
  }

  predicate InsertEnabled(sh: Shared, subject: Subject, readAt: nat) {
    sh.lock == Held(Caller, Nothing) && subject !in sh.subjects && readAt <= sh.now
  }

  /** A new entry is Pending and its slot already holds its first lookup. */
  function NewEntry(sh: Shared, subject: Subject, readAt: nat, lookup: nat): Entry {
    Entry(subject, readAt, Cell(sh.nextCell, PENDING_SNAPSHOT), Some(lookup), 0, sh.clears, false, 0, [])
  }

  function NewLookup(e: nat, delayed: bool): Fetch {
    Fetch(e, Lookup, Waiting(delayed), false, None, 0, 0)
  }

  // ---------------------------------------------------------------- actions on one entry

  /**
   `Invalidate`, `EmptySlot`, `ClearEntry` and `StoreChange` are actions of the holder of the map lock;
   the others need no lock. `SeeConnected` is a caller that has found the entry in the map and then
   reads the connection flag; `Load` is the first action of a refresh claimant.
   */
  datatype EntryAction =
    | Observe(readAt: nat)
    | UserInvalidate
    | UserAbort
    | SeeConnected
    | Load
    | Invalidate
    | EmptySlot
    | ClearEntry
    | StoreChange

  predicate EntryEnabled(c: Config, sh: Shared, e: nat, entry: Entry, action: EntryAction) {
    match action
    case Observe(readAt) =>
      readAt <= sh.now && IsExpired(entry.cell.snapshot, entry.epoch, readAt) && !StateIn(entry).Stale?
    case UserInvalidate => !StateIn(entry).Pending?
    case UserAbort => entry.owedAborts > 0
    case SeeConnected => sh.connected
    case Load => c.refreshBefore > 0 && Live(entry) && entry.cell.snapshot.deadline != NO_EXPIRY
    case Invalidate => Owes(sh, InvalidateDue(e))
    case EmptySlot => Owes(sh, AbortDue(e))
    case ClearEntry => sh.lock.Held? && sh.lock.owner.Clearer? && sh.lock.todo.Nothing? && e in sh.lock.owner.left
    case StoreChange =>
      && sh.watcher.Applying? && sh.lock == Held(Applier, Nothing) && sh.watcher.prepared.Some?
      && sh.watcher.change.subject == entry.subject && InMap(sh, e, entry)
  }

  datatype EntryOutcome = EntryOutcome(entry: Entry, shared: Shared, claim: Option<Fetch>)

  function EntryApply(c: Config, sh: Shared, e: nat, entry: Entry, action: EntryAction): EntryOutcome
    requires EntryEnabled(c, sh, e, entry, action)
  {
    var staled := WithCell(sh, entry, StaleOf(entry.cell.snapshot));
    match action
    case Observe(_) => EntryOutcome(staled, Numbered(sh), None)
    case UserInvalidate => EntryOutcome(staled.(owedAborts := entry.owedAborts + 1), Numbered(sh), None)
    case UserAbort => EntryOutcome(entry.(slot := None, owedAborts := entry.owedAborts - 1), Taken(sh, entry), None)
    case SeeConnected => EntryOutcome(entry.(active := true), sh, None)
    case Load => EntryOutcome(entry, sh, Some(Fetch(e, Refresh(entry.cell), Loaded, false, None, 0, 0)))
    case Invalidate => EntryOutcome(staled, Numbered(sh).(lock := sh.lock.(todo := AbortDue(e))), None)
    case EmptySlot => EntryOutcome(entry.(slot := None), Taken(sh, entry).(lock := sh.lock.(todo := Nothing)), None)
    case ClearEntry =>
      EntryOutcome(staled, Numbered(sh).(lock := Held(Clearer(sh.lock.owner.left - {e}), AbortDue(e))), None)
    case StoreChange =>
      EntryOutcome(WithCell(sh, entry, sh.watcher.prepared.value).(active := true),
                   Numbered(sh).(watcher := Applied, lock := Held(Applier, AbortDue(e))), None)
  }

  // ---------------------------------------------------------------- actions of one fetch

  datatype FetchAction =
    // the claimant of a refresh, up to handing it to the watcher
    | Claim
    | Compare
    | ReadClock
    | Revalidate
    | Send
    | GiveUp
    | DropClaim
    | Receive
    // the future, from its first poll to the source's answer
    | Poll
    | Wake
    | Consult
    | SourceError(kind: ErrorKind)
    | Reply(payload: Option<Payload>, validUntil: Option<nat>)
    // applying the answer
    | CheckGeneration
    | Prepare
    | Recheck
    | Publish
    | CoolDown
    | CheckPending
    | Replace
    | FailRemove
    | Release
    | Abort

  predicate FetchEnabled(c: Config, sh: Shared, f: nat, fetch: Fetch, entry: Entry, action: FetchAction) {
    match action
    case Claim => fetch.phase.Loaded? && entry.slot.None?
    case Compare => fetch.phase.Claimed? && fetch.kind.Refresh?
    case ReadClock => fetch.phase.SameSnapshot?
    case Revalidate => fetch.phase.Clocked? && fetch.kind.Refresh?
    case Send => fetch.phase.Sending? && |sh.queue| < c.queueCapacity && !sh.watcher.Gone?
    case GiveUp => fetch.phase.Sending?
    case DropClaim => fetch.phase.Dropping?
    case Receive => sh.watcher.Serving? && sh.queue != [] && sh.queue[0] == f
    case Poll => fetch.phase.Waiting? && (if fetch.kind.Lookup? then entry.active else f in sh.running)
    case Wake => fetch.phase.Cooling? && fetch.phase.until <= sh.now
    case Consult => fetch.phase.Calling?
    case SourceError(kind) => fetch.phase.Calling? || fetch.phase.Replying?
    case Reply(_, validUntil) =>
      && fetch.phase.Replying? && fetch.phase.found.Some?
      && (validUntil.Some? ==> sh.now < validUntil.value)
    case CheckGeneration => fetch.phase.Answered?
    case Prepare => fetch.phase.Checked?
    case Recheck => fetch.phase.Prepared?
    case Publish => fetch.phase.Publishing?
    case CoolDown => fetch.phase.Failed? && fetch.kind.Refresh?
    case CheckPending => fetch.phase.Failed? && fetch.kind.Lookup? && !fetch.phase.error.Transient?
    case Replace => fetch.phase.Replacing?
    case FailRemove =>
      && fetch.phase.Failed? && fetch.kind.Lookup? && fetch.phase.error.Transient?
      && sh.lock == Held(Caller, Nothing)
    case Release => fetch.phase.Releasing?
    case Abort => f in sh.aborting
  }

  /** The gate stores a prepared snapshot over Pending, or over the snapshot its refresh began from. */
  predicate MayStore(fetch: Fetch, entry: Entry) {
    match fetch.kind
    case Lookup => StateIn(entry).Pending?
    case Refresh(origin) => entry.cell.id == origin.id
  }

  datatype FetchOutcome = FetchOutcome(fetch: Fetch, entry: Entry, shared: Shared, retry: Option<Fetch>)

  function Emptied(f: nat, entry: Entry): Entry {
    if entry.slot == Some(f) then entry.(slot := None) else entry
  }

  function CooledDown(c: Config, tick: nat): nat {
    Min(U64_MAX, tick + Min(c.cooldown, U64_MAX))
  }

  function FetchApply(
    c: Config, sh: Shared, f: nat, fetch: Fetch, entry: Entry, spare: nat, action: FetchAction): FetchOutcome
    requires FetchEnabled(c, sh, f, fetch, entry, action)
  {
    match action
    case Claim => FetchOutcome(fetch.(phase := Claimed), entry.(slot := Some(f)), sh, None)
    case Compare =>
      Phased(sh, fetch, entry, if entry.cell.id == fetch.kind.origin.id then SameSnapshot else Dropping)
    case ReadClock => Phased(sh, fetch, entry, Clocked(sh.now))
    case Revalidate =>
      var tick := Tick(entry.epoch, fetch.phase.readAt);
      if RefreshEligible(fetch.kind.origin.snapshot, tick, c.refreshBefore, entry.notBefore) then
        FetchOutcome(fetch.(phase := Sending, dueAt := tick, seenFailures := |entry.failures|), entry, sh, None)
      else Phased(sh, fetch, entry, Dropping)
    case Send =>
      FetchOutcome(fetch.(phase := Queued, dueAt := Tick(entry.epoch, sh.now)), entry, sh.(queue := sh.queue + [f]), None)
    case GiveUp => Phased(sh, fetch, entry, Dropping)
    case DropClaim => Phased(sh, fetch, Emptied(f, entry), Finished)
    case Receive =>
      Phased(sh.(queue := sh.queue[1..], running := sh.running + {f}), fetch, entry, Waiting(false))
    case Poll =>
      if fetch.phase.delayed then Phased(sh, fetch, entry, Cooling(sh.now + c.cooldown))
      else FetchOutcome(fetch.(phase := Calling, startedIn := Some(sh.clears)), entry, sh, None)
    case Wake => FetchOutcome(fetch.(phase := Calling, startedIn := Some(sh.clears)), entry, sh, None)
    case Consult => Phased(sh, fetch, entry, Replying(Current(sh, entry.subject)))
    case SourceError(kind) =>
      var absent := fetch.phase.Replying? && fetch.phase.found.None?;
      Phased(sh, fetch, entry, Answered(Erred(if absent then Transient else kind)))
    case Reply(payload, validUntil) =>
      Phased(sh, fetch, entry, Answered(Decided(DecisionResult(fetch.phase.found.value, payload, validUntil))))
    case CheckGeneration =>
      Phased(sh, fetch, entry, if entry.slot == Some(f) then Checked(fetch.phase.answer) else Finished)
    case Prepare =>
      Phased(sh, fetch, entry,
             match fetch.phase.answer
             case Decided(result) => Prepared(DecisionSnapshot(entry.epoch, c.refreshBefore, c.freshness, sh.now, result))
             case Erred(error) => Failed(error))
    case Recheck =>
      Phased(sh, fetch, entry,
             if IsExpired(fetch.phase.snapshot, entry.epoch, sh.now) then Failed(Transient)
             else Publishing(fetch.phase.snapshot, sh.now))
    case Publish =>
      var stored :=
        FetchOutcome(fetch.(phase := Releasing), WithCell(sh, entry, fetch.phase.snapshot), Numbered(sh), None);
      if fetch.kind.Lookup? then
        if MayStore(fetch, entry) then stored else Phased(sh, fetch, entry, Finished)
      else if !IsExpired(fetch.kind.origin.snapshot, entry.epoch, fetch.phase.checkedAt) && MayStore(fetch, entry)
      then stored
      else Phased(sh, fetch, entry, Releasing)
    case CoolDown =>
      var tick := Tick(entry.epoch, sh.now);
      Phased(sh, fetch, entry.(notBefore := CooledDown(c, tick), failures := entry.failures + [tick]), Releasing)
    case CheckPending => Phased(sh, fetch, entry, if StateIn(entry).Pending? then Replacing else Finished)
    case Replace =>
      if entry.slot == Some(f) then
        FetchOutcome(fetch.(phase := Finished), entry.(slot := Some(spare)), sh, Some(NewLookup(fetch.entry, true)))
      else Phased(sh, fetch, entry, Finished)
    case FailRemove =>
      if InMap(sh, fetch.entry, entry) && entry.slot == Some(f) && StateIn(entry).Pending? then
        FetchOutcome(fetch.(phase := Finished), WithCell(sh, entry, WITHDRAWN_SNAPSHOT),
                     Numbered(sh).(lock := Held(Caller, PopDue(fetch.entry))), None)
      else Phased(sh, fetch, entry, Finished)
    case Release => Phased(sh, fetch, Emptied(f, entry), Finished)
    case Abort => FetchOutcome(fetch.(aborted := true), entry, sh.(aborting := sh.aborting - {f}), None)
  }

  function Phased(sh: Shared, fetch: Fetch, entry: Entry, phase: Phase): FetchOutcome {
    FetchOutcome(fetch.(phase := phase), entry, sh, None)
  }

  // ---------------------------------------------------------------- rebuilding the read snapshot

  datatype RebuildStep =
    | MarkDirty
    | NoticeDirty
    | ClaimRebuild(r: nat)
    | ClearDirty(r: nat)
    | CopyMap(r: nat)
    | StoreCopy(r: nat)

  predicate RebuildEnabled(sh: Shared, reader: Reader, step: RebuildStep) {
    match step
    case MarkDirty => true
    case NoticeDirty => reader.dirty
    case ClaimRebuild(r) =>
      && r < |reader.rebuilds| && reader.rebuilds[r].SawDirty?
      && reader.nextAllowed <= sh.now && !sh.watcher.DisconnectFlag?
    case ClearDirty(r) => r < |reader.rebuilds| && reader.rebuilds[r].ClaimedRebuild?
    case CopyMap(r) => r < |reader.rebuilds| && reader.rebuilds[r].ClearedDirty? && sh.lock.Free?
    case StoreCopy(r) => r < |reader.rebuilds| && reader.rebuilds[r].Copied? && !sh.watcher.DisconnectFlag?
  }

  function RebuildApply(c: Config, sh: Shared, reader: Reader, step: RebuildStep): Reader
    requires RebuildEnabled(sh, reader, step)
  {
    match step
    case MarkDirty => reader.(dirty := true)
    case NoticeDirty => reader.(rebuilds := reader.rebuilds + [SawDirty])
    case ClaimRebuild(r) =>
      reader.(rebuilds := reader.rebuilds[r := ClaimedRebuild(reader.generation)],
              nextAllowed := sh.now + c.republishInterval)
    case ClearDirty(r) =>
      reader.(rebuilds := reader.rebuilds[r := ClearedDirty(reader.rebuilds[r].generation)], dirty := false)
    case CopyMap(r) =>
      reader.(rebuilds := reader.rebuilds[r := Copied(reader.rebuilds[r].generation, sh.subjects)])
    case StoreCopy(r) =>
      var done := reader.(rebuilds := reader.rebuilds[r := DoneRebuild]);
      if reader.generation == reader.rebuilds[r].generation && sh.connected
      then done.(snapshot := reader.rebuilds[r].copy) else done
  }

  // ---------------------------------------------------------------- the watcher

  datatype WatchStep =
    | Open
    | StreamOpened
    | OpenFailed
    | OpenSucceeded
    | PublishForConnect
    | BeginClear
    | FinishClear
    | SetConnected
    | TakeChange
    | LockForChange
    | PrepareChange(readAt: nat, epoch: nat)
    | SkipChange
    | UnlockAfterChange
    | Retire(f: nat)
    | Leave
    | DropWatcher
    | PublishForDisconnect
    | ClearConnected

  predicate WatchEnabled(sh: Shared, step: WatchStep) {
    match step
    case Open => sh.watcher.Idle?
    case StreamOpened => sh.watcher.Opening? && !sh.streamOpen
    case OpenFailed => sh.watcher.Opening?
    case OpenSucceeded => sh.watcher.Opening?
    case PublishForConnect => sh.watcher.ConnectPublish?
    case BeginClear => (sh.watcher.ConnectClear? || sh.watcher.DisconnectClear?) && sh.lock.Free?
    case FinishClear =>
      sh.lock == Held(Clearer({}), Nothing) && (sh.watcher.ConnectClear? || sh.watcher.DisconnectClear?)
    case SetConnected => sh.watcher.ConnectFlag?
    case TakeChange => sh.watcher.Serving? && sh.buffer != []
    case LockForChange => sh.watcher.Arrived? && sh.lock.Free?
    case PrepareChange(readAt, _) =>
      && sh.watcher.Applying? && sh.lock == Held(Applier, Nothing)
      && sh.watcher.change.decision.Some? && sh.watcher.change.subject in sh.subjects && readAt <= sh.now
    case SkipChange =>
      sh.watcher.Applying? && sh.lock == Held(Applier, Nothing) && sh.watcher.change.subject !in sh.subjects
    case UnlockAfterChange => sh.watcher.Applied? && sh.lock == Held(Applier, Nothing)
    case Retire(f) => sh.watcher.Serving? && f in sh.running
    case Leave => sh.watcher.Serving?
    case DropWatcher => sh.watcher.Idle? || sh.watcher.Opening? || sh.watcher.Serving?
    case PublishForDisconnect => sh.watcher.DisconnectPublish?
    case ClearConnected => sh.watcher.DisconnectFlag?
  }

  function CloseStream(sh: Shared, dropped: bool): Shared {
    sh.(watcher := DisconnectPublish(dropped), streamOpen := false, buffer := [], running := {})
  }

  function WatchApply(c: Config, sh: Shared, step: WatchStep): Shared
    requires WatchEnabled(sh, step)
  {
    match step
    case Open => sh.(watcher := Opening)
    case StreamOpened => sh.(streamOpen := true, buffer := [])
    case OpenFailed => CloseStream(sh, false)
    case OpenSucceeded => sh.(watcher := ConnectPublish)
    case PublishForConnect => sh.(watcher := ConnectClear)
    case BeginClear => sh.(lock := Held(Clearer(sh.subjects.Values), Nothing))
    case FinishClear =>
      sh.(subjects := map[], clears := sh.clears + 1, lock := Free,
          watcher := if sh.watcher.ConnectClear? then ConnectFlag else if sh.watcher.dropped then Gone else Idle)
    case SetConnected => sh.(connected := true, watcher := Serving)
    case TakeChange => sh.(watcher := Arrived(sh.buffer[0]), buffer := sh.buffer[1..])
    case LockForChange => sh.(watcher := Applying(sh.watcher.change, None), lock := Held(Applier, Nothing))
    case PrepareChange(readAt, epoch) =>
      var result := DecisionResult(sh.watcher.change.decision.value, None, None);
      sh.(watcher := sh.watcher.(prepared :=
        Some(DecisionSnapshot(epoch, c.refreshBefore, c.freshness, readAt, result))))
    case SkipChange => sh.(watcher := Applied)
    case UnlockAfterChange => sh.(watcher := Serving, lock := Free)
    case Retire(f) => sh.(running := sh.running - {f})
    case Leave => CloseStream(sh, false)
    case DropWatcher => CloseStream(sh, true)
    case PublishForDisconnect => sh.(watcher := DisconnectFlag(sh.watcher.dropped))
    case ClearConnected => sh.(connected := false, watcher := DisconnectClear(sh.watcher.dropped))
  }

  /** Both publish sections of the watcher store an empty snapshot and outdate every claimed rebuild. */
  function WatchReader(reader: Reader, step: WatchStep): Reader {
    if step.PublishForConnect? || step.PublishForDisconnect?
    then reader.(generation := reader.generation + 1, snapshot := map[]) else reader
  }

  // ---------------------------------------------------------------- steps and runs

  datatype Step =
    | Outside(outside: OutsideStep)
    | OnMap(onMap: MapStep)
    | Insert(subject: Subject, readAt: nat)
    | OnEntry(e: nat, entryAction: EntryAction)
    | OnFetch(f: nat, fetchAction: FetchAction)
    | OnRebuild(onRebuild: RebuildStep)
    | OnWatch(onWatch: WatchStep)

  predicate ValidFetch(s: State, f: nat) {
    f < |s.fetches| && s.fetches[f].entry < |s.entries|
  }

  /** A prepared change carries the epoch of the entry it was prepared for; only finished refreshes retire. */
  predicate WatchMatches(s: State, step: WatchStep) {
    match step
    case PrepareChange(_, epoch) =>
      && WatchEnabled(s.shared, step)
      && var e := s.shared.subjects[s.shared.watcher.change.subject];
      e < |s.entries| && s.entries[e].epoch == epoch
    case Retire(f) => f < |s.fetches| && s.fetches[f].phase.Finished?
    case _ => true
  }

  predicate Enabled(c: Config, s: State, step: Step) {
    match step
    case Outside(outside) => OutsideEnabled(s.shared, outside)
    case OnMap(onMap) => MapEnabled(s.shared, onMap)
    case Insert(subject, readAt) => InsertEnabled(s.shared, subject, readAt)
    case OnEntry(e, action) => e < |s.entries| && EntryEnabled(c, s.shared, e, s.entries[e], action)
    case OnFetch(f, action) =>
      ValidFetch(s, f) && FetchEnabled(c, s.shared, f, s.fetches[f], s.entries[s.fetches[f].entry], action)
    case OnRebuild(onRebuild) => RebuildEnabled(s.shared, s.reader, onRebuild)
    case OnWatch(onWatch) => WatchEnabled(s.shared, onWatch) && WatchMatches(s, onWatch)
  }

  function Appended(fetches: seq<Fetch>, extra: Option<Fetch>): seq<Fetch> {
    if extra.Some? then fetches + [extra.value] else fetches
  }

  function Apply(c: Config, s: State, step: Step): State
    requires Enabled(c, s, step)
  {
    match step
    case Outside(outside) => s.(shared := OutsideApply(s.shared, outside))
    case OnMap(onMap) => s.(shared := MapApply(s.shared, onMap))
    case Insert(subject, readAt) =>
      State(s.entries + [NewEntry(s.shared, subject, readAt, |s.fetches|)],
            s.fetches + [NewLookup(|s.entries|, false)],
            Numbered(s.shared).(subjects := s.shared.subjects[subject := |s.entries|]), s.reader)
    case OnEntry(e, action) =>
      var next := EntryApply(c, s.shared, e, s.entries[e], action);
      State(s.entries[e := next.entry], Appended(s.fetches, next.claim), next.shared, s.reader)
    case OnFetch(f, action) =>
      var e := s.fetches[f].entry;
      var next := FetchApply(c, s.shared, f, s.fetches[f], s.entries[e], |s.fetches|, action);
      State(s.entries[e := next.entry], Appended(s.fetches[f := next.fetch], next.retry), next.shared, s.reader)
    case OnRebuild(onRebuild) => s.(reader := RebuildApply(c, s.shared, s.reader, onRebuild))
    case OnWatch(onWatch) =>
      s.(shared := WatchApply(c, s.shared, onWatch), reader := WatchReader(s.reader, onWatch))
  }

  /** `steps` can be taken one after the other from `s`. */
  predicate Runs(c: Config, s: State, steps: seq<Step>)
    decreases |steps|
  {
    steps != [] ==> Enabled(c, s, steps[0]) && Runs(c, Apply(c, s, steps[0]), steps[1..])
  }

  function After(c: Config, s: State, steps: seq<Step>): State
    requires Runs(c, s, steps)
    decreases |steps|
  {
    if steps == [] then s else After(c, Apply(c, s, steps[0]), steps[1..])
  }
}
