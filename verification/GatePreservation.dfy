/** Every action keeps the facts of `GateInvariants` about the records it touches and those it does not. */
module GatePreservation {
  import opened Options
  import opened Deadlines
  import opened GateModel
  import opened GateInvariants

  // ---------------------------------------------------------------- undelivered changes

  /** Every map slot at `e` is under its entry's own subject. */
  ghost predicate Pointed(sh: Shared, e: nat, entry: Entry) {
    forall x :: x in sh.subjects && sh.subjects[x] == e ==> x == entry.subject
  }

  lemma MentionsAround(first: Change, changes: seq<Change>, last: Change, subject: Subject)
    ensures Mentions([first] + changes, subject) <==> first.subject == subject || Mentions(changes, subject)
    ensures Mentions(changes + [last], subject) <==> Mentions(changes, subject) || last.subject == subject
  {
    if first.subject == subject { assert ([first] + changes)[0].subject == subject; }
    if last.subject == subject { assert (changes + [last])[|changes|].subject == subject; }
    if Mentions(changes, subject) {
      var i :| 0 <= i < |changes| && changes[i].subject == subject;
      assert ([first] + changes)[i + 1].subject == subject;
      assert (changes + [last])[i].subject == subject;
    }
  }

  lemma OrderedTail(sh: Shared, changes: seq<Change>)
    requires changes != [] && Ordered(sh, changes)
    ensures Ordered(sh, changes[1..])
    ensures !Mentions(changes[1..], changes[0].subject) ==> changes[0].decision == Current(sh, changes[0].subject)
  {
    forall i | 0 <= i < |changes[1..]| && !Mentions(changes[1..][i + 1..], changes[1..][i].subject)
      ensures changes[1..][i].decision == Current(sh, changes[1..][i].subject)
    {
      assert changes[1..][i + 1..] == changes[i + 2..];
      assert changes[1..][i] == changes[i + 1];
    }
  }

  lemma DecideKeepsOrder(sh: Shared, subject: Subject, decision: Option<Decision>)
    requires sh.streamOpen && Ordered(sh, Undelivered(sh))
    ensures
      var next := OutsideApply(sh, Decide(subject, decision));
      Undelivered(next) == Undelivered(sh) + [Change(subject, decision)] && Ordered(next, Undelivered(next))
  {
    var next := OutsideApply(sh, Decide(subject, decision));
    var old', changes, last := Undelivered(sh), Undelivered(next), Change(subject, decision);
    assert changes == old' + [last];
    forall i | 0 <= i < |changes| && !Mentions(changes[i + 1..], changes[i].subject)
      ensures changes[i].decision == Current(next, changes[i].subject)
    {
      if i < |old'| {
        assert changes[i + 1..] == old'[i + 1..] + [last];
        MentionsAround(last, old'[i + 1..], last, changes[i].subject);
      }
    }
  }

  // ---------------------------------------------------------------- fetch actions

  /** What a fetch action may do to the shared state. */
  ghost predicate FetchMovesShared(sh: Shared, next: Shared, f: nat, e: nat) {
    && next == sh.(nextCell := next.nextCell, aborting := next.aborting, lock := next.lock,
                   queue := next.queue, running := next.running)
    && sh.nextCell <= next.nextCell
    && (next.aborting == sh.aborting || next.aborting == sh.aborting - {f})
    && (next.lock == sh.lock || (sh.lock == Held(Caller, Nothing) && next.lock == Held(Caller, PopDue(e))))
    && (|| (next.queue == sh.queue && next.running == sh.running)
        || (next.queue == sh.queue + [f] && next.running == sh.running && f !in sh.queue)
        || (sh.queue != [] && sh.queue[0] == f && next.queue == sh.queue[1..] && next.running == sh.running + {f}
            && sh.watcher.Serving?))
  }

  /** What a fetch action may do to its entry: its own slot, one new snapshot, one more failure. */
  ghost predicate FetchMovesEntry(
    c: Config, sh: Shared, f: nat, fetch: Fetch, spare: nat, entry: Entry, next: Entry)
  {
    && next == entry.(cell := next.cell, slot := next.slot, notBefore := next.notBefore, failures := next.failures)
    && (|| next.cell == entry.cell
        || next.cell == Cell(sh.nextCell, WITHDRAWN_SNAPSHOT)
        || (&& fetch.phase.Publishing? && MayStore(fetch, entry)
            && next.cell == Cell(sh.nextCell, fetch.phase.snapshot)))
    && (|| next.slot == entry.slot
        || (entry.slot == Some(f) && (next.slot == None || next.slot == Some(spare)))
        || (entry.slot == None && next.slot == Some(f)))
    && (|| (next.failures == entry.failures && next.notBefore == entry.notBefore)
        || (&& next.failures == entry.failures + [Tick(entry.epoch, sh.now)]
            && next.notBefore == CooledDown(c, Tick(entry.epoch, sh.now))))
  }

  /** A slot is emptied only once its entry is resolved, and a stale mark is followed by the removal. */
  ghost predicate FetchMovesTogether(sh: Shared, fetch: Fetch, entry: Entry, next: Entry, sh': Shared) {
    && (next.cell != entry.cell ==> next.cell.id < sh'.nextCell)
    && (next.slot != entry.slot && StateIn(next).Pending? ==> next.slot.Some?)
    && (sh'.lock != sh.lock ==> InMap(sh, fetch.entry, entry) && StateIn(next).Stale?)
  }

  lemma FetchMoves(
    c: Config, sh: Shared, f: nat, fetch: Fetch, entry: Entry, spare: nat, action: FetchAction)
    requires FetchBasics(sh, fetch, entry) && FetchQueued(sh, f, fetch)
    requires FetchEnabled(c, sh, f, fetch, entry, action)
    ensures
      var next := FetchApply(c, sh, f, fetch, entry, spare, action);
      && FetchMovesShared(sh, next.shared, f, fetch.entry)
      && FetchMovesEntry(c, sh, f, fetch, spare, entry, next.entry)
  {
    match action
    case Publish =>
    case FailRemove =>
    case CoolDown =>
    case Receive =>
    case _ =>
  }

  lemma FetchKeepsIdentity(
    c: Config, sh: Shared, f: nat, fetch: Fetch, entry: Entry, spare: nat, action: FetchAction)
    requires FetchEnabled(c, sh, f, fetch, entry, action)
    ensures
      var next := FetchApply(c, sh, f, fetch, entry, spare, action);
      next.fetch.entry == fetch.entry && next.fetch.kind == fetch.kind
  {
  }

  lemma FetchMovesBoth(
    c: Config, sh: Shared, f: nat, fetch: Fetch, entry: Entry, spare: nat, action: FetchAction)
    requires EntryBasics(sh, entry) && FetchBasics(sh, fetch, entry)
    requires FetchSlot(sh, f, fetch, entry) && FetchServes(f, fetch, entry)
    requires FetchEnabled(c, sh, f, fetch, entry, action)
    ensures
      var next := FetchApply(c, sh, f, fetch, entry, spare, action);
      FetchMovesTogether(sh, fetch, entry, next.entry, next.shared)
  {
    match action
    case Publish =>
    case FailRemove =>
    case Replace =>
    case _ =>
  }

  lemma FetchKeepsEntry(
    c: Config, sh: Shared, f: nat, fetch: Fetch, entry: Entry, spare: nat, action: FetchAction)
    requires EntryInv(c, sh, fetch.entry, entry) && FetchInv(c, sh, f, fetch, entry) && SharedInv(sh)
    requires FetchEnabled(c, sh, f, fetch, entry, action)
    ensures
      var next := FetchApply(c, sh, f, fetch, entry, spare, action);
      EntryInv(c, next.shared, fetch.entry, next.entry)
  {
    FetchMoves(c, sh, f, fetch, entry, spare, action);
    FetchMovesBoth(c, sh, f, fetch, entry, spare, action);
    var next := FetchApply(c, sh, f, fetch, entry, spare, action);
    MovedEntryHolds(c, sh, f, fetch, spare, entry, next.entry, next.shared);
  }

  lemma MovedEntryHolds(
    c: Config, sh: Shared, f: nat, fetch: Fetch, spare: nat, entry: Entry, next: Entry, sh': Shared)
    requires EntryInv(c, sh, fetch.entry, entry) && FetchInv(c, sh, f, fetch, entry) && SharedInv(sh)
    requires FetchMovesShared(sh, sh', f, fetch.entry) && FetchMovesEntry(c, sh, f, fetch, spare, entry, next)
    requires FetchMovesTogether(sh, fetch, entry, next, sh')
    ensures EntryInv(c, sh', fetch.entry, next)
  {
  }

  lemma FetchKeepsOwnBasics(
    c: Config, sh: Shared, f: nat, fetch: Fetch, entry: Entry, spare: nat, action: FetchAction)
    requires EntryBasics(sh, entry)
    requires FetchBasics(sh, fetch, entry) && FetchQueued(sh, f, fetch)
    requires FetchEnabled(c, sh, f, fetch, entry, action)
    ensures
      var next := FetchApply(c, sh, f, fetch, entry, spare, action);
      FetchBasics(next.shared, next.fetch, next.entry)
  {
    match action
    case Prepare =>
    case Publish =>
    case Revalidate =>
    case _ =>
  }

  lemma FetchKeepsOwnSlot(
    c: Config, sh: Shared, f: nat, fetch: Fetch, entry: Entry, spare: nat, action: FetchAction)
    requires FetchBasics(sh, fetch, entry) && FetchSlot(sh, f, fetch, entry)
    requires FetchQueued(sh, f, fetch)
    requires FetchEnabled(c, sh, f, fetch, entry, action) && f != spare
    ensures
      var next := FetchApply(c, sh, f, fetch, entry, spare, action);
      FetchSlot(next.shared, f, next.fetch, next.entry)
  {
  }

  lemma FetchKeepsOwnService(
    c: Config, sh: Shared, f: nat, fetch: Fetch, entry: Entry, spare: nat, action: FetchAction)
    requires EntryBasics(sh, entry) && EntryPlace(sh, fetch.entry, entry)
    requires FetchBasics(sh, fetch, entry) && FetchServes(f, fetch, entry) && FetchQueued(sh, f, fetch)
    requires FetchEnabled(c, sh, f, fetch, entry, action) && f != spare
    ensures
      var next := FetchApply(c, sh, f, fetch, entry, spare, action);
      FetchServes(f, next.fetch, next.entry)
  {
  }

  lemma FetchKeepsOwnQueueing(
    c: Config, sh: Shared, f: nat, fetch: Fetch, entry: Entry, spare: nat, action: FetchAction)
    requires FetchBasics(sh, fetch, entry) && FetchQueued(sh, f, fetch) && Distinct(sh.queue)
    requires FetchEnabled(c, sh, f, fetch, entry, action)
    ensures
      var next := FetchApply(c, sh, f, fetch, entry, spare, action);
      FetchQueued(next.shared, f, next.fetch)
  {
    match action
    case Send =>
    case Receive =>
    case _ =>
  }

  lemma FetchKeepsOwnClaim(
    c: Config, sh: Shared, f: nat, fetch: Fetch, entry: Entry, spare: nat, action: FetchAction)
    requires EntryBasics(sh, entry) && EntryPlace(sh, fetch.entry, entry)
    requires FetchBasics(sh, fetch, entry) && FetchSlot(sh, f, fetch, entry)
    requires FetchQueued(sh, f, fetch) && FetchClaim(sh, f, fetch, entry)
    requires FetchEnabled(c, sh, f, fetch, entry, action) && f != spare
    ensures
      var next := FetchApply(c, sh, f, fetch, entry, spare, action);
      FetchClaim(next.shared, f, next.fetch, next.entry)
  {
    match action
    case Prepare =>
    case Publish =>
    case Revalidate =>
    case FailRemove =>
    case Receive =>
    case _ =>
  }

  lemma FetchKeepsOwnEra(
    c: Config, sh: Shared, f: nat, fetch: Fetch, entry: Entry, spare: nat, action: FetchAction)
    requires EntryEra(sh, fetch.entry, entry)
    requires FetchBasics(sh, fetch, entry) && FetchQueued(sh, f, fetch) && FetchEra(sh, fetch, entry)
    requires FetchEnabled(c, sh, f, fetch, entry, action)
    ensures
      var next := FetchApply(c, sh, f, fetch, entry, spare, action);
      FetchEra(next.shared, next.fetch, next.entry)
  {
    match action
    case Poll =>
    case Prepare =>
    case Publish =>
    case _ =>
  }

  /** A fetch carries on the decision it has read, or the authority's current one, over the same snapshot. */
  lemma FetchCarriesOn(
    c: Config, sh: Shared, f: nat, fetch: Fetch, entry: Entry, spare: nat, action: FetchAction)
    requires FetchBasics(sh, fetch, entry) && FetchEnabled(c, sh, f, fetch, entry, action)
    ensures
      var next := FetchApply(c, sh, f, fetch, entry, spare, action);
      Carried(next.fetch.phase).Some? ==>
        && next.entry.cell == entry.cell
        && (Carried(next.fetch.phase) == Carried(fetch.phase) || Carried(next.fetch.phase) == Current(sh, entry.subject))
  {
    match action
    case Prepare =>
    case Publish =>
    case _ =>
  }

  lemma FetchKeepsOwnDecision(
    c: Config, sh: Shared, f: nat, fetch: Fetch, entry: Entry, spare: nat, action: FetchAction)
    requires FetchBasics(sh, fetch, entry) && FetchQueued(sh, f, fetch) && FetchAgrees(sh, fetch, entry)
    requires FetchEnabled(c, sh, f, fetch, entry, action)
    ensures
      var next := FetchApply(c, sh, f, fetch, entry, spare, action);
      FetchAgrees(next.shared, next.fetch, next.entry)
  {
    FetchMoves(c, sh, f, fetch, entry, spare, action);
    FetchCarriesOn(c, sh, f, fetch, entry, spare, action);
  }

  lemma FetchKeepsOwnCooling(
    c: Config, sh: Shared, f: nat, fetch: Fetch, entry: Entry, spare: nat, action: FetchAction)
    requires EntryCooling(c, sh, entry)
    requires FetchBasics(sh, fetch, entry) && FetchCooling(c, sh, fetch, entry)
    requires FetchEnabled(c, sh, f, fetch, entry, action)
    ensures
      var next := FetchApply(c, sh, f, fetch, entry, spare, action);
      FetchCooling(c, next.shared, next.fetch, next.entry)
  {
    match action
    case Prepare =>
    case Publish =>
    case Revalidate =>
    case _ =>
  }

  lemma FetchKeepsItself(
    c: Config, sh: Shared, f: nat, fetch: Fetch, entry: Entry, spare: nat, action: FetchAction)
    requires EntryInv(c, sh, fetch.entry, entry) && FetchInv(c, sh, f, fetch, entry) && SharedInv(sh)
    requires FetchEnabled(c, sh, f, fetch, entry, action) && f != spare
    ensures
      var next := FetchApply(c, sh, f, fetch, entry, spare, action);
      FetchInv(c, next.shared, f, next.fetch, next.entry)
  {
    FetchKeepsOwnBasics(c, sh, f, fetch, entry, spare, action);
    FetchKeepsOwnSlot(c, sh, f, fetch, entry, spare, action);
    FetchKeepsOwnService(c, sh, f, fetch, entry, spare, action);
    FetchKeepsOwnQueueing(c, sh, f, fetch, entry, spare, action);
    FetchKeepsOwnClaim(c, sh, f, fetch, entry, spare, action);
    FetchKeepsOwnEra(c, sh, f, fetch, entry, spare, action);
    FetchKeepsOwnDecision(c, sh, f, fetch, entry, spare, action);
    FetchKeepsOwnCooling(c, sh, f, fetch, entry, spare, action);
  }

  lemma FetchKeepsOthers(
    c: Config, sh: Shared, sh': Shared, f: nat, fetch: Fetch, entry: Entry, next: Entry, spare: nat,
    g: nat, other: Fetch, own: Entry)
    requires FetchMovesShared(sh, sh', f, fetch.entry) && FetchMovesEntry(c, sh, f, fetch, spare, entry, next)
    requires FetchBasics(sh, fetch, entry) && f != g && g != spare
    requires FetchInv(c, sh, g, other, own) && (other.entry == fetch.entry ==> own == entry)
    ensures FetchInv(c, sh', g, other, if other.entry == fetch.entry then next else own)
  {
  }

  lemma FetchKeepsOtherEntries(c: Config, sh: Shared, sh': Shared, f: nat, e: nat, e': nat, own: Entry)
    requires FetchMovesShared(sh, sh', f, e) && EntryInv(c, sh, e', own) && e != e'
    ensures EntryInv(c, sh', e', own)
  {
  }

  lemma FetchKeepsShared(sh: Shared, sh': Shared, f: nat, e: nat)
    requires FetchMovesShared(sh, sh', f, e) && SharedInv(sh)
    ensures SharedInv(sh')
  {
  }

  lemma RetryIsServed(
    c: Config, sh: Shared, f: nat, fetch: Fetch, entry: Entry, spare: nat, action: FetchAction)
    requires EntryInv(c, sh, fetch.entry, entry) && FetchInv(c, sh, f, fetch, entry) && SharedInv(sh)
    requires FetchEnabled(c, sh, f, fetch, entry, action)
    requires spare !in sh.aborting && spare !in sh.running && spare !in sh.queue
    ensures
      var next := FetchApply(c, sh, f, fetch, entry, spare, action);
      next.retry.Some? ==>
        next.retry.value.entry == fetch.entry && FetchInv(c, next.shared, spare, next.retry.value, next.entry)
  {
  }

  /** Everything a fetch action owes to the records it touches. */
  lemma FetchKeepsRecords(
    c: Config, sh: Shared, f: nat, fetch: Fetch, entry: Entry, spare: nat, action: FetchAction)
    requires EntryInv(c, sh, fetch.entry, entry) && FetchInv(c, sh, f, fetch, entry) && SharedInv(sh)
    requires FetchEnabled(c, sh, f, fetch, entry, action) && f != spare
    requires spare !in sh.aborting && spare !in sh.running && spare !in sh.queue
    ensures
      var next := FetchApply(c, sh, f, fetch, entry, spare, action);
      && next.fetch.entry == fetch.entry && next.fetch.kind == fetch.kind
      && FetchMovesShared(sh, next.shared, f, fetch.entry)
      && FetchMovesEntry(c, sh, f, fetch, spare, entry, next.entry)
      && SharedInv(next.shared) && EntryInv(c, next.shared, fetch.entry, next.entry)
      && FetchInv(c, next.shared, f, next.fetch, next.entry)
      && (next.retry.Some? ==>
            next.retry.value.entry == fetch.entry && FetchInv(c, next.shared, spare, next.retry.value, next.entry))
      && (next.entry.slot == Some(spare) && entry.slot != Some(spare) ==> next.retry.Some?)
  {
    var next := FetchApply(c, sh, f, fetch, entry, spare, action);
    FetchMoves(c, sh, f, fetch, entry, spare, action);
    FetchKeepsIdentity(c, sh, f, fetch, entry, spare, action);
    FetchKeepsShared(sh, next.shared, f, fetch.entry);
    FetchKeepsEntry(c, sh, f, fetch, entry, spare, action);
    FetchKeepsItself(c, sh, f, fetch, entry, spare, action);
    RetryIsServed(c, sh, f, fetch, entry, spare, action);
  }

  // ---------------------------------------------------------------- entry actions

  /** What an entry action may do: never to the entry's identity or failures, never to the map. */
  ghost predicate EntryMoves(sh: Shared, entry: Entry, next: EntryOutcome) {
    && next.entry == entry.(cell := next.entry.cell, slot := next.entry.slot,
                            active := next.entry.active, owedAborts := next.entry.owedAborts)
    && next.shared.subjects == sh.subjects
    && (next.shared.lock.Held? && next.shared.lock.todo.InvalidateDue? ==> next.shared.lock == sh.lock)
  }

  lemma EntryActionsMove(c: Config, sh: Shared, e: nat, entry: Entry, action: EntryAction)
    requires EntryEnabled(c, sh, e, entry, action)
    ensures EntryMoves(sh, entry, EntryApply(c, sh, e, entry, action))
  {
  }

  lemma EntryKeepsOwnAgreement(c: Config, sh: Shared, e: nat, entry: Entry, action: EntryAction)
    requires EntryAgrees(sh, e, entry) && SharedInv(sh) && EntryEnabled(c, sh, e, entry, action)
    ensures var next := EntryApply(c, sh, e, entry, action); EntryAgrees(next.shared, e, next.entry)
  {
    var next := EntryApply(c, sh, e, entry, action);
    if action.StoreChange? {
      if sh.streamOpen {
        OrderedTail(sh, Undelivered(sh));
        assert Undelivered(sh)[1..] == sh.buffer == Undelivered(next.shared);
      }
    } else if Live(next.entry) {
      assert Kept(next.shared, e, next.entry) ==> Kept(sh, e, entry);
      assert next.entry.cell == entry.cell && Undelivered(next.shared) == Undelivered(sh);
    }
  }

  lemma EntryKeepsItself(c: Config, sh: Shared, e: nat, entry: Entry, action: EntryAction)
    requires EntryInv(c, sh, e, entry) && SharedInv(sh) && EntryEnabled(c, sh, e, entry, action)
    ensures var next := EntryApply(c, sh, e, entry, action); EntryInv(c, next.shared, e, next.entry)
  {
    EntryKeepsOwnAgreement(c, sh, e, entry, action);
  }

  lemma EntryKeepsFetchSlots(
    c: Config, sh: Shared, e: nat, entry: Entry, action: EntryAction, g: nat, other: Fetch, own: Entry)
    requires EntryBasics(sh, entry) && EntryPlace(sh, e, entry) && WatchShape(sh) && EntryEnabled(c, sh, e, entry, action)
    requires FetchBasics(sh, other, own) && FetchSlot(sh, g, other, own)
    requires FetchServes(g, other, own) && FetchQueued(sh, g, other)
    requires if other.entry == e then own == entry else entry.slot != Some(g)
    ensures
      var next := EntryApply(c, sh, e, entry, action);
      var own' := if other.entry == e then next.entry else own;
      && FetchBasics(next.shared, other, own') && FetchSlot(next.shared, g, other, own')
      && FetchServes(g, other, own') && FetchQueued(next.shared, g, other)
  {
  }

  lemma EntryKeepsFetchClaims(
    c: Config, sh: Shared, e: nat, entry: Entry, action: EntryAction, g: nat, other: Fetch, own: Entry)
    requires EntryBasics(sh, entry) && EntryPlace(sh, e, entry) && EntryEnabled(c, sh, e, entry, action)
    requires FetchBasics(sh, other, own) && FetchClaim(sh, g, other, own)
    requires FetchEra(sh, other, own) && FetchCooling(c, sh, other, own)
    requires if other.entry == e then own == entry else entry.slot != Some(g)
    ensures
      var next := EntryApply(c, sh, e, entry, action);
      var own' := if other.entry == e then next.entry else own;
      && FetchClaim(next.shared, g, other, own') && FetchEra(next.shared, other, own')
      && FetchCooling(c, next.shared, other, own')
  {
  }

  lemma EntryKeepsFetchDecision(
    c: Config, sh: Shared, e: nat, entry: Entry, action: EntryAction, g: nat, other: Fetch, own: Entry)
    requires EntryBasics(sh, entry) && WatchShape(sh) && EntryEnabled(c, sh, e, entry, action)
    requires FetchBasics(sh, other, own) && FetchAgrees(sh, other, own)
    requires other.entry == e ==> own == entry
    ensures
      var next := EntryApply(c, sh, e, entry, action);
      FetchAgrees(next.shared, other, if other.entry == e then next.entry else own)
  {
    if action.StoreChange? {
      MentionsAround(sh.watcher.change, sh.buffer, sh.watcher.change, own.subject);
    }
  }

  lemma EntryKeepsFetches(
    c: Config, sh: Shared, e: nat, entry: Entry, action: EntryAction, g: nat, other: Fetch, own: Entry)
    requires EntryInv(c, sh, e, entry) && SharedInv(sh) && EntryEnabled(c, sh, e, entry, action)
    requires FetchInv(c, sh, g, other, own)
    requires if other.entry == e then own == entry else entry.slot != Some(g)
    ensures
      var next := EntryApply(c, sh, e, entry, action);
      FetchInv(c, next.shared, g, other, if other.entry == e then next.entry else own)
  {
    EntryKeepsFetchSlots(c, sh, e, entry, action, g, other, own);
    EntryKeepsFetchClaims(c, sh, e, entry, action, g, other, own);
    EntryKeepsFetchDecision(c, sh, e, entry, action, g, other, own);
  }

  lemma EntryKeepsOtherEntries(
    c: Config, sh: Shared, e: nat, entry: Entry, action: EntryAction, e': nat, own: Entry)
    requires EntryEnabled(c, sh, e, entry, action) && EntryInv(c, sh, e', own) && e != e' && SharedInv(sh)
    ensures EntryInv(c, EntryApply(c, sh, e, entry, action).shared, e', own)
  {
    if action.StoreChange? {
      MentionsAround(sh.watcher.change, sh.buffer, sh.watcher.change, own.subject);
    }
  }

  lemma StoreChangeKeepsShared(c: Config, sh: Shared, e: nat, entry: Entry, action: EntryAction)
    requires SharedInv(sh) && EntryEnabled(c, sh, e, entry, action) && action.StoreChange?
    ensures SharedInv(EntryApply(c, sh, e, entry, action).shared)
  {
    if sh.streamOpen {
      OrderedTail(sh, Undelivered(sh));
      assert Undelivered(sh)[1..] == sh.buffer;
    }
  }

  lemma EntryKeepsShared(c: Config, sh: Shared, e: nat, entry: Entry, action: EntryAction)
    requires SharedInv(sh) && EntryEnabled(c, sh, e, entry, action)
    ensures SharedInv(EntryApply(c, sh, e, entry, action).shared)
  {
    if action.StoreChange? {
      StoreChangeKeepsShared(c, sh, e, entry, action);
    }
  }

  lemma ClaimIsServed(c: Config, sh: Shared, e: nat, entry: Entry, action: EntryAction, spare: nat)
    requires EntryInv(c, sh, e, entry) && SharedInv(sh) && EntryEnabled(c, sh, e, entry, action)
    requires spare !in sh.aborting && spare !in sh.running && spare !in sh.queue && entry.slot != Some(spare)
    ensures
      var next := EntryApply(c, sh, e, entry, action);
      next.claim.Some? ==> next.claim.value.entry == e && FetchInv(c, next.shared, spare, next.claim.value, next.entry)
  {
  }

  // ---------------------------------------------------------------- insertions

  lemma InsertedEntryIsServed(c: Config, sh: Shared, subject: Subject, readAt: nat, e: nat, f: nat)
    requires SharedInv(sh) && InsertEnabled(sh, subject, readAt)
    requires f !in sh.aborting && f !in sh.running && f !in sh.queue
    ensures
      var next := Numbered(sh).(subjects := sh.subjects[subject := e]);
      && EntryInv(c, next, e, NewEntry(sh, subject, readAt, f))
      && FetchInv(c, next, f, NewLookup(e, false), NewEntry(sh, subject, readAt, f))
      && SharedInv(next)
  {
  }

  lemma InsertKeepsEntries(c: Config, sh: Shared, subject: Subject, readAt: nat, spare: nat, e: nat, own: Entry)
    requires InsertEnabled(sh, subject, readAt) && EntryInv(c, sh, e, own) && e != spare
    ensures EntryInv(c, Numbered(sh).(subjects := sh.subjects[subject := spare]), e, own)
  {
  }

  lemma InsertKeepsFetches(
    c: Config, sh: Shared, subject: Subject, readAt: nat, spare: nat, g: nat, other: Fetch, own: Entry)
    requires InsertEnabled(sh, subject, readAt) && FetchInv(c, sh, g, other, own) && other.entry != spare
    ensures FetchInv(c, Numbered(sh).(subjects := sh.subjects[subject := spare]), g, other, own)
  {
  }

  // ---------------------------------------------------------------- outside steps

  lemma OutsideKeepsEntries(c: Config, sh: Shared, step: OutsideStep, e: nat, own: Entry)
    requires OutsideEnabled(sh, step) && EntryInv(c, sh, e, own)
    ensures EntryInv(c, OutsideApply(sh, step), e, own)
  {
    if step.Decide? {
      MentionsAround(Change(step.subject, step.decision), Undelivered(sh), Change(step.subject, step.decision), own.subject);
      assert sh.streamOpen ==> Undelivered(OutsideApply(sh, step)) == Undelivered(sh) + [Change(step.subject, step.decision)];
    }
  }

  lemma OutsideKeepsFetches(c: Config, sh: Shared, step: OutsideStep, g: nat, other: Fetch, own: Entry)
    requires OutsideEnabled(sh, step) && FetchInv(c, sh, g, other, own)
    ensures FetchInv(c, OutsideApply(sh, step), g, other, own)
  {
    if step.Decide? {
      MentionsAround(Change(step.subject, step.decision), Undelivered(sh), Change(step.subject, step.decision), own.subject);
      assert sh.streamOpen ==> Undelivered(OutsideApply(sh, step)) == Undelivered(sh) + [Change(step.subject, step.decision)];
    }
  }

  lemma OutsideKeepsShared(sh: Shared, step: OutsideStep)
    requires OutsideEnabled(sh, step) && SharedInv(sh)
    ensures SharedInv(OutsideApply(sh, step))
  {
    if step.Decide? && sh.streamOpen {
      DecideKeepsOrder(sh, step.subject, step.decision);
    }
  }

  // ---------------------------------------------------------------- map steps

  lemma MapKeepsEntries(c: Config, sh: Shared, step: MapStep, e: nat, own: Entry)
    requires MapEnabled(sh, step) && EntryInv(c, sh, e, own) && SharedInv(sh)
    requires Pointed(sh, e, own)
    ensures EntryInv(c, MapApply(sh, step), e, own)
  {
  }

  lemma MapKeepsFetches(c: Config, sh: Shared, step: MapStep, g: nat, other: Fetch, own: Entry)
    requires MapEnabled(sh, step) && FetchInv(c, sh, g, other, own) && Pointed(sh, other.entry, own)
    ensures FetchInv(c, MapApply(sh, step), g, other, own)
  {
  }

  lemma MapKeepsShared(sh: Shared, step: MapStep)
    requires MapEnabled(sh, step) && SharedInv(sh)
    ensures SharedInv(MapApply(sh, step))
  {
  }

  // ---------------------------------------------------------------- watch steps

  lemma WatchKeepsEntries(c: Config, sh: Shared, step: WatchStep, e: nat, own: Entry)
    requires WatchEnabled(sh, step) && EntryInv(c, sh, e, own) && SharedInv(sh)
    requires Pointed(sh, e, own)
    ensures EntryInv(c, WatchApply(c, sh, step), e, own)
  {
    if step.TakeChange? {
      assert Undelivered(WatchApply(c, sh, step)) == Undelivered(sh);
    } else if step.SkipChange? {
      MentionsAround(sh.watcher.change, sh.buffer, sh.watcher.change, own.subject);
    }
  }

  lemma WatchKeepsFetchSlots(c: Config, sh: Shared, step: WatchStep, g: nat, other: Fetch, own: Entry)
    requires WatchEnabled(sh, step) && WatchShape(sh)
    requires FetchBasics(sh, other, own) && FetchSlot(sh, g, other, own) && FetchQueued(sh, g, other)
    requires FetchClaim(sh, g, other, own)
    requires step.Retire? && step.f == g ==> other.phase.Finished?
    ensures
      var next := WatchApply(c, sh, step);
      && FetchBasics(next, other, own) && FetchSlot(next, g, other, own)
      && FetchQueued(next, g, other) && FetchClaim(next, g, other, own)
  {
  }

  lemma WatchKeepsFetchDecision(c: Config, sh: Shared, step: WatchStep, g: nat, other: Fetch, own: Entry)
    requires WatchEnabled(sh, step) && WatchShape(sh) && EntryEra(sh, other.entry, own)
    requires FetchEra(sh, other, own) && FetchAgrees(sh, other, own) && FetchCooling(c, sh, other, own)
    ensures
      var next := WatchApply(c, sh, step);
      FetchEra(next, other, own) && FetchAgrees(next, other, own) && FetchCooling(c, next, other, own)
  {
    if step.TakeChange? {
      assert Undelivered(WatchApply(c, sh, step)) == Undelivered(sh);
    } else if step.SkipChange? {
      MentionsAround(sh.watcher.change, sh.buffer, sh.watcher.change, own.subject);
    }
  }

  lemma WatchKeepsFetches(c: Config, sh: Shared, step: WatchStep, g: nat, other: Fetch, own: Entry)
    requires WatchEnabled(sh, step) && SharedInv(sh)
    requires FetchInv(c, sh, g, other, own) && EntryInv(c, sh, other.entry, own)
    requires step.Retire? && step.f == g ==> other.phase.Finished?
    ensures FetchInv(c, WatchApply(c, sh, step), g, other, own)
  {
    WatchKeepsFetchSlots(c, sh, step, g, other, own);
    WatchKeepsFetchDecision(c, sh, step, g, other, own);
  }

  lemma WatchKeepsShapes(c: Config, sh: Shared, step: WatchStep)
    requires WatchEnabled(sh, step) && LockShape(sh) && WatchShape(sh)
    ensures
      var next := WatchApply(c, sh, step);
      LockShape(next) && WatchShape(next) && next.queue == sh.queue
  {
  }

  lemma WatchKeepsOrder(c: Config, sh: Shared, step: WatchStep)
    requires WatchEnabled(sh, step) && WatchShape(sh)
    requires sh.streamOpen ==> Ordered(sh, Undelivered(sh))
    ensures
      var next := WatchApply(c, sh, step);
      next.streamOpen ==> Ordered(next, Undelivered(next))
  {
    var next := WatchApply(c, sh, step);
    if step.SkipChange? && sh.streamOpen {
      OrderedTail(sh, Undelivered(sh));
      assert Undelivered(sh)[1..] == Undelivered(next);
    } else if next.streamOpen && !step.StreamOpened? {
      assert Undelivered(next) == Undelivered(sh);
    }
  }

  lemma WatchKeepsShared(c: Config, sh: Shared, step: WatchStep)
    requires WatchEnabled(sh, step) && SharedInv(sh)
    ensures SharedInv(WatchApply(c, sh, step))
  {
    WatchKeepsShapes(c, sh, step);
    WatchKeepsOrder(c, sh, step);
  }
}
