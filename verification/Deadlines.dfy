/**
 Decisions, entry states and the deadline arithmetic of a subject entry.

 Instants and durations are nanosecond counts. A tick is an instant measured from an entry's epoch
 and clamped to the 62 bits that share one word with the two state bits.
 */
module Deadlines {
  import opened Options

  const NO_EXPIRY: nat := 0x3FFF_FFFF_FFFF_FFFF
  const MAX_FINITE_DEADLINE: nat := NO_EXPIRY - 1
  /** The longest representable duration, used by the configuration as "never expires". */
  const DURATION_MAX: nat := U64_MAX * 1_000_000_000 + 999_999_999

  type Payload = nat

  datatype Decision = Allowed | Denied

  datatype EntryState = Pending | Allowed | Denied | Stale {
    predicate IsVerdict() {
      Allowed? || Denied?
    }
  }

  /** What a lookup answers: a decision, its payload and an anchored cap on its validity. */
  datatype DecisionResult = DecisionResult(decision: Decision, payload: Option<Payload>, validUntil: Option<nat>)

  /** One immutable value of an entry's cell. State and deadline travel in one packed word. */
  datatype Snapshot = Snapshot(state: EntryState, deadline: nat, payload: Option<Payload>, refreshAfter: nat)

  const PENDING_SNAPSHOT := Snapshot(EntryState.Pending, NO_EXPIRY, None, 0)
  const WITHDRAWN_SNAPSHOT := Snapshot(EntryState.Stale, NO_EXPIRY, None, 0)

  function StateOf(decision: Decision): EntryState {
    match decision
    case Allowed => EntryState.Allowed
    case Denied => EntryState.Denied
  }

  // ---------------------------------------------------------------- packing

  function StateCode(state: EntryState): nat {
    match state
    case Pending => 0
    case Allowed => 1
    case Denied => 2
    case Stale => 3
  }

  function DecodeState(word: nat): EntryState {
    if word % 4 == 0 then EntryState.Pending
    else if word % 4 == 1 then EntryState.Allowed
    else if word % 4 == 2 then EntryState.Denied
    else EntryState.Stale
  }

  /** The 64-bit word: the shift drops whatever does not fit. */
  function Word(state: EntryState, deadline: nat): nat {
    (deadline * 4) % TWO_64 + StateCode(state)
  }

  function DeadlineOf(word: nat): nat {
    word / 4
  }

  /** The word with its two state bits replaced by the stale code. */
  function StaleWord(word: nat): nat {
    word - word % 4 + StateCode(EntryState.Stale)
  }

  /** A state always survives packing; a deadline does exactly when it fits the 62 upper bits. */
  lemma PackingRoundTrips(state: EntryState, deadline: nat)
    ensures DecodeState(Word(state, deadline)) == state
    ensures DeadlineOf(Word(state, deadline)) == deadline <==> deadline <= NO_EXPIRY
    ensures Word(state, deadline) <= U64_MAX
  {
    var shifted := (deadline * 4) % TWO_64;
    assert shifted % 4 == 0 by {
      assert deadline * 4 == TWO_64 * ((deadline * 4) / TWO_64) + shifted;
    }
    if deadline <= NO_EXPIRY {
      assert shifted == deadline * 4;
    }
  }

  /** Marking a packed word stale keeps its deadline: it is the stale snapshot's own word. */
  lemma StaleWordKeepsDeadline(state: EntryState, deadline: nat)
    requires deadline <= NO_EXPIRY
    ensures StaleWord(Word(state, deadline)) == Word(EntryState.Stale, deadline)
    ensures StaleWord(Word(state, deadline)) == Word(state, deadline) <==> state.Stale?
  {
    PackingRoundTrips(state, deadline);
  }

  /** The snapshot stored by the expiry latch and by an invalidation. */
  function StaleOf(snapshot: Snapshot): Snapshot {
    Snapshot(EntryState.Stale, snapshot.deadline, None, 0)
  }

  // ---------------------------------------------------------------- expiry

  function Tick(epoch: nat, now: nat): nat {
    var elapsed := SatSub(now, epoch);
    if elapsed > U64_MAX then MAX_FINITE_DEADLINE else Min(elapsed, MAX_FINITE_DEADLINE)
  }

  function DeadlineAfter(epoch: nat, now: nat, ttl: nat): nat {
    if ttl == DURATION_MAX then NO_EXPIRY
    else if ttl > U64_MAX then Tick(epoch, now)
    else
      var sum := Tick(epoch, now) + ttl;
      if sum > U64_MAX || sum >= NO_EXPIRY then Tick(epoch, now) else sum
  }

  predicate IsExpired(snapshot: Snapshot, epoch: nat, now: nat) {
    snapshot.deadline != NO_EXPIRY && Tick(epoch, now) >= snapshot.deadline
  }

  function DecisionSnapshot(epoch: nat, refreshBefore: nat, ttl: nat, now: nat, result: DecisionResult): Snapshot {
    var configured := DeadlineAfter(epoch, now, ttl);
    var deadline := if result.validUntil.Some? then Min(configured, Tick(epoch, result.validUntil.value)) else configured;
    var remaining := SatSub(deadline, Tick(epoch, now));
    var refreshAfter := if remaining <= refreshBefore then Tick(epoch, now) + (remaining + 1) / 2 else 0;
    var payload := if result.decision.Allowed? then result.payload else None;
    Snapshot(StateOf(result.decision), deadline, payload, refreshAfter)
  }

  /** Every snapshot the gate stores fits its word, and only an allowed one carries a payload. */
  predicate Sound(snapshot: Snapshot) {
    && snapshot.deadline <= NO_EXPIRY
    && (snapshot.payload.Some? ==> snapshot.state.Allowed?)
  }

  lemma TickIsMonotone(epoch: nat, earlier: nat, later: nat)
    requires earlier <= later
    ensures Tick(epoch, earlier) <= Tick(epoch, later) <= MAX_FINITE_DEADLINE
  {
  }

  /** The instant at which the configured freshness ends, if it ever does. */
  function ConfiguredLimit(epoch: nat, now: nat, ttl: nat): Option<nat> {
    if ttl == DURATION_MAX then None
    else if now - epoch + ttl < NO_EXPIRY then Some(now + ttl)
    else Some(now)
  }

  /**
   While the clock is inside the range an entry can represent, a decision taken at `now` is expired
   at `later` exactly when the configured freshness or the source's own cap has been reached. A
   finite freshness that cannot be represented has been reached at once.
   */
  lemma ExpiresExactlyAtTheEarlierLimit(
    epoch: nat, refreshBefore: nat, ttl: nat, now: nat, later: nat, result: DecisionResult)
    requires epoch <= now <= later < epoch + MAX_FINITE_DEADLINE
    ensures
      var limit := ConfiguredLimit(epoch, now, ttl);
      IsExpired(DecisionSnapshot(epoch, refreshBefore, ttl, now, result), epoch, later) <==>
      || (limit.Some? && limit.value <= later)
      || (result.validUntil.Some? && result.validUntil.value <= later)
  {
    assert Tick(epoch, now) == now - epoch && Tick(epoch, later) == later - epoch;
  }

  /**
   A decision never expires only when the configuration says so and the source sets no cap. In every
   other case its deadline is finite, and a clock past the representable range expires it at once.
   */
  lemma OnlyAnUncappedSentinelNeverExpires(
    epoch: nat, refreshBefore: nat, ttl: nat, now: nat, later: nat, result: DecisionResult)
    requires now <= later
    ensures
      var snapshot := DecisionSnapshot(epoch, refreshBefore, ttl, now, result);
      && Sound(snapshot)
      && (snapshot.deadline == NO_EXPIRY <==> ttl == DURATION_MAX && result.validUntil.None?)
      && (snapshot.payload.Some? <==> result.decision.Allowed? && result.payload.Some?)
      && (snapshot.deadline != NO_EXPIRY && epoch + MAX_FINITE_DEADLINE <= now
          ==> IsExpired(snapshot, epoch, later))
  {
    TickIsMonotone(epoch, now, later);
  }

  // ---------------------------------------------------------------- refresh window

  predicate RefreshEligible(snapshot: Snapshot, tick: nat, refreshBefore: nat, notBefore: nat) {
    && snapshot.deadline != NO_EXPIRY
    && snapshot.state.IsVerdict()
    && tick < snapshot.deadline
    && snapshot.refreshAfter <= tick
    && snapshot.deadline - tick <= refreshBefore
    && notBefore <= tick
  }

  /** What is left of a snapshot's life at the instant it was prepared. */
  function Remaining(snapshot: Snapshot, epoch: nat, prepared: nat): nat {
    SatSub(snapshot.deadline, Tick(epoch, prepared))
  }

  /** A refresh that ended at `prepared`, having been found due at `started` against `before`. */
  datatype Refreshed = Refreshed(started: nat, prepared: nat)

  /** The fixed part of a refresh history: one source answer, one freshness, one refresh window. */
  datatype Source = Source(epoch: nat, window: nat, ttl: nat, result: DecisionResult) {
    function SnapshotAt(prepared: nat): Snapshot {
      DecisionSnapshot(epoch, window, ttl, prepared, result)
    }

    predicate LandsInWindow(prepared: nat) {
      Remaining(SnapshotAt(prepared), epoch, prepared) <= window
    }

    /** A prepared snapshot that has already expired is never published. */
    predicate Publishes(prepared: nat) {
      !IsExpired(SnapshotAt(prepared), epoch, prepared)
    }
  }

  /**
   Successive published refreshes of one entry whose source keeps giving the same answer: the first
   snapshot was prepared at `first`, and each refresh was due under the snapshot before it.
   */
  predicate RefreshRun(source: Source, first: nat, run: seq<Refreshed>)
    decreases |run|
  {
    && source.Publishes(first)
    && (run != [] ==>
          && first <= run[0].started <= run[0].prepared
          && RefreshEligible(source.SnapshotAt(first), Tick(source.epoch, run[0].started), source.window, 0)
          && RefreshRun(source, run[0].prepared, run[1..]))
  }

  function Landings(source: Source, run: seq<Refreshed>): nat {
    if run == [] then 0
    else (if source.LandsInWindow(run[0].prepared) then 1 else 0) + Landings(source, run[1..])
  }

  function Pow2(n: nat): nat {
    if n == 0 then 1 else 2 * Pow2(n - 1)
  }

  /** From a snapshot inside the window, the next published one is inside it too, with half the life left. */
  lemma RefreshHalvesTheRemainder(source: Source, first: nat, next: Refreshed)
    requires source.window < source.ttl
    requires source.Publishes(first) && source.LandsInWindow(first) && source.Publishes(next.prepared)
    requires first <= next.started <= next.prepared
    requires RefreshEligible(source.SnapshotAt(first), Tick(source.epoch, next.started), source.window, 0)
    ensures source.LandsInWindow(next.prepared)
    ensures 1 <= Remaining(source.SnapshotAt(next.prepared), source.epoch, next.prepared)
    ensures 2 * Remaining(source.SnapshotAt(next.prepared), source.epoch, next.prepared)
            <= Remaining(source.SnapshotAt(first), source.epoch, first)
  {
    TickIsMonotone(source.epoch, first, next.started);
    TickIsMonotone(source.epoch, next.started, next.prepared);
  }

  lemma {:induction false} InWindowRunIsShort(source: Source, first: nat, run: seq<Refreshed>)
    requires source.window < source.ttl
    requires RefreshRun(source, first, run) && source.LandsInWindow(first)
    ensures Landings(source, run) == |run|
    ensures Pow2(|run|) <= Remaining(source.SnapshotAt(first), source.epoch, first)
    decreases |run|
  {
    if run != [] {
      RefreshHalvesTheRemainder(source, first, run[0]);
      InWindowRunIsShort(source, run[0].prepared, run[1..]);
    }
  }

  /**
   However long a source keeps returning the same cap, the refreshes that land inside the refresh
   window before expiry number at most one more than the binary logarithm of the window.
   */
  lemma {:induction false} RefreshesAreLogarithmic(source: Source, first: nat, run: seq<Refreshed>)
    requires source.window < source.ttl
    requires RefreshRun(source, first, run)
    ensures Landings(source, run) > 0 ==> Pow2(Landings(source, run) - 1) <= source.window
    decreases |run|
  {
    if run != [] {
      if source.LandsInWindow(run[0].prepared) {
        InWindowRunIsShort(source, run[0].prepared, run[1..]);
      } else {
        RefreshesAreLogarithmic(source, run[0].prepared, run[1..]);
      }
    }
  }
}
