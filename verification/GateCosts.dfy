/** Why a step that kills an entry counts twice in the bound on rounds: a run that needs it. */
module GateCosts {
  import opened Options
  import opened Deadlines
  import opened GateModel
  import opened GateInvariants
  import opened GateRuns
  import opened GateCallers
  import opened GateCharges
  import opened GateRounds
  import opened GateAdmission

  // ---------------------------------------------------------------- an invalidation costs two rounds

  lemma InvalidationConcerns(c: Config, s: State, e: nat)
    requires e < |s.entries| && Lives(s, e)
    ensures Enabled(c, s, OnEntry(e, UserInvalidate))
    ensures
      var t := Apply(c, s, OnEntry(e, UserInvalidate));
      && Concerns(s, t, s.entries[e].subject) && Marked(s, t, s.entries[e].subject)
      && StateIn(t.entries[e]).Stale? && |t.entries| == |s.entries|
      && t.shared == Numbered(s.shared)
  {
    var t := Apply(c, s, OnEntry(e, UserInvalidate));
    assert Touched(s, t, e) by {
      assert StateIn(t.entries[e]).Stale? && Live(s.entries[e]);
    }
    assert !Dead(s, e) && Dead(t, e);
  }

  lemma AllAreNamed(c: Config, sys: System)
    requires SystemInv(c, sys)
    ensures AllNamed(sys)
  {
    forall i: nat | i < |sys.callers| ensures Named(sys.gate, sys.callers[i]) {
      assert CallerInv(sys.gate, sys.sends, sys.callers[i]);
    }
  }

  /** A handle invalidated while a caller is about to check its verdict. */
  lemma InvalidatedMidRound(c: Config, a: AdmitConfig, sys: System, i: nat, e: nat) returns (t: System)
    requires SystemInv(c, sys) && AllNamed(sys) && i < |sys.callers| && sys.callers[i].stage == Accessing(e, false)
    requires Lives(sys.gate, e)
    ensures Possible(c, a, sys, Other(OnEntry(e, UserInvalidate)))
    ensures t == AfterMove(c, a, sys, Other(OnEntry(e, UserInvalidate))) && SystemInv(c, t) && AllNamed(t)
    ensures |t.callers| == |sys.callers| && t.sends == sys.sends && t.gate.shared == Numbered(sys.gate.shared)
    ensures e < |t.gate.entries| && StateIn(t.gate.entries[e]).Stale?
    ensures
      var caller := sys.callers[i];
      t.callers[i] == caller.(foreign := caller.foreign + 1, marks := caller.marks + 1, quiet := false)
  {
    InvalidationConcerns(c, sys.gate, e);
    t := AfterMove(c, a, sys, Other(OnEntry(e, UserInvalidate)));
    MoveKeeps(c, a, sys, Other(OnEntry(e, UserInvalidate)));
    AllAreNamed(c, t);
  }

  /** The verdict check then fails and ends the round. */
  lemma FailedAccess(c: Config, a: AdmitConfig, sys: System, i: nat, e: nat) returns (t: System)
    requires SystemInv(c, sys) && AllNamed(sys) && i < |sys.callers| && sys.callers[i].stage == Accessing(e, false)
    requires StateIn(sys.gate.entries[e]).Stale?
    ensures Possible(c, a, sys, Own(i, Access(sys.gate.shared.now)))
    ensures t == AfterMove(c, a, sys, Own(i, Access(sys.gate.shared.now))) && SystemInv(c, t) && AllNamed(t)
    ensures |t.callers| == |sys.callers| && t.sends == sys.sends && t.gate == sys.gate
    ensures t.callers[i] == Round([], sys.callers[i]).caller
  {
    assert CallerInv(sys.gate, sys.sends, sys.callers[i]);
    OwnMoveKeeps(c, a, sys, i, Access(sys.gate.shared.now));
    t := AfterMove(c, a, sys, Own(i, Access(sys.gate.shared.now)));
    AllAreNamed(c, t);
  }

  /** Invalidated just before the verdict check, the caller begins another round. */
  lemma InvalidatedBeforeAccess(c: Config, a: AdmitConfig, sys: System, i: nat) returns (t: System, moves: seq<Move>)
    requires Unhindered(c, sys, i) && sys.callers[i].stage.Accessing?
    ensures Leads(c, a, sys, moves, t)
    ensures Unhindered(c, t, i) && DeadBound(t.gate, sys.callers[i].subject)
    ensures
      var caller, next := sys.callers[i], t.callers[i];
      && next.rounds == caller.rounds + 1 && next.foreign == caller.foreign + 1 && next.marks == caller.marks + 1
      && next.subject == caller.subject && next.missed == caller.missed
  {
    var e := sys.callers[i].stage.e;
    assert CallerInv(sys.gate, sys.sends, sys.callers[i]);
    var marked := InvalidatedMidRound(c, a, sys, i, e);
    t := FailedAccess(c, a, marked, i, e);
    var mark, look := Other(OnEntry(e, UserInvalidate)), Own(i, Access(marked.gate.shared.now));
    moves := [mark, look];
    assert moves[1..] == [look] && [look][1..] == [];
    assert SystemRuns(c, a, t, []);
    assert SystemRuns(c, a, marked, [look]) && SystemAfter(c, a, marked, [look]) == t;
    assert CallerInv(t.gate, t.sends, t.callers[i]);
  }

  lemma VerdictIsAlive(s: State, subject: Subject)
    ensures HasVerdict(s, subject) ==> !DeadBound(s, subject)
  {
  }

  lemma DeadIsNoVerdict(s: State, subject: Subject)
    ensures DeadBound(s, subject) ==> !HasVerdict(s, subject)
  {
  }

  // ---------------------------------------------------------------- a lookup that nobody needs to wait for

  /** An action of a fetch that leaves its entry alone concerns no caller. */
  lemma PhaseMove(c: Config, a: AdmitConfig, sys: System, f: nat, action: FetchAction) returns (t: System)
    requires SystemInv(c, sys) && AllNamed(sys) && Enabled(c, sys.gate, OnFetch(f, action))
    requires
      var s, e := sys.gate, sys.gate.fetches[f].entry;
      var next := FetchApply(c, s.shared, f, s.fetches[f], s.entries[e], |s.fetches|, action);
      next.entry == s.entries[e] && next.shared == s.shared && next.retry.None?
    ensures Leads(c, a, sys, [Other(OnFetch(f, action))], t)
    ensures SystemInv(c, t) && AllNamed(t) && t.sends == sys.sends && t.callers == sys.callers
    ensures t.gate.entries == sys.gate.entries && t.gate.shared == sys.gate.shared && f < |t.gate.fetches|
    ensures
      var s, e := sys.gate, sys.gate.fetches[f].entry;
      t.gate.fetches[f] == FetchApply(c, s.shared, f, s.fetches[f], s.entries[e], |s.fetches|, action).fetch
  {
    t := AfterMove(c, a, sys, Other(OnFetch(f, action)));
    MoveKeeps(c, a, sys, Other(OnFetch(f, action)));
    AllAreNamed(c, t);
    assert Leads(c, a, t, [], t);
    MoveThenRun(c, a, sys, Other(OnFetch(f, action)), [], t);
    assert [Other(OnFetch(f, action))] + [] == [Other(OnFetch(f, action))];
    assert t.gate.entries == sys.gate.entries;
    forall i: nat | i < |sys.callers| ensures t.callers[i] == sys.callers[i] {
      assert !Concerns(sys.gate, t.gate, sys.callers[i].subject) && !Marked(sys.gate, t.gate, sys.callers[i].subject);
    }
  }

  /** The lookup in a Pending entry's slot, about to be polled, for a subject that the authority has decided on. */
  predicate Answerable(s: State, e: nat, f: nat) {
    && e < |s.entries| && f < |s.fetches| && s.fetches[f].entry == e
    && s.fetches[f].kind.Lookup? && s.fetches[f].phase == Phase.Waiting(false)
    && s.entries[e].active && AwaitsLookup(s.entries[e], f) && Current(s.shared, s.entries[e].subject).Some?
  }

  predicate HasAnswer(s: State, e: nat, f: nat, phase: Phase) {
    && e < |s.entries| && f < |s.fetches| && s.fetches[f].entry == e && s.fetches[f].kind.Lookup?
    && s.fetches[f].phase == phase && AwaitsLookup(s.entries[e], f)
  }

  function AnswerFor(s: State, e: nat): DecisionResult
    requires e < |s.entries| && Current(s.shared, s.entries[e].subject).Some?
  {
    DecisionResult(Current(s.shared, s.entries[e].subject).value, None, None)
  }

  /** The lookup is answered, which concerns no caller. */
  lemma Answered(c: Config, a: AdmitConfig, sys: System, e: nat, f: nat) returns (t: System, moves: seq<Move>)
    requires SystemInv(c, sys) && AllNamed(sys) && Answerable(sys.gate, e, f)
    ensures Leads(c, a, sys, moves, t) && SystemInv(c, t) && AllNamed(t)
    ensures t.sends == sys.sends && t.callers == sys.callers
    ensures t.gate.entries == sys.gate.entries && t.gate.shared == sys.gate.shared
    ensures HasAnswer(t.gate, e, f, Phase.Answered(Decided(AnswerFor(sys.gate, e))))
  {
    var polled := PhaseMove(c, a, sys, f, Poll);
    var asked := PhaseMove(c, a, polled, f, Consult);
    t := PhaseMove(c, a, asked, f, Reply(None, None));
    var first, second := [Other(OnFetch(f, Poll))], [Other(OnFetch(f, Consult))];
    var third := [Other(OnFetch(f, Reply(None, None)))];
    RunThenRun(c, a, sys, first, polled, second, asked);
    RunThenRun(c, a, sys, first + second, asked, third, t);
    moves := first + second + third;
  }

  function SnapshotFor(c: Config, s: State, e: nat): Snapshot
    requires e < |s.entries| && Current(s.shared, s.entries[e].subject).Some?
  {
    DecisionSnapshot(s.entries[e].epoch, c.refreshBefore, c.freshness, s.shared.now, AnswerFor(s, e))
  }

  /** The answer is prepared for publication, which concerns no caller either. */
  lemma MadeReady(c: Config, a: AdmitConfig, sys: System, e: nat, f: nat) returns (t: System, moves: seq<Move>)
    requires SystemInv(c, sys) && AllNamed(sys) && c.freshness == DURATION_MAX
    requires e < |sys.gate.entries| && Current(sys.gate.shared, sys.gate.entries[e].subject).Some?
    requires HasAnswer(sys.gate, e, f, Phase.Answered(Decided(AnswerFor(sys.gate, e))))
    ensures Leads(c, a, sys, moves, t) && SystemInv(c, t) && AllNamed(t)
    ensures t.sends == sys.sends && t.callers == sys.callers
    ensures t.gate.entries == sys.gate.entries && t.gate.shared == sys.gate.shared
    ensures HasAnswer(t.gate, e, f, Publishing(SnapshotFor(c, sys.gate, e), sys.gate.shared.now))
  {
    var checked := PhaseMove(c, a, sys, f, CheckGeneration);
    var prepared := PhaseMove(c, a, checked, f, Prepare);
    t := PhaseMove(c, a, prepared, f, FetchAction.Recheck);
    var first, second := [Other(OnFetch(f, CheckGeneration))], [Other(OnFetch(f, Prepare))];
    var third := [Other(OnFetch(f, FetchAction.Recheck))];
    RunThenRun(c, a, sys, first, checked, second, prepared);
    RunThenRun(c, a, sys, first + second, prepared, third, t);
    moves := first + second + third;
  }

  /** Its publication concerns the subject's callers, but kills nothing. */
  lemma Published(c: Config, a: AdmitConfig, sys: System, i: nat, e: nat, f: nat) returns (t: System)
    requires SystemInv(c, sys) && AllNamed(sys) && c.freshness == DURATION_MAX && i < |sys.callers|
    requires e < |sys.gate.entries| && Current(sys.gate.shared, sys.gate.entries[e].subject).Some?
    requires HasAnswer(sys.gate, e, f, Publishing(SnapshotFor(c, sys.gate, e), sys.gate.shared.now))
    requires sys.callers[i].subject == sys.gate.entries[e].subject && !sys.callers[i].stage.Ended?
    ensures Possible(c, a, sys, Other(OnFetch(f, Publish))) && t == AfterMove(c, a, sys, Other(OnFetch(f, Publish)))
    ensures SystemInv(c, t) && AllNamed(t) && t.sends == sys.sends && |t.callers| == |sys.callers|
    ensures e < |t.gate.entries| && Lives(t.gate, e) && t.gate.shared == Numbered(sys.gate.shared)
    ensures t.callers[i] == sys.callers[i].(foreign := sys.callers[i].foreign + 1, quiet := false)
  {
    t := AfterMove(c, a, sys, Other(OnFetch(f, Publish)));
    MoveKeeps(c, a, sys, Other(OnFetch(f, Publish)));
    AllAreNamed(c, t);
    assert t.gate.entries[e].cell.snapshot == SnapshotFor(c, sys.gate, e);
    assert Touched(sys.gate, t.gate, e);
    assert !Marked(sys.gate, t.gate, sys.callers[i].subject);
  }

  /** A caller that was about to wait for the lookup begins another round instead. */
  lemma FailedRecheck(c: Config, a: AdmitConfig, sys: System, i: nat, e: nat, f: nat) returns (t: System)
    requires SystemInv(c, sys) && AllNamed(sys) && i < |sys.callers| && sys.callers[i].stage == Rechecking(e, f)
    requires Lives(sys.gate, e)
    ensures Possible(c, a, sys, Own(i, RecheckState(sys.gate.shared.now)))
    ensures t == AfterMove(c, a, sys, Own(i, RecheckState(sys.gate.shared.now))) && SystemInv(c, t) && AllNamed(t)
    ensures |t.callers| == |sys.callers| && t.sends == sys.sends && t.gate == sys.gate
    ensures t.callers[i] == Round([], sys.callers[i]).caller
  {
    assert CallerInv(sys.gate, sys.sends, sys.callers[i]);
    OwnMoveKeeps(c, a, sys, i, RecheckState(sys.gate.shared.now));
    t := AfterMove(c, a, sys, Own(i, RecheckState(sys.gate.shared.now)));
    AllAreNamed(c, t);
  }

  lemma PublishedBeforeRecheck(c: Config, a: AdmitConfig, sys: System, i: nat, e: nat, f: nat)
    returns (t: System, moves: seq<Move>)
    requires Unhindered(c, sys, i) && sys.callers[i].stage == Rechecking(e, f) && c.freshness == DURATION_MAX
    requires e < |sys.gate.entries| && sys.gate.entries[e].subject == sys.callers[i].subject
    requires Bound(sys.gate, sys.callers[i].subject) == Some(e)
    requires Current(sys.gate.shared, sys.gate.entries[e].subject).Some?
    requires HasAnswer(sys.gate, e, f, Publishing(SnapshotFor(c, sys.gate, e), sys.gate.shared.now))
    ensures Leads(c, a, sys, moves, t) && Unhindered(c, t, i) && t.sends == sys.sends
    ensures t.callers[i].stage.Checking? && HasVerdict(t.gate, sys.callers[i].subject)
    ensures t.gate.shared.authority == sys.gate.shared.authority
    ensures
      var caller := sys.callers[i];
      t.callers[i] == Round([], caller.(foreign := caller.foreign + 1, quiet := false)).caller
  {
    var published := Published(c, a, sys, i, e, f);
    t := FailedRecheck(c, a, published, i, e, f);
    moves := [Other(OnFetch(f, Publish)), Own(i, RecheckState(published.gate.shared.now))];
    assert moves[1..][1..] == [];
    assert Leads(c, a, t, [], t);
    assert Leads(c, a, published, moves[1..], t);
    assert CallerInv(t.gate, t.sends, t.callers[i]);
  }

  /** The lookup's answer is published just as the caller has loaded its slot. */
  lemma AnsweredBeforeRecheck(c: Config, a: AdmitConfig, sys: System, i: nat, e: nat, f: nat)
    returns (t: System, moves: seq<Move>)
    requires Unhindered(c, sys, i) && sys.callers[i].stage == Rechecking(e, f)
    requires c.freshness == DURATION_MAX && Answerable(sys.gate, e, f)
    ensures Leads(c, a, sys, moves, t) && Unhindered(c, t, i) && t.sends == sys.sends
    ensures t.callers[i].stage.Checking? && HasVerdict(t.gate, sys.callers[i].subject)
    ensures t.gate.shared.authority == sys.gate.shared.authority
    ensures
      var caller := sys.callers[i];
      t.callers[i] == Round([], caller.(foreign := caller.foreign + 1, quiet := false)).caller
  {
    assert CallerInv(sys.gate, sys.sends, sys.callers[i]);
    var ready, first := MadeReadyUnseen(c, a, sys, i, e, f);
    var last;
    t, last := PublishedBeforeRecheck(c, a, ready, i, e, f);
    RunThenRun(c, a, sys, first, ready, last, t);
    moves := first + last;
  }

  /** All of a lookup up to its publication leaves an unhindered caller as it is. */
  lemma MadeReadyUnseen(c: Config, a: AdmitConfig, sys: System, i: nat, e: nat, f: nat)
    returns (t: System, moves: seq<Move>)
    requires Unhindered(c, sys, i) && c.freshness == DURATION_MAX && Answerable(sys.gate, e, f)
    ensures Leads(c, a, sys, moves, t) && Unhindered(c, t, i) && t.sends == sys.sends && t.callers == sys.callers
    ensures t.gate.entries == sys.gate.entries && t.gate.shared == sys.gate.shared
    ensures HasAnswer(t.gate, e, f, Publishing(SnapshotFor(c, sys.gate, e), sys.gate.shared.now))
  {
    var answered, first := Answered(c, a, sys, e, f);
    var second;
    t, second := MadeReady(c, a, answered, e, f);
    RunThenRun(c, a, sys, first, answered, second, t);
    moves := first + second;
    assert CallerInv(t.gate, t.sends, t.callers[i]);
  }

  // ---------------------------------------------------------------- on the way to a verdict or a lookup

  /** The stages from the top of a round to where it has a verdict to check or a lookup to wait for. */
  predicate OnTheWay(stage: Stage) {
    || stage.Checking? || stage.Connecting? || stage.Finding? || stage.Found? || stage.InTime?
    || stage.Classifying? || stage.LoadingSlot?
  }

  predicate Arrived(stage: Stage, verdict: bool) {
    if verdict then stage.Accessing? else stage.Rechecking?
  }

  lemma SomethingAhead(c: Config, a: AdmitConfig, s: State, sends: nat, caller: Caller, act: Act)
    requires Undisturbed(s, sends, caller) && OnTheWay(caller.stage) && !DeadBound(s, caller.subject)
    requires caller.stage.LoadingSlot? ==> s.entries[caller.stage.e].slot.Some? && !HasVerdict(s, caller.subject)
    requires act == NextAct(c, s, sends, caller) && Attempt(c, a, s, sends, caller, act).Some?
    ensures
      var effect := Attempt(c, a, s, sends, caller, act).value;
      !effect.again && (OnTheWay(effect.caller.stage) || Arrived(effect.caller.stage, HasVerdict(s, caller.subject)))
  {
  }

  /** One more action of an unhindered caller on its way. */
  lemma OneStepOn(c: Config, a: AdmitConfig, sys: System, i: nat) returns (u: System, act: Act)
    requires Unhindered(c, sys, i) && OnTheWay(sys.callers[i].stage) && !DeadBound(sys.gate, sys.callers[i].subject)
    ensures Possible(c, a, sys, Own(i, act)) && u == AfterMove(c, a, sys, Own(i, act)) && Unhindered(c, u, i)
    ensures SameCall(sys.callers[i], u.callers[i]) && u.callers[i].rounds == sys.callers[i].rounds
    ensures HasVerdict(u.gate, sys.callers[i].subject) == HasVerdict(sys.gate, sys.callers[i].subject)
    ensures !DeadBound(u.gate, sys.callers[i].subject) && u.sends == sys.sends
    ensures OnTheWay(u.callers[i].stage) || Arrived(u.callers[i].stage, HasVerdict(sys.gate, sys.callers[i].subject))
    ensures Rank(sys.gate, sys.sends, sys.callers[i]) < Rank(u.gate, u.sends, u.callers[i])
  {
    var caller := sys.callers[i];
    if caller.stage.LoadingSlot? {
      ReachableHolds(c, sys.gate);
      assert CallerInv(sys.gate, sys.sends, caller);
      assert EntryInv(c, sys.gate.shared, caller.stage.e, sys.gate.entries[caller.stage.e]);
      WaitsForTheMaps(sys.gate, caller);
    }
    u, act := OwnMoveIsFree(c, a, sys, i);
    SomethingAhead(c, a, sys.gate, sys.sends, caller, act);
    RoundStops(c, sys.gate, caller, u, Attempt(c, a, sys.gate, sys.sends, caller, act).value, i);
  }

  /** An unhindered caller with no dead entry in its way comes to check a verdict or to wait for a lookup. */
  lemma {:induction false} ComesToDecide(c: Config, a: AdmitConfig, sys: System, i: nat)
    returns (t: System, moves: seq<Move>)
    requires Unhindered(c, sys, i) && OnTheWay(sys.callers[i].stage) && !DeadBound(sys.gate, sys.callers[i].subject)
    ensures OwnRun(c, a, sys, i, moves, t) && Unhindered(c, t, i) && t.sends == sys.sends
    ensures Arrived(t.callers[i].stage, HasVerdict(sys.gate, sys.callers[i].subject))
    ensures SameCall(sys.callers[i], t.callers[i]) && t.callers[i].rounds == sys.callers[i].rounds
    decreases 29 - Rank(sys.gate, sys.sends, sys.callers[i])
  {
    var u, act := OneStepOn(c, a, sys, i);
    var rest := [];
    t := u;
    if OnTheWay(u.callers[i].stage) {
      t, rest := ComesToDecide(c, a, u, i);
    }
    moves := [Own(i, act)] + rest;
    assert Leads(c, a, u, rest, t);
    MoveThenRun(c, a, sys, Own(i, act), rest, t);
  }

  // ---------------------------------------------------------------- the runs that cost most

  /**
   One step of others can cost a caller two rounds: an invalidation just before the verdict check ends
   that round, and the next one goes to taking the dead entry out. This is why marks count twice.
   */
  lemma OneMarkCostsTwoRounds(c: Config, a: AdmitConfig, sys: System, i: nat) returns (t: System, moves: seq<Move>)
    requires Unhindered(c, sys, i) && sys.callers[i].stage.Accessing?
    ensures Leads(c, a, sys, moves, t) && i < |t.callers|
    ensures t.callers[i].rounds == sys.callers[i].rounds + 2
    ensures t.callers[i].foreign == sys.callers[i].foreign + 1 && t.callers[i].marks == sys.callers[i].marks + 1
    ensures t.callers[i].missed == sys.callers[i].missed
  {
    var first, rest;
    first, moves := InvalidatedBeforeAccess(c, a, sys, i);
    t, rest := RoundAlone(c, a, first, i);
    DeadIsNoVerdict(first.gate, first.callers[i].subject);
    RunThenRun(c, a, sys, moves, first, rest, t);
    moves := moves + rest;
  }

  /**
   Two rounds more than the foreign steps and the missed version are not enough. A caller that has spent
   one round on a dead entry, one more if it had a version of the flag to catch up with, and none on
   anybody else, has loaded the slot of a new entry: one publication and one invalidation, each at the
   wrong moment, cost it three rounds.
   */
  lemma TwoMoreThanForeignIsNotEnough(c: Config, a: AdmitConfig, sys: System, i: nat, e: nat, f: nat)
    returns (t: System, moves: seq<Move>)
    requires Unhindered(c, sys, i) && sys.callers[i].stage == Rechecking(e, f)
    requires c.freshness == DURATION_MAX && Answerable(sys.gate, e, f)
    requires sys.callers[i].rounds == 2 + sys.callers[i].missed
    requires sys.callers[i].foreign == 0 && sys.callers[i].marks == 0
    ensures Leads(c, a, sys, moves, t) && i < |t.callers|
    ensures t.callers[i].rounds == 5 + t.callers[i].missed && t.callers[i].missed == sys.callers[i].missed
    ensures t.callers[i].foreign == 2 && t.callers[i].marks == 1
  {
    var live, first := AnsweredBeforeRecheck(c, a, sys, i, e, f);
    VerdictIsAlive(live.gate, live.callers[i].subject);
    var there, second := ComesToDecide(c, a, live, i);
    RunThenRun(c, a, sys, first, live, second, there);
    var last;
    t, last := OneMarkCostsTwoRounds(c, a, there, i);
    RunThenRun(c, a, sys, first + second, there, last, t);
    moves := first + second + last;
  }
}
