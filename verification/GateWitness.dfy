/** A run from the beginning in which a call of `admit` takes every round that the bound allows it. */
module GateWitness {
  import opened Options
  import opened Deadlines
  import opened GateModel
  import opened GateInvariants
  import opened GateRuns
  import opened GateSolo
  import opened GateCallers
  import opened GateCharges
  import opened GateRounds
  import opened GateAdmission
  import opened GateCosts

  // ---------------------------------------------------------------- a lookup nobody has polled

  /** The Pending entry that the map holds for the subject, if any, waits for a lookup not yet polled. */
  predicate FreshPending(s: State, subject: Subject) {
    var bound := Bound(s, subject);
    bound.Some? && bound.value < |s.entries| && StateIn(s.entries[bound.value]).Pending? ==>
      var e := bound.value;
      && s.entries[e].slot.Some? && s.entries[e].slot.value < |s.fetches|
      && s.fetches[s.entries[e].slot.value] == NewLookup(e, false)
  }

  /** The entry may be polled by whoever waits for it. */
  predicate Woken(s: State, stage: Stage) {
    stage.Classifying? || stage.LoadingSlot? || stage.Rechecking? ==> stage.e < |s.entries| && s.entries[stage.e].active
  }

  predicate NoRefresh(stage: Stage) {
    !stage.Offering? && !stage.Refreshing? && !stage.Confirming? && !stage.GivingBack?
  }

  /** A caller alone finds the lookup of a Pending entry as it was made, and an answer waiting for it. */
  predicate Primed(s: State, caller: Caller) {
    FreshPending(s, caller.subject) && Woken(s, caller.stage) && NoRefresh(caller.stage)
    && Current(s.shared, caller.subject).Some?
  }

  lemma InsertStaysPrimed(c: Config, s: State, caller: Caller, readAt: nat)
    requires s.shared.lock.Free? && caller.subject !in s.shared.subjects && readAt <= s.shared.now && Primed(s, caller)
    ensures Runs(c, s, InsertSteps(caller.subject, readAt))
    ensures Primed(After(c, s, InsertSteps(caller.subject, readAt)), caller.(stage := Found(|s.entries|)))
  {
    InsertRuns(c, s, caller.subject, readAt);
  }

  lemma RemovalStaysPrimed(c: Config, s: State, caller: Caller, e: nat)
    requires s.shared.lock.Free? && Bound(s, caller.subject) == Some(e) && e < |s.entries| && Primed(s, caller)
    ensures Runs(c, s, RemovalSteps(caller.subject, e))
    ensures Primed(After(c, s, RemovalSteps(caller.subject, e)), caller.(stage := Checking))
  {
    RemovalRuns(c, s, caller.subject, e);
  }

  lemma ReadStaysPrimed(s: State, t: State, caller: Caller, e: nat, readAt: nat)
    requires e < |s.entries| && WasRead(s, t, e, readAt) && Primed(s, caller)
    ensures FreshPending(t, caller.subject) && Current(t.shared, caller.subject).Some?
    ensures Woken(t, caller.stage) && forall x: nat :: x < |s.entries| ==> t.entries[x].active == s.entries[x].active
  {
  }

  lemma StillActStaysPrimed(c: Config, a: AdmitConfig, s: State, sends: nat, caller: Caller, act: Act)
    requires c.refreshBefore == 0 && Named(s, caller) && Primed(s, caller) && IsStillAct(act)
    requires Attempt(c, a, s, sends, caller, act).Some?
    ensures
      var effect := Attempt(c, a, s, sends, caller, act).value;
      effect.steps == [] && (effect.caller.stage.Ended? || Primed(s, effect.caller))
  {
  }

  /** Where a reading leads a primed caller: its entry is as active as it was. */
  lemma ReadLeadsOn(c: Config, a: AdmitConfig, s: State, sends: nat, caller: Caller, act: Act)
    requires c.refreshBefore == 0 && Named(s, caller) && Primed(s, caller) && IsReadAct(act)
    requires Attempt(c, a, s, sends, caller, act).Some? && EntryOf(caller.stage).Some?
    ensures
      var next := Attempt(c, a, s, sends, caller, act).value.caller;
      && next.subject == caller.subject
      && (next.stage.Ended? || (NoRefresh(next.stage) && Woken(s, next.stage)))
  {
  }

  lemma ReadActStaysPrimed(c: Config, a: AdmitConfig, s: State, sends: nat, caller: Caller, act: Act)
    requires c.refreshBefore == 0 && CallerInv(s, sends, caller) && Primed(s, caller) && IsReadAct(act)
    requires Attempt(c, a, s, sends, caller, act).Some? && EntryOf(caller.stage).Some?
    requires EntryBasics(s.shared, s.entries[EntryOf(caller.stage).value])
    ensures
      var effect := Attempt(c, a, s, sends, caller, act).value;
      Runs(c, s, effect.steps) && (effect.caller.stage.Ended? || Primed(After(c, s, effect.steps), effect.caller))
  {
    var effect, e := Attempt(c, a, s, sends, caller, act).value, EntryOf(caller.stage).value;
    ReadActSteps(c, a, s, sends, caller, act, act.readAt);
    ReadLeadsOn(c, a, s, sends, caller, act);
    ReadRuns(c, s, e, act.readAt);
    ReadStaysPrimed(s, After(c, s, effect.steps), caller, e, act.readAt);
  }

  lemma FlagActStaysPrimed(c: Config, a: AdmitConfig, s: State, sends: nat, caller: Caller)
    requires Named(s, caller) && Primed(s, caller) && Attempt(c, a, s, sends, caller, ReadFlag).Some?
    ensures
      var effect := Attempt(c, a, s, sends, caller, ReadFlag).value;
      Runs(c, s, effect.steps) && Primed(After(c, s, effect.steps), effect.caller)
  {
    var effect := Attempt(c, a, s, sends, caller, ReadFlag).value;
    if effect.steps != [] { OneStepRuns(c, s, effect.steps[0]); }
  }

  lemma MapActStaysPrimed(c: Config, a: AdmitConfig, s: State, sends: nat, caller: Caller, act: Act)
    requires Named(s, caller) && Primed(s, caller) && Attempt(c, a, s, sends, caller, act).Some?
    requires act.Find? || act.Remove? || act.Discard?
    ensures
      var effect := Attempt(c, a, s, sends, caller, act).value;
      Runs(c, s, effect.steps) && Primed(After(c, s, effect.steps), effect.caller)
  {
    var effect := Attempt(c, a, s, sends, caller, act).value;
    if effect.steps == [] {
      StandingStillTakes(c, s, effect);
    } else if act.Find? {
      InsertStaysPrimed(c, s, caller, act.readAt);
    } else {
      RemovalStaysPrimed(c, s, caller, caller.stage.e);
    }
  }

  lemma ActStaysPrimed(c: Config, a: AdmitConfig, s: State, sends: nat, caller: Caller, act: Act)
    requires c.refreshBefore == 0 && Inv(c, s) && CallerInv(s, sends, caller) && Primed(s, caller)
    requires Attempt(c, a, s, sends, caller, act).Some?
    ensures
      var effect := Attempt(c, a, s, sends, caller, act).value;
      Runs(c, s, effect.steps) && (effect.caller.stage.Ended? || Primed(After(c, s, effect.steps), effect.caller))
  {
    if IsReadAct(act) {
      assert EntryInv(c, s.shared, EntryOf(caller.stage).value, s.entries[EntryOf(caller.stage).value]);
      ReadActStaysPrimed(c, a, s, sends, caller, act);
    } else if act.ReadFlag? {
      FlagActStaysPrimed(c, a, s, sends, caller);
    } else if act.Find? || act.Remove? || act.Discard? {
      MapActStaysPrimed(c, a, s, sends, caller, act);
    } else if IsStillAct(act) {
      StillActStaysPrimed(c, a, s, sends, caller, act);
      StandingStillTakes(c, s, Attempt(c, a, s, sends, caller, act).value);
    }
  }

  lemma OwnMoveStaysPrimed(c: Config, a: AdmitConfig, sys: System, i: nat, act: Act)
    requires c.refreshBefore == 0 && Unhindered(c, sys, i) && Primed(sys.gate, sys.callers[i])
    requires Possible(c, a, sys, Own(i, act))
    ensures
      var t := AfterMove(c, a, sys, Own(i, act));
      i < |t.callers| && (t.callers[i].stage.Ended? || Primed(t.gate, t.callers[i]))
  {
    ReachableHolds(c, sys.gate);
    ActStaysPrimed(c, a, sys.gate, sys.sends, sys.callers[i], act);
  }

  lemma {:induction false} AloneStaysPrimed(
    c: Config, a: AdmitConfig, sys: System, i: nat, moves: seq<Move>, t: System)
    requires c.refreshBefore == 0 && Unhindered(c, sys, i) && Primed(sys.gate, sys.callers[i])
    requires OwnRun(c, a, sys, i, moves, t)
    ensures i < |t.callers| && (t.callers[i].stage.Ended? || Primed(t.gate, t.callers[i]))
    decreases |moves|
  {
    if moves != [] {
      var u := AfterMove(c, a, sys, moves[0]);
      OwnMoveStandsWell(c, a, sys, i, moves[0].act);
      OwnMoveStaysPrimed(c, a, sys, i, moves[0].act);
      FirstMove(c, a, sys, moves, t);
      if u.callers[i].stage.Ended? {
        if |moves| > 1 { EndedIsOver(c, a, u, i, moves[1].act); }
      } else {
        AloneStaysPrimed(c, a, u, i, moves[1..], t);
      }
    }
  }

  lemma PrimedIsAnswerable(c: Config, sys: System, i: nat, e: nat, f: nat)
    requires Unhindered(c, sys, i) && Primed(sys.gate, sys.callers[i]) && sys.callers[i].stage == Rechecking(e, f)
    ensures Answerable(sys.gate, e, f)
  {
    assert CallerInv(sys.gate, sys.sends, sys.callers[i]);
  }

  // ---------------------------------------------------------------- the beginning of a call

  /** A call that has read its deadline, with the flag up and the map's lock free. */
  lemma Enters(c: Config, a: AdmitConfig, sys: System, subject: Subject, seen: nat)
    returns (t: System, moves: seq<Move>, i: nat)
    requires SystemInv(c, sys) && AllNamed(sys) && seen <= sys.sends && a.timeout > 0
    requires sys.gate.shared.connected && sys.gate.shared.lock.Free?
    ensures Leads(c, a, sys, moves, t) && t.gate == sys.gate && t.sends == sys.sends
    ensures i == |sys.callers| && Unhindered(c, t, i) && t.callers[i].stage.Checking?
    ensures
      var caller := t.callers[i];
      && caller.subject == subject && caller.seen == seen && caller.rounds == 1
      && caller.foreign == 0 && caller.marks == 0 && caller.missed == One(seen != sys.sends)
  {
    i := |sys.callers|;
    var begun := AfterMove(c, a, sys, Begin(subject, seen));
    MoveKeeps(c, a, sys, Begin(subject, seen));
    AllAreNamed(c, begun);
    OwnMoveKeeps(c, a, begun, i, ReadDeadline);
    t := AfterMove(c, a, begun, Own(i, ReadDeadline));
    AllAreNamed(c, t);
    moves := [Begin(subject, seen), Own(i, ReadDeadline)];
    assert moves[1..][1..] == [] && Leads(c, a, t, [], t);
    assert Leads(c, a, begun, moves[1..], t);
    assert CallerInv(t.gate, t.sends, t.callers[i]);
  }

  /** Somebody holding a handle of a live entry invalidates it. */
  lemma Invalidated(c: Config, a: AdmitConfig, sys: System, e: nat) returns (t: System)
    requires SystemInv(c, sys) && AllNamed(sys) && e < |sys.gate.entries| && Lives(sys.gate, e)
    requires Bound(sys.gate, sys.gate.entries[e].subject) == Some(e)
    ensures Leads(c, a, sys, [Other(OnEntry(e, UserInvalidate))], t)
    ensures SystemInv(c, t) && AllNamed(t) && t.sends == sys.sends && t.gate.shared == Numbered(sys.gate.shared)
    ensures DeadBound(t.gate, sys.gate.entries[e].subject) && FreshPending(t.gate, sys.gate.entries[e].subject)
  {
    InvalidationConcerns(c, sys.gate, e);
    t := AfterMove(c, a, sys, Other(OnEntry(e, UserInvalidate)));
    MoveKeeps(c, a, sys, Other(OnEntry(e, UserInvalidate)));
    AllAreNamed(c, t);
    assert Leads(c, a, t, [], t);
    MoveThenRun(c, a, sys, Other(OnEntry(e, UserInvalidate)), [], t);
    assert [Other(OnEntry(e, UserInvalidate))] + [] == [Other(OnEntry(e, UserInvalidate))];
  }

  lemma BoundIsOfTheSubject(c: Config, sys: System, subject: Subject)
    requires SystemInv(c, sys) && Bound(sys.gate, subject).Some?
    ensures Bound(sys.gate, subject).value < |sys.gate.entries|
    ensures sys.gate.entries[Bound(sys.gate, subject).value].subject == subject
  {
    ReachableHolds(c, sys.gate);
  }

  /** A caller that nothing stands in the way of comes to load the slot of a lookup it can have answered. */
  lemma ComesToALookup(c: Config, a: AdmitConfig, sys: System, i: nat)
    returns (t: System, moves: seq<Move>, e: nat, f: nat)
    requires c.refreshBefore == 0 && Unhindered(c, sys, i) && Primed(sys.gate, sys.callers[i])
    requires sys.callers[i].stage.Checking?
    requires !DeadBound(sys.gate, sys.callers[i].subject) && !HasVerdict(sys.gate, sys.callers[i].subject)
    ensures Leads(c, a, sys, moves, t) && Unhindered(c, t, i) && t.sends == sys.sends
    ensures t.callers[i].stage == Rechecking(e, f) && Answerable(t.gate, e, f)
    ensures SameCall(sys.callers[i], t.callers[i]) && t.callers[i].rounds == sys.callers[i].rounds
    ensures Current(t.gate.shared, sys.callers[i].subject).Some?
  {
    t, moves := ComesToDecide(c, a, sys, i);
    AloneStaysPrimed(c, a, sys, i, moves, t);
    e, f := t.callers[i].stage.e, t.callers[i].stage.f;
    PrimedIsAnswerable(c, t, i, e, f);
  }

  /** The map holds an entry that a call has made and a lookup has resolved. */
  lemma LeavesALiveEntry(c: Config, a: AdmitConfig, sys: System, subject: Subject) returns (t: System, moves: seq<Move>)
    requires c.refreshBefore == 0 && c.freshness == DURATION_MAX && a.timeout > 0
    requires SystemInv(c, sys) && AllNamed(sys) && sys.gate.shared.connected && sys.gate.shared.lock.Free?
    requires Bound(sys.gate, subject).None? && Current(sys.gate.shared, subject).Some?
    ensures Leads(c, a, sys, moves, t) && SystemInv(c, t) && AllNamed(t) && t.sends == sys.sends
    ensures t.gate.shared.connected && t.gate.shared.lock.Free? && Current(t.gate.shared, subject).Some?
    ensures HasVerdict(t.gate, subject)
  {
    var entered, first, i := Enters(c, a, sys, subject, 0);
    var there, second, e, f := ComesToALookup(c, a, entered, i);
    RunThenRun(c, a, sys, first, entered, second, there);
    var third;
    t, third := AnsweredBeforeRecheck(c, a, there, i, e, f);
    RunThenRun(c, a, sys, first + second, there, third, t);
    moves := first + second + third;
  }

  /** The map holds an entry that a call has made, a lookup resolved, and a handle's owner invalidated. */
  lemma LeavesADeadEntry(c: Config, a: AdmitConfig, sys: System, subject: Subject) returns (t: System, moves: seq<Move>)
    requires c.refreshBefore == 0 && c.freshness == DURATION_MAX && a.timeout > 0
    requires SystemInv(c, sys) && AllNamed(sys) && sys.gate.shared.connected && sys.gate.shared.lock.Free?
    requires Bound(sys.gate, subject).None? && Current(sys.gate.shared, subject).Some?
    ensures Leads(c, a, sys, moves, t) && SystemInv(c, t) && AllNamed(t) && t.sends == sys.sends
    ensures t.gate.shared.connected && t.gate.shared.lock.Free? && Current(t.gate.shared, subject).Some?
    ensures DeadBound(t.gate, subject) && FreshPending(t.gate, subject)
  {
    var live;
    live, moves := LeavesALiveEntry(c, a, sys, subject);
    var e := Bound(live.gate, subject).value;
    BoundIsOfTheSubject(c, live, subject);
    t := Invalidated(c, a, live, e);
    RunThenRun(c, a, sys, moves, live, [Other(OnEntry(e, UserInvalidate))], t);
    moves := moves + [Other(OnEntry(e, UserInvalidate))];
  }

  // ---------------------------------------------------------------- the whole run

  /** A round that goes to a dead entry. */
  lemma SpendsARound(c: Config, a: AdmitConfig, sys: System, i: nat) returns (t: System, moves: seq<Move>)
    requires c.refreshBefore == 0 && Unhindered(c, sys, i) && Primed(sys.gate, sys.callers[i])
    requires DeadBound(sys.gate, sys.callers[i].subject)
    ensures Leads(c, a, sys, moves, t) && Unhindered(c, t, i) && Primed(t.gate, t.callers[i]) && t.sends == sys.sends
    ensures SameCall(sys.callers[i], t.callers[i]) && t.callers[i].seen == sys.callers[i].seen
    ensures t.callers[i].rounds == sys.callers[i].rounds + 1
    ensures !DeadBound(t.gate, sys.callers[i].subject) && !HasVerdict(t.gate, sys.callers[i].subject)
  {
    DeadIsNoVerdict(sys.gate, sys.callers[i].subject);
    t, moves := RoundAlone(c, a, sys, i);
    AloneStaysPrimed(c, a, sys, i, moves, t);
  }

  /** A round that goes to a version of the flag that the receiver has missed. */
  lemma CatchesUp(c: Config, a: AdmitConfig, sys: System, i: nat) returns (t: System, moves: seq<Move>)
    requires c.refreshBefore == 0 && Unhindered(c, sys, i) && Primed(sys.gate, sys.callers[i])
    requires !DeadBound(sys.gate, sys.callers[i].subject) && !HasVerdict(sys.gate, sys.callers[i].subject)
    requires sys.callers[i].seen != sys.sends
    ensures Leads(c, a, sys, moves, t) && Unhindered(c, t, i) && t.callers[i].stage.Checking?
    ensures Primed(t.gate, t.callers[i]) && SameCall(sys.callers[i], t.callers[i])
    ensures t.callers[i].rounds == sys.callers[i].rounds + 1
    ensures !DeadBound(t.gate, sys.callers[i].subject) && !HasVerdict(t.gate, sys.callers[i].subject)
  {
    t, moves := RoundAlone(c, a, sys, i);
    AloneStaysPrimed(c, a, sys, i, moves, t);
  }

  /**
   A gate that never refreshes and whose decisions never expire, its authority allowing subject 0, and an
   admission timeout of one tick; the clock stands still throughout.
   */
  const CONFIG := Config(0, DURATION_MAX, 0, 0, 1)
  const ADMIT_CONFIG := AdmitConfig(1, 1, 1)

  const START := System(
    State([], [],
          Shared(0, 0, {}, map[], Lock.Free, 0, false, Idle, [], {}, map[0 := Decision.Allowed], [], false),
          Reader(map[], 0, 0, false, [])),
    0, [])

  /** Steps of the gate while no call is under way. */
  lemma {:induction false} OthersRun(gate: State, sends: nat, steps: seq<Step>) returns (t: System, moves: seq<Move>)
    requires Runs(CONFIG, gate, steps) && forall k :: 0 <= k < |steps| ==> !steps[k].Insert?
    ensures Leads(CONFIG, ADMIT_CONFIG, System(gate, sends, []), moves, t)
    ensures t.gate == After(CONFIG, gate, steps) && t.callers == [] && sends <= t.sends
    ensures (exists k :: 0 <= k < |steps| && IsSend(steps[k])) ==> sends < t.sends
    decreases |steps|
  {
    var sys := System(gate, sends, []);
    if steps == [] {
      t, moves := sys, [];
    } else {
      var next := AfterMove(CONFIG, ADMIT_CONFIG, sys, Other(steps[0]));
      assert next == System(Apply(CONFIG, gate, steps[0]), next.sends, []);
      var rest;
      t, rest := OthersRun(next.gate, next.sends, steps[1..]);
      moves := [Other(steps[0])] + rest;
      MoveThenRun(CONFIG, ADMIT_CONFIG, sys, Other(steps[0]), rest, t);
    }
  }

  /** The watch opens, and the gate is cleared and connected. */
  const OPENING := [OnWatch(Open), OnWatch(OpenSucceeded), OnWatch(PublishForConnect)]
  const CONNECTING := OPENING + [OnWatch(BeginClear), OnWatch(FinishClear), OnWatch(SetConnected)]

  lemma Opens() returns (t: State)
    ensures At(CONFIG, START.gate, OPENING, t)
    ensures t.shared.watcher.ConnectClear? && t.shared.lock.Free?
    ensures t.shared.subjects == map[] && t.shared.authority == map[0 := Decision.Allowed]
  {
    var first, second := [OnWatch(Open)], [OnWatch(Open), OnWatch(OpenSucceeded)];
    t := Then(START.gate, [], START.gate, OnWatch(Open));
    t := Then(START.gate, first, t, OnWatch(OpenSucceeded));
    t := Then(START.gate, second, t, OnWatch(PublishForConnect));
    assert OPENING == second + [OnWatch(PublishForConnect)];
  }

  lemma Connects()
    ensures Runs(CONFIG, START.gate, CONNECTING)
    ensures
      var t := After(CONFIG, START.gate, CONNECTING);
      && t.shared.connected && t.shared.lock.Free? && t.shared.subjects == map[]
      && t.shared.authority == map[0 := Decision.Allowed]
  {
    var t := Opens();
    var clearing := OPENING + [OnWatch(BeginClear)];
    t := Then(START.gate, OPENING, t, OnWatch(BeginClear));
    assert t.shared.lock.owner.left == {};
    t := Then(START.gate, clearing, t, OnWatch(FinishClear));
    t := Then(START.gate, clearing + [OnWatch(FinishClear)], t, OnWatch(SetConnected));
    assert CONNECTING == clearing + [OnWatch(FinishClear)] + [OnWatch(SetConnected)];
  }

  /** One more step of a run. */
  lemma Then(start: State, steps: seq<Step>, s: State, step: Step) returns (t: State)
    requires At(CONFIG, start, steps, s) && Enabled(CONFIG, s, step)
    ensures t == Apply(CONFIG, s, step) && At(CONFIG, start, steps + [step], t)
  {
    t := Apply(CONFIG, s, step);
    RunsExtend(CONFIG, start, steps, step);
  }

  /** A connected gate with no calls under way and an empty map, reached from the beginning. */
  lemma Begins() returns (t: System, moves: seq<Move>)
    ensures InitSystem(START) && Leads(CONFIG, ADMIT_CONFIG, START, moves, t)
    ensures SystemInv(CONFIG, t) && AllNamed(t) && 0 < t.sends
    ensures t.gate.shared.connected && t.gate.shared.lock.Free?
    ensures Bound(t.gate, 0).None? && Current(t.gate.shared, 0).Some?
  {
    Connects();
    assert CONNECTING[5] == OnWatch(SetConnected) && IsSend(CONNECTING[5]);
    t, moves := OthersRun(START.gate, 0, CONNECTING);
    InitIsReachable(CONFIG, START.gate);
    SystemRunKeeps(CONFIG, ADMIT_CONFIG, START, moves);
    AllAreNamed(CONFIG, t);
  }

  /** From there to a second call with a dead entry and a missed version behind it, and a lookup before it. */
  lemma SecondCall(sys: System) returns (t: System, moves: seq<Move>, i: nat, e: nat, f: nat)
    requires SystemInv(CONFIG, sys) && AllNamed(sys) && 0 < sys.sends
    requires sys.gate.shared.connected && sys.gate.shared.lock.Free?
    requires Bound(sys.gate, 0).None? && Current(sys.gate.shared, 0).Some?
    ensures Leads(CONFIG, ADMIT_CONFIG, sys, moves, t) && Unhindered(CONFIG, t, i)
    ensures t.callers[i].stage == Rechecking(e, f) && Answerable(t.gate, e, f)
    ensures t.callers[i].rounds == 3 && t.callers[i].missed == 1 && t.callers[i].foreign == 0 && t.callers[i].marks == 0
  {
    var dead, first := LeavesADeadEntry(CONFIG, ADMIT_CONFIG, sys, 0);
    var entered, second;
    entered, second, i := Enters(CONFIG, ADMIT_CONFIG, dead, 0, 0);
    RunThenRun(CONFIG, ADMIT_CONFIG, sys, first, dead, second, entered);
    var cleared, third := SpendsARound(CONFIG, ADMIT_CONFIG, entered, i);
    RunThenRun(CONFIG, ADMIT_CONFIG, sys, first + second, entered, third, cleared);
    var caught, fourth := CatchesUp(CONFIG, ADMIT_CONFIG, cleared, i);
    RunThenRun(CONFIG, ADMIT_CONFIG, sys, first + second + third, cleared, fourth, caught);
    var last;
    t, last, e, f := ComesToALookup(CONFIG, ADMIT_CONFIG, caught, i);
    RunThenRun(CONFIG, ADMIT_CONFIG, sys, first + second + third + fourth, caught, last, t);
    moves := first + second + third + fourth + last;
  }

  /**
   The bound on rounds is met, and two more than the foreign steps and the missed version do not bound
   them. From the beginning, with every receiver starting at the flag's first version, a call begins its
   sixth round after two foreign steps, one of which killed an entry.
   */
  lemma TheBoundIsMet() returns (sys: System, i: nat)
    ensures ReachableSystem(CONFIG, ADMIT_CONFIG, sys) && i < |sys.callers|
    ensures
      var caller := sys.callers[i];
      && caller.missed == 1 && caller.foreign == 2 && caller.marks == 1
      && caller.rounds == 2 + caller.foreign + caller.marks + caller.missed
  {
    var connected, first := Begins();
    var there, second, e, f;
    there, second, i, e, f := SecondCall(connected);
    RunThenRun(CONFIG, ADMIT_CONFIG, START, first, connected, second, there);
    var last;
    sys, last := TwoMoreThanForeignIsNotEnough(CONFIG, ADMIT_CONFIG, there, i, e, f);
    RunThenRun(CONFIG, ADMIT_CONFIG, START, first + second, there, last, sys);
    assert Leads(CONFIG, ADMIT_CONFIG, START, first + second + last, sys);
  }
}
