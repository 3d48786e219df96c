/** An admission that nobody interferes with: what it returns, what it waits for, and how many rounds it needs. */
module GateAdmission {
  import opened Options
  import opened Deadlines
  import opened GateModel
  import opened GateInvariants
  import opened GateRuns
  import opened GateCallers
  import opened GateCharges
  import opened GateRounds

  /** The map holds a verdict for the subject that the clock has not overtaken. */
  predicate HasVerdict(s: State, subject: Subject) {
    Bound(s, subject).Some? && Bound(s, subject).value < |s.entries| && Lives(s, Bound(s, subject).value)
  }

  /** What stays as it is while only one caller acts. */
  ghost predicate SameWorld(s: State, t: State, subject: Subject) {
    && t.shared.now == s.shared.now && t.shared.connected == s.shared.connected && t.shared.lock.Free?
    && HasVerdict(t, subject) == HasVerdict(s, subject)
  }

  lemma InsertKeepsWorld(c: Config, s: State, subject: Subject, readAt: nat)
    requires s.shared.lock.Free? && subject !in s.shared.subjects && readAt <= s.shared.now
    ensures Runs(c, s, InsertSteps(subject, readAt)) && SameWorld(s, After(c, s, InsertSteps(subject, readAt)), subject)
    ensures !DeadBound(After(c, s, InsertSteps(subject, readAt)), subject) && !DeadBound(s, subject)
  {
    InsertRuns(c, s, subject, readAt);
  }

  lemma RemovalKeepsWorld(c: Config, s: State, subject: Subject, e: nat)
    requires s.shared.lock.Free? && Bound(s, subject) == Some(e) && e < |s.entries| && Dead(s, e)
    ensures Runs(c, s, RemovalSteps(subject, e)) && SameWorld(s, After(c, s, RemovalSteps(subject, e)), subject)
    ensures Bound(After(c, s, RemovalSteps(subject, e)), subject).None?
  {
    RemovalRuns(c, s, subject, e);
  }

  lemma ReadKeepsWorld(s: State, t: State, e: nat, readAt: nat, subject: Subject)
    requires e < |s.entries| && WasRead(s, t, e, readAt) && readAt <= s.shared.now && s.shared.lock.Free?
    ensures SameWorld(s, t, subject) && DeadBound(t, subject) == DeadBound(s, subject)
  {
    ReadChangesNoFate(s, t, e, readAt, subject, 0);
    TickIsMonotone(s.entries[e].epoch, readAt, s.shared.now);
  }

  lemma SameCellsKeepWorld(s: State, t: State, subject: Subject)
    requires SameCells(s, t) && t.shared.lock.Free?
    ensures SameWorld(s, t, subject) && DeadBound(t, subject) == DeadBound(s, subject)
  {
    assert forall e: nat :: e < |s.entries| ==> Expired(t, e) == Expired(s, e);
  }

  /** A caller that nothing has disturbed in this round, before its deadline and with the flag up. */
  ghost predicate Undisturbed(s: State, sends: nat, caller: Caller) {
    && CallerInv(s, sends, caller) && s.shared.connected && s.shared.lock.Free? && s.shared.now < caller.deadline
    && !caller.stage.Ended? && !caller.stage.Starting? && !IsLate(caller.stage)
    && (PastConnect(caller.stage) ==> caller.quiet)
  }

  /**
   What one action of an undisturbed caller comes to: it ends the call with a verdict the map holds, or
   the round by taking out the dead entry or catching up with the flag, or the round goes on.
   */
  ghost predicate GoesWell(s: State, t: State, sends: nat, caller: Caller, effect: Effect) {
    var next := effect.caller;
    && SameWorld(s, t, caller.subject)
    && next.subject == caller.subject && next.deadline == caller.deadline
    && next.foreign == caller.foreign && next.marks == caller.marks && next.missed == caller.missed
    && next.rounds == caller.rounds + One(effect.again)
    && (PastConnect(next.stage) ==> next.quiet) && !next.stage.Starting?
    && (if effect.again then
          || (DeadBound(s, caller.subject) && Bound(t, caller.subject).None? && next.seen == caller.seen)
          || (caller.seen != sends && next.seen == sends && t == s && !DeadBound(s, caller.subject))
        else
          && DeadBound(t, caller.subject) == DeadBound(s, caller.subject) && next.seen == caller.seen
          && (next.stage.Ended? ==> next.stage.outcome.Admitted? && HasVerdict(s, caller.subject))
          && (!next.stage.Ended? ==> !IsLate(next.stage)))
  }

  lemma LockStaysFree(c: Config, a: AdmitConfig, s: State, sends: nat, caller: Caller, act: Act)
    requires CallerInv(s, sends, caller) && s.shared.lock.Free? && Attempt(c, a, s, sends, caller, act).Some?
    requires act.LoadCurrent? || act.Claiming? || (act.ReadFlag? && s.shared.connected)
    ensures
      var effect := Attempt(c, a, s, sends, caller, act).value;
      Runs(c, s, effect.steps) && After(c, s, effect.steps).shared.lock.Free?
  {
    var effect := Attempt(c, a, s, sends, caller, act).value;
    OneStepRuns(c, s, effect.steps[0]);
    if act.Claiming? {
      var f := caller.stage.f;
      ClaimActionsKeepCells(c, s.shared, f, s.fetches[f], s.entries[s.fetches[f].entry], |s.fetches|, act.action);
    }
  }

  /** An undisturbed caller offers the verdict that the map holds. */
  lemma OffersTheMaps(s: State, caller: Caller)
    requires Named(s, caller) && StillTrue(s, caller) && !IsLate(caller.stage)
    requires caller.stage.Accessing? || caller.stage.Offering? || caller.stage.Refreshing? || caller.stage.Confirming?
             || caller.stage.GivingBack?
    ensures HasVerdict(s, caller.subject)
  {
  }

  lemma WaitsForTheMaps(s: State, caller: Caller)
    requires Named(s, caller) && StillTrue(s, caller)
    requires caller.stage.LoadingSlot? || caller.stage.Rechecking? || caller.stage.Matching? || caller.stage.Awaiting?
    requires EntryBasics(s.shared, s.entries[EntryOf(caller.stage).value])
    ensures !HasVerdict(s, caller.subject) && !DeadBound(s, caller.subject)
    ensures s.entries[EntryOf(caller.stage).value].slot.Some?
    ensures !Expired(s, EntryOf(caller.stage).value)
  {
  }

  predicate IsWaitAct(act: Act) {
    act.LoadSlot? || act.Match? || act.Interrupt? || act.SeeAbort? || act.Complete?
  }

  lemma WaitActGoesWell(c: Config, a: AdmitConfig, s: State, sends: nat, caller: Caller, act: Act)
    requires Undisturbed(s, sends, caller) && IsWaitAct(act)
    requires Attempt(c, a, s, sends, caller, act).Some?
    requires !HasVerdict(s, caller.subject) && !DeadBound(s, caller.subject)
    requires caller.stage.LoadingSlot? ==> s.entries[caller.stage.e].slot.Some?
    requires caller.stage.Awaiting? ==>
               && !s.fetches[caller.stage.f].phase.Finished? && !s.fetches[caller.stage.f].aborted
               && !s.shared.watcher.Gone?
    ensures
      var effect := Attempt(c, a, s, sends, caller, act).value;
      effect.steps == [] && GoesWell(s, s, sends, caller, effect)
  {
  }

  lemma PlainActGoesWell(c: Config, a: AdmitConfig, s: State, sends: nat, caller: Caller, act: Act)
    requires Undisturbed(s, sends, caller) && IsStillAct(act) && !IsWaitAct(act) && !s.shared.watcher.Gone?
    requires Attempt(c, a, s, sends, caller, act).Some?
    ensures
      var effect := Attempt(c, a, s, sends, caller, act).value;
      effect.steps == [] && GoesWell(s, s, sends, caller, effect)
  {
    if caller.stage.Offering? || caller.stage.Refreshing? { OffersTheMaps(s, caller); }
  }

  lemma StillActGoesWell(c: Config, a: AdmitConfig, s: State, sends: nat, caller: Caller, act: Act)
    requires Inv(c, s) && Undisturbed(s, sends, caller) && IsStillAct(act)
    requires Attempt(c, a, s, sends, caller, act).Some?
    ensures
      var effect := Attempt(c, a, s, sends, caller, act).value;
      effect.steps == [] && GoesWell(s, s, sends, caller, effect)
  {
    if IsWaitAct(act) {
      assert EntryInv(c, s.shared, caller.stage.e, s.entries[caller.stage.e]);
      WaitsForTheMaps(s, caller);
      if caller.stage.Awaiting? { AwaitedIsInFlight(c, s, caller); }
      WaitActGoesWell(c, a, s, sends, caller, act);
    } else {
      PlainActGoesWell(c, a, s, sends, caller, act);
    }
  }

  lemma ReadActGoesWell(c: Config, a: AdmitConfig, s: State, t: State, sends: nat, caller: Caller, act: Act)
    requires Undisturbed(s, sends, caller) && IsReadAct(act) && EntryOf(caller.stage).Some?
    requires Attempt(c, a, s, sends, caller, act).Some?
    requires EntryBasics(s.shared, s.entries[EntryOf(caller.stage).value])
    requires WasRead(s, t, EntryOf(caller.stage).value, act.readAt)
    ensures GoesWell(s, t, sends, caller, Attempt(c, a, s, sends, caller, act).value)
  {
    ReadKeepsWorld(s, t, EntryOf(caller.stage).value, act.readAt, caller.subject);
    if caller.stage.Accessing? || caller.stage.Confirming? { OffersTheMaps(s, caller); }
    if caller.stage.Rechecking? { WaitsForTheMaps(s, caller); }
  }

  lemma QuietActGoesOn(c: Config, a: AdmitConfig, s: State, sends: nat, caller: Caller, act: Act)
    requires Undisturbed(s, sends, caller) && (act.LoadCurrent? || act.Claiming? || act.ReadFlag?)
    requires Attempt(c, a, s, sends, caller, act).Some?
    ensures
      var effect := Attempt(c, a, s, sends, caller, act).value;
      !effect.again && !effect.caller.stage.Ended? && GoesWell(s, s, sends, caller, effect)
  {
  }

  lemma QuietActGoesWell(c: Config, a: AdmitConfig, s: State, sends: nat, caller: Caller, act: Act)
    requires Undisturbed(s, sends, caller) && (act.LoadCurrent? || act.Claiming? || act.ReadFlag?)
    requires Attempt(c, a, s, sends, caller, act).Some?
    ensures
      var effect := Attempt(c, a, s, sends, caller, act).value;
      Runs(c, s, effect.steps) && GoesWell(s, After(c, s, effect.steps), sends, caller, effect)
  {
    var effect := Attempt(c, a, s, sends, caller, act).value;
    QuietActGoesOn(c, a, s, sends, caller, act);
    QuietActTakes(c, a, s, sends, caller, act);
    LockStaysFree(c, a, s, sends, caller, act);
    SameCellsKeepWorld(s, After(c, s, effect.steps), caller.subject);
  }

  lemma MapActGoesWell(c: Config, a: AdmitConfig, s: State, sends: nat, caller: Caller, act: Act)
    requires Undisturbed(s, sends, caller) && (act.Find? || act.Remove? || act.Discard?)
    requires Attempt(c, a, s, sends, caller, act).Some?
    ensures
      var effect := Attempt(c, a, s, sends, caller, act).value;
      Runs(c, s, effect.steps) && GoesWell(s, After(c, s, effect.steps), sends, caller, effect)
  {
    var effect := Attempt(c, a, s, sends, caller, act).value;
    if act.Remove? {
      RemovalKeepsWorld(c, s, caller.subject, caller.stage.e);
    } else if Bound(s, caller.subject).Some? {
      StandingStillTakes(c, s, effect);
    } else {
      InsertKeepsWorld(c, s, caller.subject, act.readAt);
    }
  }

  lemma GiveBackGoesWell(c: Config, a: AdmitConfig, s: State, sends: nat, caller: Caller)
    requires Undisturbed(s, sends, caller) && Attempt(c, a, s, sends, caller, GiveBack).Some?
    ensures
      var effect := Attempt(c, a, s, sends, caller, GiveBack).value;
      Runs(c, s, effect.steps) && GoesWell(s, After(c, s, effect.steps), sends, caller, effect)
  {
    OffersTheMaps(s, caller);
    ReleaseRuns(c, a, s, sends, caller);
    SameCellsKeepWorld(s, After(c, s, Attempt(c, a, s, sends, caller, GiveBack).value.steps), caller.subject);
  }

  lemma ActGoesWell(c: Config, a: AdmitConfig, s: State, sends: nat, caller: Caller, act: Act)
    requires Inv(c, s) && Undisturbed(s, sends, caller)
    requires Attempt(c, a, s, sends, caller, act).Some?
    ensures
      var effect := Attempt(c, a, s, sends, caller, act).value;
      Runs(c, s, effect.steps) && GoesWell(s, After(c, s, effect.steps), sends, caller, effect)
  {
    var effect := Attempt(c, a, s, sends, caller, act).value;
    if IsReadAct(act) {
      var e := EntryOf(caller.stage).value;
      assert EntryInv(c, s.shared, e, s.entries[e]);
      ReadActSteps(c, a, s, sends, caller, act, act.readAt);
      ReadTakes(c, s, effect, e, act.readAt);
      ReadActGoesWell(c, a, s, After(c, s, effect.steps), sends, caller, act);
    } else if act.LoadCurrent? || act.Claiming? || act.ReadFlag? {
      QuietActGoesWell(c, a, s, sends, caller, act);
    } else if act.Find? || act.Remove? || act.Discard? {
      MapActGoesWell(c, a, s, sends, caller, act);
    } else if act.GiveBack? {
      GiveBackGoesWell(c, a, s, sends, caller);
    } else {
      StillActGoesWell(c, a, s, sends, caller, act);
      StandingStillTakes(c, s, effect);
    }
  }

  // ---------------------------------------------------------------- alone in the whole system

  /** The moves lead from `sys` to `t`, and all of them are caller `i`'s own. */
  ghost predicate OwnRun(c: Config, a: AdmitConfig, sys: System, i: nat, moves: seq<Move>, t: System) {
    && Leads(c, a, sys, moves, t)
    && (forall k :: 0 <= k < |moves| ==> moves[k].Own? && moves[k].i == i)
  }

  /** Caller `i` of a system in order is undisturbed. */
  ghost predicate Unhindered(c: Config, sys: System, i: nat) {
    SystemInv(c, sys) && AllNamed(sys) && i < |sys.callers| && Undisturbed(sys.gate, sys.sends, sys.callers[i])
  }

  /** The same call, with nothing of others counted in between. */
  predicate SameCall(caller: Caller, next: Caller) {
    && next.subject == caller.subject && next.deadline == caller.deadline
    && next.foreign == caller.foreign && next.marks == caller.marks && next.missed == caller.missed
  }

  lemma OwnMoveIsFree(c: Config, a: AdmitConfig, sys: System, i: nat) returns (t: System, act: Act)
    requires Unhindered(c, sys, i) && !Blocked(sys.gate, sys.sends, sys.callers[i])
    ensures act == NextAct(c, sys.gate, sys.sends, sys.callers[i])
    ensures Possible(c, a, sys, Own(i, act)) && t == AfterMove(c, a, sys, Own(i, act))
    ensures SystemInv(c, t) && AllNamed(t) && |t.callers| == |sys.callers| && t.sends == sys.sends
    ensures
      var attempt := Attempt(c, a, sys.gate, sys.sends, sys.callers[i], act);
      && attempt.Some? && t.callers[i] == attempt.value.caller
      && GoesWell(sys.gate, t.gate, sys.sends, sys.callers[i], attempt.value)
      && (attempt.value.again || Rank(sys.gate, sys.sends, sys.callers[i]) < Rank(t.gate, t.sends, t.callers[i]))
  {
    NobodyIsStuck(c, a, sys, i);
    act := NextAct(c, sys.gate, sys.sends, sys.callers[i]);
    OwnMoveKeeps(c, a, sys, i, act);
    t := AfterMove(c, a, sys, Own(i, act));
    ReachableHolds(c, sys.gate);
    ActGoesWell(c, a, sys.gate, sys.sends, sys.callers[i], act);
    forall j: nat | j < |t.callers| ensures Named(t.gate, t.callers[j]) {
      assert CallerInv(t.gate, t.sends, t.callers[j]);
    }
    ActsAdvance(c, a, sys.gate, sys.sends, sys.callers[i], act);
  }

  /** What one round, or the rest of one, comes to for an undisturbed caller. */
  ghost predicate RoundEnds(c: Config, s: State, caller: Caller, t: System, i: nat) {
    && i < |t.callers| && AllNamed(t) && SameCall(caller, t.callers[i]) && SameWorld(s, t.gate, caller.subject)
    && var next := t.callers[i];
    if next.stage.Ended? then
      next.rounds == caller.rounds && next.stage.outcome.Admitted? && HasVerdict(s, caller.subject)
    else if Blocked(t.gate, t.sends, next) then
      && next.rounds == caller.rounds && next.stage.Awaiting? && next.seen == caller.seen
      && !HasVerdict(s, caller.subject) && !DeadBound(s, caller.subject)
    else
      && next.rounds == caller.rounds + 1 && next.stage.Checking? && Unhindered(c, t, i)
      && (if DeadBound(s, caller.subject)
          then Bound(t.gate, caller.subject).None? && next.seen == caller.seen
          else caller.seen != t.sends && next.seen == t.sends && !DeadBound(t.gate, caller.subject))
  }

  lemma BlockedAwaits(c: Config, sys: System, i: nat)
    requires Unhindered(c, sys, i) && Blocked(sys.gate, sys.sends, sys.callers[i])
    ensures RoundEnds(c, sys.gate, sys.callers[i], sys, i)
  {
    var caller := sys.callers[i];
    ReachableHolds(c, sys.gate);
    if caller.stage.Awaiting? {
      assert EntryInv(c, sys.gate.shared, caller.stage.e, sys.gate.entries[caller.stage.e]);
      WaitsForTheMaps(sys.gate, caller);
    }
  }

  /** The first action has ended the round or the call, or has left the caller undisturbed in it. */
  lemma RoundStops(c: Config, s: State, caller: Caller, u: System, effect: Effect, i: nat)
    requires Undisturbed(s, u.sends, caller) && GoesWell(s, u.gate, u.sends, caller, effect)
    requires SystemInv(c, u) && AllNamed(u) && i < |u.callers| && u.callers[i] == effect.caller
    requires effect.again ==> effect.caller.stage.Checking?
    ensures effect.again || effect.caller.stage.Ended? ==> RoundEnds(c, s, caller, u, i)
    ensures !effect.again && !effect.caller.stage.Ended? ==> Unhindered(c, u, i)
  {
    assert CallerInv(u.gate, u.sends, u.callers[i]);
  }

  lemma AgainIsChecking(c: Config, a: AdmitConfig, s: State, sends: nat, caller: Caller, act: Act)
    requires Named(s, caller) && Attempt(c, a, s, sends, caller, act).Some?
    ensures
      var effect := Attempt(c, a, s, sends, caller, act).value;
      effect.again ==> effect.caller.stage.Checking?
  {
  }

  lemma RoundGoesOn(c: Config, s: State, caller: Caller, u: System, effect: Effect, t: System, i: nat)
    requires GoesWell(s, u.gate, u.sends, caller, effect) && !effect.again
    requires RoundEnds(c, u.gate, effect.caller, t, i)
    ensures RoundEnds(c, s, caller, t, i)
  {
  }

  /**
   One round of an undisturbed caller, to its end or to where the caller waits: it hands out the verdict
   that the map holds, or waits for the lookup of a Pending entry, or takes the dead entry out of the map,
   or catches up with the flag.
   */
  lemma {:induction false} RoundAlone(c: Config, a: AdmitConfig, sys: System, i: nat)
    returns (t: System, moves: seq<Move>)
    requires Unhindered(c, sys, i)
    ensures OwnRun(c, a, sys, i, moves, t) && SystemInv(c, t) && t.sends == sys.sends
    ensures RoundEnds(c, sys.gate, sys.callers[i], t, i)
    decreases 29 - Rank(sys.gate, sys.sends, sys.callers[i])
  {
    if Blocked(sys.gate, sys.sends, sys.callers[i]) {
      BlockedAwaits(c, sys, i);
      return sys, [];
    }
    var u, act := OwnMoveIsFree(c, a, sys, i);
    var effect := Attempt(c, a, sys.gate, sys.sends, sys.callers[i], act).value;
    var rest := [];
    t := u;
    AgainIsChecking(c, a, sys.gate, sys.sends, sys.callers[i], act);
    RoundStops(c, sys.gate, sys.callers[i], u, effect, i);
    if !effect.again && !u.callers[i].stage.Ended? {
      t, rest := RoundAlone(c, a, u, i);
      RoundGoesOn(c, sys.gate, sys.callers[i], u, effect, t, i);
    }
    moves := [Own(i, act)] + rest;
    assert Leads(c, a, u, rest, t);
    MoveThenRun(c, a, sys, Own(i, act), rest, t);
  }

  lemma MoveThenRun(c: Config, a: AdmitConfig, sys: System, move: Move, rest: seq<Move>, t: System)
    requires AllNamed(sys) && Possible(c, a, sys, move) && Leads(c, a, AfterMove(c, a, sys, move), rest, t)
    ensures Leads(c, a, sys, [move] + rest, t)
  {
    assert ([move] + rest)[1..] == rest;
  }

  lemma FirstMove(c: Config, a: AdmitConfig, sys: System, moves: seq<Move>, t: System)
    requires moves != [] && Leads(c, a, sys, moves, t)
    ensures AllNamed(sys) && Possible(c, a, sys, moves[0]) && Leads(c, a, AfterMove(c, a, sys, moves[0]), moves[1..], t)
  {
  }

  lemma {:induction false} RunThenRun(
    c: Config, a: AdmitConfig, sys: System, first: seq<Move>, mid: System, second: seq<Move>, t: System)
    requires Leads(c, a, sys, first, mid) && Leads(c, a, mid, second, t)
    ensures Leads(c, a, sys, first + second, t)
    decreases |first|
  {
    if first == [] {
      assert first + second == second;
    } else {
      FirstMove(c, a, sys, first, mid);
      RunThenRun(c, a, AfterMove(c, a, sys, first[0]), first[1..], mid, second, t);
      MoveThenRun(c, a, sys, first[0], first[1..] + second, t);
      assert first + second == [first[0]] + (first[1..] + second);
    }
  }

  /** What stands between an undisturbed caller and its answer: a dead entry, and a version of the flag. */
  function InTheWay(sys: System, i: nat): nat
    requires i < |sys.callers|
  {
    One(DeadBound(sys.gate, sys.callers[i].subject)) + One(sys.callers[i].seen != sys.sends)
  }

  /** How many of its own moves an undisturbed caller has left at most. */
  function MovesLeft(sys: System, i: nat): nat
    requires i < |sys.callers| && Named(sys.gate, sys.callers[i])
  {
    30 * InTheWay(sys, i) + 29 - Rank(sys.gate, sys.sends, sys.callers[i])
  }

  /** Where a caller stands that has moved alone: it has its answer, or nothing has disturbed it. */
  ghost predicate StandsWell(c: Config, sys: System, i: nat, t: System) {
    && i < |sys.callers| && i < |t.callers| && AllNamed(t) && t.sends == sys.sends
    && SameCall(sys.callers[i], t.callers[i]) && SameWorld(sys.gate, t.gate, sys.callers[i].subject)
    && t.callers[i].rounds + InTheWay(t, i) <= sys.callers[i].rounds + InTheWay(sys, i)
    && (if t.callers[i].stage.Ended?
        then t.callers[i].stage.outcome.Admitted? && HasVerdict(sys.gate, sys.callers[i].subject)
        else Unhindered(c, t, i))
  }

  lemma OwnMoveStandsWell(c: Config, a: AdmitConfig, sys: System, i: nat, act: Act)
    requires Unhindered(c, sys, i) && Possible(c, a, sys, Own(i, act))
    ensures
      var t := AfterMove(c, a, sys, Own(i, act));
      StandsWell(c, sys, i, t) && MovesLeft(t, i) < MovesLeft(sys, i)
  {
    var caller, t := sys.callers[i], AfterMove(c, a, sys, Own(i, act));
    var effect := Attempt(c, a, sys.gate, sys.sends, caller, act).value;
    OwnMoveGoesWell(c, a, sys, i, act);
    ActsAdvance(c, a, sys.gate, sys.sends, caller, act);
    AgainIsChecking(c, a, sys.gate, sys.sends, caller, act);
    RoundStops(c, sys.gate, caller, t, effect, i);
    LessInTheWay(sys, i, t, effect);
  }

  lemma OwnMoveGoesWell(c: Config, a: AdmitConfig, sys: System, i: nat, act: Act)
    requires Unhindered(c, sys, i) && Possible(c, a, sys, Own(i, act))
    ensures
      var t, effect := AfterMove(c, a, sys, Own(i, act)), Attempt(c, a, sys.gate, sys.sends, sys.callers[i], act).value;
      && SystemInv(c, t) && AllNamed(t) && t.sends == sys.sends && i < |t.callers| && t.callers[i] == effect.caller
      && t.gate == After(c, sys.gate, effect.steps)
      && GoesWell(sys.gate, t.gate, sys.sends, sys.callers[i], effect)
  {
    var t := AfterMove(c, a, sys, Own(i, act));
    OwnMoveKeeps(c, a, sys, i, act);
    ReachableHolds(c, sys.gate);
    ActGoesWell(c, a, sys.gate, sys.sends, sys.callers[i], act);
    forall j: nat | j < |t.callers| ensures Named(t.gate, t.callers[j]) {
      assert CallerInv(t.gate, t.sends, t.callers[j]);
    }
  }

  /** A round that ends by `continue` has had something taken out of its way. */
  lemma LessInTheWay(sys: System, i: nat, t: System, effect: Effect)
    requires i < |sys.callers| && i < |t.callers| && t.callers[i] == effect.caller && t.sends == sys.sends
    requires GoesWell(sys.gate, t.gate, sys.sends, sys.callers[i], effect)
    ensures InTheWay(t, i) + One(effect.again) == InTheWay(sys, i)
  {
  }

  lemma EndedIsOver(c: Config, a: AdmitConfig, sys: System, i: nat, act: Act)
    requires AllNamed(sys) && i < |sys.callers| && sys.callers[i].stage.Ended?
    ensures !Possible(c, a, sys, Own(i, act))
  {
  }

  lemma StandingWellJoins(c: Config, sys: System, i: nat, u: System, t: System)
    requires StandsWell(c, sys, i, u) && StandsWell(c, u, i, t)
    ensures StandsWell(c, sys, i, t)
  {
  }

  lemma {:induction false} AloneStandsWell(
    c: Config, a: AdmitConfig, sys: System, i: nat, moves: seq<Move>, t: System)
    requires Unhindered(c, sys, i) && OwnRun(c, a, sys, i, moves, t)
    ensures StandsWell(c, sys, i, t) && |moves| <= MovesLeft(sys, i)
    decreases |moves|
  {
    if moves != [] {
      var u := AfterMove(c, a, sys, moves[0]);
      OwnMoveStandsWell(c, a, sys, i, moves[0].act);
      FirstMove(c, a, sys, moves, t);
      if u.callers[i].stage.Ended? {
        if |moves| > 1 { EndedIsOver(c, a, u, i, moves[1].act); }
      } else {
        AloneStandsWell(c, a, u, i, moves[1..], t);
        StandingWellJoins(c, sys, i, u, t);
      }
    }
  }

  /**
   However a call of `admit` goes on from any undisturbed point with nobody else moving, the flag up and
   the deadline ahead: it can only end by handing out a verdict, and only when the map holds an unexpired
   one; it can only come to wait for the lookup of a Pending entry, and only when the map holds none. It
   takes at most one round more for a dead entry and one for a missed version of the flag, and at most so
   many moves that it does come to one or the other.
   */
  lemma AdmitAlone(c: Config, a: AdmitConfig, sys: System, i: nat, moves: seq<Move>, t: System)
    requires Unhindered(c, sys, i) && OwnRun(c, a, sys, i, moves, t)
    ensures i < |t.callers| && Named(t.gate, t.callers[i])
    ensures SameCall(sys.callers[i], t.callers[i]) && SameWorld(sys.gate, t.gate, sys.callers[i].subject)
    ensures t.callers[i].rounds <= sys.callers[i].rounds + InTheWay(sys, i) && |moves| <= 30 * InTheWay(sys, i) + 29
    ensures
      if t.callers[i].stage.Ended? then
        t.callers[i].stage.outcome.Admitted? && HasVerdict(sys.gate, sys.callers[i].subject)
      else if Blocked(t.gate, t.sends, t.callers[i]) then
        t.callers[i].stage.Awaiting? && !HasVerdict(sys.gate, sys.callers[i].subject)
      else
        exists act: Act :: Attempt(c, a, t.gate, t.sends, t.callers[i], act).Some?
  {
    AloneStandsWell(c, a, sys, i, moves, t);
    if !t.callers[i].stage.Ended? {
      if Blocked(t.gate, t.sends, t.callers[i]) {
        BlockedAwaits(c, t, i);
      } else {
        NobodyIsStuck(c, a, t, i);
      }
    }
  }
}
