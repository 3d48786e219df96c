/** Every run of any number of admissions among everything else: how long it takes and how it ends. */
module GateRounds {
  import opened Deadlines
  import opened GateModel
  import opened GateInvariants
  import opened GateRuns
  import opened GateCallers
  import opened GateCharges

  // ---------------------------------------------------------------- runs of the whole system

  ghost predicate SystemRuns(c: Config, a: AdmitConfig, sys: System, moves: seq<Move>)
    decreases |moves|
  {
    moves != [] ==>
      AllNamed(sys) && Possible(c, a, sys, moves[0]) && SystemRuns(c, a, AfterMove(c, a, sys, moves[0]), moves[1..])
  }

  ghost function SystemAfter(c: Config, a: AdmitConfig, sys: System, moves: seq<Move>): System
    requires SystemRuns(c, a, sys, moves)
    decreases |moves|
  {
    if moves == [] then sys else SystemAfter(c, a, AfterMove(c, a, sys, moves[0]), moves[1..])
  }

  /** The moves lead from `sys` to `t`. */
  ghost predicate Leads(c: Config, a: AdmitConfig, sys: System, moves: seq<Move>, t: System) {
    SystemRuns(c, a, sys, moves) && SystemAfter(c, a, sys, moves) == t
  }

  ghost predicate ReachableSystem(c: Config, a: AdmitConfig, sys: System) {
    exists start: System, moves: seq<Move> ::
      InitSystem(start) && SystemRuns(c, a, start, moves) && SystemAfter(c, a, start, moves) == sys
  }

  lemma {:induction false} SystemRunKeeps(c: Config, a: AdmitConfig, sys: System, moves: seq<Move>)
    requires SystemInv(c, sys) && SystemRuns(c, a, sys, moves)
    ensures SystemInv(c, SystemAfter(c, a, sys, moves))
    decreases |moves|
  {
    if moves != [] {
      MoveKeeps(c, a, sys, moves[0]);
      SystemRunKeeps(c, a, AfterMove(c, a, sys, moves[0]), moves[1..]);
    }
  }

  lemma InitIsReachable(c: Config, s: State)
    requires Init(s)
    ensures Reachable(c, s)
  {
    assert Runs(c, s, []) && After(c, s, []) == s;
  }

  lemma ReachableSystemHolds(c: Config, a: AdmitConfig, sys: System)
    requires ReachableSystem(c, a, sys)
    ensures SystemInv(c, sys) && AllNamed(sys)
  {
    var start: System, moves: seq<Move> :|
      InitSystem(start) && SystemRuns(c, a, start, moves) && SystemAfter(c, a, start, moves) == sys;
    InitIsReachable(c, start.gate);
    SystemRunKeeps(c, a, start, moves);
    forall i: nat | i < |sys.callers| ensures Named(sys.gate, sys.callers[i]) {
      assert CallerInv(sys.gate, sys.sends, sys.callers[i]);
    }
  }

  /** With callers about, the gate still moves only as the transition system does. */
  lemma CallersOnlyRunTheGate(c: Config, a: AdmitConfig, sys: System)
    requires ReachableSystem(c, a, sys)
    ensures Reachable(c, sys.gate)
  {
    ReachableSystemHolds(c, a, sys);
  }

  // ---------------------------------------------------------------- what rounds cost

  /** A removal that does something takes out the dead entry that the map holds. */
  lemma RemovalsTakeOutTheDead(c: Config, a: AdmitConfig, s: State, sends: nat, caller: Caller, readAt: nat)
    requires Named(s, caller) && Attempt(c, a, s, sends, caller, Remove(readAt)).Some?
    requires Attempt(c, a, s, sends, caller, Remove(readAt)).value.steps != []
    ensures Bound(s, caller.subject) == EntryOf(caller.stage) && DeadBound(s, caller.subject)
  {
    var entry := s.entries[caller.stage.e];
    TickIsMonotone(entry.epoch, readAt, s.shared.now);
  }

  /**
   A round of an admission ends by `continue` only if, since it saw the flag up, a step of others
   concerned the subject, or the caller took a dead entry of the subject out of the map, or its receiver
   had yet to see the flag's latest version.
   */
  lemma RoundsAreCharged(c: Config, a: AdmitConfig, sys: System, i: nat, act: Act)
    requires ReachableSystem(c, a, sys) && i < |sys.callers| && Named(sys.gate, sys.callers[i])
    requires Attempt(c, a, sys.gate, sys.sends, sys.callers[i], act).Some?
    requires Attempt(c, a, sys.gate, sys.sends, sys.callers[i], act).value.again
    ensures
      var caller := sys.callers[i];
      || !caller.quiet
      || (act.Remove? && Bound(sys.gate, caller.subject) == EntryOf(caller.stage)
          && DeadBound(sys.gate, caller.subject))
      || (act.Interrupt? && Behind(sys.gate, sys.sends, caller))
  {
    ReachableSystemHolds(c, a, sys);
    ReachableHolds(c, sys.gate);
    var caller := sys.callers[i];
    assert CallerInv(sys.gate, sys.sends, caller);
    ActKeeps(c, a, sys.gate, sys.sends, caller, act);
    if caller.quiet && act.Remove? { RemovalsTakeOutTheDead(c, a, sys.gate, sys.sends, caller, act.readAt); }
  }

  /**
   Whatever else happens, an admission has begun at most two rounds more than the steps of others that
   concerned its subject, plus those among them that made an entry of the subject die, plus one if its
   receiver had a version of the flag to catch up with.
   */
  lemma RoundsAreBounded(c: Config, a: AdmitConfig, sys: System, i: nat)
    requires ReachableSystem(c, a, sys) && i < |sys.callers|
    ensures
      var caller := sys.callers[i];
      caller.rounds <= 2 + caller.foreign + caller.marks + caller.missed
    ensures sys.callers[i].missed <= 1
  {
    ReachableSystemHolds(c, a, sys);
    assert CallerInv(sys.gate, sys.sends, sys.callers[i]);
  }

  // ---------------------------------------------------------------- no caller is stuck or idle

  /** What a caller does next when everything stands still. */
  function NextAct(c: Config, s: State, sends: nat, caller: Caller): Act
    requires Named(s, caller)
  {
    var now, stage := s.shared.now, caller.stage;
    match stage
    case Starting => ReadDeadline
    case Checking => CheckClock
    case Connecting =>
      if caller.deadline <= now then RunOut
      else if s.shared.connected then NoticeUp
      else if caller.seen != sends then NoticeChange else NoticeClosed
    case Finding => Find(now)
    case Found(_) => CheckDeadline
    case InTime(_) => ReadFlag
    case Discarding(_) => Discard
    case Classifying(_) => Classify(now)
    case Accessing(_, _) => Access(now)
    case Offering(e, _) => if EntryEnabled(c, s.shared, e, s.entries[e], Load) then LoadCurrent else Keep
    case Refreshing(_, f, _) => NextClaim(c, s, f)
    case Confirming(_, _, _) => Confirm(now)
    case GivingBack(_, _, _, _) => GiveBack
    case LoadingSlot(_) => LoadSlot
    case Rechecking(_, _) => RecheckState(now)
    case Matching(_, _) => Match
    case Awaiting(_, f) =>
      if caller.deadline <= now then RunOut
      else if caller.seen != sends || s.shared.watcher.Gone? then Interrupt
      else if s.fetches[f].aborted then SeeAbort else Complete(Succeeded)
    case Completed(_, _) => AfterFetch
    case Rereading(_, _) => Reread(now)
    case Removing(_) => Remove(now)
    case Sleeping(_) => WakeUp
    case Ended(_) => WakeUp
  }

  /** The next action of a refresh claim; a full queue makes it give up. */
  function NextClaim(c: Config, s: State, f: nat): Act
    requires f < |s.fetches|
  {
    match s.fetches[f].phase
    case Loaded =>
      if s.fetches[f].entry < |s.entries| && s.entries[s.fetches[f].entry].slot.None? then Claiming(Claim) else Unclaimed
    case Claimed => Claiming(Compare)
    case SameSnapshot => Claiming(ReadClock)
    case Clocked(_) => Claiming(Revalidate)
    case Sending => Claiming(if |s.shared.queue| < c.queueCapacity && !s.shared.watcher.Gone? then Send else GiveUp)
    case _ => HandedOver
  }

  /** The caller waits for the flag, for the map's lock, for a lookup or for the clock. */
  predicate Blocked(s: State, sends: nat, caller: Caller)
    requires Named(s, caller)
  {
    match caller.stage
    case Connecting =>
      !s.shared.connected && caller.seen == sends && !s.shared.watcher.Gone? && s.shared.now < caller.deadline
    case Finding => s.shared.lock.Held?
    case Discarding(_) => s.shared.lock.Held?
    case Removing(_) => s.shared.lock.Held?
    case Awaiting(_, f) =>
      && s.shared.now < caller.deadline && caller.seen == sends && !s.shared.watcher.Gone?
      && !s.fetches[f].aborted && !s.fetches[f].phase.Finished?
    case Sleeping(until) => s.shared.now < until && s.shared.now < caller.deadline
    case _ => false
  }

  /** The claim has been given up, or is out of the caller's hands. */
  predicate MayHandOver(phase: Phase) {
    phase.Dropping? || (!phase.Loaded? && !Guarded(phase))
  }

  lemma ClaimsGoOn(c: Config, s: State, f: nat)
    requires Inv(c, s) && f < |s.fetches|
    ensures
      var act := NextClaim(c, s, f);
      && (act.Claiming? ==> IsClaimAction(act.action) && Enabled(c, s, OnFetch(f, act.action)))
      && (act.Unclaimed? ==> s.fetches[f].phase.Loaded?)
      && (act.HandedOver? ==> MayHandOver(s.fetches[f].phase))
      && (act.Claiming? || act.Unclaimed? || act.HandedOver?)
  {
    assert FetchInv(c, s.shared, f, s.fetches[f], s.entries[s.fetches[f].entry]);
  }

  lemma UnblockedActs(c: Config, a: AdmitConfig, s: State, sends: nat, caller: Caller)
    requires Named(s, caller) && !caller.stage.Ended? && !Blocked(s, sends, caller)
    requires PastConnect(caller.stage) ==> caller.since <= s.shared.now
    requires caller.stage.LoadingSlot? && s.entries[caller.stage.e].slot.Some? ==>
               s.entries[caller.stage.e].slot.value < |s.fetches|
    requires
      caller.stage.Refreshing? ==>
        var act := NextClaim(c, s, caller.stage.f);
        && (act.Claiming? ==> IsClaimAction(act.action) && Enabled(c, s, OnFetch(caller.stage.f, act.action)))
        && (act.Unclaimed? ==> s.fetches[caller.stage.f].phase.Loaded?)
        && (act.HandedOver? ==> MayHandOver(s.fetches[caller.stage.f].phase))
        && (act.Claiming? || act.Unclaimed? || act.HandedOver?)
    requires caller.stage.GivingBack? && s.fetches[caller.stage.f].phase.Dropping? ==>
               Enabled(c, s, OnFetch(caller.stage.f, DropClaim))
    ensures Attempt(c, a, s, sends, caller, NextAct(c, s, sends, caller)).Some?
  {
  }

  /** An admission that has not ended can always act, unless it waits for the flag, the lock, a lookup or the clock. */
  lemma NobodyIsStuck(c: Config, a: AdmitConfig, sys: System, i: nat)
    requires SystemInv(c, sys) && i < |sys.callers| && Named(sys.gate, sys.callers[i])
    requires !sys.callers[i].stage.Ended? && !Blocked(sys.gate, sys.sends, sys.callers[i])
    ensures
      var act := NextAct(c, sys.gate, sys.sends, sys.callers[i]);
      Attempt(c, a, sys.gate, sys.sends, sys.callers[i], act).Some?
  {
    var s, caller := sys.gate, sys.callers[i];
    ReachableHolds(c, s);
    assert CallerInv(s, sys.sends, caller);
    if caller.stage.Refreshing? { ClaimsGoOn(c, s, caller.stage.f); }
    UnblockedActs(c, a, s, sys.sends, caller);
  }

  /** How far a claim has got. */
  function ClaimRank(phase: Phase): nat {
    match phase
    case Loaded => 0
    case Claimed => 1
    case SameSnapshot => 2
    case Clocked(_) => 3
    case Sending => 4
    case Dropping => 5
    case _ => 6
  }

  /** No step of anybody takes a claim back. */
  lemma ClaimsNeverGoBack(c: Config, s: State, step: Step, f: nat)
    requires Inv(c, s) && Enabled(c, s, step) && f < |s.fetches|
    ensures f < |Apply(c, s, step).fetches|
    ensures ClaimRank(s.fetches[f].phase) <= ClaimRank(Apply(c, s, step).fetches[f].phase)
  {
    match step
    case OnFetch(g, action) =>
      if g == f {
        var entry := s.entries[s.fetches[f].entry];
        assert FetchInv(c, s.shared, f, s.fetches[f], entry);
        PhasesNeverGoBack(c, s.shared, f, s.fetches[f], entry, |s.fetches|, action);
      }
    case _ =>
  }

  lemma PhasesNeverGoBack(
    c: Config, sh: Shared, f: nat, fetch: Fetch, entry: Entry, spare: nat, action: FetchAction)
    requires FetchEnabled(c, sh, f, fetch, entry, action) && FetchQueued(sh, f, fetch)
    ensures ClaimRank(fetch.phase) <= ClaimRank(FetchApply(c, sh, f, fetch, entry, spare, action).fetch.phase)
  {
  }

  lemma ClaimActionsAdvance(
    c: Config, sh: Shared, f: nat, fetch: Fetch, entry: Entry, spare: nat, action: FetchAction)
    requires FetchEnabled(c, sh, f, fetch, entry, action) && IsClaimAction(action)
    ensures ClaimRank(fetch.phase) < ClaimRank(FetchApply(c, sh, f, fetch, entry, spare, action).fetch.phase)
  {
  }

  /** How far a stage is, before any progress of a claim. */
  function StageRank(seen: nat, sends: nat, stage: Stage): nat {
    match stage
    case Starting => 0
    case Checking => 1
    case Connecting => if seen == sends then 3 else 2
    case Finding => 4
    case Found(_) => 5
    case InTime(_) => 6
    case Discarding(_) => 7
    case Classifying(_) => 8
    case LoadingSlot(_) => 9
    case Rechecking(_, _) => 10
    case Matching(_, _) => 11
    case Awaiting(_, _) => 12
    case Completed(_, _) => 13
    case Rereading(_, _) => 14
    case Accessing(_, _) => 15
    case Offering(_, _) => 16
    case Refreshing(_, _, _) => 17
    case Confirming(_, _, _) => 25
    case GivingBack(_, _, _, _) => 26
    case Removing(_) => 27
    case Sleeping(_) => 28
    case Ended(_) => 29
  }

  /** How far a round has got. */
  function Rank(s: State, sends: nat, caller: Caller): (rank: nat)
    requires Named(s, caller)
    ensures rank <= 29
  {
    StageRank(caller.seen, sends, caller.stage)
    + if caller.stage.Refreshing? then ClaimRank(s.fetches[caller.stage.f].phase) else 0
  }

  predicate IsEarlyAct(act: Act) {
    || act.ReadDeadline? || act.CheckClock? || act.NoticeChange? || act.NoticeUp? || act.NoticeClosed? || act.RunOut?
    || act.Find? || act.CheckDeadline? || act.ReadFlag? || act.Discard? || act.Classify? || act.Remove? || act.WakeUp?
  }

  ghost predicate Advances(sends: nat, caller: Caller, effect: Effect) {
    var before := StageRank(caller.seen, sends, caller.stage);
    var after := StageRank(effect.caller.seen, sends, effect.caller.stage);
    effect.again || (if caller.stage.Refreshing? then 25 <= after else before < after)
  }

  lemma EarlyActsAdvance(c: Config, a: AdmitConfig, s: State, sends: nat, caller: Caller, act: Act)
    requires Named(s, caller) && Attempt(c, a, s, sends, caller, act).Some? && IsEarlyAct(act)
    ensures Advances(sends, caller, Attempt(c, a, s, sends, caller, act).value)
  {
  }

  lemma ReadActsAdvance(c: Config, a: AdmitConfig, s: State, sends: nat, caller: Caller, act: Act)
    requires Named(s, caller) && Attempt(c, a, s, sends, caller, act).Some? && IsReadAct(act)
    ensures Advances(sends, caller, Attempt(c, a, s, sends, caller, act).value)
  {
  }

  lemma LateActsAdvance(c: Config, a: AdmitConfig, s: State, sends: nat, caller: Caller, act: Act)
    requires Named(s, caller) && Attempt(c, a, s, sends, caller, act).Some?
    requires !IsEarlyAct(act) && !IsReadAct(act) && !act.Claiming?
    ensures Advances(sends, caller, Attempt(c, a, s, sends, caller, act).value)
  {
  }

  /**
   Every action gets its round further or ends it. With OthersTakeLittleBack, a round has at most 29 of the
   caller's own actions and one more for each value sent on the flag while the caller waits for it.
   */
  lemma ActsAdvance(c: Config, a: AdmitConfig, s: State, sends: nat, caller: Caller, act: Act)
    requires Named(s, caller) && Attempt(c, a, s, sends, caller, act).Some?
    requires
      var effect := Attempt(c, a, s, sends, caller, act).value;
      Runs(c, s, effect.steps) && Named(After(c, s, effect.steps), effect.caller)
    ensures
      var effect := Attempt(c, a, s, sends, caller, act).value;
      effect.again || Rank(s, sends, caller) < Rank(After(c, s, effect.steps), sends, effect.caller)
  {
    var effect := Attempt(c, a, s, sends, caller, act).value;
    if act.Claiming? {
      var f := caller.stage.f;
      OneStepRuns(c, s, effect.steps[0]);
      ClaimActionsAdvance(c, s.shared, f, s.fetches[f], s.entries[s.fetches[f].entry], |s.fetches|, act.action);
    } else {
      if IsEarlyAct(act) {
        EarlyActsAdvance(c, a, s, sends, caller, act);
      } else if IsReadAct(act) {
        ReadActsAdvance(c, a, s, sends, caller, act);
      } else {
        LateActsAdvance(c, a, s, sends, caller, act);
      }
    }
  }

  lemma {:induction false} ClaimsStandOverRuns(c: Config, s: State, steps: seq<Step>, f: nat)
    requires Inv(c, s) && Runs(c, s, steps) && f < |s.fetches|
    ensures f < |After(c, s, steps).fetches|
    ensures ClaimRank(s.fetches[f].phase) <= ClaimRank(After(c, s, steps).fetches[f].phase)
    decreases |steps|
  {
    if steps != [] {
      StepKeeps(c, s, steps[0]);
      ClaimsNeverGoBack(c, s, steps[0], f);
      ClaimsStandOverRuns(c, Apply(c, s, steps[0]), steps[1..], f);
    }
  }

  /** What others do takes a round back by one at most, and only by a value sent on the flag. */
  lemma OthersTakeLittleBack(c: Config, a: AdmitConfig, sys: System, move: Move, i: nat)
    requires SystemInv(c, sys) && AllNamed(sys) && Possible(c, a, sys, move)
    requires i < |sys.callers| && !(move.Own? && move.i == i)
    ensures
      var t := AfterMove(c, a, sys, move);
      && i < |t.callers| && t.callers[i].rounds == sys.callers[i].rounds && Named(t.gate, t.callers[i])
      && Rank(sys.gate, sys.sends, sys.callers[i])
         <= Rank(t.gate, t.sends, t.callers[i]) + One(t.sends != sys.sends && sys.callers[i].stage.Connecting?)
  {
    MoveKeeps(c, a, sys, move);
    ReachableHolds(c, sys.gate);
    var t := AfterMove(c, a, sys, move);
    assert CallerInv(sys.gate, sys.sends, sys.callers[i]) && CallerInv(t.gate, t.sends, t.callers[i]);
    if sys.callers[i].stage.Refreshing? {
      var f := sys.callers[i].stage.f;
      match move
      case Begin(_, _) =>
      case Own(j, act) =>
        var effect := Attempt(c, a, sys.gate, sys.sends, sys.callers[j], act).value;
        ClaimsStandOverRuns(c, sys.gate, effect.steps, f);
      case Other(step) => ClaimsNeverGoBack(c, sys.gate, step, f);
    }
  }

  // ---------------------------------------------------------------- how admissions end

  /** The stages entered only once the deadline has passed. */
  predicate IsLate(stage: Stage) {
    match stage
    case Accessing(_, late) => late
    case Offering(_, late) => late
    case Refreshing(_, _, late) => late
    case Confirming(_, _, late) => late
    case GivingBack(_, _, late, _) => late
    case Ended(outcome) => outcome.TimedOut?
    case _ => false
  }

  predicate LateWhenDue(now: nat, caller: Caller) {
    IsLate(caller.stage) ==> caller.deadline <= now
  }

  lemma EarlyActsKeepDue(c: Config, a: AdmitConfig, s: State, sends: nat, caller: Caller, act: Act)
    requires Named(s, caller) && Attempt(c, a, s, sends, caller, act).Some? && IsEarlyAct(act)
    requires LateWhenDue(s.shared.now, caller)
    ensures LateWhenDue(s.shared.now, Attempt(c, a, s, sends, caller, act).value.caller)
  {
  }

  lemma LateActsKeepDue(c: Config, a: AdmitConfig, s: State, sends: nat, caller: Caller, act: Act)
    requires Named(s, caller) && Attempt(c, a, s, sends, caller, act).Some? && !IsEarlyAct(act)
    requires LateWhenDue(s.shared.now, caller)
    ensures LateWhenDue(s.shared.now, Attempt(c, a, s, sends, caller, act).value.caller)
  {
  }

  ghost predicate AllDue(sys: System) {
    forall i: nat :: i < |sys.callers| ==> LateWhenDue(sys.gate.shared.now, sys.callers[i])
  }

  lemma MoveKeepsDue(c: Config, a: AdmitConfig, sys: System, move: Move)
    requires SystemInv(c, sys) && AllNamed(sys) && Possible(c, a, sys, move) && AllDue(sys)
    ensures AllDue(AfterMove(c, a, sys, move))
  {
    MoveTakesTime(c, a, sys, move);
    if move.Own? {
      if IsEarlyAct(move.act) {
        EarlyActsKeepDue(c, a, sys.gate, sys.sends, sys.callers[move.i], move.act);
      } else {
        LateActsKeepDue(c, a, sys.gate, sys.sends, sys.callers[move.i], move.act);
      }
    }
  }

  lemma MoveTakesTime(c: Config, a: AdmitConfig, sys: System, move: Move)
    requires SystemInv(c, sys) && AllNamed(sys) && Possible(c, a, sys, move)
    ensures sys.gate.shared.now <= AfterMove(c, a, sys, move).gate.shared.now
  {
    ReachableHolds(c, sys.gate);
    match move
    case Begin(_, _) =>
    case Own(i, act) =>
      assert CallerInv(sys.gate, sys.sends, sys.callers[i]);
      ActKeeps(c, a, sys.gate, sys.sends, sys.callers[i], act);
    case Other(step) => StepMoves(c, sys.gate, step);
  }

  lemma {:induction false} SystemRunKeepsDue(c: Config, a: AdmitConfig, sys: System, moves: seq<Move>)
    requires SystemInv(c, sys) && SystemRuns(c, a, sys, moves) && AllDue(sys)
    ensures AllDue(SystemAfter(c, a, sys, moves))
    decreases |moves|
  {
    if moves != [] {
      MoveKeepsDue(c, a, sys, moves[0]);
      MoveKeeps(c, a, sys, moves[0]);
      SystemRunKeepsDue(c, a, AfterMove(c, a, sys, moves[0]), moves[1..]);
    }
  }

  // ---------------------------------------------------------------- a zero timeout

  /** No call has got past its deadline check, and no entry has ever been made. */
  ghost predicate NothingAdmitted(sys: System) {
    sys.gate.entries == [] && forall i: nat :: i < |sys.callers| ==> NotLetIn(sys.gate.shared.now, sys.callers[i])
  }

  predicate NotLetIn(now: nat, caller: Caller) {
    || caller.stage.Starting?
    || (caller.stage.Checking? && caller.deadline <= now)
    || caller.stage == Ended(TimedOut)
  }

  lemma ActsLetNobodyIn(c: Config, a: AdmitConfig, s: State, sends: nat, caller: Caller, act: Act)
    requires a.timeout == 0 && Named(s, caller) && NotLetIn(s.shared.now, caller)
    requires Attempt(c, a, s, sends, caller, act).Some?
    ensures
      var effect := Attempt(c, a, s, sends, caller, act).value;
      effect.steps == [] && NotLetIn(s.shared.now, effect.caller)
  {
  }

  lemma MoveAdmitsNothing(c: Config, a: AdmitConfig, sys: System, move: Move)
    requires a.timeout == 0 && SystemInv(c, sys) && AllNamed(sys) && Possible(c, a, sys, move) && NothingAdmitted(sys)
    ensures NothingAdmitted(AfterMove(c, a, sys, move))
  {
    ReachableHolds(c, sys.gate);
    MoveTakesTime(c, a, sys, move);
    if move.Own? { ActsLetNobodyIn(c, a, sys.gate, sys.sends, sys.callers[move.i], move.act); }
    if move.Other? { StepMoves(c, sys.gate, move.step); }
  }

  lemma {:induction false} SystemRunAdmitsNothing(c: Config, a: AdmitConfig, sys: System, moves: seq<Move>)
    requires a.timeout == 0 && SystemInv(c, sys) && SystemRuns(c, a, sys, moves) && NothingAdmitted(sys)
    ensures NothingAdmitted(SystemAfter(c, a, sys, moves))
    decreases |moves|
  {
    if moves != [] {
      MoveAdmitsNothing(c, a, sys, moves[0]);
      MoveKeeps(c, a, sys, moves[0]);
      SystemRunAdmitsNothing(c, a, AfterMove(c, a, sys, moves[0]), moves[1..]);
    }
  }

  /** With a zero admission timeout no entry is ever made and no admission ever ends but by timing out. */
  lemma ZeroTimeoutAdmitsNothing(c: Config, a: AdmitConfig, sys: System)
    requires a.timeout == 0 && ReachableSystem(c, a, sys)
    ensures sys.gate.entries == []
    ensures forall i: nat :: i < |sys.callers| && sys.callers[i].stage.Ended? ==> sys.callers[i].stage.outcome.TimedOut?
  {
    var start: System, moves: seq<Move> :|
      InitSystem(start) && SystemRuns(c, a, start, moves) && SystemAfter(c, a, start, moves) == sys;
    InitIsReachable(c, start.gate);
    SystemRunAdmitsNothing(c, a, start, moves);
  }
}
