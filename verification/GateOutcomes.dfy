/** How admissions end: what they hand out was read as a verdict, and was the authority's. */
module GateOutcomes {
  import opened Options
  import opened GateModel
  import opened GateInvariants
  import opened GateRuns
  import opened GateTheorems
  import opened GateHistory
  import opened GateCallers
  import opened GateCharges
  import opened GateRounds

  /** The stages that hold out a verdict of entry `e` already read, and the end that hands it over. */
  predicate Offers(stage: Stage, e: nat) {
    match stage
    case Offering(e', _) => e' == e
    case Refreshing(e', _, _) => e' == e
    case GivingBack(e', _, _, granted) => granted && e' == e
    case Ended(Admitted(e')) => e' == e
    case _ => false
  }

  /** By this move caller `i` reads entry `e` and finds a verdict, unexpired at a reading of this round's clock. */
  predicate ShownBy(sys: System, move: Move, i: nat, e: nat) {
    && move.Own? && move.i == i && i < |sys.callers| && e < |sys.gate.entries|
    && (move.act.Access? || move.act.Confirm?)
    && EntryOf(sys.callers[i].stage) == Some(e) && sys.gate.entries[e].subject == sys.callers[i].subject
    && Readable(sys.gate, sys.callers[i], move.act.readAt)
    && StateAt(sys.gate.entries[e], move.act.readAt).IsVerdict()
  }

  lemma OffersAreShown(c: Config, a: AdmitConfig, sys: System, i: nat, act: Act, e: nat)
    requires AllNamed(sys) && i < |sys.callers|
    requires Attempt(c, a, sys.gate, sys.sends, sys.callers[i], act).Some?
    requires Offers(Attempt(c, a, sys.gate, sys.sends, sys.callers[i], act).value.caller.stage, e)
    ensures Offers(sys.callers[i].stage, e) || ShownBy(sys, Own(i, act), i, e)
  {
  }

  lemma MoveShows(c: Config, a: AdmitConfig, sys: System, move: Move, i: nat, e: nat)
    requires AllNamed(sys) && Possible(c, a, sys, move) && i < |AfterMove(c, a, sys, move).callers|
    requires Offers(AfterMove(c, a, sys, move).callers[i].stage, e)
    ensures (i < |sys.callers| && Offers(sys.callers[i].stage, e)) || ShownBy(sys, move, i, e)
  {
    if move.Own? && move.i == i { OffersAreShown(c, a, sys, i, move.act, e); }
  }

  lemma {:induction false} RunShows(c: Config, a: AdmitConfig, sys: System, moves: seq<Move>, i: nat, e: nat)
    returns (k: nat, u: System)
    requires SystemRuns(c, a, sys, moves) && i < |SystemAfter(c, a, sys, moves).callers|
    requires Offers(SystemAfter(c, a, sys, moves).callers[i].stage, e)
    requires i < |sys.callers| ==> !Offers(sys.callers[i].stage, e)
    ensures k < |moves| && Leads(c, a, sys, moves[..k], u) && ShownBy(u, moves[k], i, e)
    decreases |moves|
  {
    var next := AfterMove(c, a, sys, moves[0]);
    if i < |next.callers| && Offers(next.callers[i].stage, e) {
      MoveShows(c, a, sys, moves[0], i, e);
      k, u := 0, sys;
    } else {
      k, u := RunShows(c, a, next, moves[1..], i, e);
      assert moves[..k + 1][1..] == moves[1..][..k];
      k := k + 1;
    }
  }

  /** The entry's decision is one that the authority held for its subject since the current stream opened. */
  ghost predicate TheAuthoritys(c: Config, s: State, e: nat) {
    && e < |s.entries| && DecisionOf(s.entries[e].cell.snapshot).Some?
    && exists start: State, steps: seq<Step> ::
         && Init(start) && Runs(c, start, steps) && After(c, start, steps) == s
         && HeldSinceOpening(c, start, steps, s.entries[e].subject, DecisionOf(s.entries[e].cell.snapshot).value)
  }

  /** It is the current one while the stream is open and no change of the subject is on its way. */
  ghost predicate UpToDate(s: State, e: nat)
    requires e < |s.entries|
  {
    s.shared.streamOpen && !Mentions(Undelivered(s.shared), s.entries[e].subject) ==>
      DecisionOf(s.entries[e].cell.snapshot) == Current(s.shared, s.entries[e].subject)
  }

  lemma LiveVerdictsAreTheAuthoritys(c: Config, s: State, e: nat)
    requires Reachable(c, s) && e < |s.entries| && Live(s.entries[e])
    ensures TheAuthoritys(c, s, e) && UpToDate(s, e)
  {
    var start: State, steps: seq<Step> :| Init(start) && Runs(c, start, steps) && After(c, start, steps) == s;
    VerdictsAreTheAuthoritys(c, start, steps, e);
    if s.shared.streamOpen && !Mentions(Undelivered(s.shared), s.entries[e].subject) { LiveHandlesAgree(c, s, e); }
  }

  /** At some point of the run caller `i` has read entry `e` with an unexpired verdict of the authority's. */
  ghost predicate Shown(c: Config, a: AdmitConfig, start: System, moves: seq<Move>, i: nat, e: nat) {
    exists k: nat, u: System ::
      && k < |moves| && Leads(c, a, start, moves[..k], u) && ShownBy(u, moves[k], i, e)
      && TheAuthoritys(c, u.gate, e) && UpToDate(u.gate, e)
  }

  /**
   An admission that has timed out is past its deadline. One that has handed out an entry handed out one of
   its own subject in which it has read, since its last round saw the flag up, an unexpired verdict: a
   decision that the authority held for the subject since the current stream opened, and its current one
   if no change of the subject was on its way.
   */
  lemma OutcomesAreDue(c: Config, a: AdmitConfig, start: System, moves: seq<Move>, i: nat)
    requires InitSystem(start) && SystemRuns(c, a, start, moves)
    requires i < |SystemAfter(c, a, start, moves).callers| && SystemAfter(c, a, start, moves).callers[i].stage.Ended?
    ensures
      var sys := SystemAfter(c, a, start, moves);
      var outcome := sys.callers[i].stage.outcome;
      && (outcome.TimedOut? ==> sys.callers[i].deadline <= sys.gate.shared.now)
      && (outcome.Admitted? ==>
            && outcome.e < |sys.gate.entries| && sys.gate.entries[outcome.e].subject == sys.callers[i].subject
            && !StateIn(sys.gate.entries[outcome.e]).Pending? && Shown(c, a, start, moves, i, outcome.e))
  {
    var sys := SystemAfter(c, a, start, moves);
    InitIsReachable(c, start.gate);
    SystemRunKeeps(c, a, start, moves);
    SystemRunKeepsDue(c, a, start, moves);
    assert CallerInv(sys.gate, sys.sends, sys.callers[i]) && LateWhenDue(sys.gate.shared.now, sys.callers[i]);
    var outcome := sys.callers[i].stage.outcome;
    if outcome.Admitted? { AdmittedIsShown(c, a, start, moves, i, outcome.e); }
  }

  lemma AdmittedIsShown(c: Config, a: AdmitConfig, start: System, moves: seq<Move>, i: nat, e: nat)
    requires InitSystem(start) && SystemRuns(c, a, start, moves)
    requires i < |SystemAfter(c, a, start, moves).callers|
    requires Offers(SystemAfter(c, a, start, moves).callers[i].stage, e)
    ensures Shown(c, a, start, moves, i, e)
  {
    var k, u := RunShows(c, a, start, moves, i, e);
    InitIsReachable(c, start.gate);
    SystemRunKeeps(c, a, start, moves[..k]);
    LiveVerdictsAreTheAuthoritys(c, u.gate, e);
  }
}
