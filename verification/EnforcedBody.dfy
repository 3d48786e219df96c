/**
 The enforced stream body: a poll-driven wrapper that forwards an inner body's frames while its
 subject's admission allows, and cuts the stream once it does not.

 Everything outside the wrapper is an adversary. A poll is given the answers its environment will make:
 one `Turn` for each pass through the poll's loop, and the inner body's answer in case it is pulled. A
 poll that returns uses finitely many turns; one whose turns run out is reported as unfinished.
 */
module EnforcedBody {
  import opened Options

  // ---------------------------------------------------------------- the environment's answers

  datatype Observed = Allowed | Denied | Expired | Stale

  /** An admission handle, with the two readings the poll may take of it in turn. */
  datatype Reading = Reading(handle: nat, isAllowed: bool, isDenied: bool)

  datatype AdmitPoll = AdmitPending | Admitted(reading: Reading) | AdmitFailed

  /**
   The stored readmission is polled at `now`. If it has failed, its replacement reads the clock for its
   delay `lag` later, and the delay is first looked at `drift` after that.
   */
  datatype Turn = Turn(
    observed: Observed,
    cached: Option<Reading>,
    now: nat,
    admit: AdmitPoll,
    lag: nat,
    drift: nat,
    replacement: AdmitPoll)

  datatype InnerPoll = NotReady | Data(id: nat) | Trailers(id: nat) | Failed(id: nat) | Exhausted

  datatype PollInput = PollInput(innerEnded: bool, turns: seq<Turn>, inner: InnerPoll)

  // ---------------------------------------------------------------- the wrapper

  /** `refreshes` says whether the gate has a refresh window. */
  datatype Settings = Settings(admissionTimeout: nat, refreshes: bool)

  /**
   A stored readmission. `after` is the instant of the failure it follows, `startedAt` the instant its
   admission began, and `polledIn` the poll whose waker it holds. A completed one must not be polled.
   */
  datatype Readmission =
    | Sleeping(after: nat, polledIn: nat)
    | Running(startedAt: nat, follows: Option<nat>, polledIn: nat)
    | Completed

  datatype Body = Body(handle: nat, readmission: Option<Readmission>, ended: bool)

  /** What a poll answers: the inner body's result, a rejection, or the end of the stream. */
  datatype Output = Forwarded(result: InnerPoll) | Rejected | Ended | Panicked | Unfinished

  /** `used` counts the turns taken and `woke` says that the poll's waker was fired. */
  datatype Polled = Polled(body: Body, output: Output, used: nat, woke: bool)

  function Cut(b: Body, used: nat): Polled {
    Polled(b.(ended := true, readmission := None), Rejected, used, false)
  }

  function Forward(b: Body, inner: InnerPoll, used: nat, woke: bool): Polled {
    var body := if inner.Exhausted? || inner.Trailers? then b.(ended := true, readmission := None) else b;
    Polled(body, Forwarded(inner), used, woke)
  }

  /** One poll of a readmission at instant `now`: whatever is left of its delay, then its admission. */
  datatype ReadmissionPoll = StillPending(kept: Readmission) | Done(result: AdmitPoll) | Resumed

  function PollReadmission(c: Settings, r: Readmission, poll: nat, now: nat, admit: AdmitPoll): ReadmissionPoll {
    match r
    case Completed => Resumed
    case Sleeping(after, _) =>
      if now < after + c.admissionTimeout then StillPending(Sleeping(after, poll))
      else if admit.AdmitPending? then StillPending(Running(now, Some(after), poll))
      else Done(admit)
    case Running(startedAt, follows, _) =>
      if admit.AdmitPending? then StillPending(Running(startedAt, follows, poll)) else Done(admit)
  }

  /** The delayed readmission that replaces one found failed on this turn, already polled once. */
  function Replacement(c: Settings, poll: nat, t: Turn): (Readmission, bool) {
    match PollReadmission(c, Sleeping(t.now + t.lag, poll), poll, t.now + t.lag + t.drift, t.replacement)
    case StillPending(kept) => (kept, false)
    case _ => (Completed, true)
  }

  function StoredReadmission(b: Body, poll: nat, now: nat): Readmission {
    if b.readmission.Some? then b.readmission.value else Running(now, None, poll)
  }

  /** One pass through the loop of a poll: it goes round again, or the poll is over. */
  datatype Pass = Again(body: Body) | Over(polled: Polled)

  function TakeTurn(c: Settings, b: Body, poll: nat, t: Turn, inner: InnerPoll, used: nat): Pass {
    match t.observed
    case Allowed => Over(Forward(b, inner, used, false))
    case Denied => Over(Cut(b, used))
    case Expired => Over(Cut(b, used))
    case Stale =>
      if t.cached.Some? && t.cached.value.isAllowed && !c.refreshes then
        Again(b.(readmission := None, handle := t.cached.value.handle))
      else if t.cached.Some? && !t.cached.value.isAllowed && t.cached.value.isDenied then Over(Cut(b, used))
      else
        match PollReadmission(c, StoredReadmission(b, poll, t.now), poll, t.now, t.admit)
        case Resumed => Over(Polled(b, Panicked, used, false))
        case StillPending(kept) => Over(Forward(b.(readmission := Some(kept)), inner, used, false))
        case Done(AdmitFailed) =>
          var (kept, woke) := Replacement(c, poll, t);
          Over(Forward(b.(readmission := Some(kept)), inner, used, woke))
        case Done(Admitted(reading)) =>
          if reading.isAllowed then Again(b.(readmission := None, handle := reading.handle))
          else if reading.isDenied then Over(Cut(b, used))
          else Again(b.(readmission := None))
        case Done(AdmitPending) => Over(Polled(b, Unfinished, used, false))
  }

  function Turns(c: Settings, b: Body, poll: nat, turns: seq<Turn>, inner: InnerPoll, used: nat): (p: Polled)
    decreases |turns|
  {
    if turns == [] then Polled(b, Unfinished, used, false)
    else
      match TakeTurn(c, b, poll, turns[0], inner, used + 1)
      case Again(body) => Turns(c, body, poll, turns[1..], inner, used + 1)
      case Over(polled) => polled
  }

  /** One whole poll. */
  function Poll(c: Settings, b: Body, poll: nat, input: PollInput): (p: Polled) {
    if b.ended || input.innerEnded then Polled(b.(ended := true, readmission := None), Ended, 0, false)
    else Turns(c, b, poll, input.turns, input.inner, 0)
  }

  // ---------------------------------------------------------------- one poll

  /** The wrapper has nothing more to say. */
  predicate Final(output: Output) {
    output.Rejected? || output.Ended? || (output.Forwarded? && (output.result.Exhausted? || output.result.Trailers?))
  }

  /** The turn on which a poll settles demands a cut. */
  predicate Demands(c: Settings, turn: Turn) {
    || turn.observed.Denied? || turn.observed.Expired?
    || (turn.observed.Stale? &&
        (|| (turn.cached.Some? && !turn.cached.value.isAllowed && turn.cached.value.isDenied)
         || (turn.admit.Admitted? && !turn.admit.reading.isAllowed && turn.admit.reading.isDenied)))
  }

  /** The loop latches the end of the stream exactly with a final answer. */
  lemma {:induction false} TurnsLatch(c: Settings, b: Body, poll: nat, turns: seq<Turn>, inner: InnerPoll, used: nat)
    requires !b.ended
    ensures
      var p := Turns(c, b, poll, turns, inner, used);
      && (p.body.ended <==> Final(p.output))
      && (p.body.ended ==> p.body.readmission.None?)
      && (p.output.Forwarded? ==> p.output.result == inner)
      && !p.output.Ended?
    decreases |turns|
  {
    if turns != [] {
      var pass := TakeTurn(c, b, poll, turns[0], inner, used + 1);
      if pass.Again? { TurnsLatch(c, pass.body, poll, turns[1..], inner, used + 1); }
    }
  }

  /** The answer is settled by the last turn taken. */
  lemma {:induction false} TurnsSettle(c: Settings, b: Body, poll: nat, turns: seq<Turn>, inner: InnerPoll, used: nat)
    ensures
      var p := Turns(c, b, poll, turns, inner, used);
      && used <= p.used <= used + |turns|
      && (p.output.Unfinished? ||
          (used < p.used
           && var last := turns[p.used - used - 1];
           && (last.observed.Denied? || last.observed.Expired? ==> p.output.Rejected?)
           && (p.output.Rejected? ==> Demands(c, last))))
    decreases |turns|
  {
    if turns != [] {
      var pass := TakeTurn(c, b, poll, turns[0], inner, used + 1);
      if pass.Again? { TurnsSettle(c, pass.body, poll, turns[1..], inner, used + 1); }
    }
  }

  /** A poll pulls the inner body only when its last observation was neither Denied nor Expired. */
  lemma NothingPulledPastADenial(c: Settings, b: Body, poll: nat, input: PollInput)
    ensures
      var p := Poll(c, b, poll, input);
      && p.used <= |input.turns|
      && (p.output.Forwarded? ==>
            p.used > 0 && p.output.result == input.inner
            && var last := input.turns[p.used - 1].observed; last.Allowed? || last.Stale?)
      && (p.output.Rejected? ==> p.used > 0 && !b.ended && !input.innerEnded && Demands(c, input.turns[p.used - 1]))
      && (p.used > 0 && !p.output.Unfinished?
          && (var last := input.turns[p.used - 1].observed; last.Denied? || last.Expired?)
          ==> p.output.Rejected?)
  {
    if !b.ended {
      TurnsLatch(c, b, poll, input.turns, input.inner, 0);
      TurnsSettle(c, b, poll, input.turns, input.inner, 0);
    }
  }

  /** The poll left behind a readmission that will wake its caller, or has woken it. */
  predicate WillWake(p: Polled, poll: nat) {
    || p.woke
    || (&& p.body.readmission.Some?
        && match p.body.readmission.value
           case Sleeping(_, polledIn) => polledIn == poll
           case Running(_, _, polledIn) => polledIn == poll
           case Completed => false)
  }

  lemma {:induction false} TurnsWake(c: Settings, b: Body, poll: nat, turns: seq<Turn>, inner: InnerPoll, used: nat)
    requires !b.ended
    ensures
      var p := Turns(c, b, poll, turns, inner, used);
      && used <= p.used <= used + |turns|
      && (p.output == Forwarded(NotReady) ==>
            used < p.used && (turns[p.used - used - 1].observed.Stale? ==> WillWake(p, poll)))
    decreases |turns|
  {
    if turns != [] {
      var pass := TakeTurn(c, b, poll, turns[0], inner, used + 1);
      if pass.Again? { TurnsWake(c, pass.body, poll, turns[1..], inner, used + 1); }
    }
  }

  /** A stale body that goes to sleep is woken again: by its readmission, or because this poll fired the waker. */
  lemma NoLostWakeUp(c: Settings, b: Body, poll: nat, input: PollInput)
    ensures
      var p := Poll(c, b, poll, input);
      && p.used <= |input.turns|
      && (p.output == Forwarded(NotReady) ==>
            p.used > 0 && (input.turns[p.used - 1].observed.Stale? ==> WillWake(p, poll)))
  {
    if !b.ended { TurnsWake(c, b, poll, input.turns, input.inner, 0); }
  }

  // ---------------------------------------------------------------- runs of polls

  /** The states before each poll of a run and after the last, and the polls' answers. */
  function StateAfter(c: Settings, b: Body, inputs: seq<PollInput>): Body {
    if inputs == [] then b
    else Poll(c, StateAfter(c, b, inputs[..|inputs| - 1]), |inputs| - 1, inputs[|inputs| - 1]).body
  }

  function Outputs(c: Settings, b: Body, inputs: seq<PollInput>): (outputs: seq<Output>)
    ensures |outputs| == |inputs|
  {
    if inputs == [] then []
    else
      var before := inputs[..|inputs| - 1];
      Outputs(c, b, before) + [Poll(c, StateAfter(c, b, before), |inputs| - 1, inputs[|inputs| - 1]).output]
  }

  /** What was pulled from the inner body, in order. */
  function Pulled(outputs: seq<Output>): seq<InnerPoll> {
    if outputs == [] then []
    else
      var last := outputs[|outputs| - 1];
      Pulled(outputs[..|outputs| - 1]) + (if last.Forwarded? then [last.result] else [])
  }

  /** The inner body answers each pull with the next of its own results. */
  predicate Yields(inner: seq<InnerPoll>, inputs: seq<PollInput>, outputs: seq<Output>)
    requires |inputs| == |outputs|
  {
    forall i :: 0 <= i < |inputs| && |Pulled(outputs[..i])| < |inner| ==> inputs[i].inner == inner[|Pulled(outputs[..i])|]
  }

  function Rejections(outputs: seq<Output>): nat {
    if outputs == [] then 0
    else Rejections(outputs[..|outputs| - 1]) + (if outputs[|outputs| - 1].Rejected? then 1 else 0)
  }

  /** After a final answer there is only the end of the stream. */
  predicate EndsOnce(outputs: seq<Output>) {
    forall i, j :: 0 <= i < j < |outputs| && Final(outputs[i]) ==> outputs[j].Ended?
  }

  lemma PollLatches(c: Settings, b: Body, poll: nat, input: PollInput)
    ensures
      var p := Poll(c, b, poll, input);
      && (p.body.ended <==> Final(p.output))
      && (b.ended || input.innerEnded <==> p.output.Ended?)
      && (p.output.Forwarded? ==> p.output.result == input.inner)
  {
    if !b.ended { TurnsLatch(c, b, poll, input.turns, input.inner, 0); }
  }

  lemma {:induction false} RunLatches(c: Settings, start: Body, inputs: seq<PollInput>)
    requires !start.ended
    ensures
      var outputs := Outputs(c, start, inputs);
      && EndsOnce(outputs)
      && (StateAfter(c, start, inputs).ended <==> outputs != [] && Final(outputs[|outputs| - 1]))
      && (forall i :: 0 <= i < |outputs| ==>
            && (outputs[i].Forwarded? ==> outputs[i].result == inputs[i].inner)
            && (inputs[i].innerEnded ==> outputs[i].Ended?))
  {
    if inputs != [] {
      var before, last := inputs[..|inputs| - 1], inputs[|inputs| - 1];
      RunLatches(c, start, before);
      PollLatches(c, StateAfter(c, start, before), |before|, last);
    }
  }

  lemma {:induction false} OneRejection(outputs: seq<Output>)
    requires EndsOnce(outputs)
    ensures Rejections(outputs) <= 1
    ensures Rejections(outputs) == 1 <==> exists i :: 0 <= i < |outputs| && outputs[i].Rejected?
  {
    if outputs != [] {
      var before, last := outputs[..|outputs| - 1], outputs[|outputs| - 1];
      OneRejection(before);
      if last.Rejected? {
        assert forall i :: 0 <= i < |before| ==> !Final(outputs[i]) && before[i] == outputs[i];
      } else if exists i :: 0 <= i < |outputs| && outputs[i].Rejected? {
        var i :| 0 <= i < |outputs| && outputs[i].Rejected?;
        assert before[i].Rejected?;
      } else {
        assert forall i :: 0 <= i < |before| ==> before[i] == outputs[i];
      }
    }
  }

  lemma {:induction false} PulledInOrder(inner: seq<InnerPoll>, inputs: seq<PollInput>, outputs: seq<Output>)
    requires |inputs| == |outputs| && Yields(inner, inputs, outputs)
    requires forall i :: 0 <= i < |outputs| && outputs[i].Forwarded? ==> outputs[i].result == inputs[i].inner
    requires |Pulled(outputs)| <= |inner|
    ensures Pulled(outputs) == inner[..|Pulled(outputs)|]
  {
    if outputs != [] {
      var n := |outputs| - 1;
      assert forall i :: 0 <= i < n ==> outputs[..n][..i] == outputs[..i];
      PulledInOrder(inner, inputs[..n], outputs[..n]);
    }
  }

  /**
   For every run of polls against any environment, over an inner body that yields `inner`: what is
   forwarded is a prefix of `inner`, in order; at most one answer is final before the stream's end, and
   only the end follows it; at most one is a rejection, and none once the inner body has ended.
   */
  lemma TraceIsSafe(c: Settings, handle: nat, inputs: seq<PollInput>, inner: seq<InnerPoll>)
    requires
      var outputs := Outputs(c, Body(handle, None, false), inputs);
      Yields(inner, inputs, outputs) && |Pulled(outputs)| <= |inner|
    ensures
      var outputs := Outputs(c, Body(handle, None, false), inputs);
      && Pulled(outputs) == inner[..|Pulled(outputs)|]
      && EndsOnce(outputs)
      && Rejections(outputs) <= 1
      && (forall i, j :: 0 <= i < j < |outputs| && outputs[i].Forwarded? && Final(outputs[i]) ==> !outputs[j].Rejected?)
      && (forall i :: 0 <= i < |outputs| && inputs[i].innerEnded ==> outputs[i].Ended?)
  {
    var outputs := Outputs(c, Body(handle, None, false), inputs);
    RunLatches(c, Body(handle, None, false), inputs);
    OneRejection(outputs);
    PulledInOrder(inner, inputs, outputs);
  }

  // ---------------------------------------------------------------- readmission after a failure

  /** An admission that follows a failed one began at least the admission timeout later. */
  predicate Spaced(c: Settings, r: Option<Readmission>) {
    r.Some? && r.value.Running? && r.value.follows.Some? ==>
      r.value.follows.value + c.admissionTimeout <= r.value.startedAt
  }

  lemma {:induction false} TurnsKeepSpaced(c: Settings, b: Body, poll: nat, turns: seq<Turn>, inner: InnerPoll, used: nat)
    requires Spaced(c, b.readmission)
    ensures Spaced(c, Turns(c, b, poll, turns, inner, used).body.readmission)
    decreases |turns|
  {
    if turns != [] {
      var pass := TakeTurn(c, b, poll, turns[0], inner, used + 1);
      if pass.Again? { TurnsKeepSpaced(c, pass.body, poll, turns[1..], inner, used + 1); }
    }
  }

  lemma {:induction false} ReadmissionsAreSpaced(c: Settings, handle: nat, inputs: seq<PollInput>)
    ensures Spaced(c, StateAfter(c, Body(handle, None, false), inputs).readmission)
  {
    if inputs != [] {
      var before, last := inputs[..|inputs| - 1], inputs[|inputs| - 1];
      ReadmissionsAreSpaced(c, handle, before);
      TurnsKeepSpaced(c, StateAfter(c, Body(handle, None, false), before), |before|, last.turns, last.inner, 0);
    }
  }

  predicate CachedAllows(turn: Turn) {
    turn.cached.Some? && turn.cached.value.isAllowed
  }

  /** The turn comes before the delay is over, and no cached admission is taken over on it. */
  predicate DuringTheDelay(c: Settings, turn: Turn, failedAt: nat) {
    turn.now < failedAt + c.admissionTimeout && (c.refreshes || !CachedAllows(turn))
  }

  /** The same environment, except for what its admissions would answer. */
  predicate SameButForAdmissions(turns: seq<Turn>, others: seq<Turn>) {
    && |turns| == |others|
    && (forall i :: 0 <= i < |turns| ==>
          others[i] == turns[i].(admit := others[i].admit, replacement := others[i].replacement))
  }

  predicate StillSleeping(b: Body, failedAt: nat) {
    b.ended || (b.readmission.Some? && b.readmission.value.Sleeping? && b.readmission.value.after == failedAt)
  }

  lemma {:induction false} TurnsIgnoreAdmissions(
    c: Settings, b: Body, poll: nat, turns: seq<Turn>, others: seq<Turn>, inner: InnerPoll, used: nat, failedAt: nat)
    requires !b.ended && StillSleeping(b, failedAt) && SameButForAdmissions(turns, others)
    requires forall i :: 0 <= i < |turns| ==> DuringTheDelay(c, turns[i], failedAt)
    ensures Turns(c, b, poll, turns, inner, used) == Turns(c, b, poll, others, inner, used)
    ensures StillSleeping(Turns(c, b, poll, turns, inner, used).body, failedAt)
  {
    if turns != [] {
      assert DuringTheDelay(c, turns[0], failedAt);
      assert others[0] == turns[0].(admit := others[0].admit, replacement := others[0].replacement);
      assert TakeTurn(c, b, poll, turns[0], inner, used + 1).Over?;
    }
  }

  /**
   While the replacement of a failed readmission sleeps out its delay, no run of polls consults an
   admission: whatever admissions would answer, the polls' answers and the body stay the same.
   */
  lemma {:induction false} NoAdmissionDuringTheDelay(
    c: Settings, b: Body, inputs: seq<PollInput>, others: seq<PollInput>, failedAt: nat)
    requires StillSleeping(b, failedAt) && |inputs| == |others|
    requires forall i :: 0 <= i < |inputs| ==>
               && inputs[i].innerEnded == others[i].innerEnded && inputs[i].inner == others[i].inner
               && SameButForAdmissions(inputs[i].turns, others[i].turns)
    requires forall i, j :: 0 <= i < |inputs| && 0 <= j < |inputs[i].turns| ==>
               DuringTheDelay(c, inputs[i].turns[j], failedAt)
    ensures Outputs(c, b, inputs) == Outputs(c, b, others)
    ensures StateAfter(c, b, inputs) == StateAfter(c, b, others)
    ensures StillSleeping(StateAfter(c, b, inputs), failedAt)
  {
    if inputs != [] {
      var n := |inputs| - 1;
      NoAdmissionDuringTheDelay(c, b, inputs[..n], others[..n], failedAt);
      var before := StateAfter(c, b, inputs[..n]);
      if !before.ended {
        TurnsIgnoreAdmissions(c, before, n, inputs[n].turns, others[n].turns, inputs[n].inner, 0, failedAt);
      }
    }
  }

  // ---------------------------------------------------------------- resuming a completed readmission

  predicate IsCompleted(r: Option<Readmission>) {
    r.Some? && r.value.Completed?
  }

  /** On no turn does the clock move further than `limit` between arming a replacement and polling it. */
  predicate DriftsWithin(turns: seq<Turn>, limit: nat) {
    forall i :: 0 <= i < |turns| ==> turns[i].drift <= limit
  }

  lemma {:induction false} TurnsKeepPollable(
    c: Settings, b: Body, poll: nat, turns: seq<Turn>, inner: InnerPoll, used: nat, limit: nat)
    requires limit < c.admissionTimeout && DriftsWithin(turns, limit) && !IsCompleted(b.readmission)
    ensures
      var p := Turns(c, b, poll, turns, inner, used);
      !IsCompleted(p.body.readmission) && !p.output.Panicked?
    decreases |turns|
  {
    if turns != [] {
      var pass := TakeTurn(c, b, poll, turns[0], inner, used + 1);
      if pass.Again? { TurnsKeepPollable(c, pass.body, poll, turns[1..], inner, used + 1, limit); }
    }
  }

  predicate RunDriftsWithin(inputs: seq<PollInput>, limit: nat) {
    forall i :: 0 <= i < |inputs| ==> DriftsWithin(inputs[i].turns, limit)
  }

  lemma {:induction false} RunKeepsPollable(c: Settings, handle: nat, inputs: seq<PollInput>, limit: nat)
    requires limit < c.admissionTimeout && RunDriftsWithin(inputs, limit)
    ensures !IsCompleted(StateAfter(c, Body(handle, None, false), inputs).readmission)
    ensures Panicked !in Outputs(c, Body(handle, None, false), inputs)
  {
    if inputs != [] {
      var before, last := inputs[..|inputs| - 1], inputs[|inputs| - 1];
      RunKeepsPollable(c, handle, before, limit);
      TurnsKeepPollable(c, StateAfter(c, Body(handle, None, false), before), |before|, last.turns, last.inner, 0, limit);
    }
  }

  /** A run in which some poll resumes a readmission that has already completed. */
  predicate ResumesCompleted(c: Settings, inputs: seq<PollInput>) {
    Panicked in Outputs(c, Body(0, None, false), inputs)
  }

  /** A poll on whose one turn every admission fails at once and the clock moves between the two readings. */
  function RefusedPoll(drift: nat): PollInput {
    PollInput(false, [Turn(Stale, None, 0, AdmitFailed, 0, drift, AdmitFailed)], NotReady)
  }

  /** Whatever the timeout, a clock that moves that far between the two readings makes the next poll resume. */
  lemma LongDriftResumes(c: Settings)
    ensures ResumesCompleted(c, [RefusedPoll(c.admissionTimeout), RefusedPoll(c.admissionTimeout)])
  {
    var input := RefusedPoll(c.admissionTimeout);
    var start := Body(0, None, false);
    assert [input, input][..1] == [input] && [input][..0] == [];
    var first := Poll(c, start, 0, input);
    assert first.body == start.(readmission := Some(Completed));
    assert StateAfter(c, start, [input]) == first.body;
    var outputs := Outputs(c, start, [input, input]);
    assert outputs[1] == Poll(c, first.body, 1, input).output == Panicked;
  }

  /**
   With clocks that move at most `limit` between arming the replacement of a failed readmission and
   first looking at its delay, no poll resumes a completed readmission exactly when the admission timeout
   is longer than that. Otherwise the replacement can complete while it is being armed, is stored
   nevertheless, and the next stale poll resumes it.
   */
  lemma NeverResumedIffDriftIsShort(c: Settings, limit: nat)
    ensures
      (forall inputs: seq<PollInput> :: RunDriftsWithin(inputs, limit) ==> !ResumesCompleted(c, inputs)) <==>
      limit < c.admissionTimeout
  {
    if limit < c.admissionTimeout {
      forall inputs: seq<PollInput> | RunDriftsWithin(inputs, limit) ensures !ResumesCompleted(c, inputs) {
        RunKeepsPollable(c, 0, inputs, limit);
      }
    } else {
      LongDriftResumes(c);
      assert RunDriftsWithin([RefusedPoll(c.admissionTimeout), RefusedPoll(c.admissionTimeout)], limit);
    }
  }

  // ---------------------------------------------------------------- the mutable wrapper

  class EnforcedBody {
    const settings: Settings
    var handle: nat
    var readmission: Option<Readmission>
    var ended: bool
    var polls: nat
    var cutoffs: nat

    function Contents(): Body
      reads this
    {
      Body(handle, readmission, ended)
    }

    constructor (settings: Settings, handle: nat)
      ensures Contents() == Body(handle, None, false) && polls == 0 && cutoffs == 0 && this.settings == settings
    {
      this.settings, this.handle := settings, handle;
      readmission, ended, polls, cutoffs := None, false, 0, 0;
    }

    /** One poll against the environment's answers; the cutoff metric counts the rejections. */
    method PollFrame(input: PollInput) returns (output: Output, woke: bool)
      modifies this
      ensures
        var p := Poll(settings, old(Contents()), old(polls), input);
        Contents() == p.body && output == p.output && woke == p.woke
      ensures polls == old(polls) + 1
      ensures cutoffs == old(cutoffs) + if output.Rejected? then 1 else 0
    {
      ghost var expected := Poll(settings, Contents(), polls, input);
      var poll := polls;
      polls, woke := polls + 1, false;
      if ended || input.innerEnded {
        ended, readmission := true, None;
        return Ended, false;
      }
      var used, denied := 0, false;
      while !denied
        invariant polls == poll + 1 && cutoffs == old(cutoffs) && !woke
        invariant used <= |input.turns|
        invariant !denied ==> expected == Turns(settings, Contents(), poll, input.turns[used..], input.inner, used)
        invariant denied ==> expected == Cut(Contents(), used)
        decreases !denied, |input.turns| - used
      {
        if used == |input.turns| {
          return Unfinished, false;
        }
        var turn := input.turns[used];
        assert input.turns[used..][1..] == input.turns[used + 1..];
        used := used + 1;
        match turn.observed {
          case Allowed =>
            output := PollInner(input.inner);
            return;
          case Denied | Expired =>
            denied := true;
          case Stale =>
            if turn.cached.Some? && turn.cached.value.isAllowed && !settings.refreshes {
              readmission, handle := None, turn.cached.value.handle;
            } else if turn.cached.Some? && !turn.cached.value.isAllowed && turn.cached.value.isDenied {
              denied := true;
            } else {
              if readmission.None? {
                readmission := Some(Running(turn.now, None, poll));
              }
              match PollReadmission(settings, readmission.value, poll, turn.now, turn.admit) {
                case Resumed =>
                  return Panicked, false;
                case StillPending(kept) =>
                  readmission := Some(kept);
                  output := PollInner(input.inner);
                  return;
                case Done(result) =>
                  readmission := None;
                  if result.AdmitFailed? {
                    var (kept, fired) := Replacement(settings, poll, turn);
                    readmission, woke := Some(kept), fired;
                    output := PollInner(input.inner);
                    return;
                  }
                  if result.reading.isAllowed {
                    handle := result.reading.handle;
                  } else if result.reading.isDenied {
                    denied := true;
                  }
              }
            }
        }
      }
      ended, readmission := true, None;
      cutoffs := cutoffs + 1;
      output := Rejected;
    }

    /** Forwards the inner body's answer, latching the end with its last frame or its exhaustion. */
    method PollInner(inner: InnerPoll) returns (output: Output)
      modifies this`ended, this`readmission
      ensures
        var p := Forward(old(Contents()), inner, 0, false);
        Contents() == p.body && output == p.output
    {
      if inner.Exhausted? || inner.Trailers? {
        ended, readmission := true, None;
      }
      output := Forwarded(inner);
    }

    /** Told exactly when the next poll, whatever its environment, ends the stream. */
    function IsEndStream(innerEnded: bool): (known: bool)
      reads this
      ensures forall input: PollInput :: input.innerEnded == innerEnded ==>
                (known <==> Poll(settings, Contents(), polls, input).output.Ended?)
    {
      EndIsKnown(settings, Contents(), polls, innerEnded);
      ended || innerEnded
    }

    /** The exact number of bytes left, promised exactly when the wrapper itself has ended the stream. */
    function SizeHint(): (left: Option<nat>)
      reads this
      ensures left.Some? <==> forall input: PollInput :: Poll(settings, Contents(), polls, input).output.Ended?
      ensures left.Some? ==> left.value == 0
    {
      EndIsKnown(settings, Contents(), polls, false);
      EndIsKnown(settings, Contents(), polls, true);
      assert Poll(settings, Contents(), polls, PollInput(false, [], NotReady)).output.Ended? <==> ended;
      if ended then Some(0) else None
    }
  }

  lemma EndIsKnown(c: Settings, b: Body, poll: nat, innerEnded: bool)
    ensures forall input: PollInput :: input.innerEnded == innerEnded ==>
              (b.ended || innerEnded <==> Poll(c, b, poll, input).output.Ended?)
  {
    forall input: PollInput | input.innerEnded == innerEnded
      ensures b.ended || innerEnded <==> Poll(c, b, poll, input).output.Ended?
    {
      PollLatches(c, b, poll, input);
    }
  }
}
