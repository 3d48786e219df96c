/**
 Callers of `admit` as parties of the transition system.

 A caller moves by actions of its own, each one reading, one compare-and-swap or one map-lock section;
 between any two of them anybody else may move. What others do is counted for each caller as far as it
 concerns the caller's subject.
 */
module GateCallers {
  import opened Options
  import opened Backoff
  import opened Deadlines
  import opened GateModel
  import opened GateInvariants

  datatype AdmitConfig = AdmitConfig(timeout: nat, initialRetry: nat, maxRetry: nat)

  /** How the lookup a caller waited for ended, if it was not aborted. */
  datatype FetchResult = Succeeded | Failing(error: ErrorKind)

  datatype Outcome = Admitted(e: nat) | Refused | TimedOut

  /** `late` says that the admission deadline has passed and that the entry is looked at one last time. */
  datatype Stage =
    | Starting
    // the top of a round
    | Checking
    | Connecting
    | Finding
    | Found(e: nat)
    | InTime(e: nat)
    | Discarding(e: nat)
    | Classifying(e: nat)
    // the entry has a verdict: hand it out, perhaps after claiming a refresh
    | Accessing(e: nat, late: bool)
    | Offering(e: nat, late: bool)
    | Refreshing(e: nat, f: nat, late: bool)
    | Confirming(e: nat, f: nat, late: bool)
    | GivingBack(e: nat, f: nat, late: bool, granted: bool)
    // the entry is Pending: wait for the lookup in its slot
    | LoadingSlot(e: nat)
    | Rechecking(e: nat, f: nat)
    | Matching(e: nat, f: nat)
    | Awaiting(e: nat, f: nat)
    | Completed(e: nat, result: FetchResult)
    | Rereading(e: nat, result: FetchResult)
    // the entry is stale, or its lookup failed
    | Removing(e: nat)
    | Sleeping(until: nat)
    | Ended(outcome: Outcome)

  /**
   `seen` is the connection flag's version that the caller's receiver last saw, and `since` the instant
   at which this round saw the flag up. `rounds` counts the rounds begun, `removals` the stale entries
   the caller has removed, `foreign` the steps of others that concerned its subject, and `marks` those
   among them that made an entry of the subject stale or let it expire. `quiet` says that there was none
   since this round saw the flag up, and `missed` is 1 if the receiver had a version to catch up with.
   */
  datatype Caller = Caller(
    subject: Subject,
    deadline: nat,
    seen: nat,
    since: nat,
    retryDelay: nat,
    stage: Stage,
    rounds: nat,
    removals: nat,
    foreign: nat,
    marks: nat,
    quiet: bool,
    missed: nat)

  /** `sends` counts the values sent on the connection flag, which is its version. */
  datatype System = System(gate: State, sends: nat, callers: seq<Caller>)

  // ---------------------------------------------------------------- what a caller does

  datatype Act =
    | ReadDeadline
    | CheckClock
    | NoticeChange
    | NoticeUp
    | NoticeClosed
    | RunOut
    | Find(readAt: nat)
    | CheckDeadline
    | ReadFlag
    | Discard
    | Classify(readAt: nat)
    | Access(readAt: nat)
    | Keep
    | LoadCurrent
    | Claiming(action: FetchAction)
    | Unclaimed
    | HandedOver
    | Confirm(readAt: nat)
    | GiveBack
    | LoadSlot
    | RecheckState(readAt: nat)
    | Match
    | Interrupt
    | SeeAbort
    | Complete(result: FetchResult)
    | AfterFetch
    | Reread(readAt: nat)
    | Remove(readAt: nat)
    | WakeUp

  /** An entry's state as a reader finds it whose clock reading is `readAt`. */
  function StateAt(entry: Entry, readAt: nat): EntryState {
    if IsExpired(entry.cell.snapshot, entry.epoch, readAt) then EntryState.Stale else StateIn(entry)
  }

  /** Reading an expired entry marks it. */
  function ReadSteps(s: State, e: nat, readAt: nat): seq<Step>
    requires e < |s.entries|
  {
    var entry := s.entries[e];
    if IsExpired(entry.cell.snapshot, entry.epoch, readAt) && !StateIn(entry).Stale?
    then [OnEntry(e, Observe(readAt))] else []
  }

  function RemovalSteps(subject: Subject, e: nat): seq<Step> {
    [OnMap(Acquire), OnMap(Pop(subject)), OnEntry(e, Invalidate), OnEntry(e, EmptySlot), OnMap(Unlock)]
  }

  function InsertSteps(subject: Subject, readAt: nat): seq<Step> {
    [OnMap(Acquire), Insert(subject, readAt), OnMap(Unlock)]
  }

  /** The entry that the map holds for a subject. */
  function Bound(s: State, subject: Subject): Option<nat> {
    if subject in s.shared.subjects then Some(s.shared.subjects[subject]) else None
  }

  /** The actions of a claimant from its claim of the slot to the last look at the entry. */
  predicate IsClaimAction(action: FetchAction) {
    || action.Claim? || action.Compare? || action.ReadClock? || action.Revalidate?
    || action.Send? || action.GiveUp?
  }

  /** What an action does to the gate and to the caller; `again` says that it ends the round. */
  datatype Effect = Effect(steps: seq<Step>, caller: Caller, again: bool)

  function To(caller: Caller, stage: Stage): Effect {
    Effect([], caller.(stage := stage), false)
  }

  function Next(steps: seq<Step>, caller: Caller, stage: Stage): Effect {
    Effect(steps, caller.(stage := stage), false)
  }

  function Round(steps: seq<Step>, caller: Caller): Effect {
    Effect(steps, caller.(stage := Checking, rounds := caller.rounds + 1), true)
  }

  predicate InStage(stage: Stage, act: Act) {
    match act
    case ReadDeadline => stage.Starting?
    case CheckClock => stage.Checking?
    case NoticeChange => stage.Connecting?
    case NoticeUp => stage.Connecting?
    case NoticeClosed => stage.Connecting?
    case RunOut => stage.Connecting? || stage.Awaiting?
    case Find(_) => stage.Finding?
    case CheckDeadline => stage.Found?
    case ReadFlag => stage.InTime?
    case Discard => stage.Discarding?
    case Classify(_) => stage.Classifying?
    case Access(_) => stage.Accessing?
    case Keep => stage.Offering?
    case LoadCurrent => stage.Offering?
    case Claiming(_) => stage.Refreshing?
    case Unclaimed => stage.Refreshing?
    case HandedOver => stage.Refreshing?
    case Confirm(_) => stage.Confirming?
    case GiveBack => stage.GivingBack?
    case LoadSlot => stage.LoadingSlot?
    case RecheckState(_) => stage.Rechecking?
    case Match => stage.Matching?
    case Interrupt => stage.Awaiting?
    case SeeAbort => stage.Awaiting?
    case Complete(_) => stage.Awaiting?
    case AfterFetch => stage.Completed?
    case Reread(_) => stage.Rereading?
    case Remove(_) => stage.Removing?
    case WakeUp => stage.Sleeping?
  }

  /** The entry and the fetch that a stage names. */
  function EntryOf(stage: Stage): Option<nat> {
    match stage
    case Found(e) => Some(e)
    case InTime(e) => Some(e)
    case Discarding(e) => Some(e)
    case Classifying(e) => Some(e)
    case Accessing(e, _) => Some(e)
    case Offering(e, _) => Some(e)
    case Refreshing(e, _, _) => Some(e)
    case Confirming(e, _, _) => Some(e)
    case GivingBack(e, _, _, _) => Some(e)
    case LoadingSlot(e) => Some(e)
    case Rechecking(e, _) => Some(e)
    case Matching(e, _) => Some(e)
    case Awaiting(e, _) => Some(e)
    case Completed(e, _) => Some(e)
    case Rereading(e, _) => Some(e)
    case Removing(e) => Some(e)
    case Ended(Admitted(e)) => Some(e)
    case _ => None
  }

  function FetchOf(stage: Stage): Option<nat> {
    match stage
    case Refreshing(_, f, _) => Some(f)
    case Confirming(_, f, _) => Some(f)
    case GivingBack(_, f, _, _) => Some(f)
    case Rechecking(_, f) => Some(f)
    case Matching(_, f) => Some(f)
    case Awaiting(_, f) => Some(f)
    case _ => None
  }

  /** What a stage names exists, and the entry is one for the caller's subject. */
  predicate Named(s: State, caller: Caller) {
    && (EntryOf(caller.stage).Some? ==>
          && EntryOf(caller.stage).value < |s.entries|
          && s.entries[EntryOf(caller.stage).value].subject == caller.subject)
    && (FetchOf(caller.stage).Some? ==> FetchOf(caller.stage).value < |s.fetches|)
  }

  /** The clock readings a round may use: taken after it saw the flag up. */
  predicate Readable(s: State, caller: Caller, readAt: nat) {
    caller.since <= readAt <= s.shared.now
  }

  /** A verdict check that fails ends the round, or the call if the deadline has passed. */
  function VerdictOrElse(s: State, caller: Caller, e: nat, late: bool, readAt: nat, then': Stage): Effect
    requires e < |s.entries|
  {
    var steps := ReadSteps(s, e, readAt);
    if StateAt(s.entries[e], readAt).IsVerdict() then Next(steps, caller, then')
    else if late then Next(steps, caller, Ended(TimedOut))
    else Round(steps, caller)
  }

  /** The next retry waits twice as long, up to the maximum. */
  function Asleep(a: AdmitConfig, s: State, caller: Caller, steps: seq<Step>): Effect {
    Next(steps, caller.(retryDelay := Doubled(caller.retryDelay, a.maxRetry)), Sleeping(s.shared.now + caller.retryDelay))
  }

  /** A finished lookup has left a verdict behind, or it was of no use, or it has failed. */
  function AfterLookup(a: AdmitConfig, s: State, caller: Caller, e: nat, result: FetchResult, readAt: nat): Effect
    requires e < |s.entries|
  {
    var steps := ReadSteps(s, e, readAt);
    if StateAt(s.entries[e], readAt).IsVerdict() then Next(steps, caller, Accessing(e, false))
    else if result.Succeeded? then Round(steps, caller)
    else if !result.error.Transient? then Next(steps, caller, Ended(Refused))
    else Asleep(a, s, caller, steps)
  }

  /** The effect of an action if the caller can take it now. */
  function Attempt(c: Config, a: AdmitConfig, s: State, sends: nat, caller: Caller, act: Act): Option<Effect>
    requires Named(s, caller)
  {
    var sh, stage := s.shared, caller.stage;
    if !InStage(stage, act) then None
    else
      match act
      case ReadDeadline => Some(To(caller.(deadline := sh.now + a.timeout), Checking))
      case CheckClock => Some(To(caller, if sh.now >= caller.deadline then Ended(TimedOut) else Connecting))
      case NoticeChange => if sh.connected || caller.seen == sends then None else Some(To(caller.(seen := sends), stage))
      case NoticeUp => if !sh.connected then None else Some(To(caller.(since := sh.now, quiet := true), Finding))
      case NoticeClosed => if sh.watcher.Gone? && caller.seen == sends then Some(To(caller, Ended(Refused))) else None
      case RunOut =>
        if sh.now < caller.deadline then None
        else Some(To(caller, if stage.Awaiting? then Accessing(stage.e, true) else Ended(TimedOut)))
      case Find(readAt) =>
        if !sh.lock.Free? || !Readable(s, caller, readAt) then None
        else if Bound(s, caller.subject).Some? then Some(To(caller, Found(Bound(s, caller.subject).value)))
        else Some(Next(InsertSteps(caller.subject, readAt), caller, Found(|s.entries|)))
      case CheckDeadline => Some(To(caller, if sh.now >= caller.deadline then Ended(TimedOut) else InTime(stage.e)))
      case ReadFlag =>
        if sh.connected then Some(Next([OnEntry(stage.e, SeeConnected)], caller, Classifying(stage.e)))
        else Some(To(caller, Discarding(stage.e)))
      case Discard =>
        if !sh.lock.Free? then None
        else
          var held := Bound(s, caller.subject) == Some(stage.e);
          Some(Round(if held then RemovalSteps(caller.subject, stage.e) else [], caller))
      case Classify(readAt) =>
        if !Readable(s, caller, readAt) then None
        else
          Some(Next(ReadSteps(s, stage.e, readAt), caller,
                    match StateAt(s.entries[stage.e], readAt)
                    case Pending => LoadingSlot(stage.e)
                    case Stale => Removing(stage.e)
                    case _ => Accessing(stage.e, false)))
      case Access(readAt) =>
        if !Readable(s, caller, readAt) then None
        else
          Some(VerdictOrElse(s, caller, stage.e, stage.late, readAt,
                       if c.refreshBefore == 0 then Ended(Admitted(stage.e)) else Offering(stage.e, stage.late)))
      case Keep => Some(To(caller, Ended(Admitted(stage.e))))
      case LoadCurrent =>
        if EntryEnabled(c, sh, stage.e, s.entries[stage.e], Load)
        then Some(Next([OnEntry(stage.e, Load)], caller, Refreshing(stage.e, |s.fetches|, stage.late)))
        else None
      case Claiming(action) =>
        if IsClaimAction(action) && Enabled(c, s, OnFetch(stage.f, action))
        then Some(Next([OnFetch(stage.f, action)], caller, stage)) else None
      case Unclaimed => if s.fetches[stage.f].phase.Loaded? then Some(To(caller, Ended(Admitted(stage.e)))) else None
      case HandedOver =>
        if s.fetches[stage.f].phase.Dropping? || !(s.fetches[stage.f].phase.Loaded? || Guarded(s.fetches[stage.f].phase))
        then Some(To(caller, Confirming(stage.e, stage.f, stage.late)))
        else None
      case Confirm(readAt) =>
        if !Readable(s, caller, readAt) then None
        else if s.fetches[stage.f].phase.Dropping? then
          var granted := StateAt(s.entries[stage.e], readAt).IsVerdict();
          Some(Next(ReadSteps(s, stage.e, readAt), caller, GivingBack(stage.e, stage.f, stage.late, granted)))
        else Some(VerdictOrElse(s, caller, stage.e, stage.late, readAt, Ended(Admitted(stage.e))))
      case GiveBack =>
        var steps := if s.fetches[stage.f].phase.Dropping? then [OnFetch(stage.f, DropClaim)] else [];
        if steps != [] && !Enabled(c, s, OnFetch(stage.f, DropClaim)) then None
        else if stage.granted then Some(Next(steps, caller, Ended(Admitted(stage.e))))
        else if stage.late then Some(Next(steps, caller, Ended(TimedOut)))
        else Some(Round(steps, caller))
      case LoadSlot =>
        if s.entries[stage.e].slot.None? then Some(Round([], caller))
        else if s.entries[stage.e].slot.value < |s.fetches|
        then Some(To(caller, Rechecking(stage.e, s.entries[stage.e].slot.value)))
        else None
      case RecheckState(readAt) =>
        if !Readable(s, caller, readAt) then None
        else if StateAt(s.entries[stage.e], readAt).Pending? then Some(To(caller, Matching(stage.e, stage.f)))
        else Some(Round(ReadSteps(s, stage.e, readAt), caller))
      case Match =>
        if s.entries[stage.e].slot == Some(stage.f) then Some(To(caller, Awaiting(stage.e, stage.f)))
        else Some(Round([], caller))
      case Interrupt =>
        if caller.seen != sends || sh.watcher.Gone? then Some(Round([], caller.(seen := sends))) else None
      case SeeAbort => if s.fetches[stage.f].aborted then Some(Round([], caller)) else None
      case Complete(result) =>
        if s.fetches[stage.f].phase.Finished? then Some(To(caller, Completed(stage.e, result))) else None
      case AfterFetch => Some(if sh.connected then To(caller, Rereading(stage.e, stage.result)) else Round([], caller))
      case Reread(readAt) =>
        if !Readable(s, caller, readAt) then None
        else Some(AfterLookup(a, s, caller, stage.e, stage.result, readAt))
      case Remove(readAt) =>
        if !sh.lock.Free? || !Readable(s, caller, readAt) then None
        else if Bound(s, caller.subject) == Some(stage.e) && StateAt(s.entries[stage.e], readAt).Stale?
        then Some(Round(RemovalSteps(caller.subject, stage.e), caller.(removals := caller.removals + 1)))
        else Some(Round([], caller))
      case WakeUp =>
        if sh.now >= caller.deadline then Some(To(caller, Ended(TimedOut)))
        else if stage.until <= sh.now then Some(Round([], caller))
        else None
  }

  // ---------------------------------------------------------------- what others do

  predicate Expired(s: State, e: nat)
    requires e < |s.entries|
  {
    IsExpired(s.entries[e].cell.snapshot, s.entries[e].epoch, s.shared.now)
  }

  /** The entry offers no verdict and is resolved: it is stale, or its deadline has passed. */
  predicate Dead(s: State, e: nat)
    requires e < |s.entries|
  {
    StateIn(s.entries[e]).Stale? || Expired(s, e)
  }

  /** The entry's cell or slot has changed, or its deadline has come. */
  predicate Touched(s: State, t: State, e: nat)
    requires e < |s.entries| && e < |t.entries|
  {
    || t.entries[e].cell != s.entries[e].cell
    || t.entries[e].slot != s.entries[e].slot
    || Expired(t, e) != Expired(s, e)
  }

  /** From `s` to `t` the connection flag, the map at the subject, or an entry of the subject changed. */
  ghost predicate Concerns(s: State, t: State, subject: Subject)
  {
    || s.shared.connected != t.shared.connected
    || Bound(s, subject) != Bound(t, subject)
    || exists e: nat :: e < |s.entries| && e < |t.entries| && s.entries[e].subject == subject && Touched(s, t, e)
  }

  /** From `s` to `t` some entry of the subject died. */
  ghost predicate Marked(s: State, t: State, subject: Subject)
  {
    exists e: nat :: e < |s.entries| && e < |t.entries| && s.entries[e].subject == subject && !Dead(s, e) && Dead(t, e)
  }

  /** This round has seen the flag up. */
  predicate PastConnect(stage: Stage) {
    !stage.Starting? && !stage.Checking? && !stage.Connecting? && !stage.Ended?
  }

  ghost function Noticed(s: State, t: State, caller: Caller): Caller
  {
    if caller.stage.Ended? then caller
    else
      caller.(foreign := caller.foreign + (if Concerns(s, t, caller.subject) then 1 else 0),
              marks := caller.marks + (if Marked(s, t, caller.subject) then 1 else 0),
              quiet := caller.quiet && !Concerns(s, t, caller.subject))
  }

  // ---------------------------------------------------------------- the whole system

  /** `Begin` is a new call; `Other` is any step of the gate that no call of `admit` takes itself. */
  datatype Move =
    | Begin(subject: Subject, seen: nat)
    | Own(i: nat, act: Act)
    | Other(step: Step)

  ghost predicate InitSystem(sys: System) {
    Init(sys.gate) && sys.sends == 0 && sys.callers == []
  }

  function NewCaller(a: AdmitConfig, sys: System, subject: Subject, seen: nat): Caller {
    Caller.Caller(subject, 0, seen, 0, a.initialRetry, Starting, 1, 0, 0, 0, false,
           if sys.gate.shared.connected && seen != sys.sends then 1 else 0)
  }

  ghost predicate AllNamed(sys: System) {
    forall i: nat :: i < |sys.callers| ==> Named(sys.gate, sys.callers[i])
  }

  /** Only callers insert entries. */
  ghost predicate Possible(c: Config, a: AdmitConfig, sys: System, move: Move)
    requires AllNamed(sys)
  {
    match move
    case Begin(_, seen) => seen <= sys.sends
    case Own(i, act) =>
      && i < |sys.callers|
      && var attempt := Attempt(c, a, sys.gate, sys.sends, sys.callers[i], act);
      attempt.Some? && Runs(c, sys.gate, attempt.value.steps)
    case Other(step) => !step.Insert? && Enabled(c, sys.gate, step)
  }

  predicate IsSend(step: Step) {
    step.OnWatch? && (step.onWatch.SetConnected? || step.onWatch.ClearConnected?)
  }

  ghost function AfterMove(c: Config, a: AdmitConfig, sys: System, move: Move): System
    requires AllNamed(sys) && Possible(c, a, sys, move)
  {
    match move
    case Begin(subject, seen) => sys.(callers := sys.callers + [NewCaller(a, sys, subject, seen)])
    case Own(i, act) =>
      var effect := Attempt(c, a, sys.gate, sys.sends, sys.callers[i], act).value;
      var t := After(c, sys.gate, effect.steps);
      var callers := seq(|sys.callers|, j requires 0 <= j < |sys.callers| =>
        if j == i then effect.caller else Noticed(sys.gate, t, sys.callers[j]));
      System(t, sys.sends, callers)
    case Other(step) =>
      var t := Apply(c, sys.gate, step);
      var callers := seq(|sys.callers|, j requires 0 <= j < |sys.callers| => Noticed(sys.gate, t, sys.callers[j]));
      System(t, sys.sends + (if IsSend(step) then 1 else 0), callers)
  }
}
