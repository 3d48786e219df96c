/** The watch loop's reconnect delay, its yields, and the health it reports, over whole runs. */
module WatchLoop {
  import opened Options
  import opened Deadlines
  import opened Backoff

  datatype WatchConfig = WatchConfig(initial: nat, max: nat, eventsPerYield: nat, admissionTimeout: nat)

  predicate ValidConfig(c: WatchConfig) {
    0 < c.initial <= c.max <= DURATION_MAX && c.eventsPerYield > 0
  }

  // ---------------------------------------------------------------- what a connection brings

  /** One item of work for an open watch; `Ended` stands for the stream's end, its error, or a closed queue. */
  datatype Work = Stable(at: nat) | RefreshBatch | RefreshDone | Change | Ended

  /** One turn of the outer loop: the works of the watch if it opened, and when it was found down. */
  datatype Cycle = Cycle(isOpen: bool, works: seq<Work>, downAt: nat, draw: nat)

  function FirstEnd(works: seq<Work>): (n: nat)
    ensures n <= |works|
    ensures forall i :: 0 <= i < n ==> !works[i].Ended?
    ensures n < |works| ==> works[n].Ended?
  {
    if works == [] || works[0].Ended? then 0 else 1 + FirstEnd(works[1..])
  }

  /** The works the loop takes: it leaves at the first end. */
  function Taken(works: seq<Work>): seq<Work> {
    works[..FirstEnd(works)]
  }

  predicate AnyStable(works: seq<Work>) {
    works != [] && (works[0].Stable? || AnyStable(works[1..]))
  }

  predicate WasStable(cycle: Cycle) {
    cycle.isOpen && AnyStable(Taken(cycle.works))
  }

  function Changes(works: seq<Work>): nat {
    if works == [] then 0 else (if works[0].Change? then 1 else 0) + Changes(works[1..])
  }

  /** How many whole groups there are among so many changes, and how many changes are left over. */
  function Groups(changes: nat, group: nat): nat
    requires group > 0
  {
    if changes < group then 0 else 1 + Groups(changes - group, group)
  }

  function LeftOver(changes: nat, group: nat): nat
    requires group > 0
  {
    if changes < group then changes else LeftOver(changes - group, group)
  }

  /** Reopenings since the last cycle that had a stable period. */
  function SinceStable(cycles: seq<Cycle>): nat {
    if cycles == [] || WasStable(cycles[|cycles| - 1]) then 0
    else if |cycles| == 1 then 0
    else SinceStable(cycles[..|cycles| - 1]) + 1
  }

  // ---------------------------------------------------------------- health

  datatype Event = BecameStable(at: nat) | WentDown(at: nat)

  datatype Status = Healthy | NotYetStable | Failing

  function Marked(since: Option<nat>, event: Event): Option<nat> {
    match event
    case BecameStable(_) => None
    case WentDown(at) => if since.None? then Some(at) else since
  }

  function Since(events: seq<Event>): Option<nat> {
    if events == [] then None else Marked(Since(events[..|events| - 1]), events[|events| - 1])
  }

  function StatusOf(since: Option<nat>, now: nat, timeout: nat): Status {
    if since.None? then Healthy
    else if SatSub(now, since.value) >= timeout then Failing
    else NotYetStable
  }

  predicate NoStableAfter(events: seq<Event>, i: nat) {
    forall j :: i < j < |events| ==> !events[j].BecameStable?
  }

  predicate InOrder(events: seq<Event>, now: nat) {
    && (forall i, j :: 0 <= i < j < |events| ==> events[i].at <= events[j].at)
    && (forall i :: 0 <= i < |events| ==> events[i].at <= now)
  }

  /** The recorded instant is that of the first disconnect after the last stable period, if there is one. */
  ghost predicate FirstSinceStable(events: seq<Event>, i: nat) {
    && i < |events| && events[i].WentDown? && NoStableAfter(events, i)
    && (forall j :: 0 <= j < i && NoStableAfter(events, j) ==> !events[j].WentDown?)
  }

  lemma {:induction false} SinceIsTheFirstDisconnect(events: seq<Event>)
    ensures Since(events).Some? ==> exists i: nat :: FirstSinceStable(events, i) && Since(events) == Some(events[i].at)
    ensures Since(events).None? ==> forall i: nat :: i < |events| && NoStableAfter(events, i) ==> !events[i].WentDown?
  {
    if events != [] {
      var before, last := events[..|events| - 1], events[|events| - 1];
      SinceIsTheFirstDisconnect(before);
      assert forall i: nat :: i < |before| && NoStableAfter(events, i) ==> NoStableAfter(before, i) && before[i] == events[i];
      if last.WentDown? {
        if Since(before).Some? {
          var i: nat :| FirstSinceStable(before, i) && Since(before) == Some(before[i].at);
          assert FirstSinceStable(events, i);
        } else {
          assert FirstSinceStable(events, |before|);
        }
      } else {
        assert forall i: nat :: i < |before| ==> !NoStableAfter(events, i);
      }
    }
  }

  /** The source counts as failed exactly when a disconnect that old has not been followed by a stable period. */
  lemma FailingMeansALongUnstableSpell(events: seq<Event>, now: nat, timeout: nat)
    requires InOrder(events, now)
    ensures
      StatusOf(Since(events), now, timeout).Failing? <==>
      exists i: nat :: i < |events| && events[i].WentDown? && events[i].at + timeout <= now && NoStableAfter(events, i)
    ensures
      StatusOf(Since(events), now, timeout).Healthy? <==>
      forall i: nat :: i < |events| && NoStableAfter(events, i) ==> !events[i].WentDown?
  {
    SinceIsTheFirstDisconnect(events);
    if Since(events).Some? {
      var i: nat :| FirstSinceStable(events, i) && Since(events) == Some(events[i].at);
      if j: nat :| j < |events| && events[j].WentDown? && events[j].at + timeout <= now && NoStableAfter(events, j) {
        assert i <= j;
      }
    }
  }

  // ---------------------------------------------------------------- the loop

  /** What the watch did to the health record during one cycle. */
  function Stables(works: seq<Work>): seq<Event> {
    if works == [] then []
    else (if works[0].Stable? then [BecameStable(works[0].at)] else []) + Stables(works[1..])
  }

  function EventsOf(cycle: Cycle): seq<Event> {
    (if cycle.isOpen then Stables(Taken(cycle.works)) else []) + [WentDown(cycle.downAt)]
  }

  function History(created: nat, cycles: seq<Cycle>): seq<Event> {
    if cycles == [] then [WentDown(created)]
    else History(created, cycles[..|cycles| - 1]) + EventsOf(cycles[|cycles| - 1])
  }

  class Watcher {
    const config: WatchConfig
    var reconnectDelay: nat
    var disconnectedSince: Option<nat>
    var yieldCount: nat
    var waits: seq<Option<nat>>
    ghost var log: seq<Event>

    ghost predicate Valid()
      reads this
    {
      ValidConfig(config) && disconnectedSince == Since(log)
    }

    constructor (config: WatchConfig, created: nat)
      requires ValidConfig(config)
      ensures Valid() && this.config == config && reconnectDelay == config.initial
      ensures log == History(created, []) && disconnectedSince == Some(created) && waits == [] && yieldCount == 0
    {
      this.config, reconnectDelay := config, config.initial;
      disconnectedSince, log := Some(created), [WentDown(created)];
      yieldCount, waits := 0, [];
      new;
      assert log[..0] == [] && Since(log[..0]) == None;
    }

    method WatchStable(at: nat)
      requires Valid()
      modifies this`disconnectedSince, this`log
      ensures Valid() && log == old(log) + [BecameStable(at)] && disconnectedSince.None?
    {
      disconnectedSince, log := None, log + [BecameStable(at)];
      assert log[..|log| - 1] == old(log);
    }

    method MarkDisconnected(at: nat)
      requires Valid()
      modifies this`disconnectedSince, this`log
      ensures Valid() && log == old(log) + [WentDown(at)]
      ensures disconnectedSince == if old(disconnectedSince).None? then Some(at) else old(disconnectedSince)
    {
      if disconnectedSince.None? {
        disconnectedSince := Some(at);
      }
      log := log + [WentDown(at)];
      assert log[..|log| - 1] == old(log);
    }

    /** Drives one open watch until it ends, yielding after every `eventsPerYield` changes. */
    method Drive(works: seq<Work>)
      requires Valid()
      modifies this`reconnectDelay, this`disconnectedSince, this`yieldCount, this`log
      ensures Valid() && log == old(log) + Stables(Taken(works))
      ensures reconnectDelay == if AnyStable(Taken(works)) then config.initial else old(reconnectDelay)
      ensures yieldCount == old(yieldCount) + Groups(Changes(Taken(works)), config.eventsPerYield)
    {
      var at, eventsSinceYield := 0, 0;
      while at < |works| && !works[at].Ended?
        invariant at <= FirstEnd(works)
        invariant Valid() && log == old(log) + Stables(works[..at])
        invariant reconnectDelay == if AnyStable(works[..at]) then config.initial else old(reconnectDelay)
        invariant yieldCount == old(yieldCount) + Groups(Changes(works[..at]), config.eventsPerYield)
        invariant eventsSinceYield == LeftOver(Changes(works[..at]), config.eventsPerYield)
      {
        assert works[..at + 1] == works[..at] + [works[at]];
        StepsJoin(works[..at], works[at]);
        match works[at] {
          case Stable(when) =>
            reconnectDelay := config.initial;
            WatchStable(when);
          case Change =>
            OneMoreChange(Changes(works[..at]), config.eventsPerYield);
            eventsSinceYield := eventsSinceYield + 1;
            if eventsSinceYield == config.eventsPerYield {
              eventsSinceYield, yieldCount := 0, yieldCount + 1;
            }
          case _ =>
        }
        at := at + 1;
      }
    }

    /** One turn of the outer loop: drive the watch if it opened, record that it is down, wait, back off. */
    method RunCycle(cycle: Cycle)
      requires Valid()
      modifies this
      ensures Valid() && log == old(log) + EventsOf(cycle)
      ensures
        var delay := if WasStable(cycle) then config.initial else old(reconnectDelay);
        waits == old(waits) + [Jitter(delay, cycle.draw)] && reconnectDelay == Doubled(delay, config.max)
    {
      if cycle.isOpen {
        Drive(cycle.works);
      }
      MarkDisconnected(cycle.downAt);
      waits := waits + [Jitter(reconnectDelay, cycle.draw)];
      reconnectDelay := Doubled(reconnectDelay, config.max);
    }

    /** The outer loop over a run of cycles, from a new watcher. */
    method Run(created: nat, cycles: seq<Cycle>)
      requires Valid() && log == History(created, []) && reconnectDelay == config.initial && waits == []
      modifies this
      ensures Valid() && log == History(created, cycles)
      ensures waits == Waits(config, cycles)
    {
      var k := 0;
      while k < |cycles|
        invariant k <= |cycles|
        invariant Valid() && log == History(created, cycles[..k]) && waits == Waits(config, cycles[..k])
        invariant reconnectDelay == if k == 0 then config.initial else Doubled(DelayAfter(config, cycles[..k]), config.max)
      {
        assert cycles[..k + 1][..k] == cycles[..k];
        DelayFollows(config, cycles[..k + 1]);
        RunCycle(cycles[k]);
        k := k + 1;
      }
      assert cycles[..k] == cycles;
    }
  }

  /** The delay of the last cycle of a run, before jitter: geometric in the cycles since the last stable one. */
  function DelayAfter(c: WatchConfig, cycles: seq<Cycle>): nat {
    Min(c.initial * Pow2(SinceStable(cycles)), c.max)
  }

  function Waits(c: WatchConfig, cycles: seq<Cycle>): (waits: seq<Option<nat>>)
    ensures |waits| == |cycles|
  {
    if cycles == [] then []
    else Waits(c, cycles[..|cycles| - 1]) + [Jitter(DelayAfter(c, cycles), cycles[|cycles| - 1].draw)]
  }

  lemma DelayFollows(c: WatchConfig, cycles: seq<Cycle>)
    requires ValidConfig(c) && cycles != []
    ensures
      var before := cycles[..|cycles| - 1];
      DelayAfter(c, cycles) ==
      if WasStable(cycles[|cycles| - 1]) || before == [] then c.initial else Doubled(DelayAfter(c, before), c.max)
  {
    DelayIsGeometric(SinceStable(cycles), c.initial, c.max);
    DelayIsGeometric(SinceStable(cycles[..|cycles| - 1]), c.initial, c.max);
  }

  lemma {:induction false} StepsJoin(works: seq<Work>, work: Work)
    ensures Stables(works + [work]) == Stables(works) + if work.Stable? then [BecameStable(work.at)] else []
    ensures Changes(works + [work]) == Changes(works) + if work.Change? then 1 else 0
    ensures AnyStable(works + [work]) <==> AnyStable(works) || work.Stable?
  {
    if works == [] {
      assert works + [work] == [work];
    } else {
      StepsJoin(works[1..], work);
      assert (works + [work])[1..] == works[1..] + [work];
    }
  }

  lemma {:induction false} OneMoreChange(changes: nat, group: nat)
    requires group > 0
    ensures LeftOver(changes, group) < group
    ensures
      if LeftOver(changes, group) + 1 == group
      then Groups(changes + 1, group) == Groups(changes, group) + 1 && LeftOver(changes + 1, group) == 0
      else
        && Groups(changes + 1, group) == Groups(changes, group)
        && LeftOver(changes + 1, group) == LeftOver(changes, group) + 1
  {
    if changes >= group { OneMoreChange(changes - group, group); }
  }
}
