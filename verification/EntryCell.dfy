/**
 The compare-and-swap loops of one entry's cell, run against any interference.

 Each loop either stores once, over the very value it checked, or stores nothing and reports the value
 it last saw. That is why the transition system takes each loop as one step.
 */
module EntryCell {
  import opened Options
  import opened Deadlines
  import opened GateModel

  class EntryCell {
    const epoch: nat
    var current: Cell
    var nextId: nat
    /** What other parties store before each of this party's next compare-and-swap attempts. */
    var foreign: seq<seq<Snapshot>>
    /** Every value the cell has held, and how many of them this party stored. */
    ghost var history: seq<Cell>
    ghost var own: nat

    ghost predicate Valid()
      reads this
    {
      && history != [] && history[|history| - 1] == current
      && (forall i :: 0 <= i < |history| ==> history[i].id < nextId)
      && (forall i, j :: 0 <= i < j < |history| ==> history[i].id < history[j].id)
    }

    constructor (epoch: nat, foreign: seq<seq<Snapshot>>)
      ensures Valid() && current.snapshot == PENDING_SNAPSHOT && this.epoch == epoch && own == 0
    {
      this.epoch, this.foreign := epoch, foreign;
      current, nextId := Cell(0, PENDING_SNAPSHOT), 1;
      history, own := [Cell(0, PENDING_SNAPSHOT)], 0;
    }

    /** One atomic store; whoever makes it, the value gets a number of its own. */
    method Store(snapshot: Snapshot)
      requires Valid()
      modifies this`current, this`nextId, this`history
      ensures Valid() && history == old(history) + [Cell(old(nextId), snapshot)]
    {
      current, history := Cell(nextId, snapshot), history + [Cell(nextId, snapshot)];
      nextId := nextId + 1;
    }

    /** The stores of other parties that get in before the next attempt. */
    method Interfere()
      requires Valid()
      modifies this`current, this`nextId, this`history, this`foreign
      ensures Valid() && old(history) <= history
      ensures foreign == if old(foreign) == [] then [] else old(foreign)[1..]
      ensures old(foreign) == [] ==> history == old(history)
    {
      if foreign == [] {
        return;
      }
      var batch := foreign[0];
      foreign := foreign[1..];
      for i := 0 to |batch|
        invariant Valid() && old(history) <= history && foreign == old(foreign)[1..]
      {
        Store(batch[i]);
      }
    }

    /** Stores `next` if the cell still holds the value with `expected`'s number; returns what it found. */
    method CompareAndSwap(expected: Cell, next: Snapshot) returns (previous: Cell)
      requires Valid() && expected == current
      modifies this
      ensures Valid() && old(history) <= history
      ensures foreign == if old(foreign) == [] then [] else old(foreign)[1..]
      ensures previous.id == expected.id ==>
                && previous == expected && own == old(own) + 1
                && history == old(history) + [current] && current.snapshot == next
      ensures previous.id != expected.id ==> previous == current && own == old(own) && old(foreign) != []
    {
      Interfere();
      previous := current;
      if previous.id == expected.id {
        Store(next);
        own := own + 1;
      }
    }

    /** The value this party's one store replaced. */
    ghost predicate ReplacedOne(before: seq<Cell>, owned: nat, replaced: Snapshot)
      reads this
    {
      && own == owned + 1 && before <= history && |before| < |history| && |history| > 1
      && history[|history| - 2].snapshot == replaced
    }

    /** Stores `next` over a value in state `expected`, or reports the other state it found. */
    method CompareExchange(expected: EntryState, next: Snapshot) returns (found: Option<EntryState>)
      requires Valid()
      modifies this
      ensures Valid()
      ensures found.None? ==>
                && current.snapshot == next
                && exists replaced: Snapshot :: replaced.state == expected && ReplacedOne(old(history), old(own), replaced)
      ensures found.Some? ==>
                && found.value != expected && current.snapshot.state == found.value
                && own == old(own) && old(history) <= history
      ensures |foreign| <= |old(foreign)|
      ensures old(foreign) == [] && old(current).snapshot.state == expected ==> found.None?
    {
      var previous := current;
      while true
        invariant Valid() && previous == current && own == old(own) && old(history) <= history
        invariant |foreign| <= |old(foreign)| && (old(foreign) == [] ==> current == old(current))
        decreases |foreign|
      {
        if previous.snapshot.state != expected {
          return Some(previous.snapshot.state);
        }
        var changed := CompareAndSwap(previous, next);
        if changed.id == previous.id {
          assert ReplacedOne(old(history), old(own), previous.snapshot);
          return None;
        }
        previous := changed;
      }
    }

    /**
     Reads the cell and marks an expired value stale. On return the value read is the current one; an
     expired one is marked, and the only value ever replaced was itself expired and unmarked.
     */
    method CurrentAt(now: nat) returns (read: Snapshot, expired: bool)
      requires Valid()
      modifies this
      ensures Valid() && read == current.snapshot
      ensures expired <==> IsExpired(read, epoch, now)
      ensures expired ==> read.state.Stale?
      ensures own != old(own) ==>
                exists replaced: Snapshot ::
                  && ReplacedOne(old(history), old(own), replaced)
                  && IsExpired(replaced, epoch, now) && !replaced.state.Stale? && read == StaleOf(replaced)
    {
      var previous := current;
      while true
        invariant Valid() && previous == current && own == old(own) && old(history) <= history
        decreases |foreign|
      {
        if !IsExpired(previous.snapshot, epoch, now) {
          return previous.snapshot, false;
        }
        if previous.snapshot.state.Stale? {
          return previous.snapshot, true;
        }
        var stale := StaleOf(previous.snapshot);
        var changed := CompareAndSwap(previous, stale);
        if changed.id == previous.id {
          assert ReplacedOne(old(history), old(own), previous.snapshot);
          return stale, true;
        }
        previous := changed;
      }
    }

    /** Marks whatever the cell holds, exactly once, keeping its deadline and dropping its payload. */
    method Invalidate()
      requires Valid()
      modifies this
      ensures Valid() && current.snapshot.state.Stale? && current.snapshot.payload.None?
      ensures exists replaced: Snapshot ::
                ReplacedOne(old(history), old(own), replaced) && current.snapshot == StaleOf(replaced)
    {
      var previous := current;
      while true
        invariant Valid() && previous == current && own == old(own) && old(history) <= history
        decreases |foreign|
      {
        var changed := CompareAndSwap(previous, StaleOf(previous.snapshot));
        if changed.id == previous.id {
          assert ReplacedOne(old(history), old(own), previous.snapshot);
          return;
        }
        previous := changed;
      }
    }

    /**
     A watch change: whatever state it finds, it stores the decision, dated by a clock reading taken
     after that state was read. `clock[i]` is the reading of the i-th attempt.
     */
    method StoreDecision(c: Config, decision: Decision, clock: nat -> nat) returns (attempts: nat)
      requires Valid()
      modifies this
      ensures Valid() && attempts > 0
      ensures current.snapshot
              == DecisionSnapshot(epoch, c.refreshBefore, c.freshness, clock(attempts - 1),
                                  DecisionResult(decision, None, None))
      ensures exists replaced: Snapshot :: ReplacedOne(old(history), old(own), replaced)
    {
      attempts := 0;
      while true
        invariant Valid() && own == old(own) && old(history) <= history
        decreases |foreign|
      {
        var state := current.snapshot.state;
        var result := DecisionResult(decision, None, None);
        var next := DecisionSnapshot(epoch, c.refreshBefore, c.freshness, clock(attempts), result);
        attempts := attempts + 1;
        Interfere();
        ghost var seen := history;
        var found := CompareExchange(state, next);
        if found.None? {
          ghost var replaced: Snapshot :| replaced.state == state && ReplacedOne(seen, old(own), replaced);
          assert ReplacedOne(old(history), old(own), replaced);
          return;
        }
      }
    }
  }
}
