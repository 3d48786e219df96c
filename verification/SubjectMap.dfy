/**
 The bounded map of subjects: least recently used first, evicted by capacity and by idle time.

 `Table` is the map as a value, with the entries it has invalidated on the way; the class below is the
 mutable map, each of whose sections is one of the value's operations.
 */
module SubjectMap {
  import opened Options

  /** Subjects and entries are compared for equality only. */
  type Subject = nat
  type EntryRef = nat

  datatype Slot = Slot(subject: Subject, entry: EntryRef, lastTouched: nat)

  datatype Table = Table(slots: seq<Slot>, invalidated: seq<EntryRef>, dirty: bool)

  // ---------------------------------------------------------------- lookups in order

  predicate Unique(slots: seq<Slot>) {
    forall i, j :: 0 <= i < j < |slots| ==> slots[i].subject != slots[j].subject
  }

  /** The place of a subject, or the length when it is absent. */
  function Find(slots: seq<Slot>, subject: Subject): (at: nat)
    ensures at <= |slots|
    ensures at < |slots| ==> slots[at].subject == subject
    ensures forall i :: 0 <= i < at ==> slots[i].subject != subject
  {
    if slots == [] then 0
    else if slots[0].subject == subject then 0
    else 1 + Find(slots[1..], subject)
  }

  predicate Holds(slots: seq<Slot>, subject: Subject) {
    Find(slots, subject) < |slots|
  }

  function Without(slots: seq<Slot>, at: nat): seq<Slot>
    requires at < |slots|
  {
    slots[..at] + slots[at + 1..]
  }

  function Entries(slots: seq<Slot>): (entries: seq<EntryRef>)
    ensures |entries| == |slots|
  {
    seq(|slots|, i requires 0 <= i < |slots| => slots[i].entry)
  }

  function Backwards(entries: seq<EntryRef>): seq<EntryRef> {
    seq(|entries|, i requires 0 <= i < |entries| => entries[|entries| - 1 - i])
  }

  /** The slot moved to the most recently used end, its idle time restarted unless `tick` is older. */
  function Renewed(slots: seq<Slot>, at: nat, tick: nat): seq<Slot>
    requires at < |slots|
  {
    Without(slots, at) + [slots[at].(lastTouched := Max(slots[at].lastTouched, tick))]
  }

  // ---------------------------------------------------------------- eviction

  predicate IdleTooLong(slot: Slot, now: nat, ttl: nat) {
    SatSub(now, slot.lastTouched) > ttl
  }

  /** How many slots one sweep removes: it stops at the first that has been touched recently enough. */
  function IdlePrefix(slots: seq<Slot>, now: nat, ttl: nat): (n: nat)
    ensures n <= |slots|
    ensures forall i :: 0 <= i < n ==> IdleTooLong(slots[i], now, ttl)
    ensures n < |slots| ==> !IdleTooLong(slots[n], now, ttl)
  {
    if slots == [] || !IdleTooLong(slots[0], now, ttl) then 0 else 1 + IdlePrefix(slots[1..], now, ttl)
  }

  /** The table without its first `n` slots, their entries invalidated in turn. */
  function Dropped(table: Table, n: nat): Table
    requires n <= |table.slots|
  {
    Table(table.slots[n..], table.invalidated + Entries(table.slots[..n]), table.dirty || n > 0)
  }

  function Evicted(table: Table, now: nat, ttl: nat): Table {
    Dropped(table, IdlePrefix(table.slots, now, ttl))
  }

  // ---------------------------------------------------------------- operations

  datatype Limits = Limits(capacity: nat, ttl: nat)

  datatype Op =
    | GetOrInsert(subject: Subject, tick: nat, created: EntryRef)
    | Touch(subject: Subject, tick: nat, expected: EntryRef)
    | Update(subject: Subject, tick: nat)
    | RemoveIf(subject: Subject, tick: nat, accepted: bool)
    | Clear

  /** A sweep, then a pop if the map is still full. */
  function MadeRoom(table: Table, l: Limits, tick: nat): Table
    requires l.capacity > 0
  {
    var swept := Evicted(table, tick, l.ttl);
    if |swept.slots| < l.capacity then swept else Dropped(swept, 1)
  }

  function Inserted(table: Table, l: Limits, subject: Subject, tick: nat, created: EntryRef): Table
    requires l.capacity > 0
  {
    var room := MadeRoom(table, l, tick);
    Evicted(room.(slots := room.slots + [Slot(subject, created, tick)]), tick, l.ttl)
  }

  function Do(table: Table, l: Limits, op: Op): Table
    requires l.capacity > 0
  {
    match op
    case GetOrInsert(subject, tick, created) =>
      if Holds(table.slots, subject)
      then Evicted(table.(slots := Renewed(table.slots, Find(table.slots, subject), tick)), tick, l.ttl)
      else Inserted(table, l, subject, tick, created)
    case Touch(subject, tick, expected) =>
      var at := Find(table.slots, subject);
      if at < |table.slots| && table.slots[at].entry == expected
      then Evicted(table.(slots := Renewed(table.slots, at, tick)), tick, l.ttl)
      else Evicted(table, tick, l.ttl)
    case Update(_, tick) => Evicted(table, tick, l.ttl)
    case RemoveIf(subject, tick, accepted) =>
      var swept := Evicted(table, tick, l.ttl);
      var at := Find(swept.slots, subject);
      if at < |swept.slots| && accepted
      then swept.(slots := Without(swept.slots, at), invalidated := swept.invalidated + [swept.slots[at].entry])
      else swept
    case Clear => Table([], table.invalidated + Backwards(Entries(table.slots)), table.dirty)
  }

  // ---------------------------------------------------------------- order by recency, up to clock skew

  /** No slot was touched more than `skew` later than a slot nearer the recently used end. */
  predicate Skewed(slots: seq<Slot>, skew: nat) {
    forall i, j :: 0 <= i < j < |slots| ==> slots[i].lastTouched <= slots[j].lastTouched + skew
  }

  predicate NotBeyond(slots: seq<Slot>, latest: nat) {
    forall i :: 0 <= i < |slots| ==> slots[i].lastTouched <= latest
  }

  /** What is left when every slot idle for longer than the limit is taken out, wherever it stands. */
  function Fresh(slots: seq<Slot>, now: nat, ttl: nat): seq<Slot> {
    if slots == [] then []
    else (if IdleTooLong(slots[0], now, ttl) then [] else [slots[0]]) + Fresh(slots[1..], now, ttl)
  }

  /** One sweep never drops a fresh slot, and what it leaves is idle for at most the limit plus the skew. */
  lemma SweepIsExactUpToSkew(table: Table, now: nat, ttl: nat, skew: nat)
    requires Skewed(table.slots, skew)
    ensures
      var n := IdlePrefix(table.slots, now, ttl);
      && Evicted(table, now, ttl).slots == table.slots[n..]
      && (forall i :: 0 <= i < n ==> IdleTooLong(table.slots[i], now, ttl))
      && (forall i :: n <= i < |table.slots| ==> SatSub(now, table.slots[i].lastTouched) <= ttl + skew)
  {
  }

  /** With synchronised callers a sweep leaves exactly the slots that are not idle for too long. */
  lemma SweepIsExact(table: Table, now: nat, ttl: nat)
    requires Skewed(table.slots, 0)
    ensures Evicted(table, now, ttl).slots == Fresh(table.slots, now, ttl)
  {
    FreshOfSorted(table.slots, now, ttl);
  }

  lemma {:induction false} FreshOfSorted(slots: seq<Slot>, now: nat, ttl: nat)
    requires Skewed(slots, 0)
    ensures Fresh(slots, now, ttl) == slots[IdlePrefix(slots, now, ttl)..]
  {
    if slots != [] {
      FreshOfSorted(slots[1..], now, ttl);
      if !IdleTooLong(slots[0], now, ttl) {
        assert |slots| > 1 ==> slots[0].lastTouched <= slots[1].lastTouched;
        assert Fresh(slots[1..], now, ttl) == slots[1..];
      }
    }
  }

  // ---------------------------------------------------------------- what every operation keeps

  /** The tick of an operation lags the latest tick of any operation so far by at most `skew`. */
  predicate InStep(op: Op, latest: nat, skew: nat) {
    op.Clear? || latest <= op.tick + skew
  }

  function Later(op: Op, latest: nat): nat {
    if op.Clear? then latest else Max(latest, op.tick)
  }

  ghost predicate Good(slots: seq<Slot>, capacity: nat, latest: nat, skew: nat) {
    Unique(slots) && |slots| <= capacity && Skewed(slots, skew) && NotBeyond(slots, latest)
  }

  lemma RenewedIsGood(
    slots: seq<Slot>, capacity: nat, latest: nat, skew: nat, at: nat, tick: nat)
    requires Good(slots, capacity, latest, skew) && at < |slots| && latest <= tick + skew
    ensures Good(Renewed(slots, at, tick), capacity, Max(latest, tick), skew)
    ensures Entries(Renewed(slots, at, tick)) == Entries(slots[..at]) + Entries(slots[at + 1..]) + [slots[at].entry]
  {
  }

  lemma TailIsGood(slots: seq<Slot>, capacity: nat, latest: nat, skew: nat, from: nat)
    requires Good(slots, capacity, latest, skew) && from <= |slots|
    ensures Good(slots[from..], capacity, latest, skew)
  {
  }

  lemma EvictedIsGood(
    table: Table, capacity: nat, latest: nat, skew: nat, now: nat, ttl: nat)
    requires Good(table.slots, capacity, latest, skew)
    ensures Good(Evicted(table, now, ttl).slots, capacity, latest, skew)
  {
    TailIsGood(table.slots, capacity, latest, skew, IdlePrefix(table.slots, now, ttl));
  }

  lemma WithoutIsUnique(slots: seq<Slot>, at: nat)
    requires Unique(slots) && at < |slots|
    ensures Unique(Without(slots, at))
  {
  }

  lemma WithoutIsGood(slots: seq<Slot>, capacity: nat, latest: nat, skew: nat, at: nat)
    requires Good(slots, capacity, latest, skew) && at < |slots|
    ensures Good(Without(slots, at), capacity, latest, skew)
  {
  }

  lemma RenewalKeepsGood(table: Table, l: Limits, at: nat, tick: nat, latest: nat, skew: nat)
    requires Good(table.slots, l.capacity, latest, skew) && at < |table.slots| && latest <= tick + skew
    ensures
      var renewed := table.(slots := Renewed(table.slots, at, tick));
      Good(Evicted(renewed, tick, l.ttl).slots, l.capacity, Max(latest, tick), skew)
  {
    RenewedIsGood(table.slots, l.capacity, latest, skew, at, tick);
    EvictedIsGood(table.(slots := Renewed(table.slots, at, tick)), l.capacity, Max(latest, tick), skew, tick, l.ttl);
  }

  lemma SweepKeepsGood(table: Table, l: Limits, tick: nat, latest: nat, skew: nat)
    requires Good(table.slots, l.capacity, latest, skew)
    ensures Good(Evicted(table, tick, l.ttl).slots, l.capacity, Max(latest, tick), skew)
  {
    EvictedIsGood(table, l.capacity, latest, skew, tick, l.ttl);
  }

  /** Capacity, one slot per subject, and recency order up to the callers' skew survive every operation. */
  lemma OpKeepsGood(table: Table, l: Limits, op: Op, latest: nat, skew: nat)
    requires l.capacity > 0 && Good(table.slots, l.capacity, latest, skew) && InStep(op, latest, skew)
    ensures Good(Do(table, l, op).slots, l.capacity, Later(op, latest), skew)
  {
    match op
    case GetOrInsert(subject, tick, created) =>
      var at := Find(table.slots, subject);
      if at < |table.slots| {
        RenewalKeepsGood(table, l, at, tick, latest, skew);
      } else {
        InsertKeepsGood(table, l, subject, tick, created, latest, skew);
      }
    case Touch(subject, tick, expected) =>
      var at := Find(table.slots, subject);
      if at < |table.slots| {
        RenewalKeepsGood(table, l, at, tick, latest, skew);
      }
      SweepKeepsGood(table, l, tick, latest, skew);
    case Update(_, tick) =>
      SweepKeepsGood(table, l, tick, latest, skew);
    case RemoveIf(subject, tick, _) =>
      SweepKeepsGood(table, l, tick, latest, skew);
      var swept := Evicted(table, tick, l.ttl);
      var at := Find(swept.slots, subject);
      if at < |swept.slots| { WithoutIsGood(swept.slots, l.capacity, Max(latest, tick), skew, at); }
    case Clear =>
  }

  /** Making room leaves a proper tail of the map, with room for one more. */
  lemma MadeRoomIsGood(table: Table, l: Limits, tick: nat, latest: nat, skew: nat) returns (from: nat)
    requires l.capacity > 0 && Good(table.slots, l.capacity, latest, skew)
    ensures from <= |table.slots| && MadeRoom(table, l, tick).slots == table.slots[from..]
    ensures Good(MadeRoom(table, l, tick).slots, l.capacity, latest, skew) && |MadeRoom(table, l, tick).slots| < l.capacity
  {
    from := IdlePrefix(table.slots, tick, l.ttl);
    if |table.slots| - from >= l.capacity {
      from := from + 1;
      assert MadeRoom(table, l, tick).slots == table.slots[from..];
    }
    TailIsGood(table.slots, l.capacity, latest, skew, from);
  }

  lemma InsertKeepsGood(
    table: Table, l: Limits, subject: Subject, tick: nat, created: EntryRef, latest: nat, skew: nat)
    requires l.capacity > 0 && Good(table.slots, l.capacity, latest, skew) && latest <= tick + skew
    requires !Holds(table.slots, subject)
    ensures Good(Inserted(table, l, subject, tick, created).slots, l.capacity, Max(latest, tick), skew)
  {
    var room, slot := MadeRoom(table, l, tick), Slot(subject, created, tick);
    var from := MadeRoomIsGood(table, l, tick, latest, skew);
    AppendIsGood(room.slots, l.capacity, latest, skew, slot);
    EvictedIsGood(room.(slots := room.slots + [slot]), l.capacity, Max(latest, tick), skew, tick, l.ttl);
  }

  lemma AppendIsGood(slots: seq<Slot>, capacity: nat, latest: nat, skew: nat, slot: Slot)
    requires Good(slots, capacity, latest, skew) && |slots| < capacity && latest <= slot.lastTouched + skew
    requires forall i :: 0 <= i < |slots| ==> slots[i].subject != slot.subject
    ensures Good(slots + [slot], capacity, Max(latest, slot.lastTouched), skew)
  {
  }

  // ---------------------------------------------------------------- conservation

  /** Everything the table has ever held: what it still holds and what it has invalidated. */
  ghost function Ever(table: Table): multiset<EntryRef> {
    multiset(Entries(table.slots)) + multiset(table.invalidated)
  }

  ghost function Created(table: Table, op: Op): multiset<EntryRef> {
    if op.GetOrInsert? && !Holds(table.slots, op.subject) then multiset{op.created} else multiset{}
  }

  lemma EntriesJoin(first: seq<Slot>, second: seq<Slot>)
    ensures Entries(first + second) == Entries(first) + Entries(second)
  {
  }

  lemma DroppedConserves(table: Table, n: nat)
    requires n <= |table.slots|
    ensures Ever(Dropped(table, n)) == Ever(table)
  {
    EntriesJoin(table.slots[..n], table.slots[n..]);
    assert table.slots[..n] + table.slots[n..] == table.slots;
  }

  lemma RenewedConserves(slots: seq<Slot>, at: nat, tick: nat)
    requires at < |slots|
    ensures multiset(Entries(Renewed(slots, at, tick))) == multiset(Entries(slots))
    ensures multiset(Entries(slots)) == multiset(Entries(Without(slots, at))) + multiset{slots[at].entry}
  {
    var first, second := slots[..at], slots[at + 1..];
    EntriesJoin(first, second);
    EntriesJoin(Without(slots, at), [slots[at].(lastTouched := Max(slots[at].lastTouched, tick))]);
    EntriesJoin(first, [slots[at]] + second);
    EntriesJoin([slots[at]], second);
    assert slots == first + ([slots[at]] + second);
    assert Entries([slots[at]]) == [slots[at].entry];
    assert Entries([slots[at].(lastTouched := Max(slots[at].lastTouched, tick))]) == [slots[at].entry];
  }

  lemma RenewalConserves(table: Table, l: Limits, at: nat, tick: nat)
    requires at < |table.slots|
    ensures Ever(Evicted(table.(slots := Renewed(table.slots, at, tick)), tick, l.ttl)) == Ever(table)
  {
    var renewed := table.(slots := Renewed(table.slots, at, tick));
    RenewedConserves(table.slots, at, tick);
    DroppedConserves(renewed, IdlePrefix(renewed.slots, tick, l.ttl));
  }

  lemma RemovalConserves(table: Table, at: nat)
    requires at < |table.slots|
    ensures
      var removed := table.(slots := Without(table.slots, at), invalidated := table.invalidated + [table.slots[at].entry]);
      Ever(removed) == Ever(table)
  {
    RenewedConserves(table.slots, at, 0);
  }

  lemma BackwardsConserves(entries: seq<EntryRef>)
    ensures multiset(Backwards(entries)) == multiset(entries)
  {
    if entries == [] {
      assert Backwards(entries) == [];
    } else {
      BackwardsConserves(entries[1..]);
      assert Backwards(entries) == Backwards(entries[1..]) + [entries[0]];
      assert entries == [entries[0]] + entries[1..];
    }
  }

  /** An operation invalidates exactly what it takes out of the map, once, and adds exactly what it creates. */
  lemma OpConserves(table: Table, l: Limits, op: Op)
    requires l.capacity > 0
    ensures Ever(Do(table, l, op)) == Ever(table) + Created(table, op)
  {
    match op
    case GetOrInsert(subject, tick, created) =>
      if Holds(table.slots, subject) {
        RenewalConserves(table, l, Find(table.slots, subject), tick);
      } else {
        InsertConserves(table, l, subject, tick, created);
      }
    case Touch(subject, tick, expected) =>
      DroppedConserves(table, IdlePrefix(table.slots, tick, l.ttl));
      if Holds(table.slots, subject) {
        RenewalConserves(table, l, Find(table.slots, subject), tick);
      }
    case Update(_, tick) => DroppedConserves(table, IdlePrefix(table.slots, tick, l.ttl));
    case RemoveIf(subject, tick, _) =>
      DroppedConserves(table, IdlePrefix(table.slots, tick, l.ttl));
      var swept := Evicted(table, tick, l.ttl);
      if Holds(swept.slots, subject) { RemovalConserves(swept, Find(swept.slots, subject)); }
    case Clear => BackwardsConserves(Entries(table.slots));
  }

  lemma AppendConserves(table: Table, slot: Slot)
    ensures Ever(table.(slots := table.slots + [slot])) == Ever(table) + multiset{slot.entry}
  {
    EntriesJoin(table.slots, [slot]);
    assert Entries([slot]) == [slot.entry];
  }

  lemma MadeRoomConserves(table: Table, l: Limits, tick: nat)
    requires l.capacity > 0
    ensures Ever(MadeRoom(table, l, tick)) == Ever(table)
  {
    var swept := Evicted(table, tick, l.ttl);
    DroppedConserves(table, IdlePrefix(table.slots, tick, l.ttl));
    if |swept.slots| >= l.capacity { DroppedConserves(swept, 1); }
  }

  lemma InsertConserves(table: Table, l: Limits, subject: Subject, tick: nat, created: EntryRef)
    requires l.capacity > 0
    ensures Ever(Inserted(table, l, subject, tick, created)) == Ever(table) + multiset{created}
  {
    var room, slot := MadeRoom(table, l, tick), Slot(subject, created, tick);
    var grown := room.(slots := room.slots + [slot]);
    MadeRoomConserves(table, l, tick);
    AppendConserves(room, slot);
    DroppedConserves(grown, IdlePrefix(grown.slots, tick, l.ttl));
    assert Inserted(table, l, subject, tick, created) == Evicted(grown, tick, l.ttl);
  }

  // ---------------------------------------------------------------- whole runs

  function DoAll(table: Table, l: Limits, ops: seq<Op>): Table
    requires l.capacity > 0
    decreases |ops|
  {
    if ops == [] then table else DoAll(Do(table, l, ops[0]), l, ops[1..])
  }

  predicate AllInStep(ops: seq<Op>, latest: nat, skew: nat)
    decreases |ops|
  {
    ops != [] ==> InStep(ops[0], latest, skew) && AllInStep(ops[1..], Later(ops[0], latest), skew)
  }

  ghost function CreatedBy(table: Table, l: Limits, ops: seq<Op>): multiset<EntryRef>
    requires l.capacity > 0
    decreases |ops|
  {
    if ops == [] then multiset{} else Created(table, ops[0]) + CreatedBy(Do(table, l, ops[0]), l, ops[1..])
  }

  function Empty(): Table {
    Table([], [], false)
  }

  /**
   After any operations on an empty map, whose callers' clocks lag by at most `skew`: it is within its
   capacity with one slot per subject, each sweep is exact up to that skew, and every entry ever inserted
   is either still in the map or has been invalidated once.
   */
  lemma RunsKeepTheMapGood(
    l: Limits, ops: seq<Op>, skew: nat, now: nat) returns (latest: nat)
    requires l.capacity > 0 && AllInStep(ops, 0, skew)
    ensures
      var table: Table := DoAll(Empty(), l, ops);
      && Good(table.slots, l.capacity, latest, skew)
      && Ever(table) == CreatedBy(Empty(), l, ops)
      && (forall i :: 0 <= i < |Evicted(table, now, l.ttl).slots| ==>
            SatSub(now, Evicted(table, now, l.ttl).slots[i].lastTouched) <= l.ttl + skew)
  {
    latest := RunKeeps(Empty(), l, ops, 0, skew);
    SweepIsExactUpToSkew(DoAll(Empty(), l, ops), now, l.ttl, skew);
  }

  lemma {:induction false} RunKeeps(
    table: Table, l: Limits, ops: seq<Op>, latest: nat, skew: nat) returns (last: nat)
    requires l.capacity > 0 && Good(table.slots, l.capacity, latest, skew) && AllInStep(ops, latest, skew)
    ensures Good(DoAll(table, l, ops).slots, l.capacity, last, skew)
    ensures Ever(DoAll(table, l, ops)) == Ever(table) + CreatedBy(table, l, ops)
    decreases |ops|
  {
    last := latest;
    if ops != [] {
      OpKeepsGood(table, l, ops[0], latest, skew);
      OpConserves(table, l, ops[0]);
      last := RunKeeps(Do(table, l, ops[0]), l, ops[1..], Later(ops[0], latest), skew);
    }
  }

  // ---------------------------------------------------------------- what a caller can rely on

  /** A slot touched at the sweep's own tick is the last the sweep could reach, and it is kept. */
  lemma LastSlotStays(table: Table, now: nat, ttl: nat)
    requires table.slots != [] && now <= table.slots[|table.slots| - 1].lastTouched
    ensures
      var after := Evicted(table, now, ttl).slots;
      after != [] && after[|after| - 1] == table.slots[|table.slots| - 1]
  {
  }

  /** A returned or renewed entry is not evicted by the call that returned it; it is the last to go. */
  lemma RenewedEntriesStay(table: Table, l: Limits, op: Op)
    requires l.capacity > 0 && Unique(table.slots) && (op.GetOrInsert? || op.Touch?)
    ensures
      var at, after := Find(table.slots, op.subject), Do(table, l, op);
      && (op.GetOrInsert? ==>
            && after.slots != []
            && after.slots[|after.slots| - 1].subject == op.subject
            && after.slots[|after.slots| - 1].entry == (if at < |table.slots| then table.slots[at].entry else op.created))
      && (op.Touch? && at < |table.slots| && table.slots[at].entry == op.expected ==>
            && after.slots != []
            && after.slots[|after.slots| - 1].subject == op.subject
            && after.slots[|after.slots| - 1].entry == op.expected)
  {
    var at := Find(table.slots, op.subject);
    if at < |table.slots| {
      LastSlotStays(table.(slots := Renewed(table.slots, at, op.tick)), op.tick, l.ttl);
    } else if op.GetOrInsert? {
      var room := MadeRoom(table, l, op.tick);
      LastSlotStays(room.(slots := room.slots + [Slot(op.subject, op.created, op.tick)]), op.tick, l.ttl);
    }
  }

  /** A watch update neither reorders slots nor renews any: it leaves the tail of the map as it was. */
  lemma UpdatesRenewNothing(table: Table, l: Limits, subject: Subject, tick: nat)
    requires l.capacity > 0
    ensures
      var after := Do(table, l, Op.Update(subject, tick));
      |after.slots| <= |table.slots| && after.slots == table.slots[|table.slots| - |after.slots|..]
  {
  }

  // ---------------------------------------------------------------- against a map of last touch times

  /** The map with its order forgotten. */
  ghost function View(slots: seq<Slot>): map<Subject, Slot> {
    if slots == [] then map[] else View(slots[1..])[slots[0].subject := slots[0]]
  }

  ghost function Keep(view: map<Subject, Slot>, now: nat, ttl: nat): map<Subject, Slot> {
    map s | s in view && SatSub(now, view[s].lastTouched) <= ttl :: view[s]
  }

  ghost function Touched(view: map<Subject, Slot>, subject: Subject, tick: nat): map<Subject, Slot>
    requires subject in view
  {
    view[subject := view[subject].(lastTouched := Max(view[subject].lastTouched, tick))]
  }

  ghost predicate LeastRecent(view: map<Subject, Slot>, victim: Subject) {
    victim in view && forall s :: s in view ==> view[victim].lastTouched <= view[s].lastTouched
  }

  /** What an operation means when a subject is known only by its entry and the time of its last touch. */
  ghost predicate SimpleStep(before: map<Subject, Slot>, after: map<Subject, Slot>, l: Limits, op: Op) {
    match op
    case GetOrInsert(subject, tick, created) =>
      if subject in before then after == Keep(Touched(before, subject, tick), tick, l.ttl)
      else
        var kept := Keep(before, tick, l.ttl);
        if |kept| < l.capacity then after == kept[subject := Slot(subject, created, tick)]
        else
          exists victim: Subject ::
            LeastRecent(kept, victim) && after == (kept - {victim})[subject := Slot(subject, created, tick)]
    case Touch(subject, tick, expected) =>
      if subject in before && before[subject].entry == expected then after == Keep(Touched(before, subject, tick), tick, l.ttl)
      else after == Keep(before, tick, l.ttl)
    case Update(_, tick) => after == Keep(before, tick, l.ttl)
    case RemoveIf(subject, tick, accepted) =>
      var kept := Keep(before, tick, l.ttl);
      after == if accepted then kept - {subject} else kept
    case Clear => after == map[]
  }

  lemma {:induction false} ViewIsFind(slots: seq<Slot>, subject: Subject)
    ensures Holds(slots, subject) <==> subject in View(slots)
    ensures subject in View(slots) ==> View(slots)[subject] == slots[Find(slots, subject)]
  {
    if slots != [] { ViewIsFind(slots[1..], subject); }
  }

  lemma FirstIsUnique(slots: seq<Slot>)
    requires slots != [] && Unique(slots)
    ensures Unique(slots[1..]) && slots[0].subject !in View(slots[1..])
  {
    ViewIsFind(slots[1..], slots[0].subject);
  }

  lemma {:induction false} ViewAppend(slots: seq<Slot>, slot: Slot)
    requires slot.subject !in View(slots)
    ensures View(slots + [slot]) == View(slots)[slot.subject := slot]
    ensures |View(slots + [slot])| == |View(slots)| + 1
  {
    if slots == [] {
      assert slots + [slot] == [slot] && View([slot][1..]) == map[];
    } else {
      ViewAppend(slots[1..], slot);
      assert (slots + [slot])[1..] == slots[1..] + [slot];
    }
  }

  lemma {:induction false} ViewSize(slots: seq<Slot>)
    requires Unique(slots)
    ensures |View(slots)| == |slots|
  {
    if slots != [] {
      FirstIsUnique(slots);
      ViewSize(slots[1..]);
    }
  }

  lemma AddThenRemove(view: map<Subject, Slot>, slot: Slot, subject: Subject)
    requires slot.subject != subject
    ensures view[slot.subject := slot] - {subject} == (view - {subject})[slot.subject := slot]
  {
  }

  lemma {:induction false} ViewWithout(slots: seq<Slot>, at: nat)
    requires Unique(slots) && at < |slots|
    ensures View(Without(slots, at)) == View(slots) - {slots[at].subject}
  {
    FirstIsUnique(slots);
    if at == 0 {
      assert Without(slots, 0) == slots[1..];
    } else {
      ViewWithout(slots[1..], at - 1);
      var left := Without(slots, at);
      assert left[0] == slots[0] && left[1..] == Without(slots[1..], at - 1);
      AddThenRemove(View(slots[1..]), slots[0], slots[at].subject);
    }
  }

  lemma ViewRenewed(slots: seq<Slot>, at: nat, tick: nat)
    requires Unique(slots) && at < |slots| && Find(slots, slots[at].subject) == at
    ensures slots[at].subject in View(slots)
    ensures View(Renewed(slots, at, tick)) == Touched(View(slots), slots[at].subject, tick)
  {
    ViewIsFind(slots, slots[at].subject);
    ViewWithout(slots, at);
    ViewAppend(Without(slots, at), slots[at].(lastTouched := Max(slots[at].lastTouched, tick)));
  }

  lemma KeepDropsIdle(view: map<Subject, Slot>, slot: Slot, now: nat, ttl: nat)
    requires slot.subject !in view && IdleTooLong(slot, now, ttl)
    ensures Keep(view[slot.subject := slot], now, ttl) == Keep(view, now, ttl)
  {
  }

  lemma {:induction false} ViewSweep(slots: seq<Slot>, now: nat, ttl: nat)
    requires Unique(slots) && Skewed(slots, 0)
    ensures View(slots[IdlePrefix(slots, now, ttl)..]) == Keep(View(slots), now, ttl)
  {
    if slots != [] {
      FirstIsUnique(slots);
      if IdleTooLong(slots[0], now, ttl) {
        ViewSweep(slots[1..], now, ttl);
        KeepDropsIdle(View(slots[1..]), slots[0], now, ttl);
        assert slots[IdlePrefix(slots, now, ttl)..] == slots[1..][IdlePrefix(slots[1..], now, ttl)..];
      } else {
        forall s | s in View(slots) ensures SatSub(now, View(slots)[s].lastTouched) <= ttl {
          ViewIsFind(slots, s);
        }
      }
    }
  }

  /**
   With synchronised callers the ordered map is the map of last touch times: a sweep keeps exactly the
   subjects touched recently enough, and only a full map gives up one that nobody has touched later.
   */
  lemma OrderedMapIsSimple(table: Table, l: Limits, op: Op, latest: nat)
    requires l.capacity > 0 && Good(table.slots, l.capacity, latest, 0) && InStep(op, latest, 0)
    ensures SimpleStep(View(table.slots), View(Do(table, l, op).slots), l, op)
  {
    match op
    case GetOrInsert(subject, tick, created) =>
      ViewIsFind(table.slots, subject);
      if Holds(table.slots, subject) {
        RenewalIsSimple(table, l, subject, tick, latest);
      } else {
        InsertIsSimple(table, l, subject, tick, created, latest);
      }
    case Touch(subject, tick, expected) =>
      ViewIsFind(table.slots, subject);
      if Holds(table.slots, subject) { RenewalIsSimple(table, l, subject, tick, latest); }
      ViewSweep(table.slots, tick, l.ttl);
    case Update(_, tick) =>
      ViewSweep(table.slots, tick, l.ttl);
    case RemoveIf(subject, tick, accepted) =>
      RemovalIsSimple(table, l, subject, tick, accepted, latest);
    case Clear =>
  }

  lemma RenewalIsSimple(table: Table, l: Limits, subject: Subject, tick: nat, latest: nat)
    requires Good(table.slots, l.capacity, latest, 0) && Holds(table.slots, subject) && latest <= tick
    ensures
      var after := Evicted(table.(slots := Renewed(table.slots, Find(table.slots, subject), tick)), tick, l.ttl);
      subject in View(table.slots) && View(after.slots) == Keep(Touched(View(table.slots), subject, tick), tick, l.ttl)
  {
    var at := Find(table.slots, subject);
    RenewedIsGood(table.slots, l.capacity, latest, 0, at, tick);
    ViewRenewed(table.slots, at, tick);
    ViewSweep(Renewed(table.slots, at, tick), tick, l.ttl);
  }

  lemma RemovalIsSimple(table: Table, l: Limits, subject: Subject, tick: nat, accepted: bool, latest: nat)
    requires l.capacity > 0 && Good(table.slots, l.capacity, latest, 0)
    ensures
      var kept := Keep(View(table.slots), tick, l.ttl);
      View(Do(table, l, RemoveIf(subject, tick, accepted)).slots) == if accepted then kept - {subject} else kept
  {
    ViewSweep(table.slots, tick, l.ttl);
    EvictedIsGood(table, l.capacity, latest, 0, tick, l.ttl);
    var swept := Evicted(table, tick, l.ttl).slots;
    ViewIsFind(swept, subject);
    if Holds(swept, subject) { ViewWithout(swept, Find(swept, subject)); }
  }

  lemma InsertIsSimple(table: Table, l: Limits, subject: Subject, tick: nat, created: EntryRef, latest: nat)
    requires l.capacity > 0 && Good(table.slots, l.capacity, latest, 0) && latest <= tick
    requires !Holds(table.slots, subject)
    ensures
      var after := Inserted(table, l, subject, tick, created);
      SimpleStep(View(table.slots), View(after.slots), l, GetOrInsert(subject, tick, created))
  {
    var swept, slot := Evicted(table, tick, l.ttl), Slot(subject, created, tick);
    ViewIsFind(table.slots, subject);
    EvictedIsGood(table, l.capacity, latest, 0, tick, l.ttl);
    ViewSweep(table.slots, tick, l.ttl);
    ViewSize(swept.slots);
    var room := MadeRoom(table, l, tick);
    if |swept.slots| >= l.capacity { FrontIsLeastRecent(swept.slots); }
    InsertedIsFresh(room, l, slot, tick, latest);
  }

  lemma FrontIsLeastRecent(slots: seq<Slot>)
    requires slots != [] && Unique(slots) && Skewed(slots, 0)
    ensures LeastRecent(View(slots), slots[0].subject) && View(slots[1..]) == View(slots) - {slots[0].subject}
  {
    FirstIsUnique(slots);
    forall s | s in View(slots) ensures slots[0].lastTouched <= View(slots)[s].lastTouched {
      ViewIsFind(slots, s);
    }
  }

  /** The sweep after an insertion finds nothing more to remove. */
  lemma InsertedIsFresh(room: Table, l: Limits, slot: Slot, tick: nat, latest: nat)
    requires Unique(room.slots) && !Holds(room.slots, slot.subject) && slot.lastTouched == tick
    requires forall i :: 0 <= i < |room.slots| ==> !IdleTooLong(room.slots[i], tick, l.ttl)
    ensures
      View(Evicted(room.(slots := room.slots + [slot]), tick, l.ttl).slots) == View(room.slots)[slot.subject := slot]
  {
    var grown := room.slots + [slot];
    assert !IdleTooLong(grown[0], tick, l.ttl);
    assert IdlePrefix(grown, tick, l.ttl) == 0;
    ViewIsFind(room.slots, slot.subject);
    ViewAppend(room.slots, slot);
  }

  lemma DropOneMore(table: Table, n: nat)
    requires n < |table.slots|
    ensures
      var dropped := Dropped(table, n);
      Dropped(table, n + 1) == Table(dropped.slots[1..], dropped.invalidated + [dropped.slots[0].entry], true)
  {
    assert table.slots[..n + 1] == table.slots[..n] + [table.slots[n]];
    EntriesJoin(table.slots[..n], [table.slots[n]]);
  }

  // ---------------------------------------------------------------- the mutable map

  /**
   The map as the gate runs it, one method per section of its lock. `invalidated` logs the entries it
   invalidates and `dirty` is the flag that asks for a new read snapshot.
   */
  class SubjectMap {
    const limits: Limits
    const epoch: nat
    var slots: seq<Slot>
    var invalidated: seq<EntryRef>
    var dirty: bool

    ghost predicate Valid()
      reads this
    {
      limits.capacity > 0 && |slots| <= limits.capacity && Unique(slots)
    }

    function Contents(): Table
      reads this
    {
      Table(slots, invalidated, dirty)
    }

    function TickAt(now: nat): nat {
      Min(SatSub(now, epoch), U64_MAX)
    }

    constructor (maxSubjects: nat, subjectTtl: nat, now: nat)
      requires maxSubjects > 0
      ensures Valid() && Contents() == Empty() && epoch == now
      ensures limits == Limits(maxSubjects, Min(subjectTtl, U64_MAX))
    {
      limits := Limits(maxSubjects, Min(subjectTtl, U64_MAX));
      epoch := now;
      slots, invalidated, dirty := [], [], false;
    }

    /** Pops from the least recently used end while its slot has been idle for too long. */
    method Evict(now: nat)
      requires Unique(slots)
      modifies this
      ensures Contents() == Evicted(old(Contents()), now, limits.ttl)
      ensures Unique(slots) && |slots| <= |old(slots)|
    {
      ghost var before, popped := Contents(), 0;
      while |slots| > 0 && IdleTooLong(slots[0], now, limits.ttl)
        invariant 0 <= popped <= IdlePrefix(before.slots, now, limits.ttl)
        invariant Contents() == Dropped(before, popped)
        decreases |slots|
      {
        DropOneMore(before, popped);
        invalidated, slots, dirty := invalidated + [slots[0].entry], slots[1..], true;
        popped := popped + 1;
      }
    }

    method GetOrInsertWith(subject: Subject, now: nat, created: EntryRef) returns (entry: EntryRef, inserted: bool)
      requires Valid()
      modifies this
      ensures Valid()
      ensures Contents() == Do(old(Contents()), limits, GetOrInsert(subject, TickAt(now), created))
      ensures inserted <==> !Holds(old(slots), subject)
      ensures entry == if inserted then created else old(slots[Find(slots, subject)].entry)
    {
      var tick, at := TickAt(now), Find(slots, subject);
      if at < |slots| {
        entry, inserted := slots[at].entry, false;
        slots := Renewed(slots, at, tick);
        Evict(tick);
        return;
      }
      Evict(tick);
      if |slots| == limits.capacity {
        invalidated, dirty := invalidated + [slots[0].entry], true;
        assert Entries(slots[..1]) == [slots[0].entry];
        slots := slots[1..];
      }
      slots := slots + [Slot(subject, created, tick)];
      Evict(tick);
      entry, inserted := created, true;
    }

    /** Renews the subject's slot if it still holds this very entry. */
    method Touch(subject: Subject, entry: EntryRef, now: nat) returns (matched: bool)
      requires Valid()
      modifies this
      ensures Valid()
      ensures Contents() == Do(old(Contents()), limits, Op.Touch(subject, TickAt(now), entry))
      ensures matched <==> Holds(old(slots), subject) && old(slots[Find(slots, subject)].entry) == entry
    {
      var tick, at := TickAt(now), Find(slots, subject);
      matched := at < |slots| && slots[at].entry == entry;
      if matched {
        slots := Renewed(slots, at, tick);
      }
      Evict(tick);
    }

    /** The entry a watch change is to be stored in, after the sweep. */
    method Update(subject: Subject, now: nat) returns (found: Option<EntryRef>)
      requires Valid()
      modifies this
      ensures Valid()
      ensures Contents() == Do(old(Contents()), limits, Op.Update(subject, TickAt(now)))
      ensures found == if Holds(slots, subject) then Some(slots[Find(slots, subject)].entry) else None
    {
      Evict(TickAt(now));
      var at := Find(slots, subject);
      found := if at < |slots| then Some(slots[at].entry) else None;
    }

    method RemoveIf(subject: Subject, now: nat, accepts: EntryRef -> bool) returns (removed: bool)
      requires Valid()
      modifies this
      ensures Valid()
      ensures
        var swept := Evicted(old(Contents()), TickAt(now), limits.ttl).slots;
        removed <==> Holds(swept, subject) && accepts(swept[Find(swept, subject)].entry)
      ensures Contents() == Do(old(Contents()), limits, Op.RemoveIf(subject, TickAt(now), removed))
    {
      Evict(TickAt(now));
      var at := Find(slots, subject);
      removed := at < |slots| && accepts(slots[at].entry);
      if removed {
        WithoutIsUnique(slots, at);
        invalidated, slots := invalidated + [slots[at].entry], Without(slots, at);
      }
    }

    /** Invalidates every entry, most recently used first, and empties the map. */
    method Clear()
      requires Valid()
      modifies this
      ensures Valid()
      ensures Contents() == Do(old(Contents()), limits, Op.Clear)
    {
      ghost var before := Contents();
      var left := |slots|;
      while left > 0
        invariant 0 <= left <= |slots| && slots == before.slots && dirty == before.dirty
        invariant invalidated == before.invalidated + Backwards(Entries(before.slots))[..|slots| - left]
      {
        left := left - 1;
        invalidated := invalidated + [slots[left].entry];
      }
      slots := [];
    }

    /** The copy a rebuild publishes. */
    method Copy() returns (copy: map<Subject, EntryRef>)
      requires Valid()
      ensures copy.Keys == View(slots).Keys
      ensures forall s :: s in copy ==> copy[s] == View(slots)[s].entry
    {
      copy := map[];
      var left := |slots|;
      while left > 0
        invariant 0 <= left <= |slots|
        invariant copy.Keys == View(slots[left..]).Keys
        invariant forall s :: s in copy ==> copy[s] == View(slots[left..])[s].entry
      {
        left := left - 1;
        copy := copy[slots[left].subject := slots[left].entry];
        assert slots[left..][1..] == slots[left + 1..];
      }
    }
  }
}
