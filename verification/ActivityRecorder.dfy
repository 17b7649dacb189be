/** The activity buffer of src/audit/activity.ts: events of one group are merged in memory and
    upserted when the buffer is flushed. */
module ActivityRecorder {
  import opened Numbers
  import opened Options

  const MAX_EVENT_BYTES: nat := 16 * 1_024
  const MAX_BUFFER_BYTES: nat := 4 * 1_024 * 1_024
  const HOUR: nat := 3_600_000
  const RETENTION: nat := 30 * 86_400_000
  const PRUNE_BATCH: nat := 500

  /** The aggregation key: the minute, and the digest of the other fields that a group shares. */
  datatype Key = Key(minute: nat, group: nat)

  /** `body` stands for the ids, the category and the details, which no merge touches. */
  datatype Event = Event(key: Option<Key>, body: nat, occurredAt: nat, first: nat, last: nat, duration: nat, count: nat)

  /** A row of activity_events; `first` is NULL in rows older than the column. */
  datatype Row = Row(key: Option<Key>, body: nat, occurredAt: nat, first: Option<nat>, last: nat, duration: nat, count: nat)

  /** A call of `record`: `valid` is the outcome of the tests on the other fields, `at` and `now`
      the given time and the clock, `bytes` the size of the event as JSON. */
  datatype Input = Input(valid: bool, at: Option<int>, now: nat, duration: Option<int>, count: Option<int>,
                         aggregate: bool, succeeded: bool, coreIds: nat, group: nat, body: nat, bytes: nat)

  /** Addition that stops at the largest safe integer. */
  function Add(a: nat, b: nat): nat {
    Min(MAX_SAFE, a + b)
  }

  predicate Nonnegative(value: Option<int>) {
    value.Some? ==> 0 <= value.value <= MAX_SAFE
  }

  function Given(value: Option<int>, otherwise: nat): int {
    if value.Some? then value.value else otherwise
  }

  /** createActivityEvent; None where it throws. */
  function CreateEvent(i: Input): (e: Option<Event>)
    ensures e.Some? ==> e.value.count == Weight(i) && e.value.count <= MAX_SAFE && e.value.duration <= MAX_SAFE
  {
    if !i.valid || !Nonnegative(i.at) || i.now > MAX_SAFE || !Nonnegative(i.duration) || !Nonnegative(i.count) then None else
    var at := Given(i.at, i.now);
    var key := if i.aggregate && i.succeeded && i.coreIds == 0 then Some(Key(at / 60_000, i.group)) else None;
    Some(Event(key, i.body, at, at, at, Given(i.duration, 0), Max(1, Given(i.count, 1))))
  }

  /** How many events a call stands for when it is dropped. */
  function Weight(i: Input): nat {
    var count := Given(i.count, 1);
    if 0 < count <= MAX_SAFE then count else 1
  }

  /* ---------------------------------------------------------------- upserts */

  function Inserted(e: Event): Row {
    Row(e.key, e.body, e.occurredAt, Some(e.first), e.last, e.duration, e.count)
  }

  function Upserted(r: Row, e: Event): Row {
    r.(first := Some(Min(if r.first.Some? then r.first.value else r.occurredAt, e.first)), last := Max(r.last, e.last),
       duration := Add(r.duration, e.duration), count := Add(r.count, e.count))
  }

  /** The position of the row of a key; the keys of a table are unique. */
  function Find(t: seq<Row>, key: Key): (k: nat)
    ensures k <= |t| && (k < |t| ==> t[k].key == Some(key))
    ensures forall i | 0 <= i < k :: t[i].key != Some(key)
  {
    if t == [] then 0 else
    if t[0].key == Some(key) then 0 else
    var k := Find(t[1..], key);
    assert forall i | 1 <= i < 1 + k :: t[i] == t[1..][i - 1];
    1 + k
  }

  /** persistActivityEvent. */
  function Persist(t: seq<Row>, e: Event): seq<Row> {
    if e.key.None? then t + [Inserted(e)] else
    var k := Find(t, e.key.value);
    if k < |t| then t[k := Upserted(t[k], e)] else t + [Inserted(e)]
  }

  function PersistAll(t: seq<Row>, es: seq<Event>): seq<Row> {
    if es == [] then t else Persist(PersistAll(t, es[..|es| - 1]), es[|es| - 1])
  }

  /** What `record` does to the event of the same group that is already in the buffer. */
  function Merged(was: Event, e: Event): Event {
    was.(first := Min(was.first, e.first), last := Max(was.last, e.last),
         count := Add(was.count, e.count), duration := Add(was.duration, e.duration))
  }

  /* ---------------------------------------------------------------- merging first is the same */

  /** Two upserts of a group are the upsert of the two merged: saturating addition is associative. */
  lemma UpsertMerged(t: seq<Row>, x: Event, e: Event)
    requires e.key.Some? && x.key == e.key
    ensures Persist(t, Merged(x, e)) == Persist(Persist(t, x), e)
  {
    var k := Find(t, e.key.value);
    if k < |t| {
      var once := t[k := Upserted(t[k], x)];
      FindIs(once, e.key.value, k);
      assert Upserted(t[k], Merged(x, e)) == Upserted(Upserted(t[k], x), e);
    } else {
      FindIs(t + [Inserted(x)], e.key.value, |t|);
      assert Inserted(Merged(x, e)) == Upserted(Inserted(x), e);
    }
  }

  lemma {:induction false} FindIs(t: seq<Row>, key: Key, k: nat)
    requires k <= |t| && (k < |t| ==> t[k].key == Some(key)) && forall i | 0 <= i < k :: t[i].key != Some(key)
    ensures Find(t, key) == k
  {
  }

  predicate Has(t: seq<Row>, key: Key) {
    Find(t, key) < |t|
  }

  /** An upsert of another group, or an insert, leaves the row of a group where it is. */
  lemma FindStays(t: seq<Row>, y: Event, key: Key)
    requires Has(t, key)
    ensures Has(Persist(t, y), key) && Find(Persist(t, y), key) == Find(t, key)
  {
    FindIs(Persist(t, y), key, Find(t, key));
  }

  lemma UpsertsCommute(t: seq<Row>, y: Event, e: Event)
    requires e.key.Some? && Has(t, e.key.value) && y.key != e.key
    ensures Persist(Persist(t, y), e) == Persist(Persist(t, e), y)
  {
    var k := Find(t, e.key.value);
    FindStays(t, y, e.key.value);
    var upserted := t[k := Upserted(t[k], e)];
    assert Persist(t, e) == upserted;
    if y.key.Some? {
      var j := Find(t, y.key.value);
      FindIs(upserted, y.key.value, j);
      if j < |t| {
        assert t[j := Upserted(t[j], y)][k := Upserted(t[k], e)] == upserted[j := Upserted(t[j], y)];
      } else {
        assert (t + [Inserted(y)])[k := Upserted(t[k], e)] == upserted + [Inserted(y)];
      }
    } else {
      assert (t + [Inserted(y)])[k := Upserted(t[k], e)] == upserted + [Inserted(y)];
    }
  }

  predicate OneOfKey(es: seq<Event>, i: nat) {
    i < |es| && es[i].key.Some? && forall j | 0 <= j < |es| && j != i :: es[j].key != es[i].key
  }

  lemma {:induction false} HasAfter(t: seq<Row>, es: seq<Event>, i: nat)
    requires i < |es| && es[i].key.Some?
    ensures Has(PersistAll(t, es), es[i].key.value)
  {
    var n := |es| - 1;
    var before := PersistAll(t, es[..n]);
    if i < n {
      HasAfter(t, es[..n], i);
      FindStays(before, es[n], es[i].key.value);
    } else {
      var key := es[n].key.value;
      var k := Find(before, key);
      FindIs(Persist(before, es[n]), key, k);
    }
  }

  /** Merging an event into the buffer and flushing later is flushing first and upserting it then. */
  lemma {:induction false} MergeInBuffer(t: seq<Row>, es: seq<Event>, i: nat, e: Event)
    requires OneOfKey(es, i) && e.key == es[i].key
    ensures PersistAll(t, es[i := Merged(es[i], e)]) == Persist(PersistAll(t, es), e)
  {
    var n := |es| - 1;
    var merged := es[i := Merged(es[i], e)];
    if i == n {
      assert merged[..n] == es[..n];
      UpsertMerged(PersistAll(t, es[..n]), es[n], e);
    } else {
      assert merged[..n] == es[..n][i := Merged(es[i], e)];
      MergeInBuffer(t, es[..n], i, e);
      HasAfter(t, es[..n], i);
      UpsertsCommute(PersistAll(t, es[..n]), es[n], e);
    }
  }

  /** The buffer after an accepted event. */
  function Buffered(es: seq<Event>, e: Event): seq<Event> {
    var k := Place(es, e.key);
    if k < |es| then es[k := Merged(es[k], e)] else es + [e]
  }

  /** The place of the group in the buffer, or the end of it. */
  function Place(es: seq<Event>, key: Option<Key>): (k: nat)
    ensures k <= |es| && (k < |es| ==> key.Some? && es[k].key == key)
    ensures forall i | 0 <= i < k :: key.None? || es[i].key != key
  {
    if es == [] then 0 else
    if key.Some? && es[0].key == key then 0 else
    var k := Place(es[1..], key);
    assert forall i | 1 <= i < 1 + k :: es[i] == es[1..][i - 1];
    1 + k
  }

  lemma {:induction false} PlaceIs(es: seq<Event>, key: Option<Key>, k: nat)
    requires k <= |es| && (k < |es| ==> key.Some? && es[k].key == key)
    requires forall i | 0 <= i < k :: key.None? || es[i].key != key
    ensures Place(es, key) == k
  {
  }

  predicate OneEach(es: seq<Event>) {
    forall i, j | 0 <= i < j < |es| && es[i].key.Some? :: es[i].key != es[j].key
  }

  lemma BufferedIsPersisted(t: seq<Row>, es: seq<Event>, e: Event)
    requires OneEach(es)
    ensures OneEach(Buffered(es, e)) && PersistAll(t, Buffered(es, e)) == Persist(PersistAll(t, es), e)
  {
    var k := Place(es, e.key);
    if k < |es| {
      MergeInBuffer(t, es, k, e);
    } else {
      assert (es + [e])[..|es|] == es;
    }
  }

  /* ---------------------------------------------------------------- pruning */

  /** The receipt of an imported event; one with a core event is never pruned. */
  datatype Receipt = Receipt(occurredAt: nat, core: bool)

  /** The age by which a row is pruned, None for one that is exempt. */
  function RowAge(r: Row): Option<nat> {
    Some(r.occurredAt)
  }

  function ReceiptAge(r: Receipt): Option<nat> {
    if r.core then None else Some(r.occurredAt)
  }

  predicate Expired<T>(x: T, age: T -> Option<nat>, cutoff: nat) {
    age(x).Some? && age(x).value < cutoff
  }

  predicate NoYounger<T>(x: T, y: T, age: T -> Option<nat>) {
    age(x).Some? && (age(y).Some? ==> age(x).value <= age(y).value)
  }

  /** The oldest row from before the cutoff, or the end of the table when there is none. */
  function Oldest<T>(t: seq<T>, age: T -> Option<nat>, cutoff: nat): (k: nat)
    ensures k <= |t|
    ensures k < |t| ==> Expired(t[k], age, cutoff) && forall j | 0 <= j < |t| :: NoYounger(t[k], t[j], age)
    ensures k == |t| ==> forall j | 0 <= j < |t| :: !Expired(t[j], age, cutoff)
  {
    if t == [] then 0 else
    var n := |t| - 1;
    assert forall j | 0 <= j < n :: t[j] == t[..n][j];
    var k := Oldest(t[..n], age, cutoff);
    if k < n && NoYounger(t[k], t[n], age) then k
    else if Expired(t[n], age, cutoff) then n
    else |t|
  }

  function Cutoff(now: nat): nat {
    if now < RETENTION then 0 else now - RETENTION
  }

  function PruneOf(prunes: bool, now: nat): Option<nat> {
    if prunes then Some(Cutoff(now)) else None
  }

  function Removed<T>(t: seq<T>, k: nat): seq<T>
    requires k < |t|
  {
    t[..k] + t[k + 1..]
  }

  /** Deletes up to `n` rows from before the cutoff, the oldest first. */
  function Pruned<T>(t: seq<T>, age: T -> Option<nat>, cutoff: nat, n: nat): seq<T> {
    var k := Oldest(t, age, cutoff);
    if n == 0 || k == |t| then t else Pruned(Removed(t, k), age, cutoff, n - 1)
  }

  lemma RemovedRows<T>(t: seq<T>, k: nat)
    requires k < |t|
    ensures forall r :: r in t <==> r in Removed(t, k) || r == t[k]
  {
    assert t == t[..k] + ([t[k]] + t[k + 1..]);
  }

  /** What a prune deletes is from before the cutoff, no younger than anything it keeps, and all
      there is unless it has used up its batch. */
  lemma {:induction false} PruneIsOldest<T>(t: seq<T>, age: T -> Option<nat>, cutoff: nat, n: nat)
    ensures var left := Pruned(t, age, cutoff, n);
            && |t| - n <= |left| <= |t| && (forall q | q in left :: q in t)
            && (forall r | r in t && r !in left :: Expired(r, age, cutoff) && forall q | q in left :: NoYounger(r, q, age))
            && (|left| > |t| - n ==> forall q | q in left :: !Expired(q, age, cutoff))
    decreases n
  {
    var k := Oldest(t, age, cutoff);
    if n > 0 && k < |t| {
      RemovedRows(t, k);
      PruneIsOldest(Removed(t, k), age, cutoff, n - 1);
    }
  }

  lemma PruneLeaves(t: seq<Row>, cutoff: nat)
    ensures var left := Pruned(t, RowAge, cutoff, PRUNE_BATCH);
            |t| - PRUNE_BATCH <= |left| && (|left| > |t| - PRUNE_BATCH ==> forall r | r in left :: r.occurredAt >= cutoff)
  {
    PruneIsOldest(t, RowAge, cutoff, PRUNE_BATCH);
    assert forall r: Row :: !Expired(r, RowAge, cutoff) ==> r.occurredAt >= cutoff;
  }

  /** A flush that commits may be followed by a prune of everything from before a cutoff. */
  datatype Step = Accept(event: Event) | Flushed(commits: bool, prune: Option<nat>)

  datatype Memory = Memory(table: seq<Row>, buffer: seq<Event>)

  function MaybePruned(t: seq<Row>, prune: Option<nat>): seq<Row> {
    if prune.Some? then Pruned(t, RowAge, prune.value, PRUNE_BATCH) else t
  }

  /** A flush that does not commit changes nothing. */
  function Next(m: Memory, s: Step): Memory {
    match s
    case Accept(e) => m.(buffer := Buffered(m.buffer, e))
    case Flushed(commits, prune) => if commits then Memory(MaybePruned(PersistAll(m.table, m.buffer), prune), []) else m
  }

  function Run(initial: seq<Row>, steps: seq<Step>): Memory {
    if steps == [] then Memory(initial, []) else Next(Run(initial, steps[..|steps| - 1]), steps[|steps| - 1])
  }

  /** The table of a recorder without a buffer, which persists every accepted event at once and alone. */
  function Alone(initial: seq<Row>, steps: seq<Step>): seq<Row> {
    if steps == [] then initial else
    var before := Alone(initial, steps[..|steps| - 1]);
    match steps[|steps| - 1]
    case Accept(e) => Persist(before, e)
    case Flushed(commits, prune) => if commits then MaybePruned(before, prune) else before
  }

  function Accepted(steps: seq<Step>): seq<Event> {
    if steps == [] then [] else
    Accepted(steps[..|steps| - 1]) + if steps[|steps| - 1].Accept? then [steps[|steps| - 1].event] else []
  }

  /** Over any accepted events and any mix of successful and failed flushes and prunes, flushing at the
      end leaves the table that persisting each event at once and alone would have left: the same
      rows, in the same order, with the same first and last time, duration and count. */
  lemma {:induction false} BufferRefines(initial: seq<Row>, steps: seq<Step>)
    ensures OneEach(Run(initial, steps).buffer)
    ensures PersistAll(Run(initial, steps).table, Run(initial, steps).buffer) == Alone(initial, steps)
  {
    if steps != [] {
      var rest, last := steps[..|steps| - 1], steps[|steps| - 1];
      BufferRefines(initial, rest);
      var m := Run(initial, rest);
      if last.Accept? {
        BufferedIsPersisted(m.table, m.buffer, last.event);
      }
    }
  }

  predicate NoPrunes(steps: seq<Step>) {
    forall i | 0 <= i < |steps| && steps[i].Flushed? :: steps[i].prune.None?
  }

  /** Without prunes that is the table of all accepted events. */
  lemma {:induction false} AloneIsAll(initial: seq<Row>, steps: seq<Step>)
    requires NoPrunes(steps)
    ensures Alone(initial, steps) == PersistAll(initial, Accepted(steps))
  {
    if steps != [] {
      var rest, last := steps[..|steps| - 1], steps[|steps| - 1];
      AloneIsAll(initial, rest);
      if last.Accept? {
        OneMore(initial, Accepted(rest), last.event);
      } else {
        assert Accepted(steps) == Accepted(rest);
      }
    }
  }

  lemma OneMore(t: seq<Row>, es: seq<Event>, e: Event)
    ensures PersistAll(t, es + [e]) == Persist(PersistAll(t, es), e)
  {
    assert (es + [e])[..|es|] == es;
  }

  /** The map that finds the event of a group agrees with the search for it. */
  ghost predicate Indexed(es: seq<Event>, m: map<Key, nat>) {
    forall key {:trigger Place(es, Some(key))} ::
      && (key in m <==> Place(es, Some(key)) < |es|)
      && (key in m ==> m[key] == Place(es, Some(key)))
  }

  function PlaceAfter(es: seq<Event>, e: Event, key: Key): nat {
    if Place(es, Some(key)) < |es| then Place(es, Some(key))
    else if e.key == Some(key) then |es|
    else if Place(es, e.key) < |es| then |es|
    else |es| + 1
  }

  lemma PlaceMoves(es: seq<Event>, e: Event, key: Key)
    ensures Place(Buffered(es, e), Some(key)) == PlaceAfter(es, e, key)
  {
    var after := Buffered(es, e);
    assert forall i | 0 <= i < |es| :: after[i].key == es[i].key;
    PlaceIs(after, Some(key), PlaceAfter(es, e, key));
  }

  lemma BufferedIndexed(es: seq<Event>, m: map<Key, nat>, e: Event)
    requires Indexed(es, m)
    ensures Indexed(Buffered(es, e), if e.key.Some? && Place(es, e.key) == |es| then m[e.key.value := |es|] else m)
  {
    var after := if e.key.Some? && Place(es, e.key) == |es| then m[e.key.value := |es|] else m;
    forall key {:trigger Place(Buffered(es, e), Some(key))}
      ensures key in after <==> Place(Buffered(es, e), Some(key)) < |Buffered(es, e)|
      ensures key in after ==> after[key] == Place(Buffered(es, e), Some(key))
    {
      PlaceMoves(es, e, key);
      assert key in m <==> Place(es, Some(key)) < |es|;
    }
  }

  lemma EmptyBuffer(t: seq<Row>)
    ensures OneEach([]) && Indexed([], map[]) && PersistAll(t, []) == t && Weights([]) == 0
  {
  }

  /* ---------------------------------------------------------------- counting */

  function Total(t: seq<Row>): nat {
    if t == [] then 0 else Total(t[..|t| - 1]) + t[|t| - 1].count
  }

  function Weights(es: seq<Event>): nat {
    if es == [] then 0 else Weights(es[..|es| - 1]) + es[|es| - 1].count
  }

  lemma {:induction false} TotalUpdate(t: seq<Row>, k: nat, r: Row)
    requires k < |t|
    ensures Total(t[k := r]) == Total(t) - t[k].count + r.count && t[k].count <= Total(t)
  {
    var n := |t| - 1;
    if k < n {
      assert t[k := r][..n] == t[..n][k := r];
      TotalUpdate(t[..n], k, r);
    } else {
      assert t[k := r][..n] == t[..n];
    }
  }

  lemma {:induction false} WeightsUpdate(es: seq<Event>, k: nat, e: Event)
    requires k < |es|
    ensures Weights(es[k := e]) == Weights(es) - es[k].count + e.count && es[k].count <= Weights(es)
  {
    var n := |es| - 1;
    if k < n {
      assert es[k := e][..n] == es[..n][k := e];
      WeightsUpdate(es[..n], k, e);
    } else {
      assert es[k := e][..n] == es[..n];
    }
  }

  lemma PersistTotal(t: seq<Row>, e: Event)
    ensures Total(t) + e.count <= MAX_SAFE ==> Total(Persist(t, e)) == Total(t) + e.count
  {
    if e.key.Some? && Has(t, e.key.value) {
      var k := Find(t, e.key.value);
      TotalUpdate(t, k, Upserted(t[k], e));
    } else {
      assert (t + [Inserted(e)])[..|t|] == t;
    }
  }

  lemma BufferedWeights(es: seq<Event>, e: Event)
    ensures Weights(Buffered(es, e)) <= Weights(es) + e.count
    ensures Weights(es) + e.count <= MAX_SAFE ==> Weights(Buffered(es, e)) == Weights(es) + e.count
  {
    var k := Place(es, e.key);
    if k < |es| {
      WeightsUpdate(es, k, Merged(es[k], e));
    } else {
      assert (es + [e])[..|es|] == es;
    }
  }

  /** Below saturation a flush adds to the table exactly what the buffer counted. */
  lemma {:induction false} FlushTotal(t: seq<Row>, es: seq<Event>)
    requires Total(t) + Weights(es) <= MAX_SAFE
    ensures Total(PersistAll(t, es)) == Total(t) + Weights(es)
  {
    if es != [] {
      FlushTotal(t, es[..|es| - 1]);
      PersistTotal(PersistAll(t, es[..|es| - 1]), es[|es| - 1]);
    }
  }

  lemma FlushAdds(t: seq<Row>, es: seq<Event>)
    ensures Total(t) + Weights(es) <= MAX_SAFE ==> Total(PersistAll(t, es)) == Total(t) + Weights(es)
  {
    if Total(t) + Weights(es) <= MAX_SAFE {
      FlushTotal(t, es);
    }
  }

  lemma {:induction false} TotalRemoved(t: seq<Row>, k: nat)
    requires k < |t|
    ensures Total(t) == Total(Removed(t, k)) + t[k].count
  {
    var n := |t| - 1;
    if k < n {
      assert Removed(t, k)[..n - 1] == Removed(t[..n], k);
      TotalRemoved(t[..n], k);
    } else {
      assert Removed(t, k) == t[..n];
    }
  }

  lemma {:induction false} PrunedTotal(t: seq<Row>, cutoff: nat, n: nat)
    ensures Total(Pruned(t, RowAge, cutoff, n)) <= Total(t)
    decreases n
  {
    var k := Oldest(t, RowAge, cutoff);
    if n > 0 && k < |t| {
      TotalRemoved(t, k);
      PrunedTotal(Removed(t, k), cutoff, n - 1);
    }
  }

  /** The weight that the prunes of a run have deleted. */
  function Deleted(initial: seq<Row>, steps: seq<Step>): int {
    if steps == [] then 0 else
    var rest, last := steps[..|steps| - 1], steps[|steps| - 1];
    var m := Run(initial, rest);
    var full := PersistAll(m.table, m.buffer);
    Deleted(initial, rest)
    + if last.Flushed? && last.commits then Total(full) - Total(MaybePruned(full, last.prune)) else 0
  }

  /** Over any run below saturation every accepted weight is in the table or in the buffer, or was
      deleted by a prune. */
  lemma {:induction false} RunConserves(initial: seq<Row>, steps: seq<Step>)
    requires Total(initial) + Weights(Accepted(steps)) <= MAX_SAFE
    ensures var m := Run(initial, steps);
      Total(m.table) + Weights(m.buffer) + Deleted(initial, steps) == Total(initial) + Weights(Accepted(steps))
    ensures Deleted(initial, steps) >= 0 && (NoPrunes(steps) ==> Deleted(initial, steps) == 0)
  {
    if steps != [] {
      var rest, last := steps[..|steps| - 1], steps[|steps| - 1];
      var m := Run(initial, rest);
      if last.Accept? {
        assert Accepted(steps)[..|Accepted(rest)|] == Accepted(rest);
        RunConserves(initial, rest);
        BufferedWeights(m.buffer, last.event);
      } else {
        assert Accepted(steps) == Accepted(rest);
        RunConserves(initial, rest);
        FlushTotal(m.table, m.buffer);
        if last.prune.Some? { PrunedTotal(PersistAll(m.table, m.buffer), last.prune.value, PRUNE_BATCH); }
      }
    }
  }

  /* ---------------------------------------------------------------- the recorder */

  datatype Code =
    | WriteFailed | StateUnavailable | RecorderStopped | BufferFull | EventInvalid | RetentionFailed | OfSpool(code: nat)

  /** A committed flush proves that the database can be written again. */
  function Recovered(code: Option<Code>): Option<Code> {
    if code == Some(WriteFailed) || code == Some(StateUnavailable) then None else code
  }

  /** The capture status row. */
  datatype Status = Status(dropped: nat, writeFailures: nat, lastFlushAt: Option<nat>, lastError: Option<Code>)

  class Recorder {
    var table: seq<Row>
    var receipts: seq<Receipt>
    var saved: Option<Status>
    var lastError: Option<Code>
    var buffer: seq<Event>
    /** The index in the buffer of the event that each group is merged into. */
    var aggregates: map<Key, nat>
    var bufferBytes: nat
    var dropped: nat
    var writeFailures: nat
    var lastFlushAt: Option<nat>
    var lastPrunedAt: Option<nat>
    var prunePending: bool
    var stopped: bool
    const maximumEvents: nat

    /** The table as it would be had every accepted event been persisted at once and alone. */
    ghost var reference: seq<Row>
    /** The weight of all calls, and of the events that flushes persisted. */
    ghost var offered: nat
    ghost var persisted: nat

    ghost predicate BufferOk()
      reads this`buffer, this`aggregates, this`bufferBytes
    {
      && OneEach(buffer) && Indexed(buffer, aggregates)
      && |buffer| <= maximumEvents && bufferBytes <= MAX_BUFFER_BYTES
    }

    ghost predicate CountsOk()
      reads this`buffer, this`persisted, this`dropped, this`offered
    {
      && persisted + Weights(buffer) + dropped <= offered
      && (offered <= MAX_SAFE ==> offered == persisted + Weights(buffer) + dropped)
    }

    /** What was saved was counted. */
    ghost predicate SavedOk()
      reads this`saved, this`dropped, this`writeFailures
    {
      saved.Some? ==> saved.value.dropped <= dropped && saved.value.writeFailures <= writeFailures
    }

    ghost predicate Valid()
      reads this
    {
      BufferOk() && CountsOk() && SavedOk() && reference == PersistAll(table, buffer)
    }

    /** A recorder goes on counting from the status that the last committed flush of the one before it saved. */
    constructor (rows: seq<Row>, receipts: seq<Receipt>, saved: Option<Status>, maximumEvents: nat)
      requires 1 <= maximumEvents <= 8_192
      ensures Valid() && table == rows == reference && buffer == [] && !stopped
      ensures dropped == offered == (if saved.Some? then saved.value.dropped else 0)
      ensures this.maximumEvents == maximumEvents && this.saved == saved && this.receipts == receipts
      ensures saved.Some? ==> lastError == saved.value.lastError && writeFailures == saved.value.writeFailures
    {
      var status := if saved.Some? then saved.value else Status(0, 0, None, None);
      this.receipts, this.saved, lastError := receipts, saved, status.lastError;
      this.maximumEvents := maximumEvents;
      table, buffer, aggregates, bufferBytes := rows, [], map[], 0;
      dropped, writeFailures, lastFlushAt, stopped := status.dropped, status.writeFailures, status.lastFlushAt, false;
      lastPrunedAt, prunePending := None, false;
      reference, offered, persisted := rows, status.dropped, 0;
    }

    method Drop(code: Code, weight: nat)
      requires Valid()
      modifies this`dropped, this`offered, this`lastError
      ensures Valid() && dropped == old(dropped) + weight && offered == old(offered) + weight && lastError == Some(code)
    {
      lastError := Some(code);
      dropped := dropped + weight;
      offered := offered + weight;
    }

    ghost method Count(e: Event)
      requires Valid()
      modifies this`reference, this`offered
      ensures reference == Persist(old(reference), e) == PersistAll(table, Buffered(buffer, e))
      ensures offered == old(offered) + e.count
      ensures persisted + Weights(Buffered(buffer, e)) + dropped <= offered
      ensures offered <= MAX_SAFE ==> offered == persisted + Weights(Buffered(buffer, e)) + dropped
      ensures OneEach(Buffered(buffer, e))
    {
      BufferedIsPersisted(table, buffer, e);
      BufferedWeights(buffer, e);
      reference := Persist(reference, e);
      offered := offered + e.count;
    }

    method Merge(e: Event)
      requires Valid() && e.key.Some? && e.key.value in aggregates
      modifies this`buffer, this`reference, this`offered
      ensures Valid() && buffer == Buffered(old(buffer), e)
      ensures offered == old(offered) + e.count && reference == Persist(old(reference), e)
    {
      BufferedIndexed(buffer, aggregates, e);
      var k := aggregates[e.key.value];
      assert k == Place(buffer, Some(e.key.value)) == Place(buffer, e.key);
      Count(e);
      buffer := buffer[k := Merged(buffer[k], e)];
    }

    method Append(e: Event, bytes: nat)
      requires Valid() && (e.key.Some? ==> e.key.value !in aggregates)
      requires |buffer| < maximumEvents && bufferBytes + bytes <= MAX_BUFFER_BYTES
      modifies this`buffer, this`aggregates, this`bufferBytes, this`reference, this`offered
      ensures Valid() && buffer == Buffered(old(buffer), e)
      ensures offered == old(offered) + e.count && reference == Persist(old(reference), e)
    {
      BufferedIndexed(buffer, aggregates, e);
      assert Place(buffer, e.key) == |buffer| by {
        assert e.key.Some? ==> Place(buffer, Some(e.key.value)) == |buffer|;
      }
      Count(e);
      buffer := buffer + [e];
      bufferBytes := bufferBytes + bytes;
      if e.key.Some? {
        aggregates := aggregates[e.key.value := |buffer| - 1];
      }
    }

    /** Accepts an event when its group, or the buffer, has room for it. */
    method Keep(e: Event, bytes: nat) returns (accepted: bool)
      requires Valid() && !stopped
      modifies this`buffer, this`aggregates, this`bufferBytes, this`reference, this`offered
      ensures accepted <==>
        || (e.key.Some? && e.key.value in old(aggregates))
        || (bytes <= MAX_EVENT_BYTES && |old(buffer)| < maximumEvents && old(bufferBytes) + bytes <= MAX_BUFFER_BYTES)
      ensures Valid() && offered == old(offered) + (if accepted then e.count else 0)
      ensures buffer == if accepted then Buffered(old(buffer), e) else old(buffer)
      ensures reference == if accepted then Persist(old(reference), e) else old(reference)
    {
      accepted := true;
      if e.key.Some? && e.key.value in aggregates {
        Merge(e);
      } else if bytes > MAX_EVENT_BYTES || |buffer| >= maximumEvents || bufferBytes + bytes > MAX_BUFFER_BYTES {
        accepted := false;
      } else {
        Append(e, bytes);
      }
    }

    /** Accepts a call exactly when it is valid and its group, or the buffer, has room for it. An
        accepted call counts as if it were persisted at once; a refused one is counted as dropped. */
    method Record(i: Input) returns (accepted: bool)
      requires Valid()
      modifies this
      ensures Valid() && table == old(table) && stopped == old(stopped) && persisted == old(persisted)
      ensures offered == old(offered) + Weight(i)
      ensures accepted <==>
        && !old(stopped) && CreateEvent(i).Some?
        && ((CreateEvent(i).value.key.Some? && CreateEvent(i).value.key.value in old(aggregates))
            || (i.bytes <= MAX_EVENT_BYTES && |old(buffer)| < maximumEvents && old(bufferBytes) + i.bytes <= MAX_BUFFER_BYTES))
      ensures accepted ==> buffer == Buffered(old(buffer), CreateEvent(i).value)
      ensures accepted ==> dropped == old(dropped) && reference == Persist(old(reference), CreateEvent(i).value)
      ensures !accepted ==> dropped == old(dropped) + Weight(i) && reference == old(reference) && buffer == old(buffer)
      ensures saved == old(saved) && writeFailures == old(writeFailures)
      ensures lastError == if accepted then old(lastError)
                           else Some(if stopped then RecorderStopped else if CreateEvent(i).None? then EventInvalid else BufferFull)
    {
      var code := if stopped then RecorderStopped else EventInvalid;
      if stopped || CreateEvent(i).None? {
        accepted := false;
      } else {
        accepted := Keep(CreateEvent(i).value, i.bytes);
        code := BufferFull;
      }
      if !accepted {
        Drop(code, Weight(i));
      }
    }

    /** The upserts of one flush. */
    method WriteBuffer() returns (written: seq<Row>)
      ensures written == PersistAll(table, buffer)
    {
      written := table;
      var k := 0;
      assert buffer[..0] == [];
      while k < |buffer|
        invariant k <= |buffer| && written == PersistAll(table, buffer[..k])
      {
        assert buffer[..k + 1][..k] == buffer[..k];
        written := Persist(written, buffer[k]);
        k := k + 1;
      }
      assert buffer[..k] == buffer;
    }

    /** The transaction of a flush has committed. */
    method Commit(now: nat)
      requires Valid()
      modifies this`table, this`buffer, this`aggregates, this`bufferBytes, this`persisted, this`lastFlushAt, this`lastError, this`saved
      ensures Valid() && table == reference && buffer == [] && lastFlushAt == Some(now)
      ensures persisted == old(persisted) + Weights(old(buffer)) && lastError == Recovered(old(lastError))
      ensures saved == Some(Status(dropped, writeFailures, Some(now), lastError))
      ensures Total(old(table)) + Weights(old(buffer)) <= MAX_SAFE ==> Total(table) == Total(old(table)) + Weights(old(buffer))
    {
      var written := WriteBuffer();
      FlushAdds(table, buffer);
      EmptyBuffer(written);
      persisted := persisted + Weights(buffer);
      table, buffer, aggregates, bufferBytes, lastFlushAt := written, [], map[], 0, Some(now);
      lastError := Recovered(lastError);
      saved := Some(Status(dropped, writeFailures, Some(now), lastError));
    }

    /** A transaction was rolled back. */
    method NoteFailure(code: Code)
      requires Valid()
      modifies this`writeFailures, this`lastError
      ensures Valid() && writeFailures == old(writeFailures) + 1 && lastError == Some(code)
    {
      writeFailures, lastError := writeFailures + 1, Some(code);
    }

    /** The rows that one of the statements of a prune leaves. */
    static method DeleteOldest<T>(t: seq<T>, age: T -> Option<nat>, cutoff: nat) returns (left: seq<T>)
      ensures left == Pruned(t, age, cutoff, PRUNE_BATCH)
    {
      left := t;
      var n := PRUNE_BATCH;
      while n > 0 && Oldest(left, age, cutoff) < |left|
        invariant Pruned(left, age, cutoff, n) == Pruned(t, age, cutoff, PRUNE_BATCH)
      {
        left := Removed(left, Oldest(left, age, cutoff));
        n := n - 1;
      }
    }

    /** One batch of the oldest expired rows goes; was it a full one? */
    method DeleteRows(cutoff: nat) returns (full: bool)
      requires Valid() && buffer == []
      modifies this`table, this`reference
      ensures Valid() && table == reference == Pruned(old(table), RowAge, cutoff, PRUNE_BATCH)
      ensures full <==> |table| == |old(table)| - PRUNE_BATCH
      ensures !full ==> forall r | r in table :: r.occurredAt >= cutoff
    {
      PruneLeaves(table, cutoff);
      var left := DeleteOldest(table, RowAge, cutoff);
      full := |left| + PRUNE_BATCH == |table|;
      EmptyBuffer(left);
      table, reference := left, left;
    }

    method DeleteReceipts(cutoff: nat)
      modifies this`receipts
      ensures receipts == Pruned(old(receipts), ReceiptAge, cutoff, PRUNE_BATCH)
    {
      receipts := DeleteOldest(receipts, ReceiptAge, cutoff);
    }

    /** prune, of an empty buffer: one batch of the oldest expired rows and one of the receipts in one
        transaction; more rows are pending when the batch was a full one. */
    method Prune(now: nat, commits: bool)
      requires Valid() && buffer == []
      modifies this`table, this`receipts, this`reference, this`lastPrunedAt, this`prunePending, this`lastError, this`writeFailures
      ensures Valid() && reference == table
      ensures table == if commits then Pruned(old(table), RowAge, Cutoff(now), PRUNE_BATCH) else old(table)
      ensures receipts == if commits then Pruned(old(receipts), ReceiptAge, Cutoff(now), PRUNE_BATCH) else old(receipts)
      ensures commits ==> lastPrunedAt == Some(now) && (prunePending <==> |table| == |old(table)| - PRUNE_BATCH)
      ensures commits && !prunePending ==> forall r | r in table :: r.occurredAt >= Cutoff(now)
      ensures !commits ==> lastPrunedAt == old(lastPrunedAt) && prunePending == old(prunePending)
      ensures writeFailures == old(writeFailures) + if commits then 0 else 1
      ensures lastError == if !commits then Some(RetentionFailed)
                           else if old(lastError) == Some(RetentionFailed) then None else old(lastError)
    {
      if commits {
        prunePending := DeleteRows(Cutoff(now));
        DeleteReceipts(Cutoff(now));
        lastPrunedAt := Some(now);
        if lastError == Some(RetentionFailed) { lastError := None; }
      } else {
        EmptyBuffer(table);
        NoteFailure(RetentionFailed);
      }
    }

    /** Expired rows were left, nothing was pruned yet, or an hour has passed. */
    predicate PruneDue(now: nat)
      reads this
    {
      prunePending || lastPrunedAt.None? || now - lastPrunedAt.value >= HOUR
    }

    /** flush: a write, and after one that commits a prune when it is due. */
    method Flush(now: nat, commits: bool, pruneAt: nat, prunes: bool)
      requires Valid()
      modifies this
      ensures Valid() && offered == old(offered) && dropped == old(dropped) && stopped == old(stopped)
      ensures commits ==> buffer == [] && lastFlushAt == Some(now) && persisted == old(persisted) + Weights(old(buffer))
      ensures commits ==> reference == table == MaybePruned(old(reference), PruneOf(old(PruneDue(now)) && prunes, pruneAt))
      ensures commits && !(old(PruneDue(now)) && prunes) && Total(old(table)) + Weights(old(buffer)) <= MAX_SAFE ==>
        Total(table) == Total(old(table)) + Weights(old(buffer))
      ensures commits && old(PruneDue(now)) && prunes && !prunePending ==> forall r | r in table :: r.occurredAt >= Cutoff(pruneAt)
      ensures !commits ==> table == old(table) && buffer == old(buffer) && persisted == old(persisted) && reference == old(reference)
      ensures !commits ==> writeFailures == old(writeFailures) + 1 && lastFlushAt == old(lastFlushAt) && lastError == Some(WriteFailed)
      ensures saved == if commits then Some(Status(dropped, old(writeFailures), Some(now), Recovered(old(lastError)))) else old(saved)
      ensures receipts == if commits && old(PruneDue(now)) && prunes
                          then Pruned(old(receipts), ReceiptAge, Cutoff(pruneAt), PRUNE_BATCH) else old(receipts)
      ensures commits ==> writeFailures == old(writeFailures) + if old(PruneDue(now)) && !prunes then 1 else 0
    {
      if commits {
        Commit(now);
        if PruneDue(now) { Prune(pruneAt, prunes); }
      } else {
        NoteFailure(WriteFailed);
      }
    }

    method Stop(now: nat, commits: bool, pruneAt: nat, prunes: bool)
      requires Valid()
      modifies this
      ensures Valid() && stopped && dropped == old(dropped)
      ensures commits ==> buffer == [] && table == MaybePruned(old(reference), PruneOf(old(PruneDue(now)) && prunes, pruneAt))
      ensures !commits ==> table == old(table) && reference == old(reference)
    {
      Flush(now, commits, pruneAt, prunes);
      stopped := true;
    }
  }
}
