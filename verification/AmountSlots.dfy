/** The amount slots of src/alipay-accounts/schema.ts: an amount of an account is lent to one
    order at a time, and the triggers decide which inserts and releases are allowed.

    A run is any sequence of the events below; an event that a trigger or a row check refuses
    leaves the tables as they were. */
module AmountSlots {
  import opened Options

  datatype Status = Open | Closed | Expired

  datatype Order = Order(account: nat, profile: nat, amount: nat, eligibleFrom: nat, expiresAt: nat,
                         cooldownSeconds: nat, status: Status, closedAt: Option<nat>)

  datatype Slot = Slot(order: nat, account: nat, profile: nat, amount: nat, generation: nat,
                       occupiedFrom: nat, releasedAt: Option<nat>, reason: Option<Status>)

  datatype Tables = Tables(orders: map<nat, Order>, slots: seq<Slot>)

  predicate SameAmount(a: Slot, b: Slot) {
    a.account == b.account && a.amount == b.amount
  }

  /** The row of the highest generation of the amount of `s`, or -1. */
  function Latest(slots: seq<Slot>, s: Slot): (k: int)
    ensures -1 <= k < |slots|
    ensures k >= 0 ==> SameAmount(slots[k], s)
  {
    if slots == [] then -1 else
    var n := |slots| - 1;
    var k := Latest(slots[..n], s);
    if SameAmount(slots[n], s) && (k < 0 || slots[k].generation <= slots[n].generation) then n else k
  }

  /** The end that the cooldown counts from. */
  function EndOf(o: Order): nat
    requires !o.status.Open? && o.closedAt.Some?
  {
    if o.status.Expired? then o.expiresAt else o.closedAt.value
  }

  /** The cooldown trigger. An order that has no end compares as NULL does: it guards nothing. */
  predicate CooledDown(orders: map<nat, Order>, previous: Slot, from: nat) {
    previous.order in orders && !orders[previous.order].status.Open? && orders[previous.order].closedAt.Some? ==>
      EndOf(orders[previous.order]) + orders[previous.order].cooldownSeconds * 1000 <= from
  }

  /** The insert triggers and the unique order. */
  predicate MayInsert(t: Tables, s: Slot) {
    && s.releasedAt.None? && s.reason.None? && s.generation >= 1
    && (forall k | 0 <= k < |t.slots| :: t.slots[k].order != s.order)
    && s.order in t.orders
    && (var o := t.orders[s.order];
        && o.profile == s.profile && o.amount == s.amount && o.account == s.account
        && o.eligibleFrom == s.occupiedFrom && o.status.Open?)
    && var k := Latest(t.slots, s);
       if k < 0 then s.generation == 1 else
       var p := t.slots[k];
       && s.generation == p.generation + 1
       && p.releasedAt.Some? && p.releasedAt.value <= s.occupiedFrom
       && CooledDown(t.orders, p, s.occupiedFrom)
  }

  /** The release trigger and the row checks. */
  predicate MayRelease(t: Tables, k: nat, at: nat, reason: Status) {
    && k < |t.slots| && t.slots[k].releasedAt.None? && !reason.Open? && t.slots[k].occupiedFrom <= at
    && t.slots[k].order in t.orders
    && t.orders[t.slots[k].order].status == reason && t.orders[t.slots[k].order].closedAt == Some(at)
  }

  /** An open order may end, within the row checks; an ended order keeps its status and times. */
  predicate MayEnd(t: Tables, id: nat, status: Status, at: nat) {
    && id in t.orders && t.orders[id].status.Open?
    && (status.Closed? ==> t.orders[id].eligibleFrom <= at < t.orders[id].expiresAt)
    && (status.Expired? ==> t.orders[id].expiresAt <= at)
    && !status.Open?
  }

  datatype Event =
    | AddOrder(id: nat, order: Order)
    | EndOrder(id: nat, status: Status, at: nat)
    | Insert(slot: Slot)
    | Release(k: nat, at: nat, reason: Status)

  predicate MayAdd(t: Tables, id: nat, o: Order) {
    id !in t.orders && o.status.Open? && o.closedAt.None? && o.eligibleFrom < o.expiresAt
  }

  function Ended(t: Tables, id: nat, status: Status, at: nat): Tables
    requires id in t.orders
  {
    t.(orders := t.orders[id := t.orders[id].(status := status, closedAt := Some(at))])
  }

  function Released(t: Tables, k: nat, at: nat, reason: Status): Tables
    requires k < |t.slots|
  {
    t.(slots := t.slots[k := t.slots[k].(releasedAt := Some(at), reason := Some(reason))])
  }

  function Next(t: Tables, e: Event): Tables {
    match e
    case AddOrder(id, o) => if MayAdd(t, id, o) then t.(orders := t.orders[id := o]) else t
    case EndOrder(id, status, at) => if MayEnd(t, id, status, at) then Ended(t, id, status, at) else t
    case Insert(s) => if MayInsert(t, s) then t.(slots := t.slots + [s]) else t
    case Release(k, at, reason) => if MayRelease(t, k, at, reason) then Released(t, k, at, reason) else t
  }

  function Run(events: seq<Event>): Tables {
    if events == [] then Tables(map[], []) else Next(Run(events[..|events| - 1]), events[|events| - 1])
  }

  /* ---------------------------------------------------------------- invariants of every run */

  predicate OrderOk(o: Order) {
    && o.eligibleFrom < o.expiresAt
    && (o.status.Open? <==> o.closedAt.None?)
    && (o.status.Closed? ==> o.eligibleFrom <= o.closedAt.value < o.expiresAt)
    && (o.status.Expired? ==> o.expiresAt <= o.closedAt.value)
  }

  predicate SlotOk(t: Tables, s: Slot) {
    && s.order in t.orders && t.orders[s.order].eligibleFrom == s.occupiedFrom
    && (s.releasedAt.Some? ==> s.occupiedFrom <= s.releasedAt.value && t.orders[s.order].closedAt == s.releasedAt)
  }

  predicate RowsOk(t: Tables) {
    && (forall id | id in t.orders :: OrderOk(t.orders[id]))
    && (forall k | 0 <= k < |t.slots| :: SlotOk(t, t.slots[k]))
  }

  /** The rows of the amount of `s`, in the order of insertion. */
  function RowsOf(slots: seq<Slot>, s: Slot): seq<Slot> {
    if slots == [] then [] else
    var n := |slots| - 1;
    RowsOf(slots[..n], s) + if SameAmount(slots[n], s) then [slots[n]] else []
  }

  /** How many rows the amount of `s` has. */
  function Count(slots: seq<Slot>, s: Slot): nat {
    if slots == [] then 0 else
    var n := |slots| - 1;
    Count(slots[..n], s) + if SameAmount(slots[n], s) then 1 else 0
  }

  /** The rows of each amount bear the generations 1, 2, ..., n in the order of insertion. */
  predicate Numbered(slots: seq<Slot>) {
    forall k {:trigger NumberedAt(slots, k)} | 0 <= k < |slots| :: NumberedAt(slots, k)
  }

  predicate NumberedAt(slots: seq<Slot>, k: nat)
    requires k < |slots|
  {
    slots[k].generation == Count(slots[..k], slots[k]) + 1
  }

  /** The earlier slot was released, and its order's cooldown was over, when the later began. */
  predicate Apart(t: Tables, a: Slot, b: Slot)
    requires RowsOk(t) && SlotOk(t, a)
  {
    && a.releasedAt.Some? && a.releasedAt.value <= b.occupiedFrom
    && EndOf(t.orders[a.order]) + t.orders[a.order].cooldownSeconds * 1000 <= b.occupiedFrom
  }

  predicate AllApart(t: Tables)
    requires RowsOk(t)
  {
    forall i, j {:trigger Apart(t, t.slots[i], t.slots[j])} | 0 <= i < j < |t.slots| && SameAmount(t.slots[i], t.slots[j]) ::
      Apart(t, t.slots[i], t.slots[j])
  }

  predicate Inv(t: Tables) {
    RowsOk(t) && Numbered(t.slots) && AllApart(t)
  }

  /** In a numbered table the highest generation is the last row of the amount, and counts them. */
  lemma {:induction false} LatestCounts(slots: seq<Slot>, s: Slot)
    requires Numbered(slots)
    ensures var k := Latest(slots, s); Count(slots, s) == if k < 0 then 0 else slots[k].generation
    ensures forall i | Latest(slots, s) < i < |slots| :: !SameAmount(slots[i], s)
  {
    if slots != [] {
      var n := |slots| - 1;
      var rest := slots[..n];
      forall k | 0 <= k < n ensures NumberedAt(rest, k) {
        assert NumberedAt(slots, k) && slots[..k] == rest[..k];
      }
      LatestCounts(rest, s);
      assert NumberedAt(slots, n);
      if SameAmount(slots[n], s) {
        SameCount(rest, slots[n], s);
      }
    }
  }

  lemma {:induction false} SameCount(slots: seq<Slot>, a: Slot, b: Slot)
    requires SameAmount(a, b)
    ensures Count(slots, a) == Count(slots, b) && Latest(slots, a) == Latest(slots, b)
  {
    if slots != [] {
      SameCount(slots[..|slots| - 1], a, b);
    }
  }

  lemma InsertApart(t: Tables, s: Slot, i: nat)
    requires Inv(t) && MayInsert(t, s) && i < |t.slots| && SameAmount(t.slots[i], s)
    ensures Apart(t, t.slots[i], s)
  {
    var k := Latest(t.slots, s);
    LatestCounts(t.slots, s);
    assert SlotOk(t, t.slots[k]) && SlotOk(t, t.slots[i]);
    if i < k {
      assert Apart(t, t.slots[i], t.slots[k]);
    } else {
      assert i == k;
      assert OrderOk(t.orders[t.slots[k].order]);
    }
  }

  lemma InsertKeepsInv(t: Tables, s: Slot)
    requires Inv(t) && MayInsert(t, s)
    ensures Inv(t.(slots := t.slots + [s]))
  {
    var u := t.(slots := t.slots + [s]);
    assert RowsOk(u) by {
      forall k | 0 <= k < |u.slots| ensures SlotOk(u, u.slots[k]) {
        assert k < |t.slots| ==> SlotOk(t, t.slots[k]);
      }
    }
    assert Numbered(u.slots) by {
      LatestCounts(t.slots, s);
      assert u.slots[..|t.slots|] == t.slots;
      forall k | 0 <= k < |u.slots| ensures NumberedAt(u.slots, k) {
        assert u.slots[..k] == t.slots[..k];
        assert k < |t.slots| ==> NumberedAt(t.slots, k);
      }
    }
    forall i, j | 0 <= i < j < |u.slots| && SameAmount(u.slots[i], u.slots[j]) ensures Apart(u, u.slots[i], u.slots[j]) {
      if j < |t.slots| {
        assert Apart(t, t.slots[i], t.slots[j]);
      } else {
        InsertApart(t, s, i);
      }
    }
  }

  /** The open order's end and the new order leave every released slot's order as it was. */
  lemma OrdersKeepInv(t: Tables, u: Tables)
    requires Inv(t) && u.slots == t.slots
    requires forall id | id in u.orders :: OrderOk(u.orders[id])
    requires forall id | id in t.orders :: id in u.orders && u.orders[id].eligibleFrom == t.orders[id].eligibleFrom
    requires forall id | id in t.orders && !t.orders[id].status.Open? :: u.orders[id] == t.orders[id]
    ensures Inv(u)
  {
    forall k | 0 <= k < |u.slots| ensures SlotOk(u, u.slots[k]) {
      assert SlotOk(t, t.slots[k]);
      assert OrderOk(t.orders[t.slots[k].order]);
    }
    forall i, j | 0 <= i < j < |u.slots| && SameAmount(u.slots[i], u.slots[j]) ensures Apart(u, u.slots[i], u.slots[j]) {
      assert Apart(t, t.slots[i], t.slots[j]);
      assert OrderOk(t.orders[t.slots[i].order]);
    }
  }

  lemma {:induction false} ReleasedCount(slots: seq<Slot>, k: nat, r: Slot, s: Slot)
    requires k < |slots| && SameAmount(r, slots[k])
    ensures Count(slots[k := r], s) == Count(slots, s)
  {
    var n := |slots| - 1;
    var after := slots[k := r];
    if k < n {
      assert after[..n] == slots[..n][k := r];
      ReleasedCount(slots[..n], k, r, s);
    } else {
      assert after[..n] == slots[..n];
    }
  }

  lemma ReleaseKeepsInv(t: Tables, k: nat, at: nat, reason: Status)
    requires Inv(t) && MayRelease(t, k, at, reason)
    ensures Inv(Released(t, k, at, reason))
  {
    var u := Released(t, k, at, reason);
    assert RowsOk(u) by {
      forall i | 0 <= i < |u.slots| ensures SlotOk(u, u.slots[i]) {
        assert SlotOk(t, t.slots[i]);
      }
    }
    forall i | 0 <= i < |u.slots| ensures NumberedAt(u.slots, i) {
      assert NumberedAt(t.slots, i);
      SameCount(u.slots[..i], u.slots[i], t.slots[i]);
      if k < i {
        assert u.slots[..i] == t.slots[..i][k := u.slots[k]];
        ReleasedCount(t.slots[..i], k, u.slots[k], t.slots[i]);
      } else {
        assert u.slots[..i] == t.slots[..i];
      }
    }
    forall i, j | 0 <= i < j < |u.slots| && SameAmount(u.slots[i], u.slots[j]) ensures Apart(u, u.slots[i], u.slots[j]) {
      assert Apart(t, t.slots[i], t.slots[j]);
    }
  }

  /** No event of any run breaks the invariant. */
  lemma {:induction false} RunKeepsInv(events: seq<Event>)
    ensures Inv(Run(events))
  {
    if events != [] {
      var t, e := Run(events[..|events| - 1]), events[|events| - 1];
      RunKeepsInv(events[..|events| - 1]);
      match e
      case AddOrder(id, o) => OrdersKeepInv(t, Next(t, e));
      case EndOrder(id, status, at) => OrdersKeepInv(t, Next(t, e));
      case Insert(s) => if MayInsert(t, s) { InsertKeepsInv(t, s); }
      case Release(k, at, reason) => if MayRelease(t, k, at, reason) { ReleaseKeepsInv(t, k, at, reason); }
    }
  }

  /* ---------------------------------------------------------------- the integrity query */

  /** The query over one amount's rows ordered by generation: every row is compared with the
      row before it. */
  ghost predicate QueryClean(rows: seq<Slot>) {
    && (|rows| > 0 ==> rows[0].generation == 1)
    && forall i, j | 0 <= i < j < |rows| && j == i + 1 :: Follows(rows[i], rows[j])
  }

  predicate Follows(a: Slot, b: Slot) {
    b.generation == a.generation + 1 && a.releasedAt.Some? && a.releasedAt.value <= b.occupiedFrom
  }

  /** What the query is for: generations 1..n, and an earlier slot over before any later one. */
  predicate History(rows: seq<Slot>) {
    && (forall i | 0 <= i < |rows| :: rows[i].generation == i + 1)
    && (forall i, j | 0 <= i < j < |rows| :: rows[i].releasedAt.Some? && rows[i].releasedAt.value <= rows[j].occupiedFrom)
  }

  predicate ReleaseChecked(rows: seq<Slot>) {
    forall i | 0 <= i < |rows| && rows[i].releasedAt.Some? :: rows[i].occupiedFrom <= rows[i].releasedAt.value
  }

  lemma {:induction false} CleanIsHistory(rows: seq<Slot>, n: nat)
    requires ReleaseChecked(rows) && QueryClean(rows) && n <= |rows|
    ensures History(rows[..n])
  {
    if n > 1 {
      var m := n - 1;
      CleanIsHistory(rows, m);
      assert Follows(rows[m - 1], rows[m]);
      assert rows[..m][m - 1] == rows[m - 1];
      forall i | 0 <= i < m ensures rows[i].releasedAt.Some? && rows[i].releasedAt.value <= rows[m].occupiedFrom {
        assert rows[..m][i] == rows[i];
        assert i < m - 1 ==> rows[..m][i].releasedAt.value <= rows[..m][m - 1].occupiedFrom;
      }
      forall i, j | 0 <= i < j < n ensures rows[i].releasedAt.Some? && rows[i].releasedAt.value <= rows[j].occupiedFrom {
        assert j < m ==> rows[..m][i] == rows[i] && rows[..m][j] == rows[j];
      }
      forall i | 0 <= i < n ensures rows[i].generation == i + 1 {
        assert i < m ==> rows[..m][i] == rows[i];
      }
    }
  }

  /** Comparing neighbours is enough: a clean answer speaks of every pair, and of nothing more. */
  lemma QueryExact(rows: seq<Slot>)
    requires ReleaseChecked(rows)
    ensures QueryClean(rows) <==> History(rows)
  {
    if QueryClean(rows) {
      CleanIsHistory(rows, |rows|);
      assert rows[..|rows|] == rows;
    }
  }

  predicate Stored(slots: seq<Slot>, n: nat, r: Slot, s: Slot)
    requires n <= |slots|
  {
    exists i :: 0 <= i < n && slots[i] == r && SameAmount(r, s)
  }

  lemma {:induction false} RowsAreStored(slots: seq<Slot>, n: nat, s: Slot)
    requires n <= |slots|
    ensures |RowsOf(slots[..n], s)| == Count(slots[..n], s)
    ensures forall r | r in RowsOf(slots[..n], s) :: Stored(slots, n, r, s)
  {
    if n > 0 {
      assert slots[..n][..n - 1] == slots[..n - 1];
      RowsAreStored(slots, n - 1, s);
      forall r | r in RowsOf(slots[..n], s) ensures Stored(slots, n, r, s) {
        assert r in RowsOf(slots[..n - 1], s) ==> Stored(slots, n - 1, r, s);
      }
    }
  }

  lemma StoredIsApart(t: Tables, n: nat, r: Slot, s: Slot)
    requires Inv(t) && n < |t.slots| && Stored(t.slots, n, r, s) && SameAmount(t.slots[n], s)
    ensures r.releasedAt.Some? && r.releasedAt.value <= t.slots[n].occupiedFrom
  {
    var i :| 0 <= i < n && t.slots[i] == r && SameAmount(r, s);
    assert Apart(t, t.slots[i], t.slots[n]);
  }

  lemma {:induction false} RowsAreHistory(t: Tables, n: nat, s: Slot)
    requires Inv(t) && n <= |t.slots|
    ensures History(RowsOf(t.slots[..n], s))
  {
    if n > 0 {
      var m := n - 1;
      var rest := RowsOf(t.slots[..m], s);
      assert t.slots[..n][..m] == t.slots[..m];
      RowsAreHistory(t, m, s);
      RowsAreStored(t.slots, m, s);
      if SameAmount(t.slots[m], s) {
        SameCount(t.slots[..m], t.slots[m], s);
        assert NumberedAt(t.slots, m);
        forall r | r in rest ensures r.releasedAt.Some? && r.releasedAt.value <= t.slots[m].occupiedFrom {
          StoredIsApart(t, m, r, s);
        }
        ExtendHistory(rest, t.slots[m]);
        assert RowsOf(t.slots[..n], s) == rest + [t.slots[m]];
      } else {
        assert RowsOf(t.slots[..n], s) == rest;
      }
    }
  }

  lemma ExtendHistory(rest: seq<Slot>, last: Slot)
    requires History(rest) && last.generation == |rest| + 1
    requires forall r | r in rest :: r.releasedAt.Some? && r.releasedAt.value <= last.occupiedFrom
    ensures History(rest + [last])
  {
  }

  /** The query never reports a table that the triggers let through. */
  lemma RunsPassQuery(events: seq<Event>, s: Slot)
    ensures QueryClean(RowsOf(Run(events).slots, s))
  {
    var t := Run(events);
    RunKeepsInv(events);
    assert t.slots[..|t.slots|] == t.slots;
    RowsAreHistory(t, |t.slots|, s);
    HistoryIsClean(RowsOf(t.slots, s));
  }

  lemma NoSlotYet(t: Tables, id: nat)
    requires Inv(t) && id !in t.orders
    ensures forall k | 0 <= k < |t.slots| :: t.slots[k].order != id
  {
    forall k | 0 <= k < |t.slots| ensures t.slots[k].order != id {
      assert SlotOk(t, t.slots[k]);
    }
  }

  lemma HistoryIsClean(rows: seq<Slot>)
    requires History(rows)
    ensures QueryClean(rows)
  {
    forall i, j | 0 <= i < j < |rows| && j == i + 1 ensures Follows(rows[i], rows[j]) {
    }
  }

  /* ---------------------------------------------------------------- attribution of credits */

  /** The time test of a reconciliation candidate: `at` was cut to a multiple of `precision`. */
  predicate Fits(t: Tables, s: Slot, at: nat, precision: nat) {
    && s.order in t.orders
    && at + precision > t.orders[s.order].eligibleFrom && at + precision > s.occupiedFrom
    && at < t.orders[s.order].expiresAt
    && (s.releasedAt.Some? ==> at < s.releasedAt.value)
  }

  ghost predicate AtMostOneFits(t: Tables, precision: nat) {
    forall i, j, at: nat | 0 <= i < j < |t.slots| && SameAmount(t.slots[i], t.slots[j]) ::
      !(Fits(t, t.slots[i], at, precision) && Fits(t, t.slots[j], at, precision))
  }

  predicate CooldownsAtLeast(t: Tables, seconds: nat) {
    forall id | id in t.orders :: seconds <= t.orders[id].cooldownSeconds
  }

  /** A credit is attributed to at most one slot of its amount, whatever their generations. */
  lemma UniqueAttribution(events: seq<Event>, seconds: nat, precision: nat)
    requires CooldownsAtLeast(Run(events), seconds) && precision <= 1000 * seconds + 1
    ensures AtMostOneFits(Run(events), precision)
  {
    var t := Run(events);
    RunKeepsInv(events);
    forall i, j, at: nat | 0 <= i < j < |t.slots| && SameAmount(t.slots[i], t.slots[j])
      ensures !(Fits(t, t.slots[i], at, precision) && Fits(t, t.slots[j], at, precision))
    {
      assert Apart(t, t.slots[i], t.slots[j]);
      var o := t.orders[t.slots[i].order];
      assert OrderOk(o);
      assert EndOf(o) + 1000 * seconds <= t.slots[j].occupiedFrom;
    }
  }

  ghost predicate AlwaysUnique(seconds: nat, precision: nat) {
    forall events :: CooldownsAtLeast(Run(events), seconds) ==> AtMostOneFits(Run(events), precision)
  }

  /** Two orders of one amount, the second as early as the cooldown of the first allows. */
  function TightRun(seconds: nat): seq<Event> {
    var from := 1 + seconds * 1000;
    [AddOrder(0, Order(0, 0, 2, 0, 2, seconds, Open, None)),
     Insert(Slot(0, 0, 0, 2, 1, 0, None, None)),
     EndOrder(0, Closed, 1),
     Release(0, 1, Closed),
     AddOrder(1, Order(0, 0, 2, from, from + 1, seconds, Open, None)),
     Insert(Slot(1, 0, 0, 2, 2, from, None, None))]
  }

  lemma RunStep(events: seq<Event>, e: Event)
    ensures Run(events + [e]) == Next(Run(events), e)
  {
    assert (events + [e])[..|events|] == events;
  }

  lemma TightTables(seconds: nat)
    ensures var from := 1 + seconds * 1000;
      Run(TightRun(seconds)) ==
      Tables(map[0 := Order(0, 0, 2, 0, 2, seconds, Closed, Some(1)),
                 1 := Order(0, 0, 2, from, from + 1, seconds, Open, None)],
             [Slot(0, 0, 0, 2, 1, 0, Some(1), Some(Closed)), Slot(1, 0, 0, 2, 2, from, None, None)])
  {
    var es := TightRun(seconds);
    var first := Slot(0, 0, 0, 2, 1, 0, None, None);
    var done := Slot(0, 0, 0, 2, 1, 0, Some(1), Some(Closed));
    RunStep([], es[0]);
    RunStep([es[0]], es[1]);
    assert Run([es[0], es[1]]).slots == [first] by { assert [es[0]] + [es[1]] == [es[0], es[1]]; }
    RunStep([es[0], es[1]], es[2]);
    assert [es[0], es[1]] + [es[2]] == es[..3];
    RunStep(es[..3], es[3]);
    assert es[..3] + [es[3]] == es[..4];
    assert Run(es[..4]).slots == [done];
    RunStep(es[..4], es[4]);
    assert es[..4] + [es[4]] == es[..5];
    assert Latest([done], es[5].slot) == 0 by { assert [done][..0] == []; }
    RunStep(es[..5], es[5]);
    assert es[..5] + [es[5]] == es;
  }

  /** The bound is sharp: with cooldowns of `seconds`, every run attributes every credit to at
      most one slot exactly when the precision is at most 1000 * seconds + 1 milliseconds. */
  lemma UniqueExactly(seconds: nat, precision: nat)
    ensures AlwaysUnique(seconds, precision) <==> precision <= 1000 * seconds + 1
  {
    if precision <= 1000 * seconds + 1 {
      forall events | CooldownsAtLeast(Run(events), seconds) ensures AtMostOneFits(Run(events), precision) {
        UniqueAttribution(events, seconds, precision);
      }
    } else {
      var t := Run(TightRun(seconds));
      TightTables(seconds);
      assert Fits(t, t.slots[0], 0, precision) && Fits(t, t.slots[1], 0, precision);
      assert SameAmount(t.slots[0], t.slots[1]);
      assert !AtMostOneFits(t, precision);
      assert CooldownsAtLeast(t, seconds);
    }
  }

  /* ---------------------------------------------------------------- the tables as they are written */

  function FirstSlot(id: nat, o: Order): Slot {
    Slot(id, o.account, o.profile, o.amount, 1, o.eligibleFrom, None, None)
  }

  /** The slot `r` and its cooldown are over at `from`. */
  predicate Over(t: Tables, r: Slot, from: nat) {
    r.releasedAt.Some? && r.releasedAt.value <= from && CooledDown(t.orders, r, from)
  }

  predicate AmountFree(t: Tables, s: Slot) {
    forall k {:trigger Over(t, t.slots[k], s.occupiedFrom)} | 0 <= k < |t.slots| && SameAmount(t.slots[k], s) ::
      Over(t, t.slots[k], s.occupiedFrom)
  }

  lemma EarlierIsOver(t: Tables, i: nat, k: nat, from: nat)
    requires Inv(t) && i < k < |t.slots| && SameAmount(t.slots[i], t.slots[k]) && Over(t, t.slots[k], from)
    ensures Over(t, t.slots[i], from)
  {
    assert Apart(t, t.slots[i], t.slots[k]);
    assert SlotOk(t, t.slots[k]);
  }

  /** The triggers look at the latest slot only, and that decides for all of them. */
  lemma FreeByLatest(t: Tables, s: Slot)
    requires Inv(t)
    ensures var k := Latest(t.slots, s);
      AmountFree(t, s) <==> (k >= 0 ==> Over(t, t.slots[k], s.occupiedFrom))
  {
    var k := Latest(t.slots, s);
    LatestCounts(t.slots, s);
    if k >= 0 && Over(t, t.slots[k], s.occupiedFrom) {
      forall i | 0 <= i < |t.slots| && SameAmount(t.slots[i], s) ensures Over(t, t.slots[i], s.occupiedFrom) {
        if i < k {
          EarlierIsOver(t, i, k, s.occupiedFrom);
        }
      }
    }
  }

  /** The tables after an order and the next slot of its amount were inserted. */
  function WithOrder(t: Tables, id: nat, o: Order): Tables {
    var first := FirstSlot(id, o);
    Tables(t.orders[id := o], t.slots + [first.(generation := Count(t.slots, first) + 1)])
  }

  /** The same slot as the code computes it, from the latest row. */
  function NextSlot(t: Tables, id: nat, o: Order): Slot {
    var k := Latest(t.slots, FirstSlot(id, o));
    FirstSlot(id, o).(generation := if k < 0 then 1 else t.slots[k].generation + 1)
  }

  lemma NextSlotCounts(t: Tables, id: nat, o: Order)
    requires Numbered(t.slots)
    ensures NextSlot(t, id, o) == FirstSlot(id, o).(generation := Count(t.slots, FirstSlot(id, o)) + 1)
    ensures Latest(t.slots, NextSlot(t, id, o)) == Latest(t.slots, FirstSlot(id, o))
  {
    LatestCounts(t.slots, FirstSlot(id, o));
    SameCount(t.slots, FirstSlot(id, o), NextSlot(t, id, o));
  }

  /** The order and its slot pass every trigger when inserted in one transaction. */
  lemma WithOrderFits(t: Tables, id: nat, o: Order)
    requires Inv(t) && MayAdd(t, id, o) && AmountFree(t, FirstSlot(id, o))
    ensures WithOrder(t, id, o) == Tables(t.orders[id := o], t.slots + [NextSlot(t, id, o)])
    ensures WithOrder(t, id, o) == Next(Next(t, AddOrder(id, o)), Insert(NextSlot(t, id, o)))
    ensures Inv(WithOrder(t, id, o))
  {
    var s := NextSlot(t, id, o);
    var added := Next(t, AddOrder(id, o));
    NextSlotCounts(t, id, o);
    OrdersKeepInv(t, added);
    assert MayInsert(added, s) by {
      NoSlotYet(t, id);
      var k := Latest(t.slots, s);
      assert k >= 0 ==> SlotOk(t, t.slots[k]) && Over(t, t.slots[k], FirstSlot(id, o).occupiedFrom);
    }
    InsertKeepsInv(added, s);
  }

  /** The row of an order, or -1. */
  function SlotOf(slots: seq<Slot>, id: nat): (k: int)
    ensures -1 <= k < |slots| && (k >= 0 ==> slots[k].order == id)
  {
    if slots == [] then -1 else
    var n := |slots| - 1;
    if slots[n].order == id then n else SlotOf(slots[..n], id)
  }

  /** Ending an order lets its slot pass the release trigger. */
  lemma EndFits(t: Tables, id: nat, status: Status, at: nat)
    requires Inv(t) && MayEnd(t, id, status, at) && SlotOf(t.slots, id) >= 0
    ensures MayRelease(Ended(t, id, status, at), SlotOf(t.slots, id), at, status)
    ensures Inv(Released(Ended(t, id, status, at), SlotOf(t.slots, id), at, status))
  {
    var k := SlotOf(t.slots, id);
    assert SlotOk(t, t.slots[k]) && OrderOk(t.orders[id]);
    OrdersKeepInv(t, Ended(t, id, status, at));
    ReleaseKeepsInv(Ended(t, id, status, at), k, at, status);
  }

  class Store {
    var orders: map<nat, Order>
    var slots: seq<Slot>

    ghost function View(): Tables
      reads this
    {
      Tables(orders, slots)
    }

    constructor ()
      ensures View() == Run([])
    {
      orders, slots := map[], [];
    }

    /** SELECT MAX(generation) over the rows of one amount. */
    method FindLatest(s: Slot) returns (k: int)
      ensures k == Latest(slots, s)
    {
      k := -1;
      var i := 0;
      while i < |slots|
        invariant i <= |slots| && k == Latest(slots[..i], s)
      {
        assert slots[..i + 1][..i] == slots[..i];
        if SameAmount(slots[i], s) && (k < 0 || slots[k].generation <= slots[i].generation) {
          k := i;
        }
        i := i + 1;
      }
      assert slots[..i] == slots;
    }

    /** The row of an order, or -1. */
    method FindSlot(id: nat) returns (k: int)
      ensures k == SlotOf(slots, id)
    {
      k := |slots| - 1;
      assert slots[..k + 1] == slots;
      while k >= 0 && slots[k].order != id
        invariant -1 <= k < |slots| && SlotOf(slots, id) == SlotOf(slots[..k + 1], id)
      {
        assert slots[..k + 1][..k] == slots[..k];
        k := k - 1;
      }
      assert k >= 0 ==> slots[..k + 1][k] == slots[k];
    }

    /** Opens an order together with the next slot of its amount; `ok` tells whether every
        trigger let both rows through, and nothing is written otherwise. */
    method OpenOrder(id: nat, o: Order) returns (ok: bool)
      requires o.status.Open? && o.closedAt.None? && o.eligibleFrom < o.expiresAt
      requires Inv(View())
      modifies this
      ensures Inv(View())
      ensures ok <==> id !in old(orders) && AmountFree(old(View()), FirstSlot(id, o))
      ensures View() == if ok then WithOrder(old(View()), id, o) else old(View())
    {
      var k := FindLatest(FirstSlot(id, o));
      FreeByLatest(View(), FirstSlot(id, o));
      if id in orders || (k >= 0 && (slots[k].releasedAt.None? || slots[k].releasedAt.value > o.eligibleFrom
                                     || !CooledDown(orders, slots[k], o.eligibleFrom))) {
        return false;
      }
      ghost var t := View();
      WithOrderFits(t, id, o);
      var s := FirstSlot(id, o).(generation := if k < 0 then 1 else slots[k].generation + 1);
      assert s == NextSlot(t, id, o);
      orders, slots := orders[id := o], slots + [s];
      assert View() == WithOrder(t, id, o);
      return true;
    }

    /** Ends an open order and, in the same statement, releases its one slot. */
    method End(id: nat, status: Status, at: nat) returns (ok: bool)
      requires Inv(View())
      modifies this
      ensures Inv(View())
      ensures ok <==> MayEnd(old(View()), id, status, at) && SlotOf(old(slots), id) >= 0
      ensures View() == if ok then Released(Ended(old(View()), id, status, at), SlotOf(old(slots), id), at, status)
                        else old(View())
    {
      var k := FindSlot(id);
      if id !in orders || !orders[id].status.Open? || status.Open? || k < 0
         || (status.Closed? && !(orders[id].eligibleFrom <= at < orders[id].expiresAt))
         || (status.Expired? && at < orders[id].expiresAt) {
        return false;
      }
      EndFits(View(), id, status, at);
      orders := orders[id := orders[id].(status := status, closedAt := Some(at))];
      slots := slots[k := slots[k].(releasedAt := Some(at), reason := Some(status))];
      return true;
    }
  }
}
