/** The settlement part of the reconciliation check of src/database/database.ts: what its two
    queries look at row by row, and what a clean answer says about all the money at once. */
module Settlement {
  import opened Options
  import opened Sets

  datatype EntryState = Unallocated | Candidate | Allocated | Conflict | Isolated | Ignored

  datatype Entry = Entry(state: EntryState, amount: nat, currency: string)

  datatype PaymentStatus = Unpaid | Confirmed | Disputed

  datatype Basis = NoBasis | Inferred | Manual

  datatype Order = Order(payment: PaymentStatus, basis: Basis, received: Option<nat>, currency: string)

  datatype Choice = Eligible | Selected | Superseded

  datatype Possible = Possible(entry: nat, order: nat, evidence: string, status: Choice)

  datatype OperationType = AutoSettlement | SupersedeCandidate | ManualSettlement | ReverseSettlement | RecordRefund

  datatype Operation = Operation(kind: OperationType, order: Option<nat>, entry: Option<nat>)

  datatype MatchStatus = Settled | Reversed

  datatype Match = Match(entry: nat, order: nat, candidate: Option<nat>, inferred: bool, evidence: string,
                         status: MatchStatus, createdBy: nat, resolvedBy: nat)

  /** `refunds` maps a refund record to its entry; `duplicates` holds the entries with a recorded
      conflict of type DUPLICATE_EXTERNAL_ID. */
  datatype Books = Books(version: nat, entries: map<nat, Entry>, orders: map<nat, Order>, matches: map<nat, Match>,
                         candidates: map<nat, Possible>, operations: map<nat, Operation>, refunds: map<nat, nat>,
                         duplicates: set<nat>)

  const CONFLICT_STATE_FIX := 10

  predicate LegacyConflict(db: Books, e: nat)
    requires e in db.entries
  {
    0 < db.version < CONFLICT_STATE_FIX && db.entries[e].state.Conflict? && e in db.duplicates
  }

  /** The row checks of payment_orders and ledger_entries: a confirmed order has an amount and a basis,
      and an entry has a positive amount. */
  predicate Schema(db: Books) {
    && (forall o | o in db.orders && db.orders[o].payment.Confirmed? :: db.orders[o].received.Some? && !db.orders[o].basis.NoBasis?)
    && (forall e | e in db.entries :: db.entries[e].amount > 0)
  }

  function SettledOf(db: Books, e: nat): set<nat> {
    set m | m in db.matches && db.matches[m].status.Settled? && db.matches[m].entry == e
  }

  function SettledFor(db: Books, o: nat): set<nat> {
    set m | m in db.matches && db.matches[m].status.Settled? && db.matches[m].order == o
  }

  function RefundsOf(db: Books, e: nat): set<nat> {
    set r | r in db.refunds && db.refunds[r] == e
  }

  function EligibleOf(db: Books, e: nat): set<nat> {
    set c | c in db.candidates && db.candidates[c].status.Eligible? && db.candidates[c].entry == e
  }

  /** A comparison with NULL is no violation. */
  predicate Differs<T(==)>(a: Option<T>, b: T) {
    a.Some? && a.value != b
  }

  predicate SettledMatchOk(db: Books, m: Match)
    requires m.entry in db.entries && m.order in db.orders
  {
    var o := db.orders[m.order];
    && (db.entries[m.entry].state.Allocated? || LegacyConflict(db, m.entry))
    && o.payment.Confirmed? && !o.basis.NoBasis?
    && !Differs(o.received, db.entries[m.entry].amount)
    && (m.resolvedBy in db.operations ==>
          db.operations[m.resolvedBy].kind.AutoSettlement? || db.operations[m.resolvedBy].kind.ManualSettlement?)
    && (m.candidate.Some? && m.candidate.value in db.candidates ==> db.candidates[m.candidate.value].status.Selected?)
  }

  predicate ReversedMatchOk(db: Books, m: Match)
    requires m.entry in db.entries && m.order in db.orders
  {
    && (m.resolvedBy in db.operations ==> db.operations[m.resolvedBy].kind.ReverseSettlement?)
    && (db.entries[m.entry].state.Conflict? || SettledOf(db, m.entry) != {})
    && db.orders[m.order].payment.Disputed?
  }

  predicate EvidenceOk(db: Books, m: Match)
    requires m.createdBy in db.operations
  {
    if m.inferred then
      && m.candidate.Some? && m.candidate.value in db.candidates
      && (var c := db.candidates[m.candidate.value]; c.entry == m.entry && c.order == m.order && c.evidence == m.evidence)
      && db.operations[m.createdBy].kind.AutoSettlement?
    else
      m.candidate.None? && db.operations[m.createdBy].kind.ManualSettlement?
  }

  /** The match query reports no row. */
  predicate MatchOk(db: Books, m: Match) {
    && m.entry in db.entries && m.order in db.orders
    && db.entries[m.entry].currency == db.orders[m.order].currency
    && m.createdBy in db.operations
    && !Differs(db.operations[m.createdBy].order, m.order) && !Differs(db.operations[m.createdBy].entry, m.entry)
    && EvidenceOk(db, m)
    && (if m.status.Settled? then SettledMatchOk(db, m) else ReversedMatchOk(db, m))
  }

  /** The effective-state query reports no entry. */
  predicate EntryOk(db: Books, e: nat)
    requires e in db.entries
  {
    match db.entries[e].state
    case Allocated => |SettledOf(db, e)| + |RefundsOf(db, e)| == 1
    case Candidate => SettledOf(db, e) != {} || |EligibleOf(db, e)| >= 2
    case _ => SettledOf(db, e) == {} || LegacyConflict(db, e)
  }

  predicate OrderOk(db: Books, o: nat)
    requires o in db.orders
  {
    if db.orders[o].payment.Confirmed? then |SettledFor(db, o)| == 1 else SettledFor(db, o) == {}
  }

  predicate Clean(db: Books) {
    && (forall m | m in db.matches :: MatchOk(db, db.matches[m]))
    && (forall e | e in db.entries :: EntryOk(db, e))
    && (forall o | o in db.orders :: OrderOk(db, o))
  }

  /* ---------------------------------------------------------------- the pairing */

  function SettledMatches(db: Books): set<nat> {
    set m | m in db.matches && db.matches[m].status.Settled?
  }

  function ConfirmedOrders(db: Books): set<nat> {
    set o | o in db.orders && db.orders[o].payment.Confirmed?
  }

  function AllocatedEntries(db: Books): set<nat> {
    set e | e in db.entries && db.entries[e].state.Allocated?
  }

  /** The allocated entries that no refund record explains. */
  function SettledEntries(db: Books): set<nat> {
    set e | e in AllocatedEntries(db) && RefundsOf(db, e) == {}
  }

  function OrderOf(db: Books): map<nat, nat> {
    map m | m in db.matches :: db.matches[m].order
  }

  function EntryOf(db: Books): map<nat, nat> {
    map m | m in db.matches :: db.matches[m].entry
  }

  /** `f` pairs the members of `a` and of `b` one to one. */
  predicate Pairs(f: map<nat, nat>, a: set<nat>, b: set<nat>) {
    && (forall x | x in a :: x in f && f[x] in b)
    && (forall x, y | x in a && y in a && f[x] == f[y] :: x == y)
    && (forall z | z in b :: exists x :: x in a && f[x] == z)
  }

  lemma SoleMember(s: set<nat>, x: nat, y: nat)
    requires |s| <= 1 && x in s && y in s
    ensures x == y
  {
    assert {x} <= s && (x != y ==> {x, y} <= s);
    if x != y {
      SubsetSize({x, y}, s);
    }
  }

  lemma OrdersPaired(db: Books)
    requires Clean(db)
    ensures Pairs(OrderOf(db), SettledMatches(db), ConfirmedOrders(db))
  {
    var a := SettledMatches(db);
    forall x | x in a ensures OrderOf(db)[x] in ConfirmedOrders(db) {
      assert MatchOk(db, db.matches[x]);
    }
    forall x, y | x in a && y in a && OrderOf(db)[x] == OrderOf(db)[y] ensures x == y {
      var o := db.matches[x].order;
      assert MatchOk(db, db.matches[x]) && OrderOk(db, o);
      SoleMember(SettledFor(db, o), x, y);
    }
    forall o | o in ConfirmedOrders(db) ensures exists x :: x in a && OrderOf(db)[x] == o {
      assert OrderOk(db, o);
      var x :| x in SettledFor(db, o);
      assert x in a && OrderOf(db)[x] == o;
    }
  }

  /** The settled matches that rest on an entry which the old schema left in conflict. */
  function LegacyMatches(db: Books): set<nat> {
    set m | m in SettledMatches(db) && db.matches[m].entry in db.entries && LegacyConflict(db, db.matches[m].entry)
  }

  /** Any other settled match's entry is allocated, to it alone and without a refund. */
  lemma SettledEntry(db: Books, x: nat)
    requires Clean(db) && x in SettledMatches(db) - LegacyMatches(db)
    ensures db.matches[x].entry in SettledEntries(db) && |SettledOf(db, db.matches[x].entry)| == 1
  {
    var e := db.matches[x].entry;
    assert MatchOk(db, db.matches[x]) && EntryOk(db, e);
    assert x in SettledOf(db, e);
  }

  lemma OthersPaired(db: Books)
    requires Clean(db)
    ensures Pairs(EntryOf(db), SettledMatches(db) - LegacyMatches(db), SettledEntries(db))
  {
    var a := SettledMatches(db) - LegacyMatches(db);
    forall x | x in a ensures EntryOf(db)[x] in SettledEntries(db) {
      SettledEntry(db, x);
    }
    forall x, y | x in a && y in a && EntryOf(db)[x] == EntryOf(db)[y] ensures x == y {
      SettledEntry(db, x);
      SoleMember(SettledOf(db, db.matches[x].entry), x, y);
    }
    forall e | e in SettledEntries(db) ensures exists x :: x in a && EntryOf(db)[x] == e {
      assert EntryOk(db, e);
      var x :| x in SettledOf(db, e);
      assert x in a && EntryOf(db)[x] == e;
    }
  }

  lemma EntriesPaired(db: Books)
    requires Clean(db) && db.version >= CONFLICT_STATE_FIX
    ensures Pairs(EntryOf(db), SettledMatches(db), SettledEntries(db))
  {
    OthersPaired(db);
    assert SettledMatches(db) - LegacyMatches(db) == SettledMatches(db);
  }

  /* ---------------------------------------------------------------- the sums */

  ghost function Sum(s: set<nat>, amount: map<nat, nat>): nat
    requires s <= amount.Keys
  {
    if s == {} then 0 else var x :| x in s; amount[x] + Sum(s - {x}, amount)
  }

  lemma {:induction false} SumTakes(s: set<nat>, amount: map<nat, nat>, x: nat)
    requires s <= amount.Keys && x in s
    ensures Sum(s, amount) == amount[x] + Sum(s - {x}, amount)
  {
    var y :| y in s && Sum(s, amount) == amount[y] + Sum(s - {y}, amount);
    if y != x {
      SumTakes(s - {y}, amount, x);
      SumTakes(s - {x}, amount, y);
      assert s - {y} - {x} == s - {x} - {y};
    }
  }

  /** Paired sets whose members agree in amount have the same total. */
  lemma {:induction false} SumPaired(a: set<nat>, b: set<nat>, f: map<nat, nat>, left: map<nat, nat>, right: map<nat, nat>)
    requires a <= left.Keys && b <= right.Keys && Pairs(f, a, b)
    requires forall x | x in a :: left[x] == right[f[x]]
    ensures Sum(a, left) == Sum(b, right)
  {
    if a == {} {
      assert forall z :: z !in b;
    } else {
      var x :| x in a;
      forall z | z in b - {f[x]} ensures exists y :: y in a - {x} && f[y] == z {
        var y :| y in a && f[y] == z;
      }
      SumPaired(a - {x}, b - {f[x]}, f, left, right);
      SumTakes(a, left, x);
      SumTakes(b, right, f[x]);
    }
  }

  lemma {:induction false} SumSplits(a: set<nat>, b: set<nat>, amount: map<nat, nat>)
    requires a + b <= amount.Keys && a !! b
    ensures Sum(a + b, amount) == Sum(a, amount) + Sum(b, amount)
  {
    if a == {} {
      assert a + b == b;
    } else {
      var x :| x in a;
      assert a + b - {x} == (a - {x}) + b;
      SumTakes(a + b, amount, x);
      SumTakes(a, amount, x);
      SumSplits(a - {x}, b, amount);
    }
  }

  function Received(db: Books): map<nat, nat> {
    map o | o in db.orders :: if db.orders[o].received.Some? then db.orders[o].received.value else 0
  }

  function Credited(db: Books): map<nat, nat> {
    map e | e in db.entries :: db.entries[e].amount
  }

  /** The cents of the entry that each match, and each refund record, points to. */
  function MatchCents(db: Books): map<nat, nat> {
    map m | m in db.matches && db.matches[m].entry in db.entries :: db.entries[db.matches[m].entry].amount
  }

  function RefundCents(db: Books): map<nat, nat> {
    map r | r in db.refunds && db.refunds[r] in db.entries :: db.entries[db.refunds[r]].amount
  }

  function AllocatedRefunds(db: Books): set<nat> {
    set r | r in db.refunds && db.refunds[r] in AllocatedEntries(db)
  }

  function RefundedEntries(db: Books): set<nat> {
    AllocatedEntries(db) - SettledEntries(db)
  }

  lemma RefundsPaired(db: Books)
    requires Clean(db)
    ensures Pairs(db.refunds, AllocatedRefunds(db), RefundedEntries(db))
  {
    forall r | r in AllocatedRefunds(db) ensures db.refunds[r] in RefundedEntries(db) {
      assert r in RefundsOf(db, db.refunds[r]);
    }
    forall r, q | r in AllocatedRefunds(db) && q in AllocatedRefunds(db) && db.refunds[r] == db.refunds[q] ensures r == q {
      assert EntryOk(db, db.refunds[r]);
      SoleMember(RefundsOf(db, db.refunds[r]), r, q);
    }
    forall e | e in RefundedEntries(db) ensures exists r :: r in AllocatedRefunds(db) && db.refunds[r] == e {
      var r :| r in RefundsOf(db, e);
      assert r in AllocatedRefunds(db) && db.refunds[r] == e;
    }
  }

  /* ---------------------------------------------------------------- one currency at a time */

  function OrdersIn(db: Books, orders: set<nat>, currency: string): set<nat> {
    set o | o in orders && o in db.orders && db.orders[o].currency == currency
  }

  function EntriesIn(db: Books, entries: set<nat>, currency: string): set<nat> {
    set e | e in entries && e in db.entries && db.entries[e].currency == currency
  }

  function MatchesIn(db: Books, matches: set<nat>, currency: string): set<nat> {
    set m | m in matches && m in db.matches && db.matches[m].entry in EntriesIn(db, db.entries.Keys, currency)
  }

  function RefundsIn(db: Books, refunds: set<nat>, currency: string): set<nat> {
    set r | r in refunds && r in db.refunds && db.refunds[r] in EntriesIn(db, db.entries.Keys, currency)
  }

  lemma PairsWithin(f: map<nat, nat>, a: set<nat>, b: set<nat>, c: set<nat>, d: set<nat>)
    requires Pairs(f, a, b) && c <= a && d <= b && forall x | x in a :: x in c <==> f[x] in d
    ensures Pairs(f, c, d)
  {
    forall z | z in d ensures exists x :: x in c && f[x] == z {
      var x :| x in a && f[x] == z;
      assert x in c;
    }
  }

  lemma {:induction false} SumPositive(s: set<nat>, amount: map<nat, nat>)
    requires s <= amount.Keys && forall x | x in s :: amount[x] > 0
    ensures Sum(s, amount) == 0 <==> s == {}
  {
    if s != {} {
      var x :| x in s;
      SumTakes(s, amount, x);
    }
  }

  lemma OrdersSum(db: Books, currency: string)
    requires Schema(db) && Clean(db)
    ensures MatchesIn(db, SettledMatches(db), currency) <= MatchCents(db).Keys
    ensures Sum(OrdersIn(db, ConfirmedOrders(db), currency), Received(db)) ==
            Sum(MatchesIn(db, SettledMatches(db), currency), MatchCents(db))
  {
    var matches, orders := MatchesIn(db, SettledMatches(db), currency), OrdersIn(db, ConfirmedOrders(db), currency);
    OrdersPaired(db);
    forall x | x in SettledMatches(db)
      ensures x in MatchCents(db) && MatchCents(db)[x] == Received(db)[db.matches[x].order]
      ensures x in matches <==> OrderOf(db)[x] in orders
    {
      assert MatchOk(db, db.matches[x]);
    }
    PairsWithin(OrderOf(db), SettledMatches(db), ConfirmedOrders(db), matches, orders);
    SumPaired(matches, orders, OrderOf(db), MatchCents(db), Received(db));
  }

  lemma EntriesSum(db: Books, currency: string)
    requires Clean(db)
    ensures MatchesIn(db, SettledMatches(db) - LegacyMatches(db), currency) <= MatchCents(db).Keys
    ensures Sum(MatchesIn(db, SettledMatches(db) - LegacyMatches(db), currency), MatchCents(db)) ==
            Sum(EntriesIn(db, SettledEntries(db), currency), Credited(db))
  {
    var others := SettledMatches(db) - LegacyMatches(db);
    OthersPaired(db);
    PairsWithin(EntryOf(db), others, SettledEntries(db), MatchesIn(db, others, currency), EntriesIn(db, SettledEntries(db), currency));
    SumPaired(MatchesIn(db, others, currency), EntriesIn(db, SettledEntries(db), currency), EntryOf(db), MatchCents(db), Credited(db));
  }

  lemma RefundsSum(db: Books, currency: string)
    requires Clean(db)
    ensures RefundsIn(db, AllocatedRefunds(db), currency) <= RefundCents(db).Keys
    ensures Sum(EntriesIn(db, AllocatedEntries(db), currency), Credited(db)) ==
            Sum(EntriesIn(db, SettledEntries(db), currency), Credited(db))
            + Sum(RefundsIn(db, AllocatedRefunds(db), currency), RefundCents(db))
  {
    var settled, refunded := EntriesIn(db, SettledEntries(db), currency), EntriesIn(db, RefundedEntries(db), currency);
    var refunds := RefundsIn(db, AllocatedRefunds(db), currency);
    RefundsPaired(db);
    PairsWithin(db.refunds, AllocatedRefunds(db), RefundedEntries(db), refunds, refunded);
    assert EntriesIn(db, AllocatedEntries(db), currency) == settled + refunded;
    SumSplits(settled, refunded, Credited(db));
    SumPaired(refunds, refunded, db.refunds, RefundCents(db), Credited(db));
  }

  lemma LegacySum(db: Books, currency: string)
    requires Schema(db) && Clean(db)
    ensures MatchesIn(db, LegacyMatches(db), currency) <= MatchCents(db).Keys
    ensures Sum(OrdersIn(db, ConfirmedOrders(db), currency), Received(db)) ==
            Sum(EntriesIn(db, SettledEntries(db), currency), Credited(db))
            + Sum(MatchesIn(db, LegacyMatches(db), currency), MatchCents(db))
  {
    var legacy, others := MatchesIn(db, LegacyMatches(db), currency), MatchesIn(db, SettledMatches(db) - LegacyMatches(db), currency);
    OrdersSum(db, currency);
    EntriesSum(db, currency);
    assert MatchesIn(db, SettledMatches(db), currency) == others + legacy;
    SumSplits(others, legacy, MatchCents(db));
  }

  lemma LegacyUnpaired(db: Books)
    ensures Pairs(EntryOf(db), SettledMatches(db), SettledEntries(db)) ==> LegacyMatches(db) == {}
  {
    if x :| x in LegacyMatches(db) {
      assert x in EntryOf(db) ==> EntryOf(db)[x] !in SettledEntries(db);
    }
  }

  /** On any schema, what was received over confirmed orders exceeds what was settled by the cents of the
      settled matches on an entry left in conflict. The pairing and the equation of the fixed schema
      hold exactly when there are none of those. */
  lemma LegacyExactly(db: Books, currency: string)
    requires Schema(db) && Clean(db)
    ensures Pairs(EntryOf(db), SettledMatches(db) - LegacyMatches(db), SettledEntries(db))
    ensures Pairs(EntryOf(db), SettledMatches(db), SettledEntries(db)) <==> LegacyMatches(db) == {}
    ensures var legacy := MatchesIn(db, LegacyMatches(db), currency);
            var received := Sum(OrdersIn(db, ConfirmedOrders(db), currency), Received(db));
            var settled := Sum(EntriesIn(db, SettledEntries(db), currency), Credited(db));
            && legacy <= MatchCents(db).Keys
            && received == settled + Sum(legacy, MatchCents(db))
            && (received == settled <==> legacy == {})
  {
    OthersPaired(db);
    LegacyUnpaired(db);
    assert LegacyMatches(db) == {} ==> SettledMatches(db) - LegacyMatches(db) == SettledMatches(db);
    LegacySum(db, currency);
    SumPositive(MatchesIn(db, LegacyMatches(db), currency), MatchCents(db));
  }

  /** When the check is clean, the settled matches pair the confirmed orders one to one with the
      allocated entries that have no refund; in each currency the cents received over those orders are
      the cents of those entries, and all allocated cents are either received or refunded. */
  lemma MoneyConserved(db: Books, currency: string)
    requires Schema(db) && Clean(db) && db.version >= CONFLICT_STATE_FIX
    ensures Pairs(OrderOf(db), SettledMatches(db), ConfirmedOrders(db))
    ensures Pairs(EntryOf(db), SettledMatches(db), SettledEntries(db))
    ensures forall m | m in SettledMatches(db) :: db.entries[EntryOf(db)[m]].currency == db.orders[OrderOf(db)[m]].currency
    ensures RefundsIn(db, AllocatedRefunds(db), currency) <= RefundCents(db).Keys
    ensures var received := Sum(OrdersIn(db, ConfirmedOrders(db), currency), Received(db));
            && received == Sum(EntriesIn(db, SettledEntries(db), currency), Credited(db))
            && Sum(EntriesIn(db, AllocatedEntries(db), currency), Credited(db)) ==
               received + Sum(RefundsIn(db, AllocatedRefunds(db), currency), RefundCents(db))
  {
    OrdersPaired(db);
    EntriesPaired(db);
    LegacyExactly(db, currency);
    RefundsSum(db, currency);
    forall m | m in SettledMatches(db) ensures db.entries[EntryOf(db)[m]].currency == db.orders[OrderOf(db)[m]].currency {
      assert MatchOk(db, db.matches[m]);
    }
  }
}
