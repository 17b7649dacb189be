/** One uninterrupted pass of the spool importer over one source, as the loops of
    #collectSource in src/audit/spool.ts. The transactions are those of module Spool. */
module SpoolImporter {
  import opened Numbers
  import opened Options
  import opened Sets
  import opened Spool

  function SetOf(q: seq<nat>): set<nat> {
    set n | n in q
  }

  function QueueOf(db: Db, listed: seq<nat>, w: nat): seq<nat> {
    if listed == [] then [] else
    var last := listed[|listed| - 1];
    var rest := QueueOf(db, listed[..|listed| - 1], w);
    if Due(db, last, w) then rest + [last] else rest
  }

  /** Filtering the sorted listing gives the queue that the protocol's Begin step asks for. */
  lemma {:induction false} QueueOfIsQueue(db: Db, listed: seq<nat>, w: nat)
    requires Ascending(listed)
    ensures IsQueue(QueueOf(db, listed, w), db, SetOf(listed), w)
  {
    if listed != [] {
      var front := listed[..|listed| - 1];
      QueueOfIsQueue(db, front, w);
      var q := QueueOf(db, front, w);
      forall i | 0 <= i < |q| ensures q[i] < listed[|front|] {
        assert q[i] in SetOf(front);
      }
      assert listed == front + [listed[|listed| - 1]];
    }
  }

  function ContentOf(contents: map<nat, Grade>, n: nat): Option<Grade> {
    if n in contents then Some(contents[n]) else None
  }

  function ReadOne(db: Db, n: nat, contents: map<nat, Grade>, w: nat): Db {
    FileDb(GapDb(db, n, w), n, ContentOf(contents, n))
  }

  function ReadAll(db: Db, q: seq<nat>, contents: map<nat, Grade>, w: nat): Db {
    if q == [] then db
    else ReadOne(ReadAll(db, q[..|q| - 1], contents, w), q[|q| - 1], contents, w)
  }

  /** The row after a pass that had budget for the first `count` queued files. */
  function Collected(db: Db, listed: seq<nat>, contents: map<nat, Grade>, w: nat, tail: Option<nat>, budget: nat): Db {
    var begun := BeginDb(db, SetOf(listed), w);
    var q := QueueOf(begun, listed, w);
    if |q| < budget then
      var read := ReadAll(begun, q, contents, w);
      if tail.Some? then TailDb(read, w, tail.value) else read
    else ReadAll(begun, q[..budget], contents, w)
  }

  class Source {
    var db: Db

    constructor ()
      ensures db == Start.db
    {
      db := Start.db;
    }

    /** Builds the queue of a pass from the listing. */
    method QueueFiles(listed: seq<nat>, w: nat) returns (files: seq<nat>)
      ensures files == QueueOf(db, listed, w)
    {
      files := [];
      for i := 0 to |listed|
        invariant files == QueueOf(db, listed[..i], w)
      {
        assert listed[..i + 1][..i] == listed[..i];
        if Due(db, listed[i], w) { files := files + [listed[i]]; }
      }
      assert listed[..|listed|] == listed;
    }

    /** Closes the hole before the next file and reads it. */
    method ReadNext(n: nat, contents: map<nat, Grade>, w: nat)
      modifies this
      ensures db == ReadOne(old(db), n, contents, w)
    {
      if n > db.last + 1 {
        db := GapDb(db, n, w);
      }
      assert db == GapDb(old(db), n, w);
      db := FileDb(db, n, ContentOf(contents, n));
    }

    /** Reads files from the front of the queue until the budget is used up. */
    method ReadFiles(files: seq<nat>, contents: map<nat, Grade>, w: nat, budget: nat) returns (processed: nat)
      modifies this
      ensures processed == if budget < |files| then budget else |files|
      ensures db == ReadAll(old(db), files[..processed], contents, w)
    {
      processed := 0;
      while processed < |files| && processed < budget
        invariant processed <= |files| && processed <= budget
        invariant db == ReadAll(old(db), files[..processed], contents, w)
      {
        ReadNext(files[processed], contents, w);
        assert files[..processed + 1][..processed] == files[..processed];
        processed := processed + 1;
      }
    }

    method Collect(meta: Option<Meta>, listed: seq<nat>, contents: map<nat, Grade>, w: nat, budget: nat)
      returns (processed: nat)
      modifies this
      ensures db == Collected(old(db), listed, contents, w, TailOf(meta, w), budget)
      ensures var due := |QueueOf(BeginDb(old(db), SetOf(listed), w), listed, w)|;
              processed == if budget < due then budget else due
    {
      db := BeginDb(db, SetOf(listed), w);
      var files := QueueFiles(listed, w);
      processed := ReadFiles(files, contents, w, budget);
      assert files[..|files|] == files;
      var tail := TailOf(meta, w);
      if processed < budget && tail.Some? && tail.value > db.last {
        db := TailDb(db, w, tail.value);
      }
    }
  }

  /** Due readable files that a pass has budget for have their receipt afterwards. */
  lemma {:induction false} ReadAllImports(db: Db, q: seq<nat>, contents: map<nat, Grade>, w: nat)
    ensures var after := ReadAll(db, q, contents, w);
            && db.receipts <= after.receipts
            && (forall n | n in q && n in contents && contents[n].Good? :: n in after.receipts)
            && (forall n | n in after.receipts :: n in db.receipts || (n in q && n in contents && contents[n].Good?))
  {
    if q != [] {
      ReadAllImports(db, q[..|q| - 1], contents, w);
      assert q == q[..|q| - 1] + [q[|q| - 1]];
    }
  }

  /** The readable listed events that still lack a receipt. */
  function Pending(db: Db, listed: seq<nat>, contents: map<nat, Grade>): set<nat> {
    set n | n in listed && n in contents && contents[n].Good? && n !in db.receipts
  }

  lemma CollectedReceipts(db: Db, listed: seq<nat>, contents: map<nat, Grade>, w: nat, tail: Option<nat>, budget: nat)
    ensures var begun := BeginDb(db, SetOf(listed), w);
            Collected(db, listed, contents, w, tail, budget).receipts ==
            ReadAll(begun, ReadFirst(db, listed, w, budget), contents, w).receipts
  {
  }

  /** The queued files that the budget of one pass reaches. */
  function ReadFirst(db: Db, listed: seq<nat>, w: nat, budget: nat): seq<nat> {
    var q := QueueOf(BeginDb(db, SetOf(listed), w), listed, w);
    if |q| < budget then q else q[..budget]
  }

  /** A pass imports exactly the readable pending events among the files it reads, and with
      budget for at least one of them it leaves strictly fewer pending. */
  lemma PassMakesProgress(db: Db, listed: seq<nat>, contents: map<nat, Grade>, w: nat, tail: Option<nat>, budget: nat)
    ensures var read, after := ReadFirst(db, listed, w, budget), Collected(db, listed, contents, w, tail, budget);
            && Pending(after, listed, contents) == Pending(db, listed, contents) - SetOf(read)
            && ((exists n :: n in read && n in Pending(db, listed, contents)) ==>
                  |Pending(after, listed, contents)| < |Pending(db, listed, contents)|)
  {
    var read, after := ReadFirst(db, listed, w, budget), Collected(db, listed, contents, w, tail, budget);
    CollectedReceipts(db, listed, contents, w, tail, budget);
    ReadAllImports(BeginDb(db, SetOf(listed), w), read, contents, w);
    var was, now := Pending(db, listed, contents), Pending(after, listed, contents);
    assert now == was - SetOf(read);
    if n :| n in read && n in was {
      assert n in SetOf(read);
      SubsetSize(now, was - {n});
    }
  }

  /** A pass whose budget reaches the end of the queue leaves nothing pending that was due. */
  lemma FullPassImportsAll(db: Db, listed: seq<nat>, contents: map<nat, Grade>, w: nat, tail: Option<nat>, budget: nat)
    requires Ascending(listed)
    requires |QueueOf(BeginDb(db, SetOf(listed), w), listed, w)| <= budget
    ensures var begun, after := BeginDb(db, SetOf(listed), w), Collected(db, listed, contents, w, tail, budget);
            forall n | n in Pending(after, listed, contents) :: w < n <= begun.last
  {
    var begun := BeginDb(db, SetOf(listed), w);
    var q := QueueOf(begun, listed, w);
    QueueOfIsQueue(begun, listed, w);
    assert q[..|q|] == q;
    assert ReadFirst(db, listed, w, budget) == q;
    PassMakesProgress(db, listed, contents, w, tail, budget);
    forall n | n in listed && Due(begun, n, w) ensures n in SetOf(q) { assert n in SetOf(listed); }
  }

  /* -------------------------------------------------- when a pass makes progress, exactly */

  /** A directory that nobody changes while the importer passes over it again and again. */
  datatype Still = Still(listed: seq<nat>, contents: map<nat, Grade>, w: nat, tail: Option<nat>, budget: nat)

  function Queue(db: Db, d: Still): seq<nat> {
    QueueOf(BeginDb(db, SetOf(d.listed), d.w), d.listed, d.w)
  }

  function Pass(db: Db, d: Still): Db {
    Collected(db, d.listed, d.contents, d.w, d.tail, d.budget)
  }

  function Passes(db: Db, d: Still, k: nat): Db {
    if k == 0 then db else Pass(Passes(db, d, k - 1), d)
  }

  predicate Readable(d: Still, n: nat) {
    n in d.contents && d.contents[n].Good?
  }

  /** The readable events without a receipt that the next pass would read, had it the budget. */
  function DuePending(db: Db, d: Still): set<nat> {
    set n | n in Queue(db, d) && Readable(d, n) && n !in db.receipts
  }

  /** The queue holds a file before this one that is not pending itself. */
  function OthersBefore(db: Db, d: Still, p: nat): set<nat> {
    set n | n in Queue(db, d) && n < p && n !in DuePending(db, d)
  }

  /** A file under the watermark that never gets a receipt: every pass queues and reads it again. */
  predicate Blocking(db: Db, d: Still, n: nat) {
    n in d.listed && n <= d.w && n !in db.receipts && !Readable(d, n)
  }

  function BlockersBefore(db: Db, d: Still, p: nat): set<nat> {
    set n | n in d.listed && n < p && Blocking(db, d, n)
  }

  lemma InQueue(db: Db, d: Still)
    requires Ascending(d.listed)
    ensures Ascending(Queue(db, d))
    ensures forall n :: n in Queue(db, d) <==> n in d.listed && Due(BeginDb(db, SetOf(d.listed), d.w), n, d.w)
  {
    var begun := BeginDb(db, SetOf(d.listed), d.w);
    QueueOfIsQueue(begun, d.listed, d.w);
    forall n | n in d.listed ensures n in SetOf(d.listed) {}
  }

  lemma PrefixHas(q: seq<nat>, size: nat, i: nat)
    requires i < |q| && size <= |q|
    ensures i < size ==> q[i] in q[..size]
  {
    if i < size { assert q[..size][i] == q[i]; }
  }

  lemma DifferenceMeets(a: set<nat>, b: set<nat>)
    requires a - b != a
    ensures exists n :: n in a && n in b
  {
  }

  lemma {:induction false} AscendingSize(q: seq<nat>)
    requires Ascending(q)
    ensures |SetOf(q)| == |q|
  {
    if q != [] {
      var front, last := q[..|q| - 1], q[|q| - 1];
      AscendingSize(front);
      assert last !in SetOf(front);
      assert q == front + [last];
      SetOfMore(front, last);
    }
  }

  lemma SetOfMore(q: seq<nat>, n: nat)
    ensures SetOf(q + [n]) == SetOf(q) + {n}
  {
  }

  lemma {:induction false} ReadAllLast(db: Db, q: seq<nat>, contents: map<nat, Grade>, w: nat)
    requires Ascending(q)
    ensures ReadAll(db, q, contents, w).last == if q == [] then db.last else Max(db.last, q[|q| - 1])
  {
    if q != [] { ReadAllLast(db, q[..|q| - 1], contents, w); }
  }

  /** The cursor after a pass stands at the last file read, or behind everything listed. */
  lemma AfterPassLast(db: Db, d: Still)
    requires Ascending(d.listed)
    ensures var read, begun, after :=
              ReadFirst(db, d.listed, d.w, d.budget), BeginDb(db, SetOf(d.listed), d.w), Pass(db, d);
            && d.w <= begun.last <= after.last && BeginDb(after, SetOf(d.listed), d.w) == after
            && (read != [] ==> read[|read| - 1] <= after.last)
            && (|Queue(db, d)| >= d.budget ==>
                  after.last == if read == [] then begun.last else Max(begun.last, read[|read| - 1]))
  {
    var read, begun := ReadFirst(db, d.listed, d.w, d.budget), BeginDb(db, SetOf(d.listed), d.w);
    InQueue(db, d);
    ReadAllLast(begun, read, d.contents, d.w);
    var all := ReadAll(begun, read, d.contents, d.w);
    assert Pass(db, d) == if |Queue(db, d)| < d.budget && d.tail.Some? then TailDb(all, d.w, d.tail.value) else all;
  }

  lemma AscendingSplit(q: seq<nat>, size: nat)
    requires Ascending(q) && size <= |q|
    ensures size > 0 ==> forall n | n in q[..size] :: n <= q[size - 1]
    ensures size > 0 ==> forall n | n in q && n !in q[..size] :: q[size - 1] < n
  {
    forall n | n in q && n !in q[..size] && size > 0 ensures q[size - 1] < n {
      var i :| 0 <= i < |q| && q[i] == n;
      PrefixHas(q, size, i);
    }
  }

  /** The readable files among those read have receipts; what was read lies behind the cursor,
      and a new file that was not read still lies before it. */
  lemma AfterPass(db: Db, d: Still)
    requires Ascending(d.listed)
    ensures var q, read, begun, after :=
              Queue(db, d), ReadFirst(db, d.listed, d.w, d.budget), BeginDb(db, SetOf(d.listed), d.w), Pass(db, d);
            && d.w <= begun.last <= after.last && begun.receipts == db.receipts
            && BeginDb(after, SetOf(d.listed), d.w) == after
            && (forall n :: n in after.receipts <==> n in db.receipts || (n in read && Readable(d, n)))
            && (forall n | n in read :: n <= after.last)
            && (forall n | n in q && n !in read && n > begun.last :: n > after.last)
  {
    var q, read, begun := Queue(db, d), ReadFirst(db, d.listed, d.w, d.budget), BeginDb(db, SetOf(d.listed), d.w);
    InQueue(db, d);
    AfterPassLast(db, d);
    AscendingSplit(q, |read|);
    assert q[..|read|] == read;
    ReadAllImports(begun, read, d.contents, d.w);
    CollectedReceipts(db, d.listed, d.contents, d.w, d.tail, d.budget);
  }

  /** A pass makes progress exactly when fewer than `budget` other due files come before a pending one. */
  lemma ProgressExactly(db: Db, d: Still)
    requires Ascending(d.listed)
    ensures |Pending(Pass(db, d), d.listed, d.contents)| < |Pending(db, d.listed, d.contents)|
            <==> exists p :: p in DuePending(db, d) && |OthersBefore(db, d, p)| < d.budget
  {
    var q, read := Queue(db, d), ReadFirst(db, d.listed, d.w, d.budget);
    var was, now := Pending(db, d.listed, d.contents), Pending(Pass(db, d), d.listed, d.contents);
    InQueue(db, d);
    PassMakesProgress(db, d.listed, d.contents, d.w, d.tail, d.budget);
    if p :| p in DuePending(db, d) && |OthersBefore(db, d, p)| < d.budget {
      var first := FirstPendingIsRead(db, d, p);
      assert first in read && first in was;
    }
    if |now| < |was| {
      DifferenceMeets(was, SetOf(read));
      var p :| p in was && p in SetOf(read);
      ReadHasFewBefore(db, d, p);
      assert p in DuePending(db, d);
    }
  }

  /** One of the pending files is read when one of them has few enough others before it. */
  lemma FirstPendingIsRead(db: Db, d: Still, p: nat) returns (first: nat)
    requires Ascending(d.listed) && p in DuePending(db, d) && |OthersBefore(db, d, p)| < d.budget
    ensures first in ReadFirst(db, d.listed, d.w, d.budget) && first in DuePending(db, d)
  {
    var q, read := Queue(db, d), ReadFirst(db, d.listed, d.w, d.budget);
    InQueue(db, d);
    if exists n :: n in read && n in DuePending(db, d) {
      first :| first in read && first in DuePending(db, d);
    } else {
      first := p;
      var i :| 0 <= i < |q| && q[i] == p;
      assert |q| >= d.budget && read == q[..d.budget];
      PrefixHas(q, d.budget, i);
      forall n | n in SetOf(read) ensures n in OthersBefore(db, d, p) {
        var k :| 0 <= k < d.budget && q[k] == n;
      }
      AscendingSize(read);
      SubsetSize(SetOf(read), OthersBefore(db, d, p));
      assert false;
    }
  }

  lemma ReadHasFewBefore(db: Db, d: Still, p: nat)
    requires Ascending(d.listed) && p in ReadFirst(db, d.listed, d.w, d.budget)
    ensures p in Queue(db, d) && |OthersBefore(db, d, p)| < d.budget
  {
    var q, read := Queue(db, d), ReadFirst(db, d.listed, d.w, d.budget);
    InQueue(db, d);
    var i :| 0 <= i < |read| && read[i] == p;
    assert q[i] == p;
    forall n | n in OthersBefore(db, d, p) ensures n in SetOf(q[..i]) {
      var k :| 0 <= k < |q| && q[k] == n;
      assert k < i;
      assert q[..i][k] == n;
    }
    AscendingSize(q[..i]);
    SubsetSize(OthersBefore(db, d, p), SetOf(q[..i]));
  }

  /* ------------------------------------------------------ many passes, and starvation */

  lemma BlockingStays(db: Db, d: Still, n: nat)
    requires Ascending(d.listed)
    ensures Blocking(Pass(db, d), d, n) <==> Blocking(db, d, n)
  {
    AfterPass(db, d);
  }

  /** Behind as many blockers as the budget, a due event is read by no pass. */
  lemma StarvedStays(db: Db, d: Still, p: nat)
    requires Ascending(d.listed) && p in DuePending(db, d) && |BlockersBefore(db, d, p)| >= d.budget
    ensures p in DuePending(Pass(db, d), d) && BlockersBefore(Pass(db, d), d, p) == BlockersBefore(db, d, p)
  {
    var after, read := Pass(db, d), ReadFirst(db, d.listed, d.w, d.budget);
    AfterPass(db, d);
    InQueue(db, d);
    InQueue(after, d);
    if p in read { BlockedIsNotRead(db, d, p); }
    forall n ensures Blocking(after, d, n) <==> Blocking(db, d, n) { BlockingStays(db, d, n); }
  }

  lemma BlockedIsNotRead(db: Db, d: Still, p: nat)
    requires Ascending(d.listed) && p in DuePending(db, d) && |BlockersBefore(db, d, p)| >= d.budget
    ensures p !in ReadFirst(db, d.listed, d.w, d.budget)
  {
    if p in ReadFirst(db, d.listed, d.w, d.budget) {
      ReadHasFewBefore(db, d, p);
      AfterPass(db, d);
      InQueue(db, d);
      SubsetSize(BlockersBefore(db, d, p), OthersBefore(db, d, p));
    }
  }

  lemma {:induction false} StarvedForever(db: Db, d: Still, p: nat, k: nat)
    requires Ascending(d.listed) && p in DuePending(db, d) && |BlockersBefore(db, d, p)| >= d.budget
    ensures p in DuePending(Passes(db, d, k), d)
    ensures BlockersBefore(Passes(db, d, k), d, p) == BlockersBefore(db, d, p)
  {
    if k > 0 {
      StarvedForever(db, d, p, k - 1);
      StarvedStays(Passes(db, d, k - 1), d, p);
    }
  }

  /** The due files that a pass gets rid of when it reads them. */
  function Passing(db: Db, d: Still): set<nat> {
    set n | n in Queue(db, d) && !Blocking(db, d, n)
  }

  lemma PassingShrinks(db: Db, d: Still, first: nat)
    requires Ascending(d.listed) && first in Passing(db, d) && first in ReadFirst(db, d.listed, d.w, d.budget)
    ensures |Passing(Pass(db, d), d)| < |Passing(db, d)|
  {
    var after := Pass(db, d);
    AfterPass(db, d);
    InQueue(db, d);
    InQueue(after, d);
    forall n | n in Passing(after, d) ensures n in Passing(db, d) - {first} { BlockingStays(db, d, n); }
    SubsetSize(Passing(after, d), Passing(db, d) - {first});
  }

  /** With fewer blockers before it than the budget, a due event or one before it leaves the queue. */
  lemma UnblockedIsRead(db: Db, d: Still, p: nat) returns (first: nat)
    requires Ascending(d.listed) && p in DuePending(db, d) && |BlockersBefore(db, d, p)| < d.budget
    ensures first in Passing(db, d) && first in ReadFirst(db, d.listed, d.w, d.budget)
  {
    var q, read := Queue(db, d), ReadFirst(db, d.listed, d.w, d.budget);
    InQueue(db, d);
    if exists n :: n in read && n in Passing(db, d) {
      first :| first in read && first in Passing(db, d);
    } else {
      first := p;
      var i :| 0 <= i < |q| && q[i] == p;
      assert p in Passing(db, d);
      assert |q| >= d.budget && read == q[..d.budget];
      PrefixHas(q, d.budget, i);
      forall n | n in SetOf(read) ensures n in BlockersBefore(db, d, p) {
        var k :| 0 <= k < d.budget && q[k] == n;
        assert n !in Passing(db, d);
      }
      AscendingSize(read);
      SubsetSize(SetOf(read), BlockersBefore(db, d, p));
      assert false;
    }
  }

  ghost predicate Unblocked(db: Db, d: Still) {
    forall p | p in DuePending(db, d) :: |BlockersBefore(db, d, p)| < d.budget
  }

  lemma UnblockedStays(db: Db, d: Still)
    requires Ascending(d.listed) && Unblocked(db, d)
    ensures Unblocked(Pass(db, d), d)
  {
    var after := Pass(db, d);
    AfterPass(db, d);
    InQueue(db, d);
    InQueue(after, d);
    forall p | p in DuePending(after, d) ensures |BlockersBefore(after, d, p)| < d.budget {
      assert p in DuePending(db, d);
      forall n ensures Blocking(after, d, n) <==> Blocking(db, d, n) { BlockingStays(db, d, n); }
      assert BlockersBefore(after, d, p) == BlockersBefore(db, d, p);
    }
  }

  lemma PassesOn(db: Db, d: Still, k: nat)
    ensures Passes(db, d, k + 1) == Passes(Pass(db, d), d, k)
  {
  }

  /** As many passes as the queue is long import everything that is due. */
  lemma {:induction false} UnblockedDrains(db: Db, d: Still) returns (k: nat)
    requires Ascending(d.listed) && Unblocked(db, d)
    ensures k <= |Passing(db, d)| && DuePending(Passes(db, d, k), d) == {}
    decreases |Passing(db, d)|
  {
    if DuePending(db, d) == {} {
      k := 0;
    } else {
      var p :| p in DuePending(db, d);
      var first := UnblockedIsRead(db, d, p);
      PassingShrinks(db, d, first);
      UnblockedStays(db, d);
      k := UnblockedDrains(Pass(db, d), d);
      PassesOn(db, d, k);
      k := k + 1;
    }
  }

  /** Repeated passes import everything that is due if and only if no due event is behind as
      many blockers as the budget. */
  lemma ImportsAllExactly(db: Db, d: Still)
    requires Ascending(d.listed)
    ensures (exists k: nat :: DuePending(Passes(db, d, k), d) == {})
            <==> forall p | p in DuePending(db, d) :: |BlockersBefore(db, d, p)| < d.budget
  {
    if Unblocked(db, d) {
      var _ := UnblockedDrains(db, d);
    } else {
      var p :| p in DuePending(db, d) && |BlockersBefore(db, d, p)| >= d.budget;
      forall k: nat ensures DuePending(Passes(db, d, k), d) != {} { StarvedForever(db, d, p, k); }
    }
  }
}
