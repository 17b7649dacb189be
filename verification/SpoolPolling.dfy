/** One poll of the spool importer over all sources, as the loop of #collect in src/audit/spool.ts: the
    sources take turns in rotation and share one budget. */
module SpoolPolling {
  import opened Numbers
  import opened Options
  import opened Sets
  import opened Spool
  import opened SpoolImporter

  const SOURCES_PER_POLL: nat := 128

  /** A source at rest; None is one whose directory or metadata cannot be used. The budget is not its own. */
  type Source = Option<Still>

  predicate SourcesOk(dbs: seq<Db>, ds: seq<Source>) {
    |dbs| == |ds| > 0 && forall i | 0 <= i < |ds| && ds[i].Some? :: Ascending(ds[i].value.listed)
  }

  function Shared(d: Still, left: nat): Still {
    d.(budget := left)
  }

  function ReadBy(db: Db, d: Source, left: nat): seq<nat> {
    if d.Some? then ReadFirst(db, d.value.listed, d.value.w, left) else [0]
  }

  /** The row after a turn with what is left of the budget. An unusable source costs one and changes nothing. */
  function Turn(db: Db, d: Source, left: nat): Db {
    if d.Some? then Pass(db, Shared(d.value, left)) else db
  }

  datatype Poll = Poll(dbs: seq<Db>, left: nat, visited: seq<nat>)

  /** (start + t) mod n, for at most one round. */
  function Around(start: nat, t: nat, n: nat): (i: nat)
    requires start < n && t <= n
    ensures i < n
  {
    if start + t < n then start + t else start + t - n
  }

  /** A poll after one more turn. */
  function Given(p: Poll, ds: seq<Source>, i: nat): Poll
    requires |p.dbs| == |ds| && i < |ds|
  {
    var used := |ReadBy(p.dbs[i], ds[i], p.left)|;
    Poll(p.dbs[i := Turn(p.dbs[i], ds[i], p.left)], if used < p.left then p.left - used else 0, p.visited + [i])
  }

  /** A poll from source `start` after `k` turns, or fewer if its budget is used up. */
  function PollTurns(dbs: seq<Db>, ds: seq<Source>, start: nat, maximum: nat, k: nat): (p: Poll)
    requires |dbs| == |ds| && start < |ds| && k <= |ds|
    ensures |p.dbs| == |ds| && |p.visited| <= k && (|p.visited| == k || p.left == 0)
    ensures forall t | 0 <= t < |p.visited| :: p.visited[t] == Around(start, t, |ds|)
  {
    if k == 0 then Poll(dbs, maximum, []) else
    var p := PollTurns(dbs, ds, start, maximum, k - 1);
    if p.left == 0 then p else Given(p, ds, Around(start, k - 1, |ds|))
  }

  function PollSize(n: nat): nat {
    Min(n, SOURCES_PER_POLL)
  }

  function PollOnce(dbs: seq<Db>, ds: seq<Source>, start: nat, maximum: nat): (p: Poll)
    requires |dbs| == |ds| && start < |ds|
    ensures |p.dbs| == |ds| && |p.visited| <= PollSize(|ds|)
    ensures forall t | 0 <= t < |p.visited| :: p.visited[t] == Around(start, t, |ds|)
  {
    PollTurns(dbs, ds, start, maximum, PollSize(|ds|))
  }

  lemma AroundIsMod(start: nat, t: nat, n: nat)
    requires start < n && t <= n
    ensures (start + t) % n == Around(start, t, n)
  {
    ModIs(start + t, if start + t < n then 0 else 1, Around(start, t, n), n);
  }

  lemma ModIs(a: nat, q: nat, r: nat, n: nat)
    requires r < n && a == q * n + r
    ensures a % n == r
  {
    var d := a / n - q;
    assert a == (a / n) * n + a % n;
    assert d * n == r - a % n;
    NoMultiple(d, n);
    NoMultiple(-d, n);
  }

  lemma NoMultiple(d: int, n: nat)
    requires n > 0
    ensures !(0 < d * n < n)
  {
    if d >= 1 {
      assert (d - 1) * n >= 0;
    } else {
      assert -d * n >= 0;
    }
  }

  class Importer {
    var dbs: seq<Db>
    var position: nat

    constructor (dbs: seq<Db>)
      ensures this.dbs == dbs && position == 0
    {
      this.dbs, position := dbs, 0;
    }

    /** #collectSource over what is left of the budget. */
    method CollectSource(i: nat, d: Source, left: nat) returns (used: nat)
      requires i < |dbs|
      modifies this`dbs
      ensures dbs == old(dbs)[i := Turn(old(dbs[i]), d, left)] && used == |ReadBy(old(dbs[i]), d, left)|
    {
      used := 1;
      if d.Some? {
        used := |ReadFirst(dbs[i], d.value.listed, d.value.w, left)|;
        dbs := dbs[i := Pass(dbs[i], Shared(d.value, left))];
      }
    }

    /** One turn of the loop. */
    method GiveTurn(start: nat, index: nat, ds: seq<Source>, left: nat, visited: seq<nat>) returns (rest: nat, more: seq<nat>)
      requires |dbs| == |ds| && start < |ds| && index < |ds|
      modifies this
      ensures Poll(dbs, rest, more) == Given(Poll(old(dbs), left, visited), ds, Around(start, index, |ds|))
      ensures position == Around(start, index + 1, |ds|)
    {
      AroundIsMod(start, index, |ds|);
      AroundIsMod(start, index + 1, |ds|);
      var i := (start + index) % |ds|;
      var used := CollectSource(i, ds[i], left);
      rest, more := if used < left then left - used else 0, visited + [i];
      position := (start + index + 1) % |ds|;
    }

    /** #collect over the sources that are there. */
    method Collect(ds: seq<Source>, maximum: nat) returns (visited: seq<nat>)
      requires |dbs| == |ds| > 0
      modifies this
      ensures var start := old(position) % |ds|;
              var p := PollOnce(old(dbs), ds, start, maximum);
              && dbs == p.dbs && visited == p.visited
              && position == if visited == [] then old(position) else Around(start, |visited|, |ds|)
    {
      var left, start, index := maximum, position % |ds|, 0;
      visited := [];
      while index < PollSize(|ds|) && left > 0
        invariant index <= PollSize(|ds|) && |dbs| == |ds| && |visited| == index
        invariant PollTurns(old(dbs), ds, start, maximum, index) == Poll(dbs, left, visited)
        invariant position == if visited == [] then old(position) else Around(start, index, |ds|)
      {
        left, visited := GiveTurn(start, index, ds, left, visited);
        index := index + 1;
      }
      StopsHere(old(dbs), ds, start, maximum, index, PollSize(|ds|));
    }
  }

  /** Without a budget no further turn changes anything. */
  lemma {:induction false} StopsHere(dbs: seq<Db>, ds: seq<Source>, start: nat, maximum: nat, k: nat, n: nat)
    requires |dbs| == |ds| && start < |ds| && k <= n <= |ds|
    requires k == n || PollTurns(dbs, ds, start, maximum, k).left == 0
    ensures PollTurns(dbs, ds, start, maximum, n) == PollTurns(dbs, ds, start, maximum, k)
  {
    if k < n { StopsHere(dbs, ds, start, maximum, k, n - 1); }
  }

  /* ---------------------------------------------------------------- the rotation */

  /** The source whose turn comes after `t` others, over any number of rounds. */
  function SourceAt(position: nat, t: nat, n: nat): (i: nat)
    requires position < n
    ensures i < n
  {
    if t == 0 then position else Around(SourceAt(position, t - 1, n), 1, n)
  }

  lemma {:induction false} SourceFrom(position: nat, first: nat, t: nat, n: nat)
    requires position < n && t <= n
    ensures SourceAt(position, first + t, n) == Around(SourceAt(position, first, n), t, n)
  {
    if t > 0 { SourceFrom(position, first, t - 1, n); }
  }

  /** In any n turns in a row every one of the n sources has exactly one. */
  lemma OneTurnEach(position: nat, first: nat, n: nat, i: nat)
    requires position < n && i < n
    ensures exists t :: first <= t < first + n && SourceAt(position, t, n) == i
    ensures forall t, u | first <= t < u < first + n :: SourceAt(position, t, n) != SourceAt(position, u, n)
  {
    var at := SourceAt(position, first, n);
    var step := if at <= i then i - at else n - at + i;
    SourceFrom(position, first, step, n);
    assert SourceAt(position, first + step, n) == i;
    forall t, u | first <= t < u < first + n ensures SourceAt(position, t, n) != SourceAt(position, u, n) {
      SourceFrom(position, first, t - first, n);
      SourceFrom(position, first, u - first, n);
    }
  }

  /** The importer after some polls, and the sources that had a turn, in order. */
  datatype Polled = Polled(dbs: seq<Db>, position: nat, visited: seq<nat>)

  function After(before: Polled, p: Poll): Polled
    requires before.position < |p.dbs| && |p.visited| <= |p.dbs|
  {
    Polled(p.dbs, Around(before.position, |p.visited|, |p.dbs|), before.visited + p.visited)
  }

  function Polls(dbs: seq<Db>, ds: seq<Source>, position: nat, maximum: nat, k: nat): (p: Polled)
    requires |dbs| == |ds| && position < |ds|
    ensures |p.dbs| == |ds| && p.position < |ds|
  {
    if k == 0 then Polled(dbs, position, []) else
    var before := Polls(dbs, ds, position, maximum, k - 1);
    After(before, PollOnce(before.dbs, ds, before.position, maximum))
  }

  /** Each poll gives a turn to at least one source, and stops early only without a budget. */
  lemma PollGivesTurns(dbs: seq<Db>, ds: seq<Source>, start: nat, maximum: nat)
    requires |dbs| == |ds| && start < |ds| && maximum > 0
    ensures var p := PollOnce(dbs, ds, start, maximum);
            p.visited != [] && (|p.visited| == PollSize(|ds|) || p.left == 0)
  {
    FirstTurn(dbs, ds, start, maximum, PollSize(|ds|));
  }

  lemma {:induction false} FirstTurn(dbs: seq<Db>, ds: seq<Source>, start: nat, maximum: nat, k: nat)
    requires |dbs| == |ds| && start < |ds| && maximum > 0 && 0 < k <= |ds|
    ensures PollTurns(dbs, ds, start, maximum, k).visited != []
  {
    if k > 1 { FirstTurn(dbs, ds, start, maximum, k - 1); }
  }

  /** Over any polls the sources have their turns in rotation, whatever the turns cost; every poll
      gives at least one, and as many as fit unless its budget is used up. */
  lemma {:induction false} Rotation(dbs: seq<Db>, ds: seq<Source>, position: nat, maximum: nat, k: nat)
    requires |dbs| == |ds| && position < |ds| && maximum > 0
    ensures var p := Polls(dbs, ds, position, maximum, k);
            && |p.visited| >= k && p.position == SourceAt(position, |p.visited|, |ds|)
            && forall t | 0 <= t < |p.visited| :: p.visited[t] == SourceAt(position, t, |ds|)
  {
    if k > 0 {
      Rotation(dbs, ds, position, maximum, k - 1);
      var before, n := Polls(dbs, ds, position, maximum, k - 1), |ds|;
      PollGivesTurns(before.dbs, ds, before.position, maximum);
      RotationStep(before, PollOnce(before.dbs, ds, before.position, maximum), position, n);
    }
  }

  lemma RotationStep(before: Polled, p: Poll, position: nat, n: nat)
    requires position < n == |p.dbs| && |p.visited| <= n && before.position == SourceAt(position, |before.visited|, n)
    requires forall t | 0 <= t < |before.visited| :: before.visited[t] == SourceAt(position, t, n)
    requires forall t | 0 <= t < |p.visited| :: p.visited[t] == Around(before.position, t, n)
    ensures var after := After(before, p);
            && after.position == SourceAt(position, |after.visited|, n)
            && forall t | 0 <= t < |after.visited| :: after.visited[t] == SourceAt(position, t, n)
  {
    var done, after := |before.visited|, After(before, p);
    SourceFrom(position, done, |p.visited|, n);
    forall t | done <= t < |after.visited| ensures after.visited[t] == SourceAt(position, t, n) {
      SourceFrom(position, done, t - done, n);
      assert after.visited[t] == p.visited[t - done];
    }
  }

  /** So n polls give every one of n sources a turn. */
  lemma EveryoneHasATurn(dbs: seq<Db>, ds: seq<Source>, position: nat, maximum: nat, k: nat, i: nat)
    requires |dbs| == |ds| && position < |ds| && maximum > 0 && i < |ds| <= k
    ensures i in Polls(dbs, ds, position, maximum, k).visited
  {
    Rotation(dbs, ds, position, maximum, k);
    OneTurnEach(position, 0, |ds|, i);
    var t :| 0 <= t < |ds| && SourceAt(position, t, |ds|) == i;
    assert Polls(dbs, ds, position, maximum, k).visited[t] == i;
  }

  /* ------------------------------------------- what many polls with one budget import */

  /** What a source has read again on every turn, and costs for being unusable. */
  function BlockersOf(db: Db, d: Source): set<nat> {
    if d.None? then {0} else set n | n in d.value.listed && Blocking(db, d.value, n)
  }

  function PassingOf(db: Db, d: Source): set<nat> {
    if d.None? then {} else Passing(db, d.value)
  }

  function AllBlockers(dbs: seq<Db>, ds: seq<Source>): set<(nat, nat)>
    requires |dbs| == |ds|
  {
    set i, n | 0 <= i < |ds| && n in BlockersOf(dbs[i], ds[i]) :: (i, n)
  }

  function AllPassing(dbs: seq<Db>, ds: seq<Source>): set<(nat, nat)>
    requires |dbs| == |ds|
  {
    set i, n | 0 <= i < |ds| && n in PassingOf(dbs[i], ds[i]) :: (i, n)
  }

  /** Nothing due is pending in any source. */
  ghost predicate Drained(dbs: seq<Db>, ds: seq<Source>)
    requires |dbs| == |ds|
  {
    forall i | 0 <= i < |ds| && ds[i].Some? :: DuePending(dbs[i], ds[i].value) == {}
  }

  lemma TurnReads(db: Db, d: Source, left: nat)
    requires left > 0 && (d.Some? ==> Ascending(d.value.listed))
    ensures var read, after := ReadBy(db, d, left), Turn(db, d, left);
            && |read| <= left && |SetOf(read)| == |read|
            && BlockersOf(after, d) == BlockersOf(db, d) && PassingOf(after, d) <= PassingOf(db, d)
            && SetOf(read) <= BlockersOf(db, d) + (PassingOf(db, d) - PassingOf(after, d))
            && (|read| < left ==> PassingOf(after, d) == {})
  {
    var read := ReadBy(db, d, left);
    if d.Some? {
      var s, after := Shared(d.value, left), Turn(db, d, left);
      assert Queue(db, s) == Queue(db, d.value) && Queue(after, s) == Queue(after, d.value);
      InQueue(db, s);
      InQueue(after, s);
      AfterPass(db, s);
      AscendingSize(read);
      forall n ensures Blocking(after, d.value, n) <==> Blocking(db, d.value, n) {
        BlockingStays(db, s, n);
        assert Blocking(after, s, n) == Blocking(after, d.value, n) && Blocking(db, s, n) == Blocking(db, d.value, n);
      }
      TurnQueue(db, after, s, read);
    } else {
      assert SetOf(read) == {0};
    }
  }

  lemma TurnQueue(db: Db, after: Db, d: Still, read: seq<nat>)
    requires Ascending(d.listed) && after == Pass(db, d) && read == ReadFirst(db, d.listed, d.w, d.budget)
    ensures forall n | n in Queue(after, d) :: n in Queue(db, d)
    ensures forall n | n in read :: n in Queue(db, d) && (!Blocking(db, d, n) ==> n !in Queue(after, d))
    ensures |read| < d.budget ==> forall n | n in Queue(after, d) :: Blocking(db, d, n)
  {
    AfterPass(db, d);
    InQueue(db, d);
    InQueue(after, d);
  }

  function PairsOf(i: nat, s: set<nat>): set<(nat, nat)> {
    set n | n in s :: (i, n)
  }

  lemma {:induction false} PairsSize(i: nat, s: set<nat>)
    ensures |PairsOf(i, s)| == |s|
  {
    if s != {} {
      var n :| n in s;
      PairsSize(i, s - {n});
      assert PairsOf(i, s) == PairsOf(i, s - {n}) + {(i, n)};
    }
  }

  /** Everything that the first `k` turns of a poll read. */
  function PollRead(dbs: seq<Db>, ds: seq<Source>, start: nat, maximum: nat, k: nat): set<(nat, nat)>
    requires |dbs| == |ds| && start < |ds| && k <= |ds|
  {
    if k == 0 then {} else
    var p := PollTurns(dbs, ds, start, maximum, k - 1);
    PollRead(dbs, ds, start, maximum, k - 1) + if p.left == 0 then {} else TurnRead(p, ds, Around(start, k - 1, |ds|))
  }

  function TurnRead(p: Poll, ds: seq<Source>, i: nat): set<(nat, nat)>
    requires |p.dbs| == |ds| && i < |ds|
  {
    PairsOf(i, SetOf(ReadBy(p.dbs[i], ds[i], p.left)))
  }

  /** What a poll has read is paid for, and is either gone from the queues for good or a blocker. */
  predicate PollPaid(dbs: seq<Db>, ds: seq<Source>, maximum: nat, p: Poll, read: set<(nat, nat)>)
    requires |dbs| == |ds| == |p.dbs|
  {
    && p.left + |read| == maximum && (forall r | r in read :: r.0 in p.visited)
    && AllBlockers(p.dbs, ds) == AllBlockers(dbs, ds) && AllPassing(p.dbs, ds) <= AllPassing(dbs, ds)
    && read <= AllBlockers(dbs, ds) + (AllPassing(dbs, ds) - AllPassing(p.dbs, ds))
  }

  /** With budget left, the sources visited hold nothing but blockers. */
  predicate VisitedEmpty(ds: seq<Source>, p: Poll)
    requires |ds| == |p.dbs|
  {
    p.left > 0 ==> forall i | i in p.visited && i < |ds| :: PassingOf(p.dbs[i], ds[i]) == {}
  }

  lemma BlockersIn(dbs: seq<Db>, ds: seq<Source>, i: nat)
    requires |dbs| == |ds| && i < |ds|
    ensures forall n :: (i, n) in AllBlockers(dbs, ds) <==> n in BlockersOf(dbs[i], ds[i])
    ensures forall n :: (i, n) in AllPassing(dbs, ds) <==> n in PassingOf(dbs[i], ds[i])
  {
  }

  lemma SourceTurn(dbs: seq<Db>, ds: seq<Source>, i: nat, db: Db)
    requires |dbs| == |ds| && i < |ds| && BlockersOf(db, ds[i]) == BlockersOf(dbs[i], ds[i])
    requires PassingOf(db, ds[i]) <= PassingOf(dbs[i], ds[i])
    ensures AllBlockers(dbs[i := db], ds) == AllBlockers(dbs, ds) && AllPassing(dbs[i := db], ds) <= AllPassing(dbs, ds)
  {
  }

  /** The pairs that one more source has read. */
  lemma MorePairs(dbs: seq<Db>, ds: seq<Source>, i: nat, db: Db, more: set<nat>)
    requires |dbs| == |ds| && i < |ds|
    requires more <= BlockersOf(dbs[i], ds[i]) + (PassingOf(dbs[i], ds[i]) - PassingOf(db, ds[i]))
    ensures PairsOf(i, more) <= AllBlockers(dbs, ds) + (AllPassing(dbs, ds) - AllPassing(dbs[i := db], ds))
  {
    BlockersIn(dbs, ds, i);
    BlockersIn(dbs[i := db], ds, i);
  }

  lemma DisjointSize(a: set<(nat, nat)>, b: set<(nat, nat)>)
    requires a !! b
    ensures |a + b| == |a| + |b|
  {
  }

  lemma TurnKeepsPaid(dbs: seq<Db>, ds: seq<Source>, maximum: nat, p: Poll, read: set<(nat, nat)>, i: nat, more: seq<nat>, db: Db)
    requires |dbs| == |ds| == |p.dbs| && i < |ds| && i !in p.visited && PollPaid(dbs, ds, maximum, p, read)
    requires BlockersOf(db, ds[i]) == BlockersOf(p.dbs[i], ds[i]) && PassingOf(db, ds[i]) <= PassingOf(p.dbs[i], ds[i])
    requires SetOf(more) <= BlockersOf(p.dbs[i], ds[i]) + (PassingOf(p.dbs[i], ds[i]) - PassingOf(db, ds[i]))
    requires |SetOf(more)| == |more| <= p.left
    ensures PollPaid(dbs, ds, maximum, Poll(p.dbs[i := db], p.left - |more|, p.visited + [i]), read + PairsOf(i, SetOf(more)))
  {
    var pairs := PairsOf(i, SetOf(more));
    SourceTurn(p.dbs, ds, i, db);
    MorePairs(p.dbs, ds, i, db, SetOf(more));
    PairsSize(i, SetOf(more));
    assert read !! pairs;
    DisjointSize(read, pairs);
  }

  lemma TurnKeepsEmpty(ds: seq<Source>, p: Poll, i: nat, db: Db, left: nat)
    requires |ds| == |p.dbs| && i < |ds| && i !in p.visited && p.left > 0 && VisitedEmpty(ds, p)
    requires left > 0 ==> PassingOf(db, ds[i]) == {}
    ensures VisitedEmpty(ds, Poll(p.dbs[i := db], left, p.visited + [i]))
  {
  }

  lemma TurnKeeps(dbs: seq<Db>, ds: seq<Source>, maximum: nat, p: Poll, read: set<(nat, nat)>, i: nat)
    requires SourcesOk(dbs, ds) && |p.dbs| == |ds| && i < |ds| && i !in p.visited && p.left > 0
    requires PollPaid(dbs, ds, maximum, p, read) && VisitedEmpty(ds, p)
    ensures PollPaid(dbs, ds, maximum, Given(p, ds, i), read + TurnRead(p, ds, i))
    ensures VisitedEmpty(ds, Given(p, ds, i))
  {
    var more, db := ReadBy(p.dbs[i], ds[i], p.left), Turn(p.dbs[i], ds[i], p.left);
    TurnReads(p.dbs[i], ds[i], p.left);
    TurnKeepsPaid(dbs, ds, maximum, p, read, i, more, db);
    TurnKeepsEmpty(ds, p, i, db, p.left - |more|);
  }

  predicate PollOk(dbs: seq<Db>, ds: seq<Source>, maximum: nat, p: Poll, read: set<(nat, nat)>)
    requires |dbs| == |ds| == |p.dbs|
  {
    PollPaid(dbs, ds, maximum, p, read) && VisitedEmpty(ds, p)
  }

  lemma NoTurnYet(dbs: seq<Db>, ds: seq<Source>, maximum: nat)
    requires |dbs| == |ds|
    ensures PollOk(dbs, ds, maximum, Poll(dbs, maximum, []), {})
  {
  }

  lemma MaybeTurnKeeps(dbs: seq<Db>, ds: seq<Source>, maximum: nat, p: Poll, read: set<(nat, nat)>, i: nat, q: Poll, more: set<(nat, nat)>)
    requires SourcesOk(dbs, ds) && |p.dbs| == |ds| && i < |ds| && i !in p.visited && PollOk(dbs, ds, maximum, p, read)
    requires q == if p.left == 0 then p else Given(p, ds, i)
    requires more == read + if p.left == 0 then {} else TurnRead(p, ds, i)
    ensures PollOk(dbs, ds, maximum, q, more)
  {
    if p.left > 0 { TurnKeeps(dbs, ds, maximum, p, read, i); } else { assert more == read; }
  }

  /** The next turn is that of a source not visited yet. */
  lemma NextTurn(dbs: seq<Db>, ds: seq<Source>, start: nat, maximum: nat, k: nat)
    requires |dbs| == |ds| && start < |ds| && k < |ds|
    ensures var p, i := PollTurns(dbs, ds, start, maximum, k), Around(start, k, |ds|);
            && i !in p.visited
            && PollTurns(dbs, ds, start, maximum, k + 1) == (if p.left == 0 then p else Given(p, ds, i))
            && PollRead(dbs, ds, start, maximum, k + 1) ==
               PollRead(dbs, ds, start, maximum, k) + if p.left == 0 then {} else TurnRead(p, ds, i)
  {
    var p := PollTurns(dbs, ds, start, maximum, k);
    forall t | 0 <= t < |p.visited| ensures p.visited[t] != Around(start, k, |ds|) {}
  }

  lemma {:induction false} PollKeeps(dbs: seq<Db>, ds: seq<Source>, start: nat, maximum: nat, k: nat) returns (p: Poll, read: set<(nat, nat)>)
    requires SourcesOk(dbs, ds) && start < |ds| && k <= |ds|
    ensures p == PollTurns(dbs, ds, start, maximum, k) && read == PollRead(dbs, ds, start, maximum, k)
    ensures PollOk(dbs, ds, maximum, p, read)
  {
    if k == 0 {
      p, read := Poll(dbs, maximum, []), {};
      NoTurnYet(dbs, ds, maximum);
    } else {
      var q, before := PollKeeps(dbs, ds, start, maximum, k - 1);
      NextTurn(dbs, ds, start, maximum, k - 1);
      var i := Around(start, k - 1, |ds|);
      p := if q.left == 0 then q else Given(q, ds, i);
      read := before + if q.left == 0 then {} else TurnRead(q, ds, i);
      MaybeTurnKeeps(dbs, ds, maximum, q, before, i, p, read);
    }
  }

  /** With fewer blockers in all sources together than the budget, a poll that takes nothing out of any
      queue for good finds nothing else in those it visits. */
  lemma PollProgress(dbs: seq<Db>, ds: seq<Source>, start: nat, maximum: nat)
    requires SourcesOk(dbs, ds) && start < |ds| && |AllBlockers(dbs, ds)| < maximum
    ensures var p := PollOnce(dbs, ds, start, maximum);
            && AllBlockers(p.dbs, ds) == AllBlockers(dbs, ds) && AllPassing(p.dbs, ds) <= AllPassing(dbs, ds)
            && (AllPassing(p.dbs, ds) == AllPassing(dbs, ds) ==>
                  forall i | i in p.visited :: i < |ds| && PassingOf(dbs[i], ds[i]) == {})
  {
    var p, read := PollKeeps(dbs, ds, start, maximum, PollSize(|ds|));
    ProgressOf(dbs, ds, maximum, p, read);
  }

  lemma ProgressOf(dbs: seq<Db>, ds: seq<Source>, maximum: nat, p: Poll, read: set<(nat, nat)>)
    requires |dbs| == |ds| == |p.dbs| && |AllBlockers(dbs, ds)| < maximum && (forall i | i in p.visited :: i < |ds|)
    requires PollOk(dbs, ds, maximum, p, read)
    ensures AllPassing(p.dbs, ds) == AllPassing(dbs, ds) ==> forall i | i in p.visited :: PassingOf(dbs[i], ds[i]) == {}
  {
    if AllPassing(p.dbs, ds) == AllPassing(dbs, ds) {
      SubsetSize(read, AllBlockers(dbs, ds));
      forall i | i in p.visited ensures PassingOf(dbs[i], ds[i]) == {} {
        SamePassing(dbs, p.dbs, ds, i);
      }
    }
  }

  lemma SamePassing(dbs: seq<Db>, after: seq<Db>, ds: seq<Source>, i: nat)
    requires |dbs| == |ds| == |after| && i < |ds| && AllPassing(after, ds) == AllPassing(dbs, ds)
    ensures PassingOf(after[i], ds[i]) == PassingOf(dbs[i], ds[i])
  {
    forall n ensures n in PassingOf(after[i], ds[i]) <==> n in PassingOf(dbs[i], ds[i]) {
      assert (i, n) in AllPassing(after, ds) <==> n in PassingOf(after[i], ds[i]);
      assert (i, n) in AllPassing(dbs, ds) <==> n in PassingOf(dbs[i], ds[i]);
    }
  }

  /** The first poll, and then the others. */
  lemma {:induction false} PollsOn(dbs: seq<Db>, ds: seq<Source>, position: nat, maximum: nat, k: nat)
    requires |dbs| == |ds| && position < |ds|
    ensures var first := Polls(dbs, ds, position, maximum, 1);
            var a, b := Polls(dbs, ds, position, maximum, k + 1), Polls(first.dbs, ds, first.position, maximum, k);
            a.dbs == b.dbs && a.position == b.position
  {
    if k > 0 { PollsOn(dbs, ds, position, maximum, k - 1); }
  }

  lemma FirstPoll(dbs: seq<Db>, ds: seq<Source>, position: nat, maximum: nat)
    requires |dbs| == |ds| && position < |ds|
    ensures Polls(dbs, ds, position, maximum, 1) == After(Polled(dbs, position, []), PollOnce(dbs, ds, position, maximum))
  {
    assert Polls(dbs, ds, position, maximum, 0) == Polled(dbs, position, []);
  }

  /** A poll takes something out of the queues for good, or has not come to a source that holds more
      than blockers, and is closer to it afterwards. */
  lemma PollComesCloser(dbs: seq<Db>, ds: seq<Source>, position: nat, maximum: nat, ahead: nat)
    requires SourcesOk(dbs, ds) && position < |ds| && |AllBlockers(dbs, ds)| < maximum
    requires ahead < |ds| && var i := Around(position, ahead, |ds|); PassingOf(dbs[i], ds[i]) != {}
    ensures var after, n := Polls(dbs, ds, position, maximum, 1), |ds|;
            && AllBlockers(after.dbs, ds) == AllBlockers(dbs, ds) && |AllPassing(after.dbs, ds)| <= |AllPassing(dbs, ds)|
            && (|AllPassing(after.dbs, ds)| == |AllPassing(dbs, ds)| ==>
                  exists closer | 0 <= closer < ahead ::
                    var i := Around(after.position, closer, n); PassingOf(after.dbs[i], ds[i]) != {})
  {
    var n, p := |ds|, PollOnce(dbs, ds, position, maximum);
    FirstPoll(dbs, ds, position, maximum);
    PollGivesTurns(dbs, ds, position, maximum);
    PollProgress(dbs, ds, position, maximum);
    SubsetSize(AllPassing(p.dbs, ds), AllPassing(dbs, ds));
    if AllPassing(p.dbs, ds) == AllPassing(dbs, ds) {
      var i := Around(position, ahead, n);
      InVisited(p.visited, position, n, ahead);
      SamePassing(dbs, p.dbs, ds, i);
      assert Around(Around(position, |p.visited|, n), ahead - |p.visited|, n) == i;
    } else {
      Shrunk(AllPassing(p.dbs, ds), AllPassing(dbs, ds));
    }
  }

  lemma InVisited(visited: seq<nat>, at: nat, n: nat, ahead: nat)
    requires at < n && |visited| <= n && ahead < n && forall t | 0 <= t < |visited| :: visited[t] == Around(at, t, n)
    ensures ahead < |visited| ==> Around(at, ahead, n) in visited
  {
    if ahead < |visited| { assert visited[ahead] == Around(at, ahead, n); }
  }

  lemma Shrunk(a: set<(nat, nat)>, b: set<(nat, nat)>)
    requires a < b
    ensures |a| < |b|
  {
    var x :| x in b && x !in a;
    SubsetSize(a, b - {x});
  }

  /** Some polls later everything is imported; `ahead` turns from now comes a source that holds more than blockers. */
  lemma {:induction false} DrainsFrom(dbs: seq<Db>, ds: seq<Source>, position: nat, maximum: nat, ahead: nat) returns (k: nat)
    requires SourcesOk(dbs, ds) && position < |ds| && |AllBlockers(dbs, ds)| < maximum
    requires ahead < |ds| && var i := Around(position, ahead, |ds|); PassingOf(dbs[i], ds[i]) != {}
    ensures AllPassing(Polls(dbs, ds, position, maximum, k).dbs, ds) == {}
    decreases |AllPassing(dbs, ds)|, ahead
  {
    var after := Polls(dbs, ds, position, maximum, 1);
    PollComesCloser(dbs, ds, position, maximum, ahead);
    if |AllPassing(after.dbs, ds)| == |AllPassing(dbs, ds)| {
      var closer :| 0 <= closer < ahead && var i := Around(after.position, closer, |ds|); PassingOf(after.dbs[i], ds[i]) != {};
      k := DrainsFrom(after.dbs, ds, after.position, maximum, closer);
    } else {
      k := Drains(after.dbs, ds, after.position, maximum);
    }
    PollsOn(dbs, ds, position, maximum, k);
    k := k + 1;
  }

  lemma {:induction false} Drains(dbs: seq<Db>, ds: seq<Source>, position: nat, maximum: nat) returns (k: nat)
    requires SourcesOk(dbs, ds) && position < |ds| && |AllBlockers(dbs, ds)| < maximum
    ensures AllPassing(Polls(dbs, ds, position, maximum, k).dbs, ds) == {}
    decreases |AllPassing(dbs, ds)|, |ds|
  {
    if AllPassing(dbs, ds) == {} {
      k := 0;
    } else {
      var x :| x in AllPassing(dbs, ds);
      var ahead := if position <= x.0 then x.0 - position else |ds| - position + x.0;
      assert Around(position, ahead, |ds|) == x.0;
      k := DrainsFrom(dbs, ds, position, maximum, ahead);
    }
  }

  /** Polls over sources at rest import everything that is due in any of them when all their blockers
      together, counting one for each unusable source, are fewer than the budget of a poll. */
  lemma PollsImportAll(dbs: seq<Db>, ds: seq<Source>, position: nat, maximum: nat)
    requires SourcesOk(dbs, ds) && position < |ds| && |AllBlockers(dbs, ds)| < maximum
    ensures exists k :: Drained(Polls(dbs, ds, position, maximum, k).dbs, ds)
  {
    var k := Drains(dbs, ds, position, maximum);
    var after := Polls(dbs, ds, position, maximum, k).dbs;
    forall i | 0 <= i < |ds| && ds[i].Some? ensures DuePending(after[i], ds[i].value) == {} {
      BlockersIn(after, ds, i);
      assert DuePending(after[i], ds[i].value) <= PassingOf(after[i], ds[i]);
    }
    assert Drained(after, ds);
  }

  /* ------------------------------------------------- one source can starve another one */

  /** The first of two sources reads all but one of the budget on every poll, all of it blockers, and
      a blocker comes first in the second one. */
  predicate Crowded(dbs: seq<Db>, ds: seq<Source>, maximum: nat, p: nat) {
    && |ds| == 2 && SourcesOk(dbs, ds) && ds[0].Some? && ds[1].Some? && maximum > 0
    && |Queue(dbs[0], ds[0].value)| == maximum - 1
    && (forall n | n in Queue(dbs[0], ds[0].value) :: Blocking(dbs[0], ds[0].value, n))
    && p in DuePending(dbs[1], ds[1].value) && BlockersBefore(dbs[1], ds[1].value, p) != {}
  }

  lemma CrowdedPoll(dbs: seq<Db>, ds: seq<Source>, maximum: nat, p: nat)
    requires Crowded(dbs, ds, maximum, p)
    ensures var after := PollOnce(dbs, ds, 0, maximum);
            Crowded(after.dbs, ds, maximum, p) && |after.visited| == 2
  {
    var a, b := ds[0].value, ds[1].value;
    var first := PollTurns(dbs, ds, 0, maximum, 1);
    assert PollTurns(dbs, ds, 0, maximum, 0) == Poll(dbs, maximum, []);
    FullTurn(dbs[0], Shared(a, maximum));
    SameShared(dbs[0], a, maximum);
    SameShared(Pass(dbs[0], Shared(a, maximum)), a, maximum);
    assert first.left == 1 && first.dbs[1] == dbs[1];
    SameShared(dbs[1], b, 1);
    SameShared(Pass(dbs[1], Shared(b, 1)), b, 1);
    StarvedStays(dbs[1], Shared(b, 1), p);
  }

  /** Nothing in a queue depends on the budget. */
  lemma SameShared(db: Db, d: Still, left: nat)
    ensures Queue(db, Shared(d, left)) == Queue(db, d) && DuePending(db, Shared(d, left)) == DuePending(db, d)
    ensures forall n :: Blocking(db, Shared(d, left), n) == Blocking(db, d, n)
    ensures forall p :: BlockersBefore(db, Shared(d, left), p) == BlockersBefore(db, d, p)
  {
    forall p ensures BlockersBefore(db, Shared(d, left), p) == BlockersBefore(db, d, p) {
      assert forall n :: Blocking(db, Shared(d, left), n) == Blocking(db, d, n);
    }
  }

  /** Reading a queue of blockers to its end leaves it as it was. */
  lemma FullTurn(db: Db, d: Still)
    requires Ascending(d.listed) && |Queue(db, d)| < d.budget && forall n | n in Queue(db, d) :: Blocking(db, d, n)
    ensures Queue(Pass(db, d), d) == Queue(db, d)
    ensures forall n | n in Queue(db, d) :: Blocking(Pass(db, d), d, n)
    ensures ReadFirst(db, d.listed, d.w, d.budget) == Queue(db, d)
  {
    var after := Pass(db, d);
    AfterPass(db, d);
    InQueue(db, d);
    InQueue(after, d);
    forall n ensures Blocking(after, d, n) <==> Blocking(db, d, n) { BlockingStays(db, d, n); }
    assert SetOf(Queue(after, d)) == SetOf(Queue(db, d));
    AscendingSize(Queue(after, d));
    AscendingSize(Queue(db, d));
    SameSorted(Queue(after, d), Queue(db, d));
  }

  lemma {:induction false} SameSorted(a: seq<nat>, b: seq<nat>)
    requires Ascending(a) && Ascending(b) && SetOf(a) == SetOf(b) && |a| == |b|
    ensures a == b
  {
    if a != [] {
      var x, y := a[|a| - 1], b[|b| - 1];
      assert x in SetOf(b) && y in SetOf(a);
      SetOfFront(a);
      SetOfFront(b);
      SameSorted(a[..|a| - 1], b[..|b| - 1]);
      assert a == a[..|a| - 1] + [x] && b == b[..|b| - 1] + [y];
    }
  }

  lemma SetOfFront(a: seq<nat>)
    requires Ascending(a) && a != []
    ensures SetOf(a[..|a| - 1]) == SetOf(a) - {a[|a| - 1]}
  {
    assert a == a[..|a| - 1] + [a[|a| - 1]];
    SetOfMore(a[..|a| - 1], a[|a| - 1]);
  }

  /** The bound is sharp: when the blockers of one source use all but one of the budget, a due event
      of another one with a single blocker before it is left out by every poll. */
  lemma {:induction false} CrowdedForever(dbs: seq<Db>, ds: seq<Source>, maximum: nat, p: nat, k: nat)
    requires Crowded(dbs, ds, maximum, p)
    ensures var after := Polls(dbs, ds, 0, maximum, k);
            after.position == 0 && Crowded(after.dbs, ds, maximum, p)
  {
    if k > 0 {
      CrowdedForever(dbs, ds, maximum, p, k - 1);
      CrowdedAfter(Polls(dbs, ds, 0, maximum, k - 1), ds, maximum, p);
    }
  }

  lemma CrowdedAfter(before: Polled, ds: seq<Source>, maximum: nat, p: nat)
    requires Crowded(before.dbs, ds, maximum, p) && before.position == 0
    ensures var after := After(before, PollOnce(before.dbs, ds, 0, maximum)); Crowded(after.dbs, ds, maximum, p) && after.position == 0
  {
    CrowdedPoll(before.dbs, ds, maximum, p);
  }
}
