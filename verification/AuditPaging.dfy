/** Keyset paging over the core audit chain and the activity log, as in src/audit/query.ts.
    A row is its position: time, source and sequence. Its other columns never change once
    written, so a filter is a function of the row. */
module AuditPaging {
  import opened Options
  import opened Sets

  datatype Source = Core | Activity

  datatype Row = Row(at: nat, source: Source, sequence: nat)

  datatype Snapshot = Snapshot(core: nat, activity: nat, capturedAt: nat)

  const RETENTION: nat := 30 * 86_400_000

  /** Descending by time, then source, then sequence: `a` is shown before `b`. */
  predicate Before(a: Row, b: Row) {
    a.at > b.at || (a.at == b.at && ((a.source.Core? && b.source.Activity?) ||
                                     (a.source == b.source && a.sequence > b.sequence)))
  }

  predicate InOrder(q: seq<Row>) {
    forall i, j | 0 <= i < j < |q| :: Before(q[i], q[j])
  }

  function Elements(q: seq<Row>): set<Row> {
    set r | r in q
  }

  /** ORDER BY ... LIMIT k. */
  predicate IsTop(rows: set<Row>, k: nat, q: seq<Row>) {
    && InOrder(q) && Elements(q) <= rows
    && |q| == (if |rows| < k then |rows| else k)
    && forall r, x | r in rows && r !in q && x in q :: Before(x, r)
  }

  ghost function First(rows: set<Row>): (r: Row)
    requires rows != {}
    ensures r in rows && forall x | x in rows && x != r :: Before(r, x)
  {
    var r :| r in rows;
    if rows == {r} then r else
    var best := First(rows - {r});
    assert forall x | x in rows && x != r :: x in rows - {r};
    if Before(r, best) then r else best
  }

  ghost function Top(rows: set<Row>, k: nat): (q: seq<Row>)
    ensures IsTop(rows, k, q)
  {
    if k == 0 || rows == {} then [] else
    var r := First(rows);
    [r] + Top(rows - {r}, k - 1)
  }

  lemma ElementsSize(q: seq<Row>)
    requires InOrder(q)
    ensures |Elements(q)| == |q|
  {
    if q != [] {
      var front := q[..|q| - 1];
      ElementsSize(front);
      assert Elements(q) == Elements(front) + {q[|q| - 1]};
    }
  }

  lemma TopIsUnique(rows: set<Row>, k: nat, p: seq<Row>, q: seq<Row>)
    requires IsTop(rows, k, p) && IsTop(rows, k, q)
    ensures p == q
  {
    if p != q {
      MinimalDifference(p, q);
      var i :| 0 <= i < |p| && p[i] != q[i] && forall j | 0 <= j < i :: p[j] == q[j];
      DifferenceIsLater(rows, k, p, q, i);
      DifferenceIsLater(rows, k, q, p, i);
    }
  }

  lemma DifferenceIsLater(rows: set<Row>, k: nat, p: seq<Row>, q: seq<Row>, i: nat)
    requires IsTop(rows, k, p) && IsTop(rows, k, q)
    requires i < |p| && p[i] != q[i] && forall j | 0 <= j < i :: p[j] == q[j]
    ensures Before(q[i], p[i])
  {
    assert p[i] in Elements(p);
  }

  lemma MinimalDifference(p: seq<Row>, q: seq<Row>)
    requires |p| == |q| && p != q
    ensures exists i :: 0 <= i < |p| && p[i] != q[i] && forall j | 0 <= j < i :: p[j] == q[j]
  {
    var i := 0;
    while p[i] == q[i]
      invariant 0 <= i < |p|
      invariant forall j | 0 <= j < i :: p[j] == q[j]
      invariant exists j :: i <= j < |p| && p[j] != q[j]
      decreases |p| - i
    {
      i := i + 1;
    }
  }

  /** Limiting each source to one page before merging loses nothing. */
  lemma MergedTop(a: set<Row>, b: set<Row>, k: nat)
    ensures Top(Elements(Top(a, k)) + Elements(Top(b, k)), k) == Top(a + b, k)
  {
    var p, q := Top(a, k), Top(b, k);
    var pool := Elements(p) + Elements(q);
    var m := Top(pool, k);
    ElementsSize(p);
    ElementsSize(q);
    ElementsSize(m);
    forall r, x | r in a + b && r !in m && x in m ensures Before(x, r) {
      if r in pool {
      } else if r in a {
        DroppedIsLater(a, k, p, pool, m, r, x);
      } else {
        DroppedIsLater(b, k, q, pool, m, r, x);
      }
    }
    if |pool| < k {
      SubsetSize(Elements(p), pool);
      SubsetSize(Elements(q), pool);
      TopCovers(a, k);
      TopCovers(b, k);
      assert pool == a + b;
    } else {
      SubsetSize(pool, a + b);
    }
    TopIsUnique(a + b, k, m, Top(a + b, k));
  }

  lemma TopCovers(rows: set<Row>, k: nat)
    requires |Elements(Top(rows, k))| < k
    ensures Elements(Top(rows, k)) == rows
  {
    ElementsSize(Top(rows, k));
    assert |rows - Elements(Top(rows, k))| == 0;
  }

  /** A row that its own source already dropped comes after everything that was selected. */
  lemma DroppedIsLater(a: set<Row>, k: nat, p: seq<Row>, pool: set<Row>, m: seq<Row>, r: Row, x: Row)
    requires IsTop(a, k, p) && Elements(p) <= pool && IsTop(pool, k, m)
    requires r in a && r !in p && r !in m && x in m
    ensures Before(x, r)
  {
    ElementsSize(p);
    ElementsSize(m);
    SubsetSize(Elements(p) + {r}, a);
    if !Before(x, r) {
      forall y | y in p ensures y in m && y != x {
        assert Before(y, r);
        assert y in pool;
      }
      assert Elements(p) + {x} <= Elements(m);
      SubsetSize(Elements(p) + {x}, Elements(m));
    }
  }

  /* ---------------------------------------------------------------- one page */

  /** The keyset condition that a source gets from the cursor position. */
  predicate Beyond(r: Row, p: Row) {
    if r.source == p.source then r.at < p.at || (r.at == p.at && r.sequence < p.sequence)
    else if r.source.Activity? then r.at <= p.at
    else r.at < p.at
  }

  /** The three spellings of that condition are one: come after the cursor. */
  lemma KeysetIsOrder(r: Row, p: Row)
    ensures Beyond(r, p) <==> Before(p, r)
  {
  }

  function Cutoff(now: nat, capturedAt: nat): nat {
    var latest := if now < capturedAt then capturedAt else now;
    if latest < RETENTION then 0 else latest - RETENTION
  }

  /** In the captured snapshot, matching the filter and not expired. */
  predicate Visible(keep: Row -> bool, s: Snapshot, now: nat, r: Row) {
    && keep(r)
    && r.sequence <= (if r.source.Core? then s.core else s.activity)
    && (r.source.Activity? ==> Cutoff(now, s.capturedAt) <= r.at)
  }

  function Selected(db: set<Row>, keep: Row -> bool, s: Snapshot, now: nat, position: Option<Row>, source: Source): set<Row> {
    set r | r in db && r.source == source && Visible(keep, s, now, r) && (position.Some? ==> Beyond(r, position.value))
  }

  /** selectRows: each source is ordered and limited alone, then both are merged and limited. */
  ghost function SelectRows(db: set<Row>, keep: Row -> bool, s: Snapshot, now: nat, position: Option<Row>, limit: nat): seq<Row> {
    Top(Elements(Top(Selected(db, keep, s, now, position, Core), limit)) +
        Elements(Top(Selected(db, keep, s, now, position, Activity), limit)), limit)
  }

  lemma SelectRowsIsTop(db: set<Row>, keep: Row -> bool, s: Snapshot, now: nat, position: Option<Row>, limit: nat)
    ensures IsTop(Seen(Visit(db, now), keep, s, position), limit, SelectRows(db, keep, s, now, position, limit))
  {
    MergedTop(Selected(db, keep, s, now, position, Core), Selected(db, keep, s, now, position, Activity), limit);
    SourcesTogether(db, keep, s, now, position);
  }

  lemma SourcesTogether(db: set<Row>, keep: Row -> bool, s: Snapshot, now: nat, position: Option<Row>)
    ensures Seen(Visit(db, now), keep, s, position) ==
            Selected(db, keep, s, now, position, Core) + Selected(db, keep, s, now, position, Activity)
  {
    forall r | r in db && position.Some? ensures Beyond(r, position.value) <==> Before(position.value, r) {
      KeysetIsOrder(r, position.value);
    }
  }

  datatype Page = Page(data: seq<Row>, next: Option<Row>)

  /** queryAuditEvents: one row more than the page decides whether there is a next one. */
  ghost function QueryPage(db: set<Row>, keep: Row -> bool, s: Snapshot, now: nat, position: Option<Row>, limit: nat): Page
    requires limit > 0
  {
    var rows := SelectRows(db, keep, s, now, position, limit + 1);
    if |rows| > limit then Page(rows[..limit], Some(rows[limit - 1])) else Page(rows, None)
  }

  /* ---------------------------------------------------------------- a walk over all pages */

  /** The database and the clock when one page was asked for. */
  datatype Visit = Visit(db: set<Row>, now: nat)

  /** Everything a reader collects by following the cursor. */
  ghost function Walk(visits: seq<Visit>, keep: Row -> bool, s: Snapshot, position: Option<Row>, limit: nat): seq<Row>
    requires limit > 0
  {
    if visits == [] then [] else
    var page := QueryPage(visits[0].db, keep, s, visits[0].now, position, limit);
    page.data + if page.next.None? then [] else Walk(visits[1..], keep, s, page.next, limit)
  }

  /** The reader went on until a page had no next cursor. */
  ghost predicate Finished(visits: seq<Visit>, keep: Row -> bool, s: Snapshot, position: Option<Row>, limit: nat)
    requires limit > 0
  {
    visits != [] &&
    var page := QueryPage(visits[0].db, keep, s, visits[0].now, position, limit);
    page.next.None? || Finished(visits[1..], keep, s, page.next, limit)
  }

  /** A row of the snapshot that no page found deleted or expired. */
  predicate Remains(visits: seq<Visit>, keep: Row -> bool, s: Snapshot, r: Row) {
    forall v | v in visits :: r in v.db && Visible(keep, s, v.now, r)
  }

  predicate After(position: Option<Row>, r: Row) {
    position.Some? ==> Before(position.value, r)
  }

  /** What a page selects from. */
  function Seen(v: Visit, keep: Row -> bool, s: Snapshot, position: Option<Row>): set<Row> {
    set r | r in v.db && Visible(keep, s, v.now, r) && (position.Some? ==> Before(position.value, r))
  }

  /** What the collected rows are, from any position on. */
  ghost predicate Exact(all: seq<Row>, visits: seq<Visit>, keep: Row -> bool, s: Snapshot, position: Option<Row>) {
    && InOrder(all)
    && (forall r | r in all :: After(position, r) && exists v :: v in visits && r in v.db && Visible(keep, s, v.now, r))
    && (forall r | Remains(visits, keep, s, r) && After(position, r) :: r in all)
  }

  lemma LastPage(visits: seq<Visit>, keep: Row -> bool, s: Snapshot, position: Option<Row>, limit: nat, rows: seq<Row>)
    requires visits != [] && IsTop(Seen(visits[0], keep, s, position), limit + 1, rows) && |rows| <= limit
    ensures Exact(rows, visits, keep, s, position)
  {
    PageHoldsAll(Seen(visits[0], keep, s, position), rows, limit);
    assert forall r | r in rows :: r in Elements(rows);
    forall r | Remains(visits, keep, s, r) && After(position, r) ensures r in rows {
      assert visits[0] in visits;
    }
  }

  lemma OnePageMore(visits: seq<Visit>, keep: Row -> bool, s: Snapshot, position: Option<Row>, limit: nat,
                    rows: seq<Row>, rest: seq<Row>)
    requires visits != [] && limit > 0
    requires IsTop(Seen(visits[0], keep, s, position), limit + 1, rows) && |rows| > limit
    requires Exact(rest, visits[1..], keep, s, Some(rows[limit - 1]))
    ensures Exact(rows[..limit] + rest, visits, keep, s, position)
  {
    var seen, last, all := Seen(visits[0], keep, s, position), rows[limit - 1], rows[..limit] + rest;
    assert forall r | r in rows :: r in Elements(rows);
    assert last in seen;
    forall i, j | 0 <= i < limit && 0 <= j < |rest| ensures Before(rows[i], rest[j]) {
      assert rest[j] in rest;
    }
    forall r | r in all
      ensures After(position, r) && exists v :: v in visits && r in v.db && Visible(keep, s, v.now, r)
    {
      if r in rest {
        var v :| v in visits[1..] && r in v.db && Visible(keep, s, v.now, r);
        assert v in visits;
      } else {
        assert r in seen && visits[0] in visits;
      }
    }
    forall r | Remains(visits, keep, s, r) && After(position, r) ensures r in all {
      assert visits[0] in visits;
      if r !in rows[..limit] {
        NotOnPage(seen, rows, limit, r);
        assert Remains(visits[1..], keep, s, r);
      }
    }
  }

  lemma {:induction false} WalkFrom(visits: seq<Visit>, keep: Row -> bool, s: Snapshot, position: Option<Row>, limit: nat)
    requires limit > 0 && Finished(visits, keep, s, position, limit)
    ensures Exact(Walk(visits, keep, s, position, limit), visits, keep, s, position)
  {
    var page := QueryPage(visits[0].db, keep, s, visits[0].now, position, limit);
    var rows := PageRows(visits[0], keep, s, position, limit);
    if page.next.None? {
      LastPage(visits, keep, s, position, limit, rows);
    } else {
      WalkFrom(visits[1..], keep, s, page.next, limit);
      OnePageMore(visits, keep, s, position, limit, rows, Walk(visits[1..], keep, s, page.next, limit));
    }
  }

  /** The rows that a page was cut from. */
  lemma PageRows(v: Visit, keep: Row -> bool, s: Snapshot, position: Option<Row>, limit: nat) returns (rows: seq<Row>)
    requires limit > 0
    ensures IsTop(Seen(v, keep, s, position), limit + 1, rows)
    ensures QueryPage(v.db, keep, s, v.now, position, limit) ==
            if |rows| > limit then Page(rows[..limit], Some(rows[limit - 1])) else Page(rows, None)
  {
    rows := SelectRows(v.db, keep, s, v.now, position, limit + 1);
    SelectRowsIsTop(v.db, keep, s, v.now, position, limit + 1);
  }

  lemma PageHoldsAll(seen: set<Row>, rows: seq<Row>, limit: nat)
    requires IsTop(seen, limit + 1, rows) && |rows| <= limit
    ensures forall r | r in seen :: r in rows
  {
    ElementsSize(rows);
    assert |seen - Elements(rows)| == 0;
  }

  lemma NotOnPage(seen: set<Row>, rows: seq<Row>, limit: nat, r: Row)
    requires limit > 0 && IsTop(seen, limit + 1, rows) && |rows| > limit
    requires r in seen && r !in rows[..limit]
    ensures Before(rows[limit - 1], r)
  {
    if r in rows {
      var i :| 0 <= i < |rows| && rows[i] == r;
      assert i == limit;
    } else {
      assert rows[limit - 1] in rows;
    }
  }

  /** The snapshot that the first page captures. */
  ghost predicate Captured(db: set<Row>, now: nat, s: Snapshot) {
    && s.capturedAt == now
    && (forall r | r in db :: r.sequence <= if r.source.Core? then s.core else s.activity)
  }

  /** Later rows get later sequences, so none of them is within the snapshot. */
  predicate OnlyAppends(visits: seq<Visit>, s: Snapshot) {
    visits != [] && forall v, r | v in visits && r in v.db && r !in visits[0].db ::
      r.sequence > if r.source.Core? then s.core else s.activity
  }

  /** Following the cursor from page one yields rows of the captured snapshot only, each once
      and in order, and all of them except activity that expired or was deleted meanwhile. */
  lemma PagingIsExact(visits: seq<Visit>, keep: Row -> bool, s: Snapshot, limit: nat)
    requires limit > 0 && Finished(visits, keep, s, None, limit)
    requires Captured(visits[0].db, visits[0].now, s) && OnlyAppends(visits, s)
    ensures var all := Walk(visits, keep, s, None, limit);
            && InOrder(all)
            && (forall i, j | 0 <= i < j < |all| :: all[i] != all[j])
            && (forall r | r in all :: r in visits[0].db && keep(r))
            && (forall r | r in visits[0].db && r.source.Core? && keep(r) && (forall v | v in visits :: r in v.db) :: r in all)
            && (forall r | r in visits[0].db && Remains(visits, keep, s, r) :: r in all)
  {
    WalkFrom(visits, keep, s, None, limit);
    var all := Walk(visits, keep, s, None, limit);
    forall r | r in visits[0].db && r.source.Core? && keep(r) && (forall v | v in visits :: r in v.db) ensures r in all {
      assert Remains(visits, keep, s, r);
    }
  }
}
