/** The segments of a ledger scan, and the part of the ledger check of src/database/database.ts
    that looks at them. A scan splits its window until every piece fits one provider page;
    instants are ordered numbers here, as the timestamp texts are. */
module SegmentTiling {
  import opened Options

  datatype SegmentState = Pending | Split(at: nat) | Complete(page: nat)

  datatype Segment = Segment(run: nat, parent: Option<nat>, start: nat, end: nat, depth: nat, state: SegmentState)

  datatype Status = Running | Completed | Partial | Failed

  /** Normal scans and compensation sweeps have a cursor each. */
  datatype Lane = Normal | Compensation

  datatype Run = Run(account: nat, lane: Lane, start: nat, end: nat, status: Status)

  /** The window that an account's lane is at; a complete one may be replaced. */
  datatype Cursor = Cursor(start: nat, end: nat, complete: bool)

  datatype Page = Page(account: nat, start: nat, end: nat, number: nat, hasMore: bool)

  /** `leaf` is the kind ACCEPTED_LEAF and `processed` the disposition PROCESSED. */
  datatype Observation = Observation(run: nat, segment: nat, page: nat, leaf: bool, processed: bool)

  datatype Ledger = Ledger(runs: map<nat, Run>, segments: map<nat, Segment>, pages: map<nat, Page>,
                           observations: set<Observation>, cursors: map<(nat, Lane), Cursor>)

  /* ---------------------------------------------------------------- row checks and the query */

  predicate RowOk(s: Segment) {
    s.start < s.end && (s.parent.None? <==> s.depth == 0)
  }

  predicate IsRoot(db: Ledger, id: nat, run: nat) {
    id in db.segments && db.segments[id].parent.None? && db.segments[id].run == run
  }

  ghost predicate OneRoot(db: Ledger) {
    forall a, b, run | IsRoot(db, a, run) && IsRoot(db, b, run) :: a == b
  }

  /** What the table's row checks and its partial unique index keep. */
  ghost predicate Schema(db: Ledger) {
    (forall id {:trigger RowOk(db.segments[id])} | id in db.segments :: RowOk(db.segments[id])) && OneRoot(db)
  }

  function Children(db: Ledger, id: nat): set<nat> {
    set c | c in db.segments && db.segments[c].parent == Some(id)
  }

  predicate IsChild(db: Ledger, id: nat, c: nat, start: nat, end: nat) {
    c in Children(db, id) && db.segments[c].start == start && db.segments[c].end == end
  }

  predicate HasChild(db: Ledger, id: nat, start: nat, end: nat) {
    exists c :: c in db.segments && IsChild(db, id, c, start, end)
  }

  predicate PlacedOk(db: Ledger, s: Segment)
    requires s.run in db.runs
  {
    match s.parent
    case None => s.depth == 0 && s.start == db.runs[s.run].start && s.end == db.runs[s.run].end
    case Some(p) =>
      && p in db.segments && db.segments[p].run == s.run && db.segments[p].state.Split?
      && s.depth == db.segments[p].depth + 1
      && db.segments[p].start <= s.start && s.end <= db.segments[p].end
  }

  predicate StateOk(db: Ledger, id: nat)
    requires id in db.segments && db.segments[id].run in db.runs
  {
    var s := db.segments[id];
    match s.state
    case Complete(page) =>
      && page in db.pages
      && db.pages[page] == Page(db.runs[s.run].account, s.start, s.end, 1, false)
      && Observation(s.run, id, page, true, true) in db.observations
    case Split(at) =>
      |Children(db, id)| == 2 && HasChild(db, id, s.start, at) && HasChild(db, id, at, s.end)
    case Pending =>
      db.runs[s.run].status.Running? ==> !exists o :: o in db.observations && o.segment == id && o.processed
  }

  /** The query reports no segment, and no completed run with a pending one. */
  predicate SegmentOk(db: Ledger, id: nat)
    requires id in db.segments
  {
    var s := db.segments[id];
    && s.run in db.runs && PlacedOk(db, s) && StateOk(db, id)
    && (db.runs[s.run].status.Completed? ==> !s.state.Pending?)
  }

  predicate Clean(db: Ledger) {
    forall id {:trigger SegmentOk(db, id)} | id in db.segments :: SegmentOk(db, id)
  }

  /* ---------------------------------------------------------------- tiling */

  predicate Contains(s: Segment, x: nat) {
    s.start <= x < s.end
  }

  predicate LeafAt(db: Ledger, run: nat, id: nat, x: nat) {
    id in db.segments && db.segments[id].run == run && !db.segments[id].state.Split? && Contains(db.segments[id], x)
  }

  lemma OnlyTwo(c: set<nat>, a: nat, b: nat)
    requires |c| == 2 && a in c && b in c && a != b
    ensures c == {a, b}
  {
    assert |c - {a}| == 1;
    assert |c - {a} - {b}| == 0;
  }

  /** A split segment's children are exactly its two halves. */
  lemma Halves(db: Ledger, id: nat) returns (left: nat, right: nat)
    requires Schema(db) && Clean(db) && id in db.segments && db.segments[id].state.Split?
    ensures Children(db, id) == {left, right} && left != right
    ensures db.segments[left].start == db.segments[id].start && db.segments[left].end == db.segments[id].state.at
    ensures db.segments[right].start == db.segments[id].state.at && db.segments[right].end == db.segments[id].end
  {
    assert SegmentOk(db, id);
    var s := db.segments[id];
    left :| left in db.segments && IsChild(db, id, left, s.start, s.state.at);
    right :| right in db.segments && IsChild(db, id, right, s.state.at, s.end);
    assert RowOk(db.segments[left]);
    OnlyTwo(Children(db, id), left, right);
  }

  /** Downwards: every instant of a segment lies in a leaf below it. */
  lemma {:induction false} LeafBelow(db: Ledger, id: nat, x: nat) returns (leaf: nat)
    requires Schema(db) && Clean(db) && id in db.segments && Contains(db.segments[id], x)
    ensures LeafAt(db, db.segments[id].run, leaf, x)
    decreases db.segments[id].end - db.segments[id].start
  {
    if db.segments[id].state.Split? {
      var left, right := Halves(db, id);
      var child := if x < db.segments[id].state.at then left else right;
      assert child in Children(db, id);
      assert SegmentOk(db, child) && RowOk(db.segments[left]) && RowOk(db.segments[right]) by {
        assert left in Children(db, id) && right in Children(db, id);
      }
      leaf := LeafBelow(db, child, x);
    } else {
      leaf := id;
    }
  }

  /** Upwards: at each depth at most one segment of a run holds an instant. */
  lemma {:induction false} OneAtDepth(db: Ledger, a: nat, b: nat, x: nat)
    requires Schema(db) && Clean(db) && a in db.segments && b in db.segments
    requires db.segments[a].run == db.segments[b].run && db.segments[a].depth == db.segments[b].depth
    requires Contains(db.segments[a], x) && Contains(db.segments[b], x)
    ensures a == b
    decreases db.segments[a].depth
  {
    assert SegmentOk(db, a) && SegmentOk(db, b) && RowOk(db.segments[a]) && RowOk(db.segments[b]);
    if db.segments[a].depth == 0 {
      assert IsRoot(db, a, db.segments[a].run) && IsRoot(db, b, db.segments[a].run);
    } else {
      var p, q := db.segments[a].parent.value, db.segments[b].parent.value;
      OneAtDepth(db, p, q, x);
      var left, right := Halves(db, p);
      assert a in Children(db, p) && b in Children(db, p);
    }
  }

  /** The ancestor of a segment at a smaller depth was split. */
  lemma {:induction false} AncestorAt(db: Ledger, id: nat, depth: nat, x: nat) returns (above: nat)
    requires Schema(db) && Clean(db) && id in db.segments && depth < db.segments[id].depth && Contains(db.segments[id], x)
    ensures above in db.segments && db.segments[above].run == db.segments[id].run
    ensures db.segments[above].depth == depth && db.segments[above].state.Split? && Contains(db.segments[above], x)
    decreases db.segments[id].depth
  {
    assert SegmentOk(db, id) && RowOk(db.segments[id]);
    above := db.segments[id].parent.value;
    if depth < db.segments[above].depth {
      above := AncestorAt(db, above, depth, x);
    }
  }

  lemma OneLeaf(db: Ledger, run: nat, a: nat, b: nat, x: nat)
    requires Schema(db) && Clean(db) && LeafAt(db, run, a, x) && LeafAt(db, run, b, x)
    ensures a == b
  {
    if db.segments[a].depth == db.segments[b].depth {
      OneAtDepth(db, a, b, x);
    } else if db.segments[a].depth < db.segments[b].depth {
      var above := AncestorAt(db, b, db.segments[a].depth, x);
      OneAtDepth(db, a, above, x);
    } else {
      var above := AncestorAt(db, a, db.segments[b].depth, x);
      OneAtDepth(db, b, above, x);
    }
  }

  predicate HasSegment(db: Ledger, run: nat) {
    exists id :: id in db.segments && db.segments[id].run == run
  }

  /** The instants that leaves of the run cover are those of its window, each covered once. */
  ghost predicate Tiled(db: Ledger, run: nat)
    requires run in db.runs
  {
    forall x: nat :: CoveredOnce(db, run, x)
  }

  ghost predicate CoveredOnce(db: Ledger, run: nat, x: nat)
    requires run in db.runs
  {
    && (db.runs[run].start <= x < db.runs[run].end <==> exists id :: LeafAt(db, run, id, x))
    && forall a, b | LeafAt(db, run, a, x) && LeafAt(db, run, b, x) :: a == b
  }

  /** The leaf is complete, and was accepted on a one-page answer over exactly its window. */
  predicate Accepted(db: Ledger, run: nat, id: nat)
    requires run in db.runs
  {
    && id in db.segments && db.segments[id].state.Complete? && db.segments[id].state.page in db.pages
    && db.pages[db.segments[id].state.page] == Page(db.runs[run].account, db.segments[id].start, db.segments[id].end, 1, false)
  }

  lemma {:induction false} RootAbove(db: Ledger, id: nat) returns (root: nat)
    requires Schema(db) && Clean(db) && id in db.segments
    ensures root in db.segments && db.segments[root].run == db.segments[id].run && db.segments[root].parent.None?
    ensures db.segments[root].start <= db.segments[id].start && db.segments[id].end <= db.segments[root].end
    decreases db.segments[id].depth
  {
    assert SegmentOk(db, id) && RowOk(db.segments[id]);
    root := id;
    if db.segments[id].depth > 0 {
      root := RootAbove(db, db.segments[id].parent.value);
    }
  }

  lemma Covered(db: Ledger, run: nat, root: nat, x: nat)
    requires Schema(db) && Clean(db) && run in db.runs && IsRoot(db, root, run)
    ensures CoveredOnce(db, run, x)
  {
    assert SegmentOk(db, root);
    if db.runs[run].start <= x < db.runs[run].end {
      var leaf := LeafBelow(db, root, x);
    }
    forall id | LeafAt(db, run, id, x) ensures db.runs[run].start <= x < db.runs[run].end {
      var top := RootAbove(db, id);
      assert IsRoot(db, top, run);
    }
    forall a, b | LeafAt(db, run, a, x) && LeafAt(db, run, b, x) ensures a == b {
      OneLeaf(db, run, a, b, x);
    }
  }

  /** A clean ledger tiles the window of every run that has any segment at all, and tells of a
      completed run that each piece was accepted. Only the presence of a segment is not checked. */
  lemma WindowTiled(db: Ledger, run: nat)
    requires Schema(db) && Clean(db) && run in db.runs && db.runs[run].start < db.runs[run].end
    ensures Tiled(db, run) <==> HasSegment(db, run)
    ensures db.runs[run].status.Completed? ==> forall id, x: nat | LeafAt(db, run, id, x) :: Accepted(db, run, id)
  {
    if HasSegment(db, run) {
      var some :| some in db.segments && db.segments[some].run == run;
      var root := RootAbove(db, some);
      forall x: nat ensures CoveredOnce(db, run, x) {
        Covered(db, run, root, x);
      }
    } else {
      assert !CoveredOnce(db, run, db.runs[run].start);
    }
    forall id, x: nat | db.runs[run].status.Completed? && LeafAt(db, run, id, x) ensures Accepted(db, run, id) {
      assert SegmentOk(db, id);
    }
  }

  /* ---------------------------------------------------------------- the scan that writes them */

  datatype Event =
    | Begin(run: nat, root: nat, account: nat, lane: Lane, start: nat, end: nat)
    | Overflow(id: nat, page: nat, at: Option<nat>, left: nat, right: nat)
    | Accept(id: nat, page: nat)
    | Variant(id: nat, page: nat, hasMore: bool)
    | Fail(run: nat)

  /** The first page of the answer over a segment's window. */
  function PageOver(db: Ledger, id: nat, hasMore: bool): Page
    requires id in db.segments && db.segments[id].run in db.runs
  {
    var s := db.segments[id];
    Page(db.runs[s.run].account, s.start, s.end, 1, hasMore)
  }

  function KeyOf(db: Ledger, run: nat): (nat, Lane)
    requires run in db.runs
  {
    (db.runs[run].account, db.runs[run].lane)
  }

  /** The lane's cursor is at the run's window, and not complete. */
  predicate Owns(db: Ledger, run: nat)
    requires run in db.runs
  {
    && KeyOf(db, run) in db.cursors
    && db.cursors[KeyOf(db, run)] == Cursor(db.runs[run].start, db.runs[run].end, false)
  }

  /** Another run of the lane is still running, or its cursor is at another window that is not complete. */
  predicate LaneTaken(db: Ledger, key: (nat, Lane), start: nat, end: nat) {
    || (exists r :: r in db.runs && db.runs[r].status.Running? && KeyOf(db, r) == key)
    || (key in db.cursors && !db.cursors[key].complete && db.cursors[key] != Cursor(start, end, false))
  }

  /** The run waits for this answer; a page that is stored already, perhaps by another run, is the same one. */
  predicate MayScan(db: Ledger, id: nat, page: nat, hasMore: bool) {
    && id in db.segments && db.segments[id].state.Pending?
    && db.segments[id].run in db.runs && db.runs[db.segments[id].run].status.Running? && Owns(db, db.segments[id].run)
    && (page in db.pages ==> db.pages[page] == PageOver(db, id, hasMore))
  }

  /** The page is kept, with the observation that the run made of it. */
  function Retained(db: Ledger, id: nat, page: nat, hasMore: bool, leaf: bool, processed: bool): Ledger
    requires id in db.segments && db.segments[id].run in db.runs
  {
    db.(pages := db.pages[page := PageOver(db, id, hasMore)],
        observations := db.observations + {Observation(db.segments[id].run, id, page, leaf, processed)})
  }

  function WithStatus(db: Ledger, run: nat, status: Status): Ledger
    requires run in db.runs
  {
    db.(runs := db.runs[run := db.runs[run].(status := status)])
  }

  predicate HasPending(db: Ledger, run: nat) {
    exists id :: id in db.segments && db.segments[id].run == run && db.segments[id].state.Pending?
  }

  function Halved(db: Ledger, id: nat, at: nat, left: nat, right: nat): Ledger
    requires id in db.segments
  {
    var s := db.segments[id];
    db.(segments := db.segments[id := s.(state := Split(at))]
                              [left := Segment(s.run, Some(id), s.start, at, s.depth + 1, Pending)]
                              [right := Segment(s.run, Some(id), at, s.end, s.depth + 1, Pending)])
  }

  /** The accepted page completes its segment. */
  function Done(db: Ledger, id: nat, page: nat): Ledger
    requires id in db.segments && db.segments[id].run in db.runs
  {
    var kept := Retained(db, id, page, false, true, true);
    kept.(segments := kept.segments[id := db.segments[id].(state := Complete(page))])
  }

  /** Nothing of the run is left to scan: the run and the lane's window are complete. */
  function Finished(db: Ledger, run: nat): Ledger
    requires run in db.runs
  {
    WithStatus(db, run, Completed).(cursors := db.cursors[KeyOf(db, run) := Cursor(db.runs[run].start, db.runs[run].end, true)])
  }

  /** One recorded page: an answer with more pages splits the segment, or fails the run when the
      window is too narrow to split; a changed answer fails it; any other completes the segment,
      and the run when nothing is left. */
  function Next(db: Ledger, e: Event): Ledger {
    match e
    case Begin(run, root, account, lane, start, end) =>
      if run in db.runs || root in db.segments || end <= start || LaneTaken(db, (account, lane), start, end) then db else
      db.(runs := db.runs[run := Run(account, lane, start, end, Running)],
          cursors := db.cursors[(account, lane) := Cursor(start, end, false)],
          segments := db.segments[root := Segment(run, None, start, end, 0, Pending)])
    case Overflow(id, page, at, left, right) =>
      if !MayScan(db, id, page, true) then db else
      var kept := Retained(db, id, page, true, false, true);
      if at.None? then WithStatus(kept, db.segments[id].run, Failed) else
      if left in db.segments || right in db.segments || left == right
         || !(db.segments[id].start < at.value < db.segments[id].end) then db else
      Halved(kept, id, at.value, left, right)
    case Accept(id, page) =>
      if !MayScan(db, id, page, false) then db else
      var done := Done(db, id, page);
      if HasPending(done, db.segments[id].run) then done else Finished(done, db.segments[id].run)
    case Variant(id, page, hasMore) =>
      if !MayScan(db, id, page, hasMore) then db else
      WithStatus(Retained(db, id, page, hasMore, !hasMore, false), db.segments[id].run, Failed)
    case Fail(run) =>
      if run in db.runs && db.runs[run].status.Running? then WithStatus(db, run, Failed) else db
  }

  function Scan(events: seq<Event>): Ledger {
    if events == [] then Ledger(map[], map[], map[], {}, map[]) else Next(Scan(events[..|events| - 1]), events[|events| - 1])
  }

  predicate KnownObservations(db: Ledger) {
    forall o | o in db.observations :: o.segment in db.segments
  }

  predicate RunsOk(db: Ledger) {
    forall run | run in db.runs :: db.runs[run].start < db.runs[run].end && HasSegment(db, run)
  }

  ghost predicate SegmentsInv(db: Ledger) {
    Schema(db) && Clean(db) && KnownObservations(db) && RunsOk(db)
  }

  /** The run part of the check: a running run owns its lane's cursor and has something left to scan. */
  predicate RunningOk(db: Ledger, run: nat)
    requires run in db.runs
  {
    db.runs[run].status.Running? ==> Owns(db, run) && HasPending(db, run)
  }

  /** The run's window was scanned to the end, by this run or another one. */
  predicate ScannedWindow(db: Ledger, key: (nat, Lane), start: nat, end: nat) {
    exists r :: r in db.runs && KeyOf(db, r) == key && db.runs[r].start == start && db.runs[r].end == end && db.runs[r].status.Completed?
  }

  /** A window is not left behind before it was scanned to the end. */
  predicate NotSkipped(db: Ledger, run: nat)
    requires run in db.runs
  {
    ScannedWindow(db, KeyOf(db, run), db.runs[run].start, db.runs[run].end) || Owns(db, run)
  }

  predicate OneRunning(db: Ledger) {
    forall r, q | r in db.runs && q in db.runs && db.runs[r].status.Running? && db.runs[q].status.Running?
                  && KeyOf(db, r) == KeyOf(db, q) :: r == q
  }

  ghost predicate LanesInv(db: Ledger) {
    && (forall r {:trigger RunningOk(db, r)} | r in db.runs :: RunningOk(db, r))
    && (forall r {:trigger NotSkipped(db, r)} | r in db.runs :: NotSkipped(db, r))
    && OneRunning(db)
  }

  ghost predicate Inv(db: Ledger) {
    SegmentsInv(db) && LanesInv(db)
  }

  /** Nothing is lost, and only a segment that was not split changes, in its state alone. */
  predicate Grows(db: Ledger, after: Ledger) {
    && db.runs.Keys <= after.runs.Keys && db.pages.Keys <= after.pages.Keys && db.observations <= after.observations
    && (forall p | p in db.pages :: after.pages[p] == db.pages[p])
    && (forall r | r in db.runs :: after.runs[r].(status := db.runs[r].status) == db.runs[r])
    && (forall p | p in db.segments :: p in after.segments && Kept(db.segments[p], after.segments[p]))
  }

  predicate Kept(was: Segment, now: Segment) {
    now.(state := was.state) == was && (was.state.Split? ==> now == was)
  }

  /** A segment stays unreported when its row, its children and what was seen of it stay. */
  lemma StaysOk(db: Ledger, after: Ledger, id: nat)
    requires Grows(db, after) && id in db.segments && SegmentOk(db, id) && after.segments[id] == db.segments[id]
    requires Children(after, id) == Children(db, id)
    requires forall o | o in after.observations - db.observations :: o.segment != id
    requires after.runs[db.segments[id].run].status.Running? ==> db.runs[db.segments[id].run].status.Running?
    requires after.runs[db.segments[id].run].status.Completed? ==> !db.segments[id].state.Pending?
    ensures SegmentOk(after, id)
  {
    var s := db.segments[id];
    if s.state.Split? {
      var left :| left in db.segments && IsChild(db, id, left, s.start, s.state.at);
      var right :| right in db.segments && IsChild(db, id, right, s.state.at, s.end);
      assert IsChild(after, id, left, s.start, s.state.at) && IsChild(after, id, right, s.state.at, s.end);
    }
    assert PlacedOk(db, s) && PlacedOk(after, s);
  }

  lemma SameChildren(db: Ledger, after: Ledger, id: nat)
    requires Grows(db, after)
    requires forall c | c in after.segments && c !in db.segments :: after.segments[c].parent != Some(id)
    ensures Children(after, id) == Children(db, id)
  {
    assert forall c | c in db.segments :: Kept(db.segments[c], after.segments[c]);
  }

  lemma SchemaStays(db: Ledger, after: Ledger)
    requires Schema(db) && Grows(db, after)
    requires forall c | c in after.segments && c !in db.segments :: RowOk(after.segments[c])
    requires forall c | c in after.segments && c !in db.segments && after.segments[c].parent.None? ::
      after.segments.Keys == db.segments.Keys + {c} && !HasSegment(db, after.segments[c].run)
    ensures Schema(after)
  {
    forall a, b, run | IsRoot(after, a, run) && IsRoot(after, b, run) ensures a == b {
      assert a in db.segments ==> Kept(db.segments[a], after.segments[a]) && IsRoot(db, a, run);
      assert b in db.segments ==> Kept(db.segments[b], after.segments[b]) && IsRoot(db, b, run);
    }
    forall id | id in after.segments ensures RowOk(after.segments[id]) {
      assert id in db.segments ==> Kept(db.segments[id], after.segments[id]) && RowOk(db.segments[id]);
    }
  }

  lemma RunsStay(db: Ledger, after: Ledger)
    requires RunsOk(db) && Grows(db, after)
    requires forall r | r in after.runs && r !in db.runs :: after.runs[r].start < after.runs[r].end && HasSegment(after, r)
    ensures RunsOk(after)
  {
    forall r | r in after.runs ensures after.runs[r].start < after.runs[r].end && HasSegment(after, r) {
      if r in db.runs {
        var id :| id in db.segments && db.segments[id].run == r;
        assert Kept(db.segments[id], after.segments[id]);
      }
    }
  }

  /** Nothing refers to a run that has not begun, nor to a segment that is not there yet. */
  lemma NotYetUsed(db: Ledger, run: nat, root: nat)
    requires Clean(db) && run !in db.runs && root !in db.segments
    ensures !HasSegment(db, run) && forall id | id in db.segments :: db.segments[id].parent != Some(root)
  {
    forall id | id in db.segments ensures db.segments[id].run != run && db.segments[id].parent != Some(root) {
      assert SegmentOk(db, id);
    }
  }

  lemma BeginSegmentOk(db: Ledger, run: nat, root: nat, account: nat, lane: Lane, start: nat, end: nat, id: nat)
    requires Clean(db) && KnownObservations(db) && run !in db.runs && root !in db.segments && start < end && !LaneTaken(db, (account, lane), start, end)
    requires id in db.segments || id == root
    ensures SegmentOk(Next(db, Begin(run, root, account, lane, start, end)), id)
  {
    var after := Next(db, Begin(run, root, account, lane, start, end));
    NotYetUsed(db, run, root);
    if id != root {
      assert SegmentOk(db, id);
      SameChildren(db, after, id);
      StaysOk(db, after, id);
    }
  }

  lemma BeginKeepsSegments(db: Ledger, run: nat, root: nat, account: nat, lane: Lane, start: nat, end: nat)
    requires SegmentsInv(db) && run !in db.runs && root !in db.segments && start < end && !LaneTaken(db, (account, lane), start, end)
    ensures SegmentsInv(Next(db, Begin(run, root, account, lane, start, end)))
  {
    var after := Next(db, Begin(run, root, account, lane, start, end));
    assert Clean(after) by {
      forall id | id in after.segments ensures SegmentOk(after, id) {
        BeginSegmentOk(db, run, root, account, lane, start, end, id);
      }
    }
    assert Schema(after) && RunsOk(after) by {
      NotYetUsed(db, run, root);
      assert after.segments[root].run == run;
      SchemaStays(db, after);
      RunsStay(db, after);
    }
  }

  /** Failing a run leaves its segments unreported: nothing is asked of a failed run's pending ones. */
  lemma FailKeepsSegments(db: Ledger, id: nat, page: nat, hasMore: bool, leaf: bool, processed: bool)
    requires SegmentsInv(db) && MayScan(db, id, page, hasMore)
    ensures SegmentsInv(WithStatus(Retained(db, id, page, hasMore, leaf, processed), db.segments[id].run, Failed))
  {
    var after := WithStatus(Retained(db, id, page, hasMore, leaf, processed), db.segments[id].run, Failed);
    forall i | i in after.segments ensures SegmentOk(after, i) {
      assert SegmentOk(db, i);
      if i != id {
        SameChildren(db, after, i);
        StaysOk(db, after, i);
      }
    }
    SchemaStays(db, after);
    RunsStay(db, after);
  }

  lemma DoneSegmentOk(db: Ledger, id: nat, page: nat, status: Status, i: nat)
    requires Clean(db) && MayScan(db, id, page, false) && i in db.segments
    requires status.Running? || (status.Completed? && !HasPending(Done(db, id, page), db.segments[id].run))
    ensures SegmentOk(WithStatus(Done(db, id, page), db.segments[id].run, status), i)
  {
    var done := Done(db, id, page);
    var after := WithStatus(done, db.segments[id].run, status);
    assert SegmentOk(db, id) && SegmentOk(db, i);
    if i != id {
      assert done.segments[i] == db.segments[i];
      SameChildren(db, after, i);
      StaysOk(db, after, i);
    } else {
      assert PlacedOk(db, db.segments[id]) && PlacedOk(after, after.segments[id]);
    }
  }

  lemma DoneKeepsSegments(db: Ledger, id: nat, page: nat, status: Status)
    requires SegmentsInv(db) && MayScan(db, id, page, false)
    requires status.Running? || (status.Completed? && !HasPending(Done(db, id, page), db.segments[id].run))
    ensures SegmentsInv(WithStatus(Done(db, id, page), db.segments[id].run, status))
  {
    var after := WithStatus(Done(db, id, page), db.segments[id].run, status);
    forall i | i in after.segments ensures SegmentOk(after, i) {
      DoneSegmentOk(db, id, page, status, i);
    }
    SchemaStays(db, after);
    RunsStay(db, after);
  }

  lemma HalvedGrows(db: Ledger, id: nat, page: nat, at: nat, left: nat, right: nat)
    requires MayScan(db, id, page, true) && left !in db.segments && right !in db.segments && left != right
    ensures Grows(db, Halved(Retained(db, id, page, true, false, true), id, at, left, right))
  {
  }

  lemma HalvedSchema(db: Ledger, after: Ledger, left: nat, right: nat)
    requires Schema(db) && RunsOk(db) && Grows(db, after) && after.runs == db.runs
    requires after.segments.Keys == db.segments.Keys + {left, right}
    requires RowOk(after.segments[left]) && RowOk(after.segments[right])
    requires after.segments[left].parent.Some? && after.segments[right].parent.Some?
    ensures Schema(after) && RunsOk(after)
  {
    SchemaStays(db, after);
    RunsStay(db, after);
  }

  lemma HalvedSegmentOk(db: Ledger, id: nat, page: nat, at: nat, left: nat, right: nat, i: nat)
    requires Clean(db) && KnownObservations(db) && MayScan(db, id, page, true)
    requires left !in db.segments && right !in db.segments && left != right
    requires db.segments[id].start < at < db.segments[id].end && (i in db.segments || i == left || i == right)
    ensures SegmentOk(Halved(Retained(db, id, page, true, false, true), id, at, left, right), i)
  {
    var after := Halved(Retained(db, id, page, true, false, true), id, at, left, right);
    HalvedGrows(db, id, page, at, left, right);
    if i == id {
      assert SegmentOk(db, id);
      NoChildrenYet(db, id, left, right);
      HalvesOf(db, after, id, left, right);
      assert IsChild(after, id, left, db.segments[id].start, at) && IsChild(after, id, right, at, db.segments[id].end);
      assert PlacedOk(db, db.segments[id]) && PlacedOk(after, after.segments[id]);
    } else if i in db.segments {
      assert SegmentOk(db, i);
      SameChildren(db, after, i);
      StaysOk(db, after, i);
    } else {
      assert PlacedOk(after, after.segments[i]);
      assert forall o | o in after.observations :: o.segment != i;
    }
  }

  lemma HalvedKeepsSegments(db: Ledger, id: nat, page: nat, at: nat, left: nat, right: nat)
    requires SegmentsInv(db) && MayScan(db, id, page, true) && left !in db.segments && right !in db.segments && left != right
    requires db.segments[id].start < at < db.segments[id].end
    ensures SegmentsInv(Halved(Retained(db, id, page, true, false, true), id, at, left, right))
  {
    var after := Halved(Retained(db, id, page, true, false, true), id, at, left, right);
    assert Clean(after) by {
      forall i | i in after.segments ensures SegmentOk(after, i) {
        HalvedSegmentOk(db, id, page, at, left, right, i);
      }
    }
    assert Schema(after) && RunsOk(after) by {
      HalvedGrows(db, id, page, at, left, right);
      HalvedSchema(db, after, left, right);
    }
  }

  lemma HalvesOf(db: Ledger, after: Ledger, id: nat, left: nat, right: nat)
    requires Grows(db, after) && Children(db, id) == {} && after.segments.Keys == db.segments.Keys + {left, right}
    requires left != right && after.segments[left].parent == Some(id) && after.segments[right].parent == Some(id)
    ensures Children(after, id) == {left, right} && |Children(after, id)| == 2
  {
    forall c | c in db.segments ensures after.segments[c].parent != Some(id) || c == left || c == right {
      assert Kept(db.segments[c], after.segments[c]);
      assert c !in Children(db, id);
    }
    assert Children(after, id) == {left, right};
  }

  lemma NoChildrenYet(db: Ledger, id: nat, left: nat, right: nat)
    requires Clean(db) && id in db.segments && !db.segments[id].state.Split? && left !in db.segments && right !in db.segments
    ensures Children(db, id) == {} && Children(db, left) == {} && Children(db, right) == {}
  {
    forall c | c in db.segments ensures db.segments[c].parent != Some(id) && db.segments[c].parent != Some(left) && db.segments[c].parent != Some(right) {
      assert SegmentOk(db, c);
    }
  }

  lemma CursorKeepsSegments(db: Ledger, cursors: map<(nat, Lane), Cursor>)
    requires SegmentsInv(db)
    ensures SegmentsInv(db.(cursors := cursors))
  {
    var after := db.(cursors := cursors);
    forall i | i in after.segments ensures SegmentOk(after, i) {
      assert SegmentOk(db, i);
      SameChildren(db, after, i);
      StaysOk(db, after, i);
    }
    SchemaStays(db, after);
    RunsStay(db, after);
  }

  /** A run may fail between two answers. */
  lemma StatusKeepsSegments(db: Ledger, run: nat)
    requires SegmentsInv(db) && run in db.runs
    ensures SegmentsInv(WithStatus(db, run, Failed))
  {
    var after := WithStatus(db, run, Failed);
    forall i | i in after.segments ensures SegmentOk(after, i) {
      assert SegmentOk(db, i);
      SameChildren(db, after, i);
      StaysOk(db, after, i);
    }
    SchemaStays(db, after);
    RunsStay(db, after);
  }

  /* ---------------------------------------------------------------- the lanes */

  /** All that the lanes look at, but for one run, stays. */
  predicate LanesKept(db: Ledger, after: Ledger, run: nat) {
    && after.runs.Keys == db.runs.Keys && (forall r | r in db.runs && r != run :: after.runs[r] == db.runs[r])
    && (forall r | r in db.runs :: after.runs[r].(status := db.runs[r].status) == db.runs[r])
    && (forall r | r in db.runs && r != run && HasPending(db, r) :: HasPending(after, r))
  }

  lemma WindowStays(db: Ledger, after: Ledger, run: nat, key: (nat, Lane), start: nat, end: nat)
    requires LanesKept(db, after, run) && (run in db.runs ==> db.runs[run].status.Running?)
    requires ScannedWindow(db, key, start, end)
    ensures ScannedWindow(after, key, start, end)
  {
    var r :| r in db.runs && KeyOf(db, r) == key && db.runs[r].start == start && db.runs[r].end == end && db.runs[r].status.Completed?;
    assert KeyOf(after, r) == key;
  }

  /** A step of a running run that leaves the cursors alone. */
  lemma LaneStep(db: Ledger, after: Ledger, run: nat)
    requires LanesInv(db) && LanesKept(db, after, run) && run in db.runs && db.runs[run].status.Running?
    requires after.cursors == db.cursors && !after.runs[run].status.Completed?
    requires after.runs[run].status.Running? ==> HasPending(after, run)
    ensures LanesInv(after)
  {
    forall r | r in after.runs ensures RunningOk(after, r) && NotSkipped(after, r) {
      assert RunningOk(db, r) && NotSkipped(db, r) && RunningOk(db, run);
      if ScannedWindow(db, KeyOf(db, r), db.runs[r].start, db.runs[r].end) {
        WindowStays(db, after, run, KeyOf(db, r), db.runs[r].start, db.runs[r].end);
      }
    }
  }

  lemma LaneFinishes(db: Ledger, after: Ledger, run: nat)
    requires LanesInv(db) && LanesKept(db, after, run) && run in db.runs && db.runs[run].status.Running?
    requires after.runs[run].status.Completed?
    requires after.cursors == db.cursors[KeyOf(db, run) := Cursor(db.runs[run].start, db.runs[run].end, true)]
    ensures LanesInv(after)
  {
    forall r | r in after.runs ensures RunningOk(after, r) && NotSkipped(after, r) {
      assert RunningOk(db, r) && NotSkipped(db, r) && RunningOk(db, run);
      if ScannedWindow(db, KeyOf(db, r), db.runs[r].start, db.runs[r].end) {
        WindowStays(db, after, run, KeyOf(db, r), db.runs[r].start, db.runs[r].end);
      } else if KeyOf(db, r) == KeyOf(db, run) {
        assert KeyOf(after, run) == KeyOf(after, r);
      }
    }
  }

  lemma LaneBegins(db: Ledger, run: nat, root: nat, account: nat, lane: Lane, start: nat, end: nat)
    requires LanesInv(db) && run !in db.runs && root !in db.segments && start < end && !LaneTaken(db, (account, lane), start, end)
    ensures LanesInv(Next(db, Begin(run, root, account, lane, start, end)))
  {
    var after := Next(db, Begin(run, root, account, lane, start, end));
    assert after.segments[root].run == run && after.segments[root].state.Pending?;
    forall r | r in after.runs ensures RunningOk(after, r) && NotSkipped(after, r) {
      if r != run {
        assert RunningOk(db, r) && NotSkipped(db, r);
        if HasPending(db, r) {
          var id :| id in db.segments && db.segments[id].run == r && db.segments[id].state.Pending?;
          assert id in after.segments && after.segments[id] == db.segments[id];
        }
        if ScannedWindow(db, KeyOf(db, r), db.runs[r].start, db.runs[r].end) {
          var q :| q in db.runs && KeyOf(db, q) == KeyOf(db, r) && db.runs[q].start == db.runs[r].start
                   && db.runs[q].end == db.runs[r].end && db.runs[q].status.Completed?;
          assert KeyOf(after, q) == KeyOf(after, r);
        }
      }
    }
  }

  /** Pending segments of other runs stay when only segments of this one change. */
  lemma OthersPending(db: Ledger, after: Ledger, run: nat)
    requires forall id | id in db.segments && db.segments[id].run != run :: id in after.segments && after.segments[id] == db.segments[id]
    ensures forall r | r != run && HasPending(db, r) :: HasPending(after, r)
  {
    forall r | r != run && HasPending(db, r) ensures HasPending(after, r) {
      var id :| id in db.segments && db.segments[id].run == r && db.segments[id].state.Pending?;
      assert id in after.segments && after.segments[id] == db.segments[id];
    }
  }

  lemma FailKeepsLanes(db: Ledger, id: nat, page: nat, hasMore: bool, leaf: bool, processed: bool)
    requires LanesInv(db) && MayScan(db, id, page, hasMore)
    ensures LanesInv(WithStatus(Retained(db, id, page, hasMore, leaf, processed), db.segments[id].run, Failed))
  {
    var after := WithStatus(Retained(db, id, page, hasMore, leaf, processed), db.segments[id].run, Failed);
    OthersPending(db, after, db.segments[id].run);
    LaneStep(db, after, db.segments[id].run);
  }

  lemma HalvedKeepsLanes(db: Ledger, id: nat, page: nat, at: nat, left: nat, right: nat)
    requires LanesInv(db) && MayScan(db, id, page, true) && left !in db.segments && right !in db.segments && left != right
    ensures LanesInv(Halved(Retained(db, id, page, true, false, true), id, at, left, right))
  {
    var after := Halved(Retained(db, id, page, true, false, true), id, at, left, right);
    OthersPending(db, after, db.segments[id].run);
    assert after.segments[left].run == db.segments[id].run && after.segments[left].state.Pending?;
    LaneStep(db, after, db.segments[id].run);
  }

  lemma DoneKeepsLanes(db: Ledger, id: nat, page: nat)
    requires LanesInv(db) && MayScan(db, id, page, false)
    ensures var done := Done(db, id, page);
            LanesInv(if HasPending(done, db.segments[id].run) then done else Finished(done, db.segments[id].run))
  {
    var run, done := db.segments[id].run, Done(db, id, page);
    OthersPending(db, done, run);
    if HasPending(done, run) {
      LaneStep(db, done, run);
    } else {
      var after := Finished(done, run);
      OthersPending(db, after, run);
      LaneFinishes(db, after, run);
    }
  }

  lemma DoneKeepsInv(db: Ledger, id: nat, page: nat)
    requires Inv(db) && MayScan(db, id, page, false)
    ensures Inv(Next(db, Accept(id, page)))
  {
    var run, done := db.segments[id].run, Done(db, id, page);
    DoneKeepsLanes(db, id, page);
    if HasPending(done, run) {
      assert WithStatus(done, run, Running) == done;
      DoneKeepsSegments(db, id, page, Running);
    } else {
      DoneKeepsSegments(db, id, page, Completed);
      CursorKeepsSegments(WithStatus(done, run, Completed), Finished(done, run).cursors);
    }
  }

  lemma StepKeepsInv(db: Ledger, e: Event)
    requires Inv(db)
    ensures Inv(Next(db, e))
  {
    match e
    case Begin(run, root, account, lane, start, end) =>
      if run !in db.runs && root !in db.segments && start < end && !LaneTaken(db, (account, lane), start, end) {
        BeginKeepsSegments(db, run, root, account, lane, start, end);
        LaneBegins(db, run, root, account, lane, start, end);
      }
    case Overflow(id, page, at, left, right) =>
      if MayScan(db, id, page, true) {
        if at.None? {
          FailKeepsSegments(db, id, page, true, false, true);
          FailKeepsLanes(db, id, page, true, false, true);
        } else if left !in db.segments && right !in db.segments && left != right
                  && db.segments[id].start < at.value < db.segments[id].end {
          HalvedKeepsSegments(db, id, page, at.value, left, right);
          HalvedKeepsLanes(db, id, page, at.value, left, right);
        }
      }
    case Accept(id, page) => if MayScan(db, id, page, false) { DoneKeepsInv(db, id, page); }
    case Variant(id, page, hasMore) =>
      if MayScan(db, id, page, hasMore) {
        FailKeepsSegments(db, id, page, hasMore, !hasMore, false);
        FailKeepsLanes(db, id, page, hasMore, !hasMore, false);
      }
    case Fail(run) =>
      if run in db.runs && db.runs[run].status.Running? {
        StatusKeepsSegments(db, run);
        OthersPending(db, WithStatus(db, run, Failed), run);
        LaneStep(db, WithStatus(db, run, Failed), run);
      }
  }

  /** The check never reports what scans write. */
  lemma {:induction false} ScanKeepsInv(events: seq<Event>)
    ensures Inv(Scan(events))
  {
    if events != [] {
      ScanKeepsInv(events[..|events| - 1]);
      StepKeepsInv(Scan(events[..|events| - 1]), events[|events| - 1]);
    }
  }

  /** After any scans, the accepted leaves of a completed run tile its window. */
  lemma CompletedScanTiles(events: seq<Event>, run: nat)
    requires run in Scan(events).runs
    ensures Tiled(Scan(events), run)
    ensures Scan(events).runs[run].status.Completed? ==>
      forall id, x: nat | LeafAt(Scan(events), run, id, x) :: Accepted(Scan(events), run, id)
  {
    ScanKeepsInv(events);
    WindowTiled(Scan(events), run);
  }

  /** No window is skipped: whatever runs a lane has begun, each of their windows but the one that its
      cursor is still at was tiled by the accepted leaves of a completed run of the lane. */
  lemma NoWindowSkipped(events: seq<Event>, run: nat)
    requires run in Scan(events).runs && !Owns(Scan(events), run)
    ensures var db := Scan(events);
            exists r :: r in db.runs && KeyOf(db, r) == KeyOf(db, run) && db.runs[r].start == db.runs[run].start
                        && db.runs[r].end == db.runs[run].end && db.runs[r].status.Completed? && Tiled(db, r)
                        && forall id, x: nat | LeafAt(db, r, id, x) :: Accepted(db, r, id)
  {
    ScanKeepsInv(events);
    var db := Scan(events);
    assert NotSkipped(db, run);
    var r :| r in db.runs && KeyOf(db, r) == KeyOf(db, run) && db.runs[r].start == db.runs[run].start
             && db.runs[r].end == db.runs[run].end && db.runs[r].status.Completed?;
    WindowTiled(db, r);
  }
}
