/** The shared cleanup cursor of src/audit/spool.ts: bounded batches over every source. Source
    and file names are numbers in name order; a listing maps each source that may be cleaned
    to its sorted file names, and a source that may not has no entry. */
module SpoolCleanup {
  import opened Numbers
  import opened Options
  import opened Sets

  const SOURCE_BUDGET: nat := 128
  const FILE_BUDGET: nat := 500

  type Listing = map<nat, seq<nat>>

  /** cleanup-v1.json: the source last visited and, inside it, the file last inspected. */
  datatype Cursor = Beginning | After(source: nat, file: Option<nat>)

  datatype Entry = Entry(source: nat, file: nat)

  predicate Before(a: Entry, b: Entry) {
    a.source < b.source || (a.source == b.source && a.file < b.file)
  }

  predicate InOrder(es: seq<Entry>) {
    forall i, j | 0 <= i < j < |es| :: Before(es[i], es[j])
  }

  /** The entry lies at or before the cursor. */
  predicate Passed(c: Cursor, e: Entry) {
    c.After? && (e.source < c.source || (e.source == c.source && (c.file.None? || e.file <= c.file.value)))
  }

  /** The second cursor lies strictly further on. */
  predicate Advances(c: Cursor, d: Cursor) {
    d.After? && (c.Beginning? || c.source < d.source ||
                 (c.source == d.source && c.file.Some? && (d.file.None? || c.file.value < d.file.value)))
  }

  predicate Listed(sources: seq<nat>, listing: Listing, e: Entry) {
    e.source in sources && e.source in listing && e.file in listing[e.source]
  }

  predicate Sorted(sources: seq<nat>, listing: Listing) {
    Ascending(sources) && forall s | s in listing :: Ascending(listing[s])
  }

  /** Where findIndex looks for the source to go on with. */
  predicate ResumesAt(c: Cursor, name: nat) {
    c.Beginning? || (if c.file.Some? then c.source <= name else c.source < name)
  }

  /** A cursor beyond every source restarts the sweep. */
  function Effective(c: Cursor, sources: seq<nat>): Cursor {
    if exists s :: s in sources && ResumesAt(c, s) then c else Beginning
  }

  /** What one batch that starts at `c` has inspected when it has reached `d`. */
  predicate Covers(sources: seq<nat>, listing: Listing, c: Cursor, inspected: seq<Entry>, d: Cursor) {
    && InOrder(inspected)
    && (forall e | e in inspected :: Listed(sources, listing, e) && !Passed(c, e) && Passed(d, e))
    && (forall s, f | s in sources && s in listing && f in listing[s] && Passed(d, Entry(s, f)) ::
          Passed(c, Entry(s, f)) || Entry(s, f) in inspected)
  }

  predicate CoversRest(sources: seq<nat>, listing: Listing, c: Cursor, inspected: seq<Entry>) {
    && InOrder(inspected)
    && (forall e | e in inspected :: Listed(sources, listing, e) && !Passed(c, e))
    && (forall s, f | s in sources && s in listing && f in listing[s] ::
          Passed(c, Entry(s, f)) || Entry(s, f) in inspected)
  }

  /** What one batch promises that starts from the saved cursor `c` and saves `next`. */
  predicate Ran(sources: seq<nat>, listing: Listing, c: Cursor, inspected: seq<Entry>, complete: bool, next: Cursor) {
    var from := Effective(c, sources);
    && |inspected| <= FILE_BUDGET && |SourcesOf(inspected)| <= SOURCE_BUDGET
    && (complete ==> CoversRest(sources, listing, from, inspected) && next == Beginning)
    && (!complete ==>
          && Covers(sources, listing, from, inspected, next)
          && Advances(from, next) && next.source in sources && Effective(next, sources) == next
          && (next.file.Some? ==> |inspected| == FILE_BUDGET))
  }

  /** The first file after the cursor. */
  method SkipTo(files: seq<nat>, after: Option<nat>) returns (i: nat)
    requires Ascending(files)
    ensures i <= |files|
    ensures forall k | 0 <= k < |files| :: k < i <==> after.Some? && files[k] <= after.value
  {
    i := 0;
    while i < |files| && after.Some? && files[i] <= after.value
      invariant i <= |files|
      invariant forall k | 0 <= k < i :: after.Some? && files[k] <= after.value
    {
      i := i + 1;
    }
  }

  /** #pruneSource: inspect at most `budget` files after `after`; the result names the last one
      unless the source is finished. */
  method PruneSource(name: nat, files: seq<nat>, after: Option<nat>, budget: nat)
    returns (inspected: seq<Entry>, fileAfter: Option<nat>)
    requires Ascending(files) && budget > 0
    ensures |inspected| <= budget && InOrder(inspected)
    ensures forall e | e in inspected :: e.source == name && e.file in files && (after.Some? ==> after.value < e.file)
    ensures forall f | f in files && (after.Some? ==> after.value < f) && (fileAfter.None? || f <= fileAfter.value) ::
              Entry(name, f) in inspected
    ensures fileAfter.Some? ==> |inspected| == budget && Entry(name, fileAfter.value) in inspected
    ensures fileAfter.Some? ==> forall e | e in inspected :: e.file <= fileAfter.value
  {
    inspected := [];
    var start := SkipTo(files, after);
    var i := start;
    while i < |files| && |inspected| < budget
      invariant start <= i <= |files| && |inspected| == i - start <= budget
      invariant forall k | 0 <= k < |inspected| :: inspected[k] == Entry(name, files[start + k])
    {
      inspected := inspected + [Entry(name, files[i])];
      i := i + 1;
    }
    forall f | f in files && (after.Some? ==> after.value < f) && (i == |files| || f <= files[i - 1])
      ensures Entry(name, f) in inspected
    {
      var k :| 0 <= k < |files| && files[k] == f;
      assert inspected[k - start] == Entry(name, f);
    }
    fileAfter := None;
    if i < |files| {
      fileAfter := Some(files[i - 1]);
      assert inspected[|inspected| - 1] == Entry(name, files[i - 1]);
    }
  }

  /** The batch has reached the end of the source before `index`, or not left `from` yet. */
  predicate AtSource(sources: seq<nat>, from: Cursor, reached: Cursor, index: nat) {
    && index < |sources| && ResumesAt(from, sources[index])
    && (if reached == from then forall k | 0 <= k < index :: !ResumesAt(from, sources[k])
        else index > 0 && reached == After(sources[index - 1], None))
  }

  /** What lies between two positions within one source. */
  predicate CoversSource(listing: Listing, name: nat, from: Cursor, more: seq<Entry>, fileAfter: Option<nat>) {
    && (forall e | e in more :: e.source == name && name in listing && e.file in listing[name]
                                && !Passed(from, e) && Passed(After(name, fileAfter), e))
    && (name in listing ==> forall f | f in listing[name] && Passed(After(name, fileAfter), Entry(name, f)) ::
          Passed(from, Entry(name, f)) || Entry(name, f) in more)
    && (fileAfter.Some? ==> Entry(name, fileAfter.value) in more)
  }

  lemma VisitSource(sources: seq<nat>, listing: Listing, from: Cursor, inspected: seq<Entry>, reached: Cursor,
                    index: nat, more: seq<Entry>, fileAfter: Option<nat>)
    requires Sorted(sources, listing) && AtSource(sources, from, reached, index)
    requires reached == from ==> inspected == []
    requires Covers(sources, listing, from, inspected, reached)
    requires reached != from ==> Advances(from, reached)
    requires InOrder(more)
    requires CoversSource(listing, sources[index], from, more, fileAfter)
    ensures Covers(sources, listing, from, inspected + more, After(sources[index], fileAfter))
    ensures Advances(from, After(sources[index], fileAfter))
  {
    var name, d := sources[index], After(sources[index], fileAfter);
    forall e, f | e in inspected && f in more ensures Before(e, f) {
      assert Passed(reached, e) && f.source == name;
    }
    forall e | e in inspected ensures Passed(d, e) {
      assert Passed(reached, e);
    }
    forall s, f | s in sources && s in listing && f in listing[s] && Passed(d, Entry(s, f))
      ensures Passed(from, Entry(s, f)) || Entry(s, f) in inspected + more
    {
      if s < name {
        var k :| 0 <= k < |sources| && sources[k] == s;
        assert k < index;
        assert reached != from ==> Passed(reached, Entry(s, f));
      }
    }
  }

  function SourcesOf(inspected: seq<Entry>): set<nat> {
    set e | e in inspected :: e.source
  }

  /** One source of a batch; a source that is gone has nothing to inspect. */
  method PruneAt(sources: seq<nat>, listing: Listing, c: Cursor, name: nat, budget: nat)
    returns (more: seq<Entry>, fileAfter: Option<nat>)
    requires Sorted(sources, listing) && name in sources && ResumesAt(Effective(c, sources), name) && budget > 0
    ensures |more| <= budget && InOrder(more)
    ensures CoversSource(listing, name, Effective(c, sources), more, fileAfter)
    ensures fileAfter.Some? ==> |more| == budget
  {
    more, fileAfter := [], None;
    var after := if c.After? && c.source == name then c.file else None;
    if name in listing {
      more, fileAfter := PruneSource(name, listing[name], after, budget);
    }
  }

  /** The source to go on with: the first at or after the cursor, or the first of all. */
  method FindSource(sources: seq<nat>, c: Cursor) returns (index: nat)
    ensures index <= |sources| && (index == |sources| ==> sources == [])
    ensures index < |sources| ==> ResumesAt(Effective(c, sources), sources[index])
    ensures forall k | 0 <= k < index :: !ResumesAt(Effective(c, sources), sources[k])
  {
    index := 0;
    while index < |sources| && !ResumesAt(c, sources[index])
      invariant 0 <= index <= |sources|
      invariant forall k | 0 <= k < index :: !ResumesAt(c, sources[k])
    {
      index := index + 1;
    }
    if index == |sources| { index := 0; }
  }

  /** #pruneBatch: go on from the cursor within both budgets. */
  method PruneBatch(sources: seq<nat>, listing: Listing, c: Cursor)
    returns (inspected: seq<Entry>, complete: bool, next: Cursor)
    requires Sorted(sources, listing)
    ensures Ran(sources, listing, c, inspected, complete, next)
  {
    inspected := [];
    var index := FindSource(sources, c);
    ghost var from := Effective(c, sources);
    var position, sourcesLeft := c, SOURCE_BUDGET;
    ghost var first := index;
    ghost var reached := from;
    ghost var visited: set<nat> := {};
    var stopped := false;
    while index < |sources| && sourcesLeft > 0 && |inspected| < FILE_BUDGET && !stopped
      invariant first <= index <= |sources| && |inspected| <= FILE_BUDGET
      invariant sourcesLeft + (index - first) + (if stopped then 1 else 0) == SOURCE_BUDGET
      invariant 0 <= sourcesLeft && |visited| <= SOURCE_BUDGET - sourcesLeft && SourcesOf(inspected) <= visited
      invariant Covers(sources, listing, from, inspected, reached)
      invariant !stopped && index < |sources| ==> AtSource(sources, from, reached, index)
      invariant !stopped && index == |sources| > 0 ==> reached == After(sources[index - 1], None)
      invariant stopped ==> index < |sources| && reached.After? && reached.file.Some? && reached.source == sources[index]
      invariant reached != from && reached.file.Some? ==> |inspected| == FILE_BUDGET
      invariant if index > first || stopped then position == reached && Advances(from, reached)
                else reached == from && inspected == []
    {
      var name := sources[index];
      sourcesLeft := sourcesLeft - 1;
      var more, fileAfter := PruneAt(sources, listing, c, name, FILE_BUDGET - |inspected|);
      VisitSource(sources, listing, from, inspected, reached, index, more, fileAfter);
      inspected := inspected + more;
      visited := visited + {name};
      position := After(name, fileAfter);
      reached := position;
      if fileAfter.Some? { stopped := true; } else { index := index + 1; }
    }
    SubsetSize(SourcesOf(inspected), visited);
    complete := index >= |sources|;
    assert !complete ==> sources[index] in sources && ResumesAt(position, sources[index]);
    next := if complete then Beginning else position;
  }

  /* ------------------------------------------------------- a whole sweep of batches */

  /** One batch of a sweep, with the directory as it was listed at that time. */
  datatype Batch = Batch(sources: seq<nat>, listing: Listing, cursor: Cursor, inspected: seq<Entry>, next: Cursor)

  predicate BatchRan(b: Batch, complete: bool) {
    Ran(b.sources, b.listing, b.cursor, b.inspected, complete, b.next)
  }

  /** The batch starts where the ones before it have stopped. Files may come and go in between, and
      sources may come. */
  ghost predicate Continues(batches: seq<Batch>, b: Batch) {
    && b.cursor == Reached(batches)
    && (batches != [] ==> forall s | s in batches[|batches| - 1].sources :: s in b.sources)
  }

  /** Between the two batches nothing goes but what the first one inspected. */
  ghost predicate Follows(a: Batch, b: Batch) {
    forall e | Listed(a.sources, a.listing, e) && e !in a.inspected :: Listed(b.sources, b.listing, e)
  }

  /** No file goes before it is inspected. */
  ghost predicate Undisturbed(batches: seq<Batch>, b: Batch) {
    batches == [] ||
    var front, last := batches[..|batches| - 1], batches[|batches| - 1];
    Undisturbed(front, last) && Follows(last, b)
  }

  /** The batches of one sweep so far, none of which has completed it. */
  ghost predicate Chained(batches: seq<Batch>) {
    batches == [] ||
    var front, last := batches[..|batches| - 1], batches[|batches| - 1];
    Chained(front) && Continues(front, last) && BatchRan(last, false)
  }

  function Reached(batches: seq<Batch>): Cursor {
    if batches == [] then Beginning else batches[|batches| - 1].next
  }

  function Trace(batches: seq<Batch>): seq<Entry> {
    if batches == [] then [] else Trace(batches[..|batches| - 1]) + batches[|batches| - 1].inspected
  }

  lemma PassedIsMonotone(c: Cursor, d: Cursor, e: Entry)
    requires Advances(c, d) && Passed(c, e)
    ensures Passed(d, e)
  {
  }

  /** A batch of a sweep never starts over: the source that the last one reached is still there. */
  lemma CursorIsEffective(batches: seq<Batch>, b: Batch)
    requires Chained(batches) && Continues(batches, b)
    ensures Effective(b.cursor, b.sources) == b.cursor
  {
    if batches != [] {
      var last := batches[|batches| - 1];
      if s :| s in last.sources && ResumesAt(last.next, s) { assert s in b.sources; }
    }
  }

  lemma JoinInOrder(a: seq<Entry>, b: seq<Entry>, c: Cursor)
    requires InOrder(a) && InOrder(b)
    requires (forall e | e in a :: Passed(c, e)) && (forall e | e in b :: !Passed(c, e))
    ensures InOrder(a + b)
  {
    forall i, j | 0 <= i < |a| && 0 <= j < |b| ensures Before(a[i], b[j]) {
      assert a[i] in a && b[j] in b;
    }
  }

  /** What was inspected lies behind the cursor, strictly increasing. */
  lemma {:induction false} SweepInOrder(batches: seq<Batch>)
    requires Chained(batches)
    ensures InOrder(Trace(batches)) && forall e | e in Trace(batches) :: Passed(Reached(batches), e)
  {
    if batches != [] {
      var front, last := batches[..|batches| - 1], batches[|batches| - 1];
      SweepInOrder(front);
      CursorIsEffective(front, last);
      forall e | e in Trace(front) ensures Passed(last.next, e) {
        PassedIsMonotone(last.cursor, last.next, e);
      }
      JoinInOrder(Trace(front), last.inspected, last.cursor);
    }
  }

  /** The batch that moves the cursor past the entry's position. */
  function TurnOf(batches: seq<Batch>, e: Entry): Option<Batch> {
    if batches == [] then None else
    var front, last := batches[..|batches| - 1], batches[|batches| - 1];
    if TurnOf(front, e).Some? then TurnOf(front, e) else if Passed(last.next, e) then Some(last) else None
  }

  lemma {:induction false} TurnsSoFar(batches: seq<Batch>, e: Entry)
    requires Chained(batches)
    ensures TurnOf(batches, e).Some? <==> Passed(Reached(batches), e)
    ensures e in Trace(batches) <==>
            TurnOf(batches, e).Some? && var b := TurnOf(batches, e).value; Listed(b.sources, b.listing, e)
  {
    if batches != [] {
      var front, last := batches[..|batches| - 1], batches[|batches| - 1];
      TurnsSoFar(front, e);
      CursorIsEffective(front, last);
      assert e == Entry(e.source, e.file);
      if Passed(last.cursor, e) {
        PassedIsMonotone(last.cursor, last.next, e);
        assert e !in last.inspected;
      }
    }
  }

  /** When a batch completes a sweep, a file was inspected if and only if the batch that passed its
      position listed it, whatever came and went meanwhile; and no file was inspected twice. */
  lemma SweepExactly(batches: seq<Batch>, last: Batch)
    requires Chained(batches) && Continues(batches, last) && BatchRan(last, true)
    ensures var trace := Trace(batches) + last.inspected;
            && InOrder(trace)
            && (forall i, j | 0 <= i < j < |trace| :: trace[i] != trace[j])
            && forall e :: e in trace <==>
                 var b := if TurnOf(batches, e).Some? then TurnOf(batches, e).value else last;
                 Listed(b.sources, b.listing, e)
  {
    SweepInOrder(batches);
    CursorIsEffective(batches, last);
    JoinInOrder(Trace(batches), last.inspected, last.cursor);
    forall e
      ensures e in Trace(batches) + last.inspected <==>
              var b := if TurnOf(batches, e).Some? then TurnOf(batches, e).value else last;
              Listed(b.sources, b.listing, e)
    {
      TurnsSoFar(batches, e);
      assert e == Entry(e.source, e.file);
    }
  }

  /** A file that nobody else removes stays listed until it is inspected itself. */
  lemma {:induction false} StaysListed(batches: seq<Batch>, b: Batch, e: Entry)
    requires Chained(batches) && Continues(batches, b) && Undisturbed(batches, b)
    requires var first := (batches + [b])[0]; Listed(first.sources, first.listing, e)
    ensures Listed(b.sources, b.listing, e) || e in Trace(batches)
  {
    if batches != [] {
      var front, last := batches[..|batches| - 1], batches[|batches| - 1];
      assert (front + [last])[0] == batches[0];
      StaysListed(front, last, e);
    }
  }

  /** So if nobody else removes files, every file that the first batch listed was inspected. */
  lemma SweepIsComplete(batches: seq<Batch>, last: Batch)
    requires Chained(batches) && Continues(batches, last) && BatchRan(last, true) && Undisturbed(batches, last)
    ensures var first, trace := (batches + [last])[0], Trace(batches) + last.inspected;
            && InOrder(trace)
            && (forall i, j | 0 <= i < j < |trace| :: trace[i] != trace[j])
            && (forall e | Listed(first.sources, first.listing, e) :: e in trace)
  {
    SweepExactly(batches, last);
    var first, trace := (batches + [last])[0], Trace(batches) + last.inspected;
    forall e | Listed(first.sources, first.listing, e) ensures e in trace {
      ListedAtTurn(batches, last, e);
    }
  }

  lemma {:induction false} ListedAtTurn(batches: seq<Batch>, last: Batch, e: Entry)
    requires Chained(batches) && Continues(batches, last) && Undisturbed(batches, last)
    requires var first := (batches + [last])[0]; Listed(first.sources, first.listing, e)
    ensures var b := if TurnOf(batches, e).Some? then TurnOf(batches, e).value else last; Listed(b.sources, b.listing, e)
  {
    StaysListed(batches, last, e);
    TurnsSoFar(batches, e);
    if batches != [] {
      var front, before := batches[..|batches| - 1], batches[|batches| - 1];
      assert (front + [before])[0] == batches[0];
      ListedAtTurn(front, before, e);
    }
  }

  /* --------------------------------------------- the sweep of a directory it deletes from */

  lemma AscendingMore(q: seq<nat>, last: nat)
    requires Ascending(q) && forall f | f in q :: f < last
    ensures Ascending(q + [last])
  {
    forall i | 0 <= i < |q| ensures q[i] < last { assert q[i] in q; }
  }

  function Without(files: seq<nat>, gone: set<nat>): (kept: seq<nat>)
    ensures forall f :: f in kept <==> f in files && f !in gone
    ensures Ascending(files) ==> Ascending(kept)
  {
    if files == [] then [] else
    var front, last := files[..|files| - 1], files[|files| - 1];
    assert files == front + [last];
    var kept := Without(front, gone);
    assert Ascending(files) ==> Ascending(kept + [last]) by { if Ascending(files) { AscendingMore(kept, last); } }
    if last in gone then kept else kept + [last]
  }

  function With(files: seq<nat>, f: nat): (more: seq<nat>)
    ensures forall g :: g in more <==> g in files || g == f
    ensures Ascending(files) ==> Ascending(more)
  {
    if files == [] then [f] else
    var front, last := files[..|files| - 1], files[|files| - 1];
    assert files == front + [last];
    if f == last then files
    else if last < f then files + [f]
    else
      var more := With(front, f);
      assert Ascending(files) ==> Ascending(more + [last]) by { if Ascending(files) { AscendingMore(more, last); } }
      more + [last]
  }

  /** The expired files of a source among those inspected. */
  function Gone(files: seq<nat>, source: nat, inspected: seq<Entry>, expired: set<Entry>): set<nat> {
    set f | f in files && Entry(source, f) in inspected && Entry(source, f) in expired
  }

  /** What a batch leaves: it deletes what has expired, and where that is more than temporary files it
      writes a retention marker first. */
  function Cleaned(listing: Listing, inspected: seq<Entry>, expired: set<Entry>, temporary: set<Entry>, marker: nat -> nat): Listing {
    map s | s in listing ::
      var gone := Gone(listing[s], s, inspected, expired);
      if forall f | f in gone :: Entry(s, f) in temporary then Without(listing[s], gone)
      else With(Without(listing[s], gone), marker(s))
  }

  lemma CleanedFollows(b: Batch, expired: set<Entry>, temporary: set<Entry>, marker: nat -> nat, next: Batch)
    requires next.sources == b.sources && next.listing == Cleaned(b.listing, b.inspected, expired, temporary, marker)
    ensures Follows(b, next)
  {
  }

  function Unfinished(sources: seq<nat>, c: Cursor): set<nat> {
    set s | s in sources && ResumesAt(c, s)
  }

  /** The listed files that the cursor has not passed. */
  function Remaining(sources: seq<nat>, listing: Listing, c: Cursor): set<Entry> {
    set s, f | s in sources && s in listing && f in listing[s] && !Passed(c, Entry(s, f)) :: Entry(s, f)
  }

  lemma {:induction false} InOrderSize(es: seq<Entry>)
    requires InOrder(es)
    ensures |set e | e in es| == |es|
  {
    if es != [] {
      var front, last := es[..|es| - 1], es[|es| - 1];
      InOrderSize(front);
      assert es == front + [last];
      assert (set e | e in es) == (set e | e in front) + {last};
    }
  }

  /** An unfinished batch has either finished a source, or inspected more files than the one
      marker that it may have written ahead of the cursor. */
  lemma BatchAdvances(b: Batch, expired: set<Entry>, temporary: set<Entry>, marker: nat -> nat)
    requires BatchRan(b, false) && Effective(b.cursor, b.sources) == b.cursor
    ensures var left := Cleaned(b.listing, b.inspected, expired, temporary, marker);
            |Unfinished(b.sources, b.next)| + |Remaining(b.sources, left, b.next)|
            < |Unfinished(b.sources, b.cursor)| + |Remaining(b.sources, b.listing, b.cursor)|
  {
    SubsetSize(Unfinished(b.sources, b.next), Unfinished(b.sources, b.cursor));
    FilesAdvance(b, expired, temporary, marker);
    if b.next.file.None? {
      SubsetSize(Unfinished(b.sources, b.next), Unfinished(b.sources, b.cursor) - {b.next.source});
    }
  }

  lemma FilesAdvance(b: Batch, expired: set<Entry>, temporary: set<Entry>, marker: nat -> nat)
    requires BatchRan(b, false) && Effective(b.cursor, b.sources) == b.cursor
    ensures var left := Cleaned(b.listing, b.inspected, expired, temporary, marker);
            |Remaining(b.sources, left, b.next)| + |b.inspected|
            <= |Remaining(b.sources, b.listing, b.cursor)| + if b.next.file.Some? then 1 else 0
  {
    var left := Cleaned(b.listing, b.inspected, expired, temporary, marker);
    var was, now := Remaining(b.sources, b.listing, b.cursor), Remaining(b.sources, left, b.next);
    var done := set e | e in b.inspected;
    var ahead := if b.next.file.Some? then {Entry(b.next.source, marker(b.next.source))} else {};
    forall e | e in done ensures e in was { assert e == Entry(e.source, e.file); }
    forall e | e in now ensures e in (was - done) + ahead { RemainingIsOld(b, expired, temporary, marker, e); }
    InOrderSize(b.inspected);
    SubsetSize(now, (was - done) + ahead);
  }

  lemma RemainingIsOld(b: Batch, expired: set<Entry>, temporary: set<Entry>, marker: nat -> nat, e: Entry)
    requires BatchRan(b, false) && Effective(b.cursor, b.sources) == b.cursor
    requires e in Remaining(b.sources, Cleaned(b.listing, b.inspected, expired, temporary, marker), b.next)
    ensures (e in Remaining(b.sources, b.listing, b.cursor) && e !in b.inspected)
            || (b.next.file.Some? && e == Entry(b.next.source, marker(b.next.source)))
  {
    if Passed(b.cursor, e) { PassedIsMonotone(b.cursor, b.next, e); }
    if e.file !in b.listing[e.source] {
      var f :| f in Gone(b.listing[e.source], e.source, b.inspected, expired);
      assert Passed(b.next, Entry(e.source, f));
    }
  }

  ghost predicate IsMarker(marker: (nat, nat) -> nat, e: Entry) {
    exists batch: nat :: e.file == marker(e.source, batch)
  }

  /** An event of the source has expired. */
  predicate Expires(s: nat, trace: seq<Entry>, expired: set<Entry>, temporary: set<Entry>) {
    exists e :: e in trace && e.source == s && e in expired && e !in temporary
  }

  /** Only inspected, expired files are gone, all of them; and only markers have come, where an event
      has expired. */
  ghost predicate Thinned(listing: Listing, left: Listing, trace: seq<Entry>, expired: set<Entry>, temporary: set<Entry>,
                          marker: (nat, nat) -> nat) {
    && left.Keys == listing.Keys
    && (forall s, f | s in listing && f in listing[s] && f !in left[s] :: Entry(s, f) in trace && Entry(s, f) in expired)
    && (forall s, f | s in left && f in left[s] ::
          || (IsMarker(marker, Entry(s, f)) && Expires(s, trace, expired, temporary))
          || (f in listing[s] && !(Entry(s, f) in trace && Entry(s, f) in expired)))
  }

  lemma ExpiresNow(files: seq<nat>, s: nat, trace: seq<Entry>, inspected: seq<Entry>, expired: set<Entry>, temporary: set<Entry>)
    requires !forall f | f in Gone(files, s, inspected, expired) :: Entry(s, f) in temporary
    ensures Expires(s, trace + inspected, expired, temporary)
  {
    var f :| f in Gone(files, s, inspected, expired) && Entry(s, f) !in temporary;
    assert Entry(s, f) in trace + inspected;
  }

  lemma ExpiresStill(s: nat, trace: seq<Entry>, inspected: seq<Entry>, expired: set<Entry>, temporary: set<Entry>)
    requires Expires(s, trace, expired, temporary)
    ensures Expires(s, trace + inspected, expired, temporary)
  {
    var e :| e in trace && e.source == s && e in expired && e !in temporary;
    assert e in trace + inspected;
  }

  lemma CleanedThins(listing: Listing, left: Listing, trace: seq<Entry>, expired: set<Entry>, temporary: set<Entry>,
                     marker: (nat, nat) -> nat, mark: nat -> nat, inspected: seq<Entry>)
    requires Thinned(listing, left, trace, expired, temporary, marker)
    requires forall s: nat :: IsMarker(marker, Entry(s, mark(s)))
    ensures Thinned(listing, Cleaned(left, inspected, expired, temporary, mark), trace + inspected, expired, temporary, marker)
  {
    var after := Cleaned(left, inspected, expired, temporary, mark);
    forall s, f | s in after && f in after[s]
      ensures || (IsMarker(marker, Entry(s, f)) && Expires(s, trace + inspected, expired, temporary))
              || (f in listing[s] && !(Entry(s, f) in trace + inspected && Entry(s, f) in expired))
    {
      if f in left[s] && f !in Gone(left[s], s, inspected, expired) {
        if IsMarker(marker, Entry(s, f)) && Expires(s, trace, expired, temporary) {
          ExpiresStill(s, trace, inspected, expired, temporary);
        }
      } else {
        ExpiresNow(left[s], s, trace, inspected, expired, temporary);
      }
    }
  }

  /** The sweep so far: its history is a chain from the first listing to what is there now. */
  ghost predicate Sweeping(history: seq<Batch>, sources: seq<nat>, listing: Listing, left: Listing, cursor: Cursor) {
    && Chained(history) && Continues(history, Batch(sources, left, cursor, [], cursor))
    && Undisturbed(history, Batch(sources, left, cursor, [], cursor))
    && (if history == [] then left == listing else history[0].sources == sources && history[0].listing == listing)
  }

  predicate InspectedOnce(sources: seq<nat>, listing: Listing, trace: seq<Entry>) {
    InOrder(trace) && forall s, f | s in sources && s in listing && f in listing[s] :: Entry(s, f) in trace
  }

  /** One more batch either continues the sweep or completes it. */
  lemma SweepMore(history: seq<Batch>, sources: seq<nat>, listing: Listing, b: Batch, complete: bool,
                  expired: set<Entry>, temporary: set<Entry>, marker: nat -> nat)
    requires Sweeping(history, sources, listing, b.listing, b.cursor) && b.sources == sources && BatchRan(b, complete)
    ensures Effective(b.cursor, sources) == b.cursor
    ensures Trace(history + [b]) == Trace(history) + b.inspected
    ensures !complete ==>
              Sweeping(history + [b], sources, listing, Cleaned(b.listing, b.inspected, expired, temporary, marker), b.next)
    ensures complete ==> InspectedOnce(sources, listing, Trace(history + [b]))
  {
    assert Continues(history, b) && Undisturbed(history, b);
    CursorIsEffective(history, b);
    assert (history + [b])[..|history|] == history;
    if complete {
      SweepIsComplete(history, b);
    } else {
      CleanedFollows(b, expired, temporary, marker,
                     Batch(sources, Cleaned(b.listing, b.inspected, expired, temporary, marker), b.next, [], b.next));
    }
  }

  /** What holds between two batches of a sweep. */
  ghost predicate SweepAt(sources: seq<nat>, listing: Listing, left: Listing, cursor: Cursor, complete: bool,
                          trace: seq<Entry>, history: seq<Batch>) {
    && Sorted(sources, left) && trace == Trace(history)
    && if complete then InspectedOnce(sources, listing, trace) else Sweeping(history, sources, listing, left, cursor)
  }

  /** How much of a sweep is still to do. */
  function ToDo(sources: seq<nat>, left: Listing, cursor: Cursor): nat {
    |Unfinished(sources, cursor)| + |Remaining(sources, left, cursor)|
  }

  lemma SweepStep(sources: seq<nat>, listing: Listing, b: Batch, complete: bool, trace: seq<Entry>, history: seq<Batch>,
                  expired: set<Entry>, temporary: set<Entry>, mark: nat -> nat)
    requires SweepAt(sources, listing, b.listing, b.cursor, false, trace, history) && b.sources == sources
    requires BatchRan(b, complete)
    ensures var left := Cleaned(b.listing, b.inspected, expired, temporary, mark);
            && SweepAt(sources, listing, left, b.next, complete, trace + b.inspected, history + [b])
            && (!complete ==> ToDo(sources, left, b.next) < ToDo(sources, b.listing, b.cursor))
  {
    SweepMore(history, sources, listing, b, complete, expired, temporary, mark);
    if !complete { BatchAdvances(b, expired, temporary, mark); }
  }

  /** Batches over a directory that only they change, until one completes the sweep: each file of
      each source that may be cleaned is inspected once, and exactly the expired ones are deleted. */
  method Sweep(sources: seq<nat>, listing: Listing, expired: set<Entry>, temporary: set<Entry>, marker: (nat, nat) -> nat)
    returns (trace: seq<Entry>, left: Listing)
    requires Sorted(sources, listing)
    ensures InspectedOnce(sources, listing, trace)
    ensures Thinned(listing, left, trace, expired, temporary, marker)
  {
    trace, left := [], listing;
    var cursor, complete, batch: nat := Beginning, false, 0;
    ghost var history: seq<Batch> := [];
    while !complete
      invariant SweepAt(sources, listing, left, cursor, complete, trace, history)
      invariant Thinned(listing, left, trace, expired, temporary, marker)
      decreases !complete, ToDo(sources, left, cursor)
    {
      var inspected, next;
      inspected, complete, next := PruneBatch(sources, left, cursor);
      var mark := (s: nat) => marker(s, batch);
      forall s: nat ensures IsMarker(marker, Entry(s, mark(s))) { assert mark(s) == marker(s, batch); }
      ghost var b := Batch(sources, left, cursor, inspected, next);
      SweepStep(sources, listing, b, complete, trace, history, expired, temporary, mark);
      CleanedThins(listing, left, trace, expired, temporary, marker, mark, inspected);
      history := history + [b];
      left := Cleaned(left, inspected, expired, temporary, mark);
      trace, cursor, batch := trace + inspected, next, batch + 1;
    }
  }
}
