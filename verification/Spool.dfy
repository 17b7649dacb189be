/** The activity spool of src/audit/spool.ts: one producer directory shared by its producer,
    any number of cleaners and the importer.

    A run is any interleaving of the events below, each one rename, one listing, one read or
    one database transaction, with a crash possible between any two. Event files are named
    by their sequence number, retention markers by the sequence they cover. */
module Spool {
  import opened Numbers
  import opened Options

  /** What the importer makes of an event file. */
  datatype Grade = Good(permanent: bool) | Foreign | Unreadable

  /** The producer's source.json. `failed` says that it reports a failed event. */
  datatype Meta = Meta(attempted: nat, failed: bool, closed: bool)

  datatype Producer = Idle | Attempting | Saving | Dead

  /** A cleaner that has listed the directory, then one that has written its marker. */
  datatype Cleaner = Seen(files: set<nat>, highest: nat) | Deleting(expired: set<nat>)

  /** The importer's database row for the source. The columns are `last`, `gap` and
      `receipts`, and `core` is the permanent audit chain; `imported` and `missed` are the
      sequences that were ever imported, or ever counted as missing. */
  datatype Db = Db(last: nat, gap: nat, receipts: set<nat>, core: seq<nat>, imported: set<nat>, missed: set<nat>)

  /** One pass over the source: metadata first, then the listing, then the queued files. */
  datatype Importer =
    | Waiting
    | GotMeta(meta: Option<Meta>)
    | Listed(meta: Option<Meta>, files: set<nat>, w: nat, horizon: nat)
    | Importing(queue: seq<nat>, files: set<nat>, w: nat, tail: Option<nat>, horizon: nat)

  datatype State = State(
    attempted: nat,
    producer: Producer,
    published: map<nat, Grade>,
    files: set<nat>,
    markers: set<nat>,
    meta: Option<Meta>,
    cleaners: map<nat, Cleaner>,
    importer: Importer,
    db: Db)

  datatype Event =
    | BeginRecord | Publish(grade: Grade) | RecordFails | Save(failed: bool) | SaveFails | Resave(failed: bool) | Close | ProducerCrash
    | CleanList(id: nat, highest: nat) | CleanMark(id: nat, expired: set<nat>, top: nat)
    | CleanDelete(id: nat, n: nat) | CleanCrash(id: nat)
    | ReadMeta | List(w: nat) | Begin(queue: seq<nat>) | GapStep | FileStep | TailStep | ImportStop
    | DropReceipt(n: nat)

  const Start := State(0, Idle, map[], {}, {}, None, map[], Waiting, Db(0, 0, {}, [], {}, {}))

  function Range(low: nat, high: nat): (r: set<nat>)
    ensures forall n :: n in r <==> low <= n <= high
    ensures |r| == if high < low then 0 else high + 1 - low
    decreases if high < low then 0 else high + 1 - low
  {
    if high < low then {} else {low} + Range(low + 1, high)
  }

  /** `w` is the highest retention marker of a listing, zero without one. */
  predicate IsHighest(markers: set<nat>, w: nat) {
    if markers == {} then w == 0 else w in markers && forall m | m in markers :: m <= w
  }

  predicate Covered(markers: set<nat>, n: nat) {
    exists m :: m in markers && n <= m
  }

  /* ------------------------------------------------ the importer's transactions */

  /** #retentionGap: move the cursor to the watermark, counting what is no longer listed. */
  function BeginDb(db: Db, listed: set<nat>, w: nat): Db {
    if w <= db.last then db else
    var lost := Range(db.last + 1, w) - listed;
    db.(last := w, gap := db.gap + |lost|, missed := db.missed + lost)
  }

  /** The first sequence that a gap before the next file still counts as missing. */
  function GapFrom(db: Db, w: nat): nat {
    Max(db.last + 1, w + 1)
  }

  /** #gap for a hole before the next file. */
  function GapDb(db: Db, n: nat, w: nat): Db {
    var from := GapFrom(db, w);
    if ReadyToRead(db, n, w) then db
    else db.(last := n - 1, gap := db.gap + (n - from), missed := db.missed + Range(from, n - 1))
  }

  predicate ReadyToRead(db: Db, n: nat, w: nat) {
    n <= db.last + 1 || n <= GapFrom(db, w)
  }

  /** #import of a readable file of this instance, or #gap for any other. */
  function FileDb(db: Db, n: nat, read: Option<Grade>): Db {
    match read
    case Some(Good(permanent)) =>
      if n in db.receipts then db.(last := Max(db.last, n)) else
      db.(last := Max(db.last, n), receipts := db.receipts + {n}, imported := db.imported + {n},
          core := if permanent then db.core + [n] else db.core)
    case _ => db.(last := Max(db.last, n), gap := db.gap + 1, missed := db.missed + {n})
  }

  /** The tail that a closed or failing producer never published. */
  function TailDb(db: Db, w: nat, attempted: nat): Db {
    if attempted <= db.last then db else
    var from := Max(db.last, w) + 1;
    if attempted < from then db.(last := attempted)
    else db.(last := attempted, gap := db.gap + (attempted + 1 - from), missed := db.missed + Range(from, attempted))
  }

  predicate Due(db: Db, n: nat, w: nat) {
    db.last < n || (n <= w && n !in db.receipts)
  }

  /** The files one pass will read: new ones, and unreceipted ones under the watermark. */
  predicate IsQueue(q: seq<nat>, db: Db, listed: set<nat>, w: nat) {
    && Ascending(q)
    && (forall n | n in q :: n in listed && Due(db, n, w))
    && (forall n | n in listed && Due(db, n, w) :: n in q)
  }

  /** The metadata a pass works with; without a source.json it is recovered from the listing. */
  predicate Usable(s: State, meta: Option<Meta>, listed: set<nat>, w: nat) {
    meta.Some? ||
    if listed == {} then w > 0
    else exists first :: first in listed && (forall n | n in listed :: first <= n)
                         && first in s.files && first in s.published && !s.published[first].Unreadable?
  }

  function TailOf(meta: Option<Meta>, w: nat): Option<nat> {
    if meta.Some? && (meta.value.closed || meta.value.failed) then Some(Max(meta.value.attempted, w)) else None
  }

  function Read(s: State, n: nat): Option<Grade> {
    if n in s.files && n in s.published then Some(s.published[n]) else None
  }

  function Taken(s: State, queue: seq<nat>, listed: set<nat>, w: nat, tail: Option<nat>, horizon: nat): State {
    s.(db := BeginDb(s.db, listed, w), importer := Importing(queue, listed, w, tail, horizon))
  }

  /** One step, or nothing when the event does not apply. */
  function Next(s: State, e: Event): State {
    match e
    case BeginRecord => if s.producer.Idle? then s.(attempted := s.attempted + 1, producer := Attempting) else s
    case Publish(grade) =>
      if !s.producer.Attempting? then s
      else s.(published := s.published[s.attempted := grade], files := s.files + {s.attempted}, producer := Saving)
    case RecordFails => if s.producer.Attempting? then s.(producer := Saving) else s
    case Save(failed) =>
      if s.producer.Saving? then s.(meta := Some(Meta(s.attempted, failed, false)), producer := Idle) else s
    case SaveFails => if s.producer.Saving? then s.(producer := Idle) else s
    case Resave(failed) =>
      // A failed batch of the cleanup is noted in source.json, too, between two records or after the close.
      if s.producer.Idle? then s.(meta := Some(Meta(s.attempted, failed, false)))
      else if s.producer.Dead? && s.meta.Some? && s.meta.value.closed then s.(meta := Some(Meta(s.attempted, failed, true)))
      else s
    case Close =>
      if !s.producer.Idle? || s.attempted == 0 then s
      else s.(meta := Some(Meta(s.attempted, if s.meta.Some? then s.meta.value.failed else false, true)), producer := Dead)
    case ProducerCrash => s.(producer := Dead)
    case CleanList(id, highest) =>
      if IsHighest(s.markers, highest) then s.(cleaners := s.cleaners[id := Seen(s.files, highest)]) else s
    case CleanMark(id, expired, top) =>
      if id in s.cleaners && s.cleaners[id].Seen? && expired != {} && expired <= s.cleaners[id].files
         && IsHighest(expired, top)
      then s.(markers := s.markers + {Max(s.cleaners[id].highest, top)}, cleaners := s.cleaners[id := Deleting(expired)])
      else s
    case CleanDelete(id, n) =>
      if id in s.cleaners && s.cleaners[id].Deleting? && n in s.cleaners[id].expired then s.(files := s.files - {n}) else s
    case CleanCrash(id) => s.(cleaners := s.cleaners - {id})
    case ReadMeta => if s.importer.Waiting? then s.(importer := GotMeta(s.meta)) else s
    case List(w) =>
      if s.importer.GotMeta? && IsHighest(s.markers, w)
      then s.(importer := Listed(s.importer.meta, s.files, w, Decided(s))) else s
    case Begin(queue) =>
      if !s.importer.Listed? then s else
      var i := s.importer;
      var db := BeginDb(s.db, i.files, i.w);
      if Usable(s, i.meta, i.files, i.w) && IsQueue(queue, db, i.files, i.w)
      then Taken(s, queue, i.files, i.w, TailOf(i.meta, i.w), i.horizon)
      else s.(importer := Waiting)
    case GapStep =>
      if s.importer.Importing? && s.importer.queue != [] then s.(db := GapDb(s.db, s.importer.queue[0], s.importer.w)) else s
    case FileStep =>
      if s.importer.Importing? && s.importer.queue != [] && ReadyToRead(s.db, s.importer.queue[0], s.importer.w) then
        var n := s.importer.queue[0];
        s.(db := FileDb(s.db, n, Read(s, n)), importer := s.importer.(queue := s.importer.queue[1..]))
      else s
    case TailStep =>
      if s.importer.Importing? && s.importer.queue == [] && s.importer.tail.Some?
      then s.(db := TailDb(s.db, s.importer.w, s.importer.tail.value), importer := Waiting) else s
    case ImportStop => s.(importer := Waiting)
    case DropReceipt(n) =>
      // Retention of receipts spares every receipt with a core event.
      if n in s.db.core then s else s.(db := s.db.(receipts := s.db.receipts - {n}))
  }

  function Run(s: State, events: seq<Event>): State {
    if events == [] then s
    else Next(Run(s, events[..|events| - 1]), events[|events| - 1])
  }

  /** Every sequence up to here has been published already or never will be. */
  function Decided(s: State): nat {
    if s.producer.Attempting? && s.attempted > 0 then s.attempted - 1 else s.attempted
  }

  /* ---------------------------------------------------------------- no false gaps */

  predicate DirectoryOk(s: State) {
    && (s.producer.Attempting? ==> s.attempted > 0)
    && (forall n | n in s.published :: 1 <= n <= Decided(s))
    && s.files <= s.published.Keys
    && (forall m | m in s.markers :: m <= Decided(s))
    && (s.meta.Some? ==> s.meta.value.attempted <= Decided(s))
    && (forall n | n in s.published && n !in s.files :: Covered(s.markers, n))
  }

  predicate CleanersOk(s: State) {
    forall id | id in s.cleaners ::
      match s.cleaners[id]
      case Seen(files, highest) => files <= s.published.Keys && highest <= Decided(s)
      case Deleting(expired) => forall n | n in expired :: Covered(s.markers, n)
  }

  /** What one listing settles: below its horizon, an unlisted event is under the watermark. */
  predicate ListingOk(s: State, listed: set<nat>, w: nat, horizon: nat) {
    && horizon <= Decided(s) && w <= horizon && listed <= s.published.Keys
    && (w > 0 ==> w in s.markers)
    && (forall n | n in listed :: n <= horizon)
    && (forall n | n in s.published && n <= horizon :: n in listed || n <= w)
    && (forall n | n in s.files && n <= horizon :: n in listed)
  }

  predicate ImporterOk(s: State) {
    match s.importer
    case Waiting => true
    case GotMeta(meta) => meta.Some? ==> meta.value.attempted <= Decided(s)
    case Listed(meta, listed, w, horizon) =>
      ListingOk(s, listed, w, horizon) && (meta.Some? ==> meta.value.attempted <= horizon)
    case Importing(queue, listed, w, tail, horizon) =>
      && ListingOk(s, listed, w, horizon) && (tail.Some? ==> tail.value <= horizon)
      && w <= s.db.last && Ascending(queue)
      && (forall n | n in queue :: n in listed && (n <= w || s.db.last < n))
      && (forall n | n in listed && s.db.last < n :: n in queue)
  }

  /** Why a sequence may be counted as missing. */
  predicate Justified(s: State, n: nat) {
    || n !in s.published
    || Covered(s.markers, n)
    || !s.published[n].Good?
  }

  predicate DbOk(s: State) {
    && s.db.last <= Decided(s)
    && s.db.receipts <= s.db.imported
    && (forall n {:trigger ImportedOk(s, n)} | n in s.db.imported :: ImportedOk(s, n))
    && (forall n {:trigger MissedOk(s, n)} | n in s.db.missed :: MissedOk(s, n))
  }

  predicate ImportedOk(s: State, n: nat) {
    1 <= n <= s.db.last && n in s.published && s.published[n].Good?
  }

  predicate MissedOk(s: State, n: nat) {
    1 <= n <= s.db.last && Justified(s, n) && (n in s.files && n in s.published ==> !s.published[n].Good?)
  }

  predicate CoreOk(s: State) {
    && (forall i, j | 0 <= i < j < |s.db.core| :: s.db.core[i] != s.db.core[j])
    && (forall n | n in s.db.core :: n in s.db.receipts)
    && (forall n | n in s.db.imported && n in s.published && s.published[n] == Good(true) :: n in s.db.core)
    && (forall n | n in s.db.core :: n in s.published && s.published[n] == Good(true))
  }

  predicate Inv(s: State) {
    DirectoryOk(s) && CleanersOk(s) && ImporterOk(s) && DbOk(s) && CoreOk(s)
  }

  predicate OfProducer(e: Event) {
    e.BeginRecord? || e.Publish? || e.RecordFails? || e.Save? || e.SaveFails? || e.Resave? || e.Close? || e.ProducerCrash?
  }

  predicate OfCleaner(e: Event) {
    e.CleanList? || e.CleanMark? || e.CleanDelete? || e.CleanCrash?
  }

  lemma ProducerStep(s: State, e: Event)
    requires DirectoryOk(s) && CleanersOk(s) && OfProducer(e)
    ensures DirectoryOk(Next(s, e)) && CleanersOk(Next(s, e)) && Decided(s) <= Decided(Next(s, e))
  {
  }

  lemma CleanerStep(s: State, e: Event)
    requires DirectoryOk(s) && CleanersOk(s) && OfCleaner(e)
    ensures DirectoryOk(Next(s, e)) && CleanersOk(Next(s, e)) && Decided(s) == Decided(Next(s, e))
  {
    var t := Next(s, e);
    forall n | Covered(s.markers, n) ensures Covered(t.markers, n) {
      var m :| m in s.markers && n <= m;
      assert m in t.markers;
    }
    if e.CleanMark? && t != s {
      forall n | n in e.expired ensures Covered(t.markers, n) {
        assert n <= e.top;
      }
    }
  }

  lemma DirectoryStep(s: State, e: Event)
    requires DirectoryOk(s) && CleanersOk(s)
    ensures DirectoryOk(Next(s, e)) && CleanersOk(Next(s, e)) && Decided(s) <= Decided(Next(s, e))
  {
    if OfProducer(e) {
      ProducerStep(s, e);
    } else if OfCleaner(e) {
      CleanerStep(s, e);
    } else {
      ImporterLeaves(s, e);
    }
  }

  lemma ImporterLeaves(s: State, e: Event)
    requires DirectoryOk(s) && CleanersOk(s) && !OfProducer(e) && !OfCleaner(e)
    ensures DirectoryOk(Next(s, e)) && CleanersOk(Next(s, e)) && Decided(s) == Decided(Next(s, e))
  {
    var t := Next(s, e);
    assert t == s.(importer := t.importer, db := t.db);
  }

  /** A listing made now settles every event published so far. */
  lemma ListStep(s: State, w: nat)
    requires Inv(s)
    ensures ImporterOk(Next(s, List(w)))
  {
    forall n | n in s.published && n !in s.files && IsHighest(s.markers, w) ensures n <= w {
      assert Covered(s.markers, n);
    }
  }

  lemma UnderWatermark(s: State, w: nat, n: nat)
    requires n <= w && (w > 0 ==> w in s.markers) && n > 0
    ensures Covered(s.markers, n)
  {
  }

  lemma BeginDbStep(s: State, listed: set<nat>, w: nat, horizon: nat)
    requires DirectoryOk(s) && DbOk(s) && ListingOk(s, listed, w, horizon)
    ensures DbOk(s.(db := BeginDb(s.db, listed, w)))
  {
    var t := s.(db := BeginDb(s.db, listed, w));
    forall n | n in t.db.imported ensures ImportedOk(t, n) {
      assert n in s.db.imported ==> ImportedOk(s, n);
    }
    forall n | n in t.db.missed ensures MissedOk(t, n) {
      assert n in s.db.missed ==> MissedOk(s, n);
      if n !in s.db.missed {
        UnderWatermark(s, w, n);
      }
    }
  }

  lemma TakenImporterOk(s: State, queue: seq<nat>, listed: set<nat>, w: nat, tail: Option<nat>, horizon: nat)
    requires ListingOk(s, listed, w, horizon) && IsQueue(queue, BeginDb(s.db, listed, w), listed, w)
    requires tail.Some? ==> tail.value <= horizon
    ensures ImporterOk(Taken(s, queue, listed, w, tail, horizon))
  {
    var t := Taken(s, queue, listed, w, tail, horizon);
    assert ListingOk(t, listed, w, horizon);
  }

  lemma SameDb(s: State, t: State)
    requires DbOk(s) && t.db == s.db && t.published == s.published && t.files == s.files && t.markers == s.markers
    requires t.attempted == s.attempted && t.producer == s.producer
    ensures DbOk(t)
  {
    assert Decided(t) == Decided(s);
    forall n | n in t.db.imported ensures ImportedOk(t, n) {
      assert n in s.db.imported ==> ImportedOk(s, n);
    }
    forall n | n in t.db.missed ensures MissedOk(t, n) {
      assert n in s.db.missed ==> MissedOk(s, n);
    }
  }

  /** The begun pass, or a return to waiting. */
  lemma BeginIs(s: State, queue: seq<nat>)
    requires s.importer.Listed?
    ensures var i, t := s.importer, Next(s, Begin(queue));
            || t == s.(importer := Waiting)
            || (IsQueue(queue, BeginDb(s.db, i.files, i.w), i.files, i.w)
                && t == Taken(s, queue, i.files, i.w, TailOf(i.meta, i.w), i.horizon))
  {
  }

  lemma TakenDbOk(s: State, queue: seq<nat>, listed: set<nat>, w: nat, tail: Option<nat>, horizon: nat)
    requires DirectoryOk(s) && DbOk(s) && ListingOk(s, listed, w, horizon)
    ensures DbOk(Taken(s, queue, listed, w, tail, horizon))
  {
    BeginDbStep(s, listed, w, horizon);
    SameDb(s.(db := BeginDb(s.db, listed, w)), Taken(s, queue, listed, w, tail, horizon));
  }

  lemma BeginStep(s: State, queue: seq<nat>)
    requires Inv(s) && s.importer.Listed?
    ensures ImporterOk(Next(s, Begin(queue))) && DbOk(Next(s, Begin(queue)))
  {
    var i, t := s.importer, Next(s, Begin(queue));
    BeginIs(s, queue);
    if t.importer.Importing? {
      TakenDbOk(s, queue, i.files, i.w, TailOf(i.meta, i.w), i.horizon);
      TakenImporterOk(s, queue, i.files, i.w, TailOf(i.meta, i.w), i.horizon);
    } else {
      SameDb(s, t);
    }
  }

  /** A listing stays as good as it was, whatever the producer and the cleaners do. */
  lemma ListingStays(s: State, e: Event, listed: set<nat>, w: nat, horizon: nat)
    requires DirectoryOk(s) && ListingOk(s, listed, w, horizon) && (OfProducer(e) || OfCleaner(e))
    ensures ListingOk(Next(s, e), listed, w, horizon)
  {
  }

  lemma ImporterStep(s: State, e: Event)
    requires DirectoryOk(s) && ImporterOk(s) && !e.Begin? && !e.GapStep? && !e.FileStep? && !e.List?
    ensures ImporterOk(Next(s, e))
  {
    if OfProducer(e) || OfCleaner(e) {
      var t := Next(s, e);
      assert t.importer == s.importer && t.db == s.db && Decided(s) <= Decided(t);
      match s.importer
      case Listed(meta, listed, w, horizon) => ListingStays(s, e, listed, w, horizon);
      case Importing(queue, listed, w, tail, horizon) => ListingStays(s, e, listed, w, horizon);
      case _ =>
    }
  }

  lemma GapImporterStep(s: State)
    requires ImporterOk(s)
    ensures ImporterOk(Next(s, GapStep))
  {
    if s.importer.Importing? && s.importer.queue != [] {
      assert s.importer.queue[0] in s.importer.queue;
    }
  }

  lemma GapDbStep(s: State)
    requires DirectoryOk(s) && ImporterOk(s) && DbOk(s)
    ensures DbOk(Next(s, GapStep))
  {
    var t := Next(s, GapStep);
    if t != s {
      assert s.importer.queue[0] in s.importer.queue;
    }
    forall n | n in t.db.imported ensures ImportedOk(t, n) {
      assert n in s.db.imported ==> ImportedOk(s, n);
    }
    forall n | n in t.db.missed ensures MissedOk(t, n) {
      assert n in s.db.missed ==> MissedOk(s, n);
      if n !in s.db.missed {
        UnlistedIsJustified(s, n);
      }
    }
  }

  /** A new hole below the queue was never published, or is not there any more. */
  lemma UnlistedIsJustified(s: State, n: nat)
    requires DirectoryOk(s) && ImporterOk(s) && s.importer.Importing?
    requires s.db.last < n <= s.importer.horizon && s.importer.w < n
    requires forall m | m in s.importer.queue :: n < m
    ensures n !in s.published && n !in s.files
  {
  }

  lemma FileImporterStep(s: State)
    requires ImporterOk(s)
    ensures ImporterOk(Next(s, FileStep))
  {
    var i, t := s.importer, Next(s, FileStep);
    if t != s {
      var n, rest := i.queue[0], i.queue[1..];
      assert i.queue == [n] + rest;
      forall m | m in rest ensures m in i.files && (m <= i.w || t.db.last < m) {
        assert m in i.queue;
        var k :| 0 <= k < |rest| && rest[k] == m;
        assert n < i.queue[k + 1];
      }
      forall m | m in i.files && t.db.last < m ensures m in rest {
        assert m in i.queue;
      }
      assert ListingOk(t, i.files, i.w, i.horizon);
    }
  }

  lemma FileDbStep(s: State)
    requires DirectoryOk(s) && ImporterOk(s) && DbOk(s)
    ensures DbOk(Next(s, FileStep))
  {
    var t := Next(s, FileStep);
    if t != s {
      FileIsDue(s);
    }
    forall n | n in t.db.imported ensures ImportedOk(t, n) {
      assert n in s.db.imported ==> ImportedOk(s, n);
    }
    forall n | n in t.db.missed ensures MissedOk(t, n) {
      assert n in s.db.missed ==> MissedOk(s, n);
    }
  }

  /** A queued file was published, within the horizon of the listing. */
  lemma FileIsDue(s: State)
    requires DirectoryOk(s) && ImporterOk(s) && s.importer.Importing? && s.importer.queue != []
    ensures var n := s.importer.queue[0]; n in s.published && 1 <= n <= Decided(s) && (n !in s.files ==> Covered(s.markers, n))
  {
    assert s.importer.queue[0] in s.importer.queue;
  }

  lemma DbStep(s: State, e: Event)
    requires DirectoryOk(s) && ImporterOk(s) && DbOk(s) && !e.Begin? && !e.GapStep? && !e.FileStep?
    ensures DbOk(Next(s, e))
  {
    if e.TailStep? {
      TailDbStep(s);
    } else {
      DirectoryDbStep(s, e);
    }
  }

  lemma TailDbStep(s: State)
    requires DirectoryOk(s) && ImporterOk(s) && DbOk(s)
    ensures DbOk(Next(s, TailStep))
  {
    var t := Next(s, TailStep);
    forall n | n in t.db.imported ensures ImportedOk(t, n) {
      assert n in s.db.imported ==> ImportedOk(s, n);
    }
    forall n | n in t.db.missed ensures MissedOk(t, n) {
      assert n in s.db.missed ==> MissedOk(s, n);
      if n !in s.db.missed {
        UnlistedIsJustified(s, n);
      }
    }
  }

  /** The steps of the others leave the counted sequences as they are, and every reason true. */
  lemma DirectoryDbStep(s: State, e: Event)
    requires DirectoryOk(s) && DbOk(s)
    requires !e.Begin? && !e.GapStep? && !e.FileStep? && !e.TailStep?
    ensures DbOk(Next(s, e))
  {
    var t := Next(s, e);
    assert forall m | m in s.markers :: m in t.markers;
    forall n | n in t.db.imported ensures ImportedOk(t, n) {
      assert n in s.db.imported ==> ImportedOk(s, n);
    }
    forall n | n in t.db.missed ensures MissedOk(t, n) {
      assert n in s.db.missed ==> MissedOk(s, n);
    }
  }

  /** The row's facts without the reasons for the gaps. */
  lemma DbFacts(s: State)
    requires DbOk(s)
    ensures forall n | n in s.db.imported :: 1 <= n <= s.db.last && n in s.published && s.published[n].Good?
    ensures forall n | n in s.db.missed :: 1 <= n <= s.db.last && (n in s.files && n in s.published ==> !s.published[n].Good?)
  {
    forall n | n in s.db.imported ensures ImportedOk(s, n) {}
    forall n | n in s.db.missed ensures MissedOk(s, n) {}
  }

  lemma CoreFileStep(s: State)
    requires DirectoryOk(s) && DbOk(s) && CoreOk(s)
    ensures CoreOk(Next(s, FileStep))
  {
    DbFacts(s);
  }

  /** Only reading a file appends to the audit chain. */
  lemma CoreStep(s: State, e: Event)
    requires DirectoryOk(s) && DbOk(s) && CoreOk(s)
    ensures CoreOk(Next(s, e))
  {
    var t := Next(s, e);
    if e.FileStep? {
      CoreFileStep(s);
    } else {
      DbFacts(s);
      assert t.db.core == s.db.core && t.db.imported == s.db.imported;
      assert forall n | n in s.published :: n in t.published && t.published[n] == s.published[n];
    }
  }

  lemma StepKeepsInv(s: State, e: Event)
    requires Inv(s)
    ensures Inv(Next(s, e)) && Decided(s) <= Decided(Next(s, e))
  {
    DirectoryStep(s, e);
    CoreStep(s, e);
    match e
    case Begin(queue) => if s.importer.Listed? { BeginStep(s, queue); }
    case GapStep => GapImporterStep(s); GapDbStep(s);
    case FileStep => FileImporterStep(s); FileDbStep(s);
    case List(w) => ListStep(s, w); DbStep(s, e);
    case _ => ImporterStep(s, e); DbStep(s, e);
  }

  lemma {:induction false} RunKeepsInv(s: State, events: seq<Event>)
    requires Inv(s)
    ensures Inv(Run(s, events))
  {
    if events != [] {
      RunKeepsInv(s, events[..|events| - 1]);
      StepKeepsInv(Run(s, events[..|events| - 1]), events[|events| - 1]);
    }
  }

  /** A sequence is counted as missing only if it was never published, is covered by a
      retention marker, or its file is unreadable or foreign; a readable file of ours that is
      still there is never counted. */
  lemma NoFalseGaps(events: seq<Event>, n: nat)
    requires n in Run(Start, events).db.missed
    ensures Justified(Run(Start, events), n)
    ensures n <= Run(Start, events).db.last
    ensures var s := Run(Start, events); n in s.files ==> n in s.published && !s.published[n].Good?
  {
    RunKeepsInv(Start, events);
    assert MissedOk(Run(Start, events), n);
  }

  lemma JustifiedStep(s: State, e: Event, n: nat)
    requires Inv(s) && n <= Decided(s) && Justified(s, n)
    ensures Justified(Next(s, e), n)
    ensures n !in s.published ==> n !in Next(s, e).published
  {
    assert forall m | m in s.markers :: m in Next(s, e).markers;
  }

  /** The reason stays true: an event counted as never published is never published later,
      and neither a marker nor the contents of a file are taken back. */
  lemma {:induction false} JustifiedForever(s: State, events: seq<Event>, n: nat)
    requires Inv(s) && n <= Decided(s) && Justified(s, n)
    ensures Justified(Run(s, events), n) && n <= Decided(Run(s, events))
    ensures n !in s.published ==> n !in Run(s, events).published
  {
    if events != [] {
      var before, e := events[..|events| - 1], events[|events| - 1];
      JustifiedForever(s, before, n);
      RunKeepsInv(s, before);
      StepKeepsInv(Run(s, before), e);
      JustifiedStep(Run(s, before), e, n);
    }
  }

  /** Every permanent event is appended to the audit chain at most once, and at once when it is
      imported, over any polls, crashes and receipt pruning. */
  lemma PermanentExactlyOnce(events: seq<Event>)
    ensures var s := Run(Start, events);
            && (forall i, j | 0 <= i < j < |s.db.core| :: s.db.core[i] != s.db.core[j])
            && (forall n :: n in s.db.core <==> n in s.db.imported && n in s.published && s.published[n] == Good(true))
  {
    RunKeepsInv(Start, events);
  }

  /* ---------------------------------------------------------------- accounting */

  /** Published files under the watermark that are still to be imported. */
  function Remaining(s: State): set<nat> {
    set n | n in s.files && n <= s.db.last && Covered(s.markers, n) && n !in s.db.imported
  }

  predicate Balanced(s: State) {
    s.db.last == |s.db.imported| + s.db.gap + |Remaining(s)|
  }

  /** Every file under the watermark is readable and belongs to this instance. */
  predicate Tidy(s: State) {
    forall n | n in s.files && n in s.published && Covered(s.markers, n) :: s.published[n].Good?
  }

  /** A cleaner deletes file `n` only when the importer neither still needs nor is about to read it. */
  predicate Survives(s: State, n: nat) {
    && (n <= s.db.last ==> n in s.db.imported || n in s.db.missed)
    && (s.importer.Listed? && n in s.importer.files ==> s.importer.w < n)
    && (s.importer.Importing? && n in s.importer.queue ==> s.importer.w < n)
  }

  predicate Orderly(s: State, events: seq<Event>) {
    && Tidy(Run(s, events))
    && (events == [] ||
        var before, last := events[..|events| - 1], events[|events| - 1];
        Orderly(s, before) && (last.CleanDelete? ==> Survives(Run(s, before), last.n)))
  }

  predicate Accounted(s: State) {
    AccountedDb(s) && AccountedQueue(s)
  }

  predicate AccountedDb(s: State) {
    && (forall n | 1 <= n <= s.db.last :: n in s.db.imported || n in s.db.missed || n in Remaining(s))
    && s.db.imported !! s.db.missed
    && s.db.gap == |s.db.missed|
  }

  predicate AccountedQueue(s: State) {
    && (s.importer.Listed? ==> forall n | n in s.importer.files && n <= s.importer.w :: n in s.files)
    && (s.importer.Importing? ==> forall n | n in s.importer.queue && n <= s.importer.w :: n in s.files)
  }

  lemma DisjointUnionSize(a: set<nat>, b: set<nat>)
    requires a !! b
    ensures |a + b| == |a| + |b|
  {
  }

  /** A sequence up to the cursor is imported, missed or still waiting, and is it once. */
  lemma AccountedOnce(s: State, n: nat)
    requires DirectoryOk(s) && DbOk(s) && Accounted(s) && Tidy(s)
    ensures n in s.db.imported || n in s.db.missed || n in Remaining(s) <==> 1 <= n <= s.db.last
    ensures n in Remaining(s) ==> n !in s.db.missed && n !in s.db.imported
  {
    if n in s.db.imported { assert ImportedOk(s, n); }
    if n in s.db.missed { assert MissedOk(s, n); }
  }

  lemma AccountedCovers(s: State)
    requires DirectoryOk(s) && DbOk(s) && Accounted(s) && Tidy(s)
    ensures Range(1, s.db.last) == s.db.imported + s.db.missed + Remaining(s)
    ensures s.db.missed !! Remaining(s) && s.db.imported !! Remaining(s)
  {
    forall n: nat
      ensures n in Range(1, s.db.last) <==> n in s.db.imported + s.db.missed + Remaining(s)
      ensures n in Remaining(s) ==> n !in s.db.missed && n !in s.db.imported
    {
      AccountedOnce(s, n);
    }
  }

  lemma AccountedBalances(s: State)
    requires Inv(s) && Accounted(s) && Tidy(s)
    ensures Balanced(s)
  {
    AccountedCovers(s);
    DisjointUnionSize(s.db.imported, s.db.missed);
    DisjointUnionSize(s.db.imported + s.db.missed, Remaining(s));
  }

  /** A file that is not readable here is a new one; and no file read here was counted as missing. */
  lemma TidyRead(s: State)
    requires DirectoryOk(s) && ImporterOk(s) && DbOk(s) && Accounted(s) && Tidy(s)
    requires s.importer.Importing? && s.importer.queue != []
    ensures var n := s.importer.queue[0];
      && n !in s.db.missed
      && (Read(s, n).None? || !Read(s, n).value.Good? ==> s.db.last < n && n !in s.db.imported)
  {
    var n := s.importer.queue[0];
    assert n in s.importer.queue;
    DbFacts(s);
    if n <= s.db.last {
      assert n in s.files && Covered(s.markers, n);
    }
  }

  lemma AccountedFileStep(s: State)
    requires DirectoryOk(s) && ImporterOk(s) && DbOk(s) && Accounted(s) && Tidy(s)
    ensures Accounted(Next(s, FileStep))
  {
    var t := Next(s, FileStep);
    if t != s {
      var n := s.importer.queue[0];
      TidyRead(s);
      ReadAccounted(s, n);
      assert Remaining(t) == Remaining(s.(db := t.db));
      forall m | m in t.importer.queue ensures m in s.importer.queue {}
    }
  }

  lemma ReadAccounted(s: State, n: nat)
    requires AccountedDb(s) && 1 <= n <= s.db.last + 1 && n !in s.db.missed
    requires Read(s, n).None? || !Read(s, n).value.Good? ==> s.db.last < n && n !in s.db.imported
    requires n in s.db.receipts ==> n in s.db.imported
    ensures AccountedDb(s.(db := FileDb(s.db, n, Read(s, n))))
  {
    var t := s.(db := FileDb(s.db, n, Read(s, n)));
    forall m | 1 <= m <= t.db.last ensures m in t.db.imported || m in t.db.missed || m in Remaining(t) {
      assert m <= s.db.last || m == n;
      assert m in Remaining(s) && m !in t.db.imported ==> m in Remaining(t);
    }
  }

  lemma AccountedGap(s: State)
    requires ImporterOk(s) && DbOk(s) && Accounted(s)
    ensures Accounted(Next(s, GapStep))
  {
    DbFacts(s);
    if s.importer.Importing? && s.importer.queue != [] && !ReadyToRead(s.db, s.importer.queue[0], s.importer.w) {
      DisjointUnionSize(s.db.missed, Range(GapFrom(s.db, s.importer.w), s.importer.queue[0] - 1));
    }
  }

  lemma AccountedTail(s: State)
    requires ImporterOk(s) && DbOk(s) && Accounted(s)
    ensures Accounted(Next(s, TailStep))
  {
    DbFacts(s);
    if s.importer.Importing? && s.importer.queue == [] && s.importer.tail.Some? {
      DisjointUnionSize(s.db.missed, Range(Max(s.db.last, s.importer.w) + 1, s.importer.tail.value));
    }
  }

  lemma AccountedTaken(s: State, listed: set<nat>, w: nat)
    requires DbOk(s) && Accounted(s) && (w > 0 ==> w in s.markers)
    requires forall n | n in listed && n <= w :: n in s.files
    ensures Accounted(s.(db := BeginDb(s.db, listed, w), importer := Waiting))
  {
    DbFacts(s);
    var t := s.(db := BeginDb(s.db, listed, w), importer := Waiting);
    if s.db.last < w {
      var lost := Range(s.db.last + 1, w) - listed;
      assert t.db == s.db.(last := w, gap := s.db.gap + |lost|, missed := s.db.missed + lost);
      DisjointUnionSize(s.db.missed, lost);
      forall n | 1 <= n <= w && n !in t.db.imported && n !in t.db.missed ensures n in Remaining(t) {
        UnderWatermark(s, w, n);
        if n <= s.db.last { assert n in Remaining(s); }
      }
    } else {
      assert t.db == s.db && Remaining(t) == Remaining(s);
    }
  }

  lemma AccountedBegin(s: State, queue: seq<nat>)
    requires ImporterOk(s) && DbOk(s) && Accounted(s) && s.importer.Listed?
    ensures Accounted(Next(s, Begin(queue)))
  {
    var i, t := s.importer, Next(s, Begin(queue));
    if t.importer.Importing? {
      AccountedQueued(s, queue, i.files, i.w, TailOf(i.meta, i.w), i.horizon);
    } else {
      assert Remaining(t) == Remaining(s);
    }
  }

  lemma AccountedQueued(s: State, queue: seq<nat>, listed: set<nat>, w: nat, tail: Option<nat>, horizon: nat)
    requires DbOk(s) && Accounted(s) && (w > 0 ==> w in s.markers)
    requires forall n | n in listed && n <= w :: n in s.files
    requires forall n | n in queue :: n in listed
    ensures Accounted(Taken(s, queue, listed, w, tail, horizon))
  {
    var t := Taken(s, queue, listed, w, tail, horizon);
    var u := s.(db := t.db, importer := Waiting);
    AccountedTaken(s, listed, w);
    assert Remaining(u) == Remaining(t);
  }

  lemma AccountedOther(s: State, e: Event)
    requires Inv(s) && Accounted(s)
    requires !e.Begin? && !e.GapStep? && !e.TailStep? && !e.FileStep?
    requires e.CleanDelete? ==> Survives(s, e.n)
    ensures Accounted(Next(s, e))
  {
    var t := Next(s, e);
    assert forall m | m in s.markers :: m in t.markers;
  }

  lemma {:induction false} RunAccounted(events: seq<Event>)
    requires Orderly(Start, events)
    ensures Accounted(Run(Start, events))
  {
    if events != [] {
      var before, e := events[..|events| - 1], events[|events| - 1];
      RunAccounted(before);
      RunKeepsInv(Start, before);
      var s := Run(Start, before);
      match e
      case Begin(queue) => if s.importer.Listed? { AccountedBegin(s, queue); }
      case GapStep => AccountedGap(s);
      case TailStep => AccountedTail(s);
      case FileStep => AccountedFileStep(s);
      case _ => AccountedOther(s, e);
    }
  }

  /** At every point of an orderly run the cursor is the number of distinct imported sequences
      plus the gap count plus the retained files still waiting under the watermark. */
  lemma SpoolAccounting(events: seq<Event>)
    requires Orderly(Start, events)
    ensures var s := Run(Start, events);
            s.db.last == |s.db.imported| + s.db.gap + |Remaining(s)|
  {
    RunAccounted(events);
    RunKeepsInv(Start, events);
    AccountedBalances(Run(Start, events));
  }

  /** How reading one file moves the set that is still waiting. */
  lemma RemainingAfterRead(s: State, n: nat)
    requires Inv(s) && (n <= s.db.last || n == s.db.last + 1)
    ensures var t := s.(db := FileDb(s.db, n, Read(s, n)));
            Remaining(t) == if n in s.files && Covered(s.markers, n) && n !in t.db.imported
                            then Remaining(s) + {n} else Remaining(s) - {n}
  {
    DbFacts(s);
  }

  lemma ReadableBalances(s: State, n: nat)
    requires Inv(s) && Balanced(s) && 1 <= n <= s.db.last + 1
    requires n <= s.db.last ==> Covered(s.markers, n)
    requires Read(s, n).Some? && Read(s, n).value.Good?
    ensures Balanced(s.(db := FileDb(s.db, n, Read(s, n))))
  {
    DbFacts(s);
    var t := s.(db := FileDb(s.db, n, Read(s, n)));
    RemainingAfterRead(s, n);
    assert Remaining(t) == Remaining(s) - {n};
    if n in s.db.imported {
      assert t.db.imported == s.db.imported && t.db.last == s.db.last && n !in Remaining(s);
    } else {
      assert t.db.imported == s.db.imported + {n};
      assert n in Remaining(s) <==> n <= s.db.last;
    }
  }

  lemma UnreadableBalancesExactly(s: State, n: nat)
    requires Inv(s) && Balanced(s) && 1 <= n <= s.db.last + 1
    requires n <= s.db.last ==> Covered(s.markers, n)
    requires Read(s, n).None? || !Read(s, n).value.Good?
    ensures Balanced(s.(db := FileDb(s.db, n, Read(s, n)))) <==>
              s.db.last < n && !(n in s.files && Covered(s.markers, n))
  {
    var t := s.(db := FileDb(s.db, n, Read(s, n)));
    RemainingAfterRead(s, n);
    UnreadableRow(s, n);
    if n in s.files && Covered(s.markers, n) {
      assert |Remaining(t)| == |Remaining(s)| + if n <= s.db.last then 0 else 1;
    }
  }

  /** What an unreadable file does to the row, and where it stands before. */
  lemma UnreadableRow(s: State, n: nat)
    requires Inv(s) && 1 <= n <= s.db.last + 1 && (n <= s.db.last ==> Covered(s.markers, n))
    requires Read(s, n).None? || !Read(s, n).value.Good?
    ensures FileDb(s.db, n, Read(s, n)) == s.db.(last := Max(s.db.last, n), gap := s.db.gap + 1, missed := s.db.missed + {n})
    ensures n in s.files ==> n !in s.db.imported
    ensures n in Remaining(s) <==> n <= s.db.last && n in s.files
  {
    DbFacts(s);
  }

  /** Reading one file keeps the account exactly when the file is readable and ours, or is new
      and not also held under the watermark: an unreadable file there is counted at every poll. */
  lemma FileStepBalancesExactly(s: State)
    requires Inv(s) && Balanced(s)
    requires s.importer.Importing? && s.importer.queue != []
    requires ReadyToRead(s.db, s.importer.queue[0], s.importer.w)
    ensures var n := s.importer.queue[0];
            Balanced(Next(s, FileStep)) <==>
              || (Read(s, n).Some? && Read(s, n).value.Good?)
              || (s.db.last < n && !(n in s.files && Covered(s.markers, n)))
  {
    var n, t := s.importer.queue[0], Next(s, FileStep);
    assert n in s.importer.queue;
    if n <= s.db.last { UnderWatermark(s, s.importer.w, n); }
    if Read(s, n).Some? && Read(s, n).value.Good? { ReadableBalances(s, n); } else { UnreadableBalancesExactly(s, n); }
    assert Remaining(t) == Remaining(s.(db := t.db));
  }
}
