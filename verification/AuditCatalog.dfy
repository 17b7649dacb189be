/** The metadata catalog of src/audit/query.ts: the action and site choices of a log are kept
    up to date from one query to the next instead of being rebuilt. */
module AuditCatalog {
  import opened Options

  /** One projected row. `action` stands for the pair of category and action. */
  datatype Fact = Fact(sequence: nat, eventId: string, at: nat, action: string, site: Option<string>, siteName: Option<string>)

  /** The rows of one log by sequence, which AUTOINCREMENT never uses twice. */
  type Table = map<nat, Fact>

  datatype Catalog = Catalog(sequence: nat, headId: Option<string>, actions: map<string, Fact>, sites: map<string, Fact>)

  datatype Kind = ByAction | BySite

  function KeyOf(kind: Kind, f: Fact): Option<string> {
    if kind.ByAction? then Some(f.action) else f.site
  }

  predicate Later(a: Fact, b: Fact) {
    a.at > b.at || (a.at == b.at && a.sequence > b.sequence)
  }

  predicate Numbered(t: Table) {
    forall s | s in t :: s > 0 && t[s].sequence == s
  }

  /** The row of the highest sequence, zero for an empty log. */
  predicate IsHead(t: Table, sequence: nat, id: Option<string>) {
    && (forall s | s in t :: s <= sequence)
    && if t == map[] then sequence == 0 && id.None? else sequence in t && id == Some(t[sequence].eventId)
  }

  function Rows(t: Table, above: nat, cutoff: nat): set<Fact> {
    set s | s in t && above < s && cutoff <= t[s].at :: t[s]
  }

  /** `f` may stand for its key among the rows: nothing there happened after it. Of rows at
      the same time the action query may return any, the site query only the last. */
  predicate Represents(rows: set<Fact>, kind: Kind, key: string, f: Fact) {
    && f in rows && KeyOf(kind, f) == Some(key)
    && forall g | g in rows && KeyOf(kind, g) == Some(key) ::
         g.at <= f.at && (kind.BySite? ==> !Later(g, f))
  }

  predicate Picks(rows: set<Fact>, kind: Kind, m: map<string, Fact>) {
    && (forall k | k in m :: Represents(rows, kind, k, m[k]))
    && (forall f | f in rows && KeyOf(kind, f).Some? :: KeyOf(kind, f).value in m)
  }

  /** The result of a grouping query over the rows: one representative per key. */
  predicate Grouped(rows: set<Fact>, kind: Kind, result: seq<Fact>) {
    && (forall f | f in result :: KeyOf(kind, f).Some? && Represents(rows, kind, KeyOf(kind, f).value, f))
    && (forall f {:trigger Shown(result, kind, f)} | f in rows && KeyOf(kind, f).Some? :: Shown(result, kind, f))
  }

  predicate Shown(result: seq<Fact>, kind: Kind, f: Fact) {
    exists g | g in result :: KeyOf(kind, g) == KeyOf(kind, f)
  }

  /** What a cold rebuild of the log returns. */
  predicate IsCatalog(t: Table, cutoff: nat, c: Catalog) {
    && IsHead(t, c.sequence, c.headId)
    && Picks(Rows(t, 0, cutoff), ByAction, c.actions)
    && Picks(Rows(t, 0, cutoff), BySite, c.sites)
  }

  /** A cold rebuild leaves no choice but the representative of an action at its latest time. */
  lemma CatalogDetermined(t: Table, cutoff: nat, a: Catalog, b: Catalog)
    requires Numbered(t) && IsCatalog(t, cutoff, a) && IsCatalog(t, cutoff, b)
    ensures a.sequence == b.sequence && a.headId == b.headId
    ensures a.sites == b.sites
    ensures a.actions.Keys == b.actions.Keys
    ensures forall k | k in a.actions :: a.actions[k].at == b.actions[k].at
  {
    HeadIsOne(t, a.sequence, a.headId, b.sequence, b.headId);
    PicksAgree(t, cutoff, BySite, a.sites, b.sites);
    PicksAgree(t, cutoff, ByAction, a.actions, b.actions);
  }

  lemma HeadIsOne(t: Table, a: nat, aId: Option<string>, b: nat, bId: Option<string>)
    requires IsHead(t, a, aId) && IsHead(t, b, bId)
    ensures a == b && aId == bId
  {
  }

  lemma PicksAgree(t: Table, cutoff: nat, kind: Kind, a: map<string, Fact>, b: map<string, Fact>)
    requires Numbered(t) && Picks(Rows(t, 0, cutoff), kind, a) && Picks(Rows(t, 0, cutoff), kind, b)
    ensures a.Keys == b.Keys
    ensures forall k | k in a :: a[k].at == b[k].at
    ensures kind.BySite? ==> a == b
  {
    var rows := Rows(t, 0, cutoff);
    forall k | k in a || k in b ensures k in a && k in b && a[k].at == b[k].at && (kind.BySite? ==> a[k] == b[k]) {
      if k in a { assert Represents(rows, kind, k, a[k]); }
      if k in b { assert Represents(rows, kind, k, b[k]); }
    }
  }

  /* ------------------------------------------------------------ reuse of a saved catalog */

  /** Rows may be appended under new sequences and, except in the core log, deleted; a row
      that survives keeps its projected fields. */
  predicate Evolves(was: Table, now: Table, deletes: bool) {
    && (forall s | s in now && s in was :: now[s] == was[s])
    && (forall s, o | s in now && s !in was && o in was :: o < s)
    && (!deletes ==> forall s | s in was :: s in now)
  }

  function Retained(m: map<string, Fact>, cutoff: nat): map<string, Fact> {
    map k | k in m && cutoff <= m[k].at :: m[k]
  }

  predicate WitnessesPresent(t: Table, m: map<string, Fact>) {
    forall k | k in m :: m[k].sequence in t && t[m[k].sequence] == m[k]
  }

  /** The part of the saved catalog that is still good, if any. */
  function Reusable(t: Table, head: nat, headId: Option<string>, cutoff: nat, activity: bool, saved: Option<Catalog>): Option<Catalog> {
    if saved.None? then None else
    var c := saved.value;
    if head < c.sequence || (head == c.sequence && headId != c.headId) then None
    else if head > c.sequence > 0 && !(c.sequence in t && Some(t[c.sequence].eventId) == c.headId) then None
    else if !activity then saved
    else
      var kept := c.(actions := Retained(c.actions, cutoff), sites := Retained(c.sites, cutoff));
      if WitnessesPresent(t, kept.actions) && WitnessesPresent(t, kept.sites) then Some(kept) else None
  }

  /** The rows that the grouping queries of one read select. */
  function Fresh(t: Table, head: nat, cutoff: nat, reused: Option<Catalog>): set<Fact> {
    if reused.None? then Rows(t, 0, cutoff)
    else if head > reused.value.sequence then Rows(t, reused.value.sequence, cutoff)
    else {}
  }

  lemma RowsSplit(t: Table, head: nat, headId: Option<string>, cutoff: nat, reused: Option<Catalog>)
    requires Numbered(t) && IsHead(t, head, headId) && (reused.Some? ==> reused.value.sequence <= head)
    ensures (if reused.Some? then Survivors(t, reused.value.sequence, cutoff) else {}) + Fresh(t, head, cutoff, reused)
            == Rows(t, 0, cutoff)
  {
  }

  /** Expiry and deletion of rows commute with taking the latest, as long as the witness stays. */
  lemma FewerRowsSamePick(rows: set<Fact>, fewer: set<Fact>, kind: Kind, m: map<string, Fact>, cutoff: nat)
    requires Picks(rows, kind, m) && fewer <= rows
    requires forall f | f in fewer :: cutoff <= f.at
    requires forall k | k in Retained(m, cutoff) :: m[k] in fewer
    ensures Picks(fewer, kind, Retained(m, cutoff))
  {
    var kept := Retained(m, cutoff);
    forall k | k in kept ensures Represents(fewer, kind, k, kept[k]) {
      assert Represents(rows, kind, k, m[k]);
    }
    forall f | f in fewer && KeyOf(kind, f).Some? ensures KeyOf(kind, f).value in kept {
      var k := KeyOf(kind, f).value;
      assert k in m && Represents(rows, kind, k, m[k]);
    }
  }

  /** The rows of a read that are not newer than the saved catalog. */
  function Survivors(t: Table, upTo: nat, cutoff: nat): set<Fact> {
    set s | s in t && 0 < s <= upTo && cutoff <= t[s].at :: t[s]
  }

  lemma SurvivorsAreOld(was: Table, wasCutoff: nat, t: Table, upTo: nat, cutoff: nat, deletes: bool)
    requires Numbered(was) && Numbered(t) && Evolves(was, t, deletes) && wasCutoff <= cutoff
    requires was == map[] ==> upTo == 0
    requires was != map[] ==> upTo in was
    ensures Survivors(t, upTo, cutoff) <= Rows(was, 0, wasCutoff)
  {
    forall s | s in t && 0 < s <= upTo && cutoff <= t[s].at ensures t[s] in Rows(was, 0, wasCutoff) {
      assert s in was;
      assert was[s] == t[s];
    }
  }

  lemma WitnessesSurvive(was: Table, wasCutoff: nat, t: Table, upTo: nat, cutoff: nat, kind: Kind, m: map<string, Fact>)
    requires Numbered(was) && Picks(Rows(was, 0, wasCutoff), kind, m)
    requires forall s | s in was :: s <= upTo
    requires forall k | k in m && cutoff <= m[k].at :: m[k].sequence in t && t[m[k].sequence] == m[k]
    ensures forall k | k in Retained(m, cutoff) :: m[k] in Survivors(t, upTo, cutoff)
  {
    forall k | k in Retained(m, cutoff) ensures m[k] in Survivors(t, upTo, cutoff) {
      assert Represents(Rows(was, 0, wasCutoff), kind, k, m[k]);
      var s: nat := m[k].sequence;
      assert s in was && s in t && t[s] == m[k];
    }
  }

  /** What survives the checks picks from the surviving old rows. */
  lemma ReusedPicks(was: Table, wasCutoff: nat, t: Table, head: nat, headId: Option<string>, cutoff: nat,
                    activity: bool, saved: Catalog, kind: Kind)
    requires Numbered(was) && Numbered(t) && IsCatalog(was, wasCutoff, saved) && IsHead(t, head, headId)
    requires Evolves(was, t, activity) && wasCutoff <= cutoff
    requires !activity ==> wasCutoff == cutoff == 0
    requires Reusable(t, head, headId, cutoff, activity, Some(saved)).Some?
    ensures var kept := Reusable(t, head, headId, cutoff, activity, Some(saved)).value;
            && kept.sequence == saved.sequence
            && Picks(Survivors(t, saved.sequence, cutoff), kind, if kind.ByAction? then kept.actions else kept.sites)
  {
    var m := if kind.ByAction? then saved.actions else saved.sites;
    SurvivorsAreOld(was, wasCutoff, t, saved.sequence, cutoff, activity);
    if !activity {
      assert Retained(m, cutoff) == m;
      forall k | k in m ensures m[k].sequence in t && t[m[k].sequence] == m[k] {
        assert Represents(Rows(was, 0, wasCutoff), kind, k, m[k]);
        var s: nat := m[k].sequence;
        assert s in was && was[s] == m[k];
      }
    } else {
      assert WitnessesPresent(t, Retained(m, cutoff));
      assert forall k | k in m && cutoff <= m[k].at :: k in Retained(m, cutoff) && Retained(m, cutoff)[k] == m[k];
    }
    WitnessesSurvive(was, wasCutoff, t, saved.sequence, cutoff, kind, m);
    FewerRowsSamePick(Rows(was, 0, wasCutoff), Survivors(t, saved.sequence, cutoff), kind, m, cutoff);
  }

  lemma ReusedBoth(was: Table, wasCutoff: nat, t: Table, head: nat, headId: Option<string>, cutoff: nat,
                   activity: bool, saved: Catalog)
    requires Numbered(was) && Numbered(t) && IsCatalog(was, wasCutoff, saved) && IsHead(t, head, headId)
    requires Evolves(was, t, activity) && wasCutoff <= cutoff
    requires !activity ==> wasCutoff == cutoff == 0
    requires Reusable(t, head, headId, cutoff, activity, Some(saved)).Some?
    ensures var kept := Reusable(t, head, headId, cutoff, activity, Some(saved)).value;
            && kept.sequence == saved.sequence <= head
            && Picks(Survivors(t, kept.sequence, cutoff), ByAction, kept.actions)
            && Picks(Survivors(t, kept.sequence, cutoff), BySite, kept.sites)
  {
    ReusedPicks(was, wasCutoff, t, head, headId, cutoff, activity, saved, ByAction);
    ReusedPicks(was, wasCutoff, t, head, headId, cutoff, activity, saved, BySite);
  }

  /** The map holds a fact for this one's key that did not happen earlier. */
  predicate Beaten(m: map<string, Fact>, kind: Kind, f: Fact) {
    KeyOf(kind, f).Some? && KeyOf(kind, f).value in m && !Later(f, m[KeyOf(kind, f).value])
  }

  lemma BeatenThroughBest(rows: set<Fact>, kind: Kind, m: map<string, Fact>, f: Fact, best: Fact)
    requires f in rows && KeyOf(kind, f).Some? && Represents(rows, kind, KeyOf(kind, f).value, best)
    requires Beaten(m, kind, best)
    ensures var k := KeyOf(kind, f).value; k in m && f.at <= m[k].at && (kind.BySite? ==> !Later(f, m[k]))
  {
  }

  lemma MergedBeats(older: set<Fact>, newer: set<Fact>, known: map<string, Fact>, rows: seq<Fact>, kind: Kind,
                    m: map<string, Fact>, f: Fact)
    requires Picks(older, kind, known) && Grouped(newer, kind, rows)
    requires forall k | k in known :: Beaten(m, kind, known[k])
    requires forall g | g in rows :: Beaten(m, kind, g)
    requires f in older + newer && KeyOf(kind, f).Some?
    ensures var k := KeyOf(kind, f).value; k in m && f.at <= m[k].at && (kind.BySite? ==> !Later(f, m[k]))
  {
    if f in older {
      BeatenThroughBest(older, kind, m, f, known[KeyOf(kind, f).value]);
    } else {
      assert Shown(rows, kind, f);
      var g :| g in rows && KeyOf(kind, g) == KeyOf(kind, f);
      BeatenThroughBest(newer, kind, m, f, g);
    }
  }

  lemma MergedPicks(older: set<Fact>, newer: set<Fact>, known: map<string, Fact>, rows: seq<Fact>, kind: Kind, m: map<string, Fact>)
    requires Picks(older, kind, known) && Grouped(newer, kind, rows)
    requires forall k | k in m :: m[k] in older + newer && KeyOf(kind, m[k]) == Some(k)
    requires forall k | k in known :: Beaten(m, kind, known[k])
    requires forall g | g in rows :: Beaten(m, kind, g)
    ensures Picks(older + newer, kind, m)
  {
    var all := older + newer;
    forall k | k in m ensures Represents(all, kind, k, m[k]) {
      forall f | f in all && KeyOf(kind, f) == Some(k) ensures f.at <= m[k].at && (kind.BySite? ==> !Later(f, m[k])) {
        MergedBeats(older, newer, known, rows, kind, m, f);
      }
    }
    forall f | f in all && KeyOf(kind, f).Some? ensures KeyOf(kind, f).value in m {
      MergedBeats(older, newer, known, rows, kind, m, f);
    }
  }

  function Remembered(m: map<string, Fact>, kind: Kind, f: Fact): map<string, Fact>
    requires KeyOf(kind, f).Some?
  {
    var key := KeyOf(kind, f).value;
    if key !in m || Later(f, m[key]) then m[key := f] else m
  }

  lemma RememberedBeats(m: map<string, Fact>, kind: Kind, f: Fact, g: Fact)
    requires KeyOf(kind, f).Some? && (Beaten(m, kind, g) || g == f)
    ensures Beaten(Remembered(m, kind, f), kind, g)
  {
  }

  /* ------------------------------------------------------------------ the answer */

  /** Sites of both logs; the activity log wins only with a strictly later fact. */
  function MergedSites(core: map<string, Fact>, activity: map<string, Fact>): map<string, Fact> {
    map id | id in core.Keys + activity.Keys ::
      if id !in core || (id in activity && activity[id].at > core[id].at) then activity[id] else core[id]
  }

  /** What is shown of a site. */
  datatype Choice = Choice(name: Option<string>, deleted: bool)

  /** A site that is still configured has its present name; of any other the latest fact tells the name. */
  function Choices(facts: map<string, Fact>, current: map<string, Choice>): map<string, Choice> {
    map id | id in facts.Keys + current.Keys :: if id in current then current[id] else Choice(facts[id].siteName, true)
  }

  /** The answer does not depend on whether the catalogs were kept or rebuilt cold. */
  lemma SameAnswerAsColdRebuild(core: Table, activity: Table, cutoff: nat, c: Catalog, a: Catalog, coldC: Catalog, coldA: Catalog)
    requires Numbered(core) && Numbered(activity)
    requires IsCatalog(core, 0, c) && IsCatalog(core, 0, coldC)
    requires IsCatalog(activity, cutoff, a) && IsCatalog(activity, cutoff, coldA)
    ensures c.actions.Keys + a.actions.Keys == coldC.actions.Keys + coldA.actions.Keys
    ensures MergedSites(c.sites, a.sites) == MergedSites(coldC.sites, coldA.sites)
    ensures forall current :: Choices(MergedSites(c.sites, a.sites), current) == Choices(MergedSites(coldC.sites, coldA.sites), current)
  {
    CatalogDetermined(core, 0, c, coldC);
    CatalogDetermined(activity, cutoff, a, coldA);
  }

  /** The answered fact of a site is the latest retained one of both logs. */
  lemma AnswerIsLatest(core: Table, activity: Table, cutoff: nat, c: Catalog, a: Catalog, f: Fact)
    requires IsCatalog(core, 0, c) && IsCatalog(activity, cutoff, a)
    requires f in Rows(core, 0, 0) + Rows(activity, 0, cutoff) && f.site.Some?
    ensures var sites := MergedSites(c.sites, a.sites);
            && f.site.value in sites && f.at <= sites[f.site.value].at
            && sites[f.site.value] in Rows(core, 0, 0) + Rows(activity, 0, cutoff)
  {
    var id := f.site.value;
    if id in c.sites { assert Represents(Rows(core, 0, 0), BySite, id, c.sites[id]); }
    if id in a.sites { assert Represents(Rows(activity, 0, cutoff), BySite, id, a.sites[id]); }
    assert KeyOf(BySite, f) == Some(id);
  }

  datatype Cache = Cache(version: nat, cutoff: nat, core: Catalog, activity: Catalog)

  /** The catalog kept with one database connection. */
  class MetadataCache {
    var cache: Option<Cache>
    // The two logs as they were when the catalog was kept.
    ghost var seenCore: Table
    ghost var seenActivity: Table

    ghost predicate Valid()
      reads this
    {
      cache.Some? ==>
        && Numbered(seenCore) && IsCatalog(seenCore, 0, cache.value.core)
        && Numbered(seenActivity) && IsCatalog(seenActivity, cache.value.cutoff, cache.value.activity)
    }

    constructor ()
      ensures Valid() && cache.None?
    {
      cache := None;
    }

    /** The kept catalog, unless a foreign write, a schema change, a clock that ran backwards or
        an open transaction rules it out. `version` stands for both version pragmas. */
    function Previous(version: nat, cutoff: nat, inTransaction: bool): Option<Cache>
      reads this
    {
      if !inTransaction && cache.Some? && cache.value.version == version && cache.value.cutoff <= cutoff then cache else None
    }

    /** rememberFact over the rows of one grouping query. */
    method Remember(known: map<string, Fact>, rows: seq<Fact>, kind: Kind, ghost older: set<Fact>, ghost newer: set<Fact>)
      returns (m: map<string, Fact>)
      requires Picks(older, kind, known) && Grouped(newer, kind, rows)
      ensures Picks(older + newer, kind, m)
    {
      m := known;
      for i := 0 to |rows|
        invariant forall k | k in m :: m[k] in older + newer && KeyOf(kind, m[k]) == Some(k)
        invariant forall k | k in known :: Beaten(m, kind, known[k])
        invariant forall j | 0 <= j < i :: Beaten(m, kind, rows[j])
      {
        assert rows[i] in rows;
        ghost var before := m;
        m := Remembered(m, kind, rows[i]);
        forall k | k in known ensures Beaten(m, kind, known[k]) { RememberedBeats(before, kind, rows[i], known[k]); }
        forall j | 0 <= j <= i ensures Beaten(m, kind, rows[j]) { RememberedBeats(before, kind, rows[i], rows[j]); }
      }
      MergedPicks(older, newer, known, rows, kind, m);
    }

    /** readMetadataSource. The row arguments are what the two grouping queries return. */
    method ReadSource(t: Table, head: nat, headId: Option<string>, cutoff: nat, activity: bool, saved: Option<Catalog>,
                      actionRows: seq<Fact>, siteRows: seq<Fact>, ghost was: Table, ghost wasCutoff: nat)
      returns (c: Catalog)
      requires Numbered(t) && IsHead(t, head, headId) && (!activity ==> cutoff == 0)
      requires saved.Some? ==> && Numbered(was) && IsCatalog(was, wasCutoff, saved.value)
                               && Evolves(was, t, activity) && wasCutoff <= cutoff
      requires var added := Fresh(t, head, cutoff, Reusable(t, head, headId, cutoff, activity, saved));
               Grouped(added, ByAction, actionRows) && Grouped(added, BySite, siteRows)
      ensures IsCatalog(t, cutoff, c)
    {
      var kept := Reusable(t, head, headId, cutoff, activity, saved);
      var actions: map<string, Fact> := map[];
      var sites: map<string, Fact> := map[];
      ghost var added := Fresh(t, head, cutoff, kept);
      ghost var older := if kept.Some? then Survivors(t, kept.value.sequence, cutoff) else {};
      if kept.Some? {
        actions, sites := kept.value.actions, kept.value.sites;
        ReusedBoth(was, wasCutoff, t, head, headId, cutoff, activity, saved.value);
      }
      RowsSplit(t, head, headId, cutoff, kept);
      assert Picks(older, ByAction, actions) && Picks(older, BySite, sites);
      if kept.None? || head > kept.value.sequence {
        actions := Remember(actions, actionRows, ByAction, older, added);
        sites := Remember(sites, siteRows, BySite, older, added);
      } else {
        assert older + added == older;
      }
      c := Catalog(head, headId, actions, sites);
    }

    function PreviousCore(version: nat, cutoff: nat, inTransaction: bool): Option<Catalog>
      reads this
    {
      var p := Previous(version, cutoff, inTransaction);
      if p.Some? then Some(p.value.core) else None
    }

    function PreviousActivity(version: nat, cutoff: nat, inTransaction: bool): Option<Catalog>
      reads this
    {
      var p := Previous(version, cutoff, inTransaction);
      if p.Some? then Some(p.value.activity) else None
    }

    /** queryAuditMetadata up to the order of display. `current` is the table of sites, empty without one. */
    method Query(core: Table, coreHead: nat, coreHeadId: Option<string>, activity: Table, head: nat, headId: Option<string>,
                 cutoff: nat, version: nat, inTransaction: bool,
                 coreActions: seq<Fact>, coreSites: seq<Fact>, actionRows: seq<Fact>, siteRows: seq<Fact>,
                 current: map<string, Choice>)
      returns (actions: set<string>, sites: map<string, Choice>, ghost c: Catalog, ghost a: Catalog)
      requires Valid() && Numbered(core) && Numbered(activity)
      requires IsHead(core, coreHead, coreHeadId) && IsHead(activity, head, headId)
      requires Previous(version, cutoff, inTransaction).Some? ==>
                 Evolves(seenCore, core, false) && Evolves(seenActivity, activity, true)
      requires var added := Fresh(core, coreHead, 0,
                 Reusable(core, coreHead, coreHeadId, 0, false, PreviousCore(version, cutoff, inTransaction)));
               Grouped(added, ByAction, coreActions) && Grouped(added, BySite, coreSites)
      requires var added := Fresh(activity, head, cutoff,
                 Reusable(activity, head, headId, cutoff, true, PreviousActivity(version, cutoff, inTransaction)));
               Grouped(added, ByAction, actionRows) && Grouped(added, BySite, siteRows)
      modifies this
      ensures Valid()
      ensures IsCatalog(core, 0, c) && IsCatalog(activity, cutoff, a)
      ensures actions == c.actions.Keys + a.actions.Keys && sites == Choices(MergedSites(c.sites, a.sites), current)
      ensures cache == if inTransaction then old(cache) else Some(Cache(version, cutoff, c, a))
      ensures !inTransaction ==> seenCore == core && seenActivity == activity
    {
      var x := ReadSource(core, coreHead, coreHeadId, 0, false, PreviousCore(version, cutoff, inTransaction),
                          coreActions, coreSites, seenCore, 0);
      var y := ReadSource(activity, head, headId, cutoff, true, PreviousActivity(version, cutoff, inTransaction),
                          actionRows, siteRows, seenActivity, if cache.Some? then cache.value.cutoff else 0);
      if !inTransaction {
        cache := Some(Cache(version, cutoff, x, y));
        seenCore, seenActivity := core, activity;
      }
      actions, sites := x.actions.Keys + y.actions.Keys, Choices(MergedSites(x.sites, y.sites), current);
      c, a := x, y;
    }
  }
}
