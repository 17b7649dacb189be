/** The hash chain of the audit events: src/database/audit-chain.ts inspects what `appendAuditEvent`
    of src/database/identity-store.ts writes. The hash is a parameter; where a result needs it to
    be injective, it says so. */
module AuditChain {
  import opened Numbers
  import opened Options

  const VERSION := "perpay-audit-v1"
  const NUL: char := '\0'

  datatype Event = Event(eventId: string, occurredAt: int, actorType: string, actorId: Option<string>, action: string,
                         outcome: string, subjectType: Option<string>, subjectId: Option<string>, requestId: Option<string>,
                         remote: Option<string>, details: string, previous: Option<string>)

  datatype Row = Row(sequence: int, event: Event, hash: string)

  datatype Anchor = Anchor(count: int, sequence: Option<int>, hash: Option<string>)

  /* ---------------------------------------------------------------- the payload */

  function Digit(d: nat): char
    requires d < 10
  {
    "0123456789"[d]
  }

  function Decimal(n: nat): string {
    if n < 10 then [Digit(n)] else Decimal(n / 10) + [Digit(n % 10)]
  }

  function OrEmpty(value: Option<string>): string {
    if value.Some? then value.value else ""
  }

  function Fields(e: Event): seq<string>
    requires e.occurredAt >= 0
  {
    [VERSION, e.eventId, Decimal(e.occurredAt), e.actorType, OrEmpty(e.actorId), e.action, e.outcome,
     OrEmpty(e.subjectType), OrEmpty(e.subjectId), OrEmpty(e.requestId), OrEmpty(e.remote), e.details, OrEmpty(e.previous)]
  }

  function Join(fields: seq<string>): string {
    if fields == [] then "" else if |fields| == 1 then fields[0] else fields[0] + [NUL] + Join(fields[1..])
  }

  function Payload(e: Event): string
    requires e.occurredAt >= 0
  {
    Join(Fields(e))
  }

  predicate Plain(s: string) {
    NUL !in s
  }

  predicate Present(value: Option<string>) {
    value.Some? ==> value.value != "" && Plain(value.value)
  }

  /** What the validation of inputs and the shape of UUIDs, hashes and JSON texts leave of a row. */
  predicate WellFormed(e: Event) {
    && 0 <= e.occurredAt <= MAX_SAFE && Plain(e.eventId) && Plain(e.actorType) && Plain(e.action) && Plain(e.outcome)
    && Present(e.actorId) && Present(e.subjectType) && Present(e.subjectId) && Present(e.requestId) && Present(e.remote)
    && Plain(e.details) && Present(e.previous)
  }

  lemma {:induction false} DecimalDigits(n: nat)
    ensures Decimal(n) != [] && Plain(Decimal(n)) && (n > 0 ==> Decimal(n)[0] != '0')
  {
    if n >= 10 {
      DecimalDigits(n / 10);
    }
  }

  lemma {:induction false} DecimalInjective(a: nat, b: nat)
    requires Decimal(a) == Decimal(b)
    ensures a == b
  {
    var s, t := Decimal(a), Decimal(b);
    assert s[|s| - 1] == Digit(a % 10) && t[|t| - 1] == Digit(b % 10);
    DecimalDigits(a / 10);
    DecimalDigits(b / 10);
    if a >= 10 && b >= 10 {
      assert s[..|s| - 1] == Decimal(a / 10) && t[..|t| - 1] == Decimal(b / 10);
      DecimalInjective(a / 10, b / 10);
    }
  }

  lemma SplitAtNul(x: string, r: string, y: string, s: string)
    requires Plain(x) && Plain(y) && x + [NUL] + r == y + [NUL] + s
    ensures x == y && r == s
  {
    var whole := x + [NUL] + r;
    assert whole == y + [NUL] + s;
    assert whole[|x|] == NUL && whole[|y|] == NUL;
    assert |x| == |y|;
    assert whole[..|x|] == x && whole[..|y|] == y;
    assert whole[|x| + 1..] == r && whole[|y| + 1..] == s;
  }

  /** Joining by NUL loses nothing of fields without a NUL. */
  lemma {:induction false} JoinInjective(a: seq<string>, b: seq<string>)
    requires |a| == |b| && Join(a) == Join(b)
    requires forall i | 0 <= i < |a| :: Plain(a[i]) && Plain(b[i])
    ensures a == b
  {
    if |a| > 1 {
      SplitAtNul(a[0], Join(a[1..]), b[0], Join(b[1..]));
      JoinInjective(a[1..], b[1..]);
      assert a == [a[0]] + a[1..] && b == [b[0]] + b[1..];
    }
  }

  lemma PlainFields(e: Event)
    requires WellFormed(e)
    ensures forall i | 0 <= i < |Fields(e)| :: Plain(Fields(e)[i])
  {
    DecimalDigits(e.occurredAt);
  }

  /** Two rows of valid fields have the same payload only if they are the same. */
  lemma PayloadInjective(a: Event, b: Event)
    requires WellFormed(a) && WellFormed(b) && Payload(a) == Payload(b)
    ensures a == b
  {
    PlainFields(a);
    PlainFields(b);
    JoinInjective(Fields(a), Fields(b));
    var f, g := Fields(a), Fields(b);
    assert f[2] == g[2];
    DecimalInjective(a.occurredAt, b.occurredAt);
    assert f[1] == g[1] && f[3] == g[3] && f[5] == g[5] && f[6] == g[6] && f[11] == g[11];
    assert f[4] == g[4] && f[7] == g[7] && f[8] == g[8] && f[9] == g[9] && f[10] == g[10] && f[12] == g[12];
  }

  /** Without the validation it is not so: a NUL inside a field can move to the next, and an empty
      text stands for an absent one. */
  lemma ValidationIsNeeded(e: Event)
    requires e.occurredAt >= 0
    ensures Payload(e.(actorId := None)) == Payload(e.(actorId := Some("")))
    ensures Payload(e.(subjectType := Some(['a', NUL, 'b']), subjectId := Some("c")))
            == Payload(e.(subjectType := Some("a"), subjectId := Some(['b', NUL, 'c'])))
  {
    assert Fields(e.(actorId := None)) == Fields(e.(actorId := Some("")));
    NulMoves(e);
  }

  lemma NulMoves(e: Event)
    requires e.occurredAt >= 0
    ensures Payload(e.(subjectType := Some(['a', NUL, 'b']), subjectId := Some("c")))
            == Payload(e.(subjectType := Some("a"), subjectId := Some(['b', NUL, 'c'])))
  {
    var a := e.(subjectType := Some(['a', NUL, 'b']), subjectId := Some("c"));
    var b := e.(subjectType := Some("a"), subjectId := Some(['b', NUL, 'c']));
    JoinFrom(Fields(a), Fields(b), 7);
    var f, g := Fields(a)[7..], Fields(b)[7..];
    assert f[1..][1..] == g[1..][1..];
    JoinTwo(f);
    JoinTwo(g);
    var rest := Join(f[1..][1..]);
    assert ['a', NUL, 'b'] + [NUL] + ("c" + [NUL] + rest) == "a" + [NUL] + (['b', NUL, 'c'] + [NUL] + rest);
    assert Fields(a)[..7] == Fields(b)[..7];
  }

  lemma JoinTwo(f: seq<string>)
    requires |f| > 2
    ensures Join(f) == f[0] + [NUL] + (f[1] + [NUL] + Join(f[1..][1..]))
  {
    assert f[1..][0] == f[1] && |f[1..]| > 1;
  }

  lemma {:induction false} JoinFrom(a: seq<string>, b: seq<string>, n: nat)
    requires n < |a| && n < |b| && a[..n] == b[..n]
    ensures Join(a[n..]) == Join(b[n..]) ==> Join(a) == Join(b)
  {
    if n > 0 {
      assert a[0] == a[..n][0] == b[..n][0] == b[0];
      assert a[1..][..n - 1] == a[..n][1..] && b[1..][..n - 1] == b[..n][1..];
      assert a[1..][n - 1..] == a[n..] && b[1..][n - 1..] == b[n..];
      JoinFrom(a[1..], b[1..], n - 1);
    }
  }

  /* ---------------------------------------------------------------- the inspection */

  function LastHash(rows: seq<Row>): Option<string> {
    if rows == [] then None else Some(rows[|rows| - 1].hash)
  }

  function LastSequence(rows: seq<Row>): Option<int> {
    if rows == [] || !Safe(rows[|rows| - 1].sequence) then None else Some(rows[|rows| - 1].sequence)
  }

  predicate Safe(n: int) {
    -(MAX_SAFE as int) <= n <= MAX_SAFE
  }

  function LinkViolations(rows: seq<Row>): nat {
    if rows == [] then 0 else
    var n := |rows| - 1;
    LinkViolations(rows[..n])
    + (if !Safe(rows[n].sequence) || rows[n].sequence != n + 1 then 1 else 0)
    + (if rows[n].event.previous != LastHash(rows[..n]) then 1 else 0)
  }

  function HashViolations(rows: seq<Row>, hash: string -> string): nat {
    if rows == [] then 0 else
    var n := |rows| - 1;
    HashViolations(rows[..n], hash) + if HashOk(rows[n], hash) then 0 else 1
  }

  predicate HashOk(r: Row, hash: string -> string) {
    0 <= r.event.occurredAt <= MAX_SAFE && r.hash == hash(Payload(r.event))
  }

  function AnchorViolations(rows: seq<Row>, anchors: seq<Anchor>): nat {
    if anchors == [Anchor(|rows|, LastSequence(rows), LastHash(rows))] then 0 else 1
  }

  /* ---------------------------------------------------------------- the contexts of the events */

  /** What an event's details say of its context: nothing, something that is no text, or a fingerprint. */
  datatype Claim = NoClaim | OtherClaim | Claims(fingerprint: string)

  datatype Facts = Facts(activityId: Option<string>, sourceAddress: Option<string>, userAgent: Option<string>,
                         siteId: Option<string>, siteName: Option<string>)

  datatype Context = Context(json: string, fingerprint: string, facts: Facts)

  type Contexts = map<string, Context>

  /** How texts are read: the claim of an event's details, the fingerprint of a context's JSON text, and
      the facts that a valid context states. */
  datatype Reading = Reading(claim: string -> Claim, fingerprint: string -> string, facts: string -> Option<Facts>)

  predicate ContextOk(r: Row, contexts: Contexts, reading: Reading) {
    var claim := reading.claim(r.event.details);
    if r.event.eventId !in contexts then claim.NoClaim? else
    var context := contexts[r.event.eventId];
    && claim == Claims(context.fingerprint) && context.fingerprint == reading.fingerprint(context.json)
    && reading.facts(context.json) == Some(context.facts)
  }

  function MismatchedContexts(rows: seq<Row>, contexts: Contexts, reading: Reading): nat {
    if rows == [] then 0 else
    var n := |rows| - 1;
    MismatchedContexts(rows[..n], contexts, reading) + if ContextOk(rows[n], contexts, reading) then 0 else 1
  }

  function Orphans(rows: seq<Row>, contexts: Contexts): set<string> {
    set id | id in contexts && forall k | 0 <= k < |rows| :: rows[k].event.eventId != id
  }

  /** A missing table counts like an empty one: a claim without it is reported. */
  function ContextViolations(rows: seq<Row>, contexts: Option<Contexts>, reading: Reading): nat {
    var table := if contexts.Some? then contexts.value else map[];
    MismatchedContexts(rows, table, reading) + |Orphans(rows, table)|
  }

  /** inspectAuditContexts. */
  method InspectContexts(rows: seq<Row>, contexts: Option<Contexts>, reading: Reading) returns (violations: nat)
    ensures violations == ContextViolations(rows, contexts, reading)
  {
    violations := 0;
    ghost var table := if contexts.Some? then contexts.value else map[];
    for i := 0 to |rows|
      invariant violations == MismatchedContexts(rows[..i], table, reading)
    {
      assert rows[..i + 1][..i] == rows[..i];
      var claim, id := reading.claim(rows[i].event.details), rows[i].event.eventId;
      if contexts.None? || id !in contexts.value {
        if !claim.NoClaim? { violations := violations + 1; }
      } else {
        var context := contexts.value[id];
        if claim != Claims(context.fingerprint) || claim != Claims(reading.fingerprint(context.json)) {
          violations := violations + 1;
        } else if reading.facts(context.json) != Some(context.facts) {
          violations := violations + 1;
        }
      }
    }
    assert rows[..|rows|] == rows;
    if contexts.Some? {
      violations := violations + |Orphans(rows, contexts.value)|;
    } else {
      assert Orphans(rows, table) == {};
    }
  }

  /** Each event has the context that it claims, and each context has an event that claims it. */
  predicate ContextsClean(rows: seq<Row>, contexts: Contexts, reading: Reading) {
    && (forall k | 0 <= k < |rows| :: ContextOk(rows[k], contexts, reading))
    && (forall id | id in contexts :: exists k :: 0 <= k < |rows| && rows[k].event.eventId == id)
  }

  lemma {:induction false} MismatchedExactly(rows: seq<Row>, contexts: Contexts, reading: Reading)
    ensures MismatchedContexts(rows, contexts, reading) == 0 <==> forall k | 0 <= k < |rows| :: ContextOk(rows[k], contexts, reading)
  {
    if rows != [] {
      MismatchedExactly(rows[..|rows| - 1], contexts, reading);
      assert rows == rows[..|rows| - 1] + [rows[|rows| - 1]];
    }
  }

  lemma ContextsCleanExactly(rows: seq<Row>, contexts: Contexts, reading: Reading)
    ensures ContextViolations(rows, Some(contexts), reading) == 0 <==> ContextsClean(rows, contexts, reading)
  {
    MismatchedExactly(rows, contexts, reading);
    if Orphans(rows, contexts) == {} {
      forall id | id in contexts ensures exists k :: 0 <= k < |rows| && rows[k].event.eventId == id {
        assert id !in Orphans(rows, contexts);
      }
    } else {
      var id :| id in Orphans(rows, contexts);
      assert |Orphans(rows, contexts)| > 0;
    }
  }

  ghost predicate Injective(f: string -> string) {
    forall s, t :: f(s) == f(t) ==> s == t
  }

  /** The chain also fixes the contexts: no context can be changed, removed or added beside the same rows
      without being reported. */
  lemma ContextsDetermined(rows: seq<Row>, a: Contexts, b: Contexts, reading: Reading)
    requires Injective(reading.fingerprint) && ContextsClean(rows, a, reading) && ContextsClean(rows, b, reading)
    ensures a == b
  {
    ContextsWithin(rows, a, b, reading);
    ContextsWithin(rows, b, a, reading);
    assert a.Keys == b.Keys;
  }

  lemma ContextsWithin(rows: seq<Row>, a: Contexts, b: Contexts, reading: Reading)
    requires Injective(reading.fingerprint) && ContextsClean(rows, a, reading) && ContextsClean(rows, b, reading)
    ensures forall id | id in a :: id in b && b[id] == a[id]
  {
    forall id | id in a ensures id in b && b[id] == a[id] {
      var k :| 0 <= k < |rows| && rows[k].event.eventId == id;
      assert ContextOk(rows[k], a, reading) && ContextOk(rows[k], b, reading);
    }
  }

  /** An append writes the context that its event claims. */
  lemma AppendKeepsContexts(rows: seq<Row>, contexts: Contexts, row: Row, context: Context, reading: Reading)
    requires ContextsClean(rows, contexts, reading) && forall k | 0 <= k < |rows| :: rows[k].event.eventId != row.event.eventId
    requires reading.claim(row.event.details) == Claims(context.fingerprint)
    requires context.fingerprint == reading.fingerprint(context.json) && reading.facts(context.json) == Some(context.facts)
    ensures ContextsClean(rows + [row], contexts[row.event.eventId := context], reading)
  {
    var after, more := rows + [row], contexts[row.event.eventId := context];
    forall k | 0 <= k < |after| ensures ContextOk(after[k], more, reading) {
      if k < |rows| { assert ContextOk(rows[k], contexts, reading); }
    }
    forall id | id in more ensures exists k :: 0 <= k < |after| && after[k].event.eventId == id {
      if id == row.event.eventId {
        assert after[|rows|].event.eventId == id;
      } else {
        var k :| 0 <= k < |rows| && rows[k].event.eventId == id;
        assert after[k].event.eventId == id;
      }
    }
  }

  /** inspectAuditChain; a table that is missing is None. */
  method InspectChain(events: Option<seq<Row>>, anchors: Option<seq<Anchor>>, contexts: Option<Contexts>,
                      hash: string -> string, reading: Reading)
    returns (links: nat, hashes: nat, anchorViolations: nat)
    ensures events.None? ==> links == 0 == hashes && anchorViolations == if anchors.Some? then 1 else 0
    ensures events.Some? ==>
              && links == LinkViolations(events.value)
              && hashes == HashViolations(events.value, hash) + ContextViolations(events.value, contexts, reading)
              && anchorViolations == if anchors.Some? then AnchorViolations(events.value, anchors.value) else 0
  {
    links, hashes, anchorViolations := 0, 0, 0;
    if events.None? {
      anchorViolations := if anchors.Some? then 1 else 0;
    } else {
      var count: nat, previous, last;
      links, hashes, count, previous, last := InspectRows(events.value, hash);
      if anchors.Some? {
        anchorViolations := InspectAnchor(anchors.value, count, last, previous);
      }
      var violations := InspectContexts(events.value, contexts, reading);
      hashes := hashes + violations;
    }
  }

  /** The loop over the events. */
  method InspectRows(rows: seq<Row>, hash: string -> string)
    returns (links: nat, hashes: nat, count: nat, previous: Option<string>, last: Option<int>)
    ensures links == LinkViolations(rows) && hashes == HashViolations(rows, hash)
    ensures count == |rows| && previous == LastHash(rows) && last == LastSequence(rows)
  {
    links, hashes, count, previous, last := 0, 0, 0, None, None;
    while count < |rows|
      invariant count <= |rows|
      invariant links == LinkViolations(rows[..count]) && hashes == HashViolations(rows[..count], hash)
      invariant previous == LastHash(rows[..count]) && last == LastSequence(rows[..count])
    {
      var row := rows[count];
      assert rows[..count + 1][..count] == rows[..count];
      count := count + 1;
      if !Safe(row.sequence) || row.sequence != count {
        links := links + 1;
      }
      if row.event.previous != previous {
        links := links + 1;
      }
      if row.event.occurredAt < 0 || row.event.occurredAt > MAX_SAFE {
        hashes := hashes + 1;
      } else if row.hash != hash(Payload(row.event)) {
        hashes := hashes + 1;
      }
      previous := Some(row.hash);
      last := if Safe(row.sequence) then Some(row.sequence) else None;
    }
    assert rows[..count] == rows;
  }

  /** inspectAuditAnchor. */
  method InspectAnchor(anchors: seq<Anchor>, count: nat, last: Option<int>, previous: Option<string>) returns (violations: nat)
    ensures violations == if anchors == [Anchor(count, last, previous)] then 0 else 1
  {
    violations := 1;
    if |anchors| == 1 && anchors[0].count == count && anchors[0].sequence == last && anchors[0].hash == previous {
      assert anchors == [anchors[0]];
      violations := 0;
    }
  }

  predicate Linked(rows: seq<Row>, k: nat, hash: string -> string)
    requires k < |rows|
  {
    && Safe(rows[k].sequence) && rows[k].sequence == k + 1
    && rows[k].event.previous == LastHash(rows[..k])
    && HashOk(rows[k], hash)
  }

  /** No violation is counted exactly when every row carries its number, the hash of the row before
      it and its own hash. */
  lemma {:induction false} CleanExactly(rows: seq<Row>, hash: string -> string)
    ensures LinkViolations(rows) == 0 && HashViolations(rows, hash) == 0 <==> forall k | 0 <= k < |rows| :: Linked(rows, k, hash)
  {
    if rows != [] {
      var n := |rows| - 1;
      CleanExactly(rows[..n], hash);
      forall k | 0 <= k < n ensures Linked(rows, k, hash) <==> Linked(rows[..n], k, hash) {
        assert rows[..n][..k] == rows[..k];
      }
      if forall k | 0 <= k < |rows| :: Linked(rows, k, hash) {
        assert Linked(rows, n, hash);
      }
    }
  }

  predicate Accepted(rows: seq<Row>, anchor: Anchor, hash: string -> string) {
    LinkViolations(rows) == 0 && HashViolations(rows, hash) == 0 && AnchorViolations(rows, [anchor]) == 0
  }

  /* ---------------------------------------------------------------- appending */

  predicate Lower(c: char) {
    'a' <= c <= 'z'
  }

  predicate ActionOk(s: string) {
    && 1 <= |s| <= 100 && Lower(s[0])
    && forall c | c in s :: Lower(c) || '0' <= c <= '9' || c == '.' || c == '_' || c == '-'
  }

  predicate TextOk(value: Option<string>) {
    value.Some? ==> 1 <= |value.value| <= 128 && forall c | c in value.value :: ' ' <= c && c != '\U{7f}'
  }

  predicate HexOk(value: Option<string>) {
    value.Some? ==> |value.value| == 64 && forall c | c in value.value :: '0' <= c <= '9' || 'a' <= c <= 'f'
  }

  /** validateAuditInput. */
  predicate ValidInput(i: Event) {
    && 0 <= i.occurredAt <= MAX_SAFE && ActionOk(i.action)
    && TextOk(i.actorId) && TextOk(i.subjectType) && TextOk(i.subjectId) && TextOk(i.requestId) && HexOk(i.remote)
  }

  /** What the types and the serializers give: a UUID, two enumerations and a JSON text. */
  predicate Shaped(i: Event) {
    && Plain(i.eventId) && Plain(i.details)
    && i.actorType in {"SYSTEM", "ANONYMOUS", "ADMIN", "API_CLIENT"} && i.outcome in {"SUCCESS", "FAILURE"}
  }

  predicate MayAppend(i: Event) {
    Shaped(i) && ValidInput(i)
  }

  predicate AllMayAppend(inputs: seq<Event>) {
    forall k | 0 <= k < |inputs| :: MayAppend(inputs[k])
  }

  lemma ValidIsWellFormed(i: Event, previous: Option<string>)
    requires MayAppend(i) && Present(previous)
    ensures WellFormed(i.(previous := previous))
  {
  }

  function Appended(rows: seq<Row>, i: Event, hash: string -> string): seq<Row>
    requires i.occurredAt >= 0
  {
    var event := i.(previous := LastHash(rows));
    rows + [Row(|rows| + 1, event, hash(Payload(event)))]
  }

  /** The insert's trigger advances the anchor. */
  function Advanced(anchor: Anchor, row: Row): Anchor {
    Anchor(anchor.count + 1, Some(row.sequence), Some(row.hash))
  }

  lemma AppendKeepsAccepted(rows: seq<Row>, anchor: Anchor, i: Event, hash: string -> string)
    requires Accepted(rows, anchor, hash) && ValidInput(i) && |rows| < MAX_SAFE
    ensures var after := Appended(rows, i, hash); Accepted(after, Advanced(anchor, after[|rows|]), hash)
  {
    var after := Appended(rows, i, hash);
    assert after[..|rows|] == rows;
  }

  /** A chain of valid inputs, from an empty database. */
  function Written(inputs: seq<Event>, hash: string -> string): (seq<Row>, Anchor)
    requires AllMayAppend(inputs)
  {
    if inputs == [] then ([], Anchor(0, None, None)) else
    var (rows, anchor) := Written(inputs[..|inputs| - 1], hash);
    var after := Appended(rows, inputs[|inputs| - 1], hash);
    (after, Advanced(anchor, after[|rows|]))
  }

  ghost predicate IsHash(hash: string -> string) {
    (forall s :: hash(s) != "" && Plain(hash(s))) && Injective(hash)
  }

  predicate AllWellFormed(rows: seq<Row>) {
    forall k | 0 <= k < |rows| :: WellFormed(rows[k].event)
  }

  /** Appends keep the inspection at zero violations, and write well-formed rows only. */
  lemma {:induction false} AppendsAccepted(inputs: seq<Event>, hash: string -> string)
    requires AllMayAppend(inputs) && |inputs| <= MAX_SAFE && IsHash(hash)
    ensures var (rows, anchor) := Written(inputs, hash);
      |rows| == |inputs| && Accepted(rows, anchor, hash) && AllWellFormed(rows)
  {
    if inputs != [] {
      AppendsAccepted(inputs[..|inputs| - 1], hash);
      var (rows, anchor) := Written(inputs[..|inputs| - 1], hash);
      AppendKeepsAccepted(rows, anchor, inputs[|inputs| - 1], hash);
      ValidIsWellFormed(inputs[|inputs| - 1], LastHash(rows));
      assert LastHash(rows).Some? ==> LastHash(rows).value == hash(Payload(rows[|rows| - 1].event));
    }
  }

  /* ---------------------------------------------------------------- tamper evidence */

  lemma SameLastRow(a: seq<Row>, b: seq<Row>, hash: string -> string)
    requires IsHash(hash) && |a| == |b| > 0 && LastHash(a) == LastHash(b) && AllWellFormed(a) && AllWellFormed(b)
    requires LinkViolations(a) == 0 == LinkViolations(b) && HashViolations(a, hash) == 0 == HashViolations(b, hash)
    ensures a[|a| - 1] == b[|a| - 1] && LastHash(a[..|a| - 1]) == LastHash(b[..|a| - 1])
  {
    var n := |a| - 1;
    assert hash(Payload(a[n].event)) == a[n].hash == b[n].hash == hash(Payload(b[n].event));
    PayloadInjective(a[n].event, b[n].event);
  }

  lemma FrontClean(a: seq<Row>, hash: string -> string)
    requires a != [] && AllWellFormed(a) && LinkViolations(a) == 0 && HashViolations(a, hash) == 0
    ensures var front := a[..|a| - 1];
      AllWellFormed(front) && LinkViolations(front) == 0 && HashViolations(front, hash) == 0
  {
  }

  lemma {:induction false} SameLastHash(a: seq<Row>, b: seq<Row>, hash: string -> string)
    requires IsHash(hash) && |a| == |b| && LastHash(a) == LastHash(b) && AllWellFormed(a) && AllWellFormed(b)
    requires LinkViolations(a) == 0 == LinkViolations(b) && HashViolations(a, hash) == 0 == HashViolations(b, hash)
    ensures a == b
  {
    if a != [] {
      var n := |a| - 1;
      SameLastRow(a, b, hash);
      FrontClean(a, hash);
      FrontClean(b, hash);
      SameLastHash(a[..n], b[..n], hash);
      assert a == a[..n] + [a[n]] && b == b[..n] + [b[n]];
    }
  }

  /** Two chains of valid rows that the inspection accepts under one anchor are the same chain: no
      row can be changed, removed, added or moved without moving the anchor or being reported. */
  lemma TamperEvident(a: seq<Row>, b: seq<Row>, anchor: Anchor, hash: string -> string)
    requires IsHash(hash) && AllWellFormed(a) && AllWellFormed(b) && Accepted(a, anchor, hash) && Accepted(b, anchor, hash)
    ensures a == b
  {
    SameLastHash(a, b, hash);
  }

  /** ... in particular the chain that was written. */
  lemma WrittenIsTheOnlyOne(inputs: seq<Event>, other: seq<Row>, hash: string -> string)
    requires AllMayAppend(inputs) && |inputs| <= MAX_SAFE && IsHash(hash) && AllWellFormed(other)
    ensures var (rows, anchor) := Written(inputs, hash); Accepted(other, anchor, hash) <==> other == rows
  {
    AppendsAccepted(inputs, hash);
    var (rows, anchor) := Written(inputs, hash);
    if Accepted(other, anchor, hash) {
      TamperEvident(other, rows, anchor, hash);
    }
  }

  /* ---------------------------------------------------------------- the tables */

  class Chain {
    var rows: seq<Row>
    var anchor: Anchor

    constructor ()
      ensures rows == [] && anchor == Anchor(0, None, None)
    {
      rows, anchor := [], Anchor(0, None, None);
    }

    /** appendAuditEvent: refuses an invalid input, and else appends one linked row. */
    method Append(i: Event, hash: string -> string) returns (ok: bool)
      requires Accepted(rows, anchor, hash) && |rows| < MAX_SAFE
      modifies this
      ensures ok <==> ValidInput(i)
      ensures rows == if ok then Appended(old(rows), i, hash) else old(rows)
      ensures ok ==> anchor == Advanced(old(anchor), rows[|rows| - 1])
      ensures !ok ==> anchor == old(anchor)
      ensures Accepted(rows, anchor, hash)
    {
      ok := ValidInput(i);
      if ok {
        AppendKeepsAccepted(rows, anchor, i, hash);
        var event := i.(previous := if rows == [] then None else Some(rows[|rows| - 1].hash));
        var row := Row(|rows| + 1, event, hash(Payload(event)));
        rows := rows + [row];
        anchor := Advanced(anchor, row);
      }
    }
  }
}
