/** The keys of API clients: src/database/identity-store.ts rotates them, the tables of
    src/database/migrations.ts and src/sites/migrations/schema.ts guard them, and a query of
    src/database/database.ts checks their history. */
module KeyHistory {
  import opened Numbers
  import opened Options

  datatype Key = Key(version: int, fingerprint: nat, activatedAt: nat, retiredAt: Option<nat>)

  datatype Config = Config(version: Option<int>, fingerprint: Option<nat>, enabled: bool, createdAt: nat, updatedAt: nat)

  /** The keys of each client in the order of their versions. */
  datatype Tables = Tables(configs: map<nat, Config>, keys: map<nat, seq<Key>>)

  function KeysOf(t: Tables, client: nat): seq<Key> {
    if client in t.keys then t.keys[client] else []
  }

  /* ---------------------------------------------------------------- the query */

  /** The config points to an unretired key of its client, or has never had one. */
  predicate ConfigClean(t: Tables, client: nat)
    requires client in t.configs
  {
    var c := t.configs[client];
    || (c.version.Some? && c.fingerprint.Some? && exists k :: k in KeysOf(t, client) && IsActive(k, c.version.value, c.fingerprint.value))
    || (c.version.None? && c.fingerprint.None? && !c.enabled && KeysOf(t, client) == [])
  }

  predicate IsActive(k: Key, version: int, fingerprint: nat) {
    k.version == version && k.fingerprint == fingerprint && k.retiredAt.None?
  }

  /** Versions follow the least one; an unretired key is the newest; a key was retired no later than
      its successor was activated. */
  predicate HistoryClean(keys: seq<Key>) {
    && (forall i | 0 <= i < |keys| :: keys[i].version == keys[0].version + i)
    && (forall i | 0 <= i < |keys| && keys[i].retiredAt.None? :: IsNewest(keys, keys[i].version))
    && (forall i, j | 0 <= i < |keys| && 0 <= j < |keys| && keys[j].version == keys[i].version + 1 ::
          keys[i].retiredAt.Some? && keys[i].retiredAt.value <= keys[j].activatedAt)
  }

  predicate IsNewest(keys: seq<Key>, version: int) {
    forall j | 0 <= j < |keys| :: keys[j].version <= version
  }

  predicate Clean(t: Tables) {
    && (forall c | c in t.configs :: ConfigClean(t, c))
    && (forall c | c in t.keys :: HistoryClean(t.keys[c]))
  }

  predicate RowsOk(keys: seq<Key>) {
    && (forall i | 0 <= i < |keys| && keys[i].retiredAt.Some? :: keys[i].activatedAt <= keys[i].retiredAt.value)
    && (forall i, j | 0 <= i < j < |keys| :: keys[i].version < keys[j].version)
  }

  /** A key was in use at a time. */
  predicate InUse(k: Key, at: nat) {
    k.activatedAt <= at && (k.retiredAt.Some? ==> at < k.retiredAt.value)
  }

  lemma {:induction false} EarlierIsOver(keys: seq<Key>, i: nat, j: nat)
    requires HistoryClean(keys) && RowsOk(keys) && i < j < |keys|
    ensures keys[i].retiredAt.Some? && keys[i].retiredAt.value <= keys[j].activatedAt
    decreases j - i
  {
    assert keys[j].version == keys[j - 1].version + 1;
    if i < j - 1 {
      EarlierIsOver(keys, i, j - 1);
    }
  }

  /** What a clean history is good for: at any time at most one key of a client is in use, and only
      the newest can be unretired. */
  lemma CleanHistory(keys: seq<Key>, i: nat, j: nat, at: nat)
    requires HistoryClean(keys) && RowsOk(keys) && i < |keys| && j < |keys|
    ensures InUse(keys[i], at) && InUse(keys[j], at) ==> i == j
    ensures keys[i].retiredAt.None? ==> i == |keys| - 1
  {
    if i < j {
      EarlierIsOver(keys, i, j);
    } else if j < i {
      EarlierIsOver(keys, j, i);
    }
    if i < |keys| - 1 {
      EarlierIsOver(keys, i, |keys| - 1);
    }
  }

  /** Consecutive versions whose times of use are apart. */
  predicate InSequence(keys: seq<Key>) {
    && (forall i | 0 <= i < |keys| :: keys[i].version == keys[0].version + i)
    && (forall i, j {:trigger Apart(keys, i, j)} | 0 <= i < j < |keys| :: Apart(keys, i, j))
  }

  predicate Apart(keys: seq<Key>, i: nat, j: nat)
    requires i < |keys| && j < |keys|
  {
    keys[i].retiredAt.Some? && keys[i].retiredAt.value <= keys[j].activatedAt
  }

  lemma OnlyLastUnretired(keys: seq<Key>, i: nat)
    requires InSequence(keys) && i < |keys| && keys[i].retiredAt.None?
    ensures i == |keys| - 1 && IsNewest(keys, keys[i].version)
  {
    assert i < |keys| - 1 ==> Apart(keys, i, |keys| - 1);
    assert keys[i].version == keys[0].version + i;
  }

  /** The query compares neighbours and the newest version only, and that is exact. */
  lemma HistoryCleanExactly(keys: seq<Key>)
    requires RowsOk(keys)
    ensures HistoryClean(keys) <==> InSequence(keys)
  {
    if HistoryClean(keys) {
      forall i, j | 0 <= i < j < |keys| ensures Apart(keys, i, j) {
        EarlierIsOver(keys, i, j);
      }
    }
    if InSequence(keys) {
      forall i, j | 0 <= i < |keys| && 0 <= j < |keys| && keys[j].version == keys[i].version + 1
        ensures keys[i].retiredAt.Some? && keys[i].retiredAt.value <= keys[j].activatedAt
      {
        assert keys[j].version == keys[0].version + j && i < j;
        assert Apart(keys, i, j);
      }
      forall i | 0 <= i < |keys| && keys[i].retiredAt.None? ensures IsNewest(keys, keys[i].version) {
        OnlyLastUnretired(keys, i);
      }
    }
  }

  /* ---------------------------------------------------------------- the operations */

  datatype Result = Synced(version: int, fingerprint: nat) | Error

  predicate Used(t: Tables, fingerprint: nat) {
    exists c :: c in t.keys && exists k :: k in t.keys[c] && k.fingerprint == fingerprint
  }

  /** ensureApiClientIdentity. */
  function Ensured(t: Tables, client: nat, now: nat): Tables {
    if client in t.configs then t else t.(configs := t.configs[client := Config(None, None, false, now, now)])
  }

  predicate HasKey(t: Tables, client: nat) {
    client in t.configs && t.configs[client].version.Some? && t.configs[client].fingerprint.Some?
  }

  function WithKey(t: Tables, client: nat, keys: seq<Key>, version: int, fingerprint: nat, at: nat): Tables
    requires client in t.configs
  {
    Tables(t.configs[client := t.configs[client].(version := Some(version), fingerprint := Some(fingerprint), enabled := true, updatedAt := at)],
           t.keys[client := keys])
  }

  function Retire(keys: seq<Key>, at: nat): seq<Key>
    requires keys != []
  {
    keys[|keys| - 1 := keys[|keys| - 1].(retiredAt := Some(at))]
  }

  /** The first key of a client. */
  function Issued(t: Tables, client: nat, fingerprint: nat, at: nat): Tables {
    WithKey(Ensured(t, client, at), client, [Key(1, fingerprint, at, None)], 1, fingerprint, at)
  }

  /** The present key is enabled again. */
  function Confirmed(t: Tables, client: nat, now: nat): Tables
    requires client in t.configs
  {
    t.(configs := t.configs[client := t.configs[client].(enabled := true, updatedAt := now)])
  }

  /** The present key is retired when the new one is activated. */
  function Replaced(t: Tables, client: nat, version: int, fingerprint: nat, at: nat): Tables
    requires client in t.configs && KeysOf(t, client) != []
  {
    WithKey(t, client, Retire(KeysOf(t, client), at) + [Key(version, fingerprint, at, None)], version, fingerprint, at)
  }

  predicate HasActive(t: Tables, client: nat)
    requires HasKey(t, client)
  {
    var keys := KeysOf(t, client);
    keys != [] && IsActive(keys[|keys| - 1], t.configs[client].version.value, t.configs[client].fingerprint.value)
  }

  /** syncApiClient; a transaction that throws leaves the tables as they were. */
  function Sync(t: Tables, client: nat, fingerprint: nat, now: nat): (Tables, Result) {
    if !HasKey(t, client) then
      // The unique fingerprint and the trigger on versions refuse the insert.
      if Used(t, fingerprint) || KeysOf(t, client) != [] then (t, Error) else
      var at := if client in t.configs then Max(now, t.configs[client].createdAt) else now;
      (Issued(t, client, fingerprint, at), Synced(1, fingerprint))
    else if t.configs[client].fingerprint.value == fingerprint then
      // A time before the creation of the client fails the row check of its config.
      if !HasActive(t, client) || now < t.configs[client].createdAt then (t, Error) else
      (Confirmed(t, client, now), Synced(t.configs[client].version.value, fingerprint))
    else if Used(t, fingerprint) || !HasActive(t, client) then (t, Error)
    else
    var keys := KeysOf(t, client);
    var version := t.configs[client].version.value + 1;
    (Replaced(t, client, version, fingerprint, Max(now, keys[|keys| - 1].activatedAt)), Synced(version, fingerprint))
  }

  datatype Event = Ensure(client: nat, now: nat) | Rotate(client: nat, fingerprint: nat, now: nat)

  function Next(t: Tables, e: Event): Tables {
    match e
    case Ensure(client, now) => Ensured(t, client, now)
    case Rotate(client, fingerprint, now) => Sync(t, client, fingerprint, now).0
  }

  function Run(events: seq<Event>): Tables {
    if events == [] then Tables(map[], map[]) else Next(Run(events[..|events| - 1]), events[|events| - 1])
  }

  /* ---------------------------------------------------------------- what every run keeps */

  /** Versions 1, 2, ...; all but the newest retired, each no later than its successor was
      activated. */
  predicate KeysOk(keys: seq<Key>) {
    && (forall i | 0 <= i < |keys| :: keys[i].version == i + 1 && (keys[i].retiredAt.None? <==> i == |keys| - 1))
    && (forall i | 0 <= i < |keys| && keys[i].retiredAt.Some? :: keys[i].activatedAt <= keys[i].retiredAt.value)
    && (forall i, j | 0 <= i < j < |keys| :: keys[i].retiredAt.value <= keys[j].activatedAt)
  }

  predicate ClientOk(t: Tables, client: nat)
    requires client in t.configs
  {
    var c, keys := t.configs[client], KeysOf(t, client);
    && c.createdAt <= c.updatedAt && KeysOk(keys)
    && (if keys == [] then c.version.None? && c.fingerprint.None? && !c.enabled else
        var last := keys[|keys| - 1];
        c.version == Some(last.version) && c.fingerprint == Some(last.fingerprint) && c.createdAt <= keys[0].activatedAt)
  }

  predicate KeyAt(t: Tables, c: nat, i: nat, fingerprint: nat) {
    c in t.keys && i < |t.keys[c]| && t.keys[c][i].fingerprint == fingerprint
  }

  /** No fingerprint is stored twice. */
  ghost predicate NoReuse(t: Tables) {
    forall c: nat, i: nat, d: nat, j: nat, f: nat | KeyAt(t, c, i, f) && KeyAt(t, d, j, f) :: c == d && i == j
  }

  ghost predicate Inv(t: Tables) {
    t.keys.Keys <= t.configs.Keys && (forall c {:trigger ClientOk(t, c)} | c in t.configs :: ClientOk(t, c)) && NoReuse(t)
  }

  lemma RetireOk(keys: seq<Key>, fingerprint: nat, at: nat)
    requires KeysOk(keys) && keys != [] && keys[|keys| - 1].activatedAt <= at
    ensures KeysOk(Retire(keys, at) + [Key(|keys| + 1, fingerprint, at, None)])
  {
    var n := |keys|;
    var after := Retire(keys, at) + [Key(n + 1, fingerprint, at, None)];
    forall i, j | 0 <= i < j < |after| ensures after[i].retiredAt.Some? && after[i].retiredAt.value <= after[j].activatedAt {
      if i < n - 1 {
        assert keys[i].retiredAt.value <= keys[n - 1].activatedAt;
        assert keys[i].retiredAt.value <= keys[if j < n then j else n - 1].activatedAt;
      }
    }
  }

  lemma FreshFingerprint(t: Tables, client: nat, keys: seq<Key>, fingerprint: nat, u: Tables)
    requires NoReuse(t) && !Used(t, fingerprint) && u.keys == t.keys[client := keys] && keys != []
    requires |keys| == |KeysOf(t, client)| + 1 && keys[|keys| - 1].fingerprint == fingerprint
    requires forall i | 0 <= i < |keys| - 1 :: keys[i].fingerprint == KeysOf(t, client)[i].fingerprint
    ensures NoReuse(u)
  {
    forall c: nat, i: nat, d: nat, j: nat, f: nat | KeyAt(u, c, i, f) && KeyAt(u, d, j, f) ensures c == d && i == j {
      if f == fingerprint {
        OnlyLast(t, client, keys, fingerprint, u, c, i);
        OnlyLast(t, client, keys, fingerprint, u, d, j);
      } else {
        assert KeyAt(t, c, i, f) && KeyAt(t, d, j, f);
      }
    }
  }

  lemma OnlyLast(t: Tables, client: nat, keys: seq<Key>, fingerprint: nat, u: Tables, c: nat, i: nat)
    requires !Used(t, fingerprint) && u.keys == t.keys[client := keys] && |keys| == |KeysOf(t, client)| + 1
    requires forall k | 0 <= k < |keys| - 1 :: keys[k].fingerprint == KeysOf(t, client)[k].fingerprint
    requires KeyAt(u, c, i, fingerprint)
    ensures c == client && i == |keys| - 1
  {
    if c in t.keys && i < |t.keys[c]| {
      assert t.keys[c][i] in t.keys[c];
    }
  }

  /** The rows of one client are all that an operation changes. */
  lemma OneClient(t: Tables, u: Tables, client: nat)
    requires Inv(t) && client in u.configs && u.configs.Keys == t.configs.Keys + {client}
    requires forall c | c in t.configs && c != client :: u.configs[c] == t.configs[c] && KeysOf(u, c) == KeysOf(t, c)
    requires u.keys.Keys <= u.configs.Keys && ClientOk(u, client) && NoReuse(u)
    ensures Inv(u)
  {
    forall c | c in u.configs ensures ClientOk(u, c) {
      assert c != client ==> ClientOk(t, c);
    }
  }

  lemma SameKeys(t: Tables, u: Tables)
    requires NoReuse(t) && u.keys == t.keys
    ensures NoReuse(u)
  {
    forall c: nat, i: nat, d: nat, j: nat, f: nat | KeyAt(u, c, i, f) && KeyAt(u, d, j, f) ensures c == d && i == j {
      assert KeyAt(t, c, i, f) && KeyAt(t, d, j, f);
    }
  }

  lemma IssuedKeepsInv(t: Tables, client: nat, fingerprint: nat, at: nat)
    requires Inv(t) && !Used(t, fingerprint) && KeysOf(t, client) == []
    requires client in t.configs ==> t.configs[client].createdAt <= at
    ensures Inv(Issued(t, client, fingerprint, at))
  {
    var u := Issued(t, client, fingerprint, at);
    FreshFingerprint(t, client, u.keys[client], fingerprint, u);
    OneClient(t, u, client);
  }

  lemma ConfirmedKeepsInv(t: Tables, client: nat, now: nat)
    requires Inv(t) && HasKey(t, client) && t.configs[client].createdAt <= now
    ensures Inv(Confirmed(t, client, now))
  {
    var u := Confirmed(t, client, now);
    assert ClientOk(t, client);
    SameKeys(t, u);
    OneClient(t, u, client);
  }

  lemma ReplacedKeepsInv(t: Tables, client: nat, fingerprint: nat, at: nat)
    requires Inv(t) && HasKey(t, client) && !Used(t, fingerprint) && KeysOf(t, client) != []
    requires KeysOf(t, client)[|KeysOf(t, client)| - 1].activatedAt <= at
    ensures Inv(Replaced(t, client, t.configs[client].version.value + 1, fingerprint, at))
  {
    var keys := KeysOf(t, client);
    var u := Replaced(t, client, t.configs[client].version.value + 1, fingerprint, at);
    assert ClientOk(t, client);
    RetireOk(keys, fingerprint, at);
    assert |keys| > 1 ==> keys[0].retiredAt.value <= keys[|keys| - 1].activatedAt;
    assert keys[0].activatedAt <= at;
    FreshFingerprint(t, client, u.keys[client], fingerprint, u);
    OneClient(t, u, client);
  }

  lemma SyncKeepsInv(t: Tables, client: nat, fingerprint: nat, now: nat)
    requires Inv(t)
    ensures Inv(Sync(t, client, fingerprint, now).0)
  {
    var keys := KeysOf(t, client);
    if !HasKey(t, client) {
      if !Used(t, fingerprint) && keys == [] {
        IssuedKeepsInv(t, client, fingerprint, if client in t.configs then Max(now, t.configs[client].createdAt) else now);
      }
    } else if t.configs[client].fingerprint.value == fingerprint {
      if t.configs[client].createdAt <= now {
        ConfirmedKeepsInv(t, client, now);
      }
    } else if !Used(t, fingerprint) && keys != [] {
      ReplacedKeepsInv(t, client, fingerprint, Max(now, keys[|keys| - 1].activatedAt));
    }
  }

  lemma EnsureKeepsInv(t: Tables, client: nat, now: nat)
    requires Inv(t)
    ensures Inv(Ensured(t, client, now))
  {
    if client !in t.configs {
      var u := Ensured(t, client, now);
      assert KeysOf(u, client) == [];
      SameKeys(t, u);
      OneClient(t, u, client);
    }
  }

  lemma {:induction false} RunKeepsInv(events: seq<Event>)
    ensures Inv(Run(events))
  {
    if events != [] {
      var t, e := Run(events[..|events| - 1]), events[|events| - 1];
      RunKeepsInv(events[..|events| - 1]);
      match e
      case Ensure(client, now) => EnsureKeepsInv(t, client, now);
      case Rotate(client, fingerprint, now) => SyncKeepsInv(t, client, fingerprint, now);
    }
  }

  /** The query never reports what the operations write, whatever the clock does. */
  lemma RunsPassQuery(events: seq<Event>)
    ensures Clean(Run(events))
  {
    var t := Run(events);
    RunKeepsInv(events);
    forall c | c in t.configs ensures ConfigClean(t, c) {
      assert ClientOk(t, c);
      var keys := KeysOf(t, c);
      if keys != [] {
        assert keys[|keys| - 1] in keys;
      }
    }
    forall c | c in t.keys ensures HistoryClean(t.keys[c]) {
      assert ClientOk(t, c);
    }
  }

  /** A key of `t` is still there in `u`; once retired it stays as it is. */
  ghost predicate Keeps(t: Tables, u: Tables) {
    forall c: nat, i: nat, f: nat | KeyAt(t, c, i, f) :: KeyAt(u, c, i, f) && (t.keys[c][i].retiredAt.Some? ==> u.keys[c][i] == t.keys[c][i])
  }

  lemma StepKeeps(t: Tables, e: Event)
    requires Inv(t)
    ensures Keeps(t, Next(t, e))
  {
    var u := Next(t, e);
    if e.Rotate? && e.client in t.configs {
      assert ClientOk(t, e.client);
    }
    forall c: nat, i: nat, f: nat | KeyAt(t, c, i, f)
      ensures KeyAt(u, c, i, f) && (t.keys[c][i].retiredAt.Some? ==> u.keys[c][i] == t.keys[c][i])
    {
      assert e.Rotate? && c == e.client ==> KeysOf(t, c) == t.keys[c] != [];
    }
  }

  lemma KeepsJoin(t: Tables, u: Tables, v: Tables)
    requires Keeps(t, u) && Keeps(u, v)
    ensures Keeps(t, v)
  {
    forall c: nat, i: nat, f: nat | KeyAt(t, c, i, f)
      ensures KeyAt(v, c, i, f) && (t.keys[c][i].retiredAt.Some? ==> v.keys[c][i] == t.keys[c][i])
    {
      assert KeyAt(u, c, i, f);
    }
  }

  lemma {:induction false} RunKeeps(first: seq<Event>, second: seq<Event>)
    ensures Keeps(Run(first), Run(first + second))
  {
    if second == [] {
      assert first + second == first;
    } else {
      var n := |second| - 1;
      assert (first + second)[..|first| + n] == first + second[..n];
      RunKeeps(first, second[..n]);
      RunKeepsInv(first + second[..n]);
      StepKeeps(Run(first + second[..n]), second[n]);
      KeepsJoin(Run(first), Run(first + second[..n]), Run(first + second));
    }
  }

  /** A secret that was retired once is refused for every client, at every later time. */
  lemma RetiredForever(first: seq<Event>, second: seq<Event>, c: nat, i: nat, fingerprint: nat, client: nat, now: nat)
    requires KeyAt(Run(first), c, i, fingerprint) && Run(first).keys[c][i].retiredAt.Some?
    ensures Sync(Run(first + second), client, fingerprint, now).1.Error?
  {
    var t := Run(first + second);
    RunKeeps(first, second);
    RunKeepsInv(first + second);
    assert KeyAt(t, c, i, fingerprint) && t.keys[c][i] in t.keys[c];
    if HasKey(t, client) && t.configs[client].fingerprint.value == fingerprint {
      assert ClientOk(t, client);
      assert KeyAt(t, client, |KeysOf(t, client)| - 1, fingerprint);
    }
  }

  /* ---------------------------------------------------------------- the store */

  class Store {
    var configs: map<nat, Config>
    var keys: map<nat, seq<Key>>

    ghost function View(): Tables
      reads this
    {
      Tables(configs, keys)
    }

    constructor ()
      ensures View() == Run([])
    {
      configs, keys := map[], map[];
    }

    method EnsureIdentity(client: nat, now: nat)
      requires Inv(View())
      modifies this
      ensures View() == Ensured(old(View()), client, now) && Inv(View())
    {
      EnsureKeepsInv(View(), client, now);
      if client !in configs {
        configs := configs[client := Config(None, None, false, now, now)];
      }
    }

    /** Whether any client has ever had a key of this fingerprint. */
    method FindFingerprint(fingerprint: nat) returns (used: bool)
      ensures used == Used(View(), fingerprint)
    {
      used := exists c | c in keys :: exists k | k in keys[c] :: k.fingerprint == fingerprint;
    }

    /** syncApiClient: issues the first key, keeps the present one, or rotates to a new one. The
        writes stand only if none of them is refused. */
    method SyncClient(client: nat, fingerprint: nat, now: nat) returns (result: Result)
      requires Inv(View())
      modifies this
      ensures View() == Sync(old(View()), client, fingerprint, now).0 && Inv(View())
      ensures result == Sync(old(View()), client, fingerprint, now).1
    {
      ghost var t := View();
      SyncKeepsInv(t, client, fingerprint, now);
      var used := FindFingerprint(fingerprint);
      if client !in configs || configs[client].version.None? || configs[client].fingerprint.None? {
        result := Issue(client, fingerprint, now, used);
      } else if configs[client].fingerprint.value == fingerprint {
        result := Confirm(client, fingerprint, now);
      } else {
        result := Replace(client, fingerprint, now, used);
      }
    }

    method Issue(client: nat, fingerprint: nat, now: nat, used: bool) returns (result: Result)
      requires !HasKey(View(), client) && used == Used(View(), fingerprint)
      modifies this
      ensures View() == Sync(old(View()), client, fingerprint, now).0
      ensures result == Sync(old(View()), client, fingerprint, now).1
    {
      if used || (client in keys && keys[client] != []) {
        return Error;
      }
      var createdAt := if client in configs then configs[client].createdAt else now;
      var at := Max(now, createdAt);
      if client !in configs {
        configs := configs[client := Config(None, None, false, at, at)];
      }
      keys := keys[client := [Key(1, fingerprint, at, None)]];
      configs := configs[client := configs[client].(version := Some(1), fingerprint := Some(fingerprint), enabled := true, updatedAt := at)];
      return Synced(1, fingerprint);
    }

    method Confirm(client: nat, fingerprint: nat, now: nat) returns (result: Result)
      requires HasKey(View(), client) && configs[client].fingerprint.value == fingerprint
      modifies this
      ensures View() == Sync(old(View()), client, fingerprint, now).0
      ensures result == Sync(old(View()), client, fingerprint, now).1
    {
      var c := configs[client];
      var own := if client in keys then keys[client] else [];
      if own == [] || !IsActive(own[|own| - 1], c.version.value, fingerprint) || now < c.createdAt {
        return Error;
      }
      configs := configs[client := c.(enabled := true, updatedAt := now)];
      return Synced(c.version.value, fingerprint);
    }

    method Replace(client: nat, fingerprint: nat, now: nat, used: bool) returns (result: Result)
      requires HasKey(View(), client) && configs[client].fingerprint.value != fingerprint && used == Used(View(), fingerprint)
      modifies this
      ensures View() == Sync(old(View()), client, fingerprint, now).0
      ensures result == Sync(old(View()), client, fingerprint, now).1
    {
      var c := configs[client];
      var own := if client in keys then keys[client] else [];
      if used || own == [] || !IsActive(own[|own| - 1], c.version.value, c.fingerprint.value) {
        return Error;
      }
      var at := Max(now, own[|own| - 1].activatedAt);
      var version := c.version.value + 1;
      keys := keys[client := Retire(own, at) + [Key(version, fingerprint, at, None)]];
      configs := configs[client := c.(version := Some(version), fingerprint := Some(fingerprint), enabled := true, updatedAt := at)];
      return Synced(version, fingerprint);
    }
  }
}
