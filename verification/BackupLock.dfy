/** The backup lock of src/backup/lock.ts as interleaved system calls.

    A directory maps names to inodes; inode numbers may be used again once their last
    name is gone. Publishers acquire and release, repairs remove leftover names and any
    number of operator commands clear stale locks. Every event below is one system call
    of one process, so a run is any interleaving, with crashes between any two calls. */
module BackupLock {
  import opened Options
  import opened Sets

  /** Temporary names carry a random UUID, modelled by a number that is never used twice. */
  datatype Path = Public | CreateTemp(id: nat) | ReclaimTemp(id: nat)

  /** What reading an inode yields: an unfinished file, or a whole record with its token. */
  datatype Content = Partial | Record(token: nat)

  datatype Disk = Disk(names: map<Path, nat>, content: map<nat, Content>)

  function LinkSet(d: Disk, ino: nat): set<Path> {
    set p | p in d.names && d.names[p] == ino
  }

  /** The `nlink` field of a stat. */
  function Links(d: Disk, ino: nat): nat {
    |LinkSet(d, ino)|
  }

  function Unlink(d: Disk, p: Path): Disk {
    d.(names := d.names - {p})
  }

  function Link(d: Disk, from: Path, to: Path): Disk
    requires from in d.names
  {
    d.(names := d.names[to := d.names[from]])
  }

  function Create(d: Disk, p: Path, ino: nat): Disk {
    Disk(d.names[p := ino], d.content[ino := Partial])
  }

  predicate StatIs(d: Disk, p: Path, ino: nat, links: nat) {
    p in d.names && d.names[p] == ino && Links(d, ino) == links
  }

  predicate ReadIs(d: Disk, p: Path, token: nat) {
    p in d.names && d.names[p] in d.content && d.content[d.names[p]] == Record(token)
  }

  /** One acquisition. Its number is its token and names its temporary file. `left` counts
      the checks still to pass: a stat, a read of the token and a second stat in turn. */
  datatype Publisher =
    | Opened(ino: nat)
    | Written(ino: nat)
    | Inspected(ino: nat)
    | Linked(ino: nat)
    | Verifying(ino: nat, left: nat)
    | Holding(ino: nat)
    | Releasing(ino: nat, left: nat)
    | Aborting(ino: nat)
    | Gone

  /** A repair between two of its calls: it has the stat of an artifact, then of the lock. */
  datatype Repair =
    | SawTemp(name: Path, ino: nat, links: nat)
    | SawBoth(name: Path, ino: nat, links: nat, lock: Option<(nat, nat)>)

  datatype ClearAt =
    | StatFirst | ReadFirst | StatBefore | StatAgain | ReadAgain | LinkTombstone
    | StatPublic | StatTombstone | ReadHeld | UnlinkPublic | UnlinkTombstone

  /** A command that clears a lock; its number names its tombstone. A forced clear does not read
      the record, and its token only says whose lock it found. */
  datatype Clearer = Clearing(token: nat, before: nat, at: ClearAt, forced: bool)

  datatype State = State(
    disk: Disk,
    publishers: map<nat, Publisher>,
    repairs: map<nat, Repair>,
    clearers: map<nat, Clearer>,
    next: nat)

  datatype Event =
    | Open(newIno: nat)
    | Proceed(id: nat)
    | Fail(id: nat)
    | Crash(id: nat)
    | BeginRelease(id: nat)
    | RepairStat(id: nat, name: Path)
    | RepairStatLock(id: nat)
    | RepairAct(id: nat)
    | RepairCrash(id: nat)
    | ClearBegin(token: nat)
    | ForceBegin
    | ClearProceed(id: nat)
    | ClearCrash(id: nat)

  const Start := State(Disk(map[], map[]), map[], map[], map[], 0)

  predicate Unpublished(p: Publisher) {
    p.Opened? || p.Written? || p.Inspected?
  }

  /** From `link()` until the lock is given up or abandoned. */
  predicate Published(p: Publisher) {
    p.Linked? || p.Verifying? || p.Holding? || p.Releasing?
  }

  /** The check a publisher makes next when `left` of them remain. */
  predicate CheckPasses(d: Disk, id: nat, ino: nat, left: nat) {
    if left % 3 == 2 then ReadIs(d, Public, id) else StatIs(d, Public, ino, 1)
  }

  function PublisherStep(s: State, id: nat): State
    requires id in s.publishers
  {
    var p, d := s.publishers[id], s.disk;
    var temp := CreateTemp(id);
    match p
    case Opened(ino) =>
      s.(disk := d.(content := d.content[ino := Record(id)]), publishers := s.publishers[id := Written(ino)])
    case Written(ino) =>
      s.(publishers := s.publishers[id := if StatIs(d, temp, ino, 1) then Inspected(ino) else Aborting(ino)])
    case Inspected(ino) =>
      if temp !in d.names || Public in d.names then s.(publishers := s.publishers[id := Aborting(ino)])
      else s.(disk := Link(d, temp, Public), publishers := s.publishers[id := Linked(ino)])
    case Linked(ino) =>
      // A missing temporary name is only accepted after one more round of checks.
      s.(disk := Unlink(d, temp),
         publishers := s.publishers[id := Verifying(ino, if temp in d.names then 3 else 6)])
    case Verifying(ino, left) =>
      s.(publishers := s.publishers[id :=
        if left == 0 then Holding(ino)
        else if CheckPasses(d, id, ino, left) then Verifying(ino, left - 1)
        else Aborting(ino)])
    case Releasing(ino, left) =>
      if left == 0 then s.(disk := Unlink(d, Public), publishers := s.publishers[id := Gone])
      else s.(publishers := s.publishers[id :=
        if CheckPasses(d, id, ino, left) then Releasing(ino, left - 1) else Gone])
    case Aborting(ino) => s.(disk := Unlink(d, temp), publishers := s.publishers[id := Gone])
    case _ => s
  }

  /** The last call of a repair: unlink the artifact, leave it, or give up with an error. */
  predicate RepairUnlinks(r: Repair)
    requires r.SawBoth?
  {
    if r.lock.Some? && r.lock.value.0 == r.ino then r.lock.value.1 == 2 && r.links == 2
    else r.name.ReclaimTemp?
  }

  function Moved(s: State, id: nat, at: ClearAt): State
    requires id in s.clearers
  {
    s.(clearers := s.clearers[id := s.clearers[id].(at := at)])
  }

  function ClearStep(s: State, id: nat): State
    requires id in s.clearers
  {
    var c, d := s.clearers[id], s.disk;
    var tombstone := ReclaimTemp(id);
    // An error before the tombstone exists ends the command; later it also drops the tombstone.
    var stop, drop := s.(clearers := s.clearers - {id}), Moved(s, id, UnlinkTombstone);
    var single := Public in d.names && Links(d, d.names[Public]) == 1;
    match c.at
    case StatFirst => if single then Moved(s, id, ReadFirst) else stop
    case ReadFirst => if ReadIs(d, Public, c.token) then Moved(s, id, StatBefore) else stop
    case StatBefore =>
      if single then s.(clearers := s.clearers[id := c.(at := StatAgain, before := d.names[Public])]) else stop
    case StatAgain => if single then Moved(s, id, ReadAgain) else stop
    case ReadAgain => if ReadIs(d, Public, c.token) then Moved(s, id, LinkTombstone) else stop
    case LinkTombstone =>
      if Public in d.names && tombstone !in d.names
      then Moved(s, id, StatPublic).(disk := Link(d, Public, tombstone)) else stop
    case StatPublic => if StatIs(d, Public, c.before, 2) then Moved(s, id, StatTombstone) else drop
    case StatTombstone =>
      if StatIs(d, tombstone, c.before, 2) then Moved(s, id, if c.forced then UnlinkPublic else ReadHeld) else drop
    case ReadHeld => if ReadIs(d, Public, c.token) then Moved(s, id, UnlinkPublic) else drop
    case UnlinkPublic => Moved(s, id, UnlinkTombstone).(disk := Unlink(d, Public))
    case UnlinkTombstone => stop.(disk := Unlink(d, tombstone))
  }

  /** The token in the lock's record, if there is a whole one. */
  function LockToken(d: Disk): Option<nat> {
    if Public in d.names && d.names[Public] in d.content && d.content[d.names[Public]].Record?
    then Some(d.content[d.names[Public]].token) else None
  }

  /** One system call, or nothing when the event does not apply. */
  function Next(s: State, e: Event): State {
    match e
    case Open(ino) =>
      if LinkSet(s.disk, ino) != {} then s
      else s.(disk := Create(s.disk, CreateTemp(s.next), ino),
              publishers := s.publishers[s.next := Opened(ino)], next := s.next + 1)
    case Proceed(id) => if id in s.publishers then PublisherStep(s, id) else s
    case Fail(id) =>
      if id in s.publishers && (Unpublished(s.publishers[id]) || s.publishers[id].Linked?)
      then s.(publishers := s.publishers[id := Aborting(s.publishers[id].ino)]) else s
    case Crash(id) => if id in s.publishers then s.(publishers := s.publishers[id := Gone]) else s
    case BeginRelease(id) =>
      if id in s.publishers && s.publishers[id].Holding?
      then s.(publishers := s.publishers[id := Releasing(s.publishers[id].ino, 3)]) else s
    case RepairStat(id, name) =>
      if name in s.disk.names && name != Public && 1 <= Links(s.disk, s.disk.names[name]) <= 2
      then s.(repairs := s.repairs[id := SawTemp(name, s.disk.names[name], Links(s.disk, s.disk.names[name]))])
      else s.(repairs := s.repairs - {id})
    case RepairStatLock(id) =>
      if id in s.repairs && s.repairs[id].SawTemp? then
        var r := s.repairs[id];
        var lock := if Public in s.disk.names
                    then Some((s.disk.names[Public], Links(s.disk, s.disk.names[Public]))) else None;
        s.(repairs := s.repairs[id := SawBoth(r.name, r.ino, r.links, lock)])
      else s
    case RepairAct(id) =>
      if id in s.repairs && s.repairs[id].SawBoth? then
        s.(disk := if RepairUnlinks(s.repairs[id]) then Unlink(s.disk, s.repairs[id].name) else s.disk,
           repairs := s.repairs - {id})
      else s
    case RepairCrash(id) => s.(repairs := s.repairs - {id})
    case ClearBegin(token) =>
      s.(clearers := s.clearers[s.next := Clearing(token, 0, StatFirst, false)], next := s.next + 1)
    case ForceBegin =>
      // The public name always holds a whole record, as is proved below.
      if LockToken(s.disk).None? || Links(s.disk, s.disk.names[Public]) != 1 then s
      else s.(clearers := s.clearers[s.next := Clearing(LockToken(s.disk).value, s.disk.names[Public], LinkTombstone, true)],
              next := s.next + 1)
    case ClearProceed(id) => if id in s.clearers then ClearStep(s, id) else s
    case ClearCrash(id) => s.(clearers := s.clearers - {id})
  }

  function Run(s: State, events: seq<Event>): State {
    if events == [] then s
    else Next(Run(s, events[..|events| - 1]), events[|events| - 1])
  }

  /** The process never published, or has given its lock up, or has died or abandoned it. */
  predicate Stopped(s: State, id: nat) {
    id in s.publishers && (s.publishers[id].Gone? || s.publishers[id].Aborting?)
  }

  /** The clear can no longer unlink the public name: only its tombstone is left to unlink, or a
      repair took the tombstone away before both of them were compared. */
  predicate Spent(s: State, id: nat)
    requires id in s.clearers
  {
    var at := s.clearers[id].at;
    at.UnlinkTombstone? || ((at.StatPublic? || at.StatTombstone?) && ReclaimTemp(id) !in s.disk.names)
  }

  /** Some clear of this lock is in flight and can still unlink the public name. */
  predicate Armed(s: State, token: nat) {
    exists id :: id in s.clearers && s.clearers[id].token == token && !Spent(s, id)
  }

  /** The lock's owner has stopped, and no other clear of it is in flight. */
  predicate MayClear(s: State, token: nat) {
    Stopped(s, token) && !Armed(s, token)
  }

  /** The operator starts a clear only when that holds of the lock. */
  predicate Careful(s: State, events: seq<Event>) {
    events == [] ||
    var before, last := events[..|events| - 1], events[|events| - 1];
    Careful(s, before) && CarefulStep(Run(s, before), last)
  }

  predicate CarefulStep(s: State, e: Event) {
    && (e.ClearBegin? ==> MayClear(s, e.token))
    && (e.ForceBegin? && LockToken(s.disk).Some? ==> MayClear(s, LockToken(s.disk).value))
  }

  /* ---------------------------------------------------------------- the invariant */

  /** No inode has three names. */
  predicate NoThree(d: Disk) {
    forall n | n in d.names :: Links(d, d.names[n]) <= 2
  }

  predicate Only(d: Disk, ino: nat, paths: set<Path>) {
    forall p | p in d.names && d.names[p] == ino :: p in paths
  }

  lemma CountOne(d: Disk, p: Path)
    requires p in d.names
    ensures Links(d, d.names[p]) == 1 <==> Only(d, d.names[p], {p})
  {
    var all := LinkSet(d, d.names[p]);
    if |all| == 1 {
      assert |all - {p}| == 0;
    }
    assert Only(d, d.names[p], {p}) ==> all == {p};
  }

  lemma CountTwo(d: Disk, p: Path, q: Path)
    requires p in d.names && q in d.names && p != q && d.names[p] == d.names[q]
    ensures Links(d, d.names[p]) == 2 <==> Only(d, d.names[p], {p, q})
  {
    var all := LinkSet(d, d.names[p]);
    if |all| == 2 {
      assert |all - {p, q}| == 0;
    }
    assert Only(d, d.names[p], {p, q}) ==> all == {p, q};
  }

  predicate PublisherOk(d: Disk, id: nat, p: Publisher) {
    && (Unpublished(p) ==>
          && CreateTemp(id) in d.names && d.names[CreateTemp(id)] == p.ino
          && Only(d, p.ino, {CreateTemp(id)}) && p.ino in d.content
          && (!p.Opened? ==> d.content[p.ino] == Record(id)))
    && (Published(p) ==>
          && Public in d.names && d.names[Public] == p.ino && ReadIs(d, Public, id)
          && Only(d, p.ino, if p.Linked? then {Public, CreateTemp(id)} else {Public}))
  }

  /** Before `linkSync` made the tombstone. */
  predicate Early(at: ClearAt) {
    at.StatFirst? || at.ReadFirst? || at.StatBefore? || at.StatAgain? || at.ReadAgain? || at.LinkTombstone?
  }

  predicate ClearerOk(s: State, id: nat)
    requires id in s.clearers
  {
    var c, d := s.clearers[id], s.disk;
    && id < s.next && Stopped(s, c.token)
    && (Early(c.at) ==> ReclaimTemp(id) !in d.names)
    && (c.at.StatBefore? ==> ReadIs(d, Public, c.token))
    && (c.at.StatAgain? || c.at.ReadAgain? || c.at.LinkTombstone? ==>
          ReadIs(d, Public, c.token) && d.names[Public] == c.before && Only(d, c.before, {Public}))
    && (!Early(c.at) && !Spent(s, id) ==>
          && ReadIs(d, Public, c.token) && d.names[Public] == c.before
          && Only(d, c.before, {Public, ReclaimTemp(id)})
          && (ReclaimTemp(id) in d.names ==> d.names[ReclaimTemp(id)] == c.before))
  }

  /** Of two clears of one lock at most one can still unlink the public name. */
  predicate OneArmed(s: State) {
    forall i, j | i in s.clearers && j in s.clearers && i != j && s.clearers[i].token == s.clearers[j].token ::
      Spent(s, i) || Spent(s, j)
  }

  predicate ClearersOk(s: State) {
    (forall id {:trigger ClearerOk(s, id)} | id in s.clearers :: ClearerOk(s, id)) && OneArmed(s)
  }

  predicate NamesOk(s: State) {
    && (forall n | n in s.disk.names ::
          && s.disk.names[n] in s.disk.content
          && (n.CreateTemp? ==> n.id in s.publishers)
          && (n.ReclaimTemp? ==> n.id < s.next))
    && (forall id | id in s.publishers :: id < s.next)
  }

  /** Two names of one inode: one of them is the lock itself. */
  predicate PairsOk(d: Disk) {
    forall n, m | n in d.names && m in d.names && d.names[n] == d.names[m] && n != m :: n.Public? || m.Public?
  }

  predicate PublicOk(s: State) {
    Public in s.disk.names ==>
      && s.disk.names[Public] in s.disk.content
      && var c := s.disk.content[s.disk.names[Public]];
         c.Record? && c.token in s.publishers && !Unpublished(s.publishers[c.token])
  }

  predicate RepairOk(s: State, r: Repair) {
    && (r.name.CreateTemp? && r.links == 2 ==>
          r.name.id in s.publishers && !Unpublished(s.publishers[r.name.id]))
    && (!r.name.Public? ==> r.name.id < s.next)
  }

  predicate Inv(s: State) {
    && NamesOk(s) && PairsOk(s.disk) && PublicOk(s) && ClearersOk(s)
    && (forall id | id in s.publishers :: PublisherOk(s.disk, id, s.publishers[id]))
    && (forall id | id in s.repairs :: RepairOk(s, s.repairs[id]) && !s.repairs[id].name.Public?)
  }

  /** Nothing that the clear `i` relies on changes from `s` to `t`. */
  predicate Undisturbed(s: State, t: State, i: nat)
    requires i in s.clearers
  {
    var c := s.clearers[i];
    && i in t.clearers && t.clearers[i] == c && s.next <= t.next && Stopped(t, c.token)
    && (ReclaimTemp(i) in t.disk.names ==>
          ReclaimTemp(i) in s.disk.names && t.disk.names[ReclaimTemp(i)] == s.disk.names[ReclaimTemp(i)])
    && (!Spent(s, i) && ReadIs(s.disk, Public, c.token) ==>
          && ReadIs(t.disk, Public, c.token) && t.disk.names[Public] == s.disk.names[Public]
          && forall n | n in t.disk.names && t.disk.names[n] == t.disk.names[Public] ::
               n in s.disk.names && s.disk.names[n] == s.disk.names[Public])
  }

  lemma ClearerKept(s: State, t: State, i: nat)
    requires i in s.clearers && ClearerOk(s, i) && Undisturbed(s, t, i)
    ensures ClearerOk(t, i) && (Spent(s, i) ==> Spent(t, i))
  {
  }

  lemma ClearersKept(s: State, t: State)
    requires ClearersOk(s) && t.clearers.Keys <= s.clearers.Keys
    requires forall i | i in t.clearers :: Undisturbed(s, t, i)
    ensures ClearersOk(t)
  {
    forall i | i in t.clearers ensures ClearerOk(t, i) && (Spent(s, i) ==> Spent(t, i)) {
      assert ClearerOk(s, i);
      ClearerKept(s, t, i);
    }
  }

  lemma OpenKeepsInv(s: State, ino: nat)
    requires Inv(s)
    ensures Inv(Next(s, Open(ino)))
  {
    var t := Next(s, Open(ino));
    if LinkSet(s.disk, ino) == {} {
      assert forall p | p in s.disk.names && s.disk.names[p] == ino :: p in LinkSet(s.disk, ino);
      forall id | id in t.publishers ensures PublisherOk(t.disk, id, t.publishers[id]) {
        if id != s.next { assert PublisherOk(s.disk, id, s.publishers[id]); }
      }
      forall i | i in s.clearers ensures Undisturbed(s, t, i) { assert ClearerOk(s, i); }
      ClearersKept(s, t);
    }
  }

  /** A step that changes no name and no file: only the phase of one publisher moves. */
  lemma PhaseKeepsInv(s: State, id: nat, p: Publisher)
    requires Inv(s) && id in s.publishers && PublisherOk(s.disk, id, p)
    requires Unpublished(p) ==> Unpublished(s.publishers[id])
    requires Stopped(s, id) ==> p.Gone?
    ensures Inv(s.(publishers := s.publishers[id := p]))
  {
    var t := s.(publishers := s.publishers[id := p]);
    forall i | i in s.clearers ensures Undisturbed(s, t, i) { assert ClearerOk(s, i); }
    ClearersKept(s, t);
  }

  lemma WriteKeepsInv(s: State, id: nat)
    requires Inv(s) && id in s.publishers && s.publishers[id].Opened?
    ensures Inv(PublisherStep(s, id))
  {
    var t := PublisherStep(s, id);
    assert PublisherOk(s.disk, id, s.publishers[id]);
    forall other | other in s.publishers ensures PublisherOk(t.disk, other, t.publishers[other]) {
      assert PublisherOk(s.disk, other, s.publishers[other]);
    }
    forall i | i in s.clearers ensures Undisturbed(s, t, i) { assert ClearerOk(s, i); }
    ClearersKept(s, t);
  }

  lemma PublishKeepsInv(s: State, id: nat)
    requires Inv(s) && id in s.publishers && s.publishers[id].Inspected?
    requires CreateTemp(id) in s.disk.names && Public !in s.disk.names
    ensures Inv(PublisherStep(s, id))
  {
    var t := PublisherStep(s, id);
    assert PublisherOk(s.disk, id, s.publishers[id]);
    forall other | other in s.publishers ensures PublisherOk(t.disk, other, t.publishers[other]) {
      assert PublisherOk(s.disk, other, s.publishers[other]);
    }
    forall i | i in s.clearers ensures Undisturbed(s, t, i) { assert ClearerOk(s, i); }
    ClearersKept(s, t);
  }

  lemma UnlinkTempKeepsInv(s: State, id: nat, p: Publisher)
    requires Inv(s) && id in s.publishers && !Unpublished(s.publishers[id]) && !Unpublished(p)
    requires Stopped(s, id) ==> p.Gone?
    requires PublisherOk(Unlink(s.disk, CreateTemp(id)), id, p)
    ensures Inv(s.(disk := Unlink(s.disk, CreateTemp(id)), publishers := s.publishers[id := p]))
  {
    var t := s.(disk := Unlink(s.disk, CreateTemp(id)), publishers := s.publishers[id := p]);
    forall other | other in s.publishers && other != id
      ensures PublisherOk(Unlink(s.disk, CreateTemp(id)), other, s.publishers[other])
    {
      assert PublisherOk(s.disk, other, s.publishers[other]);
    }
    forall i | i in s.clearers ensures Undisturbed(s, t, i) { assert ClearerOk(s, i); }
    ClearersKept(s, t);
  }

  lemma ReleaseKeepsInv(s: State, id: nat)
    requires Inv(s) && id in s.publishers && s.publishers[id].Releasing? && s.publishers[id].left == 0
    ensures Inv(PublisherStep(s, id))
  {
    var t := PublisherStep(s, id);
    assert PublisherOk(s.disk, id, s.publishers[id]);
    forall other | other in s.publishers ensures PublisherOk(t.disk, other, t.publishers[other]) {
      assert PublisherOk(s.disk, other, s.publishers[other]);
    }
    forall i | i in s.clearers ensures Undisturbed(s, t, i) { assert ClearerOk(s, i); }
    ClearersKept(s, t);
  }

  lemma ProceedKeepsInv(s: State, id: nat)
    requires Inv(s)
    ensures Inv(Next(s, Proceed(id)))
  {
    if id in s.publishers {
      var p, d := s.publishers[id], s.disk;
      assert PublisherOk(d, id, p);
      match p
      case Opened(_) => WriteKeepsInv(s, id);
      case Inspected(_) =>
        if Public in d.names { PhaseKeepsInv(s, id, Aborting(p.ino)); } else { PublishKeepsInv(s, id); }
      case Linked(_) => UnlinkTempKeepsInv(s, id, Verifying(p.ino, if CreateTemp(id) in d.names then 3 else 6));
      case Aborting(_) => AbortKeepsInv(s, id);
      case Releasing(_, left) =>
        if left == 0 { ReleaseKeepsInv(s, id); } else { PhaseKeepsInv(s, id, PublisherStep(s, id).publishers[id]); }
      case _ => PhaseKeepsInv(s, id, PublisherStep(s, id).publishers[id]);
    }
  }

  lemma AbortKeepsInv(s: State, id: nat)
    requires Inv(s) && id in s.publishers && s.publishers[id].Aborting?
    ensures Inv(PublisherStep(s, id))
  {
    UnlinkTempKeepsInv(s, id, Gone);
  }

  /** The steps that only set the phase of a publisher. */
  lemma PublisherPhaseKeepsInv(s: State, e: Event)
    requires Inv(s) && (e.Fail? || e.Crash? || e.BeginRelease?)
    ensures Inv(Next(s, e))
  {
    if e.id in s.publishers {
      assert PublisherOk(s.disk, e.id, s.publishers[e.id]);
      if Next(s, e) != s { PhaseKeepsInv(s, e.id, Next(s, e).publishers[e.id]); }
    }
  }

  lemma RepairStatOk(s: State, e: Event)
    requires Inv(s) && e.RepairStat?
    ensures forall id | id in Next(s, e).repairs ::
      RepairOk(Next(s, e), Next(s, e).repairs[id]) && !Next(s, e).repairs[id].name.Public?
  {
    if e.name in s.disk.names && e.name.CreateTemp? {
      CountOne(s.disk, e.name);
      assert PublisherOk(s.disk, e.name.id, s.publishers[e.name.id]);
    }
  }

  lemma RepairNoteKeepsInv(s: State, e: Event)
    requires Inv(s) && (e.RepairStat? || e.RepairStatLock? || e.RepairCrash?)
    ensures Inv(Next(s, e))
  {
    var t := Next(s, e);
    if e.RepairStat? { RepairStatOk(s, e); }
    forall i | i in s.clearers ensures Undisturbed(s, t, i) { assert ClearerOk(s, i); }
    ClearersKept(s, t);
  }

  /** What a repair unlinks belongs to no live acquisition. */
  lemma RepairActPublisherOk(s: State, id: nat, other: nat)
    requires id in s.repairs && RepairOk(s, s.repairs[id]) && !s.repairs[id].name.Public?
    requires other in s.publishers && PublisherOk(s.disk, other, s.publishers[other])
    ensures PublisherOk(Next(s, RepairAct(id)).disk, other, s.publishers[other])
  {
  }

  lemma RepairActKeepsInv(s: State, id: nat)
    requires Inv(s)
    ensures Inv(Next(s, RepairAct(id)))
  {
    var t := Next(s, RepairAct(id));
    if id in s.repairs {
      forall other | other in s.publishers ensures PublisherOk(t.disk, other, s.publishers[other]) {
        RepairActPublisherOk(s, id, other);
      }
      forall i | i in s.clearers ensures Undisturbed(s, t, i) { assert ClearerOk(s, i); }
      ClearersKept(s, t);
    }
  }

  /** A step of one clear keeps what it relies on itself. */
  lemma ClearStepOk(s: State, id: nat)
    requires id in s.clearers && ClearerOk(s, id) && id in ClearStep(s, id).clearers
    ensures ClearerOk(ClearStep(s, id), id) && (Spent(s, id) ==> Spent(ClearStep(s, id), id))
  {
    match s.clearers[id].at
    case StatBefore => CountOne(s.disk, Public);
    case LinkTombstone => assert Only(s.disk, s.clearers[id].before, {Public});
    case _ =>
  }

  /** It does not disturb the others either, as only one of those of a lock is not spent. */
  lemma ClearStepUndisturbing(s: State, id: nat, i: nat)
    requires id in s.clearers && i in s.clearers && i != id
    requires ClearerOk(s, id) && ClearerOk(s, i)
    requires s.clearers[i].token == s.clearers[id].token ==> Spent(s, i) || Spent(s, id)
    ensures Undisturbed(s, ClearStep(s, id), i)
  {
    match s.clearers[id].at
    case LinkTombstone => assert !Spent(s, id);
    case UnlinkPublic => assert !Spent(s, id);
    case UnlinkTombstone =>
    case StatBefore =>
    case _ =>
  }

  /** Only the disk and this clear may differ. */
  predicate SameButClear(s: State, t: State, id: nat) {
    && t.publishers == s.publishers && t.repairs == s.repairs && t.next == s.next
    && t.clearers.Keys <= s.clearers.Keys
    && (id in t.clearers ==> t.clearers[id].token == s.clearers[id].token)
    && forall i | i in s.clearers && i != id :: i in t.clearers && t.clearers[i] == s.clearers[i]
  }

  lemma ClearStepFrame(s: State, id: nat)
    requires id in s.clearers
    ensures SameButClear(s, ClearStep(s, id), id)
  {
    match s.clearers[id].at
    case LinkTombstone =>
    case UnlinkPublic =>
    case UnlinkTombstone =>
    case StatBefore =>
    case StatTombstone =>
    case _ =>
  }

  lemma ClearersMoved(s: State, t: State, id: nat)
    requires ClearersOk(s) && SameButClear(s, t, id)
    requires forall i | i in s.clearers && i != id :: Undisturbed(s, t, i)
    requires id in t.clearers ==> ClearerOk(t, id) && (Spent(s, id) ==> Spent(t, id))
    ensures ClearersOk(t)
  {
    forall i | i in t.clearers ensures ClearerOk(t, i) && (Spent(s, i) ==> Spent(t, i)) {
      assert ClearerOk(s, i);
      if i != id { ClearerKept(s, t, i); }
    }
  }

  lemma ClearStepClearersOk(s: State, id: nat)
    requires ClearersOk(s) && id in s.clearers
    ensures ClearersOk(ClearStep(s, id))
  {
    assert ClearerOk(s, id);
    forall i | i in s.clearers && i != id ensures Undisturbed(s, ClearStep(s, id), i) {
      assert ClearerOk(s, i);
      ClearStepUndisturbing(s, id, i);
    }
    ClearStepFrame(s, id);
    if id in ClearStep(s, id).clearers { ClearStepOk(s, id); }
    ClearersMoved(s, ClearStep(s, id), id);
  }

  lemma ClearStepPublisherOk(s: State, id: nat, other: nat)
    requires id in s.clearers && ClearerOk(s, id)
    requires other in s.publishers && PublisherOk(s.disk, other, s.publishers[other])
    ensures PublisherOk(ClearStep(s, id).disk, other, s.publishers[other])
  {
  }

  lemma ClearStepNamesOk(s: State, id: nat)
    requires NamesOk(s) && PairsOk(s.disk) && PublicOk(s) && id in s.clearers && ClearerOk(s, id)
    ensures var t := ClearStep(s, id); NamesOk(t) && PairsOk(t.disk) && PublicOk(t)
  {
    match s.clearers[id].at
    case LinkTombstone => assert Only(s.disk, s.clearers[id].before, {Public});
    case _ =>
  }

  lemma InvMoved(s: State, t: State, id: nat)
    requires Inv(s) && SameButClear(s, t, id)
    requires NamesOk(t) && PairsOk(t.disk) && PublicOk(t) && ClearersOk(t)
    requires forall p | p in s.publishers :: PublisherOk(t.disk, p, s.publishers[p])
    ensures Inv(t)
  {
    forall r | r in t.repairs ensures RepairOk(t, t.repairs[r]) && !t.repairs[r].name.Public? {
      assert RepairOk(s, s.repairs[r]);
    }
  }

  lemma ClearKeepsInv(s: State, id: nat)
    requires Inv(s)
    ensures Inv(Next(s, ClearProceed(id)))
  {
    if id in s.clearers {
      assert ClearerOk(s, id);
      forall p | p in s.publishers ensures PublisherOk(ClearStep(s, id).disk, p, s.publishers[p]) {
        ClearStepPublisherOk(s, id, p);
      }
      ClearStepClearersOk(s, id);
      ClearStepNamesOk(s, id);
      ClearStepFrame(s, id);
      InvMoved(s, ClearStep(s, id), id);
    }
  }

  lemma ClearBeginKeepsInv(s: State, e: Event)
    requires Inv(s) && (e.ClearBegin? || e.ForceBegin?) && CarefulStep(s, e)
    ensures Inv(Next(s, e))
  {
    var t := Next(s, e);
    if t != s {
      if e.ForceBegin? { CountOne(s.disk, Public); }
      forall i | i in t.clearers ensures ClearerOk(t, i) && (i in s.clearers && Spent(s, i) ==> Spent(t, i)) {
        if i in s.clearers {
          assert ClearerOk(s, i);
          ClearerKept(s, t, i);
        }
      }
    }
  }

  lemma ClearCrashKeepsInv(s: State, id: nat)
    requires Inv(s)
    ensures Inv(Next(s, ClearCrash(id)))
  {
    var t := Next(s, ClearCrash(id));
    forall i | i in t.clearers ensures Undisturbed(s, t, i) { assert ClearerOk(s, i); }
    ClearersKept(s, t);
  }

  lemma StepKeepsInv(s: State, e: Event)
    requires Inv(s) && CarefulStep(s, e)
    ensures Inv(Next(s, e))
  {
    match e
    case Open(ino) => OpenKeepsInv(s, ino);
    case Proceed(id) => ProceedKeepsInv(s, id);
    case Fail(_) => PublisherPhaseKeepsInv(s, e);
    case Crash(_) => PublisherPhaseKeepsInv(s, e);
    case BeginRelease(_) => PublisherPhaseKeepsInv(s, e);
    case RepairStat(_, _) => RepairNoteKeepsInv(s, e);
    case RepairStatLock(_) => RepairNoteKeepsInv(s, e);
    case RepairAct(id) => RepairActKeepsInv(s, id);
    case RepairCrash(_) => RepairNoteKeepsInv(s, e);
    case ClearBegin(_) => ClearBeginKeepsInv(s, e);
    case ForceBegin => ClearBeginKeepsInv(s, e);
    case ClearProceed(id) => ClearKeepsInv(s, id);
    case ClearCrash(id) => ClearCrashKeepsInv(s, id);
  }

  lemma {:induction false} RunKeepsInv(s: State, events: seq<Event>)
    requires Inv(s) && Careful(s, events)
    ensures Inv(Run(s, events))
  {
    if events != [] {
      var before := events[..|events| - 1];
      RunKeepsInv(s, before);
      StepKeepsInv(Run(s, before), events[|events| - 1]);
    }
  }

  /* ---------------------------------------------------------------- main results */

  predicate Exclusive(s: State) {
    forall p, q | p in s.publishers && q in s.publishers && Published(s.publishers[p]) && Published(s.publishers[q]) ::
      p == q
  }

  lemma InvIsExclusive(s: State)
    requires Inv(s)
    ensures Exclusive(s)
    ensures forall p | p in s.publishers && Published(s.publishers[p]) :: ReadIs(s.disk, Public, p)
  {
    forall p | p in s.publishers ensures PublisherOk(s.disk, p, s.publishers[p]) {}
  }

  /** At most one process owns the public name, and it holds that process's whole record. */
  lemma MutualExclusion(events: seq<Event>)
    requires Careful(Start, events)
    ensures var s := Run(Start, events);
            && Exclusive(s)
            && (forall p | p in s.publishers && Published(s.publishers[p]) :: ReadIs(s.disk, Public, p))
            && (Public in s.disk.names ==> s.disk.names[Public] in s.disk.content
                                           && s.disk.content[s.disk.names[Public]].Record?)
  {
    RunKeepsInv(Start, events);
    InvIsExclusive(Run(Start, events));
  }

  /** Once `link()` has succeeded, no check of the acquisition or of the release can fail. */
  lemma PublishedChecksPass(events: seq<Event>, id: nat)
    requires Careful(Start, events)
    requires var s := Run(Start, events); id in s.publishers && Published(s.publishers[id])
    ensures var s := Run(Start, events);
            var p, q := s.publishers[id], Next(s, Proceed(id)).publishers[id];
            match p
            case Linked(ino) => q.Verifying? && q.ino == ino
            case Verifying(ino, left) => q == if left == 0 then Holding(ino) else Verifying(ino, left - 1)
            case Releasing(ino, left) => q == if left == 0 then Gone else Releasing(ino, left - 1)
            case _ => q == p
  {
    RunKeepsInv(Start, events);
    var s := Run(Start, events);
    assert PublisherOk(s.disk, id, s.publishers[id]);
    CountOne(s.disk, Public);
  }

  lemma RepairActHarmless(s: State, repair: nat)
    requires Inv(s)
    ensures var t := Next(s, RepairAct(repair));
            && (Public in s.disk.names <==> Public in t.disk.names)
            && (Public in s.disk.names ==> t.disk.names[Public] == s.disk.names[Public])
            && t.disk.content == s.disk.content
            && forall p | p in s.publishers && Unpublished(s.publishers[p]) ::
                 CreateTemp(p) in t.disk.names && t.disk.names[CreateTemp(p)] == s.publishers[p].ino
  {
    if repair in s.repairs {
      forall p | p in s.publishers ensures PublisherOk(Next(s, RepairAct(repair)).disk, p, s.publishers[p]) {
        RepairActPublisherOk(s, repair, p);
      }
    } else {
      forall p | p in s.publishers ensures PublisherOk(s.disk, p, s.publishers[p]) {}
    }
  }

  /** A repair removes neither the lock nor the temporary file of a live, unpublished acquisition. */
  lemma RepairIsHarmless(events: seq<Event>, repair: nat)
    requires Careful(Start, events)
    ensures var s := Run(Start, events);
            var t := Next(s, RepairAct(repair));
            && (Public in s.disk.names <==> Public in t.disk.names)
            && (Public in s.disk.names ==> t.disk.names[Public] == s.disk.names[Public])
            && t.disk.content == s.disk.content
            && forall p | p in s.publishers && Unpublished(s.publishers[p]) ::
                 CreateTemp(p) in t.disk.names && t.disk.names[CreateTemp(p)] == s.publishers[p].ino
  {
    RunKeepsInv(Start, events);
    RepairActHarmless(Run(Start, events), repair);
  }

  lemma ClearUnlinksItsLock(s: State, id: nat)
    requires id in s.clearers && ClearerOk(s, id) && Public in s.disk.names && Public !in ClearStep(s, id).disk.names
    ensures ReadIs(s.disk, Public, s.clearers[id].token) && Stopped(s, s.clearers[id].token)
  {
  }

  /** Only the record with this token, whose owner has stopped, may have gone. */
  predicate TakesOnly(s: State, t: State, token: nat) {
    && (Public in s.disk.names && Public !in t.disk.names ==> ReadIs(s.disk, Public, token) && Stopped(s, token))
    && (forall p | p in s.publishers && Published(s.publishers[p]) ::
          p in t.publishers && t.publishers[p] == s.publishers[p] && ReadIs(t.disk, Public, p))
  }

  lemma ClearStepExact(s: State, id: nat)
    requires Inv(s) && id in s.clearers
    ensures TakesOnly(s, ClearStep(s, id), s.clearers[id].token)
  {
    assert ClearerOk(s, id);
    ClearStepFrame(s, id);
    forall p | p in s.publishers && Published(s.publishers[p]) ensures ReadIs(ClearStep(s, id).disk, Public, p) {
      ClearStepPublisherOk(s, id, p);
    }
    if Public in s.disk.names && Public !in ClearStep(s, id).disk.names { ClearUnlinksItsLock(s, id); }
  }

  /** A clear that takes the public name away takes away the record it was told to remove,
      and leaves every other process's lock alone. */
  lemma ClearIsExact(events: seq<Event>, id: nat)
    requires Careful(Start, events)
    requires id in Run(Start, events).clearers
    ensures var s := Run(Start, events); TakesOnly(s, ClearStep(s, id), s.clearers[id].token)
  {
    RunKeepsInv(Start, events);
    ClearStepExact(Run(Start, events), id);
  }

  /* ------------------------------------------------- when clearing is safe, exactly */

  predicate BeginsClear(e: Event) {
    e.ClearBegin? || e.ForceBegin?
  }

  predicate NoClears(events: seq<Event>) {
    forall e | e in events :: !BeginsClear(e)
  }

  /** The event starts a clear of the lock with this token. */
  predicate ClearsLock(s: State, e: Event, token: nat) {
    e == ClearBegin(token) || (e.ForceBegin? && LockToken(s.disk) == Some(token))
  }

  predicate OnlyClearAt(s: State, events: seq<Event>, token: nat, k: nat) {
    && k < |events| && ClearsLock(Run(s, events[..k]), events[k], token)
    && NoClears(events[..k]) && NoClears(events[k + 1..])
  }

  /** At most one clear is started, and it is one of the lock with this token. */
  ghost predicate OneClear(s: State, events: seq<Event>, token: nat) {
    NoClears(events) || exists k :: OnlyClearAt(s, events, token, k)
  }

  lemma {:induction false} RunJoin(s: State, first: seq<Event>, second: seq<Event>)
    ensures Run(s, first + second) == Run(Run(s, first), second)
  {
    if second == [] {
      assert first + second == first;
    } else {
      var all := first + second;
      assert all[..|all| - 1] == first + second[..|second| - 1];
      RunJoin(s, first, second[..|second| - 1]);
    }
  }

  lemma RunOne(s: State, e: Event)
    ensures Run(s, [e]) == Next(s, e)
  {
    assert Run(s, []) == s;
    assert [e][..0] == [];
  }

  lemma {:induction false} CarefulJoin(s: State, first: seq<Event>, second: seq<Event>)
    requires Careful(s, first) && Careful(Run(s, first), second)
    ensures Careful(s, first + second)
  {
    if second == [] {
      assert first + second == first;
    } else {
      var all, before := first + second, second[..|second| - 1];
      assert all[..|all| - 1] == first + before;
      CarefulJoin(s, first, before);
      RunJoin(s, first, before);
    }
  }

  lemma {:induction false} NoClearsCareful(s: State, events: seq<Event>)
    requires NoClears(events)
    ensures Careful(s, events)
  {
    if events != [] {
      NoClearsCareful(s, events[..|events| - 1]);
      assert !BeginsClear(events[|events| - 1]);
    }
  }

  lemma SpentStep(s: State, id: nat, i: nat)
    requires id in s.clearers && i in s.clearers && Spent(s, i) && i in ClearStep(s, id).clearers
    ensures Spent(ClearStep(s, id), i)
  {
    if i != id { ClearStepFrame(s, id); }
    match s.clearers[id].at
    case LinkTombstone => assert ReclaimTemp(i) in ClearStep(s, id).disk.names ==> ReclaimTemp(i) in s.disk.names || i == id;
    case _ =>
  }

  lemma SpentStays(s: State, e: Event, i: nat)
    requires i in s.clearers && Spent(s, i) && i < s.next && i in Next(s, e).clearers
    ensures Spent(Next(s, e), i)
  {
    match e
    case Proceed(id) => assert id in s.publishers ==> PublisherStep(s, id).clearers == s.clearers;
    case ClearProceed(id) => if id in s.clearers { SpentStep(s, id, i); }
    case _ =>
  }

  /** The numbers in use are below `next`. */
  predicate Fresh(s: State) {
    && (forall n | n in s.disk.names && !n.Public? :: n.id < s.next)
    && (forall i | i in s.clearers :: i < s.next)
  }

  lemma FreshStep(s: State, e: Event)
    requires Fresh(s)
    ensures Fresh(Next(s, e)) && s.next <= Next(s, e).next
  {
    match e
    case Proceed(id) => if id in s.publishers { PublisherStepNames(s, id); }
    case ClearProceed(id) => if id in s.clearers { ClearStepFrame(s, id); ClearStepNames(s, id); }
    case _ =>
  }

  lemma PublisherStepNames(s: State, id: nat)
    requires id in s.publishers
    ensures var t := PublisherStep(s, id);
            t.clearers == s.clearers && t.next == s.next && t.disk.names.Keys <= s.disk.names.Keys + {Public}
  {
  }

  lemma ClearStepNames(s: State, id: nat)
    requires id in s.clearers
    ensures ClearStep(s, id).disk.names.Keys <= s.disk.names.Keys + {ReclaimTemp(id)}
  {
  }

  lemma StoppedStep(s: State, e: Event, token: nat)
    requires Stopped(s, token) && token < s.next
    ensures Stopped(Next(s, e), token)
  {
  }

  lemma SpentOfStep(s: State, e: Event, token: nat, i: nat)
    requires !Armed(s, token) && Fresh(s) && !BeginsClear(e)
    requires i in Next(s, e).clearers && Next(s, e).clearers[i].token == token
    ensures Spent(Next(s, e), i)
  {
    ClearersShrink(s, e, i);
    SpentStays(s, e, i);
  }

  lemma MayClearStep(s: State, e: Event, token: nat)
    requires MayClear(s, token) && token < s.next && Fresh(s) && !BeginsClear(e)
    ensures MayClear(Next(s, e), token)
  {
    StoppedStep(s, e, token);
    forall i | i in Next(s, e).clearers && Next(s, e).clearers[i].token == token ensures Spent(Next(s, e), i) {
      SpentOfStep(s, e, token, i);
    }
  }

  lemma ClearersShrink(s: State, e: Event, i: nat)
    requires !BeginsClear(e) && i in Next(s, e).clearers
    ensures i in s.clearers && Next(s, e).clearers[i].token == s.clearers[i].token
  {
    match e
    case Proceed(id) => if id in s.publishers { PublisherStepNames(s, id); }
    case ClearProceed(id) => if id in s.clearers { ClearStepFrame(s, id); }
    case _ =>
  }

  lemma {:induction false} MayClearStays(s: State, events: seq<Event>, token: nat)
    requires MayClear(s, token) && token < s.next && Fresh(s) && NoClears(events)
    ensures MayClear(Run(s, events), token) && token < Run(s, events).next && Fresh(Run(s, events))
  {
    if events != [] {
      var before := events[..|events| - 1];
      MayClearStays(s, before, token);
      FreshStep(Run(s, before), events[|events| - 1]);
      MayClearStep(Run(s, before), events[|events| - 1], token);
    }
  }

  lemma CarefulMore(s: State, events: seq<Event>, e: Event)
    requires Careful(s, events) && CarefulStep(Run(s, events), e)
    ensures Careful(s, events + [e])
  {
    assert (events + [e])[..|events|] == events;
  }

  lemma MayClearIsCareful(s: State, e: Event, token: nat)
    requires MayClear(s, token) && ClearsLock(s, e, token)
    ensures CarefulStep(s, e)
  {
  }

  lemma OneClearCarefulAt(s: State, before: seq<Event>, e: Event, after: seq<Event>, token: nat)
    requires MayClear(s, token) && token < s.next && Fresh(s)
    requires NoClears(before) && NoClears(after) && ClearsLock(Run(s, before), e, token)
    ensures Careful(s, before + [e] + after)
  {
    NoClearsCareful(s, before);
    MayClearStays(s, before, token);
    MayClearIsCareful(Run(s, before), e, token);
    CarefulMore(s, before, e);
    NoClearsCareful(Run(s, before + [e]), after);
    CarefulJoin(s, before + [e], after);
  }

  lemma OneClearCareful(s: State, events: seq<Event>, token: nat)
    requires MayClear(s, token) && token < s.next && Fresh(s) && OneClear(s, events, token)
    ensures Careful(s, events)
  {
    if NoClears(events) {
      NoClearsCareful(s, events);
    } else {
      var k: nat :| OnlyClearAt(s, events, token, k);
      OneClearCarefulAt(s, events[..k], events[k], events[k + 1..], token);
      assert events == events[..k] + [events[k]] + events[k + 1..];
    }
  }

  lemma OneClearJoin(s: State, before: seq<Event>, token: nat, after: seq<Event>)
    requires NoClears(before) && NoClears(after)
    ensures OneClear(s, before + [ClearBegin(token)] + after, token)
    ensures Run(s, before + [ClearBegin(token)] + after) == Run(Next(Run(s, before), ClearBegin(token)), after)
  {
    var all := before + [ClearBegin(token)] + after;
    assert all[..|before|] == before && all[|before| + 1..] == after;
    assert OnlyClearAt(s, all, token, |before|);
    RunJoin(s, before, [ClearBegin(token)]);
    RunOne(Run(s, before), ClearBegin(token));
    RunJoin(s, before + [ClearBegin(token)], after);
  }

  function Rank(p: Publisher): nat
    requires Published(p)
  {
    match p
    case Linked(_) => 17
    case Verifying(_, left) => 10 + left
    case Holding(_) => 9
    case Releasing(_, left) => left
  }

  /** A live owner can be scheduled until only its final unlink is left. */
  lemma {:induction false} DriveToRelease(s: State, id: nat) returns (events: seq<Event>)
    requires Inv(s) && id in s.publishers && Published(s.publishers[id])
    ensures NoClears(events)
    ensures var t := Run(s, events);
            && t.publishers == s.publishers[id := Releasing(s.publishers[id].ino, 0)]
            && Inv(t)
    decreases !s.publishers[id].Releasing?, Rank(s.publishers[id])
  {
    var p := s.publishers[id];
    if p == Releasing(p.ino, 0) {
      events := [];
      assert s.publishers[id := p] == s.publishers;
    } else {
      var e := if p.Holding? then BeginRelease(id) else Proceed(id);
      assert PublisherOk(s.disk, id, p);
      CountOne(s.disk, Public);
      StepKeepsInv(s, e);
      RunOne(s, e);
      var rest := DriveToRelease(Next(s, e), id);
      events := [e] + rest;
      RunJoin(s, [e], rest);
    }
  }

  /** Everything that this clear still looks at is as it wants it. */
  predicate Ready(s: State, id: nat, ino: nat) {
    && id in s.clearers
    && var c, d, tombstone := s.clearers[id], s.disk, ReclaimTemp(id);
    && !c.at.UnlinkTombstone? && ReadIs(d, Public, c.token) && d.names[Public] == ino
    && Only(d, ino, {Public, tombstone})
    && (c.at.StatFirst? || c.at.ReadFirst? || c.at.StatBefore? || c.before == ino)
    && (Early(c.at) ==> tombstone !in d.names)
    && (c.at.StatPublic? || c.at.StatTombstone? ==> tombstone in d.names)
    && (tombstone in d.names ==> d.names[tombstone] == ino)
  }

  /** Nothing but this clear and its tombstone differs. */
  ghost predicate Toward(s: State, t: State, id: nat) {
    && SameButClear(s, t, id) && t.clearers.Keys == s.clearers.Keys && t.disk.content == s.disk.content
    && forall n | n != ReclaimTemp(id) ::
         (n in t.disk.names <==> n in s.disk.names)
         && (n in s.disk.names ==> t.disk.names[n] == s.disk.names[n])
  }

  function Ahead(at: ClearAt): nat {
    match at
    case StatFirst => 9
    case ReadFirst => 8
    case StatBefore => 7
    case StatAgain => 6
    case ReadAgain => 5
    case LinkTombstone => 4
    case StatPublic => 3
    case StatTombstone => 2
    case ReadHeld => 1
    case _ => 0
  }

  lemma ReadyStep(s: State, id: nat, ino: nat)
    requires Ready(s, id, ino) && !s.clearers[id].at.UnlinkPublic?
    ensures var t := ClearStep(s, id);
            && Ready(t, id, ino) && Toward(s, t, id)
            && var before, after := Ahead(s.clearers[id].at), Ahead(t.clearers[id].at);
               after < before && (before > 4 ==> after >= 4)
  {
    match s.clearers[id].at
    case StatFirst => CountOne(s.disk, Public);
    case StatBefore => CountOne(s.disk, Public);
    case StatAgain => CountOne(s.disk, Public);
    case StatPublic => CountTwo(s.disk, Public, ReclaimTemp(id));
    case StatTombstone => CountTwo(s.disk, Public, ReclaimTemp(id));
    case _ =>
  }

  lemma TowardJoin(s: State, t: State, u: State, id: nat)
    requires id in s.clearers && Toward(s, t, id) && Toward(t, u, id)
    ensures Toward(s, u, id)
  {
  }

  /** Such a clear passes every check up to its `linkSync`, or up to its unlink of the lock. */
  lemma {:induction false} Advance(s: State, id: nat, ino: nat, goal: ClearAt) returns (events: seq<Event>)
    requires Ready(s, id, ino) && (goal.LinkTombstone? || goal.UnlinkPublic?)
    requires Ahead(s.clearers[id].at) >= Ahead(goal)
    ensures NoClears(events)
    ensures var t := Run(s, events); Ready(t, id, ino) && t.clearers[id].at == goal && Toward(s, t, id)
    decreases Ahead(s.clearers[id].at)
  {
    if s.clearers[id].at == goal {
      events := [];
    } else {
      ReadyStep(s, id, ino);
      RunOne(s, ClearProceed(id));
      var t := Next(s, ClearProceed(id));
      var rest := Advance(t, id, ino, goal);
      events := [ClearProceed(id)] + rest;
      RunJoin(s, [ClearProceed(id)], rest);
      TowardJoin(s, t, Run(s, events), id);
    }
  }

  ghost function Highest(used: set<nat>): (top: nat)
    ensures forall u | u in used :: u <= top
  {
    if used == {} then 0 else
    var u :| u in used;
    var rest := Highest(used - {u});
    assert forall v | v in used :: v == u || v in used - {u};
    if u <= rest then rest else u
  }

  /** The states of an acquisition that runs alone from `s`, after its first `k` steps. */
  predicate AcquiringAt(s: State, t: State, ino: nat, k: nat) {
    var phase := [Opened(ino), Written(ino), Inspected(ino), Linked(ino), Verifying(ino, 3),
                  Verifying(ino, 2), Verifying(ino, 1), Verifying(ino, 0), Holding(ino)];
    && k <= 8
    && t.publishers == s.publishers[s.next := phase[k]]
    && t.next == s.next + 1 && t.clearers == s.clearers && t.repairs == s.repairs
    && t.disk.names == (if k < 3 then s.disk.names[CreateTemp(s.next) := ino]
                        else if k == 3 then s.disk.names[CreateTemp(s.next) := ino][Public := ino]
                        else s.disk.names[Public := ino])
    && ino in t.disk.content && (k > 0 ==> t.disk.content[ino] == Record(s.next))
  }

  lemma AcquiringStep(s: State, t: State, ino: nat, k: nat)
    requires AcquiringAt(s, t, ino, k) && k < 8
    requires forall p | p in s.disk.names :: s.disk.names[p] != ino
    requires Public !in s.disk.names && CreateTemp(s.next) !in s.disk.names
    ensures AcquiringAt(s, Next(t, Proceed(s.next)), ino, k + 1)
  {
    if k < 3 {
      CountOne(t.disk, CreateTemp(s.next));
    } else {
      CountOne(t.disk, Public);
    }
  }

  /** With the public name free, a new acquisition that nobody disturbs gets the lock. */
  lemma {:induction false} FreshAcquire(s: State, ino: nat, k: nat) returns (events: seq<Event>)
    requires Public !in s.disk.names && CreateTemp(s.next) !in s.disk.names
    requires (forall p | p in s.disk.names :: s.disk.names[p] != ino) && k <= 8
    ensures AcquiringAt(s, Run(s, events), ino, k) && NoClears(events)
  {
    if k == 0 {
      events := [Open(ino)];
      RunOne(s, Open(ino));
      assert LinkSet(s.disk, ino) == {};
    } else {
      events := FreshAcquire(s, ino, k - 1);
      AcquiringStep(s, Run(s, events), ino, k - 1);
      assert (events + [Proceed(s.next)])[..|events|] == events;
      events := events + [Proceed(s.next)];
    }
  }

  lemma AcquireFree(s: State) returns (events: seq<Event>)
    requires Public !in s.disk.names && CreateTemp(s.next) !in s.disk.names
    ensures exists ino :: AcquiringAt(s, Run(s, events), ino, 8)
    ensures NoClears(events)
  {
    var ino := Highest(s.disk.names.Values) + 1;
    assert forall p | p in s.disk.names :: s.disk.names[p] in s.disk.names.Values;
    events := FreshAcquire(s, ino, 8);
  }

  /** While a clear is about to unlink, the lock got free: a new holder, the late unlink, one more holder. */
  lemma Takeover(s: State, id: nat) returns (events: seq<Event>)
    requires Public !in s.disk.names && Fresh(s)
    requires id in s.clearers && s.clearers[id].at.UnlinkPublic?
    ensures NoClears(events) && !Exclusive(Run(s, events))
  {
    var second := AcquireFree(s);
    var s1 := Run(s, second);
    var s2 := Next(s1, ClearProceed(id));
    RunOne(s1, ClearProceed(id));
    RunJoin(s, second, [ClearProceed(id)]);
    assert CreateTemp(s2.next) !in s2.disk.names;
    var third := AcquireFree(s2);
    var s3 := Run(s2, third);
    assert s3.publishers[s.next].Holding? && s3.publishers[s2.next].Holding?;
    events := second + [ClearProceed(id)] + third;
    RunJoin(s, second + [ClearProceed(id)], third);
  }

  lemma InvIsFresh(s: State)
    requires Inv(s)
    ensures Fresh(s)
  {
    forall i | i in s.clearers ensures i < s.next { assert ClearerOk(s, i); }
  }

  /** The clear's own checks do not make it safe: between the last of them and its unlink a
      live owner can release and another process can acquire. */
  lemma ClearOfLiveOwner(s: State, id: nat) returns (events: seq<Event>)
    requires Inv(s) && id in s.publishers && Published(s.publishers[id])
    ensures OneClear(s, events, id) && !Exclusive(Run(s, events))
  {
    var drive := DriveToRelease(s, id);
    var s1 := Run(s, drive);
    var clear := s1.next;
    var s2 := Next(s1, ClearBegin(id));
    InvIsFresh(s1);
    FreshStep(s1, ClearBegin(id));
    assert PublisherOk(s1.disk, id, s1.publishers[id]);
    var brink := Advance(s2, clear, s1.disk.names[Public], UnlinkPublic);
    var s3 := Run(s2, brink);
    var s4 := Next(s3, Proceed(id));
    RunOne(s3, Proceed(id));
    RunJoin(s2, brink, [Proceed(id)]);
    var takeover := Takeover(s4, clear);
    RunJoin(s2, brink + [Proceed(id)], takeover);
    events := drive + [ClearBegin(id)] + (brink + [Proceed(id)] + takeover);
    OneClearJoin(s, drive, id, brink + [Proceed(id)] + takeover);
  }

  /** A repair takes the second name of the lock away. */
  lemma RepairAway(s: State, name: Path) returns (events: seq<Event>)
    requires Public in s.disk.names && name in s.disk.names && name != Public
    requires s.disk.names[name] == s.disk.names[Public] && Only(s.disk, s.disk.names[Public], {Public, name})
    ensures NoClears(events)
    ensures Run(s, events) == s.(disk := Unlink(s.disk, name), repairs := s.repairs - {0})
  {
    CountTwo(s.disk, name, Public);
    assert Only(s.disk, s.disk.names[Public], {name, Public});
    var s1 := Next(s, RepairStat(0, name));
    var s2 := Next(s1, RepairStatLock(0));
    var s3 := Next(s2, RepairAct(0));
    events := [RepairStat(0, name)] + [RepairStatLock(0)] + [RepairAct(0)];
    RunOne(s, RepairStat(0, name));
    RunOne(s1, RepairStatLock(0));
    RunOne(s2, RepairAct(0));
    RunJoin(s, [RepairStat(0, name)], [RepairStatLock(0)]);
    RunJoin(s, [RepairStat(0, name)] + [RepairStatLock(0)], [RepairAct(0)]);
    assert s3.repairs == s.repairs - {0};
  }

  /** The public name stays, and at most one other name of its inode is gone. */
  predicate Tidied(s: State, t: State, ino: nat) {
    && t.publishers == s.publishers && t.clearers == s.clearers && t.next == s.next && t.disk.content == s.disk.content
    && t.repairs.Keys <= s.repairs.Keys && (forall r | r in t.repairs :: t.repairs[r] == s.repairs[r])
    && Public in t.disk.names && t.disk.names[Public] == ino
    && (forall n | n in t.disk.names :: n in s.disk.names && t.disk.names[n] == s.disk.names[n])
  }

  /** A repair leaves the public name as the only one of its inode. */
  lemma Tidy(s: State) returns (events: seq<Event>)
    requires PairsOk(s.disk) && Public in s.disk.names
    ensures NoClears(events)
    ensures var t, ino := Run(s, events), s.disk.names[Public]; Tidied(s, t, ino) && Only(t.disk, ino, {Public})
  {
    var ino := s.disk.names[Public];
    if Only(s.disk, ino, {Public}) {
      events := [];
    } else {
      var name :| name in s.disk.names && s.disk.names[name] == ino && name != Public;
      events := RepairAway(s, name);
    }
  }

  /** A clear that is not spent can get ready: a repair removes what another process left behind. */
  lemma GetReady(s: State, id: nat) returns (events: seq<Event>)
    requires PairsOk(s.disk) && id in s.clearers && ClearerOk(s, id) && !Spent(s, id)
    requires ReadIs(s.disk, Public, s.clearers[id].token)
    ensures NoClears(events)
    ensures var t, ino := Run(s, events), s.disk.names[Public]; Tidied(s, t, ino) && Ready(t, id, ino)
  {
    var at := s.clearers[id].at;
    if at.StatFirst? || at.ReadFirst? || at.StatBefore? {
      events := Tidy(s);
    } else {
      events := [];
    }
  }

  predicate NoNewRepairs(s: State, t: State) {
    forall r | r in t.repairs :: r in s.repairs && t.repairs[r] == s.repairs[r]
  }

  /** A clear in flight comes to its unlink, and its tombstone is repaired away meanwhile. */
  lemma ToBrink(s: State, id: nat) returns (events: seq<Event>)
    requires PairsOk(s.disk) && id in s.clearers && ClearerOk(s, id) && !Spent(s, id) && Fresh(s)
    requires ReadIs(s.disk, Public, s.clearers[id].token)
    ensures NoClears(events)
    ensures var t, ino := Run(s, events), s.disk.names[Public];
            && Fresh(t) && id in t.clearers && t.clearers[id].at.UnlinkPublic?
            && ReadIs(t.disk, Public, s.clearers[id].token) && t.disk.names[Public] == ino && Only(t.disk, ino, {Public})
            && t.publishers == s.publishers && t.next == s.next && NoNewRepairs(s, t)
  {
    var ino := s.disk.names[Public];
    var ready := GetReady(s, id);
    var s1 := Run(s, ready);
    var brink := Advance(s1, id, ino, UnlinkPublic);
    var s2 := Run(s1, brink);
    RunJoin(s, ready, brink);
    if ReclaimTemp(id) in s2.disk.names {
      var away := RepairAway(s2, ReclaimTemp(id));
      RunJoin(s, ready + brink, away);
      events := ready + brink + away;
    } else {
      events := ready + brink;
    }
  }

  /** One clear can take the lock away while another one of it is about to. */
  lemma SecondClear(s: State, token: nat, first: nat) returns (events: seq<Event>)
    requires Fresh(s) && first in s.clearers && s.clearers[first].at.UnlinkPublic?
    requires ReadIs(s.disk, Public, token) && Only(s.disk, s.disk.names[Public], {Public})
    ensures NoClears(events) && !Exclusive(Run(Next(s, ClearBegin(token)), events))
  {
    var second, s1 := s.next, Next(s, ClearBegin(token));
    FreshStep(s, ClearBegin(token));
    var brink := Advance(s1, second, s.disk.names[Public], UnlinkPublic);
    var s2 := Run(s1, brink);
    var s3 := Next(s2, ClearProceed(second));
    RunOne(s2, ClearProceed(second));
    RunJoin(s1, brink, [ClearProceed(second)]);
    var takeover := Takeover(s3, first);
    RunJoin(s1, brink + [ClearProceed(second)], takeover);
    events := brink + [ClearProceed(second)] + takeover;
  }

  /** Two clears of one lock whose owner has stopped can end with two owners. */
  lemma OverlapBreaks(s: State, token: nat) returns (events: seq<Event>)
    requires Inv(s) && ReadIs(s.disk, Public, token) && Armed(s, token)
    ensures OneClear(s, events, token) && !Exclusive(Run(s, events))
  {
    var first :| first in s.clearers && s.clearers[first].token == token && !Spent(s, first);
    assert ClearerOk(s, first);
    InvIsFresh(s);
    var brink := ToBrink(s, first);
    var rest := SecondClear(Run(s, brink), token, first);
    OneClearJoin(s, brink, token, rest);
    events := brink + [ClearBegin(token)] + rest;
  }

  /** Clearing one lock can break mutual exclusion exactly when its owner is still running or
      another clear of it is in flight. */
  lemma ClearSafeExactly(s: State, id: nat)
    requires Inv(s) && ReadIs(s.disk, Public, id)
    ensures id in s.publishers
    ensures (exists events :: OneClear(s, events, id) && !Exclusive(Run(s, events)))
            <==> Published(s.publishers[id]) || Armed(s, id)
  {
    if Published(s.publishers[id]) {
      var _ := ClearOfLiveOwner(s, id);
    } else if Armed(s, id) {
      var _ := OverlapBreaks(s, id);
    } else {
      InvIsFresh(s);
      forall events | OneClear(s, events, id) ensures Exclusive(Run(s, events)) {
        OneClearCareful(s, events, id);
        RunKeepsInv(s, events);
        InvIsExclusive(Run(s, events));
      }
    }
  }

  /** So two clears of any readable lock can, even where one of them cannot. */
  lemma TwoClearsBreak(s: State, id: nat) returns (events: seq<Event>)
    requires Inv(s) && ReadIs(s.disk, Public, id) && MayClear(s, id)
    ensures |events| > 0 && events[0] == ClearBegin(id) && OneClear(Next(s, events[0]), events[1..], id)
    ensures !Exclusive(Run(s, events))
  {
    var s1 := Next(s, ClearBegin(id));
    StepKeepsInv(s, ClearBegin(id));
    assert !Spent(s1, s.next);
    var rest := OverlapBreaks(s1, id);
    events := [ClearBegin(id)] + rest;
    assert events[1..] == rest;
    RunOne(s, ClearBegin(id));
    RunJoin(s, [ClearBegin(id)], rest);
  }

  /* ------------------------------------------- when a lock can get stuck, exactly */

  /** No process will unlink this name any more. */
  predicate Dead(s: State, p: Path) {
    && !p.Public? && p.id < s.next
    && (p.CreateTemp? ==> p.id in s.publishers && s.publishers[p.id].Gone?)
    && (p.ReclaimTemp? ==> p.id !in s.clearers)
  }

  /** The lock has two more names, and nobody owns it or is about to remove any of its names. */
  ghost predicate Stuck(s: State, one: Path, two: Path) {
    && one != two && Dead(s, one) && Dead(s, two) && Public in s.disk.names
    && (forall n :: n in s.disk.names && s.disk.names[n] == s.disk.names[Public] <==> n in {Public, one, two})
    && (forall p | p in s.publishers :: !Published(s.publishers[p]))
    && (forall r | r in s.repairs :: s.repairs[r].name !in {Public, one, two})
    && (forall i | i in s.clearers :: s.clearers[i].at.StatFirst?)
  }

  lemma CountThree(d: Disk, p: Path, q: Path, r: Path)
    requires p in d.names && p != q && q != r && p != r
    requires forall n :: n in d.names && d.names[n] == d.names[p] <==> n in {p, q, r}
    ensures Links(d, d.names[p]) == 3
  {
    assert LinkSet(d, d.names[p]) == {p, q, r};
  }

  lemma StuckLinks(s: State, one: Path, two: Path)
    requires Stuck(s, one, two)
    ensures Links(s.disk, s.disk.names[Public]) == 3
  {
    CountThree(s.disk, Public, one, two);
  }

  lemma StuckPublisher(s: State, id: nat, one: Path, two: Path)
    requires Stuck(s, one, two) && id in s.publishers
    ensures Stuck(PublisherStep(s, id), one, two)
  {
  }

  lemma StuckClear(s: State, id: nat, one: Path, two: Path)
    requires Stuck(s, one, two) && id in s.clearers
    ensures Stuck(ClearStep(s, id), one, two) && ClearStep(s, id).disk == s.disk
  {
    StuckLinks(s, one, two);
  }

  lemma StuckRepair(s: State, e: Event, one: Path, two: Path)
    requires Stuck(s, one, two) && (e.RepairStat? || e.RepairStatLock? || e.RepairAct? || e.RepairCrash?)
    ensures Stuck(Next(s, e), one, two)
  {
    StuckLinks(s, one, two);
  }

  lemma StuckOpen(s: State, ino: nat, one: Path, two: Path)
    requires Stuck(s, one, two)
    ensures Stuck(Next(s, Open(ino)), one, two)
  {
    if LinkSet(s.disk, ino) == {} {
      assert Public !in LinkSet(s.disk, ino);
    }
  }

  lemma StuckNext(s: State, e: Event, one: Path, two: Path)
    requires Stuck(s, one, two)
    ensures Stuck(Next(s, e), one, two)
  {
    match e
    case Open(ino) => StuckOpen(s, ino, one, two);
    case Proceed(id) => if id in s.publishers { StuckPublisher(s, id, one, two); }
    case RepairStat(_, _) => StuckRepair(s, e, one, two);
    case RepairStatLock(_) => StuckRepair(s, e, one, two);
    case RepairAct(_) => StuckRepair(s, e, one, two);
    case RepairCrash(_) => StuckRepair(s, e, one, two);
    case ClearProceed(id) => if id in s.clearers { StuckClear(s, id, one, two); }
    case ForceBegin => StuckLinks(s, one, two);
    case _ =>
  }

  lemma SameLock(s: State, e: Event, one: Path, two: Path)
    requires Stuck(s, one, two)
    ensures Public in Next(s, e).disk.names && Next(s, e).disk.names[Public] == s.disk.names[Public]
  {
    match e
    case Proceed(id) => if id in s.publishers { StuckPublisher(s, id, one, two); }
    case ClearProceed(id) => if id in s.clearers { StuckClear(s, id, one, two); }
    case _ =>
  }

  /** No clear passes its first check and nobody gets the lock again; a repair of such a directory
      fails, as `Recover` below shows. */
  lemma {:induction false} StuckForever(s: State, events: seq<Event>, one: Path, two: Path)
    requires Stuck(s, one, two)
    ensures var t := Run(s, events);
            && Stuck(t, one, two)
            && t.disk.names[Public] == s.disk.names[Public] && !NoThree(t.disk)
            && forall p | p in t.publishers :: !Published(t.publishers[p])
  {
    if events == [] {
      StuckLinks(s, one, two);
    } else {
      var before := events[..|events| - 1];
      StuckForever(s, before, one, two);
      StuckNext(Run(s, before), events[|events| - 1], one, two);
      SameLock(Run(s, before), events[|events| - 1], one, two);
      StuckLinks(Run(s, events), one, two);
    }
  }

  lemma {:induction false} CrashClears(s: State) returns (events: seq<Event>)
    ensures NoClears(events) && Run(s, events) == s.(clearers := map[])
    decreases |s.clearers.Keys|
  {
    if s.clearers.Keys == {} {
      events := [];
      assert s.clearers == map[];
    } else {
      var i :| i in s.clearers;
      assert (s.clearers - {i}).Keys == s.clearers.Keys - {i};
      RunOne(s, ClearCrash(i));
      var rest := CrashClears(Next(s, ClearCrash(i)));
      RunJoin(s, [ClearCrash(i)], rest);
      events := [ClearCrash(i)] + rest;
    }
  }

  /** A new clear of a single-link lock comes up to its `linkSync`, with nothing else changed. */
  lemma ToLink(s: State, token: nat) returns (events: seq<Event>)
    requires Fresh(s) && ReadIs(s.disk, Public, token) && Only(s.disk, s.disk.names[Public], {Public})
    ensures NoClears(events)
    ensures var t := Run(Next(s, ClearBegin(token)), events);
            && t.publishers == s.publishers && t.repairs == s.repairs && t.next == s.next + 1 && t.disk == s.disk
            && t.clearers.Keys == s.clearers.Keys + {s.next}
            && (forall i | i in s.clearers :: t.clearers[i] == s.clearers[i])
            && t.clearers[s.next].at.LinkTombstone? && Fresh(t)
  {
    var s1 := Next(s, ClearBegin(token));
    FreshStep(s, ClearBegin(token));
    events := Advance(s1, s.next, s.disk.names[Public], LinkTombstone);
    var t := Run(s1, events);
    assert t.disk.names == s.disk.names;
  }

  lemma BeginToLink(s: State, token: nat) returns (events: seq<Event>)
    requires Fresh(s) && ReadIs(s.disk, Public, token) && Only(s.disk, s.disk.names[Public], {Public})
    ensures forall e | e in events && BeginsClear(e) :: e == ClearBegin(token)
    ensures var t := Run(s, events);
            && t.publishers == s.publishers && t.repairs == s.repairs && t.next == s.next + 1 && t.disk == s.disk
            && t.clearers.Keys == s.clearers.Keys + {s.next}
            && (forall i | i in s.clearers :: t.clearers[i] == s.clearers[i])
            && t.clearers[s.next].at.LinkTombstone? && Fresh(t)
  {
    var rest := ToLink(s, token);
    RunOne(s, ClearBegin(token));
    RunJoin(s, [ClearBegin(token)], rest);
    events := [ClearBegin(token)] + rest;
  }

  /** Both make their tombstone and stop. */
  lemma BothLink(s: State, one: nat, two: nat) returns (events: seq<Event>)
    requires Fresh(s) && Public in s.disk.names && Only(s.disk, s.disk.names[Public], {Public}) && one != two
    requires s.clearers.Keys == {one, two} && s.clearers[one].at.LinkTombstone? && s.clearers[two].at.LinkTombstone?
    requires ReclaimTemp(one) !in s.disk.names && ReclaimTemp(two) !in s.disk.names
    requires forall p | p in s.publishers :: !Published(s.publishers[p])
    requires forall r | r in s.repairs :: s.repairs[r].name !in {Public, ReclaimTemp(one), ReclaimTemp(two)}
    ensures NoClears(events) && Stuck(Run(s, events), ReclaimTemp(one), ReclaimTemp(two))
  {
    var s1 := Next(s, ClearProceed(one));
    var s2 := Next(s1, ClearProceed(two));
    RunOne(s, ClearProceed(one));
    RunOne(s1, ClearProceed(two));
    RunJoin(s, [ClearProceed(one)], [ClearProceed(two)]);
    var crash := CrashClears(s2);
    RunJoin(s, [ClearProceed(one)] + [ClearProceed(two)], crash);
    events := [ClearProceed(one)] + [ClearProceed(two)] + crash;
    assert Only(s.disk, s.disk.names[Public], {Public});
  }

  lemma NoneElsePublished(s: State, id: nat)
    requires Inv(s) && ReadIs(s.disk, Public, id)
    ensures forall p | p in s.publishers && p != id :: !Published(s.publishers[p])
  {
    InvIsExclusive(s);
  }

  /** Two clears of one lock that stop after `linkSync` leave a lock that no command can repair. */
  lemma TwoClearsStick(s: State, id: nat) returns (events: seq<Event>, one: nat, two: nat)
    requires Inv(s) && ReadIs(s.disk, Public, id) && Stopped(s, id)
    ensures forall e | e in events && BeginsClear(e) :: e == ClearBegin(id)
    ensures Stuck(Run(s, events), ReclaimTemp(one), ReclaimTemp(two))
  {
    InvIsFresh(s);
    NoneElsePublished(s, id);
    var crash := CrashClears(s);
    var s1 := Run(s, crash);
    var tidy := Tidy(s1);
    var s2 := Run(s1, tidy);
    RunJoin(s, crash, tidy);
    var first := BeginToLink(s2, id);
    var s3 := Run(s2, first);
    RunJoin(s, crash + tidy, first);
    var second := BeginToLink(s3, id);
    var s4 := Run(s3, second);
    RunJoin(s, crash + tidy + first, second);
    one, two := s2.next, s3.next;
    assert forall r | r in s2.repairs :: RepairOk(s, s.repairs[r]) && !s.repairs[r].name.Public?;
    var both := BothLink(s4, one, two);
    RunJoin(s, crash + tidy + first + second, both);
    events := crash + tidy + first + second + both;
  }

  /** The names that repairs have seen are older than this number. */
  predicate RepairsBefore(s: State, number: nat) {
    forall r | r in s.repairs :: !s.repairs[r].name.Public? && s.repairs[r].name.id < number
  }

  lemma InvRepairsBefore(s: State)
    requires Inv(s)
    ensures RepairsBefore(s, s.next)
  {
    forall r | r in s.repairs ensures !s.repairs[r].name.Public? && s.repairs[r].name.id < s.next {
      assert RepairOk(s, s.repairs[r]);
    }
  }

  /** A clear past its checks links the lock of another process, between that process's own link and
      unlink, and both stop: the new lock has three names. */
  lemma LateLink(s: State, clear: nat) returns (events: seq<Event>)
    requires Public !in s.disk.names && Fresh(s) && RepairsBefore(s, clear)
    requires clear in s.clearers && s.clearers[clear].at.LinkTombstone? && ReclaimTemp(clear) !in s.disk.names
    requires forall p | p in s.publishers :: !Published(s.publishers[p])
    ensures NoClears(events) && Stuck(Run(s, events), CreateTemp(s.next), ReclaimTemp(clear))
  {
    var ino := Highest(s.disk.names.Values) + 1;
    assert forall p | p in s.disk.names :: s.disk.names[p] in s.disk.names.Values;
    var publish := FreshAcquire(s, ino, 3);
    var s1 := Run(s, publish);
    var s2 := Next(s1, ClearProceed(clear));
    RunOne(s1, ClearProceed(clear));
    RunJoin(s, publish, [ClearProceed(clear)]);
    var s3 := Next(s2, Crash(s.next));
    RunOne(s2, Crash(s.next));
    RunJoin(s, publish + [ClearProceed(clear)], [Crash(s.next)]);
    var crash := CrashClears(s3);
    RunJoin(s, publish + [ClearProceed(clear)] + [Crash(s.next)], crash);
    events := publish + [ClearProceed(clear)] + [Crash(s.next)] + crash;
    LateLinkSticks(s, s1, clear, ino);
  }

  lemma LateLinkSticks(s: State, t: State, clear: nat, ino: nat)
    requires Public !in s.disk.names && Fresh(s) && RepairsBefore(s, clear)
    requires clear in s.clearers && s.clearers[clear].at.LinkTombstone? && ReclaimTemp(clear) !in s.disk.names
    requires forall p | p in s.publishers :: !Published(s.publishers[p])
    requires forall p | p in s.disk.names :: s.disk.names[p] != ino
    requires AcquiringAt(s, t, ino, 3)
    ensures Stuck(Next(Next(t, ClearProceed(clear)), Crash(s.next)).(clearers := map[]), CreateTemp(s.next), ReclaimTemp(clear))
  {
    var u := Next(t, ClearProceed(clear));
    assert u.disk.names == s.disk.names[CreateTemp(s.next) := ino][Public := ino][ReclaimTemp(clear) := ino];
  }

  /** So one clear of a live owner's lock can: the owner releases meanwhile. */
  lemma LiveOwnerSticks(s: State, id: nat) returns (events: seq<Event>, one: Path, two: Path)
    requires Inv(s) && id in s.publishers && Published(s.publishers[id])
    ensures OneClear(s, events, id) && Stuck(Run(s, events), one, two)
  {
    var drive := DriveToRelease(s, id);
    var s1 := Run(s, drive);
    var clear := s1.next;
    var s2 := Next(s1, ClearBegin(id));
    InvIsFresh(s1);
    FreshStep(s1, ClearBegin(id));
    InvRepairsBefore(s1);
    assert PublisherOk(s1.disk, id, s1.publishers[id]);
    NoneElsePublished(s1, id);
    var checks := Advance(s2, clear, s1.disk.names[Public], LinkTombstone);
    var s3 := Run(s2, checks);
    var s4 := Next(s3, Proceed(id));
    RunOne(s3, Proceed(id));
    RunJoin(s2, checks, [Proceed(id)]);
    var late := LateLink(s4, clear);
    RunJoin(s2, checks + [Proceed(id)], late);
    events := drive + [ClearBegin(id)] + (checks + [Proceed(id)] + late);
    OneClearJoin(s, drive, id, checks + [Proceed(id)] + late);
    one, two := CreateTemp(s4.next), ReclaimTemp(clear);
  }

  /** A second clear can, too, when the first one in flight takes the lock away meanwhile. */
  lemma SecondClearSticks(s: State, token: nat, first: nat) returns (events: seq<Event>, one: Path, two: Path)
    requires Fresh(s) && first in s.clearers && s.clearers[first].at.UnlinkPublic? && RepairsBefore(s, s.next)
    requires ReadIs(s.disk, Public, token) && Only(s.disk, s.disk.names[Public], {Public})
    requires forall p | p in s.publishers :: !Published(s.publishers[p])
    ensures NoClears(events) && Stuck(Run(Next(s, ClearBegin(token)), events), one, two)
  {
    var checks := ToLink(s, token);
    var s1 := Next(s, ClearBegin(token));
    var s2 := Run(s1, checks);
    var s3 := Next(s2, ClearProceed(first));
    RunOne(s2, ClearProceed(first));
    RunJoin(s1, checks, [ClearProceed(first)]);
    var late := LateLink(s3, s.next);
    RunJoin(s1, checks + [ClearProceed(first)], late);
    events := checks + [ClearProceed(first)] + late;
    one, two := CreateTemp(s3.next), ReclaimTemp(s.next);
  }

  lemma OverlapSticks(s: State, token: nat) returns (events: seq<Event>, one: Path, two: Path)
    requires Inv(s) && ReadIs(s.disk, Public, token) && Armed(s, token)
    ensures OneClear(s, events, token) && Stuck(Run(s, events), one, two)
  {
    var first :| first in s.clearers && s.clearers[first].token == token && !Spent(s, first);
    assert ClearerOk(s, first);
    InvIsFresh(s);
    InvRepairsBefore(s);
    NoneElsePublished(s, token);
    var brink := ToBrink(s, first);
    var rest;
    rest, one, two := SecondClearSticks(Run(s, brink), token, first);
    OneClearJoin(s, brink, token, rest);
    events := brink + [ClearBegin(token)] + rest;
  }

  ghost predicate Sticks(s: State, events: seq<Event>) {
    exists one, two :: Stuck(Run(s, events), one, two)
  }

  /** Clearing one lock can leave a directory that no repair gets past, and even one that is stuck
      forever, exactly when it can break mutual exclusion. */
  lemma RepairableExactly(s: State, id: nat)
    requires Inv(s) && ReadIs(s.disk, Public, id)
    ensures id in s.publishers
    ensures (exists events :: OneClear(s, events, id) && !NoThree(Run(s, events).disk))
            <==> Published(s.publishers[id]) || Armed(s, id)
    ensures (exists events, listing :: OneClear(s, events, id) && !Repairable(Run(s, events).disk, listing))
            <==> Published(s.publishers[id]) || Armed(s, id)
    ensures (exists events :: OneClear(s, events, id) && Sticks(s, events))
            <==> Published(s.publishers[id]) || Armed(s, id)
  {
    if Published(s.publishers[id]) || Armed(s, id) {
      var events, one, two;
      if Published(s.publishers[id]) {
        events, one, two := LiveOwnerSticks(s, id);
      } else {
        events, one, two := OverlapSticks(s, id);
      }
      StuckLinks(Run(s, events), one, two);
      assert Sticks(s, events) && !Repairable(Run(s, events).disk, []);
    } else {
      InvIsFresh(s);
      forall events | OneClear(s, events, id)
        ensures NoThree(Run(s, events).disk) && !Sticks(s, events)
        ensures forall listing :: Repairable(Run(s, events).disk, listing)
      {
        OneClearCareful(s, events, id);
        RunKeepsInv(s, events);
        NoThreeNotStuck(Run(s, events));
      }
    }
  }

  lemma NoThreeNotStuck(s: State)
    requires PairsOk(s.disk)
    ensures NoThree(s.disk) && forall one, two :: !Stuck(s, one, two)
    ensures forall listing :: Repairable(s.disk, listing)
  {
    PairsHaveTwo(s.disk);
    forall listing ensures Repairable(s.disk, listing) { PairsAreApart(s.disk, listing); }
    forall one, two ensures !Stuck(s, one, two) {
      if Stuck(s, one, two) { StuckLinks(s, one, two); }
    }
  }

  /* --------------------------------------------------- the calls of one process alone */

  /** What a repair keeps: the lock, and creation files that nobody has published. */
  predicate Keeps(d: Disk, n: Path)
    requires n in d.names
  {
    n.Public? || (n.CreateTemp? && !(Public in d.names && d.names[Public] == d.names[n]))
  }

  function Repaired(d: Disk): Disk {
    d.(names := map n | n in d.names && Keeps(d, n) :: d.names[n])
  }

  lemma PairsHaveTwo(d: Disk)
    requires PairsOk(d)
    ensures NoThree(d)
  {
    forall n | n in d.names ensures Links(d, d.names[n]) <= 2 {
      var all := LinkSet(d, d.names[n]);
      var other := if m :| m in all && m != Public then m else n;
      SubsetSize(all, {other, Public});
    }
  }

  /** Stop everything at any step of any run: what is left can be repaired, and afterwards
      the lock is either free or one complete, single-linked record that can be cleared. */
  lemma EveryCrashIsRepairable(events: seq<Event>)
    requires Careful(Start, events)
    ensures var d := Run(Start, events).disk;
            && PairsOk(d)
            && (forall n | n in Repaired(d).names && !n.Public? ::
                  n.CreateTemp? && Links(Repaired(d), Repaired(d).names[n]) == 1)
            && (Public in d.names ==>
                  && StatIs(Repaired(d), Public, d.names[Public], 1)
                  && d.names[Public] in d.content && d.content[d.names[Public]].Record?)
  {
    RunKeepsInv(Start, events);
    StateIsRepairable(Run(Start, events));
  }

  lemma StateIsRepairable(s: State)
    requires NamesOk(s) && PairsOk(s.disk) && PublicOk(s)
    requires forall id | id in s.publishers :: PublisherOk(s.disk, id, s.publishers[id])
    ensures var d := s.disk;
            && (forall n | n in Repaired(d).names && !n.Public? ::
                  n.CreateTemp? && Links(Repaired(d), Repaired(d).names[n]) == 1)
            && (Public in d.names ==>
                  && StatIs(Repaired(d), Public, d.names[Public], 1)
                  && d.names[Public] in d.content && d.content[d.names[Public]].Record?)
  {
    var d := s.disk;
    forall n | n in Repaired(d).names ensures Links(Repaired(d), Repaired(d).names[n]) == 1 {
      CountOne(Repaired(d), n);
    }
  }

  /** Some names of `d` are gone, but not the lock. */
  predicate Thinned(d: Disk, e: Disk) {
    && e.content == d.content && (Public in d.names <==> Public in e.names)
    && forall n | n in e.names :: n in d.names && e.names[n] == d.names[n]
  }

  lemma ThinnedLinks(d: Disk, e: Disk, n: Path)
    requires Thinned(d, e) && n in e.names
    ensures 1 <= Links(e, d.names[n]) <= Links(d, d.names[n])
  {
    assert n in LinkSet(e, d.names[n]);
    SubsetSize(LinkSet(e, d.names[n]), LinkSet(d, d.names[n]));
  }

  /** The checks of a repair on one name while other names may be gone already. */
  predicate Passes(e: Disk, n: Path)
    requires n in e.names
  {
    var links := Links(e, e.names[n]);
    && (links == 1 || links == 2)
    && (if Public in e.names && e.names[Public] == e.names[n] then links == 2 else n.CreateTemp? ==> links == 1)
  }

  /** Any other name of the creation file's inode is the lock, or a tombstone removed before. */
  predicate Apart(d: Disk, before: seq<Path>, n: Path)
    requires n in d.names
  {
    forall m | m in d.names && d.names[m] == d.names[n] && m != n :: m.Public? || (m.ReclaimTemp? && m in before)
  }

  /** No inode has a creation file and, listed later, a tombstone, nor two creation files. */
  predicate AllApart(d: Disk, listing: seq<Path>) {
    forall i | 0 <= i < |listing| && listing[i] in d.names && listing[i].CreateTemp? :: Apart(d, listing[..i], listing[i])
  }

  /** A repair of this listing ends without an error, as `Recover` shows. */
  predicate Repairable(d: Disk, listing: seq<Path>) {
    NoThree(d) && AllApart(d, listing)
  }

  lemma PairsAreApart(d: Disk, listing: seq<Path>)
    requires PairsOk(d)
    ensures Repairable(d, listing)
  {
    PairsHaveTwo(d);
  }

  lemma PassesApart(d: Disk, e: Disk, seen: seq<Path>, n: Path)
    requires Thinned(d, e) && n in e.names && !n.Public? && Links(d, d.names[n]) <= 2
    requires forall m | m in seen && m in d.names :: m in e.names <==> Keeps(d, m)
    requires n.CreateTemp? ==> Apart(d, seen, n)
    ensures Passes(e, n)
  {
    ThinnedLinks(d, e, n);
    CountOne(e, n);
    if Public in e.names && e.names[Public] == e.names[n] {
      assert !Only(e, e.names[n], {n}) by { assert Public in e.names; }
    } else if n.CreateTemp? {
      forall m | m in e.names && e.names[m] == e.names[n] ensures m == n {
        assert d.names[m] == d.names[n];
      }
    }
  }

  lemma AtLeastThree(d: Disk, p: Path, q: Path, r: Path)
    requires p in d.names && q in d.names && r in d.names && p != q && q != r && p != r
    requires d.names[p] == d.names[q] == d.names[r]
    ensures Links(d, d.names[r]) >= 3
  {
    SubsetSize({p, q, r}, LinkSet(d, d.names[r]));
  }

  /** And the other way around: a creation file that passes is apart. */
  lemma PassedApart(d: Disk, e: Disk, seen: seq<Path>, n: Path)
    requires Thinned(d, e) && n in e.names && n.CreateTemp? && Passes(e, n) && Links(d, d.names[n]) <= 2
    requires forall m | m in d.names && m !in seen :: m in e.names
    requires forall m | m in seen && m in d.names :: m in e.names <==> Keeps(d, m)
    ensures Apart(d, seen, n)
  {
    forall m | m in d.names && d.names[m] == d.names[n] && m != n && !m.Public? ensures m.ReclaimTemp? && m in seen {
      if Public in e.names && e.names[Public] == e.names[n] {
        AtLeastThree(d, Public, m, n);
      } else {
        CountOne(e, n);
      }
    }
  }

  /** Unless an earlier name of its inode was removed, a name still has all its links. */
  predicate Seen(d: Disk, seen: seq<Path>) {
    forall n | n in seen && n in d.names && !n.Public? :: Links(d, d.names[n]) <= 2
  }

  lemma SeenMore(d: Disk, e: Disk, seen: seq<Path>, n: Path)
    requires Thinned(d, e) && n in e.names && !n.Public? && Passes(e, n) && Seen(d, seen)
    requires forall m | m in d.names && m !in seen :: m in e.names
    ensures Seen(d, seen + [n])
  {
    if m :| m in d.names && m !in e.names && d.names[m] == d.names[n] {
    } else {
      assert LinkSet(e, e.names[n]) == LinkSet(d, d.names[n]);
    }
  }

  lemma SeenAll(d: Disk, seen: seq<Path>)
    requires Seen(d, seen) && forall n | n in d.names :: n in seen
    ensures NoThree(d)
  {
    forall n | n in d.names ensures Links(d, d.names[n]) <= 2 {
      if n.Public? {
        if m :| m in d.names && d.names[m] == d.names[n] && m != n {
        } else {
          CountOne(d, n);
        }
      }
    }
  }

  /** What the repair of the disk `d` has done after it has seen these names. */
  predicate Repairing(d: Disk, e: Disk, seen: seq<Path>, ok: bool) {
    && Thinned(d, e)
    && (forall n | n in d.names && n !in seen :: n in e.names)
    && (ok ==> Seen(d, seen) && AllApart(d, seen) && forall n | n in seen && n in d.names :: n in e.names <==> Keeps(d, n))
    && (!ok ==> !NoThree(d) || !AllApart(d, seen))
  }

  /** What it does with one name. */
  function RepairedOne(e: Disk, name: Path): (Disk, bool)
    requires name in e.names
  {
    if name.Public? then (e, true)
    else if !Passes(e, name) then (e, false)
    else (if Keeps(e, name) then e else Unlink(e, name), true)
  }

  lemma RepairingStep(d: Disk, e: Disk, seen: seq<Path>, name: Path)
    requires Repairing(d, e, seen, true) && name in d.names && name !in seen
    ensures var (f, ok) := RepairedOne(e, name); Repairing(d, f, seen + [name], ok)
  {
    ApartMore(d, seen, name);
    if !name.Public? {
      if Links(d, d.names[name]) <= 2 && (name.CreateTemp? ==> Apart(d, seen, name)) { PassesApart(d, e, seen, name); }
      if Passes(e, name) {
        SeenMore(d, e, seen, name);
        if name.CreateTemp? {
          assert name in seen + [name];
          PassedApart(d, e, seen, name);
        }
      }
    }
  }

  lemma ApartMore(d: Disk, seen: seq<Path>, name: Path)
    ensures AllApart(d, seen + [name]) <==>
            AllApart(d, seen) && (name in d.names && name.CreateTemp? ==> Apart(d, seen, name))
  {
    var more := seen + [name];
    assert more[..|seen|] == seen;
    forall i | 0 <= i < |seen| ensures more[i] == seen[i] && more[..i] == seen[..i] {}
    if AllApart(d, more) {
      assert more[|seen|] == name;
    }
  }

  lemma {:induction false} ApartPrefix(d: Disk, listing: seq<Path>, i: nat)
    requires i <= |listing| && AllApart(d, listing)
    ensures AllApart(d, listing[..i])
  {
    forall k | 0 <= k < i ensures listing[..i][..k] == listing[..k] {}
  }

  lemma RepairingDone(d: Disk, e: Disk, seen: seq<Path>)
    requires Repairing(d, e, seen, true)
    requires forall n | n in d.names :: n in seen
    ensures e == Repaired(d) && NoThree(d)
  {
    SeenAll(d, seen);
    assert e.names == Repaired(d).names;
  }

  lemma LinkOnly(d: Disk, p: Path, q: Path)
    requires p in d.names && q !in d.names
    ensures Only(Link(d, p, q), d.names[p], {p, q}) <==> Only(d, d.names[p], {p})
  {
    if Only(Link(d, p, q), d.names[p], {p, q}) {
      forall n | n in d.names && d.names[n] == d.names[p] ensures n in {p} {
        assert n in Link(d, p, q).names;
      }
    }
  }

  class LockDirectory {
    var disk: Disk

    constructor (d: Disk)
      ensures disk == d
    {
      disk := d;
    }

    /** recoverInterruptedLockArtifacts over one directory listing; false is a thrown error. */
    method Recover(listing: seq<Path>) returns (ok: bool)
      requires forall n | n in disk.names :: n in listing
      requires forall i, j | 0 <= i < j < |listing| :: listing[i] != listing[j]
      requires forall n | n in listing :: n in disk.names
      modifies this
      ensures Thinned(old(disk), disk)
      ensures Public in disk.names ==> disk.names[Public] == old(disk).names[Public]
      ensures ok ==> disk == Repaired(old(disk))
      ensures ok <==> Repairable(old(disk), listing)
    {
      ghost var d := disk;
      var i := 0;
      ok := true;
      while i < |listing| && ok
        invariant i <= |listing| && Repairing(d, disk, listing[..i], ok)
      {
        assert listing[..i + 1] == listing[..i] + [listing[i]];
        RepairingStep(d, disk, listing[..i], listing[i]);
        ok := RecoverOne(listing[i]);
        i := i + 1;
      }
      assert listing[..|listing|] == listing;
      if ok {
        RepairingDone(d, disk, listing);
      } else if AllApart(d, listing) {
        ApartPrefix(d, listing, i);
      }
    }

    /** One artifact of the listing; the stats of both names come before any unlink. */
    method RecoverOne(name: Path) returns (ok: bool)
      requires name in disk.names
      modifies this
      ensures (disk, ok) == RepairedOne(old(disk), name)
    {
      ok := true;
      if !name.Public? {
        var links := Links(disk, disk.names[name]);
        ok := links == 1 || links == 2;
        if ok && Public in disk.names && disk.names[Public] == disk.names[name] {
          ok := links == 2;
          if ok { disk := Unlink(disk, name); }
        } else if ok && name.CreateTemp? {
          ok := links == 1;
        } else if ok {
          disk := Unlink(disk, name);
        }
      }
    }

    /** acquireBackupLock by one undisturbed process; false is the error of a taken lock. */
    method Acquire(listing: seq<Path>, id: nat, ino: nat) returns (held: bool)
      requires PairsOk(disk)
      requires forall n :: n in disk.names <==> n in listing
      requires forall i, j | 0 <= i < j < |listing| :: listing[i] != listing[j]
      requires LinkSet(disk, ino) == {} && CreateTemp(id) !in disk.names
      modifies this
      ensures held <==> Public !in old(disk).names
      ensures disk.names == if held then Repaired(old(disk)).names[Public := ino] else Repaired(old(disk)).names
      ensures disk.content == old(disk).content[ino := Record(id)]
      ensures held ==> StatIs(disk, Public, ino, 1)
    {
      ghost var d := disk;
      assert forall n | n in d.names && d.names[n] == ino :: n in LinkSet(d, ino);
      PairsAreApart(d, listing);
      var ok := Recover(listing);
      assert LinkSet(disk, ino) == {};
      held := Publish(id, ino);
    }

    /** createLock by one undisturbed process. */
    method Publish(id: nat, ino: nat) returns (held: bool)
      requires LinkSet(disk, ino) == {} && CreateTemp(id) !in disk.names
      modifies this
      ensures held <==> Public !in old(disk).names
      ensures disk.names == if held then old(disk).names[Public := ino] else old(disk).names
      ensures disk.content == old(disk).content[ino := Record(id)]
      ensures held ==> StatIs(disk, Public, ino, 1)
    {
      ghost var d := disk;
      assert forall n | n in d.names && d.names[n] == ino :: n in LinkSet(d, ino);
      var temp := CreateTemp(id);
      disk := Create(disk, temp, ino);
      disk := disk.(content := disk.content[ino := Record(id)]);
      CountOne(disk, temp);
      held := StatIs(disk, temp, ino, 1) && Public !in disk.names;
      if held { disk := Link(disk, temp, Public); }
      disk := Unlink(disk, temp);
      assert disk.names == if held then d.names[Public := ino] else d.names;
      if held {
        CountOne(disk, Public);
        held := StatIs(disk, Public, ino, 1) && ReadIs(disk, Public, id) && StatIs(disk, Public, ino, 1);
      }
    }

    /** release() of the acquisition `id`; false is the error of a changed identity. */
    method Release(id: nat, ino: nat) returns (ok: bool)
      modifies this
      ensures ok <==> StatIs(old(disk), Public, ino, 1) && ReadIs(old(disk), Public, id)
      ensures disk == if ok then Unlink(old(disk), Public) else old(disk)
    {
      ok := StatIs(disk, Public, ino, 1) && ReadIs(disk, Public, id);
      if ok { disk := Unlink(disk, Public); }
    }

    /** removeExactLock by one undisturbed process after a repair. */
    method Clear(token: nat, id: nat) returns (ok: bool)
      requires ReclaimTemp(id) !in disk.names
      modifies this
      ensures ok <==> ReadIs(old(disk), Public, token) && Links(old(disk), old(disk).names[Public]) == 1
      ensures disk == if ok then Unlink(old(disk), Public) else old(disk)
    {
      ok := Public in disk.names && Links(disk, disk.names[Public]) == 1 && ReadIs(disk, Public, token);
      if ok {
        ok := Remove(disk.names[Public], Some(token), id);
      }
    }

    /** removePathWithIdentity by one undisturbed process: no record is read. */
    method ForceClear(id: nat) returns (ok: bool)
      requires ReclaimTemp(id) !in disk.names
      modifies this
      ensures ok <==> Public in old(disk).names && Links(old(disk), old(disk).names[Public]) == 1
      ensures disk == if ok then Unlink(old(disk), Public) else old(disk)
    {
      ok := Public in disk.names && Links(disk, disk.names[Public]) == 1;
      if ok {
        ok := Remove(disk.names[Public], None, id);
      }
    }

    /** The link, the checks and the two unlinks that both kinds of clear share. */
    method Remove(before: nat, token: Option<nat>, id: nat) returns (ok: bool)
      requires Public in disk.names && ReclaimTemp(id) !in disk.names
      modifies this
      ensures ok <==> StatIs(old(disk), Public, before, 1) && (token.Some? ==> ReadIs(old(disk), Public, token.value))
      ensures disk == if ok then Unlink(old(disk), Public) else old(disk)
    {
      ghost var d := disk;
      var tombstone := ReclaimTemp(id);
      CountOne(disk, Public);
      LinkOnly(disk, Public, tombstone);
      disk := Link(disk, Public, tombstone);
      CountTwo(disk, Public, tombstone);
      ok := StatIs(disk, Public, before, 2) && StatIs(disk, tombstone, before, 2)
            && (token.Some? ==> ReadIs(disk, Public, token.value));
      if ok { disk := Unlink(disk, Public); }
      disk := Unlink(disk, tombstone);
      assert disk.names == if ok then d.names - {Public} else d.names;
    }
  }
}
