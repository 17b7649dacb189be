/** Retention of src/backup/repository.ts: which backup files a prune keeps. */
module BackupRetention {
  import opened Numbers
  import opened Options
  import opened Sets

  const MAXIMUM_BACKUPS: nat := 4_096

  type Instant = t: nat | t <= MAX_SAFE

  /** A backup's file name carries the time of its creation and a UUID. */
  datatype Name = Name(createdAt: nat, uuid: nat)

  /** `sound` says that the file passes the integrity, journal, lease and compatibility tests. */
  datatype File = File(sha: nat, size: nat, instance: nat, schema: nat, sound: bool)

  type Files = map<Name, File>

  /** What a caller expects of the files, and which name it protects. */
  datatype Guard = Guard(protected: Option<Name>, instance: Option<nat>, sha: Option<nat>, size: Option<nat>)

  datatype Retention = Retention(kept: seq<Name>, removed: seq<Name>, blocked: seq<Name>)

  predicate Newer(a: Name, b: Name) {
    a.createdAt > b.createdAt || (a.createdAt == b.createdAt && a.uuid > b.uuid)
  }

  predicate IsNewest(names: set<Name>, x: Name) {
    x in names && forall y | y in names && y != x :: Newer(x, y)
  }

  lemma {:induction false} NewestExists(names: set<Name>)
    requires names != {}
    ensures exists x :: x in names && IsNewest(names, x)
  {
    var x :| x in names;
    if names - {x} == {} {
      assert names == {x};
      assert IsNewest(names, x);
    } else {
      NewestExists(names - {x});
      var y :| y in names - {x} && IsNewest(names - {x}, y);
      var top := if Newer(x, y) then x else y;
      forall z | z in names && z != top ensures Newer(top, z) {
        assert z == x || z == y || Newer(y, z);
      }
    }
  }

  function Newest(names: set<Name>): (x: Name)
    requires names != {}
    ensures IsNewest(names, x)
  {
    NewestExists(names);
    var x :| x in names && IsNewest(names, x);
    x
  }

  /** The directory listing, sorted. */
  function NewestFirst(names: set<Name>): seq<Name> {
    if names == {} then [] else [Newest(names)] + NewestFirst(names - {Newest(names)})
  }

  predicate InOrder(q: seq<Name>) {
    forall i, j | 0 <= i < j < |q| :: Newer(q[i], q[j])
  }

  lemma {:induction false} ListingIsSorted(names: set<Name>)
    ensures InOrder(NewestFirst(names)) && |NewestFirst(names)| == |names|
    ensures forall x :: x in NewestFirst(names) <==> x in names
  {
    if names != {} {
      var first := Newest(names);
      ListingIsSorted(names - {first});
      var rest := NewestFirst(names - {first});
      forall j | 0 <= j < |rest| ensures Newer(first, rest[j]) {
        assert rest[j] in rest;
      }
    }
  }

  /* ---------------------------------------------------------------- classification */

  predicate Inspects(files: Files, name: Name, clock: nat) {
    name in files && name.createdAt <= clock && files[name].sound && 1 <= files[name].size <= MAX_SAFE && 1 <= files[name].schema <= MAX_SAFE
  }

  predicate Verified(files: Files, name: Name, g: Guard, clock: nat) {
    && Inspects(files, name, clock)
    && (g.instance.Some? ==> files[name].instance == g.instance.value)
    && (g.protected == Some(name) ==>
          && (g.sha.Some? ==> files[name].sha == g.sha.value)
          && (g.size.Some? ==> files[name].size == g.size.value))
  }

  function VerifiedOf(files: Files, q: seq<Name>, g: Guard, clock: nat): seq<Name> {
    if q == [] then [] else
    VerifiedOf(files, q[..|q| - 1], g, clock) +
    if Verified(files, q[|q| - 1], g, clock) then [q[|q| - 1]] else []
  }

  function BlockedOf(files: Files, q: seq<Name>, g: Guard, clock: nat): seq<Name> {
    if q == [] then [] else
    BlockedOf(files, q[..|q| - 1], g, clock) +
    if Verified(files, q[|q| - 1], g, clock) then [] else [q[|q| - 1]]
  }

  lemma {:induction false} ClassifiedMembers(files: Files, q: seq<Name>, g: Guard, clock: nat)
    ensures forall x :: x in VerifiedOf(files, q, g, clock) <==> x in q && Verified(files, x, g, clock)
    ensures forall x :: x in BlockedOf(files, q, g, clock) <==> x in q && !Verified(files, x, g, clock)
    ensures |VerifiedOf(files, q, g, clock)| + |BlockedOf(files, q, g, clock)| == |q|
  {
    if q != [] {
      ClassifiedMembers(files, q[..|q| - 1], g, clock);
      assert q == q[..|q| - 1] + [q[|q| - 1]];
    }
  }

  lemma {:induction false} ClassifiedInOrder(files: Files, q: seq<Name>, g: Guard, clock: nat)
    requires InOrder(q)
    ensures InOrder(VerifiedOf(files, q, g, clock))
    ensures forall x :: x in VerifiedOf(files, q, g, clock) <==> x in q && Verified(files, x, g, clock)
    ensures forall x :: x in BlockedOf(files, q, g, clock) <==> x in q && !Verified(files, x, g, clock)
    ensures |VerifiedOf(files, q, g, clock)| + |BlockedOf(files, q, g, clock)| == |q|
  {
    ClassifiedMembers(files, q, g, clock);
    if q != [] {
      var n := |q| - 1;
      ClassifiedInOrder(files, q[..n], g, clock);
      var rest := VerifiedOf(files, q[..n], g, clock);
      forall i | 0 <= i < |rest| ensures Newer(rest[i], q[n]) {
        assert rest[i] in q[..n];
        var k :| 0 <= k < n && q[k] == rest[i];
      }
    }
  }

  /* ---------------------------------------------------------------- selection */

  /** The newest `keep`; when the protected file is older, it takes the last place. */
  function KeptOf(verified: seq<Name>, keep: nat, protected: Option<Name>): seq<Name>
    requires keep >= 1
  {
    var first := if |verified| <= keep then verified else verified[..keep];
    if protected.None? || protected.value !in verified || protected.value in first then first
    else first[..keep - 1] + [protected.value]
  }

  function RemovedOf(verified: seq<Name>, kept: seq<Name>): seq<Name> {
    if verified == [] then [] else
    RemovedOf(verified[..|verified| - 1], kept) +
    if verified[|verified| - 1] in kept then [] else [verified[|verified| - 1]]
  }

  lemma {:induction false} RemovedInOrder(verified: seq<Name>, kept: seq<Name>)
    requires InOrder(verified)
    ensures InOrder(RemovedOf(verified, kept))
    ensures forall x :: x in RemovedOf(verified, kept) <==> x in verified && x !in kept
  {
    if verified != [] {
      var n := |verified| - 1;
      RemovedInOrder(verified[..n], kept);
      assert verified == verified[..n] + [verified[n]];
      var rest := RemovedOf(verified[..n], kept);
      forall i | 0 <= i < |rest| ensures Newer(rest[i], verified[n]) {
        assert rest[i] in verified[..n];
        var k :| 0 <= k < n && verified[k] == rest[i];
      }
    }
  }

  /** What retention promises of a selection among verified names: as many as are wanted and
      there, the protected one always, and otherwise nothing older than what is removed. */
  predicate RightlyKept(verified: seq<Name>, keep: nat, protected: Option<Name>, kept: seq<Name>) {
    && InOrder(kept) && (forall x | x in kept :: x in verified)
    && |kept| == (if |verified| < keep then |verified| else keep)
    && (protected.Some? && protected.value in verified ==> protected.value in kept)
    && forall x, y | x in kept && y in verified && y !in kept && protected != Some(x) :: Newer(x, y)
  }

  /** The selection is in order as it stands: the sort that follows it moves nothing. */
  lemma SelectionIsRight(verified: seq<Name>, keep: nat, protected: Option<Name>)
    requires InOrder(verified) && keep >= 1
    ensures RightlyKept(verified, keep, protected, KeptOf(verified, keep, protected))
  {
    var kept := KeptOf(verified, keep, protected);
    var n := if |verified| <= keep then |verified| else keep;
    if protected.Some? && protected.value in verified && protected.value !in verified[..n] {
      var k :| 0 <= k < |verified| && verified[k] == protected.value;
      assert k >= n == keep;
      assert forall i | 0 <= i < keep - 1 :: kept[i] == verified[i];
    }
    forall x, y | x in kept && y in verified && y !in kept && protected != Some(x) ensures Newer(x, y) {
      var i :| 0 <= i < n && verified[i] == x;
      var j :| 0 <= j < |verified| && verified[j] == y;
      assert j < i ==> kept[j] == y;
    }
  }

  /** ... and only that selection keeps the promise. */
  lemma SelectionIsUnique(verified: seq<Name>, keep: nat, protected: Option<Name>, a: seq<Name>, b: seq<Name>, x: Name)
    requires InOrder(verified) && RightlyKept(verified, keep, protected, a) && RightlyKept(verified, keep, protected, b)
    ensures x in a ==> x in b
  {
    if x in a && x !in b {
      OtherMember(a, b, x);
    }
  }

  lemma OtherMember(a: seq<Name>, b: seq<Name>, x: Name)
    requires InOrder(a) && InOrder(b) && |a| == |b| && x in a && x !in b
    ensures exists other :: other in b && other !in a
  {
    MembersOf(a);
    MembersOf(b);
    if forall y | y in b :: y in a {
      SubsetSize(set y | y in b, (set y | y in a) - {x});
    }
  }

  lemma {:induction false} MembersOf(q: seq<Name>)
    requires InOrder(q)
    ensures |set x | x in q| == |q|
  {
    if q != [] {
      var n := |q| - 1;
      MembersOf(q[..n]);
      assert q == q[..n] + [q[n]];
      assert q[n] !in q[..n];
      assert (set x | x in q) == (set x | x in q[..n]) + {q[n]};
    }
  }

  /* ---------------------------------------------------------------- the prune */

  /** The prune's plan, or None when it refuses to act at all. */
  function Plan(files: Files, keep: nat, g: Guard, clock: nat): Option<Retention> {
    if !(1 <= keep <= 365) || |files| > MAXIMUM_BACKUPS || (g.protected.Some? && g.protected.value !in files) then None else
    var q := NewestFirst(files.Keys);
    var verified := VerifiedOf(files, q, g, clock);
    var kept := KeptOf(verified, keep, g.protected);
    Some(Retention(kept, RemovedOf(verified, kept), BlockedOf(files, q, g, clock)))
  }

  function Retained(r: Retention): nat {
    |r.kept| + |r.blocked|
  }

  function Without(files: Files, q: seq<Name>): Files {
    map x | x in files && x !in q :: files[x]
  }

  predicate PlanSound(files: Files, keep: nat, g: Guard, clock: nat, r: Retention) {
    && (forall x | x in r.removed :: x in files && Verified(files, x, g, clock) && g.protected != Some(x) && x !in r.kept)
    && (forall x | x in files && !Verified(files, x, g, clock) :: x !in r.removed)
    && (forall x, y | x in r.kept && y in r.removed && g.protected != Some(x) :: Newer(x, y))
    && (r.removed != [] ==> |r.kept| == keep)
    && |Without(files, r.removed)| == Retained(r)
    && InOrder(r.removed)
    && (files != map[] ==> 1 <= Retained(r) <= MAXIMUM_BACKUPS)
  }

  /** A prune removes verified files only, never the protected one, never a file that could not be
      verified, and never one that is newer than a file it keeps by age; the count that it reports
      is the number of files that are left, between 1 and 4096. */
  lemma PlanIsSound(files: Files, keep: nat, g: Guard, clock: nat)
    requires Plan(files, keep, g, clock).Some?
    ensures PlanSound(files, keep, g, clock, Plan(files, keep, g, clock).value)
  {
    var r := Plan(files, keep, g, clock).value;
    var q := NewestFirst(files.Keys);
    ListingIsSorted(files.Keys);
    ClassifiedInOrder(files, q, g, clock);
    SelectionIsRight(VerifiedOf(files, q, g, clock), keep, g.protected);
    RemovedInOrder(VerifiedOf(files, q, g, clock), r.kept);
    PlanCounts(files, keep, g, clock, r);
  }

  lemma PlanCounts(files: Files, keep: nat, g: Guard, clock: nat, r: Retention)
    requires Plan(files, keep, g, clock) == Some(r)
    ensures |Without(files, r.removed)| == Retained(r)
    ensures r.removed != [] ==> |r.kept| == keep
    ensures files != map[] ==> 1 <= Retained(r) <= MAXIMUM_BACKUPS
  {
    var q := NewestFirst(files.Keys);
    var verified := VerifiedOf(files, q, g, clock);
    ListingIsSorted(files.Keys);
    ClassifiedInOrder(files, q, g, clock);
    SelectionIsRight(verified, keep, g.protected);
    RemovedInOrder(verified, r.kept);
    SplitCounts(verified, r.kept);
    WithoutCount(files, r.removed);
    assert |files.Keys| == |files|;
  }

  lemma {:induction false} SplitCounts(verified: seq<Name>, kept: seq<Name>)
    requires InOrder(verified) && InOrder(kept) && forall x | x in kept :: x in verified
    ensures |RemovedOf(verified, kept)| + |kept| == |verified|
  {
    RemovedInOrder(verified, kept);
    var removed := RemovedOf(verified, kept);
    MembersOf(verified);
    MembersOf(kept);
    MembersOf(removed);
    assert (set x | x in verified) == (set x | x in kept) + (set x | x in removed);
  }

  lemma WithoutCount(files: Files, q: seq<Name>)
    requires InOrder(q) && forall x | x in q :: x in files
    ensures |Without(files, q)| == |files| - |q|
  {
    MembersOf(q);
    var gone := set x | x in q;
    assert Without(files, q).Keys == files.Keys - gone;
    assert files.Keys == (files.Keys - gone) + gone;
    assert |Without(files, q)| == |Without(files, q).Keys|;
  }

  /** The loop that classifies the listed files. */
  method Classify(files: Files, q: seq<Name>, g: Guard, clock: nat) returns (verified: seq<Name>, blocked: seq<Name>)
    ensures verified == VerifiedOf(files, q, g, clock)
    ensures blocked == BlockedOf(files, q, g, clock)
  {
    verified, blocked := [], [];
    for i := 0 to |q|
      invariant verified == VerifiedOf(files, q[..i], g, clock)
      invariant blocked == BlockedOf(files, q[..i], g, clock)
    {
      assert q[..i + 1][..i] == q[..i];
      var name := q[i];
      if !Inspects(files, name, clock) {
        blocked := blocked + [name];
      } else if g.instance.Some? && files[name].instance != g.instance.value {
        blocked := blocked + [name];
      } else if g.protected == Some(name) && ((g.sha.Some? && files[name].sha != g.sha.value)
                                              || (g.size.Some? && files[name].size != g.size.value)) {
        blocked := blocked + [name];
      } else {
        verified := verified + [name];
      }
    }
    assert q[..|q|] == q;
  }
}
