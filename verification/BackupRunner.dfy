/** The backup cycle, its retention recovery, the restore and the deletion of one file, of
    src/backup/runner.ts: each as the disks that it leaves behind, one after every file it
    publishes, every file it unlinks and every state file it renames into place. A crash leaves
    one of them, so what holds of all of them holds after every crash. */
module BackupRunner {
  import opened BackupRetention
  import opened Numbers
  import opened Options

  datatype Stage = InState | InDatabaseBackup | InVerification | InRetention | InRestore | InUnknown

  datatype Record = Record(interval: Option<nat>, keep: Option<nat>, attemptAt: Option<nat>, successAt: Option<nat>,
                           errorAt: Option<nat>, errorStage: Option<Stage>, name: Option<Name>, required: bool,
                           sha: Option<nat>, size: Option<nat>, instance: Option<nat>, schema: Option<nat>,
                           retained: Option<nat>)

  const EMPTY := Record(None, None, None, None, None, None, None, false, None, None, None, None, None)

  /** `Damaged` is a file that cannot be parsed, or whose content is not a backup state. */
  datatype StateFile = Missing | Damaged | Stored(record: Record)

  datatype Disk = Disk(state: StateFile, files: Files)

  datatype Config = Config(interval: nat, keep: nat)

  const HOUR: nat := 3_600_000
  const RETRY_DELAY: nat := 300_000

  predicate ConfigOk(c: Config) {
    HOUR <= c.interval <= 168 * HOUR && 1 <= c.keep <= 365
  }

  predicate Within(value: Option<nat>, low: nat, high: nat) {
    value.Some? ==> low <= value.value <= high
  }

  predicate HasBackup(r: Record) {
    r.name.Some? && r.sha.Some? && r.size.Some? && r.instance.Some? && r.schema.Some? && r.retained.Some?
  }

  predicate IsBackupState(r: Record) {
    && Within(r.interval, HOUR, 168 * HOUR) && Within(r.keep, 1, 365)
    && Within(r.attemptAt, 0, MAX_SAFE) && Within(r.successAt, 0, MAX_SAFE) && Within(r.errorAt, 0, MAX_SAFE)
    && Within(r.size, 1, MAX_SAFE) && Within(r.schema, 1, MAX_SAFE) && Within(r.retained, 1, MAXIMUM_BACKUPS)
    && (r.successAt.Some? <==> HasBackup(r))
    && (r.errorAt.None? <==> r.errorStage.None?)
  }

  function Latest(r: Record): Option<nat> {
    Later(r.attemptAt, Later(r.successAt, r.errorAt))
  }

  function Later(a: Option<nat>, b: Option<nat>): Option<nat> {
    if a.None? then b else if b.None? then a else Some(Max(a.value, b.value))
  }

  predicate ClockBack(r: Record, now: nat) {
    Latest(r).Some? && now < Latest(r).value
  }

  function Read(state: StateFile): Option<Record> {
    match state
    case Missing => Some(EMPTY)
    case Damaged => None
    case Stored(r) => Some(r)
  }

  function Put(d: Disk, r: Record): Disk {
    d.(state := Stored(r))
  }

  function WithFile(d: Disk, name: Name, file: File): Disk {
    d.(files := d.files[name := file])
  }

  function WithPolicy(r: Record, c: Config): Record {
    r.(interval := Some(c.interval), keep := Some(c.keep))
  }

  function Begun(r: Record, c: Config, at: nat): Record {
    WithPolicy(r, c).(attemptAt := Some(at))
  }

  function Failed(r: Record, at: nat, stage: Stage): Record {
    r.(errorAt := Some(at), errorStage := Some(stage))
  }

  predicate SameBackup(a: File, b: File) {
    a.sha == b.sha && a.size == b.size && a.schema == b.schema && a.instance == b.instance
  }

  /** One disk after each unlink. */
  function UnlinkTrace(d: Disk, q: seq<Name>, n: nat): seq<Disk>
    requires n <= |q|
  {
    if n == 0 then [] else UnlinkTrace(d, q, n - 1) + [d.(files := Without(d.files, q[..n]))]
  }

  function Unlinked(removed: seq<Name>, stop: Option<nat>): nat {
    if stop.Some? && stop.value < |removed| then stop.value else |removed|
  }

  /* ---------------------------------------------------------------- the cycle */

  datatype Creation = Fails | FailsAfter(name: Name, file: File) | Creates(name: Name, file: File, claimed: File)

  /** The clock readings and outcomes that a cycle meets. `stop` is the unlink that fails. */
  datatype CycleEnv = CycleEnv(startedAt: Instant, recovers: bool, abortBefore: bool, creation: Creation, abortAfter: bool,
                               inspectAt: Instant, succeededAt: Instant, pruneAt: Instant, stop: Option<nat>, failedAt: Instant)

  function CycleFailure(d: Disk, r: Record, e: CycleEnv, stage: Stage): Disk {
    Put(d, Failed(r, Max(e.failedAt, e.startedAt), stage))
  }

  function Recorded(r: Record, c: Config, e: CycleEnv, name: Name, b: File): Record {
    var count := (if r.retained.Some? then r.retained.value else 0) + 1;
    Record(Some(c.interval), Some(c.keep), Some(e.startedAt), Some(e.succeededAt), Some(e.succeededAt), Some(InRetention),
           Some(name), false, Some(b.sha), Some(b.size), Some(b.instance), Some(b.schema),
           Some(if count < MAXIMUM_BACKUPS then count else MAXIMUM_BACKUPS))
  }

  function CyclePlan(d: Disk, r: Record, c: Config, e: CycleEnv): Option<Retention> {
    Plan(d.files, c.keep, Guard(r.name, r.instance, r.sha, r.size), Max(e.pruneAt, e.startedAt))
  }

  function PruneTrace(d: Disk, r: Record, c: Config, e: CycleEnv): seq<Disk> {
    var plan := CyclePlan(d, r, c, e);
    if plan.None? then [CycleFailure(d, r, e, InRetention)] else
    var p := plan.value;
    var n := Unlinked(p.removed, e.stop);
    UnlinkTrace(d, p.removed, n) + FinishTrace(d.(files := Without(d.files, p.removed[..n])), r, e, p, n == |p.removed|)
  }

  function FinishTrace(left: Disk, r: Record, e: CycleEnv, p: Retention, complete: bool): seq<Disk> {
    var counted := r.(retained := Some(Retained(p)));
    if !complete then [CycleFailure(left, r, e, InRetention)]
    else if p.blocked != [] then [Put(left, counted), CycleFailure(left, counted, e, InRetention)]
    else [Put(left, counted.(required := false, errorAt := None, errorStage := None))]
  }

  /** What stops a cycle between the publication of its file and the recording of it. */
  function Objection(d: Disk, r: Record, e: CycleEnv, name: Name, claimed: File): Option<Stage> {
    if e.abortAfter then Some(InUnknown)
    else if r.instance.Some? && claimed.instance != r.instance.value then Some(InVerification)
    else if !Inspects(d.files, name, Max(e.inspectAt, e.startedAt)) then Some(InVerification)
    else if !SameBackup(d.files[name], claimed) then Some(InVerification)
    else if e.succeededAt < e.startedAt then Some(InState)
    else None
  }

  function CheckTrace(d: Disk, r: Record, c: Config, e: CycleEnv, name: Name, claimed: File): seq<Disk> {
    var objection := Objection(d, r, e, name, claimed);
    if objection.Some? then [CycleFailure(d, r, e, objection.value)] else
    var recorded := Recorded(r, c, e, name, claimed);
    [Put(d, recorded)] + PruneTrace(Put(d, recorded), recorded, c, e)
  }

  function WorkTrace(d: Disk, r: Record, c: Config, e: CycleEnv): seq<Disk> {
    if e.abortBefore then [CycleFailure(d, r, e, InUnknown)] else
    match e.creation
    case Fails => [CycleFailure(d, r, e, InDatabaseBackup)]
    case FailsAfter(name, file) => [WithFile(d, name, file), d, CycleFailure(d, r, e, InDatabaseBackup)]
    case Creates(name, file, claimed) =>
      [WithFile(d, name, file)] + CheckTrace(WithFile(d, name, file), r, c, e, name, claimed)
  }

  /** The disks of a cycle that never reaches its work. */
  function EarlyTrace(d: Disk, r: Record, c: Config, e: CycleEnv): seq<Disk> {
    var attempt := Begun(r, c, e.startedAt);
    if ClockBack(r, e.startedAt) then [CycleFailure(d, attempt, e, InState)]
    else [Put(d, attempt), CycleFailure(d, attempt, e, InState)]
  }

  function CycleTrace(d: Disk, c: Config, e: CycleEnv): seq<Disk> {
    if Read(d.state).None? then [] else
    var r := Read(d.state).value;
    if ClockBack(r, e.startedAt) || !e.recovers then EarlyTrace(d, r, c, e) else
    var attempt := Begun(r, c, e.startedAt);
    [Put(d, attempt)] + WorkTrace(Put(d, attempt), attempt, c, e)
  }

  /* ---------------------------------------------------------------- retention recovery */

  datatype RetentionEnv = RetentionEnv(startedAt: Instant, recovers: bool, pruneAt: Instant, stop: Option<nat>,
                                       blockedAt: Instant, failedAt: Instant)

  function ReconcilePlan(d: Disk, r: Record, c: Config, e: RetentionEnv): Option<Retention> {
    Plan(d.files, c.keep, Guard(r.name, r.instance, r.sha, r.size), Max(e.pruneAt, e.startedAt))
  }

  function PrunedTrace(d: Disk, r: Record, c: Config, e: RetentionEnv, p: Retention): seq<Disk> {
    var n := Unlinked(p.removed, e.stop);
    UnlinkTrace(d, p.removed, n) + AfterPrune(d.(files := Without(d.files, p.removed[..n])), r, c, e, p, n == |p.removed|)
  }

  /** A state with a whole backup except the count, and without a success: the reader accepts it. */
  predicate Uncounted(r: Record) {
    r.name.Some? && r.sha.Some? && r.size.Some? && r.instance.Some? && r.schema.Some? && r.retained.None?
  }

  /** With its count such a state is no longer one: both writes that the recovery tries are refused. */
  function AfterPrune(left: Disk, r: Record, c: Config, e: RetentionEnv, p: Retention, complete: bool): seq<Disk> {
    if complete && Uncounted(r) then [] else Proposed(left, r, c, e, p, complete)
  }

  /** The states that the recovery tries to write after its prune. */
  function Proposed(left: Disk, r: Record, c: Config, e: RetentionEnv, p: Retention, complete: bool): seq<Disk> {
    var now := Max(e.pruneAt, e.startedAt);
    var failed := Failed(WithPolicy(r, c), Max(e.failedAt, now), InRetention);
    var counted := WithPolicy(r, c).(retained := Some(Retained(p)));
    if !complete then [Put(left, failed)]
    else if p.blocked != [] then
      [Put(left, Failed(counted, Max(e.blockedAt, now), InRetention)), Put(left, failed.(retained := Some(Retained(p))))]
    else [Put(left, counted.(errorAt := None, errorStage := None))]
  }

  function ReconcileTrace(d: Disk, c: Config, e: RetentionEnv): seq<Disk> {
    if Read(d.state).None? then [] else
    var r := Read(d.state).value;
    if ClockBack(r, e.startedAt) || !e.recovers then
      [Put(d, Failed(WithPolicy(r, c), Max(e.failedAt, e.startedAt), InState))]
    else if r.required || r.name.None? || r.instance.None? then []
    else
    var now := Max(e.pruneAt, e.startedAt);
    var failed := Failed(WithPolicy(r, c), Max(e.failedAt, now), InRetention);
    var plan := ReconcilePlan(d, r, c, e);
    if plan.None? then [Put(d, failed)] else
    PrunedTrace(d, r, c, e, plan.value)
  }

  /* ---------------------------------------------------------------- restore and delete */

  datatype RestoreEnv = RestoreEnv(name: Name, sha: nat, rebuild: bool, startedAt: Instant, recovers: bool,
                                   restores: bool, endedAt: Instant)

  function RestoredState(c: Config, name: Name, b: File, at: nat): Record {
    Record(Some(c.interval), Some(c.keep), Some(at), Some(at), Some(at), Some(InRestore),
           Some(name), true, Some(b.sha), Some(b.size), Some(b.instance), Some(b.schema), Some(1))
  }

  /** A state that is damaged, or that names nothing beside published files, needs `rebuild`. */
  predicate NeedsRebuild(d: Disk) {
    d.state.Damaged? || (Read(d.state).value.name.None? && d.files != map[])
  }

  predicate MayRestore(d: Disk, e: RestoreEnv) {
    && e.recovers && (NeedsRebuild(d) ==> e.rebuild)
    && Inspects(d.files, e.name, e.startedAt) && d.files[e.name].sha == e.sha
    && (!NeedsRebuild(d) && Read(d.state).value.instance.Some? ==> Read(d.state).value.instance.value == d.files[e.name].instance)
  }

  function RestoreTrace(d: Disk, c: Config, e: RestoreEnv): seq<Disk> {
    if !MayRestore(d, e) then [] else
    var s := RestoredState(c, e.name, d.files[e.name], e.startedAt);
    var at := Max(e.endedAt, e.startedAt);
    [Put(d, s), Put(d, if e.restores then s.(successAt := Some(at), errorAt := None, errorStage := None)
                       else Failed(s, at, InRestore))]
  }

  predicate MayDelete(d: Disk, name: Name, sha: nat) {
    && Read(d.state).Some? && Read(d.state).value.name != Some(name)
    && name in d.files && 1 <= d.files[name].size <= MAX_SAFE && d.files[name].sha == sha
  }

  function DeleteTrace(d: Disk, name: Name, sha: nat): seq<Disk> {
    if MayDelete(d, name, sha) then [d.(files := Without(d.files, [name]))] else []
  }

  /* ---------------------------------------------------------------- what every disk keeps */

  predicate Names(d: Disk, name: Name) {
    d.state.Stored? && d.state.record.name == Some(name)
  }

  predicate Required(d: Disk) {
    d.state.Stored? && d.state.record.required
  }

  /** The state file, when there is one, is valid, and the backup that it names is on the disk
      with the digest, size, instance and schema that it records. */
  predicate Usable(d: Disk) {
    d.state.Stored? ==>
      && IsBackupState(d.state.record)
      && (d.state.record.name.Some? ==>
            && d.state.record.name.value in d.files
            && Holds(d.state.record, d.files[d.state.record.name.value]))
  }

  predicate Holds(r: Record, b: File) {
    && r.sha == Some(b.sha) && r.size == Some(b.size) && r.instance == Some(b.instance) && r.schema == Some(b.schema)
    && r.retained.Some?
  }

  /** The state names the same backup as before and requires one as before; or it requires one, or
      it names a backup that is none of `known`. */
  predicate Claims(known: set<Name>, d: Disk, e: Disk) {
    if !e.state.Stored? then !d.state.Stored? else
    || (Read(d.state).Some? && e.state.record.name == Read(d.state).value.name && e.state.record.required == Read(d.state).value.required)
    || Required(e)
    || (e.state.record.name.Some? && e.state.record.name.value !in known)
  }

  /** From one disk to the next: the new one is usable, a file that the old state names stays as it
      is, and a required backup stops being required only when a new file is named. */
  predicate StepOk(known: set<Name>, d: Disk, e: Disk) {
    && Usable(e)
    && (e.state.Damaged? ==> d.state.Damaged?)
    && (forall name | Names(d, name) && name in d.files :: name in e.files && e.files[name] == d.files[name])
    && Claims(known, d, e)
  }

  predicate PathOk(known: set<Name>, d: Disk, trace: seq<Disk>)
    decreases |trace|
  {
    trace == [] || (StepOk(known, d, trace[0]) && PathOk(known, trace[0], trace[1..]))
  }

  function Last(d: Disk, trace: seq<Disk>): Disk {
    if trace == [] then d else trace[|trace| - 1]
  }

  lemma {:induction false} PathJoin(known: set<Name>, d: Disk, a: seq<Disk>, b: seq<Disk>)
    requires PathOk(known, d, a) && PathOk(known, Last(d, a), b)
    ensures PathOk(known, d, a + b)
    decreases |a|
  {
    if a == [] {
      assert a + b == b;
    } else {
      assert (a + b)[1..] == a[1..] + b;
      assert Last(a[0], a[1..]) == Last(d, a);
      PathJoin(known, a[0], a[1..], b);
    }
  }

  lemma OneStep(known: set<Name>, d: Disk, e: Disk)
    requires StepOk(known, d, e)
    ensures PathOk(known, d, [e])
  {
  }

  lemma Prepend(known: set<Name>, d: Disk, e: Disk, rest: seq<Disk>)
    requires StepOk(known, d, e) && PathOk(known, e, rest)
    ensures PathOk(known, d, [e] + rest)
  {
    assert ([e] + rest)[1..] == rest;
  }

  lemma TwoSteps(known: set<Name>, d: Disk, e: Disk, f: Disk)
    requires StepOk(known, d, e) && StepOk(known, e, f)
    ensures PathOk(known, d, [e, f])
  {
    assert [e, f][1..] == [f];
    OneStep(known, e, f);
  }

  /** Rewriting the state without touching what it names. */
  lemma RewriteOk(known: set<Name>, d: Disk, r: Record)
    requires Usable(d) && Read(d.state).Some? && IsBackupState(r)
    requires var was := Read(d.state).value;
      && r.name == was.name && r.sha == was.sha && r.size == was.size && r.instance == was.instance && r.schema == was.schema
      && r.required == was.required && (was.retained.Some? ==> r.retained.Some?)
    ensures StepOk(known, d, Put(d, r))
  {
  }

  lemma {:induction false} UnlinkOk(known: set<Name>, d: Disk, q: seq<Name>, n: nat)
    requires Usable(d) && n <= |q| && (d.state.Stored? && d.state.record.name.Some? ==> d.state.record.name.value !in q)
    ensures PathOk(known, d, UnlinkTrace(d, q, n))
    ensures Last(d, UnlinkTrace(d, q, n)) == d.(files := Without(d.files, q[..n]))
  {
    if n == 0 {
      assert Without(d.files, q[..0]) == d.files;
    } else {
      UnlinkOk(known, d, q, n - 1);
      var before := d.(files := Without(d.files, q[..n - 1]));
      var after := d.(files := Without(d.files, q[..n]));
      OneStep(known, before, after);
      PathJoin(known, d, UnlinkTrace(d, q, n - 1), [after]);
    }
  }

  /** The plan never touches the file that the record names, and counts what it leaves. */
  lemma PlanOk(d: Disk, g: Guard, keep: nat, clock: nat)
    requires g.protected.Some? && Plan(d.files, keep, g, clock).Some?
    ensures var p := Plan(d.files, keep, g, clock).value;
      g.protected.value !in p.removed && 1 <= Retained(p) <= MAXIMUM_BACKUPS
  {
    PlanIsSound(d.files, keep, g, clock);
  }

  lemma PruneOk(known: set<Name>, d: Disk, r: Record, c: Config, e: CycleEnv)
    requires d.state == Stored(r) && Usable(d) && r.name.Some? && !r.required
    ensures PathOk(known, d, PruneTrace(d, r, c, e))
  {
    var plan := CyclePlan(d, r, c, e);
    if plan.None? {
      RewriteOk(known, d, Failed(r, Max(e.failedAt, e.startedAt), InRetention));
    } else {
      var p := plan.value;
      var n := Unlinked(p.removed, e.stop);
      PlanOk(d, Guard(r.name, r.instance, r.sha, r.size), c.keep, Max(e.pruneAt, e.startedAt));
      UnlinkOk(known, d, p.removed, n);
      var left := d.(files := Without(d.files, p.removed[..n]));
      var counted := r.(retained := Some(Retained(p)));
      var failed := CycleFailure(left, r, e, InRetention);
      var done := Put(left, counted.(required := false, errorAt := None, errorStage := None));
      assert r.name.value in left.files;
      if n < |p.removed| {
        OneStep(known, left, failed);
        PathJoin(known, d, UnlinkTrace(d, p.removed, n), [failed]);
      } else if p.blocked != [] {
        TwoSteps(known, left, Put(left, counted), CycleFailure(left, counted, e, InRetention));
        PathJoin(known, d, UnlinkTrace(d, p.removed, n), [Put(left, counted), CycleFailure(left, counted, e, InRetention)]);
      } else {
        OneStep(known, left, done);
        PathJoin(known, d, UnlinkTrace(d, p.removed, n), [done]);
      }
    }
  }

  lemma CheckOk(known: set<Name>, d: Disk, r: Record, c: Config, e: CycleEnv, name: Name, claimed: File)
    requires d.state == Stored(r) && Usable(d) && ConfigOk(c) && name !in known
    ensures PathOk(known, d, CheckTrace(d, r, c, e, name, claimed))
  {
    if Objection(d, r, e, name, claimed).None? {
      var recorded := Recorded(r, c, e, name, claimed);
      PruneOk(known, Put(d, recorded), recorded, c, e);
      OneStep(known, d, Put(d, recorded));
      PathJoin(known, d, [Put(d, recorded)], PruneTrace(Put(d, recorded), recorded, c, e));
    } else {
      RewriteOk(known, d, Failed(r, Max(e.failedAt, e.startedAt), Objection(d, r, e, name, claimed).value));
    }
  }

  lemma WorkOk(known: set<Name>, d: Disk, r: Record, c: Config, e: CycleEnv)
    requires d.state == Stored(r) && Usable(d) && ConfigOk(c) && d.files.Keys <= known
    requires !e.creation.Fails? ==> e.creation.name !in known
    ensures PathOk(known, d, WorkTrace(d, r, c, e))
  {
    if e.abortBefore || e.creation.Fails? {
    } else {
      var with := WithFile(d, e.creation.name, e.creation.file);
      if e.creation.Creates? {
        CheckOk(known, with, r, c, e, e.creation.name, e.creation.claimed);
        OneStep(known, d, with);
        PathJoin(known, d, [with], CheckTrace(with, r, c, e, e.creation.name, e.creation.claimed));
      } else {
        var failed := CycleFailure(d, r, e, InDatabaseBackup);
        TwoSteps(known, with, d, failed);
        OneStep(known, d, with);
        PathJoin(known, d, [with], [d, failed]);
        assert [with] + [d, failed] == [with, d, failed];
      }
    }
  }

  lemma BegunOk(known: set<Name>, d: Disk, r: Record, c: Config, at: Instant)
    requires Usable(d) && ConfigOk(c) && Read(d.state) == Some(r)
    ensures StepOk(known, d, Put(d, Begun(r, c, at)))
  {
    RewriteOk(known, d, Begun(r, c, at));
  }

  lemma EarlyOk(known: set<Name>, d: Disk, r: Record, c: Config, e: CycleEnv)
    requires Usable(d) && ConfigOk(c) && Read(d.state) == Some(r)
    ensures PathOk(known, d, EarlyTrace(d, r, c, e))
  {
    var attempt := Begun(r, c, e.startedAt);
    var failed := Failed(attempt, Max(e.failedAt, e.startedAt), InState);
    BegunOk(known, d, r, c, e.startedAt);
    if ClockBack(r, e.startedAt) {
      RewriteOk(known, d, failed);
      OneStep(known, d, Put(d, failed));
    } else {
      RewriteOk(known, Put(d, attempt), failed);
      TwoSteps(known, d, Put(d, attempt), Put(d, failed));
    }
  }

  lemma CycleOk(known: set<Name>, d: Disk, c: Config, e: CycleEnv)
    requires Usable(d) && ConfigOk(c) && d.files.Keys <= known
    requires !e.creation.Fails? ==> e.creation.name !in known
    ensures PathOk(known, d, CycleTrace(d, c, e))
  {
    if Read(d.state).Some? {
      var r := Read(d.state).value;
      EarlyOk(known, d, r, c, e);
      if !ClockBack(r, e.startedAt) && e.recovers {
        var attempt := Begun(r, c, e.startedAt);
        BegunOk(known, d, r, c, e.startedAt);
        WorkOk(known, Put(d, attempt), attempt, c, e);
        Prepend(known, d, Put(d, attempt), WorkTrace(Put(d, attempt), attempt, c, e));
      }
    }
  }

  lemma ReconciledOk(known: set<Name>, d: Disk, r: Record, c: Config, e: RetentionEnv)
    requires d.state == Stored(r) && Usable(d) && ConfigOk(c) && r.name.Some? && ReconcilePlan(d, r, c, e).Some?
    ensures PathOk(known, d, PrunedTrace(d, r, c, e, ReconcilePlan(d, r, c, e).value))
  {
    var p := ReconcilePlan(d, r, c, e).value;
    var n := Unlinked(p.removed, e.stop);
    var now := Max(e.pruneAt, e.startedAt);
    PlanOk(d, Guard(r.name, r.instance, r.sha, r.size), c.keep, now);
    UnlinkOk(known, d, p.removed, n);
    var left := d.(files := Without(d.files, p.removed[..n]));
    assert Usable(left);
    RewritesOk(known, left, r, c, e, p, n == |p.removed|);
    PathJoin(known, d, UnlinkTrace(d, p.removed, n), AfterPrune(left, r, c, e, p, n == |p.removed|));
  }

  lemma RewritesOk(known: set<Name>, left: Disk, r: Record, c: Config, e: RetentionEnv, p: Retention, complete: bool)
    requires left.state == Stored(r) && Usable(left) && ConfigOk(c) && r.name.Some? && 1 <= Retained(p) <= MAXIMUM_BACKUPS
    ensures PathOk(known, left, AfterPrune(left, r, c, e, p, complete))
  {
    var trace := AfterPrune(left, r, c, e, p, complete);
    assert trace == Proposed(left, r, c, e, p, complete);
    assert StepOk(known, left, trace[0]);
    if |trace| == 2 {
      TwoSteps(known, left, trace[0], trace[1]);
    } else {
      OneStep(known, left, trace[0]);
    }
  }

  lemma FailureOk(known: set<Name>, d: Disk, r: Record, c: Config, at: Instant, stage: Stage)
    requires Usable(d) && ConfigOk(c) && Read(d.state) == Some(r)
    ensures PathOk(known, d, [Put(d, Failed(WithPolicy(r, c), at, stage))])
  {
    RewriteOk(known, d, Failed(WithPolicy(r, c), at, stage));
    OneStep(known, d, Put(d, Failed(WithPolicy(r, c), at, stage)));
  }

  lemma ReconcileOk(known: set<Name>, d: Disk, c: Config, e: RetentionEnv)
    requires Usable(d) && ConfigOk(c)
    ensures PathOk(known, d, ReconcileTrace(d, c, e))
  {
    if Read(d.state).Some? {
      var r := Read(d.state).value;
      FailureOk(known, d, r, c, Max(e.failedAt, e.startedAt), InState);
      FailureOk(known, d, r, c, Max(e.failedAt, Max(e.pruneAt, e.startedAt)), InRetention);
      if r.name.Some? && ReconcilePlan(d, r, c, e).Some? {
        ReconciledOk(known, d, r, c, e);
      }
    }
  }

  lemma RestoreOk(known: set<Name>, d: Disk, c: Config, e: RestoreEnv)
    requires Usable(d) && ConfigOk(c)
    ensures PathOk(known, d, RestoreTrace(d, c, e))
  {
    if MayRestore(d, e) {
      var trace := RestoreTrace(d, c, e);
      TwoSteps(known, d, trace[0], trace[1]);
    }
  }

  lemma DeleteOk(known: set<Name>, d: Disk, name: Name, sha: nat)
    requires Usable(d)
    ensures PathOk(known, d, DeleteTrace(d, name, sha))
  {
    if MayDelete(d, name, sha) {
      OneStep(known, d, d.(files := Without(d.files, [name])));
    }
  }

  /* ---------------------------------------------------------------- runs with crashes */

  datatype Op =
    | Cycle(config: Config, cycle: CycleEnv)
    | Reconcile(config: Config, retention: RetentionEnv)
    | Restore(config: Config, restore: RestoreEnv)
    | Delete(name: Name, sha: nat)

  /** One run of an operation; a crash cuts it short after `done` of its disks. */
  datatype Attempt = Attempt(op: Op, done: nat)

  function Trace(d: Disk, op: Op): seq<Disk> {
    match op
    case Cycle(c, e) => CycleTrace(d, c, e)
    case Reconcile(c, e) => ReconcileTrace(d, c, e)
    case Restore(c, e) => RestoreTrace(d, c, e)
    case Delete(name, sha) => DeleteTrace(d, name, sha)
  }

  function CutTrace(d: Disk, a: Attempt): seq<Disk> {
    var trace := Trace(d, a.op);
    if a.done < |trace| then trace[..a.done] else trace
  }

  /** Every disk that a run of attempts passes through. */
  function History(d: Disk, run: seq<Attempt>): seq<Disk> {
    if run == [] then [] else
    History(d, run[..|run| - 1]) + CutTrace(After(d, run[..|run| - 1]), run[|run| - 1])
  }

  function After(d: Disk, run: seq<Attempt>): Disk {
    if run == [] then d else
    var before := After(d, run[..|run| - 1]);
    Last(before, CutTrace(before, run[|run| - 1]))
  }

  function Created(run: seq<Attempt>): set<Name> {
    set i | 0 <= i < |run| && run[i].op.Cycle? && !run[i].op.cycle.creation.Fails? :: run[i].op.cycle.creation.name
  }

  /** The configurations are the validated ones, and every created name is a new one. */
  predicate RunOk(d: Disk, run: seq<Attempt>) {
    run == [] ||
    var op := run[|run| - 1].op;
    RunOk(d, run[..|run| - 1]) && MayFollow(d, run[..|run| - 1], op)
  }

  predicate MayFollow(d: Disk, run: seq<Attempt>, op: Op) {
    && (!op.Delete? ==> ConfigOk(op.config))
    && (op.Cycle? && !op.cycle.creation.Fails? ==> op.cycle.creation.name !in d.files.Keys + Created(run))
  }

  lemma TraceOk(known: set<Name>, d: Disk, op: Op)
    requires Usable(d) && d.files.Keys <= known && (!op.Delete? ==> ConfigOk(op.config))
    requires op.Cycle? && !op.cycle.creation.Fails? ==> op.cycle.creation.name !in known
    ensures PathOk(known, d, Trace(d, op))
  {
    match op
    case Cycle(c, e) => CycleOk(known, d, c, e);
    case Reconcile(c, e) => ReconcileOk(known, d, c, e);
    case Restore(c, e) => RestoreOk(known, d, c, e);
    case Delete(name, sha) => DeleteOk(known, d, name, sha);
  }

  lemma {:induction false} PathPrefix(known: set<Name>, d: Disk, trace: seq<Disk>, n: nat)
    requires PathOk(known, d, trace) && n <= |trace|
    ensures PathOk(known, d, trace[..n])
    decreases n
  {
    if n > 0 {
      PathPrefix(known, trace[0], trace[1..], n - 1);
      assert trace[..n][1..] == trace[1..][..n - 1];
    }
  }

  lemma {:induction false} PathEnds(known: set<Name>, d: Disk, trace: seq<Disk>)
    requires Usable(d) && PathOk(known, d, trace)
    ensures Usable(Last(d, trace))
    ensures forall e | e in trace :: Usable(e)
    decreases |trace|
  {
    if trace != [] {
      PathEnds(known, trace[0], trace[1..]);
      assert trace == [trace[0]] + trace[1..];
      assert Last(trace[0], trace[1..]) == Last(d, trace);
    }
  }

  predicate FilesAmong(trace: seq<Disk>, names: set<Name>) {
    forall e | e in trace :: e.files.Keys <= names
  }

  lemma {:induction false} UnlinkFiles(d: Disk, q: seq<Name>, n: nat)
    requires n <= |q|
    ensures FilesAmong(UnlinkTrace(d, q, n), d.files.Keys)
  {
    if n > 0 {
      UnlinkFiles(d, q, n - 1);
    }
  }

  function NewNames(op: Op): set<Name> {
    if op.Cycle? && !op.cycle.creation.Fails? then {op.cycle.creation.name} else {}
  }

  lemma PruneFiles(d: Disk, r: Record, c: Config, e: CycleEnv)
    ensures FilesAmong(PruneTrace(d, r, c, e), d.files.Keys)
  {
    var plan := CyclePlan(d, r, c, e);
    if plan.Some? {
      UnlinkFiles(d, plan.value.removed, Unlinked(plan.value.removed, e.stop));
    }
  }

  lemma ReconcileFiles(d: Disk, c: Config, e: RetentionEnv)
    ensures FilesAmong(ReconcileTrace(d, c, e), d.files.Keys)
  {
    if Read(d.state).Some? {
      var plan := ReconcilePlan(d, Read(d.state).value, c, e);
      if plan.Some? {
        UnlinkFiles(d, plan.value.removed, Unlinked(plan.value.removed, e.stop));
      }
    }
  }

  lemma CheckFiles(d: Disk, r: Record, c: Config, e: CycleEnv, name: Name, claimed: File)
    ensures FilesAmong(CheckTrace(d, r, c, e, name, claimed), d.files.Keys)
  {
    var recorded := Recorded(r, c, e, name, claimed);
    PruneFiles(Put(d, recorded), recorded, c, e);
  }

  lemma TraceFiles(d: Disk, op: Op)
    ensures FilesAmong(Trace(d, op), d.files.Keys + NewNames(op))
  {
    match op
    case Cycle(c, e) =>
      if Read(d.state).Some? {
        var attempt := Begun(Read(d.state).value, c, e.startedAt);
        if e.creation.Creates? {
          var with := WithFile(Put(d, attempt), e.creation.name, e.creation.file);
          CheckFiles(with, attempt, c, e, e.creation.name, e.creation.claimed);
        }
      }
    case Reconcile(c, e) => ReconcileFiles(d, c, e);
    case Restore(c, e) =>
    case Delete(name, sha) =>
  }

  /** What holds between the start of a run and any later point of it. */
  predicate RunKeeps(d: Disk, run: seq<Attempt>) {
    && Usable(After(d, run))
    && After(d, run).files.Keys <= d.files.Keys + Created(run)
    && forall e | e in History(d, run) :: Usable(e)
  }

  lemma AttemptKeeps(known: set<Name>, before: Disk, a: Attempt)
    requires Usable(before) && before.files.Keys <= known && (!a.op.Delete? ==> ConfigOk(a.op.config))
    requires NewNames(a.op) !! known
    ensures PathOk(known, before, CutTrace(before, a))
    ensures Usable(Last(before, CutTrace(before, a)))
    ensures forall e | e in CutTrace(before, a) :: Usable(e)
    ensures Last(before, CutTrace(before, a)).files.Keys <= before.files.Keys + NewNames(a.op)
  {
    var trace := Trace(before, a.op);
    TraceOk(known, before, a.op);
    PathPrefix(known, before, trace, if a.done < |trace| then a.done else |trace|);
    assert trace[..|trace|] == trace;
    PathEnds(known, before, CutTrace(before, a));
    TraceFiles(before, a.op);
    assert forall e | e in CutTrace(before, a) :: e in trace;
  }

  lemma CreatedSplits(run: seq<Attempt>)
    requires run != []
    ensures Created(run) == Created(run[..|run| - 1]) + NewNames(run[|run| - 1].op)
  {
    var rest := run[..|run| - 1];
    assert forall i | 0 <= i < |rest| :: rest[i] == run[i];
  }

  /** Whatever is run, in whatever order, and wherever it is cut short, every disk on the way has
      a valid state that names a backup which is there and is the one that was recorded. */
  lemma {:induction false} EveryCrashIsUsable(d: Disk, run: seq<Attempt>)
    requires Usable(d) && RunOk(d, run)
    ensures RunKeeps(d, run)
  {
    if run != [] {
      var rest, last := run[..|run| - 1], run[|run| - 1];
      EveryCrashIsUsable(d, rest);
      CreatedSplits(run);
      AttemptKeeps(d.files.Keys + Created(rest), After(d, rest), last);
    }
  }

  /** A file is not removed while the state names it: no single step of any run takes it away or
      changes it. */
  lemma NamedStays(d: Disk, run: seq<Attempt>, last: Attempt, n: nat, name: Name)
    requires Usable(d) && RunOk(d, run) && MayFollow(d, run, last.op)
    ensures var trace := CutTrace(After(d, run), last);
      n < |trace| ==>
        var before := if n == 0 then After(d, run) else trace[n - 1];
        Names(before, name) && name in before.files ==> name in trace[n].files && trace[n].files[name] == before.files[name]
  {
    EveryCrashIsUsable(d, run);
    var known := d.files.Keys + Created(run);
    AttemptKeeps(known, After(d, run), last);
    if n < |CutTrace(After(d, run), last)| {
      PathAt(known, After(d, run), CutTrace(After(d, run), last), n);
    }
  }

  lemma {:induction false} PathAt(known: set<Name>, d: Disk, trace: seq<Disk>, n: nat)
    requires PathOk(known, d, trace) && n < |trace|
    ensures StepOk(known, if n == 0 then d else trace[n - 1], trace[n])
    decreases n
  {
    if n > 0 {
      PathAt(known, trace[0], trace[1..], n - 1);
    }
  }

  /** Either a new backup is still required, or the state names one that is not of `known`. */
  predicate Owed(known: set<Name>, d: Disk) {
    && d.state.Stored?
    && (Required(d) || (d.state.record.name.Some? && d.state.record.name.value !in known))
  }

  lemma {:induction false} PathOwed(few: set<Name>, known: set<Name>, d: Disk, trace: seq<Disk>)
    requires PathOk(known, d, trace) && few <= known && Owed(few, d)
    ensures Owed(few, Last(d, trace))
    decreases |trace|
  {
    if trace != [] {
      PathOwed(few, known, trace[0], trace[1..]);
      assert Last(trace[0], trace[1..]) == Last(d, trace);
    }
  }

  /** After a restore a backup stays required, over any run and any crash, until the state names
      one that was not there at the restore. */
  lemma {:induction false} RestoreIsFollowedUp(d: Disk, run: seq<Attempt>)
    requires Usable(d) && RunOk(d, run) && Required(d)
    ensures Owed(d.files.Keys, After(d, run))
  {
    if run != [] {
      var rest, last := run[..|run| - 1], run[|run| - 1];
      RestoreIsFollowedUp(d, rest);
      EveryCrashIsUsable(d, rest);
      var known := d.files.Keys + Created(rest);
      AttemptKeeps(known, After(d, rest), last);
      PathOwed(d.files.Keys, known, After(d, rest), CutTrace(After(d, rest), last));
    }
  }

  /* ---------------------------------------------------------------- states that no run writes */

  predicate AllValid(trace: seq<Disk>) {
    forall e | e in trace :: e.state.Stored? ==> IsBackupState(e.state.record)
  }

  lemma {:induction false} UnlinkStates(d: Disk, q: seq<Name>, n: nat)
    requires n <= |q|
    ensures forall e | e in UnlinkTrace(d, q, n) :: e.state == d.state
  {
    if n > 0 {
      UnlinkStates(d, q, n - 1);
    }
  }

  /** The recovery reaches the point where it writes the number of files that it left. */
  predicate Counts(d: Disk, r: Record, c: Config, e: RetentionEnv) {
    && !ClockBack(r, e.startedAt) && e.recovers && !r.required && r.name.Some? && r.instance.Some?
    && ReconcilePlan(d, r, c, e).Some?
    && var removed := ReconcilePlan(d, r, c, e).value.removed; Unlinked(removed, e.stop) == |removed|
  }

  lemma ProposedValidExactly(left: Disk, r: Record, c: Config, e: RetentionEnv, p: Retention, complete: bool)
    requires IsBackupState(r) && ConfigOk(c) && 1 <= Retained(p) <= MAXIMUM_BACKUPS
    ensures AllValid(Proposed(left, r, c, e, p, complete)) <==> !(complete && Uncounted(r))
    ensures complete && Uncounted(r) ==>
              forall x | x in Proposed(left, r, c, e, p, complete) :: x.state.Stored? && !IsBackupState(x.state.record)
  {
    var trace := Proposed(left, r, c, e, p, complete);
    assert trace[0] in trace;
    if complete && Uncounted(r) {
      assert HasBackup(trace[0].state.record) && trace[0].state.record.successAt.None?;
    }
  }

  /** The disk at the point where the recovery writes the number of files that it left. */
  function Pruned(d: Disk, r: Record, c: Config, e: RetentionEnv): Disk
    requires Counts(d, r, c, e)
  {
    d.(files := Without(d.files, ReconcilePlan(d, r, c, e).value.removed))
  }

  lemma PrunedTraceValid(d: Disk, r: Record, c: Config, e: RetentionEnv, p: Retention)
    requires d.state == Stored(r) && IsBackupState(r) && ConfigOk(c) && 1 <= Retained(p) <= MAXIMUM_BACKUPS
    ensures AllValid(PrunedTrace(d, r, c, e, p))
  {
    var n := Unlinked(p.removed, e.stop);
    UnlinkStates(d, p.removed, n);
    ProposedValidExactly(d.(files := Without(d.files, p.removed[..n])), r, c, e, p, n == |p.removed|);
  }

  lemma ReconcileTraceValid(d: Disk, r: Record, c: Config, e: RetentionEnv)
    requires d.state == Stored(r) && IsBackupState(r) && ConfigOk(c)
    ensures AllValid(ReconcileTrace(d, c, e))
  {
    var plan := ReconcilePlan(d, r, c, e);
    if r.name.Some? && plan.Some? {
      PlanOk(d, Guard(r.name, r.instance, r.sha, r.size), c.keep, Max(e.pruneAt, e.startedAt));
      PrunedTraceValid(d, r, c, e, plan.value);
    }
  }

  lemma UncountedStays(d: Disk, r: Record, c: Config, e: RetentionEnv)
    requires d.state == Stored(r) && Counts(d, r, c, e) && Uncounted(r)
    ensures Last(d, ReconcileTrace(d, c, e)).state == d.state
  {
    var p := ReconcilePlan(d, r, c, e).value;
    UnlinkStates(d, p.removed, |p.removed|);
    assert ReconcileTrace(d, c, e) == UnlinkTrace(d, p.removed, |p.removed|);
  }

  lemma CountedExactly(d: Disk, r: Record, c: Config, e: RetentionEnv)
    requires IsBackupState(r) && ConfigOk(c) && Counts(d, r, c, e)
    ensures AllValid(Proposed(Pruned(d, r, c, e), r, c, e, ReconcilePlan(d, r, c, e).value, true)) <==> !Uncounted(r)
  {
    PlanOk(d, Guard(r.name, r.instance, r.sha, r.size), c.keep, Max(e.pruneAt, e.startedAt));
    ProposedValidExactly(Pruned(d, r, c, e), r, c, e, ReconcilePlan(d, r, c, e).value, true);
  }

  /** The writes of the retention recovery are refused exactly when it counts the files of a state that
      has all of a backup but the count: the count makes it whole, yet it has no success. Whatever it
      leaves is a valid state. */
  lemma ReconcileValidExactly(d: Disk, r: Record, c: Config, e: RetentionEnv)
    requires d.state == Stored(r) && IsBackupState(r) && ConfigOk(c)
    ensures AllValid(ReconcileTrace(d, c, e))
    ensures Counts(d, r, c, e) ==>
              (AllValid(Proposed(Pruned(d, r, c, e), r, c, e, ReconcilePlan(d, r, c, e).value, true)) <==> !Uncounted(r))
    ensures Counts(d, r, c, e) && Uncounted(r) ==> Last(d, ReconcileTrace(d, c, e)).state == d.state
  {
    ReconcileTraceValid(d, r, c, e);
    if Counts(d, r, c, e) {
      CountedExactly(d, r, c, e);
      if Uncounted(r) { UncountedStays(d, r, c, e); }
    }
  }

  /* ---------------------------------------------------------------- a cycle that succeeds */

  predicate Clear(d: Disk) {
    d.state.Stored? && d.state.record.errorStage.None?
  }

  lemma FinishClears(left: Disk, r: Record, e: CycleEnv, p: Retention, complete: bool)
    ensures FinishTrace(left, r, e, p, complete) != []
    ensures var last := Last(left, FinishTrace(left, r, e, p, complete));
      && last.files == left.files
      && (Clear(last) ==> complete && last.state.record == r.(required := false, errorAt := None, errorStage := None,
                                                             retained := Some(Retained(p))))
  {
  }

  lemma PruneClears(d: Disk, r: Record, c: Config, e: CycleEnv)
    requires d.state == Stored(r) && r.name.Some? && r.name.value in d.files
    ensures var last := Last(d, PruneTrace(d, r, c, e));
      Clear(last) ==>
        && last.state.record == r.(required := false, errorAt := None, errorStage := None, retained := Some(|last.files|))
        && r.name.value in last.files && last.files[r.name.value] == d.files[r.name.value]
  {
    var plan := CyclePlan(d, r, c, e);
    if plan.Some? {
      var p := plan.value;
      var n := Unlinked(p.removed, e.stop);
      FinishClears(d.(files := Without(d.files, p.removed[..n])), r, e, p, n == |p.removed|);
      PlanLeaves(d.files, c.keep, Guard(r.name, r.instance, r.sha, r.size), Max(e.pruneAt, e.startedAt));
    }
  }

  lemma PlanLeaves(files: Files, keep: nat, g: Guard, clock: nat)
    requires g.protected.Some? && Plan(files, keep, g, clock).Some?
    ensures var p := Plan(files, keep, g, clock).value;
      && |Without(files, p.removed[..|p.removed|])| == Retained(p) && g.protected.value !in p.removed
  {
    PlanIsSound(files, keep, g, clock);
    var p := Plan(files, keep, g, clock).value;
    assert p.removed[..|p.removed|] == p.removed;
  }

  predicate Success(last: Disk, e: CycleEnv) {
    && e.creation.Creates? && Names(last, e.creation.name) && !Required(last)
    && e.creation.name in last.files && last.files[e.creation.name] == e.creation.file
    && Holds(last.state.record, e.creation.file)
    && last.state.record.retained == Some(|last.files|)
    && last.state.record.attemptAt == Some(e.startedAt) && last.state.record.successAt == Some(e.succeededAt)
  }

  lemma CheckSuccess(d: Disk, r: Record, c: Config, e: CycleEnv)
    requires e.creation.Creates? && e.creation.name in d.files && d.files[e.creation.name] == e.creation.file
    ensures var last := Last(d, CheckTrace(d, r, c, e, e.creation.name, e.creation.claimed)); Clear(last) ==> Success(last, e)
  {
    if Objection(d, r, e, e.creation.name, e.creation.claimed).None? {
      var recorded := Recorded(r, c, e, e.creation.name, e.creation.claimed);
      PruneClears(Put(d, recorded), recorded, c, e);
      LastOfJoin(d, Put(d, recorded), PruneTrace(Put(d, recorded), recorded, c, e));
    }
  }

  lemma LastOfJoin(d: Disk, e: Disk, rest: seq<Disk>)
    ensures Last(d, [e] + rest) == Last(e, rest)
  {
  }

  lemma WorkSuccess(d: Disk, r: Record, c: Config, e: CycleEnv)
    ensures var last := Last(d, WorkTrace(d, r, c, e)); Clear(last) ==> Success(last, e)
  {
    if !e.abortBefore && e.creation.Creates? {
      var with := WithFile(d, e.creation.name, e.creation.file);
      CheckSuccess(with, r, c, e);
      LastOfJoin(d, with, CheckTrace(with, r, c, e, e.creation.name, e.creation.claimed));
    }
  }

  /** A cycle that ends without an error has recorded the file it created, as it was verified, and
      the number of backups that are really there. */
  lemma CycleSuccess(d: Disk, c: Config, e: CycleEnv)
    ensures var last := Last(d, CycleTrace(d, c, e));
      CycleTrace(d, c, e) != [] && Clear(last) ==> Success(last, e)
  {
    if Read(d.state).Some? && e.recovers {
      var r := Read(d.state).value;
      var attempt := Begun(r, c, e.startedAt);
      WorkSuccess(Put(d, attempt), attempt, c, e);
      LastOfJoin(d, Put(d, attempt), WorkTrace(Put(d, attempt), attempt, c, e));
    }
  }

  /* ---------------------------------------------------------------- the schedule */

  function Floor(a: int): nat {
    if a < 0 then 0 else a
  }

  /** None where the function throws. */
  function NextDelay(state: StateFile, interval: nat, now: nat): Option<nat> {
    if Read(state).None? || ClockBack(Read(state).value, now) then None else
    var r := Read(state).value;
    var retry := if interval < RETRY_DELAY then interval else RETRY_DELAY;
    if r.required then Some(0) else
    var failure := r.errorAt.Some? && (r.successAt.None? || r.errorAt.value >= r.successAt.value);
    var interrupted := r.attemptAt.Some? && (r.successAt.None? || r.attemptAt.value > r.successAt.value)
                       && (r.errorAt.None? || r.errorAt.value < r.attemptAt.value);
    if interrupted then Some(Floor(r.attemptAt.value + retry - now))
    else if failure then
      if r.errorStage == Some(InRetention) && r.successAt.Some? then Some(Floor(r.successAt.value + interval - now))
      else Some(Floor(r.errorAt.value + retry - now))
    else if r.successAt.None? then Some(0)
    else Some(Floor(r.successAt.value + interval - now))
  }

  /** The next cycle is never more than one interval away. */
  lemma DelayBounded(state: StateFile, interval: nat, now: nat)
    requires NextDelay(state, interval, now).Some?
    ensures NextDelay(state, interval, now).value <= interval
  {
    var r := Read(state).value;
    assert r.attemptAt.Some? ==> r.attemptAt.value <= now;
    assert r.successAt.Some? ==> r.successAt.value <= now;
    assert r.errorAt.Some? ==> r.errorAt.value <= now;
  }

  /** The disk still waits for this cycle's backup, and the wait is the short one. */
  ghost predicate SoonRetried(d: Disk, interval: nat) {
    forall now: nat :: NextDelay(d.state, interval, now).Some? ==> NextDelay(d.state, interval, now).value <= RETRY_DELAY
  }

  /** The record of a cycle that has failed before its backup was recorded. */
  predicate FailedEarly(x: Record, attempt: Record, at: nat) {
    x.errorStage.Some? && x.errorStage.value != InRetention && x == Failed(attempt, at, x.errorStage.value)
  }

  /** An early failure is waited for briefly, unless a success is recorded later than it. */
  lemma FailureSoonExactly(x: Disk, attempt: Record, at: nat, interval: nat)
    requires x.state.Stored? && FailedEarly(x.state.record, attempt, at)
    requires attempt.attemptAt.Some? && attempt.attemptAt.value <= at && interval > RETRY_DELAY
    ensures SoonRetried(x, interval)
            <==> attempt.required || attempt.successAt.None? || attempt.successAt.value <= at
  {
    var r := x.state.record;
    if !r.required && r.successAt.Some? && r.successAt.value > at {
      assert NextDelay(x.state, interval, r.successAt.value) == Some(interval);
    } else {
      forall now: nat | NextDelay(x.state, interval, now).Some? ensures NextDelay(x.state, interval, now).value <= RETRY_DELAY {
        assert r.errorAt.value <= now;
      }
    }
  }

  /** What was recorded in the very millisecond in which the cycle starts hides its attempt. */
  predicate HidesAttempt(r: Record, at: nat, interval: nat) {
    && r.successAt.Some?
    && ((r.successAt.value == at && (r.errorAt.None? || r.errorAt.value < at))
        || (r.errorAt == Some(at) && r.errorStage == Some(InRetention) && r.successAt.value + interval > at + RETRY_DELAY))
  }

  lemma AttemptSoonExactly(x: Disk, r: Record, c: Config, at: nat)
    requires x.state == Stored(Begun(r, c, at)) && ConfigOk(c) && !ClockBack(r, at)
    requires r.errorAt.None? <==> r.errorStage.None?
    ensures SoonRetried(x, c.interval) <==> r.required || !HidesAttempt(r, at, c.interval)
  {
    if !r.required && HidesAttempt(r, at, c.interval) {
      assert NextDelay(x.state, c.interval, at) == Some(Floor(r.successAt.value + c.interval - at));
    } else {
      forall now: nat | NextDelay(x.state, c.interval, now).Some?
        ensures NextDelay(x.state, c.interval, now).value <= RETRY_DELAY
      {
        assert at <= now;
      }
    }
  }

  predicate NamesNew(e: CycleEnv, x: Disk) {
    e.creation.Creates? && Names(x, e.creation.name)
  }

  /** Where a cycle may stop. */
  predicate StopsAt(x: Disk, attempt: Record, e: CycleEnv) {
    x.state.Stored? && (x.state.record == attempt || FailedEarly(x.state.record, attempt, Max(e.failedAt, e.startedAt))
                        || NamesNew(e, x))
  }

  lemma PruneNames(d: Disk, r: Record, c: Config, e: CycleEnv)
    requires d.state == Stored(r) && e.creation.Creates? && r.name == Some(e.creation.name)
    ensures forall x | x in PruneTrace(d, r, c, e) :: NamesNew(e, x)
  {
    var plan := CyclePlan(d, r, c, e);
    if plan.Some? {
      UnlinkStates(d, plan.value.removed, Unlinked(plan.value.removed, e.stop));
    }
  }

  lemma CheckStopsAt(d: Disk, r: Record, c: Config, e: CycleEnv)
    requires d.state == Stored(r) && e.creation.Creates?
    ensures forall x | x in CheckTrace(d, r, c, e, e.creation.name, e.creation.claimed) :: StopsAt(x, r, e)
  {
    if Objection(d, r, e, e.creation.name, e.creation.claimed).None? {
      var recorded := Recorded(r, c, e, e.creation.name, e.creation.claimed);
      PruneNames(Put(d, recorded), recorded, c, e);
    }
  }

  lemma WorkStopsAt(d: Disk, r: Record, c: Config, e: CycleEnv)
    requires d.state == Stored(r)
    ensures forall x | x in WorkTrace(d, r, c, e) :: StopsAt(x, r, e)
  {
    if !e.abortBefore && e.creation.Creates? {
      CheckStopsAt(WithFile(d, e.creation.name, e.creation.file), r, c, e);
    }
  }

  lemma CycleStopsAt(d: Disk, c: Config, e: CycleEnv, x: Disk)
    requires Read(d.state).Some? && x in CycleTrace(d, c, e)
    ensures StopsAt(x, Begun(Read(d.state).value, c, e.startedAt), e)
    ensures ClockBack(Read(d.state).value, e.startedAt) ==>
              FailedEarly(x.state.record, Begun(Read(d.state).value, c, e.startedAt), Max(e.failedAt, e.startedAt))
  {
    var attempt := Begun(Read(d.state).value, c, e.startedAt);
    WorkStopsAt(Put(d, attempt), attempt, c, e);
  }

  /** The next cycle may be a whole interval away although this one has left no backup: a success
      is recorded later than its failure, or in the millisecond in which it started. */
  predicate MayWait(r: Record, c: Config, e: CycleEnv) {
    && !r.required && r.successAt.Some?
    && (if ClockBack(r, e.startedAt) then r.successAt.value > Max(e.failedAt, e.startedAt)
        else HidesAttempt(r, e.startedAt, c.interval))
  }

  /** Wherever a cycle fails or is cut short, its backup is recorded or the next cycle is due within
      five minutes, if and only if the times recorded before do not hide it. */
  lemma MissedBackupIsRetried(d: Disk, c: Config, e: CycleEnv)
    requires Usable(d) && Read(d.state).Some? && ConfigOk(c)
    requires e.creation.Creates? ==> e.creation.name !in d.files
    ensures (forall x | x in CycleTrace(d, c, e) :: NamesNew(e, x) || SoonRetried(x, c.interval))
            <==> !MayWait(Read(d.state).value, c, e)
  {
    var r, at, failedAt := Read(d.state).value, e.startedAt, Max(e.failedAt, e.startedAt);
    var attempt, first := Begun(r, c, at), CycleTrace(d, c, e)[0];
    assert first in CycleTrace(d, c, e) && !NamesNew(e, first);
    if ClockBack(r, at) {
      CycleStopsAt(d, c, e, first);
      FailureSoonExactly(first, attempt, failedAt, c.interval);
    } else {
      AttemptSoonExactly(first, r, c, at);
    }
    forall x | x in CycleTrace(d, c, e) && !NamesNew(e, x) && !MayWait(r, c, e) ensures SoonRetried(x, c.interval) {
      CycleStopsAt(d, c, e, x);
      if x.state.record == attempt {
        if !ClockBack(r, at) { AttemptSoonExactly(x, r, c, at); } else { FailureSoonExactly(x, attempt, failedAt, c.interval); }
      } else {
        FailureSoonExactly(x, attempt, failedAt, c.interval);
      }
    }
  }

  /** Cut short right after its first write, a cycle that starts in the millisecond of the last
      success is not made up for before a whole interval has passed. */
  lemma EqualTimesWait(d: Disk, c: Config, e: CycleEnv)
    requires Usable(d) && Read(d.state).Some? && ConfigOk(c) && !Read(d.state).value.required
    requires Latest(Read(d.state).value) == Some(e.startedAt) && Read(d.state).value.successAt == Some(e.startedAt)
    requires Read(d.state).value.errorAt.None?
    ensures var x := CycleTrace(d, c, e)[0];
            x.files == d.files && NextDelay(x.state, c.interval, e.startedAt) == Some(c.interval) && !SoonRetried(x, c.interval)
  {
  }

  /* ---------------------------------------------------------------- the directory as it is written */

  class BackupDirectory {
    var state: StateFile
    var files: Files
    /** Every disk so far, the present one last. */
    ghost var trace: seq<Disk>

    ghost predicate Valid()
      reads this
    {
      && (state.Stored? ==> IsBackupState(state.record))
      && trace != [] && trace[|trace| - 1] == Disk(state, files)
    }

    ghost function View(): Disk
      reads this
    {
      Disk(state, files)
    }

    constructor (state: StateFile, files: Files)
      requires state.Stored? ==> IsBackupState(state.record)
      ensures Valid() && View() == Disk(state, files) && trace == [Disk(state, files)]
    {
      this.state, this.files := state, files;
      this.trace := [Disk(state, files)];
    }

    /** Refuses a record that is no backup state, and else renames it into place. */
    method WriteState(r: Record) returns (ok: bool)
      requires Valid()
      modifies this
      ensures Valid() && (ok <==> IsBackupState(r))
      ensures ok ==> View() == Put(old(View()), r) && trace == old(trace) + [View()]
      ensures !ok ==> View() == old(View()) && trace == old(trace)
    {
      ok := IsBackupState(r);
      if ok {
        state := Stored(r);
        trace := trace + [View()];
      }
    }

    method Publish(name: Name, file: File)
      requires Valid()
      modifies this
      ensures Valid() && View() == WithFile(old(View()), name, file) && trace == old(trace) + [View()]
    {
      files := files[name := file];
      trace := trace + [View()];
    }

    method Discard(name: Name)
      requires Valid()
      modifies this
      ensures Valid() && View() == old(View()).(files := Without(old(files), [name])) && trace == old(trace) + [View()]
    {
      files := map x | x in files && x != name :: files[x];
      assert files == Without(old(files), [name]);
      trace := trace + [View()];
    }

    /** pruneLocalBackups: classifies and selects, then unlinks one file after the other until one
        unlink fails. The result is None when it throws. */
    method Prune(keep: nat, g: Guard, clock: nat, stop: Option<nat>) returns (result: Option<Retention>)
      requires Valid()
      modifies this
      ensures Valid() && state == old(state)
      ensures var plan := Plan(old(files), keep, g, clock);
        if plan.None? then result.None? && trace == old(trace) && files == old(files) else
        var n := Unlinked(plan.value.removed, stop);
        && trace == old(trace) + UnlinkTrace(old(View()), plan.value.removed, n)
        && files == Without(old(files), plan.value.removed[..n])
        && result == if n < |plan.value.removed| then None else plan
    {
      if !(1 <= keep <= 365) || |files| > MAXIMUM_BACKUPS || (g.protected.Some? && g.protected.value !in files) {
        return None;
      }
      var verified, blocked := Classify(files, NewestFirst(files.Keys), g, clock);
      var kept := KeptOf(verified, keep, g.protected);
      var removed := RemovedOf(verified, kept);
      var i := 0;
      assert Without(files, removed[..0]) == files;
      while i < |removed| && stop != Some(i)
        invariant i <= Unlinked(removed, stop)
        invariant Valid() && state == old(state)
        invariant files == Without(old(files), removed[..i])
        invariant trace == old(trace) + UnlinkTrace(old(View()), removed, i)
      {
        Discard(removed[i]);
        WithoutMore(old(files), removed, i);
        i := i + 1;
      }
      if i < |removed| {
        return None;
      }
      return Some(Retention(kept, removed, blocked));
    }

    /** A state that is known to be one: this write is never refused. */
    method Save(r: Record)
      requires Valid() && IsBackupState(r)
      modifies this
      ensures Valid() && View() == Put(old(View()), r) && trace == old(trace) + [View()]
    {
      var ok := WriteState(r);
    }

    method FinishCycle(r: Record, e: CycleEnv, p: Retention) returns (ok: bool)
      requires Valid() && IsBackupState(r) && HasBackup(r) && 1 <= Retained(p) <= MAXIMUM_BACKUPS
      modifies this
      ensures Valid() && trace == old(trace) + FinishTrace(old(View()), r, e, p, true)
      ensures ok <==> Clear(View())
    {
      var counted := r.(retained := Some(Retained(p)));
      if p.blocked != [] {
        Save(counted);
        Save(Failed(counted, Max(e.failedAt, e.startedAt), InRetention));
        return false;
      }
      Save(counted.(required := false, errorAt := None, errorStage := None));
      return true;
    }

    /** The part of a cycle after its backup was recorded. */
    method PruneAfterBackup(r: Record, c: Config, e: CycleEnv) returns (ok: bool)
      requires Valid() && state == Stored(r) && HasBackup(r)
      modifies this
      ensures Valid() && trace == old(trace) + PruneTrace(old(View()), r, c, e)
      ensures ok <==> Clear(View())
    {
      ghost var d, before := View(), trace;
      ghost var plan := CyclePlan(d, r, c, e);
      var g := Guard(r.name, r.instance, r.sha, r.size);
      var result := Prune(c.keep, g, Max(e.pruneAt, e.startedAt), e.stop);
      ghost var unlinks := if plan.Some? then UnlinkTrace(d, plan.value.removed, Unlinked(plan.value.removed, e.stop)) else [];
      ghost var left := View();
      if result.None? {
        Save(Failed(r, Max(e.failedAt, e.startedAt), InRetention));
        Regroup(before, unlinks, [CycleFailure(left, r, e, InRetention)]);
        return false;
      }
      PlanOk(d, g, c.keep, Max(e.pruneAt, e.startedAt));
      ok := FinishCycle(r, e, result.value);
      Regroup(before, unlinks, FinishTrace(left, r, e, plan.value, true));
    }

    /** The part of a cycle after its file was published. */
    method RecordBackup(r: Record, c: Config, e: CycleEnv, name: Name, claimed: File) returns (ok: bool)
      requires Valid() && state == Stored(r) && ConfigOk(c)
      modifies this
      ensures Valid() && trace == old(trace) + CheckTrace(old(View()), r, c, e, name, claimed)
      ensures ok <==> Clear(View())
    {
      ghost var d, before := View(), trace;
      var objection := Objection(Disk(state, files), r, e, name, claimed);
      if objection.Some? {
        ok := false;
        Save(Failed(r, Max(e.failedAt, e.startedAt), objection.value));
      } else {
        var recorded := Recorded(r, c, e, name, claimed);
        Save(recorded);
        ghost var saved := View();
        ok := PruneAfterBackup(recorded, c, e);
        Regroup(before, [saved], PruneTrace(saved, recorded, c, e));
      }
    }

    /** A cycle that creates no backup: it is aborted, or its creation fails, perhaps after the file
        was published for a moment. */
    method CreateNothing(r: Record, c: Config, e: CycleEnv)
      requires Valid() && state == Stored(r) && (e.abortBefore || !e.creation.Creates?)
      requires !e.creation.Fails? ==> e.creation.name !in files
      modifies this
      ensures Valid() && trace == old(trace) + WorkTrace(old(View()), r, c, e)
      ensures !Clear(View())
    {
      ghost var d := View();
      if !e.abortBefore && e.creation.FailsAfter? {
        Publish(e.creation.name, e.creation.file);
        Discard(e.creation.name);
        assert files == d.files;
      }
      Save(Failed(r, Max(e.failedAt, e.startedAt), if e.abortBefore then InUnknown else InDatabaseBackup));
    }

    /** The part of a cycle after its attempt was noted. */
    method Work(r: Record, c: Config, e: CycleEnv) returns (ok: bool)
      requires Valid() && state == Stored(r) && ConfigOk(c) && (!e.creation.Fails? ==> e.creation.name !in files)
      modifies this
      ensures Valid() && trace == old(trace) + WorkTrace(old(View()), r, c, e)
      ensures ok <==> Clear(View())
    {
      if e.abortBefore || !e.creation.Creates? {
        ok := false;
        CreateNothing(r, c, e);
      } else {
        ghost var d, before := View(), trace;
        Publish(e.creation.name, e.creation.file);
        ghost var with := View();
        ok := RecordBackup(r, c, e, e.creation.name, e.creation.claimed);
        Regroup(before, [with], CheckTrace(with, r, c, e, e.creation.name, e.creation.claimed));
      }
    }

    /** A cycle that finds its clock behind the state, or cannot recover temporary files. */
    method EndEarly(r: Record, c: Config, e: CycleEnv)
      requires Valid() && ConfigOk(c) && Read(state) == Some(r)
      modifies this
      ensures Valid() && trace == old(trace) + EarlyTrace(old(View()), r, c, e)
      ensures !Clear(View())
    {
      ghost var d, before := View(), trace;
      var attempt := Begun(r, c, e.startedAt);
      if !ClockBack(r, e.startedAt) {
        Save(attempt);
      }
      Save(Failed(attempt, Max(e.failedAt, e.startedAt), InState));
      assert trace == before + EarlyTrace(d, r, c, e);
    }

    method AttemptCycle(r: Record, c: Config, e: CycleEnv) returns (ok: bool)
      requires Valid() && ConfigOk(c) && Read(state) == Some(r) && (!e.creation.Fails? ==> e.creation.name !in files)
      modifies this
      ensures var attempt := Begun(r, c, e.startedAt);
        trace == old(trace) + ([Put(old(View()), attempt)] + WorkTrace(Put(old(View()), attempt), attempt, c, e))
      ensures Valid() && (ok <==> Clear(View()))
    {
      ghost var before := trace;
      var attempt := Begun(r, c, e.startedAt);
      Save(attempt);
      ghost var started := View();
      ok := Work(attempt, c, e);
      Regroup(before, [started], WorkTrace(started, attempt, c, e));
    }

    /** executeTrackedCycle. No write of it is refused, and it leaves the disks of CycleTrace. */
    method RunCycle(c: Config, e: CycleEnv) returns (ok: bool)
      requires Valid() && ConfigOk(c) && (!e.creation.Fails? ==> e.creation.name !in files)
      modifies this
      ensures Valid() && trace == old(trace) + CycleTrace(old(View()), c, e)
      ensures ok <==> Clear(View())
    {
      ok := false;
      if !state.Damaged? {
        var r := Read(state).value;
        if ClockBack(r, e.startedAt) || !e.recovers {
          EndEarly(r, c, e);
        } else {
          ok := AttemptCycle(r, c, e);
        }
      }
    }

    method FinishReconcile(r: Record, c: Config, e: RetentionEnv, p: Retention) returns (ok: bool, refused: bool)
      requires Valid() && ConfigOk(c) && IsBackupState(r) && 1 <= Retained(p) <= MAXIMUM_BACKUPS
      modifies this
      ensures Valid() && trace == old(trace) + AfterPrune(old(View()), r, c, e, p, true)
      ensures (ok <==> p.blocked == [] && !Uncounted(r)) && (refused <==> Uncounted(r))
    {
      var now := Max(e.pruneAt, e.startedAt);
      var counted := WithPolicy(r, c).(retained := Some(Retained(p)));
      ok := WriteState(if p.blocked != [] then Failed(counted, Max(e.blockedAt, now), InRetention)
                       else counted.(errorAt := None, errorStage := None));
      refused := false;
      if !ok || p.blocked != [] {
        var again := WriteState(Failed(counted, Max(e.failedAt, now), InRetention));
        ok, refused := false, !again;
      }
    }

    /** reconcileBackupRetention. `refused` says that the recovery could not even write its failure. */
    method RunReconcile(c: Config, e: RetentionEnv) returns (ok: bool, refused: bool)
      requires Valid() && ConfigOk(c)
      modifies this
      ensures Valid() && trace == old(trace) + ReconcileTrace(old(View()), c, e)
      ensures refused <==> old(state).Stored? && Uncounted(old(state).record) && Counts(old(View()), old(state).record, c, e)
      ensures ok ==> !refused
    {
      ok, refused := false, false;
      if !state.Damaged? {
        var r := Read(state).value;
        if ClockBack(r, e.startedAt) || !e.recovers {
          Save(Failed(WithPolicy(r, c), Max(e.failedAt, e.startedAt), InState));
        } else if r.required || r.name.None? || r.instance.None? {
          ok := true;
        } else {
          ok, refused := PruneForReconcile(r, c, e);
        }
      }
    }

    method PruneForReconcile(r: Record, c: Config, e: RetentionEnv) returns (ok: bool, refused: bool)
      requires Valid() && ConfigOk(c) && state == Stored(r) && r.name.Some?
      modifies this
      ensures Valid()
      ensures var plan := ReconcilePlan(old(View()), r, c, e);
        && trace == old(trace) + (if plan.None? then
             [Put(old(View()), Failed(WithPolicy(r, c), Max(e.failedAt, Max(e.pruneAt, e.startedAt)), InRetention))]
           else PrunedTrace(old(View()), r, c, e, plan.value))
        && (refused <==> Uncounted(r) && plan.Some? && Unlinked(plan.value.removed, e.stop) == |plan.value.removed|)
        && (ok ==> !refused)
    {
      ghost var d, before := View(), trace;
      ghost var plan := ReconcilePlan(d, r, c, e);
      var now := Max(e.pruneAt, e.startedAt);
      var g := Guard(r.name, r.instance, r.sha, r.size);
      var result := Prune(c.keep, g, now, e.stop);
      ghost var unlinks := if plan.Some? then UnlinkTrace(d, plan.value.removed, Unlinked(plan.value.removed, e.stop)) else [];
      ghost var left := View();
      if result.None? {
        var failed := Failed(WithPolicy(r, c), Max(e.failedAt, now), InRetention);
        Save(failed);
        Regroup(before, unlinks, [Put(left, failed)]);
        ok, refused := false, false;
      } else {
        PlanOk(d, g, c.keep, now);
        ok, refused := FinishReconcile(r, c, e, result.value);
        Regroup(before, unlinks, AfterPrune(left, r, c, e, plan.value, true));
      }
    }

    /** The restore command; the database itself is not part of the disk modelled here. */
    method RunRestore(c: Config, e: RestoreEnv) returns (ok: bool)
      requires Valid() && ConfigOk(c)
      modifies this
      ensures Valid() && trace == old(trace) + RestoreTrace(old(View()), c, e)
      ensures ok <==> MayRestore(old(View()), e) && e.restores
    {
      if !e.recovers {
        return false;
      }
      var rebuild := state.Damaged? || (Read(state).value.name.None? && files != map[]);
      if rebuild && !e.rebuild {
        return false;
      }
      if !Inspects(files, e.name, e.startedAt) || files[e.name].sha != e.sha {
        return false;
      }
      if !rebuild && Read(state).value.instance.Some? && Read(state).value.instance.value != files[e.name].instance {
        return false;
      }
      var s := RestoredState(c, e.name, files[e.name], e.startedAt);
      Save(s);
      var at := Max(e.endedAt, e.startedAt);
      if e.restores {
        Save(s.(successAt := Some(at), errorAt := None, errorStage := None));
        return true;
      }
      Save(Failed(s, at, InRestore));
      return false;
    }

    /** delete-backup-file. */
    method RunDelete(name: Name, sha: nat) returns (ok: bool)
      requires Valid()
      modifies this
      ensures Valid() && trace == old(trace) + DeleteTrace(old(View()), name, sha)
      ensures ok <==> MayDelete(old(View()), name, sha)
    {
      if state.Damaged? || Read(state).value.name == Some(name) {
        return false;
      }
      if name !in files || !(1 <= files[name].size <= MAX_SAFE) || files[name].sha != sha {
        return false;
      }
      Discard(name);
      return true;
    }
  }

  lemma Regroup(a: seq<Disk>, b: seq<Disk>, c: seq<Disk>)
    ensures (a + b) + c == a + (b + c)
  {
  }

  lemma WithoutMore(files: Files, q: seq<Name>, i: nat)
    requires i < |q|
    ensures Without(Without(files, q[..i]), [q[i]]) == Without(files, q[..i + 1])
  {
    assert q[..i + 1] == q[..i] + [q[i]];
  }
}
