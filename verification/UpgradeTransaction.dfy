/**
 * The upgrade transaction: `deploy/upgrade_transaction.py:55-146`, with the activation and the exit trap of
 * `deploy/install.sh:51-63,225-257`.
 *
 * Every durable write is one step. Between any two of them `Pause` lets the running service write, crash and restart,
 * and may end the process there: by a kill, which leaves the probe file, or by a power loss, which does not. `Inv` is
 * asked at every `Pause`, so it holds in every state a crash can leave.
 */
module UpgradeTransaction {
  import opened Wrappers
  import PathTree
  import opened SiteRollback

  datatype Phase = Preparing | Prepared | Committed | RolledBack

  const MANAGED: seq<string> := ["bell-system.service", "bell-update.service", "bell-update.path", "ota_updater.py"]

  function Empty(): Trees {
    PerRoot(PathTree.Bare(), PathTree.Bare(), PathTree.Bare())
  }

  /** What a disk can hold: three directory trees. */
  type Site = trees: Trees | OnDisk(trees) witness Empty()

  /** A checkpoint that verified. */
  type Copy = c: Checkpoint | OnDisk(c.copies) && Verified(c) witness Checkpoint(Empty(), AllFiles(Empty()))

  /** The managed files that exist, with their contents. */
  type ManagedFiles = files: map<string, string> | forall p :: p in files ==> p in MANAGED witness map[]

  /** `transaction.json`: `previous` is the target of `current`, `saved` the managed files as `begin` found them. */
  datatype Record = Record(phase: Phase, previous: string, saved: ManagedFiles)

  /** What survives a power loss, beside the site. */
  datatype Durable = Durable(marker: bool, guard: bool, record: Option<Record>, copy: Option<Copy>,
                             current: string, files: ManagedFiles)

  /** What does not; `wanted` says whether systemd is to keep the service up. */
  datatype Machine = Machine(probe: bool, guardLoaded: bool, wanted: bool, running: bool)

  /** How a step ends: `Error` is a raised exception, `Dead` a process that is no more. */
  datatype Result = Done | Refused | Error | Dead

  // ---------- History, for the claims only ----------

  /**
   * Where the data on disk comes from: `base` as something other than the old release left it, `later` what the old
   * release wrote on top of it since, and `unchecked` what the service wrote since the last check passed.
   */
  datatype Trail = Trail(base: Trees, later: seq<Trees>, unchecked: seq<Trees>)

  /** A site that passed the preservation check, and whether the service was up. */
  datatype Check = Check(site: Trees, up: bool)

  /**
   * The site when the transaction began, and what the old release wrote until it was stopped for the checkpoint; the
   * site when `recover` last restarted the old release; whether the transaction reached `prepared`; and the last
   * preservation check passed since the data was last replaced.
   */
  datatype Past = Past(begun: Trees, early: seq<Trees>, oldStart: Trees, wasPrepared: bool, passed: Option<Check>)

  /** The site the checkpoint was taken of. */
  function AtStop(past: Past): Trees {
    Newest(past.begun, past.early)
  }

  function Newest(base: Trees, later: seq<Trees>): Trees {
    if later == [] then base else later[|later| - 1]
  }

  /** Equality, for values too large to compare part by part. */
  ghost predicate Same<T>(a: T, b: T) { a == b }

  // ---------- The invariant ----------

  /** What the preservation check of a release depends on: whether a database still holds the rows of its copy. */
  type Compatible = (string, string) -> bool

  /** What the helper learns of SQLite: the backup of a database, and whether one still holds the rows of a copy. */
  datatype Databases = Databases(backup: Backup, compatible: Compatible)

  /** The data on disk is `base`, or what the old release wrote on top of it last. */
  ghost predicate DataFrom(base: Trees, trail: Trail, site: Trees) {
    Same(trail.base, base) && Same(site, Newest(base, trail.later))
  }

  /** The old release: its link and its managed files. */
  ghost predicate OldCode(d: Durable) {
    d.record.Some? && d.current == d.record.value.previous && Same(d.files, d.record.value.saved)
  }

  /** The data is what the transaction found, or its checkpoint, or what the old release wrote on top of either. */
  ghost predicate OldData(d: Durable, past: Past, trail: Trail, site: Trees) {
    DataFrom(past.begun, trail, site) || (d.copy.Some? && DataFrom(d.copy.value.copies, trail, site))
  }

  /** Nothing was touched: old link and files, and the data that `begin` found or the old release wrote since. */
  ghost predicate Untouched(d: Durable, past: Past, trail: Trail, site: Trees) {
    OldCode(d) && DataFrom(past.begun, trail, site)
  }

  /** Old link, files and data are in place. */
  ghost predicate Back(d: Durable, past: Past, trail: Trail, site: Trees) {
    OldCode(d) && OldData(d, past, trail, site) && d.record.value.phase != Committed
  }

  /** `recover` ended: if there was a checkpoint, the old release was restarted on exactly it. */
  ghost predicate Recovered(d: Durable, past: Past, trail: Trail, site: Trees) {
    && OldCode(d) && OldData(d, past, trail, site)
    && (past.wasPrepared ==> d.copy.Some? && Same(past.oldStart, d.copy.value.copies))
  }

  /** The data on disk passed the preservation check, or is what the service wrote after that. */
  ghost predicate Passed(check: Check, copy: Option<Copy>, trail: Trail, site: Trees, db: Databases) {
    && copy.Some? && Preserved(check.site, copy.value, db.compatible)
    && Same(site, Newest(check.site, trail.unchecked))
  }

  /** A committed site passed the check while the new release was up. */
  ghost predicate Accepted(d: Durable, past: Past, trail: Trail, site: Trees, db: Databases) {
    past.passed.Some? && past.passed.value.up && Passed(past.passed.value, d.copy, trail, site, db)
  }

  ghost predicate PhaseHolds(d: Durable, past: Past, trail: Trail, site: Trees) {
    && (d.marker ==> d.guard && d.record.Some?)
    && (d.record.Some? ==>
          match d.record.value.phase
          case Preparing => Untouched(d, past, trail, site) && !past.wasPrepared && past.passed.None?
          case Prepared => d.marker && d.copy.Some? && past.wasPrepared
          case Committed => d.guard && d.copy.Some? && past.wasPrepared && past.passed.Some? && past.passed.value.up
          case RolledBack => Recovered(d, past, trail, site))
  }

  /** After a power loss the service is up, or can come up by itself, only once everything is back. */
  ghost predicate GuardHolds(d: Durable, m: Machine, past: Past, trail: Trail, site: Trees, lost: bool) {
    lost ==> d.marker && m.guardLoaded && (m.running || (m.probe && m.wanted) ==> Back(d, past, trail, site))
  }

  /** The checkpoint is one of the stopped site. */
  ghost predicate CopyOfStopped(copy: Option<Copy>, stopped: Trees, db: Databases) {
    && copy.Some? && Checkpointable(stopped, db.backup)
    && SnapshotOf(copy.value.copies, stopped, db.backup)
  }

  /** The site is always accounted for: by `base` and the old release, and by the last check passed. */
  ghost predicate SiteAccounted(d: Durable, past: Past, trail: Trail, site: Trees, db: Databases) {
    && Same(site, Newest(trail.base, trail.later))
    && (past.passed.Some? ==> Passed(past.passed.value, d.copy, trail, site, db))
    && (past.wasPrepared ==> CopyOfStopped(d.copy, AtStop(past), db))
  }

  /** What passed the check keeps what the transaction found on the stopped site. */
  ghost predicate KeptFound(past: Past, db: Databases) {
    past.passed.Some? && KeepsFound(past.passed.value.site, AtStop(past), db.backup, db.compatible)
  }

  ghost predicate Holds(d: Durable, m: Machine, past: Past, trail: Trail, site: Trees, lost: bool,
                        db: Databases) {
    && PhaseHolds(d, past, trail, site) && GuardHolds(d, m, past, trail, site, lost)
    && SiteAccounted(d, past, trail, site, db)
  }

  /** `ExecCondition` of the guard, once systemd has read it. */
  predicate CanStart(d: Durable, m: Machine) {
    !m.guardLoaded || !d.marker || m.probe
  }

  predicate Stopped(m: Machine) {
    !m.running && !m.wanted
  }

  /** A committed upgrade passed the check on data that keeps what the transaction found. */
  lemma CommittedKeepsFound(d: Durable, m: Machine, past: Past, trail: Trail, site: Trees, lost: bool, db: Databases)
    requires Holds(d, m, past, trail, site, lost, db) && d.record.Some? && d.record.value.phase == Committed
    ensures KeptFound(past, db)
  {
    hide Checkpointable, Preserved, KeepsFound;
    PassedKeepsFound(past.passed.value.site, AtStop(past), d.copy.value, db.backup, db.compatible);
  }

  /**
   * With no marker: nothing was touched; or the upgrade is committed, on data that passed the check and keeps what the
   * transaction found; or all is rolled back, to a checkpoint of the stopped site if there was one.
   */
  ghost predicate AtRest(d: Durable, past: Past, trail: Trail, site: Trees, db: Databases) {
    d.record.Some? ==>
      || Untouched(d, past, trail, site)
      || (d.record.value.phase == Committed && Accepted(d, past, trail, site, db) && KeptFound(past, db))
      || (d.record.value.phase == RolledBack && Recovered(d, past, trail, site)
          && (past.wasPrepared ==> CopyOfStopped(d.copy, AtStop(past), db)))
  }

  /** The main claim about a state without the marker. */
  lemma AbsentMarkerMeans(d: Durable, m: Machine, past: Past, trail: Trail, site: Trees, lost: bool, db: Databases)
    requires Holds(d, m, past, trail, site, lost, db) && !d.marker
    ensures AtRest(d, past, trail, site, db)
  {
    hide CopyOfStopped, KeptFound;
    if d.record.Some? && d.record.value.phase == Committed {
      CommittedKeepsFound(d, m, past, trail, site, lost, db);
    }
  }

  /** After a power loss under the marker the service is up only once everything is back. */
  lemma LostMeansBack(d: Durable, m: Machine, past: Past, trail: Trail, site: Trees, lost: bool, db: Databases)
    requires Holds(d, m, past, trail, site, lost, db)
    ensures lost && m.running ==> Back(d, past, trail, site)
  {
    hide Passed, CopyOfStopped;
  }

  // ---------- The world between two steps ----------

  datatype Fate = Lives | Raises | Killed | PowerLost(comesUp: bool)

  /** What the world does in a pause: data the running service writes, whether the service is up, and the fate. */
  datatype Pausing = Pausing(written: Option<Site>, up: bool, fate: Fate)

  /**
   * What the world may do while a command lasts: if `calm`, no process dies, no step raises and the health check
   * answers; the service writes only what `writes` admits.
   */
  datatype Weather = Weather(calm: bool, writes: Trees -> bool)

  /** The service makes no link. */
  ghost predicate Plain(w: Weather) {
    forall site: Trees :: w.writes(site) ==> AllReadable(site)
  }

  lemma PlainWrites(w: Weather, site: Trees)
    ensures Plain(w) && w.writes(site) ==> AllReadable(site)
  {
  }

  ghost predicate AllPlain(runs: seq<Weather>) {
    forall i :: 0 <= i < |runs| ==> Plain(runs[i])
  }

  ghost predicate SomeCalm(runs: seq<Weather>) {
    exists i :: 0 <= i < |runs| && runs[i].calm
  }

  lemma RestOfRuns(runs: seq<Weather>)
    requires runs != []
    ensures AllPlain(runs) ==> Plain(runs[0]) && AllPlain(runs[1..])
    ensures SomeCalm(runs) ==> runs[0].calm || SomeCalm(runs[1..])
  {
    if SomeCalm(runs) && !runs[0].calm {
      var i :| 0 <= i < |runs| && runs[i].calm;
      assert runs[1..][i - 1].calm;
    }
  }

  /** Whatever the service writes passes the check. */
  ghost predicate Keeps(w: Weather, c: Copy, db: Databases) {
    forall site: Trees :: w.writes(site) ==> Preserved(site, c, db.compatible)
  }

  /** Whatever the service writes can be checkpointed. */
  ghost predicate Servable(w: Weather, backup: Backup) {
    forall site: Trees :: w.writes(site) ==> Checkpointable(site, backup)
  }

  function Tempered(p: Pausing, w: Weather): Pausing {
    Pausing(if p.written.Some? && !w.writes(p.written.value) then None else p.written, p.up,
            if w.calm then Lives else p.fate)
  }

  predicate Writes(m: Machine, p: Pausing) {
    m.running && p.written.Some?
  }

  function SiteAfter(m: Machine, site: Site, p: Pausing): Site {
    if Writes(m, p) then p.written.value else site
  }

  function MachineAfter(d: Durable, m: Machine, p: Pausing): Machine {
    if p.fate.PowerLost? then Machine(false, d.guard, true, (!d.guard || !d.marker) && p.fate.comesUp)
    else m.(running := p.up && (m.running || (m.wanted && CanStart(d, m))))
  }

  predicate CandidateIn(d: Durable) {
    d.record.Some? && d.current != d.record.value.previous
  }

  /** What the service writes counts as old data only while the old release runs. */
  function TrailAfter(d: Durable, m: Machine, trail: Trail, p: Pausing): Trail {
    if !Writes(m, p) then trail
    else if CandidateIn(d) then Trail(p.written.value, [], trail.unchecked + [p.written.value])
    else Trail(trail.base, trail.later + [p.written.value], trail.unchecked + [p.written.value])
  }

  function LostAfter(d: Durable, lost: bool, p: Pausing): bool {
    if p.fate.PowerLost? then d.marker else lost
  }

  /** A service write is accounted for. */
  lemma WritingKeepsAccount(d: Durable, m: Machine, past: Past, trail: Trail, site: Site, db: Databases,
                            p: Pausing)
    requires SiteAccounted(d, past, trail, site, db)
    ensures SiteAccounted(d, past, TrailAfter(d, m, trail, p), SiteAfter(m, site, p), db)
  {
  }

  /** While the old release is in, its writes leave the data old. */
  lemma WritingKeepsOrigin(d: Durable, m: Machine, trail: Trail, site: Site, p: Pausing, base: Trees)
    requires DataFrom(base, trail, site) && !CandidateIn(d)
    ensures DataFrom(base, TrailAfter(d, m, trail, p), SiteAfter(m, site, p))
  {
  }

  lemma OldStaysOld(d: Durable, m: Machine, past: Past, trail: Trail, site: Site, p: Pausing)
    requires OldCode(d)
    ensures var after, now := TrailAfter(d, m, trail, p), SiteAfter(m, site, p);
            && (DataFrom(past.begun, trail, site) ==> DataFrom(past.begun, after, now))
            && (OldData(d, past, trail, site) ==> OldData(d, past, after, now))
  {
    if DataFrom(past.begun, trail, site) {
      WritingKeepsOrigin(d, m, trail, site, p, past.begun);
    }
    if d.copy.Some? && DataFrom(d.copy.value.copies, trail, site) {
      WritingKeepsOrigin(d, m, trail, site, p, d.copy.value.copies);
    }
  }

  lemma WritingKeepsPhase(d: Durable, m: Machine, past: Past, trail: Trail, site: Site, p: Pausing)
    requires PhaseHolds(d, past, trail, site)
    ensures PhaseHolds(d, past, TrailAfter(d, m, trail, p), SiteAfter(m, site, p))
  {
    if OldCode(d) {
      OldStaysOld(d, m, past, trail, site, p);
    }
  }

  lemma PauseKeepsGuard(d: Durable, m: Machine, past: Past, trail: Trail, site: Site, lost: bool, p: Pausing)
    requires GuardHolds(d, m, past, trail, site, lost) && PhaseHolds(d, past, trail, site)
    ensures GuardHolds(d, MachineAfter(d, m, p), past, TrailAfter(d, m, trail, p), SiteAfter(m, site, p),
                       LostAfter(d, lost, p))
  {
    if OldCode(d) {
      OldStaysOld(d, m, past, trail, site, p);
    }
  }

  lemma PauseKeeps(d: Durable, m: Machine, past: Past, trail: Trail, site: Site, lost: bool, db: Databases,
                   p: Pausing)
    requires Holds(d, m, past, trail, site, lost, db)
    ensures Holds(d, MachineAfter(d, m, p), past, TrailAfter(d, m, trail, p), SiteAfter(m, site, p),
                  LostAfter(d, lost, p), db)
  {
    WritingKeepsAccount(d, m, past, trail, site, db, p);
    WritingKeepsPhase(d, m, past, trail, site, p);
    PauseKeepsGuard(d, m, past, trail, site, lost, p);
  }

  /** The history once the data on disk has passed the check. */
  function PastChecked(past: Past, site: Trees, up: bool): Past {
    past.(passed := Some(Check(site, up)))
  }

  lemma PassingHolds(d: Durable, m: Machine, past: Past, trail: Trail, site: Site, lost: bool, db: Databases)
    requires Holds(d, m, past, trail, site, lost, db)
    requires d.record.Some? && d.record.value.phase == Prepared
    requires d.copy.Some? && Preserved(site, d.copy.value, db.compatible)
    ensures Holds(d, m, PastChecked(past, site, m.wanted), trail.(unchecked := []), site, lost, db)
  {
    hide Preserved, CopyOfStopped;
  }

  /** The phase as a new record says it. */
  function WithPhase(d: Durable, phase: Phase): Durable
    requires d.record.Some?
  {
    d.(record := Some(d.record.value.(phase := phase)))
  }

  /** What a transaction that is not over has done so far. */
  lemma NotOverMeans(d: Durable, m: Machine, past: Past, trail: Trail, site: Site, lost: bool, db: Databases)
    requires Holds(d, m, past, trail, site, lost, db) && d.record.Some?
    ensures d.record.value.phase == Preparing ==>
              past.passed.None? && !past.wasPrepared && DataFrom(past.begun, trail, site)
    ensures d.record.value.phase == Prepared ==> d.copy.Some?
  {
    hide Passed, CopyOfStopped;
  }

  /** systemd reads the guard. */
  lemma GuardMayLoad(d: Durable, m: Machine, past: Past, trail: Trail, site: Site, lost: bool, db: Databases)
    requires Holds(d, m, past, trail, site, lost, db) && (lost ==> d.guard)
    ensures Holds(d, m.(guardLoaded := d.guard), past, trail, site, lost, db)
  {
    hide Passed, CopyOfStopped;
  }

  /** A new transaction may be recorded where no marker is. */
  lemma RecordMayCome(d: Durable, m: Machine, past: Past, trail: Trail, site: Site, lost: bool, db: Databases)
    requires Holds(d, m, past, trail, site, lost, db) && !d.marker
    ensures Holds(d.(record := Some(Record(Preparing, d.current, d.files)), copy := None), m,
                  Past(site, [], past.oldStart, false, None), Trail(site, [], []), site, lost, db)
  {
    hide Passed, CopyOfStopped;
  }

  lemma GuardMayCome(d: Durable, m: Machine, past: Past, trail: Trail, site: Site, lost: bool, db: Databases)
    requires Holds(d, m, past, trail, site, lost, db) && !d.marker
    ensures Holds(d.(guard := true), m, past, trail, site, lost, db)
  {
    hide Passed, CopyOfStopped;
  }

  lemma MarkerMayCome(d: Durable, m: Machine, past: Past, trail: Trail, site: Site, lost: bool, db: Databases)
    requires Holds(d, m, past, trail, site, lost, db) && !d.marker && d.guard && d.record.Some?
    ensures Holds(d.(marker := true), m, past, trail, site, lost, db) && !lost
  {
    hide Passed, CopyOfStopped;
  }

  /** While the service is stopped, link and files of a prepared transaction may change. */
  lemma CodeMayChange(d: Durable, m: Machine, past: Past, trail: Trail, site: Site, lost: bool, db: Databases,
                      files: ManagedFiles, link: string)
    requires Holds(d, m, past, trail, site, lost, db) && Stopped(m)
    requires d.record.Some? && d.record.value.phase == Prepared
    ensures Holds(d.(files := files, current := link), m, past, trail, site, lost, db)
  {
    hide Passed, CopyOfStopped;
  }

  lemma LinkMayGoBack(d: Durable, m: Machine, past: Past, trail: Trail, site: Site, lost: bool, db: Databases)
    requires Holds(d, m, past, trail, site, lost, db) && Stopped(m) && d.record.Some?
    requires d.record.value.phase == Prepared || d.record.value.phase == Preparing
    ensures Holds(d.(current := d.record.value.previous), m, past, trail, site, lost, db)
  {
    hide Passed, CopyOfStopped;
  }

  /** Before the transaction is prepared its checkpoint may come. */
  lemma CopyMayCome(d: Durable, m: Machine, past: Past, trail: Trail, site: Site, lost: bool, db: Databases, c: Copy)
    requires Holds(d, m, past, trail, site, lost, db) && Stopped(m)
    requires d.record.Some? && d.record.value.phase == Preparing
    ensures Holds(d.(copy := Some(c)), m, past, trail, site, lost, db)
  {
    hide Passed, CopyOfStopped;
  }

  /** Once the checkpoint of the stopped site is there the transaction is prepared. */
  lemma MayPrepare(d: Durable, m: Machine, past: Past, trail: Trail, site: Site, lost: bool, db: Databases)
    requires Holds(d, m, past, trail, site, lost, db) && d.marker
    requires d.record.Some? && d.record.value.phase == Preparing && d.copy.Some?
    requires Checkpointable(site, db.backup) && SnapshotOf(d.copy.value.copies, site, db.backup)
    ensures var after := past.(wasPrepared := true, early := trail.later);
            && Same(AtStop(after), site)
            && (Stopped(m) ==> Holds(WithPhase(d, Prepared), m, after, trail, site, lost, db))
  {
    hide Checkpointable, SnapshotOf, Passed;
  }

  /** Once the check has passed with the service up the transaction may be committed. */
  lemma MayCommit(d: Durable, m: Machine, past: Past, trail: Trail, site: Site, lost: bool, db: Databases)
    requires Holds(d, m, past, trail, site, lost, db) && !lost
    requires d.record.Some? && d.record.value.phase == Prepared && d.copy.Some?
    requires past.passed.Some? && past.passed.value.up
    ensures Holds(WithPhase(d, Committed), m, past, trail, site, lost, db)
  {
  }

  /** A committed transaction may be marked, and then be prepared again. */
  lemma MayReopen(d: Durable, m: Machine, past: Past, trail: Trail, site: Site, lost: bool, db: Databases)
    requires Holds(d, m, past, trail, site, lost, db)
    requires d.record.Some? && d.record.value.phase == Committed
    ensures Holds(d.(marker := true), m, past, trail, site, lost, db)
    ensures d.marker ==> Holds(WithPhase(d, Prepared), m, past, trail, site, lost, db)
  {
  }

  lemma MarkerMayGo(d: Durable, m: Machine, past: Past, trail: Trail, site: Site, lost: bool, db: Databases)
    requires Holds(d, m, past, trail, site, lost, db)
    requires d.record.Some? && (d.record.value.phase == Committed || d.record.value.phase == RolledBack)
    ensures Holds(d.(marker := false), m, past, trail, site, false, db)
  {
  }

  /** With no marker the service may come up. */
  lemma MayStart(d: Durable, m: Machine, past: Past, trail: Trail, site: Site, lost: bool, db: Databases)
    requires Holds(d, m, past, trail, site, lost, db) && !d.marker
    ensures Holds(d, m.(wanted := true, running := true), past, trail, site, lost, db)
  {
  }

  /** Once everything is back the old release may come up. */
  lemma OldMayStart(d: Durable, m: Machine, past: Past, trail: Trail, site: Site, lost: bool, db: Databases)
    requires Holds(d, m, past, trail, site, lost, db) && Back(d, past, trail, site)
    requires d.record.value.phase == Prepared || d.record.value.phase == Preparing
    ensures Holds(d, m.(wanted := true, running := true), past.(oldStart := site), trail, site, lost, db)
  {
  }

  /** What the old release, restarted on everything old, wrote since leaves the data old. */
  lemma RestartedOnOld(d: Durable, m: Machine, past: Past, trail: Trail, site: Site, lost: bool, db: Databases,
                       before: Past, was: Trail, had: Site)
    requires Holds(d, m, past, trail, site, lost, db) && Back(d, before, was, had)
    requires Same(past.begun, before.begun) && Same(trail.base, was.base)
    requires past.wasPrepared ==> d.copy.Some? && Same(past.oldStart, d.copy.value.copies)
    ensures Recovered(d, past, trail, site)
  {
    hide Passed, CopyOfStopped;
  }

  /** With everything old back the probe may come. */
  lemma ProbeMayCome(d: Durable, m: Machine, past: Past, trail: Trail, site: Site, lost: bool, db: Databases)
    requires Holds(d, m, past, trail, site, lost, db) && Back(d, past, trail, site)
    ensures Holds(d, m.(probe := true), past, trail, site, lost, db)
  {
    hide Passed, CopyOfStopped;
  }

  /** While the service is stopped the data may be replaced. */
  lemma DataMayBeReplaced(d: Durable, m: Machine, past: Past, trail: Trail, site: Site, lost: bool,
                          db: Databases, after: Site)
    requires Holds(d, m, past, trail, site, lost, db) && Stopped(m)
    requires d.record.Some? && d.record.value.phase == Prepared
    ensures Holds(d, m, past.(passed := None), Trail(after, [], trail.unchecked), after, lost, db)
  {
  }

  /** While the service is stopped the managed files may go back. */
  lemma FilesMayGoBack(d: Durable, m: Machine, past: Past, trail: Trail, site: Site, lost: bool,
                       db: Databases, i: nat)
    requires Holds(d, m, past, trail, site, lost, db) && Stopped(m) && d.record.Some? && i < |MANAGED|
    requires d.record.value.phase == Prepared || d.record.value.phase == Preparing
    requires Agree(d.files, d.record.value.saved, i)
    ensures forall p :: p in PutBack(d.files, d.record.value.saved, MANAGED[i]) ==> p in MANAGED
    ensures Agree(PutBack(d.files, d.record.value.saved, MANAGED[i]), d.record.value.saved, i + 1)
    ensures Holds(d.(files := PutBack(d.files, d.record.value.saved, MANAGED[i])), m, past, trail, site, lost,
                  db)
  {
    PutBackAgrees(d.files, d.record.value.saved, i);
  }

  /** A power loss while the marker is there: the service is down, and the guard keeps it down. */
  lemma PowerLossGuards(d: Durable, m: Machine, past: Past, trail: Trail, site: Site, lost: bool,
                        db: Databases, p: Pausing)
    requires Holds(d, m, past, trail, site, lost, db) && d.marker && p.fate.PowerLost?
    ensures LostAfter(d, lost, p) && !MachineAfter(d, m, p).running && !CanStart(d, MachineAfter(d, m, p))
  {
  }

  /** A service that is wanted comes up exactly if no loaded guard meets a marker without a probe. */
  lemma GuardDecides(d: Durable, m: Machine, p: Pausing)
    requires m.wanted && !m.running && p.up && !p.fate.PowerLost?
    ensures MachineAfter(d, m, p).running <==> !m.guardLoaded || !d.marker || m.probe
  {
  }

  // ---------- The managed files ----------

  /** One `install` of the activation. */
  function PutNew(files: ManagedFiles, install: map<string, string>, n: nat): ManagedFiles
    requires n < |MANAGED|
  {
    if MANAGED[n] in install then files[MANAGED[n] := install[MANAGED[n]]] else files
  }

  /** The files after `n` of them. */
  function PutAll(files: ManagedFiles, install: map<string, string>, n: nat): ManagedFiles
    requires n <= |MANAGED|
  {
    if n == 0 then files else PutNew(PutAll(files, install, n - 1), install, n - 1)
  }

  /** Together they leave the new release's files, and each other managed file as it was. */
  lemma {:induction false} PutAllMeans(files: ManagedFiles, install: map<string, string>, n: nat, p: string)
    requires n <= |MANAGED|
    ensures p in install && p in MANAGED[..n] ==>
              p in PutAll(files, install, n) && PutAll(files, install, n)[p] == install[p]
    ensures !(p in install && p in MANAGED[..n]) ==>
              && (p in PutAll(files, install, n) <==> p in files)
              && (p in files ==> PutAll(files, install, n)[p] == files[p])
  {
    if n > 0 {
      PutAllMeans(files, install, n - 1, p);
      assert MANAGED[..n] == MANAGED[..n - 1] + [MANAGED[n - 1]];
    }
  }

  lemma PutAllStep(files: ManagedFiles, before: ManagedFiles, install: map<string, string>, n: nat)
    requires n < |MANAGED| && Same(files, PutAll(before, install, n))
    ensures Same(PutNew(files, install, n), PutAll(before, install, n + 1))
  {
  }

  /** One turn of the loop that puts the managed files back. */
  function PutBack(files: ManagedFiles, saved: ManagedFiles, p: string): map<string, string> {
    if p in saved then files[p := saved[p]] else files - {p}
  }

  ghost predicate Agree(files: ManagedFiles, saved: ManagedFiles, n: nat)
    requires n <= |MANAGED|
  {
    forall i :: 0 <= i < n ==>
      (MANAGED[i] in files <==> MANAGED[i] in saved) && (MANAGED[i] in saved ==> files[MANAGED[i]] == saved[MANAGED[i]])
  }

  lemma PutBackAgrees(files: ManagedFiles, saved: ManagedFiles, n: nat)
    requires n < |MANAGED| && Agree(files, saved, n)
    ensures forall p :: p in PutBack(files, saved, MANAGED[n]) ==> p in MANAGED
    ensures Agree(PutBack(files, saved, MANAGED[n]), saved, n + 1)
    ensures Same(files, saved) ==> Same(PutBack(files, saved, MANAGED[n]), saved)
  {
    if files == saved {
      assert PutBack(files, saved, MANAGED[n]) == saved;
    }
  }

  lemma AgreeMeansSame(files: ManagedFiles, saved: ManagedFiles)
    requires Agree(files, saved, |MANAGED|)
    ensures Same(files, saved)
  {
    forall p | p in MANAGED ensures (p in files <==> p in saved) && (p in saved ==> files[p] == saved[p]) {
      var i :| 0 <= i < |MANAGED| && MANAGED[i] == p;
    }
    assert files == saved;
  }

  /** The helper's `checkpoint`, run as a command. */
  method CopySite(site: Site, backup: Backup, calm: bool) returns (result: Result, c: Copy)
    ensures result != Refused
    ensures result == Done ==> Checkpointable(site, backup) && SnapshotOf(c.copies, site, backup)
    ensures calm ==> (result == Done <==> Checkpointable(site, backup)) && result != Dead
  {
    var data := new SiteData(site);
    var outcome, taken := data.TakeCheckpoint(backup, calm);
    if outcome == Completed {
      SnapshotOfExactly(taken.copies, site, backup);
      return Done, taken;
    }
    c := Checkpoint(Empty(), AllFiles(Empty()));
    var alone: bool := *;         // the helper may be killed with its caller, or alone
    result := if outcome == SiteRollback.Killed && !alone then Dead else Error;
  }

  /** The helper's `rollback`, run as a command; what it leaves is `after`. */
  method RollbackSite(site: Site, c: Copy, calm: bool) returns (result: Result, after: Site)
    ensures result != Refused
    ensures AllReadable(site) ==> AllReadable(after)
    ensures result == Done ==> AllReadable(site) && Same(after, c.copies)
    ensures calm ==> (result == Done <==> AllReadable(site)) && result != Dead
  {
    var data := new SiteData(site);
    var outcome := data.Rollback(c, calm);
    after := data.Now();
    var alone: bool := *;
    result := if outcome == Completed then Done else if outcome == SiteRollback.Killed && !alone then Dead else Error;
  }

  class Appliance {
    var disk: Durable
    var site: Site
    var machine: Machine
    const db: Databases
    ghost var past: Past
    ghost var trail: Trail
    ghost var lost: bool        // the power went while this marker was there

    ghost predicate Inv()
      reads this
    {
      Holds(disk, machine, past, trail, site, lost, db)
    }

    constructor (link: string, installed: ManagedFiles, data: Site, db: Databases)
      ensures Inv() && disk == Durable(false, false, None, None, link, installed) && site == data
      ensures this.db == db
    {
      disk, site := Durable(false, false, None, None, link, installed), data;
      machine := Machine(false, false, true, true);
      this.db := db;
      past, trail, lost := Past(data, [], data, false, None), Trail(data, [], []), false;
    }

    method Pause(w: Weather) returns (result: Result, ghost p: Pausing)
      requires Inv()
      modifies `site, `machine, `trail, `lost
      ensures Inv()
      ensures site == SiteAfter(old(machine), old(site), p) && machine == MachineAfter(disk, old(machine), p)
      ensures trail == TrailAfter(disk, old(machine), old(trail), p) && lost == LostAfter(disk, old(lost), p)
      ensures result == match p.fate case Lives => Done case Raises => Error case _ => Dead
      ensures w.calm ==> p.fate == Lives
      ensures p.written.Some? ==> w.writes(p.written.value)
    {
      hide Holds;
      var any: Pausing := *;
      var happens := Tempered(any, w);
      p := happens;
      PauseKeeps(disk, machine, past, trail, site, lost, db, happens);
      trail, lost := TrailAfter(disk, machine, trail, happens), LostAfter(disk, lost, happens);
      site, machine := SiteAfter(machine, site, happens), MachineAfter(disk, machine, happens);
      result := match happens.fate case Lives => Done case Raises => Error case _ => Dead;
    }

    /** A step has been made: time passes, and the process goes on, raises, or dies. */
    method Passes(w: Weather) returns (result: Result)
      requires Inv()
      modifies `site, `machine, `trail, `lost
      ensures Inv() && result != Refused && (w.calm ==> result == Done)
      ensures result == Done ==> machine == old(machine).(running := machine.running) && lost == old(lost)
      ensures Stopped(old(machine)) ==> Same(site, old(site)) && Same(trail, old(trail))
      ensures Stopped(old(machine)) && result == Done ==> machine == old(machine)
      ensures Same(site, old(site)) || w.writes(site)
      ensures !CandidateIn(disk) ==> Same(trail.base, old(trail).base)
    {
      var r, p := Pause(w);
      result := r;
    }

    // ---------- begin ----------

    /** The record names the link and the files of `before`, and the data the transaction found is `found`. */
    ghost predicate Records(before: Durable, found: Trees)
      reads this
    {
      && disk.record.Some?
      && disk.record.value.previous == before.current && Same(disk.record.value.saved, before.files)
      && Same(past.begun, found)
    }

    /** The record, the guard and the marker, in that order; nothing of the site is touched. */
    method Announce(w: Weather) returns (result: Result)
      requires Inv() && !disk.marker
      modifies this
      ensures Inv() && result != Refused && (w.calm ==> result == Done)
      ensures Records(old(disk), old(site)) && disk.record.value.phase == Preparing
      ensures Same(site, old(site)) || w.writes(site)
      ensures result == Done ==> disk.guard && disk.marker && machine.guardLoaded && !lost
    {
      result := OpenRecord(w);
      if result != Done { return; }
      result := WriteGuard(w);
      if result != Done { return; }
      result := WriteMarker(w);
      if result != Done { return; }
      result := Reload(w);
    }

    method OpenRecord(w: Weather) returns (result: Result)
      requires Inv() && !disk.marker
      modifies this
      ensures Inv() && result != Refused && (w.calm ==> result == Done)
      ensures Records(old(disk), old(site)) && disk.record.value.phase == Preparing && !disk.marker
      ensures Same(site, old(site)) || w.writes(site)
    {
      hide Holds;
      RecordMayCome(disk, machine, past, trail, site, lost, db);
      disk := disk.(record := Some(Record(Preparing, disk.current, disk.files)), copy := None);
      past, trail := Past(site, [], past.oldStart, false, None), Trail(site, [], []);
      result := Passes(w);
    }

    method WriteGuard(w: Weather) returns (result: Result)
      requires Inv() && !disk.marker
      modifies `disk, `site, `machine, `trail, `lost
      ensures Inv() && result != Refused && (w.calm ==> result == Done)
      ensures Same(disk, old(disk).(guard := true))
      ensures Same(site, old(site)) || w.writes(site)
    {
      hide Holds;
      GuardMayCome(disk, machine, past, trail, site, lost, db);
      disk := disk.(guard := true);
      result := Passes(w);
    }

    method WriteMarker(w: Weather) returns (result: Result)
      requires Inv() && !disk.marker && disk.guard && disk.record.Some?
      modifies `disk, `site, `machine, `trail, `lost
      ensures Inv() && result != Refused && (w.calm ==> result == Done)
      ensures Same(disk, old(disk).(marker := true))
      ensures Same(site, old(site)) || w.writes(site)
      ensures result == Done ==> !lost
    {
      hide Holds;
      MarkerMayCome(disk, machine, past, trail, site, lost, db);
      disk := disk.(marker := true);
      result := Passes(w);
    }

    /** `daemon-reload`. */
    method Reload(w: Weather) returns (result: Result)
      requires Inv() && (lost ==> disk.guard)
      modifies `site, `machine, `trail, `lost
      ensures Inv() && result != Refused && (w.calm ==> result == Done)
      ensures Same(site, old(site)) || w.writes(site)
      ensures result == Done ==>
                machine == old(machine).(guardLoaded := disk.guard, running := machine.running) && lost == old(lost)
      ensures Stopped(old(machine)) ==> Same(site, old(site)) && Same(trail, old(trail))
      ensures Stopped(old(machine)) && result == Done ==> Stopped(machine)
      ensures !CandidateIn(disk) ==> Same(trail.base, old(trail).base)
    {
      hide Holds;
      GuardMayLoad(disk, machine, past, trail, site, lost, db);
      machine := machine.(guardLoaded := disk.guard);
      result := Passes(w);
    }

    /**
     * `begin`; refused before any write if a marker is there or the maintenance window is closed. It changes no data;
     * left alone it completes on every site that can be checkpointed.
     */
    method Begin(windowOpen: bool, w: Weather) returns (result: Result)
      requires Inv()
      modifies this
      ensures Inv()
      ensures result == Refused <==> old(disk).marker || !windowOpen
      ensures result == Refused ==> disk == old(disk) && site == old(site) && machine == old(machine)
      ensures result != Refused ==> Records(old(disk), old(site))
      ensures Same(site, old(site)) || w.writes(site)
      ensures result == Done ==> InSession() && OldCode(disk) && DataFrom(old(site), trail, site) && AllReadable(site)
      ensures result == Done ==> SnapshotOf(disk.copy.value.copies, site, db.backup) && past.wasPrepared
      ensures result != Refused && past.wasPrepared ==> Same(AtStop(past), old(site)) || w.writes(AtStop(past))
      ensures w.calm && result != Refused ==>
                result != Dead && (result == Error ==> disk.record.value.phase == Preparing)
      ensures w.calm && result != Refused && Checkpointable(old(site), db.backup) && Servable(w, db.backup) ==>
                result == Done
    {
      if disk.marker || !windowOpen {
        return Refused;
      }
      result := Announce(w);
      if result != Done { return; }
      result := Stop(w);
      if result != Done { return; }
      result := Prepare(w);
    }

    /** `systemctl stop`. */
    method Stop(w: Weather) returns (result: Result)
      requires Inv()
      modifies `site, `machine, `trail, `lost
      ensures Inv() && result != Refused && (w.calm ==> result == Done)
      ensures Same(site, old(site)) && Same(trail, old(trail))
      ensures result == Done ==> machine == old(machine).(wanted := false, running := false) && lost == old(lost)
    {
      machine := machine.(wanted := false, running := false);
      result := Passes(w);
    }

    /** The checkpoint, and only then the phase. */
    method Prepare(w: Weather) returns (result: Result)
      requires Inv() && Stopped(machine) && machine.guardLoaded && disk.marker && !lost
      requires disk.record.Some? && disk.record.value.phase == Preparing
      modifies this
      ensures Inv() && result != Refused
      ensures Same(disk, old(disk).(copy := disk.copy, record := disk.record))
      ensures disk.record == Some(old(disk).record.value.(phase := disk.record.value.phase))
      ensures Same(past, old(past).(wasPrepared := past.wasPrepared, early := past.early))
      ensures past.wasPrepared ==> Same(AtStop(past), site)
      ensures Same(site, old(site)) && Same(trail, old(trail))
      ensures result == Done ==>
                InSession() && SnapshotOf(disk.copy.value.copies, site, db.backup) && AllReadable(site)
      ensures w.calm ==> result != Dead && (result == Done <==> Checkpointable(site, db.backup))
      ensures w.calm && result == Error ==> disk.record.value.phase == Preparing
    {
      result := TakeCopy(w);
      if result != Done { return; }
      result := EnterPrepared(w);
    }

    method EnterPrepared(w: Weather) returns (result: Result)
      requires Inv() && Stopped(machine) && disk.marker && disk.copy.Some?
      requires disk.record.Some? && disk.record.value.phase == Preparing
      requires Checkpointable(site, db.backup) && SnapshotOf(disk.copy.value.copies, site, db.backup)
      modifies this
      ensures Inv() && result != Refused && (w.calm ==> result == Done)
      ensures Same(disk, WithPhase(old(disk), Prepared))
      ensures Same(past, old(past).(wasPrepared := true, early := old(trail).later)) && Same(AtStop(past), site)
      ensures Same(site, old(site)) && Same(trail, old(trail))
      ensures result == Done ==> machine == old(machine) && lost == old(lost)
    {
      hide Holds, Checkpointable, SnapshotOf;
      MayPrepare(disk, machine, past, trail, site, lost, db);
      disk := WithPhase(disk, Prepared);
      past := past.(wasPrepared := true, early := trail.later);
      result := Passes(w);
    }

    /** The checkpoint of the stopped site. */
    method TakeCopy(w: Weather) returns (result: Result)
      requires Inv() && Stopped(machine) && disk.record.Some? && disk.record.value.phase == Preparing
      modifies `disk, `site, `machine, `trail, `lost
      ensures Inv() && result != Refused && Same(disk, old(disk).(copy := disk.copy))
      ensures Same(site, old(site)) && Same(trail, old(trail))
      ensures result == Done ==> machine == old(machine) && lost == old(lost)
      ensures result == Done ==>
                && disk.copy.Some? && Checkpointable(site, db.backup)
                && SnapshotOf(disk.copy.value.copies, site, db.backup)
      ensures w.calm ==> result != Dead && (result == Done <==> Checkpointable(site, db.backup))
    {
      var c;
      result, c := CopySite(site, db.backup, w.calm);
      if result == Dead {
        var r := Passes(w);
      }
      if result == Done {
        result := SaveCopy(c, w);
      }
    }

    method SaveCopy(c: Copy, w: Weather) returns (result: Result)
      requires Inv() && Stopped(machine) && disk.record.Some? && disk.record.value.phase == Preparing
      modifies `disk, `site, `machine, `trail, `lost
      ensures Inv() && result != Refused && (w.calm ==> result == Done) && Same(disk, old(disk).(copy := Some(c)))
      ensures Same(site, old(site)) && Same(trail, old(trail))
      ensures result == Done ==> machine == old(machine) && lost == old(lost)
    {
      hide Holds;
      CopyMayCome(disk, machine, past, trail, site, lost, db, c);
      disk := disk.(copy := Some(c));
      result := Passes(w);
    }

    /** Between `begin` and `finish` of one installer: prepared, stopped, and no power loss so far. */
    ghost predicate InSession()
      reads this
    {
      && disk.record.Some? && disk.record.value.phase == Prepared && disk.copy.Some?
      && Stopped(machine) && machine.guardLoaded && !lost
    }

    // ---------- activation ----------

    /** `verify`, on the data as it is now; what passed is remembered. */
    method Verify() returns (ok: bool)
      requires Inv() && disk.record.Some? && disk.record.value.phase == Prepared && disk.copy.Some?
      modifies `past, `trail
      ensures Inv()
      ensures ok <==> Preserved(site, disk.copy.value, db.compatible)
      ensures Same(past, if ok then PastChecked(old(past), site, machine.wanted) else old(past))
      ensures Same(trail, if ok then old(trail).(unchecked := []) else old(trail))
    {
      hide Holds, Preserved, Checkpointable;
      ok := Preserved(site, disk.copy.value, db.compatible);
      if ok {
        PassingHolds(disk, machine, past, trail, site, lost, db);
        past, trail := PastChecked(past, site, machine.wanted), trail.(unchecked := []);
      }
    }

    /** The steps of the installer that put the new release in place, once the data has passed the check. */
    method Activate(link: string, install: map<string, string>, w: Weather) returns (result: Result)
      requires Inv() && InSession()
      modifies this
      ensures Inv() && result != Refused
      ensures Same(disk, old(disk).(files := disk.files, current := disk.current))
      ensures Same(past, old(past).(passed := past.passed))
      ensures Same(site, old(site)) && Same(trail, old(trail).(unchecked := trail.unchecked))
      ensures !Preserved(site, disk.copy.value, db.compatible) ==> result != Done && disk == old(disk)
      ensures w.calm ==> (result == Done <==> Preserved(site, disk.copy.value, db.compatible)) && result != Dead
      ensures result == Done ==> InSession() && disk.current == link
      ensures result == Done ==> Same(disk.files, PutAll(old(disk).files, install, |MANAGED|))
    {
      hide Passed, CopyOfStopped;
      result := Passes(w);         // the staged code validates the configuration
      if result != Done { return; }
      var ok := Verify();
      if !ok {
        return Error;
      }
      result := InstallFiles(install, w);
      if result != Done { return; }
      result := SwitchLink(link, w);
      if result != Done { return; }
      result := Reload(w);
    }

    method InstallFiles(install: map<string, string>, w: Weather) returns (result: Result)
      requires Inv() && InSession() && Preserved(site, disk.copy.value, db.compatible)
      modifies `disk, `site, `machine, `trail, `lost
      ensures Inv() && result != Refused && (w.calm ==> result == Done)
      ensures Same(disk, old(disk).(files := disk.files))
      ensures Same(site, old(site)) && Same(trail, old(trail))
      ensures result == Done ==>
                machine == old(machine) && !lost && Same(disk.files, PutAll(old(disk).files, install, |MANAGED|))
    {
      hide Holds, Preserved;
      ghost var before := disk.files;
      result := InstallOne(install, 0, before, w);
      if result != Done { return; }
      result := InstallOne(install, 1, before, w);
      if result != Done { return; }
      result := InstallOne(install, 2, before, w);
      if result != Done { return; }
      result := InstallOne(install, 3, before, w);
    }

    method InstallOne(install: map<string, string>, i: nat, ghost before: ManagedFiles, w: Weather)
      returns (result: Result)
      requires Inv() && InSession() && i < |MANAGED| && Same(disk.files, PutAll(before, install, i))
      modifies `disk, `site, `machine, `trail, `lost
      ensures Inv() && result != Refused && (w.calm ==> result == Done)
      ensures Same(disk, old(disk).(files := disk.files)) && Same(disk.files, PutAll(before, install, i + 1))
      ensures Same(site, old(site)) && Same(trail, old(trail))
      ensures result == Done ==> machine == old(machine) && !lost
    {
      hide Holds, PutNew, PutAll;
      PutAllStep(disk.files, before, install, i);
      CodeMayChange(disk, machine, past, trail, site, lost, db, PutNew(disk.files, install, i), disk.current);
      disk := disk.(files := PutNew(disk.files, install, i));
      result := Passes(w);
    }

    method SwitchLink(link: string, w: Weather) returns (result: Result)
      requires Inv() && Stopped(machine) && disk.record.Some? && disk.record.value.phase == Prepared
      modifies `disk, `site, `machine, `trail, `lost
      ensures Inv() && result != Refused && (w.calm ==> result == Done)
      ensures Same(disk, old(disk).(current := link))
      ensures Same(site, old(site)) && Same(trail, old(trail))
      ensures result == Done ==> machine == old(machine) && lost == old(lost)
    {
      hide Holds;
      CodeMayChange(disk, machine, past, trail, site, lost, db, disk.files, link);
      disk := disk.(current := link);
      result := Passes(w);
    }

    // ---------- finish ----------

    /**
     * `finish`, in the session of its installer: committed only after the data passed the check with the new release
     * up. Left alone it commits whenever all that the release writes passes.
     */
    method Finish(w: Weather) returns (result: Result)
      requires Inv() && InSession()
      modifies this
      ensures Inv() && result != Refused
      ensures Same(disk, old(disk).(marker := disk.marker, record := disk.record))
      ensures disk.record.Some? && disk.record == Some(old(disk).record.value.(phase := disk.record.value.phase))
      ensures Same(past, old(past).(passed := past.passed))
      ensures Same(site, old(site)) || w.writes(site)
      ensures disk.record.value.phase == Committed ==> Accepted(disk, past, trail, site, db)
      ensures result == Done ==>
                disk.record.value.phase == Committed && !disk.marker && !machine.probe && machine.wanted
      ensures w.calm ==> result != Dead
      ensures w.calm && Keeps(w, disk.copy.value, db) && Preserved(old(site), disk.copy.value, db.compatible) ==>
                result == Done
    {
      hide Passed, CopyOfStopped;
      result := StartNew(w);
      if result != Done { return; }
      var ok := Verify();
      if !ok {
        return Error;
      }
      result := Passes(w);        // the service writes on while the phase is saved
      if result != Done { return; }
      result := Commit(w);
      if result != Done { return; }
      result := Clear(w);
    }

    /** The probe, the reload and the restart of the new release, until the health check answers. */
    method StartNew(w: Weather) returns (result: Result)
      requires Inv() && InSession()
      modifies `site, `machine, `trail, `lost
      ensures Inv() && result != Refused && (w.calm ==> result == Done)
      ensures Same(site, old(site)) || w.writes(site)
      ensures result == Done ==> machine.wanted && machine.probe && !lost
    {
      hide Passed, CopyOfStopped;
      machine := machine.(probe := true);
      result := Passes(w);
      if result != Done { return; }
      result := Reload(w);
      if result != Done { return; }
      machine := machine.(wanted := true, running := true);
      result := Passes(w);
    }

    /** The commit asks for a check passed while the service was up; what was written since is accounted for. */
    method Commit(w: Weather) returns (result: Result)
      requires Inv() && disk.record.Some? && disk.record.value.phase == Prepared && disk.copy.Some? && !lost
      requires past.passed.Some? && past.passed.value.up
      modifies `disk, `site, `machine, `trail, `lost
      ensures Inv() && result != Refused && (w.calm ==> result == Done)
      ensures Same(disk, WithPhase(old(disk), Committed))
      ensures Same(site, old(site)) || w.writes(site)
      ensures result == Done ==> machine == old(machine).(running := machine.running) && lost == old(lost)
    {
      hide Holds;
      MayCommit(disk, machine, past, trail, site, lost, db);
      disk := WithPhase(disk, Committed);
      result := Passes(w);
    }

    /** The end of `finish` and `recover`: marker, probe, reload. */
    method Clear(w: Weather) returns (result: Result)
      requires Inv() && disk.record.Some?
      requires disk.record.value.phase == Committed || disk.record.value.phase == RolledBack
      modifies `disk, `site, `machine, `trail, `lost
      ensures Inv() && result != Refused && (w.calm ==> result == Done)
      ensures Same(disk, old(disk).(marker := false))
      ensures Same(site, old(site)) || w.writes(site)
      ensures result == Done ==> !machine.probe && machine.wanted == old(machine).wanted
    {
      hide Passed, CopyOfStopped;
      result := Unmark(w);
      if result != Done { return; }
      result := RemoveProbe(w);
      if result != Done { return; }
      result := Reload(w);
    }

    method RemoveProbe(w: Weather) returns (result: Result)
      requires Inv()
      modifies `site, `machine, `trail, `lost
      ensures Inv() && result != Refused && (w.calm ==> result == Done)
      ensures Same(site, old(site)) || w.writes(site)
      ensures result == Done ==>
                machine == old(machine).(probe := false, running := machine.running) && lost == old(lost)
    {
      machine := machine.(probe := false);
      result := Passes(w);
    }

    method Unmark(w: Weather) returns (result: Result)
      requires Inv() && disk.record.Some?
      requires disk.record.value.phase == Committed || disk.record.value.phase == RolledBack
      modifies `disk, `site, `machine, `trail, `lost
      ensures Inv() && result != Refused && (w.calm ==> result == Done)
      ensures Same(disk, old(disk).(marker := false))
      ensures Same(site, old(site)) || w.writes(site)
      ensures result == Done ==> machine == old(machine).(running := machine.running) && !lost
    {
      hide Holds;
      MarkerMayGo(disk, machine, past, trail, site, lost, db);
      disk, lost := disk.(marker := false), false;
      result := Passes(w);
    }

    // ---------- recover ----------

    /** Where the transaction came from is not forgotten. */
    ghost predicate SameOrigin(before: Past)
      reads this
    {
      Same(past.begun, before.begun) && Same(past.early, before.early) && past.wasPrepared == before.wasPrepared
    }

    /** What every run of `recover` keeps, however it ends. */
    ghost predicate SameTransaction(before: Durable)
      reads this
    {
      && before.record.Some? && disk.record.Some? && disk.copy == before.copy
      && disk.record == Some(before.record.value.(phase := disk.record.value.phase))
      && (disk.record.value.phase == Committed ==> before.record.value.phase == Committed)
    }

    /** The data, while the service is stopped; left alone it goes through exactly if the site has no link. */
    method PutDataBack(w: Weather) returns (result: Result)
      requires Inv() && Stopped(machine) && disk.record.Some? && disk.record.value.phase == Prepared
      modifies `site, `machine, `trail, `lost, `past
      ensures Inv() && result != Refused && Same(past, old(past).(passed := None))
      ensures AllReadable(old(site)) ==> AllReadable(site)
      ensures w.calm ==> (result == Done <==> AllReadable(old(site))) && result != Dead
      ensures result == Done ==> machine == old(machine) && lost == old(lost) && AllReadable(old(site))
      ensures result == Done ==> disk.copy.Some? && Same(site, disk.copy.value.copies) && DataFrom(site, trail, site)
    {
      var ends, after := RollbackSite(site, disk.copy.value, w.calm);
      var lives := ReplaceData(after, w);
      result := if ends == Dead || lives == Dead then Dead else if ends == Done then lives else ends;
    }

    /** The data is what the helper left; time passes. */
    method ReplaceData(after: Site, w: Weather) returns (result: Result)
      requires Inv() && Stopped(machine) && disk.record.Some? && disk.record.value.phase == Prepared
      modifies `site, `machine, `trail, `lost, `past
      ensures Inv() && result != Refused && (w.calm ==> result == Done)
      ensures Same(past, old(past).(passed := None))
      ensures Same(site, after) && DataFrom(after, trail, site)
      ensures result == Done ==> machine == old(machine) && lost == old(lost)
    {
      hide Holds;
      DataMayBeReplaced(disk, machine, past, trail, site, lost, db, after);
      site, past, trail := after, past.(passed := None), Trail(after, [], trail.unchecked);
      result := Passes(w);
    }

    /** The managed files, one by one. */
    method PutFilesBack(w: Weather) returns (result: Result)
      requires Inv() && Stopped(machine) && disk.record.Some?
      requires disk.record.value.phase == Prepared || disk.record.value.phase == Preparing
      modifies `disk, `site, `machine, `trail, `lost
      ensures Inv() && result != Refused && (w.calm ==> result == Done)
      ensures Same(disk, old(disk).(files := disk.files))
      ensures Same(site, old(site)) && Same(trail, old(trail))
      ensures result == Done ==> machine == old(machine) && lost == old(lost)
      ensures result == Done ==> Same(disk.files, disk.record.value.saved)
    {
      result := Done;
      var saved := disk.record.value.saved;
      var i := 0;
      while i < |MANAGED| && result == Done
        invariant 0 <= i <= |MANAGED| && Inv() && result != Refused && (w.calm ==> result == Done)
        invariant Same(disk, old(disk).(files := disk.files))
        invariant Same(site, old(site)) && Same(trail, old(trail))
        invariant result == Done ==> machine == old(machine) && lost == old(lost)
        invariant Agree(disk.files, saved, i)
      {
        result := PutOneBack(i, w);
        i := i + 1;
      }
      if result == Done {
        AgreeMeansSame(disk.files, saved);
      }
    }

    method PutOneBack(i: nat, w: Weather) returns (result: Result)
      requires Inv() && Stopped(machine) && disk.record.Some? && i < |MANAGED|
      requires disk.record.value.phase == Prepared || disk.record.value.phase == Preparing
      requires Agree(disk.files, disk.record.value.saved, i)
      modifies `disk, `site, `machine, `trail, `lost
      ensures Inv() && result != Refused && (w.calm ==> result == Done)
      ensures Same(disk, old(disk).(files := disk.files)) && Agree(disk.files, disk.record.value.saved, i + 1)
      ensures Same(site, old(site)) && Same(trail, old(trail))
      ensures result == Done ==> machine == old(machine) && lost == old(lost)
    {
      hide Holds;
      FilesMayGoBack(disk, machine, past, trail, site, lost, db, i);
      disk := disk.(files := PutBack(disk.files, disk.record.value.saved, MANAGED[i]));
      result := Passes(w);
    }

    /** The data of the checkpoint. */
    ghost predicate IsCopy(data: Trees)
      reads this
    {
      disk.copy.Some? && Same(data, disk.copy.value.copies)
    }

    /** Old data if there is a checkpoint, old files, old link: then, and only then, the probe and the service. */
    method PutAllBack(w: Weather) returns (result: Result)
      requires Inv() && Stopped(machine) && disk.record.Some?
      requires disk.record.value.phase == Prepared || disk.record.value.phase == Preparing
      modifies this
      ensures Inv() && result != Refused
      ensures Same(disk, old(disk).(files := disk.files, current := disk.current))
      ensures Same(past, old(past).(passed := None))
      ensures disk.record.value.phase == Preparing ==> Same(site, old(site))
      ensures disk.record.value.phase == Prepared && result == Done ==> IsCopy(site) && AllReadable(old(site))
      ensures AllReadable(old(site)) ==> AllReadable(site)
      ensures result == Done ==> Stopped(machine) && Back(disk, past, trail, site)
      ensures result == Done && past.wasPrepared ==> IsCopy(site)
      ensures w.calm && (disk.record.value.phase == Prepared ==> AllReadable(old(site))) ==> result == Done
    {
      hide Holds, DataFrom, AllReadable;
      result := PutAnyDataBack(w);
      if result != Done { return; }
      result := PutCodeBack(w);
    }

    /** The data, if there is a checkpoint. */
    method PutAnyDataBack(w: Weather) returns (result: Result)
      requires Inv() && Stopped(machine) && disk.record.Some?
      requires disk.record.value.phase == Prepared || disk.record.value.phase == Preparing
      modifies `site, `machine, `trail, `lost, `past
      ensures Inv() && result != Refused && Same(past, old(past).(passed := None))
      ensures disk.record.value.phase == Preparing ==> Same(site, old(site))
      ensures disk.record.value.phase == Prepared && result == Done ==> IsCopy(site) && AllReadable(old(site))
      ensures AllReadable(old(site)) ==> AllReadable(site)
      ensures result == Done ==> Stopped(machine) && OldData(disk, past, trail, site)
      ensures result == Done && past.wasPrepared ==> IsCopy(site)
      ensures w.calm && (disk.record.value.phase == Prepared ==> AllReadable(old(site))) ==> result == Done
    {
      hide Holds, DataFrom, AllReadable;
      NotOverMeans(disk, machine, past, trail, site, lost, db);
      result := Done;
      if disk.record.value.phase == Prepared {
        result := PutDataBack(w);
      }
    }

    /** The managed files and the link. */
    method PutCodeBack(w: Weather) returns (result: Result)
      requires Inv() && Stopped(machine) && disk.record.Some?
      requires disk.record.value.phase == Prepared || disk.record.value.phase == Preparing
      modifies `disk, `site, `machine, `trail, `lost
      ensures Inv() && result != Refused && (w.calm ==> result == Done)
      ensures Same(disk, old(disk).(files := disk.files, current := disk.current))
      ensures Same(site, old(site)) && Same(trail, old(trail))
      ensures result == Done ==> Stopped(machine) && OldCode(disk)
    {
      hide Holds;
      result := PutFilesBack(w);
      if result != Done { return; }
      result := LinkBack(w);
    }

    /** Everything old back: then, and only then, the probe and the service. */
    method RestartOld(w: Weather) returns (result: Result)
      requires Inv() && Stopped(machine) && disk.record.Some?
      requires disk.record.value.phase == Prepared || disk.record.value.phase == Preparing
      modifies this
      ensures Inv() && result != Refused
      ensures Same(disk, old(disk).(files := disk.files, current := disk.current))
      ensures Same(past, old(past).(oldStart := past.oldStart, passed := None))
      ensures result == Done ==> machine.wanted && Recovered(disk, past, trail, site)
      ensures disk.record.value.phase == Preparing ==> Same(site, old(site)) || w.writes(site)
      ensures disk.record.value.phase == Prepared && result == Done ==> IsCopy(site) || w.writes(site)
      ensures AllReadable(old(site)) && Plain(w) ==> AllReadable(site)
      ensures disk.record.value.phase == Prepared && result == Done ==> AllReadable(old(site))
      ensures w.calm && (disk.record.value.phase == Prepared ==> AllReadable(old(site))) ==> result == Done
    {
      hide Holds, AllReadable, Back, Recovered;
      result := PutAllBack(w);
      if result != Done { return; }
      ghost var before, was, had := past, trail, site;
      result := LetStart(w);
      if result == Done {
        RestartedOnOld(disk, machine, past, trail, site, lost, db, before, was, had);
      }
    }

    method LinkBack(w: Weather) returns (result: Result)
      requires Inv() && Stopped(machine) && disk.record.Some?
      requires disk.record.value.phase == Prepared || disk.record.value.phase == Preparing
      modifies `disk, `site, `machine, `trail, `lost
      ensures Inv() && result != Refused && (w.calm ==> result == Done)
      ensures Same(disk, old(disk).(current := old(disk).record.value.previous))
      ensures Same(site, old(site)) && Same(trail, old(trail))
      ensures result == Done ==> machine == old(machine) && lost == old(lost)
    {
      hide Holds;
      LinkMayGoBack(disk, machine, past, trail, site, lost, db);
      disk := disk.(current := disk.record.value.previous);
      result := Passes(w);
    }

    /** The probe, the reload and the restart, on what was put back; until the health check answers. */
    method LetStart(w: Weather) returns (result: Result)
      requires Inv() && Stopped(machine) && Back(disk, past, trail, site)
      requires disk.record.value.phase == Prepared || disk.record.value.phase == Preparing
      requires past.wasPrepared ==> disk.copy.Some? && Same(site, disk.copy.value.copies)
      modifies `site, `machine, `trail, `lost, `past
      ensures Inv() && result != Refused && (w.calm ==> result == Done)
      ensures Same(past, old(past).(oldStart := past.oldStart))
      ensures Same(site, old(site)) || w.writes(site)
      ensures Same(trail.base, old(trail).base)
      ensures result == Done ==> machine.wanted
      ensures result == Done && past.wasPrepared ==> disk.copy.Some? && Same(past.oldStart, disk.copy.value.copies)
    {
      hide Holds, Back;
      result := ShowProbe(w);
      if result != Done { return; }
      result := StartOld(w);
    }

    method ShowProbe(w: Weather) returns (result: Result)
      requires Inv() && Stopped(machine) && Back(disk, past, trail, site)
      modifies `site, `machine, `trail, `lost
      ensures Inv() && result != Refused && (w.calm ==> result == Done)
      ensures Same(site, old(site)) && Same(trail, old(trail))
      ensures result == Done ==> Stopped(machine)
    {
      assert lost ==> disk.guard;
      hide Holds, Back;
      ProbeMayCome(disk, machine, past, trail, site, lost, db);
      machine := machine.(probe := true);
      result := Passes(w);
      if result != Done { return; }
      result := Reload(w);
    }

    method StartOld(w: Weather) returns (result: Result)
      requires Inv() && Stopped(machine) && Back(disk, past, trail, site)
      requires disk.record.value.phase == Prepared || disk.record.value.phase == Preparing
      modifies `site, `machine, `trail, `lost, `past
      ensures Inv() && result != Refused && (w.calm ==> result == Done)
      ensures Same(past, old(past).(oldStart := old(site)))
      ensures Same(site, old(site)) || w.writes(site)
      ensures Same(trail.base, old(trail).base)
      ensures result == Done ==> machine.wanted
    {
      hide Holds;
      OldMayStart(disk, machine, past, trail, site, lost, db);
      machine, past := machine.(wanted := true, running := true), past.(oldStart := site);
      result := Passes(w);
    }

    /** The old release is up again: the phase first, then the marker. */
    method Close(w: Weather) returns (result: Result)
      requires Inv() && disk.record.Some? && disk.record.value.phase != Committed && Recovered(disk, past, trail, site)
      modifies `disk, `site, `machine, `trail, `lost
      ensures Inv() && result != Refused && (w.calm ==> result == Done)
      ensures Same(disk, WithPhase(old(disk), RolledBack).(marker := disk.marker))
      ensures Same(site, old(site)) || w.writes(site)
      ensures result == Done ==> !disk.marker && !machine.probe && machine.wanted == old(machine).wanted
      ensures result == Done ==> Recovered(disk, past, trail, site)
    {
      result := EnterRolledBack(w);
      if result != Done { return; }
      result := Clear(w);
    }

    method EnterRolledBack(w: Weather) returns (result: Result)
      requires Inv() && disk.record.Some? && disk.record.value.phase != Committed && Recovered(disk, past, trail, site)
      modifies `disk, `site, `machine, `trail, `lost
      ensures Inv() && result != Refused && (w.calm ==> result == Done)
      ensures Same(disk, WithPhase(old(disk), RolledBack))
      ensures Same(site, old(site)) || w.writes(site)
      ensures result == Done ==> machine == old(machine).(running := machine.running)
    {
      disk := WithPhase(disk, RolledBack);
      result := Passes(w);
    }

    /** A transaction already over: marker, probe, reload, start; the data is the service's alone. */
    method TidyUp(w: Weather) returns (result: Result)
      requires Inv() && disk.record.Some?
      requires disk.record.value.phase == Committed || disk.record.value.phase == RolledBack
      modifies `disk, `site, `machine, `trail, `lost
      ensures Inv() && result != Refused && (w.calm ==> result == Done)
      ensures Same(disk, old(disk).(marker := false))
      ensures Same(site, old(site)) || w.writes(site)
      ensures result == Done ==> !machine.probe && machine.wanted
    {
      hide Passed, CopyOfStopped;
      result := Clear(w);
      if result != Done { return; }
      result := StartService(w);
    }

    /** `systemctl start`, with no marker in its way. */
    method StartService(w: Weather) returns (result: Result)
      requires Inv() && !disk.marker
      modifies `site, `machine, `trail, `lost
      ensures Inv() && result != Refused && (w.calm ==> result == Done)
      ensures Same(site, old(site)) || w.writes(site)
      ensures result == Done ==> machine == old(machine).(wanted := true, running := machine.running)
    {
      hide Holds;
      MayStart(disk, machine, past, trail, site, lost, db);
      machine := machine.(wanted := true, running := true);
      result := Passes(w);
    }

    /** `--rollback-committed`: the marker first, then the phase. */
    method Reopen(w: Weather) returns (result: Result)
      requires Inv() && disk.record.Some? && disk.record.value.phase == Committed
      modifies `disk, `site, `machine, `trail, `lost
      ensures Inv() && result != Refused && (w.calm ==> result == Done) && SameTransaction(old(disk))
      ensures Same(site, old(site)) || w.writes(site)
      ensures result == Done ==> disk.record.value.phase == Prepared
    {
      result := MarkAgain(w);
      if result != Done { return; }
      result := PrepareAgain(w);
    }

    method MarkAgain(w: Weather) returns (result: Result)
      requires Inv() && disk.record.Some? && disk.record.value.phase == Committed
      modifies `disk, `site, `machine, `trail, `lost
      ensures Inv() && result != Refused && (w.calm ==> result == Done)
      ensures Same(disk, old(disk).(marker := true))
      ensures Same(site, old(site)) || w.writes(site)
    {
      hide Holds;
      MayReopen(disk, machine, past, trail, site, lost, db);
      disk := disk.(marker := true);
      result := Passes(w);
    }

    method PrepareAgain(w: Weather) returns (result: Result)
      requires Inv() && disk.record.Some? && disk.record.value.phase == Committed && disk.marker
      modifies `disk, `site, `machine, `trail, `lost
      ensures Inv() && result != Refused && (w.calm ==> result == Done)
      ensures Same(disk, WithPhase(old(disk), Prepared))
      ensures Same(site, old(site)) || w.writes(site)
    {
      hide Holds;
      MayReopen(disk, machine, past, trail, site, lost, db);
      disk := WithPhase(disk, Prepared);
      result := Passes(w);
    }

    /** From here the transaction is not over: stop, put back, restart, close. */
    method RollBack(w: Weather) returns (result: Result)
      requires Inv() && disk.record.Some?
      requires disk.record.value.phase == Prepared || disk.record.value.phase == Preparing
      modifies this
      ensures Inv() && result != Refused && SameTransaction(old(disk)) && SameOrigin(old(past))
      ensures result == Done ==> !disk.marker && !machine.probe && machine.wanted
      ensures result == Done ==> disk.record.value.phase == RolledBack && Recovered(disk, past, trail, site)
      ensures old(disk).record.value.phase == Preparing ==> Same(site, old(site)) || w.writes(site)
      ensures old(disk).record.value.phase == Prepared && result == Done ==> IsCopy(site) || w.writes(site)
      ensures AllReadable(old(site)) && Plain(w) ==> AllReadable(site)
      ensures old(disk).record.value.phase == Prepared && result == Done ==> AllReadable(old(site))
      ensures w.calm && (old(disk).record.value.phase == Prepared ==> AllReadable(old(site))) ==> result == Done
    {
      hide Holds, AllReadable, Recovered, Plain;
      result := GoBack(w);
      if result != Done { return; }
      result := Close(w);
      PlainWrites(w, site);
    }

    method GoBack(w: Weather) returns (result: Result)
      requires Inv() && disk.record.Some?
      requires disk.record.value.phase == Prepared || disk.record.value.phase == Preparing
      modifies this
      ensures Inv() && result != Refused
      ensures Same(disk, old(disk).(files := disk.files, current := disk.current)) && SameOrigin(old(past))
      ensures result == Done ==> machine.wanted && Recovered(disk, past, trail, site)
      ensures disk.record.value.phase == Preparing ==> Same(site, old(site)) || w.writes(site)
      ensures disk.record.value.phase == Prepared && result == Done ==> IsCopy(site) || w.writes(site)
      ensures AllReadable(old(site)) && Plain(w) ==> AllReadable(site)
      ensures disk.record.value.phase == Prepared && result == Done ==> AllReadable(old(site))
      ensures w.calm && (disk.record.value.phase == Prepared ==> AllReadable(old(site))) ==> result == Done
    {
      hide Holds, AllReadable, Recovered;
      result := Stop(w);
      if result != Done { return; }
      result := RestartOld(w);
    }

    /** A record that leads `recover` to a rollback of data. */
    predicate NeedsData(rollbackCommitted: bool)
      reads this
    {
      disk.record.Some?
      && (disk.record.value.phase == Prepared || (disk.record.value.phase == Committed && rollbackCommitted))
    }

    /**
     * `recover`: from any state a crash can leave. A committed upgrade is only tidied up, unless it is to be rolled
     * back; anything else ends on the old release, restarted on exactly the checkpoint if one was reached. Left alone
     * it completes, unless data is to be replaced and the site has a link.
     */
    method Recover(rollbackCommitted: bool, w: Weather) returns (result: Result)
      requires Inv()
      modifies this
      ensures Inv() && result != Refused
      ensures old(disk).record.None? ==> result == Error && disk == old(disk) && site == old(site)
      ensures old(disk).record.Some? ==> SameTransaction(old(disk)) && SameOrigin(old(past))
      ensures result == Done ==> !disk.marker && !machine.probe && machine.wanted
      ensures result == Done && (old(disk).record.value.phase != Committed || rollbackCommitted) ==>
                disk.record.value.phase == RolledBack && Recovered(disk, past, trail, site)
      ensures result == Done && old(disk).record.value.phase == Committed && !rollbackCommitted ==>
                && Same(disk, old(disk).(marker := false)) && past == old(past)
                && (Same(site, old(site)) || w.writes(site))
                && Accepted(disk, past, trail, site, db) && KeptFound(past, db)
      ensures old(disk).record.Some? && !old(NeedsData(rollbackCommitted)) ==> Same(site, old(site)) || w.writes(site)
      ensures old(NeedsData(rollbackCommitted)) && result == Done ==> IsCopy(site) || w.writes(site)
      ensures old(disk).record.Some? && old(disk).record.value.phase == Committed && !rollbackCommitted ==>
                disk.record.value.phase == Committed
      ensures AllReadable(old(site)) && Plain(w) ==> AllReadable(site)
      ensures w.calm && old(disk).record.Some? ==>
                (old(NeedsData(rollbackCommitted)) ==> AllReadable(old(site)) && Plain(w)) ==> result == Done
      ensures old(disk).record.Some? && old(disk).record.value.phase == Prepared && !AllReadable(old(site)) ==>
                result != Done
    {
      hide Passed, CopyOfStopped, AllReadable;
      if disk.record.None? {
        return Error;
      }
      if rollbackCommitted && disk.record.value.phase == Committed {
        result := Reopen(w);
        if result != Done { return; }
      }
      if disk.record.value.phase == Committed || disk.record.value.phase == RolledBack {
        result := TidyUp(w);
        if disk.record.value.phase == Committed {
          CommittedKeepsFound(disk, machine, past, trail, site, lost, db);
        }
      } else {
        result := RollBack(w);
      }
    }

    /**
     * Recovery converges: after any number of interrupted or failing runs, in any state they leave, one run that is
     * left alone completes. Time passes between the runs, with its own crashes.
     */
    method RecoverUntilDone(runs: seq<Weather>, rollbackCommitted: bool) returns (result: Result)
      requires Inv() && disk.record.Some?
      modifies this
      ensures Inv() && SameTransaction(old(disk))
      ensures result == Done ==> IsOver(old(disk), rollbackCommitted)
      ensures SomeCalm(runs) && AllReadable(old(site)) && AllPlain(runs) ==> result == Done
      decreases |runs|
    {
      if runs == [] {
        return Error;
      }
      RestOfRuns(runs);
      result := TryAgain(rollbackCommitted, runs[0]);
      if result != Done {
        result := RecoverUntilDone(runs[1..], rollbackCommitted);
      }
    }

    /**
     * Marker and probe gone, the service started; back on the old release, or still committed, on data that passed the
     * check.
     */
    ghost predicate IsOver(before: Durable, rollbackCommitted: bool)
      reads this
    {
      && before.record.Some? && disk.record.Some? && !disk.marker && !machine.probe && machine.wanted
      && (before.record.value.phase != Committed || rollbackCommitted ==>
            disk.record.value.phase == RolledBack && Recovered(disk, past, trail, site))
      && (before.record.value.phase == Committed && !rollbackCommitted ==>
            disk.record.value.phase == Committed && Accepted(disk, past, trail, site, db) && KeptFound(past, db))
    }

    /** The time between two runs, and one more run. */
    method TryAgain(rollbackCommitted: bool, w: Weather) returns (result: Result)
      requires Inv() && disk.record.Some?
      modifies this
      ensures Inv() && SameTransaction(old(disk))
      ensures result == Done ==> IsOver(old(disk), rollbackCommitted)
      ensures old(disk).record.value.phase == Committed && !rollbackCommitted ==> disk.record.value.phase == Committed
      ensures AllReadable(old(site)) && Plain(w) ==> AllReadable(site)
      ensures AllReadable(old(site)) && Plain(w) && w.calm ==> result == Done
    {
      hide Passed, CopyOfStopped;
      var between := Passes(Weather(false, w.writes));
      result := Recover(rollbackCommitted, w);
    }

    // ---------- the installer ----------

    /** The old release, its link and its files, and its data: what the transaction found, or the checkpoint of it. */
    ghost predicate WentBack(before: Durable)
      reads this
    {
      && Recovered(disk, past, trail, site)
      && disk.current == before.current && Same(disk.files, before.files)
    }

    /** A new release in place: its link and files, on data that passed the check with it up. */
    ghost predicate IsNew(before: Durable, link: string, install: map<string, string>)
      reads this
    {
      && disk.current == link && Same(disk.files, PutAll(before.files, install, |MANAGED|))
      && Accepted(disk, past, trail, site, db)
    }

    /**
     * From `begin` to `finish`; any exception after the record exists runs `recover` in the exit trap. Left alone the
     * installer ends on the new release, or back on the old one.
     */
    method Install(windowOpen: bool, link: string, install: map<string, string>, w: Weather)
      returns (result: Result, trap: Result)
      requires Inv()
      modifies this
      ensures Inv()
      ensures result == Refused <==> old(disk).marker || !windowOpen
      ensures result == Refused ==> disk == old(disk) && site == old(site)
      ensures result != Refused ==> Records(old(disk), old(site))
      ensures result != Refused && past.wasPrepared ==> Same(AtStop(past), old(site)) || w.writes(AtStop(past))
      ensures result == Done ==> !disk.marker && disk.record.value.phase == Committed && IsNew(old(disk), link, install)
      ensures result == Done ==> past.wasPrepared && KeptFound(past, db)
      ensures result == Error && trap == Done ==> !disk.marker && disk.record.Some?
      ensures result == Error && trap == Done && disk.record.value.phase == Committed ==>
                past.wasPrepared && Accepted(disk, past, trail, site, db) && KeptFound(past, db)
      ensures result == Error && trap == Done && disk.record.value.phase != Committed ==>
                WentBack(old(disk)) && (Same(site, old(site)) || IsCopy(site) || w.writes(site))
      ensures w.calm && Plain(w) && result != Refused ==> result == Done || (result == Error && trap == Done)
    {
      trap := Refused;
      result := Attempt(windowOpen, link, install, w);
      if result == Error {
        trap := Recover(false, w);
      }
      if disk.record.Some? && disk.record.value.phase == Committed {
        CommittedKeepsFound(disk, machine, past, trail, site, lost, db);
      }
    }

    /** The installer without its trap. */
    method Attempt(windowOpen: bool, link: string, install: map<string, string>, w: Weather) returns (result: Result)
      requires Inv()
      modifies this
      ensures Inv()
      ensures result == Refused <==> old(disk).marker || !windowOpen
      ensures result == Refused ==> disk == old(disk) && site == old(site)
      ensures result != Refused ==> Records(old(disk), old(site))
      ensures result != Refused && past.wasPrepared ==> Same(AtStop(past), old(site)) || w.writes(AtStop(past))
      ensures result == Done ==> !disk.marker && disk.record.value.phase == Committed && IsNew(old(disk), link, install)
      ensures Same(site, old(site)) || w.writes(site)
      ensures w.calm ==> result != Dead
      ensures w.calm && Plain(w) && result == Error && disk.record.value.phase == Prepared ==> AllReadable(site)
    {
      result := Begin(windowOpen, w);
      if result == Done {
        assert disk.files == old(disk).files;
        result := PutInPlace(link, install, w);
      }
    }

    method PutInPlace(link: string, install: map<string, string>, w: Weather) returns (result: Result)
      requires Inv() && InSession()
      modifies this
      ensures Inv() && result != Refused
      ensures disk.record.Some? && disk.record == Some(old(disk).record.value.(phase := disk.record.value.phase))
      ensures Same(past, old(past).(passed := past.passed))
      ensures Same(site, old(site)) || w.writes(site)
      ensures result == Done ==> disk.record.value.phase == Committed && !disk.marker && IsNew(old(disk), link, install)
      ensures w.calm ==> result != Dead
    {
      hide Passed, CopyOfStopped;
      result := Activate(link, install, w);
      if result == Done {
        result := Finish(w);
      }
      if result == Done {
        result := Passes(w);       // the update path is started, and both units are asked for their state
      }
    }
  }

  datatype Command =
    | Install(windowOpen: bool, link: string, install: map<string, string>, weather: Weather)
    | Recover(rollbackCommitted: bool, weather: Weather)

  /** Any history of installations and recoveries, each ending or dying anywhere, with any time between them. */
  method Live(appliance: Appliance, commands: seq<Command>)
    requires appliance.Inv()
    modifies appliance
    ensures appliance.Inv()
    ensures var a := appliance; !a.disk.marker ==> AtRest(a.disk, a.past, a.trail, a.site, a.db)
    ensures var a := appliance; a.lost && a.machine.running ==> Back(a.disk, a.past, a.trail, a.site)
  {
    hide Holds, AtRest, Back;
    for i := 0 to |commands|
      invariant appliance.Inv()
    {
      var between := appliance.Passes(Weather(false, commands[i].weather.writes));
      match commands[i]
      case Install(windowOpen, link, install, w) =>
        var r, trap := appliance.Install(windowOpen, link, install, w);
      case Recover(rollbackCommitted, w) =>
        var r := appliance.Recover(rollbackCommitted, w);
    }
    ghost var a := appliance;
    if !a.disk.marker {
      AbsentMarkerMeans(a.disk, a.machine, a.past, a.trail, a.site, a.lost, a.db);
    }
    LostMeansBack(a.disk, a.machine, a.past, a.trail, a.site, a.lost, a.db);
  }
}
