/**
 Moving one locally stored file to Drive, as a state machine over the steps of
 any number of migration workers and rollbacks. There is one migration row per
 source version. Workers take leases, but every update between claim and
 cutover is keyed by the row alone, so a lease can be lost, taken over or
 cleared under a running worker. A digest is taken to determine the bytes it
 was computed from, and a catalog row is identified with the Drive object it
 describes (the catalog is keyed by it).
 */
module DriveMigration {
  import opened ByteStrings
  import opened Wrappers

  type Version = nat
  type RemoteId = nat
  type Token = nat
  type WorkerId = nat

  const LEASE := 15 * 60 * 1000

  datatype Status =
    | Pending | Uploading | Uploaded | Verifying | Verified
    | Completed | Failed | Blocked | Stale | RolledBack

  datatype Row = Row(
    status: Status,
    record: Option<RemoteId>,        // driveFileRecordId
    remote: Option<RemoteId>,        // remoteDriveFileId
    token: Option<Token>,
    expires: Option<nat>)

  datatype Backing = Local | Drive

  datatype File = File(backing: Backing, record: Option<RemoteId>, current: Option<Version>)

  datatype Claim = Claim(version: Version, token: Token, remote: Option<RemoteId>)

  /** How far a worker is between its claim and the end of `migrateFile`. */
  datatype Stage =
    | Claimed
    | Streamed       // uploaded, digest not compared yet
    | Matched        // digest and size agree with the source version
    | Stored         // the row names the object
    | Fetched
    | Checking       // row is VERIFYING
    | Approved       // verifyRemote passed
    | Registered     // row is VERIFIED
    | Failing        // in the catch block; `item` is what must be cleaned up
    | Cleaned
    | Unlinked

  /** `own` says that this worker uploaded `item` and has not registered it. */
  datatype Phase =
    | Loaded(version: Version)
    | Holding(stage: Stage, claim: Claim, item: Option<RemoteId>, own: bool, missing: bool)
    | Returning(version: Version)      // a rollback that has read the current version
    | RollingBack(version: Version, record: Option<RemoteId>)
    | Ended

  /** History variable: what a cutover replaced. */
  datatype Install = Install(before: File, version: Version, record: RemoteId)

  datatype State = State(
    now: nat,
    file: File,
    editing: bool,                      // an active edit session exists
    foreign: set<RemoteId>,             // records other files are linked to
    contents: seq<Bytes>,               // recorded digest and size of each version
    rows: map<Version, Row>,
    workers: map<WorkerId, Phase>,
    tokens: nat,                        // every smaller token has been issued
    remotes: nat,                       // every smaller object id has been issued
    live: set<RemoteId>,
    streamed: map<RemoteId, Bytes>,     // what was sent to each object
    owner: map<RemoteId, Version>,      // history: the row an object was uploaded for
    verified: map<Token, RemoteId>,     // history: what the holder of a token registered
    installed: Option<Install>)

  datatype Step =
    | Load(worker: WorkerId)
    | Block(worker: WorkerId)                              // editor active, bytes missing or changed
    | Take(worker: WorkerId, seen: nat)                    // claim; `seen` is its clock reading
    | Stream(worker: WorkerId, bytes: Bytes)               // upload returned an object
    | Advance(worker: WorkerId)
    | Fail(worker: WorkerId, missing: bool)                // any error inside the try block
    | Compensate(worker: WorkerId, deleted: bool)
    | Crash(worker: WorkerId)
    | StartRollback(worker: WorkerId)
    | Tick(later: nat)
    | AddVersion(bytes: Bytes)                             // and make it current
    | SetCurrent(current: Option<Version>)
    | SetEditing(active: bool)
    | LinkElsewhere(record: RemoteId)
    | Vanish(remote: RemoteId)                             // the object is deleted on Drive

  function Start(bytes: Bytes): State {
    State(0, File(Local, None, Some(0)), false, {}, [bytes], map[], map[], 0, 0, {}, map[], map[], map[], None)
  }

  predicate LeaseProtected(status: Status) {
    status.Uploading? || status.Uploaded? || status.Verifying? || status.Verified?
  }

  function Move(s: State, w: WorkerId, phase: Phase): State {
    s.(workers := s.workers[w := phase])
  }

  /** `recordBlocked`: an upsert that clears whatever lease there was. */
  function RecordBlocked(s: State, v: Version): State {
    s.(rows := s.rows[v :=
      if v in s.rows then s.rows[v].(status := Blocked, token := None, expires := None)
      else Row(Blocked, None, None, None, None)])
  }

  function RowOrNew(s: State, v: Version): Row {
    if v in s.rows then s.rows[v] else Row(Pending, None, None, None, None)
  }

  function GiveLease(s: State, w: WorkerId, v: Version, row: Row): State {
    Move(s.(rows := s.rows[v := row.(status := Uploading, token := Some(s.tokens), expires := Some(s.now + LEASE))],
            tokens := s.tokens + 1),
         w, Holding(Claimed, Claim(v, s.tokens, row.remote), None, false, false))
  }

  predicate Claimable(row: Row, seen: nat) {
    !row.status.Completed? && !(row.expires.Some? && row.expires.value > seen && LeaseProtected(row.status))
  }

  function Taken(s: State, w: WorkerId, v: Version, seen: nat): State {
    if Claimable(RowOrNew(s, v), seen) then GiveLease(s, w, v, RowOrNew(s, v)) else Move(s, w, Ended)
  }

  /** The keyed-by-row update a worker makes while it believes it has the lease. */
  function UpdateRow(s: State, claim: Claim, status: Status, remote: RemoteId): State {
    if claim.version !in s.rows then s
    else
      s.(rows := s.rows[claim.version := s.rows[claim.version].(
           status := status, remote := Some(remote), token := Some(claim.token), expires := Some(s.now + LEASE))])
  }

  /** The phase after an error: a worker cleans up only what it uploaded. */
  function Caught(phase: Phase, missing: bool): Phase
    requires phase.Holding?
  {
    Holding(Failing, phase.claim, if phase.own then phase.item else None, false, missing)
  }

  function Register(s: State, w: WorkerId, phase: Phase): State
    requires phase.Holding? && phase.item.Some?
  {
    var claim, remote := phase.claim, phase.item.value;
    if remote in s.foreign || claim.version !in s.rows then Move(s, w, Caught(phase, false))
    else
      var row := s.rows[claim.version].(status := Verified, remote := Some(remote), record := Some(remote),
                                        token := Some(claim.token), expires := Some(s.now + LEASE));
      Move(s.(rows := s.rows[claim.version := row], verified := s.verified[claim.token := remote]), w,
           phase.(stage := Registered, own := false))
  }

  function CloseRow(s: State, v: Version, status: Status): State
    requires v in s.rows
  {
    s.(rows := s.rows[v := s.rows[v].(status := status, token := None, expires := None)])
  }

  /** `cutover`, one transaction keyed by row and lease token. */
  function Cutover(s: State, w: WorkerId, phase: Phase): State
    requires phase.Holding?
  {
    var v := phase.claim.version;
    if v !in s.rows || s.rows[v].token != Some(phase.claim.token) || !s.rows[v].status.Verified? || s.rows[v].record.None? then
      Move(s, w, Caught(phase, false))
    else if s.file.current != Some(v) then Move(CloseRow(s, v, Stale), w, Ended)
    else if s.editing then Move(CloseRow(s, v, Blocked), w, Ended)
    else if s.file.backing.Drive? && s.file.record == s.rows[v].record then Move(CloseRow(s, v, Completed), w, Ended)
    else if !s.file.backing.Local? || s.file.record.Some? then Move(s, w, Caught(phase, false))
    else if s.rows[v].record.value in s.foreign then Move(s, w, Caught(phase, false))   // unique link
    else
      Move(CloseRow(s, v, Completed).(
             file := s.file.(backing := Drive, record := s.rows[v].record),
             installed := Some(Install(s.file, v, s.rows[v].record.value))), w, Ended)
  }

  function Rollback(s: State, w: WorkerId, v: Version, record: Option<RemoteId>): State {
    if !s.file.backing.Drive? || s.file.record != record || s.file.current != Some(v) || v !in s.rows then
      Move(s, w, Ended)
    else
      Move(CloseRow(s, v, RolledBack).(file := s.file.(backing := Local, record := None)), w, Ended)
  }

  /** A rollback goes on from a completed migration of the version it has read. */
  function Return(s: State, w: WorkerId, v: Version): State {
    if v in s.rows && s.rows[v].status.Completed? then Move(s, w, RollingBack(v, s.rows[v].record)) else Move(s, w, Ended)
  }

  predicate SameBytes(s: State, x: RemoteId, v: Version) {
    x in s.streamed && v < |s.contents| && s.streamed[x] == s.contents[v]
  }

  predicate SameSize(s: State, x: RemoteId, v: Version) {
    x in s.streamed && v < |s.contents| && |s.streamed[x]| == |s.contents[v]|
  }

  /** The part of `migrateFile` from the finished upload to registration. */
  function WorkedOn(s: State, w: WorkerId, phase: Phase, remote: RemoteId): State
    requires phase.Holding? && phase.item == Some(remote)
  {
    var claim := phase.claim;
    match phase.stage
    case Streamed =>
      Move(s, w, if SameBytes(s, remote, claim.version) then phase.(stage := Matched) else Caught(phase, false))
    case Matched => Move(UpdateRow(s, claim, Uploaded, remote), w, phase.(stage := Stored))
    case Stored => Move(s, w, if remote in s.live then phase.(stage := Fetched) else Caught(phase, true))
    case Fetched => Move(UpdateRow(s, claim, Verifying, remote), w, phase.(stage := Checking))
    case Checking =>
      Move(s, w, if SameSize(s, remote, claim.version) then phase.(stage := Approved) else Caught(phase, false))
    case Approved => Register(s, w, phase)
    case _ => s
  }

  function Unlink(s: State, phase: Phase): State
    requires phase.Holding?
  {
    var v := phase.claim.version;
    if phase.claim.remote.Some? && phase.missing && v in s.rows
    then s.(rows := s.rows[v := s.rows[v].(remote := None, record := None)]) else s
  }

  function Worked(s: State, w: WorkerId, phase: Phase): State
    requires phase.Holding?
  {
    var claim := phase.claim;
    match phase.stage
    case Claimed =>
      if claim.remote.None? then s
      else if claim.remote.value in s.live then Move(s, w, phase.(stage := Stored, item := claim.remote))
      else Move(s, w, Caught(phase, true))
    case Registered => Cutover(s, w, phase)
    case Failing => s
    case Cleaned => Move(Unlink(s, phase), w, phase.(stage := Unlinked))
    case Unlinked =>
      if claim.version in s.rows then Move(CloseRow(s, claim.version, Failed), w, Ended) else Move(s, w, Ended)
    case _ => if phase.item.None? then s else WorkedOn(s, w, phase, phase.item.value)
  }

  function Advanced(s: State, w: WorkerId): State
    requires w in s.workers
  {
    match s.workers[w]
    case Holding(_, _, _, _, _) => Worked(s, w, s.workers[w])
    case Returning(v) => Return(s, w, v)
    case RollingBack(v, record) => Rollback(s, w, v, record)
    case _ => s
  }

  predicate InTry(phase: Phase) {
    phase.Holding? && !phase.stage.Failing? && !phase.stage.Cleaned? && !phase.stage.Unlinked?
  }

  /** The catch block: delete an uploaded object, or keep its name as an orphan. */
  function Compensated(s: State, w: WorkerId, phase: Phase, deleted: bool): State
    requires phase.Holding?
  {
    var v := phase.claim.version;
    if phase.item.None? then Move(s, w, phase.(stage := Cleaned))
    else if deleted then Move(s.(live := s.live - {phase.item.value}), w, phase.(stage := Cleaned))
    else if v in s.rows then
      Move(s.(rows := s.rows[v :=
        s.rows[v].(status := Failed, token := None, expires := None, remote := phase.item)]), w, Ended)
    else Move(s, w, Ended)
  }

  predicate IsOutside(step: Step) {
    step.Tick? || step.AddVersion? || step.SetCurrent? || step.SetEditing? || step.LinkElsewhere? || step.Vanish?
  }

  /** What happens around the migration: time, versions, editors, other files. */
  function Surround(s: State, step: Step): (t: State)
    ensures t == s.(now := t.now, file := s.file.(current := t.file.current), editing := t.editing,
                    foreign := t.foreign, contents := t.contents, live := t.live)
    ensures s.contents <= t.contents && s.now <= t.now
  {
    match step
    case Tick(later) => if later > s.now then s.(now := later) else s
    case AddVersion(bytes) => s.(contents := s.contents + [bytes], file := s.file.(current := Some(|s.contents|)))
    case SetCurrent(v) => if v.Some? && v.value >= |s.contents| then s else s.(file := s.file.(current := v))
    case SetEditing(active) => s.(editing := active)
    case Vanish(x) => s.(live := s.live - {x})
    case LinkElsewhere(x) => if s.file.record == Some(x) then s else s.(foreign := s.foreign + {x})
    case _ => s
  }

  function Apply(s: State, step: Step): State {
    match step
    case Load(w) =>
      if w in s.workers then s
      else if !s.file.backing.Local? || s.file.current.None? then Move(s, w, Ended)
      else Move(s, w, Loaded(s.file.current.value))
    case Block(w) =>
      if w in s.workers && s.workers[w].Loaded? then Move(RecordBlocked(s, s.workers[w].version), w, Ended) else s
    case Take(w, seen) =>
      if w in s.workers && s.workers[w].Loaded? && seen <= s.now then Taken(s, w, s.workers[w].version, seen) else s
    case Stream(w, bytes) =>
      if w in s.workers && s.workers[w].Holding? && s.workers[w].stage.Claimed? && s.workers[w].claim.remote.None? then
        Move(s.(remotes := s.remotes + 1, live := s.live + {s.remotes},
                streamed := s.streamed[s.remotes := bytes],
                owner := s.owner[s.remotes := s.workers[w].claim.version]),
             w, s.workers[w].(stage := Streamed, item := Some(s.remotes), own := true))
      else s
    case Advance(w) => if w in s.workers then Advanced(s, w) else s
    case Fail(w, missing) =>
      if w in s.workers && InTry(s.workers[w]) then Move(s, w, Caught(s.workers[w], missing)) else s
    case Compensate(w, deleted) =>
      if w in s.workers && s.workers[w].Holding? && s.workers[w].stage.Failing?
      then Compensated(s, w, s.workers[w], deleted) else s
    case Crash(w) => if w in s.workers then Move(s, w, Ended) else s
    case StartRollback(w) =>
      if w !in s.workers && s.file.current.Some? then Move(s, w, Returning(s.file.current.value)) else s
    case _ => Surround(s, step)
  }

  function Run(s: State, steps: seq<Step>): State
    decreases |steps|
  {
    if steps == [] then s else Apply(Run(s, steps[..|steps| - 1]), steps[|steps| - 1])
  }

  ghost predicate Reaches(from: State, to: State) {
    exists steps :: Run(from, steps) == to
  }

  lemma ReachesNext(from: State, to: State, step: Step)
    requires Reaches(from, to)
    ensures Reaches(from, Apply(to, step))
  {
    var steps :| Run(from, steps) == to;
    var more := steps + [step];
    assert more[..|steps|] == steps;
    assert Run(from, more) == Apply(to, step);
  }
}
