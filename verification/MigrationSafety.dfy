/**
 What the cutover gate keeps although leases do not exclude anyone: a row that
 is VERIFIED under a lease token names the object the holder of that token
 registered itself, so a cutover installs only its own verified object, and a
 rollback gives the file back exactly as the cutover found it. Every step of
 every interleaving is allowed, orphans, lost leases and crashes included.
 */
module MigrationSafety {
  import opened ByteStrings
  import opened Wrappers
  import opened DriveMigration

  /** The object was uploaded for this row. */
  ghost predicate ObjectOf(s: State, x: RemoteId, v: Version) {
    x < s.remotes && x in s.owner && s.owner[x] == v && x in s.streamed
  }

  ghost predicate MaybeObjectOf(s: State, x: Option<RemoteId>, v: Version) {
    x.Some? ==> ObjectOf(s, x.value, v)
  }

  predicate BeforeRegister(stage: Stage) {
    stage.Claimed? || stage.Streamed? || stage.Matched? || stage.Stored? || stage.Fetched? || stage.Checking? || stage.Approved?
  }

  ghost predicate PhaseValid(s: State, phase: Phase) {
    match phase
    case Holding(stage, claim, item, own, _) =>
      && claim.token < s.tokens
      && MaybeObjectOf(s, claim.remote, claim.version) && MaybeObjectOf(s, item, claim.version)
      && (BeforeRegister(stage) ==> claim.token !in s.verified)
      && (stage.Registered? ==>
            item.Some? && claim.token in s.verified && s.verified[claim.token] == item.value)
    case RollingBack(v, record) => MaybeObjectOf(s, record, v)
    case _ => true
  }

  ghost predicate RowValid(s: State, v: Version)
    requires v in s.rows
  {
    var row := s.rows[v];
    && MaybeObjectOf(s, row.remote, v) && MaybeObjectOf(s, row.record, v)
    && (row.status.Verified? && row.token.Some? && row.record.Some? ==>
          row.token.value in s.verified && s.verified[row.token.value] == row.record.value)
  }

  ghost predicate FileValid(s: State) {
    && (s.file.backing.Drive? <==> s.file.record.Some?)
    && (s.file.record.Some? ==>
          && s.installed.Some? && s.installed.value.record == s.file.record.value
          && ObjectOf(s, s.file.record.value, s.installed.value.version)
          && s.installed.value.before == File(Local, None, Some(s.installed.value.version)))
  }

  ghost predicate TokensDistinct(s: State) {
    forall a, b | a in s.workers && b in s.workers && a != b
      && s.workers[a].Holding? && s.workers[b].Holding? ::
      s.workers[a].claim.token != s.workers[b].claim.token
  }

  ghost predicate Inv(s: State) {
    && FileValid(s) && TokensDistinct(s)
    && (forall t | t in s.verified :: t < s.tokens)
    && (forall v | v in s.rows :: RowValid(s, v))
    && (forall w | w in s.workers :: PhaseValid(s, s.workers[w]))
  }

  // ------------------------------------------------------------ preservation

  /** Object and token histories only grow, by numbers not used before. */
  ghost predicate Grows(s: State, t: State) {
    && s.tokens <= t.tokens && s.remotes <= t.remotes
    && (forall x | x in s.owner && x < s.remotes :: x in t.owner && t.owner[x] == s.owner[x])
    && (forall x | x in s.streamed && x < s.remotes :: x in t.streamed && t.streamed[x] == s.streamed[x])
    && (forall k | k in s.verified :: k in t.verified && t.verified[k] == s.verified[k])
  }

  lemma PhaseStays(s: State, t: State, phase: Phase)
    requires PhaseValid(s, phase) && Grows(s, t)
    requires phase.Holding? && BeforeRegister(phase.stage) ==> phase.claim.token !in t.verified
    ensures PhaseValid(t, phase)
  {
  }

  /** One worker moves, one row changes, nothing else is forgotten. */
  lemma Combine(s: State, t: State, w: WorkerId, touched: Version)
    requires Inv(s) && Grows(s, t) && FileValid(t) && t.verified == s.verified
    requires forall v | v in t.rows && v != touched :: v in s.rows && t.rows[v] == s.rows[v]
    requires touched in t.rows ==> RowValid(t, touched)
    requires t.workers.Keys == s.workers.Keys + {w}
    requires forall o | o in s.workers && o != w :: t.workers[o] == s.workers[o]
    requires PhaseValid(t, t.workers[w])
    requires t.workers[w].Holding? ==>
      t.workers[w].claim.token >= s.tokens
      || (w in s.workers && s.workers[w].Holding? && s.workers[w].claim.token == t.workers[w].claim.token)
    ensures Inv(t)
  {
    forall v | v in t.rows ensures RowValid(t, v) {
      if v != touched { assert RowValid(s, v); }
    }
    forall o | o in t.workers ensures PhaseValid(t, t.workers[o]) {
      if o != w { assert PhaseValid(s, s.workers[o]); PhaseStays(s, t, s.workers[o]); }
    }
    forall o | o in s.workers && o != w && s.workers[o].Holding? && t.workers[w].Holding?
      ensures s.workers[o].claim.token != t.workers[w].claim.token
    {
      assert PhaseValid(s, s.workers[o]);
    }
  }

  /** Steps in which a worker only changes its own phase. */
  lemma MoveKeepsInv(s: State, w: WorkerId, phase: Phase)
    requires Inv(s) && PhaseValid(s, phase)
    requires phase.Holding? ==> w in s.workers && s.workers[w].Holding? && s.workers[w].claim == phase.claim
    ensures Inv(Move(s, w, phase))
  {
    var t := Move(s, w, phase);
    var v := 0;
    if v in s.rows { assert RowValid(s, v); }
    PhaseStays(s, t, phase);
    Combine(s, t, w, v);
  }

  /** Steps that change one row, never to VERIFIED, and the worker's phase. */
  lemma RowChangeKeepsInv(s: State, w: WorkerId, v: Version, row: Row, phase: Phase)
    requires Inv(s) && PhaseValid(s, phase) && (row.status.Verified? ==> row.record.None?)
    requires MaybeObjectOf(s, row.remote, v) && MaybeObjectOf(s, row.record, v)
    requires phase.Holding? ==> w in s.workers && s.workers[w].Holding? && s.workers[w].claim == phase.claim
    ensures Inv(Move(s.(rows := s.rows[v := row]), w, phase))
  {
    var t := Move(s.(rows := s.rows[v := row]), w, phase);
    PhaseStays(s, t, phase);
    Combine(s, t, w, v);
  }

  lemma UpdateKeepsInv(s: State, w: WorkerId, status: Status, phase: Phase)
    requires Inv(s) && w in s.workers && s.workers[w].Holding? && !status.Verified?
    requires phase.Holding? && phase.claim == s.workers[w].claim && phase.item.Some? && PhaseValid(s, phase)
    ensures Inv(Move(UpdateRow(s, phase.claim, status, phase.item.value), w, phase))
  {
    var v := phase.claim.version;
    if v in s.rows {
      assert RowValid(s, v);
      RowChangeKeepsInv(s, w, v,
        s.rows[v].(status := status, remote := phase.item, token := Some(phase.claim.token), expires := Some(s.now + LEASE)),
        phase);
    } else {
      MoveKeepsInv(s, w, phase);
    }
  }

  lemma CloseKeepsInv(s: State, w: WorkerId, v: Version, status: Status)
    requires Inv(s) && v in s.rows && !status.Verified?
    ensures Inv(Move(CloseRow(s, v, status), w, Ended))
  {
    assert RowValid(s, v);
    RowChangeKeepsInv(s, w, v, s.rows[v].(status := status, token := None, expires := None), Ended);
  }

  lemma RegisterKeepsInv(s: State, w: WorkerId)
    requires Inv(s) && w in s.workers && s.workers[w].Holding?
    requires s.workers[w].stage.Approved? && s.workers[w].item.Some?
    ensures Inv(Register(s, w, s.workers[w]))
  {
    var phase := s.workers[w];
    var claim := phase.claim;
    assert PhaseValid(s, phase);
    var t := Register(s, w, phase);
    if phase.item.value in s.foreign || claim.version !in s.rows {
      MoveKeepsInv(s, w, Caught(phase, false));
      return;
    }
    forall v | v in t.rows ensures RowValid(t, v) { assert RowValid(s, v); }
    forall o | o in t.workers ensures PhaseValid(t, t.workers[o]) {
      assert PhaseValid(s, s.workers[o]);
      if o != w { PhaseStays(s, t, s.workers[o]); }
    }
  }

  lemma InstallKeepsInv(s: State, w: WorkerId, v: Version)
    requires Inv(s) && v in s.rows && s.rows[v].record.Some?
    requires s.file == File(Local, None, Some(v))
    ensures Inv(Move(CloseRow(s, v, Completed).(
                       file := s.file.(backing := Drive, record := s.rows[v].record),
                       installed := Some(Install(s.file, v, s.rows[v].record.value))), w, Ended))
  {
    assert RowValid(s, v);
    var t := Move(CloseRow(s, v, Completed).(
                    file := s.file.(backing := Drive, record := s.rows[v].record),
                    installed := Some(Install(s.file, v, s.rows[v].record.value))), w, Ended);
    Combine(s, t, w, v);
  }

  lemma CutoverKeepsInv(s: State, w: WorkerId)
    requires Inv(s) && w in s.workers && s.workers[w].Holding?
    ensures Inv(Cutover(s, w, s.workers[w]))
  {
    var phase := s.workers[w];
    assert PhaseValid(s, phase);
    var v := phase.claim.version;
    var t := Cutover(s, w, phase);
    if t == Move(s, w, Caught(phase, false)) {
      MoveKeepsInv(s, w, Caught(phase, false));
    } else if t.file == s.file {
      CloseKeepsInv(s, w, v, t.rows[v].status);
    } else {
      InstallKeepsInv(s, w, v);
    }
  }

  lemma RollbackKeepsInv(s: State, w: WorkerId, v: Version, record: Option<RemoteId>)
    requires Inv(s)
    ensures Inv(Rollback(s, w, v, record))
  {
    var t := Rollback(s, w, v, record);
    if t == Move(s, w, Ended) {
      MoveKeepsInv(s, w, Ended);
    } else {
      assert RowValid(s, v);
      Combine(s, t, w, v);
    }
  }

  lemma UnlinkKeepsInv(s: State, w: WorkerId)
    requires Inv(s) && w in s.workers && s.workers[w].Holding? && s.workers[w].stage.Cleaned?
    ensures Inv(Move(Unlink(s, s.workers[w]), w, s.workers[w].(stage := Unlinked)))
  {
    var phase := s.workers[w];
    var v := phase.claim.version;
    assert PhaseValid(s, phase);
    if Unlink(s, phase) == s {
      MoveKeepsInv(s, w, phase.(stage := Unlinked));
    } else {
      RowChangeKeepsInv(s, w, v, s.rows[v].(remote := None, record := None), phase.(stage := Unlinked));
    }
  }

  /** Stages in which a worker only looks something up. */
  lemma ReadKeepsInv(s: State, w: WorkerId)
    requires Inv(s) && w in s.workers && s.workers[w].Holding?
    requires var stage := s.workers[w].stage; stage.Claimed? || stage.Streamed? || stage.Stored? || stage.Checking?
    ensures Inv(Worked(s, w, s.workers[w]))
  {
    var phase := s.workers[w];
    assert PhaseValid(s, phase);
    hide Inv;
    var t := Worked(s, w, phase);
    if t == s { return; }
    assert t == Move(s, w, t.workers[w]);
    MoveKeepsInv(s, w, t.workers[w]);
  }

  lemma WorkKeepsInv(s: State, w: WorkerId)
    requires Inv(s) && w in s.workers && s.workers[w].Holding?
    ensures Inv(Worked(s, w, s.workers[w]))
  {
    var phase := s.workers[w];
    assert PhaseValid(s, phase);
    match phase.stage
    case Matched => if phase.item.Some? { UpdateKeepsInv(s, w, Uploaded, phase.(stage := Stored)); }
    case Fetched => if phase.item.Some? { UpdateKeepsInv(s, w, Verifying, phase.(stage := Checking)); }
    case Approved => if phase.item.Some? { RegisterKeepsInv(s, w); }
    case Registered => CutoverKeepsInv(s, w);
    case Cleaned => UnlinkKeepsInv(s, w);
    case Unlinked =>
      if phase.claim.version in s.rows { CloseKeepsInv(s, w, phase.claim.version, Failed); } else { MoveKeepsInv(s, w, Ended); }
    case Failing =>
    case _ => ReadKeepsInv(s, w);
  }

  lemma TakeKeepsInv(s: State, w: WorkerId, v: Version, seen: nat)
    requires Inv(s) && w in s.workers && s.workers[w] == Loaded(v)
    ensures Inv(Taken(s, w, v, seen))
  {
    if v in s.rows { assert RowValid(s, v); }
    if Claimable(RowOrNew(s, v), seen) {
      assert s.tokens !in s.verified;
      Combine(s, GiveLease(s, w, v, RowOrNew(s, v)), w, v);
    } else {
      MoveKeepsInv(s, w, Ended);
    }
  }

  lemma StreamKeepsInv(s: State, w: WorkerId, bytes: Bytes)
    requires Inv(s) && Apply(s, Stream(w, bytes)) != s
    ensures Inv(Apply(s, Stream(w, bytes)))
  {
    var t := Apply(s, Stream(w, bytes));
    assert PhaseValid(s, s.workers[w]);
    var v := s.workers[w].claim.version;
    if v in s.rows { assert RowValid(s, v); }
    Combine(s, t, w, v);
  }

  lemma BlockKeepsInv(s: State, w: WorkerId, v: Version)
    requires Inv(s) && w in s.workers && s.workers[w] == Loaded(v)
    ensures Inv(Move(RecordBlocked(s, v), w, Ended))
  {
    if v in s.rows {
      assert RowValid(s, v);
      CloseKeepsInv(s, w, v, Blocked);
    } else {
      RowChangeKeepsInv(s, w, v, Row(Blocked, None, None, None, None), Ended);
    }
  }

  /** Steps of the surroundings: time, versions, editors, other files, Drive. */
  lemma OutsideKeepsInv(s: State, t: State)
    requires Inv(s) && Grows(s, t)
    requires t.rows == s.rows && t.workers == s.workers && t.verified == s.verified && t.tokens == s.tokens
    requires t.file.(current := s.file.current) == s.file && t.installed == s.installed
    ensures Inv(t)
  {
    forall v | v in t.rows ensures RowValid(t, v) { assert RowValid(s, v); }
    forall w | w in t.workers ensures PhaseValid(t, t.workers[w]) {
      assert PhaseValid(s, s.workers[w]);
      PhaseStays(s, t, s.workers[w]);
    }
  }

  lemma CompensateKeepsInv(s: State, w: WorkerId, deleted: bool)
    requires Inv(s) && w in s.workers && s.workers[w].Holding? && s.workers[w].stage.Failing?
    ensures Inv(Compensated(s, w, s.workers[w], deleted))
  {
    var phase := s.workers[w];
    var v := phase.claim.version;
    assert PhaseValid(s, phase);
    if phase.item.None? {
      MoveKeepsInv(s, w, phase.(stage := Cleaned));
    } else if deleted {
      var t := s.(live := s.live - {phase.item.value});
      OutsideKeepsInv(s, t);
      assert PhaseValid(t, phase);
      MoveKeepsInv(t, w, phase.(stage := Cleaned));
    } else if v in s.rows {
      assert RowValid(s, v);
      RowChangeKeepsInv(s, w, v, s.rows[v].(status := Failed, token := None, expires := None, remote := phase.item), Ended);
    } else {
      MoveKeepsInv(s, w, Ended);
    }
  }

  lemma ReturnKeepsInv(s: State, w: WorkerId, v: Version)
    requires Inv(s) && w in s.workers
    ensures Inv(Return(s, w, v))
  {
    assert v in s.rows ==> RowValid(s, v);
    hide Inv;
    MoveKeepsInv(s, w, Return(s, w, v).workers[w]);
  }

  lemma WorkerStepKeepsInv(s: State, step: Step)
    requires Inv(s) && (step.Take? || step.Stream? || step.Advance? || step.Fail? || step.Compensate?)
    requires Apply(s, step) != s
    ensures Inv(Apply(s, step))
  {
    match step
    case Take(w, seen) => TakeKeepsInv(s, w, s.workers[w].version, seen);
    case Stream(w, bytes) => StreamKeepsInv(s, w, bytes);
    case Advance(w) =>
      if s.workers[w].Holding? { WorkKeepsInv(s, w); }
      else if s.workers[w].Returning? { ReturnKeepsInv(s, w, s.workers[w].version); }
      else if s.workers[w].RollingBack? { RollbackKeepsInv(s, w, s.workers[w].version, s.workers[w].record); }
    case Fail(w, missing) =>
      assert PhaseValid(s, s.workers[w]);
      MoveKeepsInv(s, w, Caught(s.workers[w], missing));
    case Compensate(w, deleted) => CompensateKeepsInv(s, w, deleted);
  }

  /** Steps in which a worker comes or goes. */
  lemma EntryKeepsInv(s: State, step: Step)
    requires Inv(s) && (step.Load? || step.Block? || step.Crash? || step.StartRollback?)
    requires Apply(s, step) != s
    ensures Inv(Apply(s, step))
  {
    match step
    case Load(w) => MoveKeepsInv(s, w, Apply(s, step).workers[w]);
    case Block(w) => BlockKeepsInv(s, w, s.workers[w].version);
    case Crash(w) => MoveKeepsInv(s, w, Ended);
    case StartRollback(w) => MoveKeepsInv(s, w, Returning(s.file.current.value));
  }

  lemma OutsideIsSurround(s: State, step: Step)
    requires IsOutside(step)
    ensures Apply(s, step) == Surround(s, step)
  {
  }

  lemma SurroundKeepsInv(s: State, step: Step)
    requires Inv(s)
    ensures Inv(Surround(s, step))
  {
    hide Surround;
    OutsideKeepsInv(s, Surround(s, step));
  }

  lemma ApplyKeepsInv(s: State, step: Step)
    requires Inv(s)
    ensures Inv(Apply(s, step))
  {
    hide Inv;
    if Apply(s, step) == s { return; }
    if IsOutside(step) {
      OutsideIsSurround(s, step);
      SurroundKeepsInv(s, step);
    } else if step.Load? || step.Block? || step.Crash? || step.StartRollback? {
      EntryKeepsInv(s, step);
    } else {
      WorkerStepKeepsInv(s, step);
    }
  }

  lemma {:induction false} RunKeepsInv(bytes: Bytes, steps: seq<Step>)
    ensures Inv(Run(Start(bytes), steps))
    decreases |steps|
  {
    if steps != [] {
      RunKeepsInv(bytes, steps[..|steps| - 1]);
      ApplyKeepsInv(Run(Start(bytes), steps[..|steps| - 1]), steps[|steps| - 1]);
    }
  }

  // ------------------------------------------------------------ main results

  /**
   Expired, stolen and cleared leases included: a row that is VERIFIED under a
   token and has a record has the record the holder of that token registered.
   */
  lemma VerifiedRecordIsOwn(bytes: Bytes, steps: seq<Step>, v: Version)
    requires var s := Run(Start(bytes), steps);
      v in s.rows && s.rows[v].status.Verified? && s.rows[v].token.Some? && s.rows[v].record.Some?
    ensures var s := Run(Start(bytes), steps);
      && s.rows[v].token.value in s.verified && s.rows[v].record.value == s.verified[s.rows[v].token.value]
  {
    RunKeepsInv(bytes, steps);
    assert RowValid(Run(Start(bytes), steps), v);
  }

  /** The backing before and after a step, versions aside. */
  predicate SameBacking(s: State, t: State) {
    s.file.backing == t.file.backing && s.file.record == t.file.record
  }

  /** The only two ways in which a step may change what backs the file. */
  ghost predicate InstallsOwn(s: State, t: State, w: WorkerId) {
    && w in s.workers && s.workers[w].Holding? && s.workers[w].stage.Registered? && s.workers[w].item.Some?
    && var claim := s.workers[w].claim;
    && s.file == File(Local, None, Some(claim.version)) && !s.editing
    && t.file == File(Drive, s.workers[w].item, Some(claim.version))
    && claim.token in s.verified && Some(s.verified[claim.token]) == s.workers[w].item
    && ObjectOf(s, s.workers[w].item.value, claim.version)
    && t.installed == Some(Install(s.file, claim.version, s.workers[w].item.value))
  }

  ghost predicate Restores(s: State, t: State, w: WorkerId) {
    && w in s.workers && s.workers[w].RollingBack?
    && s.installed.Some? && s.file.record == Some(s.installed.value.record)
    && t.file == s.installed.value.before && t.installed == s.installed
  }

  lemma CutoverInstallsOwn(s: State, w: WorkerId)
    requires Inv(s) && w in s.workers && s.workers[w].Holding? && s.workers[w].stage.Registered?
    requires !SameBacking(s, Cutover(s, w, s.workers[w]))
    ensures InstallsOwn(s, Cutover(s, w, s.workers[w]), w)
  {
    assert PhaseValid(s, s.workers[w]);
    assert RowValid(s, s.workers[w].claim.version);
  }

  lemma RollbackRestores(s: State, w: WorkerId)
    requires Inv(s) && w in s.workers && s.workers[w].RollingBack?
    requires !SameBacking(s, Rollback(s, w, s.workers[w].version, s.workers[w].record))
    ensures Restores(s, Rollback(s, w, s.workers[w].version, s.workers[w].record), w)
  {
    assert PhaseValid(s, s.workers[w]);
  }

  lemma OnlyGateChangesBacking(s: State, step: Step)
    requires !SameBacking(s, Apply(s, step))
    ensures step.Advance? && step.worker in s.workers
    ensures s.workers[step.worker].RollingBack?
      || (s.workers[step.worker].Holding? && s.workers[step.worker].stage.Registered?)
  {
    if IsOutside(step) {
      OutsideIsSurround(s, step);
      hide Surround;
    }
  }

  /**
   Whatever the interleaving, a step changes the backing of the file in one of
   two ways. A cutover by a worker, of a file that is LOCAL on the row's source
   version with nobody editing, to the object that worker itself verified; so a
   file already on a Drive record is never repointed. Or a rollback, which gives
   back exactly the backing fields and version the cutover had found.
   */
  lemma BackingChangesOnlyThroughGate(bytes: Bytes, steps: seq<Step>, step: Step)
    requires var s := Run(Start(bytes), steps); !SameBacking(s, Apply(s, step))
    ensures var s := Run(Start(bytes), steps);
      step.Advance? && (InstallsOwn(s, Apply(s, step), step.worker) || Restores(s, Apply(s, step), step.worker))
  {
    RunKeepsInv(bytes, steps);
    var s := Run(Start(bytes), steps);
    OnlyGateChangesBacking(s, step);
    if s.workers[step.worker].RollingBack? {
      RollbackRestores(s, step.worker);
    } else {
      CutoverInstallsOwn(s, step.worker);
    }
  }

  lemma ThreeLoaded(bytes: Bytes) returns (s: State)
    ensures Reaches(Start(bytes), s)
    ensures s == Start(bytes).(workers := map[0 := Loaded(0), 1 := Loaded(0), 2 := Loaded(0)])
  {
    var from := Start(bytes);
    assert Run(from, []) == from;
    assert Reaches(from, from);
    hide Reaches, Run;
    ReachesNext(from, from, Load(0));
    s := Apply(from, Load(0));
    ReachesNext(from, s, Load(1));
    s := Apply(s, Load(1));
    ReachesNext(from, s, Load(2));
    s := Apply(s, Load(2));
  }

  /**
   A lease excludes nobody: a worker that finds an editor active clears another
   worker's lease, and a third one claims the row the first is still working on.
   */
  lemma LeasesDoNotExclude(bytes: Bytes)
    ensures exists s :: (
      && Reaches(Start(bytes), s) && 0 in s.workers && 1 in s.workers
      && s.workers[0] == Holding(Claimed, Claim(0, 0, None), None, false, false)
      && s.workers[1] == Holding(Claimed, Claim(0, 1, None), None, false, false))
  {
    var s := ThreeLoaded(bytes);
    hide Reaches;
    ReachesNext(Start(bytes), s, Take(0, 0));
    s := Apply(s, Take(0, 0));
    assert s.rows == map[0 := Row(Uploading, None, None, Some(0), Some(LEASE))];
    ReachesNext(Start(bytes), s, Block(2));
    s := Apply(s, Block(2));
    assert s.rows == map[0 := Row(Blocked, None, None, None, None)];
    ReachesNext(Start(bytes), s, Take(1, 0));
    s := Apply(s, Take(1, 0));
  }
}
