/**
 Which bytes a cutover installs. An upload is compared with the source version
 byte for byte before its object is written into the row, and a later worker
 that resumes a row trusts the object it finds there: it compares only sizes.
 That is sound exactly as long as the catch block never stores the name of an
 object whose comparison had failed.
 */
module MigrationContents {
  import opened ByteStrings
  import opened Wrappers
  import opened DriveMigration
  import opened MigrationSafety

  ghost predicate MaybeSame(s: State, x: Option<RemoteId>, v: Version) {
    x.Some? ==> SameBytes(s, x.value, v)
  }

  predicate Compared(stage: Stage) {
    stage.Matched? || stage.Stored? || stage.Fetched? || stage.Checking? || stage.Approved? || stage.Registered?
  }

  ghost predicate PhaseTrue(s: State, phase: Phase) {
    match phase
    case Loaded(v) => v < |s.contents|
    case Holding(stage, claim, item, _, _) =>
      && claim.version < |s.contents| && MaybeSame(s, claim.remote, claim.version)
      && (Compared(stage) ==> MaybeSame(s, item, claim.version))
    case _ => true
  }

  ghost predicate RowTrue(s: State, v: Version)
    requires v in s.rows
  {
    v < |s.contents| && MaybeSame(s, s.rows[v].remote, v) && MaybeSame(s, s.rows[v].record, v)
  }

  ghost predicate FileTrue(s: State) {
    && (s.file.current.Some? ==> s.file.current.value < |s.contents|)
    && (s.file.record.Some? ==> s.installed.Some? && SameBytes(s, s.file.record.value, s.installed.value.version))
  }

  ghost predicate ContentInv(s: State) {
    && Inv(s) && FileTrue(s)
    && (forall v | v in s.rows :: RowTrue(s, v))
    && (forall w | w in s.workers :: PhaseTrue(s, s.workers[w]))
  }

  /** The catch block is about to keep the name of an object it could not delete. */
  predicate StoresOrphan(s: State, step: Step) {
    && step.Compensate? && !step.deleted && step.worker in s.workers
    && s.workers[step.worker].Holding? && s.workers[step.worker].stage.Failing?
    && s.workers[step.worker].item.Some?
  }

  /** No orphan is stored, or only one that had passed the comparison. */
  predicate OrphanCompared(s: State, step: Step) {
    StoresOrphan(s, step) ==>
      SameBytes(s, s.workers[step.worker].item.value, s.workers[step.worker].claim.version)
  }

  ghost predicate Always(s: State, steps: seq<Step>) {
    forall i | 0 <= i < |steps| :: OrphanCompared(Run(s, steps[..i]), steps[i])
  }

  /** Some run that stores no uncompared orphan leads there. */
  ghost predicate ReachesTrue(from: State, to: State) {
    exists steps :: Always(from, steps) && Run(from, steps) == to
  }

  lemma ReachesTrueNext(from: State, to: State, step: Step)
    requires ReachesTrue(from, to) && OrphanCompared(to, step)
    ensures ReachesTrue(from, Apply(to, step))
  {
    var steps :| Always(from, steps) && Run(from, steps) == to;
    var more := steps + [step];
    assert more[..|steps|] == steps;
    assert Run(from, more) == Apply(to, step);
    hide Apply, OrphanCompared;
    forall i | 0 <= i < |more| ensures OrphanCompared(Run(from, more[..i]), more[i]) {
      if i < |steps| { assert more[..i] == steps[..i]; }
    }
  }

  ghost predicate Keeps(s: State, t: State) {
    Grows(s, t) && s.contents <= t.contents && s.remotes <= t.remotes
  }

  lemma SameStays(s: State, t: State, x: Option<RemoteId>, v: Version)
    requires Keeps(s, t) && MaybeObjectOf(s, x, v) && MaybeSame(s, x, v)
    ensures MaybeSame(t, x, v)
  {
  }

  lemma PhaseTrueStays(s: State, t: State, phase: Phase)
    requires Keeps(s, t) && PhaseValid(s, phase) && PhaseTrue(s, phase)
    ensures PhaseTrue(t, phase)
  {
    if phase.Holding? {
      SameStays(s, t, phase.claim.remote, phase.claim.version);
      if Compared(phase.stage) { SameStays(s, t, phase.item, phase.claim.version); }
    }
  }

  /** One worker moves and one row changes. */
  lemma CombineTrue(s: State, t: State, w: WorkerId, touched: Version)
    requires ContentInv(s) && Keeps(s, t) && FileTrue(t)
    requires forall v | v in t.rows && v != touched :: v in s.rows && t.rows[v] == s.rows[v]
    requires touched in t.rows ==> RowTrue(t, touched)
    requires forall o | o in t.workers && o != w :: o in s.workers && t.workers[o] == s.workers[o]
    requires w in t.workers ==> PhaseTrue(t, t.workers[w])
    requires Inv(t)
    ensures ContentInv(t)
  {
    forall v | v in t.rows ensures RowTrue(t, v) {
      if v != touched {
        assert RowTrue(s, v) && RowValid(s, v);
        SameStays(s, t, s.rows[v].remote, v);
        SameStays(s, t, s.rows[v].record, v);
      }
    }
    forall o | o in t.workers ensures PhaseTrue(t, t.workers[o]) {
      if o != w {
        assert PhaseTrue(s, s.workers[o]) && PhaseValid(s, s.workers[o]);
        PhaseTrueStays(s, t, s.workers[o]);
      }
    }
  }

  lemma MoveTrue(s: State, w: WorkerId, phase: Phase)
    requires ContentInv(s) && PhaseTrue(s, phase) && Inv(Move(s, w, phase))
    ensures ContentInv(Move(s, w, phase))
  {
    var t := Move(s, w, phase);
    var v := 0;
    if v in s.rows { assert RowTrue(s, v); }
    CombineTrue(s, t, w, v);
  }

  lemma RowChangeTrue(s: State, w: WorkerId, v: Version, row: Row, phase: Phase)
    requires ContentInv(s) && PhaseTrue(s, phase) && v < |s.contents|
    requires MaybeSame(s, row.remote, v) && MaybeSame(s, row.record, v)
    requires Inv(Move(s.(rows := s.rows[v := row]), w, phase))
    ensures ContentInv(Move(s.(rows := s.rows[v := row]), w, phase))
  {
    CombineTrue(s, Move(s.(rows := s.rows[v := row]), w, phase), w, v);
  }

  lemma UpdateTrue(s: State, w: WorkerId, status: Status, phase: Phase)
    requires ContentInv(s) && phase.Holding? && phase.item.Some? && PhaseTrue(s, phase)
    requires MaybeSame(s, phase.item, phase.claim.version)
    requires Inv(Move(UpdateRow(s, phase.claim, status, phase.item.value), w, phase))
    ensures ContentInv(Move(UpdateRow(s, phase.claim, status, phase.item.value), w, phase))
  {
    var v := phase.claim.version;
    if v in s.rows {
      assert RowTrue(s, v);
      RowChangeTrue(s, w, v,
        s.rows[v].(status := status, remote := phase.item, token := Some(phase.claim.token), expires := Some(s.now + LEASE)),
        phase);
    } else {
      MoveTrue(s, w, phase);
    }
  }

  lemma CloseTrue(s: State, w: WorkerId, v: Version, status: Status)
    requires ContentInv(s) && v in s.rows && Inv(Move(CloseRow(s, v, status), w, Ended))
    ensures ContentInv(Move(CloseRow(s, v, status), w, Ended))
  {
    assert RowTrue(s, v);
    RowChangeTrue(s, w, v, s.rows[v].(status := status, token := None, expires := None), Ended);
  }

  lemma RegisterTrue(s: State, w: WorkerId)
    requires ContentInv(s) && w in s.workers && s.workers[w].Holding?
    requires s.workers[w].stage.Approved? && s.workers[w].item.Some?
    requires Inv(Register(s, w, s.workers[w]))
    ensures ContentInv(Register(s, w, s.workers[w]))
  {
    var phase := s.workers[w];
    assert PhaseTrue(s, phase) && PhaseValid(s, phase);
    var t := Register(s, w, phase);
    if phase.item.value in s.foreign || phase.claim.version !in s.rows {
      MoveTrue(s, w, Caught(phase, false));
    } else {
      assert phase.claim.token !in s.verified;
      CombineTrue(s, t, w, phase.claim.version);
    }
  }

  lemma UnlinkTrue(s: State, w: WorkerId)
    requires ContentInv(s) && w in s.workers && s.workers[w].Holding? && s.workers[w].stage.Cleaned?
    requires Inv(Move(Unlink(s, s.workers[w]), w, s.workers[w].(stage := Unlinked)))
    ensures ContentInv(Move(Unlink(s, s.workers[w]), w, s.workers[w].(stage := Unlinked)))
  {
    var phase := s.workers[w];
    assert PhaseTrue(s, phase);
    if Unlink(s, phase) == s {
      MoveTrue(s, w, phase.(stage := Unlinked));
    } else {
      var v := phase.claim.version;
      RowChangeTrue(s, w, v, s.rows[v].(remote := None, record := None), phase.(stage := Unlinked));
    }
  }

  function Installed(s: State, w: WorkerId, v: Version): State
    requires v in s.rows && s.rows[v].record.Some?
  {
    Move(CloseRow(s, v, Completed).(
           file := s.file.(backing := Drive, record := s.rows[v].record),
           installed := Some(Install(s.file, v, s.rows[v].record.value))), w, Ended)
  }

  lemma InstallTrue(s: State, w: WorkerId, v: Version)
    requires ContentInv(s) && v in s.rows && s.rows[v].record.Some? && Inv(Installed(s, w, v))
    ensures ContentInv(Installed(s, w, v))
  {
    assert RowTrue(s, v);
    CombineTrue(s, Installed(s, w, v), w, v);
  }

  lemma CutoverTrue(s: State, w: WorkerId)
    requires ContentInv(s) && w in s.workers && s.workers[w].Holding? && Inv(Cutover(s, w, s.workers[w]))
    ensures ContentInv(Cutover(s, w, s.workers[w]))
  {
    var phase := s.workers[w];
    var v := phase.claim.version;
    assert PhaseTrue(s, phase);
    hide ContentInv, Inv;
    var t := Cutover(s, w, phase);
    if t == Move(s, w, Caught(phase, false)) {
      MoveTrue(s, w, Caught(phase, false));
    } else if t.file == s.file {
      CloseTrue(s, w, v, t.rows[v].status);
    } else {
      InstallTrue(s, w, v);
    }
  }

  lemma RollbackTrue(s: State, w: WorkerId, v: Version, record: Option<RemoteId>)
    requires ContentInv(s) && Inv(Rollback(s, w, v, record))
    ensures ContentInv(Rollback(s, w, v, record))
  {
    var t := Rollback(s, w, v, record);
    if t == Move(s, w, Ended) {
      MoveTrue(s, w, Ended);
    } else {
      assert RowTrue(s, v);
      CombineTrue(s, t, w, v);
    }
  }

  lemma ReadTrue(s: State, w: WorkerId)
    requires ContentInv(s) && w in s.workers && s.workers[w].Holding? && Inv(Worked(s, w, s.workers[w]))
    requires var stage := s.workers[w].stage; stage.Claimed? || stage.Streamed? || stage.Stored? || stage.Checking?
    ensures ContentInv(Worked(s, w, s.workers[w]))
  {
    var phase := s.workers[w];
    assert PhaseTrue(s, phase);
    hide ContentInv, Inv;
    var t := Worked(s, w, phase);
    if t == s { return; }
    assert t == Move(s, w, t.workers[w]) && PhaseTrue(s, t.workers[w]) by {
      hide CloseRow, UpdateRow, Register, Cutover;
    }
    hide Worked;
    MoveTrue(s, w, t.workers[w]);
  }

  lemma WorkTrue(s: State, w: WorkerId)
    requires ContentInv(s) && w in s.workers && s.workers[w].Holding? && Inv(Worked(s, w, s.workers[w]))
    ensures ContentInv(Worked(s, w, s.workers[w]))
  {
    var phase := s.workers[w];
    assert PhaseTrue(s, phase);
    hide ContentInv, Inv;
    match phase.stage
    case Matched => if phase.item.Some? { UpdateTrue(s, w, Uploaded, phase.(stage := Stored)); }
    case Fetched => if phase.item.Some? { UpdateTrue(s, w, Verifying, phase.(stage := Checking)); }
    case Approved => if phase.item.Some? { RegisterTrue(s, w); }
    case Registered => CutoverTrue(s, w);
    case Cleaned => UnlinkTrue(s, w);
    case Unlinked =>
      if phase.claim.version in s.rows { CloseTrue(s, w, phase.claim.version, Failed); } else { MoveTrue(s, w, Ended); }
    case Failing =>
    case _ => ReadTrue(s, w);
  }

  lemma LeaseTrue(s: State, w: WorkerId, v: Version, row: Row)
    requires ContentInv(s) && v < |s.contents| && Inv(GiveLease(s, w, v, row))
    requires MaybeSame(s, row.remote, v) && MaybeSame(s, row.record, v)
    ensures ContentInv(GiveLease(s, w, v, row))
  {
    CombineTrue(s, GiveLease(s, w, v, row), w, v);
  }

  lemma TakeTrue(s: State, w: WorkerId, v: Version, seen: nat)
    requires ContentInv(s) && w in s.workers && s.workers[w] == Loaded(v) && Inv(Taken(s, w, v, seen))
    ensures ContentInv(Taken(s, w, v, seen))
  {
    assert PhaseTrue(s, s.workers[w]);
    if v in s.rows { assert RowTrue(s, v); }
    hide ContentInv, Inv, GiveLease;
    if Claimable(RowOrNew(s, v), seen) {
      LeaseTrue(s, w, v, RowOrNew(s, v));
    } else {
      MoveTrue(s, w, Ended);
    }
  }

  lemma StreamTrue(s: State, w: WorkerId, bytes: Bytes)
    requires ContentInv(s) && Apply(s, Stream(w, bytes)) != s && Inv(Apply(s, Stream(w, bytes)))
    ensures ContentInv(Apply(s, Stream(w, bytes)))
  {
    var t := Apply(s, Stream(w, bytes));
    var v := s.workers[w].claim.version;
    assert PhaseTrue(s, s.workers[w]) && PhaseValid(s, s.workers[w]);
    if v in s.rows {
      assert RowTrue(s, v) && RowValid(s, v);
      SameStays(s, t, s.rows[v].remote, v);
      SameStays(s, t, s.rows[v].record, v);
    }
    SameStays(s, t, s.workers[w].claim.remote, v);
    if s.file.record.Some? { SameStays(s, t, s.file.record, s.installed.value.version); }
    CombineTrue(s, t, w, v);
  }

  lemma DeleteTrue(s: State, x: RemoteId)
    requires ContentInv(s)
    ensures ContentInv(s.(live := s.live - {x}))
  {
    var t := s.(live := s.live - {x});
    OutsideKeepsInv(s, t);
    assert forall v | v in s.rows :: RowTrue(s, v) == RowTrue(t, v);
    assert forall w | w in s.workers :: PhaseTrue(s, s.workers[w]) == PhaseTrue(t, s.workers[w]);
  }

  lemma CompensateTrue(s: State, w: WorkerId, deleted: bool)
    requires ContentInv(s) && w in s.workers && s.workers[w].Holding? && s.workers[w].stage.Failing?
    requires OrphanCompared(s, Compensate(w, deleted)) && Inv(Compensated(s, w, s.workers[w], deleted))
    ensures ContentInv(Compensated(s, w, s.workers[w], deleted))
  {
    var phase := s.workers[w];
    var v := phase.claim.version;
    assert PhaseTrue(s, phase);
    if v in s.rows { assert RowTrue(s, v); }
    hide ContentInv, Inv;
    if phase.item.None? {
      MoveTrue(s, w, phase.(stage := Cleaned));
    } else if deleted {
      DeleteTrue(s, phase.item.value);
      MoveTrue(s.(live := s.live - {phase.item.value}), w, phase.(stage := Cleaned));
    } else if v in s.rows {
      RowChangeTrue(s, w, v, s.rows[v].(status := Failed, token := None, expires := None, remote := phase.item), Ended);
    } else {
      MoveTrue(s, w, Ended);
    }
  }

  lemma SurroundTrue(s: State, step: Step)
    requires ContentInv(s) && Inv(Surround(s, step))
    ensures ContentInv(Surround(s, step))
  {
    var t := Surround(s, step);
    assert FileTrue(t) by {
      if s.file.record.Some? { SameStays(s, t, s.file.record, s.installed.value.version); }
    }
    hide Surround;
    var w, v := 0, 0;
    if v in s.rows {
      assert RowTrue(s, v) && RowValid(s, v);
      SameStays(s, t, s.rows[v].remote, v);
      SameStays(s, t, s.rows[v].record, v);
    }
    if w in s.workers {
      assert PhaseTrue(s, s.workers[w]) && PhaseValid(s, s.workers[w]);
      PhaseTrueStays(s, t, s.workers[w]);
    }
    CombineTrue(s, t, w, v);
  }

  lemma BlockTrue(s: State, w: WorkerId, v: Version)
    requires ContentInv(s) && w in s.workers && s.workers[w] == Loaded(v) && Inv(Move(RecordBlocked(s, v), w, Ended))
    ensures ContentInv(Move(RecordBlocked(s, v), w, Ended))
  {
    assert PhaseTrue(s, s.workers[w]);
    if v in s.rows {
      CloseTrue(s, w, v, Blocked);
    } else {
      RowChangeTrue(s, w, v, Row(Blocked, None, None, None, None), Ended);
    }
  }

  lemma EntryTrue(s: State, step: Step)
    requires ContentInv(s) && (step.Load? || step.Block? || step.Crash? || step.StartRollback?)
    requires Apply(s, step) != s && Inv(Apply(s, step))
    ensures ContentInv(Apply(s, step))
  {
    assert FileTrue(s);
    hide ContentInv, Inv;
    match step
    case Load(w) => MoveTrue(s, w, if s.file.backing.Local? && s.file.current.Some? then Loaded(s.file.current.value) else Ended);
    case Block(w) => BlockTrue(s, w, s.workers[w].version);
    case Crash(w) => MoveTrue(s, w, Ended);
    case StartRollback(w) => MoveTrue(s, w, Returning(s.file.current.value));
  }

  lemma ReturnTrue(s: State, w: WorkerId, v: Version)
    requires ContentInv(s) && w in s.workers && Inv(Return(s, w, v))
    ensures ContentInv(Return(s, w, v))
  {
    hide ContentInv, Inv;
    MoveTrue(s, w, Return(s, w, v).workers[w]);
  }

  lemma FailTrue(s: State, w: WorkerId, missing: bool)
    requires ContentInv(s) && w in s.workers && InTry(s.workers[w]) && Inv(Move(s, w, Caught(s.workers[w], missing)))
    ensures ContentInv(Move(s, w, Caught(s.workers[w], missing)))
  {
    assert PhaseTrue(s, s.workers[w]);
    hide ContentInv, Inv;
    MoveTrue(s, w, Caught(s.workers[w], missing));
  }

  lemma WorkerTrue(s: State, step: Step)
    requires ContentInv(s) && (step.Take? || step.Stream? || step.Advance? || step.Fail? || step.Compensate?)
    requires Apply(s, step) != s && Inv(Apply(s, step)) && OrphanCompared(s, step)
    ensures ContentInv(Apply(s, step))
  {
    hide ContentInv, Inv;
    match step
    case Take(w, seen) => TakeTrue(s, w, s.workers[w].version, seen);
    case Stream(w, bytes) => StreamTrue(s, w, bytes);
    case Advance(w) =>
      if s.workers[w].Holding? { WorkTrue(s, w); }
      else if s.workers[w].Returning? { ReturnTrue(s, w, s.workers[w].version); }
      else if s.workers[w].RollingBack? { RollbackTrue(s, w, s.workers[w].version, s.workers[w].record); }
    case Fail(w, missing) => FailTrue(s, w, missing);
    case Compensate(w, deleted) => CompensateTrue(s, w, deleted);
  }

  lemma ApplyTrue(s: State, step: Step)
    requires ContentInv(s) && OrphanCompared(s, step)
    ensures ContentInv(Apply(s, step))
  {
    ApplyKeepsInv(s, step);
    hide ContentInv, Inv;
    if Apply(s, step) == s { return; }
    if IsOutside(step) {
      OutsideIsSurround(s, step);
      SurroundTrue(s, step);
    } else if step.Load? || step.Block? || step.Crash? || step.StartRollback? {
      EntryTrue(s, step);
    } else {
      WorkerTrue(s, step);
    }
  }

  lemma {:induction false} RunTrue(bytes: Bytes, steps: seq<Step>)
    requires Always(Start(bytes), steps)
    ensures ContentInv(Run(Start(bytes), steps))
    decreases |steps|
  {
    if steps != [] {
      var prefix := steps[..|steps| - 1];
      forall i | 0 <= i < |prefix| ensures OrphanCompared(Run(Start(bytes), prefix[..i]), prefix[i]) {
        assert prefix[..i] == steps[..i];
      }
      RunTrue(bytes, prefix);
      ApplyTrue(Run(Start(bytes), prefix), steps[|steps| - 1]);
    }
  }

  // ------------------------------------------------------------ main results

  /**
   In runs that store no uncompared orphan, the row's object always holds the
   bytes of its source version, and whenever the file is on Drive its object
   holds the bytes of the version the cutover found current.
   */
  lemma RemoteHoldsSourceBytes(bytes: Bytes, steps: seq<Step>)
    requires Always(Start(bytes), steps)
    ensures var s := Run(Start(bytes), steps);
      && (forall v | v in s.rows && s.rows[v].remote.Some? :: SameBytes(s, s.rows[v].remote.value, v))
      && (s.file.record.Some? ==>
            s.installed.Some? && s.installed.value.before.current == Some(s.installed.value.version)
            && SameBytes(s, s.file.record.value, s.installed.value.version))
  {
    RunTrue(bytes, steps);
    var s := Run(Start(bytes), steps);
    assert forall v | v in s.rows :: RowTrue(s, v);
  }

  /** Storing an orphan keeps the row true exactly when it had been compared. */
  lemma OrphanTrueIffCompared(s: State, step: Step)
    requires ContentInv(s) && StoresOrphan(s, step) && s.workers[step.worker].claim.version in s.rows
    ensures ContentInv(Apply(s, step)) <==> OrphanCompared(s, step)
  {
    var phase := s.workers[step.worker];
    var v := phase.claim.version;
    if OrphanCompared(s, step) {
      ApplyTrue(s, step);
    } else {
      var t := Apply(s, step);
      assert t.rows[v].remote == phase.item;
      assert !RowTrue(t, v);
    }
  }

  lemma OtherBytesStreamed(right: Bytes, wrong: Bytes) returns (s: State)
    ensures Reaches(Start(right), s)
    ensures s == Start(right).(rows := s.rows, workers := s.workers, tokens := 1, remotes := 1, live := {0},
                               streamed := map[0 := wrong], owner := map[0 := 0])
    ensures s.rows == map[0 := Row(Uploading, None, None, Some(0), Some(LEASE))]
    ensures s.workers == map[0 := Holding(Streamed, Claim(0, 0, None), Some(0), true, false)]
  {
    var from := Start(right);
    assert Run(from, []) == from;
    assert Reaches(from, from);
    hide Reaches, Run;
    s := Apply(from, Load(0));
    ReachesNext(from, from, Load(0));
    ReachesNext(from, s, Take(0, 0));
    s := Apply(s, Take(0, 0));
    ReachesNext(from, s, Stream(0, wrong));
    s := Apply(s, Stream(0, wrong));
  }

  /** The first worker uploads other bytes, notices, and cannot delete the object. */
  lemma OrphanStored(right: Bytes, wrong: Bytes) returns (s: State)
    requires right != wrong
    ensures Reaches(Start(right), s)
    ensures s.file == File(Local, None, Some(0)) && !s.editing && s.foreign == {} && s.contents == [right]
    ensures s.now == 0 && s.rows == map[0 := Row(Failed, None, Some(0), None, None)] && s.tokens == 1
    ensures s.live == {0} && s.streamed == map[0 := wrong] && 1 !in s.workers
  {
    s := OtherBytesStreamed(right, wrong);
    hide Reaches;
    ReachesNext(Start(right), s, Advance(0));
    s := Apply(s, Advance(0));
    ReachesNext(Start(right), s, Compensate(0, false));
    s := Apply(s, Compensate(0, false));
  }

  lemma OrphanResumed(from: State, before: State, wrong: Bytes) returns (s: State)
    requires Reaches(from, before)
    requires before.file == File(Local, None, Some(0)) && !before.editing && before.foreign == {} && |before.contents| == 1
    requires before.now == 0 && before.rows == map[0 := Row(Failed, None, Some(0), None, None)] && before.tokens == 1
    requires before.live == {0} && before.streamed == map[0 := wrong] && 1 !in before.workers
    ensures Reaches(from, s)
    ensures s == before.(rows := s.rows, workers := s.workers, tokens := 2)
    ensures s.rows == map[0 := Row(Uploading, None, Some(0), Some(1), Some(LEASE))]
    ensures 1 in s.workers && s.workers[1] == Holding(Fetched, Claim(0, 1, Some(0)), Some(0), false, false)
  {
    hide Reaches;
    s := Apply(before, Load(1));
    ReachesNext(from, before, Load(1));
    ReachesNext(from, s, Take(1, 0));
    s := Apply(s, Take(1, 0));
    ReachesNext(from, s, Advance(1));
    s := Apply(s, Advance(1));
    ReachesNext(from, s, Advance(1));
    s := Apply(s, Advance(1));
  }

  lemma OrphanChecked(from: State, before: State, wrong: Bytes) returns (s: State)
    requires Reaches(from, before)
    requires |before.contents| == 1 && before.streamed == map[0 := wrong] && |wrong| == |before.contents[0]|
    requires before.rows == map[0 := Row(Uploading, None, Some(0), Some(1), Some(LEASE))]
    requires 1 in before.workers && before.workers[1] == Holding(Fetched, Claim(0, 1, Some(0)), Some(0), false, false)
    ensures Reaches(from, s)
    ensures s == before.(rows := s.rows, workers := s.workers)
    ensures s.rows == map[0 := Row(Verifying, None, Some(0), Some(1), Some(before.now + LEASE))]
    ensures 1 in s.workers && s.workers[1] == Holding(Approved, Claim(0, 1, Some(0)), Some(0), false, false)
  {
    hide Reaches;
    s := Apply(before, Advance(1));
    ReachesNext(from, before, Advance(1));
    ReachesNext(from, s, Advance(1));
    s := Apply(s, Advance(1));
  }

  lemma OrphanInstalled(from: State, before: State) returns (s: State)
    requires Reaches(from, before)
    requires before.file == File(Local, None, Some(0)) && !before.editing && before.foreign == {}
    requires before.rows == map[0 := Row(Verifying, None, Some(0), Some(1), Some(before.now + LEASE))]
    requires 1 in before.workers && before.workers[1] == Holding(Approved, Claim(0, 1, Some(0)), Some(0), false, false)
    ensures Reaches(from, s)
    ensures s.file.record == Some(0) && s.streamed == before.streamed && s.contents == before.contents
  {
    hide Reaches;
    s := Apply(before, Advance(1));
    ReachesNext(from, before, Advance(1));
    ReachesNext(from, s, Advance(1));
    s := Apply(s, Advance(1));
  }

  /**
   The exclusion is needed: for any two different contents of the same length
   there is a run, with one orphan and a resumed row, whose cutover installs the
   wrong bytes.
   */
  lemma OrphanInstallsOtherBytes(right: Bytes, wrong: Bytes)
    requires right != wrong && |right| == |wrong|
    ensures exists s :: (
      && Reaches(Start(right), s) && s.contents == [right]
      && s.file.backing.Drive? && s.file.record.Some? && s.file.record.value in s.streamed
      && s.streamed[s.file.record.value] == wrong)
  {
    var s := OrphanStored(right, wrong);
    s := OrphanResumed(Start(right), s, wrong);
    s := OrphanChecked(Start(right), s, wrong);
    s := OrphanInstalled(Start(right), s);
    assert Inv(s) by {
      var steps :| Run(Start(right), steps) == s;
      RunKeepsInv(right, steps);
    }
  }
}
