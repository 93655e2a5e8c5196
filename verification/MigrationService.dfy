/**
 `migrateFile` and `rollback` as threads of row updates with awaits in between,
 at which other workers, editors and Drive may do anything and the thread may
 die. Each is proved to be a run of the migration machine, so what the runs
 keep holds of any mix of threads; and a migration that nothing disturbs is
 proved to move the file to Drive exactly when it should.
 */
module MigrationService {
  import opened ByteStrings
  import opened Wrappers
  import opened DriveMigration
  import opened MigrationContents
  import opened MigrationSafety

  predicate WorkerOf(step: Step, w: WorkerId) {
    !IsOutside(step) && step.worker == w
  }

  predicate NotMine(steps: seq<Step>, w: WorkerId) {
    forall i | 0 <= i < |steps| :: !WorkerOf(steps[i], w)
  }

  /** The thread is where it was, and the clock has not gone back. */
  predicate Unmoved(s: State, t: State, w: WorkerId)
    requires w in s.workers
  {
    w in t.workers && t.workers[w] == s.workers[w] && s.now <= t.now
  }

  lemma CutoverKeepsOthers(s: State, o: WorkerId, phase: Phase, w: WorkerId)
    requires phase.Holding? && w in s.workers && w != o
    ensures Unmoved(s, Cutover(s, o, phase), w)
  {
  }

  lemma WorkedOnKeepsOthers(s: State, o: WorkerId, phase: Phase, remote: RemoteId, w: WorkerId)
    requires phase.Holding? && phase.item == Some(remote) && w in s.workers && w != o
    ensures Unmoved(s, WorkedOn(s, o, phase, remote), w)
  {
    hide SameBytes, SameSize, Register, UpdateRow;
    RegisterKeepsOthers(s, o, phase, w);
    UpdateMovesNobody(s, phase.claim, remote);
  }

  lemma RegisterKeepsOthers(s: State, o: WorkerId, phase: Phase, w: WorkerId)
    requires phase.Holding? && phase.item.Some? && w in s.workers && w != o
    ensures Unmoved(s, Register(s, o, phase), w)
  {
  }

  lemma UpdateMovesNobody(s: State, claim: DriveMigration.Claim, remote: RemoteId)
    ensures forall status :: var t := UpdateRow(s, claim, status, remote); t.workers == s.workers && t.now == s.now
  {
  }

  lemma CleaningKeepsOthers(s: State, o: WorkerId, phase: Phase, w: WorkerId)
    requires phase.Holding? && w in s.workers && w != o
    requires phase.stage.Cleaned? || phase.stage.Unlinked? || phase.stage.Failing? || phase.stage.Claimed?
    ensures Unmoved(s, Worked(s, o, phase), w)
  {
    hide WorkedOn, Cutover;
  }

  lemma WorkedKeepsOthers(s: State, o: WorkerId, phase: Phase, w: WorkerId)
    requires phase.Holding? && w in s.workers && w != o
    ensures Unmoved(s, Worked(s, o, phase), w)
  {
    var stage := phase.stage;
    hide WorkedOn, Cutover, CloseRow, Unlink;
    if stage.Registered? {
      CutoverKeepsOthers(s, o, phase, w);
    } else if stage.Cleaned? || stage.Unlinked? || stage.Failing? || stage.Claimed? {
      hide Worked;
      CleaningKeepsOthers(s, o, phase, w);
    } else if phase.item.Some? {
      WorkedOnKeepsOthers(s, o, phase, phase.item.value, w);
    }
  }

  lemma AdvanceKeepsOthers(s: State, o: WorkerId, w: WorkerId)
    requires o in s.workers && w in s.workers && w != o
    ensures Unmoved(s, Advanced(s, o), w)
  {
    if s.workers[o].Holding? { WorkedKeepsOthers(s, o, s.workers[o], w); }
    hide Worked;
  }

  lemma OutsideKeepsPhases(s: State, step: Step, w: WorkerId)
    requires w in s.workers && IsOutside(step)
    ensures Unmoved(s, Apply(s, step), w)
  {
    assert Apply(s, step) == Surround(s, step);
    hide Surround, Apply;
  }

  lemma EntryKeepsOthers(s: State, step: Step, w: WorkerId)
    requires w in s.workers && !WorkerOf(step, w)
    requires step.Load? || step.Block? || step.Take? || step.StartRollback? || step.Crash?
    ensures Unmoved(s, Apply(s, step), w)
  {
    hide Claimable, RowOrNew;
  }

  lemma StreamKeepsOthers(s: State, step: Step, w: WorkerId)
    requires w in s.workers && !WorkerOf(step, w) && (step.Stream? || step.Fail?)
    ensures Unmoved(s, Apply(s, step), w)
  {
    hide Caught;
  }

  lemma CompensateKeepsOthers(s: State, step: Step, w: WorkerId)
    requires w in s.workers && !WorkerOf(step, w) && step.Compensate?
    ensures Unmoved(s, Apply(s, step), w)
  {
  }

  /** Only its own steps move a thread. */
  lemma OthersKeepPhase(s: State, step: Step, w: WorkerId)
    requires w in s.workers && !WorkerOf(step, w)
    ensures Unmoved(s, Apply(s, step), w)
  {
    if IsOutside(step) {
      OutsideKeepsPhases(s, step, w);
      hide Apply;
    } else if step.Advance? {
      if step.worker in s.workers { AdvanceKeepsOthers(s, step.worker, w); }
      hide Advanced;
    } else {
      hide Apply;
      if step.Stream? || step.Fail? { StreamKeepsOthers(s, step, w); }
      else if step.Compensate? { CompensateKeepsOthers(s, step, w); }
      else { EntryKeepsOthers(s, step, w); }
    }
  }

  /** A run leads there; while `kept`, one that has stored no uncompared orphan. */
  ghost predicate LeadsTo(kept: bool, from: State, to: State) {
    Reaches(from, to) && (kept ==> ReachesTrue(from, to))
  }

  lemma LeadsNext(kept: bool, from: State, to: State, step: Step)
    requires LeadsTo(kept, from, to)
    ensures LeadsTo(kept && OrphanCompared(to, step), from, Apply(to, step))
  {
    hide Reaches, ReachesTrue, Apply, OrphanCompared;
    ReachesNext(from, to, step);
    if kept && OrphanCompared(to, step) { ReachesTrueNext(from, to, step); }
  }

  lemma LeadsWeaker(kept: bool, less: bool, from: State, to: State)
    requires LeadsTo(kept, from, to) && (less ==> kept)
    ensures LeadsTo(less, from, to)
  {
  }

  lemma AlwaysShorter(s: State, steps: seq<Step>)
    requires steps != [] && Always(s, steps)
    ensures var n := |steps| - 1; Always(s, steps[..n]) && OrphanCompared(Run(s, steps[..n]), steps[n])
  {
    var shorter := steps[..|steps| - 1];
    hide Run, OrphanCompared;
    forall i | 0 <= i < |shorter| ensures OrphanCompared(Run(s, shorter[..i]), shorter[i]) {
      assert shorter[..i] == steps[..i];
    }
  }

  lemma {:induction false} OthersRun(kept: bool, from: State, s: State, steps: seq<Step>, w: WorkerId)
    requires w in s.workers && NotMine(steps, w) && LeadsTo(kept, from, s)
    ensures Unmoved(s, Run(s, steps), w)
    ensures LeadsTo(kept && Always(s, steps), from, Run(s, steps))
    decreases |steps|
  {
    if steps != [] {
      var init, last := steps[..|steps| - 1], steps[|steps| - 1];
      OthersRun(kept, from, s, init, w);
      assert Run(s, steps) == Apply(Run(s, init), last);
      if Always(s, steps) { AlwaysShorter(s, steps); }
      hide Run, LeadsTo, Always, OrphanCompared;
      OthersKeepPhase(Run(s, init), last, w);
      LeadsNext(kept && Always(s, init), from, Run(s, init), last);
      LeadsWeaker(kept && Always(s, init) && OrphanCompared(Run(s, init), last), kept && Always(s, steps),
                  from, Run(s, steps));
    }
  }

  // ------------------------------------------------------------ a migration nothing disturbs

  /** The object a worker that claims now would move the file to: an earlier one, or the next upload. */
  function ObjectFor(s: State): RemoteId
    requires s.file.current.Some?
  {
    var remote := RowOrNew(s, s.file.current.value).remote;
    if remote.Some? then remote.value else s.remotes
  }

  /** What an undisturbed migration needs of the file, the row, and what Drive is sent and says. */
  predicate CanMigrate(s: State, delivered: Bytes, attributes: bool)
    requires s.file.current.Some?
  {
    var v, x := s.file.current.value, ObjectFor(s);
    && s.file == File(Local, None, Some(v)) && !s.editing && x !in s.foreign && attributes
    && Claimable(RowOrNew(s, v), s.now)
    && (if RowOrNew(s, v).remote.Some? then x in s.live && SameSize(s, x, v)
        else v < |s.contents| && delivered == s.contents[v])
  }

  predicate Migrated(s: State, v: Version, x: RemoteId) {
    s.file == File(Drive, Some(x), Some(v)) && v in s.rows && s.rows[v] == Row(Completed, Some(x), Some(x), None, None)
  }

  /** The row a failed try leaves: without the name of an object that was found missing. */
  function AfterFailure(row: Row, phase: Phase): Row
    requires phase.Holding?
  {
    if phase.claim.remote.Some? && phase.missing then Row(Failed, None, None, None, None)
    else Row(Failed, row.record, row.remote, None, None)
  }

  /** The file waits for a migration of this version, and nobody edits it. */
  predicate Waits(s: State, v: Version) {
    s.file == File(Local, None, Some(v)) && !s.editing && v in s.rows
  }

  /** The world around the row of one version. */
  predicate SameAround(s: State, t: State, v: Version) {
    && t.file == s.file && t.editing == s.editing && t.foreign == s.foreign && t.contents == s.contents && t.now == s.now
    && v in t.rows && t.rows == s.rows[v := t.rows[v]]
  }

  /**
   How an undisturbed try ends for the row of a waiting file: moved to its
   object if that passes; otherwise FAILED, without the name of an earlier object
   that is gone, with the name of one that is still there, and with whatever was
   uploaded deleted again.
   */
  predicate TryEnds(s: State, t: State, v: Version, delivered: Bytes, attributes: bool)
    requires v in s.rows
  {
    var row := s.rows[v];
    var x := if row.remote.Some? then row.remote.value else s.remotes;
    var sound := if row.remote.Some? then x in s.live && SameSize(s, x, v)
                 else v < |s.contents| && delivered == s.contents[v];
    if sound && x !in s.foreign && attributes then Migrated(t, v, x)
    else
      && SameAround(s, t, v)
      && t.live == (if row.remote.Some? then s.live else s.live - {x})
      && t.remotes == (if row.remote.Some? then s.remotes else s.remotes + 1)
      && t.rows[v] ==
         if row.remote.Some? then
           if x in s.live then Row(Failed, row.record, row.remote, None, None) else Row(Failed, None, None, None, None)
         else Row(Failed, row.record, if sound then Some(x) else None, None, None)
  }

  /** Nothing but rows and workers has changed. */
  predicate SameWorld(s: State, t: State) {
    t == s.(rows := t.rows, workers := t.workers, verified := t.verified)
  }

  /** How an undisturbed `migrateFile` leaves the row of the current version. */
  predicate MigrationEnds(s: State, t: State, damaged: bool, delivered: Bytes, attributes: bool)
    requires s.file.current.Some?
  {
    var v := s.file.current.value;
    if damaged || s.editing then
      SameAround(s, t, v) && t.rows[v] == RowOrNew(s, v).(status := Blocked, token := None, expires := None)
    else if !Claimable(RowOrNew(s, v), s.now) then t.rows == s.rows && t.file == s.file
    else
      s.file.record.None? ==> TryEnds(s.(rows := s.rows[v := RowOrNew(s, v)]), t, v, delivered, attributes)
  }

  /**
   A row whose object is gone forgets it, so the next undisturbed migration
   uploads afresh and moves the file.
   */
  lemma MissingObjectIsForgotten(s: State, t: State, delivered: Bytes, attributes: bool, again: Bytes)
    requires s.file.current.Some? && s.file == File(Local, None, s.file.current) && !s.editing
    requires var row := RowOrNew(s, s.file.current.value);
      Claimable(row, s.now) && row.remote.Some? && row.remote.value !in s.live
    requires MigrationEnds(s, t, false, delivered, attributes)
    ensures var v := s.file.current.value;
      && v in t.rows && t.rows[v] == Row(Failed, None, None, None, None) && t.file == s.file
      && (v < |s.contents| && again == s.contents[v] && s.remotes !in s.foreign ==>
            CanMigrate(t, again, true) && ObjectFor(t) == s.remotes)
  {
  }

  /** An object that is still there keeps its name, whatever else the try found wrong. */
  lemma LiveObjectIsKept(s: State, t: State, delivered: Bytes, attributes: bool)
    requires s.file.current.Some? && s.file == File(Local, None, s.file.current) && !s.editing
    requires var row := RowOrNew(s, s.file.current.value);
      Claimable(row, s.now) && row.remote.Some? && row.remote.value in s.live
    requires MigrationEnds(s, t, false, delivered, attributes) && t.file.backing.Local?
    ensures var v := s.file.current.value;
      v in t.rows && t.rows[v] == Row(Failed, RowOrNew(s, v).record, RowOrNew(s, v).remote, None, None)
  {
  }

  /** The gate of the cutover. */
  predicate CanInstall(s: State, phase: Phase)
    requires phase.Holding?
  {
    var v := phase.claim.version;
    && v in s.rows && s.rows[v].token == Some(phase.claim.token) && s.rows[v].status.Verified? && s.rows[v].record.Some?
    && s.file == File(Local, None, Some(v)) && !s.editing && s.rows[v].record.value !in s.foreign
  }

  /** What the checks between upload and cutover ask of an object. */
  predicate PassesChecks(s: State, phase: Phase, attributes: bool)
    requires phase.Holding? && phase.item.Some?
  {
    var v, x := phase.claim.version, phase.item.value;
    && v in s.rows && s.file == File(Local, None, Some(v)) && !s.editing
    && x in s.live && x !in s.foreign && SameSize(s, x, v) && attributes
  }

  class DriveFileMigrations {
    /** The tables, Drive, the clock, and how far every thread is. */
    var state: State
    const calm: bool                // nothing happens at awaits, and no call throws
    ghost const origin: State
    ghost var kept: bool            // no uncompared orphan has been stored

    ghost predicate Tracked()
      reads this
    {
      LeadsTo(kept, origin, state)
    }

    ghost predicate At(w: WorkerId)
      reads this
    {
      Tracked() && w in state.workers
    }

    constructor (bytes: Bytes, calm: bool)
      ensures state == Start(bytes) == origin && this.calm == calm && kept && Tracked()
    {
      state, this.calm, origin, kept := Start(bytes), calm, Start(bytes), true;
      new;
      assert Run(origin, []) == state;
      assert Always(origin, []);
    }

    /** A step of the machine is about to be made. */
    ghost method Log(step: Step)
      requires Tracked()
      modifies `kept
      ensures kept == (old(kept) && OrphanCompared(state, step))
      ensures LeadsTo(kept, origin, Apply(state, step))
    {
      LeadsNext(kept, origin, state, step);
      kept := kept && OrphanCompared(state, step);
    }

    method Go(w: WorkerId, phase: Phase)
      modifies `state
      ensures state == Move(old(state), w, phase)
    {
      state := state.(workers := state.workers[w := phase]);
    }

    method Interfere(w: WorkerId)
      requires At(w)
      modifies this
      ensures At(w) && Unmoved(old(state), state, w) && (kept ==> old(kept))
    {
      var steps: seq<Step> := *;
      if NotMine(steps, w) {
        OthersRun(kept, origin, state, steps, w);
        var t := Run(state, steps);
        kept := kept && Always(state, steps);
        hide Run, LeadsTo, Always;
        state := t;
      }
    }

    /** An await: others move, and this thread may not come back. */
    method Await(w: WorkerId) returns (alive: bool)
      requires At(w)
      modifies this
      ensures At(w) && state.workers[w] == if alive then old(state.workers[w]) else Ended
      ensures (kept ==> old(kept)) && old(state).now <= state.now && (calm ==> alive && state == old(state))
    {
      alive := true;
      if calm { return; }
      Interfere(w);
      alive := *;
      if !alive {
        hide LeadsTo;
        Log(Crash(w));
        Go(w, Ended);
      }
    }

    /** The file is read; nothing is to be done unless it is LOCAL and has a current version. */
    method LoadSource(w: WorkerId) returns (version: Option<Version>)
      requires Tracked() && w !in state.workers
      modifies this
      ensures At(w) && kept == old(kept) && SameWorld(old(state), state) && state.rows == old(state).rows
      ensures version == if old(state).file.backing.Local? then old(state).file.current else None
      ensures state.workers[w] == if version.Some? then Loaded(version.value) else Ended
    {
      hide LeadsTo;
      Log(Load(w));
      version := if state.file.backing.Local? then state.file.current else None;
      Go(w, if version.Some? then Loaded(version.value) else Ended);
    }

    /** `recordBlocked`: an upsert that clears any lease, another worker's too. */
    method RecordBlocked(w: WorkerId, v: Version)
      requires At(w) && state.workers[w] == Loaded(v)
      modifies this
      ensures At(w) && kept == old(kept) && SameWorld(old(state), state) && state.workers[w] == Ended
      ensures state.rows == old(state).rows[v :=
        if v in old(state).rows then old(state).rows[v].(status := Blocked, token := None, expires := None)
        else Row(Blocked, None, None, None, None)]
    {
      hide LeadsTo;
      Log(Block(w));
      if v in state.rows {
        state := state.(rows := state.rows[v := state.rows[v].(status := Blocked, token := None, expires := None)]);
      } else {
        state := state.(rows := state.rows[v := Row(Blocked, None, None, None, None)]);
      }
      Go(w, Ended);
    }

    /** `claim`: a lease on the row, unless it is complete or someone's lease still runs. */
    method Claim(w: WorkerId, v: Version, seen: nat) returns (claim: Option<Claim>)
      requires At(w) && state.workers[w] == Loaded(v) && seen <= state.now
      modifies this
      ensures At(w) && kept == old(kept) && SameWorld(old(state), state.(tokens := old(state).tokens))
      ensures state.workers[w] == if claim.Some? then Holding(Claimed, claim.value, None, false, false) else Ended
      ensures claim.Some? ==>
        && claim.value.version == v && claim.value.remote == RowOrNew(old(state), v).remote
        && v in state.rows && state.rows[v].token == Some(claim.value.token)
        && state.rows[v].expires == Some(state.now + LEASE)
      ensures claim.None? ==> state.rows == old(state).rows
      ensures claim.Some? <==>
        !(v in old(state).rows && (old(state).rows[v].status.Completed?
                             || (old(state).rows[v].status in {Uploading, Uploaded, Verifying, Verified}
                                 && old(state).rows[v].expires.Some? && old(state).rows[v].expires.value > seen)))
      ensures claim.Some? ==>
        && state.tokens == old(state).tokens + 1 && claim.value.token == old(state).tokens
        && state.rows == old(state).rows[v :=
             RowOrNew(old(state), v).(status := Uploading, token := Some(claim.value.token), expires := Some(state.now + LEASE))]
    {
      hide LeadsTo;
      if v in state.rows && state.rows[v].status.Completed? {
        GiveUp(w, v, seen);
        return None;
      }
      if v in state.rows && state.rows[v].expires.Some? && state.rows[v].expires.value > seen
         && LeaseProtected(state.rows[v].status) {
        GiveUp(w, v, seen);
        return None;
      }
      claim := TakeLease(w, v, seen);
    }

    method GiveUp(w: WorkerId, v: Version, seen: nat)
      requires At(w) && state.workers[w] == Loaded(v) && seen <= state.now && !Claimable(RowOrNew(state, v), seen)
      modifies this
      ensures At(w) && kept == old(kept) && state == Move(old(state), w, Ended)
    {
      hide LeadsTo, Claimable, RowOrNew;
      Log(Take(w, seen));
      Go(w, Ended);
    }

    method TakeLease(w: WorkerId, v: Version, seen: nat) returns (claim: Option<Claim>)
      requires At(w) && state.workers[w] == Loaded(v) && seen <= state.now && Claimable(RowOrNew(state, v), seen)
      modifies this
      ensures At(w) && kept == old(kept) && claim.Some?
      ensures state == GiveLease(old(state), w, v, RowOrNew(old(state), v))
      ensures claim.value == DriveMigration.Claim.Claim(v, old(state).tokens, RowOrNew(old(state), v).remote)
    {
      hide LeadsTo, Claimable;
      Log(Take(w, seen));
      var row := if v in state.rows then state.rows[v] else Row(Pending, None, None, None, None);
      var leaseToken := state.tokens;
      state := state.(tokens := state.tokens + 1,
              rows := state.rows[v := row.(status := Uploading, token := Some(leaseToken), expires := Some(state.now + LEASE))]);
      claim := Some(DriveMigration.Claim.Claim(v, leaseToken, row.remote));
      Go(w, Holding(Claimed, claim.value, None, false, false));
    }

    /** The object of an earlier try is looked up instead of uploading again. */
    method Resume(w: WorkerId) returns (ok: bool)
      requires At(w) && InStage(w, Claimed) && state.workers[w].claim.remote.Some?
      modifies this
      ensures At(w) && kept == old(kept) && SameClaim(old(state), state, w)
      ensures SameWorld(old(state), state) && state.rows == old(state).rows
      ensures ok <==> state.workers[w].claim.remote.value in old(state).live
      ensures if ok then InStage(w, Stored) && state.workers[w].item == state.workers[w].claim.remote else InStage(w, Failing)
      ensures !ok ==> EntersCatch(old(state), state, w, true)
      ensures ok ==> state.workers[w].own == old(state.workers[w]).own
    {
      hide LeadsTo;
      Log(Advance(w));
      var phase := state.workers[w];
      ok := phase.claim.remote.value in state.live;
      Go(w, if ok then phase.(stage := Stored, item := phase.claim.remote) else Caught(phase, true));
    }

    /** A fresh upload; `bytes` is what the source stream delivered. */
    method Upload(w: WorkerId, bytes: Bytes)
      requires At(w) && InStage(w, Claimed) && state.workers[w].claim.remote.None?
      modifies this
      ensures At(w) && kept == old(kept) && SameClaim(old(state), state, w) && InStage(w, Streamed)
      ensures state.workers[w].item == Some(old(state).remotes) && state.workers[w].own
      ensures SameWorld(old(state).(live := state.live, streamed := state.streamed, remotes := state.remotes,
                                    owner := state.owner), state) && state.rows == old(state).rows
      ensures state.live == old(state).live + {old(state).remotes} && state.remotes == old(state).remotes + 1
      ensures state.streamed == old(state).streamed[old(state).remotes := bytes]
    {
      hide LeadsTo;
      Log(Stream(w, bytes));
      var phase, id := state.workers[w], state.remotes;
      state := state.(remotes := id + 1, live := state.live + {id}, streamed := state.streamed[id := bytes],
                      owner := state.owner[id := phase.claim.version]);
      Go(w, phase.(stage := Streamed, item := Some(id), own := true));
    }

    /** Byte count and digest of what was streamed against the source version. */
    method CompareDigest(w: WorkerId) returns (ok: bool)
      requires At(w) && HasItem(w, Streamed)
      modifies this
      ensures At(w) && kept == old(kept) && SameItem(old(state), state, w, ok)
      ensures SameWorld(old(state), state) && state.rows == old(state).rows
      ensures if ok then HasItem(w, Matched) else InStage(w, Failing)
      ensures ok <==> SameBytes(old(state), old(state.workers[w]).item.value, old(state.workers[w]).claim.version)
      ensures var x, v := old(state.workers[w]).item.value, old(state.workers[w]).claim.version;
        ok <==> x in state.streamed && v < |state.contents| && state.streamed[x] == state.contents[v]
      ensures !ok ==> EntersCatch(old(state), state, w, false)
      ensures ok ==> state.workers[w].own == old(state.workers[w]).own
    {
      hide LeadsTo, SameSize;
      Log(Advance(w));
      var phase := state.workers[w];
      ok := SameBytes(state, phase.item.value, phase.claim.version);
      Go(w, if ok then phase.(stage := Matched) else Caught(phase, false));
    }

    /** The row is overwritten, whoever holds its lease now. */
    method StoreRemote(w: WorkerId)
      requires At(w) && (HasItem(w, Matched) || HasItem(w, Fetched))
      modifies this
      ensures At(w) && kept == old(kept) && SameItem(old(state), state, w, true) && SameWorld(old(state), state)
      ensures HasItem(w, if old(state.workers[w]).stage.Matched? then Stored else Checking)
      ensures state.workers[w].own == old(state.workers[w]).own
      ensures var v, phase := old(state.workers[w]).claim.version, old(state.workers[w]);
        state.rows == if v !in old(state).rows then old(state).rows else
          old(state).rows[v := Row(if phase.stage.Matched? then Uploaded else Verifying, old(state).rows[v].record,
                                   phase.item, Some(phase.claim.token), Some(state.now + LEASE))]
    {
      hide LeadsTo;
      Log(Advance(w));
      var phase := state.workers[w];
      var v, status := phase.claim.version, if phase.stage.Matched? then Uploaded else Verifying;
      if v in state.rows {
        state := state.(rows := state.rows[v := state.rows[v].(
          status := status, remote := phase.item, token := Some(phase.claim.token), expires := Some(state.now + LEASE))]);
      }
      Go(w, phase.(stage := if phase.stage.Matched? then Stored else Checking));
    }

    method Fetch(w: WorkerId) returns (ok: bool)
      requires At(w) && HasItem(w, Stored)
      modifies this
      ensures At(w) && kept == old(kept) && SameItem(old(state), state, w, ok)
      ensures SameWorld(old(state), state) && state.rows == old(state).rows
      ensures if ok then HasItem(w, Fetched) else InStage(w, Failing)
      ensures ok <==> old(state.workers[w]).item.value in old(state).live
      ensures !ok ==> EntersCatch(old(state), state, w, true)
      ensures ok ==> state.workers[w].own == old(state.workers[w]).own
    {
      hide LeadsTo;
      Log(Advance(w));
      var phase := state.workers[w];
      ok := phase.item.value in state.live;
      Go(w, if ok then phase.(stage := Fetched) else Caught(phase, true));
    }

    /** `verifyRemote`: name, type, trash and parent as Drive reports them (`attributes`), and the size. */
    method VerifyRemote(w: WorkerId, attributes: bool) returns (ok: bool)
      requires At(w) && HasItem(w, Checking)
      modifies this
      ensures At(w) && kept == old(kept) && SameItem(old(state), state, w, ok)
      ensures SameWorld(old(state), state) && state.rows == old(state).rows
      ensures if ok then HasItem(w, Approved) else InStage(w, Failing)
      ensures ok <==> attributes && SameSize(old(state), old(state.workers[w]).item.value, old(state.workers[w]).claim.version)
      ensures var x, v := old(state.workers[w]).item.value, old(state.workers[w]).claim.version;
        ok <==> attributes && x in state.streamed && v < |state.contents| && |state.streamed[x]| == |state.contents[v]|
      ensures !ok ==> EntersCatch(old(state), state, w, false)
      ensures ok ==> state.workers[w].own == old(state.workers[w]).own
    {
      hide LeadsTo, SameBytes;
      var phase := state.workers[w];
      ok := attributes && SameSize(state, phase.item.value, phase.claim.version);
      Log(if attributes then Advance(w) else Fail(w, false));
      Go(w, if ok then phase.(stage := Approved) else Caught(phase, false));
    }

    method RegisterVerified(w: WorkerId) returns (ok: bool)
      requires At(w) && HasItem(w, Approved)
      modifies this
      ensures At(w) && kept == old(kept) && SameItem(old(state), state, w, ok) && SameWorld(old(state), state)
      ensures if ok then HasItem(w, Registered) else InStage(w, Failing)
      ensures ok <==> old(state.workers[w]).item.value !in old(state).foreign && old(state.workers[w]).claim.version in old(state).rows
      ensures ok ==>
        var claim := state.workers[w].claim;
        && claim.version in state.rows && state.rows[claim.version].status.Verified?
        && state.rows[claim.version].token == Some(claim.token)
        && state.rows[claim.version].record == state.workers[w].item
      ensures !ok ==> EntersCatch(old(state), state, w, false)
      ensures state.rows == if !ok then old(state).rows else
        var v, phase := old(state.workers[w]).claim.version, old(state.workers[w]);
        old(state).rows[v := Row(Verified, phase.item, phase.item, Some(phase.claim.token), Some(state.now + LEASE))]
    {
      hide LeadsTo;
      Log(Advance(w));
      var phase := state.workers[w];
      var v, remote := phase.claim.version, phase.item.value;
      if remote in state.foreign || v !in state.rows {
        Go(w, Caught(phase, false));
        return false;
      }
      state := state.(
        rows := state.rows[v := state.rows[v].(
          status := Verified, remote := Some(remote), record := Some(remote),
          token := Some(phase.claim.token), expires := Some(state.now + LEASE))],
        verified := state.verified[phase.claim.token := remote]);
      Go(w, phase.(stage := Registered, own := false));
      ok := true;
    }

    /** `cutover`, one transaction: the gate in front of the file's backing fields. */
    method Cutover(w: WorkerId) returns (status: Option<Status>)
      requires At(w) && HasItem(w, Registered)
      modifies this
      ensures At(w) && kept == old(kept)
      ensures if status.Some? then state.workers[w] == Ended else InStage(w, Failing) && SameClaim(old(state), state, w)
      ensures var v, claim := old(state.workers[w]).claim.version, old(state.workers[w]).claim;
        status ==
          if v !in old(state).rows || old(state).rows[v].token != Some(claim.token)
             || old(state).rows[v].status != Verified || old(state).rows[v].record.None? then None
          else if old(state).file.current != Some(v) then Some(Stale)
          else if old(state).editing then Some(Blocked)
          else if old(state).file.backing.Drive? && old(state).file.record == old(state).rows[v].record then Some(Completed)
          else if CanInstall(old(state), old(state.workers[w])) then Some(Completed)
          else None
      ensures var v := old(state.workers[w]).claim.version;
        state.rows == if status.None? then old(state).rows
                      else old(state).rows[v := old(state).rows[v].(status := status.value, token := None, expires := None)]
      ensures var phase := old(state.workers[w]);
        if CanInstall(old(state), phase)
        then status == Some(Completed) && state.file == File(Drive, old(state).rows[phase.claim.version].record, Some(phase.claim.version))
        else state.file == old(state).file
    {
      hide LeadsTo;
      var phase := state.workers[w];
      var v := phase.claim.version;
      if v !in state.rows || state.rows[v].token != Some(phase.claim.token) || !state.rows[v].status.Verified?
         || state.rows[v].record.None? {
        CutoverThrows(w);
        return None;
      }
      if state.file.current != Some(v) {
        CloseMine(w, Stale);
        return Some(Stale);
      }
      if state.editing {
        CloseMine(w, Blocked);
        return Some(Blocked);
      }
      if state.file.backing.Drive? && state.file.record == state.rows[v].record {
        CloseMine(w, Completed);
        return Some(Completed);
      }
      if !state.file.backing.Local? || state.file.record.Some? || state.rows[v].record.value in state.foreign {
        CutoverThrows(w);
        return None;
      }
      InstallRecord(w);
      status := Some(Completed);
    }

    /** The transaction throws and rolls back. */
    method CutoverThrows(w: WorkerId)
      requires At(w) && HasItem(w, Registered)
      requires DriveMigration.Cutover(state, w, state.workers[w]) == Move(state, w, Caught(state.workers[w], false))
      modifies this
      ensures At(w) && kept == old(kept)
      ensures EntersCatch(old(state), state, w, false) && state == old(state).(workers := state.workers)
    {
      hide LeadsTo, DriveMigration.Cutover;
      Log(Advance(w));
      Go(w, Caught(state.workers[w], false));
    }

    /** The row is closed and nothing else changes. */
    method CloseMine(w: WorkerId, status: Status)
      requires At(w) && HasItem(w, Registered) && state.workers[w].claim.version in state.rows
      requires DriveMigration.Cutover(state, w, state.workers[w])
        == Move(CloseRow(state, state.workers[w].claim.version, status), w, Ended)
      modifies this
      ensures At(w) && kept == old(kept) && state.workers[w] == Ended && state.file == old(state).file
      ensures var v := old(state.workers[w]).claim.version;
        state.rows == old(state).rows[v := old(state).rows[v].(status := status, token := None, expires := None)]
    {
      hide LeadsTo, DriveMigration.Cutover;
      Log(Advance(w));
      var v := state.workers[w].claim.version;
      state := state.(rows := state.rows[v := state.rows[v].(status := status, token := None, expires := None)]);
      Go(w, Ended);
    }

    /** The file is pointed at the row's record. */
    method InstallRecord(w: WorkerId)
      requires At(w) && HasItem(w, Registered) && CanInstall(state, state.workers[w])
      modifies this
      ensures At(w) && kept == old(kept) && state.workers[w] == Ended
      ensures var v := old(state.workers[w]).claim.version;
        && state.file == File(Drive, old(state).rows[v].record, Some(v))
        && state.rows == old(state).rows[v := old(state).rows[v].(status := Completed, token := None, expires := None)]
    {
      hide LeadsTo;
      Log(Advance(w));
      var v := state.workers[w].claim.version;
      state := state.(
        file := state.file.(backing := Drive, record := state.rows[v].record),
        installed := Some(Install(state.file, v, state.rows[v].record.value)),
        rows := state.rows[v := state.rows[v].(status := Completed, token := None, expires := None)]);
      Go(w, Ended);
    }

    /** Anything inside the try block throws. */
    method Throw(w: WorkerId, missing: bool)
      requires At(w) && InTry(state.workers[w])
      modifies this
      ensures At(w) && kept == old(kept) && state == old(state).(workers := state.workers)
      ensures EntersCatch(old(state), state, w, missing)
    {
      hide LeadsTo;
      Log(Fail(w, missing));
      Go(w, Caught(state.workers[w], missing));
    }

    /** The catch block deletes a fresh object, or keeps its name in the row and gives up. */
    method Compensate(w: WorkerId, deleted: bool) returns (goesOn: bool)
      requires At(w) && InStage(w, Failing)
      modifies this
      ensures At(w) && if goesOn then InStage(w, Cleaned) && SameClaim(old(state), state, w) else state.workers[w] == Ended
      ensures goesOn <==> old(state.workers[w]).item.None? || deleted
      ensures SameWorld(old(state).(live := state.live), state)
      ensures state.live == old(state).live -
        (if goesOn && old(state.workers[w]).item.Some? then {old(state.workers[w]).item.value} else {})
      ensures var v, x := old(state.workers[w]).claim.version, old(state.workers[w]).item;
        state.rows == if goesOn || v !in old(state).rows then old(state).rows
                      else old(state).rows[v := old(state).rows[v].(status := Failed, token := None, expires := None, remote := x)]
      ensures kept == (old(kept) && (goesOn ||
        SameBytes(old(state), old(state.workers[w]).item.value, old(state.workers[w]).claim.version)))
      ensures goesOn ==> state.workers[w] == old(state.workers[w]).(stage := Cleaned)
    {
      hide LeadsTo, SameBytes;
      Log(DriveMigration.Step.Compensate(w, deleted));
      var phase := state.workers[w];
      var v := phase.claim.version;
      goesOn := phase.item.None? || deleted;
      if goesOn {
        if phase.item.Some? { state := state.(live := state.live - {phase.item.value}); }
        Go(w, phase.(stage := Cleaned));
        return;
      }
      if v in state.rows {
        state := state.(rows := state.rows[v :=
          state.rows[v].(status := Failed, token := None, expires := None, remote := phase.item)]);
      }
      Go(w, Ended);
    }

    method UnlinkMissing(w: WorkerId)
      requires At(w) && InStage(w, Cleaned)
      modifies this
      ensures At(w) && kept == old(kept) && SameWorld(old(state), state) && SameClaim(old(state), state, w) && InStage(w, Unlinked)
      ensures var v, phase := old(state.workers[w]).claim.version, old(state.workers[w]);
        state.rows == if phase.claim.remote.Some? && phase.missing && v in old(state).rows
                      then old(state).rows[v := old(state).rows[v].(remote := None, record := None)] else old(state).rows
      ensures state.workers[w] == old(state.workers[w]).(stage := Unlinked)
    {
      hide LeadsTo;
      Log(Advance(w));
      var phase := state.workers[w];
      var v := phase.claim.version;
      if phase.claim.remote.Some? && phase.missing && v in state.rows {
        state := state.(rows := state.rows[v := state.rows[v].(remote := None, record := None)]);
      }
      Go(w, phase.(stage := Unlinked));
    }

    method RecordFailure(w: WorkerId)
      requires At(w) && InStage(w, Unlinked)
      modifies this
      ensures At(w) && kept == old(kept) && SameWorld(old(state), state) && state.workers[w] == Ended
      ensures var v := old(state.workers[w]).claim.version;
        state.rows == if v !in old(state).rows then old(state).rows
                      else old(state).rows[v := old(state).rows[v].(status := Failed, token := None, expires := None)]
    {
      hide LeadsTo;
      Log(Advance(w));
      var v := state.workers[w].claim.version;
      if v in state.rows {
        state := state.(rows := state.rows[v := state.rows[v].(status := Failed, token := None, expires := None)]);
      }
      Go(w, Ended);
    }

    method CatchError(w: WorkerId)
      requires At(w) && InStage(w, Failing)
      modifies this
      ensures At(w) && state.workers[w] == Ended && (kept ==> old(kept))
      ensures calm ==> state.file == old(state).file
      ensures calm ==>
        var v, phase := old(state.workers[w]).claim.version, old(state.workers[w]);
        && SameWorld(old(state).(live := state.live), state)
        && state.live == old(state).live - (if phase.item.Some? then {phase.item.value} else {})
        && state.rows == if v !in old(state).rows then old(state).rows
                         else old(state).rows[v := AfterFailure(old(state).rows[v], phase)]
    {
      hide LeadsTo, SameBytes;
      var alive := Await(w);
      if !alive { return; }
      var deleted: bool := *;
      if calm { deleted := true; }
      var goesOn := Compensate(w, deleted);
      if !goesOn { return; }
      alive := Await(w);
      if !alive { return; }
      UnlinkMissing(w);
      alive := Await(w);
      if !alive { return; }
      RecordFailure(w);
    }

    /** An await inside the try block may also throw. */
    method AwaitInTry(w: WorkerId) returns (alive: bool)
      requires At(w) && InTry(state.workers[w])
      modifies this
      ensures At(w) && (kept ==> old(kept)) && (calm ==> alive && state == old(state))
      ensures if alive then state.workers[w] == old(state.workers[w]) else state.workers[w] == Ended || InStage(w, Failing)
    {
      hide LeadsTo;
      alive := Await(w);
      if !alive || calm { return; }
      var throws, missing: bool := *, *;
      if throws {
        Throw(w, missing);
        alive := false;
      }
    }

    /** From the claim to an object the row names: resumed, or uploaded and compared. */
    method ObtainRemote(w: WorkerId, delivered: Bytes) returns (ok: bool)
      requires At(w) && InStage(w, Claimed) && !state.workers[w].own && state.workers[w].item.None?
      modifies this
      ensures At(w) && (kept ==> old(kept))
      ensures if ok then HasItem(w, Stored) else state.workers[w] == Ended || InStage(w, Failing)
      ensures calm ==>
        var claim := old(state.workers[w]).claim;
        && state.file == old(state).file && state.editing == old(state).editing && state.foreign == old(state).foreign
        && state.contents == old(state).contents && (claim.version in old(state).rows ==> claim.version in state.rows)
        && (ok ==> state.workers[w].claim == claim
                   && state.workers[w].item == Some(if claim.remote.Some? then claim.remote.value else old(state).remotes))
        && (if claim.remote.Some? then
              && (ok <==> claim.remote.value in old(state).live)
              && state.live == old(state).live && state.streamed == old(state).streamed
            else
              && (ok <==> claim.version < |state.contents| && delivered == state.contents[claim.version])
              && old(state).remotes in state.live && old(state).remotes in state.streamed
              && state.streamed[old(state).remotes] == delivered)
      ensures calm && Waits(old(state), old(state.workers[w]).claim.version) ==>
        var v, remote := old(state.workers[w]).claim.version, old(state.workers[w]).claim.remote;
        && SameAround(old(state), state, v) && state.rows[v].record == old(state).rows[v].record
        && (remote.Some? ==>
              && state.rows == old(state).rows && state.remotes == old(state).remotes && (ok ==> !state.workers[w].own)
              && (!ok ==> EntersCatch(old(state), state, w, true)))
        && (remote.None? ==>
              && state.live == old(state).live + {old(state).remotes} && state.remotes == old(state).remotes + 1
              && (ok ==> state.workers[w].own && state.rows[v].remote == Some(old(state).remotes))
              && (!ok ==>
                    && state.rows == old(state).rows
                    && state.workers[w] == Holding(Failing, old(state.workers[w]).claim, Some(old(state).remotes), false, false)))
    {
      hide LeadsTo;
      ok := false;
      if state.workers[w].claim.remote.Some? {
        ok := Resume(w);
        return;
      }
      ok := UploadAndCompare(w, delivered);
    }

    method UploadAndCompare(w: WorkerId, delivered: Bytes) returns (ok: bool)
      requires At(w) && InStage(w, Claimed) && state.workers[w].claim.remote.None?
      modifies this
      ensures At(w) && (kept ==> old(kept))
      ensures if ok then HasItem(w, Stored) else state.workers[w] == Ended || InStage(w, Failing)
      ensures calm ==>
        var claim, x := old(state.workers[w]).claim, old(state).remotes;
        && state.file == old(state).file && state.editing == old(state).editing && state.foreign == old(state).foreign
        && state.contents == old(state).contents && state.rows.Keys == old(state).rows.Keys
        && (ok ==> state.workers[w].claim == claim && state.workers[w].item == Some(x))
        && (ok <==> claim.version < |state.contents| && delivered == state.contents[claim.version])
        && x in state.live && x in state.streamed && state.streamed[x] == delivered
      ensures calm && Waits(old(state), old(state.workers[w]).claim.version) ==>
        var v := old(state.workers[w]).claim.version;
        && SameAround(old(state), state, v) && state.rows[v].record == old(state).rows[v].record
        && state.live == old(state).live + {old(state).remotes} && state.remotes == old(state).remotes + 1
        && (ok ==> state.workers[w].own && state.rows[v].remote == Some(old(state).remotes))
        && (!ok ==>
              && state.rows == old(state).rows
              && state.workers[w] == Holding(Failing, old(state.workers[w]).claim, Some(old(state).remotes), false, false))
    {
      hide LeadsTo;
      ok := false;
      var alive := AwaitInTry(w);   // the upload itself throws
      if !alive { return; }
      Upload(w, delivered);
      alive := AwaitInTry(w);
      if !alive { return; }
      ok := CompareAndStore(w);
    }

    method CompareAndStore(w: WorkerId) returns (ok: bool)
      requires At(w) && HasItem(w, Streamed)
      modifies this
      ensures At(w) && (kept ==> old(kept))
      ensures if ok then HasItem(w, Stored) else state.workers[w] == Ended || InStage(w, Failing)
      ensures calm ==>
        var phase := old(state.workers[w]);
        && SameWorld(old(state), state)
        && (ok <==> SameBytes(old(state), phase.item.value, phase.claim.version))
        && (!ok ==> state.rows == old(state).rows && EntersCatch(old(state), state, w, false))
        && (ok ==>
              && SameItem(old(state), state, w, true) && state.workers[w].own == phase.own
              && state.rows == if phase.claim.version !in old(state).rows then old(state).rows else
                   old(state).rows[phase.claim.version := Row(Uploaded, old(state).rows[phase.claim.version].record,
                                     phase.item, Some(phase.claim.token), Some(state.now + LEASE))])
    {
      hide LeadsTo, SameBytes;
      ok := CompareDigest(w);
      if !ok { return; }
      var alive := AwaitInTry(w);
      if !alive { return false; }
      StoreRemote(w);
    }

    method CheckAndCutOver(w: WorkerId, attributes: bool)
      requires At(w) && HasItem(w, Stored)
      modifies this
      ensures At(w) && (state.workers[w] == Ended || InStage(w, Failing)) && (kept ==> old(kept))
      ensures calm ==>
        var phase := old(state.workers[w]);
        if PassesChecks(old(state), phase, attributes)
        then state.workers[w] == Ended && Migrated(state, phase.claim.version, phase.item.value)
        else state.file == old(state).file
      ensures (&& calm && Waits(old(state), old(state.workers[w]).claim.version)
               && old(state.workers[w]).item.value in old(state).live
               && !PassesChecks(old(state), old(state.workers[w]), attributes)) ==>
        var v, item := old(state.workers[w]).claim.version, old(state.workers[w]).item;
        && EntersCatch(old(state), state, w, false) && SameAround(old(state), state, v)
        && state.live == old(state).live && state.remotes == old(state).remotes
        && state.rows[v].remote == item && state.rows[v].record == old(state).rows[v].record
    {
      hide LeadsTo;
      var alive := AwaitInTry(w);
      if !alive { return; }
      var ok := Fetch(w);
      if !ok { return; }
      alive := AwaitInTry(w);
      if !alive { return; }
      StoreRemote(w);
      CheckStored(w, attributes);
    }

    /** The second half, from the VERIFYING row on. */
    method CheckStored(w: WorkerId, attributes: bool)
      requires At(w) && HasItem(w, Checking)
      modifies this
      ensures At(w) && (state.workers[w] == Ended || InStage(w, Failing)) && (kept ==> old(kept))
      ensures calm && old(state.workers[w]).item.value in old(state).live ==>
        var phase := old(state.workers[w]);
        if PassesChecks(old(state), phase, attributes)
        then state.workers[w] == Ended && Migrated(state, phase.claim.version, phase.item.value)
        else state.file == old(state).file
      ensures (&& calm && Waits(old(state), old(state.workers[w]).claim.version)
               && old(state.workers[w]).item.value in old(state).live
               && !PassesChecks(old(state), old(state.workers[w]), attributes)) ==>
        var v, item := old(state.workers[w]).claim.version, old(state.workers[w]).item;
        && EntersCatch(old(state), state, w, false) && SameAround(old(state), state, v)
        && state.live == old(state).live && state.remotes == old(state).remotes
        && state.rows[v].remote == old(state).rows[v].remote && state.rows[v].record == old(state).rows[v].record
    {
      hide LeadsTo;
      var alive := AwaitInTry(w);
      if !alive { return; }
      var ok := VerifyRemote(w, attributes);
      if !ok { return; }
      alive := AwaitInTry(w);
      if !alive { return; }
      ok := RegisterVerified(w);
      if !ok { return; }
      alive := AwaitInTry(w);
      if !alive { return; }
      var _ := Cutover(w);
    }

    /** The query for an active editor, and what the metadata and the stored bytes say. */
    method CheckSource(w: WorkerId, damaged: bool) returns (alive: bool, blocked: bool)
      requires At(w) && state.workers[w].Loaded?
      modifies this
      ensures At(w) && (kept ==> old(kept)) && (calm ==> alive && state == old(state))
      ensures state.workers[w] == if alive then old(state.workers[w]) else Ended
      ensures calm ==> blocked == (damaged || old(state).editing)
    {
      hide LeadsTo;
      blocked := damaged;
      alive := Await(w);
      if !alive { return; }
      blocked := blocked || state.editing;
      alive := Await(w);
    }

    /**
     A migration of the file, whatever the rest of the world does meanwhile, is
     part of a run of the machine and comes to its end. Undisturbed, it moves the
     file to Drive if and only if its metadata and bytes are sound (not
     `damaged`) and the file, the row and the object allow it, and to the object
     they determine.
     */
    method MigrateFile(w: WorkerId, damaged: bool, delivered: Bytes, attributes: bool)
      requires Tracked() && w !in state.workers
      modifies this
      ensures At(w) && state.workers[w] == Ended && (kept ==> old(kept))
      ensures calm && old(state).file.backing.Local? && old(state).file.current.Some? ==>
        if !damaged && CanMigrate(old(state), delivered, attributes)
        then Migrated(state, old(state).file.current.value, ObjectFor(old(state)))
        else state.file == old(state).file
      ensures calm && old(state).file.backing.Local? && old(state).file.current.Some? ==>
        MigrationEnds(old(state), state, damaged, delivered, attributes)
    {
      hide LeadsTo;
      var version := LoadSource(w);
      if version.None? { return; }
      var alive, blocked := CheckSource(w, damaged);
      if !alive { return; }
      if blocked {
        RecordBlocked(w, version.value);
        return;
      }
      ClaimAndMigrate(w, version.value, delivered, attributes);
    }

    method ClaimAndMigrate(w: WorkerId, v: Version, delivered: Bytes, attributes: bool)
      requires At(w) && state.workers[w] == Loaded(v)
      modifies this
      ensures At(w) && state.workers[w] == Ended && (kept ==> old(kept))
      ensures calm && !Claimable(RowOrNew(old(state), v), old(state).now) ==>
        state.rows == old(state).rows && state.file == old(state).file
      ensures calm && Claimable(RowOrNew(old(state), v), old(state).now) ==>
        (if old(state).file == File(Local, None, Some(v)) && !old(state).editing
         then TryEnds(old(state).(rows := old(state).rows[v := RowOrNew(old(state), v)]), state, v, delivered, attributes)
         else state.file == old(state).file)
    {
      hide LeadsTo;
      var seen := state.now;
      var alive := Await(w);
      if !alive { return; }
      var claim := Claim(w, v, seen);
      if claim.None? { return; }
      HoldAndMigrate(w, delivered, attributes);
    }

    /** The try block and its catch block. */
    method HoldAndMigrate(w: WorkerId, delivered: Bytes, attributes: bool)
      requires At(w) && InStage(w, Claimed) && !state.workers[w].own && state.workers[w].item.None?
      modifies this
      ensures At(w) && state.workers[w] == Ended && (kept ==> old(kept))
      ensures (&& calm && Waits(old(state), old(state.workers[w]).claim.version)
               && old(state).rows[old(state.workers[w]).claim.version].remote == old(state.workers[w]).claim.remote) ==>
        TryEnds(old(state), state, old(state.workers[w]).claim.version, delivered, attributes)
      ensures calm && old(state.workers[w]).claim.version in old(state).rows ==>
        var v, remote := old(state.workers[w]).claim.version, old(state.workers[w]).claim.remote;
        var x := if remote.Some? then remote.value else old(state).remotes;
        if && old(state).file == File(Local, None, Some(v)) && !old(state).editing && x !in old(state).foreign && attributes
           && (if remote.Some? then x in old(state).live && SameSize(old(state), x, v)
               else v < |old(state).contents| && delivered == old(state).contents[v])
        then Migrated(state, v, x)
        else state.file == old(state).file
    {
      hide LeadsTo;
      var alive := AwaitInTry(w);         // no context, or another integration, throws
      if alive {
        var ok := ObtainRemote(w, delivered);
        if ok { CheckAndCutOver(w, attributes); }
      }
      if InStage(w, Failing) { CatchError(w); }
    }

    /** The file is read for a rollback. */
    method LoadCurrent(w: WorkerId) returns (current: Option<Version>)
      requires Tracked() && w !in state.workers
      modifies this
      ensures Tracked() && kept == old(kept) && current == old(state).file.current
      ensures state == if current.Some? then Move(old(state), w, Returning(current.value)) else old(state)
    {
      hide LeadsTo;
      current := state.file.current;
      if current.Some? {
        Log(StartRollback(w));
        Go(w, Returning(current.value));
      }
    }

    /** Its completed migration is looked up. */
    method FindCompleted(w: WorkerId, version: Version) returns (found: bool)
      requires At(w) && state.workers[w] == Returning(version)
      modifies this
      ensures At(w) && kept == old(kept)
      ensures found <==> version in old(state).rows && old(state).rows[version].status.Completed?
      ensures state == Move(old(state), w, if found then RollingBack(version, old(state).rows[version].record) else Ended)
    {
      hide LeadsTo;
      Log(Advance(w));
      found := version in state.rows && state.rows[version].status.Completed?;
      Go(w, if found then RollingBack(version, state.rows[version].record) else Ended);
    }

    /** The local bytes are read back; a rollback of other bytes throws. */
    method CompareLocal(w: WorkerId, intact: bool) returns (ok: bool)
      requires At(w) && state.workers[w].RollingBack?
      modifies this
      ensures At(w) && (kept ==> old(kept))
      ensures calm ==> ok == intact && state == if ok then old(state) else Move(old(state), w, Ended)
      ensures state.workers[w] == if ok then old(state.workers[w]) else Ended
    {
      hide LeadsTo;
      ok := Await(w);
      if ok && !intact {
        Log(Crash(w));
        Go(w, Ended);
        ok := false;
      }
    }

    /** The transaction that points the file back at its local bytes. */
    method RestoreLocal(w: WorkerId) returns (done: bool)
      requires At(w) && state.workers[w].RollingBack?
      modifies this
      ensures At(w) && kept == old(kept)
      ensures var v, record := old(state.workers[w]).version, old(state.workers[w]).record;
        && (done <==> v in old(state).rows && old(state).file.backing.Drive? && old(state).file.record == record
                      && old(state).file.current == Some(v))
        && (done ==>
              && state.file == File(Local, None, Some(v))
              && state.rows == old(state).rows[v := old(state).rows[v].(status := RolledBack, token := None, expires := None)])
      ensures !done ==> state == Move(old(state), w, Ended)
    {
      hide LeadsTo;
      var version, record := state.workers[w].version, state.workers[w].record;
      Log(Advance(w));
      if !state.file.backing.Drive? || state.file.record != record || state.file.current != Some(version)
         || version !in state.rows {
        Go(w, Ended);
        return false;
      }
      state := state.(
        file := state.file.(backing := Local, record := None),
        rows := state.rows[version := state.rows[version].(status := RolledBack, token := None, expires := None)]);
      Go(w, Ended);
      done := true;
    }

    method ReturnTo(w: WorkerId, version: Version, intact: bool) returns (done: bool)
      requires At(w) && state.workers[w] == Returning(version)
      modifies this
      ensures At(w) && (kept ==> old(kept))
      ensures done ==>
        state.file == File(Local, None, Some(version)) && version in state.rows && state.rows[version].status.RolledBack?
      ensures calm ==>
        (done <==>
          && intact && version in old(state).rows && old(state).rows[version].status.Completed?
          && old(state).file.backing.Drive? && old(state).file.record == old(state).rows[version].record
          && old(state).file.current == Some(version))
      ensures calm && !done ==> state.file == old(state).file && state.rows == old(state).rows
    {
      hide LeadsTo;
      done := FindCompleted(w, version);
      if !done { return; }
      done := CompareLocal(w, intact);
      if !done { return; }
      done := RestoreLocal(w);
    }

    /**
     `rollback`, to the version that is current when it starts. Undisturbed, it
     is done if and only if that version's migration is completed, its local
     bytes are intact and the file is on the object the row records.
     */
    method RollBack(w: WorkerId, intact: bool) returns (done: Option<Version>)
      requires Tracked() && w !in state.workers
      modifies this
      ensures Tracked() && (kept ==> old(kept))
      ensures done.Some? ==>
        && state.file == File(Local, None, done)
        && done.value in state.rows && state.rows[done.value].status.RolledBack?
      ensures calm ==>
        var current := old(state).file.current;
        done == if && intact && current.Some? && current.value in old(state).rows
                   && old(state).rows[current.value].status.Completed?
                   && old(state).file == File(Drive, old(state).rows[current.value].record, current)
                then current else None
      ensures calm && done.None? ==> state.file == old(state).file && state.rows == old(state).rows
    {
      hide LeadsTo;
      var current := LoadCurrent(w);
      if current.None? { return None; }
      var alive := Await(w);
      if !alive { return None; }
      var ok := ReturnTo(w, current.value, intact);
      done := if ok then current else None;
    }

    predicate InStage(w: WorkerId, stage: Stage)
      reads this
    {
      w in state.workers && state.workers[w].Holding? && state.workers[w].stage == stage
    }

    predicate HasItem(w: WorkerId, stage: Stage)
      reads this
    {
      InStage(w, stage) && state.workers[w].item.Some?
    }
  }

  predicate SameClaim(s: State, t: State, w: WorkerId) {
    w in s.workers && s.workers[w].Holding? && w in t.workers && t.workers[w].Holding?
    && t.workers[w].claim == s.workers[w].claim
  }

  predicate SameItem(s: State, t: State, w: WorkerId, ok: bool) {
    SameClaim(s, t, w) && (ok ==> t.workers[w].item == s.workers[w].item)
  }

  /** The catch block is entered: a worker cleans up only what it uploaded and has not registered. */
  predicate EntersCatch(s: State, t: State, w: WorkerId, missing: bool) {
    && SameClaim(s, t, w)
    && t.workers[w] ==
       Holding(Failing, s.workers[w].claim, if s.workers[w].own then s.workers[w].item else None, false, missing)
  }

  /**
   Any mix of threads that stored no uncompared orphan has true rows: each row's
   object holds the bytes of its version, and so does the file's if it is on Drive.
   */
  lemma ThreadsInstallSourceBytes(bytes: Bytes, s: State)
    requires LeadsTo(true, Start(bytes), s)
    ensures forall v | v in s.rows && s.rows[v].remote.Some? :: SameBytes(s, s.rows[v].remote.value, v)
    ensures s.file.record.Some? ==>
      s.installed.Some? && SameBytes(s, s.file.record.value, s.installed.value.version)
  {
    var steps :| Always(Start(bytes), steps) && Run(Start(bytes), steps) == s;
    RemoteHoldsSourceBytes(bytes, steps);
  }
}
