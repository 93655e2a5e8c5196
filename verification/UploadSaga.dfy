/**
 Uploading a file to Drive under an idempotency key: claim the key, put the
 object, record it, register it in one transaction, and compensate when a later
 part fails. Any number of requests interleave and each may crash between two
 steps; every remote and database call may fail.
 */
module UploadSaga {
  import opened Collections
  import opened Wrappers

  type Key = nat
  type ObjectId = nat
  type NodeId = nat
  type RequestId = nat

  datatype Status = InProgress | Succeeded | Failed

  datatype Operation = Operation(status: Status, record: Option<ObjectId>, node: Option<NodeId>)

  datatype Answer = Node(node: NodeId) | Refusal

  datatype Phase =
    | Arrived                              // before the first look at the key
    | Unseen                               // the key was not taken
    | Claimed                              // this request created the operation
    | Stored(id: ObjectId)                 // put returned
    | Recorded(id: ObjectId)               // the operation names the object
    | Compensating(id: ObjectId)           // in the catch block
    | Removed(id: ObjectId)                // delete returned
    | Stuck(id: ObjectId)                  // delete, or marking after it, threw
    | Marked(id: ObjectId)                 // marked failed, audit row still missing
    | Answered(answer: Answer)
    | Crashed

  datatype Request = Request(key: Key, phase: Phase)

  datatype State = State(
    operations: map<Key, Operation>,
    requests: map<RequestId, Request>,
    links: map<ObjectId, NodeId>,          // the node an object is registered for
    audits: set<ObjectId>,                 // orphan audit rows
    live: set<ObjectId>,
    minted: nat,                           // every smaller object id has been issued
    nodes: nat,                            // every smaller node id has been issued
    claimant: map<Key, RequestId>,         // history: who created the operation
    puts: seq<Key>,                        // history: keys for which put was called
    owner: map<ObjectId, RequestId>,       // history: whose put returned the object
    unacknowledged: set<ObjectId>,         // history: committed, but the commit threw
    unmarked: set<ObjectId>)               // history: a database call of the catch block failed

  datatype Step =
    | Arrive(id: RequestId, key: Key)
    | Advance(id: RequestId)
    | Reject(id: RequestId)                          // another user, file or digest; no destination
    | PutFails(id: RequestId, created: bool)
    | RecordFails(id: RequestId)
    | RegisterFails(id: RequestId, committed: bool)
    | DeleteFails(id: RequestId, gone: bool)
    | DatabaseFails(id: RequestId)                   // inside the catch block
    | Crash(id: RequestId)

  function Start(): State {
    State(map[], map[], map[], {}, {}, 0, 0, map[], [], map[], {}, {})
  }

  /** Of the requests only this one may have moved. */
  predicate OnlyMoves(s: State, t: State, id: RequestId)
    requires id in s.requests
  {
    id in t.requests && t.requests == s.requests[id := Request(s.requests[id].key, t.requests[id].phase)]
  }

  function Move(s: State, id: RequestId, phase: Phase): State
    requires id in s.requests
  {
    s.(requests := s.requests[id := s.requests[id].(phase := phase)])
  }

  /** What a repeated request gets. */
  function Replay(operation: Operation): Answer {
    if operation.status.Succeeded? && operation.node.Some? then Node(operation.node.value) else Refusal
  }

  function MarkFailed(s: State, key: Key, x: Option<ObjectId>): State {
    if key in s.operations && s.operations[key].status.InProgress? then
      s.(operations := s.operations[key := s.operations[key].(
           status := Failed, record := if x.Some? then x else s.operations[key].record)])
    else s
  }

  /** The registration transaction: a node, its link and the operation's success. */
  function Register(s: State, key: Key, x: ObjectId): State
    requires key in s.operations
  {
    s.(links := s.links[x := s.nodes], nodes := s.nodes + 1,
       operations := s.operations[key := Operation(Succeeded, Some(x), Some(s.nodes))])
  }

  function Put(s: State, id: RequestId): State
    requires id in s.requests
  {
    Move(s.(puts := s.puts + [s.requests[id].key], minted := s.minted + 1, live := s.live + {s.minted},
            owner := s.owner[s.minted := id]),
         id, Stored(s.minted))
  }

  function Advanced(s: State, id: RequestId): (t: State)
    requires id in s.requests
    ensures OnlyMoves(s, t, id)
  {
    var key := s.requests[id].key;
    match s.requests[id].phase
    case Arrived =>
      if key in s.operations then Move(s, id, Answered(Replay(s.operations[key]))) else Move(s, id, Unseen)
    case Unseen =>
      if key in s.operations then Move(s, id, Answered(Replay(s.operations[key])))
      else
        Move(s.(operations := s.operations[key := Operation(InProgress, None, None)],
                claimant := s.claimant[key := id]), id, Claimed)
    case Claimed => Put(s, id)
    case Stored(x) =>
      if key in s.operations
      then Move(s.(operations := s.operations[key := s.operations[key].(record := Some(x))]), id, Recorded(x))
      else Move(s, id, Compensating(x))
    case Recorded(x) =>
      if key in s.operations then Move(Register(s, key, x), id, Answered(Node(s.nodes))) else Move(s, id, Compensating(x))
    case Compensating(x) => Move(s.(live := s.live - {x}), id, Removed(x))
    case Removed(x) => Move(MarkFailed(s, key, Some(x)), id, Answered(Refusal))
    case Stuck(x) => Move(MarkFailed(s, key, Some(x)), id, Marked(x))
    case Marked(x) => Move(s.(audits := s.audits + {x}), id, Answered(Refusal))
    case _ => s
  }

  /** A database call of the catch block throws. */
  function DatabaseFailed(s: State, id: RequestId): (t: State)
    requires id in s.requests
    ensures OnlyMoves(s, t, id)
  {
    match s.requests[id].phase
    case Removed(x) => Move(s.(unmarked := s.unmarked + {x}), id, Stuck(x))
    case Stuck(x) => Move(s.(unmarked := s.unmarked + {x}), id, Answered(Refusal))
    case Marked(x) => Move(s.(unmarked := s.unmarked + {x}), id, Answered(Refusal))
    case _ => s
  }

  function RegisterFailed(s: State, id: RequestId, x: ObjectId, committed: bool): (t: State)
    requires id in s.requests
    ensures OnlyMoves(s, t, id)
  {
    var key := s.requests[id].key;
    if committed && key in s.operations
    then Move(Register(s, key, x).(unacknowledged := s.unacknowledged + {x}), id, Compensating(x))
    else Move(s, id, Compensating(x))
  }

  function PutFailed(s: State, id: RequestId, created: bool): (t: State)
    requires id in s.requests
    ensures OnlyMoves(s, t, id)
  {
    var key := s.requests[id].key;
    var u := if created then s.(minted := s.minted + 1, live := s.live + {s.minted}) else s;
    Move(MarkFailed(u.(puts := u.puts + [key]), key, None), id, Answered(Refusal))
  }

  function Apply(s: State, step: Step): State {
    match step
    case Arrive(id, key) => if id in s.requests then s else s.(requests := s.requests[id := Request(key, Arrived)])
    case Advance(id) => if id in s.requests then Advanced(s, id) else s
    case Reject(id) =>
      if id in s.requests && (s.requests[id].phase.Arrived? || s.requests[id].phase.Unseen?)
      then Move(s, id, Answered(Refusal)) else s
    case PutFails(id, created) =>
      if id in s.requests && s.requests[id].phase.Claimed? then PutFailed(s, id, created) else s
    case RecordFails(id) =>
      if id in s.requests && s.requests[id].phase.Stored? then Move(s, id, Compensating(s.requests[id].phase.id)) else s
    case RegisterFails(id, committed) =>
      if id in s.requests && s.requests[id].phase.Recorded?
      then RegisterFailed(s, id, s.requests[id].phase.id, committed) else s
    case DeleteFails(id, gone) =>
      if id in s.requests && s.requests[id].phase.Compensating? then
        Move(if gone then s.(live := s.live - {s.requests[id].phase.id}) else s, id, Stuck(s.requests[id].phase.id))
      else s
    case DatabaseFails(id) => if id in s.requests then DatabaseFailed(s, id) else s
    case Crash(id) => if id in s.requests && !s.requests[id].phase.Answered? then Move(s, id, Crashed) else s
  }

  function Run(s: State, steps: seq<Step>): State
    decreases |steps|
  {
    if steps == [] then s else Apply(Run(s, steps[..|steps| - 1]), steps[|steps| - 1])
  }

  // ------------------------------------------------------------ where an object ends

  predicate KeyIs(s: State, x: ObjectId, status: Status) {
    && x in s.owner && s.owner[x] in s.requests && s.requests[s.owner[x]].key in s.operations
    && s.operations[s.requests[s.owner[x]].key].status == status
    && s.operations[s.requests[s.owner[x]].key].record == Some(x)
  }

  /** Registered: a node names it, the key has succeeded, the object is on Drive. */
  predicate EndsLinked(s: State, x: ObjectId) {
    x in s.links && KeyIs(s, x, Succeeded) && x in s.live && x !in s.audits
  }

  /** Cleaned up: no node, the key has failed, the object is gone. */
  predicate EndsDeleted(s: State, x: ObjectId) {
    x !in s.links && KeyIs(s, x, Failed) && x !in s.live && x !in s.audits
  }

  /** Left for reconciliation: no node, the key has failed, an audit row names the object. */
  predicate EndsReported(s: State, x: ObjectId) {
    x !in s.links && KeyIs(s, x, Failed) && x in s.audits
  }

  predicate EndsWell(s: State, x: ObjectId) {
    EndsLinked(s, x) || EndsDeleted(s, x) || EndsReported(s, x)
  }

  // ------------------------------------------------------------ invariant

  predicate Working(phase: Phase) {
    phase.Stored? || phase.Recorded? || phase.Compensating? || phase.Removed? || phase.Stuck? || phase.Marked?
  }

  ghost predicate RequestValid(s: State, id: RequestId)
    requires id in s.requests
  {
    var key, phase := s.requests[id].key, s.requests[id].phase;
    && (phase.Claimed? || Working(phase) ==>
          key in s.operations && key in s.claimant && s.claimant[key] == id)
    && (phase.Claimed? ==> key !in s.puts && s.operations[key] == Operation(InProgress, None, None))
    && (Working(phase) ==> phase.id in s.owner && s.owner[phase.id] == id)
    && (phase.Answered? && phase.answer.Node? ==>
          && key in s.operations && s.operations[key].status.Succeeded?
          && s.operations[key].node == Some(phase.answer.node))
  }

  /** Neither registered nor given up, unless its commit went through unnoticed. */
  ghost predicate Undecided(s: State, x: ObjectId, operation: Operation) {
    if x in s.unacknowledged then x in s.links && operation.status.Succeeded? && operation.record == Some(x)
    else x !in s.links && operation.status.InProgress?
  }

  ghost predicate PhaseFits(s: State, x: ObjectId, operation: Operation, phase: Phase) {
    match phase
    case Stored(_) => Undecided(s, x, operation) && x in s.live && x !in s.unacknowledged && x !in s.unmarked && x !in s.audits
    case Recorded(_) =>
      && Undecided(s, x, operation) && x in s.live && x !in s.unacknowledged && x !in s.unmarked && x !in s.audits
      && operation.record == Some(x)
    case Compensating(_) => Undecided(s, x, operation) && x !in s.unmarked && x !in s.audits
    case Removed(_) => Undecided(s, x, operation) && x !in s.live && x !in s.unmarked && x !in s.audits
    case Stuck(_) => Undecided(s, x, operation) && x !in s.audits
    case Marked(_) =>
      && x !in s.audits
      && (if x in s.unacknowledged then Undecided(s, x, operation)
          else x !in s.links && operation.status.Failed? && operation.record == Some(x))
    case Answered(_) =>
      x !in s.unmarked ==>
        if x in s.unacknowledged then x in s.links && operation.status.Succeeded? && (x !in s.live || x in s.audits)
        else EndsWell(s, x)
    case _ => true
  }

  ghost predicate ObjectValid(s: State, x: ObjectId)
    requires x in s.owner
  {
    && x < s.minted && s.owner[x] in s.requests
    && var q := s.requests[s.owner[x]];
    && q.key in s.operations && q.key in s.claimant && s.claimant[q.key] == s.owner[x] && q.key in s.puts
    && (Working(q.phase) ==> q.phase.id == x)
    && !q.phase.Arrived? && !q.phase.Unseen? && !q.phase.Claimed?
    && PhaseFits(s, x, s.operations[q.key], q.phase)
  }

  ghost predicate Fresh(s: State) {
    && (forall x | x in s.links || x in s.audits || x in s.live || x in s.unacknowledged || x in s.unmarked :: x < s.minted)
    && (forall k | k in s.puts :: k in s.operations)
    && s.claimant.Keys == s.operations.Keys
    && (forall k | k in s.operations :: s.claimant[k] in s.requests && s.requests[s.claimant[k]].key == k)
  }

  ghost predicate OneObjectPerRequest(s: State) {
    forall x, y | x in s.owner && y in s.owner && x != y :: s.owner[x] != s.owner[y]
  }

  ghost predicate Inv(s: State) {
    && Fresh(s) && OneObjectPerRequest(s) && NoRepeats(s.puts)
    && (forall id | id in s.requests :: RequestValid(s, id))
    && (forall x | x in s.owner :: ObjectValid(s, x))
  }

  // ------------------------------------------------------------ preservation

  /** Only request `id`, its key and the object `x` are touched. */
  ghost predicate Local(s: State, t: State, id: RequestId, x: ObjectId) {
    && id in s.requests && t.requests.Keys == s.requests.Keys && t.requests[id].key == s.requests[id].key
    && (forall o | o in s.requests && o != id :: t.requests[o] == s.requests[o])
    && s.operations.Keys <= t.operations.Keys <= s.operations.Keys + {s.requests[id].key}
    && ((t.operations == s.operations && t.puts == s.puts) || s.requests[id].key !in s.operations
        || (s.requests[id].key in s.claimant && s.claimant[s.requests[id].key] == id))
    && (forall k | k in s.operations && k != s.requests[id].key :: t.operations[k] == s.operations[k])
    && (forall k | k in s.claimant :: k in t.claimant && t.claimant[k] == s.claimant[k])
    && (forall k | k in s.puts :: k in t.puts) && (forall k | k in t.puts :: k in s.puts || k == s.requests[id].key)
    && s.minted <= t.minted
    && s.owner.Keys <= t.owner.Keys <= s.owner.Keys + {x}
    && (forall y | y in s.owner :: t.owner[y] == s.owner[y])
    && (forall y | y != x ::
          && (y in t.links <==> y in s.links) && (y in t.audits <==> y in s.audits) && (y in t.live <==> y in s.live)
          && (y in t.unacknowledged <==> y in s.unacknowledged) && (y in t.unmarked <==> y in s.unmarked))
  }

  lemma OthersStay(s: State, t: State, id: RequestId, x: ObjectId, y: ObjectId)
    requires Inv(s) && Local(s, t, id, x)
    requires y in s.owner && y != x && s.owner[y] != id
    ensures ObjectValid(t, y)
  {
    assert ObjectValid(s, y);
  }

  lemma RequestStays(s: State, t: State, id: RequestId, x: ObjectId, o: RequestId)
    requires Inv(s) && Local(s, t, id, x) && o in s.requests && o != id
    requires s.requests[id].key in s.operations && s.operations[s.requests[id].key].status.Succeeded? ==>
      s.requests[id].key in t.operations && t.operations[s.requests[id].key] == s.operations[s.requests[id].key]
    ensures RequestValid(t, o)
  {
    assert RequestValid(s, o);
  }

  lemma OneEach(s: State, t: State, id: RequestId, x: ObjectId)
    requires OneObjectPerRequest(s) && Local(s, t, id, x)
    requires forall y | y in s.owner && s.owner[y] == id :: y == x
    requires x in t.owner ==> t.owner[x] == id
    ensures OneObjectPerRequest(t)
  {
  }

  lemma Combine(s: State, t: State, id: RequestId, x: ObjectId)
    requires Inv(s) && Local(s, t, id, x) && Fresh(t) && NoRepeats(t.puts)
    requires s.requests[id].key in s.operations && s.operations[s.requests[id].key].status.Succeeded? ==>
      s.requests[id].key in t.operations && t.operations[s.requests[id].key] == s.operations[s.requests[id].key]
    requires RequestValid(t, id)
    requires forall y | y in s.owner && s.owner[y] == id :: y == x
    requires x in t.owner ==> t.owner[x] == id && ObjectValid(t, x)
    ensures Inv(t)
  {
    OneEach(s, t, id, x);
    hide ObjectValid, RequestValid, NoRepeats;
    forall y | y in t.owner ensures ObjectValid(t, y) {
      if y != x { OthersStay(s, t, id, x, y); }
    }
    forall o | o in t.requests ensures RequestValid(t, o) {
      if o != id { RequestStays(s, t, id, x, o); }
    }
  }

  lemma NoObjectYet(s: State, id: RequestId)
    requires Inv(s) && id in s.requests
    requires s.requests[id].phase.Arrived? || s.requests[id].phase.Unseen? || s.requests[id].phase.Claimed?
    ensures s.minted !in s.owner && forall y | y in s.owner :: s.owner[y] != id
  {
    assert forall y | y in s.owner :: ObjectValid(s, y);
  }

  /** Steps in which a request only changes its own phase, without an object in hand. */
  lemma AnswerKeepsInv(s: State, id: RequestId, phase: Phase)
    requires Inv(s) && id in s.requests
    requires s.requests[id].phase.Arrived? || s.requests[id].phase.Unseen? || s.requests[id].phase.Claimed?
    requires RequestValid(Move(s, id, phase), id)
    ensures Inv(Move(s, id, phase))
  {
    NoObjectYet(s, id);
    hide PhaseFits, ObjectValid, OneObjectPerRequest, NoRepeats;
    Combine(s, Move(s, id, phase), id, s.minted);
  }

  lemma ClaimIsLocal(s: State, id: RequestId)
    requires id in s.requests && s.requests[id].phase.Unseen?
    requires s.requests[id].key !in s.operations && s.requests[id].key !in s.claimant && s.requests[id].key !in s.puts
    ensures Local(s, Advanced(s, id), id, s.minted) && RequestValid(Advanced(s, id), id)
    ensures Fresh(s) ==> Fresh(Advanced(s, id))
  {
  }

  lemma ClaimKeepsInv(s: State, id: RequestId)
    requires Inv(s) && id in s.requests && s.requests[id].phase.Unseen? && s.requests[id].key !in s.operations
    ensures Inv(Advanced(s, id))
  {
    NoObjectYet(s, id);
    assert s.requests[id].key !in s.puts && s.requests[id].key !in s.claimant;
    assert Advanced(s, id).owner == s.owner && Advanced(s, id).puts == s.puts;
    ClaimIsLocal(s, id);
    hide Advanced, RequestValid, ObjectValid, Local, OneObjectPerRequest, NoRepeats, Fresh;
    Combine(s, Advanced(s, id), id, s.minted);
  }

  lemma PutIsLocal(s: State, id: RequestId)
    requires id in s.requests && RequestValid(s, id) && s.requests[id].phase.Claimed? && s.minted !in s.owner
    ensures Local(s, Put(s, id), id, s.minted) && RequestValid(Put(s, id), id)
    ensures Fresh(s) ==> Fresh(Put(s, id))
    ensures Put(s, id).owner == s.owner[s.minted := id] && Put(s, id).puts == s.puts + [s.requests[id].key]
    ensures s.requests[id].key !in s.puts && s.operations[s.requests[id].key].status.InProgress?
  {
  }

  lemma PutKeepsInv(s: State, id: RequestId)
    requires Inv(s) && id in s.requests && s.requests[id].phase.Claimed?
    ensures Inv(Put(s, id))
  {
    assert RequestValid(s, id);
    NoObjectYet(s, id);
    assert ObjectValid(Put(s, id), s.minted);
    PutIsLocal(s, id);
    hide Put, RequestValid, ObjectValid, Local, OneObjectPerRequest, Fresh;
    Combine(s, Put(s, id), id, s.minted);
  }

  lemma PutFailedIsLocal(s: State, id: RequestId, created: bool)
    requires id in s.requests && RequestValid(s, id) && s.requests[id].phase.Claimed? && s.minted !in s.owner
    ensures Local(s, PutFailed(s, id, created), id, s.minted) && RequestValid(PutFailed(s, id, created), id)
    ensures Fresh(s) ==> Fresh(PutFailed(s, id, created))
    ensures PutFailed(s, id, created).owner == s.owner && PutFailed(s, id, created).puts == s.puts + [s.requests[id].key]
    ensures s.requests[id].key !in s.puts && s.operations[s.requests[id].key].status.InProgress?
  {
  }

  lemma PutFailedKeepsInv(s: State, id: RequestId, created: bool)
    requires Inv(s) && id in s.requests && s.requests[id].phase.Claimed?
    ensures Inv(PutFailed(s, id, created))
  {
    assert RequestValid(s, id);
    NoObjectYet(s, id);
    PutFailedIsLocal(s, id, created);
    hide PutFailed, RequestValid, ObjectValid, Local, OneObjectPerRequest, Fresh;
    Combine(s, PutFailed(s, id, created), id, s.minted);
  }

  lemma MyObject(s: State, id: RequestId)
    requires Inv(s) && id in s.requests && Working(s.requests[id].phase)
    ensures RequestValid(s, id) && s.requests[id].phase.id in s.owner && ObjectValid(s, s.requests[id].phase.id)
  {
    assert RequestValid(s, id);
  }

  /** What a step of a working request may rely on, without the whole invariant. */
  ghost predicate AtWork(s: State, id: RequestId) {
    && id in s.requests && Working(s.requests[id].phase) && s.requests[id].phase.id < s.minted
    && s.requests[id].key in s.operations && s.requests[id].key in s.claimant && s.claimant[s.requests[id].key] == id
  }

  predicate InTry(s: State, id: RequestId) {
    id in s.requests && (s.requests[id].phase.Stored? || s.requests[id].phase.Recorded?)
  }

  predicate Cleaning(s: State, id: RequestId) {
    id in s.requests && (s.requests[id].phase.Compensating? || s.requests[id].phase.Removed?)
  }

  predicate Reporting(s: State, id: RequestId) {
    id in s.requests && (s.requests[id].phase.Stuck? || s.requests[id].phase.Marked?)
  }

  predicate IsWork(step: Step, id: RequestId) {
    step == Advance(id) || step == RecordFails(id) || (step.RegisterFails? && step.id == id)
    || (step.DeleteFails? && step.id == id) || step == DatabaseFails(id)
  }

  /** Marking changes one operation, and only one in progress. */
  lemma MarkFailedTouches(s: State, key: Key, x: Option<ObjectId>)
    ensures var t := MarkFailed(s, key, x);
      && t == s.(operations := t.operations) && t.operations.Keys == s.operations.Keys
      && forall k | k in s.operations && k != key :: t.operations[k] == s.operations[k]
  {
  }

  /** The fields a step of a working request may change, and how. */
  predicate Touches(s: State, t: State, id: RequestId)
    requires id in s.requests && Working(s.requests[id].phase)
  {
    var key, x := s.requests[id].key, s.requests[id].phase.id;
    && id in t.requests && t.requests == s.requests[id := Request(key, t.requests[id].phase)]
    && (t.operations == s.operations || (key in t.operations && t.operations == s.operations[key := t.operations[key]]))
    && (t.links == s.links || (x in t.links && t.links == s.links[x := t.links[x]]))
    && (t.audits == s.audits || t.audits == s.audits + {x})
    && (t.live == s.live || t.live == s.live - {x})
    && (t.unacknowledged == s.unacknowledged || t.unacknowledged == s.unacknowledged + {x})
    && (t.unmarked == s.unmarked || t.unmarked == s.unmarked + {x})
    && t.minted == s.minted && t.claimant == s.claimant && t.puts == s.puts && t.owner == s.owner
  }

  lemma TouchesIsLocal(s: State, t: State, id: RequestId)
    requires AtWork(s, id) && Touches(s, t, id)
    ensures Local(s, t, id, s.requests[id].phase.id)
  {
  }

  lemma TouchesKeepsFresh(s: State, t: State, id: RequestId)
    requires AtWork(s, id) && Touches(s, t, id) && Fresh(s)
    ensures Fresh(t)
  {
  }

  lemma AdvanceTouches(s: State, id: RequestId)
    requires AtWork(s, id)
    ensures Touches(s, Advanced(s, id), id)
  {
  }

  lemma RegisterFailedTouches(s: State, id: RequestId, committed: bool)
    requires AtWork(s, id)
    ensures Touches(s, RegisterFailed(s, id, s.requests[id].phase.id, committed), id)
  {
  }

  lemma DatabaseFailedTouches(s: State, id: RequestId)
    requires AtWork(s, id)
    ensures Touches(s, DatabaseFailed(s, id), id)
  {
  }

  lemma WorkTouches(s: State, step: Step, id: RequestId)
    requires AtWork(s, id) && IsWork(step, id)
    ensures Touches(s, Apply(s, step), id)
  {
    hide Advanced, RegisterFailed, DatabaseFailed, PutFailed;
    match step
    case Advance(_) => AdvanceTouches(s, id);
    case RegisterFails(_, committed) => RegisterFailedTouches(s, id, committed);
    case DatabaseFails(_) => DatabaseFailedTouches(s, id);
    case _ =>
  }

  lemma TryIsValid(s: State, step: Step, id: RequestId)
    requires AtWork(s, id) && InTry(s, id) && IsWork(step, id) && RequestValid(s, id)
    requires s.requests[id].phase.id in s.owner && ObjectValid(s, s.requests[id].phase.id)
    ensures RequestValid(Apply(s, step), id) && ObjectValid(Apply(s, step), s.requests[id].phase.id)
  {
  }

  lemma CleaningIsValid(s: State, step: Step, id: RequestId)
    requires AtWork(s, id) && Cleaning(s, id) && IsWork(step, id) && RequestValid(s, id)
    requires s.requests[id].phase.id in s.owner && ObjectValid(s, s.requests[id].phase.id)
    ensures RequestValid(Apply(s, step), id) && ObjectValid(Apply(s, step), s.requests[id].phase.id)
  {
  }

  lemma ReportingIsValid(s: State, step: Step, id: RequestId)
    requires AtWork(s, id) && Reporting(s, id) && IsWork(step, id) && RequestValid(s, id)
    requires s.requests[id].phase.id in s.owner && ObjectValid(s, s.requests[id].phase.id)
    ensures RequestValid(Apply(s, step), id) && ObjectValid(Apply(s, step), s.requests[id].phase.id)
  {
  }

  lemma WorkKeepsInv(s: State, step: Step, id: RequestId)
    requires Inv(s) && id in s.requests && Working(s.requests[id].phase) && IsWork(step, id)
    ensures Inv(Apply(s, step))
  {
    var x, t := s.requests[id].phase.id, Apply(s, step);
    MyObject(s, id);
    assert AtWork(s, id) && (InTry(s, id) || Cleaning(s, id) || Reporting(s, id));
    assert forall y | y in s.owner && s.owner[y] == id :: y == x;
    assert s.operations[s.requests[id].key].status.Succeeded? ==> t.operations == s.operations by { DecisionStays(s, step, id); }
    assert Fresh(s) && NoRepeats(s.puts);
    WorkTouches(s, step, id);
    assert t.owner == s.owner && t.puts == s.puts;
    hide Apply, Fresh, Local, RequestValid, ObjectValid, AtWork, NoRepeats, OneObjectPerRequest, Inv, Touches;
    TouchesIsLocal(s, t, id);
    TouchesKeepsFresh(s, t, id);
    if InTry(s, id) { TryIsValid(s, step, id); }
    else if Cleaning(s, id) { CleaningIsValid(s, step, id); }
    else { ReportingIsValid(s, step, id); }
    Combine(s, t, id, x);
  }

  lemma DecisionStays(s: State, step: Step, id: RequestId)
    requires AtWork(s, id) && IsWork(step, id) && s.requests[id].phase.id in s.owner
    requires ObjectValid(s, s.requests[id].phase.id) && s.owner[s.requests[id].phase.id] == id
    ensures !s.operations[s.requests[id].key].status.InProgress? ==> Apply(s, step).operations == s.operations
  {
  }

  /** A crashed request leaves its object as it is, for good. */
  lemma CrashAtWorkKeepsInv(s: State, id: RequestId)
    requires Inv(s) && id in s.requests && Working(s.requests[id].phase)
    ensures Inv(Move(s, id, Crashed))
  {
    var x, t := s.requests[id].phase.id, Move(s, id, Crashed);
    MyObject(s, id);
    assert ObjectValid(t, x) && RequestValid(t, id) && AtWork(s, id);
    assert forall y | y in s.owner && s.owner[y] == id :: y == x;
    assert Touches(s, t, id) && t.owner == s.owner && t.puts == s.puts && t.operations == s.operations;
    assert Fresh(s) && NoRepeats(s.puts);
    hide ObjectValid, RequestValid, NoRepeats, Fresh, Local, OneObjectPerRequest, Touches, AtWork, Inv;
    TouchesIsLocal(s, t, id);
    TouchesKeepsFresh(s, t, id);
    Combine(s, t, id, x);
  }

  lemma CrashKeepsInv(s: State, id: RequestId)
    requires Inv(s) && id in s.requests && !s.requests[id].phase.Answered?
    ensures Inv(Move(s, id, Crashed))
  {
    if Working(s.requests[id].phase) {
      CrashAtWorkKeepsInv(s, id);
    } else if s.requests[id].phase.Crashed? {
      assert Move(s, id, Crashed) == s;
    } else {
      assert RequestValid(Move(s, id, Crashed), id);
      hide Inv, RequestValid;
      AnswerKeepsInv(s, id, Crashed);
    }
  }

  lemma ArriveKeepsInv(s: State, id: RequestId, key: Key)
    requires Inv(s) && id !in s.requests
    ensures Inv(s.(requests := s.requests[id := Request(key, Arrived)]))
  {
    var t := s.(requests := s.requests[id := Request(key, Arrived)]);
    forall o | o in t.requests ensures RequestValid(t, o) {
      if o != id { assert RequestValid(s, o); }
    }
    forall x | x in t.owner ensures ObjectValid(t, x) { assert ObjectValid(s, x); }
  }

  lemma EarlyKeepsInv(s: State, id: RequestId)
    requires Inv(s) && id in s.requests
    requires s.requests[id].phase.Arrived? || s.requests[id].phase.Unseen? || s.requests[id].phase.Claimed?
    ensures Inv(Advanced(s, id))
  {
    var t := Advanced(s, id);
    if s.requests[id].phase.Claimed? {
      PutKeepsInv(s, id);
    } else if s.requests[id].phase.Unseen? && s.requests[id].key !in s.operations {
      ClaimKeepsInv(s, id);
    } else {
      assert t == Move(s, id, t.requests[id].phase) && RequestValid(t, id);
      hide Advanced, RequestValid, Inv;
      AnswerKeepsInv(s, id, t.requests[id].phase);
    }
  }

  lemma ApplyKeepsInv(s: State, step: Step)
    requires Inv(s)
    ensures Inv(Apply(s, step))
  {
    hide Inv, RequestValid, Put, PutFailed, Register;
    if Apply(s, step) == s { return; }
    if step.Arrive? {
      ArriveKeepsInv(s, step.id, step.key);
    } else if Working(s.requests[step.id].phase) && !step.Crash? {
      WorkKeepsInv(s, step, step.id);
    } else {
      match step
      case Advance(id) => EarlyKeepsInv(s, id);
      case Reject(id) => RejectKeepsInv(s, id);
      case PutFails(id, created) => PutFailedKeepsInv(s, id, created);
      case Crash(id) => CrashKeepsInv(s, id);
    }
  }

  lemma RejectKeepsInv(s: State, id: RequestId)
    requires Inv(s) && id in s.requests && (s.requests[id].phase.Arrived? || s.requests[id].phase.Unseen?)
    ensures Inv(Move(s, id, Answered(Refusal)))
  {
    AnswerKeepsInv(s, id, Answered(Refusal));
  }

  lemma {:induction false} RunKeepsInv(steps: seq<Step>)
    ensures Inv(Run(Start(), steps))
    decreases |steps|
  {
    if steps != [] {
      RunKeepsInv(steps[..|steps| - 1]);
      ApplyKeepsInv(Run(Start(), steps[..|steps| - 1]), steps[|steps| - 1]);
    }
  }

  // ------------------------------------------------------------ other requests

  predicate SameRequest(s: State, t: State, id: RequestId)
    requires id in s.requests
  {
    id in t.requests && t.requests[id] == s.requests[id]
  }

  lemma StepKeepsOthers(s: State, step: Step, id: RequestId)
    requires id in s.requests && step.id != id
    ensures SameRequest(s, Apply(s, step), id)
  {
    hide Advanced, DatabaseFailed, RegisterFailed, PutFailed;
  }

  lemma StepKeepsKey(s: State, step: Step, id: RequestId)
    requires id in s.requests
    ensures id in Apply(s, step).requests && Apply(s, step).requests[id].key == s.requests[id].key
  {
    hide Advanced, DatabaseFailed, RegisterFailed, PutFailed;
  }

  lemma OnlyArrivalAdds(s: State, step: Step, id: RequestId)
    requires id !in s.requests && id in Apply(s, step).requests
    ensures Apply(s, step).requests[id].phase.Arrived?
  {
    hide Advanced, DatabaseFailed, RegisterFailed, PutFailed;
  }

  // ------------------------------------------------------------ main results

  /** However many requests share a key, put is called at most once for it. */
  lemma OnePutPerKey(steps: seq<Step>)
    ensures NoRepeats(Run(Start(), steps).puts)
  {
    RunKeepsInv(steps);
  }

  /**
   Once the request that put an object has answered, and the database calls of
   its catch block went through, the object has ended in exactly one way,
   registered, removed or reported, if and only if its registration did not
   commit without the request learning of it.
   */
  lemma ObjectEndsInOneWayIff(steps: seq<Step>, x: ObjectId)
    requires var s := Run(Start(), steps);
      && x in s.owner && s.owner[x] in s.requests && s.requests[s.owner[x]].phase.Answered? && x !in s.unmarked
    ensures var s := Run(Start(), steps);
      && (EndsWell(s, x) <==> x !in s.unacknowledged)
      && !(EndsLinked(s, x) && EndsDeleted(s, x)) && !(EndsLinked(s, x) && EndsReported(s, x))
      && !(EndsDeleted(s, x) && EndsReported(s, x))
  {
    RunKeepsInv(steps);
    assert ObjectValid(Run(Start(), steps), x);
  }

  /** All requests for a key that are answered with a node get the same node. */
  lemma AnswersAgree(steps: seq<Step>, a: RequestId, b: RequestId)
    requires var s := Run(Start(), steps);
      && a in s.requests && b in s.requests && s.requests[a].key == s.requests[b].key
      && s.requests[a].phase.Answered? && s.requests[a].phase.answer.Node?
      && s.requests[b].phase.Answered? && s.requests[b].phase.answer.Node?
    ensures var s := Run(Start(), steps); s.requests[a].phase == s.requests[b].phase
  {
    RunKeepsInv(steps);
    assert RequestValid(Run(Start(), steps), a) && RequestValid(Run(Start(), steps), b);
  }

  lemma WorkDecides(s: State, step: Step, key: Key)
    requires Inv(s) && key in s.operations && !s.operations[key].status.InProgress?
    requires step.id in s.requests && Working(s.requests[step.id].phase) && IsWork(step, step.id)
    ensures key in Apply(s, step).operations && Apply(s, step).operations[key] == s.operations[key]
  {
    MyObject(s, step.id);
    hide Inv;
    DecisionStays(s, step, step.id);
    WorkTouches(s, step, step.id);
    hide Apply, RequestValid, ObjectValid;
  }

  lemma OthersDecideNothing(s: State, step: Step, key: Key)
    requires key in s.operations && !s.operations[key].status.InProgress?
    requires step.id in s.requests ==>
      RequestValid(s, step.id) && !(Working(s.requests[step.id].phase) && IsWork(step, step.id))
    ensures key in Apply(s, step).operations && Apply(s, step).operations[key] == s.operations[key]
  {
  }

  lemma DecisionIsFinal(s: State, step: Step, key: Key)
    requires Inv(s) && key in s.operations && !s.operations[key].status.InProgress?
    ensures key in Apply(s, step).operations && Apply(s, step).operations[key] == s.operations[key]
  {
    if step.id in s.requests {
      assert RequestValid(s, step.id);
      if Working(s.requests[step.id].phase) && IsWork(step, step.id) {
        WorkDecides(s, step, key);
        return;
      }
    }
    hide Apply, Inv, IsWork, Working, RequestValid;
    OthersDecideNothing(s, step, key);
  }

  /** A key that has succeeded or failed stays as it is. */
  lemma DecisionsAreFinal(steps: seq<Step>, step: Step, key: Key)
    requires var s := Run(Start(), steps); key in s.operations && !s.operations[key].status.InProgress?
    ensures var s := Run(Start(), steps);
      key in Apply(s, step).operations && Apply(s, step).operations[key] == s.operations[key]
  {
    RunKeepsInv(steps);
    DecisionIsFinal(Run(Start(), steps), step, key);
  }

  /** A request for a key that has succeeded is waiting, gone, or answered with the key's node. */
  predicate AwaitsNode(s: State, id: RequestId, key: Key, node: NodeId) {
    id in s.requests && s.requests[id].key == key ==>
      var phase := s.requests[id].phase; phase.Arrived? || phase.Crashed? || phase == Answered(Node(node))
  }

  lemma OwnReplayStep(s: State, step: Step, id: RequestId, key: Key, node: NodeId)
    requires key in s.operations && s.operations[key].status.Succeeded? && s.operations[key].node == Some(node)
    requires id in s.requests && s.requests[id].key == key && AwaitsNode(s, id, key, node)
    requires step.id == id && step != Reject(id)
    ensures AwaitsNode(Apply(s, step), id, key, node)
  {
    hide Put, PutFailed, MarkFailed, Register;
  }

  lemma ReplayStep(s: State, step: Step, id: RequestId, key: Key, node: NodeId)
    requires key in s.operations && s.operations[key].status.Succeeded? && s.operations[key].node == Some(node)
    requires AwaitsNode(s, id, key, node) && step != Reject(id)
    ensures AwaitsNode(Apply(s, step), id, key, node)
  {
    if id !in s.requests {
      if id in Apply(s, step).requests { OnlyArrivalAdds(s, step, id); }
      hide Apply;
    } else {
      StepKeepsKey(s, step, id);
      if step.id != id { StepKeepsOthers(s, step, id); }
      else if s.requests[id].key == key { OwnReplayStep(s, step, id, key, node); }
      hide Apply;
    }
  }

  /**
   Once a key has succeeded, it keeps its node, and every request that comes
   later for it, unless it is rejected as another user's or file's, can only be
   answered with that node.
   */
  lemma {:induction false} LaterRequestsGetNode(steps: seq<Step>, more: seq<Step>, id: RequestId, key: Key, node: NodeId)
    requires var s := Run(Start(), steps);
      && key in s.operations && s.operations[key].status.Succeeded? && s.operations[key].node == Some(node)
      && id !in s.requests
    requires forall i | 0 <= i < |more| :: more[i] != Reject(id)
    ensures var t := Run(Start(), steps + more);
      && key in t.operations && t.operations[key] == Run(Start(), steps).operations[key]
      && AwaitsNode(t, id, key, node)
    decreases |more|
  {
    if more == [] {
      assert steps + more == steps;
    } else {
      var n := |more| - 1;
      LaterRequestsGetNode(steps, more[..n], id, key, node);
      assert (steps + more)[..|steps + more| - 1] == steps + more[..n];
      var t := Run(Start(), steps + more[..n]);
      assert Run(Start(), steps + more) == Apply(t, more[n]);
      RunKeepsInv(steps + more[..n]);
      hide Run, Apply, Inv, AwaitsNode;
      DecisionIsFinal(t, more[n], key);
      ReplayStep(t, more[n], id, key, node);
    }
  }

  /** And it is answered so at its first look at the key. */
  lemma ReplayAnswers(s: State, id: RequestId, node: NodeId)
    requires id in s.requests && s.requests[id].phase.Arrived? && s.requests[id].key in s.operations
    ensures Advanced(s, id).requests[id].phase == Answered(Node(node)) <==>
      s.operations[s.requests[id].key].status.Succeeded? && s.operations[s.requests[id].key].node == Some(node)
    ensures Advanced(s, id).requests[id].phase.Answered?
  {
  }

  ghost predicate Reaches(s: State) {
    exists steps :: Run(Start(), steps) == s
  }

  lemma ReachesNext(s: State, step: Step)
    requires Reaches(s)
    ensures Reaches(Apply(s, step))
  {
    var steps :| Run(Start(), steps) == s;
    var more := steps + [step];
    assert more[..|steps|] == steps;
    assert Run(Start(), more) == Apply(s, step);
  }

  lemma FirstPut() returns (s: State)
    ensures Reaches(s)
    ensures s.requests == map[0 := Request(7, Stored(0))] && s.operations == map[7 := Operation(InProgress, None, None)]
    ensures s.links == map[] && s.live == {0} && s.nodes == 0
  {
    assert Run(Start(), []) == Start();
    assert Reaches(Start());
    hide Reaches, Run;
    s := Apply(Start(), Arrive(0, 7));
    ReachesNext(Start(), Arrive(0, 7));
    ReachesNext(s, Advance(0));
    s := Apply(s, Advance(0));
    ReachesNext(s, Advance(0));
    s := Apply(s, Advance(0));
    ReachesNext(s, Advance(0));
    s := Apply(s, Advance(0));
  }

  /** The transaction commits, its answer is lost, and the catch block deletes the object of a live node. */
  lemma LostCommitDeletesRegisteredObject()
    ensures exists s, x :: Reaches(s) && x in s.links && KeyIs(s, x, Succeeded) && x !in s.live
  {
    var s := FirstPut();
    hide Reaches;
    ReachesNext(s, Advance(0));
    s := Apply(s, Advance(0));
    ReachesNext(s, RegisterFails(0, true));
    s := Apply(s, RegisterFails(0, true));
    assert 0 in s.links && s.requests[0] == Request(7, Compensating(0));
    assert s.operations[7] == Operation(Succeeded, Some(0), Some(0));
    ReachesNext(s, Advance(0));
    s := Apply(s, Advance(0));
    OwnerOf(s);
    assert KeyIs(s, 0, Succeeded);
  }

  lemma OwnerOf(s: State)
    requires Reaches(s) && s.requests.Keys == {0} && Working(s.requests[0].phase) && s.requests[0].phase.id == 0
    ensures 0 in s.owner && s.owner[0] == 0
  {
    var steps :| Run(Start(), steps) == s;
    RunKeepsInv(steps);
    assert RequestValid(s, 0);
  }
}
