/**
 One editor session against the save coordinator: any number of tries may be in
 flight, be served late, be lost or crash half way, and the user goes on typing.
 Shows when an acknowledged save takes text away that the user can see: exactly
 when the user had gone back to the old baseline meanwhile, or when an earlier
 try of the same operation with another text was the one stored.
 */
module EditorPersistence {
  import opened Wrappers
  import opened TextEditor

  /** `writer` is a history variable: the request whose text the answer shows. */
  datatype Reply =
    | Stored(content: Text, revision: nat, writer: nat)
    | Rejected(conflict: bool)

  datatype Request = Request(
    operation: OperationId,
    payload: Text,
    generation: nat,
    expected: nat,
    reply: Option<Reply>,
    settled: bool)

  /** A mutation record: open, or done; `written` once its replace went through. */
  datatype Entry = Entry(expected: nat, done: bool, written: Option<nat>)

  datatype State = State(
    editor: Editor,
    requests: seq<Request>,          // in the order of sending
    content: Text,
    revision: nat,
    writer: Option<nat>,             // history: the request that wrote the content
    operations: map<OperationId, Entry>,
    unused: OperationId)

  datatype Mode = Through | CrashBeforeWrite | CrashAfterWrite

  datatype Step =
    | Type(text: Text)
    | Undo
    | Redo
    | Restore(draft: Text)
    | Discard
    | Save
    | Serve(request: nat, mode: Mode)
    | Reconcile(operation: OperationId)
    | Deliver(request: nat)
    | Lose(request: nat)

  function Start(content: Text): State {
    State(Opened(content, 0), [], content, 0, None, map[], 0)
  }

  function Sent(s: State): State
    requires MaySave(s.editor)
  {
    var e := SaveStarted(s.editor, s.unused);
    s.(editor := e,
       requests := s.requests + [Request(e.operation.value, e.value, e.generation, e.baseRevision, None, false)],
       unused := if s.editor.operation.Some? then s.unused else s.unused + 1)
  }

  function Answer(s: State, i: nat, reply: Reply): State
    requires i < |s.requests|
  {
    s.(requests := s.requests[i := s.requests[i].(reply := Some(reply))])
  }

  predicate OtherOpen(s: State, op: OperationId) {
    exists o | o in s.operations :: o != op && !s.operations[o].done
  }

  /** The provider's replace by request `i`, recorded as done or left open. */
  function Written(s: State, i: nat, done: bool): State
    requires i < |s.requests|
  {
    var r := s.requests[i];
    s.(content := r.payload, revision := s.revision + 1, writer := Some(i),
       operations := s.operations[r.operation := Entry(r.expected, done, Some(s.revision + 1))])
  }

  function Served(s: State, i: nat, mode: Mode): State
    requires i < |s.requests|
  {
    var r := s.requests[i];
    if r.operation in s.operations then
      var entry := s.operations[r.operation];
      if entry.expected != r.expected then Answer(s, i, Rejected(true))
      else if entry.done && entry.written.Some? && s.writer.Some? then
        Answer(s, i, Stored(s.content, entry.written.value, s.writer.value))
      else Answer(s, i, Rejected(false))
    else if OtherOpen(s, r.operation) then Answer(s, i, Rejected(false))
    else if s.revision != r.expected then Answer(s, i, Rejected(true))
    else match mode
      case Through => Answer(Written(s, i, true), i, Stored(r.payload, s.revision + 1, i))
      case CrashBeforeWrite => s.(operations := s.operations[r.operation := Entry(r.expected, false, None)])
      case CrashAfterWrite => Written(s, i, false)
  }

  function Edited(e: Editor, step: Step): Editor {
    match step
    case Type(text) => Typed(e, text)
    case Undo => Undone(e)
    case Redo => Redone(e)
    case Restore(draft) => Recovered(e, draft)
    case Discard => Discarded(e)
    case _ => e
  }

  function Delivered(e: Editor, r: Request): Editor {
    match r.reply
    case Some(Stored(content, revision, _)) => Answered(e, r.generation, content, revision)
    case Some(Rejected(conflict)) => Refused(e, conflict)
    case None => e
  }

  function Settle(s: State, i: nat, e: Editor): State
    requires i < |s.requests|
  {
    s.(editor := e, requests := s.requests[i := s.requests[i].(settled := true)])
  }

  predicate Deliverable(s: State, i: nat) {
    i < |s.requests| && !s.requests[i].settled && s.requests[i].reply.Some?
  }

  function Apply(s: State, step: Step): State {
    match step
    case Save => if MaySave(s.editor) then Sent(s) else s
    case Serve(i, mode) => if i < |s.requests| && s.requests[i].reply.None? then Served(s, i, mode) else s
    case Reconcile(op) =>
      if op in s.operations && s.operations[op].written.Some?
      then s.(operations := s.operations[op := s.operations[op].(done := true)]) else s
    case Deliver(i) => if Deliverable(s, i) then Settle(s, i, Delivered(s.editor, s.requests[i])) else s
    case Lose(i) =>
      if i < |s.requests| && !s.requests[i].settled then Settle(s, i, Refused(s.editor, false)) else s
    case _ => s.(editor := Edited(s.editor, step))
  }

  function Run(s: State, steps: seq<Step>): State
    decreases |steps|
  {
    if steps == [] then s else Apply(Run(s, steps[..|steps| - 1]), steps[|steps| - 1])
  }

  // ------------------------------------------------------------ invariant

  /** Sent no later, and never under a newer operation or generation. */
  ghost predicate Ordered(s: State) {
    forall i, j | 0 <= i < j < |s.requests| ::
      s.requests[i].operation <= s.requests[j].operation && s.requests[i].generation <= s.requests[j].generation
  }

  /** A generation determines the text it was counted for, unless the editor is clean. */
  ghost predicate Generations(s: State) {
    && (forall i, j | 0 <= i < j < |s.requests| && s.requests[i].generation == s.requests[j].generation ::
          s.requests[i].payload == s.requests[j].payload)
    && (forall i | 0 <= i < |s.requests| && s.requests[i].generation == s.editor.generation && IsDirty(s.editor) ::
          s.requests[i].payload == s.editor.value)
  }

  ghost predicate RequestValid(s: State, r: Request) {
    && r.generation <= s.editor.generation && r.operation < s.unused && r.expected <= s.revision
    && (r.reply.Some? && r.reply.value.Stored? ==>
          var reply := r.reply.value;
          && reply.revision <= s.revision && reply.writer < |s.requests|
          && reply.content == s.requests[reply.writer].payload
          && s.requests[reply.writer].operation >= r.operation)
  }

  /** Requests older than a written operation are too late to write. */
  ghost predicate EntryValid(s: State, op: OperationId)
    requires op in s.operations
  {
    && op < s.unused
    && (s.operations[op].written.Some? ==>
      && s.operations[op].written.value <= s.revision
      && s.writer.Some? && s.writer.value < |s.requests| && s.requests[s.writer.value].operation >= op
      && (forall j | 0 <= j < |s.requests| && s.requests[j].operation < op :: s.requests[j].expected < s.revision))
  }

  ghost predicate Inv(s: State) {
    && Ordered(s) && Generations(s)
    && s.editor.baseRevision <= s.revision
    && (s.editor.operation.Some? ==> s.editor.operation.value + 1 == s.unused)
    && (s.writer.Some? ==> s.writer.value < |s.requests| && s.content == s.requests[s.writer.value].payload)
    && (forall i | 0 <= i < |s.requests| :: RequestValid(s, s.requests[i]))
    && (forall op | op in s.operations :: EntryValid(s, op))
  }

  /** What every change of the editor keeps. */
  ghost predicate Follows(e: Editor, f: Editor) {
    && e.generation <= f.generation
    && (f.generation == e.generation && IsDirty(f) ==> IsDirty(e) && f.value == e.value)
    && (f.operation == e.operation || f.operation.None?)
  }

  lemma EditsFollow(e: Editor, step: Step)
    ensures Follows(e, Edited(e, step)) && Edited(e, step).baseRevision == e.baseRevision
  {
  }

  lemma DeliveryFollows(e: Editor, r: Request)
    ensures Follows(e, Delivered(e, r))
    ensures Delivered(e, r).baseRevision == e.baseRevision
      || (r.reply.Some? && r.reply.value.Stored? && Delivered(e, r).baseRevision == r.reply.value.revision)
  {
  }

  lemma EditorMoveKeepsInv(s: State, f: Editor)
    requires Inv(s) && Follows(s.editor, f) && f.baseRevision <= s.revision
    ensures Inv(s.(editor := f))
  {
    var t := s.(editor := f);
    forall i | 0 <= i < |t.requests| ensures RequestValid(t, t.requests[i]) { assert RequestValid(s, s.requests[i]); }
    forall op | op in t.operations ensures EntryValid(t, op) { assert EntryValid(s, op); }
  }

  /** A change of one request's answer or fate. */
  lemma RequestMoveKeepsInv(s: State, i: nat, r: Request)
    requires Inv(s) && i < |s.requests| && RequestValid(s, r)
    requires r.(reply := None, settled := false) == s.requests[i].(reply := None, settled := false)
    ensures Inv(s.(requests := s.requests[i := r]))
  {
    var t := s.(requests := s.requests[i := r]);
    forall k | 0 <= k < |t.requests| ensures RequestValid(t, t.requests[k]) { assert RequestValid(s, s.requests[k]); }
    forall op | op in t.operations ensures EntryValid(t, op) { assert EntryValid(s, op); }
  }

  lemma SentKeepsInv(s: State)
    requires Inv(s) && MaySave(s.editor)
    ensures Inv(Sent(s))
  {
    var t := Sent(s);
    forall i | 0 <= i < |t.requests| ensures RequestValid(t, t.requests[i]) {
      if i < |s.requests| { assert RequestValid(s, s.requests[i]); }
    }
    forall op | op in t.operations ensures EntryValid(t, op) { assert EntryValid(s, op); }
  }

  lemma WrittenKeepsInv(s: State, i: nat, done: bool)
    requires Inv(s) && i < |s.requests| && s.requests[i].expected == s.revision
    ensures Inv(Written(s, i, done))
  {
    var t := Written(s, i, done);
    forall k | 0 <= k < |t.requests| ensures RequestValid(t, t.requests[k]) { assert RequestValid(s, s.requests[k]); }
    assert RequestValid(s, s.requests[i]);
    forall op | op in t.operations ensures EntryValid(t, op) {
      forall j | 0 <= j < |s.requests| ensures s.requests[j].expected <= s.revision { assert RequestValid(s, s.requests[j]); }
      if op != s.requests[i].operation { assert EntryValid(s, op); }
    }
  }

  lemma OpenKeepsInv(s: State, op: OperationId, entry: Entry)
    requires Inv(s) && op < s.unused && (entry.written.Some? ==> op in s.operations && entry.written == s.operations[op].written)
    ensures Inv(s.(operations := s.operations[op := entry]))
  {
    var t := s.(operations := s.operations[op := entry]);
    forall i | 0 <= i < |t.requests| ensures RequestValid(t, t.requests[i]) { assert RequestValid(s, s.requests[i]); }
    forall o | o in t.operations ensures EntryValid(t, o) {
      if o in s.operations { assert EntryValid(s, o); }
    }
  }

  lemma ServedKeepsInv(s: State, i: nat, mode: Mode)
    requires Inv(s) && i < |s.requests| && s.requests[i].reply.None?
    ensures Inv(Served(s, i, mode))
  {
    var r := s.requests[i];
    assert RequestValid(s, r);
    var t := Served(s, i, mode);
    if r.operation in s.operations {
      assert EntryValid(s, r.operation);
      RequestMoveKeepsInv(s, i, t.requests[i]);
    } else if OtherOpen(s, r.operation) || s.revision != r.expected {
      RequestMoveKeepsInv(s, i, t.requests[i]);
    } else {
      match mode
      case Through =>
        WrittenKeepsInv(s, i, true);
        RequestMoveKeepsInv(Written(s, i, true), i, t.requests[i]);
      case CrashBeforeWrite => OpenKeepsInv(s, r.operation, Entry(r.expected, false, None));
      case CrashAfterWrite => WrittenKeepsInv(s, i, false);
    }
  }

  lemma SettleKeepsInv(s: State, i: nat, f: Editor)
    requires Inv(s) && i < |s.requests| && Follows(s.editor, f) && f.baseRevision <= s.revision
    ensures Inv(Settle(s, i, f))
  {
    EditorMoveKeepsInv(s, f);
    var u := s.(editor := f);
    assert RequestValid(u, u.requests[i]);
    RequestMoveKeepsInv(u, i, u.requests[i].(settled := true));
  }

  lemma ApplyKeepsInv(s: State, step: Step)
    requires Inv(s)
    ensures Inv(Apply(s, step))
  {
    match step
    case Save => if MaySave(s.editor) { SentKeepsInv(s); }
    case Serve(i, mode) => if i < |s.requests| && s.requests[i].reply.None? { ServedKeepsInv(s, i, mode); }
    case Reconcile(op) =>
      if op in s.operations && s.operations[op].written.Some? { OpenKeepsInv(s, op, s.operations[op].(done := true)); }
    case Deliver(i) =>
      if Deliverable(s, i) {
        assert RequestValid(s, s.requests[i]);
        DeliveryFollows(s.editor, s.requests[i]);
        SettleKeepsInv(s, i, Delivered(s.editor, s.requests[i]));
      }
    case Lose(i) =>
      if i < |s.requests| && !s.requests[i].settled { SettleKeepsInv(s, i, Refused(s.editor, false)); }
    case _ =>
      EditsFollow(s.editor, step);
      EditorMoveKeepsInv(s, Edited(s.editor, step));
  }

  lemma {:induction false} RunKeepsInv(content: Text, steps: seq<Step>)
    ensures Inv(Run(Start(content), steps))
    decreases |steps|
  {
    if steps != [] {
      RunKeepsInv(content, steps[..|steps| - 1]);
      ApplyKeepsInv(Run(Start(content), steps[..|steps| - 1]), steps[|steps| - 1]);
    }
  }

  // ------------------------------------------------------------ main results

  /** A successful answer is about to arrive. */
  predicate Acknowledges(s: State, i: nat) {
    Deliverable(s, i) && s.requests[i].reply.value.Stored?
  }

  /** What `allLocalChangesSaved` tells the editor. */
  predicate AllSaved(s: State, i: nat)
    requires i < |s.requests|
  {
    s.requests[i].generation == s.editor.generation
  }

  /** Another try of the same operation had a different text, and that one is in the file. */
  ghost predicate OtherTryStored(s: State, i: nat)
    requires Acknowledges(s, i)
  {
    exists j | 0 <= j < |s.requests| :: (
      && s.requests[j].operation == s.requests[i].operation
      && s.requests[j].payload == s.requests[i].reply.value.content
      && s.requests[j].payload != s.requests[i].payload)
  }

  /** An answer that counts as saving everything shows the text of a request just as recent. */
  lemma WriterIsAsRecent(s: State, i: nat)
    requires Inv(s) && Acknowledges(s, i) && AllSaved(s, i)
    ensures var w := s.requests[i].reply.value.writer;
      && w < |s.requests| && s.requests[i].reply.value.content == s.requests[w].payload
      && (s.requests[w].operation == s.requests[i].operation || s.requests[w].generation == s.editor.generation)
  {
    assert RequestValid(s, s.requests[i]);
    var w := s.requests[i].reply.value.writer;
    assert RequestValid(s, s.requests[w]);
  }

  /**
   In every run, an acknowledgement takes away the text the user sees exactly if
   it counts as saving everything and either the user went back to the old
   baseline meanwhile, and something else is stored, or the text stored is that
   of another try of the same operation.
   */
  lemma AcknowledgementLosesTextIff(content: Text, steps: seq<Step>, i: nat)
    requires Acknowledges(Run(Start(content), steps), i)
    ensures var s := Run(Start(content), steps);
      Apply(s, Deliver(i)).editor.value != s.editor.value <==>
        (AllSaved(s, i)
         && if IsDirty(s.editor) then OtherTryStored(s, i) else s.editor.baseline != s.requests[i].reply.value.content)
  {
    var s := Run(Start(content), steps);
    RunKeepsInv(content, steps);
    if AllSaved(s, i) && IsDirty(s.editor) {
      WriterIsAsRecent(s, i);
      var w := s.requests[i].reply.value.writer;
      assert s.requests[i].payload == s.editor.value;
      if s.requests[w].generation == s.editor.generation { assert s.requests[w].payload == s.editor.value; }
    }
  }

  /** A save is sent again with the text of the first try of its operation. */
  predicate RetriesUnchanged(s: State, step: Step) {
    step.Save? && MaySave(s.editor) ==>
      forall i | 0 <= i < |s.requests| && Some(s.requests[i].operation) == s.editor.operation ::
        s.requests[i].payload == s.editor.value
  }

  /** No answer finds the editor back on its old baseline. */
  predicate NotBackOnBaseline(s: State, step: Step) {
    step.Deliver? && Acknowledges(s, step.request) && AllSaved(s, step.request) ==> IsDirty(s.editor)
  }

  ghost predicate Always(s: State, steps: seq<Step>) {
    forall i | 0 <= i < |steps| :: RetriesUnchanged(Run(s, steps[..i]), steps[i])
  }

  ghost predicate OneTextPerOperation(s: State) {
    forall i, j | 0 <= i < j < |s.requests| && s.requests[i].operation == s.requests[j].operation ::
      s.requests[i].payload == s.requests[j].payload
  }

  lemma TextsStay(s: State, step: Step)
    requires !step.Save?
    ensures var t := Apply(s, step);
      && |t.requests| == |s.requests|
      && (forall i | 0 <= i < |s.requests| ::
            t.requests[i].operation == s.requests[i].operation && t.requests[i].payload == s.requests[i].payload)
  {
    hide Edited, Delivered;
  }

  lemma ApplyKeepsTexts(s: State, step: Step)
    requires Inv(s) && OneTextPerOperation(s) && RetriesUnchanged(s, step)
    ensures OneTextPerOperation(Apply(s, step))
  {
    if step.Save? {
      forall i | 0 <= i < |s.requests| ensures s.requests[i].operation < s.unused { assert RequestValid(s, s.requests[i]); }
      hide Inv;
    } else {
      TextsStay(s, step);
      hide Apply, Inv;
    }
  }

  lemma {:induction false} RunKeepsTexts(content: Text, steps: seq<Step>)
    requires Always(Start(content), steps)
    ensures OneTextPerOperation(Run(Start(content), steps))
    decreases |steps|
  {
    if steps != [] {
      var prefix := steps[..|steps| - 1];
      forall i | 0 <= i < |prefix| ensures RetriesUnchanged(Run(Start(content), prefix[..i]), prefix[i]) {
        assert prefix[..i] == steps[..i];
      }
      RunKeepsTexts(content, prefix);
      RunKeepsInv(content, prefix);
      ApplyKeepsTexts(Run(Start(content), prefix), steps[|steps| - 1]);
    }
  }

  /** What an acknowledgement that leaves the text alone does to the rest. */
  ghost predicate KeepsText(s: State, i: nat)
    requires Acknowledges(s, i)
  {
    var stored, e := s.requests[i].reply.value.content, Apply(s, Deliver(i)).editor;
    && e.value == s.editor.value && e.baseline == stored && e.operation.None?
    && (AllSaved(s, i) ==> e.value == stored && e.status.Clean?)
    && (!AllSaved(s, i) ==> e.status.Dirty? && (IsDirty(e) <==> s.editor.value != stored))
  }

  lemma NoOtherTry(s: State, i: nat)
    requires OneTextPerOperation(s) && Acknowledges(s, i)
    ensures !OtherTryStored(s, i)
  {
  }

  lemma SameTextIsKept(s: State, i: nat)
    requires Acknowledges(s, i) && Apply(s, Deliver(i)).editor.value == s.editor.value
    ensures KeepsText(s, i)
  {
  }

  /**
   With unchanged retries and no way back to the old baseline, typing is never
   lost: an acknowledged save leaves the text as it is. If it counts as saving
   everything, that text is the stored one and the editor is clean; otherwise
   the editor is dirty exactly if its text differs from the stored one.
   */
  lemma TypingIsNeverLost(content: Text, steps: seq<Step>, i: nat)
    requires Always(Start(content), steps)
    requires var s := Run(Start(content), steps); Acknowledges(s, i) && NotBackOnBaseline(s, Deliver(i))
    ensures KeepsText(Run(Start(content), steps), i)
  {
    hide Run, OneTextPerOperation, OtherTryStored, Apply, Always, KeepsText;
    var s := Run(Start(content), steps);
    RunKeepsTexts(content, steps);
    NoOtherTry(s, i);
    AcknowledgementLosesTextIff(content, steps, i);
    SameTextIsKept(s, i);
  }

  // ------------------------------------------------------------ the next save

  predicate IsEdit(step: Step) {
    step.Type? || step.Undo? || step.Redo? || step.Restore?
  }

  predicate AllEdits(steps: seq<Step>) {
    forall i | 0 <= i < |steps| :: IsEdit(steps[i])
  }

  lemma OneEdit(s: State, step: Step)
    requires IsEdit(step)
    ensures var t := Apply(s, step);
      && t == s.(editor := t.editor)
      && t.editor.baseline == s.editor.baseline && t.editor.baseRevision == s.editor.baseRevision
      && t.editor.operation == s.editor.operation && (t.editor.status == s.editor.status || t.editor.status.Dirty?)
  {
  }

  /** However much is edited, base, operation id and all requests stay. */
  lemma {:induction false} EditsKeepBase(s: State, edits: seq<Step>)
    requires AllEdits(edits)
    ensures var t := Run(s, edits);
      && t == s.(editor := t.editor)
      && t.editor.baseline == s.editor.baseline && t.editor.baseRevision == s.editor.baseRevision
      && t.editor.operation == s.editor.operation && (t.editor.status == s.editor.status || t.editor.status.Dirty?)
    decreases |edits|
  {
    if edits != [] {
      EditsKeepBase(s, edits[..|edits| - 1]);
      OneEdit(Run(s, edits[..|edits| - 1]), edits[|edits| - 1]);
      hide Apply;
    }
  }

  /** An acknowledgement moves the editor to the revision and content of the answer, in every run. */
  lemma AcknowledgedIsBase(s: State, i: nat)
    requires Acknowledges(s, i)
    ensures var e, reply := Apply(s, Deliver(i)).editor, s.requests[i].reply.value;
      && e.baseRevision == reply.revision && e.baseline == reply.content && e.operation.None?
      && (e.status.Clean? || e.status.Dirty?) && Apply(s, Deliver(i)) == Settle(s, i, e)
  {
  }

  /** A save under a fresh operation id while nothing is open. */
  lemma FreshSaveIsServed(s: State)
    requires Inv(s) && MaySave(s.editor) && s.editor.operation.None?
    requires forall op | op in s.operations :: s.operations[op].done
    ensures var t, n := Apply(s, Save), |s.requests|;
      && |t.requests| == n + 1 && t.requests[n].payload == s.editor.value
      && Apply(t, Serve(n, Through)).requests[n].reply ==
         Some(if s.editor.baseRevision == s.revision then Stored(s.editor.value, s.revision + 1, n) else Rejected(true))
  {
    forall op | op in s.operations ensures op < s.unused { assert EntryValid(s, op); }
  }

  /**
   In every run: after an acknowledgement and any further edits that leave the
   text dirty, the next save is sent, with that text, and it is stored exactly
   if nobody has written since the revision that was acknowledged.
   */
  lemma NextSaveIsStoredIff(content: Text, steps: seq<Step>, i: nat, edits: seq<Step>)
    requires var s := Run(Start(content), steps);
      Acknowledges(s, i) && forall op | op in s.operations :: s.operations[op].done
    requires AllEdits(edits) && IsDirty(Run(Apply(Run(Start(content), steps), Deliver(i)), edits).editor)
    ensures var s := Run(Start(content), steps);
      var u := Run(Apply(s, Deliver(i)), edits);
      var t, n := Apply(u, Save), |s.requests|;
      && MaySave(u.editor) && |t.requests| == n + 1
      && Apply(t, Serve(n, Through)).requests[n].reply ==
         Some(if s.requests[i].reply.value.revision == s.revision then Stored(u.editor.value, s.revision + 1, n)
              else Rejected(true))
  {
    hide Inv, Apply, Acknowledges, Run;
    RunKeepsInv(content, steps);
    EditedSaveIsServed(Run(Start(content), steps), i, edits);
  }

  lemma EditedSaveIsServed(s: State, i: nat, edits: seq<Step>)
    requires Inv(s) && Acknowledges(s, i) && forall op | op in s.operations :: s.operations[op].done
    requires AllEdits(edits) && IsDirty(Run(Apply(s, Deliver(i)), edits).editor)
    ensures var u := Run(Apply(s, Deliver(i)), edits);
      var t, n := Apply(u, Save), |s.requests|;
      && MaySave(u.editor) && |t.requests| == n + 1
      && Apply(t, Serve(n, Through)).requests[n].reply ==
         Some(if s.requests[i].reply.value.revision == s.revision then Stored(u.editor.value, s.revision + 1, n)
              else Rejected(true))
  {
    assert i < |s.requests|;
    hide Run, Apply, Inv, Acknowledges;
    var d := Apply(s, Deliver(i));
    ApplyKeepsInv(s, Deliver(i));
    AcknowledgedIsBase(s, i);
    EditsKeepBase(d, edits);
    EditsKeepInv(d, edits);
    FreshSaveIsServed(Run(d, edits));
  }

  lemma {:induction false} EditsKeepInv(s: State, edits: seq<Step>)
    requires Inv(s)
    ensures Inv(Run(s, edits))
    decreases |edits|
  {
    if edits != [] {
      EditsKeepInv(s, edits[..|edits| - 1]);
      ApplyKeepsInv(Run(s, edits[..|edits| - 1]), edits[|edits| - 1]);
    }
  }

  /**
   What the server does with a try, whichever one it is. It writes exactly if the
   operation id is new, no other mutation is open and nobody has written since
   the base revision, and the write stays open if the server dies after it. It
   reports a conflict exactly if the revision is outdated, or is not the one the
   operation first named.
   */
  lemma TryWritesIff(s: State, i: nat, mode: Mode)
    requires i < |s.requests| && s.requests[i].reply.None?
    ensures var r, t := s.requests[i], Apply(s, Serve(i, mode));
      var known := r.operation in s.operations;
      var admitted := !known && forall o | o in s.operations && o != r.operation :: s.operations[o].done;
      && (t.revision != s.revision <==> admitted && s.revision == r.expected && mode != CrashBeforeWrite)
      && (t.revision != s.revision ==>
            && t.revision == s.revision + 1 && t.content == r.payload && t.writer == Some(i)
            && t.operations == s.operations[r.operation := Entry(r.expected, mode == Through, Some(t.revision))])
      && (t.requests[i].reply == Some(Rejected(true)) <==>
            if known then s.operations[r.operation].expected != r.expected else admitted && s.revision != r.expected)
      && (t.requests[i].reply.None? <==> admitted && s.revision == r.expected && mode != Through)
  {
    if OtherOpen(s, s.requests[i].operation) {
      var o :| o in s.operations && o != s.requests[i].operation && !s.operations[o].done;
    }
  }

  /** After any other failure a save goes out again, under the operation id of the failed try. */
  lemma RetryKeepsOperation(s: State, i: nat, step: Step, edits: seq<Step>)
    requires i < |s.requests| && !s.requests[i].settled && s.editor.operation.Some?
    requires step == Lose(i) || (step == Deliver(i) && s.requests[i].reply == Some(Rejected(false)))
    requires AllEdits(edits) && IsDirty(Run(Apply(s, step), edits).editor)
    ensures var u := Run(Apply(s, step), edits);
      var t, n := Apply(u, Save), |s.requests|;
      && |t.requests| == n + 1 && t.requests[n].payload == u.editor.value
      && Some(t.requests[n].operation) == s.editor.operation && t.requests[n].expected == s.editor.baseRevision
  {
    EditsKeepBase(Apply(s, step), edits);
  }

  /** A try whose operation was written gets the stored answer once that operation is finished, and writes nothing. */
  lemma FinishedRetryIsAnswered(s: State, i: nat, mode: Mode)
    requires Inv(s) && i < |s.requests| && s.requests[i].reply.None? && s.requests[i].operation in s.operations
    requires var entry := s.operations[s.requests[i].operation];
      entry.expected == s.requests[i].expected && entry.written.Some?
    ensures var op := s.requests[i].operation;
      var t := Apply(Apply(s, Reconcile(op)), Serve(i, mode));
      && t.content == s.content && t.revision == s.revision
      && t.requests[i].reply.Some? && t.requests[i].reply.value.Stored?
      && t.requests[i].reply.value.content == s.content
      && t.requests[i].reply.value.revision == s.operations[op].written.value
  {
    assert EntryValid(s, s.requests[i].operation);
  }

  /** After a conflict typing goes on, but no save is sent until the user decides. */
  lemma {:induction false} ConflictStopsSaving(s: State, i: nat, edits: seq<Step>)
    requires Deliverable(s, i) && s.requests[i].reply == Some(Rejected(true))
    requires forall k | 0 <= k < |edits| :: edits[k].Type? || edits[k].Undo? || edits[k].Redo?
    ensures var u := Run(Apply(s, Deliver(i)), edits); u.editor.status.Conflict? && Apply(u, Save) == u
    decreases |edits|
  {
    if edits != [] { ConflictStopsSaving(s, i, edits[..|edits| - 1]); }
  }

  ghost predicate Reaches(from: State, to: State) {
    exists steps :: Run(from, steps) == to
  }

  lemma ReachesNext(from: State, to: State, step: Step)
    requires Reaches(from, to)
    ensures Reaches(from, Apply(to, step))
  {
    var steps :| Run(from, steps) == to;
    var more := steps + [step];
    assert more[..|steps|] == steps;
    assert Run(from, more) == Apply(to, step);
  }

  /** The text `b` is typed over `a`, and its save is on the way. */
  lemma FirstSaveSent(a: Text, b: Text) returns (s: State)
    requires a != b
    ensures Reaches(Start(a), s)
    ensures s == Start(a).(editor := s.editor, requests := [Request(0, b, 1, 0, None, false)], unused := 1)
    ensures s.editor == Editor(b, a, 0, [a], [], true, false, 1, Saving, Some(0))
  {
    var from := Start(a);
    assert Run(from, []) == from;
    assert Reaches(from, from);
    hide Reaches, Run;
    ReachesNext(from, from, Type(b));
    s := Apply(from, Type(b));
    ReachesNext(from, s, Save);
    s := Apply(s, Save);
  }

  /** Typing, saving, and going back to the old text before the answer arrives. */
  lemma GoingBackLosesText(a: Text, b: Text)
    requires a != b
    ensures exists s, i :: (
      && Reaches(Start(a), s) && Acknowledges(s, i)
      && s.editor.value == a && Apply(s, Deliver(i)).editor.value == b)
  {
    var s := FirstSaveSent(a, b);
    hide Reaches;
    ReachesNext(Start(a), s, Type(a));
    s := Apply(s, Type(a));
    ReachesNext(Start(a), s, Serve(0, Through));
    s := Apply(s, Serve(0, Through));
    assert Acknowledges(s, 0) && Apply(s, Deliver(0)).editor.value == b;
  }

  lemma StoredButLost(a: Text, b: Text) returns (s: State)
    requires a != b
    ensures Reaches(Start(a), s)
    ensures s.editor == Editor(b, a, 0, [a], [], true, false, 1, SaveFailed, Some(0))
    ensures |s.requests| == 1 && s.content == b && s.revision == 1 && s.writer == Some(0) && s.unused == 1
    ensures s.operations == map[0 := Entry(0, true, Some(1))]
  {
    s := FirstSaveSent(a, b);
    hide Reaches;
    ReachesNext(Start(a), s, Serve(0, Through));
    s := Apply(s, Serve(0, Through));
    ReachesNext(Start(a), s, Lose(0));
    s := Apply(s, Lose(0));
  }

  lemma ChangedRetrySent(a: Text, b: Text, c: Text) returns (s: State)
    requires a != b && b != c && a != c
    ensures Reaches(Start(a), s)
    ensures s.editor == Editor(c, a, 0, [a, b], [], true, false, 2, Saving, Some(0))
    ensures |s.requests| == 2 && s.requests[1] == Request(0, c, 2, 0, None, false)
    ensures s.content == b && s.revision == 1 && s.writer == Some(0) && s.operations == map[0 := Entry(0, true, Some(1))]
  {
    s := StoredButLost(a, b);
    hide Reaches;
    ReachesNext(Start(a), s, Type(c));
    s := Apply(s, Type(c));
    assert s.editor.undo == [a, b];
    ReachesNext(Start(a), s, Save);
    s := Apply(s, Save);
  }

  /**
   A save is stored but its answer is lost; the user types on and saves again.
   The retry replays the first try, and its answer replaces the newer text.
   */
  lemma ChangedRetryLosesText(a: Text, b: Text, c: Text)
    requires a != b && b != c && a != c
    ensures exists s, i :: (
      && Reaches(Start(a), s) && Acknowledges(s, i)
      && s.editor.value == c && Apply(s, Deliver(i)).editor.value == b && Apply(s, Deliver(i)).editor.status.Clean?)
  {
    var s := ChangedRetrySent(a, b, c);
    hide Reaches;
    ReachesNext(Start(a), s, Serve(1, Through));
    s := Apply(s, Serve(1, Through));
    assert Acknowledges(s, 1) && Apply(s, Deliver(1)).editor.value == b;
  }
}
