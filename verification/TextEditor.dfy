/**
 The text editor with its persistence hook: what each user action and each
 answer to a save does to the shown text, the baseline, the undo history, the
 generation counter and the operation id.
 */
module TextEditor {
  import opened Wrappers

  /** Contents are only ever compared; a number stands for each. */
  type Text = nat
  type OperationId = nat

  const UNDO_LIMIT := 100

  datatype Status = Clean | Dirty | Saving | SaveFailed | Conflict

  datatype Editor = Editor(
    value: Text,
    baseline: Text,
    baseRevision: nat,
    undo: seq<Text>,
    redo: seq<Text>,
    canUndo: bool,
    canRedo: bool,
    generation: nat,
    status: Status,
    operation: Option<OperationId>)

  function Opened(content: Text, revision: nat): Editor {
    Editor(content, content, revision, [], [], false, false, 0, Clean, None)
  }

  predicate IsDirty(e: Editor) {
    e.value != e.baseline
  }

  /**
   The effect after rendering: when the draft or its dirtiness has changed and
   the editor is dirty, the draft is a new generation.
   */
  function Rendered(before: Editor, after: Editor): Editor {
    if (after.value != before.value || IsDirty(after) != IsDirty(before)) && IsDirty(after)
    then after.(generation := after.generation + 1)
    else after
  }

  function Pushed(undo: seq<Text>, text: Text): seq<Text> {
    if |undo| + 1 > UNDO_LIMIT then (undo + [text])[1..] else undo + [text]
  }

  function Typed(e: Editor, next: Text): Editor {
    if next == e.value then e
    else Rendered(e, e.(value := next, undo := Pushed(e.undo, e.value), redo := [], canUndo := true, canRedo := false))
  }

  function Undone(e: Editor): Editor {
    if e.undo == [] then e
    else
      var last := |e.undo| - 1;
      Rendered(e, e.(value := e.undo[last], undo := e.undo[..last], redo := e.redo + [e.value],
                     canUndo := last > 0, canRedo := true))
  }

  function Redone(e: Editor): Editor {
    if e.redo == [] then e
    else
      var last := |e.redo| - 1;
      Rendered(e, e.(value := e.redo[last], redo := e.redo[..last], undo := e.undo + [e.value],
                     canUndo := true, canRedo := last > 0))
  }

  /** A recovery draft of this base revision is put into the editor. */
  function Recovered(e: Editor, draft: Text): Editor {
    Typed(e, draft).(status := Dirty)
  }

  function Discarded(e: Editor): Editor {
    e.(value := e.baseline, undo := [], redo := [], canUndo := false, canRedo := false,
       generation := e.generation + 1, status := Clean)
  }

  predicate MaySave(e: Editor) {
    IsDirty(e) && !e.status.Saving? && !e.status.Conflict?
  }

  /** A save is sent under the operation id of the try before it, if that failed. */
  function SaveStarted(e: Editor, unused: OperationId): Editor {
    e.(status := Saving, operation := if e.operation.Some? then e.operation else Some(unused))
  }

  /** The server's answer to the save that captured generation `sent`. */
  function Answered(e: Editor, sent: nat, content: Text, revision: nat): Editor {
    var saved := e.(baseline := content, baseRevision := revision, operation := None);
    if e.generation == sent then
      Rendered(e, saved.(status := Clean, value := content, undo := [], redo := [], canUndo := false, canRedo := false))
    else
      Rendered(e, saved.(status := Dirty))
  }

  function Refused(e: Editor, conflict: bool): Editor {
    e.(status := if conflict then Conflict else SaveFailed)
  }

  // ------------------------------------------------------------ the component

  /** The component's state and refs, changed in place by its callbacks. */
  class TextFileEditor {
    var value: Text
    var baseline: Text
    var baseRevision: nat
    var undoStack: seq<Text>
    var redoStack: seq<Text>
    var canUndo: bool
    var canRedo: bool
    var generation: nat
    var status: Status
    var operation: Option<OperationId>

    function View(): Editor
      reads this
    {
      Editor(value, baseline, baseRevision, undoStack, redoStack, canUndo, canRedo, generation, status, operation)
    }

    constructor (content: Text, revision: nat)
      ensures View() == Opened(content, revision)
    {
      value, baseline, baseRevision := content, content, revision;
      undoStack, redoStack, canUndo, canRedo := [], [], false, false;
      generation, status, operation := 0, Clean, None;
    }

    /** Runs after every render; `shown` and `wasDirty` are what the last render saw. */
    method CountGeneration(shown: Text, wasDirty: bool)
      modifies `generation
      ensures generation == old(generation)
        + (if (value != shown || (value != baseline) != wasDirty) && value != baseline then 1 else 0)
    {
      var isDirty := value != baseline;
      if (value != shown || isDirty != wasDirty) && isDirty {
        generation := generation + 1;
      }
    }

    method ChangeValue(next: Text)
      modifies this
      ensures View() == Typed(old(View()), next)
      ensures value == next && baseline == old(baseline) && baseRevision == old(baseRevision)
      ensures status == old(status) && operation == old(operation)
      ensures next == old(value) ==> View() == old(View())
      ensures next != old(value) ==>
        && canUndo && !canRedo && redoStack == []
        && undoStack == (if |old(undoStack)| < UNDO_LIMIT then old(undoStack) else old(undoStack)[1..]) + [old(value)]
        && generation == old(generation) + (if next != baseline then 1 else 0)
    {
      var shown, wasDirty := value, value != baseline;
      if value == next { return; }
      undoStack := undoStack + [value];
      if |undoStack| > UNDO_LIMIT { undoStack := undoStack[1..]; }
      redoStack := [];
      canUndo, canRedo := true, false;
      value := next;
      CountGeneration(shown, wasDirty);
    }

    method Undo()
      modifies this
      ensures View() == Undone(old(View()))
      ensures baseline == old(baseline) && baseRevision == old(baseRevision)
      ensures status == old(status) && operation == old(operation)
      ensures old(undoStack) == [] ==> View() == old(View())
      ensures old(undoStack) != [] ==>
        && undoStack + [value] == old(undoStack) && redoStack == old(redoStack) + [old(value)]
        && (canUndo <==> undoStack != []) && canRedo
    {
      if undoStack == [] { return; }
      var shown, wasDirty := value, value != baseline;
      var previous := undoStack[|undoStack| - 1];
      undoStack := undoStack[..|undoStack| - 1];
      redoStack := redoStack + [value];
      value := previous;
      canUndo, canRedo := |undoStack| > 0, true;
      CountGeneration(shown, wasDirty);
    }

    method Redo()
      modifies this
      ensures View() == Redone(old(View()))
      ensures baseline == old(baseline) && baseRevision == old(baseRevision)
      ensures status == old(status) && operation == old(operation)
      ensures old(redoStack) == [] ==> View() == old(View())
      ensures old(redoStack) != [] ==>
        && redoStack + [value] == old(redoStack) && undoStack == old(undoStack) + [old(value)]
        && canUndo && (canRedo <==> redoStack != [])
    {
      if redoStack == [] { return; }
      var shown, wasDirty := value, value != baseline;
      var next := redoStack[|redoStack| - 1];
      redoStack := redoStack[..|redoStack| - 1];
      undoStack := undoStack + [value];
      value := next;
      canUndo, canRedo := true, |redoStack| > 0;
      CountGeneration(shown, wasDirty);
    }

    method Restore(draft: Text)
      modifies this
      ensures View() == Recovered(old(View()), draft)
      ensures value == draft && status == Dirty && baseline == old(baseline) && operation == old(operation)
    {
      ChangeValue(draft);
      status := Dirty;
    }

    method DiscardAndView()
      modifies this
      ensures View() == Discarded(old(View()))
      ensures value == baseline == old(baseline) && baseRevision == old(baseRevision) && operation == old(operation)
      ensures undoStack == redoStack == [] && !canUndo && !canRedo
      ensures generation == old(generation) + 1 && status == Clean
    {
      value := baseline;
      generation, status := generation + 1, Clean;
      undoStack, redoStack, canUndo, canRedo := [], [], false, false;
    }

    /** What is sent, if anything: the draft, its generation and the operation id. */
    method RequestSave(unused: OperationId) returns (sent: Option<(Text, nat, OperationId)>)
      modifies this
      ensures sent.Some? <==> old(value) != old(baseline) && old(status) != Saving && old(status) != Conflict
      ensures View() == if sent.Some? then SaveStarted(old(View()), unused) else old(View())
      ensures sent.Some? ==> sent.value.0 == value && sent.value.1 == generation && Some(sent.value.2) == operation
      ensures sent.Some? ==>
        && status == Saving && value == old(value) && baseRevision == old(baseRevision) && generation == old(generation)
        && operation == (if old(operation).Some? then old(operation) else Some(unused))
    {
      var isDirty := value != baseline;
      var visibleStatus := if isDirty && status.Clean? then Dirty else status;
      if !isDirty || visibleStatus.Saving? || visibleStatus.Conflict? { return None; }
      var saveGeneration := generation;
      status := Saving;
      var currentOperation := if operation.Some? then operation.value else unused;
      operation := Some(currentOperation);
      sent := Some((value, saveGeneration, currentOperation));
    }

    method OnSaved(saveGeneration: nat, content: Text, revision: nat)
      modifies this
      ensures View() == Answered(old(View()), saveGeneration, content, revision)
      ensures baseline == content && baseRevision == revision && operation == None
      ensures old(generation) == saveGeneration ==>
        && value == content && status == Clean && generation == old(generation)
        && undoStack == redoStack == [] && !canUndo && !canRedo
      ensures old(generation) != saveGeneration ==>
        && value == old(value) && status == Dirty && undoStack == old(undoStack) && redoStack == old(redoStack)
        && generation == old(generation) + (if value != content && old(value == baseline) then 1 else 0)
    {
      var shown, wasDirty := value, value != baseline;
      var allLocalChangesSaved := generation == saveGeneration;
      status := if allLocalChangesSaved then Clean else Dirty;
      operation := None;
      baseline, baseRevision := content, revision;
      if allLocalChangesSaved {
        value := content;
        undoStack, redoStack, canUndo, canRedo := [], [], false, false;
      }
      CountGeneration(shown, wasDirty);
    }

    method OnRefused(conflict: bool)
      modifies this
      ensures View() == Refused(old(View()), conflict)
      ensures status == (if conflict then Conflict else SaveFailed)
      ensures View() == old(View()).(status := status)
    {
      status := if conflict then Conflict else SaveFailed;
    }
  }

  // ------------------------------------------------------------ generations

  datatype Edit = Change(text: Text) | TakeBack | Repeat

  function EditedOnce(e: Editor, edit: Edit): Editor {
    match edit
    case Change(text) => Typed(e, text)
    case TakeBack => Undone(e)
    case Repeat => Redone(e)
  }

  function Edited(e: Editor, edits: seq<Edit>): Editor
    decreases |edits|
  {
    if edits == [] then e else EditedOnce(Edited(e, edits[..|edits| - 1]), edits[|edits| - 1])
  }

  /** An edit that counts no generation leaves the text or comes back to the baseline. */
  lemma OneEdit(e: Editor, edit: Edit)
    ensures var t := EditedOnce(e, edit); t.baseline == e.baseline && t.generation >= e.generation
    ensures var t := EditedOnce(e, edit); t.generation == e.generation ==> t.value in {e.value, e.baseline}
  {
  }

  /**
   What an unchanged generation tells after any number of edits of a dirty text:
   that text is still shown, or the baseline is, and nothing else ever was.
   */
  lemma {:induction false} GenerationTellsText(e: Editor, edits: seq<Edit>)
    requires IsDirty(e)
    ensures var t := Edited(e, edits); t.baseline == e.baseline && t.generation >= e.generation
    ensures Edited(e, edits).generation == e.generation ==>
      forall i | 0 <= i <= |edits| :: Edited(e, edits[..i]).value in {e.value, e.baseline}
    decreases |edits|
  {
    if edits != [] {
      var init := edits[..|edits| - 1];
      GenerationTellsText(e, init);
      OneEdit(Edited(e, init), edits[|edits| - 1]);
      hide EditedOnce;
      if Edited(e, edits).generation == e.generation {
        forall i | 0 <= i <= |edits| ensures Edited(e, edits[..i]).value in {e.value, e.baseline} {
          if i < |edits| { assert init[..i] == edits[..i]; } else { assert edits[..i] == edits && init[..|init|] == init; }
        }
      }
    }
  }

  // ------------------------------------------------------------ undo history

  /** The text, both stacks and the buttons. */
  predicate SameHistory(a: Editor, b: Editor) {
    a.value == b.value && a.undo == b.undo && a.redo == b.redo && a.canUndo == b.canUndo && a.canRedo == b.canRedo
  }

  predicate ButtonsTell(e: Editor) {
    (e.canUndo <==> e.undo != []) && (e.canRedo <==> e.redo != [])
  }

  lemma PushPop(stack: seq<Text>, text: Text)
    ensures (stack + [text])[..|stack|] == stack && (stack + [text])[|stack|] == text
    ensures stack != [] ==> stack[..|stack| - 1] + [stack[|stack| - 1]] == stack
  {
  }

  lemma RedoTakesBackUndo(e: Editor)
    requires ButtonsTell(e) && e.undo != []
    ensures SameHistory(Redone(Undone(e)), e)
  {
    PushPop(e.undo, e.value);
    PushPop(e.redo, e.value);
    var u := Undone(e);
    assert u.redo == e.redo + [e.value] && u.undo == e.undo[..|e.undo| - 1] && u.value == e.undo[|e.undo| - 1];
    hide Undone;
    assert u.redo != [];
  }

  lemma UndoTakesBackRedo(e: Editor)
    requires ButtonsTell(e) && e.redo != []
    ensures SameHistory(Undone(Redone(e)), e)
  {
    PushPop(e.undo, e.value);
    PushPop(e.redo, e.value);
    var u := Redone(e);
    assert u.undo == e.undo + [e.value] && u.redo == e.redo[..|e.redo| - 1] && u.value == e.redo[|e.redo| - 1];
    hide Redone;
    assert u.undo != [];
  }

  function TypedAll(e: Editor, texts: seq<Text>): Editor {
    if texts == [] then e else Typed(TypedAll(e, texts[..|texts| - 1]), texts[|texts| - 1])
  }

  function UndoneTimes(e: Editor, n: nat): Editor
    decreases n
  {
    if n == 0 then e else UndoneTimes(Undone(e), n - 1)
  }

  /** Every entry changes the text. */
  predicate AllChange(value: Text, texts: seq<Text>) {
    var shown := [value] + texts;
    forall i, j | 0 <= i < |texts| && j == i + 1 :: shown[i] != shown[j]
  }

  lemma {:induction false} UndoGoesBack(e: Editor, n: nat)
    requires n <= |e.undo|
    ensures UndoneTimes(e, n).value == if n == 0 then e.value else e.undo[|e.undo| - n]
    decreases n
  {
    if n > 0 { UndoGoesBack(Undone(e), n - 1); }
  }

  lemma PushedEnds(undo: seq<Text>, text: Text, k: nat)
    requires k < UNDO_LIMIT && k <= |undo|
    ensures var p := Pushed(undo, text); |p| > k && p[|p| - k - 1..] == undo[|undo| - k..] + [text]
  {
  }

  /** The text shown last, and the end of the undo stack, are the texts passed through. */
  ghost predicate Remembers(f: Editor, shown: seq<Text>, n: nat)
    requires n < |shown|
  {
    f.value == shown[n] && |f.undo| >= n && f.undo[|f.undo| - n..] == shown[..n]
  }

  lemma TypedIsRemembered(g: Editor, shown: seq<Text>, m: nat)
    requires m < UNDO_LIMIT && m + 1 < |shown| && Remembers(g, shown, m) && shown[m] != shown[m + 1]
    ensures Remembers(Typed(g, shown[m + 1]), shown, m + 1)
  {
    PushedEnds(g.undo, g.value, m);
    assert shown[..m + 1] == shown[..m] + [shown[m]];
    hide Pushed;
  }

  lemma {:induction false} TypingIsRemembered(e: Editor, shown: seq<Text>, n: nat)
    requires n < |shown| && n <= UNDO_LIMIT && shown[0] == e.value
    requires forall i, j | 0 <= i < n && j == i + 1 :: shown[i] != shown[j]
    ensures Remembers(TypedAll(e, shown[1..n + 1]), shown, n)
    decreases n
  {
    if n > 0 {
      TypingIsRemembered(e, shown, n - 1);
      var texts := shown[1..n + 1];
      assert texts[..|texts| - 1] == shown[1..n] && texts[|texts| - 1] == shown[n];
      assert TypedAll(e, texts) == Typed(TypedAll(e, shown[1..n]), shown[n]);
      hide TypedAll, Typed, Remembers;
      TypedIsRemembered(TypedAll(e, shown[1..n]), shown, n - 1);
    }
  }

  /** Up to a hundred changes are taken back, one by one, to the text before them. */
  lemma UndoRestoresText(e: Editor, texts: seq<Text>)
    requires |texts| <= UNDO_LIMIT && AllChange(e.value, texts)
    ensures UndoneTimes(TypedAll(e, texts), |texts|).value == e.value
  {
    var shown := [e.value] + texts;
    TypingIsRemembered(e, shown, |texts|);
    assert shown[1..|texts| + 1] == texts;
    var f := TypedAll(e, texts);
    UndoGoesBack(f, |texts|);
    if texts != [] { assert f.undo[|f.undo| - |texts|..][0] == shown[0]; }
  }
}
