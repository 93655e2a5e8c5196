/**
 The browser's upload queue: a bounded number of workers share one cursor over
 the queued items and one flag that an authorization failure raises. Which
 worker moves next, and how each upload ends, is left open.
 */
module UploadQueue {
  import opened Collections
  import opened Wrappers

  type ItemId = nat

  datatype Message = Own(text: nat) | Authorization

  datatype Status = Queued | Uploading | Success | Failed(message: Message)

  datatype Item = Item(id: ItemId, status: Status)

  datatype Worker = Ready | Busy(item: ItemId) | Finished

  /** History of the calls to `upload` and how they ended. */
  datatype Event = Started(id: ItemId) | Ended(id: ItemId, status: Status)

  function Pending(items: seq<Item>): seq<ItemId> {
    if items == [] then []
    else
      var last := items[|items| - 1];
      Pending(items[..|items| - 1]) + (if last.status.Queued? then [last.id] else [])
  }

  function StartsOf(events: seq<Event>): seq<ItemId> {
    if events == [] then []
    else
      var last := events[|events| - 1];
      StartsOf(events[..|events| - 1]) + (if last.Started? then [last.id] else [])
  }

  predicate IsAuthorizationFailure(e: Event) {
    e.Ended? && e.status == Failed(Authorization)
  }

  /** Uploads begun and not ended. */
  function InFlight(events: seq<Event>): int {
    if events == [] then 0
    else InFlight(events[..|events| - 1]) + (if events[|events| - 1].Started? then 1 else -1)
  }

  ghost predicate NeverMoreThan(events: seq<Event>, limit: nat) {
    forall k | 0 <= k <= |events| :: InFlight(events[..k]) <= limit
  }

  /** No upload begins once one has ended with an authorization failure. */
  predicate NoneAfterAuthorizationFailure(events: seq<Event>) {
    forall i, j | 0 <= i < j < |events| && IsAuthorizationFailure(events[i]) :: !events[j].Started?
  }

  function BusyCount(workers: seq<Worker>): nat {
    if workers == [] then 0
    else BusyCount(workers[..|workers| - 1]) + (if workers[|workers| - 1].Busy? then 1 else 0)
  }

  function Weight(w: Worker): nat {
    match w
    case Ready => 1
    case Busy(_) => 2
    case Finished => 0
  }

  function Work(workers: seq<Worker>): nat {
    if workers == [] then 0 else Work(workers[..|workers| - 1]) + Weight(workers[|workers| - 1])
  }

  lemma {:induction false} WorkerMoves(workers: seq<Worker>, i: nat, w: Worker)
    requires i < |workers|
    ensures Work(workers[i := w]) == Work(workers) - Weight(workers[i]) + Weight(w)
    ensures BusyCount(workers[i := w]) ==
      BusyCount(workers) - (if workers[i].Busy? then 1 else 0) + (if w.Busy? then 1 else 0)
    decreases |workers|
  {
    var last := |workers| - 1;
    if i == last {
      assert workers[i := w][..last] == workers[..last];
    } else {
      assert workers[i := w][..last] == workers[..last][i := w];
      WorkerMoves(workers[..last], i, w);
    }
  }

  lemma {:induction false} BusyIsBounded(workers: seq<Worker>)
    ensures BusyCount(workers) <= |workers|
    decreases |workers|
  {
    if workers != [] { BusyIsBounded(workers[..|workers| - 1]); }
  }

  lemma AppendEvent(events: seq<Event>, e: Event, limit: nat)
    requires NeverMoreThan(events, limit)
    requires InFlight(events) + (if e.Started? then 1 else -1) <= limit
    ensures NeverMoreThan(events + [e], limit)
    ensures InFlight(events + [e]) == InFlight(events) + (if e.Started? then 1 else -1)
    ensures StartsOf(events + [e]) == StartsOf(events) + (if e.Started? then [e.id] else [])
  {
    var more := events + [e];
    assert more[..|events|] == events;
    forall k | 0 <= k <= |more| ensures InFlight(more[..k]) <= limit {
      if k <= |events| { assert more[..k] == events[..k]; } else { assert more[..k] == more; }
    }
  }

  predicate InHands(workers: seq<Worker>, id: ItemId) {
    exists w | 0 <= w < |workers| :: workers[w] == Busy(id)
  }

  /** The item's upload has ended, and this is what the user was told. */
  predicate Settled(statuses: map<ItemId, Status>, events: seq<Event>, upload: ItemId -> Option<Message>, id: ItemId) {
    id in statuses && statuses[id] == StatusOf(upload(id)) && Ended(id, statuses[id]) in events
  }

  ghost predicate HasAuthorizationFailure(events: seq<Event>) {
    exists i | 0 <= i < |events| :: IsAuthorizationFailure(events[i])
  }

  /** What holds of the items between any two moves of the workers. */
  ghost predicate ItemsFit(pending: seq<ItemId>, workers: seq<Worker>, next: nat, statuses: map<ItemId, Status>,
                           events: seq<Event>, before: map<ItemId, Status>, upload: ItemId -> Option<Message>) {
    && next <= |pending| && statuses.Keys == before.Keys
    && (forall id | id in before && id !in pending[..next] :: statuses[id] == before[id])
    && (forall w | 0 <= w < |workers| && workers[w].Busy? :: workers[w].item in pending[..next])
    && (forall v, w | 0 <= v < w < |workers| && workers[v].Busy? && workers[w].Busy? :: workers[v].item != workers[w].item)
    && (forall k | 0 <= k < next :: InHands(workers, pending[k]) || Settled(statuses, events, upload, pending[k]))
  }

  /** And of the history. */
  ghost predicate HistoryFits(pending: seq<ItemId>, workers: seq<Worker>, next: nat, failed: bool, events: seq<Event>) {
    && next <= |pending| && StartsOf(events) == pending[..next]
    && NeverMoreThan(events, |workers|) && InFlight(events) == BusyCount(workers)
    && NoneAfterAuthorizationFailure(events) && (failed <==> HasAuthorizationFailure(events))
    && (forall w | 0 <= w < |workers| && workers[w].Finished? :: failed || next == |pending|)
  }

  lemma StartFits(pending: seq<ItemId>, workers: seq<Worker>, next: nat, statuses: map<ItemId, Status>,
                  events: seq<Event>, before: map<ItemId, Status>, upload: ItemId -> Option<Message>, w: nat)
    requires ItemsFit(pending, workers, next, statuses, events, before, upload) && NoRepeats(pending)
    requires next < |pending| && pending[next] in before && w < |workers| && workers[w].Ready?
    ensures ItemsFit(pending, workers[w := Busy(pending[next])], next + 1, statuses[pending[next] := Uploading],
                     events + [Started(pending[next])], before, upload)
  {
    var id := pending[next];
    var ws, st, ev := workers[w := Busy(id)], statuses[id := Uploading], events + [Started(id)];
    assert pending[..next + 1] == pending[..next] + [id];
    forall k | 0 <= k < next + 1 ensures InHands(ws, pending[k]) || Settled(st, ev, upload, pending[k]) {
      if k == next {
        assert ws[w] == Busy(id);
      } else if InHands(workers, pending[k]) {
        var v :| 0 <= v < |workers| && workers[v] == Busy(pending[k]);
        assert ws[v] == Busy(pending[k]);
      } else {
        assert Settled(statuses, events, upload, pending[k]);
      }
    }
  }

  lemma EndFits(pending: seq<ItemId>, workers: seq<Worker>, next: nat, statuses: map<ItemId, Status>,
                events: seq<Event>, before: map<ItemId, Status>, upload: ItemId -> Option<Message>, w: nat, status: Status)
    requires ItemsFit(pending, workers, next, statuses, events, before, upload)
    requires w < |workers| && workers[w].Busy? && status == StatusOf(upload(workers[w].item))
    requires forall id | id in pending :: id in before
    ensures ItemsFit(pending, workers[w := Ready], next, statuses[workers[w].item := status],
                     events + [Ended(workers[w].item, status)], before, upload)
  {
    var id := workers[w].item;
    var ws, st, ev := workers[w := Ready], statuses[id := status], events + [Ended(id, status)];
    forall k | 0 <= k < next ensures InHands(ws, pending[k]) || Settled(st, ev, upload, pending[k]) {
      if pending[k] == id {
        assert ev[|events|] == Ended(id, status);
      } else if InHands(workers, pending[k]) {
        var v :| 0 <= v < |workers| && workers[v] == Busy(pending[k]);
        assert ws[v] == Busy(pending[k]);
      } else {
        assert Settled(statuses, events, upload, pending[k]);
      }
    }
  }

  lemma StopFits(pending: seq<ItemId>, workers: seq<Worker>, next: nat, statuses: map<ItemId, Status>,
                 events: seq<Event>, before: map<ItemId, Status>, upload: ItemId -> Option<Message>, w: nat)
    requires ItemsFit(pending, workers, next, statuses, events, before, upload) && w < |workers| && workers[w].Ready?
    ensures ItemsFit(pending, workers[w := Finished], next, statuses, events, before, upload)
  {
    forall k | 0 <= k < next ensures InHands(workers[w := Finished], pending[k]) || Settled(statuses, events, upload, pending[k]) {
      if InHands(workers, pending[k]) {
        var v :| 0 <= v < |workers| && workers[v] == Busy(pending[k]);
        assert workers[w := Finished][v] == Busy(pending[k]);
      }
    }
  }

  lemma HistoryGrows(pending: seq<ItemId>, workers: seq<Worker>, next: nat, failed: bool, events: seq<Event>,
                     w: nat, worker: Worker, e: Event)
    requires HistoryFits(pending, workers, next, failed, events) && w < |workers|
    requires if e.Started? then !failed && next < |pending| && e.id == pending[next] && workers[w].Ready? && worker.Busy?
             else workers[w].Busy? && worker.Ready?
    ensures HistoryFits(pending, workers[w := worker], if e.Started? then next + 1 else next,
                        failed || IsAuthorizationFailure(e), events + [e])
  {
    var ws, ev := workers[w := worker], events + [e];
    WorkerMoves(workers, w, worker);
    BusyIsBounded(ws);
    AppendEvent(events, e, |workers|);
    if e.Started? { assert pending[..next + 1] == pending[..next] + [pending[next]]; }
    assert HasAuthorizationFailure(ev) <==> failed || IsAuthorizationFailure(e) by {
      assert ev[|events|] == e;
      if HasAuthorizationFailure(events) {
        var i :| 0 <= i < |events| && IsAuthorizationFailure(events[i]);
        assert IsAuthorizationFailure(ev[i]);
      }
    }
  }

  lemma HistoryStops(pending: seq<ItemId>, workers: seq<Worker>, next: nat, failed: bool, events: seq<Event>, w: nat)
    requires HistoryFits(pending, workers, next, failed, events) && w < |workers| && workers[w].Ready?
    requires failed || next == |pending|
    ensures HistoryFits(pending, workers[w := Finished], next, failed, events)
  {
    WorkerMoves(workers, w, Finished);
  }

  lemma {:induction false} PendingIsQueued(items: seq<Item>, id: ItemId)
    ensures id in Pending(items) <==> exists i | 0 <= i < |items| :: items[i] == Item(id, Queued)
    decreases |items|
  {
    if items != [] {
      var init, last := items[..|items| - 1], items[|items| - 1];
      PendingIsQueued(init, id);
      assert items == init + [last];
      if i :| 0 <= i < |init| && init[i] == Item(id, Queued) { assert items[i] == Item(id, Queued); }
      if last == Item(id, Queued) { assert items[|items| - 1] == Item(id, Queued); }
    }
  }

  lemma {:induction false} NoneBusy(workers: seq<Worker>)
    requires forall w | 0 <= w < |workers| :: workers[w].Ready?
    ensures BusyCount(workers) == 0
    decreases |workers|
  {
    if workers != [] { NoneBusy(workers[..|workers| - 1]); }
  }

  lemma Tighten(events: seq<Event>, count: nat, limit: nat)
    requires NeverMoreThan(events, count) && count <= limit
    ensures NeverMoreThan(events, limit)
  {
  }

  lemma NothingBegun(pending: seq<ItemId>, workers: seq<Worker>, statuses: map<ItemId, Status>, upload: ItemId -> Option<Message>)
    requires forall w | 0 <= w < |workers| :: workers[w].Ready?
    ensures ItemsFit(pending, workers, 0, statuses, [], statuses, upload) && HistoryFits(pending, workers, 0, false, [])
  {
    NoneBusy(workers);
  }

  /** What is left when every worker has finished. */
  lemma AllEnded(pending: seq<ItemId>, workers: seq<Worker>, next: nat, failed: bool, statuses: map<ItemId, Status>,
                 events: seq<Event>, before: map<ItemId, Status>, upload: ItemId -> Option<Message>, limit: nat)
    requires ItemsFit(pending, workers, next, statuses, events, before, upload)
    requires HistoryFits(pending, workers, next, failed, events)
    requires forall w | 0 <= w < |workers| :: workers[w].Finished?
    requires limit > 0 && |workers| == if limit < |pending| then limit else |pending|
    ensures next <= |pending| && StartsOf(events) == pending[..next] && NeverMoreThan(events, limit)
    ensures NoneAfterAuthorizationFailure(events) && (failed <==> HasAuthorizationFailure(events))
    ensures failed || next == |pending|
    ensures forall k | 0 <= k < next :: Settled(statuses, events, upload, pending[k])
    ensures statuses.Keys == before.Keys && forall id | id in before && id !in pending[..next] :: statuses[id] == before[id]
  {
    forall k | 0 <= k < next ensures Settled(statuses, events, upload, pending[k]) {
      assert !InHands(workers, pending[k]);
    }
    if workers != [] { assert workers[0].Finished?; }
    Tighten(events, |workers|, limit);
  }

  /** What the user is told of an upload, by how its call ends. */
  function StatusOf(failure: Option<Message>): Status {
    if failure.Some? then Failed(failure.value) else Success
  }

  class Queue {
    const upload: ItemId -> Option<Message>      // how the call for an item ends, if it is made
    var statuses: map<ItemId, Status>
    ghost var events: seq<Event>

    /** One move of a worker that has not finished. */
    method Move(pending: seq<ItemId>, workers: seq<Worker>, w: nat, next: nat, failed: bool, ghost before: map<ItemId, Status>)
      returns (workers': seq<Worker>, next': nat, failed': bool)
      requires NoRepeats(pending) && forall id | id in pending :: id in before
      requires ItemsFit(pending, workers, next, statuses, events, before, upload)
      requires HistoryFits(pending, workers, next, failed, events)
      requires w < |workers| && !workers[w].Finished?
      modifies this
      ensures ItemsFit(pending, workers', next', statuses, events, before, upload)
      ensures HistoryFits(pending, workers', next', failed', events)
      ensures |workers'| == |workers| && next <= next'
      ensures 3 * (|pending| - next') + Work(workers') < 3 * (|pending| - next) + Work(workers)
    {
      next', failed' := next, failed;
      if workers[w].Busy? {
        var id := workers[w].item;
        var failure := upload(id);
        var status := if failure.Some? then Failed(failure.value) else Success;
        EndFits(pending, workers, next, statuses, events, before, upload, w, status);
        HistoryGrows(pending, workers, next, failed, events, w, Ready, Ended(id, status));
        WorkerMoves(workers, w, Ready);
        statuses := statuses[id := status];
        events := events + [Ended(id, status)];
        if status == Failed(Authorization) { failed' := true; }
        workers' := workers[w := Ready];
      } else if !failed && next < |pending| {
        var id := pending[next];
        StartFits(pending, workers, next, statuses, events, before, upload, w);
        HistoryGrows(pending, workers, next, failed, events, w, Busy(id), Started(id));
        WorkerMoves(workers, w, Busy(id));
        next' := next + 1;
        statuses := statuses[id := Uploading];
        events := events + [Started(id)];
        workers' := workers[w := Busy(id)];
      } else {
        StopFits(pending, workers, next, statuses, events, before, upload, w);
        HistoryStops(pending, workers, next, failed, events, w);
        WorkerMoves(workers, w, Finished);
        workers' := workers[w := Finished];
      }
    }

    /**
     Whatever the schedule: uploads begin once each, in order, never more than
     the limit at a time, none after an authorization failure. In the end every
     queued item has the status its own upload ended with, or, if it never began,
     the authorization message; it can only be so after an authorization failure.
     */
    method Run(items: seq<Item>, concurrency: int)
      returns (authorizationFailed: bool, ghost begun: nat, ghost width: nat)
      requires NoRepeats(Pending(items)) && events == []
      requires forall i | 0 <= i < |items| :: items[i].id in statuses
      modifies this
      ensures begun <= |Pending(items)| && StartsOf(events) == Pending(items)[..begun]
      ensures NeverMoreThan(events, if concurrency < 1 then 1 else concurrency)
      ensures NoneAfterAuthorizationFailure(events) && (authorizationFailed <==> HasAuthorizationFailure(events))
      ensures width == var limit := if concurrency < 1 then 1 else concurrency;
        if limit < |Pending(items)| then limit else |Pending(items)|
      ensures statuses.Keys == old(statuses).Keys
      ensures forall k | 0 <= k < begun ::
        Pending(items)[k] in statuses
        && statuses[Pending(items)[k]] ==
           (match upload(Pending(items)[k]) case None => Success case Some(message) => Failed(message))
        && Ended(Pending(items)[k], statuses[Pending(items)[k]]) in events
      ensures forall k | begun <= k < |Pending(items)| ::
        authorizationFailed && Pending(items)[k] in statuses && statuses[Pending(items)[k]] == Failed(Authorization)
      ensures forall id | id in old(statuses) && id !in Pending(items) :: id in statuses && statuses[id] == old(statuses)[id]
    {
      hide ItemsFit, HistoryFits, Pending, StartsOf, Work;
      var pending := Pending(items);
      forall id | id in pending ensures id in statuses { PendingIsQueued(items, id); }
      var limit: nat := if concurrency < 1 then 1 else concurrency;
      var count := if limit < |pending| then limit else |pending|;
      var workers := seq(count, i => Ready);
      var next := 0;
      authorizationFailed := false;
      NothingBegun(pending, workers, statuses, upload);
      while exists w | 0 <= w < |workers| :: !workers[w].Finished?
        invariant ItemsFit(pending, workers, next, statuses, events, old(statuses), upload)
        invariant HistoryFits(pending, workers, next, authorizationFailed, events) && |workers| == count
        decreases 3 * (|pending| - next) + Work(workers)
      {
        var w :| 0 <= w < |workers| && !workers[w].Finished?;
        workers, next, authorizationFailed := Move(pending, workers, w, next, authorizationFailed, old(statuses));
      }
      begun, width := next, |workers|;
      AllEnded(pending, workers, next, authorizationFailed, statuses, events, old(statuses), upload, limit);
      if authorizationFailed {
        FailRest(pending, next);
      }
    }

    method FailRest(pending: seq<ItemId>, begun: nat)
      requires begun <= |pending| && NoRepeats(pending) && forall id | id in pending :: id in statuses
      modifies `statuses
      ensures statuses.Keys == old(statuses).Keys
      ensures forall k | begun <= k < |pending| :: statuses[pending[k]] == Failed(Authorization)
      ensures forall id | id in statuses && id !in pending[begun..] :: statuses[id] == old(statuses)[id]
    {
      for k := begun to |pending|
        invariant statuses.Keys == old(statuses).Keys
        invariant forall j | begun <= j < k :: statuses[pending[j]] == Failed(Authorization)
        invariant forall id | id in statuses && id !in pending[begun..] :: statuses[id] == old(statuses)[id]
      {
        assert pending[k] == pending[begun..][k - begun];
        statuses := statuses[pending[k] := Failed(Authorization)];
      }
    }
  }
}
