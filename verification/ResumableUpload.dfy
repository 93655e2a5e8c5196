/**
 The resumable chunk uploader against a Drive upload session that may do
 anything except lie: it stores any sent byte at the position it was sent for,
 now or later, from whichever request; it may lose answers, fail, accept part
 of a chunk or claim to hold less than it does. It reports a byte as held only
 if it is, and it creates the file only once it holds as many bytes as some
 request declared in total.
 */
module ResumableUpload {
  import opened ByteStrings
  import opened Wrappers

  const CHUNK := 8 * 1024 * 1024

  /** A request that carries bytes for the positions from `start` on. */
  datatype Put = Put(start: nat, bytes: Bytes)

  /** An answer to a request, or the lack of one. */
  datatype Answer =
    | Lost
    | Incomplete(last: Option<nat>)     // 308; `last` is the end of the reported range
    | BadRange                          // 308 with an unreadable range
    | ServerError                       // 5xx
    | Created(id: Option<nat>)          // 2xx with a file
    | BadBody
    | Refused                           // anything else

  /** What one chunk ended in: a file, all bytes accepted, or an exception. */
  datatype Outcome = File(id: Option<nat>) | Sent | Failed

  datatype Status = Offset(at: nat) | Finished(id: Option<nat>) | Unknown

  datatype Reply = Accepted(at: nat) | Complete(id: Option<nat>) | Rejected

  datatype Chunk = Chunk(start: nat, length: nat, last: bool)

  lemma {:induction false} ConcatPrefix(parts: seq<Bytes>, n: nat)
    requires n <= |parts|
    ensures Concat(parts[..n]) <= Concat(parts)
    decreases |parts| - n
  {
    if n < |parts| {
      ConcatPrefix(parts, n + 1);
      assert parts[..n + 1] == parts[..n] + [parts[n]];
      ConcatPush(parts[..n], parts[n]);
    } else {
      assert parts[..n] == parts;
    }
  }

  predicate Carries(put: Put, k: nat, b: Byte) {
    put.start <= k < put.start + |put.bytes| && put.bytes[k - put.start] == b
  }

  predicate SomeCarries(puts: seq<Put>, k: nat, b: Byte) {
    exists i | 0 <= i < |puts| :: Carries(puts[i], k, b)
  }

  predicate MayHold(held: Bytes, puts: seq<Put>, next: Bytes) {
    held <= next && forall k | |held| <= k < |next| :: SomeCarries(puts, k, next[k])
  }

  /** Every request so far carried the source's bytes for its positions. */
  predicate CarriesOnly(puts: seq<Put>, data: Bytes) {
    forall i | 0 <= i < |puts| ::
      puts[i].start + |puts[i].bytes| <= |data|
      && puts[i].bytes == data[puts[i].start..puts[i].start + |puts[i].bytes|]
  }

  lemma HeldIsSource(held: Bytes, puts: seq<Put>, next: Bytes, data: Bytes)
    requires held <= data && CarriesOnly(puts, data) && MayHold(held, puts, next)
    ensures next <= data
  {
    assert |next| > |data| ==> SomeCarries(puts, |data|, next[|data|]);
    forall k | 0 <= k < |next| ensures next[k] == data[k] {
      if k >= |held| {
        assert SomeCarries(puts, k, next[k]);
        var i :| 0 <= i < |puts| && Carries(puts[i], k, next[k]);
        assert puts[i].bytes[k - puts[i].start] == data[puts[i].start..puts[i].start + |puts[i].bytes|][k - puts[i].start];
      }
    }
  }

  lemma CarriesMore(puts: seq<Put>, put: Put, data: Bytes)
    requires CarriesOnly(puts, data)
    requires put.start + |put.bytes| <= |data| && put.bytes == data[put.start..put.start + |put.bytes|]
    ensures CarriesOnly(puts + [put], data)
  {
  }

  lemma ExtendsSource(held: Bytes, bytes: Bytes, n: nat, data: Bytes)
    requires held <= data && n <= |bytes| && |held| + |bytes| <= |data|
    requires bytes == data[|held|..|held| + |bytes|]
    ensures held + bytes[..n] <= data
  {
    assert held + bytes[..n] == data[..|held| + n];
  }

  class Server {
    /**
     A steady server takes every request that continues what it holds, but may
     store any part of it, and nothing at all of up to three requests for
     positions in the same 8 MiB. It may lose any answer, and may be late to
     create the file; its status answers always arrive and are exact, and by
     then a file whose bytes it all holds has been created.
     */
    const steady: bool
    var held: Bytes
    var completed: bool
    var puts: seq<Put>
    var declared: set<nat>
    var stalls: nat                     // requests it stored nothing of, in the 8 MiB it is in
    var answers: seq<Answer>            // history: the answers to requests and to status queries
    var seenAborted: bool               // history: the caller's abort signal has been found set

    constructor (steady: bool)
      ensures this.steady == steady && held == [] && !completed && puts == [] && declared == {}
      ensures stalls == 0 && answers == [] && !seenAborted
    {
      this.steady := steady;
      held, completed, puts, declared, stalls, answers, seenAborted := [], false, [], {}, 0, [], false;
    }

    ghost predicate Valid(data: Bytes)
      reads this
    {
      && held <= data && CarriesOnly(puts, data) && declared <= {|data|}
      && (completed ==> held == data && declared != {})
    }

    predicate Honest(answer: Answer)
      reads this
    {
      match answer
      case Incomplete(last) => last.Some? ==> last.value < |held|
      case Created(_) => completed
      case _ => true
    }

    /** What a steady server answers if its answer arrives. */
    function Position(): Answer
      reads this
    {
      if completed then Created(Some(0)) else Incomplete(if held == [] then None else Some(|held| - 1))
    }

    method React(ghost data: Bytes) returns (answer: Answer)
      requires Valid(data)
      modifies `held, `completed
      ensures Valid(data) && old(held) <= held && (old(completed) ==> completed) && Honest(answer)
    {
      var next: Bytes, done: bool := *, *;
      if !completed && MayHold(held, puts, next) && (done ==> |next| in declared) {
        HeldIsSource(held, puts, next, data);
        held, completed := next, done;
      }
      answer := *;
      if !Honest(answer) { answer := Lost; }
    }

    method Receive(start: nat, bytes: Bytes, total: Option<nat>, ghost data: Bytes) returns (answer: Answer)
      requires Valid(data) && bytes != []
      requires start + |bytes| <= |data| && bytes == data[start..start + |bytes|]
      requires total.Some? ==> total.value == |data|
      modifies this
      ensures Valid(data) && old(held) <= held && (old(completed) ==> completed) && Honest(answer)
      ensures puts == old(puts) + [Put(start, bytes)]
      ensures declared == old(declared) + (if total.Some? then {total.value} else {})
      ensures answers == old(answers) + [answer] && seenAborted == old(seenAborted)
      ensures steady && old(!completed) && start == old(|held|) ==>
        && start <= |held| <= start + |bytes| && (completed ==> |held| in declared)
        && Counts(old(stalls), start)
        && (answer.Lost? || answer.ServerError? || answer == Position())
    {
      CarriesMore(puts, Put(start, bytes), data);
      hide CarriesOnly;
      puts := puts + [Put(start, bytes)];
      if total.Some? { declared := declared + {total.value}; }
      if steady && !completed && start == |held| {
        answer := Store(bytes, data);
      } else {
        answer := React(data);
      }
      answers := answers + [answer];
    }

    /** Stalls are counted per 8 MiB, and there are never more than three. */
    predicate Counts(before: nat, start: nat)
      reads this
    {
      && stalls == (if |held| == start then before + 1 else if |held| / CHUNK == start / CHUNK then before else 0)
      && (|held| == start ==> before < 3)
    }

    method Store(bytes: Bytes, ghost data: Bytes) returns (answer: Answer)
      requires Valid(data) && !completed && bytes != []
      requires |held| + |bytes| <= |data| && bytes == data[|held|..|held| + |bytes|]
      modifies `held, `completed, `stalls
      ensures Valid(data) && old(held) <= held && Honest(answer)
      ensures |held| <= old(|held|) + |bytes| && (completed ==> |held| in declared)
      ensures Counts(old(stalls), old(|held|))
      ensures answer.Lost? || answer.ServerError? || answer == Position()
    {
      hide CarriesOnly;
      var n: int := *;
      if !(0 <= n <= |bytes|) || (n == 0 && stalls >= 3) { n := |bytes|; }
      ExtendsSource(held, bytes, n, data);
      ghost var start := |held|;
      stalls := if n == 0 then stalls + 1 else if (|held| + n) / CHUNK == |held| / CHUNK then stalls else 0;
      held := held + bytes[..n];
      var late: bool := *;
      completed := |held| in declared && !late;
      answer := *;
      if !answer.Lost? && !answer.ServerError? { answer := Position(); }
    }

    method ReceiveQuery(total: Option<nat>, ghost data: Bytes) returns (answer: Answer)
      requires Valid(data) && (total.Some? ==> total.value == |data|)
      modifies this
      ensures Valid(data) && old(held) <= held && (old(completed) ==> completed) && Honest(answer)
      ensures puts == old(puts) && answers == old(answers) + [answer] && seenAborted == old(seenAborted)
      ensures declared == old(declared) + (if total.Some? then {total.value} else {})
      ensures steady ==>
        && held == old(held) && stalls == old(stalls)
        && completed == (old(completed) || |held| in declared) && answer == Position()
    {
      if total.Some? { declared := declared + {total.value}; }
      if steady {
        completed := completed || |held| in declared;
        answer := Position();
      } else {
        answer := React(data);
      }
      answers := answers + [answer];
    }

    /** The caller's abort signal; a steady run is not aborted. */
    method Aborted() returns (aborted: bool)
      modifies `seenAborted
      ensures (steady ==> !aborted) && seenAborted == (old(seenAborted) || aborted)
    {
      aborted := *;
      if steady { aborted := false; }
      seenAborted := seenAborted || aborted;
    }
  }

  function Min(a: nat, b: nat): nat {
    if a < b then a else b
  }

  function PendingSize(pending: Option<Bytes>): nat {
    if pending.Some? then |pending.value| else 0
  }

  function ReceivedOffset(last: Option<nat>): nat {
    if last.Some? then last.value + 1 else 0
  }

  /** A position inside what is being sent, a finished file, or nothing usable. */
  predicate FromStatus(answer: Answer, cursor: nat, end: nat, reply: Reply) {
    match answer
    case Created(id) => reply == Complete(id)
    case Incomplete(last) =>
      var at := if last.Some? then last.value + 1 else 0;
      reply == if cursor <= at <= end then Accepted(at) else Rejected
    case _ => reply == Rejected
  }

  /**
   What the answers to one request come to: a lost one and a server error lead to
   one status query, unless the upload was aborted meanwhile; a file is accepted
   only for the chunk that declared the total.
   */
  predicate FromAnswers(answers: seq<Answer>, cursor: nat, end: nat, final: bool, reply: Reply) {
    && 1 <= |answers| <= 2
    && match answers[0]
       case Lost => if |answers| == 1 then reply == Rejected else FromStatus(answers[1], cursor, end, reply)
       case ServerError => |answers| == 2 && FromStatus(answers[1], cursor, end, reply)
       case Created(id) => |answers| == 1 && reply == if final then Complete(id) else Rejected
       case _ => |answers| == 1 && FromStatus(answers[0], cursor, end, reply)
  }

  lemma SameWindow(start: nat, k: nat)
    requires start % CHUNK == 0 && start <= k <= start + CHUNK
    ensures k / CHUNK == start / CHUNK + (if k == start + CHUNK then 1 else 0)
  {
    var c := start / CHUNK;
    assert start == c * CHUNK;
  }

  class Uploader {
    const server: Server
    var offset: nat
    ghost var chunks: seq<Chunk>      // every chunk whose sending was begun
    ghost var peak: nat               // most bytes ever buffered

    constructor (server: Server)
      ensures this.server == server && offset == 0 && chunks == [] && peak == 0
    {
      this.server := server;
      offset, chunks, peak := 0, [], 0;
    }

    method QueryUploadStatus(total: Option<nat>, ghost data: Bytes) returns (status: Status)
      requires server.Valid(data) && (total.Some? ==> total.value == |data|)
      modifies server
      ensures server.Valid(data) && server.puts == old(server.puts)
      ensures server.declared == old(server.declared) + (if total.Some? then {total.value} else {})
      ensures old(server.held) <= server.held && (old(server.completed) ==> server.completed)
      ensures server.seenAborted == old(server.seenAborted)
      ensures status.Offset? ==> status.at <= |server.held|
      ensures status.Finished? ==> server.completed && Created(status.id) in server.answers
      ensures |server.answers| == |old(server.answers)| + 1 && old(server.answers) <= server.answers
      ensures match server.answers[|server.answers| - 1]
              case Created(id) => status == Finished(id)
              case Incomplete(last) => status == Offset(if last.Some? then last.value + 1 else 0)
              case _ => status == Unknown
      ensures server.steady ==>
        && server.held == old(server.held) && server.stalls == old(server.stalls)
        && server.completed == (old(server.completed) || |server.held| in server.declared)
        && status == (if server.completed then Finished(Some(0)) else Offset(|server.held|))
    {
      var answer := server.ReceiveQuery(total, data);
      match answer
      case Incomplete(last) => status := Offset(ReceivedOffset(last));
      case Created(id) => status := Finished(id);
      case _ => status := Unknown;
    }

    method AskOffset(cursor: nat, end: nat, finalTotal: Option<nat>, ghost data: Bytes) returns (reply: Reply)
      requires server.Valid(data) && cursor <= end && (finalTotal.Some? ==> finalTotal.value == |data|)
      modifies server
      ensures server.Valid(data) && server.puts == old(server.puts)
      ensures server.declared == old(server.declared) + (if finalTotal.Some? then {finalTotal.value} else {})
      ensures old(server.held) <= server.held && (old(server.completed) ==> server.completed)
      ensures server.seenAborted == old(server.seenAborted)
      ensures reply.Accepted? ==> cursor <= reply.at <= end && reply.at <= |server.held|
      ensures reply.Complete? ==> server.completed && Created(reply.id) in server.answers
      ensures |server.answers| == |old(server.answers)| + 1 && old(server.answers) <= server.answers
      ensures FromStatus(server.answers[|server.answers| - 1], cursor, end, reply)
      ensures server.steady ==>
        && server.held == old(server.held) && server.stalls == old(server.stalls)
        && server.completed == (old(server.completed) || |server.held| in server.declared)
        && (server.completed ==> reply == Complete(Some(0)))
        && (!server.completed && cursor <= |server.held| <= end ==> reply == Accepted(|server.held|))
    {
      hide CarriesOnly;
      var status := QueryUploadStatus(finalTotal, data);
      reply := match status
        case Finished(id) => Complete(id)
        case Offset(at) => if cursor <= at <= end then Accepted(at) else Rejected
        case Unknown => Rejected;
    }

    /** One request for the rest of a chunk, and what the answer, or a status query, makes of it. */
    method SendRest(cursor: nat, rest: Bytes, finalTotal: Option<nat>, ghost data: Bytes) returns (reply: Reply)
      requires server.Valid(data) && offset <= cursor <= |server.held| && rest != []
      requires cursor + |rest| <= |data| && rest == data[cursor..cursor + |rest|]
      requires finalTotal.Some? ==> finalTotal.value == |data|
      requires finalTotal.None? ==> server.declared == {}
      requires !server.seenAborted
      modifies server
      ensures server.Valid(data) && |server.puts| == old(|server.puts|) + 1
      ensures old(server.held) <= server.held && (old(server.completed) ==> server.completed)
      ensures server.declared == old(server.declared) + (if finalTotal.Some? then {finalTotal.value} else {})
      ensures reply.Accepted? ==> cursor <= reply.at <= cursor + |rest| && reply.at <= |server.held|
      ensures reply.Complete? ==> server.completed && Created(reply.id) in server.answers
      ensures old(server.answers) <= server.answers
      ensures FromAnswers(server.answers[|old(server.answers)|..], cursor, cursor + |rest|, finalTotal.Some?, reply)
      ensures server.seenAborted <==>
        |server.answers| == |old(server.answers)| + 1 && server.answers[|old(server.answers)|].Lost?
      ensures server.steady && !old(server.completed) && cursor == old(|server.held|) ==>
        && cursor <= |server.held| <= cursor + |rest| && (server.completed ==> |server.held| in server.declared)
        && server.Counts(old(server.stalls), cursor)
        && reply == (if server.completed then Complete(Some(0)) else Accepted(|server.held|))
    {
      hide CarriesOnly;
      var end := cursor + |rest|;
      var answer := server.Receive(cursor, rest, finalTotal, data);
      match answer {
        case Lost =>
          var aborted := server.Aborted();
          if aborted { return Rejected; }
          reply := AskOffset(cursor, end, finalTotal, data);
        case Incomplete(last) =>
          reply := if cursor <= ReceivedOffset(last) <= end then Accepted(ReceivedOffset(last)) else Rejected;
        case ServerError =>
          reply := AskOffset(cursor, end, finalTotal, data);
        case Created(id) =>
          reply := if finalTotal.None? then Rejected else Complete(id);
        case _ =>
          reply := Rejected;
      }
    }

    /** A chunk may begin: the server holds what came before it and has not stalled in its 8 MiB. */
    predicate Fresh(size: nat)
      reads this, server
    {
      && !server.completed && offset == |server.held| && offset % CHUNK == 0 && size <= CHUNK && server.stalls == 0
    }

    /**
     Sends one chunk from position `offset`, in as many requests as it takes.
     Every request but those in which the server made no progress shortens what
     is left, so there are at most |bytes| + 3 of them.
     */
    method SendChunk(bytes: Bytes, finalTotal: Option<nat>, ghost data: Bytes) returns (outcome: Outcome)
      requires server.Valid(data) && offset <= |server.held|
      requires offset + |bytes| <= |data| && bytes == data[offset..offset + |bytes|]
      requires finalTotal.Some? ==> finalTotal.value == |data| == offset + |bytes|
      requires finalTotal.None? ==> server.declared == {}
      requires !server.seenAborted
      modifies server, `offset, `chunks
      ensures server.Valid(data) && |server.puts| <= old(|server.puts|) + |bytes| + 3
      ensures chunks == old(chunks) + [Chunk(old(offset), |bytes|, finalTotal.Some?)]
      ensures finalTotal.None? || bytes == [] ==> server.declared == old(server.declared)
      ensures (finalTotal.None? ==> !outcome.File?) && (server.seenAborted ==> outcome.Failed?)
      ensures outcome.Sent? && finalTotal.Some? && bytes != [] ==> finalTotal.value in server.declared
      ensures outcome.Sent? ==> offset == old(offset) + |bytes| && offset <= |server.held|
      ensures outcome.File? ==> server.completed && Created(outcome.id) in server.answers
      ensures server.steady && old(Fresh(|bytes|)) ==>
        if outcome.Sent? then offset == |server.held| && (|bytes| == CHUNK ==> server.stalls == 0)
        else outcome == File(Some(0)) && finalTotal.Some?
    {
      chunks := chunks + [Chunk(offset, |bytes|, finalTotal.Some?)];
      outcome := SendRests(bytes, finalTotal, data);
    }

    lemma RestIsSource(bytes: Bytes, start: nat, cursor: nat, data: Bytes)
      requires start <= cursor <= start + |bytes| <= |data| && bytes == data[start..start + |bytes|]
      ensures bytes[cursor - start..] == data[cursor..start + |bytes|]
    {
    }

    method SendRests(bytes: Bytes, finalTotal: Option<nat>, ghost data: Bytes) returns (outcome: Outcome)
      requires server.Valid(data) && offset <= |server.held|
      requires offset + |bytes| <= |data| && bytes == data[offset..offset + |bytes|]
      requires finalTotal.Some? ==> finalTotal.value == |data| == offset + |bytes|
      requires finalTotal.None? ==> server.declared == {}
      requires !server.seenAborted
      modifies server, `offset
      ensures server.Valid(data) && |server.puts| <= old(|server.puts|) + |bytes| + 3
      ensures finalTotal.None? || bytes == [] ==> server.declared == old(server.declared)
      ensures (finalTotal.None? ==> !outcome.File?) && (server.seenAborted ==> outcome.Failed?)
      ensures outcome.Sent? && finalTotal.Some? && bytes != [] ==> finalTotal.value in server.declared
      ensures outcome.Sent? ==> offset == old(offset) + |bytes| && offset <= |server.held|
      ensures outcome.File? ==> server.completed && Created(outcome.id) in server.answers
      ensures server.steady && old(Fresh(|bytes|)) ==>
        if outcome.Sent? then offset == |server.held| && (|bytes| == CHUNK ==> server.stalls == 0)
        else outcome == File(Some(0)) && finalTotal.Some?
    {
      hide CarriesOnly;
      var start, end := offset, offset + |bytes|;
      var cursor, noProgressAttempts := start, 0;
      ghost var good := server.steady && Fresh(|bytes|);
      while cursor < end
        invariant start <= cursor <= end && cursor <= |server.held| && noProgressAttempts <= 3
        invariant server.Valid(data) && offset == start && !server.seenAborted
        invariant server.declared == old(server.declared) || (finalTotal.Some? && bytes != [])
        invariant |server.puts| + (end - cursor) + (3 - noProgressAttempts) <= old(|server.puts|) + |bytes| + 3
        invariant cursor == end ==> bytes == []
        invariant good ==> !server.completed && cursor == |server.held| && noProgressAttempts == server.stalls
        decreases end - cursor + 3 - noProgressAttempts
      {
        var aborted := server.Aborted();
        if aborted { return Failed; }
        RestIsSource(bytes, start, cursor, data);
        var reply := SendRest(cursor, bytes[cursor - start..], finalTotal, data);
        if good {
          SameWindow(start, cursor);
          SameWindow(start, |server.held|);
        }
        if reply.Rejected? { return Failed; }
        if reply.Complete? {
          offset := end;
          return File(reply.id);
        }
        if reply.at == end {
          offset := end;
          return Sent;
        }
        if reply.at == cursor {
          noProgressAttempts := noProgressAttempts + 1;
          if noProgressAttempts > 3 { return Failed; }
        }
        cursor := reply.at;
      }
      outcome := Sent;
    }

    /** What has been read is what was sent, then the pending chunk, then the parts. */
    ghost predicate Buffers(consumed: Bytes, pending: Option<Bytes>, parts: seq<Bytes>, partBytes: nat, data: Bytes)
      reads this
    {
      && consumed <= data && offset <= |consumed| && partBytes == |Concat(parts)|
      && consumed[offset..] == (if pending.Some? then pending.value else []) + Concat(parts)
      && offset % CHUNK == 0
      && (pending.Some? ==> |pending.value| == CHUNK)
      && (pending.None? ==> offset == 0)
    }

    /** Nothing but full chunks has been sent, one after the other, none of them as the last. */
    ghost predicate FullSoFar()
      reads this
    {
      && |chunks| * CHUNK == offset
      && (forall i | 0 <= i < |chunks| :: chunks[i] == Chunk(i * CHUNK, CHUNK, false))
    }

    ghost predicate Streaming(data: Bytes)
      reads this, server
    {
      && server.Valid(data) && server.declared == {} && offset <= |server.held|
      && (server.steady ==> offset == |server.held| && server.stalls == 0) && peak <= 2 * CHUNK && !server.seenAborted
    }

    method SendFull(pending: Option<Bytes>, ghost data: Bytes) returns (ok: bool)
      requires Streaming(data) && FullSoFar()
      requires pending.Some? ==> offset + CHUNK <= |data| && pending.value == data[offset..offset + CHUNK]
      modifies server, this
      ensures server.Valid(data) && server.declared == {} && peak == old(peak)
      ensures ok ==> Streaming(data) && FullSoFar() && offset == old(offset) + (if pending.Some? then CHUNK else 0)
      ensures !ok ==> ChunksFit(|data|)
      ensures server.steady ==> ok
    {
      ok := true;
      if pending.Some? {
        var outcome := SendChunk(pending.value, None, data);
        ok := !outcome.Failed?;
      }
    }

    /**
     Every chunk but the last is exactly 8 MiB and starts at its multiple of
     8 MiB; the one sent as last ends where the source does.
     */
    ghost predicate ChunksFit(size: nat)
      reads this
    {
      forall i | 0 <= i < |chunks| ::
        && chunks[i].start == i * CHUNK && chunks[i].start + chunks[i].length <= size
        && (!chunks[i].last ==> chunks[i].length == CHUNK)
        && (chunks[i].last ==>
              && i == |chunks| - 1 && chunks[i].start + chunks[i].length == size
              && chunks[i].length <= CHUNK && (size > 0 ==> chunks[i].length > 0))
    }

    lemma FullChunksFit(size: nat)
      requires FullSoFar() && offset <= size
      ensures ChunksFit(size)
    {
    }

    ghost method Buffered(n: nat)
      modifies `peak
      ensures peak == if old(peak) < n then n else old(peak)
    {
      peak := if peak < n then n else peak;
    }

    lemma Takes(consumed: Bytes, remaining: Bytes, take: nat, pending: Option<Bytes>, parts: seq<Bytes>, partBytes: nat,
                data: Bytes)
      requires Buffers(consumed, pending, parts, partBytes, data)
      requires take <= |remaining| && consumed + remaining <= data
      ensures Buffers(consumed + remaining[..take], pending, parts + [remaining[..take]], partBytes + take, data)
      ensures (consumed + remaining[..take]) + remaining[take..] == consumed + remaining
    {
      ConcatPush(parts, remaining[..take]);
      assert (consumed + remaining[..take])[offset..] == consumed[offset..] + remaining[..take];
      assert remaining[..take] + remaining[take..] == remaining;
    }

    /** A pending chunk is what comes next, and the parts are what follows it. */
    lemma NextIsPending(consumed: Bytes, pending: Option<Bytes>, parts: seq<Bytes>, partBytes: nat, data: Bytes)
      requires Buffers(consumed, pending, parts, partBytes, data)
      ensures pending.Some? ==>
        && offset + CHUNK <= |consumed| && pending.value == data[offset..offset + CHUNK]
        && consumed[offset + CHUNK..] == Concat(parts)
      ensures pending.None? ==> consumed[offset..] == Concat(parts)
    {
      if pending.Some? {
        assert consumed[offset..][..CHUNK] == pending.value;
        assert consumed[offset..][CHUNK..] == Concat(parts);
      }
    }

    /** The chunk that declares the total, and what its end is taken for. */
    method SendLast(finalBytes: Bytes, ghost data: Bytes) returns (file: Option<nat>)
      requires Streaming(data) && FullSoFar() && offset <= |data| && finalBytes == data[offset..]
      requires |finalBytes| <= CHUNK && (data != [] ==> finalBytes != [])
      modifies this, server
      ensures server.Valid(data) && ChunksFit(|data|) && peak == old(peak)
      ensures file.Some? ==> server.completed && chunks != [] && chunks[|chunks| - 1].last && Created(file) in server.answers
      ensures data == [] || server.seenAborted ==> file.None?
      ensures server.steady && data != [] ==> file.Some?
    {
      hide CarriesOnly, Concat;
      var total := offset + |finalBytes|;
      var outcome := SendChunk(finalBytes, Some(total), data);
      file := None;
      if outcome.File? { file := outcome.id; }
      if outcome.Sent? {
        var status := QueryUploadStatus(None, data);
        if status.Finished? { file := status.id; }
      }
    }

    method Finish(pending: Option<Bytes>, parts: seq<Bytes>, partBytes: nat, ghost data: Bytes)
      returns (file: Option<nat>)
      requires Streaming(data) && FullSoFar() && partBytes < CHUNK
      requires Buffers(data, pending, parts, partBytes, data)
      modifies this, server
      ensures server.Valid(data) && ChunksFit(|data|) && peak == old(peak)
      ensures file.Some? ==> server.completed && chunks != [] && chunks[|chunks| - 1].last && Created(file) in server.answers
      ensures data == [] || server.seenAborted ==> file.None?
      ensures server.steady && data != [] ==> file.Some?
    {
      NextIsPending(data, pending, parts, partBytes, data);
      hide CarriesOnly, Concat;
      var final := pending;
      if partBytes > 0 {
        var ok := SendFull(pending, data);
        if !ok { return None; }
        final := Some(Concat(parts));
      }
      file := SendLast(if final.Some? then final.value else [], data);
    }

    /** A full chunk waits until there are bytes after it; the one waiting before it is sent. */
    method PutAside(pending: Option<Bytes>, parts: seq<Bytes>, ghost consumed: Bytes, ghost data: Bytes)
      returns (ok: bool, fullChunk: Bytes)
      requires Streaming(data) && FullSoFar() && Buffers(consumed, pending, parts, CHUNK, data)
      modifies this, server
      ensures server.Valid(data) && server.declared == {} && peak == old(peak)
      ensures ok ==> Streaming(data) && FullSoFar() && Buffers(consumed, Some(fullChunk), [], 0, data)
      ensures !ok ==> ChunksFit(|data|)
      ensures server.steady ==> ok
    {
      NextIsPending(consumed, pending, parts, CHUNK, data);
      fullChunk := Concat(parts);
      assert Concat([]) == [];
      hide CarriesOnly, Concat;
      ok := SendFull(pending, data);
    }

    /** One value of the stream is cut into chunks. */
    method Consume(value: Bytes, pending: Option<Bytes>, parts: seq<Bytes>, partBytes: nat,
                   ghost before: Bytes, ghost data: Bytes)
      returns (ok: bool, pending': Option<Bytes>, parts': seq<Bytes>, partBytes': nat)
      requires Streaming(data) && FullSoFar() && partBytes < CHUNK && before + value <= data
      requires Buffers(before, pending, parts, partBytes, data)
      modifies this, server
      ensures server.Valid(data) && server.declared == {} && peak <= 2 * CHUNK
      ensures ok ==> Streaming(data) && FullSoFar() && partBytes' < CHUNK
      ensures ok ==> Buffers(before + value, pending', parts', partBytes', data)
      ensures !ok ==> ChunksFit(|data|)
      ensures server.steady ==> ok
    {
      hide CarriesOnly, Concat;
      pending', parts', partBytes' := pending, parts, partBytes;
      var remaining := value;
      ghost var consumed := before;
      while |remaining| > 0
        invariant Streaming(data) && FullSoFar() && partBytes' < CHUNK
        invariant consumed + remaining == before + value
        invariant Buffers(consumed, pending', parts', partBytes', data)
      {
        var take := Min(CHUNK - partBytes', |remaining|);
        Takes(consumed, remaining, take, pending', parts', partBytes', data);
        consumed := consumed + remaining[..take];
        parts' := parts' + [remaining[..take]];
        partBytes' := partBytes' + take;
        remaining := remaining[take..];
        Buffered(PendingSize(pending') + partBytes');
        if partBytes' == CHUNK {
          var fullChunk: Bytes;
          ok, fullChunk := PutAside(pending', parts', consumed, data);
          if !ok { return; }
          pending', parts', partBytes' := Some(fullChunk), [], 0;
        }
      }
      assert consumed == before + value;
      ok := true;
    }

    /**
     If a file is returned, the server holds exactly the source. Whatever it
     returns, every request carried the source's own bytes for its positions, the
     chunks have the promised layout, and no more than two of them were ever
     buffered. An empty source never yields a file, and neither does an upload
     that finds itself aborted. With a steady server a
     non-empty source always does.
     */
    method Upload(source: seq<Bytes>) returns (file: Option<nat>)
      requires server.held == [] && !server.completed && server.puts == [] && server.declared == {} && server.stalls == 0
      requires offset == 0 && chunks == [] && peak == 0 && !server.seenAborted
      modifies this, server
      ensures file.Some? ==> server.completed && server.held == Concat(source) && Created(file) in server.answers
      ensures CarriesOnly(server.puts, Concat(source)) && server.held <= Concat(source)
      ensures ChunksFit(|Concat(source)|) && peak <= 2 * CHUNK
      ensures file.Some? ==> chunks != [] && chunks[|chunks| - 1].last
      ensures Concat(source) == [] || server.seenAborted ==> file.None?
      ensures server.steady && Concat(source) != [] ==> file.Some?
    {
      ghost var data := Concat(source);
      var pending: Option<Bytes>, parts: seq<Bytes>, partBytes: nat := None, [], 0;
      assert Concat(source[..0]) == [] && Concat(parts) == [];
      hide CarriesOnly, ChunksFit, Concat;
      for i := 0 to |source|
        invariant Streaming(data) && FullSoFar() && partBytes < CHUNK
        invariant Buffers(Concat(source[..i]), pending, parts, partBytes, data)
      {
        var aborted := server.Aborted();
        FullChunksFit(|data|);
        if aborted { return None; }
        ConcatPrefix(source, i + 1);
        assert source[..i + 1] == source[..i] + [source[i]];
        ConcatPush(source[..i], source[i]);
        var ok: bool;
        ok, pending, parts, partBytes := Consume(source[i], pending, parts, partBytes, Concat(source[..i]), data);
        if !ok { return None; }
      }
      assert source[..|source|] == source;
      var aborted := server.Aborted();
      FullChunksFit(|data|);
      if aborted { return None; }
      file := Finish(pending, parts, partBytes, data);
    }
  }
}
