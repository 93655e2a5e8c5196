/**
 The two streaming upload validators. One keeps the last megabyte of what it
 received in a ring buffer, the other concatenates and trims; both keep a prefix
 for the file signature. What they know, and so their verdict, depends only on
 the bytes received and not on how they were cut into chunks.
 */
module UploadTail {
  import opened ByteStrings

  const TAIL_BYTES: nat := 1024 * 1024
  const PREFIX_BYTES: nat := 4100
  const SIMPLE_PREFIX_BYTES: nat := 8192

  function First(data: Bytes, n: nat): Bytes {
    if |data| <= n then data else data[..n]
  }

  function Last(data: Bytes, n: nat): Bytes {
    if |data| <= n then data else data[|data| - n..]
  }

  // ------------------------------------------------------------ rings

  /** The buffer read from its write position on. */
  function Unrolled(buffer: Bytes, position: nat): Bytes
    requires position <= |buffer|
  {
    buffer[position..] + buffer[..position]
  }

  /** A chunk shorter than the buffer written at the position, around the end if need be. */
  function Written(buffer: Bytes, position: nat, chunk: Bytes): Bytes
    requires position < |buffer| && |chunk| < |buffer|
  {
    var room := |buffer| - position;
    if |chunk| <= room then buffer[..position] + chunk + buffer[position + |chunk|..]
    else chunk[room..] + buffer[|chunk| - room..position] + chunk[..room]
  }

  lemma DropFirst(a: Bytes, b: Bytes, k: nat)
    requires k <= |a|
    ensures (a + b)[k..] == a[k..] + b
  {
  }

  lemma DropTwice(a: Bytes, j: nat, k: nat)
    requires j + k <= |a|
    ensures a[j..][k..] == a[j + k..]
  {
  }

  lemma ShiftsWithoutWrapping(buffer: Bytes, position: nat, chunk: Bytes)
    requires position < |buffer| && position + |chunk| <= |buffer|
    ensures Unrolled(buffer[..position] + chunk + buffer[position + |chunk|..], position + |chunk|)
      == (Unrolled(buffer, position) + chunk)[|chunk|..]
  {
    var w, end := buffer[..position] + chunk + buffer[position + |chunk|..], position + |chunk|;
    assert w[end..] == buffer[end..] && w[..end] == buffer[..position] + chunk;
    DropTwice(buffer, position, |chunk|);
    DropFirst(buffer[position..], buffer[..position] + chunk, |chunk|);
    assert Unrolled(buffer, position) + chunk == buffer[position..] + (buffer[..position] + chunk);
  }

  lemma ShiftsWrapping(buffer: Bytes, position: nat, chunk: Bytes)
    requires position < |buffer| && |chunk| < |buffer| < position + |chunk|
    ensures var wrapped := position + |chunk| - |buffer|;
      Unrolled(chunk[|buffer| - position..] + buffer[wrapped..position] + chunk[..|buffer| - position], wrapped)
        == (Unrolled(buffer, position) + chunk)[|chunk|..]
  {
    var room, wrapped := |buffer| - position, position + |chunk| - |buffer|;
    var w := chunk[room..] + buffer[wrapped..position] + chunk[..room];
    assert w[wrapped..] == buffer[wrapped..position] + chunk[..room] && w[..wrapped] == chunk[room..];
    assert chunk[..room] + chunk[room..] == chunk;
    assert Unrolled(w, wrapped) == buffer[wrapped..position] + chunk;
    DropFirst(Unrolled(buffer, position), chunk, |chunk|);
    assert Unrolled(buffer, position)[|chunk|..] == buffer[wrapped..position];
  }

  lemma FullTurnIsNone(buffer: Bytes)
    ensures Unrolled(buffer, |buffer|) == Unrolled(buffer, 0)
  {
  }

  lemma Wraps(position: nat, length: nat, n: nat)
    requires position < n && length < n
    ensures (position + length) % n == if position + length < n then position + length else position + length - n
  {
  }

  lemma CopiesWrap(buffer: Bytes, position: nat, chunk: Bytes)
    requires position < |buffer| && |chunk| < |buffer| < position + |chunk|
    ensures var room := |buffer| - position;
      chunk[room..] + (buffer[..position] + chunk[..room])[|chunk| - room..] == Written(buffer, position, chunk)
  {
    var room := |buffer| - position;
    DropFirst(buffer[..position], chunk[..room], |chunk| - room);
    assert buffer[..position][|chunk| - room..] == buffer[|chunk| - room..position];
  }

  /** A ring forgets as many of its oldest bytes as it is given new ones. */
  lemma WritingShifts(buffer: Bytes, position: nat, chunk: Bytes)
    requires position < |buffer| && |chunk| < |buffer|
    ensures |Written(buffer, position, chunk)| == |buffer|
    ensures Unrolled(Written(buffer, position, chunk), (position + |chunk|) % |buffer|)
      == (Unrolled(buffer, position) + chunk)[|chunk|..]
  {
    Wraps(position, |chunk|, |buffer|);
    if position + |chunk| <= |buffer| {
      ShiftsWithoutWrapping(buffer, position, chunk);
      FullTurnIsNone(Written(buffer, position, chunk));
    } else {
      ShiftsWrapping(buffer, position, chunk);
    }
  }

  /** The last `length` bytes of the ring are the last of the data, and a ring not yet full has not wrapped. */
  predicate Remembers(buffer: Bytes, position: nat, length: nat, data: Bytes) {
    && position < |buffer| && length == (if |data| < |buffer| then |data| else |buffer|)
    && (length < |buffer| ==> position == length)
    && Unrolled(buffer, position)[|buffer| - length..] == Last(data, |buffer|)
  }

  lemma WritingRemembers(buffer: Bytes, position: nat, length: nat, data: Bytes, chunk: Bytes)
    requires Remembers(buffer, position, length, data) && |chunk| < |buffer|
    ensures Remembers(Written(buffer, position, chunk), (position + |chunk|) % |buffer|,
                      if length + |chunk| < |buffer| then length + |chunk| else |buffer|, data + chunk)
  {
    var n := |buffer|;
    WritingShifts(buffer, position, chunk);
    Wraps(position, |chunk|, n);
    var next := (position + |chunk|) % n;
    hide Written, Unrolled, Last;
    TrimmingForgetsNothing(data, chunk, n);
    var ring := Unrolled(buffer, position);
    var length' := if length + |chunk| < n then length + |chunk| else n;
    EndOf(ring, chunk, length, length');
  }

  lemma OverwritingRemembers(buffer: Bytes, data: Bytes, chunk: Bytes)
    requires 0 < |buffer| <= |chunk| && buffer == chunk[|chunk| - |buffer|..]
    ensures Remembers(buffer, 0, |buffer|, data + chunk)
  {
    DropFirst(data, chunk, |data|);
    DropTwice(data + chunk, |data|, |chunk| - |buffer|);
  }

  lemma EndOf(ring: Bytes, chunk: Bytes, length: nat, next: nat)
    requires length <= |ring| && next == if length + |chunk| < |ring| then length + |chunk| else |ring|
    ensures (ring + chunk)[|chunk|..][|ring| - next..] == Last(ring[|ring| - length..] + chunk, |ring|)
  {
    DropTwice(ring + chunk, |chunk|, |ring| - next);
    DropFirst(ring, chunk, |ring| - length);
    DropTwice(ring + chunk, |ring| - length, length + |chunk| - next);
  }

  /** Trimming now and again keeps the same tail as trimming once. */
  lemma TrimmingForgetsNothing(data: Bytes, chunk: Bytes, n: nat)
    ensures Last(Last(data, n) + chunk, n) == Last(data + chunk, n)
  {
    if |data| > n {
      assert (data + chunk)[|data| - n..] == data[|data| - n..] + chunk;
      assert (data + chunk)[|data| + |chunk| - n..] == (data + chunk)[|data| - n..][|chunk|..];
    }
  }

  lemma FillingForgetsNothing(data: Bytes, chunk: Bytes, n: nat)
    ensures First(data + chunk, n)
      == if |data| < n then First(data, n) + First(chunk, n - |data|) else First(data, n)
  {
  }

  // ------------------------------------------------------------ the two validators

  /** The concatenating one. */
  class StreamingValidation {
    const maxBytes: nat
    var sizeBytes: nat
    var prefix: Bytes
    var tail: Bytes

    constructor (maxBytes: nat)
      ensures this.maxBytes == maxBytes && sizeBytes == 0 && prefix == [] && tail == []
    {
      this.maxBytes := maxBytes;
      sizeBytes, prefix, tail := 0, [], [];
    }

    ghost predicate Knows(data: Bytes)
      reads this
    {
      sizeBytes == |data| && prefix == First(data, SIMPLE_PREFIX_BYTES) && tail == Last(data, TAIL_BYTES)
    }

    method Transform(chunk: Bytes, ghost data: Bytes) returns (ok: bool)
      requires Knows(data)
      modifies this
      ensures ok <==> |data + chunk| <= maxBytes
      ensures ok ==> Knows(data + chunk)
    {
      sizeBytes := sizeBytes + |chunk|;
      if sizeBytes > maxBytes { return false; }
      FillingForgetsNothing(data, chunk, SIMPLE_PREFIX_BYTES);
      TrimmingForgetsNothing(data, chunk, TAIL_BYTES);
      if |prefix| < SIMPLE_PREFIX_BYTES {
        prefix := prefix + First(chunk, SIMPLE_PREFIX_BYTES - |prefix|);
      }
      tail := tail + chunk;
      if |tail| > TAIL_BYTES {
        tail := tail[|tail| - TAIL_BYTES..];
      }
      ok := true;
    }
  }

  /** The one with the ring buffer. */
  class DriveUploadValidation {
    const tail: array<Byte>
    const expectedSize: nat
    const maxBytes: nat
    const magic: Bytes -> bool        // the signature check
    const archive: Bytes -> bool      // the check of the end of the archive
    var prefix: Bytes
    var tailLength: nat
    var tailPosition: nat
    var received: nat
    var magicValidated: bool

    ghost predicate Knows(data: Bytes)
      reads this, tail
    {
      && tail.Length == TAIL_BYTES && expectedSize <= maxBytes
      && received == |data| <= expectedSize && prefix == First(data, PREFIX_BYTES)
      && Remembers(tail[..], tailPosition, tailLength, data)
      && (magicValidated <==> |data| >= PREFIX_BYTES) && (magicValidated ==> magic(prefix))
    }

    constructor (expectedSize: nat, maxBytes: nat, magic: Bytes -> bool, archive: Bytes -> bool)
      requires 0 < expectedSize <= maxBytes
      ensures fresh(tail) && Knows([])
      ensures this.expectedSize == expectedSize && this.magic == magic && this.archive == archive
    {
      tail := new Byte[TAIL_BYTES](_ => 0);
      this.expectedSize, this.maxBytes, this.magic, this.archive := expectedSize, maxBytes, magic, archive;
      prefix, tailLength, tailPosition, received, magicValidated := [], 0, 0, 0, false;
    }

    method Copy(source: Bytes, start: nat)
      requires start + |source| <= tail.Length
      modifies tail
      ensures tail[..] == old(tail[..start]) + source + old(tail[start + |source|..])
    {
      forall k | 0 <= k < |source| { tail[start + k] := source[k]; }
    }

    method RecordTail(chunk: Bytes, ghost data: Bytes)
      requires tail.Length == TAIL_BYTES && Remembers(tail[..], tailPosition, tailLength, data)
      modifies `tailLength, `tailPosition, tail
      ensures Remembers(tail[..], tailPosition, tailLength, data + chunk)
    {
      if |chunk| >= TAIL_BYTES {
        Copy(chunk[|chunk| - TAIL_BYTES..], 0);
        tailLength, tailPosition := TAIL_BYTES, 0;
        assert tail[..] == chunk[|chunk| - TAIL_BYTES..];
        OverwritingRemembers(tail[..], data, chunk);
        return;
      }
      WritingRemembers(tail[..], tailPosition, tailLength, data, chunk);
      hide Remembers, Written;
      WriteAround(chunk);
      tailPosition := (tailPosition + |chunk|) % TAIL_BYTES;
      tailLength := if tailLength + |chunk| < TAIL_BYTES then tailLength + |chunk| else TAIL_BYTES;
    }

    method WriteAround(chunk: Bytes)
      requires tailPosition < tail.Length && |chunk| < tail.Length
      modifies tail
      ensures tail[..] == Written(old(tail[..]), tailPosition, chunk)
    {
      ghost var before := tail[..];
      var room := tail.Length - tailPosition;
      var firstPart := if |chunk| < room then |chunk| else room;
      Copy(chunk[..firstPart], tailPosition);
      if firstPart < |chunk| {
        CopiesWrap(before, tailPosition, chunk);
        assert tail[..] == before[..tailPosition] + chunk[..firstPart];
        Copy(chunk[firstPart..], 0);
      } else {
        assert chunk[..firstPart] == chunk;
      }
    }

    /** The read-out is the last megabyte received. */
    method ReadTail(ghost data: Bytes) returns (bytes: Bytes)
      requires tail.Length == TAIL_BYTES && Remembers(tail[..], tailPosition, tailLength, data)
      ensures bytes == Last(data, TAIL_BYTES)
      ensures bytes == if |data| <= TAIL_BYTES then data else data[|data| - TAIL_BYTES..]
    {
      if tailLength < TAIL_BYTES { return tail[..tailLength]; }
      bytes := tail[tailPosition..] + tail[..tailPosition];
    }

    method Transform(chunk: Bytes, ghost data: Bytes) returns (ok: bool)
      requires Knows(data)
      modifies this, tail
      ensures ok <==>
        |data + chunk| <= expectedSize
        && (|data| < PREFIX_BYTES <= |data + chunk| ==> magic(First(data + chunk, PREFIX_BYTES)))
      ensures ok ==> Knows(data + chunk)
    {
      received := received + |chunk|;
      if received > maxBytes || received > expectedSize { return false; }
      FillingForgetsNothing(data, chunk, PREFIX_BYTES);
      if |prefix| < PREFIX_BYTES {
        prefix := prefix + First(chunk, PREFIX_BYTES - |prefix|);
        if |prefix| >= PREFIX_BYTES {
          if !magic(prefix) { return false; }
          magicValidated := true;
        }
      }
      RecordTail(chunk, data);
      ok := true;
    }

    method Flush(ghost data: Bytes) returns (ok: bool)
      requires Knows(data)
      ensures ok <==>
        |data| == expectedSize && magic(First(data, PREFIX_BYTES)) && archive(Last(data, TAIL_BYTES))
    {
      if received != expectedSize { return false; }
      if !magicValidated && !magic(prefix) { return false; }
      var archiveEnd := ReadTail(data);
      ok := archive(archiveEnd);
    }

    /** For every chunking: the stream is accepted iff its bytes pass the three checks. */
    method Validate(chunks: seq<Bytes>) returns (ok: bool)
      requires Knows([])
      modifies this, tail
      ensures var data := Concat(chunks);
        ok <==>
          |data| == expectedSize
          && magic(if |data| <= PREFIX_BYTES then data else data[..PREFIX_BYTES])
          && archive(if |data| <= TAIL_BYTES then data else data[|data| - TAIL_BYTES..])
    {
      for i := 0 to |chunks|
        invariant Knows(Concat(chunks[..i]))
      {
        assert chunks[..i + 1][..i] == chunks[..i];
        ConcatGrows(chunks, i + 1, PREFIX_BYTES);
        var accepted := Transform(chunks[i], Concat(chunks[..i]));
        if !accepted { return false; }
      }
      assert chunks[..|chunks|] == chunks;
      ok := Flush(Concat(chunks));
    }
  }

  /** Later chunks leave a full prefix alone. */
  lemma {:induction false} ConcatGrows(chunks: seq<Bytes>, i: nat, n: nat)
    requires i <= |chunks|
    ensures |Concat(chunks[..i])| <= |Concat(chunks)|
    ensures |Concat(chunks[..i])| >= n ==> First(Concat(chunks[..i]), n) == First(Concat(chunks), n)
    decreases |chunks| - i
  {
    if i == |chunks| {
      assert chunks[..i] == chunks;
    } else {
      assert chunks[..i + 1][..i] == chunks[..i];
      FillingForgetsNothing(Concat(chunks[..i]), chunks[i], n);
      ConcatGrows(chunks, i + 1, n);
    }
  }
}
