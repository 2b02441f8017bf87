/** Reading a stream into a bounded buffer, whatever the chunks it arrives in (apps/photostaff/src/command.rs,
    `read_bounded`; apps/indexer/src/extractor.rs, `read_async_limited`). */
module BoundedRead {
  import opened Base

  /** What the calls to `read` give: chunks that are not empty and fit the buffer, then the end of the stream or an error. */
  datatype Reader = Reader(chunks: seq<seq<Byte>>, fails: bool) {
    ghost predicate Valid(buffer: nat) { forall i | 0 <= i < |chunks| :: 0 < |chunks[i]| <= buffer }
  }

  const BUFFER: nat := 8192
  const LIMITED_BUFFER: nat := 16 * 1024
  const STDERR_TAIL_BYTES: nat := 16 * 1024

  ghost function Whole(chunks: seq<seq<Byte>>): seq<Byte> {
    if chunks == [] then [] else Whole(chunks[..|chunks| - 1]) + chunks[|chunks| - 1]
  }

  lemma OneMore(chunks: seq<seq<Byte>>, i: nat)
    requires i < |chunks|
    ensures Whole(chunks[..i + 1]) == Whole(chunks[..i]) + chunks[i]
  {
    assert chunks[..i + 1][..i] == chunks[..i];
  }

  lemma {:induction false} WholeLength(chunks: seq<seq<Byte>>)
    requires forall i | 0 <= i < |chunks| :: chunks[i] != []
    ensures |Whole(chunks)| >= |chunks|
  {
    if chunks != [] {
      WholeLength(chunks[..|chunks| - 1]);
    }
  }

  function First(s: seq<Byte>, limit: nat): seq<Byte> { if |s| <= limit then s else s[..limit] }

  function Last(s: seq<Byte>, limit: nat): seq<Byte> { if |s| <= limit then s else s[|s| - limit..] }

  /** One chunk in prefix mode. `seen` is the stream so far. */
  method AddToPrefix(bytes: seq<Byte>, chunk: seq<Byte>, limit: nat, ghost seen: seq<Byte>) returns (kept: seq<Byte>, dropped: bool)
    requires bytes == First(seen, limit) && chunk != []
    ensures kept == First(seen + chunk, limit)
    ensures dropped == (|seen + chunk| > limit)
  {
    if |bytes| < limit {
      var take := Min(|chunk|, limit - |bytes|);
      kept, dropped := bytes + chunk[..take], take < |chunk|;
    } else {
      kept, dropped := bytes, true;
    }
  }

  lemma LastOf(seen: seq<Byte>, chunk: seq<Byte>, limit: nat)
    ensures |chunk| >= limit ==> chunk[|chunk| - limit..] == Last(seen + chunk, limit)
    ensures |chunk| < limit ==> Last(seen, limit - |chunk|) + chunk == Last(seen + chunk, limit)
  {}

  /** One chunk in tail mode. */
  method AddToTail(bytes: seq<Byte>, chunk: seq<Byte>, limit: nat, ghost seen: seq<Byte>) returns (kept: seq<Byte>, dropped: bool)
    requires bytes == Last(seen, limit) && chunk != []
    ensures kept == Last(seen + chunk, limit)
    ensures dropped == (|seen + chunk| > limit || |chunk| == limit)
  {
    LastOf(seen, chunk, limit);
    if |chunk| >= limit {
      kept, dropped := chunk[|chunk| - limit..], true;
    } else {
      var remove := SatSub(|bytes| + |chunk|, limit);
      assert bytes[remove..] == Last(seen, limit - |chunk|);
      kept, dropped := bytes[remove..] + chunk, remove > 0;
    }
  }

  /** The stream arrived in one chunk that fills the buffer exactly. */
  ghost predicate OneFullChunk(chunks: seq<seq<Byte>>, limit: nat) { |chunks| == 1 && |chunks[0]| == limit }

  lemma FullChunk(chunks: seq<seq<Byte>>, i: nat, limit: nat)
    requires i < |chunks| && forall k | 0 <= k < |chunks| :: chunks[k] != []
    ensures |chunks[i]| == limit ==> |Whole(chunks[..i + 1])| > limit || OneFullChunk(chunks[..i + 1], limit)
    ensures OneFullChunk(chunks[..i + 1], limit) ==> |chunks[i]| == limit
    ensures OneFullChunk(chunks[..i], limit) ==> |Whole(chunks[..i + 1])| > limit
  {
    OneMore(chunks, i);
    WholeLength(chunks[..i]);
    if i > 0 {
      OneMore(chunks, i - 1);
    }
  }

  function Kept(s: seq<Byte>, limit: nat, keepTail: bool): seq<Byte> { if keepTail then Last(s, limit) else First(s, limit) }

  ghost predicate Flagged(chunks: seq<seq<Byte>>, limit: nat, keepTail: bool) {
    |Whole(chunks)| > limit || (keepTail && OneFullChunk(chunks, limit))
  }

  /** The body of the loop, for the `i`-th chunk. */
  method AddChunk(reader: Reader, i: nat, bytes: seq<Byte>, limit: nat, keepTail: bool) returns (kept: seq<Byte>, dropped: bool)
    requires reader.Valid(BUFFER) && i < |reader.chunks| && bytes == Kept(Whole(reader.chunks[..i]), limit, keepTail)
    ensures kept == Kept(Whole(reader.chunks[..i + 1]), limit, keepTail)
    ensures Flagged(reader.chunks[..i + 1], limit, keepTail) <==> dropped || Flagged(reader.chunks[..i], limit, keepTail)
  {
    OneMore(reader.chunks, i);
    FullChunk(reader.chunks, i, limit);
    if keepTail {
      kept, dropped := AddToTail(bytes, reader.chunks[i], limit, Whole(reader.chunks[..i]));
    } else {
      kept, dropped := AddToPrefix(bytes, reader.chunks[i], limit, Whole(reader.chunks[..i]));
    }
  }

  /** `read_bounded`: exactly the first `limit` bytes, with the flag set exactly when there were more; or exactly the
      last `limit` bytes. In that mode the flag is also set when the whole stream is one chunk of `limit` bytes,
      although nothing was dropped. */
  method ReadBounded(reader: Reader, limit: nat, keepTail: bool) returns (result: Option<(seq<Byte>, bool)>)
    requires reader.Valid(BUFFER)
    ensures result.None? <==> reader.fails
    ensures result.Some? ==> result.value.0 == Kept(Whole(reader.chunks), limit, keepTail)
    ensures result.Some? ==> (result.value.1 <==> Flagged(reader.chunks, limit, keepTail))
  {
    var bytes, overflow, i := [], false, 0;
    while i < |reader.chunks|
      invariant i <= |reader.chunks|
      invariant bytes == Kept(Whole(reader.chunks[..i]), limit, keepTail)
      invariant overflow <==> Flagged(reader.chunks[..i], limit, keepTail)
    {
      var dropped: bool;
      bytes, dropped := AddChunk(reader, i, bytes, limit, keepTail);
      overflow := overflow || dropped;
      i := i + 1;
    }
    assert reader.chunks[..i] == reader.chunks;
    result := if reader.fails then None else Some((bytes, overflow));
  }

  /** The exception needs a limit that a single chunk can fill; the tail of a command's error output has a larger one. */
  lemma TailFlagExact(reader: Reader, limit: nat)
    requires reader.Valid(BUFFER) && limit > BUFFER
    ensures Flagged(reader.chunks, limit, true) <==> |Whole(reader.chunks)| > limit
    ensures STDERR_TAIL_BYTES > BUFFER
  {}

  /** One chunk of the other reader. */
  method AddRemaining(bytes: seq<Byte>, chunk: seq<Byte>, limit: nat, ghost seen: seq<Byte>) returns (kept: seq<Byte>, dropped: bool)
    requires bytes == First(seen, limit) && chunk != []
    ensures kept == First(seen + chunk, limit)
    ensures dropped == (|seen + chunk| > limit)
  {
    var remaining := SatSub(limit, |bytes|);
    var retained := Min(|chunk|, remaining);
    kept, dropped := bytes + chunk[..retained], retained < |chunk|;
  }

  /** `read_async_limited` gives the same bytes and the same flag as the prefix mode. */
  method ReadLimited(reader: Reader, limit: nat) returns (result: Option<(seq<Byte>, bool)>)
    requires reader.Valid(LIMITED_BUFFER)
    ensures result.None? <==> reader.fails
    ensures result.Some? ==> result.value.0 == Kept(Whole(reader.chunks), limit, false)
    ensures result.Some? ==> (result.value.1 <==> Flagged(reader.chunks, limit, false))
  {
    var bytes, overflow, i := [], false, 0;
    while i < |reader.chunks|
      invariant i <= |reader.chunks|
      invariant bytes == First(Whole(reader.chunks[..i]), limit)
      invariant overflow <==> |Whole(reader.chunks[..i])| > limit
    {
      OneMore(reader.chunks, i);
      var dropped: bool;
      bytes, dropped := AddRemaining(bytes, reader.chunks[i], limit, Whole(reader.chunks[..i]));
      overflow := overflow || dropped;
      i := i + 1;
    }
    assert reader.chunks[..i] == reader.chunks;
    result := if reader.fails then None else Some((bytes, overflow));
  }
}
