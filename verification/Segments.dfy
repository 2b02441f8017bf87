/** Segment planning and acceptance (apps/downloader/src/download.rs). */
module Segments {
  import opened Base

  /** A byte range `[start, end)` of the file, downloaded up to `next`. */
  datatype Segment = Segment(start: nat, end: nat, next: nat)

  const MIB: nat := 1024 * 1024
  const MIN_SEGMENT_BYTES: nat := 16 * MIB
  const MAX_SEGMENTS: nat := 4096

  /** `SUM(next_byte - start_byte)` over the rows. */
  function Received(s: seq<Segment>): int {
    if s == [] then 0 else s[0].next - s[0].start + Received(s[1..])
  }

  /** The list is a gap-free, overlap-free tiling of `[from, to)` with every cursor inside its segment. */
  ghost predicate TilesBetween(s: seq<Segment>, from: nat, to: nat) {
    && (if s == [] then from == to else s[0].start == from && s[|s| - 1].end == to)
    && (forall i | 0 <= i < |s| :: s[i].start <= s[i].next <= s[i].end)
    && (forall i | 0 < i < |s| :: s[i].start == s[i - 1].end)
  }

  ghost predicate Tiles(s: seq<Segment>, total: nat) {
    TilesBetween(s, 0, total)
  }

  /** The same tiling, read from the front. */
  ghost predicate TilesFrom(s: seq<Segment>, from: nat, to: nat) {
    if s == [] then from == to
    else s[0].start == from <= s[0].next <= s[0].end && TilesFrom(s[1..], s[0].end, to)
  }

  lemma {:induction false} TilesReadings(s: seq<Segment>, from: nat, to: nat)
    ensures TilesFrom(s, from, to) <==> TilesBetween(s, from, to)
  {
    if s != [] {
      var t := s[1..];
      TilesReadings(t, s[0].end, to);
      if TilesBetween(t, s[0].end, to) && s[0].start == from <= s[0].next <= s[0].end {
        forall i | 0 < i < |s| ensures s[i].start == s[i - 1].end {
          assert i > 1 ==> t[i - 1].start == t[i - 2].end;
          assert s[i] == t[i - 1];
        }
        forall i | 0 <= i < |s| ensures s[i].start <= s[i].next <= s[i].end {
          assert i > 0 ==> s[i] == t[i - 1];
        }
      }
      if TilesBetween(s, from, to) {
        forall i | 0 < i < |t| ensures t[i].start == t[i - 1].end {
          assert s[i + 1].start == s[i].end;
        }
        assert t != [] ==> t[0] == s[1] && s[1].start == s[0].end;
      }
    }
  }

  lemma {:induction false} TilesAppend(s: seq<Segment>, from: nat, to: nat, last: Segment)
    requires TilesFrom(s, from, to)
    requires last.start == to <= last.next <= last.end
    ensures TilesFrom(s + [last], from, last.end)
    ensures Received(s + [last]) == Received(s) + last.next - last.start
  {
    if s == [] {
      assert s + [last] == [last];
    } else {
      TilesAppend(s[1..], s[0].end, to, last);
      assert (s + [last])[1..] == s[1..] + [last];
    }
  }

  /** Progress never exceeds the tiled range, and fills it exactly when no segment is pending. */
  lemma {:induction false} ReceivedWithin(s: seq<Segment>, from: nat, to: nat)
    requires TilesFrom(s, from, to)
    ensures 0 <= Received(s) <= to - from
    ensures Received(s) == to - from <==> forall i | 0 <= i < |s| :: s[i].next == s[i].end
  {
    if s != [] {
      var t := s[1..];
      ReceivedWithin(t, s[0].end, to);
      if s[0].next == s[0].end && (forall i | 0 <= i < |t| :: t[i].next == t[i].end) {
        forall i | 0 <= i < |s| ensures s[i].next == s[i].end {
          assert i > 0 ==> s[i] == t[i - 1];
        }
      }
      if forall i | 0 <= i < |s| :: s[i].next == s[i].end {
        forall i | 0 <= i < |t| ensures t[i].next == t[i].end {
          assert t[i] == s[i + 1];
        }
      }
    }
  }

  /** An accepted list has received at most `total` bytes, all of them exactly when nothing is pending. */
  lemma AcceptedReceived(s: seq<Segment>, total: nat)
    requires Tiles(s, total)
    ensures 0 <= Received(s) <= total
    ensures Received(s) == total <==> forall i | 0 <= i < |s| :: s[i].next == s[i].end
  {
    TilesReadings(s, 0, total);
    ReceivedWithin(s, 0, total);
  }

  /** Advancing one cursor inside its segment keeps the tiling and adds exactly the advance. */
  lemma {:induction false} AdvanceCursor(s: seq<Segment>, from: nat, to: nat, i: nat, next: nat)
    requires TilesFrom(s, from, to) && i < |s|
    requires s[i].start <= next <= s[i].end
    ensures TilesFrom(s[i := s[i].(next := next)], from, to)
    ensures Received(s[i := s[i].(next := next)]) == Received(s) - s[i].next + next
  {
    var u := s[i := s[i].(next := next)];
    if i == 0 {
      assert u[1..] == s[1..];
    } else {
      AdvanceCursor(s[1..], s[0].end, to, i - 1, next);
      assert u[1..] == s[1..][i - 1 := s[i].(next := next)];
    }
  }

  function DivCeil(a: nat, b: nat): (r: nat)
    requires b > 0
    ensures r * b >= a && (r == 0 || (r - 1) * b < a)
  {
    var r := (a + b - 1) / b;
    assert a + b - 1 == r * b + (a + b - 1) % b;
    r
  }

  function ChunkLength(total: nat, prefix: nat): (r: nat)
    requires prefix <= total
  {
    var slots := Max(SatSub(MAX_SEGMENTS, if prefix > 0 then 1 else 0), 1);
    var dynamic := DivCeil(SatSub(total, prefix), slots);
    DivCeil(Max(dynamic, MIN_SEGMENT_BYTES), MIB) * MIB
  }

  /** Chunks are whole mebibytes, at least the minimum, and large enough for the segment budget. */
  lemma ChunkFits(total: nat, prefix: nat)
    requires prefix <= total
    ensures ChunkLength(total, prefix) % MIB == 0
    ensures ChunkLength(total, prefix) >= MIN_SEGMENT_BYTES
    ensures total - prefix <= (MAX_SEGMENTS - if prefix > 0 then 1 else 0) * ChunkLength(total, prefix)
  {
    var slots := if prefix > 0 then MAX_SEGMENTS - 1 else MAX_SEGMENTS;
    var dynamic := DivCeil(total - prefix, slots);
    assert ChunkLength(total, prefix) >= dynamic;
  }

  lemma FewSegments(n: nat, chunk: nat, slots: nat, span: nat)
    requires chunk > 0 && span <= slots * chunk
    requires n > 0 ==> (n - 1) * chunk < span
    ensures n <= slots
  {
    assert n > slots ==> (n - 1) * chunk >= slots * chunk;
  }

  lemma OneMoreChunk(n: nat, chunk: nat)
    ensures (n + 1) * chunk == n * chunk + chunk
  {}

  /** The loop of `plan_segments`: chunks from the end of the kept prefix to the end of the file, only the last one shorter. */
  method AddChunks(kept: seq<Segment>, from: nat, total: nat, chunk: nat) returns (segments: seq<Segment>, ghost n: nat)
    requires from <= total <= U64_MAX && chunk > 0
    requires TilesFrom(kept, 0, from) && Received(kept) == from
    ensures kept <= segments && |segments| == |kept| + n
    ensures TilesFrom(segments, 0, total) && Received(segments) == from
    ensures n > 0 ==> (n - 1) * chunk < total - from
    ensures forall i | |kept| <= i < |segments| :: Chunk(segments[i], from, chunk)
    ensures forall i | |kept| <= i < |segments| - 1 :: segments[i].end - segments[i].start == chunk
  {
    segments, n := kept, 0;
    var start := from;
    while start < total
      invariant from <= start <= total && kept <= segments && |segments| == |kept| + n
      invariant TilesFrom(segments, 0, start) && Received(segments) == from
      invariant start == from + n * chunk || (start == total && n > 0)
      invariant n > 0 ==> (n - 1) * chunk < total - from
      invariant forall i | |kept| <= i < |segments| :: Chunk(segments[i], from, chunk)
      invariant forall i | |kept| <= i < |segments| ::
                  (i < |segments| - 1 || start < total) ==> segments[i].end - segments[i].start == chunk
    {
      var end := Min(SatAdd(start, chunk), total);
      var segment := Segment(start, end, start);
      TilesAppend(segments, 0, start, segment);
      OneMoreChunk(n, chunk);
      segments := segments + [segment];
      start := end;
      n := n + 1;
    }
  }

  /** Nothing of the segment is there yet, and it is at most a chunk long. */
  predicate Chunk(s: Segment, from: nat, chunk: nat) {
    from <= s.start == s.next < s.end <= s.start + chunk
  }

  /** `plan_segments`: the tiling persisted for a segmented transfer that keeps a downloaded prefix. */
  method PlanSegments(total: nat, prefix: nat) returns (segments: seq<Segment>)
    requires total <= U64_MAX && prefix <= U64_MAX
    ensures Tiles(segments, total)
    ensures forall i | 0 <= i < |segments| :: segments[i].start < segments[i].end
    ensures |segments| <= MAX_SEGMENTS
    ensures Received(segments) == Min(prefix, total)
    ensures forall i | 0 <= i < |segments| ::
              if segments[i].start < Min(prefix, total) then segments[i].next == segments[i].end <= Min(prefix, total)
              else segments[i].next == segments[i].start
    ensures exists chunk: nat {:trigger chunk % MIB} :: chunk % MIB == 0 && chunk >= MIN_SEGMENT_BYTES &&
              forall i | 0 <= i < |segments| :: segments[i].start >= prefix ==>
                if i < |segments| - 1 then segments[i].end - segments[i].start == chunk
                else segments[i].end - segments[i].start <= chunk
  {
    var kept := Min(prefix, total);
    var chunk := ChunkLength(total, kept);
    ChunkFits(total, kept);
    segments := if kept > 0 then [Segment(0, kept, kept)] else [];
    ghost var first, n := |segments|, 0;
    segments, n := AddChunks(segments, kept, total, chunk);
    FewSegments(n, chunk, MAX_SEGMENTS - first, total - kept);
    TilesReadings(segments, 0, total);
    assert chunk % MIB == 0;
  }

  /** `segments_cover_total`: accepts exactly the tilings of `[0, total)`. */
  method SegmentsCoverTotal(segments: seq<Segment>, total: nat) returns (ok: bool)
    ensures ok <==> Tiles(segments, total)
  {
    TilesReadings(segments, 0, total);
    var expectedStart := 0;
    for i := 0 to |segments|
      invariant TilesFrom(segments, 0, total) <==> TilesFrom(segments[i..], expectedStart, total)
    {
      var segment := segments[i];
      assert segments[i..][1..] == segments[i + 1..];
      if segment.start != expectedStart || segment.next < segment.start || segment.next > segment.end {
        return false;
      }
      expectedStart := segment.end;
    }
    return expectedStart == total;
  }
}
