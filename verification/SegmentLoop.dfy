/** The download loop of one segment (apps/downloader/src/download.rs), on the partial file and the segment rows.
    Every step it takes is a step of the protocol in `Transfer`, so all its guarantees carry over. */
module SegmentLoop {
  import opened Base
  import opened Segments
  import opened Transfer

  /** What the loop's `select!` yields next. */
  datatype Event =
    | Chunk(n: nat)        // the next `n` bytes of the response body
    | Tick(owned: bool)    // the checkpoint timer; `owned` is what the database answers
    | Shutdown             // the process is asked to stop
    | Broken               // the connection fails

  datatype Outcome = Ok | Interrupted | Overrun | Disconnected | Short

  /** Since `start` only row `i` moved, forward and within its segment, and only bytes of that segment were written. */
  ghost predicate OnlySegment(start: State, t: State, i: nat) {
    && t.stage.Segmented? && i < |t.rows| == |start.rows| && |t.file| == |start.file|
    && t.rows == start.rows[i := start.rows[i].(next := t.rows[i].next)]
    && start.rows[i].next <= t.rows[i].next <= t.rows[i].end
    && forall k | 0 <= k < |t.file| && !(start.rows[i].next <= k < t.rows[i].end) :: t.file[k] == start.file[k]
  }

  lemma Untouched(start: State, t: State, u: State, i: nat)
    requires OnlySegment(start, t, i) && u.stage.Segmented? && u.rows == t.rows && u.file == t.file
    ensures OnlySegment(start, u, i)
  {}

  lemma WriteStays(start: State, t: State, i: nat, count: nat)
    requires Inv(t) && OnlySegment(start, t, i) && Enabled(t, WriteChunk(i, count))
    ensures OnlySegment(start, Apply(t, WriteChunk(i, count)), i)
  {
    var at := t.stage.cursors[i].offset;
    assert CursorHolds(t, t.rows[i], t.stage.cursors[i]);
    WriteLeaves(t.file, at, t.src[at..at + count], start.rows[i].next, t.rows[i].end);
  }

  lemma StoreStays(start: State, t: State, i: nat, last: bool)
    requires Inv(t) && OnlySegment(start, t, i) && Enabled(t, StoreCursor(i, last))
    ensures OnlySegment(start, Apply(t, StoreCursor(i, last)), i)
  {
    assert CursorHolds(t, t.rows[i], t.stage.cursors[i]);
  }

  class Download {
    const src: Bytes
    var file: Bytes
    var disk: Bytes
    var rows: seq<Segment>
    var received: int
    var shutdown: bool
    /** Where each segment's loop stands; the program keeps this in its program counters. */
    ghost var stage: Stage

    ghost constructor (s: State)
      ensures View() == s
    {
      src, file, disk, rows, received, shutdown, stage := s.src, s.file, s.disk, s.rows, s.received, s.shutdown, s.stage;
    }

    ghost function View(): State
      reads this
    {
      State(src, file, disk, rows, received, stage, shutdown)
    }

    /** From `start`, the protocol steps so far led to the present state, and touched only segment `i`. */
    ghost predicate Reached(start: State, steps: seq<Step>, i: nat)
      reads this
    {
      Feasible(start, steps) && View() == Final(start, steps) && Inv(View()) && OnlySegment(start, View(), i)
    }

    /** Runs the body's events through the loop of segment `i`; `steps` are the protocol steps it took. */
    method DownloadSegment(i: nat, events: seq<Event>) returns (outcome: Outcome, ghost steps: seq<Step>)
      requires Inv(View()) && stage.Segmented? && i < |rows|
      requires stage.cursors[i] == Cursor(rows[i].next, Writing)
      modifies this
      ensures Reached(old(View()), steps, i)
      // A loop that returns without error has stored the whole segment, unless it was asked to stop.
      ensures outcome == Ok && !shutdown ==>
                rows[i].next == rows[i].end && forall k: nat | rows[i].start <= k < rows[i].end :: Held(View(), k)
    {
      ghost var start := View();
      steps := [];
      var offset: nat := rows[i].next;
      for n := 0 to |events|
        invariant Reached(start, steps, i) && stage.cursors[i] == Cursor(offset, Writing)
        invariant offset <= rows[i].end
      {
        var ended: Option<Outcome>;
        ended, offset, steps := Handle(start, steps, i, offset, events[n]);
        if ended.Some? {
          return ended.value, steps;
        }
      }
      outcome, steps := Finish(start, steps, i, offset);
    }

    /** One turn of the loop; `ended` is what the loop returns, if it does. */
    method Handle(ghost start: State, ghost steps: seq<Step>, i: nat, offset: nat, event: Event)
      returns (ended: Option<Outcome>, next: nat, ghost longer: seq<Step>)
      requires Reached(start, steps, i) && stage.cursors[i] == Cursor(offset, Writing) && offset <= rows[i].end
      modifies this
      ensures Reached(start, longer, i)
      ensures ended.None? ==> stage.cursors[i] == Cursor(next, Writing) && next <= rows[i].end
      ensures ended == Some(Ok) ==> shutdown
    {
      ended, next, longer := None, offset, steps;
      match event
      case Shutdown =>
        longer := Stop(start, steps, i);
        ended := Some(Ok);
      case Tick(owned) =>
        longer := Sync(start, steps, i);
        if owned {
          longer := Store(start, longer, i, offset, false);
        } else {
          ended := Some(Interrupted);
        }
      case Chunk(count) =>
        if offset + count > rows[i].end {
          ended := Some(Overrun);
        } else {
          longer := Write(start, steps, i, offset, count);
          next := offset + count;
        }
      case Broken => ended := Some(Disconnected);
    }

    /** What follows the loop: a full segment is synced and stored. */
    method Finish(ghost start: State, ghost steps: seq<Step>, i: nat, offset: nat) returns (outcome: Outcome, ghost longer: seq<Step>)
      requires Reached(start, steps, i) && stage.cursors[i] == Cursor(offset, Writing) && offset <= rows[i].end
      modifies this
      ensures Reached(start, longer, i)
      ensures outcome == Ok ==> rows[i].next == rows[i].end && forall k: nat | rows[i].start <= k < rows[i].end :: Held(View(), k)
    {
      if offset != rows[i].end {
        return Short, steps;
      }
      longer := Sync(start, steps, i);
      longer := Store(start, longer, i, offset, true);
      StoredIsHeld(View(), i);
      outcome := Ok;
    }

    method Stop(ghost start: State, ghost steps: seq<Step>, i: nat) returns (ghost longer: seq<Step>)
      requires Reached(start, steps, i) && stage.cursors[i].phase == Writing
      modifies this`shutdown, this`stage
      ensures Reached(start, longer, i) && shutdown
    {
      ghost var was := View();
      shutdown := true;
      longer := Take(start, steps, RequestShutdown);
      Untouched(start, was, View(), i);
      longer := Take(start, longer, StopCursor(i));
      Untouched(start, was, View(), i);
    }

    method Write(ghost start: State, ghost steps: seq<Step>, i: nat, offset: nat, count: nat) returns (ghost longer: seq<Step>)
      requires Reached(start, steps, i) && stage.cursors[i] == Cursor(offset, Writing) && offset + count <= rows[i].end
      modifies this`file, this`stage
      ensures Reached(start, longer, i) && stage.cursors[i] == Cursor(offset + count, Writing)
    {
      ghost var was := View();
      ChunkCanGo(was, i, count);
      WriteStays(start, was, i, count);
      file := WriteAt(file, offset, src[offset..offset + count]);
      longer := Take(start, steps, WriteChunk(i, count));
    }

    /** `sync_data`. */
    method Sync(ghost start: State, ghost steps: seq<Step>, i: nat) returns (ghost longer: seq<Step>)
      requires Reached(start, steps, i) && stage.cursors[i].phase == Writing
      modifies this`disk, this`stage
      ensures Reached(start, longer, i) && stage.cursors[i] == Cursor(old(stage.cursors[i]).offset, Synced)
    {
      ghost var was := View();
      disk := file;
      longer := Take(start, steps, SyncCursor(i));
      Untouched(start, was, View(), i);
    }

    /** `checkpoint_segment`, after the sync. */
    method Store(ghost start: State, ghost steps: seq<Step>, i: nat, offset: nat, last: bool) returns (ghost longer: seq<Step>)
      requires Reached(start, steps, i) && stage.cursors[i] == Cursor(offset, Synced)
      requires last ==> offset == rows[i].end
      modifies this`rows, this`received, this`stage
      ensures Reached(start, longer, i) && rows[i].next == offset
      ensures stage.cursors[i] == Cursor(offset, if last then Arrived else Writing)
    {
      ghost var was := View();
      StoreStays(start, was, i, last);
      StoreRow(i, offset);
      longer := Take(start, steps, StoreCursor(i, last));
    }

    /** `UPDATE download_segments`, and the sum that follows it. */
    method StoreRow(i: nat, offset: nat)
      requires i < |rows|
      modifies this`rows, this`received
      ensures rows == old(rows)[i := old(rows)[i].(next := offset)] && received == Received(rows)
    {
      rows := rows[i := rows[i].(next := offset)];
      received := Received(rows);
    }

    /** Records that the fields now hold what `step` makes of the last state of the run. */
    ghost method Take(start: State, steps: seq<Step>, step: Step) returns (longer: seq<Step>)
      requires Feasible(start, steps) && Inv(Final(start, steps)) && Enabled(Final(start, steps), step)
      requires View().(stage := Apply(Final(start, steps), step).stage) == Apply(Final(start, steps), step)
      modifies this`stage
      ensures longer == steps + [step] && Feasible(start, longer)
      ensures View() == Final(start, longer) == Apply(Final(start, steps), step) && Inv(View())
    {
      Extend(start, steps, step);
      StepInv(Final(start, steps), step);
      stage := Apply(Final(start, steps), step).stage;
      longer := steps + [step];
    }
  }
}
