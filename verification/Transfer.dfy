/** The transfer of one source version into a partial file (apps/downloader/src/download.rs): parallel segments or
    a single stream, synced before they are checkpointed, interrupted anywhere and resumed from what was stored. */
module Transfer {
  import opened Base
  import opened Segments

  type Bytes = seq<Byte>

  /** Where one segment's download loop stands. */
  datatype Phase =
    | Writing    // receiving chunks
    | Synced     // the file was synced and the checkpoint is not stored yet
    | Arrived    // returned after its last checkpoint
    | Stopped    // returned early because of a shutdown

  datatype Cursor = Cursor(offset: nat, phase: Phase)

  datatype Stage =
    | Idle
    | Replanning                          // stored progress was reset, the plan is not stored yet
    | Planned(truncate: bool)             // segment rows are stored, the file is not open yet
    | Opened                              // the file has its full length, the rows are not counted yet
    | Segmented(cursors: seq<Cursor>)
    | Lost                                // somebody reset the progress under a segmented run
    | Restarting                          // stored progress was reset, the file is not cut yet
    | Single(offset: nat, synced: bool)
    | Returned(size: nat)                 // the download call returned `Ok(size)`
    | Publishing(size: nat)               // and neither a control request nor a shutdown was seen afterwards

  /** `file` is what a reader of the partial sees and `disk` what survives a power loss;
      `rows` and `received` are in the database. */
  datatype State = State(
    src: Bytes,
    file: Bytes,
    disk: Bytes,
    rows: seq<Segment>,
    received: int,
    stage: Stage,
    shutdown: bool)

  datatype Step =
    | ResetSegments(validated: bool)
    | Plan(plan: seq<Segment>, validated: bool)
    | OpenSegmented
    | CountRows
    | WriteChunk(i: nat, n: nat)
    | SyncCursor(i: nat)
    | StoreCursor(i: nat, last: bool)
    | StopCursor(i: nat)
    | ReturnSegmented
    | StartSingle(validated: bool)
    | ResetSingle(validated: bool)
    | OpenSingle
    | WriteSingle(n: nat)
    | SyncSingle
    | StoreSingle
    | StopSingle
    | EndSingle
    | Publish
    | Unlink
    | Forget
    | Scribble(image: Bytes)
    | RequestShutdown
    | Abandon
    | PowerLoss(image: Bytes)
    | NewProcess

  /** `ftruncate`: cut, or extend with zeros. */
  function SetLen(file: Bytes, n: nat): (r: Bytes)
    ensures |r| == n
    ensures forall k | 0 <= k < |file| && k < n :: r[k] == file[k]
  {
    if n <= |file| then file[..n] else file + seq(n - |file|, _ => 0 as Byte)
  }

  /** `write_all_at`: replaces bytes in place and extends the file when it has to. */
  function WriteAt(file: Bytes, at: nat, data: Bytes): (r: Bytes)
    ensures |r| == Max(|file|, at + |data|)
    ensures forall k | 0 <= k < |r| && (k < |file| || at <= k < at + |data|) ::
              r[k] == if at <= k < at + |data| then data[k - at] else file[k]
  {
    var long := SetLen(file, Max(|file|, at + |data|));
    long[..at] + data + long[at + |data|..]
  }

  /** What may be on disk after a power loss: bytes that were synced survive, the others can be anything. */
  ghost predicate Survives(image: Bytes, file: Bytes, disk: Bytes) {
    && (|image| == |file| || |image| == |disk|)
    && forall k | 0 <= k < |image| && k < |file| && k < |disk| :: file[k] == disk[k] ==> image[k] == file[k]
  }

  // ----- starting a transfer

  /** `plan_segments` keeps `prefix` bytes: whole segments before it, untouched ones behind it. */
  ghost predicate IsPlan(plan: seq<Segment>, total: nat, prefix: nat) {
    && Tiles(plan, total)
    && forall i | 0 <= i < |plan| ::
         if plan[i].start < prefix then plan[i].next == plan[i].end <= prefix else plan[i].next == plan[i].start
  }

  /** Stored rows that do not fit the partial are discarded. */
  ghost predicate MustReset(s: State) {
    s.rows != [] && (|s.file| != |s.src| || !Tiles(s.rows, |s.src|))
  }

  /** The prefix of a single-stream download that a first segmented run keeps. */
  ghost function KeptPrefix(s: State, validated: bool): nat {
    if validated && s.received == |s.file| && |s.file| <= |s.src| then |s.file| else 0
  }

  /** A segmented run that can keep neither rows nor prefix resets the stored progress first. */
  ghost predicate NeedsReset(s: State, validated: bool) {
    MustReset(s) || (s.rows == [] && |s.file| > 0 && KeptPrefix(s, validated) == 0)
  }

  /** Rows that are kept are not written again. */
  ghost function Planning(s: State, plan: seq<Segment>, validated: bool): State {
    if s.rows != [] then s.(stage := Planned(false))
    else s.(rows := plan, stage := Planned(s.stage == Replanning || KeptPrefix(s, validated) == 0))
  }

  predicate CanResume(s: State, validated: bool) {
    0 < s.received <= |s.file| && s.received <= |s.src| && validated
  }

  function StartingSingle(s: State, validated: bool): State {
    if CanResume(s, validated) then
      var cut := s.(file := s.file[..s.received], disk := if |s.file| == s.received then s.disk else s.file[..s.received]);
      if s.received == |s.src| then cut.(stage := Returned(s.received)) else cut.(stage := Single(s.received, false))
    else s.(file := [], stage := Single(0, false))
  }

  // ----- steps

  ghost predicate Enabled(s: State, step: Step) {
    match step
    case ResetSegments(validated) => s.stage == Idle && |s.src| >= MIB && NeedsReset(s, validated)
    case Plan(plan, validated) =>
      if s.stage == Replanning then |s.src| >= MIB && IsPlan(plan, |s.src|, 0)
      else s.stage == Idle && |s.src| >= MIB && !NeedsReset(s, validated)
           && (s.rows == [] ==> IsPlan(plan, |s.src|, KeptPrefix(s, validated)))
           // The program plans on an empty partial whatever is counted; see `PlanOnEmptyExact` and `PlanOnEmptyGoesWrong`.
           && (|s.file| == 0 ==> s.received == 0)
    case OpenSegmented => s.stage.Planned?
    case CountRows => s.stage == Opened
    case WriteChunk(i, n) =>
      && s.stage.Segmented? && i < |s.stage.cursors| && i < |s.rows|
      && s.stage.cursors[i].phase == Writing
      && s.stage.cursors[i].offset + n <= s.rows[i].end && s.stage.cursors[i].offset + n <= |s.src|
    case SyncCursor(i) => s.stage.Segmented? && i < |s.stage.cursors| && s.stage.cursors[i].phase == Writing
    case StoreCursor(i, last) =>
      && s.stage.Segmented? && i < |s.stage.cursors| && i < |s.rows| && s.stage.cursors[i].phase == Synced
      && (last ==> s.stage.cursors[i].offset == s.rows[i].end)
    case StopCursor(i) => s.stage.Segmented? && i < |s.stage.cursors| && s.stage.cursors[i].phase == Writing && s.shutdown
    case ReturnSegmented =>
      s.stage.Segmented? && forall i | 0 <= i < |s.stage.cursors| :: s.stage.cursors[i].phase in {Arrived, Stopped}
    // The program resumes whatever rows there are, and starts on an empty partial whatever is counted; see
    // `SingleResumeExact` and `MixedModesGoWrong`, `StartOnEmptyExact` and `StartOnEmptyGoesWrong`.
    case StartSingle(validated) =>
      s.stage == Idle && (if CanResume(s, validated) then PrefixShaped(s.rows) else |s.file| == 0 && s.received == 0)
    // A file that cannot be resumed, or a range that the server does not honour.
    case ResetSingle(validated) => (s.stage == Idle && !CanResume(s, validated) && |s.file| > 0) || s.stage.Single?
    case OpenSingle => s.stage == Restarting
    case WriteSingle(n) => s.stage.Single? && !s.stage.synced && s.stage.offset + n <= |s.src|
    case SyncSingle => s.stage.Single? && !s.stage.synced
    case StoreSingle => s.stage.Single? && s.stage.synced
    case StopSingle => s.stage.Single? && s.shutdown
    // The body ends after its last byte; a shorter one is an error, which abandons the transfer.
    case EndSingle => s.stage.Single? && s.stage.offset == |s.src|
    // The length is compared once more, and the file is synced before the journal row is written.
    case Publish => s.stage.Returned? && !s.shutdown && |s.file| == s.stage.size
    // Removing the partial leaves the stored progress as it is, and so does a task that is put back in the queue.
    case Unlink => s.stage == Idle
    // A user's retry of a cancelled task resets the progress, whoever is at work.
    case Forget => true
    case Scribble(_) => s.stage == Lost
    case RequestShutdown => true
    case Abandon => true
    case PowerLoss(image) => Survives(image, s.file, s.disk)
    case NewProcess => true
  }

  function SetCursor(s: State, i: nat, cursor: Cursor): State
    requires s.stage.Segmented? && i < |s.stage.cursors|
  {
    s.(stage := Segmented(s.stage.cursors[i := cursor]))
  }

  ghost function Apply(s: State, step: Step): State
    requires Enabled(s, step)
  {
    match step
    case ResetSegments(_) => s.(rows := [], received := 0, stage := Replanning)
    case Plan(plan, validated) => Planning(s, plan, validated)
    case OpenSegmented => s.(file := SetLen(if s.stage.truncate then [] else s.file, |s.src|), stage := Opened)
    case CountRows =>
      s.(received := Received(s.rows),
         stage := Segmented(seq(|s.rows|, i requires 0 <= i < |s.rows| =>
           Cursor(s.rows[i].next, if s.rows[i].next < s.rows[i].end then Writing else Arrived))))
    case WriteChunk(i, n) =>
      var at := s.stage.cursors[i].offset;
      SetCursor(s, i, Cursor(at + n, Writing)).(file := WriteAt(s.file, at, s.src[at..at + n]))
    case SyncCursor(i) => SetCursor(s, i, s.stage.cursors[i].(phase := Synced)).(disk := s.file)
    case StoreCursor(i, last) =>
      var rows := s.rows[i := s.rows[i].(next := s.stage.cursors[i].offset)];
      SetCursor(s, i, s.stage.cursors[i].(phase := if last then Arrived else Writing)).(rows := rows, received := Received(rows))
    case StopCursor(i) => SetCursor(s, i, s.stage.cursors[i].(phase := Stopped))
    case ReturnSegmented => s.(disk := s.file, stage := Returned(|s.src|))
    case StartSingle(validated) => StartingSingle(s, validated)
    case ResetSingle(_) => s.(rows := [], received := 0, stage := Restarting)
    case OpenSingle => s.(file := [], stage := Single(0, false))
    case WriteSingle(n) =>
      var at := s.stage.offset;
      s.(file := s.file + s.src[at..at + n], stage := Single(at + n, false))
    case SyncSingle => s.(disk := s.file, stage := s.stage.(synced := true))
    case StoreSingle => s.(received := s.stage.offset, stage := s.stage.(synced := false))
    case StopSingle => s.(disk := s.file, stage := Returned(s.stage.offset))
    case EndSingle => s.(disk := s.file, received := s.stage.offset, stage := Returned(s.stage.offset))
    case Publish => s.(disk := s.file, stage := Publishing(s.stage.size))
    case Unlink => s.(file := [], disk := [])
    case Forget =>
      s.(rows := [], received := 0, stage := if s.stage.Planned? || s.stage.Opened? || s.stage.Segmented? then Lost else s.stage)
    case Scribble(image) => s.(file := image)
    case RequestShutdown => s.(shutdown := true)
    case Abandon => s.(stage := Idle)
    case PowerLoss(image) => s.(file := image, disk := image, stage := Idle, shutdown := false)
    case NewProcess => s.(stage := Idle, shutdown := false)
  }

  ghost predicate Feasible(s: State, steps: seq<Step>)
    decreases |steps|
  {
    steps == [] || (Enabled(s, steps[0]) && Feasible(Apply(s, steps[0]), steps[1..]))
  }

  ghost function Final(s: State, steps: seq<Step>): State
    requires Feasible(s, steps)
    decreases |steps|
  {
    if steps == [] then s else Final(Apply(s, steps[0]), steps[1..])
  }

  // ----- what is claimed

  /** Byte `k` of the partial is the source's, and safe on disk. */
  ghost predicate Held(s: State, k: nat) {
    k < |s.file| && k < |s.disk| && k < |s.src| && s.file[k] == s.disk[k] == s.src[k]
  }

  /** Byte `k` of the partial is the source's, as a reader sees it. */
  ghost predicate Right(s: State, k: nat) { k < |s.file| && k < |s.src| && s.file[k] == s.src[k] }

  /** The rows' progress is one unbroken prefix. */
  ghost predicate PrefixShaped(rows: seq<Segment>) {
    forall i, j | 0 <= i < j < |rows| :: rows[j].next > rows[j].start ==> rows[i].next == rows[i].end
  }

  /** Every byte the database counts as received is held: what each row counts, and, unless rows leave gaps, the prefix
      that the task counts. */
  ghost predicate Claims(s: State) {
    && (forall i, k: nat | 0 <= i < |s.rows| && s.rows[i].start <= k < s.rows[i].next :: Held(s, k))
    && (PrefixShaped(s.rows) ==> forall k: nat | k < s.received :: Held(s, k))
  }

  /** What is published is the source, whole and durable. */
  ghost predicate PublishesSource(s: State) {
    s.stage.Publishing? ==> s.stage.size == |s.src| && s.file == s.src && s.disk == s.src
  }

  // ----- the invariant

  ghost predicate CursorHolds(s: State, row: Segment, cursor: Cursor) {
    && row.next <= cursor.offset <= row.end
    && (forall k: nat | row.start <= k < cursor.offset :: Right(s, k))
    && (cursor.phase == Synced ==> forall k: nat | row.start <= k < cursor.offset :: Held(s, k))
    && (cursor.phase == Arrived ==> cursor.offset == row.next == row.end)
    && (cursor.phase == Stopped ==> s.shutdown)
  }

  ghost predicate StageHolds(s: State) {
    match s.stage
    case Idle => true
    case Replanning => s.rows == [] && s.received == 0
    case Planned(truncate) =>
      && Tiles(s.rows, |s.src|) && s.rows != []
      && (if truncate then s.received == 0 && forall i | 0 <= i < |s.rows| :: s.rows[i].next == s.rows[i].start
          else |s.file| <= |s.src|)
    case Opened => |s.file| == |s.src| && Tiles(s.rows, |s.src|) && s.rows != []
    case Lost => s.rows == [] && s.received == 0
    case Segmented(cursors) =>
      && |s.file| == |s.src| && Tiles(s.rows, |s.src|) && |cursors| == |s.rows| > 0
      && forall i | 0 <= i < |cursors| :: CursorHolds(s, s.rows[i], cursors[i])
    case Restarting => s.rows == [] && s.received == 0
    case Single(offset, synced) =>
      && |s.file| == offset <= |s.src| && s.received <= offset
      && s.file == s.src[..offset] && (synced ==> s.disk == s.file)
    case Returned(size) => s.shutdown || (size == |s.src| && s.file == s.src)
    case Publishing(size) => size == |s.src| && s.file == s.src && s.disk == s.src
  }

  /** Rows describe the source's length and count no more than the task does, which counts no more than there is. */
  ghost predicate RowsFit(s: State) {
    (s.rows == [] || Tiles(s.rows, |s.src|)) && Received(s.rows) <= s.received <= |s.src|
  }

  /** The partial has been removed; what is counted counts for nothing. */
  predicate Gone(s: State) { s.stage == Idle && s.file == [] && s.disk == [] }

  ghost predicate Inv(s: State) { (Gone(s) || Claims(s)) && RowsFit(s) && StageHolds(s) }

  // ----- every step keeps the invariant

  lemma ClaimsCarry(s: State, t: State)
    requires Claims(s) && t.rows == s.rows && t.received <= s.received
    requires forall k: nat | Held(s, k) :: Held(t, k)
    ensures Claims(t)
  {
    forall i, k: nat | 0 <= i < |t.rows| && t.rows[i].start <= k < t.rows[i].next ensures Held(t, k) {
      assert Held(s, k);
    }
    forall k: nat | PrefixShaped(t.rows) && k < t.received ensures Held(t, k) {
      assert Held(s, k);
    }
  }

  /** In a tiling every segment lies within the file, and distinct segments do not meet. */
  lemma {:induction false} TileBounds(rows: seq<Segment>, total: nat, i: nat)
    requires Tiles(rows, total) && i < |rows|
    ensures rows[i].end <= total
    ensures forall j | i < j < |rows| :: rows[i].end <= rows[j].start
    decreases |rows| - i
  {
    if i + 1 < |rows| {
      TileBounds(rows, total, i + 1);
      assert rows[i + 1].start == rows[i].end;
    }
  }

  /** Every position of a tiled range lies in some segment. */
  lemma {:induction false} TileOf(rows: seq<Segment>, from: nat, total: nat, k: nat) returns (i: nat)
    requires TilesFrom(rows, from, total) && from <= k < total
    ensures i < |rows| && rows[i].start <= k < rows[i].end
  {
    if k < rows[0].end {
      i := 0;
    } else {
      i := TileOf(rows[1..], rows[0].end, total, k);
      i := i + 1;
    }
  }

  lemma {:induction false} PrefixShapedCovers(rows: seq<Segment>, from: nat, to: nat, k: nat) returns (i: nat)
    requires TilesFrom(rows, from, to) && PrefixShaped(rows)
    requires from <= k < from + Received(rows)
    ensures i < |rows| && rows[i].start <= k < rows[i].next
  {
    if k < rows[0].next {
      i := 0;
    } else {
      var rest := rows[1..];
      ReceivedWithin(rest, rows[0].end, to);
      if rows[0].next < rows[0].end {
        forall j | 0 <= j < |rest| ensures rest[j].next == rest[j].start {
          assert rest[j] == rows[j + 1];
          TilesReadings(rest, rows[0].end, to);
        }
        NothingReceived(rest);
      }
      i := PrefixShapedCovers(rest, rows[0].end, to, k);
      i := i + 1;
    }
  }

  lemma {:induction false} NothingReceived(rows: seq<Segment>)
    requires forall j | 0 <= j < |rows| :: rows[j].next == rows[j].start
    ensures Received(rows) == 0
  {
    if rows != [] {
      NothingReceived(rows[1..]);
    }
  }

  /** And they hold nothing beyond what they count. */
  lemma {:induction false} ClaimedBelow(rows: seq<Segment>, from: nat, to: nat, i: nat, k: nat)
    requires TilesFrom(rows, from, to) && PrefixShaped(rows)
    requires i < |rows| && rows[i].start <= k < rows[i].next
    ensures k < from + Received(rows)
  {
    ReceivedWithin(rows[1..], rows[0].end, to);
    if i > 0 {
      var rest := rows[1..];
      assert rest[i - 1] == rows[i] && rows[0].next == rows[0].end;
      assert PrefixShaped(rest);
      ClaimedBelow(rest, rows[0].end, to, i - 1, k);
    }
  }

  /** Where the task counts what the rows count, the prefix it counts is held. */
  lemma CountedIsHeld(s: State)
    requires Tiles(s.rows, |s.src|) && s.received == Received(s.rows)
    requires forall i, k: nat | 0 <= i < |s.rows| && s.rows[i].start <= k < s.rows[i].next :: Held(s, k)
    ensures Claims(s)
  {
    TilesReadings(s.rows, 0, |s.src|);
    forall k: nat | PrefixShaped(s.rows) && k < s.received ensures Held(s, k) {
      var i := PrefixShapedCovers(s.rows, 0, |s.src|, k);
    }
  }

  /** A plan counts exactly the prefix it keeps. */
  lemma {:induction false} PlanCounts(plan: seq<Segment>, from: nat, to: nat, prefix: nat)
    requires TilesFrom(plan, from, to) && prefix <= to
    requires forall i | 0 <= i < |plan| ::
               if plan[i].start < prefix then plan[i].next == plan[i].end <= prefix else plan[i].next == plan[i].start
    ensures Received(plan) == if from < prefix then prefix - from else 0
  {
    if plan != [] {
      PlanCounts(plan[1..], plan[0].end, to, prefix);
    }
  }

  lemma ResetInv(s: State, step: Step)
    requires Inv(s) && (step.ResetSegments? || step.ResetSingle?) && Enabled(s, step)
    ensures Inv(Apply(s, step))
  {}

  /** Where nothing is counted, nothing is claimed. */
  lemma NothingClaimed(s: State)
    requires RowsFit(s) && s.received == 0
    ensures Claims(s)
  {
    if s.rows != [] {
      TilesReadings(s.rows, 0, |s.src|);
      NoneReceived(s.rows, 0, |s.src|);
    }
  }

  lemma {:induction false} NoneReceived(rows: seq<Segment>, from: nat, to: nat)
    requires TilesFrom(rows, from, to) && Received(rows) <= 0
    ensures forall i | 0 <= i < |rows| :: rows[i].next == rows[i].start
  {
    if rows != [] {
      ReceivedWithin(rows[1..], rows[0].end, to);
      NoneReceived(rows[1..], rows[0].end, to);
      assert forall i | 0 < i < |rows| :: rows[i] == rows[1..][i - 1];
    }
  }

  lemma PlanInv(s: State, step: Step)
    requires Inv(s) && step.Plan? && Enabled(s, step)
    ensures Inv(Apply(s, step))
  {
    var t := Apply(s, step);
    assert forall k: nat | Held(s, k) :: Held(t, k);
    if s.rows != [] {
      ClaimsCarry(s, t);
    } else {
      var prefix := if s.stage == Replanning then 0 else KeptPrefix(s, step.validated);
      if s.received == 0 {
        NothingClaimed(s);
      }
      TilesReadings(step.plan, 0, |s.src|);
      PlanCounts(step.plan, 0, |s.src|, prefix);
      assert s.received == prefix;
      forall i, k: nat | 0 <= i < |t.rows| && t.rows[i].start <= k < t.rows[i].next ensures Held(t, k) {
        assert Held(s, k);
      }
      CountedIsHeld(t);
    }
  }

  lemma OpenInv(s: State, step: Step)
    requires Inv(s) && step.OpenSegmented? && Enabled(s, step)
    ensures Inv(Apply(s, step))
  {
    var t := Apply(s, step);
    if s.stage.truncate {
      NothingClaimed(t);
    } else {
      assert forall k: nat | Held(s, k) :: Held(t, k);
      ClaimsCarry(s, t);
    }
  }

  lemma CountRowsInv(s: State, step: Step)
    requires Inv(s) && step.CountRows? && Enabled(s, step)
    ensures Inv(Apply(s, step))
  {
    var t := Apply(s, step);
    AcceptedReceived(s.rows, |s.src|);
    forall i, k: nat | 0 <= i < |t.rows| && t.rows[i].start <= k < t.rows[i].next ensures Held(t, k) {
      assert Held(s, k);
    }
    CountedIsHeld(t);
    forall i | 0 <= i < |t.rows| ensures CursorHolds(t, t.rows[i], t.stage.cursors[i]) {
      forall k: nat | t.rows[i].start <= k < t.stage.cursors[i].offset ensures Right(t, k) {
        assert Held(t, k);
      }
    }
  }

  /** What was right stays right, and so becomes the chunk. */
  lemma ChunkRight(s: State, step: Step)
    requires Inv(s) && step.WriteChunk? && Enabled(s, step)
    ensures var t, at := Apply(s, step), s.stage.cursors[step.i].offset;
            && |t.file| == |s.file| && (forall k: nat | Right(s, k) || at <= k < at + step.n :: Right(t, k))
            && (forall k: nat | Held(s, k) :: Held(t, k))
  {
    var t, at := Apply(s, step), s.stage.cursors[step.i].offset;
    TileBounds(s.rows, |s.src|, step.i);
    ChunkKeeps(s.file, s.src, at, step.n);
    forall k: nat | Held(s, k) ensures Held(t, k) { assert Right(s, k); }
  }

  lemma ChunkCursors(s: State, step: Step)
    requires Inv(s) && step.WriteChunk? && Enabled(s, step)
    ensures var t := Apply(s, step); forall j | 0 <= j < |t.rows| :: CursorHolds(t, t.rows[j], t.stage.cursors[j])
  {
    var t := Apply(s, step);
    ChunkRight(s, step);
    forall j | 0 <= j < |t.rows| ensures CursorHolds(t, t.rows[j], t.stage.cursors[j]) {
      assert CursorHolds(s, s.rows[j], s.stage.cursors[j]);
      forall k: nat | t.rows[j].start <= k < t.stage.cursors[j].offset ensures Right(t, k) {
        assert k < s.stage.cursors[j].offset ==> Right(s, k);
      }
    }
  }

  lemma WriteChunkInv(s: State, step: Step)
    requires Inv(s) && step.WriteChunk? && Enabled(s, step)
    ensures Inv(Apply(s, step))
  {
    ChunkRight(s, step);
    ClaimsCarry(s, Apply(s, step));
    ChunkCursors(s, step);
  }

  /** Writing source bytes in place makes them right and spoils nothing that was. */
  lemma ChunkKeeps(file: Bytes, src: Bytes, at: nat, n: nat)
    requires at + n <= |file| == |src|
    ensures var r := WriteAt(file, at, src[at..at + n]);
            |r| == |file| && forall k | 0 <= k < |r| :: r[k] == if at <= k < at + n then src[k] else file[k]
  {}

  /** A chunk that stays in its segment can be written. */
  lemma ChunkCanGo(s: State, i: nat, count: nat)
    requires Inv(s) && s.stage.Segmented? && i < |s.stage.cursors| && s.stage.cursors[i].phase == Writing
    requires s.stage.cursors[i].offset + count <= s.rows[i].end
    ensures Enabled(s, WriteChunk(i, count))
  {
    TileBounds(s.rows, |s.src|, i);
  }

  lemma WriteLeaves(file: Bytes, at: nat, data: Bytes, from: nat, to: nat)
    requires from <= at && at + |data| <= to && at + |data| <= |file|
    ensures |WriteAt(file, at, data)| == |file|
    ensures forall k | 0 <= k < |file| && !(from <= k < to) :: WriteAt(file, at, data)[k] == file[k]
  {}

  lemma SyncCursorInv(s: State, step: Step)
    requires Inv(s) && step.SyncCursor? && Enabled(s, step)
    ensures Inv(Apply(s, step))
  {
    var t := Apply(s, step);
    forall k: nat | Held(s, k) ensures Held(t, k) {}
    ClaimsCarry(s, t);
    forall j | 0 <= j < |t.rows| ensures CursorHolds(t, t.rows[j], t.stage.cursors[j]) {
      assert CursorHolds(s, s.rows[j], s.stage.cursors[j]);
      forall k: nat | t.rows[j].start <= k < t.stage.cursors[j].offset ensures Right(t, k) && Held(t, k) {
        assert Right(s, k);
      }
    }
  }

  lemma StoreCursorInv(s: State, step: Step)
    requires Inv(s) && step.StoreCursor? && Enabled(s, step)
    ensures Inv(Apply(s, step))
  {
    StoredRows(s, step.i);
    AcceptedReceived(Apply(s, step).rows, |s.src|);
    StoredHeld(s, step);
    CountedIsHeld(Apply(s, step));
    StoredCursors(s, step);
  }

  lemma StoredRows(s: State, i: nat)
    requires Inv(s) && s.stage.Segmented? && i < |s.stage.cursors|
    ensures Tiles(s.rows[i := s.rows[i].(next := s.stage.cursors[i].offset)], |s.src|)
  {
    assert CursorHolds(s, s.rows[i], s.stage.cursors[i]);
    TilesReadings(s.rows, 0, |s.src|);
    AdvanceCursor(s.rows, 0, |s.src|, i, s.stage.cursors[i].offset);
    TilesReadings(s.rows[i := s.rows[i].(next := s.stage.cursors[i].offset)], 0, |s.src|);
  }

  /** A stored cursor claims what was synced. */
  lemma StoredHeld(s: State, step: Step)
    requires Inv(s) && step.StoreCursor? && Enabled(s, step)
    ensures var t := Apply(s, step);
            forall j, k: nat | 0 <= j < |t.rows| && t.rows[j].start <= k < t.rows[j].next :: Held(t, k)
  {
    var t := Apply(s, step);
    assert CursorHolds(s, s.rows[step.i], s.stage.cursors[step.i]);
    forall j, k: nat | 0 <= j < |t.rows| && t.rows[j].start <= k < t.rows[j].next ensures Held(t, k) {
      assert Held(s, k);
    }
  }

  lemma StoredCursors(s: State, step: Step)
    requires Inv(s) && step.StoreCursor? && Enabled(s, step)
    ensures var t := Apply(s, step);
            |t.stage.cursors| == |t.rows| && forall j | 0 <= j < |t.rows| :: CursorHolds(t, t.rows[j], t.stage.cursors[j])
  {
    var t := Apply(s, step);
    forall k: nat ensures Held(s, k) == Held(t, k) && Right(s, k) == Right(t, k) {}
    forall j | 0 <= j < |t.rows| ensures CursorHolds(t, t.rows[j], t.stage.cursors[j]) {
      assert CursorHolds(s, s.rows[j], s.stage.cursors[j]);
    }
  }

  lemma StopCursorInv(s: State, step: Step)
    requires Inv(s) && step.StopCursor? && Enabled(s, step)
    ensures Inv(Apply(s, step))
  {
    var t := Apply(s, step);
    forall k: nat ensures Held(s, k) == Held(t, k) && Right(s, k) == Right(t, k) {}
    ClaimsCarry(s, t);
    forall j | 0 <= j < |t.rows| ensures CursorHolds(t, t.rows[j], t.stage.cursors[j]) {
      assert CursorHolds(s, s.rows[j], s.stage.cursors[j]);
    }
  }

  /** Once every segment has arrived, the file is the source. */
  lemma ArrivedIsSource(s: State)
    requires Inv(s) && s.stage.Segmented?
    requires forall i | 0 <= i < |s.stage.cursors| :: s.stage.cursors[i].phase == Arrived
    ensures s.file == s.src
  {
    TilesReadings(s.rows, 0, |s.src|);
    forall k: nat | k < |s.src| ensures s.file[k] == s.src[k] {
      var i := TileOf(s.rows, 0, |s.src|, k);
      assert CursorHolds(s, s.rows[i], s.stage.cursors[i]);
      assert Right(s, k);
    }
  }

  lemma ReturnSegmentedInv(s: State, step: Step)
    requires Inv(s) && step.ReturnSegmented? && Enabled(s, step)
    ensures Inv(Apply(s, step))
  {
    var t := Apply(s, step);
    assert forall k: nat | Held(s, k) :: Held(t, k);
    ClaimsCarry(s, t);
    if !s.shutdown {
      forall i | 0 <= i < |s.stage.cursors| ensures s.stage.cursors[i].phase == Arrived {
        assert CursorHolds(s, s.rows[i], s.stage.cursors[i]);
      }
      ArrivedIsSource(s);
    }
  }

  /** Cutting the file to the counted prefix loses nothing that rows without gaps claim. */
  lemma CutHeld(s: State, validated: bool)
    requires Inv(s) && CanResume(s, validated) && PrefixShaped(s.rows)
    ensures Claims(StartingSingle(s, validated)) && s.file[..s.received] == s.src[..s.received]
  {
    var t := StartingSingle(s, validated);
    forall k: nat | k < s.received ensures Held(t, k) && s.file[k] == s.src[k] {
      assert Held(s, k);
    }
    forall i, k: nat | 0 <= i < |t.rows| && t.rows[i].start <= k < t.rows[i].next ensures Held(t, k) {
      TilesReadings(s.rows, 0, |s.src|);
      ClaimedBelow(s.rows, 0, |s.src|, i, k);
    }
  }

  lemma StartSingleInv(s: State, step: Step)
    requires Inv(s) && step.StartSingle? && Enabled(s, step)
    ensures Inv(Apply(s, step))
  {
    if CanResume(s, step.validated) {
      CutHeld(s, step.validated);
      assert s.src[..|s.src|] == s.src;
    } else {
      NothingClaimed(Apply(s, step));
    }
  }

  lemma OpenSingleInv(s: State, step: Step)
    requires Inv(s) && step.OpenSingle? && Enabled(s, step)
    ensures Inv(Apply(s, step))
  {}

  /** What was held is held, and so is whatever the task newly counts. */
  lemma ClaimsGrow(s: State, t: State)
    requires Claims(s) && t.rows == s.rows
    requires forall k: nat | Held(s, k) :: Held(t, k)
    requires forall k: nat | s.received <= k < t.received :: Held(t, k)
    ensures Claims(t)
  {
    forall i, k: nat | 0 <= i < |t.rows| && t.rows[i].start <= k < t.rows[i].next ensures Held(t, k) {
      assert Held(s, k);
    }
    forall k: nat | PrefixShaped(t.rows) && k < t.received ensures Held(t, k) {
      assert k < s.received ==> Held(s, k);
    }
  }

  lemma SingleStage(s: State, step: Step)
    requires Inv(s) && Enabled(s, step)
    requires step.WriteSingle? || step.SyncSingle? || step.StoreSingle? || step.StopSingle? || step.EndSingle?
    ensures StageHolds(Apply(s, step)) && Apply(s, step).received <= |s.src|
  {
    assert s.src[..|s.src|] == s.src;
  }

  lemma SingleInv(s: State, step: Step)
    requires Inv(s) && Enabled(s, step)
    requires step.WriteSingle? || step.SyncSingle? || step.StoreSingle? || step.StopSingle? || step.EndSingle?
    ensures Inv(Apply(s, step))
  {
    SingleHolds(s, step);
    ClaimsGrow(s, Apply(s, step));
    SingleStage(s, step);
  }

  lemma SingleHolds(s: State, step: Step)
    requires Inv(s) && Enabled(s, step)
    requires step.WriteSingle? || step.SyncSingle? || step.StoreSingle? || step.StopSingle? || step.EndSingle?
    ensures var t := Apply(s, step);
            && t.rows == s.rows && t.src == s.src && s.received <= t.received
            && (forall k: nat | Held(s, k) :: Held(t, k))
            && (forall k: nat | s.received <= k < t.received :: Held(t, k))
  {}

  predicate OutsideStep(step: Step) {
    step.Publish? || step.RequestShutdown? || step.Abandon? || step.PowerLoss? || step.NewProcess?
  }

  /** Nothing that was held is lost, and nothing new is counted. */
  lemma OutsideClaims(s: State, step: Step)
    requires Inv(s) && Enabled(s, step) && OutsideStep(step)
    ensures Gone(Apply(s, step)) || Claims(Apply(s, step))
  {
    var t := Apply(s, step);
    if Claims(s) {
      forall k: nat | Held(s, k) ensures Held(t, k) {}
      ClaimsCarry(s, t);
    }
  }

  lemma OutsideInv(s: State, step: Step)
    requires Inv(s) && Enabled(s, step) && OutsideStep(step)
    ensures Inv(Apply(s, step))
  {
    OutsideClaims(s, step);
    if step.RequestShutdown? {
      ShutdownInv(s);
    }
  }

  lemma ForgetInv(s: State, step: Step)
    requires Inv(s) && (step.Forget? || step.Scribble? || step.Unlink?) && Enabled(s, step)
    ensures Inv(Apply(s, step))
  {
    if !step.Unlink? {
      NothingClaimed(Apply(s, step));
    }
  }

  lemma ShutdownInv(s: State)
    requires Inv(s)
    ensures StageHolds(s.(shutdown := true))
  {
    var t := s.(shutdown := true);
    if s.stage.Segmented? {
      forall j | 0 <= j < |t.rows| ensures CursorHolds(t, t.rows[j], t.stage.cursors[j]) {
        assert CursorHolds(s, s.rows[j], s.stage.cursors[j]);
        forall k: nat ensures Held(s, k) == Held(t, k) && Right(s, k) == Right(t, k) {}
      }
    }
  }

  lemma StepInv(s: State, step: Step)
    requires Inv(s) && Enabled(s, step)
    ensures Inv(Apply(s, step))
  {
    if SegmentStep(step) {
      SegmentStepInv(s, step);
    } else if SingleStep(step) {
      SingleStepInv(s, step);
    } else if OutsideStep(step) {
      OutsideInv(s, step);
    } else {
      ForgetInv(s, step);
    }
  }

  predicate SegmentStep(step: Step) {
    || step.ResetSegments? || step.Plan? || step.OpenSegmented? || step.CountRows? || step.WriteChunk? || step.SyncCursor?
    || step.StoreCursor? || step.StopCursor? || step.ReturnSegmented?
  }

  predicate SingleStep(step: Step) {
    || step.StartSingle? || step.ResetSingle? || step.OpenSingle? || step.WriteSingle? || step.SyncSingle? || step.StoreSingle?
    || step.StopSingle? || step.EndSingle?
  }

  lemma SegmentStepInv(s: State, step: Step)
    requires Inv(s) && Enabled(s, step) && SegmentStep(step)
    ensures Inv(Apply(s, step))
  {
    if step.ResetSegments? {
      ResetInv(s, step);
    } else if step.Plan? {
      PlanInv(s, step);
    } else if step.OpenSegmented? {
      OpenInv(s, step);
    } else if step.CountRows? {
      CountRowsInv(s, step);
    } else if step.WriteChunk? {
      WriteChunkInv(s, step);
    } else if step.SyncCursor? {
      SyncCursorInv(s, step);
    } else if step.StoreCursor? {
      StoreCursorInv(s, step);
    } else if step.StopCursor? {
      StopCursorInv(s, step);
    } else {
      ReturnSegmentedInv(s, step);
    }
  }

  lemma SingleStepInv(s: State, step: Step)
    requires Inv(s) && Enabled(s, step) && SingleStep(step)
    ensures Inv(Apply(s, step))
  {
    if step.StartSingle? {
      StartSingleInv(s, step);
    } else if step.ResetSingle? {
      ResetInv(s, step);
    } else if step.OpenSingle? {
      OpenSingleInv(s, step);
    } else {
      SingleInv(s, step);
    }
  }

  /** A segment whose row is at its end is held. */
  lemma StoredIsHeld(s: State, i: nat)
    requires Inv(s) && s.stage.Segmented? && i < |s.rows| && s.rows[i].next == s.rows[i].end
    ensures forall k: nat | s.rows[i].start <= k < s.rows[i].end :: Held(s, k)
  {}

  lemma {:induction false} RunsKeepInv(s: State, steps: seq<Step>)
    requires Inv(s) && Feasible(s, steps)
    ensures Inv(Final(s, steps))
    decreases |steps|
  {
    if steps != [] {
      StepInv(s, steps[0]);
      RunsKeepInv(Apply(s, steps[0]), steps[1..]);
    }
  }

  /** A task that has stored no progress; whatever lies in its partial counts for nothing. */
  ghost predicate Init(s: State) { s.stage == Idle && s.rows == [] && s.received == 0 }

  /** Any interleaving of chunks, syncs, checkpoints, shutdowns, power losses, resumes, resets and removals of the partial
      keeps every counted byte equal to the source as long as there is a partial, and only the whole source is ever
      published. */
  lemma TransferIsFaithful(s: State, steps: seq<Step>)
    requires Init(s) && Feasible(s, steps)
    ensures Gone(Final(s, steps)) || Claims(Final(s, steps))
    ensures PublishesSource(Final(s, steps))
  {
    RunsKeepInv(s, steps);
  }

  /** Rows that are all at their end describe a durable copy of the source. */
  lemma FinishedRowsAreACopy(s: State)
    requires Claims(s) && Tiles(s.rows, |s.src|)
    requires forall i | 0 <= i < |s.rows| :: s.rows[i].next == s.rows[i].end
    ensures |s.disk| >= |s.src| && s.disk[..|s.src|] == s.src
  {
    TilesReadings(s.rows, 0, |s.src|);
    forall k: nat | k < |s.src| ensures Held(s, k) {
      var i := TileOf(s.rows, 0, |s.src|, k);
    }
    if |s.src| > 0 {
      assert Held(s, |s.src| - 1);
    }
    forall k: nat | k < |s.src| ensures s.disk[k] == s.src[k] {
      assert Held(s, k);
    }
  }

  /** The planner's result is the plan a transfer needs. */
  method PlanTransfer(total: nat, prefix: nat) returns (plan: seq<Segment>)
    requires prefix <= total <= U64_MAX
    ensures IsPlan(plan, total, prefix) && Received(plan) == prefix
  {
    plan := PlanSegments(total, prefix);
  }

  // ----- runs that need the assumptions

  /** The file agrees with the source wherever the rows say so. */
  ghost predicate Agrees(file: Bytes, src: Bytes, rows: seq<Segment>) {
    |file| == |src| && forall i, k: nat | 0 <= i < |rows| && rows[i].start <= k < rows[i].next && k < |src| :: file[k] == src[k]
  }

  /** A single stream resumed at the stored byte count keeps that many bytes and fetches the rest. */
  ghost function ResumedSingle(file: Bytes, src: Bytes, received: nat): Bytes
    requires received <= |file| && received <= |src|
  {
    file[..received] + src[received..]
  }

  /** Rows that are not prefix-shaped count a byte beyond one they do not hold. */
  lemma {:induction false} HoleBelowReceived(rows: seq<Segment>, from: nat, to: nat, i: nat, j: nat)
    requires TilesFrom(rows, from, to) && i < j < |rows|
    requires rows[i].next < rows[i].end && rows[j].next > rows[j].start
    requires forall h | 0 <= h < i :: rows[h].next == rows[h].end
    ensures rows[i].next < from + Received(rows)
  {
    if i == 0 {
      ReceivedPositive(rows[1..], rows[0].end, to, j - 1);
    } else {
      assert rows[0].next == rows[0].end;
      HoleBelowReceived(rows[1..], rows[0].end, to, i - 1, j - 1);
    }
  }

  lemma {:induction false} ReceivedPositive(rows: seq<Segment>, from: nat, to: nat, j: nat)
    requires TilesFrom(rows, from, to) && j < |rows| && rows[j].next > rows[j].start
    ensures Received(rows) > 0
  {
    ReceivedWithin(rows[1..], rows[0].end, to);
    if j > 0 {
      ReceivedPositive(rows[1..], rows[0].end, to, j - 1);
    }
  }

  /** Resuming a segmented download as a single stream is right for every file the rows allow
      exactly when the rows are prefix-shaped. */
  lemma SingleResumeExact(src: Bytes, rows: seq<Segment>)
    requires Tiles(rows, |src|)
    ensures 0 <= Received(rows) <= |src|
    ensures PrefixShaped(rows) <==> forall file: Bytes | Agrees(file, src, rows) :: ResumedSingle(file, src, Received(rows)) == src
  {
    AcceptedReceived(rows, |src|);
    TilesReadings(rows, 0, |src|);
    var received := Received(rows);
    if PrefixShaped(rows) {
      forall file: Bytes | Agrees(file, src, rows) ensures ResumedSingle(file, src, received) == src {
        forall k: nat | k < received ensures file[k] == src[k] {
          var i := PrefixShapedCovers(rows, 0, |src|, k);
        }
      }
    } else {
      var file := WrongFile(src, rows);
      assert ResumedSingle(file, src, received) != src;
    }
  }

  lemma WrongFile(src: Bytes, rows: seq<Segment>) returns (file: Bytes)
    requires Tiles(rows, |src|) && !PrefixShaped(rows)
    ensures Agrees(file, src, rows) && 0 <= Received(rows) <= |src|
    ensures ResumedSingle(file, src, Received(rows)) != src
  {
    AcceptedReceived(rows, |src|);
    var first := FirstHole(rows, |src|);
    var hole := rows[first].next;
    file := src[hole := if src[hole] == 0 then 1 else 0];
    NotClaimed(rows, |src|, first);
    assert ResumedSingle(file, src, Received(rows))[hole] == file[hole];
  }

  lemma FirstHole(rows: seq<Segment>, total: nat) returns (first: nat)
    requires Tiles(rows, total) && !PrefixShaped(rows)
    ensures first < |rows| && rows[first].next < rows[first].end <= total && rows[first].next < Received(rows)
  {
    TilesReadings(rows, 0, total);
    var i, j :| 0 <= i < j < |rows| && rows[j].next > rows[j].start && rows[i].next != rows[i].end;
    first := FirstOpen(rows, i);
    HoleBelowReceived(rows, 0, total, first, j);
    TileBounds(rows, total, first);
  }

  lemma NotClaimed(rows: seq<Segment>, total: nat, first: nat)
    requires Tiles(rows, total) && first < |rows| && rows[first].next < rows[first].end
    ensures forall h | 0 <= h < |rows| :: !(rows[h].start <= rows[first].next < rows[h].next)
  {
    forall h | 0 <= h < |rows| ensures !(rows[h].start <= rows[first].next < rows[h].next) {
      TileBounds(rows, total, h);
      TileBounds(rows, total, first);
    }
  }

  lemma FirstOpen(rows: seq<Segment>, bound: nat) returns (first: nat)
    requires bound < |rows| && rows[bound].next != rows[bound].end
    ensures first <= bound && rows[first].next != rows[first].end
    ensures forall h | 0 <= h < first :: rows[h].next == rows[h].end
  {
    first := 0;
    while rows[first].next == rows[first].end
      invariant first <= bound
      invariant forall h | 0 <= h < first :: rows[h].next == rows[h].end
      decreases bound - first
    {
      first := first + 1;
    }
  }

  lemma {:induction false} Extend(s: State, steps: seq<Step>, step: Step)
    requires Feasible(s, steps) && Enabled(Final(s, steps), step)
    ensures Feasible(s, steps + [step]) && Final(s, steps + [step]) == Apply(Final(s, steps), step)
    decreases |steps|
  {
    if steps == [] {
      assert steps + [step] == [step];
      assert [step][1..] == [];
    } else {
      Extend(Apply(s, steps[0]), steps[1..], step);
      assert (steps + [step])[1..] == steps[1..] + [step];
    }
  }

  function Fresh(src: Bytes): State { State(src, [], [], [], 0, Idle, false) }

  /** One byte of a one-segment source is written, synced and checkpointed; then the run stops. */
  lemma FirstByte(src: Bytes) returns (steps: seq<Step>)
    requires |src| == MIB
    ensures Feasible(Fresh(src), steps)
    ensures var t := Final(Fresh(src), steps);
            && t.src == src && |t.file| == MIB && t.file[0] == src[0] && t.stage == Idle && !t.shutdown
            && t.rows == [Segment(0, MIB, 1)]
  {
    var s := Fresh(src);
    var plan := [Segment(0, MIB, 0)];
    Extend(s, [], Plan(plan, false));
    steps := [] + [Plan(plan, false)];
    Extend(s, steps, OpenSegmented);
    steps := steps + [OpenSegmented];
    Extend(s, steps, CountRows);
    steps := steps + [CountRows];
    var ready := Final(s, steps);
    assert ready.stage == Segmented([Cursor(0, Writing)]) && |ready.file| == MIB;
    steps := StoreFirst(s, steps);
  }

  lemma StoreFirst(s: State, early: seq<Step>) returns (steps: seq<Step>)
    requires Feasible(s, early)
    requires var t := Final(s, early);
             && |t.src| == MIB == |t.file| && !t.shutdown && t.rows == [Segment(0, MIB, 0)]
             && t.stage == Segmented([Cursor(0, Writing)])
    ensures Feasible(s, steps)
    ensures var t, src := Final(s, steps), Final(s, early).src;
            && t.src == src && |t.file| == MIB && t.file[0] == src[0] && t.stage == Idle && !t.shutdown
            && t.rows == [Segment(0, MIB, 1)]
  {
    steps := early;
    Extend(s, steps, WriteChunk(0, 1));
    steps := steps + [WriteChunk(0, 1)];
    steps := CountFirst(s, steps);
  }

  lemma CountFirst(s: State, early: seq<Step>) returns (steps: seq<Step>)
    requires Feasible(s, early)
    requires var t := Final(s, early);
             && |t.src| == MIB == |t.file| && t.file[0] == t.src[0] && !t.shutdown && t.rows == [Segment(0, MIB, 0)]
             && t.stage == Segmented([Cursor(1, Writing)])
    ensures Feasible(s, steps)
    ensures var t, src := Final(s, steps), Final(s, early).src;
            && t.src == src && |t.file| == MIB && t.file[0] == src[0] && t.stage == Idle && !t.shutdown
            && t.rows == [Segment(0, MIB, 1)]
  {
    steps := early;
    Extend(s, steps, SyncCursor(0));
    steps := steps + [SyncCursor(0)];
    Extend(s, steps, StoreCursor(0, false));
    steps := steps + [StoreCursor(0, false)];
    Extend(s, steps, Abandon);
    steps := steps + [Abandon];
  }

  /** The next run fetches everything behind the stored byte. */
  lemma FetchRest(s: State) returns (steps: seq<Step>)
    requires |s.src| == |s.file| == MIB && s.rows == [Segment(0, MIB, 1)] && s.stage == Idle && !s.shutdown
    ensures Feasible(s, steps)
    ensures var t := Final(s, steps);
            && t.stage == Segmented([Cursor(MIB, Writing)]) && t.rows == s.rows && t.src == s.src && !t.shutdown
            && |t.file| == MIB && t.file[0] == s.file[0] && t.file[1] == s.src[1]
  {
    Extend(s, [], Plan([], false));
    steps := [] + [Plan([], false)];
    Extend(s, steps, OpenSegmented);
    steps := steps + [OpenSegmented];
    Extend(s, steps, CountRows);
    steps := steps + [CountRows];
    var ready := Final(s, steps);
    assert ready.file == s.file && ready.rows == s.rows && ready.stage == Segmented([Cursor(1, Writing)]);
    steps := WriteRest(s, steps);
  }

  lemma WriteRest(s: State, early: seq<Step>) returns (steps: seq<Step>)
    requires Feasible(s, early)
    requires var t := Final(s, early);
             && |t.src| == |t.file| == MIB && t.rows == [Segment(0, MIB, 1)] && t.stage == Segmented([Cursor(1, Writing)])
    ensures Feasible(s, steps)
    ensures var t, u := Final(s, early), Final(s, steps);
            && u.stage == Segmented([Cursor(MIB, Writing)]) && u.rows == t.rows && u.src == t.src && u.shutdown == t.shutdown
            && |u.file| == MIB && u.file[0] == t.file[0] && u.file[1] == t.src[1]
  {
    var t := Final(s, early);
    Extend(s, early, WriteChunk(0, MIB - 1));
    steps := early + [WriteChunk(0, MIB - 1)];
    assert Final(s, steps).file == WriteAt(t.file, 1, t.src[1..MIB]);
    assert t.src[1..MIB][0] == t.src[1];
  }

  lemma PublishArrived(s: State, fetched: seq<Step>) returns (steps: seq<Step>)
    requires Feasible(s, fetched)
    requires var t := Final(s, fetched);
             && t.stage == Segmented([Cursor(MIB, Writing)]) && t.rows == [Segment(0, MIB, 1)] && !t.shutdown
             && |t.file| == |t.src| == MIB
    ensures Feasible(s, steps) && Final(s, steps).stage == Publishing(MIB)
    ensures Final(s, steps).file == Final(s, fetched).file
  {
    steps := fetched;
    Extend(s, steps, SyncCursor(0));
    steps := steps + [SyncCursor(0)];
    Extend(s, steps, StoreCursor(0, true));
    steps := steps + [StoreCursor(0, true)];
    Extend(s, steps, ReturnSegmented);
    steps := steps + [ReturnSegmented];
    Extend(s, steps, Publish);
    steps := steps + [Publish];
  }

  /** Stored rows are resumed without comparing validators. When the source was replaced by another one of the same
      length in between, the published file is neither of the two. */
  lemma SourceChangeMixes(one: Bytes, two: Bytes) returns (before: seq<Step>, after: seq<Step>)
    requires |one| == |two| == MIB && one[0] != two[0] && one[1] != two[1]
    ensures Feasible(Fresh(one), before) && Feasible(Final(Fresh(one), before).(src := two), after)
    ensures var t := Final(Final(Fresh(one), before).(src := two), after);
            t.stage == Publishing(MIB) && t.file != one && t.file != two
  {
    before := FirstByte(one);
    var s := Final(Fresh(one), before).(src := two);
    after := FetchRest(s);
    after := PublishArrived(s, after);
  }

  const HALF: nat := MIN_SEGMENT_BYTES

  /** Rows that leave a gap: of two segments only the second has arrived. */
  ghost predicate Gap(s: State, src: Bytes) {
    && s.src == src && |s.file| == 2 * HALF && s.file[0] == 0 && s.stage == Idle && !s.shutdown
    && s.rows == [Segment(0, HALF, 0), Segment(HALF, 2 * HALF, 2 * HALF)] && s.received == HALF
  }

  lemma SecondHalf(src: Bytes) returns (steps: seq<Step>)
    requires |src| == 2 * HALF
    ensures Feasible(Fresh(src), steps) && Gap(Final(Fresh(src), steps), src)
  {
    var s := Fresh(src);
    var plan := [Segment(0, HALF, 0), Segment(HALF, 2 * HALF, HALF)];
    Extend(s, [], Plan(plan, false));
    steps := [] + [Plan(plan, false)];
    Extend(s, steps, OpenSegmented);
    steps := steps + [OpenSegmented];
    Extend(s, steps, CountRows);
    steps := steps + [CountRows];
    var ready := Final(s, steps);
    assert ready.stage == Segmented([Cursor(0, Writing), Cursor(HALF, Writing)]) && ready.file == SetLen([], 2 * HALF);
    steps := StoreSecond(s, steps);
  }

  lemma TwoReceived(a: Segment, b: Segment)
    ensures Received([a, b]) == a.next - a.start + b.next - b.start
  {
    assert [a, b][1..] == [b] && [b][1..] == [];
    assert Received([b]) == b.next - b.start + Received([b][1..]);
  }

  lemma StoreSecond(s: State, early: seq<Step>) returns (steps: seq<Step>)
    requires Feasible(s, early)
    requires var t := Final(s, early);
             && |t.src| == 2 * HALF == |t.file| && t.file[0] == 0 && !t.shutdown
             && t.stage == Segmented([Cursor(0, Writing), Cursor(HALF, Writing)])
             && t.rows == [Segment(0, HALF, 0), Segment(HALF, 2 * HALF, HALF)]
    ensures Feasible(s, steps) && Gap(Final(s, steps), Final(s, early).src)
  {
    steps := early;
    Extend(s, steps, WriteChunk(1, HALF));
    steps := steps + [WriteChunk(1, HALF)];
    Extend(s, steps, SyncCursor(1));
    steps := steps + [SyncCursor(1)];
    steps := CountSecond(s, steps);
  }

  lemma CountSecond(s: State, early: seq<Step>) returns (steps: seq<Step>)
    requires Feasible(s, early)
    requires var t := Final(s, early);
             && |t.src| == 2 * HALF == |t.file| && t.file[0] == 0 && !t.shutdown
             && t.stage == Segmented([Cursor(0, Writing), Cursor(2 * HALF, Synced)])
             && t.rows == [Segment(0, HALF, 0), Segment(HALF, 2 * HALF, HALF)]
    ensures Feasible(s, steps) && Gap(Final(s, steps), Final(s, early).src)
  {
    steps := early;
    Extend(s, steps, StoreCursor(1, true));
    steps := steps + [StoreCursor(1, true)];
    var rows := [Segment(0, HALF, 0), Segment(HALF, 2 * HALF, 2 * HALF)];
    TwoReceived(rows[0], rows[1]);
    Extend(s, steps, Abandon);
    steps := steps + [Abandon];
  }

  /** The program starts a single stream on such rows all the same. It keeps the first half of the file, which was never
      fetched, fetches the second, and publishes the result. */
  lemma MixedModesGoWrong(src: Bytes) returns (steps: seq<Step>, rest: seq<Step>)
    requires |src| == 2 * HALF && src[0] != 0
    ensures Feasible(Fresh(src), steps) && PublishesOther(StartingSingle(Final(Fresh(src), steps), true), rest, src)
  {
    steps := SecondHalf(src);
    var t := StartingSingle(Final(Fresh(src), steps), true);
    rest := FetchBehind(t);
  }

  ghost predicate PublishesOther(s: State, rest: seq<Step>, src: Bytes) {
    Feasible(s, rest) && Final(s, rest).stage.Publishing? && Final(s, rest).file != src
  }

  lemma FetchBehind(s: State) returns (rest: seq<Step>)
    requires |s.src| == 2 * HALF && s.stage == Single(HALF, false) && |s.file| == HALF && s.file[0] != s.src[0] && !s.shutdown
    ensures PublishesOther(s, rest, s.src)
  {
    Extend(s, [], WriteSingle(HALF));
    rest := [] + [WriteSingle(HALF)];
    Extend(s, rest, EndSingle);
    rest := rest + [EndSingle];
    Extend(s, rest, Publish);
    rest := rest + [Publish];
    assert Final(s, rest).file[0] == s.file[0];
  }

  // ----- a partial that is gone

  /** A single stream started on an empty partial keeps the invariant exactly when nothing is counted. */
  lemma StartOnEmptyExact(s: State, validated: bool)
    requires Inv(s) && s.stage == Idle && s.file == []
    ensures Inv(StartingSingle(s, validated)) <==> s.received == 0
  {
    if s.rows != [] {
      AcceptedReceived(s.rows, |s.src|);
    }
    if s.received == 0 {
      NothingClaimed(StartingSingle(s, validated));
    }
  }

  /** And so does a plan. */
  lemma PlanOnEmptyExact(s: State, plan: seq<Segment>, validated: bool)
    requires Inv(s) && s.stage == Idle && s.file == [] && s.rows == [] && |s.src| >= MIB && IsPlan(plan, |s.src|, 0)
    ensures Inv(Planning(s, plan, validated)) <==> s.received == 0
  {
    if s.received == 0 {
      PlanInv(s, Plan(plan, validated));
    }
  }

  /** One byte was stored and the partial is gone. */
  ghost predicate Stale(s: State, src: Bytes) { Gone(s) && s.src == src && s.rows == [] && s.received == 1 && !s.shutdown }

  lemma StaleRun(src: Bytes) returns (steps: seq<Step>)
    requires src != []
    ensures Init(Fresh(src)) && Feasible(Fresh(src), steps) && Stale(Final(Fresh(src), steps), src)
  {
    var s := Fresh(src);
    Extend(s, [], StartSingle(true));
    steps := [] + [StartSingle(true)];
    Extend(s, steps, WriteSingle(1));
    steps := steps + [WriteSingle(1)];
    Extend(s, steps, SyncSingle);
    steps := steps + [SyncSingle];
    steps := StoreAndUnlink(s, steps);
  }

  lemma StoreAndUnlink(s: State, early: seq<Step>) returns (steps: seq<Step>)
    requires Feasible(s, early)
    requires var t := Final(s, early); t.stage == Single(1, true) && t.rows == [] && !t.shutdown
    ensures Feasible(s, steps) && Stale(Final(s, steps), Final(s, early).src)
  {
    steps := early;
    Extend(s, steps, StoreSingle);
    steps := steps + [StoreSingle];
    Extend(s, steps, Abandon);
    steps := steps + [Abandon];
    Extend(s, steps, Unlink);
    steps := steps + [Unlink];
  }

  /** The program starts a single stream on it all the same. Its first byte is lost in a power failure, and the next run
      takes whatever is there for the byte that was counted. */
  lemma StartOnEmptyGoesWrong(src: Bytes, bad: Byte) returns (steps: seq<Step>, rest: seq<Step>)
    requires |src| == 1 && bad != src[0]
    ensures Feasible(Fresh(src), steps) && PublishesOther(StartingSingle(Final(Fresh(src), steps), true), rest, src)
  {
    steps := StaleRun(src);
    rest := LoseFirst(StartingSingle(Final(Fresh(src), steps), true), bad);
  }

  lemma LoseFirst(s: State, bad: Byte) returns (rest: seq<Step>)
    requires |s.src| == 1 && bad != s.src[0] && s.file == [] && s.disk == [] && s.rows == [] && s.received == 1
    requires s.stage == Single(0, false)
    ensures PublishesOther(s, rest, s.src)
  {
    Extend(s, [], WriteSingle(1));
    rest := [] + [WriteSingle(1)];
    Extend(s, rest, PowerLoss([bad]));
    rest := rest + [PowerLoss([bad])];
    Extend(s, rest, StartSingle(true));
    rest := rest + [StartSingle(true)];
    Extend(s, rest, Publish);
    rest := rest + [Publish];
    assert Final(s, rest).file[0] == bad;
  }

  /** Or it plans segments and gives the file its length; when that run ends before it counts, a single stream takes the
      zeros for the byte that was counted. */
  lemma PlanOnEmptyGoesWrong(src: Bytes, plan: seq<Segment>) returns (steps: seq<Step>, rest: seq<Step>)
    requires |src| == MIB && src[0] != 0 && plan == [Segment(0, MIB, 0)]
    ensures Feasible(Fresh(src), steps) && PublishesOther(Planning(Final(Fresh(src), steps), plan, true), rest, src)
  {
    steps := StaleRun(src);
    rest := ResumeZeros(Planning(Final(Fresh(src), steps), plan, true));
  }

  lemma ResumeZeros(s: State) returns (rest: seq<Step>)
    requires |s.src| == MIB && s.src[0] != 0 && s.file == [] && s.rows == [Segment(0, MIB, 0)] && s.received == 1
    requires s.stage == Planned(true) && !s.shutdown
    ensures PublishesOther(s, rest, s.src)
  {
    Extend(s, [], OpenSegmented);
    rest := [] + [OpenSegmented];
    Extend(s, rest, Abandon);
    rest := rest + [Abandon];
    Extend(s, rest, StartSingle(true));
    rest := rest + [StartSingle(true)];
    rest := FetchBehindOne(s, rest);
  }

  lemma FetchBehindOne(s: State, early: seq<Step>) returns (rest: seq<Step>)
    requires Feasible(s, early)
    requires var t := Final(s, early);
             && t.src == s.src && |t.src| == MIB && t.stage == Single(1, false) && |t.file| == 1 && t.file[0] != t.src[0] && !t.shutdown
    ensures PublishesOther(s, rest, s.src)
  {
    rest := early;
    Extend(s, rest, WriteSingle(MIB - 1));
    rest := rest + [WriteSingle(MIB - 1)];
    Extend(s, rest, EndSingle);
    rest := rest + [EndSingle];
    Extend(s, rest, Publish);
    rest := rest + [Publish];
    assert Final(s, rest).file[0] == Final(s, early).file[0];
  }
}
