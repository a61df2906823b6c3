/** One trade channel of the collector: what was posted at the source, what the live stream
    brought, the durable receipts, checkpoint and recovery row, the recovery in progress, and
    what the backend acknowledged. Every durable write is an event of its own, so a crash may
    fall between any two. Coroutines interleave at awaits only. */
module CollectorProtocol {
  import opened Prelude

  /** A receipt waiting for delivery; create says that it carries a new message. */
  datatype Item = Item(seqNo: nat, id: nat, create: bool)

  /** The durable recovery row: re-read the source from this anchor. */
  datatype Row = Row(anchor: nat, gap: bool)

  datatype State = UNKNOWN | RECOVERING | READY | GAP | FORBIDDEN

  /** A recovery: reading history down to the anchor, then appending it, then waiting until
      the outbox is drained up to the watermark. snapshot is the newest message when the
      first page was read. */
  datatype Task =
    | Idle
    | Started(generation: nat)
    | Reading(generation: nat, anchor: nat)
    | Fetching(generation: nat, anchor: nat, snapshot: nat)
    | Fetched(generation: nat, anchor: nat, snapshot: nat, history: seq<nat>, complete: bool, appended: nat)
    | Draining(generation: nat, anchor: nat, snapshot: nat, watermark: nat, complete: bool)

  /** posted, latest, cursor, base and acked belong to the source, the stream and the
      backend: messages up to the cursor were streamed or fell before the session; messages
      up to the base were posted before the channel was first tracked. */
  datatype World = World(posted: set<nat>, latest: nat, cursor: nat, base: nat, acked: set<nat>,
                         outbox: seq<Item>, nextSeq: nat, checkpoint: Option<nat>, row: Option<Row>,
                         tracked: bool, halted: bool, generation: nat, state: State, task: Task, skipping: bool)

  datatype Event =
      // the source, the backend, other channels
    | Post(id: nat)
    | Receive
    | OtherReceipt
      // the process
    | Crash
    | Track(cursor: nat)
    | Untrack
    | BackendProgress(id: nat)
    | Halt
    | NewSession(cursor: nat)
    | Capture(id: nat)
    | CaptureChange(id: nat)
    | Schedule
    | Start
    | ReadHistory
    | FirstPage
    | HistoryRead(history: seq<nat>, complete: bool)
    | AppendHistory
    | AppendCard(id: nat)
    | Watermark(mark: nat)
    | Finish
    | Fail(forbidden: bool)
    | Leave
    | Advance
    | Remove
    | SkipGap
    | SkipRemove
    | SkipUntracked

  /** The recovery still belongs to the channel's current generation. */
  predicate Current(w: World) {
    w.tracked && w.task != Idle && w.task.generation == w.generation
  }

  /** Where the next recovery starts to read. */
  function Mark(w: World): nat {
    if w.row.Some? then w.row.value.anchor else Resume(w)
  }

  function Resume(w: World): nat {
    if w.checkpoint.Some? then w.checkpoint.value else w.base
  }

  function Begun(w: World): Row {
    if w.row.Some? then w.row.value else Row(Resume(w), false)
  }

  function MaxNat(a: nat, b: nat): nat {
    if a >= b then a else b
  }

  predicate Ascending(ids: seq<nat>) {
    forall i, j :: 0 <= i < j < |ids| ==> ids[i] < ids[j]
  }

  /** What bounded_history promises (module History). */
  predicate HistoryOk(w: World, history: seq<nat>, complete: bool)
    requires w.task.Fetching?
  {
    && Ascending(history)
    && (forall i :: 0 <= i < |history| ==> history[i] in w.posted && history[i] <= w.task.snapshot)
    && (complete ==> forall m :: m in w.posted && w.task.anchor < m <= w.task.snapshot ==> m in history)
  }

  predicate Enabled(w: World, e: Event) {
    && (w.skipping ==> e.Crash? || e.SkipRemove? || e.Post?)
    && match e
       case Post(id) => id > w.latest
       case Receive => |w.outbox| > 0
       case OtherReceipt => true
       case Crash => true
       case Track(cursor) => !w.tracked && w.cursor <= cursor <= w.latest
       case Untrack => w.tracked
       // The backend has what the collector owed it up to there; a channel that was never
       // tracked here owes it only what comes later.
       case BackendProgress(id) =>
         && w.checkpoint == None && id <= w.latest
         && (w.row.Some? ==> forall m :: m in w.posted && w.base < m <= id ==> m in w.acked)
       case Halt => true
       case NewSession(cursor) => w.tracked && w.cursor <= cursor <= w.latest
       // Creates arrive in order, none left out within a session.
       case Capture(id) =>
         && w.tracked && !w.halted && id in w.posted && id > w.cursor
         && forall m :: m in w.posted && w.cursor < m ==> id <= m
       case CaptureChange(id) => w.tracked && !w.halted
       case Schedule => w.tracked
       case Start => w.tracked && w.task == Idle
       case ReadHistory => w.task.Started? && Current(w)
       case FirstPage => w.task.Reading?
       case HistoryRead(history, complete) => w.task.Fetching? && HistoryOk(w, history, complete)
       case AppendHistory => w.task.Fetched? && w.task.appended < |w.task.history| && Current(w)
       case AppendCard(id) => w.task.Fetched? && Current(w)
       case Watermark(mark) =>
         && w.task.Fetched? && w.task.appended == |w.task.history| && Current(w) && mark < w.nextSeq
         && forall i :: 0 <= i < |w.outbox| ==> w.outbox[i].seqNo <= mark
       case Finish =>
         && w.task.Draining? && Current(w)
         && forall i :: 0 <= i < |w.outbox| ==> w.outbox[i].seqNo > w.task.watermark
       case Fail(forbidden) => Current(w)
       case Leave => w.task != Idle
       case Advance => |w.outbox| > 0 && w.outbox[0].create && w.outbox[0].id in w.acked
       case Remove => |w.outbox| > 0 && (w.outbox[0].create ==> w.outbox[0].id in w.acked)
       case SkipGap => w.tracked && |w.outbox| > 0
       case SkipRemove => w.skipping && |w.outbox| > 0
       case SkipUntracked => !w.tracked && |w.outbox| > 0
  }

  function Append(w: World, id: nat, create: bool): World {
    w.(outbox := w.outbox + [Item(w.nextSeq, id, create)], nextSeq := w.nextSeq + 1)
  }

  /** The first time a channel is tracked its baseline is now. */
  function FirstBase(w: World): World {
    if w.checkpoint == None && w.row == None then w.(base := w.latest) else w
  }

  function Apply(w: World, e: Event): World
    requires Enabled(w, e)
  {
    match e
    case Post(id) => w.(posted := w.posted + {id}, latest := id)
    case Receive => if w.outbox[0].create then w.(acked := w.acked + {w.outbox[0].id}) else w
    case OtherReceipt => w.(nextSeq := w.nextSeq + 1)
    case Crash => w.(tracked := false, halted := false, generation := 0, state := UNKNOWN, task := Idle, skipping := false)
    case Track(cursor) =>
      var v := FirstBase(w);
      v.(tracked := true, row := Some(Begun(v)), state := RECOVERING, cursor := cursor)
    case Untrack => w.(tracked := false, generation := w.generation + 1, state := UNKNOWN)
    case BackendProgress(id) => w.(checkpoint := Some(id), base := if w.row.None? then MaxNat(w.base, id) else w.base)
    case Halt => w.(halted := true)
    case NewSession(cursor) =>
      w.(generation := w.generation + 1, row := Some(Begun(w)), state := RECOVERING, cursor := cursor)
    case Capture(id) => Append(w, id, true).(cursor := id)
    case CaptureChange(id) => Append(w, id, false)
    case Schedule => w.(generation := w.generation + 1, row := Some(Begun(w)), state := RECOVERING)
    case Start => w.(task := Started(w.generation), state := RECOVERING)
    case ReadHistory =>
      w.(row := Some(Begun(w)), task := Reading(w.task.generation, Begun(w).anchor))
    case FirstPage => w.(task := Fetching(w.task.generation, w.task.anchor, w.latest))
    case HistoryRead(history, complete) =>
      w.(task := Fetched(w.task.generation, w.task.anchor, w.task.snapshot, history, complete, 0))
    case AppendHistory =>
      Append(w, w.task.history[w.task.appended], true).(task := w.task.(appended := w.task.appended + 1))
    case AppendCard(id) => Append(w, id, false)
    case Watermark(mark) =>
      w.(task := Draining(w.task.generation, w.task.anchor, w.task.snapshot, mark, w.task.complete))
    case Finish =>
      w.(checkpoint := Some(Resume(w)), task := Idle,
      row := if w.task.complete || w.row.None? then None else Some(w.row.value.(gap := true)),
      state := if w.task.complete then READY else GAP)
    case Fail(forbidden) =>
      w.(row := if w.row.None? then None else Some(w.row.value.(gap := true)),
      state := if forbidden then FORBIDDEN else GAP, task := Idle)
    case Leave => w.(task := Idle)
    case Advance => w.(checkpoint := Some(MaxNat(if w.checkpoint.Some? then w.checkpoint.value else 0, w.outbox[0].id)))
    case Remove => w.(outbox := w.outbox[1..])
    case SkipGap =>
      w.(generation := w.generation + 1, row := Some(Begun(w).(gap := true)), state := GAP, skipping := true)
    case SkipRemove => w.(outbox := w.outbox[1..], skipping := false)
    case SkipUntracked => w.(outbox := w.outbox[1..])
  }

  predicate Init(w: World) {
    && w.posted == {} && w.latest == 0 && w.cursor == 0 && w.base == 0 && w.acked == {}
    && w.outbox == [] && w.nextSeq == 1 && w.checkpoint == None && w.row == None
    && !w.tracked && !w.halted && w.generation == 0 && w.state == UNKNOWN && w.task == Idle && !w.skipping
  }

  ghost function After(w: World, run: seq<Event>): World {
    if run == [] then w
    else
      var before := After(w, run[..|run| - 1]);
      if Enabled(before, run[|run| - 1]) then Apply(before, run[|run| - 1]) else before
  }

  ghost predicate Legal(w: World, run: seq<Event>) {
    run == [] ||
    (Legal(w, run[..|run| - 1]) && Enabled(After(w, run[..|run| - 1]), run[|run| - 1]))
  }

  lemma Extend(w: World, run: seq<Event>, e: Event)
    requires Legal(w, run) && Enabled(After(w, run), e)
    ensures Legal(w, run + [e]) && After(w, run + [e]) == Apply(After(w, run), e)
  {
    hide Enabled, Apply;
    assert (run + [e])[..|run|] == run;
  }

  // ---- What holds in every reachable state -------------------------------------------------

  /** A message the collector owes to the backend. */
  predicate Owed(w: World, m: nat) {
    m in w.posted && w.base < m
  }

  predicate QueuedBy(w: World, m: nat, mark: nat) {
    exists i :: 0 <= i < |w.outbox| && w.outbox[i].create && w.outbox[i].id == m && w.outbox[i].seqNo <= mark
  }

  predicate Queued(w: World, m: nat) {
    exists i :: 0 <= i < |w.outbox| && w.outbox[i].create && w.outbox[i].id == m
  }

  /** Everything owed up to n reached the backend. */
  ghost predicate AllAcked(w: World, n: nat) {
    forall m: nat :: Owed(w, m) && m <= n ==> m in w.acked
  }

  /** Everything owed in between reached the backend or is still in the outbox. */
  ghost predicate Covered(w: World, lo: nat, hi: nat) {
    forall m: nat :: Owed(w, m) && lo < m <= hi ==> m in w.acked || Queued(w, m)
  }

  /** Receipts after the watermark that are still owed and newer than n come in the order of
      their messages, after every other receipt and above the checkpoint. */
  ghost predicate InOrder(w: World, n: nat, mark: nat) {
    forall j :: 0 <= j < |w.outbox| && Fresh(w, j, n, mark) ==>
                  && (w.checkpoint.Some? ==> w.checkpoint.value < w.outbox[j].id)
                  && forall i :: 0 <= i < j && w.outbox[i].create ==> w.outbox[i].id < w.outbox[j].id
  }

  predicate Fresh(w: World, j: nat, n: nat, mark: nat)
    requires j < |w.outbox|
  {
    var item := w.outbox[j];
    item.create && item.seqNo > mark && item.id > n && Owed(w, item.id) && item.id !in w.acked
  }

  ghost predicate CreatesUpTo(w: World, n: nat, mark: nat) {
    forall i :: 0 <= i < |w.outbox| && w.outbox[i].create && w.outbox[i].seqNo > mark ==> w.outbox[i].id <= n
  }

  ghost predicate Limits(w: World) {
    && w.cursor <= w.latest && w.base <= w.latest && w.nextSeq > 0
    && (forall m :: m in w.posted ==> m <= w.latest)
    && (w.checkpoint.Some? ==> w.checkpoint.value <= w.latest)
    && (w.row.Some? ==> w.row.value.anchor <= w.latest)
  }

  /** Receipts are numbered in order and carry messages that were posted. */
  ghost predicate Numbered(w: World) {
    && CreatesUpTo(w, w.latest, 0)
    && (forall i :: 0 <= i < |w.outbox| ==> 0 < w.outbox[i].seqNo < w.nextSeq)
    && (forall i, j :: 0 <= i < j < |w.outbox| ==> w.outbox[i].seqNo < w.outbox[j].seqNo)
  }

  ghost predicate Tasks(w: World) {
    && (w.task != Idle ==> w.task.generation <= w.generation)
    && (w.task != Idle && !w.tracked ==> w.task.generation < w.generation)
    && (w.task.Fetching? || w.task.Fetched? || w.task.Draining? ==> w.task.snapshot <= w.latest)
    && (w.task.Fetched? ==> forall k :: 0 <= k < |w.task.history| ==> w.task.history[k] <= w.latest)
    && (w.skipping ==> w.row.Some? && !Current(w))
    && (w.state == READY ==> w.row == None && w.tracked && !Current(w))
  }

  ghost predicate Basics(w: World) {
    Limits(w) && Numbered(w) && Tasks(w)
  }

  /** Without a recovery row everything streamed so far is delivered or waiting, in order. */
  ghost predicate Clean(w: World) {
    && AllAcked(w, Resume(w)) && Covered(w, 0, w.cursor)
    && CreatesUpTo(w, w.cursor, 0) && InOrder(w, 0, 0)
  }

  /** The recovery in progress: what was streamed since its snapshot is delivered or waiting. */
  ghost predicate Progress(w: World) {
    match w.task
    case Idle => true
    case Started(_) => true
    case Reading(_, anchor) => w.row.Some? && w.row.value.anchor == anchor
    case Fetching(_, anchor, snapshot) =>
      && w.row.Some? && w.row.value.anchor == anchor && SinceSnapshot(w, snapshot)
    case Fetched(_, anchor, snapshot, history, complete, appended) =>
      && w.row.Some? && w.row.value.anchor == anchor && SinceSnapshot(w, snapshot)
      && appended <= |history|
      && (forall k :: 0 <= k < |history| ==> history[k] <= snapshot)
      && (forall k :: 0 <= k < appended ==> history[k] in w.acked || Queued(w, history[k]))
      && (complete ==> forall m: nat :: Owed(w, m) && anchor < m <= snapshot ==> m in history)
    case Draining(_, anchor, snapshot, mark, complete) =>
      && w.row.Some? && w.row.value.anchor == anchor && SinceSnapshot(w, snapshot)
      && mark < w.nextSeq && CreatesUpTo(w, w.cursor, mark) && InOrder(w, snapshot, mark)
      && (complete ==> forall m: nat :: Owed(w, m) && anchor < m <= snapshot ==> m in w.acked || QueuedBy(w, m, mark))
  }

  ghost predicate SinceSnapshot(w: World, snapshot: nat) {
    var top := MaxNat(snapshot, w.cursor);
    && Covered(w, snapshot, w.cursor) && CreatesUpTo(w, top, 0)
    && (w.checkpoint.Some? ==> w.checkpoint.value <= top || AllAcked(w, w.checkpoint.value))
  }

  ghost predicate Sound(w: World) {
    && Basics(w)
    && (w.row.Some? ==> AllAcked(w, w.row.value.anchor))
    && (w.row.None? ==> Clean(w))
    && (Current(w) ==> Progress(w))
  }

  /** The outbox without its head. */
  function Dropped(w: World): World
    requires |w.outbox| > 0
  {
    w.(outbox := w.outbox[1..])
  }

  /** Without a recovery row the head is the only trace of a message the backend still has to get. */
  predicate Loses(w: World) {
    && w.row == None && |w.outbox| > 0 && w.outbox[0].create
    && Owed(w, w.outbox[0].id) && w.outbox[0].id !in w.acked && !Queued(Dropped(w), w.outbox[0].id)
  }

  /** The one step the code takes without a durable trace: such a head is dropped because its
      channel is no longer tracked. */
  predicate Forgets(w: World, e: Event) {
    e.SkipUntracked? && Loses(w)
  }
}
