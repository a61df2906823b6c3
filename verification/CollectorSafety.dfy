/** No message of a tracked channel is lost, over every legal run of the collector. */
module CollectorSafety {
  import opened Prelude
  import opened CollectorProtocol

  lemma SoundInit(w: World)
    requires Init(w)
    ensures Sound(w)
  {
  }

  predicate Appends(e: Event) {
    e.Capture? || e.CaptureChange? || e.AppendHistory? || e.AppendCard?
  }

  predicate Removes(e: Event) {
    e.Remove? || e.SkipRemove? || e.SkipUntracked?
  }

  // ---- Basics ------------------------------------------------------------------------------

  /** Only delivery moves the checkpoint up, to a message that was posted. */
  lemma LimitsAdvance(w: World)
    requires Limits(w) && Numbered(w) && Enabled(w, Advance)
    ensures Limits(Apply(w, Advance))
  {
  }

  lemma LimitsOther(w: World, e: Event)
    requires Limits(w) && Enabled(w, e) && !e.Advance?
    ensures Limits(Apply(w, e))
  {
  }

  lemma LimitsStep(w: World, e: Event)
    requires Limits(w) && Numbered(w) && Enabled(w, e)
    ensures Limits(Apply(w, e))
  {
    hide Limits, Numbered, Enabled, Apply;
    if e.Advance? {
      LimitsAdvance(w);
    } else {
      LimitsOther(w, e);
    }
  }

  lemma NumberedAppend(w: World, id: nat, create: bool)
    requires Numbered(w) && w.nextSeq > 0 && (create ==> id <= w.latest)
    ensures Numbered(Append(w, id, create))
  {
  }

  lemma NumberedRemove(w: World)
    requires Numbered(w) && |w.outbox| > 0
    ensures Numbered(w.(outbox := w.outbox[1..]))
  {
  }

  lemma NumberedFrame(w: World, v: World)
    requires Numbered(w) && v.outbox == w.outbox && v.latest >= w.latest && v.nextSeq >= w.nextSeq
    ensures Numbered(v)
  {
  }

  lemma OutboxAppends(w: World, e: Event)
    requires Limits(w) && Tasks(w) && Enabled(w, e) && Appends(e)
    ensures var v := Apply(w, e);
            && |v.outbox| == |w.outbox| + 1
            && var item := v.outbox[|w.outbox|];
            && v.outbox == Append(w, item.id, item.create).outbox && v.nextSeq == w.nextSeq + 1
            && v.latest == w.latest && (item.create ==> item.id <= w.latest)
  {
  }

  lemma OutboxOther(w: World, e: Event)
    requires Limits(w) && Enabled(w, e) && !Appends(e)
    ensures var v := Apply(w, e);
            && v.latest >= w.latest && v.nextSeq >= w.nextSeq
            && (if Removes(e) then |w.outbox| > 0 && v.outbox == w.outbox[1..] else v.outbox == w.outbox)
  {
  }

  lemma NumberedStep(w: World, e: Event)
    requires Limits(w) && Numbered(w) && Tasks(w) && Enabled(w, e)
    ensures Numbered(Apply(w, e))
  {
    hide Numbered, Tasks, Enabled, Apply;
    var v := Apply(w, e);
    if Appends(e) {
      OutboxAppends(w, e);
      var item := v.outbox[|w.outbox|];
      NumberedAppend(w, item.id, item.create);
      NumberedFrame(Append(w, item.id, item.create), v);
    } else {
      OutboxOther(w, e);
      if Removes(e) {
        NumberedRemove(w);
        NumberedFrame(w.(outbox := w.outbox[1..]), v);
      } else {
        NumberedFrame(w, v);
      }
    }
  }

  lemma TasksStep(w: World, e: Event)
    requires Limits(w) && Tasks(w) && Enabled(w, e)
    ensures Tasks(Apply(w, e))
  {
  }

  lemma BasicsStep(w: World, e: Event)
    requires Basics(w) && Enabled(w, e)
    ensures Basics(Apply(w, e))
  {
    hide Limits, Numbered, Tasks, Enabled, Apply;
    LimitsStep(w, e);
    NumberedStep(w, e);
    TasksStep(w, e);
  }

  // ---- Putting receipts in and taking them out -----------------------------------------

  lemma AppendKeeps(w: World, id: nat, create: bool, m: nat)
    requires Queued(w, m)
    ensures Queued(Append(w, id, create), m)
  {
    var i :| 0 <= i < |w.outbox| && w.outbox[i].create && w.outbox[i].id == m;
    assert Append(w, id, create).outbox[i] == w.outbox[i];
  }

  lemma AppendKeepsBy(w: World, id: nat, create: bool, m: nat, mark: nat)
    requires QueuedBy(w, m, mark)
    ensures QueuedBy(Append(w, id, create), m, mark)
  {
    var i :| 0 <= i < |w.outbox| && w.outbox[i].create && w.outbox[i].id == m && w.outbox[i].seqNo <= mark;
    assert Append(w, id, create).outbox[i] == w.outbox[i];
  }

  lemma AppendQueues(w: World, id: nat)
    ensures Queued(Append(w, id, true), id)
  {
    var v := Append(w, id, true);
    assert v.outbox[|w.outbox|].create && v.outbox[|w.outbox|].id == id;
  }

  /** Taking out a delivered receipt leaves every undelivered message waiting. */
  lemma DropKeeps(w: World, m: nat, mark: nat)
    requires |w.outbox| > 0 && (w.outbox[0].create ==> w.outbox[0].id != m)
    ensures Queued(w, m) ==> Queued(Dropped(w), m)
    ensures QueuedBy(w, m, mark) ==> QueuedBy(Dropped(w), m, mark)
  {
    var v := Dropped(w);
    if Queued(w, m) {
      var i :| 0 <= i < |w.outbox| && w.outbox[i].create && w.outbox[i].id == m;
      assert v.outbox[i - 1] == w.outbox[i];
    }
    if QueuedBy(w, m, mark) {
      var i :| 0 <= i < |w.outbox| && w.outbox[i].create && w.outbox[i].id == m && w.outbox[i].seqNo <= mark;
      assert v.outbox[i - 1] == w.outbox[i];
    }
  }

  /** The same receipts, more of them delivered, nothing more owed below the bound. */
  predicate Eases(w: World, v: World, n: nat) {
    && v.outbox == w.outbox && w.acked <= v.acked && v.checkpoint == w.checkpoint
    && forall m: nat :: Owed(v, m) && m <= n ==> Owed(w, m)
  }

  lemma CoveredEase(w: World, v: World, lo: nat, hi: nat)
    requires Eases(w, v, hi) && Covered(w, lo, hi)
    ensures Covered(v, lo, hi)
  {
    forall m: nat | Owed(v, m) && lo < m <= hi ensures m in v.acked || Queued(v, m) {
      assert Owed(w, m);
      if m !in w.acked {
        var i :| 0 <= i < |w.outbox| && w.outbox[i].create && w.outbox[i].id == m;
        assert v.outbox[i].id == m;
      }
    }
  }

  lemma InOrderEase(w: World, v: World, n: nat, mark: nat)
    requires Eases(w, v, w.latest) && InOrder(w, n, mark) && CreatesUpTo(w, w.latest, 0)
    requires forall i :: 0 <= i < |w.outbox| ==> 0 < w.outbox[i].seqNo
    ensures InOrder(v, n, mark)
  {
    forall j | 0 <= j < |v.outbox| && Fresh(v, j, n, mark) ensures Fresh(w, j, n, mark) {
    }
  }

  lemma CreatesEase(w: World, v: World, n: nat, mark: nat)
    requires v.outbox == w.outbox && CreatesUpTo(w, n, mark)
    ensures CreatesUpTo(v, n, mark)
  {
  }

  /** A state without a row stays clean when the source posts or the backend receives. */
  lemma CleanEase(w: World, v: World)
    requires Limits(w) && Numbered(w) && Clean(w) && Eases(w, v, w.latest)
    requires v.cursor == w.cursor && v.base >= w.base && (v.checkpoint == None ==> v.base == w.base)
    ensures Clean(v)
  {
    CoveredEase(w, v, 0, w.cursor);
    InOrderEase(w, v, 0, 0);
  }

  lemma SinceEase(w: World, v: World, snapshot: nat)
    requires Limits(w) && Numbered(w) && SinceSnapshot(w, snapshot) && Eases(w, v, w.latest) && v.cursor == w.cursor
    ensures SinceSnapshot(v, snapshot)
  {
    CoveredEase(w, v, snapshot, w.cursor);
  }

  lemma ProgressEase(w: World, v: World)
    requires Limits(w) && Numbered(w) && Tasks(w) && Progress(w) && Eases(w, v, w.latest)
    requires v.cursor == w.cursor && v.task == w.task && v.row == w.row && v.nextSeq >= w.nextSeq
    ensures Progress(v)
  {
    var t := w.task;
    if t.Fetching? || t.Fetched? || t.Draining? {
      SinceEase(w, v, t.snapshot);
    }
    if t.Fetched? {
      forall k | 0 <= k < t.appended ensures t.history[k] in v.acked || Queued(v, t.history[k]) {
        if t.history[k] !in w.acked {
          QueuedSame(w, v, t.history[k], 0);
        }
      }
    }
    if t.Draining? {
      InOrderEase(w, v, t.snapshot, t.watermark);
      forall m: nat | t.complete && Owed(v, m) && t.anchor < m <= t.snapshot
        ensures m in v.acked || QueuedBy(v, m, t.watermark)
      {
        assert Owed(w, m);
        QueuedSame(w, v, m, t.watermark);
      }
    }
  }

  lemma QueuedSame(w: World, v: World, m: nat, mark: nat)
    requires v.outbox == w.outbox
    ensures Queued(w, m) ==> Queued(v, m)
    ensures QueuedBy(w, m, mark) ==> QueuedBy(v, m, mark)
  {
    if Queued(w, m) {
      var i :| 0 <= i < |w.outbox| && w.outbox[i].create && w.outbox[i].id == m;
      assert v.outbox[i].id == m;
    }
    if QueuedBy(w, m, mark) {
      var i :| 0 <= i < |w.outbox| && w.outbox[i].create && w.outbox[i].id == m && w.outbox[i].seqNo <= mark;
      assert v.outbox[i].id == m;
    }
  }

  // ---- One step ---------------------------------------------------------------------------

  ghost predicate Parts(w: World) {
    && (w.row.Some? ==> AllAcked(w, w.row.value.anchor))
    && (w.row.None? ==> Clean(w))
    && (Current(w) ==> Progress(w))
  }

  predicate SameAnchor(w: World, v: World) {
    if w.row.None? then v.row.None? else v.row.Some? && v.row.value.anchor == w.row.value.anchor
  }

  /** Nothing in the outbox moves: the source posts, the backend receives, the process stops,
      a recovery ends without success. */
  lemma EasySound(w: World, v: World)
    requires Sound(w) && Eases(w, v, w.latest) && v.cursor == w.cursor && v.base == w.base
    requires SameAnchor(w, v)
    requires Current(v) ==> Current(w) && v.task == w.task && v.row == w.row && v.nextSeq >= w.nextSeq
    ensures Parts(v)
  {
    hide Numbered, Tasks, Clean, Progress;
    if v.row.None? {
      CleanEase(w, v);
    }
    if Current(v) {
      ProgressEase(w, v);
    }
  }

  predicate Quiet(e: Event) {
    || e.Post? || e.Receive? || e.OtherReceipt? || e.Crash? || e.Untrack? || e.Halt? || e.Fail? || e.Leave?
  }

  lemma QuietEases(w: World, e: Event)
    requires Limits(w) && Tasks(w) && Enabled(w, e) && Quiet(e)
    ensures var v := Apply(w, e);
            && Eases(w, v, w.latest) && v.cursor == w.cursor && v.base == w.base && SameAnchor(w, v)
            && (Current(v) ==> Current(w) && v.task == w.task && v.row == w.row && v.nextSeq >= w.nextSeq)
  {
  }

  /** A new row takes the mark of a clean channel; no recovery is current then. */
  predicate Begins(e: Event) {
    e.Track? || e.NewSession? || e.Schedule? || e.SkipGap?
  }

  lemma BeginsSound(w: World, e: Event)
    requires Sound(w) && Enabled(w, e) && Begins(e)
    ensures Parts(Apply(w, e))
  {
    hide Progress, Covered, CreatesUpTo, InOrder, Numbered;
  }

  /** A channel that has neither row nor checkpoint owes what is above the backend's mark. */
  lemma NeverTracked(w: World, id: nat)
    requires Clean(w) && w.row == None && Enabled(w, BackendProgress(id))
    ensures Clean(Apply(w, BackendProgress(id)))
  {
    var v := Apply(w, BackendProgress(id));
    forall m: nat | Owed(v, m) && 0 < m <= v.cursor ensures m in v.acked || Queued(v, m) {
      assert Owed(w, m);
      QueuedSame(w, v, m, 0);
    }
    forall j | 0 <= j < |v.outbox| && Fresh(v, j, 0, 0) ensures Fresh(w, j, 0, 0) {
    }
  }

  lemma BackendProgressSound(w: World, id: nat)
    requires Sound(w) && Enabled(w, BackendProgress(id))
    ensures Parts(Apply(w, BackendProgress(id)))
  {
    var v := Apply(w, BackendProgress(id));
    hide Numbered, Tasks, Limits, CreatesUpTo;
    if w.row.None? {
      NeverTracked(w, id);
    }
    if Current(w) && w.row.Some? && (w.task.Fetching? || w.task.Fetched? || w.task.Draining?) {
      CoveredSame(w, v, w.task.snapshot, w.cursor);
      if w.task.Fetched? {
        forall k | 0 <= k < w.task.appended && Queued(w, w.task.history[k]) ensures Queued(v, w.task.history[k]) {
          QueuedSame(w, v, w.task.history[k], 0);
        }
      }
      if w.task.Draining? {
        InOrderAcked(w, v, w.task.snapshot, w.task.watermark);
        forall m: nat | QueuedBy(w, m, w.task.watermark) ensures QueuedBy(v, m, w.task.watermark) {
          QueuedSame(w, v, m, w.task.watermark);
        }
      }
    }
  }

  lemma CoveredSame(w: World, v: World, lo: nat, hi: nat)
    requires Covered(w, lo, hi) && v.posted == w.posted && v.base == w.base && v.acked == w.acked && v.outbox == w.outbox
    ensures Covered(v, lo, hi)
  {
    forall m: nat | Queued(w, m) ensures Queued(v, m) {
      QueuedSame(w, v, m, 0);
    }
  }

  /** A checkpoint below which everything was acknowledged is below every fresh receipt. */
  lemma InOrderAcked(w: World, v: World, n: nat, mark: nat)
    requires InOrder(w, n, mark) && v.posted == w.posted && v.base == w.base && v.acked == w.acked && v.outbox == w.outbox
    requires v.checkpoint.Some? && AllAcked(w, v.checkpoint.value)
    ensures InOrder(v, n, mark)
  {
    forall j | 0 <= j < |v.outbox| && Fresh(v, j, n, mark) ensures Fresh(w, j, n, mark) {
    }
  }

  predicate Works(e: Event) {
    e.Start? || e.ReadHistory? || e.FirstPage? || e.HistoryRead? || e.Watermark?
  }

  lemma StartSound(w: World, e: Event)
    requires Sound(w) && Enabled(w, e) && (e.Start? || e.ReadHistory?)
    ensures Parts(Apply(w, e))
  {
    var v := Apply(w, e);
    hide Numbered, Tasks, CreatesUpTo, InOrder, Covered;
    if w.row.None? && v.row.None? {
      CleanSame(w, v);
    }
  }

  lemma CleanSame(w: World, v: World)
    requires Clean(w) && v.posted == w.posted && v.base == w.base && v.acked == w.acked && v.outbox == w.outbox
    requires v.checkpoint == w.checkpoint && v.cursor == w.cursor
    ensures Clean(v)
  {
    CoveredSame(w, v, 0, w.cursor);
    InOrderSame(w, v, 0, 0);
  }

  lemma InOrderSame(w: World, v: World, n: nat, mark: nat)
    requires InOrder(w, n, mark) && v.posted == w.posted && v.base == w.base && v.acked == w.acked && v.outbox == w.outbox
    requires v.checkpoint == w.checkpoint
    ensures InOrder(v, n, mark)
  {
    forall j | 0 <= j < |v.outbox| && Fresh(v, j, n, mark) ensures Fresh(w, j, n, mark) {
    }
  }

  /** The first page is read: nothing newer than the snapshot was streamed yet. */
  lemma FirstPageSound(w: World)
    requires Sound(w) && Enabled(w, FirstPage)
    ensures Parts(Apply(w, FirstPage))
  {
    var v := Apply(w, FirstPage);
    if w.row.None? {
      CleanSame(w, v);
    }
    hide InOrder, QueuedBy, Queued;
  }

  lemma HistoryReadSound(w: World, history: seq<nat>, complete: bool)
    requires Sound(w) && Enabled(w, HistoryRead(history, complete))
    ensures Parts(Apply(w, HistoryRead(history, complete)))
  {
    var v := Apply(w, HistoryRead(history, complete));
    if w.row.None? {
      CleanSame(w, v);
    }
    if Current(w) {
      CoveredSame(w, v, w.task.snapshot, w.cursor);
    }
    hide InOrder, QueuedBy, Queued, Covered, Numbered, Clean;
  }

  /** All of the history is in the outbox, below the watermark. */
  lemma WatermarkSound(w: World, mark: nat)
    requires Sound(w) && Enabled(w, Watermark(mark))
    ensures Parts(Apply(w, Watermark(mark)))
  {
    var v, t := Apply(w, Watermark(mark)), w.task;
    CoveredSame(w, v, t.snapshot, w.cursor);
    forall m: nat | t.complete && Owed(v, m) && t.anchor < m <= t.snapshot
      ensures m in v.acked || QueuedBy(v, m, mark)
    {
      assert Owed(w, m);
      var k :| 0 <= k < |t.history| && t.history[k] == m;
      if m !in w.acked {
        AllBelow(w, v, m, mark);
      }
    }
    hide Covered, Numbered, Clean;
  }

  lemma AllBelow(w: World, v: World, m: nat, mark: nat)
    requires Queued(w, m) && v.outbox == w.outbox && forall i :: 0 <= i < |w.outbox| ==> w.outbox[i].seqNo <= mark
    ensures QueuedBy(v, m, mark)
  {
    var i :| 0 <= i < |w.outbox| && w.outbox[i].create && w.outbox[i].id == m;
    assert v.outbox[i].id == m;
  }

  // ---- Appending ----------------------------------------------------------------------------

  /** One receipt more, and nothing else that the guarantees look at. */
  predicate Longer(w: World, v: World, id: nat, create: bool) {
    && v.outbox == w.outbox + [Item(w.nextSeq, id, create)] && v.nextSeq == w.nextSeq + 1
    && v.posted == w.posted && v.latest == w.latest && v.base == w.base && v.acked == w.acked
    && v.checkpoint == w.checkpoint && v.row == w.row
  }

  lemma LongerQueues(w: World, v: World, id: nat, create: bool, m: nat, mark: nat)
    requires Longer(w, v, id, create)
    ensures Queued(w, m) ==> Queued(v, m)
    ensures QueuedBy(w, m, mark) ==> QueuedBy(v, m, mark)
    ensures create ==> Queued(v, id)
  {
    if Queued(w, m) {
      AppendKeeps(w, id, create, m);
      QueuedSame(Append(w, id, create), v, m, 0);
    }
    if QueuedBy(w, m, mark) {
      AppendKeepsBy(w, id, create, m, mark);
      QueuedSame(Append(w, id, create), v, m, mark);
    }
    if create {
      AppendQueues(w, id);
      QueuedSame(Append(w, id, true), v, id, 0);
    }
  }

  lemma CoveredLonger(w: World, v: World, id: nat, create: bool, lo: nat, hi: nat)
    requires Longer(w, v, id, create) && Covered(w, lo, hi)
    ensures Covered(v, lo, hi)
  {
    forall m: nat | Owed(v, m) && lo < m <= hi ensures m in v.acked || Queued(v, m) {
      assert Owed(w, m);
      LongerQueues(w, v, id, create, m, 0);
    }
  }

  /** The next message of the stream extends what is covered. */
  lemma CoveredCapture(w: World, v: World, id: nat, lo: nat)
    requires Longer(w, v, id, true) && Covered(w, lo, w.cursor)
    requires id > w.cursor && forall m :: m in w.posted && w.cursor < m ==> id <= m
    ensures Covered(v, lo, id)
  {
    forall m: nat | Owed(v, m) && lo < m <= id ensures m in v.acked || Queued(v, m) {
      assert Owed(w, m);
      LongerQueues(w, v, id, true, m, 0);
    }
  }

  /** A receipt that carries no message, or comes after all others, keeps the order. */
  lemma InOrderLonger(w: World, v: World, id: nat, create: bool, n: nat, mark: nat)
    requires Longer(w, v, id, create) && InOrder(w, n, mark)
    requires create && id > n && Owed(w, id) && id !in w.acked ==>
               && CreatesUpTo(w, id - 1, 0) && (w.checkpoint.Some? ==> w.checkpoint.value < id)
    requires forall i :: 0 <= i < |w.outbox| ==> 0 < w.outbox[i].seqNo
    ensures InOrder(v, n, mark)
  {
    forall j | 0 <= j < |v.outbox| && Fresh(v, j, n, mark)
      ensures v.checkpoint.Some? ==> v.checkpoint.value < v.outbox[j].id
      ensures forall i :: 0 <= i < j && v.outbox[i].create ==> v.outbox[i].id < v.outbox[j].id
    {
      if j < |w.outbox| {
        assert Fresh(w, j, n, mark);
      }
    }
  }

  lemma CaptureClean(w: World, v: World, id: nat)
    requires Clean(w) && Numbered(w) && Longer(w, v, id, true) && v.cursor == id
    requires id in w.posted && id > w.cursor && forall m :: m in w.posted && w.cursor < m ==> id <= m
    ensures Clean(v)
  {
    CoveredCapture(w, v, id, 0);
    if Owed(w, id) && id !in w.acked {
      assert w.checkpoint.Some? ==> w.checkpoint.value < id;
    }
    InOrderLonger(w, v, id, true, 0, 0);
  }

  lemma CaptureSince(w: World, v: World, id: nat, snapshot: nat)
    requires SinceSnapshot(w, snapshot) && Longer(w, v, id, true) && v.cursor == id
    requires id in w.posted && id > w.cursor && forall m :: m in w.posted && w.cursor < m ==> id <= m
    ensures SinceSnapshot(v, snapshot)
  {
    CoveredCapture(w, v, id, snapshot);
  }

  lemma CaptureOrder(w: World, v: World, id: nat, snapshot: nat, mark: nat)
    requires SinceSnapshot(w, snapshot) && InOrder(w, snapshot, mark) && Numbered(w)
    requires Longer(w, v, id, true) && id in w.posted && id > w.cursor
    ensures InOrder(v, snapshot, mark)
  {
    if id > snapshot && Owed(w, id) && id !in w.acked {
      assert w.checkpoint.Some? ==> w.checkpoint.value < id;
      assert CreatesUpTo(w, id - 1, 0);
    }
    InOrderLonger(w, v, id, true, snapshot, mark);
  }

  lemma QueuedLonger(w: World, v: World, id: nat, create: bool)
    requires Longer(w, v, id, create)
    ensures forall m: nat :: Queued(w, m) ==> Queued(v, m)
    ensures forall m: nat, mark: nat :: QueuedBy(w, m, mark) ==> QueuedBy(v, m, mark)
  {
    forall m: nat | Queued(w, m) ensures Queued(v, m) {
      LongerQueues(w, v, id, create, m, 0);
    }
    forall m: nat, mark: nat | QueuedBy(w, m, mark) ensures QueuedBy(v, m, mark) {
      LongerQueues(w, v, id, create, m, mark);
    }
  }

  lemma CaptureSound(w: World, id: nat)
    requires Sound(w) && Enabled(w, Capture(id))
    ensures Parts(Apply(w, Capture(id)))
  {
    var v, t := Apply(w, Capture(id)), w.task;
    assert Longer(w, v, id, true);
    if w.row.None? {
      CaptureClean(w, v, id);
    }
    if Current(w) && (t.Fetching? || t.Fetched? || t.Draining?) {
      CaptureSince(w, v, id, t.snapshot);
      QueuedLonger(w, v, id, true);
      if t.Draining? {
        CaptureOrder(w, v, id, t.snapshot, t.watermark);
      }
      hide InOrder, Queued, QueuedBy, Clean, SinceSnapshot;
    }
  }

  /** Edits, deletions and cards carry no message of their own. */
  lemma ChangeSound(w: World, e: Event)
    requires Sound(w) && Enabled(w, e) && (e.CaptureChange? || e.AppendCard?)
    ensures Parts(Apply(w, e))
  {
    var v, t := Apply(w, e), w.task;
    assert Longer(w, v, e.id, false);
    if w.row.None? {
      CoveredLonger(w, v, e.id, false, 0, w.cursor);
      InOrderLonger(w, v, e.id, false, 0, 0);
    }
    if Current(w) && (t.Fetching? || t.Fetched? || t.Draining?) {
      CoveredLonger(w, v, e.id, false, t.snapshot, w.cursor);
      QueuedLonger(w, v, e.id, false);
      if t.Draining? {
        InOrderLonger(w, v, e.id, false, t.snapshot, t.watermark);
      }
    }
    hide InOrder, Queued, QueuedBy, Covered;
  }

  lemma AppendHistorySound(w: World)
    requires Sound(w) && Enabled(w, AppendHistory)
    ensures Parts(Apply(w, AppendHistory))
  {
    var v, t := Apply(w, AppendHistory), w.task;
    var id := t.history[t.appended];
    assert Longer(w, v, id, true);
    CoveredLonger(w, v, id, true, t.snapshot, w.cursor);
    QueuedLonger(w, v, id, true);
    LongerQueues(w, v, id, true, id, 0);
    hide InOrder, Queued, QueuedBy, Covered, Clean;
  }

  // ---- Delivering -----------------------------------------------------------------------------

  lemma CoveredDrop(w: World, lo: nat, hi: nat)
    requires |w.outbox| > 0 && (w.outbox[0].create ==> w.outbox[0].id in w.acked) && Covered(w, lo, hi)
    ensures Covered(Dropped(w), lo, hi)
  {
    var v := Dropped(w);
    forall m: nat | Owed(v, m) && lo < m <= hi ensures m in v.acked || Queued(v, m) {
      assert Owed(w, m);
      if m !in w.acked {
        DropKeeps(w, m, 0);
      }
    }
  }

  lemma InOrderDrop(w: World, n: nat, mark: nat)
    requires |w.outbox| > 0 && InOrder(w, n, mark)
    ensures InOrder(Dropped(w), n, mark)
  {
    var v := Dropped(w);
    forall j | 0 <= j < |v.outbox| && Fresh(v, j, n, mark)
      ensures v.checkpoint.Some? ==> v.checkpoint.value < v.outbox[j].id
      ensures forall i :: 0 <= i < j && v.outbox[i].create ==> v.outbox[i].id < v.outbox[j].id
    {
      assert Fresh(w, j + 1, n, mark);
      forall i | 0 <= i < j && v.outbox[i].create ensures v.outbox[i].id < v.outbox[j].id {
        assert v.outbox[i] == w.outbox[i + 1];
      }
    }
  }

  lemma CreatesDrop(w: World, n: nat, mark: nat)
    requires |w.outbox| > 0 && CreatesUpTo(w, n, mark)
    ensures CreatesUpTo(Dropped(w), n, mark)
  {
  }

  lemma RemoveSound(w: World)
    requires Sound(w) && Enabled(w, Remove)
    ensures Parts(Apply(w, Remove))
  {
    var v, t := Apply(w, Remove), w.task;
    assert v == Dropped(w);
    if w.row.None? {
      CoveredDrop(w, 0, w.cursor);
      InOrderDrop(w, 0, 0);
      CreatesDrop(w, w.cursor, 0);
    }
    if Current(w) && (t.Fetching? || t.Fetched? || t.Draining?) {
      CoveredDrop(w, t.snapshot, w.cursor);
      CreatesDrop(w, MaxNat(t.snapshot, w.cursor), 0);
      forall m: nat, mark: nat | QueuedBy(w, m, mark) && m !in w.acked ensures QueuedBy(v, m, mark) {
        DropKeeps(w, m, mark);
      }
      forall m: nat | Queued(w, m) && m !in w.acked ensures Queued(v, m) {
        DropKeeps(w, m, 0);
      }
      if t.Draining? {
        InOrderDrop(w, t.snapshot, t.watermark);
        CreatesDrop(w, w.cursor, t.watermark);
      }
    }
    hide InOrder, Queued, QueuedBy, Covered, CreatesUpTo;
  }

  lemma SkipSound(w: World, e: Event)
    requires Sound(w) && Enabled(w, e) && (e.SkipRemove? || e.SkipUntracked?) && !Forgets(w, e)
    ensures Parts(Apply(w, e))
  {
    if w.row.None? {
      var v := Dropped(w);
      forall m: nat | Owed(v, m) && 0 < m <= v.cursor ensures m in v.acked || Queued(v, m) {
        assert Owed(w, m);
        if m !in w.acked && !(w.outbox[0].create && w.outbox[0].id == m) {
          DropKeeps(w, m, 0);
        }
      }
      InOrderDrop(w, 0, 0);
      CreatesDrop(w, w.cursor, 0);
    }
    hide InOrder, Queued, QueuedBy, CreatesUpTo;
  }

  /** Dropping the head of a channel that is not tracked is safe exactly when the head is not
      the only trace of its message. */
  lemma {:induction false} DropSafeIff(w: World)
    requires Sound(w) && Enabled(w, SkipUntracked)
    ensures Sound(Apply(w, SkipUntracked)) <==> !Loses(w)
  {
    var v := Apply(w, SkipUntracked);
    if Loses(w) {
      HeadStreamed(w);
      assert !Covered(v, 0, v.cursor) by {
        assert Owed(v, w.outbox[0].id) && w.outbox[0].id !in v.acked && !Queued(v, w.outbox[0].id);
      }
    } else {
      BasicsStep(w, SkipUntracked);
      SkipSound(w, SkipUntracked);
      PartsMakeSound(v);
    }
  }

  lemma HeadStreamed(w: World)
    requires Sound(w) && Loses(w)
    ensures 0 < w.outbox[0].id <= w.cursor
  {
  }

  /** The head of an ordered outbox is below everything that still has to be delivered. */
  lemma HeadIsLowest(w: World, m: nat)
    requires |w.outbox| > 0 && w.outbox[0].create && w.outbox[0].id in w.acked && Numbered(w)
    requires InOrder(w, 0, 0) && Owed(w, m) && m > 0 && m !in w.acked && Queued(w, m)
    ensures w.outbox[0].id < m
  {
    var j :| 0 <= j < |w.outbox| && w.outbox[j].create && w.outbox[j].id == m;
    assert Fresh(w, j, 0, 0);
  }

  lemma AdvanceClean(w: World)
    requires Clean(w) && Numbered(w) && Enabled(w, Advance)
    ensures Clean(Apply(w, Advance))
  {
    var v := Apply(w, Advance);
    CoveredSame(w, v, 0, w.cursor);
    forall m: nat | Owed(v, m) && m <= v.checkpoint.value ensures m in v.acked {
      assert Owed(w, m);
      if m > Resume(w) && m !in w.acked {
        assert m <= w.outbox[0].id <= w.cursor;
        HeadIsLowest(w, m);
      }
    }
    AdvanceOrder(w, 0, 0);
  }

  lemma AdvanceOrder(w: World, n: nat, mark: nat)
    requires InOrder(w, n, mark) && Enabled(w, Advance)
    ensures InOrder(Apply(w, Advance), n, mark)
  {
    var v := Apply(w, Advance);
    forall j | 0 <= j < |v.outbox| && Fresh(v, j, n, mark)
      ensures v.checkpoint.value < v.outbox[j].id
      ensures forall i :: 0 <= i < j && v.outbox[i].create ==> v.outbox[i].id < v.outbox[j].id
    {
      assert Fresh(w, j, n, mark);
    }
  }

  lemma AdvanceSound(w: World)
    requires Sound(w) && Enabled(w, Advance)
    ensures Parts(Apply(w, Advance))
  {
    var v, t := Apply(w, Advance), w.task;
    if w.row.None? {
      AdvanceClean(w);
    }
    if Current(w) && (t.Fetching? || t.Fetched? || t.Draining?) {
      CoveredSame(w, v, t.snapshot, w.cursor);
      forall m: nat, mark: nat | QueuedBy(w, m, mark) ensures QueuedBy(v, m, mark) {
        QueuedSame(w, v, m, mark);
      }
      forall m: nat | Queued(w, m) ensures Queued(v, m) {
        QueuedSame(w, v, m, 0);
      }
      if t.Draining? {
        AdvanceOrder(w, t.snapshot, t.watermark);
      }
      assert SinceSnapshot(v, t.snapshot);
    }
    hide InOrder, Queued, QueuedBy, Covered, Clean;
  }

  // ---- A recovery ends ------------------------------------------------------------------------

  /** Once the outbox is drained up to the watermark, the history was delivered. */
  lemma DrainedHistory(w: World, m: nat)
    requires w.task.Draining? && w.task.complete && Progress(w)
    requires forall i :: 0 <= i < |w.outbox| ==> w.outbox[i].seqNo > w.task.watermark
    requires w.row.Some? && AllAcked(w, w.row.value.anchor) && Owed(w, m) && m <= w.task.snapshot
    ensures m in w.acked
  {
  }

  lemma FinishClean(w: World)
    requires Sound(w) && Enabled(w, Finish) && w.task.complete
    ensures Clean(Apply(w, Finish))
  {
    var v, t := Apply(w, Finish), w.task;
    assert Progress(w);
    forall m: nat | Owed(w, m) && m <= t.snapshot ensures m in w.acked {
      DrainedHistory(w, m);
    }
    forall m: nat | Owed(v, m) && m <= w.cursor ensures m in v.acked || Queued(v, m) {
      assert Owed(w, m);
      if m !in w.acked {
        QueuedSame(w, v, m, 0);
      }
    }
    FinishAcked(w);
    FinishOrder(w, v);
  }

  lemma UndeliveredAbove(w: World, m: nat)
    requires Sound(w) && Enabled(w, Finish) && w.task.complete
    requires Owed(w, m) && m > w.task.snapshot && m !in w.acked
    ensures m > Resume(w)
  {
    assert Progress(w);
    if m <= w.cursor {
      var j :| 0 <= j < |w.outbox| && w.outbox[j].create && w.outbox[j].id == m;
      assert Fresh(w, j, w.task.snapshot, w.task.watermark);
    }
  }

  /** The checkpoint is below whatever is not delivered yet. */
  lemma FinishAcked(w: World)
    requires Sound(w) && Enabled(w, Finish) && w.task.complete
    ensures AllAcked(w, Resume(w))
  {
    assert Progress(w);
    forall m: nat | Owed(w, m) && m !in w.acked ensures m > Resume(w) {
      if m <= w.task.snapshot {
        DrainedHistory(w, m);
      }
      UndeliveredAbove(w, m);
    }
  }

  lemma FinishOrder(w: World, v: World)
    requires Sound(w) && Enabled(w, Finish) && w.task.complete && v == Apply(w, Finish)
    requires AllAcked(w, Resume(w))
    ensures InOrder(v, 0, 0)
  {
    assert Progress(w);
    forall j | 0 <= j < |v.outbox| && Fresh(v, j, 0, 0) ensures Fresh(w, j, w.task.snapshot, w.task.watermark) {
      if v.outbox[j].id <= w.task.snapshot {
        DrainedHistory(w, v.outbox[j].id);
      }
    }
  }

  lemma FinishSound(w: World)
    requires Sound(w) && Enabled(w, Finish)
    ensures Parts(Apply(w, Finish))
  {
    assert Progress(w);
    if w.task.complete {
      FinishClean(w);
    }
  }

  // ---- Every run ------------------------------------------------------------------------------

  lemma {:induction false} SoundStep(w: World, e: Event)
    requires Sound(w) && Enabled(w, e) && !Forgets(w, e)
    ensures Sound(Apply(w, e))
  {
    BasicsStep(w, e);
    assert Basics(w);
    hide Sound, Enabled, Apply, Limits, Numbered, Tasks, Forgets;
    if Quiet(e) {
      QuietEases(w, e);
      EasySound(w, Apply(w, e));
    } else if Begins(e) {
      BeginsSound(w, e);
    } else if e.Start? || e.ReadHistory? {
      StartSound(w, e);
    } else if e.CaptureChange? || e.AppendCard? {
      ChangeSound(w, e);
    } else if e.SkipRemove? || e.SkipUntracked? {
      SkipSound(w, e);
    } else {
      OtherSound(w, e);
    }
    PartsMakeSound(Apply(w, e));
  }

  lemma PartsMakeSound(w: World)
    requires Basics(w) && Parts(w)
    ensures Sound(w)
  {
  }

  lemma OtherSound(w: World, e: Event)
    requires Sound(w) && Enabled(w, e)
    requires !Quiet(e) && !Begins(e) && !e.Start? && !e.ReadHistory? && !e.CaptureChange? && !e.AppendCard?
    requires !e.SkipRemove? && !e.SkipUntracked?
    ensures Parts(Apply(w, e))
  {
    hide Sound, Enabled, Apply, Parts;
    if e.BackendProgress? {
      BackendProgressSound(w, e.id);
    } else if e.Capture? {
      CaptureSound(w, e.id);
    } else if e.FirstPage? {
      FirstPageSound(w);
    } else if e.HistoryRead? {
      HistoryReadSound(w, e.history, e.complete);
    } else if e.AppendHistory? {
      AppendHistorySound(w);
    } else if e.Watermark? {
      WatermarkSound(w, e.mark);
    } else if e.Finish? {
      FinishSound(w);
    } else if e.Advance? {
      AdvanceSound(w);
    } else {
      RemoveSound(w);
    }
  }

  /** A run in which no head that was the only trace of its message was dropped. */
  ghost predicate Remembers(w: World, run: seq<Event>) {
    run == [] ||
    (Remembers(w, run[..|run| - 1]) && !Forgets(After(w, run[..|run| - 1]), run[|run| - 1]))
  }

  lemma {:induction false} AlwaysSound(w: World, run: seq<Event>)
    requires Init(w) && Legal(w, run) && Remembers(w, run)
    ensures Sound(After(w, run))
  {
    if run == [] {
      SoundInit(w);
    } else {
      hide Enabled, Apply, Sound, Init;
      AlwaysSound(w, run[..|run| - 1]);
      SoundStep(After(w, run[..|run| - 1]), run[|run| - 1]);
    }
  }

  /** A message the collector owes was acknowledged by the backend or is above the mark the
      next recovery reads from; while no recovery row exists, what was streamed is
      acknowledged or still in the outbox. */
  predicate Kept(w: World, m: nat) {
    && (m in w.acked || m > Mark(w))
    && (w.row == None && m <= w.cursor ==> m in w.acked || Queued(w, m))
  }

  ghost predicate NothingLost(w: World) {
    forall m: nat :: Owed(w, m) ==> Kept(w, m)
  }

  /** No message is lost in any reachable state, unless the only trace of one was dropped. */
  lemma {:induction false} NoMessageLost(w: World, run: seq<Event>, m: nat)
    requires Init(w) && Legal(w, run) && Remembers(w, run) && Owed(After(w, run), m)
    ensures Kept(After(w, run), m)
  {
    AlwaysSound(w, run);
  }

  /** Nothing is lost after any prefix of a run. */
  ghost predicate NeverLost(w: World, run: seq<Event>) {
    forall n :: 0 <= n <= |run| ==> NothingLost(After(w, run[..n]))
  }

  /** A run loses nothing exactly when it never drops the only trace of a message. */
  lemma {:induction false} NothingLostIff(w: World, run: seq<Event>)
    requires Init(w) && Legal(w, run)
    ensures NeverLost(w, run) <==> Remembers(w, run)
  {
    hide Enabled, Apply, Kept, Init, Owed;
    if run == [] {
      AlwaysSound(w, run);
      NothingLostAfter(w, run);
      assert run[..0] == run;
    } else {
      var before := run[..|run| - 1];
      NothingLostIff(w, before);
      NeverLostLast(w, run);
      if Remembers(w, before) {
        AlwaysSound(w, before);
        if Forgets(After(w, before), run[|run| - 1]) {
          LostByDrop(After(w, before), run[|run| - 1]);
        }
        if Remembers(w, run) {
          NothingLostAfter(w, run);
        }
      }
    }
  }

  lemma NothingLostAfter(w: World, run: seq<Event>)
    requires Init(w) && Legal(w, run) && Remembers(w, run)
    ensures NothingLost(After(w, run))
  {
    hide Kept;
    forall m: nat | Owed(After(w, run), m) ensures Kept(After(w, run), m) {
      NoMessageLost(w, run, m);
    }
  }

  lemma NeverLostLast(w: World, run: seq<Event>)
    requires run != []
    ensures NeverLost(w, run) <==> NeverLost(w, run[..|run| - 1]) && NothingLost(After(w, run))
  {
    hide NothingLost, After;
    var before := run[..|run| - 1];
    assert run[..|run|] == run;
    assert forall n :: 0 <= n <= |before| ==> before[..n] == run[..n];
  }

  /** The message whose only trace was dropped is lost at once. */
  lemma LostByDrop(w: World, e: Event)
    requires Sound(w) && Enabled(w, e) && Forgets(w, e)
    ensures !NothingLost(Apply(w, e))
  {
    HeadStreamed(w);
    var v, m := Apply(w, e), w.outbox[0].id;
    assert v == Dropped(w);
    assert Owed(v, m) && !Kept(v, m);
  }

  /** A channel that reports ready has no recovery row, and everything it streamed or
      recovered so far was delivered or is waiting, in order, above its checkpoint. */
  lemma {:induction false} ReadyIsVerified(w: World, run: seq<Event>)
    requires Init(w) && Legal(w, run) && Remembers(w, run) && After(w, run).state == READY
    ensures var v := After(w, run);
            && v.tracked && v.row == None && AllAcked(v, Resume(v)) && Covered(v, 0, v.cursor) && InOrder(v, 0, 0)
  {
    AlwaysSound(w, run);
  }

  /** A recovery that lost its channel's generation stays superseded for good. */
  ghost predicate Superseded(w: World, generation: nat) {
    w.generation > generation
  }

  ghost predicate NoCrash(run: seq<Event>) {
    forall i :: 0 <= i < |run| ==> !run[i].Crash?
  }

  lemma {:induction false} GenerationGrows(w: World, run: seq<Event>, more: seq<Event>)
    requires Legal(w, run + more) && NoCrash(more)
    ensures After(w, run).generation <= After(w, run + more).generation
    decreases |more|
  {
    if more == [] {
      assert run + more == run;
    } else {
      LastEvent(w, run, more);
      GenerationStep(After(w, run + more[..|more| - 1]), more[|more| - 1]);
      hide Legal, After, Enabled, Apply;
      GenerationGrows(w, run, more[..|more| - 1]);
    }
  }

  lemma GenerationStep(w: World, e: Event)
    requires Enabled(w, e) && !e.Crash?
    ensures w.generation <= Apply(w, e).generation
  {
  }

  /** The last event of a longer run. */
  lemma LastEvent(w: World, run: seq<Event>, more: seq<Event>)
    requires more != [] && Legal(w, run + more)
    ensures var before := After(w, run + more[..|more| - 1]);
            && Legal(w, run + more[..|more| - 1]) && Enabled(before, more[|more| - 1])
            && After(w, run + more) == Apply(before, more[|more| - 1])
  {
    hide Enabled, Apply;
    assert (run + more)[..|run + more| - 1] == run + more[..|more| - 1];
    assert (run + more)[|run + more| - 1] == more[|more| - 1];
  }

  lemma {:induction false} AlwaysBasic(w: World, run: seq<Event>)
    requires Init(w) && Legal(w, run)
    ensures Basics(After(w, run))
  {
    if run != [] {
      hide Enabled, Apply, Basics;
      AlwaysBasic(w, run[..|run| - 1]);
      BasicsStep(After(w, run[..|run| - 1]), run[|run| - 1]);
    }
  }

  /** Once superseded, a recovery appends nothing more, never deletes the recovery row and
      never marks the channel ready, however the other coroutines interleave. */
  lemma {:induction false} SupersededNeverFinishes(w: World, run: seq<Event>, more: seq<Event>)
    requires Init(w) && Legal(w, run + more) && Legal(w, run) && NoCrash(more)
    requires After(w, run).task != Idle && !Current(After(w, run))
    requires After(w, run + more).task != Idle
    requires After(w, run + more).task.generation == After(w, run).task.generation
    ensures !Enabled(After(w, run + more), Finish) && !Enabled(After(w, run + more), AppendHistory)
  {
    AlwaysBasic(w, run);
    OutdatedTask(After(w, run));
    GenerationGrows(w, run, more);
    hide Legal, After, Apply, Basics, Init;
    NotCurrent(After(w, run + more));
  }

  lemma OutdatedTask(w: World)
    requires Basics(w) && w.task != Idle && !Current(w)
    ensures w.task.generation < w.generation
  {
  }

  lemma NotCurrent(w: World)
    requires w.task != Idle && w.task.generation != w.generation
    ensures !Enabled(w, Finish) && !Enabled(w, AppendHistory)
  {
  }

  lemma OnlyFinish(w: World, e: Event)
    requires Tasks(w) && Enabled(w, e)
    requires (w.row.Some? && Apply(w, e).row.None?) || (w.state != READY && Apply(w, e).state == READY)
    ensures e == Finish && w.task.complete
  {
  }

  /** Only a current recovery whose history is complete and delivered deletes the row or
      makes the channel ready. */
  lemma RowGoesOnlyWhenDelivered(w: World, e: Event)
    requires Sound(w) && Enabled(w, e)
    requires (w.row.Some? && Apply(w, e).row.None?) || (w.state != READY && Apply(w, e).state == READY)
    ensures e == Finish && Current(w) && w.task.complete
    ensures forall m: nat :: Owed(w, m) && m <= w.task.snapshot ==> m in w.acked
  {
    OnlyFinish(w, e);
    hide Apply;
    assert Progress(w);
    forall m: nat | Owed(w, m) && m <= w.task.snapshot ensures m in w.acked {
      DrainedHistory(w, m);
    }
  }

  // ---- An event of an untracked channel ------------------------------------------------------

  /** What was dropped as the only trace is out of reach of every recovery as soon as a later
      message of the channel is delivered. */
  lemma ForgottenIsLost(w: World, m: nat, next: nat)
    requires !w.tracked && !w.skipping && Loses(w) && |w.outbox| >= 2
    requires w.outbox[0].id == m && w.outbox[1].create && w.outbox[1].id == next > m
    ensures Enabled(w, SkipUntracked)
    ensures var a := Apply(w, SkipUntracked);
            && Enabled(a, Receive) && Enabled(Apply(a, Receive), Advance)
            && var v := Apply(Apply(a, Receive), Advance);
            m !in v.acked && !Queued(v, m) && m <= Mark(v)
  {
  }

  /** Such a state is reached: a ready channel with two waiting messages is removed. */
  function Forgetting(): seq<Event> {
    [Track(0), Start, ReadHistory, FirstPage, HistoryRead([], true), Watermark(0), Finish,
     Post(1), Post(2), Capture(1), Capture(2), Untrack, SkipUntracked, Receive, Advance]
  }

  function Blank(): World {
    World({}, 0, 0, 0, {}, [], 1, None, None, false, false, 0, UNKNOWN, Idle, false)
  }

  /** The state after the first i events. */
  function Stage(i: nat): World {
    var begun := Blank().(tracked := true, row := Some(Row(0, false)), state := RECOVERING);
    var ready := Blank().(checkpoint := Some(0), tracked := true, state := READY);
    var posted := ready.(posted := {1, 2}, latest := 2);
    var waiting := posted.(outbox := [Item(1, 1, true), Item(2, 2, true)], nextSeq := 3, cursor := 2);
    var removed := waiting.(tracked := false, generation := 1, state := UNKNOWN);
    if i == 0 then Blank()
    else if i == 1 then begun
    else if i == 2 then begun.(task := Started(0))
    else if i == 3 then begun.(task := Reading(0, 0))
    else if i == 4 then begun.(task := Fetching(0, 0, 0))
    else if i == 5 then begun.(task := Fetched(0, 0, 0, [], true, 0))
    else if i == 6 then begun.(task := Draining(0, 0, 0, 0, true))
    else if i == 7 then ready
    else if i == 8 then ready.(posted := {1}, latest := 1)
    else if i == 9 then posted
    else if i == 10 then posted.(outbox := [Item(1, 1, true)], nextSeq := 2, cursor := 1)
    else if i == 11 then waiting
    else if i == 12 then removed
    else if i == 13 then removed.(outbox := [Item(2, 2, true)])
    else if i == 14 then removed.(outbox := [Item(2, 2, true)], acked := {2})
    else removed.(outbox := [Item(2, 2, true)], acked := {2}, checkpoint := Some(2))
  }

  lemma FirstStage()
    ensures Stage(0) == Blank() && Loses(Stage(12))
  {
  }

  lemma StageBegins(i: nat)
    requires i < 4
    ensures Enabled(Stage(i), Forgetting()[i]) && Apply(Stage(i), Forgetting()[i]) == Stage(i + 1)
  {
  }

  lemma StageRecovers(i: nat)
    requires 4 <= i < 7
    ensures Enabled(Stage(i), Forgetting()[i]) && Apply(Stage(i), Forgetting()[i]) == Stage(i + 1)
  {
  }

  lemma StageWaits(i: nat)
    requires 7 <= i < 11
    ensures Enabled(Stage(i), Forgetting()[i]) && Apply(Stage(i), Forgetting()[i]) == Stage(i + 1)
  {
  }

  lemma StageForgets(i: nat)
    requires 11 <= i < 15
    ensures Enabled(Stage(i), Forgetting()[i]) && Apply(Stage(i), Forgetting()[i]) == Stage(i + 1)
  {
  }

  lemma {:induction false} Stages(i: nat)
    requires i <= 15
    ensures Legal(Blank(), Forgetting()[..i]) && After(Blank(), Forgetting()[..i]) == Stage(i)
    ensures i > 12 ==> !Remembers(Blank(), Forgetting()[..i])
  {
    hide Enabled, Apply, Stage;
    FirstStage();
    if i > 0 {
      Stages(i - 1);
      if i <= 4 {
        StageBegins(i - 1);
      } else if i <= 7 {
        StageRecovers(i - 1);
      } else if i <= 11 {
        StageWaits(i - 1);
      } else {
        StageForgets(i - 1);
      }
      var run := Forgetting();
      assert run[..i][..i - 1] == run[..i - 1] && run[..i][i - 1] == run[i - 1];
    }
  }

  lemma LastStage()
    ensures Owed(Stage(15), 1) && 1 !in Stage(15).acked && !Queued(Stage(15), 1) && 1 <= Mark(Stage(15))
  {
  }

  /** A message is lost although every step was legal. */
  lemma ForgettingLoses()
    ensures Init(Blank()) && Legal(Blank(), Forgetting()) && !Remembers(Blank(), Forgetting())
    ensures var v := After(Blank(), Forgetting());
            Owed(v, 1) && 1 !in v.acked && !Queued(v, 1) && 1 <= Mark(v)
  {
    hide Stage;
    Stages(15);
    LastStage();
    assert Forgetting()[..15] == Forgetting();
  }
}
