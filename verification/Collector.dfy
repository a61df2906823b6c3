/** The collector's worker over all its channels: one outbox, a checkpoint and a recovery row
    per channel, generations and states that die with the process, and one recovery at a time.
    A method is what a coroutine does between two awaits. Each moves every channel by events
    of CollectorProtocol, so the theorems of CollectorSafety hold of each channel. */
module Collector {
  import opened Prelude
  import opened CollectorProtocol
  import opened CollectorSafety

  datatype Entry = Entry(seqNo: nat, channel: nat, id: nat, create: bool)

  function ItemOf(e: Entry): Item {
    Item(e.seqNo, e.id, e.create)
  }

  /** One channel's receipts, in order. */
  function Own(box: seq<Entry>, ch: nat): seq<Item> {
    if box == [] then []
    else
      var last := box[|box| - 1];
      Own(box[..|box| - 1], ch) + (if last.channel == ch then [ItemOf(last)] else [])
  }

  lemma OwnAppend(box: seq<Entry>, e: Entry, ch: nat)
    ensures Own(box + [e], ch) == Own(box, ch) + (if e.channel == ch then [ItemOf(e)] else [])
  {
    assert (box + [e])[..|box|] == box;
  }

  lemma {:induction false} OwnHead(box: seq<Entry>, ch: nat)
    requires |box| > 0
    ensures Own(box, ch) == (if box[0].channel == ch then [ItemOf(box[0])] else []) + Own(box[1..], ch)
  {
    if |box| > 1 {
      OwnHead(box[..|box| - 1], ch);
      assert box[..|box| - 1][1..] == box[1..][..|box| - 2];
    }
  }

  /** A channel's receipts are all above what the whole outbox is above. */
  lemma OwnAbove(box: seq<Entry>, ch: nat, mark: nat, below: bool)
    requires forall i :: 0 <= i < |box| ==> if below then box[i].seqNo <= mark else box[i].seqNo > mark
    ensures forall i :: 0 <= i < |Own(box, ch)| ==>
              if below then Own(box, ch)[i].seqNo <= mark else Own(box, ch)[i].seqNo > mark
  {
    if box != [] {
      OwnAbove(box[..|box| - 1], ch, mark, below);
    }
  }

  /** What the store and the process hold of one channel: checkpoint, baseline and recovery
      row are durable; tracking, generation and state are not. */
  datatype Channel = Channel(checkpoint: Option<nat>, base: nat, row: Option<Row>,
                             tracked: bool, generation: nat, state: State)

  /** The channel's world, with everything the worker knows put in. */
  function View(w: World, c: Channel, own: seq<Item>, nextSeq: nat, halted: bool, task: Task, skipping: bool): World {
    World(w.posted, w.latest, w.cursor, c.base, w.acked, own, nextSeq, c.checkpoint, c.row,
          c.tracked, halted, c.generation, c.state, task, skipping)
  }

  function BegunRow(c: Channel): Row {
    if c.row.Some? then c.row.value else Row(ResumeAt(c), false)
  }

  ghost predicate Reached(run: seq<Event>, w: World) {
    Legal(Blank(), run) && w == After(Blank(), run)
  }

  lemma ReachedStep(run: seq<Event>, w: World, e: Event)
    requires Reached(run, w) && Enabled(w, e)
    ensures Reached(run + [e], Apply(w, e))
  {
    hide Enabled, Apply;
    Extend(Blank(), run, e);
  }

  lemma ReachedBasic(run: seq<Event>, w: World)
    requires Reached(run, w)
    ensures Basics(w)
  {
    AlwaysBasic(Blank(), run);
  }

  ghost predicate Agrees(w: World, c: Channel, own: seq<Item>, nextSeq: nat, halted: bool, task: Task, skipping: bool) {
    w == View(w, c, own, nextSeq, halted, task, skipping)
  }

  /** Any recovery in progress is superseded, and a row remembers where to read from. */
  function Restarted(c: Channel): Channel {
    c.(row := Some(BegunRow(c)), generation := c.generation + 1, state := RECOVERING)
  }

  function RestartedAll(m: map<nat, Channel>, selected: set<nat>): map<nat, Channel> {
    map ch | ch in m :: if ch in selected then Restarted(m[ch]) else m[ch]
  }

  lemma RestartOneMore(m: map<nat, Channel>, selected: set<nat>, ch: nat)
    requires ch in m && ch !in selected
    ensures ch in RestartedAll(m, selected) && RestartedAll(m, selected)[ch] == m[ch]
    ensures RestartedAll(m, selected)[ch := Restarted(m[ch])] == RestartedAll(m, selected + {ch})
  {
  }

  lemma RestartNone(m: map<nat, Channel>)
    ensures RestartedAll(m, {}) == m
  {
  }

  ghost predicate Supersedes(w: World, e: Event) {
    Enabled(w, e) && (e.NewSession? || e == Schedule)
  }

  lemma Superseding(w: World, e: Event, c: Channel, own: seq<Item>, nextSeq: nat, halted: bool, task: Task)
    requires Supersedes(w, e) && Agrees(w, c, own, nextSeq, halted, task, false)
    ensures May(w, e) && Agrees(Apply(w, e), Restarted(c), own, nextSeq, halted, task, false)
  {
  }

  /** The event is possible. */
  ghost predicate May(w: World, e: Event) {
    Enabled(w, e)
  }

  lemma MaySupersede(w: World, cursor: nat)
    requires w.tracked && !w.skipping
    ensures Supersedes(w, Schedule)
    ensures w.cursor <= cursor <= w.latest ==> Supersedes(w, Event.NewSession(cursor))
  {
  }

  /** What a receipt does to its channel ... */
  lemma Receiving(w: World, id: nat, create: bool, c: Channel, own: seq<Item>, nextSeq: nat, task: Task)
    requires Agrees(w, c, own, nextSeq, false, task, false) && c.tracked
    requires create ==> May(w, Event.Capture(id))
    ensures var e := if create then Event.Capture(id) else CaptureChange(id);
            May(w, e) && Agrees(Apply(w, e), c, own + [Item(nextSeq, id, create)], nextSeq + 1, false, task, false)
  {
  }

  /** ... and to the others. */
  lemma OthersReceive(w: World, c: Channel, own: seq<Item>, nextSeq: nat, halted: bool, task: Task)
    requires Agrees(w, c, own, nextSeq, halted, task, false)
    ensures May(w, OtherReceipt) && Agrees(Apply(w, OtherReceipt), c, own, nextSeq + 1, halted, task, false)
    ensures May(w, Halt) && Agrees(Apply(w, Halt), c, own, nextSeq, true, task, false)
  {
  }

  lemma Crashing(w: World, c: Channel, own: seq<Item>, nextSeq: nat, halted: bool, task: Task, skipping: bool)
    requires Agrees(w, c, own, nextSeq, halted, task, skipping)
    ensures May(w, Crash)
    ensures Agrees(Apply(w, Crash), Forgotten(c), own, nextSeq, false, Idle, false)
  {
  }

  /** What a crash leaves of a channel. */
  function Forgotten(c: Channel): Channel {
    c.(tracked := false, generation := 0, state := UNKNOWN)
  }

  lemma AppendingHistory(w: World, c: Channel, own: seq<Item>, nextSeq: nat, task: Task, halted: bool)
    requires Agrees(w, c, own, nextSeq, halted, task, false) && c.tracked
    requires task.Fetched? && task.generation == c.generation && task.appended < |task.history|
    ensures May(w, AppendHistory)
    ensures Agrees(Apply(w, AppendHistory), c, own + [Item(nextSeq, task.history[task.appended], true)], nextSeq + 1, halted,
                   task.(appended := task.appended + 1), false)
  {
  }

  lemma AppendingCard(w: World, c: Channel, own: seq<Item>, nextSeq: nat, task: Task, halted: bool, id: nat)
    requires Agrees(w, c, own, nextSeq, halted, task, false) && c.tracked
    requires task.Fetched? && task.generation == c.generation
    ensures May(w, AppendCard(id))
    ensures Agrees(Apply(w, AppendCard(id)), c, own + [Item(nextSeq, id, false)], nextSeq + 1, halted, task, false)
  {
  }

  // ---- What the steps of one recovery do to its channel ---------------------------------

  lemma Starting(w: World, c: Channel, own: seq<Item>, nextSeq: nat, halted: bool)
    requires Agrees(w, c, own, nextSeq, halted, Idle, false) && c.tracked
    ensures May(w, Start)
    ensures Agrees(Apply(w, Start), c.(state := RECOVERING), own, nextSeq, halted, Started(c.generation), false)
  {
  }

  lemma Leaving(w: World, c: Channel, own: seq<Item>, nextSeq: nat, halted: bool, task: Task)
    requires Agrees(w, c, own, nextSeq, halted, task, false) && task != Idle
    ensures May(w, Leave) && Agrees(Apply(w, Leave), c, own, nextSeq, halted, Idle, false)
  {
  }

  lemma ReadingHistory(w: World, c: Channel, own: seq<Item>, nextSeq: nat, halted: bool, task: Task)
    requires Agrees(w, c, own, nextSeq, halted, task, false) && task.Started? && c.tracked && task.generation == c.generation
    ensures May(w, ReadHistory)
    ensures Agrees(Apply(w, ReadHistory), c.(row := Some(BegunRow(c))), own, nextSeq, halted,
                   Reading(c.generation, BegunRow(c).anchor), false)
  {
  }

  lemma ReadingPage(w: World, c: Channel, own: seq<Item>, nextSeq: nat, halted: bool, task: Task)
    requires Agrees(w, c, own, nextSeq, halted, task, false) && task.Reading?
    ensures May(w, FirstPage)
    ensures Agrees(Apply(w, FirstPage), c, own, nextSeq, halted, Fetching(task.generation, task.anchor, w.latest), false)
  {
  }

  lemma ReadAll(w: World, c: Channel, own: seq<Item>, nextSeq: nat, halted: bool, task: Task,
                history: seq<nat>, complete: bool)
    requires Agrees(w, c, own, nextSeq, halted, task, false) && task.Fetching? && HistoryOk(w, history, complete)
    ensures May(w, HistoryRead(history, complete))
    ensures Agrees(Apply(w, HistoryRead(history, complete)), c, own, nextSeq, halted,
                   Fetched(task.generation, task.anchor, task.snapshot, history, complete, 0), false)
  {
  }

  lemma Watermarking(w: World, c: Channel, own: seq<Item>, nextSeq: nat, halted: bool, task: Task, mark: nat)
    requires Agrees(w, c, own, nextSeq, halted, task, false) && task.Fetched? && task.appended == |task.history|
    requires c.tracked && task.generation == c.generation && mark < nextSeq
    requires forall i :: 0 <= i < |own| ==> own[i].seqNo <= mark
    ensures May(w, Watermark(mark))
    ensures Agrees(Apply(w, Watermark(mark)), c, own, nextSeq, halted,
                   Draining(task.generation, task.anchor, task.snapshot, mark, task.complete), false)
  {
  }

  /** end_recovery and the state that is published with it. */
  function Ended(c: Channel, complete: bool): Channel {
    c.(row := if complete || c.row.None? then None else Some(c.row.value.(gap := true)),
    state := if complete then READY else GAP)
  }

  lemma Finishing(w: World, c: Channel, own: seq<Item>, nextSeq: nat, halted: bool, task: Task)
    requires Agrees(w, c, own, nextSeq, halted, task, false) && task.Draining?
    requires c.tracked && task.generation == c.generation
    requires forall i :: 0 <= i < |own| ==> own[i].seqNo > task.watermark
    ensures May(w, Finish)
    ensures Agrees(Apply(w, Finish), Ended(c, task.complete).(checkpoint := Some(ResumeAt(c))), own, nextSeq, halted, Idle, false)
  {
  }

  /** The checkpoint, or the baseline when there is none. */
  function ResumeAt(c: Channel): nat {
    if c.checkpoint.Some? then c.checkpoint.value else c.base
  }

  lemma Failing(w: World, c: Channel, own: seq<Item>, nextSeq: nat, halted: bool, task: Task, forbidden: bool)
    requires Agrees(w, c, own, nextSeq, halted, task, false) && task != Idle && c.tracked && task.generation == c.generation
    ensures May(w, Fail(forbidden))
    ensures Agrees(Apply(w, Fail(forbidden)), Ended(c, false).(state := if forbidden then FORBIDDEN else GAP), own, nextSeq,
                   halted, Idle, false)
  {
  }

  // ---- What delivery and configuration do to a channel ------------------------------------

  lemma Environment(w: World, c: Channel, own: seq<Item>, nextSeq: nat, halted: bool, task: Task, id: nat)
    requires Agrees(w, c, own, nextSeq, halted, task, false)
    ensures id > w.latest ==> May(w, Post(id)) && Agrees(Apply(w, Post(id)), c, own, nextSeq, halted, task, false)
    ensures own != [] ==> May(w, Receive) && Agrees(Apply(w, Receive), c, own, nextSeq, halted, task, false)
  {
  }

  /** Outbox.advance: the checkpoint never moves back. */
  function Advanced(c: Channel, id: nat): Channel {
    c.(checkpoint := Some(MaxNat(if c.checkpoint.Some? then c.checkpoint.value else 0, id)))
  }

  lemma Advancing(w: World, c: Channel, own: seq<Item>, nextSeq: nat, halted: bool, task: Task)
    requires Agrees(w, c, own, nextSeq, halted, task, false) && own != [] && own[0].create && own[0].id in w.acked
    ensures May(w, Advance) && Agrees(Apply(w, Advance), Advanced(c, own[0].id), own, nextSeq, halted, task, false)
  {
  }

  lemma Acknowledging(w: World, c: Channel, own: seq<Item>, nextSeq: nat, halted: bool, task: Task)
    requires Agrees(w, c, own, nextSeq, halted, task, false) && own != [] && (own[0].create ==> own[0].id in w.acked)
    ensures May(w, Remove) && Agrees(Apply(w, Remove), c, own[1..], nextSeq, halted, task, false)
  {
  }

  /** A gap is durable and every recovery in progress superseded before the receipt goes. */
  function Gapped(c: Channel): Channel {
    c.(generation := c.generation + 1, row := Some(BegunRow(c).(gap := true)), state := GAP)
  }

  lemma Skipping(w: World, c: Channel, own: seq<Item>, nextSeq: nat, halted: bool, task: Task)
    requires Agrees(w, c, own, nextSeq, halted, task, false) && own != []
    ensures c.tracked ==> May(w, SkipGap) && Agrees(Apply(w, SkipGap), Gapped(c), own, nextSeq, halted, task, true)
    ensures !c.tracked ==>
              May(w, SkipUntracked) && Agrees(Apply(w, SkipUntracked), c, own[1..], nextSeq, halted, task, false)
  {
  }

  lemma SkippedAway(w: World, c: Channel, own: seq<Item>, nextSeq: nat, halted: bool, task: Task)
    requires Agrees(w, c, own, nextSeq, halted, task, true) && own != []
    ensures May(w, SkipRemove) && Agrees(Apply(w, SkipRemove), c, own[1..], nextSeq, halted, task, false)
  {
  }

  /** A channel that is tracked for the first time starts from now; any other goes on from
      its row or its checkpoint. */
  function Tracked(c: Channel, now: nat): Channel {
    var based := if c.checkpoint == None && c.row == None then c.(base := now) else c;
    based.(tracked := true, row := Some(BegunRow(based)), state := RECOVERING)
  }

  function Untracked(c: Channel): Channel {
    c.(tracked := false, generation := c.generation + 1, state := UNKNOWN)
  }

  lemma Configuring(w: World, c: Channel, own: seq<Item>, nextSeq: nat, halted: bool, task: Task, cursor: nat)
    requires Agrees(w, c, own, nextSeq, halted, task, false)
    ensures !c.tracked && w.cursor <= cursor <= w.latest ==>
              May(w, Track(cursor)) && Agrees(Apply(w, Track(cursor)), Tracked(c, w.latest), own, nextSeq, halted, task, false)
    ensures c.tracked ==> May(w, Untrack) && Agrees(Apply(w, Untrack), Untracked(c), own, nextSeq, halted, task, false)
  {
  }

  /** The backend's mark stands in for the checkpoint, and for the baseline of a channel that
      was never tracked here. */
  function Resumed(c: Channel, id: nat): Channel {
    c.(checkpoint := Some(id), base := if c.row.None? then MaxNat(c.base, id) else c.base)
  }

  lemma Progressing(w: World, c: Channel, own: seq<Item>, nextSeq: nat, halted: bool, task: Task, id: nat)
    requires Agrees(w, c, own, nextSeq, halted, task, false) && c.checkpoint == None && id <= w.latest
    requires c.row.Some? ==> forall m :: m in w.posted && c.base < m <= id ==> m in w.acked
    ensures May(w, BackendProgress(id))
    ensures Agrees(Apply(w, BackendProgress(id)), Resumed(c, id), own, nextSeq, halted, task, false)
  {
  }

  // ---- All channels at once ------------------------------------------------------------------

  function TaskAt(busy: Option<nat>, task: Task, ch: nat): Task {
    if busy == Some(ch) then task else Idle
  }

  /** Everything this process and its store hold. */
  datatype Memory = Memory(channels: map<nat, Channel>, outbox: seq<Entry>, nextSeq: nat, halted: bool,
                           busy: Option<nat>, task: Task, skipping: Option<nat>)

  /** It agrees with the world of every channel. */
  ghost predicate Faithful(universe: set<nat>, worlds: map<nat, World>, m: Memory) {
    && worlds.Keys == m.channels.Keys == universe
    && forall ch :: ch in universe ==>
                      Agrees(worlds[ch], m.channels[ch], Own(m.outbox, ch), m.nextSeq, m.halted,
                             TaskAt(m.busy, m.task, ch), m.skipping == Some(ch))
  }

  /** Receipts are numbered below the next number and belong to known channels. */
  ghost predicate Ordered(universe: set<nat>, m: Memory) {
    m.nextSeq > 0 && forall i :: 0 <= i < |m.outbox| ==> m.outbox[i].seqNo < m.nextSeq && m.outbox[i].channel in universe
  }

  ghost predicate AllReached(universe: set<nat>, runs: map<nat, seq<Event>>, worlds: map<nat, World>) {
    worlds.Keys == runs.Keys == universe && forall ch :: ch in universe ==> Reached(runs[ch], worlds[ch])
  }

  ghost predicate AllMay(universe: set<nat>, worlds: map<nat, World>, events: map<nat, Event>) {
    worlds.Keys == events.Keys == universe && forall ch :: ch in universe ==> May(worlds[ch], events[ch])
  }

  function Stepped(worlds: map<nat, World>, events: map<nat, Event>): (r: map<nat, World>)
    ensures r.Keys == worlds.Keys
  {
    map ch | ch in worlds :: if ch in events && Enabled(worlds[ch], events[ch]) then Apply(worlds[ch], events[ch]) else worlds[ch]
  }

  function Extended(runs: map<nat, seq<Event>>, events: map<nat, Event>): (r: map<nat, seq<Event>>)
    ensures r.Keys == runs.Keys
  {
    map ch | ch in runs :: if ch in events then runs[ch] + [events[ch]] else runs[ch]
  }

  lemma AllReachedStep(universe: set<nat>, runs: map<nat, seq<Event>>, worlds: map<nat, World>, events: map<nat, Event>)
    requires AllReached(universe, runs, worlds) && AllMay(universe, worlds, events)
    ensures AllReached(universe, Extended(runs, events), Stepped(worlds, events))
  {
    hide Reached, Enabled, Apply;
    forall ch | ch in universe ensures Reached(Extended(runs, events)[ch], Stepped(worlds, events)[ch]) {
      assert May(worlds[ch], events[ch]);
      ReachedStep(runs[ch], worlds[ch], events[ch]);
    }
  }

  lemma OneReachedStep(universe: set<nat>, runs: map<nat, seq<Event>>, worlds: map<nat, World>, ch: nat, e: Event)
    requires AllReached(universe, runs, worlds) && ch in universe && May(worlds[ch], e)
    ensures AllReached(universe, runs[ch := runs[ch] + [e]], worlds[ch := Apply(worlds[ch], e)])
  {
    hide Reached, Enabled, Apply;
    ReachedStep(runs[ch], worlds[ch], e);
  }

  /** One channel moves, and the recovery in progress is its own or does not move. */
  lemma OneFaithful(universe: set<nat>, worlds: map<nat, World>, m: Memory, ch: nat, w: World, c: Channel,
                    busy: Option<nat>, task: Task)
    requires Faithful(universe, worlds, m) && ch in universe
    requires (busy == m.busy && task == m.task) || ((m.busy == None || m.busy == Some(ch)) && (busy == None || busy == Some(ch)))
    requires Agrees(w, c, Own(m.outbox, ch), m.nextSeq, m.halted, TaskAt(busy, task, ch), m.skipping == Some(ch))
    ensures Faithful(universe, worlds[ch := w], m.(channels := m.channels[ch := c], busy := busy, task := task))
  {
    hide Agrees, Own;
  }

  function ReceiptEvents(worlds: map<nat, World>, ch: nat, e: Event): (r: map<nat, Event>)
    ensures r.Keys == worlds.Keys
  {
    map c | c in worlds :: if c == ch then e else OtherReceipt
  }

  lemma ReceiptAt(universe: set<nat>, worlds: map<nat, World>, m: Memory, ch: nat, e: Event, entry: Entry, task: Task, c: nat)
    requires Faithful(universe, worlds, m) && ch in universe && c in universe && m.skipping == None && May(worlds[ch], e)
    requires (task == m.task || m.busy == Some(ch)) && entry.channel == ch && entry.seqNo == m.nextSeq
    requires Agrees(Apply(worlds[ch], e), m.channels[ch], Own(m.outbox, ch) + [ItemOf(entry)], m.nextSeq + 1,
                    m.halted, TaskAt(m.busy, task, ch), false)
    ensures May(worlds[c], ReceiptEvents(worlds, ch, e)[c])
    ensures Agrees(Apply(worlds[c], ReceiptEvents(worlds, ch, e)[c]), m.channels[c], Own(m.outbox + [entry], c),
                   m.nextSeq + 1, m.halted, TaskAt(m.busy, task, c), false)
  {
    hide Agrees, Own, Enabled, Apply, May;
    OwnAppend(m.outbox, entry, c);
    if c != ch {
      OthersReceive(worlds[c], m.channels[c], Own(m.outbox, c), m.nextSeq, m.halted, TaskAt(m.busy, m.task, c));
      assert Own(m.outbox, c) + [] == Own(m.outbox, c);
    }
  }

  /** A receipt of one channel takes the next number from all of them. */
  lemma ReceiptFaithful(universe: set<nat>, worlds: map<nat, World>, m: Memory, ch: nat, e: Event, id: nat, create: bool,
                        task: Task)
    requires Faithful(universe, worlds, m) && ch in universe && m.skipping == None && May(worlds[ch], e)
    requires task == m.task || m.busy == Some(ch)
    requires Agrees(Apply(worlds[ch], e), m.channels[ch], Own(m.outbox, ch) + [Item(m.nextSeq, id, create)], m.nextSeq + 1,
                    m.halted, TaskAt(m.busy, task, ch), false)
    ensures AllMay(universe, worlds, ReceiptEvents(worlds, ch, e))
    ensures Faithful(universe, Stepped(worlds, ReceiptEvents(worlds, ch, e)),
                     m.(outbox := m.outbox + [Entry(m.nextSeq, ch, id, create)], nextSeq := m.nextSeq + 1, task := task))
  {
    hide Agrees, Own, Enabled, Apply, TaskAt, ReceiptEvents;
    var events := ReceiptEvents(worlds, ch, e);
    var entry := Entry(m.nextSeq, ch, id, create);
    forall c | c in universe
      ensures May(worlds[c], events[c])
      ensures Agrees(Apply(worlds[c], events[c]), m.channels[c], Own(m.outbox + [entry], c), m.nextSeq + 1, m.halted,
                     TaskAt(m.busy, task, c), false)
    {
      ReceiptAt(universe, worlds, m, ch, e, entry, task, c);
    }
  }

  function Everywhere(worlds: map<nat, World>, e: Event): (r: map<nat, Event>)
    ensures r.Keys == worlds.Keys
  {
    map c | c in worlds :: e
  }

  lemma HaltFaithful(universe: set<nat>, worlds: map<nat, World>, m: Memory)
    requires Faithful(universe, worlds, m) && m.skipping == None
    ensures AllMay(universe, worlds, Everywhere(worlds, Halt))
    ensures Faithful(universe, Stepped(worlds, Everywhere(worlds, Halt)), m.(halted := true))
  {
    hide Agrees, Own, Enabled, Apply;
    forall c | c in universe
      ensures May(worlds[c], Halt)
      ensures Agrees(Apply(worlds[c], Halt), m.channels[c], Own(m.outbox, c), m.nextSeq, true, TaskAt(m.busy, m.task, c), false)
    {
      OthersReceive(worlds[c], m.channels[c], Own(m.outbox, c), m.nextSeq, m.halted, TaskAt(m.busy, m.task, c));
    }
  }

  function AllForgotten(m: map<nat, Channel>): (r: map<nat, Channel>)
    ensures r.Keys == m.Keys
  {
    map c | c in m :: Forgotten(m[c])
  }

  lemma CrashFaithful(universe: set<nat>, worlds: map<nat, World>, m: Memory)
    requires Faithful(universe, worlds, m)
    ensures AllMay(universe, worlds, Everywhere(worlds, Crash))
    ensures Faithful(universe, Stepped(worlds, Everywhere(worlds, Crash)),
                     Memory(AllForgotten(m.channels), m.outbox, m.nextSeq, false, None, Idle, None))
  {
    hide Agrees, Own, Enabled, Apply, Forgotten;
    forall c | c in universe
      ensures May(worlds[c], Crash)
      ensures Agrees(Apply(worlds[c], Crash), Forgotten(m.channels[c]), Own(m.outbox, c), m.nextSeq, false, Idle, false)
    {
      Crashing(worlds[c], m.channels[c], Own(m.outbox, c), m.nextSeq, m.halted, TaskAt(m.busy, m.task, c), m.skipping == Some(c));
    }
  }

  /** The first receipt goes, and its channel with it. */
  lemma HeadFaithful(universe: set<nat>, worlds: map<nat, World>, m: Memory, w: World, skipping: Option<nat>)
    requires Faithful(universe, worlds, m) && |m.outbox| > 0 && m.outbox[0].channel in universe
    requires skipping == None && (m.skipping == None || m.skipping == Some(m.outbox[0].channel))
    requires var ch := m.outbox[0].channel;
             Agrees(w, m.channels[ch], Own(m.outbox[1..], ch), m.nextSeq, m.halted, TaskAt(m.busy, m.task, ch), false)
    ensures Faithful(universe, worlds[m.outbox[0].channel := w], m.(outbox := m.outbox[1..], skipping := skipping))
  {
    hide Agrees, Own;
    forall c | c in universe && c != m.outbox[0].channel ensures Own(m.outbox[1..], c) == Own(m.outbox, c) {
      OwnHead(m.outbox, c);
      assert [] + Own(m.outbox[1..], c) == Own(m.outbox[1..], c);
    }
  }

  /** One channel gets a gap; its receipt is next to go. */
  lemma GapFaithful(universe: set<nat>, worlds: map<nat, World>, m: Memory, ch: nat, w: World, c: Channel)
    requires Faithful(universe, worlds, m) && ch in universe && m.skipping == None
    requires Agrees(w, c, Own(m.outbox, ch), m.nextSeq, m.halted, TaskAt(m.busy, m.task, ch), true)
    ensures Faithful(universe, worlds[ch := w], m.(channels := m.channels[ch := c], skipping := Some(ch)))
  {
    hide Agrees, Own;
  }

  /** The head of the outbox is the head of its channel. */
  lemma OwnFirst(box: seq<Entry>)
    requires |box| > 0
    ensures var own := Own(box, box[0].channel);
            own != [] && own[0] == ItemOf(box[0]) && own[1..] == Own(box[1..], box[0].channel)
  {
    OwnHead(box, box[0].channel);
  }

  lemma FaithfulAt(universe: set<nat>, worlds: map<nat, World>, m: Memory, ch: nat)
    requires Faithful(universe, worlds, m) && ch in universe
    ensures ch in worlds && ch in m.channels
    ensures Agrees(worlds[ch], m.channels[ch], Own(m.outbox, ch), m.nextSeq, m.halted, TaskAt(m.busy, m.task, ch),
                   m.skipping == Some(ch))
  {
  }

  /** How one recovery of a channel ended. */
  datatype Outcome = Ignored | Superseded | Unreadable | BufferFull | Waiting | Incomplete | Verified

  /** What a recovery that ran to its end leaves: ready without a row and with a checkpoint, or
      a state that blocks new risk and, if there is a row, a gap. */
  predicate Closed(c: Channel, end: Outcome) {
    if end == Verified then c.state == READY && c.row == None && c.checkpoint.Some?
    else (c.state == GAP || c.state == FORBIDDEN) && (c.row.Some? ==> c.row.value.gap)
  }

  /** Which recovery began under which generation of its channel. */
  datatype Begun = Begun(channel: nat, generation: nat)

  /** What the source answers during one recovery: whether the channel, its history and the
      current cards can be read, what kind of failure it is if not, and whether the history is
      longer than it is read. */
  datatype Answers = Answers(reachable: bool, readable: bool, cards: bool, forbidden: bool, long: bool)

  const READABLE := Answers(true, true, true, false, false)

  /** Generations only rise, and a generation stays tracked as long as it lasts. */
  predicate Onward(a: Channel, b: Channel) {
    a.generation <= b.generation && (b.generation == a.generation && a.tracked ==> b.tracked)
  }

  /** Nothing but a new generation takes the state and the row from a tracked channel that is
      not being recovered. */
  predicate Later(a: Channel, b: Channel) {
    && Onward(a, b)
    && (b.generation == a.generation && a.tracked ==>
          b.state == a.state && b.row == a.row && (a.checkpoint.Some? ==> b.checkpoint.Some?))
  }

  /** Time passed, with recoveries of these channels only. */
  ghost predicate Passed(a: map<nat, Channel>, b: map<nat, Channel>, recovered: set<nat>) {
    && a.Keys == b.Keys
    && forall ch :: ch in a ==> if ch in recovered then Onward(a[ch], b[ch]) else Later(a[ch], b[ch])
  }

  lemma PassedOn(a: map<nat, Channel>, b: map<nat, Channel>, c: map<nat, Channel>, r: set<nat>, s: set<nat>)
    requires Passed(a, b, r) && Passed(b, c, s)
    ensures Passed(a, c, r + s)
    ensures s <= r ==> Passed(a, c, r)
  {
    if s <= r {
      assert r + s == r;
    }
  }

  lemma PassedSelf(m: map<nat, Channel>, recovered: set<nat>)
    ensures Passed(m, m, recovered)
  {
  }

  /** A recovery that finds its generation gone was superseded. */
  lemma Overtaken(a: map<nat, Channel>, b: map<nat, Channel>, recovered: set<nat>, ch: nat)
    requires Passed(a, b, recovered) && ch in a && a[ch].tracked
    ensures ch in b && (b[ch].generation > a[ch].generation || (b[ch].tracked && b[ch].generation == a[ch].generation))
  {
  }

  lemma PassedOne(m: map<nat, Channel>, ch: nat, c: Channel)
    requires ch in m && Onward(m[ch], c)
    ensures Passed(m, m[ch := c], {ch})
    ensures Later(m[ch], c) ==> Passed(m, m[ch := c], {})
  {
  }

  lemma PassedRestarted(m: map<nat, Channel>, selected: set<nat>)
    ensures Passed(m, RestartedAll(m, selected), {})
  {
  }

  /** How the recovery of this generation ended still shows, or the generation is over. */
  predicate Concluded(channels: map<nat, Channel>, ch: nat, generation: nat, end: Outcome) {
    && ch in channels
    && match end
       case Ignored => true
       case Waiting => true
       case Superseded => channels[ch].generation > generation
       case _ =>
         || channels[ch].generation > generation
         || (channels[ch].generation == generation && channels[ch].tracked && Closed(channels[ch], end))
  }

  /** What is known of a channel that was scheduled: its recovery began, unless it was no longer
      tracked when its turn came, and ended in a way that the channel still shows. */
  ghost predicate Recovered(ch: nat, before: map<nat, Channel>, now: map<nat, Channel>, log: seq<Begun>,
                            end: Outcome, under: nat) {
    if end == Ignored then
      ch !in before || !before[ch].tracked || (ch in now && now[ch].generation > before[ch].generation)
    else
      ch in before && before[ch].generation <= under && Concluded(now, ch, under, end) && Begun(ch, under) in log
  }

  lemma StillRecovered(ch: nat, before: map<nat, Channel>, mid: map<nat, Channel>, now: map<nat, Channel>,
                       log: seq<Begun>, more: seq<Begun>, end: Outcome, under: nat, recovered: set<nat>)
    requires Recovered(ch, before, mid, log, end, under) && Passed(mid, now, recovered) && log <= more
    requires ch !in recovered || end == Ignored
    ensures Recovered(ch, before, now, more, end, under)
  {
  }

  /** A channel that just had its turn. */
  lemma JustRecovered(ch: nat, before: map<nat, Channel>, mid: map<nat, Channel>, now: map<nat, Channel>, log: seq<Begun>,
                      end: Outcome, under: nat, recovered: set<nat>)
    requires Passed(before, mid, recovered) && Passed(mid, now, {ch})
    requires end == Ignored <==> ch !in mid || !mid[ch].tracked
    requires end != Ignored ==> under == mid[ch].generation && Concluded(now, ch, under, end)
    ensures Recovered(ch, before, now, if end == Ignored then log else log + [Begun(ch, under)], end, under)
  {
  }

  ghost predicate AllRecovered(before: map<nat, Channel>, now: map<nat, Channel>, log: seq<Begun>,
                               ends: map<nat, Outcome>, under: map<nat, nat>) {
    && ends.Keys == under.Keys
    && forall ch :: ch in ends ==> Recovered(ch, before, now, log, ends[ch], under[ch])
  }

  /** The answering channels fail for no reason of the source, and nobody gives up early. */
  ghost predicate AllServed(ends: map<nat, Outcome>, answering: set<nat>, enough: bool) {
    forall ch :: ch in ends ==>
                   && (ch in answering ==> ends[ch] in {Ignored, Superseded, Waiting, Verified})
                   && (ends[ch] == Waiting ==> enough)
  }

  lemma ServedMore(a: map<nat, Outcome>, b: map<nat, Outcome>, answering: set<nat>, before: bool, since: bool, enough: bool)
    requires AllServed(a, answering, before) && AllServed(b, answering, since) && (before || since ==> enough)
    ensures AllServed(a + b, answering, enough)
  {
  }

  lemma ServedOne(a: map<nat, Outcome>, ch: nat, end: Outcome, answering: set<nat>, before: bool, enough: bool)
    requires AllServed(a, answering, before) && (before ==> enough) && (end == Waiting ==> enough)
    requires ch in answering ==> end in {Ignored, Superseded, Waiting, Verified}
    ensures AllServed(a[ch := end], answering, enough)
  {
  }

  /** A single channel that was tracked is recovered. */
  ghost predicate FirstServed(pending: set<nat>, before: map<nat, Channel>, ends: map<nat, Outcome>, under: map<nat, nat>) {
    |pending| == 1 ==>
      forall ch :: ch in pending && ch in ends && ch in under && ch in before && before[ch].tracked ==>
                     ends[ch] != Ignored && under[ch] == before[ch].generation
  }

  lemma OneOf(a: map<nat, Channel>, b: map<nat, Channel>, recovered: set<nat>, ch: nat)
    requires Passed(a, b, recovered) && ch in recovered
    ensures ch in a ==> ch in b && Onward(a[ch], b[ch])
  {
  }

  lemma NoneServed(m: map<nat, Channel>, answering: set<nat>)
    ensures AllRecovered(m, m, [], map[], map[]) && forall enough: bool :: AllServed(map[], answering, enough)
    ensures forall pending: set<nat> :: FirstServed(pending, m, map[], map[])
    ensures var none: map<nat, Outcome> := map[]; Passed(m, m, none.Keys)
  {
  }

  lemma FirstTurn(pending: set<nat>, before: map<nat, Channel>, mid: map<nat, Channel>, ends: map<nat, Outcome>,
                  under: map<nat, nat>, ch: nat, end: Outcome, g: nat)
    requires ch in pending && ends.Keys <= pending && ch !in ends && (ends == map[] ==> mid == before)
    requires end == Ignored <==> ch !in mid || !mid[ch].tracked
    requires end != Ignored ==> g == mid[ch].generation
    ensures FirstServed(pending, before, ends[ch := end], under[ch := g])
  {
    if |pending| == 1 {
      OnlyOne(pending, ch);
      assert ends.Keys == {};
    }
  }

  lemma OnlyOne(s: set<nat>, ch: nat)
    requires |s| == 1 && ch in s
    ensures s == {ch}
  {
    assert s - {ch} == {} by {
      assert |s - {ch}| == 0;
    }
  }

  /** A later round counts from the first one. */
  lemma RecoveredSince(ch: nat, before: map<nat, Channel>, mid: map<nat, Channel>, now: map<nat, Channel>,
                       log: seq<Begun>, more: seq<Begun>, end: Outcome, under: nat, recovered: set<nat>)
    requires Passed(before, mid, recovered) && Recovered(ch, mid, now, more, end, under)
    requires ch in mid ==> ch in now && Onward(mid[ch], now[ch])
    ensures Recovered(ch, before, now, log + more, end, under)
  {
  }

  class Worker {
    const universe: set<nat>

    // core.py's Outbox, durable like the checkpoint, baseline and row of each channel.
    var outbox: seq<Entry>
    var nextSeq: nat
    var channels: map<nat, Channel>
    // Volatile.
    var halted: bool
    var pending: set<nat>
    var busy: Option<nat>
    var task: Task
    var skipping: Option<nat>
    // The source, the stream and the backend, and what happened to each channel.
    var worlds: map<nat, World>
    ghost var runs: map<nat, seq<Event>>
    // Recoveries that began, rounds of recoveries, and how often a coroutine waited.
    ghost var started: seq<Begun>
    ghost var rounds: seq<set<nat>>
    ghost var waits: nat
    ghost var carded: seq<nat>

    function State(): Memory
      reads this
    {
      Memory(channels, outbox, nextSeq, halted, busy, task, skipping)
    }

    ghost predicate Valid()
      reads this
    {
      AllReached(universe, runs, worlds) && Faithful(universe, worlds, State()) && Ordered(universe, State())
    }

    constructor (universe: set<nat>)
      ensures Valid() && outbox == [] && forall ch :: ch in channels ==> !channels[ch].tracked
    {
      this.universe := universe;
      outbox, nextSeq := [], 1;
      channels := map ch | ch in universe :: Channel(None, 0, None, false, 0, UNKNOWN);
      halted, pending, busy, task, skipping := false, {}, None, Idle, None;
      worlds := map ch | ch in universe :: Blank();
      runs, started, rounds, waits, carded := map ch | ch in universe :: [], [], [], 0, [];
    }

    /** One channel and the recovery in progress change together. */
    method Move(ch: nat, c: Channel, busyNow: Option<nat>, taskNow: Task, e: Event)
      requires Valid() && ch in universe && ch in worlds && skipping == None && May(worlds[ch], e)
      requires (busyNow == busy && taskNow == task) || ((busy == None || busy == Some(ch)) && (busyNow == None || busyNow == Some(ch)))
      requires Agrees(Apply(worlds[ch], e), c, Own(outbox, ch), nextSeq, halted, TaskAt(busyNow, taskNow, ch), false)
      modifies this`channels, this`busy, this`task, this`worlds, this`runs
      ensures Valid() && channels == old(channels)[ch := c] && busy == busyNow && task == taskNow
      ensures worlds == old(worlds)[ch := Apply(old(worlds)[ch], e)]
    {
      hide Enabled, Apply, Own, Agrees, Faithful, AllReached;
      OneReachedStep(universe, runs, worlds, ch, e);
      OneFaithful(universe, worlds, State(), ch, Apply(worlds[ch], e), c, busyNow, taskNow);
      assert runs.Keys == universe by { RunsKnown(); }
      channels, busy, task := channels[ch := c], busyNow, taskNow;
      worlds, runs := worlds[ch := Apply(worlds[ch], e)], runs[ch := runs[ch] + [e]];
    }

    lemma RunsKnown()
      requires Valid()
      ensures worlds.Keys == runs.Keys == channels.Keys == universe
    {
    }

    // ---- The stream ------------------------------------------------------------------------

    /** A new session or a scheduled recovery of one channel. */
    method Supersede(ch: nat, e: Event)
      requires Valid() && ch in universe && ch in worlds && ch in channels && skipping == None && Supersedes(worlds[ch], e)
      modifies this`channels, this`busy, this`task, this`worlds, this`runs
      ensures Valid() && channels == old(channels)[ch := Restarted(old(channels)[ch])]
      ensures busy == old(busy) && task == old(task)
      ensures worlds == old(worlds)[ch := worlds[ch]]
    {
      hide AllReached, Faithful, Enabled, Apply, Own, Agrees, BegunRow, Ordered;
      FaithfulAt(universe, worlds, State(), ch);
      Superseding(worlds[ch], e, channels[ch], Own(outbox, ch), nextSeq, halted, TaskAt(busy, task, ch));
      var c := channels[ch];
      c := c.(generation := c.generation + 1, row := Some(BegunRow(c)), state := RECOVERING);
      Move(ch, c, busy, task, e);
    }

    method SupersedeAll(selected: set<nat>, events: map<nat, Event>)
      requires Valid() && skipping == None && selected <= universe && selected <= events.Keys
      requires forall ch :: ch in selected ==> ch in worlds && Supersedes(worlds[ch], events[ch])
      modifies this`channels, this`busy, this`task, this`worlds, this`runs
      ensures Valid() && channels == RestartedAll(old(channels), selected) && busy == old(busy) && task == old(task)
    {
      hide AllReached, Faithful, Restarted, Supersedes, RestartedAll, Ordered;
      var todo := selected;
      RestartNone(channels);
      RunsKnown();
      assert selected - todo == {};
      while todo != {}
        invariant Valid() && todo <= selected && channels == RestartedAll(old(channels), selected - todo)
        invariant busy == old(busy) && task == old(task) && worlds.Keys == old(worlds).Keys && channels.Keys == universe
        invariant forall ch :: ch in todo ==> worlds[ch] == old(worlds)[ch]
        decreases todo
      {
        var ch :| ch in todo;
        RestartOneMore(old(channels), selected - todo, ch);
        Supersede(ch, events[ch]);
        assert selected - todo + {ch} == selected - (todo - {ch});
        todo := todo - {ch};
      }
      assert selected - todo == selected;
    }

    lemma KnownWorld(ch: nat)
      requires Valid() && ch in universe
      ensures ch in worlds && ch in channels
      ensures worlds[ch].tracked == channels[ch].tracked && worlds[ch].skipping == (skipping == Some(ch))
    {
      FaithfulAt(universe, worlds, State(), ch);
    }

    /** READY: every tracked channel starts over. Its stream goes on from where it says. */
    method NewSession(cursors: map<nat, nat>)
      requires Valid() && skipping == None
      requires forall ch :: ch in universe && ch in channels && ch in worlds && channels[ch].tracked ==>
                 ch in cursors && worlds[ch].cursor <= cursors[ch] <= worlds[ch].latest
      modifies this`channels, this`busy, this`task, this`worlds, this`runs
      ensures Valid() && busy == old(busy) && task == old(task)
      ensures channels == RestartedAll(old(channels), set ch | ch in old(channels) && old(channels)[ch].tracked)
    {
      hide AllReached, Faithful, Restarted, Supersedes, RestartedAll, Ordered;
      RunsKnown();
      var tracked := set ch | ch in channels && channels[ch].tracked;
      var events := map ch | ch in tracked :: Event.NewSession(cursors[ch]);
      forall ch | ch in tracked ensures Supersedes(worlds[ch], events[ch]) {
        KnownWorld(ch);
        MaySupersede(worlds[ch], cursors[ch]);
      }
      SupersedeAll(tracked, events);
    }

    /** schedule_recovery. */
    method ScheduleRecovery(selected: set<nat>)
      requires Valid() && skipping == None
      requires forall ch :: ch in selected ==> ch in universe && ch in channels && channels[ch].tracked
      modifies this`channels, this`busy, this`task, this`pending, this`worlds, this`runs
      ensures Valid() && pending == old(pending) + selected && channels == RestartedAll(old(channels), selected)
      ensures busy == old(busy) && task == old(task)
    {
      hide AllReached, Faithful, Restarted, Supersedes, RestartedAll, Ordered;
      var events := map ch | ch in selected :: Schedule;
      forall ch | ch in selected ensures ch in worlds && Supersedes(worlds[ch], events[ch]) {
        KnownWorld(ch);
        MaySupersede(worlds[ch], worlds[ch].cursor);
      }
      SupersedeAll(selected, events);
      pending := pending + selected;
    }

    /** A message event of the stream: a receipt before anything else happens. A buffer that
        refuses it halts the worker. Creates arrive in order within a session. */
    method Capture(ch: nat, id: nat, create: bool, full: bool)
      requires Valid() && ch in universe && ch in channels && ch in worlds && skipping == None
      requires create && channels[ch].tracked && !halted ==> May(worlds[ch], Event.Capture(id))
      modifies this`outbox, this`nextSeq, this`halted, this`task, this`worlds, this`runs
      ensures Valid() && task == old(task)
      ensures old(halted) || !channels[ch].tracked ==> outbox == old(outbox) && halted == old(halted)
      ensures !old(halted) && channels[ch].tracked ==> halted == full
      ensures !old(halted) && channels[ch].tracked ==>
                if full then outbox == old(outbox) else outbox == old(outbox) + [Entry(old(nextSeq), ch, id, create)]
    {
      hide AllReached, Faithful, Agrees, Enabled, Apply, Own, Ordered;
      if halted || !channels[ch].tracked {
        return;
      }
      if full {
        FailBuffer();
        return;
      }
      FaithfulAt(universe, worlds, State(), ch);
      Receiving(worlds[ch], id, create, channels[ch], Own(outbox, ch), nextSeq, TaskAt(busy, task, ch));
      Append(ch, id, create, if create then Event.Capture(id) else CaptureChange(id), task);
    }

    /** fail_buffer: nothing is captured from here on. */
    method FailBuffer()
      requires Valid() && skipping == None
      modifies this`halted, this`worlds, this`runs
      ensures Valid() && halted
    {
      hide AllReached, Faithful, Ordered;
      HaltFaithful(universe, worlds, State());
      AllReachedStep(universe, runs, worlds, Everywhere(worlds, Halt));
      StillOrdered();
      halted := true;
      worlds, runs := Stepped(worlds, Everywhere(worlds, Halt)), Extended(runs, Everywhere(worlds, Halt));
    }

    lemma StillOrdered()
      requires Ordered(universe, State())
      ensures Ordered(universe, State().(halted := true))
    {
    }

    /** Outbox.append: the next number and a receipt at the end. */
    method Append(ch: nat, id: nat, create: bool, e: Event, taskNow: Task)
      requires Valid() && ch in universe && ch in worlds && ch in channels && skipping == None && May(worlds[ch], e)
      requires taskNow == task || busy == Some(ch)
      requires Agrees(Apply(worlds[ch], e), channels[ch], Own(outbox, ch) + [Item(nextSeq, id, create)], nextSeq + 1, halted,
                      TaskAt(busy, taskNow, ch), false)
      modifies this`outbox, this`nextSeq, this`task, this`worlds, this`runs
      ensures Valid() && task == taskNow
      ensures outbox == old(outbox) + [Entry(old(nextSeq), ch, id, create)] && nextSeq == old(nextSeq) + 1
    {
      hide AllReached, Faithful, Agrees, Enabled, Apply, Own;
      ReceiptFaithful(universe, worlds, State(), ch, e, id, create, taskNow);
      AllReachedStep(universe, runs, worlds, ReceiptEvents(worlds, ch, e));
      worlds, runs := Stepped(worlds, ReceiptEvents(worlds, ch, e)), Extended(runs, ReceiptEvents(worlds, ch, e));
      outbox, nextSeq, task := outbox + [Entry(nextSeq, ch, id, create)], nextSeq + 1, taskNow;
    }

    /** The process dies; what is not durable is gone. */
    method Restart()
      requires Valid()
      modifies this
      ensures Valid() && skipping == None && busy == None && pending == {} && !halted
      ensures outbox == old(outbox) && nextSeq == old(nextSeq) && channels == AllForgotten(old(channels))
    {
      hide AllReached, Faithful, Forgotten;
      CrashFaithful(universe, worlds, State());
      AllReachedStep(universe, runs, worlds, Everywhere(worlds, Crash));
      worlds, runs := Stepped(worlds, Everywhere(worlds, Crash)), Extended(runs, Everywhere(worlds, Crash));
      channels, halted, pending, busy, task, skipping := AllForgotten(channels), false, {}, None, Idle, None;
    }

    // ---- Delivery ---------------------------------------------------------------------------

    /** The backend stores the head of the outbox; the acknowledgement may still get lost. */
    method BackendReceives()
      requires Valid() && skipping == None
      modifies this`channels, this`busy, this`task, this`worlds, this`runs
      ensures Valid() && channels == old(channels) && busy == old(busy) && task == old(task)
      ensures |outbox| > 0 ==> HeadReceived()
    {
      hide AllReached, Faithful, Agrees, Enabled, Apply, Own;
      if |outbox| == 0 {
        return;
      }
      var ch := outbox[0].channel;
      FaithfulAt(universe, worlds, State(), ch);
      OwnFirst(outbox);
      Environment(worlds[ch], channels[ch], Own(outbox, ch), nextSeq, halted, TaskAt(busy, task, ch), 0);
      HeadOf(ch);
      Move(ch, channels[ch], busy, task, Receive);
    }

    ghost predicate HeadReceived()
      reads this
    {
      |outbox| > 0 && outbox[0].channel in worlds &&
      (outbox[0].create ==> outbox[0].id in worlds[outbox[0].channel].acked)
    }

    lemma HeadOf(ch: nat)
      requires Valid() && |outbox| > 0 && ch == outbox[0].channel && ch in worlds && May(worlds[ch], Receive)
      ensures outbox[0].create ==> outbox[0].id in Apply(worlds[ch], Receive).acked
    {
      FaithfulAt(universe, worlds, State(), ch);
      OwnFirst(outbox);
    }

    /** The acknowledgement arrived: the checkpoint first, then the receipt goes. A crash in
        between only replays. A message that was gone when its content was read was delivered
        as a deletion and leaves the checkpoint alone. */
    method Acknowledged(gone: bool)
      requires Valid() && skipping == None && HeadReceived()
      modifies this`outbox, this`skipping, this`channels, this`busy, this`task, this`worlds, this`runs
      ensures Valid() && skipping == None && outbox == old(outbox)[1..] && busy == old(busy) && task == old(task)
      ensures var e := old(outbox)[0];
              e.channel in old(channels) &&
              channels == old(channels)[e.channel :=
                            if e.create && !gone then Advanced(old(channels)[e.channel], e.id) else old(channels)[e.channel]]
    {
      hide AllReached, Faithful, Agrees, Enabled, Apply, Own, Advanced;
      var ch := outbox[0].channel;
      FaithfulAt(universe, worlds, State(), ch);
      OwnFirst(outbox);
      assert worlds[ch].acked == worlds[ch].acked;
      if outbox[0].create && !gone {
        Advancing(worlds[ch], channels[ch], Own(outbox, ch), nextSeq, halted, TaskAt(busy, task, ch));
        KeepsAcked(worlds[ch]);
        Move(ch, Advanced(channels[ch], outbox[0].id), busy, task, Advance);
      }
      RemoveHead();
    }

    lemma KeepsAcked(w: World)
      requires May(w, Advance)
      ensures Apply(w, Advance).acked == w.acked
    {
    }

    /** Outbox.ack of the head. */
    method RemoveHead()
      requires Valid() && skipping == None && HeadReceived()
      modifies this`outbox, this`skipping, this`worlds, this`runs
      ensures Valid() && skipping == None && outbox == old(outbox)[1..]
    {
      hide AllReached, Faithful, Agrees, Enabled, Apply, Own;
      var ch := outbox[0].channel;
      FaithfulAt(universe, worlds, State(), ch);
      OwnFirst(outbox);
      Acknowledging(worlds[ch], channels[ch], Own(outbox, ch), nextSeq, halted, TaskAt(busy, task, ch));
      DropHead(Remove);
    }

    method DropHead(e: Event)
      requires Valid() && |outbox| > 0 && outbox[0].channel in universe && outbox[0].channel in worlds
      requires May(worlds[outbox[0].channel], e) && (skipping == None || skipping == Some(outbox[0].channel))
      requires outbox[0].channel in channels
      requires var ch := outbox[0].channel;
               Agrees(Apply(worlds[ch], e), channels[ch], Own(outbox[1..], ch), nextSeq, halted, TaskAt(busy, task, ch), false)
      modifies this`outbox, this`skipping, this`worlds, this`runs
      ensures Valid() && outbox == old(outbox)[1..] && skipping == None
    {
      hide AllReached, Faithful, Agrees, Enabled, Apply, Own;
      var ch := outbox[0].channel;
      RunsKnown();
      HeadFaithful(universe, worlds, State(), Apply(worlds[ch], e), None);
      OneReachedStep(universe, runs, worlds, ch, e);
      worlds, runs := worlds[ch := Apply(worlds[ch], e)], runs[ch := runs[ch] + [e]];
      outbox, skipping := outbox[1..], None;
    }

    /** skip_event_with_gap: for a tracked channel the gap is durable before the receipt goes;
        for one that is not tracked the receipt just goes. */
    method SkipEventWithGap()
      requires Valid() && skipping == None && |outbox| > 0
      modifies this`outbox, this`channels, this`skipping, this`worlds, this`runs
      ensures Valid() && skipping == None && outbox == old(outbox)[1..]
      ensures var ch := old(outbox)[0].channel;
              ch in old(channels) &&
              channels == old(channels)[ch := if old(channels)[ch].tracked then Gapped(old(channels)[ch]) else old(channels)[ch]]
    {
      hide AllReached, Faithful, Agrees, Enabled, Apply, Own, Gapped;
      var ch := outbox[0].channel;
      FaithfulAt(universe, worlds, State(), ch);
      OwnFirst(outbox);
      Skipping(worlds[ch], channels[ch], Own(outbox, ch), nextSeq, halted, TaskAt(busy, task, ch));
      if channels[ch].tracked {
        MarkGap(ch);
        FaithfulAt(universe, worlds, State(), ch);
        SkippedAway(worlds[ch], channels[ch], Own(outbox, ch), nextSeq, halted, TaskAt(busy, task, ch));
        DropHead(SkipRemove);
      } else {
        DropHead(SkipUntracked);
      }
    }

    method MarkGap(ch: nat)
      requires Valid() && skipping == None && ch in universe && ch in worlds && ch in channels && May(worlds[ch], SkipGap)
      requires Agrees(Apply(worlds[ch], SkipGap), Gapped(channels[ch]), Own(outbox, ch), nextSeq, halted,
                      TaskAt(busy, task, ch), true)
      modifies this`channels, this`skipping, this`worlds, this`runs
      ensures Valid() && skipping == Some(ch) && channels == old(channels)[ch := Gapped(old(channels)[ch])]
    {
      hide AllReached, Faithful, Agrees, Enabled, Apply, Own;
      var c := channels[ch];
      RunsKnown();
      GapFaithful(universe, worlds, State(), ch, Apply(worlds[ch], SkipGap), Gapped(c));
      OneReachedStep(universe, runs, worlds, ch, SkipGap);
      worlds, runs := worlds[ch := Apply(worlds[ch], SkipGap)], runs[ch := runs[ch] + [SkipGap]];
      channels := channels[ch := c.(generation := c.generation + 1, row := Some(BegunRow(c).(gap := true)), state := GAP)];
      skipping := Some(ch);
    }

    // ---- Configuration ------------------------------------------------------------------------

    /** One channel is no longer configured: its recovery, if any, is superseded. */
    method RemoveChannel(ch: nat)
      requires Valid() && skipping == None && ch in universe && ch in channels && channels[ch].tracked
      modifies this`channels, this`busy, this`task, this`pending, this`worlds, this`runs
      ensures Valid() && channels == old(channels)[ch := Untracked(old(channels)[ch])] && pending == old(pending) - {ch}
      ensures busy == old(busy) && task == old(task)
    {
      hide AllReached, Faithful, Agrees, Enabled, Apply, Own, Untracked;
      FaithfulAt(universe, worlds, State(), ch);
      Configuring(worlds[ch], channels[ch], Own(outbox, ch), nextSeq, halted, TaskAt(busy, task, ch), 0);
      Move(ch, Untracked(channels[ch]), busy, task, Untrack);
      pending := pending - {ch};
    }

    /** A channel is configured: a recovery row exists before its stream is captured. */
    method AddChannel(ch: nat, cursor: nat)
      requires Valid() && skipping == None && ch in universe && ch in channels && ch in worlds && !channels[ch].tracked
      requires worlds[ch].cursor <= cursor <= worlds[ch].latest
      modifies this`channels, this`busy, this`task, this`worlds, this`runs
      ensures Valid() && channels == old(channels)[ch := Tracked(old(channels)[ch], old(worlds)[ch].latest)]
      ensures busy == old(busy) && task == old(task)
    {
      hide AllReached, Faithful, Agrees, Enabled, Apply, Own, Tracked;
      FaithfulAt(universe, worlds, State(), ch);
      Configuring(worlds[ch], channels[ch], Own(outbox, ch), nextSeq, halted, TaskAt(busy, task, ch), cursor);
      Move(ch, Tracked(channels[ch], worlds[ch].latest), busy, task, Track(cursor));
    }

    /** The backend's own progress stands in for a checkpoint that is missing here. It covers
        what was owed to it since the baseline. */
    method TakeCheckpoint(ch: nat, id: nat)
      requires Valid() && skipping == None && ch in universe && ch in channels && ch in worlds && id <= worlds[ch].latest
      requires channels[ch].row.Some? ==>
                 forall m :: m in worlds[ch].posted && channels[ch].base < m <= id ==> m in worlds[ch].acked
      modifies this`channels, this`busy, this`task, this`worlds, this`runs
      ensures Valid() && busy == old(busy) && task == old(task)
      ensures channels == if old(channels)[ch].checkpoint == None
                          then old(channels)[ch := Resumed(old(channels)[ch], id)] else old(channels)
    {
      hide AllReached, Faithful, Agrees, Enabled, Apply, Own, Resumed;
      if channels[ch].checkpoint == None {
        FaithfulAt(universe, worlds, State(), ch);
        Progressing(worlds[ch], channels[ch], Own(outbox, ch), nextSeq, halted, TaskAt(busy, task, ch), id);
        Move(ch, Resumed(channels[ch], id), busy, task, BackendProgress(id));
      }
    }

    // ---- Recovery ------------------------------------------------------------------------------

    twostate predicate SameLogs()
      reads this
    {
      started == old(started) && rounds == old(rounds) && carded == old(carded)
    }

    /** What the other coroutines may do while one waits: any of their steps, in any order. */
    method Await()
      requires Valid() && skipping == None
      modifies this
      ensures Valid() && skipping == None && busy == old(busy) && task == old(task)
      ensures SameLogs() && waits == old(waits) + 1
      ensures Passed(old(channels), channels, {})
    {
      hide AllReached, Faithful, Ordered, May, Enabled, Passed;
      var steps: nat := *;
      PassedSelf(channels, {});
      while steps > 0
        invariant Valid() && skipping == None && busy == old(busy) && task == old(task)
        invariant SameLogs() && waits == old(waits)
        invariant Passed(old(channels), channels, {})
      {
        ghost var before := channels;
        OtherStep();
        PassedOn(old(channels), before, channels, {}, {});
        steps := steps - 1;
      }
      waits := waits + 1;
    }

    method OtherStep()
      requires Valid() && skipping == None
      modifies this
      ensures Valid() && skipping == None && busy == old(busy) && task == old(task)
      ensures SameLogs() && waits == old(waits)
      ensures Passed(old(channels), channels, {})
    {
      hide AllReached, Faithful, Ordered, Enabled, Passed, Onward, Later, RestartedAll;
      RunsKnown();
      PassedSelf(channels, {});
      var kind: nat := *;
      var ch: nat := *;
      var id: nat := *;
      var create: bool := *;
      if ch !in channels {
        return;
      }
      if kind == 0 {
        if create && !Enabled(worlds[ch], Event.Capture(id)) {
          return;
        }
        assert create ==> May(worlds[ch], Event.Capture(id));
        var full: bool := *;
        Capture(ch, id, create, full);
      } else if kind == 1 {
        BackendReceives();
      } else if kind == 2 {
        BackendReceives();
        if |outbox| > 0 {
          LaterDelivered(outbox[0].channel, outbox[0].id);
          Acknowledged(create);
        }
      } else if kind == 3 {
        if |outbox| > 0 {
          LaterDelivered(outbox[0].channel, outbox[0].id);
          SkipEventWithGap();
        }
      } else if kind == 4 {
        SourcePosts(ch, id);
      } else {
        OtherChange(kind, ch, id);
      }
    }

    /** Delivery leaves state and row alone, unless it starts a new generation. */
    lemma LaterDelivered(ch: nat, id: nat)
      requires Valid()
      ensures ch in channels ==>
                && Passed(channels, channels[ch := channels[ch]], {})
                && Passed(channels, channels[ch := Advanced(channels[ch], id)], {})
                && Passed(channels, channels[ch := Gapped(channels[ch])], {})
    {
      if ch in channels {
        PassedOne(channels, ch, channels[ch]);
        PassedOne(channels, ch, Advanced(channels[ch], id));
        PassedOne(channels, ch, Gapped(channels[ch]));
      }
    }

    /** Configuration does, too. */
    lemma LaterConfigured(ch: nat, now: nat)
      requires Valid() && ch in channels
      ensures channels[ch].tracked ==> Passed(channels, channels[ch := Untracked(channels[ch])], {})
      ensures !channels[ch].tracked ==> Passed(channels, channels[ch := Tracked(channels[ch], now)], {})
    {
      if channels[ch].tracked {
        PassedOne(channels, ch, Untracked(channels[ch]));
      } else {
        PassedOne(channels, ch, Tracked(channels[ch], now));
      }
    }

    method OtherChange(kind: nat, ch: nat, id: nat)
      requires Valid() && skipping == None && ch in channels && ch in universe && ch in worlds
      modifies this
      ensures Valid() && skipping == None && busy == old(busy) && task == old(task)
      ensures SameLogs() && waits == old(waits)
      ensures Passed(old(channels), channels, {})
    {
      hide AllReached, Faithful, Ordered, May, Enabled, Passed, RestartedAll, Tracked, Untracked;
      RunsKnown();
      PassedSelf(channels, {});
      if kind == 5 {
        SomeSession();
      } else if kind == 6 {
        if channels[ch].tracked {
          PassedRestarted(channels, {ch});
          ScheduleRecovery({ch});
        }
      } else if kind == 7 {
        LaterConfigured(ch, worlds[ch].latest);
        if channels[ch].tracked {
          RemoveChannel(ch);
        } else if worlds[ch].cursor <= id <= worlds[ch].latest {
          AddChannel(ch, id);
        }
      } else {
        FailBuffer();
      }
    }

    method SomeSession()
      requires Valid() && skipping == None
      modifies this`channels, this`busy, this`task, this`worlds, this`runs
      ensures Valid() && busy == old(busy) && task == old(task) && Passed(old(channels), channels, {})
    {
      hide AllReached, Faithful, Ordered, May, Enabled, Passed, RestartedAll;
      RunsKnown();
      PassedSelf(channels, {});
      var cursors := map c | c in worlds :: worlds[c].latest;
      if forall c :: c in worlds ==> worlds[c].cursor <= cursors[c] {
        PassedRestarted(channels, set c | c in channels && channels[c].tracked);
        NewSession(cursors);
      }
    }

    method SourcePosts(ch: nat, id: nat)
      requires Valid() && skipping == None && ch in universe && ch in channels && ch in worlds
      modifies this`channels, this`busy, this`task, this`worlds, this`runs
      ensures Valid() && channels == old(channels) && busy == old(busy) && task == old(task)
    {
      hide AllReached, Faithful, Agrees, Enabled, Apply, Own;
      if id > worlds[ch].latest {
        FaithfulAt(universe, worlds, State(), ch);
        Environment(worlds[ch], channels[ch], Own(outbox, ch), nextSeq, halted, TaskAt(busy, task, ch), id);
        Move(ch, channels[ch], busy, task, Post(id));
      }
    }

    /** The recovery in progress still belongs to its channel's generation. */
    predicate IsCurrent()
      reads this
    {
      && busy.Some? && busy.value in channels && channels[busy.value].tracked && task != Idle
      && task.generation == channels[busy.value].generation
    }

    ghost predicate Working()
      reads this
    {
      Valid() && skipping == None && busy.Some? && busy.value in universe && task != Idle
    }

    /** drain_recovery: one round after the other until nothing is scheduled any more, as long as
        the process goes on. What was scheduled when it began is taken up in the first round. The
        source of the answering channels can be read and their history kept; under is the
        generation that was recovered. */
    method DrainRecovery(most: nat, answering: set<nat>, patience: nat)
      returns (ends: map<nat, Outcome>, ghost under: map<nat, nat>)
      requires Valid() && skipping == None && busy == None
      modifies this
      ensures Valid() && skipping == None && busy == None
      ensures most == 0 || old(pending) == {} ==> ends == map[] && State() == old(State()) && pending == old(pending)
      ensures old(started) <= started && old(rounds) <= rounds && ends.Keys == under.Keys
      // Nothing scheduled is left, unless the process stopped.
      ensures |rounds| <= |old(rounds)| + most && (pending == {} || |rounds| == |old(rounds)| + most)
      ensures most > 0 ==> old(pending) <= ends.Keys
      ensures AllRecovered(old(channels), channels, started[|old(started)|..], ends, under)
      ensures AllServed(ends, answering, waits >= old(waits) + patience)
      ensures most == 1 ==> FirstServed(old(pending), old(channels), ends, under)
    {
      hide AllReached, Faithful, Ordered, Passed, AllRecovered, AllServed, FirstServed;
      NoneServed(channels, answering);
      assert started[|started|..] == [];
      ends, under := map[], map[];
      PassedSelf(channels, {});
      ghost var done: set<nat> := {};
      var left := most;
      while left > 0 && pending != {}
        invariant Valid() && skipping == None && busy == None && 0 <= left <= most
        invariant ends.Keys == under.Keys && (left == most ==> under == map[])
        invariant old(started) <= started && old(rounds) <= rounds && waits >= old(waits)
        invariant |rounds| == |old(rounds)| + most - left && Passed(old(channels), channels, done)
        invariant left < most ==> old(pending) <= ends.Keys && old(pending) != {}
        invariant left == most ==> ends == map[] && State() == old(State()) && pending == old(pending)
        invariant AllRecovered(old(channels), channels, started[|old(started)|..], ends, under)
        invariant AllServed(ends, answering, waits >= old(waits) + patience)
        invariant left == most - 1 ==> FirstServed(old(pending), old(channels), ends, under)
      {
        var selected := pending;
        ghost var mid, log, waited := channels, started, waits;
        pending := {};
        var more;
        ghost var newer;
        more, newer := RecoverAll(selected, answering, patience);
        Rounds(old(channels), mid, old(started), log, ends, under, more, newer, done);
        PassedOn(old(channels), mid, channels, done, selected);
        ServedMore(ends, more, answering, waited >= old(waits) + patience, waits >= waited + patience,
                   waits >= old(waits) + patience);
        assert ends == map[] ==> ends + more == more && under + newer == newer;
        ends, under, done := ends + more, under + newer, done + selected;
        left := left - 1;
      }
    }

    /** What one more round leaves of the earlier ones. */
    lemma Rounds(before: map<nat, Channel>, mid: map<nat, Channel>, begun: seq<Begun>, log: seq<Begun>,
                 ends: map<nat, Outcome>, under: map<nat, nat>, more: map<nat, Outcome>, newer: map<nat, nat>, done: set<nat>)
      requires begun <= log <= started
      requires Passed(before, mid, done) && Passed(mid, channels, more.Keys)
      requires AllRecovered(before, mid, log[|begun|..], ends, under)
      requires AllRecovered(mid, channels, started[|log|..], more, newer)
      ensures AllRecovered(before, channels, started[|begun|..], ends + more, under + newer)
    {
      hide Recovered, Passed;
      assert started[|begun|..] == log[|begun|..] + started[|log|..];
      forall ch | ch in more ensures Recovered(ch, before, channels, started[|begun|..], more[ch], newer[ch]) {
        OneOf(mid, channels, more.Keys, ch);
        RecoveredSince(ch, before, mid, channels, log[|begun|..], started[|log|..], more[ch], newer[ch], done);
      }
      forall ch | ch in ends && ch !in more
        ensures Recovered(ch, before, channels, started[|begun|..], ends[ch], under[ch])
      {
        StillRecovered(ch, before, mid, channels, log[|begun|..], started[|begun|..], ends[ch], under[ch], more.Keys);
      }
    }

    method RecoverAll(selected: set<nat>, answering: set<nat>, patience: nat)
      returns (ends: map<nat, Outcome>, ghost under: map<nat, nat>)
      requires Valid() && skipping == None && busy == None
      modifies this
      ensures Valid() && skipping == None && busy == None && ends.Keys == under.Keys == selected
      ensures rounds == old(rounds) + [selected] && old(started) <= started && Passed(old(channels), channels, selected)
      ensures AllRecovered(old(channels), channels, started[|old(started)|..], ends, under)
      ensures forall b :: b in started[|old(started)|..] ==>
                            b.channel in selected && ends[b.channel] != Ignored && b.generation == under[b.channel]
      ensures waits >= old(waits) && AllServed(ends, answering, waits >= old(waits) + patience)
      ensures FirstServed(selected, old(channels), ends, under)
    {
      hide AllReached, Faithful, Ordered, May, Enabled, Passed, AllRecovered, AllServed, FirstServed, Concluded;
      NoneServed(channels, answering);
      assert started[|started|..] == [];
      var todo := selected;
      ends, under := map[], map[];
      rounds := rounds + [selected];
      while todo != {}
        invariant Valid() && skipping == None && busy == None
        invariant todo <= selected && ends.Keys == under.Keys == selected - todo
        invariant rounds == old(rounds) + [selected] && old(started) <= started && waits >= old(waits)
        invariant Passed(old(channels), channels, ends.Keys)
        invariant ends == map[] ==> channels == old(channels)
        invariant AllRecovered(old(channels), channels, started[|old(started)|..], ends, under)
        invariant forall b :: b in started[|old(started)|..] ==>
                                b.channel in ends && ends[b.channel] != Ignored && b.generation == under[b.channel]
        invariant AllServed(ends, answering, waits >= old(waits) + patience)
        invariant FirstServed(selected, old(channels), ends, under)
        decreases todo
      {
        var ch :| ch in todo;
        ghost var mid, log, waited := channels, started, waits;
        var end;
        ghost var g;
        end, g := RecoverNext(ch, ch in answering, patience);
        Turn(old(channels), mid, old(started), log, ends, under, ch, end, g);
        PassedOn(old(channels), mid, channels, ends.Keys, {ch});
        assert ends[ch := end].Keys == ends.Keys + {ch};
        ServedOne(ends, ch, end, answering, waited >= old(waits) + patience, waits >= old(waits) + patience);
        FirstTurn(selected, old(channels), mid, ends, under, ch, end, g);
        ends, under, todo := ends[ch := end], under[ch := g], todo - {ch};
      }
    }

    /** What one more turn leaves of the earlier ones. */
    lemma Turn(before: map<nat, Channel>, mid: map<nat, Channel>, begun: seq<Begun>, log: seq<Begun>,
               ends: map<nat, Outcome>, under: map<nat, nat>, ch: nat, end: Outcome, g: nat)
      requires begun <= log && started == (if end == Ignored then log else log + [Begun(ch, g)])
      requires ch !in ends && Passed(before, mid, ends.Keys) && Passed(mid, channels, {ch})
      requires AllRecovered(before, mid, log[|begun|..], ends, under)
      requires end == Ignored <==> ch !in mid || !mid[ch].tracked
      requires end != Ignored ==> g == mid[ch].generation && Concluded(channels, ch, g, end)
      ensures AllRecovered(before, channels, started[|begun|..], ends[ch := end], under[ch := g])
      ensures started[|begun|..] == log[|begun|..] + if end == Ignored then [] else [Begun(ch, g)]
    {
      hide Recovered, Passed, Concluded;
      assert started[|begun|..] == log[|begun|..] + if end == Ignored then [] else [Begun(ch, g)];
      JustRecovered(ch, before, mid, channels, log[|begun|..], end, g, ends.Keys);
      assert log[|begun|..] + [] == log[|begun|..];
      forall c | c in ends ensures Recovered(c, before, channels, started[|begun|..], ends[c], under[c]) {
        StillRecovered(c, before, mid, channels, log[|begun|..], started[|begun|..], ends[c], under[c], {ch});
      }
    }

    /** One channel's turn; one that is not configured any more is passed over. */
    method RecoverNext(ch: nat, answering: bool, patience: nat) returns (end: Outcome, ghost under: nat)
      requires Valid() && skipping == None && busy == None
      modifies this
      ensures Valid() && skipping == None && busy == None && rounds == old(rounds) && waits >= old(waits)
      ensures end == Ignored <==> ch !in old(channels) || !old(channels)[ch].tracked
      ensures started == if end == Ignored then old(started) else old(started) + [Begun(ch, under)]
      ensures end != Ignored ==> under == old(channels)[ch].generation && Concluded(channels, ch, under, end)
      ensures Passed(old(channels), channels, {ch})
      ensures answering ==> end in {Ignored, Superseded, Waiting, Verified}
      ensures end == Waiting ==> waits >= old(waits) + patience
    {
      hide AllReached, Faithful, Ordered, May, Enabled, Passed, Concluded;
      RunsKnown();
      PassedSelf(channels, {ch});
      end, under := Ignored, 0;
      if ch in channels {
        under := channels[ch].generation;
        var source: Answers := *;
        var room: Option<nat> := *;
        var cards: seq<nat> := *;
        end := Recover(ch, if answering then READABLE else source, if answering then None else room, cards, patience);
      }
    }

    /** recover, for one channel. After every wait it goes on only while it is current. room is
        how many receipts the outbox still takes of its history, cards are the channel's cards
        that the backend still acts on, and patience is how often the recovery looks whether the
        outbox is drained. */
    method Recover(ch: nat, source: Answers, room: Option<nat>, cards: seq<nat>, patience: nat) returns (end: Outcome)
      requires Valid() && skipping == None && busy == None && ch in universe && ch in channels
      modifies this
      ensures Valid() && skipping == None && busy == None && ch in channels && rounds == old(rounds) && waits >= old(waits)
      ensures end == Ignored <==> !old(channels)[ch].tracked
      ensures end == Ignored ==> channels == old(channels) && outbox == old(outbox)
      ensures started == if end == Ignored then old(started) else old(started) + [Begun(ch, old(channels)[ch].generation)]
      ensures Passed(old(channels), channels, {ch}) && Concluded(channels, ch, old(channels)[ch].generation, end)
      ensures end.Unreadable? || end.BufferFull? || end.Incomplete? || end.Verified? ==>
                Holds(ch, old(channels)[ch].generation) && Closed(channels[ch], end)
      ensures Caused(end, source, room)
      ensures end == Waiting ==> |outbox| > 0 && waits >= old(waits) + patience
      ensures end.Waiting? || end.Incomplete? || end.Verified? ==> carded == old(carded) + cards
    {
      hide AllReached, Faithful, Ordered, May, Enabled, Passed, Closed;
      PassedSelf(channels, {ch});
      if !channels[ch].tracked {
        return Ignored;
      }
      ghost var first := channels;
      StartRecovery(ch);
      ghost var begun := channels;
      end := ReachSource(ch, source, room, cards, patience);
      PassedOn(first, begun, channels, {ch}, {ch});
    }

    /** Why a recovery could not be verified. */
    predicate Caused(end: Outcome, source: Answers, room: Option<nat>) {
      && (end == Unreadable ==> !(source.reachable && source.readable && source.cards))
      && (end == Incomplete ==> source.long)
      && (end == BufferFull ==> room.Some?)
    }

    /** The recovery of this generation is over, and the channel shows how. */
    ghost predicate Over(ch: nat, generation: nat, end: Outcome)
      reads this
    {
      && Valid() && skipping == None && busy == None && end != Ignored && Concluded(channels, ch, generation, end)
      && (end.Unreadable? || end.BufferFull? || end.Incomplete? || end.Verified? ==>
            Holds(ch, generation) && Closed(channels[ch], end))
    }

    /** The recovery has begun: the channel's status is reported and its source opened. */
    method ReachSource(ch: nat, source: Answers, room: Option<nat>, cards: seq<nat>, patience: nat) returns (end: Outcome)
      requires Working() && IsCurrent() && busy == Some(ch) && task.Started?
      modifies this
      ensures Over(ch, old(task).generation, end) && started == old(started) && rounds == old(rounds) && waits >= old(waits)
      ensures Passed(old(channels), channels, {ch}) && Caused(end, source, room)
      ensures end == Waiting ==> |outbox| > 0 && waits >= old(waits) + patience
      ensures end.Waiting? || end.Incomplete? || end.Verified? ==> carded == old(carded) + cards
    {
      hide AllReached, Faithful, Ordered, May, Enabled, Passed, Closed, Concluded;
      PassedSelf(channels, {ch});
      ghost var first := channels;
      Await();
      PassedOn(first, first, channels, {ch}, {});
      RunsKnown();
      if !IsCurrent() {
        GiveUp(first, ch);
        return Superseded;
      }
      ghost var reached := channels;
      if !source.reachable {
        FailRecovery(source.forbidden);
        PassedOn(first, reached, channels, {ch}, {ch});
        return Unreadable;
      }
      end := ReadSource(ch, source, room, cards, patience);
      PassedOn(first, reached, channels, {ch}, {ch});
    }

    /** The history is read and relayed. */
    method ReadSource(ch: nat, source: Answers, room: Option<nat>, cards: seq<nat>, patience: nat) returns (end: Outcome)
      requires Working() && IsCurrent() && busy == Some(ch) && task.Started?
      modifies this
      ensures Over(ch, old(task).generation, end) && started == old(started) && rounds == old(rounds) && waits >= old(waits)
      ensures Passed(old(channels), channels, {ch})
      ensures (end == Incomplete ==> source.long) && (end == BufferFull ==> room.Some?)
      ensures end == Unreadable ==> !(source.readable && source.cards)
      ensures end == Waiting ==> |outbox| > 0 && waits >= old(waits) + patience
      ensures end.Waiting? || end.Incomplete? || end.Verified? ==> carded == old(carded) + cards
    {
      hide AllReached, Faithful, Ordered, May, Enabled, Passed, Closed, Concluded;
      ghost var first := channels;
      var _ := ReadPages(source.long);
      RunsKnown();
      if !IsCurrent() {
        GiveUp(first, ch);
        return Superseded;
      }
      ghost var read := channels;
      if !source.readable {
        FailRecovery(source.forbidden);
        PassedOn(first, read, channels, {ch}, {ch});
        return Unreadable;
      }
      end := Relay(ch, source, room, cards, patience);
      PassedOn(first, read, channels, {ch}, {ch});
    }

    /** The pages of the history, with a wait before each step. A history that is not too long
        is read completely. */
    method ReadPages(long: bool) returns (complete: bool)
      requires Working() && IsCurrent() && task.Started?
      modifies this
      ensures Working() && busy == old(busy) && task.Fetched? && task.appended == 0
      ensures task.generation == old(task).generation && task.complete == complete && (!long ==> complete)
      ensures Passed(old(channels), channels, {busy.value}) && SameLogs() && waits >= old(waits)
    {
      hide AllReached, Faithful, Ordered, May, Enabled, Passed;
      ghost var first := channels;
      ReadHistory();
      ghost var asked := channels;
      Await();
      PassedOn(first, asked, channels, {busy.value}, {});
      FirstPage();
      ghost var paged := channels;
      Await();
      PassedOn(first, paged, channels, {busy.value}, {});
      complete := FetchHistory(long);
    }

    /** The channel is tracked and nothing has superseded that generation. */
    predicate Holds(ch: nat, generation: nat)
      reads this`channels
    {
      ch in channels && channels[ch].tracked && channels[ch].generation == generation
    }

    /** The history goes into the outbox without a wait, the current cards one by one, and the
        recovery waits until the outbox is drained up to the watermark. */
    method Relay(ch: nat, source: Answers, room: Option<nat>, cards: seq<nat>, patience: nat) returns (end: Outcome)
      requires Working() && IsCurrent() && busy == Some(ch) && task.Fetched? && task.appended == 0
      modifies this
      ensures Over(ch, old(task).generation, end) && started == old(started) && rounds == old(rounds) && waits >= old(waits)
      ensures Passed(old(channels), channels, {ch})
      ensures end == BufferFull <==> room.Some? && room.value < |old(task).history|
      ensures end == Unreadable ==> !source.cards
      ensures end == Incomplete ==> !old(task).complete
      ensures end == Waiting ==> |outbox| > 0 && waits >= old(waits) + patience
      ensures end.Waiting? || end.Incomplete? || end.Verified? ==> carded == old(carded) + cards
    {
      hide AllReached, Faithful, Ordered, May, Enabled, Passed, Closed, Concluded;
      var appended := AppendHistory(room);
      if !appended {
        FailRecovery(false);
        return BufferFull;
      }
      end := RelayCurrent(ch, source, cards, patience);
    }

    /** The current cards follow, and the outbox drains. */
    method RelayCurrent(ch: nat, source: Answers, cards: seq<nat>, patience: nat) returns (end: Outcome)
      requires Working() && IsCurrent() && busy == Some(ch) && task.Fetched? && task.appended == |task.history|
      modifies this
      ensures Over(ch, old(task).generation, end) && started == old(started) && rounds == old(rounds) && waits >= old(waits)
      ensures Passed(old(channels), channels, {ch}) && end != BufferFull
      ensures end == Unreadable ==> !source.cards
      ensures end == Incomplete ==> !old(task).complete
      ensures end == Waiting ==> |outbox| > 0 && waits >= old(waits) + patience
      ensures end.Waiting? || end.Incomplete? || end.Verified? ==> carded == old(carded) + cards
    {
      hide AllReached, Faithful, Ordered, May, Enabled, Passed, Closed, Concluded;
      PassedSelf(channels, {ch});
      ghost var first := channels;
      var read := RelayCards(source.cards, cards);
      PassedOn(first, first, channels, {ch}, {});
      RunsKnown();
      if !IsCurrent() {
        GiveUp(first, ch);
        return Superseded;
      }
      ghost var relayed := channels;
      if !read {
        FailRecovery(source.forbidden);
        PassedOn(first, relayed, channels, {ch}, {ch});
        return Unreadable;
      }
      end := Settle(ch, patience);
      PassedOn(first, relayed, channels, {ch}, {ch});
    }

    /** Up to the watermark the outbox has to drain before the recovery may end. */
    method Settle(ch: nat, patience: nat) returns (end: Outcome)
      requires Working() && IsCurrent() && busy == Some(ch) && task.Fetched? && task.appended == |task.history|
      modifies this
      ensures Over(ch, old(task).generation, end) && SameLogs() && waits >= old(waits)
      ensures Passed(old(channels), channels, {ch})
      ensures end == Waiting ==> |outbox| > 0 && waits >= old(waits) + patience
      ensures end == (if old(task).complete then Verified else Incomplete) || end.Superseded? || end.Waiting?
    {
      hide AllReached, Faithful, Ordered, May, Enabled, Passed, Closed, Concluded;
      PassedSelf(channels, {ch});
      ghost var first := channels;
      SetWatermark();
      AwaitDrained(patience);
      PassedOn(first, first, channels, {ch}, {});
      RunsKnown();
      if !IsCurrent() {
        GiveUp(first, ch);
        return Superseded;
      }
      if !Drained(task.watermark) {
        LeaveRecovery();
        assert Concluded(channels, ch, old(task).generation, Waiting) by { StillWaiting(ch, old(task).generation); }
        return Waiting;
      }
      ghost var drained := channels;
      end := if task.complete then Verified else Incomplete;
      FinishRecovery();
      PassedOn(first, drained, channels, {ch}, {ch});
    }

    /** The cards of the channel that the backend still acts on, one read each. */
    method RelayCards(readable: bool, cards: seq<nat>) returns (ok: bool)
      requires Working() && IsCurrent() && task.Fetched? && task.appended == |task.history|
      modifies this
      ensures Working() && task == old(task) && busy == old(busy) && (readable ==> ok)
      ensures started == old(started) && rounds == old(rounds) && waits >= old(waits)
      ensures ok && IsCurrent() ==> carded == old(carded) + cards
      ensures Passed(old(channels), channels, {})
    {
      hide AllReached, Faithful, Ordered, May, Enabled, Passed;
      PassedSelf(channels, {});
      ghost var first := channels;
      ok := true;
      var i := 0;
      while i < |cards| && ok && IsCurrent()
        invariant Working() && task == old(task) && busy == old(busy) && (readable ==> ok) && i <= |cards|
        invariant started == old(started) && rounds == old(rounds) && waits >= old(waits)
        invariant ok && IsCurrent() ==> carded == old(carded) + cards[..i]
        invariant Passed(first, channels, {})
        decreases |cards| - i
      {
        ghost var before := channels;
        Await();
        PassedOn(first, before, channels, {}, {});
        if readable && IsCurrent() {
          AppendCard(cards[i]);
        }
        ok := readable;
        assert cards[..i + 1] == cards[..i] + [cards[i]];
        i := i + 1;
      }
      assert cards[..|cards|] == cards;
    }

    method AwaitDrained(patience: nat)
      requires Working() && task.Draining?
      modifies this
      ensures Working() && task == old(task) && busy == old(busy) && SameLogs() && waits >= old(waits)
      ensures IsCurrent() && !Drained(task.watermark) ==> waits >= old(waits) + patience
      ensures Passed(old(channels), channels, {})
    {
      hide AllReached, Faithful, Ordered, May, Enabled, Passed;
      PassedSelf(channels, {});
      ghost var first := channels;
      var left := patience;
      while left > 0 && IsCurrent() && !Drained(task.watermark)
        invariant Working() && task == old(task) && busy == old(busy) && SameLogs()
        invariant waits == old(waits) + patience - left && Passed(first, channels, {})
      {
        ghost var before := channels;
        Await();
        PassedOn(first, before, channels, {}, {});
        left := left - 1;
      }
    }

    method StartRecovery(ch: nat)
      requires Valid() && ch in universe && ch in channels && channels[ch].tracked && skipping == None && busy == None
      modifies this`channels, this`busy, this`task, this`worlds, this`runs, this`started
      ensures started == old(started) + [Begun(ch, old(channels)[ch].generation)] && Passed(old(channels), channels, {ch})
      ensures Working() && busy == Some(ch) && task == Started(old(channels)[ch].generation)
      ensures channels == old(channels)[ch := old(channels)[ch].(state := RECOVERING)]
    {
      hide AllReached, Faithful, Agrees, Enabled, Apply, Own, May;
      FaithfulAt(universe, worlds, State(), ch);
      Starting(worlds[ch], channels[ch], Own(outbox, ch), nextSeq, halted);
      PassedOne(channels, ch, channels[ch].(state := RECOVERING));
      started := started + [Begun(ch, channels[ch].generation)];
      Move(ch, channels[ch].(state := RECOVERING), Some(ch), Started(channels[ch].generation), Start);
    }

    /** A superseded or cancelled recovery leaves everything as it is. */
    method LeaveRecovery()
      requires Working()
      modifies this`channels, this`busy, this`task, this`worlds, this`runs
      ensures Valid() && busy == None && channels == old(channels)
    {
      hide AllReached, Faithful, Agrees, Enabled, Apply, Own, May;
      var ch := busy.value;
      FaithfulAt(universe, worlds, State(), ch);
      Leaving(worlds[ch], channels[ch], Own(outbox, ch), nextSeq, halted, task);
      Move(ch, channels[ch], None, Idle, Leave);
    }

    lemma StillWaiting(ch: nat, generation: nat)
      requires ch in channels
      ensures Concluded(channels, ch, generation, Waiting)
    {
    }

    /** A recovery that finds itself superseded leaves. */
    method GiveUp(ghost first: map<nat, Channel>, ch: nat)
      requires Working() && !IsCurrent() && busy == Some(ch) && Passed(first, channels, {ch})
      requires ch in first && first[ch].tracked && first[ch].generation == task.generation
      modifies this`channels, this`busy, this`task, this`worlds, this`runs
      ensures channels == old(channels) && Over(ch, old(task).generation, Superseded)
    {
      hide AllReached, Faithful, Ordered, Passed;
      RunsKnown();
      Overtaken(first, channels, {ch}, ch);
      LeaveRecovery();
    }

    method FailRecovery(forbidden: bool)
      requires Working() && IsCurrent()
      modifies this`channels, this`busy, this`task, this`worlds, this`runs
      ensures Valid() && busy == None && Passed(old(channels), channels, {old(busy).value})
      ensures channels == old(channels)[old(busy).value :=
                Ended(old(channels)[old(busy).value], false).(state := if forbidden then FORBIDDEN else GAP)]
      ensures skipping == None && Over(old(busy).value, old(task).generation, Unreadable)
      ensures Over(old(busy).value, old(task).generation, BufferFull)
    {
      hide AllReached, Faithful, Agrees, Enabled, Apply, Own, May;
      var ch := busy.value;
      FaithfulAt(universe, worlds, State(), ch);
      Failing(worlds[ch], channels[ch], Own(outbox, ch), nextSeq, halted, task, forbidden);
      PassedOne(channels, ch, Ended(channels[ch], false).(state := if forbidden then FORBIDDEN else GAP));
      Move(ch, Ended(channels[ch], false).(state := if forbidden then FORBIDDEN else GAP), None, Idle, Fail(forbidden));
    }

    /** begin_recovery: history is read down to the anchor of the row. */
    method ReadHistory()
      requires Working() && IsCurrent() && task.Started?
      modifies this`channels, this`busy, this`task, this`worlds, this`runs
      ensures Working() && busy == old(busy) && task.Reading? && task.generation == old(task).generation
      ensures Passed(old(channels), channels, {busy.value})
      ensures var ch := old(busy).value;
              && channels == old(channels)[ch := old(channels)[ch].(row := Some(BegunRow(old(channels)[ch])))]
              && task.anchor == BegunRow(old(channels)[ch]).anchor
    {
      hide AllReached, Faithful, Agrees, Enabled, Apply, Own, May, BegunRow;
      var ch := busy.value;
      FaithfulAt(universe, worlds, State(), ch);
      ReadingHistory(worlds[ch], channels[ch], Own(outbox, ch), nextSeq, halted, task);
      PassedOne(channels, ch, channels[ch].(row := Some(BegunRow(channels[ch]))));
      Move(ch, channels[ch].(row := Some(BegunRow(channels[ch]))), busy,
           Reading(task.generation, BegunRow(channels[ch]).anchor), Event.ReadHistory);
    }

    method FirstPage()
      requires Working() && task.Reading?
      modifies this`channels, this`busy, this`task, this`worlds, this`runs
      ensures Working() && busy == old(busy) && task.Fetching? && channels == old(channels)
      ensures task.generation == old(task).generation && task.anchor == old(task).anchor
    {
      hide AllReached, Faithful, Agrees, Enabled, Apply, Own, May;
      var ch := busy.value;
      FaithfulAt(universe, worlds, State(), ch);
      ReadingPage(worlds[ch], channels[ch], Own(outbox, ch), nextSeq, halted, task);
      Move(ch, channels[ch], busy, Fetching(task.generation, task.anchor, worlds[ch].latest), Event.FirstPage);
    }

    /** What the pages brought; see module History for how they are read. Only a history that
        is too long may lack some of what was posted since the anchor. */
    method FetchHistory(long: bool) returns (complete: bool)
      requires Working() && task.Fetching?
      modifies this`channels, this`busy, this`task, this`worlds, this`runs
      ensures Working() && busy == old(busy) && task.Fetched? && task.appended == 0 && channels == old(channels)
      ensures task.generation == old(task).generation && task.complete == complete && (!long ==> complete)
    {
      hide AllReached, Faithful, Agrees, Enabled, Apply, Own, May, HistoryOk;
      var ch := busy.value;
      FaithfulAt(universe, worlds, State(), ch);
      KnownTask(ch);
      var history: seq<nat> := *;
      complete := *;
      if !HistoryOk(worlds[ch], history, complete) || (!long && !complete) {
        history := PostedBetween(worlds[ch]);
        complete := true;
      }
      ReadAll(worlds[ch], channels[ch], Own(outbox, ch), nextSeq, halted, task, history, complete);
      Move(ch, channels[ch], busy, Fetched(task.generation, task.anchor, task.snapshot, history, complete, 0),
           HistoryRead(history, complete));
    }

    /** Everything posted since the anchor. */
    method PostedBetween(w: World) returns (history: seq<nat>)
      requires w.task.Fetching?
      ensures HistoryOk(w, history, true)
    {
      history := [];
      var m := w.task.anchor + 1;
      while m <= w.task.snapshot
        invariant Ascending(history)
        invariant forall i :: 0 <= i < |history| ==> history[i] in w.posted && history[i] < m && history[i] <= w.task.snapshot
        invariant forall p :: p in w.posted && w.task.anchor < p < m && p <= w.task.snapshot ==> p in history
        decreases w.task.snapshot - m
      {
        if m in w.posted {
          history := history + [m];
        }
        m := m + 1;
      }
    }

    lemma KnownTask(ch: nat)
      requires Valid() && busy == Some(ch) && ch in universe
      ensures ch in worlds && worlds[ch].task == task
    {
      FaithfulAt(universe, worlds, State(), ch);
    }

    /** False when the buffer does not take all of it. */
    method AppendHistory(room: Option<nat>) returns (ok: bool)
      requires Working() && IsCurrent() && task.Fetched? && task.appended == 0
      modifies this`outbox, this`nextSeq, this`task, this`worlds, this`runs
      ensures Working() && IsCurrent() && task.Fetched?
      ensures ok <==> room.None? || |old(task).history| <= room.value
      ensures ok ==> task == old(task).(appended := |old(task).history|)
      ensures ok ==> |outbox| == |old(outbox)| + |old(task).history| && old(outbox) <= outbox
    {
      hide AllReached, Faithful, Agrees, Enabled, Apply, Own, May, Ordered;
      var ch := busy.value;
      while task.appended < |task.history|
        invariant Working() && IsCurrent() && task.Fetched? && task.appended <= |task.history|
        invariant room.Some? ==> task.appended <= room.value
        invariant task == old(task).(appended := task.appended)
        invariant |outbox| == |old(outbox)| + task.appended && old(outbox) <= outbox
        decreases |task.history| - task.appended
      {
        if room.Some? && room.value <= task.appended {
          return false;
        }
        FaithfulAt(universe, worlds, State(), ch);
        AppendingHistory(worlds[ch], channels[ch], Own(outbox, ch), nextSeq, task, halted);
        Append(ch, task.history[task.appended], true, Event.AppendHistory, task.(appended := task.appended + 1));
      }
      ok := true;
    }

    method AppendCard(id: nat)
      requires Working() && IsCurrent() && task.Fetched?
      modifies this`outbox, this`nextSeq, this`task, this`worlds, this`runs, this`carded
      ensures Working() && task == old(task) && nextSeq == old(nextSeq) + 1 && carded == old(carded) + [id]
      ensures outbox == old(outbox) + [Entry(old(nextSeq), busy.value, id, false)]
    {
      hide AllReached, Faithful, Agrees, Enabled, Apply, Own, May;
      var ch := busy.value;
      FaithfulAt(universe, worlds, State(), ch);
      AppendingCard(worlds[ch], channels[ch], Own(outbox, ch), nextSeq, task, halted, id);
      Append(ch, id, false, Event.AppendCard(id), task);
      carded := carded + [id];
    }

    /** The newest receipt of all channels, zero for an empty outbox. */
    method Newest() returns (mark: nat)
      requires Ordered(universe, State())
      ensures mark < nextSeq && forall i :: 0 <= i < |outbox| ==> outbox[i].seqNo <= mark
    {
      mark := 0;
      for i := 0 to |outbox|
        invariant mark < nextSeq && forall j :: 0 <= j < i ==> outbox[j].seqNo <= mark
      {
        if outbox[i].seqNo > mark {
          mark := outbox[i].seqNo;
        }
      }
    }

    method SetWatermark()
      requires Working() && IsCurrent() && task.Fetched? && task.appended == |task.history|
      modifies this`channels, this`busy, this`task, this`worlds, this`runs
      ensures Working() && busy == old(busy) && task.Draining? && channels == old(channels)
      ensures task.generation == old(task).generation && task.complete == old(task).complete
      ensures forall i :: 0 <= i < |outbox| ==> outbox[i].seqNo <= task.watermark
    {
      hide AllReached, Faithful, Agrees, Enabled, Apply, May;
      var ch := busy.value;
      var mark := Newest();
      FaithfulAt(universe, worlds, State(), ch);
      OwnAbove(outbox, ch, mark, true);
      hide Own;
      Watermarking(worlds[ch], channels[ch], Own(outbox, ch), nextSeq, halted, task, mark);
      Move(ch, channels[ch], busy, Draining(task.generation, task.anchor, task.snapshot, mark, task.complete),
           Watermark(mark));
    }

    predicate Drained(mark: nat)
      reads this
    {
      forall i :: 0 <= i < |outbox| ==> outbox[i].seqNo > mark
    }

    /** The history is in the backend: the row goes if it was complete. */
    method FinishRecovery()
      requires Working() && IsCurrent() && task.Draining? && Drained(task.watermark)
      modifies this`channels, this`busy, this`task, this`worlds, this`runs
      ensures Valid() && busy == None && Passed(old(channels), channels, {old(busy).value})
      ensures var ch := old(busy).value;
              channels == old(channels)[ch := Ended(old(channels)[ch], old(task).complete).(
                                                checkpoint := Some(ResumeAt(old(channels)[ch])))]
      ensures Over(old(busy).value, old(task).generation, if old(task).complete then Verified else Incomplete)
    {
      hide AllReached, Faithful, Agrees, Enabled, Apply, May, Ordered;
      var ch := busy.value;
      FaithfulAt(universe, worlds, State(), ch);
      OwnAbove(outbox, ch, task.watermark, false);
      hide Own;
      Finishing(worlds[ch], channels[ch], Own(outbox, ch), nextSeq, halted, task);
      var c := channels[ch];
      if c.checkpoint.None? {
        c := c.(checkpoint := Some(c.base));
      }
      assert ResumeAt(channels[ch]) == c.checkpoint.value;
      PassedOne(channels, ch, Ended(c, task.complete));
      Move(ch, Ended(c, task.complete), None, Idle, Finish);
    }
  }
}
