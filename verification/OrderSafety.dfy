/** Theorems over every legal run of the order ledger. */
module OrderSafety {
  import opened OrderProtocol
  import opened Prelude

  // ---- Rows agree with the exchange ---------------------------------------------------

  lemma RowsInit(w: World)
    requires Init(w)
    ensures RowsOk(w) && SentOnce(w) && Numbered(w.rows) && OneOpenExit(w)
  {
  }

  /** An event touches one row at most; every other row keeps its facts. */
  lemma RowStep(w: World, e: Event, k: nat)
    requires RowsOk(w) && SentOnce(w) && Enabled(w, e) && k < |Apply(w, e).rows|
    ensures RowOk(Apply(w, e), k)
  {
    assert k < |w.rows| ==> RowOk(w, k);
  }

  lemma RowsStep(w: World, e: Event)
    requires RowsOk(w) && SentOnce(w) && Enabled(w, e)
    ensures RowsOk(Apply(w, e))
  {
    forall k: nat | k < |Apply(w, e).rows| ensures RowOk(Apply(w, e), k) {
      RowStep(w, e, k);
    }
  }

  lemma SentStep(w: World, e: Event)
    requires RowsOk(w) && SentOnce(w) && Enabled(w, e)
    ensures SentOnce(Apply(w, e))
  {
    if e.Send? {
      assert RowOk(w, e.k);
    }
  }

  // ---- Generations are numbered, so client IDs are distinct ---------------------------

  lemma CountPrefix(rows: seq<Row>, signal: string, n: nat, m: nat)
    requires n <= m <= |rows|
    ensures ExitCount(rows[..n], signal) <= ExitCount(rows[..m], signal)
    ensures n < m && ExitOf(rows[n], signal) ==> ExitCount(rows[..n], signal) < ExitCount(rows[..m], signal)
  {
    if n < m {
      CountPrefix(rows, signal, n, m - 1);
      assert rows[..m][..m - 1] == rows[..m - 1];
    }
  }

  /** Counting looks at identities only. */
  lemma CountSameIds(a: seq<Row>, b: seq<Row>, signal: string)
    requires |a| == |b| && forall k :: 0 <= k < |a| ==> a[k].id == b[k].id
    ensures ExitCount(a, signal) == ExitCount(b, signal)
  {
    if |a| > 0 {
      CountSameIds(a[..|a| - 1], b[..|b| - 1], signal);
    }
  }

  lemma NumberedStep(w: World, e: Event)
    requires Numbered(w.rows) && Enabled(w, e)
    ensures Numbered(Apply(w, e).rows)
  {
    var rows := Apply(w, e).rows;
    forall k: nat | k < |rows| && rows[k].id.ExitId?
      ensures rows[k].id.generation == ExitCount(rows[..k], rows[k].id.signal)
    {
      if k < |w.rows| {
        CountSameIds(w.rows[..k], rows[..k], rows[k].id.signal);
      } else {
        assert rows[..k] == w.rows;
      }
    }
  }

  lemma DistinctIds(rows: seq<Row>, i: nat, j: nat)
    requires Numbered(rows) && i < j < |rows|
    ensures rows[i].id != rows[j].id
  {
    if rows[i].id == rows[j].id && rows[i].id.ExitId? {
      CountPrefix(rows, rows[i].id.signal, i, j);
    }
  }

  // ---- One unfinished exit, and the intent names it -----------------------------------

  /** Opening an exit needs that no other exit is unfinished. */
  lemma OneOpenExitOpen(w: World, row: Row, intent: Intent)
    requires OneOpenExit(w) && Enabled(w, ExitOpened(row, intent))
    ensures OneOpenExit(Apply(w, ExitOpened(row, intent)))
  {
    hide Numbered, ExitCount;
  }

  /** No other event adds a row, changes an identity or re-opens a final row. */
  lemma OneOpenExitOther(w: World, e: Event)
    requires OneOpenExit(w) && Enabled(w, e) && !e.ExitOpened?
    ensures OneOpenExit(Apply(w, e))
  {
    hide FirstGeneration, NextGeneration, FreshExit, ExitCount;
    var v := Apply(w, e);
    assert |v.rows| == |w.rows|;
    forall k: nat | k < |w.rows|
      ensures v.rows[k].id == w.rows[k].id && (OrderTerminal(w.rows[k].status) ==> OrderTerminal(v.rows[k].status))
    {
    }
  }

  lemma OneOpenExitStep(w: World, e: Event)
    requires OneOpenExit(w) && Enabled(w, e)
    ensures OneOpenExit(Apply(w, e))
  {
    if e.ExitOpened? {
      OneOpenExitOpen(w, e.row, e.intent);
    } else {
      OneOpenExitOther(w, e);
    }
  }

  lemma ChainStep(w: World, e: Event)
    requires OneOpenExit(w) && ChainBounded(w) && Enabled(w, e)
    ensures ChainBounded(Apply(w, e))
  {
  }

  // ---- A partial exit stays within the quantity first frozen --------------------------

  lemma ReducedFrame(w: World, v: World, signal: string, n: nat)
    requires n <= |w.rows| && n <= |v.rows|
    requires forall k: nat :: k < n ==> w.rows[k].id == v.rows[k].id
    requires forall k: nat :: k < n && ExitOf(w.rows[k], signal) ==> Fill(w, k) == Fill(v, k)
    ensures Reduced(w, signal, n) == Reduced(v, signal, n)
  {
    if n > 0 {
      ReducedFrame(w, v, signal, n - 1);
    }
  }

  /** With no exit of the signal executed, nothing was reduced for it. */
  lemma NothingReduced(w: World, signal: string, n: nat)
    requires RowsOk(w) && n <= |w.rows|
    requires forall k: nat :: k < n && ExitOf(w.rows[k], signal) ==>
                                w.rows[k].executed <= 0.0 && OrderTerminal(w.rows[k].status)
    ensures Reduced(w, signal, n) == 0.0
  {
    if n > 0 {
      NothingReduced(w, signal, n - 1);
      assert RowOk(w, n - 1);
    }
  }

  lemma CountedHasRow(rows: seq<Row>, signal: string)
    requires forall k :: 0 <= k < |rows| ==> !ExitOf(rows[k], signal)
    ensures ExitCount(rows, signal) == 0
  {
    if |rows| > 0 {
      CountedHasRow(rows[..|rows| - 1], signal);
    }
  }

  /** Opening an exit leaves what was already reduced unchanged. */
  lemma WithinFrozenOpen(w: World, row: Row, intent: Intent, signal: string)
    requires RowsOk(w) && OneOpenExit(w) && WithinFrozen(w, signal) && Enabled(w, ExitOpened(row, intent))
    ensures WithinFrozen(Apply(w, ExitOpened(row, intent)), signal)
  {
    var v := Apply(w, ExitOpened(row, intent));
    var n := |w.rows|;
    ReducedFrame(w, v, signal, n);
    assert v.rows[..n] == w.rows;
    assert n !in w.venue;
    if signal == intent.signal && !intent.full && signal !in w.fulls {
      if intent.attempts == 0 {
        NothingReduced(w, signal, n);
      } else {
        assert RowOk(w, n - 1);
      }
    }
  }

  /** A fill lands on an order that is still open at the exchange, so on the last exit. */
  lemma WithinFrozenFill(w: World, k: nat, qty: real, signal: string)
    requires RowsOk(w) && OneOpenExit(w) && WithinFrozen(w, signal) && Enabled(w, Fills(k, qty))
    ensures WithinFrozen(Apply(w, Fills(k, qty)), signal)
  {
    var v := Apply(w, Fills(k, qty));
    assert RowOk(w, k);
    if ExitOf(w.rows[k], signal) {
      ReducedFrame(w, v, signal, k);
    } else {
      ReducedFrame(w, v, signal, |w.rows|);
      ReducedFrame(w, v, signal, |w.rows| - 1);
    }
  }

  /** Every other event leaves what was reduced, frozen and asked for alone. */
  ghost predicate SameReduction(w: World, v: World) {
    && |v.rows| == |w.rows| && v.fulls == w.fulls && v.frozen == w.frozen
    && (forall k: nat :: k < |w.rows| ==>
                           && v.rows[k].id == w.rows[k].id && Fill(v, k) == Fill(w, k)
                           && (w.rows[k].id.ExitId? ==> v.rows[k].qty == w.rows[k].qty))
    && (v.ctx.intent.Some? ==>
          && w.ctx.intent.Some? && v.ctx.intent.value.signal == w.ctx.intent.value.signal
          && v.ctx.intent.value.full == w.ctx.intent.value.full
          && v.ctx.intent.value.priorFilled == w.ctx.intent.value.priorFilled)
  }

  lemma OtherKeeps(w: World, e: Event)
    requires RowsOk(w) && Enabled(w, e) && !e.ExitOpened? && !e.Fills?
    ensures SameReduction(w, Apply(w, e))
  {
    if e.Lands? {
      assert RowOk(w, e.k);
    }
  }

  lemma WithinFrozenOther(w: World, e: Event, signal: string)
    requires RowsOk(w) && OneOpenExit(w) && WithinFrozen(w, signal) && Enabled(w, e)
    requires !e.ExitOpened? && !e.Fills?
    ensures WithinFrozen(Apply(w, e), signal)
  {
    hide Enabled, Apply, RowsOk, Fill;
    var v := Apply(w, e);
    OtherKeeps(w, e);
    CountSameIds(w.rows, v.rows, signal);
    ReducedFrame(w, v, signal, |w.rows|);
    if |w.rows| > 0 {
      ReducedFrame(w, v, signal, |w.rows| - 1);
    }
  }

  // ---- Every legal run ------------------------------------------------------------------

  /** No entry leg is about to be sent while the latch is on. */
  ghost predicate LatchHeld(w: World) {
    w.ctx.entryDisabled && w.pending.Some? ==>
      w.pending.value < |w.rows| && w.rows[w.pending.value].id.ExitId?
  }

  lemma LatchStep(w: World, e: Event)
    requires RowsOk(w) && LatchHeld(w) && Enabled(w, e)
    ensures LatchHeld(Apply(w, e))
  {
  }

  ghost predicate Safe(w: World) {
    RowsOk(w) && SentOnce(w) && Numbered(w.rows) && OneOpenExit(w) && ChainBounded(w) && LatchHeld(w)
  }

  lemma {:induction false} SafeStep(w: World, e: Event)
    requires Safe(w) && Enabled(w, e)
    ensures Safe(Apply(w, e))
  {
    RowsStep(w, e);
    SentStep(w, e);
    NumberedStep(w, e);
    OneOpenExitStep(w, e);
    ChainStep(w, e);
    LatchStep(w, e);
  }

  lemma {:induction false} AlwaysSafe(w: World, run: seq<Event>)
    requires Init(w) && Legal(w, run)
    ensures Safe(After(w, run))
  {
    if run == [] {
      RowsInit(w);
    } else {
      AlwaysSafe(w, run[..|run| - 1]);
      SafeStep(After(w, run[..|run| - 1]), run[|run| - 1]);
    }
  }

  /** Over any run, crashes included, no client ID is sent to the exchange twice. */
  lemma {:induction false} SentAtMostOnce(w: World, run: seq<Event>, i: nat, j: nat)
    requires Init(w) && Legal(w, run)
    requires i < j < |After(w, run).sent|
    ensures var v := After(w, run);
            v.sent[i] < |v.rows| && v.sent[j] < |v.rows| && v.rows[v.sent[i]].id != v.rows[v.sent[j]].id
  {
    AlwaysSafe(w, run);
    var v := After(w, run);
    if v.sent[i] < v.sent[j] {
      DistinctIds(v.rows, v.sent[i], v.sent[j]);
    } else {
      DistinctIds(v.rows, v.sent[j], v.sent[i]);
    }
  }

  /** The last event of a longer run. */
  lemma LastEvent(w: World, run: seq<Event>, more: seq<Event>)
    requires more != [] && Legal(w, run + more)
    ensures var before := After(w, run + more[..|more| - 1]);
            && Legal(w, run + more[..|more| - 1]) && Enabled(before, more[|more| - 1])
            && After(w, run + more) == Apply(before, more[|more| - 1])
  {
    hide Enabled, Apply;
    assert (run + more)[..|run + more| - 1] == run + more[..|more| - 1];
    assert (run + more)[|run + more| - 1] == more[|more| - 1];
  }

  /** What a row never loses: its identity, its quantity and price once it left PLANNED,
      and everything once it is final. */
  ghost predicate RowKept(row: Row, later: Row) {
    && later.id == row.id && later.kind == row.kind
    && (row.status != PLANNED ==> later.qty == row.qty && later.price == row.price && later.status != PLANNED)
    && (OrderTerminal(row.status) ==> later == row)
  }

  ghost predicate Later(w: World, v: World) {
    && |w.rows| <= |v.rows|
    && (forall k :: 0 <= k < |w.rows| ==> RowKept(w.rows[k], v.rows[k]))
    && (w.ctx.entryDisabled ==> v.ctx.entryDisabled)
  }

  lemma LaterStep(w: World, v: World, e: Event)
    requires Later(w, v) && Enabled(v, e)
    ensures Later(w, Apply(v, e))
  {
  }

  /** Rows only move forward, over any further run. */
  lemma {:induction false} LaterAlways(w: World, run: seq<Event>, more: seq<Event>)
    requires Legal(w, run + more)
    ensures Later(After(w, run), After(w, run + more))
    decreases |more|
  {
    if more == [] {
      assert run + more == run;
    } else {
      LastEvent(w, run, more);
      hide Legal, After, Enabled, Apply, Later;
      LaterAlways(w, run, more[..|more| - 1]);
      LaterStep(After(w, run), After(w, run + more[..|more| - 1]), more[|more| - 1]);
    }
  }

  lemma SentFollows(v: World, e: Event)
    requires Enabled(v, e)
    ensures v.sent <= Apply(v, e).sent
  {
  }

  /** Requests only ever follow, over any further run. */
  lemma {:induction false} SentGrows(w: World, run: seq<Event>, more: seq<Event>)
    requires Legal(w, run + more)
    ensures After(w, run).sent <= After(w, run + more).sent
    decreases |more|
  {
    if more == [] {
      assert run + more == run;
    } else {
      LastEvent(w, run, more);
      hide Legal, After, Enabled, Apply;
      SentGrows(w, run, more[..|more| - 1]);
      SentFollows(After(w, run + more[..|more| - 1]), more[|more| - 1]);
    }
  }

  ghost predicate OnlyExits(v: World, from: nat) {
    forall i :: from <= i < |v.sent| ==> v.sent[i] < |v.rows| && v.rows[v.sent[i]].id.ExitId?
  }

  ghost predicate StillLatched(u: World, v: World) {
    v.ctx.entryDisabled && u.sent <= v.sent && OnlyExits(v, |u.sent|)
  }

  lemma LatchedStep(u: World, v: World, e: Event)
    requires StillLatched(u, v) && Safe(v) && Enabled(v, e)
    ensures StillLatched(u, Apply(v, e))
  {
  }

  /** Once the latch is durable it stays, and every later request is an exit. */
  lemma {:induction false} LatchIsFinal(w: World, run: seq<Event>, more: seq<Event>)
    requires Init(w) && Legal(w, run + more) && After(w, run).ctx.entryDisabled
    ensures After(w, run + more).ctx.entryDisabled
    ensures After(w, run).sent <= After(w, run + more).sent
    ensures OnlyExits(After(w, run + more), |After(w, run).sent|)
    decreases |more|
  {
    if more == [] {
      assert run + more == run;
    } else {
      LastEvent(w, run, more);
      hide Legal, After, Enabled, Apply, OnlyExits, Safe, Init;
      LatchIsFinal(w, run, more[..|more| - 1]);
      AlwaysSafe(w, run + more[..|more| - 1]);
      LatchedStep(After(w, run), After(w, run + more[..|more| - 1]), more[|more| - 1]);
    }
  }

  /** In every reachable state at most one exit is unfinished; it is the newest row and the
      durable intent names exactly that row. */
  lemma {:induction false} OneOpenExitAlways(w: World, run: seq<Event>, i: nat, j: nat)
    requires Init(w) && Legal(w, run) && i < |After(w, run).rows| && j < |After(w, run).rows|
    ensures var v := After(w, run);
            v.rows[i].id.ExitId? && !OrderTerminal(v.rows[i].status) ==>
              && v.ctx.intent.Some? && v.ctx.intent.value.orderId == v.rows[i].id
              && (v.rows[j].id.ExitId? && !OrderTerminal(v.rows[j].status) ==> i == j)
  {
    AlwaysSafe(w, run);
  }

  /** One intent issues at most 1 + MAX_EXIT_RESUBMITS orders. */
  lemma {:induction false} ExitOrdersBounded(w: World, run: seq<Event>)
    requires Init(w) && Legal(w, run) && After(w, run).ctx.intent.Some?
    ensures |After(w, run).rows| - After(w, run).chainStart <= 1 + MAX_EXIT_RESUBMITS
  {
    AlwaysSafe(w, run);
  }

  lemma {:induction false} AlwaysWithinFrozen(w: World, run: seq<Event>, signal: string)
    requires Init(w) && Legal(w, run)
    ensures WithinFrozen(After(w, run), signal)
  {
    if run == [] {
      CountedHasRow(w.rows, signal);
    } else {
      var before, e := After(w, run[..|run| - 1]), run[|run| - 1];
      AlwaysWithinFrozen(w, run[..|run| - 1], signal);
      AlwaysSafe(w, run[..|run| - 1]);
      match e
      case ExitOpened(row, intent) => WithinFrozenOpen(before, row, intent, signal);
      case Fills(k, qty) => WithinFrozenFill(before, k, qty, signal);
      case _ => WithinFrozenOther(before, e, signal);
    }
  }

  /** A signal that only ever asked for partial exits reduces the position, at the exchange
      and over all its generations, by no more than the quantity its chain first froze. */
  lemma {:induction false} PartialExitBounded(w: World, run: seq<Event>, signal: string)
    requires Init(w) && Legal(w, run)
    requires signal !in After(w, run).fulls && ExitCount(After(w, run).rows, signal) > 0
    ensures var v := After(w, run);
            signal in v.frozen && Reduced(v, signal, |v.rows|) <= v.frozen[signal]
  {
    AlwaysWithinFrozen(w, run, signal);
  }

  lemma ReducedGrows(w: World, v: World, signal: string, n: nat)
    requires n <= |w.rows| <= |v.rows|
    requires forall k: nat :: k < n ==> w.rows[k].id == v.rows[k].id && Fill(w, k) <= Fill(v, k)
    ensures Reduced(w, signal, n) <= Reduced(v, signal, n)
  {
    if n > 0 {
      ReducedGrows(w, v, signal, n - 1);
    }
  }

  lemma FillStep(w: World, e: Event, k: nat)
    requires RowsOk(w) && Enabled(w, e) && k < |w.rows|
    ensures w.rows[k].id == Apply(w, e).rows[k].id && Fill(w, k) <= Fill(Apply(w, e), k)
  {
    assert RowOk(w, k);
  }

  /** One event never lowers what a signal reduced, and moves its frozen quantity only
      while nothing was reduced. */
  lemma FrozenStep(w: World, e: Event, signal: string)
    requires RowsOk(w) && OneOpenExit(w) && Enabled(w, e) && signal !in Apply(w, e).fulls
    requires Reduced(w, signal, |w.rows|) > 0.0
    ensures Reduced(Apply(w, e), signal, |Apply(w, e).rows|) > 0.0
    ensures signal in w.frozen ==> signal in Apply(w, e).frozen && Apply(w, e).frozen[signal] == w.frozen[signal]
  {
    forall k: nat | k < |w.rows|
      ensures w.rows[k].id == Apply(w, e).rows[k].id && Fill(w, k) <= Fill(Apply(w, e), k)
    {
      FillStep(w, e, k);
    }
    ReducedGrows(w, Apply(w, e), signal, |w.rows|);
    if e.ExitOpened? {
      FrozenStepOpen(w, e.row, e.intent, signal);
    }
  }

  lemma FrozenStepOpen(w: World, row: Row, intent: Intent, signal: string)
    requires RowsOk(w) && OneOpenExit(w) && Enabled(w, ExitOpened(row, intent))
    requires Reduced(w, signal, |w.rows|) > 0.0
    ensures intent.signal == signal && !intent.full ==> intent.attempts > 0
    ensures |w.rows| !in w.venue
  {
    if intent.signal == signal && !intent.full && intent.attempts == 0 {
      NothingReduced(w, signal, |w.rows|);
    }
  }

  /** The bound is the quantity of the chain that first executed: once something was
      reduced for a signal, no later chain of partial exits freezes another quantity. */
  lemma {:induction false} FrozenIsFinal(w: World, run: seq<Event>, more: seq<Event>, signal: string)
    requires Init(w) && Legal(w, run + more) && Legal(w, run)
    requires signal !in After(w, run + more).fulls && signal in After(w, run).frozen
    requires Reduced(After(w, run), signal, |After(w, run).rows|) > 0.0
    ensures var u, v := After(w, run), After(w, run + more);
            && Reduced(v, signal, |v.rows|) > 0.0
            && signal in v.frozen && v.frozen[signal] == u.frozen[signal]
    decreases |more|
  {
    if more == [] {
      assert run + more == run;
    } else {
      LastEvent(w, run, more);
      FullsGrow(After(w, run + more[..|more| - 1]), more[|more| - 1], signal);
      hide Legal, After, Enabled, Apply, Init, Reduced, RowsOk, OneOpenExit;
      FrozenIsFinal(w, run, more[..|more| - 1], signal);
      AlwaysSafe(w, run + more[..|more| - 1]);
      FrozenStep(After(w, run + more[..|more| - 1]), more[|more| - 1], signal);
    }
  }

  lemma FullsGrow(w: World, e: Event, signal: string)
    requires Enabled(w, e) && signal !in Apply(w, e).fulls
    ensures signal !in w.fulls
  {
  }
}
