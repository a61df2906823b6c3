/** The durable order ledger of one managed trade, seen as a state machine.

    Every durable write of the executor, every request that leaves the process and every
    move of the exchange is one event. A run is legal when each event was enabled in the
    state before it. A crash is an event too, and it may follow any other event, so what
    holds after every legal run holds after a crash between any two durable writes. */
module OrderProtocol {
  import opened Prelude

  const MAX_EXIT_RESUBMITS: nat := 3

  /** Local statuses are PLANNED, SUBMITTING, UNKNOWN and ABANDONED; REJECTED is written
      locally or reported. CANCELED and EXPIRED stand for both spellings of each. */
  datatype Status =
    | PLANNED | SUBMITTING | UNKNOWN
    | NEW | PARTIALLY_FILLED | FILLED | CANCELED | EXPIRED | REJECTED
    | ABANDONED

  predicate OrderTerminal(status: Status) {
    status == FILLED || status == CANCELED || status == EXPIRED || status == REJECTED || status == ABANDONED
  }

  predicate VenueStatus(status: Status) {
    status != PLANNED && status != SUBMITTING && status != UNKNOWN && status != ABANDONED
  }

  datatype Kind = MARKET | LIMIT

  /** The client ID: a hash of the trade and the leg, or of the trade, the signal and the
      generation of its exit. Hashing is taken as injective. */
  datatype Id = EntryId(leg: nat) | ExitId(signal: string, generation: nat)

  datatype Row = Row(id: Id, kind: Kind, price: real, qty: real, status: Status,
                     known: bool, executed: real, avg: real, updatedAt: int)

  /** The durable exit intent (close_pending_json). */
  datatype Intent = Intent(signal: string, orderId: Id, full: bool, attempts: nat,
                           priorFilled: real, residualSeenAt: Option<int>)

  datatype TradeState = ENTRY_PENDING | OPEN | BREAKEVEN | CLOSE_PENDING | CLOSED | CANCELLED | DEADLINE_EXPIRED

  predicate TradeTerminal(state: TradeState) {
    state == CLOSED || state == CANCELLED || state == DEADLINE_EXPIRED
  }

  datatype Ctx = Ctx(entryDisabled: bool, intent: Option<Intent>, state: TradeState,
                     quantity: real, avgFill: real, positionSeen: bool)

  /** What the exchange holds for one ledger row. */
  datatype VenueOrder = VenueOrder(executed: real, open: bool)

  /** Durable rows and context, the exchange's orders (by row index), requests that were
      sent and may still land, the request this process is about to send, and the log of
      everything sent. The last three fields only remember the past: where the current
      chain of exits starts, the quantity each signal's chain first froze, and the signals
      that ever asked for a full close. */
  datatype World = World(rows: seq<Row>, ctx: Ctx,
                         venue: map<nat, VenueOrder>, inflight: set<nat>,
                         pending: Option<nat>, sent: seq<nat>,
                         chainStart: nat, frozen: map<string, real>, fulls: set<string>)

  datatype Event =
    | Restart
    | BeginSubmit(k: nat, at: int)
    | Send(k: nat)
    | Refused(k: nat)
    | Uncertain(k: nat, at: int)
    | Recorded(k: nat, status: Status, executed: real, avg: real)
    | Abandoned(k: nat)
    | Resized(k: nat, qty: real, price: real)
    | Latched
    | Settled(quantity: real, avg: real, state: TradeState, positionSeen: bool)
    | ExitOpened(row: Row, intent: Intent)
    | ResidualSeen(at: int)
    | Released(state: TradeState, quantity: real)
      // moves of the exchange
    | Lands(k: nat)
    | Lost(k: nat)
    | Fills(k: nat, qty: real)
    | Ends(k: nat)

  predicate VenueEvent(e: Event) {
    e.Lands? || e.Lost? || e.Fills? || e.Ends?
  }

  function ExitCount(rows: seq<Row>, signal: string): nat {
    if rows == [] then 0
    else ExitCount(rows[..|rows| - 1], signal) + (if ExitOf(rows[|rows| - 1], signal) then 1 else 0)
  }

  predicate ExitOf(row: Row, signal: string) {
    row.id.ExitId? && row.id.signal == signal
  }

  predicate FreshExit(rows: seq<Row>, row: Row, intent: Intent) {
    && row.id == ExitId(intent.signal, ExitCount(rows, intent.signal))
    && row.status == PLANNED && !row.known && row.executed == 0.0 && row.qty > 0.0
    && row.kind == MARKET
    && intent.orderId == row.id && intent.residualSeenAt == None
  }

  /** A first generation needs no pending intent; a partial one also needs that nothing of
      the same signal executed before. */
  predicate FirstGeneration(w: World, row: Row, intent: Intent) {
    && w.ctx.intent == None
    && intent.attempts == 0 && intent.priorFilled == 0.0
    && (!intent.full ==>
          forall k :: 0 <= k < |w.rows| && ExitOf(w.rows[k], intent.signal) ==>
                        w.rows[k].executed <= 0.0 && w.rows[k].status != FILLED)
  }

  /** A later generation replaces the named order once that one has ended. */
  predicate NextGeneration(w: World, row: Row, intent: Intent) {
    && w.ctx.intent.Some? && |w.rows| > 0
    && var prior, prev := w.ctx.intent.value, w.rows[|w.rows| - 1];
    && prev.id == prior.orderId && OrderTerminal(prev.status)
    && intent.signal == prior.signal && intent.full == prior.full
    && prior.attempts < MAX_EXIT_RESUBMITS && intent.attempts == prior.attempts + 1
    && intent.priorFilled == prior.priorFilled + prev.executed
    && (!intent.full ==> row.qty <= prev.qty - prev.executed)
  }

  predicate Enabled(w: World, e: Event) {
    && (w.pending.Some? ==> e.Restart? || e.Send? || VenueEvent(e))
    && match e
       case Restart => true
       // PLANNED is the only status that may be submitted, and an entry leg only while
       // the latch is off.
       case BeginSubmit(k, at) =>
         k < |w.rows| && w.rows[k].status == PLANNED && (w.rows[k].id.EntryId? ==> !w.ctx.entryDisabled)
       case Send(k) => w.pending == Some(k)
       case Refused(k) =>
         k < |w.rows| && w.rows[k].status == SUBMITTING && k !in w.venue && k !in w.inflight
       case Uncertain(k, at) => k < |w.rows| && w.rows[k].status == SUBMITTING
       case Recorded(k, status, executed, avg) =>
         && k < |w.rows| && k in w.venue && VenueStatus(status)
         && w.rows[k].status != PLANNED && !OrderTerminal(w.rows[k].status)
         && 0.0 <= executed <= w.venue[k].executed && w.rows[k].executed <= executed + TOLERANCE
         && (OrderTerminal(status) ==> !w.venue[k].open && executed == w.venue[k].executed)
       case Abandoned(k) =>
         && k < |w.rows|
         && (w.rows[k].status == PLANNED ||
             ((w.rows[k].status == SUBMITTING || w.rows[k].status == UNKNOWN) && !w.rows[k].known
              && k !in w.venue && k !in w.inflight))
       case Resized(k, qty, price) =>
         k < |w.rows| && w.rows[k].id.EntryId? && w.rows[k].status == PLANNED && 0.0 < qty <= w.rows[k].qty
       case Latched => true
       case Settled(_, _, _, _) => true
       case ExitOpened(row, intent) =>
         FreshExit(w.rows, row, intent) && (FirstGeneration(w, row, intent) || NextGeneration(w, row, intent))
       case ResidualSeen(at) => w.ctx.intent.Some?
       // An intent is released only after the order it names has ended.
       case Released(state, quantity) =>
         && w.ctx.intent.Some? && |w.rows| > 0
         && w.rows[|w.rows| - 1].id == w.ctx.intent.value.orderId
         && OrderTerminal(w.rows[|w.rows| - 1].status)
       case Lands(k) => k in w.inflight
       case Lost(k) => k in w.inflight
       case Fills(k, qty) =>
         && k in w.venue && k < |w.rows| && w.venue[k].open
         && 0.0 < qty && w.venue[k].executed + qty <= w.rows[k].qty
       case Ends(k) => k in w.venue
  }

  function SetRow(w: World, k: nat, row: Row): World
    requires k < |w.rows|
  {
    w.(rows := w.rows[k := row])
  }

  function Apply(w: World, e: Event): World
    requires Enabled(w, e)
  {
    match e
    case Restart => w.(pending := None)
    case BeginSubmit(k, at) =>
      SetRow(w, k, w.rows[k].(status := SUBMITTING, updatedAt := at)).(pending := Some(k))
    case Send(k) => w.(pending := None, sent := w.sent + [k], inflight := w.inflight + {k})
    case Refused(k) => SetRow(w, k, w.rows[k].(status := REJECTED))
    case Uncertain(k, at) => SetRow(w, k, w.rows[k].(status := UNKNOWN, updatedAt := at))
    case Recorded(k, status, executed, avg) =>
      SetRow(w, k, w.rows[k].(known := true, status := status, executed := executed, avg := avg))
    case Abandoned(k) => SetRow(w, k, w.rows[k].(status := ABANDONED))
    case Resized(k, qty, price) => SetRow(w, k, w.rows[k].(qty := qty, price := price))
    case Latched => w.(ctx := w.ctx.(entryDisabled := true))
    case Settled(quantity, avg, state, positionSeen) =>
      w.(ctx := w.ctx.(quantity := quantity, avgFill := avg, state := state, positionSeen := positionSeen))
    case ExitOpened(row, intent) =>
      w.(rows := w.rows + [row],
      ctx := w.ctx.(intent := Some(intent), state := CLOSE_PENDING),
      chainStart := if intent.attempts == 0 then |w.rows| else w.chainStart,
      frozen := if intent.attempts == 0 then w.frozen[intent.signal := row.qty] else w.frozen,
      fulls := if intent.full then w.fulls + {intent.signal} else w.fulls)
    case ResidualSeen(at) =>
      w.(ctx := w.ctx.(intent := Some(w.ctx.intent.value.(residualSeenAt := Some(at)))))
    case Released(state, quantity) =>
      w.(ctx := w.ctx.(intent := None, state := state, quantity := quantity))
    case Lands(k) => w.(inflight := w.inflight - {k}, venue := w.venue[k := VenueOrder(0.0, true)])
    case Lost(k) => w.(inflight := w.inflight - {k})
    case Fills(k, qty) => w.(venue := w.venue[k := w.venue[k].(executed := w.venue[k].executed + qty)])
    case Ends(k) => w.(venue := w.venue[k := w.venue[k].(open := false)])
  }

  /** The trade as CreateManagedPlan stores it: one or two PLANNED entry legs. */
  ghost predicate Init(w: World) {
    && 1 <= |w.rows| <= 2
    && (forall k :: 0 <= k < |w.rows| ==>
                      && w.rows[k].id == EntryId(k) && w.rows[k].status == PLANNED && !w.rows[k].known
                      && w.rows[k].executed == 0.0 && w.rows[k].qty > 0.0)
    && w.ctx.intent == None && !w.ctx.entryDisabled
    && w.venue == map[] && w.inflight == {} && w.pending == None && w.sent == []
    && w.frozen == map[] && w.fulls == {}
  }

  ghost function After(w: World, run: seq<Event>): World {
    if run == [] then w
    else
      var before := After(w, run[..|run| - 1]);
      if Enabled(before, run[|run| - 1]) then Apply(before, run[|run| - 1]) else before
  }

  ghost predicate Legal(w: World, run: seq<Event>) {
    run == [] ||
    (Legal(w, run[..|run| - 1]) && Enabled(After(w, run[..|run| - 1]), run[|run| - 1]))
  }

  lemma Extend(w: World, run: seq<Event>, e: Event)
    requires Legal(w, run) && Enabled(After(w, run), e)
    ensures Legal(w, run + [e]) && After(w, run + [e]) == Apply(After(w, run), e)
  {
    assert (run + [e])[..|run|] == run;
  }

  // ---- What holds in every reachable state ------------------------------------------

  ghost predicate RowOk(w: World, k: nat)
    requires k < |w.rows|
  {
    var row := w.rows[k];
    && 0.0 <= row.executed && 0.0 < row.qty
    && (k in w.venue ==> row.executed <= w.venue[k].executed <= row.qty && k !in w.inflight)
    && (k !in w.venue ==> row.executed == 0.0)
    && (row.status == PLANNED ==> k !in w.venue && k !in w.inflight && k !in w.sent)
    && (w.pending == Some(k) ==> row.status == SUBMITTING && k !in w.venue && k !in w.inflight && k !in w.sent)
    && (k in w.venue || k in w.inflight ==> k in w.sent)
    && (OrderTerminal(row.status) ==>
          k !in w.inflight && (k in w.venue ==> !w.venue[k].open && row.executed == w.venue[k].executed))
  }

  ghost predicate RowsOk(w: World) {
    && (forall k: nat :: k < |w.rows| ==> RowOk(w, k))
    && (forall k :: k in w.venue ==> k < |w.rows|)
    && (forall k :: k in w.inflight ==> k < |w.rows|)
    && (w.pending.Some? ==> w.pending.value < |w.rows|)
  }

  ghost predicate SentOnce(w: World) {
    && (forall i :: 0 <= i < |w.sent| ==> w.sent[i] < |w.rows|)
    && (forall i, j :: 0 <= i < j < |w.sent| ==> w.sent[i] != w.sent[j])
  }

  /** Entry legs come first; the exits of a signal are numbered in the order they were made. */
  ghost predicate Numbered(rows: seq<Row>) {
    forall k: nat :: k < |rows| ==>
                       match rows[k].id
                       case EntryId(leg) => leg == k
                       case ExitId(signal, generation) => generation == ExitCount(rows[..k], signal)
  }

  /** At most the last exit is unfinished, and then the intent names it. */
  ghost predicate OneOpenExit(w: World) {
    && (forall k: nat :: k < |w.rows| && w.rows[k].id.ExitId? && !OrderTerminal(w.rows[k].status) ==>
                           k == |w.rows| - 1 && w.ctx.intent.Some?)
    && (w.ctx.intent.Some? ==>
          && |w.rows| > 0 && w.rows[|w.rows| - 1].id == w.ctx.intent.value.orderId
          && ExitOf(w.rows[|w.rows| - 1], w.ctx.intent.value.signal))
  }

  function Fill(w: World, k: nat): real {
    if k in w.venue then w.venue[k].executed else 0.0
  }

  /** Everything the exchange executed for a signal's exits among the first n rows. */
  function Reduced(w: World, signal: string, n: nat): real
    requires n <= |w.rows|
  {
    if n == 0 then 0.0
    else Reduced(w, signal, n - 1) + (if ExitOf(w.rows[n - 1], signal) then Fill(w, n - 1) else 0.0)
  }

  ghost predicate WithinFrozen(w: World, signal: string) {
    && (signal !in w.fulls && ExitCount(w.rows, signal) > 0 ==>
          signal in w.frozen && Reduced(w, signal, |w.rows|) <= w.frozen[signal])
    && (w.ctx.intent.Some? && w.ctx.intent.value.signal == signal && signal !in w.fulls ==>
          && |w.rows| > 0 && !w.ctx.intent.value.full && signal in w.frozen
          && Reduced(w, signal, |w.rows| - 1) == w.ctx.intent.value.priorFilled
          && w.ctx.intent.value.priorFilled + w.rows[|w.rows| - 1].qty <= w.frozen[signal])
  }

  /** The rows of the current intent: one per attempt after the first. */
  ghost predicate ChainBounded(w: World) {
    w.ctx.intent.Some? ==>
      var intent := w.ctx.intent.value;
      && intent.attempts <= MAX_EXIT_RESUBMITS
      && |w.rows| == w.chainStart + intent.attempts + 1
      && forall k :: w.chainStart <= k < |w.rows| ==> ExitOf(w.rows[k], intent.signal)
  }
}
