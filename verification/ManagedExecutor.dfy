/** The executor of one managed trade: its ledger rows and context are durable, its working
    copies are not, and the exchange may land, lose, fill or end an order at any call.

    Every method is proved to extend a legal run of OrderProtocol, so each theorem of
    OrderSafety holds of everything the executor ever does, cut off by a crash anywhere. */
module ManagedExecutor {
  import opened Prelude
  import opened OrderProtocol
  import opened OrderSafety
  import opened Sizing

  const NOT_FOUND_GRACE: int := 60
  const RESIDUAL_CONFIRM_AFTER: int := 10
  const FINE_TOLERANCE: real := 0.000000000001

  datatype OrderResult = OrderResult(matches: bool, status: Status, executed: real, avg: real)
  datatype SubmitReply = NoAnswer | Refusal | Accepted(result: OrderResult)
  datatype GetReply = Unreachable | NotFound | Found(result: OrderResult)
  datatype CancelReply = CancelFailed | CancelTaken(result: OrderResult)

  /** Why an operation stopped; None is success. */
  datatype Fault =
    | StoreFailed | VenueFailed | OrderMissing | IdentityMismatch | FillsBackwards
    | OrderRejected | NotTerminal | EntryRevoked | EntryDeferred | EntryRepriced
    | PriceUnconfirmed | CancelUnconfirmed | PositionUnread | ProtectionFailed
    | LotPrevents | PositionOpen | Waiting | ResidualNoted | ResidualTooSoon | ExitResubmitted | ExitAbandoned

  /** A truthful account of an order: fills it already had, and an end only once it ended. */
  predicate Reports(w: World, k: nat, r: OrderResult) {
    && k in w.venue && VenueStatus(r.status) && 0.0 <= r.executed <= w.venue[k].executed
    && (OrderTerminal(r.status) ==> !w.venue[k].open && r.executed == w.venue[k].executed)
  }

  /** The world a legal run from the stored plan leads to. */
  ghost predicate Reached(initial: World, run: seq<Event>, world: World) {
    Init(initial) && Legal(initial, run) && world == After(initial, run)
  }

  ghost predicate May(world: World, e: Event) {
    Enabled(world, e)
  }

  lemma SendsNext(w: World, k: nat)
    requires w.pending == Some(k)
    ensures May(w, Send(k)) && Apply(w, Send(k)) == w.(pending := None, sent := w.sent + [k], inflight := w.inflight + {k})
  {
  }

  /** Only a request that was begun is sent. */
  lemma NothingSent(w: World, e: Event)
    requires May(w, e) && w.pending == None
    ensures Apply(w, e).sent == w.sent
  {
  }

  lemma ReachedStep(initial: World, run: seq<Event>, world: World, e: Event)
    requires Reached(initial, run, world) && May(world, e)
    ensures Reached(initial, run + [e], Apply(world, e))
  {
    Extend(initial, run, e);
  }

  lemma ReachedSafe(initial: World, run: seq<Event>, world: World)
    requires Reached(initial, run, world)
    ensures OrderSafety.Safe(world)
  {
    AlwaysSafe(initial, run);
  }

  lemma ReachedLater(initial: World, run: seq<Event>, w: World, longer: seq<Event>, v: World)
    requires Reached(initial, run, w) && Reached(initial, longer, v) && run <= longer
    ensures Later(w, v)
  {
    assert longer == run + longer[|run|..];
    LaterAlways(initial, run, longer[|run|..]);
  }

  lemma ReachedSent(initial: World, run: seq<Event>, w: World, longer: seq<Event>, v: World)
    requires Reached(initial, run, w) && Reached(initial, longer, v) && run <= longer
    ensures w.sent <= v.sent
  {
    assert longer == run + longer[|run|..];
    SentGrows(initial, run, longer[|run|..]);
  }

  /** Only the exchange moved. */
  ghost predicate VenueMoved(w: World, v: World) {
    v == w.(venue := v.venue, inflight := v.inflight)
  }

  /** What a lookup leaves in a row: a truthful account, or the abandonment of an order that
      stayed unknown for the grace period after it was sent and is not at the exchange. */
  predicate LookedUp(w: World, k: nat, now: int, row: Row, row': Row) {
    || (row' == row.(known := true, status := row'.status, executed := row'.executed, avg := row'.avg)
        && Reports(w, k, OrderResult(true, row'.status, row'.executed, row'.avg)))
    || (row' == row.(status := ABANDONED) && !row.known && (row.status == SUBMITTING || row.status == UNKNOWN)
        && now - row.updatedAt >= NOT_FOUND_GRACE && k !in w.venue && k !in w.inflight)
  }

  predicate SameOrder(row: Row, row': Row) {
    row'.id == row.id && row'.kind == row.kind && row'.qty == row.qty && row'.price == row.price
  }

  /** One for a newest order that was recorded but not sent, zero otherwise. */
  function Unsent(rows: seq<Row>): nat {
    if |rows| > 0 && rows[|rows| - 1].status == PLANNED then 1 else 0
  }

  /** An order that was sent and is not final as recorded. */
  predicate Live(row: Row) {
    row.status != PLANNED && !OrderTerminal(row.status)
  }

  /** What the executor holds and what it did so far. */
  datatype Snapshot = Snapshot(rows: seq<Row>, ctx: Ctx, sent: seq<nat>, looked: seq<nat>, positions: seq<Option<real>>)

  /** The newest order was sent if it was only recorded, and looked up if it was sent before. */
  ghost predicate Attended(a: Snapshot, b: Snapshot) {
    |a.rows| > 0 ==>
      var k := |a.rows| - 1;
      && (a.rows[k].status == PLANNED ==> |a.sent| < |b.sent| && b.sent[|a.sent|] == k)
      && (Live(a.rows[k]) ==> LookedAt(a.looked, b.looked, k))
  }

  /** The log of lookups went on with order k. */
  ghost predicate LookedAt(looked: seq<nat>, looked': seq<nat>, k: nat) {
    |looked| <= |looked'| && k in looked'[|looked|..]
  }

  /** The next position that was read. */
  ghost predicate NextRead(a: Snapshot, b: Snapshot, position: Option<real>) {
    |a.positions| < |b.positions| && b.positions[|a.positions|] == position
  }

  lemma AttendedOn(a: Snapshot, b: Snapshot, c: Snapshot)
    requires Attended(a, b) && b.sent <= c.sent && b.looked <= c.looked
    ensures Attended(a, c)
  {
    if |a.rows| > 0 && Live(a.rows[|a.rows| - 1]) {
      LookedOn(a.looked, b.looked, c.looked, |a.rows| - 1);
    }
  }

  lemma LookedOn(a: seq<nat>, b: seq<nat>, c: seq<nat>, k: nat)
    requires LookedAt(a, b, k) && b <= c
    ensures LookedAt(a, c, k)
  {
    var i :| |a| <= i < |b| && b[i] == k;
    assert c[|a|..][i - |a|] == k;
  }

  /** One lookup more. */
  lemma StillLooked(a: seq<nat>, b: seq<nat>, k: nat)
    requires a <= b
    ensures LookedAt(a, b + [k], k) && forall j :: LookedAt(a, b, j) ==> LookedAt(a, b + [k], j)
  {
    assert (b + [k])[|a|..] == b[|a|..] + [k];
  }

  lemma PassSent(legs: nat, w: World, v: World, n: nat)
    requires Pass(legs, w, v, n)
    ensures w.sent <= v.sent
  {
  }

  /** A truthful account that is also up to date: an order that ended is reported as ended. */
  predicate UpToDate(w: World, k: nat, r: OrderResult) {
    k in w.venue && !w.venue[k].open ==> OrderTerminal(r.status)
  }

  /** The newest order is at the exchange and may still execute. */
  ghost predicate OpenAtVenue(w: World) {
    |w.rows| > 0 && |w.rows| - 1 in w.venue && w.venue[|w.rows| - 1].open
  }

  /** How far a status is from final. */
  function Rank(status: Status): nat {
    if status == PLANNED then 2 else if OrderTerminal(status) then 0 else 1
  }

  /** What an exit intent still has ahead of it: resubmissions, the end of its order, and
      the first sighting of a residual. */
  ghost function ExitMeasure(w: World): nat {
    if w.ctx.intent.None? || |w.rows| == 0 then 0
    else
      var intent := w.ctx.intent.value;
      (if intent.attempts <= MAX_EXIT_RESUBMITS then MAX_EXIT_RESUBMITS - intent.attempts else 0) * 6
      + Rank(w.rows[|w.rows| - 1].status) * 2 + (if intent.residualSeenAt == None then 1 else 0)
  }

  /** Every request sent in between belongs to an exit. */
  ghost predicate SentExits(legs: nat, before: seq<nat>, after: seq<nat>) {
    before <= after && forall i :: |before| <= i < |after| ==> after[i] >= legs
  }

  /** Work on exits adds at most n rows, sends exits only, leaves the latch alone and never
      moves an intent away from its end. */
  ghost predicate Pass(legs: nat, w: World, v: World, n: nat) {
    && v.ctx.entryDisabled == w.ctx.entryDisabled && SentExits(legs, w.sent, v.sent)
    && |v.rows| <= |w.rows| + n && ExitMeasure(v) <= ExitMeasure(w)
  }

  /** The intent is gone or strictly closer to its end. */
  ghost predicate Closer(w: World, v: World) {
    v.ctx.intent == None || ExitMeasure(v) < ExitMeasure(w)
  }

  /** Looking at the newest order, or sending it, moves its intent closer to its end or leaves it. */
  lemma RowMoved(legs: nat, w: World, v: World, k: nat, row: Row)
    requires legs <= k == |w.rows| - 1 && v.rows == w.rows[k := row] && v.ctx == w.ctx
    requires v.sent == w.sent || v.sent == w.sent + [k]
    requires Rank(row.status) <= Rank(w.rows[k].status)
    ensures Pass(legs, w, v, 0)
    ensures Rank(row.status) < Rank(w.rows[k].status) ==> Closer(w, v)
  {
  }

  lemma AttendedNow(a: Snapshot, b: Snapshot, k: nat)
    requires k == |a.rows| - 1
    requires a.rows[k].status == PLANNED ==> b.sent == a.sent + [k]
    requires Live(a.rows[k]) ==> LookedAt(a.looked, b.looked, k)
    ensures Attended(a, b)
  {
  }

  lemma PassSame(legs: nat, w: World, n: nat)
    ensures Pass(legs, w, w, n)
  {
  }

  lemma PassThen(legs: nat, w: World, u: World, v: World, n: nat, m: nat)
    requires Pass(legs, w, u, n) && Pass(legs, u, v, m)
    ensures Pass(legs, w, v, n + m)
    ensures (Closer(w, u) && u.ctx.intent.Some?) || Closer(u, v) ==> Closer(w, v)
  {
  }

  /** A pending intent survives at most 23 passes that are not stopped from outside. */
  lemma {:induction false} PassesBounded(states: seq<World>)
    requires states != [] && forall i :: 0 <= i < |states| ==> states[i].ctx.intent.Some?
    requires forall i :: 0 < i < |states| ==> Closer(states[i - 1], states[i])
    ensures |states| - 1 <= ExitMeasure(states[0]) <= 23
  {
    if |states| > 1 {
      var rest := states[1..];
      assert forall i :: 0 < i < |rest| ==> rest[i - 1] == states[i] && rest[i] == states[i + 1];
      PassesBounded(rest);
      assert Closer(states[0], states[1]);
    }
  }

  /** The pass was stopped from outside: a failed read or write, an order that is not final
      yet, or a second sighting that came too early. */
  predicate Outside(fault: Option<Fault>) {
    && fault.Some?
    && fault.value !in {ResidualNoted, ExitResubmitted, ExitAbandoned, OrderRejected}
  }

  /** How a pass over an exit can end when nothing outside failed. */
  predicate Unhindered(fault: Option<Fault>) {
    || fault == None
    || fault.value in {ExitAbandoned, ResidualNoted, ExitResubmitted, OrderRejected, Waiting, ResidualTooSoon, PositionOpen}
  }

  predicate Flat(position: Option<real>) {
    position.None? || position.value <= 0.0
  }

  /** A partial exit whose order ended may be superseded. */
  predicate GivesWay(intent: Intent, named: Row) {
    !intent.full && OrderTerminal(named.status)
  }

  predicate NotSighted(intent: Intent) {
    intent.full && intent.residualSeenAt == None
  }

  /** The residual of a filled full exit was sighted long enough ago. */
  predicate ResidualConfirmed(intent: Intent, now: int) {
    intent.full && intent.residualSeenAt.Some? && now - intent.residualSeenAt.value >= RESIDUAL_CONFIRM_AFTER
  }

  /** What a new generation asks for: a full exit the fresh position, a partial one what its
      last order left. */
  function StillWanted(prev: Row, position: real, full: bool): real {
    if full then position else Min(position, Max(0.0, prev.qty - prev.executed))
  }

  /** What a pass over an ended exit does, given the position it read. A flat position that is
      read flat once more closes the trade; a filled partial exit re-opens it; a filled full exit needs its residual sighted
      twice, some time apart; anything else is resubmitted in whole market lots, or abandoned
      when the attempts are used up or nothing tradable is left. */
  ghost predicate Decision(row: Row, intent: Intent, position: Option<real>, later: seq<Option<real>>, now: int,
                           allowResubmit: bool, market: Rules, added: seq<Row>, ctx: Ctx, fault: Option<Fault>) {
    if Flat(position) then
      && |later| == 1 && added == []
      && if Flat(later[0]) then fault == None && ctx.intent == None && ctx.state == CLOSED && ctx.quantity == 0.0
         else fault == Some(PositionOpen) && ctx.intent == Some(intent)
    else if row.status == FILLED && !intent.full then fault == None && added == [] && Reopened(ctx, position.value)
    else if row.status == FILLED && NotSighted(intent) then fault == Some(ResidualNoted) && added == []
    else if row.status == FILLED && !ResidualConfirmed(intent, now) then fault == Some(ResidualTooSoon) && added == []
    else if !allowResubmit then fault == Some(ExitResubmitted) && added == []
    else Resubmission(row, intent, position.value, market, added, ctx, fault)
  }

  ghost predicate Resubmission(row: Row, intent: Intent, position: real, market: Rules, added: seq<Row>, ctx: Ctx,
                               fault: Option<Fault>) {
    var sized := FloorQuantity(StillWanted(row, position, intent.full), true, market);
    if intent.attempts >= MAX_EXIT_RESUBMITS || sized == None then
      fault == Some(ExitAbandoned) && added == [] && Reopened(ctx, position)
    else |added| == 1 && ExitOf(added[0], intent.signal) && added[0].qty == sized.value
  }

  ghost predicate Reopened(ctx: Ctx, quantity: real) {
    ctx.intent == None && ctx.quantity == quantity && (ctx.state == OPEN || ctx.state == BREAKEVEN)
  }

  /** One pass over the named order: it was looked at, and unless its request was just refused the
      position was read, and if the order ended the decision was carried out; a live one is waited
      for. */
  ghost predicate PassDone(a: Snapshot, b: Snapshot, allowResubmit: bool, market: Rules, fault: Option<Fault>,
                           position: Option<real>, now: int) {
    && a.ctx.intent.Some? && 0 < |a.rows| <= |b.rows| && Attended(a, b)
    && (if fault == Some(OrderRejected) && |b.rows| == |a.rows| then
          a.rows[|a.rows| - 1].status == PLANNED && b.rows[|a.rows| - 1].status == REJECTED
        else
          && NextRead(a, b, position)
          && if OrderTerminal(b.rows[|a.rows| - 1].status) then
               && Decision(b.rows[|a.rows| - 1], a.ctx.intent.value, position, b.positions[|a.positions| + 1..], now,
                           allowResubmit, market, b.rows[|a.rows|..], b.ctx, fault)
               && (|b.rows| > |a.rows| ==> |a.rows| in b.sent)
             else fault == Some(Waiting) && |b.rows| == |a.rows|)
  }

  /** A position was read in between, and it was flat. */
  ghost predicate FlatRead(a: Snapshot, b: Snapshot) {
    exists k :: |a.positions| <= k < |b.positions| && Flat(b.positions[k])
  }

  /** The trade is closed only on a flat position. */
  ghost predicate ClosedFlat(a: Snapshot, b: Snapshot) {
    TradeTerminal(b.ctx.state) ==> TradeTerminal(a.ctx.state) || FlatRead(a, b)
  }

  lemma ClosedSeen(a: Snapshot, b: Snapshot)
    requires ClosedFlat(a, b)
    ensures TradeTerminal(b.ctx.state) ==> TradeTerminal(a.ctx.state) || FlatRead(a, b)
  {
  }

  lemma ClosedSame(a: Snapshot, b: Snapshot)
    requires a.ctx == b.ctx
    ensures ClosedFlat(a, b)
  {
  }

  lemma ClosedLater(a: Snapshot, m: Snapshot, b: Snapshot)
    requires ClosedFlat(m, b) && a.ctx == m.ctx && |a.positions| <= |m.positions|
    ensures ClosedFlat(a, b)
  {
  }

  /** What a full close does that meets another signal's partial exit: it waits while that order is
      live, it has nothing to do on a flat position or one that cannot be traded, and else it is
      recorded with exactly its size and sent. */
  ghost predicate Superseding(a: Snapshot, b: Snapshot, signal: string, ratio: real, minimumReduction: real, market: Rules,
                              skip: Skip, fault: Option<Fault>, position: Option<real>) {
    || (skip == SkipWaiting && 0 < |a.rows| <= |b.rows| && !OrderTerminal(b.rows[|a.rows| - 1].status))
    || (skip == SkipAlreadyFlat && (TradeTerminal(a.ctx.state) || FlatRead(a, b)))
    || (!Flat(position) && (exists k :: |a.positions| <= k < |b.positions| && b.positions[k] == position)
        && match ExitQuantity(position.value, ratio, minimumReduction, market)
           case None => fault == Some(LotPrevents)
           case Some(sized) =>
             && |b.rows| > |a.rows| && ExitOf(b.rows[|a.rows|], signal) && b.rows[|a.rows|].qty == sized.0
             && |a.rows| in b.sent)
  }

  lemma NotSuperseded(a: Snapshot, b: Snapshot, signal: string, ratio: real, minimumReduction: real, market: Rules,
                      skip: Skip, fault: Option<Fault>, position: Option<real>)
    requires |a.rows| == |b.rows| && (skip == SkipWaiting || skip == SkipAlreadyFlat)
    requires skip == SkipWaiting ==> |a.rows| > 0 && !OrderTerminal(b.rows[|a.rows| - 1].status)
    requires skip == SkipAlreadyFlat ==> TradeTerminal(a.ctx.state) || FlatRead(a, b)
    ensures Superseding(a, b, signal, ratio, minimumReduction, market, skip, fault, position)
  {
    hide FlatRead;
  }

  lemma SupersededBy(a: Snapshot, m: Snapshot, b: Snapshot, signal: string, ratio: real, minimumReduction: real, market: Rules,
                     skip: Skip, fault: Option<Fault>, position: Option<real>)
    requires NewExit(m, b, signal, ratio, minimumReduction, market, skip, fault, position)
    requires |m.rows| == |a.rows| && |a.positions| <= |m.positions|
    ensures Superseding(a, b, signal, ratio, minimumReduction, market, skip, fault, position)
  {
    hide ExitQuantity;
    assert b.positions[|m.positions|] == position;
  }

  /** A new exit that nothing forbids: the position was read; a flat one needs no order, one that
      cannot be traded gets none, and any other is recorded with exactly its size and sent. */
  ghost predicate NewExit(a: Snapshot, b: Snapshot, signal: string, ratio: real, minimumReduction: real, market: Rules,
                          skip: Skip, fault: Option<Fault>, position: Option<real>) {
    && NextRead(a, b, position)
    && if Flat(position) then skip == SkipAlreadyFlat && fault == None && b.rows == a.rows
       else if ExitQuantity(position.value, ratio, minimumReduction, market) == None then
         fault == Some(LotPrevents) && b.rows == a.rows
       else
         && |b.rows| > |a.rows| && ExitOf(b.rows[|a.rows|], signal)
         && b.rows[|a.rows|].qty == ExitQuantity(position.value, ratio, minimumReduction, market).value.0
         && |a.sent| < |b.sent| && b.sent[|a.sent|] == |a.rows|
  }

  lemma PassMade(a: Snapshot, m: Snapshot, b: Snapshot, row: Row, allowResubmit: bool, market: Rules, fault: Option<Fault>,
                 position: Option<real>, now: int)
    requires a.ctx.intent.Some? && m.ctx == a.ctx && 0 < |a.rows| == |m.rows| <= |b.rows| && m.positions == a.positions
    requires Attended(a, m) && m.sent <= b.sent && m.looked <= b.looked && NextRead(m, b, position)
    requires row == m.rows[|m.rows| - 1] && (OrderTerminal(row.status) ==> b.rows[|m.rows| - 1] == row)
    requires OrderTerminal(row.status) ==>
               && Decision(row, m.ctx.intent.value, position, b.positions[|m.positions| + 1..], now, allowResubmit, market,
                           b.rows[|m.rows|..], b.ctx, fault)
               && (|b.rows| > |m.rows| ==> |m.rows| in b.sent)
    requires !OrderTerminal(row.status) ==> fault == Some(Waiting) && b.rows == m.rows
    ensures PassDone(a, b, allowResubmit, market, fault, position, now)
  {
    AttendedOn(a, m, b);
    hide Attended;
  }

  lemma PassRejected(a: Snapshot, b: Snapshot, allowResubmit: bool, market: Rules, position: Option<real>, now: int)
    requires a.ctx.intent.Some? && 0 < |a.rows| == |b.rows| && Attended(a, b)
    requires a.rows[|a.rows| - 1].status == PLANNED && b.rows[|a.rows| - 1].status == REJECTED
    ensures PassDone(a, b, allowResubmit, market, Some(OrderRejected), position, now)
  {
    hide Decision, Attended, NextRead;
  }

  lemma PassAttended(a: Snapshot, b: Snapshot, allowResubmit: bool, market: Rules, fault: Option<Fault>,
                     position: Option<real>, now: int)
    requires PassDone(a, b, allowResubmit, market, fault, position, now)
    ensures Attended(a, b)
  {
  }

  predicate SameExit(intent: Intent, intent': Intent) {
    intent' == intent.(residualSeenAt := intent'.residualSeenAt)
  }

  /** The order an intent names is the newest row, and no other row has its ID. */
  lemma NamedIsLast(w: World, k: nat)
    requires OrderSafety.Safe(w) && w.ctx.intent.Some? && k < |w.rows| && w.rows[k].id == w.ctx.intent.value.orderId
    ensures k == |w.rows| - 1 && ExitOf(w.rows[k], w.ctx.intent.value.signal)
    ensures w.ctx.intent.value.attempts <= MAX_EXIT_RESUBMITS
  {
    if k < |w.rows| - 1 {
      DistinctIds(w.rows, k, |w.rows| - 1);
    }
  }

  /** Entry legs first, then exits. */
  ghost predicate Shaped(rows: seq<Row>, legs: nat) {
    && legs <= |rows|
    && forall k :: 0 <= k < |rows| ==> (rows[k].id.EntryId? <==> k < legs)
  }

  /** How placing a stop ended: done, answered unclearly, or not done. */
  datatype Protection = Placed | Unclear | Failed

  /** What an entry pass meets: a deadline that passed before it or by its middle, progress of the
      take-profits seen early or later in it, how placing the stop ended, whether the signal
      expired, the price of a market leg, and before the second leg once more the take-profits and
      the available balance. */
  datatype Surroundings = Surroundings(early: bool, due: bool, advanced: bool, tookProfit: bool, protection: Protection,
                                       expired: bool, price: real, tookLater: bool, available: real)

  const EMERGENCY: string := "emergency"

  datatype Skip = SkipNone | SkipDuplicate | SkipAlreadyFlat | SkipWaiting

  predicate FullRatio(ratio: real) {
    ratio <= 0.0 || ratio >= 100.0
  }

  /** The quantity of a first exit order and whether it is meant to close the position. */
  function ExitQuantity(position: real, ratio: real, minimumReduction: real, rules: Rules): Option<(real, bool)> {
    if minimumReduction > 0.0 then
      match ReductionQuantity(minimumReduction, position, rules)
      case None => None
      case Some(sized) => Some((sized.0, FullRatio(ratio) || sized.1))
    else
      match FloorQuantity(if FullRatio(ratio) then position else position * ratio / 100.0, true, rules)
      case None => None
      case Some(qty) => Some((qty, FullRatio(ratio)))
  }

  /** An exit order is positive and never larger than the position, nor than its share. */
  lemma ExitQuantityBounds(position: real, ratio: real, minimumReduction: real, rules: Rules)
    requires position > 0.0 && ExitQuantity(position, ratio, minimumReduction, rules).Some?
    ensures var (qty, full) := ExitQuantity(position, ratio, minimumReduction, rules).value;
            && 0.0 < qty <= position
            && (FullRatio(ratio) ==> full)
            && (minimumReduction <= 0.0 && !full ==> qty <= position * ratio / 100.0)
            && (minimumReduction > 0.0 ==> minimumReduction <= qty + TOLERANCE)
  {
    hide FloorQuantity, ReductionQuantity, WholeLots, Lot, LotMinimum, LotMaximum;
    if minimumReduction > 0.0 {
      ReductionCovers(minimumReduction, position, rules);
    } else {
      FloorQuantityBounds(if FullRatio(ratio) then position else position * ratio / 100.0, true, rules);
      if !FullRatio(ratio) {
        ShareOfPosition(position, ratio);
      }
    }
  }

  /** An exit without a required reduction is exactly the largest tradable part of the whole
      position or of its share, and there is none exactly when there is no such part. */
  lemma ExitQuantityExact(position: real, ratio: real, minimumReduction: real, rules: Rules, qty: real, full: bool)
    requires minimumReduction <= 0.0
    ensures ExitQuantity(position, ratio, minimumReduction, rules) == Some((qty, full)) <==>
              && full == FullRatio(ratio)
              && LargestLots(if FullRatio(ratio) then position else position * ratio / 100.0, true, rules, qty)
  {
    hide FloorQuantity, LargestLots;
    FloorQuantityExact(if FullRatio(ratio) then position else position * ratio / 100.0, true, rules, qty);
  }

  /** A required reduction is rounded up by less than a lot, or closes the position but for less
      than a lot; a position large enough always allows it. */
  lemma RequiredExitTight(position: real, ratio: real, minimumReduction: real, rules: Rules)
    requires minimumReduction > 0.0 && Lot(rules, true) > 0.0
    ensures var required := Max(minimumReduction, LotMinimum(rules, true));
            && (ExitQuantity(position, ratio, minimumReduction, rules).Some? ==>
                  var (qty, full) := ExitQuantity(position, ratio, minimumReduction, rules).value;
                  required <= qty < required + Lot(rules, true) || (full && position < qty + Lot(rules, true)))
            && (required + Lot(rules, true) < position
                && (LotMaximum(rules, true) > 0.0 ==> required + Lot(rules, true) <= LotMaximum(rules, true)) ==>
                  ExitQuantity(position, ratio, minimumReduction, rules).Some?)
  {
    hide ReductionQuantity, Lot, LotMinimum, LotMaximum;
    ReductionTight(minimumReduction, position, rules);
  }

  lemma ShareOfPosition(position: real, ratio: real)
    requires position > 0.0 && 0.0 < ratio < 100.0
    ensures position * ratio / 100.0 <= position
  {
    MulMonotone(ratio, 100.0, position);
  }

  /** What the entry legs filled, and what was paid for it. */
  function Filled(orders: seq<Row>): real {
    if orders == [] then 0.0
    else Filled(orders[..|orders| - 1]) + Max(0.0, orders[|orders| - 1].executed)
  }

  function Paid(orders: seq<Row>): real {
    if orders == [] then 0.0
    else
      var last := orders[|orders| - 1];
      Paid(orders[..|orders| - 1]) + (if last.executed > 0.0 then last.executed * last.avg else 0.0)
  }

  predicate Priced(orders: seq<Row>) {
    forall k :: 0 <= k < |orders| && orders[k].executed > 0.0 ==> orders[k].avg > 0.0
  }

  lemma PaidPositive(orders: seq<Row>)
    requires Priced(orders)
    ensures 0.0 <= Filled(orders) && 0.0 <= Paid(orders) && (Filled(orders) > 0.0 ==> Paid(orders) > 0.0)
  {
    if orders != [] {
      PaidPositive(orders[..|orders| - 1]);
      var last := orders[|orders| - 1];
      if last.executed > 0.0 {
        PositiveProduct(last.executed, last.avg);
      }
    }
  }

  /** What of a position belongs to the trade: at most its own fills. Without a position it is
      all of them before the first sighting, and nothing after. */
  function Owned(position: Option<real>, filled: real, seenBefore: bool): real {
    if position.Some? then Min(position.value, filled) else if !seenBefore then filled else 0.0
  }

  /** The trade's share of a position: never more than the position or its fills, and one of the
      two; without a position its fills until it was seen. */
  lemma OwnedExact(position: Option<real>, filled: real, seenBefore: bool)
    ensures position.Some? ==>
              var owned := Owned(position, filled, seenBefore);
              owned <= position.value && owned <= filled && (owned == position.value || owned == filled)
    ensures position == None ==> Owned(position, filled, seenBefore) == if seenBefore then 0.0 else filled
  {
  }

  /** While only the first leg filled, the trade's average is that leg's. */
  lemma OneLegFilled(orders: seq<Row>)
    requires 1 <= |orders| <= 2 && orders[0].executed > 0.0 && (|orders| == 2 ==> orders[1].executed == 0.0)
    ensures Filled(orders) == orders[0].executed && Paid(orders) == orders[0].executed * orders[0].avg
    ensures Paid(orders) / Filled(orders) == orders[0].avg
  {
    assert orders[..1] == [orders[0]] && [orders[0]][..0] == [];
    assert Filled([orders[0]]) == orders[0].executed;
    assert Paid([orders[0]]) == orders[0].executed * orders[0].avg;
    if |orders| == 1 {
      assert orders == [orders[0]];
    }
  }

  /** The position is over its caps by more than the tolerance. */
  predicate Overshoot(plan: EntryPlan, quantity: real, avg: real) {
    plan.riskBudget > 0.0 && quantity > 0.0 && avg > 0.0 && quantity > RiskCap(plan, avg) + TOLERANCE
  }

  /** A position is open and nothing of the trade is gone. */
  predicate StillHeld(position: Option<real>, quantity: real) {
    position.Some? && position.value > 0.0 && position.value + TOLERANCE >= quantity
  }

  /** The trade as its legs make it. */
  ghost predicate SettledFor(ctx: Ctx, orders: seq<Row>) {
    Filled(orders) > 0.0 && Priced(orders) && ctx.avgFill == Paid(orders) / Filled(orders) && 0.0 <= ctx.quantity <= Filled(orders)
  }

  /** What settling its legs makes of a trade, given the position that is read next: their average
      price, and of the position no more than they filled. */
  ghost predicate SettledAs(a: Snapshot, b: Snapshot, orders: seq<Row>) {
    if Filled(orders) > 0.0 then
      && |a.positions| < |b.positions| && b.ctx.avgFill == Paid(orders) / Filled(orders)
      && b.ctx.quantity == Owned(b.positions[|a.positions|], Filled(orders), a.ctx.positionSeen)
    else b.ctx.quantity == a.ctx.quantity && b.ctx.avgFill == a.ctx.avgFill
  }

  /** The latch is on, every leg has ended, and the trade is settled by what the legs filled. */
  ghost predicate Ended(legs: nat, a: Snapshot, b: Snapshot) {
    && legs <= |a.rows| == |b.rows| && b.rows[legs..] == a.rows[legs..] && b.sent == a.sent
    && b.ctx.entryDisabled && b.ctx.intent == a.ctx.intent
    && (forall k :: 0 <= k < legs ==> OrderTerminal(b.rows[k].status))
    && (forall k :: 0 <= k < legs && OrderTerminal(a.rows[k].status) ==> b.rows[k] == a.rows[k])
    && (Priced(b.rows[..legs]) ==> SettledAs(a, b, b.rows[..legs]))
  }

  lemma EndedBy(legs: nat, a: Snapshot, m: Snapshot, b: Snapshot)
    requires legs <= |a.rows| == |m.rows| && m.rows[legs..] == a.rows[legs..] && m.sent == a.sent && m.positions == a.positions
    requires m.ctx == a.ctx.(entryDisabled := true) && b.rows == m.rows && b.sent == m.sent
    requires b.ctx.entryDisabled && b.ctx.intent == m.ctx.intent
    requires forall k :: 0 <= k < legs ==> OrderTerminal(m.rows[k].status)
    requires forall k :: 0 <= k < legs && OrderTerminal(a.rows[k].status) ==> m.rows[k] == a.rows[k]
    requires Priced(b.rows[..legs]) ==> SettledAs(m, b, b.rows[..legs])
    ensures Ended(legs, a, b)
  {
    hide Filled, Paid, Owned, Priced;
  }

  lemma {:induction false} FilledNothing(orders: seq<Row>)
    requires forall k :: 0 <= k < |orders| ==> orders[k].executed <= 0.0
    ensures Filled(orders) == 0.0 && Priced(orders)
  {
    if orders != [] {
      FilledNothing(orders[..|orders| - 1]);
    }
  }

  lemma AveragePositive(filled: real, paid: real)
    requires filled > 0.0 && paid > 0.0
    ensures paid / filled > 0.0
  {
  }

  lemma SettledIs(ctx: Ctx, orders: seq<Row>)
    ensures SettledFor(ctx, orders) ==> ctx.avgFill == Paid(orders) / Filled(orders) && ctx.quantity <= Filled(orders)
  {
  }

  /** The trade as settled is over its caps. */
  predicate Over(plan: EntryPlan, ctx: Ctx) {
    ctx.quantity > 0.0 && ctx.avgFill > 0.0 && Excess(plan, ctx.quantity, ctx.avgFill) > 0.0
  }

  lemma NothingHeld(plan: EntryPlan, quantity: real, avg: real)
    ensures quantity <= 0.0 ==> !Overshoot(plan, quantity, avg)
  {
  }

  /** The second leg is refused whatever it asks for. */
  ghost predicate Refuses(plan: EntryPlan, first: Row) {
    forall planned: real, price: real, available: real ::
      SecondLeg(plan, planned, price, first.executed, first.avg, available) == None
  }

  lemma OvershootRefuses(plan: EntryPlan, quantity: real, first: Row)
    requires Overshoot(plan, quantity, first.avg) && quantity <= first.executed
    ensures Refuses(plan, first)
  {
    hide RiskCap, SecondLeg;
    forall planned: real, price: real, available: real
      ensures SecondLeg(plan, planned, price, first.executed, first.avg, available) == None
    {
      OvershootRefusesSecondLeg(plan, quantity, planned, price, first.executed, first.avg, available);
    }
  }

  /** The two legs as settled: a first fill within the caps, and a second leg of the promised
      size that filled any part at its price, on the same side of the stop. */
  ghost predicate PairAsPlanned(plan: EntryPlan, orders: seq<Row>, planned: real, available: real) {
    && |orders| == 2 && orders[0].executed > 0.0 && WithinCaps(plan, orders[0].executed, orders[0].avg)
    && SecondLeg(plan, planned, orders[1].price, orders[0].executed, orders[0].avg, available) == Some(orders[1].qty)
    && 0.0 <= orders[1].executed <= orders[1].qty && (orders[1].executed > 0.0 ==> orders[1].avg == orders[1].price)
    && SameSide(orders[0].avg, orders[1].price, plan.stop)
  }

  lemma PairSums(plan: EntryPlan, orders: seq<Row>, planned: real, available: real)
    requires PairAsPlanned(plan, orders, planned, available)
    ensures orders[0].executed > 0.0 && orders[1].executed >= 0.0
    ensures 0.0 < Filled(orders) == orders[0].executed + orders[1].executed
    ensures Paid(orders) == orders[0].executed * orders[0].avg + orders[1].executed * orders[1].price
  {
    hide SecondLeg, WithinCaps, SameSide;
    assert orders[..1] == [orders[0]] && [orders[0]][..0] == [];
    assert Filled([orders[0]]) == orders[0].executed && Paid([orders[0]]) == orders[0].executed * orders[0].avg;
  }

  lemma PairLegs(plan: EntryPlan, orders: seq<Row>, planned: real, available: real)
    requires PairAsPlanned(plan, orders, planned, available)
    ensures |orders| == 2
  {
  }

  lemma PairWithinCaps(plan: EntryPlan, orders: seq<Row>, planned: real, available: real, avg: real)
    requires PairAsPlanned(plan, orders, planned, available)
    requires AverageOf(avg, orders[0].executed, orders[0].avg, orders[1].executed, orders[1].price)
    ensures WithinCaps(plan, orders[0].executed + orders[1].executed, avg)
  {
    hide SecondLeg, WithinCaps, SameSide, AverageOf;
    SecondLegKeepsCaps(plan, planned, orders[1].price, orders[0].executed, orders[0].avg, available, orders[1].executed, avg);
  }

  /** Then the risk check does nothing, whatever part of the position is left. */
  lemma PairNeedsNoReduction(plan: EntryPlan, orders: seq<Row>, planned: real, available: real, avg: real, quantity: real)
    requires PairAsPlanned(plan, orders, planned, available) && quantity <= Filled(orders)
    requires Filled(orders) != 0.0 && avg == Paid(orders) / Filled(orders)
    ensures !Overshoot(plan, quantity, avg)
  {
    hide PairAsPlanned, Filled, Paid, Overshoot;
    assert |orders| == 2 by { PairLegs(plan, orders, planned, available); }
    PairSums(plan, orders, planned, available);
    PairAverage(orders[0].executed, orders[0].avg, orders[1].executed, orders[1].price, Filled(orders), Paid(orders), avg);
    NotOver(plan, orders, planned, available, avg, quantity);
  }

  lemma NotOver(plan: EntryPlan, orders: seq<Row>, planned: real, available: real, avg: real, quantity: real)
    requires PairAsPlanned(plan, orders, planned, available)
    requires AverageOf(avg, orders[0].executed, orders[0].avg, orders[1].executed, orders[1].price)
    requires quantity <= orders[0].executed + orders[1].executed
    ensures !Overshoot(plan, quantity, avg)
  {
    PairLegs(plan, orders, planned, available);
    hide PairAsPlanned, WithinCaps, RiskCap, AverageOf;
    if plan.riskBudget > 0.0 && avg > 0.0 {
      PairWithinCaps(plan, orders, planned, available, avg);
      RiskCapExact(plan, orders[0].executed + orders[1].executed, avg);
    }
  }

  lemma PairAverage(e: real, a: real, f: real, p: real, filled: real, paid: real, avg: real)
    requires e > 0.0 && f >= 0.0 && filled == e + f && paid == e * a + f * p && avg == paid / filled
    ensures AverageOf(avg, e, a, f, p)
  {
    AverageExact(e, a, f, p);
  }

  predicate Unfilled(orders: seq<Row>) {
    && (forall k :: 0 <= k < |orders| ==> OrderTerminal(orders[k].status))
    && !exists k :: 0 <= k < |orders| && orders[k].executed > 0.0
  }

  /** The second leg carries what the budgets left over by the filled first leg allow. */
  ghost predicate SecondLegSized(plan: EntryPlan, rows: seq<Row>, planned: real) {
    && |rows| >= 2 && rows[0].status == FILLED
    && exists available: real ::
         SecondLeg(plan, planned, rows[1].price, rows[0].executed, rows[0].avg, available) == Some(rows[1].qty)
  }

  // ---- A pass that sends twice ------------------------------------------------------------

  function EntryLeg(): Row {
    Row(EntryId(0), MARKET, 100.0, 10.0, PLANNED, false, 0.0, 0.0, 0)
  }

  function Exit(generation: nat): Row {
    Row(ExitId("close", generation), MARKET, 100.0, 10.0, PLANNED, false, 0.0, 0.0, 0)
  }

  function ExitIntent(attempts: nat): Intent {
    Intent("close", ExitId("close", attempts), true, attempts, 0.0, None)
  }

  /** An entry fills, its full exit is recorded, and the process dies before sending it. In the
      next pass the exit is sent, the exchange cancels it without a fill, and it is resubmitted. */
  function SentTwice(): seq<Event> {
    [BeginSubmit(0, 0), Send(0), Lands(0), Fills(0, 10.0), Ends(0), Recorded(0, FILLED, 10.0, 100.0),
     ExitOpened(Exit(0), ExitIntent(0)), Restart,
     BeginSubmit(1, 0), Send(1), Lands(1), Ends(1), Recorded(1, CANCELED, 0.0, 0.0),
     ExitOpened(Exit(1), ExitIntent(1)), BeginSubmit(2, 0), Send(2)]
  }

  /** The state after the first i events. */
  function Stage(i: nat): World {
    var legSent := EntryLeg().(status := SUBMITTING);
    var legDone := EntryLeg().(status := FILLED, known := true, executed := 10.0, avg := 100.0);
    var exitSent := Exit(0).(status := SUBMITTING);
    var exitDone := Exit(0).(status := CANCELED, known := true);
    var start := World([EntryLeg()], Ctx(false, None, ENTRY_PENDING, 0.0, 0.0, false), map[], {}, None, [], 0, map[], {});
    var begun := start.(rows := [legSent]);
    var sent := begun.(sent := [0]);
    var over := map[0 := VenueOrder(10.0, false)];
    var filled := sent.(rows := [legDone], venue := over);
    var planned := filled.(rows := [legDone, Exit(0)], ctx := filled.ctx.(intent := Some(ExitIntent(0)), state := CLOSE_PENDING),
                           chainStart := 1, frozen := filled.frozen["close" := 10.0], fulls := filled.fulls + {"close"});
    var again := planned.(rows := [legDone, exitSent]);
    var gone := again.(sent := [0, 1], venue := over[1 := VenueOrder(0.0, false)]);
    var ended := gone.(rows := [legDone, exitDone]);
    var next := ended.(rows := [legDone, exitDone, Exit(1)], ctx := ended.ctx.(intent := Some(ExitIntent(1))));
    if i == 0 then start
    else if i == 1 then begun.(pending := Some(0))
    else if i == 2 then sent.(inflight := {0})
    else if i == 3 then sent.(venue := map[0 := VenueOrder(0.0, true)])
    else if i == 4 then sent.(venue := map[0 := VenueOrder(10.0, true)])
    else if i == 5 then sent.(venue := over)
    else if i == 6 then filled
    else if i <= 8 then planned
    else if i == 9 then again.(pending := Some(1))
    else if i == 10 then again.(sent := [0, 1], inflight := {1})
    else if i == 11 then again.(sent := [0, 1], venue := over[1 := VenueOrder(0.0, true)])
    else if i == 12 then gone
    else if i == 13 then ended
    else if i == 14 then next
    else if i == 15 then next.(rows := [legDone, exitDone, Exit(1).(status := SUBMITTING)], pending := Some(2))
    else next.(rows := [legDone, exitDone, Exit(1).(status := SUBMITTING)], sent := [0, 1, 2], inflight := {2})
  }

  predicate StageFollows(i: nat)
    requires i < |SentTwice()|
  {
    Enabled(Stage(i), SentTwice()[i]) && Apply(Stage(i), SentTwice()[i]) == Stage(i + 1)
  }

  lemma SentStages(i: nat)
    requires i < 3
    ensures StageFollows(i)
  {
    hide ExitCount, FirstGeneration, NextGeneration, FreshExit;
  }

  lemma EntryStages(i: nat)
    requires 3 <= i < 6
    ensures StageFollows(i)
  {
    hide ExitCount, FirstGeneration, NextGeneration, FreshExit;
  }

  lemma ExitStages(i: nat)
    requires 7 <= i < 13
    ensures StageFollows(i)
  {
    hide ExitCount, FirstGeneration, NextGeneration, FreshExit;
  }

  lemma ResendStages(i: nat)
    requires 14 <= i < 16
    ensures StageFollows(i)
  {
    hide ExitCount, FirstGeneration, NextGeneration, FreshExit;
  }

  lemma CountUp(rows: seq<Row>, row: Row, signal: string)
    ensures ExitCount(rows + [row], signal) == ExitCount(rows, signal) + (if ExitOf(row, signal) then 1 else 0)
  {
    assert (rows + [row])[..|rows|] == rows;
  }

  lemma NoExitYet(leg: Row)
    requires leg.id.EntryId?
    ensures ExitCount([leg], "close") == 0
  {
    CountUp([], leg, "close");
    assert [] + [leg] == [leg];
  }

  lemma OpenStages()
    ensures StageFollows(6)
  {
    hide ExitCount, ExitOf;
    NoExitYet(Stage(6).rows[0]);
  }

  lemma ReopenStages()
    ensures StageFollows(13)
  {
    var leg, exit := Stage(13).rows[0], Stage(13).rows[1];
    CountUp([], leg, "close");
    CountUp([leg], exit, "close");
    assert [] + [leg] == [leg] && [leg] + [exit] == [leg, exit];
    hide ExitCount;
  }

  lemma {:induction false} Stages(i: nat)
    requires i <= 16
    ensures Legal(Stage(0), SentTwice()[..i]) && After(Stage(0), SentTwice()[..i]) == Stage(i)
  {
    hide Enabled, Apply, Stage;
    if i > 0 {
      Stages(i - 1);
      OpenStages();
      ReopenStages();
      if i <= 3 {
        SentStages(i - 1);
      } else if i <= 6 {
        EntryStages(i - 1);
      } else if 8 <= i <= 13 {
        ExitStages(i - 1);
      } else if i > 14 {
        ResendStages(i - 1);
      }
      var run := SentTwice();
      assert StageFollows(i - 1);
      assert run[..i][..i - 1] == run[..i - 1] && run[..i][i - 1] == run[i - 1];
    }
  }

  lemma FirstStage()
    ensures Init(Stage(0)) && SentTwice()[7] == Restart
  {
  }

  lemma PassStages()
    ensures var before, after := Stage(8), Stage(16);
            && before.ctx.intent.Some? && Unsent(before.rows) == 1
            && Pass(1, before, after, 1) && |after.rows| == |before.rows| + 1
            && |after.sent| == |before.sent| + Unsent(before.rows) + 1
  {
    var before, after := Stage(8), Stage(16);
    assert ExitMeasure(before) == 23 && ExitMeasure(after) == 15;
  }

  /** The bound on the requests of one pass is attained: the pass that follows the restart
      sends the recorded exit and its resubmission, and creates one row. */
  lemma TwoRequestsInOnePass()
    ensures Init(Stage(0)) && Legal(Stage(0), SentTwice()) && SentTwice()[7] == Restart
    ensures var before, after := After(Stage(0), SentTwice()[..8]), After(Stage(0), SentTwice());
            && before.ctx.intent.Some? && Unsent(before.rows) == 1
            && Pass(1, before, after, 1) && |after.rows| == |before.rows| + 1
            && |after.sent| == |before.sent| + Unsent(before.rows) + 1
  {
    hide Enabled, Apply, Stage, Init, After, Legal, Pass, Unsent;
    FirstStage();
    Stages(8);
    Stages(16);
    assert SentTwice()[..16] == SentTwice();
    PassStages();
  }

  lemma MoreShaped(rows: seq<Row>, legs: nat, row: Row)
    requires Shaped(rows, legs) && row.id.ExitId?
    ensures Shaped(rows + [row], legs)
  {
  }

  lemma ReachedOpened(initial: World, run: seq<Event>, w: World, row: Row, intent: Intent)
    requires Reached(initial, run, w) && May(w, ExitOpened(row, intent))
    ensures Reached(initial, run + [ExitOpened(row, intent)], Apply(w, ExitOpened(row, intent)))
    ensures var v := Apply(w, ExitOpened(row, intent));
            && v.rows == w.rows + [row] && v.ctx == w.ctx.(intent := Some(intent), state := CLOSE_PENDING)
            && v.sent == w.sent && v.pending == w.pending
  {
    ReachedStep(initial, run, w, ExitOpened(row, intent));
  }

  lemma StillShaped(rows: seq<Row>, legs: nat, k: nat, row: Row)
    requires Shaped(rows, legs) && k < |rows| && row.id == rows[k].id
    ensures Shaped(rows[k := row], legs)
  {
  }

  class Executor {
    const plan: EntryPlan
    const legs: nat
    // The exchange's current rules for the symbol, and the ID under which an excess is shed.
    const market: Rules
    const riskSignal: (real, real) -> string
    ghost const initial: World

    // Durable.
    var rows: seq<Row>
    var ctx: Ctx
    // Volatile: the working copy's latch, which may be on before it is stored.
    var entryDisabled: bool
    var clock: int
    // The exchange, and everything that happened.
    var world: World
    ghost var run: seq<Event>
    // Reads and writes that failed, answers that did not come, orders that would not end,
    // entries that were not admitted and protections that could not be placed.
    ghost var setbacks: nat
    // Orders that were looked up, answers that were older than the exchange's state, and the
    // fresh positions that were read.
    ghost var lookups: seq<nat>
    ghost var stale: nat
    ghost var positions: seq<Option<real>>

    ghost function Now(): Snapshot
      reads this`rows, this`ctx, this`world, this`lookups, this`positions
    {
      Snapshot(rows, ctx, world.sent, lookups, positions)
    }

    twostate predicate Logged()
      reads this`lookups, this`stale, this`positions
    {
      old(lookups) <= lookups && old(stale) <= stale && old(positions) <= positions
    }

    ghost predicate Core()
      reads this`rows, this`ctx, this`entryDisabled, this`world, this`run
    {
      && Reached(initial, run, world)
      && rows == world.rows && ctx == world.ctx
      && 1 <= legs <= 2 && legs <= |rows| && Shaped(rows, legs)
      && (ctx.entryDisabled ==> entryDisabled)
    }

    ghost predicate Valid()
      reads this`rows, this`ctx, this`entryDisabled, this`world, this`run
    {
      Core() && world.pending == None
    }

    constructor (plan: EntryPlan, created: World, market: Rules, riskSignal: (real, real) -> string)
      requires Init(created)
      ensures Valid() && run == [] && world == created
    {
      this.plan, legs, initial := plan, |created.rows|, created;
      this.market, this.riskSignal := market, riskSignal;
      rows, ctx, world := created.rows, created.ctx, created;
      entryDisabled, clock, run, setbacks, lookups, stale, positions := false, 0, [], 0, [], 0, [];
    }

    /** A crash and restart: what is not durable is read back from what is. */
    method Recover()
      requires Core()
      modifies this
      ensures Valid() && run == old(run) + [Restart]
      ensures rows == old(rows) && ctx == old(ctx) && entryDisabled == ctx.entryDisabled
    {
      ReachedStep(initial, run, world, Restart);
      world, run := Apply(world, Restart), run + [Restart];
      entryDisabled := ctx.entryDisabled;
    }

    // ---- Durable writes ---------------------------------------------------------------

    /** A step that depends on something outside. */
    method Succeeds() returns (ok: bool)
      modifies this`setbacks
      ensures setbacks == if ok then old(setbacks) else old(setbacks) + 1
    {
      ok := *;
      if !ok {
        setbacks := setbacks + 1;
      }
    }

    /** UpdateOrder; a failed write changes nothing. */
    method UpdateOrder(k: nat, row: Row, e: Event) returns (ok: bool)
      requires Valid() && k < |rows| && row.id == rows[k].id
      requires May(world, e) && Apply(world, e).rows == rows[k := row] && Apply(world, e).ctx == ctx
      modifies this`rows, this`world, this`run, this`setbacks
      ensures Core() && world.ctx == old(world.ctx) && world.sent == old(world.sent)
      ensures ok ==> rows == old(rows)[k := row] && world == Apply(old(world), e) && run == old(run) + [e]
      ensures !ok ==> rows == old(rows) && world == old(world) && run == old(run)
      ensures setbacks == if ok then old(setbacks) else old(setbacks) + 1
    {
      StillShaped(rows, legs, k, row);
      NothingSent(world, e);
      hide Reached, Enabled, Shaped, Apply, May;
      ok := Succeeds();
      if ok {
        ReachedStep(initial, run, world, e);
        rows, world, run := rows[k := row], Apply(world, e), run + [e];
      }
    }

    /** UpdateContextVersioned: a version conflict is a failed write. */
    method UpdateContext(c: Ctx, e: Event) returns (ok: bool)
      requires Valid() && May(world, e)
      requires Apply(world, e) == world.(ctx := c) && (c.entryDisabled ==> entryDisabled || e == Latched)
      modifies this`ctx, this`entryDisabled, this`world, this`run, this`setbacks
      ensures Valid()
      ensures world.(ctx := old(ctx)) == old(world)
      ensures ok ==> ctx == c && run == old(run) + [e] && entryDisabled == (old(entryDisabled) || e == Latched)
      ensures !ok ==> ctx == old(ctx) && run == old(run) && entryDisabled == old(entryDisabled)
      ensures setbacks == if ok then old(setbacks) else old(setbacks) + 1
    {
      hide Reached, Enabled, Apply, Shaped;
      ok := Succeeds();
      if ok {
        ReachedStep(initial, run, world, e);
        ctx, world, run := c, Apply(world, e), run + [e];
        entryDisabled := entryDisabled || e == Latched;
      }
    }

    // ---- The exchange -----------------------------------------------------------------

    /** One move of the exchange, if it is possible. */
    method VenueMove(e: Event)
      requires Core() && VenueEvent(e)
      modifies this`world, this`run
      ensures Core() && VenueMoved(old(world), world) && old(run) <= run
    {
      if Enabled(world, e) {
        ReachedStep(initial, run, world, e);
        world, run := Apply(world, e), run + [e];
      }
    }

    /** Any number of moves of the exchange, over any time. */
    method Interfere()
      requires Core()
      modifies this`world, this`run, this`clock
      ensures Core() && VenueMoved(old(world), world) && old(run) <= run && clock >= old(clock)
    {
      var moves: nat := *;
      var waited: int := *;
      clock := if waited > 0 then clock + waited else clock;
      while moves > 0
        invariant clock >= old(clock) && Core() && VenueMoved(old(world), world) && old(run) <= run
      {
        var kind: nat := *;
        var k: nat := *;
        var qty: real := *;
        VenueMove(if kind == 0 then Lands(k) else if kind == 1 then Lost(k)
                  else if kind == 2 then Fills(k, qty) else Ends(k));
        moves := moves - 1;
      }
    }

    method SubmitOrder(k: nat) returns (reply: SubmitReply)
      requires Core() && world.pending == Some(k) && k < |rows|
      modifies this`world, this`run, this`clock, this`lookups, this`stale, this`setbacks
      ensures Valid() && old(run) <= run && clock >= old(clock)
      ensures world.sent == old(world.sent) + [k]
      ensures reply.Refusal? ==> k !in world.venue && k !in world.inflight
      ensures reply.Accepted? ==> Reports(world, k, reply.result)
      ensures setbacks == old(setbacks) + (if reply.NoAnswer? then 1 else 0)
      ensures lookups == old(lookups) && stale >= old(stale)
      ensures reply.Accepted? && stale == old(stale) ==> UpToDate(world, k, reply.result)
    {
      SendsNext(world, k);
      ReachedStep(initial, run, world, Send(k));
      world, run := Apply(world, Send(k)), run + [Send(k)];
      hide Reached, Shaped, Enabled, Apply;
      Interfere();
      reply := *;
      if reply.Refusal? && (k in world.venue || k in world.inflight) {
        reply := NoAnswer;
      }
      if reply.Accepted? && !Reports(world, k, reply.result) {
        reply := NoAnswer;
      }
      if reply.NoAnswer? {
        setbacks := setbacks + 1;
      }
      if reply.Accepted? && !UpToDate(world, k, reply.result) {
        stale := stale + 1;
      }
    }

    /** An order that stays unknown for the grace period never reached the exchange. */
    method GetOrder(k: nat) returns (reply: GetReply)
      requires Valid() && k < |rows|
      modifies this`world, this`run, this`clock, this`lookups, this`stale, this`setbacks
      ensures Valid() && VenueMoved(old(world), world) && old(run) <= run && clock >= old(clock)
      ensures reply.NotFound? ==>
                k !in world.venue && (clock - rows[k].updatedAt >= NOT_FOUND_GRACE ==> k !in world.inflight)
      ensures reply.Found? ==> Reports(world, k, reply.result)
      ensures setbacks == old(setbacks) + (if reply.Unreachable? then 1 else 0)
      ensures lookups == old(lookups) + [k] && stale >= old(stale)
      ensures reply.Found? && stale == old(stale) ==> UpToDate(world, k, reply.result)
    {
      lookups := lookups + [k];
      Interfere();
      reply := *;
      if reply.NotFound? && (k in world.venue || (clock - rows[k].updatedAt >= NOT_FOUND_GRACE && k in world.inflight)) {
        reply := Unreachable;
      }
      if reply.Found? && !Reports(world, k, reply.result) {
        reply := Unreachable;
      }
      if reply.Unreachable? {
        setbacks := setbacks + 1;
      }
      if reply.Found? && !UpToDate(world, k, reply.result) {
        stale := stale + 1;
      }
    }

    method CancelOrder(k: nat) returns (reply: CancelReply)
      requires Valid() && k < |rows|
      modifies this`world, this`run, this`clock, this`lookups, this`stale, this`setbacks
      ensures Valid() && VenueMoved(old(world), world) && old(run) <= run && clock >= old(clock)
      ensures reply.CancelTaken? ==> Reports(world, k, reply.result)
      ensures lookups == old(lookups) && stale == old(stale)
      ensures setbacks ==
              old(setbacks) + (match reply case CancelFailed => 1 case CancelTaken(r) => if OrderTerminal(r.status) then 0 else 1)
    {
      Interfere();
      reply := *;
      if reply.CancelTaken? && !Reports(world, k, reply.result) {
        reply := CancelFailed;
      }
      match reply
      case CancelFailed => setbacks := setbacks + 1;
      case CancelTaken(r) =>
        if !OrderTerminal(r.status) {
          setbacks := setbacks + 1;
        }
    }

    /** A fresh position read: unreadable, none, or a size. */
    method FreshPosition() returns (ok: bool, position: Option<real>)
      modifies this`setbacks, this`positions
      ensures position.Some? ==> position.value >= 0.0
      ensures positions == old(positions) + [position]
      ensures setbacks == if ok then old(setbacks) else old(setbacks) + 1
    {
      ok := Succeeds();
      position := None;
      var size: real := *;
      var found: bool := *;
      if found && size >= 0.0 {
        position := Some(size);
      }
      positions := positions + [position];
    }

    // ---- One ledger row ---------------------------------------------------------------

    method RecordManagedResult(k: nat, row: Row, r: OrderResult) returns (row': Row, fault: Option<Fault>)
      requires Valid() && k < |rows| && row == rows[k]
      requires row.status != PLANNED && !OrderTerminal(row.status) && Reports(world, k, r)
      modifies this`rows, this`world, this`run, this`setbacks
      ensures Valid() && old(run) <= run && rows == old(rows)[k := row'] && world.sent == old(world.sent)
      ensures SameOrder(row, row') && world.venue == old(world.venue)
      ensures fault == None ==>
                && row'.status != PLANNED
                && row' == row.(known := true, status := r.status, executed := r.executed, avg := r.avg)
                && LookedUp(world, k, clock, row, row')
      ensures fault.Some? ==> row' == row && Outside(fault) && setbacks > old(setbacks)
      ensures fault == None <==> setbacks == old(setbacks)
    {
      hide Reached, Shaped;
      row' := row;
      if !r.matches {
        setbacks := setbacks + 1;
        return row, Some(IdentityMismatch);
      }
      if r.executed + TOLERANCE < row.executed {
        setbacks := setbacks + 1;
        return row, Some(FillsBackwards);
      }
      var updated := row.(known := true, status := r.status, executed := r.executed, avg := r.avg);
      var ok := UpdateOrder(k, updated, Recorded(k, r.status, r.executed, r.avg));
      if !ok {
        return row, Some(StoreFailed);
      }
      return updated, None;
    }

    method QueryManaged(k: nat, row: Row) returns (row': Row, fault: Option<Fault>)
      requires Valid() && k < |rows| && row == rows[k]
      requires row.status == PLANNED || row.status == ABANDONED || !OrderTerminal(row.status)
      modifies this`rows, this`world, this`run, this`clock, this`lookups, this`stale, this`setbacks
      ensures Valid() && old(run) <= run && rows == old(rows)[k := row'] && world.sent == old(world.sent)
      ensures lookups == if Live(row) then old(lookups) + [k] else old(lookups)
      ensures fault == None && stale == old(stale) && Live(row) && Live(row') ==> k in world.venue && world.venue[k].open
      ensures Logged()
      ensures SameOrder(row, row')
      ensures row.status == PLANNED || row.status == ABANDONED ==> row' == row && fault == None
      ensures row.status != PLANNED ==> row'.status != PLANNED
      ensures fault == None && row.status != PLANNED && row.status != ABANDONED ==> LookedUp(world, k, clock, row, row')
      ensures fault.Some? ==> row' == row && Outside(fault)
      ensures setbacks >= old(setbacks) && (fault == None <==> setbacks == old(setbacks))
    {
      hide Reached, Shaped;
      if row.status == PLANNED || row.status == ABANDONED {
        return row, None;
      }
      var reply := GetOrder(k);
      match reply
      case Unreachable => return row, Some(VenueFailed);
      case Found(r) => row', fault := RecordManagedResult(k, row, r);
      case NotFound =>
        if row.known || (row.status != SUBMITTING && row.status != UNKNOWN)
           || clock - row.updatedAt < NOT_FOUND_GRACE {
          setbacks := setbacks + 1;
          return row, Some(OrderMissing);
        }
        var ok := UpdateOrder(k, row.(status := ABANDONED), Abandoned(k));
        if !ok {
          return row, Some(StoreFailed);
        }
        return row.(status := ABANDONED), None;
    }

    /** A submit is permitted once, after its intent was stored; what was sent before is only
        looked up. An entry may first be refused by the admission checks, which leave it PLANNED
        or abandon it. */
    method SubmitManagedChecked(k: nat, row: Row, reduce: bool, recheck: Option<real>)
      returns (row': Row, fault: Option<Fault>)
      requires Valid() && k < |rows| && row == rows[k] && reduce == row.id.ExitId?
      requires row.status == ABANDONED || !OrderTerminal(row.status)
      requires row.status == PLANNED && !reduce ==> !ctx.entryDisabled
      modifies this`rows, this`world, this`run, this`clock, this`lookups, this`stale, this`setbacks
      ensures setbacks >= old(setbacks)
      ensures Valid() && old(run) <= run && rows == old(rows)[k := row']
      ensures Live(row) ==> lookups == old(lookups) + [k]
      ensures fault == None && stale == old(stale) && Live(row') ==> k in world.venue && world.venue[k].open
      ensures Logged()
      ensures row'.id == row.id && (reduce || recheck == None ==> SameOrder(row, row'))
      ensures fault == None ==> row'.status != PLANNED
      ensures row.status == PLANNED && fault == None ==> world.sent == old(world.sent) + [k]
      ensures row.status != PLANNED ==> world.sent == old(world.sent)
      ensures row.status != PLANNED && row.status != ABANDONED && fault == None ==> LookedUp(world, k, clock, row, row')
      ensures reduce ==> fault == None || Outside(fault) || (fault == Some(OrderRejected) && row'.status == REJECTED)
      ensures reduce && row.status == PLANNED && setbacks == old(setbacks) ==>
                world.sent == old(world.sent) + [k] && (fault == None || fault == Some(OrderRejected))
      ensures setbacks == old(setbacks) && fault == Some(OrderRejected) ==> row'.status == REJECTED
      ensures !reduce && row.status == PLANNED && setbacks == old(setbacks) ==>
                if recheck.Some? && FirstLeg(plan, row.qty, recheck.value, legs == 2) == None then
                  fault == Some(EntryRepriced) && world.sent == old(world.sent)
                else world.sent == old(world.sent) + [k] && (fault == None || fault == Some(OrderRejected))
      ensures world.sent == old(world.sent) || world.sent == old(world.sent) + [k]
    {
      hide Reached, Shaped, Reports, UpToDate, FirstLeg, LookedUp;
      if row.status != PLANNED {
        row', fault := QueryManaged(k, row);
        return;
      }
      row' := row;
      if !reduce {
        row', fault := CheckEntry(k, row, recheck);
        if fault.Some? {
          return;
        }
      }
      row', fault := SendPlanned(k, row');
    }

    /** Source admission, then for a first market leg its fresh price; a revoked leg is
        abandoned, a deferred one stays PLANNED. */
    method CheckEntry(k: nat, row: Row, recheck: Option<real>) returns (row': Row, fault: Option<Fault>)
      requires Valid() && k < |rows| && row == rows[k] && row.status == PLANNED && row.id.EntryId?
      modifies this`rows, this`world, this`run, this`setbacks
      ensures setbacks >= old(setbacks)
      ensures Valid() && old(run) <= run && rows == old(rows)[k := row'] && world.sent == old(world.sent)
      ensures row'.id == row.id && (fault == None ==> row'.status == PLANNED)
      ensures recheck == None ==> SameOrder(row, row')
      ensures setbacks == old(setbacks) ==>
                fault == if recheck.Some? && FirstLeg(plan, row.qty, recheck.value, legs == 2) == None then Some(EntryRepriced) else None
    {
      hide Reached, Shaped, FirstLeg;
      var admitted := Succeeds();
      var revoked: bool := *;
      row', fault := row, None;
      if !admitted {
        fault := Some(if revoked then EntryRevoked else EntryDeferred);
      } else if recheck.Some? {
        row', fault := RevalidateDeferredMarket(k, row, recheck.value);
      }
      if fault == Some(EntryRevoked) || fault == Some(EntryRepriced) {
        var ok := UpdateOrder(k, row'.(status := ABANDONED), Abandoned(k));
        if ok {
          row' := row'.(status := ABANDONED);
        } else {
          fault := Some(StoreFailed);
        }
      }
    }

    /** A first market leg is priced and re-sized at the live price, never above its
        planned quantity; the frozen entry decision may refuse it. */
    method RevalidateDeferredMarket(k: nat, row: Row, market: real) returns (row': Row, fault: Option<Fault>)
      requires Valid() && k < |rows| && row == rows[k] && row.status == PLANNED && row.id.EntryId?
      modifies this`rows, this`world, this`run, this`setbacks
      ensures setbacks >= old(setbacks)
      ensures Valid() && old(run) <= run && rows == old(rows)[k := row'] && world.sent == old(world.sent)
      ensures row'.id == row.id && row'.status == PLANNED && row'.qty <= row.qty
      ensures fault.Some? ==> row' == row
      ensures setbacks == old(setbacks) ==>
                fault == if FirstLeg(plan, row.qty, market, legs == 2) == None then Some(EntryRepriced) else None
      ensures fault == None ==>
                && row' == row.(qty := row'.qty, price := row'.price)
                && row'.price == market && FirstLeg(plan, row.qty, market, legs == 2).Some?
                && var sized := FirstLeg(plan, row.qty, market, legs == 2).value;
                row'.qty == if sized + FINE_TOLERANCE < row.qty then sized else row.qty
    {
      var priced := Succeeds();
      var agreed := Succeeds();
      var sized := FirstLeg(plan, row.qty, market, legs == 2);
      if !priced || market <= 0.0 {
        setbacks := if priced then setbacks + 1 else setbacks;
        return row, Some(EntryDeferred);
      }
      if !agreed || sized.None? {
        return row, Some(EntryRepriced);
      }
      var qty := if sized.value + FINE_TOLERANCE < row.qty then sized.value else row.qty;
      FirstLegKeepsBudget(plan, row.qty, market, legs == 2);
      hide FirstLeg, Reached, Shaped;
      var ok := UpdateOrder(k, row.(qty := qty, price := market), Resized(k, qty, market));
      if !ok {
        return row, Some(StoreFailed);
      }
      return row.(qty := qty, price := market), None;
    }

    /** SUBMITTING is stored before the request leaves; whatever the answer, the request is
        never repeated. */
    method SendPlanned(k: nat, row: Row) returns (row': Row, fault: Option<Fault>)
      requires Valid() && k < |rows| && row == rows[k] && row.status == PLANNED
      requires row.id.EntryId? ==> !ctx.entryDisabled
      modifies this`rows, this`world, this`run, this`clock, this`lookups, this`stale, this`setbacks
      ensures setbacks >= old(setbacks)
      ensures Valid() && old(run) <= run && rows == old(rows)[k := row']
      ensures fault == None && stale == old(stale) && Live(row') ==> k in world.venue && world.venue[k].open
      ensures Logged()
      ensures SameOrder(row, row')
      ensures world.sent == old(world.sent) || world.sent == old(world.sent) + [k]
      ensures row'.status != PLANNED <==> world.sent == old(world.sent) + [k]
      ensures fault == None ==> row'.status != PLANNED
      ensures fault == None || Outside(fault) || (fault == Some(OrderRejected) && row'.status == REJECTED)
      ensures setbacks == old(setbacks) ==> world.sent == old(world.sent) + [k] && (fault == None || fault == Some(OrderRejected))
    {
      hide Reached;
      row' := row.(status := SUBMITTING, updatedAt := clock);
      var ok := UpdateOrder(k, row', BeginSubmit(k, clock));
      if !ok {
        return row, Some(StoreFailed);
      }
      var reply := SubmitOrder(k);
      row', fault := SubmitAnswered(k, row', reply);
    }

    /** A refusal is final, no answer is looked up by client ID, and a market order that is
        not yet final is looked up too. */
    method SubmitAnswered(k: nat, row: Row, reply: SubmitReply) returns (row': Row, fault: Option<Fault>)
      requires Valid() && k < |rows| && row == rows[k] && row.status == SUBMITTING
      requires reply.Refusal? ==> k !in world.venue && k !in world.inflight
      requires reply.Accepted? ==> Reports(world, k, reply.result)
      modifies this`rows, this`world, this`run, this`clock, this`lookups, this`stale, this`setbacks
      ensures setbacks >= old(setbacks)
      ensures Valid() && old(run) <= run && rows == old(rows)[k := row'] && world.sent == old(world.sent)
      ensures fault == None && stale == old(stale) && Live(row') && (reply.Accepted? ==> UpToDate(old(world), k, reply.result)) ==>
                k in world.venue && world.venue[k].open
      ensures Logged()
      ensures SameOrder(row, row') && row'.status != PLANNED
      ensures fault == None || Outside(fault) || (fault == Some(OrderRejected) && row'.status == REJECTED)
      ensures reply.Refusal? ==> fault.Some? && row' == if fault == Some(OrderRejected) then row.(status := REJECTED) else row
      ensures reply.NoAnswer? && fault.Some? ==> row' == row || row' == row.(status := UNKNOWN, updatedAt := row'.updatedAt)
      ensures fault == None ==> row'.known || row'.status == ABANDONED
      ensures setbacks == old(setbacks) ==> fault == (if reply.Refusal? then Some(OrderRejected) else None)
    {
      hide Reached;
      match reply
      case Refusal =>
        var ok := UpdateOrder(k, row.(status := REJECTED), Refused(k));
        if !ok {
          return row, Some(StoreFailed);
        }
        return row.(status := REJECTED), Some(OrderRejected);
      case NoAnswer =>
        var ok := UpdateOrder(k, row.(status := UNKNOWN, updatedAt := clock), OrderProtocol.Uncertain(k, clock));
        if !ok {
          return row, Some(StoreFailed);
        }
        row', fault := QueryManaged(k, row.(status := UNKNOWN, updatedAt := clock));
      case Accepted(r) =>
        row', fault := RecordManagedResult(k, row, r);
        if fault == None && !OrderTerminal(row'.status) && row'.kind == MARKET {
          row', fault := QueryManaged(k, row');
        }
    }

    method CancelManaged(k: nat, row: Row) returns (row': Row, fault: Option<Fault>)
      requires Valid() && k < |rows| && row == rows[k]
      modifies this`rows, this`world, this`run, this`clock, this`lookups, this`stale, this`setbacks
      ensures setbacks >= old(setbacks)
      ensures Valid() && old(run) <= run && rows == old(rows)[k := row'] && world.sent == old(world.sent)
      ensures Logged()
      ensures SameOrder(row, row')
      ensures fault == None ==> OrderTerminal(row'.status)
      ensures fault == None || Outside(fault)
      ensures setbacks == old(setbacks) ==> fault == None
      ensures OrderTerminal(row.status) ==> row' == row && fault == None && run == old(run)
    {
      hide Reached, Shaped;
      row', fault := row, None;
      if row.status == PLANNED {
        var ok := UpdateOrder(k, row.(status := ABANDONED), Abandoned(k));
        if !ok {
          return row, Some(StoreFailed);
        }
        return row.(status := ABANDONED), None;
      }
      if OrderTerminal(row.status) {
        return row, None;
      }
      var reply := CancelOrder(k);
      match reply {
        case CancelFailed => row', fault := QueryManaged(k, row);
        case CancelTaken(r) => row', fault := RecordManagedResult(k, row, r);
      }
      if fault == None && !OrderTerminal(row'.status) {
        fault := Some(NotTerminal);
      }
    }

    // ---- Exits -------------------------------------------------------------------------

    method FindOrder(id: Id) returns (found: Option<nat>)
      ensures found.Some? ==> found.value < |rows| && rows[found.value].id == id
      ensures found.None? ==> forall k :: 0 <= k < |rows| ==> rows[k].id != id
    {
      found := None;
      for i := 0 to |rows|
        invariant found.Some? ==> found.value < i && rows[found.value].id == id
        invariant found.None? ==> forall k :: 0 <= k < i ==> rows[k].id != id
      {
        if rows[i].id == id {
          found := Some(i);
        }
      }
    }

    /** The order the intent names, which is the newest row. */
    method FindNamed() returns (found: Option<nat>)
      requires Valid() && ctx.intent.Some?
      ensures found.Some? ==>
                found.value == |rows| - 1 && rows[found.value].id == ctx.intent.value.orderId && rows[found.value].id.ExitId?
    {
      hide Reached, Shaped;
      found := FindOrder(ctx.intent.value.orderId);
      if found.Some? {
        ReachedSafe(initial, run, world);
        NamedIsLast(world, found.value);
      }
    }

    /** Every recorded exit of a signal, oldest first. */
    method ExitRows(signal: string) returns (prior: seq<Row>)
      ensures |prior| == ExitCount(rows, signal)
      ensures forall k :: 0 <= k < |rows| && ExitOf(rows[k], signal) ==> rows[k] in prior
      ensures forall row :: row in prior ==> row in rows && ExitOf(row, signal)
    {
      prior := [];
      for i := 0 to |rows|
        invariant |prior| == ExitCount(rows[..i], signal)
        invariant forall k :: 0 <= k < i && ExitOf(rows[k], signal) ==> rows[k] in prior
        invariant forall row :: row in prior ==> row in rows && ExitOf(row, signal)
      {
        assert rows[..i + 1][..i] == rows[..i];
        if ExitOf(rows[i], signal) {
          prior := prior + [rows[i]];
        }
      }
      assert rows[..|rows|] == rows;
    }

    /** CreateExitOrder: the row and the intent that names it are stored together. */
    method CreateExitOrder(row: Row, intent: Intent) returns (ok: bool)
      requires Valid() && May(world, ExitOpened(row, intent)) && row.id.ExitId?
      modifies this`rows, this`ctx, this`world, this`run, this`setbacks
      ensures Valid() && old(run) <= run && world.sent == old(world.sent)
      ensures ok ==> rows == old(rows) + [row] && ctx == old(ctx).(intent := Some(intent), state := CLOSE_PENDING)
      ensures !ok ==> rows == old(rows) && ctx == old(ctx)
      ensures setbacks == if ok then old(setbacks) else old(setbacks) + 1
    {
      hide Reached, Enabled, Apply, Shaped;
      MoreShaped(rows, legs, row);
      ReachedOpened(initial, run, world, row, intent);
      ok := Succeeds();
      if ok {
        rows, ctx := rows + [row], ctx.(intent := Some(intent), state := CLOSE_PENDING);
        world, run := Apply(world, ExitOpened(row, intent)), run + [ExitOpened(row, intent)];
      }
    }

    /** The durable intent goes away only after the order it names has ended. */
    method ReleaseIntent(state: TradeState, quantity: real) returns (ok: bool)
      requires Valid() && Enabled(world, Released(state, quantity))
      modifies this
      ensures Valid() && old(run) <= run && clock == old(clock) && rows == old(rows) && world.sent == old(world.sent)
      ensures lookups == old(lookups) && stale == old(stale) && positions == old(positions)
      ensures entryDisabled == old(entryDisabled)
      ensures ctx == if ok then old(ctx).(intent := None, state := state, quantity := quantity) else old(ctx)
      ensures setbacks == if ok then old(setbacks) else old(setbacks) + 1
      ensures Pass(legs, old(world), world, 0) && (ok ==> Closer(old(world), world))
    {
      ok := UpdateContext(ctx.(intent := None, state := state, quantity := quantity), Released(state, quantity));
    }

    /** After a flat read every order of the trade is settled by its own identity. */
    method FinishTradeOrders() returns (fault: Option<Fault>, ghost seen: Option<real>)
      requires Valid()
      modifies this`rows, this`world, this`run, this`clock, this`lookups, this`stale, this`setbacks, this`positions
      ensures setbacks >= old(setbacks)
      ensures Valid() && old(run) <= run && |rows| == |old(rows)| && world.sent == old(world.sent)
      ensures Logged()
      ensures forall k :: 0 <= k < |rows| ==> rows[k].id == old(rows)[k].id
      ensures forall k :: 0 <= k < |rows| && OrderTerminal(old(rows)[k].status) ==> rows[k] == old(rows)[k]
      ensures fault == None ==> Flat(seen) && forall k :: 0 <= k < |rows| ==> OrderTerminal(rows[k].status)
      ensures !Flat(seen) ==> fault.Some? && rows == old(rows) && run == old(run)
      ensures fault == None || Outside(fault)
      ensures positions == old(positions) + [seen]
      ensures setbacks == old(setbacks) ==> fault == if Flat(seen) then None else Some(PositionOpen)
    {
      hide Reached;
      var ok, position := FreshPosition();
      seen := position;
      if !ok {
        return Some(PositionUnread), seen;
      }
      if position.Some? && position.value > 0.0 {
        return Some(PositionOpen), seen;
      }
      fault := None;
      for i := 0 to |rows|
        invariant Logged()
        invariant Valid() && old(run) <= run && |rows| == |old(rows)| && world.sent == old(world.sent)
        invariant forall k :: 0 <= k < |rows| ==> rows[k].id == old(rows)[k].id
        invariant forall k :: 0 <= k < |rows| && OrderTerminal(old(rows)[k].status) ==> rows[k] == old(rows)[k]
        invariant forall k :: 0 <= k < i ==> OrderTerminal(rows[k].status)
        invariant forall k :: i <= k < |rows| ==> rows[k] == old(rows)[k]
        invariant fault == None && setbacks >= old(setbacks) && positions == old(positions) + [seen]
      {
        fault := FinishOrder(i);
        if fault.Some? {
          return;
        }
      }
      var cleaned := Succeeds();
      fault := if cleaned then None else Some(VenueFailed);
    }

    method FinishOrder(k: nat) returns (fault: Option<Fault>)
      requires Valid() && k < |rows|
      modifies this`rows, this`world, this`run, this`clock, this`lookups, this`stale, this`setbacks
      ensures Valid() && old(run) <= run && world.sent == old(world.sent)
      ensures Logged()
      ensures |rows| == |old(rows)| && rows == old(rows)[k := rows[k]] && rows[k].id == old(rows)[k].id
      ensures OrderTerminal(old(rows)[k].status) ==> rows[k] == old(rows)[k]
      ensures fault == None ==> OrderTerminal(rows[k].status)
      ensures fault == None || Outside(fault)
      ensures setbacks >= old(setbacks) && (setbacks == old(setbacks) ==> fault == None)
    {
      hide Reached;
      var row := rows[k];
      fault := None;
      if OrderTerminal(row.status) {
        return;
      }
      if row.status != PLANNED {
        row, fault := QueryManaged(k, row);
      }
      if fault == None && !OrderTerminal(row.status) {
        row, fault := CancelManaged(k, row);
      }
    }

    /** Settles the durable exit intent. One pass with allowResubmit creates at most one
        order; unless it was stopped from outside it releases the intent or comes strictly
        closer to releasing it. */
    method ReconcileManagedCloseStep(allowResubmit: bool)
      returns (fault: Option<Fault>, ghost position: Option<real>, ghost now: int)
      requires Valid() && ctx.intent.Some?
      modifies this
      ensures |world.sent| <= |old(world.sent)| + Unsent(old(rows)) + (if allowResubmit then 1 else 0)
      ensures setbacks >= old(setbacks)
      ensures Valid() && old(run) <= run && entryDisabled == old(entryDisabled)
      ensures Logged()
      ensures Pass(legs, old(world), world, if allowResubmit then 1 else 0)
      ensures fault == None ==> ctx.intent == None
      ensures allowResubmit && !Outside(fault) ==> Closer(old(world), world)
      ensures setbacks == old(setbacks) ==> Unhindered(fault)
      ensures fault == Some(Waiting) && setbacks == old(setbacks) ==> |rows| > 0 && !OrderTerminal(rows[|rows| - 1].status)
      ensures fault == Some(Waiting) && setbacks == old(setbacks) && stale == old(stale) ==> OpenAtVenue(world)
      ensures 0 < |old(rows)| <= |rows| <= |old(rows)| + (if allowResubmit then 1 else 0)
      ensures setbacks == old(setbacks) ==> PassDone(old(Now()), Now(), allowResubmit, market, fault, position, now)
      ensures !allowResubmit && ctx.intent.Some? ==> SameExit(old(ctx.intent).value, ctx.intent.value)
      ensures !allowResubmit ==> ClosedFlat(old(Now()), Now())
      decreases allowResubmit, 4
    {
      hide Valid, Core, Reached, OrderSafety.Safe, Pass, Closer, ExitMeasure, Shaped, Attended, Decision, PassDone, NextRead, OpenAtVenue,
        ClosedFlat;
      ghost var n := if allowResubmit then 1 else 0;
      ghost var a, before := Now(), world;
      position, now := None, clock;
      var row;
      row, fault := AttendNamed();
      PassSame(legs, world, n);
      PassThen(legs, before, world, world, 0, n);
      ClosedSame(a, Now());
      if fault.Some? {
        if setbacks == old(setbacks) {
          PassRejected(a, Now(), allowResubmit, market, position, now);
        }
        return;
      }
      now := clock;
      ghost var m, between := Now(), world;
      label advanced:
      fault, position := SettleNamed(row, allowResubmit);
      PassThen(legs, before, between, world, 0, n);
      if !allowResubmit {
        ClosedLater(a, m, Now());
      }
      if setbacks == old(setbacks) {
        EndedKept@advanced(|m.rows| - 1);
        PassSent(legs, between, world, n);
        PassMade(a, m, Now(), row, allowResubmit, market, fault, position, now);
      }
    }

    /** The order the intent names is found and looked at. */
    method AttendNamed() returns (row: Row, fault: Option<Fault>)
      requires Valid() && ctx.intent.Some?
      modifies this`rows, this`world, this`run, this`clock, this`lookups, this`stale, this`setbacks
      ensures ctx == old(ctx)
      ensures setbacks >= old(setbacks)
      ensures Valid() && old(run) <= run && |rows| == |old(rows)| > 0 && row == rows[|rows| - 1]
      ensures Logged()
      ensures Pass(legs, old(world), world, 0) && |world.sent| <= |old(world.sent)| + Unsent(old(rows))
      ensures fault == None ==> row.id == ctx.intent.value.orderId && row.status != PLANNED
      ensures fault == None || Outside(fault) || Closer(old(world), world)
      ensures setbacks == old(setbacks) ==> Attended(old(Now()), Now())
      ensures setbacks == old(setbacks) ==> fault == None || fault == Some(OrderRejected)
      ensures setbacks == old(setbacks) && fault == Some(OrderRejected) ==>
                old(rows)[|rows| - 1].status == PLANNED && row.status == REJECTED
      ensures fault == None && stale == old(stale) && Live(row) ==> OpenAtVenue(world)
    {
      hide Reached, OrderSafety.Safe, Pass, Closer, ExitMeasure, Shaped, Attended;
      PassSame(legs, world, 0);
      row := rows[|rows| - 1];
      var found := FindNamed();
      if found.None? {
        setbacks := setbacks + 1;
        return row, Some(OrderMissing);
      }
      row, fault := AdvanceExit(found.value);
    }

    /** With the named order looked at, the position decides; a live order is waited for. */
    method SettleNamed(row: Row, allowResubmit: bool) returns (fault: Option<Fault>, ghost position: Option<real>)
      requires Valid() && ctx.intent.Some? && |rows| > 0 && row == rows[|rows| - 1]
      requires row.id == ctx.intent.value.orderId
      modifies this
      ensures |world.sent| <= |old(world.sent)| + (if allowResubmit then 1 else 0)
      ensures setbacks >= old(setbacks)
      ensures Valid() && old(run) <= run && entryDisabled == old(entryDisabled)
      ensures Logged()
      ensures Pass(legs, old(world), world, if allowResubmit then 1 else 0)
      ensures fault == None ==> ctx.intent == None
      ensures allowResubmit && !Outside(fault) ==> Closer(old(world), world)
      ensures setbacks == old(setbacks) ==> Unhindered(fault)
      ensures fault == Some(Waiting) && setbacks == old(setbacks) ==> |rows| > 0 && !OrderTerminal(rows[|rows| - 1].status)
      ensures fault == Some(Waiting) && setbacks == old(setbacks) && stale == old(stale) && OrderTerminal(row.status) ==>
                OpenAtVenue(world)
      ensures |old(rows)| <= |rows| <= |old(rows)| + (if allowResubmit then 1 else 0)
      ensures NextRead(old(Now()), Now(), position)
      ensures setbacks == old(setbacks) && OrderTerminal(row.status) ==>
                && Decision(row, old(ctx.intent).value, position, positions[|old(positions)| + 1..], old(clock), allowResubmit, market,
                            rows[|old(rows)|..], ctx, fault)
                && (|rows| > |old(rows)| ==> |old(rows)| in world.sent)
      ensures setbacks == old(setbacks) && !OrderTerminal(row.status) ==> fault == Some(Waiting)
      ensures !allowResubmit && ctx.intent.Some? ==> SameExit(old(ctx.intent).value, ctx.intent.value)
      ensures !allowResubmit ==> ClosedFlat(old(Now()), Now())
      ensures !OrderTerminal(row.status) ==> world == old(world) && rows == old(rows) && ctx == old(ctx) && fault.Some?
      decreases allowResubmit, 3
    {
      hide Valid, Core, Reached, OrderSafety.Safe, Pass, Closer, ExitMeasure, Shaped, Decision;
      PassSame(legs, world, if allowResubmit then 1 else 0);
      var read, held := FreshPosition();
      position := held;
      if !read {
        return Some(PositionUnread), position;
      }
      if held.Some? && held.value > 0.0 {
        var protected := Succeeds();
        if !protected {
          return Some(ProtectionFailed), position;
        }
      }
      if !OrderTerminal(row.status) {
        return Some(Waiting), position;
      }
      fault := SettleEndedExit(row, held, allowResubmit);
    }

    /** The named order is submitted if it never was, else looked up unless final. */
    method AdvanceExit(k: nat) returns (row: Row, fault: Option<Fault>)
      requires Valid() && ctx.intent.Some? && k == |rows| - 1 && rows[k].id.ExitId?
      modifies this`rows, this`world, this`run, this`clock, this`lookups, this`stale, this`setbacks
      ensures setbacks >= old(setbacks)
      ensures Valid() && old(run) <= run && rows == old(rows)[k := row] && SameOrder(old(rows)[k], row)
      ensures Live(old(rows)[k]) ==> LookedAt(old(lookups), lookups, k)
      ensures setbacks == old(setbacks) ==> Attended(old(Now()), Now())
      ensures fault == None && stale == old(stale) && Live(row) ==> OpenAtVenue(world)
      ensures Logged()
      ensures world.sent == old(world.sent) || (world.sent == old(world.sent) + [k] && old(rows)[k].status == PLANNED)
      ensures Pass(legs, old(world), world, 0)
      ensures fault == None ==> row.status != PLANNED
      ensures fault == None || Outside(fault) || Closer(old(world), world)
      ensures setbacks == old(setbacks) ==> fault == None || fault == Some(OrderRejected)
      ensures fault == Some(OrderRejected) ==> old(rows)[k].status == PLANNED && row.status == REJECTED
      ensures setbacks == old(setbacks) && old(rows)[k].status == PLANNED ==> world.sent == old(world.sent) + [k]
    {
      hide Valid, Core, Reached, Shaped, Pass, Closer, Attended, ExitMeasure;
      ghost var a, before := Now(), world;
      ExitRow(k);
      row, fault := LookOrSend(k);
      RowMoved(legs, before, world, k, row);
      if setbacks == old(setbacks) {
        AttendedNow(a, Now(), k);
      }
    }

    lemma Agreed()
      requires Valid()
      ensures rows == world.rows && ctx == world.ctx
    {
    }

    lemma ExitRow(k: nat)
      requires Valid() && k < |rows| && rows[k].id.ExitId?
      ensures rows == world.rows && ctx == world.ctx && legs <= k && world.pending == None
    {
      hide Reached;
    }

    method LookOrSend(k: nat) returns (row: Row, fault: Option<Fault>)
      requires Valid() && k < |rows| && rows[k].id.ExitId?
      modifies this`rows, this`world, this`run, this`clock, this`lookups, this`stale, this`setbacks
      ensures setbacks >= old(setbacks)
      ensures Valid() && old(run) <= run && rows == old(rows)[k := row] && SameOrder(old(rows)[k], row)
      ensures world.rows == rows && world.ctx == old(world.ctx)
      ensures Live(old(rows)[k]) ==> LookedAt(old(lookups), lookups, k)
      ensures Logged()
      ensures world.sent == old(world.sent) || (world.sent == old(world.sent) + [k] && old(rows)[k].status == PLANNED)
      ensures old(rows)[k].status != PLANNED ==> row.status != PLANNED
      ensures fault == None ==> row.status != PLANNED
      ensures fault == None && stale == old(stale) && Live(row) ==> k in world.venue && world.venue[k].open
      ensures OrderTerminal(old(rows)[k].status) ==> row == old(rows)[k] && fault == None
      ensures fault == None || Outside(fault) || (old(rows)[k].status == PLANNED && row.status == REJECTED)
      ensures setbacks == old(setbacks) ==> fault == None || fault == Some(OrderRejected)
      ensures setbacks == old(setbacks) && old(rows)[k].status == PLANNED ==> world.sent == old(world.sent) + [k]
    {
      hide Reached, Shaped, Reports, LookedUp;
      row, fault := rows[k], None;
      if row.status == PLANNED {
        var ruled := Succeeds();
        if !ruled {
          return row, Some(VenueFailed);
        }
        row, fault := SubmitManagedChecked(k, row, true, None);
      } else if !OrderTerminal(row.status) {
        row, fault := QueryManaged(k, row);
      }
    }

    /** The named order has ended. A flat position closes the trade; a filled partial exit
        re-opens it; a filled full exit needs its residual sighted twice; anything else is
        resubmitted. */
    method SettleEndedExit(row: Row, position: Option<real>, allowResubmit: bool) returns (fault: Option<Fault>)
      requires Valid() && ctx.intent.Some? && |rows| > 0 && row == rows[|rows| - 1]
      requires row.id == ctx.intent.value.orderId && OrderTerminal(row.status)
      modifies this
      ensures |world.sent| <= |old(world.sent)| + (if allowResubmit then 1 else 0)
      ensures setbacks >= old(setbacks)
      ensures Valid() && old(run) <= run && entryDisabled == old(entryDisabled)
      ensures Logged()
      ensures Pass(legs, old(world), world, if allowResubmit then 1 else 0)
      ensures fault == None ==> ctx.intent == None
      ensures allowResubmit && !Outside(fault) ==> Closer(old(world), world)
      ensures setbacks == old(setbacks) ==> Unhindered(fault)
      ensures fault == Some(Waiting) && setbacks == old(setbacks) ==> |rows| > 0 && !OrderTerminal(rows[|rows| - 1].status)
      ensures fault == Some(Waiting) && setbacks == old(setbacks) && stale == old(stale) ==> OpenAtVenue(world)
      ensures |old(rows)| <= |rows| <= |old(rows)| + (if allowResubmit then 1 else 0)
      ensures setbacks == old(setbacks) ==>
                && Decision(row, old(ctx.intent).value, position, positions[|old(positions)|..], old(clock), allowResubmit, market,
                            rows[|old(rows)|..], ctx, fault)
                && (|rows| > |old(rows)| ==> |old(rows)| in world.sent)
      ensures !allowResubmit && ctx.intent.Some? ==> SameExit(old(ctx.intent).value, ctx.intent.value)
      ensures !allowResubmit ==> ClosedFlat(old(Now()), Now())
      decreases allowResubmit, 2
    {
      hide Valid, Core, Reached, OrderSafety.Safe, Pass, Closer, ExitMeasure, Shaped;
      PassSame(legs, world, if allowResubmit then 1 else 0);
      if Flat(position) {
        fault := CloseFlat();
        PassSame(legs, world, if allowResubmit then 1 else 0);
        PassThen(legs, old(world), world, world, 0, if allowResubmit then 1 else 0);
        return;
      }
      var intent := ctx.intent.value;
      if row.status == FILLED && !intent.full {
        var ok := Reopen(position.value);
        PassSame(legs, world, if allowResubmit then 1 else 0);
        PassThen(legs, old(world), world, world, 0, if allowResubmit then 1 else 0);
        return if ok then None else Some(StoreFailed);
      }
      if row.status == FILLED && intent.residualSeenAt.None? {
        fault := NoteResidual();
        PassSame(legs, world, if allowResubmit then 1 else 0);
        PassThen(legs, old(world), world, world, 0, if allowResubmit then 1 else 0);
        return;
      }
      if row.status == FILLED && clock - intent.residualSeenAt.value < RESIDUAL_CONFIRM_AFTER {
        return Some(ResidualTooSoon);
      }
      if !allowResubmit {
        return Some(ExitResubmitted);
      }
      fault := ResubmitManagedExit(row, position.value);
    }

    /** The exit is over and the trade goes on with what is left. */
    method Reopen(quantity: real) returns (ok: bool)
      requires Valid() && ctx.intent.Some? && |rows| > 0
      requires rows[|rows| - 1].id == ctx.intent.value.orderId && OrderTerminal(rows[|rows| - 1].status)
      modifies this
      ensures Valid() && old(run) <= run && rows == old(rows) && world.sent == old(world.sent) && clock == old(clock)
      ensures lookups == old(lookups) && stale == old(stale) && positions == old(positions)
      ensures Pass(legs, old(world), world, 0) && (ok ==> Closer(old(world), world))
      ensures entryDisabled == old(entryDisabled) && ctx.entryDisabled == old(ctx.entryDisabled)
      ensures setbacks == if ok then old(setbacks) else old(setbacks) + 1
      ensures if ok then Reopened(ctx, quantity) else ctx == old(ctx)
    {
      hide Reached, Shaped;
      var breakeven: bool := *;
      ok := ReleaseIntent(if breakeven then BREAKEVEN else OPEN, quantity);
    }

    /** The position is flat: every order is settled first, then the trade is closed. */
    method CloseFlat() returns (fault: Option<Fault>)
      requires Valid() && ctx.intent.Some? && |rows| > 0
      requires rows[|rows| - 1].id == ctx.intent.value.orderId && OrderTerminal(rows[|rows| - 1].status)
      modifies this
      ensures world.sent == old(world.sent)
      ensures setbacks >= old(setbacks)
      ensures Valid() && old(run) <= run && |rows| == |old(rows)| && Pass(legs, old(world), world, 0)
      ensures Logged()
      ensures fault == None ==> Closer(old(world), world)
      ensures entryDisabled == old(entryDisabled)
      ensures ctx == if fault == None then old(ctx).(intent := None, state := CLOSED, quantity := 0.0) else old(ctx)
      ensures fault == None ==> forall k :: 0 <= k < |rows| ==> OrderTerminal(rows[k].status)
      ensures fault == None || Outside(fault)
      ensures ClosedFlat(old(Now()), Now())
      ensures setbacks == old(setbacks) ==>
                && |positions| == |old(positions)| + 1
                && fault == if Flat(positions[|old(positions)|]) then None else Some(PositionOpen)
    {
      hide Reached;
      ghost var seen;
      fault, seen := FinishTradeOrders();
      assert positions[|old(positions)|] == seen;
      if fault.Some? {
        return;
      }
      var ok := ReleaseIntent(CLOSED, 0.0);
      fault := if ok then None else Some(StoreFailed);
    }

    method NoteResidual() returns (fault: Option<Fault>)
      requires Valid() && ctx.intent.Some? && ctx.intent.value.residualSeenAt.None? && |rows| > 0
      modifies this
      ensures setbacks >= old(setbacks)
      ensures Valid() && old(run) <= run && rows == old(rows) && world.sent == old(world.sent)
      ensures lookups == old(lookups) && stale == old(stale) && positions == old(positions)
      ensures Pass(legs, old(world), world, 0) && (!Outside(fault) ==> Closer(old(world), world))
      ensures entryDisabled == old(entryDisabled)
      ensures fault == Some(ResidualNoted) || fault == Some(StoreFailed)
      ensures setbacks == old(setbacks) ==> fault == Some(ResidualNoted)
      ensures ctx == if fault == Some(ResidualNoted)
                     then old(ctx).(intent := Some(old(ctx).intent.value.(residualSeenAt := Some(old(clock)))))
                     else old(ctx)
    {
      hide Reached, Shaped;
      var noted := ctx.(intent := Some(ctx.intent.value.(residualSeenAt := Some(clock))));
      var ok := UpdateContext(noted, ResidualSeen(clock));
      fault := Some(if ok then ResidualNoted else StoreFailed);
    }

    /** Replaces an ended exit by a new generation sized from the fresh position, at most
        MAX_EXIT_RESUBMITS times; what cannot be sent releases the intent for review. */
    method ResubmitManagedExit(prev: Row, position: real) returns (fault: Option<Fault>)
      requires Valid() && ctx.intent.Some? && |rows| > 0 && prev == rows[|rows| - 1] && position > 0.0
      requires prev.id == ctx.intent.value.orderId && OrderTerminal(prev.status)
      modifies this
      ensures |world.sent| <= |old(world.sent)| + 1
      ensures setbacks >= old(setbacks)
      ensures Valid() && old(run) <= run && entryDisabled == old(entryDisabled)
      ensures Logged()
      ensures Pass(legs, old(world), world, 1)
      ensures fault == None ==> ctx.intent == None
      ensures !Outside(fault) ==> Closer(old(world), world)
      ensures setbacks == old(setbacks) ==> Unhindered(fault)
      ensures fault == Some(Waiting) && setbacks == old(setbacks) ==> |rows| > 0 && !OrderTerminal(rows[|rows| - 1].status)
      ensures fault == Some(Waiting) && setbacks == old(setbacks) && stale == old(stale) ==> OpenAtVenue(world)
      ensures |old(rows)| <= |rows| <= |old(rows)| + 1
      ensures setbacks == old(setbacks) ==>
                && Resubmission(prev, old(ctx.intent).value, position, market, rows[|old(rows)|..], ctx, fault)
                && (|rows| > |old(rows)| ==> |old(rows)| in world.sent)
      decreases true, 1
    {
      hide Valid, Core, Reached, OrderSafety.Safe, Pass, Closer, ExitMeasure, Shaped, FloorQuantity, WholeLots, Lot, LotMinimum, LotMaximum;
      PassSame(legs, world, 1);
      var intent := ctx.intent.value;
      if intent.attempts >= MAX_EXIT_RESUBMITS {
        fault := AbandonManagedExit(position);
        PassSame(legs, world, 1);
        PassThen(legs, old(world), world, world, 0, 1);
        return;
      }
      var ruled := Succeeds();
      if !ruled {
        return Some(VenueFailed);
      }
      var want := StillWanted(prev, position, intent.full);
      var sized := FloorQuantity(want, true, market);
      if sized.None? {
        fault := AbandonManagedExit(position);
        PassSame(legs, world, 1);
        PassThen(legs, old(world), world, world, 0, 1);
        return;
      }
      fault := Resubmit(prev, sized.value, want);
    }

    /** The new generation is recorded, then sent. */
    method Resubmit(prev: Row, qty: real, want: real) returns (fault: Option<Fault>)
      requires Valid() && ctx.intent.Some? && |rows| > 0 && prev == rows[|rows| - 1]
      requires prev.id == ctx.intent.value.orderId && OrderTerminal(prev.status)
      requires ctx.intent.value.attempts < MAX_EXIT_RESUBMITS && FloorQuantity(want, true, market) == Some(qty)
      requires !ctx.intent.value.full ==> want <= Max(0.0, prev.qty - prev.executed)
      modifies this
      ensures |world.sent| <= |old(world.sent)| + 1
      ensures setbacks >= old(setbacks)
      ensures Valid() && old(run) <= run && entryDisabled == old(entryDisabled)
      ensures Logged()
      ensures Pass(legs, old(world), world, 1)
      ensures fault == None ==> ctx.intent == None
      ensures !Outside(fault) ==> Closer(old(world), world)
      ensures setbacks == old(setbacks) ==> Unhindered(fault)
      ensures fault == Some(Waiting) && setbacks == old(setbacks) ==> |rows| > 0 && !OrderTerminal(rows[|rows| - 1].status)
      ensures fault == Some(Waiting) && setbacks == old(setbacks) && stale == old(stale) ==> OpenAtVenue(world)
      ensures |rows| == |old(rows)| || (|rows| == |old(rows)| + 1 && rows[|old(rows)|].qty == qty)
      ensures |rows| > |old(rows)| ==> ExitOf(rows[|old(rows)|], old(ctx.intent).value.signal)
      ensures setbacks == old(setbacks) ==> |rows| > |old(rows)| && |old(rows)| in world.sent
      decreases true, 0, 1
    {
      hide Valid, Core, Reached, OrderSafety.Safe, Pass, Closer, ExitMeasure, Shaped, FloorQuantity, WholeLots, Lot, LotMinimum, LotMaximum;
      fault := OpenNextGeneration(prev, qty, want);
      if fault.Some? {
        return;
      }
      label planned:
      fault := SendGeneration();
      PassThen(legs, old(world), old@planned(world), world, 1, 0);
    }

    /** The new generation is sent and settled once, without another resubmission. */
    method SendGeneration() returns (fault: Option<Fault>)
      requires Valid() && ctx.intent.Some? && |rows| > 0 && rows[|rows| - 1].id.ExitId?
      requires rows[|rows| - 1].status == PLANNED
      modifies this
      ensures |world.sent| <= |old(world.sent)| + 1
      ensures setbacks >= old(setbacks)
      ensures Valid() && old(run) <= run && entryDisabled == old(entryDisabled)
      ensures Logged()
      ensures Pass(legs, old(world), world, 0) && |rows| == |old(rows)|
      ensures fault == None ==> ctx.intent == None
      ensures setbacks == old(setbacks) ==> Unhindered(fault)
      ensures fault == Some(Waiting) && setbacks == old(setbacks) ==> |rows| > 0 && !OrderTerminal(rows[|rows| - 1].status)
      ensures fault == Some(Waiting) && setbacks == old(setbacks) && stale == old(stale) ==> OpenAtVenue(world)
      ensures rows[|old(rows)| - 1].qty == old(rows[|rows| - 1].qty) && rows[|old(rows)| - 1].id == old(rows[|rows| - 1].id)
      ensures setbacks == old(setbacks) ==> |old(rows)| - 1 in world.sent
      decreases true, 0, 0
    {
      hide Valid, Core, Reached, OrderSafety.Safe, Pass, Closer, ExitMeasure, Shaped;
      ghost var position: Option<real>, now: int := None, 0;
      var row;
      row, fault := AdvanceExit(|rows| - 1);
      if fault.Some? {
        return;
      }
      label advanced:
      fault, position, now := ReconcileManagedCloseStep(false);
      PassSent(legs, old@advanced(world), world, 0);
      PassThen(legs, old(world), old@advanced(world), world, 0, 0);
      OrderKept@advanced(|old(rows)| - 1);
    }

    /** Rows keep their identity, and a final row stays as it is. */
    twostate lemma RowsKept()
      requires old(Valid()) && Valid() && old(run) <= run
      ensures |rows| >= old(|rows|)
      ensures forall k :: 0 <= k < old(|rows|) ==>
                rows[k].id == old(rows[k]).id && (OrderTerminal(old(rows[k]).status) ==> rows[k] == old(rows[k]))
    {
      ReachedLater(initial, old(run), old(world), run, world);
    }

    /** What ended stays ended, so a signal that may exit still may once a pass added no row. */
    lemma StillAllowed(before: seq<Row>, signal: string, ratio: real)
      requires Valid() && FullRatio(ratio) && !Blocked(before, signal, ratio) && |rows| == |before|
      requires forall k :: 0 <= k < |rows| ==> rows[k].id == before[k].id && (OrderTerminal(before[k].status) ==> rows[k] == before[k])
      ensures !Blocked(rows, signal, ratio)
    {
      forall k | 0 <= k < |rows| && ExitOf(rows[k], signal) ensures !Blocks(rows[k], ratio) {
        assert !Blocks(before[k], ratio);
      }
    }

    /** A row that is final stays as it is. */
    twostate lemma EndedKept(k: nat)
      requires old(Valid()) && Valid() && old(run) <= run && k < old(|rows|)
      ensures |rows| >= old(|rows|) && (OrderTerminal(old(rows[k].status)) ==> rows[k] == old(rows[k]))
    {
      ReachedLater(initial, old(run), old(world), run, world);
    }

    /** An order that was sent keeps its quantity, and no row goes away. */
    twostate lemma OrderKept(k: nat)
      requires old(Valid()) && Valid() && old(run) <= run && k < old(|rows|) && old(rows[k].status) != PLANNED
      ensures |rows| >= old(|rows|) && rows[k].qty == old(rows[k].qty) && rows[k].id == old(rows[k].id)
    {
      ReachedLater(initial, old(run), old(world), run, world);
    }

    method OpenNextGeneration(prev: Row, qty: real, want: real) returns (fault: Option<Fault>)
      requires Valid() && ctx.intent.Some? && |rows| > 0 && prev == rows[|rows| - 1]
      requires prev.id == ctx.intent.value.orderId && OrderTerminal(prev.status)
      requires ctx.intent.value.attempts < MAX_EXIT_RESUBMITS && FloorQuantity(want, true, market) == Some(qty)
      requires !ctx.intent.value.full ==> want <= Max(0.0, prev.qty - prev.executed)
      modifies this`rows, this`ctx, this`world, this`run, this`setbacks
      ensures setbacks >= old(setbacks)
      ensures Valid() && old(run) <= run && world.sent == old(world.sent) && Pass(legs, old(world), world, 1)
      ensures setbacks == old(setbacks) ==> fault == None
      ensures fault == None ==>
                && |rows| == |old(rows)| + 1 && rows[|rows| - 1].qty == qty && rows[..|rows| - 1] == old(rows)
                && ctx.intent.Some? && world.ctx == ctx
                && ExitOf(rows[|rows| - 1], old(ctx.intent).value.signal) && rows[|rows| - 1].status == PLANNED
                && Closer(old(world), world)
      ensures fault.Some? ==> fault == Some(StoreFailed) && rows == old(rows) && ctx == old(ctx)
    {
      hide Reached, Shaped, May, FloorQuantity, WholeLots, Lot, LotMinimum, LotMaximum;
      var price: real := *;
      var intent := ctx.intent.value;
      var prior := ExitRows(intent.signal);
      FloorQuantityBounds(want, true, market);
      var row := Row(ExitId(intent.signal, |prior|), MARKET, price, qty, PLANNED, false, 0.0, 0.0, clock);
      var next := intent.(orderId := row.id, attempts := intent.attempts + 1,
                          priorFilled := intent.priorFilled + prev.executed, residualSeenAt := None);
      NextEnabled(row, next);
      var ok := CreateExitOrder(row, next);
      fault := if ok then None else Some(StoreFailed);
    }

    /** A generation of the pending signal may replace the order that ended. */
    lemma NextEnabled(row: Row, next: Intent)
      requires Valid() && ctx.intent.Some? && |rows| > 0
      requires rows[|rows| - 1].id == ctx.intent.value.orderId && OrderTerminal(rows[|rows| - 1].status)
      requires row.id == ExitId(next.signal, ExitCount(rows, next.signal)) && row.kind == MARKET
      requires row.status == PLANNED && !row.known && row.executed == 0.0 && row.qty > 0.0
      requires next == ctx.intent.value.(orderId := row.id, attempts := ctx.intent.value.attempts + 1,
                                         priorFilled := ctx.intent.value.priorFilled + rows[|rows| - 1].executed,
                                         residualSeenAt := None)
      requires ctx.intent.value.attempts < MAX_EXIT_RESUBMITS
      requires !next.full ==> row.qty <= rows[|rows| - 1].qty - rows[|rows| - 1].executed
      ensures May(world, ExitOpened(row, next))
    {
      hide Reached, Shaped;
    }

    /** The trade goes back to open with its fresh quantity; the action is not retried. */
    method AbandonManagedExit(position: real) returns (fault: Option<Fault>)
      requires Valid() && ctx.intent.Some? && |rows| > 0
      requires rows[|rows| - 1].id == ctx.intent.value.orderId && OrderTerminal(rows[|rows| - 1].status)
      modifies this
      ensures setbacks >= old(setbacks)
      ensures Valid() && old(run) <= run && rows == old(rows) && world.sent == old(world.sent)
      ensures lookups == old(lookups) && stale == old(stale) && positions == old(positions)
      ensures Pass(legs, old(world), world, 0) && (!Outside(fault) ==> Closer(old(world), world))
      ensures entryDisabled == old(entryDisabled) && ctx.entryDisabled == old(ctx.entryDisabled)
      ensures fault == Some(ExitAbandoned) || (fault == Some(StoreFailed) && ctx == old(ctx))
      ensures setbacks == old(setbacks) ==> fault == Some(ExitAbandoned)
      ensures fault == Some(ExitAbandoned) ==>
                ctx.intent == None && ctx.quantity == position && (ctx.state == OPEN || ctx.state == BREAKEVEN)
    {
      hide Reached, Shaped;
      var ok := Reopen(position);
      fault := Some(if ok then ExitAbandoned else StoreFailed);
    }

    /** A full close from another signal may replace a partial exit that is no longer in
        flight. */
    method SupersedePartialExit() returns (superseded: bool, fault: Option<Fault>)
      requires Valid() && ctx.intent.Some?
      modifies this
      ensures setbacks >= old(setbacks)
      ensures Valid() && old(run) <= run && rows == old(rows) && world.sent == old(world.sent)
      ensures lookups == old(lookups) && stale == old(stale) && positions == old(positions)
      ensures entryDisabled == old(entryDisabled) && ctx.entryDisabled == old(ctx.entryDisabled)
      ensures superseded ==>
                && fault == None && ctx.intent == None && |rows| > 0
                && rows[|rows| - 1].id == old(ctx.intent).value.orderId && GivesWay(old(ctx.intent).value, rows[|rows| - 1])
                && Reopened(ctx, old(ctx.quantity))
      ensures !superseded ==> ctx == old(ctx)
      ensures setbacks == old(setbacks) ==> fault == None
      ensures setbacks == old(setbacks) && |rows| > 0 && GivesWay(old(ctx.intent).value, rows[|rows| - 1]) ==> superseded
    {
      hide Reached, Shaped;
      if ctx.intent.value.full {
        return false, None;
      }
      var found := FindOrder(ctx.intent.value.orderId);
      ReachedSafe(initial, run, world);
      if found.Some? {
        NamedIsLast(world, found.value);
        if !OrderTerminal(rows[found.value].status) {
          return false, None;
        }
      }
      var breakeven: bool := *;
      var ok := ReleaseIntent(if breakeven then BREAKEVEN else OPEN, ctx.quantity);
      return ok, if ok then None else Some(StoreFailed);
    }

    /** Something recorded for this signal forbids a new order: an unfinished exit, or for a
        partial exit one that executed. */
    ghost predicate Blocks(row: Row, ratio: real) {
      !OrderTerminal(row.status) || ((row.executed > 0.0 || row.status == FILLED) && !FullRatio(ratio))
    }

    ghost predicate Blocked(ledger: seq<Row>, signal: string, ratio: real) {
      exists k :: 0 <= k < |ledger| && ExitOf(ledger[k], signal) && Blocks(ledger[k], ratio)
    }

    /** An exit is blocked exactly when one of its signal is unfinished, or it is partial and one
        of its signal executed. */
    lemma BlockedExact(ledger: seq<Row>, signal: string, ratio: real)
      ensures Blocked(ledger, signal, ratio) <==>
                || (exists k :: 0 <= k < |ledger| && ExitOf(ledger[k], signal) && !OrderTerminal(ledger[k].status))
                || (!FullRatio(ratio) && exists k :: 0 <= k < |ledger| && ExitOf(ledger[k], signal)
                                                     && (ledger[k].executed > 0.0 || ledger[k].status == FILLED))
    {
      if k :| 0 <= k < |ledger| && ExitOf(ledger[k], signal) && !OrderTerminal(ledger[k].status) {
        assert Blocks(ledger[k], ratio);
      }
      if k :| 0 <= k < |ledger| && ExitOf(ledger[k], signal) && (ledger[k].executed > 0.0 || ledger[k].status == FILLED)
      {
        assert !FullRatio(ratio) ==> Blocks(ledger[k], ratio);
      }
    }

    /** What the recorded exits of a signal say about a new one. */
    method CheckPrior(signal: string, ratio: real) returns (skip: Skip, generation: nat)
      ensures generation == ExitCount(rows, signal)
      ensures skip == SkipNone <==> !Blocked(rows, signal, ratio)
      ensures skip == SkipNone || skip == SkipWaiting || skip == SkipDuplicate
      ensures skip == SkipWaiting ==> exists k :: 0 <= k < |rows| && ExitOf(rows[k], signal) && !OrderTerminal(rows[k].status)
    {
      var prior := ExitRows(signal);
      generation := |prior|;
      for i := 0 to |prior|
        invariant forall j :: 0 <= j < i ==> !Blocks(prior[j], ratio)
      {
        assert prior[i] in prior;
        ghost var k :| 0 <= k < |rows| && rows[k] == prior[i];
        assert ExitOf(rows[k], signal);
        if !OrderTerminal(prior[i].status) {
          return SkipWaiting, generation;
        }
        if (prior[i].executed > 0.0 || prior[i].status == FILLED) && !FullRatio(ratio) {
          return SkipDuplicate, generation;
        }
      }
      skip := SkipNone;
    }

    /** Plans a first exit order for a signal and stores it with the intent that names it. */
    method OpenExit(signal: string, ratio: real, minimumReduction: real)
      returns (skip: Skip, fault: Option<Fault>, created: bool, ghost position: Option<real>)
      requires Valid() && ctx.intent == None
      modifies this`rows, this`ctx, this`world, this`run, this`setbacks, this`positions
      ensures setbacks >= old(setbacks)
      ensures Valid() && old(run) <= run && world.sent == old(world.sent)
      ensures created ==>
                && fault == None && |rows| == |old(rows)| + 1 && rows[..|old(rows)|] == old(rows)
                && ctx == old(ctx).(intent := ctx.intent, state := CLOSE_PENDING) && ctx.intent.Some?
                && ExitOf(rows[|rows| - 1], signal) && rows[|rows| - 1].status == PLANNED
      ensures created ==>
                && !Flat(position)
                && ExitQuantity(position.value, ratio, minimumReduction, market) == Some((rows[|rows| - 1].qty, ctx.intent.value.full))
      ensures setbacks == old(setbacks) && !Blocked(old(rows), signal, ratio) ==>
                && NextRead(old(Now()), Now(), position)
                && if Flat(position) then skip == SkipAlreadyFlat && fault == None
                   else created == ExitQuantity(position.value, ratio, minimumReduction, market).Some?
                        && (created || fault == Some(LotPrevents))
      ensures Logged()
      ensures !created ==> rows == old(rows) && ctx == old(ctx)
      ensures Blocked(old(rows), signal, ratio) ==> !created
      ensures setbacks == old(setbacks) ==> fault == None || fault == Some(Waiting) || fault == Some(LotPrevents)
    {
      hide Reached, Shaped, Blocked;
      skip, fault, created, position := SkipNone, None, false, None;
      var generation;
      skip, generation := CheckPrior(signal, ratio);
      if skip != SkipNone {
        return skip, if skip == SkipWaiting then Some(Waiting) else None, false, position;
      }
      var read, held := FreshPosition();
      position := held;
      if !read {
        return SkipNone, Some(PositionUnread), false, position;
      }
      if Flat(held) {
        return SkipAlreadyFlat, None, false, position;
      }
      var ruled := Succeeds();
      var price: real := *;
      var sized := ExitQuantity(held.value, ratio, minimumReduction, market);
      if !ruled {
        return SkipNone, Some(VenueFailed), false, position;
      }
      if sized.None? {
        return SkipNone, Some(LotPrevents), false, position;
      }
      assert sized.value.0 > 0.0 && (FullRatio(ratio) ==> sized.value.1) by {
        hide ExitQuantity;
        ExitQuantityBounds(held.value, ratio, minimumReduction, market);
      }
      hide ExitQuantity, May;
      var row := Row(ExitId(signal, generation), MARKET, price, sized.value.0, PLANNED, false, 0.0, 0.0, clock);
      var intent := Intent(signal, row.id, sized.value.1, 0, 0.0, None);
      FirstEnabled(row, intent, ratio);
      created := CreateExitOrder(row, intent);
      fault := if created then None else Some(StoreFailed);
    }

    /** A first generation may be opened when nothing recorded for the signal forbids it. */
    lemma FirstEnabled(row: Row, intent: Intent, ratio: real)
      requires Valid() && ctx.intent == None && !Blocked(rows, intent.signal, ratio)
      requires row.id == ExitId(intent.signal, ExitCount(rows, intent.signal)) && row.kind == MARKET
      requires row.status == PLANNED && !row.known && row.executed == 0.0 && row.qty > 0.0
      requires intent == Intent(intent.signal, row.id, intent.full, 0, 0.0, None) && (FullRatio(ratio) ==> intent.full)
      ensures May(world, ExitOpened(row, intent))
    {
      hide Reached, Shaped;
      if !intent.full {
        forall k | 0 <= k < |rows| && ExitOf(rows[k], intent.signal)
          ensures rows[k].executed <= 0.0 && rows[k].status != FILLED
        {
          assert !Blocks(rows[k], ratio);
        }
      }
    }

    /** A new exit of a signal, unless something recorded for it forbids one. */
    method ExecuteNewExit(signal: string, ratio: real, minimumReduction: real)
      returns (skip: Skip, fault: Option<Fault>, ghost position: Option<real>)
      requires Valid() && ctx.intent == None
      modifies this
      ensures setbacks >= old(setbacks) && |world.sent| <= |old(world.sent)| + 2
      ensures Valid() && old(run) <= run && entryDisabled == old(entryDisabled)
      ensures Logged()
      ensures ctx.entryDisabled == old(ctx.entryDisabled) && |old(rows)| <= |rows| <= |old(rows)| + 2
      ensures SentExits(legs, old(world.sent), world.sent)
      ensures Blocked(old(rows), signal, ratio) ==> rows == old(rows) && ctx == old(ctx)
      ensures |rows| > |old(rows)| ==>
                && !Flat(position) && ExitOf(rows[|old(rows)|], signal)
                && ExitQuantity(position.value, ratio, minimumReduction, market).Some?
                && rows[|old(rows)|].qty == ExitQuantity(position.value, ratio, minimumReduction, market).value.0
      ensures setbacks == old(setbacks) && !Blocked(old(rows), signal, ratio) ==>
                NewExit(old(Now()), Now(), signal, ratio, minimumReduction, market, skip, fault, position)
      ensures setbacks == old(setbacks) ==> Unhindered(fault) || fault == Some(LotPrevents)
    {
      hide Reached, Shaped, ExitMeasure, ExitQuantity, Blocked;
      var created;
      skip, fault, created, position := OpenExit(signal, ratio, minimumReduction);
      if created {
        fault := SendFirst();
      }
    }

    /** An exit for a signal. While an intent is pending only a full close from another
        signal may go past a partial exit; everything else settles the pending one. */
    method ExecuteManagedCloseAmount(signal: string, ratio: real, minimumReduction: real)
      returns (skip: Skip, fault: Option<Fault>, ghost position: Option<real>, ghost now: int)
      requires Valid()
      modifies this
      ensures |world.sent| <= |old(world.sent)| + 2 + (if old(ctx.intent).Some? then Unsent(old(rows)) else 0)
      ensures setbacks >= old(setbacks)
      ensures Valid() && old(run) <= run && entryDisabled == old(entryDisabled)
      ensures Logged()
      ensures ctx.entryDisabled == old(ctx.entryDisabled) && |old(rows)| <= |rows| <= |old(rows)| + 2
      ensures SentExits(legs, old(world.sent), world.sent)
      ensures old(ctx.intent).Some? && Settles(old(ctx.intent).value, signal, ratio, minimumReduction) ==>
                && skip == SkipDuplicate && |rows| <= |old(rows)| + 1
                && |world.sent| <= |old(world.sent)| + Unsent(old(rows)) + 1
                && (setbacks == old(setbacks) ==> PassDone(old(Now()), Now(), true, market, fault, position, now))
      ensures setbacks == old(setbacks) && old(ctx.intent).Some? ==> Attended(old(Now()), Now())
      ensures old(ctx.intent).Some? && !Settles(old(ctx.intent).value, signal, ratio, minimumReduction)
              && setbacks == old(setbacks) && !Blocked(old(rows), signal, ratio) ==>
                Superseding(old(Now()), Now(), signal, ratio, minimumReduction, market, skip, fault, position)
      ensures old(ctx.intent) == None && Blocked(old(rows), signal, ratio) ==> rows == old(rows) && ctx == old(ctx)
      ensures old(ctx.intent) == None && |rows| > |old(rows)| ==>
                && !Flat(position) && ExitOf(rows[|old(rows)|], signal)
                && ExitQuantity(position.value, ratio, minimumReduction, market).Some?
                && rows[|old(rows)|].qty == ExitQuantity(position.value, ratio, minimumReduction, market).value.0
      ensures setbacks == old(setbacks) && old(ctx.intent) == None && !Blocked(old(rows), signal, ratio) ==>
                NewExit(old(Now()), Now(), signal, ratio, minimumReduction, market, skip, fault, position)
      ensures setbacks == old(setbacks) ==> Unhindered(fault) || fault == Some(LotPrevents)
    {
      hide Reached, Shaped, ExitMeasure, ExitQuantity, Attended, Blocked, NewExit, PassDone, Superseding;
      now := clock;
      if ctx.intent == None {
        skip, fault, position := ExecuteNewExit(signal, ratio, minimumReduction);
      } else if Settles(ctx.intent.value, signal, ratio, minimumReduction) {
        skip := SkipDuplicate;
        fault, position, now := ReconcileManagedCloseStep(true);
        if setbacks == old(setbacks) {
          PassAttended(old(Now()), Now(), true, market, fault, position, now);
        }
      } else {
        skip, fault, position := SupersedeAndExecute(signal, ratio, minimumReduction);
      }
    }

    /** A pending exit is settled by every request but a full close of another signal that meets
        a partial exit. */
    predicate Settles(pending: Intent, signal: string, ratio: real, minimumReduction: real) {
      pending.signal == signal || pending.full || minimumReduction > 0.0 || !FullRatio(ratio)
    }

    /** A full close of another signal goes past a pending partial exit. */
    method SupersedeAndExecute(signal: string, ratio: real, minimumReduction: real)
      returns (skip: Skip, fault: Option<Fault>, ghost position: Option<real>)
      requires Valid() && ctx.intent.Some? && FullRatio(ratio)
      modifies this
      ensures |world.sent| <= |old(world.sent)| + 2 + Unsent(old(rows))
      ensures setbacks >= old(setbacks)
      ensures Valid() && old(run) <= run && entryDisabled == old(entryDisabled)
      ensures Logged()
      ensures ctx.entryDisabled == old(ctx.entryDisabled) && |old(rows)| <= |rows| <= |old(rows)| + 2
      ensures SentExits(legs, old(world.sent), world.sent)
      ensures setbacks == old(setbacks) ==> Attended(old(Now()), Now())
      ensures setbacks == old(setbacks) && !old(ctx.intent).value.full && !Blocked(old(rows), signal, ratio) ==>
                Superseding(old(Now()), Now(), signal, ratio, minimumReduction, market, skip, fault, position)
      ensures setbacks == old(setbacks) ==> Unhindered(fault) || fault == Some(LotPrevents)
    {
      hide Valid, Core, Reached, Shaped, ExitMeasure, ExitQuantity, Attended, Blocked, NewExit, FlatRead, Superseding;
      ghost var a := Now();
      position := None;
      skip, fault := PassPartialExit();
      ghost var m := Now();
      if skip != SkipNone || fault.Some? {
        if setbacks == old(setbacks) && !a.ctx.intent.value.full {
          NotSuperseded(a, m, signal, ratio, minimumReduction, market, skip, fault, position);
        }
        return;
      }
      RowsKept();
      if !Blocked(old(rows), signal, ratio) {
        StillAllowed(old(rows), signal, ratio);
        assert !Blocked(rows, signal, ratio);
      }
      skip, fault, position := ExecuteNewExit(signal, ratio, minimumReduction);
      if setbacks == old(setbacks) {
        AttendedOn(a, m, Now());
        if !Blocked(old(rows), signal, ratio) {
          assert !Blocked(m.rows, signal, ratio);
          SupersededBy(a, m, Now(), signal, ratio, minimumReduction, market, skip, fault, position);
        }
      }
    }

    /** A recorded first exit is sent and settled once. */
    method SendFirst() returns (fault: Option<Fault>)
      requires Valid() && ctx.intent.Some? && |rows| > 0 && rows[|rows| - 1].id.ExitId?
      requires rows[|rows| - 1].status == PLANNED
      modifies this
      ensures setbacks >= old(setbacks)
      ensures Valid() && old(run) <= run && entryDisabled == old(entryDisabled)
      ensures setbacks == old(setbacks) ==> |old(world.sent)| < |world.sent| && world.sent[|old(world.sent)|] == |old(rows)| - 1
      ensures Logged()
      ensures ctx.entryDisabled == old(ctx.entryDisabled) && |old(rows)| <= |rows| <= |old(rows)| + 1
      ensures SentExits(legs, old(world.sent), world.sent) && |world.sent| <= |old(world.sent)| + 2
      ensures rows[|old(rows)| - 1].id == old(rows[|rows| - 1].id) && rows[|old(rows)| - 1].qty == old(rows[|rows| - 1].qty)
      ensures setbacks == old(setbacks) ==> Unhindered(fault)
    {
      hide Reached, Shaped, ExitMeasure;
      var row;
      row, fault := AdvanceExit(|rows| - 1);
      if fault.None? {
        label advanced:
        ghost var held, now;
        fault, held, now := ReconcileManagedCloseStep(true);
        OrderKept@advanced(|old(rows)| - 1);
      }
    }

    /** Settles a pending partial exit without resubmitting it, and supersedes it if it is
        still pending. */
    method PassPartialExit() returns (skip: Skip, fault: Option<Fault>)
      requires Valid() && ctx.intent.Some?
      modifies this
      ensures |world.sent| <= |old(world.sent)| + Unsent(old(rows))
      ensures setbacks >= old(setbacks)
      ensures Valid() && old(run) <= run && entryDisabled == old(entryDisabled)
      ensures setbacks == old(setbacks) ==> Attended(old(Now()), Now())
      ensures Logged()
      ensures ctx.entryDisabled == old(ctx.entryDisabled) && |rows| == |old(rows)|
      ensures SentExits(legs, old(world.sent), world.sent)
      ensures skip == SkipNone ==> fault == None && ctx.intent == None
      ensures setbacks == old(setbacks) ==> (skip == SkipWaiting <==> fault == Some(Waiting)) && (skip != SkipWaiting ==> fault == None)
      ensures skip != SkipDuplicate && (skip == SkipAlreadyFlat ==> TradeTerminal(old(ctx.state)) || FlatRead(old(Now()), Now()))
      ensures setbacks == old(setbacks) && !old(ctx.intent).value.full && skip == SkipWaiting ==>
                |rows| > 0 && !OrderTerminal(rows[|rows| - 1].status)
    {
      hide Valid, Core, Reached, Shaped, ExitMeasure, Attended, Decision, PassDone, OpenAtVenue, ClosedFlat, FlatRead;
      ghost var a := Now();
      ghost var held, now;
      var settled;
      Agreed();
      settled, held, now := ReconcileManagedCloseStep(false);
      Agreed();
      if setbacks == old(setbacks) {
        PassAttended(a, Now(), false, market, settled, held, now);
      }
      EndedKept(|old(rows)| - 1);
      if ctx.intent.None? {
        assert TradeTerminal(ctx.state) ==> TradeTerminal(a.ctx.state) || FlatRead(a, Now()) by { ClosedSeen(a, Now()); }
        return if TradeTerminal(ctx.state) then SkipAlreadyFlat else SkipNone, None;
      }
      ghost var m := Now();
      var superseded;
      superseded, fault := SupersedePartialExit();
      skip := if superseded then SkipNone else SkipWaiting;
      if superseded {
        if setbacks == old(setbacks) {
          AttendedOn(a, m, Now());
        }
      } else if fault.None? {
        fault := Some(Waiting);
      }
    }

    // ---- Entry legs as a whole ---------------------------------------------------------

    /** What the legs filled and cost; unknown while a filled leg has no price. */
    static method TotalFills(orders: seq<Row>) returns (priced: bool, total: real, cost: real)
      ensures priced <==> Priced(orders)
      ensures priced ==> total == Filled(orders) && cost == Paid(orders) && total >= 0.0
      ensures priced && total > 0.0 ==> cost > 0.0
    {
      total, cost := 0.0, 0.0;
      for i := 0 to |orders|
        invariant total == Filled(orders[..i]) && cost == Paid(orders[..i]) && Priced(orders[..i])
      {
        assert orders[..i + 1][..i] == orders[..i];
        if orders[i].executed > 0.0 {
          if orders[i].avg <= 0.0 {
            return false, total, cost;
          }
          total, cost := total + orders[i].executed, cost + orders[i].executed * orders[i].avg;
        }
      }
      assert orders[..|orders|] == orders;
      PaidPositive(orders);
      priced := true;
    }

    /** The trade owns what its entry legs filled, at their average price, and never more
        than that of the position; after an exit the position is never rebuilt from them. */
    method SettleManagedFills(orders: seq<Row>) returns (fault: Option<Fault>, ghost seen: Option<real>)
      requires Valid()
      modifies this
      ensures setbacks >= old(setbacks)
      ensures Valid() && old(run) <= run && rows == old(rows) && world.sent == old(world.sent)
      ensures lookups == old(lookups) && stale == old(stale) && Logged()
      ensures entryDisabled == old(entryDisabled) && ctx.entryDisabled == old(ctx.entryDisabled)
      ensures ctx.intent == old(ctx.intent)
      ensures ctx.positionSeen == (old(ctx.positionSeen) || (fault == None && Filled(orders) > 0.0))
      ensures fault == None && Filled(orders) > 0.0 ==>
                && Priced(orders) && ctx.avgFill == Paid(orders) / Filled(orders)
                && ctx.quantity == Owned(seen, Filled(orders), old(ctx.positionSeen)) && ctx.positionSeen
                && ctx.state == (if old(ctx.positionSeen) then old(ctx.state) else OPEN)
      ensures fault == None && Filled(orders) > 0.0 ==> SettledFor(ctx, orders) && NextRead(old(Now()), Now(), seen)
      ensures fault == None ==>
                SettledAs(old(Now()), Now(), orders) && |positions| == |old(positions)| + (if Filled(orders) > 0.0 then 1 else 0)
      ensures setbacks == old(setbacks) ==> if Priced(orders) then fault == None else fault == Some(PriceUnconfirmed)
      ensures fault.Some? || Filled(orders) <= 0.0 ==> ctx == old(ctx)
      ensures old(ctx.avgFill) > 0.0 ==> ctx.avgFill > 0.0
    {
      hide Reached, Shaped, Filled, Paid, Priced;
      seen := None;
      var priced, total, cost := TotalFills(orders);
      if !priced {
        return Some(PriceUnconfirmed), seen;
      }
      if total <= 0.0 {
        return None, seen;
      }
      var read, position := FreshPosition();
      seen := position;
      if !read {
        return Some(PositionUnread), seen;
      }
      var quantity := Owned(position, total, ctx.positionSeen);
      var state := if ctx.positionSeen then ctx.state else OPEN;
      var ok := UpdateContext(ctx.(quantity := quantity, avgFill := cost / total, state := state, positionSeen := true),
                              Settled(quantity, cost / total, state, true));
      fault := if ok then None else Some(StoreFailed);
    }

    /** The trade has the average of what its legs filled, and no more than that. */
    ghost predicate SettledNow()
      reads this`rows, this`ctx
    {
      legs <= |rows| && (Filled(rows[..legs]) > 0.0 ==> SettledFor(ctx, rows[..legs]))
    }

    /** The one-way latch is stored BEFORE the exchange is contacted; nothing is sent. */
    method CloseEntryEligibility() returns (fault: Option<Fault>)
      requires Valid()
      modifies this
      ensures setbacks >= old(setbacks)
      ensures Valid() && old(run) <= run && |rows| == |old(rows)| && world.sent == old(world.sent)
      ensures Logged()
      ensures ctx.intent == old(ctx.intent) && (old(entryDisabled) ==> entryDisabled)
      ensures fault == None || fault == Some(CancelUnconfirmed) ==> ctx.entryDisabled
      ensures fault == None ==> EntriesDone() && SettledNow()
      ensures setbacks == old(setbacks) ==> EntriesDone() && (fault == Some(CancelUnconfirmed) ==> !Priced(rows[..legs]))
      ensures setbacks == old(setbacks) ==>
                && Ended(legs, old(Now()), Now())
                && fault == if Priced(rows[..legs]) then None else Some(CancelUnconfirmed)
      ensures !ctx.entryDisabled ==> rows == old(rows) && ctx == old(ctx) && entryDisabled == old(entryDisabled)
      ensures old(ctx.avgFill) > 0.0 ==> ctx.avgFill > 0.0
    {
      hide Reached, Filled, Paid, Priced, SettledAs, Ended, Shaped, Owned;
      ghost var a := Now();
      var ok := UpdateContext(ctx.(entryDisabled := true), Latched);
      if !ok {
        return Some(StoreFailed);
      }
      var cancelled := CancelEntries();
      ghost var m := Now();
      ghost var seen;
      fault, seen := SettleManagedFills(rows[..legs]);
      if setbacks == old(setbacks) {
        EndedBy(legs, a, m, Now());
      }
      if fault.Some? || !cancelled {
        return Some(CancelUnconfirmed);
      }
      var stored := Succeeds();
      fault := if stored then None else Some(StoreFailed);
    }

    ghost predicate EntriesDone()
      reads this
    {
      legs <= |rows| && forall k :: 0 <= k < legs ==> OrderTerminal(rows[k].status)
    }

    /** Cancels every leg, going on after a failure. */
    method CancelEntries() returns (all: bool)
      requires Valid()
      modifies this`rows, this`world, this`run, this`clock, this`lookups, this`stale, this`setbacks
      ensures setbacks >= old(setbacks)
      ensures Valid() && old(run) <= run && |rows| == |old(rows)| && world.sent == old(world.sent)
      ensures rows[legs..] == old(rows)[legs..]
      ensures forall k :: 0 <= k < |rows| && OrderTerminal(old(rows)[k].status) ==> rows[k] == old(rows)[k]
      ensures Logged()
      ensures all ==> EntriesDone()
      ensures setbacks == old(setbacks) ==> all
    {
      hide Reached;
      all := true;
      for k := 0 to legs
        invariant Logged()
        invariant Valid() && old(run) <= run && |rows| == |old(rows)| && world.sent == old(world.sent)
        invariant setbacks >= old(setbacks) && (setbacks == old(setbacks) ==> all) && rows[legs..] == old(rows)[legs..]
        invariant forall j :: 0 <= j < |rows| && OrderTerminal(old(rows)[j].status) ==> rows[j] == old(rows)[j]
        invariant all ==> forall j :: 0 <= j < k ==> OrderTerminal(rows[j].status)
      {
        var row, fault := CancelManaged(k, rows[k]);
        all := all && fault == None;
      }
    }

    /** A position over its caps first closes the entry latch and then sheds the excess of the
        trade as settled, rounded up; a position within them is left alone. closed is the state
        when the legs had ended. */
    method EnforceManagedRisk()
      returns (fault: Option<Fault>, skip: Skip, ghost closed: Snapshot, ghost position: Option<real>, ghost now: int)
      requires Valid()
      modifies this
      ensures setbacks >= old(setbacks)
      ensures Valid() && old(run) <= run && (old(entryDisabled) ==> entryDisabled)
      ensures Logged()
      ensures SentExits(legs, old(world.sent), world.sent)
      ensures !ctx.entryDisabled ==> rows == old(rows) && ctx == old(ctx) && entryDisabled == old(entryDisabled)
      ensures !Overshoot(plan, old(ctx.quantity), old(ctx.avgFill)) ==>
                rows == old(rows) && ctx == old(ctx) && world == old(world) && entryDisabled == old(entryDisabled)
      ensures plan.riskBudget > 0.0 && old(ctx.quantity) > 0.0 && old(ctx.avgFill) <= 0.0 ==> fault == Some(PriceUnconfirmed)
      ensures !Overshoot(plan, old(ctx.quantity), old(ctx.avgFill)) ==>
                positions == old(positions) && lookups == old(lookups) && (old(ctx.quantity) <= 0.0 || old(ctx.avgFill) > 0.0 ==> fault == None)
      ensures Overshoot(plan, old(ctx.quantity), old(ctx.avgFill)) && fault == None ==> ctx.entryDisabled && EntriesDone()
      ensures Overshoot(plan, old(ctx.quantity), old(ctx.avgFill)) && setbacks == old(setbacks) ==> ctx.entryDisabled
      ensures Overshoot(plan, old(ctx.quantity), old(ctx.avgFill)) && setbacks == old(setbacks) ==>
                && Ended(legs, old(Now()), closed) && SameLegs(closed) && closed.positions <= positions
                && if fault == Some(CancelUnconfirmed) then !Priced(rows[..legs])
                   else RiskShed(closed, Now(), skip, fault, position, now)
    {
      hide Reached, Shaped, RiskCap, SafeQuantity, Blocked, NewExit, PassDone, ExitQuantity, Attended, Ended, Priced;
      skip, closed, position, now := SkipNone, Now(), None, clock;
      if plan.riskBudget <= 0.0 || ctx.quantity <= 0.0 {
        return None, skip, closed, position, now;
      }
      if ctx.avgFill <= 0.0 {
        return Some(PriceUnconfirmed), skip, closed, position, now;
      }
      if ctx.quantity <= RiskCap(plan, ctx.avgFill) + TOLERANCE {
        return None, skip, closed, position, now;
      }
      fault := CloseEntryEligibility();
      closed := Now();
      if fault.Some? {
        return;
      }
      label over:
      var excess := Excess(plan, ctx.quantity, ctx.avgFill);
      if excess <= 0.0 {
        return;
      }
      SafeNonNegative(plan, ctx.avgFill);
      var signal := riskSignal(ctx.quantity, ctx.avgFill);
      skip, fault, position, now := ExecuteManagedCloseAmount(signal, excess / ctx.quantity * 100.0, excess);
      StillDone@over();
    }

    /** These are the legs as they were then. */
    ghost predicate SameLegs(earlier: Snapshot)
      reads this`rows
    {
      legs <= |rows| && legs <= |earlier.rows| && earlier.rows[..legs] == rows[..legs]
    }

    /** A trade that was over its caps sheds its excess: a pending exit is pursued, and otherwise
        a reduction of that size is recorded and sent. */
    ghost predicate RiskShed(closed: Snapshot, done: Snapshot, skip: Skip, fault: Option<Fault>, position: Option<real>, now: int) {
      Over(plan, closed.ctx) ==>
        var excess := Excess(plan, closed.ctx.quantity, closed.ctx.avgFill);
        var signal, ratio := riskSignal(closed.ctx.quantity, closed.ctx.avgFill), excess / closed.ctx.quantity * 100.0;
        && (closed.ctx.intent.Some? ==> PassDone(closed, done, true, market, fault, position, now))
        && (closed.ctx.intent == None && !Blocked(closed.rows, signal, ratio) ==>
              NewExit(closed, done, signal, ratio, excess, market, skip, fault, position))
    }

    /** The risk of a trade over its caps was enforced, unless what its legs filled has no price. */
    ghost predicate RiskEnforced(closed: Snapshot, done: Snapshot, fault: Option<Fault>) {
      && legs <= |closed.rows| && legs <= |done.rows| && closed.rows[..legs] == done.rows[..legs]
      && if fault == Some(CancelUnconfirmed) then !Priced(closed.rows[..legs])
         else exists skip: Skip, outcome: Option<Fault>, position: Option<real>, now: int ::
                RiskShed(closed, done, skip, outcome, position, now)
    }

    /** Entry orders that ended stay ended, whatever else happens. */
    twostate lemma StillDone()
      requires old(Valid()) && Valid() && old(run) <= run && old(EntriesDone())
      ensures EntriesDone() && rows[..legs] == old(rows)[..legs]
    {
      ReachedLater(initial, old(run), old(world), run, world);
    }

    /** Closes all or part of a trade: no entry may follow once this got anywhere. The exit goes
        on when a leg could not be confirmed as cancelled. closed is the state after the latch. */
    method ExecuteClose(signal: string, ratio: real)
      returns (skip: Skip, fault: Option<Fault>, ghost closed: Snapshot, ghost position: Option<real>, ghost now: int)
      requires Valid()
      modifies this
      ensures Valid() && old(run) <= run && |rows| <= |old(rows)| + 2
      ensures world.sent != old(world.sent) || |rows| != |old(rows)| ==> ctx.entryDisabled
      ensures setbacks == old(setbacks) ==>
                && ctx.entryDisabled && Ended(legs, old(Now()), closed) && SameLegs(closed)
                && (closed.ctx.intent.Some? && Settles(closed.ctx.intent.value, signal, ratio, 0.0) ==>
                      skip == SkipDuplicate && PassDone(closed, Now(), true, market, fault, position, now))
                && (closed.ctx.intent == None && !Blocked(closed.rows, signal, ratio) ==>
                      NewExit(closed, Now(), signal, ratio, 0.0, market, skip, fault, position))
    {
      hide Reached, Shaped, Blocked, NewExit, PassDone, Ended, Priced, SettledNow;
      skip, position, now := SkipNone, None, clock;
      fault := CloseEntryEligibility();
      closed := Now();
      if fault.Some? && fault != Some(CancelUnconfirmed) {
        return;
      }
      label latched:
      skip, fault, position, now := ExecuteManagedCloseAmount(signal, ratio, 0.0);
      if setbacks == old(setbacks) {
        StillDone@latched();
      }
    }

    // ---- Entry legs, one pass ----------------------------------------------------------

    /** The latch, once on in the working copy, is durable and every entry leg has ended. */
    ghost predicate Shut()
      reads this
    {
      entryDisabled ==> ctx.entryDisabled && EntriesDone()
    }

    /** A leg that was rejected or abandoned. */
    ghost predicate Spoilt(ledger: seq<Row>) {
      exists k :: 0 <= k < legs && k < |ledger| && (ledger[k].status == REJECTED || ledger[k].status == ABANDONED)
    }

    /** A leg that was rejected or abandoned ends replenishment. */
    method NoteEndedEntries()
      requires Valid()
      modifies this`entryDisabled
      ensures Valid() && (entryDisabled <==> old(entryDisabled) || Spoilt(rows))
    {
      hide Reached;
      for k := 0 to legs
        invariant Valid()
        invariant entryDisabled <==>
                    old(entryDisabled) || exists j :: 0 <= j < k && (rows[j].status == REJECTED || rows[j].status == ABANDONED)
      {
        if rows[k].status == REJECTED || rows[k].status == ABANDONED {
          entryDisabled := true;
        }
      }
    }

    method QueryEntries() returns (all: bool)
      requires Valid()
      modifies this`rows, this`world, this`run, this`clock, this`lookups, this`stale, this`setbacks
      ensures setbacks >= old(setbacks)
      ensures Valid() && old(run) <= run && |rows| == |old(rows)| && world.sent == old(world.sent)
      ensures Logged()
      ensures legs <= |rows| && rows[legs..] == old(rows)[legs..]
      ensures forall k :: 0 <= k < |rows| && !Live(old(rows)[k]) ==> rows[k] == old(rows)[k]
      ensures forall k :: 0 <= k < legs && Live(old(rows)[k]) ==> LookedAt(old(lookups), lookups, k)
      ensures setbacks == old(setbacks) ==> all
    {
      hide Reached, Shaped, LookedUp, LookedAt, Reports;
      all := true;
      for k := 0 to legs
        invariant Logged()
        invariant setbacks >= old(setbacks) && (setbacks == old(setbacks) ==> all)
        invariant forall j :: 0 <= j < k && Live(old(rows)[j]) ==> LookedAt(old(lookups), lookups, j)
        invariant Valid() && old(run) <= run && |rows| == |old(rows)| && world.sent == old(world.sent)
        invariant forall j :: 0 <= j < |rows| && (j >= k || !Live(old(rows)[j])) ==> rows[j] == old(rows)[j]
        invariant rows[legs..] == old(rows)[legs..]
      {
        if rows[k].status != PLANNED && !OrderTerminal(rows[k].status) {
          ghost var looked := lookups;
          var row, fault := QueryManaged(k, rows[k]);
          StillLooked(old(lookups), looked, k);
          all := all && fault == None;
        }
      }
    }

    /** The entry deadline or a stop at break-even closes the latch in the store as well. */
    method LatchIfDue(due: bool) returns (ok: bool)
      requires Valid()
      modifies this
      ensures setbacks >= old(setbacks)
      ensures Valid() && old(run) <= run && rows == old(rows) && world.sent == old(world.sent)
      ensures lookups == old(lookups) && stale == old(stale) && positions == old(positions)
      ensures old(entryDisabled) || (ok && (due || old(ctx.state) == BREAKEVEN)) ==> entryDisabled
      ensures setbacks == old(setbacks) ==> ok && (entryDisabled <==> old(entryDisabled) || due || old(ctx.state) == BREAKEVEN)
      ensures ctx == old(ctx).(entryDisabled := ctx.entryDisabled)
    {
      hide Reached, Shaped;
      ok := true;
      if due || ctx.state == BREAKEVEN {
        ok := UpdateContext(ctx.(entryDisabled := true), Latched);
      }
    }

    /** Legs that ended badly, before and after they are looked up, an early deadline and a stop at
        break-even end replenishment. */
    method AskEntries(early: bool) returns (ok: bool, queried: bool)
      requires Valid()
      modifies this
      ensures setbacks >= old(setbacks)
      ensures Valid() && old(run) <= run && |rows| == |old(rows)| && world.sent == old(world.sent)
      ensures Logged() && positions == old(positions) && ctx == old(ctx).(entryDisabled := ctx.entryDisabled)
      ensures legs <= |rows| && rows[legs..] == old(rows)[legs..]
      ensures forall k :: 0 <= k < |rows| && !Live(old(rows)[k]) ==> rows[k] == old(rows)[k]
      ensures queried ==> forall k :: 0 <= k < legs && Live(old(rows)[k]) ==> LookedAt(old(lookups), lookups, k)
      ensures setbacks == old(setbacks) ==> ok && queried
      ensures ok && (old(entryDisabled) || early || old(ctx.state) == BREAKEVEN || Spoilt(old(rows)) || Spoilt(rows)) ==>
                entryDisabled
      ensures setbacks == old(setbacks) && entryDisabled ==>
                old(entryDisabled) || early || old(ctx.state) == BREAKEVEN || Spoilt(old(rows)) || Spoilt(rows)
    {
      hide Reached, Shaped, LookedAt, Spoilt;
      queried := false;
      NoteEndedEntries();
      ok := LatchIfDue(early);
      if ok {
        queried := QueryEntries();
        NoteEndedEntries();
      }
    }

    /** Everything that may end replenishment is looked at before anything is sent: a leg that
        ended badly, a deadline that passed early or late in the pass, a stop at break-even,
        progress of the take-profits and a position that became smaller. Nothing else ends it.
        asked is the state when the legs were looked up, settled when their fills were. */
    method PrepareEntries(early: bool, due: bool, advanced: bool)
      returns (orders: seq<Row>, queried: bool, fault: Option<Fault>, ghost asked: Snapshot, ghost settled: Snapshot)
      requires Valid()
      modifies this
      ensures setbacks >= old(setbacks)
      ensures Valid() && old(run) <= run && |rows| == |old(rows)| && world.sent == old(world.sent)
      ensures Logged()
      ensures fault == None ==> Shut() && orders == rows[..legs] && SettledNow()
      ensures queried ==> forall k :: 0 <= k < legs && Live(old(rows)[k]) ==> LookedAt(old(lookups), lookups, k)
      ensures setbacks == old(setbacks) ==>
                && queried
                && Prepared(old(Now()), asked, settled, Now(), old(entryDisabled) || early || due || advanced, entryDisabled, fault)
      ensures !entryDisabled ==> forall k :: 0 <= k < |rows| && old(rows)[k].status == PLANNED ==> rows[k] == old(rows)[k]
    {
      hide Valid, Core, Reached, Shaped, LookedAt, SettledNow, SettledFor, SettledAs, Spoilt, Filled, Priced, Asked, Prepared,
        Decided, Shut;
      orders, asked, settled := [], Now(), Now();
      ghost var a, cause := Now(), entryDisabled || early || due || advanced;
      var before := ctx.quantity;
      var ok;
      ok, queried := AskEntries(early);
      asked := Now();
      if !ok {
        return orders, queried, Some(StoreFailed), asked, settled;
      }
      ghost var looked, disabled := lookups, entryDisabled;
      fault, settled := SettleEntries(before, due, advanced);
      if setbacks == old(setbacks) {
        AskedNow(a, asked);
        IsPrepared(a, asked, settled, Now(), cause, disabled, entryDisabled, due, advanced, fault);
      }
      forall k | 0 <= k < legs && queried && Live(old(rows)[k]) ensures LookedAt(old(lookups), lookups, k) {
        LookedOn(old(lookups), looked, lookups, k);
      }
      orders := rows[..legs];
    }

    /** The fills are settled, and what they or the surroundings say may close the latch. */
    method SettleEntries(before: real, due: bool, advanced: bool) returns (fault: Option<Fault>, ghost settled: Snapshot)
      requires Valid()
      modifies this
      ensures setbacks >= old(setbacks)
      ensures Valid() && old(run) <= run && |rows| == |old(rows)| && world.sent == old(world.sent) && legs <= |rows|
      ensures Logged()
      ensures fault == None ==> Shut() && SettledNow()
      ensures setbacks == old(setbacks) ==>
                Decided(old(Now()), settled, Now(), old(entryDisabled), entryDisabled, before, due, advanced, fault)
      ensures !entryDisabled ==> rows == old(rows)
    {
      hide Reached, Shaped, SettledNow, SettledFor, SettledAs, Filled, Priced;
      ghost var seen;
      fault, seen := SettleManagedFills(rows[..legs]);
      settled := Now();
      if fault.Some? {
        return;
      }
      SettledHere();
      fault := CloseIfOver(before, due, advanced);
    }

    /** The latch is on exactly for one of these reasons, and while it is off nothing but the fills
        was settled. */
    ghost predicate Decided(asked: Snapshot, settled: Snapshot, b: Snapshot, was: bool, disabled: bool, before: real,
                            due: bool, advanced: bool, fault: Option<Fault>) {
      && legs <= |b.rows| == |asked.rows|
      && if !Priced(asked.rows[..legs]) then fault == Some(PriceUnconfirmed)
         else
           && SettledAs(asked, settled, asked.rows[..legs]) && settled.positions <= b.positions
           && |settled.positions| == |asked.positions| + (if Filled(asked.rows[..legs]) > 0.0 then 1 else 0)
           && settled.ctx.intent == asked.ctx.intent && settled.rows == asked.rows
           && (settled.ctx.state == asked.ctx.state || settled.ctx.state == OPEN)
           && (disabled <==>
                 was || due || advanced || settled.ctx.state == BREAKEVEN || settled.ctx.quantity + TOLERANCE < before)
           && (if disabled then fault == if Priced(b.rows[..legs]) then None else Some(CancelUnconfirmed)
               else fault == None && b.rows == settled.rows && b.ctx == settled.ctx && b.positions == settled.positions)
    }

    lemma AskedNow(a: Snapshot, b: Snapshot)
      requires legs <= |b.rows| == |a.rows| && b.sent == a.sent && b.positions == a.positions
      requires b.ctx == a.ctx.(entryDisabled := b.ctx.entryDisabled)
      requires b.rows[legs..] == a.rows[legs..]
      requires forall k :: 0 <= k < |a.rows| && !Live(a.rows[k]) ==> b.rows[k] == a.rows[k]
      ensures Asked(a, b)
    {
    }

    lemma IsPrepared(a: Snapshot, asked: Snapshot, settled: Snapshot, b: Snapshot, cause: bool, was: bool, disabled: bool,
                     due: bool, advanced: bool, fault: Option<Fault>)
      requires Asked(a, asked) && Decided(asked, settled, b, was, disabled, a.ctx.quantity, due, advanced, fault)
      requires cause ==> was || due || advanced
      requires due || advanced ==> cause
      requires was ==> cause || a.ctx.state == BREAKEVEN || Spoilt(a.rows) || Spoilt(asked.rows)
      requires (a.ctx.state == BREAKEVEN || Spoilt(a.rows) || Spoilt(asked.rows)) ==> was
      ensures Prepared(a, asked, settled, b, cause, disabled, fault)
    {
      hide Priced, SettledAs, Spoilt, Filled;
    }

    /** The legs were looked up and their fills settled. The latch came on for one of the causes and
        no other; while it is off everything is as it was settled. */
    ghost predicate Prepared(a: Snapshot, asked: Snapshot, settled: Snapshot, b: Snapshot, cause: bool, disabled: bool,
                             fault: Option<Fault>) {
      && Asked(a, asked) && legs <= |b.rows|
      && if !Priced(asked.rows[..legs]) then fault == Some(PriceUnconfirmed)
         else
           && SettledAs(asked, settled, asked.rows[..legs]) && settled.positions <= b.positions
           && |settled.positions| == |asked.positions| + (if Filled(asked.rows[..legs]) > 0.0 then 1 else 0)
           && (disabled <==>
                 || cause || a.ctx.state == BREAKEVEN || Spoilt(a.rows) || Spoilt(asked.rows)
                 || settled.ctx.quantity + TOLERANCE < a.ctx.quantity)
           && (if disabled then fault == if Priced(b.rows[..legs]) then None else Some(CancelUnconfirmed)
               else
                 fault == None && b.rows == asked.rows && b.ctx == settled.ctx && b.positions == settled.positions
                 && b.ctx.intent == a.ctx.intent)
    }

    /** The legs were looked up, and nothing else changed but the latch. */
    ghost predicate Asked(a: Snapshot, b: Snapshot) {
      && legs <= |b.rows| == |a.rows| && b.sent == a.sent && b.positions == a.positions
      && b.ctx == a.ctx.(entryDisabled := b.ctx.entryDisabled)
      && b.rows[legs..] == a.rows[legs..]
      && forall k :: 0 <= k < |a.rows| && !Live(a.rows[k]) ==> b.rows[k] == a.rows[k]
    }

    lemma SettledHere()
      requires legs <= |rows| && (Filled(rows[..legs]) > 0.0 ==> SettledFor(ctx, rows[..legs]))
      ensures SettledNow()
    {
    }

    /** Progress of the take-profits, the deadline, or a position smaller than before end
        replenishment; the legs are then cancelled before anything else happens. */
    method CloseIfOver(before: real, due: bool, advanced: bool) returns (fault: Option<Fault>)
      requires Valid()
      modifies this
      ensures setbacks >= old(setbacks)
      ensures Valid() && old(run) <= run && |rows| == |old(rows)| && world.sent == old(world.sent)
      ensures Logged()
      ensures fault == None ==> Shut()
      ensures fault == None && (due || advanced || old(ctx.state) == BREAKEVEN || old(ctx.quantity) + TOLERANCE < before) ==>
                entryDisabled
      ensures setbacks == old(setbacks) ==>
                && (fault == None || fault == Some(CancelUnconfirmed))
                && (entryDisabled <==> old(entryDisabled) || due || advanced || old(ctx.state) == BREAKEVEN
                                       || old(ctx.quantity) + TOLERANCE < before)
      ensures fault == None && (entryDisabled || old(SettledNow())) ==> SettledNow()
      ensures setbacks == old(setbacks) ==>
                fault == if !entryDisabled || Priced(rows[..legs]) then None else Some(CancelUnconfirmed)
      ensures !entryDisabled ==> rows == old(rows) && ctx == old(ctx) && positions == old(positions) && !old(entryDisabled)
    {
      hide Reached, Shaped, SettledNow, Ended, Priced;
      var refreshed := Succeeds();
      if !refreshed {
        return Some(VenueFailed);
      }
      if advanced || due || ctx.state == BREAKEVEN || ctx.quantity + TOLERANCE < before {
        entryDisabled := true;
      }
      fault := None;
      if entryDisabled {
        fault := CloseEntryEligibility();
      }
    }

    /** A pair of legs is within its caps, or nothing more can be added. */
    ghost predicate Within()
      reads this`ctx, this`entryDisabled
    {
      legs == 2 && Overshoot(plan, ctx.quantity, ctx.avgFill) ==> entryDisabled
    }

    /** Nothing filled, or what filled has a price and is within the caps of its pair. */
    predicate Manageable(c: Ctx) {
      && (c.quantity <= 0.0 || c.avgFill > 0.0)
      && (legs == 2 ==> !Overshoot(plan, c.quantity, c.avgFill))
    }

    /** What filled is protected and its risk enforced before anything is added. */
    method ProtectFills(tookProfit: bool, protection: Protection) returns (fault: Option<Fault>, ghost closed: Snapshot)
      requires Valid() && Shut()
      modifies this
      ensures setbacks >= old(setbacks)
      ensures Valid() && old(run) <= run && SentExits(legs, old(world.sent), world.sent)
      ensures Logged()
      ensures fault == None ==> Shut() && (old(entryDisabled) ==> entryDisabled) && Within()
      ensures fault == None && (tookProfit || (legs == 2 && Overshoot(plan, old(ctx.quantity), old(ctx.avgFill)))) ==> entryDisabled
      ensures fault == None && entryDisabled && !old(entryDisabled) ==>
                tookProfit || (legs == 2 && Overshoot(plan, old(ctx.quantity), old(ctx.avgFill)))
      ensures fault == None && !entryDisabled ==> ctx == old(ctx)
      ensures fault == None && old(ctx.quantity) > 0.0 ==> protection == Placed
      ensures old(ctx.quantity) > 0.0 && protection == Failed && setbacks == old(setbacks) ==>
                Ended(legs, old(Now()), closed) && EmergencyDone(closed, Now())
      ensures legs == 2 && old(ctx.quantity) > 0.0 && protection == Placed && setbacks == old(setbacks)
              && Overshoot(plan, old(ctx.quantity), old(ctx.avgFill)) ==>
                Ended(legs, old(Now()), closed) && closed.positions <= positions && RiskEnforced(closed, Now(), fault)
      ensures fault == None && !entryDisabled ==> rows == old(rows)
      ensures setbacks == old(setbacks) && protection == Placed && !tookProfit && Manageable(old(ctx)) ==>
                fault == None && Now() == old(Now()) && entryDisabled == old(entryDisabled)
    {
      hide Reached, Shaped, Overshoot, PassDone, NewExit, Excess, EmergencyDone, Ended, RiskShed, Priced, SettledNow;
      fault, closed := None, Now();
      NothingHeld(plan, ctx.quantity, ctx.avgFill);
      if ctx.quantity > 0.0 {
        if protection == Failed {
          fault, closed := EmergencyClose();
        }
        if protection != Placed {
          return Some(ProtectionFailed), closed;
        }
        if legs == 2 {
          ghost var position, now;
          var skip;
          fault, skip, closed, position, now := EnforceManagedRisk();
          if fault.Some? {
            return;
          }
        }
        var restored := Succeeds();
        if !restored {
          return Some(ProtectionFailed), closed;
        }
      }
      if tookProfit && !entryDisabled {
        fault := CloseEntryEligibility();
      }
    }

    /** A position that cannot be protected is closed. */
    method EmergencyClose() returns (fault: Option<Fault>, ghost closed: Snapshot)
      requires Valid()
      modifies this
      ensures setbacks >= old(setbacks)
      ensures Valid() && old(run) <= run && SentExits(legs, old(world.sent), world.sent)
      ensures Logged()
      ensures setbacks == old(setbacks) ==> Ended(legs, old(Now()), closed) && SameLegs(closed) && EmergencyDone(closed, Now())
    {
      hide Reached, Shaped, PassDone, NewExit, Blocked, Ended, Priced, SettledNow;
      var latched := CloseEntryEligibility();
      closed := Now();
      label latch:
      var skip;
      ghost var position, now;
      skip, fault, position, now := ExecuteManagedCloseAmount(EMERGENCY, 100.0, 0.0);
      if setbacks == old(setbacks) {
        StillDone@latch();
      }
    }

    /** The latch is on, and the position was closed or the pending exit pursued. */
    ghost predicate EmergencyDone(closed: Snapshot, done: Snapshot) {
      && closed.ctx.entryDisabled
      && (closed.ctx.intent == None && !Blocked(closed.rows, EMERGENCY, 100.0) ==>
            exists skip: Skip, fault: Option<Fault>, position: Option<real> ::
              NewExit(closed, done, EMERGENCY, 100.0, 0.0, market, skip, fault, position))
      && (closed.ctx.intent.Some? && Settles(closed.ctx.intent.value, EMERGENCY, 100.0, 0.0) ==>
            exists fault: Option<Fault>, position: Option<real>, now: int :: PassDone(closed, done, true, market, fault, position, now))
    }

    /** After a leg filled: settle, protect, enforce the risk of the pair. If that closed the
        latch, the waiting second leg is refused. */
    method AfterFill(orders: seq<Row>) returns (fault: Option<Fault>, ghost settled: Snapshot, ghost closed: Snapshot)
      requires Valid() && !entryDisabled && orders == rows[..legs]
      modifies this
      ensures setbacks >= old(setbacks)
      ensures Valid() && old(run) <= run && SentExits(legs, old(world.sent), world.sent)
      ensures Logged()
      ensures !entryDisabled ==> rows == old(rows)
      ensures fault == None ==> Shut() && Within()
      ensures fault == None || (setbacks == old(setbacks) && Priced(orders)) ==>
                (Filled(orders) > 0.0 ==> SettledFor(settled.ctx, orders))
      ensures setbacks == old(setbacks) ==>
                if !Priced(orders) then fault == Some(PriceUnconfirmed)
                else
                  && SettledAs(old(Now()), settled, orders)
                  && (legs == 2 && Overshoot(plan, settled.ctx.quantity, settled.ctx.avgFill) ==>
                        Ended(legs, settled, closed) && RiskEnforced(closed, Now(), fault))
      ensures fault == None && !entryDisabled ==> ctx == settled.ctx
      ensures fault == None ==> (entryDisabled <==> legs == 2 && Overshoot(plan, settled.ctx.quantity, settled.ctx.avgFill))
      ensures fault == None && entryDisabled && legs == 2 && orders[1].status == PLANNED && orders[0].executed > 0.0 ==>
                Refuses(plan, orders[0])
    {
      hide Reached, Overshoot, SettledFor, Refuses, SettledAs, Ended, RiskEnforced, Priced;
      ghost var seen;
      fault, seen := SettleManagedFills(orders);
      settled, closed := Now(), Now();
      if fault.Some? {
        return;
      }
      var protected := Succeeds();
      if !protected {
        return Some(ProtectionFailed), settled, closed;
      }
      if legs == 2 {
        assert Filled(orders) > 0.0 ==> ctx.avgFill == Paid(orders) / Filled(orders) && ctx.quantity <= Filled(orders) by {
          SettledIs(ctx, orders);
        }
        fault, closed := EnforceSettled(orders);
        if fault.Some? {
          return;
        }
      }
      var restored := Succeeds();
      fault := if restored then None else Some(ProtectionFailed);
    }

    method EnforceSettled(orders: seq<Row>) returns (fault: Option<Fault>, ghost closed: Snapshot)
      requires Valid() && !entryDisabled && legs == 2 && orders == rows[..2]
      requires Filled(orders) > 0.0 ==> ctx.avgFill == Paid(orders) / Filled(orders) && ctx.quantity <= Filled(orders)
      modifies this
      ensures setbacks >= old(setbacks)
      ensures Valid() && old(run) <= run && SentExits(legs, old(world.sent), world.sent)
      ensures Logged()
      ensures !entryDisabled ==> rows == old(rows)
      ensures fault == None ==> Shut() && Within() && (entryDisabled <==> Overshoot(plan, old(ctx.quantity), old(ctx.avgFill)))
      ensures fault == None && !entryDisabled ==> ctx == old(ctx)
      ensures setbacks == old(setbacks) && Overshoot(plan, old(ctx.quantity), old(ctx.avgFill)) ==>
                Ended(legs, old(Now()), closed) && RiskEnforced(closed, Now(), fault)
      ensures fault == None && entryDisabled && orders[1].status == PLANNED && orders[0].executed > 0.0 ==>
                Refuses(plan, orders[0])
    {
      hide Reached, Refuses, Overshoot, PassDone, NewExit, Excess, Ended, RiskShed, Priced, SettledNow;
      PlannedUnfilled(1);
      ghost var quantity := ctx.quantity;
      if orders[1].status == PLANNED && orders[0].executed > 0.0 {
        OneLegFilled(orders);
        assert ctx.avgFill == orders[0].avg && quantity <= orders[0].executed;
      }
      ghost var position, now;
      var skip;
      fault, skip, closed, position, now := EnforceManagedRisk();
      if fault == None && entryDisabled && orders[1].status == PLANNED && orders[0].executed > 0.0 {
        OvershootRefuses(plan, quantity, orders[0]);
      }
    }

    lemma PlannedUnfilled(k: nat)
      requires Valid() && k < |rows|
      ensures rows[k].status == PLANNED ==> rows[k].executed == 0.0
    {
      ReachedSafe(initial, run, world);
      assert RowOk(world, k);
    }

    /** What the loop knows when it comes to the second leg: the copies are current, or the
        latch came on inside the loop and then the leg's size is refused. */
    ghost predicate SecondReady(orders: seq<Row>)
      reads this
      requires |orders| == 2
    {
      orders[1].status == PLANNED ==>
        if entryDisabled then Refuses(plan, orders[0]) else |rows| >= 2 && orders == rows[..2]
    }

    /** The first leg, unless its signal expired. */
    method SubmitFirst(orders: seq<Row>, expired: bool, price: real)
      returns (orders': seq<Row>, stop: bool, fault: Option<Fault>, ghost settled: Snapshot, ghost closed: Snapshot)
      requires Valid() && !entryDisabled && Within() && orders == rows[..legs] && orders[0].status == PLANNED
      modifies this
      ensures setbacks >= old(setbacks)
      ensures Valid() && old(run) <= run && |orders'| == legs && (1 in world.sent && legs == 2 ==> 1 in old(world.sent))
      ensures Logged()
      ensures !stop ==> orders'[1..] == orders[1..]
      ensures fault == None ==> Within()
      ensures setbacks == old(setbacks) && !expired ==>
                0 in world.sent || (orders[0].kind == MARKET && FirstLeg(plan, orders[0].qty, price, legs == 2) == None)
      ensures expired ==> world.sent == old(world.sent) && !stop && fault == None
      // What filled is settled and its risk enforced.
      ensures setbacks == old(setbacks) && !expired && !stop && orders'[0].executed > 0.0 && orders'[0].status != REJECTED
              && Priced(orders') ==>
                && (Filled(orders') > 0.0 ==> SettledFor(settled.ctx, orders'))
                && (legs == 2 && Overshoot(plan, settled.ctx.quantity, settled.ctx.avgFill) ==>
                      Ended(legs, settled, closed) && RiskEnforced(closed, Now(), fault))
      ensures fault == None && !expired && !stop && orders'[0].executed > 0.0 ==>
                (entryDisabled <==> legs == 2 && Overshoot(plan, settled.ctx.quantity, settled.ctx.avgFill))
      ensures fault == None ==> Shut() && (!stop && legs == 2 ==> SecondReady(orders'))
      ensures fault == None ==> (stop ==> entryDisabled) && (stop || rows[0].status != PLANNED || setbacks > old(setbacks))
    {
      hide Reached, Refuses, Overshoot, FirstLeg, LookedUp, Ended, RiskEnforced, SettledAs, SettledFor, Priced;
      orders', stop, fault, settled, closed := orders, false, None, Now(), Now();
      var row;
      if expired {
        row, fault := CancelManaged(0, orders[0]);
        return orders[0 := row], false, None, settled, closed;
      }
      row, fault := SubmitManagedChecked(0, orders[0], false, if orders[0].kind == MARKET then Some(price) else None);
      orders' := orders[0 := row];
      assert orders' == rows[..legs];
      if fault == Some(EntryRepriced) {
        fault := CloseEntryEligibility();
        orders', stop := rows[..legs], true;
        return;
      }
      if fault == None && row.executed > 0.0 {
        label sent:
        fault, settled, closed := AfterFill(orders');
        StillWorked@sent(0);
        assert world.sent[|old(world.sent)|] == 0;
      }
    }

    /** A leg that left PLANNED stays so. */
    twostate lemma StillWorked(k: nat)
      requires old(Valid()) && Valid() && old(run) <= run && k < old(|rows|)
      ensures |rows| >= old(|rows|) && (old(rows[k].status) != PLANNED ==> rows[k].status != PLANNED)
    {
      ReachedLater(initial, old(run), old(world), run, world);
    }

    /** The second leg, once the first one filled and nothing of the position is gone. */
    method SubmitSecond(orders: seq<Row>, tookProfit: bool, available: real) returns (fault: Option<Fault>, ghost live: Option<real>)
      requires Valid() && Shut() && Within() && legs == 2 && |orders| == 2 && orders[1].status == PLANNED && SecondReady(orders)
      modifies this
      ensures setbacks >= old(setbacks)
      ensures Valid() && old(run) <= run
      ensures Logged()
      ensures fault == None ==> Shut() && Within()
      ensures setbacks == old(setbacks) && orders[0].status == FILLED && old(ctx.quantity) > 0.0 && !tookProfit ==>
                && NextRead(old(Now()), Now(), live)
                && (StillHeld(live, old(ctx.quantity))
                    && SecondLeg(plan, orders[1].qty, orders[1].price, orders[0].executed, orders[0].avg, available).Some? ==>
                      1 in world.sent)
      ensures fault == None && orders[0].status == FILLED && old(ctx.quantity) > 0.0 ==> entryDisabled || 1 in world.sent
      ensures 1 in world.sent && 1 !in old(world.sent) ==> SecondLegSized(plan, rows, orders[1].qty)
    {
      hide Reached, Shaped, SecondLeg, SecondLegSized, Overshoot;
      live := None;
      if orders[0].status != FILLED || ctx.quantity <= 0.0 {
        return None, live;
      }
      var refreshed := Succeeds();
      if !refreshed {
        return Some(VenueFailed), live;
      }
      if tookProfit {
        fault := CloseEntryEligibility();
        return;
      }
      var read, position := FreshPosition();
      live := position;
      if !read {
        return Some(PositionUnread), live;
      }
      if !StillHeld(position, ctx.quantity) {
        fault := CloseEntryEligibility();
        return;
      }
      var balanced := Succeeds();
      if !balanced {
        return Some(VenueFailed), live;
      }
      var sized := SecondLeg(plan, orders[1].qty, orders[1].price, orders[0].executed, orders[0].avg, available);
      if sized.None? {
        fault := CloseEntryEligibility();
        return;
      }
      var row;
      ghost var settled, closed;
      row, fault, settled, closed := SendSecond(orders, available);
    }

    method SendSecond(orders: seq<Row>, available: real)
      returns (row: Row, fault: Option<Fault>, ghost settled: Snapshot, ghost closed: Snapshot)
      requires Valid() && !entryDisabled && Within() && legs == 2 && orders == rows[..2]
      requires orders[0].status == FILLED && orders[1].status == PLANNED
      requires SecondLeg(plan, orders[1].qty, orders[1].price, orders[0].executed, orders[0].avg, available).Some?
      modifies this
      ensures setbacks >= old(setbacks)
      ensures Valid() && old(run) <= run
      ensures Logged()
      ensures fault == None ==> Shut() && Within() && 1 in world.sent
      ensures setbacks == old(setbacks) ==> 1 in world.sent
      ensures 1 in world.sent && 1 !in old(world.sent) ==> SecondLegSized(plan, rows, orders[1].qty)
      // What filled is settled and its risk enforced.
      ensures !entryDisabled ==> rows[1] == row
      ensures var filled := [orders[0], row];
              && (setbacks == old(setbacks) && row.executed > 0.0 && row.status != REJECTED && Priced(filled) ==>
                    && (Filled(filled) > 0.0 ==> SettledFor(settled.ctx, filled))
                    && (Overshoot(plan, settled.ctx.quantity, settled.ctx.avgFill) ==>
                          Ended(legs, settled, closed) && RiskEnforced(closed, Now(), fault)))
              && (fault == None && row.executed > 0.0 ==>
                    (entryDisabled <==> Overshoot(plan, settled.ctx.quantity, settled.ctx.avgFill)))
    {
      hide Reached, SecondLeg, Fits, Value, WholeLots, Lot, Overshoot, LookedUp, FirstLeg, Ended, RiskEnforced, SettledAs,
        SettledFor, Priced;
      settled, closed := Now(), Now();
      var want := SecondLeg(plan, orders[1].qty, orders[1].price, orders[0].executed, orders[0].avg, available).value;
      SecondLegFits(plan, orders[1].qty, orders[1].price, orders[0].executed, orders[0].avg, available);
      row, fault := orders[1], None;
      var ok := UpdateOrder(1, row.(qty := want), Resized(1, want, row.price));
      if !ok {
        return row, Some(StoreFailed), settled, closed;
      }
      row := row.(qty := want);
      row, fault := SubmitManagedChecked(1, row, false, None);
      assert rows[0] == orders[0] && rows[1].qty == want && rows[1].price == orders[1].price;
      assert SecondLegSized(plan, rows, orders[1].qty);
      if fault == None && row.executed > 0.0 {
        label sent:
        assert rows[..2] == [orders[0], row];
        fault, settled, closed := AfterFill(rows[..2]);
        StillSized@sent(orders[1].qty);
        assert world.sent[|old(world.sent)|] == 1;
      }
    }

    /** The second leg keeps the size it was submitted with, next to the filled first leg. */
    twostate lemma StillSized(planned: real)
      requires old(Valid()) && Valid() && old(run) <= run
      requires old(SecondLegSized(plan, rows, planned)) && old(rows[1].status) != PLANNED
      ensures SecondLegSized(plan, rows, planned)
    {
      hide SecondLeg, Reached;
      ReachedLater(initial, old(run), old(world), run, world);
    }

    /** Requests only ever follow. */
    twostate lemma StillSent()
      requires old(Valid()) && Valid() && old(run) <= run
      ensures old(world.sent) <= world.sent
    {
      ReachedSent(initial, old(run), old(world), run, world);
    }

    /** Next to a first leg that filled completely, the second one goes out once the position still
        holds what the trade has and the budgets leave it a size. */
    ghost predicate SecondGoes(a: Snapshot, b: Snapshot, held: real, s: Surroundings) {
      legs == 2 && |a.rows| >= 2 && held > 0.0 && !s.tookLater ==>
        && |a.positions| < |b.positions|
        && (StillHeld(b.positions[|a.positions|], held)
            && SecondLeg(plan, a.rows[1].qty, a.rows[1].price, a.rows[0].executed, a.rows[0].avg, s.available).Some? ==>
              1 in b.sent)
    }

    /** The loop over the legs. Its guard reads the latch once, before the first leg. */
    method SubmitEntries(orders: seq<Row>, s: Surroundings) returns (orders': seq<Row>, fault: Option<Fault>)
      requires Valid() && !entryDisabled && Within() && orders == rows[..legs]
      modifies this
      ensures setbacks >= old(setbacks)
      ensures Valid() && old(run) <= run
      ensures Logged()
      ensures fault == None ==> Shut() && Within() && |orders'| == legs
      ensures fault == None && setbacks == old(setbacks) ==> entryDisabled || rows[0].status != PLANNED
      ensures AllWorked(old(Now()), Now(), setbacks == old(setbacks), orders, orders', s)
    {
      assert legs <= |rows| && 1 <= legs <= 2 && Shut();
      hide Valid, Core, Reached, Shaped, SecondLegSized, Refuses, Overshoot, FirstLeg, SecondLeg, SecondGoes, Ended,
        RiskEnforced, SettledFor, Priced, Filled, Shut, Within, Worked, AllWorked;
      ghost var a := Now();
      orders', fault := orders, None;
      var stop := false;
      var i := 0;
      NoneWorked(a, orders, s);
      while i < legs && !stop
        invariant Logged()
        invariant 0 <= i <= legs && Valid() && old(run) <= run && |orders'| == legs && Shut() && Within()
        invariant i == 0 ==> !entryDisabled && orders' == orders == rows[..legs] && Now() == a && setbacks == old(setbacks)
        invariant stop ==> i > 0
        invariant i > 0 && setbacks == old(setbacks) ==> if stop then entryDisabled else rows[0].status != PLANNED
        invariant setbacks >= old(setbacks) && Worked(i, a, Now(), setbacks == old(setbacks), orders, orders', stop, s)
        invariant i == 1 && !stop && legs == 2 ==> SecondReady(orders')
      {
        if orders'[i].status == PLANNED {
          if i == 0 {
            orders', stop, fault := FirstTurn(orders, s);
          } else {
            fault := SecondTurn(orders, orders', s, a, setbacks == old(setbacks));
          }
          if fault.Some? {
            WorkedOut(i + 1, a, Now(), setbacks == old(setbacks), orders, orders', stop, s);
            return;
          }
        } else {
          LegPassed(i, a, Now(), setbacks == old(setbacks), orders, orders', stop, s);
        }
        i := i + 1;
      }
      WorkedOut(i, a, Now(), setbacks == old(setbacks), orders, orders', stop, s);
    }

    method FirstTurn(orders: seq<Row>, s: Surroundings) returns (orders': seq<Row>, stop: bool, fault: Option<Fault>)
      requires Valid() && !entryDisabled && Within() && orders == rows[..legs] && orders[0].status == PLANNED
      modifies this
      ensures setbacks >= old(setbacks)
      ensures Valid() && old(run) <= run && |orders'| == legs && 0 < |rows|
      ensures Logged()
      ensures Worked(1, old(Now()), Now(), setbacks == old(setbacks), orders, orders', stop, s)
      ensures fault == None ==> Shut() && Within() && (!stop && legs == 2 ==> SecondReady(orders'))
      ensures fault == None && setbacks == old(setbacks) ==> if stop then entryDisabled else rows[0].status != PLANNED
    {
      assert 1 <= legs <= |rows|;
      hide Reached, Shaped, Refuses, Overshoot, FirstLeg, Ended, RiskEnforced, SettledFor, Priced, Filled, Shut, Within, Worked;
      ghost var settled, closed;
      orders', stop, fault, settled, closed := SubmitFirst(orders, s.expired, s.price);
      StillSent();
      FirstWorked(old(Now()), Now(), setbacks == old(setbacks), orders, orders', stop, s);
    }

    method SecondTurn(orders: seq<Row>, orders': seq<Row>, s: Surroundings, ghost a: Snapshot, ghost clear: bool)
      returns (fault: Option<Fault>)
      requires Valid() && Shut() && Within() && legs == 2 && |orders'| == 2 && orders'[1].status == PLANNED && SecondReady(orders')
      requires Worked(1, a, Now(), clear, orders, orders', false, s)
      modifies this
      ensures setbacks >= old(setbacks)
      ensures Valid() && old(run) <= run && 0 < |rows|
      ensures Logged()
      ensures Worked(2, a, Now(), clear && setbacks == old(setbacks), orders, orders', false, s)
      ensures fault == None ==> Shut() && Within()
      ensures old(|rows|) > 0 && old(rows[0].status) != PLANNED ==> rows[0].status != PLANNED
    {
      assert 2 <= |rows|;
      hide Reached, Shaped, Refuses, Overshoot, SecondLeg, SecondLegSized, Shut, Within, Worked;
      ghost var live;
      fault, live := SubmitSecond(orders', s.tookLater, s.available);
      StillWorked(0);
      StillSent();
      SecondWorked(a, old(Now()), Now(), clear, clear && setbacks == old(setbacks), orders, orders', false, s, live);
    }

    /** What is known of a pass that worked the first i legs. */
    ghost predicate Worked(i: nat, a: Snapshot, b: Snapshot, clear: bool, orders: seq<Row>, orders': seq<Row>, stop: bool,
                           s: Surroundings) {
      && i <= legs && 1 <= |orders| == |orders'| == legs <= |a.rows| && a.sent <= b.sent && orders == a.rows[..legs]
      && (i == 0 || (i <= 1 && orders[0].status != PLANNED) ==> !stop && b == a && clear && orders' == orders)
      && (i > 0 && clear && orders[0].status == PLANNED && !s.expired ==>
            0 in b.sent || (orders[0].kind == MARKET && FirstLeg(plan, orders[0].qty, s.price, legs == 2) == None))
      && (i >= 2 && clear && orders[0].status == FILLED && orders[1].status == PLANNED ==> SecondGoes(a, b, a.ctx.quantity, s))
      && ((forall k :: 0 <= k < legs ==> orders[k].status != PLANNED) ==> orders' == orders)
      && (i <= 1 && !stop && legs == 2 ==> orders'[1] == orders[1])
      && (i <= 1 && legs == 2 ==> (1 in b.sent ==> 1 in a.sent))
      && (legs == 2 && 1 in b.sent && 1 !in a.sent ==> SecondLegSized(plan, b.rows, orders[1].qty))
    }

    lemma NoneWorked(a: Snapshot, orders: seq<Row>, s: Surroundings)
      requires 1 <= legs <= |a.rows| && orders == a.rows[..legs]
      ensures Worked(0, a, a, true, orders, orders, false, s)
    {
      hide FirstLeg, SecondGoes, SecondLegSized;
    }

    lemma FirstWorked(a: Snapshot, b: Snapshot, clear: bool, orders: seq<Row>, orders': seq<Row>, stop: bool, s: Surroundings)
      requires 1 <= |orders| == |orders'| == legs <= |a.rows| && a.sent <= b.sent && orders == a.rows[..legs]
      requires orders[0].status == PLANNED && (!stop ==> orders'[1..] == orders[1..])
      requires clear && !s.expired ==>
                 0 in b.sent || (orders[0].kind == MARKET && FirstLeg(plan, orders[0].qty, s.price, legs == 2) == None)
      requires legs == 2 && 1 in b.sent ==> 1 in a.sent
      ensures Worked(1, a, b, clear, orders, orders', stop, s)
    {
      hide FirstLeg, SecondGoes, SecondLegSized;
    }

    lemma LegPassed(i: nat, a: Snapshot, b: Snapshot, clear: bool, orders: seq<Row>, orders': seq<Row>, stop: bool, s: Surroundings)
      requires Worked(i, a, b, clear, orders, orders', stop, s) && i < legs && !stop && orders'[i].status != PLANNED
      ensures Worked(i + 1, a, b, clear, orders, orders', stop, s)
    {
      hide FirstLeg, SecondGoes, SecondLegSized;
    }

    lemma SecondWorked(a: Snapshot, m: Snapshot, b: Snapshot, clearBefore: bool, clear: bool, orders: seq<Row>,
                       orders': seq<Row>, stop: bool, s: Surroundings, live: Option<real>)
      requires Worked(1, a, m, clearBefore, orders, orders', stop, s) && legs == 2 && !stop && orders'[1].status == PLANNED
      requires clear ==> clearBefore
      requires m.sent <= b.sent
      requires clear && orders'[0].status == FILLED && m.ctx.quantity > 0.0 && !s.tookLater ==>
                 && NextRead(m, b, live)
                 && (StillHeld(live, m.ctx.quantity)
                     && SecondLeg(plan, orders'[1].qty, orders'[1].price, orders'[0].executed, orders'[0].avg, s.available).Some? ==>
                       1 in b.sent)
      requires 1 in b.sent && 1 !in m.sent ==> SecondLegSized(plan, b.rows, orders'[1].qty)
      ensures Worked(2, a, b, clear, orders, orders', stop, s)
    {
      hide FirstLeg, SecondLeg, SecondLegSized, StillHeld;
    }

    /** What one pass over the legs does: a planned first leg is sent, unless its signal expired or
        it is refused at the live price; a second leg goes out next to a filled first one, with the
        size the budgets leave it. */
    ghost predicate AllWorked(a: Snapshot, b: Snapshot, clear: bool, orders: seq<Row>, orders': seq<Row>, s: Surroundings) {
      && 1 <= |orders| == legs && a.sent <= b.sent
      && (clear && orders[0].status == PLANNED && !s.expired ==>
            0 in b.sent || (orders[0].kind == MARKET && FirstLeg(plan, orders[0].qty, s.price, legs == 2) == None))
      && (clear && legs == 2 && orders[0].status == FILLED && orders[1].status == PLANNED ==> SecondGoes(a, b, a.ctx.quantity, s))
      && ((forall k :: 0 <= k < legs ==> orders[k].status != PLANNED) ==> orders' == orders)
      && (legs == 2 && 1 in b.sent && 1 !in a.sent ==> SecondLegSized(plan, b.rows, orders[1].qty))
    }

    lemma WorkedOut(i: nat, a: Snapshot, b: Snapshot, clear: bool, orders: seq<Row>, orders': seq<Row>, stop: bool, s: Surroundings)
      requires Worked(i, a, b, clear, orders, orders', stop, s)
      requires i >= legs || (i > 0 && stop) || i == 2 || (i == 1 && orders[0].status == PLANNED)
      ensures AllWorked(a, b, clear, orders, orders', s)
    {
      hide FirstLeg, SecondGoes, SecondLegSized;
    }

    /** Nothing but what it already knows keeps a pass from working its legs. */
    predicate Quiet(a: Snapshot, disabled: bool, s: Surroundings) {
      && !s.early && !s.due && !s.advanced && !s.tookProfit && s.protection == Placed
      && !disabled && a.ctx.intent == None && a.ctx.state != BREAKEVEN
    }

    /** A planned entry is submitted, unless its signal expired or the budgets refuse it at the
        live price. */
    ghost predicate FirstGoes(a: Snapshot, b: Snapshot, s: Surroundings) {
      0 < legs <= |a.rows| && (forall k :: 0 <= k < legs ==> a.rows[k].status == PLANNED) && a.ctx.quantity <= 0.0 && !s.expired ==>
        0 in b.sent || (a.rows[0].kind == MARKET && FirstLeg(plan, a.rows[0].qty, s.price, legs == 2) == None)
    }

    /** A waiting second leg is submitted next to a filled first one: the position was read and did
        not shrink, the trade is within its caps, and the position read before the leg still holds
        it. */
    ghost predicate PairGoes(a: Snapshot, b: Snapshot, s: Surroundings) {
      legs == 2 && |a.rows| >= 2 && a.rows[0].status == FILLED && a.rows[1].status == PLANNED
      && Filled(a.rows[..2]) > 0.0 && Priced(a.rows[..2]) ==>
        && |a.positions| < |b.positions|
        && var held := Owned(b.positions[|a.positions|], Filled(a.rows[..2]), a.ctx.positionSeen);
        var avg := Paid(a.rows[..2]) / Filled(a.rows[..2]);
        held > 0.0 && a.ctx.quantity <= held + TOLERANCE && !Overshoot(plan, held, avg) && !s.tookLater ==>
          && |a.positions| + 1 < |b.positions|
          && (StillHeld(b.positions[|a.positions| + 1], held)
              && SecondLeg(plan, a.rows[1].qty, a.rows[1].price, a.rows[0].executed, a.rows[0].avg, s.available).Some? ==>
                1 in b.sent)
    }

    /** The same of the legs alone, once their fills are settled. */
    ghost predicate LegsGo(m: Snapshot, b: Snapshot, s: Surroundings) {
      0 < legs <= |m.rows| && m.ctx.intent == None && Manageable(m.ctx) ==>
        && (m.rows[0].status == PLANNED && !s.expired ==>
              0 in b.sent || (m.rows[0].kind == MARKET && FirstLeg(plan, m.rows[0].qty, s.price, legs == 2) == None))
        && (legs == 2 && m.rows[0].status == FILLED && m.rows[1].status == PLANNED ==> SecondGoes(m, b, m.ctx.quantity, s))
    }

    lemma FirstFollows(a: Snapshot, asked: Snapshot, settled: Snapshot, m: Snapshot, b: Snapshot, disabled: bool,
                       fault: Option<Fault>, s: Surroundings)
      requires Prepared(a, asked, settled, m, false, disabled, fault) && Quiet(a, false, s)
      requires fault == None && !disabled ==> LegsGo(m, b, s)
      requires forall k :: 0 <= k < |a.rows| && a.rows[k].status == PLANNED ==> a.rows[k].executed == 0.0
      ensures FirstGoes(a, b, s)
    {
      hide FirstLeg, SecondGoes, Priced, Filled, Overshoot;
      if 0 < legs <= |a.rows| && (forall k :: 0 <= k < legs ==> a.rows[k].status == PLANNED) && a.ctx.quantity <= 0.0 {
        assert asked.rows[..legs] == a.rows[..legs];
        FilledNothing(a.rows[..legs]);
        NothingHeld(plan, m.ctx.quantity, m.ctx.avgFill);
        assert !Spoilt(a.rows) && !Spoilt(asked.rows);
        assert !disabled;
        assert m.rows[0] == asked.rows[0] == asked.rows[..legs][0] == a.rows[0];
      }
    }

    /** A settled trade over its caps sheds its excess: once its legs ended and it was settled anew,
        a reduction of what is then too much is recorded and sent, unless the position is flat or
        cannot be traded. */
    ghost predicate RiskGoes(a: Snapshot, b: Snapshot) {
      legs == 2 && |a.rows| >= 2 && OrderTerminal(a.rows[0].status) && OrderTerminal(a.rows[1].status) && !Spoilt(a.rows)
      && Filled(a.rows[..2]) > 0.0 && Priced(a.rows[..2]) ==>
        && |a.positions| < |b.positions|
        && var held := Owned(b.positions[|a.positions|], Filled(a.rows[..2]), a.ctx.positionSeen);
        var avg := Paid(a.rows[..2]) / Filled(a.rows[..2]);
        held > 0.0 && a.ctx.quantity <= held + TOLERANCE && Overshoot(plan, held, avg) ==>
          exists m: Snapshot, closed: Snapshot, outcome: (Skip, Option<Fault>, Option<real>) ::
            && m.rows == a.rows && m.ctx.quantity == held && m.ctx.avgFill == avg && m.ctx.intent == None
            && |m.positions| == |a.positions| + 1 && m.positions <= b.positions && closed.positions <= b.positions
            && Ended(legs, m, closed) && Shed(closed, b, outcome)
    }

    ghost predicate Shed(closed: Snapshot, b: Snapshot, outcome: (Skip, Option<Fault>, Option<real>)) {
      Over(plan, closed.ctx) ==>
        var excess := Excess(plan, closed.ctx.quantity, closed.ctx.avgFill);
        var signal, ratio := riskSignal(closed.ctx.quantity, closed.ctx.avgFill), excess / closed.ctx.quantity * 100.0;
        !Blocked(closed.rows, signal, ratio) ==>
          NewExit(closed, b, signal, ratio, excess, market, outcome.0, outcome.1, outcome.2)
    }

    lemma ShedBy(m: Snapshot, closed: Snapshot, b: Snapshot, outcome: Option<Fault>)
      returns (shed: (Skip, Option<Fault>, Option<real>))
      requires legs == 2 && Ended(legs, m, closed) && RiskEnforced(closed, b, outcome) && m.ctx.intent == None
      requires forall k :: 0 <= k < legs ==> OrderTerminal(m.rows[k].status)
      requires Priced(m.rows[..legs])
      ensures Shed(closed, b, shed)
    {
      hide Priced, SettledAs, NewExit, Blocked, PassDone, Over, Excess;
      assert closed.rows[..legs] == m.rows[..legs];
      var skip: Skip, fault: Option<Fault>, position: Option<real>, now: int :| RiskShed(closed, b, skip, fault, position, now);
      shed := (skip, fault, position);
    }

    lemma RiskFollows(a: Snapshot, asked: Snapshot, settled: Snapshot, m: Snapshot, closed: Snapshot, b: Snapshot,
                      disabled: bool, fault: Option<Fault>, outcome: Option<Fault>, s: Surroundings)
      requires Prepared(a, asked, settled, m, false, disabled, fault) && Quiet(a, false, s)
      requires fault == None && !disabled && legs == 2 && m.ctx.quantity > 0.0 && !Unfilled(m.rows[..legs])
               && Overshoot(plan, m.ctx.quantity, m.ctx.avgFill) ==>
                 Ended(legs, m, closed) && closed.positions <= b.positions && RiskEnforced(closed, b, outcome)
      requires m.positions <= b.positions
      ensures RiskGoes(a, b)
    {
      hide Priced, Filled, Paid, Overshoot, Owned, Ended, Shed, RiskEnforced, Over;
      if legs == 2 && |a.rows| >= 2 && OrderTerminal(a.rows[0].status) && OrderTerminal(a.rows[1].status) && !Spoilt(a.rows)
         && Filled(a.rows[..2]) > 0.0 && Priced(a.rows[..2]) {
        assert asked.rows[..2] == a.rows[..2];
        assert !Spoilt(asked.rows);
        if Unfilled(a.rows[..2]) {
          FilledNothing(a.rows[..2]);
          assert false;
        }
        var held := Owned(b.positions[|a.positions|], Filled(a.rows[..2]), a.ctx.positionSeen);
        var avg := Paid(a.rows[..2]) / Filled(a.rows[..2]);
        if held > 0.0 && a.ctx.quantity <= held + TOLERANCE && Overshoot(plan, held, avg) {
          assert !disabled && m.rows[..2] == a.rows[..2] && m.rows[2..] == a.rows[2..];
          assert m.rows == m.rows[..2] + m.rows[2..] && a.rows == a.rows[..2] + a.rows[2..];
          var shed := ShedBy(m, closed, b, outcome);
        }
      }
    }

    lemma PairFollows(a: Snapshot, asked: Snapshot, settled: Snapshot, m: Snapshot, b: Snapshot, disabled: bool,
                      fault: Option<Fault>, s: Surroundings)
      requires Prepared(a, asked, settled, m, false, disabled, fault) && Quiet(a, false, s)
      requires fault == None && !disabled ==> LegsGo(m, b, s)
      requires m.positions <= b.positions
      ensures PairGoes(a, b, s)
    {
      hide FirstLeg, SecondLeg, Priced, Filled, Paid, Overshoot, Owned, StillHeld;
      if legs == 2 && |a.rows| >= 2 && a.rows[0].status == FILLED && a.rows[1].status == PLANNED
         && Filled(a.rows[..2]) > 0.0 && Priced(a.rows[..2]) {
        assert asked.rows[..2] == a.rows[..2];
        PaidPositive(a.rows[..2]);
        AveragePositive(Filled(a.rows[..2]), Paid(a.rows[..2]));
        assert !Spoilt(a.rows) && !Spoilt(asked.rows);
      }
    }

    /** A pass over the legs: what may end replenishment comes first, then the legs. */
    method EntryPass(s: Surroundings) returns (fault: Option<Fault>)
      requires Valid()
      modifies this
      ensures setbacks >= old(setbacks)
      ensures Valid() && old(run) <= run
      ensures Logged()
      ensures fault == None ==> Shut() && Within()
      ensures fault == None || setbacks == old(setbacks) ==>
                forall k :: 0 <= k < legs && Live(old(rows)[k]) ==> LookedAt(old(lookups), lookups, k)
      ensures fault == None && setbacks == old(setbacks) ==> entryDisabled || ctx.intent.Some? || rows[0].status != PLANNED
      ensures setbacks == old(setbacks) && Quiet(old(Now()), old(entryDisabled), s) ==>
                FirstGoes(old(Now()), Now(), s) && PairGoes(old(Now()), Now(), s) && RiskGoes(old(Now()), Now())
      ensures fault == None && Unfilled(old(rows)[..legs]) ==> TradeTerminal(ctx.state)
      ensures legs == 2 && old(rows[1].status) == PLANNED && 1 in world.sent ==>
                SecondLegSized(plan, rows, old(rows[1].qty))
    {
      hide Reached, Shaped, SecondLegSized, Overshoot, LookedAt, SettledNow, FirstGoes, PairGoes, RiskGoes, Unfilled, LegsGo, Prepared,
        Ended, RiskEnforced;
      if legs == 2 {
        PlannedUnsent();
      }
      PlannedEmpty();
      ghost var a := Now();
      var orders, queried;
      ghost var asked, settled;
      orders, queried, fault, asked, settled := PrepareEntries(s.early, s.due, s.advanced);
      ghost var looked, m, closed, disabled, prepared := lookups, Now(), Now(), entryDisabled, fault;
      if fault == None {
        RowsKept();
        EndedUnfilled(a.rows, rows);
        orders, fault, closed := WorkEntries(orders, queried, s);
      }
      forall k | 0 <= k < legs && queried && Live(old(rows)[k]) ensures LookedAt(old(lookups), lookups, k) {
        LookedOn(old(lookups), looked, lookups, k);
      }
      if setbacks == old(setbacks) && Quiet(a, old(entryDisabled), s) {
        FirstFollows(a, asked, settled, m, Now(), disabled, prepared, s);
        PairFollows(a, asked, settled, m, Now(), disabled, prepared, s);
        RiskFollows(a, asked, settled, m, closed, Now(), disabled, prepared, fault, s);
      }
    }

    lemma PlannedEmpty()
      requires Valid()
      ensures forall k :: 0 <= k < |rows| && rows[k].status == PLANNED ==> rows[k].executed == 0.0
    {
      forall k | 0 <= k < |rows| && rows[k].status == PLANNED ensures rows[k].executed == 0.0 {
        PlannedUnfilled(k);
      }
    }

    lemma EndedUnfilled(before: seq<Row>, after: seq<Row>)
      requires legs <= |before| <= |after|
      requires forall k :: 0 <= k < |before| ==> OrderTerminal(before[k].status) ==> after[k] == before[k]
      ensures Unfilled(before[..legs]) ==> Unfilled(after[..legs])
    {
    }

    /** What filled is protected, then the legs are worked, and a trade that is over is marked. */
    method WorkEntries(prepared: seq<Row>, queried: bool, s: Surroundings)
      returns (orders: seq<Row>, fault: Option<Fault>, ghost closed: Snapshot)
      requires Valid() && Shut() && prepared == rows[..legs]
      modifies this
      ensures setbacks >= old(setbacks)
      ensures Valid() && old(run) <= run
      ensures Logged()
      ensures fault == None ==> Shut() && Within() && queried
      ensures fault == None && setbacks == old(setbacks) ==> entryDisabled || ctx.intent.Some? || rows[0].status != PLANNED
      ensures setbacks == old(setbacks) && queried && s.protection == Placed && !s.tookProfit && !old(entryDisabled) ==>
                LegsGo(old(Now()), Now(), s)
      ensures setbacks == old(setbacks) && queried && legs == 2 && s.protection == Placed && old(ctx.quantity) > 0.0
              && Overshoot(plan, old(ctx.quantity), old(ctx.avgFill)) && !Unfilled(prepared) ==>
                Ended(legs, old(Now()), closed) && closed.positions <= positions && RiskEnforced(closed, Now(), fault)
      ensures fault == None && Unfilled(prepared) ==> TradeTerminal(ctx.state)
      ensures legs == 2 && 1 in world.sent && 1 !in old(world.sent) ==> SecondLegSized(plan, rows, prepared[1].qty)
      ensures legs == 2 && old(entryDisabled) && 1 in world.sent ==> 1 in old(world.sent)
    {
      hide Reached, Shaped, SecondLegSized, Overshoot, FirstLeg, SecondGoes, Ended, RiskEnforced, Priced, EmergencyDone,
        Manageable, Unfilled, LegsGo;
      assert 1 <= legs <= |rows|;
      hide Valid, Core, Shut, Within;
      orders := prepared;
      ghost var m := Now();
      setbacks := if s.protection == Placed then setbacks else setbacks + 1;
      fault, closed := ProtectFills(s.tookProfit, s.protection);
      if fault == None && !queried {
        fault := Some(VenueFailed);
      }
      if fault == None {
        orders, fault := UseLegs(prepared, s);
      }
      if m.ctx.intent.Some? || !Manageable(m.ctx) {
        NotDue(m, Now(), s);
      }
    }

    /** The legs are submitted while the latch is off and no exit is pending, and a trade whose legs
        all ended without a fill is marked. */
    method UseLegs(prepared: seq<Row>, s: Surroundings) returns (orders: seq<Row>, fault: Option<Fault>)
      requires Valid() && Shut() && Within() && (entryDisabled || prepared == rows[..legs])
      modifies this
      ensures setbacks >= old(setbacks)
      ensures Valid() && old(run) <= run
      ensures Logged()
      ensures fault == None ==> Shut() && Within()
      ensures fault == None && setbacks == old(setbacks) ==> entryDisabled || ctx.intent.Some? || rows[0].status != PLANNED
      ensures setbacks == old(setbacks) && !old(entryDisabled) ==> LegsGo(old(Now()), Now(), s)
      ensures old(entryDisabled) && !Unfilled(prepared) ==> Now() == old(Now()) && fault == None
      ensures fault == None && Unfilled(prepared) ==> TradeTerminal(ctx.state)
      ensures legs == 2 && 1 in world.sent && 1 !in old(world.sent) ==> |prepared| == 2 && SecondLegSized(plan, rows, prepared[1].qty)
      ensures old(entryDisabled) ==> world.sent == old(world.sent)
    {
      hide Reached, Shaped, SecondLegSized, FirstLeg, SecondGoes, Manageable, Unfilled, LegsGo;
      assert 1 <= legs <= |rows|;
      hide Valid, Core, Shut, Within;
      ghost var m := Now();
      orders, fault := prepared, None;
      if !entryDisabled && ctx.intent == None {
        orders, fault := SubmitEntries(prepared, s);
        if setbacks == old(setbacks) {
          LegsWent(m, Now(), orders, s);
        }
      } else if m.ctx.intent.Some? {
        NotDue(m, m, s);
      }
      if fault == None {
        ghost var b := Now();
        UnfilledEnded(prepared);
        fault := MarkUnfilled(orders);
        StillWent(m, b, Now(), s);
      }
    }

    lemma NotDue(m: Snapshot, b: Snapshot, s: Surroundings)
      requires m.ctx.intent.Some? || !Manageable(m.ctx)
      ensures LegsGo(m, b, s)
    {
    }

    lemma LegsWent(m: Snapshot, b: Snapshot, orders: seq<Row>, s: Surroundings)
      requires legs <= |m.rows| && AllWorked(m, b, true, m.rows[..legs], orders, s)
      ensures LegsGo(m, b, s)
    {
      hide FirstLeg, SecondGoes;
    }

    lemma StillWent(m: Snapshot, b: Snapshot, c: Snapshot, s: Surroundings)
      requires c.sent == b.sent && c.positions == b.positions
      ensures LegsGo(m, b, s) ==> LegsGo(m, c, s)
    {
      hide FirstLeg, SecondLeg, StillHeld;
    }

    lemma UnfilledEnded(orders: seq<Row>)
      ensures Unfilled(orders) ==> forall k :: 0 <= k < |orders| ==> orders[k].status != PLANNED
    {
    }

    lemma PlannedUnsent()
      requires Valid() && legs == 2
      ensures rows[1].status == PLANNED ==> 1 !in world.sent
    {
      ReachedSafe(initial, run, world);
      assert RowOk(world, 1);
    }

    /** A trade whose legs all ended without a fill is over. */
    method MarkUnfilled(orders: seq<Row>) returns (fault: Option<Fault>)
      requires Valid()
      modifies this
      ensures setbacks >= old(setbacks)
      ensures Valid() && old(run) <= run && rows == old(rows) && world.sent == old(world.sent)
      ensures lookups == old(lookups) && stale == old(stale) && positions == old(positions)
      ensures entryDisabled == old(entryDisabled) && ctx.entryDisabled == old(ctx.entryDisabled)
      ensures ctx == if fault == None && Unfilled(orders) then old(ctx).(state := ctx.state) else old(ctx)
      ensures old(Shut()) ==> Shut()
      ensures old(Within()) ==> Within()
      ensures fault == None && Unfilled(orders) ==> TradeTerminal(ctx.state)
      ensures !Unfilled(orders) ==> fault == None
    {
      hide Reached, Shaped;
      var allTerminal, filled := true, false;
      for i := 0 to |orders|
        invariant allTerminal == (forall k :: 0 <= k < i ==> OrderTerminal(orders[k].status))
        invariant filled == (exists k :: 0 <= k < i && orders[k].executed > 0.0)
      {
        allTerminal := allTerminal && OrderTerminal(orders[i].status);
        filled := filled || orders[i].executed > 0.0;
      }
      if !allTerminal || filled {
        return None;
      }
      var due: bool := *;
      var state := if due then DEADLINE_EXPIRED else CANCELLED;
      var ok := UpdateContext(ctx.(state := state), Settled(ctx.quantity, ctx.avgFill, state, ctx.positionSeen));
      fault := if ok then None else Some(StoreFailed);
    }

    /** One pass over a trade that still has an entry to work. An error is followed by one
        more position read, so known exposure is not forgotten. */
    method ReconcileManagedEntry(s: Surroundings) returns (fault: Option<Fault>)
      requires Valid()
      modifies this
      ensures setbacks >= old(setbacks)
      ensures Valid() && old(run) <= run
      ensures Logged()
      ensures fault == None && ctx.entryDisabled ==> EntriesDone()
      ensures fault == None && legs == 2 && !ctx.entryDisabled ==> !Overshoot(plan, ctx.quantity, ctx.avgFill)
      ensures fault == None || setbacks == old(setbacks) ==>
                forall k :: 0 <= k < legs && Live(old(rows)[k]) ==> LookedAt(old(lookups), lookups, k)
      ensures fault == None && setbacks == old(setbacks) ==> ctx.entryDisabled || ctx.intent.Some? || rows[0].status != PLANNED
      ensures setbacks == old(setbacks) && Quiet(old(Now()), old(ctx.entryDisabled), s) ==>
                FirstGoes(old(Now()), Now(), s) && PairGoes(old(Now()), Now(), s) && RiskGoes(old(Now()), Now())
      ensures fault == None && Unfilled(old(rows)[..legs]) ==> TradeTerminal(ctx.state)
      ensures fault.Some? && setbacks == old(setbacks) ==>
                && |positions| > |old(positions)|
                && (!Flat(positions[|positions| - 1]) ==> ctx.quantity == positions[|positions| - 1].value)
      ensures legs == 2 && old(rows[1].status) == PLANNED && 1 in world.sent ==>
                SecondLegSized(plan, rows, old(rows[1].qty))
    {
      hide Reached, Shaped, SecondLegSized, Overshoot, LookedAt, FirstGoes, PairGoes, RiskGoes, Unfilled;
      ghost var a := Now();
      entryDisabled := ctx.entryDisabled;
      fault := EntryPass(s);
      ghost var m := Now();
      if fault.Some? {
        var read, position := FreshPosition();
        if read && position.Some? && position.value > 0.0 {
          var noted := UpdateContext(ctx.(quantity := position.value),
                                     Settled(position.value, ctx.avgFill, ctx.state, ctx.positionSeen));
        }
        StillGoes(a, m, Now(), s);
        StillShed(a, m, Now());
      }
    }

    lemma StillShed(a: Snapshot, m: Snapshot, b: Snapshot)
      requires b.rows == m.rows && b.sent == m.sent && m.positions <= b.positions
      ensures RiskGoes(a, m) ==> RiskGoes(a, b)
    {
      hide Filled, Priced, Paid, Overshoot, Owned, Ended, Over, Excess, Blocked, ExitQuantity, Spoilt;
      forall closed: Snapshot, outcome: (Skip, Option<Fault>, Option<real>) | Shed(closed, m, outcome)
        ensures Shed(closed, b, outcome)
      {
      }
    }

    lemma StillGoes(a: Snapshot, m: Snapshot, b: Snapshot, s: Surroundings)
      requires b.sent == m.sent && m.positions <= b.positions
      ensures FirstGoes(a, m, s) ==> FirstGoes(a, b, s)
      ensures PairGoes(a, m, s) ==> PairGoes(a, b, s)
    {
      hide FirstLeg, SecondLeg, Filled, Priced, Paid, Overshoot, Owned;
    }
  }
}
