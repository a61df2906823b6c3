/** The take-profit ladder of one trade on an exchange with client-ID recovery. Every durable
    write, request and reading is an event of TakeProfitProtocol, so its theorems hold of
    each level whatever the exchange does between two calls and wherever a crash falls. */
module TakeProfit {
  import opened Prelude
  import opened Sizing
  import OrderProtocol
  import opened TakeProfitScale
  import opened TakeProfitProtocol

  const UNKNOWN_GRACE: int := 60

  datatype Fault =
    | StoreFailed | VenueFailed | FillsBackwards | FillChanged | CancelUnconfirmed | OrderRejected | OutcomeUnknown

  datatype Status = Status(state: OrderProtocol.Status, executed: real)

  ghost predicate Reached(initial: World, run: seq<Event>, w: World) {
    Init(initial) && Legal(initial, run) && w == After(initial, run)
  }

  ghost predicate AllReached(initial: seq<World>, runs: seq<seq<Event>>, levels: seq<World>) {
    && |initial| == |runs| == |levels|
    && forall i :: 0 <= i < |levels| ==> Reached(initial[i], runs[i], levels[i])
  }

  lemma ReachedStep(initial: World, run: seq<Event>, w: World, e: Event)
    requires Reached(initial, run, w) && Enabled(w, e)
    ensures Reached(initial, run + [e], Apply(w, e))
  {
    Extend(initial, run, e);
  }

  lemma ReachedOk(initial: seq<World>, runs: seq<seq<Event>>, levels: seq<World>, i: nat)
    requires AllReached(initial, runs, levels) && i < |levels|
    ensures LevelOk(levels[i])
  {
    AlwaysOk(initial[i], runs[i]);
  }

  function WithPlan(levels: seq<World>, plan: seq<Entry>): (r: seq<World>)
    requires |plan| == |levels|
    ensures |r| == |levels| && forall i :: 0 <= i < |levels| ==> r[i] == levels[i].(entry := plan[i])
  {
    seq(|levels|, i requires 0 <= i < |levels| => levels[i].(entry := plan[i]))
  }

  function Longer(runs: seq<seq<Event>>, events: seq<Event>): (r: seq<seq<Event>>)
    requires |runs| == |events|
    ensures |r| == |runs| && forall i :: 0 <= i < |runs| ==> r[i] == runs[i] + [events[i]]
  {
    seq(|runs|, i requires 0 <= i < |runs| => runs[i] + [events[i]])
  }

  /** One event per level, each changing only the level's plan entry. */
  ghost predicate Plans(levels: seq<World>, plan: seq<Entry>, events: seq<Event>) {
    && |plan| == |events| == |levels|
    && forall i :: 0 <= i < |levels| ==>
                     Enabled(levels[i], events[i]) && Apply(levels[i], events[i]) == levels[i].(entry := plan[i])
  }

  lemma AllStep(initial: seq<World>, runs: seq<seq<Event>>, levels: seq<World>, plan: seq<Entry>, events: seq<Event>)
    requires AllReached(initial, runs, levels) && Plans(levels, plan, events)
    ensures AllReached(initial, Longer(runs, events), WithPlan(levels, plan))
  {
    hide Reached, Enabled, Apply;
    forall i | 0 <= i < |levels| ensures Reached(initial[i], runs[i] + [events[i]], levels[i].(entry := plan[i])) {
      ReachedStep(initial[i], runs[i], levels[i], events[i]);
    }
  }

  /** Only the exchange moved. */
  ghost predicate VenueMoved(a: seq<World>, b: seq<World>) {
    && |a| == |b|
    && forall i :: 0 <= i < |a| ==> b[i] == a[i].(venue := b[i].venue) && |b[i].venue| == |a[i].venue|
  }

  /** Only this level and the exchange moved. */
  ghost predicate LevelMoved(a: seq<World>, b: seq<World>, k: nat) {
    && |a| == |b|
    && forall i :: 0 <= i < |a| && i != k ==> b[i] == a[i].(venue := b[i].venue) && |b[i].venue| == |a[i].venue|
  }

  /** What reading a level's row confirms about its order. */
  function Confirmed(w: World): Entry {
    if w.entry.ordered && !w.entry.filled && |w.rows| > 0 then
      var row := w.rows[|w.rows| - 1];
      Refresh(w.entry, Read(row.executed, row.status == OrderProtocol.FILLED))
    else w.entry
  }

  /** The event that records what a row confirms. */
  function Confirming(w: World): Event {
    if w.entry.ordered && !w.entry.filled && |w.rows| > 0 then
      var row := w.rows[|w.rows| - 1];
      Observed(Read(row.executed, row.status == OrderProtocol.FILLED))
    else Restart
  }

  lemma ConfirmingEnabled(w: World)
    requires LevelOk(w) && !w.pending
    ensures Enabled(w, Confirming(w)) && Apply(w, Confirming(w)) == w.(entry := Confirmed(w))
  {
  }

  /** The current order was sent and is not final as recorded. */
  predicate LiveRow(w: World) {
    |w.rows| > 0 && w.rows[|w.rows| - 1].status != OrderProtocol.PLANNED
    && !OrderProtocol.OrderTerminal(w.rows[|w.rows| - 1].status)
  }

  /** The newest order was rejected. */
  predicate RejectedRow(w: World) {
    |w.rows| > 0 && w.rows[|w.rows| - 1].status == OrderProtocol.REJECTED
  }

  /** A level whose recorded order may have filled. */
  predicate Asked(w: World) {
    w.entry.ordered && !w.entry.filled && LiveRow(w)
  }

  /** One lookup of a level's order, and what came back. */
  datatype Lookup = Lookup(level: nat, answer: Option<Status>)

  /** The log of lookups went on with this level. */
  ghost predicate LookedAt(looked: seq<Lookup>, looked': seq<Lookup>, k: nat) {
    |looked| <= |looked'| && exists i :: |looked| <= i < |looked'| && looked'[i].level == k
  }

  /** An answer about the level showed a fill that its plan entry had not recorded. */
  ghost predicate FillSeen(looked: seq<Lookup>, looked': seq<Lookup>, k: nat, e: Entry) {
    exists i :: |looked| <= i < |looked'| && looked'[i].level == k && looked'[i].answer.Some? && FillNews(e, looked'[i].answer.value)
  }

  ghost predicate SomeFillSeen(looked: seq<Lookup>, looked': seq<Lookup>, plan: seq<Entry>) {
    exists k :: 0 <= k < |plan| && FillSeen(looked, looked', k, plan[k])
  }

  lemma SeenNow(a: seq<Lookup>, b: seq<Lookup>, k: nat, status: Status, e: Entry)
    requires |a| < |b| && b[|b| - 1] == Lookup(k, Some(status)) && FillNews(e, status)
    ensures FillSeen(a, b, k, e)
  {
  }

  lemma LookedMore(a: seq<Lookup>, b: seq<Lookup>, c: seq<Lookup>)
    requires a <= b <= c
    ensures forall j :: LookedAt(a, b, j) || LookedAt(b, c, j) ==> LookedAt(a, c, j)
    ensures forall j, e :: FillSeen(a, b, j, e) || FillSeen(b, c, j, e) ==> FillSeen(a, c, j, e)
  {
  }

  predicate Advanced(before: Entry, after: Entry) {
    CumulativeFill(after) > CumulativeFill(before) || (after.filled && !before.filled)
  }

  /** The order already has the size, up to rounding. */
  predicate CloseEnough(want: real, remaining: real) {
    Abs(want - remaining) <= Max(FILL_TOLERANCE, remaining / 100000000.0)
  }

  /** A level that needs nothing, has its order, was refused by the exchange, wants too little,
      or was never planned here. */
  predicate Served(before: Entry, w: World, step: real, minQty: real) {
    var want := InLots(Wanted(before), step);
    || before.filled || w.entry.ordered || RejectedRow(w) || want <= 0.0 || want < minQty
    || (!before.ordered && !before.linked && before.status != PLANNED && before.status != PLACEMENT_FAILED)
  }

  /** Every open level wants its remainder times qty over a reference, in whole lots. */
  ghost predicate SizedBy(read: seq<Entry>, sized: seq<Entry>, qty: real, reference: real, step: real) {
    && reference != 0.0 && |sized| == |read|
    && forall i :: 0 <= i < |read| ==>
                     && sized[i].filled == read[i].filled
                     && (!read[i].filled ==> sized[i].desired == Some(InLots(Times(Remaining(read[i]), qty / reference), step)))
  }

  lemma SizedExact(read: seq<Entry>, sized: seq<Entry>, synced: real, qty: real, step: real)
    requires Total(read) > 0.0 && qty > 0.0
    requires sized == StampSync(RescaledInLots(read, TpRescale(synced, qty, Total(read), read), step))
    ensures SizedBy(read, sized, qty, Reference(read, synced, qty), step)
  {
    RescaleExact(read, synced, qty);
    hide TpRescale, Total, Reference, InLots, Remaining;
  }

  /** What a level was sized for in the first pass is its remainder, if the ladder fits. */
  lemma {:induction false} FirstSizes(levels: seq<World>, read: seq<Entry>, sized: seq<Entry>, qty: real, step: real)
    requires |levels| == |read| && AsSized(levels, sized) && 0.0 < Total(read) <= qty
    requires SizedBy(read, sized, qty, Reference(read, 0.0, qty), step)
    ensures forall i :: 0 <= i < |levels| && !levels[i].entry.filled ==>
                          levels[i].entry.desired == Some(InLots(Remaining(read[i]), step))
  {
    hide Total, InLots, Remaining;
    assert Reference(read, 0.0, qty) == qty;
    OverItself(qty);
    hide Reference;
    forall i | 0 <= i < |levels| && !levels[i].entry.filled
      ensures levels[i].entry.desired == Some(InLots(Remaining(read[i]), step))
    {
      assert Times(Remaining(read[i]), 1.0) == Remaining(read[i]);
    }
  }

  /** The whole ladder fits, as far as its state allows. */
  lemma {:induction false} Fitting(levels: seq<World>, read: seq<Entry>, sized: seq<Entry>, synced: real, qty: real, step: real)
    requires |levels| == |read| && AsSized(levels, sized) && Total(read) > 0.0 && qty > 0.0
    requires synced != qty ==> SizedBy(read, sized, qty, Reference(read, synced, qty), step)
    ensures synced != qty && (!Unguarded(read, synced, qty) || Total(read) <= synced) ==> TotalWanted(PlanOf(levels)) <= qty
    ensures synced == 0.0 && Total(read) <= qty ==>
              forall i :: 0 <= i < |levels| && !levels[i].entry.filled ==>
                            levels[i].entry.desired == Some(InLots(Remaining(read[i]), step))
  {
    hide Total, TotalWanted, Unguarded, Reference, SizedBy, AsSized, InLots, Remaining;
    if synced != qty && (!Unguarded(read, synced, qty) || Total(read) <= synced) {
      SizedFits(levels, read, sized, synced, qty, step);
    }
    if synced == 0.0 && Total(read) <= qty {
      FirstSizes(levels, read, sized, qty, step);
    }
  }

  /** The stamps change nothing else. */
  lemma StampedLevels(before: seq<World>, after: seq<World>, sized: seq<Entry>, step: real, minQty: real)
    requires |sized| == |before| && after == WithPlan(before, StampSync(PlanOf(before)))
    ensures AsSized(before, sized) ==> AsSized(after, sized)
    ensures forall i :: 0 <= i < |after| ==>
              && after[i].entry.synced == Some(CumulativeFill(after[i].entry))
              && (Served(sized[i], before[i], step, minQty) ==> Served(sized[i], after[i], step, minQty))
  {
    hide InLots, Wanted;
  }

  lemma OverItself(qty: real)
    requires qty > 0.0
    ensures qty / qty == 1.0
  {
  }

  lemma ConfirmedEntries(before: seq<World>, after: seq<World>)
    requires |before| == |after| && forall i :: 0 <= i < |after| ==> after[i].entry == Confirmed(after[i].(entry := before[i].entry))
    ensures forall i :: 0 <= i < |after| ==> after[i].entry.synced == before[i].entry.synced
  {
  }

  /** A level that is brought to its size leaves the others served. */
  lemma ServedStill(first: seq<World>, before: seq<World>, after: seq<World>, k: nat, step: real, minQty: real)
    requires |first| == |before| && LevelMoved(before, after, k)
    ensures forall i :: 0 <= i < |after| && i != k && Served(first[i].entry, before[i], step, minQty) ==>
                          Served(first[i].entry, after[i], step, minQty)
  {
    hide InLots, Wanted;
  }

  /** A reading that shows a fill the plan has not recorded. */
  predicate FillNews(e: Entry, status: Status) {
    status.state == OrderProtocol.FILLED || status.executed > e.filledQty + FILL_TOLERANCE
  }

  function PlanOf(levels: seq<World>): (plan: seq<Entry>)
    ensures |plan| == |levels| && forall i :: 0 <= i < |levels| ==> plan[i] == levels[i].entry
  {
    seq(|levels|, i requires 0 <= i < |levels| => levels[i].entry)
  }

  /** An open level wants what it was sized for. */
  ghost predicate AsSized(levels: seq<World>, sized: seq<Entry>) {
    && |sized| == |levels|
    && forall i :: 0 <= i < |levels| && !levels[i].entry.filled ==>
                     levels[i].entry.desired == sized[i].desired && !sized[i].filled
  }

  /** What was sized for a position stays within it. */
  lemma {:induction false} SizedFits(levels: seq<World>, plan: seq<Entry>, sized: seq<Entry>, synced: real, qty: real, step: real)
    requires Total(plan) > 0.0 && qty > 0.0 && (!Unguarded(plan, synced, qty) || Total(plan) <= synced)
    requires AsSized(levels, sized) && SizedBy(plan, sized, qty, Reference(plan, synced, qty), step)
    ensures TotalWanted(PlanOf(levels)) <= qty
  {
    var scale := TpRescale(synced, qty, Total(plan), plan);
    RescaleExact(plan, synced, qty);
    ScaleNonNegative(synced, qty, Total(plan), plan);
    RescaleFitsIff(plan, synced, qty);
    LotsFit(plan, scale, step);
    hide TpRescale, Total, TotalWanted, Unguarded, InLots, Reference;
    var lots := RescaledInLots(plan, scale, step);
    forall i | 0 <= i < |levels| ensures Wanted(PlanOf(levels)[i]) <= Wanted(lots[i]) {
      WishNonNegative(plan[i], scale, step);
    }
    WantedMonotone(PlanOf(levels), lots);
  }

  lemma WishNonNegative(e: Entry, scale: real, step: real)
    requires scale >= 0.0
    ensures 0.0 <= InLots(Times(Remaining(e), scale), step)
  {
    MulLeft(Remaining(e), 0.0, scale);
    InLotsBelow(Times(Remaining(e), scale), step);
  }

  lemma ScaleNonNegative(synced: real, qty: real, total: real, plan: seq<Entry>)
    requires total > 0.0 && qty > 0.0
    ensures TpRescale(synced, qty, total, plan) >= 0.0
  {
    hide Since;
  }

  class Ladder {
    const step: real
    const minQty: real
    ghost const initial: seq<World>

    var levels: seq<World>
    var syncedQty: real
    var clock: int
    ghost var runs: seq<seq<Event>>
    // Requests that left, levels whose order was looked up, and reads and writes that failed,
    // answers that did not come, orders that would not end.
    ghost var requests: nat
    ghost var lookups: seq<Lookup>
    ghost var setbacks: nat

    ghost predicate Valid()
      reads this
    {
      && AllReached(initial, runs, levels)
      && forall i :: 0 <= i < |levels| ==> !levels[i].pending && |levels[i].rows| == |levels[i].venue|
    }

    constructor (planned: seq<World>, step: real, minQty: real)
      requires forall i :: 0 <= i < |planned| ==> Init(planned[i])
      ensures Valid() && levels == planned
    {
      this.step, this.minQty, initial := step, minQty, planned;
      levels, syncedQty, clock := planned, 0.0, 0;
      runs, requests, lookups, setbacks := seq(|planned|, i => []), 0, [], 0;
    }

    // ---- Durable writes ----------------------------------------------------------------

    /** One durable write about one level; a failed write changes nothing. */
    method Write(k: nat, e: Event) returns (ok: bool)
      requires Valid() && k < |levels| && Enabled(levels[k], e) && !Apply(levels[k], e).pending
      modifies this`levels, this`runs, this`setbacks
      ensures setbacks == if ok then old(setbacks) else old(setbacks) + 1
      ensures Valid() && |levels| == |old(levels)|
      ensures levels == if ok then old(levels)[k := Apply(old(levels)[k], e)] else old(levels)
    {
      ok := *;
      if !ok {
        setbacks := setbacks + 1;
      } else {
        ReachedStep(initial[k], runs[k], levels[k], e);
        levels, runs := levels[k := Apply(levels[k], e)], runs[k := runs[k] + [e]];
      }
    }

    /** The whole plan is one write: every level changes or none. */
    method SavePlan(plan: seq<Entry>, events: seq<Event>) returns (ok: bool)
      requires Valid() && Plans(levels, plan, events)
      modifies this`levels, this`runs, this`setbacks
      ensures setbacks == if ok then old(setbacks) else old(setbacks) + 1
      ensures Valid() && |levels| == |old(levels)|
      ensures !ok ==> levels == old(levels)
      ensures ok ==> levels == WithPlan(old(levels), plan)
    {
      hide Reached, Enabled, Apply;
      ok := *;
      if !ok {
        setbacks := setbacks + 1;
      } else {
        AllStep(initial, runs, levels, plan, events);
        levels, runs := WithPlan(levels, plan), Longer(runs, events);
      }
    }

    // ---- The exchange --------------------------------------------------------------------

    method VenueMove(k: nat, e: Event)
      requires AllReached(initial, runs, levels) && VenueEvent(e)
      modifies this`levels, this`runs
      ensures AllReached(initial, runs, levels) && VenueMoved(old(levels), levels)
    {
      if k < |levels| && Enabled(levels[k], e) {
        ReachedStep(initial[k], runs[k], levels[k], e);
        levels, runs := levels[k := Apply(levels[k], e)], runs[k := runs[k] + [e]];
      }
    }

    /** Any number of moves of the exchange, over any time. */
    method Interfere()
      requires AllReached(initial, runs, levels)
      modifies this`levels, this`runs, this`clock
      ensures AllReached(initial, runs, levels) && VenueMoved(old(levels), levels)
    {
      clock := *;
      var moves: nat := *;
      while moves > 0
        invariant AllReached(initial, runs, levels) && VenueMoved(old(levels), levels)
      {
        var kind: nat := *;
        var level: nat := *;
        var k: nat := *;
        var qty: real := *;
        VenueMove(level, if kind == 0 then Lands(k) else if kind == 1 then Lost(k)
                         else if kind == 2 then Fills(k, qty) else Ends(k));
        moves := moves - 1;
      }
    }

    /** GetOrderStatus: a truthful state and fill, or no answer. */
    method GetOrderStatus(k: nat) returns (status: Option<Status>)
      requires Valid() && k < |levels|
      modifies this`levels, this`runs, this`clock, this`lookups, this`setbacks
      ensures setbacks == old(setbacks) + (if status.None? then 1 else 0) && lookups == old(lookups) + [Lookup(k, status)]
      ensures Valid() && VenueMoved(old(levels), levels)
      ensures status.Some? ==> Reports(levels[k], status.value.state, status.value.executed)
    {
      Interfere();
      status := *;
      if status.Some? && !Reports(levels[k], status.value.state, status.value.executed) {
        status := None;
      }
      lookups := lookups + [Lookup(k, status)];
      setbacks := if status.None? then setbacks + 1 else setbacks;
    }

    /** CancelOrder; success promises nothing about how the order ended. */
    method CancelOrder(k: nat) returns (ok: bool)
      requires Valid() && k < |levels|
      modifies this`levels, this`runs, this`clock, this`lookups, this`setbacks
      ensures setbacks == (if ok then old(setbacks) else old(setbacks) + 1) && lookups == old(lookups)
      ensures Valid() && VenueMoved(old(levels), levels)
    {
      Interfere();
      ok := *;
      setbacks := if ok then setbacks else setbacks + 1;
    }

    // ---- One ledger row --------------------------------------------------------------------

    method RecordResult(k: nat, status: Status) returns (fault: Option<Fault>)
      requires Valid() && k < |levels| && levels[k].entry.linked
      requires Reports(levels[k], status.state, status.executed)
      requires levels[k].rows[|levels[k].rows| - 1].status != OrderProtocol.PLANNED
      requires !OrderProtocol.OrderTerminal(levels[k].rows[|levels[k].rows| - 1].status)
      modifies this`levels, this`runs, this`setbacks
      ensures setbacks >= old(setbacks) && (fault == None <==> setbacks == old(setbacks))
      ensures Valid() && LevelMoved(old(levels), levels, k) && SameEntry(old(levels), k)
      ensures fault == None ==> levels[k].rows[|levels[k].rows| - 1].known
      ensures fault == None ==> OrderProtocol.VenueStatus(levels[k].rows[|levels[k].rows| - 1].status)
      ensures fault.Some? ==> levels == old(levels)
    {
      var row := levels[k].rows[|levels[k].rows| - 1];
      if status.executed + TOLERANCE < row.executed {
        setbacks := setbacks + 1;
        return Some(FillsBackwards);
      }
      var ok := Write(k, Recorded(status.state, status.executed));
      fault := if ok then None else Some(StoreFailed);
    }

    /** The plan entry and the number of generations of level k are as before. */
    ghost predicate SameEntry(before: seq<World>, k: nat)
      reads this
    {
      && k < |levels| && k < |before|
      && levels[k].entry == before[k].entry && |levels[k].rows| == |before[k].rows| > 0
    }

    /** queryManaged for a take-profit: by client ID, and never of a row that was not sent. */
    method QueryRow(k: nat) returns (fault: Option<Fault>, missing: bool)
      requires Valid() && k < |levels| && levels[k].entry.linked && |levels[k].rows| > 0
      modifies this`levels, this`runs, this`clock, this`lookups, this`setbacks
      ensures setbacks >= old(setbacks) && (fault == None <==> setbacks == old(setbacks))
      ensures old(lookups) <= lookups && (LiveRow(old(levels)[k]) ==> LookedAt(old(lookups), lookups, k))
      ensures Valid() && LevelMoved(old(levels), levels, k) && SameEntry(old(levels), k)
      ensures missing ==> fault == Some(VenueFailed) && VenueMoved(old(levels), levels)
      ensures missing && clock - Current(k).updatedAt >= UNKNOWN_GRACE ==> AbsentAtVenue(k)
      ensures fault == None && old(Current(k)).status in {OrderProtocol.SUBMITTING, OrderProtocol.UNKNOWN} ==>
                Current(k).known && OrderProtocol.VenueStatus(Current(k).status)
    {
      hide Reached, AllReached, Reports, Executed;
      fault, missing := None, false;
      var row := levels[k].rows[|levels[k].rows| - 1];
      if row.status == OrderProtocol.PLANNED || OrderProtocol.OrderTerminal(row.status) {
        return;
      }
      var status := GetOrderStatus(k);
      assert lookups[|old(lookups)|].level == k;
      if status.Some? {
        fault := RecordResult(k, status.value);
        return;
      }
      // Not found for the whole grace period: the order never reached the exchange.
      fault, missing := Some(VenueFailed), *;
      if missing && clock - row.updatedAt >= UNKNOWN_GRACE && !AbsentNow(k) {
        missing := false;
      }
    }

    function Current(k: nat): Row
      reads this
      requires k < |levels| && |levels[k].rows| > 0
    {
      levels[k].rows[|levels[k].rows| - 1]
    }

    predicate AbsentNow(k: nat)
      reads this
      requires k < |levels|
    {
      |levels[k].venue| > 0 && (levels[k].venue[|levels[k].venue| - 1].Unsent? || levels[k].venue[|levels[k].venue| - 1].Gone?)
    }

    ghost predicate AbsentAtVenue(k: nat)
      reads this
    {
      k < |levels| && AbsentNow(k)
    }

    // ---- Evidence of fills ------------------------------------------------------------------

    /** Fills of a level's own order, read by its identity, are the only evidence of a
        take-profit. All levels are recorded in one write. */
    method RefreshTPProgress() returns (advanced: bool, fault: Option<Fault>)
      requires Valid()
      modifies this`levels, this`runs, this`clock, this`lookups, this`setbacks
      ensures setbacks >= old(setbacks) && (fault == None <==> setbacks == old(setbacks)) && old(lookups) <= lookups
      ensures Valid() && |levels| == |old(levels)|
      ensures fault == None ==> forall i :: 0 <= i < |levels| && Asked(old(levels)[i]) ==> LookedAt(old(lookups), lookups, i)
      ensures forall i :: 0 <= i < |levels| ==> |levels[i].rows| == |old(levels)[i].rows|
      ensures forall i :: 0 <= i < |levels| && !old(levels)[i].entry.ordered ==> levels[i].entry == old(levels)[i].entry
      ensures fault == None ==> forall i :: 0 <= i < |levels| ==>
                levels[i].entry == Confirmed(levels[i].(entry := old(levels)[i].entry))
      ensures fault == None ==> (advanced <==> exists i :: 0 <= i < |levels| && Advanced(old(levels)[i].entry, levels[i].entry))
      ensures fault.Some? ==> forall i :: 0 <= i < |levels| ==> levels[i].entry == old(levels)[i].entry
    {
      hide Reached, Enabled, Apply, Refresh, CurrentOk, RetiredDead, Conserved, LookedAt, Asked, Plans;
      fault := QueryOrders();
      advanced := false;
      if fault.Some? {
        return;
      }
      var plan, events;
      advanced, plan, events := Evidence();
      if plan == PlanOf(levels) {
        return;
      }
      var ok := SavePlan(plan, events);
      if !ok {
        advanced, fault := false, Some(StoreFailed);
      }
    }

    /** What the rows confirm of every level, and whether some level has new evidence. */
    method Evidence() returns (advanced: bool, plan: seq<Entry>, events: seq<Event>)
      requires Valid()
      ensures |plan| == |levels| && forall i :: 0 <= i < |plan| ==> plan[i] == Confirmed(levels[i])
      ensures Plans(levels, plan, events)
      ensures advanced <==> exists i :: 0 <= i < |levels| && Advanced(levels[i].entry, plan[i])
    {
      hide Reached, Enabled, Apply, Refresh, CurrentOk, RetiredDead, Conserved;
      advanced, plan, events := false, [], [];
      for i := 0 to |levels|
        invariant |plan| == |events| == i
        invariant forall j :: 0 <= j < i ==> plan[j] == Confirmed(levels[j]) && events[j] == Confirming(levels[j])
        invariant advanced <==> exists j :: 0 <= j < i && Advanced(levels[j].entry, plan[j])
      {
        var tp := levels[i].entry;
        var e := Restart;
        ReachedOk(initial, runs, levels, i);
        if tp.ordered && !tp.filled {
          var row := levels[i].rows[|levels[i].rows| - 1];
          var read := Read(row.executed, row.status == OrderProtocol.FILLED);
          tp, e := Refresh(tp, read), Observed(read);
        }
        advanced := advanced || Advanced(levels[i].entry, tp);
        plan, events := plan + [tp], events + [e];
      }
      forall i | 0 <= i < |levels|
        ensures Enabled(levels[i], events[i]) && Apply(levels[i], events[i]) == levels[i].(entry := plan[i])
      {
        ReachedOk(initial, runs, levels, i);
        ConfirmingEnabled(levels[i]);
      }
    }

    lemma OrderedRow(k: nat)
      requires Valid() && k < |levels| && levels[k].entry.ordered
      ensures levels[k].entry.linked && |levels[k].rows| > 0
    {
      ReachedOk(initial, runs, levels, k);
    }

    /** Looks up every order that is recorded and not filled. */
    method QueryOrders() returns (fault: Option<Fault>)
      requires Valid()
      modifies this`levels, this`runs, this`clock, this`lookups, this`setbacks
      ensures setbacks >= old(setbacks) && (fault == None <==> setbacks == old(setbacks)) && old(lookups) <= lookups
      ensures Valid() && |levels| == |old(levels)|
      ensures fault == None ==> forall i :: 0 <= i < |levels| && Asked(old(levels)[i]) ==> LookedAt(old(lookups), lookups, i)
      ensures forall i :: 0 <= i < |levels| ==>
                levels[i].entry == old(levels)[i].entry && |levels[i].rows| == |old(levels)[i].rows|
    {
      hide Reached, LookedAt, AllReached;
      fault := None;
      for i := 0 to |levels|
        invariant Valid() && |levels| == |old(levels)| && fault == None
        invariant setbacks == old(setbacks) && old(lookups) <= lookups
        invariant forall j :: 0 <= j < i && Asked(old(levels)[j]) ==> LookedAt(old(lookups), lookups, j)
        invariant forall j :: i <= j < |levels| ==> levels[j].rows == old(levels)[j].rows
        invariant forall j :: 0 <= j < |levels| ==>
                    levels[j].entry == old(levels)[j].entry && |levels[j].rows| == |old(levels)[j].rows|
      {
        if levels[i].entry.ordered && !levels[i].entry.filled {
          OrderedRow(i);
          var missing;
          ghost var looked := lookups;
          fault, missing := QueryRow(i);
          if fault.Some? {
            return;
          }
          LookedMore(old(lookups), looked, lookups);
        }
      }
    }

    // ---- One level ----------------------------------------------------------------------------

    /** The planned row is sent once: SUBMITTING is stored first, and an unclear answer is
        looked up by client ID. */
    method SubmitRow(k: nat) returns (fault: Option<Fault>)
      requires Valid() && k < |levels| && levels[k].entry.linked && !levels[k].entry.ordered && |levels[k].rows| > 0
      requires Current(k).status == OrderProtocol.PLANNED
      modifies this`levels, this`runs, this`clock, this`lookups, this`setbacks, this`requests
      ensures setbacks >= old(setbacks) && old(lookups) <= lookups
      ensures old(requests) <= requests <= old(requests) + 1 && (fault != Some(StoreFailed) ==> requests == old(requests) + 1)
      ensures Valid() && LevelMoved(old(levels), levels, k) && SameEntry(old(levels), k)
      ensures setbacks == old(setbacks) ==>
                requests == old(requests) + 1 && (fault == None || (fault == Some(OrderRejected) && RejectedRow(levels[k])))
      ensures fault == None ==> Current(k).known
    {
      hide Reached, Reports, Executed, AllReached, RejectedRow;
      var sent := SendRow(k);
      if !sent {
        return Some(StoreFailed);
      }
      fault := TakeAnswer(k);
    }

    /** What the submitted row's answer says: the order's state, a refusal, or nothing. */
    method TakeAnswer(k: nat) returns (fault: Option<Fault>)
      requires Valid() && k < |levels| && levels[k].entry.linked && !levels[k].entry.ordered && |levels[k].rows| > 0
      requires Current(k).status == OrderProtocol.SUBMITTING
      modifies this`levels, this`runs, this`clock, this`lookups, this`setbacks
      ensures setbacks >= old(setbacks) && old(lookups) <= lookups
      ensures Valid() && LevelMoved(old(levels), levels, k) && SameEntry(old(levels), k)
      ensures setbacks == old(setbacks) ==> fault == None || (fault == Some(OrderRejected) && RejectedRow(levels[k]))
      ensures fault == None ==> Current(k).known
    {
      hide Reached, Reports, Executed, AllReached;
      var status: Option<Status> := *;
      var refused: bool := *;
      if status.Some? && Reports(levels[k], status.value.state, status.value.executed) {
        fault := RecordResult(k, status.value);
        return;
      }
      if refused && AbsentNow(k) {
        var ok := Write(k, Refused);
        return Some(if ok then OrderRejected else StoreFailed);
      }
      setbacks := setbacks + 1;
      var ok := Write(k, Uncertain(clock));
      if !ok {
        return Some(StoreFailed);
      }
      var missing;
      fault, missing := QueryRow(k);
    }

    method SendRow(k: nat) returns (ok: bool)
      requires Valid() && k < |levels| && levels[k].entry.linked && |levels[k].rows| > 0
      requires Current(k).status == OrderProtocol.PLANNED
      modifies this`levels, this`runs, this`clock, this`setbacks, this`requests
      ensures setbacks == (if ok then old(setbacks) else old(setbacks) + 1)
      ensures requests == if ok then old(requests) + 1 else old(requests)
      ensures Valid() && LevelMoved(old(levels), levels, k) && SameEntry(old(levels), k)
      ensures ok ==> Current(k).status == OrderProtocol.SUBMITTING
    {
      hide Reached, Reports, Executed;
      ok := *;
      setbacks := if ok then setbacks else setbacks + 1;
      if ok {
        var begun := Apply(levels[k], BeginSubmit(clock));
        ReachedStep(initial[k], runs[k], levels[k], BeginSubmit(clock));
        ReachedStep(initial[k], runs[k] + [BeginSubmit(clock)], begun, Send);
        levels := levels[k := Apply(begun, Send)];
        runs, requests := runs[k := runs[k] + [BeginSubmit(clock)] + [Send]], requests + 1;
        Interfere();
      }
    }

    /** A level whose row is not known to be live. True lets the caller go on: the row is
        confirmed, or the level was re-planned under a new generation. */
    method SettleUnplacedTP(k: nat) returns (resubmit: bool, fault: Option<Fault>)
      requires Valid() && k < |levels| && levels[k].entry.linked && !levels[k].entry.ordered && |levels[k].rows| > 0
      requires Current(k).status != OrderProtocol.PLANNED
      modifies this`levels, this`runs, this`clock, this`lookups, this`setbacks
      ensures setbacks >= old(setbacks) && old(lookups) <= lookups
      ensures setbacks == old(setbacks) ==> fault == None && (resubmit <==> !RejectedRow(old(levels)[k]))
      ensures Valid() && LevelMoved(old(levels), levels, k) && |levels[k].rows| == |old(levels)[k].rows|
      ensures RejectedRow(old(levels)[k]) ==> RejectedRow(levels[k])
      ensures levels[k].entry == old(levels[k].entry) || levels[k].entry == old(levels[k].entry).(status := REJECTED)
              || levels[k].entry == Retire(old(levels[k].entry))
      ensures resubmit && fault == None ==> (levels[k].entry == Retire(old(levels[k].entry)) || Confirmable(k))
    {
      hide Reached, AllReached, Reports, Executed;
      var row := Current(k);
      fault, resubmit := None, true;
      match row.status
      case ABANDONED =>
        var ok := Write(k, Replanned);
        fault := if ok then None else Some(StoreFailed);
      case REJECTED =>
        var retriable: bool := *;
        var ok := Write(k, if retriable then Replanned else Marked(TPStatus.REJECTED));
        return false, if ok then None else Some(StoreFailed);
      case SUBMITTING => resubmit, fault := SettleUncertain(k);
      case UNKNOWN => resubmit, fault := SettleUncertain(k);
      case _ => ConfirmedRow(k);
    }

    /** The row is known from the exchange, so the plan may record its order. */
    ghost predicate Confirmable(k: nat)
      reads this
    {
      k < |levels| && levels[k].entry.linked && !levels[k].entry.ordered && Enabled(levels[k], Placed)
    }

    lemma ConfirmedRow(k: nat)
      requires Valid() && k < |levels| && levels[k].entry.linked && !levels[k].entry.ordered && |levels[k].rows| > 0
      ensures OrderProtocol.VenueStatus(Current(k).status) && Current(k).status != OrderProtocol.REJECTED ==> Confirmable(k)
    {
      ReachedOk(initial, runs, levels, k);
    }

    /** Queried by client ID; not found for the grace period, the row is abandoned and the
        level re-planned, two writes in this order. */
    method SettleUncertain(k: nat) returns (resubmit: bool, fault: Option<Fault>)
      requires Valid() && k < |levels| && levels[k].entry.linked && !levels[k].entry.ordered && |levels[k].rows| > 0
      requires Current(k).status in {OrderProtocol.SUBMITTING, OrderProtocol.UNKNOWN}
      modifies this`levels, this`runs, this`clock, this`lookups, this`setbacks
      ensures setbacks >= old(setbacks) && (setbacks == old(setbacks) ==> fault == None && resubmit) && old(lookups) <= lookups
      ensures Valid() && LevelMoved(old(levels), levels, k) && |levels[k].rows| == |old(levels)[k].rows|
      ensures levels[k].entry == old(levels[k].entry) || levels[k].entry == Retire(old(levels[k].entry))
      ensures resubmit && fault == None ==> (levels[k].entry == Retire(old(levels[k].entry)) || Confirmable(k))
    {
      hide Reached, AllReached, Reports, Executed;
      var missing;
      fault, missing := QueryRow(k);
      if fault == None {
        resubmit := true;
        return;
      }
      if !missing || clock - Current(k).updatedAt < UNKNOWN_GRACE {
        return false, None;
      }
      resubmit, fault := AbandonAndReplan(k);
    }

    method AbandonAndReplan(k: nat) returns (resubmit: bool, fault: Option<Fault>)
      requires Valid() && k < |levels| && levels[k].entry.linked && !levels[k].entry.ordered && |levels[k].rows| > 0
      requires Current(k).status in {OrderProtocol.SUBMITTING, OrderProtocol.UNKNOWN} && AbsentNow(k)
      modifies this`levels, this`runs, this`setbacks
      ensures setbacks >= old(setbacks)
      ensures Valid() && LevelMoved(old(levels), levels, k) && |levels[k].rows| == |old(levels)[k].rows|
      ensures levels[k].entry == if resubmit && fault == None then Retire(old(levels[k].entry)) else old(levels[k].entry)
    {
      hide Reached, AllReached, Executed;
      var ok := Write(k, Abandoned);
      if !ok {
        return false, Some(StoreFailed);
      }
      ok := Write(k, Replanned);
      return true, if ok then None else Some(StoreFailed);
    }

    /** An order whose size is not the wish is cancelled and, once the exchange confirms that
        it ended without an unrecorded fill, retired. */
    method RetireOrder(k: nat, want: real, remaining: real) returns (kept: bool, fault: Option<Fault>)
      requires Valid() && k < |levels| && levels[k].entry.ordered && !levels[k].entry.filled
      modifies this`levels, this`runs, this`clock, this`lookups, this`setbacks
      ensures setbacks >= old(setbacks) && old(lookups) <= lookups
      ensures setbacks == old(setbacks) ==> fault == None || fault == Some(FillChanged)
      ensures fault == Some(FillChanged) ==> FillSeen(old(lookups), lookups, k, old(levels[k].entry))
      ensures Valid() && |levels| == |old(levels)|
      ensures fault == None ==> LevelMoved(old(levels), levels, k) && |levels[k].rows| == |old(levels)[k].rows|
      ensures fault == None ==>
                levels[k].entry == if kept then old(levels[k].entry) else Retire(old(levels[k].entry)).(quantity := want)
      ensures kept ==> CloseEnough(want, remaining)
    {
      hide Reached, AllReached, Executed, FillSeen, LookedAt, Confirmed, Asked, Reports;
      kept, fault := false, None;
      var status := GetOrderStatus(k);
      if status.None? {
        return false, Some(VenueFailed);
      }
      if !OrderProtocol.OrderTerminal(status.value.state) && !FillNews(levels[k].entry, status.value) {
        if CloseEnough(want, remaining) {
          return true, None;
        }
        var cancelled := CancelOrder(k);
        if !cancelled {
          return false, Some(VenueFailed);
        }
        status := GetOrderStatus(k);
        if status.None? {
          return false, Some(VenueFailed);
        }
      }
      fault := EndOrder(k, status.value, want, old(lookups));
      return false, fault;
    }

    /** The last answer decides: a new fill is recorded first, a live order is left, an ended one
        retired. */
    method EndOrder(k: nat, status: Status, want: real, ghost looked: seq<Lookup>) returns (fault: Option<Fault>)
      requires Valid() && k < |levels| && levels[k].entry.ordered && !levels[k].entry.filled
      requires |looked| < |lookups| && lookups[|lookups| - 1] == Lookup(k, Some(status)) && looked <= lookups
      requires Reports(levels[k], status.state, status.executed)
      modifies this`levels, this`runs, this`clock, this`lookups, this`setbacks
      ensures setbacks >= old(setbacks) && old(lookups) <= lookups
      ensures setbacks == old(setbacks) ==> fault == None || fault == Some(FillChanged)
      ensures fault == Some(FillChanged) ==> FillSeen(looked, lookups, k, old(levels[k].entry))
      ensures Valid() && |levels| == |old(levels)|
      ensures fault == None ==> LevelMoved(old(levels), levels, k) && |levels[k].rows| == |old(levels)[k].rows|
      ensures fault == None ==> levels[k].entry == Retire(old(levels[k].entry)).(quantity := want)
    {
      hide Reached, AllReached, FillSeen, LookedAt, Confirmed, Asked;
      if FillNews(levels[k].entry, status) {
        ghost var seen := lookups;
        SeenNow(looked, seen, k, status, old(levels[k].entry));
        var advanced;
        advanced, fault := RefreshTPProgress();
        LookedMore(looked, seen, lookups);
        return Some(FillChanged);
      }
      if !OrderProtocol.OrderTerminal(status.state) {
        setbacks := setbacks + 1;
        return Some(CancelUnconfirmed);
      }
      var ok := Write(k, Retired(want));
      fault := if ok then None else Some(StoreFailed);
    }

    /** Brings one level to its wish: nothing for a filled one, else an order of that size
        under an identity that was never used before. */
    method RestoreLevel(k: nat, deferred: bool) returns (fault: Option<Fault>)
      requires Valid() && k < |levels|
      modifies this`levels, this`runs, this`clock, this`lookups, this`setbacks, this`requests
      ensures old(requests) <= requests <= old(requests) + 1
      ensures Valid() && |levels| == |old(levels)|
      ensures setbacks >= old(setbacks) && old(lookups) <= lookups
      ensures setbacks == old(setbacks) ==>
                && (fault == None || (fault == Some(FillChanged) && FillSeen(old(lookups), lookups, k, old(levels[k].entry))))
                && (fault == None && !deferred ==> Served(old(levels[k].entry), levels[k], step, minQty))
      ensures fault == None ==> levels[k].entry.desired == old(levels[k].entry.desired)
      ensures fault == None ==> LevelMoved(old(levels), levels, k)
      ensures old(levels[k].entry).filled ==> levels == old(levels) && fault == None
      ensures fault == None ==> |levels[k].rows| <= |old(levels)[k].rows| + 1
      ensures var want := InLots(Wanted(old(levels[k].entry)), step);
              && (fault == None && |levels[k].rows| > |old(levels)[k].rows| && levels[k].entry.linked ==>
                    levels[k].entry.quantity == want && want > 0.0 && want >= minQty)
              && (fault == None && |levels[k].rows| == |old(levels)[k].rows| && old(levels[k].entry).ordered
                  && levels[k].entry.ordered && !old(levels[k].entry).filled ==>
                    CloseEnough(want, Remaining(old(levels[k].entry))))
    {
      hide Reached, AllReached, Reports, Executed, CurrentOk, RetiredDead, Conserved, InLots, Wanted, Refresh;
      fault := None;
      ReachedOk(initial, runs, levels, k);
      var tp := levels[k].entry;
      if tp.filled || (!tp.ordered && !tp.linked && tp.status != PLANNED && tp.status != PLACEMENT_FAILED) {
        return;
      }
      var want := InLots(Wanted(tp), step);
      if tp.ordered {
        var kept;
        kept, fault := RetireOrder(k, want, Remaining(tp));
        if fault.Some? || kept {
          return;
        }
      }
      fault := PlaceLevel(k, want, deferred);
    }

    /** A level without a recorded order: too small, already under way, or to be submitted. */
    method PlaceLevel(k: nat, want: real, deferred: bool) returns (fault: Option<Fault>)
      requires Valid() && k < |levels| && !levels[k].entry.ordered && !levels[k].entry.filled
      requires levels[k].entry.linked ==> |levels[k].rows| > 0
      requires !levels[k].entry.linked ==> levels[k].entry.status == PLANNED || levels[k].entry.status == PLACEMENT_FAILED
      modifies this`levels, this`runs, this`clock, this`lookups, this`setbacks, this`requests
      ensures old(requests) <= requests <= old(requests) + 1
      ensures Valid() && LevelMoved(old(levels), levels, k)
      ensures setbacks >= old(setbacks) && old(lookups) <= lookups
      ensures setbacks == old(setbacks) ==>
                && fault == None
                && (!deferred && want > 0.0 && want >= minQty ==> levels[k].entry.ordered || RejectedRow(levels[k]))
      ensures levels[k].entry.desired == old(levels[k].entry.desired)
      ensures |old(levels)[k].rows| <= |levels[k].rows| <= |old(levels)[k].rows| + 1
      ensures |levels[k].rows| > |old(levels)[k].rows| && levels[k].entry.linked ==>
                levels[k].entry.quantity == want && want > 0.0 && want >= minQty
      ensures |levels[k].rows| == |old(levels)[k].rows| && !old(levels[k].entry.linked) ==> !levels[k].entry.ordered
    {
      hide Reached, AllReached, Reports, Executed, CurrentOk, RetiredDead, Conserved, Refresh;
      if want <= 0.0 || want < minQty {
        var ok := Write(k, Marked(BELOW_MINIMUM));
        return if ok then None else Some(StoreFailed);
      }
      if levels[k].entry.linked && Current(k).status != OrderProtocol.PLANNED {
        var resubmit;
        resubmit, fault := SettleUnplacedTP(k);
        if fault.Some? || !resubmit {
          return;
        }
        if levels[k].entry.linked {
          var ok := Write(k, Placed);
          return if ok then None else Some(StoreFailed);
        }
      }
      fault := SubmitLevel(k, want, deferred);
    }

    /** Stores the row and the plan's link to it in one write, unless that was done before a
        crash, then sends it. */
    method SubmitLevel(k: nat, want: real, deferred: bool) returns (fault: Option<Fault>)
      requires Valid() && k < |levels| && want > 0.0 && !levels[k].entry.ordered && !levels[k].entry.filled
      requires levels[k].entry.linked ==> |levels[k].rows| > 0 && Current(k).status == OrderProtocol.PLANNED
      requires !levels[k].entry.linked ==> levels[k].entry.status == PLANNED || levels[k].entry.status == PLACEMENT_FAILED
      modifies this`levels, this`runs, this`clock, this`lookups, this`setbacks, this`requests
      ensures old(requests) <= requests <= old(requests) + 1
      ensures Valid() && LevelMoved(old(levels), levels, k)
      ensures setbacks >= old(setbacks) && old(lookups) <= lookups
      ensures setbacks == old(setbacks) ==>
                && fault == None
                && (!deferred || old(levels[k].entry.linked) ==> levels[k].entry.ordered || RejectedRow(levels[k]))
      ensures levels[k].entry.desired == old(levels[k].entry.desired)
      ensures |old(levels)[k].rows| <= |levels[k].rows| <= |old(levels)[k].rows| + 1
      ensures |levels[k].rows| > |old(levels)[k].rows| && levels[k].entry.linked ==> levels[k].entry.quantity == want
      ensures |levels[k].rows| == |old(levels)[k].rows| && !old(levels[k].entry.linked) ==>
                levels[k].entry == old(levels[k].entry)
    {
      hide Reached, Reports, Executed, Refresh, AllReached;
      if !levels[k].entry.linked {
        if deferred {
          return None;
        }
        var ok := Write(k, Created(want, clock));
        if !ok {
          return Some(StoreFailed);
        }
      }
      fault := SendLinked(k);
    }

    /** The linked row is sent, and its order recorded once the exchange confirms it. */
    method SendLinked(k: nat) returns (fault: Option<Fault>)
      requires Valid() && k < |levels| && levels[k].entry.linked && !levels[k].entry.ordered && !levels[k].entry.filled
      requires |levels[k].rows| > 0 && Current(k).status == OrderProtocol.PLANNED
      modifies this`levels, this`runs, this`clock, this`lookups, this`setbacks, this`requests
      ensures setbacks >= old(setbacks) && old(lookups) <= lookups
      ensures old(requests) <= requests <= old(requests) + 1
      ensures Valid() && LevelMoved(old(levels), levels, k) && |levels[k].rows| == |old(levels)[k].rows|
      ensures setbacks == old(setbacks) ==> fault == None && (levels[k].entry.ordered || RejectedRow(levels[k]))
      ensures levels[k].entry.desired == old(levels[k].entry.desired) && levels[k].entry.quantity == old(levels[k].entry.quantity)
    {
      hide Reached, Reports, Executed, AllReached;
      fault := SubmitRow(k);
      if fault.Some? {
        if Current(k).status == OrderProtocol.REJECTED {
          var resubmit;
          resubmit, fault := SettleUnplacedTP(k);
        } else if Current(k).status == OrderProtocol.UNKNOWN {
          fault := None;
        }
        return;
      }
      PlaceableRow(k);
      var ok := Write(k, Placed);
      fault := if ok then None else Some(StoreFailed);
    }

    lemma PlaceableRow(k: nat)
      requires Valid() && k < |levels| && levels[k].entry.linked && !levels[k].entry.ordered && |levels[k].rows| > 0
      requires Current(k).known
      ensures Confirmable(k)
    {
      ReachedOk(initial, runs, levels, k);
    }

    // ---- The whole ladder ----------------------------------------------------------------------

    /** Sizes every open level for the position, and stores the sizes, the stamps of the
        fills they reflect and the position in one write. */
    method Resize(qty: real, scale: real) returns (ok: bool)
      requires Valid()
      modifies this`levels, this`runs, this`syncedQty, this`setbacks
      ensures setbacks == if ok then old(setbacks) else old(setbacks) + 1
      ensures Valid()
      ensures ok ==> levels == WithPlan(old(levels), StampSync(RescaledInLots(PlanOf(old(levels)), scale, step)))
      ensures ok ==> syncedQty == qty
      ensures !ok ==> levels == old(levels) && syncedQty == old(syncedQty)
    {
      hide Reached, AllReached;
      var plan: seq<Entry>, events: seq<Event> := [], [];
      var now := levels;
      var sized := StampSync(RescaledInLots(PlanOf(now), scale, step));
      for i := 0 to |now|
        invariant Valid() && levels == now && |plan| == |events| == i && syncedQty == old(syncedQty) && setbacks == old(setbacks)
        invariant plan == sized[..i]
        invariant forall j :: 0 <= j < i ==> events[j] == Sized(sized[j].desired, sized[j].synced)
      {
        var tp := now[i].entry;
        if !tp.filled {
          var want := InLots(Times(Remaining(tp), scale), step);
          tp := tp.(desired := Some(want));
        }
        tp := tp.(synced := Some(CumulativeFill(tp)));
        plan, events := plan + [tp], events + [Sized(tp.desired, tp.synced)];
      }
      ok := SavePlan(plan, events);
      if ok {
        syncedQty := qty;
      }
    }

    method Stamp(qty: real) returns (ok: bool)
      requires Valid()
      modifies this`levels, this`runs, this`syncedQty, this`setbacks
      ensures setbacks == if ok then old(setbacks) else old(setbacks) + 1
      ensures Valid()
      ensures ok ==> levels == WithPlan(old(levels), StampSync(PlanOf(old(levels)))) && syncedQty == qty
      ensures !ok ==> levels == old(levels) && syncedQty == old(syncedQty)
    {
      hide Reached, AllReached;
      var plan: seq<Entry>, events: seq<Event> := [], [];
      var now := levels;
      for i := 0 to |now|
        invariant Valid() && levels == now && |plan| == |events| == i && syncedQty == old(syncedQty) && setbacks == old(setbacks)
        invariant plan == StampSync(PlanOf(now))[..i]
        invariant forall j :: 0 <= j < i ==> events[j] == Sized(plan[j].desired, plan[j].synced)
      {
        var tp := now[i].entry;
        tp := tp.(synced := Some(CumulativeFill(tp)));
        plan, events := plan + [tp], events + [Sized(tp.desired, tp.synced)];
      }
      ok := SavePlan(plan, events);
      if ok {
        syncedQty := qty;
      }
    }

    method TotalOpen() returns (total: real)
      ensures total == Total(PlanOf(levels))
    {
      var plan := PlanOf(levels);
      total := 0.0;
      for i := 0 to |levels|
        invariant total == Total(plan[..i])
      {
        assert plan[..i + 1][..i] == plan[..i];
        if !levels[i].entry.filled {
          total := total + Max(0.0, levels[i].entry.quantity - levels[i].entry.filledQty);
        }
      }
      assert plan[..|plan|] == plan;
    }

    /** Brings every level to its size, one after the other. */
    method RestoreLevels(deferred: set<nat>) returns (fault: Option<Fault>)
      requires Valid()
      modifies this`levels, this`runs, this`clock, this`lookups, this`setbacks, this`requests
      ensures Valid() && |levels| == |old(levels)| && requests <= old(requests) + |levels|
      ensures setbacks >= old(setbacks) && old(lookups) <= lookups
      ensures setbacks == old(setbacks) ==> fault == None || fault == Some(FillChanged)
      ensures setbacks == old(setbacks) && fault == Some(FillChanged) ==> SomeFillSeen(old(lookups), lookups, PlanOf(old(levels)))
      ensures fault == None ==> AsSized(levels, PlanOf(old(levels)))
      ensures setbacks == old(setbacks) && fault == None ==>
                forall i :: 0 <= i < |levels| && i !in deferred ==> Served(old(levels)[i].entry, levels[i], step, minQty)
    {
      hide Reached, AllReached, InLots, Wanted, Remaining, CloseEnough, Served, RejectedRow, FillSeen;
      fault := None;
      var n := |levels|;
      for i := 0 to n
        invariant Valid() && |levels| == n == |old(levels)| && fault == None && requests <= old(requests) + i
        invariant setbacks >= old(setbacks) && old(lookups) <= lookups
        invariant AsSized(levels, PlanOf(old(levels)))
        invariant forall j :: i <= j < n ==> levels[j].entry == old(levels)[j].entry
        invariant setbacks == old(setbacks) ==>
                    forall j :: 0 <= j < i && j !in deferred ==> Served(old(levels)[j].entry, levels[j], step, minQty)
      {
        ghost var before, seen := levels, lookups;
        fault := RestoreLevel(i, i in deferred);
        LookedMore(old(lookups), seen, lookups);
        if fault.Some? {
          return;
        }
        ServedStill(old(levels), before, levels, i, step, minQty);
      }
    }

    /** The ladder with something open is sized for the position, brought to its sizes and
        stamped. sized is the plan with the sizes. */
    method SizeAndPlace(qty: real, total: real, deferred: set<nat>) returns (fault: Option<Fault>, ghost sized: seq<Entry>)
      requires Valid() && qty > 0.0 && total == Total(PlanOf(levels)) > 0.0
      modifies this
      ensures Valid() && |levels| == |old(levels)| == |sized| && requests <= old(requests) + |levels|
      ensures setbacks >= old(setbacks) && old(lookups) <= lookups
      ensures setbacks == old(setbacks) ==>
                fault == None || (fault == Some(FillChanged) && SomeFillSeen(old(lookups), lookups, sized))
      ensures old(syncedQty) == qty ==> sized == PlanOf(old(levels))
      ensures (setbacks == old(setbacks) || fault == None) && old(syncedQty) != qty ==>
                SizedBy(PlanOf(old(levels)), sized, qty, Reference(PlanOf(old(levels)), old(syncedQty), qty), step)
      ensures fault == None ==>
                && AsSized(levels, sized) && syncedQty == qty
                && forall i :: 0 <= i < |levels| ==> levels[i].entry.synced == Some(CumulativeFill(levels[i].entry))
      ensures fault == None && old(syncedQty) == 0.0 && total <= qty ==>
                forall i :: 0 <= i < |levels| && !levels[i].entry.filled ==>
                              levels[i].entry.desired == Some(InLots(Remaining(old(levels)[i].entry), step))
      ensures fault == None && old(syncedQty) != qty
              && (!Unguarded(PlanOf(old(levels)), old(syncedQty), qty) || total <= old(syncedQty)) ==>
                TotalWanted(PlanOf(levels)) <= qty
      ensures setbacks == old(setbacks) && fault == None ==>
                forall i :: 0 <= i < |levels| && i !in deferred ==> Served(sized[i], levels[i], step, minQty)
    {
      hide Reached, AllReached, Total, TotalWanted, StampSync, RescaledInLots, TpRescale, Unguarded, InLots, Served,
        Reference, SizedBy, Remaining, Wanted, CumulativeFill, AsSized;
      ghost var read := PlanOf(levels);
      sized := read;
      if syncedQty != qty {
        var ok := Resize(qty, TpRescale(syncedQty, qty, total, PlanOf(levels)));
        if !ok {
          return Some(StoreFailed), sized;
        }
        sized := PlanOf(levels);
        SizedExact(read, sized, old(syncedQty), qty, step);
      }
      fault := RestoreLevels(deferred);
      if fault.Some? {
        return;
      }
      ghost var placed := levels;
      var ok := Stamp(qty);
      if !ok {
        return Some(StoreFailed), sized;
      }
      StampedLevels(placed, levels, sized, step, minQty);
      Fitting(levels, read, sized, old(syncedQty), qty, step);
    }

    /** After every fill or change of the position: record the fills, size the open levels for
        the position, bring each to its size, and stamp what this size reflects. looked is the
        ladder as it was looked up, read the plan with these fills, sized the plan as sized.
        deferred are the levels that wait for the exchange or for their price band. */
    method RestoreRemainingProtections(qty: real, deferred: set<nat>)
      returns (fault: Option<Fault>, ghost looked: seq<World>, ghost read: seq<Entry>, ghost sized: seq<Entry>)
      requires Valid()
      modifies this
      ensures Valid() && |levels| == |old(levels)| == |looked| == |read| == |sized| && requests <= old(requests) + |levels|
      ensures setbacks >= old(setbacks) && old(lookups) <= lookups
      ensures setbacks == old(setbacks) ==>
                fault == None || (fault == Some(FillChanged) && SomeFillSeen(old(lookups), lookups, sized))
      ensures qty <= 0.0 ==> fault == None && levels == old(levels) && syncedQty == old(syncedQty)
      // The fills are read first.
      ensures forall i :: 0 <= i < |read| ==> read[i].synced == old(levels)[i].entry.synced
      ensures setbacks == old(setbacks) && qty > 0.0 ==>
                forall i :: 0 <= i < |read| ==>
                              && read[i] == Confirmed(looked[i].(entry := old(levels)[i].entry))
                              && (Asked(old(levels)[i]) ==> LookedAt(old(lookups), lookups, i))
      // Then every open level is sized for the position.
      ensures setbacks == old(setbacks) && qty > 0.0 && Total(read) > 0.0 && old(syncedQty) == qty ==> sized == read
      ensures (setbacks == old(setbacks) || fault == None) && qty > 0.0 && Total(read) > 0.0 && old(syncedQty) != qty ==>
                SizedBy(read, sized, qty, Reference(read, old(syncedQty), qty), step)
      ensures fault == None && qty > 0.0 && Total(read) > 0.0 ==> AsSized(levels, sized)
      ensures fault == None && old(syncedQty) == 0.0 && 0.0 < Total(read) <= qty ==>
                forall i :: 0 <= i < |levels| && !levels[i].entry.filled ==>
                              levels[i].entry.desired == Some(InLots(Remaining(read[i]), step))
      ensures fault == None && qty > 0.0 && old(syncedQty) != qty && Total(read) > 0.0
              && (!Unguarded(read, old(syncedQty), qty) || Total(read) <= old(syncedQty)) ==>
                TotalWanted(PlanOf(levels)) <= qty
      // Then every level is brought to its size, and the fills that it reflects are stamped.
      ensures setbacks == old(setbacks) && fault == None && qty > 0.0 && Total(read) > 0.0 ==>
                forall i :: 0 <= i < |levels| && i !in deferred ==> Served(sized[i], levels[i], step, minQty)
      ensures fault == None && qty > 0.0 && (Total(read) > 0.0 || syncedQty != old(syncedQty)) ==>
                && syncedQty == qty
                && forall i :: 0 <= i < |levels| ==> levels[i].entry.synced == Some(CumulativeFill(levels[i].entry))
    {
      hide Reached, AllReached, Total, TotalWanted, Unguarded, InLots, Served, LookedAt, FillSeen, Asked, Reference, Confirmed, SizedBy,
        Remaining, Wanted, CumulativeFill, AsSized;
      fault, looked, read, sized := None, levels, PlanOf(levels), PlanOf(levels);
      if qty <= 0.0 {
        return;
      }
      var advanced;
      advanced, fault := RefreshTPProgress();
      looked, read, sized := levels, PlanOf(levels), PlanOf(levels);
      if fault.Some? {
        return;
      }
      ConfirmedEntries(old(levels), levels);
      ghost var seen := lookups;
      var total := TotalOpen();
      if total <= 0.0 {
        return;
      }
      fault, sized := SizeAndPlace(qty, total, deferred);
      LookedMore(old(lookups), seen, lookups);
    }
  }
}
