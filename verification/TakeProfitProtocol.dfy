/** The life of one take-profit level: its plan entry, one ledger row per generation, and
    what the exchange holds for each generation. Orders are cancelled and replaced while the
    exchange may fill them, and a crash may follow any event. */
module TakeProfitProtocol {
  import opened Prelude
  import OrderProtocol
  import opened TakeProfitScale

  /** A fill this small is not seen when an order is retired. */
  const FILL_TOLERANCE: real := 0.000000000001

  datatype Row = Row(status: OrderProtocol.Status, known: bool, qty: real, executed: real, updatedAt: int)

  /** What the exchange has of one generation. */
  datatype Side = Unsent | InFlight | Gone | Open(executed: real) | Ended(executed: real)

  datatype World = World(entry: Entry, rows: seq<Row>, venue: seq<Side>, pending: bool)

  datatype Event =
    | Restart
    | Sized(desired: Option<real>, synced: Option<real>)
    | Marked(mark: TPStatus)
    | Observed(read: Read)
    | Retired(want: real)
    | Replanned
    | Created(want: real, at: int)
    | Placed
    | BeginSubmit(at: int)
    | Send
    | Refused
    | Uncertain(at: int)
    | Recorded(status: OrderProtocol.Status, executed: real)
    | Abandoned
      // moves of the exchange
    | Lands(k: nat)
    | Lost(k: nat)
    | Fills(k: nat, qty: real)
    | Ends(k: nat)

  predicate VenueEvent(e: Event) {
    e.Lands? || e.Lost? || e.Fills? || e.Ends?
  }

  function Executed(s: Side): real {
    if s.Open? || s.Ended? then s.executed else 0.0
  }

  predicate Landed(s: Side) {
    s.Open? || s.Ended?
  }

  predicate Live(s: Side) {
    s.InFlight? || s.Open?
  }

  /** A truthful account of the current order: fills it already had, an end only once it
      ended; a filled order filled completely and a rejected one not at all. */
  predicate Reports(w: World, status: OrderProtocol.Status, executed: real) {
    && |w.rows| == |w.venue| > 0
    && var side, row := w.venue[|w.venue| - 1], w.rows[|w.rows| - 1];
    && Landed(side) && OrderProtocol.VenueStatus(status) && 0.0 <= executed <= side.executed
    && (OrderProtocol.OrderTerminal(status) ==> side == Ended(executed))
    && (status == OrderProtocol.FILLED ==> executed == row.qty)
    && (status == OrderProtocol.REJECTED ==> executed == 0.0)
  }

  predicate Enabled(w: World, e: Event) {
    && |w.rows| == |w.venue|
    && (w.pending ==> e.Restart? || e.Send? || VenueEvent(e))
    && var n := |w.rows|;
    && match e
       case Restart => true
       case Sized(desired, synced) => true
       case Marked(mark) => mark == BELOW_MINIMUM || mark == REJECTED
       case Observed(read) =>
         && w.entry.ordered && !w.entry.filled && w.entry.linked && n > 0
         && Reports(w, if read.final then OrderProtocol.FILLED else OrderProtocol.NEW, read.executed)
       case Retired(want) =>
         && w.entry.ordered && !w.entry.filled && n > 0 && w.venue[n - 1].Ended?
         && w.venue[n - 1].executed <= w.entry.filledQty + FILL_TOLERANCE
       case Replanned =>
         && w.entry.linked && !w.entry.ordered && n > 0
         && (w.rows[n - 1].status == OrderProtocol.ABANDONED || w.rows[n - 1].status == OrderProtocol.REJECTED)
       case Created(want, at) =>
         && !w.entry.linked && !w.entry.ordered && !w.entry.filled && want > 0.0
         && (w.entry.status == PLANNED || w.entry.status == PLACEMENT_FAILED)
       case Placed =>
         && w.entry.linked && !w.entry.ordered && n > 0 && w.rows[n - 1].known
         && OrderProtocol.VenueStatus(w.rows[n - 1].status)
       case BeginSubmit(at) => w.entry.linked && n > 0 && w.rows[n - 1].status == OrderProtocol.PLANNED
       case Send => w.pending && n > 0
       case Refused =>
         w.entry.linked && n > 0 && w.rows[n - 1].status == OrderProtocol.SUBMITTING &&
         (w.venue[n - 1].Unsent? || w.venue[n - 1].Gone?)
       case Uncertain(at) => w.entry.linked && n > 0 && w.rows[n - 1].status == OrderProtocol.SUBMITTING
       case Recorded(status, executed) =>
         && w.entry.linked && n > 0 && Reports(w, status, executed)
         && w.rows[n - 1].status != OrderProtocol.PLANNED && !OrderProtocol.OrderTerminal(w.rows[n - 1].status)
         && w.rows[n - 1].executed <= executed + TOLERANCE
       case Abandoned =>
         && w.entry.linked && n > 0
         && (w.rows[n - 1].status == OrderProtocol.PLANNED ||
             ((w.rows[n - 1].status == OrderProtocol.SUBMITTING || w.rows[n - 1].status == OrderProtocol.UNKNOWN)
              && (w.venue[n - 1].Unsent? || w.venue[n - 1].Gone?)))
       case Lands(k) => k < n && w.venue[k].InFlight?
       case Lost(k) => k < n && w.venue[k].InFlight?
       case Fills(k, qty) => k < n && w.venue[k].Open? && 0.0 < qty && w.venue[k].executed + qty <= w.rows[k].qty
       case Ends(k) => k < n && w.venue[k].Open?
  }

  /** The current identity goes, its fills stay, and the next generation may be submitted. */
  function Retire(e: Entry): Entry {
    e.(prior := e.prior + e.filledQty, filledQty := 0.0, ordered := false, linked := false,
    generation := e.generation + 1, status := PLANNED)
  }

  function SetLast(w: World, row: Row): World
    requires |w.rows| > 0
  {
    w.(rows := w.rows[|w.rows| - 1 := row])
  }

  function Apply(w: World, e: Event): World
    requires Enabled(w, e)
  {
    var n := |w.rows|;
    match e
    case Restart => w.(pending := false)
    case Sized(desired, synced) => w.(entry := w.entry.(desired := desired, synced := synced))
    case Marked(mark) => w.(entry := w.entry.(status := mark))
    case Observed(read) => w.(entry := Refresh(w.entry, read))
    case Retired(want) => w.(entry := Retire(w.entry).(quantity := want))
    case Replanned => w.(entry := Retire(w.entry))
    case Created(want, at) =>
      w.(entry := w.entry.(linked := true, quantity := want),
      rows := w.rows + [Row(OrderProtocol.PLANNED, false, want, 0.0, at)], venue := w.venue + [Unsent])
    case Placed =>
      var row := w.rows[n - 1];
      w.(entry := w.entry.(ordered := true, status := OTHER, filledQty := row.executed,
      filled := row.status == OrderProtocol.FILLED))
    case BeginSubmit(at) =>
      SetLast(w, w.rows[n - 1].(status := OrderProtocol.SUBMITTING, updatedAt := at)).(pending := true)
    case Send => w.(pending := false, venue := w.venue[n - 1 := InFlight])
    case Refused => SetLast(w, w.rows[n - 1].(status := OrderProtocol.REJECTED))
    case Uncertain(at) => SetLast(w, w.rows[n - 1].(status := OrderProtocol.UNKNOWN, updatedAt := at))
    case Recorded(status, executed) =>
      SetLast(w, w.rows[n - 1].(known := true, status := status, executed := executed))
    case Abandoned => SetLast(w, w.rows[n - 1].(status := OrderProtocol.ABANDONED))
    case Lands(k) => w.(venue := w.venue[k := Open(0.0)])
    case Lost(k) => w.(venue := w.venue[k := Gone])
    case Fills(k, qty) => w.(venue := w.venue[k := Open(w.venue[k].executed + qty)])
    case Ends(k) => w.(venue := w.venue[k := Ended(w.venue[k].executed)])
  }

  /** A planned level. */
  predicate Init(w: World) {
    && w.rows == [] && w.venue == [] && !w.pending
    && w.entry.generation == 0 && !w.entry.linked && !w.entry.ordered && !w.entry.filled
    && w.entry.filledQty == 0.0 && w.entry.prior == 0.0 && w.entry.quantity > 0.0
  }

  ghost function After(w: World, run: seq<Event>): World {
    if run == [] then w
    else
      var before := After(w, run[..|run| - 1]);
      if Enabled(before, run[|run| - 1]) then Apply(before, run[|run| - 1]) else before
  }

  ghost predicate Legal(w: World, run: seq<Event>) {
    run == [] ||
    (Legal(w, run[..|run| - 1]) && Enabled(After(w, run[..|run| - 1]), run[|run| - 1]))
  }

  lemma Extend(w: World, run: seq<Event>, e: Event)
    requires Legal(w, run) && Enabled(After(w, run), e)
    ensures Legal(w, run + [e]) && After(w, run + [e]) == Apply(After(w, run), e)
  {
    assert (run + [e])[..|run|] == run;
  }

  // ---- What holds in every reachable state ---------------------------------------------

  /** Everything the exchange executed for the first n generations. */
  function Final(venue: seq<Side>, n: nat): real
    requires n <= |venue|
  {
    if n == 0 then 0.0 else Final(venue, n - 1) + Executed(venue[n - 1])
  }

  function Slack(n: nat): real {
    n as real * FILL_TOLERANCE
  }

  ghost predicate Shape(w: World) {
    && |w.rows| == |w.venue| == w.entry.generation + (if w.entry.linked then 1 else 0)
    && (w.entry.ordered ==> w.entry.linked) && (w.entry.filled ==> w.entry.ordered)
    && (!w.entry.ordered ==> w.entry.filledQty == 0.0)
    && (w.pending ==> w.entry.linked)
  }

  /** The current order and its row agree with the exchange. */
  ghost predicate CurrentOk(w: World)
    requires |w.rows| == |w.venue|
  {
    w.entry.linked && |w.rows| > 0 ==>
      var side, row := w.venue[|w.venue| - 1], w.rows[|w.rows| - 1];
      && w.entry.quantity == row.qty && 0.0 <= Executed(side) <= row.qty
      && 0.0 <= row.executed <= Executed(side)
      && (row.status == OrderProtocol.PLANNED ==> side == Unsent && !w.pending)
      && (w.pending ==> row.status == OrderProtocol.SUBMITTING && side == Unsent)
      && (row.known ==> Landed(side) && OrderProtocol.VenueStatus(row.status))
      && (OrderProtocol.VenueStatus(row.status) && row.status != OrderProtocol.REJECTED ==> row.known)
      && (OrderProtocol.OrderTerminal(row.status) ==> !Live(side))
      && (row.status == OrderProtocol.FILLED ==> row.executed == row.qty == Executed(side))
      && (row.status == OrderProtocol.ABANDONED || row.status == OrderProtocol.REJECTED ==> Executed(side) == 0.0)
      && (w.entry.ordered ==> row.known && 0.0 <= w.entry.filledQty <= Executed(side))
      && (w.entry.filled ==> w.entry.filledQty == w.entry.quantity && !Live(side))
  }

  ghost predicate RetiredDead(w: World)
    requires w.entry.generation <= |w.venue|
  {
    forall k :: 0 <= k < w.entry.generation ==> !Live(w.venue[k])
  }

  ghost predicate Conserved(w: World)
    requires w.entry.generation <= |w.venue|
  {
    var final := Final(w.venue, w.entry.generation);
    w.entry.prior <= final <= w.entry.prior + Slack(w.entry.generation)
  }

  ghost predicate LevelOk(w: World) {
    Shape(w) && CurrentOk(w) && RetiredDead(w) && Conserved(w)
  }

  lemma FinalFrame(a: seq<Side>, b: seq<Side>, n: nat)
    requires n <= |a| && n <= |b| && forall k :: 0 <= k < n ==> Executed(a[k]) == Executed(b[k])
    ensures Final(a, n) == Final(b, n)
  {
    if n > 0 {
      FinalFrame(a, b, n - 1);
    }
  }

  lemma ShapeStep(w: World, e: Event)
    requires Shape(w) && CurrentOk(w) && Enabled(w, e)
    ensures Shape(Apply(w, e))
  {
  }

  /** Retired generations are dead, so the exchange moves only the current order. */
  lemma RetiredStep(w: World, e: Event)
    requires Shape(w) && CurrentOk(w) && RetiredDead(w) && Enabled(w, e)
    ensures w.entry.generation <= Apply(w, e).entry.generation <= |Apply(w, e).venue| && RetiredDead(Apply(w, e))
    ensures forall k :: 0 <= k < w.entry.generation ==> Apply(w, e).venue[k] == w.venue[k]
  {
  }

  /** Retiring adds exactly what the current order finally executed, up to the tolerance; no
      other event changes what retired generations executed. */
  lemma ConservedStep(w: World, e: Event)
    requires LevelOk(w) && Enabled(w, e)
    ensures Apply(w, e).entry.generation <= |Apply(w, e).venue| && Conserved(Apply(w, e))
  {
    var v, g := Apply(w, e), w.entry.generation;
    RetiredStep(w, e);
    FinalFrame(w.venue, v.venue, g);
    if e.Retired? || e.Replanned? {
      assert Slack(g + 1) == Slack(g) + FILL_TOLERANCE;
    }
  }

  /** A new generation starts clean, a retired one is no longer current. */
  lemma CurrentTurn(w: World, e: Event)
    requires Shape(w) && CurrentOk(w) && Enabled(w, e) && (e.Created? || e.Retired? || e.Replanned?)
    ensures |Apply(w, e).rows| == |Apply(w, e).venue| && CurrentOk(Apply(w, e))
  {
  }

  lemma CurrentVenue(w: World, e: Event)
    requires Shape(w) && CurrentOk(w) && Enabled(w, e) && VenueEvent(e)
    ensures |Apply(w, e).rows| == |Apply(w, e).venue| && CurrentOk(Apply(w, e))
  {
  }

  lemma CurrentRow(w: World, e: Event)
    requires Shape(w) && CurrentOk(w) && Enabled(w, e)
    requires !e.Created? && !e.Retired? && !e.Replanned? && !VenueEvent(e)
    ensures |Apply(w, e).rows| == |Apply(w, e).venue| && CurrentOk(Apply(w, e))
  {
  }

  lemma CurrentStep(w: World, e: Event)
    requires Shape(w) && CurrentOk(w) && Enabled(w, e)
    ensures |Apply(w, e).rows| == |Apply(w, e).venue| && CurrentOk(Apply(w, e))
  {
    hide Shape, CurrentOk, Enabled, Apply;
    if e.Created? || e.Retired? || e.Replanned? {
      CurrentTurn(w, e);
    } else if VenueEvent(e) {
      CurrentVenue(w, e);
    } else {
      CurrentRow(w, e);
    }
  }

  lemma LevelStep(w: World, e: Event)
    requires LevelOk(w) && Enabled(w, e)
    ensures LevelOk(Apply(w, e))
  {
    ShapeStep(w, e);
    CurrentStep(w, e);
    RetiredStep(w, e);
    ConservedStep(w, e);
  }

  lemma {:induction false} AlwaysOk(w: World, run: seq<Event>)
    requires Init(w) && Legal(w, run)
    ensures LevelOk(After(w, run))
  {
    if run != [] {
      AlwaysOk(w, run[..|run| - 1]);
      LevelStep(After(w, run[..|run| - 1]), run[|run| - 1]);
    }
  }

  /** Over any run, crashes included, at most one order of a level is live at the exchange or
      on its way there, and it is the one the plan names. */
  lemma {:induction false} OneLiveOrder(w: World, run: seq<Event>, i: nat, j: nat)
    requires Init(w) && Legal(w, run) && i < |After(w, run).venue| && j < |After(w, run).venue|
    requires Live(After(w, run).venue[i])
    ensures After(w, run).entry.linked && i == After(w, run).entry.generation
    ensures Live(After(w, run).venue[j]) ==> i == j
  {
    AlwaysOk(w, run);
  }

  /** The prior total is what all retired generations finally executed, each counted once,
      up to the tolerance per generation; what is counted was executed. */
  lemma {:induction false} FillsConserved(w: World, run: seq<Event>)
    requires Init(w) && Legal(w, run)
    ensures var v := After(w, run);
            && v.entry.generation <= |v.venue|
            && v.entry.prior <= Final(v.venue, v.entry.generation) <= v.entry.prior + Slack(v.entry.generation)
            && CumulativeFill(v.entry) <= Final(v.venue, |v.venue|)
  {
    AlwaysOk(w, run);
  }

  /** What a retired generation executed is final: no later event changes it. */
  lemma {:induction false} RetiredIsFinal(w: World, run: seq<Event>, more: seq<Event>, k: nat)
    requires Init(w) && Legal(w, run + more) && k < After(w, run).entry.generation
    ensures k < |After(w, run).venue| && k < |After(w, run + more).venue|
    ensures After(w, run + more).venue[k] == After(w, run).venue[k]
    ensures k < After(w, run + more).entry.generation
    decreases |more|
  {
    if more == [] {
      assert run + more == run;
      AlwaysOk(w, run);
    } else {
      var shorter := more[..|more| - 1];
      assert (run + more)[..|run + more| - 1] == run + shorter;
      assert (run + more)[|run + more| - 1] == more[|more| - 1];
      hide Enabled, Apply;
      RetiredIsFinal(w, run, shorter, k);
      AlwaysOk(w, run + shorter);
      RetiredStep(After(w, run + shorter), more[|more| - 1]);
    }
  }

  // ---- One request per client ID ------------------------------------------------------------

  /** What was sent once is never unsent again, and generations only grow. */
  ghost predicate Onward(w: World, v: World) {
    && w.entry.generation <= v.entry.generation && |w.venue| <= |v.venue|
    && forall k :: 0 <= k < |w.venue| && !w.venue[k].Unsent? ==> !v.venue[k].Unsent?
  }

  lemma OnwardStep(u: World, w: World, e: Event)
    requires Onward(u, w) && LevelOk(w) && Enabled(w, e)
    ensures Onward(u, Apply(w, e))
  {
  }

  lemma {:induction false} OnwardAlways(w: World, run: seq<Event>, n: nat)
    requires Init(w) && Legal(w, run) && n <= |run|
    ensures Onward(After(w, run[..n]), After(w, run))
  {
    if n == |run| {
      assert run[..n] == run;
    } else {
      var before := run[..|run| - 1];
      assert before[..n] == run[..n];
      OnwardAlways(w, before, n);
      AlwaysOk(w, before);
      hide LevelOk, Enabled, Apply, Init, Onward;
      OnwardStep(After(w, run[..n]), After(w, before), run[|run| - 1]);
    }
  }

  lemma SendMarks(w: World)
    requires LevelOk(w) && Enabled(w, Send)
    ensures w.entry.linked && |w.venue| == w.entry.generation + 1 && w.venue[w.entry.generation].Unsent?
    ensures var v := Apply(w, Send);
            v.entry == w.entry && |v.venue| == |w.venue| && !v.venue[w.entry.generation].Unsent?
  {
  }

  lemma {:induction false} LegalPrefix(w: World, run: seq<Event>, n: nat)
    requires Legal(w, run) && n <= |run|
    ensures Legal(w, run[..n])
  {
    if n == |run| {
      assert run[..n] == run;
    } else {
      assert run[..|run| - 1][..n] == run[..n];
      LegalPrefix(w, run[..|run| - 1], n);
    }
  }

  lemma SentAt(w: World, run: seq<Event>, n: nat)
    requires Init(w) && Legal(w, run) && n < |run| && run[n] == Send
    ensures Legal(w, run[..n]) && Legal(w, run[..n + 1]) && Enabled(After(w, run[..n]), Send)
    ensures After(w, run[..n + 1]) == Apply(After(w, run[..n]), Send)
  {
    LegalPrefix(w, run, n + 1);
    LegalPrefix(w, run, n);
    assert run[..n + 1][..n] == run[..n];
  }

  /** Two requests of a level never carry the same client ID, over any run with crashes at any
      point: the later one belongs to a later generation. */
  lemma {:induction false} SentAtMostOnce(w: World, run: seq<Event>, i: nat, j: nat)
    requires Init(w) && Legal(w, run) && i < j < |run| && run[i] == Send && run[j] == Send
    ensures After(w, run[..i]).entry.generation < After(w, run[..j]).entry.generation
  {
    SentAt(w, run, i);
    SentAt(w, run, j);
    AlwaysOk(w, run[..i]);
    AlwaysOk(w, run[..j]);
    SendMarks(After(w, run[..i]));
    SendMarks(After(w, run[..j]));
    assert run[..j][..i + 1] == run[..i + 1];
    hide LevelOk, Enabled, Apply, Init, Legal;
    OnwardAlways(w, run[..j], i + 1);
  }
}
