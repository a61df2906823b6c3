/** How the take-profit ladder follows the position: fills of its own orders must not
    shrink the other levels, a change made outside must scale every level and the runner
    alike, and the open levels must never ask for more than the position. */
module TakeProfitScale {
  import opened Prelude
  import opened Sizing

  const BASE_TOLERANCE: real := 0.000000000001

  datatype TPStatus = PLANNED | PLACEMENT_FAILED | BELOW_MINIMUM | REJECTED | OTHER

  /** One planned take-profit. linked says that the current generation has a ledger row
      (client ID), ordered that the exchange's order ID is recorded. */
  datatype Entry = Entry(quantity: real, filled: bool, filledQty: real, prior: real,
                         desired: Option<real>, synced: Option<real>,
                         generation: nat, linked: bool, ordered: bool, status: TPStatus)

  function Remaining(e: Entry): real {
    Max(0.0, e.quantity - e.filledQty)
  }

  /** Every fill ever attributed to a level. */
  function CumulativeFill(e: Entry): real {
    e.filledQty + e.prior
  }

  function OpenAmount(e: Entry): real {
    if e.filled then 0.0 else Remaining(e)
  }

  function Total(plan: seq<Entry>): real {
    if plan == [] then 0.0 else Total(plan[..|plan| - 1]) + OpenAmount(plan[|plan| - 1])
  }

  predicate Stamped(plan: seq<Entry>) {
    forall i :: 0 <= i < |plan| ==> plan[i].synced.Some?
  }

  function Since(plan: seq<Entry>): real
    requires Stamped(plan)
  {
    if plan == [] then 0.0
    else Since(plan[..|plan| - 1]) + Max(0.0, CumulativeFill(plan[|plan| - 1]) - plan[|plan| - 1].synced.value)
  }

  /** The factor for the remaining quantities when the live position is not the synced one. */
  function TpRescale(syncedQty: real, qty: real, total: real, plan: seq<Entry>): real
    requires total > 0.0
  {
    var guard := qty / total;
    if syncedQty > 0.0 && Stamped(plan) && syncedQty - Since(plan) > BASE_TOLERANCE then
      Min(qty / (syncedQty - Since(plan)), guard)
    else if syncedQty > 0.0 && qty > syncedQty + TOLERANCE then qty / syncedQty
    else Min(1.0, guard)
  }

  function Times(amount: real, scale: real): real {
    amount * scale
  }

  function Rescaled(plan: seq<Entry>, scale: real): (r: seq<Entry>)
    ensures |r| == |plan|
    ensures forall i :: 0 <= i < |plan| ==>
              r[i] == if plan[i].filled then plan[i] else plan[i].(desired := Some(Times(Remaining(plan[i]), scale)))
  {
    if plan == [] then []
    else
      var e := plan[|plan| - 1];
      Rescaled(plan[..|plan| - 1], scale) + [if e.filled then e else e.(desired := Some(Times(Remaining(e), scale)))]
  }

  /** A wish in whole lots, zero when there is none. */
  function InLots(want: real, step: real): real {
    if step > 0.0 && want > 0.0 then
      match DecimalFloor(want, step) case None => 0.0 case Some(lots) => lots
    else want
  }

  lemma InLotsBelow(want: real, step: real)
    requires want >= 0.0
    ensures 0.0 <= InLots(want, step) <= want
  {
    hide WholeLots;
    if step > 0.0 && want > 0.0 {
      FloorBounds(want, step);
    }
  }

  /** Nothing but the part below one lot is dropped, and nothing where there are no lots. */
  lemma InLotsExact(want: real, step: real)
    ensures want > 0.0 && step > 0.0 ==> WholeLots(InLots(want, step), step) && InLots(want, step) <= want < InLots(want, step) + step
    ensures want <= 0.0 || step <= 0.0 ==> InLots(want, step) == want
  {
    hide WholeLots;
    if step > 0.0 && want > 0.0 {
      FloorBounds(want, step);
    }
  }

  function RescaledInLots(plan: seq<Entry>, scale: real, step: real): (r: seq<Entry>)
    ensures |r| == |plan|
    ensures forall i :: 0 <= i < |plan| ==>
              r[i] == if plan[i].filled then plan[i]
                      else plan[i].(desired := Some(InLots(Times(Remaining(plan[i]), scale), step)))
  {
    if plan == [] then []
    else
      var e := plan[|plan| - 1];
      RescaledInLots(plan[..|plan| - 1], scale, step) +
      [if e.filled then e else e.(desired := Some(InLots(Times(Remaining(e), scale), step)))]
  }

  function StampSync(plan: seq<Entry>): (r: seq<Entry>)
    ensures |r| == |plan|
    ensures forall i :: 0 <= i < |plan| ==> r[i] == plan[i].(synced := Some(CumulativeFill(plan[i])))
  {
    if plan == [] then []
    else
      var e := plan[|plan| - 1];
      StampSync(plan[..|plan| - 1]) + [e.(synced := Some(CumulativeFill(e)))]
  }

  /** What the open levels want, the current remainder where nothing was asked. */
  function Wanted(e: Entry): real {
    if e.filled then 0.0 else if e.desired.Some? then e.desired.value else Remaining(e)
  }

  function TotalWanted(plan: seq<Entry>): real {
    if plan == [] then 0.0 else TotalWanted(plan[..|plan| - 1]) + Wanted(plan[|plan| - 1])
  }

  // ---- Rescaling -----------------------------------------------------------------------

  lemma TimesAdds(a: real, b: real, scale: real)
    ensures Times(a + b, scale) == Times(a, scale) + Times(b, scale)
  {
  }

  lemma RescaledTotal(plan: seq<Entry>, scale: real)
    ensures TotalWanted(Rescaled(plan, scale)) == Times(Total(plan), scale)
  {
    if plan != [] {
      var init, last := plan[..|plan| - 1], plan[|plan| - 1];
      RescaledTotal(init, scale);
      assert Rescaled(plan, scale)[..|plan| - 1] == Rescaled(init, scale);
      TimesAdds(Total(init), OpenAmount(last), scale);
    }
  }

  lemma TotalNonNegative(plan: seq<Entry>)
    ensures 0.0 <= Total(plan)
  {
    if plan != [] {
      TotalNonNegative(plan[..|plan| - 1]);
    }
  }

  /** A stamped rescale never asks for more than the position, settled or not. */
  lemma StampedRescaleFits(plan: seq<Entry>, syncedQty: real, qty: real)
    requires Stamped(plan) && Total(plan) > 0.0 && qty > 0.0
    requires syncedQty - Since(plan) > BASE_TOLERANCE && syncedQty > 0.0
    ensures TotalWanted(Rescaled(plan, TpRescale(syncedQty, qty, Total(plan), plan))) <= qty
  {
    var scale := TpRescale(syncedQty, qty, Total(plan), plan);
    RescaledTotal(plan, scale);
    Undercut(Total(plan), scale, qty);
  }

  /** The position grew and the fills since the last pass are not known. */
  predicate Unguarded(plan: seq<Entry>, syncedQty: real, qty: real) {
    && syncedQty > 0.0 && qty > syncedQty + TOLERANCE
    && !(Stamped(plan) && syncedQty - Since(plan) > BASE_TOLERANCE)
  }

  /** Whatever the ladder's state, a rescale asks for more than the position exactly when it
      grows unguarded from a ladder that had already booked more than its position. */
  lemma RescaleFitsIff(plan: seq<Entry>, syncedQty: real, qty: real)
    requires Total(plan) > 0.0 && qty > 0.0
    ensures TotalWanted(Rescaled(plan, TpRescale(syncedQty, qty, Total(plan), plan))) <= qty
            <==> !Unguarded(plan, syncedQty, qty) || Total(plan) <= syncedQty
  {
    var scale := TpRescale(syncedQty, qty, Total(plan), plan);
    RescaledTotal(plan, scale);
    hide Rescaled, TotalWanted;
    if Unguarded(plan, syncedQty, qty) {
      GrownBooking(Total(plan), syncedQty, qty);
    } else {
      Undercut(Total(plan), scale, qty);
    }
  }

  /** What the current remainders are measured against: the synced position less the fills since,
      where these are known, else the synced position if the trade grew, else the position
      itself; and never less than the remainders but when it grew unguarded. */
  function Reference(plan: seq<Entry>, syncedQty: real, qty: real): real {
    if syncedQty > 0.0 && Stamped(plan) && syncedQty - Since(plan) > BASE_TOLERANCE then
      Max(syncedQty - Since(plan), Total(plan))
    else if Unguarded(plan, syncedQty, qty) then syncedQty
    else Max(qty, Total(plan))
  }

  /** Every wish is the remainder times the position over that reference. */
  lemma RescaleExact(plan: seq<Entry>, syncedQty: real, qty: real)
    requires Total(plan) > 0.0 && qty > 0.0
    ensures Reference(plan, syncedQty, qty) > 0.0
    ensures TpRescale(syncedQty, qty, Total(plan), plan) == qty / Reference(plan, syncedQty, qty)
  {
    hide Total, Since;
    if syncedQty > 0.0 && Stamped(plan) && syncedQty - Since(plan) > BASE_TOLERANCE {
      ScaleOfBase(plan, syncedQty, qty, syncedQty - Since(plan), Total(plan));
    } else if !Unguarded(plan, syncedQty, qty) {
      DivAntitone(qty, qty, Total(plan));
      assert qty / qty == 1.0;
    }
  }

  /** A ladder that was never synced, or did not grow and has no stamps, books its remainders if
      the position holds them, and exactly the position if not. */
  lemma UnsyncedSum(plan: seq<Entry>, syncedQty: real, qty: real)
    requires Total(plan) > 0.0 && qty > 0.0 && !Unguarded(plan, syncedQty, qty) && (syncedQty <= 0.0 || !Stamped(plan))
    ensures TotalWanted(Rescaled(plan, TpRescale(syncedQty, qty, Total(plan), plan))) == Min(Total(plan), qty)
  {
    hide Total, TotalWanted, Rescaled, TpRescale, Unguarded, Times;
    var scale := TpRescale(syncedQty, qty, Total(plan), plan);
    RescaledTotal(plan, scale);
    UnsyncedScale(plan, syncedQty, qty);
    CutTo(Total(plan), qty, scale);
  }

  /** So the first pass of a ladder that fits asks for every level as planned. */
  lemma UnsyncedWishes(plan: seq<Entry>, syncedQty: real, qty: real, i: nat)
    requires 0.0 < Total(plan) <= qty && !Unguarded(plan, syncedQty, qty) && (syncedQty <= 0.0 || !Stamped(plan))
    requires i < |plan| && !plan[i].filled
    ensures Wanted(Rescaled(plan, TpRescale(syncedQty, qty, Total(plan), plan))[i]) == Remaining(plan[i])
  {
    hide Total, TpRescale, Unguarded, Remaining;
    var scale := TpRescale(syncedQty, qty, Total(plan), plan);
    UnsyncedScale(plan, syncedQty, qty);
    CutTo(Total(plan), qty, scale);
    assert Wanted(Rescaled(plan, scale)[i]) == Times(Remaining(plan[i]), scale);
  }

  lemma UnsyncedScale(plan: seq<Entry>, syncedQty: real, qty: real)
    requires Total(plan) > 0.0 && qty > 0.0 && !Unguarded(plan, syncedQty, qty) && (syncedQty <= 0.0 || !Stamped(plan))
    ensures TpRescale(syncedQty, qty, Total(plan), plan) == Min(1.0, qty / Total(plan))
  {
    hide Total, Since;
  }

  lemma CutTo(total: real, qty: real, scale: real)
    requires total > 0.0 && qty > 0.0 && scale == Min(1.0, qty / total)
    ensures Times(total, scale) == Min(total, qty) && (total <= qty ==> scale == 1.0)
  {
    var ratio := qty / total;
    assert ratio * total == qty;
    if ratio < 1.0 {
      StrictRight(ratio, 1.0, total);
    } else {
      MulLeft(total, 1.0, ratio);
    }
  }

  lemma GrownBooking(total: real, syncedQty: real, qty: real)
    requires syncedQty > 0.0 && qty > 0.0
    ensures Times(total, qty / syncedQty) <= qty <==> total <= syncedQty
  {
    var ratio := qty / syncedQty;
    assert ratio * syncedQty == qty && ratio > 0.0;
    if total <= syncedQty {
      MulLeft(ratio, total, syncedQty);
    } else {
      StrictRight(syncedQty, total, ratio);
    }
  }

  /** Smaller wishes book less. */
  lemma WantedMonotone(a: seq<Entry>, b: seq<Entry>)
    requires |a| == |b| && forall i :: 0 <= i < |a| ==> Wanted(a[i]) <= Wanted(b[i])
    ensures TotalWanted(a) <= TotalWanted(b)
  {
    if a != [] {
      WantedMonotone(a[..|a| - 1], b[..|b| - 1]);
    }
  }

  lemma Undercut(total: real, scale: real, qty: real)
    requires total > 0.0 && scale <= qty / total
    ensures Times(total, scale) <= qty
  {
    var ratio := qty / total;
    assert ratio * total == qty;
    MulLeft(total, scale, ratio);
  }

  lemma MulLeft(c: real, a: real, b: real)
    requires a <= b && 0.0 <= c
    ensures Times(c, a) <= Times(c, b)
  {
  }

  /** A wish, moved with the position. */
  function Moved(wish: real, base: real, qty: real): real {
    if base <= 0.0 then wish else wish * (qty / base)
  }

  /** Whole lots never ask for more, so the ladder fits the position as traded, too. */
  lemma LotsFit(plan: seq<Entry>, scale: real, step: real)
    requires scale >= 0.0
    ensures TotalWanted(RescaledInLots(plan, scale, step)) <= TotalWanted(Rescaled(plan, scale))
  {
    if plan != [] {
      var n := |plan| - 1;
      LotsFit(plan[..n], scale, step);
      assert RescaledInLots(plan, scale, step)[..n] == RescaledInLots(plan[..n], scale, step);
      assert Rescaled(plan, scale)[..n] == Rescaled(plan[..n], scale);
      MulLeft(Remaining(plan[n]), 0.0, scale);
      InLotsBelow(Times(Remaining(plan[n]), scale), step);
    }
  }

  /** Every open level keeps its share: what it wanted times the change of the position. */
  ghost predicate Proportional(before: seq<Entry>, after: seq<Entry>, base: real, qty: real)
    requires base > 0.0
  {
    && |after| == |before|
    && forall i :: 0 <= i < |before| && !before[i].filled ==>
                     !after[i].filled && Wanted(after[i]) == Moved(Wanted(before[i]), base, qty)
  }

  /** What each level wanted is its placed remainder, cut by the factor of the guard. */
  ghost predicate PlacedOrCut(plan: seq<Entry>, base: real) {
    forall i :: 0 <= i < |plan| && !plan[i].filled ==>
                  Wanted(plan[i]) * Max(base, Total(plan)) == Remaining(plan[i]) * base
  }

  /** The factor is the change of the position, unless the placed remainders exceed it. */
  lemma ScaleOfBase(plan: seq<Entry>, syncedQty: real, qty: real, base: real, total: real)
    requires Stamped(plan) && total > 0.0 && qty > 0.0 && syncedQty > 0.0
    requires base == syncedQty - Since(plan) && base > BASE_TOLERANCE
    ensures TpRescale(syncedQty, qty, total, plan) == qty / Max(base, total)
  {
    hide Since;
    assert TpRescale(syncedQty, qty, total, plan) == Min(qty / base, qty / total);
    DivAntitone(qty, base, total);
  }

  lemma DivAntitone(qty: real, a: real, b: real)
    requires qty > 0.0 && a > 0.0 && b > 0.0
    ensures Min(qty / a, qty / b) == qty / Max(a, b)
  {
    var x, y := qty / a, qty / b;
    if a <= b {
      QuotientOrder(qty, a, b, x, y);
    } else {
      QuotientOrder(qty, b, a, y, x);
    }
  }

  lemma QuotientOrder(qty: real, a: real, b: real, x: real, y: real)
    requires qty > 0.0 && 0.0 < a <= b && x * a == qty && y * b == qty
    ensures y <= x
  {
    if x < y {
      StrictRight(x, y, b);
      if x >= 0.0 {
        MulLeft(x, a, b);
      } else {
        StrictRight(x, 0.0, a);
      }
    }
  }

  lemma StrictRight(x: real, y: real, c: real)
    requires x < y && c > 0.0
    ensures x * c < y * c
  {
  }

  lemma SameShare(remaining: real, wanted: real, qty: real, base: real, wide: real)
    requires qty > 0.0 && base > 0.0 && wide > 0.0
    ensures remaining * (qty / wide) == wanted * (qty / base) <==> wanted * wide == remaining * base
  {
    var x, y := qty / wide, qty / base;
    assert x * wide == qty && y * base == qty && x > 0.0 && y > 0.0;
    CrossMultiply(remaining, wanted, x, y, base, wide, qty);
  }

  lemma CrossMultiply(r: real, w: real, x: real, y: real, base: real, wide: real, qty: real)
    requires x * wide == qty && y * base == qty && qty > 0.0 && base > 0.0 && wide > 0.0
    ensures r * x == w * y <==> w * wide == r * base
  {
    assert (r * x) * (wide * base) == (r * base) * qty by { assert (r * x) * (wide * base) == (r * base) * (x * wide); }
    assert (w * y) * (wide * base) == (w * wide) * qty by { assert (w * y) * (wide * base) == (w * wide) * (y * base); }
    if r * x == w * y {
      CancelFactor(r * base, w * wide, qty);
    }
    if w * wide == r * base {
      assert wide * base > 0.0;
      CancelFactor(r * x, w * y, wide * base);
    }
  }

  lemma CancelFactor(a: real, b: real, c: real)
    requires c > 0.0 && a * c == b * c
    ensures a == b
  {
  }

  /** Rescaling is proportional exactly when each level's wish is its placed remainder, cut
      by the guard: an earlier wish that is not placed yet is forgotten. */
  lemma RescaleProportionalIff(plan: seq<Entry>, syncedQty: real, qty: real)
    requires Stamped(plan) && Total(plan) > 0.0 && qty > 0.0 && syncedQty > 0.0
    requires syncedQty - Since(plan) > BASE_TOLERANCE
    ensures var base := syncedQty - Since(plan);
            Proportional(plan, Rescaled(plan, TpRescale(syncedQty, qty, Total(plan), plan)), base, qty)
            <==> PlacedOrCut(plan, base)
  {
    hide TpRescale, Total, Since, Remaining, Times;
    var base, scale := syncedQty - Since(plan), TpRescale(syncedQty, qty, Total(plan), plan);
    var after := Rescaled(plan, scale);
    var wide := Max(base, Total(plan));
    ScaleOfBase(plan, syncedQty, qty, base, Total(plan));
    forall i | 0 <= i < |plan| && !plan[i].filled
      ensures Wanted(after[i]) == Moved(Wanted(plan[i]), base, qty) <==>
              Wanted(plan[i]) * wide == Remaining(plan[i]) * base
    {
      RescaledWish(plan, scale, i);
      SameShare(Remaining(plan[i]), Wanted(plan[i]), qty, base, wide);
    }
  }

  lemma RescaledWish(plan: seq<Entry>, scale: real, i: nat)
    requires i < |plan| && !plan[i].filled
    ensures !Rescaled(plan, scale)[i].filled && Wanted(Rescaled(plan, scale)[i]) == Remaining(plan[i]) * scale
  {
  }

  /** Two levels of 4 on a position of 10 that was cut to 5 from outside; before the new
      sizes were placed the first level filled 1. */
  function Unplaced(): seq<Entry> {
    [Entry(4.0, false, 1.0, 0.0, Some(1.0), Some(0.0), 0, true, true, OTHER),
     Entry(4.0, false, 0.0, 0.0, Some(2.0), Some(0.0), 0, true, true, OTHER)]
  }

  lemma SumsOfTwo(a: Entry, b: Entry)
    requires a.synced.Some? && b.synced.Some?
    ensures Total([a, b]) == OpenAmount(a) + OpenAmount(b)
    ensures Since([a, b]) == Max(0.0, CumulativeFill(a) - a.synced.value) + Max(0.0, CumulativeFill(b) - b.synced.value)
  {
    hide OpenAmount, CumulativeFill;
    assert [a, b][..1] == [a] && [a][..0] == [];
    assert Total([a]) == OpenAmount(a);
    assert Since([a]) == Max(0.0, CumulativeFill(a) - a.synced.value);
  }

  /** Only a take-profit filled since, yet the other level grows. */
  lemma UnplacedWishForgotten()
    ensures var plan := Unplaced();
            && Stamped(plan) && 5.0 - Since(plan) == 4.0 && Total(plan) == 7.0
            && !Proportional(plan, Rescaled(plan, TpRescale(5.0, 4.0, 7.0, plan)), 4.0, 4.0)
            && Wanted(Rescaled(plan, TpRescale(5.0, 4.0, 7.0, plan))[1]) > Wanted(plan[1])
  {
    var plan := Unplaced();
    SumsOfTwo(plan[0], plan[1]);
    hide Since, Total, Proportional, TpRescale, Rescaled, Stamped;
    ScaleOfBase(plan, 5.0, 4.0, 4.0, 7.0);
    RescaleProportionalIff(plan, 5.0, 4.0);
    assert !PlacedOrCut(plan, 4.0) by {
      assert Wanted(plan[0]) * 7.0 != Remaining(plan[0]) * 4.0;
    }
    RescaledWish(plan, 4.0 / 7.0, 1);
  }

  // ---- From one pass to the next ---------------------------------------------------------

  /** What a status read says about a level's order. */
  datatype Read = Read(executed: real, final: bool)

  /** Fills of a level's own order lower its wish by what was filled. */
  function Refresh(e: Entry, read: Read): Entry {
    if e.filled then e
    else
      var seen := Min(read.executed, e.quantity);
      var counted :=
        if read.executed > e.filledQty then
          e.(desired := if e.desired.Some? then Some(Max(0.0, e.desired.value - (seen - e.filledQty))) else None,
          filledQty := seen)
        else e;
      if read.final then
        counted.(filled := true, desired := if counted.desired.Some? then Some(0.0) else None, filledQty := e.quantity)
      else counted
  }

  function RefreshAll(plan: seq<Entry>, views: seq<Read>): (r: seq<Entry>)
    requires |views| == |plan|
    ensures |r| == |plan| && forall i :: 0 <= i < |plan| ==> r[i] == Refresh(plan[i], views[i])
  {
    if plan == [] then []
    else RefreshAll(plan[..|plan| - 1], views[..|plan| - 1]) + [Refresh(plan[|plan| - 1], views[|plan| - 1])]
  }

  /** An order whose size is not the wish is cancelled, and a new generation carries it. */
  function Place(e: Entry): Entry {
    if e.filled || Wanted(e) == Remaining(e) then e
    else e.(quantity := Wanted(e), filledQty := 0.0, prior := e.prior + e.filledQty, generation := e.generation + 1)
  }

  function PlaceAll(plan: seq<Entry>): (r: seq<Entry>)
    ensures |r| == |plan| && forall i :: 0 <= i < |plan| ==> r[i] == Place(plan[i])
  {
    if plan == [] then [] else PlaceAll(plan[..|plan| - 1]) + [Place(plan[|plan| - 1])]
  }

  datatype Ladder = Ladder(plan: seq<Entry>, position: real)

  /** One undisturbed pass at a position of qty, before lot rounding. */
  function Pass(l: Ladder, qty: real): Ladder {
    var total := Total(l.plan);
    if total <= 0.0 then l
    else
      var sized := if l.position == qty then l.plan
                   else StampSync(Rescaled(l.plan, TpRescale(l.position, qty, total, l.plan)));
      Ladder(StampSync(PlaceAll(sized)), qty)
  }

  ghost predicate EntrySettled(e: Entry) {
    && 0.0 <= e.filledQty <= e.quantity && e.synced == Some(CumulativeFill(e))
    && (!e.filled ==> Wanted(e) == Remaining(e))
  }

  /** Every wish is placed, the stamps are current and no more is booked than is held. */
  ghost predicate Settled(l: Ladder) {
    && (forall i :: 0 <= i < |l.plan| ==> EntrySettled(l.plan[i]))
    && Total(l.plan) <= l.position && l.position > 0.0
  }

  predicate Truthful(e: Entry, read: Read) {
    !e.filled ==> e.filledQty <= read.executed <= e.quantity && (read.final ==> read.executed == e.quantity)
  }

  ghost predicate Consistent(plan: seq<Entry>, views: seq<Read>) {
    |views| == |plan| && forall i :: 0 <= i < |plan| ==> Truthful(plan[i], views[i])
  }

  /** Fills take the same amount from the open levels and from what is left of the position. */
  lemma FillsCounted(plan: seq<Entry>, views: seq<Read>)
    requires Consistent(plan, views) && forall i :: 0 <= i < |plan| ==> EntrySettled(plan[i])
    ensures Stamped(RefreshAll(plan, views)) && 0.0 <= Since(RefreshAll(plan, views))
    ensures Total(RefreshAll(plan, views)) == Total(plan) - Since(RefreshAll(plan, views))
    ensures forall i :: 0 <= i < |plan| ==>
              var e := RefreshAll(plan, views)[i];
              0.0 <= e.filledQty <= e.quantity && (!e.filled ==> Wanted(e) == Remaining(e))
  {
    if plan != [] {
      var n := |plan| - 1;
      FillsCounted(plan[..n], views[..n]);
      assert RefreshAll(plan, views)[..n] == RefreshAll(plan[..n], views[..n]);
      assert EntrySettled(plan[n]) && Truthful(plan[n], views[n]);
    }
  }

  lemma TotalIsWanted(plan: seq<Entry>)
    requires forall i :: 0 <= i < |plan| && !plan[i].filled ==> Wanted(plan[i]) == Remaining(plan[i])
    ensures TotalWanted(plan) == Total(plan)
  {
    if plan != [] {
      TotalIsWanted(plan[..|plan| - 1]);
    }
  }

  lemma SameWishesSameTotal(a: seq<Entry>, b: seq<Entry>)
    requires |a| == |b| && forall i :: 0 <= i < |a| ==> Wanted(a[i]) == Wanted(b[i])
    ensures TotalWanted(a) == TotalWanted(b)
  {
    if a != [] {
      SameWishesSameTotal(a[..|a| - 1], b[..|b| - 1]);
    }
  }

  /** Placing and stamping settle an entry and keep its wish and its fills. */
  lemma PlacedEntry(e: Entry, stamped: Entry)
    requires 0.0 <= e.filledQty <= e.quantity && (!e.filled ==> Wanted(e) >= 0.0)
    requires stamped == Place(e).(synced := Some(CumulativeFill(Place(e))))
    ensures EntrySettled(stamped) && stamped.filled == e.filled
    ensures Wanted(stamped) == Wanted(e) && CumulativeFill(stamped) == CumulativeFill(e)
  {
  }

  /** Before placing: what each level wants after the rescale, if there was one. */
  function Sized(l: Ladder, qty: real): seq<Entry>
    requires Total(l.plan) > 0.0
  {
    if l.position == qty then l.plan
    else StampSync(Rescaled(l.plan, TpRescale(l.position, qty, Total(l.plan), l.plan)))
  }

  lemma PassPlaces(l: Ladder, qty: real)
    requires Total(l.plan) > 0.0
    requires forall i :: 0 <= i < |l.plan| ==>
               var e := Sized(l, qty)[i];
               0.0 <= e.filledQty <= e.quantity && (!e.filled ==> Wanted(e) >= 0.0)
    ensures var after := Pass(l, qty);
            && |after.plan| == |l.plan| && after.position == qty
            && (forall i :: 0 <= i < |l.plan| ==>
                              && EntrySettled(after.plan[i]) && Wanted(after.plan[i]) == Wanted(Sized(l, qty)[i])
                              && after.plan[i].filled == l.plan[i].filled)
  {
    hide Wanted, EntrySettled, TpRescale, Total, Place, CumulativeFill;
    var sized, after := Sized(l, qty), Pass(l, qty);
    forall i | 0 <= i < |l.plan|
      ensures EntrySettled(after.plan[i]) && Wanted(after.plan[i]) == Wanted(sized[i])
      ensures after.plan[i].filled == l.plan[i].filled
    {
      PlacedEntry(sized[i], after.plan[i]);
    }
  }

  /** The change from outside can be seen: the new size differs from the synced one, or
      nothing filled that could hide it. */
  predicate Visible(l: Ladder, qty: real)
    requires Stamped(l.plan)
  {
    qty != l.position || Since(l.plan) == 0.0
  }

  /** A settled ladder after its orders filled, with the position still to be read. */
  ghost predicate Refreshed(l: Ladder) {
    && Stamped(l.plan) && 0.0 <= Since(l.plan) && Total(l.plan) > 0.0
    && l.position - Since(l.plan) > BASE_TOLERANCE && Total(l.plan) <= l.position - Since(l.plan)
    && (forall i :: 0 <= i < |l.plan| ==>
                      && 0.0 <= l.plan[i].filledQty <= l.plan[i].quantity
                      && (!l.plan[i].filled ==> Wanted(l.plan[i]) == Remaining(l.plan[i])))
  }

  lemma RefreshedByFills(l: Ladder, views: seq<Read>)
    requires Settled(l) && Consistent(l.plan, views)
    requires var plan := RefreshAll(l.plan, views);
             FillsLeave(l, plan)
    ensures Refreshed(Ladder(RefreshAll(l.plan, views), l.position))
  {
    FillsCounted(l.plan, views);
  }

  /** The fills left something of the position and of the ladder. */
  ghost predicate FillsLeave(l: Ladder, plan: seq<Entry>) {
    Stamped(plan) && Total(plan) > 0.0 && l.position - Since(plan) > BASE_TOLERANCE
  }

  lemma SizedWishes(l: Ladder, qty: real, base: real)
    requires Refreshed(l) && qty > 0.0 && l.position != qty && base == l.position - Since(l.plan)
    ensures forall i :: 0 <= i < |l.plan| ==>
              var e := Sized(l, qty)[i];
              && e.quantity == l.plan[i].quantity && e.filledQty == l.plan[i].filledQty && e.filled == l.plan[i].filled
              && (!e.filled ==> Wanted(e) == Moved(Wanted(l.plan[i]), base, qty) && Wanted(e) >= 0.0)
  {
    hide TpRescale, Total, Since;
    var scale := TpRescale(l.position, qty, Total(l.plan), l.plan);
    ScaleOfBase(l.plan, l.position, qty, base, Total(l.plan));
    assert scale == qty / base && scale > 0.0;
    forall i | 0 <= i < |l.plan| && !l.plan[i].filled
      ensures Wanted(Sized(l, qty)[i]) == Moved(Wanted(l.plan[i]), base, qty) >= 0.0
    {
      RescaledWish(l.plan, scale, i);
      MulLeft(Remaining(l.plan[i]), 0.0, scale);
    }
  }

  lemma MovedPassFits(l: Ladder, qty: real)
    requires Refreshed(l) && qty > 0.0 && l.position != qty
    ensures Settled(Pass(l, qty)) && Pass(l, qty).position == qty && |Pass(l, qty).plan| == |l.plan|
    ensures forall i :: 0 <= i < |l.plan| ==> Pass(l, qty).plan[i].filled == l.plan[i].filled
  {
    var scaled := Rescaled(l.plan, TpRescale(l.position, qty, Total(l.plan), l.plan));
    SizedWishes(l, qty, l.position - Since(l.plan));
    hide Total, Since, TpRescale, Wanted, EntrySettled, Rescaled, Pass;
    PassPlaces(l, qty);
    SettledTotal(Pass(l, qty).plan);
    SameWishesSameTotal(Pass(l, qty).plan, Sized(l, qty));
    StampKeepsWishes(scaled);
    StampedRescaleFits(l.plan, l.position, qty);
  }

  lemma StampKeepsWishes(plan: seq<Entry>)
    ensures TotalWanted(StampSync(plan)) == TotalWanted(plan)
  {
    SameWishesSameTotal(StampSync(plan), plan);
  }

  lemma MovedPassScales(l: Ladder, qty: real)
    requires Refreshed(l) && qty > 0.0 && l.position != qty
    ensures Proportional(l.plan, Pass(l, qty).plan, l.position - Since(l.plan), qty)
  {
    var base := l.position - Since(l.plan);
    SizedWishes(l, qty, base);
    assert |Pass(l, qty).plan| == |l.plan|;
    forall i | 0 <= i < |l.plan| && !l.plan[i].filled
      ensures !Pass(l, qty).plan[i].filled && Wanted(Pass(l, qty).plan[i]) == Moved(Wanted(l.plan[i]), base, qty)
    {
      hide Total, Since, TpRescale, Wanted, EntrySettled, Rescaled, Pass, Sized, Moved;
      PassPlaces(l, qty);
    }
  }

  lemma UnmovedPass(l: Ladder)
    requires Refreshed(l) && l.position > 0.0
    ensures Settled(Pass(l, l.position)) && Pass(l, l.position).position == l.position
    ensures |Pass(l, l.position).plan| == |l.plan|
    ensures forall i :: 0 <= i < |l.plan| ==>
              && Wanted(Pass(l, l.position).plan[i]) == Wanted(l.plan[i])
              && Pass(l, l.position).plan[i].filled == l.plan[i].filled
  {
    TotalIsWanted(l.plan);
    hide Total, Since, TpRescale, EntrySettled, Pass;
    PassPlaces(l, l.position);
    SettledTotal(Pass(l, l.position).plan);
    SameWishesSameTotal(Pass(l, l.position).plan, l.plan);
  }

  /** One pass over a refreshed ladder settles it again within the position, and scales
      every level exactly by the change of the position when that change can be seen; a
      change that a fill hides leaves the ladder out of proportion. */
  lemma PassProportionalIff(l: Ladder, qty: real)
    requires Refreshed(l) && qty > 0.0
    ensures Settled(Pass(l, qty)) && Pass(l, qty).position == qty && |Pass(l, qty).plan| == |l.plan|
    ensures forall i :: 0 <= i < |l.plan| ==> Pass(l, qty).plan[i].filled == l.plan[i].filled
    ensures Proportional(l.plan, Pass(l, qty).plan, l.position - Since(l.plan), qty) <==> Visible(l, qty)
  {
    var base, after := l.position - Since(l.plan), Pass(l, qty);
    if l.position != qty {
      MovedPassFits(l, qty);
      MovedPassScales(l, qty);
    } else {
      UnmovedPass(l);
      UnmovedIff(l, after);
    }
  }

  lemma PairSettled(a: Entry, b: Entry, position: real)
    requires EntrySettled(a) && EntrySettled(b) && OpenAmount(a) + OpenAmount(b) <= position && position > 0.0
    ensures Settled(Ladder([a, b], position))
  {
    SumsOfTwo(a, b);
    hide EntrySettled, Total, Since, OpenAmount;
  }

  /** Two open levels, each wanting what is left of its order. */
  lemma PairRefreshed(a: Entry, b: Entry, position: real, since: real)
    requires a.synced.Some? && b.synced.Some? && !a.filled && !b.filled
    requires 0.0 <= a.filledQty <= a.quantity && 0.0 <= b.filledQty <= b.quantity
    requires Wanted(a) == Remaining(a) && Wanted(b) == Remaining(b)
    requires since == Max(0.0, CumulativeFill(a) - a.synced.value) + Max(0.0, CumulativeFill(b) - b.synced.value)
    requires BASE_TOLERANCE < position - since && 0.0 < Remaining(a) + Remaining(b) <= position - since
    ensures Refreshed(Ladder([a, b], position)) && Since([a, b]) == since
  {
    SumsOfTwo(a, b);
    assert OpenAmount(a) == Remaining(a) && OpenAmount(b) == Remaining(b);
    hide Total, Since, OpenAmount, Remaining, CumulativeFill, Wanted;
  }

  lemma PairFilled(a: Entry, b: Entry, first: Read, second: Read)
    ensures RefreshAll([a, b], [first, second]) == [Refresh(a, first), Refresh(b, second)]
  {
    hide RefreshAll, Refresh;
  }

  /** A level of 4 whose order filled this much since the last pass. */
  function Level(filledQty: real): Entry {
    Entry(4.0, false, filledQty, 0.0, None, Some(0.0), 0, true, true, OTHER)
  }

  lemma LevelFacts()
    ensures EntrySettled(Level(0.0)) && OpenAmount(Level(0.0)) == 4.0
    ensures Refresh(Level(0.0), Read(1.0, false)) == Level(1.0) && Refresh(Level(0.0), Read(0.0, false)) == Level(0.0)
    ensures Remaining(Level(0.0)) == 4.0 == Wanted(Level(0.0)) && Remaining(Level(1.0)) == 3.0 == Wanted(Level(1.0))
    ensures CumulativeFill(Level(0.0)) == 0.0 && CumulativeFill(Level(1.0)) == 1.0
  {
  }

  /** Two settled levels of 4 on a position of 10, the first of which fills 1. An increase of 1
      from outside brings the position back to 10, and no level is resized: the ladder stays as
      it was for 9. */
  lemma IncreaseHiddenByFill()
    ensures Settled(Ladder([Level(0.0), Level(0.0)], 10.0))
    ensures RefreshAll([Level(0.0), Level(0.0)], [Read(1.0, false), Read(0.0, false)]) == [Level(1.0), Level(0.0)]
    ensures var l := Ladder([Level(1.0), Level(0.0)], 10.0);
            && Refreshed(l) && Since(l.plan) == 1.0 && !Visible(l, 10.0) && |Pass(l, 10.0).plan| == 2
            && !Proportional(l.plan, Pass(l, 10.0).plan, 9.0, 10.0)
            && forall i :: 0 <= i < 2 ==> Wanted(Pass(l, 10.0).plan[i]) == Wanted(l.plan[i])
  {
    var a, b := Level(1.0), Level(0.0);
    LevelFacts();
    PairSettled(b, b, 10.0);
    PairFilled(b, b, Read(1.0, false), Read(0.0, false));
    PairRefreshed(a, b, 10.0, 1.0);
    HiddenByFill(Ladder([a, b], 10.0));
    hide *;
  }

  /** A pass that sees the recorded position changes no wish; with fills since, that is out of
      proportion. */
  lemma HiddenByFill(l: Ladder)
    requires Refreshed(l) && l.position > 0.0 && Since(l.plan) > 0.0
    ensures !Visible(l, l.position) && |Pass(l, l.position).plan| == |l.plan|
    ensures !Proportional(l.plan, Pass(l, l.position).plan, l.position - Since(l.plan), l.position)
    ensures forall i :: 0 <= i < |l.plan| ==> Wanted(Pass(l, l.position).plan[i]) == Wanted(l.plan[i])
  {
    UnmovedPass(l);
    PassProportionalIff(l, l.position);
  }

  lemma UnmovedIff(l: Ladder, after: Ladder)
    requires Refreshed(l) && l.position > 0.0 && |after.plan| == |l.plan|
    requires forall i :: 0 <= i < |l.plan| ==>
               Wanted(after.plan[i]) == Wanted(l.plan[i]) && after.plan[i].filled == l.plan[i].filled
    ensures Proportional(l.plan, after.plan, l.position - Since(l.plan), l.position) <==> Since(l.plan) == 0.0
  {
    var base := l.position - Since(l.plan);
    var i := OpenLevel(l.plan);
    assert Wanted(l.plan[i]) > 0.0;
    hide Total, Since, Wanted, Remaining, Moved;
    if base == l.position {
      forall j | 0 <= j < |l.plan| ensures Moved(Wanted(l.plan[j]), base, l.position) == Wanted(l.plan[j]) {
        MovedNowhere(Wanted(l.plan[j]), base);
      }
    } else {
      GrownShare(Wanted(l.plan[i]), l.position, base);
    }
  }

  lemma MovedNowhere(wish: real, base: real)
    requires base > 0.0
    ensures Moved(wish, base, base) == wish
  {
    assert base / base == 1.0;
  }

  lemma OpenLevel(plan: seq<Entry>) returns (i: nat)
    requires Total(plan) > 0.0
    ensures i < |plan| && !plan[i].filled && Remaining(plan[i]) > 0.0
  {
    i := |plan| - 1;
    if OpenAmount(plan[i]) <= 0.0 {
      i := OpenLevel(plan[..i]);
    }
  }

  lemma GrownShare(wanted: real, qty: real, base: real)
    requires wanted > 0.0 && 0.0 < base < qty
    ensures wanted != Moved(wanted, base, qty)
  {
    var ratio := qty / base;
    assert ratio * base == qty;
    if ratio <= 1.0 {
      MulLeft(base, ratio, 1.0);
    }
    StrictRight(1.0, ratio, wanted);
  }

  lemma SettledTotal(plan: seq<Entry>)
    requires forall i :: 0 <= i < |plan| ==> EntrySettled(plan[i])
    ensures TotalWanted(plan) == Total(plan)
  {
    TotalIsWanted(plan);
  }

  // ---- Any number of passes ----------------------------------------------------------------

  /** Fills since the last pass, then a pass at the size read. */
  datatype Window = Window(views: seq<Read>, qty: real)

  function Filled(l: Ladder, w: Window): Ladder {
    if |w.views| == |l.plan| then Ladder(RefreshAll(l.plan, w.views), l.position) else l
  }

  ghost predicate WindowOk(l: Ladder, w: Window) {
    && Consistent(l.plan, w.views) && w.qty > 0.0 && FillsLeave(l, Filled(l, w).plan)
    && Visible(Filled(l, w), w.qty)
  }

  /** The ladder after one window. */
  ghost function Next(l: Ladder, w: Window): Ladder {
    if WindowOk(l, w) then Pass(Filled(l, w), w.qty) else l
  }

  ghost function AfterAll(l: Ladder, ws: seq<Window>): Ladder {
    if ws == [] then l else Next(AfterAll(l, ws[..|ws| - 1]), ws[|ws| - 1])
  }

  ghost predicate AllOk(l: Ladder, ws: seq<Window>) {
    ws == [] || (AllOk(l, ws[..|ws| - 1]) && WindowOk(AfterAll(l, ws[..|ws| - 1]), ws[|ws| - 1]))
  }

  /** The position once the fills are taken off. */
  ghost function Base(l: Ladder, w: Window): real {
    if WindowOk(l, w) then l.position - Since(Filled(l, w).plan) else l.position
  }

  ghost function FillOf(l: Ladder, w: Window, i: nat): real {
    if WindowOk(l, w) && i < |l.plan| then CumulativeFill(Filled(l, w).plan[i]) - CumulativeFill(l.plan[i]) else 0.0
  }

  /** What a level ought to want: its own fills come off, every move of the position from
      outside scales it. */
  ghost function Ideal(l: Ladder, ws: seq<Window>, i: nat): real
    requires i < |l.plan|
  {
    if ws == [] then Wanted(l.plan[i])
    else
      var before, w := AfterAll(l, ws[..|ws| - 1]), ws[|ws| - 1];
      Moved(Ideal(l, ws[..|ws| - 1], i) - FillOf(before, w, i), Base(before, w), w.qty)
  }

  /** What the runner, the part no level covers, ought to be: fills do not touch it. */
  ghost function IdealRunner(l: Ladder, ws: seq<Window>): real {
    if ws == [] then Runner(l)
    else
      var before, w := AfterAll(l, ws[..|ws| - 1]), ws[|ws| - 1];
      Moved(IdealRunner(l, ws[..|ws| - 1]), Base(before, w), w.qty)
  }

  function Runner(l: Ladder): real {
    l.position - Total(l.plan)
  }

  lemma WindowParts(l: Ladder, w: Window)
    requires Settled(l) && WindowOk(l, w)
    ensures |Filled(l, w).plan| == |l.plan| && Refreshed(Filled(l, w)) && Visible(Filled(l, w), w.qty) && w.qty > 0.0
    ensures Next(l, w) == Pass(Filled(l, w), w.qty)
    ensures Base(l, w) == Filled(l, w).position - Since(Filled(l, w).plan) > 0.0
  {
    RefreshedByFills(l, w.views);
  }

  lemma WindowSettles(l: Ladder, w: Window)
    requires Settled(l) && WindowOk(l, w)
    ensures Refreshed(Filled(l, w)) && Base(l, w) > 0.0 && |Filled(l, w).plan| == |l.plan|
    ensures var next := Next(l, w);
            && Settled(next) && next.position == w.qty && |next.plan| == |l.plan|
            && Proportional(Filled(l, w).plan, next.plan, Base(l, w), w.qty)
            && (forall i :: 0 <= i < |l.plan| ==> next.plan[i].filled == Filled(l, w).plan[i].filled)
  {
    hide Settled, Pass, Visible, Proportional, WindowOk, Filled, Refreshed, Next, Base, Since;
    WindowParts(l, w);
    PassProportionalIff(Filled(l, w), w.qty);
  }

  lemma FillComesOff(e: Entry, view: Read)
    requires EntrySettled(e) && Truthful(e, view)
    ensures Wanted(Refresh(e, view)) == Wanted(e) - (CumulativeFill(Refresh(e, view)) - CumulativeFill(e))
  {
  }

  lemma MovedNothing(base: real, qty: real)
    ensures Moved(0.0, base, qty) == 0.0
  {
  }

  lemma WindowSettlesAt(l: Ladder, w: Window, i: nat)
    requires Settled(l) && WindowOk(l, w) && i < |l.plan|
    ensures Base(l, w) > 0.0 && |Next(l, w).plan| == |l.plan| && |Filled(l, w).plan| == |l.plan|
    ensures Next(l, w).plan[i].filled == Filled(l, w).plan[i].filled
    ensures !Filled(l, w).plan[i].filled ==>
              Wanted(Next(l, w).plan[i]) == Moved(Wanted(Filled(l, w).plan[i]), Base(l, w), w.qty)
  {
    hide WindowOk, Next, Filled, Settled, Moved, Base, Refreshed, Wanted;
    WindowSettles(l, w);
  }

  lemma WindowFills(l: Ladder, w: Window, i: nat)
    requires Settled(l) && WindowOk(l, w) && i < |l.plan| && |Filled(l, w).plan| == |l.plan|
    ensures Wanted(Filled(l, w).plan[i]) == Wanted(l.plan[i]) - FillOf(l, w, i)
  {
    assert EntrySettled(l.plan[i]) && Truthful(l.plan[i], w.views[i]);
    assert Filled(l, w).plan[i] == Refresh(l.plan[i], w.views[i]);
    FillComesOff(l.plan[i], w.views[i]);
  }

  /** One window moves every wish as it ought to. */
  lemma WindowMoves(l: Ladder, w: Window, i: nat)
    requires Settled(l) && WindowOk(l, w) && i < |l.plan|
    ensures |Next(l, w).plan| == |l.plan|
    ensures Wanted(Next(l, w).plan[i]) == Moved(Wanted(l.plan[i]) - FillOf(l, w, i), Base(l, w), w.qty)
  {
    hide WindowOk, Next, Filled, Settled, Moved, Base, Wanted, FillOf;
    WindowSettlesAt(l, w, i);
    WindowFills(l, w, i);
    FilledWantsNothing(Filled(l, w).plan[i]);
    FilledWantsNothing(Next(l, w).plan[i]);
    MovedNothing(Base(l, w), w.qty);
  }

  lemma FilledWantsNothing(e: Entry)
    ensures e.filled ==> Wanted(e) == 0.0
  {
  }

  lemma MovedAdds(a: real, b: real, base: real, qty: real)
    requires base > 0.0
    ensures Moved(a + b, base, qty) == Moved(a, base, qty) + Moved(b, base, qty)
    ensures Moved(base, base, qty) == qty
  {
    assert base * (qty / base) == qty;
  }

  lemma TotalMoves(before: seq<Entry>, after: seq<Entry>, base: real, qty: real)
    requires base > 0.0 && Proportional(before, after, base, qty)
    requires forall i :: 0 <= i < |before| ==> after[i].filled == before[i].filled
    ensures TotalWanted(after) == Moved(TotalWanted(before), base, qty)
  {
    hide Moved;
    if before == [] {
      MovedNothing(base, qty);
    } else {
      var n := |before| - 1;
      TotalMoves(before[..n], after[..n], base, qty);
      MovedAdds(TotalWanted(before[..n]), Wanted(before[n]), base, qty);
      MovedNothing(base, qty);
    }
  }

  lemma RunnerAfterFills(l: Ladder, w: Window)
    requires Settled(l) && WindowOk(l, w)
    ensures Runner(l) + TotalWanted(Filled(l, w).plan) == Base(l, w)
  {
    FillsCounted(l.plan, w.views);
    TotalIsWanted(Filled(l, w).plan);
  }

  lemma RunnerOfSettled(l: Ladder)
    requires Settled(l)
    ensures Runner(l) == l.position - TotalWanted(l.plan)
  {
    SettledTotal(l.plan);
  }

  /** Fills leave the runner alone, a move from outside scales it. */
  lemma RunnerMoves(l: Ladder, w: Window)
    requires Settled(l) && WindowOk(l, w)
    ensures Base(l, w) > 0.0
    ensures Runner(Next(l, w)) == Moved(Runner(l), Base(l, w), w.qty)
  {
    hide WindowOk, Next, Filled, Settled, Runner, Moved, Base, Proportional, Refreshed, TotalWanted;
    WindowSettles(l, w);
    RunnerAfterFills(l, w);
    TotalMoves(Filled(l, w).plan, Next(l, w).plan, Base(l, w), w.qty);
    RunnerOfSettled(Next(l, w));
    MovedAdds(Runner(l), TotalWanted(Filled(l, w).plan), Base(l, w), w.qty);
  }

  /** Over any sequence of fills and visible moves from outside every level wants exactly
      its share, the runner keeps exactly its own, and the ladder never books more than the
      position. */
  lemma {:induction false} LadderFollowsPosition(l: Ladder, ws: seq<Window>, i: nat)
    requires Settled(l) && AllOk(l, ws) && i < |l.plan|
    ensures Settled(AfterAll(l, ws)) && |AfterAll(l, ws).plan| == |l.plan|
    ensures Wanted(AfterAll(l, ws).plan[i]) == Ideal(l, ws, i)
    ensures Runner(AfterAll(l, ws)) == IdealRunner(l, ws)
    ensures 0.0 <= Runner(AfterAll(l, ws))
  {
    hide WindowOk, Next, Moved, Total, Wanted, Base, FillOf, EntrySettled;
    if ws != [] {
      var before, w := AfterAll(l, ws[..|ws| - 1]), ws[|ws| - 1];
      LadderFollowsPosition(l, ws[..|ws| - 1], i);
      WindowSettles(before, w);
      WindowMoves(before, w, i);
      RunnerMoves(before, w);
    }
  }
}
