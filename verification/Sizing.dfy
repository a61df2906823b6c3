/** Order sizing: venue lots, the shared risk of two entry legs, and the reduction that
    removes an overshoot. Prices and quantities are exact reals; DecimalFloor is exact in
    the source too. */
module Sizing {
  import opened Prelude

  const MIN_STOP_DISTANCE_RATIO: real := 0.0005
  const DEFAULT_NOTIONAL_CAP: real := 30000.0

  datatype Rules = Rules(step: real, minQty: real, maxQty: real,
                         marketStep: real, marketMinQty: real, marketMaxQty: real,
                         minNotional: real)

  function DecimalFloor(value: real, step: real): Option<real> {
    if value <= 0.0 || step <= 0.0 then None
    else Some((value / step).Floor as real * step)
  }

  function Lot(rules: Rules, market: bool): real {
    if market && rules.marketStep > 0.0 then rules.marketStep else rules.step
  }

  function LotMinimum(rules: Rules, market: bool): real {
    if market && rules.marketStep > 0.0 then rules.marketMinQty else rules.minQty
  }

  function LotMaximum(rules: Rules, market: bool): real {
    if market && rules.marketStep > 0.0 then rules.marketMaxQty else rules.maxQty
  }

  function FloorQuantity(q: real, market: bool, rules: Rules): Option<real> {
    match DecimalFloor(q, Lot(rules, market))
    case None => None
    case Some(v) =>
      if v <= 0.0 || v < LotMinimum(rules, market) || (LotMaximum(rules, market) > 0.0 && v > LotMaximum(rules, market))
      then None else Some(v)
  }

  function Lots(n: int, step: real): real {
    n as real * step
  }

  ghost predicate WholeLots(q: real, step: real) {
    exists n: int :: q == Lots(n, step)
  }

  lemma FloorBounds(value: real, step: real)
    requires DecimalFloor(value, step).Some?
    ensures var v := DecimalFloor(value, step).value;
            0.0 <= v <= value < v + step && WholeLots(v, step)
  {
    var n := (value / step).Floor;
    var low, gap := BetweenLots(n as real, value / step, step);
    assert DecimalFloor(value, step).value == Lots(n, step) == low;
    assert value == low + gap;
    if n < 0 {
      MulMonotone(n as real, -1.0, step);
    } else {
      MulMonotone(0.0, n as real, step);
    }
  }

  lemma BetweenLots(n: real, ratio: real, step: real) returns (low: real, gap: real)
    requires step > 0.0 && n <= ratio < n + 1.0
    ensures low == n * step && ratio * step == low + gap && 0.0 <= gap < step
  {
    var f := ratio - n;
    low := n * step;
    gap := BelowOne(f, step);
    Distribute(n, f, step);
  }

  lemma BelowOne(f: real, step: real) returns (gap: real)
    requires 0.0 <= f < 1.0 && step > 0.0
    ensures gap == f * step && 0.0 <= gap < step
  {
    gap := f * step;
    MulMonotone(0.0, f, step);
    PositiveProduct(1.0 - f, step);
  }

  lemma Distribute(a: real, b: real, c: real)
    ensures (a + b) * c == a * c + b * c
  {
  }

  lemma MulMonotone(a: real, b: real, c: real)
    requires a <= b && 0.0 <= c
    ensures a * c <= b * c
  {
  }

  lemma PositiveProduct(a: real, b: real)
    requires a > 0.0 && b > 0.0
    ensures a * b > 0.0
  {
  }

  /** A lot quantity is a positive whole number of lots, at most what was asked for. */
  lemma FloorQuantityBounds(q: real, market: bool, rules: Rules)
    requires FloorQuantity(q, market, rules).Some?
    ensures var v := FloorQuantity(q, market, rules).value;
            && 0.0 < v <= q < v + Lot(rules, market) && WholeLots(v, Lot(rules, market))
            && LotMinimum(rules, market) <= v
            && (LotMaximum(rules, market) > 0.0 ==> v <= LotMaximum(rules, market))
  {
    FloorBounds(q, Lot(rules, market));
  }

  /** The largest whole number of lots at most q, if it is within the limits. */
  ghost predicate LargestLots(q: real, market: bool, rules: Rules, v: real) {
    && WholeLots(v, Lot(rules, market)) && 0.0 < v <= q < v + Lot(rules, market)
    && LotMinimum(rules, market) <= v && (LotMaximum(rules, market) > 0.0 ==> v <= LotMaximum(rules, market))
  }

  /** A tradable quantity is found exactly when there is one, and it is that one. */
  lemma FloorQuantityExact(q: real, market: bool, rules: Rules, v: real)
    ensures FloorQuantity(q, market, rules) == Some(v) <==> LargestLots(q, market, rules, v)
  {
    if FloorQuantity(q, market, rules) == Some(v) {
      FloorQuantityBounds(q, market, rules);
      assert LargestLots(q, market, rules, v);
    } else if LargestLots(q, market, rules, v) {
      hide WholeLots, Lot, LotMinimum, LotMaximum, DecimalFloor;
      OnlyFloor(q, Lot(rules, market), v);
      assert false;
    }
  }

  lemma OnlyFloor(q: real, lot: real, v: real)
    requires WholeLots(v, lot) && 0.0 < v <= q < v + lot
    ensures DecimalFloor(q, lot) == Some(v)
  {
    var n: int :| v == Lots(n, lot);
    FloorIs(q, lot, n);
    FloorInLots(q, lot);
  }

  lemma FloorInLots(q: real, lot: real)
    requires q > 0.0 && lot > 0.0
    ensures DecimalFloor(q, lot) == Some(Lots((q / lot).Floor, lot))
  {
  }

  lemma FloorIs(q: real, lot: real, n: int)
    requires lot > 0.0 && Lots(n, lot) <= q < Lots(n, lot) + lot
    ensures (q / lot).Floor == n
  {
    assert Product(q / lot, lot) == q && Product(n as real, lot) == Lots(n, lot);
    RatioBetween(n as real, q / lot, lot, Lots(n, lot), q);
  }

  function Product(a: real, b: real): real {
    a * b
  }

  lemma RatioBetween(n: real, ratio: real, lot: real, v: real, q: real)
    requires lot > 0.0 && Product(ratio, lot) == q && Product(n, lot) == v && v <= q < v + lot
    ensures n <= ratio < n + 1.0
  {
    hide Product;
    if ratio < n {
      ProductStrict(ratio, n, lot);
    } else if ratio >= n + 1.0 {
      ProductMonotone(n + 1.0, ratio, lot);
      ProductOneMore(n, lot);
    }
  }

  lemma ProductStrict(a: real, b: real, c: real)
    requires a < b && 0.0 < c
    ensures Product(a, c) < Product(b, c)
  {
  }

  lemma ProductMonotone(a: real, b: real, c: real)
    requires a <= b && 0.0 <= c
    ensures Product(a, c) <= Product(b, c)
  {
  }

  lemma ProductOneMore(a: real, c: real)
    ensures Product(a + 1.0, c) == Product(a, c) + c
  {
  }

  function EffectiveNotionalCap(cap: real): real {
    if cap > 0.0 then cap else DEFAULT_NOTIONAL_CAP
  }

  // ---- Two legs that share one risk budget ---------------------------------------------

  datatype SplitPlan = SplitPlan(long: bool, entry: real, reference: real, stop: real,
                                 riskBudget: real, maxNotional: real, margin: real, leverage: int)

  predicate StopTooClose(price: real, stop: real) {
    price <= 0.0 || Abs(price - stop) / price < MIN_STOP_DISTANCE_RATIO
  }

  function SplitCap(plan: SplitPlan): real {
    Min(EffectiveNotionalCap(plan.maxNotional), plan.margin * 0.9 * plan.leverage as real)
  }

  predicate Splittable(plan: SplitPlan) {
    && plan.riskBudget > 0.0 && plan.reference > 0.0 && plan.margin > 0.0
    && plan.entry != plan.stop && plan.reference != plan.stop
    && !(plan.long && plan.reference <= plan.stop) && !(!plan.long && plan.reference >= plan.stop)
    && !StopTooClose(plan.entry, plan.stop) && !StopTooClose(plan.reference, plan.stop)
  }

  /** Half of the risk on one leg, before the caps and lots. */
  function HalfRisk(plan: SplitPlan, price: real): real
    requires price != plan.stop
  {
    plan.riskBudget / 2.0 / Abs(price - plan.stop)
  }

  function Value(q: real, price: real): real {
    q * price
  }

  function Risk(q: real, price: real, stop: real): real {
    q * Abs(price - stop)
  }

  function Share(h: real, scale: real): real {
    h * scale
  }

  function Notional(plan: SplitPlan, q1: real, q2: real): real {
    q1 * plan.entry + q2 * plan.reference
  }

  function Scale(cap: real, notional: real): real {
    if notional <= 0.0 then 1.0 else Min(1.0, cap / notional)
  }

  /** Both shares in lots, when each leg is tradable. */
  function FloorBoth(plan: SplitPlan, rules: Rules, x1: real, x2: real): Option<(real, real)> {
    match FloorQuantity(x1, true, rules)
    case None => None
    case Some(q1) =>
      match FloorQuantity(x2, false, rules)
      case None => None
      case Some(q2) =>
        if q1 * plan.entry < rules.minNotional || q2 * plan.reference < rules.minNotional
        then None else Some((q1, q2))
  }

  function SplitQuantities(plan: SplitPlan, rules: Rules): Option<(real, real)> {
    if !Splittable(plan) then None
    else
      var h1, h2 := HalfRisk(plan, plan.entry), HalfRisk(plan, plan.reference);
      var scale := Scale(SplitCap(plan), Notional(plan, h1, h2));
      FloorBoth(plan, rules, Share(h1, scale), Share(h2, scale))
  }

  /** h carries half of the risk budget at a price. */
  ghost predicate HalfOfRisk(plan: SplitPlan, price: real, h: real) {
    h > 0.0 && h * Abs(price - plan.stop) == plan.riskBudget / 2.0
  }

  lemma HalfRiskExact(plan: SplitPlan, price: real)
    requires plan.riskBudget > 0.0 && price != plan.stop
    ensures HalfOfRisk(plan, price, HalfRisk(plan, price))
  {
  }

  /** A scale that cuts a notional down to a cap, and only as far as needed. */
  ghost predicate ScaledTo(cap: real, notional: real, scale: real) {
    && scale <= 1.0 && scale * notional <= cap
    && (scale == 1.0 || scale * notional == cap)
  }

  lemma ScaleExact(cap: real, notional: real)
    requires notional > 0.0
    ensures ScaledTo(cap, notional, Scale(cap, notional))
  {
    var ratio := cap / notional;
    assert ratio * notional == cap;
    if ratio >= 1.0 {
      MulMonotone(1.0, ratio, notional);
    }
  }

  ghost predicate FarFromStop(price: real, stop: real) {
    0.0 < price && MIN_STOP_DISTANCE_RATIO * price <= Abs(price - stop)
  }

  lemma DistanceFloor(price: real, stop: real)
    requires !StopTooClose(price, stop)
    ensures FarFromStop(price, stop)
  {
    MulMonotone(MIN_STOP_DISTANCE_RATIO, Abs(price - stop) / price, price);
  }

  ghost predicate AtMostShare(q: real, h: real, scale: real) {
    q <= Share(h, scale)
  }

  ghost predicate WithinRisk(plan: SplitPlan, q1: real, q2: real) {
    q1 * Abs(plan.entry - plan.stop) + q2 * Abs(plan.reference - plan.stop) <= plan.riskBudget
  }

  ghost predicate WithinNotional(plan: SplitPlan, q1: real, q2: real, cap: real) {
    Notional(plan, q1, q2) <= cap
  }

  lemma ScaledLeg(q: real, h: real, scale: real, d: real)
    requires AtMostShare(q, h, scale) && 0.0 <= d
    ensures q * d <= scale * (h * d)
  {
    MulMonotone(q, Share(h, scale), d);
  }

  /** Two legs below their scaled shares carry at most both half risks... */
  lemma SharesWithinRisk(plan: SplitPlan, h1: real, h2: real, scale: real, q1: real, q2: real)
    requires plan.riskBudget > 0.0 && scale <= 1.0
    requires HalfOfRisk(plan, plan.entry, h1) && HalfOfRisk(plan, plan.reference, h2)
    requires AtMostShare(q1, h1, scale) && AtMostShare(q2, h2, scale)
    ensures WithinRisk(plan, q1, q2)
  {
    ScaledLeg(q1, h1, scale, Abs(plan.entry - plan.stop));
    ScaledLeg(q2, h2, scale, Abs(plan.reference - plan.stop));
    MulMonotone(scale, 1.0, plan.riskBudget / 2.0);
  }

  /** ... and are worth at most the scaled notional. */
  lemma SharesWithinNotional(plan: SplitPlan, h1: real, h2: real, scale: real, q1: real, q2: real, cap: real)
    requires 0.0 < plan.entry && 0.0 < plan.reference
    requires ScaledTo(cap, Notional(plan, h1, h2), scale)
    requires AtMostShare(q1, h1, scale) && AtMostShare(q2, h2, scale)
    ensures WithinNotional(plan, q1, q2, cap)
  {
    ScaledLeg(q1, h1, scale, plan.entry);
    ScaledLeg(q2, h2, scale, plan.reference);
  }

  lemma FloorAtMostShare(h: real, scale: real, market: bool, rules: Rules)
    requires FloorQuantity(Share(h, scale), market, rules).Some?
    ensures AtMostShare(FloorQuantity(Share(h, scale), market, rules).value, h, scale)
  {
    FloorQuantityBounds(Share(h, scale), market, rules);
  }

  lemma NotionalPositive(plan: SplitPlan, h1: real, h2: real)
    requires HalfOfRisk(plan, plan.entry, h1) && HalfOfRisk(plan, plan.reference, h2)
    requires 0.0 < plan.entry && 0.0 < plan.reference
    ensures 0.0 < Notional(plan, h1, h2)
  {
    PositiveProduct(h1, plan.entry);
    PositiveProduct(h2, plan.reference);
  }

  lemma FloorBothParts(plan: SplitPlan, rules: Rules, x1: real, x2: real)
    requires FloorBoth(plan, rules, x1, x2).Some?
    ensures var (q1, q2) := FloorBoth(plan, rules, x1, x2).value;
            && FloorQuantity(x1, true, rules) == Some(q1) && FloorQuantity(x2, false, rules) == Some(q2)
            && rules.minNotional <= q1 * plan.entry && rules.minNotional <= q2 * plan.reference
  {
  }

  /** A successful split, taken apart into its shares and their floors. */
  lemma SplitTakenApart(plan: SplitPlan, rules: Rules) returns (h1: real, h2: real, scale: real)
    requires SplitQuantities(plan, rules).Some?
    ensures Splittable(plan)
    ensures SplitQuantities(plan, rules) == FloorBoth(plan, rules, Share(h1, scale), Share(h2, scale))
    ensures HalfOfRisk(plan, plan.entry, h1) && HalfOfRisk(plan, plan.reference, h2)
    ensures ScaledTo(SplitCap(plan), Notional(plan, h1, h2), scale)
  {
    hide FloorBoth, HalfOfRisk, ScaledTo, HalfRisk, Scale, SplitCap, Share, Notional;
    h1, h2 := HalfRisk(plan, plan.entry), HalfRisk(plan, plan.reference);
    scale := Scale(SplitCap(plan), Notional(plan, h1, h2));
    HalfRiskExact(plan, plan.entry);
    HalfRiskExact(plan, plan.reference);
    NotionalPositive(plan, h1, h2);
    ScaleExact(SplitCap(plan), Notional(plan, h1, h2));
  }

  /** For every plan and every market: the two legs together respect the risk budget, and
      their notional respects the notional cap and the margin. */
  lemma SplitRespectsCaps(plan: SplitPlan, rules: Rules)
    requires SplitQuantities(plan, rules).Some?
    ensures var (q1, q2) := SplitQuantities(plan, rules).value;
            && WithinRisk(plan, q1, q2)
            && WithinNotional(plan, q1, q2, EffectiveNotionalCap(plan.maxNotional))
            && WithinNotional(plan, q1, q2, plan.margin * 0.9 * plan.leverage as real)
  {
    var (q1, q2) := SplitQuantities(plan, rules).value;
    assert WithinRisk(plan, q1, q2) && WithinNotional(plan, q1, q2, SplitCap(plan)) by {
      hide FloorBoth, FloorQuantity, SplitQuantities, ScaledTo, HalfOfRisk, AtMostShare, WithinRisk, WithinNotional, SplitCap, Share, Notional;
      var h1, h2, scale := SplitTakenApart(plan, rules);
      FloorBothParts(plan, rules, Share(h1, scale), Share(h2, scale));
      FloorAtMostShare(h1, scale, true, rules);
      FloorAtMostShare(h2, scale, false, rules);
      SharesWithinRisk(plan, h1, h2, scale, q1, q2);
      SharesWithinNotional(plan, h1, h2, scale, q1, q2, SplitCap(plan));
    }
    hide SplitQuantities, WithinRisk;
  }

  /** Each leg is a positive number of lots, is far enough from the stop, and is worth the
      minimum notional. */
  lemma SplitLegsTradable(plan: SplitPlan, rules: Rules)
    requires SplitQuantities(plan, rules).Some?
    ensures var (q1, q2) := SplitQuantities(plan, rules).value;
            && 0.0 < q1 && WholeLots(q1, Lot(rules, true)) && 0.0 < q2 && WholeLots(q2, Lot(rules, false))
            && FarFromStop(plan.entry, plan.stop) && FarFromStop(plan.reference, plan.stop)
            && rules.minNotional <= q1 * plan.entry && rules.minNotional <= q2 * plan.reference
  {
    hide FloorBoth, FloorQuantity, SplitQuantities, StopTooClose, FarFromStop, WholeLots, Lot, LotMinimum, LotMaximum, Share;
    var h1, h2, scale := SplitTakenApart(plan, rules);
    FloorBothParts(plan, rules, Share(h1, scale), Share(h2, scale));
    FloorQuantityBounds(Share(h1, scale), true, rules);
    FloorQuantityBounds(Share(h2, scale), false, rules);
    DistanceFloor(plan.entry, plan.stop);
    DistanceFloor(plan.reference, plan.stop);
  }

  /** Nothing beyond a lot is wasted: each leg is within one lot of a share, the shares
      carry equal risk, and they fall short of half the budget only when they reach the cap. */
  ghost predicate TightShares(plan: SplitPlan, rules: Rules, q1: real, q2: real, x1: real, x2: real) {
    && q1 <= x1 < q1 + Lot(rules, true) && q2 <= x2 < q2 + Lot(rules, false)
    && EqualRisk(plan, x1, x2)
    && (HalfOfRisk(plan, plan.entry, x1) || Notional(plan, x1, x2) == SplitCap(plan))
  }

  ghost predicate EqualRisk(plan: SplitPlan, x1: real, x2: real) {
    x1 * Abs(plan.entry - plan.stop) == x2 * Abs(plan.reference - plan.stop)
  }

  lemma SharesTight(plan: SplitPlan, h1: real, h2: real, scale: real, cap: real)
    requires HalfOfRisk(plan, plan.entry, h1) && HalfOfRisk(plan, plan.reference, h2)
    requires ScaledTo(cap, Notional(plan, h1, h2), scale)
    ensures EqualRisk(plan, Share(h1, scale), Share(h2, scale))
    ensures HalfOfRisk(plan, plan.entry, Share(h1, scale)) ||
            Notional(plan, Share(h1, scale), Share(h2, scale)) == cap
  {
    assert h1 * scale * Abs(plan.entry - plan.stop) == scale * (h1 * Abs(plan.entry - plan.stop));
    assert h2 * scale * Abs(plan.reference - plan.stop) == scale * (h2 * Abs(plan.reference - plan.stop));
    if scale != 1.0 {
      assert Notional(plan, Share(h1, scale), Share(h2, scale)) == scale * (Notional(plan, h1, h2));
    }
  }

  lemma SplitIsTight(plan: SplitPlan, rules: Rules)
    requires SplitQuantities(plan, rules).Some?
    ensures exists x1: real, x2: real ::
              TightShares(plan, rules, SplitQuantities(plan, rules).value.0, SplitQuantities(plan, rules).value.1, x1, x2)
  {
    hide FloorBoth, FloorQuantity, SplitQuantities, ScaledTo, HalfOfRisk, EqualRisk, SplitCap, WholeLots, LotMinimum, LotMaximum, Lot, Share;
    var (q1, q2) := SplitQuantities(plan, rules).value;
    var h1, h2, scale := SplitTakenApart(plan, rules);
    FloorBothParts(plan, rules, Share(h1, scale), Share(h2, scale));
    FloorQuantityBounds(Share(h1, scale), true, rules);
    FloorQuantityBounds(Share(h2, scale), false, rules);
    SharesTight(plan, h1, h2, scale, SplitCap(plan));
    assert TightShares(plan, rules, q1, q2, Share(h1, scale), Share(h2, scale));
  }

  /** Shares of equal risk that carry half of the budget each, or as much of it as the cap
      allows. */
  ghost predicate IdealShares(plan: SplitPlan, x1: real, x2: real) {
    && x1 > 0.0 && EqualRisk(plan, x1, x2)
    && ((HalfOfRisk(plan, plan.entry, x1) && Notional(plan, x1, x2) <= SplitCap(plan))
        || (x1 * Abs(plan.entry - plan.stop) <= plan.riskBudget / 2.0 && Notional(plan, x1, x2) == SplitCap(plan)))
  }

  /** The split succeeds exactly when the ideal shares are tradable, with their largest lots. */
  lemma SplitExact(plan: SplitPlan, rules: Rules, x1: real, x2: real, q1: real, q2: real)
    requires Splittable(plan) && IdealShares(plan, x1, x2)
    ensures SplitQuantities(plan, rules) == Some((q1, q2)) <==>
              && LargestLots(x1, true, rules, q1) && LargestLots(x2, false, rules, q2)
              && rules.minNotional <= q1 * plan.entry && rules.minNotional <= q2 * plan.reference
  {
    hide LargestLots, FloorQuantity, Splittable, IdealShares;
    SplitByShares(plan, rules, x1, x2);
    hide SplitQuantities;
    FloorQuantityExact(x1, true, rules, q1);
    FloorQuantityExact(x2, false, rules, q2);
  }

  lemma SplitByShares(plan: SplitPlan, rules: Rules, x1: real, x2: real)
    requires Splittable(plan) && IdealShares(plan, x1, x2)
    ensures SplitQuantities(plan, rules) == FloorBoth(plan, rules, x1, x2)
  {
    hide HalfRisk, Scale, SplitCap, Notional, StopTooClose, IdealShares, FloorBoth, Share, HalfOfRisk, ScaledTo;
    var h1, h2 := HalfRisk(plan, plan.entry), HalfRisk(plan, plan.reference);
    var scale := Scale(SplitCap(plan), Notional(plan, h1, h2));
    HalfRiskExact(plan, plan.entry);
    HalfRiskExact(plan, plan.reference);
    ReferencesPositive(plan);
    NotionalPositive(plan, h1, h2);
    ScaleExact(SplitCap(plan), Notional(plan, h1, h2));
    SharesUnique(plan, h1, h2, scale, x1, x2);
  }

  lemma ReferencesPositive(plan: SplitPlan)
    requires Splittable(plan)
    ensures 0.0 < plan.entry && 0.0 < plan.reference
  {
  }

  lemma SharesUnique(plan: SplitPlan, h1: real, h2: real, scale: real, x1: real, x2: real)
    requires plan.entry != plan.stop && plan.reference != plan.stop && 0.0 < plan.entry && 0.0 < plan.reference
    requires plan.riskBudget > 0.0
    requires HalfOfRisk(plan, plan.entry, h1) && HalfOfRisk(plan, plan.reference, h2) && IdealShares(plan, x1, x2)
    requires ScaledTo(SplitCap(plan), Notional(plan, h1, h2), scale)
    ensures Share(h1, scale) == x1 && Share(h2, scale) == x2
  {
    var t := ShareFactor(plan, h1, h2, x1, x2);
    NotionalPositive(plan, h1, h2);
    assert t == scale by {
      hide SplitCap, Notional, ScaledTo, IdealShares;
      IdealFactor(plan, h1, h2, x1, x2, t);
      SameScale(t, scale, Notional(plan, h1, h2), SplitCap(plan));
    }
    hide Notional, SplitCap, ScaledTo, IdealShares, HalfOfRisk;
  }

  lemma ShareFactor(plan: SplitPlan, h1: real, h2: real, x1: real, x2: real) returns (t: real)
    requires HalfOfRisk(plan, plan.entry, h1) && HalfOfRisk(plan, plan.reference, h2) && EqualRisk(plan, x1, x2)
    requires plan.reference != plan.stop
    ensures x1 == Share(h1, t) && x2 == Share(h2, t)
  {
    t := x1 / h1;
    assert t * h1 == x1;
    SameRiskShare(t, h1, Abs(plan.entry - plan.stop), h2, Abs(plan.reference - plan.stop), x1, x2);
  }

  /** Ideal shares are the halves of the risk, all or as much as reaches the cap. */
  lemma IdealFactor(plan: SplitPlan, h1: real, h2: real, x1: real, x2: real, t: real)
    requires plan.riskBudget > 0.0 && HalfOfRisk(plan, plan.entry, h1) && IdealShares(plan, x1, x2)
    requires x1 == Share(h1, t) && x2 == Share(h2, t)
    ensures var n := Notional(plan, h1, h2);
            (t == 1.0 && t * n <= SplitCap(plan)) || (t <= 1.0 && t * n == SplitCap(plan))
  {
    hide SplitCap;
    NotionalScales(plan, t, h1, h2, x1, x2);
    AtMostWhole(t, h1, Abs(plan.entry - plan.stop), plan.riskBudget / 2.0, x1);
    hide Notional;
  }

  lemma SameRiskShare(t: real, h1: real, d1: real, h2: real, d2: real, x1: real, x2: real)
    requires d2 > 0.0 && h1 * d1 == h2 * d2 && x1 * d1 == x2 * d2 && t * h1 == x1
    ensures x2 == h2 * t
  {
    Regroup(t, h1, d1);
    Regroup(t, h2, d2);
    CancelRight(x2, t * h2, d2);
  }

  lemma Regroup(a: real, b: real, c: real)
    ensures a * b * c == a * (b * c)
  {
  }

  lemma CancelRight(a: real, b: real, c: real)
    requires c > 0.0 && a * c == b * c
    ensures a == b
  {
    if a < b {
      PositiveProduct(b - a, c);
    } else if b < a {
      PositiveProduct(a - b, c);
    }
  }

  lemma NotionalScales(plan: SplitPlan, t: real, h1: real, h2: real, x1: real, x2: real)
    requires x1 == Share(h1, t) && x2 == Share(h2, t)
    ensures Notional(plan, x1, x2) == t * Notional(plan, h1, h2)
  {
    Regroup(t, h1, plan.entry);
    Regroup(t, h2, plan.reference);
    Distribute(h1 * plan.entry, h2 * plan.reference, t);
  }

  lemma AtMostWhole(t: real, h: real, d: real, half: real, x: real)
    requires h * d == half && half > 0.0 && x == Share(h, t)
    ensures x * d <= half <==> t <= 1.0
    ensures x * d == half <==> t == 1.0
  {
    Regroup(t, h, d);
    assert x * d == t * half;
    if t < 1.0 {
      PositiveProduct(1.0 - t, half);
      Distribute(1.0 - t, t, half);
    } else if t > 1.0 {
      PositiveProduct(t - 1.0, half);
      Distribute(t - 1.0, 1.0, half);
    }
  }

  lemma SameScale(t: real, scale: real, notional: real, cap: real)
    requires notional > 0.0 && ScaledTo(cap, notional, scale)
    requires (t == 1.0 && t * notional <= cap) || (t <= 1.0 && t * notional == cap)
    ensures t == scale
  {
    if scale < t {
      PositiveProduct(t - scale, notional);
    } else if t < scale {
      PositiveProduct(scale - t, notional);
    }
  }

  // ---- The second leg, sized when the first has filled -----------------------------------

  /** The frozen entry plan; marginBudget is not set when it is not positive. */
  datatype EntryPlan = EntryPlan(long: bool, reference: real, riskBudget: real, stop: real,
                                 maxNotional: real, marginBudget: real, leverage: int, rules: Rules)

  /** budget / distance as a cap on want. A zero distance gives no cap, or no quantity when
      the budget is zero too. */
  function CapByRisk(want: real, budget: real, distance: real): real {
    if distance != 0.0 then Min(want, budget / distance)
    else if budget == 0.0 then 0.0
    else want
  }

  function MarginCap(plan: EntryPlan): real {
    plan.marginBudget * plan.leverage as real
  }

  /** What each remaining budget, and the free balance, allow at a price. */
  function Want(plan: EntryPlan, planned: real, price: real, riskLeft: real, notionalLeft: real,
                marginLeft: real, free: real): real
    requires price > 0.0
  {
    var byRisk := CapByRisk(planned, riskLeft, Abs(price - plan.stop));
    var byNotional := Min(byRisk, notionalLeft / price);
    var byMargin := if plan.marginBudget > 0.0 then Min(byNotional, marginLeft / price) else byNotional;
    Min(byMargin, free / price)
  }

  function RiskLeft(plan: EntryPlan, executed: real, avg: real): real {
    Max(0.0, plan.riskBudget - Risk(executed, avg, plan.stop))
  }

  function Left(cap: real, executed: real, avg: real): real {
    Max(0.0, cap - Value(executed, avg))
  }

  function Free(plan: EntryPlan, available: real): real {
    available * 0.9 * plan.leverage as real
  }

  /** The quantity the second leg may still carry, or None when it is refused. */
  function SecondLeg(plan: EntryPlan, planned: real, price: real, executed: real, avg: real, available: real): Option<real> {
    if price <= 0.0 then None
    else
      var want := Want(plan, planned, price, RiskLeft(plan, executed, avg),
                       Left(EffectiveNotionalCap(plan.maxNotional), executed, avg),
                       Left(MarginCap(plan), executed, avg), Free(plan, available));
      match FloorQuantity(want, false, plan.rules)
      case None => None
      case Some(q) => if Value(q, price) < plan.rules.minNotional then None else Some(q)
  }

  /** Risk, notional and margin of a quantity at an average price. */
  ghost predicate WithinCaps(plan: EntryPlan, quantity: real, avg: real) {
    && Risk(quantity, avg, plan.stop) <= plan.riskBudget
    && Value(quantity, avg) <= EffectiveNotionalCap(plan.maxNotional)
    && (plan.marginBudget > 0.0 ==> Value(quantity, avg) <= MarginCap(plan))
  }

  lemma DivValue(q: real, x: real, d: real)
    requires d > 0.0
    ensures q <= x / d <==> Value(q, d) <= x
  {
    var ratio := x / d;
    assert ratio * d == x;
    if q <= ratio {
      MulMonotone(q, ratio, d);
    } else {
      PositiveProduct(q - ratio, d);
    }
  }

  lemma DivRisk(q: real, x: real, price: real, stop: real)
    requires price != stop
    ensures q <= x / Abs(price - stop) <==> Risk(q, price, stop) <= x
  {
    DivValue(q, x, Abs(price - stop));
  }

  /** A quantity that uses no more than what is left of each budget. */
  ghost predicate Fits(plan: EntryPlan, q: real, price: real, executed: real, avg: real, available: real) {
    && Risk(q, price, plan.stop) <= RiskLeft(plan, executed, avg)
    && Value(q, price) <= Left(EffectiveNotionalCap(plan.maxNotional), executed, avg)
    && (plan.marginBudget > 0.0 ==> Value(q, price) <= Left(MarginCap(plan), executed, avg))
    && Value(q, price) <= Free(plan, available)
  }

  lemma WantFits(plan: EntryPlan, planned: real, price: real, riskLeft: real, notionalLeft: real,
                 marginLeft: real, free: real, q: real)
    requires price > 0.0 && q <= Want(plan, planned, price, riskLeft, notionalLeft, marginLeft, free)
    requires 0.0 <= riskLeft
    ensures q <= planned || (riskLeft == 0.0 && q <= 0.0)
    ensures Risk(q, price, plan.stop) <= riskLeft && Value(q, price) <= notionalLeft
    ensures (plan.marginBudget > 0.0 ==> Value(q, price) <= marginLeft) && Value(q, price) <= free
  {
    if price != plan.stop {
      DivRisk(q, riskLeft, price, plan.stop);
    }
    DivValue(q, notionalLeft, price);
    DivValue(q, marginLeft, price);
    DivValue(q, free, price);
    hide Risk, Value;
  }

  lemma SecondLegFits(plan: EntryPlan, planned: real, price: real, executed: real, avg: real, available: real)
    requires SecondLeg(plan, planned, price, executed, avg, available).Some?
    ensures var q := SecondLeg(plan, planned, price, executed, avg, available).value;
            && 0.0 < q <= planned && 0.0 < price && Fits(plan, q, price, executed, avg, available)
            && WholeLots(q, Lot(plan.rules, false)) && plan.rules.minNotional <= Value(q, price)
  {
    hide Want, FloorQuantity, Risk, Value, EffectiveNotionalCap, MarginCap, Free, WholeLots, Lot, LotMinimum, LotMaximum;
    var q := SecondLeg(plan, planned, price, executed, avg, available).value;
    var want := Want(plan, planned, price, RiskLeft(plan, executed, avg),
                     Left(EffectiveNotionalCap(plan.maxNotional), executed, avg),
                     Left(MarginCap(plan), executed, avg), Free(plan, available));
    FloorQuantityBounds(want, false, plan.rules);
    WantFits(plan, planned, price, RiskLeft(plan, executed, avg),
             Left(EffectiveNotionalCap(plan.maxNotional), executed, avg),
             Left(MarginCap(plan), executed, avg), Free(plan, available), q);
  }

  /** What fits the budgets is what the leg may want. */
  lemma FitsWant(plan: EntryPlan, planned: real, price: real, riskLeft: real, notionalLeft: real,
                 marginLeft: real, free: real, q: real)
    requires price > 0.0 && price != plan.stop && q <= planned
    requires Risk(q, price, plan.stop) <= riskLeft && Value(q, price) <= notionalLeft
    requires (plan.marginBudget > 0.0 ==> Value(q, price) <= marginLeft) && Value(q, price) <= free
    ensures q <= Want(plan, planned, price, riskLeft, notionalLeft, marginLeft, free)
  {
    DivRisk(q, riskLeft, price, plan.stop);
    DivValue(q, notionalLeft, price);
    DivValue(q, marginLeft, price);
    DivValue(q, free, price);
    hide Risk, Value;
  }

  /** A tradable quantity of a limit order that uses no more than what is left. */
  ghost predicate Affordable(plan: EntryPlan, planned: real, price: real, executed: real, avg: real, available: real, q: real) {
    && 0.0 < q <= planned && Fits(plan, q, price, executed, avg, available)
    && WholeLots(q, Lot(plan.rules, false)) && LotMinimum(plan.rules, false) <= q
    && plan.rules.minNotional <= Value(q, price)
  }

  /** The second leg is refused only when nothing tradable fits the budgets, and otherwise it is
      the largest that does. */
  lemma SecondLegLargest(plan: EntryPlan, planned: real, price: real, executed: real, avg: real, available: real, q: real)
    requires price > 0.0 && price != plan.stop && Affordable(plan, planned, price, executed, avg, available, q)
    requires Lot(plan.rules, false) > 0.0 && (LotMaximum(plan.rules, false) > 0.0 ==> planned <= LotMaximum(plan.rules, false))
    ensures SecondLeg(plan, planned, price, executed, avg, available).Some?
    ensures q <= SecondLeg(plan, planned, price, executed, avg, available).value
  {
    hide Want, Risk, Value, EffectiveNotionalCap, MarginCap, Free, LotMinimum, LotMaximum, Lot;
    var want := Want(plan, planned, price, RiskLeft(plan, executed, avg),
                     Left(EffectiveNotionalCap(plan.maxNotional), executed, avg),
                     Left(MarginCap(plan), executed, avg), Free(plan, available));
    FitsWant(plan, planned, price, RiskLeft(plan, executed, avg),
             Left(EffectiveNotionalCap(plan.maxNotional), executed, avg),
             Left(MarginCap(plan), executed, avg), Free(plan, available), q);
    WantBelow(plan, planned, price, RiskLeft(plan, executed, avg),
              Left(EffectiveNotionalCap(plan.maxNotional), executed, avg),
              Left(MarginCap(plan), executed, avg), Free(plan, available));
    LargerFloor(want, false, plan.rules, q);
    ValueGrows(q, FloorQuantity(want, false, plan.rules).value, price);
  }

  lemma WantBelow(plan: EntryPlan, planned: real, price: real, riskLeft: real, notionalLeft: real,
                  marginLeft: real, free: real)
    requires price > 0.0 && price != plan.stop
    ensures Want(plan, planned, price, riskLeft, notionalLeft, marginLeft, free) <= planned
  {
  }

  lemma ValueGrows(a: real, b: real, price: real)
    requires a <= b && price > 0.0
    ensures Value(a, price) <= Value(b, price)
  {
    MulMonotone(a, b, price);
  }

  /** A whole number of lots within the limits is at most the lots found for more. */
  lemma LargerFloor(want: real, market: bool, rules: Rules, q: real)
    requires 0.0 < q <= want && WholeLots(q, Lot(rules, market)) && Lot(rules, market) > 0.0
    requires LotMinimum(rules, market) <= q && (LotMaximum(rules, market) > 0.0 ==> want <= LotMaximum(rules, market))
    ensures FloorQuantity(want, market, rules).Some? && q <= FloorQuantity(want, market, rules).value
  {
    hide WholeLots, Lot, LotMinimum, LotMaximum;
    FloorBounds(want, Lot(rules, market));
    FloorAbove(want, Lot(rules, market), q);
  }

  lemma FloorAbove(want: real, lot: real, q: real)
    requires 0.0 < q <= want && WholeLots(q, lot) && lot > 0.0
    ensures DecimalFloor(want, lot).Some? && q <= DecimalFloor(want, lot).value
  {
    var n: int :| q == Lots(n, lot);
    var m := FloorLots(want, lot);
    hide DecimalFloor;
    assert n <= m by {
      LotsBelow(want, lot, n, m);
    }
    hide Lots;
    LotsMonotone(n, m, lot);
  }

  lemma FloorLots(want: real, lot: real) returns (m: int)
    requires want > 0.0 && lot > 0.0
    ensures DecimalFloor(want, lot) == Some(Lots(m, lot)) && m == (want / lot).Floor
  {
    m := (want / lot).Floor;
  }

  lemma LotsMonotone(n: int, m: int, lot: real)
    requires n <= m && lot > 0.0
    ensures Lots(n, lot) <= Lots(m, lot)
  {
    MulMonotone(n as real, m as real, lot);
  }

  lemma LotsBelow(want: real, lot: real, n: int, m: int)
    requires lot > 0.0 && Lots(n, lot) <= want && m == (want / lot).Floor
    ensures n <= m
  {
    var ratio := want / lot;
    AtLeast(n as real, ratio, lot, Lots(n, lot), want);
  }

  lemma AtLeast(n: real, ratio: real, lot: real, q: real, want: real)
    requires lot > 0.0 && ratio * lot == want && n * lot == q && q <= want
    ensures n <= ratio
  {
    if ratio < n {
      PositiveProduct(n - ratio, lot);
      Distribute(n - ratio, ratio, lot);
    }
  }

  ghost predicate SameSide(a: real, b: real, stop: real) {
    (a >= stop && b >= stop) || (a <= stop && b <= stop)
  }

  /** The average price of two fills. */
  ghost predicate AverageOf(avg: real, e: real, a: real, f: real, p: real) {
    Value(e + f, avg) == Value(e, a) + Value(f, p)
  }

  lemma AverageExact(e: real, a: real, f: real, p: real)
    requires e > 0.0 && f >= 0.0
    ensures AverageOf((e * a + f * p) / (e + f), e, a, f, p)
  {
  }

  /** On one side of the stop the risks of two fills add up. */
  lemma RisksAdd(e: real, a: real, f: real, p: real, stop: real, avg: real)
    requires e > 0.0 && f >= 0.0 && SameSide(a, p, stop) && AverageOf(avg, e, a, f, p)
    ensures Risk(e + f, avg, stop) == Risk(e, a, stop) + Risk(f, p, stop)
  {
    DistancesAdd(e, a, f, p, stop, avg);
  }

  lemma DistancesAdd(e: real, a: real, f: real, p: real, stop: real, avg: real)
    requires e > 0.0 && f >= 0.0 && SameSide(a, p, stop) && (e + f) * avg == e * a + f * p
    ensures (e + f) * Abs(avg - stop) == e * Abs(a - stop) + f * Abs(p - stop)
  {
    assert (e + f) * (avg - stop) == e * (a - stop) + f * (p - stop);
    if a >= stop && p >= stop {
      NonNegativeProduct(e, a - stop);
      NonNegativeProduct(f, p - stop);
      SignOfFactor(e + f, avg - stop);
    } else {
      NonNegativeProduct(e, stop - a);
      NonNegativeProduct(f, stop - p);
      assert (e + f) * (stop - avg) == e * (stop - a) + f * (stop - p);
      SignOfFactor(e + f, stop - avg);
    }
  }

  lemma NonNegativeProduct(a: real, b: real)
    requires a >= 0.0 && b >= 0.0
    ensures a * b >= 0.0
  {
  }

  lemma SignOfFactor(a: real, b: real)
    requires a > 0.0 && a * b >= 0.0
    ensures b >= 0.0
  {
  }

  lemma LessFilled(f: real, q: real, price: real, stop: real)
    requires 0.0 <= f <= q && 0.0 < price
    ensures Value(f, price) <= Value(q, price) && Risk(f, price, stop) <= Risk(q, price, stop)
  {
    MulMonotone(f, q, price);
    MulMonotone(f, q, Abs(price - stop));
  }

  /** If the first leg filled within the caps, then with any part of the second leg filled
      at its price the whole trade is within the caps. */
  lemma SecondLegKeepsCaps(plan: EntryPlan, planned: real, price: real, executed: real, avg: real,
                           available: real, filled: real, total: real)
    requires executed > 0.0 && WithinCaps(plan, executed, avg)
    requires SecondLeg(plan, planned, price, executed, avg, available).Some?
    requires 0.0 <= filled <= SecondLeg(plan, planned, price, executed, avg, available).value
    requires SameSide(avg, price, plan.stop) && AverageOf(total, executed, avg, filled, price)
    ensures WithinCaps(plan, executed + filled, total)
  {
    var q := SecondLeg(plan, planned, price, executed, avg, available).value;
    assert WithinCaps(plan, executed + filled, total) by {
      hide SecondLeg, EffectiveNotionalCap, MarginCap, Free, WholeLots, Risk, Value, SameSide;
      SecondLegFits(plan, planned, price, executed, avg, available);
      LessFilled(filled, q, price, plan.stop);
      RisksAdd(executed, avg, filled, price, plan.stop, total);
    }
    hide *;
  }

  // ---- The first market leg, re-sized when it is sent later than its signal ---------------

  /** The budgets of a first leg at the live price; a split leg carries half of the risk. */
  function FirstLegWant(plan: EntryPlan, planned: real, market: real, split: bool): real
    requires market > 0.0 && market != plan.stop
  {
    var budget := if split then plan.riskBudget / 2.0 else plan.riskBudget;
    var byRisk := if plan.riskBudget > 0.0 then Min(planned, budget / Abs(market - plan.stop)) else planned;
    var byNotional := Min(byRisk, EffectiveNotionalCap(plan.maxNotional) / market);
    if plan.marginBudget > 0.0 && plan.leverage > 0 then Min(byNotional, MarginCap(plan) / market) else byNotional
  }

  /** The stop is already crossed, or the second leg's reference is no longer between the
      stop and the market. */
  predicate Overtaken(plan: EntryPlan, market: real, split: bool) {
    || plan.stop <= 0.0
    || (plan.long && market <= plan.stop) || (!plan.long && market >= plan.stop)
    || (split && plan.reference > 0.0 && ((plan.long && plan.reference >= market) || (!plan.long && plan.reference <= market)))
  }

  function FirstLeg(plan: EntryPlan, planned: real, market: real, split: bool): Option<real> {
    if market <= 0.0 || Overtaken(plan, market, split) then None
    else
      match FloorQuantity(FirstLegWant(plan, planned, market, split), true, plan.rules)
      case None => None
      case Some(q) => if Value(q, market) < plan.rules.minNotional then None else Some(q)
  }

  /** A re-sized first leg never grows and keeps the original budgets at the live price. */
  lemma FirstLegKeepsBudget(plan: EntryPlan, planned: real, market: real, split: bool)
    requires FirstLeg(plan, planned, market, split).Some?
    ensures var q := FirstLeg(plan, planned, market, split).value;
            && 0.0 < q <= planned && plan.rules.minNotional <= Value(q, market)
            && (plan.riskBudget > 0.0 ==>
                  Risk(q, market, plan.stop) <= (if split then plan.riskBudget / 2.0 else plan.riskBudget))
            && Value(q, market) <= EffectiveNotionalCap(plan.maxNotional)
            && (plan.marginBudget > 0.0 && plan.leverage > 0 ==> Value(q, market) <= MarginCap(plan))
  {
    hide FirstLegWant, FloorQuantity, Value, Risk, EffectiveNotionalCap, MarginCap, WholeLots, Lot, LotMinimum, LotMaximum;
    var q := FirstLeg(plan, planned, market, split).value;
    FloorQuantityBounds(FirstLegWant(plan, planned, market, split), true, plan.rules);
    FirstLegFits(plan, planned, market, split, q);
  }

  lemma FirstLegFits(plan: EntryPlan, planned: real, market: real, split: bool, q: real)
    requires market > 0.0 && market != plan.stop && q <= FirstLegWant(plan, planned, market, split)
    ensures q <= planned && Value(q, market) <= EffectiveNotionalCap(plan.maxNotional)
    ensures plan.riskBudget > 0.0 ==>
              Risk(q, market, plan.stop) <= (if split then plan.riskBudget / 2.0 else plan.riskBudget)
    ensures plan.marginBudget > 0.0 && plan.leverage > 0 ==> Value(q, market) <= MarginCap(plan)
  {
    hide Value, Risk, EffectiveNotionalCap, MarginCap;
    DivRisk(q, if split then plan.riskBudget / 2.0 else plan.riskBudget, market, plan.stop);
    DivValue(q, EffectiveNotionalCap(plan.maxNotional), market);
    DivValue(q, MarginCap(plan), market);
  }

  /** Within the budgets of a first leg at the live price. */
  ghost predicate FirstLegAffordable(plan: EntryPlan, planned: real, market: real, split: bool, q: real) {
    && 0.0 < q <= planned && WholeLots(q, Lot(plan.rules, true)) && LotMinimum(plan.rules, true) <= q
    && plan.rules.minNotional <= Value(q, market) && Value(q, market) <= EffectiveNotionalCap(plan.maxNotional)
    && (plan.riskBudget > 0.0 ==> Risk(q, market, plan.stop) <= (if split then plan.riskBudget / 2.0 else plan.riskBudget))
    && (plan.marginBudget > 0.0 && plan.leverage > 0 ==> Value(q, market) <= MarginCap(plan))
  }

  /** A first leg is refused only when it is overtaken or nothing tradable fits, and otherwise it
      is the largest that fits. */
  lemma FirstLegLargest(plan: EntryPlan, planned: real, market: real, split: bool, q: real)
    requires market > 0.0 && !Overtaken(plan, market, split) && FirstLegAffordable(plan, planned, market, split, q)
    requires Lot(plan.rules, true) > 0.0 && (LotMaximum(plan.rules, true) > 0.0 ==> planned <= LotMaximum(plan.rules, true))
    ensures FirstLeg(plan, planned, market, split).Some? && q <= FirstLeg(plan, planned, market, split).value
  {
    var want := FirstLegWant(plan, planned, market, split);
    assert q <= want <= planned by {
      hide Value, Risk, EffectiveNotionalCap, MarginCap;
      DivRisk(q, if split then plan.riskBudget / 2.0 else plan.riskBudget, market, plan.stop);
      DivValue(q, EffectiveNotionalCap(plan.maxNotional), market);
      DivValue(q, MarginCap(plan), market);
    }
    hide FirstLegWant, Value, Risk, EffectiveNotionalCap, MarginCap, Lot, LotMinimum, LotMaximum;
    LargerFloor(want, true, plan.rules, q);
    ValueGrows(q, FloorQuantity(want, true, plan.rules).value, market);
  }

  // ---- Removing an overshoot ---------------------------------------------------------------

  /** The largest quantity the caps allow at an average price. */
  function RiskCap(plan: EntryPlan, avg: real): real
    requires avg > 0.0
  {
    var byNotional := EffectiveNotionalCap(plan.maxNotional) / avg;
    var byRisk := if avg == plan.stop then byNotional else Min(plan.riskBudget / Abs(avg - plan.stop), byNotional);
    if plan.marginBudget > 0.0 then Min(byRisk, MarginCap(plan) / avg) else byRisk
  }

  /** A quantity is at most the cap exactly when it respects the three budgets. */
  lemma RiskCapExact(plan: EntryPlan, quantity: real, avg: real)
    requires avg > 0.0 && plan.riskBudget > 0.0
    ensures quantity <= RiskCap(plan, avg) <==> WithinCaps(plan, quantity, avg)
  {
    hide EffectiveNotionalCap, MarginCap, Value;
    DivValue(quantity, EffectiveNotionalCap(plan.maxNotional), avg);
    DivValue(quantity, MarginCap(plan), avg);
    if avg != plan.stop {
      hide Risk;
      DivRisk(quantity, plan.riskBudget, avg, plan.stop);
    }
  }

  lemma MoreIsWorse(plan: EntryPlan, quantity: real, executed: real, avg: real)
    requires quantity <= executed && avg > 0.0 && WithinCaps(plan, executed, avg)
    ensures WithinCaps(plan, quantity, avg)
  {
    MulMonotone(quantity, executed, avg);
    MulMonotone(quantity, executed, Abs(avg - plan.stop));
  }

  /** With a budget used up, no positive quantity fits at any price. */
  lemma NothingLeft(plan: EntryPlan, q: real, price: real, executed: real, avg: real, available: real)
    requires 0.0 < q && 0.0 < price && price != plan.stop && Fits(plan, q, price, executed, avg, available)
    ensures WithinCaps(plan, executed, avg)
  {
    PositiveProduct(q, price);
    PositiveProduct(q, Abs(price - plan.stop));
    hide MarginCap, EffectiveNotionalCap, Free;
  }

  /** A fill over the caps leaves a zero budget, so the second leg is refused. This is what
      keeps the entry loop from submitting it after the latch was set inside the loop. */
  lemma OvershootRefusesSecondLeg(plan: EntryPlan, quantity: real, planned: real, price: real,
                                  executed: real, avg: real, available: real)
    requires plan.riskBudget > 0.0 && avg > 0.0
    requires quantity <= executed && RiskCap(plan, avg) < quantity
    ensures SecondLeg(plan, planned, price, executed, avg, available) == None
  {
    hide RiskCap, SecondLeg, WithinCaps, Fits, WholeLots, Value, Lot;
    if SecondLeg(plan, planned, price, executed, avg, available).Some? {
      var q := SecondLeg(plan, planned, price, executed, avg, available).value;
      SecondLegFits(plan, planned, price, executed, avg, available);
      RiskCapExact(plan, quantity, avg);
      if price == plan.stop {
        LegAtStop(plan, planned, price, executed, avg, available);
      } else {
        NothingLeft(plan, q, price, executed, avg, available);
      }
      MoreIsWorse(plan, quantity, executed, avg);
    }
  }

  /** A second leg priced at the stop carries no risk of its own, yet is refused once the
      risk budget is used up. */
  lemma LegAtStop(plan: EntryPlan, planned: real, price: real, executed: real, avg: real, available: real)
    requires price == plan.stop && SecondLeg(plan, planned, price, executed, avg, available).Some?
    requires avg > 0.0
    ensures WithinCaps(plan, executed, avg)
  {
    SecondLegFits(plan, planned, price, executed, avg, available);
    var q := SecondLeg(plan, planned, price, executed, avg, available).value;
    PositiveProduct(q, price);
    if RiskLeft(plan, executed, avg) == 0.0 {
      NoBudgetAtStop(plan, planned, price, executed, avg, available);
    }
    hide MarginCap, EffectiveNotionalCap, Free, SecondLeg, WholeLots;
  }

  lemma NoBudgetAtStop(plan: EntryPlan, planned: real, price: real, executed: real, avg: real, available: real)
    requires price == plan.stop && RiskLeft(plan, executed, avg) == 0.0
    ensures SecondLeg(plan, planned, price, executed, avg, available) == None
  {
    hide EffectiveNotionalCap, MarginCap, Free, RiskLeft, Left, Value;
  }

  /** The market order that removes at least minimumReduction from a position, rounded UP
      to a lot, and whether it closes the whole position. None is an error. */
  function ReductionQuantity(minimumReduction: real, position: real, rules: Rules): Option<(real, bool)> {
    var requested := Max(minimumReduction, LotMinimum(rules, true));
    match DecimalFloor(requested, Lot(rules, true))
    case None => None
    case Some(floor) =>
      var rounded := if floor < requested then floor + Lot(rules, true) else floor;
      var full := rounded >= position;
      match FloorQuantity(if full then position else rounded, true, rules)
      case None => None
      case Some(qty) => if qty + TOLERANCE < minimumReduction then None else Some((qty, full))
  }

  lemma ReductionCovers(minimumReduction: real, position: real, rules: Rules)
    requires ReductionQuantity(minimumReduction, position, rules).Some? && minimumReduction > 0.0
    ensures var (qty, full) := ReductionQuantity(minimumReduction, position, rules).value;
            && 0.0 < qty <= position
            && minimumReduction <= qty + TOLERANCE
            && (!full ==> minimumReduction <= qty)
  {
    var requested := Max(minimumReduction, LotMinimum(rules, true));
    var lot := Lot(rules, true);
    var floor := DecimalFloor(requested, lot).value;
    var rounded := if floor < requested then floor + lot else floor;
    FloorBounds(requested, lot);
    FloorQuantityBounds(if rounded >= position then position else rounded, true, rules);
    if rounded < position {
      var n := (requested / lot).Floor;
      var m := if floor < requested then n + 1 else n;
      assert rounded == m as real * lot;
      WholeLotsFloor(m, lot);
    }
  }

  /** A positive quantity rounded up to whole lots. */
  lemma RoundedUp(requested: real, lot: real) returns (rounded: real)
    requires requested > 0.0 && lot > 0.0
    ensures var floor := DecimalFloor(requested, lot).value;
            rounded == if floor < requested then floor + lot else floor
    ensures requested <= rounded < requested + lot && WholeLots(rounded, lot) && DecimalFloor(rounded, lot) == Some(rounded)
  {
    FloorBounds(requested, lot);
    var n := FloorLots(requested, lot);
    hide DecimalFloor;
    var floor := Lots(n, lot);
    rounded := if floor < requested then floor + lot else floor;
    OneLotMore(n, lot);
    hide Lots;
    OnlyFloor(rounded, lot, rounded);
  }

  lemma OneLotMore(n: int, lot: real)
    ensures Lots(n + 1, lot) == Lots(n, lot) + lot
    ensures WholeLots(Lots(n, lot), lot) && WholeLots(Lots(n, lot) + lot, lot)
  {
    Distribute(n as real, 1.0, lot);
  }

  /** The reduction is no larger than it must be: less than a lot over what is required, or all
      of the position but less than a lot. It exists whenever the position is large enough. */
  lemma ReductionTight(minimumReduction: real, position: real, rules: Rules)
    requires minimumReduction > 0.0 && Lot(rules, true) > 0.0
    ensures var required := Max(minimumReduction, LotMinimum(rules, true));
            && (ReductionQuantity(minimumReduction, position, rules).Some? ==>
                  var (qty, full) := ReductionQuantity(minimumReduction, position, rules).value;
                  if full then position < qty + Lot(rules, true) else required <= qty < required + Lot(rules, true))
            && (required + Lot(rules, true) < position
                && (LotMaximum(rules, true) > 0.0 ==> required + Lot(rules, true) <= LotMaximum(rules, true)) ==>
                  ReductionQuantity(minimumReduction, position, rules).Some?)
  {
    hide WholeLots, Lot, LotMinimum, LotMaximum;
    var rounded := RoundedUp(Max(minimumReduction, LotMinimum(rules, true)), Lot(rules, true));
    if rounded >= position && FloorQuantity(position, true, rules).Some? {
      FloorQuantityBounds(position, true, rules);
    }
    hide DecimalFloor;
  }

  /** A whole number of lots is its own floor. */
  lemma WholeLotsFloor(n: int, lot: real)
    requires lot > 0.0 && n as real * lot > 0.0
    ensures DecimalFloor(n as real * lot, lot) == Some(n as real * lot)
  {
    assert n as real * lot / lot == n as real;
  }

  function SafeQuantity(plan: EntryPlan, avg: real): real
    requires avg > 0.0
  {
    match DecimalFloor(RiskCap(plan, avg), plan.rules.step) case None => 0.0 case Some(safe) => safe
  }

  /** What enforceManagedRisk asks to remove. */
  function Excess(plan: EntryPlan, quantity: real, avg: real): real
    requires avg > 0.0
  {
    quantity - SafeQuantity(plan, avg)
  }

  lemma SafeNonNegative(plan: EntryPlan, avg: real)
    requires avg > 0.0
    ensures SafeQuantity(plan, avg) >= 0.0
  {
    hide RiskCap, WholeLots;
    if DecimalFloor(RiskCap(plan, avg), plan.rules.step).Some? {
      FloorBounds(RiskCap(plan, avg), plan.rules.step);
    }
  }

  lemma SafeBelowCap(plan: EntryPlan, avg: real)
    requires avg > 0.0 && RiskCap(plan, avg) >= 0.0
    ensures SafeQuantity(plan, avg) <= RiskCap(plan, avg)
    ensures plan.rules.step > 0.0 ==> RiskCap(plan, avg) < SafeQuantity(plan, avg) + plan.rules.step
  {
    hide RiskCap, WholeLots;
    if DecimalFloor(RiskCap(plan, avg), plan.rules.step).Some? {
      FloorBounds(RiskCap(plan, avg), plan.rules.step);
    }
  }

  /** Once the reduction fills, what remains of the position is within every cap again; when
      only the whole position could be sent, up to the order tolerance. */
  lemma ReductionRestoresCaps(plan: EntryPlan, quantity: real, avg: real, position: real, rules: Rules)
    requires avg > 0.0 && plan.riskBudget > 0.0 && RiskCap(plan, avg) >= 0.0
    requires Excess(plan, quantity, avg) > 0.0
    requires ReductionQuantity(Excess(plan, quantity, avg), position, rules).Some?
    ensures var (qty, full) := ReductionQuantity(Excess(plan, quantity, avg), position, rules).value;
            && (!full ==> WithinCaps(plan, Min(position, quantity) - qty, avg))
            && Min(position, quantity) - qty <= RiskCap(plan, avg) + TOLERANCE
  {
    hide ReductionQuantity, RiskCap, WithinCaps, SafeQuantity;
    var (qty, full) := ReductionQuantity(Excess(plan, quantity, avg), position, rules).value;
    ReductionCovers(Excess(plan, quantity, avg), position, rules);
    SafeBelowCap(plan, avg);
    RiskCapExact(plan, Min(position, quantity) - qty, avg);
  }
}
