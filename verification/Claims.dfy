/** Claiming the actions of a message: whatever edits and retries arrive, an action with one
    meaning is carried out at most once. */
module Claims {
  import opened Prelude

  // ---- What an instruction means ------------------------------------------------------------

  datatype PriceType = FIXED | MARKET | ENTRY | BREAKEVEN | RANGE | R_MULTIPLE | PERCENT_OFFSET | UNKNOWN | TP_LEVEL

  datatype Price = Price(kind: PriceType, price: real, low: real, high: real, offset: real, level: int)

  datatype TakeProfit = TakeProfit(price: Price, ratio: Option<real>, source: string)

  datatype Condition = TP_FILLED | OTHER(text: string)

  datatype Rule = Rule(condition: Condition, level: int, action: string, price: Price)

  datatype Kind = OPEN | ADD | CLOSE | REDUCE | CANCEL | UPDATE_SL | UPDATE_TP

  datatype Instruction = Instruction(action: Kind, partial: bool, ratio: real, reduceLevel: int, cancelEntry: bool,
                                     stops: seq<Price>, targets: seq<TakeProfit>, rules: seq<Rule>)

  /** The text compared by claims; encoding it is injective. */
  datatype Semantic =
    | Plain
    | LevelReduction(level: int, cancel: bool)
    | Update(stops: seq<Price>, targets: seq<TakeProfit>, rules: seq<Rule>)

  const NONE: Price := Price(UNKNOWN, 0.0, 0.0, 0.0, 0.0, 0)

  function NormalizedPrice(p: Price): Price {
    match p.kind
    case BREAKEVEN => NONE.(kind := ENTRY)
    case ENTRY => NONE.(kind := ENTRY)
    case FIXED => NONE.(kind := p.kind, price := p.price)
    case MARKET => NONE.(kind := p.kind, price := p.price)
    case RANGE => NONE.(kind := p.kind, low := p.low, high := p.high)
    case TP_LEVEL => NONE.(kind := p.kind, level := p.level)
    case _ => p
  }

  function NormalizedTarget(t: TakeProfit): TakeProfit {
    t.(price := NormalizedPrice(t.price), source := "")
  }

  function NormalizedRule(r: Rule): Rule {
    r.(price := NormalizedPrice(r.price), level := if r.condition == TP_FILLED && r.level <= 0 then 1 else r.level)
  }

  function Prices(ps: seq<Price>): (r: seq<Price>)
    ensures |r| == |ps| && forall i :: 0 <= i < |ps| ==> r[i] == NormalizedPrice(ps[i])
  {
    seq(|ps|, i requires 0 <= i < |ps| => NormalizedPrice(ps[i]))
  }

  function Targets(ts: seq<TakeProfit>): (r: seq<TakeProfit>)
    ensures |r| == |ts| && forall i :: 0 <= i < |ts| ==> r[i] == NormalizedTarget(ts[i])
  {
    seq(|ts|, i requires 0 <= i < |ts| => NormalizedTarget(ts[i]))
  }

  function Rules(rs: seq<Rule>): (r: seq<Rule>)
    ensures |r| == |rs| && forall i :: 0 <= i < |rs| ==> r[i] == NormalizedRule(rs[i])
  {
    seq(|rs|, i requires 0 <= i < |rs| => NormalizedRule(rs[i]))
  }

  function SemanticOf(ins: Instruction): Semantic {
    if ins.reduceLevel > 0 then LevelReduction(ins.reduceLevel, ins.cancelEntry)
    else if ins.action != UPDATE_SL && ins.action != UPDATE_TP then Plain
    else Update(if ins.action == UPDATE_SL then Prices(ins.stops) else [],
                if ins.action == UPDATE_TP then Targets(ins.targets) else [],
                Rules(ins.rules))
  }

  method InstructionSemantic(ins: Instruction) returns (s: Semantic)
    ensures s == SemanticOf(ins)
  {
    if ins.reduceLevel > 0 {
      return LevelReduction(ins.reduceLevel, ins.cancelEntry);
    }
    if ins.action != UPDATE_SL && ins.action != UPDATE_TP {
      return Plain;
    }
    var stops: seq<Price>, targets: seq<TakeProfit>, rules: seq<Rule> := [], [], [];
    if ins.action == UPDATE_SL {
      for i := 0 to |ins.stops|
        invariant stops == Prices(ins.stops)[..i]
      {
        stops := stops + [NormalizedPrice(ins.stops[i])];
      }
    }
    if ins.action == UPDATE_TP {
      for i := 0 to |ins.targets|
        invariant targets == Targets(ins.targets)[..i]
      {
        targets := targets + [NormalizedTarget(ins.targets[i])];
      }
    }
    for i := 0 to |ins.rules|
      invariant rules == Rules(ins.rules)[..i]
    {
      rules := rules + [NormalizedRule(ins.rules[i])];
    }
    s := Update(stops, targets, rules);
  }

  /** Two prices that are carried out alike: break-even is the entry, and only what a kind of
      price uses counts. */
  predicate SamePrice(p: Price, q: Price) {
    || (p.kind in {ENTRY, BREAKEVEN} && q.kind in {ENTRY, BREAKEVEN})
    || (p.kind == q.kind && p.kind in {FIXED, MARKET} && p.price == q.price)
    || (p.kind == q.kind == RANGE && p.low == q.low && p.high == q.high)
    || (p.kind == q.kind == TP_LEVEL && p.level == q.level)
    || p == q
  }

  predicate SameLevel(r: Rule, q: Rule) {
    r.level == q.level || (r.condition == TP_FILLED && r.level <= 1 && q.level <= 1)
  }

  predicate SameMeaning(a: Instruction, b: Instruction) {
    if a.reduceLevel > 0 || b.reduceLevel > 0 then a.reduceLevel == b.reduceLevel && a.cancelEntry == b.cancelEntry
    else if a.action != UPDATE_SL && a.action != UPDATE_TP then true
    else
      && (a.action == UPDATE_SL ==>
            |a.stops| == |b.stops| && forall i :: 0 <= i < |a.stops| ==> SamePrice(a.stops[i], b.stops[i]))
      && (a.action == UPDATE_TP ==>
            |a.targets| == |b.targets| &&
            forall i :: 0 <= i < |a.targets| ==>
                          SamePrice(a.targets[i].price, b.targets[i].price) && a.targets[i].ratio == b.targets[i].ratio)
      && |a.rules| == |b.rules|
      && forall i :: 0 <= i < |a.rules| ==>
                       && a.rules[i].condition == b.rules[i].condition && SameLevel(a.rules[i], b.rules[i])
                       && a.rules[i].action == b.rules[i].action && SamePrice(a.rules[i].price, b.rules[i].price)
  }

  lemma PriceIff(p: Price, q: Price)
    ensures NormalizedPrice(p) == NormalizedPrice(q) <==> SamePrice(p, q)
  {
  }

  lemma PricesIff(a: seq<Price>, b: seq<Price>)
    ensures Prices(a) == Prices(b) <==> |a| == |b| && forall i :: 0 <= i < |a| ==> SamePrice(a[i], b[i])
  {
    hide NormalizedPrice, SamePrice;
    forall i | 0 <= i < |a| && i < |b| ensures Prices(a)[i] == Prices(b)[i] <==> SamePrice(a[i], b[i]) {
      PriceIff(a[i], b[i]);
    }
    if |a| == |b| && forall i :: 0 <= i < |a| ==> SamePrice(a[i], b[i]) {
      assert forall i :: 0 <= i < |a| ==> Prices(a)[i] == Prices(b)[i];
    }
  }

  predicate SameTarget(a: TakeProfit, b: TakeProfit) {
    SamePrice(a.price, b.price) && a.ratio == b.ratio
  }

  lemma TargetsIff(a: seq<TakeProfit>, b: seq<TakeProfit>)
    ensures Targets(a) == Targets(b) <==> |a| == |b| && forall i :: 0 <= i < |a| ==> SameTarget(a[i], b[i])
  {
    hide NormalizedPrice, SamePrice;
    forall i | 0 <= i < |a| && i < |b| ensures Targets(a)[i] == Targets(b)[i] <==> SameTarget(a[i], b[i]) {
      PriceIff(a[i].price, b[i].price);
    }
    if |a| == |b| && forall i :: 0 <= i < |a| ==> SameTarget(a[i], b[i]) {
      assert forall i :: 0 <= i < |a| ==> Targets(a)[i] == Targets(b)[i];
    }
  }

  predicate SameRule(a: Rule, b: Rule) {
    a.condition == b.condition && SameLevel(a, b) && a.action == b.action && SamePrice(a.price, b.price)
  }

  lemma RulesIff(a: seq<Rule>, b: seq<Rule>)
    ensures Rules(a) == Rules(b) <==> |a| == |b| && forall i :: 0 <= i < |a| ==> SameRule(a[i], b[i])
  {
    hide NormalizedPrice, SamePrice;
    forall i | 0 <= i < |a| && i < |b| ensures Rules(a)[i] == Rules(b)[i] <==> SameRule(a[i], b[i]) {
      PriceIff(a[i].price, b[i].price);
    }
    if |a| == |b| && forall i :: 0 <= i < |a| ==> SameRule(a[i], b[i]) {
      assert forall i :: 0 <= i < |a| ==> Rules(a)[i] == Rules(b)[i];
    }
  }

  /** The key distinguishes two instructions of one action exactly when they mean different
      things; wording, list formatting and ratio sources do not count. */
  lemma SemanticIff(a: Instruction, b: Instruction)
    requires a.action == b.action
    ensures SemanticOf(a) == SemanticOf(b) <==> SameMeaning(a, b)
  {
    hide SamePrice, SameLevel, NormalizedPrice;
    PricesIff(a.stops, b.stops);
    TargetsIff(a.targets, b.targets);
    RulesIff(a.rules, b.rules);
    hide Prices, Targets, Rules;
  }

  // ---- The journal -----------------------------------------------------------------------------

  datatype Status = EXECUTING | DONE | UNCERTAIN | PREFLIGHT_REJECTED | REJECTED

  /** stableID, taken as injective: of what identifies an action, or of an identity and the
      signal that retries it. */
  datatype Id =
    | Key(message: string, symbol: string, direction: string, context: string, action: Kind, semantic: Semantic)
    | Retry(id: Id, signal: string)

  datatype Row = Row(id: Id, message: string, revision: int, signal: string, symbol: string, direction: string,
                     context: string, action: Kind, status: Status, payload: Option<Instruction>)

  datatype Request = Request(message: string, revision: int, signal: string, symbol: string, direction: string,
                             context: string, ins: Instruction)

  predicate Live(row: Row) {
    row.status != PREFLIGHT_REJECTED && row.status != REJECTED
  }

  predicate Opening(k: Kind) {
    k == OPEN || k == ADD
  }

  /** The stored row is about the same trade; an opening action has no trade yet. */
  predicate SameTrade(row: Row, req: Request) {
    && row.message == req.message && row.symbol == req.symbol && row.direction == req.direction
    && (row.context == req.context || Opening(req.ins.action))
  }

  predicate PartialAlias(row: Row, req: Request) {
    req.ins.action == REDUCE && row.action == CLOSE
  }

  predicate Considered(row: Row, req: Request) {
    SameTrade(row, req) && (row.action == req.ins.action || PartialAlias(row, req))
  }

  datatype Verdict = Known | Unreadable | Fresh(retry: bool)

  /** What one stored row says about a request: None lets the scan go on. */
  function Judge(row: Row, req: Request): Option<Verdict> {
    if !Considered(row, req) then None
    else if PartialAlias(row, req) && (row.status == EXECUTING || row.status == UNCERTAIN) then Some(Known)
    else if row.payload.None? then Some(Unreadable)
    else if PartialAlias(row, req) && !row.payload.value.partial then None
    else if req.ins.action == REDUCE && (req.ins.reduceLevel > 0 || row.payload.value.reduceLevel > 0) && Live(row) then
      Some(Known)
    else if SemanticOf(row.payload.value) != SemanticOf(req.ins) then None
    else if Retryable(row, req) then None
    else Some(Known)
  }

  predicate Retryable(row: Row, req: Request) {
    row.status == PREFLIGHT_REJECTED || (row.status == REJECTED && req.revision > row.revision)
  }

  /** A row that was rejected and may be tried again under a new identity. */
  predicate Reopens(row: Row, req: Request) {
    && Considered(row, req) && row.payload.Some? && Judge(row, req) == None
    && !(PartialAlias(row, req) && !row.payload.value.partial)
    && SemanticOf(row.payload.value) == SemanticOf(req.ins)
  }

  function Screen(rows: seq<Row>, req: Request, retry: bool): Verdict {
    if rows == [] then Fresh(retry)
    else if Judge(rows[0], req).Some? then Judge(rows[0], req).value
    else Screen(rows[1..], req, retry || Reopens(rows[0], req))
  }

  function KeyOf(req: Request): Id {
    Key(req.message, req.symbol, req.direction, req.context, req.ins.action, SemanticOf(req.ins))
  }

  function NewRow(req: Request, retry: bool): Row {
    Row(if retry then Retry(KeyOf(req), req.signal) else KeyOf(req), req.message, req.revision, req.signal, req.symbol,
        req.direction, req.context, req.ins.action, EXECUTING, Some(req.ins))
  }

  predicate HasId(rows: seq<Row>, id: Id) {
    exists i :: 0 <= i < |rows| && rows[i].id == id
  }

  /** The claim succeeds when no row forbids it and its identity is new. */
  predicate Claims(rows: seq<Row>, req: Request) {
    var verdict := Screen(rows, req, false);
    verdict.Fresh? && !HasId(rows, NewRow(req, verdict.retry).id)
  }

  function Claimed(rows: seq<Row>, req: Request): seq<Row> {
    if Claims(rows, req) then rows + [NewRow(req, Screen(rows, req, false).retry)] else rows
  }

  // ---- When a claim succeeds ---------------------------------------------------------------------

  /** Two rows that stand for the same action with the same meaning. */
  predicate Twins(a: Row, b: Row) {
    && a.message == b.message && a.symbol == b.symbol && a.direction == b.direction && a.action == b.action
    && (a.context == b.context || Opening(a.action))
    && a.payload.Some? && b.payload.Some? && SemanticOf(a.payload.value) == SemanticOf(b.payload.value)
  }

  /** A partial close counts as a reduction when it is compared with one. */
  predicate Compared(row: Row, req: Request) {
    && SameTrade(row, req) && row.payload.Some?
    && (row.action == req.ins.action || (req.ins.action == REDUCE && row.action == CLOSE && row.payload.value.partial))
  }

  predicate Repeats(row: Row, req: Request) {
    Compared(row, req) && SemanticOf(row.payload.value) == SemanticOf(req.ins)
  }

  /** The row does not forbid the request: it can be read, it is no close in flight before a
      reduction, a reduction of a level stands alone, and a repetition was rejected before the
      action was carried out, or afterwards at an older revision of the message. */
  ghost predicate LetsPass(row: Row, req: Request) {
    && (SameTrade(row, req) && (row.action == req.ins.action || (req.ins.action == REDUCE && row.action == CLOSE)) ==>
          row.payload.Some?)
    && (SameTrade(row, req) && req.ins.action == REDUCE && row.action == CLOSE ==>
          row.status != EXECUTING && row.status != UNCERTAIN)
    && (Compared(row, req) && req.ins.action == REDUCE && (req.ins.reduceLevel > 0 || row.payload.value.reduceLevel > 0) ==>
          row.status == PREFLIGHT_REJECTED || row.status == REJECTED)
    && (Repeats(row, req) ==>
          row.status == PREFLIGHT_REJECTED || (row.status == REJECTED && row.revision < req.revision))
  }

  ghost predicate Repeated(rows: seq<Row>, req: Request) {
    exists i :: 0 <= i < |rows| && Repeats(rows[i], req)
  }

  lemma JudgeIff(row: Row, req: Request)
    ensures Judge(row, req) == None <==> LetsPass(row, req)
    ensures Judge(row, req).Some? ==> !Judge(row, req).value.Fresh?
    ensures LetsPass(row, req) ==> (Reopens(row, req) <==> Repeats(row, req))
  {
    hide SemanticOf;
  }

  /** The scan goes through exactly when every row lets the request pass, and remembers whether
      one of them was a repetition. */
  lemma {:induction false} ScreenIff(rows: seq<Row>, req: Request, retry: bool)
    ensures Screen(rows, req, retry).Fresh? <==> forall i :: 0 <= i < |rows| ==> LetsPass(rows[i], req)
    ensures Screen(rows, req, retry).Fresh? ==> (Screen(rows, req, retry).retry <==> retry || Repeated(rows, req))
  {
    hide Judge, Reopens, LetsPass, Repeats;
    if rows != [] {
      JudgeIff(rows[0], req);
      var rest := rows[1..];
      ScreenIff(rest, req, retry || Reopens(rows[0], req));
      assert forall i :: 0 <= i < |rest| ==> rest[i] == rows[i + 1];
      assert forall i :: 1 <= i < |rows| ==> rows[i] == rest[i - 1];
    }
  }

  /** A claim succeeds exactly when every row lets it pass and its identity is new: the one of
      the action, or for a repetition the one of this signal's retry. */
  lemma ClaimsIff(rows: seq<Row>, req: Request)
    ensures Claims(rows, req) <==>
              && (forall i :: 0 <= i < |rows| ==> LetsPass(rows[i], req))
              && !HasId(rows, if Repeated(rows, req) then Retry(KeyOf(req), req.signal) else KeyOf(req))
    ensures Claimed(rows, req) ==
              if Claims(rows, req) then rows + [NewRow(req, Repeated(rows, req))] else rows
  {
    ScreenIff(rows, req, false);
  }

  /** Rejected for good, under way or done: not to be carried out again on this revision. */
  predicate Final(row: Row, req: Request) {
    row.status != PREFLIGHT_REJECTED && (row.status != REJECTED || row.revision >= req.revision)
  }

  /** An action that is under way or done is never claimed again, and one that was rejected when
      it was carried out only by a newer revision. */
  lemma FinalRefuses(rows: seq<Row>, req: Request, i: nat)
    requires i < |rows| && Twins(rows[i], NewRow(req, false)) && Final(rows[i], req)
    ensures !Claims(rows, req) && Claimed(rows, req) == rows
  {
    hide SemanticOf, HasId;
    ClaimsIff(rows, req);
    assert Repeats(rows[i], req);
    assert !LetsPass(rows[i], req);
  }

  /** Conversely nothing else refuses an action that is not a reduction: a rejection that may be
      tried again, other meanings and other trades do not. */
  ghost predicate Open(rows: seq<Row>, req: Request) {
    && req.ins.action != REDUCE
    && (forall i :: 0 <= i < |rows| && Twins(rows[i], NewRow(req, false)) ==> !Final(rows[i], req))
    && (forall i :: 0 <= i < |rows| && SameTrade(rows[i], req) && rows[i].action == req.ins.action ==> rows[i].payload.Some?)
    && !HasId(rows, KeyOf(req)) && !HasId(rows, Retry(KeyOf(req), req.signal))
  }

  lemma OpenClaims(rows: seq<Row>, req: Request)
    requires Open(rows, req)
    ensures Claims(rows, req)
  {
    hide SemanticOf, HasId;
    ClaimsIff(rows, req);
    forall i | 0 <= i < |rows| ensures LetsPass(rows[i], req) {
      assert Repeats(rows[i], req) ==> Twins(rows[i], NewRow(req, false));
    }
  }

  class Journal {
    var rows: seq<Row>

    constructor (rows: seq<Row>)
      ensures this.rows == rows
    {
      this.rows := rows;
    }

    /** Scans every stored action of the message, oldest first, then inserts. */
    method ClaimInstruction(req: Request, legacy: bool) returns (claimed: bool)
      modifies this
      ensures claimed == (!legacy && Claims(old(rows), req))
      ensures rows == if legacy then old(rows) else Claimed(old(rows), req)
      ensures claimed ==> forall i :: 0 <= i < |old(rows)| && Twins(old(rows)[i], NewRow(req, false)) ==> !Final(old(rows)[i], req)
      ensures !legacy && Open(old(rows), req) ==> claimed
    {
      hide SemanticOf, Twins, Open, LetsPass, Final;
      if Open(rows, req) {
        OpenClaims(rows, req);
      }
      forall i | 0 <= i < |rows| && Twins(rows[i], NewRow(req, false)) && Final(rows[i], req) ensures !Claims(rows, req) {
        FinalRefuses(rows, req, i);
      }
      if legacy {
        return false;
      }
      var semantic := InstructionSemantic(req.ins);
      var retryable := false;
      for i := 0 to |rows|
        invariant rows == old(rows) && Screen(rows, req, false) == Screen(rows[i..], req, retryable)
      {
        var row := rows[i];
        assert rows[i..][0] == row && rows[i..][1..] == rows[i + 1..];
        if !Considered(row, req) {
          continue;
        }
        if PartialAlias(row, req) && (row.status == EXECUTING || row.status == UNCERTAIN) {
          return false;
        }
        if row.payload.None? {
          return false;
        }
        var stored := row.payload.value;
        if PartialAlias(row, req) && !stored.partial {
          continue;
        }
        if req.ins.action == REDUCE && (req.ins.reduceLevel > 0 || stored.reduceLevel > 0) && Live(row) {
          return false;
        }
        var meaning := InstructionSemantic(stored);
        if meaning != semantic {
          continue;
        }
        if Retryable(row, req) {
          retryable := true;
          continue;
        }
        return false;
      }
      var row := NewRow(req, retryable);
      claimed := !HasId(rows, row.id);
      if claimed {
        rows := rows + [row];
      }
    }

    /** The outcome of an action; a rejection is final. */
    method Settle(k: nat, status: Status)
      requires k < |rows| && Live(rows[k])
      modifies this
      ensures rows == Settled(old(rows), k, status)
    {
      rows := rows[k := rows[k].(status := status)];
    }
  }

  // ---- At most once ------------------------------------------------------------------------------

  datatype Event = Claim(req: Request) | Outcome(k: nat, status: Status)

  function Settled(rows: seq<Row>, k: nat, status: Status): seq<Row>
    requires k < |rows|
  {
    rows[k := rows[k].(status := status)]
  }

  /** Nothing happens to a row that does not exist or was rejected. */
  function Step(rows: seq<Row>, e: Event): seq<Row> {
    match e
    case Claim(req) => Claimed(rows, req)
    case Outcome(k, status) => if k < |rows| && Live(rows[k]) then Settled(rows, k, status) else rows
  }

  function After(rows: seq<Row>, history: seq<Event>): seq<Row> {
    if history == [] then rows
    else Step(After(rows, history[..|history| - 1]), history[|history| - 1])
  }

  /** A reduction, in either spelling. */
  predicate Reduces(row: Row) {
    row.action == REDUCE || (row.action == CLOSE && row.payload.Some? && row.payload.value.partial)
  }

  predicate OneTrade(a: Row, b: Row) {
    a.message == b.message && a.symbol == b.symbol && a.direction == b.direction && a.context == b.context
  }

  /** At most one reduction of a message is ever in effect on a trade. */
  ghost predicate OneReduction(rows: seq<Row>) {
    forall i, j :: 0 <= i < j < |rows| && OneTrade(rows[i], rows[j]) && Reduces(rows[i]) && Reduces(rows[j]) ==>
                     !(Live(rows[i]) && Live(rows[j]))
  }

  ghost predicate OneOfEach(rows: seq<Row>) {
    forall i, j :: 0 <= i < j < |rows| && Twins(rows[i], rows[j]) ==> !(Live(rows[i]) && Live(rows[j]))
  }

  /** A request is claimed only if every stored row let it pass. */
  lemma ScreenedAll(rows: seq<Row>, req: Request, retry: bool, i: nat)
    requires Screen(rows, req, retry).Fresh? && i < |rows|
    ensures Judge(rows[i], req) == None
  {
    if i > 0 {
      ScreenedAll(rows[1..], req, retry || Reopens(rows[0], req), i - 1);
    }
  }

  lemma ClaimKeepsTwins(rows: seq<Row>, req: Request)
    requires OneOfEach(rows)
    ensures OneOfEach(Claimed(rows, req))
  {
    if Claims(rows, req) {
      var row := NewRow(req, Screen(rows, req, false).retry);
      forall i | 0 <= i < |rows| && Twins(rows[i], row) ensures !Live(rows[i]) {
        ScreenedAll(rows, req, false, i);
      }
    }
  }

  /** An action is carried out again only after its earlier rejection, and after a final one only
      at a newer revision. */
  ghost predicate RetriesOrdered(rows: seq<Row>) {
    forall i, j :: 0 <= i < j < |rows| && Twins(rows[i], rows[j]) ==>
                     && (rows[i].status == PREFLIGHT_REJECTED || rows[i].status == REJECTED)
                     && (rows[i].status == REJECTED ==> rows[i].revision < rows[j].revision)
  }

  lemma ClaimKeepsRetries(rows: seq<Row>, req: Request)
    requires RetriesOrdered(rows)
    ensures RetriesOrdered(Claimed(rows, req))
  {
    hide SemanticOf, HasId, Screen;
    ClaimsIff(rows, req);
    forall i | 0 <= i < |rows| && Twins(rows[i], NewRow(req, Repeated(rows, req))) && Final(rows[i], req)
      ensures !Claims(rows, req)
    {
      FinalRefuses(rows, req, i);
    }
  }

  /** Over any history, the final rejections of one action with one meaning have strictly
      increasing revisions, and no later row repeats one that was not rejected. */
  lemma {:induction false} RetriesNeedRevisions(rows: seq<Row>, history: seq<Event>)
    requires RetriesOrdered(rows)
    ensures RetriesOrdered(After(rows, history))
  {
    hide Twins, Claimed;
    if history != [] {
      var before, e := After(rows, history[..|history| - 1]), history[|history| - 1];
      RetriesNeedRevisions(rows, history[..|history| - 1]);
      match e
      case Claim(req) => ClaimKeepsRetries(before, req);
      case Outcome(k, status) =>
        if k < |before| && Live(before[k]) {
          OutcomeKeepsRetries(before, k, status);
        }
    }
  }

  lemma OutcomeKeepsRetries(rows: seq<Row>, k: nat, status: Status)
    requires k < |rows| && Live(rows[k]) && RetriesOrdered(rows)
    ensures RetriesOrdered(Settled(rows, k, status))
  {
    hide SemanticOf;
    var after := Settled(rows, k, status);
    forall i, j | 0 <= i < j < |after| && Twins(after[i], after[j])
      ensures after[i].status == PREFLIGHT_REJECTED || after[i].status == REJECTED
      ensures after[i].status == REJECTED ==> after[i].revision < after[j].revision
    {
      assert Twins(rows[i], rows[j]);
    }
  }

  /** A stored payload is about the stored action. */
  ghost predicate Coherent(rows: seq<Row>) {
    forall i :: 0 <= i < |rows| && rows[i].payload.Some? ==> rows[i].payload.value.action == rows[i].action
  }

  /** Reductions of every wording and ratio exclude each other. */
  lemma ReductionPasses(row: Row, req: Request)
    requires Judge(row, req) == None && req.ins.action == REDUCE && SameTrade(row, req) && Reduces(row)
    requires row.payload.Some? ==> row.payload.value.action == row.action
    ensures !Live(row)
  {
  }

  /** The rules applied to a message before its instructions are claimed turn every partial
      close into a reduction. */
  predicate Normalized(req: Request) {
    req.ins.action == CLOSE ==> !req.ins.partial
  }

  /** A reduction in effect on the trade that a close is not compared with. */
  ghost predicate LiveReduction(rows: seq<Row>, req: Request) {
    exists i :: 0 <= i < |rows| && Unnoticed(rows[i], req)
  }

  predicate Unnoticed(row: Row, req: Request) {
    && SameTrade(row, req) && Reduces(row) && Live(row)
    && (row.action == REDUCE || (row.payload.Some? && SemanticOf(row.payload.value) != SemanticOf(req.ins)))
  }

  /** A claim keeps at most one reduction in effect, unless it is a partial close that was not
      normalized while a reduction of the trade is in effect. */
  lemma ClaimKeepsReductionIff(rows: seq<Row>, req: Request)
    requires OneReduction(rows) && Coherent(rows) && Claims(rows, req)
    ensures OneReduction(Claimed(rows, req)) <==> Normalized(req) || !LiveReduction(rows, req)
  {
    var row := NewRow(req, Screen(rows, req, false).retry);
    var after := Claimed(rows, req);
    assert after == rows + [row];
    if Normalized(req) || !LiveReduction(rows, req) {
      forall i | 0 <= i < |rows| && OneTrade(rows[i], row) && Reduces(rows[i]) && Reduces(row) ensures !Live(rows[i]) {
        ScreenedAll(rows, req, false, i);
        assert Unnoticed(rows[i], req) ==> LiveReduction(rows, req);
        if req.ins.action == REDUCE {
          ReductionPasses(rows[i], req);
        }
      }
    } else {
      var i :| 0 <= i < |rows| && Unnoticed(rows[i], req);
      assert after[i] == rows[i] && after[|rows|] == row;
    }
  }

  lemma OutcomeKeeps(rows: seq<Row>, k: nat, status: Status)
    requires k < |rows| && Live(rows[k])
    ensures OneReduction(rows) ==> OneReduction(Settled(rows, k, status))
    ensures OneOfEach(rows) ==> OneOfEach(Settled(rows, k, status))
    ensures Coherent(rows) ==> Coherent(Settled(rows, k, status))
  {
  }

  /** Over any history of edits, retries and outcomes, an action with one meaning is in effect
      at most once. */
  lemma {:induction false} EachAtMostOnce(rows: seq<Row>, history: seq<Event>)
    requires OneOfEach(rows)
    ensures OneOfEach(After(rows, history))
  {
    if history != [] {
      var before, e := After(rows, history[..|history| - 1]), history[|history| - 1];
      EachAtMostOnce(rows, history[..|history| - 1]);
      match e
      case Claim(req) => ClaimKeepsTwins(before, req);
      case Outcome(k, status) =>
        if k < |before| && Live(before[k]) {
          OutcomeKeeps(before, k, status);
        }
    }
  }

  ghost predicate AllNormalized(history: seq<Event>) {
    forall i :: 0 <= i < |history| && history[i].Claim? ==> Normalized(history[i].req)
  }

  /** Over any history of normalized requests, at most one reduction of a message is ever in
      effect on a trade, whatever ratio or level the edits state. Partial closes stored before
      the rules existed may be among the first rows. */
  lemma {:induction false} ReducedAtMostOnce(rows: seq<Row>, history: seq<Event>)
    requires OneReduction(rows) && Coherent(rows) && AllNormalized(history)
    ensures OneReduction(After(rows, history)) && Coherent(After(rows, history))
  {
    if history != [] {
      var before, e := After(rows, history[..|history| - 1]), history[|history| - 1];
      ReducedAtMostOnce(rows, history[..|history| - 1]);
      match e
      case Claim(req) =>
        if Claims(before, req) {
          ClaimKeepsReductionIff(before, req);
        }
      case Outcome(k, status) =>
        if k < |before| && Live(before[k]) {
          OutcomeKeeps(before, k, status);
        }
    }
  }

  function Ask(action: Kind, revision: int): Request {
    Request("m", revision, "s", "BTCUSDT", "LONG", "c", Instruction(action, true, 50.0, 0, false, [], [], []))
  }

  /** Not normalized, a message that first says reduce and is then edited to a partial close
      reduces twice. */
  lemma PartialCloseAfterReduce()
    ensures var rows := After([], [Claim(Ask(REDUCE, 1)), Claim(Ask(CLOSE, 2))]);
            |rows| == 2 && Live(rows[0]) && Live(rows[1]) && !OneReduction(rows)
  {
    var first, second := Ask(REDUCE, 1), Ask(CLOSE, 2);
    var history := [Claim(first), Claim(second)];
    assert history[..1] == [Claim(first)] && [Claim(first)][..0] == [];
    var one := [NewRow(first, false)];
    assert Claimed([], first) == one;
    assert Judge(one[0], second) == None && one[1..] == [];
    assert Screen(one, second, false) == Fresh(false);
    assert Claimed(one, second) == one + [NewRow(second, false)];
    assert After([], [Claim(first)]) == one by {
      assert After([], [Claim(first)][..0]) == [];
    }
    assert history[..|history| - 1] == [Claim(first)] && history[|history| - 1] == Claim(second);
    assert After([], history) == one + [NewRow(second, false)];
    assert Reduces(NewRow(first, false)) && Reduces(NewRow(second, false));
  }
}
