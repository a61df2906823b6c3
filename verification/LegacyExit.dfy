/** Exits on exchanges where an order cannot be looked up by a client ID: a signal's close may
    be sent once, because only a row that was never moved past INTENT may proceed, and SENDING
    is durable before the request leaves. */
module LegacyExit {
  import opened Prelude

  datatype Status = INTENT | SENDING | SENT | SEND_FAILED | NOT_NEEDED

  datatype Row = Row(signal: string, status: Status)

  /** flat says that the last position read of this process, after its last request, showed
      no position. sent and removals are the log of what reached the exchange. */
  datatype World = World(rows: seq<Row>, sent: seq<nat>, pending: Option<nat>, flat: bool)

  datatype Event =
    | Restart
    | Recorded(signal: string)
    | Begun(k: nat)
    | Send(k: nat)
    | Marked(k: nat, status: Status)
    | Read(flat: bool)
    | ProtectionsRemoved

  predicate Unknown(rows: seq<Row>, signal: string) {
    forall k :: 0 <= k < |rows| ==> rows[k].signal != signal
  }

  predicate Enabled(w: World, e: Event) {
    && (w.pending.Some? ==> e.Restart? || e == Send(w.pending.value))
    && match e
       case Restart => true
       case Recorded(signal) => Unknown(w.rows, signal)
       case Begun(k) => k < |w.rows| && w.rows[k].status == INTENT
       case Send(k) => w.pending == Some(k)
       case Marked(k, status) =>
         && k < |w.rows|
         && if status == NOT_NEEDED then w.rows[k].status == INTENT
            else (status == SENT || status == SEND_FAILED) && w.rows[k].status == SENDING
       case Read(flat) => true
       case ProtectionsRemoved => w.flat
  }

  function Apply(w: World, e: Event): World
    requires Enabled(w, e)
  {
    match e
    case Restart => w.(pending := None, flat := false)
    case Recorded(signal) => w.(rows := w.rows + [Row(signal, INTENT)])
    case Begun(k) => w.(rows := w.rows[k := w.rows[k].(status := SENDING)], pending := Some(k))
    case Send(k) => w.(pending := None, sent := w.sent + [k], flat := false)
    case Marked(k, status) => w.(rows := w.rows[k := w.rows[k].(status := status)])
    case Read(flat) => w.(flat := flat)
    case ProtectionsRemoved => w
  }

  predicate Init(w: World) {
    w == World([], [], None, false)
  }

  ghost function After(w: World, run: seq<Event>): World {
    if run == [] then w
    else
      var before := After(w, run[..|run| - 1]);
      if Enabled(before, run[|run| - 1]) then Apply(before, run[|run| - 1]) else before
  }

  ghost predicate Legal(w: World, run: seq<Event>) {
    run == [] ||
    (Legal(w, run[..|run| - 1]) && Enabled(After(w, run[..|run| - 1]), run[|run| - 1]))
  }

  lemma Extend(w: World, run: seq<Event>, e: Event)
    requires Legal(w, run) && Enabled(After(w, run), e)
    ensures Legal(w, run + [e]) && After(w, run + [e]) == Apply(After(w, run), e)
  {
    assert (run + [e])[..|run|] == run;
  }

  ghost predicate Safe(w: World) {
    && (forall i, j :: 0 <= i < j < |w.rows| ==> w.rows[i].signal != w.rows[j].signal)
    && (forall i :: 0 <= i < |w.sent| ==>
                      w.sent[i] < |w.rows| && w.rows[w.sent[i]].status in {SENDING, SENT, SEND_FAILED})
    && (forall i, j :: 0 <= i < j < |w.sent| ==> w.sent[i] != w.sent[j])
    && (w.pending.Some? ==>
          w.pending.value < |w.rows| && w.rows[w.pending.value].status == SENDING && w.pending.value !in w.sent)
  }

  lemma SafeStep(w: World, e: Event)
    requires Safe(w) && Enabled(w, e)
    ensures Safe(Apply(w, e))
  {
  }

  lemma {:induction false} AlwaysSafe(w: World, run: seq<Event>)
    requires Init(w) && Legal(w, run)
    ensures Safe(After(w, run))
  {
    if run != [] {
      AlwaysSafe(w, run[..|run| - 1]);
      SafeStep(After(w, run[..|run| - 1]), run[|run| - 1]);
    }
  }

  /** Over any run, crashes at any point, one signal's exit is sent at most once. */
  lemma {:induction false} SentAtMostOnce(w: World, run: seq<Event>, i: nat, j: nat)
    requires Init(w) && Legal(w, run) && i < j < |After(w, run).sent|
    ensures var v := After(w, run);
            && v.sent[i] < |v.rows| && v.sent[j] < |v.rows|
            && v.rows[v.sent[i]].signal != v.rows[v.sent[j]].signal
  {
    AlwaysSafe(w, run);
  }

  /** What recovery may send again was never sent. */
  lemma {:induction false} RetryableWasNotSent(w: World, run: seq<Event>, k: nat)
    requires Init(w) && Legal(w, run) && k < |After(w, run).rows| && After(w, run).rows[k].status == INTENT
    ensures k !in After(w, run).sent
  {
    AlwaysSafe(w, run);
  }

  /** From event j on nothing was sent, and no crash or other reading intervened. */
  ghost predicate Undisturbed(run: seq<Event>, j: nat, n: nat)
    requires n <= |run|
  {
    forall i :: j < i < n ==> !run[i].Send? && run[i] != Restart && run[i] != Read(false)
  }

  lemma {:induction false} FlatWasRead(w: World, run: seq<Event>)
    requires Init(w) && Legal(w, run) && After(w, run).flat
    ensures exists j :: 0 <= j < |run| && run[j] == Read(true) && Undisturbed(run, j, |run|)
  {
    if run != [] {
      var n := |run| - 1;
      if run[n] == Read(true) {
        assert Undisturbed(run, n, |run|);
      } else {
        FlatWasRead(w, run[..n]);
        var j :| 0 <= j < n && run[..n][j] == Read(true) && Undisturbed(run[..n], j, n);
        forall i | j < i < |run| ensures !run[i].Send? && run[i] != Restart && run[i] != Read(false) {
          assert i < n ==> run[i] == run[..n][i];
        }
        assert Undisturbed(run, j, |run|);
      }
    }
  }

  /** Remaining stop and take-profit orders are removed only after a reading of this process
      showed a flat position, with nothing sent since. */
  lemma {:induction false} RemovedOnlyWhenFlat(w: World, run: seq<Event>, n: nat)
    requires Init(w) && n < |run| && Legal(w, run[..n]) && Legal(w, run[..n + 1]) && run[n] == ProtectionsRemoved
    ensures exists j :: 0 <= j < n && run[j] == Read(true) && Undisturbed(run, j, n)
  {
    assert run[..n + 1][..n] == run[..n];
    FlatWasRead(w, run[..n]);
    var j :| 0 <= j < n && run[..n][j] == Read(true) && Undisturbed(run[..n], j, n);
    forall i | j < i < n ensures !run[i].Send? && run[i] != Restart && run[i] != Read(false) {
      assert run[i] == run[..n][i];
    }
    assert Undisturbed(run, j, n);
  }

  // ---- The executor ------------------------------------------------------------------------

  datatype Skip = SkipNone | SkipDuplicate | SkipAlreadyFlat | SkipWaiting
  datatype Fault = NotSubmitted | OutcomeUnknown | CloseFailed | StoreFailed

  predicate FullRatio(ratio: real) {
    ratio <= 0.0 || ratio >= 100.0
  }

  class Executor {
    ghost const initial: World
    var rows: seq<Row>
    var world: World
    ghost var run: seq<Event>
    // The quantity of each request, and reads, writes and requests that failed.
    ghost var amounts: seq<real>
    ghost var setbacks: nat

    ghost predicate Valid()
      reads this
    {
      && |amounts| == |world.sent|
      && Init(initial) && Legal(initial, run) && world == After(initial, run) && rows == world.rows && world.pending == None
    }

    constructor ()
      ensures Valid() && rows == []
    {
      initial, rows, world, run := World([], [], None, false), [], World([], [], None, false), [];
      amounts, setbacks := [], 0;
    }

    ghost method Step(e: Event)
      requires Init(initial) && Legal(initial, run) && world == After(initial, run) && Enabled(world, e)
      modifies this`run
      ensures Legal(initial, run) && run == old(run) + [e] && Apply(world, e) == After(initial, run)
    {
      Extend(initial, run, e);
      run := run + [e];
    }

    method FreshPosition() returns (ok: bool, position: real)
      requires Valid()
      modifies this`world, this`run, this`setbacks
      ensures Valid() && world.sent == old(world.sent) && position >= 0.0
      ensures setbacks == if ok then old(setbacks) else old(setbacks) + 1
      ensures ok && position == 0.0 ==> world.flat
    {
      ok, position := *, *;
      setbacks := if ok then setbacks else setbacks + 1;
      if position < 0.0 {
        position := 0.0;
      }
      if ok {
        Step(Read(position == 0.0));
        world := Apply(world, Read(position == 0.0));
      }
    }

    /** Records the marker of a signal, or finds it; only a marker still at INTENT may go on. */
    method LegacyExitIntent(signal: string) returns (found: Option<nat>, skip: Skip, fault: Option<Fault>)
      requires Valid()
      modifies this
      ensures Valid() && world.sent == old(world.sent) && amounts == old(amounts)
      ensures setbacks >= old(setbacks) && (setbacks == old(setbacks) <==> fault != Some(NotSubmitted))
      ensures (forall k :: 0 <= k < |old(rows)| && old(rows)[k].signal == signal ==> old(rows)[k].status == INTENT) ==>
                found.Some? || fault == Some(NotSubmitted)
      ensures found.Some? ==>
                fault == None && skip == SkipNone && found.value < |rows| && rows[found.value] == Row(signal, INTENT)
      ensures (exists k :: 0 <= k < |old(rows)| && old(rows)[k].signal == signal && old(rows)[k].status != INTENT) ==> found == None
      ensures rows == old(rows) || (found == Some(|old(rows)|) && rows == old(rows) + [Row(signal, INTENT)])
      ensures found == None ==> fault.Some? || skip == SkipDuplicate
      ensures skip == SkipDuplicate ==>
                exists k :: 0 <= k < |rows| && rows[k].signal == signal && (rows[k].status == SENT || rows[k].status == NOT_NEEDED)
    {
      found, skip, fault := None, SkipNone, None;
      AlwaysSafe(initial, run);
      for k := 0 to |rows|
        invariant Valid() && rows == old(rows) && world == old(world) && amounts == old(amounts) && setbacks == old(setbacks)
        invariant forall j :: 0 <= j < k ==> rows[j].signal != signal
      {
        if rows[k].signal == signal {
          if rows[k].status == INTENT {
            return Some(k), SkipNone, None;
          } else if rows[k].status == SENT || rows[k].status == NOT_NEEDED {
            return None, SkipDuplicate, None;
          } else {
            return None, SkipWaiting, Some(OutcomeUnknown);
          }
        }
      }
      var stored: bool := *;
      if !stored {
        setbacks := setbacks + 1;
        return None, SkipNone, Some(NotSubmitted);
      }
      Step(Recorded(signal));
      world := Apply(world, Recorded(signal));
      rows := rows + [Row(signal, INTENT)];
      found := Some(|rows| - 1);
    }

    /** Recovery may resend an exit only if its marker exists and never left INTENT. */
    method LegacyExitRetryable(signal: string) returns (retryable: bool)
      requires Valid()
      ensures retryable <==>
                && (exists k :: 0 <= k < |rows| && rows[k].signal == signal)
                && (forall k :: 0 <= k < |rows| && rows[k].signal == signal ==> rows[k].status == INTENT)
      ensures retryable ==> forall i :: 0 <= i < |world.sent| ==> world.sent[i] < |rows| && rows[world.sent[i]].signal != signal
    {
      AlwaysSafe(initial, run);
      retryable := false;
      for k := 0 to |rows|
        invariant Valid()
        invariant retryable <==> exists j :: 0 <= j < k && rows[j].signal == signal
        invariant forall j :: 0 <= j < k && rows[j].signal == signal ==> rows[j].status == INTENT
      {
        if rows[k].signal == signal {
          if rows[k].status != INTENT {
            return false;
          }
          retryable := true;
        }
      }
    }

    method MarkLegacyExit(k: nat, status: Status) returns (ok: bool)
      requires Valid() && k < |rows| && Enabled(world, Marked(k, status))
      modifies this`rows, this`world, this`run, this`setbacks
      ensures Valid() && world.sent == old(world.sent) && world.flat == old(world.flat)
      ensures setbacks == if ok then old(setbacks) else old(setbacks) + 1
      ensures rows == if ok then old(rows)[k := old(rows)[k].(status := status)] else old(rows)
    {
      ok := *;
      setbacks := if ok then setbacks else setbacks + 1;
      if ok {
        Step(Marked(k, status));
        world := Apply(world, Marked(k, status));
        rows := rows[k := rows[k].(status := status)];
      }
    }

    /** SENDING is stored, then the request leaves; the answer may be an error after success. */
    method SendClose(k: nat, quantity: real) returns (begun: bool, accepted: bool)
      requires Valid() && k < |rows| && rows[k].status == INTENT
      modifies this
      ensures Valid() && world.sent == if begun then old(world.sent) + [k] else old(world.sent)
      ensures rows == if begun then old(rows)[k := old(rows)[k].(status := SENDING)] else old(rows)
      ensures amounts == if begun then old(amounts) + [quantity] else old(amounts)
      ensures setbacks == if begun && accepted then old(setbacks) else old(setbacks) + 1
    {
      begun, accepted := *, *;
      setbacks := if begun && accepted then setbacks else setbacks + 1;
      if begun {
        amounts := amounts + [quantity];
        Step(Begun(k));
        world := Apply(world, Begun(k));
        rows := rows[k := rows[k].(status := SENDING)];
        Step(Send(k));
        world := Apply(world, Send(k));
      }
    }

    method RemoveProtections()
      requires Valid() && world.flat
      modifies this`world, this`run
      ensures Valid() && world == old(world) && run == old(run) + [ProtectionsRemoved] && JustRemoved()
    {
      Step(ProtectionsRemoved);
      world := Apply(world, ProtectionsRemoved);
    }

    /** The last thing that happened was the removal of the remaining protections. */
    ghost predicate JustRemoved()
      reads this
    {
      |run| > 0 && run[|run| - 1] == ProtectionsRemoved
    }

    /** The quantity is the whole position, or the share of it in the exchange's format, which is
        zero when the exchange cannot format it. */
    predicate Sized(quantity: real, ratio: real, position: real, formatted: real) {
      if FullRatio(ratio) then quantity == position
      else if formatted > 0.0 then quantity == formatted
      else quantity * 100.0 == position * ratio
    }

    /** The close goes first; protections go only after a fresh read shows a flat position.
        position is what was read before it, after what was read then. */
    method ExecuteLegacyClose(k: nat, ratio: real, formatted: real)
      returns (skip: Skip, fault: Option<Fault>, ghost position: Option<real>, ghost after: Option<real>)
      requires Valid() && k < |rows| && rows[k].status == INTENT
      modifies this
      ensures Valid() && (world.sent == old(world.sent) || world.sent == old(world.sent) + [k])
      ensures |rows| == |old(rows)| && rows == old(rows)[k := old(rows)[k].(status := rows[k].status)]
      ensures world.sent != old(world.sent) ==> rows[k].status != INTENT
      ensures fault == Some(NotSubmitted) <==> rows[k].status == INTENT
      ensures fault == Some(NotSubmitted) ==> world.sent == old(world.sent) && rows == old(rows)
      ensures fault == None && skip == SkipAlreadyFlat ==> world.sent == old(world.sent) && rows[k].status == NOT_NEEDED
      ensures fault == None && skip != SkipAlreadyFlat ==> world.sent == old(world.sent) + [k]
      ensures fault == Some(CloseFailed) ==> world.sent == old(world.sent) + [k] && rows[k].status != SENT
      // Nothing but a failure outside keeps an open position from being closed.
      ensures setbacks >= old(setbacks) && (setbacks == old(setbacks) ==> fault == None && position.Some?)
      ensures position.Some? && position.value > 0.0 && setbacks == old(setbacks) ==>
                world.sent == old(world.sent) + [k] && rows[k].status == SENT
      ensures position == Some(0.0) && fault == None ==> skip == SkipAlreadyFlat && JustRemoved()
      ensures if world.sent == old(world.sent) then amounts == old(amounts)
              else
                && position.Some? && position.value > 0.0 && old(amounts) <= amounts
                && Sized(amounts[|old(amounts)|], ratio, position.value, formatted)
      // A close of everything releases the protections once the position is seen flat.
      ensures setbacks == old(setbacks) && position.Some? && position.value > 0.0 && FullRatio(ratio) ==> after.Some?
      ensures after == Some(0.0) && fault == None ==> JustRemoved()
    {
      hide Legal, After, Init, Sized;
      position, after := None, None;
      var read, open := FreshPosition();
      if !read {
        return SkipNone, Some(NotSubmitted), None, None;
      }
      position := Some(open);
      if open == 0.0 {
        skip, fault := NothingToClose(k);
        return;
      }
      var quantity := if FullRatio(ratio) then open else if formatted > 0.0 then formatted else open * ratio / 100.0;
      Share(open, ratio, formatted, quantity);
      skip := SkipNone;
      fault, after := CloseAndConfirm(k, quantity, FullRatio(ratio) || quantity >= open);
    }

    /** Flat already: the marker says so, and what is left of the protections goes. */
    method NothingToClose(k: nat) returns (skip: Skip, fault: Option<Fault>)
      requires Valid() && world.flat && k < |rows| && rows[k].status == INTENT
      modifies this`rows, this`world, this`run, this`setbacks
      ensures Valid() && world.sent == old(world.sent) && setbacks >= old(setbacks)
      ensures if fault == None then
                skip == SkipAlreadyFlat && rows == old(rows)[k := old(rows)[k].(status := NOT_NEEDED)] && JustRemoved()
              else
                fault == Some(NotSubmitted) && rows == old(rows) && setbacks > old(setbacks)
    {
      hide Legal, After, Init;
      var ok := MarkLegacyExit(k, NOT_NEEDED);
      if !ok {
        return SkipNone, Some(NotSubmitted);
      }
      RemoveProtections();
      return SkipAlreadyFlat, None;
    }

    /** The request, its outcome, and for a close of everything a fresh read. */
    method CloseAndConfirm(k: nat, quantity: real, full: bool) returns (fault: Option<Fault>, ghost after: Option<real>)
      requires Valid() && k < |rows| && rows[k].status == INTENT
      modifies this
      ensures Valid() && setbacks >= old(setbacks)
      ensures |rows| == |old(rows)| && rows == old(rows)[k := old(rows)[k].(status := rows[k].status)]
      ensures if fault == Some(NotSubmitted) then
                rows == old(rows) && world.sent == old(world.sent) && amounts == old(amounts)
              else
                rows[k].status != INTENT && world.sent == old(world.sent) + [k] && amounts == old(amounts) + [quantity]
      ensures fault.Some? ==>
                && setbacks > old(setbacks)
                && (fault == Some(NotSubmitted) || (fault == Some(CloseFailed) && rows[k].status != SENT))
      ensures setbacks == old(setbacks) ==> rows[k].status == SENT && (full ==> after.Some?)
      ensures after == Some(0.0) && fault == None ==> JustRemoved()
    {
      hide Legal, After, Init;
      fault, after := None, None;
      var begun, accepted := SendClose(k, quantity);
      if !begun {
        return Some(NotSubmitted), None;
      }
      var marked := MarkLegacyExit(k, if accepted then SENT else SEND_FAILED);
      if !accepted {
        return Some(CloseFailed), None;
      }
      if full {
        var again, left := FreshPosition();
        if again {
          after := Some(left);
        }
        if again && left == 0.0 {
          RemoveProtections();
        }
      }
    }

    /** A share of an open position is never nothing. */
    lemma Share(open: real, ratio: real, formatted: real, quantity: real)
      requires open > 0.0
      requires quantity == if FullRatio(ratio) then open else if formatted > 0.0 then formatted else open * ratio / 100.0
      ensures quantity > 0.0 && Sized(quantity, ratio, open, formatted)
    {
      if !FullRatio(ratio) {
        assert open * ratio > 0.0;
      }
    }

    /** ExecuteClose on such an exchange; the entry latch may stop it before anything is sent. A
        signal that never got past its marker closes an open position, unless something outside
        fails. */
    method ExecuteClose(signal: string, ratio: real, formatted: real)
      returns (skip: Skip, fault: Option<Fault>, ghost position: Option<real>)
      requires Valid()
      modifies this
      ensures Valid() && |world.sent| <= |old(world.sent)| + 1
      ensures fault == Some(NotSubmitted) ==> world.sent == old(world.sent)
      ensures fault == None && skip == SkipNone ==> Closed(old(world.sent), old(amounts), signal, ratio, position, formatted)
      ensures (exists k :: 0 <= k < |old(rows)| && old(rows)[k].signal == signal && old(rows)[k].status != INTENT) ==>
                world.sent == old(world.sent)
      ensures setbacks >= old(setbacks)
      ensures setbacks == old(setbacks)
              && (forall k :: 0 <= k < |old(rows)| && old(rows)[k].signal == signal ==> old(rows)[k].status == INTENT) ==>
                && fault == None && position.Some?
                && (position.value > 0.0 ==> Closed(old(world.sent), old(amounts), signal, ratio, position, formatted))
                && (position.value == 0.0 ==> skip == SkipAlreadyFlat && JustRemoved())
    {
      var found;
      position := None;
      found, skip, fault := LegacyExitIntent(signal);
      if found.None? {
        return;
      }
      var latched: bool := *;
      if !latched {
        setbacks := setbacks + 1;
        return SkipNone, Some(NotSubmitted), None;
      }
      ghost var after;
      skip, fault, position, after := ExecuteLegacyClose(found.value, ratio, formatted);
    }

    /** Exactly one request was added, of this signal and for the wanted quantity. */
    ghost predicate Closed(sent: seq<nat>, before: seq<real>, signal: string, ratio: real, position: Option<real>,
                           formatted: real)
      reads this
    {
      && |world.sent| == |sent| + 1 && sent <= world.sent && world.sent[|sent|] < |rows|
      && rows[world.sent[|sent|]].signal == signal
      && position.Some? && position.value > 0.0 && |before| < |amounts|
      && Sized(amounts[|before|], ratio, position.value, formatted)
    }
  }
}
