/** The per-address token bucket of the login endpoints. Idle buckets are thrown away now and
    then; nobody can tell, as long as a bucket that was idle that long is full again. */
module RateLimit {
  import opened Prelude

  const IDLE: real := 600.0
  const SWEEP: real := 60.0

  datatype Bucket = Bucket(tokens: real, last: real)

  datatype Config = Config(rate: real, burst: real)

  datatype State = State(buckets: map<string, Bucket>, lastGC: Option<real>)

  predicate Idle(b: Bucket, now: real) {
    now - b.last > IDLE
  }

  predicate Due(s: State, now: real) {
    s.lastGC.Some? && now - s.lastGC.value > SWEEP
  }

  function Swept(s: State, now: real): State {
    var first := if s.lastGC.None? then s.(lastGC := Some(now)) else s;
    if Due(first, now) then
      State(map k | k in first.buckets && !Idle(first.buckets[k], now) :: first.buckets[k], Some(now))
    else first
  }

  /** Tokens that come back in a stretch of time. */
  function Gain(c: Config, elapsed: real): real {
    elapsed * c.rate
  }

  function Refilled(c: Config, b: Bucket, now: real): Bucket {
    if now - b.last > 0.0 then Bucket(Min(c.burst, b.tokens + Gain(c, now - b.last)), now) else b
  }

  /** The bucket of a key at a time: refilled, or a full one for a new key. */
  function Present(c: Config, s: State, key: string, now: real): Bucket {
    Refilled(c, if key in s.buckets then s.buckets[key] else Bucket(c.burst, now), now)
  }

  function Taken(b: Bucket): Bucket {
    if b.tokens < 1.0 then b else b.(tokens := b.tokens - 1.0)
  }

  function Request(c: Config, s: State, key: string, now: real): (State, bool) {
    var b := Present(c, s, key, now);
    (s.(buckets := s.buckets[key := Taken(b)]), b.tokens >= 1.0)
  }

  /** One request with sweeping, and the reference without. */
  function Allow(c: Config, s: State, key: string, now: real): (State, bool) {
    Request(c, Swept(s, now), key, now)
  }

  class Limiter {
    const config: Config
    var buckets: map<string, Bucket>
    var lastGC: Option<real>

    function Contents(): State
      reads this
    {
      State(buckets, lastGC)
    }

    constructor (rate: real, burst: real)
      ensures config == Config(rate, burst) && Contents() == State(map[], None)
    {
      config, buckets, lastGC := Config(rate, burst), map[], None;
    }

    method Allowed(key: string, now: real) returns (ok: bool)
      modifies this
      ensures (Contents(), ok) == Allow(config, old(Contents()), key, now)
    {
      Sweep(now);
      var b := if key in buckets then buckets[key] else Bucket(config.burst, now);
      var elapsed := now - b.last;
      if elapsed > 0.0 {
        b := Bucket(Min(config.burst, b.tokens + elapsed * config.rate), now);
      }
      assert b == Present(config, Contents(), key, now);
      ok := b.tokens >= 1.0;
      if ok {
        b := b.(tokens := b.tokens - 1.0);
      }
      buckets := buckets[key := b];
    }

    method Sweep(now: real)
      modifies this
      ensures Contents() == Swept(old(Contents()), now)
    {
      if lastGC.None? {
        lastGC := Some(now);
      }
      if now - lastGC.value > SWEEP {
        var all := buckets;
        var rest := all.Keys;
        while rest != {}
          invariant rest <= all.Keys && lastGC == old(lastGC)
          invariant buckets == map k | k in all && (k in rest || !Idle(all[k], now)) :: all[k]
          decreases rest
        {
          var k :| k in rest;
          if now - buckets[k].last > IDLE {
            buckets := buckets - {k};
          }
          rest := rest - {k};
        }
        lastGC := Some(now);
      }
    }
  }

  // ---- Sweeping cannot be noticed ----------------------------------------------------------

  datatype Call = Call(key: string, now: real)

  /** Answers of the sweeping limiter and of one that never drops a bucket. */
  function Answers(c: Config, s: State, calls: seq<Call>): (answers: seq<bool>)
    ensures |answers| == |calls|
    decreases |calls|
  {
    if calls == [] then []
    else
      var (next, ok) := Allow(c, s, calls[0].key, calls[0].now);
      [ok] + Answers(c, next, calls[1..])
  }

  function Reference(c: Config, s: State, calls: seq<Call>): (answers: seq<bool>)
    ensures |answers| == |calls|
    decreases |calls|
  {
    if calls == [] then []
    else
      var (next, ok) := Request(c, s, calls[0].key, calls[0].now);
      [ok] + Reference(c, next, calls[1..])
  }

  /** Times do not go back. */
  predicate Ordered(calls: seq<Call>, from: real) {
    (forall i :: 0 <= i < |calls| ==> from <= calls[i].now) &&
    forall i, j :: 0 <= i < j < |calls| ==> calls[i].now <= calls[j].now
  }

  predicate FullAt(c: Config, b: Bucket, now: real) {
    b.last < now && b.tokens + Gain(c, now - b.last) >= c.burst
  }

  /** The two limiters agree on every kept bucket; every dropped one is full by now. */
  ghost predicate Agree(c: Config, swept: State, kept: State, now: real) {
    && (forall k :: k in kept.buckets ==>
                      0.0 <= kept.buckets[k].tokens <= c.burst && kept.buckets[k].last <= now)
    && (forall k :: k in swept.buckets ==> k in kept.buckets && swept.buckets[k] == kept.buckets[k])
    && (forall k :: k in kept.buckets && k !in swept.buckets ==> FullAt(c, kept.buckets[k], now))
  }

  predicate Sound(c: Config) {
    c.burst > 0.0 && c.rate >= 0.0 && Gain(c, IDLE) >= c.burst
  }

  lemma FillsUp(c: Config, tokens: real, elapsed: real)
    requires Sound(c) && tokens >= 0.0 && elapsed >= IDLE
    ensures tokens + Gain(c, elapsed) >= c.burst
  {
    hide Gain;
    GainMonotone(c, IDLE, elapsed);
  }

  lemma GainMonotone(c: Config, a: real, b: real)
    requires a <= b && 0.0 <= c.rate
    ensures Gain(c, a) <= Gain(c, b)
  {
  }

  lemma GainNothing(c: Config)
    ensures Gain(c, 0.0) == 0.0
  {
  }

  lemma GainAdds(c: Config, a: real, b: real)
    ensures Gain(c, a + b) == Gain(c, a) + Gain(c, b)
  {
  }

  lemma LaterFull(c: Config, b: Bucket, now: real, later: real)
    requires FullAt(c, b, now) && now <= later && c.rate >= 0.0
    ensures FullAt(c, b, later)
  {
    hide Gain;
    GainMonotone(c, now - b.last, later - b.last);
  }

  lemma SweepAgrees(c: Config, swept: State, kept: State, before: real, now: real)
    requires Sound(c) && Agree(c, swept, kept, before) && before <= now
    ensures Agree(c, Swept(swept, now), kept, now)
  {
    hide Gain;
    var after := Swept(swept, now);
    forall k | k in kept.buckets && k !in after.buckets ensures FullAt(c, kept.buckets[k], now) {
      if k in swept.buckets {
        FillsUp(c, kept.buckets[k].tokens, now - kept.buckets[k].last);
      } else {
        LaterFull(c, kept.buckets[k], before, now);
      }
    }
  }

  /** A full bucket and a new one answer alike and are alike afterwards. */
  lemma SamePresent(c: Config, swept: State, kept: State, key: string, now: real)
    requires Sound(c) && Agree(c, swept, kept, now)
    ensures Present(c, swept, key, now) == Present(c, kept, key, now)
    ensures 0.0 <= Present(c, kept, key, now).tokens <= c.burst && Present(c, kept, key, now).last == now
  {
    hide Gain;
    GainNothing(c);
    if key in kept.buckets {
      var b := kept.buckets[key];
      if b.last < now {
        GainMonotone(c, 0.0, now - b.last);
      }
    }
  }

  lemma RequestAgrees(c: Config, swept: State, kept: State, key: string, now: real)
    requires Sound(c) && Agree(c, swept, kept, now)
    ensures Request(c, swept, key, now).1 == Request(c, kept, key, now).1
    ensures Agree(c, Request(c, swept, key, now).0, Request(c, kept, key, now).0, now)
  {
    SamePresent(c, swept, kept, key, now);
    hide Present, FullAt;
  }

  lemma {:induction false} SweepingUnnoticed(c: Config, swept: State, kept: State, now: real, calls: seq<Call>)
    requires Sound(c) && Agree(c, swept, kept, now) && Ordered(calls, now)
    ensures Answers(c, swept, calls) == Reference(c, kept, calls)
    decreases |calls|
  {
    if calls != [] {
      var key, t := calls[0].key, calls[0].now;
      SweepAgrees(c, swept, kept, now, t);
      RequestAgrees(c, Swept(swept, t), kept, key, t);
      SweepingUnnoticed(c, Allow(c, swept, key, t).0, Request(c, kept, key, t).0, t, calls[1..]);
    }
  }

  /** Started empty, the limiter answers every sequence of requests as one that never drops a
      bucket. */
  lemma NobodyNotices(c: Config, now: real, calls: seq<Call>)
    requires Sound(c) && Ordered(calls, now)
    ensures Answers(c, State(map[], None), calls) == Reference(c, State(map[], None), calls)
  {
    SweepingUnnoticed(c, State(map[], None), State(map[], None), now, calls);
  }

  /** The constants in use satisfy the condition with room to spare. */
  lemma ConstantsAreSound()
    ensures Sound(Config(1.0 / 6.0, 8.0))
  {
  }

  // ---- At most burst + rate x time admissions --------------------------------------------------

  /** Admissions of one key within a window. */
  function Admitted(calls: seq<Call>, answers: seq<bool>, key: string, from: real, to: real): nat
    requires |answers| == |calls|
  {
    if calls == [] then 0
    else
      Admitted(calls[1..], answers[1..], key, from, to) +
      (if answers[0] && calls[0].key == key && from <= calls[0].now <= to then 1 else 0)
  }

  /** What a key could spend at a time. */
  function Available(c: Config, s: State, key: string, now: real): real {
    Present(c, s, key, now).tokens
  }

  ghost predicate Kept(c: Config, s: State, now: real) {
    Agree(c, s, s, now)
  }

  lemma AvailableGrows(c: Config, s: State, key: string, now: real, later: real)
    requires Sound(c) && Kept(c, s, now) && now <= later
    ensures Available(c, s, key, later) <= Available(c, s, key, now) + Gain(c, later - now)
    ensures 0.0 <= Available(c, s, key, now) <= c.burst
  {
    hide Gain;
    GainNothing(c);
    GainMonotone(c, 0.0, later - now);
    SamePresent(c, s, s, key, now);
    if key in s.buckets {
      var last := s.buckets[key].last;
      GainAdds(c, later - now, now - last);
      assert later - now + (now - last) == later - last;
    }
  }

  lemma RequestSpends(c: Config, s: State, key: string, other: string, now: real)
    requires Sound(c) && Kept(c, s, now)
    ensures Kept(c, Request(c, s, key, now).0, now)
    ensures Available(c, Request(c, s, key, now).0, other, now) ==
            Available(c, s, other, now) - (if key == other && Request(c, s, key, now).1 then 1.0 else 0.0)
  {
    hide Gain;
    RequestAgrees(c, s, s, key, now);
    SamePresent(c, s, s, key, now);
  }

  lemma KeptLater(c: Config, s: State, now: real, later: real)
    requires Kept(c, s, now) && now <= later
    ensures Kept(c, s, later)
  {
  }

  /** Admissions still possible in a window, seen from a time. */
  function Bound(c: Config, s: State, key: string, now: real, from: real, to: real): real {
    if now > to then 0.0
    else if now >= from then Available(c, s, key, now) + Gain(c, to - now)
    else c.burst + Gain(c, to - from)
  }

  lemma BoundPositive(c: Config, s: State, key: string, now: real, from: real, to: real)
    requires Sound(c) && Kept(c, s, now) && from <= to
    ensures 0.0 <= Bound(c, s, key, now, from, to) <= c.burst + Gain(c, to - from)
  {
    hide Available, Gain;
    AvailableGrows(c, s, key, now, now);
    GainNothing(c);
    GainMonotone(c, 0.0, to - from);
    if from <= now <= to {
      GainMonotone(c, 0.0, to - now);
      GainMonotone(c, to - now, to - from);
    }
  }

  /** Time passing never adds to what a window still admits. */
  lemma BoundShrinks(c: Config, s: State, key: string, now: real, later: real, from: real, to: real)
    requires Sound(c) && Kept(c, s, now) && now <= later && from <= to
    ensures Bound(c, s, key, later, from, to) <= Bound(c, s, key, now, from, to)
  {
    hide Available, Gain;
    KeptLater(c, s, now, later);
    BoundPositive(c, s, key, now, from, to);
    BoundPositive(c, s, key, later, from, to);
    if from <= now <= later <= to {
      AvailableGrows(c, s, key, now, later);
      GainAdds(c, to - later, later - now);
      assert to - later + (later - now) == to - now;
    }
  }

  /** An admission inside the window is paid from it. */
  lemma BoundSpent(c: Config, s: State, k: string, key: string, now: real, from: real, to: real)
    requires Sound(c) && Kept(c, s, now) && from <= to
    ensures var (next, ok) := Request(c, s, k, now);
            Bound(c, next, key, now, from, to) ==
            Bound(c, s, key, now, from, to) - (if ok && k == key && from <= now <= to then 1.0 else 0.0)
  {
    hide Available, Gain;
    RequestSpends(c, s, k, key, now);
  }

  lemma {:induction false} SpentWithin(c: Config, s: State, now: real, calls: seq<Call>, key: string, from: real, to: real)
    requires Sound(c) && Kept(c, s, now) && Ordered(calls, now) && from <= to
    ensures Admitted(calls, Reference(c, s, calls), key, from, to) as real <= Bound(c, s, key, now, from, to)
    decreases |calls|
  {
    BoundPositive(c, s, key, now, from, to);
    if calls != [] {
      var k, t := calls[0].key, calls[0].now;
      var (next, ok) := Request(c, s, k, t);
      KeptLater(c, s, now, t);
      BoundShrinks(c, s, key, now, t, from, to);
      RequestSpends(c, s, k, key, t);
      BoundSpent(c, s, k, key, t, from, to);
      hide Bound, Request;
      SpentWithin(c, next, t, calls[1..], key, from, to);
      assert Reference(c, s, calls) == [ok] + Reference(c, next, calls[1..]);
      assert Reference(c, s, calls)[1..] == Reference(c, next, calls[1..]);
    }
  }

  /** In any window, a key is admitted at most burst + rate x (length of the window) times by
      the limiter that sweeps. */
  lemma WindowBound(c: Config, now: real, calls: seq<Call>, key: string, from: real, to: real)
    requires Sound(c) && Ordered(calls, now) && from <= to
    ensures Admitted(calls, Answers(c, State(map[], None), calls), key, from, to) as real <= c.burst + c.rate * (to - from)
  {
    var empty := State(map[], None);
    hide Gain, Bound, Answers, Reference, Admitted, Ordered;
    NobodyNotices(c, now, calls);
    assert Kept(c, empty, now);
    SpentWithin(c, empty, now, calls, key, from, to);
    BoundPositive(c, empty, key, now, from, to);
    GainIs(c, to - from);
  }

  // ---- Nobody is refused for less --------------------------------------------------------------

  /** Time refills a key up to the burst, and no further. */
  lemma AvailableExact(c: Config, s: State, key: string, now: real, later: real)
    requires Sound(c) && Kept(c, s, now) && now <= later
    ensures Available(c, s, key, later) == Min(c.burst, Available(c, s, key, now) + Gain(c, later - now))
  {
    hide Gain;
    GainNothing(c);
    GainMonotone(c, 0.0, later - now);
    if key in s.buckets {
      var last := s.buckets[key].last;
      GainMonotone(c, 0.0, now - last);
      GainAdds(c, later - now, now - last);
      assert later - now + (now - last) == later - last;
    }
  }

  /** A key has at least what it would have, had it been full at some time and spent that much
      since. */
  ghost predicate Owed(c: Config, s: State, key: string, now: real, since: real, spent: nat) {
    since <= now && Available(c, s, key, now) >= c.burst + Gain(c, now - since) - spent as real
  }

  /** Later it is still so, or the key was full again in between. */
  lemma OwedLater(c: Config, s: State, key: string, now: real, later: real, since: real, spent: nat)
    requires Sound(c) && Kept(c, s, now) && now <= later && Owed(c, s, key, now, since, spent)
    ensures Owed(c, s, key, later, since, spent) || Owed(c, s, key, later, later, 0)
  {
    hide Available, Gain;
    AvailableExact(c, s, key, now, later);
    GainAdds(c, later - now, now - since);
    assert later - now + (now - since) == later - since;
    GainNothing(c);
  }

  lemma {:induction false} RefusedWhenSpent(c: Config, s: State, now: real, calls: seq<Call>, i: nat, key: string,
                                            since: real, spent: nat) returns (start: real, before: nat)
    requires Sound(c) && Kept(c, s, now) && Ordered(calls, now) && Owed(c, s, key, now, since, spent)
    requires i < |calls| && calls[i].key == key && !Reference(c, s, calls)[i]
    ensures start <= calls[i].now && ((start == since && before == spent) || (start >= now && before == 0))
    ensures before as real + Admitted(calls[..i], Reference(c, s, calls)[..i], key, start, calls[i].now) as real
            > c.burst - 1.0 + Gain(c, calls[i].now - start)
    decreases |calls|
  {
    var k, t := calls[0].key, calls[0].now;
    KeptLater(c, s, now, t);
    OwedLater(c, s, key, now, t, since, spent);
    start, before := since, spent;
    if !Owed(c, s, key, t, since, spent) {
      start, before := t, 0;
    }
    if i > 0 {
      var (next, ok) := Request(c, s, k, t);
      var one: nat := if ok && k == key then 1 else 0;
      RequestSpends(c, s, k, key, t);
      assert Owed(c, next, key, t, start, before + one);
      var first, spentBefore := RefusedWhenSpent(c, next, t, calls[1..], i - 1, key, start, before + one);
      AdmittedHead(c, s, calls, i, key, first);
      if !(first == start && spentBefore == before + one) {
        start, before := first, 0;
      }
    }
  }

  /** The first call counts in every window that begins by then. */
  lemma AdmittedHead(c: Config, s: State, calls: seq<Call>, i: nat, key: string, from: real)
    requires 0 < i < |calls| && (forall j :: 0 < j < |calls| ==> calls[0].now <= calls[j].now)
    ensures var (next, ok) := Request(c, s, calls[0].key, calls[0].now);
            Admitted(calls[..i], Reference(c, s, calls)[..i], key, from, calls[i].now) ==
            Admitted(calls[1..][..i - 1], Reference(c, next, calls[1..])[..i - 1], key, from, calls[i].now)
            + (if ok && calls[0].key == key && from <= calls[0].now then 1 else 0)
  {
    hide Request;
    assert calls[..i][1..] == calls[1..][..i - 1];
    var (next, ok) := Request(c, s, calls[0].key, calls[0].now);
    assert Reference(c, s, calls)[..i] == [ok] + Reference(c, next, calls[1..])[..i - 1];
    assert ([ok] + Reference(c, next, calls[1..])[..i - 1])[1..] == Reference(c, next, calls[1..])[..i - 1];
  }

  /** Conversely a key is refused only when it has used up, since some time, all but a part of
      one of the admissions that the window allows. */
  lemma RefusedOnlyWhenSpent(c: Config, now: real, calls: seq<Call>, i: nat)
    requires Sound(c) && Ordered(calls, now) && i < |calls| && !Answers(c, State(map[], None), calls)[i]
    ensures exists from :: from <= calls[i].now &&
              Admitted(calls[..i], Answers(c, State(map[], None), calls)[..i], calls[i].key, from, calls[i].now) as real
              > c.burst - 1.0 + c.rate * (calls[i].now - from)
  {
    hide Gain, Answers, Reference, Admitted, Ordered;
    var empty := State(map[], None);
    NobodyNotices(c, now, calls);
    GainNothing(c);
    assert Kept(c, empty, now) && Owed(c, empty, calls[i].key, now, now, 0);
    var from, before := RefusedWhenSpent(c, empty, now, calls, i, calls[i].key, now, 0);
    GainIs(c, calls[i].now - from);
  }

  lemma GainIs(c: Config, elapsed: real)
    ensures Gain(c, elapsed) == c.rate * elapsed
  {
  }
}
