/** Reading a channel's history page by page while new messages keep arriving. */
module History {
  import opened Prelude
  import CollectorProtocol

  const PAGE: nat := 100
  const PAGES: nat := 10

  predicate Descending(ids: seq<nat>) {
    forall i, j :: 0 <= i < j < |ids| ==> ids[i] > ids[j]
  }

  predicate Below(m: nat, before: Option<nat>) {
    before.Some? ==> m < before.value
  }

  /** The newest messages before a bound, newest first, a full page unless there are fewer. */
  ghost predicate IsPage(posted: set<nat>, before: Option<nat>, batch: seq<nat>) {
    && |batch| <= PAGE && Descending(batch)
    && (forall i :: 0 <= i < |batch| ==> batch[i] in posted && Below(batch[i], before))
    && (forall m :: m in posted && Below(m, before) && m !in batch ==>
                      |batch| == PAGE && m < batch[|batch| - 1])
  }

  /** New messages are newer than all before. */
  ghost predicate Grew(before: set<nat>, after: set<nat>) {
    before <= after && forall m, n :: m in after && m !in before && n in before ==> m > n
  }

  class Source {
    var posted: set<nat>

    constructor (posted: set<nat>)
      ensures this.posted == posted
    {
      this.posted := posted;
    }

    /** Messages may arrive first; the page is then read at one moment. */
    method Fetch(before: Option<nat>) returns (batch: seq<nat>)
      modifies this
      ensures Grew(old(posted), posted) && IsPage(posted, before, batch)
    {
      var arriving: nat := *;
      while arriving > 0
        invariant Grew(old(posted), posted)
      {
        var id: nat := *;
        if forall m :: m in posted ==> m < id {
          posted := posted + {id};
        }
        arriving := arriving - 1;
      }
      batch := [];
      var now := posted;
      var rest := set m | m in posted && Below(m, before);
      while rest != {} && |batch| < PAGE
        invariant posted == now && rest <= posted && |batch| <= PAGE && Descending(batch)
        invariant forall i :: 0 <= i < |batch| ==> batch[i] in posted && Below(batch[i], before)
        invariant forall m :: m in rest ==> Below(m, before)
        invariant forall m :: m in posted && Below(m, before) ==> (m in rest <==> m !in batch)
        invariant forall m, i :: m in rest && 0 <= i < |batch| ==> m < batch[i]
        decreases rest
      {
        var newest := Newest(rest);
        batch, rest := batch + [newest], rest - {newest};
      }
    }
  }

  method Newest(ids: set<nat>) returns (newest: nat)
    requires ids != {}
    ensures newest in ids && forall m :: m in ids ==> m <= newest
  {
    newest :| newest in ids;
    var rest := ids - {newest};
    while rest != {}
      invariant rest <= ids && newest in ids && forall m :: m in ids && m !in rest ==> m <= newest
      decreases rest
    {
      var m :| m in rest;
      if m > newest {
        newest := m;
      }
      rest := rest - {m};
    }
  }

  /** What a batch contributes: everything, or only what is newer than the last known. */
  function Kept(batch: seq<nat>, last: nat, baseline: bool): (r: seq<nat>)
    ensures forall m :: m in r <==> m in batch && (baseline || m > last)
    ensures |r| <= |batch|
  {
    if batch == [] then []
    else
      Kept(batch[..|batch| - 1], last, baseline) +
      (if baseline || batch[|batch| - 1] > last then [batch[|batch| - 1]] else [])
  }

  lemma KeptDescending(batch: seq<nat>, last: nat, baseline: bool)
    requires Descending(batch)
    ensures Descending(Kept(batch, last, baseline))
  {
    if batch != [] {
      var init := Kept(batch[..|batch| - 1], last, baseline);
      KeptDescending(batch[..|batch| - 1], last, baseline);
      forall i | 0 <= i < |init| ensures init[i] > batch[|batch| - 1] {
        assert init[i] in batch[..|batch| - 1];
      }
    }
  }

  lemma KeptAll(batch: seq<nat>, last: nat, baseline: bool)
    requires forall m :: m in batch ==> m > last
    ensures Kept(batch, last, baseline) == batch
  {
    if batch != [] {
      var n := |batch| - 1;
      forall m | m in batch[..n] ensures m in batch {
      }
      assert batch[n] in batch;
      KeptAll(batch[..n], last, baseline);
    }
  }

  /** sorted() by id. */
  function Insert(id: nat, ids: seq<nat>): (r: seq<nat>)
    ensures |r| == |ids| + 1 && forall m :: m in r <==> m == id || m in ids
  {
    if ids == [] then [id]
    else if id <= ids[0] then [id] + ids
    else [ids[0]] + Insert(id, ids[1..])
  }

  function Sorted(ids: seq<nat>): (r: seq<nat>)
    ensures |r| == |ids| && forall m :: m in r <==> m in ids
  {
    if ids == [] then [] else Insert(ids[0], Sorted(ids[1..]))
  }

  lemma InsertAscending(id: nat, ids: seq<nat>)
    requires CollectorProtocol.Ascending(ids) && id !in ids
    ensures CollectorProtocol.Ascending(Insert(id, ids))
  {
    if ids != [] && id > ids[0] {
      InsertAscending(id, ids[1..]);
      var rest := Insert(id, ids[1..]);
      forall j | 0 <= j < |rest| ensures ids[0] < rest[j] {
        assert rest[j] in rest;
      }
    } else if ids != [] {
      assert id < ids[0];
    }
  }

  lemma {:induction false} SortedAscending(ids: seq<nat>)
    requires forall i, j :: 0 <= i < j < |ids| ==> ids[i] != ids[j]
    ensures CollectorProtocol.Ascending(Sorted(ids))
  {
    if ids != [] {
      SortedAscending(ids[1..]);
      InsertAscending(ids[0], Sorted(ids[1..]));
    }
  }

  /** What the reader promises about the messages there were when it started. */
  ghost predicate Complete(first: set<nat>, last: nat, baseline: bool, rows: seq<nat>) {
    && CollectorProtocol.Ascending(rows)
    && (forall m :: m in rows ==> m in first && (baseline || m > last))
    && (forall m :: m in first && m > last ==> m in rows)
  }

  ghost predicate NewestThousand(first: set<nat>, last: nat, rows: seq<nat>) {
    && CollectorProtocol.Ascending(rows) && |rows| == PAGE * PAGES
    && (forall m :: m in rows ==> m in first && m > last)
    && (forall m :: m in first && m !in rows ==> m < rows[0])
  }

  /** The rows read so far: everything from the lowest of them on, newest first. */
  ghost predicate ReadDownTo(first: set<nat>, last: nat, rows: seq<nat>, before: Option<nat>) {
    && Descending(rows)
    && (forall m :: m in rows ==> m in first && m > last)
    && (before.None? ==> rows == [])
    && (before.Some? ==> before.value in rows && forall m :: m in rows ==> m >= before.value)
    && (forall m :: m in first && !Below(m, before) ==> m in rows)
  }

  /** A page read later shows what the first moment already had. */
  lemma PageOfFirst(first: set<nat>, posted: set<nat>, before: Option<nat>, batch: seq<nat>)
    requires Grew(first, posted) && IsPage(posted, before, batch) && (before.Some? ==> before.value in first)
    requires before.None? ==> posted == first
    ensures IsPage(first, before, batch)
  {
  }

  lemma DescendingJoin(rows: seq<nat>, more: seq<nat>, before: Option<nat>)
    requires Descending(rows) && Descending(more)
    requires forall m :: m in rows ==> before.Some? && m >= before.value
    requires forall m :: m in more ==> Below(m, before)
    ensures Descending(rows + more)
  {
    forall i, j | 0 <= i < j < |rows + more| ensures (rows + more)[i] > (rows + more)[j] {
      if i < |rows| <= j {
        assert rows[i] in rows && more[j - |rows|] in more;
      }
    }
  }

  /** The page that ends the read: it was not full, or it reached the last known message. */
  lemma LastPage(first: set<nat>, last: nat, baseline: bool, rows: seq<nat>, before: Option<nat>, batch: seq<nat>)
    requires ReadDownTo(first, last, rows, before) && IsPage(first, before, batch)
    requires |batch| < PAGE || batch[|batch| - 1] <= last
    ensures Complete(first, last, baseline, Sorted(rows + Kept(batch, last, baseline)))
  {
    var read := rows + Kept(batch, last, baseline);
    KeptDescending(batch, last, baseline);
    DescendingJoin(rows, Kept(batch, last, baseline), before);
    SortedAscending(read);
    forall m | m in first && m > last ensures m in read {
      assert !Below(m, before) ==> m in rows;
    }
  }

  /** A full page above the last known message takes the read further down. */
  lemma NextPage(first: set<nat>, last: nat, baseline: bool, rows: seq<nat>, before: Option<nat>, batch: seq<nat>)
    requires ReadDownTo(first, last, rows, before) && IsPage(first, before, batch)
    requires |batch| == PAGE && batch[|batch| - 1] > last
    ensures Kept(batch, last, baseline) == batch
    ensures ReadDownTo(first, last, rows + batch, Some(batch[|batch| - 1]))
  {
    var lowest := batch[|batch| - 1];
    forall m | m in batch ensures m >= lowest && m > last {
      var i :| 0 <= i < |batch| && batch[i] == m;
    }
    KeptAll(batch, last, baseline);
    DescendingJoin(rows, batch, before);
    forall m | m in rows ensures m >= lowest {
      assert m >= before.value > lowest by { assert lowest in batch; }
    }
    forall m | m in first && !Below(m, Some(lowest)) ensures m in rows + batch {
      assert !Below(m, before) ==> m in rows;
    }
  }

  lemma TenPages(first: set<nat>, last: nat, rows: seq<nat>, before: Option<nat>)
    requires ReadDownTo(first, last, rows, before) && before.Some? && |rows| == PAGE * PAGES
    ensures NewestThousand(first, last, Sorted(rows))
  {
    SortedAscending(rows);
    var sorted := Sorted(rows);
    assert sorted[0] in sorted;
  }

  /** At most ten pages. Complete means nothing newer than the last known message is missing,
      however many pages it took; incomplete means exactly the newest thousand. */
  method BoundedHistory(source: Source, last: nat, baseline: bool)
    returns (rows: seq<nat>, complete: bool, ghost first: set<nat>)
    modifies source
    ensures Grew(old(source.posted), first) && Grew(first, source.posted)
    ensures complete ==> Complete(first, last, baseline, rows)
    ensures !complete ==> NewestThousand(first, last, rows)
  {
    hide Complete, NewestThousand, IsPage;
    rows := [];
    var before: Option<nat> := None;
    first := source.posted;
    for page := 0 to PAGES
      invariant Grew(old(source.posted), first) && Grew(first, source.posted)
      invariant page == 0 <==> before.None?
      invariant |rows| == page * PAGE && ReadDownTo(first, last, rows, before)
    {
      ghost var since := source.posted;
      var batch := source.Fetch(before);
      GrewMore(first, since, source.posted);
      if page == 0 {
        GrewMore(old(source.posted), since, source.posted);
        first := source.posted;
      }
      PageOfFirst(first, source.posted, before, batch);
      PageSize(first, before, batch);
      rows := rows + Kept(batch, last, baseline);
      if |batch| < PAGE || batch[|batch| - 1] <= last {
        LastPage(first, last, baseline, rows[..page * PAGE], before, batch);
        return Sorted(rows), true, first;
      }
      NextPage(first, last, baseline, rows[..page * PAGE], before, batch);
      before := Some(batch[|batch| - 1]);
    }
    TenPages(first, last, rows, before);
    rows, complete := Sorted(rows), false;
  }

  lemma GrewMore(a: set<nat>, b: set<nat>, c: set<nat>)
    requires Grew(a, b) && Grew(b, c)
    ensures Grew(a, c)
  {
  }

  lemma PageSize(posted: set<nat>, before: Option<nat>, batch: seq<nat>)
    requires IsPage(posted, before, batch)
    ensures |batch| <= PAGE
  {
  }

  /** So a read that started when the channel's newest message was the snapshot gives the
      recovery what CollectorProtocol asks of it. */
  lemma HistoryServesRecovery(w: CollectorProtocol.World, first: set<nat>, baseline: bool, rows: seq<nat>, complete: bool)
    requires w.task.Fetching? && first <= w.posted
    requires forall m :: m in w.posted ==> (m in first <==> m <= w.task.snapshot)
    requires if complete then Complete(first, w.task.anchor, baseline, rows) else NewestThousand(first, w.task.anchor, rows)
    ensures CollectorProtocol.HistoryOk(w, rows, complete)
  {
    forall i | 0 <= i < |rows| ensures rows[i] in w.posted && rows[i] <= w.task.snapshot {
      assert rows[i] in rows;
    }
  }
}
