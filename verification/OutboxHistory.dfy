/**
  What a text row's committed deliveries make of it, taken one at a time: however many workers
  there were and whichever of them died, the committed rows are those of such a history.
 */
module OutboxHistory {
  import opened Wrappers
  import opened Outbox
  import OutboxRuns

  /** A committed delivery: of which row, when its drain claimed the row, and how the exchange went. */
  datatype Done = Done(id: nat, claimedAt: int, x: Exchange)

  /** The rows after these deliveries, one after the other. */
  function Replay(cfg: Config, base: seq<Row>, h: seq<Done>): (rows: seq<Row>)
    ensures |rows| == |base|
  {
    if h == [] then base
    else
      var front, d := Replay(cfg, base, h[..|h| - 1]), h[|h| - 1];
      if d.id < |front| then front[d.id := Handled(cfg, front[d.id], d.x)] else front
  }

  /** Every delivered row was due, in the rows before its delivery, when it was claimed. */
  ghost predicate Lawful(cfg: Config, base: seq<Row>, h: seq<Done>) {
    h == [] ||
    (var front, d := h[..|h| - 1], h[|h| - 1];
     && Lawful(cfg, base, front)
     && d.id < |base| && IsDue(Replay(cfg, base, front)[d.id], d.claimedAt))
  }

  /** A text row as the application enqueues it. */
  predicate IsFresh(row: Row) {
    row.kind == Text && row.status == Pending && row.attempt == 0 && row.nextRetry.None?
  }

  function Deliveries(h: seq<Done>, id: nat): nat {
    if h == [] then 0 else Deliveries(h[..|h| - 1], id) + if h[|h| - 1].id == id then 1 else 0
  }

  /** The pause the program promises after the `n`-th delivery of the history. */
  ghost function PauseAt(cfg: Config, h: seq<Done>, n: nat): nat
    requires n < |h|
  {
    assert h[..n + 1][..n] == h[..n] && h[..n + 1][n] == h[n];
    OutboxRuns.Pause(cfg, Deliveries(h[..n + 1], h[n].id))
  }

  lemma DelayAtIsPause(cfg: Config, h: seq<Done>, n: nat)
    requires n < |h|
    ensures DelayAt(cfg, h, n) == PauseAt(cfg, h, n)
  {
    assert h[..n + 1][..n] == h[..n] && h[..n + 1][n] == h[n];
    OutboxRuns.DelayIsPause(cfg, Deliveries(h[..n + 1], h[n].id));
  }

  /** The pause earned by the `n`-th delivery of the history. */
  ghost function DelayAt(cfg: Config, h: seq<Done>, n: nat): nat
    requires n < |h|
  {
    assert h[..n + 1][..n] == h[..n] && h[..n + 1][n] == h[n];
    Delay(cfg, Deliveries(h[..n + 1], h[n].id))
  }

  // ------------------------------------------------------------- shape of a replay

  lemma {:induction false} ReplayWithNew(cfg: Config, base: seq<Row>, h: seq<Done>, row: Row)
    requires Lawful(cfg, base, h)
    ensures Replay(cfg, base + [row], h) == Replay(cfg, base, h) + [row] && Lawful(cfg, base + [row], h)
  {
    if h != [] {
      ReplayWithNew(cfg, base, h[..|h| - 1], row);
    }
  }

  lemma {:induction false} ReplayWithMore(cfg: Config, base: seq<Row>, h: seq<Done>, later: seq<Row>)
    requires Lawful(cfg, base, h)
    ensures Replay(cfg, base + later, h) == Replay(cfg, base, h) + later && Lawful(cfg, base + later, h)
  {
    if later == [] {
      assert base + later == base;
      assert Replay(cfg, base, h) + later == Replay(cfg, base, h);
    } else {
      var front, row := later[..|later| - 1], later[|later| - 1];
      ReplayWithMore(cfg, base, h, front);
      ReplayWithNew(cfg, base + front, h, row);
      assert base + front + [row] == base + later;
      assert Replay(cfg, base, h) + front + [row] == Replay(cfg, base, h) + later;
    }
  }

  /** Deliveries of different rows, all due in the same committed rows, can be committed one after the other. */
  ghost predicate Apart(rows: seq<Row>, done: seq<Done>) {
    && (forall n :: 0 <= n < |done| ==> done[n].id < |rows| && IsDue(rows[done[n].id], done[n].claimedAt))
    && (forall m, n :: 0 <= m < n < |done| ==> done[m].id != done[n].id)
  }

  ghost predicate Delivers(done: seq<Done>, id: nat) {
    exists n :: 0 <= n < |done| && done[n].id == id
  }

  /** What committing these deliveries together makes of the rows. */
  ghost predicate Committed(cfg: Config, rows: seq<Row>, done: seq<Done>, after: seq<Row>) {
    && |after| == |rows|
    && (forall n :: 0 <= n < |done| && done[n].id < |rows| ==>
          after[done[n].id] == Handled(cfg, rows[done[n].id], done[n].x))
    && (forall i: nat :: i < |rows| && !Delivers(done, i) ==> after[i] == rows[i])
  }

  lemma ReplayOne(cfg: Config, base: seq<Row>, h: seq<Done>, d: Done)
    requires Lawful(cfg, base, h) && d.id < |base| && IsDue(Replay(cfg, base, h)[d.id], d.claimedAt)
    ensures Lawful(cfg, base, h + [d])
    ensures Replay(cfg, base, h + [d]) == Replay(cfg, base, h)[d.id := Handled(cfg, Replay(cfg, base, h)[d.id], d.x)]
  {
    assert (h + [d])[..|h|] == h;
  }

  lemma CommittedStep(cfg: Config, rows: seq<Row>, done: seq<Done>, d: Done, mid: seq<Row>)
    requires Apart(rows, done + [d]) && Committed(cfg, rows, done, mid)
    ensures d.id < |rows| && mid[d.id] == rows[d.id] && IsDue(rows[d.id], d.claimedAt)
    ensures Committed(cfg, rows, done + [d], mid[d.id := Handled(cfg, mid[d.id], d.x)])
  {
    var all := done + [d];
    assert all[|done|] == d;
    forall n | 0 <= n < |done|
      ensures done[n].id != d.id
    {
      assert all[n] == done[n];
    }
    assert !Delivers(done, d.id);
    forall i: nat | i < |rows| && !Delivers(all, i)
      ensures !Delivers(done, i) && i != d.id
    {
      assert all[|done|].id != i;
      forall n | 0 <= n < |done|
        ensures done[n].id != i
      {
        assert all[n] == done[n];
      }
    }
  }

  lemma FrontIsApart(rows: seq<Row>, done: seq<Done>)
    requires done != [] && Apart(rows, done)
    ensures Apart(rows, done[..|done| - 1]) && done == done[..|done| - 1] + [done[|done| - 1]]
  {
  }

  lemma ApartStep(cfg: Config, base: seq<Row>, h: seq<Done>, front: seq<Done>, d: Done, rows: seq<Row>)
    requires Apart(rows, front + [d]) && Lawful(cfg, base, h + front) && |rows| == |base|
    requires Committed(cfg, rows, front, Replay(cfg, base, h + front))
    ensures Lawful(cfg, base, h + (front + [d]))
    ensures Committed(cfg, rows, front + [d], Replay(cfg, base, h + (front + [d])))
  {
    CommittedStep(cfg, rows, front, d, Replay(cfg, base, h + front));
    ReplayOne(cfg, base, h + front, d);
    assert h + (front + [d]) == h + front + [d];
  }

  lemma {:induction false} ReplayApart(cfg: Config, base: seq<Row>, h: seq<Done>, done: seq<Done>, rows: seq<Row>)
    requires Lawful(cfg, base, h) && rows == Replay(cfg, base, h) && Apart(rows, done)
    ensures Lawful(cfg, base, h + done)
    ensures Committed(cfg, rows, done, Replay(cfg, base, h + done))
  {
    if done == [] {
      assert h + done == h;
    } else {
      FrontIsApart(rows, done);
      ReplayApart(cfg, base, h, done[..|done| - 1], rows);
      ApartStep(cfg, base, h, done[..|done| - 1], done[|done| - 1], rows);
    }
  }

  // ------------------------------------------------------------- one row

  /** What a row's fields say about its deliveries. */
  ghost predicate Accounted(cfg: Config, h: seq<Done>, id: nat, row: Row) {
    && row.kind == Text
    && row.attempt <= cfg.maxAttempts
    && Deliveries(h, id) == row.attempt + (if row.status == Sent then 1 else 0)
    && (row.status != Failed ==> row.attempt < cfg.maxAttempts)
    && (row.status == Failed && row.chat.Some? ==> row.attempt == cfg.maxAttempts)
    && (row.status == Pending && row.chat.None? ==> row.attempt == 0)
  }

  /** Committed rows keep their attempts within the limit, and each attempt is a delivery. */
  lemma {:induction false} RowIsAccounted(cfg: Config, base: seq<Row>, h: seq<Done>, id: nat)
    requires cfg.maxAttempts >= 1 && Lawful(cfg, base, h) && id < |base| && IsFresh(base[id])
    ensures Accounted(cfg, h, id, Replay(cfg, base, h)[id])
  {
    if h != [] {
      RowIsAccounted(cfg, base, h[..|h| - 1], id);
    }
  }

  /** A row that is settled is not delivered again and stays as it is. */
  lemma {:induction false} SettledStays(cfg: Config, base: seq<Row>, h: seq<Done>, more: seq<Done>, id: nat)
    requires Lawful(cfg, base, h + more) && id < |base| && Replay(cfg, base, h)[id].status != Pending
    ensures Replay(cfg, base, h + more)[id] == Replay(cfg, base, h)[id] && !Delivers(more, id)
  {
    if more == [] {
      assert h + more == h;
    } else {
      var front := more[..|more| - 1];
      assert (h + more)[..|h + more| - 1] == h + front;
      SettledStays(cfg, base, h, front, id);
      forall n | 0 <= n < |more|
        ensures more[n].id != id
      {
        assert n < |front| ==> front[n].id != id;
      }
    }
  }

  // ------------------------------------------------------------- spacing

  /** The clock does not go back between claiming a row and the answer to its delivery. */
  ghost predicate ClocksForward(h: seq<Done>) {
    forall n :: 0 <= n < |h| ==> h[n].claimedAt <= h[n].x.at
  }

  /** A waiting row waits out the pause of each of its deliveries. */
  ghost predicate Waits(cfg: Config, h: seq<Done>, id: nat, row: Row) {
    row.status == Pending ==>
      forall n :: 0 <= n < |h| && h[n].id == id ==>
        row.nextRetry.Some? && h[n].x.at + DelayAt(cfg, h, n) <= row.nextRetry.value
  }

  lemma PrefixDelay(cfg: Config, h: seq<Done>, m: nat, n: nat)
    requires m < n <= |h|
    ensures DelayAt(cfg, h[..n], m) == DelayAt(cfg, h, m)
  {
    assert h[..n][..m + 1] == h[..m + 1];
  }

  lemma {:induction false} RowWaits(cfg: Config, base: seq<Row>, h: seq<Done>, id: nat)
    requires cfg.maxAttempts >= 1 && Lawful(cfg, base, h) && id < |base| && IsFresh(base[id]) && ClocksForward(h)
    ensures Waits(cfg, h, id, Replay(cfg, base, h)[id])
  {
    if h != [] {
      var front, d := h[..|h| - 1], h[|h| - 1];
      RowWaits(cfg, base, front, id);
      RowIsAccounted(cfg, base, front, id);
      var before, after := Replay(cfg, base, front)[id], Replay(cfg, base, h)[id];
      if after.status == Pending {
        forall n | 0 <= n < |h| && h[n].id == id
          ensures after.nextRetry.Some? && h[n].x.at + DelayAt(cfg, h, n) <= after.nextRetry.value
        {
          if n < |front| {
            PrefixDelay(cfg, h, n, |front|);
            assert front[n].id == id;
          } else {
            assert h[..n + 1] == h;
          }
        }
      }
    }
  }

  lemma {:induction false} PrefixIsLawful(cfg: Config, base: seq<Row>, h: seq<Done>, n: nat)
    requires Lawful(cfg, base, h) && n <= |h|
    ensures Lawful(cfg, base, h[..n])
    decreases |h|
  {
    if n < |h| {
      PrefixIsLawful(cfg, base, h[..|h| - 1], n);
      assert h[..|h| - 1][..n] == h[..n];
    } else {
      assert h[..n] == h;
    }
  }

  lemma {:induction false} DeliveriesGrow(h: seq<Done>, a: nat, b: nat, id: nat)
    requires a <= b <= |h|
    ensures Deliveries(h[..a], id) <= Deliveries(h[..b], id)
  {
    if a < b {
      DeliveriesGrow(h, a, b - 1, id);
      assert h[..b][..b - 1] == h[..b - 1];
    }
  }

  lemma DelaysGrow(cfg: Config, h: seq<Done>, m: nat, n: nat)
    requires m < n < |h| && h[m].id == h[n].id
    ensures DelayAt(cfg, h, m) <= DelayAt(cfg, h, n)
  {
    var id := h[m].id;
    DeliveriesGrow(h, m + 1, n + 1, id);
    assert h[..m + 1][..m] == h[..m] && h[..m + 1][m] == h[m];
    OutboxRuns.DelayGrows(cfg, Deliveries(h[..m + 1], id), Deliveries(h[..n + 1], id));
  }

  /**
    Of two deliveries of a row the later one is claimed only when the pause of the earlier one, which
    never shrinks, is over.
   */
  lemma ClaimsAreSpaced(cfg: Config, base: seq<Row>, h: seq<Done>, m: nat, n: nat)
    requires cfg.maxAttempts >= 1 && Lawful(cfg, base, h) && ClocksForward(h)
    requires m < n < |h| && h[m].id == h[n].id && h[m].id < |base| && IsFresh(base[h[m].id])
    ensures h[m].x.at + DelayAt(cfg, h, m) <= h[n].claimedAt
    ensures DelayAt(cfg, h, m) <= DelayAt(cfg, h, n)
  {
    DelaysGrow(cfg, h, m, n);
    DeliveredWhenDue(cfg, base, h, n);
    RowWaits(cfg, base, h[..n], h[m].id);
    PrefixDelay(cfg, h, m, n);
    assert h[..n][m] == h[m];
  }

  lemma DeliveredWhenDue(cfg: Config, base: seq<Row>, h: seq<Done>, n: nat)
    requires Lawful(cfg, base, h) && n < |h|
    ensures Lawful(cfg, base, h[..n])
    ensures h[n].id < |base| && IsDue(Replay(cfg, base, h[..n])[h[n].id], h[n].claimedAt)
  {
    PrefixIsLawful(cfg, base, h, n + 1);
    assert h[..n + 1][..n] == h[..n] && h[..n + 1][n] == h[n];
  }
}
