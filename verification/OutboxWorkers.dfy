/**
  Several outbox workers at once, any of which may die before its transaction commits.
  A drain claims text rows nobody else holds, sends them one by one, and then commits its
  row changes or loses them; what Telegram accepted in between cannot be taken back.
 */
module OutboxWorkers {
  import opened Sender
  import opened Outbox
  import opened OutboxHistory

  /**
    An open transaction: the rows it locked and when, the changes it made so far, what was accepted meanwhile,
    and its deliveries in order.
   */
  datatype Drain = Drain(claimed: set<nat>, at: int, writes: map<nat, Row>, accepted: set<nat>, done: seq<Done>)

  /**
    The committed rows and the open drains. `accepted` counts every acceptance by Telegram;
    `lost` counts those whose drain was aborted afterwards. `enqueued` lists the rows as they were
    enqueued and `history` the deliveries committed since.
   */
  datatype World = World(
    rows: seq<Row>,
    open: map<nat, Drain>,
    accepted: multiset<nat>,
    lost: multiset<nat>,
    enqueued: seq<Row>,
    history: seq<Done>)

  datatype Step =
    | Enqueue(row: Row)
    | Claim(worker: nat, ids: set<nat>, now: int)
    | SendOne(worker: nat, id: nat, x: Exchange)
    | Commit(worker: nat)
    | Abort(worker: nat)

  ghost predicate Locked(w: World, id: nat) {
    exists v :: v in w.open && id in w.open[v].claimed
  }

  ghost predicate Legal(w: World, step: Step) {
    match step
    case Enqueue(row) => row.kind == Text && row.status == Pending
    case Claim(v, ids, now) =>
      && v !in w.open
      && forall i :: i in ids ==> i < |w.rows| && IsDue(w.rows[i], now) && !Locked(w, i)
    case SendOne(v, id, _) => v in w.open && id in w.open[v].claimed && id !in w.open[v].writes && id < |w.rows|
    case Commit(v) => v in w.open
    case Abort(v) => v in w.open
  }

  predicate IsAccepted(cfg: Config, row: Row, x: Exchange) {
    row.chat.Some? && ResultOf(cfg, row, x).result != NotDelivered
  }

  function Overlay(rows: seq<Row>, writes: map<nat, Row>): (r: seq<Row>)
    ensures |r| == |rows|
  {
    seq(|rows|, i requires 0 <= i < |rows| => if i in writes then writes[i] else rows[i])
  }

  ghost function After(cfg: Config, w: World, step: Step): World
    requires Legal(w, step)
  {
    match step
    case Enqueue(row) => w.(rows := w.rows + [row], enqueued := w.enqueued + [row])
    case Claim(v, ids, now) => w.(open := w.open[v := Drain(ids, now, map[], {}, [])])
    case SendOne(v, id, x) =>
      var d := w.open[v];
      var sent := d.(writes := d.writes[id := Handled(cfg, w.rows[id], x)], done := d.done + [Done(id, d.at, x)]);
      if IsAccepted(cfg, w.rows[id], x) then
        w.(open := w.open[v := sent.(accepted := d.accepted + {id})], accepted := w.accepted + multiset{id})
      else
        w.(open := w.open[v := sent])
    case Commit(v) =>
      w.(rows := Overlay(w.rows, w.open[v].writes), open := w.open - {v}, history := w.history + w.open[v].done)
    case Abort(v) => w.(open := w.open - {v}, lost := w.lost + multiset(w.open[v].accepted))
  }

  ghost predicate LegalRun(cfg: Config, w: World, steps: seq<Step>)
    decreases |steps|
  {
    steps == [] || (Legal(w, steps[0]) && LegalRun(cfg, After(cfg, w, steps[0]), steps[1..]))
  }

  ghost function RunFrom(cfg: Config, w: World, steps: seq<Step>): World
    requires LegalRun(cfg, w, steps)
    decreases |steps|
  {
    if steps == [] then w else RunFrom(cfg, After(cfg, w, steps[0]), steps[1..])
  }

  /** An open drain holds waiting text rows and has accepted exactly those it is about to mark sent. */
  ghost predicate DrainOk(rows: seq<Row>, d: Drain) {
    && d.accepted <= d.writes.Keys <= d.claimed
    && (forall i :: i in d.claimed ==> i < |rows| && rows[i].status == Pending)
    && (forall i :: i in d.writes ==> d.writes[i].kind == Text && (d.writes[i].status == Sent <==> i in d.accepted))
  }

  ghost predicate Disjoint(w: World) {
    forall u, v :: u in w.open && v in w.open && u != v ==> w.open[u].claimed !! w.open[v].claimed
  }

  ghost predicate InFlight(w: World, id: nat) {
    exists v :: v in w.open && id in w.open[v].accepted
  }

  function One(b: bool): nat {
    if b then 1 else 0
  }

  /** Every acceptance of a row is accounted for: aborted, committed, or still in an open drain. */
  ghost predicate Balanced(w: World, id: nat) {
    w.accepted[id] == w.lost[id] + One(id < |w.rows| && w.rows[id].status == Sent) + One(InFlight(w, id))
  }

  ghost predicate Inv(w: World) {
    && (forall i :: 0 <= i < |w.rows| ==> w.rows[i].kind == Text)
    && (forall v :: v in w.open ==> DrainOk(w.rows, w.open[v]))
    && Disjoint(w)
    && (forall id: nat :: Balanced(w, id))
  }

  lemma ClaimKeepsInv(cfg: Config, w: World, v: nat, ids: set<nat>, now: int)
    requires Inv(w) && Legal(w, Claim(v, ids, now))
    ensures Inv(After(cfg, w, Claim(v, ids, now)))
  {
    var w' := After(cfg, w, Claim(v, ids, now));
    forall u | u in w'.open && u != v
      ensures w'.open[u].claimed !! ids
    {
      assert u in w.open;
    }
    forall id: nat
      ensures Balanced(w', id)
    {
      assert Balanced(w, id);
      assert InFlight(w', id) <==> InFlight(w, id) by {
        if InFlight(w, id) {
          var u :| u in w.open && id in w.open[u].accepted;
          assert u in w'.open && id in w'.open[u].accepted;
        }
      }
    }
  }

  lemma SendKeepsDrains(cfg: Config, w: World, v: nat, id: nat, x: Exchange)
    requires Inv(w) && Legal(w, SendOne(v, id, x))
    ensures forall u :: u in After(cfg, w, SendOne(v, id, x)).open ==>
        DrainOk(w.rows, After(cfg, w, SendOne(v, id, x)).open[u])
  {
    assert DrainOk(w.rows, w.open[v]);
  }

  lemma SendKeepsInv(cfg: Config, w: World, v: nat, id: nat, x: Exchange)
    requires Inv(w) && Legal(w, SendOne(v, id, x))
    ensures Inv(After(cfg, w, SendOne(v, id, x)))
  {
    var w' := After(cfg, w, SendOne(v, id, x));
    SendKeepsDrains(cfg, w, v, id, x);
    assert DrainOk(w.rows, w.open[v]);
    forall k: nat
      ensures Balanced(w', k)
    {
      assert Balanced(w, k);
      SendInFlight(cfg, w, v, id, x, k);
    }
  }

  lemma SendInFlight(cfg: Config, w: World, v: nat, id: nat, x: Exchange, k: nat)
    requires Legal(w, SendOne(v, id, x))
    ensures
      InFlight(After(cfg, w, SendOne(v, id, x)), k)
      <==> InFlight(w, k) || (k == id && IsAccepted(cfg, w.rows[id], x))
  {
    var w' := After(cfg, w, SendOne(v, id, x));
    assert w.open[v].accepted <= w'.open[v].accepted;
    if InFlight(w, k) {
      var u :| u in w.open && k in w.open[u].accepted;
      assert k in w'.open[u].accepted;
    }
    if InFlight(w', k) {
      var u :| u in w'.open && k in w'.open[u].accepted;
      assert u == v || w'.open[u] == w.open[u];
    }
  }

  /** Without drain `v`, a row is in flight iff it was and `v` had not accepted it. */
  lemma ClosedInFlight(w: World, w': World, v: nat, k: nat)
    requires Inv(w) && v in w.open && w'.open == w.open - {v}
    ensures InFlight(w', k) <==> InFlight(w, k) && k !in w.open[v].accepted
  {
    assert DrainOk(w.rows, w.open[v]);
    if InFlight(w', k) {
      var u :| u in w'.open && k in w'.open[u].accepted;
      assert DrainOk(w.rows, w.open[u]) && k in w.open[u].claimed;
    }
    if InFlight(w, k) && k !in w.open[v].accepted {
      var u :| u in w.open && k in w.open[u].accepted;
      assert u in w'.open && k in w'.open[u].accepted;
    }
  }

  lemma CommitKeepsInv(cfg: Config, w: World, v: nat)
    requires Inv(w) && v in w.open
    ensures Inv(After(cfg, w, Commit(v)))
  {
    var w' := After(cfg, w, Commit(v));
    var d := w.open[v];
    assert DrainOk(w.rows, d);
    forall u | u in w'.open
      ensures DrainOk(w'.rows, w'.open[u])
    {
      assert DrainOk(w.rows, w.open[u]) && w.open[u].claimed !! d.claimed;
    }
    forall k: nat
      ensures Balanced(w', k)
    {
      assert Balanced(w, k);
      ClosedInFlight(w, w', v, k);
      if k in d.accepted {
        assert InFlight(w, k);
      }
    }
  }

  lemma AbortKeepsInv(cfg: Config, w: World, v: nat)
    requires Inv(w) && v in w.open
    ensures Inv(After(cfg, w, Abort(v)))
  {
    var w' := After(cfg, w, Abort(v));
    forall k: nat
      ensures Balanced(w', k)
    {
      assert Balanced(w, k);
      ClosedInFlight(w, w', v, k);
      if k in w.open[v].accepted {
        assert InFlight(w, k);
      }
    }
  }

  lemma EnqueueKeepsInv(cfg: Config, w: World, row: Row)
    requires Inv(w) && Legal(w, Enqueue(row))
    ensures Inv(After(cfg, w, Enqueue(row)))
  {
    var w' := After(cfg, w, Enqueue(row));
    forall v | v in w'.open
      ensures DrainOk(w'.rows, w'.open[v])
    {
      assert DrainOk(w.rows, w.open[v]);
    }
    forall k: nat
      ensures Balanced(w', k)
    {
      assert Balanced(w, k);
      assert InFlight(w', k) <==> InFlight(w, k);
    }
  }

  lemma StepKeepsInv(cfg: Config, w: World, step: Step)
    requires Inv(w) && Legal(w, step)
    ensures Inv(After(cfg, w, step))
  {
    match step {
      case Enqueue(row) => EnqueueKeepsInv(cfg, w, row);
      case Claim(v, ids, now) => ClaimKeepsInv(cfg, w, v, ids, now);
      case SendOne(v, id, x) => SendKeepsInv(cfg, w, v, id, x);
      case Commit(v) => CommitKeepsInv(cfg, w, v);
      case Abort(v) => AbortKeepsInv(cfg, w, v);
    }
  }

  lemma {:induction false} RunKeepsInv(cfg: Config, w: World, steps: seq<Step>)
    requires Inv(w) && LegalRun(cfg, w, steps)
    ensures Inv(RunFrom(cfg, w, steps))
    decreases |steps|
  {
    if steps != [] {
      StepKeepsInv(cfg, w, steps[0]);
      RunKeepsInv(cfg, After(cfg, w, steps[0]), steps[1..]);
    }
  }

  const EMPTY := World([], map[], multiset{}, multiset{}, [], [])

  /**
    Delivery under crashes and concurrency: in every run, Telegram accepted a row at most once
    more than the aborted drains that had delivered it; exactly once more when it is marked sent;
    and a row marked sent was delivered.
   */
  lemma DeliveredOncePlusAborts(cfg: Config, steps: seq<Step>, id: nat)
    requires LegalRun(cfg, EMPTY, steps)
    ensures
      var w := RunFrom(cfg, EMPTY, steps);
      && w.lost[id] <= w.accepted[id] <= w.lost[id] + 1
      && (id < |w.rows| && w.rows[id].status == Sent ==> w.accepted[id] == w.lost[id] + 1)
      && (w.open == map[] ==> (w.accepted[id] > w.lost[id] <==> id < |w.rows| && w.rows[id].status == Sent))
  {
    RunKeepsInv(cfg, EMPTY, steps);
    var w := RunFrom(cfg, EMPTY, steps);
    assert Balanced(w, id);
    if id < |w.rows| && w.rows[id].status == Sent {
      forall v | v in w.open
        ensures id !in w.open[v].accepted
      {
        assert DrainOk(w.rows, w.open[v]);
      }
    }
  }

  // ------------------------------------------------------------- a drain that dies

  /** Nobody ends worker `v`'s transaction, and it claims no more. */
  ghost predicate StaysOpen(steps: seq<Step>, v: nat) {
    forall s :: s in steps ==> s != Commit(v) && s != Abort(v)
  }

  lemma StaysOpenAfter(steps: seq<Step>, v: nat)
    requires steps != [] && StaysOpen(steps, v)
    ensures steps[0] != Commit(v) && steps[0] != Abort(v) && StaysOpen(steps[1..], v)
  {
    assert steps[0] in steps;
    forall s | s in steps[1..]
      ensures s in steps
    {
    }
  }

  ghost predicate Holds(w: World, v: nat, ids: set<nat>) {
    v in w.open && w.open[v].claimed == ids
  }

  /** No step of anybody touches a row that an open drain holds, but the end of that drain itself. */
  lemma StepKeepsHeldRows(cfg: Config, w: World, step: Step, v: nat, ids: set<nat>)
    requires Inv(w) && Legal(w, step) && Holds(w, v, ids) && step != Commit(v) && step != Abort(v)
    ensures
      var w' := After(cfg, w, step);
      && Holds(w', v, ids)
      && forall i :: i in ids ==> i < |w.rows| <= |w'.rows| && w'.rows[i] == w.rows[i]
  {
    assert DrainOk(w.rows, w.open[v]);
    if step.Commit? {
      assert DrainOk(w.rows, w.open[step.worker]);
      assert w.open[step.worker].claimed !! w.open[v].claimed;
    }
  }

  lemma {:induction false} RunKeepsHeldRows(cfg: Config, w: World, steps: seq<Step>, v: nat, ids: set<nat>)
    requires Inv(w) && LegalRun(cfg, w, steps) && Holds(w, v, ids) && StaysOpen(steps, v)
    ensures
      var w' := RunFrom(cfg, w, steps);
      && Inv(w') && Holds(w', v, ids)
      && forall i :: i in ids ==> i < |w.rows| <= |w'.rows| && w'.rows[i] == w.rows[i]
    decreases |steps|
  {
    if steps == [] {
      assert DrainOk(w.rows, w.open[v]);
    } else {
      StaysOpenAfter(steps, v);
      StepKeepsInv(cfg, w, steps[0]);
      StepKeepsHeldRows(cfg, w, steps[0], v, ids);
      RunKeepsHeldRows(cfg, After(cfg, w, steps[0]), steps[1..], v, ids);
    }
  }

  /**
    Whatever a drain had sent and whatever every other worker did meanwhile: when it dies, each
    row it had claimed is, attempts included, as it was at the claim, and free to be claimed again.
   */
  lemma AbortLosesNothing(cfg: Config, w: World, v: nat, ids: set<nat>, now: int, steps: seq<Step>)
    requires Inv(w) && Legal(w, Claim(v, ids, now))
    requires LegalRun(cfg, After(cfg, w, Claim(v, ids, now)), steps) && StaysOpen(steps, v)
    ensures
      var dead := RunFrom(cfg, After(cfg, w, Claim(v, ids, now)), steps);
      && Legal(dead, Abort(v))
      && (forall i :: i in ids ==>
            i < |w.rows| <= |dead.rows| && After(cfg, dead, Abort(v)).rows[i] == w.rows[i])
      && Legal(After(cfg, dead, Abort(v)), Claim(v, ids, now))
  {
    var claimed := After(cfg, w, Claim(v, ids, now));
    ClaimKeepsInv(cfg, w, v, ids, now);
    RunKeepsHeldRows(cfg, claimed, steps, v, ids);
    var dead := RunFrom(cfg, claimed, steps);
    var back := After(cfg, dead, Abort(v));
    forall i | i in ids
      ensures !Locked(back, i)
    {
      forall u | u in back.open
        ensures i !in back.open[u].claimed
      {
        assert dead.open[u].claimed !! dead.open[v].claimed;
      }
    }
  }

  /** The steps that are not worker `v`'s. */
  function Others(steps: seq<Step>, v: nat): seq<Step>
    decreases |steps|
  {
    if steps == [] then []
    else if !steps[0].Enqueue? && steps[0].worker == v then Others(steps[1..], v)
    else [steps[0]] + Others(steps[1..], v)
  }

  /** The same rows and committed history, and the same open drains but for `v`'s. */
  ghost predicate SameBut(a: World, b: World, v: nat) {
    a.rows == b.rows && a.enqueued == b.enqueued && a.history == b.history && v in a.open && b.open == a.open - {v}
  }

  lemma OtherStep(cfg: Config, a: World, b: World, v: nat, step: Step)
    requires SameBut(a, b, v) && Legal(a, step) && (step.Enqueue? || step.worker != v)
    ensures Legal(b, step) && SameBut(After(cfg, a, step), After(cfg, b, step), v)
  {
    if step.Claim? {
      forall i | i in step.ids
        ensures !Locked(b, i)
      {
        assert !Locked(a, i);
      }
    }
    assert After(cfg, b, step).open == After(cfg, a, step).open - {v};
  }

  lemma OwnStep(cfg: Config, a: World, b: World, v: nat, step: Step)
    requires SameBut(a, b, v) && Legal(a, step) && !step.Enqueue? && step.worker == v
    requires step != Commit(v) && step != Abort(v)
    ensures SameBut(After(cfg, a, step), b, v)
  {
    assert step.SendOne?;
    assert After(cfg, a, step).open - {v} == a.open - {v};
  }

  lemma {:induction false} RunWithoutDrain(cfg: Config, a: World, b: World, v: nat, steps: seq<Step>)
    requires SameBut(a, b, v) && LegalRun(cfg, a, steps) && StaysOpen(steps, v)
    ensures LegalRun(cfg, b, Others(steps, v))
    ensures SameBut(RunFrom(cfg, a, steps), RunFrom(cfg, b, Others(steps, v)), v)
    decreases |steps|
  {
    if steps != [] {
      var step := steps[0];
      StaysOpenAfter(steps, v);
      if !step.Enqueue? && step.worker == v {
        OwnStep(cfg, a, b, v, step);
        RunWithoutDrain(cfg, After(cfg, a, step), b, v, steps[1..]);
      } else {
        OtherStep(cfg, a, b, v, step);
        RunWithoutDrain(cfg, After(cfg, a, step), After(cfg, b, step), v, steps[1..]);
        assert ([step] + Others(steps[1..], v))[1..] == Others(steps[1..], v);
      }
    }
  }

  /**
    A drain that dies might never have been, as far as the database can tell: without its steps
    the same run is allowed, and ends with the same rows and the same drains open.
   */
  lemma AbortedDrainLeavesNoTrace(cfg: Config, w: World, v: nat, ids: set<nat>, now: int, steps: seq<Step>)
    requires Legal(w, Claim(v, ids, now))
    requires LegalRun(cfg, After(cfg, w, Claim(v, ids, now)), steps) && StaysOpen(steps, v)
    ensures LegalRun(cfg, w, Others(steps, v))
    ensures
      var dead := RunFrom(cfg, After(cfg, w, Claim(v, ids, now)), steps);
      var without := RunFrom(cfg, w, Others(steps, v));
      && Legal(dead, Abort(v))
      && After(cfg, dead, Abort(v)).rows == without.rows
      && After(cfg, dead, Abort(v)).open == without.open
      && After(cfg, dead, Abort(v)).history == without.history
  {
    var claimed := After(cfg, w, Claim(v, ids, now));
    assert claimed.open - {v} == w.open;
    RunWithoutDrain(cfg, claimed, w, v, steps);
  }

  // ------------------------------------------------------------- one history for all workers

  /** A drain's changes are its deliveries, each of a different row that was due when the drain claimed it. */
  ghost predicate DrainRecorded(cfg: Config, rows: seq<Row>, d: Drain) {
    && (forall i :: i in d.claimed ==> i < |rows| && IsDue(rows[i], d.at))
    && Apart(rows, d.done)
    && (forall n :: 0 <= n < |d.done| ==>
          && d.done[n].id in d.claimed && d.done[n].claimedAt == d.at
          && d.done[n].id in d.writes && d.writes[d.done[n].id] == Handled(cfg, rows[d.done[n].id], d.done[n].x))
    && (forall i :: i in d.writes ==> Delivers(d.done, i))
  }

  ghost predicate DrainsRecorded(cfg: Config, rows: seq<Row>, open: map<nat, Drain>) {
    forall v :: v in open ==> DrainRecorded(cfg, rows, open[v])
  }

  /** The committed rows are what the committed deliveries, one after the other, make of the enqueued rows. */
  ghost predicate Recorded(cfg: Config, w: World) {
    && Lawful(cfg, w.enqueued, w.history)
    && w.rows == Replay(cfg, w.enqueued, w.history)
    && DrainsRecorded(cfg, w.rows, w.open)
  }

  lemma SameHeldRows(cfg: Config, rows: seq<Row>, after: seq<Row>, d: Drain)
    requires DrainRecorded(cfg, rows, d) && |rows| <= |after| && forall i :: i in d.claimed ==> after[i] == rows[i]
    ensures DrainRecorded(cfg, after, d)
  {
  }

  lemma SentIsDelivered(d: Drain, sent: Drain, id: nat, last: Done)
    requires forall i :: i in d.writes ==> Delivers(d.done, i)
    requires sent.writes.Keys == d.writes.Keys + {id} && sent.done == d.done + [last] && last.id == id
    ensures forall i :: i in sent.writes ==> Delivers(sent.done, i)
  {
    forall i | i in sent.writes
      ensures Delivers(sent.done, i)
    {
      if i == id {
        assert sent.done[|d.done|].id == id;
      } else {
        var n :| 0 <= n < |d.done| && d.done[n].id == i;
        assert sent.done[n].id == i;
      }
    }
  }

  lemma OneMoreApart(rows: seq<Row>, d: Drain, last: Done)
    requires Apart(rows, d.done) && last.id < |rows| && IsDue(rows[last.id], last.claimedAt) && last.id !in d.writes
    requires forall n :: 0 <= n < |d.done| ==> d.done[n].id in d.writes
    ensures Apart(rows, d.done + [last])
  {
  }

  lemma SendRecords(cfg: Config, rows: seq<Row>, d: Drain, id: nat, x: Exchange, sent: Drain)
    requires DrainRecorded(cfg, rows, d) && id in d.claimed && id !in d.writes && id < |rows|
    requires sent.claimed == d.claimed && sent.at == d.at && sent.writes == d.writes[id := Handled(cfg, rows[id], x)]
    requires sent.done == d.done + [Done(id, d.at, x)]
    ensures DrainRecorded(cfg, rows, sent)
  {
    SentIsDelivered(d, sent, id, Done(id, d.at, x));
    OneMoreApart(rows, d, Done(id, d.at, x));
  }

  /** Committing one drain's changes touches no row that another holds. */
  lemma OtherDrainRecorded(cfg: Config, rows: seq<Row>, c: Drain, d: Drain)
    requires DrainRecorded(cfg, rows, c) && DrainOk(rows, d) && c.claimed !! d.claimed
    ensures DrainRecorded(cfg, Overlay(rows, d.writes), c)
  {
    SameHeldRows(cfg, rows, Overlay(rows, d.writes), c);
  }

  lemma OverlayCommits(cfg: Config, rows: seq<Row>, d: Drain, after: seq<Row>)
    requires DrainRecorded(cfg, rows, d) && Committed(cfg, rows, d.done, after)
    ensures Overlay(rows, d.writes) == after
  {
    forall i: nat | i < |rows|
      ensures after[i] == if i in d.writes then d.writes[i] else rows[i]
    {
      if i in d.writes {
        var n :| 0 <= n < |d.done| && d.done[n].id == i;
      } else {
        assert forall n :: 0 <= n < |d.done| ==> d.done[n].id in d.writes;
        assert !Delivers(d.done, i);
      }
    }
  }

  lemma CommitKeepsDrains(cfg: Config, w: World, v: nat)
    requires Inv(w) && DrainsRecorded(cfg, w.rows, w.open) && v in w.open
    ensures DrainsRecorded(cfg, Overlay(w.rows, w.open[v].writes), w.open - {v})
  {
    forall u | u in w.open - {v}
      ensures DrainRecorded(cfg, Overlay(w.rows, w.open[v].writes), w.open[u])
    {
      assert DrainOk(w.rows, w.open[v]);
      OtherDrainRecorded(cfg, w.rows, w.open[u], w.open[v]);
    }
  }

  lemma EnqueueKeepsDrains(cfg: Config, rows: seq<Row>, open: map<nat, Drain>, row: Row)
    requires DrainsRecorded(cfg, rows, open)
    ensures DrainsRecorded(cfg, rows + [row], open)
  {
    forall v | v in open
      ensures DrainRecorded(cfg, rows + [row], open[v])
    {
      SameHeldRows(cfg, rows, rows + [row], open[v]);
    }
  }

  lemma SendKeepsDrainsRecorded(cfg: Config, w: World, v: nat, id: nat, x: Exchange)
    requires DrainsRecorded(cfg, w.rows, w.open) && Legal(w, SendOne(v, id, x))
    ensures
      var w' := After(cfg, w, SendOne(v, id, x));
      && DrainsRecorded(cfg, w.rows, w'.open)
      && w'.rows == w.rows && w'.enqueued == w.enqueued && w'.history == w.history
  {
    SendRecords(cfg, w.rows, w.open[v], id, x, After(cfg, w, SendOne(v, id, x)).open[v]);
  }

  lemma CommitRecords(cfg: Config, rows: seq<Row>, enqueued: seq<Row>, history: seq<Done>, d: Drain)
    requires Lawful(cfg, enqueued, history) && rows == Replay(cfg, enqueued, history) && DrainRecorded(cfg, rows, d)
    ensures Lawful(cfg, enqueued, history + d.done)
    ensures Overlay(rows, d.writes) == Replay(cfg, enqueued, history + d.done)
  {
    ReplayApart(cfg, enqueued, history, d.done, rows);
    OverlayCommits(cfg, rows, d, Replay(cfg, enqueued, history + d.done));
  }

  lemma StepRecords(cfg: Config, w: World, step: Step)
    requires Inv(w) && Recorded(cfg, w) && Legal(w, step)
    ensures Recorded(cfg, After(cfg, w, step))
  {
    match step {
      case Enqueue(row) =>
        ReplayWithNew(cfg, w.enqueued, w.history, row);
        EnqueueKeepsDrains(cfg, w.rows, w.open, row);
      case Claim(v, ids, now) =>
      case SendOne(v, id, x) =>
        SendKeepsDrainsRecorded(cfg, w, v, id, x);
      case Commit(v) =>
        CommitRecords(cfg, w.rows, w.enqueued, w.history, w.open[v]);
        CommitKeepsDrains(cfg, w, v);
      case Abort(v) =>
    }
  }

  lemma StepExtends(cfg: Config, w: World, step: Step)
    requires Legal(w, step)
    ensures w.history <= After(cfg, w, step).history && w.enqueued <= After(cfg, w, step).enqueued
  {
  }

  lemma {:induction false} RunExtends(cfg: Config, w: World, steps: seq<Step>)
    requires LegalRun(cfg, w, steps)
    ensures w.history <= RunFrom(cfg, w, steps).history && w.enqueued <= RunFrom(cfg, w, steps).enqueued
    decreases |steps|
  {
    if steps != [] {
      StepExtends(cfg, w, steps[0]);
      RunExtends(cfg, After(cfg, w, steps[0]), steps[1..]);
    }
  }

  lemma {:induction false} RunRecords(cfg: Config, w: World, steps: seq<Step>)
    requires Inv(w) && Recorded(cfg, w) && LegalRun(cfg, w, steps)
    ensures Recorded(cfg, RunFrom(cfg, w, steps))
    decreases |steps|
  {
    if steps != [] {
      StepKeepsInv(cfg, w, steps[0]);
      StepRecords(cfg, w, steps[0]);
      RunRecords(cfg, After(cfg, w, steps[0]), steps[1..]);
    }
  }

  /**
    Serialisation: whatever workers interleave and die, the committed rows are what the committed deliveries
    make of the enqueued rows one at a time, each of a row that was due, just before it, when it was claimed.
   */
  lemma CommittedRowsAreSerial(cfg: Config, steps: seq<Step>)
    requires LegalRun(cfg, EMPTY, steps)
    ensures
      var w := RunFrom(cfg, EMPTY, steps);
      Lawful(cfg, w.enqueued, w.history) && w.rows == Replay(cfg, w.enqueued, w.history)
  {
    RunRecords(cfg, EMPTY, steps);
  }

  lemma RunsOnce(cfg: Config, steps: seq<Step>, more: seq<Step>)
    requires LegalRun(cfg, EMPTY, steps) && LegalRun(cfg, RunFrom(cfg, EMPTY, steps), more)
    ensures
      var w := RunFrom(cfg, EMPTY, steps);
      var end := RunFrom(cfg, w, more);
      Recorded(cfg, w) && Recorded(cfg, end) && w.history <= end.history && w.enqueued <= end.enqueued
  {
    var w := RunFrom(cfg, EMPTY, steps);
    RunRecords(cfg, EMPTY, steps);
    RunKeepsInv(cfg, EMPTY, steps);
    RunRecords(cfg, w, more);
    RunExtends(cfg, w, more);
  }

  /**
    With any number of workers, any of which may die: a row's attempts stay within the limit, its committed
    deliveries are its attempts and the one that succeeded, and once it is settled no later run touches it.
   */
  lemma TextRowsSettle(cfg: Config, steps: seq<Step>, more: seq<Step>, id: nat)
    requires cfg.maxAttempts >= 1
    requires LegalRun(cfg, EMPTY, steps) && LegalRun(cfg, RunFrom(cfg, EMPTY, steps), more)
    requires
      var rows := RunFrom(cfg, EMPTY, steps).enqueued;
      id < |rows| && IsFresh(rows[id])
    ensures
      var w := RunFrom(cfg, EMPTY, steps);
      var end := RunFrom(cfg, w, more);
      && id < |w.rows| && Accounted(cfg, w.history, id, w.rows[id])
      && id < |end.rows| && (w.rows[id].status != Pending ==> end.rows[id] == w.rows[id])
  {
    var w := RunFrom(cfg, EMPTY, steps);
    var end := RunFrom(cfg, w, more);
    RunsOnce(cfg, steps, more);
    RowIsAccounted(cfg, w.enqueued, w.history, id);
    ReplayWithMore(cfg, w.enqueued, w.history, end.enqueued[|w.enqueued|..]);
    assert w.enqueued + end.enqueued[|w.enqueued|..] == end.enqueued;
    assert w.history + end.history[|w.history|..] == end.history;
    if w.rows[id].status != Pending {
      SettledStays(cfg, end.enqueued, w.history, end.history[|w.history|..], id);
    }
  }

  /**
    With any number of workers: of two committed deliveries of a row the later one, whoever made it, is
    claimed only when the pause earned by the earlier one is over.
   */
  lemma RetriesAreSpaced(cfg: Config, steps: seq<Step>, m: nat, n: nat)
    requires cfg.maxAttempts >= 1 && LegalRun(cfg, EMPTY, steps)
    requires
      var w := RunFrom(cfg, EMPTY, steps);
      && ClocksForward(w.history)
      && m < n < |w.history| && w.history[m].id == w.history[n].id
      && w.history[m].id < |w.enqueued| && IsFresh(w.enqueued[w.history[m].id])
    ensures
      var h := RunFrom(cfg, EMPTY, steps).history;
      && h[m].x.at + PauseAt(cfg, h, m) <= h[n].claimedAt
      && PauseAt(cfg, h, m) <= PauseAt(cfg, h, n)
  {
    var w := RunFrom(cfg, EMPTY, steps);
    CommittedRowsAreSerial(cfg, steps);
    ClaimsAreSpaced(cfg, w.enqueued, w.history, m, n);
    DelayAtIsPause(cfg, w.history, m);
    DelayAtIsPause(cfg, w.history, n);
  }
}
