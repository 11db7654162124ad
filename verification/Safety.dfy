// What every reachable state of the ingestion protocol satisfies: no accepted job is lost, a
// ready job is complete, and the outbox conserves messages. Any number of relays and
// overlapping deliveries, with crashes and failures at every step.

module Safety {
  import opened Domain
  import opened Protocol

  // ---------------------------------------------------------------- what no step takes back

  predicate KeepsJob(row: JobRow, row': JobRow) {
    row'.user == row.user && row'.source == row.source
  }

  /** Jobs keep their owner and source, outbox rows their message, and dashboards stay. */
  ghost predicate Extends(s: State, s': State) {
    && (forall j :: j in s.jobs ==> j in s'.jobs && KeepsJob(s.jobs[j], s'.jobs[j]))
    && (forall j :: j in s.dashboards ==> j in s'.dashboards)
    && (forall r :: r in s.rows ==> r in s'.rows && s'.rows[r].msg == s.rows[r].msg)
  }

  // ---------------------------------------------------------------- messages and deliveries

  predicate Matches(jobs: map<Uuid, JobRow>, msg: Message) {
    msg.job in jobs && jobs[msg.job].user == msg.user && jobs[msg.job].source == msg.source
  }

  predicate Pipeline(pc: Pc) {
    pc in {ToIngesting, DropTable, CreateTable, InsertRows, CountRows, Generate, StoreDashboard, MarkReady}
  }

  predicate TaskOk(n: nat, msg: Message, hasDashboard: bool, t: Task) {
    && (Pipeline(t.pc) ==> t.columns == msg.source.columns != [])
    && (t.pc.StoreDashboard? ==> t.config == Some(Dashboard(t.count, t.columns)))
    && (t.pc.MarkReady? ==> hasDashboard)
    && (t.pc in {CountAttempt, Retry} ==> msg.attempt + 1 < n)
  }

  predicate CopyOk(n: nat, s: State, c: Copy) {
    && Matches(s.jobs, c.msg) && c.msg.attempt < n
    && c.origin in s.rows && s.rows[c.origin].msg.job == c.msg.job
    && (c.place.Running? ==> TaskOk(n, c.msg, c.msg.job in s.dashboards, c.place.task))
  }

  ghost predicate CopiesOk(n: nat, s: State) {
    forall c :: c in s.copies ==> CopyOk(n, s, s.copies[c])
  }

  /** Every job has exactly one outbox row, and it carries the job's own first attempt. */
  ghost predicate RowsOk(s: State) {
    && (forall r :: r in s.rows ==> Matches(s.jobs, s.rows[r].msg) && s.rows[r].msg.attempt == 0)
    && (forall r, q :: r in s.rows && q in s.rows && s.rows[r].msg.job == s.rows[q].msg.job ==> r == q)
  }

  // ---------------------------------------------------------------- row locks

  ghost predicate TxOk(rows: map<nat, OutboxRow>, k: nat, tx: Tx) {
    && 0 < |tx.todo| + |tx.done| <= BATCH_SIZE
    && (forall i, m :: 0 <= i < m < |tx.todo| ==> tx.todo[i] != tx.todo[m])
    && (forall r :: r in tx.todo ==> r !in tx.done)
    && (forall r :: Holds(tx, r) ==> r in rows && rows[r].lock == Some(k) && !rows[r].published)
  }

  /** A row is locked by exactly the open transaction that holds it. */
  ghost predicate LocksOk(rows: map<nat, OutboxRow>, relays: map<nat, Tx>) {
    && (forall k :: k in relays ==> TxOk(rows, k, relays[k]))
    && (forall r :: r in rows && rows[r].lock.Some? ==>
          rows[r].lock.value in relays && Holds(relays[rows[r].lock.value], r))
  }

  // ---------------------------------------------------------------- ready means complete

  /** What the read handlers rely on once they have seen `ready`. */
  predicate Complete(j: Uuid, row: JobRow, dashboards: map<Uuid, Dashboard>) {
    && row.table == Some(DatasetTableName(row.user, j))
    && row.rowCount.Some?
    && row.schema == Some(row.source.columns) && row.source.columns != []
    && row.error == None
    && j in dashboards
  }

  ghost predicate ReadyComplete(s: State) {
    && (forall j :: j in s.jobs && s.jobs[j].status.Ready? ==> Complete(j, s.jobs[j], s.dashboards))
    && (forall j :: j in s.dashboards ==> j in s.jobs)
  }

  // ---------------------------------------------------------------- nobody is lost

  /** A copy that can still finish, retry or dead-letter its job. */
  predicate Alive(p: Place) {
    !p.Acked? && (p.Running? ==> !p.task.pc.Finished? && !p.task.pc.AckRetry?)
  }

  predicate Answers(rows: map<nat, OutboxRow>, copies: map<nat, Copy>, j: Uuid, h: Holder) {
    match h
    case ByRow(r) => r in rows && rows[r].msg.job == j && !rows[r].published
    case ByCopy(c) => c in copies && copies[c].msg.job == j && Alive(copies[c].place)
  }

  /** Somebody answers for every job that is not terminal. */
  ghost predicate Answered(s: State) {
    forall j :: j in s.jobs && !s.jobs[j].status.IsTerminal() ==>
      j in s.holders && Answers(s.rows, s.copies, j, s.holders[j])
  }

  /** A stamped row no longer answers for its job, so committing the stamp loses nothing. */
  ghost predicate StampsReleased(s: State) {
    && (forall k, r :: k in s.relays && r in s.relays[k].done && s.relays[k].done[r] && r in s.rows ==>
          Released(s.holders, s.rows[r].msg.job, r))
    && (forall j :: j in s.holders ==> j in s.jobs && (s.holders[j].ByRow? ==> s.holders[j].row in s.rows))
  }

  predicate Released(holders: map<Uuid, Holder>, j: Uuid, r: nat) {
    j in holders ==> holders[j] != ByRow(r)
  }

  ghost predicate Inv(n: nat, s: State) {
    && CopiesOk(n, s) && RowsOk(s) && LocksOk(s.rows, s.relays)
    && ReadyComplete(s) && Answered(s) && StampsReleased(s)
  }

  // ---------------------------------------------------------------- stability

  lemma CopyStable(n: nat, s: State, s': State, c: Copy)
    requires CopyOk(n, s, c) && Extends(s, s')
    ensures CopyOk(n, s', c)
  {
  }

  lemma CopiesStable(n: nat, s: State, s': State)
    requires CopiesOk(n, s) && Extends(s, s') && s'.copies == s.copies
    ensures CopiesOk(n, s')
  {
    forall c | c in s'.copies ensures CopyOk(n, s', s'.copies[c]) {
      CopyStable(n, s, s', s.copies[c]);
    }
  }

  lemma CopiesUpdated(n: nat, s: State, s': State, tag: nat, c: Copy)
    requires CopiesOk(n, s) && Extends(s, s') && s'.copies == s.copies[tag := c]
    requires CopyOk(n, s', c)
    ensures CopiesOk(n, s')
  {
    forall d | d in s'.copies ensures CopyOk(n, s', s'.copies[d]) {
      if d != tag {
        CopyStable(n, s, s', s.copies[d]);
      }
    }
  }

  lemma RowsStable(s: State, s': State)
    requires RowsOk(s) && Extends(s, s') && s'.rows.Keys == s.rows.Keys
    ensures RowsOk(s')
  {
  }

  // ---------------------------------------------------------------- submissions

  lemma SubmitInv(n: nat, s: State, j: Uuid, u: Uuid, src: Source, r: nat)
    requires Inv(n, s) && j !in s.jobs && r !in s.rows
    ensures Inv(n, ApplySubmit(s, j, u, src, r))
  {
    SubmitStable(n, s, j, u, src, r);
    SubmitLocks(s.rows, s.relays, r, OutboxRow(Message(j, u, src, 0), false, 0, None, 0));
    SubmitHeld(s, j, u, src, r);
  }

  lemma SubmitStable(n: nat, s: State, j: Uuid, u: Uuid, src: Source, r: nat)
    requires CopiesOk(n, s) && RowsOk(s) && ReadyComplete(s) && j !in s.jobs && r !in s.rows
    ensures var s' := ApplySubmit(s, j, u, src, r); CopiesOk(n, s') && RowsOk(s') && ReadyComplete(s')
  {
    var s' := ApplySubmit(s, j, u, src, r);
    assert Extends(s, s');
    CopiesStable(n, s, s');
  }

  lemma SubmitLocks(rows: map<nat, OutboxRow>, relays: map<nat, Tx>, r: nat, row: OutboxRow)
    requires LocksOk(rows, relays) && r !in rows && row.lock.None?
    ensures LocksOk(rows[r := row], relays)
  {
    forall k | k in relays ensures TxOk(rows[r := row], k, relays[k]) {
      assert TxOk(rows, k, relays[k]);
    }
  }

  lemma SubmitHeld(s: State, j: Uuid, u: Uuid, src: Source, r: nat)
    requires RowsOk(s) && LocksOk(s.rows, s.relays) && Answered(s) && StampsReleased(s)
    requires j !in s.jobs && r !in s.rows
    ensures var s' := ApplySubmit(s, j, u, src, r); Answered(s') && StampsReleased(s')
  {
    var s' := ApplySubmit(s, j, u, src, r);
    forall i | i in s'.jobs && !s'.jobs[i].status.IsTerminal()
      ensures i in s'.holders && Answers(s'.rows, s'.copies, i, s'.holders[i])
    {
      if i != j {
        assert Answers(s.rows, s.copies, i, s.holders[i]);
      }
    }
    forall k, q | k in s'.relays && q in s'.relays[k].done && s'.relays[k].done[q] && q in s'.rows
      ensures Released(s'.holders, s'.rows[q].msg.job, q)
    {
      assert TxOk(s.rows, k, s.relays[k]) && Holds(s.relays[k], q);
    }
  }

  // ---------------------------------------------------------------- relays

  /** Outbox bookkeeping that keeps every message and leaves the rest of the world alone. */
  ghost predicate OnlyOutbox(s: State, s': State) {
    && s'.jobs == s.jobs && s'.dashboards == s.dashboards && s'.tables == s.tables
    && s'.rows.Keys == s.rows.Keys
    && (forall r :: r in s.rows ==> s'.rows[r].msg == s.rows[r].msg)
  }

  lemma OutboxStable(n: nat, s: State, s': State)
    requires CopiesOk(n, s) && RowsOk(s) && ReadyComplete(s)
    requires OnlyOutbox(s, s') && s'.copies == s.copies
    ensures CopiesOk(n, s') && RowsOk(s') && ReadyComplete(s')
  {
    CopiesStable(n, s, s');
    RowsStable(s, s');
  }

  lemma ClaimInv(n: nat, s: State, k: nat, batch: seq<nat>)
    requires Inv(n, s) && k !in s.relays && IsClaim(s.rows, batch)
    ensures Inv(n, ApplyClaim(s, k, batch))
  {
    var s' := ApplyClaim(s, k, batch);
    OutboxStable(n, s, s');
    ClaimLocks(s.rows, s'.rows, s.relays, k, batch);
    ClaimHeld(s, k, batch);
  }

  lemma ClaimLocks(rows: map<nat, OutboxRow>, rows': map<nat, OutboxRow>, relays: map<nat, Tx>, k: nat, batch: seq<nat>)
    requires LocksOk(rows, relays) && k !in relays && IsClaim(rows, batch)
    requires rows'.Keys == rows.Keys
    requires forall r :: r in rows ==> rows'[r] == if r in batch then rows[r].(lock := Some(k)) else rows[r]
    ensures LocksOk(rows', relays[k := Tx(batch, map[])])
  {
    forall k' | k' in relays ensures TxOk(rows', k', relays[k']) {
      assert TxOk(rows, k', relays[k']);
    }
    forall r | r in rows' && rows'[r].lock.Some? && r !in batch
      ensures rows'[r].lock.value in relays && rows'[r].lock.value != k
    {
      assert rows[r].lock.Some?;
    }
  }

  lemma ClaimHeld(s: State, k: nat, batch: seq<nat>)
    requires Answered(s) && StampsReleased(s) && k !in s.relays
    ensures var s' := ApplyClaim(s, k, batch); Answered(s') && StampsReleased(s')
  {
    var s' := ApplyClaim(s, k, batch);
    forall j | j in s'.jobs && !s'.jobs[j].status.IsTerminal()
      ensures j in s'.holders && Answers(s'.rows, s'.copies, j, s'.holders[j])
    {
      assert Answers(s.rows, s.copies, j, s.holders[j]);
    }
  }

  lemma PublishInv(n: nat, s: State, k: nat, p: PubOutcome, tag: nat)
    requires n >= 1 && Inv(n, s) && Enabled(s, Publish(k, p, tag))
    ensures Inv(n, ApplyPublish(s, k, p, tag))
  {
    PublishStable(n, s, k, p, tag);
    PublishKeepsLocked(s, k, p, tag);
    PublishAnswered(s, k, p, tag);
    PublishStamps(s, k, p, tag);
  }

  lemma PublishKeepsLocked(s: State, k: nat, p: PubOutcome, tag: nat)
    requires LocksOk(s.rows, s.relays) && Enabled(s, Publish(k, p, tag))
    ensures var s' := ApplyPublish(s, k, p, tag); LocksOk(s'.rows, s'.relays)
  {
    PublishLocks(s.rows, ApplyPublish(s, k, p, tag).rows, s.relays, k, p.Confirmed?);
  }

  lemma PublishStable(n: nat, s: State, k: nat, p: PubOutcome, tag: nat)
    requires n >= 1 && CopiesOk(n, s) && RowsOk(s) && ReadyComplete(s) && Enabled(s, Publish(k, p, tag))
    ensures var s' := ApplyPublish(s, k, p, tag); CopiesOk(n, s') && RowsOk(s') && ReadyComplete(s')
  {
    var s' := ApplyPublish(s, k, p, tag);
    var r := s.relays[k].todo[0];
    assert Extends(s, s');
    if Accepted(p) {
      CopiesUpdated(n, s, s', tag, Copy(s.rows[r].msg, r, true, Waiting));
    } else {
      CopiesStable(n, s, s');
    }
    RowsStable(s, s');
  }

  lemma PublishLocks(rows: map<nat, OutboxRow>, rows': map<nat, OutboxRow>, relays: map<nat, Tx>, k: nat, stamped: bool)
    requires LocksOk(rows, relays) && k in relays && relays[k].todo != []
    requires rows'.Keys == rows.Keys
    requires forall r :: r in rows ==> rows'[r].lock == rows[r].lock && rows'[r].published == rows[r].published
    ensures LocksOk(rows', relays[k := Tx(relays[k].todo[1..], relays[k].done[relays[k].todo[0] := stamped])])
  {
    var tx := relays[k];
    var tx' := Tx(tx.todo[1..], tx.done[tx.todo[0] := stamped]);
    assert TxOk(rows, k, tx);
    assert forall r :: Holds(tx', r) <==> Holds(tx, r) by {
      assert tx.todo == [tx.todo[0]] + tx.todo[1..];
    }
    forall k' | k' in relays && k' != k ensures TxOk(rows', k', relays[k']) {
      assert TxOk(rows, k', relays[k']);
    }
    assert TxOk(rows', k, tx');
  }

  lemma PublishAnswered(s: State, k: nat, p: PubOutcome, tag: nat)
    requires Answered(s) && Enabled(s, Publish(k, p, tag))
    ensures Answered(ApplyPublish(s, k, p, tag))
  {
    var s' := ApplyPublish(s, k, p, tag);
    forall j | j in s'.jobs && !s'.jobs[j].status.IsTerminal()
      ensures j in s'.holders && Answers(s'.rows, s'.copies, j, s'.holders[j])
    {
      assert Answers(s.rows, s.copies, j, s.holders[j]);
    }
  }

  lemma PublishStamps(s: State, k: nat, p: PubOutcome, tag: nat)
    requires RowsOk(s) && StampsReleased(s) && Enabled(s, Publish(k, p, tag))
    ensures StampsReleased(ApplyPublish(s, k, p, tag))
  {
    var s' := ApplyPublish(s, k, p, tag);
    var r := s.relays[k].todo[0];
    forall k', q | k' in s'.relays && q in s'.relays[k'].done && s'.relays[k'].done[q] && q in s'.rows
      ensures Released(s'.holders, s'.rows[q].msg.job, q)
    {
      if k' != k || q != r {
        assert Released(s.holders, s.rows[q].msg.job, q);
      }
    }
  }

  lemma CommitInv(n: nat, s: State, k: nat)
    requires Inv(n, s) && k in s.relays && s.relays[k].todo == []
    ensures Inv(n, ApplyCommit(s, k))
  {
    CommitShape(s, k);
    CloseInv(n, s, ApplyCommit(s, k), k);
    CommitAnswered(s, k);
  }

  lemma CommitShape(s: State, k: nat)
    requires k in s.relays && s.relays[k].todo == []
    ensures Closes(s, ApplyCommit(s, k), k)
  {
  }

  /** A step that ends the transaction `k` and frees its rows. */
  ghost predicate Closes(s: State, s': State, k: nat) {
    && k in s.relays && s'.relays == s.relays - {k} && OnlyOutbox(s, s')
    && s'.copies == s.copies && s'.holders == s.holders
    && forall r :: r in s.rows ==> if Holds(s.relays[k], r) then s'.rows[r].lock.None? else s'.rows[r] == s.rows[r]
  }

  lemma CloseInv(n: nat, s: State, s': State, k: nat)
    requires CopiesOk(n, s) && RowsOk(s) && ReadyComplete(s) && LocksOk(s.rows, s.relays) && StampsReleased(s)
    requires Closes(s, s', k)
    ensures CopiesOk(n, s') && RowsOk(s') && ReadyComplete(s') && LocksOk(s'.rows, s'.relays) && StampsReleased(s')
  {
    OutboxStable(n, s, s');
    CloseLocks(s.rows, s'.rows, s.relays, k);
    CloseStamps(s, s', k);
  }

  lemma CommitAnswered(s: State, k: nat)
    requires Answered(s) && StampsReleased(s) && k in s.relays
    ensures Answered(ApplyCommit(s, k))
  {
    var s' := ApplyCommit(s, k);
    forall j | j in s'.jobs && !s'.jobs[j].status.IsTerminal()
      ensures j in s'.holders && Answers(s'.rows, s'.copies, j, s'.holders[j])
    {
      assert Answers(s.rows, s.copies, j, s.holders[j]);
      if s.holders[j].ByRow? {
        var r := s.holders[j].row;
        assert r in s.relays[k].done && s.relays[k].done[r] ==> Released(s.holders, s.rows[r].msg.job, r);
      }
    }
  }

  lemma RollbackInv(n: nat, s: State, k: nat)
    requires Inv(n, s) && k in s.relays
    ensures Inv(n, ApplyRollback(s, k))
  {
    RollbackShape(s, k);
    CloseInv(n, s, ApplyRollback(s, k), k);
    RollbackAnswered(s, k);
  }

  lemma RollbackShape(s: State, k: nat)
    requires k in s.relays
    ensures Closes(s, ApplyRollback(s, k), k)
  {
  }

  lemma RollbackAnswered(s: State, k: nat)
    requires Answered(s) && k in s.relays
    ensures Answered(ApplyRollback(s, k))
  {
    var s' := ApplyRollback(s, k);
    forall j | j in s'.jobs && !s'.jobs[j].status.IsTerminal()
      ensures j in s'.holders && Answers(s'.rows, s'.copies, j, s'.holders[j])
    {
      assert Answers(s.rows, s.copies, j, s.holders[j]);
    }
  }

  /** Ending a transaction releases its rows and touches no other transaction's. */
  lemma CloseLocks(rows: map<nat, OutboxRow>, rows': map<nat, OutboxRow>, relays: map<nat, Tx>, k: nat)
    requires LocksOk(rows, relays) && k in relays
    requires rows'.Keys == rows.Keys
    requires forall r :: r in rows ==> if Holds(relays[k], r) then rows'[r].lock.None? else rows'[r] == rows[r]
    ensures LocksOk(rows', relays - {k})
  {
    forall k' | k' in relays && k' != k ensures TxOk(rows', k', relays[k']) {
      assert TxOk(rows, k', relays[k']);
      assert TxOk(rows, k, relays[k]);
    }
  }

  lemma CloseStamps(s: State, s': State, k: nat)
    requires StampsReleased(s) && OnlyOutbox(s, s')
    requires s'.relays == s.relays - {k} && s'.holders == s.holders
    ensures StampsReleased(s')
  {
    forall k', q | k' in s'.relays && q in s'.relays[k'].done && s'.relays[k'].done[q] && q in s'.rows
      ensures Released(s'.holders, s'.rows[q].msg.job, q)
    {
      assert Released(s.holders, s.rows[q].msg.job, q);
    }
  }

  // ---------------------------------------------------------------- deliveries

  /** One step of a delivery never removes the dashboard or changes whose job it is; what it needs
      for `mark_ready` is in place. */
  lemma WorkKeeps(msg: Message, v: JobView, t: Task, o: Outcome)
    requires Working(t.pc)
    ensures var w := Effect(msg, v, t, o);
            && (v.dash.Some? ==> w.dash.Some?)
            && (t.pc.StoreDashboard? && o.Success? && t.config.Some? ==> w.dash.Some?)
            && KeepsJob(v.row, w.row)
  {
  }

  lemma WorkTask(n: nat, msg: Message, v: JobView, t: Task, o: Outcome, hasDashboard: bool)
    requires Working(t.pc) && TaskOk(n, msg, v.dash.Some?, t)
    requires v.dash.Some? || (t.pc.StoreDashboard? && o.Success?) ==> hasDashboard
    ensures TaskOk(n, msg, hasDashboard, Continue(n, msg, v, t, o))
  {
    if o.Success? {
      SuccessTask(n, msg, v, t, hasDashboard);
    }
  }

  lemma SuccessTask(n: nat, msg: Message, v: JobView, t: Task, hasDashboard: bool)
    requires Working(t.pc) && TaskOk(n, msg, v.dash.Some?, t)
    requires v.dash.Some? || t.pc.StoreDashboard? ==> hasDashboard
    ensures TaskOk(n, msg, hasDashboard, Continue(n, msg, v, t, Success))
  {
  }

  /** The only way into `ready` is `mark_ready`; while ready, only the attempt counter can move. */
  lemma WorkReady(msg: Message, v: JobView, t: Task, o: Outcome)
    requires Working(t.pc)
    ensures var w := Effect(msg, v, t, o);
            w.row.status.Ready? ==>
              || (t.pc.MarkReady? && w.row == ReadyRow(v.row, msg, t))
              || (v.row.status.Ready? && w.row == v.row.(attempts := w.row.attempts))
  {
  }

  /** A delivery that reports success leaves the job terminal, and a non-terminal write is a stage. */
  lemma WorkTerminal(n: nat, msg: Message, v: JobView, t: Task, o: Outcome)
    requires Working(t.pc)
    ensures var w := Effect(msg, v, t, o);
            && (!w.row.status.IsTerminal() && !v.row.status.IsTerminal() ==> Alive(Running(Continue(n, msg, v, t, o))))
            && (!w.row.status.IsTerminal() && v.row.status.IsTerminal() ==> StageStatus(t.pc).Some? && Applied(o))
            && (StageStatus(t.pc).Some? ==> Alive(Running(Continue(n, msg, v, t, o))))
  {
  }

  /** A step of the delivery `tag` that leaves its job's stores as `w` and the delivery at `t`. */
  ghost predicate Worked(s: State, s': State, tag: nat, w: JobView, t: Task)
    requires RunningAt(s, tag)
  {
    var c := s.copies[tag];
    && s'.jobs == s.jobs[c.msg.job := w.row]
    && s'.dashboards == MapPut(s.dashboards, c.msg.job, w.dash)
    && s'.tables == MapPut(s.tables, DatasetTableName(c.msg.user, c.msg.job), w.table)
    && s'.rows == s.rows && s'.relays == s.relays
    && s'.copies == s.copies[tag := c.(place := Running(t))]
  }

  lemma WorkShape(n: nat, s: State, tag: nat, o: Outcome)
    requires Enabled(s, Work(tag, o))
    ensures var msg := s.copies[tag].msg;
            var v := View(s, msg.job, msg.user);
            Worked(s, ApplyWork(n, s, tag, o), tag, Effect(msg, v, TaskOf(s, tag), o),
                   Continue(n, msg, v, TaskOf(s, tag), o))
  {
  }

  lemma WorkedCopies(n: nat, s: State, s': State, tag: nat, w: JobView, t: Task)
    requires CopiesOk(n, s) && RowsOk(s) && RunningAt(s, tag) && Worked(s, s', tag, w, t)
    requires KeepsJob(s.jobs[s.copies[tag].msg.job], w.row)
    requires s.copies[tag].msg.job in s.dashboards ==> w.dash.Some?
    requires TaskOk(n, s.copies[tag].msg, w.dash.Some?, t)
    ensures CopiesOk(n, s') && RowsOk(s')
  {
    assert CopyOk(n, s, s.copies[tag]);
    assert Extends(s, s');
    CopiesUpdated(n, s, s', tag, s'.copies[tag]);
    RowsStable(s, s');
  }

  lemma WorkedReady(n: nat, s: State, s': State, tag: nat, w: JobView, t: Task)
    requires CopiesOk(n, s) && ReadyComplete(s) && RunningAt(s, tag) && Worked(s, s', tag, w, t)
    requires s.copies[tag].msg.job in s.dashboards ==> w.dash.Some?
    requires var c := s.copies[tag];
             w.row.status.Ready? ==>
               || (TaskOf(s, tag).pc.MarkReady? && w.row == ReadyRow(s.jobs[c.msg.job], c.msg, TaskOf(s, tag)))
               || (s.jobs[c.msg.job].status.Ready? && w.row == s.jobs[c.msg.job].(attempts := w.row.attempts))
    ensures ReadyComplete(s')
  {
    assert CopyOk(n, s, s.copies[tag]);
    forall j | j in s'.jobs && s'.jobs[j].status.Ready? ensures Complete(j, s'.jobs[j], s'.dashboards) {
      if s.jobs[j].status.Ready? {
        assert Complete(j, s.jobs[j], s.dashboards);
      }
    }
  }

  lemma WorkHeld(n: nat, s: State, tag: nat, o: Outcome)
    requires Answered(s) && StampsReleased(s) && Enabled(s, Work(tag, o))
    ensures var s' := ApplyWork(n, s, tag, o); Answered(s') && StampsReleased(s')
  {
    var msg, t := s.copies[tag].msg, TaskOf(s, tag);
    var v := View(s, msg.job, msg.user);
    var s' := ApplyWork(n, s, tag, o);
    WorkTerminal(n, msg, v, t, o);
    forall j | j in s'.jobs && !s'.jobs[j].status.IsTerminal()
      ensures j in s'.holders && Answers(s'.rows, s'.copies, j, s'.holders[j])
    {
      if j != msg.job || StageStatus(t.pc).None? || !Applied(o) {
        assert Answers(s.rows, s.copies, j, s.holders[j]);
      }
    }
  }

  lemma WorkInv(n: nat, s: State, tag: nat, o: Outcome)
    requires Inv(n, s) && Enabled(s, Work(tag, o))
    ensures Inv(n, ApplyWork(n, s, tag, o))
  {
    var s' := ApplyWork(n, s, tag, o);
    WorkShape(n, s, tag, o);
    WorkStable(n, s, tag, o);
    WorkHeld(n, s, tag, o);
  }

  lemma WorkStable(n: nat, s: State, tag: nat, o: Outcome)
    requires CopiesOk(n, s) && RowsOk(s) && ReadyComplete(s) && Enabled(s, Work(tag, o))
    ensures var s' := ApplyWork(n, s, tag, o); CopiesOk(n, s') && RowsOk(s') && ReadyComplete(s')
  {
    var msg, t := s.copies[tag].msg, TaskOf(s, tag);
    var v := View(s, msg.job, msg.user);
    assert CopyOk(n, s, s.copies[tag]);
    WorkShape(n, s, tag, o);
    WorkKeeps(msg, v, t, o);
    WorkReady(msg, v, t, o);
    var s', w, t' := ApplyWork(n, s, tag, o), Effect(msg, v, t, o), Continue(n, msg, v, t, o);
    WorkTask(n, msg, v, t, o, w.dash.Some?);
    WorkedCopies(n, s, s', tag, w, t');
    WorkedReady(n, s, s', tag, w, t');
  }

  /** What a retry changes: the copies, and perhaps who answers for the job. */
  lemma RepublishShape(s: State, tag: nat, p: PubOutcome, child: nat)
    requires Enabled(s, Republish(tag, p, child))
    ensures var c, h := s.copies[tag], s.holders;
            var moved := s.copies[tag := AfterRetry(c, p)];
            ApplyRepublish(s, tag, p, child) ==
            s.(copies := if Accepted(p) then moved[child := NextAttempt(c)] else moved,
               holders := if Accepted(p) && c.msg.job in h && h[c.msg.job] == ByCopy(tag)
                          then h[c.msg.job := ByCopy(child)]
                          else h)
  {
  }

  lemma RepublishCopies(n: nat, s: State, tag: nat, p: PubOutcome, child: nat)
    requires CopiesOk(n, s) && Enabled(s, Republish(tag, p, child))
    ensures CopiesOk(n, ApplyRepublish(s, tag, p, child))
  {
    var c := s.copies[tag];
    assert CopyOk(n, s, c);
    var place := Running(c.place.task.(pc := if p.Confirmed? then AckRetry else MarkFailed));
    var s1 := MoveCopy(s, tag, place);
    CopiesUpdated(n, s, s1, tag, c.(place := place));
    if Accepted(p) {
      var s' := ApplyRepublish(s, tag, p, child);
      CopiesUpdated(n, s1, s', child, s'.copies[child]);
    }
  }

  lemma RepublishHeld(s: State, tag: nat, p: PubOutcome, child: nat)
    requires Answered(s) && StampsReleased(s) && Enabled(s, Republish(tag, p, child))
    ensures var s' := ApplyRepublish(s, tag, p, child); Answered(s') && StampsReleased(s')
  {
    var s' := ApplyRepublish(s, tag, p, child);
    forall j | j in s'.jobs && !s'.jobs[j].status.IsTerminal()
      ensures j in s'.holders && Answers(s'.rows, s'.copies, j, s'.holders[j])
    {
      assert Answers(s.rows, s.copies, j, s.holders[j]);
    }
  }

  lemma RepublishInv(n: nat, s: State, tag: nat, p: PubOutcome, child: nat)
    requires Inv(n, s) && Enabled(s, Republish(tag, p, child))
    ensures Inv(n, ApplyRepublish(s, tag, p, child))
  {
    var s' := ApplyRepublish(s, tag, p, child);
    RepublishCopies(n, s, tag, p, child);
    RowsStable(s, s');
    RepublishHeld(s, tag, p, child);
  }

  lemma MoveInv(n: nat, s: State, tag: nat, p: Place)
    requires Inv(n, s) && tag in s.copies
    requires p.Running? ==> p.task == FRESH
    requires p.Acked? ==> RunningAt(s, tag) && TaskOf(s, tag).pc in {Finished, AckRetry}
    ensures Inv(n, MoveCopy(s, tag, p))
  {
    MoveStable(n, s, tag, p);
    MoveAnswered(s, tag, p);
  }

  lemma MoveStable(n: nat, s: State, tag: nat, p: Place)
    requires CopiesOk(n, s) && RowsOk(s) && tag in s.copies
    requires p.Running? ==> p.task == FRESH
    ensures var s' := MoveCopy(s, tag, p); CopiesOk(n, s') && RowsOk(s')
  {
    var s' := MoveCopy(s, tag, p);
    assert CopyOk(n, s, s.copies[tag]);
    CopiesUpdated(n, s, s', tag, s.copies[tag].(place := p));
    RowsStable(s, s');
  }

  lemma MoveAnswered(s: State, tag: nat, p: Place)
    requires Answered(s) && tag in s.copies
    requires p.Running? ==> p.task == FRESH
    requires p.Acked? ==> RunningAt(s, tag) && TaskOf(s, tag).pc in {Finished, AckRetry}
    ensures Answered(MoveCopy(s, tag, p))
  {
    var s' := MoveCopy(s, tag, p);
    forall j | j in s'.jobs && !s'.jobs[j].status.IsTerminal()
      ensures j in s'.holders && Answers(s'.rows, s'.copies, j, s'.holders[j])
    {
      assert Answers(s.rows, s.copies, j, s.holders[j]);
    }
  }

  // ---------------------------------------------------------------- every step, every run

  lemma StepInv(n: nat, s: State, e: Event)
    requires n >= 1 && Inv(n, s) && Enabled(s, e)
    ensures Inv(n, Apply(n, s, e))
  {
    match e
    case Submit(j, u, src, r) => SubmitInv(n, s, j, u, src, r);
    case Claim(k, batch) => ClaimInv(n, s, k, batch);
    case Publish(k, p, tag) => PublishInv(n, s, k, p, tag);
    case Commit(k) => CommitInv(n, s, k);
    case Rollback(k) => RollbackInv(n, s, k);
    case Deliver(tag) => MoveInv(n, s, tag, Running(FRESH));
    case Work(tag, o) => WorkInv(n, s, tag, o);
    case Republish(tag, p, child) => RepublishInv(n, s, tag, p, child);
    case Settle(tag, lost) =>
      MoveInv(n, s, tag, if lost then Halted else if TaskOf(s, tag).pc.Nack? then Dead else Acked);
    case Crash(tag) => MoveInv(n, s, tag, Halted);
    case Requeue(tag) => MoveInv(n, s, tag, Waiting);
  }

  lemma {:induction false} RunInv(n: nat, s: State, es: seq<Event>, t: State)
    requires n >= 1 && Inv(n, s) && Run(n, s, es, t)
    ensures Inv(n, t)
    decreases |es|
  {
    if es != [] {
      StepInv(n, s, es[0]);
      RunInv(n, Apply(n, s, es[0]), es[1..], t);
    }
  }

  lemma InitInv(n: nat)
    ensures Inv(n, INIT)
  {
  }

  // ---------------------------------------------------------------- main results

  /** An unpublished outbox row, or a message the broker still has or has dead-lettered. */
  ghost predicate Recoverable(s: State, j: Uuid) {
    || (exists r :: r in s.rows && s.rows[r].msg.job == j && !s.rows[r].published)
    || (exists c :: c in s.copies && s.copies[c].msg.job == j && !s.copies[c].place.Acked?)
  }

  /** No accepted job is lost, whatever the interleaving and wherever the crashes. */
  lemma NoJobLost(n: nat, es: seq<Event>, s: State, j: Uuid)
    requires n >= 1 && Run(n, INIT, es, s) && j in s.jobs
    ensures s.jobs[j].status == Ready || s.jobs[j].status == Failed || Recoverable(s, j)
  {
    InitInv(n);
    RunInv(n, INIT, es, s);
    if !s.jobs[j].status.IsTerminal() {
      assert Answers(s.rows, s.copies, j, s.holders[j]);
    }
  }

  lemma {:induction false} RunExtends(n: nat, s: State, es: seq<Event>, t: State)
    requires n >= 1 && Inv(n, s) && Run(n, s, es, t)
    ensures Extends(s, t)
    decreases |es|
  {
    if es != [] {
      StepExtends(n, s, es[0]);
      StepInv(n, s, es[0]);
      RunExtends(n, Apply(n, s, es[0]), es[1..], t);
    }
  }

  lemma WorkExtends(n: nat, s: State, tag: nat, o: Outcome)
    requires Enabled(s, Work(tag, o))
    ensures Extends(s, ApplyWork(n, s, tag, o))
  {
    var msg, t := s.copies[tag].msg, TaskOf(s, tag);
    var v := View(s, msg.job, msg.user);
    WorkShape(n, s, tag, o);
    WorkKeeps(msg, v, t, o);
    WorkedExtends(s, ApplyWork(n, s, tag, o), tag, Effect(msg, v, t, o), Continue(n, msg, v, t, o));
  }

  lemma WorkedExtends(s: State, s': State, tag: nat, w: JobView, t: Task)
    requires RunningAt(s, tag) && s.copies[tag].msg.job in s.jobs && Worked(s, s', tag, w, t)
    requires KeepsJob(s.jobs[s.copies[tag].msg.job], w.row)
    requires s.copies[tag].msg.job in s.dashboards ==> w.dash.Some?
    ensures Extends(s, s')
  {
  }

  lemma OutboxExtends(s: State, s': State)
    requires OnlyOutbox(s, s')
    ensures Extends(s, s')
  {
  }

  lemma SubmitExtends(s: State, j: Uuid, u: Uuid, src: Source, r: nat)
    requires j !in s.jobs && r !in s.rows
    ensures Extends(s, ApplySubmit(s, j, u, src, r))
  {
  }

  lemma StepExtends(n: nat, s: State, e: Event)
    requires Enabled(s, e)
    ensures Extends(s, Apply(n, s, e))
  {
    match e
    case Work(tag, o) => WorkExtends(n, s, tag, o);
    case Submit(j, u, src, r) => SubmitExtends(s, j, u, src, r);
    case Claim(k, batch) => OutboxExtends(s, ApplyClaim(s, k, batch));
    case Publish(k, p, tag) => OutboxExtends(s, ApplyPublish(s, k, p, tag));
    case Commit(k) => OutboxExtends(s, ApplyCommit(s, k));
    case Rollback(k) => OutboxExtends(s, ApplyRollback(s, k));
    case Deliver(tag) => OutboxExtends(s, MoveCopy(s, tag, Running(FRESH)));
    case Republish(tag, p, child) => OutboxExtends(s, ApplyRepublish(s, tag, p, child));
    case Settle(tag, lost) => OutboxExtends(s, ApplySettle(s, tag, lost));
    case Crash(tag) => OutboxExtends(s, MoveCopy(s, tag, Halted));
    case Requeue(tag) => OutboxExtends(s, MoveCopy(s, tag, Waiting));
  }

  /** A job seen `ready` is complete, and its dashboard is still there however much happens
      between that read and the next. */
  lemma ReadyIsComplete(n: nat, es: seq<Event>, s: State, later: seq<Event>, t: State, j: Uuid)
    requires n >= 1 && Run(n, INIT, es, s) && Run(n, s, later, t)
    requires j in s.jobs && s.jobs[j].status.Ready?
    ensures Complete(j, s.jobs[j], s.dashboards) && j in t.dashboards
  {
    InitInv(n);
    RunInv(n, INIT, es, s);
    RunExtends(n, s, later, t);
  }

  /** Every message the broker was ever handed is within the attempt limit and belongs to its job. */
  lemma AttemptsBounded(n: nat, es: seq<Event>, s: State, c: nat)
    requires n >= 1 && Run(n, INIT, es, s) && c in s.copies
    ensures s.copies[c].msg.attempt < n && Matches(s.jobs, s.copies[c].msg)
  {
    InitInv(n);
    RunInv(n, INIT, es, s);
    assert CopyOk(n, s, s.copies[c]);
  }

  /** No two open relay transactions hold the same outbox row. */
  lemma NoDoubleClaim(n: nat, es: seq<Event>, s: State, k1: nat, k2: nat, r: nat)
    requires n >= 1 && Run(n, INIT, es, s)
    requires k1 in s.relays && k2 in s.relays && Holds(s.relays[k1], r) && Holds(s.relays[k2], r)
    ensures k1 == k2
  {
    InitInv(n);
    RunInv(n, INIT, es, s);
    assert TxOk(s.rows, k1, s.relays[k1]) && TxOk(s.rows, k2, s.relays[k2]);
  }
}
