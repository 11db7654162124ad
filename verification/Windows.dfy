// The stretch of a delivery between its dropping of the old table and its `ready` write. As long as
// these windows do not overlap and none opens on a ready job, the stores of a ready job agree,
// however much deliveries overlap otherwise.

module Windows {
  import opened Domain
  import opened Protocol
  import opened Safety

  /** The three stores agree and the table holds the source's rows exactly once. */
  predicate Agreed(v: JobView) {
    v.row.status.Ready? ==>
      var src := v.row.source;
      && v.table == Some(Table(src.columns, src.rows))
      && v.row.rowCount == Some(|src.rows|)
      && v.row.schema == Some(src.columns)
      && v.dash == Some(Dashboard(|src.rows|, src.columns))
  }

  /** The old table is dropped, and `ready` is still to be written. */
  predicate InWindow(pc: Pc) {
    pc in {CreateTable, InsertRows, CountRows, Generate, StoreDashboard, MarkReady}
  }

  ghost predicate Inside(s: State, c: nat, j: Uuid) {
    RunningAt(s, c) && s.copies[c].msg.job == j && InWindow(TaskOf(s, c).pc)
  }

  /** A delivery of `j` drops the table only while no other is inside its window and `j` is not ready. */
  ghost predicate Orderly(s: State, e: Event, j: Uuid) {
    e.Work? && RunningAt(s, e.tag) && s.copies[e.tag].msg.job == j && TaskOf(s, e.tag).pc.DropTable? ==>
      (forall c :: !Inside(s, c, j)) && (j in s.jobs ==> !s.jobs[j].status.Ready?)
  }

  ghost predicate OrderlyRun(n: nat, s: State, es: seq<Event>, t: State, j: Uuid)
    decreases |es|
  {
    if es == [] then s == t
    else Enabled(s, es[0]) && Orderly(s, es[0], j) && OrderlyRun(n, Apply(n, s, es[0]), es[1..], t, j)
  }

  // ---------------------------------------------------------------- one job

  /** What a delivery inside its window knows about the stores. */
  predicate WindowView(msg: Message, v: JobView, t: Task) {
    InWindow(t.pc) ==>
      && !v.row.status.Ready?
      && (t.pc.CreateTable? ==> v.table.None?)
      && (t.pc.InsertRows? ==> v.table == Some(Table(msg.source.columns, multiset{})))
      && (!t.pc.CreateTable? && !t.pc.InsertRows? ==> v.table == Some(Table(msg.source.columns, msg.source.rows)))
      && (t.pc in {Generate, StoreDashboard, MarkReady} ==> t.count == |msg.source.rows|)
      && (t.pc.MarkReady? ==> v.dash == Some(Dashboard(|msg.source.rows|, msg.source.columns)))
  }

  lemma InsideStep(n: nat, msg: Message, v: JobView, t: Task, o: Outcome)
    requires InWindow(t.pc) && TaskOk(n, msg, v.dash.Some?, t) && msg.source == v.row.source && WindowView(msg, v, t)
    ensures Agreed(Effect(msg, v, t, o)) && WindowView(msg, Effect(msg, v, t, o), Continue(n, msg, v, t, o))
  {
    assert multiset{} + msg.source.rows == msg.source.rows;
    if o.Success? {
      InsideSuccess(n, msg, v, t);
    }
  }

  lemma InsideSuccess(n: nat, msg: Message, v: JobView, t: Task)
    requires InWindow(t.pc) && TaskOk(n, msg, v.dash.Some?, t) && msg.source == v.row.source && WindowView(msg, v, t)
    ensures Agreed(Effect(msg, v, t, Success))
    ensures WindowView(msg, Effect(msg, v, t, Success), Continue(n, msg, v, t, Success))
  {
    assert multiset{} + msg.source.rows == msg.source.rows;
  }

  /** Opening a window on a job that is not ready. */
  lemma DropStep(n: nat, msg: Message, v: JobView, t: Task, o: Outcome)
    requires t.pc.DropTable? && !v.row.status.Ready?
    ensures Agreed(Effect(msg, v, t, o)) && WindowView(msg, Effect(msg, v, t, o), Continue(n, msg, v, t, o))
  {
  }

  /** Any other operation leaves table and dashboard alone and makes no job ready. */
  lemma OutsideStep(n: nat, msg: Message, v: JobView, t: Task, o: Outcome)
    requires Working(t.pc) && !InWindow(t.pc) && !t.pc.DropTable?
    ensures var w := Effect(msg, v, t, o);
            && w.table == v.table && w.dash == v.dash && w.row.source == v.row.source
            && (w.row.status.Ready? ==> v.row.status.Ready? && w.row == v.row.(attempts := w.row.attempts))
            && !InWindow(Continue(n, msg, v, t, o).pc)
  {
  }

  // ---------------------------------------------------------------- the whole system

  ghost predicate WindowsOk(s: State, j: Uuid) {
    && (forall c, d :: Inside(s, c, j) && Inside(s, d, j) ==> c == d)
    && (j in s.jobs ==>
          && Agreed(View(s, j, s.jobs[j].user))
          && forall c :: Inside(s, c, j) ==> WindowView(s.copies[c].msg, View(s, j, s.jobs[j].user), TaskOf(s, c)))
  }

  lemma OwnView(n: nat, s: State, tag: nat, o: Outcome)
    requires Enabled(s, Work(tag, o))
    ensures var msg, t := s.copies[tag].msg, TaskOf(s, tag);
            var v := View(s, msg.job, msg.user);
            var s' := ApplyWork(n, s, tag, o);
            && View(s', msg.job, msg.user) == Effect(msg, v, t, o)
            && RunningAt(s', tag) && TaskOf(s', tag) == Continue(n, msg, v, t, o)
            && s'.copies[tag].msg == msg
  {
    WorkShape(n, s, tag, o);
  }

  /** A step of another job's delivery cannot be seen from `j`. */
  lemma OtherView(n: nat, s: State, tag: nat, o: Outcome, j: Uuid, user: Uuid)
    requires Enabled(s, Work(tag, o)) && s.copies[tag].msg.job != j && j in s.jobs
    ensures var s' := ApplyWork(n, s, tag, o);
            && j in s'.jobs && View(s', j, user) == View(s, j, user) && s'.jobs[j] == s.jobs[j]
            && s'.copies.Keys == s.copies.Keys
            && (forall c :: c in s.copies && s.copies[c].msg.job == j ==> s'.copies[c] == s.copies[c])
            && (forall c :: c in s.copies ==> s'.copies[c].msg == s.copies[c].msg)
  {
    var msg := s.copies[tag].msg;
    WorkShape(n, s, tag, o);
    if DatasetTableName(msg.user, msg.job) == DatasetTableName(user, j) {
      DatasetTableNameInjective(msg.user, msg.job, user, j);
    }
  }

  /** The deliveries of `j` other than `tag` have not moved. */
  lemma OthersStay(n: nat, s: State, tag: nat, o: Outcome)
    requires Enabled(s, Work(tag, o))
    ensures var s' := ApplyWork(n, s, tag, o);
            s'.copies.Keys == s.copies.Keys && forall c :: c in s.copies && c != tag ==> s'.copies[c] == s.copies[c]
  {
    WorkShape(n, s, tag, o);
  }

  /** A step of a delivery of `j` itself. */
  lemma OwnWindow(n: nat, s: State, tag: nat, o: Outcome, j: Uuid)
    requires CopiesOk(n, s) && WindowsOk(s, j) && Enabled(s, Work(tag, o)) && Orderly(s, Work(tag, o), j)
    requires s.copies[tag].msg.job == j
    ensures WindowsOk(ApplyWork(n, s, tag, o), j)
  {
    var msg, t := s.copies[tag].msg, TaskOf(s, tag);
    var v := View(s, j, msg.user);
    var s' := ApplyWork(n, s, tag, o);
    assert CopyOk(n, s, s.copies[tag]);
    WorkKeeps(msg, v, t, o);
    OwnView(n, s, tag, o);
    OthersStay(n, s, tag, o);
    assert forall c :: c != tag ==> (Inside(s', c, j) <==> Inside(s, c, j));
    if InWindow(t.pc) {
      assert Inside(s, tag, j);
      InsideStep(n, msg, v, t, o);
    } else if t.pc.DropTable? {
      DropStep(n, msg, v, t, o);
    } else {
      OutsideStep(n, msg, v, t, o);
    }
  }

  /** The job's stores are unchanged, and its deliveries are unchanged or outside their windows. */
  lemma SameWindows(s: State, s': State, j: Uuid)
    requires WindowsOk(s, j) && j in s.jobs && j in s'.jobs && s'.jobs[j].user == s.jobs[j].user
    requires View(s', j, s.jobs[j].user) == View(s, j, s.jobs[j].user)
    requires forall c :: Inside(s', c, j) ==> Inside(s, c, j) && s'.copies[c] == s.copies[c]
    ensures WindowsOk(s', j)
  {
  }

  /** Nothing but a delivery's own operations touches a job's row, dashboard or table. */
  lemma OnlyWorkIsSeen(n: nat, s: State, e: Event, j: Uuid)
    requires Enabled(s, e) && !e.Work? && j in s.jobs
    ensures j in Apply(n, s, e).jobs && Apply(n, s, e).jobs[j] == s.jobs[j]
    ensures View(Apply(n, s, e), j, s.jobs[j].user) == View(s, j, s.jobs[j].user)
  {
  }

  lemma OnlyWorkOpens(n: nat, s: State, e: Event, j: Uuid, c: nat)
    requires Enabled(s, e) && !e.Work? && Inside(Apply(n, s, e), c, j)
    ensures Inside(s, c, j) && Apply(n, s, e).copies[c] == s.copies[c]
  {
    if e.Republish? {
      RepublishOpensNothing(s, e.tag, e.pub, e.child, j, c);
    } else if e.Deliver? || e.Settle? || e.Crash? || e.Requeue? {
      MoveOpensNothing(n, s, e, j, c);
    }
  }

  lemma RepublishOpensNothing(s: State, tag: nat, p: PubOutcome, child: nat, j: Uuid, c: nat)
    requires Enabled(s, Republish(tag, p, child)) && Inside(ApplyRepublish(s, tag, p, child), c, j)
    ensures Inside(s, c, j) && ApplyRepublish(s, tag, p, child).copies[c] == s.copies[c]
  {
    RepublishShape(s, tag, p, child);
  }

  lemma MoveOpensNothing(n: nat, s: State, e: Event, j: Uuid, c: nat)
    requires Enabled(s, e) && (e.Deliver? || e.Settle? || e.Crash? || e.Requeue?) && Inside(Apply(n, s, e), c, j)
    ensures Inside(s, c, j) && Apply(n, s, e).copies[c] == s.copies[c]
  {
  }

  /** Before a job is submitted it has no deliveries. */
  lemma NoneInside(n: nat, s: State, j: Uuid)
    requires CopiesOk(n, s) && j !in s.jobs
    ensures forall c :: !Inside(s, c, j)
  {
    forall c | RunningAt(s, c) ensures s.copies[c].msg.job in s.jobs {
      assert CopyOk(n, s, s.copies[c]);
    }
  }

  /** A step of another job's delivery. */
  lemma OtherWindow(n: nat, s: State, tag: nat, o: Outcome, j: Uuid)
    requires WindowsOk(s, j) && Enabled(s, Work(tag, o)) && s.copies[tag].msg.job != j && j in s.jobs
    ensures WindowsOk(ApplyWork(n, s, tag, o), j)
  {
    OtherView(n, s, tag, o, j, s.jobs[j].user);
    SameWindows(s, ApplyWork(n, s, tag, o), j);
  }

  /** A step that is not an operation of a delivery. */
  lemma QuietWindow(n: nat, s: State, e: Event, j: Uuid)
    requires WindowsOk(s, j) && Enabled(s, e) && !e.Work? && j in s.jobs
    ensures WindowsOk(Apply(n, s, e), j)
  {
    var s' := Apply(n, s, e);
    OnlyWorkIsSeen(n, s, e, j);
    forall c | Inside(s', c, j) ensures Inside(s, c, j) && s'.copies[c] == s.copies[c] {
      OnlyWorkOpens(n, s, e, j, c);
    }
    SameWindows(s, s', j);
  }

  /** The job is submitted by this step or later. */
  lemma AbsentWindow(n: nat, s: State, e: Event, j: Uuid)
    requires n >= 1 && Inv(n, s) && Enabled(s, e) && j !in s.jobs
    ensures WindowsOk(Apply(n, s, e), j)
  {
    StepInv(n, s, e);
    if j in Apply(n, s, e).jobs {
      NewWindows(n, s, e, j);
    } else {
      NoneInside(n, Apply(n, s, e), j);
    }
  }

  lemma StepWindows(n: nat, s: State, e: Event, j: Uuid)
    requires n >= 1 && Inv(n, s) && WindowsOk(s, j) && Enabled(s, e) && Orderly(s, e, j)
    ensures WindowsOk(Apply(n, s, e), j)
  {
    if j !in s.jobs {
      AbsentWindow(n, s, e, j);
    } else if !e.Work? {
      QuietWindow(n, s, e, j);
    } else if s.copies[e.tag].msg.job == j {
      OwnWindow(n, s, e.tag, e.outcome, j);
    } else {
      OtherWindow(n, s, e.tag, e.outcome, j);
    }
  }

  lemma NewWindows(n: nat, s: State, e: Event, j: Uuid)
    requires CopiesOk(n, s) && Enabled(s, e) && j !in s.jobs && j in Apply(n, s, e).jobs
    ensures WindowsOk(Apply(n, s, e), j)
  {
    NoneInside(n, s, j);
    if e.Work? {
      assert CopyOk(n, s, s.copies[e.tag]);
      WorkShape(n, s, e.tag, e.outcome);
      assert false;
    }
  }

  lemma {:induction false} RunWindows(n: nat, s: State, es: seq<Event>, t: State, j: Uuid)
    requires n >= 1 && Inv(n, s) && WindowsOk(s, j) && OrderlyRun(n, s, es, t, j)
    ensures Inv(n, t) && WindowsOk(t, j)
    decreases |es|
  {
    if es != [] {
      StepWindows(n, s, es[0], j);
      StepInv(n, s, es[0]);
      RunWindows(n, Apply(n, s, es[0]), es[1..], t, j);
    }
  }

  // ---------------------------------------------------------------- main result

  /** If a delivery of a job drops the table only while no other is between its own drop and its
      `ready` write, and never once the job is ready, then whenever the job is ready its table holds
      the source rows exactly once, and the row count and columns agree in all three stores,
      whatever else overlaps, fails, crashes or is delivered again. */
  lemma OrderlyStoresAgree(n: nat, es: seq<Event>, s: State, j: Uuid)
    requires n >= 1 && OrderlyRun(n, INIT, es, s, j)
    requires j in s.jobs && s.jobs[j].status.Ready?
    ensures var row := s.jobs[j];
            var name := DatasetTableName(row.user, j);
            && row.table == Some(name) && name in s.tables && j in s.dashboards
            && s.tables[name] == Table(row.source.columns, row.source.rows)
            && row.rowCount == Some(|s.tables[name].rows|)
            && s.dashboards[j] == Dashboard(|s.tables[name].rows|, s.tables[name].columns)
            && row.schema == Some(s.tables[name].columns)
  {
    InitInv(n);
    RunWindows(n, INIT, es, s, j);
    assert Agreed(View(s, j, s.jobs[j].user));
    assert Complete(j, s.jobs[j], s.dashboards);
  }
}
