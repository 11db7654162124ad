// What holds for a job with at most one delivery at work at a time: once ready, the job row, its
// dashboard and its ClickHouse table agree and hold the source exactly once; and, as long as database
// calls that fail leave no trace, ready is final and status writes follow the state machine.

module Exclusive {
  import opened Domain
  import opened Protocol
  import opened Safety
  import opened Windows

  // ---------------------------------------------------------------- restricted runs

  /** Before its lookup and once it only has to settle, a delivery has nothing to do with the stores. */
  predicate Idle(pc: Pc) {
    pc in {Lookup, Finished, AckRetry, Nack}
  }

  ghost predicate Busy(s: State, c: nat, j: Uuid) {
    RunningAt(s, c) && s.copies[c].msg.job == j && !Idle(TaskOf(s, c).pc)
  }

  /** At most one delivery of job `j` is at work. */
  ghost predicate Solo(s: State, j: Uuid) {
    forall c, d :: Busy(s, c, j) && Busy(s, d, j) ==> c == d
  }

  predicate OnPostgres(pc: Pc) {
    pc in {ToDownloading, ToInferring, ToIngesting, StoreDashboard, MarkReady, CountAttempt, MarkFailed}
  }

  /** The readiness lookup succeeds, and a failing database write has no effect. */
  predicate CalmOutcome(pc: Pc, o: Outcome) {
    (pc.Lookup? ==> o.Success?) && (OnPostgres(pc) && o.Failure? ==> !o.applied)
  }

  predicate Calm(s: State, e: Event, j: Uuid) {
    e.Work? && RunningAt(s, e.tag) && s.copies[e.tag].msg.job == j ==> CalmOutcome(TaskOf(s, e.tag).pc, e.outcome)
  }

  /** A run in which at most one delivery of `j` is at work at a time and, if asked for, its database calls are calm. */
  ghost predicate SoloRun(n: nat, s: State, es: seq<Event>, t: State, j: Uuid, calm: bool)
    decreases |es|
  {
    Solo(s, j) &&
    if es == [] then s == t
    else Enabled(s, es[0]) && (calm ==> Calm(s, es[0], j)) && SoloRun(n, Apply(n, s, es[0]), es[1..], t, j, calm)
  }

  // ---------------------------------------------------------------- local invariants

  predicate Loading(pc: Pc) {
    pc in {ToDownloading, ToInferring, Describe} || Pipeline(pc)
  }

  /** A delivery past its lookup works on a job that is not ready. */
  predicate Early(v: JobView, t: Task) {
    Loading(t.pc) ==> !v.row.status.Ready?
  }

  lemma EarlyStep(n: nat, msg: Message, v: JobView, t: Task, o: Outcome)
    requires Working(t.pc) && Early(v, t)
    ensures Early(Effect(msg, v, t, o), Continue(n, msg, v, t, o))
  {
  }

  // -- calm deliveries

  /** No delivery of a ready job is at work. */
  predicate Frozen(v: JobView, t: Task) {
    v.row.status.Ready? ==> Idle(t.pc)
  }

  predicate Active(st: JobStatus) {
    st.Downloading? || st.Inferring? || st.Ingesting?
  }

  /** The status a delivery has itself established. */
  predicate OnTrack(v: JobView, t: Task) {
    && (t.pc.ToInferring? ==> v.row.status == Downloading)
    && (t.pc in {Describe, ToIngesting} ==> v.row.status == Inferring)
    && (t.pc in {DropTable, CreateTable, InsertRows, CountRows, Generate, StoreDashboard, MarkReady} ==>
          v.row.status == Ingesting)
    && (t.restarted && t.pc in {CountAttempt, Retry, MarkFailed} ==> Active(v.row.status))
    && (t.pc in {Lookup, ToDownloading} ==> !t.restarted)
  }

  lemma FrozenStep(n: nat, msg: Message, v: JobView, t: Task, o: Outcome)
    requires Working(t.pc) && CalmOutcome(t.pc, o) && Frozen(v, t)
    ensures var w := Effect(msg, v, t, o);
            && Frozen(w, Continue(n, msg, v, t, o))
            && (v.row.status.Ready? ==> w == v)
  {
  }

  lemma OnTrackStep(n: nat, msg: Message, v: JobView, t: Task, o: Outcome)
    requires Working(t.pc) && CalmOutcome(t.pc, o) && OnTrack(v, t)
    ensures OnTrack(Effect(msg, v, t, o), Continue(n, msg, v, t, o))
  {
    if o.Success? {
      OnTrackSuccess(n, msg, v, t);
    }
  }

  lemma OnTrackSuccess(n: nat, msg: Message, v: JobView, t: Task)
    requires Working(t.pc) && OnTrack(v, t)
    ensures OnTrack(Effect(msg, v, t, Success), Continue(n, msg, v, t, Success))
  {
  }

  /** The statuses one step of a delivery may move a job between. */
  predicate LegalMove(from: JobStatus, to: JobStatus, t: Task) {
    || to == from
    || (t.restarted && from.CanTransitionTo(to))
    || (!t.restarted && t.pc.ToDownloading? && to == Downloading && from != Ready)
    || (!t.restarted && t.pc.MarkFailed? && to == Failed && from != Ready)
  }

  lemma LegalStep(n: nat, msg: Message, v: JobView, t: Task, o: Outcome)
    requires Working(t.pc) && CalmOutcome(t.pc, o) && Frozen(v, t) && OnTrack(v, t)
    requires t.restarted || t.pc in {Lookup, ToDownloading, CountAttempt, MarkFailed}
    ensures LegalMove(v.row.status, Effect(msg, v, t, o).row.status, t)
  {
  }

  // ---------------------------------------------------------------- the job in the whole system

  predicate LocalOk(v: JobView, t: Task, calm: bool) {
    && Early(v, t)
    && (calm ==> Frozen(v, t) && OnTrack(v, t) && (t.restarted || !Restarts(t.pc)))
  }

  /** Points a delivery only reaches after its `downloading` write. */
  predicate Restarts(pc: Pc) {
    pc in {ToInferring, Describe} || Pipeline(pc)
  }

  ghost predicate JobOk(s: State, j: Uuid, calm: bool) {
    j in s.jobs ==>
      forall c :: RunningAt(s, c) && s.copies[c].msg.job == j ==>
        LocalOk(View(s, j, s.jobs[j].user), TaskOf(s, c), calm)
  }

  lemma LocalStep(n: nat, msg: Message, v: JobView, t: Task, o: Outcome, calm: bool)
    requires Working(t.pc) && LocalOk(v, t, calm) && (calm ==> CalmOutcome(t.pc, o))
    ensures LocalOk(Effect(msg, v, t, o), Continue(n, msg, v, t, o), calm)
  {
    EarlyStep(n, msg, v, t, o);
    if calm {
      FrozenStep(n, msg, v, t, o);
      OnTrackStep(n, msg, v, t, o);
      RestartedStep(n, msg, v, t, o);
    }
  }

  /** An idle delivery knows nothing about the stores. */
  lemma IdleOk(v: JobView, w: JobView, t: Task, calm: bool)
    requires Idle(t.pc) && LocalOk(v, t, calm)
    ensures LocalOk(w, t, calm)
  {
  }

  lemma LookupSeesOnly(msg: Message, v: JobView, t: Task, o: Outcome)
    requires t.pc.Lookup?
    ensures Effect(msg, v, t, o) == v
  {
  }

  lemma RestartedStep(n: nat, msg: Message, v: JobView, t: Task, o: Outcome)
    requires Working(t.pc) && (t.restarted || !Restarts(t.pc))
    ensures var t' := Continue(n, msg, v, t, o); t'.restarted || !Restarts(t'.pc)
  {
  }

  // ---------------------------------------------------------------- preservation

  /** A step of a delivery of `j` itself. */
  lemma OwnWork(n: nat, s: State, tag: nat, o: Outcome, j: Uuid, calm: bool)
    requires CopiesOk(n, s) && Solo(s, j) && JobOk(s, j, calm) && Enabled(s, Work(tag, o))
    requires s.copies[tag].msg.job == j && (calm ==> Calm(s, Work(tag, o), j))
    ensures JobOk(ApplyWork(n, s, tag, o), j, calm)
  {
    var msg, t := s.copies[tag].msg, TaskOf(s, tag);
    var v, w := View(s, j, msg.user), Effect(msg, View(s, j, msg.user), t, o);
    var s' := ApplyWork(n, s, tag, o);
    assert CopyOk(n, s, s.copies[tag]);
    WorkKeeps(msg, v, t, o);
    LocalStep(n, msg, v, t, o, calm);
    OwnView(n, s, tag, o);
    OthersStay(n, s, tag, o);
    forall c | RunningAt(s', c) && s'.copies[c].msg.job == j && c != tag ensures LocalOk(w, TaskOf(s', c), calm) {
      assert RunningAt(s, c) && LocalOk(v, TaskOf(s, c), calm);
      if Idle(TaskOf(s, c).pc) {
        IdleOk(v, w, TaskOf(s, c), calm);
      } else {
        assert Busy(s, c, j) && !Busy(s, tag, j);
        LookupSeesOnly(msg, v, t, o);
      }
    }
  }

  /** A step of another job's delivery cannot be seen from `j`. */
  lemma OtherWork(n: nat, s: State, tag: nat, o: Outcome, j: Uuid, calm: bool)
    requires JobOk(s, j, calm) && Enabled(s, Work(tag, o)) && s.copies[tag].msg.job != j
    ensures JobOk(ApplyWork(n, s, tag, o), j, calm)
  {
    if j in s.jobs {
      OtherView(n, s, tag, o, j, s.jobs[j].user);
      var s' := ApplyWork(n, s, tag, o);
      SameViewOk(s, s', j, calm);
    }
  }

  /** The job's stores and its deliveries are unchanged, or deliveries stopped or have just begun. */
  lemma SameViewOk(s: State, s': State, j: Uuid, calm: bool)
    requires JobOk(s, j, calm) && j in s.jobs && j in s'.jobs && s'.jobs[j].user == s.jobs[j].user
    requires View(s', j, s.jobs[j].user) == View(s, j, s.jobs[j].user)
    requires forall c :: RunningAt(s', c) && s'.copies[c].msg.job == j ==>
               || TaskOf(s', c) == FRESH
               || (RunningAt(s, c) && s.copies[c].msg == s'.copies[c].msg && TaskOf(s', c) == TaskOf(s, c))
    ensures JobOk(s', j, calm)
  {
  }

  lemma RepublishJobOk(s: State, tag: nat, p: PubOutcome, child: nat, j: Uuid, calm: bool)
    requires JobOk(s, j, calm) && Enabled(s, Republish(tag, p, child))
    ensures JobOk(ApplyRepublish(s, tag, p, child), j, calm)
  {
    var s' := ApplyRepublish(s, tag, p, child);
    if j in s.jobs {
      forall c | RunningAt(s', c) && s'.copies[c].msg.job == j
        ensures LocalOk(View(s', j, s'.jobs[j].user), TaskOf(s', c), calm)
      {
        assert RunningAt(s, c);
      }
    }
  }

  lemma MoveJobOk(s: State, tag: nat, p: Place, j: Uuid, calm: bool)
    requires JobOk(s, j, calm) && tag in s.copies && (p.Running? ==> p.task == FRESH)
    ensures JobOk(MoveCopy(s, tag, p), j, calm)
  {
    if j in s.jobs {
      SameViewOk(s, MoveCopy(s, tag, p), j, calm);
    }
  }

  lemma SubmitJobOk(n: nat, s: State, i: Uuid, u: Uuid, src: Source, r: nat, j: Uuid, calm: bool)
    requires CopiesOk(n, s) && JobOk(s, j, calm) && i !in s.jobs
    ensures JobOk(ApplySubmit(s, i, u, src, r), j, calm)
  {
    var s' := ApplySubmit(s, i, u, src, r);
    if i == j {
      forall c | RunningAt(s', c) ensures s'.copies[c].msg.job in s.jobs {
        assert CopyOk(n, s, s.copies[c]);
      }
    } else if j in s.jobs {
      SameViewOk(s, s', j, calm);
    }
  }

  lemma PublishJobOk(s: State, k: nat, p: PubOutcome, tag: nat, j: Uuid, calm: bool)
    requires JobOk(s, j, calm) && Enabled(s, Publish(k, p, tag))
    ensures JobOk(ApplyPublish(s, k, p, tag), j, calm)
  {
    if j in s.jobs {
      SameViewOk(s, ApplyPublish(s, k, p, tag), j, calm);
    }
  }

  lemma StepJobOk(n: nat, s: State, e: Event, j: Uuid, calm: bool)
    requires CopiesOk(n, s) && Solo(s, j) && JobOk(s, j, calm) && Enabled(s, e) && (calm ==> Calm(s, e, j))
    ensures JobOk(Apply(n, s, e), j, calm)
  {
    match e
    case Work(tag, o) =>
      if s.copies[tag].msg.job == j {
        OwnWork(n, s, tag, o, j, calm);
      } else {
        OtherWork(n, s, tag, o, j, calm);
      }
    case Submit(i, u, src, r) => SubmitJobOk(n, s, i, u, src, r, j, calm);
    case Publish(k, p, tag) => PublishJobOk(s, k, p, tag, j, calm);
    case Republish(tag, p, child) => RepublishJobOk(s, tag, p, child, j, calm);
    case Deliver(tag) => MoveJobOk(s, tag, Running(FRESH), j, calm);
    case Settle(tag, lost) =>
      MoveJobOk(s, tag, if lost then Halted else if TaskOf(s, tag).pc.Nack? then Dead else Acked, j, calm);
    case Crash(tag) => MoveJobOk(s, tag, Halted, j, calm);
    case Requeue(tag) => MoveJobOk(s, tag, Waiting, j, calm);
    case Claim(k, batch) => if j in s.jobs { SameViewOk(s, ApplyClaim(s, k, batch), j, calm); }
    case Commit(k) => if j in s.jobs { SameViewOk(s, ApplyCommit(s, k), j, calm); }
    case Rollback(k) => if j in s.jobs { SameViewOk(s, ApplyRollback(s, k), j, calm); }
  }

  lemma {:induction false} RunJobOk(n: nat, s: State, es: seq<Event>, t: State, j: Uuid, calm: bool)
    requires n >= 1 && Inv(n, s) && JobOk(s, j, calm) && SoloRun(n, s, es, t, j, calm)
    ensures Inv(n, t) && JobOk(t, j, calm) && Solo(t, j)
    decreases |es|
  {
    if es != [] {
      StepInv(n, s, es[0]);
      StepJobOk(n, s, es[0], j, calm);
      RunJobOk(n, Apply(n, s, es[0]), es[1..], t, j, calm);
    }
  }

  // ---------------------------------------------------------------- main results

  lemma OrderlyStep(s: State, e: Event, j: Uuid)
    requires Solo(s, j) && JobOk(s, j, false)
    ensures Orderly(s, e, j)
  {
    if e.Work? && RunningAt(s, e.tag) && s.copies[e.tag].msg.job == j && TaskOf(s, e.tag).pc.DropTable? {
      assert Busy(s, e.tag, j);
      assert forall c :: Inside(s, c, j) ==> Busy(s, c, j);
    }
  }

  lemma {:induction false} SoloIsOrderly(n: nat, s: State, es: seq<Event>, t: State, j: Uuid)
    requires n >= 1 && Inv(n, s) && JobOk(s, j, false) && SoloRun(n, s, es, t, j, false)
    ensures OrderlyRun(n, s, es, t, j)
    decreases |es|
  {
    if es != [] {
      OrderlyStep(s, es[0], j);
      StepInv(n, s, es[0]);
      StepJobOk(n, s, es[0], j, false);
      SoloIsOrderly(n, Apply(n, s, es[0]), es[1..], t, j);
    }
  }

  /** If at most one delivery of a job is ever at work, then whenever it is ready its table holds the
      source rows exactly once, and the row count and columns agree in all three stores, whatever
      partial loads, retries, crashes and redeliveries came before. */
  lemma StoresAgree(n: nat, es: seq<Event>, s: State, j: Uuid)
    requires n >= 1 && SoloRun(n, INIT, es, s, j, false)
    requires j in s.jobs && s.jobs[j].status.Ready?
    ensures var row := s.jobs[j];
            var name := DatasetTableName(row.user, j);
            && row.table == Some(name) && name in s.tables && j in s.dashboards
            && s.tables[name] == Table(row.source.columns, row.source.rows)
            && row.rowCount == Some(|s.tables[name].rows|)
            && s.dashboards[j] == Dashboard(|s.tables[name].rows|, s.tables[name].columns)
            && row.schema == Some(s.tables[name].columns)
  {
    InitInv(n);
    SoloIsOrderly(n, INIT, es, s, j);
    OrderlyStoresAgree(n, es, s, j);
  }

  lemma StepFrozen(n: nat, s: State, e: Event, j: Uuid)
    requires CopiesOk(n, s) && JobOk(s, j, true) && Enabled(s, e) && Calm(s, e, j)
    requires j in s.jobs && s.jobs[j].status.Ready?
    ensures var s' := Apply(n, s, e);
            j in s'.jobs && s'.jobs[j].user == s.jobs[j].user
            && View(s', j, s.jobs[j].user) == View(s, j, s.jobs[j].user)
  {
    if e.Work? {
      var msg, t := s.copies[e.tag].msg, TaskOf(s, e.tag);
      assert CopyOk(n, s, s.copies[e.tag]);
      if msg.job == j {
        OwnView(n, s, e.tag, e.outcome);
        FrozenStep(n, msg, View(s, j, msg.user), t, e.outcome);
      } else {
        OtherView(n, s, e.tag, e.outcome, j, s.jobs[j].user);
      }
    }
  }

  /** With calm deliveries, one at work at a time, ready is final: no later step, and in particular no
      duplicate delivery, changes the job row, the dashboard or the table. */
  lemma {:induction false} ReadyIsFinal(n: nat, s: State, es: seq<Event>, t: State, j: Uuid)
    requires n >= 1 && Inv(n, s) && JobOk(s, j, true) && SoloRun(n, s, es, t, j, true)
    requires j in s.jobs && s.jobs[j].status.Ready?
    ensures j in t.jobs && t.jobs[j].user == s.jobs[j].user
    ensures View(t, j, s.jobs[j].user) == View(s, j, s.jobs[j].user)
    decreases |es|
  {
    if es != [] {
      StepFrozen(n, s, es[0], j);
      StepInv(n, s, es[0]);
      StepJobOk(n, s, es[0], j, true);
      ReadyIsFinal(n, Apply(n, s, es[0]), es[1..], t, j);
    }
  }

  lemma ReadyStaysReady(n: nat, es: seq<Event>, s: State, later: seq<Event>, t: State, j: Uuid)
    requires n >= 1 && SoloRun(n, INIT, es, s, j, true) && SoloRun(n, s, later, t, j, true)
    requires j in s.jobs && s.jobs[j].status.Ready?
    ensures j in t.jobs && t.jobs[j].user == s.jobs[j].user
    ensures View(t, j, s.jobs[j].user) == View(s, j, s.jobs[j].user)
  {
    InitInv(n);
    RunJobOk(n, INIT, es, s, j, true);
    ReadyIsFinal(n, s, later, t, j);
  }

  lemma WorkIsLegal(n: nat, s: State, tag: nat, o: Outcome, j: Uuid)
    requires CopiesOk(n, s) && JobOk(s, j, true) && Enabled(s, Work(tag, o))
    requires s.copies[tag].msg.job == j && CalmOutcome(TaskOf(s, tag).pc, o)
    ensures LegalMove(s.jobs[j].status, ApplyWork(n, s, tag, o).jobs[j].status, TaskOf(s, tag))
  {
    var msg, t := s.copies[tag].msg, TaskOf(s, tag);
    assert CopyOk(n, s, s.copies[tag]);
    OwnView(n, s, tag, o);
    assert LocalOk(View(s, j, msg.user), t, true);
    LegalStep(n, msg, View(s, j, msg.user), t, o);
  }

  /** Once a delivery has written `downloading`, each of its status writes is an edge of the state
      machine; before that it only restarts, or fails, a job that is not ready. */
  lemma WritesFollowTheStateMachine(n: nat, es: seq<Event>, s: State, tag: nat, o: Outcome, j: Uuid)
    requires n >= 1 && SoloRun(n, INIT, es, s, j, true)
    requires Enabled(s, Work(tag, o)) && s.copies[tag].msg.job == j && Calm(s, Work(tag, o), j)
    ensures LegalMove(s.jobs[j].status, ApplyWork(n, s, tag, o).jobs[j].status, TaskOf(s, tag))
  {
    InitInv(n);
    RunJobOk(n, INIT, es, s, j, true);
    WorkIsLegal(n, s, tag, o, j);
  }
}
