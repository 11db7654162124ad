// The worker's delivery handler and ingestion pipeline, step by step on the stores. Each method is
// proved to be a run of the ingestion protocol in which only its own delivery moves.

module Worker {
  import opened Domain
  import opened Protocol
  import opened Safety
  import opened Stores

  datatype RunResult = Done | Error(retryable: bool, reason: string)

  // ---------------------------------------------------------------- following the protocol

  lemma RunSnoc(n: nat, s: State, es: seq<Event>, m: State, e: Event)
    requires Run(n, s, es, m) && Enabled(m, e)
    ensures Run(n, s, es + [e], Apply(n, m, e))
  {
    RunConcat(n, s, es, m, [e], Apply(n, m, e));
  }

  /** Between `s` and `s'` only the place of the copy `tag` and the stores of its job have changed. */
  ghost predicate Only(s: State, s': State, tag: nat) {
    && tag in s.copies && tag in s'.copies
    && s'.copies == s.copies[tag := s.copies[tag].(place := s'.copies[tag].place)]
    && s'.rows == s.rows && s'.relays == s.relays
  }

  /** `es` leads from `s0` to `s`, where the delivery `tag` of `msg` is running. */
  ghost predicate Trace(n: nat, s0: State, es: seq<Event>, s: State, tag: nat, msg: Message) {
    Run(n, s0, es, s) && Only(s0, s, tag) && RunningAt(s, tag) && s.copies[tag].msg == msg && msg.job in s.jobs
  }

  /** The protocol takes the step the code has just taken. */
  lemma Follow(n: nat, s0: State, es: seq<Event>, s: State, tag: nat, msg: Message, o: Outcome)
    returns (es': seq<Event>, s': State)
    requires Trace(n, s0, es, s, tag, msg) && Working(TaskOf(s, tag).pc)
    ensures Trace(n, s0, es', s', tag, msg)
    ensures var v := View(s, msg.job, msg.user);
            Moved(s, s', msg, Effect(msg, v, TaskOf(s, tag), o)) &&
            TaskOf(s', tag) == Continue(n, msg, v, TaskOf(s, tag), o)
  {
    WorkShape(n, s, tag, o);
    RunSnoc(n, s0, es, s, Work(tag, o));
    es', s' := es + [Work(tag, o)], ApplyWork(n, s, tag, o);
  }

  ghost predicate Moved(s: State, s': State, msg: Message, w: JobView) {
    && s'.jobs == s.jobs[msg.job := w.row]
    && s'.dashboards == MapPut(s.dashboards, msg.job, w.dash)
    && s'.tables == MapPut(s.tables, DatasetTableName(msg.user, msg.job), w.table)
  }

  lemma PutBack<K, V>(m: map<K, V>, k: K)
    ensures MapPut(m, k, MapGet(m, k)) == m
  {
  }

  /** A step that changes only the job row. */
  lemma FollowRow(n: nat, s0: State, es: seq<Event>, s: State, tag: nat, msg: Message, o: Outcome)
    returns (es': seq<Event>, s': State)
    requires Trace(n, s0, es, s, tag, msg)
    requires TaskOf(s, tag).pc in {Lookup, Describe, Generate, ToDownloading, ToInferring, ToIngesting, MarkReady,
                                   CountAttempt, MarkFailed, CountRows}
    ensures Trace(n, s0, es', s', tag, msg)
    ensures var v := View(s, msg.job, msg.user);
            && s'.jobs == s.jobs[msg.job := Effect(msg, v, TaskOf(s, tag), o).row]
            && s'.dashboards == s.dashboards && s'.tables == s.tables
            && TaskOf(s', tag) == Continue(n, msg, v, TaskOf(s, tag), o)
  {
    es', s' := Follow(n, s0, es, s, tag, msg, o);
    RowOnly(msg, View(s, msg.job, msg.user), TaskOf(s, tag), o);
    PutBack(s.dashboards, msg.job);
    PutBack(s.tables, DatasetTableName(msg.user, msg.job));
  }

  lemma RowOnly(msg: Message, v: JobView, t: Task, o: Outcome)
    requires t.pc in {Lookup, Describe, Generate, ToDownloading, ToInferring, ToIngesting, MarkReady,
                      CountAttempt, MarkFailed, CountRows}
    ensures Effect(msg, v, t, o).dash == v.dash && Effect(msg, v, t, o).table == v.table
  {
  }

  /** A step that changes only the dataset table. */
  lemma FollowTable(n: nat, s0: State, es: seq<Event>, s: State, tag: nat, msg: Message, o: Outcome)
    returns (es': seq<Event>, s': State)
    requires Trace(n, s0, es, s, tag, msg)
    requires TaskOf(s, tag).pc in {DropTable, CreateTable, InsertRows}
    ensures Trace(n, s0, es', s', tag, msg)
    ensures var v := View(s, msg.job, msg.user);
            && s'.jobs == s.jobs && s'.dashboards == s.dashboards
            && s'.tables == MapPut(s.tables, DatasetTableName(msg.user, msg.job),
                                   Effect(msg, v, TaskOf(s, tag), o).table)
            && TaskOf(s', tag) == Continue(n, msg, v, TaskOf(s, tag), o)
  {
    es', s' := Follow(n, s0, es, s, tag, msg, o);
    PutBack(s.dashboards, msg.job);
    PutBack(s.jobs, msg.job);
  }

  /** The step that stores the dashboard. */
  lemma FollowDashboard(n: nat, s0: State, es: seq<Event>, s: State, tag: nat, msg: Message, o: Outcome)
    returns (es': seq<Event>, s': State)
    requires Trace(n, s0, es, s, tag, msg)
    requires TaskOf(s, tag).pc.StoreDashboard? && TaskOf(s, tag).config.Some?
    ensures Trace(n, s0, es', s', tag, msg)
    ensures && s'.jobs == s.jobs && s'.tables == s.tables
            && s'.dashboards == (if Applied(o) then s.dashboards[msg.job := TaskOf(s, tag).config.value]
                                 else s.dashboards)
            && TaskOf(s', tag) == AfterPg(n, msg, TaskOf(s, tag), o, TaskOf(s, tag).(pc := MarkReady))
  {
    es', s' := Follow(n, s0, es, s, tag, msg, o);
    PutBack(s.tables, DatasetTableName(msg.user, msg.job));
    PutBack(s.jobs, msg.job);
    PutBack(s.dashboards, msg.job);
  }

  /** The error arm the protocol has taken is the one `handle` will take. */
  predicate GaveUp(n: nat, msg: Message, t: Task, r: RunResult) {
    && r.Error? && t.reason == r.reason
    && t.pc == if r.retryable && msg.attempt + 1 < n then CountAttempt else MarkFailed
  }

  /** One database call is behind the result: it fails exactly if that call does, and is then worth
      retrying, whatever the reason. */
  predicate PgExplains(r: RunResult, before: seq<string>, after: seq<string>) {
    if r.Done? then after == before else r.retryable && after == before + [r.reason]
  }

  /** One ClickHouse call is behind the result: it fails exactly if that call does, as classified. */
  predicate ChExplains(r: RunResult, before: seq<Fault>, after: seq<Fault>) {
    if r.Done? then after == before else after == before + [Fault(r.retryable, r.reason)]
  }

  /** The result is a success exactly if no call failed, and otherwise tells of the one that did. */
  predicate Explained(r: RunResult, pg: seq<string>, pg': seq<string>, ch: seq<Fault>, ch': seq<Fault>) {
    (pg' == pg && ChExplains(r, ch, ch')) || (ch' == ch && PgExplains(r, pg, pg'))
  }

  /** A source without columns is refused for good. */
  predicate Columnless(r: RunResult, msg: Message) {
    msg.source.columns == [] && r == Error(false, "no columns were detected in the CSV")
  }

  /** The job row, the dashboard and the table tell of the message's source, and nothing else has changed. */
  predicate Ingested(jobs: map<Uuid, JobRow>, jobs': map<Uuid, JobRow>, dashboards: map<Uuid, Dashboard>,
                     dashboards': map<Uuid, Dashboard>, tables: map<string, Table>, tables': map<string, Table>,
                     msg: Message, columns: seq<Column>)
  {
    var table, rows := DatasetTableName(msg.user, msg.job), msg.source.rows;
    && msg.job in jobs
    && jobs' == jobs[msg.job := jobs[msg.job].(status := Ready, table := Some(table), rowCount := Some(|rows|),
                                               schema := Some(columns), error := None)]
    && dashboards' == dashboards[msg.job := Dashboard(|rows|, columns)]
    && tables' == tables[table := Table(columns, rows)]
  }

  /** The pipeline itself counts no attempt. */
  predicate KeepsAttempts(jobs: map<Uuid, JobRow>, jobs': map<Uuid, JobRow>, job: Uuid) {
    job in jobs && job in jobs' && jobs'[job].attempts == jobs[job].attempts
  }

  /** Why the run of a job ended as it did: a call failed, or the source has no columns. */
  predicate RunExplained(r: RunResult, msg: Message, jobs: map<Uuid, JobRow>,
                         pg: seq<string>, pg': seq<string>, ch: seq<Fault>, ch': seq<Fault>) {
    || Explained(r, pg, pg', ch, ch')
    || (pg' == pg && ch' == ch && Columnless(r, msg) && !IsReadyIn(jobs, msg.job))
  }

  predicate IsReadyIn(jobs: map<Uuid, JobRow>, job: Uuid) {
    job in jobs && jobs[job].status.Ready?
  }

  /** What a run of a job comes to, in terms of the stores and of the calls that failed. */
  predicate JobRan(r: RunResult, msg: Message, jobs: map<Uuid, JobRow>, jobs': map<Uuid, JobRow>,
                   dashboards: map<Uuid, Dashboard>, dashboards': map<Uuid, Dashboard>,
                   tables: map<string, Table>, tables': map<string, Table>,
                   pg: seq<string>, pg': seq<string>, ch: seq<Fault>, ch': seq<Fault>)
  {
    && RunExplained(r, msg, jobs, pg, pg', ch, ch')
    && (r.Done? && IsReadyIn(jobs, msg.job) ==> jobs' == jobs && dashboards' == dashboards && tables' == tables)
    && (r.Done? && !IsReadyIn(jobs, msg.job) ==>
          msg.source.columns != [] &&
          Ingested(jobs, jobs', dashboards, dashboards', tables, tables', msg, msg.source.columns))
  }

  class Ingest {
    const pg: Postgres
    const ch: ClickHouse
    const n: nat

    constructor (pg: Postgres, ch: ClickHouse, maxAttempts: nat)
      ensures this.pg == pg && this.ch == ch && this.n == maxAttempts
    {
      this.pg, this.ch, this.n := pg, ch, maxAttempts;
    }

    /** The stores hold what the protocol state says. */
    ghost predicate Shows(s: State)
      reads pg, ch
    {
      s.jobs == pg.jobs && s.dashboards == pg.dashboards && s.tables == ch.tables
    }

    /** A status write of the pipeline. */
    method Advance(tag: nat, msg: Message, status: JobStatus, ghost s0: State, ghost es0: seq<Event>, ghost s1: State)
      returns (r: RunResult, ghost es: seq<Event>, ghost s: State)
      requires Trace(n, s0, es0, s1, tag, msg) && Shows(s1) && StageStatus(TaskOf(s1, tag).pc) == Some(status)
      modifies pg`jobs, pg`failures
      ensures Trace(n, s0, es, s, tag, msg) && Shows(s)
      ensures KeepsAttempts(old(pg.jobs), pg.jobs, msg.job)
      ensures PgExplains(r, old(pg.failures), pg.failures)
      ensures r.Done? ==> msg.job in old(pg.jobs) &&
                          pg.jobs == old(pg.jobs)[msg.job := old(pg.jobs)[msg.job].(status := status)]
      ensures r.Done? ==> TaskOf(s, tag) == Continue(n, msg, View(s1, msg.job, msg.user), TaskOf(s1, tag), Success)
      ensures r.Error? ==> GaveUp(n, msg, TaskOf(s, tag), r)
    {
      var o := pg.SetStatus(msg.job, status);
      es, s := FollowRow(n, s0, es0, s1, tag, msg, o);
      r := if o.Success? then Done else Error(true, o.reason);
    }

    /** The idempotency check: a ready job is finished with. */
    method CheckReady(tag: nat, msg: Message, ghost s0: State)
      returns (r: RunResult, finished: bool, ghost es: seq<Event>, ghost s: State)
      requires Trace(n, s0, [], s0, tag, msg) && Shows(s0) && TaskOf(s0, tag) == FRESH
      modifies pg`failures
      ensures Trace(n, s0, es, s, tag, msg) && Shows(s)
      ensures PgExplains(r, old(pg.failures), pg.failures)
      ensures r.Done? ==> TaskOf(s, tag) == FRESH.(pc := if finished then Finished else ToDownloading)
      ensures r.Done? ==> (finished <==> IsReadyIn(pg.jobs, msg.job))
      ensures r.Error? ==> GaveUp(n, msg, TaskOf(s, tag), r)
    {
      var o;
      o, finished := pg.IsReady(msg.job);
      es, s := FollowRow(n, s0, [], s0, tag, msg, o);
      r := if o.Success? then Done else Error(true, o.reason);
    }

    /** Ask ClickHouse for the schema; a source without columns is a permanent error. */
    method DescribeSchema(tag: nat, msg: Message, ghost s0: State, ghost es0: seq<Event>, ghost s1: State)
      returns (r: RunResult, columns: seq<Column>, ghost es: seq<Event>, ghost s: State)
      requires Trace(n, s0, es0, s1, tag, msg) && Shows(s1)
      requires TaskOf(s1, tag) == Task(Describe, [], 0, None, true, "")
      modifies ch`failures
      ensures Trace(n, s0, es, s, tag, msg) && Shows(s)
      ensures ChExplains(r, old(ch.failures), ch.failures) || (ch.failures == old(ch.failures) && Columnless(r, msg))
      ensures r.Done? ==> columns == msg.source.columns != []
      ensures r.Done? ==> TaskOf(s, tag) == Task(ToIngesting, columns, 0, None, true, "")
      ensures r.Error? ==> GaveUp(n, msg, TaskOf(s, tag), r)
    {
      var o;
      o, columns := ch.DescribeSource(msg.source);
      es, s := FollowRow(n, s0, es0, s1, tag, msg, o);
      if o.Failure? {
        r := Error(o.retryable, o.reason);
      } else if columns == [] {
        r := Error(false, "no columns were detected in the CSV");
      } else {
        r := Done;
      }
    }

    /** Drop any prior or partial table. */
    method DropOld(tag: nat, msg: Message, columns: seq<Column>, ghost s0: State, ghost es0: seq<Event>,
                   ghost s1: State)
      returns (r: RunResult, ghost es: seq<Event>, ghost s: State)
      requires Trace(n, s0, es0, s1, tag, msg) && Shows(s1)
      requires TaskOf(s1, tag) == Task(DropTable, columns, 0, None, true, "")
      modifies ch`tables, ch`failures
      ensures Trace(n, s0, es, s, tag, msg) && Shows(s)
      ensures r.Done? ==> TaskOf(s, tag) == Task(CreateTable, columns, 0, None, true, "")
      ensures ChExplains(r, old(ch.failures), ch.failures)
      ensures r.Done? ==> ch.tables == old(ch.tables) - {DatasetTableName(msg.user, msg.job)}
      ensures r.Error? ==> GaveUp(n, msg, TaskOf(s, tag), r)
    {
      var o := ch.DropIfExists(DatasetTableName(msg.user, msg.job));
      es, s := FollowTable(n, s0, es0, s1, tag, msg, o);
      r := if o.Success? then Done else Error(o.retryable, o.reason);
    }

    /** Create the table of the inferred columns. After a drop it starts out empty, so that a
        redelivery loads no row twice. */
    method CreateNew(tag: nat, msg: Message, columns: seq<Column>, ghost s0: State, ghost es0: seq<Event>,
                     ghost s1: State)
      returns (r: RunResult, ghost es: seq<Event>, ghost s: State)
      requires Trace(n, s0, es0, s1, tag, msg) && Shows(s1)
      requires TaskOf(s1, tag) == Task(CreateTable, columns, 0, None, true, "")
      modifies ch`tables, ch`failures
      ensures Trace(n, s0, es, s, tag, msg) && Shows(s)
      ensures r.Done? ==> TaskOf(s, tag) == Task(InsertRows, columns, 0, None, true, "")
      ensures ChExplains(r, old(ch.failures), ch.failures)
      ensures var table := DatasetTableName(msg.user, msg.job);
              r.Done? && table !in old(ch.tables) ==> ch.tables == old(ch.tables)[table := Table(columns, multiset{})]
      ensures r.Error? ==> GaveUp(n, msg, TaskOf(s, tag), r)
    {
      var o := ch.CreateIfNotExists(DatasetTableName(msg.user, msg.job), columns);
      es, s := FollowTable(n, s0, es0, s1, tag, msg, o);
      r := if o.Success? then Done else Error(o.retryable, o.reason);
    }

    /** Load the source into the table. */
    method LoadRows(tag: nat, msg: Message, columns: seq<Column>, ghost s0: State, ghost es0: seq<Event>,
                    ghost s1: State)
      returns (r: RunResult, ghost es: seq<Event>, ghost s: State)
      requires Trace(n, s0, es0, s1, tag, msg) && Shows(s1)
      requires TaskOf(s1, tag) == Task(InsertRows, columns, 0, None, true, "")
      modifies ch`tables, ch`failures
      ensures Trace(n, s0, es, s, tag, msg) && Shows(s)
      ensures var table := DatasetTableName(msg.user, msg.job);
              table in old(ch.tables) ==>
                && ChExplains(r, old(ch.failures), ch.failures)
                && (r.Done? ==> ch.tables == old(ch.tables)[table := old(ch.tables)[table].(
                                  rows := old(ch.tables)[table].rows + msg.source.rows)])
      ensures r.Done? ==> TaskOf(s, tag) == Task(CountRows, columns, 0, None, true, "")
      ensures r.Error? ==> GaveUp(n, msg, TaskOf(s, tag), r)
    {
      var table := DatasetTableName(msg.user, msg.job);
      var missing := table !in ch.tables;
      var o := ch.Load(table, msg.source);
      es, s := FollowTable(n, s0, es0, s1, tag, msg, o);
      if o.Failure? {
        r := Error(o.retryable, o.reason);
      } else {
        r := if missing then Error(false, "unknown table") else Done;
      }
    }

    /** The row count of the loaded table. */
    method CountTable(tag: nat, msg: Message, columns: seq<Column>, ghost s0: State, ghost es0: seq<Event>,
                      ghost s1: State)
      returns (r: RunResult, count: nat, ghost es: seq<Event>, ghost s: State)
      requires Trace(n, s0, es0, s1, tag, msg) && Shows(s1)
      requires TaskOf(s1, tag) == Task(CountRows, columns, 0, None, true, "")
      modifies ch`failures
      ensures Trace(n, s0, es, s, tag, msg) && Shows(s)
      ensures DatasetTableName(msg.user, msg.job) in ch.tables ==> ChExplains(r, old(ch.failures), ch.failures)
      ensures r.Done? ==> TaskOf(s, tag) == Task(Generate, columns, count, None, true, "")
      ensures r.Done? ==> var table := DatasetTableName(msg.user, msg.job);
                          table in ch.tables && count == |ch.tables[table].rows|
      ensures r.Error? ==> GaveUp(n, msg, TaskOf(s, tag), r)
    {
      var o, size := ch.Count(DatasetTableName(msg.user, msg.job));
      es, s := FollowRow(n, s0, es0, s1, tag, msg, o);
      count := if size.Some? then size.value else 0;
      if o.Failure? {
        r := Error(o.retryable, o.reason);
      } else {
        r := if size.None? then Error(false, "unknown table") else Done;
      }
    }

    /** Generate and store the dashboard. */
    method MakeDashboard(tag: nat, msg: Message, columns: seq<Column>, count: nat, ghost s0: State,
                         ghost es0: seq<Event>, ghost s1: State)
      returns (r: RunResult, ghost es: seq<Event>, ghost s: State)
      requires Trace(n, s0, es0, s1, tag, msg) && Shows(s1)
      requires TaskOf(s1, tag) == Task(Generate, columns, count, None, true, "")
      modifies pg`dashboards, pg`failures, ch`failures
      ensures Trace(n, s0, es, s, tag, msg) && Shows(s)
      ensures DatasetTableName(msg.user, msg.job) in ch.tables ==>
                Explained(r, old(pg.failures), pg.failures, old(ch.failures), ch.failures)
      ensures r.Done? ==> pg.dashboards == old(pg.dashboards)[msg.job := Dashboard(count, columns)]
      ensures r.Done? ==> TaskOf(s, tag) == Task(MarkReady, columns, count, Some(Dashboard(count, columns)), true, "")
      ensures r.Error? ==> GaveUp(n, msg, TaskOf(s, tag), r)
    {
      var o, present := ch.Stats(DatasetTableName(msg.user, msg.job));
      es, s := FollowRow(n, s0, es0, s1, tag, msg, o);
      if o.Failure? {
        r := Error(o.retryable, o.reason);
        return;
      }
      if !present {
        r := Error(false, "unknown table");
        return;
      }
      o := pg.StoreDashboard(msg.job, Dashboard(count, columns));
      es, s := FollowDashboard(n, s0, es, s, tag, msg, o);
      r := if o.Success? then Done else Error(true, o.reason);
    }

    /** The last write of the pipeline. */
    method Conclude(tag: nat, msg: Message, columns: seq<Column>, count: nat, ghost s0: State,
                    ghost es0: seq<Event>, ghost s1: State)
      returns (r: RunResult, ghost es: seq<Event>, ghost s: State)
      requires Trace(n, s0, es0, s1, tag, msg) && Shows(s1)
      requires TaskOf(s1, tag) == Task(MarkReady, columns, count, Some(Dashboard(count, columns)), true, "")
      modifies pg`jobs, pg`failures
      ensures Trace(n, s0, es, s, tag, msg) && Shows(s)
      ensures KeepsAttempts(old(pg.jobs), pg.jobs, msg.job)
      ensures PgExplains(r, old(pg.failures), pg.failures)
      ensures r.Done? ==> TaskOf(s, tag).pc == Finished && msg.job in old(pg.jobs)
      ensures r.Done? ==> pg.jobs == old(pg.jobs)[msg.job := old(pg.jobs)[msg.job].(
                                       status := Ready, table := Some(DatasetTableName(msg.user, msg.job)),
                                       rowCount := Some(count), schema := Some(columns), error := None)]
      ensures r.Error? ==> GaveUp(n, msg, TaskOf(s, tag), r)
    {
      var o := pg.MarkReady(msg.job, DatasetTableName(msg.user, msg.job), count, columns);
      es, s := FollowRow(n, s0, es0, s1, tag, msg, o);
      r := if o.Success? then Done else Error(true, o.reason);
    }

    /** The first two stages. */
    method Restart(tag: nat, msg: Message, ghost s0: State, ghost es0: seq<Event>, ghost s1: State)
      returns (r: RunResult, ghost es: seq<Event>, ghost s: State)
      requires Trace(n, s0, es0, s1, tag, msg) && Shows(s1) && TaskOf(s1, tag) == FRESH.(pc := ToDownloading)
      modifies pg`jobs, pg`failures
      ensures Trace(n, s0, es, s, tag, msg) && Shows(s)
      ensures KeepsAttempts(old(pg.jobs), pg.jobs, msg.job)
      ensures PgExplains(r, old(pg.failures), pg.failures)
      ensures r.Done? ==> msg.job in old(pg.jobs) &&
                          pg.jobs == old(pg.jobs)[msg.job := old(pg.jobs)[msg.job].(status := Inferring)]
      ensures r.Done? ==> TaskOf(s, tag) == Task(Describe, [], 0, None, true, "")
      ensures r.Error? ==> GaveUp(n, msg, TaskOf(s, tag), r)
    {
      r, es, s := Advance(tag, msg, Downloading, s0, es0, s1);
      if r.Error? { return; }
      r, es, s := Advance(tag, msg, Inferring, s0, es, s);
    }

    /** The stages up to the schema: nothing more to do for a ready job. */
    method Discover(tag: nat, msg: Message, ghost s0: State)
      returns (r: RunResult, finished: bool, columns: seq<Column>, ghost es: seq<Event>, ghost s: State)
      requires Trace(n, s0, [], s0, tag, msg) && Shows(s0) && TaskOf(s0, tag) == FRESH
      modifies pg`jobs, pg`failures, ch`failures
      ensures Trace(n, s0, es, s, tag, msg) && Shows(s)
      ensures KeepsAttempts(old(pg.jobs), pg.jobs, msg.job)
      ensures RunExplained(r, msg, old(pg.jobs), old(pg.failures), pg.failures, old(ch.failures), ch.failures)
      ensures r.Done? ==> msg.job in old(pg.jobs) && (finished <==> IsReadyIn(old(pg.jobs), msg.job))
      ensures finished && r.Done? ==> TaskOf(s, tag).pc == Finished && pg.jobs == old(pg.jobs)
      ensures !finished && r.Done? ==> columns == msg.source.columns != []
      ensures !finished && r.Done? ==> pg.jobs == old(pg.jobs)[msg.job := old(pg.jobs)[msg.job].(status := Inferring)]
      ensures !finished && r.Done? ==> TaskOf(s, tag) == Task(ToIngesting, columns, 0, None, true, "")
      ensures r.Error? ==> GaveUp(n, msg, TaskOf(s, tag), r)
    {
      columns := [];
      r, finished, es, s := CheckReady(tag, msg, s0);
      if r.Error? || finished { return; }
      r, es, s := Restart(tag, msg, s0, es, s);
      if r.Error? { return; }
      r, columns, es, s := DescribeSchema(tag, msg, s0, es, s);
    }

    /** A new and empty table in place of any old one. */
    method RenewTable(tag: nat, msg: Message, columns: seq<Column>, ghost s0: State, ghost es0: seq<Event>,
                      ghost s1: State)
      returns (r: RunResult, ghost es: seq<Event>, ghost s: State)
      requires Trace(n, s0, es0, s1, tag, msg) && Shows(s1)
      requires TaskOf(s1, tag) == Task(DropTable, columns, 0, None, true, "")
      modifies ch`tables, ch`failures
      ensures Trace(n, s0, es, s, tag, msg) && Shows(s)
      ensures ChExplains(r, old(ch.failures), ch.failures)
      ensures r.Done? ==> TaskOf(s, tag) == Task(InsertRows, columns, 0, None, true, "")
      ensures r.Done? ==>
                ch.tables == old(ch.tables)[DatasetTableName(msg.user, msg.job) := Table(columns, multiset{})]
      ensures r.Error? ==> GaveUp(n, msg, TaskOf(s, tag), r)
    {
      r, es, s := DropOld(tag, msg, columns, s0, es0, s1);
      if r.Error? { return; }
      r, es, s := CreateNew(tag, msg, columns, s0, es, s);
    }

    /** Load the source into the empty table and count the rows. */
    method FillTable(tag: nat, msg: Message, columns: seq<Column>, ghost s0: State, ghost es0: seq<Event>,
                     ghost s1: State)
      returns (r: RunResult, count: nat, ghost es: seq<Event>, ghost s: State)
      requires Trace(n, s0, es0, s1, tag, msg) && Shows(s1)
      requires TaskOf(s1, tag) == Task(InsertRows, columns, 0, None, true, "")
      requires DatasetTableName(msg.user, msg.job) in ch.tables
      requires ch.tables[DatasetTableName(msg.user, msg.job)] == Table(columns, multiset{})
      modifies ch`tables, ch`failures
      ensures Trace(n, s0, es, s, tag, msg) && Shows(s)
      ensures ChExplains(r, old(ch.failures), ch.failures)
      ensures r.Done? ==> TaskOf(s, tag) == Task(Generate, columns, count, None, true, "") && count == |msg.source.rows|
      ensures r.Done? ==>
                ch.tables == old(ch.tables)[DatasetTableName(msg.user, msg.job) := Table(columns, msg.source.rows)]
      ensures r.Error? ==> GaveUp(n, msg, TaskOf(s, tag), r)
    {
      count := 0;
      r, es, s := LoadRows(tag, msg, columns, s0, es0, s1);
      if r.Error? { return; }
      assert multiset{} + msg.source.rows == msg.source.rows;
      r, count, es, s := CountTable(tag, msg, columns, s0, es, s);
    }

    /** A new table in place of any old one, loaded and counted. */
    method BuildTable(tag: nat, msg: Message, columns: seq<Column>, ghost s0: State, ghost es0: seq<Event>,
                      ghost s1: State)
      returns (r: RunResult, count: nat, ghost es: seq<Event>, ghost s: State)
      requires Trace(n, s0, es0, s1, tag, msg) && Shows(s1)
      requires TaskOf(s1, tag) == Task(DropTable, columns, 0, None, true, "")
      modifies ch`tables, ch`failures
      ensures Trace(n, s0, es, s, tag, msg) && Shows(s)
      ensures ChExplains(r, old(ch.failures), ch.failures)
      ensures r.Done? ==> TaskOf(s, tag) == Task(Generate, columns, count, None, true, "") && count == |msg.source.rows|
      ensures r.Done? ==>
                ch.tables == old(ch.tables)[DatasetTableName(msg.user, msg.job) := Table(columns, msg.source.rows)]
      ensures r.Error? ==> GaveUp(n, msg, TaskOf(s, tag), r)
    {
      count := 0;
      r, es, s := RenewTable(tag, msg, columns, s0, es0, s1);
      if r.Error? { return; }
      r, count, es, s := FillTable(tag, msg, columns, s0, es, s);
    }

    /** The dashboard comes before `ready`, so `ready` always implies a dashboard. */
    method Announce(tag: nat, msg: Message, columns: seq<Column>, count: nat, ghost s0: State,
                    ghost es0: seq<Event>, ghost s1: State)
      returns (r: RunResult, ghost es: seq<Event>, ghost s: State)
      requires Trace(n, s0, es0, s1, tag, msg) && Shows(s1) && DatasetTableName(msg.user, msg.job) in ch.tables
      requires TaskOf(s1, tag) == Task(Generate, columns, count, None, true, "")
      modifies pg`jobs, pg`dashboards, pg`failures, ch`failures
      ensures Trace(n, s0, es, s, tag, msg) && Shows(s)
      ensures KeepsAttempts(old(pg.jobs), pg.jobs, msg.job)
      ensures Explained(r, old(pg.failures), pg.failures, old(ch.failures), ch.failures)
      ensures r.Done? ==> TaskOf(s, tag).pc == Finished && msg.job in old(pg.jobs)
      ensures r.Done? ==> pg.dashboards == old(pg.dashboards)[msg.job := Dashboard(count, columns)]
      ensures r.Done? ==> pg.jobs == old(pg.jobs)[msg.job := old(pg.jobs)[msg.job].(
                                       status := Ready, table := Some(DatasetTableName(msg.user, msg.job)),
                                       rowCount := Some(count), schema := Some(columns), error := None)]
      ensures r.Error? ==> GaveUp(n, msg, TaskOf(s, tag), r)
    {
      r, es, s := MakeDashboard(tag, msg, columns, count, s0, es0, s1);
      if r.Error? { return; }
      r, es, s := Conclude(tag, msg, columns, count, s0, es, s);
    }

    /** Everything after the `ingesting` write: table, dashboard and row. */
    method IngestRows(tag: nat, msg: Message, columns: seq<Column>, ghost s0: State, ghost es0: seq<Event>,
                      ghost s1: State)
      returns (r: RunResult, ghost es: seq<Event>, ghost s: State)
      requires Trace(n, s0, es0, s1, tag, msg) && Shows(s1)
      requires TaskOf(s1, tag) == Task(DropTable, columns, 0, None, true, "")
      modifies pg`jobs, pg`dashboards, pg`failures, ch`tables, ch`failures
      ensures Trace(n, s0, es, s, tag, msg) && Shows(s)
      ensures KeepsAttempts(old(pg.jobs), pg.jobs, msg.job)
      ensures Explained(r, old(pg.failures), pg.failures, old(ch.failures), ch.failures)
      ensures r.Done? ==> TaskOf(s, tag).pc == Finished
      ensures r.Done? ==> Ingested(old(pg.jobs), pg.jobs, old(pg.dashboards), pg.dashboards, old(ch.tables), ch.tables,
                                   msg, columns)
      ensures r.Error? ==> GaveUp(n, msg, TaskOf(s, tag), r)
    {
      var count;
      r, count, es, s := BuildTable(tag, msg, columns, s0, es0, s1);
      if r.Error? { return; }
      r, es, s := Announce(tag, msg, columns, count, s0, es, s);
    }

    /** From the `ingesting` write on. */
    method Ingest(tag: nat, msg: Message, columns: seq<Column>, ghost s0: State, ghost es0: seq<Event>,
                  ghost s1: State)
      returns (r: RunResult, ghost es: seq<Event>, ghost s: State)
      requires Trace(n, s0, es0, s1, tag, msg) && Shows(s1)
      requires TaskOf(s1, tag) == Task(ToIngesting, columns, 0, None, true, "")
      modifies pg`jobs, pg`dashboards, pg`failures, ch`tables, ch`failures
      ensures Trace(n, s0, es, s, tag, msg) && Shows(s)
      ensures KeepsAttempts(old(pg.jobs), pg.jobs, msg.job)
      ensures Explained(r, old(pg.failures), pg.failures, old(ch.failures), ch.failures)
      ensures r.Done? ==> TaskOf(s, tag).pc == Finished
      ensures r.Done? ==> Ingested(old(pg.jobs), pg.jobs, old(pg.dashboards), pg.dashboards, old(ch.tables), ch.tables,
                                   msg, columns)
      ensures r.Error? ==> GaveUp(n, msg, TaskOf(s, tag), r)
    {
      r, es, s := Advance(tag, msg, Ingesting, s0, es0, s1);
      if r.Error? { return; }
      r, es, s := IngestRows(tag, msg, columns, s0, es, s);
    }

    /** Drive one job from queued to ready or to an error. A ready job is left alone. Otherwise the run
        succeeds exactly if no call fails and the source has columns, and then the row, the dashboard
        and the table all tell of the source; if a call fails, the error is that call's. */
    method RunJob(tag: nat, msg: Message, ghost s0: State) returns (r: RunResult, ghost es: seq<Event>, ghost s: State)
      requires Trace(n, s0, [], s0, tag, msg) && Shows(s0) && TaskOf(s0, tag) == FRESH
      modifies pg`jobs, pg`dashboards, pg`failures, ch`tables, ch`failures
      ensures Trace(n, s0, es, s, tag, msg) && Shows(s)
      ensures JobRan(r, msg, old(pg.jobs), pg.jobs, old(pg.dashboards), pg.dashboards, old(ch.tables), ch.tables,
                     old(pg.failures), pg.failures, old(ch.failures), ch.failures)
      ensures KeepsAttempts(old(pg.jobs), pg.jobs, msg.job)
      ensures r.Done? ==> TaskOf(s, tag).pc == Finished && pg.jobs[msg.job].status == Ready
      ensures r.Error? ==> GaveUp(n, msg, TaskOf(s, tag), r)
    {
      var finished, columns;
      r, finished, columns, es, s := Discover(tag, msg, s0);
      if r.Error? || finished { return; }
      r, es, s := Ingest(tag, msg, columns, s0, es, s);
    }
  }
}
