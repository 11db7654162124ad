// The ingestion protocol as a step system over Postgres (jobs, outbox, dashboards), the broker
// and ClickHouse. Every source of nondeterminism (scheduling, failures, crashes, child
// identifiers) is carried by an event, so a run is a sequence of events.

module Protocol {
  import opened Domain

  // ---------------------------------------------------------------- stores

  type Row = seq<string>
  datatype Column = Column(name: string, ty: string)

  /** A source URL together with what ClickHouse reads there. */
  datatype Source = Source(url: string, columns: seq<Column>, rows: multiset<Row>)

  datatype JobRow = JobRow(user: Uuid, source: Source, status: JobStatus, error: Option<string>,
                           table: Option<string>, rowCount: Option<nat>, schema: Option<seq<Column>>,
                           attempts: nat)

  datatype Dashboard = Dashboard(rowCount: nat, columns: seq<Column>)

  datatype Table = Table(columns: seq<Column>, rows: multiset<Row>)

  datatype Message = Message(job: Uuid, user: Uuid, source: Source, attempt: nat)

  /** An outbox row; `lock` is the relay transaction holding it. `faults` is a history variable. */
  datatype OutboxRow = OutboxRow(msg: Message, published: bool, attempts: nat, lock: Option<nat>, faults: nat)

  /** An open relay transaction: rows still to publish, and for the others whether they are stamped. */
  datatype Tx = Tx(todo: seq<nat>, done: map<nat, bool>)

  const BATCH_SIZE: nat := 50

  // ---------------------------------------------------------------- deliveries

  /** The points of `handle` and `run_job` between two store operations. */
  datatype Pc =
    | Lookup | ToDownloading | ToInferring | Describe | ToIngesting
    | DropTable | CreateTable | InsertRows | CountRows
    | Generate | StoreDashboard | MarkReady
    | CountAttempt | Retry | MarkFailed
    | Finished | AckRetry | Nack

  /** A delivery's local variables. `restarted` records that its `downloading` write succeeded. */
  datatype Task = Task(pc: Pc, columns: seq<Column>, count: nat, config: Option<Dashboard>,
                       restarted: bool, reason: string)

  const FRESH: Task := Task(Lookup, [], 0, None, false, "")

  datatype Place = Waiting | Running(task: Task) | Halted | Dead | Acked

  /** One copy of a message in the broker. `origin` is the outbox row it descends from; `root`
      tells the copies published by a relay from those republished as retries. */
  datatype Copy = Copy(msg: Message, origin: nat, root: bool, place: Place)

  /** Who answers for a job that is not terminal yet (a history variable, read by no step). */
  datatype Holder = ByRow(row: nat) | ByCopy(copy: nat)

  datatype State = State(
    jobs: map<Uuid, JobRow>, dashboards: map<Uuid, Dashboard>, tables: map<string, Table>,
    rows: map<nat, OutboxRow>, relays: map<nat, Tx>, copies: map<nat, Copy>,
    holders: map<Uuid, Holder>)

  const INIT: State := State(map[], map[], map[], map[], map[], map[], map[])

  // ---------------------------------------------------------------- outcomes

  /** How a store operation ended. A failed one may still have taken effect (`applied`), and a
      failed load may leave the part `loaded` of the source behind. */
  datatype Outcome = Success | Failure(retryable: bool, applied: bool, loaded: multiset<Row>, reason: string)

  predicate Applied(o: Outcome) {
    o.Success? || o.applied
  }

  datatype PubOutcome = Confirmed | AcceptedUnconfirmed | NotAccepted

  predicate Accepted(p: PubOutcome) {
    !p.NotAccepted?
  }

  // ---------------------------------------------------------------- one delivery, one job

  /** Everything a delivery reads or writes outside the broker. */
  datatype JobView = JobView(row: JobRow, dash: Option<Dashboard>, table: Option<Table>)

  /** The error arms of `handle`: retry while attempts remain, otherwise fail the job. */
  function Fail(n: nat, msg: Message, t: Task, retryable: bool, reason: string): Task {
    t.(pc := if retryable && msg.attempt + 1 < n then CountAttempt else MarkFailed, reason := reason)
  }

  predicate Working(pc: Pc) {
    pc !in {Retry, Finished, AckRetry, Nack}
  }

  /** The status writes that leave a job non-terminal. */
  function StageStatus(pc: Pc): Option<JobStatus> {
    match pc
    case ToDownloading => Some(Downloading)
    case ToInferring => Some(Inferring)
    case ToIngesting => Some(Ingesting)
    case _ => None
  }

  function ReadyRow(row: JobRow, msg: Message, t: Task): JobRow {
    row.(status := Ready, table := Some(DatasetTableName(msg.user, msg.job)), rowCount := Some(t.count),
         schema := Some(t.columns), error := None)
  }

  function FailedRow(row: JobRow, reason: string): JobRow {
    row.(status := Failed, error := Some(reason))
  }

  /** What the operation at `t.pc` does to the job's stores. */
  function Effect(msg: Message, v: JobView, t: Task, o: Outcome): JobView {
    match t.pc
    case ToDownloading => if Applied(o) then v.(row := v.row.(status := Downloading)) else v
    case ToInferring => if Applied(o) then v.(row := v.row.(status := Inferring)) else v
    case ToIngesting => if Applied(o) then v.(row := v.row.(status := Ingesting)) else v
    case DropTable => if Applied(o) then v.(table := None) else v
    case CreateTable =>
      if Applied(o) && v.table.None? then v.(table := Some(Table(t.columns, multiset{}))) else v
    case InsertRows =>
      if v.table.None? then v
      else v.(table := Some(v.table.value.(rows := v.table.value.rows +
        (if o.Success? then msg.source.rows else o.loaded * msg.source.rows))))
    case StoreDashboard => if Applied(o) && t.config.Some? then v.(dash := t.config) else v
    case MarkReady => if Applied(o) then v.(row := ReadyRow(v.row, msg, t)) else v
    case CountAttempt => if Applied(o) then v.(row := v.row.(attempts := v.row.attempts + 1)) else v
    case MarkFailed => if Applied(o) then v.(row := FailedRow(v.row, t.reason)) else v
    case _ => v
  }

  /** A database error is always retryable, whatever it says. */
  function AfterPg(n: nat, msg: Message, t: Task, o: Outcome, next: Task): Task {
    if o.Success? then next else Fail(n, msg, t, true, o.reason)
  }

  /** A ClickHouse error is classified; a statement on a missing table is a permanent error. */
  function AfterCh(n: nat, msg: Message, t: Task, o: Outcome, missing: bool, next: Task): Task {
    if o.Failure? then Fail(n, msg, t, o.retryable, o.reason)
    else if missing then Fail(n, msg, t, false, "unknown table")
    else next
  }

  /** Where the delivery goes after the operation at `t.pc` ended with `o`. */
  function Continue(n: nat, msg: Message, v: JobView, t: Task, o: Outcome): Task
    requires Working(t.pc)
  {
    match t.pc
    case Lookup =>
      AfterPg(n, msg, t, o, t.(pc := if v.row.status.Ready? then Finished else ToDownloading))
    case ToDownloading => AfterPg(n, msg, t, o, t.(pc := ToInferring, restarted := true))
    case ToInferring => AfterPg(n, msg, t, o, t.(pc := Describe))
    case Describe =>
      if o.Success? && msg.source.columns == [] then
        Fail(n, msg, t, false, "no columns were detected in the CSV")
      else AfterCh(n, msg, t, o, false, t.(pc := ToIngesting, columns := msg.source.columns))
    case ToIngesting => AfterPg(n, msg, t, o, t.(pc := DropTable))
    case DropTable => AfterCh(n, msg, t, o, false, t.(pc := CreateTable))
    case CreateTable => AfterCh(n, msg, t, o, false, t.(pc := InsertRows))
    case InsertRows => AfterCh(n, msg, t, o, v.table.None?, t.(pc := CountRows))
    case CountRows =>
      AfterCh(n, msg, t, o, v.table.None?,
              t.(pc := Generate, count := if v.table.Some? then |v.table.value.rows| else 0))
    case Generate =>
      AfterCh(n, msg, t, o, v.table.None?,
              t.(pc := StoreDashboard, config := Some(Dashboard(t.count, t.columns))))
    case StoreDashboard => AfterPg(n, msg, t, o, t.(pc := MarkReady))
    case MarkReady => AfterPg(n, msg, t, o, t.(pc := Finished))
    case CountAttempt => t.(pc := Retry)
    case MarkFailed => t.(pc := Nack)
  }

  // ---------------------------------------------------------------- views

  function MapGet<K, V>(m: map<K, V>, k: K): Option<V> {
    if k in m then Some(m[k]) else None
  }

  function MapPut<K, V>(m: map<K, V>, k: K, v: Option<V>): map<K, V> {
    if v.Some? then m[k := v.value] else m - {k}
  }

  function View(s: State, j: Uuid, user: Uuid): JobView
    requires j in s.jobs
  {
    JobView(s.jobs[j], MapGet(s.dashboards, j), MapGet(s.tables, DatasetTableName(user, j)))
  }

  function WithView(s: State, j: Uuid, user: Uuid, v: JobView): State {
    s.(jobs := s.jobs[j := v.row],
       dashboards := MapPut(s.dashboards, j, v.dash),
       tables := MapPut(s.tables, DatasetTableName(user, j), v.table))
  }

  // ---------------------------------------------------------------- relays

  predicate Claimable(row: OutboxRow) {
    !row.published && row.lock.None?
  }

  /** `FOR UPDATE SKIP LOCKED`, oldest first, at most a batch. Row numbers follow `created_at`. */
  ghost predicate IsClaim(rows: map<nat, OutboxRow>, batch: seq<nat>) {
    && 0 < |batch| <= BATCH_SIZE
    && (forall i, k :: 0 <= i < k < |batch| ==> batch[i] < batch[k])
    && (forall r :: r in batch ==> r in rows && Claimable(rows[r]))
    && (forall r :: r in rows && Claimable(rows[r]) && r !in batch ==>
          |batch| == BATCH_SIZE && forall b :: b in batch ==> b < r)
  }

  predicate Holds(tx: Tx, r: nat) {
    r in tx.todo || r in tx.done
  }

  // ---------------------------------------------------------------- events

  datatype Event =
    | Submit(job: Uuid, user: Uuid, source: Source, row: nat)
    | Claim(relay: nat, batch: seq<nat>)
    | Publish(relay: nat, pub: PubOutcome, tag: nat)
    | Commit(relay: nat)
    | Rollback(relay: nat)
    | Deliver(tag: nat)
    | Work(tag: nat, outcome: Outcome)
    | Republish(tag: nat, pub: PubOutcome, child: nat)
    | Settle(tag: nat, lost: bool)
    | Crash(tag: nat)
    | Requeue(tag: nat)

  predicate RunningAt(s: State, tag: nat) {
    tag in s.copies && s.copies[tag].place.Running?
  }

  function TaskOf(s: State, tag: nat): Task
    requires RunningAt(s, tag)
  {
    s.copies[tag].place.task
  }

  ghost predicate Enabled(s: State, e: Event) {
    match e
    case Submit(j, u, src, r) => j !in s.jobs && r !in s.rows
    case Claim(k, batch) => k !in s.relays && IsClaim(s.rows, batch)
    case Publish(k, p, tag) =>
      && k in s.relays && s.relays[k].todo != [] && s.relays[k].todo[0] in s.rows
      && (Accepted(p) ==> tag !in s.copies)
    case Commit(k) => k in s.relays && s.relays[k].todo == []
    case Rollback(k) => k in s.relays
    case Deliver(tag) => tag in s.copies && s.copies[tag].place.Waiting?
    case Work(tag, o) =>
      RunningAt(s, tag) && Working(TaskOf(s, tag).pc) && s.copies[tag].msg.job in s.jobs
    case Republish(tag, p, child) =>
      RunningAt(s, tag) && TaskOf(s, tag).pc.Retry? && (Accepted(p) ==> child !in s.copies)
    case Settle(tag, lost) => RunningAt(s, tag) && TaskOf(s, tag).pc in {Finished, AckRetry, Nack}
    case Crash(tag) => RunningAt(s, tag)
    case Requeue(tag) => tag in s.copies && s.copies[tag].place.Halted?
  }

  // ---------------------------------------------------------------- effects

  function MoveCopy(s: State, tag: nat, p: Place): State
    requires tag in s.copies
  {
    s.(copies := s.copies[tag := s.copies[tag].(place := p)])
  }

  function ApplySubmit(s: State, j: Uuid, u: Uuid, src: Source, r: nat): State {
    s.(jobs := s.jobs[j := JobRow(u, src, Queued, None, None, None, None, 0)],
       rows := s.rows[r := OutboxRow(Message(j, u, src, 0), false, 0, None, 0)],
       holders := s.holders[j := ByRow(r)])
  }

  function ApplyClaim(s: State, k: nat, batch: seq<nat>): State {
    s.(relays := s.relays[k := Tx(batch, map[])],
       rows := map r | r in s.rows :: if r in batch then s.rows[r].(lock := Some(k)) else s.rows[r])
  }

  function ApplyPublish(s: State, k: nat, p: PubOutcome, tag: nat): State
    requires k in s.relays && s.relays[k].todo != [] && s.relays[k].todo[0] in s.rows
  {
    var tx := s.relays[k];
    var r := tx.todo[0];
    var row := s.rows[r];
    var j := row.msg.job;
    s.(relays := s.relays[k := Tx(tx.todo[1..], tx.done[r := p.Confirmed?])],
       rows := if p.AcceptedUnconfirmed? then s.rows[r := row.(faults := row.faults + 1)] else s.rows,
       copies := if Accepted(p) then s.copies[tag := Copy(row.msg, r, true, Waiting)] else s.copies,
       holders := if Accepted(p) && j in s.holders && s.holders[j] == ByRow(r)
                  then s.holders[j := ByCopy(tag)] else s.holders)
  }

  function CommitRow(row: OutboxRow, tx: Tx, r: nat): OutboxRow {
    if r !in tx.done then row
    else if tx.done[r] then row.(published := true, lock := None)
    else row.(attempts := row.attempts + 1, lock := None)
  }

  function RollbackRow(row: OutboxRow, tx: Tx, r: nat): OutboxRow {
    if r in tx.done && tx.done[r] then row.(lock := None, faults := row.faults + 1)
    else if Holds(tx, r) then row.(lock := None)
    else row
  }

  function ApplyCommit(s: State, k: nat): State
    requires k in s.relays
  {
    s.(relays := s.relays - {k}, rows := map r | r in s.rows :: CommitRow(s.rows[r], s.relays[k], r))
  }

  function ApplyRollback(s: State, k: nat): State
    requires k in s.relays
  {
    s.(relays := s.relays - {k}, rows := map r | r in s.rows :: RollbackRow(s.rows[r], s.relays[k], r))
  }

  function ApplyWork(n: nat, s: State, tag: nat, o: Outcome): State
    requires RunningAt(s, tag) && Working(TaskOf(s, tag).pc) && s.copies[tag].msg.job in s.jobs
  {
    var msg := s.copies[tag].msg;
    var t := TaskOf(s, tag);
    var v := View(s, msg.job, msg.user);
    var s1 := WithView(s, msg.job, msg.user, Effect(msg, v, t, o));
    var s2 := MoveCopy(s1, tag, Running(Continue(n, msg, v, t, o)));
    if StageStatus(t.pc).Some? && Applied(o) then s2.(holders := s2.holders[msg.job := ByCopy(tag)]) else s2
  }

  /** The delivery after publishing its next attempt. */
  function AfterRetry(c: Copy, p: PubOutcome): Copy
    requires c.place.Running?
  {
    c.(place := Running(c.place.task.(pc := if p.Confirmed? then AckRetry else MarkFailed)))
  }

  function NextAttempt(c: Copy): Copy {
    Copy(c.msg.(attempt := c.msg.attempt + 1), c.origin, false, Waiting)
  }

  function ApplyRepublish(s: State, tag: nat, p: PubOutcome, child: nat): State
    requires RunningAt(s, tag)
  {
    var c := s.copies[tag];
    var j := c.msg.job;
    var s1 := s.(copies := s.copies[tag := AfterRetry(c, p)]);
    if !Accepted(p) then s1
    else
      s1.(copies := s1.copies[child := NextAttempt(c)],
          holders := if j in s1.holders && s1.holders[j] == ByCopy(tag)
                     then s1.holders[j := ByCopy(child)] else s1.holders)
  }

  function ApplySettle(s: State, tag: nat, lost: bool): State
    requires RunningAt(s, tag)
  {
    MoveCopy(s, tag, if lost then Halted else if TaskOf(s, tag).pc.Nack? then Dead else Acked)
  }

  ghost function Apply(n: nat, s: State, e: Event): State
    requires Enabled(s, e)
  {
    match e
    case Submit(j, u, src, r) => ApplySubmit(s, j, u, src, r)
    case Claim(k, batch) => ApplyClaim(s, k, batch)
    case Publish(k, p, tag) => ApplyPublish(s, k, p, tag)
    case Commit(k) => ApplyCommit(s, k)
    case Rollback(k) => ApplyRollback(s, k)
    case Deliver(tag) => MoveCopy(s, tag, Running(FRESH))
    case Work(tag, o) => ApplyWork(n, s, tag, o)
    case Republish(tag, p, child) => ApplyRepublish(s, tag, p, child)
    case Settle(tag, lost) => ApplySettle(s, tag, lost)
    case Crash(tag) => MoveCopy(s, tag, Halted)
    case Requeue(tag) => MoveCopy(s, tag, Waiting)
  }

  /** `es` leads from `s` to `t`; `n` is MAX_ATTEMPTS. */
  ghost predicate Run(n: nat, s: State, es: seq<Event>, t: State)
    decreases |es|
  {
    if es == [] then s == t else Enabled(s, es[0]) && Run(n, Apply(n, s, es[0]), es[1..], t)
  }

  lemma RunStep(n: nat, s: State, e: Event, rest: seq<Event>, t: State)
    requires Enabled(s, e) && Run(n, Apply(n, s, e), rest, t)
    ensures Run(n, s, [e] + rest, t)
  {
    assert ([e] + rest)[1..] == rest;
  }

  lemma {:induction false} RunConcat(n: nat, s: State, es: seq<Event>, m: State, later: seq<Event>, t: State)
    requires Run(n, s, es, m) && Run(n, m, later, t)
    ensures Run(n, s, es + later, t)
    decreases |es|
  {
    if es == [] {
      assert es + later == later;
    } else {
      RunConcat(n, Apply(n, s, es[0]), es[1..], m, later, t);
      assert (es + later)[1..] == es[1..] + later;
    }
  }
}
