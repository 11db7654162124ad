// What the protocol does not promise: the exact steps that undo a ready job, and runs in which
// overlapping deliveries, or a lookup that keeps failing, break what holds without them.

module Witnesses {
  import opened Domain
  import opened Protocol
  import opened Safety
  import opened Exclusive
  import opened Windows
  import opened Worker

  // ---------------------------------------------------------------- the exact condition

  /** A ready job stops being ready exactly when one of its deliveries gets a stage write or a failure
      write through: none of these writes looks at the status it replaces. */
  lemma ReadyLostIff(n: nat, s: State, e: Event, j: Uuid)
    requires Enabled(s, e) && j in s.jobs && s.jobs[j].status.Ready?
    ensures j in Apply(n, s, e).jobs
    ensures !Apply(n, s, e).jobs[j].status.Ready? <==>
            e.Work? && s.copies[e.tag].msg.job == j && Applied(e.outcome) &&
            TaskOf(s, e.tag).pc in {ToDownloading, ToInferring, ToIngesting, Pc.MarkFailed}
  {
    if e.Work? {
      WorkShape(n, s, e.tag, e.outcome);
    }
  }

  /** The operations that break the agreement of a ready job's stores: a second delivery dropping the
      table or loading rows into it, or recording a count that is not the source's. */
  predicate Spoils(msg: Message, t: Task, o: Outcome) {
    match t.pc
    case DropTable => Applied(o)
    case InsertRows => (if o.Success? then msg.source.rows else o.loaded * msg.source.rows) != multiset{}
    case StoreDashboard => Applied(o) && t.count != |msg.source.rows|
    case MarkReady => Applied(o) && t.count != |msg.source.rows|
    case _ => false
  }

  /** A `ready` write on stores that do not hold what it announces. */
  predicate Misleads(msg: Message, v: JobView, t: Task, o: Outcome) {
    t.pc.MarkReady? && Applied(o) &&
    !(v.table == Some(Table(msg.source.columns, msg.source.rows)) && t.count == |msg.source.rows| &&
      v.dash == Some(Dashboard(|msg.source.rows|, msg.source.columns)))
  }

  lemma SpoilsIff(n: nat, msg: Message, v: JobView, t: Task, o: Outcome)
    requires Working(t.pc) && TaskOk(n, msg, v.dash.Some?, t) && msg.source == v.row.source && Agreed(v)
    ensures !Agreed(Effect(msg, v, t, o)) <==> if v.row.status.Ready? then Spoils(msg, t, o) else Misleads(msg, v, t, o)
  {
    if t.pc.InsertRows? {
      var more := if o.Success? then msg.source.rows else o.loaded * msg.source.rows;
      assert |msg.source.rows + more| == |msg.source.rows| + |more|;
      assert |more| == 0 ==> more == multiset{};
      assert msg.source.rows + multiset{} == msg.source.rows;
    }
  }

  /** The stores of a job stop agreeing exactly when one of its deliveries spoils them while it is
      ready, or makes it ready although they do not hold what the `ready` write announces. */
  lemma AgreementLostIff(n: nat, s: State, e: Event, j: Uuid)
    requires n >= 1 && Inv(n, s) && Enabled(s, e)
    requires j in s.jobs && Agreed(View(s, j, s.jobs[j].user))
    ensures j in Apply(n, s, e).jobs
    ensures var v := View(s, j, s.jobs[j].user);
            !Agreed(View(Apply(n, s, e), j, s.jobs[j].user)) <==>
            e.Work? && s.copies[e.tag].msg.job == j &&
            if v.row.status.Ready? then Spoils(s.copies[e.tag].msg, TaskOf(s, e.tag), e.outcome)
            else Misleads(s.copies[e.tag].msg, v, TaskOf(s, e.tag), e.outcome)
  {
    if e.Work? {
      var msg, t := s.copies[e.tag].msg, TaskOf(s, e.tag);
      assert CopyOk(n, s, s.copies[e.tag]);
      if msg.job == j {
        OwnView(n, s, e.tag, e.outcome);
        SpoilsIff(n, msg, View(s, j, msg.user), t, e.outcome);
      } else {
        OtherView(n, s, e.tag, e.outcome, j, s.jobs[j].user);
      }
    } else {
      OnlyWorkIsSeen(n, s, e, j);
    }
  }

  // ---------------------------------------------------------------- building runs

  /** A run to `s`, in which deliveries of `j` do not overlap if `solo`. */
  ghost predicate Got(n: nat, es: seq<Event>, s: State, j: Uuid, solo: bool) {
    Run(n, INIT, es, s) && (solo ==> SoloRun(n, INIT, es, s, j, false))
  }

  lemma {:induction false} SoloSnoc(n: nat, s: State, es: seq<Event>, m: State, e: Event, j: Uuid)
    requires SoloRun(n, s, es, m, j, false) && Enabled(m, e) && Solo(Apply(n, m, e), j)
    ensures SoloRun(n, s, es + [e], Apply(n, m, e), j, false)
    decreases |es|
  {
    if es == [] {
      assert es + [e] == [e] && [e][1..] == [];
    } else {
      SoloSnoc(n, Apply(n, s, es[0]), es[1..], m, e, j);
      assert (es + [e])[0] == es[0] && (es + [e])[1..] == es[1..] + [e];
    }
  }

  lemma Snoc(n: nat, es: seq<Event>, s: State, e: Event, j: Uuid, solo: bool) returns (es': seq<Event>, s': State)
    requires Got(n, es, s, j, solo) && Enabled(s, e) && (solo ==> Solo(Apply(n, s, e), j))
    ensures es <= es' && Got(n, es', s', j, solo) && s' == Apply(n, s, e)
  {
    RunSnoc(n, INIT, es, s, e);
    if solo {
      SoloSnoc(n, INIT, es, s, e, j);
    }
    es', s' := es + [e], Apply(n, s, e);
  }

  /** The delivery `tag` of `msg` is at `t` and sees `v`. */
  ghost predicate At(s: State, tag: nat, msg: Message, v: JobView, t: Task) {
    RunningAt(s, tag) && s.copies[tag].msg == msg && msg.job in s.jobs &&
    View(s, msg.job, msg.user) == v && TaskOf(s, tag) == t
  }

  /** No other delivery of `j` is at work. */
  ghost predicate Alone(s: State, tag: nat, j: Uuid) {
    forall c :: Busy(s, c, j) ==> c == tag
  }

  /** Only the delivery `tag` has moved. */
  ghost predicate Others(s: State, s': State, tag: nat) {
    s'.copies.Keys == s.copies.Keys && forall c :: c in s.copies && c != tag ==> s'.copies[c] == s.copies[c]
  }

  lemma Do(n: nat, es: seq<Event>, s: State, tag: nat, msg: Message, v: JobView, t: Task, o: Outcome, solo: bool)
    returns (es': seq<Event>, s': State)
    requires Got(n, es, s, msg.job, solo) && (solo ==> Alone(s, tag, msg.job)) && At(s, tag, msg, v, t) && Working(t.pc)
    ensures es <= es' && Got(n, es', s', msg.job, solo) && (solo ==> Alone(s', tag, msg.job))
    ensures At(s', tag, msg, Effect(msg, v, t, o), Continue(n, msg, v, t, o)) && Others(s, s', tag)
  {
    OwnView(n, s, tag, o);
    WorkShape(n, s, tag, o);
    ghost var next := ApplyWork(n, s, tag, o);
    if solo {
      OthersStay(n, s, tag, o);
      forall c | Busy(next, c, msg.job) && c != tag ensures Busy(s, c, msg.job) {
      }
    }
    es', s' := Snoc(n, es, s, Work(tag, o), msg.job, solo);
  }

  /** What a delivery has made of its stores and itself after `k` operations that all succeed. */
  function Play(n: nat, msg: Message, v: JobView, t: Task, k: nat): (JobView, Task)
    decreases k
  {
    if k == 0 || !Working(t.pc) then (v, t)
    else Play(n, msg, Effect(msg, v, t, Success), Continue(n, msg, v, t, Success), k - 1)
  }

  lemma {:induction false} DoMany(n: nat, es: seq<Event>, s: State, tag: nat, msg: Message, v: JobView, t: Task,
                                  k: nat, solo: bool)
    returns (es': seq<Event>, s': State)
    requires Got(n, es, s, msg.job, solo) && (solo ==> Alone(s, tag, msg.job)) && At(s, tag, msg, v, t)
    ensures Got(n, es', s', msg.job, solo) && (solo ==> Alone(s', tag, msg.job)) && Others(s, s', tag)
    ensures var (w, u) := Play(n, msg, v, t, k); At(s', tag, msg, w, u)
    decreases k
  {
    es', s' := es, s;
    if k > 0 && Working(t.pc) {
      es', s' := Do(n, es, s, tag, msg, v, t, Success, solo);
      es', s' := DoMany(n, es', s', tag, msg, Effect(msg, v, t, Success), Continue(n, msg, v, t, Success), k - 1, solo);
    }
  }

  function Discovered(v: JobView): JobView {
    v.(row := v.row.(status := Ingesting), table := None)
  }

  function Filled(src: Source, pc: Pc, count: nat): Task {
    Task(pc, src.columns, count, None, true, "")
  }

  /** From its start to the point where the old table is gone. */
  lemma PlayToCreate(n: nat, msg: Message, v: JobView)
    requires !v.row.status.Ready? && msg.source.columns != []
    ensures Play(n, msg, v, FRESH, 6) == (Discovered(v), Filled(msg.source, CreateTable, 0))
  {
    var v1 := v.(row := v.row.(status := Downloading));
    var v2 := v.(row := v.row.(status := Inferring));
    var v3 := v.(row := v.row.(status := Ingesting));
    assert Play(n, msg, v, FRESH, 6) == Play(n, msg, v, FRESH.(pc := ToDownloading), 5);
    assert Play(n, msg, v, FRESH.(pc := ToDownloading), 5) ==
           Play(n, msg, v1, Task(ToInferring, [], 0, None, true, ""), 4);
    assert Play(n, msg, v1, Task(ToInferring, [], 0, None, true, ""), 4) ==
           Play(n, msg, v2, Task(Describe, [], 0, None, true, ""), 3);
    assert Play(n, msg, v2, Task(Describe, [], 0, None, true, ""), 3) ==
           Play(n, msg, v2, Filled(msg.source, ToIngesting, 0), 2);
    assert Play(n, msg, v2, Filled(msg.source, ToIngesting, 0), 2) ==
           Play(n, msg, v3, Filled(msg.source, DropTable, 0), 1);
    assert Play(n, msg, v3, Filled(msg.source, DropTable, 0), 1) ==
           Play(n, msg, Discovered(v), Filled(msg.source, CreateTable, 0), 0);
  }

  /** A table of the source's columns holding `rows`. */
  function Loaded(v: JobView, src: Source, rows: multiset<Row>): JobView {
    v.(table := Some(Table(src.columns, rows)))
  }

  lemma PlayCreate(n: nat, msg: Message, v: JobView)
    ensures var filled := Filled(msg.source, InsertRows, 0);
            Play(n, msg, v, Filled(msg.source, CreateTable, 0), 1) ==
            (if v.table.None? then Loaded(v, msg.source, multiset{}) else v, filled)
  {
    var t := Filled(msg.source, CreateTable, 0);
    assert Play(n, msg, v, t, 1) == Play(n, msg, Effect(msg, v, t, Success), Continue(n, msg, v, t, Success), 0);
  }

  lemma PlayLoad(n: nat, msg: Message, v: JobView, rows: multiset<Row>)
    ensures Play(n, msg, Loaded(v, msg.source, rows), Filled(msg.source, InsertRows, 0), 1) ==
            (Loaded(v, msg.source, rows + msg.source.rows), Filled(msg.source, CountRows, 0))
    ensures Play(n, msg, Loaded(v, msg.source, rows), Filled(msg.source, CountRows, 0), 1) ==
            (Loaded(v, msg.source, rows), Filled(msg.source, Generate, |rows|))
  {
    var w, t, c := Loaded(v, msg.source, rows), Filled(msg.source, InsertRows, 0), Filled(msg.source, CountRows, 0);
    assert Play(n, msg, w, t, 1) == Play(n, msg, Effect(msg, w, t, Success), Continue(n, msg, w, t, Success), 0);
    assert Play(n, msg, w, c, 1) == Play(n, msg, Effect(msg, w, c, Success), Continue(n, msg, w, c, Success), 0);
  }

  /** From the generated dashboard to `ready`, whatever the table holds by then. */
  lemma PlayToReady(n: nat, msg: Message, v: JobView, count: nat)
    requires v.table.Some?
    ensures var (w, t) := Play(n, msg, v, Filled(msg.source, Generate, count), 3);
            && w.row.status.Ready? && w.row.rowCount == Some(count) && w.table == v.table && t.pc == Finished
  {
    var t1 := Filled(msg.source, StoreDashboard, count).(config := Some(Dashboard(count, msg.source.columns)));
    assert Play(n, msg, v, Filled(msg.source, Generate, count), 3) == Play(n, msg, v, t1, 2);
    var v2, t2 := v.(dash := t1.config), t1.(pc := Pc.MarkReady);
    assert Play(n, msg, v, t1, 2) == Play(n, msg, v2, t2, 1);
    assert Play(n, msg, v2, t2, 1) == Play(n, msg, v2.(row := ReadyRow(v2.row, msg, t2)), t2.(pc := Finished), 0);
  }

  // ---------------------------------------------------------------- two copies of one message

  function FirstMessage(j: Uuid, u: Uuid, src: Source): Message {
    Message(j, u, src, 0)
  }

  function NewRow(u: Uuid, src: Source): JobRow {
    JobRow(u, src, Queued, None, None, None, None, 0)
  }

  lemma ClaimOnly(row: OutboxRow)
    requires Claimable(row)
    ensures IsClaim(map[0 := row], [0])
  {
  }

  /** The state after the first publication went through unnoticed. */
  function Unnoticed(j: Uuid, u: Uuid, src: Source): State {
    var msg := FirstMessage(j, u, src);
    State(map[j := NewRow(u, src)], map[], map[], map[0 := OutboxRow(msg, false, 1, None, 1)], map[],
          map[0 := Copy(msg, 0, true, Waiting)], map[j := ByCopy(0)])
  }

  lemma ReachClaimed(n: nat, j: Uuid, u: Uuid, src: Source, solo: bool) returns (es: seq<Event>, s: State)
    ensures Got(n, es, s, j, solo)
    ensures s == State(map[j := NewRow(u, src)], map[], map[],
                       map[0 := OutboxRow(FirstMessage(j, u, src), false, 0, Some(0), 0)],
                       map[0 := Tx([0], map[])], map[], map[j := ByRow(0)])
  {
    var row := OutboxRow(FirstMessage(j, u, src), false, 0, None, 0);
    es, s := [], INIT;
    es, s := Snoc(n, es, s, Submit(j, u, src, 0), j, solo);
    assert s == State(map[j := NewRow(u, src)], map[], map[], map[0 := row], map[], map[], map[j := ByRow(0)]);
    ClaimOnly(row);
    es, s := Snoc(n, es, s, Claim(0, [0]), j, solo);
    assert s.rows == map[0 := row.(lock := Some(0))];
  }

  lemma ReachUnnoticed(n: nat, j: Uuid, u: Uuid, src: Source, solo: bool) returns (es: seq<Event>)
    ensures Got(n, es, Unnoticed(j, u, src), j, solo)
  {
    var s;
    es, s := ReachClaimed(n, j, u, src, solo);
    var row := s.rows[0].(faults := 1);
    es, s := Snoc(n, es, s, Publish(0, AcceptedUnconfirmed, 0), j, solo);
    assert [0][1..] == [];
    assert s.rows == map[0 := row] && s.relays == map[0 := Tx([], map[0 := false])];
    es, s := Snoc(n, es, s, Commit(0), j, solo);
    assert s.rows == map[0 := CommitRow(row, Tx([], map[0 := false]), 0)];
    assert s == Unnoticed(j, u, src);
  }

  /** Nothing is running; both copies of the message are queued. */
  ghost predicate Twice(s: State, j: Uuid, u: Uuid, src: Source) {
    var msg := FirstMessage(j, u, src);
    && s.jobs == map[j := NewRow(u, src)] && s.dashboards == map[] && s.tables == map[]
    && s.copies == map[0 := Copy(msg, 0, true, Waiting), 1 := Copy(msg, 0, true, Waiting)]
  }

  lemma ReachTwice(n: nat, j: Uuid, u: Uuid, src: Source, solo: bool) returns (es: seq<Event>, s: State)
    ensures Got(n, es, s, j, solo) && Twice(s, j, u, src)
  {
    es := ReachUnnoticed(n, j, u, src, solo);
    s := Unnoticed(j, u, src);
    var row := OutboxRow(FirstMessage(j, u, src), false, 1, None, 1);
    ClaimOnly(row);
    es, s := Snoc(n, es, s, Claim(1, [0]), j, solo);
    assert s.rows == map[0 := row.(lock := Some(1))] && s.relays == map[1 := Tx([0], map[])];
    es, s := Snoc(n, es, s, Publish(1, Confirmed, 1), j, solo);
  }

  function Start(u: Uuid, src: Source): JobView {
    JobView(NewRow(u, src), None, None)
  }

  lemma BeginDelivery(n: nat, es: seq<Event>, s: State, tag: nat, j: Uuid, solo: bool)
    returns (es': seq<Event>, s': State)
    requires Got(n, es, s, j, solo) && tag in s.copies && s.copies[tag].place.Waiting?
    requires solo ==> forall c :: c in s.copies ==> !s.copies[c].place.Running?
    ensures es <= es' && Got(n, es', s', j, solo) && (solo ==> Alone(s', tag, j))
            && s' == MoveCopy(s, tag, Running(FRESH))
  {
    es', s' := Snoc(n, es, s, Deliver(tag), j, solo);
  }

  // ---------------------------------------------------------------- the counterexamples

  /** Two deliveries of the same message, interleaved without any failure: the job is ready, but its
      table holds every source row twice, and the recorded row count is not the table's size. */
  lemma OverlapBreaksAgreement(n: nat, j: Uuid, u: Uuid, src: Source) returns (es: seq<Event>, s: State)
    requires n >= 1 && src.columns != [] && |src.rows| > 0
    ensures Run(n, INIT, es, s) && j in s.jobs && s.jobs[j].status.Ready?
    ensures var name := DatasetTableName(u, j);
            && name in s.tables && s.tables[name].rows == src.rows + src.rows
            && s.jobs[j].rowCount == Some(|src.rows|) && |src.rows| != |s.tables[name].rows|
  {
    var msg, v := FirstMessage(j, u, src), Start(u, src);
    es, s := ReachTwice(n, j, u, src, false);
    es, s := BeginDelivery(n, es, s, 0, j, false);
    es, s := BeginDelivery(n, es, s, 1, j, false);
    var w := Discovered(v);
    PlayToCreate(n, msg, v);
    PlayToCreate(n, msg, w);
    assert At(s, 0, msg, v, FRESH) && At(s, 1, msg, v, FRESH);
    es, s := DoMany(n, es, s, 0, msg, v, FRESH, 6, false);
    assert At(s, 1, msg, w, FRESH);
    es, s := DoMany(n, es, s, 1, msg, w, FRESH, 6, false);
    assert At(s, 0, msg, w, Filled(src, CreateTable, 0));
    es, s := Interleave(n, es, s, msg, w);
    var done := Loaded(w, src, src.rows + src.rows);
    PlayToReady(n, msg, done, |src.rows|);
    es, s := DoMany(n, es, s, 0, msg, done, Filled(src, Generate, |src.rows|), 3, false);
  }

  /** Create, create, load, count, load. */
  lemma Interleave(n: nat, es: seq<Event>, s: State, msg: Message, w: JobView) returns (es': seq<Event>, s': State)
    requires Got(n, es, s, msg.job, false) && w.table.None?
    requires At(s, 0, msg, w, Filled(msg.source, CreateTable, 0)) &&
             At(s, 1, msg, w, Filled(msg.source, CreateTable, 0))
    ensures Got(n, es', s', msg.job, false)
    ensures At(s', 0, msg, Loaded(w, msg.source, msg.source.rows + msg.source.rows),
               Filled(msg.source, Generate, |msg.source.rows|))
  {
    var src := msg.source;
    var w0, w1 := Loaded(w, src, multiset{}), Loaded(w, src, src.rows);
    assert multiset{} + src.rows == src.rows;
    PlayCreate(n, msg, w);
    PlayCreate(n, msg, w0);
    PlayLoad(n, msg, w, multiset{});
    PlayLoad(n, msg, w, src.rows);
    es', s' := DoMany(n, es, s, 0, msg, w, Filled(src, CreateTable, 0), 1, false);
    assert At(s', 1, msg, w0, Filled(src, CreateTable, 0));
    es', s' := DoMany(n, es', s', 1, msg, w0, Filled(src, CreateTable, 0), 1, false);
    assert At(s', 0, msg, w0, Filled(src, InsertRows, 0));
    es', s' := DoMany(n, es', s', 0, msg, w0, Filled(src, InsertRows, 0), 1, false);
    es', s' := DoMany(n, es', s', 0, msg, w1, Filled(src, CountRows, 0), 1, false);
    assert At(s', 1, msg, w1, Filled(src, InsertRows, 0));
    es', s' := DoMany(n, es', s', 1, msg, w1, Filled(src, InsertRows, 0), 1, false);
  }

  /** The whole pipeline of one delivery without a failure. */
  lemma FinishAlone(n: nat, es: seq<Event>, s: State, tag: nat, msg: Message, v: JobView)
    returns (es': seq<Event>, s': State)
    requires Got(n, es, s, msg.job, true) && Alone(s, tag, msg.job) && At(s, tag, msg, v, FRESH)
    requires !v.row.status.Ready? && msg.source.columns != []
    ensures Got(n, es', s', msg.job, true) && Alone(s', tag, msg.job) && Others(s, s', tag)
    ensures RunningAt(s', tag) && TaskOf(s', tag).pc == Finished && msg.job in s'.jobs && s'.jobs[msg.job].status.Ready?
  {
    var src, w := msg.source, Discovered(v);
    assert multiset{} + src.rows == src.rows;
    PlayToCreate(n, msg, v);
    PlayCreate(n, msg, w);
    PlayLoad(n, msg, w, multiset{});
    PlayLoad(n, msg, w, src.rows);
    PlayToReady(n, msg, Loaded(w, src, src.rows), |src.rows|);
    es', s' := DoMany(n, es, s, tag, msg, v, FRESH, 6, true);
    es', s' := DoMany(n, es', s', tag, msg, w, Filled(src, CreateTable, 0), 1, true);
    es', s' := DoMany(n, es', s', tag, msg, Loaded(w, src, multiset{}), Filled(src, InsertRows, 0), 1, true);
    es', s' := DoMany(n, es', s', tag, msg, Loaded(w, src, src.rows), Filled(src, CountRows, 0), 1, true);
    es', s' := DoMany(n, es', s', tag, msg, Loaded(w, src, src.rows), Filled(src, Generate, |src.rows|), 3, true);
  }

  /** A job is ready, nothing runs, and a copy of its message with this many attempts is queued. */
  ghost predicate Haunted(s: State, tag: nat, j: Uuid, attempt: nat) {
    && j in s.jobs && s.jobs[j].status.Ready?
    && tag in s.copies && s.copies[tag].place.Waiting?
    && s.copies[tag].msg.job == j && s.copies[tag].msg.attempt == attempt
    && forall c :: c in s.copies ==> c <= tag && !s.copies[c].place.Running?
  }

  const REFUSED: Outcome := Failure(true, false, multiset{}, "connection refused")

  lemma BeginHaunted(n: nat, es: seq<Event>, s: State, tag: nat, j: Uuid, attempt: nat)
    returns (es': seq<Event>, s': State, v: JobView)
    requires Got(n, es, s, j, true) && Haunted(s, tag, j, attempt)
    ensures es <= es' && Got(n, es', s', j, true) && Alone(s', tag, j) && Others(s, s', tag)
    ensures At(s', tag, s.copies[tag].msg, v, FRESH) && v.row.status.Ready?
  {
    es', s' := BeginDelivery(n, es, s, tag, j, true);
    v := View(s', j, s.copies[tag].msg.user);
  }

  /** The lookup fails, and so does the attempt counter. */
  lemma LookupToRetry(n: nat, es: seq<Event>, s: State, tag: nat, j: Uuid, attempt: nat)
    returns (es': seq<Event>, s': State)
    requires Got(n, es, s, j, true) && Haunted(s, tag, j, attempt) && attempt + 1 < n
    ensures es <= es' && Got(n, es', s', j, true) && Alone(s', tag, j) && Others(s, s', tag)
    ensures j in s'.jobs && s'.jobs[j].status.Ready?
    ensures RunningAt(s', tag) && s'.copies[tag].msg == s.copies[tag].msg && TaskOf(s', tag).pc.Retry?
  {
    var v;
    var msg := s.copies[tag].msg;
    es', s', v := BeginHaunted(n, es, s, tag, j, attempt);
    es', s' := Do(n, es', s', tag, msg, v, FRESH, REFUSED, true);
    es', s' := Do(n, es', s', tag, msg, v, FRESH.(pc := CountAttempt, reason := "connection refused"), REFUSED, true);
  }

  /** One delivery whose lookup fails while attempts remain: the job stays ready, the message comes back. */
  lemma FailedLookup(n: nat, es: seq<Event>, s: State, tag: nat, j: Uuid, attempt: nat)
    returns (es': seq<Event>, s': State)
    requires Got(n, es, s, j, true) && Haunted(s, tag, j, attempt) && attempt + 1 < n
    ensures es <= es' && Got(n, es', s', j, true) && Haunted(s', tag + 1, j, attempt + 1)
  {
    es', s' := LookupToRetry(n, es, s, tag, j, attempt);
    es', s' := Snoc(n, es', s', Republish(tag, Confirmed, tag + 1), j, true);
    es', s' := Snoc(n, es', s', Settle(tag, false), j, true);
  }

  /** The lookup fails on the last attempt, and the ready job is marked failed. */
  lemma LastLookup(n: nat, es: seq<Event>, s: State, tag: nat, j: Uuid) returns (es': seq<Event>, s': State)
    requires n >= 1 && Got(n, es, s, j, true) && Haunted(s, tag, j, n - 1)
    ensures es <= es' && Got(n, es', s', j, true) && j in s'.jobs && s'.jobs[j].status == JobStatus.Failed
  {
    var v;
    var msg := s.copies[tag].msg;
    es', s', v := BeginHaunted(n, es, s, tag, j, n - 1);
    es', s' := Do(n, es', s', tag, msg, v, FRESH, REFUSED, true);
    es', s' := Do(n, es', s', tag, msg, v, FRESH.(pc := Pc.MarkFailed, reason := "connection refused"), Success, true);
  }

  lemma {:induction false} EveryLookupFails(n: nat, es: seq<Event>, s: State, tag: nat, j: Uuid, attempt: nat)
    returns (es': seq<Event>, s': State)
    requires Got(n, es, s, j, true) && Haunted(s, tag, j, attempt) && attempt < n
    ensures es <= es' && Got(n, es', s', j, true) && j in s'.jobs && s'.jobs[j].status == JobStatus.Failed
    decreases n - attempt
  {
    if attempt + 1 < n {
      es', s' := FailedLookup(n, es, s, tag, j, attempt);
      es', s' := EveryLookupFails(n, es', s', tag + 1, j, attempt + 1);
    } else {
      es', s' := LastLookup(n, es, s, tag, j);
    }
  }

  lemma ReachHaunted(n: nat, j: Uuid, u: Uuid, src: Source) returns (es: seq<Event>, s: State)
    requires n >= 1 && src.columns != []
    ensures Got(n, es, s, j, true) && Haunted(s, 1, j, 0)
  {
    es, s := ReachTwice(n, j, u, src, true);
    es, s := BeginDelivery(n, es, s, 0, j, true);
    es, s := FinishAlone(n, es, s, 0, FirstMessage(j, u, src), Start(u, src));
    es, s := Snoc(n, es, s, Settle(0, false), j, true);
  }

  /** Deliveries that never overlap are not enough to keep a job ready: if the readiness lookup of a
      duplicate fails on every attempt, the job goes from ready to failed. */
  lemma FailingLookupUndoesReady(n: nat, j: Uuid, u: Uuid, src: Source)
    returns (es: seq<Event>, s: State, later: seq<Event>, t: State)
    requires n >= 1 && src.columns != []
    ensures SoloRun(n, INIT, es, s, j, false) && j in s.jobs && s.jobs[j].status.Ready?
    ensures es <= later && SoloRun(n, INIT, later, t, j, false) && j in t.jobs && t.jobs[j].status == JobStatus.Failed
  {
    es, s := ReachHaunted(n, j, u, src);
    later, t := EveryLookupFails(n, es, s, 1, j, 0);
  }
}
