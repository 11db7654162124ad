// Bounded work: each fault buys a bounded number of steps, so once faults and submissions stop
// every run drains the outbox and the queue and leaves each job ready, failed or dead-lettered.

module Quiescence {
  import opened Domain
  import opened Protocol
  import opened Safety
  import opened Sums

  /** Submissions and the environment's misbehaviour. Failing store operations are not among them. */
  predicate Faulty(e: Event) {
    match e
    case Submit(_, _, _, _) => true
    case Publish(_, p, _) => !p.Confirmed?
    case Rollback(_) => true
    case Settle(_, lost) => lost
    case Crash(_) => true
    case _ => false
  }

  function Faults(es: seq<Event>): nat {
    if es == [] then 0 else (if Faulty(es[0]) then 1 else 0) + Faults(es[1..])
  }

  // ---------------------------------------------------------------- the measure

  function Rank(pc: Pc): nat {
    match pc
    case Lookup => 17
    case ToDownloading => 16
    case ToInferring => 15
    case Describe => 14
    case ToIngesting => 13
    case DropTable => 12
    case CreateTable => 11
    case InsertRows => 10
    case CountRows => 9
    case Generate => 8
    case StoreDashboard => 7
    case MarkReady => 6
    case CountAttempt => 5
    case Retry => 4
    case MarkFailed => 3
    case Finished => 2
    case AckRetry => 2
    case Nack => 2
  }

  /** Whether this delivery can still republish its message. */
  predicate MayRetry(p: Place) {
    p.Waiting? || p.Halted? || (p.Running? && p.task.pc !in {MarkFailed, Finished, AckRetry, Nack})
  }

  function PlaceWeight(p: Place): nat {
    match p
    case Waiting => 18
    case Running(t) => Rank(t.pc)
    case Halted => 19
    case Dead => 0
    case Acked => 0
  }

  /** Own steps left, plus those of the later attempts it may still cause. */
  function CopyWeight(n: nat, c: Copy): nat {
    PlaceWeight(c.place) + if MayRetry(c.place) && c.msg.attempt < n then 18 * (n - 1 - c.msg.attempt) else 0
  }

  function RowWeight(n: nat, relays: map<nat, Tx>, r: nat, row: OutboxRow): nat {
    if row.published then 0
    else if row.lock.None? || row.lock.value !in relays then 18 * n + 4
    else
      var tx := relays[row.lock.value];
      if r !in tx.done then 18 * n + 3 else if tx.done[r] then 1 else 18 * n + 5
  }

  ghost function CopyWeights(n: nat, copies: map<nat, Copy>): map<nat, nat> {
    map c | c in copies :: CopyWeight(n, copies[c])
  }

  ghost function RowWeights(n: nat, rows: map<nat, OutboxRow>, relays: map<nat, Tx>): map<nat, nat> {
    map r | r in rows :: RowWeight(n, relays, r, rows[r])
  }

  ghost function Measure(n: nat, s: State): nat {
    Sum(RowWeights(n, s.rows, s.relays)) + Sum(CopyWeights(n, s.copies))
  }

  /** The most a single fault can add: a rollback of a full, fully published batch. */
  function Surge(n: nat): nat {
    BATCH_SIZE * (18 * n + 4)
  }

  // ---------------------------------------------------------------- copies

  lemma CopyAdded(n: nat, copies: map<nat, Copy>, tag: nat, c: Copy)
    requires tag !in copies
    ensures Sum(CopyWeights(n, copies[tag := c])) == Sum(CopyWeights(n, copies)) + CopyWeight(n, c)
  {
    var m := CopyWeights(n, copies);
    SumUpdate(m, tag, CopyWeight(n, c));
    assert CopyWeights(n, copies[tag := c]) == m[tag := CopyWeight(n, c)];
  }

  lemma CopyMoved(n: nat, copies: map<nat, Copy>, tag: nat, c: Copy)
    requires tag in copies
    ensures Sum(CopyWeights(n, copies[tag := c])) ==
            Sum(CopyWeights(n, copies)) + CopyWeight(n, c) - CopyWeight(n, copies[tag])
  {
    var m := CopyWeights(n, copies);
    SumUpdate(m, tag, CopyWeight(n, c));
    assert CopyWeights(n, copies[tag := c]) == m[tag := CopyWeight(n, c)];
  }

  lemma MoveCost(n: nat, s: State, s': State, tag: nat, p: Place)
    requires tag in s.copies && s'.rows == s.rows && s'.relays == s.relays
    requires s'.copies == s.copies[tag := s.copies[tag].(place := p)]
    ensures Measure(n, s') == Measure(n, s)
              + CopyWeight(n, s.copies[tag].(place := p)) - CopyWeight(n, s.copies[tag])
  {
    CopyMoved(n, s.copies, tag, s.copies[tag].(place := p));
  }

  /** Every store operation of a delivery is progress, however it ends. */
  lemma WorkProgress(n: nat, msg: Message, v: JobView, t: Task, o: Outcome)
    requires Working(t.pc)
    ensures Rank(Continue(n, msg, v, t, o).pc) < Rank(t.pc)
    ensures MayRetry(Running(Continue(n, msg, v, t, o))) ==> MayRetry(Running(t))
  {
    if o.Success? {
      SuccessProgress(n, msg, v, t);
    }
  }

  lemma SuccessProgress(n: nat, msg: Message, v: JobView, t: Task)
    requires Working(t.pc)
    ensures Rank(Continue(n, msg, v, t, Success).pc) < Rank(t.pc)
    ensures MayRetry(Running(Continue(n, msg, v, t, Success))) ==> MayRetry(Running(t))
  {
  }

  lemma WorkCost(n: nat, s: State, tag: nat, o: Outcome)
    requires Enabled(s, Work(tag, o))
    ensures Measure(n, ApplyWork(n, s, tag, o)) < Measure(n, s)
  {
    var msg, t := s.copies[tag].msg, TaskOf(s, tag);
    var v := View(s, msg.job, msg.user);
    WorkShape(n, s, tag, o);
    WorkProgress(n, msg, v, t, o);
    MoveCost(n, s, ApplyWork(n, s, tag, o), tag, Running(Continue(n, msg, v, t, o)));
  }

  lemma RepublishCost(n: nat, s: State, tag: nat, p: PubOutcome, child: nat)
    requires CopiesOk(n, s) && Enabled(s, Republish(tag, p, child))
    ensures Measure(n, ApplyRepublish(s, tag, p, child)) < Measure(n, s)
  {
    assert CopyOk(n, s, s.copies[tag]);
    RepublishShape(s, tag, p, child);
    RepublishCopiesCost(n, s.copies, tag, AfterRetry(s.copies[tag], p), child);
  }

  lemma RepublishCopiesCost(n: nat, copies: map<nat, Copy>, tag: nat, moved: Copy, child: nat)
    requires tag in copies && copies[tag].place.Running? && copies[tag].place.task.pc.Retry?
    requires copies[tag].msg.attempt + 1 < n
    requires moved.place.Running? && moved.place.task.pc in {AckRetry, MarkFailed}
    ensures Sum(CopyWeights(n, copies[tag := moved])) < Sum(CopyWeights(n, copies))
    ensures child !in copies ==>
            Sum(CopyWeights(n, copies[tag := moved][child := NextAttempt(copies[tag])])) < Sum(CopyWeights(n, copies))
  {
    CopyMoved(n, copies, tag, moved);
    RetryWeight(n, copies[tag]);
    if child !in copies {
      CopyAdded(n, copies[tag := moved], child, NextAttempt(copies[tag]));
    }
  }

  /** The next attempt costs exactly what this one had set aside for it. */
  lemma RetryWeight(n: nat, c: Copy)
    requires c.msg.attempt + 1 < n && c.place.Running? && c.place.task.pc.Retry?
    ensures CopyWeight(n, NextAttempt(c)) + 4 == CopyWeight(n, c)
  {
  }

  // ---------------------------------------------------------------- rows

  lemma RowUpdated(n: nat, rows: map<nat, OutboxRow>, relays: map<nat, Tx>, rows': map<nat, OutboxRow>,
                   relays': map<nat, Tx>, r: nat)
    requires r in rows && rows'.Keys == rows.Keys
    requires forall q :: q in rows && q != r ==> RowWeight(n, relays', q, rows'[q]) == RowWeight(n, relays, q, rows[q])
    ensures Sum(RowWeights(n, rows', relays')) == Sum(RowWeights(n, rows, relays))
              + RowWeight(n, relays', r, rows'[r]) - RowWeight(n, relays, r, rows[r])
  {
    var m := RowWeights(n, rows, relays);
    SumUpdate(m, r, RowWeight(n, relays', r, rows'[r]));
    assert RowWeights(n, rows', relays') == m[r := RowWeight(n, relays', r, rows'[r])];
  }

  lemma SubmitCost(n: nat, s: State, j: Uuid, u: Uuid, src: Source, r: nat)
    requires r !in s.rows
    ensures Measure(n, ApplySubmit(s, j, u, src, r)) == Measure(n, s) + 18 * n + 4
  {
    RowAdded(n, s.rows, s.relays, r, OutboxRow(Message(j, u, src, 0), false, 0, None, 0));
  }

  lemma RowAdded(n: nat, rows: map<nat, OutboxRow>, relays: map<nat, Tx>, r: nat, row: OutboxRow)
    requires r !in rows && !row.published && row.lock.None?
    ensures Sum(RowWeights(n, rows[r := row], relays)) == Sum(RowWeights(n, rows, relays)) + 18 * n + 4
  {
    var m := RowWeights(n, rows, relays);
    SumUpdate(m, r, 18 * n + 4);
    assert RowWeights(n, rows[r := row], relays) == m[r := 18 * n + 4];
  }

  lemma ClaimCost(n: nat, s: State, k: nat, batch: seq<nat>)
    requires LocksOk(s.rows, s.relays) && k !in s.relays && IsClaim(s.rows, batch)
    ensures Measure(n, ApplyClaim(s, k, batch)) < Measure(n, s)
  {
    var s' := ApplyClaim(s, k, batch);
    var m, m' := RowWeights(n, s.rows, s.relays), RowWeights(n, s'.rows, s'.relays);
    assert batch[0] in batch;
    SumLower(m, m', batch[0]);
  }

  lemma PublishCost(n: nat, s: State, k: nat, p: PubOutcome, tag: nat)
    requires n >= 1 && RowsOk(s) && LocksOk(s.rows, s.relays) && Enabled(s, Publish(k, p, tag))
    ensures var s' := ApplyPublish(s, k, p, tag);
            if p.Confirmed? then Measure(n, s') < Measure(n, s) else Measure(n, s') <= Measure(n, s) + 18 * n + 2
  {
    var s' := ApplyPublish(s, k, p, tag);
    var r := s.relays[k].todo[0];
    PublishRowCost(n, s.rows, s.relays, s'.rows, s'.relays, k, p.Confirmed?);
    if Accepted(p) {
      var c := Copy(s.rows[r].msg, r, true, Waiting);
      CopyAdded(n, s.copies, tag, c);
      assert CopyWeight(n, c) == 18 * n;
    }
  }

  lemma PublishRowCost(n: nat, rows: map<nat, OutboxRow>, relays: map<nat, Tx>, rows': map<nat, OutboxRow>,
                       relays': map<nat, Tx>, k: nat, stamped: bool)
    requires LocksOk(rows, relays) && k in relays && relays[k].todo != []
    requires rows'.Keys == rows.Keys
    requires forall r :: r in rows ==> rows'[r].lock == rows[r].lock && rows'[r].published == rows[r].published
    requires relays' == relays[k := Tx(relays[k].todo[1..], relays[k].done[relays[k].todo[0] := stamped])]
    ensures Sum(RowWeights(n, rows', relays')) ==
            Sum(RowWeights(n, rows, relays)) - (18 * n + 3) + (if stamped then 1 else 18 * n + 5)
  {
    var r := relays[k].todo[0];
    assert TxOk(rows, k, relays[k]) && Holds(relays[k], r);
    RowUpdated(n, rows, relays, rows', relays', r);
  }

  lemma CommitCost(n: nat, s: State, k: nat)
    requires LocksOk(s.rows, s.relays) && k in s.relays && s.relays[k].todo == []
    ensures Measure(n, ApplyCommit(s, k)) < Measure(n, s)
  {
    var s' := ApplyCommit(s, k);
    var m, m' := RowWeights(n, s.rows, s.relays), RowWeights(n, s'.rows, s'.relays);
    assert TxOk(s.rows, k, s.relays[k]);
    assert s.relays[k].done.Keys != {};
    var r :| r in s.relays[k].done;
    assert Holds(s.relays[k], r);
    forall q | q in m ensures m'[q] <= m[q] {
      CommitRowCost(n, s, k, q);
    }
    CommitRowCost(n, s, k, r);
    SumLower(m, m', r);
  }

  lemma CommitRowCost(n: nat, s: State, k: nat, r: nat)
    requires LocksOk(s.rows, s.relays) && k in s.relays && s.relays[k].todo == [] && r in s.rows
    ensures var w := RowWeight(n, s.relays, r, s.rows[r]);
            var w' := RowWeight(n, s.relays - {k}, r, CommitRow(s.rows[r], s.relays[k], r));
            w' <= w && (r in s.relays[k].done ==> w' < w)
  {
    assert TxOk(s.rows, k, s.relays[k]);
    assert Holds(s.relays[k], r) ==> s.rows[r].lock == Some(k);
  }

  ghost function SetOf(q: seq<nat>): set<nat> {
    set r | r in q
  }

  ghost function Held(tx: Tx): set<nat> {
    SetOf(tx.todo) + tx.done.Keys
  }

  lemma UnionSize(a: set<nat>, b: set<nat>)
    ensures |a + b| <= |a| + |b|
  {
    assert a + b == a + (b - a);
  }

  lemma {:induction false} SeqSetSize(q: seq<nat>)
    ensures |SetOf(q)| <= |q|
  {
    if q == [] {
      assert SetOf(q) == {};
    } else {
      SeqSetSize(q[1..]);
      assert SetOf(q) == SetOf(q[1..]) + {q[0]} by {
        assert q == [q[0]] + q[1..];
      }
      UnionSize(SetOf(q[1..]), {q[0]});
    }
  }

  lemma TimesMonotone(x: nat, y: nat, d: nat)
    requires x <= y
    ensures x * d <= y * d
  {
  }

  lemma RollbackCost(n: nat, s: State, k: nat)
    requires LocksOk(s.rows, s.relays) && k in s.relays
    ensures Measure(n, ApplyRollback(s, k)) <= Measure(n, s) + Surge(n)
  {
    var s' := ApplyRollback(s, k);
    RollbackRowsCost(n, s.rows, s.relays, k, RowWeights(n, s.rows, s.relays), RowWeights(n, s'.rows, s'.relays));
  }

  lemma RollbackRowsCost(n: nat, rows: map<nat, OutboxRow>, relays: map<nat, Tx>, k: nat,
                         m: map<nat, nat>, m': map<nat, nat>)
    requires LocksOk(rows, relays) && k in relays && m.Keys == m'.Keys == rows.Keys
    requires forall r :: r in rows ==> m[r] == RowWeight(n, relays, r, rows[r])
    requires forall r :: r in rows ==> m'[r] == RowWeight(n, relays - {k}, r, RollbackRow(rows[r], relays[k], r))
    ensures Sum(m') <= Sum(m) + Surge(n)
  {
    var held, d := Held(relays[k]), 18 * n + 4;
    forall q | q in m ensures m'[q] <= m[q] + (if q in held then d else 0) {
      RollbackRowCost(n, rows, relays, k, q);
    }
    SumRaise(m, m', held, d);
    HeldGrant(m, rows, k, relays[k], d);
  }

  lemma HeldGrant(m: map<nat, nat>, rows: map<nat, OutboxRow>, k: nat, tx: Tx, d: nat)
    requires TxOk(rows, k, tx)
    ensures Grant(m, Held(tx), d) <= BATCH_SIZE * d
  {
    var held := Held(tx);
    SeqSetSize(tx.todo);
    UnionSize(SetOf(tx.todo), tx.done.Keys);
    SubsetSize(m.Keys * held, held);
    TimesMonotone(|m.Keys * held|, BATCH_SIZE, d);
  }

  lemma {:induction false} SubsetSize(a: set<nat>, b: set<nat>)
    requires a <= b
    ensures |a| <= |b|
  {
    if a != {} {
      var x :| x in a;
      SubsetSize(a - {x}, b - {x});
    }
  }

  lemma RollbackRowCost(n: nat, rows: map<nat, OutboxRow>, relays: map<nat, Tx>, k: nat, r: nat)
    requires LocksOk(rows, relays) && k in relays && r in rows
    ensures RowWeight(n, relays - {k}, r, RollbackRow(rows[r], relays[k], r))
              <= RowWeight(n, relays, r, rows[r]) + (if r in Held(relays[k]) then 18 * n + 4 else 0)
  {
    assert TxOk(rows, k, relays[k]);
    assert Holds(relays[k], r) <==> r in Held(relays[k]);
    assert Holds(relays[k], r) ==> rows[r].lock == Some(k);
    assert rows[r].lock == Some(k) ==> Holds(relays[k], r);
  }

  // ---------------------------------------------------------------- steps and runs

  lemma MoveBound(n: nat, s: State, tag: nat, p: Place)
    requires n >= 1 && tag in s.copies
    ensures Measure(n, MoveCopy(s, tag, p)) <= Measure(n, s) + 18 * n + 4
    ensures CopyWeight(n, s.copies[tag].(place := p)) < CopyWeight(n, s.copies[tag]) ==>
            Measure(n, MoveCopy(s, tag, p)) < Measure(n, s)
  {
    MoveCost(n, s, MoveCopy(s, tag, p), tag, p);
  }

  lemma SurgeCovers(n: nat)
    ensures Surge(n) >= 18 * n + 4
  {
  }

  lemma RelayStepCost(n: nat, s: State, e: Event)
    requires n >= 1 && RowsOk(s) && LocksOk(s.rows, s.relays) && Enabled(s, e)
    requires e.Submit? || e.Claim? || e.Publish? || e.Commit? || e.Rollback?
    ensures var s' := Apply(n, s, e);
            if Faulty(e) then Measure(n, s') <= Measure(n, s) + Surge(n) else Measure(n, s') < Measure(n, s)
  {
    SurgeCovers(n);
    match e
    case Submit(j, u, src, r) => SubmitCost(n, s, j, u, src, r);
    case Claim(k, batch) => ClaimCost(n, s, k, batch);
    case Publish(k, p, tag) => PublishCost(n, s, k, p, tag);
    case Commit(k) => CommitCost(n, s, k);
    case Rollback(k) => RollbackCost(n, s, k);
  }

  lemma PlaceStepCost(n: nat, s: State, e: Event)
    requires n >= 1 && Enabled(s, e) && (e.Deliver? || e.Settle? || e.Crash? || e.Requeue?)
    ensures var s' := Apply(n, s, e);
            if Faulty(e) then Measure(n, s') <= Measure(n, s) + Surge(n) else Measure(n, s') < Measure(n, s)
  {
    SurgeCovers(n);
    match e
    case Deliver(tag) => MoveBound(n, s, tag, Running(FRESH));
    case Settle(tag, lost) =>
      MoveBound(n, s, tag, if lost then Halted else if TaskOf(s, tag).pc.Nack? then Dead else Acked);
    case Crash(tag) => MoveBound(n, s, tag, Halted);
    case Requeue(tag) => MoveBound(n, s, tag, Waiting);
  }

  lemma StepCost(n: nat, s: State, e: Event)
    requires n >= 1 && CopiesOk(n, s) && RowsOk(s) && LocksOk(s.rows, s.relays) && Enabled(s, e)
    ensures var s' := Apply(n, s, e);
            if Faulty(e) then Measure(n, s') <= Measure(n, s) + Surge(n) else Measure(n, s') < Measure(n, s)
  {
    if e.Work? {
      WorkCost(n, s, e.tag, e.outcome);
    } else if e.Republish? {
      RepublishCost(n, s, e.tag, e.pub, e.child);
    } else if e.Deliver? || e.Settle? || e.Crash? || e.Requeue? {
      PlaceStepCost(n, s, e);
    } else {
      RelayStepCost(n, s, e);
    }
  }

  /** The steps that `faults` faults pay for. */
  function Budget(n: nat, faults: nat): nat {
    if faults == 0 then 0 else Surge(n) + 1 + Budget(n, faults - 1)
  }

  lemma {:induction false} BudgetIsProduct(n: nat, faults: nat)
    ensures Budget(n, faults) == faults * (Surge(n) + 1)
  {
    if faults > 0 {
      BudgetIsProduct(n, faults - 1);
      TimesSuccessor(faults - 1, Surge(n) + 1);
    }
  }

  /** The price of one step. */
  ghost predicate Priced(n: nat, s: State, e: Event)
    requires Enabled(s, e)
  {
    if Faulty(e) then Measure(n, Apply(n, s, e)) <= Measure(n, s) + Surge(n)
    else Measure(n, Apply(n, s, e)) < Measure(n, s)
  }

  ghost predicate PricedRun(n: nat, s: State, es: seq<Event>, t: State)
    decreases |es|
  {
    if es == [] then s == t
    else Enabled(s, es[0]) && Priced(n, s, es[0]) && PricedRun(n, Apply(n, s, es[0]), es[1..], t)
  }

  lemma RunCostStep(n: nat, s: State, e: Event)
    requires n >= 1 && Inv(n, s) && Enabled(s, e)
    ensures Inv(n, Apply(n, s, e)) && Priced(n, s, e)
  {
    StepCost(n, s, e);
    StepInv(n, s, e);
  }

  lemma {:induction false} RunIsPriced(n: nat, s: State, es: seq<Event>, t: State)
    requires n >= 1 && Inv(n, s) && Run(n, s, es, t)
    ensures PricedRun(n, s, es, t)
    decreases |es|
  {
    if es != [] {
      RunCostStep(n, s, es[0]);
      RunIsPriced(n, Apply(n, s, es[0]), es[1..], t);
    }
  }

  lemma {:induction false} PricesAdd(n: nat, s: State, es: seq<Event>, t: State)
    requires PricedRun(n, s, es, t)
    ensures Measure(n, t) + |es| <= Measure(n, s) + Budget(n, Faults(es))
    decreases |es|
  {
    if es != [] {
      var s1 := Apply(n, s, es[0]);
      PricesAdd(n, s1, es[1..], t);
      OneMore(n, Faulty(es[0]), Faults(es[1..]), Measure(n, s), Measure(n, s1), Measure(n, t), |es| - 1);
    }
  }

  lemma OneMore(n: nat, faulty: bool, faults: nat, before: nat, after: nat, last: nat, length: nat)
    requires last + length <= after + Budget(n, faults)
    requires if faulty then after <= before + Surge(n) else after < before
    ensures last + (length + 1) <= before + Budget(n, if faulty then faults + 1 else faults)
  {
  }

  /** No run is longer than its faults and submissions pay for: retries are bounded, nothing spins. */
  lemma RunsAreBounded(n: nat, es: seq<Event>, s: State)
    requires n >= 1 && Run(n, INIT, es, s)
    ensures |es| <= Faults(es) * (Surge(n) + 1)
  {
    InitInv(n);
    assert RowWeights(n, INIT.rows, INIT.relays) == map[] && CopyWeights(n, INIT.copies) == map[];
    RunIsPriced(n, INIT, es, s);
    PricesAdd(n, INIT, es, s);
    BudgetIsProduct(n, Faults(es));
  }

  // ---------------------------------------------------------------- progress

  /** Nothing left to publish, to deliver, to settle or to requeue. */
  ghost predicate Quiescent(s: State) {
    && s.relays == map[]
    && (forall r :: r in s.rows ==> s.rows[r].published)
    && (forall c :: c in s.copies ==> s.copies[c].place.Dead? || s.copies[c].place.Acked?)
  }

  /** The `limit` smallest members of `ids`, in order. */
  ghost function Oldest(ids: set<nat>, limit: nat): seq<nat>
    requires ids != {} ==> exists x :: IsMin(ids, x)
  {
    if ids == {} || limit == 0 then [] else
      var x :| IsMin(ids, x);
      HasMin(ids - {x});
      [x] + Oldest(ids - {x}, limit - 1)
  }

  ghost predicate IsMin(ids: set<nat>, x: nat) {
    x in ids && forall y :: y in ids ==> x <= y
  }

  lemma {:induction false} HasMin(ids: set<nat>)
    ensures ids != {} ==> exists x :: IsMin(ids, x)
  {
    if ids != {} {
      var a :| a in ids;
      HasMin(ids - {a});
      if ids == {a} {
        assert IsMin(ids, a);
      } else {
        assert ids - {a} != {};
        var b :| IsMin(ids - {a}, b);
        assert forall y :: y in ids ==> y == a || y in ids - {a};
        assert IsMin(ids, if a < b then a else b);
      }
    }
  }

  lemma {:induction false} OldestMembers(ids: set<nat>, limit: nat)
    requires ids != {} ==> exists x :: IsMin(ids, x)
    ensures var q := Oldest(ids, limit);
            && |q| <= limit && (ids != {} && limit > 0 ==> q != [])
            && (forall x :: x in q ==> x in ids)
    decreases limit
  {
    if ids != {} && limit > 0 {
      var x := Oldest(ids, limit)[0];
      HasMin(ids - {x});
      OldestMembers(ids - {x}, limit - 1);
    }
  }

  lemma {:induction false} OldestAscends(ids: set<nat>, limit: nat, i: nat, m: nat)
    requires ids != {} ==> exists x :: IsMin(ids, x)
    requires i < m < |Oldest(ids, limit)|
    ensures Oldest(ids, limit)[i] < Oldest(ids, limit)[m]
    decreases limit
  {
    var x := Oldest(ids, limit)[0];
    HasMin(ids - {x});
    var rest := Oldest(ids - {x}, limit - 1);
    assert Oldest(ids, limit) == [x] + rest;
    if i == 0 {
      OldestMembers(ids - {x}, limit - 1);
      assert rest[m - 1] in ids - {x};
    } else {
      OldestAscends(ids - {x}, limit - 1, i - 1, m - 1);
    }
  }

  /** What is left out is younger than everything taken, and only a full batch leaves anything out. */
  lemma {:induction false} OldestLeavesYounger(ids: set<nat>, limit: nat, y: nat, z: nat)
    requires ids != {} ==> exists x :: IsMin(ids, x)
    requires y in ids && y !in Oldest(ids, limit)
    ensures |Oldest(ids, limit)| == limit && (z in Oldest(ids, limit) ==> z < y)
    decreases limit
  {
    if limit > 0 {
      var x := Oldest(ids, limit)[0];
      HasMin(ids - {x});
      var rest := Oldest(ids - {x}, limit - 1);
      assert Oldest(ids, limit) == [x] + rest;
      OldestLeavesYounger(ids - {x}, limit - 1, y, z);
    }
  }

  lemma ClaimExists(rows: map<nat, OutboxRow>) returns (batch: seq<nat>)
    requires exists r :: r in rows && Claimable(rows[r])
    ensures IsClaim(rows, batch)
  {
    var ids := set r | r in rows && Claimable(rows[r]);
    var r :| r in rows && Claimable(rows[r]);
    assert r in ids;
    HasMin(ids);
    batch := Oldest(ids, BATCH_SIZE);
    OldestMembers(ids, BATCH_SIZE);
    forall i, m | 0 <= i < m < |batch| ensures batch[i] < batch[m] {
      OldestAscends(ids, BATCH_SIZE, i, m);
    }
    forall y | y in rows && Claimable(rows[y]) && y !in batch
      ensures |batch| == BATCH_SIZE && forall b :: b in batch ==> b < y
    {
      forall b ensures |batch| == BATCH_SIZE && (b in batch ==> b < y) {
        OldestLeavesYounger(ids, BATCH_SIZE, y, b);
      }
    }
  }

  lemma {:induction false} Unused(ids: set<nat>) returns (x: nat)
    ensures forall y :: y in ids ==> y < x
  {
    if ids == {} {
      x := 0;
    } else {
      var a :| a in ids;
      var b := Unused(ids - {a});
      assert forall y :: y in ids ==> y == a || y in ids - {a};
      x := if a < b then b else a + 1;
    }
  }

  lemma RelayProgress(s: State) returns (e: Event)
    requires LocksOk(s.rows, s.relays) && s.relays != map[]
    ensures Enabled(s, e) && !Faulty(e)
  {
    var k :| k in s.relays;
    assert TxOk(s.rows, k, s.relays[k]);
    if s.relays[k].todo == [] {
      e := Commit(k);
    } else {
      assert Holds(s.relays[k], s.relays[k].todo[0]);
      var tag := Unused(s.copies.Keys);
      e := Publish(k, Confirmed, tag);
    }
  }

  lemma RowProgress(s: State, r: nat) returns (e: Event)
    requires LocksOk(s.rows, s.relays) && s.relays == map[] && r in s.rows && !s.rows[r].published
    ensures Enabled(s, e) && !Faulty(e)
  {
    assert Claimable(s.rows[r]);
    var batch := ClaimExists(s.rows);
    e := Claim(0, batch);
  }

  lemma CopyProgress(n: nat, s: State, c: nat) returns (e: Event)
    requires CopiesOk(n, s) && c in s.copies && !s.copies[c].place.Dead? && !s.copies[c].place.Acked?
    ensures Enabled(s, e) && !Faulty(e)
  {
    assert CopyOk(n, s, s.copies[c]);
    match s.copies[c].place
    case Waiting => e := Deliver(c);
    case Halted => e := Requeue(c);
    case Running(t) =>
      if Working(t.pc) {
        e := Work(c, Success);
      } else if t.pc.Retry? {
        var child := Unused(s.copies.Keys);
        e := Republish(c, Confirmed, child);
      } else {
        e := Settle(c, false);
      }
  }

  /** Unless everything has drained, some step other than a fault or a submission can be taken. */
  lemma Progress(n: nat, s: State) returns (e: Event)
    requires CopiesOk(n, s) && LocksOk(s.rows, s.relays) && !Quiescent(s)
    ensures Enabled(s, e) && !Faulty(e)
  {
    if s.relays != map[] {
      e := RelayProgress(s);
    } else if exists r :: r in s.rows && !s.rows[r].published {
      var r :| r in s.rows && !s.rows[r].published;
      e := RowProgress(s, r);
    } else {
      var c :| c in s.copies && !s.copies[c].place.Dead? && !s.copies[c].place.Acked?;
      e := CopyProgress(n, s, c);
    }
  }

  /** From every reachable state the system drains by itself, without another fault. */
  lemma {:induction false} Drains(n: nat, s: State) returns (es: seq<Event>, t: State)
    requires n >= 1 && Inv(n, s)
    ensures Run(n, s, es, t) && Faults(es) == 0 && Quiescent(t) && |es| <= Measure(n, s)
    decreases Measure(n, s)
  {
    if Quiescent(s) {
      es, t := [], s;
    } else {
      var e := Progress(n, s);
      RunCostStep(n, s, e);
      var rest;
      rest, t := Drains(n, Apply(n, s, e));
      RunStep(n, s, e, rest, t);
      es := [e] + rest;
    }
  }

  /** A run that no step but a fault can extend has drained, and every job has an outcome. */
  lemma DrainedOutcome(n: nat, es: seq<Event>, s: State, j: Uuid)
    requires n >= 1 && Run(n, INIT, es, s)
    requires forall e :: Enabled(s, e) ==> Faulty(e)
    requires j in s.jobs
    ensures Quiescent(s)
    ensures s.jobs[j].status == Ready || s.jobs[j].status == Failed ||
            exists c :: c in s.copies && s.copies[c].msg.job == j && s.copies[c].place.Dead?
  {
    InitInv(n);
    RunInv(n, INIT, es, s);
    if !Quiescent(s) {
      var e := Progress(n, s);
      assert false;
    }
    NoJobLost(n, es, s, j);
  }
}
