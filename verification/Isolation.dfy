// Jobs do not interfere: seen from one job, any interleaved run of the whole system is a legal
// run of that job alone, with the same row, dashboard, table and messages.

module Isolation {
  import opened Domain
  import opened Protocol
  import opened Safety

  // ---------------------------------------------------------------- one job's share of a state

  /** Which job each outbox row belongs to. */
  ghost function Owners(rows: map<nat, OutboxRow>): map<nat, Uuid> {
    map r | r in rows :: rows[r].msg.job
  }

  ghost predicate Mine(own: map<nat, Uuid>, j: Uuid, r: nat) {
    r in own && own[r] == j
  }

  ghost function Keep(own: map<nat, Uuid>, j: Uuid, q: seq<nat>): seq<nat> {
    if q == [] then [] else (if Mine(own, j, q[0]) then [q[0]] else []) + Keep(own, j, q[1..])
  }

  ghost function KeepTx(own: map<nat, Uuid>, j: Uuid, tx: Tx): Tx {
    Tx(Keep(own, j, tx.todo), map r | r in tx.done && Mine(own, j, r) :: tx.done[r])
  }

  ghost predicate Touches(own: map<nat, Uuid>, j: Uuid, tx: Tx) {
    exists r :: Holds(tx, r) && Mine(own, j, r)
  }

  ghost predicate TableOf(name: string, j: Uuid) {
    exists u: Uuid :: name == DatasetTableName(u, j)
  }

  ghost function KeepRelays(own: map<nat, Uuid>, j: Uuid, relays: map<nat, Tx>): map<nat, Tx> {
    map k | k in relays && Touches(own, j, relays[k]) :: KeepTx(own, j, relays[k])
  }

  ghost function KeepRows(rows: map<nat, OutboxRow>, j: Uuid): map<nat, OutboxRow> {
    map r | r in rows && rows[r].msg.job == j :: rows[r]
  }

  ghost function KeepCopies(copies: map<nat, Copy>, j: Uuid): map<nat, Copy> {
    map c | c in copies && copies[c].msg.job == j :: copies[c]
  }

  ghost function KeepKey<V>(m: map<Uuid, V>, j: Uuid): map<Uuid, V> {
    map i | i in m && i == j :: m[i]
  }

  ghost function KeepTables(tables: map<string, Table>, j: Uuid): map<string, Table> {
    map x | x in tables && TableOf(x, j) :: tables[x]
  }

  ghost function Project(s: State, j: Uuid): State {
    State(KeepKey(s.jobs, j), KeepKey(s.dashboards, j), KeepTables(s.tables, j), KeepRows(s.rows, j),
          KeepRelays(Owners(s.rows), j, s.relays), KeepCopies(s.copies, j), KeepKey(s.holders, j))
  }

  /** What one job sees of a step: the same step, a smaller claim, or nothing. */
  ghost function ProjectEvent(s: State, e: Event, j: Uuid): Option<Event>
    requires Enabled(s, e)
  {
    var own := Owners(s.rows);
    match e
    case Submit(i, u, src, r) => if i == j then Some(e) else None
    case Claim(k, batch) => if Keep(own, j, batch) == [] then None else Some(Claim(k, Keep(own, j, batch)))
    case Publish(k, p, tag) => if Mine(own, j, s.relays[k].todo[0]) then Some(e) else None
    case Commit(k) => if Touches(own, j, s.relays[k]) then Some(e) else None
    case Rollback(k) => if Touches(own, j, s.relays[k]) then Some(e) else None
    case Deliver(tag) => if s.copies[tag].msg.job == j then Some(e) else None
    case Work(tag, o) => if s.copies[tag].msg.job == j then Some(e) else None
    case Republish(tag, p, child) => if s.copies[tag].msg.job == j then Some(e) else None
    case Settle(tag, lost) => if s.copies[tag].msg.job == j then Some(e) else None
    case Crash(tag) => if s.copies[tag].msg.job == j then Some(e) else None
    case Requeue(tag) => if s.copies[tag].msg.job == j then Some(e) else None
  }

  ghost function ProjectRun(n: nat, s: State, es: seq<Event>, t: State, j: Uuid): seq<Event>
    requires Run(n, s, es, t)
    decreases |es|
  {
    if es == [] then [] else
      var rest := ProjectRun(n, Apply(n, s, es[0]), es[1..], t, j);
      var e := ProjectEvent(s, es[0], j);
      if e.Some? then [e.value] + rest else rest
  }

  // ---------------------------------------------------------------- keeping rows

  lemma {:induction false} KeepMembers(own: map<nat, Uuid>, j: Uuid, q: seq<nat>, r: nat)
    ensures r in Keep(own, j, q) <==> r in q && Mine(own, j, r)
  {
    if q != [] {
      KeepMembers(own, j, q[1..], r);
      assert q == [q[0]] + q[1..];
    }
  }

  lemma {:induction false} KeepFrame(own: map<nat, Uuid>, own': map<nat, Uuid>, j: Uuid, q: seq<nat>)
    requires forall r :: r in q ==> (Mine(own, j, r) <==> Mine(own', j, r))
    ensures Keep(own, j, q) == Keep(own', j, q)
  {
    if q != [] {
      KeepFrame(own, own', j, q[1..]);
    }
  }

  /** A job has one row, so at most one entry of a batch is its own. */
  lemma {:induction false} KeepAtMostOne(own: map<nat, Uuid>, j: Uuid, q: seq<nat>)
    requires forall i, m :: 0 <= i < m < |q| ==> q[i] != q[m]
    requires forall a, b :: Mine(own, j, a) && Mine(own, j, b) ==> a == b
    ensures |Keep(own, j, q)| <= 1
  {
    if q != [] {
      KeepAtMostOne(own, j, q[1..]);
      if Mine(own, j, q[0]) && Keep(own, j, q[1..]) != [] {
        var r := Keep(own, j, q[1..])[0];
        KeepMembers(own, j, q[1..], r);
      }
    }
  }

  // ---------------------------------------------------------------- deliveries

  /** Replacing a copy of job `i` shows in job `j`'s share exactly if it is the same job. */
  lemma KeepCopiesUpdate(copies: map<nat, Copy>, tag: nat, c: Copy, j: Uuid)
    requires tag in copies ==> copies[tag].msg.job == c.msg.job
    ensures KeepCopies(copies[tag := c], j) ==
            if c.msg.job == j then KeepCopies(copies, j)[tag := c] else KeepCopies(copies, j)
  {
  }

  lemma KeepKeyUpdate<V>(m: map<Uuid, V>, i: Uuid, v: V, j: Uuid)
    ensures KeepKey(m[i := v], j) == if i == j then KeepKey(m, j)[i := v] else KeepKey(m, j)
  {
  }

  lemma KeepKeyPut<V>(m: map<Uuid, V>, i: Uuid, v: Option<V>, j: Uuid)
    ensures KeepKey(MapPut(m, i, v), j) == if i == j then MapPut(KeepKey(m, j), i, v) else KeepKey(m, j)
  {
  }

  lemma KeepTablesPut(tables: map<string, Table>, u: Uuid, i: Uuid, v: Option<Table>, j: Uuid)
    ensures var x := DatasetTableName(u, i);
            KeepTables(MapPut(tables, x, v), j) ==
            if i == j then MapPut(KeepTables(tables, j), x, v) else KeepTables(tables, j)
  {
    var x := DatasetTableName(u, i);
    if i == j {
      assert TableOf(x, j);
    } else if TableOf(x, j) {
      var u' :| x == DatasetTableName(u', j);
      DatasetTableNameInjective(u, i, u', j);
    }
  }

  lemma ProjectView(s: State, j: Uuid, user: Uuid)
    requires j in s.jobs
    ensures j in Project(s, j).jobs && View(Project(s, j), j, user) == View(s, j, user)
  {
    assert TableOf(DatasetTableName(user, j), j);
  }

  lemma MoveProjects(s: State, tag: nat, p: Place, j: Uuid)
    requires tag in s.copies
    ensures Project(MoveCopy(s, tag, p), j) ==
            if s.copies[tag].msg.job == j then MoveCopy(Project(s, j), tag, p) else Project(s, j)
  {
    KeepCopiesUpdate(s.copies, tag, s.copies[tag].(place := p), j);
  }

  lemma WorkHolders(n: nat, s: State, tag: nat, o: Outcome)
    requires Enabled(s, Work(tag, o))
    ensures ApplyWork(n, s, tag, o).holders ==
            if StageStatus(TaskOf(s, tag).pc).Some? && Applied(o) then s.holders[s.copies[tag].msg.job := ByCopy(tag)]
            else s.holders
  {
  }

  /** A job's share of a delivery step, part by part. */
  lemma WorkedParts(s: State, s': State, tag: nat, w: JobView, t: Task, j: Uuid)
    requires RunningAt(s, tag) && Worked(s, s', tag, w, t)
    ensures var c := s.copies[tag];
            if c.msg.job == j then
              && KeepKey(s'.jobs, j) == KeepKey(s.jobs, j)[j := w.row]
              && KeepKey(s'.dashboards, j) == MapPut(KeepKey(s.dashboards, j), j, w.dash)
              && KeepTables(s'.tables, j) == MapPut(KeepTables(s.tables, j), DatasetTableName(c.msg.user, j), w.table)
              && KeepCopies(s'.copies, j) == KeepCopies(s.copies, j)[tag := c.(place := Running(t))]
            else
              && KeepKey(s'.jobs, j) == KeepKey(s.jobs, j) && KeepKey(s'.dashboards, j) == KeepKey(s.dashboards, j)
              && KeepTables(s'.tables, j) == KeepTables(s.tables, j)
              && KeepCopies(s'.copies, j) == KeepCopies(s.copies, j)
  {
    var c := s.copies[tag];
    var i := c.msg.job;
    KeepCopiesUpdate(s.copies, tag, c.(place := Running(t)), j);
    KeepKeyUpdate(s.jobs, i, w.row, j);
    KeepKeyPut(s.dashboards, i, w.dash, j);
    KeepTablesPut(s.tables, c.msg.user, i, w.table, j);
  }

  lemma WorkElsewhere(n: nat, s: State, tag: nat, o: Outcome, j: Uuid)
    requires Enabled(s, Work(tag, o)) && s.copies[tag].msg.job != j
    ensures Project(ApplyWork(n, s, tag, o), j) == Project(s, j)
  {
    var msg, t := s.copies[tag].msg, TaskOf(s, tag);
    var v := View(s, msg.job, msg.user);
    WorkShape(n, s, tag, o);
    WorkHolders(n, s, tag, o);
    WorkedParts(s, ApplyWork(n, s, tag, o), tag, Effect(msg, v, t, o), Continue(n, msg, v, t, o), j);
    KeepKeyUpdate(s.holders, msg.job, ByCopy(tag), j);
  }

  /** In a job's share of the state its own delivery is the same delivery over the same stores. */
  lemma ProjectDelivery(s: State, tag: nat, o: Outcome, j: Uuid)
    requires Enabled(s, Work(tag, o)) && s.copies[tag].msg.job == j
    ensures Enabled(Project(s, j), Work(tag, o)) && Project(s, j).copies[tag] == s.copies[tag]
    ensures var u := s.copies[tag].msg.user; View(Project(s, j), j, u) == View(s, j, u)
  {
    ProjectView(s, j, s.copies[tag].msg.user);
  }

  lemma WorkHere(n: nat, s: State, tag: nat, o: Outcome, j: Uuid)
    requires Enabled(s, Work(tag, o)) && s.copies[tag].msg.job == j
    ensures Enabled(Project(s, j), Work(tag, o))
    ensures Project(ApplyWork(n, s, tag, o), j) == ApplyWork(n, Project(s, j), tag, o)
  {
    var msg, t := s.copies[tag].msg, TaskOf(s, tag);
    var v := View(s, j, msg.user);
    ProjectDelivery(s, tag, o, j);
    WorkShape(n, s, tag, o);
    WorkHolders(n, s, tag, o);
    WorkedParts(s, ApplyWork(n, s, tag, o), tag, Effect(msg, v, t, o), Continue(n, msg, v, t, o), j);
    KeepKeyUpdate(s.holders, j, ByCopy(tag), j);
    WorkShape(n, Project(s, j), tag, o);
    WorkHolders(n, Project(s, j), tag, o);
  }

  lemma RepublishCopiesKept(copies: map<nat, Copy>, tag: nat, moved: Copy, accepted: bool, child: nat, born: Copy,
                            j: Uuid)
    requires tag in copies && copies[tag].msg.job == moved.msg.job == born.msg.job && child !in copies
    ensures var copies' := if accepted then copies[tag := moved][child := born] else copies[tag := moved];
            KeepCopies(copies', j) ==
            if moved.msg.job != j then KeepCopies(copies, j)
            else if accepted then KeepCopies(copies, j)[tag := moved][child := born]
            else KeepCopies(copies, j)[tag := moved]
  {
    KeepCopiesUpdate(copies, tag, moved, j);
    if accepted {
      KeepCopiesUpdate(copies[tag := moved], child, born, j);
    }
  }

  lemma RepublishElsewhere(s: State, tag: nat, p: PubOutcome, child: nat, j: Uuid)
    requires Enabled(s, Republish(tag, p, child)) && s.copies[tag].msg.job != j
    ensures Project(ApplyRepublish(s, tag, p, child), j) == Project(s, j)
  {
    RepublishParts(s, tag, p, child, j);
    RepublishShape(s, tag, p, child);
    KeepKeyUpdate(s.holders, s.copies[tag].msg.job, ByCopy(child), j);
  }

  lemma RepublishHere(s: State, tag: nat, p: PubOutcome, child: nat, j: Uuid)
    requires Enabled(s, Republish(tag, p, child)) && s.copies[tag].msg.job == j
    ensures Enabled(Project(s, j), Republish(tag, p, child))
    ensures Project(ApplyRepublish(s, tag, p, child), j) == ApplyRepublish(Project(s, j), tag, p, child)
  {
    assert Project(s, j).copies[tag] == s.copies[tag];
    RepublishShape(s, tag, p, child);
    RepublishShape(Project(s, j), tag, p, child);
    RepublishParts(s, tag, p, child, j);
    KeepKeyUpdate(s.holders, j, ByCopy(child), j);
  }

  lemma RepublishParts(s: State, tag: nat, p: PubOutcome, child: nat, j: Uuid)
    requires Enabled(s, Republish(tag, p, child))
    ensures var c := s.copies[tag];
            KeepCopies(ApplyRepublish(s, tag, p, child).copies, j) ==
            if c.msg.job != j then KeepCopies(s.copies, j)
            else if Accepted(p) then KeepCopies(s.copies, j)[tag := AfterRetry(c, p)][child := NextAttempt(c)]
            else KeepCopies(s.copies, j)[tag := AfterRetry(c, p)]
  {
    var c := s.copies[tag];
    RepublishShape(s, tag, p, child);
    if Accepted(p) {
      RepublishCopiesKept(s.copies, tag, AfterRetry(c, p), true, child, NextAttempt(c), j);
    } else {
      KeepCopiesUpdate(s.copies, tag, AfterRetry(c, p), j);
    }
  }

  // ---------------------------------------------------------------- relays

  lemma SubmitRows(rows: map<nat, OutboxRow>, r: nat, row: OutboxRow, j: Uuid)
    requires r !in rows
    ensures KeepRows(rows[r := row], j) ==
            if row.msg.job == j then KeepRows(rows, j)[r := row] else KeepRows(rows, j)
  {
  }

  lemma SubmitRelays(rows: map<nat, OutboxRow>, relays: map<nat, Tx>, r: nat, row: OutboxRow, j: Uuid)
    requires LocksOk(rows, relays) && r !in rows
    ensures KeepRelays(Owners(rows[r := row]), j, relays) == KeepRelays(Owners(rows), j, relays)
  {
    KeepRelaysFrame(Owners(rows), Owners(rows[r := row]), j, rows, relays);
  }

  lemma SubmitProjects(s: State, i: Uuid, u: Uuid, src: Source, r: nat, j: Uuid)
    requires LocksOk(s.rows, s.relays) && i !in s.jobs && r !in s.rows
    ensures if i == j then Enabled(Project(s, j), Submit(i, u, src, r)) &&
                           Project(ApplySubmit(s, i, u, src, r), j) == ApplySubmit(Project(s, j), i, u, src, r)
            else Project(ApplySubmit(s, i, u, src, r), j) == Project(s, j)
  {
    var row := OutboxRow(Message(i, u, src, 0), false, 0, None, 0);
    KeepKeyUpdate(s.jobs, i, JobRow(u, src, Queued, None, None, None, None, 0), j);
    KeepKeyUpdate(s.holders, i, ByRow(r), j);
    SubmitRows(s.rows, r, row, j);
    SubmitRelays(s.rows, s.relays, r, row, j);
  }

  lemma KeepRelaysFrame(own: map<nat, Uuid>, own': map<nat, Uuid>, j: Uuid, rows: map<nat, OutboxRow>,
                        relays: map<nat, Tx>)
    requires LocksOk(rows, relays)
    requires forall r :: r in rows ==> (Mine(own, j, r) <==> Mine(own', j, r))
    ensures KeepRelays(own, j, relays) == KeepRelays(own', j, relays)
  {
    forall k | k in relays
      ensures (Touches(own, j, relays[k]) <==> Touches(own', j, relays[k]))
      ensures KeepTx(own, j, relays[k]) == KeepTx(own', j, relays[k])
    {
      assert TxOk(rows, k, relays[k]);
      forall r | r in relays[k].todo ensures Mine(own, j, r) <==> Mine(own', j, r) {
        assert Holds(relays[k], r);
      }
      KeepFrame(own, own', j, relays[k].todo);
    }
  }

  /** Row bookkeeping that keeps every message does not change whose row is whose. */
  lemma OwnersSame(rows: map<nat, OutboxRow>, rows': map<nat, OutboxRow>)
    requires rows'.Keys == rows.Keys && forall r :: r in rows ==> rows'[r].msg == rows[r].msg
    ensures Owners(rows') == Owners(rows)
  {
  }

  lemma UniqueOwner(s: State, j: Uuid)
    requires RowsOk(s)
    ensures var own := Owners(s.rows); forall a, b :: Mine(own, j, a) && Mine(own, j, b) ==> a == b
  {
  }

  lemma ClaimIsClaim(s: State, batch: seq<nat>, j: Uuid)
    requires RowsOk(s) && IsClaim(s.rows, batch)
    requires Keep(Owners(s.rows), j, batch) != []
    ensures IsClaim(KeepRows(s.rows, j), Keep(Owners(s.rows), j, batch))
  {
    var own := Owners(s.rows);
    var kept := Keep(own, j, batch);
    UniqueOwner(s, j);
    KeepAtMostOne(own, j, batch);
    var r := kept[0];
    assert kept == [r];
    KeepMembers(own, j, batch, r);
  }

  lemma KeepRelaysUpdate(own: map<nat, Uuid>, j: Uuid, relays: map<nat, Tx>, k: nat, tx: Tx)
    ensures KeepRelays(own, j, relays[k := tx]) ==
            if Touches(own, j, tx) then KeepRelays(own, j, relays)[k := KeepTx(own, j, tx)]
            else KeepRelays(own, j, relays) - {k}
  {
  }

  lemma KeptBatch(own: map<nat, Uuid>, j: Uuid, batch: seq<nat>)
    ensures var tx := Tx(batch, map[]);
            && (Touches(own, j, tx) <==> Keep(own, j, batch) != [])
            && KeepTx(own, j, tx) == Tx(Keep(own, j, batch), map[])
  {
    var kept, tx := Keep(own, j, batch), Tx(batch, map[]);
    if kept != [] {
      KeepMembers(own, j, batch, kept[0]);
      assert Holds(tx, kept[0]);
    } else if Touches(own, j, tx) {
      var r :| Holds(tx, r) && Mine(own, j, r);
      KeepMembers(own, j, batch, r);
    }
  }

  lemma ClaimRelays(own: map<nat, Uuid>, j: Uuid, relays: map<nat, Tx>, k: nat, batch: seq<nat>)
    requires k !in relays
    ensures var kept := Keep(own, j, batch);
            KeepRelays(own, j, relays[k := Tx(batch, map[])]) ==
            if kept == [] then KeepRelays(own, j, relays) else KeepRelays(own, j, relays)[k := Tx(kept, map[])]
  {
    KeptBatch(own, j, batch);
    KeepRelaysUpdate(own, j, relays, k, Tx(batch, map[]));
  }

  lemma ClaimRows(rows: map<nat, OutboxRow>, rows': map<nat, OutboxRow>, k: nat, batch: seq<nat>, j: Uuid)
    requires rows'.Keys == rows.Keys
    requires forall r :: r in rows ==> rows'[r] == if r in batch then rows[r].(lock := Some(k)) else rows[r]
    ensures var kept := Keep(Owners(rows), j, batch);
            KeepRows(rows', j) == map r | r in KeepRows(rows, j) ::
              if r in kept then KeepRows(rows, j)[r].(lock := Some(k)) else KeepRows(rows, j)[r]
  {
    var own := Owners(rows);
    forall r ensures r in Keep(own, j, batch) <==> r in batch && Mine(own, j, r) {
      KeepMembers(own, j, batch, r);
    }
  }

  lemma ClaimElsewhere(s: State, k: nat, batch: seq<nat>, j: Uuid)
    requires k !in s.relays && Keep(Owners(s.rows), j, batch) == []
    ensures Project(ApplyClaim(s, k, batch), j) == Project(s, j)
  {
    var rows' := ApplyClaim(s, k, batch).rows;
    OwnersSame(s.rows, rows');
    ClaimRelays(Owners(s.rows), j, s.relays, k, batch);
    ClaimRows(s.rows, rows', k, batch, j);
    assert KeepRows(rows', j) == KeepRows(s.rows, j);
  }

  lemma ClaimHere(s: State, k: nat, batch: seq<nat>, j: Uuid)
    requires RowsOk(s) && k !in s.relays && IsClaim(s.rows, batch)
    requires Keep(Owners(s.rows), j, batch) != []
    ensures var kept := Keep(Owners(s.rows), j, batch);
            Enabled(Project(s, j), Claim(k, kept))
            && Project(ApplyClaim(s, k, batch), j) == ApplyClaim(Project(s, j), k, kept)
  {
    ClaimParts(s, k, batch, j);
    ClaimIsClaim(s, batch, j);
  }

  lemma ClaimParts(s: State, k: nat, batch: seq<nat>, j: Uuid)
    requires k !in s.relays && Keep(Owners(s.rows), j, batch) != []
    ensures Project(ApplyClaim(s, k, batch), j) == ApplyClaim(Project(s, j), k, Keep(Owners(s.rows), j, batch))
  {
    var rows' := ApplyClaim(s, k, batch).rows;
    OwnersSame(s.rows, rows');
    ClaimRelays(Owners(s.rows), j, s.relays, k, batch);
    ClaimRows(s.rows, rows', k, batch, j);
  }

  lemma PublishRelays(own: map<nat, Uuid>, j: Uuid, relays: map<nat, Tx>, k: nat, stamped: bool)
    requires k in relays && relays[k].todo != [] && relays[k].todo[0] in own
    requires forall a, b :: Mine(own, j, a) && Mine(own, j, b) ==> a == b
    ensures var tx := relays[k];
            var r := tx.todo[0];
            var relays' := relays[k := Tx(tx.todo[1..], tx.done[r := stamped])];
            if own[r] == j then
              && k in KeepRelays(own, j, relays)
              && var small := KeepRelays(own, j, relays)[k];
                 && small.todo != [] && small.todo[0] == r
                 && KeepRelays(own, j, relays') ==
                    KeepRelays(own, j, relays)[k := Tx(small.todo[1..], small.done[r := stamped])]
            else KeepRelays(own, j, relays') == KeepRelays(own, j, relays)
  {
    var tx := relays[k];
    var r := tx.todo[0];
    var tx' := Tx(tx.todo[1..], tx.done[r := stamped]);
    assert tx.todo == [r] + tx.todo[1..];
    assert forall q :: Holds(tx', q) <==> Holds(tx, q);
    assert Touches(own, j, tx') <==> Touches(own, j, tx);
    if own[r] == j {
      assert Holds(tx, r) && Mine(own, j, r);
      assert Keep(own, j, tx.todo) == [r] + Keep(own, j, tx.todo[1..]);
      assert KeepTx(own, j, tx').done == KeepTx(own, j, tx).done[r := stamped];
    } else {
      assert Keep(own, j, tx.todo) == Keep(own, j, tx.todo[1..]);
      assert KeepTx(own, j, tx').done == KeepTx(own, j, tx).done;
      assert KeepTx(own, j, tx') == KeepTx(own, j, tx);
    }
  }

  lemma KeepRowsUpdate(rows: map<nat, OutboxRow>, r: nat, row: OutboxRow, j: Uuid)
    requires r in rows && row.msg == rows[r].msg
    ensures KeepRows(rows[r := row], j) ==
            if row.msg.job == j then KeepRows(rows, j)[r := row] else KeepRows(rows, j)
  {
  }

  /** The parts of a job's share that a publication can change. */
  lemma PublishParts(s: State, k: nat, p: PubOutcome, tag: nat, j: Uuid)
    requires RowsOk(s) && Enabled(s, Publish(k, p, tag))
    ensures var s', r := ApplyPublish(s, k, p, tag), s.relays[k].todo[0];
            var row := s.rows[r];
            var c, h := Copy(row.msg, r, true, Waiting), KeepKey(s.holders, j);
            var mine := row.msg.job == j;
            && KeepRows(s'.rows, j) ==
               (if mine && p.AcceptedUnconfirmed? then KeepRows(s.rows, j)[r := row.(faults := row.faults + 1)]
                else KeepRows(s.rows, j))
            && KeepCopies(s'.copies, j) ==
               (if mine && Accepted(p) then KeepCopies(s.copies, j)[tag := c] else KeepCopies(s.copies, j))
            && KeepKey(s'.holders, j) ==
               (if mine && Accepted(p) && j in h && h[j] == ByRow(r) then h[j := ByCopy(tag)] else h)
  {
    var r := s.relays[k].todo[0];
    var row := s.rows[r];
    KeepRowsUpdate(s.rows, r, row.(faults := row.faults + 1), j);
    PublishCopiesKept(s.copies, tag, Copy(row.msg, r, true, Waiting), p, j);
    PublishHoldersKept(s.holders, row.msg.job, r, tag, p, j);
  }

  lemma PublishCopiesKept(copies: map<nat, Copy>, tag: nat, c: Copy, p: PubOutcome, j: Uuid)
    requires Accepted(p) ==> tag !in copies
    ensures KeepCopies(if Accepted(p) then copies[tag := c] else copies, j) ==
            if c.msg.job == j && Accepted(p) then KeepCopies(copies, j)[tag := c] else KeepCopies(copies, j)
  {
    if Accepted(p) {
      KeepCopiesUpdate(copies, tag, c, j);
    }
  }

  lemma PublishHoldersKept(holders: map<Uuid, Holder>, i: Uuid, r: nat, tag: nat, p: PubOutcome, j: Uuid)
    ensures var moved := Accepted(p) && i in holders && holders[i] == ByRow(r);
            var h := KeepKey(holders, j);
            KeepKey(if moved then holders[i := ByCopy(tag)] else holders, j) ==
            if i == j && Accepted(p) && j in h && h[j] == ByRow(r) then h[j := ByCopy(tag)] else h
  {
    KeepKeyUpdate(holders, i, ByCopy(tag), j);
  }

  lemma PublishElsewhere(s: State, k: nat, p: PubOutcome, tag: nat, j: Uuid)
    requires RowsOk(s) && Enabled(s, Publish(k, p, tag)) && !Mine(Owners(s.rows), j, s.relays[k].todo[0])
    ensures Project(ApplyPublish(s, k, p, tag), j) == Project(s, j)
  {
    OwnersSame(s.rows, ApplyPublish(s, k, p, tag).rows);
    UniqueOwner(s, j);
    PublishRelays(Owners(s.rows), j, s.relays, k, p.Confirmed?);
    PublishParts(s, k, p, tag, j);
  }

  lemma PublishEnabledHere(s: State, k: nat, p: PubOutcome, tag: nat, j: Uuid)
    requires RowsOk(s) && Enabled(s, Publish(k, p, tag)) && Mine(Owners(s.rows), j, s.relays[k].todo[0])
    ensures Enabled(Project(s, j), Publish(k, p, tag))
    ensures Project(s, j).relays[k].todo[0] == s.relays[k].todo[0]
    ensures KeepRelays(Owners(s.rows), j, ApplyPublish(s, k, p, tag).relays) ==
            ApplyPublish(Project(s, j), k, p, tag).relays
  {
    UniqueOwner(s, j);
    PublishRelays(Owners(s.rows), j, s.relays, k, p.Confirmed?);
  }

  /** The outbox, the copies and the holders of one job after a publication of its own. */
  lemma PublishedHere(s: State, k: nat, p: PubOutcome, tag: nat, j: Uuid)
    requires RowsOk(s) && Enabled(s, Publish(k, p, tag)) && Mine(Owners(s.rows), j, s.relays[k].todo[0])
    requires Enabled(Project(s, j), Publish(k, p, tag)) && Project(s, j).relays[k].todo[0] == s.relays[k].todo[0]
    ensures var s', small := ApplyPublish(s, k, p, tag), ApplyPublish(Project(s, j), k, p, tag);
            && KeepRows(s'.rows, j) == small.rows && KeepCopies(s'.copies, j) == small.copies
            && KeepKey(s'.holders, j) == small.holders
  {
    assert Project(s, j).rows[s.relays[k].todo[0]] == s.rows[s.relays[k].todo[0]];
    PublishParts(s, k, p, tag, j);
  }

  lemma PublishHere(s: State, k: nat, p: PubOutcome, tag: nat, j: Uuid)
    requires RowsOk(s) && Enabled(s, Publish(k, p, tag)) && Mine(Owners(s.rows), j, s.relays[k].todo[0])
    ensures Enabled(Project(s, j), Publish(k, p, tag))
    ensures Project(ApplyPublish(s, k, p, tag), j) == ApplyPublish(Project(s, j), k, p, tag)
  {
    OwnersSame(s.rows, ApplyPublish(s, k, p, tag).rows);
    PublishEnabledHere(s, k, p, tag, j);
    PublishedHere(s, k, p, tag, j);
  }

  /** Closing a transaction, seen from one job. */
  lemma CloseRelays(own: map<nat, Uuid>, j: Uuid, relays: map<nat, Tx>, k: nat)
    requires k in relays
    ensures KeepRelays(own, j, relays - {k}) == KeepRelays(own, j, relays) - {k}
  {
  }

  lemma KeptTx(own: map<nat, Uuid>, j: Uuid, tx: Tx, r: nat)
    requires Mine(own, j, r)
    ensures var small := KeepTx(own, j, tx);
            && (Holds(small, r) <==> Holds(tx, r))
            && (r in small.done <==> r in tx.done)
            && (r in tx.done ==> small.done[r] == tx.done[r])
  {
    KeepMembers(own, j, tx.todo, r);
  }

  lemma CommitRows(rows: map<nat, OutboxRow>, tx: Tx, j: Uuid)
    ensures var own := Owners(rows);
            var rows' := map r | r in rows :: CommitRow(rows[r], tx, r);
            var kept := KeepRows(rows, j);
            KeepRows(rows', j) ==
            if Touches(own, j, tx) then map r | r in kept :: CommitRow(kept[r], KeepTx(own, j, tx), r) else kept
  {
    var own := Owners(rows);
    forall r | Mine(own, j, r)
      ensures CommitRow(rows[r], KeepTx(own, j, tx), r) == CommitRow(rows[r], tx, r)
      ensures !Touches(own, j, tx) ==> !Holds(tx, r)
    {
      KeptTx(own, j, tx, r);
    }
  }

  lemma RollbackRows(rows: map<nat, OutboxRow>, tx: Tx, j: Uuid)
    ensures var own := Owners(rows);
            var rows' := map r | r in rows :: RollbackRow(rows[r], tx, r);
            var kept := KeepRows(rows, j);
            KeepRows(rows', j) ==
            if Touches(own, j, tx) then map r | r in kept :: RollbackRow(kept[r], KeepTx(own, j, tx), r) else kept
  {
    var own := Owners(rows);
    forall r | Mine(own, j, r)
      ensures RollbackRow(rows[r], KeepTx(own, j, tx), r) == RollbackRow(rows[r], tx, r)
      ensures !Touches(own, j, tx) ==> !Holds(tx, r)
    {
      KeptTx(own, j, tx, r);
    }
  }

  lemma CommitProjects(s: State, k: nat, j: Uuid)
    requires k in s.relays && s.relays[k].todo == []
    ensures var s' := ApplyCommit(s, k);
            if Touches(Owners(s.rows), j, s.relays[k]) then
              Enabled(Project(s, j), Commit(k)) && Project(s', j) == ApplyCommit(Project(s, j), k)
            else Project(s', j) == Project(s, j)
  {
    CommitParts(s, k, j);
    if Touches(Owners(s.rows), j, s.relays[k]) {
      assert Project(s, j).relays[k] == KeepTx(Owners(s.rows), j, s.relays[k]);
    }
  }

  lemma CommitParts(s: State, k: nat, j: Uuid)
    requires k in s.relays
    ensures var s', own, kept := ApplyCommit(s, k), Owners(s.rows), KeepRows(s.rows, j);
            && KeepRelays(Owners(s'.rows), j, s'.relays) == KeepRelays(own, j, s.relays) - {k}
            && KeepRows(s'.rows, j) ==
               (if Touches(own, j, s.relays[k])
                then map r | r in kept :: CommitRow(kept[r], KeepTx(own, j, s.relays[k]), r)
                else kept)
  {
    OwnersSame(s.rows, ApplyCommit(s, k).rows);
    CloseRelays(Owners(s.rows), j, s.relays, k);
    CommitRows(s.rows, s.relays[k], j);
  }

  lemma RollbackProjects(s: State, k: nat, j: Uuid)
    requires k in s.relays
    ensures var s' := ApplyRollback(s, k);
            if Touches(Owners(s.rows), j, s.relays[k]) then
              Enabled(Project(s, j), Rollback(k)) && Project(s', j) == ApplyRollback(Project(s, j), k)
            else Project(s', j) == Project(s, j)
  {
    OwnersSame(s.rows, ApplyRollback(s, k).rows);
    CloseRelays(Owners(s.rows), j, s.relays, k);
    RollbackRows(s.rows, s.relays[k], j);
  }

  // ---------------------------------------------------------------- steps and runs

  ghost predicate StepProjects(n: nat, s: State, e: Event, j: Uuid)
    requires Enabled(s, e)
  {
    var e' := ProjectEvent(s, e, j);
    if e'.None? then Project(Apply(n, s, e), j) == Project(s, j)
    else Enabled(Project(s, j), e'.value) && Project(Apply(n, s, e), j) == Apply(n, Project(s, j), e'.value)
  }

  lemma ProjectRelayStep(n: nat, s: State, e: Event, j: Uuid)
    requires RowsOk(s) && LocksOk(s.rows, s.relays) && Enabled(s, e)
    requires e.Submit? || e.Claim? || e.Publish? || e.Commit? || e.Rollback?
    ensures StepProjects(n, s, e, j)
  {
    match e
    case Submit(i, u, src, r) => SubmitProjects(s, i, u, src, r, j);
    case Claim(k, batch) =>
      if Keep(Owners(s.rows), j, batch) == [] {
        ClaimElsewhere(s, k, batch, j);
      } else {
        ClaimHere(s, k, batch, j);
      }
    case Publish(k, p, tag) =>
      if Mine(Owners(s.rows), j, s.relays[k].todo[0]) {
        PublishHere(s, k, p, tag, j);
      } else {
        PublishElsewhere(s, k, p, tag, j);
      }
    case Commit(k) => CommitProjects(s, k, j);
    case Rollback(k) => RollbackProjects(s, k, j);
  }

  /** Deliveries beginning and ending, and crashes, only move a copy. */
  function MoveOf(s: State, e: Event): Place
    requires e.Deliver? || e.Settle? || e.Crash? || e.Requeue?
    requires e.Settle? ==> RunningAt(s, e.tag)
  {
    if e.Deliver? then Running(FRESH)
    else if e.Requeue? then Waiting
    else if e.Crash? || e.lost then Halted
    else if TaskOf(s, e.tag).pc.Nack? then Dead
    else Acked
  }

  lemma MoveIsMove(n: nat, s: State, e: Event)
    requires Enabled(s, e) && (e.Deliver? || e.Settle? || e.Crash? || e.Requeue?)
    ensures Apply(n, s, e) == MoveCopy(s, e.tag, MoveOf(s, e))
  {
  }

  lemma ProjectMove(n: nat, s: State, e: Event, j: Uuid)
    requires Enabled(s, e) && (e.Deliver? || e.Settle? || e.Crash? || e.Requeue?)
    ensures StepProjects(n, s, e, j)
  {
    MoveIsMove(n, s, e);
    MoveProjects(s, e.tag, MoveOf(s, e), j);
    if s.copies[e.tag].msg.job == j {
      assert Project(s, j).copies[e.tag] == s.copies[e.tag];
      MoveIsMove(n, Project(s, j), e);
    }
  }

  lemma ProjectStep(n: nat, s: State, e: Event, j: Uuid)
    requires RowsOk(s) && LocksOk(s.rows, s.relays) && Enabled(s, e)
    ensures StepProjects(n, s, e, j)
  {
    if e.Work? {
      if s.copies[e.tag].msg.job == j {
        WorkHere(n, s, e.tag, e.outcome, j);
      } else {
        WorkElsewhere(n, s, e.tag, e.outcome, j);
      }
    } else if e.Republish? {
      if s.copies[e.tag].msg.job == j {
        RepublishHere(s, e.tag, e.pub, e.child, j);
      } else {
        RepublishElsewhere(s, e.tag, e.pub, e.child, j);
      }
    } else if e.Deliver? || e.Settle? || e.Crash? || e.Requeue? {
      ProjectMove(n, s, e, j);
    } else {
      ProjectRelayStep(n, s, e, j);
    }
  }

  lemma {:induction false} RunProjects(n: nat, s: State, es: seq<Event>, t: State, j: Uuid)
    requires n >= 1 && Inv(n, s) && Run(n, s, es, t)
    ensures Run(n, Project(s, j), ProjectRun(n, s, es, t, j), Project(t, j))
    decreases |es|
  {
    if es != [] {
      var s1 := Apply(n, s, es[0]);
      ProjectStep(n, s, es[0], j);
      StepInv(n, s, es[0]);
      RunProjects(n, s1, es[1..], t, j);
      var e := ProjectEvent(s, es[0], j);
      if e.Some? {
        RunStep(n, Project(s, j), e.value, ProjectRun(n, s1, es[1..], t, j), Project(t, j));
      }
    }
  }

  /** No job can tell that others exist: from the initial state, its share of any run is a run, and
      at the end it sees exactly its own row, dashboard, table and messages. */
  lemma JobsAreIsolated(n: nat, es: seq<Event>, s: State, j: Uuid)
    requires n >= 1 && Run(n, INIT, es, s)
    ensures Run(n, INIT, ProjectRun(n, INIT, es, s, j), Project(s, j))
    ensures j in s.jobs ==> j in Project(s, j).jobs
    ensures j in s.jobs ==> View(Project(s, j), j, s.jobs[j].user) == View(s, j, s.jobs[j].user)
    ensures forall c :: c in s.copies && s.copies[c].msg.job == j ==>
              c in Project(s, j).copies && Project(s, j).copies[c] == s.copies[c]
  {
    InitInv(n);
    assert Project(INIT, j) == INIT;
    RunProjects(n, INIT, es, s, j);
    if j in s.jobs {
      ProjectView(s, j, s.jobs[j].user);
    }
  }
}
