// The stores as objects with the operations the code performs on them. Every operation that can
// fail picks its outcome freely; an outcome says whether the operation took effect.

module Stores {
  import opened Domain
  import opened Protocol

  /** The columns of an outbox row; its number is its place in `created_at` order. */
  datatype OutboxColumns = OutboxColumns(msg: Message, published: bool, attempts: nat)

  function Settled(row: OutboxColumns, stamped: bool): OutboxColumns {
    if stamped then row.(published := true) else row.(attempts := row.attempts + 1)
  }

  /** The outbox after a commit of the pending updates. */
  function Stamp(rows: seq<OutboxColumns>, pending: map<nat, bool>): (rows': seq<OutboxColumns>)
    ensures |rows'| == |rows|
  {
    seq(|rows|, r requires 0 <= r < |rows| => if r in pending then Settled(rows[r], pending[r]) else rows[r])
  }

  function Locked(locks: map<nat, nat>, batch: seq<nat>, tx: nat): map<nat, nat> {
    locks + map r | r in batch :: tx
  }

  function Unlocked(locks: map<nat, nat>, tx: nat): map<nat, nat> {
    map r | r in locks && locks[r] != tx :: locks[r]
  }

  predicate IsFree(rows: seq<OutboxColumns>, locks: map<nat, nat>, r: nat) {
    r < |rows| && !rows[r].published && r !in locks
  }

  predicate Ascending(q: seq<nat>) {
    forall i, k :: 0 <= i < k < |q| ==> q[i] < q[k]
  }

  /** The oldest free rows, at most `limit` of them. */
  ghost predicate IsOldest(rows: seq<OutboxColumns>, locks: map<nat, nat>, limit: nat, batch: seq<nat>) {
    && Ascending(batch) && |batch| <= limit
    && (forall r :: r in batch ==> IsFree(rows, locks, r))
    && (forall r :: IsFree(rows, locks, r) && r !in batch ==> |batch| == limit && forall b :: b in batch ==> b < r)
  }

  /** What a failing database call leaves in the record of failures. */
  function Reason(o: Outcome): seq<string> {
    if o.Failure? then [o.reason] else []
  }

  /** A failing ClickHouse call, classified. */
  datatype Fault = Fault(retryable: bool, reason: string)

  function Classified(o: Outcome): seq<Fault> {
    if o.Failure? then [Fault(o.retryable, o.reason)] else []
  }

  /** Application state: jobs, dashboards, and the outbox with its row locks. */
  class Postgres {
    var jobs: map<Uuid, JobRow>
    var dashboards: map<Uuid, Dashboard>
    var rows: seq<OutboxColumns>
    var locks: map<nat, nat>
    /** How many statements and commits of relay transactions have reported an error. */
    ghost var errors: nat
    /** The reasons of all other calls that have failed, in order. */
    ghost var failures: seq<string>

    constructor ()
      ensures jobs == map[] && dashboards == map[] && rows == [] && locks == map[] && errors == 0 && failures == []
    {
      jobs, dashboards, rows, locks, errors, failures := map[], map[], [], map[], 0, [];
    }

    /** The job row and its outbox row, in one transaction; nothing happens if it does not commit. */
    method CreateJob(job: Uuid, user: Uuid, source: Source) returns (o: Outcome)
      requires job !in jobs
      modifies this`jobs, this`rows, this`failures
      ensures failures == old(failures) + Reason(o)
      ensures Applied(o) ==>
                && jobs == old(jobs)[job := JobRow(user, source, Queued, None, None, None, None, 0)]
                && rows == old(rows) + [OutboxColumns(Message(job, user, source, 0), false, 0)]
      ensures !Applied(o) ==> jobs == old(jobs) && rows == old(rows)
    {
      o := *;
      failures := failures + Reason(o);
      if Applied(o) {
        jobs := jobs[job := JobRow(user, source, Queued, None, None, None, None, 0)];
        rows := rows + [OutboxColumns(Message(job, user, source, 0), false, 0)];
      }
    }

    method IsReady(job: Uuid) returns (o: Outcome, ready: bool)
      modifies this`failures
      ensures failures == old(failures) + Reason(o)
      ensures o.Success? ==> (ready <==> job in jobs && jobs[job].status.Ready?)
    {
      o := *;
      failures := failures + Reason(o);
      ready := job in jobs && jobs[job].status.Ready?;
    }

    method SetStatus(job: Uuid, status: JobStatus) returns (o: Outcome)
      modifies this`jobs, this`failures
      ensures failures == old(failures) + Reason(o)
      ensures jobs == if Applied(o) && job in old(jobs) then old(jobs)[job := old(jobs)[job].(status := status)]
                      else old(jobs)
    {
      o := *;
      failures := failures + Reason(o);
      if Applied(o) && job in jobs {
        jobs := jobs[job := jobs[job].(status := status)];
      }
    }

    method MarkReady(job: Uuid, table: string, count: nat, columns: seq<Column>) returns (o: Outcome)
      modifies this`jobs, this`failures
      ensures failures == old(failures) + Reason(o)
      ensures jobs == if Applied(o) && job in old(jobs) then
                        old(jobs)[job := old(jobs)[job].(status := Ready, table := Some(table), rowCount := Some(count),
                                                         schema := Some(columns), error := None)]
                      else old(jobs)
    {
      o := *;
      failures := failures + Reason(o);
      if Applied(o) && job in jobs {
        jobs := jobs[job := jobs[job].(status := Ready, table := Some(table), rowCount := Some(count),
                                       schema := Some(columns), error := None)];
      }
    }

    method MarkFailed(job: Uuid, reason: string) returns (o: Outcome)
      modifies this`jobs, this`failures
      ensures failures == old(failures) + Reason(o)
      ensures jobs == if Applied(o) && job in old(jobs)
                      then old(jobs)[job := old(jobs)[job].(status := Failed, error := Some(reason))]
                      else old(jobs)
    {
      o := *;
      failures := failures + Reason(o);
      if Applied(o) && job in jobs {
        jobs := jobs[job := jobs[job].(status := Failed, error := Some(reason))];
      }
    }

    method IncrementAttempts(job: Uuid) returns (o: Outcome)
      modifies this`jobs, this`failures
      ensures failures == old(failures) + Reason(o)
      ensures jobs == if Applied(o) && job in old(jobs)
                      then old(jobs)[job := old(jobs)[job].(attempts := old(jobs)[job].attempts + 1)]
                      else old(jobs)
    {
      o := *;
      failures := failures + Reason(o);
      if Applied(o) && job in jobs {
        jobs := jobs[job := jobs[job].(attempts := jobs[job].attempts + 1)];
      }
    }

    /** Open a transaction that locks the oldest unpublished rows nobody else has locked. */
    method ClaimOldest(tx: nat, limit: nat) returns (batch: seq<nat>)
      modifies this`locks
      ensures IsOldest(rows, old(locks), limit, batch) && locks == Locked(old(locks), batch, tx)
    {
      batch := [];
      var r: nat := 0;
      while r < |rows| && |batch| < limit
        invariant r <= |rows| && |batch| <= limit && Ascending(batch)
        invariant forall i :: 0 <= i < |batch| ==> batch[i] < r
        invariant forall b :: b in batch ==> IsFree(rows, locks, b)
        invariant forall q: nat :: q < r && IsFree(rows, locks, q) ==> q in batch
      {
        if IsFree(rows, locks, r) {
          batch := batch + [r];
        }
        r := r + 1;
      }
      locks := Locked(locks, batch, tx);
    }

    /** A statement of a relay transaction. Its effect shows when the transaction commits. */
    method Statement() returns (ok: bool)
      modifies this`errors
      ensures errors == old(errors) + if ok then 0 else 1
    {
      ok := *;
      errors := errors + if ok then 0 else 1;
    }

    /** Commit the pending updates (stamped rows, and attempts of the others), or not; either way
        the transaction's locks are gone. The client may not learn that a commit went through. */
    method CommitTx(tx: nat, pending: map<nat, bool>) returns (ok: bool, applied: bool)
      modifies this`rows, this`locks, this`errors
      ensures ok ==> applied
      ensures errors == old(errors) + if ok then 0 else 1
      ensures rows == if applied then Stamp(old(rows), pending) else old(rows)
      ensures locks == Unlocked(old(locks), tx)
    {
      applied, ok := *, *;
      ok := ok && applied;
      if applied {
        rows := Stamp(rows, pending);
      }
      locks := Unlocked(locks, tx);
      errors := errors + if ok then 0 else 1;
    }

    /** Abandon the transaction. */
    method RollbackTx(tx: nat)
      modifies this`locks
      ensures locks == Unlocked(old(locks), tx)
    {
      locks := Unlocked(locks, tx);
    }

    /** Insert the dashboard of a job, or replace it. */
    method StoreDashboard(job: Uuid, config: Dashboard) returns (o: Outcome)
      modifies this`dashboards, this`failures
      ensures failures == old(failures) + Reason(o)
      ensures dashboards == if Applied(o) then old(dashboards)[job := config] else old(dashboards)
    {
      o := *;
      failures := failures + Reason(o);
      if Applied(o) {
        dashboards := dashboards[job := config];
      }
    }
  }

  /** ClickHouse: one table per job. */
  class ClickHouse {
    var tables: map<string, Table>
    /** The calls that have failed, in order. */
    ghost var failures: seq<Fault>

    constructor ()
      ensures tables == map[] && failures == []
    {
      tables, failures := map[], [];
    }

    /** Inference over a fixed source. */
    method DescribeSource(source: Source) returns (o: Outcome, columns: seq<Column>)
      modifies this`failures
      ensures failures == old(failures) + Classified(o)
      ensures o.Success? ==> columns == source.columns
    {
      o := *;
      failures := failures + Classified(o);
      columns := source.columns;
    }

    method DropIfExists(name: string) returns (o: Outcome)
      modifies this`tables, this`failures
      ensures failures == old(failures) + Classified(o)
      ensures tables == if Applied(o) then old(tables) - {name} else old(tables)
    {
      o := *;
      failures := failures + Classified(o);
      if Applied(o) {
        tables := tables - {name};
      }
    }

    method CreateIfNotExists(name: string, columns: seq<Column>) returns (o: Outcome)
      modifies this`tables, this`failures
      ensures failures == old(failures) + Classified(o)
      ensures tables == if Applied(o) && name !in old(tables) then old(tables)[name := Table(columns, multiset{})]
                        else old(tables)
    {
      o := *;
      failures := failures + Classified(o);
      if Applied(o) && name !in tables {
        tables := tables[name := Table(columns, multiset{})];
      }
    }

    /** `INSERT … SELECT * FROM url(…)`: a failing load may leave any part of the source behind,
        and loading into a missing table is an error. */
    method Load(name: string, source: Source) returns (o: Outcome)
      modifies this`tables, this`failures
      ensures failures == old(failures) + Classified(o)
      ensures name !in old(tables) ==> tables == old(tables)
      ensures name in old(tables) ==>
                tables == old(tables)[name := old(tables)[name].(rows := old(tables)[name].rows +
                  if o.Failure? then o.loaded * source.rows else source.rows)]
    {
      o := *;
      failures := failures + Classified(o);
      if name in tables {
        var part := if o.Failure? then o.loaded * source.rows else source.rows;
        tables := tables[name := tables[name].(rows := tables[name].rows + part)];
      }
    }

    /** A read of the table: its size, if it is there. */
    method Count(name: string) returns (o: Outcome, count: Option<nat>)
      modifies this`failures
      ensures failures == old(failures) + Classified(o)
      ensures count == if name in tables then Some(|tables[name].rows|) else None
    {
      o := *;
      failures := failures + Classified(o);
      count := if name in tables then Some(|tables[name].rows|) else None;
    }

    /** The queries behind the dashboard: they only need the table to be there. */
    method Stats(name: string) returns (o: Outcome, present: bool)
      modifies this`failures
      ensures failures == old(failures) + Classified(o)
      ensures present <==> name in tables
    {
      o := *;
      failures := failures + Classified(o);
      present := name in tables;
    }
  }

  // ---------------------------------------------------------------- the broker

  datatype Where = InQueue | Unacked | DeadLettered | Removed

  datatype Stored = Stored(msg: Message, origin: nat, root: bool, at: Where)

  class Broker {
    var messages: map<nat, Stored>
    var next: nat
    /** The outbox rows behind the relays' publications, in the order the broker accepted them. */
    ghost var log: seq<nat>
    /** How many publications were not confirmed. */
    ghost var misses: nat
    /** The outbox rows behind the relays' confirmed publications, in order. */
    ghost var acks: seq<nat>
    /** How many settlements the broker never heard of. */
    ghost var losses: nat

    ghost predicate Valid()
      reads this
    {
      forall c :: c in messages ==> c < next
    }

    constructor ()
      ensures Valid() && messages == map[] && log == [] && misses == 0 && acks == [] && losses == 0
    {
      messages, next, log, misses, acks, losses := map[], 0, [], 0, [], 0;
    }

    method Publish(msg: Message, origin: nat, root: bool) returns (p: PubOutcome, tag: nat)
      requires Valid()
      modifies this
      ensures Valid() && tag !in old(messages)
      ensures messages == if Accepted(p) then old(messages)[tag := Stored(msg, origin, root, InQueue)]
                          else old(messages)
      ensures log == if Accepted(p) && root then old(log) + [origin] else old(log)
      ensures misses == old(misses) + if p.Confirmed? then 0 else 1
      ensures acks == old(acks) + if p.Confirmed? && root then [origin] else []
      ensures losses == old(losses)
    {
      p, tag := *, next;
      misses := misses + if p.Confirmed? then 0 else 1;
      acks := acks + if p.Confirmed? && root then [origin] else [];
      if Accepted(p) {
        log := if root then log + [origin] else log;
        messages, next := messages[tag := Stored(msg, origin, root, InQueue)], next + 1;
      }
    }

    /** Settle an unacked message: remove it or send it to the dead-letter queue. The broker may
        never hear of it, and then the message stays unacked. */
    method Settle(tag: nat, accept: bool) returns (lost: bool)
      requires Valid() && tag in messages
      modifies this`messages, this`losses
      ensures Valid() && losses == old(losses) + if lost then 1 else 0
      ensures messages == if lost then old(messages)
                          else old(messages)[tag := old(messages)[tag].(at := if accept then Removed else DeadLettered)]
    {
      lost := *;
      losses := losses + if lost then 1 else 0;
      if !lost {
        messages := messages[tag := messages[tag].(at := if accept then Removed else DeadLettered)];
      }
    }
  }
}
