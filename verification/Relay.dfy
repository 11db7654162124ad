// The outbox relay: claim a batch, publish it row by row, stamp what was confirmed, commit; and
// keep doing so until a batch publishes nothing.

module Relay {
  import opened Domain
  import opened Protocol
  import opened Safety
  import opened Stores
  import opened Worker
  import opened Consumer

  datatype BatchResult = Published(count: nat) | Error

  // ---------------------------------------------------------------- the outbox as the protocol sees it

  predicate SameRow(row: OutboxRow, cols: OutboxColumns) {
    row.msg == cols.msg && row.published == cols.published && row.attempts == cols.attempts
  }

  ghost predicate SameOutbox(s: State, rows: seq<OutboxColumns>, locks: map<nat, nat>) {
    && (forall r :: r in s.rows <==> r < |rows|)
    && (forall r :: r in s.rows ==> SameRow(s.rows[r], rows[r]))
    && (forall r :: r in s.rows ==> s.rows[r].lock == if r in locks then Some(locks[r]) else None)
    && (forall r :: r in locks ==> r < |rows|)
  }

  /** Relay steps leave jobs, dashboards and tables alone. */
  predicate SameData(s: State, s': State) {
    s'.jobs == s.jobs && s'.dashboards == s.dashboards && s'.tables == s.tables
  }

  lemma FollowClaim(n: nat, s0: State, k: nat, batch: seq<nat>, rows: seq<OutboxColumns>, locks: map<nat, nat>)
    returns (es: seq<Event>, s: State)
    requires SameOutbox(s0, rows, locks) && LocksOk(s0.rows, s0.relays) && k !in s0.relays
    requires batch != [] && IsOldest(rows, locks, BATCH_SIZE, batch)
    ensures Run(n, s0, es, s) && SameData(s0, s) && s.copies == s0.copies
    ensures SameOutbox(s, rows, Locked(locks, batch, k)) && s.relays == s0.relays[k := Tx(batch, map[])]
    ensures LocksOk(s.rows, s.relays)
  {
    var e := Claim(k, batch);
    OldestIsClaim(s0, batch, rows, locks);
    s := ApplyClaim(s0, k, batch);
    ClaimKeepsLocks(s0, k, batch);
    SameAfterClaim(s0, k, batch, rows, locks);
    RunStep(n, s0, e, [], s);
    es := [e];
  }

  lemma OldestIsClaim(s: State, batch: seq<nat>, rows: seq<OutboxColumns>, locks: map<nat, nat>)
    requires SameOutbox(s, rows, locks) && batch != [] && IsOldest(rows, locks, BATCH_SIZE, batch)
    ensures IsClaim(s.rows, batch)
  {
    forall r: nat ensures r in s.rows && Claimable(s.rows[r]) <==> IsFree(rows, locks, r) {
      assert r in s.rows <==> r < |rows|;
    }
  }

  lemma SameAfterClaim(s: State, k: nat, batch: seq<nat>, rows: seq<OutboxColumns>, locks: map<nat, nat>)
    requires SameOutbox(s, rows, locks) && IsClaim(s.rows, batch)
    ensures SameOutbox(ApplyClaim(s, k, batch), rows, Locked(locks, batch, k))
  {
    var s' := ApplyClaim(s, k, batch);
    assert s'.rows.Keys == s.rows.Keys;
    forall r | r in Locked(locks, batch, k) ensures r < |rows| {
      assert r in batch ==> r in s.rows;
    }
  }

  lemma PublishShape(s: State, k: nat, p: PubOutcome, tag: nat, rows: seq<OutboxColumns>, locks: map<nat, nat>,
                     messages: map<nat, Stored>)
    requires SameOutbox(s, rows, locks) && SameMessages(s.copies, messages)
    requires k in s.relays && s.relays[k].todo != [] && s.relays[k].todo[0] < |rows| && tag !in messages
    ensures Enabled(s, Publish(k, p, tag))
    ensures var s' := ApplyPublish(s, k, p, tag);
            var r := s.relays[k].todo[0];
            && SameOutbox(s', rows, locks)
            && SameMessages(s'.copies, if Accepted(p) then messages[tag := Stored(rows[r].msg, r, true, InQueue)]
                                       else messages)
  {
    assert s.relays[k].todo[0] in s.rows;
    assert ApplyPublish(s, k, p, tag).rows.Keys == s.rows.Keys;
  }

  lemma FollowPublish(n: nat, s0: State, es: seq<Event>, s: State, k: nat, p: PubOutcome, tag: nat,
                      rows: seq<OutboxColumns>, locks: map<nat, nat>, messages: map<nat, Stored>)
    returns (es': seq<Event>, s': State)
    requires Run(n, s0, es, s) && SameOutbox(s, rows, locks) && SameMessages(s.copies, messages)
    requires k in s.relays && s.relays[k].todo != [] && s.relays[k].todo[0] < |rows| && tag !in messages
    ensures s.relays[k].todo[0] in s.rows && s' == ApplyPublish(s, k, p, tag)
    ensures Run(n, s0, es', s') && SameData(s, s') && SameOutbox(s', rows, locks)
    ensures var tx := s.relays[k];
            s'.relays == s.relays[k := Tx(tx.todo[1..], tx.done[tx.todo[0] := p.Confirmed?])]
    ensures var r := s.relays[k].todo[0];
            SameMessages(s'.copies, if Accepted(p) then messages[tag := Stored(rows[r].msg, r, true, InQueue)]
                                    else messages)
  {
    PublishShape(s, k, p, tag, rows, locks, messages);
    RunSnoc(n, s0, es, s, Publish(k, p, tag));
    es', s' := es + [Publish(k, p, tag)], ApplyPublish(s, k, p, tag);
  }

  /** The locks a transaction holds are exactly those of the rows it claimed. */
  lemma OwnLocks(s: State, rows: seq<OutboxColumns>, locks: map<nat, nat>, k: nat, r: nat)
    requires SameOutbox(s, rows, locks) && LocksOk(s.rows, s.relays) && k in s.relays
    ensures Holds(s.relays[k], r) <==> r in locks && locks[r] == k
  {
    assert TxOk(s.rows, k, s.relays[k]);
    assert r in s.rows && s.rows[r].lock == Some(k) ==> Holds(s.relays[k], r);
  }

  lemma SameAfterClose(s: State, s': State, k: nat, rows: seq<OutboxColumns>, rows': seq<OutboxColumns>,
                       locks: map<nat, nat>)
    requires SameOutbox(s, rows, locks) && LocksOk(s.rows, s.relays) && k in s.relays
    requires s'.rows.Keys == s.rows.Keys && |rows'| == |rows|
    requires forall r :: r in s.rows ==> SameRow(s'.rows[r], rows'[r])
    requires forall r :: r in s.rows ==> s'.rows[r].lock == if Holds(s.relays[k], r) then None else s.rows[r].lock
    ensures SameOutbox(s', rows', Unlocked(locks, k))
  {
    forall r ensures Holds(s.relays[k], r) <==> r in locks && locks[r] == k {
      OwnLocks(s, rows, locks, k, r);
    }
    forall r ensures r in s'.rows <==> r < |rows'| {
      assert r in s'.rows <==> r in s.rows;
    }
  }

  lemma CommitKeeps(s: State, k: nat, rows: seq<OutboxColumns>, locks: map<nat, nat>)
    requires SameOutbox(s, rows, locks) && LocksOk(s.rows, s.relays) && k in s.relays && s.relays[k].todo == []
    ensures var s' := ApplyCommit(s, k);
            LocksOk(s'.rows, s'.relays) && SameOutbox(s', Stamp(rows, s.relays[k].done), Unlocked(locks, k))
  {
    var s' := ApplyCommit(s, k);
    forall r | r in s.rows
      ensures SameRow(s'.rows[r], Stamp(rows, s.relays[k].done)[r])
      ensures if Holds(s.relays[k], r) then s'.rows[r].lock.None? else s'.rows[r] == s.rows[r]
    {
      CommitRowSame(s.rows[r], rows[r], s.relays[k], r);
    }
    CloseLocks(s.rows, s'.rows, s.relays, k);
    SameAfterClose(s, s', k, rows, Stamp(rows, s.relays[k].done), locks);
  }

  lemma CommitRowSame(row: OutboxRow, cols: OutboxColumns, tx: Tx, r: nat)
    requires SameRow(row, cols) && tx.todo == []
    ensures SameRow(CommitRow(row, tx, r), if r in tx.done then Settled(cols, tx.done[r]) else cols)
    ensures if Holds(tx, r) then CommitRow(row, tx, r).lock.None? else CommitRow(row, tx, r) == row
  {
  }

  lemma RollbackKeeps(s: State, k: nat, rows: seq<OutboxColumns>, locks: map<nat, nat>)
    requires SameOutbox(s, rows, locks) && LocksOk(s.rows, s.relays) && k in s.relays
    ensures var s' := ApplyRollback(s, k);
            LocksOk(s'.rows, s'.relays) && SameOutbox(s', rows, Unlocked(locks, k))
  {
    var s' := ApplyRollback(s, k);
    forall r | r in s.rows
      ensures SameRow(s'.rows[r], rows[r])
      ensures if Holds(s.relays[k], r) then s'.rows[r].lock.None? else s'.rows[r] == s.rows[r]
    {
      RollbackRowSame(s.rows[r], rows[r], s.relays[k], r);
    }
    CloseLocks(s.rows, s'.rows, s.relays, k);
    SameAfterClose(s, s', k, rows, rows, locks);
  }

  lemma RollbackRowSame(row: OutboxRow, cols: OutboxColumns, tx: Tx, r: nat)
    requires SameRow(row, cols)
    ensures SameRow(RollbackRow(row, tx, r), cols)
    ensures if Holds(tx, r) then RollbackRow(row, tx, r).lock.None? else RollbackRow(row, tx, r) == row
  {
  }

  lemma FollowCommit(n: nat, s0: State, es: seq<Event>, s: State, k: nat, rows: seq<OutboxColumns>,
                     locks: map<nat, nat>)
    returns (es': seq<Event>, s': State)
    requires Run(n, s0, es, s) && SameOutbox(s, rows, locks) && LocksOk(s.rows, s.relays)
    requires k in s.relays && s.relays[k].todo == []
    ensures Run(n, s0, es', s') && SameData(s, s') && s'.copies == s.copies && s'.relays == s.relays - {k}
    ensures SameOutbox(s', Stamp(rows, s.relays[k].done), Unlocked(locks, k)) && LocksOk(s'.rows, s'.relays)
  {
    RunSnoc(n, s0, es, s, Commit(k));
    CommitKeeps(s, k, rows, locks);
    es', s' := es + [Commit(k)], ApplyCommit(s, k);
  }

  lemma FollowRollback(n: nat, s0: State, es: seq<Event>, s: State, k: nat, rows: seq<OutboxColumns>,
                       locks: map<nat, nat>)
    returns (es': seq<Event>, s': State)
    requires Run(n, s0, es, s) && SameOutbox(s, rows, locks) && LocksOk(s.rows, s.relays) && k in s.relays
    ensures Run(n, s0, es', s') && SameData(s, s') && s'.copies == s.copies && s'.relays == s.relays - {k}
    ensures SameOutbox(s', rows, Unlocked(locks, k)) && LocksOk(s'.rows, s'.relays)
  {
    RunSnoc(n, s0, es, s, Rollback(k));
    RollbackKeeps(s, k, rows, locks);
    es', s' := es + [Rollback(k)], ApplyRollback(s, k);
  }

  // ---------------------------------------------------------------- batches

  /** The outbox after a committed batch in which the rows `sent` were confirmed. */
  function AfterBatch(rows: seq<OutboxColumns>, batch: seq<nat>, sent: seq<nat>): (rows': seq<OutboxColumns>)
    ensures |rows'| == |rows|
  {
    seq(|rows|, r requires 0 <= r < |rows| => if r in batch then Settled(rows[r], r in sent) else rows[r])
  }

  /** What the broker has accepted, confirmed and not confirmed, and the database's errors. */
  datatype Told = Told(log: seq<nat>, acks: seq<nat>, misses: nat, errors: nat)

  /** `i` rows are done, and `sent` are those of them that the broker has confirmed; the others are what
      it has missed. Only a database error stops the batch. If nothing was missed, the broker got all
      `i` rows, in order. */
  ghost predicate Tally(batch: seq<nat>, i: nat, pending: map<nat, bool>, ok: bool, published: nat, sent: seq<nat>,
                        before: Told, after: Told) {
    && Partial(batch, i, pending, sent) && (ok ==> published == |sent|)
    && after.acks == before.acks + sent && before.misses <= after.misses && after.misses + |sent| == before.misses + i
    && before.errors <= after.errors && (ok <==> after.errors == before.errors)
    && (after.misses == before.misses ==> AllSent(batch, i, sent, before.log, after.log))
  }

  lemma TallyStart(batch: seq<nat>, before: Told)
    ensures Tally(batch, 0, map[], true, 0, [], before, before)
  {
  }

  lemma TallyStep(batch: seq<nat>, i: nat, pending: map<nat, bool>, published: nat, sent: seq<nat>, start: Told,
                  before: Told, p: PubOutcome, ok: bool, after: Told)
    requires Ascending(batch) && i < |batch| && Tally(batch, i, pending, true, published, sent, start, before)
    requires after.log == before.log + if Accepted(p) then [batch[i]] else []
    requires after.acks == before.acks + if p.Confirmed? then [batch[i]] else []
    requires after.misses == before.misses + if p.Confirmed? then 0 else 1
    requires after.errors == before.errors + if ok then 0 else 1
    ensures Tally(batch, i + 1, pending[batch[i] := p.Confirmed?], ok,
                  if ok && p.Confirmed? then published + 1 else published,
                  if p.Confirmed? then sent + [batch[i]] else sent, start, after)
  {
    PartialStep(batch, i, pending, sent, p.Confirmed?);
    AllSentStep(batch, i, sent, start.log, before.log);
  }

  class Relay {
    const pg: Postgres
    const br: Broker
    const id: nat
    ghost const n: nat

    constructor (pg: Postgres, br: Broker, id: nat, ghost n: nat)
      ensures this.pg == pg && this.br == br && this.id == id && this.n == n
    {
      this.pg, this.br, this.id, this.n := pg, br, id, n;
    }

    /** The outbox and the broker hold what the protocol state says. */
    ghost predicate Synced(s: State)
      reads pg, br
    {
      br.Valid() && SameOutbox(s, pg.rows, pg.locks) && SameMessages(s.copies, br.messages) && LocksOk(s.rows, s.relays)
    }

    /** Publish one claimed row: the broker's answer, and the protocol's step. */
    method PublishOne(ghost s0: State, ghost es0: seq<Event>, ghost s1: State, r: nat)
      returns (p: PubOutcome, ghost es: seq<Event>, ghost s: State)
      requires Synced(s1) && Run(n, s0, es0, s1) && id in s1.relays
      requires s1.relays[id].todo != [] && s1.relays[id].todo[0] == r && r < |pg.rows|
      modifies br
      ensures Synced(s) && Run(n, s0, es, s) && SameData(s1, s)
      ensures var tx := s1.relays[id]; s.relays == s1.relays[id := Tx(tx.todo[1..], tx.done[r := p.Confirmed?])]
      ensures br.log == old(br.log) + if Accepted(p) then [r] else []
      ensures br.misses == old(br.misses) + if p.Confirmed? then 0 else 1
      ensures br.acks == old(br.acks) + if p.Confirmed? then [r] else []
    {
      var tag;
      p, tag := br.Publish(pg.rows[r].msg, r, true);
      es, s := FollowPublish(n, s0, es0, s1, id, p, tag, pg.rows, pg.locks, old(br.messages));
      PublishKeepsLocks(s1, id, p, tag);
    }

    /** `es` leads from `s0` to `s`, where the first `i` rows of the open transaction are done. */
    ghost predicate Mid(s0: State, es: seq<Event>, s: State, batch: seq<nat>, i: nat, pending: map<nat, bool>)
      reads pg, br
    {
      && i <= |batch| && Synced(s) && Run(n, s0, es, s) && SameData(s0, s)
      && s.relays == s0.relays[id := Tx(batch[i..], pending)]
      && forall r :: r in batch ==> r < |pg.rows|
    }

    method PublishNext(batch: seq<nat>, i: nat, pending: map<nat, bool>, ghost s0: State, ghost es0: seq<Event>,
                       ghost s1: State)
      returns (p: PubOutcome, pending': map<nat, bool>, ghost es: seq<Event>, ghost s: State)
      requires i < |batch| && Mid(s0, es0, s1, batch, i, pending)
      modifies br
      ensures pending' == pending[batch[i] := p.Confirmed?] && Mid(s0, es, s, batch, i + 1, pending')
      ensures br.log == old(br.log) + if Accepted(p) then [batch[i]] else []
      ensures br.misses == old(br.misses) + if p.Confirmed? then 0 else 1
      ensures br.acks == old(br.acks) + if p.Confirmed? then [batch[i]] else []
    {
      assert batch[i] in batch;
      p, es, s := PublishOne(s0, es0, s1, batch[i]);
      pending' := pending[batch[i] := p.Confirmed?];
      RelaysStep(s0.relays, s.relays, id, batch, i, pending, p.Confirmed?);
    }

    /** What the broker and the database have told since the batch began. */
    ghost function Heard(): Told
      reads pg, br
    {
      Told(br.log, br.acks, br.misses, pg.errors)
    }

    /** The batch is under way: `i` rows are done, with this tally. */
    ghost predicate Sending(s0: State, es: seq<Event>, s: State, batch: seq<nat>, i: nat, pending: map<nat, bool>,
                            ok: bool, published: nat, sent: seq<nat>, start: Told)
      reads pg, br
    {
      Mid(s0, es, s, batch, i, pending) && Tally(batch, i, pending, ok, published, sent, start, Heard())
    }

    /** Publish the next row and update it. */
    method PublishStep(batch: seq<nat>, i: nat, pending: map<nat, bool>, published: nat, ghost sent: seq<nat>,
                       ghost s0: State, ghost es0: seq<Event>, ghost s1: State, ghost start: Told)
      returns (ok: bool, pending': map<nat, bool>, published': nat, ghost sent': seq<nat>, ghost es: seq<Event>,
               ghost s: State)
      requires Ascending(batch) && i < |batch|
      requires Sending(s0, es0, s1, batch, i, pending, true, published, sent, start)
      modifies pg`errors, br
      ensures Sending(s0, es, s, batch, i + 1, pending', ok, published', sent', start)
    {
      ghost var before := Heard();
      var p;
      p, pending', es, s := PublishNext(batch, i, pending, s0, es0, s1);
      sent' := if p.Confirmed? then sent + [batch[i]] else sent;
      ok := pg.Statement();
      published' := if ok && p.Confirmed? then published + 1 else published;
      TallyStep(batch, i, pending, published, sent, start, before, p, ok, Heard());
    }

    /** Publish the claimed rows one by one inside the open transaction: a confirmed row is stamped,
        any other is left for later. A failing statement is reported by `ok`. */
    method PublishAll(batch: seq<nat>, ghost s0: State, ghost es0: seq<Event>, ghost s1: State)
      returns (ok: bool, pending: map<nat, bool>, published: nat, ghost sent: seq<nat>,
               ghost done: nat, ghost es: seq<Event>, ghost s: State)
      requires Ascending(batch) && Mid(s0, es0, s1, batch, 0, map[])
      modifies pg`errors, br
      ensures Sending(s0, es, s, batch, done, pending, ok, published, sent, old(Heard()))
      ensures ok ==> done == |batch|
    {
      hide SameOutbox;
      hide SameMessages;
      hide LocksOk;
      hide Run;
      pending, published, sent, es, s := map[], 0, [], es0, s1;
      ok, done := true, 0;
      ghost var start := Heard();
      TallyStart(batch, start);
      var i: nat := 0;
      while i < |batch| && ok
        invariant done == i <= |batch|
        invariant Sending(s0, es, s, batch, i, pending, ok, published, sent, start)
        decreases |batch| - i
      {
        ok, pending, published, sent, es, s := PublishStep(batch, i, pending, published, sent, s0, es, s, start);
        i, done := i + 1, i + 1;
      }
    }

    /** The transaction is over and only the outbox and the broker have moved. */
    ghost predicate Closed(s0: State, es: seq<Event>, s: State)
      reads pg, br
    {
      Synced(s) && Run(n, s0, es, s) && SameData(s0, s) && s.relays == s0.relays
    }

    /** Abandon the transaction. */
    method AbandonBatch(ghost s0: State, ghost es0: seq<Event>, ghost s1: State, ghost tx: Tx)
      returns (ghost es: seq<Event>, ghost s: State)
      requires Synced(s1) && Run(n, s0, es0, s1) && SameData(s0, s1)
      requires id !in s0.relays && s1.relays == s0.relays[id := tx]
      modifies pg`locks
      ensures Closed(s0, es, s) && pg.locks == Unlocked(old(pg.locks), id)
    {
      pg.RollbackTx(id);
      es, s := FollowRollback(n, s0, es0, s1, id, pg.rows, old(pg.locks));
      RelaysRestored(s0.relays, id, tx);
    }

    /** Commit the transaction. It may fail, and it may go through without the relay learning of it. */
    method CommitBatch(pending: map<nat, bool>, ghost s0: State, ghost es0: seq<Event>, ghost s1: State)
      returns (ok: bool, ghost es: seq<Event>, ghost s: State)
      requires Synced(s1) && Run(n, s0, es0, s1) && SameData(s0, s1)
      requires id !in s0.relays && s1.relays == s0.relays[id := Tx([], pending)]
      modifies pg`rows, pg`locks, pg`errors
      ensures Closed(s0, es, s) && pg.locks == Unlocked(old(pg.locks), id)
      ensures pg.errors == old(pg.errors) + if ok then 0 else 1
      ensures ok ==> pg.rows == Stamp(old(pg.rows), pending)
      ensures pg.rows == old(pg.rows) || pg.rows == Stamp(old(pg.rows), pending)
    {
      var applied;
      ok, applied := pg.CommitTx(id, pending);
      if applied {
        es, s := FollowCommit(n, s0, es0, s1, id, old(pg.rows), old(pg.locks));
      } else {
        es, s := FollowRollback(n, s0, es0, s1, id, old(pg.rows), old(pg.locks));
      }
      RelaysRestored(s0.relays, id, Tx([], pending));
    }

    /** Claim the oldest free rows. */
    method ClaimBatch(ghost s0: State) returns (batch: seq<nat>, ghost es: seq<Event>, ghost s: State)
      requires Synced(s0) && id !in s0.relays
      modifies pg`locks
      ensures IsOldest(pg.rows, old(pg.locks), BATCH_SIZE, batch) && Unlocked(pg.locks, id) == old(pg.locks)
      ensures batch == [] ==> Closed(s0, es, s) && pg.locks == old(pg.locks)
      ensures batch != [] ==> Mid(s0, es, s, batch, 0, map[])
    {
      batch := pg.ClaimOldest(id, BATCH_SIZE);
      LocksRestored(s0, pg.rows, old(pg.locks), id, batch);
      if batch == [] {
        es, s := [], s0;
      } else {
        es, s := FollowClaim(n, s0, id, batch, pg.rows, old(pg.locks));
        assert batch[0..] == batch;
      }
    }

    /** Publish a claimed batch and end its transaction. */
    method PublishBatch(claimed: seq<nat>, ghost s0: State, ghost es0: seq<Event>, ghost s1: State)
      returns (r: BatchResult, ghost sent: seq<nat>, ghost es: seq<Event>, ghost s: State)
      requires id !in s0.relays && Ascending(claimed) && Mid(s0, es0, s1, claimed, 0, map[])
      modifies pg`rows, pg`locks, pg`errors, br
      ensures Closed(s0, es, s) && pg.locks == Unlocked(old(pg.locks), id)
      ensures BatchEffect(old(pg.rows), pg.rows, claimed, sent, r)
      ensures BatchTold(claimed, sent, r, old(Heard()), Heard())
      ensures br.misses == old(br.misses) && r.Published? ==> sent == claimed && br.log == old(br.log) + claimed
    {
      var ok, pending, published;
      ghost var done;
      ok, pending, published, sent, done, es, s := PublishAll(claimed, s0, es0, s1);
      PartialMembers(claimed, done, pending, sent);
      if ok {
        AfterStamp(pg.rows, claimed, pending, sent);
        assert claimed[done..] == [];
        ok, es, s := CommitBatch(pending, s0, es, s);
        r := if ok then Published(published) else BatchResult.Error;
        AllSentWhole(claimed, sent, old(br.log), br.log);
      } else {
        es, s := AbandonBatch(s0, es, s, Tx(claimed[done..], pending));
        r := BatchResult.Error;
      }
    }

    /** Claim the oldest free rows, publish them, and stamp the confirmed ones in the same
        transaction; only a database error makes the batch fail, and then nothing of it is lost. */
    method DispatchBatch(ghost s0: State)
      returns (r: BatchResult, ghost batch: seq<nat>, ghost sent: seq<nat>, ghost es: seq<Event>, ghost s: State)
      requires Synced(s0) && id !in s0.relays
      modifies pg`rows, pg`locks, pg`errors, br
      ensures Closed(s0, es, s) && pg.locks == old(pg.locks)
      ensures r.Published? ==> IsOldest(old(pg.rows), old(pg.locks), BATCH_SIZE, batch) && |batch| <= 50
      ensures BatchEffect(old(pg.rows), pg.rows, batch, sent, r)
      ensures BatchTold(batch, sent, r, old(Heard()), Heard())
      ensures br.misses == old(br.misses) && r.Published? ==> sent == batch && br.log == old(br.log) + batch
    {
      batch, sent, es, s := [], [], [], s0;
      var up := pg.Statement();
      if !up {
        return BatchResult.Error, batch, sent, es, s;
      }
      var claimed;
      claimed, es, s := ClaimBatch(s0);
      batch := claimed;
      if claimed == [] {
        AfterEmpty(pg.rows);
        r := Published(0);
      } else {
        r, sent, es, s := PublishBatch(claimed, s0, es, s);
      }
    }

    /** One more batch after those of `es0`. */
    method DispatchMore(ghost s0: State, ghost es0: seq<Event>, ghost s1: State)
      returns (r: BatchResult, ghost batch: seq<nat>, ghost es: seq<Event>, ghost s: State)
      requires Closed(s0, es0, s1) && id !in s0.relays
      modifies pg`rows, pg`locks, pg`errors, br
      ensures Closed(s0, es, s) && pg.locks == old(pg.locks)
      ensures r == Published(0) ==> IsOldest(pg.rows, pg.locks, BATCH_SIZE, batch)
      ensures r == Published(0) ==> pg.rows == AfterBatch(old(pg.rows), batch, [])
      ensures TriedMore(old(pg.rows), pg.rows)
      ensures r == Published(0) && batch == [] ==> AllFree(pg.rows, pg.locks) == []
      ensures r.Published? && r.count > 0 ==> UnpublishedRows(pg.rows) < UnpublishedRows(old(pg.rows))
      ensures old(pg.errors) <= pg.errors && old(br.misses) <= br.misses
      ensures r.Published? <==> pg.errors == old(pg.errors)
      ensures br.misses == old(br.misses) && r.Published? ==>
                && r.count == |batch|
                && br.log + AllFree(pg.rows, pg.locks) == old(br.log) + AllFree(old(pg.rows), pg.locks)
    {
      ghost var es1, sent;
      r, batch, sent, es1, s := DispatchBatch(s1);
      RunConcat(n, s0, es0, s1, es1, s);
      es := es0 + es1;
      BatchTries(old(pg.rows), pg.rows, batch, sent, r);
      if r.Published? {
        if r.count == 0 {
          NothingSent(old(pg.rows), pg.rows, pg.locks, batch, sent);
        } else {
          SomethingSent(old(pg.rows), pg.rows, pg.locks, batch, sent);
        }
        if br.misses == old(br.misses) {
          BatchIsPrefix(old(pg.rows), pg.locks, batch);
          LogStep(old(br.log), batch, AllFree(pg.rows, pg.locks));
        }
      }
    }

    /** Keep dispatching until a batch publishes nothing or fails. When the relay goes idle, either no
        free row is left or it has tried the whole oldest batch and published none of it. It does go
        idle exactly if the database reports no error; and if the broker has confirmed everything as
        well, it got every free row once, oldest first. */
    method Drain(ghost s0: State) returns (idle: bool, ghost last: seq<nat>, ghost es: seq<Event>, ghost s: State)
      requires Synced(s0) && id !in s0.relays
      modifies pg`rows, pg`locks, pg`errors, br
      ensures Closed(s0, es, s) && pg.locks == old(pg.locks)
      ensures idle ==> IsOldest(pg.rows, pg.locks, BATCH_SIZE, last)
      ensures idle ==> |pg.rows| == |old(pg.rows)| &&
                       forall r :: r in last ==> pg.rows[r].attempts > old(pg.rows)[r].attempts
      ensures idle && last == [] ==> AllFree(pg.rows, pg.locks) == []
      ensures idle <==> pg.errors == old(pg.errors)
      ensures idle && br.misses == old(br.misses) ==>
                last == [] && br.log == old(br.log) + AllFree(old(pg.rows), pg.locks)
    {
      idle, last, es, s := false, [], [], s0;
      while true
        invariant Closed(s0, es, s) && pg.locks == old(pg.locks)
        invariant pg.errors == old(pg.errors) && old(br.misses) <= br.misses && TriedMore(old(pg.rows), pg.rows)
        invariant br.misses == old(br.misses) ==>
                    br.log + AllFree(pg.rows, pg.locks) == old(br.log) + AllFree(old(pg.rows), pg.locks)
        decreases UnpublishedRows(pg.rows)
      {
        ghost var before := pg.rows;
        var r;
        r, last, es, s := DispatchMore(s0, es, s);
        match r
        case Error =>
          return;
        case Published(count) =>
          if count == 0 {
            NothingSentTries(before, pg.rows, pg.locks, last);
            idle := true;
            return;
          }
      }
    }
  }

  // ---------------------------------------------------------------- draining

  ghost function UnpublishedRows(rows: seq<OutboxColumns>): set<nat> {
    set r | 0 <= r < |rows| && !rows[r].published
  }

  /** Every free row, oldest first. */
  function AllFree(rows: seq<OutboxColumns>, locks: map<nat, nat>): (q: seq<nat>) {
    if rows == [] then []
    else AllFree(rows[..|rows| - 1], locks) + if IsFree(rows, locks, |rows| - 1) then [|rows| - 1] else []
  }

  lemma {:induction false} AllFreeMembers(rows: seq<OutboxColumns>, locks: map<nat, nat>)
    ensures Ascending(AllFree(rows, locks)) && forall r :: r in AllFree(rows, locks) <==> IsFree(rows, locks, r)
  {
    if rows != [] {
      var init := rows[..|rows| - 1];
      AllFreeMembers(init, locks);
      var q := AllFree(init, locks);
      forall i | 0 <= i < |q| ensures q[i] < |rows| - 1 {
        assert q[i] in q;
      }
      forall r: nat ensures r in AllFree(rows, locks) <==> IsFree(rows, locks, r) {
        assert r in q <==> IsFree(init, locks, r);
      }
    }
  }

  lemma HasMember(q: seq<nat>)
    ensures q != [] ==> exists x :: x in q
  {
    if q != [] {
      assert q[0] in q;
    }
  }

  lemma {:induction false} AscendingUnique(a: seq<nat>, b: seq<nat>)
    requires Ascending(a) && Ascending(b) && forall x :: x in a <==> x in b
    ensures a == b
  {
    if a == [] {
      HasMember(b);
    } else {
      assert a[|a| - 1] in a && a[|a| - 1] in b;
      assert b[|b| - 1] in b && b[|b| - 1] in a;
      assert a[|a| - 1] == b[|b| - 1];
      var a', b' := a[..|a| - 1], b[..|b| - 1];
      forall x ensures x in a' <==> x in b' {
        assert x in a' ==> x in a && x < a[|a| - 1];
        assert x in b' ==> x in b && x < b[|b| - 1];
        assert x in a ==> x in a' || x == a[|a| - 1];
        assert x in b ==> x in b' || x == b[|b| - 1];
      }
      AscendingUnique(a', b');
    }
  }

  /** A fully published batch is the head of what was free, and the rest is still free. */
  lemma BatchIsPrefix(rows: seq<OutboxColumns>, locks: map<nat, nat>, batch: seq<nat>)
    requires IsOldest(rows, locks, BATCH_SIZE, batch)
    ensures AllFree(rows, locks) == batch + AllFree(AfterBatch(rows, batch, batch), locks)
  {
    var rest := AllFree(AfterBatch(rows, batch, batch), locks);
    AllFreeMembers(rows, locks);
    AllFreeMembers(AfterBatch(rows, batch, batch), locks);
    forall r: nat ensures IsFree(AfterBatch(rows, batch, batch), locks, r) <==> IsFree(rows, locks, r) && r !in batch {
    }
    forall i, k | 0 <= i < |batch| && 0 <= k < |rest| ensures batch[i] < rest[k] {
      assert batch[i] in batch && rest[k] in rest;
    }
    AscendingUnique(AllFree(rows, locks), batch + rest);
  }

  lemma LogStep(log: seq<nat>, batch: seq<nat>, rest: seq<nat>)
    ensures log + (batch + rest) == (log + batch) + rest
  {
  }

  /** A batch of which nothing was confirmed is still the oldest batch. */
  lemma NothingSent(rows: seq<OutboxColumns>, rows': seq<OutboxColumns>, locks: map<nat, nat>, batch: seq<nat>,
                    sent: seq<nat>)
    requires IsOldest(rows, locks, BATCH_SIZE, batch) && BatchEffect(rows, rows', batch, sent, Published(0))
    ensures IsOldest(rows', locks, BATCH_SIZE, batch)
    ensures batch == [] ==> AllFree(rows', locks) == [] && forall r :: !IsFree(rows', locks, r)
  {
    forall r: nat ensures IsFree(rows', locks, r) <==> IsFree(rows, locks, r) {
    }
    if batch == [] {
      AllFreeMembers(rows', locks);
      HasMember(AllFree(rows', locks));
    }
  }

  /** No attempt is taken back. */
  ghost predicate TriedMore(rows: seq<OutboxColumns>, rows': seq<OutboxColumns>) {
    |rows'| == |rows| && forall r :: 0 <= r < |rows| ==> rows'[r].attempts >= rows[r].attempts
  }

  lemma BatchTries(rows: seq<OutboxColumns>, rows': seq<OutboxColumns>, batch: seq<nat>, sent: seq<nat>, r: BatchResult)
    requires BatchEffect(rows, rows', batch, sent, r)
    ensures TriedMore(rows, rows')
  {
  }

  /** Every row of a batch of which nothing was confirmed has been tried once more. */
  lemma NothingSentTries(rows: seq<OutboxColumns>, rows': seq<OutboxColumns>, locks: map<nat, nat>, batch: seq<nat>)
    requires rows' == AfterBatch(rows, batch, []) && IsOldest(rows', locks, BATCH_SIZE, batch)
    ensures forall r :: r in batch ==> r < |rows| && rows'[r].attempts == rows[r].attempts + 1
  {
  }

  /** A batch of which something was confirmed leaves fewer rows unpublished. */
  lemma SomethingSent(rows: seq<OutboxColumns>, rows': seq<OutboxColumns>, locks: map<nat, nat>, batch: seq<nat>,
                      sent: seq<nat>)
    requires IsOldest(rows, locks, BATCH_SIZE, batch) && sent != []
    requires BatchEffect(rows, rows', batch, sent, Published(|sent|))
    ensures UnpublishedRows(rows') < UnpublishedRows(rows)
  {
    assert sent[0] in sent && sent[0] in batch;
    assert IsFree(rows, locks, sent[0]);
    assert sent[0] in UnpublishedRows(rows) && sent[0] !in UnpublishedRows(rows');
  }

  /** The batch succeeds exactly if the database reports no error. Then `sent` are the rows the broker
      has confirmed, and the rest of the batch is what it has missed. */
  ghost predicate BatchTold(batch: seq<nat>, sent: seq<nat>, r: BatchResult, before: Told, after: Told) {
    && before.errors <= after.errors && before.misses <= after.misses
    && (r.Published? <==> after.errors == before.errors)
    && after.acks == before.acks + sent
    && (r.Published? ==> after.misses + |sent| == before.misses + |batch|)
  }

  /** What a batch does to the outbox: all its updates or none, and on success all of them. */
  ghost predicate BatchEffect(rows: seq<OutboxColumns>, rows': seq<OutboxColumns>, batch: seq<nat>, sent: seq<nat>,
                              r: BatchResult) {
    && Ascending(sent) && (forall x :: x in sent ==> x in batch)
    && (rows' == rows || rows' == AfterBatch(rows, batch, sent))
    && (r.Published? ==> r.count == |sent| && rows' == AfterBatch(rows, batch, sent))
  }

  lemma AllSentWhole(batch: seq<nat>, sent: seq<nat>, log0: seq<nat>, log: seq<nat>)
    ensures AllSent(batch, |batch|, sent, log0, log) ==> sent == batch && log == log0 + batch
  {
  }

  lemma AfterStamp(rows: seq<OutboxColumns>, batch: seq<nat>, pending: map<nat, bool>, sent: seq<nat>)
    requires Partial(batch, |batch|, pending, sent)
    ensures Stamp(rows, pending) == AfterBatch(rows, batch, sent)
  {
    assert batch[..|batch|] == batch;
  }

  lemma AfterEmpty(rows: seq<OutboxColumns>)
    ensures AfterBatch(rows, [], []) == rows
  {
  }

  lemma PartialMembers(batch: seq<nat>, done: nat, pending: map<nat, bool>, sent: seq<nat>)
    requires Partial(batch, done, pending, sent)
    ensures forall r :: r in pending ==> r in batch
    ensures forall r :: r in sent ==> r in batch
  {
    forall r | r in batch[..done] ensures r in batch {
    }
  }

  lemma RelaysRestored(relays: map<nat, Tx>, k: nat, tx: Tx)
    requires k !in relays
    ensures relays[k := tx] - {k} == relays
  {
  }

  lemma LocksRestored(s: State, rows: seq<OutboxColumns>, locks: map<nat, nat>, k: nat, batch: seq<nat>)
    requires SameOutbox(s, rows, locks) && LocksOk(s.rows, s.relays) && k !in s.relays
    requires IsOldest(rows, locks, BATCH_SIZE, batch)
    ensures Unlocked(Locked(locks, batch, k), k) == locks && (batch == [] ==> Locked(locks, batch, k) == locks)
  {
    forall r | r in locks ensures locks[r] != k {
      assert r in s.rows && s.rows[r].lock == Some(locks[r]);
    }
    UnlockLocked(locks, batch, k);
  }

  lemma UnlockLocked(locks: map<nat, nat>, batch: seq<nat>, k: nat)
    requires forall r :: r in locks ==> locks[r] != k && r !in batch
    ensures Unlocked(Locked(locks, batch, k), k) == locks && (batch == [] ==> Locked(locks, batch, k) == locks)
  {
  }

  /** The first `i` rows of the batch have been dealt with, and `sent` are those that were confirmed. */
  ghost predicate Partial(batch: seq<nat>, i: nat, pending: map<nat, bool>, sent: seq<nat>) {
    && i <= |batch| && Ascending(sent)
    && (forall r :: r in pending <==> r in batch[..i])
    && (forall r :: r in pending ==> (pending[r] <==> r in sent))
    && (forall r :: r in sent ==> r in batch[..i])
  }

  lemma PartialStep(batch: seq<nat>, i: nat, pending: map<nat, bool>, sent: seq<nat>, confirmed: bool)
    requires Ascending(batch) && i < |batch| && Partial(batch, i, pending, sent)
    ensures Partial(batch, i + 1, pending[batch[i] := confirmed], if confirmed then sent + [batch[i]] else sent)
  {
    assert batch[..i + 1] == batch[..i] + [batch[i]];
    forall k | 0 <= k < |sent| ensures sent[k] < batch[i] {
      assert sent[k] in batch[..i];
    }
  }

  /** So far every row was confirmed, and the broker got them in order. */
  ghost predicate AllSent(batch: seq<nat>, i: nat, sent: seq<nat>, log0: seq<nat>, log: seq<nat>) {
    i <= |batch| && sent == batch[..i] && log == log0 + sent
  }

  lemma AllSentStep(batch: seq<nat>, i: nat, sent: seq<nat>, log0: seq<nat>, log: seq<nat>)
    requires i < |batch|
    ensures AllSent(batch, i, sent, log0, log) ==> AllSent(batch, i + 1, sent + [batch[i]], log0, log + [batch[i]])
  {
  }

  lemma RelaysStep(relays: map<nat, Tx>, next: map<nat, Tx>, k: nat, batch: seq<nat>, i: nat, pending: map<nat, bool>,
                   confirmed: bool)
    requires i < |batch|
    requires next == relays[k := Tx(batch[i..], pending)][k := Tx(batch[i..][1..], pending[batch[i] := confirmed])]
    ensures next == relays[k := Tx(batch[i + 1..], pending[batch[i] := confirmed])]
  {
    assert batch[i..][1..] == batch[i + 1..];
  }

  lemma PublishKeepsLocks(s: State, k: nat, p: PubOutcome, tag: nat)
    requires LocksOk(s.rows, s.relays) && k in s.relays && s.relays[k].todo != [] && s.relays[k].todo[0] in s.rows
    ensures var s' := ApplyPublish(s, k, p, tag); LocksOk(s'.rows, s'.relays)
  {
    PublishLocks(s.rows, ApplyPublish(s, k, p, tag).rows, s.relays, k, p.Confirmed?);
  }

  lemma ClaimKeepsLocks(s: State, k: nat, batch: seq<nat>)
    requires LocksOk(s.rows, s.relays) && k !in s.relays && IsClaim(s.rows, batch)
    ensures var s' := ApplyClaim(s, k, batch); LocksOk(s'.rows, s'.relays)
  {
    ClaimLocks(s.rows, ApplyClaim(s, k, batch).rows, s.relays, k, batch);
  }
}
