// Accepting a submission: the job row and the outbox row, in one transaction.

module Intake {
  import opened Domain
  import opened Protocol
  import opened Stores
  import opened Relay

  lemma SubmitShows(s: State, j: Uuid, u: Uuid, src: Source, rows: seq<OutboxColumns>, locks: map<nat, nat>)
    requires SameOutbox(s, rows, locks) && j !in s.jobs
    ensures Enabled(s, Submit(j, u, src, |rows|))
    ensures SameOutbox(ApplySubmit(s, j, u, src, |rows|),
                       rows + [OutboxColumns(Message(j, u, src, 0), false, 0)], locks)
  {
    assert |rows| !in s.rows;
  }

  /** Either the job and its message are both recorded, as one step of the protocol, or neither is.
      The caller is told of a success exactly if the transaction has not failed. */
  method CreateJob(pg: Postgres, job: Uuid, user: Uuid, source: Source, ghost n: nat, ghost s0: State)
    returns (accepted: bool, ghost es: seq<Event>, ghost s: State)
    requires job !in pg.jobs && s0.jobs == pg.jobs && s0.dashboards == pg.dashboards
    requires SameOutbox(s0, pg.rows, pg.locks)
    modifies pg`jobs, pg`rows, pg`failures
    ensures accepted <==> pg.failures == old(pg.failures)
    ensures Run(n, s0, es, s) && s.jobs == pg.jobs && SameOutbox(s, pg.rows, pg.locks)
    ensures es == [] || es == [Submit(job, user, source, |old(pg.rows)|)]
    ensures accepted ==> es != [] && job in pg.jobs && pg.jobs[job].status == Queued
    ensures s.dashboards == s0.dashboards && s.tables == s0.tables && s.copies == s0.copies && s.relays == s0.relays
  {
    es, s := [], s0;
    var o := pg.CreateJob(job, user, source);
    accepted := o.Success?;
    if Applied(o) {
      SubmitShows(s0, job, user, source, old(pg.rows), pg.locks);
      s := ApplySubmit(s0, job, user, source, |old(pg.rows)|);
      es := [Submit(job, user, source, |old(pg.rows)|)];
      RunStep(n, s0, es[0], [], s);
    }
  }
}
