// The handling of one delivery: acknowledge, retry with a higher attempt, or dead-letter.

module Consumer {
  import opened Domain
  import opened Protocol
  import opened Safety
  import opened Stores
  import opened Worker

  function WhereOf(p: Place): Where {
    match p
    case Waiting => InQueue
    case Running(_) => Unacked
    case Halted => Unacked
    case Dead => DeadLettered
    case Acked => Removed
  }

  function StoredOf(c: Copy): Stored {
    Stored(c.msg, c.origin, c.root, WhereOf(c.place))
  }

  /** The broker holds the protocol's copies. */
  ghost predicate SameMessages(copies: map<nat, Copy>, messages: map<nat, Stored>) {
    copies.Keys == messages.Keys && forall c :: c in copies ==> messages[c] == StoredOf(copies[c])
  }

  lemma SameAfterMove(copies: map<nat, Copy>, messages: map<nat, Stored>, tag: nat, p: Place)
    requires SameMessages(copies, messages) && tag in copies
    ensures SameMessages(copies[tag := copies[tag].(place := p)], messages[tag := messages[tag].(at := WhereOf(p))])
  {
  }

  lemma SameAfterSettle(s: State, tag: nat, lost: bool, messages: map<nat, Stored>)
    requires RunningAt(s, tag) && SameMessages(s.copies, messages)
    ensures SameMessages(ApplySettle(s, tag, lost).copies, if lost then messages
              else messages[tag := messages[tag].(at := if TaskOf(s, tag).pc.Nack? then DeadLettered else Removed)])
  {
    SameAfterMove(s.copies, messages, tag, ApplySettle(s, tag, lost).copies[tag].place);
    if lost {
      assert messages[tag := messages[tag].(at := Unacked)] == messages;
    }
  }

  lemma SameWhileRunning(s: State, s': State, messages: map<nat, Stored>, tag: nat)
    requires SameMessages(s.copies, messages) && Only(s, s', tag) && RunningAt(s, tag) && RunningAt(s', tag)
    ensures SameMessages(s'.copies, messages)
  {
  }

  lemma SameAfterRetry(s: State, tag: nat, p: PubOutcome, child: nat, messages: map<nat, Stored>)
    requires RunningAt(s, tag) && SameMessages(s.copies, messages) && child !in messages
    ensures var c := s.copies[tag];
            SameMessages(ApplyRepublish(s, tag, p, child).copies, if Accepted(p)
              then messages[child := Stored(c.msg.(attempt := c.msg.attempt + 1), c.origin, false, InQueue)]
              else messages)
  {
  }

  /** The protocol's retry for a publication the broker has just answered. */
  lemma FollowRetry(n: nat, s0: State, es: seq<Event>, s: State, tag: nat, p: PubOutcome, child: nat,
                    messages: map<nat, Stored>)
    returns (es': seq<Event>, s': State)
    requires Run(n, s0, es, s) && RunningAt(s, tag) && TaskOf(s, tag).pc.Retry?
    requires SameMessages(s.copies, messages) && child !in messages
    ensures Run(n, s0, es', s') && RunningAt(s', tag)
    ensures s'.jobs == s.jobs && s'.dashboards == s.dashboards && s'.tables == s.tables
    ensures s'.copies[tag].msg == s.copies[tag].msg
    ensures TaskOf(s', tag) == TaskOf(s, tag).(pc := if p.Confirmed? then AckRetry else Pc.MarkFailed)
    ensures var c := s.copies[tag];
            SameMessages(s'.copies, if Accepted(p)
              then messages[child := Stored(c.msg.(attempt := c.msg.attempt + 1), c.origin, false, InQueue)]
              else messages)
  {
    SameAfterRetry(s, tag, p, child, messages);
    RunSnoc(n, s0, es, s, Republish(tag, p, child));
    es', s' := es + [Republish(tag, p, child)], ApplyRepublish(s, tag, p, child);
  }

  /** The protocol's settlement for an ack or nack. */
  lemma FollowSettle(n: nat, s0: State, es: seq<Event>, s: State, tag: nat, lost: bool, messages: map<nat, Stored>)
    returns (es': seq<Event>, s': State)
    requires Run(n, s0, es, s) && RunningAt(s, tag) && TaskOf(s, tag).pc in {Finished, AckRetry, Nack}
    requires SameMessages(s.copies, messages)
    ensures Run(n, s0, es', s') && tag in s'.copies && !s'.copies[tag].place.Running?
    ensures s'.jobs == s.jobs && s'.dashboards == s.dashboards && s'.tables == s.tables
    ensures SameMessages(s'.copies, if lost then messages
              else messages[tag := messages[tag].(at := if TaskOf(s, tag).pc.Nack? then DeadLettered else Removed)])
  {
    RunSnoc(n, s0, es, s, Settle(tag, lost));
    es', s' := es + [Settle(tag, lost)], ApplySettle(s, tag, lost);
    SameAfterSettle(s, tag, lost, messages);
  }

  lemma FollowFailure(n: nat, s0: State, es: seq<Event>, s: State, tag: nat, msg: Message, o: Outcome)
    returns (es': seq<Event>, s': State)
    requires Run(n, s0, es, s) && RunningAt(s, tag) && s.copies[tag].msg == msg && msg.job in s.jobs
    requires TaskOf(s, tag).pc == Pc.MarkFailed
    ensures Run(n, s0, es', s') && Only(s, s', tag) && RunningAt(s', tag) && TaskOf(s', tag).pc == Nack
    ensures s'.jobs == (if Applied(o) then s.jobs[msg.job := FailedRow(s.jobs[msg.job], TaskOf(s, tag).reason)]
                        else s.jobs)
    ensures s'.dashboards == s.dashboards && s'.tables == s.tables
  {
    var es1;
    es1, s' := FollowRow(n, s, [], s, tag, msg, o);
    RunConcat(n, s0, es, s, es1, s');
    es' := es + es1;
    PutBack(s.jobs, msg.job);
  }

  lemma FollowCount(n: nat, s0: State, es: seq<Event>, s: State, tag: nat, msg: Message, o: Outcome)
    returns (es': seq<Event>, s': State)
    requires Run(n, s0, es, s) && RunningAt(s, tag) && s.copies[tag].msg == msg && msg.job in s.jobs
    requires TaskOf(s, tag).pc == CountAttempt
    ensures Run(n, s0, es', s') && Only(s, s', tag) && RunningAt(s', tag)
    ensures TaskOf(s', tag) == TaskOf(s, tag).(pc := Pc.Retry)
    ensures s'.jobs == (if Applied(o) then s.jobs[msg.job := s.jobs[msg.job].(attempts := s.jobs[msg.job].attempts + 1)]
                        else s.jobs)
    ensures s'.dashboards == s.dashboards && s'.tables == s.tables
  {
    var es1;
    es1, s' := FollowRow(n, s, [], s, tag, msg, o);
    RunConcat(n, s0, es, s, es1, s');
    es' := es + es1;
    PutBack(s.jobs, msg.job);
  }

  /** A new message in the queue carries the next attempt of `msg`. */
  ghost predicate Succeeded(before: map<nat, Stored>, after: map<nat, Stored>, tag: nat, msg: Message)
    requires tag in before
  {
    exists child :: child in after && child !in before &&
      after[child] == Stored(msg.(attempt := msg.attempt + 1), before[tag].origin, false, InQueue)
  }

  /** The message was acknowledged only because its next attempt is queued. */
  ghost predicate AckJustified(before: map<nat, Stored>, after: map<nat, Stored>, tag: nat, msg: Message)
    requires tag in before
  {
    tag in after && (after[tag].at == Removed ==> before[tag].at == Removed || Succeeded(before, after, tag, msg))
  }

  lemma RetryJustified(before: map<nat, Stored>, mid: map<nat, Stored>, after: map<nat, Stored>, tag: nat, msg: Message,
                       p: PubOutcome, child: nat)
    requires tag in before && child !in before
    requires mid == if Accepted(p) then
                      before[child := Stored(msg.(attempt := msg.attempt + 1), before[tag].origin, false, InQueue)]
                    else before
    requires after == mid || after == mid[tag := mid[tag].(at := if p.Confirmed? then Removed else DeadLettered)]
    ensures AckJustified(before, after, tag, msg)
  {
    if p.Confirmed? {
      assert child in after;
    }
  }

  predicate FailedFor(row: JobRow, reason: string) {
    row.status == JobStatus.Failed && row.error == Some(reason)
  }

  class Handler {
    const ingest: Ingest
    const br: Broker

    constructor (ingest: Ingest, br: Broker)
      ensures this.ingest == ingest && this.br == br
    {
      this.ingest, this.br := ingest, br;
    }

    /** All four stores hold what the protocol state says. */
    ghost predicate Synced(s: State)
      reads ingest.pg, ingest.ch, br
    {
      br.Valid() && ingest.Shows(s) && SameMessages(s.copies, br.messages)
    }

    /** `es` leads from `s0` to `s`, the stores show `s`, and there the delivery of `msg` is at `pc`. */
    ghost predicate Reached(s0: State, es: seq<Event>, s: State, tag: nat, msg: Message, pc: Pc)
      reads ingest.pg, ingest.ch, br
    {
      && Run(ingest.n, s0, es, s) && Synced(s)
      && RunningAt(s, tag) && TaskOf(s, tag).pc == pc && s.copies[tag].msg == msg && msg.job in s.jobs
    }

    /** `es` leads from `s0` to `s`, the stores show `s`, and the delivery is over. */
    ghost predicate Over(s0: State, es: seq<Event>, s: State, tag: nat)
      reads ingest.pg, ingest.ch, br
    {
      Run(ingest.n, s0, es, s) && Synced(s) && tag in s.copies && !s.copies[tag].place.Running?
    }

    /** Settle the delivery; a settlement that gets lost leaves the message unacked. */
    method SettleDelivery(tag: nat, msg: Message, pc: Pc, ghost s0: State, ghost es0: seq<Event>, ghost s1: State)
      returns (ghost es: seq<Event>, ghost s: State)
      requires Reached(s0, es0, s1, tag, msg, pc) && pc in {Finished, AckRetry, Nack}
      modifies br`messages, br`losses
      ensures Over(s0, es, s, tag) && old(br.losses) <= br.losses && tag in old(br.messages)
      ensures br.messages == if br.losses > old(br.losses) then old(br.messages) else
                old(br.messages)[tag := old(br.messages)[tag].(at := if pc.Nack? then DeadLettered else Removed)]
    {
      var lost := br.Settle(tag, !pc.Nack?);
      es, s := FollowSettle(ingest.n, s0, es0, s1, tag, lost, old(br.messages));
    }

    /** Record the failure, whether or not the database listens, and dead-letter the message. */
    method GiveUp(tag: nat, msg: Message, reason: string, ghost s0: State, ghost es0: seq<Event>, ghost s1: State)
      returns (ghost es: seq<Event>, ghost s: State)
      requires Reached(s0, es0, s1, tag, msg, Pc.MarkFailed) && TaskOf(s1, tag).reason == reason
      modifies ingest.pg`jobs, ingest.pg`failures, br`messages, br`losses
      ensures Over(s0, es, s, tag) && old(br.losses) <= br.losses && tag in old(br.messages)
      ensures br.messages == if br.losses > old(br.losses) then old(br.messages) else
                old(br.messages)[tag := old(br.messages)[tag].(at := DeadLettered)]
      ensures old(ingest.pg.failures) <= ingest.pg.failures && msg.job in old(ingest.pg.jobs)
      ensures ingest.pg.failures == old(ingest.pg.failures) ==>
                ingest.pg.jobs == old(ingest.pg.jobs)[msg.job := old(ingest.pg.jobs)[msg.job].(
                                                        status := JobStatus.Failed, error := Some(reason))]
    {
      var o := ingest.pg.MarkFailed(msg.job, reason);
      es, s := FollowFailure(ingest.n, s0, es0, s1, tag, msg, o);
      SameWhileRunning(s1, s, br.messages, tag);
      es, s := SettleDelivery(tag, msg, Nack, s0, es, s);
    }

    /** Publish the next attempt; the answer decides between acknowledging and giving up. */
    method PublishRetry(tag: nat, msg: Message, ghost s0: State, ghost es0: seq<Event>, ghost s1: State)
      returns (p: PubOutcome, child: nat, ghost es: seq<Event>, ghost s: State)
      requires Reached(s0, es0, s1, tag, msg, Pc.Retry)
      modifies br
      ensures child !in old(br.messages) && tag in old(br.messages)
      ensures Reached(s0, es, s, tag, msg, if p.Confirmed? then AckRetry else Pc.MarkFailed)
      ensures TaskOf(s, tag).reason == TaskOf(s1, tag).reason
      ensures br.messages == if Accepted(p) then
                old(br.messages)[child := Stored(msg.(attempt := msg.attempt + 1),
                                                 old(br.messages)[tag].origin, false, InQueue)]
              else old(br.messages)
      ensures br.losses == old(br.losses) && br.misses == old(br.misses) + if p.Confirmed? then 0 else 1
    {
      p, child := br.Publish(msg.(attempt := msg.attempt + 1), br.messages[tag].origin, false);
      es, s := FollowRetry(ingest.n, s0, es0, s1, tag, p, child, old(br.messages));
    }

    /** Count the attempt, whether or not the database listens. */
    method CountFailure(tag: nat, msg: Message, ghost s0: State, ghost es0: seq<Event>, ghost s1: State)
      returns (ghost es: seq<Event>, ghost s: State)
      requires Reached(s0, es0, s1, tag, msg, CountAttempt)
      modifies ingest.pg`jobs, ingest.pg`failures
      ensures old(ingest.pg.failures) <= ingest.pg.failures && msg.job in old(ingest.pg.jobs)
      ensures ingest.pg.failures == old(ingest.pg.failures) ==>
                ingest.pg.jobs == old(ingest.pg.jobs)[msg.job := old(ingest.pg.jobs)[msg.job].(
                                                        attempts := old(ingest.pg.jobs)[msg.job].attempts + 1)]
      ensures Reached(s0, es, s, tag, msg, Pc.Retry) && TaskOf(s, tag).reason == TaskOf(s1, tag).reason
    {
      var o := ingest.pg.IncrementAttempts(msg.job);
      es, s := FollowCount(ingest.n, s0, es0, s1, tag, msg, o);
      SameWhileRunning(s1, s, br.messages, tag);
    }

    /** Publish the next attempt; if the broker does not confirm it, fail the job. */
    method RetryOrGiveUp(tag: nat, msg: Message, reason: string, ghost s0: State, ghost es0: seq<Event>,
                         ghost s1: State)
      returns (ghost es: seq<Event>, ghost s: State)
      requires Reached(s0, es0, s1, tag, msg, Pc.Retry) && TaskOf(s1, tag).reason == reason
      modifies ingest.pg`jobs, ingest.pg`failures, br
      ensures Over(s0, es, s, tag) && tag in old(br.messages) && tag in br.messages
      ensures AckJustified(old(br.messages), br.messages, tag, msg)
      ensures old(br.losses) <= br.losses && old(br.misses) <= br.misses
      ensures br.losses == old(br.losses) ==>
                br.messages[tag].at == if br.misses == old(br.misses) then Removed else DeadLettered
      ensures old(ingest.pg.failures) <= ingest.pg.failures && msg.job in old(ingest.pg.jobs)
      ensures ingest.pg.failures == old(ingest.pg.failures) ==>
                ingest.pg.jobs == if br.misses == old(br.misses) then old(ingest.pg.jobs) else
                  old(ingest.pg.jobs)[msg.job := old(ingest.pg.jobs)[msg.job].(
                                        status := JobStatus.Failed, error := Some(reason))]
    {
      var p, child;
      p, child, es, s := PublishRetry(tag, msg, s0, es0, s1);
      ghost var mid := br.messages;
      if p.Confirmed? {
        es, s := SettleDelivery(tag, msg, AckRetry, s0, es, s);
      } else {
        es, s := GiveUp(tag, msg, reason, s0, es, s);
      }
      RetryJustified(old(br.messages), mid, br.messages, tag, msg, p, child);
    }

    /** Back off and publish the next attempt; if the broker does not confirm it, fail the job. The
        message is acknowledged only if its successor is in the queue. */
    method RetryLater(tag: nat, msg: Message, reason: string, ghost s0: State, ghost es0: seq<Event>, ghost s1: State)
      returns (ghost es: seq<Event>, ghost s: State)
      requires Reached(s0, es0, s1, tag, msg, CountAttempt) && TaskOf(s1, tag).reason == reason
      modifies ingest.pg`jobs, ingest.pg`failures, br
      ensures Over(s0, es, s, tag) && tag in old(br.messages) && tag in br.messages
      ensures AckJustified(old(br.messages), br.messages, tag, msg)
      ensures old(br.losses) <= br.losses && old(br.misses) <= br.misses
      ensures br.losses == old(br.losses) ==>
                br.messages[tag].at == if br.misses == old(br.misses) then Removed else DeadLettered
      ensures old(ingest.pg.failures) <= ingest.pg.failures && msg.job in old(ingest.pg.jobs)
      ensures ingest.pg.failures == old(ingest.pg.failures) ==>
                && msg.job in ingest.pg.jobs
                && ingest.pg.jobs[msg.job].attempts == old(ingest.pg.jobs)[msg.job].attempts + 1
                && (br.misses > old(br.misses) ==> FailedFor(ingest.pg.jobs[msg.job], reason))
    {
      es, s := CountFailure(tag, msg, s0, es0, s1);
      es, s := RetryOrGiveUp(tag, msg, reason, s0, es, s);
    }

    /** The error is worth retrying and attempts remain. */
    predicate MayRetryAfter(r: RunResult, msg: Message) {
      r.Error? && r.retryable && msg.attempt + 1 < ingest.n
    }

    /** The two error arms: retry, or fail the job and dead-letter the message. */
    method HandleError(tag: nat, msg: Message, r: RunResult, ghost s0: State, ghost es0: seq<Event>, ghost s1: State)
      returns (ghost es: seq<Event>, ghost s: State)
      requires r.Error?
      requires Reached(s0, es0, s1, tag, msg, if MayRetryAfter(r, msg) then CountAttempt else Pc.MarkFailed)
      requires TaskOf(s1, tag).reason == r.reason
      modifies ingest.pg`jobs, ingest.pg`failures, br
      ensures Over(s0, es, s, tag) && tag in old(br.messages) && tag in br.messages
      ensures br.messages[tag].at == Removed && old(br.messages)[tag].at != Removed ==>
                Succeeded(old(br.messages), br.messages, tag, msg)
      ensures old(br.losses) <= br.losses && old(br.misses) <= br.misses
      ensures br.losses == old(br.losses) ==>
                var retried := MayRetryAfter(r, msg) && br.misses == old(br.misses);
                br.messages[tag].at == if retried then Removed else DeadLettered
      ensures old(ingest.pg.failures) <= ingest.pg.failures && msg.job in old(ingest.pg.jobs)
      ensures ingest.pg.failures == old(ingest.pg.failures) ==>
                && msg.job in ingest.pg.jobs
                && (MayRetryAfter(r, msg) ==>
                      ingest.pg.jobs[msg.job].attempts == old(ingest.pg.jobs)[msg.job].attempts + 1)
                && (!MayRetryAfter(r, msg) || br.misses > old(br.misses) ==>
                      FailedFor(ingest.pg.jobs[msg.job], r.reason))
    {
      if r.retryable && msg.attempt + 1 < ingest.n {
        es, s := RetryLater(tag, msg, r.reason, s0, es0, s1);
      } else {
        es, s := GiveUp(tag, msg, r.reason, s0, es0, s1);
      }
    }

    /** Run the delivered job. */
    method RunDelivery(tag: nat, msg: Message, ghost s0: State)
      returns (r: RunResult, ghost es: seq<Event>, ghost s: State)
      requires Reached(s0, [], s0, tag, msg, Lookup) && TaskOf(s0, tag) == FRESH
      modifies ingest.pg`jobs, ingest.pg`dashboards, ingest.pg`failures, ingest.ch`tables, ingest.ch`failures
      ensures Reached(s0, es, s, tag, msg, if r.Done? then Finished else
                                           if MayRetryAfter(r, msg) then CountAttempt else Pc.MarkFailed)
      ensures JobRan(r, msg, old(ingest.pg.jobs), ingest.pg.jobs, old(ingest.pg.dashboards), ingest.pg.dashboards,
                     old(ingest.ch.tables), ingest.ch.tables, old(ingest.pg.failures), ingest.pg.failures,
                     old(ingest.ch.failures), ingest.ch.failures)
      ensures KeepsAttempts(old(ingest.pg.jobs), ingest.pg.jobs, msg.job)
      ensures r.Done? ==> ingest.pg.jobs[msg.job].status == Ready
      ensures r.Error? ==> TaskOf(s, tag).reason == r.reason
    {
      r, es, s := ingest.RunJob(tag, msg, s0);
      SameWhileRunning(s0, s, br.messages, tag);
    }

    /** Run the delivered job and settle the delivery: acknowledge a success, retry a retryable
        failure while attempts remain, dead-letter everything else. A message leaves the broker
        only when its job is ready or its next attempt is queued. `r` is how the run of the job ended,
        and `mid` the failures recorded by then. */
    method Handle(tag: nat, ghost s0: State)
      returns (ghost r: RunResult, ghost mid: seq<string>, ghost es: seq<Event>, ghost s: State)
      requires Synced(s0) && tag in br.messages && br.messages[tag].at == Unacked
      requires RunningAt(s0, tag) && TaskOf(s0, tag) == FRESH && br.messages[tag].msg.job in ingest.pg.jobs
      modifies ingest.pg`jobs, ingest.pg`dashboards, ingest.pg`failures, ingest.ch`tables, ingest.ch`failures, br
      ensures Over(s0, es, s, tag)
      ensures br.messages[tag].at == Removed ==>
                || (br.messages[tag].msg.job in ingest.pg.jobs &&
                    ingest.pg.jobs[br.messages[tag].msg.job].status == Ready)
                || Succeeded(old(br.messages), br.messages, tag, old(br.messages)[tag].msg)
      ensures mid <= ingest.pg.failures && old(br.losses) <= br.losses && old(br.misses) <= br.misses
      ensures JobRan(r, old(br.messages)[tag].msg, old(ingest.pg.jobs), ingest.pg.jobs,
                     old(ingest.pg.dashboards), ingest.pg.dashboards, old(ingest.ch.tables), ingest.ch.tables,
                     old(ingest.pg.failures), mid, old(ingest.ch.failures), ingest.ch.failures)
      ensures br.losses == old(br.losses) ==>
                var retried := MayRetryAfter(r, old(br.messages)[tag].msg) && br.misses == old(br.misses);
                br.messages[tag].at == if r.Done? || retried then Removed else DeadLettered
      ensures var msg := old(br.messages)[tag].msg;
              r.Error? && ingest.pg.failures == mid ==>
                && msg.job in ingest.pg.jobs
                && (MayRetryAfter(r, msg) ==>
                      ingest.pg.jobs[msg.job].attempts == old(ingest.pg.jobs)[msg.job].attempts + 1)
                && (!MayRetryAfter(r, msg) || br.misses > old(br.misses) ==>
                      FailedFor(ingest.pg.jobs[msg.job], r.reason))
    {
      var msg := br.messages[tag].msg;
      var result;
      result, es, s := RunDelivery(tag, msg, s0);
      r, mid := result, ingest.pg.failures;
      match result
      case Done =>
        es, s := SettleDelivery(tag, msg, Finished, s0, es, s);
      case Error(_, _) =>
        es, s := HandleError(tag, msg, result, s0, es, s);
    }
  }
}
