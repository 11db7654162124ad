// Conservation in the outbox: how many copies of a row's message the relays hand to the broker.

module Outbox {
  import opened Domain
  import opened Protocol
  import opened Safety

  /** The copies of row `r`'s message published by relays. */
  ghost function Roots(copies: map<nat, Copy>, r: nat): set<nat> {
    set c | c in copies && copies[c].root && copies[c].origin == r
  }

  /** The row is stamped in a transaction that has not ended yet. */
  predicate Stamped(s: State, r: nat)
    requires r in s.rows
  {
    && s.rows[r].lock.Some? && s.rows[r].lock.value in s.relays
    && r in s.relays[s.rows[r].lock.value].done && s.relays[s.rows[r].lock.value].done[r]
  }

  /** Each copy is paid for by a committed stamp, a pending one, or a fault that hit the row. */
  ghost predicate Balanced(s: State, r: nat)
    requires r in s.rows
  {
    |Roots(s.copies, r)| == s.rows[r].faults + (if s.rows[r].published || Stamped(s, r) then 1 else 0)
  }

  ghost predicate Conserved(s: State) {
    forall r :: r in s.rows ==> Balanced(s, r)
  }

  lemma RootsAdd(copies: map<nat, Copy>, tag: nat, c: Copy, r: nat)
    requires tag !in copies
    ensures |Roots(copies[tag := c], r)| == |Roots(copies, r)| + (if c.root && c.origin == r then 1 else 0)
  {
    var copies' := copies[tag := c];
    if c.root && c.origin == r {
      assert Roots(copies', r) == Roots(copies, r) + {tag};
    } else {
      assert Roots(copies', r) == Roots(copies, r);
    }
  }

  lemma RootsMove(copies: map<nat, Copy>, tag: nat, p: Place, r: nat)
    requires tag in copies
    ensures Roots(copies[tag := copies[tag].(place := p)], r) == Roots(copies, r)
  {
  }

  lemma SubmitConserved(n: nat, s: State, j: Uuid, u: Uuid, src: Source, r: nat)
    requires CopiesOk(n, s) && Conserved(s) && j !in s.jobs && r !in s.rows
    ensures Conserved(ApplySubmit(s, j, u, src, r))
  {
    var s' := ApplySubmit(s, j, u, src, r);
    forall q | q in s'.rows ensures Balanced(s', q) {
      if q == r {
        assert forall c :: c in s.copies ==> CopyOk(n, s, s.copies[c]);
        assert Roots(s.copies, r) == {};
      } else {
        assert Balanced(s, q);
      }
    }
  }

  lemma ClaimConserved(s: State, k: nat, batch: seq<nat>)
    requires LocksOk(s.rows, s.relays) && Conserved(s) && k !in s.relays && IsClaim(s.rows, batch)
    ensures Conserved(ApplyClaim(s, k, batch))
  {
    var s' := ApplyClaim(s, k, batch);
    forall q | q in s'.rows ensures Balanced(s', q) {
      assert Balanced(s, q);
    }
  }

  lemma PublishConserved(s: State, k: nat, p: PubOutcome, tag: nat)
    requires LocksOk(s.rows, s.relays) && Conserved(s) && Enabled(s, Publish(k, p, tag))
    ensures Conserved(ApplyPublish(s, k, p, tag))
  {
    var s' := ApplyPublish(s, k, p, tag);
    var r := s.relays[k].todo[0];
    assert TxOk(s.rows, k, s.relays[k]) && Holds(s.relays[k], r);
    forall q | q in s'.rows ensures Balanced(s', q) {
      assert Balanced(s, q);
      if Accepted(p) {
        RootsAdd(s.copies, tag, Copy(s.rows[r].msg, r, true, Waiting), q);
      }
    }
  }

  lemma CommitConserved(s: State, k: nat)
    requires LocksOk(s.rows, s.relays) && Conserved(s) && k in s.relays && s.relays[k].todo == []
    ensures Conserved(ApplyCommit(s, k))
  {
    var s' := ApplyCommit(s, k);
    forall q | q in s'.rows ensures Balanced(s', q) {
      assert Balanced(s, q);
      assert TxOk(s.rows, k, s.relays[k]);
      assert Holds(s.relays[k], q) ==> s.rows[q].lock == Some(k);
    }
  }

  lemma RollbackConserved(s: State, k: nat)
    requires LocksOk(s.rows, s.relays) && Conserved(s) && k in s.relays
    ensures Conserved(ApplyRollback(s, k))
  {
    var s' := ApplyRollback(s, k);
    forall q | q in s'.rows ensures Balanced(s', q) {
      assert Balanced(s, q);
      assert TxOk(s.rows, k, s.relays[k]);
      assert Holds(s.relays[k], q) ==> s.rows[q].lock == Some(k);
    }
  }

  /** The outbox, its locks and the relays' copies are as before. */
  lemma SameRootsConserved(s: State, s': State)
    requires Conserved(s) && s'.rows == s.rows && s'.relays == s.relays
    requires forall r :: r in s.rows ==> |Roots(s'.copies, r)| == |Roots(s.copies, r)|
    ensures Conserved(s')
  {
    forall q | q in s'.rows ensures Balanced(s', q) {
      assert Balanced(s, q);
    }
  }

  lemma MoveConserved(s: State, s': State, tag: nat, p: Place)
    requires Conserved(s) && tag in s.copies && s'.rows == s.rows && s'.relays == s.relays
    requires s'.copies == s.copies[tag := s.copies[tag].(place := p)]
    ensures Conserved(s')
  {
    forall r | r in s.rows ensures |Roots(s'.copies, r)| == |Roots(s.copies, r)| {
      RootsMove(s.copies, tag, p, r);
    }
    SameRootsConserved(s, s');
  }

  lemma RepublishConserved(s: State, tag: nat, p: PubOutcome, child: nat)
    requires Conserved(s) && Enabled(s, Republish(tag, p, child))
    ensures Conserved(ApplyRepublish(s, tag, p, child))
  {
    var s' := ApplyRepublish(s, tag, p, child);
    var place := s'.copies[tag].place;
    var copies := s.copies[tag := s.copies[tag].(place := place)];
    forall r | r in s.rows ensures |Roots(s'.copies, r)| == |Roots(s.copies, r)| {
      RootsMove(s.copies, tag, place, r);
      if Accepted(p) {
        RootsAdd(copies, child, s'.copies[child], r);
        assert s'.copies == copies[child := s'.copies[child]];
      } else {
        assert s'.copies == copies;
      }
    }
    SameRootsConserved(s, s');
  }

  lemma WorkConserved(n: nat, s: State, tag: nat, o: Outcome)
    requires Inv(n, s) && Conserved(s) && Enabled(s, Work(tag, o))
    ensures Conserved(ApplyWork(n, s, tag, o))
  {
    var msg := s.copies[tag].msg;
    WorkShape(n, s, tag, o);
    MoveConserved(s, ApplyWork(n, s, tag, o), tag,
                  Running(Continue(n, msg, View(s, msg.job, msg.user), TaskOf(s, tag), o)));
  }

  lemma StepConserved(n: nat, s: State, e: Event)
    requires Inv(n, s) && Conserved(s) && Enabled(s, e)
    ensures Conserved(Apply(n, s, e))
  {
    match e
    case Submit(j, u, src, r) => SubmitConserved(n, s, j, u, src, r);
    case Claim(k, batch) => ClaimConserved(s, k, batch);
    case Publish(k, p, tag) => PublishConserved(s, k, p, tag);
    case Commit(k) => CommitConserved(s, k);
    case Rollback(k) => RollbackConserved(s, k);
    case Work(tag, o) => WorkConserved(n, s, tag, o);
    case Republish(tag, p, child) => RepublishConserved(s, tag, p, child);
    case Deliver(tag) => MoveConserved(s, MoveCopy(s, tag, Running(FRESH)), tag, Running(FRESH));
    case Settle(tag, lost) =>
      MoveConserved(s, ApplySettle(s, tag, lost), tag, ApplySettle(s, tag, lost).copies[tag].place);
    case Crash(tag) => MoveConserved(s, MoveCopy(s, tag, Halted), tag, Halted);
    case Requeue(tag) => MoveConserved(s, MoveCopy(s, tag, Waiting), tag, Waiting);
  }

  lemma {:induction false} RunConserved(n: nat, s: State, es: seq<Event>, t: State)
    requires n >= 1 && Inv(n, s) && Conserved(s) && Run(n, s, es, t)
    ensures Conserved(t)
    decreases |es|
  {
    if es != [] {
      StepInv(n, s, es[0]);
      StepConserved(n, s, es[0]);
      RunConserved(n, Apply(n, s, es[0]), es[1..], t);
    }
  }

  /** At-least-once and no more often than the faults explain: a committed stamp means the broker
      got the message, and every further copy is the work of one fault on that row. */
  lemma PublishedCopies(n: nat, es: seq<Event>, s: State, r: nat)
    requires n >= 1 && Run(n, INIT, es, s) && r in s.rows
    ensures s.rows[r].published ==> |Roots(s.copies, r)| == 1 + s.rows[r].faults
    ensures s.rows[r].faults <= |Roots(s.copies, r)| <= 1 + s.rows[r].faults
    ensures !s.rows[r].published && s.rows[r].lock.None? ==> |Roots(s.copies, r)| == s.rows[r].faults
  {
    InitInv(n);
    RunConserved(n, INIT, es, s);
    assert Balanced(s, r);
  }
}
