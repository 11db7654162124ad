// Refresh-token rotation: sign-ins start lineages, a redemption atomically revokes the presented
// token and owes its lineage a new one, and a logout revokes whatever it is shown. Handlers run
// concurrently and may stop between any two database calls.

module Tokens {
  import opened Domain

  type Token = nat
  type Handler = nat
  type Lineage = nat

  /** A stored token. `lineage` and `redeemed` are history variables. */
  datatype TokenRow = TokenRow(user: Uuid, lineage: Lineage, revoked: bool, expires: nat, redeemed: nat)

  /** A handler that is about to insert a token for `user`. */
  datatype Mint = Mint(user: Uuid, lineage: Lineage)

  datatype State = State(tokens: map<Token, TokenRow>, minting: map<Handler, Mint>, now: nat)

  const INIT: State := State(map[], map[], 0)

  predicate Usable(row: TokenRow, now: nat) {
    !row.revoked && row.expires > now
  }

  datatype Event =
    | SignIn(h: Handler, user: Uuid, lineage: Lineage)
    | Redeem(h: Handler, token: Token)
    | Issue(h: Handler, token: Token, ttl: nat)
    | Abort(h: Handler)
    | Logout(token: Token)
    | Tick(elapsed: nat)

  /** Some token or handler already belongs to the lineage. */
  ghost predicate Used(s: State, l: Lineage) {
    (exists t :: t in s.tokens && s.tokens[t].lineage == l) || (exists h :: h in s.minting && s.minting[h].lineage == l)
  }

  ghost predicate Enabled(s: State, e: Event) {
    match e
    case SignIn(h, user, l) => h !in s.minting && !Used(s, l)
    case Redeem(h, t) => h !in s.minting
    case Issue(h, t, ttl) => h in s.minting && t !in s.tokens
    case Abort(h) => h in s.minting
    case Logout(t) => true
    case Tick(_) => true
  }

  function Revoke(s: State, t: Token, redeemed: nat): State
    requires t in s.tokens
  {
    s.(tokens := s.tokens[t := s.tokens[t].(revoked := true, redeemed := s.tokens[t].redeemed + redeemed)])
  }

  /** The conditional UPDATE: it flips a usable token and owes its lineage a successor. */
  function ApplyRedeem(s: State, h: Handler, t: Token): State {
    if t in s.tokens && Usable(s.tokens[t], s.now) then
      var s1 := Revoke(s, t, 1);
      s1.(minting := s1.minting[h := Mint(s.tokens[t].user, s.tokens[t].lineage)])
    else s
  }

  ghost function Apply(s: State, e: Event): State
    requires Enabled(s, e)
  {
    match e
    case SignIn(h, user, l) => s.(minting := s.minting[h := Mint(user, l)])
    case Redeem(h, t) => ApplyRedeem(s, h, t)
    case Issue(h, t, ttl) =>
      s.(tokens := s.tokens[t := TokenRow(s.minting[h].user, s.minting[h].lineage, false, s.now + ttl, 0)],
         minting := s.minting - {h})
    case Abort(h) => s.(minting := s.minting - {h})
    case Logout(t) => if t in s.tokens then Revoke(s, t, 0) else s
    case Tick(d) => s.(now := s.now + d)
  }

  ghost predicate Run(s: State, es: seq<Event>, t: State)
    decreases |es|
  {
    if es == [] then s == t else Enabled(s, es[0]) && Run(Apply(s, es[0]), es[1..], t)
  }

  // ---------------------------------------------------------------- the lineage invariant

  predicate Live(s: State, t: Token) {
    t in s.tokens && !s.tokens[t].revoked
  }

  /** One live or being-minted token per lineage. */
  ghost predicate Single(s: State) {
    && (forall t, u :: Live(s, t) && Live(s, u) && s.tokens[t].lineage == s.tokens[u].lineage ==> t == u)
    && (forall h, g :: h in s.minting && g in s.minting && s.minting[h].lineage == s.minting[g].lineage ==> h == g)
    && (forall t, h :: Live(s, t) && h in s.minting ==> s.tokens[t].lineage != s.minting[h].lineage)
  }

  /** One user per lineage. */
  ghost predicate OneUser(s: State) {
    && (forall t, u :: t in s.tokens && u in s.tokens && s.tokens[t].lineage == s.tokens[u].lineage ==>
          s.tokens[t].user == s.tokens[u].user)
    && (forall t, h :: t in s.tokens && h in s.minting && s.tokens[t].lineage == s.minting[h].lineage ==>
          s.tokens[t].user == s.minting[h].user)
  }

  /** A redeemed token is spent. */
  ghost predicate SpentOnce(s: State) {
    forall t :: t in s.tokens ==> s.tokens[t].redeemed <= (if s.tokens[t].revoked then 1 else 0)
  }

  ghost predicate Inv(s: State) {
    Single(s) && OneUser(s) && SpentOnce(s)
  }

  lemma StepSingle(s: State, e: Event)
    requires Single(s) && Enabled(s, e)
    ensures Single(Apply(s, e))
  {
    var s' := Apply(s, e);
    assert forall t :: Live(s', t) && !Live(s, t) ==> e.Issue? && t == e.token;
    if e.SignIn? {
      assert forall t :: t in s.tokens ==> s.tokens[t].lineage != e.lineage by {
        assert !Used(s, e.lineage);
      }
      assert forall h :: h in s.minting ==> s.minting[h].lineage != e.lineage by {
        assert !Used(s, e.lineage);
      }
    } else if e.Redeem? && s' != s {
      assert Live(s, e.token);
    }
  }

  lemma StepOneUser(s: State, e: Event)
    requires Single(s) && OneUser(s) && Enabled(s, e)
    ensures OneUser(Apply(s, e))
  {
    if e.SignIn? {
      assert forall t :: t in s.tokens ==> s.tokens[t].lineage != e.lineage by {
        assert !Used(s, e.lineage);
      }
    }
  }

  lemma StepInv(s: State, e: Event)
    requires Inv(s) && Enabled(s, e)
    ensures Inv(Apply(s, e))
  {
    StepSingle(s, e);
    StepOneUser(s, e);
  }

  lemma {:induction false} RunInv(s: State, es: seq<Event>, t: State)
    requires Inv(s) && Run(s, es, t)
    ensures Inv(t)
    decreases |es|
  {
    if es != [] {
      StepInv(s, es[0]);
      RunInv(Apply(s, es[0]), es[1..], t);
    }
  }

  // ---------------------------------------------------------------- main results

  /** Whatever is live or being minted in a lineage. */
  datatype Slot = Stored(token: Token) | Pending(handler: Handler)

  ghost predicate Occupies(s: State, l: Lineage, x: Slot) {
    match x
    case Stored(t) => Live(s, t) && s.tokens[t].lineage == l
    case Pending(h) => h in s.minting && s.minting[h].lineage == l
  }

  /** Under any interleaving, a lineage has at most one live-or-being-minted token, each of its
      tokens is redeemed at most once, and all of them belong to one user. */
  lemma LineageSafe(es: seq<Event>, s: State, l: Lineage)
    requires Run(INIT, es, s)
    ensures forall x, y :: Occupies(s, l, x) && Occupies(s, l, y) ==> x == y
    ensures forall t :: t in s.tokens ==> s.tokens[t].redeemed <= 1
    ensures forall t, u :: t in s.tokens && u in s.tokens && s.tokens[t].lineage == l == s.tokens[u].lineage ==>
              s.tokens[t].user == s.tokens[u].user
  {
    RunInv(INIT, es, s);
  }

  /** The lineage is over: no live token, and none on its way. */
  ghost predicate Ended(s: State, l: Lineage) {
    Used(s, l) && forall x :: !Occupies(s, l, x)
  }

  lemma StepEnded(s: State, e: Event, l: Lineage)
    requires Ended(s, l) && (exists t :: t in s.tokens && s.tokens[t].lineage == l) && Enabled(s, e)
    ensures Ended(Apply(s, e), l) && exists t :: t in Apply(s, e).tokens && Apply(s, e).tokens[t].lineage == l
  {
    var s' := Apply(s, e);
    var t :| t in s.tokens && s.tokens[t].lineage == l;
    assert t in s'.tokens && s'.tokens[t].lineage == l;
    if e.Issue? {
      assert !Occupies(s, l, Pending(e.h));
    } else if e.Redeem? {
      assert !Occupies(s, l, Stored(e.token));
    }
    forall x ensures !Occupies(s', l, x) {
      assert !Occupies(s, l, x);
    }
  }

  lemma {:induction false} EndedForever(s: State, es: seq<Event>, s': State, l: Lineage)
    requires Ended(s, l) && (exists t :: t in s.tokens && s.tokens[t].lineage == l) && Run(s, es, s')
    ensures Ended(s', l)
    decreases |es|
  {
    if es != [] {
      StepEnded(s, es[0], l);
      EndedForever(Apply(s, es[0]), es[1..], s', l);
    }
  }

  /** A logout ends the lineage of the token it is shown exactly if that token was still live or the
      lineage was over already; shown a token that a refresh in progress has just taken, it does not. */
  lemma LogoutEndsIff(es: seq<Event>, s: State, t: Token)
    requires Run(INIT, es, s) && t in s.tokens
    ensures var l := s.tokens[t].lineage;
            Ended(Apply(s, Logout(t)), l) <==> Live(s, t) || Ended(s, l)
  {
    RunInv(INIT, es, s);
    var l := s.tokens[t].lineage;
    var s' := Apply(s, Logout(t));
    assert t in s'.tokens && s'.tokens[t].lineage == l;
    if Live(s, t) {
      assert Occupies(s, l, Stored(t));
      forall x ensures !Occupies(s', l, x) {
        assert x != Stored(t) ==> !Occupies(s, l, x);
      }
    } else {
      assert s'.tokens[t] == s.tokens[t];
      assert s' == s;
    }
  }

  /** Such a logout holds for the rest of the run, against refreshes already in progress too. */
  lemma LogoutIsFinal(es: seq<Event>, s: State, t: Token, later: seq<Event>, s': State)
    requires Run(INIT, es, s) && Live(s, t) && Run(Apply(s, Logout(t)), later, s')
    ensures Ended(s', s.tokens[t].lineage)
  {
    LogoutEndsIff(es, s, t);
    var s1 := Apply(s, Logout(t));
    assert t in s1.tokens && s1.tokens[t].lineage == s.tokens[t].lineage;
    EndedForever(s1, later, s', s.tokens[t].lineage);
  }

  /** The logout that comes too late: the lineage lives on. */
  lemma LateLogout() returns (es: seq<Event>, s: State, t: Token)
    ensures Run(INIT, es, s) && t in s.tokens
    ensures !Ended(Apply(s, Logout(t)), s.tokens[t].lineage)
  {
    t := 0;
    var e1, e2, e3 := SignIn(0, 0, 0), Issue(0, 0, 10), Redeem(1, 0);
    var s1 := Apply(INIT, e1);
    var s2 := Apply(s1, e2);
    s := Apply(s2, e3);
    es := [e1, e2, e3];
    assert es[1..] == [e2, e3] && es[2..] == [e3];
    assert Run(s2, [e3], s);
    assert Run(s1, [e2, e3], s) by {
      assert [e2, e3][1..] == [e3];
    }
    assert Occupies(Apply(s, Logout(t)), 0, Pending(1));
  }

  /** Time only runs forward and revocation is for good: unusable stays unusable. */
  lemma {:induction false} UnusableForever(s: State, es: seq<Event>, s': State, t: Token)
    requires Run(s, es, s') && t in s.tokens && !Usable(s.tokens[t], s.now)
    ensures t in s'.tokens && !Usable(s'.tokens[t], s'.now)
    decreases |es|
  {
    if es != [] {
      UnusableForever(Apply(s, es[0]), es[1..], s', t);
    }
  }
}
