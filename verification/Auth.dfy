// The sign-in, refresh and logout handlers on the stored tokens. Each is proved to be a run of the
// token protocol in which only its own handler moves.

module Auth {
  import opened Domain
  import opened Tokens

  /** The columns of a stored token. */
  datatype TokenColumns = TokenColumns(user: Uuid, revoked: bool, expires: nat)

  /** How a database call ended; a failed one may have taken effect. */
  datatype Db = Fine | Failed(applied: bool)

  predicate Took(o: Db) {
    o.Fine? || o.applied
  }

  datatype Reply = Issued(token: Token) | Unauthorized | Internal

  function ColumnsOf(row: TokenRow): TokenColumns {
    TokenColumns(row.user, row.revoked, row.expires)
  }

  ghost predicate SameTokens(s: State, rows: map<Token, TokenColumns>, now: nat) {
    s.now == now && s.tokens.Keys == rows.Keys && forall t :: t in rows ==> rows[t] == ColumnsOf(s.tokens[t])
  }

  predicate IsUsable(rows: map<Token, TokenColumns>, now: nat, t: Token) {
    t in rows && !rows[t].revoked && rows[t].expires > now
  }

  lemma {:induction false} RunSnoc(s: State, es: seq<Event>, m: State, e: Event)
    requires Run(s, es, m) && Enabled(m, e)
    ensures Run(s, es + [e], Apply(m, e))
    decreases |es|
  {
    if es == [] {
      assert es + [e] == [e] && [e][1..] == [];
    } else {
      RunSnoc(Apply(s, es[0]), es[1..], m, e);
      assert (es + [e])[0] == es[0] && (es + [e])[1..] == es[1..] + [e];
    }
  }

  class AuthState {
    var rows: map<Token, TokenColumns>
    var now: nat
    var next: nat
    const ttl: nat
    /** How many database calls have failed. */
    ghost var failures: nat

    ghost predicate Valid()
      reads this
    {
      forall t :: t in rows ==> t < next
    }

    constructor (ttl: nat)
      ensures Valid() && rows == map[] && this.ttl == ttl && failures == 0
    {
      rows, now, next, this.ttl, failures := map[], 0, 0, ttl, 0;
    }

    /** `UPDATE … SET revoked = true WHERE … AND revoked = false AND expires_at > now() RETURNING user_id`. */
    method RevokeUsable(t: Token) returns (o: Db, owner: Option<Uuid>)
      modifies this`rows, this`failures
      ensures failures == old(failures) + if o.Fine? then 0 else 1
      ensures rows == if Took(o) && IsUsable(old(rows), now, t)
                      then old(rows)[t := old(rows)[t].(revoked := true)]
                      else old(rows)
      ensures o.Fine? ==> owner == if IsUsable(old(rows), now, t) then Some(old(rows)[t].user) else None
    {
      o := *;
      failures := failures + if o.Fine? then 0 else 1;
      owner := if IsUsable(rows, now, t) then Some(rows[t].user) else None;
      if Took(o) && owner.Some? {
        rows := rows[t := rows[t].(revoked := true)];
      }
    }

    /** `UPDATE … SET revoked = true WHERE token_hash = $1`. */
    method RevokeAny(t: Token) returns (o: Db)
      modifies this`rows, this`failures
      ensures failures == old(failures) + if o.Fine? then 0 else 1
      ensures rows == if Took(o) && t in old(rows) then old(rows)[t := old(rows)[t].(revoked := true)] else old(rows)
    {
      o := *;
      failures := failures + if o.Fine? then 0 else 1;
      if Took(o) && t in rows {
        rows := rows[t := rows[t].(revoked := true)];
      }
    }

    /** A new random token, stored for the user. */
    method InsertToken(user: Uuid) returns (o: Db, t: Token)
      requires Valid()
      modifies this`rows, this`next, this`failures
      ensures failures == old(failures) + if o.Fine? then 0 else 1
      ensures Valid() && t !in old(rows)
      ensures rows == if Took(o) then old(rows)[t := TokenColumns(user, false, now + ttl)] else old(rows)
    {
      o, t := *, next;
      failures := failures + if o.Fine? then 0 else 1;
      next := next + 1;
      if Took(o) {
        rows := rows[t := TokenColumns(user, false, now + ttl)];
      }
    }

    method FindUser() returns (o: Db)
      modifies this`failures
      ensures failures == old(failures) + if o.Fine? then 0 else 1
    {
      o := *;
      failures := failures + if o.Fine? then 0 else 1;
    }

    /** `es` leads from `s0` to `s` and the database holds what `s` says. */
    ghost predicate Reached(s0: State, es: seq<Event>, s: State)
      reads this
    {
      Valid() && Run(s0, es, s) && SameTokens(s, rows, now)
    }

    /** Store a token for the user and lineage the handler owes one to. A token may be stored without
        the client learning of it; none is ever handed out without being stored. */
    method IssueTokens(h: Handler, user: Uuid, ghost s0: State, ghost es0: seq<Event>, ghost s1: State)
      returns (r: Reply, ghost es: seq<Event>, ghost s: State)
      requires Reached(s0, es0, s1) && h in s1.minting && s1.minting[h].user == user
      modifies this`rows, this`next, this`failures
      ensures Reached(s0, es, s) && s.minting == s1.minting - {h} && !r.Unauthorized?
      ensures old(failures) <= failures && (r.Issued? <==> failures == old(failures))
      ensures r.Issued? ==> r.token !in old(rows) && rows == old(rows)[r.token := TokenColumns(user, false, now + ttl)]
      ensures r.Issued? ==> r.token in s.tokens && s.tokens[r.token].lineage == s1.minting[h].lineage
      ensures r.Internal? ==> rows == old(rows) ||
                              exists t: Token :: t !in old(rows)
                                  && rows == old(rows)[t := TokenColumns(user, false, now + ttl)]
    {
      var o, t := InsertToken(user);
      ghost var e := if Took(o) then Issue(h, t, ttl) else Abort(h);
      RunSnoc(s0, es0, s1, e);
      es, s := es0 + [e], Apply(s1, e);
      r := if o.Fine? then Issued(t) else Internal;
    }

    /** Register and login, once the user is known: a new lineage begins. */
    method SignInUser(h: Handler, user: Uuid, lineage: Lineage, ghost s0: State)
      returns (r: Reply, ghost es: seq<Event>, ghost s: State)
      requires Reached(s0, [], s0) && Enabled(s0, SignIn(h, user, lineage))
      modifies this`rows, this`next, this`failures
      ensures Reached(s0, es, s) && s.minting == s0.minting && !r.Unauthorized?
      ensures old(failures) <= failures && (r.Issued? <==> failures == old(failures))
      ensures r.Issued? ==> r.token !in old(rows) && rows == old(rows)[r.token := TokenColumns(user, false, now + ttl)]
      ensures r.Issued? ==> r.token in s.tokens && s.tokens[r.token].lineage == lineage
    {
      RunSnoc(s0, [], s0, SignIn(h, user, lineage));
      ghost var s1 := Apply(s0, SignIn(h, user, lineage));
      r, es, s := IssueTokens(h, user, s0, [] + [SignIn(h, user, lineage)], s1);
    }

    /** The conditional UPDATE as a step of the protocol: it owes the lineage of a usable token a successor. */
    method Spend(h: Handler, token: Token, ghost s0: State)
      returns (o: Db, owner: Option<Uuid>, ghost es: seq<Event>, ghost s: State)
      requires Reached(s0, [], s0) && h !in s0.minting
      modifies this`rows, this`failures
      ensures Reached(s0, es, s)
      ensures failures == old(failures) + if o.Fine? then 0 else 1
      ensures o.Fine? ==> owner == if IsUsable(old(rows), now, token) then Some(old(rows)[token].user) else None
      ensures if Took(o) && IsUsable(old(rows), now, token) then
                && token in s0.tokens && rows == old(rows)[token := old(rows)[token].(revoked := true)]
                && s.minting == s0.minting[h := Mint(old(rows)[token].user, s0.tokens[token].lineage)]
              else rows == old(rows) && s.minting == s0.minting
    {
      es, s := [], s0;
      o, owner := RevokeUsable(token);
      if Took(o) {
        RunSnoc(s0, es, s, Redeem(h, token));
        es, s := es + [Redeem(h, token)], Apply(s0, Redeem(h, token));
      }
    }

    /** Look the owner up and issue the successor. */
    method IssueFor(h: Handler, user: Uuid, ghost s0: State, ghost es0: seq<Event>, ghost s1: State)
      returns (r: Reply, ghost es: seq<Event>, ghost s: State)
      requires Reached(s0, es0, s1) && h in s1.minting && s1.minting[h].user == user
      modifies this`rows, this`next, this`failures
      ensures Reached(s0, es, s) && s.minting == s1.minting - {h} && !r.Unauthorized?
      ensures old(failures) <= failures && (r.Issued? <==> failures == old(failures))
      ensures forall t :: t in old(rows) ==> t in rows && rows[t] == old(rows)[t]
      ensures r.Issued? ==> r.token !in old(rows) && rows == old(rows)[r.token := TokenColumns(user, false, now + ttl)]
      ensures r.Issued? ==> r.token in s.tokens && s.tokens[r.token].lineage == s1.minting[h].lineage
    {
      var found := FindUser();
      if found.Failed? {
        es, s := GiveUp(h, s0, es0, s1);
        return Internal, es, s;
      }
      r, es, s := IssueTokens(h, user, s0, es0, s1);
    }

    /** Spend the token if it is usable, and hand out its successor. */
    method Rotate(h: Handler, token: Token, ghost s0: State) returns (r: Reply, ghost es: seq<Event>, ghost s: State)
      requires Reached(s0, [], s0) && h !in s0.minting
      modifies this`rows, this`next, this`failures
      ensures Reached(s0, es, s) && s.minting == s0.minting
      ensures forall t :: t in old(rows) && t != token ==> t in rows && rows[t] == old(rows)[t]
      ensures old(failures) <= failures && (r.Internal? <==> failures > old(failures))
      ensures !IsUsable(old(rows), now, token) ==> rows == old(rows) && !r.Issued?
      ensures IsUsable(old(rows), now, token) ==> token in s0.tokens && !r.Unauthorized?
      ensures IsUsable(old(rows), now, token) && r.Issued? ==>
                && r.token !in old(rows)
                && rows == old(rows)[token := old(rows)[token].(revoked := true)]
                            [r.token := TokenColumns(old(rows)[token].user, false, now + ttl)]
                && r.token in s.tokens && s.tokens[r.token].lineage == s0.tokens[token].lineage
    {
      var o, owner;
      o, owner, es, s := Spend(h, token, s0);
      if o.Failed? {
        es, s := GiveUp(h, s0, es, s);
        return Internal, es, s;
      }
      if owner.None? {
        return Unauthorized, es, s;
      }
      r, es, s := IssueFor(h, owner.value, s0, es, s);
    }

    /** Rotate: spend the presented token and hand out its successor in the same lineage, for the same
        user. Only a usable token is spent; an unusable one changes nothing and is refused. Unless a
        database call fails, a usable token always gets its successor. */
    method Refresh(h: Handler, body: Option<Token>, cookie: Option<Token>, ghost s0: State)
      returns (r: Reply, ghost es: seq<Event>, ghost s: State)
      requires Reached(s0, [], s0) && h !in s0.minting
      modifies this`rows, this`next, this`failures
      ensures Reached(s0, es, s) && s.minting == s0.minting
      ensures forall t :: t in old(rows) && Some(t) != (if body.Some? then body else cookie) ==>
                t in rows && rows[t] == old(rows)[t]
      ensures old(failures) <= failures && (r.Internal? <==> failures > old(failures))
      ensures var presented := if body.Some? then body else cookie;
              failures == old(failures) ==>
                && r.Issued? == (presented.Some? && IsUsable(old(rows), now, presented.value))
                && r.Unauthorized? == !r.Issued?
      ensures var presented := if body.Some? then body else cookie;
              if presented.None? || !IsUsable(old(rows), now, presented.value) then
                rows == old(rows) && !r.Issued? && (presented.None? ==> r.Unauthorized?)
              else
                !r.Unauthorized? &&
                (r.Issued? ==>
                  var spent := old(rows)[presented.value];
                  && r.token !in old(rows)
                  && rows == old(rows)[presented.value := spent.(revoked := true)]
                              [r.token := TokenColumns(spent.user, false, now + ttl)]
                  && presented.value in s0.tokens && r.token in s.tokens
                  && s.tokens[r.token].lineage == s0.tokens[presented.value].lineage)
    {
      es, s := [], s0;
      var presented := if body.Some? then body else cookie;
      if presented.None? {
        return Unauthorized, es, s;
      }
      r, es, s := Rotate(h, presented.value, s0);
    }

    /** The handler stops; what it owed is never stored. */
    ghost method GiveUp(h: Handler, s0: State, es0: seq<Event>, s1: State) returns (es: seq<Event>, s: State)
      requires Reached(s0, es0, s1)
      ensures Reached(s0, es, s) && s.minting == s1.minting - {h}
    {
      es, s := es0, s1;
      if h in s1.minting {
        RunSnoc(s0, es0, s1, Abort(h));
        es, s := es0 + [Abort(h)], Apply(s1, Abort(h));
      }
    }

    /** Logging out always succeeds. Unless the database call fails, the presented token is revoked;
        nothing else ever changes. */
    method SignOut(body: Option<Token>, cookie: Option<Token>, ghost s0: State)
      returns (cookieAfter: Option<Token>, ghost es: seq<Event>, ghost s: State)
      requires Reached(s0, [], s0)
      modifies this`rows, this`failures
      ensures Reached(s0, es, s) && s.minting == s0.minting && cookieAfter == None
      ensures var presented := if body.Some? then body else cookie;
              failures == old(failures) && presented.Some? && presented.value in old(rows) ==>
                presented.value in rows && rows[presented.value].revoked
      ensures var presented := if body.Some? then body else cookie;
              if presented.Some? && es != [] then
                es == [Logout(presented.value)] && !IsUsable(rows, now, presented.value)
                && rows.Keys == old(rows).Keys
                && forall t :: t in rows && t != presented.value ==> rows[t] == old(rows)[t]
              else rows == old(rows)
    {
      es, s := [], s0;
      var presented := if body.Some? then body else cookie;
      if presented.Some? {
        var o := RevokeAny(presented.value);
        if Took(o) {
          RunSnoc(s0, [], s0, Logout(presented.value));
          es, s := [] + [Logout(presented.value)], Apply(s0, Logout(presented.value));
        }
      }
      cookieAfter := None;
    }
  }
}
