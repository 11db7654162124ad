// The browser client composed with the token server: any number of API calls, one shared refresh.

module Session {
  import opened Domain
  import Tokens

  // ---------------------------------------------------------------- the client

  /** Where the shared refresh is: its request is on the way with the cookie it was sent with, its
      handler has spent that token, the new token is stored, or the server has refused. */
  datatype Phase =
    Sent(token: Option<Tokens.Token>) | Owed(h: Tokens.Handler) | Minted(successor: Tokens.Token) | Denied

  /** An `api` call: its first request, waiting for the refresh, its replay, or finished. */
  datatype Stage = First | Waiting | Again | Over
  datatype Call = Call(stage: Stage, requests: nat)

  datatype Client = Client(cookie: Option<Tokens.Token>, inFlight: Option<Phase>, calls: map<nat, Call>, refused: nat)

  /** The refresh has settled: the waiting calls replay, or give up. */
  function Resume(calls: map<nat, Call>, ok: bool): map<nat, Call> {
    map c | c in calls :: if calls[c].stage != Waiting then calls[c]
                          else if ok then Call(Again, calls[c].requests + 1) else Call(Over, calls[c].requests)
  }

  function Begun(c: Client, call: nat): Client {
    c.(calls := c.calls[call := Call(First, 1)])
  }

  /** A response to the call; a first 401 joins the refresh in flight or starts one. */
  function Answered(c: Client, call: nat, unauthorized: bool): Client
    requires call in c.calls
  {
    if c.calls[call].stage.First? && unauthorized then
      c.(calls := c.calls[call := c.calls[call].(stage := Waiting)],
         inFlight := if c.inFlight.None? then Some(Sent(c.cookie)) else c.inFlight)
    else c.(calls := c.calls[call := c.calls[call].(stage := Over)])
  }

  function Rotated(c: Client, t: Tokens.Token): Client {
    c.(cookie := Some(t), inFlight := None, calls := Resume(c.calls, true))
  }

  function Unrefreshed(c: Client, refused: nat): Client {
    c.(inFlight := None, calls := Resume(c.calls, false), refused := c.refused + refused)
  }

  // ---------------------------------------------------------------- client and server

  /** `strays` are the tokens of refresh requests the client has given up on and that may still arrive. */
  datatype State = State(server: Tokens.State, client: Client, strays: set<Tokens.Token>)

  datatype Event =
    | Env(e: Tokens.Event)
    | Begin(call: nat)
    | Answer(call: nat, unauthorized: bool)
    | Reach(h: Tokens.Handler)
    | Issue(token: Tokens.Token, ttl: nat)
    | Arrive
    | Refuse
    | Lose
    | Late(h: Tokens.Handler, stray: Tokens.Token)

  /** A request that had not reached the server when the client gave up may still do so. */
  function Abandoned(p: Phase): set<Tokens.Token> {
    if p.Sent? && p.token.Some? then {p.token.value} else {}
  }

  predicate InPhase(s: State, e: Event) {
    s.client.inFlight.Some? &&
    match e
    case Reach(_) => s.client.inFlight.value.Sent?
    case Issue(_, _) => s.client.inFlight.value.Owed?
    case Arrive => s.client.inFlight.value.Minted?
    case Refuse => s.client.inFlight.value.Denied?
    case _ => true
  }

  ghost predicate Enabled(s: State, e: Event) {
    match e
    case Env(e) => Tokens.Enabled(s.server, e)
    case Begin(call) => call !in s.client.calls
    case Answer(call, _) => call in s.client.calls && s.client.calls[call].stage in {First, Again}
    case Reach(h) => InPhase(s, e) && h !in s.server.minting
    case Issue(t, ttl) => InPhase(s, e) && Tokens.Enabled(s.server, Tokens.Issue(s.client.inFlight.value.h, t, ttl))
    case Arrive => InPhase(s, e)
    case Refuse => InPhase(s, e)
    case Lose => InPhase(s, e)
    case Late(h, t) => t in s.strays && h !in s.server.minting
  }

  predicate Accepts(s: State) {
    InPhase(s, Reach(0)) && s.client.inFlight.value.token.Some? &&
    var t := s.client.inFlight.value.token.value;
    t in s.server.tokens && Tokens.Usable(s.server.tokens[t], s.server.now)
  }

  ghost function Apply(s: State, e: Event): State
    requires Enabled(s, e)
  {
    var c := s.client;
    match e
    case Env(e) => s.(server := Tokens.Apply(s.server, e))
    case Begin(call) => s.(client := Begun(c, call))
    case Answer(call, unauthorized) => s.(client := Answered(c, call, unauthorized))
    case Reach(h) =>
      if Accepts(s) then
        s.(server := Tokens.ApplyRedeem(s.server, h, c.inFlight.value.token.value),
           client := c.(inFlight := Some(Owed(h))))
      else s.(client := c.(inFlight := Some(Denied)))
    case Issue(t, ttl) =>
      s.(server := Tokens.Apply(s.server, Tokens.Issue(c.inFlight.value.h, t, ttl)),
         client := c.(inFlight := Some(Minted(t))))
    case Arrive => s.(client := Rotated(c, c.inFlight.value.successor))
    case Refuse => s.(client := Unrefreshed(c, 1))
    case Lose => s.(client := Unrefreshed(c, 0), strays := s.strays + Abandoned(c.inFlight.value))
    case Late(h, t) => s.(server := Tokens.ApplyRedeem(s.server, h, t))
  }

  ghost predicate Run(s: State, es: seq<Event>, t: State)
    decreases |es|
  {
    if es == [] then s == t else Enabled(s, es[0]) && Run(Apply(s, es[0]), es[1..], t)
  }

  // ---------------------------------------------------------------- a healthy session

  /** Nobody else uses the lineage or the refresh handler, and no token of the lineage expires. */
  ghost predicate Foreign(s: State, e: Tokens.Event, l: Tokens.Lineage) {
    match e
    case SignIn(_, _, _) => true
    case Redeem(_, t) => t in s.server.tokens ==> s.server.tokens[t].lineage != l
    case Issue(h, _, _) => s.client.inFlight != Some(Owed(h))
    case Abort(h) => s.client.inFlight != Some(Owed(h))
    case Logout(t) => t in s.server.tokens ==> s.server.tokens[t].lineage != l
    case Tick(d) => forall t :: Keeps(s.server, t, l) ==> s.server.tokens[t].expires > s.server.now + d
  }

  /** The rest of the world is foreign; answers may be lost, and abandoned requests arrive late. */
  ghost predicate Undisturbed(s: State, e: Event, l: Tokens.Lineage) {
    match e
    case Env(e) => Foreign(s, e, l)
    case Issue(_, ttl) => ttl > 0
    case _ => true
  }

  ghost predicate CalmRun(s: State, es: seq<Event>, t: State, l: Tokens.Lineage)
    decreases |es|
  {
    if es == [] then s == t
    else Enabled(s, es[0]) && Undisturbed(s, es[0], l) && CalmRun(Apply(s, es[0]), es[1..], t, l)
  }

  /** The answer to a request the server has acted on is lost, or a request the client has given up
      on arrives after all while its token is still usable. */
  predicate Harmful(s: State, e: Event) {
    match e
    case Lose => s.client.inFlight.Some? && (s.client.inFlight.value.Owed? || s.client.inFlight.value.Minted?)
    case Late(_, t) => t in s.server.tokens && Tokens.Usable(s.server.tokens[t], s.server.now)
    case _ => false
  }

  ghost predicate Unharmed(s: State, es: seq<Event>, t: State, l: Tokens.Lineage)
    requires CalmRun(s, es, t, l)
    decreases |es|
  {
    es != [] ==> !Harmful(s, es[0]) && Unharmed(Apply(s, es[0]), es[1..], t, l)
  }

  /** A usable token of the lineage. */
  predicate Keeps(server: Tokens.State, t: Tokens.Token, l: Tokens.Lineage) {
    t in server.tokens && server.tokens[t].lineage == l && Tokens.Usable(server.tokens[t], server.now)
  }

  predicate Revoked(server: Tokens.State, t: Tokens.Token) {
    t in server.tokens && server.tokens[t].revoked
  }

  predicate CookieSpent(s: State) {
    s.client.cookie.Some? && Revoked(s.server, s.client.cookie.value)
  }

  predicate CookieKept(s: State, l: Tokens.Lineage) {
    s.client.cookie.Some? && Keeps(s.server, s.client.cookie.value, l)
  }

  predicate Healthy(s: State, l: Tokens.Lineage) {
    && s.client.refused == 0
    && (forall t :: t in s.strays ==> s.client.cookie == Some(t) || Revoked(s.server, t))
    && match s.client.inFlight
       case None => CookieKept(s, l)
       case Some(Sent(t)) => t == s.client.cookie && CookieKept(s, l)
       case Some(Owed(h)) => CookieSpent(s) && h in s.server.minting && s.server.minting[h].lineage == l
       case Some(Minted(t)) => CookieSpent(s) && Keeps(s.server, t, l)
       case Some(Denied) => false
  }

  lemma ForeignKeeps(s: State, e: Tokens.Event, l: Tokens.Lineage, t: Tokens.Token)
    requires Tokens.Enabled(s.server, e) && Foreign(s, e, l) && Keeps(s.server, t, l)
    ensures Keeps(Tokens.Apply(s.server, e), t, l)
  {
  }

  lemma EnvHealthy(s: State, e: Tokens.Event, l: Tokens.Lineage)
    requires Healthy(s, l) && Tokens.Enabled(s.server, e) && Foreign(s, e, l)
    ensures Healthy(s.(server := Tokens.Apply(s.server, e)), l)
  {
    match s.client.inFlight
    case None => ForeignKeeps(s, e, l, s.client.cookie.value);
    case Some(Sent(t)) => ForeignKeeps(s, e, l, s.client.cookie.value);
    case Some(Minted(t)) => ForeignKeeps(s, e, l, t);
    case Some(Owed(h)) =>
  }

  lemma StepHealthy(s: State, e: Event, l: Tokens.Lineage)
    requires Healthy(s, l) && Enabled(s, e) && Undisturbed(s, e, l) && !Harmful(s, e)
    ensures Healthy(Apply(s, e), l)
  {
    if e.Env? {
      EnvHealthy(s, e.e, l);
    }
  }

  /** The session is over: the cookie is spent, and no successor is on its way to the client. */
  predicate Doomed(s: State) {
    CookieSpent(s) &&
    match s.client.inFlight
    case None => true
    case Some(Sent(t)) => t == s.client.cookie
    case Some(Denied) => true
    case _ => false
  }

  lemma StepHarmed(s: State, e: Event, l: Tokens.Lineage)
    requires Healthy(s, l) && Enabled(s, e) && Harmful(s, e)
    ensures Doomed(Apply(s, e))
  {
  }

  lemma StepDoomed(s: State, e: Event)
    requires Doomed(s) && Enabled(s, e)
    ensures Doomed(Apply(s, e))
  {
  }

  lemma {:induction false} RunDoomed(s: State, es: seq<Event>, t: State, l: Tokens.Lineage)
    requires Doomed(s) && CalmRun(s, es, t, l)
    ensures Doomed(t)
    decreases |es|
  {
    if es != [] {
      StepDoomed(s, es[0]);
      RunDoomed(Apply(s, es[0]), es[1..], t, l);
    }
  }

  lemma {:induction false} RunHealthy(s: State, es: seq<Event>, t: State, l: Tokens.Lineage)
    requires Healthy(s, l) && CalmRun(s, es, t, l)
    ensures if Unharmed(s, es, t, l) then Healthy(t, l) else Doomed(t)
    decreases |es|
  {
    if es != [] {
      if Harmful(s, es[0]) {
        StepHarmed(s, es[0], l);
        RunDoomed(Apply(s, es[0]), es[1..], t, l);
      } else {
        StepHealthy(s, es[0], l);
        RunHealthy(Apply(s, es[0]), es[1..], t, l);
      }
    }
  }

  // ---------------------------------------------------------------- main results

  /** A client that has just signed in. */
  predicate SignedIn(s: State, l: Tokens.Lineage) {
    s.client.inFlight.None? && s.client.calls == map[] && s.client.refused == 0 && s.strays == {} && CookieKept(s, l)
  }

  /** However many calls run into a 401 at the same time, no rotation is refused, and whenever none is
      in flight the cookie is a usable token of the client's lineage, unless the answer to a request
      the server had acted on was lost or an abandoned request was redeemed after all. */
  lemma NoRotationRefused(s0: State, es: seq<Event>, s: State, l: Tokens.Lineage)
    requires SignedIn(s0, l) && CalmRun(s0, es, s, l) && Unharmed(s0, es, s, l)
    ensures s.client.refused == 0
    ensures s.client.inFlight.None? ==> s.client.cookie.Some? && Keeps(s.server, s.client.cookie.value, l)
    ensures s.client.inFlight.Some? && s.client.inFlight.value.Sent? ==> Accepts(s)
  {
    RunHealthy(s0, es, s, l);
  }

  /** The session survives a run exactly if neither of the two ever happened in it; otherwise the
      cookie is spent and every refresh that presents it is refused. */
  lemma SessionSurvivesIff(s0: State, es: seq<Event>, s: State, l: Tokens.Lineage)
    requires SignedIn(s0, l) && CalmRun(s0, es, s, l)
    ensures Healthy(s, l) <==> Unharmed(s0, es, s, l)
    ensures !Unharmed(s0, es, s, l) ==> CookieSpent(s) && !Accepts(s)
  {
    RunHealthy(s0, es, s, l);
  }

  predicate CallOk(c: Client, call: Call) {
    match call.stage
    case First => call.requests == 1
    case Waiting => call.requests == 1 && c.inFlight.Some?
    case Again => call.requests == 2
    case Over => call.requests <= 2
  }

  predicate CallsOk(c: Client) {
    forall k :: k in c.calls ==> CallOk(c, c.calls[k])
  }

  lemma {:induction false} RunCalls(s: State, es: seq<Event>, t: State)
    requires CallsOk(s.client) && Run(s, es, t)
    ensures CallsOk(t.client)
    decreases |es|
  {
    if es != [] {
      RunCalls(Apply(s, es[0]), es[1..], t);
    }
  }

  /** In any run at all, refused or lost refreshes included, a call sends at most two requests, and it
      only ever waits for a refresh that is in flight. */
  lemma TwoRequests(s0: State, es: seq<Event>, s: State, call: nat)
    requires s0.client.calls == map[] && Run(s0, es, s) && call in s.client.calls
    ensures s.client.calls[call].requests <= 2
    ensures s.client.calls[call].stage.Waiting? ==> s.client.inFlight.Some?
  {
    RunCalls(s0, es, s);
    assert CallOk(s.client, s.client.calls[call]);
  }

  /** A lost answer, by itself, ends the session exactly if the server had acted on the request; if it
      had not, the request may still arrive, and then it depends on whether the token is usable. */
  lemma LossIsHarmlessIff(s0: State, es: seq<Event>, s: State, l: Tokens.Lineage)
    requires SignedIn(s0, l) && CalmRun(s0, es, s, l) && Unharmed(s0, es, s, l) && s.client.inFlight.Some?
    ensures Healthy(Apply(s, Lose), l) <==> s.client.inFlight.value.Sent?
    ensures s.client.inFlight.value.Sent? ==>
              s.client.cookie.Some? && Harmful(Apply(s, Lose), Late(0, s.client.cookie.value))
  {
    RunHealthy(s0, es, s, l);
  }

  /** A spent cookie is dead for good: whatever the server does later, no refresh with it is accepted. */
  lemma LossIsFinal(s0: State, es: seq<Event>, s: State, l: Tokens.Lineage, later: seq<Tokens.Event>,
                    server: Tokens.State)
    requires SignedIn(s0, l) && CalmRun(s0, es, s, l) && !Unharmed(s0, es, s, l)
    requires Tokens.Run(s.server, later, server)
    ensures s.client.cookie.Some? && !Keeps(server, s.client.cookie.value, l)
    ensures !Accepts(State(server, s.client.(inFlight := Some(Sent(s.client.cookie))), s.strays))
  {
    RunHealthy(s0, es, s, l);
    Tokens.UnusableForever(s.server, later, server, s.client.cookie.value);
  }

  /** Why one flight: of two redemptions of the same token the second is refused. */
  lemma SecondFlightRefused(server: Tokens.State, h1: Tokens.Handler, h2: Tokens.Handler, t: Tokens.Token)
    requires t in server.tokens && Tokens.Usable(server.tokens[t], server.now)
    ensures var once := Tokens.ApplyRedeem(server, h1, t);
            h1 in once.minting && Tokens.ApplyRedeem(once, h2, t) == once
  {
  }

  function ServerEvent(s: State, e: Event): Option<Tokens.Event>
    requires e.Issue? || e.Reach? ==> InPhase(s, e)
  {
    match e
    case Env(e) => Some(e)
    case Issue(t, ttl) => Some(Tokens.Issue(s.client.inFlight.value.h, t, ttl))
    case Late(h, t) => Some(Tokens.Redeem(h, t))
    case Reach(h) => if Accepts(s) then Some(Tokens.Redeem(h, s.client.inFlight.value.token.value)) else None
    case _ => None
  }

  ghost function ServerEvents(s: State, es: seq<Event>, t: State): seq<Tokens.Event>
    requires Run(s, es, t)
    decreases |es|
  {
    if es == [] then []
    else
      (if ServerEvent(s, es[0]).Some? then [ServerEvent(s, es[0]).value] else []) +
      ServerEvents(Apply(s, es[0]), es[1..], t)
  }

  /** What the server sees of a session is a run of the token protocol, so everything proved there
      holds of it. */
  lemma {:induction false} ServerRuns(s: State, es: seq<Event>, t: State)
    requires Run(s, es, t)
    ensures Tokens.Run(s.server, ServerEvents(s, es, t), t.server)
    decreases |es|
  {
    if es != [] {
      var s1 := Apply(s, es[0]);
      var rest := ServerEvents(s1, es[1..], t);
      ServerRuns(s1, es[1..], t);
      var o := ServerEvent(s, es[0]);
      if o.Some? {
        assert Tokens.Enabled(s.server, o.value) && Tokens.Apply(s.server, o.value) == s1.server;
        assert ([o.value] + rest)[1..] == rest;
      } else {
        assert s1.server == s.server && [] + rest == rest;
      }
    }
  }

  // ---------------------------------------------------------------- the client as an object

  class ApiClient {
    var cookie: Option<Tokens.Token>
    var inFlightRefresh: Option<Phase>
    var calls: map<nat, Call>
    var refused: nat

    ghost function Value(): Client
      reads this
    {
      Client(cookie, inFlightRefresh, calls, refused)
    }

    constructor (cookie: Option<Tokens.Token>)
      ensures Value() == Client(cookie, None, map[], 0)
    {
      this.cookie, inFlightRefresh, calls, refused := cookie, None, map[], 0;
    }

    /** Send the first request of a call. */
    method Request(call: nat)
      requires call !in calls
      modifies this`calls
      ensures Value() == Begun(old(Value()), call)
      ensures calls == old(calls)[call := Call(First, 1)]
    {
      calls := calls[call := Call(First, 1)];
    }

    /** Share the refresh in flight, or start one with the cookie of this moment. */
    method Refresh()
      modifies this`inFlightRefresh
      ensures inFlightRefresh == if old(inFlightRefresh).None? then Some(Sent(cookie)) else old(inFlightRefresh)
    {
      if inFlightRefresh.None? {
        inFlightRefresh := Some(Sent(cookie));
      }
    }

    method OnResponse(call: nat, unauthorized: bool)
      requires call in calls
      modifies this`calls, this`inFlightRefresh
      ensures Value() == Answered(old(Value()), call, unauthorized)
      ensures var waits := unauthorized && old(calls)[call].stage == First;
              && calls == old(calls)[call := Call(if waits then Waiting else Over, old(calls)[call].requests)]
              && (inFlightRefresh != old(inFlightRefresh) ==> waits && old(inFlightRefresh) == None)
              && (waits ==> inFlightRefresh.Some?)
              && (waits && old(inFlightRefresh) == None ==> inFlightRefresh == Some(Sent(cookie)))
    {
      if calls[call].stage.First? && unauthorized {
        calls := calls[call := calls[call].(stage := Waiting)];
        Refresh();
      } else {
        calls := calls[call := calls[call].(stage := Over)];
      }
    }

    /** The refresh promise settles: with a new cookie, with a refusal, or with a network error. */
    method OnRefreshed(token: Option<Tokens.Token>, denied: bool)
      requires token.Some? ==> !denied
      modifies this
      ensures inFlightRefresh == None && cookie == (if token.Some? then token else old(cookie))
      ensures calls.Keys == old(calls).Keys
      ensures forall c :: c in calls ==>
                calls[c] == if old(calls)[c].stage != Waiting then old(calls)[c]
                            else if token.Some? then Call(Again, old(calls)[c].requests + 1)
                            else Call(Over, old(calls)[c].requests)
      ensures Value() == if token.Some? then Rotated(old(Value()), token.value)
                         else Unrefreshed(old(Value()), if denied then 1 else 0)
    {
      if token.Some? {
        cookie := token;
      } else if denied {
        refused := refused + 1;
      }
      inFlightRefresh := None;
      calls := Resume(calls, token.Some?);
    }
  }
}
