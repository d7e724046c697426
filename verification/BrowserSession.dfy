/**
 * One browser tab refreshing its session against the refresh-token families. Callers share a
 * single exchange in flight. Responses are not lost, and nobody else presents the tab's cookie;
 * everything else on the server interleaves freely.
 */
module BrowserSession {
  import opened Common
  import opened RefreshTokens

  type Caller = nat

  /** What the api answers: a session (with a new cookie, or none), or an error. */
  datatype Reply = Granted(cookie: Option<Presented>) | Refused(clearsCookie: bool)

  /** The request is on its way; the script has run on it; the response is on its way back. */
  datatype Exchange =
    | Asked(presented: Option<Presented>)
    | Served(token: Presented, outcome: Outcome, owner: Option<UserId>)
    | Answered(reply: Reply)

  /** One `authedFetch`: its first request, waiting for the shared refresh, its only retry, over. */
  datatype Progress = First | Awaiting | Retry | Done

  datatype Tab = Tab(
    cookie: Option<Presented>, signedIn: bool, inFlight: Option<Exchange>, callers: map<Caller, Progress>)

  datatype World = World(server: State, tab: Tab)

  datatype Happening =
    | Fetch(caller: Caller)
    | Respond(caller: Caller, unauthorized: bool)
    | Restore(caller: Caller)
    | TurnAway
    | Serve(next: Secret)
    | Settle(userExists: bool)
    | Break
    | Deliver
    | SignIn(user: UserId, family: FamilyId, secret: Secret)
    | SignOut
    | Elsewhere(event: Event)

  /** The tokens this tab holds anywhere: its cookie, its request under way, its answer under way. */
  function Holds(tab: Tab): set<Presented> {
    (if tab.cookie.Some? then {tab.cookie.value} else {})
    + (match tab.inFlight
       case Some(Asked(Some(p))) => {p}
       case Some(Served(_, Rotated(p), _)) => {p}
       case Some(Answered(Granted(Some(p)))) => {p}
       case _ => {})
  }

  predicate IsAsked(tab: Tab) {
    tab.inFlight.Some? && tab.inFlight.value.Asked?
  }

  predicate IsServed(tab: Tab) {
    tab.inFlight.Some? && tab.inFlight.value.Served?
  }

  ghost predicate Enabled(w: World, h: Happening) {
    match h
    case Fetch(c) => c !in w.tab.callers
    case Respond(c, _) => c in w.tab.callers && (w.tab.callers[c].First? || w.tab.callers[c].Retry?)
    case Restore(c) => c !in w.tab.callers
    case TurnAway => IsAsked(w.tab)
    case Serve(next) => IsAsked(w.tab) && Unused(w.server, next)
    case Settle(_) =>
      && IsServed(w.tab)
      && (w.tab.inFlight.value.outcome.Reused? ==> w.tab.inFlight.value.token.family !in w.server.families)
    case Break => IsServed(w.tab) || (IsAsked(w.tab) && w.tab.inFlight.value.presented.Some?)
    case Deliver => w.tab.inFlight.Some? && w.tab.inFlight.value.Answered?
    case SignIn(u, f, secret) => RefreshTokens.Enabled(w.server, Issue(u, f, secret))
    case SignOut => true
    case Elsewhere(e) =>
      && RefreshTokens.Enabled(w.server, e)
      && (e.Rotate? ==> forall p :: p in Holds(w.tab) ==> p.family != e.presented.family)
  }

  /** `refreshSession`: join the exchange in flight, or start one with the cookie of the moment. */
  function Join(tab: Tab, c: Caller): Tab {
    tab.(inFlight := if tab.inFlight.Some? then tab.inFlight else Some(Asked(tab.cookie)),
         callers := tab.callers[c := Awaiting])
  }

  function Answer(tab: Tab, reply: Reply): Tab {
    tab.(inFlight := Some(Answered(reply)))
  }

  /** The rotation script on the cookie that was sent; without a cookie there is nothing to run. */
  function ServeStep(w: World, next: Secret): World
    requires IsAsked(w.tab) && Unused(w.server, next)
  {
    match w.tab.inFlight.value.presented
    case None => w.(tab := Answer(w.tab, Refused(false)))
    case Some(p) =>
      World(RefreshTokens.Step(w.server, Rotate(p, next)),
            w.tab.(inFlight := Some(Served(p, Verdict(w.server, p, next), OwnerOf(w.server, p.family)))))
  }

  /** After the script: the index entry of a reused family, the user lookup, the revoke of a lost user. */
  function SettledServer(s: State, x: Exchange, userExists: bool): State
    requires x.Served? && (x.outcome.Reused? ==> x.token.family !in s.families)
  {
    match x.outcome
    case Unknown => s
    case Reused =>
      if x.owner.Some? then RefreshTokens.Step(s, Unindex(x.owner.value, x.token.family)) else s
    case _ =>
      if userExists then s
      else RefreshTokens.Step(s, Revoke(x.token.family, OwnerOf(s, x.token.family)))
  }

  /** A session for a user that exists, with a cookie only if the token was rotated. */
  function SettledReply(outcome: Outcome, userExists: bool): Reply {
    match outcome
    case Rotated(issued) => if userExists then Granted(Some(issued)) else Refused(true)
    case Concurrent => if userExists then Granted(None) else Refused(true)
    case _ => Refused(true)
  }

  function Next(w: World, h: Happening): World
    requires Enabled(w, h)
  {
    var tab := w.tab;
    match h
    case Fetch(c) => w.(tab := tab.(callers := tab.callers[c := First]))
    case Respond(c, unauthorized) =>
      if unauthorized && tab.callers[c].First? && tab.signedIn then w.(tab := Join(tab, c))
      else w.(tab := tab.(callers := tab.callers[c := Done]))
    case Restore(c) => w.(tab := Join(tab, c))
    case TurnAway => w.(tab := Answer(tab, Refused(false)))
    case Serve(next) => ServeStep(w, next)
    case Settle(userExists) =>
      var x := tab.inFlight.value;
      World(SettledServer(w.server, x, userExists), Answer(tab, SettledReply(x.outcome, userExists)))
    case Break => w.(tab := Answer(tab, Refused(true)))
    case Deliver =>
      var reply := tab.inFlight.value.reply;
      var cookie := match reply
        case Granted(Some(p)) => Some(p)
        case Refused(true) => None
        case _ => tab.cookie;
      var woken := map c | c in tab.callers ::
        if !tab.callers[c].Awaiting? then tab.callers[c] else if reply.Granted? then Retry else Done;
      w.(tab := Tab(cookie, reply.Granted?, None, woken))
    case SignIn(u, f, secret) =>
      World(RefreshTokens.Step(w.server, Issue(u, f, secret)),
            tab.(cookie := Some(Token(f, secret)), signedIn := true))
    case SignOut =>
      World(if tab.cookie.Some? then
              var f := tab.cookie.value.family;
              RefreshTokens.Step(w.server, Revoke(f, OwnerOf(w.server, f)))
            else w.server,
            tab.(cookie := None, signedIn := false))
    case Elsewhere(e) => w.(server := RefreshTokens.Step(w.server, e))
  }

  function Opened(s: State): World {
    World(s, Tab(None, false, None, map[]))
  }

  ghost predicate Story(w: World, hs: seq<Happening>)
    decreases |hs|
  {
    hs == [] || (Enabled(w, hs[0]) && Story(Next(w, hs[0]), hs[1..]))
  }

  ghost function End(w: World, hs: seq<Happening>): World
    requires Story(w, hs)
    decreases |hs|
  {
    if hs == [] then w else End(Next(w, hs[0]), hs[1..])
  }

  // ----- the tab always holds the newest token ------------------------------------------------

  /** The answer under way will replace or clear the cookie. */
  predicate CookieIsOutdated(tab: Tab) {
    match tab.inFlight
    case Some(Served(_, _, _)) => true
    case Some(Answered(Granted(Some(_)))) => true
    case Some(Answered(Refused(true))) => true
    case _ => false
  }

  ghost predicate UpToDate(w: World) {
    && (w.tab.cookie.Some? ==> w.tab.cookie.value.family in w.server.issued)
    && (w.tab.cookie.Some? && !CookieIsOutdated(w.tab) ==> Current(w.server, w.tab.cookie.value))
    && (match w.tab.inFlight
        case Some(Asked(Some(p))) => Current(w.server, p)
        case Some(Served(_, Rotated(p), _)) => Current(w.server, p)
        case Some(Served(_, o, _)) => o.Unknown?
        case Some(Answered(Granted(Some(p)))) => Current(w.server, p)
        case _ => true)
  }

  /** Nobody waits for a refresh that is not under way. */
  ghost predicate NobodyStuck(tab: Tab) {
    forall c :: c in tab.callers && tab.callers[c].Awaiting? ==> tab.inFlight.Some?
  }

  ghost predicate Good(w: World) {
    Inv(w.server) && UpToDate(w) && NobodyStuck(w.tab)
  }

  lemma CurrentKept(s: State, e: Event, p: Presented)
    requires Inv(s) && RefreshTokens.Enabled(s, e) && Current(s, p)
    requires e.Rotate? ==> e.presented.family != p.family
    ensures Current(RefreshTokens.Step(s, e), p)
  {
  }

  lemma ServeKeepsUpToDate(w: World, h: Happening)
    requires Good(w) && Enabled(w, h) && h.Serve?
    ensures UpToDate(Next(w, h))
  {
    var p := w.tab.inFlight.value.presented;
    if p.Some? {
      VerdictByHistory(w.server, p.value, h.next);
    }
  }

  lemma HeldTokensStayCurrent(w: World, e: Event)
    requires Good(w) && RefreshTokens.Enabled(w.server, e)
    requires e.Rotate? ==> forall p :: p in Holds(w.tab) ==> p.family != e.presented.family
    ensures forall p :: p in Holds(w.tab) && Current(w.server, p) ==> Current(RefreshTokens.Step(w.server, e), p)
  {
    forall p | p in Holds(w.tab) && Current(w.server, p) ensures Current(RefreshTokens.Step(w.server, e), p) {
      CurrentKept(w.server, e, p);
    }
  }

  lemma TabKeepsGood(w: World, h: Happening)
    requires Good(w) && Enabled(w, h)
    requires h.Fetch? || h.Respond? || h.Restore? || h.TurnAway? || h.Break? || h.Deliver?
    ensures Good(Next(w, h))
  {
    hide Inv;
  }

  lemma ServeKeepsGood(w: World, h: Happening)
    requires Good(w) && Enabled(w, h) && h.Serve?
    ensures Good(Next(w, h))
  {
    ServeKeepsUpToDate(w, h);
    if w.tab.inFlight.value.presented.Some? {
      StepKeepsInv(w.server, Rotate(w.tab.inFlight.value.presented.value, h.next));
    }
    hide Inv, UpToDate;
  }

  lemma SettleKeepsGood(w: World, h: Happening)
    requires Good(w) && Enabled(w, h) && h.Settle?
    ensures Good(Next(w, h))
  {
    hide Inv;
    var x := w.tab.inFlight.value;
    if x.outcome.Rotated? && !h.userExists {
      StepKeepsInv(w.server, Revoke(x.token.family, OwnerOf(w.server, x.token.family)));
    }
    hide RefreshTokens.Step, Current;
  }

  lemma ElsewhereKeepsGood(w: World, h: Happening)
    requires Good(w) && Enabled(w, h) && h.Elsewhere?
    ensures Good(Next(w, h))
  {
    hide Inv;
    HeldTokensStayCurrent(w, h.event);
    StepKeepsInv(w.server, h.event);
    hide RefreshTokens.Step, Current;
  }

  lemma SignInKeepsGood(w: World, h: Happening)
    requires Good(w) && Enabled(w, h) && h.SignIn?
    ensures Good(Next(w, h))
  {
    hide Inv;
    var e := Issue(h.user, h.family, h.secret);
    HeldTokensStayCurrent(w, e);
    StepKeepsInv(w.server, e);
    assert Current(RefreshTokens.Step(w.server, e), Token(h.family, h.secret));
    hide RefreshTokens.Step, Current;
  }

  lemma SignOutKeepsGood(w: World, h: Happening)
    requires Good(w) && Enabled(w, h) && h.SignOut?
    ensures Good(Next(w, h))
  {
    hide Inv;
    if w.tab.cookie.Some? {
      var f := w.tab.cookie.value.family;
      HeldTokensStayCurrent(w, Revoke(f, OwnerOf(w.server, f)));
      StepKeepsInv(w.server, Revoke(f, OwnerOf(w.server, f)));
    }
    hide RefreshTokens.Step, Current;
  }

  lemma GoodKept(w: World, h: Happening)
    requires Good(w) && Enabled(w, h)
    ensures Good(Next(w, h))
  {
    hide Good, Enabled, Next;
    match h
    case Serve(_) => ServeKeepsGood(w, h);
    case Settle(_) => SettleKeepsGood(w, h);
    case Elsewhere(_) => ElsewhereKeepsGood(w, h);
    case SignIn(_, _, _) => SignInKeepsGood(w, h);
    case SignOut => SignOutKeepsGood(w, h);
    case _ => TabKeepsGood(w, h);
  }

  /** The token the server is being asked to exchange in this happening, if any. */
  function Exchanged(w: World, h: Happening): Option<Presented> {
    if h.Serve? && IsAsked(w.tab) then w.tab.inFlight.value.presented else None
  }

  /** What the server answered this tab's exchanges, in order. */
  ghost function Answers(w: World, hs: seq<Happening>): seq<Outcome>
    requires Story(w, hs)
    decreases |hs|
  {
    if hs == [] then []
    else
      var rest := Answers(Next(w, hs[0]), hs[1..]);
      var p := Exchanged(w, hs[0]);
      if p.Some? then [Verdict(w.server, p.value, hs[0].next)] + rest else rest
  }

  lemma ServedRotatedOrUnknown(w: World, h: Happening)
    requires Good(w) && Exchanged(w, h).Some?
    ensures var v := Verdict(w.server, Exchanged(w, h).value, h.next); v.Rotated? || v.Unknown?
  {
    VerdictByHistory(w.server, Exchanged(w, h).value, h.next);
  }

  lemma {:induction false} TabIsNeverCaughtReusing(w: World, hs: seq<Happening>)
    requires Good(w) && Story(w, hs)
    ensures forall i :: 0 <= i < |Answers(w, hs)| ==> Answers(w, hs)[i].Rotated? || Answers(w, hs)[i].Unknown?
    ensures Good(End(w, hs))
    decreases |hs|
  {
    hide Enabled, Next, Good, Verdict;
    if hs == [] {
    } else {
      GoodKept(w, hs[0]);
      if Exchanged(w, hs[0]).Some? {
        ServedRotatedOrUnknown(w, hs[0]);
      }
      TabIsNeverCaughtReusing(Next(w, hs[0]), hs[1..]);
    }
  }

  /**
   * A tab that only refreshes through the shared exchange is answered 'rotated' or 'unknown',
   * never 'reused' or 'concurrent', whatever its callers do and whatever happens elsewhere.
   */
  lemma SingleFlightIsSafe(s: State, hs: seq<Happening>)
    requires Inv(s) && Story(Opened(s), hs)
    ensures forall o :: o in Answers(Opened(s), hs) ==> o.Rotated? || o.Unknown?
    ensures NobodyStuck(End(Opened(s), hs).tab)
  {
    TabIsNeverCaughtReusing(Opened(s), hs);
  }

  /**
   * A refresh that is turned away before the handler, by the rate limit say, ends the access token
   * and not the session: the next exchange presents the same cookie and is answered 'rotated'.
   */
  lemma TurnedAwayCanComeBack(w: World, c: Caller, next: Secret)
    requires Good(w) && IsAsked(w.tab) && c !in w.tab.callers && Unused(w.server, next)
    requires w.tab.cookie.Some? && Live(w.server, w.tab.cookie.value.family)
    ensures var hs := [TurnAway] + ([Deliver] + ([Restore(c)] + [Serve(next)]));
      && Story(w, hs)
      && var t := End(w, hs);
        && !t.tab.signedIn && t.tab.cookie == w.tab.cookie && IsServed(t.tab)
        && t.tab.inFlight.value.token == w.tab.cookie.value
        && t.tab.inFlight.value.outcome == Rotated(Token(w.tab.cookie.value.family, next))
  {
    var w1 := Next(w, TurnAway);
    var w2 := Next(w1, Deliver);
    var w3 := Next(w2, Restore(c));
    assert w3.server == w.server && w3.tab.cookie == w.tab.cookie;
    VerdictByHistory(w.server, w.tab.cookie.value, next);
    hide Good;
    Tell(w3, Serve(next), []);
    assert [Serve(next)] + [] == [Serve(next)];
    Tell(w2, Restore(c), [Serve(next)]);
    Tell(w1, Deliver, [Restore(c)] + [Serve(next)]);
    Tell(w, TurnAway, [Deliver] + ([Restore(c)] + [Serve(next)]));
  }

  /** The commands one happening runs on the server: one or none. */
  ghost function Commands(w: World, h: Happening): seq<Event>
    requires Enabled(w, h)
  {
    match h
    case Serve(next) =>
      var p := w.tab.inFlight.value.presented;
      if p.Some? then [Rotate(p.value, next)] else []
    case Settle(userExists) =>
      var x := w.tab.inFlight.value;
      if x.outcome.Unknown? then []
      else if x.outcome.Reused? then
        (if x.owner.Some? then [Unindex(x.owner.value, x.token.family)] else [])
      else if userExists then [] else [Revoke(x.token.family, OwnerOf(w.server, x.token.family))]
    case SignIn(u, f, secret) => [Issue(u, f, secret)]
    case SignOut =>
      if w.tab.cookie.Some? then
        [Revoke(w.tab.cookie.value.family, OwnerOf(w.server, w.tab.cookie.value.family))]
      else []
    case Elsewhere(e) => [e]
    case _ => []
  }

  lemma ServerRuns(w: World, h: Happening)
    requires Enabled(w, h)
    ensures var es := Commands(w, h);
      RefreshTokens.Run(w.server, es) && Next(w, h).server == RefreshTokens.After(w.server, es)
  {
    var es := Commands(w, h);
    if es != [] {
      hide RefreshTokens.Step;
      assert es[1..] == [];
      assert RefreshTokens.Run(RefreshTokens.Step(w.server, es[0]), []);
    }
  }

  /** A family that is gone stays gone in every story. */
  lemma {:induction false} GoneForEver(w: World, hs: seq<Happening>, f: FamilyId)
    requires Inv(w.server) && Story(w, hs) && f in w.server.issued && !Live(w.server, f)
    ensures !Live(End(w, hs).server, f)
    decreases |hs|
  {
    hide Next, Enabled, Inv, Live, RefreshTokens.Step, RefreshTokens.Enabled, Commands;
    if hs == [] {
    } else {
      var es := Commands(w, hs[0]);
      ServerRuns(w, hs[0]);
      RefreshTokens.RunKeepsInv(w.server, es);
      DeadForEver(w.server, es, f);
      IssuedThroughout(w.server, es, f);
      GoneForEver(Next(w, hs[0]), hs[1..], f);
    }
  }

  /**
   * After a sign-out the tab has no cookie and no access token, and whatever happens later, every
   * token of the family it held is unknown to the server.
   */
  lemma SignOutEndsTheSession(w: World, hs: seq<Happening>, p: Presented, next: Secret)
    requires Good(w) && w.tab.cookie.Some? && p.family == w.tab.cookie.value.family
    requires Story(Next(w, SignOut), hs)
    ensures var t := Next(w, SignOut);
      && t.tab.cookie.None? && !t.tab.signedIn && t.tab.callers == w.tab.callers
      && !Live(t.server, p.family)
      && Verdict(End(t, hs).server, p, next) == Unknown
      && forall g :: g != p.family ==> Lookup(t.server, g) == Lookup(w.server, g)
  {
    var t, f := Next(w, SignOut), p.family;
    GoodKept(w, SignOut);
    forall g ensures g != f ==> Lookup(t.server, g) == Lookup(w.server, g) {
      RevokeRemovesExactly(w.server, f, OwnerOf(w.server, f), g, 0);
    }
    RevokeRemovesExactly(w.server, f, OwnerOf(w.server, f), f, 0);
    GoneForEver(t, hs, f);
    DeadAnswersUnknown(End(t, hs).server, p);
  }

  /**
   * An exchange that comes through: for a live family and a user that still exists the tab ends up
   * signed in with the newest token, and everyone who waited sends again; otherwise it ends up with
   * neither cookie nor access token, nobody sends again, and the family is gone.
   */
  lemma ExchangeEndsExactly(w: World, p: Presented, next: Secret, userExists: bool)
    requires Good(w) && w.tab.inFlight == Some(Asked(Some(p))) && Unused(w.server, next)
    ensures var hs := [Serve(next)] + ([Settle(userExists)] + [Deliver]);
      && Story(w, hs)
      && var t := End(w, hs);
         var ok := Live(w.server, p.family) && userExists;
        && t.tab.inFlight.None?
        && (t.tab.signedIn <==> ok)
        && t.tab.cookie == (if ok then Some(Token(p.family, next)) else None)
        && (Live(t.server, p.family) <==> ok)
        && (ok ==> Current(t.server, Token(p.family, next)))
        && t.tab.callers.Keys == w.tab.callers.Keys
        && forall c :: c in w.tab.callers ==>
             var before := w.tab.callers[c];
             t.tab.callers[c] == if !before.Awaiting? then before else if ok then Retry else Done
  {
    VerdictByHistory(w.server, p, next);
    var w1 := Next(w, Serve(next));
    var w2 := Next(w1, Settle(userExists));
    var w3 := Next(w2, Deliver);
    ServedFamily(w.server, p, next, userExists);
    hide Good;
    Tell(w2, Deliver, []);
    assert [Deliver] + [] == [Deliver];
    Tell(w1, Settle(userExists), [Deliver]);
    Tell(w, Serve(next), [Settle(userExists)] + [Deliver]);
  }

  /**
   * A tab whose token another tab has just rotated, inside the grace: it is signed in and the cookie
   * in the jar, the other tab's, stays; unless the user is gone, which ends the session.
   */
  lemma LateTabKeepsTheCookie(w: World, p: Presented, next: Secret, userExists: bool)
    requires Inv(w.server) && w.tab.inFlight == Some(Asked(Some(p))) && Unused(w.server, next)
    requires p.Token? && Live(w.server, p.family) && JustReplaced(w.server, p)
    requires w.server.now - w.server.families[p.family].rotatedAt.value <= 10_000
    ensures var hs := [Serve(next)] + ([Settle(userExists)] + [Deliver]);
      && Story(w, hs)
      && var t := End(w, hs);
        && t.tab.cookie == (if userExists then w.tab.cookie else None) && (t.tab.signedIn <==> userExists)
        && (userExists ==> t.server == w.server)
        && (!userExists ==> !Live(t.server, p.family))
  {
    assert Verdict(w.server, p, next) == Concurrent by {
      VerdictByHistory(w.server, p, next);
    }
    hide Inv, JustReplaced;
    var w1 := Next(w, Serve(next));
    var w2 := Next(w1, Settle(userExists));
    assert w1.server == w.server;
    assert !userExists ==> !Live(w2.server, p.family);
    hide Verdict, RefreshTokens.Step;
    Tell(w2, Deliver, []);
    assert [Deliver] + [] == [Deliver];
    Tell(w1, Settle(userExists), [Deliver]);
    Tell(w, Serve(next), [Settle(userExists)] + [Deliver]);
  }

  /** A sign-in puts the tab in possession of the only token of a family that lives its full time. */
  lemma SignInStartsTheSession(w: World, user: UserId, f: FamilyId, secret: Secret)
    requires Inv(w.server) && Enabled(w, SignIn(user, f, secret))
    ensures var t := Next(w, SignIn(user, f, secret));
      && t.tab.signedIn && t.tab.cookie == Some(Token(f, secret)) && t.tab.callers == w.tab.callers
      && Current(t.server, Token(f, secret)) && Live(t.server, f)
      && t.server.families[f].user == user && t.server.families[f].expiresAt == t.server.now + t.server.ttl
      && forall g :: g != f ==> Lookup(t.server, g) == Lookup(w.server, g)
  {
    var s := RefreshTokens.Step(w.server, Issue(user, f, secret));
    assert RefreshTokens.Run(s, []);
    LoginLastsItsTime(w.server, user, f, secret, [], user);
  }

  lemma ServedFamily(s: State, p: Presented, next: Secret, userExists: bool)
    requires Inv(s) && Unused(s, next) && Current(s, p)
    ensures var t := RefreshTokens.Step(s, Rotate(p, next));
      && (Live(t, p.family) <==> Live(s, p.family))
      && (Live(s, p.family) ==> Current(t, Token(p.family, next)))
      && !Live(RefreshTokens.Step(t, Revoke(p.family, OwnerOf(t, p.family))), p.family)
  {
    VerdictByHistory(s, p, next);
  }

  lemma Tell(w: World, h: Happening, hs: seq<Happening>)
    requires Enabled(w, h) && Story(Next(w, h), hs)
    ensures Story(w, [h] + hs) && End(w, [h] + hs) == End(Next(w, h), hs)
  {
    hide Enabled, Next;
    assert ([h] + hs)[1..] == hs;
  }

  function Rank(p: Progress): nat {
    match p case First => 0 case Awaiting => 1 case Retry => 2 case Done => 3
  }

  /** A caller's progress only moves forward, and every response moves it. */
  lemma {:induction false} CallersOnlyAdvance(w: World, hs: seq<Happening>, c: Caller)
    requires Story(w, hs) && c in w.tab.callers
    ensures c in End(w, hs).tab.callers
    ensures Rank(w.tab.callers[c]) <= Rank(End(w, hs).tab.callers[c])
    ensures hs != [] && hs[0].Respond? && hs[0].caller == c ==>
            Rank(w.tab.callers[c]) < Rank(End(w, hs).tab.callers[c])
    decreases |hs|
  {
    if hs == [] {
    } else {
      CallersOnlyAdvance(Next(w, hs[0]), hs[1..], c);
    }
  }

  /** Caller `c` joins the shared refresh. */
  ghost predicate Joins(w: World, h: Happening, c: Caller)
    requires Enabled(w, h)
  {
    (h.Restore? && h.caller == c)
    || (h.Respond? && h.caller == c && h.unauthorized && w.tab.callers[c].First? && w.tab.signedIn)
  }

  /** The refresh succeeded, and caller `c`, who waited for it, sends its request again. */
  ghost predicate Retries(w: World, h: Happening, c: Caller)
    requires Enabled(w, h)
  {
    h.Deliver? && c in w.tab.callers && w.tab.callers[c].Awaiting? && w.tab.inFlight.value.reply.Granted?
  }

  ghost function JoinCount(w: World, hs: seq<Happening>, c: Caller): nat
    requires Story(w, hs)
    decreases |hs|
  {
    if hs == [] then 0 else (if Joins(w, hs[0], c) then 1 else 0) + JoinCount(Next(w, hs[0]), hs[1..], c)
  }

  ghost function RetryCount(w: World, hs: seq<Happening>, c: Caller): nat
    requires Story(w, hs)
    decreases |hs|
  {
    if hs == [] then 0 else (if Retries(w, hs[0], c) then 1 else 0) + RetryCount(Next(w, hs[0]), hs[1..], c)
  }

  function RankOf(tab: Tab, c: Caller): nat {
    if c in tab.callers then Rank(tab.callers[c]) else 0
  }

  lemma RankMoves(w: World, h: Happening, c: Caller)
    requires Enabled(w, h)
    ensures RankOf(w.tab, c) <= RankOf(Next(w, h).tab, c)
    ensures Joins(w, h, c) <==> RankOf(w.tab, c) == 0 && RankOf(Next(w, h).tab, c) == 1
    ensures Retries(w, h, c) <==> RankOf(w.tab, c) == 1 && RankOf(Next(w, h).tab, c) == 2
  {
  }

  /** Over every story each caller joins at most one refresh and retries at most once. */
  lemma {:induction false} OneRefreshOneRetry(w: World, hs: seq<Happening>, c: Caller)
    requires Story(w, hs)
    ensures JoinCount(w, hs, c) <= if RankOf(w.tab, c) >= 1 then 0 else 1
    ensures RetryCount(w, hs, c) <= if RankOf(w.tab, c) >= 2 then 0 else 1
    decreases |hs|
  {
    hide Enabled, Next, Joins, Retries, RankOf;
    if hs == [] {
    } else {
      RankMoves(w, hs[0], c);
      OneRefreshOneRetry(Next(w, hs[0]), hs[1..], c);
    }
  }

  // ----- the client ---------------------------------------------------------------------------

  /** The web client's module state: the access token, the exchange in flight, and who waits. */
  class ApiClient {
    var cookie: Option<Presented>
    var signedIn: bool
    var inFlight: Option<Exchange>
    var callers: map<Caller, Progress>

    function View(): Tab
      reads this
    {
      Tab(cookie, signedIn, inFlight, callers)
    }

    constructor ()
      ensures View() == Tab(None, false, None, map[]) && forall s: State :: Opened(s) == World(s, View())
    {
      cookie, signedIn, inFlight, callers := None, false, None, map[];
    }

    method RefreshSession(c: Caller)
      modifies this
      ensures View() == Join(old(View()), c)
      ensures old(inFlight).Some? ==> inFlight == old(inFlight)
    {
      if inFlight.None? {
        inFlight := Some(Asked(cookie));
      }
      callers := callers[c := Awaiting];
    }

    /** A response to `authedFetch`: a first 401 with a token in hand refreshes; all else is final. */
    method OnResponse(c: Caller, unauthorized: bool)
      requires c in callers && (callers[c].First? || callers[c].Retry?)
      modifies this
      ensures forall s: State :: View() == Next(World(s, old(View())), Respond(c, unauthorized)).tab
    {
      if unauthorized && callers[c].First? && signedIn {
        RefreshSession(c);
      } else {
        callers := callers[c := Done];
      }
    }

    /** The exchange settles: cookie jar, access token, and every caller that shared it. */
    method OnExchanged()
      requires inFlight.Some? && inFlight.value.Answered?
      modifies this
      ensures forall s: State :: View() == Next(World(s, old(View())), Deliver).tab
      ensures inFlight.None? && forall c :: c in callers ==> !callers[c].Awaiting?
    {
      var reply := inFlight.value.reply;
      match reply {
        case Granted(given) =>
          if given.Some? {
            cookie := given;
          }
          signedIn := true;
        case Refused(clears) =>
          if clears {
            cookie := None;
          }
          signedIn := false;
      }
      callers := map c | c in callers ::
        if !callers[c].Awaiting? then callers[c] else if reply.Granted? then Retry else Done;
      inFlight := None;
    }
  }
}
