/**
 * Rotating refresh-token families in Redis. One event is one Lua script, MULTI or single command;
 * any number of callers interleave. Secrets and family ids are fresh, sha256 is injective, a key
 * reads as absent from its expiry instant on, and TTL reads exactly.
 */
module RefreshTokens {
  import opened Common

  type UserId = nat
  type FamilyId = nat
  type Secret = nat
  type Revoker = nat

  /** A constructor is injective, which is all the model uses of sha256. */
  datatype Digest = Sha256(secret: Secret)

  /** What a caller presents: `<familyId>.<secret>`, or text without the separator. */
  datatype Presented = Token(family: FamilyId, secret: Secret) | Bare(family: FamilyId)

  datatype Family = Family(
    user: UserId, hash: Digest, generation: nat, previousHash: Option<Digest>, rotatedAt: Option<int>,
    expiresAt: int)

  /** The set of a user's families, with the expiry of that set's own key. */
  datatype Index = Index(members: set<FamilyId>, expiresAt: int)

  datatype Outcome = Rotated(issued: Presented) | Concurrent | Unknown | Reused

  const GRACE_MS := 10_000

  /** A `revokeAllForUser` between its two commands: what SMEMBERS gave, and what was issued by then. */
  datatype Pending = Pending(user: UserId, ids: set<FamilyId>, known: set<FamilyId>)

  /**
   * `families` and `index` are the Redis keys that have not expired at `now`. `issued` records,
   * family by family, every secret handed out, oldest first, and `owner` who it was issued to.
   */
  datatype State = State(
    ttl: int, now: int, families: map<FamilyId, Family>, index: map<UserId, Index>,
    pending: map<Revoker, Pending>, issued: map<FamilyId, seq<Secret>>, owner: map<FamilyId, UserId>)

  datatype Event =
    | Tick(to: int)
    | Issue(user: UserId, family: FamilyId, secret: Secret)
    | Rotate(presented: Presented, next: Secret)
    | Unindex(user: UserId, family: FamilyId)
    | Revoke(family: FamilyId, found: Option<UserId>)
    | ReadAll(r: Revoker, user: UserId)
    | EndAll(r: Revoker)

  predicate Unused(s: State, secret: Secret) {
    forall f :: f in s.issued ==> secret !in s.issued[f]
  }

  predicate Enabled(s: State, e: Event) {
    match e
    case Tick(to) => s.now <= to
    case Issue(_, f, secret) => f !in s.issued && Unused(s, secret)
    case Rotate(_, next) => Unused(s, next)
    case Unindex(_, f) => f !in s.families
    case Revoke(_, _) => true
    case ReadAll(r, _) => r !in s.pending
    case EndAll(r) => r in s.pending
  }

  /** SREM: Redis drops a set that becomes empty. */
  function Srem(index: map<UserId, Index>, user: UserId, f: FamilyId): map<UserId, Index> {
    if user !in index then index
    else
      var left := index[user].members - {f};
      if left == {} then index - {user} else index[user := index[user].(members := left)]
  }

  /** The rotation script on the key of one family: the new value (None: deleted) and the answer. */
  function Script(family: Option<Family>, presented: Digest, next: Digest, now: int)
    : (Option<Family>, Option<bool>)
  {
    match family
    case None => (None, None)
    case Some(f) =>
      if f.hash == presented then
        (Some(f.(previousHash := Some(f.hash), hash := next, rotatedAt := Some(now),
                 generation := f.generation + 1)), Some(true))
      else if f.previousHash == Some(presented)
           && now - (if f.rotatedAt.Some? then f.rotatedAt.value else 0) <= GRACE_MS then
        (Some(f), Some(false))
      else (None, None)
  }

  function Lookup(s: State, f: FamilyId): Option<Family> {
    if f in s.families then Some(s.families[f]) else None
  }

  function Verdict(s: State, p: Presented, next: Secret): Outcome {
    if p.Bare? then Unknown
    else
      match Script(Lookup(s, p.family), Sha256(p.secret), Sha256(next), s.now).1
      case Some(true) => Rotated(Token(p.family, next))
      case Some(false) => Concurrent
      case None => if p.family in s.families then Reused else Unknown
  }

  /** DEL of the given families and of the user's index, in one MULTI. */
  function DeleteAll(s: State, user: UserId, ids: set<FamilyId>): State {
    s.(families := s.families - ids, index := s.index - {user})
  }

  function Members(s: State, user: UserId): set<FamilyId> {
    if user in s.index then s.index[user].members else {}
  }

  /** What the GET of `revoke` finds out about a family. */
  function OwnerOf(s: State, f: FamilyId): Option<UserId> {
    if f in s.families then Some(s.families[f].user) else None
  }

  function Step(s: State, e: Event): State
    requires Enabled(s, e)
  {
    match e
    case Tick(to) =>
      s.(now := to,
         families := map f | f in s.families && to < s.families[f].expiresAt :: s.families[f],
         index := map u | u in s.index && to < s.index[u].expiresAt :: s.index[u])
    case Issue(user, f, secret) =>
      var members := if user in s.index then s.index[user].members else {};
      s.(families := s.families[f := Family(user, Sha256(secret), 1, None, None, s.now + s.ttl)],
         index := s.index[user := Index(members + {f}, s.now + s.ttl)],
         issued := s.issued[f := [secret]],
         owner := s.owner[f := user])
    case Rotate(p, next) =>
      (match Verdict(s, p, next)
       case Rotated(_) =>
         var after := Script(Lookup(s, p.family), Sha256(p.secret), Sha256(next), s.now).0;
         s.(families := if after.Some? then s.families[p.family := after.value] else s.families,
            issued := s.issued[p.family := (if p.family in s.issued then s.issued[p.family] else []) + [next]])
       case Reused => s.(families := s.families - {p.family})
       case _ => s)
    case Unindex(user, f) => s.(index := Srem(s.index, user, f))
    case Revoke(f, found) =>
      s.(families := s.families - {f},
         index := if found.Some? then Srem(s.index, found.value, f) else s.index)
    case ReadAll(r, user) =>
      s.(pending := s.pending[r := Pending(user, Members(s, user), s.issued.Keys)])
    case EndAll(r) =>
      var p, t := s.pending[r], s.(pending := s.pending - {r});
      if p.ids == {} then t else DeleteAll(t, p.user, p.ids)
  }

  function Fresh(ttl: int, now: int): State {
    State(ttl, now, map[], map[], map[], map[], map[])
  }

  predicate Run(s: State, es: seq<Event>)
    decreases |es|
  {
    es == [] || (Enabled(s, es[0]) && Run(Step(s, es[0]), es[1..]))
  }

  function After(s: State, es: seq<Event>): State
    requires Run(s, es)
    decreases |es|
  {
    if es == [] then s else After(Step(s, es[0]), es[1..])
  }

  // ----- the invariant ------------------------------------------------------------------------

  /** The stored record agrees with the list of secrets this family has handed out. */
  predicate Faithful(s: State, f: FamilyId)
    requires f in s.families
  {
    && f in s.issued && f in s.owner && s.owner[f] == s.families[f].user
    && var fam, n := s.families[f], |s.issued[f]|;
      && fam.generation == n >= 1
      && fam.hash == Sha256(s.issued[f][n - 1])
      && (n == 1 ==> fam.previousHash == None && fam.rotatedAt == None)
      && (n > 1 ==> fam.previousHash == Some(Sha256(s.issued[f][n - 2])))
      && (n > 1 ==> fam.rotatedAt.Some? && fam.rotatedAt.value <= s.now)
      && s.now < fam.expiresAt <= s.now + s.ttl
  }

  ghost predicate Records(s: State) {
    && s.ttl > 0
    && (forall f :: f in s.families ==> Faithful(s, f))
    && (forall f :: f in s.issued ==> Distinct(s.issued[f]))
    && (forall f :: f in s.owner <==> f in s.issued)
  }

  /** The user's index holds this family. */
  predicate Listed(s: State, f: FamilyId) {
    f in s.families && f in Members(s, s.families[f].user)
  }

  /** An index holds families of its user only, is not empty, and outlives those that are live. */
  ghost predicate IndexTidy(s: State) {
    && (forall u :: u in s.index ==> s.index[u].members != {} && s.now < s.index[u].expiresAt <= s.now + s.ttl)
    && (forall u, f :: u in s.index && f in s.index[u].members ==> f in s.owner && s.owner[f] == u)
    && (forall f :: Listed(s, f) ==> s.families[f].expiresAt <= s.index[s.families[f].user].expiresAt)
  }

  /** A family of the user that revocation `r` is about, issued before its read and listed now. */
  predicate KnownTo(s: State, r: Revoker, f: FamilyId)
    requires r in s.pending
  {
    Listed(s, f) && s.families[f].user == s.pending[r].user && f in s.pending[r].known
  }

  /** A read index named every family that was listed then and still is live and listed. */
  ghost predicate PendingTidy(s: State) {
    && (forall r :: r in s.pending ==> s.pending[r].known <= s.issued.Keys)
    && (forall r, f :: r in s.pending && f in s.pending[r].ids ==> f in s.owner && s.owner[f] == s.pending[r].user)
    && (forall r, f :: r in s.pending && f in s.pending[r].ids ==> f in s.pending[r].known)
    && (forall r, f :: r in s.pending && KnownTo(s, r, f) ==> f in s.pending[r].ids)
  }

  /** Holds in every run, whatever logins and revocations interleave. */
  ghost predicate Inv(s: State) {
    Records(s) && IndexTidy(s) && PendingTidy(s)
  }

  lemma RotatedKeepsRecords(s: State, e: Event)
    requires Records(s) && Enabled(s, e) && e.Rotate? && Verdict(s, e.presented, e.next).Rotated?
    ensures Records(Step(s, e))
  {
    var t, f := Step(s, e), e.presented.family;
    assert Faithful(s, f);
    assert t.issued[f] == s.issued[f] + [e.next];
    assert Faithful(t, f);
    forall g | g in t.families && g != f ensures Faithful(t, g) {
      assert Faithful(s, g);
    }
  }

  lemma RotateKeepsRecords(s: State, e: Event)
    requires Records(s) && Enabled(s, e) && e.Rotate?
    ensures Records(Step(s, e))
  {
    if Verdict(s, e.presented, e.next).Rotated? {
      RotatedKeepsRecords(s, e);
    } else {
      var t := Step(s, e);
      forall g | g in t.families ensures Faithful(t, g) {
        assert Faithful(s, g);
      }
    }
  }

  lemma IssueKeepsRecords(s: State, e: Event)
    requires Records(s) && Enabled(s, e) && (e.Issue? || e.Tick?)
    ensures Records(Step(s, e))
  {
    var t := Step(s, e);
    forall g | g in t.families ensures Faithful(t, g) {
      assert g in s.families ==> Faithful(s, g);
    }
  }

  lemma RevokeKeepsRecords(s: State, e: Event)
    requires Records(s) && Enabled(s, e) && !e.Rotate? && !e.Issue? && !e.Tick?
    ensures Records(Step(s, e))
  {
    var t := Step(s, e);
    forall g | g in t.families ensures Faithful(t, g) {
      assert Faithful(s, g);
    }
  }

  /** The listings of `t` are those of `s`, some perhaps gone; nothing new is read or issued. */
  ghost predicate Shrinks(s: State, t: State) {
    && t.ttl == s.ttl && s.now <= t.now && t.owner == s.owner && s.issued.Keys <= t.issued.Keys
    && (forall u :: u in t.index ==>
          && u in s.index && t.index[u].expiresAt == s.index[u].expiresAt && t.now < t.index[u].expiresAt
          && t.index[u].members != {} && t.index[u].members <= s.index[u].members)
    && (forall r :: r in t.pending ==> r in s.pending && t.pending[r] == s.pending[r])
    && (forall f :: f in t.families ==>
          f in s.families && t.families[f].user == s.families[f].user
          && t.families[f].expiresAt == s.families[f].expiresAt)
  }

  lemma ShrinkKeepsIndex(s: State, t: State)
    requires IndexTidy(s) && Shrinks(s, t)
    ensures IndexTidy(t)
  {
    forall f | Listed(t, f) ensures t.families[f].expiresAt <= t.index[t.families[f].user].expiresAt {
      assert Listed(s, f);
    }
  }

  lemma ShrinkKeepsPending(s: State, t: State)
    requires PendingTidy(s) && Shrinks(s, t)
    ensures PendingTidy(t)
  {
    forall r, f | r in t.pending && KnownTo(t, r, f) ensures f in t.pending[r].ids {
      assert KnownTo(s, r, f);
    }
  }

  lemma RotateShrinks(s: State, e: Event)
    requires Inv(s) && Enabled(s, e) && e.Rotate?
    ensures Shrinks(s, Step(s, e))
  {
    hide PendingTidy, Listed, Faithful;
    if Verdict(s, e.presented, e.next).Rotated? {
      var f := e.presented.family;
      assert Script(Lookup(s, f), Sha256(e.presented.secret), Sha256(e.next), s.now).0.Some?;
    }
  }

  lemma TickShrinks(s: State, e: Event)
    requires Inv(s) && Enabled(s, e) && e.Tick?
    ensures Shrinks(s, Step(s, e))
  {
    hide PendingTidy, Listed, Faithful;
  }

  lemma SremKeeps(index: map<UserId, Index>, user: UserId, f: FamilyId)
    ensures var after := Srem(index, user, f);
      && (forall u :: u in after ==> u in index && after[u].members <= index[u].members)
      && (forall u :: u in after ==> after[u].expiresAt == index[u].expiresAt)
      && (forall u :: u in after && index[u].members != {} ==> after[u].members != {})
      && (forall u, g :: u in index && g in index[u].members && g != f ==> u in after && g in after[u].members)
  {
    assert user in index ==> forall g :: g in index[user].members && g != f ==> g in index[user].members - {f};
  }

  lemma SremShrinks(s: State, e: Event)
    requires Inv(s) && Enabled(s, e) && (e.Revoke? || e.Unindex?)
    ensures Shrinks(s, Step(s, e))
  {
    hide PendingTidy, Listed, Faithful, Srem;
    if e.Unindex? {
      SremKeeps(s.index, e.user, e.family);
    } else if e.found.Some? {
      SremKeeps(s.index, e.found.value, e.family);
    }
  }

  lemma EndShrinks(s: State, e: Event)
    requires Inv(s) && Enabled(s, e) && e.EndAll?
    ensures Shrinks(s, Step(s, e))
  {
    hide PendingTidy, Listed, Faithful;
  }

  lemma ReadLeavesRest(s: State, e: Event)
    requires Enabled(s, e) && e.ReadAll?
    ensures Step(s, e) == s.(pending := s.pending[e.r := Pending(e.user, Members(s, e.user), s.issued.Keys)])
  {
  }

  lemma ReadKeepsIndex(s: State, e: Event)
    requires IndexTidy(s) && Enabled(s, e) && e.ReadAll?
    ensures IndexTidy(Step(s, e))
  {
    ReadLeavesRest(s, e);
    hide Step;
    forall f | Listed(Step(s, e), f) ensures Listed(s, f) {
    }
  }

  /** SMEMBERS records exactly what is listed for the user. */
  lemma ReadKeepsPending(s: State, e: Event)
    requires Inv(s) && Enabled(s, e) && e.ReadAll?
    ensures PendingTidy(Step(s, e))
  {
    ReadLeavesRest(s, e);
    OwnedAreIssued(s);
    hide Step, Records;
    var t := Step(s, e);
    forall r, f | r in t.pending && KnownTo(t, r, f) ensures f in t.pending[r].ids {
      assert r != e.r ==> KnownTo(s, r, f);
    }
  }

  lemma OwnedAreIssued(s: State)
    requires Records(s)
    ensures forall f :: f in s.owner <==> f in s.issued
  {
  }

  lemma FreshIsUnlisted(s: State, f: FamilyId)
    requires Inv(s) && f !in s.issued
    ensures f !in s.families && f !in s.owner && forall u :: f !in Members(s, u)
  {
    assert f in s.families ==> Faithful(s, f);
  }

  lemma IssueKeepsIndex(s: State, e: Event)
    requires Inv(s) && Enabled(s, e) && e.Issue?
    ensures IndexTidy(Step(s, e))
  {
    FreshIsUnlisted(s, e.family);
    hide PendingTidy, Faithful;
    var t := Step(s, e);
    forall f | Listed(t, f) ensures t.families[f].expiresAt <= t.index[t.families[f].user].expiresAt {
      if f != e.family {
        assert Listed(s, f);
      }
    }
  }

  lemma IssueKeepsPending(s: State, e: Event)
    requires Inv(s) && Enabled(s, e) && e.Issue?
    ensures PendingTidy(Step(s, e))
  {
    FreshIsUnlisted(s, e.family);
    hide IndexTidy, Records;
    var t := Step(s, e);
    forall r, f | r in t.pending && KnownTo(t, r, f) ensures f in t.pending[r].ids {
      assert f != e.family;
      assert KnownTo(s, r, f);
    }
  }

  lemma StepKeepsInv(s: State, e: Event)
    requires Inv(s) && Enabled(s, e)
    ensures Inv(Step(s, e))
  {
    hide Step, Enabled, Records, IndexTidy, PendingTidy, Shrinks;
    match e {
      case Rotate(_, _) =>
        RotateKeepsRecords(s, e);
        RotateShrinks(s, e);
      case Tick(_) =>
        IssueKeepsRecords(s, e);
        TickShrinks(s, e);
      case Issue(_, _, _) =>
        IssueKeepsRecords(s, e);
        IssueKeepsIndex(s, e);
        IssueKeepsPending(s, e);
      case ReadAll(_, _) =>
        RevokeKeepsRecords(s, e);
        ReadKeepsIndex(s, e);
        ReadKeepsPending(s, e);
      case EndAll(_) =>
        RevokeKeepsRecords(s, e);
        EndShrinks(s, e);
      case _ =>
        RevokeKeepsRecords(s, e);
        SremShrinks(s, e);
    }
    if !e.Issue? && !e.ReadAll? {
      ShrinkKeepsIndex(s, Step(s, e));
      ShrinkKeepsPending(s, Step(s, e));
    }
  }

  lemma FreshInv(ttl: int, now: int)
    requires ttl > 0
    ensures Inv(Fresh(ttl, now))
  {
  }

  lemma {:induction false} RunKeepsInv(s: State, es: seq<Event>)
    requires Inv(s) && Run(s, es)
    ensures Inv(After(s, es))
    decreases |es|
  {
    hide Step, Enabled, Inv;
    if es == [] {
    } else {
      StepKeepsInv(s, es[0]);
      RunKeepsInv(Step(s, es[0]), es[1..]);
    }
  }

  // ----- what a presented token is answered ---------------------------------------------------

  predicate Current(s: State, p: Presented) {
    p.Token? && p.family in s.issued && s.issued[p.family] != []
    && p.secret == s.issued[p.family][|s.issued[p.family]| - 1]
  }

  /** The secret that the current one replaced. */
  predicate JustReplaced(s: State, p: Presented) {
    p.Token? && p.family in s.issued && |s.issued[p.family]| > 1
    && p.secret == s.issued[p.family][|s.issued[p.family]| - 2]
  }

  predicate Live(s: State, f: FamilyId) {
    f in s.families
  }

  /** The verdict, in terms of the tokens handed out rather than of the stored record. */
  lemma VerdictByHistory(s: State, p: Presented, next: Secret)
    requires Inv(s) && p.Token?
    ensures var v := Verdict(s, p, next);
      && (v == Unknown <==> !Live(s, p.family))
      && (v == Rotated(Token(p.family, next)) <==> Live(s, p.family) && Current(s, p))
      && (v == Concurrent <==> Live(s, p.family) && JustReplaced(s, p)
                               && s.now - s.families[p.family].rotatedAt.value <= 10_000)
      && (v == Reused <==> Live(s, p.family) && !Current(s, p)
                           && !(JustReplaced(s, p) && s.now - s.families[p.family].rotatedAt.value <= 10_000))
  {
    hide IndexTidy, PendingTidy;
    if Live(s, p.family) {
      assert Faithful(s, p.family);
      var h := s.issued[p.family];
      assert |h| > 1 ==> h[|h| - 2] != h[|h| - 1];
    }
  }

  lemma GenerationIs(s: State, f: FamilyId)
    requires Records(s) && Live(s, f)
    ensures f in s.issued && s.families[f].generation == |s.issued[f]| && Distinct(s.issued[f])
  {
    assert Faithful(s, f);
  }

  /** Over every run, the generation of a live family is the number of tokens it has handed out. */
  lemma GenerationCountsTokens(ttl: int, now: int, es: seq<Event>, f: FamilyId)
    requires ttl > 0 && Run(Fresh(ttl, now), es)
    ensures var s := After(Fresh(ttl, now), es);
      Live(s, f) ==> f in s.issued && s.families[f].generation == |s.issued[f]| && Distinct(s.issued[f])
  {
    hide IndexTidy, PendingTidy, Records, Run, After;
    FreshInv(ttl, now);
    RunKeepsInv(Fresh(ttl, now), es);
    if Live(After(Fresh(ttl, now), es), f) {
      GenerationIs(After(Fresh(ttl, now), es), f);
    }
  }

  // ----- a token rotates at most once, and a dead family stays dead ---------------------------

  /** Never again the current token of a live family. */
  predicate Spent(s: State, p: Presented) {
    p.Token? && p.family in s.issued
    && (!Live(s, p.family) || (p.secret in s.issued[p.family] && !Current(s, p)))
  }

  lemma SpentStays(s: State, e: Event, p: Presented)
    requires Inv(s) && Enabled(s, e) && Spent(s, p)
    ensures Spent(Step(s, e), p)
  {
    hide IndexTidy, PendingTidy;
  }

  function Outcomes(s: State, es: seq<Event>, p: Presented): seq<Outcome>
    requires Run(s, es)
    decreases |es|
  {
    if es == [] then []
    else
      var rest := Outcomes(Step(s, es[0]), es[1..], p);
      if es[0].Rotate? && es[0].presented == p then [Verdict(s, p, es[0].next)] + rest else rest
  }

  function Rotations(os: seq<Outcome>): nat {
    if os == [] then 0 else (if os[0].Rotated? then 1 else 0) + Rotations(os[1..])
  }

  lemma RotationsCons(o: Outcome, os: seq<Outcome>)
    ensures Rotations([o] + os) == (if o.Rotated? then 1 else 0) + Rotations(os)
  {
    assert ([o] + os)[1..] == os;
  }

  lemma {:induction false} SpentNeverRotates(s: State, es: seq<Event>, p: Presented)
    requires Inv(s) && Run(s, es) && Spent(s, p)
    ensures Rotations(Outcomes(s, es, p)) == 0
    decreases |es|
  {
    hide Step, Enabled;
    if es == [] {
    } else {
      StepKeepsInv(s, es[0]);
      SpentStays(s, es[0], p);
      if es[0].Rotate? && es[0].presented == p {
        VerdictByHistory(s, p, es[0].next);
        RotationsCons(Verdict(s, p, es[0].next), Outcomes(Step(s, es[0]), es[1..], p));
      }
      SpentNeverRotates(Step(s, es[0]), es[1..], p);
    }
  }

  lemma {:induction false} EachTokenRotatesOnce(s: State, es: seq<Event>, p: Presented)
    requires Inv(s) && Run(s, es) && p.Token?
    ensures Rotations(Outcomes(s, es, p)) <= 1
    decreases |es|
  {
    hide IndexTidy, PendingTidy;
    hide Enabled;
    if es == [] {
    } else {
      var t := Step(s, es[0]);
      StepKeepsInv(s, es[0]);
      if es[0].Rotate? && es[0].presented == p {
        VerdictByHistory(s, p, es[0].next);
        RotationsCons(Verdict(s, p, es[0].next), Outcomes(t, es[1..], p));
        if Verdict(s, p, es[0].next).Rotated? {
          assert Spent(t, p);
          SpentNeverRotates(t, es[1..], p);
        } else {
          EachTokenRotatesOnce(t, es[1..], p);
        }
      } else {
        EachTokenRotatesOnce(t, es[1..], p);
      }
    }
  }

  lemma DeadStays(s: State, e: Event, f: FamilyId)
    requires Inv(s) && Enabled(s, e) && f in s.issued && !Live(s, f)
    ensures f in Step(s, e).issued && !Live(Step(s, e), f)
  {
    hide IndexTidy, PendingTidy;
  }

  predicate AllUnknown(os: seq<Outcome>) {
    forall i :: 0 <= i < |os| ==> os[i] == Unknown
  }

  /** Once a family is gone (reuse, logout, password change, expiry), every token of it is unknown. */
  lemma {:induction false} DeadFamilyAnswersUnknown(s: State, es: seq<Event>, p: Presented)
    requires Inv(s) && Run(s, es) && p.Token? && p.family in s.issued && !Live(s, p.family)
    ensures AllUnknown(Outcomes(s, es, p)) && !Live(After(s, es), p.family)
    decreases |es|
  {
    hide Step, Enabled, Inv, Verdict, Live;
    if es == [] {
    } else {
      StepKeepsInv(s, es[0]);
      DeadStays(s, es[0], p.family);
      DeadAnswersUnknown(s, p);
      DeadFamilyAnswersUnknown(Step(s, es[0]), es[1..], p);
    }
  }

  lemma DeadAnswersUnknown(s: State, p: Presented)
    requires !Live(s, p.family)
    ensures forall next :: Verdict(s, p, next) == Unknown
  {
  }

  /** Presenting any token but the current and (inside the grace) the previous one ends the family. */
  lemma ReuseEndsTheFamily(s: State, p: Presented, next: Secret, es: seq<Event>, other: Presented)
    requires Inv(s) && Enabled(s, Rotate(p, next)) && p.Token? && Live(s, p.family)
    requires !Current(s, p)
    requires !(JustReplaced(s, p) && s.now - s.families[p.family].rotatedAt.value <= GRACE_MS)
    requires Run(Step(s, Rotate(p, next)), es) && other.Token? && other.family == p.family
    ensures Verdict(s, p, next) == Reused
    ensures AllUnknown(Outcomes(Step(s, Rotate(p, next)), es, other))
  {
    VerdictByHistory(s, p, next);
    assert Faithful(s, p.family);
    StepKeepsInv(s, Rotate(p, next));
    DeadFamilyAnswersUnknown(Step(s, Rotate(p, next)), es, other);
  }

  // ----- logging out --------------------------------------------------------------------------

  /** SREM takes out that member of that index and nothing else. */
  lemma SremIs(index: map<UserId, Index>, user: UserId, f: FamilyId, u: UserId)
    ensures var t := Srem(index, user, f);
      && (u in t ==> u in index && t[u].expiresAt == index[u].expiresAt)
      && (u in index && u !in t ==> u == user && index[u].members <= {f})
      && forall g :: (u in t && g in t[u].members) <==> u in index && g in index[u].members && !(u == user && g == f)
  {
  }

  /** The index of user `u` in `t` is that of `s` without `f`. */
  ghost predicate IndexLoses(s: State, t: State, u: UserId, f: FamilyId) {
    && (u in t.index ==> u in s.index && t.index[u].expiresAt == s.index[u].expiresAt)
    && forall g :: g in Members(t, u) <==> g in Members(s, u) && g != f
  }

  ghost predicate IndexSame(s: State, t: State, u: UserId) {
    && (u in t.index ==> u in s.index && t.index[u].expiresAt == s.index[u].expiresAt)
    && forall g :: g in Members(t, u) <==> g in Members(s, u)
  }

  /** A logout deletes that family and no other, and takes it out of the index its GET named. */
  lemma RevokeRemovesExactly(s: State, f: FamilyId, found: Option<UserId>, g: FamilyId, u: UserId)
    ensures var t := Step(s, Revoke(f, found));
      && !Live(t, f) && (g != f ==> Lookup(t, g) == Lookup(s, g))
      && (if found == Some(u) then IndexLoses(s, t, u, f) else IndexSame(s, t, u))
      && t.now == s.now && t.issued == s.issued && t.owner == s.owner && t.pending == s.pending
  {
    if found.Some? {
      SremIs(s.index, found.value, f, u);
    }
  }

  /** The SREM behind a reuse touches one member of one index. */
  lemma UnindexRemovesExactly(s: State, f: FamilyId, user: UserId, g: FamilyId, u: UserId)
    requires Enabled(s, Unindex(user, f))
    ensures var t := Step(s, Unindex(user, f));
      && Lookup(t, g) == Lookup(s, g)
      && (if u == user then IndexLoses(s, t, u, f) else IndexSame(s, t, u))
      && t.now == s.now && t.issued == s.issued && t.owner == s.owner && t.pending == s.pending
  {
    SremIs(s.index, user, f, u);
  }

  lemma UnlistedStays(s: State, e: Event, f: FamilyId, u: UserId)
    requires Inv(s) && Enabled(s, e) && f in s.issued && f !in Members(s, u)
    ensures f !in Members(Step(s, e), u)
  {
    match e
    case Unindex(user, g) =>
      SremIs(s.index, user, g, u);
    case Revoke(g, found) =>
      if found.Some? {
        SremIs(s.index, found.value, g, u);
      }
    case _ =>
  }

  lemma {:induction false} UnlistedForEver(s: State, es: seq<Event>, f: FamilyId, u: UserId)
    requires Inv(s) && Run(s, es) && f in s.issued && f !in Members(s, u)
    ensures f !in Members(After(s, es), u)
    decreases |es|
  {
    hide Step, Enabled, Inv, Members;
    if es == [] {
    } else {
      StepKeepsInv(s, es[0]);
      IssuedStays(s, es[0], f);
      UnlistedStays(s, es[0], f, u);
      UnlistedForEver(Step(s, es[0]), es[1..], f, u);
    }
  }

  /**
   * A logout ends the session for good: in every later run every token of the family is unknown, and
   * no index holds the family, unless one did although the family was gone before the logout.
   */
  lemma LogoutEndsTheFamily(s: State, f: FamilyId, es: seq<Event>, p: Presented, u: UserId)
    requires Inv(s) && f in s.issued && p.Token? && p.family == f
    requires Run(Step(s, Revoke(f, OwnerOf(s, f))), es)
    ensures var t := Step(s, Revoke(f, OwnerOf(s, f)));
      && !Live(t, f) && !Live(After(t, es), f)
      && AllUnknown(Outcomes(t, es, p))
      && (f in Members(t, u) <==> !Live(s, f) && f in Members(s, u))
      && (Live(s, f) ==> f !in Members(After(t, es), u))
  {
    var e := Revoke(f, OwnerOf(s, f));
    var t := Step(s, e);
    StepKeepsInv(s, e);
    RevokeRemovesExactly(s, f, OwnerOf(s, f), f, u);
    assert Live(s, f) && f in Members(s, u) ==> OwnerOf(s, f) == Some(u) by {
      OnlyOwnerLists(s, f, u);
    }
    DeadFamilyAnswersUnknown(t, es, p);
    if Live(s, f) {
      UnlistedForEver(t, es, f, u);
    }
  }

  lemma OnlyOwnerLists(s: State, f: FamilyId, u: UserId)
    requires Inv(s)
    ensures Live(s, f) && f in Members(s, u) ==> OwnerOf(s, f) == Some(u)
  {
    if Live(s, f) {
      assert Faithful(s, f);
    }
  }

  /** Exactly when a live family ends: it expires, or is reused, revoked, or read and then deleted. */
  lemma DiesExactly(s: State, e: Event, f: FamilyId)
    requires Inv(s) && Enabled(s, e) && Live(s, f)
    ensures !Live(Step(s, e), f) <==>
      match e
      case Tick(to) => s.families[f].expiresAt <= to
      case Rotate(p, _) =>
        p.Token? && p.family == f && !Current(s, p)
        && !(JustReplaced(s, p) && s.now - s.families[f].rotatedAt.value <= GRACE_MS)
      case Revoke(g, _) => g == f
      case EndAll(r) => f in s.pending[r].ids
      case _ => false
  {
    hide IndexTidy, PendingTidy;
    if e.Rotate? && e.presented.Token? {
      VerdictByHistory(s, e.presented, e.next);
    }
  }

  /**
   * A login lasts for the full time to live and no longer: the family and its user's index expire
   * together, that long from now, and no other family and no other member changes.
   */
  lemma LoginLastsItsTime(s: State, user: UserId, f: FamilyId, secret: Secret, es: seq<Event>, u: UserId)
    requires Inv(s) && Enabled(s, Issue(user, f, secret)) && Run(Step(s, Issue(user, f, secret)), es)
    ensures var t := Step(s, Issue(user, f, secret));
      && Live(t, f) && Current(t, Token(f, secret)) && t.families[f].user == user
      && t.families[f].expiresAt == s.now + s.ttl
      && user in t.index && t.index[user].expiresAt == s.now + s.ttl
      && (forall g :: g in Members(t, u) <==> g in Members(s, u) || (u == user && g == f))
      && (forall g :: g != f ==> Lookup(t, g) == Lookup(s, g))
      && (Live(After(t, es), f) ==> After(t, es).now < s.now + s.ttl)
  {
    var t := Step(s, Issue(user, f, secret));
    StepKeepsInv(s, Issue(user, f, secret));
    ExpiryStaysPut(t, es, f);
  }

  lemma {:induction false} ExpiryStaysPut(s: State, es: seq<Event>, f: FamilyId)
    requires Inv(s) && Run(s, es) && Live(s, f)
    ensures Live(After(s, es), f) ==> After(s, es).families[f].expiresAt == s.families[f].expiresAt > After(s, es).now
    decreases |es|
  {
    if es == [] {
      assert Faithful(s, f);
    } else {
      var t := Step(s, es[0]);
      StepKeepsInv(s, es[0]);
      LiveIsIssued(s, f);
      hide Enabled;
      if Live(t, f) {
        ExpiryNeverMoves(s, es[0], f);
        ExpiryStaysPut(t, es[1..], f);
      } else {
        IssuedStays(s, es[0], f);
        DeadForEver(t, es[1..], f);
      }
    }
  }

  // ----- the grace window ---------------------------------------------------------------------

  /** Events that may change the fate of family `f` other than time passing. */
  predicate Touches(s: State, e: Event, f: FamilyId) {
    match e
    case Rotate(p, _) => p.family == f && p.Token?
    case Revoke(g, _) => g == f
    case EndAll(r) => r in s.pending && f in s.pending[r].ids
    case _ => false
  }

  predicate OnlyPresentations(s: State, es: seq<Event>, p: Presented, deadline: int)
    requires Run(s, es)
    decreases |es|
  {
    es == []
    || (&& (Touches(s, es[0], p.family) ==> es[0].Rotate? && es[0].presented == p)
        && (es[0].Tick? ==> es[0].to <= deadline)
        && OnlyPresentations(Step(s, es[0]), es[1..], p, deadline))
  }

  /** In grace: `p` was replaced, the family lives past the deadline, and so does the grace. */
  predicate InGrace(s: State, p: Presented, deadline: int) {
    && p.Token? && Live(s, p.family) && JustReplaced(s, p)
    && deadline < s.families[p.family].expiresAt
    && s.families[p.family].rotatedAt.Some? && deadline - s.families[p.family].rotatedAt.value <= GRACE_MS
  }

  lemma GraceStays(s: State, e: Event, p: Presented, deadline: int)
    requires Inv(s) && Enabled(s, e) && InGrace(s, p, deadline) && s.now <= deadline
    requires Touches(s, e, p.family) ==> e.Rotate? && e.presented == p
    requires e.Tick? ==> e.to <= deadline
    ensures InGrace(Step(s, e), p, deadline) && Step(s, e).now <= deadline
    ensures e.Rotate? && e.presented == p ==> Verdict(s, p, e.next) == Concurrent
  {
    hide IndexTidy, PendingTidy;
    assert Faithful(s, p.family);
    if e.Rotate? && e.presented == p {
      VerdictByHistory(s, p, e.next);
    }
  }

  lemma {:induction false} GraceAnswersConcurrent(s: State, es: seq<Event>, p: Presented, deadline: int)
    requires Inv(s) && Run(s, es) && InGrace(s, p, deadline) && s.now <= deadline
    requires OnlyPresentations(s, es, p, deadline)
    ensures forall i :: 0 <= i < |Outcomes(s, es, p)| ==> Outcomes(s, es, p)[i] == Concurrent
    decreases |es|
  {
    hide Step, Enabled, InGrace, Touches;
    if es == [] {
    } else {
      StepKeepsInv(s, es[0]);
      GraceStays(s, es[0], p, deadline);
      GraceAnswersConcurrent(Step(s, es[0]), es[1..], p, deadline);
    }
  }

  /**
   * However often the current token is presented inside the grace window, with nothing else
   * happening to the family, the first presentation rotates and all the others are concurrent.
   */
  lemma {:induction false} OneRotatesOthersConcurrent(s: State, es: seq<Event>, p: Presented, deadline: int)
    requires Inv(s) && Run(s, es) && p.Token? && Live(s, p.family) && Current(s, p)
    requires s.now <= deadline < s.families[p.family].expiresAt && deadline - s.now <= GRACE_MS
    requires OnlyPresentations(s, es, p, deadline)
    ensures var os := Outcomes(s, es, p);
      && (os != [] ==> os[0].Rotated?)
      && forall i :: 1 <= i < |os| ==> os[i] == Concurrent
    decreases |es|
  {
    hide IndexTidy, PendingTidy;
    if es == [] {
    } else {
      var t := Step(s, es[0]);
      StepKeepsInv(s, es[0]);
      if es[0].Rotate? && es[0].presented == p {
        VerdictByHistory(s, p, es[0].next);
        assert Faithful(s, p.family);
        assert InGrace(t, p, deadline);
        GraceAnswersConcurrent(t, es[1..], p, deadline);
      } else {
        CurrentStays(s, es[0], p, deadline);
        OneRotatesOthersConcurrent(t, es[1..], p, deadline);
      }
    }
  }

  lemma CurrentStays(s: State, e: Event, p: Presented, deadline: int)
    requires Inv(s) && Enabled(s, e) && p.Token? && Live(s, p.family) && Current(s, p)
    requires s.now <= deadline < s.families[p.family].expiresAt
    requires !Touches(s, e, p.family) && (e.Tick? ==> e.to <= deadline)
    ensures var t := Step(s, e);
      Live(t, p.family) && Current(t, p) && t.families[p.family] == s.families[p.family]
      && s.now <= t.now <= deadline
  {
    hide IndexTidy, PendingTidy;
    assert Faithful(s, p.family);
  }

  // ----- ending every session of a user -------------------------------------------------------

  /** Rotation keeps the family's own expiry; nothing ever moves it later. */
  lemma ExpiryNeverMoves(s: State, e: Event, f: FamilyId)
    requires Inv(s) && Enabled(s, e) && Live(s, f) && Live(Step(s, e), f)
    ensures Step(s, e).families[f].expiresAt == s.families[f].expiresAt
    ensures Step(s, e).families[f].user == s.families[f].user
  {
    hide IndexTidy, PendingTidy;
    assert Faithful(s, f);
  }

  /** Event `e` deletes the index of a live family that was issued after that index was read. */
  predicate Misses(s: State, e: Event, f: FamilyId) {
    && e.EndAll? && e.r in s.pending && s.pending[e.r].ids != {}
    && f in s.families && s.families[f].user == s.pending[e.r].user && f !in s.pending[e.r].known
  }

  /** Exactly when a family that stays alive drops out of its user's index, or stays out of it. */
  lemma ListingExactly(s: State, e: Event, f: FamilyId)
    requires Inv(s) && Enabled(s, e) && Live(s, f) && Live(Step(s, e), f)
    ensures Listed(Step(s, e), f) <==> Listed(s, f) && !Misses(s, e, f)
  {
    ExpiryNeverMoves(s, e, f);
    match e {
      case EndAll(_) => EndListing(s, e, f);
      case Issue(_, _, _) => IssueListing(s, e, f);
      case Tick(_) => TickListing(s, e, f);
      case Unindex(user, g) =>
        SremKeeps(s.index, user, g);
        hide IndexTidy, PendingTidy, Records;
      case Revoke(g, found) =>
        if found.Some? {
          SremKeeps(s.index, found.value, g);
        }
        hide IndexTidy, PendingTidy, Records;
      case _ =>
        hide IndexTidy, PendingTidy, Records;
    }
  }

  lemma EndListing(s: State, e: Event, f: FamilyId)
    requires PendingTidy(s) && Enabled(s, e) && e.EndAll? && Live(s, f) && Live(Step(s, e), f)
    ensures Listed(Step(s, e), f) <==> Listed(s, f) && !Misses(s, e, f)
  {
    if Listed(s, f) && s.families[f].user == s.pending[e.r].user && f in s.pending[e.r].known {
      assert KnownTo(s, e.r, f);
    }
  }

  lemma IssueListing(s: State, e: Event, f: FamilyId)
    requires Inv(s) && Enabled(s, e) && e.Issue? && Live(s, f)
    ensures Listed(Step(s, e), f) <==> Listed(s, f)
  {
    FreshIsUnlisted(s, e.family);
    hide IndexTidy, PendingTidy, Records;
  }

  lemma TickListing(s: State, e: Event, f: FamilyId)
    requires IndexTidy(s) && Enabled(s, e) && e.Tick? && Live(s, f) && Live(Step(s, e), f)
    ensures Listed(Step(s, e), f) <==> Listed(s, f)
  {
  }

  lemma IssueLists(s: State, e: Event, f: FamilyId)
    requires Inv(s) && Enabled(s, e) && !Live(s, f) && Live(Step(s, e), f)
    ensures f !in s.issued && Listed(Step(s, e), f) && !Misses(s, e, f)
  {
  }

  ghost predicate Missed(s: State, es: seq<Event>, f: FamilyId)
    requires Run(s, es)
    decreases |es|
  {
    es != [] && (Misses(s, es[0], f) || Missed(Step(s, es[0]), es[1..], f))
  }

  lemma IssuedStays(s: State, e: Event, f: FamilyId)
    requires Inv(s) && Enabled(s, e) && f in s.issued
    ensures f in Step(s, e).issued
  {
    hide IndexTidy, PendingTidy;
  }

  lemma {:induction false} ListedExactly(s: State, es: seq<Event>, f: FamilyId)
    requires Inv(s) && Run(s, es) && Live(After(s, es), f)
    ensures Listed(After(s, es), f) <==> (Live(s, f) ==> Listed(s, f)) && !Missed(s, es, f)
    decreases |es|
  {
    hide Step, Enabled, Inv, Listed, Misses;
    if es == [] {
    } else {
      var t := Step(s, es[0]);
      StepKeepsInv(s, es[0]);
      ListedExactly(t, es[1..], f);
      if Live(s, f) {
        LiveThroughout(s, es, f);
        ListingExactly(s, es[0], f);
      } else if Live(t, f) {
        IssueLists(s, es[0], f);
      } else {
        DeadMissesNothing(s, es[0], f);
      }
    }
  }

  lemma DeadMissesNothing(s: State, e: Event, f: FamilyId)
    requires !Live(s, f)
    ensures !Misses(s, e, f)
  {
  }

  lemma LiveIsIssued(s: State, f: FamilyId)
    requires Inv(s) && Live(s, f)
    ensures f in s.issued
  {
    assert Faithful(s, f);
  }

  /** A family that is live now and in the end is live in between. */
  lemma LiveThroughout(s: State, es: seq<Event>, f: FamilyId)
    requires Inv(s) && Run(s, es) && es != [] && Live(s, f) && Live(After(s, es), f)
    ensures Live(Step(s, es[0]), f)
  {
    LiveIsIssued(s, f);
    IssuedStays(s, es[0], f);
    StepKeepsInv(s, es[0]);
    if !Live(Step(s, es[0]), f) {
      DeadForEver(Step(s, es[0]), es[1..], f);
    }
  }

  lemma {:induction false} DeadForEver(s: State, es: seq<Event>, f: FamilyId)
    requires Inv(s) && Run(s, es) && f in s.issued && !Live(s, f)
    ensures !Live(After(s, es), f)
    decreases |es|
  {
    hide Step, Enabled;
    if es == [] {
    } else {
      StepKeepsInv(s, es[0]);
      DeadStays(s, es[0], f);
      DeadForEver(Step(s, es[0]), es[1..], f);
    }
  }

  lemma {:induction false} IssuedThroughout(s: State, es: seq<Event>, f: FamilyId)
    requires Inv(s) && Run(s, es) && f in s.issued
    ensures f in After(s, es).issued
    decreases |es|
  {
    hide Step, Enabled, Inv;
    if es == [] {
    } else {
      StepKeepsInv(s, es[0]);
      IssuedStays(s, es[0], f);
      IssuedThroughout(Step(s, es[0]), es[1..], f);
    }
  }

  /**
   * In every run a live family is in its user's index, and outlived by it, unless a revocation of
   * all the user's sessions read the index before the family was issued and deleted it afterwards.
   */
  lemma IndexCoversLiveFamilies(ttl: int, now: int, es: seq<Event>, f: FamilyId)
    requires ttl > 0 && Run(Fresh(ttl, now), es) && Live(After(Fresh(ttl, now), es), f)
    ensures var s := After(Fresh(ttl, now), es);
      var u := s.families[f].user;
      && (u in s.index && f in s.index[u].members <==> !Missed(Fresh(ttl, now), es, f))
      && (u in s.index && f in s.index[u].members ==> s.families[f].expiresAt <= s.index[u].expiresAt)
  {
    FreshInv(ttl, now);
    RunKeepsInv(Fresh(ttl, now), es);
    ListedExactly(Fresh(ttl, now), es, f);
    var s := After(Fresh(ttl, now), es);
    assert Listed(s, f) <==> s.families[f].user in s.index && f in s.index[s.families[f].user].members;
  }

  /** No login of a user falls between the two commands of a revocation of all that user's sessions. */
  ghost predicate NoLoginBetween(s: State, es: seq<Event>)
    requires Run(s, es)
    decreases |es|
  {
    es == []
    || (&& (es[0].EndAll? ==>
              var p := s.pending[es[0].r];
              forall f :: f in s.owner && s.owner[f] == p.user ==> f in p.known)
        && NoLoginBetween(Step(s, es[0]), es[1..]))
  }

  /** In such runs the index covers every live family. */
  lemma {:induction false} NoLoginNoMiss(s: State, es: seq<Event>, f: FamilyId)
    requires Inv(s) && Run(s, es) && NoLoginBetween(s, es)
    ensures !Missed(s, es, f)
    decreases |es|
  {
    if es == [] {
    } else {
      assert f in s.families ==> Faithful(s, f);
      StepKeepsInv(s, es[0]);
      NoLoginNoMiss(Step(s, es[0]), es[1..], f);
    }
  }

  /** The family is gone, or among the ids that revocation `r` is about to delete. */
  predicate Doomed(s: State, r: Revoker, f: FamilyId) {
    f in s.issued && r in s.pending && (!Live(s, f) || f in s.pending[r].ids)
  }

  lemma DoomedStays(s: State, e: Event, r: Revoker, f: FamilyId)
    requires Inv(s) && Enabled(s, e) && Doomed(s, r, f) && e != EndAll(r)
    ensures Doomed(Step(s, e), r, f)
  {
    IssuedStays(s, e, f);
    if !Live(s, f) {
      DeadStays(s, e, f);
    }
  }

  lemma {:induction false} DoomedThroughout(s: State, es: seq<Event>, r: Revoker, f: FamilyId)
    requires Inv(s) && Run(s, es) && Doomed(s, r, f) && EndAll(r) !in es
    ensures Inv(After(s, es)) && Doomed(After(s, es), r, f)
    decreases |es|
  {
    hide Step, Enabled, Inv, Doomed;
    if es == [] {
    } else {
      assert es[0] in es;
      StepKeepsInv(s, es[0]);
      DoomedStays(s, es[0], r, f);
      DoomedThroughout(Step(s, es[0]), es[1..], r, f);
    }
  }

  /**
   * A password change ends all of the user's sessions: every token issued before the index was read,
   * of a family the index held, is unknown for ever once the delete is done, whatever falls between.
   */
  lemma RevokeAllEndsEverySession(s: State, r: Revoker, user: UserId, between: seq<Event>, es: seq<Event>, p: Presented)
    requires Inv(s) && r !in s.pending && Run(Step(s, ReadAll(r, user)), between) && EndAll(r) !in between
    requires var t := After(Step(s, ReadAll(r, user)), between);
      Enabled(t, EndAll(r)) && Run(Step(t, EndAll(r)), es)
    requires p.Token? && p.family in s.owner && s.owner[p.family] == user && (Live(s, p.family) ==> Listed(s, p.family))
    ensures var t := Step(After(Step(s, ReadAll(r, user)), between), EndAll(r));
      AllUnknown(Outcomes(t, es, p)) && !Live(After(t, es), p.family)
  {
    var f, s1 := p.family, Step(s, ReadAll(r, user));
    assert Doomed(s1, r, f) by {
      assert Live(s, f) ==> Faithful(s, f);
    }
    StepKeepsInv(s, ReadAll(r, user));
    DoomedThroughout(s1, between, r, f);
    var t := After(s1, between);
    EndAllEnds(t, r, f);
    StepKeepsInv(t, EndAll(r));
    DeadFamilyAnswersUnknown(Step(t, EndAll(r)), es, p);
  }

  lemma EndAllEnds(s: State, r: Revoker, f: FamilyId)
    requires Inv(s) && Doomed(s, r, f)
    ensures f in Step(s, EndAll(r)).issued && !Live(Step(s, EndAll(r)), f)
  {
  }

  /** Nobody else's families or index change. */
  lemma RevokeAllSparesOthers(s: State, r: Revoker, f: FamilyId, u: UserId)
    requires Inv(s) && r in s.pending
    ensures var t := Step(s, EndAll(r));
      && (f in s.owner && s.owner[f] != s.pending[r].user ==> Lookup(t, f) == Lookup(s, f))
      && (u != s.pending[r].user ==> (u in t.index <==> u in s.index) && (u in s.index ==> t.index[u] == s.index[u]))
  {
  }

  /**
   * The delete leaves every live family indexed exactly when no live family of the user was issued
   * after the index was read.
   */
  lemma TwoStepRevokeAll(s: State, r: Revoker)
    requires Inv(s) && r in s.pending && s.pending[r].ids != {} && forall f :: Live(s, f) ==> Listed(s, f)
    ensures var t := Step(s, EndAll(r));
      (forall f :: Live(t, f) ==> Listed(t, f)) <==>
      (forall f :: Live(s, f) && s.families[f].user == s.pending[r].user ==> f in s.pending[r].known)
  {
    var t := Step(s, EndAll(r));
    forall f | Live(t, f) ensures Listed(t, f) <==> !Misses(s, EndAll(r), f) {
      ListingExactly(s, EndAll(r), f);
    }
    forall f | Live(s, f) && f !in s.pending[r].known ensures Live(t, f) {
    }
  }

  /** A login between the two commands leaves a session that this and the next revocation miss. */
  lemma LoginDuringRevokeAllSurvives(s: State, r: Revoker, user: UserId, f: FamilyId, secret: Secret)
    requires Inv(s) && user in s.index && r !in s.pending && Enabled(s, Issue(user, f, secret))
    ensures var t := Step(Step(Step(s, ReadAll(r, user)), Issue(user, f, secret)), EndAll(r));
      && Live(t, f) && t.families[f].user == user && !Listed(t, f)
      && Step(Step(t, ReadAll(r, user)), EndAll(r)) == t
  {
    var s1 := Step(s, ReadAll(r, user));
    var s2 := Step(s1, Issue(user, f, secret));
    assert f !in s1.pending[r].ids;
    var t := Step(s2, EndAll(r));
    assert t.pending == s.pending;
    assert Step(Step(t, ReadAll(r, user)), EndAll(r)).pending == t.pending;
  }

  // ----- the service --------------------------------------------------------------------------

  /** The rotation as the script's answer and the key it leaves, and the SREM behind a reuse. */
  lemma ScriptIsStep(s: State, p: Presented, next: Secret)
    requires Enabled(s, Rotate(p, next)) && p.Token?
    ensures var (after, answer) := Script(Lookup(s, p.family), Sha256(p.secret), Sha256(next), s.now);
      var t := s.(families := if after.Some? then s.families[p.family := after.value] else s.families - {p.family});
      var known := if p.family in s.issued then s.issued[p.family] else [];
      && Step(s, Rotate(p, next)) ==
           (if answer == Some(true) then t.(issued := s.issued[p.family := known + [next]]) else t)
      && Verdict(s, p, next) ==
           match answer
           case Some(true) => Rotated(Token(p.family, next))
           case Some(false) => Concurrent
           case None => if p.family in s.families then Reused else Unknown
    ensures forall user :: Verdict(s, p, next) == Reused ==>
      var t := Step(s, Rotate(p, next));
      && Enabled(t, Unindex(user, p.family))
      && Step(t, Unindex(user, p.family)) == t.(index := Srem(t.index, user, p.family))
  {
    if p.family in s.families {
      assert s.families[p.family := s.families[p.family]] == s.families;
    } else {
      assert s.families - {p.family} == s.families;
    }
  }

  /** The Redis keys of the refresh tokens, with the operations of the service. */
  class RefreshTokenService {
    const ttl: int
    var now: int
    var families: map<FamilyId, Family>
    var index: map<UserId, Index>
    ghost var pending: map<Revoker, Pending>
    ghost var issued: map<FamilyId, seq<Secret>>
    ghost var owner: map<FamilyId, UserId>

    ghost function View(): State
      reads this
    {
      State(ttl, now, families, index, pending, issued, owner)
    }

    constructor (ttl: int, now: int)
      ensures View() == Fresh(ttl, now)
    {
      this.ttl, this.now := ttl, now;
      families, index, pending, issued, owner := map[], map[], map[], map[], map[];
    }

    method Advance(to: int)
      requires now <= to
      modifies this
      ensures View() == Step(old(View()), Tick(to))
    {
      now := to;
      families := map f | f in families && to < families[f].expiresAt :: families[f];
      index := map u | u in index && to < index[u].expiresAt :: index[u];
    }

    method Issue(user: UserId, f: FamilyId, secret: Secret) returns (token: Presented)
      requires Enabled(View(), Event.Issue(user, f, secret))
      modifies this
      ensures View() == Step(old(View()), Event.Issue(user, f, secret))
      ensures token == Token(f, secret) && Current(View(), token) && Live(View(), f)
    {
      families := families[f := Family(user, Sha256(secret), 1, None, None, now + ttl)];
      var members := if user in index then index[user].members else {};
      index := index[user := Index(members + {f}, now + ttl)];
      issued := issued[f := [secret]];
      owner := owner[f := user];
      token := Token(f, secret);
    }

    /** The Lua script: compare, rotate, recognise a race, or destroy; one atomic step. */
    method RotateScript(f: FamilyId, presented: Digest, next: Digest) returns (answer: Option<bool>)
      modifies `families
      ensures answer == Script(Lookup(old(View()), f), presented, next, now).1
      ensures var after := Script(Lookup(old(View()), f), presented, next, now).0;
        families == if after.Some? then old(families)[f := after.value] else old(families) - {f}
    {
      if f !in families {
        assert families - {f} == families;
        return None;
      }
      var family := families[f];
      if family.hash == presented {
        family := family.(previousHash := Some(family.hash), hash := next,
                          rotatedAt := Some(now), generation := family.generation + 1);
        families := families[f := family];
        return Some(true);
      }
      var rotatedAt := if family.rotatedAt.Some? then family.rotatedAt.value else 0;
      if family.previousHash == Some(presented) && now - rotatedAt <= GRACE_MS {
        assert families[f := family] == families;
        return Some(false);
      }
      families := families - {f};
      return None;
    }

    /** One refresh: the script and, after a reuse, the removal from the user's index. */
    method Rotate(p: Presented, next: Secret) returns (outcome: Outcome)
      requires Inv(View()) && Enabled(View(), Event.Rotate(p, next))
      modifies this
      ensures outcome == Verdict(old(View()), p, next)
      ensures var t := Step(old(View()), Event.Rotate(p, next));
        View() == if outcome == Reused then Step(t, Unindex(old(View()).families[p.family].user, p.family)) else t
    {
      if p.Bare? {
        return Unknown;
      }
      var found := p.family in families;
      var user := if found then families[p.family].user else 0;
      ScriptIsStep(View(), p, next);
      hide Inv, Script, Step, Verdict, Srem;
      var answer := RotateScript(p.family, Sha256(p.secret), Sha256(next));
      match answer
      case Some(true) =>
        issued := issued[p.family := (if p.family in issued then issued[p.family] else []) + [next]];
        outcome := Rotated(Token(p.family, next));
      case Some(false) =>
        outcome := Concurrent;
      case None =>
        if found {
          index := Srem(index, user, p.family);
          outcome := Reused;
        } else {
          outcome := Unknown;
        }
    }

    /** Logout: GET for the owner, then DEL and SREM. */
    method Revoke(p: Presented)
      modifies this
      ensures View() == Step(old(View()), Event.Revoke(p.family, OwnerOf(old(View()), p.family)))
    {
      if p.family in families {
        index := Srem(index, families[p.family].user, p.family);
      }
      families := families - {p.family};
    }

    /** SMEMBERS of the user's index. */
    method ReadAll(r: Revoker, user: UserId) returns (ids: set<FamilyId>)
      requires r !in pending
      modifies `pending
      ensures View() == Step(old(View()), Event.ReadAll(r, user)) && ids == Members(old(View()), user)
      ensures pending == old(pending)[r := Pending(user, ids, issued.Keys)]
    {
      ids := if user in index then index[user].members else {};
      pending := pending[r := Pending(user, ids, issued.Keys)];
    }

    /** DEL of the families read and of the index, unless there were none. */
    method EndAll(r: Revoker, user: UserId, ids: set<FamilyId>) returns (ended: nat)
      requires r in pending && pending[r].user == user && pending[r].ids == ids
      modifies `families, `index, `pending
      ensures View() == Step(old(View()), Event.EndAll(r)) && ended == |ids|
    {
      pending := pending - {r};
      if ids != {} {
        families := families - ids;
        index := index - {user};
      }
      ended := |ids|;
    }

    /** Both commands with nothing in between. */
    method RevokeAllForUser(r: Revoker, user: UserId) returns (ended: nat)
      requires r !in pending
      modifies this
      ensures View() == Step(Step(old(View()), Event.ReadAll(r, user)), Event.EndAll(r))
      ensures ended == |Members(old(View()), user)|
    {
      var ids := ReadAll(r, user);
      ended := EndAll(r, user, ids);
    }
  }
}
