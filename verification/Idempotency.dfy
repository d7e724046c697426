/**
 * Idempotent synchronous renders. A claim is SET NX and, when that fails, a separate GET; a render
 * ends with fulfil (SET) or release (DEL). One step is one Redis command or the end of a render;
 * any number of requests interleave, keys expire, and a request may die at any point.
 */
module Idempotency {
  import opened Common

  /** One tenant's key: `idem:<org>:<key>`. */
  datatype Key = Key(org: nat, key: string)

  type DocId = nat

  datatype Value = InProgress | Document(id: DocId)

  datatype Entry = Entry(value: Value, expiresAt: int)

  const CLAIM_TIMEOUT_MS := 120_000

  /** Where one request stands; `Rendering` to `Releasing` is the life of its claim. */
  datatype Request =
    | NotStarted
    | Asking(key: Key)
    | Rendering(key: Key)
    | Fulfilling(key: Key, doc: DocId)
    | Releasing(key: Key)
    | Finished

  datatype Answer = Claimed | Replay(doc: DocId) | Conflict

  /**
   * `store` holds the keys that have not expired at `now`. `lapsed` records the keys that expired
   * under a live claim, and `slipped` those granted because the GET found nothing.
   */
  datatype World = World(
    now: int, ttl: int, store: map<Key, Entry>, requests: seq<Request>, lapsed: set<Key>, slipped: set<Key>)

  datatype Event =
    | Tick(to: int)
    | SetNx(r: nat, key: Key)
    | Get(r: nat)
    | RenderEnds(r: nat, doc: Option<DocId>)
    | Fulfil(r: nat, ok: bool)
    | Release(r: nat, ok: bool)
    | Die(r: nat)

  /** The key whose claim this request holds, as far as it knows. */
  function ClaimOf(q: Request): Option<Key> {
    match q
    case Rendering(k) => Some(k)
    case Fulfilling(k, _) => Some(k)
    case Releasing(k) => Some(k)
    case _ => None
  }

  predicate Claims(w: World, r: nat, k: Key) {
    r < |w.requests| && ClaimOf(w.requests[r]) == Some(k)
  }

  predicate Live(w: World, k: Key) {
    exists r: nat :: r < |w.requests| && Claims(w, r, k)
  }

  predicate Enabled(w: World, e: Event) {
    match e
    case Tick(to) => w.now <= to
    case SetNx(r, _) => r < |w.requests| && w.requests[r].NotStarted?
    case Get(r) => r < |w.requests| && w.requests[r].Asking?
    case RenderEnds(r, _) => r < |w.requests| && w.requests[r].Rendering?
    case Fulfil(r, _) => r < |w.requests| && w.requests[r].Fulfilling?
    case Release(r, _) => r < |w.requests| && w.requests[r].Releasing?
    case Die(r) => r < |w.requests|
  }

  function At(w: World, r: nat, q: Request): World
    requires r < |w.requests|
  {
    w.(requests := w.requests[r := q])
  }

  predicate Due(w: World, to: int, k: Key) {
    k in w.store && w.store[k].expiresAt <= to
  }

  function Step(w: World, e: Event): World
    requires Enabled(w, e)
  {
    match e
    case Tick(to) =>
      w.(now := to,
         store := map k | k in w.store && !Due(w, to, k) :: w.store[k],
         lapsed := w.lapsed + set k | k in w.store && Due(w, to, k) && Live(w, k))
    case SetNx(r, k) =>
      if k in w.store then At(w, r, Asking(k))
      else At(w.(store := w.store[k := Entry(InProgress, w.now + CLAIM_TIMEOUT_MS)]), r, Rendering(k))
    case Get(r) =>
      var k := w.requests[r].key;
      if k !in w.store then At(w.(slipped := w.slipped + {k}), r, Rendering(k))
      else At(w, r, Finished)
    case RenderEnds(r, doc) =>
      var k := w.requests[r].key;
      At(w, r, if doc.Some? then Fulfilling(k, doc.value) else Releasing(k))
    case Fulfil(r, ok) =>
      var q := w.requests[r];
      At(if ok then w.(store := w.store[q.key := Entry(Document(q.doc), w.now + w.ttl)]) else w, r, Finished)
    case Release(r, ok) =>
      At(if ok then w.(store := w.store - {w.requests[r].key}) else w, r, Finished)
    case Die(r) => At(w, r, Finished)
  }

  /** What `claim` answers, when the event decides it: a won SET NX, or the GET. */
  function Answered(w: World, e: Event): Option<(Key, Answer)> {
    match e
    case SetNx(r, k) => if k in w.store then None else Some((k, Claimed))
    case Get(r) =>
      if !(r < |w.requests| && w.requests[r].Asking?) then None
      else
        var k := w.requests[r].key;
        Some((k, if k !in w.store then Claimed
                 else match w.store[k].value case InProgress => Conflict case Document(d) => Replay(d)))
    case _ => None
  }

  function Start(now: int, ttl: int, requests: nat): World {
    World(now, ttl, map[], seq(requests, _ => NotStarted), {}, {})
  }

  predicate Run(w: World, es: seq<Event>)
    decreases |es|
  {
    es == [] || (Enabled(w, es[0]) && Run(Step(w, es[0]), es[1..]))
  }

  function After(w: World, es: seq<Event>): World
    requires Run(w, es)
    decreases |es|
  {
    if es == [] then w else After(Step(w, es[0]), es[1..])
  }

  // ----- mutual exclusion ---------------------------------------------------------------------

  predicate Clean(w: World, k: Key) {
    k !in w.lapsed && k !in w.slipped
  }

  /** One claim at a time, and it is the one the store knows about. */
  predicate Exclusive(w: World, k: Key) {
    && (forall r: nat, q: nat :: r < |w.requests| && q < |w.requests| && Claims(w, r, k) && Claims(w, q, k) ==> r == q)
    && (Live(w, k) ==> k in w.store && w.store[k].value == InProgress)
  }

  lemma TickKeeps(w: World, e: Event, k: Key)
    requires Enabled(w, e) && e.Tick? && Exclusive(w, k) && Clean(Step(w, e), k)
    ensures Exclusive(Step(w, e), k)
  {
    var t := Step(w, e);
    assert forall r: nat :: Claims(t, r, k) <==> Claims(w, r, k);
    if Live(t, k) {
      var r: nat :| r < |t.requests| && Claims(t, r, k);
      assert Claims(w, r, k);
      assert !Due(w, e.to, k);
    }
  }

  lemma OtherClaims(w: World, e: Event, k: Key)
    requires Enabled(w, e) && !e.Tick?
    ensures |Step(w, e).requests| == |w.requests|
    ensures forall q: nat :: q != e.r ==> (Claims(Step(w, e), q, k) <==> Claims(w, q, k))
  {
  }

  lemma ClaimKeeps(w: World, e: Event, k: Key)
    requires Enabled(w, e) && (e.SetNx? || e.Get? || e.RenderEnds?) && Exclusive(w, k) && Clean(Step(w, e), k)
    ensures Exclusive(Step(w, e), k)
  {
    var t := Step(w, e);
    OtherClaims(w, e, k);
    assert e.RenderEnds? ==> (Claims(t, e.r, k) <==> Claims(w, e.r, k));
    if Live(t, k) {
      var r: nat :| r < |t.requests| && Claims(t, r, k);
      if r != e.r || e.RenderEnds? {
        assert Claims(w, r, k);
      }
    }
  }

  lemma EndKeeps(w: World, e: Event, k: Key)
    requires Enabled(w, e) && (e.Fulfil? || e.Release? || e.Die?) && Exclusive(w, k)
    ensures Exclusive(Step(w, e), k)
  {
    var t := Step(w, e);
    OtherClaims(w, e, k);
    assert !Claims(t, e.r, k);
    if Live(t, k) {
      var r: nat :| r < |t.requests| && Claims(t, r, k);
      assert Claims(w, r, k);
      assert !Claims(w, e.r, k);
    }
  }

  lemma ExclusionKept(w: World, e: Event, k: Key)
    requires Enabled(w, e) && (Clean(w, k) ==> Exclusive(w, k))
    ensures Clean(Step(w, e), k) ==> Clean(w, k) && Exclusive(Step(w, e), k)
  {
    if Clean(Step(w, e), k) {
      match e
      case Tick(_) => TickKeeps(w, e, k);
      case Fulfil(_, _) => EndKeeps(w, e, k);
      case Release(_, _) => EndKeeps(w, e, k);
      case Die(_) => EndKeeps(w, e, k);
      case _ => ClaimKeeps(w, e, k);
    }
  }

  lemma {:induction false} RunKeepsExclusion(w: World, es: seq<Event>, k: Key)
    requires Run(w, es) && (Clean(w, k) ==> Exclusive(w, k))
    ensures Clean(After(w, es), k) ==> Exclusive(After(w, es), k)
    decreases |es|
  {
    hide Step, Enabled, Exclusive, Clean;
    if es == [] {
    } else {
      ExclusionKept(w, es[0], k);
      RunKeepsExclusion(Step(w, es[0]), es[1..], k);
    }
  }

  /**
   * Two renders of one key overlap only if the key expired under a live claim, or a claim was
   * granted because the GET found nothing.
   */
  lemma OverlapIsTraceable(now: int, ttl: int, requests: nat, es: seq<Event>, k: Key, r: nat, q: nat)
    requires Run(Start(now, ttl, requests), es)
    requires var w := After(Start(now, ttl, requests), es); r != q && Claims(w, r, k) && Claims(w, q, k)
    ensures var w := After(Start(now, ttl, requests), es); k in w.lapsed || k in w.slipped
  {
    var w := After(Start(now, ttl, requests), es);
    assert forall p: nat :: !Claims(Start(now, ttl, requests), p, k);
    RunKeepsExclusion(Start(now, ttl, requests), es, k);
    assert !Exclusive(w, k);
  }

  // ----- replay -------------------------------------------------------------------------------

  /** The key answers with this document until `until`, and no claim could change that. */
  predicate Settled(w: World, k: Key, d: DocId, until: int) {
    && k in w.store && w.store[k] == Entry(Document(d), until)
    && !Live(w, k)
  }

  lemma SettledStays(w: World, e: Event, k: Key, d: DocId, until: int)
    requires Enabled(w, e) && Settled(w, k, d, until) && (e.Tick? ==> e.to < until)
    ensures Settled(Step(w, e), k, d, until)
    ensures var a := Answered(w, e); a.Some? && a.value.0 == k ==> a.value.1 == Replay(d)
  {
    var t := Step(w, e);
    if e.Tick? {
      assert forall r: nat :: Claims(t, r, k) <==> Claims(w, r, k);
    } else {
      OtherClaims(w, e, k);
      assert !Claims(w, e.r, k);
      assert !Claims(t, e.r, k);
    }
  }

  function Answers(w: World, es: seq<Event>, k: Key): seq<Answer>
    requires Run(w, es)
    decreases |es|
  {
    if es == [] then []
    else
      var rest := Answers(Step(w, es[0]), es[1..], k);
      var a := Answered(w, es[0]);
      if a.Some? && a.value.0 == k then [a.value.1] + rest else rest
  }

  lemma {:induction false} SettledReplays(w: World, es: seq<Event>, k: Key, d: DocId, until: int)
    requires Run(w, es) && Settled(w, k, d, until)
    requires forall e :: e in es && e.Tick? ==> e.to < until
    ensures Settled(After(w, es), k, d, until)
    ensures forall a :: a in Answers(w, es, k) ==> a == Replay(d)
    decreases |es|
  {
    hide Step, Enabled, Settled, Answered;
    if es == [] {
    } else {
      assert es[0] in es;
      SettledStays(w, es[0], k, d, until);
      SettledReplays(Step(w, es[0]), es[1..], k, d, until);
    }
  }

  /** On a clean key, from a fulfil until its time to live ends, every claim replays that document. */
  lemma FulfilledKeyReplays(now: int, ttl: int, requests: nat, before: seq<Event>, r: nat, es: seq<Event>)
    requires Run(Start(now, ttl, requests), before)
    requires var w := After(Start(now, ttl, requests), before);
      && Enabled(w, Fulfil(r, true)) && Clean(w, w.requests[r].key)
      && Run(Step(w, Fulfil(r, true)), es) && forall e :: e in es && e.Tick? ==> e.to < w.now + w.ttl
    ensures var w := After(Start(now, ttl, requests), before);
      var k, d := w.requests[r].key, w.requests[r].doc;
      forall a :: a in Answers(Step(w, Fulfil(r, true)), es, k) ==> a == Replay(d)
  {
    var w := After(Start(now, ttl, requests), before);
    var k, d := w.requests[r].key, w.requests[r].doc;
    assert forall p: nat :: !Claims(Start(now, ttl, requests), p, k);
    RunKeepsExclusion(Start(now, ttl, requests), before, k);
    EndKeeps(w, Fulfil(r, true), k);
    assert Claims(w, r, k);
    var t := Step(w, Fulfil(r, true));
    OtherClaims(w, Fulfil(r, true), k);
    assert forall p: nat :: !Claims(t, p, k);
    SettledReplays(t, es, k, d, w.now + w.ttl);
  }

  /**
   * The window is real and needs no expiry: a request loses SET NX, the holder's render fails and
   * releases, the GET finds nothing and the claim is granted, and a third request claims as well.
   */
  lemma ReleaseOpensTheWindow(now: int, ttl: int, k: Key)
    ensures var es := [SetNx(0, k), SetNx(1, k), RenderEnds(0, None), Release(0, true), Get(1), SetNx(2, k)];
      && Run(Start(now, ttl, 3), es)
      && var w := After(Start(now, ttl, 3), es);
        Claims(w, 1, k) && Claims(w, 2, k) && k !in w.lapsed && w.now == now
  {
    var es := [SetNx(0, k), SetNx(1, k), RenderEnds(0, None), Release(0, true), Get(1), SetNx(2, k)];
    var w0 := Start(now, ttl, 3);
    var w1 := Step(w0, es[0]);
    var w2 := Step(w1, es[1]);
    assert w2.requests == [Rendering(k), Asking(k), NotStarted];
    var w3 := Step(w2, es[2]);
    var w4 := Step(w3, es[3]);
    assert w4.requests == [Finished, Asking(k), NotStarted] && k !in w4.store;
    var w5 := Step(w4, es[4]);
    var w6 := Step(w5, es[5]);
    assert w6.requests == [Finished, Rendering(k), Rendering(k)];
    hide Step, Enabled;
    Unfold(w5, es[5..]);
    Unfold(w4, es[4..]);
    Unfold(w3, es[3..]);
    Unfold(w2, es[2..]);
    Unfold(w1, es[1..]);
    Unfold(w0, es);
  }

  // ----- when the GET finds nothing -----------------------------------------------------------

  /** The event takes the entry of `k` away: it expires, or a request releases it. */
  predicate Removes(w: World, e: Event, k: Key)
    requires Enabled(w, e)
  {
    && k in w.store
    && ((e.Tick? && Due(w, e.to, k)) || (e.Release? && e.ok && w.requests[e.r].key == k))
  }

  /** The event puts an entry under `k`: a SET NX wins, or a fulfil. */
  predicate Sets(w: World, e: Event, k: Key)
    requires Enabled(w, e)
  {
    (e.SetNx? && e.key == k && k !in w.store) || (e.Fulfil? && e.ok && w.requests[e.r].key == k)
  }

  predicate NeverSet(w: World, es: seq<Event>, k: Key)
    requires Run(w, es)
    decreases |es|
  {
    es == [] || (!Sets(w, es[0], k) && NeverSet(Step(w, es[0]), es[1..], k))
  }

  /** Some event of the run takes the entry away, and none after it puts one back. */
  predicate Vanishes(w: World, es: seq<Event>, k: Key)
    requires Run(w, es)
    decreases |es|
  {
    es != []
    && ((Removes(w, es[0], k) && NeverSet(Step(w, es[0]), es[1..], k)) || Vanishes(Step(w, es[0]), es[1..], k))
  }

  lemma EmptiesExactly(w: World, e: Event, k: Key)
    requires Enabled(w, e)
    ensures k !in Step(w, e).store <==> Removes(w, e, k) || (k !in w.store && !Sets(w, e, k))
  {
  }

  lemma {:induction false} EmptyExactly(w: World, es: seq<Event>, k: Key)
    requires Run(w, es)
    ensures k !in After(w, es).store <==> Vanishes(w, es, k) || (k !in w.store && NeverSet(w, es, k))
    decreases |es|
  {
    hide Step, Enabled, Removes, Sets;
    if es == [] {
    } else {
      EmptiesExactly(w, es[0], k);
      EmptyExactly(Step(w, es[0]), es[1..], k);
    }
  }

  /**
   * A request that lost its SET NX is granted the claim by its GET if and only if, in between, the
   * entry expired or was released and nothing was set under the key again.
   */
  lemma GetFindsNothingIff(w: World, r: nat, k: Key, es: seq<Event>)
    requires Enabled(w, SetNx(r, k)) && k in w.store && Run(Step(w, SetNx(r, k)), es)
    requires var t := After(Step(w, SetNx(r, k)), es); r < |t.requests| && t.requests[r] == Asking(k)
    ensures var lost := Step(w, SetNx(r, k));
      Answered(After(lost, es), Get(r)) == Some((k, Claimed)) <==> Vanishes(lost, es, k)
  {
    EmptyExactly(Step(w, SetNx(r, k)), es, k);
  }

  lemma Unfold(w: World, es: seq<Event>)
    requires es != [] && Enabled(w, es[0]) && Run(Step(w, es[0]), es[1..])
    ensures Run(w, es) && After(w, es) == After(Step(w, es[0]), es[1..])
  {
  }

  // ----- the service and its caller -----------------------------------------------------------

  /** The keys that have not expired at `to`. */
  function Survivors(store: map<Key, Entry>, to: int): map<Key, Entry> {
    map k | k in store && store[k].expiresAt > to :: store[k]
  }

  /**
   * What a render under key `k` that takes `elapsed` leaves when nobody else is around; `ended` says
   * whether its last command, the fulfil or the release, works.
   */
  function Rendered(
    store: map<Key, Entry>, now: int, ttl: int, k: Key, result: Option<DocId>, elapsed: nat, ended: bool)
    : map<Key, Entry>
  {
    if k in store then store
    else
      var late := Survivors(store[k := Entry(InProgress, now + CLAIM_TIMEOUT_MS)], now + elapsed);
      if !ended then late
      else if result.Some? then late[k := Entry(Document(result.value), now + elapsed + ttl)]
      else late - {k}
  }

  /** The commands of such a request: the lost SET NX is followed by the GET only. */
  function RenderEvents(w: World, r: nat, k: Key, result: Option<DocId>, elapsed: nat, ended: bool): seq<Event> {
    [SetNx(r, k)] + if k in w.store then [Get(r)]
    else
      var last := if result.Some? then Fulfil(r, ended) else Release(r, ended);
      [Tick(w.now + elapsed)] + ([RenderEnds(r, result)] + [last])
  }

  lemma LastEvent(w: World, e: Event)
    requires Enabled(w, e)
    ensures Run(w, [e]) && After(w, [e]) == Step(w, e)
  {
    assert Run(Step(w, e), []);
    Unfold(w, [e]);
  }

  predicate IsRendered(w: World, r: nat, k: Key, result: Option<DocId>, elapsed: nat, ended: bool, es: seq<Event>)
    requires r < |w.requests|
  {
    && Run(w, es)
    && After(w, es).requests == w.requests[r := Finished]
    && After(w, es).store == Rendered(w.store, w.now, w.ttl, k, result, elapsed, ended)
  }

  lemma LosingIsARun(w: World, r: nat, k: Key, result: Option<DocId>, elapsed: nat, ended: bool)
    requires r < |w.requests| && w.requests[r].NotStarted? && k in w.store
    ensures IsRendered(w, r, k, result, elapsed, ended, [SetNx(r, k)] + [Get(r)])
  {
    hide Run, After;
    var w1 := Step(w, SetNx(r, k));
    LastEvent(w1, Get(r));
    assert ([SetNx(r, k)] + [Get(r)])[1..] == [Get(r)];
    Unfold(w, [SetNx(r, k)] + [Get(r)]);
  }

  lemma WinningIsARun(w: World, r: nat, k: Key, result: Option<DocId>, elapsed: nat, ended: bool)
    requires r < |w.requests| && w.requests[r].NotStarted? && k !in w.store
    ensures IsRendered(w, r, k, result, elapsed, ended, RenderEvents(w, r, k, result, elapsed, ended))
  {
    hide Run, After, Survivors;
    var es := RenderEvents(w, r, k, result, elapsed, ended);
    var w1 := Step(w, SetNx(r, k));
    TickLeaves(w1, w.now + elapsed);
    var w2 := Step(w1, Tick(w.now + elapsed));
    var w3 := Step(w2, RenderEnds(r, result));
    LastEvent(w3, es[3]);
    assert es[1..][1..][1..] == [es[3]];
    Unfold(w2, es[1..][1..]);
    Unfold(w1, es[1..]);
    Unfold(w, es);
  }

  /** What `IdempotencyService.Render` does is a run of the protocol. */
  lemma RenderIsARun(w: World, r: nat, k: Key, result: Option<DocId>, elapsed: nat, ended: bool)
    requires r < |w.requests| && w.requests[r].NotStarted?
    ensures var es := RenderEvents(w, r, k, result, elapsed, ended);
      && Run(w, es)
      && After(w, es).requests == w.requests[r := Finished]
      && After(w, es).store == Rendered(w.store, w.now, w.ttl, k, result, elapsed, ended)
  {
    if k in w.store {
      LosingIsARun(w, r, k, result, elapsed, ended);
    } else {
      WinningIsARun(w, r, k, result, elapsed, ended);
    }
    hide Run, After, Rendered;
  }

  /**
   * What a retry finds, that long after a render under a free key: the document until its time to
   * live ends, a free key after a failure, and the claim for two minutes when the last command failed.
   */
  lemma RetryFinds(store: map<Key, Entry>, now: int, ttl: int, k: Key, result: Option<DocId>,
                   elapsed: nat, ended: bool, pause: nat)
    requires k !in store
    ensures var later := Survivors(Rendered(store, now, ttl, k, result, elapsed, ended), now + elapsed + pause);
      && (ended && result.Some? ==>
            (k in later <==> pause < ttl) && (k in later ==> later[k].value == Document(result.value)))
      && (ended && result.None? ==> k !in later)
      && (!ended ==> (k in later <==> elapsed + pause < 120_000) && (k in later ==> later[k].value == InProgress))
      && forall j :: j != k ==>
           && (j in later <==> j in store && store[j].expiresAt > now + elapsed + pause)
           && (j in later ==> later[j] == store[j])
  {
  }

  lemma TickLeaves(w: World, to: int)
    requires w.now <= to
    ensures Step(w, Tick(to)).store == Survivors(w.store, to)
  {
  }

  /** What a synchronous render request comes to. */
  datatype Response = Created(doc: DocId) | Replayed(doc: DocId) | Refused | RenderFailed | FulfilFailed(doc: DocId)

  /** The idempotency keys, and the controller's use of them. */
  class IdempotencyService {
    var now: int
    const ttl: int
    var store: map<Key, Entry>

    constructor (now: int, ttl: int)
      ensures this.now == now && this.ttl == ttl && store == map[]
    {
      this.now, this.ttl, this.store := now, ttl, map[];
    }

    method Advance(to: int)
      requires now <= to
      modifies this
      ensures now == to && store == Survivors(old(store), to)
    {
      now := to;
      store := map k | k in store && store[k].expiresAt > to :: store[k];
    }

    /** SET key pending EX 120 NX. */
    method SetNx(k: Key) returns (won: bool)
      modifies `store
      ensures won <==> k !in old(store)
      ensures store == if won then old(store)[k := Entry(InProgress, now + 120_000)] else old(store)
    {
      won := k !in store;
      if won {
        store := store[k := Entry(InProgress, now + CLAIM_TIMEOUT_MS)];
      }
    }

    /** The GET after a lost SET NX; nothing there lets the caller through. */
    method AnswerOf(k: Key) returns (answer: Answer)
      ensures answer == Claimed <==> k !in store
      ensures answer == Conflict <==> k in store && store[k].value == InProgress
      ensures forall d :: answer == Replay(d) <==> k in store && store[k].value == Document(d)
    {
      if k !in store {
        return Claimed;
      }
      match store[k].value
      case InProgress => answer := Conflict;
      case Document(d) => answer := Replay(d);
    }

    /** SET key id EX ttl; a failure of the command is the caller's failure. */
    method Fulfil(k: Key, d: DocId, ok: bool)
      modifies `store
      ensures store == if ok then old(store)[k := Entry(Document(d), now + ttl)] else old(store)
    {
      if ok {
        store := store[k := Entry(Document(d), now + ttl)];
      }
    }

    /** DEL key; a failure of the command is swallowed, and the claim expires on its own. */
    method Release(k: Key, ok: bool)
      modifies `store
      ensures store == if ok then old(store) - {k} else old(store)
    {
      if ok {
        store := store - {k};
      }
    }

    /** `render` with nobody else around: claim, run for `elapsed`, then fulfil or release. */
    method Render(key: Option<Key>, result: Option<DocId>, elapsed: nat, ended: bool)
      returns (response: Response, ran: bool)
      modifies this
      ensures ran <==> key.None? || key.value !in old(store)
      ensures ran && result.None? ==> response == RenderFailed
      ensures ran && result.Some? ==>
        response == if key.Some? && !ended then FulfilFailed(result.value) else Created(result.value)
      ensures !ran ==>
        response == match old(store)[key.value].value case InProgress => Refused case Document(d) => Replayed(d)
      ensures now == old(now) + if ran then elapsed else 0
      ensures store == if key.Some? then Rendered(old(store), old(now), ttl, key.value, result, elapsed, ended)
                       else Survivors(old(store), now)
    {
      if key.Some? {
        var answer := Claimed;
        var won := SetNx(key.value);
        if !won {
          answer := AnswerOf(key.value);
        }
        match answer {
          case Conflict => return Refused, false;
          case Replay(d) => return Replayed(d), false;
          case Claimed =>
        }
      }
      Advance(now + elapsed);
      if result.None? {
        if key.Some? {
          Release(key.value, ended);
        }
        return RenderFailed, true;
      }
      if key.Some? {
        Fulfil(key.value, result.value, ended);
        if !ended {
          return FulfilFailed(result.value), true;
        }
      }
      return Created(result.value), true;
    }
  }
}
