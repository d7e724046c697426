/**
 * Usage metering: counters go from a Redis hash, through the slice one flusher has drained, into
 * a database row. One event is one Redis MULTI or script, or one SQL statement; any number of
 * recorders and flushers interleave. A command that fails has no effect.
 */
module UsageMetering {
  import opened Common

  datatype Key = Key(org: string, day: int)

  datatype Tally = Tally(renders: nat, pages: nat, bytes: nat, failures: nat)

  const ZERO := Tally(0, 0, 0, 0)

  function Plus(a: Tally, b: Tally): Tally {
    Tally(a.renders + b.renders, a.pages + b.pages, a.bytes + b.bytes, a.failures + b.failures)
  }

  /** The four counters, so that a law can be stated once for each of them. */
  datatype Field = Renders | Pages | Bytes | Failures

  function Of(t: Tally, x: Field): (n: nat)
  {
    match x
    case Renders => t.renders
    case Pages => t.pages
    case Bytes => t.bytes
    case Failures => t.failures
  }

  function Entry(m: map<Key, Tally>, k: Key): Tally {
    if k in m then m[k] else ZERO
  }

  function Count(m: map<Key, Tally>, k: Key, x: Field): nat {
    Of(Entry(m, k), x)
  }

  function Add(m: map<Key, Tally>, k: Key, t: Tally): map<Key, Tally> {
    m[k := Plus(Entry(m, k), t)]
  }

  lemma AddCounts(m: map<Key, Tally>, k: Key, t: Tally, k': Key, x: Field)
    ensures Count(Add(m, k, t), k', x) == Count(m, k', x) + if k == k' then Of(t, x) else 0
  {
  }

  /**
   * One `flush` under way. `pending[0]` is the entry in hand: about to be drained, drained into
   * `slice` and about to be upserted, or failed and about to be marked dirty again.
   */
  datatype Flusher =
    | Idle
    | Draining(pending: seq<Key>)
    | Upserting(pending: seq<Key>, slice: Tally)
    | Restoring(pending: seq<Key>)

  /**
   * `live`, `dirty` (Redis) and `rows` (Postgres) are the stores. The rest records the run: what
   * was recorded, and what was lost with failed upserts and with flushers that died.
   */
  datatype Store = Store(
    live: map<Key, Tally>, dirty: set<Key>, rows: map<Key, Tally>, flushers: seq<Flusher>,
    recorded: map<Key, Tally>, lost: map<Key, Tally>)

  datatype Event =
    | Record(key: Key, pages: nat, bytes: nat, failed: bool)
    | Pop(f: nat, popped: seq<Key>)
    | Drain(f: nat)
    | DrainFails(f: nat)
    | Upsert(f: nat)
    | UpsertFails(f: nat)
    | Restore(f: nat)
    | RestoreFails(f: nat)
    | Dies(f: nat)

  const BATCH := 100

  /** What SPOP may return: up to a hundred different dirty entries, in any order. */
  ghost predicate Popped(dirty: set<Key>, popped: seq<Key>) {
    && Distinct(popped)
    && (forall k :: k in popped ==> k in dirty)
    && |popped| == Min(BATCH, |dirty|)
  }

  predicate Busy(s: Store, f: nat) {
    f < |s.flushers| && !s.flushers[f].Idle? && s.flushers[f].pending != []
  }

  ghost predicate Enabled(s: Store, e: Event) {
    match e
    case Record(_, _, _, _) => true
    case Pop(f, popped) => f < |s.flushers| && s.flushers[f].Idle? && Popped(s.dirty, popped)
    case Drain(f) => Busy(s, f) && s.flushers[f].Draining?
    case DrainFails(f) => Busy(s, f) && s.flushers[f].Draining?
    case Upsert(f) => Busy(s, f) && s.flushers[f].Upserting?
    case UpsertFails(f) => Busy(s, f) && s.flushers[f].Upserting?
    case Restore(f) => Busy(s, f) && s.flushers[f].Restoring?
    case RestoreFails(f) => Busy(s, f) && s.flushers[f].Restoring?
    case Dies(f) => f < |s.flushers|
  }

  /** The flush loop moves on to the next popped entry, or ends. */
  function Next(pending: seq<Key>): Flusher
    requires pending != []
  {
    if |pending| == 1 then Idle else Draining(pending[1..])
  }

  function Outcome(pages: nat, bytes: nat, failed: bool): Tally {
    Tally(1, pages, bytes, if failed then 1 else 0)
  }

  /** What is lost when the flusher loses the slice in hand, if it has one. */
  function GivenUp(lost: map<Key, Tally>, fl: Flusher): map<Key, Tally> {
    if fl.Upserting? && fl.pending != [] then Add(lost, fl.pending[0], fl.slice) else lost
  }

  function Step(s: Store, e: Event): Store
    requires Enabled(s, e)
  {
    match e
    case Record(k, pages, bytes, failed) =>
      var t := Outcome(pages, bytes, failed);
      s.(live := Add(s.live, k, t), dirty := s.dirty + {k},
         recorded := Add(s.recorded, k, t))
    case Pop(f, popped) =>
      s.(dirty := s.dirty - (set k | k in popped),
         flushers := s.flushers[f := if popped == [] then Idle else Draining(popped)])
    case Drain(f) =>
      var pending := s.flushers[f].pending;
      if pending[0] in s.live then
        s.(live := s.live - {pending[0]},
           flushers := s.flushers[f := Upserting(pending, s.live[pending[0]])])
      else s.(flushers := s.flushers[f := Next(pending)])
    case DrainFails(f) =>
      s.(flushers := s.flushers[f := Restoring(s.flushers[f].pending)])
    case Upsert(f) =>
      var fl := s.flushers[f];
      s.(rows := Add(s.rows, fl.pending[0], fl.slice), flushers := s.flushers[f := Next(fl.pending)])
    case UpsertFails(f) =>
      var fl := s.flushers[f];
      s.(lost := GivenUp(s.lost, fl), flushers := s.flushers[f := Restoring(fl.pending)])
    case Restore(f) =>
      var pending := s.flushers[f].pending;
      s.(dirty := s.dirty + {pending[0]}, flushers := s.flushers[f := Next(pending)])
    case RestoreFails(f) =>
      var pending := s.flushers[f].pending;
      s.(flushers := s.flushers[f := Next(pending)])
    case Dies(f) =>
      s.(lost := GivenUp(s.lost, s.flushers[f]), flushers := s.flushers[f := Idle])
  }

  function Empty(instances: nat): Store {
    Store(map[], {}, map[], seq(instances, _ => Idle), map[], map[])
  }

  ghost predicate Run(s: Store, es: seq<Event>)
    decreases |es|
  {
    es == [] || (Enabled(s, es[0]) && Run(Step(s, es[0]), es[1..]))
  }

  ghost function After(s: Store, es: seq<Event>): Store
    requires Run(s, es)
    decreases |es|
  {
    if es == [] then s else After(Step(s, es[0]), es[1..])
  }

  // ----- conservation -------------------------------------------------------------------------

  function Held(fl: Flusher, k: Key, x: Field): nat {
    if fl.Upserting? && fl.pending != [] && fl.pending[0] == k then Of(fl.slice, x) else 0
  }

  /** What the flushers have drained for `k` and not yet upserted. */
  function InFlight(fs: seq<Flusher>, k: Key, x: Field): nat {
    if fs == [] then 0 else Held(fs[0], k, x) + InFlight(fs[1..], k, x)
  }

  lemma {:induction false} InFlightUpdate(fs: seq<Flusher>, f: nat, fl: Flusher, k: Key, x: Field)
    requires f < |fs|
    ensures InFlight(fs[f := fl], k, x) == InFlight(fs, k, x) - Held(fs[f], k, x) + Held(fl, k, x)
  {
    if f == 0 {
      assert fs[f := fl][1..] == fs[1..];
    } else {
      assert fs[f := fl][1..] == fs[1..][f - 1 := fl];
      InFlightUpdate(fs[1..], f - 1, fl, k, x);
    }
  }

  /** recorded = database row + live hash + slices in flight + slices lost. */
  ghost predicate Balanced(s: Store) {
    forall k, x :: Balance(s, k, x)
  }

  predicate Balance(s: Store, k: Key, x: Field) {
    Count(s.recorded, k, x) ==
    Count(s.rows, k, x) + Count(s.live, k, x) + InFlight(s.flushers, k, x) + Count(s.lost, k, x)
  }

  lemma BalanceKept(s: Store, e: Event)
    requires Balanced(s) && Enabled(s, e)
    ensures Balanced(Step(s, e))
  {
    forall k, x ensures Balance(Step(s, e), k, x) {
      BalanceKeptFor(s, e, k, x);
    }
  }

  lemma BalanceKeptFor(s: Store, e: Event, k: Key, x: Field)
    requires Balance(s, k, x) && Enabled(s, e)
    ensures Balance(Step(s, e), k, x)
  {
    match e
    case Record(_, _, _, _) => RecordBalances(s, e, k, x);
    case Drain(_) => DrainBalances(s, e, k, x);
    case Upsert(_) => UpsertBalances(s, e, k, x);
    case UpsertFails(_) => LossBalances(s, e, k, x);
    case Dies(_) => LossBalances(s, e, k, x);
    case _ => MarkingBalances(s, e, k, x);
  }

  lemma RecordBalances(s: Store, e: Event, k: Key, x: Field)
    requires Balance(s, k, x) && e.Record?
    ensures Balance(Step(s, e), k, x)
  {
    hide Add, Of, Count;
    var t := Outcome(e.pages, e.bytes, e.failed);
    AddCounts(s.live, e.key, t, k, x);
    AddCounts(s.recorded, e.key, t, k, x);
  }

  lemma NothingInZero(x: Field)
    ensures Of(ZERO, x) == 0
  {
  }

  lemma DrainBalances(s: Store, e: Event, k: Key, x: Field)
    requires Balance(s, k, x) && Enabled(s, e) && e.Drain?
    ensures Balance(Step(s, e), k, x)
  {
    hide Add, Of;
    InFlightUpdate(s.flushers, e.f, Step(s, e).flushers[e.f], k, x);
    NothingInZero(x);
  }

  lemma UpsertBalances(s: Store, e: Event, k: Key, x: Field)
    requires Balance(s, k, x) && Enabled(s, e) && e.Upsert?
    ensures Balance(Step(s, e), k, x)
  {
    hide Add, Of, Count;
    var fl := s.flushers[e.f];
    InFlightUpdate(s.flushers, e.f, Step(s, e).flushers[e.f], k, x);
    AddCounts(s.rows, fl.pending[0], fl.slice, k, x);
  }

  lemma GivenUpCounts(lost: map<Key, Tally>, fl: Flusher, k: Key, x: Field)
    ensures Count(GivenUp(lost, fl), k, x) == Count(lost, k, x) + Held(fl, k, x)
  {
    if fl.Upserting? && fl.pending != [] {
      AddCounts(lost, fl.pending[0], fl.slice, k, x);
    }
  }

  lemma LossBalances(s: Store, e: Event, k: Key, x: Field)
    requires Balance(s, k, x) && Enabled(s, e) && (e.UpsertFails? || e.Dies?)
    ensures Balance(Step(s, e), k, x)
  {
    hide Of, Count, GivenUp;
    InFlightUpdate(s.flushers, e.f, Step(s, e).flushers[e.f], k, x);
    GivenUpCounts(s.lost, s.flushers[e.f], k, x);
  }

  lemma MarkingBalances(s: Store, e: Event, k: Key, x: Field)
    requires Balance(s, k, x) && Enabled(s, e)
    requires e.Pop? || e.DrainFails? || e.Restore? || e.RestoreFails?
    ensures Balance(Step(s, e), k, x)
  {
    hide Add, Of, Count;
    InFlightUpdate(s.flushers, e.f, Step(s, e).flushers[e.f], k, x);
  }

  // ----- what was rendered --------------------------------------------------------------------

  /** What one event reports of the counter `x` of `k`, taken from the event itself. */
  function Reported(e: Event, k: Key, x: Field): nat {
    if !e.Record? || e.key != k then 0
    else
      match x
      case Renders => 1
      case Pages => e.pages
      case Bytes => e.bytes
      case Failures => if e.failed then 1 else 0
  }

  /** The renders of `k` in these events, the pages or the bytes they made, or how many of them failed. */
  function Rendered(es: seq<Event>, k: Key, x: Field): nat {
    if es == [] then 0 else Reported(es[0], k, x) + Rendered(es[1..], k, x)
  }

  lemma RecordsReported(s: Store, e: Event, k: Key, x: Field)
    requires Enabled(s, e)
    ensures Count(Step(s, e).recorded, k, x) == Count(s.recorded, k, x) + Reported(e, k, x)
  {
    if e.Record? {
      AddCounts(s.recorded, e.key, Outcome(e.pages, e.bytes, e.failed), k, x);
    }
  }

  /** The record of a run is what its events report. */
  lemma {:induction false} RecordedIsRendered(s: Store, es: seq<Event>, k: Key, x: Field)
    requires Run(s, es)
    ensures Count(After(s, es).recorded, k, x) == Count(s.recorded, k, x) + Rendered(es, k, x)
    decreases |es|
  {
    hide Step, Enabled, Count, Reported;
    if es == [] {
    } else {
      RecordsReported(s, es[0], k, x);
      RecordedIsRendered(Step(s, es[0]), es[1..], k, x);
    }
  }

  lemma NothingRecorded(instances: nat, k: Key, x: Field)
    ensures Count(Empty(instances).recorded, k, x) == 0
  {
  }

  // ----- every live hash will be found --------------------------------------------------------

  /** The entries a flusher will still drain or mark again. */
  function Undrained(fl: Flusher): seq<Key> {
    match fl
    case Idle => []
    case Draining(pending) => pending
    case Upserting(pending, _) => if pending == [] then [] else pending[1..]
    case Restoring(pending) => pending
  }

  predicate Listed(s: Store, k: Key) {
    exists f: nat :: f < |s.flushers| && k in Undrained(s.flushers[f])
  }

  /** Some later flush, or one under way, will find the hash of `k`. */
  predicate Findable(s: Store, k: Key) {
    k in s.dirty || Listed(s, k)
  }

  /** The hash of `k` is there, and no flush will find it. */
  predicate Hidden(s: Store, k: Key) {
    k in s.live && !Findable(s, k)
  }

  /** The event takes `k` off its flusher's list for good, with the hash neither drained nor marked. */
  predicate Forgets(s: Store, e: Event, k: Key) {
    || (e.RestoreFails? && Busy(s, e.f)
        && s.flushers[e.f].pending[0] == k && k !in s.flushers[e.f].pending[1..])
    || (e.Dies? && e.f < |s.flushers| && k in Undrained(s.flushers[e.f]))
  }

  /**
   * A failed re-marking, or the death of a flusher, takes the entry off the last list it is on while
   * its hash is live and not dirty.
   */
  predicate Hides(s: Store, e: Event, k: Key) {
    && Forgets(s, e, k) && k in s.live && k !in s.dirty
    && forall g: nat :: g < |s.flushers| && g != e.f ==> k !in Undrained(s.flushers[g])
  }

  /**
   * The events that bring a hidden hash back into sight: a new record of that day, and a failed
   * upsert of a slice of that day drained earlier, whose flusher is now about to mark the day again.
   */
  predicate Finds(s: Store, e: Event, k: Key) {
    (e.Record? && e.key == k) || (e.UpsertFails? && Busy(s, e.f) && s.flushers[e.f].pending[0] == k)
  }

  lemma InList(s: Store, f: nat, k: Key)
    requires f < |s.flushers| && k in Undrained(s.flushers[f])
    ensures Listed(s, k)
  {
  }

  lemma AfterHead(pending: seq<Key>, k: Key)
    requires pending != []
    ensures Undrained(Next(pending)) == pending[1..] && (k in pending <==> k == pending[0] || k in pending[1..])
  {
    assert pending == [pending[0]] + pending[1..];
  }

  /** The loop drops an entry from its list only once it is drained, marked again or given up. */
  lemma ListGivesUp(s: Store, e: Event, k: Key)
    requires Enabled(s, e) && !e.Record? && !e.Pop? && k in Undrained(s.flushers[e.f]) && k in Step(s, e).live
    ensures var t := Step(s, e);
      && e.f < |t.flushers|
      && (k in Undrained(t.flushers[e.f]) || k in t.dirty || Forgets(s, e, k))
  {
    hide Next;
    if !e.Dies? {
      AfterHead(s.flushers[e.f].pending, k);
    }
  }

  lemma LoopFrame(s: Store, e: Event)
    requires Enabled(s, e) && !e.Record? && !e.Pop?
    ensures var t := Step(s, e);
      && e.f < |s.flushers| && t.flushers == s.flushers[e.f := t.flushers[e.f]]
      && s.dirty <= t.dirty && (e.RestoreFails? || e.Dies? ==> t.dirty == s.dirty && t.live == s.live)
      && forall k :: k in t.live ==> k in s.live && t.live[k] == s.live[k]
  {
  }

  lemma StaysFindable(s: Store, e: Event, k: Key)
    requires Enabled(s, e) && (e.Record? || e.Pop?) && k in Step(s, e).live
    requires k in s.live ==> Findable(s, k)
    ensures Findable(Step(s, e), k)
  {
    var t := Step(s, e);
    if k in s.live && Listed(s, k) {
      var f: nat :| f < |s.flushers| && k in Undrained(s.flushers[f]);
      assert k in Undrained(t.flushers[f]);
    } else if e.Pop? && k in e.popped {
      assert k in Undrained(t.flushers[e.f]);
    }
  }

  lemma LoopKeepsFindable(s: Store, e: Event, k: Key)
    requires Enabled(s, e) && !e.Record? && !e.Pop? && k in Step(s, e).live && Findable(s, k)
    ensures Findable(Step(s, e), k) || Hides(s, e, k)
  {
    hide Step, Undrained;
    var t := Step(s, e);
    LoopFrame(s, e);
    if Listed(s, k) {
      if f: nat :| f < |s.flushers| && f != e.f && k in Undrained(s.flushers[f]) {
        InList(t, f, k);
      } else {
        ListGivesUp(s, e, k);
        if k in Undrained(t.flushers[e.f]) {
          InList(t, e.f, k);
        }
      }
    }
  }

  lemma LoopHides(s: Store, e: Event, k: Key)
    requires Enabled(s, e) && Hides(s, e, k)
    ensures Hidden(Step(s, e), k)
  {
    if e.RestoreFails? {
      AfterHead(s.flushers[e.f].pending, k);
    }
    var t := Step(s, e);
    forall g: nat | g < |t.flushers| ensures k !in Undrained(t.flushers[g]) {
    }
  }

  lemma HiddenStays(s: Store, e: Event, k: Key)
    requires Enabled(s, e) && Hidden(s, k)
    ensures Hidden(Step(s, e), k) <==> !Finds(s, e, k)
    ensures !Finds(s, e, k) ==> Step(s, e).live[k] == s.live[k]
  {
    var t := Step(s, e);
    if e.Record? {
      assert t.flushers == s.flushers;
      assert Listed(t, k) ==> Listed(s, k);
    } else if Finds(s, e, k) {
      assert k in Undrained(t.flushers[e.f]);
    } else {
      forall g: nat | g < |t.flushers| ensures k !in Undrained(t.flushers[g]) {
        assert k !in Undrained(s.flushers[g]);
      }
    }
  }

  /** Exactly when one step makes a hash invisible, or keeps it so. */
  lemma HidesExactly(s: Store, e: Event, k: Key)
    requires Enabled(s, e)
    ensures Hidden(Step(s, e), k) <==> Hides(s, e, k) || (Hidden(s, k) && !Finds(s, e, k))
  {
    hide Step, Findable;
    if Hidden(s, k) {
      HiddenStays(s, e, k);
    } else if Hides(s, e, k) {
      LoopHides(s, e, k);
    } else if k in Step(s, e).live {
      if e.Record? || e.Pop? {
        StaysFindable(s, e, k);
      } else {
        LoopFrame(s, e);
        LoopKeepsFindable(s, e, k);
      }
    }
  }

  ghost predicate NeverFound(s: Store, es: seq<Event>, k: Key)
    requires Run(s, es)
    decreases |es|
  {
    es == [] || (!Finds(s, es[0], k) && NeverFound(Step(s, es[0]), es[1..], k))
  }

  /** Some step of the run hides the hash of `k`, and no later one finds it again. */
  ghost predicate LeftHidden(s: Store, es: seq<Event>, k: Key)
    requires Run(s, es)
    decreases |es|
  {
    es != []
    && ((Hides(s, es[0], k) && NeverFound(Step(s, es[0]), es[1..], k)) || LeftHidden(Step(s, es[0]), es[1..], k))
  }

  /** A hash that is invisible now was hidden by such a step, or was so all along. */
  lemma {:induction false} HiddenExactly(s: Store, es: seq<Event>, k: Key)
    requires Run(s, es)
    ensures Hidden(After(s, es), k) <==> LeftHidden(s, es, k) || (Hidden(s, k) && NeverFound(s, es, k))
    decreases |es|
  {
    hide Step, Enabled, Hidden, Hides, Finds;
    if es == [] {
    } else {
      HidesExactly(s, es[0], k);
      HiddenExactly(Step(s, es[0]), es[1..], k);
    }
  }

  /** Until then the hash stays invisible, and as it is. */
  lemma {:induction false} HiddenUntilFound(s: Store, es: seq<Event>, k: Key)
    requires Run(s, es) && Hidden(s, k) && NeverFound(s, es, k)
    ensures Hidden(After(s, es), k) && Entry(After(s, es).live, k) == Entry(s.live, k)
    decreases |es|
  {
    hide Step, Enabled, Findable, Finds;
    if es == [] {
    } else {
      HiddenStays(s, es[0], k);
      HiddenUntilFound(Step(s, es[0]), es[1..], k);
    }
  }

  lemma {:induction false} Conserved(s: Store, es: seq<Event>)
    requires Balanced(s) && Run(s, es)
    ensures Balanced(After(s, es))
    decreases |es|
  {
    hide Step, Enabled, Balanced;
    if es == [] {
    } else {
      BalanceKept(s, es[0]);
      Conserved(Step(s, es[0]), es[1..]);
    }
  }

  lemma {:induction false} IdleHoldsNothing(fs: seq<Flusher>, k: Key, x: Field)
    requires forall f :: 0 <= f < |fs| ==> fs[f].Idle?
    ensures InFlight(fs, k, x) == 0
  {
    if fs == [] {
    } else {
      IdleHoldsNothing(fs[1..], k, x);
    }
  }

  lemma EmptyBalances(instances: nat)
    ensures Balanced(Empty(instances))
  {
    var s := Empty(instances);
    forall k, x ensures Balance(s, k, x) {
      IdleHoldsNothing(s.flushers, k, x);
    }
  }

  /**
   * Over every run: what its renders report, summed up, is in the rows, in the live hashes, in the
   * flushers' hands, or was lost with failed upserts and deaths, and nothing else is anywhere; and a
   * live hash is dirty or listed by a flusher unless a failed re-marking or a death hid it and no
   * event since has brought it back into sight.
   */
  lemma MeteringConserves(instances: nat, es: seq<Event>)
    requires Run(Empty(instances), es)
    ensures var s := After(Empty(instances), es);
      && (forall k, x :: Rendered(es, k, x) ==
            Count(s.rows, k, x) + Count(s.live, k, x) + InFlight(s.flushers, k, x) + Count(s.lost, k, x))
      && (forall k, x :: Count(s.recorded, k, x) == Rendered(es, k, x))
      && (forall k :: k in s.live ==> (k !in s.dirty && !Listed(s, k) <==> LeftHidden(Empty(instances), es, k)))
  {
    EmptyBalances(instances);
    Conserved(Empty(instances), es);
    var t := After(Empty(instances), es);
    forall k, x
      ensures Count(t.recorded, k, x) == Rendered(es, k, x)
      ensures Rendered(es, k, x) ==
        Count(t.rows, k, x) + Count(t.live, k, x) + InFlight(t.flushers, k, x) + Count(t.lost, k, x)
    {
      assert Balance(t, k, x);
      RecordedIsRendered(Empty(instances), es, k, x);
      NothingRecorded(instances, k, x);
    }
    forall k | k in t.live ensures k !in t.dirty && !Listed(t, k) <==> LeftHidden(Empty(instances), es, k) {
      HiddenExactly(Empty(instances), es, k);
    }
  }

  /** Without a failed re-marking or a death no hash is ever hidden. */
  lemma {:induction false} HiddenOnlyByFailedRestoreOrDeath(s: Store, es: seq<Event>, k: Key)
    requires Run(s, es) && forall f :: RestoreFails(f) !in es && Dies(f) !in es
    ensures !LeftHidden(s, es, k)
    decreases |es|
  {
    if es == [] {
    } else {
      assert es[0] in es;
      HiddenOnlyByFailedRestoreOrDeath(Step(s, es[0]), es[1..], k);
    }
  }

  lemma RunOne(s: Store, e: Event, es: seq<Event>)
    requires Enabled(s, e) && Run(Step(s, e), es)
    ensures Run(s, [e] + es) && After(s, [e] + es) == After(Step(s, e), es)
  {
    assert ([e] + es)[1..] == es;
  }

  /** The exception is real: the drain fails, the re-marking fails, and the hash stays behind. */
  lemma FailedRestoreHidesTheHash(k: Key, pages: nat, bytes: nat)
    ensures
      var es := [Record(k, pages, bytes, false)] + ([Pop(0, [k])] + ([DrainFails(0)] + ([RestoreFails(0)] + [])));
      && Run(Empty(1), es)
      && var t := After(Empty(1), es);
        && t.dirty == {} && t.flushers == [Idle] && Entry(t.live, k) == Outcome(pages, bytes, false)
        && Hidden(t, k) && LeftHidden(Empty(1), es, k)
  {
    var s0 := Empty(1);
    var s1 := Step(s0, Record(k, pages, bytes, false));
    assert s1.dirty == {k};
    var s2 := Step(s1, Pop(0, [k]));
    assert s2.flushers == [Draining([k])] && s2.dirty == {};
    var s3 := Step(s2, DrainFails(0));
    var s4 := Step(s3, RestoreFails(0));
    assert s4.flushers == [Idle];
    RunOne(s3, RestoreFails(0), []);
    RunOne(s2, DrainFails(0), [RestoreFails(0)] + []);
    RunOne(s1, Pop(0, [k]), [DrainFails(0)] + ([RestoreFails(0)] + []));
    var es := [Pop(0, [k])] + ([DrainFails(0)] + ([RestoreFails(0)] + []));
    RunOne(s0, Record(k, pages, bytes, false), es);
    HiddenExactly(s0, [Record(k, pages, bytes, false)] + es, k);
  }

  // ----- what is lost -------------------------------------------------------------------------

  /** What one event loses of the counter `x` of `k`: the slice in hand of a failed upsert or a death. */
  ghost function Loses(s: Store, e: Event, k: Key, x: Field): nat
    requires Enabled(s, e)
  {
    if e.UpsertFails? || e.Dies? then Held(s.flushers[e.f], k, x) else 0
  }

  ghost function LostIn(s: Store, es: seq<Event>, k: Key, x: Field): nat
    requires Run(s, es)
    decreases |es|
  {
    if es == [] then 0 else Loses(s, es[0], k, x) + LostIn(Step(s, es[0]), es[1..], k, x)
  }

  lemma LosesExactly(s: Store, e: Event, k: Key, x: Field)
    requires Enabled(s, e)
    ensures Count(Step(s, e).lost, k, x) == Count(s.lost, k, x) + Loses(s, e, k, x)
  {
    if e.UpsertFails? || e.Dies? {
      GivenUpCounts(s.lost, s.flushers[e.f], k, x);
    }
  }

  /** Over every run, what is lost is exactly the slices whose upsert failed or whose flusher died. */
  lemma {:induction false} LostExactly(s: Store, es: seq<Event>, k: Key, x: Field)
    requires Run(s, es)
    ensures Count(After(s, es).lost, k, x) == Count(s.lost, k, x) + LostIn(s, es, k, x)
    decreases |es|
  {
    hide Step, Enabled, Count, Loses;
    if es == [] {
    } else {
      LosesExactly(s, es[0], k, x);
      LostExactly(Step(s, es[0]), es[1..], k, x);
    }
  }

  lemma {:induction false} LostOnlyByFailedUpsertOrDeath(s: Store, es: seq<Event>, k: Key, x: Field)
    requires Run(s, es) && forall f :: UpsertFails(f) !in es && Dies(f) !in es
    ensures LostIn(s, es, k, x) == 0
    decreases |es|
  {
    if es == [] {
    } else {
      assert es[0] in es;
      LostOnlyByFailedUpsertOrDeath(Step(s, es[0]), es[1..], k, x);
    }
  }

  /**
   * A process that dies right after SPOP leaves the hash behind unseen; one that dies between the
   * drain and the upsert takes the slice with it.
   */
  lemma DeathHidesOrLoses(k: Key, pages: nat, bytes: nat, drained: bool)
    ensures
      var es := [Record(k, pages, bytes, false)]
        + ([Pop(0, [k])] + if drained then [Drain(0)] + [Dies(0)] else [Dies(0)]);
      && Run(Empty(1), es)
      && var t := After(Empty(1), es);
        && t.dirty == {} && t.flushers == [Idle] && t.rows == map[]
        && if drained then t.live == map[] && Entry(t.lost, k) == Outcome(pages, bytes, false)
           else Entry(t.live, k) == Outcome(pages, bytes, false) && Hidden(t, k)
  {
    var s0 := Empty(1);
    var s1 := Step(s0, Record(k, pages, bytes, false));
    assert s1.dirty == {k};
    var s2 := Step(s1, Pop(0, [k]));
    assert s2.flushers == [Draining([k])] && s2.dirty == {};
    var s3 := if drained then Step(s2, Drain(0)) else s2;
    assert drained ==> s3.flushers == [Upserting([k], Outcome(pages, bytes, false))] && s3.live == map[];
    var s4 := Step(s3, Dies(0));
    assert s4.flushers == [Idle];
    RunOne(s3, Dies(0), []);
    assert [Dies(0)] + [] == [Dies(0)];
    if drained {
      RunOne(s2, Drain(0), [Dies(0)]);
    }
    var es := if drained then [Drain(0)] + [Dies(0)] else [Dies(0)];
    RunOne(s1, Pop(0, [k]), es);
    RunOne(s0, Record(k, pages, bytes, false), [Pop(0, [k])] + es);
  }

  // ----- one whole flush ----------------------------------------------------------------------

  /** What goes wrong with one entry; `restored` tells whether marking it again worked. */
  datatype Fault = NoFault | DrainFault(restored: bool) | UpsertFault(restored: bool)

  function FaultFor(faults: seq<Fault>): Fault {
    if faults == [] then NoFault else faults[0]
  }

  function Later(faults: seq<Fault>): seq<Fault> {
    if faults == [] then [] else faults[1..]
  }

  predicate InLoop(s: Store, f: nat) {
    f < |s.flushers| && (s.flushers[f].Idle? || (s.flushers[f].Draining? && s.flushers[f].pending != []))
  }

  ghost function MarkAgain(s: Store, f: nat, restored: bool): Store
    requires Busy(s, f) && s.flushers[f].Restoring?
  {
    Step(s, if restored then Restore(f) else RestoreFails(f))
  }

  /** `flushOne` for the entry in hand: drain it and, if there was anything, upsert it. */
  ghost function Attempt(s: Store, f: nat, fault: Fault): (t: Store)
    requires InLoop(s, f) && s.flushers[f].Draining?
    ensures |t.flushers| == |s.flushers|
    ensures t.flushers[f] == Next(s.flushers[f].pending)
            || (!fault.NoFault? && t.flushers[f] == Restoring(s.flushers[f].pending))
  {
    if fault.DrainFault? then Step(s, DrainFails(f))
    else
      var d := Step(s, Drain(f));
      if !d.flushers[f].Upserting? then d
      else if fault.UpsertFault? then Step(d, UpsertFails(f))
      else Step(d, Upsert(f))
  }

  /** The loop body of `flush`: the attempt, and the catch that marks the entry dirty again. */
  ghost function FlushEntry(s: Store, f: nat, fault: Fault): (t: Store)
    requires InLoop(s, f) && s.flushers[f].Draining?
    ensures |t.flushers| == |s.flushers| && t.flushers[f] == Next(s.flushers[f].pending)
  {
    var t := Attempt(s, f, fault);
    if t.flushers[f].Restoring? then MarkAgain(t, f, fault.restored) else t
  }

  function Left(fl: Flusher): nat {
    if fl.Draining? then |fl.pending| else 0
  }

  ghost function FlushLoop(s: Store, f: nat, faults: seq<Fault>): Store
    requires InLoop(s, f)
    decreases Left(s.flushers[f])
  {
    if s.flushers[f].Idle? then s
    else FlushLoop(FlushEntry(s, f, FaultFor(faults)), f, Later(faults))
  }

  ghost function Flushed(s: Store, f: nat, popped: seq<Key>, faults: seq<Fault>): Store
    requires Enabled(s, Pop(f, popped))
  {
    FlushLoop(Step(s, Pop(f, popped)), f, faults)
  }

  /** What an uninterrupted flush without failures does to one entry and to nothing else. */
  lemma QuietEntry(s: Store, f: nat)
    requires InLoop(s, f) && s.flushers[f].Draining?
    ensures var t, k := FlushEntry(s, f, NoFault), s.flushers[f].pending[0];
      && t == s.(live := s.live - {k}, rows := t.rows, flushers := s.flushers[f := Next(s.flushers[f].pending)])
      && t.rows == if k in s.live then Add(s.rows, k, s.live[k]) else s.rows
  {
    var k := s.flushers[f].pending[0];
    if k !in s.live {
      assert s.live - {k} == s.live;
    }
  }

  ghost predicate SettledFlush(s: Store, t: Store, f: nat, gone: set<Key>) {
    f < |s.flushers| && t == s.(live := s.live - gone, rows := t.rows, flushers := s.flushers[f := Idle])
  }

  lemma {:induction false} QuietLoop(s: Store, f: nat)
    requires Balanced(s) && InLoop(s, f) && s.flushers[f].Draining?
    ensures SettledFlush(s, FlushLoop(s, f, []), f, set k | k in s.flushers[f].pending)
    ensures Balanced(FlushLoop(s, f, []))
    decreases |s.flushers[f].pending|
  {
    hide Balanced, FlushEntry;
    var p := s.flushers[f].pending;
    var t := FlushEntry(s, f, NoFault);
    QuietEntry(s, f);
    QuietEntryBalances(s, f);
    assert FlushLoop(s, f, []) == FlushLoop(t, f, []);
    SplitGone(s.live, p);
    if |p| > 1 {
      QuietLoop(t, f);
    }
  }

  lemma SplitGone(live: map<Key, Tally>, p: seq<Key>)
    requires p != []
    ensures live - (set k | k in p) == (live - {p[0]}) - (set k | k in p[1..])
    ensures |p| == 1 ==> (set k | k in p) == {p[0]}
  {
    assert p == [p[0]] + p[1..];
    assert (set k | k in p) == {p[0]} + (set k | k in p[1..]);
  }

  lemma QuietEntryBalances(s: Store, f: nat)
    requires Balanced(s) && InLoop(s, f) && s.flushers[f].Draining?
    ensures Balanced(FlushEntry(s, f, NoFault))
  {
    hide Balanced;
    BalanceKept(s, Drain(f));
    var d := Step(s, Drain(f));
    if d.flushers[f].Upserting? {
      BalanceKept(d, Upsert(f));
    }
  }

  /** No flush under way, every live hash dirty: what a quiet service looks like between ticks. */
  ghost predicate Quiet(s: Store) {
    && Balanced(s)
    && (forall f :: 0 <= f < |s.flushers| ==> s.flushers[f].Idle?)
    && (forall k :: k in s.live ==> k in s.dirty)
  }

  lemma QuietFlush(s: Store, f: nat, popped: seq<Key>)
    requires Quiet(s) && Enabled(s, Pop(f, popped))
    ensures var t := Flushed(s, f, popped, []);
      && Quiet(t) && t.recorded == s.recorded && t.lost == s.lost
      && t.dirty == s.dirty - (set k | k in popped)
      && |t.dirty| == |s.dirty| - |popped|
  {
    var p := Step(s, Pop(f, popped));
    DistinctCount(popped);
    var gone := set k | k in popped;
    assert gone <= s.dirty;
    assert |s.dirty - gone| == |s.dirty| - |gone|;
    BalanceKept(s, Pop(f, popped));
    if popped == [] {
      assert FlushLoop(p, f, []) == p;
    } else {
      QuietLoop(p, f);
    }
  }

  ghost predicate OneFlush(s: Store, t: Store) {
    exists f: nat, popped: seq<Key> :: Enabled(s, Pop(f, popped)) && t == Flushed(s, f, popped, [])
  }

  /** `stores` is what uninterrupted flushes without failures or new records leave, one by one. */
  ghost predicate Flushes(stores: seq<Store>) {
    forall i :: 0 <= i < |stores| - 1 ==> OneFlush(stores[i], stores[i + 1])
  }

  lemma {:induction false} FlushesDrain(stores: seq<Store>)
    requires stores != [] && Quiet(stores[0]) && Flushes(stores)
    ensures var t := stores[|stores| - 1];
      && Quiet(t) && t.recorded == stores[0].recorded && t.lost == stores[0].lost
      && |t.dirty| == Max(0, |stores[0].dirty| - 100 * (|stores| - 1))
  {
    if |stores| == 1 {
    } else {
      assert OneFlush(stores[0], stores[0 + 1]);
      var f: nat, popped: seq<Key> :|
        Enabled(stores[0], Pop(f, popped)) && stores[1] == Flushed(stores[0], f, popped, []);
      QuietFlush(stores[0], f, popped);
      var rest := stores[1..];
      forall i | 0 <= i < |rest| - 1 ensures OneFlush(rest[i], rest[i + 1]) {
        assert OneFlush(stores[i + 1], stores[i + 1 + 1]);
      }
      FlushesDrain(rest);
    }
  }

  /**
   * ceil(dirty / 100) flushes bring the database level with what was recorded, short of exactly
   * the slices that were lost before.
   */
  lemma FlushesCatchUp(stores: seq<Store>, k: Key, x: Field)
    requires stores != [] && Quiet(stores[0]) && Flushes(stores)
    requires |stores| - 1 >= CeilDiv(|stores[0].dirty|, 100)
    ensures var t := stores[|stores| - 1];
      && t.live == map[] && t.dirty == {}
      && Count(t.rows, k, x) + Count(stores[0].lost, k, x) == Count(stores[0].recorded, k, x)
  {
    FlushesDrain(stores);
    var t := stores[|stores| - 1];
    assert Balance(t, k, x);
    IdleHoldsNothing(t.flushers, k, x);
    NothingInZero(x);
    assert t.dirty == {};
    assert t.live == map[] by {
      assert forall j :: j !in t.live;
    }
  }

  /**
   * After any run that leaves the service quiet, enough flushes make the database equal to what was
   * recorded if and only if no failed upsert and no death of the run lost anything of it.
   */
  lemma CatchUpIsCompleteIff(instances: nat, es: seq<Event>, stores: seq<Store>, k: Key, x: Field)
    requires Run(Empty(instances), es) && stores != [] && stores[0] == After(Empty(instances), es)
    requires (forall f :: 0 <= f < |stores[0].flushers| ==> stores[0].flushers[f].Idle?)
          && forall j :: !LeftHidden(Empty(instances), es, j)
    requires Flushes(stores) && |stores| - 1 >= CeilDiv(|stores[0].dirty|, 100)
    ensures var t := stores[|stores| - 1];
      Count(t.rows, k, x) == Rendered(es, k, x) <==> LostIn(Empty(instances), es, k, x) == 0
  {
    var s := stores[0];
    EmptyBalances(instances);
    Conserved(Empty(instances), es);
    forall j | j in s.live ensures j in s.dirty {
      HiddenExactly(Empty(instances), es, j);
      IdleListsNothing(s, j);
    }
    FlushesDrain(stores);
    FlushesCatchUp(stores, k, x);
    LostExactly(Empty(instances), es, k, x);
    RecordedIsRendered(Empty(instances), es, k, x);
    NothingRecorded(instances, k, x);
    NothingInZero(x);
  }

  lemma IdleListsNothing(s: Store, k: Key)
    requires forall f :: 0 <= f < |s.flushers| ==> s.flushers[f].Idle?
    ensures !Listed(s, k)
  {
  }

  /** A failed upsert is not retried: the re-marked entry has no hash left, so its slice is gone. */
  lemma FailedUpsertLosesTheSlice(k: Key, pages: nat, bytes: nat)
    ensures
      var s := Step(Empty(1), Record(k, pages, bytes, false));
      && Enabled(s, Pop(0, [k]))
      && var t := Flushed(s, 0, [k], [UpsertFault(true)]);
        && Enabled(t, Pop(0, [k]))
        && var u := Flushed(t, 0, [k], []);
          && u.rows == map[] && u.live == map[] && u.dirty == {} && u.flushers == [Idle]
          && Entry(u.recorded, k) == Outcome(pages, bytes, false) == Entry(u.lost, k)
  {
    var s := Step(Empty(1), Record(k, pages, bytes, false));
    assert s.dirty == {k};
    var p := Step(s, Pop(0, [k]));
    assert p.flushers == [Draining([k])];
    var t := FlushEntry(p, 0, UpsertFault(true));
    assert FaultFor([UpsertFault(true)]) == UpsertFault(true);
    assert t.flushers == [Idle] && t.dirty == {k} && t.live == map[];
    assert FlushLoop(p, 0, [UpsertFault(true)]) == t;
    var q := Step(t, Pop(0, [k]));
    assert q.flushers == [Draining([k])] && q.dirty == {};
    var u := FlushEntry(q, 0, NoFault);
    assert u.flushers == [Idle];
    assert FlushLoop(q, 0, []) == u;
  }

  // ----- the daily figure ---------------------------------------------------------------------

  lemma {:induction false} RowsOnlyGrow(s: Store, es: seq<Event>, k: Key, x: Field)
    requires Run(s, es)
    ensures Count(s.rows, k, x) <= Count(After(s, es).rows, k, x)
    decreases |es|
  {
    if es == [] {
    } else {
      RowsGrow(s, es[0], k, x);
      RowsOnlyGrow(Step(s, es[0]), es[1..], k, x);
    }
  }

  lemma RowsGrow(s: Store, e: Event, k: Key, x: Field)
    requires Enabled(s, e)
    ensures Count(s.rows, k, x) <= Count(Step(s, e).rows, k, x)
  {
    if e.Upsert? {
      AddCounts(s.rows, s.flushers[e.f].pending[0], s.flushers[e.f].slice, k, x);
    }
  }

  /**
   * `daily` reads the row in state `s` and the live hash later, with any events in between. It
   * never counts anything twice, and is short of the recorded amount by exactly what was lost, is
   * in a flusher's hands, or reached the row after it was read.
   */
  lemma DailyNeverOvercounts(s: Store, es: seq<Event>, k: Key, x: Field)
    requires Balanced(s) && Run(s, es)
    ensures var t := After(s, es);
      var figure := Count(s.rows, k, x) + Count(t.live, k, x);
      && figure <= Count(t.recorded, k, x)
      && (figure == Count(t.recorded, k, x) <==>
            InFlight(t.flushers, k, x) == 0 && Count(t.lost, k, x) == 0
            && Count(t.rows, k, x) == Count(s.rows, k, x))
  {
    Conserved(s, es);
    RowsOnlyGrow(s, es, k, x);
    assert Balance(After(s, es), k, x);
  }

  /** From the empty stores, and against what the renders report: rows after `before`, hashes after `es`. */
  lemma DailyNeverExceedsTheRenders(instances: nat, before: seq<Event>, es: seq<Event>, k: Key, x: Field)
    requires Run(Empty(instances), before) && Run(After(Empty(instances), before), es)
    ensures var s := After(Empty(instances), before);
      Count(s.rows, k, x) + Count(After(s, es).live, k, x) <= Rendered(before, k, x) + Rendered(es, k, x)
  {
    var s := After(Empty(instances), before);
    EmptyBalances(instances);
    Conserved(Empty(instances), before);
    DailyNeverOvercounts(s, es, k, x);
    RecordedIsRendered(Empty(instances), before, k, x);
    RecordedIsRendered(s, es, k, x);
    NothingRecorded(instances, k, x);
  }

  ghost predicate FailuresFit(m: map<Key, Tally>) {
    forall k :: k in m ==> m[k].failures <= m[k].renders
  }

  /** Failures are counted among renders wherever a counter has got to. */
  ghost predicate Plausible(s: Store) {
    && FailuresFit(s.live) && FailuresFit(s.rows)
    && forall f :: 0 <= f < |s.flushers| && s.flushers[f].Upserting? ==>
         s.flushers[f].slice.failures <= s.flushers[f].slice.renders
  }

  lemma PlausibleKept(s: Store, e: Event)
    requires Plausible(s) && Enabled(s, e)
    ensures Plausible(Step(s, e))
  {
  }

  lemma {:induction false} PlausibleThroughout(s: Store, es: seq<Event>)
    requires Plausible(s) && Run(s, es)
    ensures Plausible(After(s, es))
    decreases |es|
  {
    hide Step, Enabled, Plausible;
    if es == [] {
    } else {
      PlausibleKept(s, es[0]);
      PlausibleThroughout(Step(s, es[0]), es[1..]);
    }
  }

  /** Rows read after `before`, hashes after `es` more: a day never shows more failures than renders. */
  lemma DailyFailuresFit(instances: nat, before: seq<Event>, es: seq<Event>, k: Key)
    requires Run(Empty(instances), before) && Run(After(Empty(instances), before), es)
    ensures var s := After(Empty(instances), before);
      var t := After(s, es);
      && Entry(s.rows, k).failures <= Entry(s.rows, k).renders
      && Entry(t.live, k).failures <= Entry(t.live, k).renders
      && var figure := Plus(Entry(s.rows, k), Entry(t.live, k));
         figure.failures <= figure.renders
  {
    PlausibleThroughout(Empty(instances), before);
    PlausibleThroughout(After(Empty(instances), before), es);
  }

  datatype UsageDay = UsageDay(day: int, total: Tally)

  /** The days from `from` up to and including today, and always at least `from` itself. */
  predicate InRange(from: int, today: int, d: int) {
    from <= d <= Max(from, today)
  }

  /** The days a series shows: the whole range, and any day a row exists for. */
  predicate Shown(rows: map<Key, Tally>, org: string, from: int, today: int, d: int) {
    InRange(from, today, d) || (Key(org, d) in rows && from <= d)
  }

  function Days(series: seq<UsageDay>): seq<int> {
    seq(|series|, i requires 0 <= i < |series| => series[i].day)
  }

  lemma Consecutive(s: seq<int>, from: int, n: nat)
    requires Ascending(s) && forall d :: d in s <==> from <= d < from + n
    ensures |s| == n && forall i :: 0 <= i < n ==> s[i] == from + i
  {
    var all := seq(n, i requires 0 <= i < n => from + i);
    forall d ensures d in s <==> d in all {
      if from <= d < from + n {
        assert all[d - from] == d;
      }
    }
    AscendingUnique(s, all);
  }

  /** With no row in the future the series is exactly `days` consecutive dates; else it is longer. */
  lemma SeriesIsDense(rows: map<Key, Tally>, org: string, today: int, days: nat, series: seq<UsageDay>)
    requires days >= 1 && Ascending(Days(series))
    requires forall d :: d in Days(series) <==> Shown(rows, org, today - (days - 1), today, d)
    ensures (forall d :: Key(org, d) in rows ==> d <= today) <==>
            |series| == days && forall i :: 0 <= i < days ==> series[i].day == today - (days - 1) + i
  {
    var from := today - (days - 1);
    assert forall i :: 0 <= i < |series| ==> series[i].day == Days(series)[i];
    if forall d :: Key(org, d) in rows ==> d <= today {
      Consecutive(Days(series), from, days);
    } else {
      var d :| Key(org, d) in rows && d > today;
      assert Shown(rows, org, from, today, d);
      assert d in Days(series);
    }
  }

  /**
   * A render recorded and flushed after midnight UTC, seen by a reader whose clock is still on the
   * day before: the series has one entry more than it was asked for.
   */
  lemma RowOfTomorrowLengthensTheSeries(org: string, today: int, days: nat, series: seq<UsageDay>)
    requires days >= 1 && Ascending(Days(series))
    requires var rows := map[Key(org, today + 1) := Outcome(1, 1, false)];
      forall d :: d in Days(series) <==> Shown(rows, org, today - (days - 1), today, d)
    ensures |series| == days + 1 && series[days].day == today + 1
  {
    var from := today - (days - 1);
    assert forall d :: d in Days(series) <==> from <= d < from + (days + 1);
    Consecutive(Days(series), from, days + 1);
    assert series[days].day == Days(series)[days];
  }

  /** The metering stores with the operations the service runs on them. */
  class UsageService {
    var live: map<Key, Tally>
    var dirty: set<Key>
    var rows: map<Key, Tally>
    var flushers: seq<Flusher>
    ghost var recorded: map<Key, Tally>
    ghost var lost: map<Key, Tally>

    ghost function View(): Store
      reads this
    {
      Store(live, dirty, rows, flushers, recorded, lost)
    }

    constructor (instances: nat)
      ensures View() == Empty(instances)
    {
      live, dirty, rows, flushers := map[], {}, map[], seq(instances, _ => Idle);
      recorded, lost := map[], map[];
    }

    method RecordRender(key: Key, pages: nat, bytes: nat, failed: bool)
      modifies this
      ensures View() == Step(old(View()), Record(key, pages, bytes, failed))
      ensures var was, now := Entry(old(live), key), Entry(live, key);
        && now.renders == was.renders + 1 && now.pages == was.pages + pages && now.bytes == was.bytes + bytes
        && now.failures == was.failures + if failed then 1 else 0
    {
      var t := Outcome(pages, bytes, failed);
      live := Add(live, key, t);
      dirty := dirty + {key};
      recorded := Add(recorded, key, t);
    }

    /** SPOP: takes up to a hundred entries, whichever the server likes. */
    method PopDirty(f: nat) returns (popped: seq<Key>)
      requires f < |flushers| && flushers[f].Idle?
      modifies this
      ensures Enabled(old(View()), Pop(f, popped))
      ensures View() == Step(old(View()), Pop(f, popped))
    {
      popped := [];
      ghost var before := dirty;
      while dirty != {} && |popped| < BATCH
        invariant unchanged(`live) && unchanged(`rows) && unchanged(`flushers)
        invariant unchanged(`recorded) && unchanged(`lost)
        invariant Distinct(popped) && |popped| <= BATCH && |popped| + |dirty| == |before|
        invariant forall k :: k in before <==> k in dirty || k in popped
        invariant forall k :: k in popped ==> k !in dirty
        decreases |dirty|
      {
        var k :| k in dirty;
        dirty := dirty - {k};
        popped := popped + [k];
      }
      assert dirty == before - (set k | k in popped);
      if popped != [] {
        flushers := flushers[f := Draining(popped)];
      } else {
        assert flushers[f := Idle] == flushers;
      }
    }

    method FlushOne(f: nat, fault: Fault) returns (ok: bool)
      requires InLoop(View(), f) && flushers[f].Draining?
      modifies this
      ensures View() == Attempt(old(View()), f, fault)
      ensures ok <==> !flushers[f].Restoring?
    {
      var pending := flushers[f].pending;
      var entry := pending[0];
      ok := !fault.DrainFault?;
      if ok && entry in live {
        var drained := live[entry];
        live := live - {entry};
        flushers := flushers[f := Upserting(pending, drained)];
        if fault.UpsertFault? {
          ok := false;
          lost := Add(lost, entry, drained);
        } else {
          rows := Add(rows, entry, drained);
        }
      }
      flushers := flushers[f := if ok then Next(pending) else Restoring(pending)];
    }

    /** The catch in the flush loop: the entry goes back to the dirty set, if Redis allows. */
    method Restore(f: nat, restored: bool)
      requires Busy(View(), f) && flushers[f].Restoring?
      modifies this
      ensures View() == MarkAgain(old(View()), f, restored)
    {
      var pending := flushers[f].pending;
      if restored {
        dirty := dirty + {pending[0]};
      }
      flushers := flushers[f := Next(pending)];
    }

    /** A whole `flush`, with the faults its entries meet, and nobody else in between. */
    method Flush(f: nat, faults: seq<Fault>) returns (popped: seq<Key>)
      requires f < |flushers| && flushers[f].Idle?
      modifies this
      ensures Enabled(old(View()), Pop(f, popped))
      ensures View() == Flushed(old(View()), f, popped, faults)
    {
      popped := PopDirty(f);
      ghost var start := View();
      var rest := faults;
      while !flushers[f].Idle?
        invariant InLoop(View(), f)
        invariant FlushLoop(View(), f, rest) == FlushLoop(start, f, faults)
        decreases Left(flushers[f])
      {
        var ok := FlushOne(f, FaultFor(rest));
        if !ok {
          Restore(f, FaultFor(rest).restored);
        }
        rest := Later(rest);
      }
    }

    static method DatesFrom(from: int, today: int) returns (dates: seq<int>)
      ensures |dates| == Max(from, today) - from + 1 && forall i :: 0 <= i < |dates| ==> dates[i] == from + i
      ensures forall d :: d in dates <==> InRange(from, today, d)
    {
      dates := [from];
      var day := from;
      while day < today
        invariant from <= day <= Max(from, today)
        invariant |dates| == day - from + 1 && forall i :: 0 <= i < |dates| ==> dates[i] == from + i
      {
        day := day + 1;
        dates := dates + [day];
      }
      forall d | InRange(from, today, d) ensures d in dates {
        assert dates[d - from] == d;
      }
    }

    /** Zero for every date of the range, then the database rows over it. */
    method RowsByDate(org: string, from: int, dates: seq<int>) returns (byDate: map<int, Tally>)
      ensures forall d :: d in byDate <==> d in dates || (Key(org, d) in rows && from <= d)
      ensures forall d :: d in byDate && from <= d ==> byDate[d] == Entry(rows, Key(org, d))
      ensures forall d :: d in byDate && d < from ==> byDate[d] == ZERO
    {
      byDate := map d | d in dates :: ZERO;
      var due := set k | k in rows && k.org == org && k.day >= from;
      ghost var all := due;
      while due != {}
        invariant due <= all
        invariant forall d :: d in byDate <==> d in dates || Key(org, d) in all - due
        invariant forall d :: d in byDate ==>
          byDate[d] == if Key(org, d) in all - due then rows[Key(org, d)] else ZERO
      {
        var k :| k in due;
        byDate := byDate[k.day := rows[k]];
        due := due - {k};
      }
    }

    /** Adds the hashes that no flush has taken yet; reads without draining. */
    method MergeUnflushed(org: string, dates: seq<int>, byDate: map<int, Tally>) returns (merged: map<int, Tally>)
      requires forall d :: d in dates ==> d in byDate
      ensures merged.Keys == byDate.Keys
      ensures forall d :: d in merged ==>
        merged[d] == if d in dates then Plus(byDate[d], Entry(live, Key(org, d))) else byDate[d]
    {
      merged := byDate;
      for i := 0 to |dates|
        invariant merged.Keys == byDate.Keys
        invariant forall d :: d in merged ==>
          merged[d] == if d in dates[..i] then Plus(byDate[d], Entry(live, Key(org, d))) else byDate[d]
      {
        var d := dates[i];
        assert dates[..i + 1] == dates[..i] + [d];
        if Key(org, d) in live {
          merged := merged[d := Plus(byDate[d], live[Key(org, d)])];
        }
      }
      assert dates[..|dates|] == dates;
    }

    /**
     * The second half of `daily`: merges the hashes as they are now into rows read at some earlier
     * moment, and sorts by date.
     */
    method Series(org: string, today: int, days: int, byDate: map<int, Tally>) returns (series: seq<UsageDay>)
      requires forall d :: InRange(today - (days - 1), today, d) ==> d in byDate
      ensures Ascending(Days(series)) && forall d :: d in Days(series) <==> d in byDate
      ensures forall i :: 0 <= i < |series| ==>
        series[i].day in byDate && series[i].total == Plus(byDate[series[i].day],
          if InRange(today - (days - 1), today, series[i].day) then Entry(live, Key(org, series[i].day)) else ZERO)
    {
      var dates := DatesFrom(today - (days - 1), today);
      var merged := MergeUnflushed(org, dates, byDate);
      var sorted := SortedMembers(merged.Keys);
      assert forall i :: 0 <= i < |sorted| ==> sorted[i] in sorted;
      series := seq(|sorted|,
        i requires 0 <= i < |sorted| && sorted[i] in merged => UsageDay(sorted[i], merged[sorted[i]]));
      assert Days(series) == sorted;
    }

    /** The rolled-up rows of the last `days` days, plus what is still live, date by date. */
    method Daily(org: string, today: int, days: int) returns (series: seq<UsageDay>)
      ensures Ascending(Days(series))
      ensures forall d :: d in Days(series) <==> Shown(rows, org, today - (days - 1), today, d)
      ensures forall i :: 0 <= i < |series| ==>
        var k := Key(org, series[i].day);
        series[i].total == Plus(Entry(rows, k),
          if InRange(today - (days - 1), today, series[i].day) then Entry(live, k) else ZERO)
    {
      var from := today - (days - 1);
      var dates := DatesFrom(from, today);
      var byDate := RowsByDate(org, from, dates);
      series := Series(org, today, days, byDate);
      assert forall i :: 0 <= i < |series| ==> Days(series)[i] in Days(series);
    }
  }
}
