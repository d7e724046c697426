/**
 * The renderer's pool of Chromium processes. One event is one uninterrupted stretch of
 * JavaScript: a call of `acquire`, a timer firing, or what a call of `withBrowser` does
 * between two awaits. Any number of calls may be under way at once.
 */
module BrowserPools {
  import opened Common

  type JobId = nat
  type Pid = nat

  datatype Config = Config(maxJobs: nat, maxRss: int)

  datatype Slot = Slot(browser: Pid, jobCount: nat, busy: bool)

  /** What a call of `withBrowser` is doing with the slot it holds. */
  datatype Stage = Running | Deciding(recycle: bool) | Launching | Closing | Stranded

  /** How far one call of `withBrowser` has got; `slot` is the local variable of that call. */
  datatype Phase = Waiting | Holding(slot: nat, stage: Stage) | Finished | Rejected

  /**
   * `slots`, `waiters` and the armed `timers` are the pool's own state; `calls` is where every
   * call stands. The rest records the run: the order of the calls, the order of the grants, who
   * timed out, how often each acquire promise was settled, and how many jobs each process got.
   */
  datatype Pool = Pool(
    slots: seq<Slot>, waiters: seq<JobId>, timers: set<JobId>, calls: map<JobId, Phase>,
    called: seq<JobId>, granted: seq<JobId>, expired: set<JobId>, settled: multiset<JobId>,
    served: map<Pid, nat>)

  datatype Event =
    | Acquire(job: JobId)
    | Timeout(job: JobId)
    | JobEnds(job: JobId, connected: bool, rss: Option<int>)
    | Decided(job: JobId)
    | LaunchFails(job: JobId)
    | Launched(job: JobId, browser: Pid)
    | Closed(job: JobId)

  function ShouldRecycle(c: Config, jobCount: nat, connected: bool, rss: Option<int>): bool {
    jobCount >= c.maxJobs || !connected || (rss.Some? && rss.value >= c.maxRss)
  }

  function FirstFree(slots: seq<Slot>): (i: nat)
    ensures i <= |slots|
    ensures forall k :: 0 <= k < i ==> slots[k].busy
    ensures i < |slots| ==> !slots[i].busy
  {
    if slots == [] || !slots[0].busy then 0 else 1 + FirstFree(slots[1..])
  }

  /** Call `job` holds slot `i`. */
  predicate At(p: Pool, job: JobId, i: nat) {
    job in p.calls && p.calls[job].Holding? && p.calls[job].slot == i
  }

  predicate Doing(p: Pool, job: JobId, stage: Stage) {
    job in p.calls && p.calls[job].Holding? && p.calls[job].slot < |p.slots| && p.calls[job].stage == stage
  }

  /** The events a state allows. The slot a call holds is always in range (see Ownership). */
  predicate Enabled(p: Pool, e: Event) {
    match e
    case Acquire(job) => job !in p.calls
    case Timeout(job) => job in p.timers
    case JobEnds(job, _, _) => Doing(p, job, Running)
    case Decided(job) => Doing(p, job, Deciding(true)) || Doing(p, job, Deciding(false))
    case LaunchFails(job) => Doing(p, job, Launching)
    case Launched(job, b) => Doing(p, job, Launching) && b !in p.served
    case Closed(job) => Doing(p, job, Closing)
  }

  /** Event `e` completes a release: the slot's next owner, or its idleness, is decided here. */
  predicate Completes(p: Pool, e: Event) {
    (e.Closed? && Doing(p, e.job, Closing)) || (e.Decided? && Doing(p, e.job, Deciding(false)))
  }

  function Grant(p: Pool, i: nat, job: JobId): Pool
    requires i < |p.slots|
  {
    var b := p.slots[i].browser;
    p.(slots := p.slots[i := p.slots[i].(busy := true)],
       timers := p.timers - {job},
       calls := p.calls[job := Holding(i, Running)],
       granted := p.granted + [job],
       settled := p.settled + multiset{job},
       served := p.served[b := (if b in p.served then p.served[b] else 0) + 1])
  }

  /** The end of `release`: the slot goes to the oldest waiter, or becomes free. */
  function HandOver(p: Pool, job: JobId): Pool
    requires Doing(p, job, Deciding(false)) || Doing(p, job, Closing)
  {
    var i := p.calls[job].slot;
    var q := p.(calls := p.calls[job := Finished]);
    if p.waiters == [] then q.(slots := p.slots[i := p.slots[i].(busy := false)])
    else Grant(q.(waiters := p.waiters[1..]), i, p.waiters[0])
  }

  function Step(c: Config, p: Pool, e: Event): Pool
    requires Enabled(p, e)
  {
    match e
    case Acquire(job) =>
      var i := FirstFree(p.slots);
      var q := p.(called := p.called + [job]);
      if i < |p.slots| then Grant(q, i, job)
      else q.(waiters := p.waiters + [job], timers := p.timers + {job}, calls := p.calls[job := Waiting])
    case Timeout(job) =>
      var i := IndexOf(p.waiters, job);
      p.(waiters := if i < |p.waiters| then p.waiters[..i] + p.waiters[i + 1..] else p.waiters,
         timers := p.timers - {job},
         calls := p.calls[job := Rejected],
         expired := p.expired + {job},
         settled := p.settled + multiset{job})
    case JobEnds(job, connected, rss) =>
      var i := p.calls[job].slot;
      var s := p.slots[i].(jobCount := p.slots[i].jobCount + 1);
      p.(slots := p.slots[i := s],
         calls := p.calls[job := Holding(i, Deciding(ShouldRecycle(c, s.jobCount, connected, rss)))])
    case Decided(job) =>
      if p.calls[job].stage.recycle then p.(calls := p.calls[job := Holding(p.calls[job].slot, Launching)])
      else HandOver(p, job)
    case LaunchFails(job) =>
      p.(calls := p.calls[job := Holding(p.calls[job].slot, Stranded)])
    case Launched(job, b) =>
      var i := p.calls[job].slot;
      p.(slots := p.slots[i := p.slots[i].(browser := b, jobCount := 0)],
         calls := p.calls[job := Holding(i, Closing)],
         served := p.served[b := 0])
    case Closed(job) =>
      HandOver(p, job)
  }

  /** The pool once `start` has finished: one idle process per slot, all different. */
  function Started(browsers: seq<Pid>): Pool {
    Pool(seq(|browsers|, i requires 0 <= i < |browsers| => Slot(browsers[i], 0, false)), [], {}, map[],
         [], [], {}, multiset{}, map b | b in browsers :: 0)
  }

  // ----- runs ---------------------------------------------------------------------------------

  predicate Run(c: Config, p: Pool, es: seq<Event>)
    decreases |es|
  {
    es == [] || (Enabled(p, es[0]) && Run(c, Step(c, p, es[0]), es[1..]))
  }

  function After(c: Config, p: Pool, es: seq<Event>): Pool
    requires Run(c, p, es)
    decreases |es|
  {
    if es == [] then p else After(c, Step(c, p, es[0]), es[1..])
  }

  // ----- the invariant ------------------------------------------------------------------------

  /** A slot is busy exactly when some call holds it, and then only one does. */
  ghost predicate Ownership(p: Pool) {
    && (forall j: JobId, i: nat :: At(p, j, i) ==> i < |p.slots| && p.slots[i].busy)
    && (forall j: JobId, k: JobId, i: nat :: At(p, j, i) && At(p, k, i) ==> j == k)
    && (forall i :: 0 <= i < |p.slots| && p.slots[i].busy ==> exists j: JobId :: At(p, j, i))
  }

  ghost predicate Queue(p: Pool) {
    && Distinct(p.waiters)
    && (forall j :: j in p.waiters <==> j in p.calls && p.calls[j].Waiting?)
    && (forall j :: j in p.waiters <==> j in p.timers)
    && (p.waiters != [] ==> forall i :: 0 <= i < |p.slots| ==> p.slots[i].busy)
  }

  /** Every acquire promise that is no longer waiting was settled exactly once. */
  ghost predicate Settlement(p: Pool) {
    && (forall j :: p.settled[j] == if j in p.calls && !p.calls[j].Waiting? then 1 else 0)
    && (forall j :: j in p.expired <==> j in p.calls && p.calls[j].Rejected?)
  }

  /** The calls that did not time out were, or will be, granted in the order they were made. */
  ghost predicate Fifo(p: Pool) {
    && Without(p.called, p.expired) == p.granted + p.waiters
    && (forall j :: j in p.called <==> j in p.calls)
    && (forall j :: j in p.granted ==> j in p.calls && !p.calls[j].Waiting? && !p.calls[j].Rejected?)
  }

  function Served(p: Pool, i: nat): nat
    requires i < |p.slots|
  {
    var b := p.slots[i].browser;
    if b in p.served then p.served[b] else 0
  }

  predicate HolderWear(c: Config, p: Pool, j: JobId, i: nat)
    requires At(p, j, i) && i < |p.slots|
  {
    var s := p.slots[i];
    match p.calls[j].stage
    case Running => Served(p, i) == s.jobCount + 1 <= c.maxJobs
    case Deciding(recycle) => Served(p, i) == s.jobCount && (!recycle ==> s.jobCount < c.maxJobs)
    case Closing => Served(p, i) == s.jobCount < c.maxJobs
    case _ => Served(p, i) == s.jobCount
  }

  /** Each process has run as many jobs as its slot counts, plus the one in progress. */
  ghost predicate Wear(c: Config, p: Pool) {
    && (forall i, k :: 0 <= i < k < |p.slots| ==> p.slots[i].browser != p.slots[k].browser)
    && (forall i :: 0 <= i < |p.slots| ==> p.slots[i].browser in p.served)
    && (forall i :: 0 <= i < |p.slots| && !p.slots[i].busy ==>
          Served(p, i) == p.slots[i].jobCount < c.maxJobs)
    && (forall j: JobId, i: nat :: At(p, j, i) && i < |p.slots| ==> HolderWear(c, p, j, i))
    && (forall b :: b in p.served ==> p.served[b] <= c.maxJobs)
  }

  ghost predicate Inv(c: Config, p: Pool) {
    Ownership(p) && Queue(p) && Settlement(p) && Fifo(p) && Wear(c, p)
  }

  lemma StartedInv(c: Config, browsers: seq<Pid>)
    requires c.maxJobs >= 1 && Distinct(browsers)
    ensures Inv(c, Started(browsers))
  {
  }

  // ----- one event keeps the invariant --------------------------------------------------------

  /** Between `p` and `q` call `lose` gives slot `i` up and call `gain` gets it; nothing else moves. */
  ghost predicate Moves(p: Pool, q: Pool, gain: Option<JobId>, lose: Option<JobId>, i: nat) {
    && |q.slots| == |p.slots|
    && (gain.Some? ==> i < |p.slots| && q.slots[i].busy && !(exists j: JobId :: At(p, j, i) && Some(j) != lose))
    && (gain.Some? ==> gain.value !in p.calls || p.calls[gain.value].Waiting?)
    && (lose.Some? ==> At(p, lose.value, i) && i < |q.slots| && q.slots[i].busy == gain.Some?)
    && (forall k :: 0 <= k < |p.slots| && (k != i || (gain.None? && lose.None?)) ==> q.slots[k].busy == p.slots[k].busy)
    && (forall j: JobId, k: nat :: At(q, j, k) <==>
          if Some(j) == gain then k == i else At(p, j, k) && Some(j) != lose)
  }

  lemma AcquireMoves(c: Config, p: Pool, job: JobId)
    requires Ownership(p) && Enabled(p, Acquire(job))
    ensures var i := FirstFree(p.slots);
      Moves(p, Step(c, p, Acquire(job)), if i < |p.slots| then Some(job) else None, None, i)
  {
  }

  lemma TimeoutMoves(c: Config, p: Pool, job: JobId)
    requires Queue(p) && Enabled(p, Timeout(job))
    ensures Moves(p, Step(c, p, Timeout(job)), None, None, 0)
  {
    assert job in p.waiters;
  }

  lemma HandOverMoves(p: Pool, job: JobId)
    requires Ownership(p) && Queue(p) && (Doing(p, job, Deciding(false)) || Doing(p, job, Closing))
    ensures var next := if p.waiters == [] then None else Some(p.waiters[0]);
      Moves(p, HandOver(p, job), next, Some(job), p.calls[job].slot)
  {
    assert At(p, job, p.calls[job].slot);
    assert p.waiters != [] ==> p.waiters[0] in p.waiters;
  }

  lemma StageMoves(c: Config, p: Pool, e: Event)
    requires Ownership(p) && Enabled(p, e) && !e.Acquire? && !e.Timeout? && !Completes(p, e)
    ensures Moves(p, Step(c, p, e), None, None, 0)
  {
    assert At(p, e.job, p.calls[e.job].slot);
  }

  /** Who holds what afterwards: at most one call gains a slot, and only a freed or idle one. */
  lemma Holders(c: Config, p: Pool, e: Event) returns (gain: Option<JobId>, lose: Option<JobId>, i: nat)
    requires Ownership(p) && Queue(p) && Enabled(p, e)
    ensures Moves(p, Step(c, p, e), gain, lose, i)
  {
    hide Ownership, Queue, Moves;
    gain, lose, i := None, None, 0;
    if e.Acquire? {
      i := FirstFree(p.slots);
      gain := if i < |p.slots| then Some(e.job) else None;
      AcquireMoves(c, p, e.job);
    } else if e.Timeout? {
      TimeoutMoves(c, p, e.job);
    } else if Completes(p, e) {
      i := p.calls[e.job].slot;
      gain, lose := if p.waiters == [] then None else Some(p.waiters[0]), Some(e.job);
      HandOverMoves(p, e.job);
    } else {
      StageMoves(c, p, e);
    }
  }

  lemma OwnershipKept(c: Config, p: Pool, e: Event)
    requires Ownership(p) && Queue(p) && Enabled(p, e)
    ensures Ownership(Step(c, p, e))
  {
    hide Step, Enabled, Queue;
    var q := Step(c, p, e);
    var gain, lose, i := Holders(c, p, e);
    forall k | 0 <= k < |q.slots| && q.slots[k].busy ensures exists j: JobId :: At(q, j, k) {
      if gain.Some? && k == i {
        assert At(q, gain.value, k);
      } else {
        var j :| At(p, j, k);
        assert At(q, j, k);
      }
    }
  }

  lemma QueueAcquire(c: Config, p: Pool, e: Event)
    requires Ownership(p) && Queue(p) && Enabled(p, e) && e.Acquire?
    ensures Queue(Step(c, p, e))
  {
  }

  lemma QueueTimeout(c: Config, p: Pool, e: Event)
    requires Queue(p) && Enabled(p, e) && e.Timeout?
    ensures Queue(Step(c, p, e))
  {
    assert e.job in p.waiters;
    SpliceMembers(p.waiters, IndexOf(p.waiters, e.job));
    hide IndexOf;
  }

  lemma QueueHandOver(p: Pool, job: JobId)
    requires Ownership(p) && Queue(p) && (Doing(p, job, Deciding(false)) || Doing(p, job, Closing))
    ensures Queue(HandOver(p, job))
  {
    assert At(p, job, p.calls[job].slot);
    if p.waiters != [] {
      assert p.waiters[0] in p.waiters;
      assert p.waiters[..0] + p.waiters[1..] == p.waiters[1..];
      SpliceMembers(p.waiters, 0);
    }
  }

  lemma QueueOther(c: Config, p: Pool, e: Event)
    requires Ownership(p) && Queue(p) && Enabled(p, e)
    requires !e.Acquire? && !e.Timeout? && !Completes(p, e)
    ensures Queue(Step(c, p, e))
  {
    assert At(p, e.job, p.calls[e.job].slot);
  }

  lemma SpliceMembers(s: seq<JobId>, i: nat)
    requires Distinct(s) && i < |s|
    ensures Distinct(s[..i] + s[i + 1..])
    ensures forall j :: j in s[..i] + s[i + 1..] <==> j in s && j != s[i]
  {
    var kept := s[..i] + s[i + 1..];
    forall j | j in s && j != s[i] ensures j in kept {
      var k :| 0 <= k < |s| && s[k] == j;
      assert kept[if k < i then k else k - 1] == j;
    }
  }

  lemma SettlementHandOver(p: Pool, job: JobId)
    requires Queue(p) && Settlement(p) && (Doing(p, job, Deciding(false)) || Doing(p, job, Closing))
    ensures Settlement(HandOver(p, job))
  {
    assert p.waiters != [] ==> p.waiters[0] in p.waiters;
  }

  lemma SettlementOther(c: Config, p: Pool, e: Event)
    requires Queue(p) && Settlement(p) && Enabled(p, e)
    requires !Completes(p, e)
    ensures Settlement(Step(c, p, e))
  {
    assert e.Timeout? ==> e.job in p.waiters;
  }

  lemma NobodyWaitsForAFreeSlot(p: Pool)
    requires Queue(p) && FirstFree(p.slots) < |p.slots|
    ensures p.waiters == []
  {
  }

  lemma OneMoreCalled(called: seq<JobId>, expired: set<JobId>, job: JobId)
    requires job !in expired
    ensures Without(called + [job], expired) == Without(called, expired) + [job]
  {
    WithoutConcat(called, [job], expired);
    assert Without([job], expired) == [job];
  }

  lemma FifoAcquire(c: Config, p: Pool, job: JobId)
    requires Queue(p) && Settlement(p) && Fifo(p) && job !in p.calls
    ensures Fifo(Step(c, p, Acquire(job)))
  {
    hide Without, FirstFree;
    assert job !in p.expired;
    OneMoreCalled(p.called, p.expired, job);
    if FirstFree(p.slots) < |p.slots| {
      NobodyWaitsForAFreeSlot(p);
    }
  }

  lemma FifoHandOver(p: Pool, job: JobId)
    requires Queue(p) && Fifo(p) && (Doing(p, job, Deciding(false)) || Doing(p, job, Closing))
    ensures Fifo(HandOver(p, job))
  {
    if p.waiters != [] {
      assert p.waiters[0] in p.waiters;
      assert p.granted + p.waiters == p.granted + [p.waiters[0]] + p.waiters[1..];
    }
  }

  lemma StrikeOne(front: seq<JobId>, job: JobId, back: seq<JobId>)
    requires Distinct(front + ([job] + back))
    ensures Without(front + ([job] + back), {job}) == front + back
  {
    var all := front + ([job] + back);
    assert all[|front|] == job;
    forall x | x in front ensures x != job {
      var k :| 0 <= k < |front| && front[k] == x;
      assert all[k] == x;
    }
    forall x | x in back ensures x != job {
      var k :| 0 <= k < |back| && back[k] == x;
      assert all[|front| + 1 + k] == x;
    }
    hide Distinct;
    WithoutConcat(front, [job] + back, {job});
    assert ([job] + back)[1..] == back;
    WithoutNothing(front, {job});
    WithoutNothing(back, {job});
  }

  lemma TimeoutKeepsOrder(p: Pool, job: JobId)
    requires Queue(p) && Fifo(p) && job in p.timers
    ensures var i := IndexOf(p.waiters, job);
      i < |p.waiters| && Without(p.called, p.expired + {job}) == p.granted + (p.waiters[..i] + p.waiters[i + 1..])
  {
    var i := IndexOf(p.waiters, job);
    assert job in p.waiters;
    assert job !in p.granted;
    assert p.waiters == p.waiters[..i] + ([job] + p.waiters[i + 1..]);
    hide Queue, Fifo, IndexOf;
    WithoutTwice(p.called, p.expired, {job});
    WithoutConcat(p.granted, p.waiters, {job});
    WithoutNothing(p.granted, {job});
    StrikeOne(p.waiters[..i], job, p.waiters[i + 1..]);
  }

  lemma FifoOther(c: Config, p: Pool, e: Event)
    requires Queue(p) && Fifo(p) && Enabled(p, e)
    requires !e.Acquire? && !e.Timeout? && !Completes(p, e)
    ensures Fifo(Step(c, p, e))
  {
  }

  lemma WearHandOver(c: Config, p: Pool, job: JobId)
    requires c.maxJobs >= 1 && Ownership(p) && Queue(p) && Wear(c, p)
    requires Doing(p, job, Deciding(false)) || Doing(p, job, Closing)
    ensures Wear(c, HandOver(p, job))
  {
    var i, q := p.calls[job].slot, HandOver(p, job);
    assert At(p, job, i);
    assert HolderWear(c, p, job, i);
    forall j: JobId, k: nat | At(q, j, k) && k < |q.slots| ensures HolderWear(c, q, j, k) {
      if p.waiters == [] || j != p.waiters[0] {
        assert At(p, j, k) && HolderWear(c, p, j, k);
      }
    }
  }

  lemma WearOther(c: Config, p: Pool, e: Event)
    requires c.maxJobs >= 1 && Ownership(p) && Wear(c, p) && Enabled(p, e)
    requires !e.Acquire? && !e.Timeout? && !Completes(p, e)
    ensures Wear(c, Step(c, p, e))
  {
    var i, q := p.calls[e.job].slot, Step(c, p, e);
    assert At(p, e.job, i) && HolderWear(c, p, e.job, i);
    forall j: JobId, k: nat | At(q, j, k) && k < |q.slots| ensures HolderWear(c, q, j, k) {
      assert At(p, j, k) && HolderWear(c, p, j, k);
    }
  }

  lemma WearAcquire(c: Config, p: Pool, job: JobId)
    requires c.maxJobs >= 1 && Ownership(p) && Queue(p) && Wear(c, p) && job !in p.calls
    ensures Wear(c, Step(c, p, Acquire(job)))
  {
    var q := Step(c, p, Acquire(job));
    forall j: JobId, k: nat | At(q, j, k) && k < |q.slots| ensures HolderWear(c, q, j, k) {
      if j != job {
        assert At(p, j, k) && HolderWear(c, p, j, k);
      }
    }
  }

  lemma WearTimeout(c: Config, p: Pool, job: JobId)
    requires Queue(p) && Wear(c, p) && job in p.timers
    ensures Wear(c, Step(c, p, Timeout(job)))
  {
    var q := Step(c, p, Timeout(job));
    assert job in p.waiters;
    forall j: JobId, k: nat | At(q, j, k) && k < |q.slots| ensures HolderWear(c, q, j, k) {
      assert At(p, j, k) && HolderWear(c, p, j, k);
    }
  }

  lemma StepKeepsInv(c: Config, p: Pool, e: Event)
    requires Inv(c, p) && c.maxJobs >= 1 && Enabled(p, e)
    ensures Inv(c, Step(c, p, e))
  {
    hide Step;
    OwnershipKept(c, p, e);
    match e
    case Acquire(job) =>
      QueueAcquire(c, p, e);
      SettlementOther(c, p, e);
      FifoAcquire(c, p, job);
      WearAcquire(c, p, job);
    case Timeout(job) =>
      QueueTimeout(c, p, e);
      SettlementOther(c, p, e);
      FifoTimeout(c, p, job);
      WearTimeout(c, p, job);
    case _ =>
      if Completes(p, e) {
        CompletesIsHandOver(c, p, e);
        HandOverKeepsInv(c, p, e.job);
      } else {
        QueueOther(c, p, e);
        SettlementOther(c, p, e);
        FifoOther(c, p, e);
        WearOther(c, p, e);
      }
  }

  lemma CompletesIsHandOver(c: Config, p: Pool, e: Event)
    requires Enabled(p, e) && Completes(p, e)
    ensures Step(c, p, e) == HandOver(p, e.job)
  {
  }

  lemma HandOverKeepsInv(c: Config, p: Pool, job: JobId)
    requires Inv(c, p) && c.maxJobs >= 1 && (Doing(p, job, Deciding(false)) || Doing(p, job, Closing))
    ensures var q := HandOver(p, job); Queue(q) && Settlement(q) && Fifo(q) && Wear(c, q)
  {
    QueueHandOver(p, job);
    SettlementHandOver(p, job);
    FifoHandOver(p, job);
    WearHandOver(c, p, job);
  }

  lemma FifoTimeout(c: Config, p: Pool, job: JobId)
    requires Queue(p) && Fifo(p) && job in p.timers
    ensures Fifo(Step(c, p, Timeout(job)))
  {
    assert job in p.waiters;
    TimeoutKeepsOrder(p, job);
  }

  lemma {:induction false} RunKeepsInv(c: Config, p: Pool, es: seq<Event>)
    requires Inv(c, p) && c.maxJobs >= 1 && Run(c, p, es)
    ensures Inv(c, After(c, p, es))
    decreases |es|
  {
    if es == [] {
    } else {
      StepKeepsInv(c, p, es[0]);
      RunKeepsInv(c, Step(c, p, es[0]), es[1..]);
    }
  }

  // ----- what every run promises --------------------------------------------------------------

  /** Ownership, settlement and wear hold after any events, in any order, from the start. */
  lemma PoolIsSafe(c: Config, browsers: seq<Pid>, es: seq<Event>)
    requires c.maxJobs >= 1 && Distinct(browsers) && Run(c, Started(browsers), es)
    ensures var p := After(c, Started(browsers), es);
      && (forall i :: 0 <= i < |p.slots| ==> (p.slots[i].busy <==> exists j: JobId :: At(p, j, i)))
      && (forall j: JobId, k: JobId, i: nat :: At(p, j, i) && At(p, k, i) ==> j == k)
      && (forall j :: j in p.calls ==> p.settled[j] == if p.calls[j].Waiting? then 0 else 1)
      && (forall b :: b in p.served ==> p.served[b] <= c.maxJobs)
  {
    StartedInv(c, browsers);
    RunKeepsInv(c, Started(browsers), es);
  }

  /** A queued call implies every slot is busy, and no later call ever overtakes an earlier one. */
  lemma GrantsAreFifo(c: Config, browsers: seq<Pid>, es: seq<Event>)
    requires c.maxJobs >= 1 && Distinct(browsers) && Run(c, Started(browsers), es)
    ensures var p := After(c, Started(browsers), es);
      && (p.waiters != [] ==> forall i :: 0 <= i < |p.slots| ==> p.slots[i].busy)
      && Without(p.called, p.expired) == p.granted + p.waiters
  {
    StartedInv(c, browsers);
    RunKeepsInv(c, Started(browsers), es);
  }

  function Releases(c: Config, p: Pool, es: seq<Event>): nat
    requires Run(c, p, es)
    decreases |es|
  {
    if es == [] then 0
    else (if Completes(p, es[0]) then 1 else 0) + Releases(c, Step(c, p, es[0]), es[1..])
  }

  predicate Queued(p: Pool, job: JobId, k: int) {
    0 <= k < |p.waiters| && p.waiters[k] == job
  }

  /** One event either grants the call, or leaves it at least as near to the front. */
  lemma WaiterMoves(c: Config, p: Pool, e: Event, job: JobId, k: nat) returns (k': nat)
    requires Queue(p) && Enabled(p, e) && Queued(p, job, k) && e != Timeout(job)
    ensures var q := Step(c, p, e);
      && p.granted <= q.granted
      && (job in q.granted || (Queued(q, job, k') && k' <= k - if Completes(p, e) then 1 else 0))
  {
    var q := Step(c, p, e);
    k' := k;
    if e.Timeout? {
      var i := IndexOf(p.waiters, e.job);
      assert e.job in p.waiters;
      k' := if i < k then k - 1 else k;
    } else if Completes(p, e) {
      if k == 0 {
        assert job in [job] && q.granted == p.granted + [job];
      } else {
        k' := k - 1;
      }
    }
  }

  lemma {:induction false} WaiterAdvances(c: Config, p: Pool, es: seq<Event>, job: JobId, k: nat) returns (k': nat)
    requires c.maxJobs >= 1 && Inv(c, p) && Run(c, p, es)
    requires Timeout(job) !in es && (job in p.granted || Queued(p, job, k))
    ensures var q := After(c, p, es);
      job in q.granted || (job !in p.granted && Queued(q, job, k') && k' + Releases(c, p, es) <= k)
    decreases |es|
  {
    hide Step, Ownership, Queue, Wear, Fifo, Settlement;
    k' := k;
    if es == [] {
    } else {
      StepKeepsInv(c, p, es[0]);
      if job in p.granted {
        GrantedStays(c, p, es[0], job);
      } else {
        k' := WaiterMoves(c, p, es[0], job, k);
      }
      k' := WaiterAdvances(c, Step(c, p, es[0]), es[1..], job, k');
    }
  }

  lemma GrantedStays(c: Config, p: Pool, e: Event, job: JobId)
    requires Enabled(p, e) && job in p.granted
    ensures job in Step(c, p, e).granted
  {
  }

  /** A call at position `k` that does not time out has been given a slot after k + 1 releases. */
  lemma WaitIsBounded(c: Config, p: Pool, es: seq<Event>, job: JobId, k: nat)
    requires c.maxJobs >= 1 && Inv(c, p) && Run(c, p, es)
    ensures Queued(p, job, k) && Timeout(job) !in es && Releases(c, p, es) >= k + 1 ==>
            job in After(c, p, es).granted
  {
    if Queued(p, job, k) && Timeout(job) !in es {
      var k' := WaiterAdvances(c, p, es, job, k);
    }
  }

  lemma StrandedStays(c: Config, p: Pool, e: Event, job: JobId)
    requires Queue(p) && Enabled(p, e) && Doing(p, job, Stranded)
    ensures Doing(Step(c, p, e), job, Stranded) && Step(c, p, e).calls[job] == p.calls[job]
  {
    assert job !in p.waiters;
    assert p.waiters != [] ==> p.waiters[0] in p.waiters;
  }

  /** A relaunch that throws leaves its slot busy for ever, serving nobody. */
  lemma {:induction false} StrandedForEver(c: Config, p: Pool, es: seq<Event>, job: JobId)
    requires c.maxJobs >= 1 && Inv(c, p) && Run(c, p, es) && Doing(p, job, Stranded)
    ensures Inv(c, After(c, p, es)) && Doing(After(c, p, es), job, Stranded)
    ensures After(c, p, es).calls[job] == p.calls[job]
    decreases |es|
  {
    hide Step, Ownership, Queue, Wear, Fifo, Settlement;
    if es == [] {
    } else {
      StepKeepsInv(c, p, es[0]);
      StrandedStays(c, p, es[0], job);
      StrandedForEver(c, Step(c, p, es[0]), es[1..], job);
    }
  }

  // ----- which processes are kept -------------------------------------------------------------

  /** The slot of `job` must get a new process before its release can complete. */
  predicate Replacing(p: Pool, job: JobId) {
    Doing(p, job, Deciding(true)) || Doing(p, job, Launching) || Doing(p, job, Stranded)
  }

  predicate Relaunches(e: Event, job: JobId) {
    e.Launched? && e.job == job
  }

  /** The event completes the release of `job`. */
  predicate CompletesFor(p: Pool, e: Event, job: JobId) {
    Completes(p, e) && e.job == job
  }

  lemma ReplacingStays(c: Config, p: Pool, e: Event, job: JobId)
    requires Queue(p) && Enabled(p, e) && Replacing(p, job) && !Relaunches(e, job)
    ensures Replacing(Step(c, p, e), job) && !CompletesFor(p, e, job)
  {
    assert job !in p.waiters;
    assert p.waiters != [] ==> p.waiters[0] in p.waiters;
  }

  lemma {:induction false} ReplacingThroughout(c: Config, p: Pool, es: seq<Event>, job: JobId)
    requires c.maxJobs >= 1 && Inv(c, p) && Run(c, p, es) && Replacing(p, job)
    requires forall e :: e in es ==> !Relaunches(e, job)
    ensures Inv(c, After(c, p, es)) && Replacing(After(c, p, es), job)
    decreases |es|
  {
    hide Step, Enabled, Ownership, Queue, Wear, Fifo, Settlement, Replacing;
    if es == [] {
    } else {
      assert es[0] in es;
      StepKeepsInv(c, p, es[0]);
      ReplacingStays(c, p, es[0], job);
      ReplacingThroughout(c, Step(c, p, es[0]), es[1..], job);
    }
  }

  lemma ReplacingCannotComplete(p: Pool, e: Event, job: JobId)
    requires Replacing(p, job)
    ensures !CompletesFor(p, e, job)
  {
  }

  /** A job has ended: by what was found, its process is to be replaced, or the release may complete. */
  lemma VerdictIs(c: Config, p: Pool, job: JobId, connected: bool, rss: Option<int>)
    requires Enabled(p, JobEnds(job, connected, rss))
    ensures var q := Step(c, p, JobEnds(job, connected, rss));
      var fit := connected && (rss == None || rss.value < c.maxRss)
                 && p.slots[p.calls[job].slot].jobCount + 1 < c.maxJobs;
      if fit then Doing(q, job, Deciding(false)) else Replacing(q, job)
  {
  }

  /**
   * A process that goes on to the next job without a relaunch was connected, within its memory, and
   * had run fewer jobs than it may.
   */
  lemma KeptProcessesAreFit(
    c: Config, p: Pool, job: JobId, connected: bool, rss: Option<int>, es: seq<Event>, last: Event)
    requires c.maxJobs >= 1 && Inv(c, p) && Enabled(p, JobEnds(job, connected, rss))
    requires Run(c, Step(c, p, JobEnds(job, connected, rss)), es)
    requires forall e :: e in es ==> !Relaunches(e, job)
    requires CompletesFor(After(c, Step(c, p, JobEnds(job, connected, rss)), es), last, job)
    ensures connected && (rss == None || rss.value < c.maxRss)
    ensures p.slots[p.calls[job].slot].jobCount + 1 == Served(p, p.calls[job].slot) < c.maxJobs
  {
    var e, i := JobEnds(job, connected, rss), p.calls[job].slot;
    var q := Step(c, p, e);
    StepKeepsInv(c, p, e);
    VerdictIs(c, p, job, connected, rss);
    assert At(p, job, i) && HolderWear(c, p, job, i);
    hide Inv, Step, Replacing, CompletesFor;
    if Replacing(q, job) {
      ReplacingThroughout(c, q, es, job);
      ReplacingCannotComplete(After(c, q, es), last, job);
    }
  }

  /** The release of `job` may complete and has not yet, or has completed. */
  predicate Keeping(p: Pool, job: JobId) {
    Doing(p, job, Deciding(false)) || (job in p.calls && p.calls[job].Finished?)
  }

  lemma KeepingStays(c: Config, p: Pool, e: Event, job: JobId)
    requires Queue(p) && Enabled(p, e) && Keeping(p, job)
    ensures Keeping(Step(c, p, e), job) && !Relaunches(e, job)
    ensures e == Decided(job) ==> Completes(p, e) && Step(c, p, e).calls[job].Finished?
    ensures e.job == job && (e.Decided? || e.Launched? || e.LaunchFails? || e.Closed?) ==> e == Decided(job)
  {
    assert job !in p.waiters;
    assert p.waiters != [] ==> p.waiters[0] in p.waiters;
  }

  lemma {:induction false} KeepingThroughout(c: Config, p: Pool, es: seq<Event>, job: JobId)
    requires c.maxJobs >= 1 && Inv(c, p) && Run(c, p, es) && Keeping(p, job)
    ensures Keeping(After(c, p, es), job)
    ensures forall e :: e in es ==> !Relaunches(e, job)
    ensures Decided(job) in es || p.calls[job].Finished? ==> After(c, p, es).calls[job].Finished?
    decreases |es|
  {
    hide Step, Enabled, Ownership, Queue, Wear, Fifo, Settlement, Completes;
    if es == [] {
    } else {
      StepKeepsInv(c, p, es[0]);
      KeepingStays(c, p, es[0], job);
      FinishedStays(c, p, es[0], job);
      KeepingThroughout(c, Step(c, p, es[0]), es[1..], job);
      assert es == [es[0]] + es[1..];
    }
  }

  lemma FinishedStays(c: Config, p: Pool, e: Event, job: JobId)
    requires Queue(p) && Enabled(p, e) && job in p.calls
    ensures job in Step(c, p, e).calls
    ensures p.calls[job].Finished? ==> Step(c, p, e).calls[job].Finished?
  {
    assert p.waiters != [] ==> p.waiters[0] in p.waiters;
    assert e.Timeout? ==> e.job in p.waiters;
  }

  /**
   * Conversely a process found connected, within its memory and with jobs to spare is not replaced:
   * the next step of its release completes it.
   */
  lemma FitProcessesAreKept(c: Config, p: Pool, job: JobId, connected: bool, rss: Option<int>, es: seq<Event>)
    requires c.maxJobs >= 1 && Inv(c, p) && Enabled(p, JobEnds(job, connected, rss))
    requires connected && (rss == None || rss.value < c.maxRss)
    requires p.slots[p.calls[job].slot].jobCount + 1 < c.maxJobs
    requires Run(c, Step(c, p, JobEnds(job, connected, rss)), es)
    ensures forall e :: e in es ==> !Relaunches(e, job)
    ensures var q := After(c, Step(c, p, JobEnds(job, connected, rss)), es);
      && job in q.calls
      && (Decided(job) in es ==> q.calls[job].Finished?)
      && (Decided(job) !in es ==> Keeping(q, job))
  {
    var e := JobEnds(job, connected, rss);
    StepKeepsInv(c, p, e);
    VerdictIs(c, p, job, connected, rss);
    KeepingThroughout(c, Step(c, p, e), es, job);
  }

  // ----- the service --------------------------------------------------------------------------

  /** The pool object. Each method is one stretch between awaits, proved against `Step`. */
  class BrowserPool {
    const config: Config
    const slots: array<Slot>
    var waiters: seq<JobId>
    var timers: set<JobId>
    var calls: map<JobId, Phase>
    ghost var called: seq<JobId>
    ghost var granted: seq<JobId>
    ghost var expired: set<JobId>
    ghost var settled: multiset<JobId>
    ghost var served: map<Pid, nat>

    ghost function View(): Pool
      reads this, slots
    {
      Pool(slots[..], waiters, timers, calls, called, granted, expired, settled, served)
    }

    constructor (config: Config, browsers: seq<Pid>)
      ensures View() == Started(browsers) && this.config == config && fresh(slots)
    {
      this.config := config;
      this.slots := new Slot[|browsers|](i requires 0 <= i < |browsers| => Slot(browsers[i], 0, false));
      waiters, timers, calls := [], {}, map[];
      called, granted, expired, settled := [], [], {}, multiset{};
      served := map b | b in browsers :: 0;
    }

    method Acquire(job: JobId) returns (slot: Option<nat>)
      requires job !in calls
      modifies this, slots
      ensures View() == Step(config, old(View()), Event.Acquire(job))
      ensures var i := FirstFree(old(slots[..])); slot == if i < slots.Length then Some(i) else None
    {
      ghost var before := slots[..];
      called := called + [job];
      var i := 0;
      while i < slots.Length && slots[i].busy
        invariant 0 <= i <= slots.Length
        invariant forall k :: 0 <= k < i ==> slots[k].busy
      {
        i := i + 1;
      }
      assert i == FirstFree(slots[..]);
      if i < slots.Length {
        Give(i, job);
        slot := Some(i);
      } else {
        waiters := waiters + [job];
        timers := timers + {job};
        calls := calls[job := Waiting];
        slot := None;
      }
    }

    /** Resolves the acquire promise of `job` with slot `i`, which is or becomes busy. */
    method Give(i: nat, job: JobId)
      requires i < slots.Length
      modifies this, slots
      ensures View() == Grant(old(View()), i, job)
    {
      ghost var b := slots[i].browser;
      slots[i] := slots[i].(busy := true);
      timers := timers - {job};
      calls := calls[job := Holding(i, Running)];
      granted := granted + [job];
      settled := settled + multiset{job};
      served := served[b := (if b in served then served[b] else 0) + 1];
    }

    /** The acquire timer: takes the waiter out of the queue and rejects its promise. */
    method OnTimer(job: JobId)
      requires job in timers
      modifies this
      ensures View() == Step(config, old(View()), Timeout(job))
    {
      var i := 0;
      while i < |waiters| && waiters[i] != job
        invariant 0 <= i <= |waiters|
        invariant forall k :: 0 <= k < i ==> waiters[k] != job
      {
        i := i + 1;
      }
      assert i == IndexOf(waiters, job);
      if i < |waiters| {
        waiters := waiters[..i] + waiters[i + 1..];
      }
      timers := timers - {job};
      calls := calls[job := Rejected];
      expired := expired + {job};
      settled := settled + multiset{job};
    }

    /** The `finally` of withBrowser, up to the first await inside `release`. */
    method EndJob(job: JobId, connected: bool, rss: Option<int>)
      requires Enabled(View(), JobEnds(job, connected, rss))
      modifies this, slots
      ensures View() == Step(config, old(View()), JobEnds(job, connected, rss))
    {
      var i := calls[job].slot;
      slots[i] := slots[i].(jobCount := slots[i].jobCount + 1);
      calls := calls[job := Holding(i, Deciding(ShouldRecycle(config, slots[i].jobCount, connected, rss)))];
    }

    /** After the recycle verdict: starts a relaunch, or finishes the release at once. */
    method OnVerdict(job: JobId)
      requires Enabled(View(), Decided(job))
      modifies this, slots
      ensures View() == Step(config, old(View()), Decided(job))
    {
      if calls[job].stage.recycle {
        calls := calls[job := Holding(calls[job].slot, Launching)];
      } else {
        FinishRelease(job);
      }
    }

    /** The relaunch settled: a new process takes the slot over, or the slot is stranded. */
    method OnLaunch(job: JobId, browser: Option<Pid>)
      requires Enabled(View(), if browser.Some? then Launched(job, browser.value) else LaunchFails(job))
      modifies this, slots
      ensures View() ==
        Step(config, old(View()), if browser.Some? then Launched(job, browser.value) else LaunchFails(job))
    {
      var i := calls[job].slot;
      match browser
      case None =>
        calls := calls[job := Holding(i, Stranded)];
      case Some(b) =>
        slots[i] := slots[i].(browser := b, jobCount := 0);
        calls := calls[job := Holding(i, Closing)];
        served := served[b := 0];
    }

    /** The retired process is closed; the release goes on. */
    method OnClosed(job: JobId)
      requires Enabled(View(), Closed(job))
      modifies this, slots
      ensures View() == Step(config, old(View()), Closed(job))
    {
      FinishRelease(job);
    }

    method FinishRelease(job: JobId)
      requires Doing(View(), job, Deciding(false)) || Doing(View(), job, Closing)
      modifies this, slots
      ensures View() == HandOver(old(View()), job)
    {
      var i := calls[job].slot;
      calls := calls[job := Finished];
      if waiters != [] {
        var next := waiters[0];
        waiters := waiters[1..];
        Give(i, next);
      } else {
        slots[i] := slots[i].(busy := false);
      }
    }
  }
}
