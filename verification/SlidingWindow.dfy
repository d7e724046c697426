/**
 * The sliding-window rate limiter: one Lua script over a sorted set of timestamps that is trimmed
 * and expires. The reference is the whole history of admissions. Times are milliseconds of one
 * clock that never goes back; members are unique, so a sorted set is its ascending scores.
 */
module SlidingWindow {
  import opened Common

  datatype Config = Config(limit: int, window: int)

  predicate Sensible(c: Config) {
    c.limit >= 1 && c.window > 0
  }

  datatype Bucket = Bucket(scores: seq<int>, expiresAt: int)

  datatype Reply = Reply(allowed: bool, used: int, resetAt: int)

  /** ZREMRANGEBYSCORE key 0 cut. */
  function Trim(scores: seq<int>, cut: int): seq<int> {
    if scores == [] then []
    else if 0 <= scores[0] <= cut then Trim(scores[1..], cut)
    else [scores[0]] + Trim(scores[1..], cut)
  }

  /** ZADD: the new score goes behind those not above it. */
  function Insert(scores: seq<int>, x: int): seq<int> {
    if scores == [] || x < scores[0] then [x] + scores else [scores[0]] + Insert(scores[1..], x)
  }

  /** The script. A sorted set that becomes empty is no key at all. */
  function Script(c: Config, b: Option<Bucket>, now: int): (Option<Bucket>, Reply) {
    var kept := Trim(if b.Some? then b.value.scores else [], now - c.window);
    var used := |kept|;
    var resetAt := if kept == [] then now + c.window else kept[0] + c.window;
    if used >= c.limit then
      (if kept == [] || b.None? then None else Some(b.value.(scores := kept)), Reply(false, used, resetAt))
    else (Some(Bucket(Insert(kept, now), now + c.window)), Reply(true, used + 1, resetAt))
  }

  /** One subject: its key, the clock of the latest call, and every admission there ever was. */
  datatype Subject = Subject(bucket: Option<Bucket>, clock: int, history: seq<int>)

  /** A call at `now`; `swept` says that Redis had already dropped the key, its expiry being due. */
  datatype Call = Call(now: int, swept: bool)

  predicate Allowed(s: Subject, call: Call) {
    && s.clock <= call.now && 0 <= call.now
    && (call.swept ==> s.bucket.Some? && s.bucket.value.expiresAt <= call.now)
  }

  function Answer(c: Config, s: Subject, call: Call): Reply {
    Script(c, if call.swept then None else s.bucket, call.now).1
  }

  function Step(c: Config, s: Subject, call: Call): Subject {
    var (b, reply) := Script(c, if call.swept then None else s.bucket, call.now);
    Subject(b, call.now, if reply.allowed then s.history + [call.now] else s.history)
  }

  const FIRST_SEEN := Subject(None, 0, [])

  predicate Run(c: Config, s: Subject, calls: seq<Call>)
    decreases |calls|
  {
    calls == [] || (Allowed(s, calls[0]) && Run(c, Step(c, s, calls[0]), calls[1..]))
  }

  function After(c: Config, s: Subject, calls: seq<Call>): Subject
    decreases |calls|
  {
    if calls == [] then s else After(c, Step(c, s, calls[0]), calls[1..])
  }

  // ----- the reference: counting in the history ------------------------------------------------

  /** How many of the times lie in (lo, hi]. */
  function CountIn(h: seq<int>, lo: int, hi: int): nat {
    if h == [] then 0 else (if lo < h[0] <= hi then 1 else 0) + CountIn(h[1..], lo, hi)
  }

  ghost predicate Sorted(h: seq<int>) {
    forall i, j :: 0 <= i < j < |h| ==> h[i] <= h[j]
  }

  lemma {:induction false} CountConcat(a: seq<int>, b: seq<int>, lo: int, hi: int)
    ensures CountIn(a + b, lo, hi) == CountIn(a, lo, hi) + CountIn(b, lo, hi)
  {
    if a == [] {
      assert a + b == b;
    } else {
      assert (a + b)[1..] == a[1..] + b;
      CountConcat(a[1..], b, lo, hi);
    }
  }

  lemma {:induction false} CountNone(h: seq<int>, lo: int, hi: int)
    requires forall i :: 0 <= i < |h| ==> h[i] <= lo
    ensures CountIn(h, lo, hi) == 0
  {
    if h == [] {
    } else {
      CountNone(h[1..], lo, hi);
    }
  }

  /** Trimming an ascending set drops a prefix, and what is kept is what a window counts. */
  lemma {:induction false} TrimDropsPrefix(s: seq<int>, cut: int, now: int) returns (k: nat)
    requires Sorted(s) && forall i :: 0 <= i < |s| ==> 0 <= s[i] <= now
    ensures k <= |s| && Trim(s, cut) == s[k..]
    ensures forall i :: 0 <= i < k ==> s[i] <= cut
    ensures forall i :: k <= i < |s| ==> s[i] > cut
    ensures CountIn(s, cut, now) == |s| - k
  {
    k := 0;
    if s == [] {
    } else {
      k := TrimDropsPrefix(s[1..], cut, now);
      if s[0] <= cut {
        k := k + 1;
      } else {
        assert forall i :: 0 <= i < |s[1..]| ==> s[1..][i] == s[i + 1];
        assert k == 0;
      }
    }
  }

  lemma {:induction false} InsertLast(s: seq<int>, x: int)
    requires forall i :: 0 <= i < |s| ==> s[i] <= x
    ensures Insert(s, x) == s + [x]
  {
    if s == [] {
    } else {
      InsertLast(s[1..], x);
    }
  }

  // ----- the invariant ------------------------------------------------------------------------

  function Scores(s: Subject): seq<int> {
    if s.bucket.Some? then s.bucket.value.scores else []
  }

  /** The set holds the newest admissions; those it has forgotten are out of every window to come. */
  ghost predicate Refines(c: Config, s: Subject) {
    && |Scores(s)| <= |s.history|
    && Scores(s) == s.history[|s.history| - |Scores(s)|..]
    && (forall i :: 0 <= i < |s.history| - |Scores(s)| ==> s.history[i] <= s.clock - c.window)
    && (s.bucket.Some? ==> Scores(s) != [] && s.bucket.value.expiresAt == s.history[|s.history| - 1] + c.window)
    && |Scores(s)| <= c.limit
  }

  ghost predicate Chronicle(s: Subject) {
    Sorted(s.history) && forall i :: 0 <= i < |s.history| ==> 0 <= s.history[i] <= s.clock
  }

  /** Admissions `limit` apart in the history are at least a window apart in time. */
  ghost predicate Spaced(c: Config, h: seq<int>) {
    forall i, j :: 0 <= i < |h| && i <= j < |h| && j - i >= c.limit ==> h[i] + c.window <= h[j]
  }

  ghost predicate Inv(c: Config, s: Subject) {
    Chronicle(s) && Refines(c, s) && Spaced(c, s.history)
  }

  /** Trimming the newest part of the history leaves what the window counts in all of it. */
  lemma TrimSeesTheWindow(h: seq<int>, n: nat, cut: int, now: int) returns (k: nat)
    requires n <= |h| && Sorted(h) && forall i :: 0 <= i < |h| ==> 0 <= h[i] <= now
    requires forall i :: 0 <= i < n ==> h[i] <= cut
    ensures n <= k <= |h| && Trim(h[n..], cut) == h[k..] && |h| - k == CountIn(h, cut, now)
    ensures forall i :: 0 <= i < k ==> h[i] <= cut
    ensures forall i :: k <= i < |h| ==> h[i] > cut
  {
    assert h == h[..n] + h[n..];
    CountConcat(h[..n], h[n..], cut, now);
    CountNone(h[..n], cut, now);
    var d := TrimDropsPrefix(h[n..], cut, now);
    k := n + d;
    assert h[n..][d..] == h[k..];
    assert forall i :: n <= i < |h| ==> h[i] == h[n..][i - n];
  }

  /** The script sees exactly the admissions of the window, expired key or not. */
  lemma ScriptSeesTheWindow(c: Config, s: Subject, call: Call) returns (k: nat)
    requires Sensible(c) && Inv(c, s) && Allowed(s, call)
    ensures var kept := Trim(if call.swept then [] else Scores(s), call.now - c.window);
      && k <= |s.history| && kept == s.history[k..]
      && |kept| == CountIn(s.history, call.now - c.window, call.now)
      && (forall i :: 0 <= i < k ==> s.history[i] <= call.now - c.window)
      && (forall i :: k <= i < |s.history| ==> s.history[i] > call.now - c.window)
  {
    var n := |s.history| - |Scores(s)|;
    k := TrimSeesTheWindow(s.history, n, call.now - c.window, call.now);
    if call.swept {
      assert s.history[|s.history| - 1] <= call.now - c.window;
    }
  }

  lemma SpacedGrows(c: Config, h: seq<int>, k: nat, now: int)
    requires Spaced(c, h) && k <= |h| && |h| - k < c.limit
    requires forall i :: 0 <= i < k ==> h[i] <= now - c.window
    ensures Spaced(c, h + [now])
  {
  }

  lemma AdmissionKeepsInv(c: Config, s: Subject, call: Call, k: nat)
    requires Sensible(c) && Inv(c, s) && Allowed(s, call) && k <= |s.history| && |s.history| - k < c.limit
    requires forall i :: 0 <= i < k ==> s.history[i] <= call.now - c.window
    ensures var b := Bucket(s.history[k..] + [call.now], call.now + c.window);
      Inv(c, Subject(Some(b), call.now, s.history + [call.now]))
  {
    SpacedGrows(c, s.history, k, call.now);
    hide Spaced;
    var h := s.history + [call.now];
    assert h[|h| - (|s.history| - k + 1)..] == s.history[k..] + [call.now];
  }

  lemma StepKeepsInv(c: Config, s: Subject, call: Call)
    requires Sensible(c) && Inv(c, s) && Allowed(s, call)
    ensures Inv(c, Step(c, s, call))
  {
    hide Inv;
    var k := ScriptSeesTheWindow(c, s, call);
    if Answer(c, s, call).allowed {
      AllowedSorted(c, s, call);
      InsertLast(s.history[k..], call.now);
      AdmissionKeepsInv(c, s, call, k);
    } else {
      RefusalOnlyMovesTheClock(c, s, call);
      RefusalKeepsInv(c, s, call);
    }
  }

  lemma AllowedSorted(c: Config, s: Subject, call: Call)
    requires Inv(c, s) && Allowed(s, call)
    ensures forall i :: 0 <= i < |s.history| ==> s.history[i] <= call.now
    ensures Sorted(s.history)
  {
  }

  lemma {:induction false} TrimNothing(scores: seq<int>, cut: int)
    requires forall i :: 0 <= i < |scores| ==> scores[i] > cut
    ensures Trim(scores, cut) == scores
  {
    if scores == [] {
    } else {
      TrimNothing(scores[1..], cut);
    }
  }

  lemma FullScriptRefuses(c: Config, b: Bucket, now: int)
    requires Sensible(c) && |b.scores| == c.limit
    requires forall i :: 0 <= i < |b.scores| ==> b.scores[i] > now - c.window
    ensures Script(c, Some(b), now) == (Some(b), Reply(false, c.limit, b.scores[0] + c.window))
  {
    TrimNothing(b.scores, now - c.window);
  }

  /** A refusing script found the set full of window entries, so it trimmed nothing. */
  lemma RefusingScriptIsFull(c: Config, b: Option<Bucket>, now: int)
    requires Sensible(c) && !Script(c, b, now).1.allowed
    requires b.Some? ==> Sorted(b.value.scores) && |b.value.scores| <= c.limit
    requires b.Some? ==> forall i :: 0 <= i < |b.value.scores| ==> 0 <= b.value.scores[i] <= now
    ensures b.Some? && |b.value.scores| == c.limit
    ensures forall i :: 0 <= i < |b.value.scores| ==> b.value.scores[i] > now - c.window
  {
    if b.Some? {
      var d := TrimDropsPrefix(b.value.scores, now - c.window, now);
    }
  }

  lemma BucketSane(c: Config, s: Subject, call: Call)
    requires Inv(c, s) && Allowed(s, call) && s.bucket.Some?
    ensures Sorted(Scores(s)) && |Scores(s)| <= c.limit
    ensures forall i :: 0 <= i < |Scores(s)| ==> 0 <= Scores(s)[i] <= call.now
  {
  }

  /** So a refusal changes nothing but the clock. */
  lemma RefusalOnlyMovesTheClock(c: Config, s: Subject, call: Call)
    requires Sensible(c) && Inv(c, s) && Allowed(s, call) && !Answer(c, s, call).allowed
    ensures s.bucket.Some? && Step(c, s, call) == s.(clock := call.now)
    ensures |Scores(s)| == c.limit && Scores(s)[0] > call.now - c.window
    ensures Answer(c, s, call) == Reply(false, c.limit, Scores(s)[0] + c.window)
  {
    hide Inv, Script;
    var b := if call.swept then None else s.bucket;
    if b.Some? {
      BucketSane(c, s, call);
    }
    RefusingScriptIsFull(c, b, call.now);
    FullScriptRefuses(c, b.value, call.now);
  }

  lemma RefusalKeepsInv(c: Config, s: Subject, call: Call)
    requires Inv(c, s) && Allowed(s, call) && Step(c, s, call) == s.(clock := call.now)
    ensures Inv(c, Step(c, s, call))
  {
    hide Step;
  }

  lemma {:induction false} RunKeepsInv(c: Config, s: Subject, calls: seq<Call>)
    requires Sensible(c) && Inv(c, s) && Run(c, s, calls)
    ensures Inv(c, After(c, s, calls))
    decreases |calls|
  {
    if calls == [] {
    } else {
      StepKeepsInv(c, s, calls[0]);
      RunKeepsInv(c, Step(c, s, calls[0]), calls[1..]);
    }
  }

  // ----- what the limiter promises ------------------------------------------------------------

  lemma FirstSeenInv(c: Config)
    requires Sensible(c)
    ensures Inv(c, FIRST_SEEN)
  {
  }

  lemma CountedAnswer(c: Config, s: Subject, call: Call)
    requires Sensible(c) && Inv(c, s) && Allowed(s, call)
    ensures var inWindow := CountIn(s.history, call.now - c.window, call.now);
      && (Answer(c, s, call).allowed <==> inWindow < c.limit)
      && Answer(c, s, call).used == inWindow + (if Answer(c, s, call).allowed then 1 else 0)
  {
    hide Inv, Allowed;
    var k := ScriptSeesTheWindow(c, s, call);
  }

  /** In every run, a call is admitted iff fewer than `limit` admissions lie in (now - window, now]. */
  lemma AdmittedIffRoom(c: Config, calls: seq<Call>, call: Call)
    requires Sensible(c) && Run(c, FIRST_SEEN, calls) && Allowed(After(c, FIRST_SEEN, calls), call)
    ensures var s := After(c, FIRST_SEEN, calls);
      var inWindow := CountIn(s.history, call.now - c.window, call.now);
      && (Answer(c, s, call).allowed <==> inWindow < c.limit)
      && Answer(c, s, call).used == inWindow + (if Answer(c, s, call).allowed then 1 else 0)
  {
    hide Inv, Run, After, Answer, Allowed;
    FirstSeenInv(c);
    RunKeepsInv(c, FIRST_SEEN, calls);
    CountedAnswer(c, After(c, FIRST_SEEN, calls), call);
  }

  lemma {:induction false} CountIsARange(h: seq<int>, lo: int, hi: int) returns (a: nat, b: nat)
    requires Sorted(h)
    ensures a <= b <= |h| && CountIn(h, lo, hi) == b - a
    ensures forall i :: a <= i < b ==> lo < h[i] <= hi
    ensures b > a ==> forall i :: 0 <= i < a ==> h[i] <= lo
  {
    a, b := 0, 0;
    if h == [] {
    } else {
      a, b := CountIsARange(h[1..], lo, hi);
      if a < b {
        assert h[0] <= h[1..][a];
      }
      if lo < h[0] <= hi {
        assert a < b ==> h[0] <= h[1..][0];
        a, b := 0, if a < b then b + 1 else 1;
      } else {
        a, b := a + 1, b + 1;
      }
    }
  }

  lemma SpacedFits(c: Config, h: seq<int>, end: int)
    requires Sensible(c) && Sorted(h) && Spaced(c, h)
    ensures CountIn(h, end - c.window, end) <= c.limit
  {
    var a, b := CountIsARange(h, end - c.window, end);
    if a < b {
      assert h[b - 1] - h[a] < c.window;
    }
  }

  /** In every run, every half-open interval as long as the window holds at most `limit` admissions. */
  lemma NoWindowOverflows(c: Config, calls: seq<Call>, end: int)
    requires Sensible(c) && Run(c, FIRST_SEEN, calls)
    ensures CountIn(After(c, FIRST_SEEN, calls).history, end - c.window, end) <= c.limit
  {
    hide Run, After, Spaced, Sorted, Refines;
    FirstSeenInv(c);
    RunKeepsInv(c, FIRST_SEEN, calls);
    SpacedFits(c, After(c, FIRST_SEEN, calls).history, end);
  }

  // ----- refusals -----------------------------------------------------------------------------

  /** What a refusal leaves: a full set whose oldest entry leaves the window at `resetAt`. */
  ghost predicate Full(c: Config, s: Subject, resetAt: int) {
    && Inv(c, s) && s.bucket.Some? && |Scores(s)| == c.limit
    && Scores(s)[0] + c.window == resetAt && s.clock < resetAt
  }

  /** A refusal names a reset instant in the future, at which the oldest admission leaves. */
  lemma RefusalIsFull(c: Config, s: Subject, call: Call)
    requires Sensible(c) && Inv(c, s) && Allowed(s, call) && !Answer(c, s, call).allowed
    ensures Full(c, Step(c, s, call), Answer(c, s, call).resetAt)
  {
    StepKeepsInv(c, s, call);
    RefusalOnlyMovesTheClock(c, s, call);
  }

  lemma FullStaysInWindow(c: Config, s: Subject, resetAt: int, call: Call)
    requires Full(c, s, resetAt) && Allowed(s, call) && call.now < resetAt
    ensures !call.swept && forall i :: 0 <= i < |Scores(s)| ==> Scores(s)[i] > call.now - c.window
  {
    var h, n := s.history, |s.history| - |Scores(s)|;
    assert Scores(s)[0] == h[n] <= h[|h| - 1];
    assert forall i :: 0 <= i < |Scores(s)| ==> Scores(s)[i] == h[n + i] >= h[n];
  }

  lemma FullRefusesBefore(c: Config, s: Subject, resetAt: int, call: Call)
    requires Sensible(c) && Full(c, s, resetAt) && Allowed(s, call) && call.now < resetAt
    ensures Answer(c, s, call) == Reply(false, c.limit, resetAt) && Full(c, Step(c, s, call), resetAt)
  {
    hide Script, Inv;
    FullStaysInWindow(c, s, resetAt, call);
    FullScriptRefuses(c, s.bucket.value, call.now);
    RefusalIsFull(c, s, call);
  }

  lemma FullAdmitsAfter(c: Config, s: Subject, resetAt: int, call: Call)
    requires Sensible(c) && Full(c, s, resetAt) && Allowed(s, call) && call.now >= resetAt
    ensures Answer(c, s, call).allowed
  {
    var n := |s.history| - |Scores(s)|;
    var k := ScriptSeesTheWindow(c, s, call);
    assert Scores(s)[0] == s.history[n];
    assert k > n;
  }

  predicate AllBefore(calls: seq<Call>, instant: int) {
    forall i :: 0 <= i < |calls| ==> calls[i].now < instant
  }

  function Answers(c: Config, s: Subject, calls: seq<Call>): seq<Reply>
    decreases |calls|
  {
    if calls == [] then [] else [Answer(c, s, calls[0])] + Answers(c, Step(c, s, calls[0]), calls[1..])
  }

  lemma {:induction false} FullStaysFull(c: Config, s: Subject, resetAt: int, calls: seq<Call>)
    requires Sensible(c) && Full(c, s, resetAt) && Run(c, s, calls) && AllBefore(calls, resetAt)
    ensures Full(c, After(c, s, calls), resetAt)
    ensures forall r :: r in Answers(c, s, calls) ==> r == Reply(false, c.limit, resetAt)
    decreases |calls|
  {
    hide Step, Allowed, Full, Answer;
    if calls == [] {
    } else {
      FullRefusesBefore(c, s, resetAt, calls[0]);
      FullStaysFull(c, Step(c, s, calls[0]), resetAt, calls[1..]);
    }
  }

  /**
   * After a refusal with reset instant r: every further call before r is refused with the same r,
   * and the first call at or after r is admitted.
   */
  lemma ResetIsExact(c: Config, s: Subject, refused: Call, calls: seq<Call>, next: Call)
    requires Sensible(c) && Inv(c, s) && Allowed(s, refused) && !Answer(c, s, refused).allowed
    requires var r := Answer(c, s, refused).resetAt; AllBefore(calls, r) && r <= next.now
    requires Run(c, Step(c, s, refused), calls) && Allowed(After(c, Step(c, s, refused), calls), next)
    ensures var r := Answer(c, s, refused).resetAt;
      && refused.now < r
      && (forall reply :: reply in Answers(c, Step(c, s, refused), calls) ==> !reply.allowed && reply.resetAt == r)
      && Answer(c, After(c, Step(c, s, refused), calls), next).allowed
  {
    var r := Answer(c, s, refused).resetAt;
    RefusalIsFull(c, s, refused);
    FullStaysFull(c, Step(c, s, refused), r, calls);
    FullAdmitsAfter(c, After(c, Step(c, s, refused), calls), r, next);
  }

  // ----- the verdict --------------------------------------------------------------------------

  datatype RateLimitVerdict = RateLimitVerdict(
    allowed: bool, limit: int, remaining: int, resetAt: int, retryAfter: int)

  function Verdict(c: Config, reply: Reply, now: int): RateLimitVerdict {
    RateLimitVerdict(reply.allowed, c.limit, Max(0, c.limit - reply.used),
                     CeilDiv(reply.resetAt, 1000), Max(1, CeilDiv(reply.resetAt - now, 1000)))
  }

  /**
   * For a refusal, waiting `retryAfter` whole seconds reaches the reset instant and one second
   * fewer does not; `resetAt` is the least whole second not before it.
   */
  lemma HeadersAreTight(c: Config, s: Subject, call: Call)
    requires Sensible(c) && Inv(c, s) && Allowed(s, call) && !Answer(c, s, call).allowed
    ensures var reply := Answer(c, s, call);
      var v := Verdict(c, reply, call.now);
      && v.remaining == 0
      && call.now + 1000 * v.retryAfter >= reply.resetAt > call.now + 1000 * (v.retryAfter - 1)
      && 1000 * v.resetAt >= reply.resetAt > 1000 * (v.resetAt - 1)
  {
    RefusalIsFull(c, s, call);
  }

  /** `o` is the oldest admission that the window ending at `now` counts. */
  ghost predicate OldestIn(c: Config, h: seq<int>, now: int, o: int) {
    o in h && now - c.window < o && forall x :: x in h && now - c.window < x ==> o <= x
  }

  lemma CountOneMore(h: seq<int>, lo: int, now: int)
    requires lo < now
    ensures CountIn(h + [now], lo, now) == CountIn(h, lo, now) + 1
  {
    CountConcat(h, [now], lo, now);
    assert [now][1..] == [];
  }

  lemma HistoryGrows(c: Config, s: Subject, call: Call)
    ensures Step(c, s, call).history == if Answer(c, s, call).allowed then s.history + [call.now] else s.history
  {
    hide Script;
  }

  lemma ResetIsOfTheOldest(c: Config, s: Subject, call: Call, k: nat)
    requires Sensible(c) && k <= |s.history|
    requires Trim(if call.swept then [] else Scores(s), call.now - c.window) == s.history[k..]
    ensures var reply := Answer(c, s, call);
      && (k == |s.history| ==> reply.allowed && reply.resetAt == call.now + c.window)
      && (k < |s.history| ==> reply.resetAt == s.history[k] + c.window)
  {
    hide Trim;
  }

  /** From index `k` on everything is in the window, and `t[k]` is the oldest. */
  ghost predicate WindowFrom(t: seq<int>, k: nat, lo: int) {
    && k < |t|
    && (forall i :: 0 <= i < k ==> t[i] <= lo)
    && (forall i :: k <= i < |t| ==> t[k] <= t[i] && t[i] > lo)
  }

  lemma WindowGrows(h: seq<int>, k: nat, lo: int, now: int)
    requires Sorted(h) && k <= |h| && lo < now && forall i :: 0 <= i < |h| ==> h[i] <= now
    requires forall i :: 0 <= i < k ==> h[i] <= lo
    requires forall i :: k <= i < |h| ==> h[i] > lo
    ensures WindowFrom(h + [now], k, lo)
    ensures k < |h| ==> WindowFrom(h, k, lo)
  {
  }

  /** After a call the window counts the last admissions, from index `k` on; the oldest sets the reset. */
  lemma WindowAfter(c: Config, s: Subject, call: Call) returns (k: nat)
    requires Sensible(c) && Inv(c, s) && Allowed(s, call)
    ensures var t, reply := Step(c, s, call).history, Answer(c, s, call);
      && WindowFrom(t, k, call.now - c.window) && reply.resetAt == t[k] + c.window
      && CountIn(t, call.now - c.window, call.now) == reply.used <= c.limit
  {
    hide Step, Answer, Inv, CountIn, Allowed, Trim, Scores, Sorted, WindowFrom;
    k := ScriptSeesTheWindow(c, s, call);
    ResetIsOfTheOldest(c, s, call, k);
    HistoryGrows(c, s, call);
    CountedAnswer(c, s, call);
    CountOneMore(s.history, call.now - c.window, call.now);
    AllowedSorted(c, s, call);
    WindowGrows(s.history, k, call.now - c.window, call.now);
    if !Answer(c, s, call).allowed {
      RefusalOnlyMovesTheClock(c, s, call);
    }
  }

  /**
   * All of a verdict in terms of the history: what is left of the limit after this call, and when, in
   * whole seconds, the oldest admission of the window leaves it. This holds for every call, admitted
   * or refused.
   */
  lemma VerdictByHistory(c: Config, s: Subject, call: Call) returns (oldest: int)
    requires Sensible(c) && Inv(c, s) && Allowed(s, call)
    ensures OldestIn(c, Step(c, s, call).history, call.now, oldest)
    ensures var v := Verdict(c, Answer(c, s, call), call.now);
      && (v.allowed <==> CountIn(s.history, call.now - c.window, call.now) < c.limit)
      && v.limit == c.limit
      && v.remaining == c.limit - CountIn(Step(c, s, call).history, call.now - c.window, call.now)
      && 1000 * v.resetAt >= oldest + c.window > 1000 * (v.resetAt - 1)
      && call.now + 1000 * v.retryAfter >= oldest + c.window > call.now + 1000 * (v.retryAfter - 1)
  {
    hide Inv, Step, Answer, CountIn, Allowed;
    var k := WindowAfter(c, s, call);
    assert WindowFrom(Step(c, s, call).history, k, call.now - c.window);
    CountedAnswer(c, s, call);
    oldest := Step(c, s, call).history[k];
  }

  /** The subject after Redis has dropped its key. */
  function Dropped(s: Subject, now: int): Subject {
    Subject(None, now, s.history)
  }

  lemma DroppingKeepsInv(c: Config, s: Subject, now: int)
    requires Inv(c, s) && s.clock <= now && s.bucket.Some? && s.bucket.value.expiresAt <= now
    ensures Inv(c, Dropped(s, now))
  {
    var h := s.history;
    assert h[|h| - 1] <= now - c.window;
    assert h[|h|..] == [];
  }

  /** A call that finds the key dropped, at any instant since its expiry, is a call that finds none. */
  lemma SweptIsDropped(c: Config, s: Subject, at: int, call: Call)
    requires call.swept && Allowed(s, call) && s.bucket.value.expiresAt <= at <= call.now
    ensures Allowed(Dropped(s, at), Call(call.now, false))
    ensures Answer(c, s, call) == Answer(c, Dropped(s, at), Call(call.now, false))
    ensures Step(c, s, call) == Step(c, Dropped(s, at), Call(call.now, false))
  {
  }

  /** A call for somebody else only moves the clock, which keeps this subject's invariant. */
  lemma OtherSubjectsKeepInv(c: Config, s: Subject, now: int)
    requires Inv(c, s) && s.clock <= now
    ensures Inv(c, s.(clock := now))
  {
  }

  /**
   * One limiter for all subjects: each has its own sorted set, limit and window, which every call
   * for it passes, and no call touches another's.
   */
  class RateLimitService {
    var buckets: map<string, Bucket>
    ghost var clock: int
    ghost var histories: map<string, seq<int>>

    ghost function View(subject: string): Subject
      reads this
    {
      Subject(if subject in buckets then Some(buckets[subject]) else None, clock,
              if subject in histories then histories[subject] else [])
    }

    constructor ()
      ensures forall subject :: View(subject) == FIRST_SEEN
    {
      buckets, clock, histories := map[], 0, map[];
    }

    /** What every call for `subject` leaves of the other subjects. */
    twostate predicate SparesOthers(subject: string)
      reads this
    {
      forall other :: other != subject ==>
        && View(other) == old(View(other)).(clock := clock)
        && forall c: Config :: Inv(c, old(View(other))) ==> Inv(c, View(other))
    }

    twostate lemma OthersSpared(subject: string)
      requires old(clock) <= clock
      requires forall other :: other != subject ==> View(other) == old(View(other)).(clock := clock)
      ensures SparesOthers(subject)
    {
      forall other: string, c: Config | other != subject && Inv(c, old(View(other))) ensures Inv(c, View(other)) {
        OtherSubjectsKeepInv(c, old(View(other)), clock);
      }
    }

    /** Redis drops a key whose expiry is due, some time before the next call looks. */
    method Expire(c: Config, subject: string, now: int)
      requires Inv(c, View(subject)) && clock <= now
      requires subject in buckets && buckets[subject].expiresAt <= now
      modifies `buckets, `clock
      ensures View(subject) == Dropped(old(View(subject)), now) && Inv(c, View(subject))
      ensures SparesOthers(subject)
    {
      DroppingKeepsInv(c, View(subject), now);
      buckets := buckets - {subject};
      clock := now;
      OthersSpared(subject);
    }

    /** The Lua script on the subject's key. */
    method RunScript(c: Config, subject: string, now: int) returns (reply: Reply)
      requires Sensible(c) && clock <= now
      modifies this
      ensures View(subject) == Step(c, old(View(subject)), Call(now, false))
      ensures reply == Answer(c, old(View(subject)), Call(now, false))
      ensures SparesOthers(subject)
    {
      ghost var history := View(subject).history;
      var scores := if subject in buckets then buckets[subject].scores else [];
      var kept := Trim(scores, now - c.window);
      var used := |kept|;
      var resetAt := if kept == [] then now + c.window else kept[0] + c.window;
      clock := now;
      if used >= c.limit {
        buckets := buckets[subject := buckets[subject].(scores := kept)];
        reply := Reply(false, used, resetAt);
      } else {
        buckets := buckets[subject := Bucket(Insert(kept, now), now + c.window)];
        histories := histories[subject := history + [now]];
        reply := Reply(true, used + 1, resetAt);
      }
      OthersSpared(subject);
    }

    method Consume(c: Config, subject: string, now: int) returns (verdict: RateLimitVerdict)
      requires Sensible(c) && Inv(c, View(subject)) && clock <= now && 0 <= now
      modifies this
      ensures Inv(c, View(subject)) && View(subject) == Step(c, old(View(subject)), Call(now, false))
      ensures verdict == Verdict(c, Answer(c, old(View(subject)), Call(now, false)), now)
      ensures verdict.allowed <==> CountIn(old(View(subject)).history, now - c.window, now) < c.limit
      ensures verdict.remaining == c.limit - CountIn(View(subject).history, now - c.window, now)
      ensures SparesOthers(subject)
    {
      hide Inv, Step, Answer, SparesOthers, CountIn;
      ghost var k := WindowAfter(c, View(subject), Call(now, false));
      CountedAnswer(c, View(subject), Call(now, false));
      StepKeepsInv(c, View(subject), Call(now, false));
      var reply := RunScript(c, subject, now);
      verdict := RateLimitVerdict(
        reply.allowed, c.limit, Max(0, c.limit - reply.used),
        CeilDiv(reply.resetAt, 1000), Max(1, CeilDiv(reply.resetAt - now, 1000)));
    }

    /** A call whose key Redis dropped at `at`: the two commands are one step of the run, `swept`. */
    method ConsumeSwept(c: Config, subject: string, at: int, now: int) returns (verdict: RateLimitVerdict)
      requires Sensible(c) && Inv(c, View(subject)) && clock <= at <= now && 0 <= now
      requires subject in buckets && buckets[subject].expiresAt <= at
      modifies this
      ensures Inv(c, View(subject)) && View(subject) == Step(c, old(View(subject)), Call(now, true))
      ensures verdict == Verdict(c, Answer(c, old(View(subject)), Call(now, true)), now)
      ensures verdict.allowed <==> CountIn(old(View(subject)).history, now - c.window, now) < c.limit
      ensures SparesOthers(subject)
    {
      SweptIsDropped(c, View(subject), at, Call(now, true));
      hide Inv, Step, Answer;
      Expire(c, subject, at);
      verdict := Consume(c, subject, now);
      OthersSpared(subject);
    }
  }
}
