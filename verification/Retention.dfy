/**
 * The nightly retention sweep on its own: batches of the longest expired documents, objects before
 * rows, a failed object delete leaving its row for the next sweep. Interleavings are in Deletion.
 */
module Retention {
  import opened Common

  type Id = nat

  /** `buildKey`: one key per document, different documents having different keys. */
  datatype Key = Key(doc: Id)

  datatype Row = Row(expiresAt: Option<int>, storageKey: Option<Key>)

  type Table = map<Id, Row>

  const BATCH_SIZE := 200
  const MAX_BATCHES := 50

  predicate IsExpired(r: Row, now: int) {
    r.expiresAt.Some? && r.expiresAt.value <= now
  }

  function Expiry(rows: Table, id: Id): int {
    if id in rows && rows[id].expiresAt.Some? then rows[id].expiresAt.value else 0
  }

  function Expired(rows: Table, now: int): set<Id> {
    set id | id in rows && IsExpired(rows[id], now)
  }

  /** The delete of this document's object fails. */
  predicate Fails(rows: Table, failing: set<Key>, id: Id) {
    id in rows && rows[id].storageKey.Some? && rows[id].storageKey.value in failing
  }

  /** The expired documents whose object cannot be deleted, and the others. */
  function Stuck(rows: Table, now: int, failing: set<Key>): set<Id> {
    set id | id in Expired(rows, now) && Fails(rows, failing, id)
  }

  function Clearable(rows: Table, now: int, failing: set<Key>): set<Id> {
    set id | id in Expired(rows, now) && !Fails(rows, failing, id)
  }

  function KeysOf(rows: Table, ids: set<Id>): set<Key> {
    set id | id in ids && id in rows && rows[id].storageKey.Some? :: rows[id].storageKey.value
  }

  function WithObject(rows: Table, ids: set<Id>): set<Id> {
    set id | id in ids && id in rows && rows[id].storageKey.Some?
  }

  /** The query of one batch: the longest expired first, ties in any order. */
  ghost predicate IsBatch(rows: Table, now: int, batch: seq<Id>) {
    && Distinct(batch)
    && (forall id :: id in batch ==> id in Expired(rows, now))
    && |batch| == Min(BATCH_SIZE, |Expired(rows, now)|)
    && (forall i, j :: 0 <= i < j < |batch| ==> Expiry(rows, batch[i]) <= Expiry(rows, batch[j]))
    && (forall id, k :: id in Expired(rows, now) && id !in batch && k in batch ==>
          Expiry(rows, k) <= Expiry(rows, id))
  }

  datatype SweepResult = SweepResult(deleted: nat, objectsRemoved: nat, objectFailures: nat)

  lemma {:induction false} EarliestExists(rows: Table, ids: set<Id>) returns (id: Id)
    requires ids != {}
    ensures id in ids && forall x :: x in ids ==> Expiry(rows, id) <= Expiry(rows, x)
  {
    if forall x: Id :: x !in ids {
      assert false;
    }
    id :| id in ids;
    var rest := ids - {id};
    assert forall x :: x in ids ==> x == id || x in rest;
    if rest == {} {
    } else {
      var r := EarliestExists(rows, rest);
      if Expiry(rows, r) < Expiry(rows, id) {
        id := r;
      }
    }
  }

  /** The longest expired documents are in `batch`, the others still in `rest`. */
  ghost predicate PickedSoFar(rows: Table, now: int, rest: set<Id>, batch: seq<Id>) {
    && Distinct(batch) && |batch| + |rest| == |Expired(rows, now)|
    && (forall id :: id in Expired(rows, now) <==> id in rest || id in batch)
    && (forall id :: id in batch ==> id !in rest)
    && (forall i, j :: 0 <= i < j < |batch| ==> Expiry(rows, batch[i]) <= Expiry(rows, batch[j]))
    && (forall id, k :: id in rest && k in batch ==> Expiry(rows, k) <= Expiry(rows, id))
  }

  lemma NothingPicked(rows: Table, now: int)
    ensures PickedSoFar(rows, now, Expired(rows, now), [])
  {
  }

  lemma PickOne(rows: Table, now: int, rest: set<Id>, batch: seq<Id>, id: Id)
    requires PickedSoFar(rows, now, rest, batch)
    requires id in rest && forall x :: x in rest ==> Expiry(rows, id) <= Expiry(rows, x)
    ensures PickedSoFar(rows, now, rest - {id}, batch + [id])
  {
    hide Expiry, Expired;
    assert forall i :: 0 <= i < |batch| ==> batch[i] in batch;
  }

  lemma PickedIsBatch(rows: Table, now: int, rest: set<Id>, batch: seq<Id>)
    requires PickedSoFar(rows, now, rest, batch) && |batch| <= BATCH_SIZE && (rest == {} || |batch| == BATCH_SIZE)
    ensures IsBatch(rows, now, batch)
  {
    hide Expiry, Expired;
  }

  /** The documents of a list whose row may go: nothing stored, or the object delete worked. */
  function Removable(rows: Table, failing: set<Key>, batch: seq<Id>): set<Id> {
    set id | id in batch && !Fails(rows, failing, id)
  }

  lemma RemovableStep(rows: Table, failing: set<Key>, batch: seq<Id>, i: nat)
    requires Distinct(batch) && i < |batch|
    ensures var id := batch[i];
      var before, after := Removable(rows, failing, batch[..i]), Removable(rows, failing, batch[..i + 1]);
      && id !in before
      && after == (if Fails(rows, failing, id) then before else before + {id})
      && |after| == |before| + if Fails(rows, failing, id) then 0 else 1
  {
    hide Fails;
    var id := batch[i];
    assert id !in batch[..i];
    assert forall x :: x in batch[..i + 1] <==> x in batch[..i] || x == id;
  }

  lemma AddCleared(rows: Table, ids: set<Id>, id: Id)
    requires id in rows && id !in ids
    ensures KeysOf(rows, ids + {id}) ==
            KeysOf(rows, ids) + if rows[id].storageKey.Some? then {rows[id].storageKey.value} else {}
    ensures |WithObject(rows, ids + {id})| == |WithObject(rows, ids)| + if rows[id].storageKey.Some? then 1 else 0
  {
    if rows[id].storageKey.Some? {
      assert WithObject(rows, ids + {id}) == WithObject(rows, ids) + {id};
    } else {
      assert WithObject(rows, ids + {id}) == WithObject(rows, ids);
    }
  }

  /** Where the loop over a batch has got to when `done` of it is behind. */
  ghost predicate ClearedSoFar(rows: Table, failing: set<Key>, first: set<Key>, done: seq<Id>,
                               objects: set<Key>, removable: set<Id>, removed: nat, failures: nat) {
    && removable == Removable(rows, failing, done)
    && objects == first - KeysOf(rows, removable)
    && removed == |WithObject(rows, removable)|
    && |removable| + failures == |done|
  }

  lemma NothingCleared(rows: Table, failing: set<Key>, first: set<Key>)
    ensures ClearedSoFar(rows, failing, first, [], first, {}, 0, 0)
  {
    NothingGone(rows);
  }

  lemma ClearOne(rows: Table, failing: set<Key>, first: set<Key>, batch: seq<Id>, i: nat,
                 objects: set<Key>, removable: set<Id>, removed: nat, failures: nat)
    requires Distinct(batch) && i < |batch| && batch[i] in rows
    requires ClearedSoFar(rows, failing, first, batch[..i], objects, removable, removed, failures)
    ensures var id, next := batch[i], batch[..i + 1];
      match rows[id].storageKey
      case None => ClearedSoFar(rows, failing, first, next, objects, removable + {id}, removed, failures)
      case Some(key) =>
        if key in failing then ClearedSoFar(rows, failing, first, next, objects, removable, removed, failures + 1)
        else ClearedSoFar(rows, failing, first, next, objects - {key}, removable + {id}, removed + 1, failures)
  {
    hide KeysOf, WithObject, Removable;
    RemovableStep(rows, failing, batch, i);
    AddCleared(rows, removable, batch[i]);
  }

  lemma Cleared(rows: Table, failing: set<Key>, first: set<Key>, batch: seq<Id>,
                objects: set<Key>, removable: set<Id>, removed: nat, failures: nat)
    requires ClearedSoFar(rows, failing, first, batch, objects, removable, removed, failures)
    ensures removable == Removable(rows, failing, batch) && objects == first - KeysOf(rows, removable)
    ensures removed == |WithObject(rows, removable)| && |removable| + failures == |batch|
  {
  }

  lemma SubsetSize<T>(a: set<T>, b: set<T>)
    requires a <= b
    ensures |b - a| == |b| - |a| && (|a| == |b| ==> a == b)
  {
    assert b == a + (b - a);
    assert |b - a| == 0 ==> b - a == {};
  }

  /**
   * One batch removes everything that can be removed, or at least 200 - F documents; and of the F
   * stuck ones it meets all when nothing else of the table is left out.
   */
  lemma BatchProgress(rows: Table, now: int, failing: set<Key>, batch: seq<Id>)
    requires IsBatch(rows, now, batch)
    ensures var gone, stuck := Removable(rows, failing, batch), |Stuck(rows, now, failing)|;
      && gone <= Clearable(rows, now, failing)
      && (gone == Clearable(rows, now, failing) || |gone| >= BATCH_SIZE - stuck)
      && |batch| - |gone| <= stuck
      && (|batch| < BATCH_SIZE ==> |batch| - |gone| == stuck)
  {
    var expired, gone := Expired(rows, now), Removable(rows, failing, batch);
    DistinctCount(batch);
    var all := set id | id in batch;
    var stuck := Stuck(rows, now, failing);
    SubsetSize(all, expired);
    SubsetSize(gone, all);
    assert all - gone <= stuck;
    SubsetSize(all - gone, stuck);
    if |batch| < BATCH_SIZE {
      assert all == expired;
      assert all - gone == stuck;
    }
  }

  lemma WithoutTheGone(rows: Table, now: int, failing: set<Key>, gone: set<Id>)
    requires gone <= Clearable(rows, now, failing)
    ensures Stuck(rows - gone, now, failing) == Stuck(rows, now, failing)
    ensures Clearable(rows - gone, now, failing) == Clearable(rows, now, failing) - gone
  {
  }

  /** What a batch adds to what earlier batches removed. */
  lemma GoneGrows(rows: Table, removed: set<Id>, more: set<Id>)
    requires removed <= rows.Keys && more <= (rows - removed).Keys
    ensures rows - removed - more == rows - (removed + more)
    ensures KeysOf(rows, removed + more) == KeysOf(rows, removed) + KeysOf(rows - removed, more)
    ensures |WithObject(rows, removed + more)| == |WithObject(rows, removed)| + |WithObject(rows - removed, more)|
    ensures |removed + more| == |removed| + |more|
  {
    assert WithObject(rows, removed + more) == WithObject(rows, removed) + WithObject(rows - removed, more);
    assert WithObject(rows, removed) !! WithObject(rows - removed, more);
    assert removed !! more;
    forall k ensures k in KeysOf(rows, removed + more) <==> k in KeysOf(rows, removed) + KeysOf(rows - removed, more) {
      if k in KeysOf(rows, removed + more) {
        var id :| id in removed + more && id in rows && rows[id].storageKey == Some(k);
        assert id in removed ==> k in KeysOf(rows, removed);
        assert id in more ==> k in KeysOf(rows - removed, more);
      }
    }
  }

  lemma NothingGone(rows: Table)
    ensures rows - {} == rows && KeysOf(rows, {}) == {} && WithObject(rows, {}) == {} && rows.Keys - rows.Keys == {}
  {
  }

  lemma RemovableRows(rows: Table, failing: set<Key>, batch: seq<Id>)
    requires forall id :: id in batch ==> id in rows
    ensures Removable(rows, failing, batch) <= rows.Keys
    ensures batch == [] ==> Removable(rows, failing, batch) == {}
  {
  }

  lemma ClearableRows(rows: Table, now: int, failing: set<Key>)
    ensures Clearable(rows, now, failing) <= rows.Keys
  {
  }

  /** With `stuck` documents in the way, `left` of the others are few enough for the batches left. */
  predicate Left(stuck: nat, total: nat, left: nat, batch: nat) {
    Enough(stuck, total) ==> left <= (MAX_BATCHES - batch) * (BATCH_SIZE - stuck)
  }

  predicate Enough(stuck: nat, total: nat) {
    stuck < BATCH_SIZE && total <= MAX_BATCHES * (BATCH_SIZE - stuck)
  }

  lemma NoneLeft(stuck: nat, total: nat, left: nat, batch: nat)
    requires Left(stuck, total, left, batch) && batch == MAX_BATCHES
    ensures Enough(stuck, total) ==> left == 0
  {
  }

  lemma LeftShrinks(stuck: nat, total: nat, left: nat, gone: nat, batch: nat)
    requires Left(stuck, total, left, batch) && batch < MAX_BATCHES && gone <= left
    requires gone == left || gone >= BATCH_SIZE - stuck
    ensures Left(stuck, total, left - gone, batch + 1)
  {
    var d := BATCH_SIZE - stuck;
    assert (MAX_BATCHES - batch) * d == (MAX_BATCHES - batch - 1) * d + d;
    if stuck < BATCH_SIZE {
      assert (MAX_BATCHES - batch - 1) * d >= 0;
    }
  }

  /** A batch meets 200 documents, or every stuck one there is; no stuck one twice. */
  predicate Met(part: SweepResult, stuck: nat) {
    && part.objectFailures <= stuck
    && (part.deleted + part.objectFailures == BATCH_SIZE
        || (part.deleted + part.objectFailures < BATCH_SIZE && part.objectFailures == stuck))
  }

  /** What `batch` batches have met altogether. */
  predicate MetSoFar(result: SweepResult, stuck: nat, batch: nat) {
    && result.objectFailures <= batch * stuck
    && (result.objectFailures >= stuck || result.deleted + result.objectFailures >= batch * BATCH_SIZE)
  }

  /** Removing `gone` and its objects turned the first pair of stores into the second. */
  ghost predicate Removed(
    rows: Table, objects: set<Key>, gone: set<Id>, rows': Table, objects': set<Key>, part: SweepResult)
  {
    && rows' == rows - gone
    && objects' == objects - KeysOf(rows, gone)
    && part.deleted == |gone| && part.objectsRemoved == |WithObject(rows, gone)|
  }

  function Total(a: SweepResult, b: SweepResult): SweepResult {
    SweepResult(a.deleted + b.deleted, a.objectsRemoved + b.objectsRemoved, a.objectFailures + b.objectFailures)
  }

  lemma RemovedTwice(r0: Table, o0: set<Key>, gone: set<Id>, r1: Table, o1: set<Key>, a: SweepResult,
                     more: set<Id>, r2: Table, o2: set<Key>, b: SweepResult)
    requires Removed(r0, o0, gone, r1, o1, a) && Removed(r1, o1, more, r2, o2, b)
    requires gone <= r0.Keys && more <= r1.Keys
    ensures Removed(r0, o0, gone + more, r2, o2, Total(a, b))
  {
    hide KeysOf, WithObject;
    GoneGrows(r0, gone, more);
  }

  /** The arithmetic of one turn: `g` more are gone, all that was left or at least 200 - F. */
  lemma TurnCounts(start: Table, now: int, failing: set<Key>, gone: set<Id>, g: set<Id>, batch: nat)
    requires gone <= Clearable(start, now, failing) && g <= Clearable(start - gone, now, failing) && batch < MAX_BATCHES
    requires var others, stuck := Clearable(start, now, failing), |Stuck(start, now, failing)|;
      Left(stuck, |others|, |others - gone|, batch)
    requires g == Clearable(start - gone, now, failing) || |g| >= BATCH_SIZE - |Stuck(start - gone, now, failing)|
    ensures var others, stuck := Clearable(start, now, failing), |Stuck(start, now, failing)|;
      && gone + g <= others
      && Left(stuck, |others|, |others - (gone + g)|, batch + 1)
      && (g == {} && stuck < BATCH_SIZE ==> gone + g == others)
  {
    hide Clearable, Stuck;
    var others, stuck := Clearable(start, now, failing), |Stuck(start, now, failing)|;
    WithoutTheGone(start, now, failing, gone);
    SubsetSize(g, others - gone);
    LeftShrinks(stuck, |others|, |others - gone|, |g|, batch);
    assert others - gone - g == others - (gone + g);
  }

  /** What has been swept so far. */
  ghost predicate SweptTo(start: Table, first: set<Key>, now: int, failing: set<Key>, gone: set<Id>,
                          rows: Table, objects: set<Key>, result: SweepResult) {
    gone <= Clearable(start, now, failing) && Removed(start, first, gone, rows, objects, result)
  }

  /** How far the loop is: few enough left for the batches left, or nothing left at all. */
  ghost predicate HalfWay(start: Table, now: int, failing: set<Key>, gone: set<Id>, batch: nat, more: bool) {
    var others, stuck := Clearable(start, now, failing), |Stuck(start, now, failing)|;
    && gone <= others
    && Left(stuck, |others|, |others - gone|, batch)
    && (!more && stuck < BATCH_SIZE ==> gone == others)
  }

  lemma NothingSwept(rows: Table, objects: set<Key>, now: int, failing: set<Key>)
    ensures SweptTo(rows, objects, now, failing, {}, rows, objects, SweepResult(0, 0, 0))
    ensures HalfWay(rows, now, failing, {}, 0, true)
  {
    NothingGone(rows);
    var others := Clearable(rows, now, failing);
    assert others - {} == others;
  }

  lemma SweepTurn(start: Table, first: set<Key>, now: int, failing: set<Key>,
                  gone: set<Id>, r1: Table, o1: set<Key>, a: SweepResult,
                  g: set<Id>, r2: Table, o2: set<Key>, b: SweepResult, batch: nat, more: bool)
    requires SweptTo(start, first, now, failing, gone, r1, o1, a) && batch < MAX_BATCHES
    requires HalfWay(start, now, failing, gone, batch, true)
    requires Removed(r1, o1, g, r2, o2, b) && g <= Clearable(r1, now, failing) && (more <==> g != {})
    requires g == Clearable(r1, now, failing) || |g| >= BATCH_SIZE - |Stuck(r1, now, failing)|
    ensures SweptTo(start, first, now, failing, gone + g, r2, o2, Total(a, b))
    ensures HalfWay(start, now, failing, gone + g, batch + 1, more)
  {
    hide Clearable, Stuck, Left, KeysOf, WithObject;
    ClearableRows(start, now, failing);
    ClearableRows(r1, now, failing);
    TurnCounts(start, now, failing, gone, g, batch);
    RemovedTwice(start, first, gone, r1, o1, a, g, r2, o2, b);
  }

  lemma SweepEnds(start: Table, now: int, failing: set<Key>, gone: set<Id>, batch: nat, more: bool)
    requires HalfWay(start, now, failing, gone, batch, more) && (batch == MAX_BATCHES || !more)
    ensures Enough(|Stuck(start, now, failing)|, |Clearable(start, now, failing)|)
            ==> gone == Clearable(start, now, failing)
  {
    hide Clearable, Stuck;
    var others, stuck := Clearable(start, now, failing), |Stuck(start, now, failing)|;
    if batch == MAX_BATCHES {
      NoneLeft(stuck, |others|, |others - gone|, batch);
      SubsetSize(gone, others);
    }
  }

  /** The failures counted so far; the last batch of a loop that ends early met every stuck document. */
  ghost predicate FailuresSoFar(
    start: Table, now: int, failing: set<Key>, result: SweepResult, batch: nat, more: bool)
  {
    var stuck := |Stuck(start, now, failing)|;
    MetSoFar(result, stuck, batch) && (!more ==> result.objectFailures >= stuck || stuck >= BATCH_SIZE)
  }

  lemma NoFailuresYet(start: Table, now: int, failing: set<Key>)
    ensures FailuresSoFar(start, now, failing, SweepResult(0, 0, 0), 0, true)
  {
  }

  lemma FailuresGrow(start: Table, first: set<Key>, now: int, failing: set<Key>, gone: set<Id>, r1: Table, o1: set<Key>,
                     a: SweepResult, b: SweepResult, batch: nat, more: bool)
    requires SweptTo(start, first, now, failing, gone, r1, o1, a)
    requires FailuresSoFar(start, now, failing, a, batch, true)
    requires Met(b, |Stuck(r1, now, failing)|) && (!more ==> b.deleted == 0)
    ensures FailuresSoFar(start, now, failing, Total(a, b), batch + 1, more)
  {
    hide Stuck, Clearable, KeysOf, WithObject;
    WithoutTheGone(start, now, failing, gone);
    var stuck := |Stuck(start, now, failing)|;
    assert (batch + 1) * stuck == batch * stuck + stuck;
  }

  ghost predicate FailuresFit(start: Table, now: int, failing: set<Key>, result: SweepResult) {
    var stuck := |Stuck(start, now, failing)|;
    && result.objectFailures <= MAX_BATCHES * stuck
    && (Enough(stuck, |Clearable(start, now, failing)|) ==> result.objectFailures >= stuck)
  }

  /** With enough batches every stuck document fails at least once, and nothing else ever does. */
  lemma FailuresEnd(start: Table, now: int, failing: set<Key>, result: SweepResult, batch: nat, more: bool)
    requires FailuresSoFar(start, now, failing, result, batch, more)
    requires (batch == MAX_BATCHES || !more) && batch <= MAX_BATCHES
    requires result.deleted <= |Clearable(start, now, failing)|
    ensures FailuresFit(start, now, failing, result)
  {
    hide Stuck, Clearable;
    TimesGrows(batch, MAX_BATCHES, |Stuck(start, now, failing)|);
  }

  lemma TimesGrows(a: nat, b: nat, c: nat)
    requires a <= b
    ensures a * c <= b * c
  {
  }

  lemma DeletedAreClearable(start: Table, first: set<Key>, now: int, failing: set<Key>, gone: set<Id>,
                            rows: Table, objects: set<Key>, result: SweepResult)
    requires SweptTo(start, first, now, failing, gone, rows, objects, result)
    ensures result.deleted <= |Clearable(start, now, failing)|
  {
    SubsetSize(gone, Clearable(start, now, failing));
  }

  /** The state of the batch loop. */
  ghost predicate InLoop(start: Table, first: set<Key>, now: int, failing: set<Key>, gone: set<Id>,
                         rows: Table, objects: set<Key>, result: SweepResult, batch: nat, more: bool) {
    && SweptTo(start, first, now, failing, gone, rows, objects, result)
    && HalfWay(start, now, failing, gone, batch, more)
    && FailuresSoFar(start, now, failing, result, batch, more)
  }

  lemma LoopStarts(rows: Table, objects: set<Key>, now: int, failing: set<Key>)
    ensures InLoop(rows, objects, now, failing, {}, rows, objects, SweepResult(0, 0, 0), 0, true)
  {
    NothingSwept(rows, objects, now, failing);
    NoFailuresYet(rows, now, failing);
  }

  /** What one turn of the loop does, whoever did the earlier ones. */
  ghost predicate IsTurn(
    r1: Table, o1: set<Key>, now: int, failing: set<Key>, r2: Table, o2: set<Key>, b: SweepResult, more: bool)
  {
    var g := r1.Keys - r2.Keys;
    && Removed(r1, o1, g, r2, o2, b)
    && g <= Clearable(r1, now, failing)
    && (more <==> g != {}) && (!more ==> b.deleted == 0)
    && Met(b, |Stuck(r1, now, failing)|)
    && (g == Clearable(r1, now, failing) || |g| >= BATCH_SIZE - |Stuck(r1, now, failing)|)
  }

  lemma LoopTurns(start: Table, first: set<Key>, now: int, failing: set<Key>,
                  gone: set<Id>, r1: Table, o1: set<Key>, a: SweepResult,
                  r2: Table, o2: set<Key>, b: SweepResult, batch: nat, more: bool)
    requires InLoop(start, first, now, failing, gone, r1, o1, a, batch, true) && batch < MAX_BATCHES
    requires IsTurn(r1, o1, now, failing, r2, o2, b, more)
    ensures InLoop(start, first, now, failing, gone + (r1.Keys - r2.Keys), r2, o2, Total(a, b), batch + 1, more)
  {
    hide SweptTo, HalfWay, FailuresSoFar, Clearable, Stuck, Removed, Met;
    SweepTurn(start, first, now, failing, gone, r1, o1, a, r1.Keys - r2.Keys, r2, o2, b, batch, more);
    FailuresGrow(start, first, now, failing, gone, r1, o1, a, b, batch, more);
  }

  lemma LoopEnds(start: Table, first: set<Key>, now: int, failing: set<Key>, gone: set<Id>,
                 rows: Table, objects: set<Key>, result: SweepResult, batch: nat, more: bool)
    requires InLoop(start, first, now, failing, gone, rows, objects, result, batch, more)
    requires batch <= MAX_BATCHES && (batch == MAX_BATCHES || !more)
    ensures SweptTo(start, first, now, failing, gone, rows, objects, result)
    ensures Enough(|Stuck(start, now, failing)|, |Clearable(start, now, failing)|)
            ==> gone == Clearable(start, now, failing)
    ensures FailuresFit(start, now, failing, result)
  {
    hide SweptTo, HalfWay, FailuresSoFar, FailuresFit, Clearable, Stuck, Enough;
    SweepEnds(start, now, failing, gone, batch, more);
    DeletedAreClearable(start, first, now, failing, gone, rows, objects, result);
    FailuresEnd(start, now, failing, result, batch, more);
  }

  lemma WithObjectSize(rows: Table, ids: set<Id>)
    ensures |ids| == |WithObject(rows, ids)| + |ids - WithObject(rows, ids)|
  {
    SubsetSize(WithObject(rows, ids), ids);
  }

  // ----- on the fields of the rows --------------------------------------------------------------

  /** Which documents a sweep is about, read off their rows. */
  lemma DueByFields(rows: Table, now: int, failing: set<Key>)
    ensures var due := set id | id in rows && rows[id].expiresAt.Some? && rows[id].expiresAt.value <= now;
      var stuck := set id | id in due && rows[id].storageKey.Some? && rows[id].storageKey.value in failing;
      && Expired(rows, now) == due && Stuck(rows, now, failing) == stuck
      && Clearable(rows, now, failing) == due - stuck
  {
  }

  /** Fewer than 200 failing documents among the due ones, and at most 50 (200 - F) others. */
  ghost predicate HasRoom(rows: Table, now: int, failing: set<Key>) {
    var due := set id | id in rows && rows[id].expiresAt.Some? && rows[id].expiresAt.value <= now;
    var stuck := set id | id in due && rows[id].storageKey.Some? && rows[id].storageKey.value in failing;
    |stuck| < 200 && |due - stuck| <= 50 * (200 - |stuck|)
  }

  lemma KeysOfAll(rows: Table, ids: set<Id>)
    ensures forall id :: id in ids && id in rows && rows[id].storageKey.Some? ==>
      rows[id].storageKey.value in KeysOf(rows, ids)
  {
  }

  lemma BatchByFields(rows: Table, now: int, batch: seq<Id>)
    requires IsBatch(rows, now, batch)
    ensures forall id :: id in batch ==>
      id in rows && rows[id].expiresAt.Some? && rows[id].expiresAt.value <= now
    ensures forall id :: id in rows && rows[id].expiresAt.Some? && rows[id].expiresAt.value <= now && id !in batch ==>
      && |batch| == BATCH_SIZE
      && forall k :: k in batch ==> rows[k].expiresAt.value <= rows[id].expiresAt.value
  {
    DistinctCount(batch);
    var all := set id | id in batch;
    SubsetSize(all, Expired(rows, now));
    forall id | id in rows && IsExpired(rows[id], now) && id !in batch ensures |batch| == BATCH_SIZE {
      assert id in Expired(rows, now) && id !in all;
    }
  }

  /** Objects and rows, with the keys whose deletion fails for the length of one sweep. */
  class RetentionService {
    var rows: Table
    var objects: set<Key>
    const failing: set<Key>

    constructor (rows: Table, objects: set<Key>, failing: set<Key>)
      ensures this.rows == rows && this.objects == objects && this.failing == failing
    {
      this.rows, this.objects, this.failing := rows, objects, failing;
    }

    method FindExpired(now: int) returns (batch: seq<Id>)
      ensures IsBatch(rows, now, batch)
      ensures |batch| <= 200 && forall id :: id in batch ==>
        id in rows && rows[id].expiresAt.Some? && rows[id].expiresAt.value <= now
      ensures forall i, j :: 0 <= i < j < |batch| ==>
        batch[i] in rows && batch[j] in rows
        && rows[batch[i]].expiresAt.Some? && rows[batch[j]].expiresAt.Some?
        && rows[batch[i]].expiresAt.value <= rows[batch[j]].expiresAt.value
      ensures forall id :: id in rows && rows[id].expiresAt.Some? && rows[id].expiresAt.value <= now && id !in batch ==>
        && |batch| == 200
        && forall k :: k in batch ==> rows[k].expiresAt.value <= rows[id].expiresAt.value
    {
      hide PickedSoFar;
      var rest := set id | id in rows && IsExpired(rows[id], now);
      batch := [];
      NothingPicked(rows, now);
      while rest != {} && |batch| < BATCH_SIZE
        invariant PickedSoFar(rows, now, rest, batch) && |batch| <= BATCH_SIZE
        decreases |rest|
      {
        ghost var earliest := EarliestExists(rows, rest);
        var id :| id in rest && forall x :: x in rest ==> Expiry(rows, id) <= Expiry(rows, x);
        PickOne(rows, now, rest, batch, id);
        batch := batch + [id];
        rest := rest - {id};
      }
      PickedIsBatch(rows, now, rest, batch);
      BatchByFields(rows, now, batch);
    }

    method DeletePdf(key: Key) returns (ok: bool)
      modifies `objects
      ensures ok <==> key !in failing
      ensures objects == if ok then old(objects) - {key} else old(objects)
    {
      ok := key !in failing;
      if ok {
        objects := objects - {key};
      }
    }

    method DeleteMany(ids: set<Id>) returns (count: nat)
      modifies `rows
      ensures rows == old(rows) - ids && count == |old(rows).Keys * ids|
    {
      count := |rows.Keys * ids|;
      rows := rows - ids;
    }

    /** The inner loop of the sweep: objects first; what may lose its row is returned. */
    method ClearObjects(batch: seq<Id>) returns (removable: set<Id>, removed: nat, failures: nat)
      requires Distinct(batch) && forall id :: id in batch ==> id in rows
      modifies `objects
      ensures removable == Removable(rows, failing, batch)
      ensures objects == old(objects) - KeysOf(rows, removable)
      ensures removed == |WithObject(rows, removable)|
      ensures |removable| + failures == |batch|
    {
      hide ClearedSoFar;
      ghost var first := objects;
      removable, removed, failures := {}, 0, 0;
      NothingCleared(rows, failing, objects);
      for i := 0 to |batch|
        invariant ClearedSoFar(rows, failing, first, batch[..i], objects, removable, removed, failures)
      {
        var id := batch[i];
        assert id in batch;
        ClearOne(rows, failing, first, batch, i, objects, removable, removed, failures);
        if rows[id].storageKey.None? {
          removable := removable + {id};
        } else {
          var ok := DeletePdf(rows[id].storageKey.value);
          if ok {
            removed := removed + 1;
            removable := removable + {id};
          } else {
            failures := failures + 1;
          }
        }
      }
      assert batch[..|batch|] == batch;
      Cleared(rows, failing, first, batch, objects, removable, removed, failures);
    }

    /** One turn of the sweep: fetch a batch, clear its objects, delete the rows that may go. */
    method SweepBatch(now: int) returns (more: bool, part: SweepResult)
      modifies this
      ensures IsTurn(old(rows), old(objects), now, failing, rows, objects, part, more)
    {
      hide KeysOf, WithObject, Clearable, Stuck, Removable;
      var expired := FindExpired(now);
      BatchProgress(rows, now, failing, expired);
      RemovableRows(rows, failing, expired);
      part := SweepResult(0, 0, 0);
      NothingGone(rows);
      if |expired| == 0 {
        more := false;
        return;
      }
      var removable, objectsRemoved, failures := ClearObjects(expired);
      part := SweepResult(0, objectsRemoved, failures);
      more := removable != {};
      if more {
        var count := DeleteMany(removable);
        assert old(rows).Keys * removable == removable == old(rows).Keys - rows.Keys;
        part := part.(deleted := count);
      }
    }

    /** The batch loop; `gone` is what it removed altogether. */
    method SweepBatches(now: int) returns (result: SweepResult, ghost gone: set<Id>)
      modifies this
      ensures SweptTo(old(rows), old(objects), now, failing, gone, rows, objects, result)
      ensures Enough(|Stuck(old(rows), now, failing)|, |Clearable(old(rows), now, failing)|)
              ==> gone == Clearable(old(rows), now, failing)
      ensures FailuresFit(old(rows), now, failing, result)
    {
      hide InLoop, IsTurn, FailuresFit, SweptTo, Clearable, Stuck, Enough;
      result, gone := SweepResult(0, 0, 0), {};
      ghost var start, first := rows, objects;
      LoopStarts(rows, objects, now, failing);
      var batch, more := 0, true;
      while batch < MAX_BATCHES && more
        invariant 0 <= batch <= MAX_BATCHES
        invariant InLoop(start, first, now, failing, gone, rows, objects, result, batch, more)
      {
        ghost var r1, o1 := rows, objects;
        var part;
        more, part := SweepBatch(now);
        LoopTurns(start, first, now, failing, gone, r1, o1, result, rows, objects, part, batch, more);
        gone := gone + (r1.Keys - rows.Keys);
        result := Total(result, part);
        batch := batch + 1;
      }
      LoopEnds(start, first, now, failing, gone, rows, objects, result, batch, more);
    }

    /**
     * A whole sweep. Whatever the tie order of each batch, it removes only documents that expired
     * and whose object is gone, and with fewer than 200 stuck documents and few enough others it
     * removes every one of those and counts a failure for each stuck one, at most once per batch.
     */
    method Sweep(now: int) returns (result: SweepResult)
      modifies this
      ensures var gone := old(rows).Keys - rows.Keys;
        && rows == old(rows) - gone && gone <= Clearable(old(rows), now, failing)
        && objects == old(objects) - KeysOf(old(rows), gone)
        && result.deleted == |gone|
        && result.deleted == result.objectsRemoved + |gone - WithObject(old(rows), gone)|
      ensures var stuck, others := |Stuck(old(rows), now, failing)|, Clearable(old(rows), now, failing);
        stuck < 200 && |others| <= 50 * (200 - stuck)
        ==> rows == old(rows) - others && result.objectFailures >= stuck
      ensures result.objectFailures <= 50 * |Stuck(old(rows), now, failing)|
      ensures forall id :: id in old(rows) && id !in rows ==>
        && old(rows)[id].expiresAt.Some? && old(rows)[id].expiresAt.value <= now
        && (old(rows)[id].storageKey.Some? ==> old(rows)[id].storageKey.value !in objects + failing)
      ensures forall id :: id in old(rows) && (old(rows)[id].expiresAt.None? || old(rows)[id].expiresAt.value > now) ==>
        id in rows && rows[id] == old(rows)[id]
      ensures HasRoom(old(rows), now, failing) ==>
        forall id :: id in rows ==>
          && id in old(rows)
          && (rows[id].expiresAt.None? || rows[id].expiresAt.value > now
              || (rows[id].storageKey.Some? && rows[id].storageKey.value in failing))
    {
      hide Clearable, Stuck, KeysOf, WithObject;
      ghost var gone;
      result, gone := SweepBatches(now);
      ClearableRows(old(rows), now, failing);
      WithObjectSize(old(rows), gone);
      assert old(rows).Keys - rows.Keys == gone;
      DueByFields(old(rows), now, failing);
      KeysOfAll(old(rows), gone);
    }

    /** A second sweep some time later: it only meets what fell due in between, and what failed before. */
    method SweepTwice(now: int, later: int) returns (first: SweepResult, second: SweepResult, ghost between: Table)
      requires now <= later
      modifies this
      ensures forall id :: id in rows ==> id in between && rows[id] == between[id]
      ensures forall id :: id in between ==> id in old(rows) && between[id] == old(rows)[id]
      ensures forall id :: id in between && id !in rows ==>
        && between[id].expiresAt.Some? && between[id].expiresAt.value <= later
        && (HasRoom(old(rows), now, failing) ==> between[id].expiresAt.value > now)
    {
      first := Sweep(now);
      between := rows;
      second := Sweep(later);
    }
  }
}
