/**
 * Any number of sweeps, delete requests and renders over the same rows and objects, interleaved
 * step by step: one step is one query or one storage call. Any step may fail and any process may
 * die between two steps. No delete targets a document whose render is in flight.
 */
module Deletion {
  import opened Common
  import opened Retention

  /** What a delete or a sweep read about a document. */
  datatype Seen = Seen(id: Id, storageKey: Option<Key>)

  datatype Actor =
    | Resting
    | Sweeping(todo: seq<Seen>, removable: set<Id>)
    | Removing(target: Seen, objectGone: bool)

  /**
   * `rendering` are the documents with a render in flight. `leftover` records the objects whose
   * render stored them and then ended without completing the row.
   */
  datatype World = World(
    rows: map<Id, Option<Key>>, objects: set<Key>, rendering: set<Id>, leftover: set<Key>, actors: seq<Actor>)

  datatype Event =
    | Reserve(id: Id)
    | Rerender(id: Id)
    | Put(id: Id)
    | Complete(id: Id)
    | RenderFails(id: Id)
    | RenderDies(id: Id)
    | SweepFind(a: nat, batch: seq<Id>)
    | SweepObject(a: nat, ok: bool)
    | SweepRows(a: nat)
    | RemoveFind(a: nat, id: Id)
    | RemoveObject(a: nat, ok: bool)
    | RemoveRow(a: nat, ok: bool)
    | Die(a: nat)

  function Targets(actor: Actor): set<Id> {
    match actor
    case Resting => {}
    case Sweeping(todo, removable) => removable + (set s | s in todo :: s.id)
    case Removing(target, _) => {target.id}
  }

  predicate Untargeted(w: World, id: Id) {
    forall a :: 0 <= a < |w.actors| ==> id !in Targets(w.actors[a])
  }

  predicate Enabled(w: World, e: Event) {
    match e
    case Reserve(id) => id !in w.rows && Key(id) !in w.objects && id !in w.rendering && Untargeted(w, id)
    case Rerender(id) => id in w.rows && id !in w.rendering && Untargeted(w, id)
    case Put(id) => id in w.rendering && id in w.rows
    case Complete(id) => id in w.rendering && id in w.rows && Key(id) in w.objects
    case RenderFails(id) => id in w.rendering
    case RenderDies(id) => id in w.rendering
    case SweepFind(a, batch) =>
      a < |w.actors| && w.actors[a].Resting? && forall id :: id in batch ==> id in w.rows && id !in w.rendering
    case SweepObject(a, _) => a < |w.actors| && w.actors[a].Sweeping? && w.actors[a].todo != []
    case SweepRows(a) => a < |w.actors| && w.actors[a].Sweeping? && w.actors[a].todo == []
    case RemoveFind(a, id) => a < |w.actors| && w.actors[a].Resting? && id in w.rows && id !in w.rendering
    case RemoveObject(a, _) => a < |w.actors| && w.actors[a].Removing? && !w.actors[a].objectGone
    case RemoveRow(a, _) => a < |w.actors| && w.actors[a].Removing? && w.actors[a].objectGone
    case Die(a) => a < |w.actors|
  }

  function Read(w: World, ids: seq<Id>): seq<Seen>
    requires forall id :: id in ids ==> id in w.rows
  {
    seq(|ids|, i requires 0 <= i < |ids| && ids[i] in ids => Seen(ids[i], w.rows[ids[i]]))
  }

  function Set(w: World, a: nat, actor: Actor): World
    requires a < |w.actors|
  {
    w.(actors := w.actors[a := actor])
  }

  /** A render that ends without completing its row, be it by an error or by the death of its process. */
  function Abandon(w: World, id: Id): World {
    w.(rendering := w.rendering - {id},
       leftover :=
           if id in w.rows && w.rows[id].None? && Key(id) in w.objects then w.leftover + {Key(id)} else w.leftover)
  }

  function Step(w: World, e: Event): World
    requires Enabled(w, e)
  {
    match e
    case Reserve(id) => w.(rows := w.rows[id := None], rendering := w.rendering + {id})
    case Rerender(id) => w.(rendering := w.rendering + {id})
    case Put(id) => w.(objects := w.objects + {Key(id)})
    case Complete(id) =>
      w.(rows := w.rows[id := Some(Key(id))], rendering := w.rendering - {id}, leftover := w.leftover - {Key(id)})
    case RenderFails(id) => Abandon(w, id)
    case RenderDies(id) => Abandon(w, id)
    case SweepFind(a, batch) => Set(w, a, Sweeping(Read(w, batch), {}))
    case SweepObject(a, ok) =>
      var s := w.actors[a].todo[0];
      var rest := w.actors[a].todo[1..];
      if s.storageKey.None? then Set(w, a, Sweeping(rest, w.actors[a].removable + {s.id}))
      else if ok then
        Set(w.(objects := w.objects - {s.storageKey.value}), a, Sweeping(rest, w.actors[a].removable + {s.id}))
      else Set(w, a, Sweeping(rest, w.actors[a].removable))
    case SweepRows(a) => Set(w.(rows := w.rows - w.actors[a].removable), a, Resting)
    case RemoveFind(a, id) => Set(w, a, Removing(Seen(id, w.rows[id]), w.rows[id].None?))
    case RemoveObject(a, ok) =>
      var s := w.actors[a].target;
      if !ok || s.storageKey.None? then Set(w, a, Resting)
      else Set(w.(objects := w.objects - {s.storageKey.value}), a, Removing(s, true))
    case RemoveRow(a, ok) =>
      Set(if ok then w.(rows := w.rows - {w.actors[a].target.id}) else w, a, Resting)
    case Die(a) => Set(w, a, Resting)
  }

  function Start(actors: nat): World {
    World(map[], {}, {}, {}, seq(actors, _ => Resting))
  }

  predicate Run(w: World, es: seq<Event>)
    decreases |es|
  {
    es == [] || (Enabled(w, es[0]) && Run(Step(w, es[0]), es[1..]))
  }

  function After(w: World, es: seq<Event>): World
    requires Run(w, es)
    decreases |es|
  {
    if es == [] then w else After(Step(w, es[0]), es[1..])
  }

  // ----- the invariant ------------------------------------------------------------------------

  /** A row names its own object or none. */
  predicate OwnKey(w: World, id: Id)
    requires id in w.rows
  {
    w.rows[id].None? || w.rows[id] == Some(Key(id))
  }

  /** An object's row points at it, or its render is in flight, or it is a recorded leftover. */
  predicate Accounted(w: World, k: Key) {
    k in w.leftover || (k.doc in w.rows && (w.rows[k.doc] == Some(k) || k.doc in w.rendering))
  }

  /** Deleting this row leaves no object behind. */
  predicate Bare(w: World, id: Id) {
    id !in w.rendering && (Key(id) in w.objects ==> Key(id) in w.leftover)
  }

  /** What an actor read is still true. */
  predicate StillTrue(w: World, s: Seen) {
    s.id !in w.rendering
    && (if s.id in w.rows then w.rows[s.id] == s.storageKey
        else Bare(w, s.id) && (Key(s.id) in w.objects ==> s.storageKey.None?))
    && (s.storageKey.None? || s.storageKey == Some(Key(s.id)))
  }

  predicate Sound(w: World, actor: Actor) {
    match actor
    case Resting => true
    case Sweeping(todo, removable) =>
      (forall i :: 0 <= i < |todo| ==> StillTrue(w, todo[i])) && (forall id :: id in removable ==> Bare(w, id))
    case Removing(target, objectGone) => StillTrue(w, target) && (objectGone ==> Bare(w, target.id))
  }

  predicate Stores(w: World) {
    && (forall id :: id in w.rows ==> OwnKey(w, id))
    && (forall k :: k in w.objects ==> Accounted(w, k))
    && (forall k :: k in w.leftover && k.doc in w.rows ==> w.rows[k.doc].None?)
  }

  predicate Actors(w: World) {
    forall a :: 0 <= a < |w.actors| ==> Sound(w, w.actors[a])
  }

  predicate Inv(w: World) {
    Stores(w) && Actors(w)
  }

  /** A step takes no object and no knowledge away from an actor it does not belong to. */
  lemma SeenStays(w: World, e: Event, s: Seen)
    requires Stores(w) && Actors(w) && Enabled(w, e) && StillTrue(w, s)
    requires e.Reserve? || e.Rerender? ==> e.id != s.id
    ensures StillTrue(Step(w, e), s)
  {
  }

  lemma BareStays(w: World, e: Event, id: Id)
    requires Enabled(w, e) && Bare(w, id) && (e.Reserve? || e.Rerender? ==> e.id != id)
    ensures Bare(Step(w, e), id)
  {
  }

  /** Every step keeps every actor sound whose targets it does not start to render. */
  lemma SoundStays(w: World, e: Event, actor: Actor)
    requires Stores(w) && Actors(w) && Enabled(w, e) && Sound(w, actor)
    requires e.Reserve? || e.Rerender? ==> e.id !in Targets(actor)
    ensures Sound(Step(w, e), actor)
  {
    hide Step, Enabled, Stores, Actors;
    match actor
    case Resting =>
    case Sweeping(todo, removable) =>
      forall i | 0 <= i < |todo| ensures StillTrue(Step(w, e), todo[i]) {
        assert todo[i].id in Targets(actor);
        SeenStays(w, e, todo[i]);
      }
      forall id | id in removable ensures Bare(Step(w, e), id) {
        BareStays(w, e, id);
      }
    case Removing(target, objectGone) =>
      SeenStays(w, e, target);
      if objectGone {
        BareStays(w, e, target.id);
      }
  }

  lemma StoresKept(w: World, e: Event)
    requires Inv(w) && Enabled(w, e) && !e.SweepObject? && !e.RemoveObject?
    ensures Stores(Step(w, e))
  {
  }

  lemma StoresKeptByDelete(w: World, e: Event)
    requires Inv(w) && Enabled(w, e) && (e.SweepObject? || e.RemoveObject?)
    ensures Stores(Step(w, e))
  {
  }

  /** The state in which the acting actor finds itself is sound. */
  lemma OwnStepSound(w: World, e: Event)
    requires Inv(w) && Enabled(w, e)
    requires e.SweepFind? || e.SweepObject? || e.RemoveFind? || e.RemoveObject?
    ensures Sound(Step(w, e), Step(w, e).actors[e.a])
  {
    assert Sound(w, w.actors[e.a]);
  }

  lemma ActorsKept(w: World, e: Event)
    requires Inv(w) && Enabled(w, e)
    ensures Actors(Step(w, e))
  {
    var t := Step(w, e);
    forall a | 0 <= a < |t.actors| ensures Sound(t, t.actors[a]) {
      if t.actors[a] == w.actors[a] {
        SoundStays(w, e, w.actors[a]);
      } else if !t.actors[a].Resting? {
        OwnStepSound(w, e);
      }
    }
  }

  lemma StepKeepsInv(w: World, e: Event)
    requires Inv(w) && Enabled(w, e)
    ensures Inv(Step(w, e))
  {
    hide Step, Enabled, Stores, Actors;
    if e.SweepObject? || e.RemoveObject? {
      StoresKeptByDelete(w, e);
    } else {
      StoresKept(w, e);
    }
    ActorsKept(w, e);
  }

  lemma {:induction false} RunKeepsInv(w: World, es: seq<Event>)
    requires Inv(w) && Run(w, es)
    ensures Inv(After(w, es))
    decreases |es|
  {
    hide Step, Enabled, Inv;
    if es == [] {
    } else {
      StepKeepsInv(w, es[0]);
      RunKeepsInv(Step(w, es[0]), es[1..]);
    }
  }

  // ----- orphans ------------------------------------------------------------------------------

  /** A stored object that no row belongs to. */
  predicate Orphaned(w: World, k: Key) {
    k in w.objects && k.doc !in w.rows
  }

  /** The rows event `e` deletes. */
  function DeletedRows(w: World, e: Event): set<Id> {
    match e
    case SweepRows(a) =>
      if a < |w.actors| && w.actors[a].Sweeping? then w.actors[a].removable else {}
    case RemoveRow(a, true) =>
      if a < |w.actors| && w.actors[a].Removing? then {w.actors[a].target.id} else {}
    case _ => {}
  }

  /** Event `e` deletes a row that has no storage key although its object is stored. */
  predicate Orphans(w: World, e: Event, k: Key) {
    k in w.objects && k.doc in DeletedRows(w, e) && k.doc in w.rows && w.rows[k.doc].None?
  }

  /** What is about to be deleted has no object, or one its row does not name. */
  lemma DeletedAreBare(w: World, e: Event, id: Id)
    requires Inv(w) && Enabled(w, e) && id in DeletedRows(w, e)
    ensures Bare(w, id)
  {
    assert Sound(w, w.actors[e.a]);
  }

  lemma RowsStay(w: World, e: Event, id: Id)
    requires Enabled(w, e) && id in w.rows
    ensures id in Step(w, e).rows <==> id !in DeletedRows(w, e)
  {
  }

  lemma ObjectsComeWithRows(w: World, e: Event, k: Key)
    requires Enabled(w, e) && k in Step(w, e).objects && k !in w.objects
    ensures k.doc in w.rows && DeletedRows(w, e) == {}
  {
  }

  lemma OrphanStays(w: World, e: Event, k: Key)
    requires Inv(w) && Enabled(w, e) && Orphaned(w, k)
    ensures Orphaned(Step(w, e), k)
  {
    if e.SweepObject? || e.RemoveObject? {
      assert Sound(w, w.actors[e.a]);
    }
  }

  lemma ObjectsStayWhenRowsGo(w: World, e: Event)
    requires Enabled(w, e) && DeletedRows(w, e) != {}
    ensures Step(w, e).objects == w.objects
  {
  }

  /** Exactly when one step leaves an object without its row. Nothing ever repairs that. */
  lemma OrphansExactly(w: World, e: Event, k: Key)
    requires Inv(w) && Enabled(w, e)
    ensures Orphaned(Step(w, e), k) <==> Orphaned(w, k) || Orphans(w, e, k)
  {
    hide Step, Enabled, Inv;
    if Orphaned(w, k) {
      OrphanStays(w, e, k);
    } else if k !in w.objects {
      if k in Step(w, e).objects {
        ObjectsComeWithRows(w, e, k);
        RowsStay(w, e, k.doc);
      }
    } else {
      RowsStay(w, e, k.doc);
      if k.doc in DeletedRows(w, e) {
        DeletedAreBare(w, e, k.doc);
        LeftoverHasNoKey(w, k);
        ObjectsStayWhenRowsGo(w, e);
      }
    }
  }

  lemma LeftoverHasNoKey(w: World, k: Key)
    requires Inv(w) && k.doc in w.rows && Bare(w, k.doc) && k in w.objects
    ensures w.rows[k.doc].None?
  {
    assert k == Key(k.doc);
  }

  ghost predicate LosesItsRow(w: World, es: seq<Event>, k: Key)
    requires Run(w, es)
    decreases |es|
  {
    es != [] && (Orphans(w, es[0], k) || LosesItsRow(Step(w, es[0]), es[1..], k))
  }

  lemma {:induction false} OrphanedExactly(w: World, es: seq<Event>, k: Key)
    requires Inv(w) && Run(w, es)
    ensures Orphaned(After(w, es), k) <==> Orphaned(w, k) || LosesItsRow(w, es, k)
    decreases |es|
  {
    hide Step, Enabled, Inv, Orphaned, Orphans;
    if es == [] {
    } else {
      OrphansExactly(w, es[0], k);
      StepKeepsInv(w, es[0]);
      OrphanedExactly(Step(w, es[0]), es[1..], k);
    }
  }

  lemma StartInv(actors: nat)
    ensures Inv(Start(actors))
  {
  }

  /**
   * After every step of every interleaving, with any step failing or any process dying: a stored
   * object has its row unless some step deleted that row while it had no storage key and the object
   * was stored; and the row points at the object, or a render is in flight or ended unfinished.
   */
  lemma ObjectsKeepTheirRows(actors: nat, es: seq<Event>)
    requires Run(Start(actors), es)
    ensures var w := After(Start(actors), es);
      forall k :: k in w.objects ==>
        && (k.doc in w.rows <==> !LosesItsRow(Start(actors), es, k))
        && (k.doc in w.rows ==> w.rows[k.doc] == Some(k) || k.doc in w.rendering || k in w.leftover)
  {
    StartInv(actors);
    RunKeepsInv(Start(actors), es);
    var w := After(Start(actors), es);
    forall k | k in w.objects
      ensures k.doc in w.rows <==> !LosesItsRow(Start(actors), es, k)
      ensures k.doc in w.rows ==> w.rows[k.doc] == Some(k) || k.doc in w.rendering || k in w.leftover
    {
      assert Accounted(w, k);
      OrphanedExactly(Start(actors), es, k);
    }
  }

  predicate Unfinished(e: Event) {
    e.RenderFails? || e.RenderDies?
  }

  lemma NoLeftoverNoOrphan(w: World, e: Event, k: Key)
    requires Inv(w) && Enabled(w, e) && w.leftover == {}
    ensures !Orphans(w, e, k)
  {
    if k.doc in DeletedRows(w, e) {
      DeletedAreBare(w, e, k.doc);
      assert k == Key(k.doc);
    }
  }

  /** If every render in flight completes its row, no object ever loses its row. */
  lemma {:induction false} OrphansOnlyFromUnfinishedRenders(w: World, es: seq<Event>, k: Key)
    requires Inv(w) && w.leftover == {} && Run(w, es) && forall e :: e in es ==> !Unfinished(e)
    ensures !LosesItsRow(w, es, k)
    decreases |es|
  {
    hide Orphans, Inv;
    if es == [] {
    } else {
      assert es[0] in es;
      NoLeftoverNoOrphan(w, es[0], k);
      StepKeepsInv(w, es[0]);
      assert Step(w, es[0]).leftover <= w.leftover;
      OrphansOnlyFromUnfinishedRenders(Step(w, es[0]), es[1..], k);
    }
  }

  /**
   * The exception is real: when storing the object works and the row is not completed, because the
   * update fails or the process dies, the row is left without a storage key, and deleting the
   * document orphans the object.
   */
  lemma UnfinishedRenderOrphans(id: Id, died: bool)
    ensures
      var unfinished := if died then RenderDies(id) else RenderFails(id);
      var es := [Reserve(id), Put(id), unfinished, RemoveFind(0, id), RemoveRow(0, true)];
      && Run(Start(1), es)
      && Orphaned(After(Start(1), es), Key(id)) && LosesItsRow(Start(1), es, Key(id))
  {
    var unfinished := if died then RenderDies(id) else RenderFails(id);
    var w0 := Start(1);
    var w1 := Step(w0, Reserve(id));
    var w2 := Step(w1, Put(id));
    var w3 := Step(w2, unfinished);
    assert w3.actors[0] == Resting && w3.rows == map[id := None] && w3.objects == {Key(id)};
    var w4 := Step(w3, RemoveFind(0, id));
    assert w4.actors[0] == Removing(Seen(id, None), true);
    var w5 := Step(w4, RemoveRow(0, true));
    var es := [Reserve(id), Put(id), unfinished, RemoveFind(0, id), RemoveRow(0, true)];
    Unfold(w4, es[4..]);
    Unfold(w3, es[3..]);
    Unfold(w2, es[2..]);
    Unfold(w1, es[1..]);
    Unfold(w0, es);
    StartInv(1);
    OrphanedExactly(w0, es, Key(id));
  }

  lemma Unfold(w: World, es: seq<Event>)
    requires es != [] && Enabled(w, es[0]) && Run(Step(w, es[0]), es[1..])
    ensures Run(w, es) && After(w, es) == After(Step(w, es[0]), es[1..])
  {
  }

  // ----- one delete request -------------------------------------------------------------------

  /** The commands of a delete request: a failed object delete ends it before the row. */
  function RemoveEvents(a: nat, id: Id, storageKey: Option<Key>, objectOk: bool, rowOk: bool): seq<Event> {
    [RemoveFind(a, id)] +
    if storageKey.None? then [RemoveRow(a, rowOk)]
    else if objectOk then [RemoveObject(a, true)] + [RemoveRow(a, rowOk)]
    else [RemoveObject(a, false)]
  }

  function Remaining(objects: set<Key>, storageKey: Option<Key>, objectOk: bool): set<Key> {
    if storageKey.Some? && objectOk then objects - {storageKey.value} else objects
  }

  predicate Succeeds(storageKey: Option<Key>, objectOk: bool, rowOk: bool) {
    (storageKey.Some? ==> objectOk) && rowOk
  }

  lemma LastEvent(w: World, e: Event)
    requires Enabled(w, e)
    ensures Run(w, [e]) && After(w, [e]) == Step(w, e)
  {
    assert Run(Step(w, e), []);
    Unfold(w, [e]);
  }

  /** What `DocumentsService.Remove` does is a run of the protocol. */
  lemma RemoveIsARun(w: World, a: nat, id: Id, objectOk: bool, rowOk: bool)
    requires a < |w.actors| && w.actors[a].Resting? && id in w.rows && id !in w.rendering
    ensures var key := w.rows[id];
      var es := RemoveEvents(a, id, key, objectOk, rowOk);
      && Run(w, es)
      && After(w, es) == w.(objects := Remaining(w.objects, key, objectOk),
                            rows := if Succeeds(key, objectOk, rowOk) then w.rows - {id} else w.rows)
  {
    hide Run, After;
    var key := w.rows[id];
    var w1 := Step(w, RemoveFind(a, id));
    var es := RemoveEvents(a, id, key, objectOk, rowOk);
    if key.None? {
      LastEvent(w1, RemoveRow(a, rowOk));
      assert Step(w1, RemoveRow(a, rowOk)).actors == w.actors;
    } else {
      var w2 := Step(w1, RemoveObject(a, objectOk));
      if objectOk {
        LastEvent(w2, RemoveRow(a, rowOk));
        assert es[1..][1..] == [RemoveRow(a, rowOk)];
        Unfold(w1, es[1..]);
        assert Step(w2, RemoveRow(a, rowOk)).actors == w.actors;
      } else {
        LastEvent(w1, RemoveObject(a, false));
        assert w2.actors == w.actors;
      }
    }
    Unfold(w, es);
  }

  /**
   * A delete request orphans the object of its document exactly when it gets as far as deleting a
   * row that had no storage key when it began, while the object was stored.
   */
  lemma RemoveOrphansIff(w: World, a: nat, id: Id, objectOk: bool, rowOk: bool)
    requires Inv(w) && a < |w.actors| && w.actors[a].Resting? && id in w.rows && id !in w.rendering
    ensures var es := RemoveEvents(a, id, w.rows[id], objectOk, rowOk);
      && Run(w, es)
      && (Orphaned(After(w, es), Key(id)) <==> rowOk && w.rows[id].None? && Key(id) in w.objects)
  {
    RemoveIsARun(w, a, id, objectOk, rowOk);
    assert OwnKey(w, id);
  }

  // ----- one render, one sweep --------------------------------------------------------------------

  /** A render, the first of its document or a later one, that nothing interrupts. */
  function RenderEvents(id: Id, again: bool): seq<Event> {
    [if again then Rerender(id) else Reserve(id)] + ([Put(id)] + [Complete(id)])
  }

  /** A render that comes through leaves a row that points at its object, and no render in flight. */
  lemma RenderCompletes(w: World, id: Id, again: bool)
    requires Enabled(w, if again then Rerender(id) else Reserve(id))
    ensures var es := RenderEvents(id, again);
      && Run(w, es)
      && After(w, es).rows == w.rows[id := Some(Key(id))] && After(w, es).objects == w.objects + {Key(id)}
      && After(w, es).rendering == w.rendering - {id} && After(w, es).actors == w.actors
  {
    var start := if again then Rerender(id) else Reserve(id);
    var w1 := Step(w, start);
    var w2 := Step(w1, Put(id));
    LastEvent(w2, Complete(id));
    var t := Step(w2, Complete(id));
    assert t.rendering == w.rendering - {id};
    assert t.rows == w.rows[id := Some(Key(id))];
    hide Step, Enabled, Run, After;
    assert ([Put(id)] + [Complete(id)])[1..] == [Complete(id)];
    Unfold(w1, [Put(id)] + [Complete(id)]);
    assert RenderEvents(id, again)[1..] == [Put(id)] + [Complete(id)];
    Unfold(w, RenderEvents(id, again));
  }

  /** A delete request on its document then takes both away and nothing else. */
  lemma RenderedThenRemoved(w: World, a: nat, id: Id, again: bool)
    requires Enabled(w, if again then Rerender(id) else Reserve(id))
    requires a < |w.actors| && w.actors[a].Resting? && id !in w.rendering
    ensures var es, fs := RenderEvents(id, again), RemoveEvents(a, id, Some(Key(id)), true, true);
      && Run(w, es) && Run(After(w, es), fs)
      && var t := After(After(w, es), fs);
        && t.rows == w.rows - {id} && t.objects == w.objects - {Key(id)}
        && t.rendering == w.rendering && t.actors == w.actors
  {
    RenderCompletes(w, id, again);
    hide Step, Enabled, Run, After, RenderEvents, RemoveEvents;
    var t := After(w, RenderEvents(id, again));
    RemoveIsARun(t, a, id, true, true);
    assert t.rows - {id} == w.rows - {id} && t.objects - {Key(id)} == w.objects - {Key(id)};
    assert t.rendering == w.rendering;
  }

  /** The object deletes of a sweep, failing on these keys. */
  function ClearEvents(a: nat, todo: seq<Seen>, failing: set<Key>): seq<Event> {
    if todo == [] then []
    else [SweepObject(a, !Resists(todo[0], failing))] + ClearEvents(a, todo[1..], failing)
  }

  predicate Resists(s: Seen, failing: set<Key>) {
    s.storageKey.Some? && s.storageKey.value in failing
  }

  function Going(todo: seq<Seen>, failing: set<Key>): set<Id> {
    set s | s in todo && !Resists(s, failing) :: s.id
  }

  function GoingKeys(todo: seq<Seen>, failing: set<Key>): set<Key> {
    set s | s in todo && s.storageKey.Some? && !Resists(s, failing) :: s.storageKey.value
  }

  lemma GoingOne(todo: seq<Seen>, failing: set<Key>)
    requires todo != []
    ensures var s := todo[0];
      && Going(todo, failing) == (if Resists(s, failing) then {} else {s.id}) + Going(todo[1..], failing)
      && GoingKeys(todo, failing) ==
         (if s.storageKey.Some? && !Resists(s, failing) then {s.storageKey.value} else {})
         + GoingKeys(todo[1..], failing)
  {
    assert todo == [todo[0]] + todo[1..];
  }

  function AfterClearing(w: World, a: nat, todo: seq<Seen>, removable: set<Id>, failing: set<Key>): World
    requires a < |w.actors|
  {
    Set(w.(objects := w.objects - GoingKeys(todo, failing)), a, Sweeping([], removable + Going(todo, failing)))
  }

  lemma ClearStep(w: World, a: nat, todo: seq<Seen>, removable: set<Id>, failing: set<Key>)
    requires a < |w.actors| && w.actors[a] == Sweeping(todo, removable) && todo != []
    ensures var e, s := SweepObject(a, !Resists(todo[0], failing)), todo[0];
      var gone := if Resists(s, failing) then {} else {s.id};
      && Enabled(w, e)
      && |Step(w, e).actors| == |w.actors|
      && Step(w, e).actors[a] == Sweeping(todo[1..], removable + gone)
      && AfterClearing(Step(w, e), a, todo[1..], removable + gone, failing)
         == AfterClearing(w, a, todo, removable, failing)
  {
    GoingOne(todo, failing);
    hide Going, GoingKeys;
    var e := SweepObject(a, !Resists(todo[0], failing));
    var gone := if Resists(todo[0], failing) then {} else {todo[0].id};
    assert removable + gone == if gone == {} then removable else removable + gone;
    assert removable + gone + Going(todo[1..], failing) == removable + Going(todo, failing);
    assert Step(w, e).objects - GoingKeys(todo[1..], failing) == w.objects - GoingKeys(todo, failing);
  }

  lemma {:induction false} ClearingRuns(w: World, a: nat, todo: seq<Seen>, removable: set<Id>, failing: set<Key>)
    requires a < |w.actors| && w.actors[a] == Sweeping(todo, removable)
    ensures var es := ClearEvents(a, todo, failing);
      Run(w, es) && After(w, es) == AfterClearing(w, a, todo, removable, failing)
    decreases |todo|
  {
    if todo == [] {
      assert w.actors[a := w.actors[a]] == w.actors;
      assert removable + Going([], failing) == removable && w.objects - GoingKeys([], failing) == w.objects;
    } else {
      var e, s := SweepObject(a, !Resists(todo[0], failing)), todo[0];
      ClearStep(w, a, todo, removable, failing);
      hide Step, Enabled, AfterClearing;
      ClearingRuns(Step(w, e), a, todo[1..], removable + (if Resists(s, failing) then {} else {s.id}), failing);
      assert ([e] + ClearEvents(a, todo[1..], failing))[1..] == ClearEvents(a, todo[1..], failing);
      Unfold(w, [e] + ClearEvents(a, todo[1..], failing));
    }
  }

  lemma {:induction false} RunOn(w: World, a: seq<Event>, b: seq<Event>)
    requires Run(w, a) && Run(After(w, a), b)
    ensures Run(w, a + b) && After(w, a + b) == After(After(w, a), b)
    decreases |a|
  {
    hide Step, Enabled;
    if a == [] {
      assert a + b == b;
    } else {
      RunOn(Step(w, a[0]), a[1..], b);
      assert (a + b)[1..] == a[1..] + b;
      Unfold(w, a + b);
    }
  }

  lemma ReadGoing(w: World, t: Table, batch: seq<Id>, failing: set<Key>)
    requires forall id :: id in batch ==> id in w.rows && id in t && t[id].storageKey == w.rows[id]
    ensures Going(Read(w, batch), failing) == Removable(t, failing, batch)
    ensures GoingKeys(Read(w, batch), failing) == KeysOf(t, Removable(t, failing, batch))
  {
    var todo := Read(w, batch);
    forall id ensures id in Going(todo, failing) <==> id in Removable(t, failing, batch) {
      if id in Removable(t, failing, batch) {
        var i :| 0 <= i < |batch| && batch[i] == id;
        assert todo[i] in todo && todo[i].id == id;
      }
    }
    forall k ensures k in GoingKeys(todo, failing) <==> k in KeysOf(t, Removable(t, failing, batch)) {
      if k in KeysOf(t, Removable(t, failing, batch)) {
        var id :| id in Removable(t, failing, batch) && id in t && t[id].storageKey == Some(k);
        var i :| 0 <= i < |batch| && batch[i] == id;
        assert todo[i] in todo && todo[i].storageKey == Some(k);
      }
    }
  }

  /**
   * One batch of the retention sweep, as `RetentionService.SweepBatch` does it on a table with these
   * storage keys, is a run of the protocol: find, delete the objects, delete the rows that may go.
   */
  lemma SweepIsARun(w: World, a: nat, t: Table, batch: seq<Id>, failing: set<Key>)
    requires a < |w.actors| && w.actors[a].Resting?
    requires forall id :: id in batch ==> id in w.rows && id !in w.rendering
    requires forall id :: id in batch ==> id in t && t[id].storageKey == w.rows[id]
    ensures var es := [SweepFind(a, batch)] + (ClearEvents(a, Read(w, batch), failing) + [SweepRows(a)]);
      var gone := Removable(t, failing, batch);
      Run(w, es) && After(w, es) == w.(rows := w.rows - gone, objects := w.objects - KeysOf(t, gone))
  {
    var todo := Read(w, batch);
    var w1 := Step(w, SweepFind(a, batch));
    ClearingRuns(w1, a, todo, {}, failing);
    ReadGoing(w, t, batch, failing);
    var w2 := AfterClearing(w1, a, todo, {}, failing);
    LastEvent(w2, SweepRows(a));
    RunOn(w1, ClearEvents(a, todo, failing), [SweepRows(a)]);
    var es := ClearEvents(a, todo, failing) + [SweepRows(a)];
    assert ([SweepFind(a, batch)] + es)[1..] == es;
    Unfold(w, [SweepFind(a, batch)] + es);
    assert Step(w2, SweepRows(a)).actors == w.actors;
    assert {} + Going(todo, failing) == Going(todo, failing);
  }

  datatype AuditEntry = AuditEntry(org: nat, target: Id)

  /** The stores with the delete endpoint's operation on them; `owner` is a row's organization. */
  class DocumentsService {
    var rows: map<Id, Option<Key>>
    var objects: set<Key>
    var audit: seq<AuditEntry>
    const owner: map<Id, nat>

    constructor (rows: map<Id, Option<Key>>, objects: set<Key>, owner: map<Id, nat>)
      ensures this.rows == rows && this.objects == objects && this.owner == owner && audit == []
    {
      this.rows, this.objects, this.owner, this.audit := rows, objects, owner, [];
    }

    predicate Finds(org: nat, id: Id)
      reads this
    {
      id in rows && id in owner && owner[id] == org
    }

    /**
     * Finds the organization's row, deletes the object, then the row, then writes the audit entry.
     * A failure before the row is deleted leaves the row; a failure after it leaves no entry.
     */
    method Remove(org: nat, id: Id, objectOk: bool, rowOk: bool, auditOk: bool) returns (done: bool)
      modifies this
      ensures var gone := old(Finds(org, id)) && Succeeds(old(rows)[id], objectOk, rowOk);
        && (done <==> gone && auditOk)
        && rows == (if gone then old(rows) - {id} else old(rows))
        && audit == if done then old(audit) + [AuditEntry(org, id)] else old(audit)
      ensures objects == if old(Finds(org, id)) then Remaining(old(objects), old(rows)[id], objectOk) else old(objects)
      ensures rows != old(rows) <==>
        && id in old(rows) && id in owner && owner[id] == org
        && (old(rows)[id].Some? ==> objectOk) && rowOk
      ensures objects != old(objects) <==>
        && id in old(rows) && id in owner && owner[id] == org
        && old(rows)[id].Some? && objectOk && old(rows)[id].value in old(objects)
      ensures done <==> rows != old(rows) && auditOk
      ensures forall other :: other != id ==>
        (other in rows <==> other in old(rows)) && (other in rows ==> rows[other] == old(rows)[other])
    {
      if !Finds(org, id) {
        return false;
      }
      var storageKey := rows[id];
      if storageKey.Some? {
        if !objectOk {
          return false;
        }
        objects := objects - {storageKey.value};
      }
      if !rowOk {
        return false;
      }
      rows := rows - {id};
      if auditOk {
        audit := audit + [AuditEntry(org, id)];
      }
      done := auditOk;
    }
  }
}
