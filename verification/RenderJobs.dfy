/**
 * Asynchronous renders with one-shot secrets, and the render pipeline they share with synchronous
 * requests. One step is one database, Redis, storage or queue command, or one call of the renderer,
 * the watermarker or qpdf. Submitters and workers interleave; a job may be run any number of times,
 * even twice at once; anything may fail or die between two steps, and a secret may expire any time.
 */
module RenderJobs {
  import opened Common
  import opened Watermarking
  import PageSelection

  type DocId = nat
  type SecretId = nat

  datatype Status = Queued | Rendering | Completed | Failed

  datatype Doc = Doc(status: Status, isEncrypted: bool, hasWatermark: bool)

  /** The row of a request: its two flags say whether the field is there at all. */
  function Row(status: Status, q: Request): Doc {
    Doc(status, !q.protection.Absent?, !q.watermark.Absent?)
  }

  /** The payload in the queue: the request without its protection, and a handle to the secret. */
  datatype Job = Job(watermark: Field<Watermark>, secret: Option<SecretId>)

  /** How far `renderAsync` has got for a document. */
  datatype Submission =
    | Reserved
    | Stored(secret: Option<SecretId>)
    | EnqueueFailed(secret: Option<SecretId>)
    | Over

  /** Where a pipeline run is: each stage holds the file made so far. */
  datatype Stage = Starting | Marked | WithPages(pdf: Pdf) | AfterStamp(pdf: Pdf) | Final(pdf: Pdf) | Put

  /** A worker or a synchronous request. */
  datatype Runner =
    | Idle
    | Taking(doc: DocId)
    | Running(doc: DocId, dto: Request, stage: Stage)

  /**
   * The stores, the submissions and the runners. The rest records the run: what was asked for each
   * document, whom each secret was stored for, how often it was taken, and how often each document
   * entered the pipeline.
   */
  datatype World = World(
    docs: map<DocId, Doc>, objects: map<DocId, Pdf>, vault: set<SecretId>, jobs: map<DocId, Job>,
    submissions: map<DocId, Submission>, runners: seq<Runner>,
    asked: map<DocId, Request>, docOf: map<SecretId, DocId>, taken: multiset<SecretId>, entered: multiset<DocId>)

  datatype Event =
    | Reserve(doc: DocId, request: Request)
    | StoreSecret(doc: DocId, id: SecretId)
    | Enqueue(doc: DocId, ok: bool, landed: bool)
    | Discard(doc: DocId)
    | SubmitDies(doc: DocId)
    | SecretExpires(id: SecretId)
    | PickUp(r: nat, doc: DocId)
    | Take(r: nat)
    | SyncStart(r: nat, doc: DocId, request: Request)
    | MarkRendering(r: nat)
    | Render(r: nat, pages: nat)
    | StampIfAsked(r: nat, stamps: seq<int>)
    | EncryptIfAsked(r: nat)
    | PutObject(r: nat)
    | Complete(r: nat)
    | PipelineFails(r: nat)
    | RunnerDies(r: nat)

  predicate Is(w: World, r: nat, stage: Stage) {
    r < |w.runners| && w.runners[r].Running? && w.runners[r].stage == stage
  }

  predicate Holds(w: World, r: nat) {
    r < |w.runners| && w.runners[r].Running?
  }

  predicate Submitting(w: World, d: DocId) {
    d in w.submissions && d in w.asked
  }

  ghost predicate Enabled(w: World, e: Event) {
    match e
    case Reserve(d, _) => d !in w.asked && d !in w.docs
    case StoreSecret(d, id) => Submitting(w, d) && w.submissions[d].Reserved? && id !in w.docOf
    case Enqueue(d, _, _) => Submitting(w, d) && w.submissions[d].Stored?
    case Discard(d) => Submitting(w, d) && w.submissions[d].EnqueueFailed?
    case SubmitDies(d) => Submitting(w, d)
    case SecretExpires(id) => true
    case PickUp(r, d) => r < |w.runners| && w.runners[r].Idle? && d in w.jobs
    case Take(r) => r < |w.runners| && w.runners[r].Taking? && w.runners[r].doc in w.jobs
    case SyncStart(r, d, _) => r < |w.runners| && w.runners[r].Idle? && d !in w.asked && d !in w.docs
    case MarkRendering(r) => Is(w, r, Starting)
    case Render(r, _) => Is(w, r, Marked)
    case StampIfAsked(r, stamps) =>
      && Holds(w, r) && w.runners[r].stage.WithPages?
      && Marks(w.runners[r].dto.watermark, w.runners[r].stage.pdf.pages, stamps)
    case EncryptIfAsked(r) => Holds(w, r) && w.runners[r].stage.AfterStamp?
    case PutObject(r) => Holds(w, r) && w.runners[r].stage.Final?
    case Complete(r) => Is(w, r, Put) && w.runners[r].doc in w.docs
    case PipelineFails(r) => Holds(w, r) && !w.runners[r].stage.Starting?
    case RunnerDies(r) => r < |w.runners|
  }

  function With(w: World, r: nat, runner: Runner): World
    requires r < |w.runners|
  {
    w.(runners := w.runners[r := runner])
  }

  function At(w: World, r: nat, stage: Stage): World
    requires Holds(w, r)
  {
    With(w, r, w.runners[r].(stage := stage))
  }

  function Submit(w: World, d: DocId, s: Submission): World {
    w.(submissions := w.submissions[d := s])
  }

  /** Job `d` was given a secret, and the secret is no longer in the vault. */
  predicate SecretLost(w: World, d: DocId) {
    d in w.jobs && w.jobs[d].secret.Some? && w.jobs[d].secret.value !in w.vault
  }

  /** The request the worker puts together: protection only if a secret was kept for it. */
  function TakenRequest(w: World, d: DocId): Request
    requires d in w.jobs
  {
    Request(if w.jobs[d].secret.Some? then Given(Protection) else Absent, w.jobs[d].watermark)
  }

  /** `take`, and the check right behind it, which throws outside the worker's try. */
  function TakeStep(w: World, r: nat, d: DocId): World
    requires r < |w.runners| && d in w.jobs
  {
    var job := w.jobs[d];
    if SecretLost(w, d) then With(w, r, Idle)
    else
      With(w.(vault := if job.secret.Some? then w.vault - {job.secret.value} else w.vault,
              taken := if job.secret.Some? then w.taken + multiset{job.secret.value} else w.taken,
              entered := w.entered + multiset{d}),
           r, Running(d, TakenRequest(w, d), Starting))
  }

  predicate IsSubmitting(e: Event) {
    e.Reserve? || e.StoreSecret? || e.Enqueue? || e.Discard? || e.SubmitDies? || e.SecretExpires?
  }

  /** The commands of `renderAsync`, and a secret running out. */
  function SubmitStep(w: World, e: Event): World
    requires Enabled(w, e) && IsSubmitting(e)
  {
    match e
    case Reserve(d, q) =>
      w.(docs := w.docs[d := Row(Queued, q)], asked := w.asked[d := q],
         submissions := w.submissions[d := Reserved])
    case StoreSecret(d, id) =>
      if w.asked[d].protection.Given? then
        Submit(w.(vault := w.vault + {id}, docOf := w.docOf[id := d]), d, Stored(Some(id)))
      else Submit(w, d, Stored(None))
    case Enqueue(d, ok, landed) =>
      var secret := w.submissions[d].secret;
      var queued := if ok || landed then w.jobs[d := Job(w.asked[d].watermark, secret)] else w.jobs;
      Submit(w.(jobs := queued), d, if ok then Over else EnqueueFailed(secret))
    case Discard(d) =>
      var secret := w.submissions[d].secret;
      Submit(w.(vault := if secret.Some? then w.vault - {secret.value} else w.vault), d, Over)
    case SubmitDies(d) => Submit(w, d, Over)
    case SecretExpires(id) => w.(vault := w.vault - {id})
  }

  /** The commands of a worker or a synchronous request. */
  function RunnerStep(w: World, e: Event): World
    requires Enabled(w, e) && !IsSubmitting(e)
  {
    match e
    case PickUp(r, d) => With(w, r, Taking(d))
    case Take(r) => TakeStep(w, r, w.runners[r].doc)
    case SyncStart(r, d, q) =>
      With(w.(docs := w.docs[d := Row(Rendering, q)], asked := w.asked[d := q],
              entered := w.entered + multiset{d}), r, Running(d, q, Marked))
    case MarkRendering(r) =>
      var run := w.runners[r];
      if run.doc in w.docs then
        At(w.(docs := w.docs[run.doc := Row(Rendering, run.dto)]), r, Marked)
      else With(w, r, Idle)
    case Render(r, pages) => At(w, r, WithPages(Plain(pages)))
    case StampIfAsked(r, stamps) => At(w, r, AfterStamp(Stamp(w.runners[r].stage.pdf, stamps)))
    case EncryptIfAsked(r) =>
      var pdf := w.runners[r].stage.pdf;
      At(w, r, Final(if w.runners[r].dto.protection.Given? then Encrypt(pdf) else pdf))
    case PutObject(r) =>
      At(w.(objects := w.objects[w.runners[r].doc := w.runners[r].stage.pdf]), r, Put)
    case Complete(r) =>
      var d := w.runners[r].doc;
      With(w.(docs := w.docs[d := w.docs[d].(status := Completed)]), r, Idle)
    case PipelineFails(r) =>
      var d := w.runners[r].doc;
      With(w.(docs := if d in w.docs then w.docs[d := w.docs[d].(status := Failed)] else w.docs), r, Idle)
    case RunnerDies(r) => With(w, r, Idle)
  }

  function Step(w: World, e: Event): World
    requires Enabled(w, e)
  {
    if IsSubmitting(e) then SubmitStep(w, e) else RunnerStep(w, e)
  }

  function Start(runners: nat): World {
    World(map[], map[], {}, map[], map[], seq(runners, _ => Idle), map[], map[], multiset{}, multiset{})
  }

  ghost predicate Run(w: World, es: seq<Event>)
    decreases |es|
  {
    es == [] || (Enabled(w, es[0]) && Run(Step(w, es[0]), es[1..]))
  }

  ghost function After(w: World, es: seq<Event>): World
    requires Run(w, es)
    decreases |es|
  {
    if es == [] then w else After(Step(w, es[0]), es[1..])
  }

  // ----- protection is never downgraded -------------------------------------------------------

  predicate SecretFits(w: World, d: DocId, secret: Option<SecretId>) {
    && d in w.asked
    && (secret.Some? <==> w.asked[d].protection.Given?)
    && (secret.Some? ==> secret.value in w.docOf && w.docOf[secret.value] == d)
  }

  /** The request as the pipeline sees it: the worker's, for a document that was submitted. */
  function Served(w: World, d: DocId): Request
    requires d in w.asked
  {
    if d in w.submissions then
      Request(if w.asked[d].protection.Given? then Given(Protection) else Absent, w.asked[d].watermark)
    else w.asked[d]
  }

  ghost predicate StageFits(q: Request, stage: Stage) {
    match stage
    case WithPages(pdf) => pdf == Plain(pdf.pages)
    case AfterStamp(pdf) => !pdf.encrypted && !pdf.spoiled && Marks(q.watermark, pdf.pages, pdf.stamped)
    case Final(pdf) => Entitled(q, pdf)
    case _ => true
  }

  ghost predicate RunnerFits(w: World, runner: Runner) {
    match runner
    case Idle => true
    case Taking(d) => d in w.jobs
    case Running(d, dto, stage) =>
      && d in w.asked && dto == Served(w, d) && StageFits(dto, stage)
      && (!stage.Starting? ==> d in w.docs && !w.docs[d].status.Queued?)
      && (stage.Put? ==> d in w.objects)
  }

  /** Jobs and submissions carry a secret exactly when protection was asked for. */
  predicate JobsFit(w: World) {
    && (forall d :: d in w.jobs ==>
          d in w.submissions && SecretFits(w, d, w.jobs[d].secret) && w.jobs[d].watermark == w.asked[d].watermark)
    && (forall d :: d in w.submissions ==> d in w.asked)
    && (forall d :: d in w.submissions && w.submissions[d].Stored? ==> SecretFits(w, d, w.submissions[d].secret))
  }

  ghost predicate RunnersFit(w: World) {
    forall r :: 0 <= r < |w.runners| ==> RunnerFits(w, w.runners[r])
  }

  ghost predicate ObjectsFit(w: World) {
    forall d :: d in w.objects ==> d in w.asked && Entitled(w.asked[d], w.objects[d])
  }

  predicate DocFits(w: World, d: DocId)
    requires d in w.docs
  {
    && d in w.asked
    && w.docs[d] == Row(w.docs[d].status, if w.docs[d].status.Queued? then w.asked[d] else Served(w, d))
    && (w.docs[d].status == Completed ==> d in w.objects)
  }

  predicate DocsFit(w: World) {
    forall d :: d in w.docs ==> DocFits(w, d)
  }

  /** Requests are never forgotten or changed; jobs, objects and secret owners are never dropped. */
  predicate Grows(w: World, t: World) {
    && (forall d :: d in w.asked ==> d in t.asked && t.asked[d] == w.asked[d])
    && (forall d :: d in w.jobs ==> d in t.jobs)
    && (forall d :: d in w.objects ==> d in t.objects)
    && (forall s :: s in w.docOf ==> s in t.docOf && t.docOf[s] == w.docOf[s])
    && (forall d :: d in w.asked ==> (d in w.submissions <==> d in t.submissions))
    && (forall d :: d in w.docs ==> d in t.docs && (!w.docs[d].status.Queued? ==> !t.docs[d].status.Queued?))
  }

  predicate TouchesDocs(e: Event) {
    e.Reserve? || e.SyncStart? || e.MarkRendering? || e.Complete? || e.PipelineFails?
  }

  /** Steps that only move their own runner on. */
  predicate OnlyMoves(e: Event) {
    e.PickUp? || e.Render? || e.StampIfAsked? || e.EncryptIfAsked? || e.RunnerDies?
  }

  /** What a runner's step leaves alone. */
  predicate RunnerFrame(w: World, e: Event, t: World)
    requires !IsSubmitting(e)
  {
    && t.jobs == w.jobs && t.submissions == w.submissions && t.docOf == w.docOf
    && e.r < |w.runners| && |t.runners| == |w.runners| && t.runners == w.runners[e.r := t.runners[e.r]]
    && (!e.SyncStart? ==> t.asked == w.asked)
    && (!e.PutObject? ==> t.objects == w.objects)
    && (!TouchesDocs(e) ==> t.docs == w.docs)
    && (!e.SyncStart? && !e.Take? ==> t.vault == w.vault && t.taken == w.taken && t.entered == w.entered)
  }

  lemma MoveFrame(w: World, e: Event)
    requires Enabled(w, e) && OnlyMoves(e)
    ensures RunnerFrame(w, e, Step(w, e))
  {
    hide TakeStep, SubmitStep;
    assert Step(w, e) == w.(runners := w.runners[e.r := Step(w, e).runners[e.r]]);
  }

  lemma TakeFrame(w: World, e: Event)
    requires Enabled(w, e) && e.Take?
    ensures RunnerFrame(w, e, Step(w, e))
  {
    var d := w.runners[e.r].doc;
    if SecretLost(w, d) {
      assert Step(w, e) == With(w, e.r, Idle);
    }
  }

  lemma NewFrame(w: World, e: Event)
    requires Enabled(w, e) && (e.SyncStart? || e.PutObject?)
    ensures RunnerFrame(w, e, Step(w, e))
  {
    hide TakeStep, SubmitStep;
  }

  /** The one row a status update writes, if it is there. */
  predicate StatusUpdate(w: World, e: Event, t: World)
    requires !IsSubmitting(e) && e.r < |w.runners| && w.runners[e.r].Running?
  {
    var d := w.runners[e.r].doc;
    && t == w.(docs := t.docs, runners := t.runners)
    && |t.runners| == |w.runners| && t.runners == w.runners[e.r := t.runners[e.r]]
    && t.docs.Keys == w.docs.Keys
    && (forall x :: x in w.docs && x != d ==> t.docs[x] == w.docs[x])
    && (d in w.docs ==> !t.docs[d].status.Queued?)
  }

  lemma MarkIs(w: World, r: nat)
    requires Enabled(w, MarkRendering(r))
    ensures r < |w.runners| && w.runners[r].Running?
    ensures var run := w.runners[r];
      Step(w, MarkRendering(r)) ==
        if run.doc in w.docs then At(w.(docs := w.docs[run.doc := Row(Rendering, run.dto)]), r, Marked)
        else With(w, r, Idle)
  {
    hide SubmitStep, At, With, Row;
  }

  lemma MarkUpdates(w: World, e: Event)
    requires Enabled(w, e) && e.MarkRendering?
    ensures StatusUpdate(w, e, Step(w, e))
  {
    assert e == MarkRendering(e.r);
    MarkIs(w, e.r);
    hide Step, Enabled;
  }

  lemma EndUpdates(w: World, e: Event)
    requires Enabled(w, e) && (e.Complete? || e.PipelineFails?)
    ensures StatusUpdate(w, e, Step(w, e))
  {
    hide SubmitStep, TakeStep;
  }

  lemma UpdateFrame(w: World, e: Event)
    requires Enabled(w, e) && (e.MarkRendering? || e.Complete? || e.PipelineFails?)
    ensures StatusUpdate(w, e, Step(w, e)) && RunnerFrame(w, e, Step(w, e))
  {
    if e.MarkRendering? {
      MarkUpdates(w, e);
    } else {
      EndUpdates(w, e);
    }
    hide Step, Enabled;
  }

  lemma RunnerFrameHolds(w: World, e: Event)
    requires Enabled(w, e) && !IsSubmitting(e)
    ensures RunnerFrame(w, e, Step(w, e))
  {
    hide Step, RunnerFrame;
    if OnlyMoves(e) {
      MoveFrame(w, e);
    } else if e.Take? {
      TakeFrame(w, e);
    } else if e.SyncStart? || e.PutObject? {
      NewFrame(w, e);
    } else {
      UpdateFrame(w, e);
    }
  }

  /** What submitting and expiry leave alone. */
  predicate SubmitLeaves(w: World, e: Event, t: World) {
    && t.runners == w.runners && t.objects == w.objects && t.taken == w.taken && t.entered == w.entered
    && (!e.Reserve? ==> t.docs == w.docs && t.asked == w.asked)
  }

  lemma QueueFrame(w: World, e: Event)
    requires Enabled(w, e) && (e.Enqueue? || e.Discard?)
    ensures SubmitLeaves(w, e, Step(w, e))
  {
    hide RunnerStep;
  }

  lemma SubmitFrame(w: World, e: Event)
    requires Enabled(w, e) && IsSubmitting(e)
    ensures SubmitLeaves(w, e, Step(w, e))
  {
    if e.StoreSecret? {
      StoreLeavesRest(w, e);
      hide Step, Enabled;
    } else if e.Enqueue? || e.Discard? {
      QueueFrame(w, e);
      hide Step, Enabled;
    } else {
      hide RunnerStep;
    }
  }


  lemma ReserveGrows(w: World, e: Event)
    requires Enabled(w, e) && e.Reserve?
    ensures Grows(w, Step(w, e))
  {
    hide RunnerStep;
  }

  lemma EnqueueGrows(w: World, e: Event)
    requires Enabled(w, e) && e.Enqueue?
    ensures Grows(w, Step(w, e))
  {
    hide RunnerStep;
  }

  lemma WithdrawGrows(w: World, e: Event)
    requires Enabled(w, e) && (e.Discard? || e.SubmitDies? || e.SecretExpires?)
    ensures Grows(w, Step(w, e))
  {
    hide RunnerStep;
  }

  lemma StatusGrows(w: World, e: Event)
    requires Enabled(w, e) && (e.MarkRendering? || e.Complete? || e.PipelineFails?)
    ensures Grows(w, Step(w, e))
  {
    UpdateFrame(w, e);
    hide Step, Enabled;
  }

  lemma NewGrows(w: World, e: Event)
    requires Enabled(w, e) && (e.SyncStart? || e.PutObject?)
    ensures Grows(w, Step(w, e))
  {
    hide SubmitStep;
  }

  lemma StepGrows(w: World, e: Event)
    requires Enabled(w, e)
    ensures Grows(w, Step(w, e))
  {
    hide Step, Enabled;
    if e.Reserve? {
      ReserveGrows(w, e);
    } else if e.StoreSecret? {
      StoreGrows(w, e);
    } else if e.Enqueue? {
      EnqueueGrows(w, e);
    } else if IsSubmitting(e) {
      WithdrawGrows(w, e);
    } else if e.SyncStart? || e.PutObject? {
      NewGrows(w, e);
    } else if TouchesDocs(e) {
      StatusGrows(w, e);
    } else {
      RunnerFrameHolds(w, e);
    }
  }

  lemma FitsStays(w: World, t: World, runner: Runner)
    requires Grows(w, t) && RunnerFits(w, runner)
    ensures RunnerFits(t, runner)
  {
  }

  /** Where `store` leaves everything. */
  predicate StoreLeaves(w: World, d: DocId, id: SecretId, t: World)
    requires d in w.asked
  {
    && t.docs == w.docs && t.objects == w.objects && t.jobs == w.jobs && t.runners == w.runners
    && t.asked == w.asked && t.taken == w.taken && t.entered == w.entered
    && if w.asked[d].protection.Given? then
         t.vault == w.vault + {id} && t.docOf == w.docOf[id := d]
         && t.submissions == w.submissions[d := Stored(Some(id))]
       else t.vault == w.vault && t.docOf == w.docOf && t.submissions == w.submissions[d := Stored(None)]
  }

  lemma StoreLeavesRest(w: World, e: Event)
    requires Enabled(w, e) && e.StoreSecret?
    ensures StoreLeaves(w, e.doc, e.id, Step(w, e))
  {
    hide RunnerStep;
  }

  lemma StoreGrows(w: World, e: Event)
    requires Enabled(w, e) && e.StoreSecret?
    ensures Grows(w, Step(w, e))
  {
    StoreLeavesRest(w, e);
    assert e.id !in w.docOf && e.doc in w.submissions;
    hide Step, Enabled;
  }

  lemma JobsKeptByStore(w: World, e: Event)
    requires JobsFit(w) && Enabled(w, e) && e.StoreSecret?
    ensures JobsFit(Step(w, e))
  {
    hide Step;
    StoreLeavesRest(w, e);
    assert forall d :: d in w.jobs ==> SecretFits(w, d, w.jobs[d].secret);
  }

  lemma ReserveLeavesRest(w: World, e: Event)
    requires Enabled(w, e) && e.Reserve?
    ensures var t := Step(w, e);
      && t.jobs == w.jobs && t.objects == w.objects && t.runners == w.runners && t.docOf == w.docOf
      && t.vault == w.vault && t.taken == w.taken && t.entered == w.entered
      && t.asked == w.asked[e.doc := e.request] && t.submissions == w.submissions[e.doc := Reserved]
  {
    hide RunnerStep;
  }

  lemma JobsKeptByReserve(w: World, e: Event)
    requires JobsFit(w) && Enabled(w, e) && e.Reserve?
    ensures JobsFit(Step(w, e))
  {
    hide RunnerStep;
  }

  lemma JobsKeptByEnqueue(w: World, e: Event)
    requires JobsFit(w) && Enabled(w, e) && e.Enqueue?
    ensures JobsFit(Step(w, e))
  {
    hide RunnerStep;
  }

  lemma JobsKeptByDiscard(w: World, e: Event)
    requires JobsFit(w) && Enabled(w, e) && (e.Discard? || e.SubmitDies? || e.SecretExpires?)
    ensures JobsFit(Step(w, e))
  {
    hide RunnerStep;
  }

  lemma JobsKept(w: World, e: Event)
    requires JobsFit(w) && Enabled(w, e)
    ensures JobsFit(Step(w, e))
  {
    hide Step, Enabled, JobsFit, Grows;
    if IsSubmitting(e) {
      match e
      case Reserve(_, _) => JobsKeptByReserve(w, e);
      case StoreSecret(_, _) => JobsKeptByStore(w, e);
      case Enqueue(_, _, _) => JobsKeptByEnqueue(w, e);
      case _ => JobsKeptByDiscard(w, e);
    } else {
      RunnerFrameHolds(w, e);
      StepGrows(w, e);
      SameJobsFit(w, Step(w, e));
    }
  }

  lemma SameJobsFit(w: World, t: World)
    requires JobsFit(w) && Grows(w, t) && t.jobs == w.jobs && t.submissions == w.submissions
    ensures JobsFit(t)
  {
  }

  lemma MoverFits(w: World, e: Event)
    requires RunnersFit(w) && Enabled(w, e) && OnlyMoves(e)
    ensures e.r < |Step(w, e).runners| && RunnerFits(Step(w, e), Step(w, e).runners[e.r])
  {
    hide SubmitStep, TakeStep;
    assert RunnerFits(w, w.runners[e.r]);
  }

  lemma TakerFits(w: World, e: Event)
    requires JobsFit(w) && RunnersFit(w) && Enabled(w, e) && e.Take?
    ensures e.r < |Step(w, e).runners| && RunnerFits(Step(w, e), Step(w, e).runners[e.r])
  {
    hide SubmitStep;
    assert RunnerFits(w, w.runners[e.r]);
  }

  lemma StorerFits(w: World, e: Event)
    requires JobsFit(w) && RunnersFit(w) && Enabled(w, e) && !IsSubmitting(e) && !OnlyMoves(e) && !e.Take?
    ensures e.r < |Step(w, e).runners| && RunnerFits(Step(w, e), Step(w, e).runners[e.r])
  {
    hide SubmitStep, TakeStep;
    assert RunnerFits(w, w.runners[e.r]);
  }

  /** The runner that moves is still faithful to the request of its document. */
  lemma OwnRunnerFits(w: World, e: Event)
    requires JobsFit(w) && RunnersFit(w) && Enabled(w, e) && !IsSubmitting(e)
    ensures e.r < |Step(w, e).runners| && RunnerFits(Step(w, e), Step(w, e).runners[e.r])
  {
    hide Step, JobsFit, RunnersFit, RunnerFits;
    if OnlyMoves(e) {
      MoverFits(w, e);
    } else if e.Take? {
      TakerFits(w, e);
    } else {
      StorerFits(w, e);
    }
  }

  lemma RunnersKept(w: World, e: Event)
    requires JobsFit(w) && RunnersFit(w) && Enabled(w, e)
    ensures RunnersFit(Step(w, e))
  {
    var t := Step(w, e);
    StepGrows(w, e);
    if IsSubmitting(e) {
      forall r | 0 <= r < |t.runners| ensures RunnerFits(t, t.runners[r]) {
        FitsStays(w, t, w.runners[r]);
      }
    } else {
      RunnersKeptByRunner(w, e);
    }
  }

  lemma RunnersKeptByRunner(w: World, e: Event)
    requires JobsFit(w) && RunnersFit(w) && Enabled(w, e) && !IsSubmitting(e)
    ensures RunnersFit(Step(w, e))
  {
    hide Step, Enabled, Grows, RunnerFits, JobsFit;
    var t := Step(w, e);
    StepGrows(w, e);
    RunnerFrameHolds(w, e);
    OwnRunnerFits(w, e);
    forall r | 0 <= r < |t.runners| ensures RunnerFits(t, t.runners[r]) {
      if r != e.r {
        FitsStays(w, t, w.runners[r]);
      }
    }
  }

  lemma ObjectsKept(w: World, e: Event)
    requires RunnersFit(w) && ObjectsFit(w) && Enabled(w, e)
    ensures ObjectsFit(Step(w, e))
  {
    if e.PutObject? {
      ObjectsKeptByPut(w, e);
    } else {
      hide Step;
      StepGrows(w, e);
      if IsSubmitting(e) {
        SubmitFrame(w, e);
      } else {
        RunnerFrameHolds(w, e);
      }
    }
  }

  lemma ObjectsKeptByPut(w: World, e: Event)
    requires RunnersFit(w) && ObjectsFit(w) && Enabled(w, e) && e.PutObject?
    ensures ObjectsFit(Step(w, e))
  {
    hide SubmitStep;
    assert RunnerFits(w, w.runners[e.r]);
  }

  lemma DocsFrame(w: World, e: Event)
    requires Enabled(w, e) && !TouchesDocs(e)
    ensures Step(w, e).docs == w.docs
  {
    hide Step;
    if IsSubmitting(e) {
      SubmitFrame(w, e);
    } else {
      RunnerFrameHolds(w, e);
    }
  }

  lemma SameDocsFit(w: World, t: World)
    requires DocsFit(w) && Grows(w, t) && t.docs == w.docs
    ensures DocsFit(t)
  {
    forall d | d in t.docs ensures DocFits(t, d) {
      assert DocFits(w, d);
    }
  }

  lemma DocsKeptByNew(w: World, e: Event)
    requires JobsFit(w) && DocsFit(w) && Enabled(w, e) && (e.Reserve? || e.SyncStart?)
    ensures DocsFit(Step(w, e))
  {
    var t := Step(w, e);
    forall d | d in t.docs ensures DocFits(t, d) {
      assert d in w.docs ==> DocFits(w, d);
    }
  }

  lemma MarkChanges(w: World, r: nat)
    requires Enabled(w, MarkRendering(r))
    ensures var t, run := Step(w, MarkRendering(r)), w.runners[r];
      && t.asked == w.asked && t.submissions == w.submissions && t.objects == w.objects
      && t.docs == if run.doc in w.docs then w.docs[run.doc := Row(Rendering, run.dto)] else w.docs
  {
    MarkIs(w, r);
    hide Step, Enabled;
  }

  lemma DocsKeptByMark(w: World, e: Event)
    requires RunnersFit(w) && DocsFit(w) && Enabled(w, e) && e.MarkRendering?
    ensures DocsFit(Step(w, e))
  {
    MarkChanges(w, e.r);
    assert e == MarkRendering(e.r);
    assert RunnerFits(w, w.runners[e.r]);
    hide Step, Enabled, StageFits;
    var t := Step(w, e);
    forall d | d in t.docs ensures DocFits(t, d) {
      assert d in w.docs ==> DocFits(w, d);
    }
  }

  lemma DocsKeptByEnd(w: World, e: Event)
    requires RunnersFit(w) && DocsFit(w) && Enabled(w, e) && (e.Complete? || e.PipelineFails?)
    ensures DocsFit(Step(w, e))
  {
    hide SubmitStep, TakeStep;
    var t := Step(w, e);
    assert RunnerFits(w, w.runners[e.r]);
    forall d | d in t.docs ensures DocFits(t, d) {
      assert d in w.docs ==> DocFits(w, d);
    }
  }

  lemma DocsKept(w: World, e: Event)
    requires JobsFit(w) && RunnersFit(w) && DocsFit(w) && Enabled(w, e)
    ensures DocsFit(Step(w, e))
  {
    hide Step, Enabled, RunnersFit, DocsFit, Grows;
    if e.Reserve? || e.SyncStart? {
      DocsKeptByNew(w, e);
    } else if e.MarkRendering? {
      DocsKeptByMark(w, e);
    } else if TouchesDocs(e) {
      DocsKeptByEnd(w, e);
    } else {
      StepGrows(w, e);
      DocsFrame(w, e);
      SameDocsFit(w, Step(w, e));
    }
  }

  // ----- every secret is taken at most once ---------------------------------------------------

  /** A secret still in the vault was never taken, and its document has not entered the pipeline. */
  predicate Unspent(w: World, s: SecretId) {
    s in w.docOf && w.taken[s] == 0 && w.entered[w.docOf[s]] == 0
  }

  /** Secrets and documents correspond; a document still to be given a secret has none. */
  predicate Owners(w: World) {
    && (forall s, t :: s in w.docOf && t in w.docOf && w.docOf[s] == w.docOf[t] ==> s == t)
    && (forall s :: s in w.docOf ==> w.docOf[s] in w.asked && w.asked[w.docOf[s]].protection.Given?)
    && (forall d :: d in w.submissions ==> d in w.asked)
    && (forall d :: d in w.submissions && w.submissions[d].Reserved? ==>
          d !in w.jobs && forall s :: s in w.docOf ==> w.docOf[s] != d)
  }

  ghost predicate Counts(w: World) {
    && (forall s :: s in w.vault ==> Unspent(w, s))
    && (forall s :: w.taken[s] > 0 ==> s in w.docOf)
    && (forall d :: w.entered[d] > 0 ==> d in w.asked)
    && (forall d :: d in w.submissions && w.submissions[d].Reserved? ==> w.entered[d] == 0)
  }

  ghost predicate OneShot(w: World) {
    && (forall s :: w.taken[s] <= 1)
    && (forall d :: d in w.asked && w.asked[d].protection.Given? ==> w.entered[d] <= 1)
  }

  lemma OwnersKept(w: World, e: Event)
    requires Owners(w) && JobsFit(w) && Enabled(w, e)
    ensures Owners(Step(w, e))
  {
    if !IsSubmitting(e) && !e.SyncStart? {
      OwnersFrame(w, e);
    } else if e.StoreSecret? {
      OwnersKeptByStore(w, e);
    } else if e.Reserve? || e.SyncStart? {
      OwnersKeptByNew(w, e);
    } else {
      OwnersKeptBySubmit(w, e);
    }
  }

  lemma OwnersFrame(w: World, e: Event)
    requires Owners(w) && Enabled(w, e) && !IsSubmitting(e) && !e.SyncStart?
    ensures Owners(Step(w, e))
  {
    hide Step;
    RunnerFrameHolds(w, e);
  }

  lemma OwnersKeptByNew(w: World, e: Event)
    requires Owners(w) && JobsFit(w) && Enabled(w, e) && (e.Reserve? || e.SyncStart?)
    ensures Owners(Step(w, e))
  {
  }

  lemma OwnersKeptByStore(w: World, e: Event)
    requires Owners(w) && Enabled(w, e) && e.StoreSecret?
    ensures Owners(Step(w, e))
  {
    hide Step;
    StoreLeavesRest(w, e);
  }

  lemma OwnersKeptBySubmit(w: World, e: Event)
    requires Owners(w) && Enabled(w, e) && (e.Enqueue? || e.Discard? || e.SubmitDies? || e.SecretExpires?)
    ensures Owners(Step(w, e))
  {
    hide RunnerStep;
  }

  /** Document `d` entered the pipeline, and its secret, if it has one, was taken for it. */
  ghost predicate Entry(w: World, t: World, d: DocId, spent: Option<SecretId>) {
    && t.asked == w.asked && t.docOf == w.docOf && t.submissions == w.submissions
    && (spent.Some? ==> spent.value in w.vault)
    && (forall s :: s in t.vault <==> s in w.vault && spent != Some(s))
    && (forall s :: t.taken[s] == w.taken[s] + if spent == Some(s) then 1 else 0)
    && (forall x :: t.entered[x] == w.entered[x] + if x == d then 1 else 0)
  }

  lemma OneShotAfterEntry(w: World, t: World, d: DocId, spent: Option<SecretId>)
    requires Counts(w) && OneShot(w) && SecretFits(w, d, spent) && Entry(w, t, d, spent)
    ensures OneShot(t)
  {
    assert spent.Some? ==> Unspent(w, spent.value);
  }

  lemma CountsAfterEntry(w: World, t: World, d: DocId, spent: Option<SecretId>)
    requires Owners(w) && Counts(w) && SecretFits(w, d, spent) && d in w.jobs && Entry(w, t, d, spent)
    ensures Counts(t)
  {
    forall s | s in t.vault ensures Unspent(t, s) {
      assert Unspent(w, s);
      assert w.docOf[s] != d;
    }
  }

  lemma TakeIsEntry(w: World, r: nat, d: DocId)
    requires r < |w.runners| && d in w.jobs && !SecretLost(w, d)
    ensures Entry(w, TakeStep(w, r, d), d, w.jobs[d].secret)
  {
  }

  lemma CountsKeptByTake(w: World, r: nat, d: DocId)
    requires Owners(w) && Counts(w) && OneShot(w) && r < |w.runners| && d in w.jobs
    requires SecretFits(w, d, w.jobs[d].secret)
    ensures Counts(TakeStep(w, r, d)) && OneShot(TakeStep(w, r, d))
  {
    hide Counts, OneShot, Owners, Entry;
    var t := TakeStep(w, r, d);
    if SecretLost(w, d) {
      CountsSame(w, t);
    } else {
      TakeIsEntry(w, r, d);
      OneShotAfterEntry(w, t, d, w.jobs[d].secret);
      CountsAfterEntry(w, t, d, w.jobs[d].secret);
    }
  }

  lemma CountsSame(w: World, t: World)
    requires Counts(w) && OneShot(w) && t == w.(runners := t.runners)
    ensures Counts(t) && OneShot(t)
  {
    assert forall s :: Unspent(w, s) ==> Unspent(t, s);
  }

  lemma CountsKeptBySync(w: World, e: Event)
    requires Owners(w) && Counts(w) && OneShot(w) && Enabled(w, e) && e.SyncStart?
    ensures Counts(Step(w, e)) && OneShot(Step(w, e))
  {
  }

  lemma CountsKeptByReserve(w: World, e: Event)
    requires Owners(w) && Counts(w) && OneShot(w) && Enabled(w, e) && e.Reserve?
    ensures Counts(Step(w, e)) && OneShot(Step(w, e))
  {
    hide Step;
    ReserveLeavesRest(w, e);
    assert forall s :: Unspent(w, s) ==> Unspent(Step(w, e), s);
  }

  lemma CountsKeptByStore(w: World, e: Event)
    requires Owners(w) && Counts(w) && OneShot(w) && Enabled(w, e) && e.StoreSecret?
    ensures Counts(Step(w, e)) && OneShot(Step(w, e))
  {
    hide Step;
    StoreLeavesRest(w, e);
    var t := Step(w, e);
    forall s | s in t.vault ensures Unspent(t, s) {
      if s in w.vault {
        assert Unspent(w, s);
      } else {
        assert w.taken[s] == 0;
      }
    }
  }

  lemma CountsKeptBySubmit(w: World, e: Event)
    requires Owners(w) && Counts(w) && OneShot(w) && Enabled(w, e) && IsSubmitting(e)
    requires !e.StoreSecret? && !e.Reserve?
    ensures Counts(Step(w, e)) && OneShot(Step(w, e))
  {
    hide RunnerStep;
    var t := Step(w, e);
    forall s | s in t.vault ensures Unspent(t, s) {
      assert Unspent(w, s);
    }
  }

  lemma CountsFrame(w: World, e: Event)
    requires Counts(w) && OneShot(w) && Enabled(w, e) && !IsSubmitting(e) && !e.Take? && !e.SyncStart?
    ensures Counts(Step(w, e)) && OneShot(Step(w, e))
  {
    hide Step;
    RunnerFrameHolds(w, e);
    forall s | s in w.vault ensures Unspent(Step(w, e), s) {
      assert Unspent(w, s);
    }
  }

  lemma CountsKept(w: World, e: Event)
    requires JobsFit(w) && Owners(w) && Counts(w) && OneShot(w) && Enabled(w, e)
    ensures Counts(Step(w, e)) && OneShot(Step(w, e))
  {
    if e.StoreSecret? {
      CountsKeptByStore(w, e);
    } else if e.Reserve? {
      CountsKeptByReserve(w, e);
    } else if IsSubmitting(e) {
      CountsKeptBySubmit(w, e);
    } else if e.Take? {
      CountsKeptByTake(w, e.r, w.runners[e.r].doc);
    } else if e.SyncStart? {
      CountsKeptBySync(w, e);
    } else {
      CountsFrame(w, e);
    }
  }

  // ----- every run ----------------------------------------------------------------------------

  ghost predicate Inv(w: World) {
    JobsFit(w) && RunnersFit(w) && ObjectsFit(w) && DocsFit(w) && Owners(w) && Counts(w) && OneShot(w)
  }

  lemma StepKeepsInv(w: World, e: Event)
    requires Inv(w) && Enabled(w, e)
    ensures Inv(Step(w, e))
  {
    hide Step, Enabled, JobsFit, RunnersFit, ObjectsFit, DocsFit, Owners, Counts, OneShot;
    JobsKept(w, e);
    RunnersKept(w, e);
    ObjectsKept(w, e);
    DocsKept(w, e);
    OwnersKept(w, e);
    CountsKept(w, e);
  }

  lemma {:induction false} RunKeepsInv(w: World, es: seq<Event>)
    requires Inv(w) && Run(w, es)
    ensures Inv(After(w, es))
    decreases |es|
  {
    hide Step, Enabled, Inv;
    if es == [] {
    } else {
      StepKeepsInv(w, es[0]);
      RunKeepsInv(Step(w, es[0]), es[1..]);
    }
  }

  /**
   * Every object ever stored is exactly the file its request is entitled to: encrypted if and only
   * if protection was given, stamped on exactly the pages its watermark names, and never spoiled.
   * What a completed row says about its object's watermark is true if and only if none was sent, or
   * one was given that names a page; what it says about encryption, if and only if the request was
   * queued or its protection was not null.
   */
  lemma ProtectionIsNeverDowngraded(runners: nat, es: seq<Event>)
    requires Run(Start(runners), es)
    ensures var w := After(Start(runners), es);
      && (forall d :: d in w.objects ==>
            && d in w.asked && !w.objects[d].spoiled
            && (w.objects[d].encrypted <==> w.asked[d].protection.Given?)
            && Marks(w.asked[d].watermark, w.objects[d].pages, w.objects[d].stamped)
            && (w.objects[d].stamped != [] <==> Shows(w.asked[d].watermark, w.objects[d].pages)))
      && (forall d :: d in w.docs && w.docs[d].status == Completed ==>
            && d in w.objects && d in w.asked
            && (w.docs[d].isEncrypted == w.objects[d].encrypted <==> d in w.submissions || !w.asked[d].protection.Null?)
            && (w.docs[d].hasWatermark == (w.objects[d].stamped != []) <==>
                w.asked[d].watermark.Absent? || Shows(w.asked[d].watermark, w.objects[d].pages)))
  {
    RunKeepsInv(Start(runners), es);
    var w := After(Start(runners), es);
    hide Marks, Shows;
    forall d | d in w.objects
      ensures d in w.asked && Entitled(w.asked[d], w.objects[d])
      ensures w.objects[d].stamped != [] <==> Shows(w.asked[d].watermark, w.objects[d].pages)
    {
      StampedIff(w.asked[d].watermark, w.objects[d].pages, w.objects[d].stamped);
    }
    forall d | d in w.docs && w.docs[d].status == Completed
      ensures d in w.objects && d in w.asked
      ensures w.docs[d].isEncrypted == w.objects[d].encrypted <==> d in w.submissions || !w.asked[d].protection.Null?
      ensures w.docs[d].hasWatermark == (w.objects[d].stamped != []) <==>
              w.asked[d].watermark.Absent? || Shows(w.asked[d].watermark, w.objects[d].pages)
    {
      assert DocFits(w, d);
      ShownIsGiven(w.asked[d].watermark, w.objects[d].pages);
    }
  }

  lemma ShownIsGiven(watermark: Field<Watermark>, pages: nat)
    ensures Shows(watermark, pages) ==> watermark.Given?
  {
  }

  /** Whatever is retried or replayed, a secret is read once, and a protected job renders once. */
  lemma SecretsAreOneShot(runners: nat, es: seq<Event>)
    requires Run(Start(runners), es)
    ensures var w := After(Start(runners), es);
      && (forall s :: w.taken[s] <= 1)
      && (forall d :: d in w.asked && w.asked[d].protection.Given? ==> w.entered[d] <= 1)
  {
    RunKeepsInv(Start(runners), es);
  }

  // ----- the services -------------------------------------------------------------------------

  /** What goes wrong in a pipeline run, if it gets that far. */
  datatype Fault =
    | NoFault | MarkFault | RenderFault | PageLimit | StampFault | EncryptFault | PutFault | CompleteFault

  /** How many of the five steps succeed when the rendered file has that many pages. */
  ghost function StepsBefore(q: Request, pages: nat, fault: Fault): (n: nat)
    ensures n <= 5 && (n == 0 <==> fault == MarkFault)
  {
    if fault == MarkFault then 0
    else if fault == RenderFault then 1
    else if fault == PageLimit then 2
    else if Refused(q.watermark, pages) || (fault == StampFault && q.watermark.Given?) then 2
    else if fault == EncryptFault && q.protection.Given? then 3
    else if fault == PutFault then 4
    else 5
  }

  /** A step that is not asked for cannot fail. */
  lemma UnaskedStepsCannotFail(q: Request, pages: nat)
    ensures !q.watermark.Given? ==> Succeeds(q, pages, StampFault)
    ensures !q.protection.Given? && !Refused(q.watermark, pages) ==> Succeeds(q, pages, EncryptFault)
  {
    hide Nonsense, Shows;
  }

  ghost predicate Succeeds(q: Request, pages: nat, fault: Fault) {
    StepsBefore(q, pages, fault) == 5 && fault != CompleteFault
  }

  /** The steps of a pipeline run in order, from the `n`-th up to but without the `m`-th, then `last`. */
  function Steps(r: nat, file: Pdf, n: nat, m: nat, last: Event): seq<Event>
    decreases m - n
  {
    if n >= m then [last] else [PipelineStep(r, file, n)] + Steps(r, file, n + 1, m, last)
  }

  function PipelineStep(r: nat, file: Pdf, n: nat): Event {
    if n == 0 then MarkRendering(r)
    else if n == 1 then Event.Render(r, file.pages)
    else if n == 2 then StampIfAsked(r, file.stamped)
    else if n == 3 then EncryptIfAsked(r)
    else PutObject(r)
  }

  /** How a run ends: completed, failed and recorded as such, or broken off with the row still rendering. */
  function Ending(ok: bool, caught: bool): Status {
    if ok then Completed else if caught then Failed else Rendering
  }

  function LastStep(r: nat, ending: Status): Event {
    if ending == Completed then Complete(r) else if ending == Failed then PipelineFails(r) else RunnerDies(r)
  }

  /** The steps that succeed, and the one that ends the run. The first update is outside the try. */
  ghost function PipelineEvents(r: nat, q: Request, file: Pdf, fault: Fault, caught: bool, found: bool): seq<Event> {
    var n := StepsBefore(q, file.pages, fault);
    if n == 0 then [RunnerDies(r)]
    else if !found then [MarkRendering(r)]
    else Steps(r, file, 0, n, LastStep(r, Ending(Succeeds(q, file.pages, fault), caught)))
  }

  function StageAfter(file: Pdf, n: nat): Stage {
    if n == 0 then Starting
    else if n == 1 then Marked
    else if n == 2 then WithPages(Plain(file.pages))
    else if n == 3 then AfterStamp(Pdf(file.pages, file.stamped, false, false))
    else if n == 4 then Final(file)
    else Put
  }

  /** The stores after `n` steps of the run in which `r` makes `file` for document `d`. */
  function Midway(w: World, r: nat, d: DocId, q: Request, file: Pdf, n: nat): World
    requires r < |w.runners|
  {
    w.(docs := if n == 0 then w.docs else w.docs[d := Row(Rendering, q)],
       objects := if n < 5 then w.objects else w.objects[d := file],
       runners := w.runners[r := Running(d, q, StageAfter(file, n))])
  }

  ghost predicate Advances(w: World, r: nat, d: DocId, q: Request, file: Pdf, n: nat)
    requires r < |w.runners|
  {
    var m := Midway(w, r, d, q, file, n);
    Enabled(m, PipelineStep(r, file, n)) && Step(m, PipelineStep(r, file, n)) == Midway(w, r, d, q, file, n + 1)
  }

  lemma MarkAdvances(w: World, r: nat, d: DocId, q: Request, file: Pdf)
    requires r < |w.runners| && d in w.docs
    ensures Advances(w, r, d, q, file, 0)
  {
    hide SubmitStep, TakeStep;
  }

  lemma RenderAdvances(w: World, r: nat, d: DocId, q: Request, file: Pdf)
    requires r < |w.runners|
    ensures Advances(w, r, d, q, file, 1)
  {
    hide SubmitStep, TakeStep;
  }

  lemma StampAdvances(w: World, r: nat, d: DocId, q: Request, file: Pdf)
    requires r < |w.runners| && Entitled(q, file)
    ensures Advances(w, r, d, q, file, 2)
  {
    hide SubmitStep, TakeStep;
  }

  lemma EncryptAdvances(w: World, r: nat, d: DocId, q: Request, file: Pdf)
    requires r < |w.runners| && Entitled(q, file)
    ensures Advances(w, r, d, q, file, 3)
  {
    hide SubmitStep, TakeStep, Marks;
  }

  lemma PutAdvances(w: World, r: nat, d: DocId, q: Request, file: Pdf)
    requires r < |w.runners|
    ensures Advances(w, r, d, q, file, 4)
  {
    hide SubmitStep, TakeStep;
  }

  /** What a run leaves: its row, its object if it was put, and an idle runner. */
  function Left(w: World, r: nat, d: DocId, q: Request, file: Pdf, ending: Status, put: bool): World
    requires r < |w.runners|
  {
    w.(docs := w.docs[d := Row(ending, q)],
       objects := if put then w.objects[d := file] else w.objects,
       runners := w.runners[r := Idle])
  }

  lemma CompleteEnds(w: World, r: nat, d: DocId, q: Request, file: Pdf)
    requires r < |w.runners| && d in w.docs
    ensures var m := Midway(w, r, d, q, file, 5);
      Enabled(m, Complete(r)) && Step(m, Complete(r)) == Left(w, r, d, q, file, Completed, true)
  {
    hide SubmitStep, TakeStep;
  }

  lemma CatchEnds(w: World, r: nat, d: DocId, q: Request, file: Pdf, n: nat)
    requires r < |w.runners| && d in w.docs && 1 <= n <= 5
    ensures var m := Midway(w, r, d, q, file, n);
      Enabled(m, PipelineFails(r)) && Step(m, PipelineFails(r)) == Left(w, r, d, q, file, Failed, n == 5)
  {
    hide SubmitStep, TakeStep;
  }

  lemma DeathEnds(w: World, r: nat, d: DocId, q: Request, file: Pdf, n: nat)
    requires r < |w.runners| && d in w.docs && 1 <= n <= 5
    ensures var m := Midway(w, r, d, q, file, n);
      Enabled(m, RunnerDies(r)) && Step(m, RunnerDies(r)) == Left(w, r, d, q, file, Rendering, n == 5)
  {
    hide SubmitStep, TakeStep;
  }

  lemma PipelineEnds(w: World, r: nat, d: DocId, q: Request, file: Pdf, n: nat, ending: Status)
    requires r < |w.runners| && d in w.docs && 1 <= n <= 5 && (ending == Completed ==> n == 5) && ending != Queued
    ensures var m, last := Midway(w, r, d, q, file, n), LastStep(r, ending);
      Enabled(m, last) && Step(m, last) == Left(w, r, d, q, file, ending, n == 5)
  {
    hide Step, Enabled, Midway, Left;
    if ending == Completed {
      CompleteEnds(w, r, d, q, file);
    } else if ending == Failed {
      CatchEnds(w, r, d, q, file, n);
    } else {
      DeathEnds(w, r, d, q, file, n);
    }
  }

  lemma {:induction false} StepsRun(w: World, r: nat, d: DocId, q: Request, file: Pdf, n: nat, m: nat, ending: Status)
    requires r < |w.runners| && d in w.docs && n <= m && 1 <= m <= 5 && (m >= 3 ==> Entitled(q, file))
    requires (ending == Completed ==> m == 5) && ending != Queued
    ensures var es := Steps(r, file, n, m, LastStep(r, ending));
      Run(Midway(w, r, d, q, file, n), es)
      && After(Midway(w, r, d, q, file, n), es) == Left(w, r, d, q, file, ending, m == 5)
    decreases m - n
  {
    hide Step, Enabled, Midway, Left, LastStep, Entitled;
    var last := LastStep(r, ending);
    if n == m {
      PipelineEnds(w, r, d, q, file, n, ending);
      Unfold(Midway(w, r, d, q, file, n), last, []);
    } else {
      if n == 0 {
        MarkAdvances(w, r, d, q, file);
      } else if n == 1 {
        RenderAdvances(w, r, d, q, file);
      } else if n == 2 {
        StampAdvances(w, r, d, q, file);
      } else if n == 3 {
        EncryptAdvances(w, r, d, q, file);
      } else {
        PutAdvances(w, r, d, q, file);
      }
      StepsRun(w, r, d, q, file, n + 1, m, ending);
      Unfold(Midway(w, r, d, q, file, n), PipelineStep(r, file, n), Steps(r, file, n + 1, m, last));
    }
  }

  lemma Unfold(w: World, e: Event, es: seq<Event>)
    requires Enabled(w, e) && Run(Step(w, e), es)
    ensures Run(w, [e] + es) && After(w, [e] + es) == After(Step(w, e), es)
  {
    hide Step, Enabled;
    assert ([e] + es)[1..] == es;
  }

  /** What an attempt of runner `r` leaves; a row that is gone stops it at its first statement. */
  ghost function Attempted(w: World, r: nat, d: DocId, q: Request, file: Pdf, fault: Fault, caught: bool): World
    requires r < |w.runners|
  {
    var n := StepsBefore(q, file.pages, fault);
    if d !in w.docs || n == 0 then With(w, r, Idle)
    else Left(w, r, d, q, file, Ending(Succeeds(q, file.pages, fault), caught), n == 5)
  }

  lemma FieldsOfAttempted(w: World, r: nat, d: DocId, q: Request, file: Pdf, fault: Fault, caught: bool, t: World)
    requires r < |w.runners| && t == w.(docs := t.docs, objects := t.objects, runners := t.runners)
    requires t.runners == w.runners[r := Idle]
    requires var n := StepsBefore(q, file.pages, fault);
      if d in w.docs && n > 0 then
        && t.docs == w.docs[d := Row(Ending(Succeeds(q, file.pages, fault), caught), q)]
        && t.objects == if n == 5 then w.objects[d := file] else w.objects
      else t.docs == w.docs && t.objects == w.objects
    ensures t == Attempted(w, r, d, q, file, fault, caught)
  {
  }

  lemma MissingRowStops(w: World, r: nat, d: DocId, q: Request)
    requires r < |w.runners| && w.runners[r] == Running(d, q, Starting) && d !in w.docs
    ensures Enabled(w, MarkRendering(r)) && Step(w, MarkRendering(r)) == With(w, r, Idle)
  {
  }

  lemma DeathStops(w: World, r: nat)
    requires r < |w.runners|
    ensures Enabled(w, RunnerDies(r)) && Step(w, RunnerDies(r)) == With(w, r, Idle)
  {
  }

  /** What `RenderService.RunPipeline` does is a run of the protocol, wherever it fails. */
  lemma PipelineIsARun(w: World, r: nat, d: DocId, q: Request, file: Pdf, fault: Fault, caught: bool)
    requires r < |w.runners| && w.runners[r] == Running(d, q, Starting)
    requires StepsBefore(q, file.pages, fault) >= 3 ==> Entitled(q, file)
    ensures var es := PipelineEvents(r, q, file, fault, caught, d in w.docs);
      Run(w, es) && After(w, es) == Attempted(w, r, d, q, file, fault, caught)
  {
    hide Run, After, Steps, Left, Step, Enabled, LastStep, StepsBefore, Entitled;
    var n := StepsBefore(q, file.pages, fault);
    assert Midway(w, r, d, q, file, 0) == w;
    NoEvents(With(w, r, Idle));
    if n == 0 {
      DeathStops(w, r);
      Unfold(w, RunnerDies(r), []);
      assert [RunnerDies(r)] + [] == [RunnerDies(r)];
    } else if d !in w.docs {
      MissingRowStops(w, r, d, q);
      Unfold(w, MarkRendering(r), []);
      assert [MarkRendering(r)] + [] == [MarkRendering(r)];
    } else {
      StepsRun(w, r, d, q, file, 0, n, Ending(Succeeds(q, file.pages, fault), caught));
    }
  }

  lemma NoEvents(w: World)
    ensures Run(w, []) && After(w, []) == w
  {
  }

  lemma TakeAllowed(w: World, e: Event)
    requires Enabled(w, e) && e.Take?
    ensures e.r < |w.runners| && w.runners[e.r].doc in w.jobs
    ensures |TakeStep(w, e.r, w.runners[e.r].doc).runners| == |w.runners|
    ensures Step(w, e) == TakeStep(w, e.r, w.runners[e.r].doc)
  {
  }

  /** What one attempt of the worker on job `d` leaves. */
  ghost function Processed(w: World, r: nat, d: DocId, file: Pdf, fault: Fault, caught: bool): (t: World)
    requires r < |w.runners| && d in w.jobs
    ensures SecretLost(w, d) ==> t == w.(runners := w.runners[r := Idle])
  {
    if SecretLost(w, d) then With(w, r, Idle)
    else Attempted(TakeStep(w, r, d), r, d, TakenRequest(w, d), file, fault, caught)
  }

  lemma TakeStarts(w: World, r: nat, d: DocId)
    requires r < |w.runners| && d in w.jobs && !SecretLost(w, d)
    ensures |TakeStep(w, r, d).runners| == |w.runners|
    ensures TakeStep(w, r, d).runners[r] == Running(d, TakenRequest(w, d), Starting)
  {
  }

  /** What `RenderService.Process` does is a run of the protocol. */
  lemma ProcessIsARun(w: World, r: nat, d: DocId, file: Pdf, fault: Fault, caught: bool)
    requires Enabled(w, Take(r)) && w.runners[r].doc == d
    requires StepsBefore(TakenRequest(w, d), file.pages, fault) >= 3 ==> Entitled(TakenRequest(w, d), file)
    ensures var t, q := TakeStep(w, r, d), TakenRequest(w, d);
      var es := [Take(r)] + if SecretLost(w, d) then [] else PipelineEvents(r, q, file, fault, caught, d in t.docs);
      Run(w, es) && After(w, es) == Processed(w, r, d, file, fault, caught)
  {
    TakeAllowed(w, Take(r));
    hide Step, Enabled, Run, After, Attempted, PipelineEvents, StepsBefore, Entitled;
    var t := TakeStep(w, r, d);
    if SecretLost(w, d) {
      NoEvents(t);
      Unfold(w, Take(r), []);
    } else {
      TakeStarts(w, r, d);
      PipelineIsARun(t, r, d, TakenRequest(w, d), file, fault, caught);
      Unfold(w, Take(r), PipelineEvents(r, TakenRequest(w, d), file, fault, caught, d in t.docs));
    }
  }

  function HandleOf(q: Request, id: SecretId): Option<SecretId> {
    if q.protection.Given? then Some(id) else None
  }

  /** What a whole submission leaves. The secret stays only if the request was accepted. */
  function Submitted(w: World, d: DocId, q: Request, id: SecretId, ok: bool, landed: bool): World {
    w.(docs := w.docs[d := Row(Queued, q)],
       asked := w.asked[d := q],
       vault := if ok && q.protection.Given? then w.vault + {id} else w.vault,
       docOf := if q.protection.Given? then w.docOf[id := d] else w.docOf,
       jobs := if ok || landed then w.jobs[d := Job(q.watermark, HandleOf(q, id))] else w.jobs,
       submissions := w.submissions[d := Over])
  }

  /** The commands of a submission that nothing interrupts. */
  function SubmissionEvents(d: DocId, q: Request, id: SecretId, ok: bool, landed: bool): seq<Event> {
    [Reserve(d, q)] + ([StoreSecret(d, id)] + ([Enqueue(d, ok, landed)] + if ok then [] else [Discard(d)]))
  }

  function AfterReserve(w: World, d: DocId, q: Request): World {
    w.(docs := w.docs[d := Row(Queued, q)],
       asked := w.asked[d := q],
       submissions := w.submissions[d := Reserved])
  }

  function AfterStore(w: World, d: DocId, q: Request, id: SecretId): World {
    AfterReserve(w, d, q).(
      vault := if q.protection.Given? then w.vault + {id} else w.vault,
      docOf := if q.protection.Given? then w.docOf[id := d] else w.docOf,
      submissions := w.submissions[d := Stored(HandleOf(q, id))])
  }

  function AfterEnqueue(w: World, d: DocId, q: Request, id: SecretId, ok: bool, landed: bool): World {
    AfterStore(w, d, q, id).(
      jobs := if ok || landed then w.jobs[d := Job(q.watermark, HandleOf(q, id))] else w.jobs,
      submissions := w.submissions[d := if ok then Over else EnqueueFailed(HandleOf(q, id))])
  }

  lemma ReserveStep(w: World, d: DocId, q: Request)
    requires d !in w.asked && d !in w.docs
    ensures Enabled(w, Reserve(d, q)) && Step(w, Reserve(d, q)) == AfterReserve(w, d, q)
  {
    hide RunnerStep;
  }

  lemma StoreStep(w: World, d: DocId, q: Request, id: SecretId)
    requires id !in w.docOf
    ensures var t := AfterReserve(w, d, q);
      Enabled(t, StoreSecret(d, id)) && Step(t, StoreSecret(d, id)) == AfterStore(w, d, q, id)
  {
    hide RunnerStep;
    var next := Stored(HandleOf(q, id));
    assert w.submissions[d := Reserved][d := next] == w.submissions[d := next];
  }

  lemma EnqueueStep(w: World, d: DocId, q: Request, id: SecretId, ok: bool, landed: bool)
    ensures var t := AfterStore(w, d, q, id);
      && Enabled(t, Enqueue(d, ok, landed))
      && Step(t, Enqueue(d, ok, landed)) == AfterEnqueue(w, d, q, id, ok, landed)
  {
    hide RunnerStep;
    var last, next := Stored(HandleOf(q, id)), if ok then Over else EnqueueFailed(HandleOf(q, id));
    assert w.submissions[d := last][d := next] == w.submissions[d := next];
  }

  lemma DiscardStep(w: World, d: DocId, q: Request, id: SecretId, landed: bool)
    requires id !in w.vault
    ensures var t := AfterEnqueue(w, d, q, id, false, landed);
      Enabled(t, Discard(d)) && Step(t, Discard(d)) == Submitted(w, d, q, id, false, landed)
  {
    hide RunnerStep;
    assert w.submissions[d := EnqueueFailed(HandleOf(q, id))][d := Over] == w.submissions[d := Over];
    assert w.vault + {id} - {id} == w.vault;
  }

  /** What `RenderService.RenderAsync` does is a run of the protocol. */
  lemma SubmissionIsARun(w: World, d: DocId, q: Request, id: SecretId, ok: bool, landed: bool)
    requires d !in w.asked && d !in w.docs && id !in w.docOf && id !in w.vault
    ensures var es := SubmissionEvents(d, q, id, ok, landed);
      Run(w, es) && After(w, es) == Submitted(w, d, q, id, ok, landed)
  {
    hide Step, Enabled, Run, After, AfterReserve, AfterStore;
    var last := if ok then [] else [Discard(d)];
    NoEvents(Submitted(w, d, q, id, ok, landed));
    if !ok {
      DiscardStep(w, d, q, id, landed);
      Unfold(AfterEnqueue(w, d, q, id, ok, landed), Discard(d), []);
      assert [Discard(d)] + [] == last;
    } else {
      AcceptedIsSubmitted(w, d, q, id, landed);
    }
    EnqueueStep(w, d, q, id, ok, landed);
    Unfold(AfterStore(w, d, q, id), Enqueue(d, ok, landed), last);
    StoreStep(w, d, q, id);
    Unfold(AfterReserve(w, d, q), StoreSecret(d, id), [Enqueue(d, ok, landed)] + last);
    ReserveStep(w, d, q);
    Unfold(w, Reserve(d, q), [StoreSecret(d, id)] + ([Enqueue(d, ok, landed)] + last));
  }

  lemma AcceptedIsSubmitted(w: World, d: DocId, q: Request, id: SecretId, landed: bool)
    ensures AfterEnqueue(w, d, q, id, true, landed) == Submitted(w, d, q, id, true, landed)
  {
  }

  lemma {:induction false} RunOn(w: World, a: seq<Event>, b: seq<Event>)
    requires Run(w, a) && Run(After(w, a), b)
    ensures Run(w, a + b) && After(w, a + b) == After(After(w, a), b)
    decreases |a|
  {
    hide Step, Enabled;
    if a == [] {
      assert a + b == b;
    } else {
      RunOn(Step(w, a[0]), a[1..], b);
      Unfold(w, a[0], a[1..] + b);
      assert a + b == [a[0]] + (a[1..] + b);
    }
  }

  lemma PickUpStarts(w: World, r: nat, d: DocId)
    requires r < |w.runners| && w.runners[r].Idle? && d in w.jobs
    ensures Enabled(w, PickUp(r, d)) && Step(w, PickUp(r, d)) == With(w, r, Taking(d))
    ensures Enabled(With(w, r, Taking(d)), Take(r))
  {
  }

  /** What the worker takes back is what was asked, as far as the file is concerned. */
  lemma TakenIsAsked(w: World, d: DocId, q: Request, file: Pdf)
    requires d in w.jobs && w.jobs[d].watermark == q.watermark
    requires w.jobs[d].secret.Some? <==> q.protection.Given?
    requires Entitled(q, file)
    ensures Entitled(TakenRequest(w, d), file) && StepsBefore(TakenRequest(w, d), file.pages, NoFault) == 5
    ensures TakenRequest(w, d).protection.Absent? <==> !q.protection.Given?
  {
    StampedIff(q.watermark, file.pages, file.stamped);
  }

  lemma TakeKeeps(w: World, r: nat, d: DocId)
    requires r < |w.runners| && d in w.jobs && !SecretLost(w, d)
    ensures var t := TakeStep(w, r, d);
      && t.docs == w.docs && t.objects == w.objects && t.entered == w.entered + multiset{d}
      && t.vault == w.vault - (if w.jobs[d].secret.Some? then {w.jobs[d].secret.value} else {})
  {
  }

  lemma TakenFields(w: World, r: nat, d: DocId)
    requires r < |w.runners| && d in w.jobs && !SecretLost(w, d)
    ensures |TakeStep(w, r, d).runners| == |w.runners|
    ensures TakeStep(w, r, d).runners[r := Idle] == w.runners[r := Idle]
  {
  }

  /** A job that a worker takes with its secret there, and that meets no fault. */
  lemma JobCompletes(w: World, r: nat, d: DocId, q: Request, file: Pdf) returns (es: seq<Event>)
    requires r < |w.runners| && w.runners[r] == Taking(d) && d in w.jobs && d in w.docs && !SecretLost(w, d)
    requires w.jobs[d].watermark == q.watermark && (w.jobs[d].secret.Some? <==> q.protection.Given?)
    requires Entitled(q, file)
    ensures Run(w, es)
    ensures var t := After(w, es);
      && t.docs == w.docs[d := Doc(Completed, q.protection.Given?, !q.watermark.Absent?)]
      && t.objects == w.objects[d := file] && t.runners == w.runners[r := Idle]
      && t.entered == w.entered + multiset{d}
      && t.vault == w.vault - (if w.jobs[d].secret.Some? then {w.jobs[d].secret.value} else {})
  {
    TakenIsAsked(w, d, q, file);
    hide Step, Run, After, StepsBefore, Entitled, PipelineEvents;
    TakeKeeps(w, r, d);
    TakenFields(w, r, d);
    hide TakeStep;
    ProcessIsARun(w, r, d, file, NoFault, true);
    es := [Take(r)] + PipelineEvents(r, TakenRequest(w, d), file, NoFault, true, d in TakeStep(w, r, d).docs);
  }

  lemma AcceptedIsReady(w: World, d: DocId, q: Request, id: SecretId, r: nat)
    requires id !in w.vault && r < |w.runners| && w.runners[r].Idle?
    ensures var t := With(Submitted(w, d, q, id, true, true), r, Taking(d));
      && r < |t.runners| && t.runners[r] == Taking(d) && d in t.jobs && d in t.docs && !SecretLost(t, d)
      && t.jobs[d] == Job(q.watermark, HandleOf(q, id))
      && t.runners[r := Idle] == w.runners && t.entered == w.entered
      && t.vault - (if t.jobs[d].secret.Some? then {t.jobs[d].secret.value} else {}) == w.vault
  {
  }

  /**
   * An accepted submission that a worker takes while its secret is there, and that meets no fault,
   * completes: the row says so, its object is the file the request is entitled to, and the secret is
   * gone.
   */
  lemma AcceptedRequestCompletes(w: World, d: DocId, q: Request, id: SecretId, r: nat, file: Pdf)
    returns (es: seq<Event>)
    requires d !in w.asked && d !in w.docs && id !in w.docOf && id !in w.vault
    requires r < |w.runners| && w.runners[r].Idle? && Entitled(q, file)
    ensures Run(w, es)
    ensures var t := After(w, es);
      && d in t.docs && t.docs[d] == Doc(Completed, q.protection.Given?, !q.watermark.Absent?)
      && d in t.objects && t.objects[d] == file
      && t.vault == w.vault && t.runners == w.runners && t.entered == w.entered + multiset{d}
  {
    var w1 := Submitted(w, d, q, id, true, true);
    assert r < |w1.runners| && w1.runners[r].Idle? && d in w1.jobs;
    AcceptedIsReady(w, d, q, id, r);
    PickUpStarts(w1, r, d);
    hide Step, Enabled, Run, After, Entitled, SubmissionEvents, SecretLost, Submitted, With;
    SubmissionIsARun(w, d, q, id, true, true);
    var rest := JobCompletes(With(w1, r, Taking(d)), r, d, q, file);
    Unfold(w1, PickUp(r, d), rest);
    RunOn(w, SubmissionEvents(d, q, id, true, true), [PickUp(r, d)] + rest);
    es := SubmissionEvents(d, q, id, true, true) + ([PickUp(r, d)] + rest);
  }

  /** A synchronous request that nothing stops completes its row over `file`. */
  lemma SyncCompletes(d: DocId, q: Request, file: Pdf)
    requires Entitled(q, file)
    ensures var es := [SyncStart(0, d, q)] + Steps(0, file, 1, 5, Complete(0));
      && Run(Start(1), es)
      && var w := After(Start(1), es);
        && d in w.docs && w.docs[d] == Row(Completed, q) && d in w.objects && w.objects[d] == file
        && w.entered == multiset{d}
  {
    var w0 := Start(1);
    var w1 := Step(w0, SyncStart(0, d, q));
    assert Midway(w1, 0, d, q, file, 1) == w1;
    StepsRun(w1, 0, d, q, file, 1, 5, Completed);
    Unfold(w0, SyncStart(0, d, q), Steps(0, file, 1, 5, Complete(0)));
  }

  /**
   * A null field is real: the row of a synchronous request with both fields null says encrypted and
   * watermarked, and its object is neither.
   */
  lemma NullFieldsMisreport(d: DocId, pages: nat)
    ensures var q := Request(Null, Null);
      var es := [SyncStart(0, d, q)] + Steps(0, Plain(pages), 1, 5, Complete(0));
      && Run(Start(1), es)
      && var w := After(Start(1), es);
        d in w.docs && w.docs[d] == Doc(Completed, true, true) && d in w.objects && w.objects[d] == Plain(pages)
  {
    SyncCompletes(d, Request(Null, Null), Plain(pages));
  }

  /**
   * So is a list that names no page: with a watermark for page 9 of a document of three pages the
   * row says watermarked, and its object has no stamp.
   */
  lemma UnnamedPagesMisreport(d: DocId)
    ensures var q := Request(Absent, Given(Watermark(Some("9"), true)));
      var es := [SyncStart(0, d, q)] + Steps(0, Plain(3), 1, 5, Complete(0));
      && Run(Start(1), es)
      && var w := After(Start(1), es);
        d in w.docs && w.docs[d] == Doc(Completed, false, true) && d in w.objects && w.objects[d] == Plain(3)
  {
    assert PageSelection.Decimal(9) == "9";
    BeyondTheEnd(9, 3);
    hide Marks;
    SyncCompletes(d, Request(Absent, Given(Watermark(Some("9"), true))), Plain(3));
  }

  lemma RequestedWatermark(watermark: Field<Watermark>)
    requires watermark.Given?
    ensures watermark == Given(watermark.value)
  {
  }

  lemma NothingRefused(watermark: Field<Watermark>, pages: nat)
    requires !watermark.Given?
    ensures !Refused(watermark, pages)
  {
  }

  /** The api process: the async endpoint, the vault, the worker and the pipeline on their stores. */
  class RenderService {
    var docs: map<DocId, Doc>
    var objects: map<DocId, Pdf>
    var vault: set<SecretId>
    var jobs: map<DocId, Job>
    var succeeded: nat
    var failed: nat
    ghost var submissions: map<DocId, Submission>
    ghost var runners: seq<Runner>
    ghost var asked: map<DocId, Request>
    ghost var docOf: map<SecretId, DocId>
    ghost var taken: multiset<SecretId>
    ghost var entered: multiset<DocId>

    ghost function View(): World
      reads this
    {
      World(docs, objects, vault, jobs, submissions, runners, asked, docOf, taken, entered)
    }

    constructor (instances: nat)
      ensures View() == Start(instances)
    {
      docs, objects, vault, jobs, succeeded, failed := map[], map[], {}, map[], 0, 0;
      submissions, runners, asked, docOf := map[], seq(instances, _ => Idle), map[], map[];
      taken, entered := multiset{}, multiset{};
    }

    /** `store`: a fresh handle for the secret, or none when there is nothing to hide. */
    method StoreSecret(d: DocId, protection: Field<Protection>, id: SecretId) returns (secret: Option<SecretId>)
      requires d in asked && asked[d].protection == protection && id !in docOf
      modifies `vault, `docOf, `submissions
      ensures secret == if protection.Given? then Some(id) else None
      ensures vault == if protection.Given? then old(vault) + {id} else old(vault)
      ensures docOf == if protection.Given? then old(docOf)[id := d] else old(docOf)
      ensures submissions == old(submissions)[d := Stored(secret)]
    {
      if protection.Given? {
        vault := vault + {id};
        docOf := docOf[id := d];
        secret := Some(id);
      } else {
        secret := None;
      }
      submissions := submissions[d := Stored(secret)];
    }

    /** `renderAsync`: reserve the row, hide the secret, enqueue; if that fails, drop the secret. */
    method RenderAsync(d: DocId, q: Request, id: SecretId, ok: bool, landed: bool) returns (accepted: bool)
      requires d !in asked && d !in docs && id !in docOf && id !in vault
      modifies `docs, `asked, `submissions, `vault, `docOf, `jobs
      ensures accepted == ok && docs == old(docs)[d := Row(Queued, q)]
      ensures asked == old(asked)[d := q] && submissions == old(submissions)[d := Over]
      ensures vault == if ok && q.protection.Given? then old(vault) + {id} else old(vault)
      ensures docOf == if q.protection.Given? then old(docOf)[id := d] else old(docOf)
      ensures jobs == if ok || landed then old(jobs)[d := Job(q.watermark, HandleOf(q, id))] else old(jobs)
    {
      docs := docs[d := Row(Queued, q)];
      asked := asked[d := q];
      var secret := StoreSecret(d, q.protection, id);
      if ok || landed {
        jobs := jobs[d := Job(q.watermark, secret)];
      }
      if !ok && secret.Some? {
        vault := vault - {secret.value};
      }
      submissions := submissions[d := Over];
      accepted := ok;
    }

    /** `take`: one GETDEL, which finds the secret only once. */
    method TakeSecret(secret: Option<SecretId>) returns (found: bool)
      modifies `vault, `taken
      ensures found <==> secret.Some? && secret.value in old(vault)
      ensures vault == if found then old(vault) - {secret.value} else old(vault)
      ensures taken == if found then old(taken) + multiset{secret.value} else old(taken)
    {
      found := secret.Some? && secret.value in vault;
      if found {
        vault := vault - {secret.value};
        taken := taken + multiset{secret.value};
      }
    }

    /** The beginning of `process`: the secret, and the check that refuses to go on without it. */
    method Take(r: nat, d: DocId) returns (dto: Option<Request>)
      requires r < |runners| && d in jobs
      modifies `vault, `taken, `entered, `runners
      ensures View() == TakeStep(old(View()), r, d)
      ensures dto == if SecretLost(old(View()), d) then None else Some(TakenRequest(old(View()), d))
    {
      var job := jobs[d];
      var found := TakeSecret(job.secret);
      if job.secret.Some? && !found {
        runners := runners[r := Idle];
        return None;
      }
      dto := Some(Request(if found then Given(Protection) else Absent, job.watermark));
      entered := entered + multiset{d};
      runners := runners[r := Running(d, dto.value, Starting)];
    }

    /**
     * Render, count the pages, stamp, and encrypt last; None when a step on the way fails. `file` is
     * the file the request is entitled to, as soon as stamping has worked.
     */
    method MakeFile(dto: Request, pages: nat, fault: Fault) returns (pdf: Option<Pdf>, ghost file: Pdf)
      requires pages <= PageSelection.MAX_PAGES && fault != MarkFault
      ensures file.pages == pages && (StepsBefore(dto, pages, fault) >= 3 ==> Entitled(dto, file))
      ensures pdf.Some? <==> StepsBefore(dto, pages, fault) >= 4
      ensures pdf.Some? ==> pdf.value.pages == pages && Entitled(dto, pdf.value)
      ensures pdf.Some? ==> pdf.value == file
    {
      file := Plain(pages);
      if fault == RenderFault || fault == PageLimit {
        return None, file;
      }
      hide Refused;
      var made := Plain(pages);
      if dto.watermark.Given? {
        hide Marks;
        var stamped, stamps := Apply(made, dto.watermark.value, fault != StampFault);
        RequestedWatermark(dto.watermark);
        file := Pdf(pages, stamps, dto.protection.Given?, false);
        if stamped.None? {
          return None, file;
        }
        made := stamped.value;
      } else {
        NothingRefused(dto.watermark, pages);
        file := Pdf(pages, [], dto.protection.Given?, false);
      }
      if dto.protection.Given? {
        if fault == EncryptFault {
          return None, file;
        }
        made := Encrypt(made);
      }
      pdf := Some(made);
    }

    /** The try of the pipeline: make the file, store it, complete the row, meter. */
    method TryRender(d: DocId, dto: Request, pages: nat, fault: Fault) returns (ok: bool, ghost file: Pdf)
      requires pages <= PageSelection.MAX_PAGES && fault != MarkFault
      requires d in docs && docs[d] == Row(Rendering, dto)
      modifies `docs, `objects, `succeeded
      ensures file.pages == pages && (StepsBefore(dto, pages, fault) >= 3 ==> Entitled(dto, file))
      ensures ok <==> Succeeds(dto, pages, fault)
      ensures docs == if ok then old(docs)[d := Row(Completed, dto)] else old(docs)
      ensures objects == if StepsBefore(dto, pages, fault) == 5 then old(objects)[d := file] else old(objects)
      ensures succeeded == old(succeeded) + if ok then 1 else 0
    {
      hide Entitled, Refused;
      ok := false;
      var pdf;
      pdf, file := MakeFile(dto, pages, fault);
      if pdf.Some? && fault != PutFault {
        objects := objects[d := pdf.value];
        ok := fault != CompleteFault;
      }
      if ok {
        docs := docs[d := docs[d].(status := Completed)];
        succeeded := succeeded + 1;
      }
    }

    /** The catch: records and meters the failure, unless its own update of the row fails as well. */
    method RecordFailure(d: DocId, caught: bool)
      requires d in docs
      modifies `docs, `failed
      ensures docs == if caught then old(docs)[d := old(docs)[d].(status := Failed)] else old(docs)
      ensures failed == old(failed) + if caught then 1 else 0
    {
      if caught {
        docs := docs[d := docs[d].(status := Failed)];
        failed := failed + 1;
      }
    }

    /** The pipeline on the row of `d`, which fails at once when that row is gone or cannot be updated. */
    method RunPipeline(r: nat, d: DocId, dto: Request, pages: nat, fault: Fault, caught: bool)
      returns (ok: bool, ghost file: Pdf)
      requires r < |runners| && pages <= PageSelection.MAX_PAGES
      modifies `docs, `objects, `succeeded, `failed, `runners
      ensures file.pages == pages && (d in old(docs) && StepsBefore(dto, pages, fault) >= 3 ==> Entitled(dto, file))
      ensures ok <==> d in old(docs) && Succeeds(dto, pages, fault)
      ensures runners == old(runners)[r := Idle]
      ensures docs == if d in old(docs) && fault != MarkFault
        then old(docs)[d := Row(if ok then Completed else if caught then Failed else Rendering, dto)] else old(docs)
      ensures objects == if d in old(docs) && StepsBefore(dto, pages, fault) == 5
        then old(objects)[d := file] else old(objects)
      ensures succeeded == old(succeeded) + if ok then 1 else 0
      ensures failed == old(failed) + if d in old(docs) && fault != MarkFault && !ok && caught then 1 else 0
    {
      hide Entitled, Refused;
      runners := runners[r := Idle];
      if d !in docs || fault == MarkFault {
        return false, Plain(pages);
      }
      docs := docs[d := Row(Rendering, dto)];
      ok, file := TryRender(d, dto, pages, fault);
      if !ok {
        RecordFailure(d, caught);
      }
      hide StepsBefore;
      assert docs == old(docs)[d := Row(Ending(ok, caught), dto)];
    }

    /** One attempt of the worker: a job whose secret is gone fails before anything is touched. */
    method Process(r: nat, d: DocId, pages: nat, fault: Fault, caught: bool) returns (ok: bool, ghost file: Pdf)
      requires r < |runners| && runners[r] == Taking(d) && d in jobs && pages <= PageSelection.MAX_PAGES
      modifies this
      ensures file.pages == pages
      ensures ok <==>
        !SecretLost(old(View()), d) && d in old(docs) && Succeeds(TakenRequest(old(View()), d), pages, fault)
      ensures ok ==> Entitled(TakenRequest(old(View()), d), file)
      ensures View() == Processed(old(View()), r, d, file, fault, caught)
      ensures SecretLost(old(View()), d) ==> succeeded == old(succeeded) && failed == old(failed)
    {
      hide Entitled, Refused;
      var dto := Take(r, d);
      if dto.None? {
        return false, Plain(pages);
      }
      ghost var w := View();
      hide SecretLost, TakeStep, Attempted, StepsBefore, Succeeds;
      ok, file := RunPipeline(r, d, dto.value, pages, fault, caught);
      FieldsOfAttempted(w, r, d, dto.value, file, fault, caught, View());
    }
  }
}
