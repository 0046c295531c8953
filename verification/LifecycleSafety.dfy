/**
 Safety at the granularity of a single write.  Every entry point is a sequence of legal atomic
 effects, legal effects keep the invariant, so the invariant holds between any two writes of any run,
 including runs in which generation, rendering, storage or sending fails midway.
 */
module LifecycleSafety {
  import opened Wrappers
  import opened Domain
  import opened StateMachine
  import opened StorageKeys
  import opened Lifecycle

  // ---- the invariant ----

  /** Revisions are numbered 1..n; the n-th runs ahead of the request only while it is GENERATING. */
  ghost predicate Numbered(r: Request, revs: seq<Revision>) {
    && (forall k | 0 <= k < |revs| :: revs[k].revisionNo == k + 1 && revs[k].requestId == r.id)
    && (|revs| == r.currentRevision || (|revs| == r.currentRevision + 1 && r.state == Generating))
  }

  /** How far a request has come bounds its revision count. */
  ghost predicate Staged(r: Request) {
    && (r.state in {RequestState.Received, Aggregating, ProcessingMedia, Classifying, AwaitingClassification, Discarded}
        ==> r.currentRevision == 0)
    && (r.state in {Rendering, AwaitingApproval, Completed} ==> r.currentRevision > 0)
  }

  /** The revision has the schema of the request's intent, and its references name stored objects. */
  ghost predicate Stored(w: World, r: Request, v: Revision) {
    var pdf, docx := ArtifactKey(r.id, v.revisionNo, v.content.schema, Pdf), ArtifactKey(r.id, v.revisionNo, v.content.schema, Docx);
    && r.intent == Some(v.content.schema)
    && v.pdfRef == Reference(pdf) && pdf in w.store
    && v.docxRef == Reference(docx) && docx in w.store
  }

  ghost predicate RequestOk(w: World, id: string)
    requires id in w.repo.requests
  {
    var r, revs := w.repo.requests[id], RevisionsOf(w.repo, id);
    && r.id == id && KeySafe(id)
    && Numbered(r, revs) && Staged(r)
    && (forall k | 0 <= k < |revs| :: Stored(w, r, revs[k]))
  }

  /** The largest revision number for which `id` may already own stored artifacts. */
  function Bound(w: World, id: string): nat {
    if id !in w.repo.requests then 0 else
      var r := w.repo.requests[id];
      r.currentRevision + if r.state in {Generating, Failed} then 1 else 0
  }

  ghost predicate NoArtifactsBeyond(w: World) {
    forall id, n: nat, i, f | KeySafe(id) && n > Bound(w, id) :: ArtifactKey(id, n, i, f) !in w.store
  }

  /** The owner was sent exactly the bytes stored for a revision that exists. */
  ghost predicate Faithful(w: World, s: Sent) {
    s.Delivery? ==>
      var revs := RevisionsOf(w.repo, s.requestId);
      && 1 <= s.revisionNo <= |revs|
      && var v := revs[s.revisionNo - 1];
         var pdf, docx := ArtifactKey(s.requestId, s.revisionNo, v.content.schema, Pdf), ArtifactKey(s.requestId, s.revisionNo, v.content.schema, Docx);
      && pdf in w.store && w.store[pdf] == s.pdf
      && docx in w.store && w.store[docx] == s.docx
  }

  ghost predicate Inv(w: World) {
    && (forall id | id in w.repo.requests :: RequestOk(w, id))
    && (forall id | id !in w.repo.requests :: RevisionsOf(w.repo, id) == [])
    && NoArtifactsBeyond(w)
    && (forall s | s in w.outbox :: Faithful(w, s))
  }

  // ---- legal atomic effects ----

  /** Saving `r'` over `r`, with `n` revisions stored, follows an edge of the table (or re-saves a
      correction), keeps the intent once revisions exist, and counts a revision exactly when leaving
      GENERATING for RENDERING. */
  ghost predicate LegalSave(r: Request, n: nat, r': Request) {
    && (r'.intent == r.intent || n == 0)
    && if r.state == Generating then
         || (r'.state == Rendering && r'.currentRevision == r.currentRevision + 1 == n)
         || (r'.state == Failed && r'.currentRevision == r.currentRevision == n)
       else
         && r'.currentRevision == r.currentRevision
         && (r'.state == r.state == AwaitingClassification || exists t :: NextState(r.state, t) == Some(r'.state))
  }

  ghost predicate Legal(w: World, op: Op) {
    match op
    case SaveRequest(r') =>
      if r'.id in w.repo.requests then LegalSave(w.repo.requests[r'.id], |RevisionsOf(w.repo, r'.id)|, r')
      else KeySafe(r'.id) && r'.state == RequestState.Received && r'.currentRevision == 0
    case AddRevision(v) =>
      && v.requestId in w.repo.requests
      && var r := w.repo.requests[v.requestId];
      && r.state == Generating && v.revisionNo == r.currentRevision + 1 == |RevisionsOf(w.repo, r.id)| + 1
      && Stored(w, r, v)
    case PutObject(key, _) =>
      && key !in w.store
      && ((exists m :: key == InboundKey(m)) || (exists id, i, f :: OwnsKey(w, id, i, f, key)))
    case Send(s) => Faithful(w, s)
    case AskModel(id, n, intent, feedback, previous) =>
      && id in w.repo.requests
      && var r, revs := w.repo.requests[id], RevisionsOf(w.repo, id);
      && r.state == Generating && r.intent == Some(intent) && HasPrompt(r.intent)
      && n == r.currentRevision + 1 == |revs| + 1
      && (if n == 1 then previous == None && feedback == None else previous == Some(revs[n - 2].content))
    case _ => true
  }

  /** `key` is for the revision that request `id` is generating. */
  ghost predicate OwnsKey(w: World, id: string, i: Intent, f: Format, key: string) {
    && id in w.repo.requests && w.repo.requests[id].state == Generating
    && key == ArtifactKey(id, w.repo.requests[id].currentRevision + 1, i, f)
  }

  ghost predicate LegalRun(w: World, ops: seq<Op>)
    decreases |ops|
  {
    ops == [] || (Legal(w, ops[0]) && LegalRun(Apply(w, ops[0]), ops[1..]))
  }

  lemma LegalDo(w: World, op: Op, rest: seq<Op>)
    requires Legal(w, op) && LegalRun(Apply(w, op), rest)
    ensures LegalRun(w, [op] + rest)
  {
    assert ([op] + rest)[1..] == rest;
  }

  lemma {:induction false} LegalConcat(w: World, a: seq<Op>, b: seq<Op>)
    requires LegalRun(w, a) && LegalRun(Exec(w, a), b)
    ensures LegalRun(w, a + b)
    decreases |a|
  {
    if a == [] {
      assert a + b == b;
    } else {
      assert (a + b)[0] == a[0] && (a + b)[1..] == a[1..] + b;
      LegalConcat(Apply(w, a[0]), a[1..], b);
    }
  }

  lemma IdIsKey(w: World, id: string)
    requires Inv(w) && id in w.repo.requests
    ensures w.repo.requests[id].id == id
  {
    assert RequestOk(w, id);
  }

  lemma StartIsSafe()
    ensures Inv(START)
  {
  }

  // ---- legal effects keep the invariant ----

  lemma SavedOk(w: World, r': Request)
    requires Inv(w) && Legal(w, SaveRequest(r'))
    ensures RequestOk(Apply(w, SaveRequest(r')), r'.id)
    ensures Bound(w, r'.id) <= Bound(Apply(w, SaveRequest(r')), r'.id)
  {
    hide ArtifactKey, KeySafe, NoArtifactsBeyond;
    assert RevisionsOf(Apply(w, SaveRequest(r')).repo, r'.id) == RevisionsOf(w.repo, r'.id);
    if r'.id in w.repo.requests {
      assert RequestOk(w, r'.id);
    }
  }

  lemma SaveKeeps(w: World, r': Request)
    requires Inv(w) && Legal(w, SaveRequest(r'))
    ensures Inv(Apply(w, SaveRequest(r')))
  {
    SavedOk(w, r');
    hide ArtifactKey, KeySafe, Legal, Numbered, Staged;
    var w' := Apply(w, SaveRequest(r'));
    assert forall id :: RevisionsOf(w'.repo, id) == RevisionsOf(w.repo, id);
    assert forall id :: Bound(w, id) <= Bound(w', id);
    forall id | id in w'.repo.requests ensures RequestOk(w', id) {
      if id != r'.id {
        assert RequestOk(w, id);
      }
    }
    forall s | s in w'.outbox ensures Faithful(w', s) {
      assert Faithful(w, s);
    }
  }

  lemma RevisionKeeps(w: World, v: Revision)
    requires Inv(w) && Legal(w, AddRevision(v))
    ensures Inv(Apply(w, AddRevision(v)))
  {
    hide ArtifactKey, KeySafe;
    var w' := Apply(w, AddRevision(v));
    assert forall id :: Bound(w, id) == Bound(w', id);
    assert forall id | id != v.requestId :: RevisionsOf(w'.repo, id) == RevisionsOf(w.repo, id);
    forall id | id in w'.repo.requests ensures RequestOk(w', id) {
      assert RequestOk(w, id);
    }
    forall s | s in w'.outbox ensures Faithful(w', s) {
      assert Faithful(w, s);
    }
  }

  /** A legal key is not an artifact key beyond any request's bound. */
  lemma LegalKeyWithinBound(w: World, key: string, data: Bytes, id: string, n: nat, i: Intent, f: Format)
    requires Inv(w) && Legal(w, PutObject(key, data)) && KeySafe(id) && n > Bound(w, id)
    ensures ArtifactKey(id, n, i, f) != key
  {
    hide ArtifactKey, InboundKey, KeySafe, NoArtifactsBeyond;
    if m :| key == InboundKey(m) {
      InboundKeyApart(m, id, n, i, f);
    } else {
      var id0, i0, f0 :| OwnsKey(w, id0, i0, f0, key);
      assert RequestOk(w, id0);
      if key == ArtifactKey(id, n, i, f) {
        ArtifactKeyInjective(id0, w.repo.requests[id0].currentRevision + 1, i0, f0, id, n, i, f);
      }
    }
  }

  lemma PutKeeps(w: World, key: string, data: Bytes)
    requires Inv(w) && Legal(w, PutObject(key, data))
    ensures Inv(Apply(w, PutObject(key, data)))
  {
    hide ArtifactKey, InboundKey, KeySafe;
    var w' := Apply(w, PutObject(key, data));
    forall id, n: nat, i, f | KeySafe(id) && n > Bound(w', id) ensures ArtifactKey(id, n, i, f) !in w'.store {
      LegalKeyWithinBound(w, key, data, id, n, i, f);
    }
    assert key !in w.store;
    forall id | id in w'.repo.requests ensures RequestOk(w', id) {
      assert RequestOk(w, id);
    }
    forall s | s in w'.outbox ensures Faithful(w', s) {
      assert Faithful(w, s);
    }
  }

  /** Effects on neither requests, revisions nor storage keep the invariant if what is sent is faithful. */
  lemma OtherKeeps(w: World, op: Op)
    requires Inv(w) && Legal(w, op) && (op.SetMessages? || op.Record? || op.Send? || op.AskModel?)
    ensures Inv(Apply(w, op))
  {
    hide ArtifactKey, KeySafe;
    var w' := Apply(w, op);
    assert forall id :: Bound(w, id) == Bound(w', id) && RevisionsOf(w.repo, id) == RevisionsOf(w'.repo, id);
    forall id | id in w'.repo.requests ensures RequestOk(w', id) {
      assert RequestOk(w, id);
    }
    forall s | s in w'.outbox ensures Faithful(w', s) {
      assert s in w.outbox ==> Faithful(w, s);
    }
  }

  lemma LegalKeeps(w: World, op: Op)
    requires Inv(w) && Legal(w, op)
    ensures Inv(Apply(w, op))
  {
    hide Inv, Legal, Apply;
    match op
    case SaveRequest(r) => SaveKeeps(w, r);
    case AddRevision(v) => RevisionKeeps(w, v);
    case PutObject(key, data) => PutKeeps(w, key, data);
    case _ => OtherKeeps(w, op);
  }

  // ---- every entry point is a run of legal effects ----

  lemma PromptLegal(w: World, r: Request, intent: Intent, sends: bool)
    ensures LegalRun(w, NotifyPlan(r, intent, sends).ops)
  {
    if sends {
      LegalDo(w, Send(Prompt(r.id, intent)), []);
    }
  }

  lemma ClassifyLegal(w: World, cfg: Config, r: Request, flags: seq<string>, oracle: IngestOracle)
    requires r.id in w.repo.requests && w.repo.requests[r.id] == r && r.state == Classifying
    requires RevisionsOf(w.repo, r.id) == []
    ensures LegalRun(w, ClassifyPlan(cfg, r, flags, oracle).ops)
  {
    var plan := ClassifyPlan(cfg, r, flags, oracle);
    if oracle.classified.Some? {
      var save := plan.ops[0];
      assert NextState(Classifying, ClassifiedNone) == Some(Discarded);
      assert NextState(Classifying, ClassifiedActionable) == Some(AwaitingClassification);
      PromptLegal(Apply(w, save), save.request, oracle.classified.value.0, oracle.sends);
      LegalDo(w, save, plan.ops[1..]);
    }
  }

  lemma NoRevisionsYet(w: World, id: string)
    requires Inv(w) && id !in w.repo.requests
    ensures RevisionsOf(w.repo, id) == []
  {
  }

  lemma IngestLegal(w: World, cfg: Config, agg: AggregatedRequest, name: string, now: int, flags: seq<string>, oracle: IngestOracle)
    requires Inv(w) && agg.requestId !in w.repo.requests && KeySafe(agg.requestId)
    ensures LegalRun(w, IngestPlan(cfg, agg, name, now, flags, oracle).ops)
  {
    hide ClassifyPlan, KeySafe, ArtifactKey, Inv;
    assert RevisionsOf(w.repo, agg.requestId) == [] by { NoRevisionsYet(w, agg.requestId); }
    var r := NewRequest(agg, name, now);
    var r3 := r.(state := Classifying, transcript := Some(oracle.transcript));
    var a, b, c, d, e := SaveRequest(r), SetMessages(r.id, agg.messages), SaveRequest(r.(state := Aggregating)),
                         SaveRequest(r.(state := ProcessingMedia)), SaveRequest(r3);
    var w1 := Apply(w, a);
    var w2 := Apply(w1, b);
    var w3 := Apply(w2, c);
    var w4 := Apply(w3, d);
    var w5 := Apply(w4, e);
    var rest := ClassifyPlan(cfg, r3, flags, oracle).ops;
    ClassifyLegal(w5, cfg, r3, flags, oracle);
    assert NextState(RequestState.Received, StartAggregation) == Some(Aggregating);
    assert NextState(Aggregating, WindowClosed) == Some(ProcessingMedia);
    assert NextState(ProcessingMedia, MediaProcessed) == Some(Classifying);
    LegalDo(w4, e, rest);
    LegalDo(w3, d, [e] + rest);
    LegalDo(w2, c, [d] + ([e] + rest));
    LegalDo(w1, b, [c] + ([d] + ([e] + rest)));
    LegalDo(w, a, [b] + ([c] + ([d] + ([e] + rest))));
  }

  /** `r` is stored, GENERATING, and has `n` revisions. */
  ghost predicate IsGenerating(w: World, r: Request, n: nat) {
    r.id in w.repo.requests && w.repo.requests[r.id] == r && r.state == Generating && |RevisionsOf(w.repo, r.id)| == n
  }

  ghost predicate NoArtifacts(w: World, id: string, n: nat) {
    forall i, f :: ArtifactKey(id, n, i, f) !in w.store
  }

  lemma DeliverLegal(w: World, r: Request, v: Revision, now: int, files: (Bytes, Bytes), sends: bool)
    requires IsGenerating(w, r, r.currentRevision + 1)
    requires RevisionsOf(w.repo, r.id)[r.currentRevision] == v && v.revisionNo == r.currentRevision + 1
    requires var pdf, docx := ArtifactKey(r.id, v.revisionNo, v.content.schema, Pdf), ArtifactKey(r.id, v.revisionNo, v.content.schema, Docx);
             pdf in w.store && w.store[pdf] == files.0 && docx in w.store && w.store[docx] == files.1
    ensures LegalRun(w, DeliverPlan(r, now, files, sends).ops)
  {
    hide ArtifactKey;
    var rendering := r.(state := Rendering, currentRevision := r.currentRevision + 1, updatedAt := now);
    var awaiting := rendering.(state := AwaitingApproval);
    var w1 := Apply(w, SaveRequest(rendering));
    var w2 := Apply(w1, SaveRequest(awaiting));
    assert NextState(Rendering, Rendered) == Some(AwaitingApproval);
    var send := Send(Delivery(r.id, r.currentRevision + 1, files.0, files.1));
    var rest := if sends then [send] + [] else [];
    if sends {
      assert RevisionsOf(w2.repo, r.id) == RevisionsOf(w.repo, r.id);
      LegalDo(w2, send, []);
    }
    LegalDo(w1, SaveRequest(awaiting), rest);
    LegalDo(w, SaveRequest(rendering), [SaveRequest(awaiting)] + rest);
  }

  lemma StoreLegal(w: World, r: Request, now: int, content: Content, feedback: Option<string>, files: (Bytes, Bytes), oracle: ActOracle)
    requires IsGenerating(w, r, r.currentRevision) && r.intent == Some(content.schema) && KeySafe(r.id)
    requires NoArtifacts(w, r.id, r.currentRevision + 1)
    ensures LegalRun(w, StorePlan(r, now, content, feedback, files, oracle).ops)
  {
    hide DeliverPlan, ArtifactKey, KeySafe;
    var n := r.currentRevision + 1;
    var pdf, docx := ArtifactKey(r.id, n, content.schema, Pdf), ArtifactKey(r.id, n, content.schema, Docx);
    if pdf == docx {
      ArtifactKeyInjective(r.id, n, content.schema, Pdf, r.id, n, content.schema, Docx);
    }
    var put1, put2 := PutObject(pdf, files.0), PutObject(docx, files.1);
    var v := Revision(r.id, n, content, feedback, Reference(pdf), Reference(docx), now);
    assert OwnsKey(w, r.id, content.schema, Pdf, pdf);
    var w1 := Apply(w, put1);
    assert OwnsKey(w1, r.id, content.schema, Docx, docx);
    var w2 := Apply(w1, put2);
    var w3 := Apply(w2, AddRevision(v));
    if oracle.storesPdf {
      if oracle.storesDocx {
        var rest := DeliverPlan(r, now, files, oracle.sends).ops;
        DeliverLegal(w3, r, v, now, files, oracle.sends);
        LegalDo(w2, AddRevision(v), rest);
        LegalDo(w1, put2, [AddRevision(v)] + rest);
        LegalDo(w, put1, [put2] + ([AddRevision(v)] + rest));
      } else {
        LegalDo(w, put1, []);
      }
    }
  }

  lemma GenerateLegal(w: World, r: Request, now: int, feedback: Option<string>, previous: Option<Content>, oracle: ActOracle)
    requires IsGenerating(w, r, r.currentRevision) && KeySafe(r.id)
    requires NoArtifacts(w, r.id, r.currentRevision + 1)
    requires if r.currentRevision == 0 then previous == None && feedback == None
             else previous == LatestContent(w.repo, r.id)
    ensures LegalRun(w, GeneratePlan(r, now, feedback, previous, oracle).ops)
  {
    hide StorePlan, ArtifactKey, KeySafe;
    if HasPrompt(r.intent) {
      var ask := AskModel(r.id, r.currentRevision + 1, r.intent.value, feedback, previous);
      if oracle.generated.None? {
        var save := SaveRequest(r.(state := Failed, updatedAt := now));
        LegalDo(w, save, []);
        LegalDo(w, ask, [save] + []);
      } else if oracle.rendered.None? {
        LegalDo(w, ask, []);
      } else {
        var content := Content(r.intent.value, oracle.generated.value);
        StoreLegal(w, r, now, content, feedback, oracle.rendered.value, oracle);
        LegalDo(w, ask, StorePlan(r, now, content, feedback, oracle.rendered.value, oracle).ops);
      }
    }
  }

  lemma CorrectLegal(w: World, r: Request, oracle: ActOracle)
    requires r.id in w.repo.requests && RevisionsOf(w.repo, r.id) == []
    requires LegalSave(w.repo.requests[r.id], 0, r)
    ensures LegalRun(w, CorrectPlan(r, oracle).ops)
  {
    var save := SaveRequest(r);
    if r.intent.Some? {
      PromptLegal(Apply(w, save), r, r.intent.value, oracle.sends);
    }
    LegalDo(w, save, CorrectPlan(r, oracle).ops[1..]);
  }

  /** Taking an owner's edge is a legal save; what follows finds the request where it expects it. */
  lemma OwnerSaveLegal(w: World, r: Request, d: OwnerDecision, now: int)
    requires Inv(w) && r.id in w.repo.requests && w.repo.requests[r.id] == r
    requires NextState(r.state, TriggerFor(d)).Some?
    ensures var moved := r.(state := NextState(r.state, TriggerFor(d)).value, updatedAt := now);
            var w1 := Apply(w, SaveRequest(moved));
            && Legal(w, SaveRequest(moved)) && KeySafe(r.id)
            && RevisionsOf(w1.repo, r.id) == RevisionsOf(w.repo, r.id)
            && NoArtifacts(w1, r.id, r.currentRevision + 1)
            && |RevisionsOf(w.repo, r.id)| == r.currentRevision
            && (d == Confirm || d == Correct ==> r.currentRevision == 0)
            && (d == Revise ==> r.currentRevision > 0)
  {
    hide ArtifactKey;
    assert RequestOk(w, r.id);
    assert Bound(w, r.id) == r.currentRevision;
  }

  lemma DecideLegal(w: World, r: Request, action: OwnerAction, now: int, oracle: ActOracle)
    requires Inv(w) && r.id in w.repo.requests && w.repo.requests[r.id] == r
    ensures LegalRun(w, DecidePlan(LatestContent(w.repo, r.id), r, action, now, oracle).ops)
  {
    hide GeneratePlan, CorrectPlan, KeySafe, Inv, NoArtifacts, Legal;
    var latest := LatestContent(w.repo, r.id);
    var next := NextState(r.state, TriggerFor(action.decision));
    if next.Some? {
      OwnerSaveLegal(w, r, action.decision, now);
      var moved := r.(state := next.value, updatedAt := now);
      var w1 := Apply(w, SaveRequest(moved));
      var rest: seq<Op>;
      match action.decision {
        case Confirm =>
          rest := GeneratePlan(moved, now, None, None, oracle).ops;
          GenerateLegal(w1, moved, now, None, None, oracle);
        case Revise =>
          rest := GeneratePlan(moved, now, action.feedback, latest, oracle).ops;
          GenerateLegal(w1, moved, now, action.feedback, latest, oracle);
        case Correct =>
          rest := CorrectPlan(moved.(intent := action.intent), oracle).ops;
          CorrectLegal(w1, moved.(intent := action.intent), oracle);
        case _ =>
          rest := [];
      }
      LegalDo(w, SaveRequest(moved), rest);
    }
  }

  lemma ActLegal(w: World, action: OwnerAction, now: int, oracle: ActOracle)
    requires Inv(w)
    ensures LegalRun(w, ActPlan(w.repo, action, now, oracle).ops)
  {
    hide DecidePlan;
    var id := action.requestId;
    if id in w.repo.requests && action.actionId !in w.repo.interactions {
      assert RequestOk(w, id);
      var record := Record(Interaction(action.actionId, id, action.gate, action.decision));
      var w1 := Apply(w, record);
      LegalKeeps(w, record);
      assert LatestContent(w1.repo, id) == LatestContent(w.repo, id);
      DecideLegal(w1, w.repo.requests[id], action, now, oracle);
      LegalDo(w, record, DecidePlan(LatestContent(w.repo, id), w.repo.requests[id], action, now, oracle).ops);
    }
  }

  // ---- runs ----

  /** What the environment owes: a fresh, key-safe id per batch, and each message's media stored once. */
  ghost predicate Admissible(w: World, e: Event) {
    match e
    case Ingest(agg, _, _, _, _) => agg.requestId !in w.repo.requests && KeySafe(agg.requestId)
    case Act(_, _, _) => true
    case StoreInbound(id, _) => InboundKey(id) !in w.store
  }

  ghost predicate AdmissibleRun(cfg: Config, w: World, es: seq<Event>)
    decreases |es|
  {
    es == [] || (Admissible(w, es[0]) && AdmissibleRun(cfg, Exec(w, PlanOf(cfg, w, es[0])), es[1..]))
  }

  lemma EventLegal(cfg: Config, w: World, e: Event)
    requires Inv(w) && Admissible(w, e)
    ensures LegalRun(w, PlanOf(cfg, w, e))
  {
    hide Inv, IngestPlan, ActPlan;
    match e
    case Ingest(agg, name, now, flags, oracle) => IngestLegal(w, cfg, agg, name, now, flags, oracle);
    case Act(action, now, oracle) => ActLegal(w, action, now, oracle);
    case StoreInbound(id, data) => LegalDo(w, PutObject(InboundKey(id), data), []);
  }

  lemma {:induction false} LegalRunKeeps(w: World, ops: seq<Op>, k: nat)
    requires Inv(w) && LegalRun(w, ops) && k <= |ops|
    ensures Inv(Exec(w, ops[..k]))
    decreases k
  {
    hide Inv, Legal;
    if k > 0 {
      LegalKeeps(w, ops[0]);
      LegalRunKeeps(Apply(w, ops[0]), ops[1..], k - 1);
      assert ops[..k][1..] == ops[1..][..k - 1];
    }
  }

  /** Every run is a run of legal effects. */
  lemma {:induction false} RunLegal(cfg: Config, w: World, es: seq<Event>)
    requires Inv(w) && AdmissibleRun(cfg, w, es)
    ensures LegalRun(w, LogOf(cfg, w, es))
    decreases |es|
  {
    hide Inv, Admissible, PlanOf;
    if es != [] {
      var ops := PlanOf(cfg, w, es[0]);
      EventLegal(cfg, w, es[0]);
      LegalRunKeeps(w, ops, |ops|);
      assert ops[..|ops|] == ops;
      RunLegal(cfg, Exec(w, ops), es[1..]);
      LegalConcat(w, ops, LogOf(cfg, Exec(w, ops), es[1..]));
    }
  }

  /** The invariant holds after every single write of every run, whatever fails. */
  lemma InvariantAtEveryWrite(cfg: Config, es: seq<Event>, k: nat)
    requires AdmissibleRun(cfg, START, es) && k <= |LogOf(cfg, START, es)|
    ensures Inv(Exec(START, LogOf(cfg, START, es)[..k]))
  {
    RunLegal(cfg, START, es);
    LegalRunKeeps(START, LogOf(cfg, START, es), k);
  }

  /** In particular each request's revisions are 1..n, and n runs ahead only in GENERATING. */
  lemma RevisionsNumberedAtEveryWrite(cfg: Config, es: seq<Event>, k: nat, id: string)
    requires AdmissibleRun(cfg, START, es) && k <= |LogOf(cfg, START, es)|
    requires id in Exec(START, LogOf(cfg, START, es)[..k]).repo.requests
    ensures var repo := Exec(START, LogOf(cfg, START, es)[..k]).repo;
            var r, revs := repo.requests[id], RevisionsOf(repo, id);
            && (forall j | 0 <= j < |revs| :: revs[j].revisionNo == j + 1)
            && (|revs| == r.currentRevision || (|revs| == r.currentRevision + 1 && r.state == Generating))
  {
    InvariantAtEveryWrite(cfg, es, k);
    assert RequestOk(Exec(START, LogOf(cfg, START, es)[..k]), id);
  }

  lemma {:induction false} LegalAt(w: World, ops: seq<Op>, i: nat)
    requires LegalRun(w, ops) && i < |ops|
    ensures Legal(Exec(w, ops[..i]), ops[i])
    decreases i
  {
    hide Legal;
    if i > 0 {
      LegalAt(Apply(w, ops[0]), ops[1..], i - 1);
      assert ops[..i][0] == ops[0] && ops[..i][1..] == ops[1..][..i - 1];
    }
  }

  /** Each effect of each run is legal where it happens: saves follow the table, a revision is added and
      the model asked only while GENERATING (with the latest content to improve on), puts use new keys. */
  lemma EveryEffectLegal(cfg: Config, es: seq<Event>, i: nat)
    requires AdmissibleRun(cfg, START, es) && i < |LogOf(cfg, START, es)|
    ensures Legal(Exec(START, LogOf(cfg, START, es)[..i]), LogOf(cfg, START, es)[i])
  {
    RunLegal(cfg, START, es);
    LegalAt(START, LogOf(cfg, START, es), i);
  }

  /** Every document the owner was ever sent is stored, byte for byte, under its revision's keys. */
  lemma DeliveriesFaithful(cfg: Config, es: seq<Event>, s: Sent)
    requires AdmissibleRun(cfg, START, es) && s in After(cfg, START, es).outbox
    ensures Faithful(After(cfg, START, es), s)
  {
    var log := LogOf(cfg, START, es);
    InvariantAtEveryWrite(cfg, es, |log|);
    assert log[..|log|] == log;
  }

  // ---- write-once storage ----

  lemma {:induction false} StoreKeeps(w: World, ops: seq<Op>, key: string)
    requires LegalRun(w, ops) && key in w.store
    ensures key in Exec(w, ops).store && Exec(w, ops).store[key] == w.store[key]
    decreases |ops|
  {
    if ops != [] {
      StoreKeeps(Apply(w, ops[0]), ops[1..], key);
    }
  }

  lemma {:induction false} PutIsKept(w: World, ops: seq<Op>, i: nat)
    requires LegalRun(w, ops) && i < |ops| && ops[i].PutObject?
    ensures var store := Exec(w, ops).store;
            && ops[i].key in store && store[ops[i].key] == ops[i].data
            && (forall j | 0 <= j < |ops| && j != i && ops[j].PutObject? :: ops[j].key != ops[i].key)
    decreases i
  {
    var w1, rest := Apply(w, ops[0]), ops[1..];
    if i > 0 {
      PutIsKept(w1, rest, i - 1);
      forall j | 0 <= j < |ops| && j != i && ops[j].PutObject? ensures ops[j].key != ops[i].key {
        if j > 0 {
          assert ops[j] == rest[j - 1];
        } else {
          PutLater(w1, rest, ops[0].key);
        }
      }
    } else {
      StoreKeeps(w1, rest, ops[0].key);
      PutLater(w1, rest, ops[0].key);
      assert forall j | 0 < j < |ops| :: ops[j] == rest[j - 1];
    }
  }

  lemma {:induction false} PutLater(w: World, ops: seq<Op>, key: string)
    requires LegalRun(w, ops) && key in w.store
    ensures forall op | op in ops && op.PutObject? :: op.key != key
    decreases |ops|
  {
    if ops != [] {
      PutLater(Apply(w, ops[0]), ops[1..], key);
      assert ops == [ops[0]] + ops[1..];
    }
  }

  /** No two puts of a run share a key, and at the end every key still holds the bytes it was given. */
  lemma StorageWriteOnce(cfg: Config, es: seq<Event>)
    requires AdmissibleRun(cfg, START, es)
    ensures WriteOnce(LogOf(cfg, START, es), After(cfg, START, es).store)
  {
    hide Legal, LogOf, AdmissibleRun;
    var log := LogOf(cfg, START, es);
    RunLegal(cfg, START, es);
    forall i | 0 <= i < |log| && log[i].PutObject?
      ensures log[i].key in Exec(START, log).store && Exec(START, log).store[log[i].key] == log[i].data
      ensures forall j | 0 <= j < |log| && j != i && log[j].PutObject? :: log[j].key != log[i].key
    {
      PutIsKept(START, log, i);
    }
  }

  ghost predicate WriteOnce(log: seq<Op>, store: map<string, Bytes>) {
    forall i | 0 <= i < |log| && log[i].PutObject? ::
      && log[i].key in store && store[log[i].key] == log[i].data
      && (forall j | 0 <= j < |log| && j != i && log[j].PutObject? :: log[j].key != log[i].key)
  }
}
