/** What a call asks the model, what it stores and records, and what it returns. */
module LifecycleQuestions {
  import opened Wrappers
  import opened Domain
  import opened StateMachine
  import opened Lifecycle
  import opened LifecycleSafety
  import opened LifecycleRuns
  import opened LifecycleOutcomes
  import opened LifecycleReplay
  import opened StorageKeys

  // ---- questions to the model ----

  function QuestionsOf(ops: seq<Op>): seq<Op> {
    if ops == [] then [] else (if ops[0].AskModel? then [ops[0]] else []) + QuestionsOf(ops[1..])
  }

  lemma QuestionsDo(op: Op, rest: seq<Op>)
    ensures QuestionsOf([op] + rest) == (if op.AskModel? then [op] else []) + QuestionsOf(rest)
  {
    assert ([op] + rest)[1..] == rest;
  }

  lemma {:induction false} NoQuestions(ops: seq<Op>)
    requires forall op | op in ops :: !op.AskModel?
    ensures QuestionsOf(ops) == []
  {
    if ops != [] {
      assert ops[0] in ops;
      NoQuestions(ops[1..]);
    }
  }

  predicate NamesDocument(intent: Option<Intent>) {
    intent.Some? && intent.value in {Quote, ExecutionPlan}
  }

  lemma StoreAsksNothing(r: Request, now: int, content: Content, feedback: Option<string>, files: (Bytes, Bytes), oracle: ActOracle)
    ensures QuestionsOf(StorePlan(r, now, content, feedback, files, oracle).ops) == []
  {
    NoQuestions(StorePlan(r, now, content, feedback, files, oracle).ops);
  }

  lemma GenerateAsks(r: Request, now: int, feedback: Option<string>, previous: Option<Content>, oracle: ActOracle)
    ensures QuestionsOf(GeneratePlan(r, now, feedback, previous, oracle).ops) ==
            if NamesDocument(r.intent) then [AskModel(r.id, r.currentRevision + 1, r.intent.value, feedback, previous)] else []
  {
    hide StorePlan;
    var ops := GeneratePlan(r, now, feedback, previous, oracle).ops;
    if NamesDocument(r.intent) {
      assert ops == [ops[0]] + ops[1..];
      QuestionsDo(ops[0], ops[1..]);
      if oracle.generated.Some? && oracle.rendered.Some? {
        var content := Content(r.intent.value, oracle.generated.value);
        StoreAsksNothing(r, now, content, feedback, oracle.rendered.value, oracle);
        assert ops[1..] == StorePlan(r, now, content, feedback, oracle.rendered.value, oracle).ops;
      } else {
        NoQuestions(ops[1..]);
      }
    }
  }

  /** The question an applied decision puts to the model: a confirmation asks afresh, a revision asks to
      improve on `last` as the owner's feedback says, and nothing else asks. */
  function Questions(r: Request, last: Option<Content>, action: OwnerAction): seq<Op> {
    if !NamesDocument(r.intent) then [] else
      match action.decision
      case Confirm => [AskModel(r.id, r.currentRevision + 1, r.intent.value, None, None)]
      case Revise => [AskModel(r.id, r.currentRevision + 1, r.intent.value, action.feedback, last)]
      case _ => []
  }

  lemma DecideAsks(latest: Option<Content>, r: Request, action: OwnerAction, now: int, oracle: ActOracle)
    ensures QuestionsOf(DecidePlan(latest, r, action, now, oracle).ops) ==
            if NextState(r.state, TriggerFor(action.decision)).Some? then Questions(r, latest, action) else []
  {
    hide GeneratePlan;
    var next := NextState(r.state, TriggerFor(action.decision));
    if next.Some? {
      var moved := r.(state := next.value, updatedAt := now);
      var ops := DecidePlan(latest, r, action, now, oracle).ops;
      assert ops == [ops[0]] + ops[1..];
      QuestionsDo(ops[0], ops[1..]);
      match action.decision {
        case Confirm =>
          GenerateAsks(moved, now, None, None, oracle);
          assert ops[1..] == GeneratePlan(moved, now, None, None, oracle).ops;
        case Revise =>
          GenerateAsks(moved, now, action.feedback, latest, oracle);
          assert ops[1..] == GeneratePlan(moved, now, action.feedback, latest, oracle).ops;
        case _ =>
          NoQuestions(ops[1..]);
      }
    }
  }

  /** The content of the last of some revisions. */
  function LastContent(revs: seq<Revision>): Option<Content> {
    if |revs| == 0 then None else Some(revs[|revs| - 1].content)
  }

  /**
   A click asks the model exactly when it is applied, confirms or revises, and its request's intent names
   a document; then once: for the next revision of the stored intent, without feedback or content to
   improve on when confirming, with the owner's feedback and the last revision's content when revising.
   */
  lemma ActAsks(w: World, action: OwnerAction, now: int, oracle: ActOracle)
    requires Inv(w)
    ensures var id := action.requestId;
            QuestionsOf(ActPlan(w.repo, action, now, oracle).ops) ==
            if Applies(w, action) then Questions(w.repo.requests[id], LastContent(RevisionsOf(w.repo, id)), action) else []
  {
    hide DecidePlan, Questions, Inv;
    var id := action.requestId;
    if id in w.repo.requests && action.actionId !in w.repo.interactions {
      var r := w.repo.requests[id];
      IdIsKey(w, id);
      var latest := LatestContent(w.repo, id);
      var rest := DecidePlan(latest, r, action, now, oracle).ops;
      var ops := ActPlan(w.repo, action, now, oracle).ops;
      assert ops == [ops[0]] + rest;
      QuestionsDo(ops[0], rest);
      DecideAsks(latest, r, action, now, oracle);
    }
  }

  /** No other call asks anything. */
  lemma OnlyActsAsk(cfg: Config, w: World, e: Event)
    requires !e.Act?
    ensures QuestionsOf(PlanOf(cfg, w, e)) == []
  {
    NoQuestions(PlanOf(cfg, w, e));
  }

  /** A revision that a click adds answers the one question that the click asked: it has the asked number,
      the schema of the asked intent, the generated body and the feedback asked with. */
  ghost predicate Answers(v: Revision, q: Op, oracle: ActOracle) {
    && q.AskModel? && v.requestId == q.requestId && v.revisionNo == q.revisionNo && v.feedback == q.feedback
    && v.content.schema == q.intent && oracle.generated == Some(v.content.body)
  }

  lemma RevisionsAnswerQuestions(w: World, action: OwnerAction, now: int, oracle: ActOracle)
    requires Inv(w)
    ensures var ops := ActPlan(w.repo, action, now, oracle).ops;
            var before, after := RevisionsOf(w.repo, action.requestId), RevisionsOf(Exec(w, ops).repo, action.requestId);
            after == before ||
            (exists v, q :: after == before + [v] && QuestionsOf(ops) == [q] && Answers(v, q, oracle))
  {
    hide Inv, ActPlan;
    var id, ops := action.requestId, ActPlan(w.repo, action, now, oracle).ops;
    var before, after := RevisionsOf(w.repo, id), RevisionsOf(Exec(w, ops).repo, id);
    ActAsks(w, action, now, oracle);
    ActOutcome(w, action, now, oracle);
    assert before + [] == before;
    if after != before {
      IdIsKey(w, id);
      var v, q := after[|before|], QuestionsOf(ops)[0];
      assert after == before + [v] && QuestionsOf(ops) == [q] && Answers(v, q, oracle);
    }
  }

  // ---- what a click stores and records ----

  function PutsOf(ops: seq<Op>): seq<Op> {
    if ops == [] then [] else (if ops[0].PutObject? then [ops[0]] else []) + PutsOf(ops[1..])
  }

  lemma PutsDo(op: Op, rest: seq<Op>)
    ensures PutsOf([op] + rest) == (if op.PutObject? then [op] else []) + PutsOf(rest)
  {
    assert ([op] + rest)[1..] == rest;
  }

  lemma {:induction false} NoPuts(ops: seq<Op>)
    requires forall op | op in ops :: !op.PutObject?
    ensures PutsOf(ops) == []
  {
    if ops != [] {
      assert ops[0] in ops;
      NoPuts(ops[1..]);
    }
  }

  /** The files a generation stores: the PDF first, and the DOCX only if that worked. */
  function Files(r: Request, oracle: ActOracle): seq<Op> {
    if !NamesDocument(r.intent) || oracle.generated == None || oracle.rendered == None || !oracle.storesPdf then [] else
      var n, (pdf, docx) := r.currentRevision + 1, oracle.rendered.value;
      [PutObject(ArtifactKey(r.id, n, r.intent.value, Pdf), pdf)]
      + if oracle.storesDocx then [PutObject(ArtifactKey(r.id, n, r.intent.value, Docx), docx)] else []
  }

  lemma DeliverPuts(r: Request, now: int, files: (Bytes, Bytes), sends: bool)
    ensures PutsOf(DeliverPlan(r, now, files, sends).ops) == []
  {
    NoPuts(DeliverPlan(r, now, files, sends).ops);
  }

  lemma GeneratePuts(r: Request, now: int, feedback: Option<string>, previous: Option<Content>, oracle: ActOracle)
    ensures PutsOf(GeneratePlan(r, now, feedback, previous, oracle).ops) == Files(r, oracle)
  {
    hide DeliverPlan, ArtifactKey;
    var ops := GeneratePlan(r, now, feedback, previous, oracle).ops;
    if ops != [] {
      assert ops == [ops[0]] + ops[1..];
      PutsDo(ops[0], ops[1..]);
      if oracle.generated.None? || oracle.rendered.None? || !oracle.storesPdf {
        NoPuts(ops[1..]);
      } else {
        assert ops[1..] == [ops[1]] + ops[2..];
        PutsDo(ops[1], ops[2..]);
        if oracle.storesDocx {
          DeliverPuts(r, now, oracle.rendered.value, oracle.sends);
          assert ops[2..] == [ops[2]] + ([ops[3]] + ops[4..]);
          assert ops[4..] == DeliverPlan(r, now, oracle.rendered.value, oracle.sends).ops;
          PutsDo(ops[2], [ops[3]] + ops[4..]);
          PutsDo(ops[3], ops[4..]);
        } else {
          assert ops[2..] == [];
        }
      }
    }
  }

  lemma DecidePuts(latest: Option<Content>, r: Request, action: OwnerAction, now: int, oracle: ActOracle)
    ensures PutsOf(DecidePlan(latest, r, action, now, oracle).ops) ==
            if NextState(r.state, TriggerFor(action.decision)).Some? && action.decision in {Confirm, Revise} then Files(r, oracle) else []
  {
    hide GeneratePlan, ArtifactKey;
    var next := NextState(r.state, TriggerFor(action.decision));
    if next.Some? {
      var moved := r.(state := next.value, updatedAt := now);
      var ops := DecidePlan(latest, r, action, now, oracle).ops;
      assert ops == [ops[0]] + ops[1..];
      PutsDo(ops[0], ops[1..]);
      match action.decision {
        case Confirm =>
          GeneratePuts(moved, now, None, None, oracle);
          assert ops[1..] == GeneratePlan(moved, now, None, None, oracle).ops;
        case Revise =>
          GeneratePuts(moved, now, action.feedback, latest, oracle);
          assert ops[1..] == GeneratePlan(moved, now, action.feedback, latest, oracle).ops;
        case _ =>
          NoPuts(ops[1..]);
      }
    }
  }

  /** A click stores files exactly when it is applied and confirms or revises: those of the next revision,
      as rendered, under their own keys. */
  lemma ActStores(w: World, action: OwnerAction, now: int, oracle: ActOracle)
    requires Inv(w)
    ensures PutsOf(ActPlan(w.repo, action, now, oracle).ops) ==
            if Applies(w, action) && action.decision in {Confirm, Revise}
            then Files(w.repo.requests[action.requestId], oracle) else []
  {
    hide DecidePlan, Files, Inv;
    var id := action.requestId;
    if id in w.repo.requests && action.actionId !in w.repo.interactions {
      IdIsKey(w, id);
      var r, latest := w.repo.requests[id], LatestContent(w.repo, id);
      var rest, ops := DecidePlan(latest, r, action, now, oracle).ops, ActPlan(w.repo, action, now, oracle).ops;
      assert ops == [ops[0]] + rest;
      PutsDo(ops[0], rest);
      DecidePuts(latest, r, action, now, oracle);
    }
  }

  /** The first click with an id on a known request is recorded as it was made, before anything else; no
      other click is recorded. */
  lemma ClickRecorded(w: World, action: OwnerAction, now: int, oracle: ActOracle)
    ensures var ops := ActPlan(w.repo, action, now, oracle).ops;
            if action.requestId in w.repo.requests && action.actionId !in w.repo.interactions then
              && ops != [] && ops[0] == Record(Interaction(action.actionId, action.requestId, action.gate, action.decision))
              && (forall op | op in ops[1..] :: !op.Record?)
            else ops == []
  {
    hide DecidePlan;
    if action.requestId in w.repo.requests {
      var r := w.repo.requests[action.requestId];
      DecideRecordsNothing(LatestContent(w.repo, r.id), r, action, now, oracle);
    }
  }

  // ---- what a click returns ----

  /** The first exception of a generation, in the order its steps are taken. */
  function GenerationError(intent: Option<Intent>, oracle: ActOracle): Option<Error> {
    if !NamesDocument(intent) then Some(NoPromptForIntent)
    else if oracle.generated == None then Some(GenerationFailed)
    else if oracle.rendered == None then Some(RenderFailed)
    else if !(oracle.storesPdf && oracle.storesDocx) then Some(StorageFailed)
    else if !oracle.sends then Some(SendFailed)
    else None
  }

  /** The exception a click raises, if it does. */
  function ActError(w: World, action: OwnerAction, oracle: ActOracle): Option<Error> {
    if action.requestId !in w.repo.requests then Some(UnknownRequest) else
      var r := w.repo.requests[action.requestId];
      if action.actionId in w.repo.interactions then None
      else if NextState(r.state, TriggerFor(action.decision)) == None then
        Some(IllegalTransition(r.state, TriggerFor(action.decision)))
      else
        match action.decision
        case Confirm => GenerationError(r.intent, oracle)
        case Revise => GenerationError(r.intent, oracle)
        case Correct =>
          if action.intent == None then Some(InvalidNotification) else if !oracle.sends then Some(SendFailed) else None
        case _ => None
  }

  lemma DecideReturns(w: World, latest: Option<Content>, r: Request, action: OwnerAction, now: int, oracle: ActOracle)
    requires Lookup(w.repo.requests, r.id) == Some(r) && r.id == action.requestId && action.actionId !in w.repo.interactions
    ensures var result, error := DecidePlan(latest, r, action, now, oracle).result, ActError(w, action, oracle);
            if error.Some? then result == Failure(error.value) else result == Success(Decided(r, action, now, oracle))
  {
    hide Exec;
  }

  /** A click raises exactly the first exception its steps meet; otherwise it returns the request as it is
      then stored: unchanged for a replay. */
  lemma ActReturns(w: World, action: OwnerAction, now: int, oracle: ActOracle)
    requires Inv(w)
    ensures var plan := ActPlan(w.repo, action, now, oracle);
            var error, after := ActError(w, action, oracle), Exec(w, plan.ops).repo.requests;
            if error.Some? then plan.result == Failure(error.value)
            else action.requestId in after && plan.result == Success(after[action.requestId])
    ensures action.requestId in w.repo.requests && action.actionId in w.repo.interactions ==>
              ActPlan(w.repo, action, now, oracle) == Plan([], Success(w.repo.requests[action.requestId]))
  {
    hide Inv, DecidePlan, Decided;
    var id := action.requestId;
    ActEffect(w, action, now, oracle);
    if id in w.repo.requests && action.actionId !in w.repo.interactions {
      IdIsKey(w, id);
      DecideReturns(w, LatestContent(w.repo, id), w.repo.requests[id], action, now, oracle);
    }
  }

  lemma ClassifyReturns(w: World, cfg: Config, r: Request, flags: seq<string>, oracle: IngestOracle)
    ensures var plan := ClassifyPlan(cfg, r, flags, oracle);
            plan.result.Success? ==> Lookup(Exec(w, plan.ops).repo.requests, r.id) == Some(plan.result.value)
  {
    var plan := ClassifyPlan(cfg, r, flags, oracle);
    if plan.result.Success? {
      var save, rest := plan.ops[0], plan.ops[1..];
      assert plan.ops == [save] + rest && save == SaveRequest(plan.result.value) && plan.result.value.id == r.id;
      assert rest == [] || (rest == [rest[0]] + [] && rest[0].Send?);
      hide ClassifyPlan;
      ExecDo(w, save, rest);
      if rest != [] {
        ExecDo(Apply(w, save), rest[0], []);
      }
    }
  }

  /** Ingesting raises exactly when the classifier does or a wanted prompt cannot be sent; otherwise it
      returns the request as it is then stored. */
  lemma IngestReturns(w: World, cfg: Config, agg: AggregatedRequest, name: string, now: int, flags: seq<string>, oracle: IngestOracle)
    ensures var plan := IngestPlan(cfg, agg, name, now, flags, oracle);
            var wanted := oracle.classified.Some? && (oracle.classified.value.0 != NoIntent || cfg.notifyOnNone);
            if oracle.classified == None then plan.result == Failure(ClassificationFailed)
            else if wanted && !oracle.sends then plan.result == Failure(SendFailed)
            else
              && plan.result.Success?
              && Lookup(Exec(w, plan.ops).repo.requests, agg.requestId) == Some(plan.result.value)
  {
    var plan := IngestPlan(cfg, agg, name, now, flags, oracle);
    var r := NewRequest(agg, name, now).(state := Classifying, transcript := Some(oracle.transcript));
    var rest := ClassifyPlan(cfg, r, flags, oracle);
    var before := plan.ops[..5];
    assert plan.ops == before + rest.ops && plan.result == rest.result;
    ClassifyReturns(Exec(w, before), cfg, r, flags, oracle);
    hide Exec;
    ExecConcat(w, before, rest.ops);
  }
}
