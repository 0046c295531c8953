/**
 The request lifecycle as plans: what each entry point writes, stores, asks and sends, in order, and
 what it returns.  The outcomes of foreign calls (model, renderer, storage, channels) are oracles.
 */
module Lifecycle {
  import opened Wrappers
  import opened Domain
  import opened StateMachine
  import opened StorageKeys

  // ---- the world a call acts on ----

  datatype Repo = Repo(
    requests: map<string, Request>,
    messages: map<string, seq<Message>>,
    revisions: map<string, seq<Revision>>,
    interactions: map<string, Interaction>)

  /** What the owner is sent: a classification prompt, or a document with its two attachments. */
  datatype Sent =
    | Prompt(requestId: string, intent: Intent)
    | Delivery(requestId: string, revisionNo: nat, pdf: Bytes, docx: Bytes)

  datatype World = World(repo: Repo, store: map<string, Bytes>, outbox: seq<Sent>)

  const START := World(Repo(map[], map[], map[], map[]), map[], [])

  function RevisionsOf(repo: Repo, id: string): seq<Revision> {
    if id in repo.revisions then repo.revisions[id] else []
  }

  /** One atomic effect.  `AskModel` changes nothing; it is logged because its inputs matter. */
  datatype Op =
    | SaveRequest(request: Request)
    | SetMessages(id: string, messages: seq<Message>)
    | AddRevision(revision: Revision)
    | Record(interaction: Interaction)
    | PutObject(key: string, data: Bytes)
    | Send(sent: Sent)
    | AskModel(requestId: string, revisionNo: nat, intent: Intent, feedback: Option<string>, previous: Option<Content>)

  function Apply(w: World, op: Op): World {
    var repo := w.repo;
    match op
    case SaveRequest(r) => w.(repo := repo.(requests := repo.requests[r.id := r]))
    case SetMessages(id, ms) => w.(repo := repo.(messages := repo.messages[id := ms]))
    case AddRevision(v) =>
      w.(repo := repo.(revisions := repo.revisions[v.requestId := RevisionsOf(repo, v.requestId) + [v]]))
    case Record(i) => w.(repo := repo.(interactions := repo.interactions[i.id := i]))
    case PutObject(key, data) => w.(store := w.store[key := data])
    case Send(s) => w.(outbox := w.outbox + [s])
    case AskModel(_, _, _, _, _) => w
  }

  function Exec(w: World, ops: seq<Op>): World
    decreases |ops|
  {
    if ops == [] then w else Exec(Apply(w, ops[0]), ops[1..])
  }

  // ---- outcomes ----

  datatype Error =
    | UnknownRequest
    | IllegalTransition(state: RequestState, trigger: Trigger)
    | ClassificationFailed
    | NoPromptForIntent
    | GenerationFailed
    | RenderFailed
    | StorageFailed
    | InvalidNotification
    | SendFailed

  datatype Plan = Plan(ops: seq<Op>, result: Result<Request, Error>)

  function Do(op: Op, rest: Plan): Plan {
    Plan([op] + rest.ops, rest.result)
  }

  function Return(r: Request): Plan {
    Plan([], Success(r))
  }

  function Raise(e: Error): Plan {
    Plan([], Failure(e))
  }

  datatype Config = Config(threshold: real, notifyOnNone: bool)

  /** The transcript that was built, the classifier's answer (`None`: it raised), whether sending works. */
  datatype IngestOracle = IngestOracle(transcript: string, classified: Option<(Intent, real)>, sends: bool)

  /** The generated body (`None`: every attempt failed), the two rendered files (`None`: rendering raised),
      and whether each put and the delivery succeed. */
  datatype ActOracle = ActOracle(
    generated: Option<string>,
    rendered: Option<(Bytes, Bytes)>,
    storesPdf: bool,
    storesDocx: bool,
    sends: bool)

  const LOW_CONFIDENCE_FLAG := "low_confidence"

  // ---- ingest ----

  function NewRequest(agg: AggregatedRequest, clientName: string, now: int): Request {
    Request(agg.requestId, agg.clientId, clientName, RequestState.Received, Some(NoIntent), None, now, now, None, 0, [])
  }

  function IngestPlan(cfg: Config, agg: AggregatedRequest, clientName: string, now: int,
                      extraFlags: seq<string>, oracle: IngestOracle): Plan
  {
    var r := NewRequest(agg, clientName, now);
    var processed := r.(state := Classifying, transcript := Some(oracle.transcript));
    Do(SaveRequest(r),
    Do(SetMessages(r.id, agg.messages),
    Do(SaveRequest(r.(state := Aggregating)),
    Do(SaveRequest(r.(state := ProcessingMedia)),
    Do(SaveRequest(processed), ClassifyPlan(cfg, processed, extraFlags, oracle))))))
  }

  function ClassifyPlan(cfg: Config, r: Request, extraFlags: seq<string>, oracle: IngestOracle): Plan {
    if oracle.classified.None? then Raise(ClassificationFailed) else
      var (intent, confidence) := oracle.classified.value;
      var flags := extraFlags + if confidence < cfg.threshold then [LOW_CONFIDENCE_FLAG] else [];
      var classified := r.(intent := Some(intent), confidence := Some(confidence), flags := flags);
      if intent == NoIntent then
        var discarded := classified.(state := Discarded);
        Do(SaveRequest(discarded),
           if cfg.notifyOnNone then NotifyPlan(discarded, intent, oracle.sends) else Return(discarded))
      else
        var awaiting := classified.(state := AwaitingClassification);
        Do(SaveRequest(awaiting), NotifyPlan(awaiting, intent, oracle.sends))
  }

  function NotifyPlan(r: Request, intent: Intent, sends: bool): Plan {
    if sends then Do(Send(Prompt(r.id, intent)), Return(r)) else Raise(SendFailed)
  }

  // ---- owner actions ----

  function ActPlan(repo: Repo, action: OwnerAction, now: int, oracle: ActOracle): Plan {
    if action.requestId !in repo.requests then Raise(UnknownRequest) else
      var r := repo.requests[action.requestId];
      if action.actionId in repo.interactions then Return(r) else
        Do(Record(Interaction(action.actionId, action.requestId, action.gate, action.decision)),
           DecidePlan(LatestContent(repo, r.id), r, action, now, oracle))
  }

  function DecidePlan(latest: Option<Content>, r: Request, action: OwnerAction, now: int, oracle: ActOracle): Plan {
    var trigger := TriggerFor(action.decision);
    var next := NextState(r.state, trigger);
    if next.None? then Raise(IllegalTransition(r.state, trigger)) else
      var moved := r.(state := next.value, updatedAt := now);
      Do(SaveRequest(moved),
        match action.decision
        case Confirm => GeneratePlan(moved, now, None, None, oracle)
        case Correct => CorrectPlan(moved.(intent := action.intent), oracle)
        case Revise => GeneratePlan(moved, now, action.feedback, latest, oracle)
        case _ => Return(moved))
  }

  function CorrectPlan(r: Request, oracle: ActOracle): Plan {
    Do(SaveRequest(r), if r.intent.None? then Raise(InvalidNotification) else NotifyPlan(r, r.intent.value, oracle.sends))
  }

  function LatestContent(repo: Repo, id: string): Option<Content> {
    var revs := RevisionsOf(repo, id);
    if revs == [] then None else Some(revs[|revs| - 1].content)
  }

  predicate HasPrompt(intent: Option<Intent>) {
    intent == Some(Quote) || intent == Some(ExecutionPlan)
  }

  /** Ask the model, render, store both files, add the revision, move on twice, deliver. */
  function GeneratePlan(r: Request, now: int, feedback: Option<string>, previous: Option<Content>, oracle: ActOracle): Plan {
    var n := r.currentRevision + 1;
    if !HasPrompt(r.intent) then Raise(NoPromptForIntent) else
      Do(AskModel(r.id, n, r.intent.value, feedback, previous),
        if oracle.generated.None? then
          Do(SaveRequest(r.(state := Failed, updatedAt := now)), Raise(GenerationFailed))
        else if oracle.rendered.None? then
          Raise(RenderFailed)
        else
          StorePlan(r, now, Content(r.intent.value, oracle.generated.value), feedback, oracle.rendered.value, oracle))
  }

  function StorePlan(r: Request, now: int, content: Content, feedback: Option<string>, files: (Bytes, Bytes), oracle: ActOracle): Plan {
    var n := r.currentRevision + 1;
    var pdfKey, docxKey := ArtifactKey(r.id, n, content.schema, Pdf), ArtifactKey(r.id, n, content.schema, Docx);
    if !oracle.storesPdf then Raise(StorageFailed) else
      Do(PutObject(pdfKey, files.0),
        if !oracle.storesDocx then Raise(StorageFailed) else
          Do(PutObject(docxKey, files.1),
          Do(AddRevision(Revision(r.id, n, content, feedback, Reference(pdfKey), Reference(docxKey), now)),
             DeliverPlan(r, now, files, oracle.sends))))
  }

  function DeliverPlan(r: Request, now: int, files: (Bytes, Bytes), sends: bool): Plan {
    var n := r.currentRevision + 1;
    var rendering := r.(state := Rendering, currentRevision := n, updatedAt := now);
    var awaiting := rendering.(state := AwaitingApproval);
    Do(SaveRequest(rendering),
    Do(SaveRequest(awaiting),
       if sends then Do(Send(Delivery(r.id, n, files.0, files.1)), Return(awaiting)) else Raise(SendFailed)))
  }

  // ---- runs ----

  /** A call: an aggregated batch, an owner's click, or received media stored for a message. */
  datatype Event =
    | Ingest(agg: AggregatedRequest, clientName: string, now: int, flags: seq<string>, ingestOracle: IngestOracle)
    | Act(action: OwnerAction, now: int, actOracle: ActOracle)
    | StoreInbound(messageId: string, data: Bytes)

  function PlanOf(cfg: Config, w: World, e: Event): seq<Op> {
    match e
    case Ingest(agg, name, now, flags, oracle) => IngestPlan(cfg, agg, name, now, flags, oracle).ops
    case Act(action, now, oracle) => ActPlan(w.repo, action, now, oracle).ops
    case StoreInbound(id, data) => [PutObject(InboundKey(id), data)]
  }

  /** Every effect of a run, in order. */
  function LogOf(cfg: Config, w: World, es: seq<Event>): seq<Op>
    decreases |es|
  {
    if es == [] then [] else
      var ops := PlanOf(cfg, w, es[0]);
      ops + LogOf(cfg, Exec(w, ops), es[1..])
  }

  function After(cfg: Config, w: World, es: seq<Event>): World {
    Exec(w, LogOf(cfg, w, es))
  }

  // ---- executing plans ----

  lemma {:induction false} ExecConcat(w: World, a: seq<Op>, b: seq<Op>)
    ensures Exec(w, a + b) == Exec(Exec(w, a), b)
    decreases |a|
  {
    if a == [] {
      assert a + b == b;
    } else {
      assert (a + b)[0] == a[0] && (a + b)[1..] == a[1..] + b;
      ExecConcat(Apply(w, a[0]), a[1..], b);
    }
  }

  lemma {:induction false} LogConcat(cfg: Config, w: World, a: seq<Event>, b: seq<Event>)
    ensures LogOf(cfg, w, a + b) == LogOf(cfg, w, a) + LogOf(cfg, After(cfg, w, a), b)
    decreases |a|
  {
    hide PlanOf;
    if a == [] {
      assert a + b == b;
    } else {
      var ops := PlanOf(cfg, w, a[0]);
      assert (a + b)[0] == a[0] && (a + b)[1..] == a[1..] + b;
      LogConcat(cfg, Exec(w, ops), a[1..], b);
      ExecConcat(w, ops, LogOf(cfg, Exec(w, ops), a[1..]));
    }
  }
}
