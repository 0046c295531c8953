/** The orchestrator over a mutable repository, object store and outbox, proved against the plans. */
module Orchestrator {
  import opened Wrappers
  import opened Domain
  import opened StateMachine
  import opened StorageKeys
  import opened Lifecycle

  class InMemoryRequestRepository {
    var requests: map<string, Request>
    var messages: map<string, seq<Message>>
    var revisions: map<string, seq<Revision>>
    var interactions: map<string, Interaction>

    function Contents(): Repo
      reads this
    {
      Repo(requests, messages, revisions, interactions)
    }

    constructor ()
      ensures Contents() == START.repo
    {
      requests, messages, revisions, interactions := map[], map[], map[], map[];
    }

    method SaveRequest(request: Request)
      modifies this
      ensures Contents() == old(Contents()).(requests := old(requests)[request.id := request])
    {
      requests := requests[request.id := request];
    }

    method GetRequest(id: string) returns (request: Option<Request>)
      ensures request == if id in requests then Some(requests[id]) else None
    {
      request := if id in requests then Some(requests[id]) else None;
    }

    method SetMessages(id: string, ms: seq<Message>)
      modifies this
      ensures Contents() == old(Contents()).(messages := old(messages)[id := ms])
    {
      messages := messages[id := ms];
    }

    method AddRevision(revision: Revision)
      modifies this
      ensures var id := revision.requestId;
              Contents() == old(Contents()).(revisions := old(revisions)[id := RevisionsOf(old(Contents()), id) + [revision]])
    {
      var id := revision.requestId;
      if id !in revisions {
        revisions := revisions[id := []];
      }
      revisions := revisions[id := revisions[id] + [revision]];
    }

    method LatestRevision(id: string) returns (revision: Option<Revision>)
      ensures var revs := RevisionsOf(Contents(), id);
              revision == if revs == [] then None else Some(revs[|revs| - 1])
    {
      revision := if id in revisions && revisions[id] != [] then Some(revisions[id][|revisions[id]| - 1]) else None;
    }

    /** Records an interaction unless its id was seen; says whether it was recorded. */
    method RecordInteraction(interaction: Interaction) returns (recorded: bool)
      modifies this
      ensures recorded <==> interaction.id !in old(interactions)
      ensures Contents() == if recorded
                then old(Contents()).(interactions := old(interactions)[interaction.id := interaction])
                else old(Contents())
    {
      if interaction.id in interactions {
        return false;
      }
      interactions := interactions[interaction.id := interaction];
      return true;
    }
  }

  class ObjectStore {
    var blobs: map<string, Bytes>

    constructor ()
      ensures blobs == map[]
    {
      blobs := map[];
    }

    method Put(key: string, data: Bytes) returns (ref: string)
      modifies this
      ensures blobs == old(blobs)[key := data] && ref == Reference(key)
    {
      blobs := blobs[key := data];
      ref := Reference(key);
    }
  }

  class Outbox {
    var sent: seq<Sent>

    constructor ()
      ensures sent == []
    {
      sent := [];
    }

    method Send(message: Sent)
      modifies this
      ensures sent == old(sent) + [message]
    {
      sent := sent + [message];
    }
  }

  class Orchestrator {
    const config: Config
    const repo: InMemoryRequestRepository
    const storage: ObjectStore
    const outbox: Outbox
    ghost var log: seq<Op>    // every effect since the start, in order

    function Current(): World
      reads repo, storage, outbox
    {
      World(repo.Contents(), storage.blobs, outbox.sent)
    }

    /** The world is what the logged effects make of the empty one: nothing is written outside the log. */
    ghost predicate Valid()
      reads this, repo, storage, outbox
    {
      Current() == Exec(START, log)
    }

    constructor (config: Config)
      ensures Valid() && log == [] && this.config == config
      ensures fresh(repo) && fresh(storage) && fresh(outbox)
    {
      this.config := config;
      repo := new InMemoryRequestRepository();
      storage := new ObjectStore();
      outbox := new Outbox();
      log := [];
    }

    // ---- logged effects ----

    ghost method Log(op: Op)
      requires Exec(START, log + [op]) == Current()
      modifies this
      ensures Valid() && log == old(log) + [op]
    {
      log := log + [op];
    }

    method Save(request: Request)
      requires Valid()
      modifies this, repo
      ensures Valid() && log == old(log) + [SaveRequest(request)] && repo.revisions == old(repo.revisions)
    {
      ExecConcat(START, log, [SaveRequest(request)]);
      repo.SaveRequest(request);
      Log(SaveRequest(request));
    }

    method Store(key: string, data: Bytes, succeeds: bool) returns (ref: Result<string, Error>)
      requires Valid()
      modifies this, storage
      ensures Valid() && log == old(log) + if succeeds then [PutObject(key, data)] else []
      ensures ref == if succeeds then Success(Reference(key)) else Failure(StorageFailed)
    {
      if !succeeds {
        return Failure(StorageFailed);
      }
      ExecConcat(START, log, [PutObject(key, data)]);
      var r := storage.Put(key, data);
      Log(PutObject(key, data));
      return Success(r);
    }

    method Dispatch(message: Sent, succeeds: bool) returns (sent: Result<(), Error>)
      requires Valid()
      modifies this, outbox
      ensures Valid() && log == old(log) + if succeeds then [Send(message)] else []
      ensures sent == if succeeds then Success(()) else Failure(SendFailed)
    {
      if !succeeds {
        return Failure(SendFailed);
      }
      ExecConcat(START, log, [Send(message)]);
      outbox.Send(message);
      Log(Send(message));
      return Success(());
    }

    method SaveMessages(id: string, messages: seq<Message>)
      requires Valid()
      modifies this, repo
      ensures Valid() && log == old(log) + [SetMessages(id, messages)]
    {
      ExecConcat(START, log, [SetMessages(id, messages)]);
      repo.SetMessages(id, messages);
      Log(SetMessages(id, messages));
    }

    method SaveRevision(revision: Revision)
      requires Valid()
      modifies this, repo
      ensures Valid() && log == old(log) + [AddRevision(revision)]
    {
      ExecConcat(START, log, [AddRevision(revision)]);
      repo.AddRevision(revision);
      Log(AddRevision(revision));
    }

    method RecordClick(interaction: Interaction) returns (recorded: bool)
      requires Valid()
      modifies this, repo
      ensures recorded <==> interaction.id !in old(repo.interactions)
      ensures Valid() && log == old(log) + if recorded then [Record(interaction)] else []
      ensures repo.revisions == old(repo.revisions)
    {
      ExecConcat(START, log, [Record(interaction)]);
      recorded := repo.RecordInteraction(interaction);
      if recorded {
        Log(Record(interaction));
      }
    }

    ghost method Ask(question: Op)
      requires Valid() && question.AskModel?
      modifies this
      ensures Valid() && log == old(log) + [question]
    {
      ExecConcat(START, log, [question]);
      Log(question);
    }

    method Transition(request: Request, trigger: Trigger, now: int) returns (updated: Result<Request, Error>)
      requires Valid()
      modifies this, repo
      ensures Valid() && repo.revisions == old(repo.revisions)
      ensures match NextState(request.state, trigger)
              case None => updated == Failure(IllegalTransition(request.state, trigger)) && log == old(log)
              case Some(s) =>
                var moved := request.(state := s, updatedAt := now);
                updated == Success(moved) && log == old(log) + [SaveRequest(moved)]
    {
      var next := NextState(request.state, trigger);
      if next.None? {
        return Failure(IllegalTransition(request.state, trigger));
      }
      var moved := request.(state := next.value, updatedAt := now);
      Save(moved);
      return Success(moved);
    }

    /** A transition along an edge that exists never raises. */
    method Advance(request: Request, trigger: Trigger, now: int) returns (updated: Request)
      requires Valid() && NextState(request.state, trigger).Some?
      modifies this, repo
      ensures updated == request.(state := NextState(request.state, trigger).value, updatedAt := now)
      ensures Valid() && log == old(log) + [SaveRequest(updated)]
    {
      var step := Transition(request, trigger, now);
      updated := step.value;
    }

    // ---- entry points ----

    method Ingest(agg: AggregatedRequest, clientName: string, now: int, extraFlags: seq<string>, oracle: IngestOracle)
      returns (result: Result<Request, Error>)
      requires Valid()
      modifies this, repo, storage, outbox
      ensures var plan := IngestPlan(config, agg, clientName, now, extraFlags, oracle);
              && Valid() && log == old(log) + plan.ops && result == plan.result
              && Current() == Exec(old(Current()), plan.ops)
    {
      hide Exec, Apply, ClassifyPlan;
      var request := NewRequest(agg, clientName, now);
      Save(request);
      SaveMessages(request.id, agg.messages);
      request := Advance(request, StartAggregation, now);
      request := Advance(request, WindowClosed, now);
      request := request.(transcript := Some(oracle.transcript));
      request := Advance(request, MediaProcessed, now);
      result := Classify(request, now, extraFlags, oracle);
      ExecConcat(START, old(log), IngestPlan(config, agg, clientName, now, extraFlags, oracle).ops);
    }

    /** The second half of `ingest`: classify, then discard or prompt the owner. */
    method Classify(classifying: Request, now: int, extraFlags: seq<string>, oracle: IngestOracle)
      returns (result: Result<Request, Error>)
      requires Valid() && classifying.state == Classifying && classifying.updatedAt == now
      modifies this, repo, outbox
      ensures var plan := ClassifyPlan(config, classifying, extraFlags, oracle);
              Valid() && log == old(log) + plan.ops && result == plan.result
    {
      hide Exec, Apply;
      if oracle.classified.None? {
        return Failure(ClassificationFailed);
      }
      var (intent, confidence) := oracle.classified.value;
      var flags := extraFlags;
      assert extraFlags + [] == extraFlags;
      if confidence < config.threshold {
        flags := flags + [LOW_CONFIDENCE_FLAG];
      }
      var request := classifying.(intent := Some(intent), confidence := Some(confidence), flags := flags);

      if intent == NoIntent {
        request := Advance(request, ClassifiedNone, now);
        if config.notifyOnNone {
          var _ :- Dispatch(Prompt(request.id, intent), oracle.sends);
        }
        return Success(request);
      }
      request := Advance(request, ClassifiedActionable, now);
      var _ :- Dispatch(Prompt(request.id, intent), oracle.sends);
      return Success(request);
    }

    method ApplyOwnerAction(action: OwnerAction, now: int, oracle: ActOracle) returns (result: Result<Request, Error>)
      requires Valid()
      modifies this, repo, storage, outbox
      ensures var plan := ActPlan(old(Current()).repo, action, now, oracle);
              && Valid() && log == old(log) + plan.ops && result == plan.result
              && Current() == Exec(old(Current()), plan.ops)
    {
      hide Exec, Apply, DecidePlan;
      ExecConcat(START, log, ActPlan(Current().repo, action, now, oracle).ops);
      ExecConcat(START, log, []);
      assert log + [] == log;
      var found := repo.GetRequest(action.requestId);
      if found.None? {
        return Failure(UnknownRequest);
      }
      var request := found.value;
      var interaction := Interaction(action.actionId, action.requestId, action.gate, action.decision);
      var recorded := RecordClick(interaction);
      if !recorded {
        return Success(request);
      }
      result := Decide(request, action, now, oracle);
      assert log == old(log) + ActPlan(old(Current()).repo, action, now, oracle).ops;
    }

    /** The recorded part of `apply_owner_action`: take the transition, then do what it calls for. */
    method Decide(found: Request, action: OwnerAction, now: int, oracle: ActOracle) returns (result: Result<Request, Error>)
      requires Valid()
      modifies this, repo, storage, outbox
      ensures var plan := DecidePlan(LatestContent(old(Current()).repo, found.id), found, action, now, oracle);
              Valid() && log == old(log) + plan.ops && result == plan.result
    {
      hide Exec, Apply, GeneratePlan;
      var request :- Transition(found, TriggerFor(action.decision), now);
      match action.decision {
        case Confirm =>
          result := GenerateRenderDeliver(request, now, None, None, oracle);
        case Correct =>
          request := request.(intent := action.intent);
          Save(request);
          if request.intent.None? {
            return Failure(InvalidNotification);
          }
          var _ :- Dispatch(Prompt(request.id, request.intent.value), oracle.sends);
          return Success(request);
        case Revise =>
          var previous := repo.LatestRevision(request.id);
          var content := if previous.Some? then Some(previous.value.content) else None;
          result := GenerateRenderDeliver(request, now, action.feedback, content, oracle);
        case _ =>
          return Success(request);
      }
    }

    method GenerateRenderDeliver(request: Request, now: int, feedback: Option<string>, previous: Option<Content>,
                                 oracle: ActOracle)
      returns (result: Result<Request, Error>)
      requires Valid() && request.state == Generating
      modifies this, repo, storage, outbox
      ensures var plan := GeneratePlan(request, now, feedback, previous, oracle);
              Valid() && log == old(log) + plan.ops && result == plan.result
    {
      hide Exec, Apply, StorePlan;
      var revisionNo := request.currentRevision + 1;
      if !HasPrompt(request.intent) {
        return Failure(NoPromptForIntent);
      }
      Ask(AskModel(request.id, revisionNo, request.intent.value, feedback, previous));
      if oracle.generated.None? {
        var _ := Advance(request, Fail, now);
        return Failure(GenerationFailed);
      }
      if oracle.rendered.None? {
        return Failure(RenderFailed);
      }
      var content := Content(request.intent.value, oracle.generated.value);
      result := StoreAndDeliver(request, now, content, feedback, oracle.rendered.value, oracle);
    }

    /** Store both artifacts, add the revision, then move on and deliver. */
    method StoreAndDeliver(request: Request, now: int, content: Content, feedback: Option<string>,
                           files: (Bytes, Bytes), oracle: ActOracle)
      returns (result: Result<Request, Error>)
      requires Valid() && request.state == Generating
      modifies this, repo, storage, outbox
      ensures var plan := StorePlan(request, now, content, feedback, files, oracle);
              Valid() && log == old(log) + plan.ops && result == plan.result
    {
      hide Exec, Apply, ArtifactKey, DeliverPlan;
      var revisionNo := request.currentRevision + 1;
      var pdfRef :- Store(ArtifactKey(request.id, revisionNo, content.schema, Pdf), files.0, oracle.storesPdf);
      var docxRef :- Store(ArtifactKey(request.id, revisionNo, content.schema, Docx), files.1, oracle.storesDocx);
      SaveRevision(Revision(request.id, revisionNo, content, feedback, pdfRef, docxRef, now));
      result := Deliver(request, now, files, oracle.sends);
    }

    method Deliver(request: Request, now: int, files: (Bytes, Bytes), sends: bool)
      returns (result: Result<Request, Error>)
      requires Valid() && request.state == Generating
      modifies this, repo, outbox
      ensures var plan := DeliverPlan(request, now, files, sends);
              Valid() && log == old(log) + plan.ops && result == plan.result
    {
      hide Exec, Apply;
      var current := request.(currentRevision := request.currentRevision + 1);
      current := Advance(current, Generated, now);
      current := Advance(current, Rendered, now);
      var _ :- Dispatch(Delivery(current.id, current.currentRevision, files.0, files.1), sends);
      return Success(current);
    }
  }
}
