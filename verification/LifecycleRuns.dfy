/** What whole runs do to one request: its decisions, its revision count, and when it is frozen. */
module LifecycleRuns {
  import opened Wrappers
  import opened Domain
  import opened StateMachine
  import opened StorageKeys
  import opened Lifecycle
  import opened LifecycleSafety

  // ---- which request an effect touches ----

  function Target(op: Op): Option<string> {
    match op
    case SaveRequest(r) => Some(r.id)
    case SetMessages(id, _) => Some(id)
    case AddRevision(v) => Some(v.requestId)
    case Send(s) => Some(s.requestId)
    case _ => None
  }

  ghost predicate Only(ops: seq<Op>, id: string) {
    forall op | op in ops :: Target(op) in {None, Some(id)}
  }

  function SentTo(outbox: seq<Sent>, id: string): seq<Sent> {
    if outbox == [] then [] else
      SentTo(outbox[..|outbox| - 1], id) +
      if outbox[|outbox| - 1].requestId == id then [outbox[|outbox| - 1]] else []
  }

  /** Everything the world holds about one request. */
  datatype View = View(request: Option<Request>, messages: Option<seq<Message>>, revisions: seq<Revision>, sent: seq<Sent>)

  function Lookup<T>(m: map<string, T>, id: string): Option<T> {
    if id in m then Some(m[id]) else None
  }

  function ViewOf(w: World, id: string): View {
    View(Lookup(w.repo.requests, id), Lookup(w.repo.messages, id), RevisionsOf(w.repo, id), SentTo(w.outbox, id))
  }

  lemma ApplyFrame(w: World, op: Op, id: string)
    requires Target(op) != Some(id)
    ensures ViewOf(Apply(w, op), id) == ViewOf(w, id)
  {
    if op.Send? {
      assert (w.outbox + [op.sent])[..|w.outbox|] == w.outbox;
    }
  }

  lemma {:induction false} ExecFrame(w: World, ops: seq<Op>, id: string, other: string)
    requires Only(ops, id) && other != id
    ensures ViewOf(Exec(w, ops), other) == ViewOf(w, other)
    decreases |ops|
  {
    if ops != [] {
      assert ops[0] in ops;
      ApplyFrame(w, ops[0], other);
      ExecFrame(Apply(w, ops[0]), ops[1..], id, other);
    }
  }

  lemma ExecDo(w: World, op: Op, rest: seq<Op>)
    ensures Exec(w, [op] + rest) == Exec(Apply(w, op), rest)
  {
    assert ([op] + rest)[1..] == rest;
  }

  // ---- what each entry point leaves behind ----

  lemma DeliverEffect(w: World, r: Request, now: int, files: (Bytes, Bytes), sends: bool)
    ensures var plan := DeliverPlan(r, now, files, sends);
            && Only(plan.ops, r.id)
            && Exec(w, plan.ops).repo.requests ==
               w.repo.requests[r.id := r.(state := AwaitingApproval, currentRevision := r.currentRevision + 1, updatedAt := now)]
  {
    var rendering := r.(state := Rendering, currentRevision := r.currentRevision + 1, updatedAt := now);
    var a, b := SaveRequest(rendering), SaveRequest(rendering.(state := AwaitingApproval));
    var send := Send(Delivery(r.id, r.currentRevision + 1, files.0, files.1));
    var rest := if sends then [send] + [] else [];
    ExecDo(w, a, [b] + rest);
    ExecDo(Apply(w, a), b, rest);
    if sends {
      ExecDo(Apply(Apply(w, a), b), send, []);
    }
  }

  lemma StoreEffect(w: World, r: Request, now: int, content: Content, feedback: Option<string>, files: (Bytes, Bytes), oracle: ActOracle)
    ensures var plan := StorePlan(r, now, content, feedback, files, oracle);
            && Only(plan.ops, r.id)
            && Exec(w, plan.ops).repo.requests ==
               if oracle.storesPdf && oracle.storesDocx then
                 w.repo.requests[r.id := r.(state := AwaitingApproval, currentRevision := r.currentRevision + 1, updatedAt := now)]
               else w.repo.requests
  {
    hide DeliverPlan, ArtifactKey;
    var ops := StorePlan(r, now, content, feedback, files, oracle).ops;
    if oracle.storesPdf {
      ExecDo(w, ops[0], ops[1..]);
      var w1 := Apply(w, ops[0]);
      if oracle.storesDocx {
        ExecDo(w1, ops[1], ops[2..]);
        var w2 := Apply(w1, ops[1]);
        ExecDo(w2, ops[2], ops[3..]);
        DeliverEffect(Apply(w2, ops[2]), r, now, files, oracle.sends);
        assert ops[3..] == DeliverPlan(r, now, files, oracle.sends).ops;
        assert ops == [ops[0]] + ([ops[1]] + ([ops[2]] + ops[3..]));
      } else {
        assert ops[1..] == [];
      }
    }
  }

  /** Where a confirmed or revised request ends up, as a function of its intent and the outcomes:
      FAILED only when the model failed, GENERATING when anything before delivery raised. */
  function GenerationEnd(intent: Option<Intent>, oracle: ActOracle): RequestState {
    if !HasPrompt(intent) then Generating
    else if oracle.generated.None? then Failed
    else if oracle.rendered.None? || !oracle.storesPdf || !oracle.storesDocx then Generating
    else AwaitingApproval
  }

  lemma GenerateEffect(w: World, r: Request, now: int, feedback: Option<string>, previous: Option<Content>, oracle: ActOracle)
    requires r.state == Generating && Lookup(w.repo.requests, r.id) == Some(r) && r.updatedAt == now
    ensures var plan := GeneratePlan(r, now, feedback, previous, oracle);
            var end := GenerationEnd(r.intent, oracle);
            && Only(plan.ops, r.id)
            && Exec(w, plan.ops).repo.requests == w.repo.requests[r.id := r.(
                 state := end, currentRevision := r.currentRevision + if end == AwaitingApproval then 1 else 0)]
  {
    hide StorePlan;
    var same := w.repo.requests[r.id := r];
    assert same == w.repo.requests;
    if HasPrompt(r.intent) {
      var ops := GeneratePlan(r, now, feedback, previous, oracle).ops;
      ExecDo(w, ops[0], ops[1..]);
      assert ops == [ops[0]] + ops[1..];
      if oracle.generated.Some? && oracle.rendered.Some? {
        var content := Content(r.intent.value, oracle.generated.value);
        StoreEffect(w, r, now, content, feedback, oracle.rendered.value, oracle);
        assert ops[1..] == StorePlan(r, now, content, feedback, oracle.rendered.value, oracle).ops;
      } else if oracle.generated.None? {
        ExecDo(w, ops[1], []);
        assert ops[1..] == [ops[1]] + [];
      } else {
        assert ops[1..] == [];
      }
    }
  }

  /** The click is recorded and its transition is legal. */
  predicate Applies(w: World, action: OwnerAction) {
    && action.requestId in w.repo.requests
    && action.actionId !in w.repo.interactions
    && NextState(w.repo.requests[action.requestId].state, TriggerFor(action.decision)).Some?
  }

  /** The request after an applied decision. */
  function Decided(r: Request, action: OwnerAction, now: int, oracle: ActOracle): Request {
    var moved := r.(updatedAt := now);
    match action.decision
    case Correct => moved.(state := AwaitingClassification, intent := action.intent)
    case Reject => moved.(state := Discarded)
    case Approve => moved.(state := Completed)
    case _ =>
      var end := GenerationEnd(r.intent, oracle);
      moved.(state := end, currentRevision := r.currentRevision + if end == AwaitingApproval then 1 else 0)
  }

  lemma DecideEffect(w: World, latest: Option<Content>, r: Request, action: OwnerAction, now: int, oracle: ActOracle)
    requires Lookup(w.repo.requests, r.id) == Some(r)
    ensures var plan := DecidePlan(latest, r, action, now, oracle);
            && Only(plan.ops, r.id)
            && if NextState(r.state, TriggerFor(action.decision)).None? then plan.ops == []
               else Exec(w, plan.ops).repo.requests == w.repo.requests[r.id := Decided(r, action, now, oracle)]
  {
    hide GeneratePlan, GenerationEnd;
    var next := NextState(r.state, TriggerFor(action.decision));
    if next.Some? {
      var moved := r.(state := next.value, updatedAt := now);
      var save := SaveRequest(moved);
      var w1 := Apply(w, save);
      var ops := DecidePlan(latest, r, action, now, oracle).ops;
      ExecDo(w, save, ops[1..]);
      assert ops == [save] + ops[1..];
      match action.decision {
        case Confirm =>
          GenerateEffect(w1, moved, now, None, None, oracle);
          assert ops[1..] == GeneratePlan(moved, now, None, None, oracle).ops;
        case Revise =>
          GenerateEffect(w1, moved, now, action.feedback, latest, oracle);
          assert ops[1..] == GeneratePlan(moved, now, action.feedback, latest, oracle).ops;
        case Correct =>
          var fixed := moved.(intent := action.intent);
          ExecDo(w1, SaveRequest(fixed), ops[2..]);
          assert ops[1..] == [SaveRequest(fixed)] + ops[2..];
          if fixed.intent.Some? && oracle.sends {
            ExecDo(Apply(w1, SaveRequest(fixed)), ops[2], []);
            assert ops[2..] == [ops[2]] + [];
          } else {
            assert ops[2..] == [];
          }
        case _ =>
          assert ops[1..] == [];
      }
    }
  }

  lemma ActEffect(w: World, action: OwnerAction, now: int, oracle: ActOracle)
    requires Inv(w)
    ensures var plan := ActPlan(w.repo, action, now, oracle);
            var id := action.requestId;
            && Only(plan.ops, id)
            && if Applies(w, action) then
                 Exec(w, plan.ops).repo.requests == w.repo.requests[id := Decided(w.repo.requests[id], action, now, oracle)]
               else forall op | op in plan.ops :: op.Record?
  {
    hide DecidePlan, Decided;
    var id := action.requestId;
    if id in w.repo.requests && action.actionId !in w.repo.interactions {
      assert RequestOk(w, id);
      var ops := ActPlan(w.repo, action, now, oracle).ops;
      var w1 := Apply(w, ops[0]);
      ExecDo(w, ops[0], ops[1..]);
      DecideEffect(w1, LatestContent(w.repo, id), w.repo.requests[id], action, now, oracle);
      assert ops[1..] == DecidePlan(LatestContent(w.repo, id), w.repo.requests[id], action, now, oracle).ops;
      assert ops == [ops[0]] + ops[1..];
    }
  }

  /** Where an ingested batch ends up: still CLASSIFYING exactly when the classifier raised. */
  function IngestEnd(oracle: IngestOracle): RequestState {
    if oracle.classified.None? then Classifying
    else if oracle.classified.value.0 == NoIntent then Discarded
    else AwaitingClassification
  }

  lemma ClassifyEffect(w: World, cfg: Config, r: Request, flags: seq<string>, oracle: IngestOracle)
    requires r.state == Classifying && Lookup(w.repo.requests, r.id) == Some(r)
    ensures var plan := ClassifyPlan(cfg, r, flags, oracle);
            var repo := Exec(w, plan.ops).repo;
            && Only(plan.ops, r.id)
            && r.id in repo.requests && repo.requests[r.id].state == IngestEnd(oracle)
            && repo.requests[r.id].currentRevision == r.currentRevision
            && repo.requests.Keys == w.repo.requests.Keys
            && repo.messages == w.repo.messages
  {
    var ops := ClassifyPlan(cfg, r, flags, oracle).ops;
    if oracle.classified.Some? {
      var save, rest := ops[0], ops[1..];
      assert ops == [save] + rest && save.request.id == r.id && save.request.state == IngestEnd(oracle);
      hide ClassifyPlan, IngestEnd;
      var w1 := Apply(w, save);
      ExecDo(w, save, rest);
      if rest != [] {
        assert rest == [rest[0]] + [];
        ExecDo(w1, rest[0], []);
      }
    }
  }

  lemma IngestEffect(w: World, cfg: Config, agg: AggregatedRequest, name: string, now: int, flags: seq<string>, oracle: IngestOracle)
    ensures var plan := IngestPlan(cfg, agg, name, now, flags, oracle);
            var id, repo := agg.requestId, Exec(w, plan.ops).repo;
            && Only(plan.ops, id)
            && id in repo.requests && repo.requests[id].state == IngestEnd(oracle)
            && repo.requests[id].currentRevision == 0
            && repo.requests.Keys == w.repo.requests.Keys + {id}
            && repo.messages == w.repo.messages[id := agg.messages]
  {
    hide ClassifyPlan, IngestEnd;
    var r := NewRequest(agg, name, now);
    var r3 := r.(state := Classifying, transcript := Some(oracle.transcript));
    var a, b, c, d, e := SaveRequest(r), SetMessages(r.id, agg.messages), SaveRequest(r.(state := Aggregating)),
                         SaveRequest(r.(state := ProcessingMedia)), SaveRequest(r3);
    var rest := ClassifyPlan(cfg, r3, flags, oracle).ops;
    var w1 := Apply(w, a);
    var w2 := Apply(w1, b);
    var w3 := Apply(w2, c);
    var w4 := Apply(w3, d);
    ExecDo(w, a, [b] + ([c] + ([d] + ([e] + rest))));
    ExecDo(w1, b, [c] + ([d] + ([e] + rest)));
    ExecDo(w2, c, [d] + ([e] + rest));
    ExecDo(w3, d, [e] + rest);
    ExecDo(w4, e, rest);
    ClassifyEffect(Apply(w4, e), cfg, r3, flags, oracle);
  }

  // ---- the owner's decisions ----

  datatype Ending =
    | Pending
    | Rejected
    | Confirmed(revisions: nat)
    | Approved(revisions: nat)

  /** How a request's decisions look: some corrections, then an ending. */
  datatype Form = Form(corrections: nat, ending: Ending)

  function Repeat(d: OwnerDecision, n: nat): seq<OwnerDecision> {
    seq(n, _ => d)
  }

  /** CORRECT* followed by nothing, REJECT, CONFIRM REVISE*, or CONFIRM REVISE* APPROVE. */
  function Word(f: Form): seq<OwnerDecision> {
    Repeat(Correct, f.corrections) +
    match f.ending
    case Pending => []
    case Rejected => [Reject]
    case Confirmed(n) => [Confirm] + Repeat(Revise, n)
    case Approved(n) => [Confirm] + Repeat(Revise, n) + [Approve]
  }

  /** A request whose applied decisions have form `f`: its state, and its revision count in terms of the
      generations its decisions asked for, one fewer when the last of them failed or stalled. */
  ghost predicate Fits(f: Form, w: World, id: string) {
    if id !in w.repo.requests then f == Form(0, Pending) else
      var r := w.repo.requests[id];
      match f.ending
      case Pending =>
        && r.currentRevision == 0
        && (if f.corrections > 0 then r.state == AwaitingClassification
            else r.state in {Classifying, AwaitingClassification, Discarded})
      case Rejected => r.state == Discarded && r.currentRevision == 0
      case Confirmed(n) =>
        || (r.state == AwaitingApproval && r.currentRevision == n + 1)
        || (r.state in {Generating, Failed} && r.currentRevision == n)
      case Approved(n) => r.state == Completed && r.currentRevision == n + 1
  }

  /** The decisions a run applies to request `id`: recorded, and legal when they were. */
  function Applied(cfg: Config, w: World, es: seq<Event>, id: string): seq<OwnerDecision>
    decreases |es|
  {
    if es == [] then [] else
      AppliedBy(w, es[0], id) + Applied(cfg, Exec(w, PlanOf(cfg, w, es[0])), es[1..], id)
  }

  function AppliedBy(w: World, e: Event, id: string): seq<OwnerDecision> {
    if e.Act? && e.action.requestId == id && Applies(w, e.action) then [e.action.decision] else []
  }

  function Extend(f: Form, d: OwnerDecision): Form {
    match d
    case Correct => f.(corrections := f.corrections + 1)
    case Reject => f.(ending := Rejected)
    case Confirm => f.(ending := Confirmed(0))
    case Revise => if f.ending.Confirmed? then f.(ending := Confirmed(f.ending.revisions + 1)) else f
    case Approve => if f.ending.Confirmed? then f.(ending := Approved(f.ending.revisions)) else f
  }

  lemma ExtendWord(f: Form, d: OwnerDecision)
    requires if d in {Revise, Approve} then f.ending.Confirmed? else f.ending.Pending?
    ensures Word(Extend(f, d)) == Word(f) + [d]
  {
    assert Repeat(Correct, f.corrections + 1) == Repeat(Correct, f.corrections) + [Correct];
    if f.ending.Confirmed? {
      assert Repeat(Revise, f.ending.revisions + 1) == Repeat(Revise, f.ending.revisions) + [Revise];
    } else {
      assert [Confirm] + Repeat(Revise, 0) == [Confirm];
    }
  }

  /** One event moves a request along the form its decisions have. */
  lemma EventFits(cfg: Config, w: World, e: Event, id: string, f: Form)
    requires Inv(w) && Admissible(w, e) && Fits(f, w, id)
    ensures var ds := AppliedBy(w, e, id);
            var f' := if ds == [] then f else Extend(f, ds[0]);
            Word(f') == Word(f) + ds && Fits(f', Exec(w, PlanOf(cfg, w, e)), id)
  {
    hide Inv, IngestPlan, ActPlan, Word, Decided, Extend;
    var w' := Exec(w, PlanOf(cfg, w, e));
    assert Word(f) + [] == Word(f);
    match e {
      case StoreInbound(m, data) =>
        ExecDo(w, PutObject(InboundKey(m), data), []);
      case Ingest(agg, name, now, flags, oracle) =>
        IngestEffect(w, cfg, agg, name, now, flags, oracle);
        if id != agg.requestId {
          ExecFrame(w, PlanOf(cfg, w, e), agg.requestId, id);
          SameView(w, w', id);
        }
      case Act(action, now, oracle) =>
        ActEffect(w, action, now, oracle);
        if Applies(w, action) && action.requestId == id {
          DecidedFits(w, w', action, now, oracle, f);
        } else {
          NotApplied(cfg, w, e, id);
          SameView(w, w', id);
        }
    }
  }

  lemma DecidedFits(w: World, w': World, action: OwnerAction, now: int, oracle: ActOracle, f: Form)
    requires Applies(w, action) && Fits(f, w, action.requestId)
    requires w'.repo.requests == w.repo.requests[action.requestId := Decided(w.repo.requests[action.requestId], action, now, oracle)]
    ensures Word(Extend(f, action.decision)) == Word(f) + [action.decision]
    ensures Fits(Extend(f, action.decision), w', action.requestId)
  {
    hide Word;
    ExtendWord(f, action.decision);
  }

  lemma SameView(w: World, w': World, id: string)
    requires ViewOf(w, id) == ViewOf(w', id)
    ensures id in w.repo.requests <==> id in w'.repo.requests
    ensures id in w.repo.requests ==> w.repo.requests[id] == w'.repo.requests[id]
  {
    assert ViewOf(w, id).request == ViewOf(w', id).request;
  }

  lemma {:induction false} RecordsFrame(w: World, ops: seq<Op>, id: string)
    requires forall op | op in ops :: op.Record?
    ensures ViewOf(Exec(w, ops), id) == ViewOf(w, id)
    decreases |ops|
  {
    if ops != [] {
      assert ops[0] in ops;
      ApplyFrame(w, ops[0], id);
      RecordsFrame(Apply(w, ops[0]), ops[1..], id);
    }
  }

  /** A click that is not applied to `id` leaves everything held about `id` alone. */
  lemma NotApplied(cfg: Config, w: World, e: Event, id: string)
    requires Inv(w) && e.Act? && AppliedBy(w, e, id) == []
    ensures ViewOf(Exec(w, PlanOf(cfg, w, e)), id) == ViewOf(w, id)
  {
    hide Inv, ActPlan;
    ActEffect(w, e.action, e.now, e.actOracle);
    if e.action.requestId == id {
      RecordsFrame(w, PlanOf(cfg, w, e), id);
    } else {
      ExecFrame(w, PlanOf(cfg, w, e), e.action.requestId, id);
    }
  }

  lemma EventKeeps(cfg: Config, w: World, e: Event)
    requires Inv(w) && Admissible(w, e)
    ensures Inv(Exec(w, PlanOf(cfg, w, e)))
  {
    hide Inv, Admissible, PlanOf;
    var ops := PlanOf(cfg, w, e);
    EventLegal(cfg, w, e);
    LegalRunKeeps(w, ops, |ops|);
    assert ops[..|ops|] == ops;
  }

  lemma {:induction false} RunFits(cfg: Config, w: World, es: seq<Event>, id: string, f: Form) returns (f': Form)
    requires Inv(w) && AdmissibleRun(cfg, w, es) && Fits(f, w, id)
    ensures Word(f') == Word(f) + Applied(cfg, w, es, id) && Fits(f', After(cfg, w, es), id)
    decreases |es|
  {
    hide Inv, Admissible, PlanOf, Fits, Word, AppliedBy;
    f' := f;
    if es != [] {
      var ops := PlanOf(cfg, w, es[0]);
      var ds := AppliedBy(w, es[0], id);
      EventFits(cfg, w, es[0], id, f);
      EventKeeps(cfg, w, es[0]);
      f' := RunFits(cfg, Exec(w, ops), es[1..], id, if ds == [] then f else Extend(f, ds[0]));
      ExecConcat(w, ops, LogOf(cfg, Exec(w, ops), es[1..]));
    }
  }

  /**
   For every request and run: its applied decisions have the form CORRECT* (REJECT | CONFIRM REVISE*
   APPROVE) or a prefix of it, its state matches how far they got (COMPLETED exactly after an APPROVE),
   and its revision count is the number of CONFIRMs and REVISEs, less one only in GENERATING or FAILED.
   */
  lemma DecisionGrammar(cfg: Config, es: seq<Event>, id: string) returns (f: Form)
    requires AdmissibleRun(cfg, START, es)
    ensures Word(f) == Applied(cfg, START, es, id) && Fits(f, After(cfg, START, es), id)
    ensures var requests := After(cfg, START, es).repo.requests;
            id in requests ==> (requests[id].state == Completed <==> f.ending.Approved?)
  {
    f := RunFits(cfg, START, es, id, Form(0, Pending));
  }

  // ---- requests that wait for nobody ----

  /** A request that is not waiting for the owner, be it terminal or stalled, never changes again:
      no later run alters its record, messages, revisions or what was sent about it. */
  lemma {:induction false} NotAwaitingIsFrozen(cfg: Config, w: World, es: seq<Event>, id: string)
    requires Inv(w) && AdmissibleRun(cfg, w, es) && id in w.repo.requests
    requires w.repo.requests[id].state !in {AwaitingClassification, AwaitingApproval}
    ensures ViewOf(After(cfg, w, es), id) == ViewOf(w, id)
    decreases |es|
  {
    hide Inv, PlanOf, ViewOf;
    if es != [] {
      var w1 := Exec(w, PlanOf(cfg, w, es[0]));
      FrozenStep(cfg, w, es[0], id);
      SameView(w, w1, id);
      EventKeeps(cfg, w, es[0]);
      NotAwaitingIsFrozen(cfg, w1, es[1..], id);
      ExecConcat(w, PlanOf(cfg, w, es[0]), LogOf(cfg, w1, es[1..]));
    }
  }

  lemma FrozenStep(cfg: Config, w: World, e: Event, id: string)
    requires Inv(w) && Admissible(w, e) && id in w.repo.requests
    requires w.repo.requests[id].state !in {AwaitingClassification, AwaitingApproval}
    ensures ViewOf(Exec(w, PlanOf(cfg, w, e)), id) == ViewOf(w, id)
  {
    hide Inv, IngestPlan, ActPlan, ViewOf;
    match e {
      case StoreInbound(m, data) =>
        ExecDo(w, PutObject(InboundKey(m), data), []);
        ApplyFrame(w, PutObject(InboundKey(m), data), id);
      case Ingest(agg, name, now, flags, oracle) =>
        IngestEffect(w, cfg, agg, name, now, flags, oracle);
        ExecFrame(w, PlanOf(cfg, w, e), agg.requestId, id);
      case Act(action, now, oracle) =>
        OwnerActsWhenAwaiting(w.repo.requests[id].state);
        NotApplied(cfg, w, e, id);
    }
  }
}
