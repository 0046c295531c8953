/** What a call produces besides a state: revisions, prompts and deliveries; and, over runs, that each
 revision is delivered once and in order. */
module LifecycleOutcomes {
  import opened Wrappers
  import opened Domain
  import opened StateMachine
  import opened StorageKeys
  import opened Lifecycle
  import opened LifecycleSafety
  import opened LifecycleRuns

  // ---- what a list of effects adds ----

  function SendsOf(ops: seq<Op>): seq<Sent> {
    if ops == [] then [] else (if ops[0].Send? then [ops[0].sent] else []) + SendsOf(ops[1..])
  }

  function AddedTo(ops: seq<Op>, id: string): seq<Revision> {
    if ops == [] then [] else
      (if ops[0].AddRevision? && ops[0].revision.requestId == id then [ops[0].revision] else []) + AddedTo(ops[1..], id)
  }

  lemma ApplyAdds(w: World, op: Op, id: string)
    ensures Apply(w, op).outbox == w.outbox + if op.Send? then [op.sent] else []
    ensures RevisionsOf(Apply(w, op).repo, id) ==
            RevisionsOf(w.repo, id) + if op.AddRevision? && op.revision.requestId == id then [op.revision] else []
  {
  }

  lemma {:induction false} ExecAdds(w: World, ops: seq<Op>, id: string)
    ensures Exec(w, ops).outbox == w.outbox + SendsOf(ops)
    ensures RevisionsOf(Exec(w, ops).repo, id) == RevisionsOf(w.repo, id) + AddedTo(ops, id)
    decreases |ops|
  {
    hide Apply, RevisionsOf;
    if ops != [] {
      ApplyAdds(w, ops[0], id);
      ExecAdds(Apply(w, ops[0]), ops[1..], id);
    }
  }

  lemma AddsDo(op: Op, rest: seq<Op>, id: string)
    ensures SendsOf([op] + rest) == (if op.Send? then [op.sent] else []) + SendsOf(rest)
    ensures AddedTo([op] + rest, id) ==
            (if op.AddRevision? && op.revision.requestId == id then [op.revision] else []) + AddedTo(rest, id)
  {
    assert ([op] + rest)[1..] == rest;
  }

  // ---- generation ----

  /** The revision a completed generation leaves behind. */
  function Produced(r: Request, now: int, feedback: Option<string>, oracle: ActOracle): seq<Revision> {
    if GenerationEnd(r.intent, oracle) != AwaitingApproval then [] else
      var n, intent := r.currentRevision + 1, r.intent.value;
      [Revision(r.id, n, Content(intent, oracle.generated.value), feedback,
                Reference(ArtifactKey(r.id, n, intent, Pdf)), Reference(ArtifactKey(r.id, n, intent, Docx)), now)]
  }

  /** What the owner is sent by it. */
  function Delivered(r: Request, oracle: ActOracle): seq<Sent> {
    if GenerationEnd(r.intent, oracle) != AwaitingApproval || !oracle.sends then [] else
      [Delivery(r.id, r.currentRevision + 1, oracle.rendered.value.0, oracle.rendered.value.1)]
  }

  lemma DeliverOutcome(r: Request, now: int, files: (Bytes, Bytes), sends: bool)
    ensures var ops := DeliverPlan(r, now, files, sends).ops;
            && AddedTo(ops, r.id) == []
            && SendsOf(ops) == if sends then [Delivery(r.id, r.currentRevision + 1, files.0, files.1)] else []
  {
    var ops := DeliverPlan(r, now, files, sends).ops;
    if sends {
      AddsDo(ops[2], [], r.id);
      assert ops[2..] == [ops[2]] + [];
    } else {
      assert ops[2..] == [];
    }
    AddsDo(ops[1], ops[2..], r.id);
    AddsDo(ops[0], [ops[1]] + ops[2..], r.id);
    assert ops == [ops[0]] + ([ops[1]] + ops[2..]);
  }

  lemma StoreOutcome(r: Request, now: int, content: Content, feedback: Option<string>, files: (Bytes, Bytes), oracle: ActOracle)
    ensures var ops := StorePlan(r, now, content, feedback, files, oracle).ops;
            var n, completed := r.currentRevision + 1, oracle.storesPdf && oracle.storesDocx;
            && AddedTo(ops, r.id) == (if completed then
                 [Revision(r.id, n, content, feedback, Reference(ArtifactKey(r.id, n, content.schema, Pdf)),
                           Reference(ArtifactKey(r.id, n, content.schema, Docx)), now)] else [])
            && SendsOf(ops) == if completed && oracle.sends then [Delivery(r.id, n, files.0, files.1)] else []
  {
    hide DeliverPlan, ArtifactKey;
    var ops := StorePlan(r, now, content, feedback, files, oracle).ops;
    if oracle.storesPdf {
      if oracle.storesDocx {
        DeliverOutcome(r, now, files, oracle.sends);
        assert ops[3..] == DeliverPlan(r, now, files, oracle.sends).ops;
        AddsDo(ops[2], ops[3..], r.id);
        AddsDo(ops[1], [ops[2]] + ops[3..], r.id);
        AddsDo(ops[0], [ops[1]] + ([ops[2]] + ops[3..]), r.id);
        assert ops == [ops[0]] + ([ops[1]] + ([ops[2]] + ops[3..]));
      } else {
        AddsDo(ops[0], [], r.id);
        assert ops == [ops[0]] + [];
      }
    }
  }

  lemma GenerateOutcome(r: Request, now: int, feedback: Option<string>, previous: Option<Content>, oracle: ActOracle)
    ensures var ops := GeneratePlan(r, now, feedback, previous, oracle).ops;
            AddedTo(ops, r.id) == Produced(r, now, feedback, oracle) && SendsOf(ops) == Delivered(r, oracle)
  {
    hide StorePlan, ArtifactKey;
    if HasPrompt(r.intent) {
      var ops := GeneratePlan(r, now, feedback, previous, oracle).ops;
      AddsDo(ops[0], ops[1..], r.id);
      assert ops == [ops[0]] + ops[1..];
      if oracle.generated.None? {
        AddsDo(ops[1], [], r.id);
        assert ops[1..] == [ops[1]] + [];
      } else if oracle.rendered.None? {
        assert ops[1..] == [];
      } else {
        var content := Content(r.intent.value, oracle.generated.value);
        StoreOutcome(r, now, content, feedback, oracle.rendered.value, oracle);
        assert ops[1..] == StorePlan(r, now, content, feedback, oracle.rendered.value, oracle).ops;
      }
    }
  }

  // ---- owner actions ----

  /** What an applied decision adds to the request's revisions and to what the owner was sent. */
  function ActAdds(r: Request, action: OwnerAction, now: int, oracle: ActOracle): (seq<Revision>, seq<Sent>) {
    match action.decision
    case Confirm => (Produced(r, now, None, oracle), Delivered(r, oracle))
    case Revise => (Produced(r, now, action.feedback, oracle), Delivered(r, oracle))
    case Correct =>
      ([], if action.intent.Some? && oracle.sends then [Prompt(r.id, action.intent.value)] else [])
    case _ => ([], [])
  }

  lemma DecideOutcome(latest: Option<Content>, r: Request, action: OwnerAction, now: int, oracle: ActOracle)
    requires NextState(r.state, TriggerFor(action.decision)).Some?
    ensures var ops := DecidePlan(latest, r, action, now, oracle).ops;
            var (revs, sent) := ActAdds(r, action, now, oracle);
            AddedTo(ops, r.id) == revs && SendsOf(ops) == sent
  {
    hide GeneratePlan, ArtifactKey;
    var moved := r.(state := NextState(r.state, TriggerFor(action.decision)).value, updatedAt := now);
    var ops := DecidePlan(latest, r, action, now, oracle).ops;
    AddsDo(ops[0], ops[1..], r.id);
    assert ops == [ops[0]] + ops[1..];
    match action.decision {
      case Confirm =>
        GenerateOutcome(moved, now, None, None, oracle);
        assert ops[1..] == GeneratePlan(moved, now, None, None, oracle).ops;
      case Revise =>
        GenerateOutcome(moved, now, action.feedback, latest, oracle);
        assert ops[1..] == GeneratePlan(moved, now, action.feedback, latest, oracle).ops;
      case Correct =>
        var rest := ops[2..];
        AddsDo(ops[1], rest, r.id);
        assert ops[1..] == [ops[1]] + rest;
        if action.intent.Some? && oracle.sends {
          AddsDo(ops[2], [], r.id);
          assert rest == [ops[2]] + [];
        } else {
          assert rest == [];
        }
      case _ =>
        assert ops[1..] == [];
    }
  }

  /** A click adds a revision exactly when it is applied and its generation completes, sends a delivery
      exactly when sending works besides, prompts again after a correction, and otherwise adds nothing. */
  lemma ActOutcome(w: World, action: OwnerAction, now: int, oracle: ActOracle)
    requires Inv(w)
    ensures var id, w' := action.requestId, Exec(w, ActPlan(w.repo, action, now, oracle).ops);
            var (revs, sent) := if Applies(w, action) then ActAdds(w.repo.requests[id], action, now, oracle) else ([], []);
            RevisionsOf(w'.repo, id) == RevisionsOf(w.repo, id) + revs && w'.outbox == w.outbox + sent
  {
    hide DecidePlan, ActAdds, Inv, Exec, Apply, RevisionsOf;
    var id := action.requestId;
    var ops := ActPlan(w.repo, action, now, oracle).ops;
    ExecAdds(w, ops, id);
    if id in w.repo.requests && action.actionId !in w.repo.interactions {
      var r := w.repo.requests[id];
      IdIsKey(w, id);
      var latest := LatestContent(w.repo, id);
      var rest := DecidePlan(latest, r, action, now, oracle).ops;
      AddsDo(ops[0], rest, id);
      assert ops == [ops[0]] + rest;
      if Applies(w, action) {
        DecideOutcome(latest, r, action, now, oracle);
      } else {
        DecideNothing(latest, r, action, now, oracle);
      }
    }
  }

  lemma DecideNothing(latest: Option<Content>, r: Request, action: OwnerAction, now: int, oracle: ActOracle)
    requires NextState(r.state, TriggerFor(action.decision)).None?
    ensures DecidePlan(latest, r, action, now, oracle).ops == []
  {
  }

  // ---- ingestion ----

  /** Whether the owner is told about a classified batch. */
  predicate Notifies(cfg: Config, oracle: IngestOracle) {
    oracle.classified.Some? && oracle.sends && (oracle.classified.value.0 != NoIntent || cfg.notifyOnNone)
  }

  /** The request an ingested batch leaves: its client, the time, its own transcript, and, once classified,
      the classifier's intent and confidence, flagged as low exactly when that is below the threshold. */
  ghost predicate Classified(cfg: Config, r: Request, clientId: string, name: string, now: int, flags: seq<string>, oracle: IngestOracle) {
    && r.clientId == clientId && r.clientName == name
    && r.createdAt == now && r.updatedAt == now && r.transcript == Some(oracle.transcript)
    && (oracle.classified.None? ==> r.intent == Some(NoIntent) && r.confidence == None && r.flags == [])
    && (oracle.classified.Some? ==>
          && r.intent == Some(oracle.classified.value.0) && r.confidence == Some(oracle.classified.value.1)
          && r.flags == flags + if oracle.classified.value.1 < cfg.threshold then ["low_confidence"] else [])
  }

  lemma ClassifyOutcome(w: World, cfg: Config, r: Request, now: int, flags: seq<string>, oracle: IngestOracle)
    requires r.createdAt == now && r.updatedAt == now && r.intent == Some(NoIntent) && r.confidence == None && r.flags == []
    requires Lookup(w.repo.requests, r.id) == Some(r) && r.transcript == Some(oracle.transcript)
    ensures var ops := ClassifyPlan(cfg, r, flags, oracle).ops;
            var after := Exec(w, ops).repo.requests;
            && r.id in after && Classified(cfg, after[r.id], r.clientId, r.clientName, now, flags, oracle)
            && AddedTo(ops, r.id) == []
            && SendsOf(ops) == if Notifies(cfg, oracle) then [Prompt(r.id, oracle.classified.value.0)] else []
  {
    var ops := ClassifyPlan(cfg, r, flags, oracle).ops;
    if oracle.classified.Some? {
      var save, rest := ops[0], ops[1..];
      assert ops == [save] + rest && save.request.id == r.id && Classified(cfg, save.request, r.clientId, r.clientName, now, flags, oracle);
      assert rest == if Notifies(cfg, oracle) then [Send(Prompt(r.id, oracle.classified.value.0))] else [];
      hide ClassifyPlan, Classified, Notifies;
      ExecDo(w, save, rest);
      AddsDo(save, rest, r.id);
      if rest != [] {
        assert rest == [rest[0]] + [];
        ExecDo(Apply(w, save), rest[0], []);
        AddsDo(rest[0], [], r.id);
      }
    }
  }

  lemma IngestOutcome(w: World, cfg: Config, agg: AggregatedRequest, name: string, now: int, flags: seq<string>, oracle: IngestOracle)
    ensures var w' := Exec(w, IngestPlan(cfg, agg, name, now, flags, oracle).ops);
            var id := agg.requestId;
            && id in w'.repo.requests && Classified(cfg, w'.repo.requests[id], agg.clientId, name, now, flags, oracle)
            && RevisionsOf(w'.repo, id) == RevisionsOf(w.repo, id)
            && w'.outbox == w.outbox + if Notifies(cfg, oracle) then [Prompt(id, oracle.classified.value.0)] else []
  {
    hide ClassifyPlan, Classified, Notifies;
    var r := NewRequest(agg, name, now);
    var r3 := r.(state := Classifying, transcript := Some(oracle.transcript));
    var before := [SaveRequest(r), SetMessages(r.id, agg.messages), SaveRequest(r.(state := Aggregating)),
                   SaveRequest(r.(state := ProcessingMedia)), SaveRequest(r3)];
    var rest := ClassifyPlan(cfg, r3, flags, oracle).ops;
    assert IngestPlan(cfg, agg, name, now, flags, oracle).ops == before + rest;
    FirstWrites(w, r, r3, agg.messages);
    ExecConcat(w, before, rest);
    ClassifyOutcome(Exec(w, before), cfg, r3, now, flags, oracle);
    ExecAdds(Exec(w, before), rest, r.id);
  }

  /** The writes up to classification leave the request as it is to be classified, and send nothing. */
  lemma FirstWrites(w: World, r: Request, r3: Request, ms: seq<Message>)
    requires r3.id == r.id
    ensures var w' := Exec(w, [SaveRequest(r), SetMessages(r.id, ms), SaveRequest(r.(state := Aggregating)),
                               SaveRequest(r.(state := ProcessingMedia)), SaveRequest(r3)]);
            && Lookup(w'.repo.requests, r.id) == Some(r3)
            && w'.outbox == w.outbox && RevisionsOf(w'.repo, r.id) == RevisionsOf(w.repo, r.id)
  {
    var a, b, c, d, e := SaveRequest(r), SetMessages(r.id, ms), SaveRequest(r.(state := Aggregating)),
                         SaveRequest(r.(state := ProcessingMedia)), SaveRequest(r3);
    assert [a, b, c, d, e] == [a] + ([b] + ([c] + ([d] + ([e] + []))));
    var w1 := Apply(w, a);
    var w2 := Apply(w1, b);
    var w3 := Apply(w2, c);
    var w4 := Apply(w3, d);
    ExecDo(w, a, [b] + ([c] + ([d] + ([e] + []))));
    ExecDo(w1, b, [c] + ([d] + ([e] + [])));
    ExecDo(w2, c, [d] + ([e] + []));
    ExecDo(w3, d, [e] + []);
    ExecDo(w4, e, []);
  }

  // ---- deliveries over runs ----

  /** The revision numbers delivered for a request, in the order they were sent. */
  function Numbers(outbox: seq<Sent>, id: string): seq<nat> {
    if outbox == [] then [] else
      var last := outbox[|outbox| - 1];
      Numbers(outbox[..|outbox| - 1], id) + if last.Delivery? && last.requestId == id then [last.revisionNo] else []
  }

  function CurrentRevision(w: World, id: string): nat {
    if id in w.repo.requests then w.repo.requests[id].currentRevision else 0
  }

  ghost predicate Ascending(s: seq<nat>, most: nat) {
    && (forall i | 0 <= i < |s| :: 1 <= s[i] <= most)
    && (forall i, j | 0 <= i < j < |s| :: s[i] < s[j])
  }

  function UpTo(n: nat): seq<nat> {
    seq(n, i => i + 1)
  }

  lemma NumbersAppend(outbox: seq<Sent>, more: seq<Sent>, id: string)
    requires |more| <= 1
    ensures Numbers(outbox + more, id) ==
            Numbers(outbox, id) + if |more| == 1 && more[0].Delivery? && more[0].requestId == id then [more[0].revisionNo] else []
  {
    if more == [] {
      assert outbox + more == outbox;
    } else {
      assert (outbox + more)[..|outbox|] == outbox;
    }
  }

  /** One event delivers at most one revision of a request: the one it just counted. */
  lemma EventDelivers(cfg: Config, w: World, e: Event, id: string)
    requires Inv(w) && Admissible(w, e) && (id !in w.repo.requests ==> Numbers(w.outbox, id) == [])
    ensures var w' := Exec(w, PlanOf(cfg, w, e));
            var n, n' := CurrentRevision(w, id), CurrentRevision(w', id);
            && (n' == n || (n' == n + 1 && e.Act?))
            && Numbers(w'.outbox, id) == Numbers(w.outbox, id) + if n' == n + 1 && e.actOracle.sends then [n'] else []
  {
    hide Inv, IngestPlan, ActPlan, Numbers;
    var w' := Exec(w, PlanOf(cfg, w, e));
    match e {
      case StoreInbound(m, data) =>
        ExecDo(w, PutObject(InboundKey(m), data), []);
      case Ingest(agg, name, now, flags, oracle) =>
        IngestEffect(w, cfg, agg, name, now, flags, oracle);
        IngestOutcome(w, cfg, agg, name, now, flags, oracle);
        if id != agg.requestId {
          ExecFrame(w, PlanOf(cfg, w, e), agg.requestId, id);
          SameView(w, w', id);
        }
        NumbersAppend(w.outbox, w'.outbox[|w.outbox|..], id);
      case Act(action, now, oracle) =>
        ActDelivers(w, action, now, oracle, id);
    }
  }

  lemma ActDelivers(w: World, action: OwnerAction, now: int, oracle: ActOracle, id: string)
    requires Inv(w)
    ensures var w' := Exec(w, ActPlan(w.repo, action, now, oracle).ops);
            var n, n' := CurrentRevision(w, id), CurrentRevision(w', id);
            && (n' == n || n' == n + 1)
            && Numbers(w'.outbox, id) == Numbers(w.outbox, id) + if n' == n + 1 && oracle.sends then [n'] else []
  {
    hide Inv, ActPlan, Numbers, GenerationEnd;
    var w' := Exec(w, ActPlan(w.repo, action, now, oracle).ops);
    ActEffect(w, action, now, oracle);
    ActOutcome(w, action, now, oracle);
    NumbersAppend(w.outbox, w'.outbox[|w.outbox|..], id);
    assert w'.outbox == w.outbox + w'.outbox[|w.outbox|..];
    if Applies(w, action) {
      IdIsKey(w, action.requestId);
    } else {
      NotApplied(Config(0.0, false), w, Act(action, now, oracle), id);
      SameView(w, w', id);
    }
  }

  lemma {:induction false} RunDelivers(cfg: Config, w: World, es: seq<Event>, id: string)
    requires Inv(w) && AdmissibleRun(cfg, w, es)
    requires Ascending(Numbers(w.outbox, id), CurrentRevision(w, id))
    ensures var w' := After(cfg, w, es);
            && Ascending(Numbers(w'.outbox, id), CurrentRevision(w', id))
            && ((forall e | e in es && e.Act? :: e.actOracle.sends) && Numbers(w.outbox, id) == UpTo(CurrentRevision(w, id)) ==>
                  Numbers(w'.outbox, id) == UpTo(CurrentRevision(w', id)))
    decreases |es|
  {
    hide Inv, Admissible, PlanOf, Numbers, CurrentRevision;
    if es != [] {
      var ops := PlanOf(cfg, w, es[0]);
      var w1 := Exec(w, ops);
      NoneBeforeIngest(w, id);
      EventDelivers(cfg, w, es[0], id);
      EventKeeps(cfg, w, es[0]);
      assert es[0] in es && forall e | e in es[1..] :: e in es;
      StepAscending(Numbers(w.outbox, id), Numbers(w1.outbox, id), CurrentRevision(w, id), CurrentRevision(w1, id),
                    es[0].Act? && es[0].actOracle.sends);
      RunDelivers(cfg, w1, es[1..], id);
      ExecConcat(w, ops, LogOf(cfg, w1, es[1..]));
    }
  }

  lemma NoneBeforeIngest(w: World, id: string)
    requires Ascending(Numbers(w.outbox, id), CurrentRevision(w, id))
    ensures id in w.repo.requests || Numbers(w.outbox, id) == []
  {
    var s := Numbers(w.outbox, id);
    assert s == [] || 1 <= s[0] <= CurrentRevision(w, id);
  }

  lemma StepAscending(s: seq<nat>, s': seq<nat>, n: nat, n': nat, sent: bool)
    requires Ascending(s, n) && (n' == n || n' == n + 1) && s' == s + if n' == n + 1 && sent then [n'] else []
    ensures Ascending(s', n') && (s == UpTo(n) && (n' == n || sent) ==> s' == UpTo(n'))
  {
  }

  /** In every run a request's revisions are delivered in order, each at most once and never ahead of
      the count; and if sending works, exactly the revisions 1..n are. */
  lemma RevisionsDeliveredOnce(cfg: Config, es: seq<Event>, id: string)
    requires AdmissibleRun(cfg, START, es)
    ensures var w := After(cfg, START, es);
            && Ascending(Numbers(w.outbox, id), CurrentRevision(w, id))
            && ((forall e | e in es && e.Act? :: e.actOracle.sends) ==> Numbers(w.outbox, id) == UpTo(CurrentRevision(w, id)))
  {
    hide Inv, LogOf, Admissible;
    assert Inv(START) by { StartIsSafe(); }
    assert Numbers(START.outbox, id) == UpTo(CurrentRevision(START, id));
    RunDelivers(cfg, START, es, id);
  }
}
