/** Replayed clicks, and the intents that generation is asked for. */
module LifecycleReplay {
  import opened Wrappers
  import opened Domain
  import opened StateMachine
  import opened StorageKeys
  import opened Lifecycle
  import opened LifecycleSafety
  import opened LifecycleRuns

  // ---- replays ----

  /** The run without the clicks whose id is in `seen` or occurred before. */
  function WithoutReplays(es: seq<Event>, seen: set<string>): seq<Event> {
    if es == [] then [] else
      var e := es[0];
      if !e.Act? then [e] + WithoutReplays(es[1..], seen)
      else if e.action.actionId in seen then WithoutReplays(es[1..], seen)
      else [e] + WithoutReplays(es[1..], seen + {e.action.actionId})
  }

  lemma {:induction false} ExecGrows(w: World, ops: seq<Op>)
    ensures w.repo.requests.Keys <= Exec(w, ops).repo.requests.Keys
    ensures w.repo.interactions.Keys <= Exec(w, ops).repo.interactions.Keys
    decreases |ops|
  {
    if ops != [] {
      ExecGrows(Apply(w, ops[0]), ops[1..]);
    }
  }

  /** A click on a known request spends its id, whether or not its transition was legal. */
  lemma ClickSpendsId(w: World, action: OwnerAction, now: int, oracle: ActOracle)
    requires action.requestId in w.repo.requests
    ensures var ops := ActPlan(w.repo, action, now, oracle).ops;
            && action.actionId in Exec(w, ops).repo.interactions
            && (action.actionId in w.repo.interactions ==> ops == [])
  {
    hide DecidePlan;
    var ops := ActPlan(w.repo, action, now, oracle).ops;
    if action.actionId !in w.repo.interactions {
      ExecDo(w, ops[0], ops[1..]);
      assert ops == [ops[0]] + ops[1..];
      ExecGrows(Apply(w, ops[0]), ops[1..]);
    }
  }

  /** Each repeated click, where it occurs, has a recorded id or an unknown request. */
  ghost predicate RepeatsInert(cfg: Config, w: World, es: seq<Event>, seen: set<string>)
    decreases |es|
  {
    es == [] ||
    (var e, w1 := es[0], Exec(w, PlanOf(cfg, w, es[0]));
     if !e.Act? then RepeatsInert(cfg, w1, es[1..], seen)
     else if e.action.actionId in seen then
       Inert(w, e.action) && RepeatsInert(cfg, w1, es[1..], seen)
     else RepeatsInert(cfg, w1, es[1..], seen + {e.action.actionId}))
  }

  predicate Inert(w: World, action: OwnerAction) {
    action.actionId in w.repo.interactions || action.requestId !in w.repo.requests
  }

  lemma InertDoesNothing(cfg: Config, w: World, e: Event)
    requires e.Act? && Inert(w, e.action)
    ensures PlanOf(cfg, w, e) == [] && Exec(w, PlanOf(cfg, w, e)) == w
  {
  }

  ghost predicate RecordsOutside(ops: seq<Op>, ids: set<string>) {
    forall op | op in ops && op.Record? :: op.interaction.id !in ids
  }

  lemma IngestPlanRecordsNothing(cfg: Config, agg: AggregatedRequest, name: string, now: int, flags: seq<string>, o: IngestOracle)
    ensures forall op | op in IngestPlan(cfg, agg, name, now, flags, o).ops :: !op.Record?
  {
  }

  /** A call records no id but that of its own click. */
  lemma CallRecords(cfg: Config, w: World, e: Event, ids: set<string>)
    requires e.Act? ==> e.action.actionId !in ids
    ensures RecordsOutside(PlanOf(cfg, w, e), ids)
  {
    hide IngestPlan, DecidePlan;
    if e.Ingest? {
      IngestPlanRecordsNothing(cfg, e.agg, e.clientName, e.now, e.flags, e.ingestOracle);
    } else if e.Act? && e.action.requestId in w.repo.requests {
      var r := w.repo.requests[e.action.requestId];
      DecideRecordsNothing(LatestContent(w.repo, r.id), r, e.action, e.now, e.actOracle);
    }
  }

  /** What is kept of a run records no repeated id. */
  lemma {:induction false} KeptRecords(cfg: Config, w: World, es: seq<Event>, seen: set<string>)
    ensures RecordsOutside(LogOf(cfg, w, WithoutReplays(es, seen)), seen)
    decreases |es|
  {
    hide PlanOf;
    if es != [] {
      var e, rest := es[0], es[1..];
      var w1 := Exec(w, PlanOf(cfg, w, e));
      if e.Act? && e.action.actionId in seen {
        KeptRecords(cfg, w, rest, seen);
      } else {
        var seen' := if e.Act? then seen + {e.action.actionId} else seen;
        KeptRecords(cfg, w1, rest, seen');
        CallRecords(cfg, w, e, seen);
        LogCons(cfg, w, e, WithoutReplays(rest, seen'));
      }
    }
  }

  /**
   Deleting every later occurrence of a click id leaves all effects of a run as they are, in the same
   order, exactly when each deleted click was inert where it occurred: its id recorded, be it by an
   illegal click, or its request unknown.  The final worlds agree in exactly the same runs.
   */
  lemma {:induction false} ReplaysIrrelevantIff(cfg: Config, w: World, es: seq<Event>, seen: set<string>)
    ensures LogOf(cfg, w, WithoutReplays(es, seen)) == LogOf(cfg, w, es) <==> RepeatsInert(cfg, w, es, seen)
    ensures After(cfg, w, WithoutReplays(es, seen)) == After(cfg, w, es) <==> RepeatsInert(cfg, w, es, seen)
    decreases |es|
  {
    hide PlanOf, Inert, After;
    if es != [] {
      var e, rest := es[0], es[1..];
      assert es == [e] + rest;
      var w1 := Exec(w, PlanOf(cfg, w, e));
      AfterCons(cfg, w, e, rest);
      LogCons(cfg, w, e, rest);
      if e.Act? && e.action.actionId in seen {
        if Inert(w, e.action) {
          InertDoesNothing(cfg, w, e);
          ReplaysIrrelevantIff(cfg, w, rest, seen);
          assert [] + LogOf(cfg, w, rest) == LogOf(cfg, w, rest);
        } else {
          ActiveReplayShows(cfg, w, e, rest, seen);
        }
      } else {
        var seen' := if e.Act? then seen + {e.action.actionId} else seen;
        ReplaysIrrelevantIff(cfg, w1, rest, seen');
        var kept := WithoutReplays(rest, seen');
        AfterCons(cfg, w, e, kept);
        LogCons(cfg, w, e, kept);
        SamePrefix(PlanOf(cfg, w, e), LogOf(cfg, w1, kept), LogOf(cfg, w1, rest));
      }
    } else {
      assert WithoutReplays(es, seen) == es;
    }
  }

  /** A repeated click that is not inert records its id, which the run without it never does. */
  lemma ActiveReplayShows(cfg: Config, w: World, e: Event, rest: seq<Event>, seen: set<string>)
    requires e.Act? && !Inert(w, e.action) && e.action.actionId in seen
    ensures var kept := WithoutReplays(rest, seen);
            && LogOf(cfg, w, kept) != LogOf(cfg, w, [e] + rest)
            && After(cfg, w, kept) != After(cfg, w, [e] + rest)
  {
    var kept, id, w1 := WithoutReplays(rest, seen), e.action.actionId, Exec(w, PlanOf(cfg, w, e));
    KeptRecords(cfg, w, rest, seen);
    ExecInteractions(w, LogOf(cfg, w, kept), id);
    ClickSpendsId(w, e.action, e.now, e.actOracle);
    hide ActPlan, PlanOf;
    AfterCons(cfg, w, e, rest);
    ExecGrows(w1, LogOf(cfg, w1, rest));
    assert id !in After(cfg, w, kept).repo.interactions && id in After(cfg, w, [e] + rest).repo.interactions;
  }

  lemma SamePrefix<T>(a: seq<T>, b: seq<T>, c: seq<T>)
    ensures a + b == a + c <==> b == c
  {
    assert (a + b)[|a|..] == b && (a + c)[|a|..] == c;
  }

  ghost predicate AllKnown(w: World, es: seq<Event>) {
    forall e | e in es && e.Act? :: e.action.requestId in w.repo.requests
  }

  lemma {:induction false} KnownRepeatsInert(cfg: Config, w: World, es: seq<Event>, seen: set<string>)
    requires AllKnown(w, es) && seen <= w.repo.interactions.Keys
    ensures RepeatsInert(cfg, w, es, seen)
    decreases |es|
  {
    hide ActPlan, IngestPlan;
    if es != [] {
      var e, rest := es[0], es[1..];
      assert e in es;
      var w1 := Exec(w, PlanOf(cfg, w, e));
      ExecGrows(w, PlanOf(cfg, w, e));
      assert AllKnown(w1, rest) by {
        forall e' | e' in rest && e'.Act? ensures e'.action.requestId in w1.repo.requests {
          assert e' in es;
        }
      }
      if e.Act? {
        ClickSpendsId(w, e.action, e.now, e.actOracle);
        KnownRepeatsInert(cfg, w1, rest, seen + {e.action.actionId});
        if e.action.actionId in seen {
          assert seen + {e.action.actionId} == seen;
        }
      } else {
        KnownRepeatsInert(cfg, w1, rest, seen);
      }
    }
  }

  /** So clicks on existing requests can be replayed at will. */
  lemma ReplayInsensitive(cfg: Config, w: World, es: seq<Event>, seen: set<string>)
    requires AllKnown(w, es) && seen <= w.repo.interactions.Keys
    ensures LogOf(cfg, w, WithoutReplays(es, seen)) == LogOf(cfg, w, es)
    ensures After(cfg, w, WithoutReplays(es, seen)) == After(cfg, w, es)
  {
    KnownRepeatsInert(cfg, w, es, seen);
    ReplaysIrrelevantIff(cfg, w, es, seen);
  }

  lemma LogCons(cfg: Config, w: World, e: Event, rest: seq<Event>)
    ensures LogOf(cfg, w, [e] + rest) == PlanOf(cfg, w, e) + LogOf(cfg, Exec(w, PlanOf(cfg, w, e)), rest)
  {
    assert ([e] + rest)[1..] == rest;
  }

  lemma AfterCons(cfg: Config, w: World, e: Event, rest: seq<Event>)
    ensures After(cfg, w, [e] + rest) == After(cfg, Exec(w, PlanOf(cfg, w, e)), rest)
  {
    hide PlanOf;
    LogCons(cfg, w, e, rest);
    ExecConcat(w, PlanOf(cfg, w, e), LogOf(cfg, Exec(w, PlanOf(cfg, w, e)), rest));
  }

  /** The proviso is needed: a click on a request that does not exist yet is not spent, so the same
      click repeated after the request arrives is applied, and deleting it changes the outcome. */
  lemma EarlyClickIsNotSpent(cfg: Config, agg: AggregatedRequest, name: string, o: IngestOracle, a: OwnerAction, ao: ActOracle)
    requires KeySafe(agg.requestId) && IngestEnd(o) == AwaitingClassification
    requires a.requestId == agg.requestId && a.decision == Reject
    ensures var click, batch := Act(a, 0, ao), Ingest(agg, name, 0, [], o);
            var es := [click] + ([batch] + ([click] + []));
            var kept := [click] + ([batch] + []);
            && WithoutReplays(es, {}) == kept
            && ViewOf(After(cfg, START, es), a.requestId) != ViewOf(After(cfg, START, kept), a.requestId)
  {
    hide Inv, IngestEnd, Decided, IngestPlan, WithoutReplays;
    var click, batch, id := Act(a, 0, ao), Ingest(agg, name, 0, [], o), a.requestId;
    EarlyClickKept(click, batch);
    AfterCons(cfg, START, click, [batch] + ([click] + []));
    AfterCons(cfg, START, click, [batch] + []);
    assert PlanOf(cfg, START, click) == [];
    AfterCons(cfg, START, batch, [click] + []);
    AfterCons(cfg, START, batch, []);
    IngestEffect(START, cfg, agg, name, 0, [], o);
    var w := Exec(START, PlanOf(cfg, START, batch));
    StartIsSafe();
    EventKeeps(cfg, START, batch);
    IngestRecordsNothing(START, cfg, agg, name, 0, [], o);
    AfterCons(cfg, w, click, []);
    ActEffect(w, a, 0, ao);
    assert Applies(w, a);
    RejectDiscards(w.repo.requests[id], a, 0, ao);
  }

  lemma RejectDiscards(r: Request, a: OwnerAction, now: int, oracle: ActOracle)
    requires a.decision == Reject
    ensures Decided(r, a, now, oracle).state == Discarded
  {
  }

  lemma EarlyClickKept(click: Event, batch: Event)
    requires click.Act? && batch.Ingest?
    ensures WithoutReplays([click] + ([batch] + ([click] + [])), {}) == [click] + ([batch] + [])
  {
    var es := [click] + ([batch] + ([click] + []));
    var seen := {} + {click.action.actionId};
    assert es[1..] == [batch] + ([click] + []) && es[1..][1..] == [click] && [click][1..] == [];
    assert WithoutReplays([click], seen) == [];
    assert WithoutReplays(es[1..], seen) == [batch] + [];
  }

  lemma {:induction false} NothingRecorded(w: World, ops: seq<Op>)
    requires forall op | op in ops :: !op.Record?
    ensures Exec(w, ops).repo.interactions == w.repo.interactions
    decreases |ops|
  {
    if ops != [] {
      assert ops[0] in ops;
      NothingRecorded(Apply(w, ops[0]), ops[1..]);
    }
  }

  lemma IngestRecordsNothing(w: World, cfg: Config, agg: AggregatedRequest, name: string, now: int, flags: seq<string>, o: IngestOracle)
    ensures Exec(w, IngestPlan(cfg, agg, name, now, flags, o).ops).repo.interactions == w.repo.interactions
  {
    IngestPlanRecordsNothing(cfg, agg, name, now, flags, o);
    NothingRecorded(w, IngestPlan(cfg, agg, name, now, flags, o).ops);
  }

  // ---- intents ----

  /** From AWAITING_CLASSIFICATION on, the intent names a kind of document. */
  ghost predicate GoodIntent(r: Request) {
    r.state in {AwaitingClassification, Generating, Rendering, AwaitingApproval, Completed} ==> HasPrompt(r.intent)
  }

  ghost predicate GoodIntents(w: World) {
    forall id | id in w.repo.requests :: GoodIntent(w.repo.requests[id])
  }

  ghost predicate SavesGood(ops: seq<Op>) {
    forall op | op in ops && op.SaveRequest? :: GoodIntent(op.request)
  }

  /** What issued links guarantee: a correction names a kind of document. */
  ghost predicate Issued(es: seq<Event>) {
    forall e | e in es && e.Act? && e.action.decision == Correct :: HasPrompt(e.action.intent)
  }

  lemma {:induction false} SavesGoodKeep(w: World, ops: seq<Op>, k: nat)
    requires GoodIntents(w) && SavesGood(ops) && k <= |ops|
    ensures GoodIntents(Exec(w, ops[..k]))
    decreases k
  {
    if k > 0 {
      assert ops[0] in ops;
      SavesGoodKeep(Apply(w, ops[0]), ops[1..], k - 1);
      assert ops[..k][0] == ops[0] && ops[..k][1..] == ops[1..][..k - 1];
    }
  }

  lemma StoreSavesGood(r: Request, now: int, content: Content, feedback: Option<string>, files: (Bytes, Bytes), oracle: ActOracle)
    requires HasPrompt(r.intent)
    ensures var plan := StorePlan(r, now, content, feedback, files, oracle);
            SavesGood(plan.ops) && plan.result != Failure(NoPromptForIntent) && plan.result != Failure(InvalidNotification)
  {
    hide ArtifactKey;
  }

  lemma GenerateSavesGood(r: Request, now: int, feedback: Option<string>, previous: Option<Content>, oracle: ActOracle)
    requires HasPrompt(r.intent)
    ensures var plan := GeneratePlan(r, now, feedback, previous, oracle);
            SavesGood(plan.ops) && plan.result != Failure(NoPromptForIntent) && plan.result != Failure(InvalidNotification)
  {
    hide StorePlan;
    if oracle.generated.Some? && oracle.rendered.Some? {
      StoreSavesGood(r, now, Content(r.intent.value, oracle.generated.value), feedback, oracle.rendered.value, oracle);
    }
  }

  lemma DecideSavesGood(latest: Option<Content>, r: Request, action: OwnerAction, now: int, oracle: ActOracle)
    requires GoodIntent(r) && (action.decision == Correct ==> HasPrompt(action.intent))
    ensures var plan := DecidePlan(latest, r, action, now, oracle);
            SavesGood(plan.ops) && plan.result != Failure(NoPromptForIntent) && plan.result != Failure(InvalidNotification)
  {
    hide GeneratePlan;
    var next := NextState(r.state, TriggerFor(action.decision));
    if next.Some? {
      var moved := r.(state := next.value, updatedAt := now);
      match action.decision
      case Confirm => GenerateSavesGood(moved, now, None, None, oracle);
      case Revise => GenerateSavesGood(moved, now, action.feedback, latest, oracle);
      case _ =>
    }
  }

  lemma IngestSavesGood(cfg: Config, agg: AggregatedRequest, name: string, now: int, flags: seq<string>, oracle: IngestOracle)
    ensures SavesGood(IngestPlan(cfg, agg, name, now, flags, oracle).ops)
  {
    hide ClassifyPlan;
    ClassifySavesGood(cfg, NewRequest(agg, name, now).(state := Classifying, transcript := Some(oracle.transcript)), flags, oracle);
  }

  lemma ClassifySavesGood(cfg: Config, r: Request, flags: seq<string>, oracle: IngestOracle)
    ensures SavesGood(ClassifyPlan(cfg, r, flags, oracle).ops)
  {
  }

  /** A call keeps intents good at each of its writes, and never fails for want of a prompt. */
  lemma EventIntents(cfg: Config, w: World, e: Event)
    requires GoodIntents(w) && Issued([e])
    ensures SavesGood(PlanOf(cfg, w, e))
    ensures e.Act? ==> var result := ActPlan(w.repo, e.action, e.now, e.actOracle).result;
                       result != Failure(NoPromptForIntent) && result != Failure(InvalidNotification)
  {
    hide DecidePlan, IngestPlan;
    assert e in [e];
    if e.Ingest? {
      IngestSavesGood(cfg, e.agg, e.clientName, e.now, e.flags, e.ingestOracle);
    } else if e.Act? && e.action.requestId in w.repo.requests {
      var r := w.repo.requests[e.action.requestId];
      DecideSavesGood(LatestContent(w.repo, r.id), r, e.action, e.now, e.actOracle);
    }
  }

  /** If corrections come from issued links, every write of every run leaves every request from
      AWAITING_CLASSIFICATION on with a document intent. */
  lemma {:induction false} IntentsAtEveryWrite(cfg: Config, w: World, es: seq<Event>, k: nat)
    requires GoodIntents(w) && Issued(es) && k <= |LogOf(cfg, w, es)|
    ensures GoodIntents(Exec(w, LogOf(cfg, w, es)[..k]))
    decreases |es|
  {
    hide PlanOf, GoodIntent;
    if es != [] {
      assert es[0] in es;
      var ops := PlanOf(cfg, w, es[0]);
      var rest := LogOf(cfg, Exec(w, ops), es[1..]);
      EventIntents(cfg, w, es[0]);
      if k <= |ops| {
        assert (ops + rest)[..k] == ops[..k];
        SavesGoodKeep(w, ops, k);
      } else {
        SavesGoodKeep(w, ops, |ops|);
        assert ops[..|ops|] == ops;
        IntentsAtEveryWrite(cfg, Exec(w, ops), es[1..], k - |ops|);
        assert (ops + rest)[..k] == ops + rest[..k - |ops|];
        ExecConcat(w, ops, rest[..k - |ops|]);
      }
    }
  }

  /** What a correction writes decides whether a confirmation can generate: it raises for want of a
      prompt exactly when the correction did not name a kind of document. */
  lemma CorrectionDecidesPrompt(cfg: Config, w: World, fix: OwnerAction, o1: ActOracle, confirm: OwnerAction, now: int, o2: ActOracle)
    requires Inv(w) && Applies(w, fix) && fix.decision == Correct
    requires confirm.decision == Confirm && confirm.requestId == fix.requestId
    requires confirm.actionId != fix.actionId && confirm.actionId !in w.repo.interactions
    ensures var w1 := Exec(w, ActPlan(w.repo, fix, now, o1).ops);
            ActPlan(w1.repo, confirm, now, o2).result == Failure(NoPromptForIntent) <==> !HasPrompt(fix.intent)
  {
    hide Inv, StorePlan;
    ActEffect(w, fix, now, o1);
    IdIsKey(w, fix.requestId);
    OnlyOwnId(w, fix, now, o1, confirm.actionId);
    StoreNeverLacksPrompt();
  }

  lemma StoreNeverLacksPrompt()
    ensures forall r, now, content, feedback, files, oracle ::
              StorePlan(r, now, content, feedback, files, oracle).result != Failure(NoPromptForIntent)
  {
  }

  lemma {:induction false} ExecInteractions(w: World, ops: seq<Op>, id: string)
    requires forall op | op in ops && op.Record? :: op.interaction.id != id
    ensures id in Exec(w, ops).repo.interactions <==> id in w.repo.interactions
    decreases |ops|
  {
    if ops != [] {
      assert ops[0] in ops;
      ExecInteractions(Apply(w, ops[0]), ops[1..], id);
    }
  }

  lemma GenerateRecordsNothing(r: Request, now: int, feedback: Option<string>, previous: Option<Content>, oracle: ActOracle)
    ensures forall op | op in GeneratePlan(r, now, feedback, previous, oracle).ops :: !op.Record?
  {
    hide StorePlan;
    if HasPrompt(r.intent) && oracle.generated.Some? && oracle.rendered.Some? {
      StoreRecordsNothing(r, now, Content(r.intent.value, oracle.generated.value), feedback, oracle.rendered.value, oracle);
    }
  }

  lemma StoreRecordsNothing(r: Request, now: int, content: Content, feedback: Option<string>, files: (Bytes, Bytes), oracle: ActOracle)
    ensures forall op | op in StorePlan(r, now, content, feedback, files, oracle).ops :: !op.Record?
  {
    hide ArtifactKey;
  }

  lemma DecideRecordsNothing(latest: Option<Content>, r: Request, action: OwnerAction, now: int, oracle: ActOracle)
    ensures forall op | op in DecidePlan(latest, r, action, now, oracle).ops :: !op.Record?
  {
    hide GeneratePlan;
    var next := NextState(r.state, TriggerFor(action.decision));
    if next.Some? {
      var moved := r.(state := next.value, updatedAt := now);
      GenerateRecordsNothing(moved, now, None, None, oracle);
      GenerateRecordsNothing(moved, now, action.feedback, latest, oracle);
    }
  }

  /** A call records no click id but its own. */
  lemma OnlyOwnId(w: World, action: OwnerAction, now: int, oracle: ActOracle, id: string)
    requires id != action.actionId
    ensures id in Exec(w, ActPlan(w.repo, action, now, oracle).ops).repo.interactions <==> id in w.repo.interactions
  {
    hide DecidePlan;
    if action.requestId in w.repo.requests {
      var r := w.repo.requests[action.requestId];
      DecideRecordsNothing(LatestContent(w.repo, r.id), r, action, now, oracle);
    }
    ExecInteractions(w, ActPlan(w.repo, action, now, oracle).ops, id);
  }
}
