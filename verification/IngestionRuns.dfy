/**
 Runs of the whole service, all interleavings of deliveries, ticks and owner clicks: exactly-once
 placement of messages, what an exception can lose, and that each run is a lifecycle run.
 */
module IngestionRuns {
  import opened Wrappers
  import opened Domain
  import opened StorageKeys
  import opened IngestionSpec
  import opened IngestionConservation
  import Agg = AggregatorSpec
  import Life = Lifecycle
  import Safety = LifecycleSafety
  import Runs = LifecycleRuns

  /** What the id factory owes: fresh, key-safe ids. */
  ghost predicate SetupOk(s: Setup) {
    Injective(s.ids) && forall n :: KeySafe(s.ids(n))
  }

  /** Each claimed message id and each issued request id is somewhere, once: in an open bucket, popped
      and pending, handed over, dropped by an exception, or a claimed message that could not be built. */
  ghost predicate Accounted(s: Setup, st: State, pending: seq<AggregatedRequest>)
    requires Agg.Valid(st.agg)
  {
    && Held(ByMessage, st.agg) + Moving(ByMessage, pending, st.handed, st.dropped) + multiset(st.unbuilt) == multiset(st.claimed)
    && Held(ByRequest, st.agg) + Moving(ByRequest, pending, st.handed, st.dropped) == IssuedIds(s.ids, st.agg.issued)
  }

  /** The repository holds exactly the handed-over batches, each with its own messages. */
  ghost predicate Persisted(repo: Life.Repo, handed: seq<AggregatedRequest>) {
    && repo.messages.Keys == repo.requests.Keys
    && (forall id :: id in repo.requests <==> exists r :: r in handed && r.requestId == id)
    && (forall r | r in handed :: r.requestId in repo.messages && repo.messages[r.requestId] == r.messages)
  }

  /** The world is what the calls made of it, and each call was admissible when it was made. */
  ghost predicate Lives(s: Setup, w: Life.World, calls: seq<Life.Event>) {
    && w == Life.After(s.lifecycle, Life.START, calls)
    && Safety.AdmissibleRun(s.lifecycle, Life.START, calls)
  }

  /** Media is stored for claimed messages only. */
  ghost predicate InboundClaimed(store: map<string, Bytes>, claimed: set<string>) {
    forall x :: InboundKey(x) in store ==> x in claimed
  }

  ghost predicate Recorded(s: Setup, st: State) {
    && Persisted(st.world.repo, st.handed)
    && Lives(s, st.world, st.calls)
    && InboundClaimed(st.world.store, st.claimed)
  }

  ghost predicate Coherent(s: Setup, st: State, pending: seq<AggregatedRequest>) {
    Agg.Valid(st.agg) && Accounted(s, st, pending) && Recorded(s, st)
  }

  // ---- lifecycle calls ----

  lemma {:induction false} AdmissibleAppend(cfg: Life.Config, w: Life.World, es: seq<Life.Event>, e: Life.Event)
    requires Safety.AdmissibleRun(cfg, w, es) && Safety.Admissible(Life.After(cfg, w, es), e)
    ensures Safety.AdmissibleRun(cfg, w, es + [e])
    ensures Life.After(cfg, w, es + [e]) == Life.Exec(Life.After(cfg, w, es), Life.PlanOf(cfg, Life.After(cfg, w, es), e))
    decreases |es|
  {
    hide Life.PlanOf, Safety.Admissible;
    if es == [] {
      assert [e][1..] == [] && [] + [e] == [e];
      assert Life.LogOf(cfg, w, [e]) == Life.PlanOf(cfg, w, e) + [];
      assert Life.PlanOf(cfg, w, e) + [] == Life.PlanOf(cfg, w, e);
    } else {
      var ops := Life.PlanOf(cfg, w, es[0]);
      var w1 := Life.Exec(w, ops);
      assert (es + [e])[0] == es[0] && (es + [e])[1..] == es[1..] + [e];
      Life.ExecConcat(w, ops, Life.LogOf(cfg, w1, es[1..]));
      Life.ExecConcat(w, ops, Life.LogOf(cfg, w1, es[1..] + [e]));
      AdmissibleAppend(cfg, w1, es[1..], e);
    }
  }

  lemma CallLives(s: Setup, st: State, e: Life.Event)
    requires Lives(s, st.world, st.calls) && Safety.Admissible(st.world, e)
    ensures var st' := CallLife(s, st, e); Lives(s, st'.world, st'.calls)
  {
    hide Life.PlanOf, Safety.Admissible;
    AdmissibleAppend(s.lifecycle, Life.START, st.calls, e);
  }

  /** The safety invariant of the lifecycle holds in the service's world. */
  lemma LivesInv(s: Setup, st: State)
    requires Lives(s, st.world, st.calls)
    ensures Safety.Inv(st.world)
  {
    var log := Life.LogOf(s.lifecycle, Life.START, st.calls);
    Safety.InvariantAtEveryWrite(s.lifecycle, st.calls, |log|);
    assert log[..|log|] == log;
  }

  lemma {:induction false} ExecStores(w: Life.World, ops: seq<Life.Op>, key: string)
    requires forall op | op in ops && op.PutObject? :: op.key != key
    ensures key in Life.Exec(w, ops).store <==> key in w.store
    decreases |ops|
  {
    if ops != [] {
      assert ops[0] in ops;
      ExecStores(Life.Apply(w, ops[0]), ops[1..], key);
    }
  }

  lemma {:induction false} ExecMessages(w: Life.World, ops: seq<Life.Op>)
    requires forall op | op in ops :: !op.SetMessages?
    ensures Life.Exec(w, ops).repo.messages == w.repo.messages
    decreases |ops|
  {
    if ops != [] {
      assert ops[0] in ops;
      ExecMessages(Life.Apply(w, ops[0]), ops[1..]);
    }
  }

  lemma {:induction false} ExecRequestKeys(w: Life.World, ops: seq<Life.Op>)
    requires forall op | op in ops && op.SaveRequest? :: op.request.id in w.repo.requests
    ensures Life.Exec(w, ops).repo.requests.Keys == w.repo.requests.Keys
    decreases |ops|
  {
    if ops != [] {
      assert ops[0] in ops;
      ExecRequestKeys(Life.Apply(w, ops[0]), ops[1..]);
    }
  }

  /** What generation writes: no messages, and puts only under its own request's artifact keys. */
  ghost predicate Artifacts(ops: seq<Life.Op>, id: string) {
    forall op | op in ops ::
      !op.SetMessages? && (op.PutObject? ==> exists n, i, f :: op.key == ArtifactKey(id, n, i, f))
  }

  lemma GenerateArtifacts(r: Request, now: int, feedback: Option<string>, previous: Option<Content>, o: Life.ActOracle)
    ensures Artifacts(Life.GeneratePlan(r, now, feedback, previous, o).ops, r.id)
  {
    hide ArtifactKey;
  }

  lemma DecideArtifacts(latest: Option<Content>, r: Request, action: OwnerAction, now: int, o: Life.ActOracle)
    ensures Artifacts(Life.DecidePlan(latest, r, action, now, o).ops, r.id)
  {
    hide ArtifactKey, Life.GeneratePlan;
    forall moved, feedback, previous ensures Artifacts(Life.GeneratePlan(moved, now, feedback, previous, o).ops, moved.id) {
      GenerateArtifacts(moved, now, feedback, previous, o);
    }
  }

  lemma ActArtifacts(w: Life.World, action: OwnerAction, now: int, o: Life.ActOracle)
    requires Safety.Inv(w)
    ensures Artifacts(Life.ActPlan(w.repo, action, now, o).ops, action.requestId)
    ensures action.requestId !in w.repo.requests ==> Life.ActPlan(w.repo, action, now, o).ops == []
  {
    hide Life.DecidePlan, ArtifactKey;
    if action.requestId in w.repo.requests {
      var r := w.repo.requests[action.requestId];
      assert Safety.RequestOk(w, action.requestId);
      DecideArtifacts(Life.LatestContent(w.repo, r.id), r, action, now, o);
    }
  }

  /** A click changes no messages, creates no request and stores no inbound media. */
  lemma ActShape(w: Life.World, action: OwnerAction, now: int, o: Life.ActOracle)
    requires Safety.Inv(w)
    ensures var w' := Life.Exec(w, Life.ActPlan(w.repo, action, now, o).ops);
            && w'.repo.messages == w.repo.messages
            && w'.repo.requests.Keys == w.repo.requests.Keys
            && (forall x :: InboundKey(x) in w'.store <==> InboundKey(x) in w.store)
  {
    hide ArtifactKey, Life.ActPlan, InboundKey, Runs.Applies, Runs.Decided, Safety.Inv;
    var ops := Life.ActPlan(w.repo, action, now, o).ops;
    ActArtifacts(w, action, now, o);
    if action.requestId in w.repo.requests {
      assert Safety.RequestOk(w, action.requestId) by { OkIn(w, action.requestId); }
      ExecMessages(w, ops);
      Runs.ActEffect(w, action, now, o);
      forall op | op in ops && op.SaveRequest? ensures op.request.id in w.repo.requests {
        assert Runs.Target(op) in {None, Some(action.requestId)};
      }
      ExecRequestKeys(w, ops);
      forall x ensures InboundKey(x) in Life.Exec(w, ops).store <==> InboundKey(x) in w.store {
        forall n, i, f ensures InboundKey(x) != ArtifactKey(action.requestId, n, i, f) {
          InboundKeyApart(x, action.requestId, n, i, f);
        }
        ExecStores(w, ops, InboundKey(x));
      }
    }
  }

  lemma OkIn(w: Life.World, id: string)
    requires Safety.Inv(w) && id in w.repo.requests
    ensures Safety.RequestOk(w, id)
  {
  }

  lemma ClickKeeps(s: Setup, st: State, action: OwnerAction, now: int, o: Life.ActOracle)
    requires Coherent(s, st, [])
    ensures Coherent(s, CallLife(s, st, Life.Act(action, now, o)), [])
  {
    hide Life.ActPlan, InboundKey, Lives, Safety.Inv, Accounted, Agg.Valid;
    LivesInv(s, st);
    ActShape(st.world, action, now, o);
    assert Safety.Admissible(st.world, Life.Act(action, now, o));
    CallLives(s, st, Life.Act(action, now, o));
    SameAccounts(s, st, CallLife(s, st, Life.Act(action, now, o)), []);
  }

  /** Accounts do not depend on the world. */
  lemma SameAccounts(s: Setup, st: State, st': State, pending: seq<AggregatedRequest>)
    requires Agg.Valid(st.agg) && Accounted(s, st, pending)
    requires st'.agg == st.agg && st'.handed == st.handed && st'.dropped == st.dropped
    requires st'.unbuilt == st.unbuilt && st'.claimed == st.claimed
    ensures Agg.Valid(st'.agg) && Accounted(s, st', pending)
  {
  }

  lemma StoreMediaKeeps(s: Setup, st: State, id: string, data: Bytes)
    requires Recorded(s, st) && id !in st.claimed
    ensures Recorded(s, CallLife(s, st, Life.StoreInbound(id, data)).(claimed := st.claimed + {id}))
  {
    hide InboundKey, Lives, Safety.Inv;
    var op := Life.PutObject(InboundKey(id), data);
    Runs.ExecDo(st.world, op, []);
    assert Life.PlanOf(s.lifecycle, st.world, Life.StoreInbound(id, data)) == [op] + [];
    CallLives(s, st, Life.StoreInbound(id, data));
    forall x | InboundKey(x) == InboundKey(id) ensures x == id {
      InboundKeyInjective(x, id);
    }
  }

  /** Handing over a batch whose id was never handed over before keeps the repository exact. */
  lemma IngestKeeps(s: Setup, st: State, r: AggregatedRequest, now: int, o: Oracle)
    requires Recorded(s, st)
    requires (forall h | h in st.handed :: h.requestId != r.requestId) && KeySafe(r.requestId)
    ensures Recorded(s, CallLife(s, st, IngestCall(st, r, now, o)).(handed := st.handed + [r]))
  {
    hide InboundKey, Lives, KeySafe, Life.IngestPlan, Runs.IngestEnd;
    var call := IngestCall(st, r, now, o);
    assert Safety.Admissible(st.world, call);
    CallLives(s, st, call);
    Runs.IngestEffect(st.world, s.lifecycle, r, call.clientName, now, call.flags, call.ingestOracle);
    IngestPutsNothing(st.world, s.lifecycle, r, call.clientName, now, call.flags, call.ingestOracle);
  }

  lemma {:induction false} NothingPut(w: Life.World, ops: seq<Life.Op>)
    requires forall op | op in ops :: !op.PutObject?
    ensures Life.Exec(w, ops).store == w.store
    decreases |ops|
  {
    if ops != [] {
      assert ops[0] in ops;
      NothingPut(Life.Apply(w, ops[0]), ops[1..]);
    }
  }

  lemma IngestPutsNothing(w: Life.World, cfg: Life.Config, r: AggregatedRequest, name: string, now: int, flags: seq<string>, o: Life.IngestOracle)
    ensures Life.Exec(w, Life.IngestPlan(cfg, r, name, now, flags, o).ops).store == w.store
  {
    NothingPut(w, Life.IngestPlan(cfg, r, name, now, flags, o).ops);
  }

  // ---- handing over ----

  /** A pending batch's id was issued once, so it is nobody else's. */
  lemma PendingIsFresh(s: Setup, st: State, r: AggregatedRequest, rest: seq<AggregatedRequest>)
    requires SetupOk(s) && Agg.Valid(st.agg) && Accounted(s, st, [r] + rest)
    ensures (forall h | h in st.handed :: h.requestId != r.requestId) && KeySafe(r.requestId)
  {
    hide KeySafe, Agg.Valid, Held;
    var id := r.requestId;
    SumConcat(ByRequest, [r], rest);
    SumOne(ByRequest, r);
    IssuedOnce(s.ids, st.agg.issued, id);
    SumHas(st.handed, id);
    assert Of(ByRequest, r)[id] == 1;
  }

  lemma ProcessKeeps(s: Setup, o: Oracle, st: State, r: AggregatedRequest, rest: seq<AggregatedRequest>, now: int)
    requires SetupOk(s) && Coherent(s, st, [r] + rest)
    ensures Coherent(s, Process(s, o, st, r, now), rest)
  {
    hide Recorded, CallLife, IngestCall, SetupOk, Agg.Valid, Moving;
    if MediaLoads(o, r) {
      PendingIsFresh(s, st, r, rest);
      IngestKeeps(s, st, r, now, o);
      CallFields(s, st, IngestCall(st, r, now, o));
      HandOver(ByMessage, r, rest, st.handed, st.dropped);
      HandOver(ByRequest, r, rest, st.handed, st.dropped);
    } else {
      DropKeeps(s, st, [r], rest);
    }
  }

  /** A lifecycle call touches the world and its own history only. */
  lemma CallFields(s: Setup, st: State, e: Life.Event)
    ensures var st' := CallLife(s, st, e); st' == st.(world := st'.world, calls := st'.calls)
  {
  }

  lemma DropKeeps(s: Setup, st: State, rs: seq<AggregatedRequest>, rest: seq<AggregatedRequest>)
    requires Coherent(s, st, rs + rest)
    ensures Coherent(s, st.(dropped := st.dropped + rs), rest)
  {
    hide Persisted, Lives, InboundClaimed, Agg.Valid, Moving;
    DropAll(ByMessage, rs, rest, st.handed, st.dropped);
    DropAll(ByRequest, rs, rest, st.handed, st.dropped);
  }

  lemma {:induction false} ProcessAllKeeps(s: Setup, o: Oracle, st: State, due: seq<AggregatedRequest>, now: int)
    requires SetupOk(s) && Coherent(s, st, due)
    ensures Coherent(s, ProcessAll(s, o, st, due, now).state, [])
    decreases |due|
  {
    hide Process, SetupOk, Coherent;
    if due != [] {
      var rest := due[1..];
      assert due == [due[0]] + rest;
      ProcessKeeps(s, o, st, due[0], rest, now);
      var st1 := Process(s, o, st, due[0], now);
      if Succeeds(s, o, due[0]) {
        ProcessAllKeeps(s, o, st1, rest, now);
      } else {
        assert rest + [] == rest;
        DropKeeps(s, st1, rest, []);
      }
    } else {
      assert due == [];
    }
  }

  // ---- receive, flush, run ----

  /** Claiming a message and storing its media leaves one claimed id without a place. */
  ghost predicate CoherentBut(s: Setup, st: State, id: string) {
    && Agg.Valid(st.agg) && Recorded(s, st)
    && Held(ByMessage, st.agg) + Moving(ByMessage, [], st.handed, st.dropped) + multiset(st.unbuilt) + multiset{id} == multiset(st.claimed)
    && Held(ByRequest, st.agg) + Moving(ByRequest, [], st.handed, st.dropped) == IssuedIds(s.ids, st.agg.issued)
  }

  lemma ClaimKeeps(s: Setup, o: Oracle, st: State, m: Parsed)
    requires Coherent(s, st, []) && m.whatsappId !in st.claimed
    ensures CoherentBut(s, StoreMedia(s, Claimed(s, st, m), m, Fetched(o, m)), m.whatsappId)
  {
    hide Agg.Valid, Moving, Held, Persisted, Lives, InboundKey, Life.PlanOf;
    var id := m.whatsappId;
    assert multiset(st.claimed + {id}) == multiset(st.claimed) + multiset{id};
    var fetched := Fetched(o, m);
    if fetched.Some? {
      StoreMediaKeeps(s, st, id, fetched.value);
    }
  }

  lemma UnbuiltKeeps(s: Setup, st: State, id: string)
    requires CoherentBut(s, st, id)
    ensures Coherent(s, st.(unbuilt := st.unbuilt + [id]), [])
  {
    hide Agg.Valid, Moving, Held, Persisted, Lives, InboundClaimed;
  }

  /** What leaves the open buckets is pending. */
  lemma Rebalance(held: multiset<string>, held': multiset<string>, out: multiset<string>, extra: multiset<string>,
                  moving: multiset<string>, total: multiset<string>)
    requires held' + out == held + extra && held + moving + extra == total
    ensures held' + (out + moving) == total
  {
    assert held' + (out + moving) == (held' + out) + moving;
    assert (held + extra) + moving == held + moving + extra;
  }

  lemma AddKeeps(s: Setup, st: State, client: string, m: Message, now: int)
    requires CoherentBut(s, st, m.id)
    ensures var (agg, displaced) := Agg.AddStep(s.windows, s.ids, st.agg, client, m, now);
            Coherent(s, st.(agg := agg), Agg.ToSeq(displaced))
  {
    hide Agg.Valid, Held, Moving, Sum, Agg.ToSeq, Recorded, Agg.AddStep, IssuedIds;
    var (agg, displaced) := Agg.AddStep(s.windows, s.ids, st.agg, client, m, now);
    var out := Agg.ToSeq(displaced);
    var extra := if agg.issued > st.agg.issued then multiset{s.ids(st.agg.issued)} else multiset{};
    AddHeld(ByMessage, s.windows, s.ids, st.agg, client, m, now);
    AddHeld(ByRequest, s.windows, s.ids, st.agg, client, m, now);
    MovingPending(ByMessage, out, st.handed, st.dropped);
    MovingPending(ByRequest, out, st.handed, st.dropped);
    OneMoreIssued(s.ids, st.agg.issued);
    Rebalance(Held(ByMessage, st.agg), Held(ByMessage, agg), Sum(ByMessage, out), multiset{m.id},
              Moving(ByMessage, [], st.handed, st.dropped) + multiset(st.unbuilt), multiset(st.claimed));
    Rebalance(Held(ByRequest, st.agg), Held(ByRequest, agg), Sum(ByRequest, out), extra,
              Moving(ByRequest, [], st.handed, st.dropped), IssuedIds(s.ids, agg.issued));
    SameRecords(s, st, st.(agg := agg));
  }

  lemma OneMoreIssued(ids: Agg.IdSource, n: nat)
    ensures IssuedIds(ids, n + 1) == IssuedIds(ids, n) + multiset{ids(n)}
  {
  }

  /** Records do not depend on the aggregator. */
  lemma SameRecords(s: Setup, st: State, st': State)
    requires Recorded(s, st) && st'.world == st.world && st'.handed == st.handed && st'.calls == st.calls && st'.claimed == st.claimed
    ensures Recorded(s, st')
  {
  }

  lemma ReceiveOneKeeps(s: Setup, o: Oracle, st: State, m: Parsed, now: int)
    requires SetupOk(s) && Coherent(s, st, [])
    ensures Coherent(s, ReceiveOne(s, o, st, m, now).state, [])
  {
    hide SetupOk, Coherent, CoherentBut, Process, StoreMedia, Claimed, Agg.AddStep;
    if m.whatsappId !in st.claimed {
      ClaimKeeps(s, o, st, m);
      var stored := StoreMedia(s, Claimed(s, st, m), m, Fetched(o, m));
      var built := Build(m, Fetched(o, m));
      if built.Failure? {
        UnbuiltKeeps(s, stored, m.whatsappId);
      } else {
        var client := s.resolve(m.sender).0;
        AddKeeps(s, stored, client, built.value, now);
        var (agg, displaced) := Agg.AddStep(s.windows, s.ids, stored.agg, client, built.value, now);
        if displaced.Some? {
          assert [displaced.value] + [] == [displaced.value];
          ProcessKeeps(s, o, stored.(agg := agg), displaced.value, [], now);
        }
      }
    }
  }

  lemma {:induction false} ReceiveKeeps(s: Setup, o: Oracle, st: State, ms: seq<Parsed>, now: int)
    requires SetupOk(s) && Coherent(s, st, [])
    ensures Coherent(s, Receive(s, o, st, ms, now).state, [])
    decreases |ms|
  {
    hide SetupOk, Coherent, ReceiveOne;
    if ms != [] {
      ReceiveOneKeeps(s, o, st, ms[0], now);
      ReceiveKeeps(s, o, ReceiveOne(s, o, st, ms[0], now).state, ms[1..], now);
    }
  }

  /** Popped batches are pending. */
  lemma PoppedCoherent(s: Setup, st: State, agg: Agg.AggState, due: seq<AggregatedRequest>)
    requires Coherent(s, st, []) && Agg.Valid(agg) && agg.issued == st.agg.issued
    requires forall f: Measure :: Held(f, agg) + Sum(f, due) == Held(f, st.agg)
    ensures Coherent(s, st.(agg := agg), due)
  {
    hide Agg.Valid, Held, Moving, Sum, Persisted, Lives, InboundClaimed;
    MovingPending(ByMessage, due, st.handed, st.dropped);
    MovingPending(ByRequest, due, st.handed, st.dropped);
    Rebalance(Held(ByMessage, st.agg), Held(ByMessage, agg), Sum(ByMessage, due), multiset{},
              Moving(ByMessage, [], st.handed, st.dropped) + multiset(st.unbuilt), multiset(st.claimed));
    Rebalance(Held(ByRequest, st.agg), Held(ByRequest, agg), Sum(ByRequest, due), multiset{},
              Moving(ByRequest, [], st.handed, st.dropped), IssuedIds(s.ids, agg.issued));
  }

  lemma PopKeeps(s: Setup, st: State, now: int)
    requires Coherent(s, st, [])
    ensures var (agg, due) := Agg.FlushDueStep(s.windows, st.agg, now);
            Coherent(s, st.(agg := agg), due)
  {
    var (agg, due) := Agg.FlushDueStep(s.windows, st.agg, now);
    hide Agg.Valid, Held, Sum, Accounted, Recorded, Agg.FlushDueStep;
    forall f: Measure ensures Agg.Valid(agg) && Held(f, agg) + Sum(f, due) == Held(f, st.agg) && agg.issued == st.agg.issued {
      FlushHeld(f, s.windows, st.agg, now);
    }
    assert Agg.Valid(agg) by { FlushHeld(ByMessage, s.windows, st.agg, now); }
    PoppedCoherent(s, st, agg, due);
  }

  lemma StepKeeps(s: Setup, o: Oracle, st: State, e: Event)
    requires SetupOk(s) && Coherent(s, st, [])
    ensures Coherent(s, Step(s, o, st, e).state, [])
  {
    assert Agg.Valid(st.agg);
    hide SetupOk, Coherent, ProcessAll, Receive, CallLife;
    match e
    case Deliver(ms, now) => ReceiveKeeps(s, o, st, ms, now);
    case Tick(now) =>
      PopKeeps(s, st, now);
      var (agg, due) := Agg.FlushDueStep(s.windows, st.agg, now);
      ProcessAllKeeps(s, o, st.(agg := agg), due, now);
    case Click(action, now, outcome) => ClickKeeps(s, st, action, now, outcome);
  }

  lemma {:induction false} RunKeeps(s: Setup, o: Oracle, st: State, es: seq<Event>)
    requires SetupOk(s) && Agg.Valid(st.agg) && Coherent(s, st, [])
    ensures Coherent(s, Run(s, o, st, es).state, [])
    decreases |es|
  {
    hide SetupOk, Coherent, Step;
    if es != [] {
      StepKeeps(s, o, st, es[0]);
      StepKeepsValid(s, o, st, es[0]);
      RunKeeps(s, o, Step(s, o, st, es[0]).state, es[1..]);
    }
  }

  lemma InitialCoherent(s: Setup)
    ensures Coherent(s, INITIAL, [])
  {
    assert multiset(INITIAL.claimed) == multiset{};
  }

  /**
   Exactly once: after any interleaving of deliveries, ticks and clicks, whatever raised, a message id
   is in one place if it was claimed and in none otherwise.  The places are the open buckets, the
   batches stored by the orchestrator, and what exceptions lost.
   */
  lemma ExactlyOnce(s: Setup, o: Oracle, es: seq<Event>, id: string)
    requires SetupOk(s)
    ensures var st := Run(s, o, INITIAL, es).state;
            && Persisted(st.world.repo, st.handed)
            && Held(ByMessage, st.agg)[id] + Sum(ByMessage, st.handed)[id] + Sum(ByMessage, st.dropped)[id]
               + multiset(st.unbuilt)[id] == (if id in st.claimed then 1 else 0)
  {
    InitialCoherent(s);
    RunKeeps(s, o, INITIAL, es);
    var st := Run(s, o, INITIAL, es).state;
    assert multiset(st.claimed)[id] == if id in st.claimed then 1 else 0;
    assert Sum(ByMessage, []) == multiset{};
  }

  /** Where a message can be found: a client's open bucket, or the stored messages of a request. */
  datatype Place = Bucket(client: string) | Stored(requestId: string)

  function CountAt(st: State, place: Place, id: string): nat {
    match place
    case Bucket(c) => if c in st.agg.open then MessageIds(st.agg.open[c].messages)[id] else 0
    case Stored(r) => if r in st.world.repo.messages then MessageIds(st.world.repo.messages[r])[id] else 0
  }

  ghost predicate OnlyAt(st: State, place: Place, id: string) {
    forall p :: CountAt(st, p, id) == if p == place then 1 else 0
  }

  ghost predicate Nowhere(st: State, id: string) {
    forall p :: CountAt(st, p, id) == 0
  }

  /** A sum of at most one has at most one source. */
  lemma {:induction false} OpenSource(st: Agg.AggState, keys: seq<string>, id: string) returns (source: string)
    requires Agg.NoDup(keys) && (forall k | k in keys :: k in st.open) && SumOpen(ByMessage, st, keys)[id] <= 1
    ensures SumOpen(ByMessage, st, keys)[id] == 1 ==> source in keys
    ensures forall k | k in keys ::
              MessageIds(st.open[k].messages)[id] == if SumOpen(ByMessage, st, keys)[id] == 1 && k == source then 1 else 0
  {
    hide MessageIds;
    source := "";
    if keys != [] {
      source := OpenSource(st, keys[1..], id);
      if MessageIds(st.open[keys[0]].messages)[id] == 1 {
        source := keys[0];
      }
    }
  }

  lemma {:induction false} HandedSource(rs: seq<AggregatedRequest>, id: string) returns (source: nat)
    requires Sum(ByMessage, rs)[id] <= 1
    ensures Sum(ByMessage, rs)[id] == 1 ==> source < |rs|
    ensures forall i | 0 <= i < |rs| ::
              MessageIds(rs[i].messages)[id] == if Sum(ByMessage, rs)[id] == 1 && i == source then 1 else 0
  {
    hide MessageIds;
    source := 0;
    if rs != [] {
      var n := |rs| - 1;
      source := HandedSource(rs[..n], id);
      assert Sum(ByMessage, rs)[id] == Sum(ByMessage, rs[..n])[id] + MessageIds(rs[n].messages)[id];
      hide Sum;
      if MessageIds(rs[n].messages)[id] == 1 {
        source := n;
      }
    }
  }

  lemma BucketPlaced(st: State, id: string) returns (client: string)
    requires Agg.Valid(st.agg) && Held(ByMessage, st.agg)[id] <= 1
    ensures forall c :: CountAt(st, Bucket(c), id) == if Held(ByMessage, st.agg)[id] == 1 && c == client then 1 else 0
  {
    client := OpenSource(st.agg, st.agg.keys, id);
    hide MessageIds, SumOpen;
  }

  lemma BatchPlaced(st: State, id: string) returns (requestId: string)
    requires Persisted(st.world.repo, st.handed) && Sum(ByMessage, st.handed)[id] <= 1
    ensures forall r :: CountAt(st, Stored(r), id) == if Sum(ByMessage, st.handed)[id] == 1 && r == requestId then 1 else 0
  {
    hide MessageIds, Sum;
    var handed, messages := st.handed, st.world.repo.messages;
    var one := Sum(ByMessage, handed)[id] == 1;
    var i := HandedSource(handed, id);
    requestId := if one then handed[i].requestId else "";
    assert one ==> handed[i] in handed;
    forall r ensures CountAt(st, Stored(r), id) == if one && r == requestId then 1 else 0 {
      if r in messages {
        assert r in st.world.repo.requests;
        var h :| h in handed && h.requestId == r;
        var j :| 0 <= j < |handed| && handed[j] == h;
        assert messages[r] == handed[j].messages;
        if one && r == requestId {
          assert messages[r] == handed[i].messages;
        }
      }
    }
  }

  /** The buckets count as the aggregator holds, and the repository as what was handed over. */
  lemma Placed(st: State, id: string)
    requires Agg.Valid(st.agg) && Persisted(st.world.repo, st.handed)
    requires Held(ByMessage, st.agg)[id] + Sum(ByMessage, st.handed)[id] <= 1
    ensures if Held(ByMessage, st.agg)[id] + Sum(ByMessage, st.handed)[id] == 1
            then exists place :: OnlyAt(st, place, id) else Nowhere(st, id)
  {
    hide Agg.Valid, Persisted, Held, Sum, CountAt;
    var client := BucketPlaced(st, id);
    var requestId := BatchPlaced(st, id);
    var total := Held(ByMessage, st.agg)[id] + Sum(ByMessage, st.handed)[id];
    var place := if Held(ByMessage, st.agg)[id] == 1 then Bucket(client) else Stored(requestId);
    forall p ensures CountAt(st, p, id) == if total == 1 && p == place then 1 else 0 {
      match p
      case Bucket(c) => assert CountAt(st, Bucket(c), id) <= 1;
      case Stored(r) => assert CountAt(st, Stored(r), id) <= 1;
    }
    assert total == 1 ==> OnlyAt(st, place, id);
  }

  /** So a claimed message that no exception lost is in exactly one open bucket or the stored messages of
      exactly one request, once; any other message is in none of them. */
  lemma InOnePlace(s: Setup, o: Oracle, es: seq<Event>, id: string)
    requires SetupOk(s)
    ensures var st := Run(s, o, INITIAL, es).state;
            if id in st.claimed && id !in st.unbuilt && id !in Sum(ByMessage, st.dropped)
            then exists place :: OnlyAt(st, place, id) else Nowhere(st, id)
  {
    ExactlyOnce(s, o, es, id);
    Placed(Run(s, o, INITIAL, es).state, id);
  }

  /** No two handed-over batches, and no open bucket besides, share a request id. */
  lemma RequestIdsUnique(s: Setup, o: Oracle, es: seq<Event>, id: string)
    requires SetupOk(s)
    ensures var st := Run(s, o, INITIAL, es).state;
            Held(ByRequest, st.agg)[id] + Sum(ByRequest, st.handed)[id] + Sum(ByRequest, st.dropped)[id] <= 1
  {
    InitialCoherent(s);
    RunKeeps(s, o, INITIAL, es);
    var st := Run(s, o, INITIAL, es).state;
    IssuedOnce(s.ids, st.agg.issued, id);
    assert Sum(ByRequest, []) == multiset{};
  }

  /** Every service run is an admissible lifecycle run, so all that is proved of those holds of it. */
  lemma ServiceRunIsLifecycleRun(s: Setup, o: Oracle, es: seq<Event>)
    requires SetupOk(s)
    ensures var st := Run(s, o, INITIAL, es).state;
            && st.world == Life.After(s.lifecycle, Life.START, st.calls)
            && Safety.AdmissibleRun(s.lifecycle, Life.START, st.calls)
  {
    InitialCoherent(s);
    RunKeeps(s, o, INITIAL, es);
  }

  // ---- what is lost, and when ----

  /** A flush drops nothing exactly when every due batch before the last is handed over without an
      exception and the last one's media loads: all due buckets are popped before the first is handed over. */
  lemma {:induction false} FlushDropsNothingIff(s: Setup, o: Oracle, st: State, due: seq<AggregatedRequest>, now: int)
    ensures ProcessAll(s, o, st, due, now).state.dropped == st.dropped <==>
            due == [] || ((forall i | 0 <= i < |due| - 1 :: Succeeds(s, o, due[i])) && MediaLoads(o, due[|due| - 1]))
    decreases |due|
  {
    if due != [] {
      var st1, rest := Process(s, o, st, due[0], now), due[1..];
      DroppedGrows(s, o, st1, rest, now);
      if Succeeds(s, o, due[0]) {
        FlushDropsNothingIff(s, o, st1, rest, now);
        assert forall i | 0 < i < |due| :: due[i] == rest[i - 1];
      } else {
        assert |st1.dropped + rest| == |st1.dropped| + |rest|;
      }
    }
  }

  lemma {:induction false} DroppedGrows(s: Setup, o: Oracle, st: State, due: seq<AggregatedRequest>, now: int)
    ensures st.dropped <= ProcessAll(s, o, st, due, now).state.dropped
    decreases |due|
  {
    if due != [] {
      DroppedGrows(s, o, Process(s, o, st, due[0], now), due[1..], now);
    }
  }
}
