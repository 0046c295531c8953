/** Every message the service knows of still reads the bytes downloaded for it, and no others. */
module IngestionMedia {
  import opened Wrappers
  import opened Domain
  import opened StorageKeys
  import opened IngestionSpec
  import Runs = IngestionRuns
  import Agg = AggregatorSpec
  import Life = Lifecycle
  import Safety = LifecycleSafety

  type Store = map<string, Bytes>

  /** The message says what one of the delivered ones says, with a reference exactly when that one's media
      was downloaded, and the key it refers to still holds those bytes. */
  ghost predicate Reads(o: Oracle, from: set<Parsed>, store: Store, m: Message) {
    exists p :: p in from && BuiltFrom(o, p, m) && Holds(o, store, p)
  }

  ghost predicate Holds(o: Oracle, store: Store, p: Parsed) {
    Downloaded(o, p) ==>
      InboundKey(p.whatsappId) in store && store[InboundKey(p.whatsappId)] == o.fetch(p).value
  }

  ghost predicate AllRead(o: Oracle, from: set<Parsed>, store: Store, rs: seq<AggregatedRequest>) {
    forall r, m | r in rs && m in r.messages :: Reads(o, from, store, m)
  }

  ghost predicate OpenRead(o: Oracle, from: set<Parsed>, store: Store, agg: Agg.AggState) {
    forall k, m | k in agg.open && m in agg.open[k].messages :: Reads(o, from, store, m)
  }

  ghost predicate MediaOk(o: Oracle, from: set<Parsed>, st: State, pending: seq<AggregatedRequest>) {
    var store := st.world.store;
    OpenRead(o, from, store, st.agg) && AllRead(o, from, store, pending) && AllRead(o, from, store, st.handed) && AllRead(o, from, store, st.dropped)
  }

  ghost predicate Grows(a: Store, b: Store) {
    forall k | k in a :: k in b && b[k] == a[k]
  }

  lemma GrowsKeeps(o: Oracle, from: set<Parsed>, st: State, st': State, pending: seq<AggregatedRequest>)
    requires MediaOk(o, from, st, pending) && Grows(st.world.store, st'.world.store)
    requires st'.agg == st.agg && st'.handed == st.handed && st'.dropped == st.dropped
    ensures MediaOk(o, from, st', pending)
  {
    hide InboundKey, BuiltFrom;
    var a, b := st.world.store, st'.world.store;
    forall m | Reads(o, from, a, m) ensures Reads(o, from, b, m) {
      var p :| p in from && BuiltFrom(o, p, m) && Holds(o, a, p);
      assert Holds(o, b, p);
    }
  }

  /** An admissible call never overwrites what is stored. */
  lemma CallGrows(s: Setup, st: State, e: Life.Event)
    requires Safety.Inv(st.world) && Safety.Admissible(st.world, e)
    ensures Grows(st.world.store, CallLife(s, st, e).world.store)
  {
    hide Safety.Inv, Safety.Admissible, Life.PlanOf;
    Safety.EventLegal(s.lifecycle, st.world, e);
    forall k | k in st.world.store {
      Safety.StoreKeeps(st.world, Life.PlanOf(s.lifecycle, st.world, e), k);
    }
  }

  lemma ProcessReads(s: Setup, o: Oracle, from: set<Parsed>, st: State, r: AggregatedRequest, rest: seq<AggregatedRequest>, now: int)
    requires Runs.SetupOk(s) && Runs.Coherent(s, st, [r] + rest) && MediaOk(o, from, st, [r] + rest)
    ensures MediaOk(o, from, Process(s, o, st, r, now), rest)
  {
    hide Reads, Safety.Inv, Life.PlanOf, CallLife, InboundKey, Runs.SetupOk;
    assert AllRead(o, from, st.world.store, rest) && AllRead(o, from, st.world.store, [r]);
    if MediaLoads(o, r) {
      var e := IngestCall(st, r, now, o);
      Runs.PendingIsFresh(s, st, r, rest);
      Runs.LivesInv(s, st);
      CallGrows(s, st, e);
      Runs.CallFields(s, st, e);
      GrowsKeeps(o, from, st, CallLife(s, st, e), [r] + rest);
    }
  }

  lemma {:induction false} ProcessAllReads(s: Setup, o: Oracle, from: set<Parsed>, st: State, due: seq<AggregatedRequest>, now: int)
    requires Runs.SetupOk(s) && Runs.Coherent(s, st, due) && MediaOk(o, from, st, due)
    ensures MediaOk(o, from, ProcessAll(s, o, st, due, now).state, [])
    decreases |due|
  {
    hide Process, Runs.SetupOk, Runs.Coherent, Reads;
    if due != [] {
      assert due == [due[0]] + due[1..];
      var st1 := Process(s, o, st, due[0], now);
      ProcessReads(s, o, from, st, due[0], due[1..], now);
      Runs.ProcessKeeps(s, o, st, due[0], due[1..], now);
      if Succeeds(s, o, due[0]) {
        ProcessAllReads(s, o, from, st1, due[1..], now);
      }
    }
  }

  lemma StoredIn(s: Setup, st: State, id: string, data: Bytes)
    ensures var store := CallLife(s, st, Life.StoreInbound(id, data)).world.store;
            InboundKey(id) in store && store[InboundKey(id)] == data
  {
    var op := Life.PutObject(InboundKey(id), data);
    assert [op][1..] == [];
    assert Life.Exec(st.world, [op]) == Life.Exec(Life.Apply(st.world, op), []);
  }

  /** A message just built reads the media just stored for it. */
  lemma BuiltReads(s: Setup, o: Oracle, from: set<Parsed>, st: State, m: Parsed)
    requires Runs.SetupOk(s) && Runs.Coherent(s, st, []) && MediaOk(o, from, st, []) && m.whatsappId !in st.claimed && m in from
    ensures var stored := StoreMedia(s, Claimed(s, st, m), m, Fetched(o, m));
            var built := Build(m, Fetched(o, m));
            MediaOk(o, from, stored, []) && stored.agg == st.agg && (built.Success? ==> Reads(o, from, stored.world.store, built.value))
  {
    Runs.LivesInv(s, st);
    var fetched, claimed := Fetched(o, m), Claimed(s, st, m);
    if fetched.Some? {
      assert Safety.Admissible(st.world, Life.StoreInbound(m.whatsappId, fetched.value));
    }
    hide Safety.Inv, InboundKey, Fetched, Runs.Coherent, MediaOk, Safety.Admissible;
    GrowsKeeps(o, from, st, claimed, []);
    if fetched.Some? {
      var e := Life.StoreInbound(m.whatsappId, fetched.value);
      CallGrows(s, claimed, e);
      Runs.CallFields(s, claimed, e);
      GrowsKeeps(o, from, claimed, CallLife(s, claimed, e), []);
      StoredIn(s, claimed, m.whatsappId, fetched.value);
    }
  }

  lemma AddReads(s: Setup, o: Oracle, from: set<Parsed>, st: State, client: string, m: Message, now: int)
    requires MediaOk(o, from, st, []) && Reads(o, from, st.world.store, m)
    ensures var (agg, displaced) := Agg.AddStep(s.windows, s.ids, st.agg, client, m, now);
            MediaOk(o, from, st.(agg := agg), Agg.ToSeq(displaced))
  {
    forall order ensures Reads(o, from, st.world.store, m.(order := order)) {
    }
    hide Reads;
  }

  lemma ReceiveOneReads(s: Setup, o: Oracle, from: set<Parsed>, st: State, m: Parsed, now: int)
    requires Runs.SetupOk(s) && Runs.Coherent(s, st, []) && MediaOk(o, from, st, []) && m in from
    ensures MediaOk(o, from, ReceiveOne(s, o, st, m, now).state, [])
  {
    hide Runs.SetupOk, Runs.Coherent, Runs.CoherentBut, Process, StoreMedia, Claimed, Agg.AddStep, Reads, Build;
    if m.whatsappId !in st.claimed {
      var stored := StoreMedia(s, Claimed(s, st, m), m, Fetched(o, m));
      BuiltReads(s, o, from, st, m);
      Runs.ClaimKeeps(s, o, st, m);
      var built := Build(m, Fetched(o, m));
      if built.Success? {
        var client := s.resolve(m.sender).0;
        BuiltId(m, Fetched(o, m));
        AddReads(s, o, from, stored, client, built.value, now);
        Runs.AddKeeps(s, stored, client, built.value, now);
        var (agg, displaced) := Agg.AddStep(s.windows, s.ids, stored.agg, client, built.value, now);
        if displaced.Some? {
          assert [displaced.value] + [] == [displaced.value];
          ProcessReads(s, o, from, stored.(agg := agg), displaced.value, [], now);
        }
      }
    }
  }

  lemma BuiltId(m: Parsed, fetched: Option<Bytes>)
    ensures Build(m, fetched).Success? ==> Build(m, fetched).value.id == m.whatsappId
  {
  }

  lemma {:induction false} ReceiveReads(s: Setup, o: Oracle, from: set<Parsed>, st: State, ms: seq<Parsed>, now: int)
    requires Runs.SetupOk(s) && Runs.Coherent(s, st, []) && MediaOk(o, from, st, []) && (forall m | m in ms :: m in from)
    ensures MediaOk(o, from, Receive(s, o, st, ms, now).state, [])
    decreases |ms|
  {
    hide Runs.SetupOk, Runs.Coherent, ReceiveOne, MediaOk;
    if ms != [] {
      ReceiveOneReads(s, o, from, st, ms[0], now);
      Runs.ReceiveOneKeeps(s, o, st, ms[0], now);
      ReceiveReads(s, o, from, ReceiveOne(s, o, st, ms[0], now).state, ms[1..], now);
    }
  }

  lemma ClickReads(s: Setup, o: Oracle, from: set<Parsed>, st: State, call: Life.Event)
    requires call.Act? && Runs.Coherent(s, st, []) && MediaOk(o, from, st, [])
    ensures MediaOk(o, from, CallLife(s, st, call), [])
  {
    Runs.LivesInv(s, st);
    hide MediaOk, Safety.Inv, CallLife, Runs.Coherent;
    CallGrows(s, st, call);
    Runs.CallFields(s, st, call);
    GrowsKeeps(o, from, st, CallLife(s, st, call), []);
  }

  lemma PopReads(s: Setup, o: Oracle, from: set<Parsed>, st: State, now: int)
    requires Agg.Valid(st.agg) && MediaOk(o, from, st, [])
    ensures var (agg, due) := Agg.FlushDueStep(s.windows, st.agg, now); MediaOk(o, from, st.(agg := agg), due)
  {
    hide Reads;
  }

  /** The messages of all bodies. */
  function Delivered(es: seq<Event>): set<Parsed> {
    if es == [] then {} else MessagesOf(es[0]) + Delivered(es[1..])
  }

  function MessagesOf(e: Event): set<Parsed> {
    if e.Deliver? then set m | m in e.messages else {}
  }

  lemma StepReads(s: Setup, o: Oracle, from: set<Parsed>, st: State, e: Event)
    requires Runs.SetupOk(s) && Runs.Coherent(s, st, []) && MediaOk(o, from, st, []) && MessagesOf(e) <= from
    ensures MediaOk(o, from, Step(s, o, st, e).state, [])
  {
    assert Agg.Valid(st.agg);
    hide MediaOk, Runs.SetupOk, Runs.Coherent, ProcessAll, Receive, CallLife;
    match e
    case Deliver(ms, now) => ReceiveReads(s, o, from, st, ms, now);
    case Tick(now) =>
      PopReads(s, o, from, st, now);
      Runs.PopKeeps(s, st, now);
      var (agg, due) := Agg.FlushDueStep(s.windows, st.agg, now);
      ProcessAllReads(s, o, from, st.(agg := agg), due, now);
    case Click(action, now, outcome) => ClickReads(s, o, from, st, Life.Act(action, now, outcome));
  }

  lemma {:induction false} RunReads(s: Setup, o: Oracle, from: set<Parsed>, st: State, es: seq<Event>)
    requires Runs.SetupOk(s) && Agg.Valid(st.agg) && Runs.Coherent(s, st, []) && MediaOk(o, from, st, [])
    requires Delivered(es) <= from
    ensures MediaOk(o, from, Run(s, o, st, es).state, [])
    decreases |es|
  {
    hide Runs.SetupOk, Runs.Coherent, MediaOk, Step;
    if es != [] {
      StepReads(s, o, from, st, es[0]);
      Runs.StepKeeps(s, o, st, es[0]);
      StepKeepsValid(s, o, st, es[0]);
      RunReads(s, o, from, Step(s, o, st, es[0]).state, es[1..]);
    }
  }

  lemma InitialReads(o: Oracle, from: set<Parsed>)
    ensures MediaOk(o, from, INITIAL, [])
  {
  }

  /** In every reachable state, each message, open, handed over or dropped, is the build of a delivered
      one, refers to media exactly when that was downloaded, and finds those bytes under its own key. */
  lemma MediaAlwaysReads(s: Setup, o: Oracle, es: seq<Event>)
    requires Runs.SetupOk(s)
    ensures MediaOk(o, Delivered(es), Run(s, o, INITIAL, es).state, [])
  {
    hide Runs.SetupOk, Runs.Coherent, MediaOk, Step;
    Runs.InitialCoherent(s);
    InitialReads(o, Delivered(es));
    RunReads(s, o, Delivered(es), INITIAL, es);
  }

  /** A batch needs media from storage exactly when some delivered message's media was downloaded. */
  lemma NeedsMediaExactlyWhen(o: Oracle, ps: seq<Parsed>, ms: seq<Message>)
    requires |ps| == |ms| && forall i | 0 <= i < |ms| :: BuiltFrom(o, ps[i], ms[i])
    ensures NeedsMedia(ms) <==> exists i :: 0 <= i < |ps| && Downloaded(o, ps[i])
  {
    if i :| 0 <= i < |ps| && Downloaded(o, ps[i]) {
      assert ms[i].kind != Text && ms[i].rawRef.Some?;
    }
  }
}
