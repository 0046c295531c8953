/**
 What the service's aggregator is fed, and that the service groups each client's messages exactly as the
 greedy segmentation does, in every run.
 */
module IngestionRefinement {
  import opened Domain
  import opened IngestionSpec
  import opened IngestionDuplicates
  import Agg = AggregatorSpec
  import AggRuns = AggregatorRuns
  import AggTheorems = AggregatorTheorems
  import Life = Lifecycle

  // ---- what the aggregator sees ----

  /** The adds a body causes: the messages it reaches that are new and can be built, under the sender's client. */
  function ReceiveAdds(s: Setup, o: Oracle, st: State, ms: seq<Parsed>, now: int): seq<Agg.Event>
    decreases |ms|
  {
    if ms == [] then [] else
      var p := ReceiveOne(s, o, st, ms[0], now);
      OneAdd(s, o, st, ms[0], now) + if p.returned then ReceiveAdds(s, o, p.state, ms[1..], now) else []
  }

  function OneAdd(s: Setup, o: Oracle, st: State, m: Parsed, now: int): seq<Agg.Event> {
    var built := Build(m, Fetched(o, m));
    if m.whatsappId in st.claimed || built.Failure? then [] else [Agg.Add(s.resolve(m.sender).0, built.value, now)]
  }

  function EventAdds(s: Setup, o: Oracle, st: State, e: Event): seq<Agg.Event> {
    match e
    case Deliver(ms, now) => ReceiveAdds(s, o, st, ms, now)
    case Tick(now) => [Agg.FlushDue(now)]
    case Click(_, _, _) => []
  }

  function AggEvents(s: Setup, o: Oracle, st: State, es: seq<Event>): seq<Agg.Event>
    requires Agg.Valid(st.agg)
    decreases |es|
  {
    if es == [] then [] else
      StepKeepsValid(s, o, st, es[0]);
      EventAdds(s, o, st, es[0]) + AggEvents(s, o, Step(s, o, st, es[0]).state, es[1..])
  }

  // ---- handed over or dropped ----

  /** `all` is `a` and `b` interleaved, each in its own order. */
  ghost predicate Merges<T>(all: seq<T>, a: seq<T>, b: seq<T>)
    decreases |all|
  {
    if all == [] then a == [] && b == [] else
      var before, last := all[..|all| - 1], all[|all| - 1];
      || (a != [] && a[|a| - 1] == last && Merges(before, a[..|a| - 1], b))
      || (b != [] && b[|b| - 1] == last && Merges(before, a, b[..|b| - 1]))
  }

  lemma MergesLeft<T>(all: seq<T>, a: seq<T>, b: seq<T>, x: T)
    requires Merges(all, a, b)
    ensures Merges(all + [x], a + [x], b)
  {
    assert (all + [x])[..|all|] == all && (a + [x])[..|a|] == a;
  }

  lemma {:induction false} MergesRight<T>(all: seq<T>, a: seq<T>, b: seq<T>, more: seq<T>)
    requires Merges(all, a, b)
    ensures Merges(all + more, a, b + more)
    decreases |more|
  {
    if more == [] {
      assert all + more == all && b + more == b;
    } else {
      var n := |more| - 1;
      MergesRight(all, a, b, more[..n]);
      assert (all + more)[..|all| + n] == all + more[..n] && (b + more)[..|b| + n] == b + more[..n];
    }
  }

  lemma {:induction false} MergesNothing<T>(all: seq<T>, a: seq<T>)
    requires Merges(all, a, [])
    ensures all == a
    decreases |all|
  {
    if all != [] {
      MergesNothing(all[..|all| - 1], a[..|a| - 1]);
      assert all == all[..|all| - 1] + [all[|all| - 1]];
    }
  }

  /** The service's aggregator is one fed `evs`; what that emitted is what was handed over or dropped, in
      order, and then what is pending. */
  ghost predicate Follows(s: Setup, st: State, evs: seq<Agg.Event>, pending: seq<AggregatedRequest>) {
    var (agg, out) := Agg.Run(s.windows, s.ids, Agg.EMPTY, evs);
    st.agg == agg && exists settled :: out == settled + pending && Merges(settled, st.handed, st.dropped)
  }

  /** Taking an aggregator step leaves what it emits pending. */
  lemma AggFollows(s: Setup, st: State, evs: seq<Agg.Event>, e: Agg.Event)
    requires Agg.Valid(st.agg) && Follows(s, st, evs, [])
    ensures var (agg, out) := Agg.Step(s.windows, s.ids, st.agg, e); Follows(s, st.(agg := agg), evs + [e], out)
  {
    hide Agg.Step, Agg.Run, Merges;
    Agg.RunSnoc(s.windows, s.ids, Agg.EMPTY, evs, e);
    var settled :| Agg.Run(s.windows, s.ids, Agg.EMPTY, evs).1 == settled + [] && Merges(settled, st.handed, st.dropped);
    assert settled + [] == settled;
  }

  /** States that agree on the aggregator and the batches follow the same events. */
  lemma SameFollows(s: Setup, st: State, st': State, evs: seq<Agg.Event>, pending: seq<AggregatedRequest>)
    requires Follows(s, st, evs, pending)
    requires st'.agg == st.agg && st'.handed == st.handed && st'.dropped == st.dropped
    ensures Follows(s, st', evs, pending)
  {
  }

  /** Handing over or dropping what is pending settles it. */
  lemma SettleFollows(s: Setup, st: State, st': State, r: AggregatedRequest, rest: seq<AggregatedRequest>, evs: seq<Agg.Event>)
    requires Follows(s, st, evs, [r] + rest) && st'.agg == st.agg
    requires || (st'.handed == st.handed + [r] && st'.dropped == st.dropped)
             || (st'.handed == st.handed && st'.dropped == st.dropped + [r])
    ensures Follows(s, st', evs, rest)
  {
    hide Agg.Run, Merges;
    var out := Agg.Run(s.windows, s.ids, Agg.EMPTY, evs).1;
    var settled :| out == settled + ([r] + rest) && Merges(settled, st.handed, st.dropped);
    SplitPending(settled, r, rest);
    MergesLeft(settled, st.handed, st.dropped, r);
    MergesRight(settled, st.handed, st.dropped, [r]);
    assert Merges(settled + [r], st'.handed, st'.dropped);
  }

  lemma SplitPending<T>(settled: seq<T>, r: T, rest: seq<T>)
    ensures settled + ([r] + rest) == (settled + [r]) + rest
  {
  }

  lemma ProcessFollows(s: Setup, o: Oracle, st: State, r: AggregatedRequest, rest: seq<AggregatedRequest>, now: int, evs: seq<Agg.Event>)
    requires Follows(s, st, evs, [r] + rest)
    ensures Follows(s, Process(s, o, st, r, now), evs, rest)
  {
    hide Follows, Life.PlanOf, MediaLoads, Life.Exec;
    SettleFollows(s, st, Process(s, o, st, r, now), r, rest, evs);
  }

  lemma DropFollows(s: Setup, st: State, rest: seq<AggregatedRequest>, evs: seq<Agg.Event>)
    requires Follows(s, st, evs, rest)
    ensures Follows(s, st.(dropped := st.dropped + rest), evs, [])
  {
    hide Agg.Run, Merges;
    var out := Agg.Run(s.windows, s.ids, Agg.EMPTY, evs).1;
    var settled :| out == settled + rest && Merges(settled, st.handed, st.dropped);
    MergesRight(settled, st.handed, st.dropped, rest);
    assert out == out + [];
  }

  lemma {:induction false} ProcessAllFollows(s: Setup, o: Oracle, st: State, due: seq<AggregatedRequest>, now: int, evs: seq<Agg.Event>)
    requires Follows(s, st, evs, due)
    ensures Follows(s, ProcessAll(s, o, st, due, now).state, evs, [])
    decreases |due|
  {
    hide Process, Follows, Succeeds;
    if due == [] {
      assert due == [];
    } else {
      assert due == [due[0]] + due[1..];
      var st1 := Process(s, o, st, due[0], now);
      ProcessFollows(s, o, st, due[0], due[1..], now, evs);
      if Succeeds(s, o, due[0]) {
        ProcessAllFollows(s, o, st1, due[1..], now, evs);
      } else {
        DropFollows(s, st1, due[1..], evs);
      }
    }
  }

  lemma ReceiveOneFollows(s: Setup, o: Oracle, st: State, m: Parsed, now: int, evs: seq<Agg.Event>)
    requires Agg.Valid(st.agg) && Follows(s, st, evs, [])
    ensures Follows(s, ReceiveOne(s, o, st, m, now).state, evs + OneAdd(s, o, st, m, now), [])
  {
    assert evs + [] == evs;
    if m.whatsappId !in st.claimed {
      var stored := StoreMedia(s, Claimed(s, st, m), m, Fetched(o, m));
      var built := Build(m, Fetched(o, m));
      hide Follows, Agg.Valid, Life.PlanOf, Build;
      if built.Failure? {
        SameFollows(s, st, stored.(unbuilt := stored.unbuilt + [m.whatsappId]), evs, []);
      } else {
        SameFollows(s, st, stored, evs, []);
        AddFollows(s, o, stored, s.resolve(m.sender).0, built.value, now, evs);
      }
    }
  }

  lemma AddFollows(s: Setup, o: Oracle, st: State, client: string, m: Message, now: int, evs: seq<Agg.Event>)
    requires Agg.Valid(st.agg) && Follows(s, st, evs, [])
    ensures Follows(s, AddMessage(s, o, st, client, m, now).state, evs + [Agg.Add(client, m, now)], [])
  {
    hide Follows, Agg.Valid, Process, Agg.AddStep, Succeeds;
    var e := Agg.Add(client, m, now);
    var (agg, displaced) := Agg.AddStep(s.windows, s.ids, st.agg, client, m, now);
    assert Agg.Step(s.windows, s.ids, st.agg, e) == (agg, Agg.ToSeq(displaced));
    AggFollows(s, st, evs, e);
    if displaced.Some? {
      assert [displaced.value] + [] == [displaced.value];
      ProcessFollows(s, o, st.(agg := agg), displaced.value, [], now, evs + [e]);
    }
  }

  lemma {:induction false} ReceiveFollows(s: Setup, o: Oracle, st: State, ms: seq<Parsed>, now: int, evs: seq<Agg.Event>)
    requires Agg.Valid(st.agg) && Follows(s, st, evs, [])
    ensures Follows(s, Receive(s, o, st, ms, now).state, evs + ReceiveAdds(s, o, st, ms, now), [])
    decreases |ms|
  {
    hide ReceiveOne, OneAdd, Follows, Agg.Valid;
    if ms == [] {
      assert evs + [] == evs;
    } else {
      var m, rest := ms[0], ms[1..];
      var p, add := ReceiveOne(s, o, st, m, now), OneAdd(s, o, st, m, now);
      ReceiveOneKeepsValid(s, o, st, m, now);
      ReceiveOneFollows(s, o, st, m, now, evs);
      if p.returned {
        ReceiveFollows(s, o, p.state, rest, now, evs + add);
        assert (evs + add) + ReceiveAdds(s, o, p.state, rest, now) == evs + (add + ReceiveAdds(s, o, p.state, rest, now));
      } else {
        assert add + [] == add;
      }
    }
  }

  lemma StepFollows(s: Setup, o: Oracle, st: State, e: Event, evs: seq<Agg.Event>)
    requires Agg.Valid(st.agg) && Follows(s, st, evs, [])
    ensures Follows(s, Step(s, o, st, e).state, evs + EventAdds(s, o, st, e), [])
  {
    hide Follows, Receive, Agg.FlushDueStep, Life.PlanOf;
    match e
    case Deliver(ms, now) => ReceiveFollows(s, o, st, ms, now, evs);
    case Tick(now) =>
      var (agg, due) := Agg.FlushDueStep(s.windows, st.agg, now);
      AggFollows(s, st, evs, Agg.FlushDue(now));
      ProcessAllFollows(s, o, st.(agg := agg), due, now, evs + [Agg.FlushDue(now)]);
    case Click(action, now, outcome) =>
      SameFollows(s, st, Step(s, o, st, e).state, evs, []);
      assert evs + [] == evs;
  }

  lemma {:induction false} RunFollows(s: Setup, o: Oracle, st: State, es: seq<Event>, evs: seq<Agg.Event>)
    requires Agg.Valid(st.agg) && Follows(s, st, evs, [])
    ensures Follows(s, Run(s, o, st, es).state, evs + AggEvents(s, o, st, es), [])
    decreases |es|
  {
    hide Step, Follows, Agg.Valid, EventAdds;
    if es == [] {
      assert evs + [] == evs;
    } else {
      var e, rest := es[0], es[1..];
      StepKeepsValid(s, o, st, e);
      var st1, adds := Step(s, o, st, e).state, EventAdds(s, o, st, e);
      StepFollows(s, o, st, e, evs);
      RunFollows(s, o, st1, rest, evs + adds);
      assert (evs + adds) + AggEvents(s, o, st1, rest) == evs + (adds + AggEvents(s, o, st1, rest));
    }
  }

  // ---- the clock ----

  ghost predicate Clocked(es: seq<Event>) {
    forall i, j | 0 <= i < j < |es| :: es[i].now <= es[j].now
  }

  lemma {:induction false} ReceiveAddsNow(s: Setup, o: Oracle, st: State, ms: seq<Parsed>, now: int)
    ensures forall e | e in ReceiveAdds(s, o, st, ms, now) :: e.now == now
    decreases |ms|
  {
    hide ReceiveOne, Build;
    if ms != [] {
      ReceiveAddsNow(s, o, ReceiveOne(s, o, st, ms[0], now).state, ms[1..], now);
    }
  }

  lemma EventAddsNow(s: Setup, o: Oracle, st: State, e: Event)
    ensures forall a | a in EventAdds(s, o, st, e) :: a.now == e.now
  {
    if e.Deliver? {
      ReceiveAddsNow(s, o, st, e.messages, e.now);
    }
  }

  lemma MonotoneConcat(a: seq<Agg.Event>, b: seq<Agg.Event>, now: int)
    requires (forall e | e in a :: e.now == now) && Agg.Monotone(b) && forall e | e in b :: now <= e.now
    ensures Agg.Monotone(a + b)
  {
  }

  lemma {:induction false} AggEventsMonotone(s: Setup, o: Oracle, st: State, es: seq<Event>)
    requires Agg.Valid(st.agg) && Clocked(es)
    ensures Agg.Monotone(AggEvents(s, o, st, es))
    ensures es != [] ==> forall e | e in AggEvents(s, o, st, es) :: es[0].now <= e.now
    decreases |es|
  {
    hide EventAdds, Agg.Monotone, Step, Agg.Valid;
    if es == [] {
      MonotoneConcat([], [], 0);
      assert AggEvents(s, o, st, es) == [] + [];
    } else {
      var now, rest := es[0].now, es[1..];
      forall i, j | 0 <= i < j < |rest| ensures rest[i].now <= rest[j].now {
        assert es[i + 1].now <= es[j + 1].now;
      }
      StepKeepsValid(s, o, st, es[0]);
      var st1 := Step(s, o, st, es[0]).state;
      AggEventsMonotone(s, o, st1, rest);
      assert rest != [] ==> es[1].now == rest[0].now;
      EventAddsNow(s, o, st, es[0]);
      MonotoneConcat(EventAdds(s, o, st, es[0]), AggEvents(s, o, st1, rest), now);
    }
  }

  // ---- end to end ----

  /**
   End to end, whatever raises: under a non-decreasing clock, a client's batches (handed over or dropped,
   in the order they were closed), followed by what is still open, are the greedy segmentation of that
   client's messages that the service reached and built, at the times they first arrived.
   */
  lemma EndToEnd(s: Setup, o: Oracle, es: seq<Event>, c: string) returns (closed: seq<AggregatedRequest>)
    requires Clocked(es)
    ensures var st := Run(s, o, INITIAL, es).state;
            && Merges(closed, st.handed, st.dropped)
            && Agg.OfClient(closed, c) + Agg.OpenOf(st.agg, c)
               == AggTheorems.Reference(s.windows, s.ids, Agg.AddsOf(AggEvents(s, o, INITIAL, es)), c)
  {
    var evs := AggEvents(s, o, INITIAL, es);
    StartFollows(s);
    RunFollows(s, o, INITIAL, es, []);
    hide Step, EventAdds, Merges, Agg.Step, Run, AggEvents;
    assert [] + evs == evs;
    AggEventsMonotone(s, o, INITIAL, es);
    closed :| Agg.Run(s.windows, s.ids, Agg.EMPTY, evs).1 == closed + []
              && Merges(closed, Run(s, o, INITIAL, es).state.handed, Run(s, o, INITIAL, es).state.dropped);
    assert closed + [] == closed;
    AggTheorems.OnlineRefinesGreedy(s.windows, s.ids, evs, c);
  }

  lemma StartFollows(s: Setup)
    ensures Follows(s, INITIAL, [], [])
  {
    assert Merges<AggregatedRequest>([], [], []);
    assert [] + [] == Agg.Run(s.windows, s.ids, Agg.EMPTY, []).1;
  }

  // ---- when nothing raised ----

  /** The adds of all first deliveries, by the bodies alone. */
  function BodyAdds(s: Setup, o: Oracle, ms: seq<Parsed>, seen: set<string>, now: int): seq<Agg.Event>
    decreases |ms|
  {
    if ms == [] then []
    else if ms[0].whatsappId in seen then BodyAdds(s, o, ms[1..], seen, now)
    else
      var built := Build(ms[0], Fetched(o, ms[0]));
      (if built.Success? then [Agg.Add(s.resolve(ms[0].sender).0, built.value, now)] else [])
      + BodyAdds(s, o, ms[1..], seen + {ms[0].whatsappId}, now)
  }

  function FirstAdds(s: Setup, o: Oracle, es: seq<Event>, seen: set<string>): seq<Agg.Event>
    decreases |es|
  {
    if es == [] then [] else
      (match es[0]
       case Deliver(ms, now) => BodyAdds(s, o, ms, seen, now)
       case Tick(now) => [Agg.FlushDue(now)]
       case Click(_, _, _) => [])
      + FirstAdds(s, o, es[1..], seen + Claims(es[0]))
  }

  lemma {:induction false} BodyAddsAre(s: Setup, o: Oracle, st: State, ms: seq<Parsed>, now: int)
    requires Receive(s, o, st, ms, now).returned
    ensures ReceiveAdds(s, o, st, ms, now) == BodyAdds(s, o, ms, st.claimed, now)
    decreases |ms|
  {
    hide ReceiveOne, Build;
    if ms != [] {
      ReceiveOneClaims(s, o, st, ms[0], now);
      if ms[0].whatsappId in st.claimed {
        AlreadyClaimed(s, o, st, ms[0], now);
      }
      BodyAddsAre(s, o, ReceiveOne(s, o, st, ms[0], now).state, ms[1..], now);
    }
  }

  lemma {:induction false} FirstAddsAre(s: Setup, o: Oracle, st: State, es: seq<Event>)
    requires Agg.Valid(st.agg) && Run(s, o, st, es).returned
    ensures AggEvents(s, o, st, es) == FirstAdds(s, o, es, st.claimed)
    decreases |es|
  {
    if es != [] {
      var e := es[0];
      if e.Deliver? {
        BodyAddsAre(s, o, st, e.messages, e.now);
      }
      StepKeepsValid(s, o, st, e);
      StepClaims(s, o, st, e);
      hide Step, Agg.Valid, BodyAdds, ReceiveAdds, Claims;
      FirstAddsAre(s, o, Step(s, o, st, e).state, es[1..]);
    }
  }

  lemma ReceiveOneLosesNothing(s: Setup, o: Oracle, st: State, m: Parsed, now: int)
    ensures var p := ReceiveOne(s, o, st, m, now);
            p.returned ==> p.state.dropped == st.dropped && p.state.unbuilt == st.unbuilt
  {
    hide Agg.AddStep, Life.PlanOf, Build;
  }

  lemma {:induction false} ReceiveLosesNothing(s: Setup, o: Oracle, st: State, ms: seq<Parsed>, now: int)
    requires Receive(s, o, st, ms, now).returned
    ensures var st' := Receive(s, o, st, ms, now).state; st'.dropped == st.dropped && st'.unbuilt == st.unbuilt
    decreases |ms|
  {
    hide ReceiveOne;
    if ms != [] {
      ReceiveOneLosesNothing(s, o, st, ms[0], now);
      ReceiveLosesNothing(s, o, ReceiveOne(s, o, st, ms[0], now).state, ms[1..], now);
    }
  }

  lemma {:induction false} ProcessAllLosesNothing(s: Setup, o: Oracle, st: State, due: seq<AggregatedRequest>, now: int)
    requires ProcessAll(s, o, st, due, now).returned
    ensures var st' := ProcessAll(s, o, st, due, now).state; st'.dropped == st.dropped && st'.unbuilt == st.unbuilt
    decreases |due|
  {
    if due != [] {
      ProcessAllLosesNothing(s, o, Process(s, o, st, due[0], now), due[1..], now);
    }
  }

  lemma {:induction false} RunLosesNothing(s: Setup, o: Oracle, st: State, es: seq<Event>)
    requires Agg.Valid(st.agg) && Run(s, o, st, es).returned
    ensures var st' := Run(s, o, st, es).state; st'.dropped == st.dropped && st'.unbuilt == st.unbuilt
    decreases |es|
  {
    hide Agg.FlushDueStep;
    if es != [] {
      var e := es[0];
      StepKeepsValid(s, o, st, e);
      match e {
        case Deliver(ms, now) => ReceiveLosesNothing(s, o, st, ms, now);
        case Tick(now) =>
          var (agg, due) := Agg.FlushDueStep(s.windows, st.agg, now);
          ProcessAllLosesNothing(s, o, st.(agg := agg), due, now);
        case Click(_, _, _) =>
      }
      hide Step;
      RunLosesNothing(s, o, Step(s, o, st, e).state, es[1..]);
    }
  }

  /** When no call raised, all of this is about hand-offs and first deliveries alone. */
  lemma EndToEndUnraised(s: Setup, o: Oracle, es: seq<Event>, c: string)
    requires Clocked(es) && Run(s, o, INITIAL, es).returned
    ensures var st := Run(s, o, INITIAL, es).state;
            && Agg.OfClient(st.handed, c) + Agg.OpenOf(st.agg, c)
               == AggTheorems.Reference(s.windows, s.ids, Agg.AddsOf(FirstAdds(s, o, es, {})), c)
            && st.dropped == [] && st.unbuilt == []
  {
    hide Step;
    var closed := EndToEnd(s, o, es, c);
    RunLosesNothing(s, o, INITIAL, es);
    FirstAddsAre(s, o, INITIAL, es);
    MergesNothing(closed, Run(s, o, INITIAL, es).state.handed);
  }
}
