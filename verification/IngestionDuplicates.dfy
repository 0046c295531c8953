/**
 Duplicate deliveries: what is already claimed changes nothing, in any run; and exactly when the first
 deliveries alone decide everything.
 */
module IngestionDuplicates {
  import opened Domain
  import opened IngestionSpec
  import Agg = AggregatorSpec
  import Life = Lifecycle

  // ---- duplicates ----

  /** The messages of a body that are not in `seen` and did not occur before. */
  function FirstTimes(ms: seq<Parsed>, seen: set<string>): seq<Parsed>
    decreases |ms|
  {
    if ms == [] then []
    else if ms[0].whatsappId in seen then FirstTimes(ms[1..], seen)
    else [ms[0]] + FirstTimes(ms[1..], seen + {ms[0].whatsappId})
  }

  function IdsOf(ms: seq<Parsed>): set<string> {
    set m | m in ms :: m.whatsappId
  }

  /** A body without the messages in `seen` and its own repetitions. */
  function Unclaimed(e: Event, seen: set<string>): Event {
    if e.Deliver? then Deliver(FirstTimes(e.messages, seen), e.now) else e
  }

  function Claims(e: Event): set<string> {
    if e.Deliver? then IdsOf(e.messages) else {}
  }

  /** The run with each body stripped of what is in `seen` or was delivered before. */
  function FirstDeliveries(es: seq<Event>, seen: set<string>): seq<Event>
    decreases |es|
  {
    if es == [] then [] else [Unclaimed(es[0], seen)] + FirstDeliveries(es[1..], seen + Claims(es[0]))
  }

  /** Receiving one message claims it, raises or not, and counts it when it was not claimed before. */
  lemma ReceiveOneClaims(s: Setup, o: Oracle, st: State, m: Parsed, now: int)
    ensures var p := ReceiveOne(s, o, st, m, now);
            && p.state.claimed == st.claimed + {m.whatsappId}
            && p.accepted == if m.whatsappId in st.claimed then 0 else 1
  {
    hide Process, Life.PlanOf, Build, Agg.AddStep;
    var client := s.resolve(m.sender).0;
    var stored := StoreMedia(s, Claimed(s, st, m), m, Fetched(o, m));
    var built := Build(m, Fetched(o, m));
    if built.Success? {
      var (agg, displaced) := Agg.AddStep(s.windows, s.ids, stored.agg, client, built.value, now);
      if displaced.Some? {
        ProcessKeepsAgg(s, o, stored.(agg := agg), displaced.value, now);
      }
    }
  }

  /** One body with its duplicates removed has the same effect, accepted count and exception. */
  lemma {:induction false} DuplicatesIgnored(s: Setup, o: Oracle, st: State, ms: seq<Parsed>, now: int)
    ensures Receive(s, o, st, FirstTimes(ms, st.claimed), now) == Receive(s, o, st, ms, now)
    decreases |ms|
  {
    hide ReceiveOne;
    if ms != [] {
      var m, rest := ms[0], ms[1..];
      var p := ReceiveOne(s, o, st, m, now);
      ReceiveOneClaims(s, o, st, m, now);
      if m.whatsappId in st.claimed {
        AlreadyClaimed(s, o, st, m, now);
        DuplicatesIgnored(s, o, st, rest, now);
      } else {
        DuplicatesIgnored(s, o, p.state, rest, now);
        var firsts := FirstTimes(rest, p.state.claimed);
        assert ([m] + firsts)[1..] == firsts;
      }
    }
  }

  lemma AlreadyClaimed(s: Setup, o: Oracle, st: State, m: Parsed, now: int)
    requires m.whatsappId in st.claimed
    ensures ReceiveOne(s, o, st, m, now) == Progress(st, 0, true)
  {
  }

  /** A body claims its ids (all of them when nothing raises), and the count is the number of new ones. */
  lemma {:induction false} ReceiveClaims(s: Setup, o: Oracle, st: State, ms: seq<Parsed>, now: int)
    ensures var p := Receive(s, o, st, ms, now);
            && (p.returned ==> p.state.claimed == st.claimed + IdsOf(ms))
            && |p.state.claimed| == |st.claimed| + p.accepted
    decreases |ms|
  {
    hide ReceiveOne, IdsOf;
    if ms == [] {
      assert IdsOf(ms) == {} by { IdsOfNothing(); }
    } else {
      var p := ReceiveOne(s, o, st, ms[0], now);
      ReceiveOneClaims(s, o, st, ms[0], now);
      ReceiveClaims(s, o, p.state, ms[1..], now);
      IdsOfCons(ms);
      if ms[0].whatsappId in st.claimed {
        assert p.state.claimed == st.claimed;
      }
    }
  }

  lemma IdsOfNothing()
    ensures IdsOf([]) == {}
  {
  }

  lemma IdsOfCons(ms: seq<Parsed>)
    requires ms != []
    ensures IdsOf(ms) == {ms[0].whatsappId} + IdsOf(ms[1..])
  {
  }

  lemma StepClaims(s: Setup, o: Oracle, st: State, e: Event)
    requires Agg.Valid(st.agg)
    ensures var p := Step(s, o, st, e);
            && (p.returned ==> p.state.claimed == st.claimed + Claims(e))
            && |p.state.claimed| == |st.claimed| + p.accepted
  {
    match e
    case Deliver(ms, now) => ReceiveClaims(s, o, st, ms, now);
    case Tick(now) =>
      var (agg, due) := Agg.FlushDueStep(s.windows, st.agg, now);
      ProcessAllKeepsAgg(s, o, st.(agg := agg), due, now);
      FlushAcceptsNothing(s, o, st.(agg := agg), due, now);
    case Click(_, _, _) =>
  }

  lemma {:induction false} FlushAcceptsNothing(s: Setup, o: Oracle, st: State, due: seq<AggregatedRequest>, now: int)
    ensures ProcessAll(s, o, st, due, now).accepted == 0
    decreases |due|
  {
    hide Process;
    if due != [] {
      FlushAcceptsNothing(s, o, Process(s, o, st, due[0], now), due[1..], now);
    }
  }

  /** Every id a run delivers. */
  function DeliveredIds(es: seq<Event>): set<string> {
    if es == [] then {} else Claims(es[0]) + DeliveredIds(es[1..])
  }

  /** Over any run, the accepted counts add up to the number of ids newly claimed; when nothing raised,
      what is claimed is exactly what was delivered. */
  lemma {:induction false} AcceptedCountsDistinct(s: Setup, o: Oracle, st: State, es: seq<Event>)
    requires Agg.Valid(st.agg)
    ensures var p := Run(s, o, st, es);
            && |p.state.claimed| == |st.claimed| + p.accepted
            && (p.returned ==> p.state.claimed == st.claimed + DeliveredIds(es))
    decreases |es|
  {
    hide Step, Claims, Agg.Valid;
    if es != [] {
      StepKeepsValid(s, o, st, es[0]);
      StepClaims(s, o, st, es[0]);
      var p := Step(s, o, st, es[0]);
      AcceptedCountsDistinct(s, o, p.state, es[1..]);
      assert st.claimed + Claims(es[0]) + DeliveredIds(es[1..]) == st.claimed + DeliveredIds(es);
    }
  }

  /** From the start, the accepted counts are the number of distinct ids delivered exactly when every
      delivered id was claimed, as it is when nothing raised: only what an exception skipped is missing. */
  lemma AcceptedFromStart(s: Setup, o: Oracle, es: seq<Event>)
    ensures var p := Run(s, o, INITIAL, es);
            && p.accepted == |p.state.claimed| <= |DeliveredIds(es)|
            && (p.accepted == |DeliveredIds(es)| <==> DeliveredIds(es) <= p.state.claimed)
            && (p.returned ==> DeliveredIds(es) <= p.state.claimed)
  {
    hide Step;
    var p := Run(s, o, INITIAL, es);
    AcceptedCountsDistinct(s, o, INITIAL, es);
    RunGrows(s, o, INITIAL, es);
    assert INITIAL.claimed + DeliveredIds(es) == DeliveredIds(es);
    SubsetCount(p.state.claimed, DeliveredIds(es));
  }

  lemma SubsetCount(a: set<string>, b: set<string>)
    requires a <= b
    ensures |a| <= |b| && (|a| == |b| <==> b <= a)
  {
    assert b == a + (b - a);
  }

  lemma StepIgnoresDuplicates(s: Setup, o: Oracle, st: State, e: Event)
    requires Agg.Valid(st.agg)
    ensures Step(s, o, st, Unclaimed(e, st.claimed)) == Step(s, o, st, e)
  {
    if e.Deliver? {
      DuplicatesIgnored(s, o, st, e.messages, e.now);
    }
  }

  /** The run with each body stripped of what is already claimed when it arrives. */
  function Deduplicated(s: Setup, o: Oracle, st: State, es: seq<Event>): seq<Event>
    requires Agg.Valid(st.agg)
    decreases |es|
  {
    if es == [] then [] else
      StepKeepsValid(s, o, st, es[0]);
      [Unclaimed(es[0], st.claimed)] + Deduplicated(s, o, Step(s, o, st, es[0]).state, es[1..])
  }

  lemma RunCons(s: Setup, o: Oracle, st: State, e: Event, rest: seq<Event>)
    requires Agg.Valid(st.agg)
    ensures Agg.Valid(Step(s, o, st, e).state.agg)
    ensures var p := Step(s, o, st, e);
            var q := Run(s, o, p.state, rest);
            Run(s, o, st, [e] + rest) == Progress(q.state, p.accepted + q.accepted, p.returned && q.returned)
  {
    StepKeepsValid(s, o, st, e);
    assert ([e] + rest)[1..] == rest;
  }

  /** Whatever raises, a run equals the run without what was already claimed when it arrived: same
      aggregator, repository, storage, outbox, hand-offs, losses, accepted count and exceptions. */
  lemma {:induction false} DuplicateDeliveriesIrrelevant(s: Setup, o: Oracle, st: State, es: seq<Event>)
    requires Agg.Valid(st.agg)
    ensures Run(s, o, st, Deduplicated(s, o, st, es)) == Run(s, o, st, es)
    decreases |es|
  {
    hide Step, Unclaimed, Agg.Valid;
    if es != [] {
      var e, rest := es[0], es[1..];
      StepKeepsValid(s, o, st, e);
      StepIgnoresDuplicates(s, o, st, e);
      DuplicateDeliveriesIrrelevant(s, o, Step(s, o, st, e).state, rest);
      RunCons(s, o, st, Unclaimed(e, st.claimed), Deduplicated(s, o, Step(s, o, st, e).state, rest));
    }
  }

  // ---- when first deliveries alone decide ----

  /** No call claims an id in `seen` or delivered by an earlier call, unless it is claimed already: an id
      that an exception skipped is not claimed later. */
  ghost predicate SkippedStayOut(s: Setup, o: Oracle, st: State, es: seq<Event>, seen: set<string>)
    requires Agg.Valid(st.agg)
    decreases |es|
  {
    es == [] ||
    (StepKeepsValid(s, o, st, es[0]);
     var st' := Step(s, o, st, es[0]).state;
     st'.claimed * seen <= st.claimed && SkippedStayOut(s, o, st', es[1..], seen + Claims(es[0])))
  }

  lemma {:induction false} ReceiveGrows(s: Setup, o: Oracle, st: State, ms: seq<Parsed>, now: int)
    ensures st.claimed <= Receive(s, o, st, ms, now).state.claimed <= st.claimed + IdsOf(ms)
    decreases |ms|
  {
    hide ReceiveOne, IdsOf;
    if ms != [] {
      ReceiveOneClaims(s, o, st, ms[0], now);
      IdsOfCons(ms);
      ReceiveGrows(s, o, ReceiveOne(s, o, st, ms[0], now).state, ms[1..], now);
    }
  }

  /** Leaving out ids the body does not newly claim changes nothing: it raised before reaching them. */
  lemma {:induction false} UnreachedIgnored(s: Setup, o: Oracle, st: State, ms: seq<Parsed>, seen: set<string>, now: int)
    requires Receive(s, o, st, ms, now).state.claimed * seen <= st.claimed
    ensures Receive(s, o, st, FirstTimes(ms, seen), now) == Receive(s, o, st, ms, now)
    decreases |ms|
  {
    hide ReceiveOne;
    if ms != [] {
      var m, rest := ms[0], ms[1..];
      var p := ReceiveOne(s, o, st, m, now);
      ReceiveOneClaims(s, o, st, m, now);
      if p.returned {
        ReceiveGrows(s, o, p.state, rest, now);
      }
      if m.whatsappId in seen {
        assert m.whatsappId in p.state.claimed;
        AlreadyClaimed(s, o, st, m, now);
        UnreachedIgnored(s, o, st, rest, seen, now);
      } else {
        var firsts := FirstTimes(rest, seen + {m.whatsappId});
        assert ([m] + firsts)[1..] == firsts;
        if p.returned {
          UnreachedIgnored(s, o, p.state, rest, seen + {m.whatsappId}, now);
        }
      }
    }
  }

  lemma StepGrows(s: Setup, o: Oracle, st: State, e: Event)
    requires Agg.Valid(st.agg)
    ensures st.claimed <= Step(s, o, st, e).state.claimed <= st.claimed + Claims(e)
  {
    match e
    case Deliver(ms, now) => ReceiveGrows(s, o, st, ms, now);
    case Tick(now) =>
      var (agg, due) := Agg.FlushDueStep(s.windows, st.agg, now);
      ProcessAllKeepsAgg(s, o, st.(agg := agg), due, now);
    case Click(_, _, _) =>
  }

  lemma {:induction false} RunGrows(s: Setup, o: Oracle, st: State, es: seq<Event>)
    requires Agg.Valid(st.agg)
    ensures st.claimed <= Run(s, o, st, es).state.claimed <= st.claimed + DeliveredIds(es)
    decreases |es|
  {
    hide Step, Claims, Agg.Valid;
    if es != [] {
      StepKeepsValid(s, o, st, es[0]);
      StepGrows(s, o, st, es[0]);
      RunGrows(s, o, Step(s, o, st, es[0]).state, es[1..]);
    }
  }

  lemma {:induction false} FirstTimesIds(ms: seq<Parsed>, seen: set<string>)
    ensures IdsOf(FirstTimes(ms, seen)) == IdsOf(ms) - seen
    decreases |ms|
  {
    hide IdsOf;
    if ms == [] {
      IdsOfNothing();
    } else {
      IdsOfCons(ms);
      if ms[0].whatsappId in seen {
        FirstTimesIds(ms[1..], seen);
      } else {
        var firsts := FirstTimes(ms[1..], seen + {ms[0].whatsappId});
        FirstTimesIds(ms[1..], seen + {ms[0].whatsappId});
        IdsOfCons([ms[0]] + firsts);
        assert ([ms[0]] + firsts)[1..] == firsts;
      }
    }
  }

  lemma {:induction false} FirstDeliveriesIds(es: seq<Event>, seen: set<string>)
    ensures DeliveredIds(FirstDeliveries(es, seen)) !! seen
    decreases |es|
  {
    if es != [] {
      var first, rest := Unclaimed(es[0], seen), FirstDeliveries(es[1..], seen + Claims(es[0]));
      FirstDeliveriesIds(es[1..], seen + Claims(es[0]));
      assert ([first] + rest)[1..] == rest;
      if es[0].Deliver? {
        FirstTimesIds(es[0].messages, seen);
      }
    }
  }

  lemma StepUnreached(s: Setup, o: Oracle, st: State, e: Event, seen: set<string>)
    requires Agg.Valid(st.agg) && Step(s, o, st, e).state.claimed * seen <= st.claimed
    ensures Step(s, o, st, Unclaimed(e, seen)) == Step(s, o, st, e)
  {
    if e.Deliver? {
      UnreachedIgnored(s, o, st, e.messages, seen, e.now);
    }
  }

  /**
   A run equals the run of first deliveries, in everything, exactly when no id that an exception skipped
   is claimed by a later delivery; where they differ, they differ in what is claimed.
   */
  lemma {:induction false} FirstDeliveriesDecideIff(s: Setup, o: Oracle, st: State, es: seq<Event>, seen: set<string>)
    requires Agg.Valid(st.agg)
    ensures Run(s, o, st, FirstDeliveries(es, seen)) == Run(s, o, st, es) <==> SkippedStayOut(s, o, st, es, seen)
    ensures !SkippedStayOut(s, o, st, es, seen) ==>
              Run(s, o, st, FirstDeliveries(es, seen)).state.claimed != Run(s, o, st, es).state.claimed
    decreases |es|
  {
    hide Step, Claims, Unclaimed, Agg.Valid;
    if es != [] {
      var e, rest := es[0], es[1..];
      var firsts := FirstDeliveries(rest, seen + Claims(e));
      StepKeepsValid(s, o, st, e);
      var p := Step(s, o, st, e);
      if p.state.claimed * seen <= st.claimed {
        StepUnreached(s, o, st, e, seen);
        RunCons(s, o, st, Unclaimed(e, seen), firsts);
        FirstDeliveriesDecideIff(s, o, p.state, rest, seen + Claims(e));
      } else {
        RunGrows(s, o, p.state, rest);
        RunGrows(s, o, st, FirstDeliveries(es, seen));
        FirstDeliveriesIds(es, seen);
      }
    }
  }

  /** When nothing raised, nothing was skipped. */
  lemma {:induction false} ReturnedSkipsNothing(s: Setup, o: Oracle, st: State, es: seq<Event>)
    requires Agg.Valid(st.agg) && Run(s, o, st, es).returned
    ensures SkippedStayOut(s, o, st, es, st.claimed)
    decreases |es|
  {
    hide Step, Claims, Agg.Valid;
    if es != [] {
      StepKeepsValid(s, o, st, es[0]);
      StepClaims(s, o, st, es[0]);
      ReturnedSkipsNothing(s, o, Step(s, o, st, es[0]).state, es[1..]);
    }
  }

  /** So a run in which no call raises equals the run of first deliveries. */
  lemma UnraisedFirstDeliveries(s: Setup, o: Oracle, st: State, es: seq<Event>)
    requires Agg.Valid(st.agg) && Run(s, o, st, es).returned
    ensures Run(s, o, st, FirstDeliveries(es, st.claimed)) == Run(s, o, st, es)
  {
    ReturnedSkipsNothing(s, o, st, es);
    FirstDeliveriesDecideIff(s, o, st, es, st.claimed);
  }

  /** The proviso is needed: a message whose caption is no string raises, and the redelivery of the same
      body then claims the message after it, which the first deliveries alone never do. */
  lemma RedeliveryAfterFailure(s: Setup, o: Oracle, bad: Parsed, good: Parsed)
    requires bad.caption != Parser.Null && !bad.caption.Str? && good.whatsappId != bad.whatsappId
    ensures var es := [Deliver([bad, good], 0), Deliver([bad, good], 1)];
            && good.whatsappId in Run(s, o, INITIAL, es).state.claimed
            && good.whatsappId !in Run(s, o, INITIAL, FirstDeliveries(es, {})).state.claimed
  {
    var body := [bad, good];
    var e0, e1 := Deliver(body, 0), Deliver(body, 1);
    var es := [e0, e1];
    FailingBody(s, o, INITIAL, bad, good, 0);
    var st1 := Receive(s, o, INITIAL, body, 0).state;
    ReceiveKeepsValid(s, o, INITIAL, body, 0);
    RetriedBody(s, o, st1, bad, good, 1);
    hide Receive, ReceiveOne, Agg.Valid;
    assert es[1..] == [e1] && [e1][1..] == [];
    RunOne(s, o, st1, e1);
    assert Step(s, o, INITIAL, e0).state == st1;
    RunCons(s, o, INITIAL, e0, [e1]);
    assert [e0] + [e1] == es;
    FirstOfTwo(s, o, bad, good);
  }

  lemma RunOne(s: Setup, o: Oracle, st: State, e: Event)
    requires Agg.Valid(st.agg)
    ensures Run(s, o, st, [e]).state == Step(s, o, st, e).state
  {
    RunCons(s, o, st, e, []);
    assert [e] + [] == [e];
  }

  /** The body raises at its first message. */
  lemma FailingBody(s: Setup, o: Oracle, st: State, bad: Parsed, good: Parsed, now: int)
    requires bad.caption != Parser.Null && !bad.caption.Str? && bad.whatsappId !in st.claimed
    ensures var p := Receive(s, o, st, [bad, good], now);
            !p.returned && p.state.claimed == st.claimed + {bad.whatsappId}
  {
    ReceiveOneClaims(s, o, st, bad, now);
    assert Build(bad, Fetched(o, bad)).Failure?;
  }

  lemma RetriedBody(s: Setup, o: Oracle, st: State, bad: Parsed, good: Parsed, now: int)
    requires bad.whatsappId in st.claimed
    ensures good.whatsappId in Receive(s, o, st, [bad, good], now).state.claimed
  {
    hide ReceiveOne;
    AlreadyClaimed(s, o, st, bad, now);
    ReceiveOneClaims(s, o, st, good, now);
    assert [bad, good][1..] == [good];
    var p := ReceiveOne(s, o, st, good, now);
    if p.returned {
      ReceiveGrows(s, o, p.state, [good][1..], now);
    }
  }

  lemma FirstOfTwo(s: Setup, o: Oracle, bad: Parsed, good: Parsed)
    requires bad.caption != Parser.Null && !bad.caption.Str? && good.whatsappId != bad.whatsappId
    ensures var es := [Deliver([bad, good], 0), Deliver([bad, good], 1)];
            good.whatsappId !in Run(s, o, INITIAL, FirstDeliveries(es, {})).state.claimed
  {
    var body := [bad, good];
    var e0, e1 := Deliver(body, 0), Deliver(body, 1);
    var es := [e0, e1];
    DuplicatesIgnored(s, o, INITIAL, body, 0);
    FailingBody(s, o, INITIAL, bad, good, 0);
    var st1 := Receive(s, o, INITIAL, body, 0).state;
    ReceiveKeepsValid(s, o, INITIAL, body, 0);
    hide Receive, ReceiveOne, Agg.Valid, FirstTimes;
    FirstDeliveriesIds(es[1..], {} + Claims(e0));
    var later := FirstDeliveries(es[1..], {} + Claims(e0));
    assert Step(s, o, INITIAL, Unclaimed(e0, {})).state == st1;
    RunCons(s, o, INITIAL, Unclaimed(e0, {}), later);
    RunGrows(s, o, st1, later);
    assert body[1] in body && good.whatsappId in Claims(e0);
  }
}
