/** The ingestion service over live objects, proved against the steps of IngestionSpec. */
module Ingestion {
  import opened Wrappers
  import opened Domain
  import opened StorageKeys
  import Parser
  import Spec = IngestionSpec
  import Agg = AggregatorSpec
  import Life = Lifecycle
  import opened Aggregator
  import opened Orchestrator

  class InMemoryIdempotencyStore {
    var seen: set<string>

    constructor ()
      ensures seen == {}
    {
      seen := {};
    }

    /** Marks `key` seen; says whether this is its first claim. */
    method Claim(key: string) returns (first: bool)
      modifies this
      ensures first <==> key !in old(seen)
      ensures seen == old(seen) + {key}
    {
      if key in seen {
        return false;
      }
      seen := seen + {key};
      return true;
    }

    method Seen(key: string) returns (found: bool)
      ensures found <==> key in seen
    {
      found := key in seen;
    }
  }

  datatype ServiceError = InvalidSignature | InvalidPayload | Malformed | Raised

  class IngestionService {
    const setup: Spec.Setup
    const aggregator: Aggregator
    const orchestrator: Orchestrator
    const idempotency: InMemoryIdempotencyStore
    var names: map<string, string>
    var known: map<string, bool>
    ghost var state: Spec.State

    ghost function Footprint(): set<object>
      reads this, aggregator
    {
      {this, aggregator, orchestrator, orchestrator.repo, orchestrator.storage, orchestrator.outbox, idempotency}
      + aggregator.open.Values
    }

    ghost predicate Valid()
      reads this, aggregator, Footprint()
      ensures Valid() ==> Agg.Valid(state.agg)
    {
      && aggregator.Valid() && aggregator.windows == setup.windows && aggregator.idFactory == setup.ids
      && orchestrator.Valid() && orchestrator.config == setup.lifecycle
      && state.agg == aggregator.view
      && state.world == orchestrator.Current()
      && state.claimed == idempotency.seen
      && state.names == names && state.known == known
    }

    constructor (setup: Spec.Setup)
      ensures Valid() && state == Spec.INITIAL && fresh(Footprint()) && this.setup == setup
    {
      this.setup := setup;
      aggregator := new Aggregator(setup.windows, setup.ids, 0);
      orchestrator := new Orchestrator(setup.lifecycle);
      idempotency := new InMemoryIdempotencyStore();
      names, known := map[], map[];
      state := Spec.INITIAL;
    }

    /** Check the signature, decode, parse, then ingest message by message; the count of accepted ones. */
    method Receive(signatureValid: bool, payload: Option<Parser.Json>, env: Parser.Env, now: int, o: Spec.Oracle)
      returns (accepted: Result<nat, ServiceError>)
      requires Valid()
      modifies Footprint()
      ensures Valid() && fresh(Footprint() - old(Footprint()))
      ensures !signatureValid ==> accepted == Failure(InvalidSignature)
      ensures signatureValid && payload.None? ==> accepted == Failure(InvalidPayload)
      ensures signatureValid && payload.Some? ==>
                (accepted == Failure(Malformed) <==> !Parser.WellShaped(env, payload.value))
      ensures accepted in {Failure(InvalidSignature), Failure(InvalidPayload), Failure(Malformed)} ==> state == old(state)
      ensures signatureValid && payload.Some? && Parser.WellShaped(env, payload.value) ==>
                exists parsed ::
                  && Parser.Flattens(env, parsed, Parser.RawMessages(env, Parser.PayloadValues(payload.value).value))
                  && var p := Spec.Receive(setup, o, old(state), parsed.messages, now);
                     state == p.state && accepted == if p.returned then Success(p.accepted) else Failure(Raised)
    {
      hide Spec.Receive, Parser.Flattens, Parser.PayloadValues, Parser.ValueOk, Parser.RawMessages, Agg.Valid, Life.Exec;
      if !signatureValid {
        return Failure(InvalidSignature);
      }
      if payload.None? {
        return Failure(InvalidPayload);
      }
      var parsed := Parser.ParseWebhook(env, payload.value);
      if parsed.Failure? {
        return Failure(Malformed);
      }
      accepted := ReceiveMessages(parsed.value.messages, now, o);
    }

    method ReceiveMessages(messages: seq<Spec.Parsed>, now: int, o: Spec.Oracle) returns (accepted: Result<nat, ServiceError>)
      requires Valid()
      modifies Footprint()
      ensures Valid() && fresh(Footprint() - old(Footprint()))
      ensures var p := Spec.Receive(setup, o, old(state), messages, now);
              state == p.state && accepted == if p.returned then Success(p.accepted) else Failure(Raised)
    {
      hide Spec.ReceiveOne, Agg.Valid, Valid;
      ghost var whole := Spec.Receive(setup, o, state, messages, now);
      var count: nat := 0;
      assert messages[0..] == messages;
      for i := 0 to |messages|
        invariant Valid() && fresh(Footprint() - old(Footprint()))
        invariant var q := Spec.Receive(setup, o, state, messages[i..], now); whole == q.(accepted := count + q.accepted)
      {
        assert messages[i..][1..] == messages[i + 1..];
        var returned, new' := ReceiveMessage(messages[i], now, o);
        count := count + new';
        if !returned {
          return Failure(Raised);
        }
      }
      return Success(count);
    }

    /** One parsed message: claim it, remember its client, store its media, build it, add it. */
    method ReceiveMessage(m: Spec.Parsed, now: int, o: Spec.Oracle) returns (returned: bool, accepted: nat)
      requires Valid()
      modifies Footprint()
      ensures Valid() && fresh(Footprint() - old(Footprint()))
      ensures Spec.Progress(state, accepted, returned) == Spec.ReceiveOne(setup, o, old(state), m, now)
    {
      hide Spec.AddMessage, Spec.StoreMedia, Spec.Claimed, Spec.Build;
      var first := Claim(m);
      if !first {
        return true, 0;
      }
      var client := setup.resolve(m.sender).0;
      var message := BuildMessage(m, o);
      if message.Failure? {
        Forget(m.whatsappId);
        return false, 1;
      }
      returned := AddMessage(client, message.value, now, o);
      return returned, 1;
    }

    /** Claim the message's id; the first time, also remember the sender's client. */
    method Claim(m: Spec.Parsed) returns (first: bool)
      requires Valid()
      modifies this, idempotency
      ensures Valid() && first == (m.whatsappId !in old(state).claimed)
      ensures state == if first then Spec.Claimed(setup, old(state), m) else old(state)
    {
      first := idempotency.Claim(m.whatsappId);
      if !first {
        return;
      }
      var (client, name, isKnown) := setup.resolve(m.sender);
      names, known := names[client := name], known[client := isKnown];
      state := Spec.Claimed(setup, state, m);
    }

    /** History only: a claimed message that could not be built. */
    ghost method Forget(id: string)
      requires Valid()
      modifies `state
      ensures Valid() && state == old(state).(unbuilt := old(state).unbuilt + [id])
    {
      state := state.(unbuilt := state.unbuilt + [id]);
    }

    method BuildMessage(m: Spec.Parsed, o: Spec.Oracle) returns (message: Parser.Outcome<Message>)
      requires Valid()
      modifies this, orchestrator, orchestrator.storage
      ensures Valid()
      ensures state == Spec.StoreMedia(setup, old(state), m, Spec.Fetched(o, m))
      ensures message == Spec.Build(m, Spec.Fetched(o, m))
      ensures message.Success? ==> Spec.BuiltFrom(o, m, message.value)
      ensures names == old(names) && known == old(known)
    {
      hide Spec.Build;
      var fetched := Spec.Fetched(o, m);
      if fetched.Some? {
        ghost var e := Life.StoreInbound(m.whatsappId, fetched.value);
        ghost var before := orchestrator.log;
        var _ := orchestrator.Store(InboundKey(m.whatsappId), fetched.value, true);
        Life.ExecConcat(Life.START, before, Life.PlanOf(setup.lifecycle, state.world, e));
        state := Spec.CallLife(setup, state, e);
      }
      message := Spec.Build(m, fetched);
      Spec.BuildMeans(o, m);
    }

    method AddMessage(client: string, message: Message, now: int, o: Spec.Oracle) returns (returned: bool)
      requires Valid()
      modifies Footprint()
      ensures Valid() && fresh(Footprint() - old(Footprint()))
      ensures Spec.Progress(state, 1, returned) == Spec.AddMessage(setup, o, old(state), client, message, now)
    {
      hide Spec.Process, Spec.Succeeds, Agg.AddStep, Agg.Valid, Orchestrator.Valid, Life.Exec;
      var displaced := AddToBucket(client, message, now);
      returned := true;
      if displaced.Some? {
        returned := Process(displaced.value, now, o);
      }
    }

    method AddToBucket(client: string, message: Message, now: int) returns (displaced: Option<AggregatedRequest>)
      requires Valid()
      modifies this, aggregator, aggregator.open.Values
      ensures Valid() && fresh(Footprint() - old(Footprint()))
      ensures var (agg, closed) := Agg.AddStep(setup.windows, setup.ids, old(state).agg, client, message, now);
              state == old(state).(agg := agg) && displaced == closed
    {
      hide Agg.AddStep, Agg.Valid, Orchestrator.Valid, Life.Exec;
      displaced := aggregator.Add(client, message, now);
      state := state.(agg := aggregator.view);
    }

    /** Hand a closed batch to the orchestrator with its media; says whether that returned. */
    method Process(r: AggregatedRequest, now: int, o: Spec.Oracle) returns (returned: bool)
      requires Valid()
      modifies this, orchestrator, orchestrator.repo, orchestrator.storage, orchestrator.outbox
      ensures Valid() && names == old(names) && known == old(known)
      ensures state == Spec.Process(setup, o, old(state), r, now)
      ensures returned == Spec.Succeeds(setup, o, r)
    {
      hide Spec.NeedsMedia, Life.Exec, Agg.Valid;
      if Spec.NeedsMedia(r.messages) && !o.handoff(r).mediaLoads {
        state := state.(dropped := state.dropped + [r]);
        return false;
      }
      var result := HandOver(r, now, o);
      return result.Success?;
    }

    /** Call the orchestrator with the client's name and flags. */
    method HandOver(r: AggregatedRequest, now: int, o: Spec.Oracle) returns (result: Result<Request, Life.Error>)
      requires Valid()
      modifies this, orchestrator, orchestrator.repo, orchestrator.storage, orchestrator.outbox
      ensures Valid() && names == old(names) && known == old(known)
      ensures state == Spec.CallLife(setup, old(state), Spec.IngestCall(old(state), r, now, o)).(handed := old(state).handed + [r])
      ensures result.Success? == Spec.IngestReturns(setup.lifecycle, o.handoff(r).ingest)
    {
      var name := if r.clientId in names then names[r.clientId] else r.clientId;
      var flags := if r.clientId in known && !known[r.clientId] then [Spec.UNKNOWN_CLIENT_FLAG] else [];
      ghost var e := Spec.IngestCall(state, r, now, o);
      hide Life.IngestPlan, Life.Exec, Agg.Valid, Orchestrator.Valid, Spec.IngestReturns;
      result := orchestrator.Ingest(r, name, now, flags, o.handoff(r).ingest);
      state := Spec.CallLife(setup, state, e).(handed := state.handed + [r]);
      IngestResult(setup.lifecycle, r, name, now, flags, o.handoff(r).ingest);
    }

    method FlushDue(now: int, o: Spec.Oracle) returns (processed: Result<nat, ServiceError>)
      requires Valid()
      modifies Footprint()
      ensures Valid() && fresh(Footprint() - old(Footprint()))
      ensures var p := Spec.Flush(setup, o, old(state), now);
              state == p.state && processed.Success? == p.returned
      ensures processed.Success? ==> processed.value == |Agg.FlushDueStep(setup.windows, old(state).agg, now).1|
    {
      hide Spec.ProcessAll, Agg.FlushDueStep, Agg.Valid;
      var due := PopDue(now);
      var returned := ProcessEach(due, now, o);
      return if returned then Success(|due|) else Failure(Raised);
    }

    method PopDue(now: int) returns (due: seq<AggregatedRequest>)
      requires Valid()
      modifies this, aggregator
      ensures Valid() && fresh(Footprint() - old(Footprint()))
      ensures var (agg, popped) := Agg.FlushDueStep(setup.windows, old(state).agg, now);
              state == old(state).(agg := agg) && due == popped
    {
      hide Agg.FlushDueStep, Agg.Valid, Orchestrator.Valid, Life.Exec;
      due := aggregator.FlushDue(now);
      state := state.(agg := aggregator.view);
    }

    method ProcessEach(due: seq<AggregatedRequest>, now: int, o: Spec.Oracle) returns (returned: bool)
      requires Valid()
      modifies this, orchestrator, orchestrator.repo, orchestrator.storage, orchestrator.outbox
      ensures Valid()
      ensures var p := Spec.ProcessAll(setup, o, old(state), due, now); state == p.state && returned == p.returned
    {
      hide Spec.Process, Spec.Succeeds;
      for i := 0 to |due|
        invariant Valid()
        invariant Spec.ProcessAll(setup, o, old(state), due, now) == Spec.ProcessAll(setup, o, state, due[i..], now)
      {
        assert due[i..][1..] == due[i + 1..];
        returned := Process(due[i], now, o);
        if !returned {
          Drop(due[i + 1..]);
          return;
        }
      }
      return true;
    }

    /** History only: batches that were popped and will not be handed over. */
    ghost method Drop(rest: seq<AggregatedRequest>)
      requires Valid()
      modifies `state
      ensures Valid() && state == old(state).(dropped := old(state).dropped + rest)
    {
      state := state.(dropped := state.dropped + rest);
    }

    /** The owner's click, applied to the same orchestrator. */
    method Click(action: OwnerAction, now: int, outcome: Life.ActOracle) returns (result: Result<Request, Life.Error>)
      requires Valid()
      modifies this, orchestrator, orchestrator.repo, orchestrator.storage, orchestrator.outbox
      ensures Valid()
      ensures state == Spec.CallLife(setup, old(state), Life.Act(action, now, outcome))
      ensures result == Life.ActPlan(old(state).world.repo, action, now, outcome).result
    {
      hide Life.ActPlan, Life.Exec, Agg.Valid;
      result := orchestrator.ApplyOwnerAction(action, now, outcome);
      state := Spec.CallLife(setup, state, Life.Act(action, now, outcome));
    }
  }

  /** When `ingest` returns, as a function of its outcomes. */
  lemma IngestResult(cfg: Life.Config, r: AggregatedRequest, name: string, now: int, flags: seq<string>, o: Life.IngestOracle)
    ensures Life.IngestPlan(cfg, r, name, now, flags, o).result.Success? == Spec.IngestReturns(cfg, o)
  {
  }
}
