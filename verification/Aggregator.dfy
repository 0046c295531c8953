/** The aggregator over live, mutable buckets, proved against the steps of AggregatorSpec. */
module Aggregator {
  import opened Wrappers
  import opened Domain
  import opened Segmentation
  import Spec = AggregatorSpec
  import Runs = AggregatorRuns

  class OpenBucket {
    const requestId: string
    const clientId: string
    const startedAt: int
    var lastAt: int
    var messages: seq<Message>

    constructor (requestId: string, clientId: string, now: int)
      ensures Dump() == AggregatedRequest(requestId, clientId, now, now, [])
    {
      this.requestId, this.clientId := requestId, clientId;
      startedAt, lastAt, messages := now, now, [];
    }

    function Dump(): AggregatedRequest
      reads this
    {
      AggregatedRequest(requestId, clientId, startedAt, lastAt, messages)
    }
  }

  class Aggregator {
    const windows: Windows
    const idFactory: Spec.IdSource
    var keys: seq<string>                // the open dictionary's insertion order ...
    var open: map<string, OpenBucket>    // ... and the bucket under each key
    var issued: nat                      // how often the id factory was called
    ghost var view: Spec.AggState        // the abstract state

    /** The abstract state is consistent and is what the fields and the live buckets hold. */
    ghost predicate Valid()
      reads this, open.Values
    {
      && Spec.Valid(view)
      && view.keys == keys && view.issued == issued && view.open.Keys == open.Keys
      && (forall k | k in open :: open[k].Dump() == view.open[k])
    }

    /** The factory has been called `position` times before. */
    constructor (windows: Windows, idFactory: Spec.IdSource, position: nat)
      ensures Valid() && view == Spec.EMPTY.(issued := position) && fresh(open.Values)
      ensures this.windows == windows && this.idFactory == idFactory
    {
      this.windows, this.idFactory := windows, idFactory;
      keys, open, issued := [], map[], position;
      view := Spec.EMPTY.(issued := position);
    }

    predicate Active(bucket: OpenBucket, now: int)
      reads bucket
    {
      now - bucket.lastAt < windows.inactivity && now - bucket.startedAt < windows.maxDuration
    }

    method Add(clientId: string, message: Message, now: int) returns (displaced: Option<AggregatedRequest>)
      requires Valid()
      modifies this, open.Values
      ensures Valid() && fresh(open.Values - old(open.Values))
      ensures (view, displaced) == Spec.AddStep(windows, idFactory, old(view), clientId, message, now)
    {
      hide Spec.Valid, Spec.Pop, Spec.Opened, Spec.Appended;
      displaced := None;
      if clientId in open && !Active(open[clientId], now) {
        var closed := Emit(clientId);
        displaced := Some(closed);
      }
      if clientId !in open {
        Open(clientId, now);
      }
      Append(clientId, message, now);
    }

    method Open(clientId: string, now: int)
      requires Valid() && clientId !in open
      modifies this
      ensures Valid() && fresh(open.Values - old(open.Values)) && clientId in open
      ensures view == Spec.Opened(idFactory, old(view), clientId, now)
    {
      var bucket := new OpenBucket(idFactory(issued), clientId, now);
      issued := issued + 1;
      keys, open := keys + [clientId], open[clientId := bucket];
      view := Spec.Opened(idFactory, view, clientId, now);
    }

    method Append(clientId: string, message: Message, now: int)
      requires Valid() && clientId in open
      modifies this`view, open[clientId]
      ensures Valid()
      ensures view == Spec.Appended(old(view), clientId, message, now)
    {
      var bucket := open[clientId];
      assert forall k | k in open :: open[k].clientId == view.open[k].clientId == k;
      hide Spec.Valid;
      Spec.AppendedValid(view, clientId, message, now);
      bucket.messages := bucket.messages + [message.(order := |bucket.messages|)];
      bucket.lastAt := now;
      view := Spec.Appended(view, clientId, message, now);
    }

    method Emit(clientId: string) returns (request: AggregatedRequest)
      requires Valid() && clientId in open
      modifies this
      ensures Valid() && open.Values <= old(open.Values)
      ensures open.Keys == old(open).Keys - {clientId} && request == old(view).open[clientId]
      ensures view == Spec.Pop(old(view), {clientId})
    {
      request := open[clientId].Dump();
      keys, open := Spec.Without(keys, {clientId}), open - {clientId};
      view := Spec.Pop(view, {clientId});
    }

    method FlushDue(now: int) returns (emitted: seq<AggregatedRequest>)
      requires Valid()
      modifies this
      ensures Valid() && open.Values <= old(open.Values)
      ensures (view, emitted) == Spec.FlushDueStep(windows, old(view), now)
      ensures Runs.KeepsUnexpired(windows, old(view), now, view, emitted)
    {
      Runs.FlushEmitsExpired(windows, view, now);
      hide Runs.KeepsUnexpired;
      var due := DueClients(now);
      emitted := EmitEach(due);
    }

    method DueClients(now: int) returns (due: seq<string>)
      requires Valid()
      ensures due == Spec.Due(windows, view, keys, now)
    {
      ghost var st := view;
      assert forall k | k in keys :: k in st.open && k in open && Active(open[k], now) == Spec.Active(windows, st.open[k], now);
      assert keys[0..] == keys && Spec.Due(windows, st, keys[|keys|..], now) == [];
      hide Spec.Due, Spec.Valid, Valid, Active, Spec.Active;
      due := [];
      for i := 0 to |keys|
        invariant due + Spec.Due(windows, st, keys[i..], now) == Spec.Due(windows, st, keys, now)
      {
        Spec.DueScan(windows, st, keys, i, now, due);
        assert keys[i] in keys;
        if !Active(open[keys[i]], now) {
          due := due + [keys[i]];
        }
      }
    }

    method FlushAll() returns (emitted: seq<AggregatedRequest>)
      requires Valid()
      modifies this
      ensures Valid() && open.Values <= old(open.Values)
      ensures (view, emitted) == Spec.FlushAllStep(old(view))
    {
      emitted := EmitEach(keys);
    }

    /** The comprehension both flushes share: emit the listed clients one by one. */
    method EmitEach(clients: seq<string>) returns (emitted: seq<AggregatedRequest>)
      requires Valid() && Spec.NoDup(clients) && forall k | k in clients :: k in open
      modifies this
      ensures Valid() && open.Values <= old(open.Values)
      ensures view == Spec.Pop(old(view), Spec.Elems(clients))
      ensures emitted == Spec.Buckets(old(view), clients)
    {
      hide Spec.Valid, Spec.Pop;
      emitted := [];
      Spec.PopNothing(view);
      assert Spec.Elems(clients[..0]) == {};
      for i := 0 to |clients|
        invariant Valid() && open.Values <= old(open.Values)
        invariant open.Keys == old(open).Keys - Spec.Elems(clients[..i])
        invariant view == Spec.Pop(old(view), Spec.Elems(clients[..i]))
        invariant emitted == Spec.Buckets(old(view), clients[..i])
      {
        assert clients[i] in clients && clients[i] !in clients[..i];
        var request := Emit(clients[i]);
        assert clients[..i + 1] == clients[..i] + [clients[i]];
        emitted := emitted + [request];
        Spec.PopMore(old(view), clients, i);
      }
      assert clients[..|clients|] == clients;
    }

    /** The live buckets, in dictionary order: the caller shares them with the aggregator. */
    method ExportState() returns (buckets: seq<OpenBucket>)
      requires Valid()
      ensures |buckets| == |keys| && forall i | 0 <= i < |keys| :: keys[i] in open && buckets[i] == open[keys[i]]
      ensures DumpAll(buckets) == Spec.Buckets(view, keys)
    {
      buckets := [];
      for i := 0 to |keys|
        invariant |buckets| == i && forall j | 0 <= j < i :: keys[j] in open && buckets[j] == open[keys[j]]
      {
        buckets := buckets + [open[keys[i]]];
      }
      hide Spec.Valid;
      var dumps := DumpAll(buckets);
      assert forall i | 0 <= i < |keys| :: dumps[i] == Spec.Buckets(view, keys)[i];
    }

    method LoadState(buckets: seq<OpenBucket>)
      requires Valid()
      modifies this
      ensures Valid() && (forall k | k in open :: open[k] in buckets)
      ensures view == Spec.Load(DumpAll(buckets), old(issued))
    {
      hide Spec.Valid;
      keys, open := [], map[];
      view := Spec.Load([], issued);
      ghost var dumps := DumpAll(buckets);
      assert dumps[..0] == [] && dumps[..|buckets|] == dumps;
      hide Spec.Put, Spec.Load, DumpAll;
      for i := 0 to |buckets|
        invariant Valid() && issued == old(issued) && (forall k | k in open :: open[k] in buckets)
        invariant forall j | 0 <= j < |buckets| :: buckets[j].Dump() == dumps[j]
        invariant view == Spec.Load(dumps[..i], issued)
      {
        Spec.LoadMore(dumps, i, issued);
        Assign(buckets[i]);
      }
      assert DumpAll(buckets) == dumps;
    }

    /** Dictionary assignment under the bucket's own client. */
    method Assign(bucket: OpenBucket)
      requires Valid()
      modifies this
      ensures Valid() && issued == old(issued)
      ensures forall k | k in open :: open[k] == bucket || (k in old(open) && open[k] == old(open)[k])
      ensures view == Spec.Put(old(view), bucket.Dump())
    {
      Spec.PutValid(view, bucket.Dump());
      hide Spec.Valid;
      if bucket.clientId !in open {
        keys := keys + [bucket.clientId];
      }
      open := open[bucket.clientId := bucket];
      view := Spec.Put(view, bucket.Dump());
    }
  }

  /** A new aggregator on the same id source, loaded with a snapshot. */
  method Reload(windows: Windows, idFactory: Spec.IdSource, position: nat, snapshot: seq<OpenBucket>)
    returns (after: Aggregator)
    ensures after.Valid() && fresh(after) && after.view == Spec.Load(DumpAll(snapshot), position)
    ensures after.windows == windows && after.idFactory == idFactory
  {
    hide Spec.Valid, Spec.Load, DumpAll;
    ghost var dumps := DumpAll(snapshot);
    after := new Aggregator(windows, idFactory, position);
    assert DumpAll(snapshot) == dumps;
    after.LoadState(snapshot);
  }

  /** Loaded with what a running aggregator exports, it is in that one's state, and goes on as it would. */
  method Restart(before: Aggregator) returns (after: Aggregator)
    requires before.Valid()
    ensures after.Valid() && fresh(after) && after.view == before.view
    ensures after.windows == before.windows && after.idFactory == before.idFactory
  {
    ghost var st := before.view;
    assert Spec.Valid(st) && st.keys == before.keys && st.issued == before.issued;
    Runs.LoadExported(st);
    hide *;
    var snapshot := before.ExportState();
    after := Reload(before.windows, before.idFactory, before.issued, snapshot);
  }

  function DumpAll(buckets: seq<OpenBucket>): (r: seq<AggregatedRequest>)
    reads set b | b in buckets
    ensures |r| == |buckets| && forall i | 0 <= i < |r| :: r[i] == buckets[i].Dump()
  {
    if buckets == [] then [] else DumpAll(buckets[..|buckets| - 1]) + [buckets[|buckets| - 1].Dump()]
  }
}
