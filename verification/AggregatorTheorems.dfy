/** Online aggregation refines greedy segmentation, whatever the interleaving of adds and flushes. */
module AggregatorTheorems {
  import opened Domain
  import opened Segmentation
  import opened AggregatorSpec

  // ---- the reference: a pure function of the added messages alone ----

  datatype Arrival = Arrival(message: Message, ticket: nat)

  /** Client `c`'s arrivals; the ticket is how many ids were issued before the arrival. */
  function Stream(w: Windows, adds: seq<Event>, c: string): seq<Timed<Arrival>>
    decreases |adds|, 0
  {
    if adds == [] then [] else
      var before, e := adds[..|adds| - 1], adds[|adds| - 1];
      Stream(w, before, c) +
      if e.Add? && e.client == c then [Timed(Arrival(e.message, Tickets(w, before)), e.now)] else []
  }

  /** One id is issued for every segment any client opens. */
  function Tickets(w: Windows, adds: seq<Event>): nat
    decreases |adds|, 1
  {
    if adds == [] then 0 else
      var before, e := adds[..|adds| - 1], adds[|adds| - 1];
      Tickets(w, before) + if e.Add? && Opens(w, Stream(w, before, e.client), e.now) then 1 else 0
  }

  predicate Opens(w: Windows, s: seq<Timed<Arrival>>, now: int) {
    var segs := Segments(w, s);
    segs == [] || !JoinsSegment(w, segs[|segs| - 1], now)
  }

  /** A segment as a request: numbered from 0 in arrival order, carrying the id its first arrival was issued. */
  function ToRequest(ids: IdSource, c: string, seg: seq<Timed<Arrival>>): AggregatedRequest
    requires seg != []
  {
    AggregatedRequest(ids(seg[0].item.ticket), c, seg[0].at, seg[|seg| - 1].at,
                      seq(|seg|, i requires 0 <= i < |seg| => seg[i].item.message.(order := i)))
  }

  function ToRequests(ids: IdSource, c: string, segs: seq<seq<Timed<Arrival>>>): seq<AggregatedRequest>
    requires forall i | 0 <= i < |segs| :: segs[i] != []
  {
    seq(|segs|, i requires 0 <= i < |segs| => ToRequest(ids, c, segs[i]))
  }

  function Reference(w: Windows, ids: IdSource, adds: seq<Event>, c: string): seq<AggregatedRequest> {
    ToRequests(ids, c, Segments(w, Stream(w, adds, c)))
  }

  // ---- bookkeeping ----

  lemma {:induction false} OfClientConcat(a: seq<AggregatedRequest>, b: seq<AggregatedRequest>, c: string)
    ensures OfClient(a + b, c) == OfClient(a, c) + OfClient(b, c)
  {
    if a == [] {
      assert a + b == b;
    } else {
      OfClientConcat(a[1..], b, c);
      assert (a + b)[0] == a[0] && (a + b)[1..] == a[1..] + b;
      var head := if a[0].clientId == c then [a[0]] else [];
      assert head + (OfClient(a[1..], c) + OfClient(b, c)) == (head + OfClient(a[1..], c)) + OfClient(b, c);
    }
  }

  /** A flush emits client `c`'s bucket at most once, and exactly when it is no longer active. */
  lemma {:induction false} FlushOfClient(w: Windows, st: AggState, keys: seq<string>, now: int, c: string)
    requires NoDup(keys) && forall k | k in keys :: k in st.open && st.open[k].clientId == k
    ensures OfClient(Buckets(st, Due(w, st, keys, now)), c) ==
            if c in keys && !Active(w, st.open[c], now) then [st.open[c]] else []
  {
    if keys != [] {
      FlushOfClient(w, st, keys[1..], now, c);
      var due, rest := Due(w, st, keys, now), Due(w, st, keys[1..], now);
      assert c in keys <==> c == keys[0] || c in keys[1..];
      if due != rest {
        assert Buckets(st, due)[1..] == Buckets(st, rest);
      }
    }
  }

  lemma MonotonePrefix(es: seq<Event>)
    requires Monotone(es) && es != []
    ensures Monotone(es[..|es| - 1])
    ensures |es| > 1 ==> es[|es| - 2].now <= es[|es| - 1].now
  {
  }

  lemma {:induction false} AddsStream(w: Windows, adds: seq<Event>, e: Event, c: string)
    ensures Stream(w, adds + [e], c) == Stream(w, adds, c) +
            if e.Add? && e.client == c then [Timed(Arrival(e.message, Tickets(w, adds)), e.now)] else []
    ensures Tickets(w, adds + [e]) == Tickets(w, adds) +
            if e.Add? && Opens(w, Stream(w, adds, e.client), e.now) then 1 else 0
  {
    assert (adds + [e])[..|adds|] == adds;
  }

  /** Appending to the last bucket, or opening one, mirrors extending the segmentation. */
  lemma ExtendRequests(w: Windows, ids: IdSource, c: string, segs: seq<seq<Timed<Arrival>>>, x: Timed<Arrival>)
    requires forall i | 0 <= i < |segs| :: segs[i] != []
    ensures var rs, rs' := ToRequests(ids, c, segs), ToRequests(ids, c, Extend(w, segs, x));
            if segs != [] && JoinsSegment(w, segs[|segs| - 1], x.at) then
              rs' == rs[..|rs| - 1] + [Append(rs[|rs| - 1], x.item.message, x.at)]
            else
              rs' == rs + [Append(AggregatedRequest(ids(x.item.ticket), c, x.at, x.at, []), x.item.message, x.at)]
  {
    var rs, rs' := ToRequests(ids, c, segs), ToRequests(ids, c, Extend(w, segs, x));
    if segs != [] && JoinsSegment(w, segs[|segs| - 1], x.at) {
      var seg := segs[|segs| - 1];
      assert ToRequest(ids, c, seg + [x]) == Append(ToRequest(ids, c, seg), x.item.message, x.at);
    } else {
      assert ToRequest(ids, c, [x]) ==
        Append(AggregatedRequest(ids(x.item.ticket), c, x.at, x.at, []), x.item.message, x.at);
    }
  }

  // ---- the refinement ----

  /** Nothing can join the last segment at time `now`. */
  ghost predicate Closed(w: Windows, segs: seq<seq<Timed<Arrival>>>, now: int)
    requires forall i | 0 <= i < |segs| :: segs[i] != []
  {
    segs == [] || !JoinsSegment(w, segs[|segs| - 1], now)
  }

  /** How the run so far relates to the reference for `c`: equal history, and a client without an
      open bucket has a closed last segment. */
  ghost predicate Tracks(w: Windows, ids: IdSource, st: AggState, out: seq<AggregatedRequest>,
                         adds: seq<Event>, clock: int, c: string)
  {
    && OfClient(out, c) + OpenOf(st, c) == Reference(w, ids, adds, c)
    && (c !in st.open ==> Closed(w, Segments(w, Stream(w, adds, c)), clock))
  }

  lemma TrackedActive(w: Windows, ids: IdSource, st: AggState, out: seq<AggregatedRequest>,
                      adds: seq<Event>, clock: int, c: string, now: int)
    requires Tracks(w, ids, st, out, adds, clock, c) && c in st.open
    ensures Active(w, st.open[c], now) <==> !Closed(w, Segments(w, Stream(w, adds, c)), now)
  {
    var segs := Segments(w, Stream(w, adds, c));
    var h := OfClient(out, c) + OpenOf(st, c);
    assert h[|h| - 1] == st.open[c];
    assert h[|h| - 1] == ToRequest(ids, c, segs[|segs| - 1]);
  }

  lemma ClosedLater(w: Windows, segs: seq<seq<Timed<Arrival>>>, clock: int, now: int)
    requires (forall i | 0 <= i < |segs| :: segs[i] != []) && clock <= now && Closed(w, segs, clock)
    ensures Closed(w, segs, now)
  {
  }

  lemma FlushTracks(w: Windows, ids: IdSource, st: AggState, out: seq<AggregatedRequest>,
                    adds: seq<Event>, clock: int, now: int, c: string)
    requires Valid(st) && clock <= now && Tracks(w, ids, st, out, adds, clock, c)
    ensures var (st', due) := Step(w, ids, st, FlushDue(now));
            && st'.issued == st.issued
            && Tracks(w, ids, st', out + due, adds, now, c)
  {
    var (st', due) := Step(w, ids, st, FlushDue(now));
    OfClientConcat(out, due, c);
    FlushOfClient(w, st, st.keys, now, c);
    if c in st.open {
      TrackedActive(w, ids, st, out, adds, clock, c, now);
    } else {
      ClosedLater(w, Segments(w, Stream(w, adds, c)), clock, now);
    }
    hide Reference, Segments, Stream, Closed, Active;
  }

  lemma OtherClientUnaffected(w: Windows, ids: IdSource, st: AggState, e: Event, c: string)
    requires Valid(st) && e.Add? && e.client != c
    ensures var (st', out) := Step(w, ids, st, e);
            OpenOf(st', c) == OpenOf(st, c) && OfClient(out, c) == []
  {
  }

  lemma AddTracksOther(w: Windows, ids: IdSource, st: AggState, out: seq<AggregatedRequest>,
                       adds: seq<Event>, clock: int, e: Event, c: string)
    requires Valid(st) && e.Add? && clock <= e.now && c != e.client
    requires Tracks(w, ids, st, out, adds, clock, c)
    ensures var (st', displaced) := Step(w, ids, st, e);
            Tracks(w, ids, st', out + displaced, adds + [e], e.now, c)
  {
    hide Step;
    OtherClientUnaffected(w, ids, st, e, c);
    OfClientConcat(out, Step(w, ids, st, e).1, c);
    AddsStream(w, adds, e, c);
    assert Stream(w, adds + [e], c) == Stream(w, adds, c);
  }

  /** What adding for `c` leaves open and displaces, whichever branch it takes. */
  lemma AddStepMeans(w: Windows, ids: IdSource, st: AggState, c: string, m: Message, now: int)
    requires Valid(st)
    ensures var (st', displaced) := Step(w, ids, st, Add(c, m, now));
            var stays := c in st.open && Active(w, st.open[c], now);
            var bucket := if stays then st.open[c] else AggregatedRequest(ids(st.issued), c, now, now, []);
            && OpenOf(st', c) == [Append(bucket, m, now)]
            && OfClient(displaced, c) == (if stays then [] else OpenOf(st, c))
            && st'.issued == st.issued + if stays then 0 else 1
  {
  }

  /** The reference gains the same bucket, whether `bucket` is its last request or a new one. */
  lemma ReferenceGains(w: Windows, ids: IdSource, adds: seq<Event>, e: Event,
                       mine: seq<AggregatedRequest>, bucket: AggregatedRequest)
    requires e.Add?
    requires var c := e.client; var segs := Segments(w, Stream(w, adds, c));
             if Closed(w, segs, e.now) then
               && mine == Reference(w, ids, adds, c)
               && bucket == AggregatedRequest(ids(Tickets(w, adds)), c, e.now, e.now, [])
             else mine + [bucket] == Reference(w, ids, adds, c)
    ensures mine + [Append(bucket, e.message, e.now)] == Reference(w, ids, adds + [e], e.client)
  {
    var c := e.client;
    AddsStream(w, adds, e, c);
    var segs := Segments(w, Stream(w, adds, c));
    var x := Timed(Arrival(e.message, Tickets(w, adds)), e.now);
    SegmentsAppend(w, Stream(w, adds, c), x);
    ExtendRequests(w, ids, c, segs, x);
    if !Closed(w, segs, e.now) {
      assert (mine + [bucket])[..|mine|] == mine;
    }
  }

  lemma AddTracksSame(w: Windows, ids: IdSource, st: AggState, out: seq<AggregatedRequest>,
                      adds: seq<Event>, clock: int, e: Event)
    requires Valid(st) && e.Add? && clock <= e.now
    requires Tracks(w, ids, st, out, adds, clock, e.client)
    requires st.issued == Tickets(w, adds)
    ensures var (st', displaced) := Step(w, ids, st, e);
            && Tracks(w, ids, st', out + displaced, adds + [e], e.now, e.client)
            && st'.issued == Tickets(w, adds + [e])
  {
    hide Step;
    var c := e.client;
    var stays := c in st.open && Active(w, st.open[c], e.now);
    var bucket := if stays then st.open[c] else AggregatedRequest(ids(st.issued), c, e.now, e.now, []);
    var displaced := Step(w, ids, st, e).1;
    AddStepMeans(w, ids, st, c, e.message, e.now);
    OfClientConcat(out, displaced, c);
    AddsStream(w, adds, e, c);
    if c in st.open {
      TrackedActive(w, ids, st, out, adds, clock, c, e.now);
    }
    ReferenceGains(w, ids, adds, e, OfClient(out, c) + if stays then [] else OpenOf(st, c), bucket);
  }

  ghost predicate RunTracked(w: Windows, ids: IdSource, es: seq<Event>, clock: int, c: string) {
    var (st, out) := Run(w, ids, EMPTY, es);
    st.issued == Tickets(w, AddsOf(es)) && Tracks(w, ids, st, out, AddsOf(es), clock, c)
  }

  lemma StepTracked(w: Windows, ids: IdSource, es: seq<Event>, clock: int, e: Event, c: string)
    requires clock <= e.now && RunTracked(w, ids, es, clock, c)
    requires e.Add? ==> RunTracked(w, ids, es, clock, e.client)
    ensures RunTracked(w, ids, es + [e], e.now, c)
  {
    hide Step, Tracks;
    var (st, out) := Run(w, ids, EMPTY, es);
    RunSnoc(w, ids, EMPTY, es, e);
    assert (es + [e])[..|es|] == es;
    match e
    case Add(client, _, _) =>
      AddTracksSame(w, ids, st, out, AddsOf(es), clock, e);
      if c != client {
        AddTracksOther(w, ids, st, out, AddsOf(es), clock, e, c);
      }
    case FlushDue(now) =>
      FlushTracks(w, ids, st, out, AddsOf(es), clock, now, c);
      assert AddsOf(es + [e]) == AddsOf(es);
  }

  lemma StartTracked(w: Windows, ids: IdSource, now: int, c: string)
    ensures RunTracked(w, ids, [], now, c)
  {
    assert Stream(w, [], c) == [];
  }

  lemma {:induction false} RunTracks(w: Windows, ids: IdSource, es: seq<Event>, now: int, c: string)
    requires Monotone(es) && (es != [] ==> es[|es| - 1].now <= now)
    ensures RunTracked(w, ids, es, now, c)
    decreases |es|
  {
    hide *;
    if es == [] {
      StartTracked(w, ids, now, c);
      assert es == [];
    } else {
      var before, e := es[..|es| - 1], es[|es| - 1];
      MonotonePrefix(es);
      RunTracks(w, ids, before, e.now, c);
      if e.Add? {
        RunTracks(w, ids, before, e.now, e.client);
      }
      assert es == before + [e];
      StepTracked(w, ids, before, e.now, e, c);
      TrackedLater(w, ids, es, e.now, now, c);
    }
  }

  lemma TrackedLater(w: Windows, ids: IdSource, es: seq<Event>, clock: int, now: int, c: string)
    requires clock <= now && RunTracked(w, ids, es, clock, c)
    ensures RunTracked(w, ids, es, now, c)
  {
  }

  /**
   Under a non-decreasing clock, what a client is grouped into (emitted, then open) is exactly the
   greedy segmentation of its arrivals, request ids included; flushes do not appear on the right.
   */
  lemma OnlineRefinesGreedy(w: Windows, ids: IdSource, es: seq<Event>, c: string)
    requires Monotone(es)
    ensures History(w, ids, es, c) == Reference(w, ids, AddsOf(es), c)
  {
    RunTracks(w, ids, es, if es == [] then 0 else es[|es| - 1].now, c);
  }

  /** So when and how often `flush_due` runs decides only when a request is emitted. */
  lemma FlushTimingIrrelevant(w: Windows, ids: IdSource, es1: seq<Event>, es2: seq<Event>, c: string)
    requires Monotone(es1) && Monotone(es2) && AddsOf(es1) == AddsOf(es2)
    ensures History(w, ids, es1, c) == History(w, ids, es2, c)
    ensures Run(w, ids, EMPTY, es1).0.issued == Run(w, ids, EMPTY, es2).0.issued
  {
    RunTracks(w, ids, es1, if es1 == [] then 0 else es1[|es1| - 1].now, c);
    RunTracks(w, ids, es2, if es2 == [] then 0 else es2[|es2| - 1].now, c);
  }
}
