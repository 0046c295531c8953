/** Invariants of every aggregation run, isolation between clients, flush order, and restarts. */
module AggregatorRuns {
  import opened Wrappers
  import opened Domain
  import opened Segmentation
  import opened AggregatorSpec
  import opened AggregatorTheorems

  // ---- the shape of every bucket ----

  /** Non-empty, numbered from 0 without gaps, and shorter than the maximum duration. */
  ghost predicate WellFormed(w: Windows, r: AggregatedRequest) {
    && r.messages != []
    && (forall i | 0 <= i < |r.messages| :: r.messages[i].order == i)
    && r.lastAt - r.startedAt < w.maxDuration
  }

  ghost predicate AllWellFormed(w: Windows, st: AggState, out: seq<AggregatedRequest>) {
    && (forall k | k in st.open :: WellFormed(w, st.open[k]))
    && (forall r | r in out :: WellFormed(w, r))
  }

  lemma StepWellFormed(w: Windows, ids: IdSource, st: AggState, e: Event)
    requires 0 < w.maxDuration && Valid(st) && AllWellFormed(w, st, [])
    ensures var (st', out) := Step(w, ids, st, e); AllWellFormed(w, st', out)
  {
    match e
    case FlushDue(_) =>
    case Add(c, m, now) =>
      if c in st.open && Active(w, st.open[c], now) {
        AppendWellFormed(w, st.open[c], m, now);
      }
      AppendWellFormed(w, AggregatedRequest(ids(st.issued), c, now, now, []), m, now);
      hide WellFormed, Append;
  }

  lemma AppendWellFormed(w: Windows, b: AggregatedRequest, m: Message, now: int)
    requires 0 < w.maxDuration
    requires (WellFormed(w, b) && Active(w, b, now)) || (b.messages == [] && b.startedAt == now)
    ensures WellFormed(w, Append(b, m, now))
  {
  }

  /** Whatever the clock does, every bucket ever open or emitted is well-formed. */
  lemma {:induction false} BucketsWellFormed(w: Windows, ids: IdSource, es: seq<Event>)
    requires 0 < w.maxDuration
    ensures var (st, out) := Run(w, ids, EMPTY, es); AllWellFormed(w, st, out)
  {
    if es != [] {
      BucketsWellFormed(w, ids, es[..|es| - 1]);
      StepWellFormed(w, ids, Run(w, ids, EMPTY, es[..|es| - 1]).0, es[|es| - 1]);
    }
  }

  // ---- what each bucket was built from ----

  /** Client `c`'s messages with their arrival times, in the order they were added. */
  function Arrivals(es: seq<Event>, c: string): seq<Timed<Message>> {
    if es == [] then [] else
      var e := es[|es| - 1];
      Arrivals(es[..|es| - 1], c) + if e.Add? && e.client == c then [Timed(e.message, e.now)] else []
  }

  /** The request holds exactly the segment's messages, renumbered, and its first and last time. */
  ghost predicate Carries(c: string, r: AggregatedRequest, seg: seq<Timed<Message>>) {
    && seg != [] && r.clientId == c
    && r.startedAt == seg[0].at && r.lastAt == seg[|seg| - 1].at
    && r.messages == seq(|seg|, i requires 0 <= i < |seg| => seg[i].item.(order := i))
  }

  ghost predicate Groups(w: Windows, c: string, rs: seq<AggregatedRequest>, segs: seq<seq<Timed<Message>>>) {
    && |rs| == |segs|
    && (forall k | 0 <= k < |rs| :: Coherent(w, segs[k]) && Carries(c, rs[k], segs[k]))
  }

  lemma AppendCarries(w: Windows, c: string, r: AggregatedRequest, seg: seq<Timed<Message>>, m: Message, now: int)
    requires Carries(c, r, seg) && Coherent(w, seg) && Active(w, r, now)
    ensures Carries(c, Append(r, m, now), seg + [Timed(m, now)]) && Coherent(w, seg + [Timed(m, now)])
  {
  }

  lemma FirstCarries(w: Windows, c: string, id: string, m: Message, now: int)
    ensures Carries(c, Append(AggregatedRequest(id, c, now, now, []), m, now), [Timed(m, now)])
    ensures Coherent(w, [Timed(m, now)])
  {
  }

  /** What one more event does to a client's history: its own add extends the open bucket, if that is
      still active, or starts another; nothing else changes it. */
  lemma HistoryStep(w: Windows, ids: IdSource, es: seq<Event>, e: Event, c: string)
    ensures var h, h', st := History(w, ids, es, c), History(w, ids, es + [e], c), Run(w, ids, EMPTY, es).0;
            if !e.Add? || e.client != c then h' == h
            else if c in st.open && Active(w, st.open[c], e.now) then
              h != [] && h[|h| - 1] == st.open[c] && h' == h[..|h| - 1] + [Append(h[|h| - 1], e.message, e.now)]
            else h' == h + [Append(AggregatedRequest(ids(st.issued), c, e.now, e.now, []), e.message, e.now)]
  {
    hide Step, Append, Active, Run, OfClient;
    var (st, out) := Run(w, ids, EMPTY, es);
    RunSnoc(w, ids, EMPTY, es, e);
    OfClientConcat(out, Step(w, ids, st, e).1, c);
    match e
    case Add(client, m, now) =>
      if client == c {
        AddStepMeans(w, ids, st, c, m, now);
      } else {
        OtherClientUnaffected(w, ids, st, e, c);
      }
    case FlushDue(now) =>
      FlushHistory(w, ids, st, now, c);
  }

  lemma FlushHistory(w: Windows, ids: IdSource, st: AggState, now: int, c: string)
    requires Valid(st)
    ensures var (st', due) := Step(w, ids, st, FlushDue(now)); OfClient(due, c) + OpenOf(st', c) == OpenOf(st, c)
  {
    FlushOfClient(w, st, st.keys, now, c);
  }

  /**
   Whatever the clock does, a client's requests (emitted, then open) cut its arrivals into consecutive
   segments, losing and reordering nothing: each request carries exactly its segment, whose arrivals
   are less than the inactivity window apart and less than the maximum duration after the first.
   */
  lemma {:induction false} RequestArrivals(w: Windows, ids: IdSource, es: seq<Event>, c: string)
    returns (segs: seq<seq<Timed<Message>>>)
    ensures Flatten(segs) == Arrivals(es, c) && Groups(w, c, History(w, ids, es, c), segs)
    decreases |es|
  {
    segs := [];
    hide History, Run, Step, Flatten, Groups, Arrivals, Active, Append;
    if es == [] {
      NoArrivals(w, ids, c);
      assert es == [];
    } else {
      var before, e := es[..|es| - 1], es[|es| - 1];
      segs := RequestArrivals(w, ids, before, c);
      assert es == before + [e];
      HistoryStep(w, ids, before, e, c);
      ArrivalsSnoc(before, e, c);
      if e.Add? && e.client == c {
        var h, st := History(w, ids, before, c), Run(w, ids, EMPTY, before).0;
        if c in st.open && Active(w, st.open[c], e.now) {
          segs := ExtendLast(w, c, h, segs, e.message, e.now);
        } else {
          segs := StartNext(w, c, h, segs, ids(st.issued), e.message, e.now);
        }
      } else {
        assert Arrivals(before, c) + [] == Arrivals(before, c);
      }
    }
  }

  lemma NoArrivals(w: Windows, ids: IdSource, c: string)
    ensures Flatten<Timed<Message>>([]) == Arrivals([], c) && Groups(w, c, History(w, ids, [], c), [])
  {
  }

  lemma ArrivalsSnoc(es: seq<Event>, e: Event, c: string)
    ensures Arrivals(es + [e], c) == Arrivals(es, c) + if e.Add? && e.client == c then [Timed(e.message, e.now)] else []
  {
    assert (es + [e])[..|es|] == es;
  }

  lemma ExtendLast(w: Windows, c: string, h: seq<AggregatedRequest>, segs: seq<seq<Timed<Message>>>, m: Message, now: int)
    returns (segs': seq<seq<Timed<Message>>>)
    requires Groups(w, c, h, segs) && h != [] && Active(w, h[|h| - 1], now)
    ensures Flatten(segs') == Flatten(segs) + [Timed(m, now)]
    ensures Groups(w, c, h[..|h| - 1] + [Append(h[|h| - 1], m, now)], segs')
  {
    hide Carries, Append, Active, Coherent, Flatten;
    var n, x := |segs| - 1, Timed(m, now);
    AppendCarries(w, c, h[n], segs[n], m, now);
    assert segs == segs[..n] + [segs[n]];
    FlattenSnoc(segs[..n], segs[n]);
    FlattenSnoc(segs[..n], segs[n] + [x]);
    segs' := segs[..n] + [segs[n] + [x]];
  }

  lemma StartNext(w: Windows, c: string, h: seq<AggregatedRequest>, segs: seq<seq<Timed<Message>>>, id: string, m: Message, now: int)
    returns (segs': seq<seq<Timed<Message>>>)
    requires Groups(w, c, h, segs)
    ensures Flatten(segs') == Flatten(segs) + [Timed(m, now)]
    ensures Groups(w, c, h + [Append(AggregatedRequest(id, c, now, now, []), m, now)], segs')
  {
    FirstCarries(w, c, id, m, now);
    hide Carries, Append, Coherent, Flatten;
    var x := Timed(m, now);
    FlattenSnoc(segs, [x]);
    segs' := segs + [[x]];
  }

  // ---- when a bucket closes ----

  /** At time `now` nothing more can join `r`: its last arrival is too long ago, or its first. */
  predicate Expired(w: Windows, r: AggregatedRequest, now: int) {
    now - r.lastAt >= w.inactivity || now - r.startedAt >= w.maxDuration
  }

  /** Under a non-decreasing clock, each request of a client had expired when the next one started. */
  lemma RequestsApart(w: Windows, ids: IdSource, es: seq<Event>, c: string)
    requires Monotone(es)
    ensures var h := History(w, ids, es, c);
            forall k | 0 < k < |h| :: Expired(w, h[k - 1], h[k].startedAt)
  {
    hide Segments, Stream;
    OnlineRefinesGreedy(w, ids, es, c);
    var s := Stream(w, AddsOf(es), c);
    SegmentsGreedy(w, s);
    var h := History(w, ids, es, c);
    var segs: seq<seq<Timed<Arrival>>> := Segments(w, s);
    forall k | 0 < k < |h| ensures Expired(w, h[k - 1], h[k].startedAt) {
      assert Apart(w, segs[k - 1], segs[k][0].at);
    }
  }

  /** The clients due at time `now` are exactly those whose bucket has expired. */
  lemma DueMeansExpired(w: Windows, st: AggState, now: int)
    requires Valid(st)
    ensures forall c :: c in Due(w, st, st.keys, now) <==> c in st.open && Expired(w, st.open[c], now)
  {
  }

  /** Exactly the expired buckets are emitted, and the others are left as they were. */
  ghost predicate KeepsUnexpired(w: Windows, st: AggState, now: int, st': AggState, emitted: seq<AggregatedRequest>) {
    && (forall r :: r in emitted <==> exists c :: c in st.open && st.open[c] == r && Expired(w, r, now))
    && (forall c :: c in st'.open <==> c in st.open && !Expired(w, st.open[c], now))
    && (forall c | c in st'.open :: st'.open[c] == st.open[c])
  }

  lemma FlushEmitsExpired(w: Windows, st: AggState, now: int)
    requires Valid(st)
    ensures KeepsUnexpired(w, st, now, FlushDueStep(w, st, now).0, FlushDueStep(w, st, now).1)
  {
    var clients := Due(w, st, st.keys, now);
    var due := FlushDueStep(w, st, now).1;
    forall r ensures r in due <==> exists c :: c in st.open && st.open[c] == r && Expired(w, r, now) {
      if r in due {
        var i :| 0 <= i < |due| && due[i] == r;
        assert clients[i] in clients;
      }
      if c :| c in st.open && st.open[c] == r && Expired(w, r, now) {
        assert c in clients;
        var i :| 0 <= i < |clients| && clients[i] == c;
        assert due[i] == r;
      }
    }
  }

  /** A bucket is displaced exactly when it is the client's own and has expired. */
  ghost predicate ClosesExpired(w: Windows, st: AggState, c: string, now: int, displaced: Option<AggregatedRequest>) {
    displaced == if c in st.open && Expired(w, st.open[c], now) then Some(st.open[c]) else None
  }

  /** An add closes its client's bucket exactly when that has expired, and otherwise extends it; other
      clients' buckets stay as they were. */
  lemma AddClosesExpired(w: Windows, ids: IdSource, st: AggState, c: string, m: Message, now: int)
    requires Valid(st)
    ensures var (st', displaced) := AddStep(w, ids, st, c, m, now);
            && ClosesExpired(w, st, c, now, displaced)
            && c in st'.open && st'.open[c].lastAt == now
            && (st'.open[c].startedAt == if c in st.open && !Expired(w, st.open[c], now) then st.open[c].startedAt else now)
            && (forall k | k != c :: (k in st'.open <==> k in st.open) && (k in st.open ==> st'.open[k] == st.open[k]))
  {
  }

  // ---- flush order ----

  ghost predicate OldestFirst(rs: seq<AggregatedRequest>) {
    forall i, j | 0 <= i < j < |rs| :: rs[i].startedAt <= rs[j].startedAt
  }

  ghost predicate InOrder(open: map<string, AggregatedRequest>, keys: seq<string>)
    requires forall k | k in keys :: k in open
  {
    forall i, j | 0 <= i < j < |keys| :: open[keys[i]].startedAt <= open[keys[j]].startedAt
  }

  lemma OldestCons(open: map<string, AggregatedRequest>, key: string, rest: seq<string>)
    requires key in open && (forall k | k in rest :: k in open && open[key].startedAt <= open[k].startedAt)
    requires InOrder(open, rest)
    ensures InOrder(open, [key] + rest)
  {
  }

  lemma {:induction false} SubsequenceInOrder(open: map<string, AggregatedRequest>, keys: seq<string>, drop: set<string>)
    requires (forall k | k in keys :: k in open) && InOrder(open, keys)
    ensures InOrder(open, Without(keys, drop))
  {
    if keys != [] {
      var tail := keys[1..];
      SubsequenceInOrder(open, tail, drop);
      forall k | k in tail ensures open[keys[0]].startedAt <= open[k].startedAt {
        var i :| 1 <= i < |keys| && keys[i] == k;
      }
      if keys[0] !in drop {
        OldestCons(open, keys[0], Without(tail, drop));
      }
    }
  }

  lemma {:induction false} DueIsSubsequence(w: Windows, st: AggState, keys: seq<string>, now: int)
    requires forall k | k in keys :: k in st.open
    ensures Due(w, st, keys, now) == Without(keys, set k | k in st.open && Active(w, st.open[k], now))
  {
    if keys != [] {
      DueIsSubsequence(w, st, keys[1..], now);
    }
  }

  ghost predicate CreationOrder(st: AggState, clock: int)
    requires Valid(st)
  {
    InOrder(st.open, st.keys) && forall k | k in st.open :: st.open[k].startedAt <= clock
  }

  lemma NewestLast(open: map<string, AggregatedRequest>, open': map<string, AggregatedRequest>,
                   keys: seq<string>, c: string)
    requires (forall k | k in keys :: k in open) && InOrder(open, keys)
    requires c in open' && forall k | k in keys :: k in open' && open'[k] == open[k]
    requires forall k | k in keys :: open[k].startedAt <= open'[c].startedAt
    ensures InOrder(open', keys + [c])
  {
  }

  lemma AddCreationOrder(w: Windows, ids: IdSource, st: AggState, c: string, m: Message, now: int)
    requires Valid(st) && CreationOrder(st, now)
    ensures CreationOrder(AddStep(w, ids, st, c, m, now).0, now)
  {
    var st' := AddStep(w, ids, st, c, m, now).0;
    if c in st.open && Active(w, st.open[c], now) {
    } else {
      SubsequenceInOrder(st.open, st.keys, {c});
      NewestLast(st.open, st'.open, if c in st.open then Without(st.keys, {c}) else st.keys, c);
    }
  }

  lemma StepCreationOrder(w: Windows, ids: IdSource, st: AggState, e: Event)
    requires Valid(st) && CreationOrder(st, e.now)
    ensures CreationOrder(Step(w, ids, st, e).0, e.now)
  {
    match e
    case FlushDue(now) => SubsequenceInOrder(st.open, st.keys, Elems(Due(w, st, st.keys, now)));
    case Add(c, m, now) => AddCreationOrder(w, ids, st, c, m, now);
  }

  lemma {:induction false} RunCreationOrder(w: Windows, ids: IdSource, es: seq<Event>, now: int)
    requires Monotone(es) && (es != [] ==> es[|es| - 1].now <= now)
    ensures CreationOrder(Run(w, ids, EMPTY, es).0, now)
    decreases |es|
  {
    if es != [] {
      var before, e := es[..|es| - 1], es[|es| - 1];
      MonotonePrefix(es);
      RunCreationOrder(w, ids, before, e.now);
      StepCreationOrder(w, ids, Run(w, ids, EMPTY, before).0, e);
    }
  }

  /** Each time-driven flush hands requests over in the order their buckets were started. */
  lemma FlushOldestFirst(w: Windows, ids: IdSource, es: seq<Event>, now: int)
    requires Monotone(es) && (es != [] ==> es[|es| - 1].now <= now)
    ensures OldestFirst(FlushDueStep(w, Run(w, ids, EMPTY, es).0, now).1)
  {
    var st := Run(w, ids, EMPTY, es).0;
    RunCreationOrder(w, ids, es, now);
    DueIsSubsequence(w, st, st.keys, now);
    SubsequenceInOrder(st.open, st.keys, set k | k in st.open && Active(w, st.open[k], now));
  }

  // ---- shutdown ----

  lemma {:induction false} BucketsOfClient(st: AggState, keys: seq<string>, c: string)
    requires NoDup(keys) && forall k | k in keys :: k in st.open && st.open[k].clientId == k
    ensures OfClient(Buckets(st, keys), c) == if c in keys then [st.open[c]] else []
  {
    if keys != [] {
      BucketsOfClient(st, keys[1..], c);
      assert Buckets(st, keys)[1..] == Buckets(st, keys[1..]);
    }
  }

  lemma HasElement(keys: seq<string>)
    ensures keys == [] || exists k :: k in keys
  {
    if keys != [] {
      assert keys[0] in keys;
    }
  }

  lemma FlushAllOfClient(st: AggState, c: string)
    requires Valid(st)
    ensures var (end, rest) := FlushAllStep(st);
            end.keys == [] && end.open == map[] && OfClient(rest, c) == OpenOf(st, c)
  {
    BucketsOfClient(st, st.keys, c);
    var end := FlushAllStep(st).0;
    assert forall k :: k !in end.keys;
    HasElement(end.keys);
  }

  /** A final flush of everything leaves nothing open, and all that was emitted for a client, before and
      by it, is exactly the greedy segmentation of that client's arrivals. */
  lemma FlushAllCompletes(w: Windows, ids: IdSource, es: seq<Event>, c: string)
    requires Monotone(es)
    ensures var (st, out) := Run(w, ids, EMPTY, es);
            var (end, rest) := FlushAllStep(st);
            && end.keys == [] && end.open == map[]
            && OfClient(out + rest, c) == Reference(w, ids, AddsOf(es), c)
  {
    hide Run, Reference, Step, OfClient, OpenOf, History, FlushAllStep;
    var (st, out) := Run(w, ids, EMPTY, es);
    assert History(w, ids, es, c) == OfClient(out, c) + OpenOf(st, c) by { HistoryOf(w, ids, es, c); }
    FlushAllOfClient(st, c);
    OfClientConcat(out, FlushAllStep(st).1, c);
    OnlineRefinesGreedy(w, ids, es, c);
  }

  lemma HistoryOf(w: Windows, ids: IdSource, es: seq<Event>, c: string)
    ensures var (st, out) := Run(w, ids, EMPTY, es); History(w, ids, es, c) == OfClient(out, c) + OpenOf(st, c)
  {
  }

  // ---- clients do not interfere ----

  function Anonymous(rs: seq<AggregatedRequest>): seq<AggregatedRequest> {
    seq(|rs|, i requires 0 <= i < |rs| => rs[i].(requestId := ""))
  }

  /** Client `c`'s messages and every flush. */
  function Alone(es: seq<Event>, c: string): seq<Event> {
    if es == [] then [] else
      Alone(es[..|es| - 1], c) +
      if es[|es| - 1].Add? && es[|es| - 1].client != c then [] else [es[|es| - 1]]
  }

  ghost predicate SameFor(c: string, st: AggState, out: seq<AggregatedRequest>,
                          st': AggState, out': seq<AggregatedRequest>)
  {
    && Anonymous(OfClient(out, c)) == Anonymous(OfClient(out', c))
    && Anonymous(OpenOf(st, c)) == Anonymous(OpenOf(st', c))
  }

  lemma AnonymousConcat(a: seq<AggregatedRequest>, b: seq<AggregatedRequest>)
    ensures Anonymous(a + b) == Anonymous(a) + Anonymous(b)
  {
  }

  /** One event treats `c` the same in two states that agree on `c`. */
  lemma StepSameFor(w: Windows, ids: IdSource, ids': IdSource, st: AggState, st': AggState, e: Event, c: string)
    requires Valid(st) && Valid(st') && Anonymous(OpenOf(st, c)) == Anonymous(OpenOf(st', c))
    requires e.Add? ==> e.client == c
    ensures var (s1, o1), (s2, o2) := Step(w, ids, st, e), Step(w, ids', st', e);
            SameFor(c, s1, o1, s2, o2)
  {
    assert c in st.open <==> Anonymous(OpenOf(st, c)) != [];
    assert c in st'.open <==> Anonymous(OpenOf(st', c)) != [];
    if c in st.open {
      assert Anonymous(OpenOf(st, c))[0] == Anonymous(OpenOf(st', c))[0];
    }
    match e
    case FlushDue(now) =>
      FlushOfClient(w, st, st.keys, now, c);
      FlushOfClient(w, st', st'.keys, now, c);
    case Add(_, m, now) =>
      AddStepMeans(w, ids, st, c, m, now);
      AddStepMeans(w, ids', st', c, m, now);
  }

  /**
   However many clients there are and whatever the clock does, what `c` is grouped into equals, up to
   request ids, what an aggregator serving only `c` with the same flush times produces.
   */
  lemma {:induction false} ClientsDoNotInterfere(w: Windows, ids: IdSource, ids': IdSource, es: seq<Event>, c: string)
    ensures var (st, out), (st', out') := Run(w, ids, EMPTY, es), Run(w, ids', EMPTY, Alone(es, c));
            SameFor(c, st, out, st', out') && OfClient(out', c) == out'
  {
    hide Step;
    if es != [] {
      var before, e := es[..|es| - 1], es[|es| - 1];
      ClientsDoNotInterfere(w, ids, ids', before, c);
      var (st, out) := Run(w, ids, EMPTY, before);
      var (st', out') := Run(w, ids', EMPTY, Alone(before, c));
      if e.Add? && e.client != c {
        OtherClientUnaffected(w, ids, st, e, c);
        OfClientConcat(out, Step(w, ids, st, e).1, c);
        assert Alone(es, c) == Alone(before, c);
      } else {
        StepSameFor(w, ids, ids', st, st', e, c);
        OnlyClient(w, ids', before, c);
        OnlyClientStep(w, ids', st', e, c);
        assert Alone(es, c) == Alone(before, c) + [e];
        RunSnoc(w, ids', EMPTY, Alone(before, c), e);
        SameForConcat(c, out, out', Step(w, ids, st, e).1, Step(w, ids', st', e).1);
      }
    }
  }

  lemma SameForConcat(c: string, out: seq<AggregatedRequest>, out': seq<AggregatedRequest>,
                      o: seq<AggregatedRequest>, o': seq<AggregatedRequest>)
    requires SameFor(c, EMPTY, out, EMPTY, out') && SameFor(c, EMPTY, o, EMPTY, o')
    ensures SameFor(c, EMPTY, out + o, EMPTY, out' + o')
    ensures OfClient(out', c) == out' && OfClient(o', c) == o' ==> OfClient(out' + o', c) == out' + o'
  {
    OfClientConcat(out, o, c);
    OfClientConcat(out', o', c);
    AnonymousConcat(OfClient(out, c), OfClient(o, c));
    AnonymousConcat(OfClient(out', c), OfClient(o', c));
  }

  ghost predicate Serves(rs: seq<AggregatedRequest>, c: string) {
    forall r | r in rs :: r.clientId == c
  }

  lemma {:induction false} ServesOfClient(rs: seq<AggregatedRequest>, c: string)
    requires Serves(rs, c)
    ensures OfClient(rs, c) == rs
  {
    if rs != [] {
      ServesOfClient(rs[1..], c);
    }
  }

  lemma OnlyClientStep(w: Windows, ids: IdSource, st: AggState, e: Event, c: string)
    requires Valid(st) && st.open.Keys <= {c} && (e.Add? ==> e.client == c)
    ensures var (st', out) := Step(w, ids, st, e);
            st'.open.Keys <= {c} && Serves(out, c) && OfClient(out, c) == out
  {
    ServesOfClient(Step(w, ids, st, e).1, c);
  }

  lemma {:induction false} OnlyClient(w: Windows, ids: IdSource, es: seq<Event>, c: string)
    ensures Run(w, ids, EMPTY, Alone(es, c)).0.open.Keys <= {c}
  {
    hide Step;
    if es != [] {
      var before, e := es[..|es| - 1], es[|es| - 1];
      OnlyClient(w, ids, before, c);
      if e.Add? && e.client != c {
        assert Alone(es, c) == Alone(before, c);
      } else {
        assert Alone(es, c) == Alone(before, c) + [e];
        OnlyClientStep(w, ids, Run(w, ids, EMPTY, Alone(before, c)).0, e, c);
        RunSnoc(w, ids, EMPTY, Alone(before, c), e);
      }
    }
  }

  // ---- restarts ----

  lemma PutLast(st: AggState, loaded: AggState, n: nat, k: string)
    requires 0 < n <= |st.keys| && k == st.keys[n - 1] && k !in st.keys[..n - 1]
    requires k in st.open && st.open[k].clientId == k
    requires Valid(loaded) && loaded.keys == st.keys[..n - 1]
    requires forall x | x in loaded.open :: x in st.open && loaded.open[x] == st.open[x]
    ensures var r := Put(loaded, st.open[k]);
            r.keys == st.keys[..n] && forall x | x in r.open :: x in st.open && r.open[x] == st.open[x]
  {
    assert k !in loaded.open;
  }

  lemma {:induction false} LoadBuckets(st: AggState, n: nat)
    requires Valid(st) && n <= |st.keys|
    ensures var r := Load(Buckets(st, st.keys[..n]), st.issued);
            r.keys == st.keys[..n] && forall k | k in r.open :: k in st.open && r.open[k] == st.open[k]
  {
    assert forall k :: k in st.keys <==> k in st.open;
    hide Valid, Put;
    if n > 0 {
      LoadBuckets(st, n - 1);
      var bs, k := Buckets(st, st.keys[..n]), st.keys[n - 1];
      KeyAt(st, n - 1);
      assert bs[..n - 1] == Buckets(st, st.keys[..n - 1]);
      assert bs[n - 1] == st.open[k];
      PutLast(st, Load(bs[..n - 1], st.issued), n, k);
    }
  }

  lemma KeyAt(st: AggState, i: nat)
    requires Valid(st) && i < |st.keys|
    ensures st.keys[i] in st.open && st.open[st.keys[i]].clientId == st.keys[i] && st.keys[i] !in st.keys[..i]
  {
  }

  /** Loading any list of buckets keeps, for each client in it, the last one listed. */
  lemma {:induction false} LoadKeepsLast(bs: seq<AggregatedRequest>, issued: nat, i: nat)
    requires i < |bs| && forall j | i < j < |bs| :: bs[j].clientId != bs[i].clientId
    ensures bs[i].clientId in Load(bs, issued).open && Load(bs, issued).open[bs[i].clientId] == bs[i]
  {
    hide Valid;
    var n := |bs| - 1;
    if i < n {
      LoadKeepsLast(bs[..n], issued, i);
      assert bs[..n][i] == bs[i];
    }
  }

  lemma {:induction false} LoadOnly(bs: seq<AggregatedRequest>, issued: nat, c: string)
    requires c in Load(bs, issued).open
    ensures exists b :: b in bs && b.clientId == c
  {
    hide Valid;
    var n := |bs| - 1;
    if bs[n].clientId == c {
      assert bs[n] in bs;
    } else {
      LoadOnly(bs[..n], issued, c);
    }
  }

  /** Loading an exported snapshot into a fresh aggregator restores the state, order included. */
  lemma LoadExported(st: AggState)
    requires Valid(st)
    ensures Load(Buckets(st, st.keys), st.issued) == st
  {
    LoadBuckets(st, |st.keys|);
    assert st.keys[..|st.keys|] == st.keys;
    var r := Load(Buckets(st, st.keys), st.issued);
    assert forall k :: k in r.open <==> k in st.open;
    assert r.open == st.open;
  }

  lemma {:induction false} RunSplit(w: Windows, ids: IdSource, st: AggState, a: seq<Event>, b: seq<Event>)
    requires Valid(st)
    ensures var (mid, out1) := Run(w, ids, st, a);
            var (end, out2) := Run(w, ids, mid, b);
            Run(w, ids, st, a + b) == (end, out1 + out2)
    decreases |b|
  {
    hide Step;
    if b == [] {
      assert a + b == a && Run(w, ids, st, a).1 + [] == Run(w, ids, st, a).1;
    } else {
      var b', e := b[..|b| - 1], b[|b| - 1];
      RunSplit(w, ids, st, a, b');
      var (mid, out1) := Run(w, ids, st, a);
      var (s, out2) := Run(w, ids, mid, b');
      RunSnoc(w, ids, st, a + b', e);
      RunSnoc(w, ids, mid, b', e);
      assert a + b == (a + b') + [e] && b == b' + [e];
      var o := Step(w, ids, s, e).1;
      assert (out1 + out2) + o == out1 + (out2 + o);
    }
  }

  /** A restart anywhere in a run changes nothing that is emitted, before or after, nor the final state. */
  lemma RestartTransparent(w: Windows, ids: IdSource, before: seq<Event>, after: seq<Event>)
    ensures var (st, out1) := Run(w, ids, EMPTY, before);
            var (end, out2) := Run(w, ids, Load(Buckets(st, st.keys), st.issued), after);
            Run(w, ids, EMPTY, before + after) == (end, out1 + out2)
  {
    LoadExported(Run(w, ids, EMPTY, before).0);
    RunSplit(w, ids, EMPTY, before, after);
  }
}
