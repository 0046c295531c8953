/**
 The aggregator's state as a value, and what each operation does to it.  The open buckets are an
 insertion-ordered dictionary: `keys` in creation order, `open` the bucket under each key.
 */
module AggregatorSpec {
  import opened Wrappers
  import opened Domain
  import opened Segmentation

  datatype AggState = AggState(keys: seq<string>, open: map<string, AggregatedRequest>, issued: nat)

  /** `ids(n)` is what the n-th call of the id factory returns. */
  type IdSource = nat -> string

  datatype Event = Add(client: string, message: Message, now: int) | FlushDue(now: int)

  const EMPTY := AggState([], map[], 0)

  ghost predicate NoDup<T>(s: seq<T>) {
    forall i, j | 0 <= i < j < |s| :: s[i] != s[j]
  }

  /** The dictionary is consistent, and each key is its bucket's client. */
  ghost predicate Valid(st: AggState) {
    && NoDup(st.keys)
    && (forall k :: k in st.keys <==> k in st.open)
    && (forall k | k in st.open :: st.open[k].clientId == k)
  }

  function Elems<T>(s: seq<T>): set<T> {
    set x | x in s
  }

  function Without(keys: seq<string>, drop: set<string>): (r: seq<string>)
    ensures forall k :: k in r <==> k in keys && k !in drop
    ensures NoDup(keys) ==> NoDup(r)
  {
    if keys == [] then [] else
      var rest := Without(keys[1..], drop);
      if keys[0] in drop then rest else [keys[0]] + rest
  }

  predicate Active(w: Windows, b: AggregatedRequest, now: int) {
    Joins(w, b.startedAt, b.lastAt, now)
  }

  function Pop(st: AggState, drop: set<string>): AggState {
    st.(keys := Without(st.keys, drop), open := st.open - drop)
  }

  function Append(b: AggregatedRequest, m: Message, now: int): AggregatedRequest {
    b.(messages := b.messages + [m.(order := |b.messages|)], lastAt := now)
  }

  function Opened(ids: IdSource, st: AggState, client: string, now: int): AggState {
    AggState(st.keys + [client],
             st.open[client := AggregatedRequest(ids(st.issued), client, now, now, [])],
             st.issued + 1)
  }

  function Appended(st: AggState, client: string, m: Message, now: int): AggState
    requires client in st.open
  {
    st.(open := st.open[client := Append(st.open[client], m, now)])
  }

  lemma AppendedValid(st: AggState, client: string, m: Message, now: int)
    requires Valid(st) && client in st.open
    ensures Valid(Appended(st, client, m, now))
  {
  }

  function AddStep(w: Windows, ids: IdSource, st: AggState, client: string, m: Message, now: int)
    : (AggState, Option<AggregatedRequest>)
  {
    if client !in st.open then
      (Appended(Opened(ids, st, client, now), client, m, now), None)
    else if Active(w, st.open[client], now) then
      (Appended(st, client, m, now), None)
    else
      (Appended(Opened(ids, Pop(st, {client}), client, now), client, m, now), Some(st.open[client]))
  }

  /** The clients whose buckets are no longer active, in dictionary order. */
  function Due(w: Windows, st: AggState, keys: seq<string>, now: int): (due: seq<string>)
    requires forall k | k in keys :: k in st.open
    ensures forall k :: k in due <==> k in keys && !Active(w, st.open[k], now)
    ensures NoDup(keys) ==> NoDup(due)
  {
    if keys == [] then [] else
      var rest := Due(w, st, keys[1..], now);
      if Active(w, st.open[keys[0]], now) then rest else [keys[0]] + rest
  }

  /** Scanning one more key keeps `due` followed by what is still to be found equal to the whole. */
  lemma DueScan(w: Windows, st: AggState, keys: seq<string>, i: nat, now: int, due: seq<string>)
    requires i < |keys| && forall k | k in keys :: k in st.open
    requires due + Due(w, st, keys[i..], now) == Due(w, st, keys, now)
    ensures (if Active(w, st.open[keys[i]], now) then due else due + [keys[i]])
            + Due(w, st, keys[i + 1..], now) == Due(w, st, keys, now)
  {
    assert keys[i..][1..] == keys[i + 1..];
    var rest := Due(w, st, keys[i + 1..], now);
    assert due + ([keys[i]] + rest) == (due + [keys[i]]) + rest;
  }

  function Buckets(st: AggState, keys: seq<string>): seq<AggregatedRequest>
    requires forall k | k in keys :: k in st.open
  {
    seq(|keys|, i requires 0 <= i < |keys| => st.open[keys[i]])
  }

  function FlushDueStep(w: Windows, st: AggState, now: int): (AggState, seq<AggregatedRequest>)
    requires forall k | k in st.keys :: k in st.open
  {
    var due := Due(w, st, st.keys, now);
    (Pop(st, Elems(due)), Buckets(st, due))
  }

  function FlushAllStep(st: AggState): (AggState, seq<AggregatedRequest>)
    requires forall k | k in st.keys :: k in st.open
  {
    (Pop(st, Elems(st.keys)), Buckets(st, st.keys))
  }

  /** Dictionary assignment: a known key keeps its position and changes its value. */
  function Put(st: AggState, b: AggregatedRequest): AggState {
    AggState(if b.clientId in st.open then st.keys else st.keys + [b.clientId],
             st.open[b.clientId := b], st.issued)
  }

  lemma PutValid(st: AggState, b: AggregatedRequest)
    requires Valid(st)
    ensures Valid(Put(st, b))
  {
  }

  function Load(buckets: seq<AggregatedRequest>, issued: nat): (st: AggState)
    ensures Valid(st) && st.issued == issued
  {
    if buckets == [] then AggState([], map[], issued) else
      Put(Load(buckets[..|buckets| - 1], issued), buckets[|buckets| - 1])
  }

  lemma LoadMore(buckets: seq<AggregatedRequest>, i: nat, issued: nat)
    requires i < |buckets|
    ensures Load(buckets[..i + 1], issued) == Put(Load(buckets[..i], issued), buckets[i])
  {
    assert buckets[..i + 1][..i] == buckets[..i];
  }

  lemma {:induction false} WithoutTwice(keys: seq<string>, a: set<string>, b: set<string>)
    ensures Without(Without(keys, a), b) == Without(keys, a + b)
  {
    if keys != [] {
      WithoutTwice(keys[1..], a, b);
    }
  }

  lemma {:induction false} WithoutNone(keys: seq<string>, drop: set<string>)
    requires forall k | k in keys :: k !in drop
    ensures Without(keys, drop) == keys
  {
    if keys != [] {
      WithoutNone(keys[1..], drop);
    }
  }

  lemma PopNothing(st: AggState)
    ensures Pop(st, {}) == st
  {
    WithoutNone(st.keys, {});
    assert st.open - {} == st.open;
  }

  /** Popping one client at a time pops them all. */
  lemma PopMore(st: AggState, clients: seq<string>, i: nat)
    requires i < |clients|
    ensures Pop(Pop(st, Elems(clients[..i])), {clients[i]}) == Pop(st, Elems(clients[..i + 1]))
    ensures var mid := Pop(st, Elems(clients[..i])).open;
            clients[i] in mid ==> clients[i] in st.open && mid[clients[i]] == st.open[clients[i]]
  {
    var a, b := Elems(clients[..i]), {clients[i]};
    WithoutTwice(st.keys, a, b);
    assert a + b == Elems(clients[..i + 1]);
    assert (st.open - a) - b == st.open - (a + b);
  }

  // ---- runs ----

  function ToSeq<T>(o: Option<T>): seq<T> {
    if o.Some? then [o.value] else []
  }

  function Step(w: Windows, ids: IdSource, st: AggState, e: Event): (r: (AggState, seq<AggregatedRequest>))
    requires Valid(st)
    ensures Valid(r.0)
  {
    match e
    case Add(c, m, now) => var (st', displaced) := AddStep(w, ids, st, c, m, now); (st', ToSeq(displaced))
    case FlushDue(now) => FlushDueStep(w, st, now)
  }

  /** The state after a run from `st`, and everything emitted on the way. */
  function Run(w: Windows, ids: IdSource, st: AggState, es: seq<Event>): (r: (AggState, seq<AggregatedRequest>))
    requires Valid(st)
    ensures Valid(r.0)
  {
    if es == [] then (st, []) else
      var (st1, out1) := Run(w, ids, st, es[..|es| - 1]);
      var (st2, out2) := Step(w, ids, st1, es[|es| - 1]);
      (st2, out1 + out2)
  }

  lemma RunSnoc(w: Windows, ids: IdSource, st: AggState, es: seq<Event>, e: Event)
    requires Valid(st)
    ensures var (mid, out) := Run(w, ids, st, es);
            Run(w, ids, st, es + [e]) == (Step(w, ids, mid, e).0, out + Step(w, ids, mid, e).1)
  {
    assert (es + [e])[..|es|] == es;
  }

  ghost predicate Monotone(es: seq<Event>) {
    forall i, j | 0 <= i < j < |es| :: es[i].now <= es[j].now
  }

  function AddsOf(es: seq<Event>): seq<Event> {
    if es == [] then [] else
      AddsOf(es[..|es| - 1]) + if es[|es| - 1].Add? then [es[|es| - 1]] else []
  }

  function OfClient(rs: seq<AggregatedRequest>, c: string): seq<AggregatedRequest> {
    if rs == [] then [] else
      (if rs[0].clientId == c then [rs[0]] else []) + OfClient(rs[1..], c)
  }

  function OpenOf(st: AggState, c: string): seq<AggregatedRequest> {
    if c in st.open then [st.open[c]] else []
  }

  /** Everything client `c` has been grouped into: what was emitted, then what is still open. */
  function History(w: Windows, ids: IdSource, es: seq<Event>, c: string): seq<AggregatedRequest> {
    var (st, out) := Run(w, ids, EMPTY, es);
    OfClient(out, c) + OpenOf(st, c)
  }
}
