/** Exactly-once: every claimed message id, and every issued request id, is in exactly one place. */
module IngestionConservation {
  import opened Domain
  import opened Segmentation
  import Agg = AggregatorSpec

  // ---- what a list of requests holds, counted by message id or by request id ----

  datatype Measure = ByMessage | ByRequest

  function Of(f: Measure, r: AggregatedRequest): multiset<string> {
    match f
    case ByMessage => MessageIds(r.messages)
    case ByRequest => multiset{r.requestId}
  }

  /** What one more message, or one more id, adds. */
  function OfMessage(f: Measure, id: string): multiset<string> {
    if f.ByMessage? then multiset{id} else multiset{}
  }

  function OfNew(f: Measure, id: string): multiset<string> {
    if f.ByRequest? then multiset{id} else multiset{}
  }

  function Sum(f: Measure, rs: seq<AggregatedRequest>): multiset<string> {
    if rs == [] then multiset{} else Sum(f, rs[..|rs| - 1]) + Of(f, rs[|rs| - 1])
  }

  function SumOpen(f: Measure, st: Agg.AggState, keys: seq<string>): multiset<string>
    requires forall k | k in keys :: k in st.open
  {
    if keys == [] then multiset{} else Of(f, st.open[keys[0]]) + SumOpen(f, st, keys[1..])
  }

  function MessageIds(ms: seq<Message>): multiset<string> {
    if ms == [] then multiset{} else MessageIds(ms[..|ms| - 1]) + multiset{ms[|ms| - 1].id}
  }

  lemma {:induction false} SumConcat(f: Measure, a: seq<AggregatedRequest>, b: seq<AggregatedRequest>)
    ensures Sum(f, a + b) == Sum(f, a) + Sum(f, b)
    decreases |b|
  {
    if b == [] {
      assert a + b == a;
    } else {
      assert (a + b)[..|a + b| - 1] == a + b[..|b| - 1];
      SumConcat(f, a, b[..|b| - 1]);
    }
  }

  lemma {:induction false} SumOpenSame(f: Measure, st: Agg.AggState, st': Agg.AggState, keys: seq<string>)
    requires forall k | k in keys :: k in st.open && k in st'.open && st.open[k] == st'.open[k]
    ensures SumOpen(f, st, keys) == SumOpen(f, st', keys)
  {
    if keys != [] {
      SumOpenSame(f, st, st', keys[1..]);
    }
  }

  lemma {:induction false} SumOpenAppend(f: Measure, st: Agg.AggState, keys: seq<string>, c: string)
    requires c in st.open && forall k | k in keys :: k in st.open
    ensures SumOpen(f, st, keys + [c]) == SumOpen(f, st, keys) + Of(f, st.open[c])
  {
    if keys == [] {
      assert [c][1..] == [];
    } else {
      assert (keys + [c])[1..] == keys[1..] + [c];
      SumOpenAppend(f, st, keys[1..], c);
    }
  }

  /** Removing one key removes its bucket's share. */
  lemma {:induction false} SumOpenWithout(f: Measure, st: Agg.AggState, keys: seq<string>, c: string)
    requires Agg.NoDup(keys) && c in keys && forall k | k in keys :: k in st.open
    ensures SumOpen(f, st, Agg.Without(keys, {c})) + Of(f, st.open[c]) == SumOpen(f, st, keys)
  {
    hide Of;
    if keys[0] == c {
      Agg.WithoutNone(keys[1..], {c});
    } else {
      SumOpenWithout(f, st, keys[1..], c);
    }
  }

  lemma SumOpenCons(f: Measure, st: Agg.AggState, k: string, rest: seq<string>)
    requires k in st.open && forall x | x in rest :: x in st.open
    ensures SumOpen(f, st, [k] + rest) == Of(f, st.open[k]) + SumOpen(f, st, rest)
    ensures Sum(f, Agg.Buckets(st, [k] + rest)) == Of(f, st.open[k]) + Sum(f, Agg.Buckets(st, rest))
  {
    assert ([k] + rest)[1..] == rest;
    assert Agg.Buckets(st, [k] + rest) == [st.open[k]] + Agg.Buckets(st, rest);
    SumConcat(f, [st.open[k]], Agg.Buckets(st, rest));
    SumOne(f, st.open[k]);
  }

  /** Removing the due keys removes exactly what is emitted. */
  lemma {:induction false} SumOpenDue(f: Measure, w: Windows, st: Agg.AggState, keys: seq<string>, now: int, drop: set<string>)
    requires forall k | k in keys :: k in st.open
    requires forall k | k in keys :: k in drop <==> !Agg.Active(w, st.open[k], now)
    ensures SumOpen(f, st, Agg.Without(keys, drop)) + Sum(f, Agg.Buckets(st, Agg.Due(w, st, keys, now))) == SumOpen(f, st, keys)
  {
    hide Of, Agg.Active;
    if keys != [] {
      var k, tail := keys[0], keys[1..];
      SumOpenDue(f, w, st, tail, now, drop);
      if k in drop {
        SumOpenCons(f, st, k, Agg.Due(w, st, tail, now));
      } else {
        SumOpenCons(f, st, k, Agg.Without(tail, drop));
      }
    }
  }

  lemma SumOne(f: Measure, r: AggregatedRequest)
    ensures Sum(f, [r]) == Of(f, r)
  {
    assert [r][..0] == [];
  }

  lemma SumNone(f: Measure)
    ensures Sum(f, []) == multiset{}
  {
  }

  // ---- the aggregator conserves ----

  function Held(f: Measure, st: Agg.AggState): multiset<string>
    requires Agg.Valid(st)
  {
    SumOpen(f, st, st.keys)
  }

  lemma AppendOf(f: Measure, b: AggregatedRequest, m: Message, now: int)
    ensures Of(f, Agg.Append(b, m, now)) == Of(f, b) + OfMessage(f, m.id)
  {
    var b' := Agg.Append(b, m, now);
    assert b'.messages[..|b'.messages| - 1] == b.messages;
  }

  lemma PopHeld(f: Measure, st: Agg.AggState, c: string)
    requires Agg.Valid(st) && c in st.open
    ensures Agg.Valid(Agg.Pop(st, {c}))
    ensures Held(f, Agg.Pop(st, {c})) + Of(f, st.open[c]) == Held(f, st)
  {
    SumOpenWithout(f, st, st.keys, c);
    SumOpenSame(f, st, Agg.Pop(st, {c}), Agg.Without(st.keys, {c}));
  }

  lemma OpenedHeld(f: Measure, ids: Agg.IdSource, st: Agg.AggState, c: string, now: int)
    requires Agg.Valid(st) && c !in st.open
    ensures var st' := Agg.Opened(ids, st, c, now);
            Agg.Valid(st') && Held(f, st') == Held(f, st) + OfNew(f, ids(st.issued))
  {
    var st' := Agg.Opened(ids, st, c, now);
    assert Agg.Valid(st') by { hide Of, OfNew, SumOpen; }
    assert Of(f, st'.open[c]) == OfNew(f, ids(st.issued));
    hide Of, OfNew;
    SumOpenAppend(f, st', st.keys, c);
    SumOpenSame(f, st, st', st.keys);
  }

  lemma AppendedHeld(f: Measure, st: Agg.AggState, c: string, m: Message, now: int)
    requires Agg.Valid(st) && c in st.open
    ensures var st' := Agg.Appended(st, c, m, now);
            Agg.Valid(st') && Held(f, st') == Held(f, st) + OfMessage(f, m.id)
  {
    Agg.AppendedValid(st, c, m, now);
    var st' := Agg.Appended(st, c, m, now);
    SumOpenWithout(f, st, st.keys, c);
    SumOpenWithout(f, st', st.keys, c);
    SumOpenSame(f, st, st', Agg.Without(st.keys, {c}));
    AppendOf(f, st.open[c], m, now);
  }

  /** What is held after an add, plus what it displaced, is what was held plus the new message (and id). */
  lemma AddHeld(f: Measure, w: Windows, ids: Agg.IdSource, st: Agg.AggState, c: string, m: Message, now: int)
    requires Agg.Valid(st)
    ensures var (st', displaced) := Agg.AddStep(w, ids, st, c, m, now);
            var issued := if st'.issued > st.issued then OfNew(f, ids(st.issued)) else multiset{};
            && Agg.Valid(st') && st.issued <= st'.issued <= st.issued + 1
            && Held(f, st') + Sum(f, Agg.ToSeq(displaced)) == Held(f, st) + OfMessage(f, m.id) + issued
  {
    hide Agg.Valid, Held, Of, Sum, Agg.Active, Agg.Append, Agg.Without;
    SumNone(f);
    var ready := st;
    if c in st.open && !Agg.Active(w, st.open[c], now) {
      PopHeld(f, st, c);
      ready := Agg.Pop(st, {c});
      SumOne(f, st.open[c]);
    }
    if c !in ready.open {
      OpenedHeld(f, ids, ready, c, now);
      ready := Agg.Opened(ids, ready, c, now);
    }
    AppendedHeld(f, ready, c, m, now);
  }

  lemma FlushHeld(f: Measure, w: Windows, st: Agg.AggState, now: int)
    requires Agg.Valid(st)
    ensures var (st', due) := Agg.FlushDueStep(w, st, now);
            Agg.Valid(st') && Held(f, st') + Sum(f, due) == Held(f, st) && st'.issued == st.issued
  {
    var due := Agg.Due(w, st, st.keys, now);
    var st' := Agg.Pop(st, Agg.Elems(due));
    SumOpenDue(f, w, st, st.keys, now, Agg.Elems(due));
    SumOpenSame(f, st, st', st'.keys);
  }

  // ---- batches on their way ----

  /** What pending, handed-over and dropped batches hold. */
  function Moving(f: Measure, pending: seq<AggregatedRequest>, handed: seq<AggregatedRequest>, dropped: seq<AggregatedRequest>): multiset<string> {
    Sum(f, pending) + Sum(f, handed) + Sum(f, dropped)
  }

  lemma MovingPending(f: Measure, pending: seq<AggregatedRequest>, handed: seq<AggregatedRequest>, dropped: seq<AggregatedRequest>)
    ensures Moving(f, pending, handed, dropped) == Sum(f, pending) + Moving(f, [], handed, dropped)
  {
  }

  lemma HandOver(f: Measure, r: AggregatedRequest, rest: seq<AggregatedRequest>, handed: seq<AggregatedRequest>, dropped: seq<AggregatedRequest>)
    ensures Moving(f, rest, handed + [r], dropped) == Moving(f, [r] + rest, handed, dropped)
  {
    SumConcat(f, [r], rest);
    SumConcat(f, handed, [r]);
  }

  lemma DropAll(f: Measure, rs: seq<AggregatedRequest>, rest: seq<AggregatedRequest>, handed: seq<AggregatedRequest>, dropped: seq<AggregatedRequest>)
    ensures Moving(f, rest, handed, dropped + rs) == Moving(f, rs + rest, handed, dropped)
  {
    SumConcat(f, rs, rest);
    SumConcat(f, dropped, rs);
  }

  // ---- ids ----

  /** The ids issued so far. */
  function IssuedIds(ids: Agg.IdSource, n: nat): multiset<string> {
    if n == 0 then multiset{} else IssuedIds(ids, n - 1) + multiset{ids(n - 1)}
  }

  ghost predicate Injective(ids: Agg.IdSource) {
    forall i, j :: ids(i) == ids(j) ==> i == j
  }

  lemma {:induction false} IssuedOnce(ids: Agg.IdSource, n: nat, x: string)
    requires Injective(ids)
    ensures IssuedIds(ids, n)[x] <= 1
    ensures x in IssuedIds(ids, n) <==> exists k: nat :: k < n && ids(k) == x
  {
    if n > 0 {
      IssuedOnce(ids, n - 1, x);
      assert ids(n - 1) == x || x in IssuedIds(ids, n - 1) || x !in IssuedIds(ids, n);
    }
  }

  lemma {:induction false} SumHas(rs: seq<AggregatedRequest>, id: string)
    ensures id in Sum(ByRequest, rs) <==> exists r :: r in rs && r.requestId == id
  {
    if rs != [] {
      SumHas(rs[..|rs| - 1], id);
      assert rs == rs[..|rs| - 1] + [rs[|rs| - 1]];
    }
  }
}
