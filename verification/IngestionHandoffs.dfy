/** When, and under which name and flags, each batch is handed to the orchestrator. */
module IngestionHandoffs {
  import opened Wrappers
  import opened Domain
  import opened IngestionSpec
  import Agg = AggregatorSpec
  import Life = Lifecycle

  /** What the service does that matters here, in order: resolving a sender, and handing a batch over. */
  datatype Note =
    | Resolves(client: string, name: string, known: bool)
    | Hands(call: Life.Event, batch: AggregatedRequest, at: int)

  // ---- the notes of a run ----

  function ProcessNotes(o: Oracle, st: State, r: AggregatedRequest, now: int): seq<Note> {
    if MediaLoads(o, r) then [Hands(IngestCall(st, r, now, o), r, now)] else []
  }

  function OneNotes(s: Setup, o: Oracle, st: State, m: Parsed, now: int): seq<Note> {
    if m.whatsappId in st.claimed then [] else
      var (client, name, known) := s.resolve(m.sender);
      var stored, built := StoreMedia(s, Claimed(s, st, m), m, Fetched(o, m)), Build(m, Fetched(o, m));
      [Resolves(client, name, known)] + if built.Failure? then [] else AddNotes(s, o, stored, client, built.value, now)
  }

  function AddNotes(s: Setup, o: Oracle, st: State, client: string, m: Message, now: int): seq<Note> {
    var (agg, displaced) := Agg.AddStep(s.windows, s.ids, st.agg, client, m, now);
    if displaced.None? then [] else ProcessNotes(o, st.(agg := agg), displaced.value, now)
  }

  function ReceiveNotes(s: Setup, o: Oracle, st: State, ms: seq<Parsed>, now: int): seq<Note>
    decreases |ms|
  {
    if ms == [] then [] else
      var p := ReceiveOne(s, o, st, ms[0], now);
      OneNotes(s, o, st, ms[0], now) + if p.returned then ReceiveNotes(s, o, p.state, ms[1..], now) else []
  }

  function AllNotes(s: Setup, o: Oracle, st: State, due: seq<AggregatedRequest>, now: int): seq<Note>
    decreases |due|
  {
    if due == [] then [] else
      ProcessNotes(o, st, due[0], now)
      + if Succeeds(s, o, due[0]) then AllNotes(s, o, Process(s, o, st, due[0], now), due[1..], now) else []
  }

  function StepNotes(s: Setup, o: Oracle, st: State, e: Event): seq<Note>
    requires Agg.Valid(st.agg)
  {
    match e
    case Deliver(ms, now) => ReceiveNotes(s, o, st, ms, now)
    case Tick(now) =>
      var (agg, due) := Agg.FlushDueStep(s.windows, st.agg, now);
      AllNotes(s, o, st.(agg := agg), due, now)
    case Click(_, _, _) => []
  }

  function RunNotes(s: Setup, o: Oracle, st: State, es: seq<Event>): seq<Note>
    requires Agg.Valid(st.agg)
    decreases |es|
  {
    if es == [] then [] else
      StepKeepsValid(s, o, st, es[0]);
      StepNotes(s, o, st, es[0]) + RunNotes(s, o, Step(s, o, st, es[0]).state, es[1..])
  }

  // ---- what they should say ----

  /** How the client was last resolved. */
  function Latest(notes: seq<Note>, client: string): Option<(string, bool)> {
    if notes == [] then None else
      var last := notes[|notes| - 1];
      if last.Resolves? && last.client == client then Some((last.name, last.known))
      else Latest(notes[..|notes| - 1], client)
  }

  /** The call is for the batch at that time, and carries the last resolution of the batch's client: its
      name, and a flag if it is unknown. */
  ghost predicate Named(n: Note, notes: seq<Note>)
    requires n.Hands?
  {
    var call := n.call;
    && call.Ingest? && call.agg == n.batch && call.now == n.at
    && Latest(notes, call.agg.clientId).Some?
    && var (name, known) := Latest(notes, call.agg.clientId).value;
    && call.clientName == name && call.flags == if known then [] else ["unknown_client"]
  }

  ghost predicate AllNamed(notes: seq<Note>) {
    forall k | 0 <= k < |notes| && notes[k].Hands? :: Named(notes[k], notes[..k])
  }

  function HandedIn(notes: seq<Note>): seq<Life.Event> {
    if notes == [] then [] else
      HandedIn(notes[..|notes| - 1]) + if notes[|notes| - 1].Hands? then [notes[|notes| - 1].call] else []
  }

  function IngestsOf(calls: seq<Life.Event>): seq<Life.Event> {
    if calls == [] then [] else
      IngestsOf(calls[..|calls| - 1]) + if calls[|calls| - 1].Ingest? then [calls[|calls| - 1]] else []
  }

  /** The service remembers each client's last resolution, and has one for every client with a bucket. */
  ghost predicate Remembers(st: State, notes: seq<Note>) {
    && st.known.Keys == st.names.Keys && st.agg.open.Keys <= st.names.Keys
    && (forall c :: Latest(notes, c) == if c in st.names then Some((st.names[c], st.known[c])) else None)
  }

  ghost predicate Noted(st: State, notes: seq<Note>) {
    Remembers(st, notes) && AllNamed(notes) && IngestsOf(st.calls) == HandedIn(notes)
  }

  ghost predicate Resolved(st: State, pending: seq<AggregatedRequest>) {
    forall r | r in pending :: r.clientId in st.names
  }

  // ---- they do ----

  lemma CallsSnoc(calls: seq<Life.Event>, e: Life.Event)
    ensures IngestsOf(calls + [e]) == IngestsOf(calls) + if e.Ingest? then [e] else []
  {
    assert (calls + [e])[..|calls|] == calls;
  }

  lemma NotesSnoc(notes: seq<Note>, n: Note)
    requires AllNamed(notes) && (n.Hands? ==> Named(n, notes))
    ensures AllNamed(notes + [n])
    ensures HandedIn(notes + [n]) == HandedIn(notes) + if n.Hands? then [n.call] else []
    ensures forall c :: Latest(notes + [n], c) ==
                        if n.Resolves? && n.client == c then Some((n.name, n.known)) else Latest(notes, c)
  {
    hide Named;
    var all := notes + [n];
    assert all[..|notes|] == notes;
    forall k | 0 <= k < |all| && all[k].Hands? ensures Named(all[k], all[..k]) {
      if k < |notes| {
        assert all[..k] == notes[..k];
      }
    }
  }

  lemma CallNamed(st: State, r: AggregatedRequest, now: int, o: Oracle, notes: seq<Note>)
    requires Remembers(st, notes) && r.clientId in st.names
    ensures Named(Hands(IngestCall(st, r, now, o), r, now), notes)
  {
  }

  lemma ProcessNoted(s: Setup, o: Oracle, st: State, r: AggregatedRequest, now: int, notes: seq<Note>)
    requires Noted(st, notes) && r.clientId in st.names
    ensures var st' := Process(s, o, st, r, now);
            Noted(st', notes + ProcessNotes(o, st, r, now)) && st'.names == st.names
  {
    hide MediaLoads, Life.PlanOf, Life.Exec, AllNamed, Named;
    if MediaLoads(o, r) {
      var call := IngestCall(st, r, now, o);
      CallNamed(st, r, now, o, notes);
      NotesSnoc(notes, Hands(call, r, now));
      CallsSnoc(st.calls, call);
    } else {
      assert notes + [] == notes;
    }
  }

  lemma {:induction false} AllNoted(s: Setup, o: Oracle, st: State, due: seq<AggregatedRequest>, now: int, notes: seq<Note>)
    requires Noted(st, notes) && Resolved(st, due)
    ensures Noted(ProcessAll(s, o, st, due, now).state, notes + AllNotes(s, o, st, due, now))
    decreases |due|
  {
    hide Process, ProcessNotes, Succeeds, AllNamed, HandedIn, IngestsOf, Latest;
    if due == [] {
      assert notes + [] == notes;
    } else {
      assert due[0] in due;
      var st1, first := Process(s, o, st, due[0], now), ProcessNotes(o, st, due[0], now);
      ProcessNoted(s, o, st, due[0], now, notes);
      if Succeeds(s, o, due[0]) {
        AllNoted(s, o, st1, due[1..], now, notes + first);
        assert (notes + first) + AllNotes(s, o, st1, due[1..], now) == notes + (first + AllNotes(s, o, st1, due[1..], now));
      } else {
        assert first + [] == first;
      }
    }
  }

  lemma ClaimNoted(s: Setup, o: Oracle, st: State, m: Parsed, notes: seq<Note>)
    requires Noted(st, notes)
    ensures var (client, name, known) := s.resolve(m.sender);
            var stored := StoreMedia(s, Claimed(s, st, m), m, Fetched(o, m));
            Noted(stored, notes + [Resolves(client, name, known)]) && client in stored.names && stored.agg == st.agg
  {
    hide Noted, StoreMedia, Fetched;
    ClaimedNoted(s, st, m, notes);
    var (client, name, known) := s.resolve(m.sender);
    StoredNoted(s, Claimed(s, st, m), m, Fetched(o, m), notes + [Resolves(client, name, known)]);
  }

  lemma ClaimedNoted(s: Setup, st: State, m: Parsed, notes: seq<Note>)
    requires Noted(st, notes)
    ensures var (client, name, known) := s.resolve(m.sender);
            Noted(Claimed(s, st, m), notes + [Resolves(client, name, known)])
  {
    hide AllNamed, HandedIn, IngestsOf, Latest, Named;
    var (client, name, known) := s.resolve(m.sender);
    NotesSnoc(notes, Resolves(client, name, known));
  }

  /** Storing media ingests nothing. */
  lemma StoredNoted(s: Setup, st: State, m: Parsed, fetched: Option<Bytes>, notes: seq<Note>)
    requires Noted(st, notes)
    ensures var stored := StoreMedia(s, st, m, fetched);
            Noted(stored, notes) && stored.names == st.names && stored.agg == st.agg
  {
    hide Life.PlanOf, Life.Exec, AllNamed, HandedIn, Latest;
    if fetched.Some? {
      CallsSnoc(st.calls, Life.StoreInbound(m.whatsappId, fetched.value));
    }
  }

  lemma UnbuiltNoted(st: State, id: string, notes: seq<Note>)
    requires Noted(st, notes)
    ensures Noted(st.(unbuilt := st.unbuilt + [id]), notes)
  {
  }

  lemma AddNoted(s: Setup, o: Oracle, st: State, client: string, m: Message, now: int, notes: seq<Note>)
    requires Agg.Valid(st.agg) && Noted(st, notes) && client in st.names
    ensures Noted(AddMessage(s, o, st, client, m, now).state, notes + AddNotes(s, o, st, client, m, now))
  {
    var (agg, displaced) := Agg.AddStep(s.windows, s.ids, st.agg, client, m, now);
    assert agg.open.Keys <= st.agg.open.Keys + {client};
    assert displaced.Some? ==> displaced.value.clientId in st.names;
    assert notes + [] == notes;
    hide AllNamed, HandedIn, IngestsOf, Latest, Process, ProcessNotes, Agg.AddStep, Agg.Valid, Succeeds;
    if displaced.Some? {
      ProcessNoted(s, o, st.(agg := agg), displaced.value, now, notes);
    }
  }

  lemma ReceiveOneNoted(s: Setup, o: Oracle, st: State, m: Parsed, now: int, notes: seq<Note>)
    requires Agg.Valid(st.agg) && Noted(st, notes)
    ensures Noted(ReceiveOne(s, o, st, m, now).state, notes + OneNotes(s, o, st, m, now))
  {
    hide Build, StoreMedia, Claimed, AddMessage, AddNotes, Agg.Valid, Noted;
    if m.whatsappId in st.claimed {
      assert notes + [] == notes;
    } else {
      var (client, name, known) := s.resolve(m.sender);
      var first := [Resolves(client, name, known)];
      var stored, built := StoreMedia(s, Claimed(s, st, m), m, Fetched(o, m)), Build(m, Fetched(o, m));
      var added := if built.Failure? then [] else AddNotes(s, o, stored, client, built.value, now);
      assert OneNotes(s, o, st, m, now) == first + added;
      assert (notes + first) + added == notes + (first + added);
      hide OneNotes;
      ClaimNoted(s, o, st, m, notes);
      if built.Failure? {
        UnbuiltNoted(stored, m.whatsappId, notes + first);
        assert (notes + first) + [] == notes + first;
      } else {
        AddNoted(s, o, stored, client, built.value, now, notes + first);
      }
    }
  }

  lemma {:induction false} ReceiveNoted(s: Setup, o: Oracle, st: State, ms: seq<Parsed>, now: int, notes: seq<Note>)
    requires Agg.Valid(st.agg) && Noted(st, notes)
    ensures Noted(Receive(s, o, st, ms, now).state, notes + ReceiveNotes(s, o, st, ms, now))
    decreases |ms|
  {
    hide ReceiveOne, OneNotes, Noted, Agg.Valid;
    if ms == [] {
      assert notes + [] == notes;
    } else {
      var p, first := ReceiveOne(s, o, st, ms[0], now), OneNotes(s, o, st, ms[0], now);
      ReceiveOneKeepsValid(s, o, st, ms[0], now);
      ReceiveOneNoted(s, o, st, ms[0], now, notes);
      if p.returned {
        var rest := ReceiveNotes(s, o, p.state, ms[1..], now);
        ReceiveNoted(s, o, p.state, ms[1..], now, notes + first);
        assert (notes + first) + rest == notes + (first + rest);
      } else {
        assert first + [] == first;
      }
    }
  }

  lemma PopNoted(s: Setup, st: State, now: int, notes: seq<Note>)
    requires Agg.Valid(st.agg) && Noted(st, notes)
    ensures var (agg, due) := Agg.FlushDueStep(s.windows, st.agg, now);
            Noted(st.(agg := agg), notes) && Resolved(st.(agg := agg), due)
  {
    hide AllNamed, HandedIn, IngestsOf, Latest;
  }

  lemma StepNoted(s: Setup, o: Oracle, st: State, e: Event, notes: seq<Note>)
    requires Agg.Valid(st.agg) && Noted(st, notes)
    ensures Noted(Step(s, o, st, e).state, notes + StepNotes(s, o, st, e))
  {
    match e
    case Deliver(ms, now) => ReceiveNoted(s, o, st, ms, now, notes);
    case Tick(now) =>
      var (agg, due) := Agg.FlushDueStep(s.windows, st.agg, now);
      PopNoted(s, st, now, notes);
      AllNoted(s, o, st.(agg := agg), due, now, notes);
    case Click(action, now, outcome) =>
      hide Life.PlanOf, Life.Exec;
      CallsSnoc(st.calls, Life.Act(action, now, outcome));
      assert notes + [] == notes;
  }

  lemma {:induction false} RunNoted(s: Setup, o: Oracle, st: State, es: seq<Event>, notes: seq<Note>)
    requires Agg.Valid(st.agg) && Noted(st, notes)
    ensures Noted(Run(s, o, st, es).state, notes + RunNotes(s, o, st, es))
    decreases |es|
  {
    hide Step, StepNotes, Noted, Agg.Valid;
    if es == [] {
      assert notes + [] == notes;
    } else {
      StepKeepsValid(s, o, st, es[0]);
      StepNoted(s, o, st, es[0], notes);
      var st1, first := Step(s, o, st, es[0]).state, StepNotes(s, o, st, es[0]);
      RunNoted(s, o, st1, es[1..], notes + first);
      assert (notes + first) + RunNotes(s, o, st1, es[1..]) == notes + (first + RunNotes(s, o, st1, es[1..]));
    }
  }

  /** In every run, the batches ingested are those noted, in order, and each was handed over when it was
      noted, under the name its client was last resolved to before, flagged exactly when that resolution
      did not know it. */
  lemma HandoffsNamed(s: Setup, o: Oracle, es: seq<Event>)
    ensures var notes := RunNotes(s, o, INITIAL, es);
            IngestsOf(Run(s, o, INITIAL, es).state.calls) == HandedIn(notes) && AllNamed(notes)
  {
    RunNoted(s, o, INITIAL, es, []);
    assert [] + RunNotes(s, o, INITIAL, es) == RunNotes(s, o, INITIAL, es);
  }
}
