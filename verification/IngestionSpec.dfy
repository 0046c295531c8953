/**
 The ingestion service as a value: claims in front of the aggregator, the aggregator in front of the
 orchestrator.  `handed`, `dropped`, `unbuilt` and `calls` are history: what was handed to the
 orchestrator, what an exception made the service forget, and the lifecycle calls made so far.
 */
module IngestionSpec {
  import opened Wrappers
  import opened Domain
  import opened Segmentation
  import opened StorageKeys
  import Parser
  import Agg = AggregatorSpec
  import Life = Lifecycle

  type Parsed = Parser.ParsedMessage

  datatype Setup = Setup(
    windows: Windows,
    ids: Agg.IdSource,
    lifecycle: Life.Config,
    resolve: string -> (string, string, bool))

  /** Whether loading a batch's media from storage works, and what happens inside `ingest`. */
  datatype Handoff = Handoff(mediaLoads: bool, ingest: Life.IngestOracle)

  /** The outcome of downloading a message's media (`None`: it raised), and of handing a batch on. */
  datatype Oracle = Oracle(fetch: Parsed -> Option<Bytes>, handoff: AggregatedRequest -> Handoff)

  datatype State = State(
    agg: Agg.AggState,
    world: Life.World,
    claimed: set<string>,
    names: map<string, string>,
    known: map<string, bool>,
    handed: seq<AggregatedRequest>,
    dropped: seq<AggregatedRequest>,
    unbuilt: seq<string>,
    calls: seq<Life.Event>)

  const INITIAL := State(Agg.EMPTY, Life.START, {}, map[], map[], [], [], [], [])
  const UNKNOWN_CLIENT_FLAG := "unknown_client"

  /** A state, the number of messages accepted, and whether the call returned (rather than raised). */
  datatype Progress = Progress(state: State, accepted: nat, returned: bool)

  function CallLife(s: Setup, st: State, e: Life.Event): State {
    st.(world := Life.Exec(st.world, Life.PlanOf(s.lifecycle, st.world, e)), calls := st.calls + [e])
  }

  // ---- building a message ----

  predicate Downloads(m: Parsed) {
    m.mediaId != Parser.Null && m.kind != Text
  }

  function Fetched(o: Oracle, m: Parsed): Option<Bytes> {
    if Downloads(m) then o.fetch(m) else None
  }

  /** The message, unless one of the copied fields is not a string. */
  function Build(m: Parsed, fetched: Option<Bytes>): Parser.Outcome<Message> {
    var text :- Parser.OptionalText(m.text);
    var caption :- Parser.OptionalText(m.caption);
    var mediaId :- Parser.OptionalText(m.mediaId);
    var mimeType :- Parser.OptionalText(m.mimeType);
    var filename :- Parser.OptionalText(m.filename);
    Success(Message(m.whatsappId, m.kind, 0, m.timestamp, text, caption, mediaId, mimeType, filename,
                    if fetched.Some? then Some(InboundKey(m.whatsappId)) else None))
  }

  /** A copied field: null for nothing, a string for itself. */
  ghost predicate Copies(j: Parser.Json, t: Option<string>) {
    match t
    case None => j.Null?
    case Some(text) => j == Parser.Str(text)
  }

  ghost predicate IsText(j: Parser.Json) {
    j.Null? || j.Str?
  }

  /** The media was asked for and came. */
  ghost predicate Downloaded(o: Oracle, p: Parsed) {
    p.kind != Text && !p.mediaId.Null? && o.fetch(p).Some?
  }

  /** `m` is what the parsed `p` says, field by field, and refers to its own key exactly when its media came. */
  ghost predicate BuiltFrom(o: Oracle, p: Parsed, m: Message) {
    && m.id == p.whatsappId && m.kind == p.kind && m.receivedAt == p.timestamp
    && Copies(p.text, m.text) && Copies(p.caption, m.caption) && Copies(p.mediaId, m.mediaId)
    && Copies(p.mimeType, m.mimeType) && Copies(p.filename, m.filename)
    && m.rawRef == if Downloaded(o, p) then Some(InboundKey(p.whatsappId)) else None
  }

  /** A message is built exactly when its copied fields are strings or null, and then says what `p` says. */
  lemma BuildMeans(o: Oracle, p: Parsed)
    ensures var built := Build(p, Fetched(o, p));
            && (built.Success? <==>
                  IsText(p.text) && IsText(p.caption) && IsText(p.mediaId) && IsText(p.mimeType) && IsText(p.filename))
            && (built.Success? ==> BuiltFrom(o, p, built.value) && built.value.order == 0)
    ensures Fetched(o, p) == if Downloaded(o, p) then o.fetch(p) else None
  {
  }

  function StoreMedia(s: Setup, st: State, m: Parsed, fetched: Option<Bytes>): State {
    if fetched.Some? then CallLife(s, st, Life.StoreInbound(m.whatsappId, fetched.value)) else st
  }

  // ---- handing a batch to the orchestrator ----

  predicate NeedsMedia(ms: seq<Message>) {
    exists i | 0 <= i < |ms| :: ms[i].kind != Text && ms[i].rawRef.Some?
  }

  predicate MediaLoads(o: Oracle, r: AggregatedRequest) {
    NeedsMedia(r.messages) ==> o.handoff(r).mediaLoads
  }

  function IngestCall(st: State, r: AggregatedRequest, now: int, o: Oracle): Life.Event {
    var name := if r.clientId in st.names then st.names[r.clientId] else r.clientId;
    var flags := if r.clientId in st.known && !st.known[r.clientId] then [UNKNOWN_CLIENT_FLAG] else [];
    Life.Ingest(r, name, now, flags, o.handoff(r).ingest)
  }

  /** `ingest` returns when classification works and, if the owner is notified, sending does. */
  predicate IngestReturns(cfg: Life.Config, o: Life.IngestOracle) {
    o.classified.Some? && (o.sends || (o.classified.value.0 == NoIntent && !cfg.notifyOnNone))
  }

  predicate Succeeds(s: Setup, o: Oracle, r: AggregatedRequest) {
    MediaLoads(o, r) && IngestReturns(s.lifecycle, o.handoff(r).ingest)
  }

  function Process(s: Setup, o: Oracle, st: State, r: AggregatedRequest, now: int): State {
    if !MediaLoads(o, r) then st.(dropped := st.dropped + [r]) else
      CallLife(s, st, IngestCall(st, r, now, o)).(handed := st.handed + [r])
  }

  // ---- receive ----

  function Claimed(s: Setup, st: State, m: Parsed): State {
    var (client, name, known) := s.resolve(m.sender);
    st.(claimed := st.claimed + {m.whatsappId}, names := st.names[client := name], known := st.known[client := known])
  }

  function ReceiveOne(s: Setup, o: Oracle, st: State, m: Parsed, now: int): Progress {
    if m.whatsappId in st.claimed then Progress(st, 0, true) else
      var stored := StoreMedia(s, Claimed(s, st, m), m, Fetched(o, m));
      var built := Build(m, Fetched(o, m));
      if built.Failure? then Progress(stored.(unbuilt := stored.unbuilt + [m.whatsappId]), 1, false) else
        AddMessage(s, o, stored, s.resolve(m.sender).0, built.value, now)
  }

  function AddMessage(s: Setup, o: Oracle, st: State, client: string, m: Message, now: int): Progress {
    var (agg, displaced) := Agg.AddStep(s.windows, s.ids, st.agg, client, m, now);
    var added := st.(agg := agg);
    if displaced.None? then Progress(added, 1, true) else
      Progress(Process(s, o, added, displaced.value, now), 1, Succeeds(s, o, displaced.value))
  }

  /** The messages of one body, until one raises. */
  function Receive(s: Setup, o: Oracle, st: State, ms: seq<Parsed>, now: int): Progress
    decreases |ms|
  {
    if ms == [] then Progress(st, 0, true) else
      var p := ReceiveOne(s, o, st, ms[0], now);
      if !p.returned then p else
        var q := Receive(s, o, p.state, ms[1..], now);
        q.(accepted := p.accepted + q.accepted)
  }

  // ---- flush ----

  /** Hand over popped buckets in order; when one raises, those after it are gone. */
  function ProcessAll(s: Setup, o: Oracle, st: State, due: seq<AggregatedRequest>, now: int): Progress
    decreases |due|
  {
    if due == [] then Progress(st, 0, true) else
      var st1 := Process(s, o, st, due[0], now);
      if !Succeeds(s, o, due[0]) then Progress(st1.(dropped := st1.dropped + due[1..]), 0, false)
      else ProcessAll(s, o, st1, due[1..], now)
  }

  function Flush(s: Setup, o: Oracle, st: State, now: int): Progress
    requires Agg.Valid(st.agg)
  {
    var (agg, due) := Agg.FlushDueStep(s.windows, st.agg, now);
    ProcessAll(s, o, st.(agg := agg), due, now)
  }

  // ---- runs of the whole service ----

  datatype Event =
    | Deliver(messages: seq<Parsed>, now: int)
    | Tick(now: int)
    | Click(action: OwnerAction, now: int, outcome: Life.ActOracle)

  function Step(s: Setup, o: Oracle, st: State, e: Event): Progress
    requires Agg.Valid(st.agg)
  {
    match e
    case Deliver(ms, now) => Receive(s, o, st, ms, now)
    case Tick(now) => Flush(s, o, st, now)
    case Click(action, now, outcome) => Progress(CallLife(s, st, Life.Act(action, now, outcome)), 0, true)
  }

  lemma ProcessKeepsAgg(s: Setup, o: Oracle, st: State, r: AggregatedRequest, now: int)
    ensures var st' := Process(s, o, st, r, now);
            st'.agg == st.agg && st'.claimed == st.claimed && st'.unbuilt == st.unbuilt
  {
  }

  lemma {:induction false} ProcessAllKeepsAgg(s: Setup, o: Oracle, st: State, due: seq<AggregatedRequest>, now: int)
    ensures var st' := ProcessAll(s, o, st, due, now).state;
            st'.agg == st.agg && st'.claimed == st.claimed && st'.unbuilt == st.unbuilt
    decreases |due|
  {
    hide Process;
    if due != [] {
      ProcessKeepsAgg(s, o, st, due[0], now);
      ProcessAllKeepsAgg(s, o, Process(s, o, st, due[0], now), due[1..], now);
    }
  }

  lemma ReceiveOneKeepsValid(s: Setup, o: Oracle, st: State, m: Parsed, now: int)
    requires Agg.Valid(st.agg)
    ensures Agg.Valid(ReceiveOne(s, o, st, m, now).state.agg)
  {
    var client := s.resolve(m.sender).0;
    var built := Build(m, Fetched(o, m));
    if built.Success? {
      var next := Agg.Step(s.windows, s.ids, st.agg, Agg.Add(client, built.value, now)).0;
      assert Agg.Valid(next);
    }
  }

  lemma {:induction false} ReceiveKeepsValid(s: Setup, o: Oracle, st: State, ms: seq<Parsed>, now: int)
    requires Agg.Valid(st.agg)
    ensures Agg.Valid(Receive(s, o, st, ms, now).state.agg)
    decreases |ms|
  {
    hide ReceiveOne, Agg.Valid;
    if ms != [] {
      ReceiveOneKeepsValid(s, o, st, ms[0], now);
      ReceiveKeepsValid(s, o, ReceiveOne(s, o, st, ms[0], now).state, ms[1..], now);
    }
  }

  lemma StepKeepsValid(s: Setup, o: Oracle, st: State, e: Event)
    requires Agg.Valid(st.agg)
    ensures Agg.Valid(Step(s, o, st, e).state.agg)
  {
    match e
    case Deliver(ms, now) => ReceiveKeepsValid(s, o, st, ms, now);
    case Tick(now) =>
      var (agg, due) := Agg.Step(s.windows, s.ids, st.agg, Agg.FlushDue(now));
      ProcessAllKeepsAgg(s, o, st.(agg := agg), due, now);
    case Click(_, _, _) =>
  }

  /** A whole run; `returned` says that no call raised, `accepted` adds up what was accepted. */
  function Run(s: Setup, o: Oracle, st: State, es: seq<Event>): (p: Progress)
    requires Agg.Valid(st.agg)
    ensures Agg.Valid(p.state.agg)
    decreases |es|
  {
    if es == [] then Progress(st, 0, true) else
      StepKeepsValid(s, o, st, es[0]);
      var p := Step(s, o, st, es[0]);
      var q := Run(s, o, p.state, es[1..]);
      Progress(q.state, p.accepted + q.accepted, p.returned && q.returned)
  }
}
