/**
 Flattening a webhook payload into supported messages and skipped types.  Attribute, iteration and
 validation errors on ill-shaped payloads are one exception here: any of them abandons the whole body.
 */
module Parser {
  import opened Wrappers
  import opened Domain

  /** A decoded JSON value; an object's names are distinct, a number is kept as its numeral and whether
      the number read from it is zero. */
  datatype Json =
    | Null
    | Bool(b: bool)
    | Num(numeral: string, isZero: bool)
    | Str(s: string)
    | Arr(items: seq<Json>)
    | Obj(fields: seq<(string, Json)>)

  datatype Raised = Raised

  type Outcome<+T> = Result<T, Raised>

  /** `str(...)` of a value, and the timestamp a value stands for. */
  datatype Env = Env(show: Json -> string, stamp: Json -> int)

  /** `text`, `caption` and the media fields are copied unchecked: only building a message validates them. */
  datatype ParsedMessage = ParsedMessage(
    whatsappId: string,
    sender: string,
    senderName: Option<string>,
    kind: MessageType,
    timestamp: int,
    text: Json,
    caption: Json,
    mediaId: Json,
    mimeType: Json,
    filename: Json)

  datatype ParseResult = ParseResult(messages: seq<ParsedMessage>, skippedTypes: seq<Json>)

  // ---- dictionary access and iteration ----

  predicate Has(fields: seq<(string, Json)>, name: string) {
    exists i | 0 <= i < |fields| :: fields[i].0 == name
  }

  function GetOr(fields: seq<(string, Json)>, name: string, default: Json): Json {
    if fields == [] then default
    else if fields[0].0 == name then fields[0].1
    else GetOr(fields[1..], name, default)
  }

  function Get(fields: seq<(string, Json)>, name: string): Json {
    GetOr(fields, name, Null)
  }

  predicate Truthy(j: Json) {
    match j
    case Null => false
    case Bool(b) => b
    case Num(_, isZero) => !isZero
    case Str(s) => s != ""
    case Arr(items) => items != []
    case Obj(fields) => fields != []
  }

  /** `(j or {}).get(name)` */
  function GetIn(j: Json, name: string): Outcome<Json> {
    if !Truthy(j) then Success(Null)
    else if j.Obj? then Success(Get(j.fields, name))
    else Failure(Raised)
  }

  /** What iterating over a value yields. */
  function Items(j: Json): Outcome<seq<Json>> {
    match j
    case Arr(items) => Success(items)
    case Obj(fields) => Success(seq(|fields|, i requires 0 <= i < |fields| => Str(fields[i].0)))
    case Str(s) => Success(seq(|s|, i requires 0 <= i < |s| => Str([s[i]])))
    case _ => Failure(Raised)
  }

  // ---- one message ----

  function TypeOf(raw: string): Option<MessageType> {
    match raw
    case "text" => Some(Text)
    case "audio" => Some(Audio)
    case "image" => Some(Image)
    case "video" => Some(Video)
    case "document" => Some(Document)
    case _ => None
  }

  function ResolveType(fields: seq<(string, Json)>): Option<MessageType> {
    var rawType, audio := Get(fields, "type"), Get(fields, "audio");
    if rawType == Str("audio") && audio.Obj? then
      if Get(audio.fields, "voice") == Bool(true) then Some(Voice) else Some(Audio)
    else if rawType.Str? then TypeOf(rawType.s)
    else None
  }

  function MediaKey(kind: MessageType): string {
    match kind
    case Text => "text"
    case Audio => "audio"
    case Voice => "audio"
    case Video => "video"
    case Image => "image"
    case Document => "document"
  }

  function OptionalText(j: Json): Outcome<Option<string>> {
    match j
    case Null => Success(None)
    case Str(s) => Success(Some(s))
    case _ => Failure(Raised)
  }

  function BuildMessage(env: Env, fields: seq<(string, Json)>, kind: MessageType, contacts: map<string, Json>): Outcome<ParsedMessage> {
    var sender := env.show(GetOr(fields, "from", Str("")));
    var senderName :- OptionalText(if sender in contacts then contacts[sender] else Null);
    var parsed := ParsedMessage(env.show(Get(fields, "id")), sender, senderName, kind, env.stamp(Get(fields, "timestamp")),
                                Null, Null, Null, Null, Null);
    if kind == Text then
      var body :- GetIn(Get(fields, "text"), "body");
      Success(parsed.(text := body))
    else
      var media := Get(fields, MediaKey(kind));
      var caption :- GetIn(media, "caption");
      var mediaId :- GetIn(media, "id");
      var mimeType :- GetIn(media, "mime_type");
      var filename :- GetIn(media, "filename");
      Success(parsed.(caption := caption, mediaId := mediaId, mimeType := mimeType, filename := filename))
  }

  /** A raw message is supported when it is an object with an id and a type we accept. */
  predicate Supported(raw: Json) {
    raw.Obj? && Has(raw.fields, "id") && ResolveType(raw.fields).Some?
  }

  /** What is reported for an unsupported one: its type, or the value itself when it is no object. */
  function SkippedType(raw: Json): Json {
    if raw.Obj? then Get(raw.fields, "type") else raw
  }

  // ---- the reference: one flat list of raw messages ----

  /** The dictionary of one `value`, or the exception that reaching it raises. */
  function EntryValues(entry: Json): Outcome<seq<seq<(string, Json)>>> {
    if !entry.Obj? then Failure(Raised) else
      var changes :- Items(GetOr(entry.fields, "changes", Arr([])));
      ChangeValues(changes)
  }

  function ChangeValues(changes: seq<Json>): Outcome<seq<seq<(string, Json)>>> {
    if changes == [] then Success([]) else
      var before :- ChangeValues(changes[..|changes| - 1]);
      var change := changes[|changes| - 1];
      if !change.Obj? then Failure(Raised) else
        var value := Get(change.fields, "value");
        Success(before + if value.Obj? then [value.fields] else [])
  }

  function EntriesValues(entries: seq<Json>): Outcome<seq<seq<(string, Json)>>> {
    if entries == [] then Success([]) else
      var before :- EntriesValues(entries[..|entries| - 1]);
      var last :- EntryValues(entries[|entries| - 1]);
      Success(before + last)
  }

  function PayloadValues(payload: Json): Outcome<seq<seq<(string, Json)>>> {
    if !payload.Obj? then Failure(Raised) else
      var entries :- Items(GetOr(payload.fields, "entry", Arr([])));
      EntriesValues(entries)
  }

  /** The names in a list of contacts, by the string of their id; a later contact wins. */
  function ContactsOf(env: Env, items: seq<Json>): Outcome<map<string, Json>> {
    if items == [] then Success(map[]) else
      var before :- ContactsOf(env, items[..|items| - 1]);
      var c := items[|items| - 1];
      if !c.Obj? || Get(c.fields, "wa_id") == Null then Success(before) else
        var name :- GetIn(Get(c.fields, "profile"), "name");
        Success(before[env.show(Get(c.fields, "wa_id")) := name])
  }

  /** A raw message, with the contacts of the value it occurs in. */
  datatype Raw = Raw(json: Json, contacts: map<string, Json>)

  function Attach(items: seq<Json>, contacts: map<string, Json>): seq<Raw> {
    seq(|items|, i requires 0 <= i < |items| => Raw(items[i], contacts))
  }

  /** The raw messages of a list of values, in order of occurrence. */
  function RawMessages(env: Env, values: seq<seq<(string, Json)>>): seq<Raw> {
    if values == [] then [] else
      RawMessages(env, values[..|values| - 1]) + RawOf(env, values[|values| - 1])
  }

  function ValueContacts(env: Env, value: seq<(string, Json)>): Outcome<map<string, Json>> {
    var items :- Items(GetOr(value, "contacts", Arr([])));
    ContactsOf(env, items)
  }

  function RawOf(env: Env, value: seq<(string, Json)>): seq<Raw> {
    var items, contacts := Items(GetOr(value, "messages", Arr([]))), ValueContacts(env, value);
    if items.Success? && contacts.Success? then Attach(items.value, contacts.value) else []
  }

  function Keep(raws: seq<Raw>, supported: bool): (kept: seq<Raw>)
    ensures forall r | r in kept :: r in raws && Supported(r.json) == supported
  {
    if raws == [] then [] else
      var last := raws[|raws| - 1];
      Keep(raws[..|raws| - 1], supported) + if Supported(last.json) == supported then [last] else []
  }

  function Parse(env: Env, r: Raw): Outcome<ParsedMessage>
    requires Supported(r.json)
  {
    BuildMessage(env, r.json.fields, ResolveType(r.json.fields).value, r.contacts)
  }

  /** The parsed list is that of the supported raws in order, the skipped list the types of all others. */
  ghost predicate Flattens(env: Env, result: ParseResult, raws: seq<Raw>) {
    var kept, skipped := Keep(raws, true), Keep(raws, false);
    && |result.messages| == |kept|
    && (forall i | 0 <= i < |kept| :: Parse(env, kept[i]) == Success(result.messages[i]))
    && result.skippedTypes == seq(|skipped|, i requires 0 <= i < |skipped| => SkippedType(skipped[i].json))
  }

  lemma NothingFlattens(env: Env)
    ensures Flattens(env, ParseResult([], []), [])
  {
  }

  lemma FlattensOne(env: Env, result: ParseResult, raws: seq<Raw>, raw: Raw, next: ParseResult)
    requires Flattens(env, result, raws)
    requires if Supported(raw.json) then
               && next.skippedTypes == result.skippedTypes
               && exists m :: next.messages == result.messages + [m] && Parse(env, raw) == Success(m)
             else next == ParseResult(result.messages, result.skippedTypes + [SkippedType(raw.json)])
    ensures Flattens(env, next, raws + [raw])
  {
    hide Parse, Supported, SkippedType;
    assert (raws + [raw])[..|raws|] == raws;
  }

  /** Nothing is lost or invented: each raw message is in exactly one of the two lists, and the lists
      are determined by the raw messages. */
  lemma {:induction false} FlatteningConserves(env: Env, result: ParseResult, other: ParseResult, raws: seq<Raw>)
    requires Flattens(env, result, raws)
    ensures |result.messages| + |result.skippedTypes| == |raws|
    ensures multiset(Keep(raws, true)) + multiset(Keep(raws, false)) == multiset(raws)
    ensures Flattens(env, other, raws) ==> other == result
  {
    KeepPartitions(raws);
    if Flattens(env, other, raws) {
      forall i | 0 <= i < |Keep(raws, true)| ensures other.messages[i] == result.messages[i] {
        assert Parse(env, Keep(raws, true)[i]) == Success(result.messages[i]);
      }
      assert other.messages == result.messages;
    }
  }

  lemma {:induction false} KeepPartitions(raws: seq<Raw>)
    ensures |Keep(raws, true)| + |Keep(raws, false)| == |raws|
    ensures multiset(Keep(raws, true)) + multiset(Keep(raws, false)) == multiset(raws)
  {
    hide Supported;
    if raws != [] {
      var before, last := raws[..|raws| - 1], raws[|raws| - 1];
      KeepPartitions(before);
      assert raws == before + [last];
      assert multiset(raws) == multiset(before) + multiset{last};
    }
  }

  // ---- the loops ----

  method IterValues(payload: Json) returns (values: Outcome<seq<seq<(string, Json)>>>)
    ensures values == PayloadValues(payload)
  {
    hide EntryValues;
    if !payload.Obj? {
      return Failure(Raised);
    }
    var found: seq<seq<(string, Json)>> := [];
    var entries :- Items(GetOr(payload.fields, "entry", Arr([])));
    for i := 0 to |entries|
      invariant EntriesValues(entries[..i]) == Success(found)
    {
      assert entries[..i + 1][..i] == entries[..i];
      var changes := IterChanges(entries[i]);
      if changes.Failure? {
        EntriesFail(entries, i);
        assert PayloadValues(payload).error == Raised;
        return Failure(Raised);
      }
      found := found + changes.value;
    }
    assert entries[..|entries|] == entries;
    return Success(found);
  }

  /** The inner loop: the dictionaries among one entry's changes. */
  method IterChanges(entry: Json) returns (values: Outcome<seq<seq<(string, Json)>>>)
    ensures values == EntryValues(entry)
  {
    if !entry.Obj? {
      return Failure(Raised);
    }
    var found: seq<seq<(string, Json)>> := [];
    var changes :- Items(GetOr(entry.fields, "changes", Arr([])));
    for j := 0 to |changes|
      invariant ChangeValues(changes[..j]).Success? && found == ChangeValues(changes[..j]).value
    {
      assert changes[..j + 1][..j] == changes[..j];
      if !changes[j].Obj? {
        ChangesFail(changes, j);
        assert EntryValues(entry).error == Raised;
        return Failure(Raised);
      }
      var value := Get(changes[j].fields, "value");
      if value.Obj? {
        found := found + [value.fields];
      }
    }
    assert changes[..|changes|] == changes;
    return Success(found);
  }

  lemma {:induction false} ChangesFail(changes: seq<Json>, j: nat)
    requires j < |changes| && !changes[j].Obj?
    ensures ChangeValues(changes).Failure?
    decreases |changes|
  {
    if j < |changes| - 1 {
      ChangesFail(changes[..|changes| - 1], j);
    }
  }

  lemma {:induction false} EntriesFail(entries: seq<Json>, i: nat)
    requires i < |entries| && EntryValues(entries[i]).Failure?
    ensures EntriesValues(entries).Failure?
    decreases |entries|
  {
    if i < |entries| - 1 {
      EntriesFail(entries[..|entries| - 1], i);
    }
  }

  lemma {:induction false} ContactsFail(env: Env, items: seq<Json>, i: nat)
    requires i < |items| && ContactsOf(env, items[..i + 1]).Failure?
    ensures ContactsOf(env, items).Failure?
    decreases |items|
  {
    if i < |items| - 1 {
      assert items[..|items| - 1][..i + 1] == items[..i + 1];
      ContactsFail(env, items[..|items| - 1], i);
    } else {
      assert items[..i + 1] == items;
    }
  }

  method Contacts(env: Env, items: seq<Json>) returns (contacts: Outcome<map<string, Json>>)
    ensures contacts == ContactsOf(env, items)
  {
    var names: map<string, Json> := map[];
    for i := 0 to |items|
      invariant ContactsOf(env, items[..i]) == Success(names)
    {
      assert items[..i + 1][..i] == items[..i];
      if items[i].Obj? {
        var id := Get(items[i].fields, "wa_id");
        if id != Null {
          var name := GetIn(Get(items[i].fields, "profile"), "name");
          if name.Failure? {
            ContactsFail(env, items, i);
            assert ContactsOf(env, items).error == Raised;
            return Failure(Raised);
          }
          names := names[env.show(id) := name.value];
        }
      }
    }
    assert items[..|items|] == items;
    return Success(names);
  }

  /** Nothing in this value raises: its lists can be iterated, and what is supported can be built. */
  ghost predicate ValueOk(env: Env, value: seq<(string, Json)>) {
    && Items(GetOr(value, "messages", Arr([]))).Success?
    && ValueContacts(env, value).Success?
    && Buildable(env, RawOf(env, value))
  }

  ghost predicate Buildable(env: Env, raws: seq<Raw>) {
    forall r | r in raws && Supported(r.json) :: Parse(env, r).Success?
  }

  /** The inner loop: append each raw message to one of the two lists. */
  method ParseMessages(env: Env, items: seq<Json>, contacts: map<string, Json>, sofar: ParseResult, ghost before: seq<Raw>)
    returns (result: Outcome<ParseResult>)
    requires Flattens(env, sofar, before)
    ensures result.Success? <==> Buildable(env, Attach(items, contacts))
    ensures result.Success? ==> Flattens(env, result.value, before + Attach(items, contacts))
  {
    hide BuildMessage, ResolveType, Flattens;
    var messages, skipped := sofar.messages, sofar.skippedTypes;
    ghost var raws := Attach(items, contacts);
    assert before + raws[..0] == before;
    for j := 0 to |items|
      invariant Flattens(env, ParseResult(messages, skipped), before + raws[..j])
      invariant Buildable(env, raws[..j])
    {
      ghost var current := ParseResult(messages, skipped);
      var raw := items[j];
      assert before + raws[..j + 1] == (before + raws[..j]) + [raws[j]];
      if !raw.Obj? || !Has(raw.fields, "id") {
        skipped := skipped + [SkippedType(raw)];
      } else {
        var kind := ResolveType(raw.fields);
        if kind.None? {
          skipped := skipped + [Get(raw.fields, "type")];
        } else {
          assert Supported(raw) && raws[j] in raws;
          var message :- BuildMessage(env, raw.fields, kind.value, contacts);
          messages := messages + [message];
        }
      }
      FlattensOne(env, current, before + raws[..j], raws[j], ParseResult(messages, skipped));
    }
    assert raws[..|raws|] == raws;
    return Success(ParseResult(messages, skipped));
  }

  /** Parsing fails exactly when some shape is wrong (an unsupported message never is), and otherwise
      splits the payload's raw messages, in order, into the parsed and the skipped. */
  method ParseWebhook(env: Env, payload: Json) returns (result: Outcome<ParseResult>)
    ensures result.Success? <==> WellShaped(env, payload)
    ensures result.Success? ==> Flattens(env, result.value, RawMessages(env, PayloadValues(payload).value))
  {
    hide Flattens, Buildable, ContactsOf, PayloadValues;
    var values :- IterValues(payload);
    var parsed := ParseResult([], []);
    NothingFlattens(env);
    for i := 0 to |values|
      invariant Flattens(env, parsed, RawMessages(env, values[..i]))
      invariant forall v | v in values[..i] :: ValueOk(env, v)
    {
      assert values[..i + 1][..i] == values[..i];
      assert values[i] in values;
      var items :- Items(GetOr(values[i], "contacts", Arr([])));
      var contacts :- Contacts(env, items);
      var raws :- Items(GetOr(values[i], "messages", Arr([])));
      parsed :- ParseMessages(env, raws, contacts, parsed, RawMessages(env, values[..i]));
    }
    assert values[..|values|] == values;
    return Success(parsed);
  }

  /** No shape in the payload is wrong. */
  ghost predicate WellShaped(env: Env, payload: Json) {
    PayloadValues(payload).Success? && forall v | v in PayloadValues(payload).value :: ValueOk(env, v)
  }
}
