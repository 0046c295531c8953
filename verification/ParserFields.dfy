/** Which part of a webhook body each parsed message, and each part of it, comes from. */
module ParserFields {
  import opened Wrappers
  import opened Domain
  import opened Parser

  // ---- lookups ----

  ghost predicate DistinctNames(fields: seq<(string, Json)>) {
    forall i, j | 0 <= i < j < |fields| :: fields[i].0 != fields[j].0
  }

  /** A lookup finds the value under the name, or the default if the name is absent. */
  lemma {:induction false} LookupMeans(fields: seq<(string, Json)>, name: string, default: Json)
    requires DistinctNames(fields)
    ensures forall i | 0 <= i < |fields| && fields[i].0 == name :: GetOr(fields, name, default) == fields[i].1
    ensures !Has(fields, name) ==> GetOr(fields, name, default) == default
  {
    if fields != [] && fields[0].0 != name {
      LookupMeans(fields[1..], name, default);
      forall i | 0 <= i < |fields| && fields[i].0 == name ensures GetOr(fields, name, default) == fields[i].1 {
        assert fields[1..][i - 1] == fields[i];
      }
    }
  }

  /** `v` is what `j` has under `name`: nothing unless `j` is an object that has it. */
  ghost predicate Entry(j: Json, name: string, v: Json) {
    v == if j.Obj? then Get(j.fields, name) else Null
  }

  /** The optional text `t` stands for `v`. */
  ghost predicate Stands(v: Json, t: Option<string>) {
    (v == Null && t == None) || (v.Str? && t == Some(v.s))
  }

  // ---- the type ----

  /** `type` decides, and for audio whether `voice` is true. */
  ghost predicate KindIs(fields: seq<(string, Json)>, kind: MessageType) {
    var named, audio := Get(fields, "type"), Get(fields, "audio");
    var voice := audio.Obj? && Get(audio.fields, "voice") == Bool(true);
    match kind
    case Text => named == Str("text")
    case Image => named == Str("image")
    case Video => named == Str("video")
    case Document => named == Str("document")
    case Voice => named == Str("audio") && voice
    case Audio => named == Str("audio") && !voice
  }

  lemma KindMeans(fields: seq<(string, Json)>, kind: MessageType)
    ensures ResolveType(fields) == Some(kind) <==> KindIs(fields, kind)
  {
  }

  lemma SupportedMeans(raw: Json)
    ensures Supported(raw) <==> raw.Obj? && Has(raw.fields, "id") && exists kind :: KindIs(raw.fields, kind)
  {
    if raw.Obj? {
      forall kind ensures ResolveType(raw.fields) == Some(kind) <==> KindIs(raw.fields, kind) {
        KindMeans(raw.fields, kind);
      }
      hide ResolveType, KindIs;
      assert ResolveType(raw.fields).Some? ==> KindIs(raw.fields, ResolveType(raw.fields).value);
    }
  }

  // ---- the fields of a message ----

  /** The name under which a message of this kind carries its media: a voice note is audio. */
  function MediaName(kind: MessageType): string {
    if kind in {Audio, Voice} then "audio" else if kind == Image then "image" else if kind == Video then "video" else "document"
  }

  /** Every field of `m` comes from the entry of its own name. */
  ghost predicate Says(env: Env, fields: seq<(string, Json)>, m: ParsedMessage) {
    && m.whatsappId == env.show(Get(fields, "id"))
    && m.sender == env.show(GetOr(fields, "from", Str("")))
    && m.timestamp == env.stamp(Get(fields, "timestamp"))
    && KindIs(fields, m.kind)
    && if m.kind == Text then
         && Entry(Get(fields, "text"), "body", m.text)
         && m.caption == m.mediaId == m.mimeType == m.filename == Null
       else
         var media := Get(fields, MediaName(m.kind));
         && m.text == Null
         && Entry(media, "caption", m.caption) && Entry(media, "id", m.mediaId)
         && Entry(media, "mime_type", m.mimeType) && Entry(media, "filename", m.filename)
  }

  lemma BuildSays(env: Env, fields: seq<(string, Json)>, kind: MessageType, contacts: map<string, Json>, m: ParsedMessage)
    requires KindIs(fields, kind) && BuildMessage(env, fields, kind, contacts) == Success(m)
    ensures Says(env, fields, m) && m.kind == kind
    ensures Stands(if m.sender in contacts then contacts[m.sender] else Null, m.senderName)
  {
    hide KindIs;
  }

  /** Nothing, as Python sees it. */
  ghost predicate Falsy(j: Json) {
    j == Null || j == Bool(false) || (j.Num? && j.isZero) || j == Str("") || j == Arr([]) || j == Obj([])
  }

  /** A message is built exactly when its sender's name is a string or null and the part that holds its
      content is an object or nothing. */
  lemma BuildsExactlyWhen(env: Env, fields: seq<(string, Json)>, kind: MessageType, contacts: map<string, Json>)
    requires KindIs(fields, kind)
    ensures var sender := env.show(GetOr(fields, "from", Str("")));
            var part := Get(fields, if kind == Text then "text" else MediaName(kind));
            BuildMessage(env, fields, kind, contacts).Success? <==>
              && (sender in contacts ==> contacts[sender] == Null || contacts[sender].Str?)
              && (part.Obj? || Falsy(part))
  {
    hide KindIs;
  }

  // ---- the sender's name ----

  ghost predicate IsContact(env: Env, c: Json, who: string) {
    c.Obj? && Get(c.fields, "wa_id") != Null && env.show(Get(c.fields, "wa_id")) == who
  }

  ghost predicate NoContact(env: Env, items: seq<Json>, who: string) {
    forall i | 0 <= i < |items| :: !IsContact(env, items[i], who)
  }

  ghost predicate LastContact(env: Env, items: seq<Json>, who: string, i: int) {
    0 <= i < |items| && IsContact(env, items[i], who) && NoContact(env, items[i + 1..], who)
  }

  /** `name` is the profile name of the last contact called `who`, and nothing if there is none. */
  ghost predicate NamedBy(env: Env, items: seq<Json>, who: string, name: Json) {
    && (forall i | LastContact(env, items, who, i) :: Entry(Get(items[i].fields, "profile"), "name", name))
    && (NoContact(env, items, who) ==> name == Null)
  }

  lemma {:induction false} ContactsMean(env: Env, items: seq<Json>, who: string)
    requires ContactsOf(env, items).Success?
    ensures var contacts := ContactsOf(env, items).value;
            && (who in contacts <==> !NoContact(env, items, who))
            && NamedBy(env, items, who, if who in contacts then contacts[who] else Null)
  {
    if items != [] {
      var n := |items| - 1;
      var before, contacts := items[..n], ContactsOf(env, items).value;
      ContactsSnoc(env, items, who);
      ContactsMean(env, before, who);
      hide ContactsOf, IsContact, Entry;
      assert items[n] in items && forall i | 0 <= i < n :: items[i] == before[i];
      forall i | LastContact(env, items, who, i) ensures Entry(Get(items[i].fields, "profile"), "name", contacts[who]) {
        if i < n {
          EarlierLast(env, items, who, i);
        }
      }
    }
  }

  /** A contact before the end is the last one only if the end is none. */
  lemma EarlierLast(env: Env, items: seq<Json>, who: string, i: nat)
    requires i < |items| - 1 && LastContact(env, items, who, i)
    ensures !IsContact(env, items[|items| - 1], who) && LastContact(env, items[..|items| - 1], who, i)
  {
    hide IsContact;
    var n := |items| - 1;
    assert items[i + 1..][n - i - 1] == items[n];
    assert items[..n][i + 1..] == items[i + 1..][..n - i - 1];
  }

  /** The last item gives `who` its name if it is a contact of `who`, and otherwise changes nothing. */
  lemma ContactsSnoc(env: Env, items: seq<Json>, who: string)
    requires items != [] && ContactsOf(env, items).Success?
    ensures ContactsOf(env, items[..|items| - 1]).Success?
    ensures var last := items[|items| - 1];
            var before, after := ContactsOf(env, items[..|items| - 1]).value, ContactsOf(env, items).value;
            if IsContact(env, last, who) then
              who in after && Entry(Get(last.fields, "profile"), "name", after[who])
            else
              (who in after <==> who in before) && (who in after ==> after[who] == before[who])
  {
  }

  // ---- a whole body ----

  /** Each parsed message says what its raw message says, and carries the name that the contacts of the
      value it occurs in give its sender. */
  lemma ParsedSays(env: Env, value: seq<(string, Json)>, r: Raw, m: ParsedMessage)
    requires r in RawOf(env, value) && Supported(r.json) && Parse(env, r) == Success(m)
    ensures Says(env, r.json.fields, m)
    ensures var items := Items(GetOr(value, "contacts", Arr([])));
            items.Success? && exists name :: NamedBy(env, items.value, m.sender, name) && Stands(name, m.senderName)
  {
    hide NamedBy, ContactsOf, Says;
    var items := Items(GetOr(value, "contacts", Arr([]))).value;
    var kind := ResolveType(r.json.fields).value;
    KindMeans(r.json.fields, kind);
    BuildSays(env, r.json.fields, kind, r.contacts, m);
    ContactsMean(env, items, m.sender);
  }

  /** `m` says what the raw message says, and is named by the contacts of the value it occurs in. */
  ghost predicate SaysIn(env: Env, value: seq<(string, Json)>, r: Raw, m: ParsedMessage) {
    && r in RawOf(env, value) && r.json.Obj? && Says(env, r.json.fields, m)
    && var items := Items(GetOr(value, "contacts", Arr([])));
    && items.Success? && exists name :: NamedBy(env, items.value, m.sender, name) && Stands(name, m.senderName)
  }

  lemma {:induction false} RawFrom(env: Env, values: seq<seq<(string, Json)>>, r: Raw)
    requires r in RawMessages(env, values)
    ensures exists value :: value in values && r in RawOf(env, value)
  {
    hide RawOf;
    var n := |values| - 1;
    if r in RawOf(env, values[n]) {
      assert values[n] in values;
    } else {
      RawFrom(env, values[..n], r);
    }
  }

  /** Every message of a parsed body says what the raw message in its place says; every skipped one has no
      id or no type that is accepted, and is reported by its type, or whole when it is no object. */
  lemma FlattenedSays(env: Env, values: seq<seq<(string, Json)>>, result: ParseResult, i: nat)
    requires Flattens(env, result, RawMessages(env, values))
    ensures var kept := Keep(RawMessages(env, values), true);
            i < |kept| ==> exists value :: value in values && SaysIn(env, value, kept[i], result.messages[i])
    ensures var skipped := Keep(RawMessages(env, values), false);
            i < |skipped| ==>
              var raw := skipped[i].json;
              && !(raw.Obj? && Has(raw.fields, "id") && exists kind :: KindIs(raw.fields, kind))
              && result.skippedTypes[i] == if raw.Obj? then Get(raw.fields, "type") else raw
  {
    var kept, skipped := Keep(RawMessages(env, values), true), Keep(RawMessages(env, values), false);
    hide RawOf, RawMessages, Supported, Says, NamedBy;
    if i < |kept| {
      assert kept[i] in kept && Parse(env, kept[i]) == Success(result.messages[i]);
      RawFrom(env, values, kept[i]);
      var value :| value in values && kept[i] in RawOf(env, value);
      assert kept[i].json.Obj? by { SupportedMeans(kept[i].json); }
      ParsedSays(env, value, kept[i], result.messages[i]);
      assert SaysIn(env, value, kept[i], result.messages[i]);
    }
    if i < |skipped| {
      assert skipped[i] in skipped;
      SupportedMeans(skipped[i].json);
    }
  }

  type Fields = seq<(string, Json)>

  function ValueOf(contacts: seq<Json>, messages: seq<Json>): Fields {
    [("contacts", Arr(contacts)), ("messages", Arr(messages))]
  }

  function ChangesOf(values: seq<Fields>): seq<Json> {
    seq(|values|, i requires 0 <= i < |values| => Obj([("value", Obj(values[i]))]))
  }

  function EntriesOf(groups: seq<seq<Fields>>): seq<Json> {
    seq(|groups|, i requires 0 <= i < |groups| => Obj([("changes", Arr(ChangesOf(groups[i])))]))
  }

  /** The body WhatsApp sends: entries of changes of values. */
  function BodyOf(groups: seq<seq<Fields>>): Json {
    Obj([("entry", Arr(EntriesOf(groups)))])
  }

  lemma {:induction false} ChangesBack(values: seq<Fields>)
    ensures ChangeValues(ChangesOf(values)) == Success(values)
  {
    if values != [] {
      var n := |values| - 1;
      ChangesBack(values[..n]);
      assert ChangesOf(values)[..n] == ChangesOf(values[..n]);
      assert values == values[..n] + [values[n]];
    }
  }

  lemma {:induction false} EntriesBack(groups: seq<seq<Fields>>)
    ensures EntriesValues(EntriesOf(groups)) == Success(Flatten(groups))
  {
    if groups != [] {
      var n := |groups| - 1;
      EntriesBack(groups[..n]);
      assert EntriesOf(groups)[..n] == EntriesOf(groups[..n]);
      ChangesBack(groups[n]);
      assert EntryValues(EntriesOf(groups)[n]) == Success(groups[n]);
      FlattenSnoc(groups[..n], groups[n]);
      assert groups == groups[..n] + [groups[n]];
    }
  }

  /** Flattening a body gives back exactly its values, in order. */
  lemma BodyBack(groups: seq<seq<Fields>>)
    ensures PayloadValues(BodyOf(groups)) == Success(Flatten(groups))
  {
    EntriesBack(groups);
  }

  /** The raw messages of a value are its messages, in order, each with the value's contacts. */
  lemma MessagesBack(env: Env, contacts: seq<Json>, messages: seq<Json>)
    requires ContactsOf(env, contacts).Success?
    ensures RawOf(env, ValueOf(contacts, messages)) == Attach(messages, ContactsOf(env, contacts).value)
  {
    hide ContactsOf, DistinctNames;
    var value := ValueOf(contacts, messages);
    assert value[0] == ("contacts", Arr(contacts)) && value[1] == ("messages", Arr(messages));
    assert DistinctNames(value) by { TwoNames(value); }
    LookupMeans(value, "contacts", Arr([]));
    LookupMeans(value, "messages", Arr([]));
  }

  lemma TwoNames(fields: Fields)
    requires |fields| == 2 && |fields[0].0| != 0 && |fields[1].0| != 0 && fields[0].0[0] != fields[1].0[0]
    ensures DistinctNames(fields)
  {
  }
}
