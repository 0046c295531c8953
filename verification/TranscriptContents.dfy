/** What the segments of a transcript contain, by kind of message, and which exception a failure reports. */
module TranscriptContents {
  import opened Wrappers
  import opened Domain
  import opened Transcript
  import Parser
  import ParserFields

  /** A processed segment of `m`. */
  ghost predicate Tells(s: Segment, m: Message, source: string, content: string) {
    && s.messageId == m.id && s.timestamp == m.receivedAt && s.status == Status.Processed
    && s.source == source && s.content == content
  }

  /** `text` after a non-empty `prefix` and the separator, or alone. */
  ghost predicate After(content: string, prefix: Option<string>, separator: string, text: string) {
    if prefix == None || prefix == Some("") then content == text else content == prefix.value + separator + text
  }

  ghost predicate TellsOne(m: Message, source: string, told: Result<string, string>, prefix: Option<string>, separator: string,
                           segs: seq<Segment>)
  {
    && |segs| == 1 && told.Success?
    && After(segs[0].content, prefix, separator, told.value) && Tells(segs[0], m, source, segs[0].content)
  }

  ghost predicate TellsFrames(p: Providers, m: Message, frames: seq<Bytes>, segs: seq<Segment>) {
    && |segs| == |frames|
    && (forall i | 0 <= i < |frames| :: TellsFrame(m, p.describe(frames[i], "image/jpeg"), segs[i]))
  }

  ghost predicate TellsFrame(m: Message, described: Result<string, string>, s: Segment) {
    described.Success? && Tells(s, m, "video-frame", described.value)
  }

  /** The transcribed sound first, then one segment for each frame, in order. */
  ghost predicate TellsVideo(p: Providers, m: Message, content: Bytes, segs: seq<Segment>) {
    var sound, frames := p.extractAudio(content), p.sampleFrames(content);
    && sound.Success? && frames.Success? && |segs| > 0
    && var text := p.transcribe(sound.value, None);
    && text.Success? && Tells(segs[0], m, "video-audio", text.value)
    && TellsFrames(p, m, frames.value, segs[1..])
  }

  ghost predicate TellsMedia(p: Providers, m: Message, data: Media, segs: seq<Segment>) {
    match m.kind
    case Text => false
    case Audio => TellsOne(m, "audio", p.transcribe(data.content, Some(data.mimeType)), None, "", segs)
    case Voice => TellsOne(m, "audio", p.transcribe(data.content, Some(data.mimeType)), None, "", segs)
    case Image => TellsOne(m, "image", p.describe(data.content, data.mimeType), m.caption, " \U{2014} ", segs)
    case Video => TellsVideo(p, m, data.content, segs)
    case Document => TellsOne(m, "document", p.extractText(data.content, data.mimeType), m.filename, ": ", segs)
  }

  /** `segs` is what the message says: its own text, or what the provider for its kind makes of its media. */
  ghost predicate TellsMessage(p: Providers, m: Message, media: map<string, Media>, segs: seq<Segment>) {
    if m.kind == Text then
      |segs| == 1 && Tells(segs[0], m, "text", match m.text case None => "" case Some(t) => t)
    else
      m.id in media && TellsMedia(p, m, media[m.id], segs)
  }

  // ---- failures ----

  /** `reason` is the exception of the first frame that cannot be described. */
  ghost predicate FrameReason(p: Providers, frames: seq<Bytes>, reason: string) {
    exists i | 0 <= i < |frames| :: FirstFails(p, frames, i, reason)
  }

  ghost predicate FirstFails(p: Providers, frames: seq<Bytes>, i: nat, reason: string)
    requires i < |frames|
  {
    && p.describe(frames[i], "image/jpeg") == Failure(reason)
    && (forall j | 0 <= j < i :: p.describe(frames[j], "image/jpeg").Success?)
  }

  /** `reason` is the first exception of sound, transcription, sampling and describing. */
  ghost predicate VideoReason(p: Providers, content: Bytes, reason: string) {
    var sound, frames := p.extractAudio(content), p.sampleFrames(content);
    if sound.Failure? then reason == sound.error
    else if p.transcribe(sound.value, None).Failure? then reason == p.transcribe(sound.value, None).error
    else if frames.Failure? then reason == frames.error
    else FrameReason(p, frames.value, reason)
  }

  ghost predicate Reason(p: Providers, m: Message, media: map<string, Media>, reason: string) {
    if m.kind != Text && m.id !in media then reason == "no media bytes available"
    else
      match m.kind
      case Text => false
      case Audio => p.transcribe(media[m.id].content, Some(media[m.id].mimeType)) == Failure(reason)
      case Voice => p.transcribe(media[m.id].content, Some(media[m.id].mimeType)) == Failure(reason)
      case Image => p.describe(media[m.id].content, media[m.id].mimeType) == Failure(reason)
      case Video => VideoReason(p, media[m.id].content, reason)
      case Document => p.extractText(media[m.id].content, media[m.id].mimeType) == Failure(reason)
  }

  function Failed(m: Message, reason: string): Segment {
    Segment(m.id, KindName(m.kind), m.receivedAt, "[unprocessable: " + reason + "]", Unprocessable)
  }

  /** One segment, named after the kind, with the reason as its content. */
  ghost predicate TellsFailure(p: Providers, m: Message, media: map<string, Media>, segs: seq<Segment>) {
    exists reason :: Reason(p, m, media, reason) && segs == [Failed(m, reason)]
  }

  // ---- the blocks are what they should be ----

  lemma {:induction false} FramesTell(p: Providers, m: Message, frames: seq<Bytes>)
    ensures var r := FrameSegments(p, m, frames);
            if r.Success? then TellsFrames(p, m, frames, r.value) else FrameReason(p, frames, r.error)
  {
    if frames != [] {
      var n := |frames| - 1;
      FramesTell(p, m, frames[..n]);
      var before := FrameSegments(p, m, frames[..n]);
      assert forall i | 0 <= i < n :: frames[..n][i] == frames[i];
      if before.Success? {
        forall i | 0 <= i < n ensures p.describe(frames[i], "image/jpeg").Success? {
          assert TellsFrame(m, p.describe(frames[..n][i], "image/jpeg"), before.value[i]);
        }
        if p.describe(frames[n], "image/jpeg").Failure? {
          assert FirstFails(p, frames, n, p.describe(frames[n], "image/jpeg").error);
        }
      } else {
        var i :| 0 <= i < n && FirstFails(p, frames[..n], i, before.error);
        assert FirstFails(p, frames, i, before.error);
      }
    }
  }

  lemma VideoTells(p: Providers, m: Message, content: Bytes)
    ensures var r := VideoSegments(p, m, content);
            if r.Success? then TellsVideo(p, m, content, r.value) else VideoReason(p, content, r.error)
  {
    hide TellsFrames, FrameReason, FrameSegments;
    var frames := p.sampleFrames(content);
    if frames.Success? {
      FramesTell(p, m, frames.value);
      var r := VideoSegments(p, m, content);
      if r.Success? {
        assert r.value[1..] == FrameSegments(p, m, frames.value).value;
      }
    }
  }

  /** A message's block tells what it says if every provider it needs succeeds, and otherwise why not. */
  lemma BlockTells(p: Providers, m: Message, media: map<string, Media>)
    ensures var block := Block(p, m, media);
            if SegmentsFor(p, m, media).Success? then TellsMessage(p, m, media, block) else TellsFailure(p, m, media, block)
  {
    hide VideoSegments, TellsVideo, VideoReason;
    if m.kind == Video && m.id in media {
      VideoTells(p, m, media[m.id].content);
    }
    var r := SegmentsFor(p, m, media);
    if r.Failure? {
      assert Reason(p, m, media, r.error) && Block(p, m, media) == [Failed(m, r.error)];
    }
  }

  /** A message fails exactly when there is a reason. */
  lemma FailsExactlyWhen(p: Providers, m: Message, media: map<string, Media>)
    ensures (forall segs :: !TellsMessage(p, m, media, segs)) <==> exists reason :: Reason(p, m, media, reason)
  {
    BlockTells(p, m, media);
    if segs :| TellsMessage(p, m, media, segs) {
      if reason :| Reason(p, m, media, reason) {
        NotBoth(p, m, media, segs, reason);
      }
    }
  }

  lemma NotBoth(p: Providers, m: Message, media: map<string, Media>, segs: seq<Segment>, reason: string)
    ensures !(TellsMessage(p, m, media, segs) && Reason(p, m, media, reason))
  {
  }

  // ---- the transcript ----

  lemma {:induction false} BlocksTell(p: Providers, ms: seq<Message>, media: map<string, Media>) returns (blocks: seq<seq<Segment>>)
    ensures Blocks(p, ms, media) == Flatten(blocks) && |blocks| == |ms|
    ensures forall i | 0 <= i < |ms| :: TellsMessage(p, ms[i], media, blocks[i]) || TellsFailure(p, ms[i], media, blocks[i])
  {
    hide Block, TellsMessage, TellsFailure;
    blocks := [];
    if ms != [] {
      var n := |ms| - 1;
      var before := BlocksTell(p, ms[..n], media);
      BlockTells(p, ms[n], media);
      blocks := before + [Block(p, ms[n], media)];
      FlattenSnoc(before, Block(p, ms[n], media));
    }
  }

  /**
   A transcript is, message by message in ascending order, what each message says (told from its own
   media by the provider for its kind) or the reason why it could not be processed.
   */
  lemma TranscriptTells(p: Providers, ms: seq<Message>, media: map<string, Media>) returns (blocks: seq<seq<Segment>>)
    ensures TranscriptOf(p, ms, media) == Flatten(blocks) && |blocks| == |ms| == |Sorted(ms)|
    ensures forall i | 0 <= i < |ms| ::
              TellsMessage(p, Sorted(ms)[i], media, blocks[i]) || TellsFailure(p, Sorted(ms)[i], media, blocks[i])
  {
    hide TellsMessage, TellsFailure, Sorted;
    SortedIsStable(ms, 0);
    assert |multiset(ms)| == |ms| && |multiset(Sorted(ms))| == |Sorted(ms)|;
    blocks := BlocksTell(p, Sorted(ms), media);
  }

  /** The name a failure is reported under is the name the type arrived under, voice notes apart. */
  lemma KindNameIsTypeName(fields: seq<(string, Parser.Json)>, kind: MessageType)
    requires ParserFields.KindIs(fields, kind) && kind != Voice
    ensures Parser.Get(fields, "type") == Parser.Str(KindName(kind))
  {
  }
}
