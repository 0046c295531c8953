/**
 One normalized transcript from a request's messages: each message, in `order`, contributes one block
 of labelled segments, and a message that cannot be processed contributes one unprocessable segment.
 */
module Transcript {
  import opened Wrappers
  import opened Domain

  datatype Status = Processed | Unprocessable

  datatype Segment = Segment(messageId: string, source: string, timestamp: int, content: string, status: Status)

  datatype Media = Media(content: Bytes, mimeType: string)

  /** Transcription, vision, video and document extraction: each yields a value or an exception's text. */
  datatype Providers = Providers(
    transcribe: (Bytes, Option<string>) -> Result<string, string>,
    describe: (Bytes, string) -> Result<string, string>,
    extractAudio: Bytes -> Result<Bytes, string>,
    sampleFrames: Bytes -> Result<seq<Bytes>, string>,
    extractText: (Bytes, string) -> Result<string, string>)

  // ---- one message ----

  function Processed(m: Message, source: string, content: string): Segment {
    Segment(m.id, source, m.receivedAt, content, Status.Processed)
  }

  function Labelled(prefix: Option<string>, separator: string, text: string): string {
    if prefix.Some? && prefix.value != "" then prefix.value + separator + text else text
  }

  /** The segments of one message, or the text of the exception that processing it raises. */
  function SegmentsFor(p: Providers, m: Message, media: map<string, Media>): (r: Result<seq<Segment>, string>)
    ensures r.Success? ==> r.value != [] && forall s | s in r.value :: s.messageId == m.id && s.status == Status.Processed
  {
    if m.kind == Text then Success([Processed(m, "text", if m.text.Some? then m.text.value else "")])
    else if m.id !in media then Failure("no media bytes available")
    else
      var Media(content, mimeType) := media[m.id];
      if m.kind in {Audio, Voice} then
        var text :- p.transcribe(content, Some(mimeType));
        Success([Processed(m, "audio", text)])
      else if m.kind == Image then
        var description :- p.describe(content, mimeType);
        Success([Processed(m, "image", Labelled(m.caption, " \U{2014} ", description))])
      else if m.kind == Video then
        VideoSegments(p, m, content)
      else
        var text :- p.extractText(content, mimeType);
        Success([Processed(m, "document", Labelled(m.filename, ": ", text))])
  }

  /** The audio segment, then one per sampled frame: all of them, or none. */
  function VideoSegments(p: Providers, m: Message, content: Bytes): (r: Result<seq<Segment>, string>)
    ensures r.Success? ==> r.value != [] && forall s | s in r.value :: s.messageId == m.id && s.status == Status.Processed
  {
    var audio :- p.extractAudio(content);
    var text :- p.transcribe(audio, None);
    var frames :- p.sampleFrames(content);
    var described :- FrameSegments(p, m, frames);
    Success([Processed(m, "video-audio", text)] + described)
  }

  function FrameSegments(p: Providers, m: Message, frames: seq<Bytes>): (r: Result<seq<Segment>, string>)
    ensures r.Success? ==> |r.value| == |frames|
    ensures r.Success? ==> forall s | s in r.value :: s.messageId == m.id && s.status == Status.Processed
  {
    if frames == [] then Success([]) else
      var before :- FrameSegments(p, m, frames[..|frames| - 1]);
      var description :- p.describe(frames[|frames| - 1], "image/jpeg");
      Success(before + [Processed(m, "video-frame", description)])
  }

  function KindName(kind: MessageType): string {
    match kind
    case Text => "text"
    case Audio => "audio"
    case Voice => "voice"
    case Video => "video"
    case Image => "image"
    case Document => "document"
  }

  /** What a message contributes. */
  function Block(p: Providers, m: Message, media: map<string, Media>): (block: seq<Segment>)
    ensures block != [] && forall s | s in block :: s.messageId == m.id
  {
    var segments := SegmentsFor(p, m, media);
    if segments.Success? then segments.value else
      [Segment(m.id, KindName(m.kind), m.receivedAt, "[unprocessable: " + segments.error + "]", Unprocessable)]
  }

  // ---- the whole transcript ----

  /** Insert before the first message of a larger order, so that equal orders keep their positions. */
  function Insert(m: Message, sorted: seq<Message>): seq<Message> {
    if sorted == [] then [m]
    else if sorted[|sorted| - 1].order <= m.order then sorted + [m]
    else Insert(m, sorted[..|sorted| - 1]) + [sorted[|sorted| - 1]]
  }

  /** The stable sort by `order`. */
  function Sorted(ms: seq<Message>): seq<Message> {
    if ms == [] then [] else Insert(ms[|ms| - 1], Sorted(ms[..|ms| - 1]))
  }

  function Blocks(p: Providers, ms: seq<Message>, media: map<string, Media>): seq<Segment> {
    if ms == [] then [] else Blocks(p, ms[..|ms| - 1], media) + Block(p, ms[|ms| - 1], media)
  }

  function TranscriptOf(p: Providers, ms: seq<Message>, media: map<string, Media>): seq<Segment> {
    Blocks(p, Sorted(ms), media)
  }

  // ---- the loops ----

  method SampleVideo(p: Providers, m: Message, content: Bytes) returns (result: Result<seq<Segment>, string>)
    ensures result == VideoSegments(p, m, content)
  {
    var audio :- p.extractAudio(content);
    var text :- p.transcribe(audio, None);
    var segments := [Processed(m, "video-audio", text)];
    var frames :- p.sampleFrames(content);
    for i := 0 to |frames|
      invariant FrameSegments(p, m, frames[..i]).Success?
      invariant segments == [Processed(m, "video-audio", text)] + FrameSegments(p, m, frames[..i]).value
    {
      assert frames[..i + 1][..i] == frames[..i];
      var description := p.describe(frames[i], "image/jpeg");
      if description.Failure? {
        FrameFails(p, m, frames, i);
        return Failure(description.error);
      }
      segments := segments + [Processed(m, "video-frame", description.value)];
    }
    assert frames[..|frames|] == frames;
    return Success(segments);
  }

  /** The first frame that cannot be described decides the exception. */
  lemma {:induction false} FrameFails(p: Providers, m: Message, frames: seq<Bytes>, i: nat)
    requires i < |frames| && FrameSegments(p, m, frames[..i]).Success? && p.describe(frames[i], "image/jpeg").Failure?
    ensures FrameSegments(p, m, frames) == Failure(p.describe(frames[i], "image/jpeg").error)
    decreases |frames|
  {
    var before := frames[..|frames| - 1];
    if i < |before| {
      assert before[..i] == frames[..i];
      FrameFails(p, m, before, i);
    } else {
      assert before == frames[..i];
    }
  }

  method Process(p: Providers, m: Message, media: map<string, Media>) returns (result: Result<seq<Segment>, string>)
    ensures result == SegmentsFor(p, m, media)
  {
    if m.kind == Video && m.id in media {
      result := SampleVideo(p, m, media[m.id].content);
    } else {
      result := SegmentsFor(p, m, media);
    }
  }

  lemma NoBlocks(p: Providers, media: map<string, Media>)
    ensures Blocks(p, [], media) == []
  {
  }

  lemma BlocksSnoc(p: Providers, ms: seq<Message>, i: nat, media: map<string, Media>)
    requires i < |ms|
    ensures Blocks(p, ms[..i + 1], media) == Blocks(p, ms[..i], media) + Block(p, ms[i], media)
  {
    assert ms[..i + 1][..i] == ms[..i];
  }

  method BuildTranscript(p: Providers, messages: seq<Message>, media: map<string, Media>) returns (segments: seq<Segment>)
    ensures segments == TranscriptOf(p, messages, media)
  {
    hide SegmentsFor, VideoSegments, Blocks, KindName, Sorted;
    var sorted := Sorted(messages);
    segments := [];
    NoBlocks(p, media);
    for i := 0 to |sorted|
      invariant segments == Blocks(p, sorted[..i], media)
    {
      BlocksSnoc(p, sorted, i, media);
      var m := sorted[i];
      var processed := Process(p, m, media);
      if processed.Success? {
        segments := segments + processed.value;
      } else {
        segments := segments +
          [Segment(m.id, KindName(m.kind), m.receivedAt, "[unprocessable: " + processed.error + "]", Unprocessable)];
      }
    }
    assert sorted[..|sorted|] == sorted;
  }

  // ---- order ----

  ghost predicate InOrder(ms: seq<Message>) {
    forall i, j | 0 <= i < j < |ms| :: ms[i].order <= ms[j].order
  }

  /** The messages of one order, in list order. */
  function OfOrder(ms: seq<Message>, order: int): seq<Message> {
    if ms == [] then [] else
      OfOrder(ms[..|ms| - 1], order) + if ms[|ms| - 1].order == order then [ms[|ms| - 1]] else []
  }

  lemma {:induction false} InsertPermutes(m: Message, sorted: seq<Message>)
    ensures multiset(Insert(m, sorted)) == multiset(sorted) + multiset{m}
  {
    if sorted != [] {
      var before, last := sorted[..|sorted| - 1], sorted[|sorted| - 1];
      InsertPermutes(m, before);
      assert sorted == before + [last];
    }
  }

  lemma {:induction false} InsertInOrder(m: Message, sorted: seq<Message>)
    requires InOrder(sorted)
    ensures InOrder(Insert(m, sorted))
  {
    if sorted != [] && sorted[|sorted| - 1].order > m.order {
      var before, last := sorted[..|sorted| - 1], sorted[|sorted| - 1];
      InsertInOrder(m, before);
      InsertPermutes(m, before);
      forall x | x in Insert(m, before) ensures x.order <= last.order {
        assert x in multiset(before) + multiset{m};
      }
    }
  }

  lemma OfOrderAppend(ms: seq<Message>, m: Message, order: int)
    ensures OfOrder(ms + [m], order) == OfOrder(ms, order) + if m.order == order then [m] else []
  {
    assert (ms + [m])[..|ms|] == ms;
  }

  lemma {:induction false} NoneOfOrder(ms: seq<Message>, order: int)
    requires forall m | m in ms :: m.order != order
    ensures OfOrder(ms, order) == []
  {
    if ms != [] {
      NoneOfOrder(ms[..|ms| - 1], order);
    }
  }

  /** Inserting puts a message after those of its own order, and moves no other order's messages. */
  lemma {:induction false} InsertStable(m: Message, sorted: seq<Message>, order: int)
    requires InOrder(sorted)
    ensures OfOrder(Insert(m, sorted), order) == OfOrder(sorted, order) + if m.order == order then [m] else []
  {
    if sorted == [] || sorted[|sorted| - 1].order <= m.order {
      OfOrderAppend(sorted, m, order);
    } else {
      var before, last := sorted[..|sorted| - 1], sorted[|sorted| - 1];
      InsertStable(m, before, order);
      OfOrderAppend(Insert(m, before), last, order);
    }
  }

  lemma NothingInOrder()
    ensures InOrder([])
  {
  }

  /** Sorting is a stable permutation into ascending order. */
  lemma {:induction false} SortedIsStable(ms: seq<Message>, order: int)
    ensures InOrder(Sorted(ms)) && multiset(Sorted(ms)) == multiset(ms)
    ensures OfOrder(Sorted(ms), order) == OfOrder(ms, order)
  {
    hide InOrder, Insert;
    if ms == [] {
      NothingInOrder();
    } else {
      var before, last := ms[..|ms| - 1], ms[|ms| - 1];
      SortedIsStable(before, order);
      InsertInOrder(last, Sorted(before));
      InsertPermutes(last, Sorted(before));
      InsertStable(last, Sorted(before), order);
      assert ms == before + [last];
      assert multiset(ms) == multiset(before) + multiset{last};
    }
  }

  // ---- properties of the transcript ----

  ghost predicate DistinctOrders(ms: seq<Message>) {
    forall i, j | 0 <= i < j < |ms| :: ms[i].order != ms[j].order
  }

  lemma SameLast(a: seq<Message>, b: seq<Message>)
    requires InOrder(a) && InOrder(b) && DistinctOrders(b) && multiset(a) == multiset(b) && a != [] && b != []
    ensures a[|a| - 1] == b[|b| - 1]
  {
    var x, y := a[|a| - 1], b[|b| - 1];
    assert x in multiset(b) && y in multiset(a);
    var i :| 0 <= i < |b| && b[i] == x;
    var j :| 0 <= j < |a| && a[j] == y;
    assert x.order <= y.order && y.order <= x.order;
  }

  lemma WithoutLast(a: seq<Message>)
    requires a != []
    ensures multiset(a[..|a| - 1]) == multiset(a) - multiset{a[|a| - 1]}
  {
    assert a == a[..|a| - 1] + [a[|a| - 1]];
  }

  lemma SameRest(a: seq<Message>, b: seq<Message>)
    requires a != [] && b != [] && multiset(a) == multiset(b) && a[|a| - 1] == b[|b| - 1]
    ensures multiset(a[..|a| - 1]) == multiset(b[..|b| - 1])
  {
    WithoutLast(a);
    WithoutLast(b);
  }

  lemma SameEmpty(a: seq<Message>, b: seq<Message>)
    requires multiset(a) == multiset(b)
    ensures a == [] <==> b == []
  {
    assert |multiset(a)| == |a| && |multiset(b)| == |b|;
  }

  /** Two ascending lists of distinct orders with the same messages are the same list. */
  lemma {:induction false} AscendingUnique(a: seq<Message>, b: seq<Message>)
    requires InOrder(a) && InOrder(b) && DistinctOrders(a) && DistinctOrders(b) && multiset(a) == multiset(b)
    ensures a == b
    decreases |a|
  {
    SameEmpty(a, b);
    if a != [] {
      SameLast(a, b);
      SameRest(a, b);
      AscendingUnique(a[..|a| - 1], b[..|b| - 1]);
      assert a == a[..|a| - 1] + [a[|a| - 1]] && b == b[..|b| - 1] + [b[|b| - 1]];
    }
  }

  lemma PermutedDistinct(a: seq<Message>, b: seq<Message>)
    requires multiset(a) == multiset(b) && DistinctOrders(a)
    ensures DistinctOrders(b)
  {
    forall i, j | 0 <= i < j < |b| ensures b[i].order != b[j].order {
      if b[i].order == b[j].order {
        assert b[i] in multiset(b) && b[j] in multiset(b);
        assert b[i] in a && b[j] in a;
        assert b[i] == b[j];
        SplitTwice(b, i, j);
        OccursOnce(a, b[i]);
        assert false;
      }
    }
  }

  lemma SplitTwice(b: seq<Message>, i: nat, j: nat)
    requires i < j < |b| && b[i] == b[j]
    ensures multiset(b)[b[i]] >= 2
  {
    assert b == b[..i] + [b[i]] + b[i + 1..j] + [b[j]] + b[j + 1..];
  }

  lemma {:induction false} OccursOnce(a: seq<Message>, m: Message)
    requires DistinctOrders(a)
    ensures multiset(a)[m] <= 1
  {
    if a != [] {
      var before, last := a[..|a| - 1], a[|a| - 1];
      OccursOnce(before, m);
      assert a == before + [last];
      assert last !in before;
    }
  }

  /** The transcript does not depend on the order messages are listed in, if their orders are distinct. */
  lemma TranscriptIgnoresListing(p: Providers, a: seq<Message>, b: seq<Message>, media: map<string, Media>)
    requires multiset(a) == multiset(b) && DistinctOrders(a)
    ensures TranscriptOf(p, a, media) == TranscriptOf(p, b, media)
  {
    SortedIsStable(a, 0);
    SortedIsStable(b, 0);
    PermutedDistinct(a, Sorted(a));
    PermutedDistinct(a, Sorted(b));
    AscendingUnique(Sorted(a), Sorted(b));
  }

  lemma {:induction false} SortedSame(ms: seq<Message>)
    requires InOrder(ms)
    ensures Sorted(ms) == ms
  {
    if ms != [] {
      SortedSame(ms[..|ms| - 1]);
      assert ms == ms[..|ms| - 1] + [ms[|ms| - 1]];
    }
  }

  /** Messages numbered 0..n-1, as aggregation leaves them, are transcribed in arrival order. */
  lemma AggregatedInArrivalOrder(p: Providers, ms: seq<Message>, media: map<string, Media>)
    requires forall i | 0 <= i < |ms| :: ms[i].order == i
    ensures TranscriptOf(p, ms, media) == Blocks(p, ms, media)
  {
    SortedSame(ms);
  }

  lemma {:induction false} BlocksConcat(p: Providers, a: seq<Message>, b: seq<Message>, media: map<string, Media>)
    ensures Blocks(p, a + b, media) == Blocks(p, a, media) + Blocks(p, b, media)
    decreases |b|
  {
    hide Block;
    if b == [] {
      assert a + b == a;
    } else {
      var before, last := b[..|b| - 1], b[|b| - 1];
      assert (a + b)[..|a + b| - 1] == a + before && (a + b)[|a + b| - 1] == last;
      BlocksConcat(p, a, before, media);
    }
  }

  lemma {:induction false} BlocksSame(p: Providers, ms: seq<Message>, media: map<string, Media>, media': map<string, Media>)
    requires forall m | m in ms :: SegmentsFor(p, m, media) == SegmentsFor(p, m, media')
    ensures Blocks(p, ms, media) == Blocks(p, ms, media')
  {
    if ms != [] {
      BlocksSame(p, ms[..|ms| - 1], media, media');
    }
  }

  lemma BlockFailure(p: Providers, before: seq<Message>, m: Message, after: seq<Message>,
                          media: map<string, Media>, broken: map<string, Media>)
    requires forall x | x in before + after :: x.id != m.id
    requires media - {m.id} == broken - {m.id} && SegmentsFor(p, m, broken).Failure?
    ensures Blocks(p, before + [m] + after, media) == Blocks(p, before, media) + Block(p, m, media) + Blocks(p, after, media)
    ensures exists s :: Blocks(p, before + [m] + after, broken) == Blocks(p, before, media) + [s] + Blocks(p, after, media)
              && s.messageId == m.id && s.status == Unprocessable
  {
    forall x | x in before || x in after ensures SegmentsFor(p, x, media) == SegmentsFor(p, x, broken) {
      assert x in before + after;
      assert x.id in media <==> x.id in media - {m.id};
      assert x.id in broken <==> x.id in broken - {m.id};
      assert x.id in media ==> media[x.id] == (media - {m.id})[x.id] == (broken - {m.id})[x.id] == broken[x.id];
    }
    BlocksSame(p, before, media, broken);
    BlocksSame(p, after, media, broken);
    OneBlock(p, before, m, after, media);
    OneBlock(p, before, m, after, broken);
    assert Block(p, m, broken) == [Block(p, m, broken)[0]];
  }

  lemma OneBlock(p: Providers, before: seq<Message>, m: Message, after: seq<Message>, media: map<string, Media>)
    ensures Blocks(p, before + [m] + after, media) == Blocks(p, before, media) + Block(p, m, media) + Blocks(p, after, media)
  {
    BlocksConcat(p, before + [m], after, media);
    BlocksConcat(p, before, [m], media);
    assert [m][..0] == [] && Blocks(p, [m], media) == [] + Block(p, m, media);
  }

  /** Wherever the order puts a message, the rest of the sorted list is the rest of the messages. */
  lemma SortedAround(ms: seq<Message>, i: nat) returns (before: seq<Message>, after: seq<Message>)
    requires i < |ms|
    ensures Sorted(ms) == before + [ms[i]] + after
    ensures multiset(before + after) == multiset(ms[..i] + ms[i + 1..])
  {
    hide Sorted;
    var sorted, m := Sorted(ms), ms[i];
    SortedIsStable(ms, 0);
    assert m in multiset(sorted);
    var k :| 0 <= k < |sorted| && sorted[k] == m;
    before, after := sorted[..k], sorted[k + 1..];
    WithoutOne(sorted, k);
    WithoutOne(ms, i);
  }

  lemma WithoutOne(ms: seq<Message>, i: nat)
    requires i < |ms|
    ensures ms == ms[..i] + [ms[i]] + ms[i + 1..]
    ensures multiset(ms[..i] + ms[i + 1..]) == multiset(ms) - multiset{ms[i]}
  {
    var a, m, b := ms[..i], ms[i], ms[i + 1..];
    assert ms == a + [m] + b;
    assert multiset(a + [m] + b) == multiset(a) + multiset{m} + multiset(b);
  }

  /** A failing message contributes to the transcript exactly one segment, unprocessable, with nothing of
      what it had produced before failing, in the place where its own block was; taking its media away or
      breaking it leaves every other block alone. */
  lemma FailureIsIsolated(p: Providers, ms: seq<Message>, i: nat, media: map<string, Media>, broken: map<string, Media>)
    returns (before: seq<Message>, after: seq<Message>, failed: Segment)
    requires i < |ms| && forall j | 0 <= j < |ms| && j != i :: ms[j].id != ms[i].id
    requires media - {ms[i].id} == broken - {ms[i].id} && SegmentsFor(p, ms[i], broken).Failure?
    ensures Sorted(ms) == before + [ms[i]] + after
    ensures TranscriptOf(p, ms, media) == Blocks(p, before, media) + Block(p, ms[i], media) + Blocks(p, after, media)
    ensures TranscriptOf(p, ms, broken) == Blocks(p, before, media) + [failed] + Blocks(p, after, media)
    ensures failed.messageId == ms[i].id && failed.status == Unprocessable
  {
    hide Blocks, Block, SegmentsFor, Sorted;
    var m := ms[i];
    before, after := SortedAround(ms, i);
    forall x | x in before + after ensures x.id != m.id {
      assert x in multiset(ms[..i] + ms[i + 1..]);
      assert x in ms[..i] || x in ms[i + 1..];
    }
    BlockFailure(p, before, m, after, media, broken);
    failed :| Blocks(p, before + [m] + after, broken) == Blocks(p, before, media) + [failed] + Blocks(p, after, media)
              && failed.messageId == m.id && failed.status == Unprocessable;
  }

  predicate HasContent(segments: seq<Segment>) {
    exists i | 0 <= i < |segments| :: segments[i].status == Status.Processed
  }

  lemma {:induction false} BlocksHaveContent(p: Providers, ms: seq<Message>, media: map<string, Media>)
    ensures HasContent(Blocks(p, ms, media)) <==> exists m :: m in ms && SegmentsFor(p, m, media).Success?
  {
    if ms != [] {
      var before, last := ms[..|ms| - 1], ms[|ms| - 1];
      BlocksHaveContent(p, before, media);
      var a, b := Blocks(p, before, media), Block(p, last, media);
      assert ms == before + [last];
      assert HasContent(b) <==> SegmentsFor(p, last, media).Success? by {
        assert b[0] in b;
      }
      HasContentConcat(a, b);
    }
  }

  /** The transcript has content exactly when some message could be processed. */
  lemma HasContentIff(p: Providers, ms: seq<Message>, media: map<string, Media>)
    ensures HasContent(TranscriptOf(p, ms, media)) <==> exists m :: m in ms && SegmentsFor(p, m, media).Success?
  {
    hide SegmentsFor, HasContent, Sorted;
    SortedIsStable(ms, 0);
    BlocksHaveContent(p, Sorted(ms), media);
    assert forall m :: m in ms <==> m in multiset(Sorted(ms));
  }

  lemma HasContentConcat(a: seq<Segment>, b: seq<Segment>)
    ensures HasContent(a + b) <==> HasContent(a) || HasContent(b)
  {
    if i :| 0 <= i < |a| && a[i].status == Status.Processed {
      assert (a + b)[i] == a[i];
    } else if i :| 0 <= i < |b| && b[i].status == Status.Processed {
      assert (a + b)[|a| + i] == b[i];
    }
  }
}
