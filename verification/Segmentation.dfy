/**
 Greedy segmentation of a timestamped stream, the reference that online aggregation refines.
 A new arrival joins the segment before it exactly when both windows are still open, and both
 windows are open on the right: a gap or a span equal to its limit breaks.
 */
module Segmentation {
  import opened Wrappers

  datatype Windows = Windows(inactivity: int, maxDuration: int)

  datatype Timed<T> = Timed(item: T, at: int)

  predicate Joins(w: Windows, startedAt: int, lastAt: int, now: int) {
    now - lastAt < w.inactivity && now - startedAt < w.maxDuration
  }

  predicate JoinsSegment<T>(w: Windows, seg: seq<Timed<T>>, now: int)
    requires seg != []
  {
    Joins(w, seg[0].at, seg[|seg| - 1].at, now)
  }

  /** At time `now` the inactivity window of `seg` has run out, or its maximum duration has. */
  predicate Apart<T>(w: Windows, seg: seq<Timed<T>>, now: int)
    requires seg != []
  {
    now - seg[|seg| - 1].at >= w.inactivity || now - seg[0].at >= w.maxDuration
  }

  /** Joining is exactly not being apart. */
  lemma JoinsUnlessApart<T>(w: Windows, seg: seq<Timed<T>>, now: int)
    requires seg != []
    ensures JoinsSegment(w, seg, now) <==> !Apart(w, seg, now)
  {
  }

  /** Where the first segment of `s` ends, given that its first `n` arrivals belong together. */
  function FirstBreak<T>(w: Windows, s: seq<Timed<T>>, n: nat): (end: nat)
    requires 1 <= n <= |s|
    ensures n <= end <= |s|
    decreases |s| - n
  {
    if n == |s| || !JoinsSegment(w, s[..n], s[n].at) then n else FirstBreak(w, s, n + 1)
  }

  /** Cut off the longest first segment, then segment the rest. */
  function Segments<T>(w: Windows, s: seq<Timed<T>>): (segs: seq<seq<Timed<T>>>)
    ensures forall i | 0 <= i < |segs| :: segs[i] != []
    ensures segs == [] <==> s == []
  {
    if s == [] then [] else
      var n := FirstBreak(w, s, 1);
      [s[..n]] + Segments(w, s[n..])
  }

  // ---- the online step ----

  lemma {:induction false} FirstBreakAppend<T>(w: Windows, s: seq<Timed<T>>, x: Timed<T>, n: nat)
    requires 1 <= n <= |s|
    ensures var end := FirstBreak(w, s, n);
            FirstBreak(w, s + [x], n) == if end == |s| && JoinsSegment(w, s, x.at) then |s| + 1 else end
    decreases |s| - n
  {
    assert (s + [x])[..n] == s[..n];
    if n == |s| {
      assert s[..n] == s;
      if JoinsSegment(w, s, x.at) {
        assert FirstBreak(w, s + [x], n) == FirstBreak(w, s + [x], n + 1);
      }
    } else if JoinsSegment(w, s[..n], s[n].at) {
      FirstBreakAppend(w, s, x, n + 1);
    }
  }

  /** What one more arrival does to the segmentation: it extends the last segment or opens a new one. */
  function Extend<T>(w: Windows, segs: seq<seq<Timed<T>>>, x: Timed<T>): seq<seq<Timed<T>>>
    requires forall i | 0 <= i < |segs| :: segs[i] != []
  {
    var n := |segs|;
    if n > 0 && !Apart(w, segs[n - 1], x.at) then segs[..n - 1] + [segs[n - 1] + [x]] else segs + [[x]]
  }

  lemma SegmentsOnce<T>(w: Windows, s: seq<Timed<T>>)
    requires s != [] && FirstBreak(w, s, 1) == |s|
    ensures Segments(w, s) == [s]
  {
    assert s[..|s|] == s && s[|s|..] == [];
  }

  lemma ExtendCons<T>(w: Windows, seg: seq<Timed<T>>, rest: seq<seq<Timed<T>>>, x: Timed<T>)
    requires seg != [] && rest != [] && forall i | 0 <= i < |rest| :: rest[i] != []
    ensures Extend(w, [seg] + rest, x) == [seg] + Extend(w, rest, x)
  {
    assert ([seg] + rest)[|rest|] == rest[|rest| - 1];
    assert ([seg] + rest)[..|rest|] == [seg] + rest[..|rest| - 1];
  }

  lemma {:induction false} SegmentsAppend<T>(w: Windows, s: seq<Timed<T>>, x: Timed<T>)
    ensures Segments(w, s + [x]) == Extend(w, Segments(w, s), x)
    decreases |s|
  {
    if s == [] {
      assert s + [x] == [x];
      SegmentsOnce(w, [x]);
    } else {
      var n := FirstBreak(w, s, 1);
      FirstBreakAppend(w, s, x, 1);
      if n < |s| {
        assert (s + [x])[..n] == s[..n] && (s + [x])[n..] == s[n..] + [x];
        SegmentsAppend(w, s[n..], x);
        ExtendCons(w, s[..n], Segments(w, s[n..]), x);
      } else {
        SegmentsOnce(w, s);
        if JoinsSegment(w, s, x.at) {
          SegmentsOnce(w, s + [x]);
        } else {
          assert (s + [x])[..n] == s && (s + [x])[n..] == [x];
          SegmentsOnce(w, [x]);
        }
      }
    }
  }

  // ---- what a greedy segmentation is, and that there is only one ----

  /** Each arrival is less than the inactivity window after the one before it, and less than the maximum
      duration after the first. */
  ghost predicate Coherent<T>(w: Windows, seg: seq<Timed<T>>) {
    && seg != []
    && (forall i | 0 < i < |seg| ::
          seg[i].at - seg[i - 1].at < w.inactivity && seg[i].at - seg[0].at < w.maxDuration)
  }

  /** Every segment is coherent, and the first arrival of the next one is apart from it. */
  ghost predicate Greedy<T>(w: Windows, segs: seq<seq<Timed<T>>>) {
    && (forall i | 0 <= i < |segs| :: Coherent(w, segs[i]))
    && (forall i | 0 < i < |segs| :: Apart(w, segs[i - 1], segs[i][0].at))
  }

  lemma {:induction false} FirstBreakIs<T>(w: Windows, s: seq<Timed<T>>, n: nat, end: nat)
    requires 1 <= n <= end <= |s|
    requires forall i | n <= i < end :: JoinsSegment(w, s[..i], s[i].at)
    requires end == |s| || !JoinsSegment(w, s[..end], s[end].at)
    ensures FirstBreak(w, s, n) == end
    decreases end - n
  {
    if n < end {
      FirstBreakIs(w, s, n + 1, end);
    }
  }

  lemma {:induction false} FirstBreakMeans<T>(w: Windows, s: seq<Timed<T>>, n: nat)
    requires 1 <= n <= |s|
    ensures var end := FirstBreak(w, s, n);
            && (forall i | n <= i < end :: JoinsSegment(w, s[..i], s[i].at))
            && (end == |s| || !JoinsSegment(w, s[..end], s[end].at))
    decreases |s| - n
  {
    if n < |s| && JoinsSegment(w, s[..n], s[n].at) {
      FirstBreakMeans(w, s, n + 1);
    }
  }

  /** `Segments` is a greedy segmentation of its input: nothing lost, reordered or split differently. */
  lemma {:induction false} SegmentsGreedy<T>(w: Windows, s: seq<Timed<T>>)
    ensures Greedy(w, Segments(w, s)) && Flatten(Segments(w, s)) == s
    decreases |s|
  {
    hide Greedy, Coherent, Apart, FirstBreak;
    if s == [] {
      GreedyNothing<T>(w);
    } else {
      var n := FirstBreak(w, s, 1);
      var rest := Segments(w, s[n..]);
      FirstSegment(w, s);
      SegmentsGreedy(w, s[n..]);
      if rest != [] {
        SegmentsStart(w, s[n..]);
      }
      GreedyCons(w, s[..n], rest);
      assert s == s[..n] + s[n..];
    }
  }

  lemma GreedyNothing<T>(w: Windows)
    ensures Greedy<T>(w, [])
  {
  }

  /** The first segment is coherent, and what follows could not have joined it. */
  lemma FirstSegment<T>(w: Windows, s: seq<Timed<T>>)
    requires s != []
    ensures var n := FirstBreak(w, s, 1);
            Coherent(w, s[..n]) && (n == |s| || Apart(w, s[..n], s[n].at))
  {
    var n := FirstBreak(w, s, 1);
    FirstBreakMeans(w, s, 1);
    var seg := s[..n];
    forall i | 0 < i < n ensures seg[i].at - seg[i - 1].at < w.inactivity && seg[i].at - seg[0].at < w.maxDuration {
      assert JoinsSegment(w, s[..i], s[i].at);
    }
  }

  lemma SegmentsStart<T>(w: Windows, s: seq<Timed<T>>)
    requires s != []
    ensures Segments(w, s)[0][0] == s[0]
  {
  }

  lemma GreedyCons<T>(w: Windows, seg: seq<Timed<T>>, rest: seq<seq<Timed<T>>>)
    requires Coherent(w, seg) && Greedy(w, rest)
    requires rest == [] || Apart(w, seg, rest[0][0].at)
    ensures Greedy(w, [seg] + rest) && Flatten([seg] + rest) == seg + Flatten(rest)
  {
    var segs := [seg] + rest;
    assert segs[1..] == rest;
    forall i | 0 < i < |segs| ensures Apart(w, segs[i - 1], segs[i][0].at) {
      assert segs[i] == rest[i - 1] && (i > 1 ==> segs[i - 1] == rest[i - 2]);
    }
  }

  /** It is the only one: any other greedy segmentation of the same stream is the same. */
  lemma {:induction false} GreedyUnique<T>(w: Windows, segs: seq<seq<Timed<T>>>)
    requires Greedy(w, segs)
    ensures segs == Segments(w, Flatten(segs))
    decreases |segs|
  {
    if segs != [] {
      var s := Flatten(segs);
      var seg: seq<Timed<T>> := segs[0];
      var rest: seq<seq<Timed<T>>> := segs[1..];
      forall i | 0 < i < |rest| ensures Apart(w, rest[i - 1], rest[i][0].at) {
        assert rest[i - 1] == segs[i] && rest[i] == segs[i + 1];
      }
      GreedyUnique(w, rest);
      assert s[..|seg|] == seg && s[|seg|..] == Flatten(rest);
      forall i | 1 <= i < |seg| ensures JoinsSegment(w, s[..i], s[i].at) {
        assert s[..i] == seg[..i] && s[i] == seg[i];
      }
      if rest != [] {
        assert s[|seg|] == rest[0][0];
      }
      FirstBreakIs(w, s, 1, |seg|);
    }
  }
}
