/**
 * The caption engine (`SubtitleEngine.generate_subtitle_clips`): the voice-over
 * text is split into words, the words are grouped five at a time, and each group
 * becomes an upper-cased, centred caption whose length is the group's share of
 * the text's characters times the total duration. Captions are laid end to end
 * from time 0; a caption that the text renderer fails to produce is skipped and
 * does not move the clock.
 */
module Subtitles {
  import opened Wrappers
  import opened Text
  import opened Media

  /** Words per caption. */
  const ChunkSize: nat := 5

  /** The words of chunk `k`: `words[5k : 5k + 5]` (Python's slice stops at the end). */
  function Group(words: seq<string>, k: nat): seq<string>
    requires ChunkSize * k <= |words|
  {
    words[ChunkSize * k .. Min(ChunkSize * k + ChunkSize, |words|)]
  }

  /** The chunk texts, as a reference definition by recursion on the word list. */
  function Chunks(words: seq<string>): seq<string>
    decreases |words|
  {
    if words == [] then []
    else if |words| <= ChunkSize then [Join(words)]
    else [Join(words[..ChunkSize])] + Chunks(words[ChunkSize..])
  }

  /** `part / whole * total`: the share of `total` that `part` characters out of `whole` get. */
  function Share(part: nat, whole: nat, total: Duration): Duration
    requires whole > 0
  {
    var fraction := part as real / whole as real;
    assert fraction >= 0.0;
    fraction * total
  }

  /** A chunk's share of the total duration: `len(chunk) / total_chars * total_duration`. */
  function ChunkDuration(chunk: string, totalChars: nat, total: Duration): (d: Duration)
    requires totalChars > 0
    ensures |chunk| <= totalChars ==> d <= total
  {
    var d := Share(|chunk|, totalChars, total);
    assert |chunk| <= totalChars ==> d <= total by {
      if |chunk| <= totalChars {
        ShareAtMostTotal(|chunk|, totalChars, total);
      }
    }
    d
  }

  /** The caption layer of a chunk: upper-cased text, centred on both axes. */
  function Caption(chunk: string, start: real, d: Duration): Layer {
    Layer(TextContent(Upper(chunk)), start, d, Center, Center, 1.0)
  }

  /**
   * The captions emitted for chunks `i..`, the clock standing at `start`:
   * `renders(k)` says whether the text renderer produces chunk `k`.
   */
  function Schedule(chunks: seq<string>, totalChars: nat, total: Duration, renders: nat -> bool,
                    i: nat, start: real): seq<Layer>
    requires i <= |chunks|
    requires i < |chunks| ==> totalChars > 0
    decreases |chunks| - i
  {
    if i == |chunks| then []
    else
      var d := ChunkDuration(chunks[i], totalChars, total);
      if renders(i) then [Caption(chunks[i], start, d)] + Schedule(chunks, totalChars, total, renders, i + 1, start + d)
      else Schedule(chunks, totalChars, total, renders, i + 1, start)
  }

  /** The captions for a whole text. */
  function SubtitleLayers(fullText: string, total: Duration, renders: nat -> bool): seq<Layer> {
    var chunks := Chunks(SplitWords(fullText));
    ChunksNonEmptyText(fullText);
    Schedule(chunks, |fullText|, total, renders, 0, 0.0)
  }

  /** The chunks rendered from index `i` on, in order. */
  function Rendered(chunks: seq<string>, renders: nat -> bool, i: nat): seq<string>
    requires i <= |chunks|
    decreases |chunks| - i
  {
    if i == |chunks| then []
    else if renders(i) then [chunks[i]] + Rendered(chunks, renders, i + 1)
    else Rendered(chunks, renders, i + 1)
  }

  /** Sum of the chunks' durations. */
  function SumDuration(chunks: seq<string>, totalChars: nat, total: Duration): Duration
    requires chunks != [] ==> totalChars > 0
  {
    if chunks == [] then 0.0
    else ChunkDuration(chunks[0], totalChars, total) + SumDuration(chunks[1..], totalChars, total)
  }

  /**
   * The chunking loop of `generate_subtitle_clips`: walk the words five at a
   * time and join each group with single spaces.
   */
  method ChunkWords(words: seq<string>) returns (chunks: seq<string>)
    ensures chunks == Chunks(words)
    ensures |chunks| == (|words| + ChunkSize - 1) / ChunkSize
  {
    chunks := [];
    var i := 0;
    while i < |words|
      invariant i == ChunkSize * |chunks|
      invariant i < |words| + ChunkSize
      invariant forall k :: 0 <= k < |chunks| ==> chunks[k] == Join(Group(words, k))
    {
      var next := Join(words[i .. Min(i + ChunkSize, |words|)]);
      assert next == Join(Group(words, |chunks|));
      chunks := chunks + [next];
      i := i + ChunkSize;
    }
    ChunksAt(words);
    assert chunks == Chunks(words);
  }

  /**
   * `generate_subtitle_clips(full_text, total_duration, ...)`: chunks the
   * words, then builds the captions with a loop that advances the clock only
   * past captions that were produced.
   */
  method GenerateSubtitleClips(fullText: string, totalDuration: Duration, renders: nat -> bool)
    returns (clips: seq<Layer>)
    ensures clips == SubtitleLayers(fullText, totalDuration, renders)
    ensures |clips| <= |Chunks(SplitWords(fullText))|
  {
    var words := SplitWords(fullText);
    var chunks := ChunkWords(words);

    var totalChars := |fullText|;
    ChunksNonEmptyText(fullText);
    clips := [];
    var currentTime: real := 0.0;
    var k := 0;
    while k < |chunks|
      invariant k <= |chunks|
      invariant clips + Schedule(chunks, totalChars, totalDuration, renders, k, currentTime)
             == Schedule(chunks, totalChars, totalDuration, renders, 0, 0.0)
      invariant |clips| <= k
    {
      var chunk := chunks[k];
      var chunkDuration := ChunkDuration(chunk, totalChars, totalDuration);
      ScheduleStep(chunks, totalChars, totalDuration, renders, k, currentTime, clips);
      if renders(k) {
        clips := clips + [Caption(chunk, currentTime, chunkDuration)];
        currentTime := currentTime + chunkDuration;
      }
      k := k + 1;
    }
  }

  /**
   * One step of the caption loop: after the captions `before`, chunk `k`
   * contributes its caption when it renders, and the clock moves past it only
   * then.
   */
  lemma ScheduleStep(chunks: seq<string>, totalChars: nat, total: Duration, renders: nat -> bool,
                     k: nat, t: real, before: seq<Layer>)
    requires k < |chunks| && totalChars > 0
    ensures var d := ChunkDuration(chunks[k], totalChars, total);
            var now := if renders(k) then [Caption(chunks[k], t, d)] else [];
            before + Schedule(chunks, totalChars, total, renders, k, t)
              == (before + now) + Schedule(chunks, totalChars, total, renders, k + 1, if renders(k) then t + d else t)
  {
    var d := ChunkDuration(chunks[k], totalChars, total);
    var later := Schedule(chunks, totalChars, total, renders, k + 1, if renders(k) then t + d else t);
    if renders(k) {
      assert before + ([Caption(chunks[k], t, d)] + later) == (before + [Caption(chunks[k], t, d)]) + later;
    } else {
      assert before + [] == before;
    }
  }

  // ---------------------------------------------------------------------------
  // Chunking
  // ---------------------------------------------------------------------------

  /**
   * There are `ceil(n / 5)` chunks and chunk `k` joins `words[5k : 5k + 5]`
   * with single spaces.
   */
  lemma {:induction false} ChunksAt(words: seq<string>)
    ensures |Chunks(words)| == (|words| + ChunkSize - 1) / ChunkSize
    ensures forall k :: 0 <= k < |Chunks(words)| ==> Chunks(words)[k] == Join(Group(words, k))
    decreases |words|
  {
    if |words| > ChunkSize {
      var rest := words[ChunkSize..];
      ChunksAt(rest);
      forall k | 0 <= k < |Chunks(words)|
        ensures Chunks(words)[k] == Join(Group(words, k))
      {
        if k > 0 {
          assert Chunks(words)[k] == Chunks(rest)[k - 1];
          GroupShift(words, k);
        }
      }
    } else if words != [] {
      assert Group(words, 0) == words;
    }
  }

  /** Group `k` of the words is group `k - 1` of the words after the first group. */
  lemma GroupShift(words: seq<string>, k: nat)
    requires 1 <= k && ChunkSize * k <= |words|
    ensures Group(words[ChunkSize..], k - 1) == Group(words, k)
  {
    var rest := words[ChunkSize..];
    var lo := ChunkSize * k;
    var hi := Min(lo + ChunkSize, |words|);
    assert |rest| == |words| - ChunkSize;
    assert ChunkSize * (k - 1) == lo - ChunkSize;
    assert Min(lo - ChunkSize + ChunkSize, |rest|) == hi - ChunkSize;
    assert Group(rest, k - 1) == rest[lo - ChunkSize .. hi - ChunkSize];
  }

  /** A text with at least one chunk is not empty, so `total_chars` is never zero when divided by. */
  lemma ChunksNonEmptyText(fullText: string)
    ensures Chunks(SplitWords(fullText)) != [] ==> |fullText| > 0
  {
  }

  /** Empty or separator-only text gives no chunks, hence no captions. */
  lemma {:induction false} BlankTextNoCaptions(fullText: string, total: Duration, renders: nat -> bool)
    requires forall i :: 0 <= i < |fullText| ==> IsSpace(fullText[i])
    ensures SplitWords(fullText) == []
    ensures SubtitleLayers(fullText, total, renders) == []
    decreases |fullText|
  {
    if fullText != [] {
      BlankTextNoCaptions(fullText[1..], total, renders);
    }
  }

  /** Every chunk but the last holds exactly five words; the last holds one to five. */
  lemma ChunkWordCounts(words: seq<string>, k: nat)
    requires AllWords(words)
    requires k < |Chunks(words)|
    ensures k < |Chunks(words)| - 1 ==> |SplitWords(Chunks(words)[k])| == ChunkSize
    ensures 1 <= |SplitWords(Chunks(words)[k])| <= ChunkSize
  {
    ChunksAt(words);
    var g := Group(words, k);
    assert AllWords(g);
    SplitJoin(g);
  }

  function SplitEach(chunks: seq<string>): seq<seq<string>> {
    seq(|chunks|, k requires 0 <= k < |chunks| => SplitWords(chunks[k]))
  }

  /** Round trip: splitting every chunk and concatenating the pieces gives back the words. */
  lemma {:induction false} ChunksRoundTrip(words: seq<string>)
    requires AllWords(words)
    ensures Flatten(SplitEach(Chunks(words))) == words
    decreases |words|
  {
    if words == [] {
    } else if |words| <= ChunkSize {
      SplitJoin(words);
      assert SplitEach(Chunks(words)) == [words];
      assert Flatten([words]) == words + Flatten([]);
    } else {
      var head := words[..ChunkSize];
      var rest := words[ChunkSize..];
      assert AllWords(head) && AllWords(rest);
      SplitJoin(head);
      ChunksRoundTrip(rest);
      var s := SplitEach(Chunks(words));
      assert s[0] == head;
      assert s[1..] == SplitEach(Chunks(rest));
      assert words == head + rest;
    }
  }

  /** The chunks' lengths plus one per chunk equal the words' lengths plus one per word. */
  lemma {:induction false} ChunksLength(words: seq<string>)
    ensures SumLen(Chunks(words)) + |Chunks(words)| == SumLen(words) + |words|
    decreases |words|
  {
    if words == [] {
    } else if |words| <= ChunkSize {
      JoinLength(words);
    } else {
      var head := words[..ChunkSize];
      var rest := words[ChunkSize..];
      JoinLength(head);
      ChunksLength(rest);
      SumLenAppend(head, rest);
      assert words == head + rest;
    }
  }

  lemma {:induction false} SumLenAppend(a: seq<string>, b: seq<string>)
    ensures SumLen(a + b) == SumLen(a) + SumLen(b)
  {
    if a == [] {
      assert a + b == b;
    } else {
      SumLenAppend(a[1..], b);
      assert (a + b)[1..] == a[1..] + b;
    }
  }

  /** The chunks of a text never hold more characters than the text itself. */
  lemma ChunksFitText(fullText: string)
    ensures SumLen(Chunks(SplitWords(fullText))) <= |fullText|
  {
    var words := SplitWords(fullText);
    ChunksLength(words);
    SplitLength(fullText);
    ChunksAt(words);
  }

  // ---------------------------------------------------------------------------
  // Timing
  // ---------------------------------------------------------------------------

  /** The durations add up to the chunks' share of the characters times the total. */
  lemma {:induction false} SumDurationIsShare(chunks: seq<string>, totalChars: nat, total: Duration)
    requires totalChars > 0
    ensures SumDuration(chunks, totalChars, total) == Share(SumLen(chunks), totalChars, total)
  {
    if chunks == [] {
      ShareOfNothing(totalChars, total);
    } else {
      SumDurationIsShare(chunks[1..], totalChars, total);
      ShareAdd(|chunks[0]|, SumLen(chunks[1..]), totalChars, total);
    }
  }

  lemma ShareOfNothing(whole: nat, total: Duration)
    requires whole > 0
    ensures Share(0, whole, total) == 0.0
  {
  }

  /** Shares of one whole add up: `a/t * total + b/t * total == (a+b)/t * total`. */
  lemma ShareAdd(a: nat, b: nat, whole: nat, total: Duration)
    requires whole > 0
    ensures Share(a, whole, total) + Share(b, whole, total) == Share(a + b, whole, total)
  {
    var t := whole as real;
    assert (a + b) as real == a as real + b as real;
    assert a as real / t + b as real / t == (a + b) as real / t;
    assert (a as real / t) * total + (b as real / t) * total == (a as real / t + b as real / t) * total;
  }

  /** The captions are exactly the rendered chunks, upper-cased, centred and fully opaque, in order. */
  lemma {:induction false} ScheduleContents(chunks: seq<string>, totalChars: nat, total: Duration, renders: nat -> bool,
                                            i: nat, start: real)
    requires i <= |chunks|
    requires i < |chunks| ==> totalChars > 0
    ensures var r := Schedule(chunks, totalChars, total, renders, i, start);
            var kept := Rendered(chunks, renders, i);
            |r| == |kept| &&
            forall j :: 0 <= j < |r| ==>
              r[j].content == TextContent(Upper(kept[j])) &&
              r[j].duration == ChunkDuration(kept[j], totalChars, total) &&
              r[j].x == Center && r[j].y == Center && r[j].opacity == 1.0
    decreases |chunks| - i
  {
    if i < |chunks| {
      var d := ChunkDuration(chunks[i], totalChars, total);
      if renders(i) {
        ScheduleContents(chunks, totalChars, total, renders, i + 1, start + d);
      } else {
        ScheduleContents(chunks, totalChars, total, renders, i + 1, start);
      }
    }
  }

  /**
   * The first caption starts where the clock stood, and each later caption
   * starts exactly where the previous emitted one ended: skipped chunks leave
   * no gap.
   */
  lemma {:induction false} ScheduleContiguous(chunks: seq<string>, totalChars: nat, total: Duration, renders: nat -> bool,
                                              i: nat, start: real)
    requires i <= |chunks|
    requires i < |chunks| ==> totalChars > 0
    ensures var r := Schedule(chunks, totalChars, total, renders, i, start);
            (r != [] ==> r[0].start == start) &&
            forall j :: 0 <= j < |r| - 1 ==> r[j + 1].start == r[j].start + r[j].duration
    decreases |chunks| - i
  {
    if i < |chunks| {
      var d := ChunkDuration(chunks[i], totalChars, total);
      if renders(i) {
        ScheduleContiguous(chunks, totalChars, total, renders, i + 1, start + d);
      } else {
        ScheduleContiguous(chunks, totalChars, total, renders, i + 1, start);
      }
    }
  }

  /** Every layer of `r` starts at or after `lo` and ends by `hi`. */
  predicate Within(r: seq<Layer>, lo: real, hi: real) {
    forall j :: 0 <= j < |r| ==> lo <= r[j].start && r[j].start + r[j].duration <= hi
  }

  /** Every caption lies within `[start, start + sum of the remaining chunks' durations]`. */
  lemma {:induction false} ScheduleWithin(chunks: seq<string>, totalChars: nat, total: Duration, renders: nat -> bool,
                                          i: nat, start: real)
    requires i <= |chunks|
    requires totalChars > 0
    ensures Within(Schedule(chunks, totalChars, total, renders, i, start),
                   start, start + SumDuration(chunks[i..], totalChars, total))
    decreases |chunks| - i
  {
    if i < |chunks| {
      var d := ChunkDuration(chunks[i], totalChars, total);
      assert chunks[i..][1..] == chunks[i + 1..];
      var sum := SumDuration(chunks[i..], totalChars, total);
      var sumRest := SumDuration(chunks[i + 1..], totalChars, total);
      assert sum == d + sumRest;
      var r := Schedule(chunks, totalChars, total, renders, i, start);
      if renders(i) {
        var rest := Schedule(chunks, totalChars, total, renders, i + 1, start + d);
        ScheduleWithin(chunks, totalChars, total, renders, i + 1, start + d);
        assert Within(rest, start + d, start + d + sumRest);
        assert r == [Caption(chunks[i], start, d)] + rest;
        forall j | 0 <= j < |r|
          ensures start <= r[j].start && r[j].start + r[j].duration <= start + sum
        {
          if j > 0 {
            assert r[j] == rest[j - 1];
          }
        }
      } else {
        ScheduleWithin(chunks, totalChars, total, renders, i + 1, start);
        assert Within(r, start, start + sumRest);
      }
    }
  }

  /** A share of at most the whole of a non-negative total is at most the total. */
  lemma ShareAtMostTotal(part: nat, whole: nat, total: Duration)
    requires 0 < whole && part <= whole
    ensures 0.0 <= Share(part, whole, total) <= total
  {
    var fraction := part as real / whole as real;
    assert 0.0 <= fraction <= 1.0 by {
      assert part as real <= whole as real;
    }
    assert fraction * total >= 0.0;
    assert total - fraction * total == (1.0 - fraction) * total;
    assert (1.0 - fraction) * total >= 0.0;
  }

  /** Every caption of a text starts at or after 0 and ends by the total duration. */
  lemma CaptionsEndByTotal(fullText: string, total: Duration, renders: nat -> bool)
    ensures Within(SubtitleLayers(fullText, total, renders), 0.0, total)
  {
    var chunks := Chunks(SplitWords(fullText));
    if chunks != [] {
      var t := |fullText|;
      ChunksNonEmptyText(fullText);
      ScheduleWithin(chunks, t, total, renders, 0, 0.0);
      assert chunks[0..] == chunks;
      SumDurationIsShare(chunks, t, total);
      ChunksFitText(fullText);
      ShareAtMostTotal(SumLen(chunks), t, total);
      var sum := SumDuration(chunks, t, total);
      assert sum <= total;
      assert Within(Schedule(chunks, t, total, renders, 0, 0.0), 0.0, 0.0 + sum);
    }
  }
}
