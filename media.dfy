/**
 * What the editor relies on from the media library: clips reduced to a frame
 * size and a length, audio tracks reduced to a length and a volume, overlay
 * layers reduced to content, timing, position and opacity, and the effect of
 * each library call it makes on those records.
 */
module Media {
  import Config

  /** A length of time in seconds. */
  type Duration = r: real | r >= 0.0

  /** A video clip: frame width and height in pixels, and length. */
  datatype Clip = Clip(w: nat, h: nat, duration: Duration)

  /** An audio track: its file, length and volume factor. */
  datatype AudioTrack = AudioTrack(source: string, duration: Duration, volume: real)

  /** Where a layer is anchored on each axis. */
  datatype Anchor = Left | Center | Right | Top | Bottom | Pixels(px: int)

  datatype Content = TextContent(text: string) | ImageContent(path: string)

  /** An overlay layer composited above the visual track. */
  datatype Layer = Layer(content: Content, start: real, duration: real, x: Anchor, y: Anchor, opacity: real)

  /** `clip.loop(duration=d)`: repeated to exactly `d`. */
  function Loop(c: Clip, d: Duration): (r: Clip)
    ensures r.duration == d && r.w == c.w && r.h == c.h
  {
    c.(duration := d)
  }

  /** `clip.subclip(0, end)`: the first `end` seconds. */
  function Subclip(c: Clip, end: Duration): (r: Clip)
    requires end <= c.duration
    ensures r.duration == end && r.w == c.w && r.h == c.h
  {
    c.(duration := end)
  }

  /**
   * `clip.resize(height=h)`: the new size is `[w * h / clip.h, h]`, each
   * truncated to whole pixels.
   */
  function ResizeToHeight(c: Clip, height: nat): (r: Clip)
    requires c.h > 0
    ensures r.h == height && r.duration == c.duration
  {
    Clip(c.w * height / c.h, height, c.duration)
  }

  /** Resizing keeps the aspect ratio to within one pixel of width. */
  lemma ResizeKeepsAspect(c: Clip, height: nat)
    requires c.h > 0
    ensures var r := ResizeToHeight(c, height);
            r.w * c.h <= c.w * height < (r.w + 1) * c.h
  {
    DivBounds(c.w * height, c.h);
  }

  /** Floor division brackets its dividend. */
  lemma DivBounds(a: nat, b: nat)
    requires b > 0
    ensures (a / b) * b <= a < (a / b + 1) * b
  {
    assert a == (a / b) * b + a % b;
  }

  /** Python's `int(x)` on a float: truncation toward zero. */
  function Trunc(x: real): int {
    if x >= 0.0 then x.Floor else -((-x).Floor)
  }

  /** `int(m / 2)` for an integer `m`: half of it, rounded toward zero. */
  lemma TruncHalf(m: int)
    ensures Trunc(m as real / 2.0) == if m >= 0 then m / 2 else -((-m) / 2)
  {
    if m >= 0 {
      assert (m / 2) as real <= m as real / 2.0 < (m / 2 + 1) as real;
    } else {
      assert -(m as real / 2.0) == (-m) as real / 2.0;
      assert ((-m) / 2) as real <= (-m) as real / 2.0 < ((-m) / 2 + 1) as real;
    }
  }

  /**
   * The index a Python (or NumPy) slice bound `i` denotes on a sequence of
   * length `n`: a negative bound counts from the end, and the result is
   * clamped to `[0, n]`.
   */
  function SliceIndex(i: int, n: nat): (k: nat)
    ensures k <= n
  {
    if i < 0 then (if i + n < 0 then 0 else i + n)
    else if i > n then n
    else i
  }

  /** The length of the slice `s[i:j]` of a sequence of length `n`. */
  function SliceLength(i: int, j: int, n: nat): (len: nat)
    ensures len <= n
  {
    var a := SliceIndex(i, n);
    var b := SliceIndex(j, n);
    if b > a then b - a else 0
  }

  /**
   * `clip.crop(x1=x1, width=width, height=height)`. The library derives
   * `x2 = x1 + width` (when `width` is non-zero), defaults a missing or zero
   * `x2` to the frame width, and uses `height` only together with `y1` or `y2`,
   * so here every row is kept. Each frame is then sliced
   * `pic[:, int(x1):int(x2)]` with the slice rules above.
   */
  function Crop(c: Clip, x1: real, width: nat, height: nat): (r: Clip)
    ensures r.w <= c.w && r.h == c.h && r.duration == c.duration
  {
    var x2 := x1 + width as real;
    var stop := if width == 0 || x2 == 0.0 then c.w else Trunc(x2);
    Clip(SliceLength(Trunc(x1), stop, c.w), c.h, c.duration)
  }

  /** `ColorClip(size=(1080, 1920), color=(0,0,0), duration=d)`. */
  function BlackScreen(d: Duration): (r: Clip)
    ensures r.w == Config.VideoWidth && r.h == Config.VideoHeight && r.duration == d
  {
    Clip(Config.VideoWidth, Config.VideoHeight, d)
  }

  /** Sum of the clips' lengths. */
  function TotalDuration(clips: seq<Clip>): Duration {
    if clips == [] then 0.0 else clips[0].duration + TotalDuration(clips[1..])
  }

  function MaxWidth(clips: seq<Clip>): nat
    requires clips != []
  {
    if |clips| == 1 then clips[0].w
    else var m := MaxWidth(clips[1..]); if clips[0].w > m then clips[0].w else m
  }

  function MaxHeight(clips: seq<Clip>): nat
    requires clips != []
  {
    if |clips| == 1 then clips[0].h
    else var m := MaxHeight(clips[1..]); if clips[0].h > m then clips[0].h else m
  }

  /**
   * `concatenate_videoclips(clips, method="compose")`: the clips one after the
   * other on a frame as large as the largest of them.
   */
  function Concatenate(clips: seq<Clip>): (r: Clip)
    requires clips != []
  {
    Clip(MaxWidth(clips), MaxHeight(clips), TotalDuration(clips))
  }

  /** The concatenated frame holds every clip, and its width and height are each some clip's. */
  lemma {:induction false} ConcatenateFrame(clips: seq<Clip>)
    requires clips != []
    ensures forall k :: 0 <= k < |clips| ==> clips[k].w <= Concatenate(clips).w && clips[k].h <= Concatenate(clips).h
    ensures exists k :: 0 <= k < |clips| && clips[k].w == Concatenate(clips).w
    ensures exists k :: 0 <= k < |clips| && clips[k].h == Concatenate(clips).h
  {
    if |clips| > 1 {
      var rest := clips[1..];
      ConcatenateFrame(rest);
      var i :| 0 <= i < |rest| && rest[i].w == Concatenate(rest).w;
      var j :| 0 <= j < |rest| && rest[j].h == Concatenate(rest).h;
      assert clips[i + 1] == rest[i] && clips[j + 1] == rest[j];
      forall k | 1 <= k < |clips|
        ensures clips[k].w <= Concatenate(clips).w && clips[k].h <= Concatenate(clips).h
      {
        assert clips[k] == rest[k - 1];
      }
    }
  }

  /** Clips that all share one frame size concatenate to that frame size. */
  lemma {:induction false} ConcatenateSameSize(clips: seq<Clip>, w: nat, h: nat)
    requires clips != []
    requires forall k :: 0 <= k < |clips| ==> clips[k].w == w && clips[k].h == h
    ensures Concatenate(clips).w == w && Concatenate(clips).h == h
    ensures Concatenate(clips).duration == TotalDuration(clips)
  {
    if |clips| > 1 {
      ConcatenateSameSize(clips[1..], w, h);
    }
  }

  /** The total length of `n` clips of length `d` each is `n * d`. */
  lemma {:induction false} TotalDurationUniform(clips: seq<Clip>, d: Duration)
    requires forall k :: 0 <= k < |clips| ==> clips[k].duration == d
    ensures TotalDuration(clips) == |clips| as real * d
  {
    if clips != [] {
      TotalDurationUniform(clips[1..], d);
    }
  }
}
