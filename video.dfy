/**
 * The arithmetic and bookkeeping of the video processor (video_processor.py)
 * around its calls into the media libraries: the cover-scale and centre-crop
 * geometry of `resize_video`, the clip selection of `create_highlight_video`
 * and the path escaping of `add_subtitles`. Times are integer microseconds;
 * the scale factor is an exact real.
 */
module VideoProcessor {
  import opened Wrappers
  import opened PyText
  import opened Records

  /** `TARGET_RESOLUTION` of config.py, which is also the constructor's default. */
  const TargetResolution: (nat, nat) := (1080, 1920)

  /** `TARGET_ASPECT_RATIO` of config.py: width over height of the vertical format. */
  const TargetAspectRatio: real := 9.0 / 16.0

  // ---------------------------------------------------------------------------
  // Cover scale and centre crop

  /** A frame size in pixels, `video.size` = (width, height). */
  datatype Size = Size(width: nat, height: nat)

  /** The scaled frame and the crop box `x1, y1, x2, y2` cut out of it. */
  datatype Crop = Crop(newWidth: int, newHeight: int, x1: int, y1: int, x2: int, y2: int)

  function MaxReal(a: real, b: real): real {
    if a >= b then a else b
  }

  /**
   * Scale by the larger of the two ratios and truncate the scaled size to
   * whole pixels (`int` of a positive float).
   */
  function ScaledSize(input: Size, targetWidth: nat, targetHeight: nat): (int, int)
    requires input.width > 0 && input.height > 0
  {
    var scale := CoverScale(input, targetWidth, targetHeight);
    (Scaled(input.width, scale), Scaled(input.height, scale))
  }

  /** `max(target_w / w, target_h / h)`. */
  function CoverScale(input: Size, targetWidth: nat, targetHeight: nat): real
    requires input.width > 0 && input.height > 0
  {
    MaxReal(targetWidth as real / input.width as real, targetHeight as real / input.height as real)
  }

  /** `int(side * scale)`. */
  function Scaled(side: nat, scale: real): int {
    (side as real * scale).Floor
  }

  /**
   * Scale to cover, then cut a `targetWidth` by `targetHeight` box from the
   * centre. A zero input dimension divides by zero: `None`.
   */
  function CropBox(input: Size, targetWidth: nat, targetHeight: nat): Option<Crop> {
    if input.width == 0 || input.height == 0 then None
    else
      var (newWidth, newHeight) := ScaledSize(input, targetWidth, targetHeight);
      var x := (newWidth - targetWidth) / 2;
      var y := (newHeight - targetHeight) / 2;
      Some(Crop(newWidth, newHeight, x, y, x + targetWidth, y + targetHeight))
  }

  /** `resize_video` as written: `target_h, target_w = self.target_resolution`. */
  function ResizeCrop(input: Size, targetResolution: (nat, nat)): Option<Crop> {
    CropBox(input, targetResolution.1, targetResolution.0)
  }

  /** `resize_video` reading the resolution as (width, height), as config.py means it. */
  function VerticalCrop(input: Size, targetResolution: (nat, nat)): Option<Crop> {
    CropBox(input, targetResolution.0, targetResolution.1)
  }

  lemma ScaledCovers(side: nat, target: nat, scale: real)
    requires 0 < side && target as real / side as real <= scale
    ensures Scaled(side, scale) >= target
  {
    var ratio := target as real / side as real;
    assert side as real * ratio == target as real;
    assert side as real * scale >= side as real * ratio;
  }

  lemma ScaledExactly(side: nat, target: nat)
    requires 0 < side
    ensures Scaled(side, target as real / side as real) == target
  {
    assert side as real * (target as real / side as real) == target as real;
  }

  /** Scaling by the larger ratio covers the target width. */
  lemma ScaledWidthCovers(input: Size, targetWidth: nat, targetHeight: nat)
    requires input.width > 0 && input.height > 0
    ensures ScaledSize(input, targetWidth, targetHeight).0 >= targetWidth
  {
    ScaledCovers(input.width, targetWidth, CoverScale(input, targetWidth, targetHeight));
  }

  /** Scaling by the larger ratio covers the target height. */
  lemma ScaledHeightCovers(input: Size, targetWidth: nat, targetHeight: nat)
    requires input.width > 0 && input.height > 0
    ensures ScaledSize(input, targetWidth, targetHeight).1 >= targetHeight
  {
    ScaledCovers(input.height, targetHeight, CoverScale(input, targetWidth, targetHeight));
  }

  /** Along the axis whose ratio is the larger, the scaled size is exactly the target. */
  lemma ScaledSizeFits(input: Size, targetWidth: nat, targetHeight: nat)
    requires input.width > 0 && input.height > 0
    ensures ScaledSize(input, targetWidth, targetHeight).0 == targetWidth
         || ScaledSize(input, targetWidth, targetHeight).1 == targetHeight
  {
    var sw := targetWidth as real / input.width as real;
    var sh := targetHeight as real / input.height as real;
    if sw >= sh {
      assert CoverScale(input, targetWidth, targetHeight) == sw;
      ScaledExactly(input.width, targetWidth);
    } else {
      assert CoverScale(input, targetWidth, targetHeight) == sh;
      ScaledExactly(input.height, targetHeight);
    }
  }

  lemma CentredOffset(size: int, target: nat)
    requires size >= target
    ensures 0 <= (size - target) / 2 && (size - target) / 2 + target <= size
  {
  }

  /**
   * The geometry of the crop: a zero dimension is the only failure; otherwise
   * the scaled frame covers the target in both directions and matches it
   * exactly in at least one, the offsets are non-negative, and the box is
   * exactly `targetWidth` by `targetHeight` and lies inside the scaled frame.
   */
  lemma CropBoxGeometry(input: Size, targetWidth: nat, targetHeight: nat)
    ensures CropBox(input, targetWidth, targetHeight).None? <==> input.width == 0 || input.height == 0
    ensures CropBox(input, targetWidth, targetHeight).Some? ==>
              var c := CropBox(input, targetWidth, targetHeight).value;
              && c.newWidth >= targetWidth && c.newHeight >= targetHeight
              && (c.newWidth == targetWidth || c.newHeight == targetHeight)
              && 0 <= c.x1 && 0 <= c.y1
              && c.x2 - c.x1 == targetWidth && c.y2 - c.y1 == targetHeight
              && c.x2 <= c.newWidth && c.y2 <= c.newHeight
  {
    if input.width != 0 && input.height != 0 {
      ScaledWidthCovers(input, targetWidth, targetHeight);
      ScaledHeightCovers(input, targetWidth, targetHeight);
      ScaledSizeFits(input, targetWidth, targetHeight);
      var c := CropBox(input, targetWidth, targetHeight).value;
      CentredOffset(c.newWidth, targetWidth);
      CentredOffset(c.newHeight, targetHeight);
    }
  }

  /**
   * As written, the default resolution `(1080, 1920)` is read as height 1080
   * and width 1920, so every crop is 1920 wide and 1080 high: landscape, not
   * the 9:16 vertical format the pipeline announces.
   */
  lemma DefaultCropIsLandscape(input: Size)
    requires input.width > 0 && input.height > 0
    ensures var c := ResizeCrop(input, TargetResolution);
            && c.Some?
            && c.value.x2 - c.value.x1 == 1920 && c.value.y2 - c.value.y1 == 1080
            && c.value.x2 - c.value.x1 > c.value.y2 - c.value.y1
  {
    CropBoxGeometry(input, 1920, 1080);
  }

  /** Read as (width, height), the default resolution crops to the 9:16 target aspect ratio. */
  lemma VerticalCropAspect(input: Size)
    requires input.width > 0 && input.height > 0
    ensures var c := VerticalCrop(input, TargetResolution);
            && c.Some?
            && c.value.x2 - c.value.x1 == 1080 && c.value.y2 - c.value.y1 == 1920
            && (c.value.x2 - c.value.x1) as real / (c.value.y2 - c.value.y1) as real == TargetAspectRatio
  {
    CropBoxGeometry(input, 1080, 1920);
  }

  // ---------------------------------------------------------------------------
  // Clip selection

  /** The shortest clip kept, strictly: 0.5 s. */
  const MinClipLength: int := 500000

  /** A `subclip(start, end)` range on the source video. */
  datatype Clip = Clip(start: int, end: int)

  /** `max(0, start)` and `min(video.duration, end)`. */
  function Clamp(h: Highlight, duration: int): Clip {
    Clip(Max(0, h.start), Min(duration, h.end))
  }

  predicate LongEnough(c: Clip) {
    c.end - c.start > MinClipLength
  }

  /** The highlights the loop keeps, as indices in ascending order. */
  function KeptIndices(highlights: seq<Highlight>, duration: int): (kept: seq<nat>)
    ensures forall k :: 0 <= k < |kept| ==> kept[k] < |highlights|
  {
    if highlights == [] then []
    else
      var prev := KeptIndices(highlights[..|highlights| - 1], duration);
      if LongEnough(Clamp(highlights[|highlights| - 1], duration)) then prev + [|highlights| - 1] else prev
  }

  /** The clips the loop collects. */
  function SelectClips(highlights: seq<Highlight>, duration: int): seq<Clip> {
    if highlights == [] then []
    else
      var prev := SelectClips(highlights[..|highlights| - 1], duration);
      var c := Clamp(highlights[|highlights| - 1], duration);
      if LongEnough(c) then prev + [c] else prev
  }

  /** The kept indices ascend, and name exactly the highlights whose clamped range is long enough. */
  lemma {:induction false} KeptIndicesSpec(highlights: seq<Highlight>, duration: int)
    ensures var kept := KeptIndices(highlights, duration);
            && |kept| <= |highlights|
            && (forall k, l :: 0 <= k < l < |kept| ==> kept[k] < kept[l])
            && (forall k :: 0 <= k < |kept| ==> LongEnough(Clamp(highlights[kept[k]], duration)))
            && (forall j :: 0 <= j < |highlights| && LongEnough(Clamp(highlights[j], duration)) ==> j in kept)
  {
    if highlights != [] {
      var init := highlights[..|highlights| - 1];
      KeptIndicesSpec(init, duration);
      var prev := KeptIndices(init, duration);
      assert forall k :: 0 <= k < |prev| ==> init[prev[k]] == highlights[prev[k]];
      assert forall j :: 0 <= j < |init| ==> init[j] == highlights[j];
      var last := |highlights| - 1;
      if LongEnough(Clamp(highlights[last], duration)) {
        assert KeptIndices(highlights, duration) == prev + [last];
      } else {
        assert KeptIndices(highlights, duration) == prev;
      }
    }
  }

  lemma {:induction false} SelectClipsKept(highlights: seq<Highlight>, duration: int)
    ensures var clips, kept := SelectClips(highlights, duration), KeptIndices(highlights, duration);
            && |clips| == |kept|
            && forall k :: 0 <= k < |clips| ==> clips[k] == Clamp(highlights[kept[k]], duration)
  {
    if highlights != [] {
      var init := highlights[..|highlights| - 1];
      SelectClipsKept(init, duration);
      var prev := KeptIndices(init, duration);
      assert forall k :: 0 <= k < |prev| ==> init[prev[k]] == highlights[prev[k]];
      var last := |highlights| - 1;
      if LongEnough(Clamp(highlights[last], duration)) {
        assert KeptIndices(highlights, duration) == prev + [last];
        assert SelectClips(highlights, duration)
            == SelectClips(init, duration) + [Clamp(highlights[last], duration)];
      } else {
        assert KeptIndices(highlights, duration) == prev;
        assert SelectClips(highlights, duration) == SelectClips(init, duration);
      }
    }
  }

  /**
   * The clips are the clamped highlights longer than 0.5 s, in the highlights'
   * order, and no others; each lies within `[0, duration]`, and there are at
   * most as many clips as highlights.
   */
  lemma SelectClipsSpec(highlights: seq<Highlight>, duration: int)
    ensures var clips, kept := SelectClips(highlights, duration), KeptIndices(highlights, duration);
            && |clips| == |kept| <= |highlights|
            && (forall k, l :: 0 <= k < l < |kept| ==> kept[k] < kept[l])
            && (forall j :: 0 <= j < |highlights| && LongEnough(Clamp(highlights[j], duration)) ==> j in kept)
            && forall k :: 0 <= k < |clips| ==>
                 && clips[k] == Clamp(highlights[kept[k]], duration)
                 && LongEnough(clips[k])
                 && 0 <= clips[k].start && clips[k].end <= duration
  {
    KeptIndicesSpec(highlights, duration);
    SelectClipsKept(highlights, duration);
  }

  /**
   * `create_highlight_video`: collect the clips, write the reel only when
   * there is at least one, and return the output path either way.
   */
  method CreateHighlightVideo(highlights: seq<Highlight>, duration: int, outputPath: string)
    returns (clips: seq<Clip>, written: bool, path: string)
    ensures clips == SelectClips(highlights, duration)
    ensures written <==> clips != []
    ensures path == outputPath
  {
    clips := [];
    for i := 0 to |highlights|
      invariant clips == SelectClips(highlights[..i], duration)
    {
      assert highlights[..i + 1][..i] == highlights[..i];
      var start := Max(0, highlights[i].start);
      var end := Min(duration, highlights[i].end);
      if end - start > MinClipLength {
        clips := clips + [Clip(start, end)];
      }
    }
    assert highlights[..|highlights|] == highlights;
    written := clips != [];
    path := outputPath;
  }

  // ---------------------------------------------------------------------------
  // The subtitle path handed to ffmpeg

  /** `path.replace("\\", "/").replace(":", "\\:")`. */
  function FfmpegPath(path: string): string {
    Replace(Replace(path, '\\', "/"), ':', "\\:")
  }

  /** Reads an escaped path back: each `\:` becomes `:`. */
  function Unescape(s: string): string {
    if s == [] then []
    else if |s| >= 2 && s[0] == '\\' && s[1] == ':' then ":" + Unescape(s[2..])
    else [s[0]] + Unescape(s[1..])
  }

  /** Every backslash in `r` escapes a colon, and every colon in `r` is escaped. */
  predicate ColonsEscaped(r: string) {
    && (forall i :: 0 <= i < |r| && r[i] == '\\' ==> i + 1 < |r| && r[i + 1] == ':')
    && (forall i :: 0 <= i < |r| && r[i] == ':' ==> 0 < i && r[i - 1] == '\\')
  }

  /** In a path without backslashes, escaping leaves every colon escaped and no other backslash. */
  lemma {:induction false} EscapedColons(s: string)
    requires '\\' !in s
    ensures ColonsEscaped(Replace(s, ':', "\\:"))
  {
    if s != [] {
      EscapedColons(s[1..]);
      assert s[0] in s;
    }
  }

  /** Unescaping undoes the colon escape of a path without backslashes. */
  lemma {:induction false} UnescapeEscaped(s: string)
    requires '\\' !in s
    ensures Unescape(Replace(s, ':', "\\:")) == s
  {
    if s != [] {
      var rest := Replace(s[1..], ':', "\\:");
      UnescapeEscaped(s[1..]);
      if s[0] == ':' {
        var r := "\\:" + rest;
        assert r == Replace(s, ':', "\\:");
        assert r[2..] == rest;
      } else {
        var r := [s[0]] + rest;
        assert r == Replace(s, ':', "\\:");
        assert r[1..] == rest;
      }
      assert [s[0]] + s[1..] == s;
    }
  }

  /**
   * The escaped path holds no backslash except as the escape of a colon, every
   * colon is escaped, and unescaping gives the path with every backslash
   * turned into a forward slash.
   */
  lemma FfmpegPathEscapes(path: string)
    ensures ColonsEscaped(FfmpegPath(path))
    ensures Unescape(FfmpegPath(path)) == Replace(path, '\\', "/")
  {
    EscapedColons(Replace(path, '\\', "/"));
    UnescapeEscaped(Replace(path, '\\', "/"));
  }
}
