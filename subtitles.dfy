/**
 * The subtitle side of the pipeline (subtitle_extractor.py): turning transcript
 * segments into subtitle entries, printing SubRip (SRT) timestamps and
 * documents, and retiming subtitles onto a reel made of highlight windows.
 * Times are integer microseconds, which is what Python's `timedelta` keeps.
 */
module SubtitleExtractor {
  import opened Wrappers
  import opened PyText
  import opened Records

  // ---------------------------------------------------------------------------
  // Transcript segments to subtitle entries

  /** One segment of the transcription service's answer; `confidence` may be absent. */
  datatype Segment = Segment(id: int, start: int, end: int, text: string, confidence: Option<real>)

  /**
   * The entry `extract_subtitles` builds from one segment: times and id
   * copied, the text stripped, a missing confidence read as 0.
   */
  function Entry(segment: Segment): (s: Subtitle)
    ensures s.id == segment.id && s.start == segment.start && s.end == segment.end
    ensures s.text == Strip(segment.text) && Trimmed(s.text)
    ensures segment.confidence.Some? ==> s.confidence == segment.confidence.value
    ensures segment.confidence.None? ==> s.confidence == 0.0
  {
    Subtitle(segment.id, segment.start, segment.end, Strip(segment.text), segment.confidence.GetOr(0.0))
  }

  /** The mapping loop of `extract_subtitles`: one entry per segment, in order. */
  method ExtractSubtitles(segments: seq<Segment>) returns (subtitles: seq<Subtitle>)
    ensures |subtitles| == |segments|
    ensures forall i :: 0 <= i < |segments| ==> subtitles[i] == Entry(segments[i])
  {
    subtitles := [];
    for i := 0 to |segments|
      invariant |subtitles| == i
      invariant forall k :: 0 <= k < i ==> subtitles[k] == Entry(segments[k])
    {
      var subtitle := Entry(segments[i]);
      assert (subtitles + [subtitle])[i] == subtitle;
      subtitles := subtitles + [subtitle];
    }
  }

  // ---------------------------------------------------------------------------
  // SRT timestamps

  const MicrosPerSecond: int := 1000000
  const SecondsPerDay: int := 86400
  const MillisPerDay: int := 86400000

  /** The four fields `format_time` prints. */
  datatype Clock = Clock(hours: nat, minutes: nat, seconds: nat, millis: nat)

  /**
   * The fields `format_time` reads from `timedelta(seconds=t)`: the timedelta
   * keeps whole days apart, so `td.seconds` is the second within the day, and
   * the milliseconds are its microseconds truncated.
   */
  function ClockOf(t: int): (c: Clock)
    ensures c.hours < 24 && c.minutes < 60 && c.seconds < 60 && c.millis < 1000
  {
    var daySeconds := (t / MicrosPerSecond) % SecondsPerDay;
    var micros := t % MicrosPerSecond;
    Clock(daySeconds / 3600, (daySeconds % 3600) / 60, daySeconds % 60, micros / 1000)
  }

  /** Euclidean division is determined by its quotient-remainder equation. */
  lemma DivModUnique(x: int, d: int, q: int, r: int)
    requires 0 < d && 0 <= r < d && x == q * d + r
    ensures x / d == q && x % d == r
  {
    var k := (q - x / d);
    assert k * d == x % d - r;
    assert k >= 1 ==> k * d >= d;
    assert k <= -1 ==> k * d <= -d;
  }

  /**
   * The printed fields add up to the input truncated to milliseconds, modulo
   * one day: `format_time` truncates and drops whole days.
   */
  lemma ClockTotal(t: int)
    ensures var c := ClockOf(t);
            c.hours * 3600000 + c.minutes * 60000 + c.seconds * 1000 + c.millis
              == (t / 1000) % MillisPerDay
  {
    var c := ClockOf(t);
    var q, u := t / 1000000, t % 1000000;
    var d, m := q % 86400, u / 1000;
    assert u == m * 1000 + u % 1000;
    DivModUnique(t, 1000, q * 1000 + m, u % 1000);
    assert q == (q / 86400) * 86400 + d;
    assert q * 1000 + m == (q / 86400) * 86400000 + (d * 1000 + m);
    DivModUnique(q * 1000 + m, 86400000, q / 86400, d * 1000 + m);
    assert d == (d / 3600) * 3600 + d % 3600;
    assert d % 3600 == ((d % 3600) / 60) * 60 + (d % 3600) % 60;
    DivModUnique(d, 60, (d / 3600) * 60 + (d % 3600) / 60, (d % 3600) % 60);
    assert c.hours * 3600 + c.minutes * 60 + c.seconds == d;
  }

  /** `format_time`: `HH:MM:SS,mmm`. */
  function FormatTime(t: int): string {
    var c := ClockOf(t);
    ZeroPad(c.hours, 2) + ":" + ZeroPad(c.minutes, 2) + ":" + ZeroPad(c.seconds, 2)
      + "," + ZeroPad(c.millis, 3)
  }

  /** Reads an `HH:MM:SS,mmm` stamp back as milliseconds. */
  function ParseTime(s: string): Option<int> {
    if |s| == 12 && s[2] == ':' && s[5] == ':' && s[8] == ','
       && AllDigits(s[..2]) && AllDigits(s[3..5]) && AllDigits(s[6..8]) && AllDigits(s[9..])
    then Some(ParseDecimal(s[..2]) * 3600000 + ParseDecimal(s[3..5]) * 60000
              + ParseDecimal(s[6..8]) * 1000 + ParseDecimal(s[9..]))
    else None
  }

  /**
   * The stamp is 12 characters: hours, minutes and seconds zero-padded to two
   * digits, milliseconds to three, separated by `:`, `:` and `,`.
   */
  lemma FormatTimeShape(t: int)
    ensures var s, c := FormatTime(t), ClockOf(t);
            && |s| == 12 && s[2] == ':' && s[5] == ':' && s[8] == ','
            && AllDigits(s[..2]) && AllDigits(s[3..5]) && AllDigits(s[6..8]) && AllDigits(s[9..])
            && ParseDecimal(s[..2]) == c.hours && ParseDecimal(s[3..5]) == c.minutes
            && ParseDecimal(s[6..8]) == c.seconds && ParseDecimal(s[9..]) == c.millis
            && '\n' !in s
  {
    var c := ClockOf(t);
    var h, m, sec, ms := ZeroPad(c.hours, 2), ZeroPad(c.minutes, 2), ZeroPad(c.seconds, 2), ZeroPad(c.millis, 3);
    ZeroPadRoundTrip(c.hours, 2);
    ZeroPadRoundTrip(c.minutes, 2);
    ZeroPadRoundTrip(c.seconds, 2);
    ZeroPadRoundTrip(c.millis, 3);
    var s := FormatTime(t);
    assert s == h + ":" + m + ":" + sec + "," + ms;
    assert s[..2] == h && s[3..5] == m && s[6..8] == sec && s[9..] == ms;
    forall i | 0 <= i < 12 ensures s[i] != '\n' {
      if i < 2 { assert s[i] == h[i]; }
      else if 2 < i < 5 { assert s[i] == m[i - 3]; }
      else if 5 < i < 8 { assert s[i] == sec[i - 6]; }
      else if 8 < i { assert s[i] == ms[i - 9]; }
    }
  }

  /** Reading a stamp back gives the time truncated to milliseconds, modulo one day. */
  lemma FormatTimeRoundTrip(t: int)
    ensures ParseTime(FormatTime(t)) == Some((t / 1000) % MillisPerDay)
  {
    FormatTimeShape(t);
    ClockTotal(t);
  }

  /** Within the first day the stamp loses only the sub-millisecond part. */
  lemma FormatTimeWithinDay(t: int)
    requires 0 <= t < SecondsPerDay * MicrosPerSecond
    ensures ParseTime(FormatTime(t)) == Some(t / 1000)
    ensures 0 <= t - ParseTime(FormatTime(t)).value * 1000 < 1000
  {
    FormatTimeRoundTrip(t);
    DivModUnique(t / 1000, MillisPerDay, 0, t / 1000);
  }

  // ---------------------------------------------------------------------------
  // SRT documents

  /** The timing line of a block. */
  function Timing(s: Subtitle): string {
    FormatTime(s.start) + " --> " + FormatTime(s.end)
  }

  /** The block `generate_srt` prints for a subtitle numbered `index`. */
  function Block(index: nat, s: Subtitle): string {
    Decimal(index) + "\n" + Timing(s) + "\n" + s.text + "\n\n"
  }

  /** The renderings of `subs`, numbered from `first`, concatenated. */
  function Numbered(subs: seq<Subtitle>, first: nat, render: (nat, Subtitle) -> string): string {
    if subs == [] then "" else render(first, subs[0]) + Numbered(subs[1..], first + 1, render)
  }

  /** The blocks for `subs`, numbered from `first`. */
  function Srt(subs: seq<Subtitle>, first: nat): string {
    Numbered(subs, first, Block)
  }

  lemma {:induction false} NumberedSnoc(subs: seq<Subtitle>, s: Subtitle, first: nat,
                                         render: (nat, Subtitle) -> string)
    ensures Numbered(subs + [s], first, render) == Numbered(subs, first, render) + render(first + |subs|, s)
  {
    if subs == [] {
      assert [] + [s] == [s];
    } else {
      var longer := subs + [s];
      assert longer[0] == subs[0] && longer[1..] == subs[1..] + [s];
      NumberedSnoc(subs[1..], s, first + 1, render);
    }
  }

  /** Appending one subtitle appends its block, numbered after the others. */
  lemma SrtSnoc(subs: seq<Subtitle>, s: Subtitle, first: nat)
    ensures Srt(subs + [s], first) == Srt(subs, first) + Block(first + |subs|, s)
  {
    NumberedSnoc(subs, s, first, Block);
  }

  /** `generate_srt`: the blocks of all subtitles, numbered from 1. */
  method GenerateSrt(subtitles: seq<Subtitle>) returns (srt: string)
    ensures srt == Srt(subtitles, 1)
  {
    srt := "";
    for i := 0 to |subtitles|
      invariant srt == Srt(subtitles[..i], 1)
    {
      var sub := subtitles[i];
      SrtPrefixStep(subtitles, i);
      ghost var before := srt;
      srt := srt + Decimal(i + 1) + "\n";
      srt := srt + FormatTime(sub.start) + " --> " + FormatTime(sub.end) + "\n";
      srt := srt + sub.text + "\n\n";
      BlockPieces(before, i + 1, sub);
    }
    assert subtitles[..|subtitles|] == subtitles;
  }

  lemma SrtPrefixStep(subs: seq<Subtitle>, i: nat)
    requires i < |subs|
    ensures Srt(subs[..i + 1], 1) == Srt(subs[..i], 1) + Block(i + 1, subs[i])
  {
    assert subs[..i + 1] == subs[..i] + [subs[i]];
    SrtSnoc(subs[..i], subs[i], 1);
  }

  /** Appending a block's pieces one line at a time appends the block. */
  lemma BlockPieces(srt: string, index: nat, s: Subtitle)
    ensures srt + Decimal(index) + "\n" + FormatTime(s.start) + " --> " + FormatTime(s.end) + "\n"
              + s.text + "\n\n"
         == srt + Block(index, s)
  {
    BlockAppend(srt, Decimal(index), FormatTime(s.start), FormatTime(s.end), s.text);
  }

  lemma TimingHasNoNewline(s: Subtitle)
    ensures '\n' !in Timing(s)
  {
    FormatTimeShape(s.start);
    FormatTimeShape(s.end);
  }

  lemma DecimalHasNoNewline(n: nat)
    ensures '\n' !in Decimal(n)
  {
    var d := Decimal(n);
    forall i | 0 <= i < |d| ensures d[i] != '\n' {
      assert IsDigit(d[i]);
    }
  }

  /** Appending a block's three pieces appends the block. */
  lemma BlockAppend(srt: string, number: string, start: string, end: string, text: string)
    ensures srt + number + "\n" + start + " --> " + end + "\n" + text + "\n\n"
         == srt + (number + "\n" + (start + " --> " + end) + "\n" + text + "\n\n")
  {
  }

  lemma FourLines(number: string, timing: string, text: string, rest: string)
    requires '\n' !in number && '\n' !in timing && '\n' !in text
    ensures Split(number + "\n" + timing + "\n" + text + "\n\n" + rest, '\n')
         == [number, timing, text, ""] + Split(rest, '\n')
  {
    var t3 := [] + ['\n'] + rest;
    var t2 := text + ['\n'] + t3;
    var t1 := timing + ['\n'] + t2;
    Regroup(number, timing, text, rest, '\n');
    SplitCons([], '\n', rest);
    SplitCons(text, '\n', t3);
    SplitCons(timing, '\n', t2);
    SplitCons(number, '\n', t1);
  }

  lemma Regroup(a: string, b: string, c: string, d: string, sep: char)
    ensures a + [sep] + b + [sep] + c + [sep, sep] + d
         == a + [sep] + (b + [sep] + (c + [sep] + ([] + [sep] + d)))
  {
    assert [sep, sep] + d == [sep] + ([] + [sep] + d);
  }



  /** A block splits into its number, timing line, text and an empty line. */
  lemma BlockLines(index: nat, s: Subtitle, rest: string)
    requires '\n' !in s.text
    ensures Split(Block(index, s) + rest, '\n') == [Decimal(index), Timing(s), s.text, ""] + Split(rest, '\n')
  {
    DecimalHasNoNewline(index);
    TimingHasNoNewline(s);
    FourLines(Decimal(index), Timing(s), s.text, rest);
  }

  /**
   * `lines` holds, for the i-th subtitle, `number(first + i)`, `timing` of it,
   * its text and an empty line, then one final empty string.
   */
  predicate Layout(lines: seq<string>, subs: seq<Subtitle>, first: nat,
                   number: nat -> string, timing: Subtitle -> string) {
    && |lines| == 4 * |subs| + 1
    && lines[4 * |subs|] == ""
    && forall i :: 0 <= i < |subs| ==>
         && lines[4 * i] == number(first + i)
         && lines[4 * i + 1] == timing(subs[i])
         && lines[4 * i + 2] == subs[i].text
         && lines[4 * i + 3] == ""
  }

  /** The SRT layout: numbers in decimal, timing lines as `Timing` prints them. */
  predicate SrtLayout(lines: seq<string>, subs: seq<Subtitle>, first: nat) {
    Layout(lines, subs, first, Decimal, Timing)
  }

  lemma LayoutCons(tail: seq<string>, subs: seq<Subtitle>, first: nat,
                   number: nat -> string, timing: Subtitle -> string)
    requires subs != [] && Layout(tail, subs[1..], first + 1, number, timing)
    ensures Layout([number(first), timing(subs[0]), subs[0].text, ""] + tail, subs, first, number, timing)
  {
    var lines := [number(first), timing(subs[0]), subs[0].text, ""] + tail;
    forall i | 1 <= i < |subs|
      ensures lines[4 * i] == number(first + i) && lines[4 * i + 1] == timing(subs[i])
           && lines[4 * i + 2] == subs[i].text && lines[4 * i + 3] == ""
    {
      var j := i - 1;
      assert subs[1..][j] == subs[i];
      assert 4 * i == 4 * j + 4;
      assert lines[4 * j + 4] == tail[4 * j];
      assert lines[4 * j + 5] == tail[4 * j + 1];
      assert lines[4 * j + 6] == tail[4 * j + 2];
      assert lines[4 * j + 7] == tail[4 * j + 3];
    }
  }

  /**
   * One block per subtitle, in order: when no text contains a line break, the
   * document's lines are, for the i-th subtitle, its number `first + i`, its
   * timing line, its text and an empty line, followed by one final empty
   * string after the last line break (an empty list gives the empty document).
   */
  lemma {:induction false} SrtLines(subs: seq<Subtitle>, first: nat)
    requires forall i :: 0 <= i < |subs| ==> '\n' !in subs[i].text
    ensures SrtLayout(Split(Srt(subs, first), '\n'), subs, first)
  {
    if subs == [] {
      assert Split("", '\n') == [""];
    } else {
      var rest := Srt(subs[1..], first + 1);
      SrtLines(subs[1..], first + 1);
      BlockLines(first, subs[0], rest);
      LayoutCons(Split(rest, '\n'), subs, first, Decimal, Timing);
    }
  }

  // ---------------------------------------------------------------------------
  // Retiming subtitles onto a highlight reel

  /** The overlap test of `filter_subtitles_for_highlights`. */
  predicate Overlaps(s: Subtitle, h: Highlight) {
    s.end > h.start && s.start < h.end
  }

  /** An overlapping subtitle clipped to the window and shifted onto the reel. */
  function Retimed(s: Subtitle, h: Highlight, id: int, offset: int): Subtitle {
    Subtitle(id, Max(0, s.start - h.start) + offset, Min(s.end - h.start, h.end - h.start) + offset,
             s.text, s.confidence)
  }

  /** The indices, in ascending order, of the subtitles that overlap `h`. */
  function Hits(subs: seq<Subtitle>, h: Highlight): (hits: seq<nat>)
    ensures forall k :: 0 <= k < |hits| ==> hits[k] < |subs|
  {
    if subs == [] then []
    else
      var prev := Hits(subs[..|subs| - 1], h);
      if Overlaps(subs[|subs| - 1], h) then prev + [|subs| - 1] else prev
  }

  /** `Hits` selects exactly the overlapping subtitles, in their original order. */
  lemma {:induction false} HitsSelect(subs: seq<Subtitle>, h: Highlight)
    ensures var hits := Hits(subs, h);
            && (forall k :: 0 <= k < |hits| ==> Overlaps(subs[hits[k]], h))
            && (forall k, l :: 0 <= k < l < |hits| ==> hits[k] < hits[l])
            && (forall j :: 0 <= j < |subs| && Overlaps(subs[j], h) ==> j in hits)
  {
    if subs != [] {
      var init := subs[..|subs| - 1];
      HitsSelect(init, h);
      var prev, hits := Hits(init, h), Hits(subs, h);
      assert forall k :: 0 <= k < |prev| ==> hits[k] == prev[k] && subs[prev[k]] == init[prev[k]];
      assert forall j :: 0 <= j < |init| ==> init[j] == subs[j];
    }
  }

  /** What the inner loop appends for one window: ids from `firstId`, shifted by `offset`. */
  function WindowEntries(subs: seq<Subtitle>, h: Highlight, firstId: int, offset: int): seq<Subtitle> {
    if subs == [] then []
    else
      var prev := WindowEntries(subs[..|subs| - 1], h, firstId, offset);
      var s := subs[|subs| - 1];
      if Overlaps(s, h) then prev + [Retimed(s, h, firstId + |prev|, offset)] else prev
  }

  /**
   * One window's entries: one per overlapping subtitle in the original order,
   * numbered consecutively from `firstId`, text and confidence copied, and
   * every entry inside `[offset, offset + window length]`, non-empty when both
   * the subtitle and the window are.
   */
  lemma {:induction false} WindowEntriesSpec(subs: seq<Subtitle>, h: Highlight, firstId: int, offset: int)
    ensures var w, hits := WindowEntries(subs, h, firstId, offset), Hits(subs, h);
            && |w| == |hits|
            && forall k :: 0 <= k < |w| ==>
                 && w[k] == Retimed(subs[hits[k]], h, firstId + k, offset)
                 && w[k].id == firstId + k
                 && w[k].text == subs[hits[k]].text
                 && w[k].confidence == subs[hits[k]].confidence
                 && offset <= w[k].start
                 && w[k].end <= offset + (h.end - h.start)
                 && (subs[hits[k]].start < subs[hits[k]].end && h.start < h.end ==> w[k].start < w[k].end)
  {
    HitsSelect(subs, h);
    if subs != [] {
      var init := subs[..|subs| - 1];
      WindowEntriesSpec(init, h, firstId, offset);
      HitsSelect(init, h);
      var hits := Hits(subs, h);
      assert forall k :: 0 <= k < |Hits(init, h)| ==> hits[k] == Hits(init, h)[k];
      assert forall k :: 0 <= k < |Hits(init, h)| ==> init[hits[k]] == subs[hits[k]];
    }
  }

  /** The offset of the next window: the end of the last entry emitted so far, else 0. */
  function LastEnd(filtered: seq<Subtitle>): int {
    if filtered == [] then 0 else filtered[|filtered| - 1].end
  }

  /** `filter_subtitles_for_highlights` as written: windows in order, each offset by `LastEnd`. */
  function Filtered(subs: seq<Subtitle>, highlights: seq<Highlight>): seq<Subtitle> {
    if highlights == [] then []
    else
      var prev := Filtered(subs, highlights[..|highlights| - 1]);
      prev + WindowEntries(subs, highlights[|highlights| - 1], |prev|, LastEnd(prev))
  }

  /** `filter_subtitles_for_highlights`: the nested loops that append to `filtered`. */
  method FilterSubtitlesForHighlights(subtitles: seq<Subtitle>, highlights: seq<Highlight>)
    returns (filtered: seq<Subtitle>)
    ensures filtered == Filtered(subtitles, highlights)
  {
    filtered := [];
    var subtitleId := 0;
    for i := 0 to |highlights|
      invariant filtered == Filtered(subtitles, highlights[..i])
      invariant subtitleId == |filtered|
    {
      var h := highlights[i];
      var offset := if filtered != [] then filtered[|filtered| - 1].end else 0;
      ghost var before := filtered;
      for j := 0 to |subtitles|
        invariant filtered == before + WindowEntries(subtitles[..j], h, |before|, offset)
        invariant subtitleId == |filtered|
      {
        var sub := subtitles[j];
        assert subtitles[..j + 1][..j] == subtitles[..j];
        if sub.end > h.start && sub.start < h.end {
          var newStart := Max(0, sub.start - h.start) + offset;
          var newEnd := Min(sub.end - h.start, h.end - h.start) + offset;
          filtered := filtered + [Subtitle(subtitleId, newStart, newEnd, sub.text, sub.confidence)];
          subtitleId := subtitleId + 1;
        }
      }
      assert subtitles[..|subtitles|] == subtitles;
      assert highlights[..i + 1][..i] == highlights[..i];
    }
    assert highlights[..|highlights|] == highlights;
  }

  /** The number of (window, subtitle) pairs that overlap. */
  function TotalHits(subs: seq<Subtitle>, highlights: seq<Highlight>): nat {
    if highlights == [] then 0
    else TotalHits(subs, highlights[..|highlights| - 1]) + |Hits(subs, highlights[|highlights| - 1])|
  }

  /** One entry per overlapping (window, subtitle) pair, with ids 0, 1, 2, ... across all windows. */
  lemma {:induction false} FilteredIds(subs: seq<Subtitle>, highlights: seq<Highlight>)
    ensures |Filtered(subs, highlights)| == TotalHits(subs, highlights)
    ensures forall i :: 0 <= i < |Filtered(subs, highlights)| ==> Filtered(subs, highlights)[i].id == i
  {
    if highlights != [] {
      var init := highlights[..|highlights| - 1];
      var prev := Filtered(subs, init);
      FilteredIds(subs, init);
      WindowEntriesSpec(subs, highlights[|highlights| - 1], |prev|, LastEnd(prev));
    }
  }

  /**
   * Appending a window keeps what was emitted and places the new window's
   * entries after the end of the last entry emitted so far (or after 0).
   */
  lemma FilteredWindowOffset(subs: seq<Subtitle>, highlights: seq<Highlight>, h: Highlight)
    ensures var prev, next := Filtered(subs, highlights), Filtered(subs, highlights + [h]);
            && |prev| <= |next| && next[..|prev|] == prev
            && forall i :: |prev| <= i < |next| ==>
                 LastEnd(prev) <= next[i].start && next[i].end <= LastEnd(prev) + (h.end - h.start)
  {
    var hs := highlights + [h];
    assert hs[..|hs| - 1] == highlights;
    var prev := Filtered(subs, highlights);
    WindowEntriesSpec(subs, h, |prev|, LastEnd(prev));
  }

  /**
   * A single window `[0, D)` holding every subtitle (each with
   * `0 <= start < end <= D`) gives the subtitles back unchanged but renumbered.
   */
  lemma SingleWindowKeepsTimes(subs: seq<Subtitle>, h: Highlight)
    requires h.start == 0
    requires forall i :: 0 <= i < |subs| ==> 0 <= subs[i].start < subs[i].end <= h.end
    ensures |Filtered(subs, [h])| == |subs|
    ensures forall i :: 0 <= i < |subs| ==> Filtered(subs, [h])[i] == subs[i].(id := i)
  {
    assert [h][..0] == [];
    assert Filtered(subs, [h]) == WindowEntries(subs, h, 0, 0);
    WholeWindow(subs, h);
  }

  lemma WholeWindow(subs: seq<Subtitle>, h: Highlight)
    requires h.start == 0
    requires forall i :: 0 <= i < |subs| ==> 0 <= subs[i].start < subs[i].end <= h.end
    ensures |WindowEntries(subs, h, 0, 0)| == |subs|
    ensures forall i :: 0 <= i < |subs| ==> WindowEntries(subs, h, 0, 0)[i] == subs[i].(id := i)
  {
    AllHit(subs, h);
    WindowEntriesSpec(subs, h, 0, 0);
  }

  lemma {:induction false} AllHit(subs: seq<Subtitle>, h: Highlight)
    requires forall i :: 0 <= i < |subs| ==> Overlaps(subs[i], h)
    ensures |Hits(subs, h)| == |subs|
    ensures forall k :: 0 <= k < |subs| ==> Hits(subs, h)[k] == k
  {
    if subs != [] {
      AllHit(subs[..|subs| - 1], h);
    }
  }

  // ---------------------------------------------------------------------------
  // Retiming as the reel lays the windows out

  /** The reel's length up to and including the given windows. */
  function ReelLength(highlights: seq<Highlight>): int {
    if highlights == [] then 0
    else ReelLength(highlights[..|highlights| - 1])
           + (highlights[|highlights| - 1].end - highlights[|highlights| - 1].start)
  }

  /**
   * Retiming with each window offset by the summed length of the windows
   * before it: the position at which the concatenated reel starts that window.
   */
  function ReelSubtitles(subs: seq<Subtitle>, highlights: seq<Highlight>): seq<Subtitle> {
    if highlights == [] then []
    else
      var init := highlights[..|highlights| - 1];
      var prev := ReelSubtitles(subs, init);
      prev + WindowEntries(subs, highlights[|highlights| - 1], |prev|, ReelLength(init))
  }

  /**
   * Each window's entries land inside that window's span of the reel,
   * `[ReelLength(before), ReelLength(before) + window length]`, whatever
   * earlier windows emitted; ids stay consecutive.
   */
  lemma ReelWindowInClip(subs: seq<Subtitle>, highlights: seq<Highlight>, h: Highlight)
    ensures var prev, next := ReelSubtitles(subs, highlights), ReelSubtitles(subs, highlights + [h]);
            && |prev| <= |next| && next[..|prev|] == prev
            && ReelLength(highlights + [h]) == ReelLength(highlights) + (h.end - h.start)
            && forall i :: |prev| <= i < |next| ==>
                 && next[i].id == i
                 && ReelLength(highlights) <= next[i].start
                 && next[i].end <= ReelLength(highlights + [h])
  {
    var hs := highlights + [h];
    assert hs[..|hs| - 1] == highlights;
    var prev := ReelSubtitles(subs, highlights);
    WindowEntriesSpec(subs, h, |prev|, ReelLength(highlights));
  }

  /**
   * As written, the offset is the end of the last emitted entry, so a window
   * that ends after its last subtitle shifts the next window's subtitles
   * earlier than that window's clip: here "b" belongs to the reel's second
   * clip, which starts at 2 s, but is timed at 1 s.
   */
  lemma OffsetDriftExample()
    ensures var a := Subtitle(0, 0, 1000000, "a", 0.0);
            var b := Subtitle(1, 3000000, 4000000, "b", 0.0);
            var hs := [Highlight(0, 2000000, "", 0), Highlight(3000000, 4000000, "", 0)];
            && Filtered([a, b], hs) == [a, b.(start := 1000000, end := 2000000)]
            && ReelLength(hs[..1]) == 2000000
  {
    var a := Subtitle(0, 0, 1000000, "a", 0.0);
    var b := Subtitle(1, 3000000, 4000000, "b", 0.0);
    var h1, h2 := Highlight(0, 2000000, "", 0), Highlight(3000000, 4000000, "", 0);
    var hs := [h1, h2];
    assert hs[..1] == [h1] && [h1][..0] == [];
    DriftFirstWindow(a, b, h1);
    DriftSecondWindow(a, b, h2, 1000000);
    assert LastEnd([a]) == 1000000;
    assert ReelLength([h1]) == 2000000 by {
      assert ReelLength([]) == 0;
    }
  }

  /** On the same input, offsetting by the reel length times "b" at 2 s, the start of its clip. */
  lemma ReelTimingExample(a: Subtitle, b: Subtitle, h1: Highlight, h2: Highlight)
    requires a == Subtitle(0, 0, 1000000, "a", 0.0) && b == Subtitle(1, 3000000, 4000000, "b", 0.0)
    requires h1 == Highlight(0, 2000000, "", 0) && h2 == Highlight(3000000, 4000000, "", 0)
    ensures ReelSubtitles([a, b], [h1, h2]) == [a, b.(start := 2000000, end := 3000000)]
  {
    var first := ReelSubtitles([a, b], [h1]);
    DriftFirstWindow(a, b, h1);
    assert |first| == 1;
    var w := WindowEntries([a, b], h2, 1, 2000000);
    DriftSecondWindow(a, b, h2, 2000000);
    assert w == [b.(start := 2000000, end := 3000000)];
    ReelTwoClips([a, b], h1, h2);
    assert ReelSubtitles([a, b], [h1, h2]) == first + w;
  }

  lemma ReelTwoClips(subs: seq<Subtitle>, h1: Highlight, h2: Highlight)
    ensures var first := ReelSubtitles(subs, [h1]);
            ReelSubtitles(subs, [h1, h2]) == first + WindowEntries(subs, h2, |first|, h1.end - h1.start)
  {
    assert [h1, h2][..1] == [h1] && [h1][..0] == [];
  }

  lemma DriftFirstWindow(a: Subtitle, b: Subtitle, h1: Highlight)
    requires a == Subtitle(0, 0, 1000000, "a", 0.0) && b == Subtitle(1, 3000000, 4000000, "b", 0.0)
    requires h1 == Highlight(0, 2000000, "", 0)
    ensures Filtered([a, b], [h1]) == [a] && ReelSubtitles([a, b], [h1]) == [a]
  {
    assert [a, b][..1] == [a] && [a][..0] == [] && [h1][..0] == [];
    assert WindowEntries([a], h1, 0, 0) == [a];
    assert WindowEntries([a, b], h1, 0, 0) == [a];
  }

  lemma DriftSecondWindow(a: Subtitle, b: Subtitle, h2: Highlight, offset: int)
    requires a == Subtitle(0, 0, 1000000, "a", 0.0) && b == Subtitle(1, 3000000, 4000000, "b", 0.0)
    requires h2 == Highlight(3000000, 4000000, "", 0)
    ensures WindowEntries([a, b], h2, 1, offset) == [b.(start := offset, end := offset + 1000000)]
  {
    assert [a, b][..1] == [a] && [a][..0] == [];
    assert WindowEntries([a], h2, 1, offset) == [];
  }
}
