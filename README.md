# Highlight-Extractor in Dafny

This project models the core of Highlight-Extractor, a FastAPI service that
makes a vertical, subtitled highlight reel from a video. The service:

- accepts an upload or a URL, creates a job, and runs a background pipeline;
- the pipeline extracts audio, transcribes it, asks a language model for
  highlights, resizes the video, burns in subtitles, and cuts the reel;
- it reports progress to websocket listeners after every step;
- it serves the finished files for download.

It also models the pure logic of the three helper components: the subtitle
extractor, the highlight detector and the video processor.

Modules, one per source file:

- `PyText`: the Python string operations the core relies on, with Python's
  semantics:
  - `str(n)` and `f"{n:0Wd}"`;
  - `find` / `rfind` and slicing with negative bounds;
  - `strip`, `replace`, `join` and `split`.
- `Records`: the subtitle and highlight dicts passed between components.
- `SubtitleExtractor` (subtitle_extractor.py):
  - the segment-to-entry mapping loop;
  - SRT timestamps and documents;
  - retiming subtitles onto the reel.
- `HighlightDetector` (highlight_detector.py): the subtitle block of the prompt
  and the bracket slice that extracts the JSON reply.
- `VideoProcessor` (video_processor.py):
  - the cover-scale and centre-crop geometry of `resize_video`;
  - the clip selection of `create_highlight_video`;
  - the colon escaping of `add_subtitles`.
- `Server` (main.py):
  - the `ConnectionManager` class, i.e. the websocket lists per job;
  - the `JobService` class, holding the `jobs` dict, the files on disk and
    the manager;
  - the two request handlers and the two background pipelines;
  - `update_job`, `get_job_status` and `download_file`.

Conventions:

- **Times** are integer microseconds. The source holds them as Python floats
  (IEEE doubles) and `timedelta` rounds them to microseconds; the model
  computes on the exact integers and does not reproduce double rounding (the
  members this affects are named under "Left out").
- **The resize scale factor** is an exact real.
- **External effects become parameters.** Every external effect is a parameter
  of the operation: a subprocess, an OpenAI call, a file write, `uuid4`,
  `datetime.now`. Each is an `Outcome`, either it returned or it raised with a
  text. Websockets whose send raises are the set `closed`.
- **The background pipeline** is a `Plan`, a chain of steps:
  - `Announce` is one `update_job` call;
  - `Call` is one external step, together with the files it writes;
  - `Finish` is the completion block.

  `Perform` runs a plan on a job record with the single `except` around it.
  The methods `ProcessVideoAsync` and `ProcessUrlAsync` update the service in
  place. Each is proved to leave exactly the record, the files and the
  broadcasts that `Perform` gives. A ghost `Cursor` follows the run step by
  step.
- **Proof-only split.** `process_video_async` is one function in the source.
  The model splits it into `RunVideo`, `Analyse`, `Render`, `Finalize` and
  `Complete`. The split serves the proof only and follows the source's step
  order exactly.

Where a reader might expect otherwise, the model follows the code:

- **Broadcasting** never prunes a socket whose send raises. It swallows the
  error and keeps the socket listed.
- **An oversized upload** is written to disk first. It is then recorded as an
  error job, not rejected before any job exists.
- **Both upload rejections become a 500.** The generic `except` around
  `process_video` catches the 400 and 413 `HTTPException`s and turns them into
  a 500. Its detail is the text of the original exception.
- **SRT hours wrap** at 24. `format_time` reads `timedelta.seconds`, which drops
  whole days.
- **Retiming advances the offset by the end of the last emitted subtitle**, not
  by the full window, although the comment at subtitle_extractor.py:69 says
  the timing is made relative to the highlight reel (see Findings).
- **A single full-video window** gives the subtitles back with the same times
  but renumbered from 0. It does not give them back unchanged.
- **The configured resolution** `(1080, 1920)` is unpacked as (height, width)
  (see Findings).

## Model

| member | source | states |
|---|---|---|
| PyText.Decimal | subtitle_extractor.py:98 | `str(n)` of a non-negative integer is a non-empty string of digits with no leading zero |
| PyText.ParseDecimalOfDecimal | subtitle_extractor.py:98 | the printed number reads back as the number itself |
| PyText.ZeroPadRoundTrip | subtitle_extractor.py:92 | `{n:0Wd}` of a value below 10^W is exactly W digits and reads back as the value |
| PyText.Find | highlight_detector.py:51 | `find` gives -1 exactly when the character is absent; otherwise an index holding it with no earlier occurrence |
| PyText.RFind | highlight_detector.py:52 | `rfind` gives -1 exactly when the character is absent; otherwise an index holding it with no later occurrence |
| PyText.SliceBound | highlight_detector.py:53 | a slice bound inside the string is kept, a negative one counts from the end, and the result always lies within the string |
| PyText.TrimStart | subtitle_extractor.py:38 | the result is a suffix, everything removed is whitespace, and it does not start with whitespace |
| PyText.TrimEnd | subtitle_extractor.py:38 | the result is a prefix, everything removed is whitespace, and it does not end with whitespace |
| PyText.Strip | subtitle_extractor.py:38 | the stripped text has no whitespace at either end and is no longer than the input |
| PyText.StripExactly | subtitle_extractor.py:38 | whitespace around a trimmed core strips to exactly that core |
| PyText.StripDecomposes | subtitle_extractor.py:38 | every string is its stripped text with only whitespace before and after it |
| PyText.StripIdempotent | subtitle_extractor.py:38 | stripping twice is stripping once |
| PyText.Replace | video_processor.py:79 | replacing a character by text that does not contain it leaves none of it; a string without it is returned unchanged; with a one-character replacement the length is kept and each position holds the replacement where the character was and the original character elsewhere |
| PyText.ReplaceConcat | video_processor.py:79 | replacing distributes over concatenation, so for a replacement of any length the result is each character's own replacement, in order |
| PyText.SplitJoin | highlight_detector.py:13-16 | splitting a `join` at its one-character separator gives the parts back when no part holds the separator |
| SubtitleExtractor.Entry | subtitle_extractor.py:34-40 | an entry copies id, start and end, holds the stripped text (trimmed at both ends), and reads a missing confidence as 0 |
| SubtitleExtractor.ExtractSubtitles | subtitle_extractor.py:32-41 | one entry per transcript segment, in segment order, each the segment's entry |
| SubtitleExtractor.ClockOf | subtitle_extractor.py:87-91 | the printed fields are in range: hours < 24, minutes and seconds < 60, milliseconds < 1000 |
| SubtitleExtractor.ClockTotal | subtitle_extractor.py:87-91 | the four fields add up to the time truncated to milliseconds, modulo one day |
| SubtitleExtractor.FormatTimeShape | subtitle_extractor.py:85-92 | the stamp is 12 characters `HH:MM:SS,mmm`, zero-padded, with the separators in place and each field reading back as its value |
| SubtitleExtractor.FormatTimeRoundTrip | subtitle_extractor.py:85-92 | reading the stamp back gives the time truncated to milliseconds, modulo one day |
| SubtitleExtractor.FormatTimeWithinDay | subtitle_extractor.py:85-92 | within the first day the stamp loses only the sub-millisecond part |
| SubtitleExtractor.SrtSnoc | subtitle_extractor.py:97-100 | one more subtitle appends exactly its block, numbered after the others |
| SubtitleExtractor.GenerateSrt | subtitle_extractor.py:94-101 | the loop's text is the blocks of all subtitles numbered from 1 |
| SubtitleExtractor.BlockLines | subtitle_extractor.py:97-100 | a block splits into its number, its timing line, its text and an empty line |
| SubtitleExtractor.SrtLines | subtitle_extractor.py:94-101 | with line-free texts, the document's lines are, for the i-th subtitle, its number, `start --> end`, its text and a blank line, in order |
| SubtitleExtractor.Hits | subtitle_extractor.py:66-68 | the selected indices name subtitles of the list |
| SubtitleExtractor.HitsSelect | subtitle_extractor.py:66-68 | exactly the overlapping subtitles are selected, in their original order |
| SubtitleExtractor.WindowEntriesSpec | subtitle_extractor.py:66-80 | one window emits one entry per overlapping subtitle, in order; ids are consecutive, text and confidence are copied, and each entry lies in `[offset, offset + window length]`, non-empty when subtitle and window are |
| SubtitleExtractor.FilterSubtitlesForHighlights | subtitle_extractor.py:50-82 | the nested loops compute the window-by-window retiming, each window offset by the end of the last entry so far |
| SubtitleExtractor.FilteredIds | subtitle_extractor.py:53-80 | one entry per overlapping (window, subtitle) pair, with ids 0, 1, 2, ... across all windows |
| SubtitleExtractor.FilteredWindowOffset | subtitle_extractor.py:59-64 | a new window keeps what was emitted and places its entries after the last emitted end, within one window length of it |
| SubtitleExtractor.SingleWindowKeepsTimes | subtitle_extractor.py:55-80 | a single window from 0 holding every subtitle gives them back with their times, renumbered from 0 |
| SubtitleExtractor.OffsetDriftExample | subtitle_extractor.py:59-64 | as written, the second clip's subtitle is timed before that clip starts on the reel |
| SubtitleExtractor.ReelWindowInClip | subtitle_extractor.py:59-64 | offsetting by the reel length so far places each window's entries inside that window's span of the reel, with consecutive ids |
| SubtitleExtractor.ReelTimingExample | subtitle_extractor.py:59-64 | on the drift example, the reel offset times the subtitle at the start of its clip |
| HighlightDetector.PromptLineHasNoNewline | highlight_detector.py:14 | a line holds no line break when its text and printed times hold none |
| HighlightDetector.SubtitleBlockLines | highlight_detector.py:13-16 | the block has exactly one line per subtitle, in order, and is empty for no subtitles |
| HighlightDetector.ExtractJson | highlight_detector.py:51-53 | the slice is never longer than the reply |
| HighlightDetector.ExtractJsonBracketed | highlight_detector.py:51-53 | with `[` before the last `]`, the slice runs from the first `[` through the last `]`, with no `[` before it and no `]` after it |
| HighlightDetector.ExtractJsonNoCloser | highlight_detector.py:51-53 | a reply without `]` gives the empty slice |
| HighlightDetector.ExtractJsonNoOpener | highlight_detector.py:51-53 | a reply without `[` gives the final `]` alone (start -1 counts from the end) or nothing |
| HighlightDetector.ExtractJsonCloserFirst | highlight_detector.py:51-53 | when every `]` precedes the first `[`, the slice is empty |
| VideoProcessor.ScaledCovers | video_processor.py:41-42 | truncating a side scaled by at least target/side still reaches the target |
| VideoProcessor.ScaledExactly | video_processor.py:41-42 | a side scaled by exactly target/side is exactly the target |
| VideoProcessor.ScaledWidthCovers | video_processor.py:37-41 | scaling by the larger ratio makes the width at least the target width |
| VideoProcessor.ScaledHeightCovers | video_processor.py:37-42 | scaling by the larger ratio makes the height at least the target height |
| VideoProcessor.ScaledSizeFits | video_processor.py:37-42 | along the axis of the larger ratio, the scaled size equals the target |
| VideoProcessor.CentredOffset | video_processor.py:45-46 | the centring offset is non-negative and leaves room for the target inside the frame |
| VideoProcessor.CropBoxGeometry | video_processor.py:34-53 | the crop fails only on a zero dimension; otherwise the frame covers the target (exactly on one axis), the box is target-sized and lies inside the frame |
| VideoProcessor.DefaultCropIsLandscape | video_processor.py:35 | as written, the default resolution crops 1920 wide by 1080 high, i.e. landscape |
| VideoProcessor.VerticalCropAspect | video_processor.py:35 | reading the resolution as (width, height) crops 1080 by 1920, the 9:16 target aspect |
| VideoProcessor.KeptIndices | video_processor.py:103-108 | the kept indices name highlights of the list |
| VideoProcessor.KeptIndicesSpec | video_processor.py:103-108 | exactly the highlights whose clamped range is longer than 0.5 s are kept, in ascending order |
| VideoProcessor.SelectClipsKept | video_processor.py:103-108 | the k-th clip is the clamped range of the k-th kept highlight |
| VideoProcessor.SelectClipsSpec | video_processor.py:102-108 | the clips are the clamped highlights longer than 0.5 s, in order, and no others; each lies within `[0, duration]` |
| VideoProcessor.CreateHighlightVideo | video_processor.py:96-116 | the loop collects exactly the selected clips; the reel is written exactly when there is at least one; the output path is returned either way |
| VideoProcessor.EscapedColons | video_processor.py:79 | escaping a backslash-free path escapes every colon and adds no other backslash |
| VideoProcessor.UnescapeEscaped | video_processor.py:79 | reading `\:` back as `:` undoes the escape |
| VideoProcessor.FfmpegPathEscapes | video_processor.py:79 | the ffmpeg path has every colon escaped and no other backslash, and unescapes to the path with backslashes turned into slashes |
| Server.DeliveriesSpec | main.py:65-71 | a broadcast tries every listed socket once, in list order, and reaches exactly the open ones |
| Server.IndexOf | main.py:63 | the position found holds the socket and no earlier position does |
| Server.RemoveFirstSpec | main.py:63 | `list.remove` drops exactly one occurrence, the first, and keeps the rest in order |
| Server.RemoveFirstUndoesAppend | main.py:55-63 | removing a socket that was appended once, last, restores the list |
| Server.ConnectionManager.constructor | main.py:52-53 | the manager starts with no lists |
| Server.ConnectionManager.Connect | main.py:55-59 | the socket is appended to the job's list, which is created when missing; other jobs are untouched |
| Server.ConnectionManager.Disconnect | main.py:61-63 | an unknown job is a no-op; otherwise the first occurrence is removed, and a socket not in the list raises and changes nothing |
| Server.ConnectionManager.Session | main.py:277-291 | connect then disconnect leaves a fresh socket's job list as it was (created empty if there was none) |
| Server.ConnectionManager.Broadcast | main.py:65-71 | a broadcast never changes the lists and records one attempt per listed socket, in order |
| Server.PerformOutcome | main.py:200-263 | any run ends with one terminal broadcast, preceded only by processing records: `error` with the raising step's text exactly when a step raised, otherwise `completed` at 100; only the files of steps before the failure are written |
| Server.PerformRises | main.py:265-269 | when the announced progress never decreases, every broadcast progress lies between the start and 100, in non-decreasing order |
| Server.PerformFalls | main.py:265-269 | when every step returns but the announcements fall, some broadcast shows less progress than an earlier record |
| Server.PerformCompletes | main.py:250-256 | a run in which every step returns completes with the final message, the output directory and the metadata |
| Server.AnalysisSteps | main.py:205-216 | the analysis stage hands on to the rest exactly when audio extraction, transcription and detection return; it writes only audio.mp3 (always, once extraction returns); its announcements rise from any value up to `start + 20` to `start + 50`; it does not change how the run ends |
| Server.RenderSteps | main.py:218-233 | the render stage hands on exactly when resize, the open and write of subtitles.srt, the burn-in and the reel return; it writes only its own files, all of them when it gets through; its announcements rise from `start + 60` to `start + 80` |
| Server.FinalSteps | main.py:235-256 | the final stage completes exactly when both the open of metadata.json and the dump into it return; the file exists as soon as the open returns; its announcements rise from any value up to 95; it ends on the job's output directory and this run's metadata |
| Server.VideoPlanFailure | main.py:200-263 | the video run stops at a failure exactly when one of its eleven external steps raises |
| Server.VideoPlanWrites | main.py:202-248 | a run in which every step returns writes the audio, the resized video, the SRT, the subtitled video, the metadata, and the reel exactly when a clip survived |
| Server.VideoPlanMetadata | main.py:247-248 | metadata.json exists after the run exactly when every step up to and including its `open` returned, so a dump that raises leaves it behind |
| Server.VideoPlanEarlyFailure | main.py:202-207 | when the directory or the audio step fails, nothing is written |
| Server.VideoPlanRises | main.py:205-235 | progress rises through the run exactly when `start_progress` is at most 15; above that, the fixed 95 comes after a larger value |
| Server.VideoPlanLast | main.py:237-254 | the completion stores the job's output directory and the metadata of this run |
| Server.VideoRunOutcome | main.py:200-263 | the video run completes exactly when every step returns, with progress 100, the output directory, the metadata and all artifacts; otherwise it ends in `error`; metadata.json is written exactly when every step before the dump returned; `created_at` is kept |
| Server.UrlPlanFailure | main.py:181-198 | the URL run fails exactly when the download or a later step raises |
| Server.UrlPlanRises | main.py:181-192 | the URL run's progress rises from any value up to 5, through 5, 15 and the video run started at 15 |
| Server.UrlRunComposes | main.py:181-198 | a failed download ends the run with one error broadcast and nothing written; otherwise the run is the download followed by the video run from 15, and a later failure is reported once |
| Server.TooLargeDetail | main.py:115 | the size-limit detail prints the limit as `500` |
| Server.JobStatus | main.py:271-275 | a known job gives its record; an unknown one gives 404 "Job not found" |
| Server.DownloadFile | main.py:293-326 | 404 for an unknown job, then 400 for an unknown type, then 404 "File not found"; otherwise the file exists on disk, is served from `outputs/<job>/<name>` under the table's name and media type, and the job's status plays no part |
| Server.DownloadsAfterRun | main.py:293-320 | after a successful run, the final video, SRT and metadata are downloadable, and the reel exactly when a clip survived; after a run that stopped before metadata.json was opened, the metadata is "File not found" (unless it was already there); after a run whose dump raised, the job is in `error` and the metadata is still served |
| Server.JobService.constructor | main.py:46 | the service starts with no jobs and no files |
| Server.JobService.UpdateJob | main.py:265-269 | sets status and message, caps progress at 100, changes no other job and broadcasts the whole record |
| Server.JobService.FailJob | main.py:259-263 | marks the record `error` with the failure text, keeps progress and the other fields, and broadcasts it |
| Server.JobService.ProcessVideo | main.py:100-141 | a bad extension, a failed open or write of the upload, or an oversized file each give an error record and a 500 whose detail is the original error's text; the upload is on disk from its `open` on, so before a failed write and before the size check; otherwise a processing record at 0 |
| Server.JobService.ProcessVideoUrl | main.py:143-179 | a non-http(s) URL is a 400 that records nothing; otherwise a processing record at 0 |
| Server.JobService.ProcessVideoAsync | main.py:200-263 | the job's record, the files and the broadcasts after the method are exactly those of the video plan run on the starting record; other jobs and the socket lists are untouched, and no progress exceeds 100 |
| Server.JobService.RunVideo | main.py:201-263 | the steps of the run take the service from the start of the plan to the end of the whole run |
| Server.JobService.Analyse | main.py:205-216 | audio extraction, transcription and detection either stop the run at the first failure or leave it at the render stage |
| Server.JobService.Render | main.py:218-233 | resize, the open and write of the SRT, burn-in and reel either stop the run at the first failure or leave it at the final stage |
| Server.JobService.Finalize | main.py:235-256 | the 95 announcement, then the open of metadata.json and the dump into it, then completion or the failure record |
| Server.JobService.Complete | main.py:250-256 | the five assignments give the completed record, which is broadcast |
| Server.JobService.ProcessUrlAsync | main.py:181-198 | the record, the files and the broadcasts are exactly those of the URL plan run on the starting record |
| Server.JobService.RunUrl | main.py:182-198 | the announce, download and hand-over steps take the service to the end of the URL run |

The functions and predicates that define the model (their properties are
stated by the members above) correspond to the source as follows:

- `PyText.Slice`: `s[i:j]` of highlight_detector.py:53, with Python's bounds.
- `PyText.Join`: `"\n".join(...)` of highlight_detector.py:13-16.
- `SubtitleExtractor.FormatTime`: `format_time`, subtitle_extractor.py:85-92.
- `SubtitleExtractor.Timing`, `Block` and `Srt`: the three appends per
  subtitle and the whole document of `generate_srt`, subtitle_extractor.py:97-100.
- `SubtitleExtractor.Overlaps`: the overlap test, subtitle_extractor.py:68.
- `SubtitleExtractor.Retimed`: the entry built for an overlapping subtitle,
  subtitle_extractor.py:70-79.
- `SubtitleExtractor.WindowEntries`: the inner loop over subtitles,
  subtitle_extractor.py:66-80.
- `SubtitleExtractor.LastEnd` and `Filtered`: the offset choice and the outer
  loop over highlights, subtitle_extractor.py:55-80.
- `HighlightDetector.PromptLine`: the f-string per subtitle, highlight_detector.py:14.
- `HighlightDetector.SubtitleBlock`: `subtitle_text`, highlight_detector.py:13-16.
- `VideoProcessor.CoverScale`, `Scaled` and `ScaledSize`: `scale` and
  `int(side * scale)`, video_processor.py:37-42.
- `VideoProcessor.CropBox`: the scale and the centred crop box for a target
  width and height, video_processor.py:37-53.
- `VideoProcessor.ResizeCrop`: `resize_video`'s box with the resolution
  unpacked as (height, width), as written at video_processor.py:34-35.
- `VideoProcessor.VerticalCrop`: the same box with the resolution read as
  (width, height), the corrected reading.
- `VideoProcessor.Clamp`: `max(0, start)` and `min(duration, end)`,
  video_processor.py:104-105.
- `VideoProcessor.LongEnough`: `end - start > 0.5`, video_processor.py:106.
- `VideoProcessor.SelectClips`: the clips the loop keeps, video_processor.py:103-108.
- `VideoProcessor.FfmpegPath`: the two `replace` calls, video_processor.py:79.
- `Server.Deliveries`: the send attempts of `broadcast`, main.py:65-71.
- `Server.RemoveFirst`: `list.remove`, main.py:63.
- `Server.WithUpdate`: the three assignments of `update_job`, main.py:265-268.
- `Server.WithError`: the `except` blocks' two assignments, main.py:194-197 and
  main.py:259-262.
- `Server.WithCompletion`: the completion assignments, main.py:250-254.
- `Server.Perform`: the run of a pipeline under its single `try`, main.py:200-263.
- `Server.VideoPlan`, `AnalysisPlan`, `RenderPlan` and `FinalPlan`: the steps of
  `process_video_async` in order, main.py:202-256.
- `Server.RunMetadata`: the `metadata` dict, main.py:237-245.
- `Server.ReelFiles`: the reel is written only when a clip is kept,
  video_processor.py:110-112.
- `Server.DownloadOutcome`: the rewrap in `download_video_from_url`,
  main.py:89-94.
- `Server.UrlPlan`: the steps of `process_url_async`, main.py:181-192.
- `Server.ErrorText`: `str(e)` of an `HTTPException`, main.py:138-141.
- `Server.VideoExtension`: the extension test, main.py:105.
- `Server.UploadPath`: the upload's path, main.py:108.
- `Server.WebUrl`: the scheme test, main.py:151.
- `Server.FileName` and `MediaType`: the two lookup tables, main.py:300-312.

## Left out

- **External tools become outcomes.** The calls into OpenAI (Whisper and the
  chat model), ffmpeg, moviepy and yt-dlp are `Outcome` parameters, together
  with the values the successful calls return (subtitles, highlights,
  duration). Their internal behaviour is outside the source.
- **Request building is not modelled.** This covers the Whisper request
  parameters of `extract_subtitles` (subtitle_extractor.py:18-30), the prompt
  template around the subtitle block, and the `json.loads` of the model's
  reply. These are calls into services and libraries.
- **Only the crop geometry of `resize_video` is modelled**, and only the path
  escaping of `add_subtitles`. The copy of the SRT file and the ffmpeg command
  line are left out; `extract_audio` has no logic of its own.
- **Host-supplied values are parameters.** `uuid4`, `datetime.now`, the
  uploaded bytes (only their size) and the float formatting `{:.1f}` in the
  prompt all become parameters. `HighlightDetector.PromptLine` takes the
  number formatting as a function.
- **Concurrency is left out.** This covers asyncio scheduling,
  `BackgroundTasks`, and the interleaving of several jobs' runs. Each run is
  modelled as one uninterrupted sequence of steps on its own job. The request
  handlers do not call the pipelines; the pipelines are separate methods.
- **`websocket_endpoint`'s polling loop is left out**, both the send of the
  record every 0.5 s and `accept`. It depends on timing. `Session` models only
  the connect and disconnect it performs.
- **The `str(e)` text of exceptions.** For a non-HTTP exception it is the
  `Outcome`'s reason text. For an `HTTPException` it is modelled as
  `<status>: <detail>` (`ErrorText`), Starlette's rendering.
- **Failed tool steps write nothing.** An external tool (ffmpeg, moviepy,
  yt-dlp) that raises is modelled as writing no file. It may in fact leave a
  partial file behind. The files the service opens itself (the upload,
  subtitles.srt, metadata.json) are modelled as created by their `open`,
  before the write that may raise.
- **File contents.** Only the paths of subtitles.srt and metadata.json are
  modelled, not the text written into them. `SubtitleExtractor.GenerateSrt`
  models the SRT text on its own, and `Server.RunMetadata` the metadata
  value stored on the job, but neither is tied to the bytes on disk.
- **Paths are POSIX.** `PathJoin` always joins with `/`. On Windows
  `os.path.join` uses a backslash, which is why video_processor.py:79 turns
  backslashes into slashes. The model covers only POSIX paths in the service
  itself; `VideoProcessor.FfmpegPathEscapes` covers paths holding backslashes.
- **Failing sockets are fixed per run.** The set `closed` of sockets whose
  send raises is a field of `VideoEnv`, fixed for a whole run. In the source
  each send fails or succeeds on its own, so a socket may fail one broadcast
  and take the next.
- **Endpoints outside the core are left out.** This covers the health check,
  the frontend and API-root endpoints, CORS, logging and the `__main__`
  block.
- `SubtitleExtractor.FormatTimeRoundTrip`: times are integer microseconds, not
  floats. The float-to-`timedelta` rounding of the input is not modelled.
- `VideoProcessor.ScaledSizeFits`: the scale factor is an exact real. With IEEE
  doubles, `int(w * (target / w))` can come out one pixel short
  (`int(11 * (1920 / 11))` is 1919).
- `VideoProcessor.ScaledWidthCovers`: proved for the exact scale. With
  doubles the truncated width can fall one pixel below the target, as above.
- `VideoProcessor.ScaledHeightCovers`: proved for the exact scale. With
  doubles the truncated height can fall one pixel below the target.
- `VideoProcessor.CropBoxGeometry`: the box is target-sized and inside the
  frame for the exact scale; with doubles the frame can be one pixel short of
  the box.
- `VideoProcessor.KeptIndicesSpec`: the test `end - start > 0.5` is on exact
  microseconds. In doubles a clip [0.6 s, 1.1 s] has length
  0.5000000000000001 and is kept; the model drops it.
- `VideoProcessor.SelectClipsSpec`: the same exact test, so the same clip is
  missing from the selection.
- `VideoProcessor.CreateHighlightVideo`: the same exact test, so the same clip
  is missing from the reel.
- `SubtitleExtractor.ReelWindowInClip`: the corrected offsets assume every
  window becomes a clip of its full length. The clamping to the video and the
  dropping of clips of 0.5 s or less are not reflected in the subtitle
  timeline.
- **Ghost bookkeeping.** The log of broadcasts (`published`) and the cursor
  that follows a run are ghost state. They exist only for the proof.

## Findings

| source | as written | input that shows it | evidently intended | confidence | as-written member | corrected member |
|---|---|---|---|---|---|---|
| subtitle_extractor.py:59-64 | each window's offset is the end time of the last emitted subtitle | subtitles a = [0 s, 1 s] and b = [3 s, 4 s], windows [0 s, 2 s] and [3 s, 4 s]: b is timed [1 s, 2 s], but its clip starts at 2 s on the reel | offset each window by the summed length of the windows before it, so that each subtitle lands inside its own clip on the reel | medium, not executed | SubtitleExtractor.OffsetDriftExample | SubtitleExtractor.ReelWindowInClip |
| video_processor.py:35 | `target_h, target_w = self.target_resolution` with the configured `(1080, 1920)` | any frame, e.g. 1920×1080: the crop is 1920 wide and 1080 high | a 1080 wide by 1920 high crop, the 9:16 vertical format of config.py:21-22 | high, not executed | VideoProcessor.DefaultCropIsLandscape | VideoProcessor.VerticalCropAspect |
