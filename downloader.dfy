/**
 * One download job: the engine options built for a format, the human-readable size, the
 * progress hook that turns engine notifications into signals, and the sequence of signals
 * a job emits. The download engine is not modelled: what it reports for a job (its metadata,
 * the notifications it fires, its download result) is an input, an `EngineRun`.
 */
module Downloader {
  import opened Wrappers
  import opened PyText
  import opened Config
  import opened Paths
  import opened Percent

  /** A signal of the downloader; every signal names the url of the job it belongs to. */
  datatype Event =
    | Progress(url: string, percent: int)
    | Status(url: string, message: string)
    | Title(url: string, title: string)
    | Finished(url: string, path: string)

  /** The engine's output template, appended to the download directory. */
  const OutputTemplate: string := "%(title)s.%(ext)s"

  /** The message an error carries once it reaches the status signal. */
  function ErrorText(message: string): (r: string)
    ensures |r| == |message| + 7 && r[..7] == "Error: " && r[7..] == message
  {
    "Error: " + message
  }

  // The options builder.

  /**
   * `_get_ydl_opts`: unknown keys are refused with `ValueError`; a known key gives the
   * format's options with the output template and the progress hook merged over them.
   */
  function GetYdlOpts(downloadPath: string, format: string): (r: Result<Options, string>)
    ensures r.Err? <==> format !in FormatOptions
    ensures r.Err? ==> r.error == "Unsupported format: " + format
    ensures r.Ok? ==> r.value.Keys == FormatOptions[format].options.Keys + {"outtmpl", "progress_hooks"}
    ensures r.Ok? ==> forall k :: k in FormatOptions[format].options && k != "outtmpl" && k != "progress_hooks" ==>
              r.value[k] == FormatOptions[format].options[k]
    ensures r.Ok? ==> r.value["outtmpl"] == Text(Join(downloadPath, OutputTemplate))
    ensures r.Ok? ==> r.value["progress_hooks"] == Hooks([BoundProgressHook])
  {
    if format !in FormatOptions then Err("Unsupported format: " + format)
    else
      Ok(FormatOptions[format].options
         + map["outtmpl" := Text(Join(downloadPath, OutputTemplate)), "progress_hooks" := Hooks([BoundProgressHook])])
  }

  /** The options have no extraction step, or one whose first step names a codec. */
  predicate HasCodec(opts: Options) {
    "postprocessors" in opts ==> opts["postprocessors"].PostProcessors? && |opts["postprocessors"].steps| > 0
  }

  /**
   * The options built for a known format: the video format has no extraction step; every
   * audio format has exactly one, an audio extraction to the format's codec.
   */
  lemma OptionsOfFormat(downloadPath: string, format: string)
    requires format in FormatOptions
    ensures GetYdlOpts(downloadPath, format).Ok?
    ensures HasCodec(GetYdlOpts(downloadPath, format).value)
    ensures var opts := GetYdlOpts(downloadPath, format).value;
            ("postprocessors" in opts <==> format != "mp4")
            && (format != "mp4" ==>
                  (opts["postprocessors"].steps ==
                   [PostProcessor("FFmpegExtractAudio", AudioCodec(format).value.0, AudioCodec(format).value.1)]))
            && opts["format"] == Text(if format == "mp4" then "best" else "bestaudio/best")
  {
    if format == "mp4" {
      VideoFormat();
    } else {
      AudioFormats(format);
      var opts := GetYdlOpts(downloadPath, format).value;
      assert opts["postprocessors"] == FormatOptions[format].options["postprocessors"];
    }
  }

  // The size formatter.

  datatype SizeUnit = B | KB | MB | GB

  function UnitScale(u: SizeUnit): nat {
    match u
    case B => 1
    case KB => 1000
    case MB => 1000 * 1000
    case GB => 1000 * 1000 * 1000
  }

  /**
   * What `_format_size` renders: the exact text for fewer than 1000 bytes, or a quotient
   * shown with one decimal and a unit (the one-decimal rendering itself is not modelled).
   */
  datatype SizeText = Whole(text: string) | OneDecimal(quotient: real, unit: SizeUnit)

  /** The unit a rendering is in. */
  function UnitOf(t: SizeText): SizeUnit {
    match t
    case Whole(_) => B
    case OneDecimal(_, u) => u
  }

  /**
   * `_format_size`: below 1000 bytes the count itself (negative counts included); otherwise
   * the largest unit that does not exceed the count (GB for everything from 10^9 up) and the
   * count divided by that unit.
   */
  function FormatSize(bytes: int): (r: SizeText)
    ensures r.Whole? <==> bytes < 1000
    ensures r.Whole? ==> r.text == IntToString(bytes) + " B"
    ensures r.OneDecimal? ==> r.unit != B && UnitScale(r.unit) <= bytes
                              && (r.unit != GB ==> bytes < 1000 * UnitScale(r.unit))
    ensures r.OneDecimal? ==> r.quotient == bytes as real / UnitScale(r.unit) as real
  {
    if bytes < 1000 then Whole(IntToString(bytes) + " B")
    else if bytes < 1000 * 1000 then OneDecimal(bytes as real / 1000.0, KB)
    else if bytes < 1000 * 1000 * 1000 then OneDecimal(bytes as real / 1000.0 / 1000.0, MB)
    else OneDecimal(bytes as real / 1000.0 / 1000.0 / 1000.0, GB)
  }

  function UnitRank(u: SizeUnit): nat {
    match u
    case B => 0
    case KB => 1
    case MB => 2
    case GB => 3
  }

  /** A larger count never gets a smaller unit. */
  lemma SizeUnitMonotone(a: int, b: int)
    requires a <= b
    ensures UnitRank(UnitOf(FormatSize(a))) <= UnitRank(UnitOf(FormatSize(b)))
  {
  }

  /** The quotient shown is at least 1 and, below GB, less than 1000. */
  lemma SizeQuotientBounds(bytes: int)
    requires bytes >= 1000
    ensures 1.0 <= FormatSize(bytes).quotient
    ensures FormatSize(bytes).unit != GB ==> FormatSize(bytes).quotient < 1000.0
  {
  }

  /**
   * The unit is chosen on the count, before rounding: 999999 bytes is 999.999 KB (which one
   * decimal shows as 1000.0 KB), not 1.0 MB.
   */
  lemma SizeUnitBeforeRounding()
    ensures FormatSize(999999) == OneDecimal(999.999, KB)
    ensures FormatSize(-5) == Whole("-5 B")
  {
    assert IntToString(-5) == "-5" by {
      assert NatToString(5) == "5";
    }
  }

  // The progress hook.

  /**
   * An engine progress notification: its `status` and its `_percent_str` (`None` where the
   * notification has no such entry).
   */
  datatype Notification = Notification(status: string, percentStr: Option<string>)

  /**
   * The bound of the progress signal's `int` argument: a Qt `int` is a signed 32-bit
   * value, and emitting a larger Python `int` raises `OverflowError`.
   */
  const SignalIntBound: int := 0x8000_0000

  /** The percentage text of a downloading notification reads as a value the signal can carry. */
  ghost predicate Emittable(d: Notification) {
    d.percentStr.Some? && ValidDecimal(KeepNumeric(d.percentStr.value))
    && TruncatedValue(KeepNumeric(d.percentStr.value)) < SignalIntBound
  }

  /**
   * The signals `_progress_hook` emits for one notification: a progress event while
   * downloading when the percentage text reads as a number the signal can carry,
   * "Converting..." when the download has finished, and nothing otherwise (a failure to
   * read the text, or to emit its value, is swallowed).
   */
  function HookEvents(url: string, d: Notification): (r: seq<Event>)
    ensures d.status == "downloading" && Emittable(d) ==>
              r == [Progress(url, TruncatedValue(KeepNumeric(d.percentStr.value)))]
    ensures d.status == "downloading" && !Emittable(d) ==> r == []
    ensures d.status == "finished" ==> r == [Status(url, "Converting...")]
    ensures d.status != "downloading" && d.status != "finished" ==> r == []
  {
    if d.status == "downloading" then
      match d.percentStr
      case None => []
      case Some(s) =>
        match ParsePercent(s)
        case Some(p) => if p < SignalIntBound then [Progress(url, p)] else []
        case None => []
    else if d.status == "finished" then [Status(url, "Converting...")]
    else []
  }

  /** An event the hook may emit: a progress value in the signal's range or the conversion status. */
  predicate HookEvent(url: string, e: Event) {
    e.url == url && ((e.Progress? && 0 <= e.percent < SignalIntBound) || e == Status(url, "Converting..."))
  }

  /** The signals of a sequence of notifications, one after the other. */
  function HookEventsAll(url: string, ns: seq<Notification>): (r: seq<Event>)
    ensures forall i :: 0 <= i < |r| ==> HookEvent(url, r[i])
    ensures |r| <= |ns|
  {
    if ns == [] then [] else HookEventsAll(url, ns[..|ns| - 1]) + HookEvents(url, ns[|ns| - 1])
  }

  lemma HookEventsAllStep(url: string, ns: seq<Notification>, k: nat)
    requires k < |ns|
    ensures HookEventsAll(url, ns[..k + 1]) == HookEventsAll(url, ns[..k]) + HookEvents(url, ns[k])
  {
    assert ns[..k + 1][..k] == ns[..k];
  }

  // The job.

  /** The metadata lookup: info with an optional title, a falsy result, or an error. */
  datatype MetaOutcome = MetaInfo(title: Option<string>) | MetaFalsy | MetaError(message: string)

  /** The download: info with the engine's prepared file name, a falsy result, or an error. */
  datatype DownloadOutcome = Downloaded(prepared: string) | NotDownloaded | DownloadError(message: string)

  /** What the engine reports for one job, in the order it reports it. */
  datatype EngineRun = EngineRun(meta: MetaOutcome, notifications: seq<Notification>, download: DownloadOutcome)

  /** The signals of the metadata step: the title of truthy info, or the error of a failed lookup. */
  function MetaEvents(url: string, meta: MetaOutcome): (r: seq<Event>)
    ensures meta.MetaInfo? ==> r == [Title(url, meta.title.GetOr(""))]
    ensures meta.MetaFalsy? ==> r == []
    ensures meta.MetaError? ==> r == [Status(url, ErrorText(meta.message))]
  {
    match meta
    case MetaInfo(t) => [Title(url, t.GetOr(""))]
    case MetaFalsy => []
    case MetaError(m) => [Status(url, ErrorText(m))]
  }

  /**
   * The file name a job reports: the engine's name, except that with an extraction step its
   * extension (if it has one) is replaced by the codec.
   */
  function FinalFilename(opts: Options, prepared: string): (r: string)
    requires HasCodec(opts)
    ensures "postprocessors" !in opts ==> r == prepared
    ensures "postprocessors" in opts ==>
              var codec := opts["postprocessors"].steps[0].preferredCodec;
              |r| > |codec| && r[|r| - |codec| - 1..] == "." + codec
              && (HasExtension(prepared) ==> r[..|r| - |codec| - 1] == prepared[..RFind(prepared, '.')])
              && (!HasExtension(prepared) ==> r[..|r| - |codec| - 1] == prepared)
  {
    if "postprocessors" in opts then
      var codec := opts["postprocessors"].steps[0].preferredCodec;
      SplitextExtension(prepared);
      var r := Splitext(prepared).0 + "." + codec;
      assert r[|r| - |codec| - 1..] == "." + codec;
      assert r[..|r| - |codec| - 1] == Splitext(prepared).0;
      r
    else prepared
  }

  /** The signals that close a job whose options were built. */
  function TerminalEvents(url: string, opts: Options, download: DownloadOutcome): (r: seq<Event>)
    requires HasCodec(opts)
    ensures download.Downloaded? ==> r == [Status(url, "Complete"), Finished(url, FinalFilename(opts, download.prepared))]
    ensures download.NotDownloaded? ==> r == []
    ensures download.DownloadError? ==> r == [Status(url, ErrorText(download.message))]
  {
    match download
    case Downloaded(p) => [Status(url, "Complete"), Finished(url, FinalFilename(opts, p))]
    case NotDownloaded => []
    case DownloadError(m) => [Status(url, ErrorText(m))]
  }

  /**
   * Every signal `download_video` emits for the job, in order: the metadata signals, then
   * either the format error or the hook's signals followed by the closing signals.
   */
  function JobEvents(downloadPath: string, url: string, format: string, run: EngineRun): seq<Event> {
    MetaEvents(url, run.meta) +
    match GetYdlOpts(downloadPath, format)
    case Err(e) => [Status(url, ErrorText(e))]
    case Ok(opts) =>
      OptionsOfFormat(downloadPath, format);
      HookEventsAll(url, run.notifications) + TerminalEvents(url, opts, run.download)
  }

  /** What `download_video` returns: the final file name, only when the download succeeded. */
  function JobResult(downloadPath: string, url: string, format: string, run: EngineRun): (r: Option<string>)
    ensures r.Some? <==> format in FormatOptions && run.download.Downloaded?
  {
    match GetYdlOpts(downloadPath, format)
    case Err(_) => None
    case Ok(opts) =>
      OptionsOfFormat(downloadPath, format);
      if run.download.Downloaded? then Some(FinalFilename(opts, run.download.prepared)) else None
  }

  // Properties of a job.

  /** With a known format, a job's signals are the metadata, hook and closing signals, in order. */
  lemma JobWithOptions(downloadPath: string, url: string, format: string, run: EngineRun)
    requires format in FormatOptions
    ensures GetYdlOpts(downloadPath, format).Ok? && HasCodec(GetYdlOpts(downloadPath, format).value)
    ensures var opts := GetYdlOpts(downloadPath, format).value;
            JobEvents(downloadPath, url, format, run) ==
              MetaEvents(url, run.meta) + HookEventsAll(url, run.notifications) + TerminalEvents(url, opts, run.download)
            && JobResult(downloadPath, url, format, run) ==
              (if run.download.Downloaded? then Some(FinalFilename(opts, run.download.prepared)) else None)
  {
    OptionsOfFormat(downloadPath, format);
  }

  /** With an unknown format, a job's signals are the metadata signals and the format error. */
  lemma JobWithoutOptions(downloadPath: string, url: string, format: string, run: EngineRun)
    requires format !in FormatOptions
    ensures GetYdlOpts(downloadPath, format).Err?
    ensures JobEvents(downloadPath, url, format, run) ==
              MetaEvents(url, run.meta) + [Status(url, ErrorText(GetYdlOpts(downloadPath, format).error))]
    ensures JobResult(downloadPath, url, format, run) == None
  {
  }

  /** Every signal of a job carries the job's url. */
  lemma JobEventsCarryUrl(downloadPath: string, url: string, format: string, run: EngineRun)
    ensures forall i :: 0 <= i < |JobEvents(downloadPath, url, format, run)| ==>
              JobEvents(downloadPath, url, format, run)[i].url == url
  {
    if format in FormatOptions {
      OptionsOfFormat(downloadPath, format);
    }
  }

  /** Truthy metadata puts the title (blank when absent) first. */
  lemma TitleComesFirst(downloadPath: string, url: string, format: string, run: EngineRun)
    requires run.meta.MetaInfo?
    ensures |JobEvents(downloadPath, url, format, run)| > 0
    ensures JobEvents(downloadPath, url, format, run)[0] == Title(url, run.meta.title.GetOr(""))
  {
  }

  /**
   * A failed metadata lookup emits its error and no title, and the download still goes
   * ahead: a successful download still ends the job with its file.
   */
  lemma MetadataErrorStillDownloads(downloadPath: string, url: string, format: string, run: EngineRun)
    requires run.meta.MetaError? && format in FormatOptions && run.download.Downloaded?
    ensures var evs := JobEvents(downloadPath, url, format, run);
            |evs| >= 3 && evs[0] == Status(url, ErrorText(run.meta.message))
            && (forall i :: 0 <= i < |evs| ==> !evs[i].Title?)
            && evs[|evs| - 1].Finished?
            && JobResult(downloadPath, url, format, run) == Some(evs[|evs| - 1].path)
  {
    OptionsOfFormat(downloadPath, format);
    var evs := JobEvents(downloadPath, url, format, run);
    var hooks := HookEventsAll(url, run.notifications);
    assert forall i :: 0 <= i < |hooks| ==> HookEvent(url, hooks[i]);
  }

  /**
   * An unknown format ends the job, after the metadata step, with the one error signal
   * "Error: Unsupported format: <key>"; the engine's notifications and download play no part.
   */
  lemma UnsupportedFormatJob(downloadPath: string, url: string, format: string, run: EngineRun)
    requires format !in FormatOptions
    ensures JobEvents(downloadPath, url, format, run) ==
              MetaEvents(url, run.meta) + [Status(url, "Error: Unsupported format: " + format)]
    ensures JobResult(downloadPath, url, format, run) == None
    ensures forall i :: 0 <= i < |JobEvents(downloadPath, url, format, run)| ==>
              !JobEvents(downloadPath, url, format, run)[i].Finished?
              && JobEvents(downloadPath, url, format, run)[i] != Status(url, "Complete")
  {
    var e := "Unsupported format: " + format;
    assert "Error: " + "Unsupported format: " == "Error: Unsupported format: ";
    assert ErrorText(e) == "Error: " + "Unsupported format: " + format;
    var evs := JobEvents(downloadPath, url, format, run);
    var meta := MetaEvents(url, run.meta);
    assert evs == meta + [Status(url, ErrorText(e))];
    forall i | 0 <= i < |evs| ensures !evs[i].Finished? && evs[i] != Status(url, "Complete") {
      if i < |meta| {
        assert evs[i] == meta[i];
      }
      assert evs[i].Status? ==> evs[i].message[0] == 'E';
    }
  }

  /**
   * A job has at most one successful end: "Complete" comes exactly once, second to last,
   * when the job returns a file name, and the last signal is then `Finished` with that name;
   * otherwise neither signal appears.
   */
  lemma {:induction false} TerminalShape(downloadPath: string, url: string, format: string, run: EngineRun)
    ensures var evs := JobEvents(downloadPath, url, format, run);
            var res := JobResult(downloadPath, url, format, run);
            (forall i :: 0 <= i < |evs| ==>
               (evs[i].Finished? <==> res.Some? && i == |evs| - 1)
               && (evs[i] == Status(url, "Complete") <==> res.Some? && i == |evs| - 2))
            && (res.Some? ==> |evs| >= 2 && evs[|evs| - 1] == Finished(url, res.value))
  {
    var meta := MetaEvents(url, run.meta);
    MetaEventsNotTerminal(url, run.meta);
    if run.download.DownloadError? {
      ErrorTextIsNotComplete(run.download.message);
    }
    if format !in FormatOptions {
      ErrorTextIsNotComplete(GetYdlOpts(downloadPath, format).error);
    }
    if format in FormatOptions {
      OptionsOfFormat(downloadPath, format);
      var opts := GetYdlOpts(downloadPath, format).value;
      var hooks := HookEventsAll(url, run.notifications);
      var term := TerminalEvents(url, opts, run.download);
      var evs := JobEvents(downloadPath, url, format, run);
      assert evs == meta + hooks + term;
      HooksNotTerminal(url, run.notifications);
      forall i | 0 <= i < |meta| + |hooks|
        ensures !evs[i].Finished? && evs[i] != Status(url, "Complete")
      {
        if i < |meta| {
          assert evs[i] == meta[i];
        } else {
          assert evs[i] == hooks[i - |meta|];
        }
      }
    }
  }

  /** An error's status text is never the "Complete" status. */
  lemma ErrorTextIsNotComplete(message: string)
    ensures ErrorText(message) != "Complete"
  {
    assert ErrorText(message)[0] == ErrorText(message)[..7][0] == 'E';
  }

  /** The metadata signals hold neither a finished signal nor "Complete". */
  lemma MetaEventsNotTerminal(url: string, meta: MetaOutcome)
    ensures var evs := MetaEvents(url, meta);
            forall i :: 0 <= i < |evs| ==> !evs[i].Finished? && evs[i] != Status(url, "Complete")
  {
    if meta.MetaError? {
      ErrorTextIsNotComplete(meta.message);
    }
  }

  /** The hook's signals hold neither a finished signal nor "Complete". */
  lemma HooksNotTerminal(url: string, ns: seq<Notification>)
    ensures var evs := HookEventsAll(url, ns);
            forall i :: 0 <= i < |evs| ==> !evs[i].Finished? && evs[i] != Status(url, "Complete")
  {
    var evs := HookEventsAll(url, ns);
    forall i | 0 <= i < |evs|
      ensures !evs[i].Finished? && evs[i] != Status(url, "Complete")
    {
      assert HookEvent(url, evs[i]);
    }
  }

  /** A job that fails after its options were built ends with the error of the failure. */
  lemma DownloadErrorLast(downloadPath: string, url: string, format: string, run: EngineRun)
    requires format in FormatOptions && run.download.DownloadError?
    ensures var evs := JobEvents(downloadPath, url, format, run);
            |evs| > 0 && evs[|evs| - 1] == Status(url, ErrorText(run.download.message))
    ensures JobResult(downloadPath, url, format, run) == None
  {
    OptionsOfFormat(downloadPath, format);
  }

  /**
   * The file name of a successful job: the video format keeps the engine's name; an audio
   * format ends it with '.' and its codec ("m4a" or "mp3").
   */
  lemma JobFilename(downloadPath: string, url: string, format: string, run: EngineRun)
    requires format in FormatOptions && run.download.Downloaded?
    ensures var res := JobResult(downloadPath, url, format, run);
            res.Some?
            && (format == "mp4" ==> res.value == run.download.prepared)
            && (format != "mp4" ==>
                  var codec := AudioCodec(format).value.0;
                  |res.value| > |codec| && res.value[|res.value| - |codec| - 1..] == "." + codec)
  {
    OptionsOfFormat(downloadPath, format);
  }

  /**
   * A name whose last component is a stem and an extension has the extension replaced:
   * an audio job on "song.webm" reports "song.m4a".
   */
  lemma ReplacesExtension(opts: Options, stem: string, ext: string)
    requires HasCodec(opts) && "postprocessors" in opts
    requires stem != [] && stem[|stem| - 1] != '.' && stem[|stem| - 1] != '/' && '.' !in ext && '/' !in ext
    ensures FinalFilename(opts, stem + "." + ext) == stem + "." + opts["postprocessors"].steps[0].preferredCodec
  {
    var p := stem + "." + ext;
    var codec := opts["postprocessors"].steps[0].preferredCodec;
    var n := |stem|;
    assert p[n - 1] != '.' && p[n] == '.';
    var tail := p[n - 1..];
    assert '/' !in tail by {
      forall k | 0 <= k < |tail| ensures tail[k] != '/' {
        if k >= 2 { assert tail[k] == ext[k - 2]; }
      }
    }
    assert HasExtension(p);
    forall k | n < k < |p| ensures p[k] != '.' { assert p[k] == ext[k - n - 1]; }
    assert RFind(p, '.') == n;
    assert p[..n] == stem;
    var r := FinalFilename(opts, p);
    assert r == r[..|r| - |codec| - 1] + r[|r| - |codec| - 1..];
  }

  lemma SongWebmBecomesM4a(downloadPath: string)
    ensures FinalFilename(GetYdlOpts(downloadPath, "aac").value, "song.webm") == "song.m4a"
  {
    OptionsOfFormat(downloadPath, "aac");
    assert "song" + "." + "webm" == "song.webm";
    ReplacesExtension(GetYdlOpts(downloadPath, "aac").value, "song", "webm");
    assert "song" + "." + "m4a" == "song.m4a";
  }

  /** A name without an extension, such as ".hidden" (only a leading dot), gets '.' and the codec added. */
  lemma {:induction false} NoExtensionGetsCodec(opts: Options, prepared: string)
    requires HasCodec(opts) && "postprocessors" in opts && !HasExtension(prepared)
    ensures FinalFilename(opts, prepared) == prepared + "." + opts["postprocessors"].steps[0].preferredCodec
  {
    var codec := opts["postprocessors"].steps[0].preferredCodec;
    var r := FinalFilename(opts, prepared);
    assert r == r[..|r| - |codec| - 1] + r[|r| - |codec| - 1..];
  }

  /** Regrouping appended signal logs. */
  lemma AppendAssoc(a: seq<Event>, b: seq<Event>, c: seq<Event>)
    ensures a + b + c == a + (b + c)
  {
  }

  // The downloader object.

  /** `YouTubeDownloader`: its signals are recorded, in emission order, in `events`. */
  class YouTubeDownloader {
    const downloadPath: string
    /** The url of the job being run, read by the progress hook. */
    var currentUrl: string
    var events: seq<Event>

    constructor (downloadPath: string)
      ensures this.downloadPath == downloadPath && currentUrl == [] && events == []
    {
      this.downloadPath := downloadPath;
      currentUrl := [];
      events := [];
    }

    /** `_progress_hook`: the signals for the notification, for the current url. */
    method ProgressHook(d: Notification)
      modifies this`events
      ensures events == old(events) + HookEvents(currentUrl, d)
    {
      if d.status == "downloading" {
        if d.percentStr.Some? {
          var percentage := ParsePercent(d.percentStr.value);
          // `emit` raises `OverflowError` for a value outside the signal's `int`; the
          // hook swallows it.
          if percentage.Some? && percentage.value < SignalIntBound {
            assert Emittable(d);
            events := events + [Progress(currentUrl, percentage.value)];
          } else {
            assert !Emittable(d);
          }
        }
      } else if d.status == "finished" {
        events := events + [Status(currentUrl, "Converting...")];
      }
    }

    /** The engine calling the progress hook once per notification, in order. */
    method FireHooks(ns: seq<Notification>)
      modifies this`events
      ensures events == old(events) + HookEventsAll(currentUrl, ns)
    {
      var i := 0;
      while i < |ns|
        invariant 0 <= i <= |ns|
        invariant events == old(events) + HookEventsAll(currentUrl, ns[..i])
      {
        HookEventsAllStep(currentUrl, ns, i);
        ProgressHook(ns[i]);
        i := i + 1;
      }
      assert ns[..i] == ns;
    }

    /** `get_video_info`: the engine's answer, with an error signal where the lookup failed. */
    method GetVideoInfo(url: string, meta: MetaOutcome) returns (info: Option<Option<string>>)
      modifies this`events
      ensures info == if meta.MetaInfo? then Some(meta.title) else None
      ensures events == old(events) + (if meta.MetaError? then [Status(url, ErrorText(meta.message))] else [])
    {
      match meta
      case MetaInfo(t) =>
        info := Some(t);
      case MetaFalsy =>
        info := None;
      case MetaError(m) =>
        events := events + [Status(url, ErrorText(m))];
        info := None;
    }

    /**
     * The end of `download_video` once the engine has returned: a truthy result is reported
     * as "Complete" and then finished with the final file name, which is returned.
     */
    method Conclude(url: string, opts: Options, download: DownloadOutcome) returns (result: Option<string>)
      requires HasCodec(opts)
      modifies this`events
      ensures events == old(events) + TerminalEvents(url, opts, download)
      ensures result == if download.Downloaded? then Some(FinalFilename(opts, download.prepared)) else None
    {
      match download
      case Downloaded(prepared) =>
        var filename := FinalFilename(opts, prepared);
        events := events + [Status(url, "Complete")];
        events := events + [Finished(url, filename)];
        result := Some(filename);
      case NotDownloaded =>
        result := None;
      case DownloadError(m) =>
        events := events + [Status(url, ErrorText(m))];
        result := None;
    }

    /**
     * `download_video`: runs the job on what the engine reports, emitting `JobEvents` and
     * returning `JobResult`.
     */
    method DownloadVideo(url: string, format: string, run: EngineRun) returns (result: Option<string>)
      modifies this`events, this`currentUrl
      ensures currentUrl == url
      ensures events == old(events) + JobEvents(downloadPath, url, format, run)
      ensures result == JobResult(downloadPath, url, format, run)
    {
      currentUrl := url;
      var info := GetVideoInfo(url, run.meta);
      if info.Some? {
        events := events + [Title(url, info.value.GetOr(""))];
      }
      assert events == old(events) + MetaEvents(url, run.meta);
      var opts := GetYdlOpts(downloadPath, format);
      if opts.Err? {
        JobWithoutOptions(downloadPath, url, format, run);
        events := events + [Status(url, ErrorText(opts.error))];
        return None;
      }
      JobWithOptions(downloadPath, url, format, run);
      ghost var metaDone := events;
      FireHooks(run.notifications);
      assert events == metaDone + HookEventsAll(url, run.notifications);
      result := Conclude(url, opts.value, run.download);
      AppendAssoc(old(events), MetaEvents(url, run.meta), HookEventsAll(url, run.notifications));
      AppendAssoc(old(events), MetaEvents(url, run.meta) + HookEventsAll(url, run.notifications), TerminalEvents(url, opts.value, run.download));
    }
  }
}
