/**
 * The static configuration of the downloader: the download record and the table of
 * download formats, each naming the engine options it hands to the download engine.
 */
module Config {
  import opened Wrappers
  import opened PyText

  /** A queued download request; its constructor only stores its two arguments. */
  datatype DownloadItem = DownloadItem(url: string, format: string)

  /** One entry of a `postprocessors` list: an engine post-processing step. */
  datatype PostProcessor = PostProcessor(key: string, preferredCodec: string, preferredQuality: string)

  /** The engine's progress callback, bound to one downloader. */
  datatype Hook = BoundProgressHook

  /** A value of the engine option dictionary. */
  datatype OptValue =
    | Text(text: string)
    | PostProcessors(steps: seq<PostProcessor>)
    | Hooks(hooks: seq<Hook>)

  type Options = map<string, OptValue>

  /** A format: the name shown in the format chooser and the engine options. */
  datatype FormatEntry = FormatEntry(name: string, options: Options)

  function AudioOptions(codec: string, quality: string): Options {
    map["format" := Text("bestaudio/best"),
        "postprocessors" := PostProcessors([PostProcessor("FFmpegExtractAudio", codec, quality)])]
  }

  /** The format table, keyed by format key. */
  const FormatOptions: map<string, FormatEntry> := map[
    "mp4" := FormatEntry("mp4 (best quality)", map["format" := Text("best")]),
    "mp3" := FormatEntry("mp3 (192kbps)", AudioOptions("mp3", "192")),
    "aac" := FormatEntry("aac (original)", AudioOptions("m4a", "0")),
    "aac96" := FormatEntry("aac96 (~3.3MB/5min)", AudioOptions("m4a", "96")),
    "aac64" := FormatEntry("aac64 (~2.2MB/5min)", AudioOptions("m4a", "64")),
    "aac32" := FormatEntry("aac32 (~1.1MB/5min)", AudioOptions("m4a", "32"))
  ]

  /** The keys in the table's declaration order, which is the order of the format chooser. */
  const FormatOrder: seq<string> := ["mp4", "mp3", "aac", "aac96", "aac64", "aac32"]

  /** The names the format chooser lists, in table order. */
  function FormatNames(): (names: seq<string>)
    ensures |names| == |FormatOrder|
    ensures forall i :: 0 <= i < |FormatOrder| ==>
              FormatOrder[i] in FormatOptions && names[i] == FormatOptions[FormatOrder[i]].name
  {
    seq(|FormatOrder|, i requires 0 <= i < |FormatOrder| => FormatOptions[FormatOrder[i]].name)
  }

  /**
   * The codec and quality of a format's first post-processing step, read from the table;
   * `None` for a format without one.
   */
  function AudioCodec(key: string): (c: Option<(string, string)>)
    ensures c.Some? <==> key in FormatOptions && key != "mp4"
  {
    if key in FormatOptions && "postprocessors" in FormatOptions[key].options
       && FormatOptions[key].options["postprocessors"].PostProcessors?
       && |FormatOptions[key].options["postprocessors"].steps| > 0
    then
      var step := FormatOptions[key].options["postprocessors"].steps[0];
      Some((step.preferredCodec, step.preferredQuality))
    else None
  }

  /** The table holds exactly six formats, listed once each by `FormatOrder`. */
  lemma CatalogKeys()
    ensures FormatOptions.Keys == {"mp4", "mp3", "aac", "aac96", "aac64", "aac32"}
    ensures forall k :: k in FormatOptions <==> k in FormatOrder
    ensures forall i, j :: 0 <= i < j < |FormatOrder| ==> FormatOrder[i] != FormatOrder[j]
  {
  }

  /** The name of table entry `k` is `k`, a space, and a description. */
  ghost predicate NameStartsWithKey(k: string)
    requires k in FormatOptions
  {
    var name := FormatOptions[k].name;
    |name| > |k| && name[..|k| + 1] == k + " " && FirstToken(name) == Some(k)
  }

  /**
   * Every name starts with its key and a space, so the first word of the name gives the
   * key back: the format chooser's text always leads to a key the table holds.
   */
  lemma NameLeadsWithKey(k: string)
    requires k in FormatOptions
    ensures |FormatOptions[k].name| > |k| && FormatOptions[k].name[..|k| + 1] == k + " "
    ensures FirstToken(FormatOptions[k].name) == Some(k)
  {
    KeyIsListed(k);
    ListedNameStartsWithKey(k);
  }

  lemma KeyIsListed(k: string)
    requires k in FormatOptions
    ensures k == "mp4" || k == "mp3" || k == "aac" || k == "aac96" || k == "aac64" || k == "aac32"
  {
  }

  lemma ListedNameStartsWithKey(k: string)
    requires k == "mp4" || k == "mp3" || k == "aac" || k == "aac96" || k == "aac64" || k == "aac32"
    ensures k in FormatOptions && NameStartsWithKey(k)
  {
    Mp4Name(); Mp3Name(); AacName(); Aac96Name(); Aac64Name(); Aac32Name();
  }

  lemma Mp4Name() ensures NameStartsWithKey("mp4") { KeyThenSpace("mp4", "(best quality)"); }
  lemma Mp3Name() ensures NameStartsWithKey("mp3") { KeyThenSpace("mp3", "(192kbps)"); }
  lemma AacName() ensures NameStartsWithKey("aac") { KeyThenSpace("aac", "(original)"); }
  lemma Aac96Name() ensures NameStartsWithKey("aac96") { KeyThenSpace("aac96", "(~3.3MB/5min)"); }
  lemma Aac64Name() ensures NameStartsWithKey("aac64") { KeyThenSpace("aac64", "(~2.2MB/5min)"); }
  lemma Aac32Name() ensures NameStartsWithKey("aac32") { KeyThenSpace("aac32", "(~1.1MB/5min)"); }

  lemma KeyThenSpace(k: string, rest: string)
    requires k in FormatOptions && FormatOptions[k].name == k + " " + rest
    requires forall i :: 0 <= i < |k| ==> 'a' <= k[i] <= 'z' || IsDigit(k[i])
    ensures NameStartsWithKey(k)
  {
    assert (k + " " + rest)[..|k| + 1] == k + " ";
    FirstTokenOfWord(k, rest);
  }

  /** The video format asks only for the best combined stream and has no extraction step. */
  lemma VideoFormat()
    ensures FormatOptions["mp4"].options == map["format" := Text("best")]
    ensures "postprocessors" !in FormatOptions["mp4"].options
  {
  }

  /**
   * Every other format takes the best audio stream and one audio extraction step whose
   * codec and quality are those of `AudioCodec`; no codec holds a '.' or a '/'.
   */
  lemma AudioFormats(k: string)
    requires k in FormatOptions && k != "mp4"
    ensures AudioCodec(k).Some?
    ensures FormatOptions[k].options.Keys == {"format", "postprocessors"}
    ensures FormatOptions[k].options["format"] == Text("bestaudio/best")
    ensures FormatOptions[k].options["postprocessors"] ==
              PostProcessors([PostProcessor("FFmpegExtractAudio", AudioCodec(k).value.0, AudioCodec(k).value.1)])
    ensures AudioCodec(k).value.0 == (if k == "mp3" then "mp3" else "m4a")
    ensures '.' !in AudioCodec(k).value.0 && '/' !in AudioCodec(k).value.0
  {
  }
}
