/**
 * The main window without its widgets: the url-to-row map `downloads`, the submission of a
 * download from the url field and the format chooser, and the handlers that route the
 * downloader's signals to the row of their url.
 */
module Window {
  import opened Wrappers
  import opened PyText
  import opened Config
  import opened Downloader
  import opened Worker

  /** What the row of one download shows. */
  datatype ViewState = ViewState(
    title: string,            // the title label: the url until a title arrives
    format: string,           // the format label
    progress: Option<int>,    // the progress bar's value; `None` before any value is set
    status: string,           // the status label
    size: Option<SizeText>)   // the size label ("Size: " and the size); `None` while empty

  /** The row `DownloadItemWidget` starts with. */
  function NewView(item: DownloadItem): (v: ViewState)
    ensures v.title == item.url && v.format == item.format && v.status == "Pending"
    ensures v.progress.None? && v.size.None?
  {
    ViewState(item.url, item.format, None, "Pending", None)
  }

  /**
   * `add_to_queue`'s reading of its inputs: the item to queue, or `None` when nothing is
   * queued, because the stripped url is empty or the chooser's text holds no word (where
   * `split()[0]` raises).
   */
  function Submission(urlText: string, comboText: string): (r: Option<DownloadItem>)
    ensures r.Some? <==> !AllSpace(urlText) && !AllSpace(comboText)
    ensures r.Some? ==> r.value.url == Strip(urlText) && r.value.url != []
                        && FirstToken(comboText) == Some(r.value.format)
  {
    var url := Strip(urlText);
    if url == [] then None
    else
      match FirstToken(comboText)
      case None => None
      case Some(format) => Some(DownloadItem(url, format))
  }

  /**
   * The part of the window a submission changes: the rows, the queued entries, the queue's
   * count of unfinished tasks and the url field's text.
   */
  datatype Submitted = Submitted(downloads: map<string, ViewState>, queued: seq<Option<DownloadItem>>,
                                 unfinished: nat, urlText: string)

  /**
   * Queueing `item`: a fresh row for its url (replacing any row it had), the item at the back
   * of the queue and one more unfinished task; the url field is left as it is.
   */
  function Enqueue(s: Submitted, item: DownloadItem): (r: Submitted)
    ensures r.downloads.Keys == s.downloads.Keys + {item.url}
    ensures r.downloads[item.url] == NewView(item)
    ensures forall u :: u in s.downloads && u != item.url ==> r.downloads[u] == s.downloads[u]
    ensures r.queued == s.queued + [Some(item)] && r.unfinished == s.unfinished + 1 && r.urlText == s.urlText
  {
    Submitted(s.downloads[item.url := NewView(item)], s.queued + [Some(item)], s.unfinished + 1, s.urlText)
  }

  /**
   * `add_to_queue` on the window state: the item read from the url field and the chooser is
   * queued and the url field cleared; when nothing is read, nothing changes.
   */
  function Submit(s: Submitted, comboText: string): (r: Submitted)
    ensures s.downloads.Keys <= r.downloads.Keys
    ensures |s.queued| <= |r.queued| <= |s.queued| + 1 && r.queued[..|s.queued|] == s.queued
    ensures r.unfinished - |r.queued| == s.unfinished - |s.queued|
  {
    Accepted(s, Submission(s.urlText, comboText))
  }

  /** The second half of `add_to_queue`: a read item is queued and the url field cleared. */
  function Accepted(s: Submitted, item: Option<DownloadItem>): Submitted {
    match item
    case None => s
    case Some(item) => Enqueue(s, item).(urlText := [])
  }

  /** `Submit` is accepting whatever the url field and the chooser read as. */
  lemma SubmitOf(s: Submitted, comboText: string, item: Option<DownloadItem>)
    requires item == Submission(s.urlText, comboText)
    ensures Submit(s, comboText) == Accepted(s, item)
  {
  }

  /**
   * A submission that reads nothing changes nothing; one that reads an item queues exactly
   * that item, gives its url a fresh row, counts one more task and clears the url field.
   */
  lemma SubmitEffect(s: Submitted, comboText: string)
    ensures var r := Submit(s, comboText);
            match Submission(s.urlText, comboText)
            case None => r == s
            case Some(item) =>
              r.queued == s.queued + [Some(item)] && r.unfinished == s.unfinished + 1 && r.urlText == []
              && r.downloads.Keys == s.downloads.Keys + {item.url} && r.downloads[item.url] == NewView(item)
              && (forall u :: u in s.downloads && u != item.url ==> r.downloads[u] == s.downloads[u])
  {
  }

  /** While the chooser shows one of the table's names, whatever is queued has a format the table knows. */
  lemma SubmitQueuesKnownFormat(s: Submitted, comboText: string)
    requires comboText in FormatNames()
    ensures var r := Submit(s, comboText);
            r.queued == s.queued
            || (|r.queued| == |s.queued| + 1 && r.queued[..|s.queued|] == s.queued
                && r.queued[|s.queued|].Some? && r.queued[|s.queued|].value.format in FormatOptions)
  {
    if Submission(s.urlText, comboText).Some? {
      ChosenFormatIsKnown(s.urlText, comboText);
      assert (s.queued + [Submission(s.urlText, comboText)])[..|s.queued|] == s.queued;
    }
  }

  /**
   * Choosing an entry of the format chooser queues that entry's key: the first word of every
   * name is its key.
   */
  lemma ChosenFormat(urlText: string, k: string)
    requires k in FormatOptions && !AllSpace(urlText)
    ensures Submission(urlText, FormatOptions[k].name) == Some(DownloadItem(Strip(urlText), k))
  {
    NameLeadsWithKey(k);
  }

  /** Whatever the chooser shows, the format queued is one the table knows. */
  lemma ChosenFormatIsKnown(urlText: string, comboText: string)
    requires comboText in FormatNames()
    requires Submission(urlText, comboText).Some?
    ensures Submission(urlText, comboText).value.format in FormatOptions
  {
    var names := FormatNames();
    var i :| 0 <= i < |names| && names[i] == comboText;
    ChosenFormat(urlText, FormatOrder[i]);
  }

  /**
   * Submitting the same url twice leaves one row, the second submission's, while both
   * items stay queued in submission order.
   */
  lemma Resubmission(s: Submitted, first: DownloadItem, second: DownloadItem)
    requires first.url == second.url
    ensures var r := Enqueue(Enqueue(s, first), second);
            r.downloads.Keys == s.downloads.Keys + {second.url}
            && r.downloads[second.url] == NewView(second)
            && (forall u :: u in s.downloads && u != second.url ==> r.downloads[u] == s.downloads[u])
            && r.queued == s.queued + [Some(first), Some(second)] && r.unfinished == s.unfinished + 2
  {
  }

  /** The change a signal makes to the row of its url; a finished download also shows its size, if read. */
  function UpdateView(v: ViewState, e: Event, size: Option<int>): (r: ViewState)
    ensures r.format == v.format
    ensures e.Progress? ==> r == v.(progress := Some(e.percent))
    ensures e.Status? ==> r == v.(status := e.message)
    ensures e.Title? ==> r == v.(title := e.title)
    ensures e.Finished? ==> r.title == v.title && r.status == "Complete" && r.progress == Some(100)
                            && (size.None? ==> r.size == v.size)
                            && (size.Some? ==> r.size == Some(FormatSize(size.value)))
  {
    match e
    case Progress(_, p) => v.(progress := Some(p))
    case Status(_, m) => v.(status := m)
    case Title(_, t) => v.(title := t)
    case Finished(_, _) =>
      v.(status := "Complete", progress := Some(100),
         size := if size.Some? then Some(FormatSize(size.value)) else v.size)
  }

  /**
   * A signal handler: a signal for a url with a row changes that row and nothing else; a
   * signal for any other url changes nothing.
   */
  function Dispatch(downloads: map<string, ViewState>, e: Event, size: Option<int>): (r: map<string, ViewState>)
    ensures r.Keys == downloads.Keys
    ensures e.url !in downloads ==> r == downloads
    ensures e.url in downloads ==> r[e.url] == UpdateView(downloads[e.url], e, size)
    ensures forall u :: u in downloads && u != e.url ==> r[u] == downloads[u]
  {
    if e.url in downloads then downloads[e.url := UpdateView(downloads[e.url], e, size)] else downloads
  }

  /** The window's handlers run on a sequence of signals, in order. */
  function DispatchAll(downloads: map<string, ViewState>, events: seq<Event>, size: Option<int>): (r: map<string, ViewState>)
    ensures r.Keys == downloads.Keys
  {
    if events == [] then downloads
    else Dispatch(DispatchAll(downloads, events[..|events| - 1], size), events[|events| - 1], size)
  }

  /** Signals for a url without a row change nothing. */
  lemma {:induction false} ForeignSignalsIgnored(downloads: map<string, ViewState>, events: seq<Event>, size: Option<int>)
    requires forall i :: 0 <= i < |events| ==> events[i].url !in downloads
    ensures DispatchAll(downloads, events, size) == downloads
  {
    if events != [] {
      ForeignSignalsIgnored(downloads, events[..|events| - 1], size);
    }
  }

  /**
   * Once the signals of a successful job reach the window, the job's row shows "Complete"
   * and a full progress bar.
   */
  lemma SuccessfulJobShown(downloads: map<string, ViewState>, downloadPath: string, url: string, format: string,
                           run: EngineRun, size: Option<int>)
    requires url in downloads && format in FormatOptions && run.download.Downloaded?
    ensures var r := DispatchAll(downloads, JobEvents(downloadPath, url, format, run), size);
            r.Keys == downloads.Keys && r[url].status == "Complete" && r[url].progress == Some(100)
  {
    var evs := JobEvents(downloadPath, url, format, run);
    TerminalShape(downloadPath, url, format, run);
    JobFilename(downloadPath, url, format, run);
    assert evs[|evs| - 1].Finished? && evs[|evs| - 1].url == url;
  }

  /** `MainWindow` without its widgets. */
  class MainWindow {
    const downloadQueue: JobQueue
    const worker: DownloadQueueWorker
    /** The row of each submitted url. */
    var downloads: map<string, ViewState>
    /** The url field's text. */
    var urlInput: string
    /** The format chooser's current text. */
    var comboText: string

    /** Every entry still queued is an unfinished task. */
    ghost predicate Valid()
      reads this, downloadQueue
    {
      downloadQueue.Valid()
    }

    /** The chooser shows one of the table's names (no operation here changes `comboText`). */
    ghost predicate ShowsKnownFormat()
      reads this
    {
      comboText in FormatNames()
    }

    /** The part of the window `add_to_queue` changes. */
    ghost function State(): Submitted
      reads this, downloadQueue
    {
      Submitted(downloads, downloadQueue.items, downloadQueue.unfinished, urlInput)
    }

    /**
     * The window: an empty queue, no rows, an empty url field, the chooser on its first
     * entry, and a worker draining the queue into `downloadPath`.
     */
    constructor (downloadPath: string)
      ensures Valid() && ShowsKnownFormat()
      ensures fresh(downloadQueue) && fresh(worker) && fresh(worker.downloader)
      ensures State() == Submitted(map[], [], 0, [])
      ensures comboText == FormatOptions["mp4"].name
      ensures worker.queue == downloadQueue && worker.downloader.downloadPath == downloadPath
    {
      var q := new JobQueue();
      downloadQueue := q;
      downloads := map[];
      urlInput := [];
      comboText := FormatNames()[0];
      worker := new DownloadQueueWorker(q, downloadPath);
    }

    /**
     * `add_to_queue`: the window state changes as `Submit` says (see `SubmitEffect`, and
     * `SubmitQueuesKnownFormat` for what a chooser showing a known name queues); the chooser
     * is left as it is.
     */
    method AddToQueue()
      requires Valid()
      modifies this`downloads, this`urlInput, downloadQueue
      ensures Valid()
      ensures State() == Submit(old(State()), comboText)
    {
      ghost var before := State();
      var item := ReadInputs();
      SubmitOf(before, comboText, item);
      Accept(item);
    }

    /** The first half of `add_to_queue`: the stripped url and the chooser's first word. */
    method ReadInputs() returns (item: Option<DownloadItem>)
      ensures item == Submission(urlInput, comboText)
    {
      var url := Strip(urlInput);
      if url == [] {
        return None;
      }
      var format := FirstToken(comboText);
      if format.None? {
        return None;
      }
      item := Some(DownloadItem(url, format.value));
    }

    /** The second half of `add_to_queue`: queue a read item and clear the url field. */
    method Accept(item: Option<DownloadItem>)
      requires Valid()
      modifies this`downloads, this`urlInput, downloadQueue
      ensures Valid()
      ensures State() == Accepted(old(State()), item)
    {
      if item.Some? {
        AddRow(item.value);
        urlInput := [];
      }
    }

    /** The row for a new item goes into `downloads` and the item into the queue. */
    method AddRow(item: DownloadItem)
      requires downloadQueue.Valid()
      modifies this`downloads, downloadQueue
      ensures downloadQueue.Valid()
      ensures State() == Enqueue(old(State()), item)
    {
      downloads := downloads[item.url := NewView(item)];
      downloadQueue.Put(Some(item));
    }

    /** `update_progress`. */
    method UpdateProgress(url: string, progress: int)
      modifies this`downloads
      ensures downloads == Dispatch(old(downloads), Progress(url, progress), None)
    {
      if url in downloads {
        downloads := downloads[url := downloads[url].(progress := Some(progress))];
      }
    }

    /** `update_status`. */
    method UpdateStatus(url: string, status: string)
      modifies this`downloads
      ensures downloads == Dispatch(old(downloads), Status(url, status), None)
    {
      if url in downloads {
        downloads := downloads[url := downloads[url].(status := status)];
      }
    }

    /** `update_title`. */
    method UpdateTitle(url: string, title: string)
      modifies this`downloads
      ensures downloads == Dispatch(old(downloads), Title(url, title), None)
    {
      if url in downloads {
        downloads := downloads[url := downloads[url].(title := title)];
      }
    }

    /**
     * `download_finished`: the row shows "Complete", a full bar and, where the file's size
     * could be read (`size`), that size.
     */
    method DownloadFinished(url: string, filePath: string, size: Option<int>)
      modifies this`downloads
      ensures downloads == Dispatch(old(downloads), Finished(url, filePath), size)
    {
      if url in downloads {
        var view := downloads[url].(status := "Complete", progress := Some(100));
        if size.Some? {
          view := view.(size := Some(FormatSize(size.value)));
        }
        downloads := downloads[url := view];
      }
    }

    /** The signal connections of `setup_worker`: each signal goes to its handler. */
    method Deliver(e: Event, size: Option<int>)
      modifies this`downloads
      ensures downloads == Dispatch(old(downloads), e, size)
    {
      match e
      case Progress(u, p) => UpdateProgress(u, p);
      case Status(u, m) => UpdateStatus(u, m);
      case Title(u, t) => UpdateTitle(u, t);
      case Finished(u, path) => DownloadFinished(u, path, size);
    }
  }
}
