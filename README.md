# ytdown: a verified model of the download core

ytdown is a desktop YouTube downloader. A window holds a url field, a format chooser and one
row per queued download. Each submission becomes a `DownloadItem` (a url and a format key) in
a FIFO queue. A background worker takes items off the queue one at a time. For each one it runs
`YouTubeDownloader.download_video`, which builds the download engine's options from the format
table, fetches the video's title, downloads, and reports back through four signals: progress,
status, title and finished. The window routes each signal to the row of its url.

This project models that core in Dafny and proves properties of the model:

- `Config` (`config.py`): the download record and the six-entry format table.
- `PyText`: the Python `str` built-ins the core relies on (`strip`, `replace`, `split()[0]`,
  `str(int)`, `isdigit`), over ASCII.
- `Paths`: POSIX `os.path.join` and `os.path.splitext`.
- `Percent`: the progress hook's reading of the engine's percentage text.
- `Downloader`:
  - the engine options, the size formatter and the progress hook;
  - every signal a job emits, in order (`JobEvents`), and what the job returns (`JobResult`);
  - the `YouTubeDownloader` class, whose methods append the signals they emit to `events`.
- `Worker`: the job queue as a class over a `seq` (`None` is the stop sentinel), and the
  worker's loop that drains it.
- `Window`: the url-to-row map of the main window, the submission of a download, and the
  signal handlers.

The download engine is not modelled. The outcome of the metadata lookup, the progress
notifications and the outcome of the download are all inputs, an `EngineRun` per job. The
worker receives one `EngineRun` for each job it will run.

Two facts about the progress hook's reading of the percentage follow from the code:

- The comment above the cleanup in `_progress_hook` (ytdown/downloader.py:55) says it removes
  ANSI colour codes. The digit filter keeps every digit, including those inside an escape:
  "\x1b[0;94m 42.7%\x1b[0m" gives 9442, not 42 (`Percent.ColouredPercent`).
- Nothing clamps the value to 0..100: "150%" gives 150 (`Percent.NotClamped`).

## Model

| member | source | states |
|---|---|---|
| Config.FormatNames | ytdown/downloader.py:201-202 | the chooser's entries are the table's names, one per key, in the table's declaration order |
| Config.AudioCodec | ytdown/config.py:26-80 | the codec and quality are read from the first post-processing step of the format's entry, and exist exactly for the known keys other than "mp4" |
| Config.CatalogKeys | ytdown/config.py:19-81 | the table has exactly the six keys mp4, mp3, aac, aac96, aac64, aac32, each listed once by the chooser order |
| Config.NameLeadsWithKey | ytdown/config.py:19-81 | every format's name is its key, then a space, then text, so the name's first word is the key |
| Config.KeyIsListed | ytdown/config.py:19-81 | a key in the table is one of the six listed keys |
| Config.ListedNameStartsWithKey | ytdown/config.py:19-81 | each of the six listed keys is in the table and its name starts with the key and a space |
| Config.Mp4Name | ytdown/config.py:21 | the mp4 name starts with "mp4 " and its first word is "mp4" |
| Config.Mp3Name | ytdown/config.py:27 | the mp3 name starts with "mp3 " and its first word is "mp3" |
| Config.AacName | ytdown/config.py:38 | the aac name starts with "aac " and its first word is "aac" |
| Config.Aac96Name | ytdown/config.py:49 | the aac96 name starts with "aac96 " and its first word is "aac96" |
| Config.Aac64Name | ytdown/config.py:60 | the aac64 name starts with "aac64 " and its first word is "aac64" |
| Config.Aac32Name | ytdown/config.py:71 | the aac32 name starts with "aac32 " and its first word is "aac32" |
| Config.VideoFormat | ytdown/config.py:20-25 | the video format's options are only `format: best`, with no post-processing |
| Config.AudioFormats | ytdown/config.py:26-80 | each audio format has `format: bestaudio/best` and one FFmpegExtractAudio step with its codec and quality; the codec is "mp3" for mp3 and "m4a" otherwise, and holds no '.' or '/' |
| PyText.StripStart | ytdown/downloader.py:221 | the result is a suffix of the input, everything dropped is whitespace, and the result does not start with whitespace |
| PyText.StripEnd | ytdown/downloader.py:221 | the result is a prefix of the input, everything dropped is whitespace, and the result does not end with whitespace |
| PyText.Strip | ytdown/downloader.py:221-222 | the stripped text is a slice of the input with only whitespace cut off on either side; it is empty exactly when the input is all whitespace, and otherwise neither starts nor ends with whitespace |
| PyText.RemoveAll | ytdown/downloader.py:56 | the removed character no longer occurs, every other character occurs as often as before, and a text without the character is returned unchanged |
| PyText.RemoveAllAppend | ytdown/downloader.py:56 | removal distributes over concatenation, so the kept characters stay in their order |
| PyText.NatToString | ytdown/downloader.py:44 | the text is decimal digits with no leading zero, and they spell the number |
| PyText.IntToString | ytdown/downloader.py:44 | non-negative numbers give a non-empty digit string with no leading zero that spells the number; negative numbers give '-' and then such a digit string for the absolute value |
| PyText.TakeToken | ytdown/downloader.py:225 | the result is the longest whitespace-free prefix |
| PyText.FirstToken | ytdown/downloader.py:225 | there is no first word exactly when the text is all whitespace (where `split()[0]` raises); otherwise the result is non-empty, holds no whitespace, and is the text's first word: only whitespace before it, and whitespace or the end after it |
| PyText.FirstTokenOfWord | ytdown/downloader.py:225 | a whitespace-free word followed by a space splits to that word first |
| PyText.TakeTokenOfWord | ytdown/downloader.py:225 | the whitespace-free prefix of a word followed by a space is that word |
| Paths.RFind | ytdown/downloader.py:91 | the result is -1 or the index of the last occurrence of the character |
| Paths.Join | ytdown/downloader.py:37 | the result ends with the second part; an absolute second part replaces the first; a relative one follows a first part that does not end in '/' after one added '/' |
| Paths.JoinWithoutSeparator | ytdown/downloader.py:37 | a relative second part follows an empty first part, or one ending in '/', with nothing added |
| Paths.Splitext | ytdown/downloader.py:91 | the root and the extension concatenate to the path; the extension is empty or a single '.'-led segment with no further '.' and no '/' |
| Paths.SplitextExtension | ytdown/downloader.py:91 | an extension is found exactly when the last path component has a '.' after a non-dot; the root is then everything before the last '.', and otherwise the whole path |
| Percent.KeepNumericIsNumeric | ytdown/downloader.py:57 | the filter keeps only digits and '.' |
| Percent.DigitsOf | ytdown/downloader.py:57-58 | the digits of a text, in order (the reference reading of the number) |
| Percent.Find | ytdown/downloader.py:58 | the index of the first '.' or the length, with no '.' before it |
| Percent.ParseFiltered | ytdown/downloader.py:58 | `int(float(s))` on digits and points succeeds exactly when there is a digit and at most one point, and then gives the decimal value truncated to an integer |
| Percent.ParsePercent | ytdown/downloader.py:56-58 | the hook's whole reading of a percentage succeeds exactly when the kept characters form a valid decimal, and then gives its truncated value |
| Percent.ParseFilteredCorrect | ytdown/downloader.py:58 | splitting at the first '.' fails exactly on invalid decimals and otherwise gives the truncated value |
| Percent.WithoutPoint | ytdown/downloader.py:58 | a digit string is a valid decimal exactly when non-empty, and its value is its truncated value |
| Percent.WithPoint | ytdown/downloader.py:58 | digits, a point and a fraction form a valid decimal exactly when the fraction has no point and some digit exists; the value is then the digits before the point |
| Percent.CleanupIsRedundant | ytdown/downloader.py:56-57 | removing '%' and stripping whitespace before the digit filter changes nothing the filter keeps |
| Percent.KeepNumericAppend | ytdown/downloader.py:57 | the filter distributes over concatenation |
| Percent.KeepNumericRemove | ytdown/downloader.py:56-57 | removing a non-numeric character before the filter changes nothing |
| Percent.ColouredPercent | ytdown/downloader.py:55-58 | an escape-coloured " 42.7%" keeps the colour-code digits and reads as 9442 |
| Percent.NotClamped | ytdown/downloader.py:58-59 | "150%" reads as 150; nothing clamps it to 100 |
| Percent.NoDigitNoValue | ytdown/downloader.py:58-61 | text with no digit gives no percentage (the hook swallows the error) |
| Downloader.ErrorText | ytdown/downloader.py:98 | an error's status text is "Error: " followed by exactly the message |
| Downloader.GetYdlOpts | ytdown/downloader.py:29-39 | an unknown format is refused with "Unsupported format: " and the key; a known one gives the format's options plus `outtmpl` (the download path joined with the output template) and `progress_hooks` (the progress hook), with the format's other keys kept |
| Downloader.OptionsOfFormat | ytdown/downloader.py:29-39 | the options of a known format exist; they have post-processing exactly when the format is not mp4, and then exactly one audio extraction step to the format's codec |
| Downloader.FormatSize | ytdown/downloader.py:41-50 | below 1000 the count itself with " B" (negatives included); otherwise the largest unit of 1000, 10^6 or 10^9 not above the count (GB from 10^9 up), and the count divided by it |
| Downloader.SizeUnitMonotone | ytdown/downloader.py:41-50 | a larger count never gets a smaller unit |
| Downloader.SizeQuotientBounds | ytdown/downloader.py:41-50 | the quotient is at least 1 and, below GB, under 1000 |
| Downloader.SizeUnitBeforeRounding | ytdown/downloader.py:41-50 | the unit is chosen before rounding: 999999 bytes is 999.999 KB, not 1.0 MB; -5 bytes is "-5 B" |
| Downloader.HookEvents | ytdown/downloader.py:52-64 | while downloading, a readable percentage below 2^31 gives one progress signal with its truncated value; an unreadable one, or one too large for the signal's 32-bit `int` (where `emit` raises and the hook swallows it), gives nothing; "finished" gives "Converting..."; any other status gives nothing |
| Downloader.HookEventsAll | ytdown/downloader.py:52-64 | repeated notifications give only progress values in 0..2^31-1 and "Converting...", at most one signal per notification |
| Downloader.HookEventsAllStep | ytdown/downloader.py:52-64 | one more notification appends exactly its own signals |
| Downloader.MetaEvents | ytdown/downloader.py:66-82 | truthy info gives the title signal (blank title when absent), falsy info gives nothing, and a failed lookup gives its error status |
| Downloader.FinalFilename | ytdown/downloader.py:86-91 | without post-processing the engine's name is kept; with it the name ends in '.' and the codec, after the name up to its last '.' when it has an extension, or after the whole name when it has none |
| Downloader.TerminalEvents | ytdown/downloader.py:84-98 | a download gives "Complete" and then the finished signal with the final name; a falsy result gives nothing; an error gives its status |
| Downloader.JobResult | ytdown/downloader.py:76-99 | a job returns a name exactly when its format is known and the download succeeded |
| Downloader.JobWithOptions | ytdown/downloader.py:76-99 | with a known format a job emits the metadata signals, the hook's signals and the closing signals, in that order, and returns the final name only on a download |
| Downloader.JobWithoutOptions | ytdown/downloader.py:76-99 | with an unknown format a job emits the metadata signals and then the format error, and returns nothing |
| Downloader.JobEventsCarryUrl | ytdown/downloader.py:76-99 | every signal of a job names the job's url |
| Downloader.TitleComesFirst | ytdown/downloader.py:80-82 | truthy metadata makes the title (blank when absent) the job's first signal |
| Downloader.MetadataErrorStillDownloads | ytdown/downloader.py:66-95 | a failed metadata lookup emits its error first and no title, and a successful download still finishes the job |
| Downloader.UnsupportedFormatJob | ytdown/downloader.py:76-99 | an unknown format ends the job after the metadata signals with the single error "Error: Unsupported format: <key>", with no progress, completion or finished signal, and returns nothing |
| Downloader.TerminalShape | ytdown/downloader.py:76-99 | a job emits a finished signal exactly when it returns a name, only as its last signal and with that name; "Complete" appears exactly then, second to last |
| Downloader.DownloadErrorLast | ytdown/downloader.py:84-99 | a download error after the options were built is the job's last signal, and nothing is returned |
| Downloader.JobFilename | ytdown/downloader.py:86-95 | a successful mp4 job returns the engine's name; an audio job returns a name ending in '.' and its codec |
| Downloader.ReplacesExtension | ytdown/downloader.py:89-91 | a name made of a stem, '.' and an extension gets the stem, '.' and the codec |
| Downloader.SongWebmBecomesM4a | ytdown/downloader.py:89-91 | an aac download of "song.webm" reports "song.m4a" |
| Downloader.NoExtensionGetsCodec | ytdown/downloader.py:89-91 | a name without an extension gets '.' and the codec appended |
| Downloader.YouTubeDownloader.constructor | ytdown/downloader.py:21-24 | a downloader for the given path, with no current url and no signals yet |
| Downloader.YouTubeDownloader.ProgressHook | ytdown/downloader.py:52-64 | the hook appends the notification's signals for the current url |
| Downloader.YouTubeDownloader.FireHooks | ytdown/downloader.py:38 | the engine calling the hook on each notification appends their signals in order |
| Downloader.YouTubeDownloader.GetVideoInfo | ytdown/downloader.py:66-74 | the info (with its optional title) is returned for a lookup that yields info; a failed lookup emits its error and returns nothing |
| Downloader.YouTubeDownloader.Conclude | ytdown/downloader.py:86-96 | the closing signals are appended, and the final name is returned only on a download |
| Downloader.YouTubeDownloader.DownloadVideo | ytdown/downloader.py:76-99 | the current url becomes the job's url, the job's signals are appended in order, and the job's result is returned |
| Worker.JobQueue.constructor | ytdown/downloader.py:170 | an empty queue with no unfinished tasks |
| Worker.JobQueue.Put | ytdown/downloader.py:234 | the entry goes to the back, and there is one more unfinished task |
| Worker.JobQueue.Get | ytdown/downloader.py:110 | the front entry is taken off and returned, and every entry still queued stays an unfinished task |
| Worker.JobQueue.TaskDone | ytdown/downloader.py:115 | one unfinished task fewer; it fails, changing nothing, when there is none |
| Worker.SentinelIndex | ytdown/downloader.py:108-112 | the position of the first sentinel, or the length, with only jobs before it |
| Worker.PendingJobs | ytdown/downloader.py:108-114 | the jobs the worker runs are the entries before the first sentinel, in queue order |
| Worker.NothingAfterSentinel | ytdown/downloader.py:109-112 | nothing queued after a sentinel is ever run |
| Worker.PutOrder | ytdown/downloader.py:108-115 | a job put before any sentinel runs after the jobs already queued |
| Worker.JobLogs | ytdown/downloader.py:114 | one log per job: the signals of that job on its engine outcome |
| Worker.ConcatStep | ytdown/downloader.py:108-115 | running one more job appends exactly its log |
| Worker.ConcatFirst | ytdown/downloader.py:108-115 | the first log comes first, then the rest in order |
| Worker.RunEventsInOrder | ytdown/downloader.py:108-115 | the first job's signals all come before those of the jobs after it |
| Worker.DownloadQueueWorker.constructor | ytdown/downloader.py:102-106 | a worker on the given queue with a fresh downloader for the given path |
| Worker.DownloadQueueWorker.Run | ytdown/downloader.py:108-115 | the worker takes every entry up to and including the first sentinel, marks each job done, and emits the jobs' signals one job after another in queue order |
| Window.NewView | ytdown/downloader.py:128-151 | a new row shows the url as its title, the item's format, an empty progress bar, "Pending" and no size |
| Window.Submission | ytdown/downloader.py:220-226 | an item is submitted exactly when the stripped url is non-empty and the chooser's text has a word; the item is the stripped url and that first word |
| Window.Enqueue | ytdown/downloader.py:226-234 | queueing an item gives its url a new row, replacing any old one, leaves every other row alone, and puts the item at the back of the queue with one more unfinished task |
| Window.Submit | ytdown/downloader.py:220-235 | a submission never removes a row or a queued entry, queues at most one entry, and keeps the count of unfinished tasks beyond the queued entries |
| Window.SubmitEffect | ytdown/downloader.py:220-235 | a submission that reads nothing changes nothing; one that reads an item queues exactly that item, gives its url a new row, counts one more task and clears the url field |
| Window.SubmitQueuesKnownFormat | ytdown/downloader.py:202-234 | while the chooser shows one of the table's names, a submission queues nothing or one item whose format is in the table |
| Window.ChosenFormat | ytdown/downloader.py:220-226 | choosing a table entry submits that entry's key |
| Window.ChosenFormatIsKnown | ytdown/downloader.py:202-226 | whatever entry the chooser shows, the submitted format is in the table |
| Window.Resubmission | ytdown/downloader.py:229-234 | submitting a url twice leaves one row, the second's, and queues both items in order with two more unfinished tasks |
| Window.UpdateView | ytdown/downloader.py:155-165 | a signal changes only its own part of a row: the bar for progress, the status label for status, the title for a title; the format label never changes; a finished job shows "Complete" and a full bar, shows the formatted size when one was read, and keeps its size label otherwise |
| Window.Dispatch | ytdown/downloader.py:237-247 | a signal for a url with a row updates that row only; a signal for any other url changes nothing; the set of rows never changes |
| Window.DispatchAll | ytdown/downloader.py:237-261 | a sequence of signals never adds or removes a row |
| Window.ForeignSignalsIgnored | ytdown/downloader.py:237-261 | signals whose urls have no row change nothing |
| Window.SuccessfulJobShown | ytdown/downloader.py:249-253 | after a successful job's signals the job's row shows "Complete" and a full bar |
| Window.MainWindow.constructor | ytdown/downloader.py:168-181 | an empty queue with no unfinished tasks, no rows and an empty url field, the chooser on its first entry (a name of the table), and a worker on that queue for the given path |
| Window.MainWindow.AddToQueue | ytdown/downloader.py:220-235 | the window's rows, queue, count of unfinished tasks and url field change exactly as `Submit` says, and the queue stays valid |
| Window.MainWindow.ReadInputs | ytdown/downloader.py:221-226 | the inputs are read as `Submission` of the url field and the chooser's text |
| Window.MainWindow.Accept | ytdown/downloader.py:226-235 | a read item is queued as `Enqueue` says and the url field cleared; no item changes nothing |
| Window.MainWindow.AddRow | ytdown/downloader.py:229-234 | the rows and the queue change as `Enqueue` says |
| Window.MainWindow.UpdateProgress | ytdown/downloader.py:237-239 | the progress of the url's row, if it has one, is set |
| Window.MainWindow.UpdateStatus | ytdown/downloader.py:241-243 | the status of the url's row, if it has one, is set |
| Window.MainWindow.UpdateTitle | ytdown/downloader.py:245-247 | the title of the url's row, if it has one, is set |
| Window.MainWindow.DownloadFinished | ytdown/downloader.py:249-261 | the url's row, if it has one, shows "Complete", a full bar and, when the file's size could be read, that size |
| Window.MainWindow.Deliver | ytdown/downloader.py:175-180 | each signal goes to its own handler |

## Left out

- Downloader.FormatSize: the rendering of the quotient with one decimal (`:.1f`) is not modelled; the result is the unit and the exact quotient.
- Percent.ParsePercent and Percent.ParseFiltered: `int(float(s))` is modelled as exact decimal truncation, so binary floating-point rounding and the overflow of huge digit strings are not modelled.
- Downloader.HookEvents: a notification without a `status` entry (a `KeyError` in the hook) is not modelled; every notification has a status.
- Downloader.YouTubeDownloader.DownloadVideo: the call to `get_video_info` is modelled through the `GetVideoInfo` method; the engine itself (`YoutubeDL`, `extract_info`, `prepare_filename`) is the `EngineRun` input.
- Window.MainWindow.AddToQueue: a chooser text with no word would raise `IndexError` in the slot; the model treats it as changing nothing, which the chooser's entries can never cause. That the queued format is in the table is stated by `Window.SubmitQueuesKnownFormat`, not by the method's own contract.
- Paths.Join: the case of an empty first part, or one ending in '/', is stated by `Paths.JoinWithoutSeparator` rather than by `Join`'s own contract.
- The stop sentinel: the program never puts `None` on the queue. The worker is a daemon thread whose `get` blocks for ever once the queue is empty. `Worker.DownloadQueueWorker.Run` therefore requires a sentinel after the jobs it runs, which stands for that blocking `get`.
- Downloader.JobEvents and Percent.KeepNumeric carry no contract of their own; what they are is stated by the lemmas about them (`JobWithOptions`, `JobWithoutOptions`, `KeepNumericIsNumeric`, `KeepNumericAppend`, `ParsePercent`).
- Window.MainWindow.DownloadFinished: `os.path.getsize` is the `size` input (`None` where it raises), and the "Size: " prefix of the label is not modelled.
- Threads, `asyncio.run` and Qt's delivery of signals across threads are not modelled: signals are recorded in emission order, and `current_url` is read by the hook of the same downloader without interleaving.
- The initial state of `current_url` (unset in Python until the first job) is modelled as the empty string.
- The download directory: `os.makedirs` and `Config.DEFAULT_DOWNLOAD_PATH` are not modelled; the path is a parameter.
- The Qt widgets and their layout (labels, sizes, the scroll area, `insertWidget(0, …)` putting new rows on top) are not modelled; a row is its `ViewState`.
- `QProgressBar.setValue` ignores values outside 0..100; the model stores the value it is given.
- Console logging (`print`) in the error paths, `main`, `APP_NAME`, the window sizes and the url placeholder are not modelled.
- Strings are sequences of characters: `isspace` and `isdigit` are modelled over ASCII only, and paths are POSIX paths.
