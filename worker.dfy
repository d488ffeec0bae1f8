/**
 * The download queue and the worker that drains it: jobs are taken in the order they were
 * put, each is run to its end, and a `None` entry stops the worker.
 */
module Worker {
  import opened Wrappers
  import opened Config
  import opened Downloader

  /**
   * `queue.Queue` as the worker uses it: its entries in FIFO order (`None` is the stop
   * sentinel) and its count of tasks not yet marked done.
   */
  class JobQueue {
    var items: seq<Option<DownloadItem>>
    var unfinished: nat

    /** Every entry still queued is an unfinished task. */
    ghost predicate Valid()
      reads this
    {
      |items| <= unfinished
    }

    constructor ()
      ensures Valid() && items == [] && unfinished == 0
    {
      items := [];
      unfinished := 0;
    }

    /** `put`: the entry goes to the back and counts as a new unfinished task. */
    method Put(x: Option<DownloadItem>)
      requires Valid()
      modifies this
      ensures Valid()
      ensures items == old(items) + [x] && unfinished == old(unfinished) + 1
    {
      items := items + [x];
      unfinished := unfinished + 1;
    }

    /** `get` on a queue that has an entry (a `get` on an empty queue would block). */
    method Get() returns (x: Option<DownloadItem>)
      requires Valid() && items != []
      modifies this`items
      ensures Valid()
      ensures x == old(items)[0] && items == old(items)[1..]
    {
      x := items[0];
      items := items[1..];
    }

    /**
     * `task_done`: one unfinished task fewer; `ok` is false where Python raises `ValueError`.
     * Like Python's, it may be called more often than entries were taken, and then leaves
     * more entries queued than unfinished tasks (`Valid()` no longer holds).
     */
    method TaskDone() returns (ok: bool)
      modifies this`unfinished
      ensures ok <==> old(unfinished) > 0
      ensures unfinished == if ok then old(unfinished) - 1 else old(unfinished)
    {
      ok := unfinished > 0;
      if ok {
        unfinished := unfinished - 1;
      }
    }
  }

  /** The position of the first sentinel, or the length when there is none. */
  function SentinelIndex(items: seq<Option<DownloadItem>>): (k: nat)
    ensures k <= |items|
    ensures k < |items| ==> items[k].None?
    ensures forall j :: 0 <= j < k ==> items[j].Some?
  {
    if items == [] || items[0].None? then 0 else 1 + SentinelIndex(items[1..])
  }

  /** The jobs before the first sentinel, in queue order: the jobs the worker runs. */
  function PendingJobs(items: seq<Option<DownloadItem>>): (jobs: seq<DownloadItem>)
    ensures |jobs| == SentinelIndex(items)
    ensures forall j :: 0 <= j < |jobs| ==> items[j] == Some(jobs[j])
  {
    if items == [] || items[0].None? then [] else [items[0].value] + PendingJobs(items[1..])
  }

  /** Nothing after the first sentinel is ever run. */
  lemma {:induction false} NothingAfterSentinel(a: seq<Option<DownloadItem>>, b: seq<Option<DownloadItem>>)
    requires forall j :: 0 <= j < |a| ==> a[j].Some?
    ensures PendingJobs(a + [None] + b) == PendingJobs(a) && |PendingJobs(a)| == |a|
  {
    if a != [] {
      assert (a + [None] + b)[1..] == a[1..] + [None] + b;
      NothingAfterSentinel(a[1..], b);
    }
  }

  /** Jobs put before any sentinel run in the order they were put. */
  lemma {:induction false} PutOrder(items: seq<Option<DownloadItem>>, x: DownloadItem)
    requires forall j :: 0 <= j < |items| ==> items[j].Some?
    ensures PendingJobs(items + [Some(x)]) == PendingJobs(items) + [x]
  {
    if items != [] {
      assert (items + [Some(x)])[1..] == items[1..] + [Some(x)];
      PutOrder(items[1..], x);
    }
  }

  /** The signals of each job of `jobs`, on what the engine reports for it. */
  function JobLogs(downloadPath: string, jobs: seq<DownloadItem>, runs: seq<EngineRun>): (logs: seq<seq<Event>>)
    requires |jobs| == |runs|
    ensures |logs| == |jobs|
    ensures forall i :: 0 <= i < |jobs| ==> logs[i] == JobEvents(downloadPath, jobs[i].url, jobs[i].format, runs[i])
  {
    seq(|jobs|, i requires 0 <= i < |jobs| => JobEvents(downloadPath, jobs[i].url, jobs[i].format, runs[i]))
  }

  /** The logs one after the other. */
  function Concat(logs: seq<seq<Event>>): seq<Event> {
    if logs == [] then [] else Concat(logs[..|logs| - 1]) + logs[|logs| - 1]
  }

  lemma ConcatStep(logs: seq<seq<Event>>, k: nat)
    requires k < |logs|
    ensures Concat(logs[..k + 1]) == Concat(logs[..k]) + logs[k]
  {
    assert logs[..k + 1][..k] == logs[..k];
  }

  /** The first log comes first, then the others in order. */
  lemma {:induction false} ConcatFirst(logs: seq<seq<Event>>)
    requires logs != []
    ensures Concat(logs) == logs[0] + Concat(logs[1..])
  {
    var n := |logs|;
    if n == 1 {
      assert Concat(logs) == Concat([]) + logs[0];
      assert logs[1..] == [];
    } else {
      var front := logs[..n - 1];
      ConcatFirst(front);
      assert front[0] == logs[0];
      assert front[1..] == logs[1..][..n - 2];
      assert logs[1..][n - 2] == logs[n - 1];
      assert Concat(logs[1..]) == Concat(front[1..]) + logs[n - 1];
      AppendAssoc(logs[0], Concat(front[1..]), logs[n - 1]);
    }
  }

  /**
   * The signals of a run are those of its jobs, in queue order: the first job's signals come
   * before all of the next one's, and so on.
   */
  lemma RunEventsInOrder(downloadPath: string, jobs: seq<DownloadItem>, runs: seq<EngineRun>)
    requires |jobs| == |runs| && jobs != []
    ensures Concat(JobLogs(downloadPath, jobs, runs))
            == JobEvents(downloadPath, jobs[0].url, jobs[0].format, runs[0])
               + Concat(JobLogs(downloadPath, jobs[1..], runs[1..]))
  {
    var logs := JobLogs(downloadPath, jobs, runs);
    ConcatFirst(logs);
    assert logs[1..] == JobLogs(downloadPath, jobs[1..], runs[1..]);
  }

  /** `DownloadQueueWorker`: a downloader and the queue it drains. */
  class DownloadQueueWorker {
    const queue: JobQueue
    const downloader: YouTubeDownloader

    constructor (queue: JobQueue, downloadPath: string)
      ensures this.queue == queue && fresh(downloader)
      ensures downloader.downloadPath == downloadPath && downloader.events == []
    {
      this.queue := queue;
      downloader := new YouTubeDownloader(downloadPath);
    }

    /**
     * `run`: takes entries until the first sentinel, runs each job (no job, whatever its
     * outcome, stops the loop) and marks each one done; the sentinel is taken and not marked.
     * `runs` is what the engine reports for each job, in order. The queue must hold a
     * sentinel: without one the final `get` would block for ever.
     */
    method Run(runs: seq<EngineRun>)
      requires queue.Valid()
      requires SentinelIndex(queue.items) < |queue.items|
      requires |runs| == SentinelIndex(queue.items)
      modifies queue, downloader
      ensures queue.Valid()
      ensures queue.items == old(queue.items)[SentinelIndex(old(queue.items)) + 1..]
      ensures queue.unfinished == old(queue.unfinished) - SentinelIndex(old(queue.items))
      ensures downloader.events ==
                old(downloader.events) + Concat(JobLogs(downloader.downloadPath, PendingJobs(old(queue.items)), runs))
    {
      ghost var all := queue.items;
      ghost var jobs := PendingJobs(all);
      ghost var s := SentinelIndex(all);
      ghost var logs := JobLogs(downloader.downloadPath, jobs, runs);
      var k := 0;
      while true
        invariant 0 <= k <= s
        invariant queue.items == all[k..]
        invariant queue.unfinished == old(queue.unfinished) - k
        invariant downloader.events == old(downloader.events) + Concat(logs[..k])
        decreases s - k
      {
        var item := queue.Get();
        if item.None? {
          break;
        }
        assert item == all[k] == Some(jobs[k]);
        ConcatStep(logs, k);
        var _ := downloader.DownloadVideo(item.value.url, item.value.format, runs[k]);
        AppendAssoc(old(downloader.events), Concat(logs[..k]), logs[k]);
        var ok := queue.TaskDone();
        assert ok;
        k := k + 1;
      }
      assert logs[..k] == logs;
    }
  }
}
