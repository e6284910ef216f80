/**
 * The records the extension passes between its scripts, and the durable store
 * (`chrome.storage.local`) that holds the job queue and the parse-time statistics.
 */
module JobStore {
  import opened Wrappers
  import opened Json

  /**
   * What the content script extracts from one page. `company` can be null when the
   * page's `og:site_name` meta tag has no `content`; `displayedDescription` is never
   * set by the scraper and is read back as `undefined`.
   */
  datatype ScrapedJobData = ScrapedJobData(
    title: string,
    company: Option<string>,
    location: string,
    salary: Option<string>,
    description: string,
    displayedDescription: Option<string>,
    datePosted: Option<string>,
    dateClosing: Option<string>,
    url: string,
    dateExtracted: string)

  /**
   * The merged result of a parse. The picked fields hold whatever JSON value won the
   * merge; `features` is the service's value (or `[]`); `meta` is its `_meta` bag.
   */
  datatype ParsedResult = ParsedResult(
    title: Json,
    company: Json,
    location: Json,
    salaryRange: Json,
    datePosted: Json,
    dateClosing: Json,
    dateExtracted: Json,
    description: string,
    displayedDescription: Option<string>,
    features: Json,
    jobUrl: string,
    meta: Option<Json>)

  datatype Status = Parsing | Review | Saved | Error

  /** One tracked extraction. */
  datatype Job = Job(
    id: string,
    status: Status,
    originalText: string,
    scrapedMeta: ScrapedJobData,
    parsedResult: Option<ParsedResult>,
    createdAt: int,
    errorMsg: Option<string>)

  /** A parse result exactly in review and saved, an error message exactly in error. */
  predicate Consistent(job: Job) {
    && (job.parsedResult.Some? <==> (job.status == Review || job.status == Saved))
    && (job.errorMsg.Some? <==> job.status == Error)
  }

  /** `response.ok` of a `fetch` reply with HTTP status `status`. */
  predicate Ok(status: nat) {
    200 <= status <= 299
  }

  /** The rolling parse-time estimate. */
  datatype Stats = Stats(count: nat, avgTimeSec: real)

  /** The statistics used when storage holds none: no jobs yet, and a 60-second average. */
  const DefaultStats := Stats(0, 60.0)

  /** The two keys of `chrome.storage.local` the extension uses; an absent key is None. */
  class Storage {
    var jobQueue: Option<map<string, Job>>
    var stats: Option<Stats>

    /** A store in which neither key has been written. */
    constructor ()
      ensures jobQueue == None && stats == None
    {
      jobQueue := None;
      stats := None;
    }

    /** The stored queue, empty when storage holds none. */
    function Queue(): map<string, Job>
      reads this
    {
      jobQueue.GetOr(map[])
    }

    /** `saveJobToStorage`: `queue[job.id] = job` on the stored queue (empty when absent), written back. */
    method SaveJob(job: Job)
      modifies this
      ensures jobQueue == Some(old(Queue())[job.id := job])
      ensures forall id :: id != job.id ==> (id in Queue() <==> id in old(Queue()))
      ensures forall id :: id != job.id && id in old(Queue()) ==> Queue()[id] == old(Queue())[id]
      ensures stats == old(stats)
    {
      var queue := Queue();
      queue := queue[job.id := job];
      jobQueue := Some(queue);
    }

    /** `clearQueue`: the queue becomes `{}`; the statistics stay. */
    method Clear()
      modifies this
      ensures jobQueue == Some(map[]) && stats == old(stats)
    {
      jobQueue := Some(map[]);
    }
  }
}
