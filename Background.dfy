/**
 * The background worker: it turns a scrape into a tracked job, keeps itself alive
 * while the parsing service works, merges the service's answer with the scraped
 * values and records the outcome in storage.
 *
 * The job identifier (`crypto.randomUUID()`), the timestamp (`Date.now()`) and what
 * the `fetch` to the parsing service yields are parameters.
 */
module Background {
  import opened Wrappers
  import opened Text
  import opened Json
  import opened JobStore

  /* ---------------- the merge ---------------- */

  /**
   * A service value worth keeping: truthy, and not blank once converted to a string,
   * that is, its text is not all white space.
   */
  predicate Usable(v: Json)
    ensures Usable(v) <==> Truthy(v) && !AllSpace(ToJsString(v))
  {
    TrimPiece(ToJsString(v));
    Truthy(v) && Trim(ToJsString(v)) != ""
  }

  /** `pick(apiVal, scrapeVal)`: the service's value when it is usable, otherwise the scraped one. */
  function Prefer(api: Option<Json>, scraped: Json): (r: Json)
    ensures api.Some? && Usable(api.value) ==> r == api.value
    ensures !(api.Some? && Usable(api.value)) ==> r == scraped
  {
    if api.Some? && Truthy(api.value) && |Trim(ToJsString(api.value))| > 0 then api.value else scraped
  }

  /** A scraped string that may be null. */
  function NullableValue(o: Option<string>): (r: Json)
    ensures o.None? <==> r == Null
  {
    if o.Some? then Str(o.value) else Null
  }

  /**
   * The `parsed_result` built from the service's reply `body` and the scraped record:
   * each of the seven picked fields goes through `Prefer`, the descriptions and the URL
   * pass through from the scrape, and `_meta` is the service's.
   */
  function ParsedFrom(body: Json, meta: ScrapedJobData): (r: ParsedResult)
    ensures r.description == meta.description
    ensures r.displayedDescription == meta.displayedDescription
    ensures r.jobUrl == meta.url
    ensures r.meta == Field(body, "_meta")
    ensures r.title == Prefer(Field(body, "title"), Str(meta.title))
    ensures r.company == Prefer(Field(body, "company"), NullableValue(meta.company))
    ensures r.location == Prefer(Field(body, "location"), Str(meta.location))
    ensures r.salaryRange == Prefer(Field(body, "salary_range"), NullableValue(meta.salary))
    ensures r.datePosted == Prefer(Field(body, "date_posted"), NullableValue(meta.datePosted))
    ensures r.dateClosing == Prefer(Field(body, "date_closing"), NullableValue(meta.dateClosing))
    ensures r.dateExtracted == Prefer(Field(body, "date_extracted"), Str(meta.dateExtracted))
    ensures r.features ==
      if Field(body, "features").Some? && Truthy(Field(body, "features").value) then Field(body, "features").value
      else Arr([])
  {
    ParsedResult(
      Prefer(Field(body, "title"), Str(meta.title)),
      Prefer(Field(body, "company"), NullableValue(meta.company)),
      Prefer(Field(body, "location"), Str(meta.location)),
      Prefer(Field(body, "salary_range"), NullableValue(meta.salary)),
      Prefer(Field(body, "date_posted"), NullableValue(meta.datePosted)),
      Prefer(Field(body, "date_closing"), NullableValue(meta.dateClosing)),
      Prefer(Field(body, "date_extracted"), Str(meta.dateExtracted)),
      meta.description,
      meta.displayedDescription,
      Or(Field(body, "features"), Some(Arr([]))).GetOr(Arr([])),
      meta.url,
      Field(body, "_meta"))
  }

  /** Absent, null, zero and empty-string answers fall back to the scraped value. */
  lemma FalsyFallsBack(scraped: Json)
    ensures Prefer(None, scraped) == scraped
    ensures Prefer(Some(Null), scraped) == scraped
    ensures Prefer(Some(Num(0.0, "0")), scraped) == scraped
    ensures Prefer(Some(Str("")), scraped) == scraped
  {
  }

  /** A blank string and an array that shows as blank fall back too, although both are truthy. */
  lemma BlankFallsBack(scraped: Json)
    ensures Prefer(Some(Str("   ")), scraped) == scraped
    ensures Prefer(Some(Arr([])), scraped) == scraped
    ensures Prefer(Some(Arr([Null])), scraped) == scraped
  {
    assert AllSpace("   ");
    assert ToJsString(Arr([])) == "";
    assert ToJsString(Arr([Null])) == "";
  }

  /** A non-empty string with no white space at either end wins over the scrape. */
  lemma StringWins(s: string, scraped: Json)
    requires s != "" && Trimmed(s)
    ensures Prefer(Some(Str(s)), scraped) == Str(s)
  {
  }

  /** Any object wins, since it shows as `[object Object]`. */
  lemma ObjectWins(scraped: Json, fields: seq<(string, Json)>)
    ensures Prefer(Some(Obj(fields)), scraped) == Obj(fields)
  {
    var o := ToJsString(Obj(fields));
    assert o == "[object Object]";
    assert o[0] == '[' && o[|o| - 1] == ']';
    assert Trimmed(o);
  }

  /**
   * The features are always truthy: a truthy answer is kept as it is, and an answer
   * without them (or with a falsy value) gets an empty list.
   */
  lemma ParsedFeatures(body: Json, meta: ScrapedJobData)
    ensures Truthy(ParsedFrom(body, meta).features)
    ensures Field(body, "features").None? ==> ParsedFrom(body, meta).features == Arr([])
    ensures forall f :: Field(body, "features") == Some(f) && Truthy(f) ==> ParsedFrom(body, meta).features == f
  {
  }

  /** An answer with no usable fields keeps every scraped value. */
  lemma EmptyAnswerKeepsScrape(meta: ScrapedJobData)
    ensures var p := ParsedFrom(Obj([]), meta);
      && p.title == Str(meta.title) && p.company == NullableValue(meta.company)
      && p.location == Str(meta.location) && p.salaryRange == NullableValue(meta.salary)
      && p.datePosted == NullableValue(meta.datePosted) && p.dateClosing == NullableValue(meta.dateClosing)
      && p.dateExtracted == Str(meta.dateExtracted)
      && p.features == Arr([]) && p.meta.None?
  {
  }

  /* ---------------- jobs ---------------- */

  /** The job `handleNewScrape` creates: parsing, with the scraped description as its text. */
  function NewJob(scraped: ScrapedJobData, id: string, timestamp: int): (job: Job)
    ensures Consistent(job) && job.status == Parsing
    ensures job.id == id && job.originalText == scraped.description && job.scrapedMeta == scraped
    ensures job.createdAt == timestamp
  {
    Job(id, Parsing, scraped.description, scraped, None, timestamp, None)
  }

  /** What `response.json()` yields: a value, or the message of the exception it throws. */
  datatype Body = Parsed(value: Json) | Unparsable(message: string)

  /** What the POST to the parse endpoint yields. */
  datatype ParseReply =
    | FetchFailed(message: string)           // network error or the five-minute abort
    | Answered(status: nat, body: Body)

  /** The message thrown for a status outside 200-299. */
  function ServerError(status: nat): (r: string)
    ensures |r| > 14 && r[..14] == "Server Error: "
    ensures forall i :: 14 <= i < |r| ==> '0' <= r[i] <= '9'
    ensures DecimalValue(r[14..]) == status
  {
    DecimalRoundTrip(status);
    var r := "Server Error: " + Decimal(status);
    assert r[14..] == Decimal(status);
    r
  }

  /** Different statuses give different messages. */
  lemma ServerErrorsDiffer(a: nat, b: nat)
    requires a != b
    ensures ServerError(a) != ServerError(b)
  {
  }

  /** The TypeError of reading `.title` of a `null` answer. */
  const NullAnswer := "Cannot read properties of null (reading 'title')"

  /** Why a reply fails, if it does. */
  function Failure(reply: ParseReply): (r: Option<string>)
    ensures r.None? <==> reply.Answered? && Ok(reply.status) && reply.body.Parsed? && reply.body.value != Null
    ensures reply.FetchFailed? ==> r == Some(reply.message)
    ensures reply.Answered? && !Ok(reply.status) ==> r == Some(ServerError(reply.status))
    ensures reply.Answered? && Ok(reply.status) && reply.body.Unparsable? ==> r == Some(reply.body.message)
    ensures reply.Answered? && Ok(reply.status) && reply.body == Parsed(Null) ==> r == Some(NullAnswer)
  {
    match reply
    case FetchFailed(m) => Some(m)
    case Answered(status, body) =>
      if !Ok(status) then Some(ServerError(status))
      else match body
        case Unparsable(m) => Some(m)
        case Parsed(v) => if v == Null then Some(NullAnswer) else None
  }

  /** The job `parseJob` stores once the reply is in. */
  function ParseOutcome(job: Job, reply: ParseReply): (r: Job)
    ensures r.id == job.id && r.originalText == job.originalText && r.scrapedMeta == job.scrapedMeta
    ensures r.createdAt == job.createdAt
    ensures r.status == Review || r.status == Error
    ensures r.status == Review <==> Failure(reply).None?
    ensures r.status == Review ==> r.parsedResult == Some(ParsedFrom(reply.body.value, job.scrapedMeta)) && r.errorMsg == job.errorMsg
    ensures r.status == Error ==> r.errorMsg == Failure(reply) && r.parsedResult == job.parsedResult
  {
    match Failure(reply)
    case Some(m) => job.(status := Error, errorMsg := Some(m))
    case None => job.(parsedResult := Some(ParsedFrom(reply.body.value, job.scrapedMeta)), status := Review)
  }

  /** A fresh job ends consistent: reviewed with a result, or in error with a message. */
  lemma OutcomeConsistent(scraped: ScrapedJobData, id: string, timestamp: int, reply: ParseReply)
    ensures Consistent(ParseOutcome(NewJob(scraped, id, timestamp), reply))
  {
  }

  /** What a non-2xx status records. */
  lemma StatusErrorExample(job: Job, body: Body)
    ensures ParseOutcome(job, Answered(503, body)).errorMsg == Some("Server Error: 503")
  {
    assert ServerError(503) == "Server Error: 503" by {
      assert Decimal(5) == "5";
      assert Decimal(50) == "50";
      assert Decimal(503) == "503";
    }
    assert Failure(Answered(503, body)) == Some(ServerError(503));
  }

  /* ---------------- the worker ---------------- */

  /** The worker's keep-alive timers, by job, and the store it writes to. */
  class Orchestrator {
    var lifelines: set<string>
    const store: Storage

    constructor (store: Storage)
      ensures this.store == store && lifelines == {}
    {
      this.store := store;
      lifelines := {};
    }

    /** `keepAliveForJob`: start a timer for `id` unless one is running. */
    method KeepAliveForJob(id: string)
      modifies this
      ensures lifelines == old(lifelines) + {id}
    {
      if id !in lifelines {
        lifelines := lifelines + {id};
      }
    }

    /** `releaseKeepAlive`: stop the timer for `id` if there is one. */
    method ReleaseKeepAlive(id: string)
      modifies this
      ensures lifelines == old(lifelines) - {id}
    {
      if id in lifelines {
        lifelines := lifelines - {id};
      }
    }

    /** `parseJob`: store the outcome of the reply, then release the job's timer in any case. */
    method ParseJob(job: Job, reply: ParseReply) returns (done: Job)
      modifies this, store
      ensures done == ParseOutcome(job, reply)
      ensures store.jobQueue == Some(old(store.Queue())[job.id := done])
      ensures store.stats == old(store.stats)
      ensures lifelines == old(lifelines) - {job.id}
    {
      done := ParseOutcome(job, reply);
      store.SaveJob(done);
      ReleaseKeepAlive(job.id);
    }

    /**
     * `handleNewScrape`: store the new job as parsing, start its timer, then parse it.
     * The job ends reviewed or in error, stored under its id, with no timer left.
     */
    method HandleNewScrape(scraped: ScrapedJobData, id: string, timestamp: int, reply: ParseReply) returns (job: Job)
      modifies this, store
      ensures job == ParseOutcome(NewJob(scraped, id, timestamp), reply)
      ensures Consistent(job) && job.id == id
      ensures store.jobQueue == Some(old(store.Queue())[id := job])
      ensures store.stats == old(store.stats)
      ensures lifelines == old(lifelines) - {id}
    {
      var newJob := NewJob(scraped, id, timestamp);
      store.SaveJob(newJob);
      ghost var saved := store.Queue();
      KeepAliveForJob(id);
      job := ParseJob(newJob, reply);
      assert saved[id := job] == old(store.Queue())[id := job];
    }
  }
}
