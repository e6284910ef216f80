# A verified model of the job-scrape browser extension

The extension has three parts:

- A **content script** (`scrape.js`) reads a job advert. It starts from the page's
  schema.org `JobPosting` JSON-LD and its meta tags. It then runs one DOM "tier" per
  site family (Indeed, LinkedIn, or the generic one), merges the results, caps the
  description and hands the record to the background worker.
- A **background worker** (`background.js`) turns each scrape into a tracked job. The
  job starts as *parsing*. The worker keeps itself alive while a parsing service works.
  It merges the service's answer with the scraped values, and the job ends in
  *review* or *error* in `chrome.storage.local`.
- A **popup** (`popup.js`) lists the queue newest first and shows placeholders while a
  job is parsing. It posts the edited job to the backend, maps failed replies to
  messages, and on success marks the job *saved* and folds its parse time into a
  running average.

The Dafny project models these rules. The files are:

- `Wrappers.dfy`: `Option`.
- `Text.dfy`: the JavaScript string operations used: `trim`, `join`, `toLowerCase`,
  `lastIndexOf`, `includes`, `split(c)[0]`, `substring` and decimal rendering.
- `Json.dfy`: JavaScript values as `JSON.parse` yields them, with truthiness,
  `String()`, property reads and `||`.
- `JsonLd.dfy`: `flattenToText`, the date, description and salary extractors, and the
  choice of the `JobPosting` block.
- `Scrape.dfy`: selector picking, the three tiers, the footer slicer, `scrapePage` and
  `scrapeAndSend`.
- `JobStore.dfy`: the records passed between the scripts. It also holds the `Storage`
  class, which stands for `chrome.storage.local`.
- `Background.dfy`: the merge `pick`, `parsed_result`, and the job outcome. It also
  holds the `Orchestrator` class, with the keep-alive set and the store.
- `Popup.dfy`: the payload and its feature loop, the upsert errors, the saved-status
  write with the rolling estimate, the queue order and the list labels.

The model follows the source's own form:

- Loops are methods proved against specification functions: `pick`, the slicer's loop,
  the feature `forEach` and the JSON-LD block scan.
- State that changes in place lives in classes: the keep-alive registry, and the storage
  keys `job_queue` and `stats`.
- The flattener, the extractors and the merge rules are functions.

Inputs the code reads from the browser are parameters: a `Page` value for the DOM and
the meta tags, and reply values for `fetch`.

No source defect is claimed.

## Model

| member | source | states |
|---|---|---|
| Text.Trim | scrape.js:63 | `trim` gives a string with no white space at either end. It is the input itself when that is already trimmed, and never longer. |
| Text.TrimPiece | scrape.js:63 | Trimming gives `""` exactly when the text is all white space. Otherwise it gives a contiguous piece of the text. |
| Text.TrimSplit | scrape.js:63 | The text is all-white-space text, then the trimmed text, then all-white-space text: `trim` removes white space at the two ends and nothing else. |
| Text.TrimIdempotent | scrape.js:6 | Trimming twice is trimming once. |
| Text.Join | scrape.js:7 | Definition of `join`: the parts in order, with the separator between neighbours. Its properties are `JoinSegments`, `JoinEmpty` and `JsonLd.JoinPush`. |
| Text.JoinSegments | scrape.js:7 | Joining non-empty trimmed parts gives a trimmed string. It is empty exactly when there are no parts, and the first part is a prefix of it. |
| Text.NonEmpty | scrape.js:7 | `filter(s => s.length > 0)` keeps only non-empty parts, each drawn from the input. It is empty exactly when every part is empty. |
| Text.NonEmptyPush | scrape.js:13 | Filtering after a push keeps the pushed part exactly when it is not empty. |
| Text.JoinEmpty | scrape.js:15 | Joining parts that are all non-empty gives `""` only for no parts. |
| Text.ToLower | scrape.js:94 | Lower-casing keeps the length and maps each character on its own. |
| Text.LastIndexOf | scrape.js:97 | `lastIndexOf` is -1 or an index where the needle occurs, and the needle occurs at no later index. |
| Text.Contains | scrape.js:161 | `includes` holds exactly when the needle occurs at some index. |
| Text.Before | scrape.js:26 | `split('T')[0]` is a prefix with no `T`, followed in the input by a `T` whenever it is shorter. |
| Text.Prefix | scrape.js:195 | `substring(0, n)` is a prefix of length `min(n, len)`. |
| Text.Decimal | background.js:91 | The decimal text of a status is digits only, with no leading zero. |
| Text.DecimalRoundTrip | background.js:91 | Reading back the decimal text gives the number, so different numbers render differently. |
| Json.LookupFirst | scrape.js:121 | A property read finds a value exactly when some field has the key. That value is the first such field's. |
| Json.Field | scrape.js:121 | Only an object has own properties; a read on anything else is `undefined`. |
| Json.Truthy | scrape.js:44 | Definition of JavaScript truthiness: `null`, `false`, `0` and `""` are falsy; every array and object is truthy. |
| Json.ToJsString | background.js:35 | Definition of `String(v)`: an array shows its elements joined by `,` with `null` as `""`, and an object shows as `[object Object]`. It is used by `Background.BlankFallsBack` and `Background.ObjectWins`. |
| Json.Or | scrape.js:44 | `a \|\| b` is `a` when `a` is present and truthy, and `b` in every other case. |
| JsonLd.ItemTexts | scrape.js:7 | `obj.map(flattenToText)`: one flattened text per element, in order. |
| JsonLd.FieldTexts | scrape.js:10-13 | The object loop flattens each field in order, and a skipped key contributes `""`. |
| JsonLd.Flatten | scrape.js:4-18 | `flattenToText` never returns text with white space at either end. |
| JsonLd.FlattenIdempotent | scrape.js:5-6 | Flattening an already-flat string gives it back. |
| JsonLd.FlattenArrayEmpty | scrape.js:7 | An array flattens to `""` exactly when every element does, so no empty segment is joined. |
| JsonLd.JoinPush | scrape.js:13-15 | `join` after `push` appends the separator and the new part, with no separator before the first part. |
| JsonLd.FlattenObjectPush | scrape.js:8-16 | Each further field of an object adds nothing when its key is skipped or its text is empty. Otherwise it appends its text after one space, with no space when it is the first part. |
| JsonLd.DatePart | scrape.js:26-27 | The date is null exactly when the text before the first `T` is empty. Otherwise it is that non-empty, `T`-free prefix. |
| JsonLd.ExtractDatePosted | scrape.js:26 | The date is null exactly when the text of the flattened `datePosted` before its first `T` is empty; otherwise it is exactly that text. So an empty value gives null, and a date is non-empty and has no `T`. |
| JsonLd.ExtractDateClosing | scrape.js:27 | The same rule for `validThrough`. |
| JsonLd.ExtractDescription | scrape.js:29-37 | The flattened description is returned as it is unless it contains `<`, in which case the rendered text is returned. |
| JsonLd.CurrencySymbol | scrape.js:50 | GBP, USD and EUR map to £, $ and €; any other code is used raw. |
| JsonLd.Merged | scrape.js:44-45 | A merged field is the root's own field or the nested `value` object's field of that name. |
| JsonLd.MergedNested | scrape.js:44-45 | In `{...root, ...val}` a field of the nested `value` object shadows the root's. |
| JsonLd.MergedOwn | scrape.js:44-45 | A key the nested object lacks, or that has no nested object, is read from the root. |
| JsonLd.ExtractSalary | scrape.js:39-40 | The salary is null exactly when `baseSalary` is absent or falsy, and never `""` then. |
| JsonLd.SalaryCases | scrape.js:41-54 | A scalar gives its flattened text. Otherwise: both bounds truthy give `sym min - sym max unit`, only the lower one gives `sym min unit`, and neither gives the flattened object. |
| JsonLd.SalaryMin | scrape.js:46 | The lower bound is the merged `minValue` when truthy, and the merged `value` otherwise. |
| JsonLd.SalarySymbol | scrape.js:48-50 | With no truthy currency the symbol is £. Otherwise it is the table entry for the currency's text. |
| JsonLd.SalaryUnit | scrape.js:49 | The unit is `""` when `unitText` is falsy, and its text otherwise. |
| JsonLd.SalaryRangeExample | scrape.js:52 | A nested range in GBP per YEAR formats as `£1000 - £2000 YEAR`. |
| JsonLd.SalaryMinimumExample | scrape.js:53 | A lower bound alone in USD with no unit formats as `$50000 ` (trailing space kept). |
| JsonLd.ZeroBoundExample | scrape.js:44-52 | A `0` lower bound is falsy, so `flat.value` (the nested object itself) becomes the lower bound: `£[object Object] - £10 `. |
| JsonLd.FindPosting | scrape.js:123 | `find` returns an element of the graph whose `@type` is `JobPosting`. |
| JsonLd.FindPostingFirst | scrape.js:123 | `find` returns the first posting of the graph, provided every element before it is neither a posting nor `null`. It returns nothing exactly when there is no such posting: a `null` before the first posting throws. |
| JsonLd.FromBlock | scrape.js:119-126 | A block that is itself a posting is returned. Otherwise an `@graph` array gives its first posting as `FindPosting` finds it, and any other block gives nothing. A result always has `@type` `JobPosting`. |
| JsonLd.FirstPosting | scrape.js:116-129 | The chosen posting is the contribution of the first block that contributes one, and every earlier block contributes nothing. There is none exactly when no block contributes one. |
| JsonLd.SelectJobPosting | scrape.js:116-129 | The scan over the blocks returns `FirstPosting`: the first block's contribution, in block order. |
| JobStore.Storage.SaveJob | background.js:133-140 | The stored queue (empty when absent) gets `queue[id] = job`. Every other key keeps its job, and the statistics are untouched. |
| JobStore.Storage.Clear | popup.js:265-267 | Clearing writes an empty queue and keeps the statistics. |
| Scrape.Candidates | scrape.js:61-62 | One candidate per selector, in order, present exactly when the selector matches. |
| Scrape.FirstNonBlank | scrape.js:60-66 | `pick` is trimmed. It is `""` exactly when every candidate is blank, and otherwise the trimmed text of the first candidate that is not blank. |
| Scrape.FirstNonBlankAppend | scrape.js:61-63 | Selectors after the winner are never consulted; after all-blank selectors the rest decide. |
| Scrape.Pick | scrape.js:60-66 | The loop with early return computes `FirstNonBlank`. |
| Scrape.ScrapeIndeedDom | scrape.js:69-77 | The Indeed tier picks each field inside the job pane (or the document), and each field is trimmed. |
| Scrape.ScrapeLinkedInDom | scrape.js:79-86 | The LinkedIn tier picks each field from its selectors, and each field is trimmed. |
| Scrape.IndeedRoot | scrape.js:70 | The Indeed queries run inside the job pane when the page has one, and over the whole document otherwise. |
| Scrape.GenericText | scrape.js:90 | The generic description is the first container with text, and the body text when no container has any. |
| Scrape.Cut | scrape.js:97-102 | One step either leaves the text alone or, when the phrase's last index lies past 70% of the current length, gives the trimmed text before that index. |
| Scrape.CutAll | scrape.js:96-103 | Definition of the slicer over a list of phrases, in order. Its properties are the lemmas below. |
| Scrape.Denoised | scrape.js:93-103 | Definition of the generic description after the four stop phrases. Its properties are `DenoisedPiece`, `DenoisedLatePhrase` and `DenoisedLonePhrase`. |
| Scrape.CutShrinks | scrape.js:99-101 | One cut keeps a contiguous piece of the text and never lengthens it. |
| Scrape.CutAllShrinks | scrape.js:96-103 | The slicer returns a contiguous piece of its input, never longer. |
| Scrape.CutAllKeepsEarlyPhrases | scrape.js:96-103 | When no phrase's last occurrence lies past 70% of the text, nothing is cut. |
| Scrape.CutAllLatePhrase | scrape.js:96-103 | When one phrase last occurs past 70% of the text, the phrases before it lie in the first 70% of the text and the phrases after it in the first 70% of the cut text, the slicer returns the trimmed text before that occurrence. |
| Scrape.DenoisedPiece | scrape.js:93-103 | The generic description after the four stop phrases is a piece of the raw text, and kept whole when no phrase is late. |
| Scrape.DenoisedLatePhrase | scrape.js:93-103 | A text with a stop phrase in its bottom 30%, the earlier phrases in the first 70% of the text and the later ones in the first 70% of the cut text, is cut just before that phrase's last occurrence and trimmed. |
| Scrape.DenoisedLonePhrase | scrape.js:93-103 | A text whose only stop phrase lies in its bottom 30% is cut just before the phrase's last occurrence and trimmed. |
| Scrape.Slice | scrape.js:94-103 | The loop computes `CutAll`. It searches the text lower-cased once, before any cut, and compares with 70% of the current length. |
| Scrape.ScrapeGenericDom | scrape.js:89-111 | The generic tier picks the description container or falls back to the body text, then slices it. |
| Scrape.FamilyOf | scrape.js:161-178 | The strategy is Indeed iff the host contains "indeed"; LinkedIn iff it does not but contains "linkedin"; generic otherwise. |
| Scrape.ChooseDescription | scrape.js:165-186 | On curated hosts the DOM description wins iff it is strictly longer. On the generic ones it wins iff it is longer than 500 characters. |
| Scrape.CuratedPicksLonger | scrape.js:165-174 | On curated hosts the chosen description has the larger length and is one of the two texts. |
| Scrape.FillText | scrape.js:190-192 | A non-empty baseline field is kept; an empty one takes the DOM text. |
| Scrape.FillCompany | scrape.js:191 | A non-empty company is kept. A null or empty one takes non-empty DOM text, and is left as it was otherwise. |
| Scrape.Capped | scrape.js:195 | A description over 25000 characters becomes exactly its first 25000. A shorter one is unchanged. |
| Scrape.BaselineTitle | scrape.js:145 | The title is the flattened JSON-LD title when it is non-empty, else a non-empty `og:title`, else the document title. |
| Scrape.BaselineCompany | scrape.js:146 | The company is the flattened `hiringOrganization` when it is non-empty, and the `og:site_name` value (possibly null) otherwise. |
| Scrape.PagePosting | scrape.js:141 | The posting is the one `getJsonLd` finds, and `{}` when there is none. |
| Scrape.Baseline | scrape.js:141-154 | Definition of the baseline record from the first JSON-LD posting (or `{}`) and the meta tags. `ScrapeBaseline` computes it. |
| Scrape.Enhanced | scrape.js:158-195 | Definition of the baseline after the description rule, the gap fill and the cap. Its properties are `ScrapedDescription` and `ScrapedKeepsBaseline`. |
| Scrape.Scraped | scrape.js:139-198 | Definition of what `scrapePage` returns for a page. `ScrapePage` computes it. |
| Scrape.ScrapeBaseline | scrape.js:141-154 | The baseline record comes from the first JSON-LD posting (or `{}`) and the meta tags. |
| Scrape.DomStrategy | scrape.js:158-187 | The host's tier runs and its description rule is applied. |
| Scrape.ScrapePage | scrape.js:139-198 | `scrapePage` returns the baseline after the description rule, the gap fill and the cap. |
| Scrape.ScrapedDescription | scrape.js:165-195 | The description sent is the text the strategy's rule chooses, cut to its first 25000 characters when longer. So it has at most 25000 characters and is a prefix of the baseline's or of the tier's text. |
| Scrape.ScrapedKeepsBaseline | scrape.js:144-192 | Salary, dates, URL and extraction date are unchanged. A title, company or location changes only when the baseline has none. |
| Scrape.IndeedFirst | scrape.js:161-169 | A host naming both sites uses the Indeed strategy. |
| Scrape.ScrapeAndSend | scrape.js:203-213 | A message is sent iff the description has at least 50 characters, and it carries the scraped record. |
| Background.Usable | background.js:35 | A value is usable exactly when it is truthy and its string form is not all white space. |
| Background.Prefer | background.js:34-37 | `pick` returns the service's value iff it is truthy and not blank as a string; otherwise the scraped value. |
| Background.NullableValue | background.js:100 | A scraped value is `null` exactly when it is absent. |
| Background.ParsedFrom | background.js:98-116 | Each of title, company, location, salary range, both dates and the extraction date is `Prefer` of the service's field and the scraped value. `features` is the service's value when truthy, else `[]`. The descriptions and the job URL pass through from the scrape, and `_meta` is the service's. |
| Background.FalsyFallsBack | background.js:35 | Absent, `null`, `0` and `""` answers fall back to the scraped value. |
| Background.BlankFallsBack | background.js:35 | `"   "`, `[]` and `[null]` fall back too, although they are truthy. |
| Background.StringWins | background.js:35 | A non-empty string with no white space at either end wins. |
| Background.ObjectWins | background.js:35 | Any object wins, since it shows as `[object Object]`. |
| Background.ParsedFeatures | background.js:113 | `features` is always truthy. A truthy answer is kept as it is, and `[]` is used when the service sends none. |
| Background.EmptyAnswerKeepsScrape | background.js:98-116 | An empty answer keeps every scraped value, with no `_meta`. |
| Background.NewJob | background.js:52-60 | A new job is parsing, has no result and no error, and carries the scraped description as its text. |
| Background.ServerError | background.js:91 | The message is `Server Error: ` followed by the status's decimal digits, which read back as the status. |
| Background.ServerErrorsDiffer | background.js:90-92 | Different statuses give different server-error messages. |
| Background.Failure | background.js:81-94 | A reply fails unless the fetch succeeded with a 2xx status and a parsable, non-null body. A fetch failure gives its own message. A non-2xx status gives `ServerError(status)`. An unparsable body gives the parser's message, and a `null` body the TypeError of reading `.title`. |
| Background.ParseOutcome | background.js:90-125 | The job ends in review with the merged result iff the reply does not fail. Otherwise it ends in error with the failure's message and its result unchanged. The id, text, scrape and timestamp never change. |
| Background.OutcomeConsistent | background.js:52-125 | A fresh job ends with a result exactly when in review, and with a message exactly when in error. |
| Background.StatusErrorExample | background.js:90-92 | A 503 reply records `Server Error: 503`. |
| Background.Orchestrator.constructor | background.js:10 | The worker starts with no keep-alive timers. |
| Background.Orchestrator.KeepAliveForJob | background.js:12-22 | Adds `id` to the registry, idempotently. |
| Background.Orchestrator.ReleaseKeepAlive | background.js:24-30 | Removes only `id`, and is a no-op when it is absent. |
| Background.Orchestrator.ParseJob | background.js:73-130 | Stores the outcome under the job's id and releases its timer whatever the reply. |
| Background.Orchestrator.HandleNewScrape | background.js:48-70 | The new job ends reviewed or in error, stored under its id, and with no timer left. |
| Popup.RowFeature | popup.js:293-297 | A row's feature keeps the row's type and its trimmed text. The text is empty exactly when the row is blank. |
| Popup.KeptRow | popup.js:294 | A row contributes nothing exactly when it is blank. |
| Popup.KeptFeatures | popup.js:292-298 | No more features than rows. |
| Popup.KeptFeaturesClean | popup.js:293-296 | Every feature sent has a non-empty, trimmed description. |
| Popup.KeptFeaturesFromRows | popup.js:292-298 | Every feature sent is the feature of one of the rows. |
| Popup.KeptFeaturesAppend | popup.js:292-298 | Filtering distributes over concatenation, so row order is kept. |
| Popup.KeptFeaturesPush | popup.js:293-297 | One more row adds its feature exactly when it is not blank. |
| Popup.KeptFeaturesNone | popup.js:292-298 | No feature is sent exactly when every row is blank. |
| Popup.KeptFeaturesOne | popup.js:293-297 | A single row gives its feature, or nothing when blank. |
| Popup.CollectFeatures | popup.js:292-298 | The `forEach` loop computes `KeptFeatures`. |
| Popup.OrNull | popup.js:282-283 | `value \|\| null` is null exactly for an empty input, and the input otherwise. |
| Popup.PayloadFor | popup.js:275-298 | Title, company, location, salary, URL and extraction date are the editor's values. Empty dates become null and others are sent as typed. The descriptions come from the parse result, and the features are the kept rows. |
| Popup.DescriptionsIgnoreEditor | popup.js:286-287 | What is typed in the editor never changes the descriptions sent. |
| Popup.UpsertError | popup.js:308-311 | No error iff the reply is 2xx. 401 means the session expired, any other status gives `Backend Error <status>`, and a network failure gives its own message. |
| Popup.UpsertErrorsDiffer | popup.js:308-311 | Different failing statuses give different messages. |
| Popup.Recorded | popup.js:323-326 | One more duration increments the count and keeps `avg * count` equal to the old total plus the duration. |
| Popup.RecordAllTotal | popup.js:321-327 | After any sequence of durations, `avg * count` is the starting total plus their sum. |
| Popup.RecordedMean | popup.js:316-327 | From the default statistics the estimate is the exact mean of the durations recorded. |
| Popup.RecordedExample | popup.js:323-326 | `{0, 60}` then 120 s gives `{1, 120}`, then 60 s gives `{2, 90}`. |
| Popup.Duration | popup.js:321-322 | A duration is recorded exactly when `_meta` has a non-zero number as `generation_time_sec`, and it is that number. |
| Popup.StatsAfter | popup.js:321-327 | With no duration the statistics are written back unchanged. Otherwise one duration is recorded. |
| Popup.SavedWrite | popup.js:314-331 | Nothing is written unless the stored queue holds the job. Otherwise only that job is marked saved, every other job is unchanged, and the statistics are updated. |
| Popup.SavedWriteConsistent | popup.js:318-319 | A reviewed, consistent job is found and stays consistent once saved. |
| Popup.SendToBackend | popup.js:272-332 | A job with no parse result throws before posting. A failed reply throws its message and leaves the store unchanged. Success performs the saved write. |
| Popup.MarkSaved | popup.js:314-331 | The storage callback performs `SavedWrite`. |
| Popup.InsertByAge | popup.js:91 | An insertion adds exactly one job. |
| Popup.NewestFirst | popup.js:91 | The list has as many jobs as the queue. Its order, permutation and stability are the lemmas below. |
| Popup.NoneNewerThanHead | popup.js:91 | A newest-first list has no job newer than its head. |
| Popup.InsertByAgeOrder | popup.js:91 | Inserting into a newest-first list keeps it newest first. |
| Popup.InsertByAgeMultiset | popup.js:91 | Insertion adds exactly the new job. |
| Popup.InsertByAgeStable | popup.js:91 | The inserted job goes after every job created at the same time. |
| Popup.NewestFirstOrdered | popup.js:91 | The queue list is sorted newest `created_at` first. |
| Popup.NewestFirstPermutes | popup.js:91 | The list holds exactly the stored jobs. |
| Popup.NewestFirstStable | popup.js:91 | Jobs created at the same time keep their stored order, as the stable `sort` does. |
| Popup.NewestFirstSorts | popup.js:91 | The list is sorted newest first, is a permutation of the stored jobs, and is stable. |
| Popup.DisplayWhileParsing | popup.js:107-108 | A parsing job shows its scraped title and company, or the placeholders. |
| Popup.DisplayCompany | popup.js:107 | A truthy parsed company is shown as text. Otherwise a non-empty scraped company is shown, and otherwise the placeholder. |
| Popup.DisplayTitle | popup.js:108 | The same fallbacks for the title. |
| Popup.DisplayAfterParse | popup.js:108 | A parsed job shows the service's title when usable, else the scraped one, else the placeholder. |
| Popup.DisplayCompanyAfterParse | popup.js:107 | A parsed job shows the service's company when usable, else the scraped one, else the placeholder. |

## Left out

- DOM access is not modelled. `querySelector`/`innerText` results are the `Dom` maps
  of a `Page`. The HTML rendering of `extractDescription` is the `renderedDescription`
  parameter.
- `getMeta`, `document.title` and `window.location` are also `Page` fields.
- `JSON.parse` is not modelled: script blocks arrive already parsed, None where parsing
  throws.
- Object fields are taken in their given order. JavaScript puts integer-like keys
  first in `for...in`. Fields are also assumed to have distinct keys, as `JSON.parse`
  produces them.
- `fetch`, the `AbortController` timeout and the `getPlatformInfo` ping are not
  modelled. Replies are `ParseReply`/`UpsertReply` values. Timers are the ids in
  `lifelines`.
- `chrome.storage` callbacks, their interleavings and the lost-update race are not
  modelled. Each read-modify-write is one sequential step, so
  `Background.Orchestrator.HandleNewScrape` shows no intermediate state to the popup.
- `crypto.randomUUID`, `Date.now` and `toISOString` are parameters.
- Strings are sequences of code points, not UTF-16 units. `length`, `substring` and the
  25000 and 500 limits count code points.
- Text.ToLower: only ASCII letters are lower-cased; JavaScript's full Unicode case mapping is not modelled.
- Scrape.Cut: the 70% threshold is exact (`10·idx > 7·len`). The double-precision
  product `len * 0.7` can differ at the boundary; for example `90 * 0.7` is
  `62.99999999999999`.
- Number-to-string formatting is not modelled: `Num` carries the text `String(n)`
  shows.
- JSON has no `toString`/`valueOf` overrides. A currency code that names an
  `Object.prototype` member (`"constructor"`) would read a function from the symbol
  table; it is treated as a raw code.
- Popup.Duration: a truthy `generation_time_sec` that is not a number counts as absent.
  In the source `true` is added as 1. A string is concatenated to the product and the
  division turns the result back into a number: with an average of 60, a count of 1
  and `"30"`, the new average is `"6030" / 2`, that is 3015.
- Popup.Recorded: averages use exact `real` arithmetic, not doubles.
- Popup.SavedWrite: when the store has no `job_queue`, the callback in the source reads a
  property of `undefined` and throws a TypeError. The model writes nothing in that case,
  and the exception is not modelled.
- `Object.values` order is taken as the given sequence of jobs.
- The following are not modelled:
  - the progress bar;
  - login and auth polling;
  - view toggling;
  - card and editor rendering;
  - `openEditor`;
  - `triggerScrape` and its script injection;
  - the message listeners;
  - `showOverlay`;
  - the `alert`s;
  - `console` logging.
- The thrown error of `sendToBackend` is returned as a value. Nothing above it in the
  popup is modelled.
