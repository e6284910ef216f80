/**
 * The popup: the upsert payload and its feature rows, the error messages of the
 * upsert, the saved-status write with the rolling parse-time estimate, and the order
 * and labels of the queue list.
 *
 * The editor's input values, the feature rows on screen and what the upsert `fetch`
 * yields are parameters.
 */
module Popup {
  import opened Wrappers
  import opened Text
  import opened Json
  import opened JobStore
  import Background

  /* ---------------- the payload ---------------- */

  /** One row of the feature editor: the selected type and the raw text of its input. */
  datatype FeatureRow = FeatureRow(kind: string, text: string)

  /** One entry of `payload.features`. */
  datatype Feature = Feature(kind: string, description: string)

  /** A row whose text is only white space. */
  predicate BlankRow(row: FeatureRow) {
    Trim(row.text) == ""
  }

  /** The feature a row stands for: its type and its trimmed text. */
  function RowFeature(row: FeatureRow): (f: Feature)
    ensures f.kind == row.kind && Trimmed(f.description)
    ensures f.description == "" <==> BlankRow(row)
  {
    Feature(row.kind, Trim(row.text))
  }

  /** What one row contributes: its feature, or nothing when it is blank. */
  function KeptRow(row: FeatureRow): (r: seq<Feature>)
    ensures r == [] <==> BlankRow(row)
  {
    if BlankRow(row) then [] else [RowFeature(row)]
  }

  /** The rows that are not blank, in row order, each as its feature. */
  function KeptFeatures(rows: seq<FeatureRow>): (r: seq<Feature>)
    ensures |r| <= |rows|
    decreases |rows|
  {
    if |rows| == 0 then []
    else
      var last := rows[|rows| - 1];
      KeptFeatures(rows[..|rows| - 1]) + KeptRow(last)
  }

  /** Every kept feature has a non-empty trimmed description. */
  lemma {:induction false} KeptFeaturesClean(rows: seq<FeatureRow>)
    ensures forall k :: 0 <= k < |KeptFeatures(rows)| ==>
      KeptFeatures(rows)[k].description != "" && Trimmed(KeptFeatures(rows)[k].description)
    decreases |rows|
  {
    if |rows| > 0 {
      KeptFeaturesClean(rows[..|rows| - 1]);
    }
  }

  /** `f` is the feature of one of `rows`. */
  ghost predicate FromSomeRow(f: Feature, rows: seq<FeatureRow>) {
    exists i :: 0 <= i < |rows| && f == RowFeature(rows[i])
  }

  /** Every kept feature is the feature of some row. */
  lemma {:induction false} KeptFeaturesFromRows(rows: seq<FeatureRow>)
    ensures forall k :: 0 <= k < |KeptFeatures(rows)| ==> FromSomeRow(KeptFeatures(rows)[k], rows)
    decreases |rows|
  {
    if |rows| > 0 {
      var init, last := rows[..|rows| - 1], rows[|rows| - 1];
      assert rows == init + [last];
      KeptFeaturesFromRows(init);
      KeptFeaturesPush(init, last);
      FromSomeRowPush(KeptFeatures(init), KeptRow(last), init, last);
    }
  }

  /** Features of rows stay features of those rows when one more row and at most its feature are added. */
  lemma FromSomeRowPush(kept: seq<Feature>, tail: seq<Feature>, init: seq<FeatureRow>, last: FeatureRow)
    requires forall k :: 0 <= k < |kept| ==> FromSomeRow(kept[k], init)
    requires tail == [] || tail == [RowFeature(last)]
    ensures forall k :: 0 <= k < |kept + tail| ==> FromSomeRow((kept + tail)[k], init + [last])
  {
    var rows := init + [last];
    forall k | 0 <= k < |kept + tail|
      ensures FromSomeRow((kept + tail)[k], rows)
    {
      if k < |kept| {
        var i :| 0 <= i < |init| && kept[k] == RowFeature(init[i]);
        assert rows[i] == init[i];
      } else {
        assert rows[|init|] == last;
      }
    }
  }

  /** Filtering rows distributes over putting two lists of rows together. */
  lemma {:induction false} KeptFeaturesAppend(a: seq<FeatureRow>, b: seq<FeatureRow>)
    ensures KeptFeatures(a + b) == KeptFeatures(a) + KeptFeatures(b)
    decreases |b|
  {
    if |b| == 0 {
      assert a + b == a;
    } else {
      var b', last := b[..|b| - 1], b[|b| - 1];
      assert a + b == (a + b') + [last];
      assert b == b' + [last];
      KeptFeaturesPush(a + b', last);
      KeptFeaturesAppend(a, b');
      KeptFeaturesPush(b', last);
      ConcatAssoc(KeptFeatures(a), KeptFeatures(b'), KeptRow(last));
    }
  }

  /** Concatenation of feature lists is associative. */
  lemma ConcatAssoc(x: seq<Feature>, y: seq<Feature>, z: seq<Feature>)
    ensures x + y + z == x + (y + z)
  {
  }

  /** Adding one row at the end adds its feature exactly when it is not blank. */
  lemma KeptFeaturesPush(rows: seq<FeatureRow>, row: FeatureRow)
    ensures KeptFeatures(rows + [row]) == KeptFeatures(rows) + KeptRow(row)
  {
    assert (rows + [row])[..|rows|] == rows;
  }

  /** No feature is sent exactly when every row is blank. */
  lemma {:induction false} KeptFeaturesNone(rows: seq<FeatureRow>)
    ensures KeptFeatures(rows) == [] <==> forall i :: 0 <= i < |rows| ==> BlankRow(rows[i])
    decreases |rows|
  {
    if |rows| > 0 {
      var init, last := rows[..|rows| - 1], rows[|rows| - 1];
      assert rows == init + [last];
      KeptFeaturesPush(init, last);
      KeptFeaturesNone(init);
      AllBlankPush(init, last);
    }
  }

  /** All rows of a list with one more row are blank exactly when the old ones and the new one are. */
  lemma AllBlankPush(init: seq<FeatureRow>, last: FeatureRow)
    ensures (forall i :: 0 <= i < |init + [last]| ==> BlankRow((init + [last])[i])) <==>
      (forall i :: 0 <= i < |init| ==> BlankRow(init[i])) && BlankRow(last)
  {
    var rows := init + [last];
    assert rows[|init|] == last;
    assert forall i :: 0 <= i < |init| ==> rows[i] == init[i];
  }

  /** A row with text keeps its type and its trimmed text; a blank row adds nothing. */
  lemma KeptFeaturesOne(row: FeatureRow)
    ensures KeptFeatures([row]) == if BlankRow(row) then [] else [RowFeature(row)]
  {
    assert [row][..0] == [];
  }

  /** The `forEach` over `.feature-row`: push each row whose trimmed text is not empty. */
  method CollectFeatures(rows: seq<FeatureRow>) returns (features: seq<Feature>)
    ensures features == KeptFeatures(rows)
  {
    features := [];
    for i := 0 to |rows|
      invariant features == KeptFeatures(rows[..i])
    {
      assert rows[..i + 1][..i] == rows[..i];
      var val := Trim(rows[i].text);
      if val != "" {
        features := features + [Feature(rows[i].kind, val)];
      }
      assert features == KeptFeatures(rows[..i]) + KeptRow(rows[i]);
    }
    assert rows[..|rows|] == rows;
  }

  /** The values of the editor's inputs at the time of saving. */
  datatype Editor = Editor(
    title: string,
    company: string,
    location: string,
    salary: string,
    url: string,
    datePosted: string,
    dateClosing: string,
    dateExtracted: string)

  /** The body of the upsert request. */
  datatype Payload = Payload(
    title: string,
    company: string,
    location: string,
    salaryRange: string,
    jobUrl: string,
    datePosted: Option<string>,
    dateClosing: Option<string>,
    dateExtracted: string,
    description: string,
    displayedDescription: Option<string>,
    features: seq<Feature>)

  /** `value || null` for an input value. */
  function OrNull(v: string): (r: Option<string>)
    ensures r.None? <==> v == ""
    ensures r.Some? ==> r.value == v
  {
    if v != "" then Some(v) else None
  }

  /** The payload for a job whose parse result is `original`. */
  function PayloadFor(original: ParsedResult, editor: Editor, rows: seq<FeatureRow>): (p: Payload)
    ensures p.title == editor.title && p.company == editor.company && p.location == editor.location
    ensures p.salaryRange == editor.salary && p.jobUrl == editor.url && p.dateExtracted == editor.dateExtracted
    ensures p.description == original.description
    ensures p.displayedDescription == original.displayedDescription
    ensures p.datePosted.None? <==> editor.datePosted == ""
    ensures p.dateClosing.None? <==> editor.dateClosing == ""
    ensures p.datePosted.Some? ==> p.datePosted.value == editor.datePosted
    ensures p.dateClosing.Some? ==> p.dateClosing.value == editor.dateClosing
    ensures p.features == KeptFeatures(rows)
  {
    Payload(
      editor.title, editor.company, editor.location, editor.salary, editor.url,
      OrNull(editor.datePosted), OrNull(editor.dateClosing), editor.dateExtracted,
      original.description, original.displayedDescription,
      KeptFeatures(rows))
  }

  /** The descriptions sent never depend on what was typed into the editor. */
  lemma DescriptionsIgnoreEditor(original: ParsedResult, e1: Editor, e2: Editor, rows: seq<FeatureRow>)
    ensures PayloadFor(original, e1, rows).description == PayloadFor(original, e2, rows).description
    ensures PayloadFor(original, e1, rows).displayedDescription == PayloadFor(original, e2, rows).displayedDescription
  {
  }

  /* ---------------- the upsert reply ---------------- */

  /** What the POST to the upsert endpoint yields. */
  datatype UpsertReply =
    | UpsertUnreachable(message: string)
    | UpsertAnswered(status: nat)

  const SessionExpired := "Session expired. Please re-login."

  /** The message `sendToBackend` throws for a reply, None when the save went through. */
  function UpsertError(reply: UpsertReply): (r: Option<string>)
    ensures r.None? <==> reply.UpsertAnswered? && Ok(reply.status)
    ensures reply.UpsertAnswered? && reply.status == 401 ==> r == Some(SessionExpired)
    ensures reply.UpsertAnswered? && !Ok(reply.status) && reply.status != 401 ==>
      r == Some("Backend Error " + Decimal(reply.status))
    ensures reply.UpsertUnreachable? ==> r == Some(reply.message)
  {
    match reply
    case UpsertUnreachable(m) => Some(m)
    case UpsertAnswered(status) =>
      if Ok(status) then None
      else if status == 401 then Some(SessionExpired)
      else Some("Backend Error " + Decimal(status))
  }

  /** A rejected session reads differently from every other backend error, and those differ by status. */
  lemma UpsertErrorsDiffer(a: nat, b: nat)
    requires !Ok(a) && !Ok(b) && a != b
    ensures UpsertError(UpsertAnswered(a)) != UpsertError(UpsertAnswered(b))
  {
    var p := "Backend Error ";
    if a != 401 && b != 401 {
      if p + Decimal(a) == p + Decimal(b) {
        assert Decimal(a) == (p + Decimal(a))[|p|..];
        assert Decimal(b) == (p + Decimal(b))[|p|..];
        DecimalRoundTrip(a);
        DecimalRoundTrip(b);
      }
    } else if a == 401 {
      assert (p + Decimal(b))[0] != SessionExpired[0];
    } else {
      assert (p + Decimal(a))[0] != SessionExpired[0];
    }
  }

  /* ---------------- the rolling estimate ---------------- */

  /** The statistics after one more parse that took `d` seconds. */
  function Recorded(s: Stats, d: real): (r: Stats)
    ensures r.count == s.count + 1
    ensures r.avgTimeSec * r.count as real == s.avgTimeSec * s.count as real + d
  {
    var n := s.count;
    Stats(n + 1, (s.avgTimeSec * n as real + d) / (n + 1) as real)
  }

  /** The statistics after recording each of `ds` in turn. */
  function RecordAll(s: Stats, ds: seq<real>): Stats
    decreases |ds|
  {
    if |ds| == 0 then s else Recorded(RecordAll(s, ds[..|ds| - 1]), ds[|ds| - 1])
  }

  function Sum(ds: seq<real>): real
    decreases |ds|
  {
    if |ds| == 0 then 0.0 else Sum(ds[..|ds| - 1]) + ds[|ds| - 1]
  }

  /** Recording keeps `avg * count` equal to the starting total plus every duration recorded. */
  lemma {:induction false} RecordAllTotal(s: Stats, ds: seq<real>)
    ensures RecordAll(s, ds).count == s.count + |ds|
    ensures RecordAll(s, ds).avgTimeSec * (s.count + |ds|) as real == s.avgTimeSec * s.count as real + Sum(ds)
    decreases |ds|
  {
    if |ds| > 0 {
      RecordAllTotal(s, ds[..|ds| - 1]);
    }
  }

  /** From the default statistics the estimate is the mean of the durations recorded; the default 60 s drops out. */
  lemma RecordedMean(ds: seq<real>)
    requires |ds| > 0
    ensures RecordAll(DefaultStats, ds).count == |ds|
    ensures RecordAll(DefaultStats, ds).avgTimeSec == Sum(ds) / |ds| as real
  {
    RecordAllTotal(DefaultStats, ds);
  }

  /** `{count: 0, avg: 60}`, then 120 s gives `{1, 120}`, then 60 s gives `{2, 90}`. */
  lemma RecordedExample()
    ensures Recorded(DefaultStats, 120.0) == Stats(1, 120.0)
    ensures Recorded(Stats(1, 120.0), 60.0) == Stats(2, 90.0)
  {
  }

  /**
   * The generation time recorded for a stored parse result: present exactly when the
   * result's `_meta` has a `generation_time_sec` that is a non-zero number.
   */
  function Duration(parsed: Option<ParsedResult>): (d: Option<real>)
    ensures d.Some? ==> parsed.Some? && parsed.value.meta.Some?
    ensures d.Some? ==> d.value != 0.0
    ensures parsed.Some? && parsed.value.meta.Some? ==>
      var g := Field(parsed.value.meta.value, "generation_time_sec");
      && (d.Some? <==> g.Some? && g.value.Num? && g.value.value != 0.0)
      && (d.Some? ==> d.value == g.value.value)
  {
    if parsed.None? || parsed.value.meta.None? then None
    else
      var meta := parsed.value.meta.value;
      if !Truthy(meta) then None
      else match Field(meta, "generation_time_sec")
        case Some(Num(v, _)) => if v != 0.0 then Some(v) else None
        case _ => None
  }

  /** The statistics written back: one more duration recorded, or the same as read when there is none. */
  function StatsAfter(s: Stats, d: Option<real>): (r: Stats)
    ensures d.None? ==> r == s
    ensures d.Some? ==> r.count == s.count + 1 && r.avgTimeSec * r.count as real == s.avgTimeSec * s.count as real + d.value
  {
    if d.Some? then Recorded(s, d.value) else s
  }

  /* ---------------- the saved-status write ---------------- */

  /** What the storage callback writes back. */
  datatype Snapshot = Snapshot(queue: map<string, Job>, stats: Stats)

  /**
   * The write after a successful upsert of `id`: nothing when the stored queue is absent
   * or lacks the job; otherwise that job marked saved and the statistics after its duration.
   */
  function SavedWrite(queue: Option<map<string, Job>>, stats: Option<Stats>, id: string): (r: Option<Snapshot>)
    ensures r.Some? <==> queue.Some? && id in queue.value
    ensures r.Some? ==> r.value.queue.Keys == queue.value.Keys
    ensures r.Some? ==> r.value.queue[id] == queue.value[id].(status := Saved)
    ensures r.Some? ==> forall other :: other in queue.value && other != id ==> r.value.queue[other] == queue.value[other]
    ensures r.Some? ==> r.value.stats == StatsAfter(stats.GetOr(DefaultStats), Duration(queue.value[id].parsedResult))
  {
    if queue.None? || id !in queue.value then None
    else
      var q := queue.value;
      Some(Snapshot(q[id := q[id].(status := Saved)], StatsAfter(stats.GetOr(DefaultStats), Duration(q[id].parsedResult))))
  }

  /** Saving a job marks only that job; a reviewed job stays consistent once saved. */
  lemma SavedWriteConsistent(queue: map<string, Job>, stats: Option<Stats>, id: string)
    requires id in queue && Consistent(queue[id]) && queue[id].status == Review
    ensures SavedWrite(Some(queue), stats, id).Some?
    ensures Consistent(SavedWrite(Some(queue), stats, id).value.queue[id])
  {
  }

  /** The TypeError of reading `.description` of a job without a parse result. */
  const NullOriginal := "Cannot read properties of null (reading 'description')"

  /**
   * `sendToBackend`: build the payload, post it, and on success mark the stored job
   * saved and fold its parse time into the estimate. `sent` is what was posted (None
   * when the payload could not be built); `error` is the message thrown, if any.
   */
  method SendToBackend(store: Storage, job: Job, editor: Editor, rows: seq<FeatureRow>, reply: UpsertReply)
    returns (sent: Option<Payload>, error: Option<string>)
    modifies store
    ensures job.parsedResult.None? ==> sent.None? && error == Some(NullOriginal)
    ensures job.parsedResult.Some? ==> sent == Some(PayloadFor(job.parsedResult.value, editor, rows))
    ensures job.parsedResult.Some? ==> error == UpsertError(reply)
    ensures var w := SavedWrite(old(store.jobQueue), old(store.stats), job.id);
      if error.None? && w.Some? then store.jobQueue == Some(w.value.queue) && store.stats == Some(w.value.stats)
      else store.jobQueue == old(store.jobQueue) && store.stats == old(store.stats)
  {
    if job.parsedResult.None? {
      return None, Some(NullOriginal);
    }
    var original := job.parsedResult.value;
    var features := CollectFeatures(rows);
    var payload := Payload(
      editor.title, editor.company, editor.location, editor.salary, editor.url,
      OrNull(editor.datePosted), OrNull(editor.dateClosing), editor.dateExtracted,
      original.description, original.displayedDescription,
      features);
    sent := Some(payload);
    error := UpsertError(reply);
    if error.Some? {
      return;
    }
    MarkSaved(store, job.id);
  }

  /** The storage callback of `sendToBackend`: mark the job saved and record its parse time. */
  method MarkSaved(store: Storage, id: string)
    modifies store
    ensures var w := SavedWrite(old(store.jobQueue), old(store.stats), id);
      if w.Some? then store.jobQueue == Some(w.value.queue) && store.stats == Some(w.value.stats)
      else store.jobQueue == old(store.jobQueue) && store.stats == old(store.stats)
  {
    var queue := store.jobQueue;
    var stats := store.stats.GetOr(DefaultStats);
    if queue.Some? && id in queue.value {
      var q := queue.value;
      q := q[id := q[id].(status := Saved)];
      var d := Duration(queue.value[id].parsedResult);
      if d.Some? {
        var n := stats.count;
        var newAvg := (stats.avgTimeSec * n as real + d.value) / (n + 1) as real;
        stats := Stats(n + 1, newAvg);
        assert stats == Recorded(store.stats.GetOr(DefaultStats), d.value);
      }
      assert stats == StatsAfter(store.stats.GetOr(DefaultStats), d);
      assert Some(Snapshot(q, stats)) == SavedWrite(store.jobQueue, store.stats, id);
      store.jobQueue := Some(q);
      store.stats := Some(stats);
    }
  }

  /* ---------------- the queue list ---------------- */

  /** Each job is at least as new as every job after it. */
  predicate NewestFirstOrder(s: seq<Job>) {
    forall i, j :: 0 <= i < j < |s| ==> s[i].createdAt >= s[j].createdAt
  }

  /** Put `x` before the first job strictly older than it (after every job as new as it). */
  function InsertByAge(sorted: seq<Job>, x: Job): (r: seq<Job>)
    ensures |r| == |sorted| + 1
    decreases |sorted|
  {
    if |sorted| == 0 then [x]
    else if sorted[0].createdAt < x.createdAt then [x] + sorted
    else [sorted[0]] + InsertByAge(sorted[1..], x)
  }

  /**
   * The order in which the popup lists the queue: newest first by creation time. The
   * sort of JavaScript arrays is stable, so jobs created at the same time keep their
   * order. Modelled as an insertion sort; its properties are the lemmas below.
   */
  function NewestFirst(jobs: seq<Job>): (r: seq<Job>)
    ensures |r| == |jobs|
    decreases |jobs|
  {
    if |jobs| == 0 then [] else InsertByAge(NewestFirst(jobs[..|jobs| - 1]), jobs[|jobs| - 1])
  }

  /** The jobs of `s` created at time `t`, in order. */
  function CreatedAt(s: seq<Job>, t: int): seq<Job>
    decreases |s|
  {
    if |s| == 0 then [] else (if s[0].createdAt == t then [s[0]] else []) + CreatedAt(s[1..], t)
  }

  lemma {:induction false} CreatedAtAppend(a: seq<Job>, b: seq<Job>, t: int)
    ensures CreatedAt(a + b, t) == CreatedAt(a, t) + CreatedAt(b, t)
    decreases |a|
  {
    if |a| == 0 {
      assert a + b == b;
    } else {
      var head, rest := a[0], a[1..];
      assert a + b == [head] + (rest + b);
      assert a == [head] + rest;
      calc {
        CreatedAt(a + b, t);
        CreatedAt([head] + (rest + b), t);
        { CreatedAtCons(head, rest + b, t); }
        CreatedAt([head], t) + CreatedAt(rest + b, t);
        { CreatedAtAppend(rest, b, t); }
        CreatedAt([head], t) + CreatedAt(rest, t) + CreatedAt(b, t);
        { CreatedAtCons(head, rest, t); }
        CreatedAt(a, t) + CreatedAt(b, t);
      }
    }
  }

  /** No job of a newest-first list is newer than its head. */
  lemma {:induction false} NoneNewerThanHead(s: seq<Job>, t: int)
    requires NewestFirstOrder(s) && |s| > 0 && t > s[0].createdAt
    ensures CreatedAt(s, t) == []
    decreases |s|
  {
    if |s| > 1 {
      NoneNewerThanHead(s[1..], t);
    }
  }

  lemma {:induction false} InsertByAgeOrder(sorted: seq<Job>, x: Job)
    requires NewestFirstOrder(sorted)
    ensures NewestFirstOrder(InsertByAge(sorted, x))
    ensures |sorted| > 0 ==> InsertByAge(sorted, x)[0] == sorted[0] || InsertByAge(sorted, x)[0] == x
    decreases |sorted|
  {
    if |sorted| > 0 && sorted[0].createdAt >= x.createdAt {
      InsertByAgeOrder(sorted[1..], x);
    }
  }

  lemma {:induction false} InsertByAgeMultiset(sorted: seq<Job>, x: Job)
    ensures multiset(InsertByAge(sorted, x)) == multiset(sorted) + multiset{x}
    decreases |sorted|
  {
    if |sorted| > 0 && sorted[0].createdAt >= x.createdAt {
      InsertByAgeMultiset(sorted[1..], x);
      assert sorted == [sorted[0]] + sorted[1..];
    }
  }

  /** `CreatedAt` on a list with a job in front. */
  lemma CreatedAtCons(x: Job, s: seq<Job>, t: int)
    ensures CreatedAt([x] + s, t) == CreatedAt([x], t) + CreatedAt(s, t)
  {
    assert ([x] + s)[0] == x;
    assert ([x] + s)[1..] == s;
    assert [x][1..] == [];
  }

  lemma {:induction false} InsertByAgeStable(sorted: seq<Job>, x: Job, t: int)
    requires NewestFirstOrder(sorted)
    ensures CreatedAt(InsertByAge(sorted, x), t) == CreatedAt(sorted, t) + CreatedAt([x], t)
    decreases |sorted|
  {
    if |sorted| == 0 {
    } else if sorted[0].createdAt < x.createdAt {
      CreatedAtCons(x, sorted, t);
      if t == x.createdAt {
        NoneNewerThanHead(sorted, t);
      }
    } else {
      var head, rest := sorted[0], sorted[1..];
      InsertByAgeStable(rest, x, t);
      assert InsertByAge(sorted, x) == [head] + InsertByAge(rest, x);
      assert sorted == [head] + rest;
      CreatedAtCons(head, InsertByAge(rest, x), t);
      CreatedAtCons(head, rest, t);
    }
  }

  /** The queue list is newest first. */
  lemma {:induction false} NewestFirstOrdered(jobs: seq<Job>)
    ensures NewestFirstOrder(NewestFirst(jobs))
    decreases |jobs|
  {
    if |jobs| > 0 {
      var init := jobs[..|jobs| - 1];
      NewestFirstOrdered(init);
      InsertByAgeOrder(NewestFirst(init), jobs[|jobs| - 1]);
    }
  }

  /** The queue list holds exactly the stored jobs. */
  lemma {:induction false} NewestFirstPermutes(jobs: seq<Job>)
    ensures multiset(NewestFirst(jobs)) == multiset(jobs)
    decreases |jobs|
  {
    if |jobs| > 0 {
      var init, last := jobs[..|jobs| - 1], jobs[|jobs| - 1];
      NewestFirstPermutes(init);
      InsertByAgeMultiset(NewestFirst(init), last);
      assert jobs == init + [last];
    }
  }

  /** Jobs created at the same time keep their stored order in the queue list. */
  lemma {:induction false} NewestFirstStable(jobs: seq<Job>, t: int)
    ensures CreatedAt(NewestFirst(jobs), t) == CreatedAt(jobs, t)
    decreases |jobs|
  {
    if |jobs| > 0 {
      var init, last := jobs[..|jobs| - 1], jobs[|jobs| - 1];
      NewestFirstStable(init, t);
      NewestFirstOrdered(init);
      InsertByAgeStable(NewestFirst(init), last, t);
      assert jobs == init + [last];
      CreatedAtAppend(init, [last], t);
    }
  }

  /**
   * The queue list is newest first, holds exactly the stored jobs, and lists jobs
   * created at the same time in their stored order.
   */
  lemma NewestFirstSorts(jobs: seq<Job>)
    ensures NewestFirstOrder(NewestFirst(jobs))
    ensures multiset(NewestFirst(jobs)) == multiset(jobs)
    ensures forall t :: CreatedAt(NewestFirst(jobs), t) == CreatedAt(jobs, t)
  {
    NewestFirstOrdered(jobs);
    NewestFirstPermutes(jobs);
    forall t ensures CreatedAt(NewestFirst(jobs), t) == CreatedAt(jobs, t) {
      NewestFirstStable(jobs, t);
    }
  }

  const PlaceholderCompany := "Parsing Company..."
  const PlaceholderTitle := "Parsing Title..."

  /**
   * The company a queue card shows: the parse result's when truthy, else the scraped
   * one when non-empty, else a placeholder.
   */
  function DisplayCompany(job: Job): (r: string)
    ensures job.parsedResult.Some? && Truthy(job.parsedResult.value.company) ==> r == ToJsString(job.parsedResult.value.company)
    ensures !(job.parsedResult.Some? && Truthy(job.parsedResult.value.company)) && job.scrapedMeta.company.Some? && job.scrapedMeta.company.value != "" ==>
      r == job.scrapedMeta.company.value
    ensures !(job.parsedResult.Some? && Truthy(job.parsedResult.value.company)) && !(job.scrapedMeta.company.Some? && job.scrapedMeta.company.value != "") ==>
      r == PlaceholderCompany
  {
    if job.parsedResult.Some? && Truthy(job.parsedResult.value.company) then ToJsString(job.parsedResult.value.company)
    else if job.scrapedMeta.company.Some? && job.scrapedMeta.company.value != "" then job.scrapedMeta.company.value
    else PlaceholderCompany
  }

  /** The title a queue card shows, with the same fallbacks as the company. */
  function DisplayTitle(job: Job): (r: string)
    ensures job.parsedResult.Some? && Truthy(job.parsedResult.value.title) ==> r == ToJsString(job.parsedResult.value.title)
    ensures !(job.parsedResult.Some? && Truthy(job.parsedResult.value.title)) && job.scrapedMeta.title != "" ==> r == job.scrapedMeta.title
    ensures !(job.parsedResult.Some? && Truthy(job.parsedResult.value.title)) && job.scrapedMeta.title == "" ==> r == PlaceholderTitle
  {
    if job.parsedResult.Some? && Truthy(job.parsedResult.value.title) then ToJsString(job.parsedResult.value.title)
    else if job.scrapedMeta.title != "" then job.scrapedMeta.title
    else PlaceholderTitle
  }

  /** A job still parsing shows its scraped title and company, or the placeholders. */
  lemma DisplayWhileParsing(scraped: ScrapedJobData, id: string, timestamp: int)
    ensures DisplayTitle(Background.NewJob(scraped, id, timestamp)) == if scraped.title != "" then scraped.title else PlaceholderTitle
    ensures DisplayCompany(Background.NewJob(scraped, id, timestamp)) ==
      if scraped.company.Some? && scraped.company.value != "" then scraped.company.value else PlaceholderCompany
  {
  }

  /**
   * A parsed job shows the service's title when it is usable and otherwise the scraped
   * one, so the placeholder appears only when neither has any text.
   */
  lemma DisplayAfterParse(body: Json, meta: ScrapedJobData, job: Job)
    requires job.parsedResult == Some(Background.ParsedFrom(body, meta)) && job.scrapedMeta == meta
    ensures var api := Field(body, "title");
      DisplayTitle(job) ==
        if api.Some? && Background.Usable(api.value) then ToJsString(api.value)
        else if meta.title != "" then meta.title
        else PlaceholderTitle
  {
    var api := Field(body, "title");
    var t := job.parsedResult.value.title;
    if api.Some? && Background.Usable(api.value) {
      assert t == api.value && Truthy(t);
    } else {
      assert t == Str(meta.title);
    }
  }

  /**
   * A parsed job shows the service's company when it is usable and otherwise the scraped
   * one, so the placeholder appears only when neither has any text.
   */
  lemma DisplayCompanyAfterParse(body: Json, meta: ScrapedJobData, job: Job)
    requires job.parsedResult == Some(Background.ParsedFrom(body, meta)) && job.scrapedMeta == meta
    ensures var api := Field(body, "company");
      DisplayCompany(job) ==
        if api.Some? && Background.Usable(api.value) then ToJsString(api.value)
        else if meta.company.Some? && meta.company.value != "" then meta.company.value
        else PlaceholderCompany
  {
    var api := Field(body, "company");
    var c := job.parsedResult.value.company;
    if api.Some? && Background.Usable(api.value) {
      assert c == api.value && Truthy(c);
    } else {
      assert c == Background.NullableValue(meta.company);
    }
  }
}
