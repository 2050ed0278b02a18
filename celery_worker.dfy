/**
 * The two background tasks of `backend/celery_worker.py`. Each moves one work
 * record through its lifecycle: it marks it as being processed, takes the
 * outcome of the analysis (a parameter of the model), stores the result or
 * the error, logs activity rows and, on an error, requests a retry.
 */
module CeleryWorker {
  import opened Wrappers
  import opened Json
  import opened Models
  import opened AiModels
  import opened Store

  /** How a task run ends: a returned dict, a retry request (which Celery raises), or an exception that
      escapes the task before any retry is requested. */
  datatype TaskOutcome = Returned(value: Object) | RetryRequested(error: string) | Raised(error: string)

  const RetryCountdown: nat := 60
  const MaxRetries: nat := 3

  // ---------------------------------------------------------------------------
  // process_transcript_task

  /** The start activity's metadata: the id, and the file name and size when the file info is non-empty. */
  function StartMetadata(id: Uuid, file: Option<Object>): (m: Object)
    ensures m.Keys == {"transcript_id", "original_filename", "file_size"}
    ensures m["transcript_id"] == JStr(id.text)
    ensures m["original_filename"] ==
      (if file.Some? && file.value != map[] then Get(file.value, "original_filename", JStr("")) else JStr(""))
    ensures m["file_size"] == (if file.Some? && file.value != map[] then Get(file.value, "file_size", JInt(0)) else JInt(0))
  {
    var info := if file.Some? && file.value != map[] then file.value else map[];
    map["transcript_id" := JStr(id.text),
        "original_filename" := Get(info, "original_filename", JStr("")),
        "file_size" := Get(info, "file_size", JInt(0))]
  }

  /** The transcript after a successful analysis `m`: the whole result, status "completed", and each result
      column copied from `m` (the list columns default to [] and the score to None); nothing else changes. */
  function WithAnalysis(t: Transcript, m: Object): (r: Transcript)
    ensures r.status == "completed" && r.analysis == JObj(m)
    ensures r.insights == Get(m, "insights", JArr([])) && r.sentiment_score == Get(m, "sentiment_score", JNull)
    ensures r.key_themes == Get(m, "key_themes", JArr([])) && r.pain_points == Get(m, "pain_points", JArr([]))
    ensures r.feature_requests == Get(m, "feature_requests", JArr([]))
    ensures r.(status := t.status, analysis := t.analysis, insights := t.insights, sentiment_score := t.sentiment_score,
               key_themes := t.key_themes, pain_points := t.pain_points, feature_requests := t.feature_requests) == t
  {
    t.(analysis := JObj(m), status := "completed",
       insights := Get(m, "insights", JArr([])), sentiment_score := Get(m, "sentiment_score", JNull),
       key_themes := Get(m, "key_themes", JArr([])), pain_points := Get(m, "pain_points", JArr([])),
       feature_requests := Get(m, "feature_requests", JArr([])))
  }

  /** The error a run with this analysis outcome reaches, if any: the analysis error, `.get` on a result that
      is not a dict, or `len` of a stored insights or themes value that has none. */
  function TranscriptRunError(analysis: Result<JsonValue, string>): (e: Option<string>)
    ensures analysis.Err? ==> e == Some(analysis.error)
    ensures analysis.Ok? && !analysis.value.JObj? ==> e == Some("'" + TypeName(analysis.value) + "' object has no attribute 'get'")
    ensures e.None? ==> analysis.Ok? && analysis.value.JObj?
  {
    match analysis
    case Err(msg) => Some(msg)
    case Ok(v) =>
      if !v.JObj? then Some("'" + TypeName(v) + "' object has no attribute 'get'")
      else
        var n := LenOrEmpty(Get(v.fields, "insights", JArr([])));
        var k := LenOrEmpty(Get(v.fields, "key_themes", JArr([])));
        if n.Err? then Some(n.error) else if k.Err? then Some(k.error) else None
  }

  /** The transcript as the error handler commits it: whatever the run had assigned, then "failed" and the
      error text, stamped `now` by the commit (a failed run always changes the status it started from). */
  function FailedTranscript(t: Transcript, analysis: Result<JsonValue, string>, error: string, now: Timestamp)
    : (r: Transcript)
    ensures r.status == "failed" && r.error_message == Some(error) && r.updated_at == Some(now)
    ensures r.id == t.id && r.user_id == t.user_id && r.title == t.title && r.content == t.content
    ensures r.file_metadata == t.file_metadata && r.created_at == t.created_at
    ensures analysis.Err? ==> r == t.(status := "failed", error_message := Some(error), updated_at := Some(now))
  {
    var partial :=
      match analysis
      case Err(_) => t
      case Ok(v) => if v.JObj? then WithAnalysis(t, v.fields) else t.(analysis := v, status := "completed");
    partial.(status := "failed", error_message := Some(error), updated_at := Some(now))
  }

  /** `transcript.status = "processing"` and commit, whatever the status was before; the commit stamps the
      row unless it was "processing" already. */
  method MarkTranscriptProcessing(db: Database, id: Uuid, now: Timestamp)
    requires db.Valid() && id in db.transcripts
    modifies db
    ensures db.Valid()
    ensures var t := old(db.transcripts[id]);
      db.transcripts == old(db.transcripts)[id := TranscriptTouched(t, t.(status := "processing"), now)]
    ensures db.users == old(db.users) && db.plans == old(db.plans) && db.watches == old(db.watches)
    ensures db.updates == old(db.updates) && db.contents == old(db.contents) && db.activities == old(db.activities)
  {
    var t := db.transcripts[id];
    db.CommitTranscript(t.(status := "processing"), now);
  }

  /** What a run of the transcript task leaves once the start row is written: the transcript it commits,
      the second activity row, how it ends, and whether it requests a retry. */
  datatype TranscriptRun = TranscriptRun(transcript: Transcript, last: AgentActivity, outcome: TaskOutcome, retry: bool)

  /** The completion row's metadata. */
  function CompletionMetadata(id: Uuid, stored: Transcript, insights: nat, themes: nat): Object {
    map["transcript_id" := JStr(id.text), "insights_count" := JInt(insights),
        "sentiment_score" := stored.sentiment_score, "themes_count" := JInt(themes)]
  }

  /** The dict the task returns on success. */
  function CompletionReply(id: Uuid, stored: Transcript, insights: nat): Object {
    map["status" := JStr("completed"), "transcript_id" := JStr(id.text), "insights_count" := JInt(insights),
        "sentiment_score" := stored.sentiment_score, "message" := JStr("Transcript processed successfully")]
  }

  /** The transcript task from the analysis on, for transcript `t` (as loaded) and the analysis outcome. */
  function RunTranscript(t: Transcript, analysis: Result<JsonValue, string>, userId: int, endId: Uuid, now: Timestamp)
    : (r: TranscriptRun)
    ensures r.last.id == endId && r.last.user_id == userId && r.last.agent_type == "user_whisperer"
    ensures r.transcript.id == t.id && r.transcript.user_id == t.user_id && r.transcript.content == t.content
    // The last commit always moves the status on, so the row carries this run's stamp.
    ensures r.transcript.updated_at == Some(now)
  {
    match TranscriptRunError(analysis)
    case None =>
      var stored := WithAnalysis(t, analysis.value.fields).(updated_at := Some(now));
      var n := LenOrEmpty(stored.insights).value;
      TranscriptRun(stored,
        NewActivity(endId, userId, "user_whisperer", "transcript_processing_completed",
                    Some(CompletionMetadata(t.id, stored, n, LenOrEmpty(stored.key_themes).value)), Some("success"), None, now),
        Returned(CompletionReply(t.id, stored, n)), false)
    case Some(e) =>
      TranscriptRun(FailedTranscript(t, analysis, e, now),
        NewActivity(endId, userId, "user_whisperer", "transcript_processing_failed",
                    Some(map["transcript_id" := JStr(t.id.text), "error" := JStr(e)]), Some("error"), Some(e), now),
        RetryRequested(e), true)
  }

  /** How a run ends: a clean analysis completes it with the counts of the stored columns and no retry;
      any error fails it with that error, writes the error row and requests a retry. */
  lemma RunTranscriptOutcome(t: Transcript, analysis: Result<JsonValue, string>, userId: int, endId: Uuid, now: Timestamp)
    ensures var r := RunTranscript(t, analysis, userId, endId, now);
      TranscriptRunError(analysis).None? ==>
      var stored := WithAnalysis(t, analysis.value.fields).(updated_at := Some(now));
      && r.transcript == stored
      && r.last.action == "transcript_processing_completed" && r.last.status == Some("success")
      && r.last.activity_metadata ==
           Some(CompletionMetadata(t.id, stored, LenOrEmpty(stored.insights).value, LenOrEmpty(stored.key_themes).value))
      && r.outcome == Returned(CompletionReply(t.id, stored, LenOrEmpty(stored.insights).value))
      && !r.retry
    ensures var r := RunTranscript(t, analysis, userId, endId, now);
      TranscriptRunError(analysis).Some? ==>
      var e := TranscriptRunError(analysis).value;
      && r.transcript == FailedTranscript(t, analysis, e, now)
      && r.last.action == "transcript_processing_failed" && r.last.status == Some("error")
      && r.last.error_message == Some(e)
      && r.last.activity_metadata == Some(map["transcript_id" := JStr(t.id.text), "error" := JStr(e)])
      && r.outcome == RetryRequested(e) && r.retry
  {
  }

  /** The start row the task writes for transcript `t`. */
  function StartActivity(t: Transcript, userId: int, startId: Uuid, now: Timestamp): (a: AgentActivity)
    ensures a.id == startId && a.action == "transcript_processing_started" && a.status == Some("processing")
  {
    NewActivity(startId, userId, "user_whisperer", "transcript_processing_started",
                Some(StartMetadata(t.id, t.file_metadata)), Some("processing"), None, now)
  }

  /** The task's first two writes: the transcript is marked "processing" and the start row is added. */
  method StartTranscriptRun(db: Database, t: Transcript, userId: int, startId: Uuid, endId: Uuid, now: Timestamp)
    requires db.Valid() && t.id in db.transcripts && db.transcripts[t.id] == t && startId != endId
    requires forall k :: 0 <= k < |db.activities| ==> db.activities[k].id != startId && db.activities[k].id != endId
    modifies db
    ensures db.Valid()
    ensures db.transcripts == old(db.transcripts)[t.id := TranscriptTouched(t, t.(status := "processing"), now)]
    ensures db.activities == old(db.activities) + [StartActivity(t, userId, startId, now)]
    ensures forall k :: 0 <= k < |db.activities| ==> db.activities[k].id != endId
    ensures db.users == old(db.users) && db.plans == old(db.plans) && db.watches == old(db.watches)
    ensures db.updates == old(db.updates) && db.contents == old(db.contents)
  {
    MarkTranscriptProcessing(db, t.id, now);
    db.AddActivity(StartActivity(t, userId, startId, now));
  }

  /** The task for a transcript `t` that the lookup found. */
  method RunLoadedTranscript(db: Database, queue: TaskQueue, t: Transcript, analysis: Result<JsonValue, string>,
                             userId: int, startId: Uuid, endId: Uuid, now: Timestamp)
    returns (outcome: TaskOutcome)
    requires db.Valid() && t.id in db.transcripts && db.transcripts[t.id] == t && startId != endId
    requires forall k :: 0 <= k < |db.activities| ==> db.activities[k].id != startId && db.activities[k].id != endId
    modifies db, queue
    ensures db.Valid()
    ensures var run := RunTranscript(t, analysis, userId, endId, now);
      && db.transcripts == old(db.transcripts)[t.id := run.transcript]
      && db.activities == old(db.activities) + [StartActivity(t, userId, startId, now), run.last]
      && queue.sent == old(queue.sent) + (if run.retry then [RetryRequest(RetryCountdown, MaxRetries)] else [])
      && outcome == run.outcome
    ensures db.users == old(db.users) && db.plans == old(db.plans) && db.watches == old(db.watches)
    ensures db.updates == old(db.updates) && db.contents == old(db.contents)
  {
    StartTranscriptRun(db, t, userId, startId, endId, now);
    ghost var started := db.activities;
    outcome := FinishTranscriptRun(db, queue, t, analysis, userId, endId, now);
    assert db.activities == started + [RunTranscript(t, analysis, userId, endId, now).last];
  }

  /**
   * `process_transcript_task(transcript_id, user_id)`. `analysis` is what
   * `analyze_transcript` returns or raises; `startId` and `endId` are the
   * ids the two activity rows receive, and `now` the server clock.
   */
  method ProcessTranscriptTask(db: Database, queue: TaskQueue, transcriptId: Uuid, userId: int,
                               analysis: Result<JsonValue, string>, startId: Uuid, endId: Uuid, now: Timestamp)
    returns (outcome: TaskOutcome)
    requires db.Valid() && startId != endId
    requires forall k :: 0 <= k < |db.activities| ==> db.activities[k].id != startId && db.activities[k].id != endId
    modifies db, queue
    ensures db.Valid()
    ensures db.users == old(db.users) && db.plans == old(db.plans) && db.watches == old(db.watches)
    ensures db.updates == old(db.updates) && db.contents == old(db.contents)
    // An unknown id: `transcript` is None, so the handler's own `transcript.status = ...` raises first.
    ensures transcriptId !in old(db.transcripts) ==>
      outcome == Raised(NoneStatusError) && db.transcripts == old(db.transcripts) &&
      db.activities == old(db.activities) && queue.sent == old(queue.sent)
    ensures transcriptId in old(db.transcripts) ==>
      var t := old(db.transcripts[transcriptId]);
      var run := RunTranscript(t, analysis, userId, endId, now);
      && db.transcripts == old(db.transcripts)[transcriptId := run.transcript]
      && db.activities == old(db.activities) + [StartActivity(t, userId, startId, now), run.last]
      && queue.sent == old(queue.sent) + (if run.retry then [RetryRequest(RetryCountdown, MaxRetries)] else [])
      && outcome == run.outcome
  {
    if transcriptId !in db.transcripts {
      return Raised(NoneStatusError);
    }
    outcome := RunLoadedTranscript(db, queue, db.transcripts[transcriptId], analysis, userId, startId, endId, now);
  }

  /** The rest of the run once the model replied: the writes `FinishTranscriptRun` makes for a decoded value. */
  method FinishAnalysedRun(db: Database, queue: TaskQueue, t: Transcript, v: JsonValue,
                           userId: int, endId: Uuid, now: Timestamp)
    returns (outcome: TaskOutcome)
    requires db.Valid() && t.id in db.transcripts
    requires db.transcripts[t.id] == TranscriptTouched(t, t.(status := "processing"), now)
    requires forall k :: 0 <= k < |db.activities| ==> db.activities[k].id != endId
    modifies db, queue
    ensures db.Valid()
    ensures var run := RunTranscript(t, Ok(v), userId, endId, now);
      && db.transcripts == old(db.transcripts)[t.id := run.transcript]
      && db.activities == old(db.activities) + [run.last]
      && queue.sent == old(queue.sent) + (if run.retry then [RetryRequest(RetryCountdown, MaxRetries)] else [])
      && outcome == run.outcome
    ensures db.users == old(db.users) && db.plans == old(db.plans) && db.watches == old(db.watches)
    ensures db.updates == old(db.updates) && db.contents == old(db.contents)
  {
    ghost var run := RunTranscript(t, Ok(v), userId, endId, now);
    var current := db.transcripts[t.id].(analysis := v, status := "completed");
    if !v.JObj? {
      var error := "'" + TypeName(v) + "' object has no attribute 'get'";
      assert run.transcript == current.(status := "failed", error_message := Some(error), updated_at := Some(now));
      outcome := CommitFailure(db, queue, current, error, userId, endId, now);
    } else {
      outcome := FinishDictRun(db, queue, t, v.fields, userId, endId, now);
    }
  }

  /** The run for a dict result `m`: the result columns are assigned and committed (line 83), then the
      counts either complete the run or fail it. */
  method FinishDictRun(db: Database, queue: TaskQueue, t: Transcript, m: Object,
                       userId: int, endId: Uuid, now: Timestamp)
    returns (outcome: TaskOutcome)
    requires db.Valid() && t.id in db.transcripts
    requires db.transcripts[t.id] == TranscriptTouched(t, t.(status := "processing"), now)
    requires forall k :: 0 <= k < |db.activities| ==> db.activities[k].id != endId
    modifies db, queue
    ensures db.Valid()
    ensures var run := RunTranscript(t, Ok(JObj(m)), userId, endId, now);
      && db.transcripts == old(db.transcripts)[t.id := run.transcript]
      && db.activities == old(db.activities) + [run.last]
      && queue.sent == old(queue.sent) + (if run.retry then [RetryRequest(RetryCountdown, MaxRetries)] else [])
      && outcome == run.outcome
    ensures db.users == old(db.users) && db.plans == old(db.plans) && db.watches == old(db.watches)
    ensures db.updates == old(db.updates) && db.contents == old(db.contents)
  {
    ghost var v := JObj(m);
    ghost var run := RunTranscript(t, Ok(v), userId, endId, now);
    RunTranscriptOutcome(t, Ok(v), userId, endId, now);
    var current := WithAnalysis(db.transcripts[t.id], m);
    db.CommitTranscript(current, now);
    current := db.transcripts[t.id];
    assert current == WithAnalysis(t, m).(updated_at := Some(now));
    var insightsCount := LenOrEmpty(current.insights);
    var themesCount := LenOrEmpty(current.key_themes);
    if insightsCount.Ok? && themesCount.Ok? {
      assert TranscriptRunError(Ok(v)).None?;
      outcome := CommitCompletion(db, current, insightsCount.value, themesCount.value, userId, endId, now);
      return;
    }
    var error := if insightsCount.Err? then insightsCount.error else themesCount.error;
    assert TranscriptRunError(Ok(v)) == Some(error);
    assert run.transcript == current.(status := "failed", error_message := Some(error), updated_at := Some(now));
    outcome := CommitFailure(db, queue, current, error, userId, endId, now);
  }


  /** The task body from `analyze_transcript` on, including the `except` handler, for the loaded transcript `t`. */
  method FinishTranscriptRun(db: Database, queue: TaskQueue, t: Transcript, analysis: Result<JsonValue, string>,
                             userId: int, endId: Uuid, now: Timestamp)
    returns (outcome: TaskOutcome)
    requires db.Valid() && t.id in db.transcripts
    requires db.transcripts[t.id] == TranscriptTouched(t, t.(status := "processing"), now)
    requires forall k :: 0 <= k < |db.activities| ==> db.activities[k].id != endId
    modifies db, queue
    ensures db.Valid()
    ensures var run := RunTranscript(t, analysis, userId, endId, now);
      && db.transcripts == old(db.transcripts)[t.id := run.transcript]
      && db.activities == old(db.activities) + [run.last]
      && queue.sent == old(queue.sent) + (if run.retry then [RetryRequest(RetryCountdown, MaxRetries)] else [])
      && outcome == run.outcome
    ensures db.users == old(db.users) && db.plans == old(db.plans) && db.watches == old(db.watches)
    ensures db.updates == old(db.updates) && db.contents == old(db.contents)
  {
    if analysis.Err? {
      var current := db.transcripts[t.id];
      assert current.(status := "failed", error_message := Some(analysis.error), updated_at := Some(now)) ==
             FailedTranscript(t, analysis, analysis.error, now);
      outcome := CommitFailure(db, queue, current, analysis.error, userId, endId, now);
    } else {
      outcome := FinishAnalysedRun(db, queue, t, analysis.value, userId, endId, now);
    }
  }


  /** The success half of the task once the analysed transcript `stored` is committed: the completion row
      is committed and the reply built from the stored columns. */
  method CommitCompletion(db: Database, stored: Transcript, insights: nat, themes: nat, userId: int, endId: Uuid,
                          now: Timestamp)
    returns (outcome: TaskOutcome)
    requires db.Valid()
    requires forall k :: 0 <= k < |db.activities| ==> db.activities[k].id != endId
    modifies db
    ensures db.Valid()
    ensures db.transcripts == old(db.transcripts)
    ensures db.activities == old(db.activities) +
      [NewActivity(endId, userId, "user_whisperer", "transcript_processing_completed",
                   Some(CompletionMetadata(stored.id, stored, insights, themes)), Some("success"), None, now)]
    ensures outcome == Returned(CompletionReply(stored.id, stored, insights))
    ensures db.users == old(db.users) && db.plans == old(db.plans) && db.watches == old(db.watches)
    ensures db.updates == old(db.updates) && db.contents == old(db.contents)
  {
    db.AddActivity(NewActivity(endId, userId, "user_whisperer", "transcript_processing_completed",
                               Some(CompletionMetadata(stored.id, stored, insights, themes)), Some("success"), None, now));
    outcome := Returned(CompletionReply(stored.id, stored, insights));
  }

  /** The `except Exception as e` handler: the transcript as assigned so far is committed as "failed" with
      the message, one error row is appended and a retry is requested. */
  method CommitFailure(db: Database, queue: TaskQueue, current: Transcript, error: string, userId: int, endId: Uuid,
                       now: Timestamp)
    returns (outcome: TaskOutcome)
    requires db.Valid() && current.id in db.transcripts
    requires forall k :: 0 <= k < |db.activities| ==> db.activities[k].id != endId
    modifies db, queue
    ensures db.Valid()
    ensures db.transcripts == old(db.transcripts)[current.id :=
      TranscriptTouched(old(db.transcripts[current.id]), current.(status := "failed", error_message := Some(error)), now)]
    // Committed from "processing" or "completed", the row is always stamped.
    ensures old(db.transcripts[current.id]).status != "failed" ==>
      db.transcripts[current.id] == current.(status := "failed", error_message := Some(error), updated_at := Some(now))
    ensures db.activities == old(db.activities) +
      [NewActivity(endId, userId, "user_whisperer", "transcript_processing_failed",
                   Some(map["transcript_id" := JStr(current.id.text), "error" := JStr(error)]), Some("error"), Some(error), now)]
    ensures queue.sent == old(queue.sent) + [RetryRequest(RetryCountdown, MaxRetries)]
    ensures outcome == RetryRequested(error)
    ensures db.users == old(db.users) && db.plans == old(db.plans) && db.watches == old(db.watches)
    ensures db.updates == old(db.updates) && db.contents == old(db.contents)
  {
    db.CommitTranscript(current.(status := "failed", error_message := Some(error)), now);
    db.AddActivity(NewActivity(endId, userId, "user_whisperer", "transcript_processing_failed",
                               Some(map["transcript_id" := JStr(current.id.text), "error" := JStr(error)]),
                               Some("error"), Some(error), now));
    queue.Send(RetryRequest(RetryCountdown, MaxRetries));
    outcome := RetryRequested(error);
  }

  /** The status a run leaves depends only on the analysis outcome, never on the status before it: a
      completed or failed transcript is processed again like any other. */
  lemma TerminalStatusNotProtected(t: Transcript, analysis: Result<JsonValue, string>, previous: string, now: Timestamp)
    requires TranscriptRunError(analysis).Some?
    ensures FailedTranscript(t.(status := previous), analysis, TranscriptRunError(analysis).value, now).status == "failed"
    ensures FailedTranscript(t.(status := "completed"), analysis, TranscriptRunError(analysis).value, now) ==
            FailedTranscript(t.(status := "failed"), analysis, TranscriptRunError(analysis).value, now)
  {
  }

  /** With a dict result, the activity count and the returned count are the length of the stored insights,
      with an absent or null value counted as 0. */
  lemma InsightsCountIsStoredLength(t: Transcript, m: Object)
    requires LenOrEmpty(Get(m, "insights", JArr([]))).Ok?
    ensures "insights" !in m ==> LenOrEmpty(WithAnalysis(t, m).insights) == Ok(0)
    ensures "insights" in m && m["insights"] == JNull ==> LenOrEmpty(WithAnalysis(t, m).insights) == Ok(0)
    ensures "insights" in m && m["insights"].JArr? ==> LenOrEmpty(WithAnalysis(t, m).insights) == Ok(|m["insights"].items|)
  {
  }

  // ---------------------------------------------------------------------------
  // process_competitor_analysis_task

  /** `old` gains `added` and keeps every other key with its value. */
  predicate GainsKeys(before: Object, after: Object, added: set<string>) {
    after.Keys == before.Keys + added && forall k :: k in before && k !in added ==> after[k] == before[k]
  }

  const Started: Object := map["processing_started" := JBool(true)]

  function Succeeded(v: JsonValue): Object {
    map["analysis_results" := v, "processing_completed" := JBool(true)]
  }

  function Failed(error: string): Object {
    map["error" := JStr(error), "processing_failed" := JBool(true)]
  }

  /** The metadata a competitor run leaves when its analysis ends in `analysis`, and the error, if any. */
  function CompetitorRun(meta: Object, analysis: Result<JsonValue, string>): (r: (Object, Option<string>))
    ensures analysis.Ok? && analysis.value.JObj? ==> r.1.None? && GainsKeys(meta, r.0, Started.Keys + Succeeded(analysis.value).Keys)
    ensures analysis.Err? ==> r.1 == Some(analysis.error) && GainsKeys(meta, r.0, Started.Keys + Failed(analysis.error).Keys)
    ensures analysis.Ok? && !analysis.value.JObj? ==>
      r.1.Some? && GainsKeys(meta, r.0, Started.Keys + Succeeded(analysis.value).Keys + Failed(r.1.value).Keys)
    ensures forall k :: k in meta ==> k in r.0
  {
    var m1 := meta + Started;
    match analysis
    case Err(e) => (m1 + Failed(e), Some(e))
    case Ok(v) =>
      var m2 := m1 + Succeeded(v);
      match GetAttr(v, "summary", JStr("Analysis completed"))
      case Ok(_) => (m2, None)
      case Err(e) => (m2 + Failed(e), Some(e))
  }

  /**
   * `process_competitor_analysis_task(activity_id, competitor_data, user_id)`.
   * `analysis` is what `analyze_competitor_data` returns or raises.
   */
  method ProcessCompetitorAnalysisTask(db: Database, queue: TaskQueue, activityId: RawId, userId: int,
                                       analysis: Result<JsonValue, string>)
    returns (outcome: TaskOutcome)
    requires db.Valid()
    modifies db, queue
    ensures db.Valid()
    ensures db.users == old(db.users) && db.plans == old(db.plans) && db.transcripts == old(db.transcripts)
    ensures db.watches == old(db.watches) && db.updates == old(db.updates) && db.contents == old(db.contents)
    // `UUID(activity_id)` fails before `activity` is bound: no row changes, a retry is requested.
    ensures activityId.Malformed? ==>
      outcome == RetryRequested(BadUuidError) && db.activities == old(db.activities) &&
      queue.sent == old(queue.sent) + [RetryRequest(RetryCountdown, MaxRetries)]
    // No such row: `activity` is None and the handler raises on it.
    ensures activityId.Wellformed? && FindActivity(old(db.activities), activityId.id, None).None? ==>
      outcome == Raised(NoneStatusError) && db.activities == old(db.activities) && queue.sent == old(queue.sent)
    ensures activityId.Wellformed? && FindActivity(old(db.activities), activityId.id, None).Some? ==>
      var i := FindActivity(old(db.activities), activityId.id, None).value;
      var a := old(db.activities[i]);
      match a.activity_metadata
      // `{**None, ...}` raises, and raises again in the handler: nothing is committed.
      case None => outcome == Raised("'NoneType' object is not a mapping") && db.activities == old(db.activities) &&
                   queue.sent == old(queue.sent)
      case Some(meta) =>
        var (after, err) := CompetitorRun(meta, analysis);
        && |db.activities| == |old(db.activities)|
        && (forall k :: 0 <= k < |db.activities| && k != i ==> db.activities[k] == old(db.activities[k]))
        && (err.None? ==>
              db.activities[i] == a.(status := Some("success"), activity_metadata := Some(after)) &&
              queue.sent == old(queue.sent) &&
              outcome == Returned(map["status" := JStr("completed"), "activity_id" := JStr(activityId.text),
                                      "analysis_summary" := Get(analysis.value.fields, "summary", JStr("Analysis completed")),
                                      "message" := JStr("Competitor analysis processed successfully")]))
        && (err.Some? ==>
              db.activities[i] == a.(status := Some("error"), error_message := err, activity_metadata := Some(after)) &&
              queue.sent == old(queue.sent) + [RetryRequest(RetryCountdown, MaxRetries)] &&
              outcome == RetryRequested(err.value))
  {
    if activityId.Malformed? {
      queue.Send(RetryRequest(RetryCountdown, MaxRetries));
      return RetryRequested(BadUuidError);
    }
    var idx := FindActivity(db.activities, activityId.id, None);
    if idx.None? {
      return Raised(NoneStatusError);
    }
    var i := idx.value;
    var a := db.activities[i];
    a := a.(status := Some("processing"));
    var m1 := Merge(a.activity_metadata, Started);
    if m1.Err? {
      return Raised(m1.error);
    }
    a := a.(activity_metadata := Some(m1.value));
    db.SetActivity(i, a);

    var error: string;
    if analysis.Ok? {
      var v := analysis.value;
      a := a.(status := Some("success"), activity_metadata := Some(m1.value + Succeeded(v)));
      db.SetActivity(i, a);
      var summary := GetAttr(v, "summary", JStr("Analysis completed"));
      if summary.Ok? {
        return Returned(map["status" := JStr("completed"), "activity_id" := JStr(activityId.text),
                            "analysis_summary" := summary.value,
                            "message" := JStr("Competitor analysis processed successfully")]);
      }
      error := summary.error;
    } else {
      error := analysis.error;
    }
    // except Exception as e
    a := a.(status := Some("error"), error_message := Some(error),
            activity_metadata := Some(a.activity_metadata.value + Failed(error)));
    db.SetActivity(i, a);
    queue.Send(RetryRequest(RetryCountdown, MaxRetries));
    return RetryRequested(error);
  }

  /** A result without a "summary" key reports "Analysis completed"; the competitor defaults never add one,
      so the fallback analysis always reports it. */
  lemma SummaryDefault(m: Object)
    requires "summary" !in m
    ensures Get(m, "summary", JStr("Analysis completed")) == JStr("Analysis completed")
  {
  }
}
