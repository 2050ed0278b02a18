/**
 * The User Whisperer endpoints of `backend/api/agents/user_whisperer.py`:
 * upload stores a transcript and enqueues its analysis; `process_transcript`
 * runs the analysis inline; the list and single-transcript endpoints read the
 * caller's rows back; `get_task_status` turns a task state into a reply.
 * Callers are identified by their Firebase uid, resolved to a user row first.
 */
module UserWhisperer {
  import opened Wrappers
  import opened Json
  import opened Text
  import opened Models
  import opened AiModels
  import opened Store

  const AgentType := "user_whisperer"
  const UserNotFound := HttpError(404, "User not found")
  const TranscriptNotFound := HttpError(404, "Transcript not found")

  // ---------------------------------------------------------------------------
  // Upload

  /** `filename.endswith((".txt", ".md", ".docx"))`. */
  predicate AcceptedName(filename: string) {
    EndsWith(filename, ".txt") || EndsWith(filename, ".md") || EndsWith(filename, ".docx")
  }

  const BadFileType := HttpError(400, "Only .txt, .md, and .docx files are supported")
  const UploadPrefix := "Failed to upload transcript: "

  function UploadMetadata(filename: string, content: string, stamp: string): (m: Object)
    ensures m.Keys == {"original_filename", "file_size", "upload_timestamp"}
    ensures m["file_size"] == JInt(|content|)
  {
    map["original_filename" := JStr(filename), "file_size" := JInt(|content|), "upload_timestamp" := JStr(stamp)]
  }

  datatype UploadReply = UploadReply(transcript_id: string, task_id: string, title: string, status: string,
                                     file_metadata: Option<Object>, message: string)

  /**
   * `upload_transcript`. `decoded` is the UTF-8 decoding of the uploaded bytes
   * (or the decoder's error text); `title` is the query parameter, absent
   * when not given; `stamp` is `datetime.utcnow().isoformat()`.
   */
  method UploadTranscript(db: Database, queue: TaskQueue, uid: string, filename: string,
                          decoded: Result<string, string>, title: Option<string>, transcriptId: Uuid,
                          taskId: string, stamp: string, now: Timestamp)
    returns (r: Result<UploadReply, HttpError>)
    requires db.Valid()
    requires transcriptId !in db.transcripts
    modifies db, queue
    ensures db.Valid()
    ensures db.users == old(db.users) && db.plans == old(db.plans) && db.activities == old(db.activities)
    ensures db.watches == old(db.watches) && db.updates == old(db.updates) && db.contents == old(db.contents)
    // The 400 is raised inside the try and reaches the client as a 500.
    ensures !AcceptedName(filename) ==>
      r == Err(Rewrap(UploadPrefix, BadFileType)) && db.transcripts == old(db.transcripts) &&
      queue.sent == old(queue.sent)
    ensures AcceptedName(filename) && decoded.Err? ==>
      r == Err(HttpError(500, UploadPrefix + decoded.error)) && db.transcripts == old(db.transcripts) &&
      queue.sent == old(queue.sent)
    ensures AcceptedName(filename) && decoded.Ok? && FindByUid(old(db.users), uid).None? ==>
      r == Err(Rewrap(UploadPrefix, UserNotFound)) && db.transcripts == old(db.transcripts) &&
      queue.sent == old(queue.sent)
    ensures AcceptedName(filename) && decoded.Ok? && FindByUid(old(db.users), uid).Some? ==>
      var user := FindByUid(old(db.users), uid).value;
      var t := NewTranscript(transcriptId, user, title.GetOr("Customer Feedback"), decoded.value,
                             Some(UploadMetadata(filename, decoded.value, stamp)), Some("uploaded"), now);
      && db.transcripts == old(db.transcripts)[transcriptId := t]
      && queue.sent == old(queue.sent) + [TranscriptTask(taskId, transcriptId, user)]
      && r == Ok(UploadReply(transcriptId.text, taskId, t.title, "uploaded", t.file_metadata,
                             "Transcript uploaded and processing started"))
  {
    if !AcceptedName(filename) {
      return Err(Handled(UploadPrefix, HttpException(BadFileType)));
    }
    if decoded.Err? {
      return Err(Handled(UploadPrefix, OtherException(decoded.error)));
    }
    var content := decoded.value;
    var found := FindByUid(db.users, uid);
    if found.None? {
      return Err(Handled(UploadPrefix, HttpException(UserNotFound)));
    }
    var user := found.value;
    var t := NewTranscript(transcriptId, user, title.GetOr("Customer Feedback"), content,
                           Some(UploadMetadata(filename, content, stamp)), Some("uploaded"), now);
    db.transcripts := db.transcripts[transcriptId := t];
    queue.Send(TranscriptTask(taskId, transcriptId, user));
    r := Ok(UploadReply(transcriptId.text, taskId, t.title, t.status, t.file_metadata,
                        "Transcript uploaded and processing started"));
  }

  /** A rejected file name surfaces as a 500 whose detail carries the original 400. */
  lemma RejectedNameIs500(filename: string)
    requires !AcceptedName(filename)
    ensures Rewrap(UploadPrefix, BadFileType) ==
      HttpError(500, UploadPrefix + "400" + ": " + "Only .txt, .md, and .docx files are supported")
  {
    RewrapShowsCode(UploadPrefix, BadFileType);
  }

  // ---------------------------------------------------------------------------
  // Looking up the caller's transcript

  /** `filter(Transcript.id == transcript_id, Transcript.user_id == user.id).first()` found a row. */
  predicate OwnedTranscript(transcripts: map<Uuid, Transcript>, id: Uuid, user: int) {
    id in transcripts && transcripts[id].user_id == user
  }

  /**
   * The caller's row, or what the lookups raise. The id is compared with the
   * UUID column as text; text that is not a UUID makes the database refuse the
   * query, with the driver's message `dbError`.
   */
  function LookupTranscript(users: map<int, User>, transcripts: map<Uuid, Transcript>, uid: string, raw: RawId,
                            dbError: string): (r: Result<Transcript, Exception>)
    requires UniqueUids(users)
    ensures FindByUid(users, uid).None? ==> r == Err(HttpException(UserNotFound))
    ensures FindByUid(users, uid).Some? && raw.Malformed? ==> r == Err(OtherException(dbError))
    ensures FindByUid(users, uid).Some? && raw.Wellformed? ==>
      if OwnedTranscript(transcripts, raw.id, FindByUid(users, uid).value) then r == Ok(transcripts[raw.id])
      else r == Err(HttpException(TranscriptNotFound))
  {
    match FindByUid(users, uid)
    case None => Err(HttpException(UserNotFound))
    case Some(user) =>
      if raw.Malformed? then Err(OtherException(dbError))
      else if OwnedTranscript(transcripts, raw.id, user) then Ok(transcripts[raw.id])
      else Err(HttpException(TranscriptNotFound))
  }

  datatype TranscriptDetail = TranscriptDetail(transcript_id: string, title: string, content: string, status: string,
                                               file_metadata: Option<Object>, analysis: JsonValue,
                                               insights: JsonValue, sentiment_score: JsonValue,
                                               key_themes: JsonValue, pain_points: JsonValue,
                                               feature_requests: JsonValue, error_message: Option<string>,
                                               created_at: Timestamp, updated_at: Option<Timestamp>)

  function DetailOf(t: Transcript): TranscriptDetail {
    TranscriptDetail(t.id.text, t.title, t.content, t.status, t.file_metadata, t.analysis, t.insights,
                     t.sentiment_score, t.key_themes, t.pain_points, t.feature_requests, t.error_message,
                     t.created_at, t.updated_at)
  }

  /** `get_transcript`: both 404s are rewrapped as 500 by the generic handler. */
  function GetTranscript(users: map<int, User>, transcripts: map<Uuid, Transcript>, uid: string, raw: RawId,
                         dbError: string): (r: Result<TranscriptDetail, HttpError>)
    requires UniqueUids(users)
    ensures FindByUid(users, uid).None? ==> r == Err(Rewrap("Failed to get transcript: ", UserNotFound))
    ensures FindByUid(users, uid).Some? && raw.Malformed? ==> r == Err(HttpError(500, "Failed to get transcript: " + dbError))
    ensures r.Ok? <==> FindByUid(users, uid).Some? && raw.Wellformed? &&
                       OwnedTranscript(transcripts, raw.id, FindByUid(users, uid).value)
    ensures r.Ok? ==> r.value == DetailOf(transcripts[raw.id])
    ensures FindByUid(users, uid).Some? && raw.Wellformed? &&
            !OwnedTranscript(transcripts, raw.id, FindByUid(users, uid).value) ==>
      r == Err(Rewrap("Failed to get transcript: ", TranscriptNotFound))
  {
    match LookupTranscript(users, transcripts, uid, raw, dbError)
    case Ok(t) => Ok(DetailOf(t))
    case Err(x) => Err(Handled("Failed to get transcript: ", x))
  }

  /** A transcript of another user is reported exactly as a missing one. */
  lemma OthersTranscriptHidden(users: map<int, User>, transcripts: map<Uuid, Transcript>, uid: string, raw: RawId,
                               dbError: string)
    requires UniqueUids(users) && raw.Wellformed? && raw.id in transcripts
    requires FindByUid(users, uid).Some? && transcripts[raw.id].user_id != FindByUid(users, uid).value
    ensures GetTranscript(users, transcripts, uid, raw, dbError) ==
            GetTranscript(users, transcripts - {raw.id}, uid, raw, dbError)
    ensures GetTranscript(users, transcripts, uid, raw, dbError).error.detail ==
            "Failed to get transcript: " + "404" + ": " + "Transcript not found"
  {
    RewrapShowsCode("Failed to get transcript: ", TranscriptNotFound);
  }

  // ---------------------------------------------------------------------------
  // Processing

  const AlreadyProcessing := HttpError(400, "Transcript is already being processed")
  const Unexpected := HttpError(500, "An unexpected error occurred")

  /** The keyword arguments the handler passes to the `AgentActivity` constructor. */
  const StartKeywords: seq<string> := ["user_id", "agent_type", "action_type", "input_data", "status"]

  /** The constructor call of the start activity always raises TypeError: two keywords are not columns. */
  lemma StartActivityRejected()
    ensures !AcceptsKeywords(ActivityColumns, StartKeywords)
  {
    assert StartKeywords[2] == "action_type";
    ActivityHasNoInputOutputColumns(StartKeywords);
  }

  /** What the lookups and the status guard raise before anything is written; `except HTTPException: raise`
      lets the HTTP errors through and the generic handler hides any other one. */
  function ProcessGuard(users: map<int, User>, transcripts: map<Uuid, Transcript>, uid: string, raw: RawId)
    : (r: Result<Transcript, HttpError>)
    requires UniqueUids(users)
    ensures FindByUid(users, uid).None? ==> r == Err(UserNotFound)
    ensures FindByUid(users, uid).Some? && raw.Malformed? ==> r == Err(Unexpected)
    ensures r.Ok? <==> FindByUid(users, uid).Some? && raw.Wellformed? &&
                       OwnedTranscript(transcripts, raw.id, FindByUid(users, uid).value) &&
                       transcripts[raw.id].status != "processing"
    ensures r.Ok? ==> r.value == transcripts[raw.id]
    ensures (FindByUid(users, uid).Some? && raw.Wellformed? &&
             OwnedTranscript(transcripts, raw.id, FindByUid(users, uid).value) &&
             transcripts[raw.id].status == "processing") ==> r == Err(AlreadyProcessing)
  {
    match LookupTranscript(users, transcripts, uid, raw, "")
    case Err(HttpException(e)) => Err(e)
    case Err(OtherException(_)) => Err(Unexpected)
    case Ok(t) => if t.status == "processing" then Err(AlreadyProcessing) else Ok(t)
  }

  /**
   * `process_transcript` as written: the status is committed as
   * "processing" (which stamps `updated_at` with `now`), then building the
   * start activity raises TypeError, which the generic handler turns into a
   * 500. No activity row is written and the transcript stays "processing".
   */
  method ProcessTranscriptAsWritten(db: Database, uid: string, raw: RawId, now: Timestamp)
    returns (r: Result<ProcessReply, HttpError>)
    requires db.Valid()
    modifies db
    ensures db.Valid()
    ensures db.users == old(db.users) && db.plans == old(db.plans) && db.activities == old(db.activities)
    ensures db.watches == old(db.watches) && db.updates == old(db.updates) && db.contents == old(db.contents)
    ensures var g := ProcessGuard(old(db.users), old(db.transcripts), uid, raw);
      && (g.Err? ==> r == Err(g.error) && db.transcripts == old(db.transcripts))
      && (g.Ok? ==>
            && r == Err(Unexpected)
            && db.transcripts == old(db.transcripts)[raw.id := g.value.(status := "processing", updated_at := Some(now))])
  {
    var g := ProcessGuard(db.users, db.transcripts, uid, raw);
    if g.Err? {
      return Err(g.error);
    }
    var t := g.value;
    db.CommitTranscript(t.(status := "processing"), now);
    StartActivityRejected();
    r := Err(Unexpected);
  }

  /** Every later request for the same transcript is refused with 400: the as-written handler can never
      complete a transcript, and one failed call locks it. */
  lemma AsWrittenLocksTranscript(users: map<int, User>, transcripts: map<Uuid, Transcript>, uid: string, raw: RawId,
                                 now: Timestamp)
    requires UniqueUids(users)
    requires ProcessGuard(users, transcripts, uid, raw).Ok?
    ensures var t := ProcessGuard(users, transcripts, uid, raw).value;
      ProcessGuard(users, transcripts[raw.id := t.(status := "processing", updated_at := Some(now))], uid, raw) ==
      Err(AlreadyProcessing)
  {
  }

  datatype ProcessReply = ProcessReply(transcript_id: string, status: string, processing_time_seconds: JsonValue,
                                       results: Object)

  /** The start row the corrected handler writes, with the columns the table has. */
  function ProcessStartActivity(id: Uuid, user: int, raw: RawId, now: Timestamp): (a: AgentActivity)
    ensures a.id == id && a.user_id == user && a.agent_type == AgentType && a.status == Some("processing")
    ensures a.activity_metadata == Some(map["transcript_id" := JStr(raw.text)])
    ensures a.action == "transcript_processing" && a.error_message.None? && a.tokens_used.None?
  {
    NewActivity(id, user, AgentType, "transcript_processing", Some(map["transcript_id" := JStr(raw.text)]),
                Some("processing"), None, now)
  }

  /** The result columns as `results.get(...)` fills them: NULL for a missing key. */
  function WithResults(t: Transcript, results: Object): (r: Transcript)
    ensures r.analysis == JObj(results) && r.status == "completed"
    ensures r.insights == Get(results, "insights", JNull) && r.sentiment_score == Get(results, "sentiment_score", JNull)
    ensures r.key_themes == Get(results, "key_themes", JNull) && r.pain_points == Get(results, "pain_points", JNull)
    ensures r.feature_requests == Get(results, "feature_requests", JNull)
    ensures r.(analysis := t.analysis, insights := t.insights, sentiment_score := t.sentiment_score,
               key_themes := t.key_themes, pain_points := t.pain_points, feature_requests := t.feature_requests,
               status := t.status) == t
  {
    t.(analysis := JObj(results), insights := Get(results, "insights", JNull),
       sentiment_score := Get(results, "sentiment_score", JNull), key_themes := Get(results, "key_themes", JNull),
       pain_points := Get(results, "pain_points", JNull), feature_requests := Get(results, "feature_requests", JNull),
       status := "completed")
  }

  /** The committed transcript, the final state of the start row and the reply, after the agent has
      returned `agent`; `elapsed` is the measured processing time and `now` the clock the commit stamps. */
  function ProcessRun(t: Transcript, start: AgentActivity, agent: Result<Object, string>, elapsed: JsonValue,
                      now: Timestamp)
    : (r: (Transcript, AgentActivity, Result<ProcessReply, HttpError>))
    ensures agent.Ok? ==>
      && r.0 == TranscriptTouched(t, WithResults(t, agent.value), now)
      && r.1 == start.(status := Some("success"), processing_time_seconds := elapsed)
      && r.2 == Ok(ProcessReply(t.id.text, "completed", elapsed, agent.value))
    ensures agent.Err? ==>
      && r.0 == TranscriptTouched(t, t.(status := "error"), now)
      && r.1 == start.(status := Some("error"), error_message := Some(agent.error))
      && r.2 == Err(HttpError(500, "Failed to process transcript: " + agent.error))
  {
    match agent
    case Ok(results) =>
      (TranscriptTouched(t, WithResults(t, results), now), start.(status := Some("success"), processing_time_seconds := elapsed),
       Ok(ProcessReply(t.id.text, "completed", elapsed, results)))
    case Err(e) =>
      (TranscriptTouched(t, t.(status := "error"), now), start.(status := Some("error"), error_message := Some(e)),
       Err(HttpError(500, "Failed to process transcript: " + e)))
  }

  /** A corrected run never leaves the transcript "processing" and always ends its start row; from
      "processing" its commit always stamps the row. A failed run leaves "error", which is not one of the
      status values the table documents. */
  lemma ProcessRunTerminates(t: Transcript, start: AgentActivity, agent: Result<Object, string>, elapsed: JsonValue,
                             now: Timestamp)
    requires start.status == Some("processing")
    ensures var (t2, a2, reply) := ProcessRun(t, start, agent, elapsed, now);
      && t2.status in {"completed", "error"}
      && a2.status in {Some("success"), Some("error")}
      && (t2.status == "completed" <==> reply.Ok?)
      && (reply.Ok? <==> a2.status == Some("success"))
      && (reply.Err? ==> t2.status !in TranscriptStatuses)
      && (t.status == "processing" ==> t2.updated_at == Some(now))
      && t2.id == t.id && t2.created_at == t.created_at
      && a2.id == start.id
  {
  }

  /**
   * `process_transcript` with the start activity built from the table's own
   * columns (`action`, `activity_metadata`). `agent` is what the agent call
   * returns or raises; `activityId` the id of the start row.
   */
  method ProcessTranscript(db: Database, uid: string, raw: RawId, agent: Result<Object, string>, activityId: Uuid,
                           elapsed: JsonValue, now: Timestamp)
    returns (r: Result<ProcessReply, HttpError>)
    requires db.Valid()
    requires forall k :: 0 <= k < |db.activities| ==> db.activities[k].id != activityId
    modifies db
    ensures db.Valid()
    ensures db.users == old(db.users) && db.plans == old(db.plans)
    ensures db.watches == old(db.watches) && db.updates == old(db.updates) && db.contents == old(db.contents)
    ensures var g := ProcessGuard(old(db.users), old(db.transcripts), uid, raw);
      && (g.Err? ==> r == Err(g.error) && db.transcripts == old(db.transcripts) && db.activities == old(db.activities))
      && (g.Ok? ==>
            var user := FindByUid(old(db.users), uid).value;
            var locked := g.value.(status := "processing", updated_at := Some(now));
            var run := ProcessRun(locked, ProcessStartActivity(activityId, user, raw, now), agent, elapsed, now);
            && db.transcripts == old(db.transcripts)[raw.id := run.0]
            && db.transcripts[raw.id].updated_at == Some(now)
            && db.activities == old(db.activities) + [run.1]
            && r == run.2)
  {
    var g := ProcessGuard(db.users, db.transcripts, uid, raw);
    if g.Err? {
      return Err(g.error);
    }
    r := RunGuarded(db, g.value, FindByUid(db.users, uid).value, raw, agent, activityId, elapsed, now);
  }

  /** `transcript.status = "processing"; db.commit()`, then the start row is added. */
  method LockTranscript(db: Database, t: Transcript, start: AgentActivity, now: Timestamp) returns (locked: Transcript)
    requires db.Valid() && t.id in db.transcripts && db.transcripts[t.id] == t && t.status != "processing"
    requires forall k :: 0 <= k < |db.activities| ==> db.activities[k].id != start.id
    modifies db
    ensures db.Valid()
    ensures locked == t.(status := "processing", updated_at := Some(now))
    ensures db.transcripts == old(db.transcripts)[t.id := locked]
    ensures db.activities == old(db.activities) + [start]
    ensures db.users == old(db.users) && db.plans == old(db.plans)
    ensures db.watches == old(db.watches) && db.updates == old(db.updates) && db.contents == old(db.contents)
  {
    db.CommitTranscript(t.(status := "processing"), now);
    locked := db.transcripts[t.id];
    db.AddActivity(start);
  }

  /** The writes of `process_transcript` once the guard has passed for the stored transcript `t`: the
      "processing" commit, the start row, then the outcome's commit and the start row's update. */
  method RunGuarded(db: Database, t: Transcript, user: int, raw: RawId, agent: Result<Object, string>,
                    activityId: Uuid, elapsed: JsonValue, now: Timestamp)
    returns (r: Result<ProcessReply, HttpError>)
    requires db.Valid() && t.id in db.transcripts && db.transcripts[t.id] == t && t.status != "processing"
    requires forall k :: 0 <= k < |db.activities| ==> db.activities[k].id != activityId
    modifies db
    ensures db.Valid()
    ensures db.users == old(db.users) && db.plans == old(db.plans)
    ensures db.watches == old(db.watches) && db.updates == old(db.updates) && db.contents == old(db.contents)
    ensures var locked := t.(status := "processing", updated_at := Some(now));
      var run := ProcessRun(locked, ProcessStartActivity(activityId, user, raw, now), agent, elapsed, now);
      && db.transcripts == old(db.transcripts)[t.id := run.0]
      && db.transcripts[t.id].updated_at == Some(now)
      && db.activities == old(db.activities) + [run.1]
      && r == run.2
  {
    var start := ProcessStartActivity(activityId, user, raw, now);
    var locked := LockTranscript(db, t, start, now);
    var run := ProcessRun(locked, start, agent, elapsed, now);
    db.transcripts := db.transcripts[t.id := run.0];
    db.SetActivity(|db.activities| - 1, run.1);
    r := run.2;
  }

  // ---------------------------------------------------------------------------
  // Listing

  datatype TranscriptSummary = TranscriptSummary(id: string, title: string, status: string,
                                                 file_metadata: Option<Object>, created_at: Timestamp,
                                                 has_results: bool)

  /** `has_results` is `analysis is not None`. */
  function SummaryOf(t: Transcript): (v: TranscriptSummary)
    ensures v.has_results <==> t.analysis != JNull
    ensures v.id == t.id.text && v.created_at == t.created_at
  {
    TranscriptSummary(t.id.text, t.title, t.status, t.file_metadata, t.created_at, t.analysis != JNull)
  }

  function UsersTranscripts(transcripts: map<Uuid, Transcript>, user: int): set<Uuid> {
    set id | id in transcripts && transcripts[id].user_id == user
  }

  predicate SummarisesOwned(transcripts: map<Uuid, Transcript>, user: int, v: TranscriptSummary) {
    var id := Uuid(v.id);
    id in transcripts && transcripts[id].user_id == user && v == SummaryOf(transcripts[id])
  }

  function TranscriptCreatedAt(t: Transcript): int {
    t.created_at
  }

  /**
   * `get_user_transcripts`: every transcript of the caller, newest first. The
   * user 404 is caught by the generic handler, whose detail is fixed.
   */
  ghost function GetUserTranscripts(users: map<int, User>, transcripts: map<Uuid, Transcript>, uid: string)
    : (r: Result<seq<TranscriptSummary>, HttpError>)
    requires UniqueUids(users)
    requires forall id :: id in transcripts ==> transcripts[id].id == id
    ensures FindByUid(users, uid).None? <==> r == Err(HttpError(500, "Failed to fetch transcripts"))
    ensures r.Ok? ==> var user := FindByUid(users, uid).value;
      && |r.value| == |UsersTranscripts(transcripts, user)|
      && (forall i :: 0 <= i < |r.value| ==> SummarisesOwned(transcripts, user, r.value[i]))
      && (forall i, j :: 0 <= i < j < |r.value| ==> r.value[i].created_at >= r.value[j].created_at)
      && (forall i, j :: 0 <= i < j < |r.value| ==> r.value[i].id != r.value[j].id)
  {
    match FindByUid(users, uid)
    case None => Err(HttpError(500, "Failed to fetch transcripts"))
    case Some(user) =>
      var ids := UsersTranscripts(transcripts, user);
      var feed := Newest(transcripts, ids, TranscriptCreatedAt, |ids|);
      var r := seq(|feed|, i requires 0 <= i < |feed| => SummaryOf(transcripts[feed[i]]));
      SummaryViews(transcripts, user, feed, r);
      Ok(r)
  }

  lemma SummaryViews(transcripts: map<Uuid, Transcript>, user: int, feed: seq<Uuid>, r: seq<TranscriptSummary>)
    requires forall id :: id in transcripts ==> transcripts[id].id == id
    requires forall i :: 0 <= i < |feed| ==> feed[i] in transcripts && feed[i] in UsersTranscripts(transcripts, user)
    requires forall i, j :: 0 <= i < j < |feed| ==> feed[i] != feed[j]
    requires forall i, j :: 0 <= i < j < |feed| ==>
      TranscriptCreatedAt(transcripts[feed[i]]) >= TranscriptCreatedAt(transcripts[feed[j]])
    requires |r| == |feed| && forall i :: 0 <= i < |r| ==> r[i] == SummaryOf(transcripts[feed[i]])
    ensures forall i :: 0 <= i < |r| ==> SummarisesOwned(transcripts, user, r[i])
    ensures forall i, j :: 0 <= i < j < |r| ==> r[i].created_at >= r[j].created_at
    ensures forall i, j :: 0 <= i < j < |r| ==> r[i].id != r[j].id
  {
    forall i | 0 <= i < |r|
      ensures SummarisesOwned(transcripts, user, r[i])
    {
      assert transcripts[feed[i]].id == feed[i];
    }
    forall i, j | 0 <= i < j < |r|
      ensures r[i].id != r[j].id
    {
      assert transcripts[feed[i]].id == feed[i] && transcripts[feed[j]].id == feed[j];
    }
  }

  // ---------------------------------------------------------------------------
  // Task status

  /** What `AsyncResult(task_id)` reports: the state name, `info` (the progress dict or the exception),
      `str(info)`, and the stored result. */
  datatype TaskResult = TaskResult(state: string, info: JsonValue, infoText: string, result: JsonValue)

  /** The keys after `task_id` and `state`, per state; `message` is the progress message in a progress reply. */
  datatype TaskBody =
    | Waiting(message: string)
    | InProgress(current: JsonValue, total: JsonValue, progress: JsonValue)
    | Done(result: JsonValue, message: string)
    | Failure(error: string, message: string)

  datatype TaskStatusReply = TaskStatusReply(task_id: string, state: string, body: TaskBody)

  /** `get_task_status`: four shapes keyed on the state; `.get` on a progress `info` that is not a dict raises. */
  function GetTaskStatus(taskId: string, t: TaskResult): (r: Result<TaskStatusReply, HttpError>)
    ensures r.Ok? ==> r.value.task_id == taskId && r.value.state == t.state
    ensures t.state == "PENDING" ==>
      r == Ok(TaskStatusReply(taskId, t.state, Waiting("Task is waiting to be processed")))
    ensures t.state == "PROGRESS" && t.info.JObj? ==>
      r == Ok(TaskStatusReply(taskId, t.state,
                              InProgress(Get(t.info.fields, "current", JInt(0)), Get(t.info.fields, "total", JInt(1)),
                                         Get(t.info.fields, "message", JStr("Processing...")))))
    ensures t.state == "PROGRESS" && !t.info.JObj? ==>
      r == Err(HttpError(500, "Failed to get task status: " + ("'" + TypeName(t.info) + "' object has no attribute 'get'")))
    ensures t.state == "SUCCESS" ==>
      r == Ok(TaskStatusReply(taskId, t.state, Done(t.result, "Task completed successfully")))
    ensures t.state !in {"PENDING", "PROGRESS", "SUCCESS"} ==>
      r == Ok(TaskStatusReply(taskId, t.state, Failure(t.infoText, "Task failed")))
  {
    if t.state == "PENDING" then Ok(TaskStatusReply(taskId, t.state, Waiting("Task is waiting to be processed")))
    else if t.state == "PROGRESS" then
      match GetAttr(t.info, "current", JInt(0))
      case Err(e) => Err(Handled("Failed to get task status: ", OtherException(e)))
      case Ok(current) =>
        var body := InProgress(current, Get(t.info.fields, "total", JInt(1)),
                               Get(t.info.fields, "message", JStr("Processing...")));
        Ok(TaskStatusReply(taskId, t.state, body))
    else if t.state == "SUCCESS" then Ok(TaskStatusReply(taskId, t.state, Done(t.result, "Task completed successfully")))
    else Ok(TaskStatusReply(taskId, t.state, Failure(t.infoText, "Task failed")))
  }

  /** A progress report without counters reports 0 of 1, "Processing...". */
  lemma ProgressDefaults(taskId: string, t: TaskResult)
    requires t.state == "PROGRESS" && t.info == JObj(map[])
    ensures GetTaskStatus(taskId, t).Ok? &&
      GetTaskStatus(taskId, t).value.body == InProgress(JInt(0), JInt(1), JStr("Processing..."))
  {
  }
}
