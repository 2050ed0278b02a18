/**
 * The Market Maven endpoints of `backend/api/agents/market_maven.py`: watches
 * and analysis requests add rows and enqueue work; the status, results and
 * update-feed endpoints read rows back, filtered by the caller's id (the test
 * variants without that filter).
 */
module MarketMaven {
  import opened Wrappers
  import opened Json
  import opened Text
  import opened Models
  import opened AiModels
  import opened Store

  const AgentType := "market_maven"

  // ---------------------------------------------------------------------------
  // Watches

  /** `CompetitorWatchCreate`: `check_frequency` defaults to "daily" when the body omits it. */
  datatype WatchRequest = WatchRequest(competitor_name: string, website_url: string, check_frequency: Option<string>)

  /** `CompetitorWatchResponse`. */
  datatype WatchView = WatchView(id: string, competitor_name: string, website_url: string, is_active: bool,
                                 check_frequency: string, last_checked_at: Option<Timestamp>, created_at: Timestamp)

  function WatchViewOf(w: CompetitorWatch): WatchView {
    WatchView(w.id.text, w.competitor_name, w.website_url, w.is_active, w.check_frequency, w.last_checked_at,
              w.created_at)
  }

  function WatchCreatedMetadata(watchId: Uuid, req: WatchRequest): Object {
    map["competitor_watch_id" := JStr(watchId.text), "competitor_name" := JStr(req.competitor_name),
        "website_url" := JStr(req.website_url)]
  }

  /**
   * `create_competitor_watch`: stores an active watch, then logs one "success"
   * activity naming it. `watchId` and `activityId` are the ids the database
   * assigns; the URL is taken as pydantic's normalised text.
   */
  method CreateCompetitorWatch(db: Database, user: int, req: WatchRequest, watchId: Uuid, activityId: Uuid,
                               now: Timestamp)
    returns (r: WatchView)
    requires db.Valid()
    requires watchId !in db.watches
    requires forall k :: 0 <= k < |db.activities| ==> db.activities[k].id != activityId
    modifies db
    ensures db.Valid()
    ensures var w := NewWatch(watchId, user, req.competitor_name, req.website_url, Some(true), req.check_frequency, now);
      && db.watches == old(db.watches)[watchId := w]
      && r == WatchViewOf(w)
    ensures db.activities == old(db.activities) +
      [NewActivity(activityId, user, AgentType, "competitor_watch_created", Some(WatchCreatedMetadata(watchId, req)),
                   Some("success"), None, now)]
    ensures db.users == old(db.users) && db.plans == old(db.plans) && db.transcripts == old(db.transcripts)
    ensures db.updates == old(db.updates) && db.contents == old(db.contents)
  {
    var w := NewWatch(watchId, user, req.competitor_name, req.website_url, Some(true), req.check_frequency, now);
    db.watches := db.watches[watchId := w];
    var a := NewActivity(activityId, user, AgentType, "competitor_watch_created",
                         Some(WatchCreatedMetadata(watchId, req)), Some("success"), None, now);
    db.AddActivity(a);
    r := WatchViewOf(w);
  }

  /** A stored watch is active and checks daily unless the request chose another frequency. */
  lemma CreatedWatchDefaults(user: int, req: WatchRequest, watchId: Uuid, now: Timestamp)
    ensures var w := NewWatch(watchId, user, req.competitor_name, req.website_url, Some(true), req.check_frequency, now);
      && w.is_active
      && (req.check_frequency.None? ==> w.check_frequency == "daily")
      && w.last_checked_at.None?
  {
  }

  // ---------------------------------------------------------------------------
  // Starting an analysis

  /** The JSON reply of `/analyze` (and, with `testUser`, of `/test/analyze`). */
  datatype AnalyzeReply = AnalyzeReply(activity_id: string, task_id: string, status: string, message: string,
                                       testUser: Option<int>)

  /** The start row's metadata; `stamp` is `datetime.utcnow().isoformat()`. */
  function AnalysisStartMetadata(data: string, stamp: string, test: bool): (m: Object)
    ensures m.Keys == (if test then {"test_mode", "data_length", "timestamp"} else {"data_length", "timestamp"})
    ensures "data_length" in m && m["data_length"] == JInt(|data|)
    ensures "timestamp" in m && m["timestamp"] == JStr(stamp)
    ensures test ==> "test_mode" in m && m["test_mode"] == JBool(true)
  {
    var base := map["data_length" := JInt(|data|), "timestamp" := JStr(stamp)];
    if test then base["test_mode" := JBool(true)] else base
  }

  /**
   * `analyze_competitor_data`: one "processing" activity row is written before
   * the task is enqueued with that row's id; the reply reports "processing".
   */
  method AnalyzeCompetitorData(db: Database, queue: TaskQueue, user: int, data: string, activityId: Uuid,
                               taskId: string, stamp: string, now: Timestamp)
    returns (r: AnalyzeReply)
    requires db.Valid()
    requires forall k :: 0 <= k < |db.activities| ==> db.activities[k].id != activityId
    modifies db, queue
    ensures db.Valid()
    ensures db.activities == old(db.activities) +
      [NewActivity(activityId, user, AgentType, "competitor_analysis_started",
                   Some(AnalysisStartMetadata(data, stamp, false)), Some("processing"), None, now)]
    ensures queue.sent == old(queue.sent) + [CompetitorAnalysisTask(taskId, activityId.text, data, user)]
    ensures r == AnalyzeReply(activityId.text, taskId, "processing",
                              "Competitor analysis started. Use the activity_id to check status.", None)
    ensures db.users == old(db.users) && db.plans == old(db.plans) && db.transcripts == old(db.transcripts)
    ensures db.watches == old(db.watches) && db.updates == old(db.updates) && db.contents == old(db.contents)
  {
    var a := NewActivity(activityId, user, AgentType, "competitor_analysis_started",
                         Some(AnalysisStartMetadata(data, stamp, false)), Some("processing"), None, now);
    db.AddActivity(a);
    queue.Send(CompetitorAnalysisTask(taskId, activityId.text, data, user));
    r := AnalyzeReply(activityId.text, taskId, "processing",
                      "Competitor analysis started. Use the activity_id to check status.", None);
  }

  const TestEmail := "test@defineconsult.co"

  /** The user `/test/analyze` creates when no row has the test e-mail (it assumes plan 1 exists). */
  function TestUser(id: int, now: Timestamp): User {
    NewUser(id, "test-market-maven-user", TestEmail, Some("Market Maven Test User"), None, Some(1), now)
  }

  /** The user lookup of `/test/analyze`: the row with the test e-mail, or a newly inserted test user, or
      None when the insert is refused. */
  method ProvideTestUser(db: Database, newUserId: int, now: Timestamp) returns (uid: Option<int>)
    requires db.Valid()
    requires newUserId !in db.users
    modifies db
    ensures db.Valid()
    ensures db.NonUserTables() == old(db.NonUserTables())
    ensures var existing := FindByEmail(old(db.users), TestEmail);
      var created := existing.None? && Admissible(old(db.users)[newUserId := TestUser(newUserId, now)], old(db.plans));
      && uid == (if existing.Some? then existing else if created then Some(newUserId) else None)
      && db.users == (if created then old(db.users)[newUserId := TestUser(newUserId, now)] else old(db.users))
  {
    var existing := FindByEmail(db.users, TestEmail);
    if existing.Some? {
      uid := existing;
    } else {
      var ok := db.InsertUser(TestUser(newUserId, now));
      uid := if ok then Some(newUserId) else None;
    }
  }

  /**
   * `test_analyze_competitor_data`: finds the test user by e-mail or creates
   * it, then logs and enqueues like `/analyze` with `test_mode` set. Creating
   * the user fails at commit when plan 1 is missing or the test uid is taken;
   * `dbError` is the driver's message for that failure and `newUserId` the id
   * the database would assign.
   */
  method TestAnalyzeCompetitorData(db: Database, queue: TaskQueue, data: string, newUserId: int, activityId: Uuid,
                                   taskId: string, stamp: string, now: Timestamp, dbError: string)
    returns (r: Result<AnalyzeReply, HttpError>)
    requires db.Valid()
    requires newUserId !in db.users
    requires forall k :: 0 <= k < |db.activities| ==> db.activities[k].id != activityId
    modifies db, queue
    ensures db.Valid()
    ensures db.plans == old(db.plans) && db.transcripts == old(db.transcripts)
    ensures db.watches == old(db.watches) && db.updates == old(db.updates) && db.contents == old(db.contents)
    ensures var existing := FindByEmail(old(db.users), TestEmail);
      var created := existing.None? && Admissible(old(db.users)[newUserId := TestUser(newUserId, now)], old(db.plans));
      // The insert is refused: nothing is written, the failure surfaces as 500.
      && (existing.None? && !created ==>
            && r == Err(HttpError(500, "Failed to start test analysis: " + dbError))
            && db.users == old(db.users) && db.activities == old(db.activities) && queue.sent == old(queue.sent))
      && (existing.Some? || created ==>
            var uid := if existing.Some? then existing.value else newUserId;
            && db.users == (if created then old(db.users)[newUserId := TestUser(newUserId, now)] else old(db.users))
            && db.activities == old(db.activities) +
                 [NewActivity(activityId, uid, AgentType, "test_competitor_analysis_started",
                              Some(AnalysisStartMetadata(data, stamp, true)), Some("processing"), None, now)]
            && queue.sent == old(queue.sent) + [CompetitorAnalysisTask(taskId, activityId.text, data, uid)]
            && r == Ok(AnalyzeReply(activityId.text, taskId, "processing",
                        "Test competitor analysis started. Use the activity_id to check status.", Some(uid))))
  {
    var found := ProvideTestUser(db, newUserId, now);
    if found.None? {
      return Err(HttpError(500, "Failed to start test analysis: " + dbError));
    }
    var uid := found.value;
    var a := NewActivity(activityId, uid, AgentType, "test_competitor_analysis_started",
                         Some(AnalysisStartMetadata(data, stamp, true)), Some("processing"), None, now);
    db.AddActivity(a);
    queue.Send(CompetitorAnalysisTask(taskId, activityId.text, data, uid));
    r := Ok(AnalyzeReply(activityId.text, taskId, "processing",
                         "Test competitor analysis started. Use the activity_id to check status.", Some(uid)));
  }

  /** The test user is created only when no user has the test e-mail, and then only if plan 1 exists and
      the test uid is free. */
  lemma TestUserCreatedOnlyIfPlanOneExists(users: map<int, User>, plans: map<int, Plan>, id: int, now: Timestamp)
    requires Admissible(users, plans) && id !in users
    requires FindByEmail(users, TestEmail).None?
    ensures Admissible(users[id := TestUser(id, now)], plans) <==>
      1 in plans && FindByUid(users, "test-market-maven-user").None?
  {
    InsertAdmissible(users, plans, TestUser(id, now));
  }

  // ---------------------------------------------------------------------------
  // Reading an analysis back

  const NotFound := HttpError(404, "Analysis activity not found")
  const BadActivityId := HttpError(400, "Invalid activity ID format")

  /** The status reply; `test_mode` is the extra key the test variant adds. */
  datatype StatusView = StatusView(activity_id: string, status: Option<string>, action: string, created_at: Timestamp,
                                   processing_time_seconds: JsonValue, error_message: Option<string>,
                                   metadata: Option<Object>, test_mode: bool)

  function StatusViewOf(a: AgentActivity, test: bool): StatusView {
    StatusView(a.id.text, a.status, a.action, a.created_at, a.processing_time_seconds, a.error_message,
               a.activity_metadata, test)
  }

  /** The row the query returns, or what the `try` body raises; a malformed id is the ValueError case. */
  function LookupActivity(acts: seq<AgentActivity>, raw: RawId, owner: Option<int>): Result<AgentActivity, Exception> {
    if raw.Malformed? then Err(OtherException(BadUuidError))
    else match FindActivity(acts, raw.id, owner)
      case None => Err(HttpException(NotFound))
      case Some(i) => Ok(acts[i])
  }

  /** The two handlers of a lookup endpoint: ValueError becomes 400, anything else is rewrapped as 500. */
  function Respond<T>(raw: RawId, prefix: string, body: Result<T, Exception>): Result<T, HttpError> {
    if raw.Malformed? then Err(BadActivityId)
    else match body
      case Ok(v) => Ok(v)
      case Err(x) => Err(Handled(prefix, x))
  }

  function StatusBody(acts: seq<AgentActivity>, raw: RawId, owner: Option<int>): Result<StatusView, Exception> {
    match LookupActivity(acts, raw, owner)
    case Err(x) => Err(x)
    case Ok(a) => Ok(StatusViewOf(a, owner.None?))
  }

  /** `get_analysis_status`: the row must have this id and belong to the caller. */
  function GetAnalysisStatus(acts: seq<AgentActivity>, raw: RawId, user: int): (r: Result<StatusView, HttpError>)
    ensures raw.Malformed? ==> r == Err(BadActivityId)
    ensures raw.Wellformed? && FindActivity(acts, raw.id, Some(user)).None? ==>
      r == Err(Rewrap("Failed to get analysis status: ", NotFound))
    ensures r.Ok? <==> raw.Wellformed? && FindActivity(acts, raw.id, Some(user)).Some?
    ensures r.Ok? ==> exists k :: 0 <= k < |acts| && acts[k].id == raw.id && acts[k].user_id == user &&
                                   r.value == StatusViewOf(acts[k], false)
  {
    Respond(raw, "Failed to get analysis status: ", StatusBody(acts, raw, Some(user)))
  }

  /** `test_get_analysis_status`: the same lookup without the owner filter. */
  function TestGetAnalysisStatus(acts: seq<AgentActivity>, raw: RawId): (r: Result<StatusView, HttpError>)
    ensures raw.Malformed? ==> r == Err(BadActivityId)
    ensures raw.Wellformed? && FindActivity(acts, raw.id, None).None? ==>
      r == Err(Rewrap("Failed to get test analysis status: ", NotFound))
    ensures r.Ok? <==> raw.Wellformed? && FindActivity(acts, raw.id, None).Some?
    ensures r.Ok? ==> exists k :: 0 <= k < |acts| && acts[k].id == raw.id && r.value == StatusViewOf(acts[k], true)
  {
    Respond(raw, "Failed to get test analysis status: ", StatusBody(acts, raw, None))
  }

  /** The 404 reaches the client as a 500 whose detail carries the original code and text. */
  lemma MissingAnalysisIs500(acts: seq<AgentActivity>, raw: RawId, user: int)
    requires raw.Wellformed? && FindActivity(acts, raw.id, Some(user)).None?
    ensures GetAnalysisStatus(acts, raw, user) ==
      Err(HttpError(500, "Failed to get analysis status: " + "404" + ": " + "Analysis activity not found"))
  {
    RewrapShowsCode("Failed to get analysis status: ", NotFound);
  }

  /**
   * Ownership: an authenticated caller sees exactly the rows the test variant
   * shows that belong to them; another user's row is reported missing.
   */
  lemma StatusOwnership(acts: seq<AgentActivity>, raw: RawId, user: int)
    requires DistinctIds(acts) && raw.Wellformed?
    ensures var t := TestGetAnalysisStatus(acts, raw);
      var i := FindActivity(acts, raw.id, None);
      && (i.Some? && acts[i.value].user_id == user ==>
            GetAnalysisStatus(acts, raw, user) == Ok(t.value.(test_mode := false)))
      && (i.Some? && acts[i.value].user_id != user ==>
            t.Ok? && GetAnalysisStatus(acts, raw, user).Err?)
  {
    OwnedLookupIsFilteredLookup(acts, raw.id, user);
  }

  /** The results reply; `test_mode` is the extra key the test variant adds. */
  datatype ResultsView = ResultsView(activity_id: string, status: string, results: JsonValue,
                                     processing_time_seconds: JsonValue, tokens_used: Option<int>,
                                     created_at: Timestamp, test_mode: bool)

  /** `f"{activity.status}"`: a NULL status prints as None. */
  function StatusText(s: Option<string>): string {
    match s
    case None => "None"
    case Some(v) => v
  }

  /** The refusal for a run that has not succeeded. */
  function NotCompleted(s: Option<string>): HttpError {
    HttpError(400, "Analysis not completed. Current status: " + StatusText(s))
  }

  /** The AttributeError of `.get` on a NULL metadata column. */
  const NoneGetError := "'NoneType' object has no attribute 'get'"

  function ResultsBody(acts: seq<AgentActivity>, raw: RawId, owner: Option<int>): Result<ResultsView, Exception> {
    match LookupActivity(acts, raw, owner)
    case Err(x) => Err(x)
    case Ok(a) =>
      if a.status != Some("success") then Err(HttpException(NotCompleted(a.status)))
      else match a.activity_metadata
        case None => Err(OtherException(NoneGetError))
        case Some(m) =>
          Ok(ResultsView(a.id.text, "success", Get(m, "analysis_results", JObj(map[])), a.processing_time_seconds,
                         a.tokens_used, a.created_at, owner.None?))
  }

  /** The reply for a found row, or what the body raises for it. */
  ghost predicate ResultsOfRow(a: AgentActivity, test: bool, prefix: string, r: Result<ResultsView, HttpError>) {
    if a.status != Some("success") then r == Err(Rewrap(prefix, NotCompleted(a.status)))
    else if a.activity_metadata.None? then r == Err(HttpError(500, prefix + NoneGetError))
    else r == Ok(ResultsView(a.id.text, "success", Get(a.activity_metadata.value, "analysis_results", JObj(map[])),
                             a.processing_time_seconds, a.tokens_used, a.created_at, test))
  }

  /** `get_analysis_results`: owned rows only; refused unless the run succeeded; the stored results or `{}`. */
  function GetAnalysisResults(acts: seq<AgentActivity>, raw: RawId, user: int): (r: Result<ResultsView, HttpError>)
    ensures raw.Malformed? ==> r == Err(BadActivityId)
    ensures raw.Wellformed? && FindActivity(acts, raw.id, Some(user)).None? ==>
      r == Err(Rewrap("Failed to get analysis results: ", NotFound))
    ensures raw.Wellformed? && FindActivity(acts, raw.id, Some(user)).Some? ==>
      var a := acts[FindActivity(acts, raw.id, Some(user)).value];
      a.id == raw.id && a.user_id == user && ResultsOfRow(a, false, "Failed to get analysis results: ", r)
    ensures r.Ok? ==> r.value.status == "success"
  {
    Respond(raw, "Failed to get analysis results: ", ResultsBody(acts, raw, Some(user)))
  }

  /** `test_get_analysis_results`: the same without the owner filter. */
  function TestGetAnalysisResults(acts: seq<AgentActivity>, raw: RawId): (r: Result<ResultsView, HttpError>)
    ensures raw.Malformed? ==> r == Err(BadActivityId)
    ensures raw.Wellformed? && FindActivity(acts, raw.id, None).None? ==>
      r == Err(Rewrap("Failed to get test analysis results: ", NotFound))
    ensures raw.Wellformed? && FindActivity(acts, raw.id, None).Some? ==>
      var a := acts[FindActivity(acts, raw.id, None).value];
      a.id == raw.id && ResultsOfRow(a, true, "Failed to get test analysis results: ", r)
    ensures r.Ok? ==> r.value.status == "success"
  {
    Respond(raw, "Failed to get test analysis results: ", ResultsBody(acts, raw, None))
  }

  /** A run still "processing" is refused with a 500 naming its status; a NULL status is named "None". */
  lemma UnfinishedResultsNameStatus(a: AgentActivity, acts: seq<AgentActivity>, raw: RawId, user: int)
    requires raw.Wellformed? && FindActivity(acts, raw.id, Some(user)) == Some(0) && acts[0] == a
    ensures a.status == Some("processing") ==>
      GetAnalysisResults(acts, raw, user) ==
        Err(HttpError(500, "Failed to get analysis results: " + "400" + ": " +
                           "Analysis not completed. Current status: " + "processing"))
    ensures a.status.None? ==>
      GetAnalysisResults(acts, raw, user) ==
        Err(HttpError(500, "Failed to get analysis results: " + "400" + ": " +
                           "Analysis not completed. Current status: " + "None"))
  {
    var p := "Failed to get analysis results: ";
    RewrapShowsCode(p, NotCompleted(a.status));
    var q := p + "400" + ": ";
    var m := "Analysis not completed. Current status: ";
    assert q + (m + StatusText(a.status)) == q + m + StatusText(a.status);
  }

  /** A successful run whose metadata has no results replies with an empty object. */
  lemma MissingResultsAreEmpty(a: AgentActivity, m: Object, test: bool, prefix: string, r: Result<ResultsView, HttpError>)
    requires a.status == Some("success") && a.activity_metadata == Some(m) && "analysis_results" !in m
    requires ResultsOfRow(a, test, prefix, r)
    ensures r.Ok? && r.value.results == JObj(map[])
  {
  }

  // ---------------------------------------------------------------------------
  // The update feed

  /** `CompetitorUpdateResponse`. */
  datatype UpdateView = UpdateView(id: string, competitor_name: string, update_type: string, title: string,
                                   ai_summary: Option<string>, ai_impact_analysis: Option<string>, status: string,
                                   detected_at: Timestamp)

  /** `watch_map.get(update.competitor_watch_id, "Unknown")` over the watches the feed references. */
  function UpdateViewOf(u: CompetitorUpdate, watches: map<Uuid, CompetitorWatch>): (v: UpdateView)
    ensures v.competitor_name == if u.competitor_watch_id in watches then watches[u.competitor_watch_id].competitor_name
                                 else "Unknown"
    ensures v.id == u.id.text && v.status == u.status && v.detected_at == u.detected_at
  {
    var name := if u.competitor_watch_id in watches then watches[u.competitor_watch_id].competitor_name else "Unknown";
    UpdateView(u.id.text, name, u.update_type, u.title, u.ai_summary, u.ai_impact_analysis, u.status, u.detected_at)
  }

  /** `if status:` filters only for a non-empty status. */
  predicate StatusPasses(filter: Option<string>, s: string) {
    filter.None? || filter.value == "" || s == filter.value
  }

  /** `v` is the view of one of the caller's updates that passes the filter: the one its id names. */
  predicate OwnedRowView(updates: map<Uuid, CompetitorUpdate>, watches: map<Uuid, CompetitorWatch>, user: int,
                         filter: Option<string>, v: UpdateView) {
    var id := Uuid(v.id);
    id in updates && updates[id].user_id == user && StatusPasses(filter, updates[id].status) &&
    v == UpdateViewOf(updates[id], watches)
  }

  /** The caller's updates that pass the status filter. */
  function Selected(updates: map<Uuid, CompetitorUpdate>, user: int, filter: Option<string>): set<Uuid> {
    set id | id in updates && updates[id].user_id == user && StatusPasses(filter, updates[id].status)
  }

  /**
   * `list_competitor_updates`: the caller's updates passing the filter, newest
   * `detected_at` first, at most `limit` of them; updates with equal times come
   * in an order the database picks.
   */
  ghost function ListCompetitorUpdates(updates: map<Uuid, CompetitorUpdate>, watches: map<Uuid, CompetitorWatch>,
                                       user: int, filter: Option<string>, limit: nat): (r: seq<UpdateView>)
    requires forall id :: id in updates ==> updates[id].id == id
    ensures var n := |Selected(updates, user, filter)|; |r| == if limit < n then limit else n
    ensures forall i :: 0 <= i < |r| ==> OwnedRowView(updates, watches, user, filter, r[i])
    ensures forall i, j :: 0 <= i < j < |r| ==> r[i].detected_at >= r[j].detected_at
    ensures forall i, j :: 0 <= i < j < |r| ==> r[i].id != r[j].id
    ensures forall id, i :: id in Selected(updates, user, filter) && 0 <= i < |r| &&
                            (forall j :: 0 <= j < |r| ==> r[j].id != id.text) ==>
                              updates[id].detected_at <= r[i].detected_at
  {
    var ids := Selected(updates, user, filter);
    var feed := Newest(updates, ids, DetectedAt, limit);
    var r := ViewsOf(updates, watches, feed);
    FeedViews(updates, watches, user, filter, feed, r);
    r
  }

  /** The view of each listed update, in the listed order. */
  function ViewsOf(updates: map<Uuid, CompetitorUpdate>, watches: map<Uuid, CompetitorWatch>, feed: seq<Uuid>)
    : (r: seq<UpdateView>)
    requires forall i :: 0 <= i < |feed| ==> feed[i] in updates
    ensures |r| == |feed| && forall i :: 0 <= i < |r| ==> r[i] == UpdateViewOf(updates[feed[i]], watches)
  {
    seq(|feed|, i requires 0 <= i < |feed| => UpdateViewOf(updates[feed[i]], watches))
  }

  function DetectedAt(u: CompetitorUpdate): int {
    u.detected_at
  }

  /** The views of a top-`limit` selection inherit its ownership, order and completeness. */
  lemma FeedViews(updates: map<Uuid, CompetitorUpdate>, watches: map<Uuid, CompetitorWatch>, user: int,
                  filter: Option<string>, feed: seq<Uuid>, r: seq<UpdateView>)
    requires forall id :: id in updates ==> updates[id].id == id
    requires var ids := Selected(updates, user, filter);
      && (forall i :: 0 <= i < |feed| ==> feed[i] in ids)
      && (forall i, j :: 0 <= i < j < |feed| ==> feed[i] != feed[j])
      && (forall i, j :: 0 <= i < j < |feed| ==> DetectedAt(updates[feed[i]]) >= DetectedAt(updates[feed[j]]))
      && (forall x, i :: x in ids && x !in feed && 0 <= i < |feed| ==>
            DetectedAt(updates[x]) <= DetectedAt(updates[feed[i]]))
    requires |r| == |feed| && forall i :: 0 <= i < |r| ==> r[i] == UpdateViewOf(updates[feed[i]], watches)
    ensures forall i :: 0 <= i < |r| ==> OwnedRowView(updates, watches, user, filter, r[i])
    ensures forall i, j :: 0 <= i < j < |r| ==> r[i].detected_at >= r[j].detected_at
    ensures forall i, j :: 0 <= i < j < |r| ==> r[i].id != r[j].id
    ensures forall id, i :: id in Selected(updates, user, filter) && 0 <= i < |r| &&
                            (forall j :: 0 <= j < |r| ==> r[j].id != id.text) ==>
                              updates[id].detected_at <= r[i].detected_at
  {
    var ids := Selected(updates, user, filter);
    forall i | 0 <= i < |r|
      ensures OwnedRowView(updates, watches, user, filter, r[i])
    {
      assert feed[i] in ids && updates[feed[i]].id == feed[i];
    }
    forall i, j | 0 <= i < j < |r|
      ensures r[i].id != r[j].id
    {
      assert updates[feed[i]].id == feed[i] && updates[feed[j]].id == feed[j];
    }
    assert forall j :: 0 <= j < |feed| ==> r[j].id == feed[j].text;
    forall id, i | id in ids && 0 <= i < |r| && (forall j :: 0 <= j < |r| ==> r[j].id != id.text)
      ensures updates[id].detected_at <= r[i].detected_at
    {
      assert id !in feed;
    }
  }
}
