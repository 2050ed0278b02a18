/**
 * The agent tables of `backend/models/ai_models.py`: transcripts, competitor
 * watches and updates, generated content and the agent activity log. Each
 * record is a value; the constructor functions apply the column defaults the
 * declarations give when a field is not supplied.
 */
module AiModels {
  import opened Wrappers
  import opened Json
  import opened Models

  /** A record id: a UUID assigned at creation, kept as its canonical text (`str(id)`). */
  datatype Uuid = Uuid(text: string)

  /** The status values the Transcript declaration documents. */
  const TranscriptStatuses: set<string> := {"uploaded", "processing", "completed", "failed"}
  /** The status values the CompetitorUpdate declaration documents. */
  const UpdateStatuses: set<string> := {"new", "reviewed", "archived"}
  /** The status values the GeneratedContent declaration documents. */
  const ContentStatuses: set<string> := {"draft", "approved", "published", "rejected"}
  /** The check frequencies the CompetitorWatch declaration documents. */
  const CheckFrequencies: set<string> := {"daily", "weekly"}

  /**
   * Floats (`sentiment_score`, `processing_time_seconds`) are opaque JSON
   * values; JSONB columns that may hold any decoded value are `JsonValue`s with
   * `JNull` for NULL; JSONB columns the code only ever fills with dicts are
   * optional objects.
   */
  datatype Transcript = Transcript(
    id: Uuid,
    user_id: int,
    title: string,
    content: string,
    file_metadata: Option<Object>,
    status: string,
    analysis: JsonValue,
    insights: JsonValue,
    sentiment_score: JsonValue,
    key_themes: JsonValue,
    pain_points: JsonValue,
    feature_requests: JsonValue,
    error_message: Option<string>,
    created_at: Timestamp,
    updated_at: Option<Timestamp>)

  datatype CompetitorWatch = CompetitorWatch(
    id: Uuid,
    user_id: int,
    competitor_name: string,
    website_url: string,
    is_active: bool,
    check_frequency: string,
    last_checked_at: Option<Timestamp>,
    latest_snapshot: JsonValue,
    created_at: Timestamp,
    updated_at: Option<Timestamp>)

  datatype CompetitorUpdate = CompetitorUpdate(
    id: Uuid,
    competitor_watch_id: Uuid,
    user_id: int,
    update_type: string,
    title: string,
    description: Option<string>,
    ai_summary: Option<string>,
    ai_impact_analysis: Option<string>,
    raw_data: JsonValue,
    status: string,
    user_action_taken: Option<string>,
    detected_at: Timestamp,
    reviewed_at: Option<Timestamp>)

  datatype GeneratedContent = GeneratedContent(
    id: Uuid,
    user_id: int,
    content_type: string,
    platform: Option<string>,
    title: Option<string>,
    content: string,
    prompt_used: Option<string>,
    source_data: Option<Object>,
    status: string,
    user_edits: Option<string>,
    final_version: Option<string>,
    created_at: Timestamp,
    updated_at: Option<Timestamp>)

  /** The only columns an activity row has: there is no `action_type`, `input_data` or `output_data`. */
  datatype AgentActivity = AgentActivity(
    id: Uuid,
    user_id: int,
    agent_type: string,
    action: string,
    activity_metadata: Option<Object>,
    status: Option<string>,
    error_message: Option<string>,
    processing_time_seconds: JsonValue,
    tokens_used: Option<int>,
    created_at: Timestamp)

  /** The keyword arguments the AgentActivity constructor accepts. */
  const ActivityColumns: set<string> := {"id", "user_id", "agent_type", "action", "activity_metadata", "status",
                                         "error_message", "processing_time_seconds", "tokens_used", "created_at"}

  /** ORM constructors reject a keyword that is not a column. */
  predicate AcceptsKeywords(columns: set<string>, keywords: seq<string>) {
    forall i :: 0 <= i < |keywords| ==> keywords[i] in columns
  }

  lemma ActivityHasNoInputOutputColumns(keywords: seq<string>)
    ensures "action_type" !in ActivityColumns && "input_data" !in ActivityColumns && "output_data" !in ActivityColumns
    ensures "action_type" in keywords ==> !AcceptsKeywords(ActivityColumns, keywords)
  {
    if "action_type" in keywords {
      var i :| 0 <= i < |keywords| && keywords[i] == "action_type";
      assert keywords[i] !in ActivityColumns;
    }
  }

  /** A transcript row as `Transcript(...)` creates it; `status` defaults to "uploaded". */
  function NewTranscript(id: Uuid, user: int, title: string, content: string, meta: Option<Object>,
                         status: Option<string>, now: Timestamp): (t: Transcript)
    ensures t.id == id && t.user_id == user && t.title == title && t.content == content
    ensures t.file_metadata == meta
    ensures t.status == status.GetOr("uploaded")
    ensures t.analysis == JNull && t.insights == JNull && t.sentiment_score == JNull
    ensures t.key_themes == JNull && t.pain_points == JNull && t.feature_requests == JNull
    ensures t.error_message.None? && t.created_at == now && t.updated_at.None?
  {
    Transcript(id, user, title, content, meta, status.GetOr("uploaded"),
               JNull, JNull, JNull, JNull, JNull, JNull, None, now, None)
  }

  /** A committed transcript change: `updated_at` is declared `onupdate=func.now()`, so a flush that
      changes the row stamps it with the clock and a commit that changes nothing leaves it as it was. */
  function TranscriptTouched(before: Transcript, after: Transcript, now: Timestamp): (r: Transcript)
    ensures r.(updated_at := after.updated_at) == after
    ensures r.updated_at == if after == before then before.updated_at else Some(now)
  {
    if after == before then before else after.(updated_at := Some(now))
  }

  /** A watch as created; `is_active` defaults to true and `check_frequency` to "daily". */
  function NewWatch(id: Uuid, user: int, name: string, url: string, isActive: Option<bool>,
                    frequency: Option<string>, now: Timestamp): (w: CompetitorWatch)
    ensures w.id == id && w.user_id == user && w.competitor_name == name && w.website_url == url
    ensures w.is_active == isActive.GetOr(true)
    ensures w.check_frequency == frequency.GetOr("daily")
    ensures w.last_checked_at.None? && w.latest_snapshot == JNull
    ensures w.created_at == now && w.updated_at.None?
  {
    CompetitorWatch(id, user, name, url, isActive.GetOr(true), frequency.GetOr("daily"), None, JNull, now, None)
  }

  /** An update as detected; `status` defaults to "new". */
  function NewUpdate(id: Uuid, watch: Uuid, user: int, kind: string, title: string, description: Option<string>,
                     status: Option<string>, now: Timestamp): (u: CompetitorUpdate)
    ensures u.id == id && u.competitor_watch_id == watch && u.user_id == user
    ensures u.update_type == kind && u.title == title && u.description == description
    ensures u.status == status.GetOr("new")
    ensures u.ai_summary.None? && u.ai_impact_analysis.None? && u.raw_data == JNull
    ensures u.user_action_taken.None? && u.detected_at == now && u.reviewed_at.None?
  {
    CompetitorUpdate(id, watch, user, kind, title, description, None, None, JNull, status.GetOr("new"), None, now, None)
  }

  /** A content row as created; `content` is required and `status` defaults to "draft". */
  function NewContent(id: Uuid, user: int, contentType: string, platform: Option<string>, title: Option<string>,
                      content: string, source: Option<Object>, status: Option<string>, now: Timestamp): (c: GeneratedContent)
    ensures c.id == id && c.user_id == user && c.content_type == contentType && c.platform == platform
    ensures c.title == title && c.content == content && c.source_data == source
    ensures c.status == status.GetOr("draft")
    ensures c.prompt_used.None? && c.user_edits.None? && c.final_version.None?
    ensures c.created_at == now && c.updated_at.None?
  {
    GeneratedContent(id, user, contentType, platform, title, content, None, source, status.GetOr("draft"),
                     None, None, now, None)
  }

  /** An activity row as created; only `status` and `error_message` may be given besides the required columns. */
  function NewActivity(id: Uuid, user: int, agentType: string, action: string, meta: Option<Object>,
                       status: Option<string>, error: Option<string>, now: Timestamp): (a: AgentActivity)
    ensures a.id == id && a.user_id == user && a.agent_type == agentType && a.action == action
    ensures a.activity_metadata == meta && a.status == status && a.error_message == error
    ensures a.processing_time_seconds == JNull && a.tokens_used.None? && a.created_at == now
  {
    AgentActivity(id, user, agentType, action, meta, status, error, JNull, None, now)
  }
}
