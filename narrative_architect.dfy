/**
 * The Narrative Architect endpoints of `backend/api/agents/narrative_architect.py`:
 * a generation request stores a placeholder content row, logs a start activity
 * and enqueues the work; the status, content and list endpoints read rows back
 * filtered by the caller's id; `update_content` edits four fields of an owned
 * row; the test list filters a fixed in-memory list.
 */
module NarrativeArchitect {
  import opened Wrappers
  import opened Json
  import opened Text
  import opened Models
  import opened AiModels
  import opened Store

  const AgentType := "narrative_architect"

  /** The `PlatformType` and `ContentType` enum values a request may carry. */
  const Platforms: set<string> := {"linkedin", "twitter", "medium", "blog", "email", "general"}
  const ContentTypes: set<string> := {"feature_announcement", "product_update", "thought_leadership", "social_post",
                                      "blog_post", "press_release", "case_study", "newsletter"}

  /** `ContentGenerationRequest` once validated; the optional fields may be an explicit null. */
  datatype ContentRequest = ContentRequest(platform: string, content_type: string, source_material: string,
                                           context: Option<string>, target_audience: Option<string>,
                                           brand_tone: Option<string>)

  /** A field the body may omit: the outer `None` is an omitted key, which takes the declared default. */
  function Defaulted(field: Option<Option<string>>, default: string): (r: Option<string>)
    ensures field.None? ==> r == Some(default)
    ensures field.Some? ==> r == field.value
  {
    if field.None? then Some(default) else field.value
  }

  /** Parsing a request body: omitted optional fields take their declared defaults. */
  function ParseRequest(platform: string, contentType: string, source: string, context: Option<Option<string>>,
                        audience: Option<Option<string>>, tone: Option<Option<string>>): (r: ContentRequest)
    ensures r.platform == platform && r.content_type == contentType && r.source_material == source
    ensures context.None? ==> r.context == Some("")
    ensures audience.None? ==> r.target_audience == Some("product managers and tech professionals")
    ensures tone.None? ==> r.brand_tone == Some("professional, innovative, approachable")
    ensures context.Some? ==> r.context == context.value
    ensures audience.Some? ==> r.target_audience == audience.value
    ensures tone.Some? ==> r.brand_tone == tone.value
  {
    ContentRequest(platform, contentType, source, Defaulted(context, ""),
                   Defaulted(audience, "product managers and tech professionals"),
                   Defaulted(tone, "professional, innovative, approachable"))
  }

  function OptText(s: Option<string>): JsonValue {
    if s.None? then JNull else JStr(s.value)
  }

  /** The `source_data` stored with the placeholder row. */
  function SourceData(req: ContentRequest): Object {
    map["source_material" := JStr(req.source_material), "context" := OptText(req.context),
        "target_audience" := OptText(req.target_audience), "brand_tone" := OptText(req.brand_tone)]
  }

  /** `generation_request.dict()`, as handed to the task. */
  function RequestDict(req: ContentRequest): Object {
    SourceData(req)["platform" := JStr(req.platform)]["content_type" := JStr(req.content_type)]
  }

  /** The placeholder row `generate_content` stores before any generation happens. */
  function PlaceholderContent(id: Uuid, user: int, req: ContentRequest, now: Timestamp): (c: GeneratedContent)
    ensures c.id == id && c.user_id == user && c.status == "processing" && c.content == "Processing..."
    ensures c.platform == Some(req.platform) && c.content_type == req.content_type && c.title.None?
    ensures c.prompt_used == Some("Platform: " + req.platform + ", Type: " + req.content_type)
    ensures c.source_data.Some? && c.source_data.value.Keys == {"source_material", "context", "target_audience", "brand_tone"}
    ensures c.source_data.value["source_material"] == JStr(req.source_material)
    ensures c.user_edits.None? && c.final_version.None? && c.created_at == now && c.updated_at.None?
  {
    NewContent(id, user, req.content_type, Some(req.platform), None, "Processing...", Some(SourceData(req)),
               Some("processing"), now).(prompt_used := Some("Platform: " + req.platform + ", Type: " + req.content_type))
  }

  /** The start activity's metadata; `stamp` is `datetime.utcnow().isoformat()`. */
  function GenerationStartMetadata(id: Uuid, req: ContentRequest, stamp: string): (m: Object)
    ensures m.Keys == {"content_id", "platform", "content_type", "source_length", "timestamp"}
    ensures m["content_id"] == JStr(id.text) && m["source_length"] == JInt(|req.source_material|)
  {
    map["content_id" := JStr(id.text), "platform" := JStr(req.platform), "content_type" := JStr(req.content_type),
        "source_length" := JInt(|req.source_material|), "timestamp" := JStr(stamp)]
  }

  datatype GenerateReply = GenerateReply(content_id: string, activity_id: string, task_id: string, status: string,
                                         message: string)

  /**
   * `generate_content`: one placeholder row, then one "processing" activity,
   * then the task naming both; the reply reports "processing".
   */
  method GenerateContent(db: Database, queue: TaskQueue, user: int, req: ContentRequest, contentId: Uuid,
                         activityId: Uuid, taskId: string, stamp: string, now: Timestamp)
    returns (r: GenerateReply)
    requires db.Valid()
    requires req.platform in Platforms && req.content_type in ContentTypes
    requires contentId !in db.contents
    requires forall k :: 0 <= k < |db.activities| ==> db.activities[k].id != activityId
    modifies db, queue
    ensures db.Valid()
    ensures db.contents == old(db.contents)[contentId := PlaceholderContent(contentId, user, req, now)]
    ensures db.activities == old(db.activities) +
      [NewActivity(activityId, user, AgentType, "content_generation_started",
                   Some(GenerationStartMetadata(contentId, req, stamp)), Some("processing"), None, now)]
    ensures queue.sent == old(queue.sent) +
      [ContentGenerationTask(taskId, activityId.text, contentId.text, RequestDict(req), user)]
    ensures r == GenerateReply(contentId.text, activityId.text, taskId, "processing",
                               "Content generation started. Use the content_id to check status.")
    ensures db.users == old(db.users) && db.plans == old(db.plans) && db.transcripts == old(db.transcripts)
    ensures db.watches == old(db.watches) && db.updates == old(db.updates)
  {
    db.contents := db.contents[contentId := PlaceholderContent(contentId, user, req, now)];
    db.AddActivity(NewActivity(activityId, user, AgentType, "content_generation_started",
                               Some(GenerationStartMetadata(contentId, req, stamp)), Some("processing"), None, now));
    queue.Send(ContentGenerationTask(taskId, activityId.text, contentId.text, RequestDict(req), user));
    r := GenerateReply(contentId.text, activityId.text, taskId, "processing",
                       "Content generation started. Use the content_id to check status.");
  }

  // ---------------------------------------------------------------------------
  // Owned lookups

  const BadContentId := HttpError(400, "Invalid content ID format")

  /** `filter(GeneratedContent.id == id, GeneratedContent.user_id == user).first()` found a row. */
  predicate Owned(contents: map<Uuid, GeneratedContent>, id: Uuid, user: int) {
    id in contents && contents[id].user_id == user
  }

  datatype ContentStatusView = ContentStatusView(content_id: string, status: string, platform: Option<string>,
                                                 content_type: string, created_at: Timestamp,
                                                 updated_at: Option<Timestamp>)

  /** `get_content_status`. */
  function GetContentStatus(contents: map<Uuid, GeneratedContent>, raw: RawId, user: int)
    : (r: Result<ContentStatusView, HttpError>)
    ensures raw.Malformed? ==> r == Err(BadContentId)
    ensures raw.Wellformed? && !Owned(contents, raw.id, user) ==>
      r == Err(Rewrap("Failed to get content status: ", HttpError(404, "Content generation not found")))
    ensures r.Ok? <==> raw.Wellformed? && Owned(contents, raw.id, user)
    ensures r.Ok? ==> var c := contents[raw.id];
      r.value.content_id == raw.id.text && r.value.status == c.status && r.value.updated_at == c.updated_at
  {
    if raw.Malformed? then Err(BadContentId)
    else if !Owned(contents, raw.id, user) then
      Err(Handled("Failed to get content status: ", HttpException(HttpError(404, "Content generation not found"))))
    else
      var c := contents[raw.id];
      Ok(ContentStatusView(raw.id.text, c.status, c.platform, c.content_type, c.created_at, c.updated_at))
  }

  datatype ContentDetail = ContentDetail(content_id: string, platform: Option<string>, content_type: string,
                                         title: Option<string>, content: string, status: string,
                                         source_data: Option<Object>, user_edits: Option<string>,
                                         final_version: Option<string>, created_at: Timestamp,
                                         updated_at: Option<Timestamp>)

  /** `get_generated_content`: the whole row of an owned id. */
  function GetGeneratedContent(contents: map<Uuid, GeneratedContent>, raw: RawId, user: int)
    : (r: Result<ContentDetail, HttpError>)
    ensures raw.Malformed? ==> r == Err(BadContentId)
    ensures raw.Wellformed? && !Owned(contents, raw.id, user) ==>
      r == Err(Rewrap("Failed to get generated content: ", HttpError(404, "Content not found")))
    ensures r.Ok? <==> raw.Wellformed? && Owned(contents, raw.id, user)
    ensures r.Ok? ==> var c := contents[raw.id];
      r.value.content_id == raw.id.text && r.value.content == c.content && r.value.source_data == c.source_data && r.value.user_edits == c.user_edits
  {
    if raw.Malformed? then Err(BadContentId)
    else if !Owned(contents, raw.id, user) then
      Err(Handled("Failed to get generated content: ", HttpException(HttpError(404, "Content not found"))))
    else
      var c := contents[raw.id];
      Ok(ContentDetail(raw.id.text, c.platform, c.content_type, c.title, c.content, c.status, c.source_data,
                       c.user_edits, c.final_version, c.created_at, c.updated_at))
  }

  /** Another user's row is reported exactly as a missing one. */
  lemma ContentOfOthersIsHidden(contents: map<Uuid, GeneratedContent>, raw: RawId, user: int)
    requires raw.Wellformed? && raw.id in contents && contents[raw.id].user_id != user
    ensures GetContentStatus(contents, raw, user) == GetContentStatus(contents - {raw.id}, raw, user)
    ensures GetGeneratedContent(contents, raw, user) == GetGeneratedContent(contents - {raw.id}, raw, user)
    ensures GetContentStatus(contents, raw, user).error.detail ==
      "Failed to get content status: " + "404" + ": " + "Content generation not found"
  {
    RewrapShowsCode("Failed to get content status: ", HttpError(404, "Content generation not found"));
  }

  // ---------------------------------------------------------------------------
  // Listing

  /** A listed body: more than 200 characters become the first 200 and "...". */
  function Truncated(s: string): (r: string)
    ensures |s| > 200 ==> |r| == 203 && r == s[..200] + "..."
    ensures |s| <= 200 ==> r == s
    ensures r[..if |s| > 200 then 200 else |s|] == s[..if |s| > 200 then 200 else |s|]
  {
    if |s| > 200 then s[..200] + "..." else s
  }

  /** `GeneratedContentResponse`. */
  datatype ListedContent = ListedContent(id: string, platform: Option<string>, content_type: string,
                                         title: Option<string>, content: string, status: string,
                                         created_at: Timestamp)

  function ListedOf(c: GeneratedContent): (v: ListedContent)
    ensures v.id == c.id.text && v.content == Truncated(c.content) && v.created_at == c.created_at
  {
    ListedContent(c.id.text, c.platform, c.content_type, c.title, Truncated(c.content), c.status, c.created_at)
  }

  /** The three optional equality filters; an empty or absent filter keeps every row. */
  predicate Passes(filter: Option<string>, value: Option<string>) {
    filter.None? || filter.value == "" || value == filter
  }

  predicate ContentPasses(c: GeneratedContent, platform: Option<string>, contentType: Option<string>,
                          status: Option<string>) {
    Passes(platform, c.platform) && Passes(contentType, Some(c.content_type)) && Passes(status, Some(c.status))
  }

  function SelectedContent(contents: map<Uuid, GeneratedContent>, user: int, platform: Option<string>,
                           contentType: Option<string>, status: Option<string>): set<Uuid> {
    set id | id in contents && contents[id].user_id == user && ContentPasses(contents[id], platform, contentType, status)
  }

  /** `v` lists the caller's row its id names, and that row passes the filters. */
  predicate ListsOwnedRow(contents: map<Uuid, GeneratedContent>, user: int, platform: Option<string>,
                          contentType: Option<string>, status: Option<string>, v: ListedContent) {
    var id := Uuid(v.id);
    id in contents && contents[id].user_id == user && ContentPasses(contents[id], platform, contentType, status) &&
    v == ListedOf(contents[id])
  }

  function CreatedAt(c: GeneratedContent): int {
    c.created_at
  }

  /**
   * The rows `list_generated_content` fetches: the caller's rows passing the
   * filters, newest `created_at` first, at most `limit`, each body truncated.
   */
  ghost function ListedRows(contents: map<Uuid, GeneratedContent>, user: int, platform: Option<string>,
                                      contentType: Option<string>, status: Option<string>, limit: nat)
    : (r: seq<ListedContent>)
    requires forall id :: id in contents ==> contents[id].id == id
    ensures var n := |SelectedContent(contents, user, platform, contentType, status)|;
      |r| == if limit < n then limit else n
    ensures forall i :: 0 <= i < |r| ==> ListsOwnedRow(contents, user, platform, contentType, status, r[i])
    ensures forall i, j :: 0 <= i < j < |r| ==> r[i].created_at >= r[j].created_at
    ensures forall i, j :: 0 <= i < j < |r| ==> r[i].id != r[j].id
    ensures forall id, i :: id in SelectedContent(contents, user, platform, contentType, status) && 0 <= i < |r| &&
                            (forall j :: 0 <= j < |r| ==> r[j].id != id.text) ==>
                              contents[id].created_at <= r[i].created_at
  {
    var ids := SelectedContent(contents, user, platform, contentType, status);
    var feed := Newest(contents, ids, CreatedAt, limit);
    var r := seq(|feed|, i requires 0 <= i < |feed| => ListedOf(contents[feed[i]]));
    ListedViews(contents, user, platform, contentType, status, feed, r);
    r
  }

  const ListFailedPrefix := "Failed to list generated content: "

  /** The first lines of `str` of the ValidationError `GeneratedContentResponse(platform=None)` raises. */
  const PlatformNotStringError :=
    "1 validation error for GeneratedContentResponse\nplatform\n  Input should be a valid string [type=string_type, input_value=None, input_type=NoneType]"

  /**
   * `list_generated_content`: the fetched rows as responses. `platform` is a
   * `str` field, so a fetched row whose platform is NULL makes the
   * comprehension raise, and `except Exception` answers 500.
   */
  ghost function ListGeneratedContent(contents: map<Uuid, GeneratedContent>, user: int, platform: Option<string>,
                                      contentType: Option<string>, status: Option<string>, limit: nat)
    : (r: Result<seq<ListedContent>, HttpError>)
    requires forall id :: id in contents ==> contents[id].id == id
    ensures var rows := ListedRows(contents, user, platform, contentType, status, limit);
      && (r.Ok? <==> forall i :: 0 <= i < |rows| ==> rows[i].platform.Some?)
      && (r.Ok? ==> r.value == rows)
    ensures r.Err? ==> r.error == HttpError(500, ListFailedPrefix + PlatformNotStringError)
  {
    var rows := ListedRows(contents, user, platform, contentType, status, limit);
    if forall i :: 0 <= i < |rows| ==> rows[i].platform.Some? then Ok(rows)
    else Err(HttpError(500, ListFailedPrefix + PlatformNotStringError))
  }

  /** The listed rows are the views of the newest selected ids, position by position. */
  lemma ListedRowsAreViews(contents: map<Uuid, GeneratedContent>, user: int, platform: Option<string>,
                           contentType: Option<string>, status: Option<string>, limit: nat)
    requires forall id :: id in contents ==> contents[id].id == id
    ensures var feed := Newest(contents, SelectedContent(contents, user, platform, contentType, status), CreatedAt, limit);
      var rows := ListedRows(contents, user, platform, contentType, status, limit);
      |rows| == |feed| && forall k :: 0 <= k < |feed| ==> rows[k] == ListedOf(contents[feed[k]])
  {
  }

  /** Every row `generate_content` writes has a platform, so when all the caller's rows have one the listing
      succeeds. */
  lemma ListingSucceedsWithPlatforms(contents: map<Uuid, GeneratedContent>, user: int, platform: Option<string>,
                                     contentType: Option<string>, status: Option<string>, limit: nat)
    requires forall id :: id in contents ==> contents[id].id == id
    requires forall id :: id in contents && contents[id].user_id == user ==> contents[id].platform.Some?
    ensures ListGeneratedContent(contents, user, platform, contentType, status, limit).Ok?
  {
    var rows := ListedRows(contents, user, platform, contentType, status, limit);
    forall i | 0 <= i < |rows| ensures rows[i].platform.Some? {
      assert ListsOwnedRow(contents, user, platform, contentType, status, rows[i]);
    }
  }

  /** A selected row without a platform, within the limit, turns the whole listing into the 500. */
  lemma NullPlatformFailsListing(contents: map<Uuid, GeneratedContent>, user: int, platform: Option<string>,
                                 contentType: Option<string>, status: Option<string>, limit: nat, id: Uuid)
    requires forall id :: id in contents ==> contents[id].id == id
    requires id in SelectedContent(contents, user, platform, contentType, status) && contents[id].platform.None?
    requires limit >= |SelectedContent(contents, user, platform, contentType, status)|
    ensures ListGeneratedContent(contents, user, platform, contentType, status, limit).Err?
  {
    var ids := SelectedContent(contents, user, platform, contentType, status);
    var feed := Newest(contents, ids, CreatedAt, limit);
    var rows := ListedRows(contents, user, platform, contentType, status, limit);
    ListedRowsAreViews(contents, user, platform, contentType, status, limit);
    assert id in feed;
    var k :| 0 <= k < |feed| && feed[k] == id;
    assert rows[k].platform.None?;
  }

  lemma ListedViews(contents: map<Uuid, GeneratedContent>, user: int, platform: Option<string>,
                    contentType: Option<string>, status: Option<string>, feed: seq<Uuid>, r: seq<ListedContent>)
    requires forall id :: id in contents ==> contents[id].id == id
    requires var ids := SelectedContent(contents, user, platform, contentType, status);
      && (forall i :: 0 <= i < |feed| ==> feed[i] in ids)
      && (forall i, j :: 0 <= i < j < |feed| ==> feed[i] != feed[j])
      && (forall i, j :: 0 <= i < j < |feed| ==> CreatedAt(contents[feed[i]]) >= CreatedAt(contents[feed[j]]))
      && (forall x, i :: x in ids && x !in feed && 0 <= i < |feed| ==>
            CreatedAt(contents[x]) <= CreatedAt(contents[feed[i]]))
    requires |r| == |feed| && forall i :: 0 <= i < |r| ==> r[i] == ListedOf(contents[feed[i]])
    ensures forall i :: 0 <= i < |r| ==> ListsOwnedRow(contents, user, platform, contentType, status, r[i])
    ensures forall i, j :: 0 <= i < j < |r| ==> r[i].created_at >= r[j].created_at
    ensures forall i, j :: 0 <= i < j < |r| ==> r[i].id != r[j].id
    ensures forall id, i :: id in SelectedContent(contents, user, platform, contentType, status) && 0 <= i < |r| &&
                            (forall j :: 0 <= j < |r| ==> r[j].id != id.text) ==>
                              contents[id].created_at <= r[i].created_at
  {
    var ids := SelectedContent(contents, user, platform, contentType, status);
    forall i | 0 <= i < |r|
      ensures ListsOwnedRow(contents, user, platform, contentType, status, r[i])
    {
      assert feed[i] in ids && contents[feed[i]].id == feed[i];
    }
    forall i, j | 0 <= i < j < |r|
      ensures r[i].id != r[j].id
    {
      assert contents[feed[i]].id == feed[i] && contents[feed[j]].id == feed[j];
    }
    assert forall j :: 0 <= j < |feed| ==> r[j].id == feed[j].text;
    forall id, i | id in ids && 0 <= i < |r| && (forall j :: 0 <= j < |r| ==> r[j].id != id.text)
      ensures contents[id].created_at <= r[i].created_at
    {
      assert id !in feed;
    }
  }

  // ---------------------------------------------------------------------------
  // Editing

  /** The keys `update_content` reads; every other key of the body is ignored. */
  const EditableKeys: set<string> := {"status", "user_edits", "final_version", "title"}

  /** The values of the editable keys are text or null (other JSON kinds are left to the driver). */
  predicate TextValues(update: Object) {
    forall k :: k in update && k in EditableKeys ==> update[k].JStr? || update[k].JNull?
  }

  function TextOf(v: JsonValue): Option<string> {
    if v.JStr? then Some(v.s) else None
  }

  /** A null `status` violates the column's NOT NULL constraint at commit. */
  predicate NullsStatus(update: Object) {
    "status" in update && update["status"].JNull?
  }

  /** The row after the edits; `updated_at` (`onupdate=func.now()`) is refreshed only when some column
      actually changed, since an unchanged row issues no UPDATE. */
  function Edited(c: GeneratedContent, update: Object, now: Timestamp): GeneratedContent
    requires !NullsStatus(update)
  {
    var e := c.(status := if "status" in update then TextOf(update["status"]).GetOr(c.status) else c.status,
                user_edits := if "user_edits" in update then TextOf(update["user_edits"]) else c.user_edits,
                final_version := if "final_version" in update then TextOf(update["final_version"]) else c.final_version,
                title := if "title" in update then TextOf(update["title"]) else c.title);
    if e == c then c else e.(updated_at := Some(now))
  }

  /** Only the four editable fields (and the update stamp) can change, each only when its key is present,
      and status takes any text it is given. */
  lemma EditedChangesOnlyEditableFields(c: GeneratedContent, update: Object, now: Timestamp)
    requires TextValues(update) && !NullsStatus(update)
    ensures var e := Edited(c, update, now);
      && e.(status := c.status, user_edits := c.user_edits, final_version := c.final_version, title := c.title,
            updated_at := c.updated_at) == c
      && ("status" !in update ==> e.status == c.status)
      && ("status" in update ==> JStr(e.status) == update["status"])
      && ("title" !in update ==> e.title == c.title)
      && ("title" in update ==> OptText(e.title) == update["title"])
      && ("user_edits" !in update ==> e.user_edits == c.user_edits)
      && ("user_edits" in update ==> OptText(e.user_edits) == update["user_edits"])
      && ("final_version" !in update ==> e.final_version == c.final_version)
      && ("final_version" in update ==> OptText(e.final_version) == update["final_version"])
      && ((forall k :: k in update ==> k !in EditableKeys) ==> e == c)
      && (e == c || e.updated_at == Some(now))
  {
  }

  /** Sending the same edit twice changes nothing more. */
  lemma EditedIdempotent(c: GeneratedContent, update: Object, now: Timestamp)
    requires TextValues(update) && !NullsStatus(update)
    ensures Edited(Edited(c, update, now), update, now) == Edited(c, update, now)
  {
  }

  /** The assignments `update_content` makes on one row, in the order it makes them. */
  method EditContent(c: GeneratedContent, update: Object, now: Timestamp) returns (row: GeneratedContent)
    requires TextValues(update) && !NullsStatus(update)
    ensures row == Edited(c, update, now)
  {
    row := c;
    if "status" in update {
      row := row.(status := update["status"].s);
    }
    if "user_edits" in update {
      row := row.(user_edits := TextOf(update["user_edits"]));
    }
    if "final_version" in update {
      row := row.(final_version := TextOf(update["final_version"]));
    }
    if "title" in update {
      row := row.(title := TextOf(update["title"]));
    }
    if row != c {
      row := row.(updated_at := Some(now));
    }
  }

  datatype UpdateReply = UpdateReply(content_id: string, status: string, message: string)

  /**
   * `update_content` on an owned row. `dbError` is the driver's message when
   * the commit is refused (a null status); `now` is the timestamp the update
   * writes.
   */
  method UpdateContent(db: Database, raw: RawId, update: Object, user: int, now: Timestamp, dbError: string)
    returns (r: Result<UpdateReply, HttpError>)
    requires db.Valid()
    requires TextValues(update)
    modifies db
    ensures db.Valid()
    ensures db.users == old(db.users) && db.plans == old(db.plans) && db.transcripts == old(db.transcripts)
    ensures db.watches == old(db.watches) && db.updates == old(db.updates) && db.activities == old(db.activities)
    ensures raw.Malformed? ==> r == Err(BadContentId) && db.contents == old(db.contents)
    ensures raw.Wellformed? && !Owned(old(db.contents), raw.id, user) ==>
      r == Err(Rewrap("Failed to update content: ", HttpError(404, "Content not found"))) &&
      db.contents == old(db.contents)
    ensures raw.Wellformed? && Owned(old(db.contents), raw.id, user) && NullsStatus(update) ==>
      r == Err(HttpError(500, "Failed to update content: " + dbError)) && db.contents == old(db.contents)
    ensures raw.Wellformed? && Owned(old(db.contents), raw.id, user) && !NullsStatus(update) ==>
      var e := Edited(old(db.contents[raw.id]), update, now);
      db.contents == old(db.contents)[raw.id := e] &&
      r == Ok(UpdateReply(raw.id.text, e.status, "Content updated successfully"))
  {
    if raw.Malformed? {
      return Err(BadContentId);
    }
    if !Owned(db.contents, raw.id, user) {
      return Err(Handled("Failed to update content: ", HttpException(HttpError(404, "Content not found"))));
    }
    if NullsStatus(update) {
      return Err(HttpError(500, "Failed to update content: " + dbError));
    }
    var c := EditContent(db.contents[raw.id], update, now);
    db.contents := db.contents[raw.id := c];
    r := Ok(UpdateReply(raw.id.text, c.status, "Content updated successfully"));
  }

  // ---------------------------------------------------------------------------
  // The test list

  datatype MockItem = MockItem(id: string, platform: string, content_type: string, title: string, content: string,
                               status: string, created_at: string)

  /** The fixed list `test_list_generated_content` serves. */
  const MockContent: seq<MockItem> := [
    MockItem("content-001", "linkedin", "feature_announcement", "Exciting New AI Feature Launch",
             "We're thrilled to announce our latest AI-powered feature that will revolutionize how you analyze customer feedback...",
             "published", "2024-12-28T10:00:00Z"),
    MockItem("content-002", "twitter", "product_update", "User Whisperer 2.0 Update",
             "ðŸš€ User Whisperer 2.0 is here! New features: Real-time sentiment analysis, Advanced PRD generation, Smart tagging...",
             "draft", "2024-12-27T15:30:00Z"),
    MockItem("content-003", "medium", "thought_leadership", "The Future of AI in Product Management",
             "As AI continues to evolve, product managers are finding new ways to leverage these tools for better decision making...",
             "scheduled", "2024-12-26T09:15:00Z")
  ]

  predicate MockPasses(c: MockItem, platform: Option<string>, contentType: Option<string>, status: Option<string>) {
    Passes(platform, Some(c.platform)) && Passes(contentType, Some(c.content_type)) && Passes(status, Some(c.status))
  }

  /** The three list comprehensions: the items that pass, in their original order. */
  function KeepPassing(items: seq<MockItem>, platform: Option<string>, contentType: Option<string>,
                       status: Option<string>): (r: seq<MockItem>)
    ensures |r| <= |items|
    ensures forall i :: 0 <= i < |r| ==> r[i] in items && MockPasses(r[i], platform, contentType, status)
    ensures forall i :: 0 <= i < |items| && MockPasses(items[i], platform, contentType, status) ==> items[i] in r
  {
    if items == [] then []
    else
      var rest := KeepPassing(items[1..], platform, contentType, status);
      assert forall i :: 1 <= i < |items| ==> items[i] == items[1..][i - 1];
      if MockPasses(items[0], platform, contentType, status) then [items[0]] + rest else rest
  }

  /** Filtering distributes over concatenation, so the kept items stay in their original order. */
  lemma {:induction false} KeepPassingAppend(a: seq<MockItem>, b: seq<MockItem>, platform: Option<string>,
                                             contentType: Option<string>, status: Option<string>)
    ensures KeepPassing(a + b, platform, contentType, status) ==
            KeepPassing(a, platform, contentType, status) + KeepPassing(b, platform, contentType, status)
    decreases |a|
  {
    if a != [] {
      assert (a + b)[1..] == a[1..] + b;
      assert (a + b)[0] == a[0];
      KeepPassingAppend(a[1..], b, platform, contentType, status);
    } else {
      assert a + b == b;
    }
  }

  /** A single item is kept exactly when it passes. */
  lemma KeepPassingOne(x: MockItem, platform: Option<string>, contentType: Option<string>, status: Option<string>)
    ensures KeepPassing([x], platform, contentType, status) == if MockPasses(x, platform, contentType, status) then [x] else []
  {
    assert [x][1..] == [];
  }

  /** `mock_content[:limit]`, Python slice semantics: a negative limit drops items from the end. */
  function TestListGeneratedContent(platform: Option<string>, contentType: Option<string>, status: Option<string>,
                                    limit: int): (r: seq<MockItem>)
    ensures var kept := KeepPassing(MockContent, platform, contentType, status);
      r == kept[..SliceBound(limit, |kept|)]
    ensures forall i :: 0 <= i < |r| ==> MockPasses(r[i], platform, contentType, status)
    ensures limit >= 0 ==> |r| <= limit
  {
    var kept := KeepPassing(MockContent, platform, contentType, status);
    kept[..SliceBound(limit, |kept|)]
  }

  /** Without filters, a limit of 1 serves content-001; filtering on "twitter" serves content-002 alone. */
  lemma TestListFirstItems()
    ensures TestListGeneratedContent(None, None, None, 1) == [MockContent[0]]
    ensures TestListGeneratedContent(Some("twitter"), None, None, 10) == [MockContent[1]]
  {
    var items := MockContent;
    assert items == [items[0]] + items[1..];
    KeepPassingAppend([items[0]], items[1..], None, None, None);
    KeepPassingOne(items[0], None, None, None);
    TwitterKeepsSecond();
  }

  /** The "twitter" filter keeps content-002 alone. */
  lemma TwitterKeepsSecond()
    ensures KeepPassing(MockContent, Some("twitter"), None, None) == [MockContent[1]]
  {
    var items := MockContent;
    assert items == [items[0]] + [items[1]] + [items[2]];
    KeepPassingAppend([items[0]] + [items[1]], [items[2]], Some("twitter"), None, None);
    KeepPassingAppend([items[0]], [items[1]], Some("twitter"), None, None);
    KeepPassingOne(items[0], Some("twitter"), None, None);
    KeepPassingOne(items[1], Some("twitter"), None, None);
    KeepPassingOne(items[2], Some("twitter"), None, None);
  }

  /** With no filters, a limit of -1 serves the first two items. */
  lemma TestListNegativeLimit()
    ensures TestListGeneratedContent(None, None, None, -1) == MockContent[..2]
  {
    var kept := KeepPassing(MockContent, None, None, None);
    assert kept == MockContent by {
      assert MockPasses(MockContent[0], None, None, None) && MockPasses(MockContent[1], None, None, None);
      assert MockPasses(MockContent[2], None, None, None);
      assert MockContent[1..][1..] == [MockContent[2]];
    }
  }
}
