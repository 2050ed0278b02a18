/**
 * The signed-in user's profile endpoints of `backend/api/users/profile.py`:
 * the profile view with its defaults, the partial update, the GDPR soft
 * delete, and the test update that answers without touching the database.
 * Every failure inside these handlers, a missing user included, is answered
 * with a 500 and a fixed text.
 */
module Profile {
  import opened Wrappers
  import opened Json
  import opened Text
  import opened Models
  import opened Store

  /** `NotificationPreferences`. */
  datatype NotificationPreferences =
    NotificationPreferences(email_digest: bool, slack_alerts: bool, in_app_notifications: bool, marketing_emails: bool)

  /** `NotificationPreferences()`: digest and in-app notices on, Slack alerts and marketing off. */
  const DefaultNotifications := NotificationPreferences(true, false, true, false)

  const NotificationKeys: set<string> := {"email_digest", "slack_alerts", "in_app_notifications", "marketing_emails"}

  /** `.dict()` of a `NotificationPreferences`. */
  function NotificationsObject(p: NotificationPreferences): Object {
    map["email_digest" := JBool(p.email_digest), "slack_alerts" := JBool(p.slack_alerts),
        "in_app_notifications" := JBool(p.in_app_notifications), "marketing_emails" := JBool(p.marketing_emails)]
  }

  /** One boolean field of a stored object when it is validated: a missing key takes the default. */
  function Flag(o: Object, key: string, default: bool): Option<bool> {
    if key !in o then Some(default) else if o[key].JBool? then Some(o[key].b) else None
  }

  /** Validating a stored object as `NotificationPreferences`: keys left out take their defaults, unknown
      keys are ignored, and a value that is not a boolean is rejected. */
  function NotificationsOf(o: Object): (r: Option<NotificationPreferences>)
    ensures r.Some? <==> forall k :: k in NotificationKeys && k in o ==> o[k].JBool?
    ensures r.Some? && "email_digest" !in o ==> r.value.email_digest
    ensures r.Some? && "slack_alerts" !in o ==> !r.value.slack_alerts
    ensures r.Some? && "in_app_notifications" !in o ==> r.value.in_app_notifications
    ensures r.Some? && "marketing_emails" !in o ==> !r.value.marketing_emails
  {
    var a := Flag(o, "email_digest", true);
    var b := Flag(o, "slack_alerts", false);
    var c := Flag(o, "in_app_notifications", true);
    var d := Flag(o, "marketing_emails", false);
    if a.Some? && b.Some? && c.Some? && d.Some? then
      Some(NotificationPreferences(a.value, b.value, c.value, d.value))
    else None
  }

  /** Storing preferences with `.dict()` and validating them back gives the same preferences; an empty
      object validates to the defaults. */
  lemma NotificationsRoundTrip(p: NotificationPreferences)
    ensures NotificationsOf(NotificationsObject(p)) == Some(p)
    ensures NotificationsOf(map[]) == Some(DefaultNotifications)
  {
    var o := NotificationsObject(p);
    assert o["email_digest"] == JBool(p.email_digest) && o["slack_alerts"] == JBool(p.slack_alerts);
    assert o["in_app_notifications"] == JBool(p.in_app_notifications);
    assert o["marketing_emails"] == JBool(p.marketing_emails);
  }

  /** `BrandTonePreferences`; its float values are kept opaque. */
  datatype BrandTonePreferences =
    BrandTonePreferences(formal: JsonValue, friendly: JsonValue, professional: JsonValue, creative: JsonValue)

  const Half := JFloat("0.5", false)

  /** `BrandTonePreferences()`: every tone at 0.5. */
  const DefaultBrandTone := BrandTonePreferences(Half, Half, Half, Half)

  /** `.dict()` of a `BrandTonePreferences`. */
  function BrandToneObject(p: BrandTonePreferences): Object {
    map["formal" := p.formal, "friendly" := p.friendly, "professional" := p.professional, "creative" := p.creative]
  }

  function ToneOr(o: Object, key: string): JsonValue {
    if key in o then o[key] else Half
  }

  /** Validating a stored object as `BrandTonePreferences`: keys left out take 0.5 (the values themselves
      are not checked, floats being opaque here). */
  function BrandToneOf(o: Object): (r: BrandTonePreferences)
    ensures "formal" in o ==> r.formal == o["formal"]
    ensures "formal" !in o ==> r.formal == Half
    ensures BrandToneObject(r).Keys == {"formal", "friendly", "professional", "creative"}
  {
    BrandTonePreferences(ToneOr(o, "formal"), ToneOr(o, "friendly"), ToneOr(o, "professional"), ToneOr(o, "creative"))
  }

  /** Storing a brand tone with `.dict()` and validating it back gives the same tone. */
  lemma BrandToneRoundTrip(p: BrandTonePreferences)
    ensures BrandToneOf(BrandToneObject(p)) == p
    ensures BrandToneOf(map[]) == DefaultBrandTone
  {
    var o := BrandToneObject(p);
    assert o["formal"] == p.formal && o["friendly"] == p.friendly;
    assert o["professional"] == p.professional && o["creative"] == p.creative;
  }

  /** Python `stored or default` on a JSONB column: NULL and `{}` both give the default. */
  function Filled(stored: Option<Object>, default: Object): (r: Object)
    ensures stored.None? || stored == Some(map[]) ==> r == default
    ensures stored.Some? && stored.value != map[] ==> r == stored.value
  {
    if stored.Some? && stored.value != map[] then stored.value else default
  }

  /** `UserProfileResponse`; the timestamps are written with `isoformat`. */
  datatype ProfileResponse = ProfileResponse(
    id: string,
    email: string,
    name: Option<string>,
    avatar_url: Option<string>,
    company_name: Option<string>,
    role_at_company: Option<string>,
    industry: Option<string>,
    linkedin_profile_url: Option<string>,
    current_plan_id: Option<string>,
    billing_customer_id: Option<string>,
    usage_stats: Object,
    notification_preferences: NotificationPreferences,
    brand_tone_preferences: BrandTonePreferences,
    created_at: string,
    updated_at: string)

  /** The stored notification preferences with the defaults substituted for NULL or `{}`. */
  function StoredNotifications(u: User): Object {
    Filled(u.notification_preferences, NotificationsObject(DefaultNotifications))
  }

  /** The response for row `u` with the plan field given; `None` when validation rejects it. */
  function Fill(u: User, plan: Option<string>, iso: Timestamp -> string): Option<ProfileResponse> {
    match NotificationsOf(StoredNotifications(u))
    case None => None
    case Some(notifications) =>
      Some(ProfileResponse(
        IntToString(u.id), u.email, u.name, u.avatar_url, u.company_name, u.role_at_company, u.industry,
        u.linkedin_profile_url, plan, u.billing_customer_id,
        Filled(u.usage_stats, map[]),
        notifications,
        BrandToneOf(Filled(u.brand_tone_preferences, BrandToneObject(DefaultBrandTone))),
        iso(u.created_at),
        iso(if u.updated_at.Some? then u.updated_at.value else u.created_at)))
  }

  /** The response as the handlers build it: the integer `current_plan_id` is handed to a string field,
      which validation rejects, so no response exists for a user with a plan. */
  function ResponseAsWritten(u: User, iso: Timestamp -> string): (r: Option<ProfileResponse>)
    ensures r.Some? <==> u.current_plan_id.None? && NotificationsOf(StoredNotifications(u)).Some?
  {
    if u.current_plan_id.Some? then None else Fill(u, None, iso)
  }

  /** The response with the plan id written as text, as the string field intends. It exists whenever the
      stored notification preferences validate, and it shows every default the handlers promise. */
  function ResponseOf(u: User, iso: Timestamp -> string): (r: Option<ProfileResponse>)
    ensures r.Some? <==> NotificationsOf(StoredNotifications(u)).Some?
    ensures r.Some? ==> r.value.id == IntToString(u.id) && r.value.email == u.email && r.value.name == u.name
    ensures r.Some? ==> r.value.current_plan_id == if u.current_plan_id.Some? then Some(IntToString(u.current_plan_id.value)) else None
    ensures r.Some? && (u.usage_stats.None? || u.usage_stats == Some(map[])) ==> r.value.usage_stats == map[]
    ensures r.Some? && (u.notification_preferences.None? || u.notification_preferences == Some(map[])) ==>
      r.value.notification_preferences == DefaultNotifications
    ensures r.Some? && (u.brand_tone_preferences.None? || u.brand_tone_preferences == Some(map[])) ==>
      r.value.brand_tone_preferences == DefaultBrandTone
    ensures r.Some? ==> r.value.created_at == iso(u.created_at)
    ensures r.Some? && u.updated_at.None? ==> r.value.updated_at == r.value.created_at
    ensures r.Some? && u.updated_at.Some? ==> r.value.updated_at == iso(u.updated_at.value)
  {
    NotificationsRoundTrip(DefaultNotifications);
    BrandToneRoundTrip(DefaultBrandTone);
    Fill(u, if u.current_plan_id.Some? then Some(IntToString(u.current_plan_id.value)) else None, iso)
  }

  /** Without a plan the two responses coincide; with one only the corrected response exists. */
  lemma AsWrittenDiffersOnlyByPlan(u: User, iso: Timestamp -> string)
    ensures u.current_plan_id.None? ==> ResponseAsWritten(u, iso) == ResponseOf(u, iso)
    ensures u.current_plan_id.Some? ==> ResponseAsWritten(u, iso).None?
    ensures ResponseOf(u, iso).Some? ==> ResponseOf(u, iso).value.(current_plan_id := None) == Fill(u, None, iso).value
  {
  }

  const GetFailed := HttpError(500, "Failed to retrieve user profile")
  const UpdateFailed := HttpError(500, "Failed to update user profile")
  const DeleteFailed := HttpError(500, "Failed to delete user account")

  /** `GET /users/me` as written: a missing user, and every user with a plan, get the same 500. */
  function GetMyProfileAsWritten(users: map<int, User>, userId: int, iso: Timestamp -> string): (r: Result<ProfileResponse, HttpError>)
    ensures r.Err? ==> r == Err(GetFailed)
    ensures r.Ok? <==> userId in users && ResponseAsWritten(users[userId], iso).Some?
  {
    if userId !in users then Err(GetFailed)
    else match ResponseAsWritten(users[userId], iso)
      case None => Err(GetFailed)
      case Some(p) => Ok(p)
  }

  /** `GET /users/me`: the not-found 404 is turned into the 500 by the `except Exception` handler. */
  function GetMyProfile(users: map<int, User>, userId: int, iso: Timestamp -> string): (r: Result<ProfileResponse, HttpError>)
    ensures userId !in users ==> r == Err(GetFailed)
    ensures r.Err? ==> r == Err(GetFailed)
    ensures r.Ok? <==> userId in users && NotificationsOf(StoredNotifications(users[userId])).Some?
    ensures r.Ok? ==> Some(r.value) == ResponseOf(users[userId], iso)
  {
    if userId !in users then Err(GetFailed)
    else match ResponseOf(users[userId], iso)
      case None => Err(GetFailed)
      case Some(p) => Ok(p)
  }

  /** A user with a plan and valid preferences gets a 500 from the handler as written, and their profile,
      plan id included, from the corrected one. */
  lemma PlanHolderProfileFails(users: map<int, User>, userId: int, iso: Timestamp -> string)
    requires userId in users && users[userId].current_plan_id.Some?
    requires NotificationsOf(StoredNotifications(users[userId])).Some?
    ensures GetMyProfileAsWritten(users, userId, iso) == Err(GetFailed)
    ensures GetMyProfile(users, userId, iso).Ok?
    ensures GetMyProfile(users, userId, iso).value.current_plan_id == Some(IntToString(users[userId].current_plan_id.value))
  {
    AsWrittenDiffersOnlyByPlan(users[userId], iso);
  }

  /** `UserProfileUpdateRequest`: every field optional. */
  datatype ProfileUpdate = ProfileUpdate(
    name: Option<string>,
    company_name: Option<string>,
    role_at_company: Option<string>,
    industry: Option<string>,
    linkedin_profile_url: Option<string>,
    notification_preferences: Option<NotificationPreferences>,
    brand_tone_preferences: Option<BrandTonePreferences>)

  /** `if given is not None: column = given`. */
  function Given<T>(given: Option<T>, current: Option<T>): Option<T> {
    if given.Some? then given else current
  }

  /** The row after the update: each field given (not None) overwrites its column; nothing else moves,
      in particular not the e-mail, avatar, plan, billing id or usage statistics. */
  function ProfileEdited(u: User, upd: ProfileUpdate): (r: User)
    ensures upd.name.Some? ==> r.name == upd.name
    ensures upd.company_name.Some? ==> r.company_name == upd.company_name
    ensures upd.role_at_company.Some? ==> r.role_at_company == upd.role_at_company
    ensures upd.industry.Some? ==> r.industry == upd.industry
    ensures upd.linkedin_profile_url.Some? ==> r.linkedin_profile_url == upd.linkedin_profile_url
    ensures upd.notification_preferences.Some? ==>
      r.notification_preferences == Some(NotificationsObject(upd.notification_preferences.value))
    ensures upd.brand_tone_preferences.Some? ==>
      r.brand_tone_preferences == Some(BrandToneObject(upd.brand_tone_preferences.value))
    ensures upd == ProfileUpdate(None, None, None, None, None, None, None) ==> r == u
    ensures r.(name := u.name, company_name := u.company_name, role_at_company := u.role_at_company,
               industry := u.industry, linkedin_profile_url := u.linkedin_profile_url,
               notification_preferences := u.notification_preferences,
               brand_tone_preferences := u.brand_tone_preferences) == u
  {
    var notifications := if upd.notification_preferences.Some? then Some(NotificationsObject(upd.notification_preferences.value))
                         else u.notification_preferences;
    var tone := if upd.brand_tone_preferences.Some? then Some(BrandToneObject(upd.brand_tone_preferences.value))
                else u.brand_tone_preferences;
    u.(name := Given(upd.name, u.name), company_name := Given(upd.company_name, u.company_name),
       role_at_company := Given(upd.role_at_company, u.role_at_company), industry := Given(upd.industry, u.industry),
       linkedin_profile_url := Given(upd.linkedin_profile_url, u.linkedin_profile_url),
       notification_preferences := notifications, brand_tone_preferences := tone)
  }

  /** The `if ... is not None:` assignments of the update, one field at a time. */
  method EditProfile(u: User, upd: ProfileUpdate) returns (row: User)
    ensures row == ProfileEdited(u, upd)
  {
    row := u;
    if upd.name.Some? {
      row := row.(name := upd.name);
    }
    if upd.company_name.Some? {
      row := row.(company_name := upd.company_name);
    }
    if upd.role_at_company.Some? {
      row := row.(role_at_company := upd.role_at_company);
    }
    if upd.industry.Some? {
      row := row.(industry := upd.industry);
    }
    if upd.linkedin_profile_url.Some? {
      row := row.(linkedin_profile_url := upd.linkedin_profile_url);
    }
    if upd.notification_preferences.Some? {
      row := row.(notification_preferences := Some(NotificationsObject(upd.notification_preferences.value)));
    }
    if upd.brand_tone_preferences.Some? {
      row := row.(brand_tone_preferences := Some(BrandToneObject(upd.brand_tone_preferences.value)));
    }
  }

  /** The row `PUT /users/me` commits: the given fields assigned, then stamped by `onupdate`. */
  function UpdatedRow(u: User, upd: ProfileUpdate, now: Timestamp): User {
    Touched(u, ProfileEdited(u, upd), now)
  }

  /** The assignments and the commit of `PUT /users/me` for an existing user; the commit cannot be
      refused, since no constrained column is written. */
  method StoreProfileEdit(db: Database, userId: int, upd: ProfileUpdate, now: Timestamp) returns (row: User)
    requires db.Valid() && userId in db.users
    modifies db
    ensures db.Valid() && db.NonUserTables() == old(db.NonUserTables())
    ensures row == UpdatedRow(old(db.users)[userId], upd, now)
    ensures db.users == old(db.users)[userId := row]
  {
    var before := db.users[userId];
    var edited := EditProfile(before, upd);
    row := Touched(before, edited, now);
    KeyColumnsKeptIsAdmissible(db.users, db.plans, row);
    var ok := db.UpdateUser(row);
    assert ok;
  }

  /** `PUT /users/me` as written: the update is committed, and then building the response fails for a
      user with a plan (as in `GET`), so the caller gets the 500 for a change already stored. */
  method UpdateMyProfileAsWritten(db: Database, userId: int, upd: ProfileUpdate, now: Timestamp, iso: Timestamp -> string)
    returns (r: Result<ProfileResponse, HttpError>)
    requires db.Valid()
    modifies db
    ensures db.Valid() && db.NonUserTables() == old(db.NonUserTables())
    ensures userId !in old(db.users) ==> r == Err(UpdateFailed) && db.users == old(db.users)
    ensures userId in old(db.users) ==>
      var row := UpdatedRow(old(db.users)[userId], upd, now);
      && db.users == old(db.users)[userId := row]
      && (r.Ok? <==> ResponseAsWritten(row, iso).Some?)
      && (r.Ok? ==> Some(r.value) == ResponseAsWritten(row, iso))
    ensures r.Err? ==> r == Err(UpdateFailed)
  {
    if userId !in db.users {
      return Err(UpdateFailed);
    }
    var row := StoreProfileEdit(db, userId, upd, now);
    match ResponseAsWritten(row, iso)
    case None => r := Err(UpdateFailed);
    case Some(p) => r := Ok(p);
  }

  /** `PUT /users/me` with the plan id shown as text: a missing user, or a stored row whose preferences do
      not validate, gets the 500; otherwise the reply is the response of the committed row. */
  method UpdateMyProfile(db: Database, userId: int, upd: ProfileUpdate, now: Timestamp, iso: Timestamp -> string)
    returns (r: Result<ProfileResponse, HttpError>)
    requires db.Valid()
    modifies db
    ensures db.Valid() && db.NonUserTables() == old(db.NonUserTables())
    ensures userId !in old(db.users) ==> r == Err(UpdateFailed) && db.users == old(db.users)
    ensures userId in old(db.users) ==>
      var row := UpdatedRow(old(db.users)[userId], upd, now);
      && db.users == old(db.users)[userId := row]
      && (r.Ok? <==> ResponseOf(row, iso).Some?)
      && (r.Ok? ==> Some(r.value) == ResponseOf(row, iso))
    ensures r.Err? ==> r == Err(UpdateFailed)
  {
    if userId !in db.users {
      return Err(UpdateFailed);
    }
    var row := StoreProfileEdit(db, userId, upd, now);
    match ResponseOf(row, iso)
    case None => r := Err(UpdateFailed);
    case Some(p) => r := Ok(p);
  }

  /** The update never changes the plan, so the row a plan holder's update commits still has the plan:
      the as-written reply is the 500, while the corrected reply shows the plan id whenever the stored
      (or newly given) notification preferences validate. */
  lemma PlanHolderUpdateFails(u: User, upd: ProfileUpdate, now: Timestamp, iso: Timestamp -> string)
    requires u.current_plan_id.Some?
    ensures var row := UpdatedRow(u, upd, now);
      && row.current_plan_id == u.current_plan_id
      && ResponseAsWritten(row, iso).None?
      && (upd.notification_preferences.Some? || NotificationsOf(StoredNotifications(u)).Some? ==>
            ResponseOf(row, iso).Some? &&
            ResponseOf(row, iso).value.current_plan_id == Some(IntToString(u.current_plan_id.value)))
  {
    var row := UpdatedRow(u, upd, now);
    if upd.notification_preferences.Some? {
      UpdatedNotificationsAreShown(u, upd, now, iso);
    } else {
      assert row.notification_preferences == u.notification_preferences;
      assert StoredNotifications(row) == StoredNotifications(u);
    }
  }

  /** Updating the notification preferences shows exactly them in the response. */
  lemma UpdatedNotificationsAreShown(u: User, upd: ProfileUpdate, now: Timestamp, iso: Timestamp -> string)
    requires upd.notification_preferences.Some?
    ensures var shown := ResponseOf(Touched(u, ProfileEdited(u, upd), now), iso);
      shown.Some? && shown.value.notification_preferences == upd.notification_preferences.value
  {
    NotificationsRoundTrip(upd.notification_preferences.value);
    var row := Touched(u, ProfileEdited(u, upd), now);
    assert row.notification_preferences == Some(NotificationsObject(upd.notification_preferences.value));
    assert NotificationsObject(upd.notification_preferences.value) != map[] by {
      assert "email_digest" in NotificationsObject(upd.notification_preferences.value);
    }
  }

  /** `deleted_{id}@deleted.com`. */
  function DeletedEmail(id: int): string {
    "deleted_" + IntToString(id) + "@deleted.com"
  }

  /** The anonymised row of a soft delete. `is_active` is not a column of `User`, so setting it is not
      stored; the row itself is kept. */
  function Anonymised(u: User): (r: User)
    ensures r.email == DeletedEmail(u.id) && r.name == Some("Deleted User")
    ensures r.company_name.None? && r.linkedin_profile_url.None? && r.avatar_url.None?
    ensures r.notification_preferences == Some(map[]) && r.brand_tone_preferences == Some(map[])
    ensures r.id == u.id && r.firebase_uid == u.firebase_uid
    ensures r.role_at_company == u.role_at_company && r.industry == u.industry
    ensures r.current_plan_id == u.current_plan_id && r.billing_customer_id == u.billing_customer_id
    ensures r.usage_stats == u.usage_stats && r.created_at == u.created_at && r.updated_at == u.updated_at
  {
    u.(email := DeletedEmail(u.id), name := Some("Deleted User"), company_name := None, linkedin_profile_url := None,
       avatar_url := None, notification_preferences := Some(map[]), brand_tone_preferences := Some(map[]))
  }

  datatype DeleteReply = DeleteReply(message: string)

  /** `DELETE /users/me`: the row is kept and anonymised; the commit is refused only when another row
      already holds the anonymised e-mail. */
  method DeleteMyAccount(db: Database, userId: int, now: Timestamp) returns (r: Result<DeleteReply, HttpError>)
    requires db.Valid()
    modifies db
    ensures db.Valid() && db.NonUserTables() == old(db.NonUserTables())
    ensures db.users.Keys == old(db.users).Keys
    ensures userId !in old(db.users) ==> r == Err(DeleteFailed) && db.users == old(db.users)
    ensures userId in old(db.users) ==>
      var row := Touched(old(db.users)[userId], Anonymised(old(db.users)[userId]), now);
      if forall id :: id in old(db.users) && id != userId ==> old(db.users)[id].email != DeletedEmail(userId)
      then r == Ok(DeleteReply("Account deleted successfully")) && db.users == old(db.users)[userId := row]
      else r == Err(DeleteFailed) && db.users == old(db.users)
  {
    if userId !in db.users {
      return Err(DeleteFailed);
    }
    var before := db.users[userId];
    var row := before;
    row := row.(email := DeletedEmail(row.id));
    row := row.(name := Some("Deleted User"));
    row := row.(company_name := None);
    row := row.(linkedin_profile_url := None);
    row := row.(avatar_url := None);
    row := row.(notification_preferences := Some(map[]));
    row := row.(brand_tone_preferences := Some(map[]));
    assert row == Anonymised(before);
    var stamped := Touched(before, row, now);
    UpdateAdmissible(db.users, db.plans, stamped);
    var ok := db.UpdateUser(stamped);
    if ok {
      r := Ok(DeleteReply("Account deleted successfully"));
    } else {
      r := Err(DeleteFailed);
    }
  }

  /** After a soft delete the profile shows the anonymised name and the default preferences. */
  lemma DeletedProfileShowsDefaults(u: User, now: Timestamp, iso: Timestamp -> string)
    ensures var shown := ResponseOf(Touched(u, Anonymised(u), now), iso);
      && shown.Some?
      && shown.value.name == Some("Deleted User") && shown.value.email == DeletedEmail(u.id)
      && shown.value.notification_preferences == DefaultNotifications
      && shown.value.brand_tone_preferences == DefaultBrandTone
  {
    NotificationsRoundTrip(DefaultNotifications);
    var row := Touched(u, Anonymised(u), now);
    assert row.notification_preferences == Some(map[]);
  }

  /** Python `given or default` on a string: None and `""` both give the default. */
  function TextOr(given: Option<string>, default: string): (r: string)
    ensures given.None? || given == Some("") ==> r == default
    ensures given.Some? && given.value != "" ==> r == given.value
  {
    if given.Some? && given.value != "" then given.value else default
  }

  const TestUsageStats: Object := map["total_agent_actions_this_month" := JInt(150), "last_login" := JStr("2024-12-29T10:00:00Z")]

  /** `PUT /users/test/me`: the fields given echoed back, a fixed default for each one absent or empty,
      and fixed values for the rest; nothing is stored. */
  function TestUpdateProfile(upd: ProfileUpdate): (r: ProfileResponse)
    ensures r.id == "test-user-123" && r.email == "test@example.com" && r.current_plan_id == Some("pro")
    ensures r.name == Some(TextOr(upd.name, "Test User"))
    ensures r.company_name == Some(TextOr(upd.company_name, "Test Company"))
    ensures r.role_at_company == Some(TextOr(upd.role_at_company, "Product Manager"))
    ensures r.industry == Some(TextOr(upd.industry, "SaaS"))
    ensures r.linkedin_profile_url == Some(TextOr(upd.linkedin_profile_url, "https://linkedin.com/in/testuser"))
    ensures r.notification_preferences == if upd.notification_preferences.Some? then upd.notification_preferences.value else DefaultNotifications
    ensures r.brand_tone_preferences == if upd.brand_tone_preferences.Some? then upd.brand_tone_preferences.value else DefaultBrandTone
  {
    var notifications := if upd.notification_preferences.Some? then upd.notification_preferences.value else DefaultNotifications;
    var tone := if upd.brand_tone_preferences.Some? then upd.brand_tone_preferences.value else DefaultBrandTone;
    NotificationsRoundTrip(notifications);
    BrandToneRoundTrip(tone);
    ProfileResponse(
      "test-user-123", "test@example.com", Some(TextOr(upd.name, "Test User")), Some("https://via.placeholder.com/150"),
      Some(TextOr(upd.company_name, "Test Company")), Some(TextOr(upd.role_at_company, "Product Manager")),
      Some(TextOr(upd.industry, "SaaS")), Some(TextOr(upd.linkedin_profile_url, "https://linkedin.com/in/testuser")),
      Some("pro"), Some("cus_test123"), TestUsageStats,
      NotificationsOf(NotificationsObject(notifications)).value,
      BrandToneOf(BrandToneObject(tone)),
      "2024-01-01T00:00:00Z", "2024-12-29T10:00:00Z")
  }
}
