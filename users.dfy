/**
 * The user record endpoints of `backend/api/users/users.py`: create with a
 * uid conflict check, lookup by Firebase uid, partial update, delete, and the
 * sync upsert. Each works on the users table of the shared database and
 * leaves every other table alone.
 */
module Users {
  import opened Wrappers
  import opened Models
  import opened Store

  /** A request field that was given (possibly as null) or left out; `model_dump(exclude_unset=True)`
      drops the latter. */
  datatype Supplied = Unset | Set(value: Option<string>)

  /** `UserCreate`: uid and e-mail are required, name and avatar may be left out. */
  datatype UserCreate = UserCreate(firebase_uid: string, email: string, name: Supplied, avatar_url: Supplied)

  /** The patch body: the `UserCreate` fields, each of which may be left out. */
  datatype UserUpdate = UserUpdate(firebase_uid: Supplied, email: Supplied, name: Supplied, avatar_url: Supplied)

  /** The columns a request body can name. */
  datatype UserField = FirebaseUid | Email | Name | AvatarUrl

  /** `firebase_uid` and `email` are declared `nullable=False`. */
  predicate Nullable(f: UserField) {
    f == Name || f == AvatarUrl
  }

  /** The value of column `f` of a row. */
  function Column(u: User, f: UserField): Option<string> {
    match f
    case FirebaseUid => Some(u.firebase_uid)
    case Email => Some(u.email)
    case Name => u.name
    case AvatarUrl => u.avatar_url
  }

  /** `r` and `u` agree on every column a request body cannot name. */
  predicate SameOtherColumns(r: User, u: User) {
    r.(firebase_uid := u.firebase_uid, email := u.email, name := u.name, avatar_url := u.avatar_url) == u
  }

  /** Rows that agree with `u` outside the nameable columns and agree with each other on those are equal. */
  lemma ColumnsDetermineRow(a: User, b: User, u: User)
    requires SameOtherColumns(a, u) && SameOtherColumns(b, u)
    requires forall f :: Column(a, f) == Column(b, f)
    ensures a == b
  {
    assert Column(a, FirebaseUid) == Column(b, FirebaseUid) && Column(a, Email) == Column(b, Email);
    assert Column(a, Name) == Column(b, Name) && Column(a, AvatarUrl) == Column(b, AvatarUrl);
  }

  /** `setattr(row, f, v)`. A null for a NOT NULL column is refused at commit (see `NullsRequired`), so the
      row is left as it was. */
  function SetAttr(u: User, f: UserField, v: Option<string>): (r: User)
    ensures Column(r, f) == if v.Some? || Nullable(f) then v else Column(u, f)
    ensures forall g :: g != f ==> Column(r, g) == Column(u, g)
    ensures SameOtherColumns(r, u)
  {
    match f
    case FirebaseUid => if v.Some? then u.(firebase_uid := v.value) else u
    case Email => if v.Some? then u.(email := v.value) else u
    case Name => u.(name := v)
    case AvatarUrl => u.(avatar_url := v)
  }

  /** The field `f` of a patch body. */
  function Field(upd: UserUpdate, f: UserField): Supplied {
    match f
    case FirebaseUid => upd.firebase_uid
    case Email => upd.email
    case Name => upd.name
    case AvatarUrl => upd.avatar_url
  }

  /** `model_dump(exclude_unset=True)`: the supplied fields with their values. */
  function Dump(upd: UserUpdate): map<UserField, Option<string>> {
    map f | f in {FirebaseUid, Email, Name, AvatarUrl} && Field(upd, f).Set? :: Field(upd, f).value
  }

  /** `UserCreate.model_dump(exclude_unset=True)`: uid and e-mail are always there. */
  function CreateDump(data: UserCreate): map<UserField, Option<string>> {
    Dump(UserUpdate(Set(Some(data.firebase_uid)), Set(Some(data.email)), data.name, data.avatar_url))
  }

  /** Whether the entry for `f` is assigned: always, unless `skipNone` drops null values. */
  predicate Assigns(d: map<UserField, Option<string>>, skipNone: bool, f: UserField) {
    f in d && (!skipNone || d[f].Some?)
  }

  /** The row after `for key, value in d.items(): setattr(row, key, value)`, with `skipNone` for the
      `if value is not None` guard of the sync loop. */
  function Patched(u: User, d: map<UserField, Option<string>>, skipNone: bool): (r: User)
    ensures forall f :: Column(r, f) == (if Assigns(d, skipNone, f) && (d[f].Some? || Nullable(f)) then d[f] else Column(u, f))
    ensures SameOtherColumns(r, u)
  {
    var r0 := if Assigns(d, skipNone, FirebaseUid) then SetAttr(u, FirebaseUid, d[FirebaseUid]) else u;
    var r1 := if Assigns(d, skipNone, Email) then SetAttr(r0, Email, d[Email]) else r0;
    var r2 := if Assigns(d, skipNone, Name) then SetAttr(r1, Name, d[Name]) else r1;
    if Assigns(d, skipNone, AvatarUrl) then SetAttr(r2, AvatarUrl, d[AvatarUrl]) else r2
  }

  /** An assignment of null to a NOT NULL column, which makes the commit fail. */
  predicate NullsRequired(d: map<UserField, Option<string>>, skipNone: bool) {
    exists f :: Assigns(d, skipNone, f) && !Nullable(f) && d[f].None?
  }

  /** The `setattr` loop over the dumped fields, in whatever order the dictionary yields them. */
  method AssignFields(u: User, d: map<UserField, Option<string>>, skipNone: bool) returns (row: User, nulled: bool)
    ensures row == Patched(u, d, skipNone)
    ensures nulled == NullsRequired(d, skipNone)
  {
    row := u;
    nulled := false;
    var pending := d.Keys;
    while pending != {}
      invariant pending <= d.Keys
      invariant SameOtherColumns(row, u)
      invariant forall f :: Column(row, f) == (if Assigns(d, skipNone, f) && f !in pending && (d[f].Some? || Nullable(f))
                                             then d[f] else Column(u, f))
      invariant nulled <==> exists f :: Assigns(d, skipNone, f) && f !in pending && !Nullable(f) && d[f].None?
      decreases |pending|
    {
      var f :| f in pending;
      var v := d[f];
      if !skipNone || v.Some? {
        if !Nullable(f) && v.None? {
          nulled := true;
        }
        row := SetAttr(row, f, v);
      }
      pending := pending - {f};
    }
    ColumnsDetermineRow(row, Patched(u, d, skipNone), u);
  }

  const UidTaken := HttpError(409, "User with this UID already exists")
  const UserNotFound := HttpError(404, "User not found")
  /** An exception no handler catches (a refused commit): the server answers 500 with this text. */
  const InternalError := HttpError(500, "Internal Server Error")

  function OrNone(s: Supplied): Option<string> {
    if s.Set? then s.value else None
  }

  /** `User(**user_data.model_dump())`: a field left out is stored as NULL. */
  function Created(data: UserCreate, id: int, now: Timestamp): (u: User)
    ensures u.id == id && u.firebase_uid == data.firebase_uid && u.email == data.email
    ensures u.name == OrNone(data.name) && u.avatar_url == OrNone(data.avatar_url)
    ensures u.current_plan_id.None? && u.created_at == now && u.updated_at.None?
  {
    NewUser(id, data.firebase_uid, data.email, OrNone(data.name), OrNone(data.avatar_url), None, now)
  }

  /** A new uid and e-mail is exactly what lets a created row through the constraints. */
  lemma CreatedIsAdmissible(users: map<int, User>, plans: map<int, Plan>, data: UserCreate, id: int, now: Timestamp)
    requires Admissible(users, plans) && id !in users
    ensures Admissible(users[id := Created(data, id, now)], plans) <==>
      FindByUid(users, data.firebase_uid).None? && FindByEmail(users, data.email).None?
  {
    InsertAdmissible(users, plans, Created(data, id, now));
  }

  /** `POST /users`: 409 when the uid is taken; otherwise the new row, unless its e-mail is taken. */
  method CreateUser(db: Database, data: UserCreate, newId: int, now: Timestamp) returns (r: Result<User, HttpError>)
    requires db.Valid() && newId !in db.users
    modifies db
    ensures db.Valid() && db.NonUserTables() == old(db.NonUserTables())
    ensures FindByUid(old(db.users), data.firebase_uid).Some? ==> r == Err(UidTaken) && db.users == old(db.users)
    ensures r.Ok? <==>
      FindByUid(old(db.users), data.firebase_uid).None? && FindByEmail(old(db.users), data.email).None?
    ensures r.Ok? ==> r.value == Created(data, newId, now) && db.users == old(db.users)[newId := r.value]
    ensures r.Err? ==> db.users == old(db.users) && r.error.status in {409, 500}
  {
    if FindByUid(db.users, data.firebase_uid).Some? {
      return Err(UidTaken);
    }
    var u := Created(data, newId, now);
    CreatedIsAdmissible(db.users, db.plans, data, newId, now);
    var ok := db.InsertUser(u);
    if ok {
      r := Ok(u);
    } else {
      r := Err(InternalError);
    }
  }

  /** `GET /users/{firebase_uid}`. */
  function GetUser(users: map<int, User>, plans: map<int, Plan>, uid: string): (r: Result<User, HttpError>)
    requires Admissible(users, plans)
    ensures r.Err? <==> forall id :: id in users ==> users[id].firebase_uid != uid
    ensures r.Err? ==> r.error == UserNotFound
    ensures r.Ok? ==> r.value.id in users && users[r.value.id] == r.value && r.value.firebase_uid == uid
  {
    match FindByUid(users, uid)
    case None => Err(UserNotFound)
    case Some(id) => Ok(users[id])
  }

  /** The row after a patch: the supplied fields written, `updated_at` stamped when something changed. */
  function PatchedRow(u: User, upd: UserUpdate, now: Timestamp): User {
    Touched(u, Patched(u, Dump(upd), false), now)
  }

  /** A patch writes exactly the supplied fields, nulls included, and keeps every other column but the
      stamp. */
  lemma PatchWritesSuppliedFields(u: User, upd: UserUpdate, now: Timestamp, f: UserField)
    requires Field(upd, f) != Set(None) || Nullable(f)
    ensures Column(PatchedRow(u, upd, now), f) == if Field(upd, f).Set? then Field(upd, f).value else Column(u, f)
    ensures PatchedRow(u, upd, now).(updated_at := u.updated_at).id == u.id
    ensures SameOtherColumns(PatchedRow(u, upd, now).(updated_at := u.updated_at), u)
  {
    var p := Patched(u, Dump(upd), false);
    assert f in Dump(upd) <==> Field(upd, f).Set?;
  }

  /** `PATCH /users/{firebase_uid}`: 404 for an absent uid; otherwise the supplied fields are written and
      committed, and a refused commit (a null uid or e-mail, a taken uid or e-mail) changes nothing. */
  method PatchUser(db: Database, uid: string, upd: UserUpdate, now: Timestamp) returns (r: Result<User, HttpError>)
    requires db.Valid()
    modifies db
    ensures db.Valid() && db.NonUserTables() == old(db.NonUserTables())
    ensures FindByUid(old(db.users), uid).None? ==> r == Err(UserNotFound) && db.users == old(db.users)
    ensures var found := FindByUid(old(db.users), uid);
      found.Some? ==>
        var row := PatchedRow(old(db.users)[found.value], upd, now);
        if !NullsRequired(Dump(upd), false) && Admissible(old(db.users)[found.value := row], old(db.plans))
        then r == Ok(row) && db.users == old(db.users)[found.value := row]
        else r == Err(InternalError) && db.users == old(db.users)
  {
    var found := FindByUid(db.users, uid);
    if found.None? {
      return Err(UserNotFound);
    }
    var id := found.value;
    var before := db.users[id];
    var row, nulled := AssignFields(before, Dump(upd), false);
    var stamped := Touched(before, row, now);
    if nulled {
      return Err(InternalError);
    }
    var ok := db.UpdateUser(stamped);
    if ok {
      r := Ok(stamped);
    } else {
      r := Err(InternalError);
    }
  }

  /** `DELETE /users/{firebase_uid}`: 404 for an absent uid; otherwise that one row is removed. */
  method DeleteUser(db: Database, uid: string) returns (r: Result<(), HttpError>)
    requires db.Valid()
    modifies db
    ensures db.Valid() && db.NonUserTables() == old(db.NonUserTables())
    ensures FindByUid(old(db.users), uid).None? ==> r == Err(UserNotFound) && db.users == old(db.users)
    ensures var found := FindByUid(old(db.users), uid);
      found.Some? ==> r == Ok(()) && db.users == old(db.users) - {found.value}
  {
    var found := FindByUid(db.users, uid);
    if found.None? {
      return Err(UserNotFound);
    }
    db.RemoveUser(found.value);
    r := Ok(());
  }

  /** Exactly one row holds this uid. */
  ghost predicate ExactlyOne(users: map<int, User>, uid: string) {
    && (exists id :: id in users && users[id].firebase_uid == uid)
    && (forall a, b :: a in users && b in users && users[a].firebase_uid == uid && users[b].firebase_uid == uid ==> a == b)
  }

  /** The sync reply: `"updated"` or `"created"` and the stored row. */
  datatype SyncReply = SyncReply(status: string, user: User)

  /** The row after syncing into an existing one: the supplied non-null values written. */
  function SyncedRow(u: User, data: UserCreate, now: Timestamp): User {
    Touched(u, Patched(u, CreateDump(data), true), now)
  }

  /** Syncing into an existing row writes the e-mail and every supplied non-null name or avatar, and keeps
      the uid and every other column but the stamp. */
  lemma SyncWritesNonNullValues(u: User, data: UserCreate, now: Timestamp)
    requires u.firebase_uid == data.firebase_uid
    ensures SyncedRow(u, data, now).firebase_uid == u.firebase_uid
    ensures SyncedRow(u, data, now).email == data.email
    ensures SyncedRow(u, data, now).name == if data.name.Set? && data.name.value.Some? then data.name.value else u.name
    ensures SyncedRow(u, data, now).avatar_url ==
      if data.avatar_url.Set? && data.avatar_url.value.Some? then data.avatar_url.value else u.avatar_url
    ensures SameOtherColumns(SyncedRow(u, data, now).(updated_at := u.updated_at), u)
  {
    var d := CreateDump(data);
    var p := Patched(u, d, true);
    assert FirebaseUid in d && d[FirebaseUid] == Some(data.firebase_uid);
    assert Email in d && d[Email] == Some(data.email);
    assert Column(p, FirebaseUid) == Some(data.firebase_uid) && Column(p, Email) == Some(data.email);
    assert Name in d <==> data.name.Set?;
    assert AvatarUrl in d <==> data.avatar_url.Set?;
    assert Column(p, Name) == p.name && Column(p, AvatarUrl) == p.avatar_url;
  }

  /** `POST /users/sync`: an existing uid gets its supplied non-null values written (`"updated"`); a new
      one is created from all fields (`"created"`). A commit the constraints refuse changes nothing. */
  method SyncUser(db: Database, data: UserCreate, newId: int, now: Timestamp) returns (r: Result<SyncReply, HttpError>)
    requires db.Valid() && newId !in db.users
    modifies db
    ensures db.Valid() && db.NonUserTables() == old(db.NonUserTables())
    ensures var found := FindByUid(old(db.users), data.firebase_uid);
      found.Some? ==>
        var row := SyncedRow(old(db.users)[found.value], data, now);
        if Admissible(old(db.users)[found.value := row], old(db.plans))
        then r == Ok(SyncReply("updated", row)) && db.users == old(db.users)[found.value := row]
        else r == Err(InternalError) && db.users == old(db.users)
    ensures var found := FindByUid(old(db.users), data.firebase_uid);
      found.None? ==>
        if FindByEmail(old(db.users), data.email).None?
        then r == Ok(SyncReply("created", Created(data, newId, now))) &&
          db.users == old(db.users)[newId := Created(data, newId, now)]
        else r == Err(InternalError) && db.users == old(db.users)
    ensures r.Ok? ==> ExactlyOne(db.users, data.firebase_uid)
  {
    var found := FindByUid(db.users, data.firebase_uid);
    if found.Some? {
      var id := found.value;
      var before := db.users[id];
      var row, _ := AssignFields(before, CreateDump(data), true);
      var stamped := Touched(before, row, now);
      SyncWritesNonNullValues(before, data, now);
      var ok := db.UpdateUser(stamped);
      if ok {
        assert db.users[id].firebase_uid == data.firebase_uid;
        r := Ok(SyncReply("updated", stamped));
      } else {
        r := Err(InternalError);
      }
    } else {
      var u := Created(data, newId, now);
      CreatedIsAdmissible(db.users, db.plans, data, newId, now);
      var ok := db.InsertUser(u);
      if ok {
        assert db.users[newId].firebase_uid == data.firebase_uid;
        r := Ok(SyncReply("created", u));
      } else {
        r := Err(InternalError);
      }
    }
  }
}
