/**
 * The account tables of `backend/models/models.py`: plans and users, the
 * constraints the database enforces on them (unique Firebase uid, unique
 * non-null e-mail, a plan reference that must exist). A change the database
 * would refuse at commit is detected with `Admissible` and is not stored.
 */
module Models {
  import opened Wrappers
  import opened Json

  /** A database timestamp; the server clock is an input of the model. */
  type Timestamp = int

  /** `plans`: only an id and a unique, nullable name are declared. */
  datatype Plan = Plan(id: int, name: Option<string>)

  /** `users`: every declared column; nullable columns are `Option`s. */
  datatype User = User(
    id: int,
    firebase_uid: string,
    email: string,
    name: Option<string>,
    avatar_url: Option<string>,
    company_name: Option<string>,
    role_at_company: Option<string>,
    industry: Option<string>,
    linkedin_profile_url: Option<string>,
    current_plan_id: Option<int>,
    billing_customer_id: Option<string>,
    usage_stats: Option<Object>,
    notification_preferences: Option<Object>,
    brand_tone_preferences: Option<Object>,
    created_at: Timestamp,
    updated_at: Option<Timestamp>)

  /** A user inserted with only the given columns; every other column is NULL. */
  function NewUser(id: int, uid: string, email: string, name: Option<string>, avatar: Option<string>,
                   planId: Option<int>, now: Timestamp): (u: User)
    ensures u.id == id && u.firebase_uid == uid && u.email == email
    ensures u.name == name && u.avatar_url == avatar && u.current_plan_id == planId
    ensures u.company_name.None? && u.role_at_company.None? && u.industry.None?
    ensures u.linkedin_profile_url.None? && u.billing_customer_id.None?
    ensures u.usage_stats.None? && u.notification_preferences.None? && u.brand_tone_preferences.None?
    ensures u.created_at == now && u.updated_at.None?
  {
    User(id, uid, email, name, avatar, None, None, None, None, planId, None, None, None, None, now, None)
  }

  predicate KeyedById(users: map<int, User>) {
    forall id :: id in users ==> users[id].id == id
  }

  /** `firebase_uid` is declared `unique=True`. */
  predicate UniqueUids(users: map<int, User>) {
    forall a, b :: a in users && b in users && users[a].firebase_uid == users[b].firebase_uid ==> a == b
  }

  /** `email` is declared `unique=True`. */
  predicate UniqueEmails(users: map<int, User>) {
    forall a, b :: a in users && b in users && users[a].email == users[b].email ==> a == b
  }

  /** `current_plan_id` is a foreign key to `plans.id` (NULL allowed). */
  predicate PlanRefsExist(users: map<int, User>, plans: map<int, Plan>) {
    forall id :: id in users && users[id].current_plan_id.Some? ==> users[id].current_plan_id.value in plans
  }

  /** `plans.name` is declared `unique=True`; NULL names do not clash. */
  predicate UniquePlanNames(plans: map<int, Plan>) {
    forall a, b :: a in plans && b in plans && plans[a].name.Some? && plans[a].name == plans[b].name ==> a == b
  }

  /** What the database accepts at commit for the users table. */
  predicate Admissible(users: map<int, User>, plans: map<int, Plan>) {
    KeyedById(users) && UniqueUids(users) && UniqueEmails(users) && PlanRefsExist(users, plans)
  }

  /** The row whose `firebase_uid` is `uid` (`query(User).filter(User.firebase_uid == uid).first()`). */
  function FindByUid(users: map<int, User>, uid: string): (r: Option<int>)
    requires UniqueUids(users)
    ensures r.None? <==> forall id :: id in users ==> users[id].firebase_uid != uid
    ensures r.Some? ==> r.value in users && users[r.value].firebase_uid == uid
  {
    if exists id | id in users :: users[id].firebase_uid == uid then
      var id :| id in users && users[id].firebase_uid == uid; Some(id)
    else None
  }

  /** The row whose `email` is `email`. */
  function FindByEmail(users: map<int, User>, email: string): (r: Option<int>)
    requires UniqueEmails(users)
    ensures r.None? <==> forall id :: id in users ==> users[id].email != email
    ensures r.Some? ==> r.value in users && users[r.value].email == email
  {
    if exists id | id in users :: users[id].email == email then
      var id :| id in users && users[id].email == email; Some(id)
    else None
  }

  /** Inserting a row with a new id is accepted exactly when its uid and e-mail are not taken yet and its
      plan reference, if any, exists. */
  lemma InsertAdmissible(users: map<int, User>, plans: map<int, Plan>, u: User)
    requires Admissible(users, plans) && u.id !in users
    ensures Admissible(users[u.id := u], plans) <==>
      && FindByUid(users, u.firebase_uid).None?
      && FindByEmail(users, u.email).None?
      && (u.current_plan_id.Some? ==> u.current_plan_id.value in plans)
  {
    var after := users[u.id := u];
    if Admissible(after, plans) {
      forall id | id in users
        ensures users[id].firebase_uid != u.firebase_uid && users[id].email != u.email
      {
        assert after[id] == users[id] && after[u.id] == u;
      }
      assert u.id in after;
    }
  }

  /** Rewriting an existing row is accepted exactly when no other row holds its uid or e-mail and its plan
      reference, if any, exists. */
  lemma UpdateAdmissible(users: map<int, User>, plans: map<int, Plan>, u: User)
    requires Admissible(users, plans) && u.id in users
    ensures Admissible(users[u.id := u], plans) <==>
      && (forall id :: id in users && id != u.id ==> users[id].firebase_uid != u.firebase_uid)
      && (forall id :: id in users && id != u.id ==> users[id].email != u.email)
      && (u.current_plan_id.Some? ==> u.current_plan_id.value in plans)
  {
    var after := users[u.id := u];
    if Admissible(after, plans) {
      forall id | id in users && id != u.id
        ensures users[id].firebase_uid != u.firebase_uid && users[id].email != u.email
      {
        assert after[id] == users[id] && after[u.id] == u;
      }
      assert u.id in after;
    }
  }

  /** A rewrite that keeps the uid, the e-mail and the plan of the stored row is always accepted. */
  lemma KeyColumnsKeptIsAdmissible(users: map<int, User>, plans: map<int, Plan>, u: User)
    requires Admissible(users, plans) && u.id in users
    requires u.firebase_uid == users[u.id].firebase_uid && u.email == users[u.id].email
    requires u.current_plan_id == users[u.id].current_plan_id
    ensures Admissible(users[u.id := u], plans)
  {
    UpdateAdmissible(users, plans, u);
  }

  /** `onupdate=func.now()`: a flush that changes the row also stamps `updated_at`; a row left as it was
      is not written and keeps its stamp. */
  function Touched(before: User, after: User, now: Timestamp): (r: User)
    ensures r.(updated_at := after.updated_at) == after
    ensures r.updated_at == if after == before then before.updated_at else Some(now)
  {
    if after == before then before else after.(updated_at := Some(now))
  }
}
