/**
 * The state the handlers and workers share: the database (every table as a map
 * from id to record, the activity log as a sequence), the outgoing task queue,
 * the HTTP error type with the 500-rewrap that `except Exception` handlers
 * apply, and the newest-first ordering used by the list endpoints.
 */
module Store {
  import opened Wrappers
  import opened Json
  import opened Text
  import opened Models
  import opened AiModels

  /** An HTTPException: status code and detail text. */
  datatype HttpError = HttpError(status: nat, detail: string)

  /**
   * `except Exception as e: raise HTTPException(500, prefix + str(e))` applied
   * to an HTTPException raised inside the same try; `str` of an HTTPException
   * is its code, a colon and its detail.
   */
  function Rewrap(prefix: string, e: HttpError): (r: HttpError)
    ensures r.status == 500
    ensures EndsWith(r.detail, e.detail)
  {
    var d := prefix + NatToString(e.status) + ": ";
    assert (d + e.detail)[|d|..] == e.detail;
    HttpError(500, d + e.detail)
  }

  /** `str(HTTPException(code, d))` for the codes the handlers raise: the code is written in decimal. */
  lemma RewrapShowsCode(prefix: string, e: HttpError)
    requires e.status in {400, 404, 409}
    ensures Rewrap(prefix, e).detail == prefix + (if e.status == 400 then "400" else if e.status == 404 then "404" else "409") + ": " + e.detail
  {
    assert NatToString(4) == "4" && NatToString(40) == "40" && NatToString(400) == "400";
    assert NatToString(404) == "404" && NatToString(409) == "409";
  }

  /** What a handler body raises: an HTTPException, or any other exception with its `str`. */
  datatype Exception = HttpException(e: HttpError) | OtherException(message: string)

  /** `except Exception as e: raise HTTPException(500, prefix + str(e))`. */
  function Handled(prefix: string, x: Exception): (r: HttpError)
    ensures r.status == 500
    ensures x.OtherException? ==> r.detail == prefix + x.message
    ensures x.HttpException? ==> r == Rewrap(prefix, x.e)
  {
    match x
    case HttpException(e) => Rewrap(prefix, e)
    case OtherException(m) => HttpError(500, prefix + m)
  }

  /** An id received as text: either text that `uuid.UUID` parses, with the id it denotes, or text it
      rejects with ValueError. */
  datatype RawId = Wellformed(text: string, id: Uuid) | Malformed(text: string)

  /** The ValueError message `uuid.UUID` gives for malformed text. */
  const BadUuidError := "badly formed hexadecimal UUID string"

  /** The AttributeError raised by assigning `status` on a lookup that returned None. */
  const NoneStatusError := "'NoneType' object has no attribute 'status'"

  /** A message handed to the task queue (`.delay(...)`), or a retry request (`self.retry(...)`). */
  datatype TaskMessage =
    | TranscriptTask(taskId: string, transcriptId: Uuid, userId: int)
    | CompetitorAnalysisTask(taskId: string, activityId: string, competitorData: string, userId: int)
    | ContentGenerationTask(taskId: string, activityId: string, contentId: string, request: Object, userId: int)
    | RetryRequest(countdown: nat, maxRetries: nat)

  /** The broker, as the sequence of messages sent to it. */
  class TaskQueue {
    var sent: seq<TaskMessage>

    constructor ()
      ensures sent == []
    {
      sent := [];
    }

    method Send(m: TaskMessage)
      modifies this
      ensures sent == old(sent) + [m]
    {
      sent := sent + [m];
    }
  }

  /** No two activity rows share an id. */
  predicate DistinctIds(acts: seq<AgentActivity>) {
    forall i, j :: 0 <= i < j < |acts| ==> acts[i].id != acts[j].id
  }

  /** Row `a` passes `filter(AgentActivity.id == id[, AgentActivity.user_id == owner])`. */
  predicate ActivityMatches(a: AgentActivity, id: Uuid, owner: Option<int>) {
    a.id == id && (owner.None? || a.user_id == owner.value)
  }

  /** The position of the first activity row with this id (and this owner, when one is given). */
  function FindActivity(acts: seq<AgentActivity>, id: Uuid, owner: Option<int>): (r: Option<nat>)
    ensures r.Some? ==> r.value < |acts| && ActivityMatches(acts[r.value], id, owner)
    ensures r.Some? ==> forall k :: 0 <= k < r.value ==> !ActivityMatches(acts[k], id, owner)
    ensures r.None? <==> forall k :: 0 <= k < |acts| ==> !ActivityMatches(acts[k], id, owner)
  {
    if |acts| == 0 then None
    else if ActivityMatches(acts[0], id, owner) then Some(0)
    else match FindActivity(acts[1..], id, owner)
      case None => None
      case Some(k) => Some(k + 1)
  }

  /** With distinct ids, the owner filter only hides another user's row: the owned lookup is the plain
      lookup restricted to rows of that owner. */
  lemma OwnedLookupIsFilteredLookup(acts: seq<AgentActivity>, id: Uuid, owner: int)
    requires DistinctIds(acts)
    ensures var plain := FindActivity(acts, id, None);
      FindActivity(acts, id, Some(owner)) ==
        if plain.Some? && acts[plain.value].user_id == owner then plain else None
  {
    var plain := FindActivity(acts, id, None);
    var owned := FindActivity(acts, id, Some(owner));
    if owned.Some? {
      assert ActivityMatches(acts[owned.value], id, None);
    }
    if plain.Some? {
      assert acts[plain.value].user_id == owner ==> ActivityMatches(acts[plain.value], id, Some(owner));
    }
  }

  /** Each table map is keyed by the rows' own primary key. */
  predicate Keyed(transcripts: map<Uuid, Transcript>, watches: map<Uuid, CompetitorWatch>,
                  updates: map<Uuid, CompetitorUpdate>, contents: map<Uuid, GeneratedContent>) {
    && (forall id :: id in transcripts ==> transcripts[id].id == id)
    && (forall id :: id in watches ==> watches[id].id == id)
    && (forall id :: id in updates ==> updates[id].id == id)
    && (forall id :: id in contents ==> contents[id].id == id)
  }

  /** The database: one map per table keyed by primary key, and the activity log. */
  class Database {
    var users: map<int, User>
    var plans: map<int, Plan>
    var transcripts: map<Uuid, Transcript>
    var watches: map<Uuid, CompetitorWatch>
    var updates: map<Uuid, CompetitorUpdate>
    var contents: map<Uuid, GeneratedContent>
    var activities: seq<AgentActivity>

    /** What the declared constraints guarantee of every committed state. */
    ghost predicate Valid()
      reads this
    {
      && Admissible(users, plans) && UniquePlanNames(plans) && DistinctIds(activities)
      && Keyed(transcripts, watches, updates, contents)
    }

    constructor (plans: map<int, Plan>)
      requires UniquePlanNames(plans)
      ensures Valid()
      ensures this.plans == plans && users == map[] && transcripts == map[] && watches == map[]
      ensures updates == map[] && contents == map[] && activities == []
    {
      this.plans := plans;
      users := map[];
      transcripts := map[];
      watches := map[];
      updates := map[];
      contents := map[];
      activities := [];
    }

    /** `db.add(user); db.commit()`: the row is stored exactly when the table constraints accept it. */
    method InsertUser(u: User) returns (ok: bool)
      requires Valid()
      requires u.id !in users
      modifies this
      ensures Valid()
      ensures ok == Admissible(old(users)[u.id := u], plans)
      ensures users == if ok then old(users)[u.id := u] else old(users)
      ensures plans == old(plans) && transcripts == old(transcripts) && activities == old(activities)
      ensures watches == old(watches) && updates == old(updates) && contents == old(contents)
    {
      ok := Admissible(users[u.id := u], plans);
      if ok {
        users := users[u.id := u];
      }
    }

    /** `db.commit()` after assigning columns of the row with id `u.id`: the rewrite is stored exactly when
        the table constraints accept it. */
    method UpdateUser(u: User) returns (ok: bool)
      requires Valid()
      requires u.id in users
      modifies this
      ensures Valid()
      ensures ok == Admissible(old(users)[u.id := u], plans)
      ensures users == if ok then old(users)[u.id := u] else old(users)
      ensures NonUserTables() == old(NonUserTables())
    {
      ok := Admissible(users[u.id := u], plans);
      if ok {
        users := users[u.id := u];
      }
    }

    /** `db.commit()` after assigning columns of the transcript with id `t.id`; the row's `onupdate`
        stamps `updated_at` when the commit changes it. */
    method CommitTranscript(t: Transcript, now: Timestamp)
      requires Valid()
      requires t.id in transcripts
      modifies this
      ensures Valid()
      ensures transcripts == old(transcripts)[t.id := TranscriptTouched(old(transcripts[t.id]), t, now)]
      ensures users == old(users) && plans == old(plans) && activities == old(activities)
      ensures watches == old(watches) && updates == old(updates) && contents == old(contents)
    {
      transcripts := transcripts[t.id := TranscriptTouched(transcripts[t.id], t, now)];
    }

    /** `db.delete(row); db.commit()` on the users table. */
    method RemoveUser(id: int)
      requires Valid()
      modifies this
      ensures Valid()
      ensures users == old(users) - {id}
      ensures NonUserTables() == old(NonUserTables())
    {
      users := users - {id};
    }

    /** Every table but `users`, for stating that a user endpoint leaves them alone. */
    ghost function NonUserTables(): (map<int, Plan>, map<Uuid, Transcript>, map<Uuid, CompetitorWatch>,
                                     map<Uuid, CompetitorUpdate>, map<Uuid, GeneratedContent>, seq<AgentActivity>)
      reads this
    {
      (plans, transcripts, watches, updates, contents, activities)
    }

    /** Appends one activity row with an id no row has yet; earlier rows are untouched. */
    method AddActivity(a: AgentActivity)
      requires Valid()
      requires forall k :: 0 <= k < |activities| ==> activities[k].id != a.id
      modifies this
      ensures Valid()
      ensures activities == old(activities) + [a]
      ensures users == old(users) && plans == old(plans) && transcripts == old(transcripts)
      ensures watches == old(watches) && updates == old(updates) && contents == old(contents)
    {
      activities := activities + [a];
    }

    /** Rewrites the activity row at `i` with a row of the same id. */
    method SetActivity(i: nat, a: AgentActivity)
      requires Valid()
      requires i < |activities| && activities[i].id == a.id
      modifies this
      ensures Valid()
      ensures activities == old(activities)[i := a]
      ensures users == old(users) && plans == old(plans) && transcripts == old(transcripts)
      ensures watches == old(watches) && updates == old(updates) && contents == old(contents)
    {
      activities := activities[i := a];
    }
  }

  // ---------------------------------------------------------------------------
  // `ORDER BY key DESC LIMIT n` over a set of rows; rows with equal keys come
  // in an order the database chooses, which the model leaves open.

  ghost predicate IsNewest<T>(rows: map<Uuid, T>, ids: set<Uuid>, key: T -> int, m: Uuid)
    requires ids <= rows.Keys
  {
    m in ids && forall j :: j in ids ==> key(rows[j]) <= key(rows[m])
  }

  lemma {:induction false} NewestExists<T>(rows: map<Uuid, T>, ids: set<Uuid>, key: T -> int)
    requires ids <= rows.Keys && ids != {}
    ensures exists m :: IsNewest(rows, ids, key, m)
    decreases |ids|
  {
    var x :| x in ids;
    if ids - {x} == {} {
      assert ids == {x};
      assert IsNewest(rows, ids, key, x);
    } else {
      NewestExists(rows, ids - {x}, key);
      var m :| IsNewest(rows, ids - {x}, key, m);
      if key(rows[x]) <= key(rows[m]) {
        assert IsNewest(rows, ids, key, m);
      } else {
        assert IsNewest(rows, ids, key, x);
      }
    }
  }

  /** The ids of `ids` ordered by descending key, at most `n` of them: a top-`n` selection. */
  ghost function Newest<T>(rows: map<Uuid, T>, ids: set<Uuid>, key: T -> int, n: nat): (r: seq<Uuid>)
    requires ids <= rows.Keys
    ensures |r| == if n < |ids| then n else |ids|
    ensures forall i :: 0 <= i < |r| ==> r[i] in ids
    ensures forall i, j :: 0 <= i < j < |r| ==> r[i] != r[j]
    ensures forall i, j :: 0 <= i < j < |r| ==> key(rows[r[i]]) >= key(rows[r[j]])
    ensures forall x, i :: x in ids && x !in r && 0 <= i < |r| ==> key(rows[x]) <= key(rows[r[i]])
    ensures n >= |ids| ==> forall x :: x in ids ==> x in r
    decreases |ids|
  {
    if n == 0 || ids == {} then []
    else
      NewestExists(rows, ids, key);
      var m :| IsNewest(rows, ids, key, m);
      [m] + Newest(rows, ids - {m}, key, n - 1)
  }
}
