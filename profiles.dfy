/** The `profiles` table as the profile service reads and writes it: a map
    from user id to profile. A database error of a call is a parameter
    (`dbError`); `wrapQuery` turns it into an AppError. */
module Profiles {
  import opened Common
  import opened Errors

  type Settings = map<string, Json>

  /** A profile row; `None` stands for SQL `null`. */
  datatype Profile = Profile(
    id: string,
    email: Option<string>,
    displayName: Option<string>,
    settings: Option<Settings>,
    role: Option<string>,
    isDisabled: bool)

  type Table = map<string, Profile>

  predicate KeysMatchIds(rows: Table)
  {
    forall id | id in rows :: rows[id].id == id
  }

  /** A row created by an upsert: the columns the upsert does not name take
      their defaults. */
  function FreshProfile(id: string, email: Option<string>): Profile
  {
    Profile(id, email, None, None, None, false)
  }

  /** The table after `ensureProfile(id, email)`: an upsert keyed by `id`
      that writes only `id` and `email`. */
  function Upserted(rows: Table, id: string, email: Option<string>): (r: Table)
    requires KeysMatchIds(rows)
    ensures KeysMatchIds(r)
    ensures r.Keys == rows.Keys + {id}
    ensures r[id].id == id && r[id].email == email
    ensures id in rows ==> r[id] == rows[id].(email := email)
    ensures forall other | other in rows && other != id :: r[other] == rows[other]
  {
    var p := if id in rows then rows[id].(email := email) else FreshProfile(id, email);
    rows[id := p]
  }

  /** `ensureProfile`'s effect, or the error it throws. */
  function Ensured(rows: Table, id: string, email: Option<string>, dbError: Option<string>): (r: Result<Table, Thrown>)
    requires KeysMatchIds(rows)
    ensures r.Ok? <==> dbError.None?
    ensures r.Ok? ==> r.value == Upserted(rows, id, email)
    ensures r.Err? ==> r.error.App? && r.error.app.code == "profile_upsert_failed" && r.error.app.status == 500
  {
    if dbError.Some? then Err(App(QueryFailure("Failed to upsert profile", 500, "profile_upsert_failed", dbError.value)))
    else Ok(Upserted(rows, id, email))
  }

  /** `getProfile`'s answer, or the error it throws. */
  function Fetched(rows: Table, id: string, dbError: Option<string>): (r: Result<Option<Profile>, Thrown>)
    ensures r.Ok? <==> dbError.None?
    ensures r.Ok? ==> (r.value.Some? <==> id in rows)
    ensures r.Ok? && id in rows ==> r.value.value == rows[id]
    ensures r.Err? ==> r.error.App? && r.error.app.code == "profile_fetch_failed" && r.error.app.status == 500
  {
    if dbError.Some? then Err(App(QueryFailure("Failed to load profile", 500, "profile_fetch_failed", dbError.value)))
    else if id in rows then Ok(Some(rows[id]))
    else Ok(None)
  }

  /** The request's `{ display_name?, settings? }`: a display name is a
      string or missing, a settings object may also arrive as `null`. */
  datatype ProfileUpdates = ProfileUpdates(displayName: Option<string>, settings: Field<Settings>)

  /** The update payload: missing (`None`, `Absent`) keys are not written. */
  datatype Payload = Payload(displayName: Option<string>, settings: Field<Settings>)

  /** A profile with a payload applied. */
  function Patched(p: Profile, payload: Payload): Profile
  {
    p.(displayName := if payload.displayName.Some? then payload.displayName else p.displayName,
       settings := match payload.settings
                   case Absent => p.settings
                   case Null => None
                   case Given(s) => Some(s))
  }

  /** `updateProfile`'s payload, built field by field: a key is copied only
      when defined, and a `null` settings object becomes `{}`. */
  method BuildPayload(updates: ProfileUpdates) returns (payload: Payload)
    ensures payload.displayName == updates.displayName
    ensures payload.settings.Absent? <==> updates.settings.Absent?
    ensures !payload.settings.Null?
    ensures updates.settings.Null? ==> payload.settings == Given(map[])
    ensures updates.settings.Given? ==> payload.settings == updates.settings
  {
    payload := Payload(None, Absent);
    if updates.displayName.Some? {
      payload := payload.(displayName := updates.displayName);
    }
    if !updates.settings.Absent? {
      payload := payload.(settings := if updates.settings.Null? then Given(map[]) else updates.settings);
    }
  }

  class ProfileService {
    var rows: Table

    ghost predicate Valid()
      reads this
    {
      KeysMatchIds(rows)
    }

    constructor (initial: Table)
      requires KeysMatchIds(initial)
      ensures Valid() && rows == initial
    {
      rows := initial;
    }

    /** `ensureProfile(userId, email)`. */
    method EnsureProfile(userId: string, email: Option<string>, dbError: Option<string>) returns (r: Result<(), Thrown>)
      requires Valid()
      modifies this
      ensures Valid()
      ensures r.Ok? <==> dbError.None?
      ensures r.Ok? ==> rows == Upserted(old(rows), userId, email)
      ensures r.Err? ==> rows == old(rows) && r.error == Ensured(old(rows), userId, email, dbError).error
    {
      if dbError.Some? {
        return Err(App(QueryFailure("Failed to upsert profile", 500, "profile_upsert_failed", dbError.value)));
      }
      rows := Upserted(rows, userId, email);
      return Ok(());
    }

    /** `getProfile(userId)`: the profile, or `None` when there is none. */
    method GetProfile(userId: string, dbError: Option<string>) returns (r: Result<Option<Profile>, Thrown>)
      ensures r.Ok? <==> dbError.None?
      ensures r.Ok? ==> (r.value.Some? <==> userId in rows)
      ensures r.Ok? && userId in rows ==> r.value.value == rows[userId]
      ensures r == Fetched(rows, userId, dbError)
    {
      if dbError.Some? {
        return Err(App(QueryFailure("Failed to load profile", 500, "profile_fetch_failed", dbError.value)));
      }
      if userId in rows {
        return Ok(Some(rows[userId]));
      }
      return Ok(None);
    }

    /** `updateProfile(userId, updates)`: patch the row with that id and
      return it; 404 when there is none. */
    method UpdateProfile(userId: string, updates: ProfileUpdates, dbError: Option<string>) returns (r: Result<Profile, Thrown>)
      requires Valid()
      modifies this
      ensures Valid()
      ensures dbError.Some? ==> rows == old(rows) && r.Err? && r.error.App? && r.error.app.code == "profile_update_failed"
      ensures dbError.None? && userId !in old(rows) ==>
                rows == old(rows) && r == Err(App(Fail("Profile not found", 404, "profile_not_found")))
      ensures dbError.None? && userId in old(rows) ==>
                r.Ok? && rows == old(rows)[userId := r.value]
                && r.value.id == userId && r.value.email == old(rows)[userId].email
                && r.value.role == old(rows)[userId].role && r.value.isDisabled == old(rows)[userId].isDisabled
                && (updates.displayName.None? ==> r.value.displayName == old(rows)[userId].displayName)
                && (updates.displayName.Some? ==> r.value.displayName == updates.displayName)
                && (updates.settings.Absent? ==> r.value.settings == old(rows)[userId].settings)
                && (updates.settings.Null? ==> r.value.settings == Some(map[]))
                && (updates.settings.Given? ==> r.value.settings == Some(updates.settings.value))
    {
      var payload := BuildPayload(updates);
      if dbError.Some? {
        return Err(App(QueryFailure("Failed to update profile", 500, "profile_update_failed", dbError.value)));
      }
      if userId !in rows {
        return Err(App(Fail("Profile not found", 404, "profile_not_found")));
      }
      var updated := Patched(rows[userId], payload);
      rows := rows[userId := updated];
      return Ok(updated);
    }
  }

  /** Repeating `ensureProfile` with the same arguments changes nothing more:
      the table keeps one profile per id. */
  lemma UpsertIdempotent(rows: Table, id: string, email: Option<string>)
    requires KeysMatchIds(rows)
    ensures Upserted(Upserted(rows, id, email), id, email) == Upserted(rows, id, email)
  {
    var once := Upserted(rows, id, email);
    assert once[id].(email := email) == once[id];
  }

  /** An upsert adds a profile exactly when the id had none. */
  lemma UpsertCount(rows: Table, id: string, email: Option<string>)
    requires KeysMatchIds(rows)
    ensures |Upserted(rows, id, email)| == |rows| + (if id in rows then 0 else 1)
  {
    if id !in rows {
      assert Upserted(rows, id, email).Keys == rows.Keys + {id};
    } else {
      assert Upserted(rows, id, email).Keys == rows.Keys;
    }
  }

  /** Applying a built payload changes only `display_name` and `settings`. */
  lemma PayloadTouchesOnlyNamedColumns(p: Profile, payload: Payload)
    ensures Patched(p, payload).id == p.id && Patched(p, payload).email == p.email
    ensures Patched(p, payload).role == p.role && Patched(p, payload).isDisabled == p.isDisabled
    ensures payload == Payload(None, Absent) ==> Patched(p, payload) == p
  {
  }
}
