/** The `refresh_tokens` table: one record per issued refresh token, keyed by
    the token's `jti`. The table is a map from id to record; a database error
    of a call is a parameter (`dbError`), thrown as a plain Error. */
module RefreshTokens {
  import opened Common
  import opened Errors

  /** A `RefreshTokenRecord`; `expiresAt` is the stored instant in
      milliseconds since the epoch. */
  datatype Record = Record(
    id: string,
    userId: string,
    tokenHash: string,
    expiresAt: int,
    revoked: bool,
    replacedBy: Option<string>)

  type Rows = map<string, Record>

  /** The primary-key violation an insert of an existing id meets. */
  const DuplicateKeyMessage: string := "duplicate key value violates unique constraint \"refresh_tokens_pkey\""

  /** Every record sits under its own id. */
  predicate KeysMatchIds(rows: Rows)
  {
    forall id | id in rows :: rows[id].id == id
  }

  /** The fields written once, at insert. */
  predicate SameIdentity(a: Record, b: Record)
  {
    a.id == b.id && a.userId == b.userId && a.tokenHash == b.tokenHash && a.expiresAt == b.expiresAt
  }

  /** How the table may evolve: records are never removed, their insert-time
      fields never change, `revoked` is never cleared and `replaced_by` is
      never cleared. */
  predicate Successor(before: Rows, after: Rows)
  {
    && before.Keys <= after.Keys
    && forall id | id in before ::
         && SameIdentity(before[id], after[id])
         && (before[id].revoked ==> after[id].revoked)
         && (before[id].replacedBy.Some? ==> after[id].replacedBy.Some?)
  }

  /** The record `saveToken` inserts: exactly its four arguments, not
      revoked, no replacement. */
  function NewRecord(userId: string, tokenId: string, tokenHash: string, expiresAt: int): Record
  {
    Record(tokenId, userId, tokenHash, expiresAt, false, None)
  }

  /** The table after `saveToken`, or the error it throws. */
  function SavedRows(rows: Rows, userId: string, tokenId: string, tokenHash: string, expiresAt: int,
                     dbError: Option<string>): (r: Result<Rows, Thrown>)
    ensures r.Ok? <==> dbError.None? && tokenId !in rows
    ensures r.Ok? ==> r.value.Keys == rows.Keys + {tokenId}
    ensures r.Ok? ==> r.value[tokenId] == NewRecord(userId, tokenId, tokenHash, expiresAt)
    ensures r.Ok? ==> forall id | id in rows :: r.value[id] == rows[id]
    ensures r.Err? ==> r.error.Plain?
  {
    if dbError.Some? then Err(Plain("Failed to store refresh token: " + dbError.value))
    else if tokenId in rows then Err(Plain("Failed to store refresh token: " + DuplicateKeyMessage))
    else Ok(rows[tokenId := NewRecord(userId, tokenId, tokenHash, expiresAt)])
  }

  /** The table after a successful `revokeToken`: the matching record (if
      any) becomes revoked, and `replaced_by` is overwritten only by a
      non-empty `replacedBy`. */
  function RevokedRows(rows: Rows, tokenId: string, replacedBy: Option<string>): (r: Rows)
    ensures r.Keys == rows.Keys
    ensures forall id | id in rows && id != tokenId :: r[id] == rows[id]
    ensures tokenId in rows ==> r[tokenId].revoked && SameIdentity(r[tokenId], rows[tokenId])
    ensures tokenId in rows ==>
              r[tokenId].replacedBy == (if TruthyText(replacedBy) then replacedBy else rows[tokenId].replacedBy)
  {
    if tokenId !in rows then rows
    else
      var rec := rows[tokenId];
      rows[tokenId := rec.(revoked := true, replacedBy := if TruthyText(replacedBy) then replacedBy else rec.replacedBy)]
  }

  /** `getToken`'s answer for a table. */
  function Lookup(rows: Rows, tokenId: string, dbError: Option<string>): (r: Result<Option<Record>, Thrown>)
    ensures dbError.Some? ==> r == Err(Plain("Failed to load refresh token: " + dbError.value))
    ensures dbError.None? ==> r.Ok? && (r.value.Some? <==> tokenId in rows)
    ensures dbError.None? && tokenId in rows ==> r.value == Some(rows[tokenId])
  {
    if dbError.Some? then Err(Plain("Failed to load refresh token: " + dbError.value))
    else if tokenId in rows then Ok(Some(rows[tokenId]))
    else Ok(None)
  }

  class RefreshTokenStore {
    var rows: Rows

    ghost predicate Valid()
      reads this
    {
      KeysMatchIds(rows)
    }

    constructor ()
      ensures Valid() && rows == map[]
    {
      rows := map[];
    }

    /** `saveToken`: insert a fresh record, or throw. */
    method SaveToken(userId: string, tokenId: string, tokenHash: string, expiresAt: int, dbError: Option<string>)
      returns (r: Result<(), Thrown>)
      requires Valid()
      modifies this
      ensures Valid()
      ensures r.Ok? <==> SavedRows(old(rows), userId, tokenId, tokenHash, expiresAt, dbError).Ok?
      ensures r.Ok? ==> rows == SavedRows(old(rows), userId, tokenId, tokenHash, expiresAt, dbError).value
      ensures r.Err? ==> rows == old(rows)
                         && r.error == SavedRows(old(rows), userId, tokenId, tokenHash, expiresAt, dbError).error
    {
      if dbError.Some? {
        return Err(Plain("Failed to store refresh token: " + dbError.value));
      }
      if tokenId in rows {
        return Err(Plain("Failed to store refresh token: " + DuplicateKeyMessage));
      }
      rows := rows[tokenId := NewRecord(userId, tokenId, tokenHash, expiresAt)];
      return Ok(());
    }

    /** `getToken`: the record with that id, `None` when there is none. */
    method GetToken(tokenId: string, dbError: Option<string>) returns (r: Result<Option<Record>, Thrown>)
      ensures dbError.Some? ==> r.Err?
      ensures dbError.None? ==> r.Ok? && (r.value.Some? <==> tokenId in rows)
      ensures dbError.None? && tokenId in rows ==> r.value == Some(rows[tokenId])
      ensures r == Lookup(rows, tokenId, dbError)
    {
      if dbError.Some? {
        return Err(Plain("Failed to load refresh token: " + dbError.value));
      }
      if tokenId in rows {
        return Ok(Some(rows[tokenId]));
      }
      return Ok(None);
    }

    /** `revokeToken`: an update filtered by id, so an unknown id changes
      nothing and is not an error. */
    method RevokeToken(tokenId: string, replacedBy: Option<string>, dbError: Option<string>)
      returns (r: Result<(), Thrown>)
      requires Valid()
      modifies this
      ensures Valid()
      ensures r.Ok? <==> dbError.None?
      ensures r.Err? ==> rows == old(rows) && r.error == Plain("Failed to revoke refresh token: " + dbError.value)
      ensures r.Ok? ==> rows == RevokedRows(old(rows), tokenId, replacedBy)
    {
      if dbError.Some? {
        return Err(Plain("Failed to revoke refresh token: " + dbError.value));
      }
      if tokenId in rows {
        var updated := rows[tokenId].(revoked := true);
        if TruthyText(replacedBy) {
          updated := updated.(replacedBy := replacedBy);
        }
        rows := rows[tokenId := updated];
      }
      return Ok(());
    }
  }

  /** `Successor` is a preorder, so any sequence of saves and revocations
      keeps the invariants of the first table. */
  lemma SuccessorTransitive(a: Rows, b: Rows, c: Rows)
    requires Successor(a, b) && Successor(b, c)
    ensures Successor(a, c)
  {
  }

  /** A save only adds a record. */
  lemma SaveIsSuccessor(rows: Rows, userId: string, tokenId: string, tokenHash: string, expiresAt: int,
                        dbError: Option<string>)
    requires SavedRows(rows, userId, tokenId, tokenHash, expiresAt, dbError).Ok?
    ensures Successor(rows, SavedRows(rows, userId, tokenId, tokenHash, expiresAt, dbError).value)
    ensures KeysMatchIds(rows) ==> KeysMatchIds(SavedRows(rows, userId, tokenId, tokenHash, expiresAt, dbError).value)
  {
  }

  /** A revocation writes only `revoked` and `replaced_by`, never clears
      either, and leaves every other record alone. */
  lemma RevokeIsSuccessor(rows: Rows, tokenId: string, replacedBy: Option<string>)
    ensures Successor(rows, RevokedRows(rows, tokenId, replacedBy))
    ensures KeysMatchIds(rows) ==> KeysMatchIds(RevokedRows(rows, tokenId, replacedBy))
  {
  }

  /** Revoking twice without a replacement is the same as revoking once, and
      a revocation without a replacement keeps an existing `replaced_by`. */
  lemma RevokeIdempotent(rows: Rows, tokenId: string)
    ensures RevokedRows(RevokedRows(rows, tokenId, None), tokenId, None) == RevokedRows(rows, tokenId, None)
    ensures tokenId in rows ==> RevokedRows(rows, tokenId, None)[tokenId].replacedBy == rows[tokenId].replacedBy
  {
  }

  /** Revoking an id that has no record changes nothing. */
  lemma RevokeUnknownIsNoop(rows: Rows, tokenId: string, replacedBy: Option<string>)
    requires tokenId !in rows
    ensures RevokedRows(rows, tokenId, replacedBy) == rows
  {
  }

  /** A revocation without a replacement link on a record that is already
      revoked changes nothing. */
  lemma RevokeRevokedIsNoop(rows: Rows, tokenId: string)
    requires tokenId in rows && rows[tokenId].revoked
    ensures RevokedRows(rows, tokenId, None) == rows
  {
  }
}
