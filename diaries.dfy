/** The diary service: creation defaults, the update map, ownership-checked
    update and delete over the `diaries` table, the unlock rule and the
    precedence of list filters. bcrypt is a pair of abstract functions and
    the calendar arithmetic of the filters is a parameter. */
module Diaries {
  import opened Common
  import opened Errors

  /** A diary row (timestamps, set by the database, are left out). */
  datatype Diary = Diary(
    id: string,
    userId: string,
    title: string,
    content: string,
    isLocked: bool,
    lockPasswordHash: Option<string>)

  type Table = map<string, Diary>

  predicate KeysMatchIds(rows: Table)
  {
    forall id | id in rows :: rows[id].id == id
  }

  datatype BcryptFns = BcryptFns(hash: string -> string, compare: (string, string) -> bool)

  /** bcrypt: `compare` accepts the password a hash was made from. The salt
      is folded into `hash`. */
  type Bcrypt = b: BcryptFns | forall p :: b.compare(p, b.hash(p))
    witness BcryptFns(p => p, (p, h) => p == h)

  /** `IDiaryCreateInput`. */
  datatype CreateInput = CreateInput(
    title: Option<string>,
    content: string,
    isLocked: Option<bool>,
    lockPassword: Option<string>)

  /** `content.slice(0, 20)`. */
  function TitleFrom(content: string): (t: string)
    ensures |t| <= 20 && t <= content
    ensures |content| <= 20 ==> t == content
    ensures |content| > 20 ==> t == content[..20]
  {
    if |content| <= 20 then content else content[..20]
  }

  /** The row `createDiary` inserts under the id the database assigns. */
  function NewDiary(id: string, userId: string, input: CreateInput, b: Bcrypt): (d: Diary)
    ensures d.id == id && d.userId == userId && d.content == input.content
    ensures d.isLocked == (input.isLocked == Some(true))
    ensures d.title == (if input.title.Some? then input.title.value else TitleFrom(input.content))
    ensures d.lockPasswordHash.Some? <==> d.isLocked && TruthyText(input.lockPassword)
    ensures d.lockPasswordHash.Some? ==> d.lockPasswordHash.value == b.hash(input.lockPassword.value)
  {
    var locked := if input.isLocked.Some? then input.isLocked.value else false;
    Diary(
      id,
      userId,
      if input.title.Some? then input.title.value else TitleFrom(input.content),
      input.content,
      locked,
      if locked && TruthyText(input.lockPassword) then Some(b.hash(input.lockPassword.value)) else None)
  }

  /** `unlockDiary`: an unlocked diary, or a locked one without a hash, opens
      with any password; otherwise bcrypt decides. */
  function UnlockDiary(d: Diary, password: string, b: Bcrypt): (ok: bool)
    ensures !d.isLocked || !TruthyText(d.lockPasswordHash) ==> ok
    ensures d.isLocked && TruthyText(d.lockPasswordHash) ==> ok == b.compare(password, d.lockPasswordHash.value)
  {
    if !d.isLocked then true
    else if !TruthyText(d.lockPasswordHash) then true
    else b.compare(password, d.lockPasswordHash.value)
  }

  /** `IDiaryUpdateInput`; `lock_password` may also be `null`. */
  datatype UpdateInput = UpdateInput(
    title: Option<string>,
    content: Option<string>,
    isLocked: Option<bool>,
    lockPassword: Field<string>)

  /** The keys an update object may hold. */
  datatype Column = Title | Content | IsLocked | LockPassword | LockPasswordHash

  datatype Value = Text(s: string) | Flag(b: bool) | NullValue

  type Updates = map<Column, Value>

  /** `updateDiary`'s update object: a copy of the defined input keys, then
      `lock_password` replaced by `lock_password_hash` (`null` clears it, a
      string is hashed). */
  method BuildUpdates(input: UpdateInput, b: Bcrypt) returns (updates: Updates)
    ensures LockPassword !in updates
    ensures Title in updates <==> input.title.Some?
    ensures input.title.Some? ==> updates[Title] == Text(input.title.value)
    ensures Content in updates <==> input.content.Some?
    ensures input.content.Some? ==> updates[Content] == Text(input.content.value)
    ensures IsLocked in updates <==> input.isLocked.Some?
    ensures input.isLocked.Some? ==> updates[IsLocked] == Flag(input.isLocked.value)
    ensures LockPasswordHash in updates <==> !input.lockPassword.Absent?
    ensures input.lockPassword.Null? ==> updates[LockPasswordHash] == NullValue
    ensures input.lockPassword.Given? ==> updates[LockPasswordHash] == Text(b.hash(input.lockPassword.value))
  {
    updates := map[];
    if input.title.Some? {
      updates := updates[Title := Text(input.title.value)];
    }
    if input.content.Some? {
      updates := updates[Content := Text(input.content.value)];
    }
    if input.isLocked.Some? {
      updates := updates[IsLocked := Flag(input.isLocked.value)];
    }
    if !input.lockPassword.Absent? {
      updates := updates[LockPassword := if input.lockPassword.Null? then NullValue else Text(input.lockPassword.value)];
    }
    if !input.lockPassword.Absent? {
      if input.lockPassword.Null? {
        updates := updates[LockPasswordHash := NullValue];
      } else {
        updates := updates[LockPasswordHash := Text(b.hash(input.lockPassword.value))];
      }
      updates := updates - {LockPassword};
    }
  }

  /** A row with an update object applied; keys with a value of the wrong
      kind are ignored. */
  function Patched(d: Diary, updates: Updates): (r: Diary)
    ensures r.id == d.id && r.userId == d.userId
  {
    d.(title := if Title in updates && updates[Title].Text? then updates[Title].s else d.title,
       content := if Content in updates && updates[Content].Text? then updates[Content].s else d.content,
       isLocked := if IsLocked in updates && updates[IsLocked].Flag? then updates[IsLocked].b else d.isLocked,
       lockPasswordHash :=
         if LockPasswordHash !in updates then d.lockPasswordHash
         else if updates[LockPasswordHash].Text? then Some(updates[LockPasswordHash].s)
         else if updates[LockPasswordHash].NullValue? then None
         else d.lockPasswordHash)
  }

  /** The row the query `.eq('user_id', userId).eq('id', diaryId)` selects. */
  predicate Owned(rows: Table, userId: string, diaryId: string)
  {
    diaryId in rows && rows[diaryId].userId == userId
  }

  const NotFound: AppError := Fail("Diary not found", 404, "diary_not_found")

  class DiaryTable {
    var rows: Table

    ghost predicate Valid()
      reads this
    {
      KeysMatchIds(rows)
    }

    constructor (initial: Table)
      requires KeysMatchIds(initial)
      ensures Valid() && rows == initial
    {
      rows := initial;
    }

    /** `createDiary`: insert the defaulted row under the id the database
      assigns; an insert error (a taken id included) is `diary_create_failed`. */
    method CreateDiary(userId: string, input: CreateInput, newId: string, dbError: Option<string>, b: Bcrypt)
      returns (r: Result<Diary, Thrown>)
      requires Valid()
      modifies this
      ensures Valid()
      ensures r.Ok? <==> dbError.None? && newId !in old(rows)
      ensures r.Ok? ==> r.value == NewDiary(newId, userId, input, b) && rows == old(rows)[newId := r.value]
      ensures r.Err? ==> rows == old(rows) && r.error.App? && r.error.app.code == "diary_create_failed"
                         && r.error.app.status == 500
    {
      if dbError.Some? {
        return Err(App(QueryFailure("Failed to create diary", 500, "diary_create_failed", dbError.value)));
      }
      if newId in rows {
        return Err(App(QueryFailure("Failed to create diary", 500, "diary_create_failed",
                                    "duplicate key value violates unique constraint \"diaries_pkey\"")));
      }
      var diary := NewDiary(newId, userId, input, b);
      rows := rows[newId := diary];
      return Ok(diary);
    }

    /** `getDiary`: the caller's diary with that id, or nothing. */
    method GetDiary(userId: string, diaryId: string, dbError: Option<string>) returns (r: Result<Option<Diary>, Thrown>)
      ensures r.Ok? <==> dbError.None?
      ensures r.Ok? ==> (r.value.Some? <==> Owned(rows, userId, diaryId))
      ensures r.Ok? && r.value.Some? ==> r.value.value == rows[diaryId]
      ensures r.Err? ==> r.error.App? && r.error.app.code == "diary_fetch_failed"
    {
      if dbError.Some? {
        return Err(App(QueryFailure("Failed to fetch diary", 500, "diary_fetch_failed", dbError.value)));
      }
      if Owned(rows, userId, diaryId) {
        return Ok(Some(rows[diaryId]));
      }
      return Ok(None);
    }

    /** `updateDiary`: patch the caller's row with that id; 404 when the
      caller owns no such row. */
    method UpdateDiary(userId: string, diaryId: string, input: UpdateInput, dbError: Option<string>, b: Bcrypt)
      returns (r: Result<Diary, Thrown>)
      requires Valid()
      modifies this
      ensures Valid()
      ensures dbError.Some? ==> rows == old(rows) && r.Err? && r.error.App? && r.error.app.code == "diary_update_failed"
      ensures dbError.None? && !Owned(old(rows), userId, diaryId) ==> rows == old(rows) && r == Err(App(NotFound))
      ensures dbError.None? && Owned(old(rows), userId, diaryId) ==>
                exists updates: Updates | LockPassword !in updates ::
                  r == Ok(Patched(old(rows)[diaryId], updates)) && rows == old(rows)[diaryId := r.value]
      ensures r.Ok? ==> r.value == Updated(old(rows)[diaryId], input, b)
    {
      var updates := BuildUpdates(input, b);
      if dbError.Some? {
        return Err(App(QueryFailure("Failed to update diary", 500, "diary_update_failed", dbError.value)));
      }
      if !Owned(rows, userId, diaryId) {
        return Err(App(NotFound));
      }
      var updated := Patched(rows[diaryId], updates);
      UpdatedMatchesPatched(rows[diaryId], input, b, updates);
      rows := rows[diaryId := updated];
      return Ok(updated);
    }

    /** `deleteDiary`: remove the caller's row with that id; 404 when the
      caller owns no such row. */
    method DeleteDiary(userId: string, diaryId: string, dbError: Option<string>) returns (r: Result<(), Thrown>)
      requires Valid()
      modifies this
      ensures Valid()
      ensures r.Ok? <==> dbError.None? && Owned(old(rows), userId, diaryId)
      ensures r.Ok? ==> rows == old(rows) - {diaryId}
      ensures r.Err? ==> rows == old(rows)
      ensures dbError.None? && !Owned(old(rows), userId, diaryId) ==> r == Err(App(NotFound))
      ensures dbError.Some? ==> r.Err? && r.error.App? && r.error.app.code == "diary_delete_failed"
    {
      if dbError.Some? {
        return Err(App(QueryFailure("Failed to delete diary", 500, "diary_delete_failed", dbError.value)));
      }
      if !Owned(rows, userId, diaryId) {
        return Err(App(NotFound));
      }
      rows := rows - {diaryId};
      return Ok(());
    }
  }

  /** The row after an update with `input`, field by field: each defined
      field replaces the stored one, and `lock_password` decides the hash. */
  function Updated(d: Diary, input: UpdateInput, b: Bcrypt): (r: Diary)
    ensures r.id == d.id && r.userId == d.userId
    ensures input.lockPassword.Given? ==> r.lockPasswordHash.Some? && b.compare(input.lockPassword.value, r.lockPasswordHash.value)
    ensures input.lockPassword.Null? ==> r.lockPasswordHash.None?
    ensures input.lockPassword.Absent? ==> r.lockPasswordHash == d.lockPasswordHash
  {
    d.(title := if input.title.Some? then input.title.value else d.title,
       content := if input.content.Some? then input.content.value else d.content,
       isLocked := if input.isLocked.Some? then input.isLocked.value else d.isLocked,
       lockPasswordHash := match input.lockPassword
                           case Absent => d.lockPasswordHash
                           case Null => None
                           case Given(p) => Some(b.hash(p)))
  }

  /** Applying the built update object is the field-by-field update. */
  lemma UpdatedMatchesPatched(d: Diary, input: UpdateInput, b: Bcrypt, updates: Updates)
    requires LockPassword !in updates
    requires Title in updates <==> input.title.Some?
    requires input.title.Some? ==> updates[Title] == Text(input.title.value)
    requires Content in updates <==> input.content.Some?
    requires input.content.Some? ==> updates[Content] == Text(input.content.value)
    requires IsLocked in updates <==> input.isLocked.Some?
    requires input.isLocked.Some? ==> updates[IsLocked] == Flag(input.isLocked.value)
    requires LockPasswordHash in updates <==> !input.lockPassword.Absent?
    requires input.lockPassword.Null? ==> updates[LockPasswordHash] == NullValue
    requires input.lockPassword.Given? ==> updates[LockPasswordHash] == Text(b.hash(input.lockPassword.value))
    ensures Patched(d, updates) == Updated(d, input, b)
  {
  }

  /** A diary created locked with a password opens with that password, and
      one created unlocked (or without a password) opens with any. */
  lemma CreatedDiaryUnlocks(id: string, userId: string, input: CreateInput, b: Bcrypt, other: string)
    ensures var d := NewDiary(id, userId, input, b);
      && (d.isLocked && TruthyText(input.lockPassword) ==> UnlockDiary(d, input.lockPassword.value, b))
      && (!d.isLocked || !TruthyText(input.lockPassword) ==> UnlockDiary(d, other, b))
  {
  }

  /** After an update that sets a password, that password opens the diary;
      after one that clears it, any password does. */
  lemma UpdatedDiaryUnlocks(d: Diary, input: UpdateInput, b: Bcrypt, other: string)
    ensures input.lockPassword.Given? ==> UnlockDiary(Updated(d, input, b), input.lockPassword.value, b)
    ensures input.lockPassword.Null? ==> UnlockDiary(Updated(d, input, b), other, b)
  {
  }

  // ----------------------------------------------------------------- filters

  /** `IDiaryListFilter`; `offsetYear` is `None` for a missing or non-numeric
      query value. */
  datatype ListFilter = ListFilter(
    from: Option<string>,
    to: Option<string>,
    month: Option<string>,
    day: Option<string>,
    offsetYear: Option<int>)

  /** The calendar arithmetic (`dayjs`, at the current time): the ISO bounds
      of a month, of a day, and of the same week day `n` years ago. */
  datatype Calendar = Calendar(
    monthBounds: string -> (string, string),
    dayBounds: string -> (string, string),
    yearsAgoBounds: int -> (string, string))

  /** `fromDate` and `toDate` as the if/else chain leaves them. */
  method DateBounds(f: ListFilter, cal: Calendar) returns (fromDate: Option<string>, toDate: Option<string>)
    ensures (fromDate, toDate) == Bounds(f, cal)
  {
    fromDate, toDate := None, None;
    if TruthyText(f.from) && TruthyText(f.to) {
      fromDate := f.from;
      toDate := f.to;
    } else if TruthyText(f.month) {
      var bounds := cal.monthBounds(f.month.value);
      fromDate, toDate := Some(bounds.0), Some(bounds.1);
    } else if TruthyText(f.day) {
      var bounds := cal.dayBounds(f.day.value);
      fromDate, toDate := Some(bounds.0), Some(bounds.1);
    } else if f.offsetYear.Some? && f.offsetYear.value != 0 {
      var bounds := cal.yearsAgoBounds(f.offsetYear.value);
      fromDate, toDate := Some(bounds.0), Some(bounds.1);
    }
  }

  /** The range the filter selects, by precedence: both `from` and `to`,
      then `month`, then `day`, then a non-zero `offsetYear`. */
  function Bounds(f: ListFilter, cal: Calendar): (Option<string>, Option<string>)
  {
    if TruthyText(f.from) && TruthyText(f.to) then (f.from, f.to)
    else if TruthyText(f.month) then (Some(cal.monthBounds(f.month.value).0), Some(cal.monthBounds(f.month.value).1))
    else if TruthyText(f.day) then (Some(cal.dayBounds(f.day.value).0), Some(cal.dayBounds(f.day.value).1))
    else if f.offsetYear.Some? && f.offsetYear.value != 0 then
      (Some(cal.yearsAgoBounds(f.offsetYear.value).0), Some(cal.yearsAgoBounds(f.offsetYear.value).1))
    else (None, None)
  }

  /** The query adds `created_at` bounds only when both ends are non-empty. */
  predicate RangeApplied(bounds: (Option<string>, Option<string>))
  {
    TruthyText(bounds.0) && TruthyText(bounds.1)
  }

  /** Precedence: an explicit range hides every other field, a month hides
      the day and the year offset, a day hides the year offset; a lone `from`
      or `to` is ignored; `offsetYear` 0 counts as absent; with nothing set
      no range is applied. */
  lemma FilterPrecedence(f: ListFilter, cal: Calendar, g: ListFilter)
    ensures TruthyText(f.from) && TruthyText(f.to) ==>
              Bounds(f, cal) == (f.from, f.to) && RangeApplied(Bounds(f, cal))
              && Bounds(f.(month := g.month, day := g.day, offsetYear := g.offsetYear), cal) == Bounds(f, cal)
    ensures !(TruthyText(f.from) && TruthyText(f.to)) ==> Bounds(f, cal) == Bounds(f.(from := None, to := None), cal)
    ensures TruthyText(f.month) ==> Bounds(f.(day := g.day, offsetYear := g.offsetYear), cal) == Bounds(f, cal)
    ensures TruthyText(f.day) ==> Bounds(f.(offsetYear := g.offsetYear), cal) == Bounds(f, cal)
    ensures !(TruthyText(f.from) && TruthyText(f.to)) && !TruthyText(f.month) && TruthyText(f.day) ==>
              Bounds(f, cal) == (Some(cal.dayBounds(f.day.value).0), Some(cal.dayBounds(f.day.value).1))
    ensures f.offsetYear == Some(0) ==> Bounds(f, cal) == Bounds(f.(offsetYear := None), cal)
    ensures f == ListFilter(None, None, None, None, None) ==> !RangeApplied(Bounds(f, cal))
  {
  }
}
