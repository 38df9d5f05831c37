/** The request schemas (zod): date and time patterns, non-empty strings,
    UUIDs, and the two object schemas built from them. A JSON object's
    missing key is `undefined`; an optional field accepts a missing key but
    not `null`; unknown keys are dropped from the parsed value. */
module Validators {
  import opened Common

  /** One position of an anchored regular expression made of `\d` (ASCII
      only under the `u` flag), hexadecimal digits and literal characters. */
  datatype Atom = Digit | Hex | Lit(c: char)

  predicate AtomMatches(a: Atom, c: char)
  {
    match a
    case Digit => IsAsciiDigit(c)
    case Hex => IsHexDigit(c)
    case Lit(l) => c == l
  }

  /** The whole string matches the pattern (`^...$`). */
  function Matches(p: seq<Atom>, s: string): (m: bool)
    ensures m ==> |s| == |p|
  {
    if p == [] then s == []
    else s != [] && AtomMatches(p[0], s[0]) && Matches(p[1..], s[1..])
  }

  /** Anchored matching is position-by-position agreement. */
  lemma {:induction false} MatchesPointwise(p: seq<Atom>, s: string)
    ensures Matches(p, s) <==> |p| == |s| && forall i :: 0 <= i < |s| ==> AtomMatches(p[i], s[i])
  {
    if p != [] && s != [] {
      MatchesPointwise(p[1..], s[1..]);
      if |p| == |s| && forall i :: 0 <= i < |s| ==> AtomMatches(p[i], s[i]) {
        forall i | 0 <= i < |s| - 1
          ensures AtomMatches(p[1..][i], s[1..][i])
        {
          assert AtomMatches(p[i + 1], s[i + 1]);
        }
      }
    }
  }

  function Repeat(a: Atom, n: nat): (p: seq<Atom>)
    ensures |p| == n && forall i :: 0 <= i < n ==> p[i] == a
  {
    if n == 0 then [] else [a] + Repeat(a, n - 1)
  }

  /** `/^\d{4}-\d{2}-\d{2}$/u` */
  const DatePattern: seq<Atom> := Repeat(Digit, 4) + [Lit('-')] + Repeat(Digit, 2) + [Lit('-')] + Repeat(Digit, 2)

  /** `/^\d{2}:\d{2}$/u` and `/^\d{2}:\d{2}:\d{2}$/u`, the two strings
      `/^\d{2}:\d{2}(:\d{2})?$/u` accepts. */
  const ShortTimePattern: seq<Atom> := Repeat(Digit, 2) + [Lit(':')] + Repeat(Digit, 2)
  const LongTimePattern: seq<Atom> := ShortTimePattern + [Lit(':')] + Repeat(Digit, 2)

  /** zod's UUID pattern: 8-4-4-4-12 hexadecimal digits in either case. */
  const UuidPattern: seq<Atom> :=
    Repeat(Hex, 8) + [Lit('-')] + Repeat(Hex, 4) + [Lit('-')] + Repeat(Hex, 4) + [Lit('-')]
    + Repeat(Hex, 4) + [Lit('-')] + Repeat(Hex, 12)

  /** `dateParamSchema`. */
  predicate DateParam(s: string)
  {
    Matches(DatePattern, s)
  }

  /** The `entryTime` pattern. */
  predicate EntryTime(s: string)
  {
    Matches(ShortTimePattern, s) || Matches(LongTimePattern, s)
  }

  /** `z.string().uuid()`. */
  predicate Uuid(s: string)
  {
    Matches(UuidPattern, s)
  }

  /** `z.string().min(n)`: JavaScript's length counts UTF-16 code units. */
  predicate MinLength(s: string, n: nat)
  {
    Utf16Length(s) >= n
  }

  predicate NonEmpty(s: string)
  {
    MinLength(s, 1)
  }

  /** A date parameter is exactly four digits, a dash, two digits, a dash and
      two digits; the digits are not checked against the calendar. */
  lemma DateParamShape(s: string)
    ensures DateParam(s) <==>
              |s| == 10 && s[4] == '-' && s[7] == '-'
              && forall i :: 0 <= i < 10 && i != 4 && i != 7 ==> IsAsciiDigit(s[i])
  {
    MatchesPointwise(DatePattern, s);
    assert forall i :: 0 <= i < 10 && i != 4 && i != 7 ==> DatePattern[i] == Digit;
    assert DatePattern[4] == Lit('-') && DatePattern[7] == Lit('-');
  }

  lemma DateParamExamples()
    ensures DateParam("2024-13-99")
    ensures !DateParam("2024-1-31")
    ensures !DateParam("2024-01-31\n")
  {
    DateParamShape("2024-13-99");
    DateParamShape("2024-1-31");
    DateParamShape("2024-01-31\n");
  }

  /** An entry time is `HH:MM` or `HH:MM:SS` over ASCII digits. */
  lemma EntryTimeShape(s: string)
    ensures EntryTime(s) <==>
              (|s| == 5 || |s| == 8) && s[2] == ':' && (|s| == 8 ==> s[5] == ':')
              && forall i :: 0 <= i < |s| && i != 2 && i != 5 ==> IsAsciiDigit(s[i])
  {
    MatchesPointwise(ShortTimePattern, s);
    MatchesPointwise(LongTimePattern, s);
    assert forall i :: 0 <= i < 5 && i != 2 ==> ShortTimePattern[i] == Digit;
    assert forall i :: 0 <= i < 8 && i != 2 && i != 5 ==> LongTimePattern[i] == Digit;
    assert ShortTimePattern[2] == Lit(':') && LongTimePattern[2] == Lit(':') && LongTimePattern[5] == Lit(':');
  }

  /** A UUID has dashes at positions 8, 13, 18 and 23 and hexadecimal digits
      everywhere else, 36 characters in all. */
  lemma UuidShape(s: string)
    ensures Uuid(s) <==>
              |s| == 36 && s[8] == '-' && s[13] == '-' && s[18] == '-' && s[23] == '-'
              && forall i :: 0 <= i < 36 && i != 8 && i != 13 && i != 18 && i != 23 ==> IsHexDigit(s[i])
  {
    MatchesPointwise(UuidPattern, s);
    assert forall i :: 0 <= i < 36 && i != 8 && i != 13 && i != 18 && i != 23 ==> UuidPattern[i] == Hex;
    assert UuidPattern[8] == Lit('-') && UuidPattern[13] == Lit('-') && UuidPattern[18] == Lit('-')
           && UuidPattern[23] == Lit('-');
  }

  /** `min(1)` is non-emptiness, and `min(n)` never needs more than `n`
      characters. */
  lemma {:induction false} MinLengthBounds(s: string, n: nat)
    ensures NonEmpty(s) <==> s != []
    ensures |s| >= n ==> MinLength(s, n)
  {
  }

  // ------------------------------------------------------------ object schemas

  /** Why a parse failed: the input is not an object, or a field is invalid. */
  datatype Issue = NotAnObject | Invalid(field: string)

  /** A required string field that satisfies `p`. */
  predicate RequiredText(fields: map<string, Json>, key: string, p: string -> bool)
  {
    key in fields && fields[key].JString? && p(fields[key].s)
  }

  /** An optional string field: missing, or a string that satisfies `p`. */
  predicate OptionalText(fields: map<string, Json>, key: string, p: string -> bool)
  {
    key !in fields || (fields[key].JString? && p(fields[key].s))
  }

  function OptionalString(fields: map<string, Json>, key: string): Option<string>
  {
    if key in fields && fields[key].JString? then Some(fields[key].s) else None
  }

  /** `CreateEntryInput`. */
  datatype CreateEntry = CreateEntry(
    entryDate: string,
    entryTime: Option<string>,
    ciphertext: string,
    iv: string,
    wrappedEntryKey: string,
    meta: Option<map<string, Json>>,
    isLocked: Option<bool>)

  const EntryKeys: set<string> := {"entryDate", "entryTime", "ciphertext", "iv", "wrappedEntryKey", "meta", "isLocked"}

  /** The failing fields of a `createEntrySchema` object. */
  function EntryIssues(fields: map<string, Json>): set<Issue>
  {
    IssueIf(RequiredText(fields, "entryDate", DateParam), Invalid("entryDate"))
    + IssueIf(OptionalText(fields, "entryTime", EntryTime), Invalid("entryTime"))
    + IssueIf(RequiredText(fields, "ciphertext", NonEmpty), Invalid("ciphertext"))
    + IssueIf(RequiredText(fields, "iv", NonEmpty), Invalid("iv"))
    + IssueIf(RequiredText(fields, "wrappedEntryKey", NonEmpty), Invalid("wrappedEntryKey"))
    + IssueIf("meta" !in fields || fields["meta"].JObject?, Invalid("meta"))
    + IssueIf("isLocked" !in fields || fields["isLocked"].JBool?, Invalid("isLocked"))
  }

  /** `createEntrySchema.safeParse`. */
  function ParseCreateEntry(j: Json): (r: Result<CreateEntry, set<Issue>>)
    ensures r.Err? <==> !j.JObject? || EntryIssues(j.fields) != {}
    ensures r.Err? ==> r.error != {}
    ensures r.Ok? ==> ValidEntry(r.value)
  {
    if !j.JObject? then Err({NotAnObject})
    else
      var f := j.fields;
      var issues := EntryIssues(f);
      if issues != {} then Err(issues)
      else
        assert Invalid("entryDate") !in issues && Invalid("ciphertext") !in issues;
        assert Invalid("iv") !in issues && Invalid("wrappedEntryKey") !in issues;
        assert Invalid("entryTime") !in issues;
        Ok(CreateEntry(
          f["entryDate"].s,
          OptionalString(f, "entryTime"),
          f["ciphertext"].s,
          f["iv"].s,
          f["wrappedEntryKey"].s,
          if "meta" in f then Some(f["meta"].fields) else None,
          if "isLocked" in f then Some(f["isLocked"].b) else None))
  }

  /** The constraints a parsed entry satisfies. */
  predicate ValidEntry(e: CreateEntry)
  {
    && DateParam(e.entryDate)
    && (e.entryTime.Some? ==> EntryTime(e.entryTime.value))
    && NonEmpty(e.ciphertext) && NonEmpty(e.iv) && NonEmpty(e.wrappedEntryKey)
  }

  /** The JSON object a client sends for an entry. */
  function EntryJson(e: CreateEntry): (j: Json)
    ensures j.JObject? && j.fields.Keys <= EntryKeys
  {
    var required := map["entryDate" := JString(e.entryDate), "ciphertext" := JString(e.ciphertext),
                         "iv" := JString(e.iv), "wrappedEntryKey" := JString(e.wrappedEntryKey)];
    var withTime := if e.entryTime.Some? then required["entryTime" := JString(e.entryTime.value)] else required;
    var withMeta := if e.meta.Some? then withTime["meta" := JObject(e.meta.value)] else withTime;
    JObject(if e.isLocked.Some? then withMeta["isLocked" := JBool(e.isLocked.value)] else withMeta)
  }

  /** Every valid entry is accepted and parsed back unchanged. */
  lemma EntryRoundTrip(e: CreateEntry)
    requires ValidEntry(e)
    ensures ParseCreateEntry(EntryJson(e)) == Ok(e)
  {
    var f := EntryJson(e).fields;
    assert EntryIssues(f) == {};
  }

  /** Unknown keys neither cause a failure nor reach the parsed value. */
  lemma EntryIgnoresUnknownKeys(fields: map<string, Json>, key: string, v: Json)
    requires key !in EntryKeys
    ensures ParseCreateEntry(JObject(fields[key := v])) == ParseCreateEntry(JObject(fields))
  {
    assert EntryIssues(fields[key := v]) == EntryIssues(fields);
  }

  /** An optional field may be missing but not `null`. */
  lemma NullIsNotMissing(fields: map<string, Json>)
    requires EntryIssues(fields) == {}
    ensures ParseCreateEntry(JObject(fields["entryTime" := JNull])).Err?
    ensures ParseCreateEntry(JObject(fields["isLocked" := JNull])).Err?
    ensures ParseCreateEntry(JObject(fields - {"entryTime"})).Ok?
  {
    assert Invalid("entryTime") in EntryIssues(fields["entryTime" := JNull]);
    assert Invalid("isLocked") in EntryIssues(fields["isLocked" := JNull]);
    assert EntryIssues(fields - {"entryTime"}) == {};
  }

  /** `RequestUnwrapInput`. */
  datatype UnwrapRequest = UnwrapRequest(userId: string, entryId: string, reason: string)

  const UnwrapKeys: set<string> := {"user_id", "entry_id", "reason"}

  function MinFive(s: string): bool
  {
    MinLength(s, 5)
  }

  function UnwrapIssues(fields: map<string, Json>): set<Issue>
  {
    IssueIf(RequiredText(fields, "user_id", Uuid), Invalid("user_id"))
    + IssueIf(RequiredText(fields, "entry_id", Uuid), Invalid("entry_id"))
    + IssueIf(RequiredText(fields, "reason", MinFive), Invalid("reason"))
  }

  /** `requestUnwrapSchema.safeParse`. */
  function ParseUnwrapRequest(j: Json): (r: Result<UnwrapRequest, set<Issue>>)
    ensures r.Err? <==> !j.JObject? || UnwrapIssues(j.fields) != {}
    ensures r.Err? ==> r.error != {}
    ensures r.Ok? ==> Uuid(r.value.userId) && Uuid(r.value.entryId) && Utf16Length(r.value.reason) >= 5
  {
    if !j.JObject? then Err({NotAnObject})
    else
      var f := j.fields;
      var issues := UnwrapIssues(f);
      if issues != {} then Err(issues)
      else
        assert Invalid("user_id") !in issues && Invalid("entry_id") !in issues && Invalid("reason") !in issues;
        Ok(UnwrapRequest(f["user_id"].s, f["entry_id"].s, f["reason"].s))
  }

  function UnwrapJson(u: UnwrapRequest): Json
  {
    JObject(map["user_id" := JString(u.userId), "entry_id" := JString(u.entryId), "reason" := JString(u.reason)])
  }

  /** A request with two UUIDs and a reason of five or more characters is
      accepted and parsed back unchanged; a shorter reason is refused. */
  lemma UnwrapRoundTrip(u: UnwrapRequest)
    ensures Uuid(u.userId) && Uuid(u.entryId) && Utf16Length(u.reason) >= 5 ==>
              ParseUnwrapRequest(UnwrapJson(u)) == Ok(u)
    ensures Utf16Length(u.reason) < 5 ==>
              ParseUnwrapRequest(UnwrapJson(u)).Err? && Invalid("reason") in ParseUnwrapRequest(UnwrapJson(u)).error
  {
    var f := UnwrapJson(u).fields;
    if Uuid(u.userId) && Uuid(u.entryId) && Utf16Length(u.reason) >= 5 {
      assert UnwrapIssues(f) == {};
    }
    if Utf16Length(u.reason) < 5 {
      assert Invalid("reason") in UnwrapIssues(f);
    }
  }
}
