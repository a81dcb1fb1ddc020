/**
 * The identity mapper: the total translation of a raw backend user record into the
 * application's own `User` (mapSupabaseUserToLocalUser in src/auth/AuthProvider.tsx).
 */
module Identity {
  import opened Wrappers
  import opened JsString

  /** The closed role enumeration; each role is identified by its string value. */
  datatype Role = USER | ADMIN

  function RoleValue(r: Role): string
  {
    match r
    case USER => "user"
    case ADMIN => "admin"
  }

  /** `Object.values(Role).includes(s)`, read as a parse: the role whose value is `s`, if any. */
  function ParseRole(s: string): (r: Option<Role>)
    ensures r.Some? ==> RoleValue(r.value) == s
    ensures r.None? ==> forall role: Role :: RoleValue(role) != s
  {
    if s == "user" then Some(USER)
    else if s == "admin" then Some(ADMIN)
    else None
  }

  /** `user_metadata`: the display-name hints. */
  datatype UserMetadata = UserMetadata(fullName: Option<string>, name: Option<string>)

  /** `app_metadata`: `roles` is `Some` only when the field holds an array. */
  datatype AppMetadata = AppMetadata(roles: Option<seq<string>>)

  /** The backend's raw user record; timestamps are kept as the text the backend sent. */
  datatype RawUser = RawUser(
    id: string,
    email: Option<string>,
    userMetadata: Option<UserMetadata>,
    appMetadata: Option<AppMetadata>,
    createdAt: Option<string>,
    updatedAt: Option<string>)

  /** The argument a `Date` was built from: a backend timestamp or the clock reading `now`. */
  datatype Timestamp = Recorded(text: string) | Clock(millis: int)

  /** The application's identity value. */
  datatype User = User(
    id: string,
    email: string,
    name: string,
    roles: seq<Role>,
    createdAt: Timestamp,
    updatedAt: Timestamp)

  /** What every mapped user satisfies: a display name and at least one role. */
  predicate WellFormed(u: User)
  {
    u.name != "" && |u.roles| > 0
  }

  /** `supabaseUser.user_metadata?.full_name` */
  function FullNameHint(raw: RawUser): Option<string>
  {
    if raw.userMetadata.Some? then raw.userMetadata.value.fullName else None
  }

  /** `supabaseUser.user_metadata?.name` */
  function NameHint(raw: RawUser): Option<string>
  {
    if raw.userMetadata.Some? then raw.userMetadata.value.name else None
  }

  /** `supabaseUser.app_metadata?.roles`, when it is an array */
  function RolesHint(raw: RawUser): Option<seq<string>>
  {
    if raw.appMetadata.Some? then raw.appMetadata.value.roles else None
  }

  /** `email?.split('@')[0] || 'User'` */
  function NameFromEmail(email: Option<string>): (name: string)
    ensures name != ""
  {
    match email
    case None => "User"
    case Some(e) =>
      var local := Split(e, '@')[0];
      if local != "" then local else "User"
  }

  /** The display name: the email fallback, overridden by a truthy `full_name`, else a truthy `name`. */
  function DeriveName(raw: RawUser): (name: string)
    ensures name != ""
  {
    var name := NameFromEmail(raw.email);
    if Present(FullNameHint(raw)) then FullNameHint(raw).value
    else if Present(NameHint(raw)) then NameHint(raw).value
    else name
  }

  /** The email has a non-empty part before its first `@`. */
  predicate HasLocalPart(email: Option<string>)
  {
    email.Some? && email.value != "" && email.value[0] != '@'
  }

  /** `values.filter(r => Object.values(Role).includes(r))`, kept as roles. */
  function FilterRoles(values: seq<string>): (roles: seq<Role>)
    ensures |roles| <= |values|
    decreases |values|
  {
    if values == [] then [] else KeepRole(values[0]) + FilterRoles(values[1..])
  }

  /** What the filter keeps of one entry. */
  function KeepRole(s: string): (kept: seq<Role>)
    ensures |kept| <= 1
    ensures forall role: Role :: role in kept <==> RoleValue(role) == s
  {
    match ParseRole(s)
    case Some(r) => [r]
    case None => []
  }

  /** The role list: the valid entries of an array-valued `roles`, or `[USER]` when none remain. */
  function DeriveRoles(raw: RawUser): (roles: seq<Role>)
    ensures |roles| > 0
  {
    var roles := [USER];
    match RolesHint(raw)
    case None => roles
    case Some(values) =>
      var kept := FilterRoles(values);
      if |kept| == 0 then roles else kept
  }

  /** `created_at || Date.now()` */
  function CreatedAt(raw: RawUser, now: int): (t: Timestamp)
    ensures t.Clock? <==> !Present(raw.createdAt)
    ensures t.Clock? ==> t.millis == now
    ensures t.Recorded? ==> raw.createdAt == Some(t.text)
  {
    if Present(raw.createdAt) then Recorded(raw.createdAt.value) else Clock(now)
  }

  /** `updated_at || created_at || Date.now()` */
  function UpdatedAt(raw: RawUser, now: int): (t: Timestamp)
    ensures t.Clock? <==> !Present(raw.updatedAt) && !Present(raw.createdAt)
    ensures t.Clock? ==> t.millis == now
    ensures Present(raw.updatedAt) ==> t == Recorded(raw.updatedAt.value)
    ensures !Present(raw.updatedAt) ==> t == CreatedAt(raw, now)
  {
    if Present(raw.updatedAt) then Recorded(raw.updatedAt.value) else CreatedAt(raw, now)
  }

  /** mapSupabaseUserToLocalUser, with the clock reading passed in as `now`. */
  function MapUser(raw: RawUser, now: int): (u: User)
    ensures WellFormed(u)
    ensures u.id == raw.id
    ensures u.email == raw.email.GetOr("")
    ensures u.roles == DeriveRoles(raw) && u.name == DeriveName(raw)
  {
    User(
      raw.id,
      if Present(raw.email) then raw.email.value else "",
      DeriveName(raw),
      DeriveRoles(raw),
      CreatedAt(raw, now),
      UpdatedAt(raw, now))
  }

  // ----- Properties of the mapper -----

  /** Every role is recognised by the filter under its own value. */
  lemma ParseRoleValue(r: Role)
    ensures ParseRole(RoleValue(r)) == Some(r)
  {
  }

  /**
   * Name precedence: a truthy `full_name`, else a truthy `name`, else the text before the
   * first `@` of the email when that text is non-empty, else "User".
   */
  lemma {:induction false} NamePrecedence(raw: RawUser)
    ensures Present(FullNameHint(raw)) ==> DeriveName(raw) == FullNameHint(raw).value
    ensures !Present(FullNameHint(raw)) && Present(NameHint(raw)) ==>
              DeriveName(raw) == NameHint(raw).value
    ensures !Present(FullNameHint(raw)) && !Present(NameHint(raw)) && HasLocalPart(raw.email) ==>
              FirstRun(raw.email.value, '@', DeriveName(raw))
    ensures !Present(FullNameHint(raw)) && !Present(NameHint(raw)) && !HasLocalPart(raw.email) ==>
              DeriveName(raw) == "User"
  {
    if raw.email.Some? {
      var e := raw.email.value;
      SplitHead(e, '@');
    }
  }

  /** The filter distributes over concatenation: it keeps the order of the entries. */
  lemma {:induction false} FilterRolesAppend(a: seq<string>, b: seq<string>)
    ensures FilterRoles(a + b) == FilterRoles(a) + FilterRoles(b)
    decreases |a|
  {
    if a != [] {
      assert (a + b)[0] == a[0];
      assert (a + b)[1..] == a[1..] + b;
      FilterRolesAppend(a[1..], b);
      calc {
        FilterRoles(a + b);
        KeepRole(a[0]) + FilterRoles(a[1..] + b);
        KeepRole(a[0]) + (FilterRoles(a[1..]) + FilterRoles(b));
        (KeepRole(a[0]) + FilterRoles(a[1..])) + FilterRoles(b);
      }
    } else {
      assert a + b == b;
    }
  }

  /** The filter keeps each valid entry as often as it occurs: duplicates survive. */
  lemma {:induction false} FilterRolesCount(values: seq<string>, r: Role)
    ensures multiset(FilterRoles(values))[r] == multiset(values)[RoleValue(r)]
    decreases |values|
  {
    if values != [] {
      FilterRolesCount(values[1..], r);
      assert values == [values[0]] + values[1..];
      ParseRoleValue(r);
    }
  }

  /** No entry of `values` is the value of a role. */
  predicate NoValidRole(values: seq<string>)
  {
    forall i :: 0 <= i < |values| ==> ParseRole(values[i]).None?
  }

  /** The filter yields nothing exactly when no entry is a role value. */
  lemma {:induction false} FilterRolesEmpty(values: seq<string>)
    ensures FilterRoles(values) == [] <==> NoValidRole(values)
    decreases |values|
  {
    if values != [] {
      FilterRolesEmpty(values[1..]);
      assert forall i :: 1 <= i < |values| ==> values[i] == values[1..][i - 1];
    }
  }

  /**
   * Role fallback: `[USER]` when `roles` is absent, not an array, or has no valid entry;
   * otherwise exactly the valid entries.
   */
  lemma {:induction false} RolesFallback(raw: RawUser)
    ensures RolesHint(raw).None? ==> DeriveRoles(raw) == [USER]
    ensures RolesHint(raw).Some? && NoValidRole(RolesHint(raw).value) ==> DeriveRoles(raw) == [USER]
    ensures RolesHint(raw).Some? && !NoValidRole(RolesHint(raw).value) ==>
              DeriveRoles(raw) == FilterRoles(RolesHint(raw).value)
  {
    if RolesHint(raw).Some? {
      FilterRolesEmpty(RolesHint(raw).value);
    }
  }

  /**
   * Timestamps: `createdAt` reads the clock only without `created_at`; `updatedAt` only
   * without both `updated_at` and `created_at`.
   */
  lemma TimestampFallback(raw: RawUser, now: int)
    ensures MapUser(raw, now).createdAt == (if Present(raw.createdAt) then Recorded(raw.createdAt.value) else Clock(now))
    ensures Present(raw.updatedAt) ==> MapUser(raw, now).updatedAt == Recorded(raw.updatedAt.value)
    ensures !Present(raw.updatedAt) ==> MapUser(raw, now).updatedAt == MapUser(raw, now).createdAt
  {
  }

  /**
   * Mapping is deterministic up to the clock: two mappings of one record differ at most in
   * the timestamps, and not at all when the record carries `created_at`.
   */
  lemma MapUserClockOnly(raw: RawUser, now1: int, now2: int)
    ensures var u1, u2 := MapUser(raw, now1), MapUser(raw, now2);
      u1.id == u2.id && u1.email == u2.email && u1.name == u2.name && u1.roles == u2.roles
    ensures Present(raw.createdAt) ==> MapUser(raw, now1) == MapUser(raw, now2)
  {
  }

  /** Worked cases: name hints and email fallback, and role filtering with its fallback. */
  lemma {:induction false} MappingExamples(now: int)
    ensures DeriveName(RawUser("1", Some("bob@x.com"), Some(UserMetadata(Some("Alice"), None)), None, None, None)) == "Alice"
    ensures DeriveName(RawUser("2", Some("bob@x.com"), None, None, None, None)) == "bob"
    ensures DeriveName(RawUser("3", Some(""), Some(UserMetadata(Some(""), Some(""))), None, None, None)) == "User"
    ensures DeriveRoles(RawUser("4", None, None, Some(AppMetadata(Some(["admin", "bogus"]))), None, None)) == [ADMIN]
    ensures DeriveRoles(RawUser("5", None, None, Some(AppMetadata(Some([]))), None, None)) == [USER]
  {
    var bob := RawUser("2", Some("bob@x.com"), None, None, None, None);
    NamePrecedence(bob);
    FirstRunUnique("bob@x.com", '@', DeriveName(bob), "bob");
  }
}
