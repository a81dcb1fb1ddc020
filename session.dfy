/**
 * The session synchroniser of src/auth/AuthProvider.tsx: the canonical `user` slot, written
 * by the one-time initial session fetch and by the auth-event subscription, and the
 * operations whose results never write it.
 */
module Session {
  import opened Wrappers
  import opened JsString
  import opened Identity

  /** The `session` object of a backend response. */
  datatype AuthSession = AuthSession(user: Option<RawUser>)

  /** A failure the backend reports in its response. */
  datatype AuthError = AuthError(message: string)

  /** `session?.user` */
  function SessionUser(session: Option<AuthSession>): Option<RawUser>
  {
    if session.Some? then session.value.user else None
  }

  /** How `getSession()` resolved: a response (with an optional error), or an exception. */
  datatype FetchResponse =
    | Fetched(session: Option<AuthSession>, error: Option<AuthError>)
    | FetchThrew(message: string)

  const SIGNED_IN := "SIGNED_IN"
  const SIGNED_OUT := "SIGNED_OUT"
  const USER_UPDATED := "USER_UPDATED"

  /** One resolution of an asynchronous source; `now` is the clock reading at that time. */
  datatype Step =
    | Fetch(response: FetchResponse, now: int)
    | Event(kind: string, session: Option<AuthSession>, now: int)

  /** Whether an optional user is well formed when present. */
  predicate SlotWellFormed(slot: Option<User>)
  {
    slot.Some? ==> WellFormed(slot.value)
  }

  /**
   * What a step writes into the slot: `None` when it does not call `setUser`,
   * `Some(v)` when it calls `setUser(v)`.
   */
  function StepWrite(step: Step): (w: Option<Option<User>>)
    ensures w.Some? ==> SlotWellFormed(w.value)
  {
    match step
    case Fetch(response, now) =>
      // A reported error is only logged; a session user is still taken.
      if response.Fetched? && SessionUser(response.session).Some?
      then Some(Some(MapUser(SessionUser(response.session).value, now)))
      else None
    case Event(kind, session, now) =>
      if kind == SIGNED_IN || kind == USER_UPDATED then
        if SessionUser(session).Some?
        then Some(Some(MapUser(SessionUser(session).value, now)))
        else Some(None)
      else if kind == SIGNED_OUT then Some(None)
      else None
  }

  /** The slot after one step: last write wins. */
  function Apply(slot: Option<User>, step: Step): (next: Option<User>)
    ensures StepWrite(step).None? ==> next == slot
    ensures StepWrite(step).Some? ==> next == StepWrite(step).value
    ensures SlotWellFormed(slot) ==> SlotWellFormed(next)
  {
    match StepWrite(step)
    case Some(v) => v
    case None => slot
  }

  /** The slot after the steps resolve in the given order. */
  function Run(slot: Option<User>, steps: seq<Step>): (final: Option<User>)
    ensures final == slot || exists i :: 0 <= i < |steps| && StepWrite(steps[i]) == Some(final)
    decreases |steps|
  {
    if steps == [] then slot
    else
      var final := Run(Apply(slot, steps[0]), steps[1..]);
      assert forall i :: 1 <= i < |steps| ==> steps[i] == steps[1..][i - 1];
      final
  }

  // ----- Transition properties -----

  /** The initial fetch writes exactly when the session has a user, whatever error came with it. */
  lemma FetchTransition(slot: Option<User>, response: FetchResponse, now: int)
    ensures response.Fetched? && SessionUser(response.session).Some? ==>
              Apply(slot, Fetch(response, now)) == Some(MapUser(SessionUser(response.session).value, now))
    ensures !(response.Fetched? && SessionUser(response.session).Some?) ==>
              Apply(slot, Fetch(response, now)) == slot
  {
  }

  /**
   * SIGNED_IN / USER_UPDATED set the slot to the mapped session user, or clear it without
   * one; SIGNED_OUT clears it; every other event kind leaves it alone.
   */
  lemma EventTransition(slot: Option<User>, kind: string, session: Option<AuthSession>, now: int)
    ensures (kind == SIGNED_IN || kind == USER_UPDATED) && SessionUser(session).Some? ==>
              Apply(slot, Event(kind, session, now)) == Some(MapUser(SessionUser(session).value, now))
    ensures (kind == SIGNED_IN || kind == USER_UPDATED) && SessionUser(session).None? ==>
              Apply(slot, Event(kind, session, now)) == None
    ensures kind == SIGNED_OUT ==> Apply(slot, Event(kind, session, now)) == None
    ensures kind != SIGNED_IN && kind != USER_UPDATED && kind != SIGNED_OUT ==>
              Apply(slot, Event(kind, session, now)) == slot
  {
  }

  /** A run that starts from a well-formed slot only ever holds well-formed users. */
  lemma {:induction false} RunWellFormed(slot: Option<User>, steps: seq<Step>)
    requires SlotWellFormed(slot)
    ensures SlotWellFormed(Run(slot, steps))
    decreases |steps|
  {
    if steps != [] {
      RunWellFormed(Apply(slot, steps[0]), steps[1..]);
    }
  }

  /** Steps that do not write leave the slot as it was. */
  lemma {:induction false} RunWithoutWrites(slot: Option<User>, steps: seq<Step>)
    requires forall i :: 0 <= i < |steps| ==> StepWrite(steps[i]).None?
    ensures Run(slot, steps) == slot
    decreases |steps|
  {
    if steps != [] {
      assert StepWrite(steps[0]).None?;
      RunWithoutWrites(slot, steps[1..]);
    }
  }

  /**
   * Last write wins: whatever the interleaving, the slot ends with the value written by
   * the last step that writes.
   */
  lemma {:induction false} LastWriteWins(slot: Option<User>, steps: seq<Step>, k: nat)
    requires k < |steps| && StepWrite(steps[k]).Some?
    requires forall j :: k < j < |steps| ==> StepWrite(steps[j]).None?
    ensures Run(slot, steps) == StepWrite(steps[k]).value
    decreases |steps|
  {
    if k == 0 {
      RunWithoutWrites(Apply(slot, steps[0]), steps[1..]);
    } else {
      LastWriteWins(Apply(slot, steps[0]), steps[1..], k - 1);
    }
  }

  /**
   * The startup race: a SIGNED_IN event for one user and the initial fetch for another
   * resolve in either order, and the slot holds whichever resolved last.
   */
  lemma StartupRace(a: RawUser, b: RawUser, t1: int, t2: int)
    ensures var signIn, fetch := Event(SIGNED_IN, Some(AuthSession(Some(a))), t1),
                                 Fetch(Fetched(Some(AuthSession(Some(b))), None), t2);
      Run(None, [signIn, fetch]) == Some(MapUser(b, t2)) &&
      Run(None, [fetch, signIn]) == Some(MapUser(a, t1))
  {
    var signIn, fetch := Event(SIGNED_IN, Some(AuthSession(Some(a))), t1),
                         Fetch(Fetched(Some(AuthSession(Some(b))), None), t2);
    LastWriteWins(None, [signIn, fetch], 1);
    LastWriteWins(None, [fetch, signIn], 1);
  }

  // ----- The provider object -----

  /** What the provider exposes once the initial fetch has settled. */
  datatype ContextValue = ContextValue(isAuthenticated: bool, user: Option<User>)

  class AuthProvider {
    /** The canonical slot (`useState<User | null>(null)`). */
    var user: Option<User>
    /** True until the initial fetch has settled (`useState(true)`). */
    var loadingInitial: bool
    /** The auth-event listener is registered. */
    var subscribed: bool

    /** The slot only ever holds mapped, hence well-formed, users. */
    ghost predicate Valid()
      reads this
    {
      SlotWellFormed(user)
    }

    /** Mounting: the slot is empty, the fetch is in flight and the listener is registered. */
    constructor ()
      ensures Valid()
      ensures user == None && loadingInitial && subscribed
    {
      user := None;
      loadingInitial := true;
      subscribed := true;
    }

    /** The resolution of `fetchSession`: the slot per the response, and loading ends. */
    method ApplyFetch(response: FetchResponse, now: int)
      requires Valid() && loadingInitial
      modifies this
      ensures Valid()
      ensures user == Apply(old(user), Fetch(response, now))
      ensures !loadingInitial && subscribed == old(subscribed)
    {
      match response {
        case Fetched(session, error) =>
          // A reported error is only logged.
          var sessionUser := SessionUser(session);
          if sessionUser.Some? {
            user := Some(MapUser(sessionUser.value, now));
          }
        case FetchThrew(_) =>
      }
      loadingInitial := false;
    }

    /** One call of the `onAuthStateChange` handler. */
    method ApplyEvent(kind: string, session: Option<AuthSession>, now: int)
      requires Valid() && subscribed
      modifies this
      ensures Valid()
      ensures user == Apply(old(user), Event(kind, session, now))
      ensures loadingInitial == old(loadingInitial) && subscribed
    {
      if kind == SIGNED_IN || kind == USER_UPDATED {
        var sessionUser := SessionUser(session);
        if sessionUser.Some? {
          user := Some(MapUser(sessionUser.value, now));
        } else {
          user := None;
        }
      } else if kind == SIGNED_OUT {
        user := None;
      }
    }

    /** The effect cleanup: the listener is released; calling it again changes nothing. */
    method Teardown()
      requires Valid()
      modifies this
      ensures Valid()
      ensures !subscribed
      ensures user == old(user) && loadingInitial == old(loadingInitial)
    {
      if subscribed {
        subscribed := false;
      }
    }

    /** `hasRole(role)`: false without a user, else whether the user holds the role. */
    function HasRole(role: Role): (b: bool)
      reads this
      ensures b ==> user.Some?
      ensures user.Some? ==> (b <==> role in user.value.roles)
    {
      if user.None? then false else role in user.value.roles
    }

    /** The gate: nothing while loading, then `{ isAuthenticated: !!user, user }`. */
    function Context(): (c: Option<ContextValue>)
      reads this
      ensures c.None? <==> loadingInitial
      ensures c.Some? ==> c.value.user == user && (c.value.isAuthenticated <==> user.Some?)
    {
      if loadingInitial then None else Some(ContextValue(user.Some?, user))
    }
  }

  /** On a valid provider, being authenticated is the same as holding some role. */
  lemma AuthenticatedIffSomeRole(p: AuthProvider)
    requires p.Valid()
    ensures p.user.Some? <==> exists r: Role :: p.HasRole(r)
  {
    if p.user.Some? {
      assert p.HasRole(p.user.value.roles[0]);
    }
  }

  // ----- Operations that report a result but never write the slot -----

  /** How `signInWithPassword` resolved. */
  datatype SignInResponse =
    | SignInData(user: Option<RawUser>, error: Option<AuthError>)
    | SignInThrew(message: string)

  /** How the backend's `signUp` resolved. */
  datatype SignUpResponse =
    | SignUpData(user: Option<RawUser>, session: Option<AuthSession>, error: Option<AuthError>)
    | SignUpThrew(message: string)

  /** What `login` makes of the backend's answer once a password was given. */
  function SignInResult(response: SignInResponse, now: int): (r: Option<User>)
    ensures r.Some? <==> response.SignInData? && response.error.None? && response.user.Some?
    ensures r.Some? ==> r.value == MapUser(response.user.value, now)
  {
    match response
    case SignInThrew(_) => None
    case SignInData(user, error) =>
      if error.Some? then None
      else if user.Some? then Some(MapUser(user.value, now))
      else None
  }

  /** `login(email, password)`; `response` is what the backend answers for them. */
  function Login(password: Option<string>, response: SignInResponse, now: int): (r: Option<User>)
    ensures !Present(password) ==> r.None?
    ensures Present(password) ==> r == SignInResult(response, now)
    ensures SlotWellFormed(r)
  {
    if !Present(password) then None else SignInResult(response, now)
  }

  /** What `signUp` makes of the backend's answer once a password was given. */
  function SignUpResult(response: SignUpResponse, now: int): (r: Option<User>)
    ensures r.Some? <==> response.SignUpData? && response.error.None? && response.user.Some?
    ensures r.Some? && SessionUser(response.session).Some? ==>
              r.value == MapUser(SessionUser(response.session).value, now)
    ensures r.Some? && SessionUser(response.session).None? ==>
              r.value == MapUser(response.user.value, now)
  {
    match response
    case SignUpThrew(_) => None
    case SignUpData(user, session, error) =>
      if error.Some? then None
      else if user.Some? then
        if SessionUser(session).Some? then Some(MapUser(SessionUser(session).value, now))
        else Some(MapUser(user.value, now))
      else None
  }

  /** `signUp(email, password)`; `response` is what the backend answers for them. */
  function SignUp(password: Option<string>, response: SignUpResponse, now: int): (r: Option<User>)
    ensures !Present(password) ==> r.None?
    ensures Present(password) ==> r == SignUpResult(response, now)
    ensures SlotWellFormed(r)
  {
    if !Present(password) then None else SignUpResult(response, now)
  }

  /** A missing password is rejected before the backend is asked: its answer plays no part. */
  lemma PasswordCheckedFirst(password: Option<string>, r1: SignInResponse, r2: SignInResponse,
                             s1: SignUpResponse, s2: SignUpResponse, now: int)
    requires !Present(password)
    ensures Login(password, r1, now) == Login(password, r2, now) == None
    ensures SignUp(password, s1, now) == SignUp(password, s2, now) == None
  {
  }
}
