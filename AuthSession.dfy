/**
 * The session context of the web front end: the startup check of who is
 * signed in, and what sign-up, log-in, profile update and log-out leave in
 * `user` and what they return or throw.
 */
module AuthSession {
  import opened Common

  const SIGNUP_FAILED: string := "Signup failed"
  const LOGIN_FAILED: string := "Login failed"
  const UPDATE_FAILED: string := "Profile update failed"

  /** The signed-in user as `/api/auth/me` returns them. */
  datatype Account = Account(id: nat, username: string, email: string)

  /**
   * The parsed JSON body of the auth routes: `error` on a refusal, and the
   * `message` and `user` a successful sign-up or log-in answers with.
   */
  datatype Body = Body(error: Option<string>, message: Option<string>, user: Option<Account>)

  /** How a `fetch` ended: a response with its status and parsed body, or a network error with its message. */
  datatype Call<T> = Replied(status: int, body: T) | Unreachable(message: string)

  /** What an operation does for its caller: return a value, or throw an Error with a message. */
  datatype Result<T> = Returned(value: T) | Thrown(message: string)

  predicate Ok(status: int) { 200 <= status < 300 }

  /** `x || fallback` for an optional text. */
  function OrDefault(o: Option<string>, fallback: string): (r: string)
    requires fallback != []
    ensures r != []
    ensures Truthy(o) ==> r == o.value
  {
    if Truthy(o) then o.value else fallback
  }

  /**
   * The outcome of `signup`, `login` and `updateProfile`, whose first call
   * answers with a body holding an optional `error`: a failed call throws
   * the body's error or `fallback`; a network error, on either call,
   * throws its message or `fallback` (so a successful call whose `/me`
   * refetch fails still throws); otherwise `onSuccess` is returned, whatever
   * status `/me` answered.
   */
  function Outcome<T>(call: Call<Body>, me: Call<Account>, onSuccess: T, fallback: string): (r: Result<T>)
    requires fallback != []
    ensures r.Thrown? ==> r.message != []
    ensures call.Replied? && Ok(call.status) && me.Replied? ==> r == Returned(onSuccess)
    ensures call.Replied? && !Ok(call.status) ==> r == Thrown(OrDefault(call.body.error, fallback))
    ensures call.Unreachable? ==> r == Thrown(if call.message != [] then call.message else fallback)
    ensures call.Replied? && Ok(call.status) && me.Unreachable?
            ==> r == Thrown(if me.message != [] then me.message else fallback)
  {
    match call
    case Unreachable(m) => Thrown(OrDefault(Some(m), fallback))
    case Replied(status, body) =>
      if !Ok(status) then Thrown(OrDefault(Some(OrDefault(body.error, fallback)), fallback))
      else match me
        case Unreachable(m) => Thrown(OrDefault(Some(m), fallback))
        case Replied(_, _) => Returned(onSuccess)
  }

  /** The `user` these operations leave: the `/me` body after two successful calls, else the user as before. */
  function UserAfter(user: Option<Account>, call: Call<Body>, me: Call<Account>): (r: Option<Account>)
    ensures call.Replied? && Ok(call.status) && me.Replied? && Ok(me.status) ==> r == Some(me.body)
    ensures r != user ==> call.Replied? && Ok(call.status) && me.Replied? && Ok(me.status)
  {
    if call.Replied? && Ok(call.status) && me.Replied? && Ok(me.status) then Some(me.body) else user
  }

  /** The user changes only when the operation returns: a thrown operation leaves `user` as it was. */
  lemma ThrownLeavesUser<T>(user: Option<Account>, call: Call<Body>, me: Call<Account>, onSuccess: T,
                            fallback: string)
    requires fallback != []
    requires Outcome(call, me, onSuccess, fallback).Thrown?
    ensures UserAfter(user, call, me) == user
  {
  }

  /** A refusal of the auth routes reaches the caller as its own text, since those routes put their reason in `error`. */
  lemma RefusalMessagePassedOn(reply: Reply, me: Call<Account>, fallback: string)
    requires fallback != [] && !Ok(reply.code) && reply.text != []
    ensures Outcome(Replied(reply.code, Body(Some(reply.text), None, None)), me, true, fallback) == Thrown(reply.text)
  {
  }

  /** The session state the context provides. */
  class Session {
    var user: Option<Account>
    var loading: bool

    constructor ()
      ensures user.None? && loading
    {
      user := None;
      loading := true;
    }

    /** The startup check: an ok `/me` signs the user in; a 401, any other status and a network error sign them out. Loading ends in every case. */
    method CheckSession(me: Call<Account>)
      modifies this
      ensures user == (if me.Replied? && Ok(me.status) then Some(me.body) else None)
      ensures !loading
    {
      match me {
        case Replied(status, body) =>
          if Ok(status) {
            user := Some(body);
          } else {
            user := None;
          }
        case Unreachable(_) =>
          user := None;
      }
      loading := false;
    }

    /** The common part of the three operations: the first call, then `/me` when it succeeded. */
    method Perform<T>(call: Call<Body>, me: Call<Account>, onSuccess: T, fallback: string)
      returns (r: Result<T>)
      requires fallback != []
      modifies this
      ensures r == Outcome(call, me, onSuccess, fallback)
      ensures user == UserAfter(old(user), call, me)
      ensures loading == old(loading)
    {
      if call.Unreachable? {
        return Thrown(OrDefault(Some(call.message), fallback));
      }
      if !Ok(call.status) {
        return Thrown(OrDefault(Some(OrDefault(call.body.error, fallback)), fallback));
      }
      if me.Unreachable? {
        return Thrown(OrDefault(Some(me.message), fallback));
      }
      if Ok(me.status) {
        user := Some(me.body);
      }
      r := Returned(onSuccess);
    }

    /**
     * `signup`: the whole sign-up body (its message and user) is returned on
     * success; failures throw with "Signup failed" as the default.
     */
    method Signup(call: Call<Body>, me: Call<Account>) returns (r: Result<Body>)
      modifies this
      ensures call.Replied? && Ok(call.status) && me.Replied? ==> r == Returned(call.body)
      ensures r == Outcome(call, me, if call.Replied? then call.body else Body(None, None, None), SIGNUP_FAILED)
      ensures user == UserAfter(old(user), call, me) && loading == old(loading)
    {
      r := Perform(call, me, if call.Replied? then call.body else Body(None, None, None), SIGNUP_FAILED);
    }

    /** `login`: true on success; failures throw with "Login failed" as the default. */
    method Login(call: Call<Body>, me: Call<Account>) returns (r: Result<bool>)
      modifies this
      ensures r == Outcome(call, me, true, LOGIN_FAILED)
      ensures user == UserAfter(old(user), call, me) && loading == old(loading)
    {
      r := Perform(call, me, true, LOGIN_FAILED);
    }

    /** `updateProfile`: true on success; failures throw with "Profile update failed" as the default. */
    method UpdateProfile(call: Call<Body>, me: Call<Account>) returns (r: Result<bool>)
      modifies this
      ensures r == Outcome(call, me, true, UPDATE_FAILED)
      ensures user == UserAfter(old(user), call, me) && loading == old(loading)
    {
      r := Perform(call, me, true, UPDATE_FAILED);
    }

    /** `logout`: the user is cleared whether or not the request got through. */
    method Logout(reached: bool)
      modifies this
      ensures user.None? && loading == old(loading)
    {
      user := None;
    }
  }
}
