/**
 * The `auth` module of the client's store (myapp/resources/js/store/auth.js):
 * the logged-in user, the status of the last API call and the validation
 * messages of the login and register forms, with its getters, mutations and
 * the four actions that call the API. Each action is modelled with the HTTP
 * response it awaits passed in as a value.
 */
module Auth {
  import opened Common

  /** The status Laravel answers a failed validation with; `OK` and `CREATED` are in `Common`. */
  const UNPROCESSABLE_ENTITY := 422

  /** Validation messages as Laravel sends them: field name to messages. */
  type Messages = map<string, seq<string>>

  /**
   * A JavaScript value the store receives as a response body or keeps as the
   * user: a falsy value (null, undefined, "") or an object, of which the store
   * reads only `name` and `errors` (None stands for an absent property).
   */
  datatype Payload = Falsy | Object(name: Option<string>, errors: Option<Messages>)

  datatype Response = Response(status: int, data: Payload)

  /** The module's `state` record; `None` is JavaScript's `null`. */
  datatype AuthState = AuthState(
    user: Payload,
    apiStatus: Option<bool>,
    loginErrorMessages: Option<Messages>,
    registerErrorMessages: Option<Messages>)

  const InitialState := AuthState(Falsy, None, None, None)

  /** Getter `check`: `!! state.user`, true exactly when the user is an object. */
  function Check(s: AuthState): (loggedIn: bool)
    ensures loggedIn <==> s.user != Falsy
  {
    s.user.Object?
  }

  /**
   * Getter `username`: the user's name when `check` holds, '' otherwise
   * (None: the user object has no `name`, which JavaScript reads as undefined).
   */
  function Username(s: AuthState): (name: Option<string>)
    ensures Check(s) ==> name == s.user.name
    ensures !Check(s) ==> name == Some("")
  {
    if s.user.Object? then s.user.name else Some("")
  }

  /** One `commit` an action makes; `SetErrorCode` goes to the root `error/setCode` mutation. */
  datatype Commit =
    | SetUser(user: Payload)
    | SetApiStatus(status: Option<bool>)
    | SetLoginErrorMessages(messages: Option<Messages>)
    | SetRegisterErrorMessages(messages: Option<Messages>)
    | SetErrorCode(code: int)

  /** The effect of one commit on this module's state; the error module's state is not part of it. */
  function Mutate(s: AuthState, c: Commit): (r: AuthState)
    ensures !c.SetUser? ==> r.user == s.user
    ensures !c.SetApiStatus? ==> r.apiStatus == s.apiStatus
    ensures !c.SetLoginErrorMessages? ==> r.loginErrorMessages == s.loginErrorMessages
    ensures !c.SetRegisterErrorMessages? ==> r.registerErrorMessages == s.registerErrorMessages
    ensures c.SetErrorCode? ==> r == s
  {
    match c
    case SetUser(u) => s.(user := u)
    case SetApiStatus(st) => s.(apiStatus := st)
    case SetLoginErrorMessages(m) => s.(loginErrorMessages := m)
    case SetRegisterErrorMessages(m) => s.(registerErrorMessages := m)
    case SetErrorCode(_) => s
  }

  /** The state after a sequence of commits, applied in order. */
  function Run(s: AuthState, cs: seq<Commit>): AuthState
    decreases cs
  {
    if cs == [] then s else Run(Mutate(s, cs[0]), cs[1..])
  }

  /** The codes a sequence of commits hands to `error/setCode`, in order. */
  function ErrorCodes(cs: seq<Commit>): seq<int>
  {
    if cs == [] then []
    else (if cs[0].SetErrorCode? then [cs[0].code] else []) + ErrorCodes(cs[1..])
  }

  /** Running commits one after the other is running their concatenation. */
  lemma {:induction false} RunAppend(s: AuthState, a: seq<Commit>, b: seq<Commit>)
    ensures Run(s, a + b) == Run(Run(s, a), b)
    ensures ErrorCodes(a + b) == ErrorCodes(a) + ErrorCodes(b)
    decreases a
  {
    if a != [] {
      assert (a + b)[1..] == a[1..] + b;
      RunAppend(Mutate(s, a[0]), a[1..], b);
    } else {
      assert a + b == b;
    }
  }

  /** What an action returns: `false` on success, nothing (undefined) otherwise. */
  datatype Returned = ReturnedFalse | ReturnedUndefined

  /** An action's net effect: the new state, the codes sent to the error module, and its return value. */
  datatype Transition = Transition(state: AuthState, errorCodes: seq<int>, returned: Returned)

  /** `response.data.errors`. */
  function ErrorsOf(data: Payload): Option<Messages>
  {
    if data.Object? then data.errors else None
  }

  /** The commits that `register` makes, the first before its request and the rest once the response has arrived. */
  function RegisterCommits(r: Response): (cs: seq<Commit>)
    ensures |cs| == 3 && cs[0] == SetApiStatus(None)
  {
    if r.status == CREATED then [SetApiStatus(None), SetApiStatus(Some(true)), SetUser(r.data)]
    else if r.status == UNPROCESSABLE_ENTITY then
      [SetApiStatus(None), SetApiStatus(Some(false)), SetRegisterErrorMessages(ErrorsOf(r.data))]
    else [SetApiStatus(None), SetApiStatus(Some(false)), SetErrorCode(r.status)]
  }

  /** The commits that `login` makes. */
  function LoginCommits(r: Response): (cs: seq<Commit>)
    ensures |cs| == 3 && cs[0] == SetApiStatus(None)
  {
    if r.status == OK then [SetApiStatus(None), SetApiStatus(Some(true)), SetUser(r.data)]
    else if r.status == UNPROCESSABLE_ENTITY then
      [SetApiStatus(None), SetApiStatus(Some(false)), SetLoginErrorMessages(ErrorsOf(r.data))]
    else [SetApiStatus(None), SetApiStatus(Some(false)), SetErrorCode(r.status)]
  }

  /** The commits that `logout` makes. */
  function LogoutCommits(r: Response): (cs: seq<Commit>)
    ensures |cs| == 3 && cs[0] == SetApiStatus(None)
  {
    if r.status == OK then [SetApiStatus(None), SetApiStatus(Some(true)), SetUser(Falsy)]
    else [SetApiStatus(None), SetApiStatus(Some(false)), SetErrorCode(r.status)]
  }

  /**
   * The commits that `currentUser` makes. The user is `response.data || null`,
   * which is `response.data` itself here because every falsy body is `Falsy`,
   * the value the store reads as null.
   */
  function CurrentUserCommits(r: Response): (cs: seq<Commit>)
    ensures |cs| == 3 && cs[0] == SetApiStatus(None)
  {
    if r.status == OK then [SetApiStatus(None), SetApiStatus(Some(true)), SetUser(r.data)]
    else [SetApiStatus(None), SetApiStatus(Some(false)), SetErrorCode(r.status)]
  }

  /** Running three commits applies them one after the other. */
  lemma RunThree(s: AuthState, a: Commit, b: Commit, c: Commit)
    ensures Run(s, [a, b, c]) == Mutate(Mutate(Mutate(s, a), b), c)
    ensures ErrorCodes([a, b, c]) == ErrorCodes([a]) + ErrorCodes([b]) + ErrorCodes([c])
  {
    assert [a, b, c] == [a] + [b] + [c];
    RunAppend(s, [a] + [b], [c]);
    RunAppend(s, [a], [b]);
  }

  /**
   * Every action first sets the status to null, before its request is sent: the
   * state seen while the request is pending has a null status and everything else
   * as before.
   */
  lemma ActionsStartPending(s: AuthState, r: Response)
    ensures var cs := RegisterCommits(r); Run(s, cs[..1]) == s.(apiStatus := None)
    ensures var cs := LoginCommits(r); Run(s, cs[..1]) == s.(apiStatus := None)
    ensures var cs := LogoutCommits(r); Run(s, cs[..1]) == s.(apiStatus := None)
    ensures var cs := CurrentUserCommits(r); Run(s, cs[..1]) == s.(apiStatus := None)
  {
  }

  /**
   * `register`: on 201 the user is the response body and the status true; on 422
   * the status is false and the register messages are the body's errors, the user
   * unchanged; on any other status the status is false and the code goes to the
   * error module. The status never stays null.
   */
  function RegisterTransition(s: AuthState, r: Response): (t: Transition)
    ensures t.state.apiStatus != None
    ensures r.status == CREATED ==>
      t == Transition(s.(apiStatus := Some(true), user := r.data), [], ReturnedFalse)
    ensures r.status == UNPROCESSABLE_ENTITY ==>
      t == Transition(s.(apiStatus := Some(false), registerErrorMessages := ErrorsOf(r.data)), [], ReturnedUndefined)
    ensures r.status != CREATED && r.status != UNPROCESSABLE_ENTITY ==>
      t == Transition(s.(apiStatus := Some(false)), [r.status], ReturnedUndefined)
  {
    var cs := RegisterCommits(r);
    RunThree(s, cs[0], cs[1], cs[2]);
    assert cs == [cs[0], cs[1], cs[2]];
    Transition(Run(s, cs), ErrorCodes(cs), if r.status == CREATED then ReturnedFalse else ReturnedUndefined)
  }

  /** `login`: as `register`, with 200 for success and the login messages on 422. */
  function LoginTransition(s: AuthState, r: Response): (t: Transition)
    ensures t.state.apiStatus != None
    ensures r.status == OK ==>
      t == Transition(s.(apiStatus := Some(true), user := r.data), [], ReturnedFalse)
    ensures r.status == UNPROCESSABLE_ENTITY ==>
      t == Transition(s.(apiStatus := Some(false), loginErrorMessages := ErrorsOf(r.data)), [], ReturnedUndefined)
    ensures r.status != OK && r.status != UNPROCESSABLE_ENTITY ==>
      t == Transition(s.(apiStatus := Some(false)), [r.status], ReturnedUndefined)
  {
    var cs := LoginCommits(r);
    RunThree(s, cs[0], cs[1], cs[2]);
    assert cs == [cs[0], cs[1], cs[2]];
    Transition(Run(s, cs), ErrorCodes(cs), if r.status == OK then ReturnedFalse else ReturnedUndefined)
  }

  /** `logout`: on 200 the user is cleared; any other status goes to the error module. */
  function LogoutTransition(s: AuthState, r: Response): (t: Transition)
    ensures t.state.apiStatus != None
    ensures r.status == OK ==>
      t == Transition(s.(apiStatus := Some(true), user := Falsy), [], ReturnedFalse)
    ensures r.status != OK ==>
      t == Transition(s.(apiStatus := Some(false)), [r.status], ReturnedUndefined)
  {
    var cs := LogoutCommits(r);
    RunThree(s, cs[0], cs[1], cs[2]);
    assert cs == [cs[0], cs[1], cs[2]];
    Transition(Run(s, cs), ErrorCodes(cs), if r.status == OK then ReturnedFalse else ReturnedUndefined)
  }

  /** `currentUser`: on 200 the user is the body (null when it is falsy); any other status goes to the error module. */
  function CurrentUserTransition(s: AuthState, r: Response): (t: Transition)
    ensures t.state.apiStatus != None
    ensures r.status == OK ==>
      t == Transition(s.(apiStatus := Some(true), user := r.data), [], ReturnedFalse)
    ensures r.status == OK && r.data == Falsy ==> !Check(t.state)
    ensures r.status != OK ==>
      t == Transition(s.(apiStatus := Some(false)), [r.status], ReturnedUndefined)
  {
    var cs := CurrentUserCommits(r);
    RunThree(s, cs[0], cs[1], cs[2]);
    assert cs == [cs[0], cs[1], cs[2]];
    Transition(Run(s, cs), ErrorCodes(cs), if r.status == OK then ReturnedFalse else ReturnedUndefined)
  }

  /** A successful register or login whose body is a user object logs that user in. */
  lemma GettersAfterSignIn(s: AuthState, r: Response)
    requires r.data.Object?
    ensures r.status == CREATED ==>
      Check(RegisterTransition(s, r).state) && Username(RegisterTransition(s, r).state) == r.data.name
    ensures r.status == OK ==>
      Check(LoginTransition(s, r).state) && Username(LoginTransition(s, r).state) == r.data.name
  {
  }

  /** A successful logout leaves nobody logged in and an empty user name. */
  lemma GettersAfterLogout(s: AuthState, r: Response)
    requires r.status == OK
    ensures !Check(LogoutTransition(s, r).state)
    ensures Username(LogoutTransition(s, r).state) == Some("")
  {
  }

  /** A successful `currentUser` logs in exactly when the body is a user object. */
  lemma GettersAfterCurrentUser(s: AuthState, r: Response)
    requires r.status == OK
    ensures Check(CurrentUserTransition(s, r).state) <==> r.data.Object?
    ensures r.data.Object? ==> Username(CurrentUserTransition(s, r).state) == r.data.name
    ensures !r.data.Object? ==> Username(CurrentUserTransition(s, r).state) == Some("")
  {
  }

  /** A failed action (422 or any other failing status) changes neither getter. */
  lemma GettersUnchangedOnFailure(s: AuthState, r: Response)
    ensures r.status != CREATED ==>
      Check(RegisterTransition(s, r).state) == Check(s) && Username(RegisterTransition(s, r).state) == Username(s)
    ensures r.status != OK ==>
      Check(LoginTransition(s, r).state) == Check(s) && Username(LoginTransition(s, r).state) == Username(s)
    ensures r.status != OK ==>
      Check(LogoutTransition(s, r).state) == Check(s) && Username(LogoutTransition(s, r).state) == Username(s)
    ensures r.status != OK ==>
      Check(CurrentUserTransition(s, r).state) == Check(s) && Username(CurrentUserTransition(s, r).state) == Username(s)
  {
  }

  /** The store object: the four state fields, plus the codes committed to `error/setCode`. */
  class AuthStore {
    var user: Payload
    var apiStatus: Option<bool>
    var loginErrorMessages: Option<Messages>
    var registerErrorMessages: Option<Messages>
    /** The codes this module has committed to the root `error/setCode` mutation, in order. */
    var errorCodes: seq<int>
    /** Every commit this store has made, in order. */
    ghost var commits: seq<Commit>

    function State(): AuthState
      reads this
    {
      AuthState(user, apiStatus, loginErrorMessages, registerErrorMessages)
    }

    constructor ()
      ensures State() == InitialState && errorCodes == [] && commits == []
    {
      user := Falsy;
      apiStatus := None;
      loginErrorMessages := None;
      registerErrorMessages := None;
      errorCodes := [];
      commits := [];
    }

    /** Mutation `setUser`. */
    method SetUser(u: Payload)
      modifies this`user, this`commits
      ensures State() == old(State()).(user := u)
      ensures commits == old(commits) + [Commit.SetUser(u)]
    {
      user := u;
      commits := commits + [Commit.SetUser(u)];
    }

    /** Mutation `setApiStatus`. */
    method SetApiStatus(status: Option<bool>)
      modifies this`apiStatus, this`commits
      ensures State() == old(State()).(apiStatus := status)
      ensures commits == old(commits) + [Commit.SetApiStatus(status)]
    {
      apiStatus := status;
      commits := commits + [Commit.SetApiStatus(status)];
    }

    /** Mutation `setLoginErrorMessages`. */
    method SetLoginErrorMessages(messages: Option<Messages>)
      modifies this`loginErrorMessages, this`commits
      ensures State() == old(State()).(loginErrorMessages := messages)
      ensures commits == old(commits) + [Commit.SetLoginErrorMessages(messages)]
    {
      loginErrorMessages := messages;
      commits := commits + [Commit.SetLoginErrorMessages(messages)];
    }

    /** Mutation `setRegisterErrorMessages`. */
    method SetRegisterErrorMessages(messages: Option<Messages>)
      modifies this`registerErrorMessages, this`commits
      ensures State() == old(State()).(registerErrorMessages := messages)
      ensures commits == old(commits) + [Commit.SetRegisterErrorMessages(messages)]
    {
      registerErrorMessages := messages;
      commits := commits + [Commit.SetRegisterErrorMessages(messages)];
    }

    /** `commit('error/setCode', code, { root: true })`, recorded. */
    method SetErrorCode(code: int)
      modifies this`errorCodes, this`commits
      ensures errorCodes == old(errorCodes) + [code]
      ensures commits == old(commits) + [Commit.SetErrorCode(code)]
    {
      errorCodes := errorCodes + [code];
      commits := commits + [Commit.SetErrorCode(code)];
    }

    /** Action `register`, given the response to `POST /api/register`. */
    method Register(response: Response) returns (returned: Returned)
      modifies this
      ensures var t := RegisterTransition(old(State()), response);
        State() == t.state && errorCodes == old(errorCodes) + t.errorCodes && returned == t.returned
      ensures commits == old(commits) + RegisterCommits(response)
    {
      SetApiStatus(None);
      if response.status == CREATED {
        SetApiStatus(Some(true));
        SetUser(response.data);
        return ReturnedFalse;
      }
      SetApiStatus(Some(false));
      if response.status == UNPROCESSABLE_ENTITY {
        SetRegisterErrorMessages(ErrorsOf(response.data));
      } else {
        SetErrorCode(response.status);
      }
      returned := ReturnedUndefined;
    }

    /** Action `login`, given the response to `POST /api/login`. */
    method Login(response: Response) returns (returned: Returned)
      modifies this
      ensures var t := LoginTransition(old(State()), response);
        State() == t.state && errorCodes == old(errorCodes) + t.errorCodes && returned == t.returned
      ensures commits == old(commits) + LoginCommits(response)
    {
      SetApiStatus(None);
      if response.status == OK {
        SetApiStatus(Some(true));
        SetUser(response.data);
        return ReturnedFalse;
      }
      SetApiStatus(Some(false));
      if response.status == UNPROCESSABLE_ENTITY {
        SetLoginErrorMessages(ErrorsOf(response.data));
      } else {
        SetErrorCode(response.status);
      }
      returned := ReturnedUndefined;
    }

    /** Action `logout`, given the response to `POST /api/logout`. */
    method Logout(response: Response) returns (returned: Returned)
      modifies this
      ensures var t := LogoutTransition(old(State()), response);
        State() == t.state && errorCodes == old(errorCodes) + t.errorCodes && returned == t.returned
      ensures commits == old(commits) + LogoutCommits(response)
    {
      SetApiStatus(None);
      if response.status == OK {
        SetApiStatus(Some(true));
        SetUser(Falsy);
        return ReturnedFalse;
      }
      SetApiStatus(Some(false));
      SetErrorCode(response.status);
      returned := ReturnedUndefined;
    }

    /** Action `currentUser`, given the response to `GET /api/user`. */
    method CurrentUser(response: Response) returns (returned: Returned)
      modifies this
      ensures var t := CurrentUserTransition(old(State()), response);
        State() == t.state && errorCodes == old(errorCodes) + t.errorCodes && returned == t.returned
      ensures commits == old(commits) + CurrentUserCommits(response)
    {
      SetApiStatus(None);
      var u := if response.data.Object? then response.data else Falsy;
      if response.status == OK {
        SetApiStatus(Some(true));
        SetUser(u);
        return ReturnedFalse;
      }
      SetApiStatus(Some(false));
      SetErrorCode(response.status);
      returned := ReturnedUndefined;
    }
  }
}
