/** The process-wide user store, one client's session, and the four handlers
    that read or change them: POST /register, POST /login, POST /form and
    GET /logout. */
module Auth {
  import opened Wrappers
  import opened Pages

  const SessionKey := "username"
  const DuplicateUser := "Username already exists."
  const RegistrationDone := "Registration successful. Please log in."
  const InvalidCredentials := "Invalid credentials."

  /** username -> plaintext password */
  type Users = map<string, string>

  /** The cookie-backed session dictionary. */
  type Session = map<string, string>

  datatype State = State(users: Users, session: Session)

  /** A handler's effect: the state after it and the response it returns. */
  datatype Transition = Transition(next: State, outcome: Outcome)

  /** `get_current_user`: the session's `username` entry, if there is one. */
  function CurrentUser(session: Session): (u: Option<string>)
    ensures u.Some? <==> SessionKey in session
    ensures u.Some? ==> u.value == session[SessionKey]
  {
    if SessionKey in session then Some(session[SessionKey]) else None
  }

  /** The gate's test `if not username`: a username that is absent or the
      empty string counts as anonymous. */
  predicate Authenticated(s: State)
  {
    var u := CurrentUser(s.session);
    u.Some? && u.value != ""
  }

  /** Every account in `before` is still there, with the same password. */
  predicate Extends(before: Users, after: Users)
  {
    forall u :: u in before ==> u in after && after[u] == before[u]
  }

  /** A session that names a user names a registered one. */
  predicate SessionBacked(s: State)
  {
    SessionKey in s.session ==> s.session[SessionKey] in s.users
  }

  /** POST /register. */
  function RegisterStep(s: State, username: string, password: string): (t: Transition)
    ensures username in s.users ==>
      t.next == s && t.outcome == Render(RegisterHtml, ErrorContext(DuplicateUser))
    ensures username !in s.users ==>
      && t.next.session == s.session
      && t.next.users.Keys == s.users.Keys + {username}
      && t.next.users[username] == password
      && t.outcome == Render(LoginHtml, MessageContext(RegistrationDone))
    ensures Extends(s.users, t.next.users)
  {
    if username in s.users then
      Transition(s, Render(RegisterHtml, ErrorContext(DuplicateUser)))
    else
      Transition(s.(users := s.users[username := password]),
                 Render(LoginHtml, MessageContext(RegistrationDone)))
  }

  /** POST /login. */
  function LoginStep(s: State, username: string, password: string): (t: Transition)
    ensures t.next.users == s.users
    ensures t.outcome == Redirect(FormPath) <==> username in s.users && s.users[username] == password
    ensures t.outcome == Redirect(FormPath) ==>
      && CurrentUser(t.next.session) == Some(username)
      && t.next.session == s.session[SessionKey := username]
    ensures t.outcome != Redirect(FormPath) ==>
      t.next == s && t.outcome == Render(LoginHtml, ErrorContext(InvalidCredentials))
  {
    if username in s.users && s.users[username] == password then
      Transition(s.(session := s.session[SessionKey := username]), Redirect(FormPath))
    else
      Transition(s, Render(LoginHtml, ErrorContext(InvalidCredentials)))
  }

  /** POST /form: the session-gated form page. */
  function FormStep(s: State): (t: Transition)
    ensures t.next == s
    ensures t.outcome == Redirect(LoginPath) <==> !Authenticated(s)
    ensures Authenticated(s) ==>
      t.outcome == Render(FormHtml, UserContext(s.session[SessionKey]))
  {
    var username := CurrentUser(s.session);
    if username.None? || username.value == "" then
      Transition(s, Redirect(LoginPath))
    else
      Transition(s, Render(FormHtml, UserContext(username.value)))
  }

  /** GET /logout. */
  function LogoutStep(s: State): (t: Transition)
    ensures t.next.users == s.users
    ensures CurrentUser(t.next.session).None? && t.next.session == map[]
    ensures t.outcome == Redirect(LoginPath)
  {
    Transition(s.(session := map[]), Redirect(LoginPath))
  }

  /** The requests that reach the store or the session, one at a time. */
  datatype Request =
    | RegisterRequest(username: string, password: string)
    | LoginRequest(username: string, password: string)
    | FormRequest
    | LogoutRequest

  function Step(s: State, request: Request): Transition
  {
    match request
    case RegisterRequest(u, p) => RegisterStep(s, u, p)
    case LoginRequest(u, p) => LoginStep(s, u, p)
    case FormRequest => FormStep(s)
    case LogoutRequest => LogoutStep(s)
  }

  /** The state after serving `requests` in order. */
  function Run(s: State, requests: seq<Request>): State
    decreases |requests|
  {
    if requests == [] then s else Run(Step(s, requests[0]).next, requests[1..])
  }

  /** No request removes an account or changes a password, and none lets the
      session name an unregistered user. */
  lemma StepPreserves(s: State, request: Request)
    ensures Extends(s.users, Step(s, request).next.users)
    ensures SessionBacked(s) ==> SessionBacked(Step(s, request).next)
  {
  }

  /** Accounts are permanent: whatever requests follow, every account keeps
      its password. */
  lemma {:induction false} RunKeepsAccounts(s: State, requests: seq<Request>)
    ensures Extends(s.users, Run(s, requests).users)
    decreases |requests|
  {
    if requests != [] {
      var next := Step(s, requests[0]).next;
      StepPreserves(s, requests[0]);
      RunKeepsAccounts(next, requests[1..]);
    }
  }

  /** Starting from a session that names only registered users (an empty
      one, say), no sequence of requests makes it name anybody else. */
  lemma {:induction false} RunKeepsSessionBacked(s: State, requests: seq<Request>)
    requires SessionBacked(s)
    ensures SessionBacked(Run(s, requests))
    decreases |requests|
  {
    if requests != [] {
      StepPreserves(s, requests[0]);
      RunKeepsSessionBacked(Step(s, requests[0]).next, requests[1..]);
    }
  }

  /** Registering a fresh name and logging in with the same password
      authenticates; the form page then greets that user unless the name is
      the empty string. */
  lemma RegisterThenLogin(s: State, username: string, password: string)
    requires username !in s.users
    ensures var t := LoginStep(RegisterStep(s, username, password).next, username, password);
      && t.outcome == Redirect(FormPath)
      && CurrentUser(t.next.session) == Some(username)
      && (username != "" ==>
            FormStep(t.next).outcome == Render(FormHtml, UserContext(username)))
  {
  }

  /** Once registered, a user can log in with that password after any
      sequence of further requests. */
  lemma {:induction false} RegisteredUserCanAlwaysLogIn(s: State, username: string, password: string,
                                                       requests: seq<Request>)
    requires username !in s.users
    ensures LoginStep(Run(RegisterStep(s, username, password).next, requests),
                      username, password).outcome == Redirect(FormPath)
  {
    var registered := RegisterStep(s, username, password).next;
    RunKeepsAccounts(registered, requests);
  }

  /** After logout the gated form page sends the client to the login page,
      whatever the session held before. */
  lemma LogoutThenForm(s: State)
    ensures FormStep(LogoutStep(s).next).outcome == Redirect(LoginPath)
  {
  }

  /** The handlers on the live objects: the process-wide `users` dictionary
      and the session of the client making the requests. */
  class App {
    var users: Users
    var session: Session

    constructor ()
      ensures users == map[] && session == map[]
    {
      users := map[];
      session := map[];
    }

    function Snapshot(): State
      reads this
    {
      State(users, session)
    }

    method Register(username: string, password: string) returns (outcome: Outcome)
      modifies this
      ensures Snapshot() == RegisterStep(old(Snapshot()), username, password).next
      ensures outcome == RegisterStep(old(Snapshot()), username, password).outcome
    {
      if username in users {
        return Render(RegisterHtml, ErrorContext(DuplicateUser));
      }
      users := users[username := password];
      outcome := Render(LoginHtml, MessageContext(RegistrationDone));
    }

    method Login(username: string, password: string) returns (outcome: Outcome)
      modifies this
      ensures Snapshot() == LoginStep(old(Snapshot()), username, password).next
      ensures outcome == LoginStep(old(Snapshot()), username, password).outcome
    {
      if username in users && users[username] == password {
        session := session[SessionKey := username];
        outcome := Redirect(FormPath);
      } else {
        outcome := Render(LoginHtml, ErrorContext(InvalidCredentials));
      }
    }

    /** Reads the session and changes nothing. */
    method SubmitForm() returns (outcome: Outcome)
      ensures outcome == FormStep(Snapshot()).outcome
    {
      var username := CurrentUser(session);
      if username.None? || username.value == "" {
        return Redirect(LoginPath);
      }
      outcome := Render(FormHtml, UserContext(username.value));
    }

    method Logout() returns (outcome: Outcome)
      modifies this
      ensures Snapshot() == LogoutStep(old(Snapshot())).next
      ensures outcome == LogoutStep(old(Snapshot())).outcome
    {
      outcome := Redirect(LoginPath);
      session := map[];
    }
  }
}
