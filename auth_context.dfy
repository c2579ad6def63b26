/** The admin session: who is signed in, whether an auth operation is in
    flight, and the last login error. The identity provider and the admins
    collection are outside the model; what they answer is passed in. */
module AuthContext {
  import opened Wrappers
  import opened Types
  import opened Seqs

  /** The session's three fields. */
  datatype AuthState = AuthState(currentUser: Option<Admin>, loading: bool, error: Option<string>)

  /** A document of the admins collection: its id and its fields. */
  datatype AdminDoc = AdminDoc(docId: string, data: Admin)

  /** The signed-in identity the provider reports. */
  datatype SessionUser = SessionUser(email: string)

  /** The credentials `login` hands to the provider. */
  datatype SignInRequest = SignInRequest(email: string, password: string)

  const AdminEmail: string := "admin@chilume2025.org"
  const LoginError: string := "Invalid authentication key"
  const OutsideProvider: string := "useAuth must be used within an AuthProvider"

  const InitialAuth: AuthState := AuthState(None, true, None)

  /** The admin a document describes, under the document's id. */
  function AdminOf(d: AdminDoc): Admin {
    d.data.(id := d.docId)
  }

  /** The documents the query `where("email", "==", email)` returns. */
  function AdminsWithEmail(admins: seq<AdminDoc>, email: string): (r: seq<AdminDoc>)
    ensures forall k :: 0 <= k < |r| ==> r[k] in admins && r[k].data.email == email
    ensures (exists k :: 0 <= k < |admins| && admins[k].data.email == email) ==> |r| > 0
  {
    Filter((d: AdminDoc) => d.data.email == email, admins)
  }

  /** The auth-state callback: signed out clears the user; signed in looks
      the e-mail up and takes the first matching admin, leaving the user as it
      was when the lookup fails or finds nothing. Loading ends either way and
      the error is untouched. */
  function AfterAuthChange(s: AuthState, user: Option<SessionUser>, admins: seq<AdminDoc>,
                           queryFails: bool): AuthState
  {
    var next :=
      if user.None? then None
      else if queryFails then s.currentUser
      else
        var matches := AdminsWithEmail(admins, user.value.email);
        if |matches| == 0 then s.currentUser else Some(AdminOf(matches[0]));
    AuthState(next, false, s.error)
  }

  /** `login`'s effect on the state: the error is cleared, then set on a
      failed sign-in; the user is never touched; loading ends. */
  function AfterLogin(s: AuthState, signInOk: bool): AuthState {
    AuthState(s.currentUser, false, if signInOk then None else Some(LoginError))
  }

  /** `logout`'s effect: the user is cleared only when sign-out succeeds. */
  function AfterLogout(s: AuthState, signOutOk: bool): AuthState {
    AuthState(if signOutOk then None else s.currentUser, false, s.error)
  }

  /** `k0` is the position of the first admin document with e-mail `email`. */
  predicate FirstWithEmail(admins: seq<AdminDoc>, email: string, k0: int) {
    && 0 <= k0 < |admins| && admins[k0].data.email == email
    && forall j :: 0 <= j < k0 ==> admins[j].data.email != email
  }

  /** The callback's outcome, case by case: a user it sets is the record of
      an admin document whose e-mail is the session's, and a lookup that
      finds one signs in the first such admin. */
  lemma AuthChangeOutcome(s: AuthState, user: Option<SessionUser>, admins: seq<AdminDoc>, queryFails: bool)
    ensures var t := AfterAuthChange(s, user, admins, queryFails);
      && !t.loading && t.error == s.error
      && (user.None? ==> t.currentUser.None?)
      && (user.Some? && queryFails ==> t.currentUser == s.currentUser)
      && ((user.Some? && !queryFails
           && forall k :: 0 <= k < |admins| ==> admins[k].data.email != user.value.email)
          ==> t.currentUser == s.currentUser)
      && (user.Some? && !queryFails && t.currentUser != s.currentUser ==>
            && t.currentUser.Some? && t.currentUser.value.email == user.value.email
            && exists k :: 0 <= k < |admins| && AdminOf(admins[k]) == t.currentUser.value)
    ensures forall k0 :: user.Some? && !queryFails && FirstWithEmail(admins, user.value.email, k0) ==>
      AfterAuthChange(s, user, admins, queryFails).currentUser == Some(AdminOf(admins[k0]))
  {
    if user.Some? && !queryFails {
      var email := user.value.email;
      var matches := AdminsWithEmail(admins, email);
      if |matches| > 0 {
        assert matches[0] in admins;
      }
      forall k0 | FirstWithEmail(admins, email, k0) ensures matches[0] == admins[k0]
      {
        FilterFirst((d: AdminDoc) => d.data.email == email, admins, k0);
      }
    }
  }

  /** The signed-in user, whenever there is one, is the record of some
      document of the admins collection. */
  ghost predicate UserIsAdmin(s: AuthState, admins: seq<AdminDoc>) {
    s.currentUser.Some? ==> exists k :: 0 <= k < |admins| && AdminOf(admins[k]) == s.currentUser.value
  }

  /** What the provider and the store report at each step of a session. */
  datatype AuthEvent =
    | AuthChanged(user: Option<SessionUser>, queryFails: bool)
    | LoginAttempt(signInOk: bool)
    | LogoutAttempt(signOutOk: bool)

  function Step(s: AuthState, e: AuthEvent, admins: seq<AdminDoc>): AuthState {
    match e
    case AuthChanged(user, queryFails) => AfterAuthChange(s, user, admins, queryFails)
    case LoginAttempt(ok) => AfterLogin(s, ok)
    case LogoutAttempt(ok) => AfterLogout(s, ok)
  }

  function Run(s: AuthState, events: seq<AuthEvent>, admins: seq<AdminDoc>): AuthState
    decreases |events|
  {
    if |events| == 0 then s else Run(Step(s, events[0], admins), events[1..], admins)
  }

  /** Over any session from a state where it holds (the initial state has no
      user), the signed-in user is always the record of an admin document. */
  lemma {:induction false} RunKeepsUserIsAdmin(s: AuthState, events: seq<AuthEvent>, admins: seq<AdminDoc>)
    requires UserIsAdmin(s, admins)
    ensures UserIsAdmin(Run(s, events, admins), admins)
    decreases |events|
  {
    if |events| > 0 {
      var e := events[0];
      if e.AuthChanged? {
        AuthChangeOutcome(s, e.user, admins, e.queryFails);
      }
      RunKeepsUserIsAdmin(Step(s, e, admins), events[1..], admins);
    }
  }

  /** A session that only logs in and out never has a user. */
  lemma {:induction false} LoginNeverSignsIn(s: AuthState, events: seq<AuthEvent>, admins: seq<AdminDoc>)
    requires s.currentUser.None?
    requires forall k :: 0 <= k < |events| ==> !events[k].AuthChanged?
    ensures Run(s, events, admins).currentUser.None?
    decreases |events|
  {
    if |events| > 0 {
      LoginNeverSignsIn(Step(s, events[0], admins), events[1..], admins);
    }
  }

  /** `useAuth`: the context, or the error thrown outside a provider. */
  function UseAuth(context: Option<AuthState>): (r: Result<AuthState, string>)
    ensures context.None? <==> r == Err(OutsideProvider)
    ensures context.Some? ==> r == Ok(context.value)
  {
    if context.None? then Err(OutsideProvider) else Ok(context.value)
  }

  /** The provider component's state. */
  class AuthProvider {
    var currentUser: Option<Admin>
    var loading: bool
    var error: Option<string>

    function State(): AuthState
      reads this
    {
      AuthState(currentUser, loading, error)
    }

    constructor ()
      ensures State() == InitialAuth
    {
      currentUser := None;
      loading := true;
      error := None;
    }

    /** The `onAuthStateChanged` callback, with the provider's report and the
        admins collection as parameters. */
    method OnAuthStateChanged(user: Option<SessionUser>, admins: seq<AdminDoc>, queryFails: bool)
      modifies this
      ensures State() == AfterAuthChange(old(State()), user, admins, queryFails)
    {
      if user.Some? {
        if !queryFails {
          var matches := AdminsWithEmail(admins, user.value.email);
          if |matches| > 0 {
            currentUser := Some(AdminOf(matches[0]));
          }
        }
      } else {
        currentUser := None;
      }
      loading := false;
    }

    /** `login`: the request it sends, and whether it rethrew. */
    method Login(authKey: string, signInOk: bool) returns (request: SignInRequest, threw: bool)
      modifies this
      ensures request == SignInRequest(AdminEmail, authKey)
      ensures threw == !signInOk
      ensures State() == AfterLogin(old(State()), signInOk)
    {
      loading := true;
      error := None;
      request := SignInRequest(AdminEmail, authKey);
      threw := false;
      if !signInOk {
        error := Some(LoginError);
        threw := true;
      }
      loading := false;
    }

    method Logout(signOutOk: bool)
      modifies this
      ensures State() == AfterLogout(old(State()), signOutOk)
    {
      loading := true;
      if signOutOk {
        currentUser := None;
      }
      loading := false;
    }
  }
}
