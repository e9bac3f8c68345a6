/**
 * src/contexts/AuthContext.tsx: the session state behind `useAuth`, and the three-way
 * branch of src/components/ProtectedRoute.tsx on top of it.
 *
 * The external provider (the Supabase client) and the PHP backend are oracles: what
 * they answered is a parameter of each method. `localStorage['auth_token']` is the
 * field `storedToken`.
 */
module AuthContext {
  import opened Wrappers
  import opened Js
  import opened Api
  import UseApi

  /** The user the context exposes. */
  datatype AuthUser = AuthUser(id: string, email: string, role: string, status: string)

  /** A row of the provider's `users` table. */
  datatype ProviderRow = ProviderRow(id: string, email: string, role: string, status: string)

  /**
   * What `signInWithPassword` and the row query answered: a user, an error, and the row
   * found by e-mail; or an exception.
   */
  datatype ProviderLogin = ProviderThrew | ProviderAnswered(hasUser: bool, hasError: bool, row: Option<ProviderRow>)

  /** The PHP `login` reply's data. */
  datatype PhpUser = PhpUser(id: int, email: string, role: string, status: string)
  datatype LoginData = LoginData(token: string, user: PhpUser)

  /** The PHP `verify_token` reply's data. */
  datatype VerifyData = VerifyData(user_id: int, email: string, role: string)

  const MSG_PROVIDER_WELCOME: string := "Вы успешно авторизовались через Supabase!"
  const MSG_WELCOME: string := "Вы успешно авторизовались!"
  const MSG_BAD_CREDENTIALS: string := "Неверный email или пароль"
  const MSG_LOGIN_ERROR: string := "Произошла ошибка при авторизации"
  const MSG_LOGGED_OUT: string := "Вы успешно вышли из системы"

  function FromRow(r: ProviderRow): AuthUser
  {
    AuthUser(r.id, r.email, r.role, r.status)
  }

  /** The provider admits only with a user, no error, and a `users` row. */
  predicate ProviderAdmits(p: ProviderLogin)
  {
    p.ProviderAnswered? && p.hasUser && !p.hasError && p.row.Some?
  }

  /** How `login` ends. */
  datatype LoginVerdict =
    | ViaProvider(user: AuthUser)
    | ViaBackend(token: string, user: AuthUser)
    | Refused(message: string)

  /**
   * The decision `login` takes: the provider first, then the PHP backend; a PHP failure
   * reports its own error or the credentials message, a rejected PHP call the generic one.
   */
  function LoginDecision(provider: ProviderLogin, php: Outcome<ApiResponse<LoginData>>): (v: LoginVerdict)
    ensures v.ViaProvider? <==> ProviderAdmits(provider)
    ensures v.ViaProvider? ==> v.user == FromRow(provider.row.value)
    ensures v.ViaBackend? <==>
      !ProviderAdmits(provider) && php.Resolved? && php.value.success && php.value.data.Some?
    ensures v.ViaBackend? ==>
      var d := php.value.data.value;
      v.token == d.token && v.user == AuthUser(ShowInt(d.user.id), d.user.email, d.user.role, d.user.status)
    ensures v.Refused? && php.Rejected? ==> v.message == MSG_LOGIN_ERROR
    ensures v.Refused? && php.Resolved? ==>
      v.message == (if php.value.error.Some? && php.value.error.value != "" then php.value.error.value
                    else MSG_BAD_CREDENTIALS)
  {
    if ProviderAdmits(provider) then ViaProvider(FromRow(provider.row.value))
    else match php
      case Rejected(_) => Refused(MSG_LOGIN_ERROR)
      case Resolved(resp) =>
        if resp.success && resp.data.Some? then
          var d := resp.data.value;
          ViaBackend(d.token, AuthUser(ShowInt(d.user.id), d.user.email, d.user.role, d.user.status))
        else
          Refused(if resp.error.Some? && resp.error.value != "" then resp.error.value else MSG_BAD_CREDENTIALS)
  }

  /** When the provider admits, the PHP backend's answer plays no part. */
  lemma ProviderTakesPrecedence(provider: ProviderLogin, php1: Outcome<ApiResponse<LoginData>>,
                                php2: Outcome<ApiResponse<LoginData>>)
    requires ProviderAdmits(provider)
    ensures LoginDecision(provider, php1) == LoginDecision(provider, php2)
  {
  }

  /** An exception or an error from the provider falls through to the PHP backend alone. */
  lemma ProviderFailureFallsThrough(p1: ProviderLogin, p2: ProviderLogin, php: Outcome<ApiResponse<LoginData>>,
                                    row: Option<ProviderRow>)
    requires !ProviderAdmits(p1) && !ProviderAdmits(p2)
    ensures LoginDecision(p1, php) == LoginDecision(p2, php)
    ensures LoginDecision(ProviderThrew, php) == LoginDecision(ProviderAnswered(true, true, row), php)
  {
  }

  /** What `verify_token` gave the initial check: a user, a rejected token, or an exception. */
  datatype Verification = Verified(data: VerifyData) | NotVerified | VerifyThrew

  function VerificationOf(php: Outcome<ApiResponse<VerifyData>>): Verification
  {
    match php
    case Rejected(_) => VerifyThrew
    case Resolved(resp) => if resp.success && resp.data.Some? then Verified(resp.data.value) else NotVerified
  }

  /** The states of ProtectedRoute: the loading screen, the login page, or the protected children. */
  datatype Screen = LoadingScreen | LoginPage | Children

  class Session {
    var user: Option<AuthUser>
    var loading: bool
    var storedToken: Option<string>
    var toasts: seq<UseApi.Toast>

    /** `isAuthenticated: !!user`. */
    predicate IsAuthenticated()
      reads this
    {
      user.Some?
    }

    /** The provider mounts with no user, loading, and whatever token the browser kept. */
    constructor (token: Option<string>)
      ensures user.None? && loading && storedToken == token && toasts == []
    {
      user := None;
      loading := true;
      storedToken := token;
      toasts := [];
    }

    /**
     * `checkSupabaseAuth`: a provider session with a `users` row sets the user. Otherwise
     * a truthy stored token is verified with the PHP backend: a verified token sets the
     * user with status `active`, anything else removes the token. Loading ends either way.
     */
    method CheckSession(providerRow: Option<ProviderRow>, php: Outcome<ApiResponse<VerifyData>>)
      modifies this
      ensures !loading && toasts == old(toasts)
      ensures providerRow.Some? ==> user == Some(FromRow(providerRow.value)) && storedToken == old(storedToken)
      ensures providerRow.None? && (old(storedToken).None? || old(storedToken) == Some("")) ==>
        user == old(user) && storedToken == old(storedToken)
      ensures providerRow.None? && old(storedToken).Some? && old(storedToken) != Some("") ==>
        match VerificationOf(php)
        case Verified(d) =>
          user == Some(AuthUser(ShowInt(d.user_id), d.email, d.role, "active")) && storedToken == old(storedToken)
        case _ => user == old(user) && storedToken.None?
    {
      if providerRow.Some? {
        user := Some(FromRow(providerRow.value));
        loading := false;
        return;
      }
      if storedToken.Some? && storedToken.value != "" {
        match VerificationOf(php) {
          case Verified(d) =>
            user := Some(AuthUser(ShowInt(d.user_id), d.email, d.role, "active"));
          case NotVerified =>
            storedToken := None;
          case VerifyThrew =>
            storedToken := None;
        }
      }
      loading := false;
    }

    /**
     * `login(email, password)`: loading during the attempt and not after it; on success
     * the user is set (and, through the backend, the token stored); on failure nothing
     * but the toast changes.
     */
    method Login(provider: ProviderLogin, php: Outcome<ApiResponse<LoginData>>) returns (ok: bool)
      modifies this
      ensures !loading
      ensures ok <==> !LoginDecision(provider, php).Refused?
      ensures match LoginDecision(provider, php)
        case ViaProvider(u) =>
          user == Some(u) && storedToken == old(storedToken) &&
          toasts == old(toasts) + [UseApi.Toast(UseApi.TITLE_SUCCESS, MSG_PROVIDER_WELCOME, false)]
        case ViaBackend(t, u) =>
          user == Some(u) && storedToken == Some(t) &&
          toasts == old(toasts) + [UseApi.Toast(UseApi.TITLE_SUCCESS, MSG_WELCOME, false)]
        case Refused(m) =>
          user == old(user) && storedToken == old(storedToken) &&
          toasts == old(toasts) + [UseApi.Toast(UseApi.TITLE_ERROR, m, true)]
    {
      loading := true;
      var verdict := LoginDecision(provider, php);
      match verdict {
        case ViaProvider(u) =>
          user := Some(u);
          toasts := toasts + [UseApi.Toast(UseApi.TITLE_SUCCESS, MSG_PROVIDER_WELCOME, false)];
          ok := true;
        case ViaBackend(t, u) =>
          storedToken := Some(t);
          user := Some(u);
          toasts := toasts + [UseApi.Toast(UseApi.TITLE_SUCCESS, MSG_WELCOME, false)];
          ok := true;
        case Refused(m) =>
          toasts := toasts + [UseApi.Toast(UseApi.TITLE_ERROR, m, true)];
          ok := false;
      }
      loading := false;
    }

    /**
     * `logout()`: when signing out of the provider succeeds, the token and the user are
     * cleared; when it throws, nothing changes.
     */
    method Logout(signOutThrows: bool)
      modifies this
      ensures loading == old(loading)
      ensures signOutThrows ==> user == old(user) && storedToken == old(storedToken) && toasts == old(toasts)
      ensures !signOutThrows ==>
        user.None? && storedToken.None? &&
        toasts == old(toasts) + [UseApi.Toast(UseApi.TITLE_SUCCESS, MSG_LOGGED_OUT, false)]
    {
      if !signOutThrows {
        storedToken := None;
        user := None;
        toasts := toasts + [UseApi.Toast(UseApi.TITLE_SUCCESS, MSG_LOGGED_OUT, false)];
      }
    }

    /**
     * The `onAuthStateChange` listener: a sign-in with a `users` row sets the user, a
     * sign-out clears it; the stored token is not touched.
     */
    method OnAuthStateChange(signedIn: bool, signedOut: bool, row: Option<ProviderRow>)
      modifies this
      ensures storedToken == old(storedToken) && loading == old(loading) && toasts == old(toasts)
      ensures signedIn && row.Some? ==> user == Some(FromRow(row.value))
      ensures signedIn && row.None? ==> user == old(user)
      ensures !signedIn && signedOut ==> user.None?
      ensures !signedIn && !signedOut ==> user == old(user)
    {
      if signedIn {
        if row.Some? {
          user := Some(FromRow(row.value));
        }
      } else if signedOut {
        user := None;
      }
    }

    /** ProtectedRoute: the loading screen first, then the login page unless someone is signed in. */
    function Route(): (s: Screen)
      reads this
      ensures s == Children <==> !loading && IsAuthenticated()
      ensures s == LoadingScreen <==> loading
    {
      if loading then LoadingScreen else if !IsAuthenticated() then LoginPage else Children
    }
  }
}
