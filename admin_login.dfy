/**
 * src/pages/AdminLogin.tsx: the fixed-credential admin sign-in form.
 *
 * The form's `useState` cells become the fields of `LoginForm`; the `adminAuth` entry of
 * `localStorage` is the field `adminAuth` and the route passed to `navigate` is the field
 * `navigatedTo`. The one-second delay before the check is not modelled.
 */
module AdminLogin {
  import opened Wrappers
  import UseApi

  const ADMIN_USERNAME: string := "admin"
  const ADMIN_PASSWORD: string := "admin123"
  const MSG_BAD_CREDENTIALS: string := "Неверное имя пользователя или пароль"

  /** The comparison `handleLogin` makes: exact, case-sensitive, with no trimming. */
  predicate CredentialsMatch(username: string, password: string)
  {
    username == ADMIN_USERNAME && password == ADMIN_PASSWORD
  }

  /** Neither a change of case nor surrounding spaces is forgiven. */
  lemma CredentialsAreExact(username: string, password: string)
    requires CredentialsMatch(username, password)
    ensures !CredentialsMatch("Admin", password)
    ensures !CredentialsMatch(username + " ", password)
    ensures !CredentialsMatch(username, " " + password)
  {
    assert ("Admin")[0] != ADMIN_USERNAME[0];
    assert |username + " "| != |ADMIN_USERNAME|;
    assert |" " + password| != |ADMIN_PASSWORD|;
  }

  class LoginForm {
    var username: string
    var password: string
    var error: string
    var loading: bool
    var adminAuth: Option<string>
    var navigatedTo: Option<string>
    var toasts: seq<UseApi.Toast>

    constructor (flag: Option<string>)
      ensures username == "" && password == "" && error == "" && !loading
      ensures adminAuth == flag && navigatedTo.None? && toasts == []
    {
      username := "";
      password := "";
      error := "";
      loading := false;
      adminAuth := flag;
      navigatedTo := None;
      toasts := [];
    }

    /**
     * `handleLogin()`: the error is cleared first. Matching credentials set the
     * `adminAuth` flag to `"true"` and navigate to `/`; anything else sets the error
     * message and leaves the flag alone. Loading is off at the end, and the typed
     * username and password stay as they were.
     */
    method HandleLogin() returns (ok: bool)
      modifies this
      ensures ok <==> CredentialsMatch(old(username), old(password))
      ensures ok ==>
        adminAuth == Some("true") && navigatedTo == Some("/") && error == "" &&
        toasts == old(toasts) + [UseApi.Toast("Успешная авторизация", "Добро пожаловать в админ-панель", false)]
      ensures !ok ==>
        adminAuth == old(adminAuth) && navigatedTo == old(navigatedTo) && error == MSG_BAD_CREDENTIALS &&
        toasts == old(toasts) + [UseApi.Toast("Ошибка авторизации", "Проверьте введенные данные", true)]
      ensures !loading && username == old(username) && password == old(password)
    {
      loading := true;
      error := "";
      ok := CredentialsMatch(username, password);
      if ok {
        adminAuth := Some("true");
        toasts := toasts + [UseApi.Toast("Успешная авторизация", "Добро пожаловать в админ-панель", false)];
        navigatedTo := Some("/");
      } else {
        error := MSG_BAD_CREDENTIALS;
        toasts := toasts + [UseApi.Toast("Ошибка авторизации", "Проверьте введенные данные", true)];
      }
      loading := false;
    }
  }
}
