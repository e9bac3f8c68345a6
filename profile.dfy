/**
 * src/pages/Profile.tsx: loading the signed-in user's profile, changing the e-mail and
 * changing the password.
 *
 * The page's `useState` cells become the fields of `ProfilePage`. Each `fetch` to
 * `/api/users.php` is recorded in `requests` and its settled result is a parameter.
 */
module Profile {
  import opened Wrappers
  import opened Js
  import UseApi

  datatype UserProfile = UserProfile(id: int, email: string, role: string, status: string, createdAt: string,
                                     lastActive: string, pagesCount: int, pagesLimit: int)

  /** A request the page sends, with the body members that matter. */
  datatype ProfileRequest =
    | GetProfile
    | UpdateProfile(email: string)
    | ChangePassword(current_password: string, new_password: string)

  /** How a `fetch` ended: a parsed reply with `success` and `message`, or an exception. */
  datatype Reply<T> = Replied(success: bool, message: Option<string>, data: Option<T>) | Threw

  const MSG_EMAIL_EMPTY: string := "Email не может быть пустым"
  const MSG_FIELDS_EMPTY: string := "Все поля пароля должны быть заполнены"
  const MSG_MISMATCH: string := "Новые пароли не совпадают"
  const MSG_TOO_SHORT: string := "Пароль должен быть не менее 6 символов"
  const MSG_PROFILE_FAILED: string := "Не удалось загрузить профиль"
  const MSG_PROFILE_ERROR: string := "Ошибка при загрузке профиля"
  const MSG_EMAIL_UPDATED: string := "Email обновлен!"
  const MSG_EMAIL_FAILED: string := "Не удалось обновить email"
  const MSG_EMAIL_ERROR: string := "Ошибка при обновлении email"
  const MSG_PASSWORD_CHANGED: string := "Пароль изменен!"
  const MSG_PASSWORD_FAILED: string := "Не удалось изменить пароль"
  const MSG_PASSWORD_ERROR: string := "Ошибка при изменении пароля"

  /** The minimum length of a new password. */
  const MIN_PASSWORD_LENGTH: nat := 6

  /**
   * The guards of `changePassword`, in their order: the message of the first one that
   * fails, or `None` when the request may be sent.
   */
  function PasswordProblem(current: string, newPw: string, confirm: string): (r: Option<string>)
    ensures r.None? <==> current != "" && newPw != "" && confirm != "" && newPw == confirm && |newPw| >= MIN_PASSWORD_LENGTH
    ensures r == Some(MSG_FIELDS_EMPTY) <==> current == "" || newPw == "" || confirm == ""
    ensures r == Some(MSG_MISMATCH) <==> current != "" && newPw != "" && confirm != "" && newPw != confirm
    ensures r == Some(MSG_TOO_SHORT) <==>
      current != "" && newPw != "" && confirm != "" && newPw == confirm && |newPw| < MIN_PASSWORD_LENGTH
  {
    if current == "" || newPw == "" || confirm == "" then Some(MSG_FIELDS_EMPTY)
    else if newPw != confirm then Some(MSG_MISMATCH)
    else if |newPw| < MIN_PASSWORD_LENGTH then Some(MSG_TOO_SHORT)
    else None
  }

  /**
   * The order of the guards decides the message: an empty confirmation is reported as a
   * missing field even when it also differs from the new password, and a short password
   * that does not match is reported as a mismatch.
   */
  lemma GuardOrder(current: string, newPw: string)
    requires current != "" && newPw != ""
    ensures PasswordProblem(current, newPw, "") == Some(MSG_FIELDS_EMPTY)
    ensures |newPw| < MIN_PASSWORD_LENGTH ==> PasswordProblem(current, newPw, newPw + "x") == Some(MSG_MISMATCH)
  {
    if |newPw| < MIN_PASSWORD_LENGTH {
      assert |newPw + "x"| != |newPw|;
    }
  }

  /**
   * The e-mail `updateEmail` sends: the trimmed field, or nothing when that is empty, so
   * a blank or all-space e-mail is never sent.
   */
  function EmailToSend(email: string): Option<string>
  {
    var trimmed := Trim(email);
    if trimmed == "" then None else Some(trimmed)
  }

  /** Nothing is sent exactly when the field holds only white space; otherwise the trimmed, non-empty text is. */
  lemma EmailToSendSpec(email: string)
    ensures EmailToSend(email).None? <==> forall i :: 0 <= i < |email| ==> IsSpace(email[i])
    ensures EmailToSend(email).Some? ==> EmailToSend(email).value == Trim(email) != ""
  {
    TrimEmptyIffBlank(email);
  }

  /** `result.message || fallback`. */
  function MessageOr(message: Option<string>, fallback: string): (m: string)
    ensures message.Some? && message.value != "" ==> m == message.value
    ensures !(message.Some? && message.value != "") ==> m == fallback
  {
    if message.Some? && message.value != "" then message.value else fallback
  }

  /** The toast that reports a reply: its own message, or the default for success or failure. */
  function ReplyToast(success: bool, message: Option<string>, ok: string, failed: string): (t: UseApi.Toast)
    ensures t.destructive <==> !success
    ensures t.title == (if success then UseApi.TITLE_SUCCESS else UseApi.TITLE_ERROR)
    ensures t.description == MessageOr(message, if success then ok else failed)
  {
    UseApi.Toast(if success then UseApi.TITLE_SUCCESS else UseApi.TITLE_ERROR,
                 MessageOr(message, if success then ok else failed), !success)
  }

  class ProfilePage {
    var profile: Option<UserProfile>
    var email: string
    var currentPassword: string
    var newPassword: string
    var confirmPassword: string
    var loading: bool
    var loadingProfile: bool
    var requests: seq<ProfileRequest>
    var toasts: seq<UseApi.Toast>

    constructor ()
      ensures profile.None? && email == "" && currentPassword == "" && newPassword == "" && confirmPassword == ""
      ensures !loading && loadingProfile && requests == [] && toasts == []
    {
      profile := None;
      email := "";
      currentPassword := "";
      newPassword := "";
      confirmPassword := "";
      loading := false;
      loadingProfile := true;
      requests := [];
      toasts := [];
    }

    /**
     * `loadProfile()` up to its first `await`: loading is switched on and the request is
     * sent; nothing else changes until the reply settles.
     */
    method BeginLoadProfile()
      modifies this
      ensures loadingProfile && requests == old(requests) + [GetProfile]
      ensures profile == old(profile) && email == old(email) && toasts == old(toasts) && loading == old(loading)
      ensures currentPassword == old(currentPassword) && newPassword == old(newPassword)
      ensures confirmPassword == old(confirmPassword)
    {
      loadingProfile := true;
      requests := requests + [GetProfile];
    }

    /**
     * The rest of `loadProfile()` once the reply settles: a successful reply sets the
     * profile and copies its e-mail into the field; a failure or an exception only shows
     * a toast. A successful reply without `data` clears the profile and then throws on
     * `data.email`, which the catch reports. Loading ends either way.
     */
    method FinishLoadProfile(reply: Reply<UserProfile>)
      modifies this
      ensures !loadingProfile && requests == old(requests)
      ensures reply.Replied? && reply.success && reply.data.Some? ==>
        profile == reply.data && email == reply.data.value.email && toasts == old(toasts)
      ensures reply.Replied? && reply.success && reply.data.None? ==>
        profile.None? && email == old(email) &&
        toasts == old(toasts) + [UseApi.Toast(UseApi.TITLE_ERROR, MSG_PROFILE_ERROR, true)]
      ensures reply.Replied? && !reply.success ==>
        profile == old(profile) && email == old(email) &&
        toasts == old(toasts) + [UseApi.Toast(UseApi.TITLE_ERROR, MSG_PROFILE_FAILED, true)]
      ensures reply.Threw? ==>
        profile == old(profile) && email == old(email) &&
        toasts == old(toasts) + [UseApi.Toast(UseApi.TITLE_ERROR, MSG_PROFILE_ERROR, true)]
      ensures currentPassword == old(currentPassword) && newPassword == old(newPassword)
      ensures confirmPassword == old(confirmPassword) && loading == old(loading)
    {
      match reply {
        case Replied(success, _, data) =>
          if success {
            profile := data;
            if data.Some? {
              email := data.value.email;
            } else {
              toasts := toasts + [UseApi.Toast(UseApi.TITLE_ERROR, MSG_PROFILE_ERROR, true)];
            }
          } else {
            toasts := toasts + [UseApi.Toast(UseApi.TITLE_ERROR, MSG_PROFILE_FAILED, true)];
          }
        case Threw =>
          toasts := toasts + [UseApi.Toast(UseApi.TITLE_ERROR, MSG_PROFILE_ERROR, true)];
      }
      loadingProfile := false;
    }

    /** `loadProfile()` awaited to the end, as the mount effect runs it. */
    method LoadProfile(reply: Reply<UserProfile>)
      modifies this
      ensures !loadingProfile && requests == old(requests) + [GetProfile]
      ensures reply.Replied? && reply.success && reply.data.Some? ==>
        profile == reply.data && email == reply.data.value.email && toasts == old(toasts)
      ensures reply.Replied? && reply.success && reply.data.None? ==>
        profile.None? && email == old(email) &&
        toasts == old(toasts) + [UseApi.Toast(UseApi.TITLE_ERROR, MSG_PROFILE_ERROR, true)]
      ensures reply.Replied? && !reply.success ==>
        profile == old(profile) && email == old(email) &&
        toasts == old(toasts) + [UseApi.Toast(UseApi.TITLE_ERROR, MSG_PROFILE_FAILED, true)]
      ensures reply.Threw? ==>
        profile == old(profile) && email == old(email) &&
        toasts == old(toasts) + [UseApi.Toast(UseApi.TITLE_ERROR, MSG_PROFILE_ERROR, true)]
      ensures currentPassword == old(currentPassword) && newPassword == old(newPassword)
      ensures confirmPassword == old(confirmPassword) && loading == old(loading)
    {
      BeginLoadProfile();
      FinishLoadProfile(reply);
    }

    /**
     * `updateEmail()`: a blank e-mail is refused before anything is sent. Otherwise the
     * trimmed e-mail is sent and the reply reported. On success the profile reload is
     * started and not awaited: when the handler ends, `loadingProfile` is on and the
     * reload's request is sent, while the profile and the field keep their values until
     * `FinishLoadProfile` handles its reply. `loading` ends either way.
     */
    method UpdateEmail(reply: Reply<()>)
      modifies this
      ensures EmailToSend(old(email)).None? ==>
        requests == old(requests) && loading == old(loading) &&
        toasts == old(toasts) + [UseApi.Toast(UseApi.TITLE_ERROR, MSG_EMAIL_EMPTY, true)]
      ensures EmailToSend(old(email)).Some? ==> !loading
      ensures EmailToSend(old(email)).Some? && reply.Replied? ==>
        toasts == old(toasts) + [ReplyToast(reply.success, reply.message, MSG_EMAIL_UPDATED, MSG_EMAIL_FAILED)] &&
        requests == old(requests) + [UpdateProfile(EmailToSend(old(email)).value)] + (if reply.success then [GetProfile] else [])
      ensures EmailToSend(old(email)).Some? && reply.Threw? ==>
        toasts == old(toasts) + [UseApi.Toast(UseApi.TITLE_ERROR, MSG_EMAIL_ERROR, true)] &&
        requests == old(requests) + [UpdateProfile(EmailToSend(old(email)).value)]
      ensures loadingProfile == if EmailToSend(old(email)).Some? && reply.Replied? && reply.success
                                then true else old(loadingProfile)
      ensures email == old(email) && profile == old(profile)
      ensures currentPassword == old(currentPassword) && newPassword == old(newPassword)
      ensures confirmPassword == old(confirmPassword)
    {
      var sent := EmailToSend(email);
      if sent.None? {
        toasts := toasts + [UseApi.Toast(UseApi.TITLE_ERROR, MSG_EMAIL_EMPTY, true)];
        return;
      }
      loading := true;
      requests := requests + [UpdateProfile(sent.value)];
      match reply {
        case Replied(success, message, _) =>
          toasts := toasts + [ReplyToast(success, message, MSG_EMAIL_UPDATED, MSG_EMAIL_FAILED)];
          if success {
            BeginLoadProfile();
          }
        case Threw =>
          toasts := toasts + [UseApi.Toast(UseApi.TITLE_ERROR, MSG_EMAIL_ERROR, true)];
      }
      loading := false;
    }

    /**
     * `changePassword()`: the first failing guard is reported and nothing is sent.
     * Otherwise the current and new passwords are sent; a successful reply clears all
     * three fields, any other ending keeps them. Loading ends either way.
     */
    method ChangePasswordAction(reply: Reply<()>)
      modifies this
      ensures var problem := PasswordProblem(old(currentPassword), old(newPassword), old(confirmPassword));
        problem.Some? ==>
          requests == old(requests) && loading == old(loading) &&
          currentPassword == old(currentPassword) && newPassword == old(newPassword) &&
          confirmPassword == old(confirmPassword) &&
          toasts == old(toasts) + [UseApi.Toast(UseApi.TITLE_ERROR, problem.value, true)]
      ensures PasswordProblem(old(currentPassword), old(newPassword), old(confirmPassword)).None? ==>
        !loading && requests == old(requests) + [ChangePassword(old(currentPassword), old(newPassword))]
      ensures PasswordProblem(old(currentPassword), old(newPassword), old(confirmPassword)).None? &&
              reply.Replied? ==>
        toasts == old(toasts) + [ReplyToast(reply.success, reply.message, MSG_PASSWORD_CHANGED, MSG_PASSWORD_FAILED)] &&
        (reply.success ==> currentPassword == "" && newPassword == "" && confirmPassword == "") &&
        (!reply.success ==> currentPassword == old(currentPassword) && newPassword == old(newPassword) &&
                             confirmPassword == old(confirmPassword))
      ensures PasswordProblem(old(currentPassword), old(newPassword), old(confirmPassword)).None? &&
              reply.Threw? ==>
        toasts == old(toasts) + [UseApi.Toast(UseApi.TITLE_ERROR, MSG_PASSWORD_ERROR, true)] &&
        currentPassword == old(currentPassword) && newPassword == old(newPassword) &&
        confirmPassword == old(confirmPassword)
      ensures email == old(email) && profile == old(profile) && loadingProfile == old(loadingProfile)
    {
      var problem := PasswordProblem(currentPassword, newPassword, confirmPassword);
      if problem.Some? {
        toasts := toasts + [UseApi.Toast(UseApi.TITLE_ERROR, problem.value, true)];
        return;
      }
      loading := true;
      requests := requests + [ChangePassword(currentPassword, newPassword)];
      match reply {
        case Replied(success, message, _) =>
          toasts := toasts + [ReplyToast(success, message, MSG_PASSWORD_CHANGED, MSG_PASSWORD_FAILED)];
          if success {
            currentPassword := "";
            newPassword := "";
            confirmPassword := "";
          }
        case Threw =>
          toasts := toasts + [UseApi.Toast(UseApi.TITLE_ERROR, MSG_PASSWORD_ERROR, true)];
      }
      loading := false;
    }

    /**
     * The save button's `disabled`: while a request runs, or while the field holds the
     * profile's own e-mail. With no profile loaded, `profile?.email` is `undefined`,
     * which no string equals.
     */
    function SaveEmailDisabled(): (d: bool)
      reads this
      ensures d <==> loading || (profile.Some? && email == profile.value.email)
      ensures profile.None? ==> (d <==> loading)
    {
      loading || (profile.Some? && email == profile.value.email)
    }
  }
}
