/**
 * src/components/admin/Communications.tsx: the push-notification form and the
 * newsletter form.
 *
 * The two form states become the fields `notification` and `newsletter` of
 * `CommunicationsPanel`. Neither handler sends anything: each shows a toast and resets
 * its form, so `sent` (a method's result) says whether the success path was taken.
 */
module Communications {
  import opened Js
  import UseApi

  datatype NotificationForm = NotificationForm(title: string, message: string, kind: string)
  datatype NewsletterForm = NewsletterForm(subject: string, content: string, recipients: string)

  const EMPTY_NOTIFICATION: NotificationForm := NotificationForm("", "", "info")
  const EMPTY_NEWSLETTER: NewsletterForm := NewsletterForm("", "", "all")

  const MSG_NOTIFICATION_FIELDS: string := "Заполните все поля уведомления"
  const MSG_NEWSLETTER_FIELDS: string := "Заполните все поля рассылки"

  /** `notification.title && notification.message`: both non-empty, nothing trimmed. */
  predicate NotificationComplete(f: NotificationForm)
  {
    f.title != "" && f.message != ""
  }

  /** `newsletter.subject && newsletter.content`. */
  predicate NewsletterComplete(f: NewsletterForm)
  {
    f.subject != "" && f.content != ""
  }

  /**
   * The guards do not trim: any title and message made only of white space pass as soon
   * as they are not empty, although `trim` leaves them empty; the same holds for the
   * newsletter's subject and content.
   */
  lemma BlankFieldsPass(f: NotificationForm, g: NewsletterForm)
    requires forall i :: 0 <= i < |f.title| ==> IsSpace(f.title[i])
    requires forall i :: 0 <= i < |f.message| ==> IsSpace(f.message[i])
    requires forall i :: 0 <= i < |g.subject| ==> IsSpace(g.subject[i])
    requires forall i :: 0 <= i < |g.content| ==> IsSpace(g.content[i])
    ensures Trim(f.title) == "" && Trim(f.message) == "" && Trim(g.subject) == "" && Trim(g.content) == ""
    ensures NotificationComplete(f) <==> |f.title| > 0 && |f.message| > 0
    ensures NewsletterComplete(g) <==> |g.subject| > 0 && |g.content| > 0
  {
    TrimEmptyIffBlank(f.title);
    TrimEmptyIffBlank(f.message);
    TrimEmptyIffBlank(g.subject);
    TrimEmptyIffBlank(g.content);
  }

  class CommunicationsPanel {
    var notification: NotificationForm
    var newsletter: NewsletterForm
    var toasts: seq<UseApi.Toast>

    constructor ()
      ensures notification == EMPTY_NOTIFICATION && newsletter == EMPTY_NEWSLETTER && toasts == []
    {
      notification := EMPTY_NOTIFICATION;
      newsletter := EMPTY_NEWSLETTER;
      toasts := [];
    }

    /**
     * `sendNotification()`: an incomplete form is refused and left as typed; a complete
     * one is reported sent and the form reset to an empty `info` notification, which a
     * second send refuses. The newsletter form is untouched either way.
     */
    method SendNotification() returns (sent: bool)
      modifies this
      ensures sent <==> NotificationComplete(old(notification))
      ensures !sent ==>
        notification == old(notification) &&
        toasts == old(toasts) + [UseApi.Toast(UseApi.TITLE_ERROR, MSG_NOTIFICATION_FIELDS, true)]
      ensures sent ==>
        notification == EMPTY_NOTIFICATION && !NotificationComplete(notification) &&
        toasts == old(toasts) + [UseApi.Toast("Уведомление отправлено", "Push-уведомление доставлено всем пользователям", false)]
      ensures newsletter == old(newsletter)
    {
      if !NotificationComplete(notification) {
        toasts := toasts + [UseApi.Toast(UseApi.TITLE_ERROR, MSG_NOTIFICATION_FIELDS, true)];
        return false;
      }
      toasts := toasts + [UseApi.Toast("Уведомление отправлено", "Push-уведомление доставлено всем пользователям", false)];
      notification := EMPTY_NOTIFICATION;
      sent := true;
    }

    /**
     * `sendNewsletter()`: an incomplete form is refused and left as typed; a complete one
     * is reported sent and the form reset, recipients back to `all`, which a second send
     * refuses.
     */
    method SendNewsletter() returns (sent: bool)
      modifies this
      ensures sent <==> NewsletterComplete(old(newsletter))
      ensures !sent ==>
        newsletter == old(newsletter) &&
        toasts == old(toasts) + [UseApi.Toast(UseApi.TITLE_ERROR, MSG_NEWSLETTER_FIELDS, true)]
      ensures sent ==>
        newsletter == EMPTY_NEWSLETTER && !NewsletterComplete(newsletter) &&
        toasts == old(toasts) + [UseApi.Toast("Рассылка отправлена", "Email рассылка запущена", false)]
      ensures notification == old(notification)
    {
      if !NewsletterComplete(newsletter) {
        toasts := toasts + [UseApi.Toast(UseApi.TITLE_ERROR, MSG_NEWSLETTER_FIELDS, true)];
        return false;
      }
      toasts := toasts + [UseApi.Toast("Рассылка отправлена", "Email рассылка запущена", false)];
      newsletter := EMPTY_NEWSLETTER;
      sent := true;
    }
  }
}
