/**
 * src/components/NotificationPopover.tsx: the unread count, the badge on the bell, and
 * the three states of the list.
 *
 * The component destructures `data: notifications = []` from `useApi`. A destructuring
 * default applies to `undefined` only, while `useApi` starts `data` at `null`
 * (`UseApi.Query` is constructed with `data == Null`) and keeps it there on every failed
 * call; `notifications.filter` on `null` throws. `HookData` separates the three cases.
 */
module NotificationPopover {
  import opened Wrappers
  import opened Js
  import Lists

  datatype Notification = Notification(id: int, title: string, message: string, kind: string,
                                       is_read: bool, created_at: string)

  /** The hook's `data` as the component receives it. */
  datatype HookData = Missing | NullData | Loaded(list: seq<Notification>)

  predicate Unread(n: Notification)
  {
    !n.is_read
  }

  /** `notifications.filter(n => !n.is_read).length`. */
  function UnreadCount(list: seq<Notification>): nat
  {
    |Lists.Filter(list, Unread)|
  }

  /**
   * The count never exceeds the list's length; it is 0 exactly when every notification
   * is read and the whole length exactly when none is.
   */
  lemma {:induction false} UnreadCountSpec(list: seq<Notification>)
    ensures UnreadCount(list) <= |list|
    ensures UnreadCount(list) == 0 <==> forall i :: 0 <= i < |list| ==> list[i].is_read
    ensures UnreadCount(list) == |list| <==> forall i :: 0 <= i < |list| ==> !list[i].is_read
  {
    if list != [] {
      var rest := list[1..];
      UnreadCountSpec(rest);
      UnreadCountCons(list);
      EveryElementCons(list);
    }
  }

  /** The count of a non-empty list: its head, if unread, plus the count of its tail. */
  lemma UnreadCountCons(list: seq<Notification>)
    requires list != []
    ensures UnreadCount(list) == (if list[0].is_read then 0 else 1) + UnreadCount(list[1..])
  {
  }

  /** A statement about every element of a non-empty list is one about its head and its tail. */
  lemma EveryElementCons(list: seq<Notification>)
    requires list != []
    ensures (forall i :: 0 <= i < |list| ==> list[i].is_read) <==>
            list[0].is_read && forall i :: 0 <= i < |list[1..]| ==> list[1..][i].is_read
    ensures (forall i :: 0 <= i < |list| ==> !list[i].is_read) <==>
            !list[0].is_read && forall i :: 0 <= i < |list[1..]| ==> !list[1..][i].is_read
  {
    assert forall i :: 1 <= i < |list| ==> list[i] == list[1..][i - 1];
  }

  /**
   * `const { data: notifications = [] } = ...`: the default replaces `undefined` only, so
   * `null` stays `null` (`None`).
   */
  function Destructured(d: HookData): (r: Option<seq<Notification>>)
    ensures d.Missing? ==> r == Some([])
    ensures d.NullData? ==> r.None?
    ensures d.Loaded? ==> r == Some(d.list)
  {
    match d
    case Missing => Some([])
    case NullData => None
    case Loaded(list) => Some(list)
  }

  /** The unread count as written: `None` when `.filter` is called on `null` and throws. */
  function UnreadCountAsWritten(d: HookData): Option<nat>
  {
    match Destructured(d)
    case None => None
    case Some(list) => Some(UnreadCount(list))
  }

  /**
   * The first render, and every render after a failed fetch, sees `null` and throws,
   * while an undefined `data` would have counted as an empty list.
   */
  lemma NullDataThrows()
    ensures UnreadCountAsWritten(NullData).None?
    ensures UnreadCountAsWritten(Missing) == Some(0)
  {
  }

  /** The count with `notifications ?? []`, the evidently intended default. */
  function UnreadCountIntended(d: HookData): (n: nat)
    ensures d.Loaded? ==> n == UnreadCount(d.list)
    ensures !d.Loaded? ==> n == 0
  {
    match d
    case Loaded(list) => UnreadCount(list)
    case _ => 0
  }

  /** With the intended default, every hook state has a count, and it never exceeds the list. */
  lemma IntendedCountDefined(d: HookData)
    ensures d.Loaded? ==> UnreadCountIntended(d) <= |d.list|
    ensures UnreadCountAsWritten(d).Some? ==> UnreadCountAsWritten(d) == Some(UnreadCountIntended(d))
  {
    if d.Loaded? {
      UnreadCountSpec(d.list);
    }
  }

  /** The bell's badge: absent unless there is something unread, capped at `99+`. */
  function BadgeLabel(count: int): (r: Option<string>)
    ensures r.None? <==> count <= 0
    ensures r == Some("99+") <==> count > 99
    ensures 0 < count <= 99 ==> r == Some(ShowInt(count))
  {
    if count <= 0 then None
    else if count > 99 then Some("99+")
    else
      var s := ShowInt(count);
      assert s != "99+" by {
        assert s == ShowNat(count);
        if |s| == 3 {
          assert IsDecimalDigit(s[2]);
        }
      }
      Some(s)
  }

  /** The popover header's `N новых` badge: shown under the same condition as the bell's. */
  function HeaderBadge(count: int): (r: Option<string>)
    ensures r.Some? <==> BadgeLabel(count).Some?
    ensures r.Some? ==> r.value == ShowInt(count) + " новых"
  {
    if count > 0 then Some(ShowInt(count) + " новых") else None
  }

  /** What the list area shows. */
  datatype Body = LoadingText | NoNotifications | Listed(items: seq<Notification>)

  /** While loading, the loading text whatever the list; then the empty text or the items. */
  function BodyOf(loading: bool, list: seq<Notification>): (b: Body)
    ensures b == LoadingText <==> loading
    ensures b == NoNotifications <==> !loading && list == []
    ensures b.Listed? ==> b.items == list && |list| > 0
  {
    if loading then LoadingText else if |list| == 0 then NoNotifications else Listed(list)
  }
}
