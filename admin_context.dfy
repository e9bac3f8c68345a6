/**
 * src/contexts/AdminContext.tsx: the four lists the admin screens share (users, pages,
 * automation rules, system alerts) and their add / update / delete operations.
 *
 * Each `useLocalStorage` slot becomes a field of `AdminStore`; each setter's updater
 * (spread-append, `map`, `filter`) is a function on sequences, proved once for every
 * record kind. New ids are `Date.now()`, the parameter `now`. Persisting the lists to
 * `localStorage` is not modelled.
 */
module AdminContext {
  import opened Wrappers
  import Lists

  datatype User = User(id: int, email: string, name: string, status: string, pages: int,
                       lastActive: string, premium: bool)

  datatype Page = Page(id: int, title: string, author: string, created: string, size: int,
                       status: string, reports: int)

  datatype AutomationRule = AutomationRule(id: int, name: string, description: string, status: string,
                                           triggered: int, lastTrigger: string)

  datatype SystemAlert = SystemAlert(id: int, kind: string, message: string, timestamp: string, resolved: bool)

  /** A `Partial<User>`: each member present replaces the user's own, `id` included. */
  datatype UserPatch = UserPatch(id: Option<int>, email: Option<string>, name: Option<string>,
                                 status: Option<string>, pages: Option<int>, lastActive: Option<string>,
                                 premium: Option<bool>)

  datatype PagePatch = PagePatch(id: Option<int>, title: Option<string>, author: Option<string>,
                                 created: Option<string>, size: Option<int>, status: Option<string>,
                                 reports: Option<int>)

  datatype RulePatch = RulePatch(id: Option<int>, name: Option<string>, description: Option<string>,
                                 status: Option<string>, triggered: Option<int>, lastTrigger: Option<string>)

  function Pick<T>(patch: Option<T>, current: T): T
  {
    if patch.Some? then patch.value else current
  }

  /** `{ ...user, ...updates }`. */
  function MergeUser(u: User, p: UserPatch): User
  {
    User(Pick(p.id, u.id), Pick(p.email, u.email), Pick(p.name, u.name), Pick(p.status, u.status),
         Pick(p.pages, u.pages), Pick(p.lastActive, u.lastActive), Pick(p.premium, u.premium))
  }

  function MergePage(g: Page, p: PagePatch): Page
  {
    Page(Pick(p.id, g.id), Pick(p.title, g.title), Pick(p.author, g.author), Pick(p.created, g.created),
         Pick(p.size, g.size), Pick(p.status, g.status), Pick(p.reports, g.reports))
  }

  function MergeRule(r: AutomationRule, p: RulePatch): AutomationRule
  {
    AutomationRule(Pick(p.id, r.id), Pick(p.name, r.name), Pick(p.description, r.description),
                   Pick(p.status, r.status), Pick(p.triggered, r.triggered), Pick(p.lastTrigger, r.lastTrigger))
  }

  /** An empty patch changes nothing; a merged member takes the patch's value. */
  lemma MergeProperties(u: User, p: UserPatch)
    ensures MergeUser(u, UserPatch(None, None, None, None, None, None, None)) == u
    ensures p.email.Some? ==> MergeUser(u, p).email == p.email.value
    ensures p.email.None? ==> MergeUser(u, p).email == u.email
    ensures p.id.None? ==> MergeUser(u, p).id == u.id
  {
  }

  /** `prev.map(x => x.id === id ? f(x) : x)`. */
  function PatchWhere<T>(s: seq<T>, idOf: T -> int, id: int, f: T -> T): (r: seq<T>)
    ensures |r| == |s|
    ensures forall i :: 0 <= i < |s| ==> r[i] == (if idOf(s[i]) == id then f(s[i]) else s[i])
  {
    Lists.MapWhere(s, x => idOf(x) == id, f)
  }

  /** `prev.filter(x => x.id !== id)`. */
  function RemoveWhere<T>(s: seq<T>, idOf: T -> int, id: int): (r: seq<T>)
    ensures |r| <= |s|
  {
    Lists.Filter(s, x => idOf(x) != id)
  }

  /**
   * Deleting removes every element with the id, keeps every other one, and keeps the
   * survivors in their order.
   */
  lemma RemoveWhereSpec<T>(s: seq<T>, idOf: T -> int, id: int)
    ensures Lists.IsSubsequence(RemoveWhere(s, idOf, id), s)
    ensures forall x :: x in RemoveWhere(s, idOf, id) <==> x in s && idOf(x) != id
  {
    Lists.FilterIsSubsequence(s, x => idOf(x) != id);
    forall x
      ensures x in RemoveWhere(s, idOf, id) <==> x in s && idOf(x) != id
    {
      Lists.FilterMembership(s, x => idOf(x) != id, x);
    }
  }

  /** Updating, resolving or deleting an id no element has leaves the list as it was. */
  lemma AbsentIdChangesNothing<T>(s: seq<T>, idOf: T -> int, id: int, f: T -> T)
    requires forall i :: 0 <= i < |s| ==> idOf(s[i]) != id
    ensures PatchWhere(s, idOf, id, f) == s
    ensures RemoveWhere(s, idOf, id) == s
  {
    Lists.MapWhereNoHit(s, x => idOf(x) == id, f);
    Lists.FilterKeepsAll(s, x => idOf(x) != id);
  }

  function UserId(u: User): int { u.id }
  function PageId(p: Page): int { p.id }
  function RuleId(r: AutomationRule): int { r.id }
  function AlertId(a: SystemAlert): int { a.id }

  /** `{ ...alert, resolved: true }`. */
  function Resolve(a: SystemAlert): SystemAlert
  {
    a.(resolved := true)
  }

  /**
   * `resolveAlert(id)` marks exactly the alerts with that id as resolved, changes no
   * other member, and doing it twice is the same as once.
   */
  lemma ResolveSpec(alerts: seq<SystemAlert>, id: int)
    ensures var r := PatchWhere(alerts, AlertId, id, Resolve);
      |r| == |alerts| &&
      (forall i :: 0 <= i < |r| ==> r[i].resolved == (alerts[i].resolved || alerts[i].id == id)) &&
      (forall i :: 0 <= i < |r| ==> r[i].(resolved := alerts[i].resolved) == alerts[i]) &&
      PatchWhere(r, AlertId, id, Resolve) == r
  {
    var r := PatchWhere(alerts, AlertId, id, Resolve);
    var rr := PatchWhere(r, AlertId, id, Resolve);
    assert |rr| == |r|;
    forall i | 0 <= i < |r|
      ensures rr[i] == r[i]
    {
    }
  }

  /**
   * Ids are not checked for uniqueness. When `Date.now()` repeats the id of a user already
   * in the list, the two users share one fate afterwards: `deleteUser` of that id removes
   * both, and `updateUser` of that id patches both.
   */
  lemma DuplicateIdSharesFate(users: seq<User>, u: User, now: int, k: int, patch: UserPatch)
    requires 0 <= k < |users| && users[k].id == now
    ensures var added := users + [u.(id := now)];
      var removed := RemoveWhere(added, UserId, now);
      users[k] !in removed && u.(id := now) !in removed &&
      (forall x :: x in removed <==> x in users && x.id != now)
    ensures var added := users + [u.(id := now)];
      var patched := PatchWhere(added, UserId, now, x => MergeUser(x, patch));
      patched[k] == MergeUser(users[k], patch) && patched[|users|] == MergeUser(u.(id := now), patch)
  {
    var added := users + [u.(id := now)];
    RemoveWhereSpec(added, UserId, now);
    forall x
      ensures x in added && x.id != now <==> x in users && x.id != now
    {
    }
  }

  class AdminStore {
    var users: seq<User>
    var pages: seq<Page>
    var automationRules: seq<AutomationRule>
    var alerts: seq<SystemAlert>

    constructor (users0: seq<User>, pages0: seq<Page>, rules0: seq<AutomationRule>, alerts0: seq<SystemAlert>)
      ensures users == users0 && pages == pages0 && automationRules == rules0 && alerts == alerts0
    {
      users := users0;
      pages := pages0;
      automationRules := rules0;
      alerts := alerts0;
    }

    /** `addUser`: appended at the end with `Date.now()` as id. */
    method AddUser(u: User, now: int)
      modifies this
      ensures users == old(users) + [u.(id := now)]
      ensures pages == old(pages) && automationRules == old(automationRules) && alerts == old(alerts)
    {
      users := users + [u.(id := now)];
    }

    method UpdateUser(id: int, patch: UserPatch)
      modifies this
      ensures users == PatchWhere(old(users), UserId, id, u => MergeUser(u, patch))
      ensures pages == old(pages) && automationRules == old(automationRules) && alerts == old(alerts)
    {
      users := PatchWhere(users, UserId, id, u => MergeUser(u, patch));
    }

    method DeleteUser(id: int)
      modifies this
      ensures users == RemoveWhere(old(users), UserId, id)
      ensures pages == old(pages) && automationRules == old(automationRules) && alerts == old(alerts)
    {
      users := RemoveWhere(users, UserId, id);
    }

    method AddPage(p: Page, now: int)
      modifies this
      ensures pages == old(pages) + [p.(id := now)]
      ensures users == old(users) && automationRules == old(automationRules) && alerts == old(alerts)
    {
      pages := pages + [p.(id := now)];
    }

    method UpdatePage(id: int, patch: PagePatch)
      modifies this
      ensures pages == PatchWhere(old(pages), PageId, id, p => MergePage(p, patch))
      ensures users == old(users) && automationRules == old(automationRules) && alerts == old(alerts)
    {
      pages := PatchWhere(pages, PageId, id, p => MergePage(p, patch));
    }

    method DeletePage(id: int)
      modifies this
      ensures pages == RemoveWhere(old(pages), PageId, id)
      ensures users == old(users) && automationRules == old(automationRules) && alerts == old(alerts)
    {
      pages := RemoveWhere(pages, PageId, id);
    }

    method AddAutomationRule(r: AutomationRule, now: int)
      modifies this
      ensures automationRules == old(automationRules) + [r.(id := now)]
      ensures users == old(users) && pages == old(pages) && alerts == old(alerts)
    {
      automationRules := automationRules + [r.(id := now)];
    }

    method UpdateAutomationRule(id: int, patch: RulePatch)
      modifies this
      ensures automationRules == PatchWhere(old(automationRules), RuleId, id, r => MergeRule(r, patch))
      ensures users == old(users) && pages == old(pages) && alerts == old(alerts)
    {
      automationRules := PatchWhere(automationRules, RuleId, id, r => MergeRule(r, patch));
    }

    method DeleteAutomationRule(id: int)
      modifies this
      ensures automationRules == RemoveWhere(old(automationRules), RuleId, id)
      ensures users == old(users) && pages == old(pages) && alerts == old(alerts)
    {
      automationRules := RemoveWhere(automationRules, RuleId, id);
    }

    /** `addAlert`: the new alert goes first, before the older ones. */
    method AddAlert(a: SystemAlert, now: int)
      modifies this
      ensures alerts == [a.(id := now)] + old(alerts)
      ensures users == old(users) && pages == old(pages) && automationRules == old(automationRules)
    {
      alerts := [a.(id := now)] + alerts;
    }

    method ResolveAlert(id: int)
      modifies this
      ensures alerts == PatchWhere(old(alerts), AlertId, id, Resolve)
      ensures users == old(users) && pages == old(pages) && automationRules == old(automationRules)
    {
      alerts := PatchWhere(alerts, AlertId, id, Resolve);
    }

    method DeleteAlert(id: int)
      modifies this
      ensures alerts == RemoveWhere(old(alerts), AlertId, id)
      ensures users == old(users) && pages == old(pages) && automationRules == old(automationRules)
    {
      alerts := RemoveWhere(alerts, AlertId, id);
    }
  }
}
