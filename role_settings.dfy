/**
 * src/components/settings/RoleSettings.tsx: the editable list of role limits.
 *
 * The component's `limits` state and its toasts become the fields of `RoleSettingsForm`.
 * The role limits loaded by `useApi` reach `onSuccess` as the hook's `JsValue`.
 * The settled `updateRoleLimits` call is the parameter `outcome`, read through
 * `useMutation` (`UseApi.MutateResult`).
 */
module RoleSettings {
  import opened Wrappers
  import opened Js
  import opened Api
  import Lists
  import UseApi
  import SettingsService

  type RoleLimit = SettingsService.RoleLimit

  const MSG_SAVED: string := "Ограничения ролей сохранены!"

  /** The five entries `onSuccess` would install on a falsy `data`. */
  const DEFAULT_LIMITS: seq<RoleLimit> := [
    SettingsService.RoleLimit("user_page_limit", "10", "Максимальное количество страниц для обычного пользователя"),
    SettingsService.RoleLimit("premium_page_limit", "100", "Максимальное количество страниц для премиум пользователя"),
    SettingsService.RoleLimit("guest_page_limit", "3", "Максимальное количество страниц для гостя"),
    SettingsService.RoleLimit("max_file_size", "5242880", "Максимальный размер файла в байтах (5MB)"),
    SettingsService.RoleLimit("max_page_content_length", "100000", "Максимальная длина содержимого страницы")
  ]

  /** The three members an input can edit. */
  datatype Field = SettingKey | SettingValue | Description

  /** `{ ...limit, [field]: value }`. */
  function SetField(l: RoleLimit, field: Field, value: string): (r: RoleLimit)
    ensures field == SettingKey ==> r == l.(setting_key := value)
    ensures field == SettingValue ==> r == l.(setting_value := value)
    ensures field == Description ==> r == l.(description := value)
  {
    match field
    case SettingKey => l.(setting_key := value)
    case SettingValue => l.(setting_value := value)
    case Description => l.(description := value)
  }

  /** An entry `saveRoleLimits` sends: both its key and its value are non-empty. */
  predicate Complete(l: RoleLimit)
  {
    l.setting_key != "" && l.setting_value != ""
  }

  /** `limits.filter(limit => limit.setting_key && limit.setting_value)`. */
  function SavedLimits(limits: seq<RoleLimit>): seq<RoleLimit>
  {
    Lists.Filter(limits, Complete)
  }

  /**
   * What is saved is exactly the complete entries, in their order; saving what was
   * saved sends the same list again.
   */
  lemma SavedLimitsSpec(limits: seq<RoleLimit>)
    ensures Lists.IsSubsequence(SavedLimits(limits), limits)
    ensures forall l :: l in SavedLimits(limits) <==> l in limits && Complete(l)
    ensures SavedLimits(SavedLimits(limits)) == SavedLimits(limits)
  {
    Lists.FilterIsSubsequence(limits, Complete);
    forall l
      ensures l in SavedLimits(limits) <==> l in limits && Complete(l)
    {
      Lists.FilterMembership(limits, Complete, l);
    }
    Lists.FilterIdempotent(limits, Complete);
  }

  /**
   * A blank row added by `addNewLimit` is never saved until both its key and its value
   * are filled in.
   */
  lemma BlankRowNotSaved(limits: seq<RoleLimit>)
    ensures SavedLimits(limits + [SettingsService.RoleLimit("", "", "")]) == SavedLimits(limits)
  {
    var blank := SettingsService.RoleLimit("", "", "");
    SavedLimitsAppend(limits, blank);
  }

  lemma {:induction false} SavedLimitsAppend(limits: seq<RoleLimit>, l: RoleLimit)
    ensures SavedLimits(limits + [l]) == SavedLimits(limits) + (if Complete(l) then [l] else [])
  {
    if limits != [] {
      assert (limits + [l])[1..] == limits[1..] + [l];
      SavedLimitsAppend(limits[1..], l);
    } else {
      assert [l][1..] == [];
    }
  }

  /** The list `onSuccess` installs: the rows for truthy data, the defaults otherwise. */
  function InstalledLimits(data: JsValue, rows: seq<RoleLimit>): (r: seq<RoleLimit>)
    ensures Truthy(data) ==> r == rows
    ensures !Truthy(data) ==> r == DEFAULT_LIMITS
  {
    if Truthy(data) then rows else DEFAULT_LIMITS
  }

  /**
   * `useApi` calls `onSuccess` only when it stores the data (`UseApi.EffectOf`), and what
   * it stores is truthy, so the defaults branch is never taken from the hook.
   */
  lemma DefaultsNeverInstalled(outcome: Outcome<ApiResponse<JsValue>>, rows: seq<RoleLimit>)
    requires UseApi.EffectOf(outcome).Stored?
    ensures InstalledLimits(UseApi.EffectOf(outcome).data, rows) == rows
  {
  }

  class RoleSettingsForm {
    var limits: seq<RoleLimit>
    var toasts: seq<UseApi.Toast>

    constructor ()
      ensures limits == [] && toasts == []
    {
      limits := [];
      toasts := [];
    }

    /**
     * `onSuccess(data)`: `data` as the hook passes it, and `rows` the entries it holds
     * when it is an array. Truthy data replaces the list, falsy data installs the five
     * defaults.
     */
    method OnSuccess(data: JsValue, rows: seq<RoleLimit>)
      modifies this
      ensures limits == InstalledLimits(data, rows)
      ensures toasts == old(toasts)
    {
      if Truthy(data) {
        limits := rows;
      } else {
        limits := DEFAULT_LIMITS;
      }
    }

    /** `handleLimitChange(index, field, value)`: only that member of that entry changes. */
    method HandleLimitChange(index: int, field: Field, value: string)
      modifies this
      ensures limits == Lists.UpdateAt(old(limits), index, l => SetField(l, field, value))
      ensures toasts == old(toasts)
    {
      limits := Lists.UpdateAt(limits, index, l => SetField(l, field, value));
    }

    /** `addNewLimit()`: one blank entry at the end. */
    method AddNewLimit()
      modifies this
      ensures limits == old(limits) + [SettingsService.RoleLimit("", "", "")]
      ensures toasts == old(toasts)
    {
      limits := limits + [SettingsService.RoleLimit("", "", "")];
    }

    /** `removeLimit(index)`: exactly that entry goes; an index outside the list removes nothing. */
    method RemoveLimit(index: int)
      modifies this
      ensures limits == Lists.WithoutIndex(old(limits), index)
      ensures toasts == old(toasts)
    {
      limits := Lists.WithoutIndex(limits, index);
    }

    /**
     * `saveRoleLimits()`: sends the complete entries and shows the success toast only when
     * `mutate` resolves to a truthy value; the list itself is left as it is.
     */
    method SaveRoleLimits(outcome: Outcome<ApiResponse<JsValue>>) returns (sent: seq<RoleLimit>)
      modifies this
      ensures sent == SavedLimits(old(limits))
      ensures limits == old(limits)
      ensures toasts == old(toasts) +
        (if Truthy(UseApi.MutateResult(outcome)) then [UseApi.Toast(UseApi.TITLE_SUCCESS, MSG_SAVED, false)] else [])
    {
      sent := SavedLimits(limits);
      var result := UseApi.MutateResult(outcome);
      if Truthy(result) {
        toasts := toasts + [UseApi.Toast(UseApi.TITLE_SUCCESS, MSG_SAVED, false)];
      }
    }
  }

  /**
   * A failed or rejected save never shows the success toast: `mutate` resolves to `null`
   * for both.
   */
  lemma FailedSaveIsSilent(outcome: Outcome<ApiResponse<JsValue>>)
    requires outcome.Rejected? || !outcome.value.success
    ensures !Truthy(UseApi.MutateResult(outcome))
  {
  }
}
