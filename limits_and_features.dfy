/**
 * src/components/admin/LimitsAndFeatures.tsx: per-tier usage limits and the feature
 * matrix.
 *
 * The component reads `userLimits` and `userFeatures` from `useAdmin()` and calls
 * `updateUserLimits`, `updateUserFeatures`, `addUserFeature` and `deleteUserFeature` on
 * it, none of which the AdminContext provider defines (`ContextMembersMissing`). What those
 * calls would do is therefore unknown: the panel records each call it makes, in order,
 * in `calls`, and takes the feature list it searches as the field `features`.
 */
module LimitsAndFeatures {
  import opened Wrappers
  import opened Js
  import UseApi

  /** One tier's limits. */
  datatype TierLimits = TierLimits(maxPages: int, storageLimit: int, dailyExports: int)
  datatype Limits = Limits(guest: TierLimits, registered: TierLimits, premium: TierLimits)

  datatype Feature = Feature(id: int, name: string, description: string, guest: bool, registered: bool, premium: bool)

  /** The new-feature form. */
  datatype FeatureForm = FeatureForm(name: string, description: string, guest: bool, registered: bool, premium: bool)

  const EMPTY_FORM: FeatureForm := FeatureForm("", "", false, false, true)

  datatype Tier = Guest | Registered | Premium
  datatype LimitField = MaxPages | StorageLimit | DailyExports

  /** A call the panel makes on the admin context. */
  datatype ContextCall =
    | UpdateUserLimits(limits: Limits)
    | AddUserFeature(form: FeatureForm)
    | UpdateUserFeatures(id: int, feature: Feature)
    | DeleteUserFeature(id: int)

  const MSG_NAME_REQUIRED: string := "Укажите название функции"

  /** The members the AdminContext provider puts in its value. */
  const ADMIN_CONTEXT_MEMBERS: set<string> := {
    "users", "pages", "automationRules", "alerts", "addUser", "updateUser", "deleteUser",
    "addPage", "updatePage", "deletePage", "addAutomationRule", "updateAutomationRule",
    "deleteAutomationRule", "addAlert", "resolveAlert", "deleteAlert"
  }

  /** The members this panel destructures from `useAdmin()`. */
  const PANEL_MEMBERS: set<string> := {
    "userLimits", "userFeatures", "updateUserLimits", "updateUserFeatures", "addUserFeature", "deleteUserFeature"
  }

  /**
   * None of the members the panel needs is provided: each reads as `undefined`, so the
   * first render's `editingLimits.guest` throws.
   */
  lemma ContextMembersMissing()
    ensures PANEL_MEMBERS * ADMIN_CONTEXT_MEMBERS == {}
  {
  }

  /** `parseInt(e.target.value) || 0`. */
  function ParseLimit(input: string): (n: int)
    ensures ParseInt(input).NaN? ==> n == 0
    ensures ParseInt(input).Num? ==> n == ParseInt(input).n
  {
    ParseIntOrZero(input)
  }

  /**
   * Every integer the input shows is stored as is, negative ones included; text without
   * a digit, the cleared input `""` among it, is stored as 0.
   */
  lemma ParseLimitSpec(n: int, text: string)
    requires forall i :: 0 <= i < |text| ==> !IsDecimalDigit(text[i])
    ensures ParseLimit(ShowInt(n)) == n
    ensures ParseLimit(text) == 0
    ensures ParseLimit("") == 0
  {
    ParseIntShowInt(n);
    ParseIntNoDigits(text);
    ParseIntNoDigits("");
  }

  function SetTierField(t: TierLimits, field: LimitField, value: int): TierLimits
  {
    match field
    case MaxPages => t.(maxPages := value)
    case StorageLimit => t.(storageLimit := value)
    case DailyExports => t.(dailyExports := value)
  }

  function TierOf(l: Limits, tier: Tier): TierLimits
  {
    match tier
    case Guest => l.guest
    case Registered => l.registered
    case Premium => l.premium
  }

  /** One limit input's `onChange`: that tier's one field takes the parsed value. */
  function EditLimit(l: Limits, tier: Tier, field: LimitField, input: string): (r: Limits)
    ensures forall t :: t != tier ==> TierOf(r, t) == TierOf(l, t)
    ensures TierOf(r, tier) == SetTierField(TierOf(l, tier), field, ParseLimit(input))
  {
    var v := ParseLimit(input);
    match tier
    case Guest => l.(guest := SetTierField(l.guest, field, v))
    case Registered => l.(registered := SetTierField(l.registered, field, v))
    case Premium => l.(premium := SetTierField(l.premium, field, v))
  }

  /** `{ ...feature, [userType]: !currentValue }`. */
  function Toggled(f: Feature, tier: Tier, currentValue: bool): (r: Feature)
    ensures r.id == f.id && r.name == f.name && r.description == f.description
    ensures r.guest == (if tier == Guest then !currentValue else f.guest)
    ensures r.registered == (if tier == Registered then !currentValue else f.registered)
    ensures r.premium == (if tier == Premium then !currentValue else f.premium)
  {
    match tier
    case Guest => f.(guest := !currentValue)
    case Registered => f.(registered := !currentValue)
    case Premium => f.(premium := !currentValue)
  }

  /** `userFeatures.find(f => f.id === featureId)`: the first feature with that id. */
  function Find(features: seq<Feature>, id: int): (r: Option<Feature>)
    ensures r.None? <==> forall i :: 0 <= i < |features| ==> features[i].id != id
    ensures r.Some? ==> r.value in features && r.value.id == id
    ensures r.Some? ==>
      exists k :: 0 <= k < |features| && features[k] == r.value && (forall j :: 0 <= j < k ==> features[j].id != id)
  {
    if features == [] then None
    else if features[0].id == id then Some(features[0])
    else Find(features[1..], id)
  }

  class Panel {
    var features: seq<Feature>
    var editingLimits: Limits
    var newFeature: FeatureForm
    var dialogOpen: bool
    var calls: seq<ContextCall>
    var toasts: seq<UseApi.Toast>

    constructor (features0: seq<Feature>, limits0: Limits)
      ensures features == features0 && editingLimits == limits0
      ensures newFeature == EMPTY_FORM && !dialogOpen && calls == [] && toasts == []
    {
      features := features0;
      editingLimits := limits0;
      newFeature := EMPTY_FORM;
      dialogOpen := false;
      calls := [];
      toasts := [];
    }

    /** A limit input changed: only the local copy is edited, nothing is sent. */
    method OnLimitInput(tier: Tier, field: LimitField, input: string)
      modifies this
      ensures editingLimits == EditLimit(old(editingLimits), tier, field, input)
      ensures calls == old(calls) && features == old(features) && newFeature == old(newFeature)
      ensures dialogOpen == old(dialogOpen) && toasts == old(toasts)
    {
      editingLimits := EditLimit(editingLimits, tier, field, input);
    }

    /** `handleSaveLimits()`: the whole local copy is pushed at once. */
    method HandleSaveLimits()
      modifies this
      ensures calls == old(calls) + [UpdateUserLimits(old(editingLimits))]
      ensures |toasts| == |old(toasts)| + 1
      ensures editingLimits == old(editingLimits) && features == old(features) && newFeature == old(newFeature)
      ensures dialogOpen == old(dialogOpen)
    {
      calls := calls + [UpdateUserLimits(editingLimits)];
      toasts := toasts + [UseApi.Toast("Лимиты обновлены", "Новые лимиты пользователей сохранены", false)];
    }

    /**
     * `handleAddFeature()`: an empty name is refused with an error toast and nothing
     * else changes; otherwise the form is sent, reset and the dialog closed.
     */
    method HandleAddFeature()
      modifies this
      ensures old(newFeature).name == "" ==>
        calls == old(calls) && newFeature == old(newFeature) && dialogOpen == old(dialogOpen) &&
        toasts == old(toasts) + [UseApi.Toast(UseApi.TITLE_ERROR, MSG_NAME_REQUIRED, true)]
      ensures old(newFeature).name != "" ==>
        calls == old(calls) + [AddUserFeature(old(newFeature))] && newFeature == EMPTY_FORM && !dialogOpen &&
        |toasts| == |old(toasts)| + 1
      ensures features == old(features) && editingLimits == old(editingLimits)
    {
      if newFeature.name == "" {
        toasts := toasts + [UseApi.Toast(UseApi.TITLE_ERROR, MSG_NAME_REQUIRED, true)];
        return;
      }
      calls := calls + [AddUserFeature(newFeature)];
      toasts := toasts + [UseApi.Toast("Функция добавлена", "Функция \"" + newFeature.name + "\" успешно добавлена", false)];
      newFeature := EMPTY_FORM;
      dialogOpen := false;
    }

    /**
     * `handleToggleFeature(id, tier, currentValue)`: for a known id, sends the feature
     * with only that tier's flag set to `!currentValue`; for an unknown id, does nothing.
     */
    method HandleToggleFeature(id: int, tier: Tier, currentValue: bool)
      modifies this
      ensures Find(features, id).None? ==> calls == old(calls) && toasts == old(toasts)
      ensures Find(features, id).Some? ==>
        calls == old(calls) + [UpdateUserFeatures(id, Toggled(Find(features, id).value, tier, currentValue))] &&
        |toasts| == |old(toasts)| + 1
      ensures features == old(features) && editingLimits == old(editingLimits)
      ensures newFeature == old(newFeature) && dialogOpen == old(dialogOpen)
    {
      var found := Find(features, id);
      if found.Some? {
        calls := calls + [UpdateUserFeatures(id, Toggled(found.value, tier, currentValue))];
        toasts := toasts + [UseApi.Toast("Функция обновлена", "Доступ к функции \"" + found.value.name + "\" изменен", false)];
      }
    }

    /** `handleDeleteFeature(id)`: a delete is sent only for a known id. */
    method HandleDeleteFeature(id: int)
      modifies this
      ensures Find(features, id).None? ==> calls == old(calls) && toasts == old(toasts)
      ensures Find(features, id).Some? ==> calls == old(calls) + [DeleteUserFeature(id)] && |toasts| == |old(toasts)| + 1
      ensures features == old(features) && editingLimits == old(editingLimits)
      ensures newFeature == old(newFeature) && dialogOpen == old(dialogOpen)
    {
      var found := Find(features, id);
      if found.Some? {
        calls := calls + [DeleteUserFeature(id)];
        toasts := toasts + [UseApi.Toast("Функция удалена", "Функция \"" + found.value.name + "\" удалена", false)];
      }
    }
  }
}
