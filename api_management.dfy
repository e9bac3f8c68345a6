/**
 * src/components/admin/ApiManagement.tsx: the API key list, key generation, masking and
 * per-key visibility.
 *
 * The `apiKeys` slot (kept in `localStorage`), the `newApiKey` form and the `showKeys`
 * map become the fields of `KeysPanel`. `Date.now()`, today's date text and the two
 * random base-36 fragments of a new key are parameters.
 */
module ApiManagement {
  import opened Js
  import Lists
  import UseApi

  datatype ApiKey = ApiKey(id: int, name: string, key: string, status: string, permissions: seq<string>,
                           created: string, lastUsed: string, requests: int)

  /** The create form. */
  datatype KeyForm = KeyForm(name: string, permissions: seq<string>)

  const NEVER: string := "Никогда"
  const MSG_NAME_REQUIRED: string := "Введите название API ключа"

  /** `generateApiKey()`: `ck_`, then the two random fragments joined by `_`. */
  function GenerateApiKey(fragment1: string, fragment2: string): (k: string)
    ensures StartsWith(k, "ck_")
    ensures k[3..] == fragment1 + "_" + fragment2
  {
    "ck_" + fragment1 + "_" + fragment2
  }

  /** `key.substring(0, 12) + "..." + key.substring(key.length - 4)`. */
  function MaskKey(k: string): string
  {
    Substring(k, 0, 12) + "..." + Substring(k, |k| - 4, |k|)
  }

  /**
   * A key of at least 16 characters shows as its first 12 and last 4 characters around
   * `...`, 19 characters in all; the `|k| - 16` characters between them, none for a key
   * of exactly 16, are hidden.
   */
  lemma MaskLongKey(k: string)
    requires |k| >= 16
    ensures |MaskKey(k)| == 19
    ensures MaskKey(k) == k[..12] + "..." + k[|k| - 4..]
  {
  }

  /**
   * A key of at most 12 characters is not hidden at all: its mask starts with the whole
   * key.
   */
  lemma MaskShortKeyRevealsAll(k: string)
    requires |k| <= 12
    ensures |MaskKey(k)| >= |k| && MaskKey(k)[..|k|] == k
  {
    assert Substring(k, 0, 12) == k;
  }

  /** `showKeys[id]`: an id never toggled counts as hidden. */
  function Visible(showKeys: map<int, bool>, id: int): bool
  {
    id in showKeys && showKeys[id]
  }

  /** `{ ...prev, [keyId]: !prev[keyId] }`. */
  function ToggleVisibility(showKeys: map<int, bool>, id: int): (r: map<int, bool>)
    ensures Visible(r, id) == !Visible(showKeys, id)
    ensures forall other :: other != id ==> Visible(r, other) == Visible(showKeys, other)
  {
    showKeys[id := !Visible(showKeys, id)]
  }

  /** The first toggle reveals a key, and two toggles restore what was shown. */
  lemma ToggleSpec(showKeys: map<int, bool>, id: int, other: int)
    ensures id !in showKeys ==> Visible(ToggleVisibility(showKeys, id), id)
    ensures Visible(ToggleVisibility(ToggleVisibility(showKeys, id), id), other) == Visible(showKeys, other)
  {
  }

  /** What a key row shows: the key itself when visible, its mask otherwise. */
  function Shown(showKeys: map<int, bool>, k: ApiKey): string
  {
    if Visible(showKeys, k.id) then k.key else MaskKey(k.key)
  }

  function KeyId(k: ApiKey): int { k.id }

  class KeysPanel {
    var apiKeys: seq<ApiKey>
    var newApiKey: KeyForm
    var showKeys: map<int, bool>
    var toasts: seq<UseApi.Toast>

    constructor (keys0: seq<ApiKey>)
      ensures apiKeys == keys0 && newApiKey == KeyForm("", []) && showKeys == map[] && toasts == []
    {
      apiKeys := keys0;
      newApiKey := KeyForm("", []);
      showKeys := map[];
      toasts := [];
    }

    /**
     * `handleCreateApiKey()`: an empty name is refused and nothing but the toasts
     * changes; otherwise a fresh active key with no requests, never used, carrying the
     * form's permissions, is appended and the form reset.
     */
    method HandleCreateApiKey(now: int, today: string, fragment1: string, fragment2: string)
      modifies this
      ensures old(newApiKey).name == "" ==>
        apiKeys == old(apiKeys) && newApiKey == old(newApiKey) &&
        toasts == old(toasts) + [UseApi.Toast(UseApi.TITLE_ERROR, MSG_NAME_REQUIRED, true)]
      ensures old(newApiKey).name != "" ==>
        apiKeys == old(apiKeys) + [ApiKey(now, old(newApiKey).name, GenerateApiKey(fragment1, fragment2),
                                          "active", old(newApiKey).permissions, today, NEVER, 0)] &&
        newApiKey == KeyForm("", []) && |toasts| == |old(toasts)| + 1
      ensures showKeys == old(showKeys)
    {
      if newApiKey.name == "" {
        toasts := toasts + [UseApi.Toast(UseApi.TITLE_ERROR, MSG_NAME_REQUIRED, true)];
        return;
      }
      var created := ApiKey(now, newApiKey.name, GenerateApiKey(fragment1, fragment2), "active",
                            newApiKey.permissions, today, NEVER, 0);
      apiKeys := apiKeys + [created];
      toasts := toasts + [UseApi.Toast("API ключ создан", "Новый API ключ \"" + newApiKey.name + "\" успешно создан", false)];
      newApiKey := KeyForm("", []);
    }

    /** `handleDeleteApiKey(id)`: every key with that id goes, the rest stay in order; the toast shows either way. */
    method HandleDeleteApiKey(id: int)
      modifies this
      ensures apiKeys == Lists.Filter(old(apiKeys), k => KeyId(k) != id)
      ensures newApiKey == old(newApiKey) && showKeys == old(showKeys) && |toasts| == |old(toasts)| + 1
    {
      apiKeys := Lists.Filter(apiKeys, k => KeyId(k) != id);
      toasts := toasts + [UseApi.Toast("API ключ удален", "API ключ успешно удален", false)];
    }

    /** `handleToggleKeyVisibility(id)`. */
    method HandleToggleKeyVisibility(id: int)
      modifies this
      ensures showKeys == ToggleVisibility(old(showKeys), id)
      ensures apiKeys == old(apiKeys) && newApiKey == old(newApiKey) && toasts == old(toasts)
    {
      showKeys := ToggleVisibility(showKeys, id);
    }
  }

  /** Deleting removes exactly the keys with that id and keeps the order of the others. */
  lemma DeleteSpec(keys: seq<ApiKey>, id: int)
    ensures Lists.IsSubsequence(Lists.Filter(keys, k => KeyId(k) != id), keys)
    ensures forall k :: k in Lists.Filter(keys, k => KeyId(k) != id) <==> k in keys && k.id != id
  {
    Lists.FilterIsSubsequence(keys, k => KeyId(k) != id);
    forall k
      ensures k in Lists.Filter(keys, k => KeyId(k) != id) <==> k in keys && k.id != id
    {
      Lists.FilterMembership(keys, k => KeyId(k) != id, k);
    }
  }
}
