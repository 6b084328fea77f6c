/** The settings screen of app/settings.tsx: validating and saving the Groq API key,
    clearing it, pasting it from the clipboard, and loading the saved state. */
module SettingsScreen {
  import opened Wrappers
  import opened Strings

  const KeyPrefix := "gsk_"
  const BlankKeyMessage := "Please enter a valid API key"
  const PrefixMessage := "Groq API keys should start with \"gsk_\""
  const SavedMessage := "API key saved successfully!"
  const SaveFailedMessage := "Failed to save API key"
  const ClearedMessage := "API key cleared"
  const ClearFailedMessage := "Failed to clear API key"
  const PasteFailedMessage := "Failed to paste from clipboard"

  /** An `Alert.alert(title, message)` shown to the user. */
  datatype Alert = Alert(title: string, message: string)

  /** The two checks of `handleSaveApiKey`, in order: non-blank after trimming, then
      the `gsk_` prefix on the untrimmed input. */
  predicate Accepts(apiKey: string) {
    Trim(apiKey) != "" && StartsWith(apiKey, KeyPrefix)
  }

  /** `hasApiKey()` on a stored value: present and non-empty. */
  predicate HasApiKey(saved: Option<string>) {
    saved.Some? && |saved.value| > 0
  }

  /** The blank check never rejects anything the prefix check lets through: a key is
      accepted exactly when it starts with `gsk_`, so leading whitespace is rejected. */
  lemma AcceptsIffPrefixed(apiKey: string)
    ensures Accepts(apiKey) <==> StartsWith(apiKey, KeyPrefix)
    ensures apiKey != [] && IsJsWhitespace(apiKey[0]) ==> !Accepts(apiKey)
  {
    if StartsWith(apiKey, KeyPrefix) {
      assert apiKey[0] == 'g';
      TrimEmptyIffBlank(apiKey);
    }
  }

  /** What an accepted key is stored as still starts with `gsk_`, has no surrounding
      whitespace, and is truthy, so the services will use it and loading the
      settings afterwards shows a key as configured. */
  lemma StoredKeyIsUsable(apiKey: string)
    requires Accepts(apiKey)
    ensures StartsWith(Trim(apiKey), KeyPrefix)
    ensures !IsJsWhitespace(Trim(apiKey)[0]) && !IsJsWhitespace(Trim(apiKey)[|Trim(apiKey)| - 1])
    ensures Truthy(Some(Trim(apiKey))) && HasApiKey(Some(Trim(apiKey)))
  {
    TrimKeepsPrefix(apiKey, KeyPrefix);
  }

  /** The secure store's entry for the key (None when nothing is stored). */
  class KeyStore {
    var saved: Option<string>

    constructor (saved: Option<string>)
      ensures this.saved == saved
    {
      this.saved := saved;
    }
  }

  /** The state of the settings screen: the input field, whether a key is
      configured, and the saving indicator. */
  class Screen {
    var apiKey: string
    var apiKeyConfigured: bool
    var loading: bool

    /** The first render: empty input, no key configured, not saving. */
    constructor ()
      ensures apiKey == "" && !apiKeyConfigured && !loading
    {
      apiKey := "";
      apiKeyConfigured := false;
      loading := false;
    }

    /** `loadSettings`: the input takes the saved key only when it is truthy, and the
        configured flag becomes `hasApiKey()`. */
    method LoadSettings(store: KeyStore)
      modifies this
      ensures apiKey == (if Truthy(store.saved) then store.saved.value else old(apiKey))
      ensures apiKeyConfigured == HasApiKey(store.saved)
      ensures loading == old(loading)
    {
      var savedApiKey := store.saved;
      var hasKey := HasApiKey(store.saved);
      if Truthy(savedApiKey) {
        apiKey := savedApiKey.value;
      }
      apiKeyConfigured := hasKey;
    }

    /** `handleSaveApiKey`. A rejected input changes nothing; an accepted one is
        stored trimmed, with the saving indicator set before the store is written
        (`loadingWhileSaving` records that assignment) and off afterwards. The configured flag is set only
        when the store succeeds; `storeFails` says whether it throws. */
    method HandleSaveApiKey(store: KeyStore, storeFails: bool)
      returns (alert: Alert, ghost loadingWhileSaving: bool)
      modifies this, store
      ensures apiKey == old(apiKey)
      ensures Trim(old(apiKey)) == "" ==>
        alert == Alert("Error", BlankKeyMessage)
      ensures Trim(old(apiKey)) != "" && !StartsWith(old(apiKey), KeyPrefix) ==>
        alert == Alert("Error", PrefixMessage)
      ensures !Accepts(old(apiKey)) ==>
        && store.saved == old(store.saved)
        && apiKeyConfigured == old(apiKeyConfigured) && loading == old(loading)
      ensures Accepts(old(apiKey)) ==> loadingWhileSaving && !loading
      ensures Accepts(old(apiKey)) && !storeFails ==>
        && store.saved == Some(Trim(old(apiKey)))
        && apiKeyConfigured
        && alert == Alert("Success", SavedMessage)
      ensures Accepts(old(apiKey)) && storeFails ==>
        && store.saved == old(store.saved)
        && apiKeyConfigured == old(apiKeyConfigured)
        && alert == Alert("Error", SaveFailedMessage)
    {
      var key := apiKey;
      loadingWhileSaving := loading;
      if Trim(key) == "" {
        alert := Alert("Error", BlankKeyMessage);
      } else if !StartsWith(key, KeyPrefix) {
        alert := Alert("Error", PrefixMessage);
      } else {
        loading := true;
        loadingWhileSaving := loading;
        if !storeFails {
          store.saved := Some(Trim(key));
          apiKeyConfigured := true;
          alert := Alert("Success", SavedMessage);
        } else {
          alert := Alert("Error", SaveFailedMessage);
        }
        loading := false;
      }
    }

    /** `handleClearApiKey`: nothing happens until the user confirms; a clear that
        succeeds empties the store and the input and unsets the flag, one that
        throws (`clearFails`) leaves everything as it was. */
    method HandleClearApiKey(store: KeyStore, confirmed: bool, clearFails: bool)
      returns (alert: Option<Alert>)
      modifies this, store
      ensures loading == old(loading)
      ensures !confirmed ==> alert.None?
      ensures !confirmed || clearFails ==>
        && store.saved == old(store.saved)
        && apiKey == old(apiKey) && apiKeyConfigured == old(apiKeyConfigured)
      ensures confirmed && !clearFails ==>
        && store.saved.None? && apiKey == "" && !apiKeyConfigured
        && alert == Some(Alert("Success", ClearedMessage))
      ensures confirmed && clearFails ==> alert == Some(Alert("Error", ClearFailedMessage))
    {
      if !confirmed {
        return None;
      }
      if clearFails {
        return Some(Alert("Error", ClearFailedMessage));
      }
      store.saved := None;
      apiKey := "";
      apiKeyConfigured := false;
      alert := Some(Alert("Success", ClearedMessage));
    }

    /** `handlePasteFromClipboard`: `clipboard` is what the clipboard read yields,
        None when it throws. Only non-empty content replaces the input. */
    method HandlePasteFromClipboard(clipboard: Option<string>) returns (alert: Option<Alert>)
      modifies this
      ensures clipboard.None? ==> alert == Some(Alert("Error", PasteFailedMessage))
      ensures clipboard.Some? ==> alert.None?
      ensures apiKey == (if Truthy(clipboard) then clipboard.value else old(apiKey))
      ensures apiKeyConfigured == old(apiKeyConfigured) && loading == old(loading)
    {
      if clipboard.None? {
        return Some(Alert("Error", PasteFailedMessage));
      }
      if clipboard.value != "" {
        apiKey := clipboard.value;
      }
      alert := None;
    }
  }
}
