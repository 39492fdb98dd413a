/**
 * The settings dialog: the edited `form`, the "Saved!" flag `saved` and the
 * "Unsaved changes" flag `hasChanges`, with its save, save-and-reconnect and
 * reset handlers writing to storage.
 */
module SettingsForm {
  import opened Types
  import opened Helpers
  import opened WebStorage

  /** The four text inputs of the dialog. */
  datatype Field = Authority | ClientId | Scope | RedirectUri

  function FieldValue(s: OidcSettings, f: Field): string {
    match f
    case Authority => s.authority
    case ClientId => s.clientId
    case Scope => s.scope
    case RedirectUri => s.redirectUri
  }

  /** `{ ...form, field: value }`: the edited field takes the value, the other three keep theirs. */
  function WithField(s: OidcSettings, f: Field, value: string): (r: OidcSettings)
    ensures FieldValue(r, f) == value
    ensures forall g :: g != f ==> FieldValue(r, g) == FieldValue(s, g)
  {
    match f
    case Authority => s.(authority := value)
    case ClientId => s.(clientId := value)
    case Scope => s.(scope := value)
    case RedirectUri => s.(redirectUri := value)
  }

  class Form {
    var form: OidcSettings
    var saved: bool
    var hasChanges: bool
    const defaults: OidcSettings
    const codec: Codec

    /**
     * The badges agree with storage: "Unsaved changes" shows exactly when the
     * form differs from the persisted settings, and never together with "Saved!".
     */
    ghost predicate Consistent(items: map<string, string>)
      reads this
    {
      && hasChanges == (form != GetSavedSettings(items, defaults, codec))
      && (saved ==> !hasChanges)
    }

    /**
     * Mounting: the form starts from the `settings` prop, the mount effect
     * replaces it by `getSavedSettings()`, and the change effect runs for
     * each value the form takes.
     */
    constructor (settings: OidcSettings, defaults: OidcSettings, codec: Codec, st: Storage)
      ensures this.defaults == defaults && this.codec == codec
      ensures form == GetSavedSettings(st.items, defaults, codec)
      ensures !saved && !hasChanges
      ensures Consistent(st.items)
    {
      this.defaults := defaults;
      this.codec := codec;
      form := settings;
      saved := false;
      hasChanges := false;
      new;
      FormChanged(st);
      form := GetSavedSettings(st.items, defaults, codec);
      FormChanged(st);
    }

    /** The effect on `[form]`: compare with what is persisted and clear "Saved!". */
    method FormChanged(st: Storage)
      modifies this
      ensures form == old(form)
      ensures hasChanges == (form != GetSavedSettings(st.items, defaults, codec))
      ensures !saved
    {
      var persisted := GetSavedSettings(st.items, defaults, codec);
      hasChanges := form != persisted;
      saved := false;
    }

    /** Typing into one input. */
    method Edit(f: Field, value: string, st: Storage)
      modifies this
      ensures form == WithField(old(form), f, value)
      ensures hasChanges == (form != GetSavedSettings(st.items, defaults, codec))
      ensures !saved
      ensures Consistent(st.items)
    {
      form := WithField(form, f, value);
      FormChanged(st);
    }

    /** `handleSaveOnly`: persist the form and show "Saved!"; the client is not reconnected. */
    method HandleSaveOnly(st: Storage)
      requires Faithful(codec)
      modifies this, st
      ensures st.items == SavedItems(old(st.items), old(form), codec)
      ensures form == old(form) && saved && !hasChanges
      ensures Consistent(st.items)
    {
      SaveSettings(st, form, codec);
      saved := true;
      hasChanges := false;
      SaveLoadRoundTrip(old(st.items), form, defaults, codec);
    }

    /**
     * `handleSubmit`: the same as `handleSaveOnly`, and `onSave` is then
     * called with the submitted form, which is returned here.
     */
    method HandleSubmit(st: Storage) returns (onSaveArg: OidcSettings)
      requires Faithful(codec)
      modifies this, st
      ensures st.items == SavedItems(old(st.items), old(form), codec)
      ensures form == old(form) && saved && !hasChanges
      ensures onSaveArg == form
      ensures Consistent(st.items)
    {
      HandleSaveOnly(st);
      onSaveArg := form;
    }

    /**
     * `handleReset`: clear the settings key and the client's namespace, put
     * the defaults in the form and clear "Saved!"; nothing is persisted and
     * `onSave` is not called.
     */
    method HandleReset(st: Storage)
      modifies this, st
      ensures st.items == ClearedItems(old(st.items))
      ensures form == defaults && !saved && !hasChanges
      ensures Consistent(st.items)
    {
      ClearSettings(st);
      form := defaults;
      saved := false;
      LoadAfterClearIsDefault(old(st.items), defaults, codec);
      FormChanged(st);
    }

    /**
     * The Save button is disabled exactly when there is nothing unsaved, that
     * is, when the form already equals what loading from storage gives.
     */
    function SaveDisabled(items: map<string, string>): (disabled: bool)
      requires Consistent(items)
      reads this
      ensures disabled <==> !hasChanges
      ensures disabled <==> form == GetSavedSettings(items, defaults, codec)
    {
      !hasChanges
    }
  }
}
