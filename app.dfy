/**
 * The root component: the active settings, the settings dialog flag, the
 * provider's remount key, the shared log, the client configuration built
 * from the settings, and the dialog defined alongside it.
 */
module App {
  import opened Wrappers
  import opened JsString
  import opened Types
  import opened Constants
  import opened WebStorage
  import opened Helpers
  import opened LogRecorder
  import opened SettingsForm
  import opened AuthDebugPanel

  // ---------------------------------------------------------------------
  // Client configuration
  // ---------------------------------------------------------------------

  const SilentRenewPath: string := "/silent-renew"
  /** Seconds before expiry at which the client fires "access token expiring". */
  const ExpiringNotificationSeconds: nat := 60

  /** The options handed to the OIDC provider (the sign-in callback is left out). */
  datatype ClientConfig = ClientConfig(
    authority: string,
    clientId: string,
    redirectUri: string,
    postLogoutRedirectUri: string,
    silentRedirectUri: string,
    scope: string,
    automaticSilentRenew: bool,
    expiringNotificationSeconds: nat,
    includeIdTokenInSilentRenew: bool,
    userStorePrefix: string,
    revokeTokensOnSignout: bool)

  /** The settings a configuration was built from. */
  function SettingsOfConfig(c: ClientConfig): OidcSettings {
    OidcSettings(c.authority, c.clientId, c.scope, c.redirectUri)
  }

  /**
   * The configuration for the current settings: it carries all four settings
   * unchanged, and the client keeps its records under keys that the purge
   * removes.
   */
  function OidcConfig(s: OidcSettings, origin: string): (c: ClientConfig)
    ensures SettingsOfConfig(c) == s
    ensures forall k :: StartsWith(k, c.userStorePrefix) ==> IsOidcKey(k)
    ensures StartsWith(c.silentRedirectUri, c.postLogoutRedirectUri) && c.postLogoutRedirectUri == origin
  {
    ClientConfig(s.authority, s.clientId, s.redirectUri, origin, origin + SilentRenewPath, s.scope,
      true, ExpiringNotificationSeconds, true, OidcPrefix, true)
  }

  /** After a purge no key of the client's store is left. */
  lemma PurgeEmptiesClientStore(items: map<string, string>, s: OidcSettings, origin: string)
    ensures forall k :: k in PurgeOidc(items) ==> !StartsWith(k, OidcConfig(s, origin).userStorePrefix)
  {
  }

  // ---------------------------------------------------------------------
  // Log entries of the root component
  // ---------------------------------------------------------------------

  /** The mount entry names the authority the client connects to. */
  function MountLog(s: OidcSettings): (r: LogRequest)
    ensures r.level == Info && r.data.Some? && EndsWith(r.data.value, s.authority)
  {
    LogRequest(Info, "Debug sandbox initialized", Some("Authority: " + s.authority))
  }

  /** The reconnect entry names the authority of the new settings. */
  function ReconnectLog(s: OidcSettings): (r: LogRequest)
    ensures r.level == Info && r.data.Some? && EndsWith(r.data.value, s.authority)
  {
    LogRequest(Info, "Settings updated, reconnecting...", Some("Authority: " + s.authority))
  }

  // ---------------------------------------------------------------------
  // The settings dialog defined next to the root component
  // ---------------------------------------------------------------------

  /**
   * This dialog keeps only the form: it starts from the settings it is given
   * and has no saved or changed flags.
   */
  class InlineForm {
    var form: OidcSettings
    const defaults: OidcSettings
    const codec: Codec

    constructor (settings: OidcSettings, defaults: OidcSettings, codec: Codec)
      ensures form == settings && this.defaults == defaults && this.codec == codec
    {
      form := settings;
      this.defaults := defaults;
      this.codec := codec;
    }

    /** An input's change handler: that one field takes the typed value. */
    method Edit(f: Field, value: string)
      modifies this
      ensures form == WithField(old(form), f, value)
    {
      form := WithField(form, f, value);
    }

    /** Persist the form and hand it to the parent. */
    method HandleSubmit(st: Storage) returns (onSaveArg: OidcSettings)
      modifies st
      ensures st.items == SavedItems(old(st.items), form, codec)
      ensures onSaveArg == form
    {
      SaveSettings(st, form, codec);
      onSaveArg := form;
    }

    /** Forget the saved record and the client's keys, and show the defaults. */
    method HandleReset(st: Storage)
      modifies this, st
      ensures st.items == ClearedItems(old(st.items))
      ensures form == defaults
      ensures GetSavedSettings(st.items, defaults, codec) == form
    {
      ClearSettings(st);
      form := defaults;
      LoadAfterClearIsDefault(old(st.items), defaults, codec);
    }
  }

  // ---------------------------------------------------------------------
  // The root component
  // ---------------------------------------------------------------------

  class App {
    const storage: Storage
    const log: Recorder
    /** The panel mounted inside the provider. */
    const panel: Panel
    const defaults: OidcSettings
    const codec: Codec
    const origin: string
    var settings: OidcSettings
    var showSettings: bool
    /** The provider's key: each increment remounts the provider and the panel. */
    var key: nat

    ghost predicate Valid()
      reads this, log, panel
    {
      panel.log == log && panel.Valid()
    }

    /** The provider's configuration for the current settings. */
    function Config(): (c: ClientConfig)
      reads this
      ensures SettingsOfConfig(c) == settings
    {
      OidcConfig(settings, origin)
    }

    /**
     * First render: settings come from storage over the defaults, the key is
     * 0, the dialog is closed, the log is empty and the panel has not yet
     * subscribed (effects run after the render, in `Mount`).
     */
    constructor (storage: Storage, env: Env, origin: string, pathname: string, codec: Codec)
      ensures Valid()
      ensures this.storage == storage && this.codec == codec && this.origin == origin
      ensures defaults == DefaultSettings(env, origin, pathname)
      ensures settings == GetSavedSettings(storage.items, defaults, codec)
      ensures !showSettings && key == 0
      ensures log.State() == Initial
      ensures panel.live == {} && panel.prevAuthState == None && !panel.refreshing
      ensures fresh(log) && fresh(panel)
    {
      this.storage := storage;
      this.codec := codec;
      this.origin := origin;
      var d := DefaultSettings(env, origin, pathname);
      defaults := d;
      settings := GetSavedSettings(storage.items, d, codec);
      showSettings := false;
      key := 0;
      var r := new Recorder();
      log := r;
      panel := new Panel(r);
    }

    /**
     * The mount effects, child before parent: the panel subscribes, then the
     * root records the mount entry, which is the first in the log.
     */
    method Mount(eventsAvailable: bool)
      requires Valid() && panel.live == {}
      modifies log, panel
      ensures Valid()
      ensures log.State() == Record(old(log.State()), MountLog(settings))
      ensures eventsAvailable ==> panel.unsubscribes == AllSignals && (forall s: Signal :: s in panel.live)
      ensures !eventsAvailable ==> panel.live == {}
    {
      panel.Subscribe(eventsAvailable);
      log.Add(MountLog(settings));
    }

    method OpenSettings()
      modifies this
      ensures showSettings
      ensures settings == old(settings) && key == old(key)
    {
      showSettings := true;
    }

    method CloseSettings()
      modifies this
      ensures !showSettings
      ensures settings == old(settings) && key == old(key)
    {
      showSettings := false;
    }

    /**
     * The dialog's save callback: drop the client's keys, adopt the new
     * settings, close the dialog, log the reconnect and bump the key, which
     * tears down the panel's handlers and subscribes afresh.
     */
    method HandleSaveSettings(s: OidcSettings, eventsAvailable: bool)
      requires Valid()
      modifies this, storage, log, panel
      ensures Valid()
      ensures storage.items == PurgeOidc(old(storage.items))
      ensures settings == s && !showSettings && key == old(key) + 1
      ensures log.State() == Record(old(log.State()), ReconnectLog(s))
      ensures panel.prevAuthState == None && !panel.refreshing
      ensures eventsAvailable ==> panel.unsubscribes == AllSignals
      ensures !eventsAvailable ==> panel.live == {}
    {
      ClearOidcStorage(storage);
      settings := s;
      showSettings := false;
      log.Add(ReconnectLog(s));
      key := key + 1;
      panel.Remount(eventsAvailable);
    }

    /**
     * Submitting the dialog: the record is written, then the purge runs; the
     * record survives it, so a reload picks up exactly the submitted settings.
     */
    method SubmitForm(f: InlineForm, eventsAvailable: bool)
      requires Valid() && f.codec == codec && Faithful(codec)
      modifies this, storage, log, panel
      ensures Valid()
      ensures settings == f.form && !showSettings && key == old(key) + 1
      ensures storage.items == PurgeOidc(SavedItems(old(storage.items), f.form, codec))
      ensures GetSavedSettings(storage.items, defaults, codec) == settings
      ensures log.State() == Record(old(log.State()), ReconnectLog(f.form))
      ensures panel.prevAuthState == None && !panel.refreshing
      ensures eventsAvailable ==> panel.unsubscribes == AllSignals
      ensures !eventsAvailable ==> panel.live == {}
    {
      var submitted := f.HandleSubmit(storage);
      ghost var written := storage.items;
      HandleSaveSettings(submitted, eventsAvailable);
      LoadIgnoresPurge(written, defaults, codec);
      SaveLoadRoundTrip(old(storage.items), submitted, defaults, codec);
    }
  }
}
