# Keycloak debug console — Dafny model

This project models the logic behind a single-page console for debugging
OpenID Connect sessions against a Keycloak server:

- **Settings persistence.** The console loads, saves, resets and purges its
  settings in browser local storage:
  - one JSON record under `oidc_debug_settings`, overlaid field by field on
    the defaults;
  - a purge of every `oidc.`-prefixed key the OIDC client writes.
- **Defaults.** The default settings come from the page URL and the
  environment.
- **Decoding and display.** The console decodes JWTs and formats the time
  left before a token expires.
- **The activity log.** It holds at most 100 entries and numbers each entry
  from a counter that never goes backwards.
- **The auth panel** turns the client's lifecycle events, the
  authentication flips, errors and the login/logout/refresh actions into
  log entries.
- **The settings dialog** tracks its form, saved and changed flags.
- **The status card and header** classify the time left.
- **The root component** remounts the client when the settings change.

Modules follow the program's files:

- `Constants`, `Helpers`, `Types`: `constants.ts`, `helpers.ts`, `types.ts`.
- `LogRecorder` and `App`: the root component in `App.tsx`. `App.tsx` also
  holds inline copies of `getBaseUrl`, `getSavedSettings`, `decodeJwt` and
  `formatTimeLeft`. Those copies have the same text as the shared helpers
  (lines 9-34, 48-78), so the `Constants` and `Helpers` members model both.
- `AuthDebugPanel`: `components/AuthDebugPanel.tsx`, which has the same
  handlers as the panel inline in `App.tsx` (lines 334-466).
- `SettingsForm`, `StatusCard`: the components of the same names.

Supporting modules:

- `JsString` holds the JavaScript string operations the code relies on:
  - `split` on one character;
  - global one-character replace;
  - decimal rendering of integers.
- `WebStorage` is local storage as a class over a `map`.
- `Wrappers` holds `Option`.

Some parts of the environment become parameters:

- **JSON and base64.** `JSON.parse`, `JSON.stringify` and `atob` are
  function parameters. The settings codec is a `Codec` value. The predicate
  `Faithful` states the one property the proofs need of it: parsing what
  was stringified gives back all four fields, and the text is never empty.
- **The clock** is a `now` parameter.
- **The client.** The OIDC client's behaviour enters as the outcome of each
  awaited call, and as the notifications it delivers.

## Model

| member | source | states |
|---|---|---|
| JsString.Split | src/helpers.ts:41 | `split('.')` always yields at least one part |
| JsString.SplitCount | src/helpers.ts:41-42 | the number of parts is one more than the number of separators, so three parts means exactly two dots |
| JsString.SplitJoin | src/helpers.ts:41 | splitting the separator-joined pieces returns exactly those pieces when none contains the separator |
| JsString.JoinSplit | src/helpers.ts:41 | joining the parts with the separator gives back the input |
| JsString.ReplaceAll | src/helpers.ts:43 | a global one-character replace keeps the length, turns every occurrence into the replacement and leaves every other character alone |
| JsString.NatToString | src/helpers.ts:62-64 | the rendering of a number is a non-empty string of decimal digits, starting with `0` only for zero |
| JsString.DigitsValueOfNatToString | src/helpers.ts:62-64 | reading the decimal rendering back gives the number |
| WebStorage.Storage.SetItem | src/helpers.ts:23 | the key maps to the value and every other key is unchanged |
| WebStorage.Storage.RemoveItem | src/helpers.ts:27 | only that key disappears |
| Constants.SettingsKeyIsNotOidcKey | src/constants.ts:3 | the settings key does not start with the client's `oidc.` prefix, so a purge never removes it |
| Constants.LeftmostMatch | src/constants.ts:7 | the first position where `/` or `/callback` ends the path, if there is one |
| Constants.RegexStrip | src/constants.ts:7 | the replacement leaves a prefix of the path, strictly shorter exactly when the pattern matches somewhere |
| Constants.StripBasePath | src/constants.ts:7 | the suffix rule leaves a prefix of the path, shorter by 0, 1 or 9 characters (nothing, `/` or `/callback` removed) |
| Constants.StripBasePathIsRegexReplace | src/constants.ts:7 | removing a trailing `/callback`, else a trailing `/`, is what replacing the leftmost match of `/\/(callback)?$/` with nothing does |
| Constants.StripBasePathExamples | src/constants.ts:7 | `/a//`→`/a/`, `/a/callback/`→`/a/callback`, `/a/callback`→`/a`, `/callback`→empty, `/a`→`/a` |
| Constants.GetBaseUrl | src/constants.ts:5-9 | the base URL is the origin followed by a prefix of the path |
| Constants.BaseUrlIgnoresCallbackAndSlash | src/constants.ts:5-9 | the base URL of `p`, `p/` and `p/callback` is `origin + p` when `p` ends in neither |
| Constants.OrElse | src/constants.ts:12-13 | an unset or empty environment value falls back to the constant, any other value is used; the result is never empty when the fallback is not |
| Constants.DefaultSettings | src/constants.ts:11-16 | all four default fields are non-empty and the redirect URI starts with the page origin; DefaultRedirectIsPathInvariant shows it does not depend on a trailing `/` or `/callback` |
| Constants.DefaultRedirectIsPathInvariant | src/constants.ts:15 | loading the page at `p`, `p/` or `p/callback` yields the same default redirect URI |
| Constants.LevelColor | src/constants.ts:18-24 | every level has a non-empty colour class |
| Constants.LevelIcon | src/constants.ts:26-32 | every level has a one-character icon |
| Constants.LevelTablesAreInjective | src/constants.ts:18-32 | distinct levels get distinct colours and distinct icons |
| Helpers.Overlay | src/helpers.ts:14 | an empty parsed record leaves the defaults, and a record carrying all four fields replaces them entirely |
| Helpers.GetSavedSettings | src/helpers.ts:10-20 | the loaded settings differ from the defaults only when a non-empty stored text parsed |
| Helpers.LoadWithoutRecordIsDefault | src/helpers.ts:10-20 | with no record, an empty record or an unparsable one the defaults are returned |
| Helpers.LoadMergesFieldwise | src/helpers.ts:13-15 | a parsed record overrides exactly the fields it carries, and the defaults fill the rest |
| Helpers.SavedItems | src/helpers.ts:22-24 | the settings key maps to the stringified settings, it is the only key added, and every other key keeps its value |
| Helpers.SaveLoadRoundTrip | src/helpers.ts:10-24 | loading after saving `s` yields `s`, whatever the defaults and the other keys are |
| Helpers.PurgeOidc | src/helpers.ts:33-37 | the purged store keeps exactly the keys without the `oidc.` prefix, with their values |
| Helpers.PurgeKeepsSettingsRecord | src/helpers.ts:33-37 | the purge keeps the settings record and is idempotent |
| Helpers.ClearedItems | src/helpers.ts:26-31 | exactly the keys that are neither the settings key nor `oidc.`-prefixed remain, with their values |
| Helpers.ClearedItemsSpec | src/helpers.ts:26-31 | clearing keeps exactly the keys that are neither the settings key nor `oidc.`-prefixed, unchanged, and clearing twice is clearing once |
| Helpers.LoadIgnoresPurge | src/helpers.ts:10-20 | a purge does not change the loaded settings |
| Helpers.LoadAfterClearIsDefault | src/helpers.ts:10-31 | after clearing, loading yields the defaults |
| Helpers.SaveSettings | src/helpers.ts:22-24 | the store afterwards is the old one with the settings key mapped to the stringified settings |
| Helpers.ClearOidcStorage | src/helpers.ts:33-37 | the loop over the snapshot of keys leaves exactly the purged store |
| Helpers.ClearSettings | src/helpers.ts:26-31 | the store afterwards is the cleared store |
| Helpers.UrlToStandard | src/helpers.ts:43-44 | the length is kept, every `-` becomes `+`, every `_` becomes `/`, and every other character stays |
| Helpers.StandardToUrl | src/helpers.ts:43-44 | the opposite character mapping, `+` to `-` and `/` to `_`, against which the decoder's translation is shown to lose nothing |
| Helpers.UrlToStandardTranslatesAlphabet | src/helpers.ts:43-44 | on base64url text the replacements give standard-alphabet base64 of the same length, and the reverse mapping undoes them |
| Helpers.DecodePart | src/helpers.ts:43-44 | a segment decodes only when its base64 decoding succeeds, and then it is the JSON parse of the decoded text |
| Helpers.DecodeJwt | src/helpers.ts:39-49 | a decoded token has exactly two dots, and its header and payload are the decodings of its first two segments |
| Helpers.DecodeJwtNeedsTwoDots | src/helpers.ts:41-42 | a token with any number of dots other than two decodes to null |
| Helpers.DecodeJwtOfSegments | src/helpers.ts:39-49 | for dot-free segments, header and payload are decoded from the first two segments after translation, and if either fails the result is null |
| Helpers.SignatureIsIgnored | src/helpers.ts:39-49 | the third segment never affects the result |
| Helpers.Decompose | src/helpers.ts:57-59 | hours, minutes and seconds recombine to the difference, with minutes and seconds below 60 |
| Helpers.CountdownText | src/helpers.ts:61-64 | the three text shapes by magnitude; ThreeWordText, TwoWordText and OneWordText read each one back |
| Helpers.ThreeWordText | src/helpers.ts:62 | with hours, the text is three words that read back as the hours, minutes and seconds combined |
| Helpers.TwoWordText | src/helpers.ts:63 | with minutes but no hours, the text is two words that read back as the minutes and seconds combined |
| Helpers.OneWordText | src/helpers.ts:64 | below a minute, the text is one word that reads back as the seconds |
| Helpers.FormatTimeLeft | src/helpers.ts:51-67 | a non-positive difference gives `EXPIRED` with 0 seconds; otherwise the seconds are the difference and the text is a countdown ending in `s`; the text is never empty |
| Helpers.CountdownRoundTrip | src/helpers.ts:57-66 | reading the text back recovers the difference, which takes three words from 3600 s, two from 60 s and one below |
| Helpers.FormatTimeLeftExamples | src/helpers.ts:61-64 | 3725 s →`1h 2m 5s`, 3600 s →`1h 0m 0s`, 90 s →`1m 30s`, 45 s →`45s` |
| LogRecorder.LastN | src/App.tsx:618-624 | `.slice(-100)` keeps the last `min(n, len)` elements as a suffix |
| LogRecorder.Record | src/App.tsx:618-624 | each entry advances the counter by one; what happens to the list is RecordPreservesValid |
| LogRecorder.RecordPreservesValid | src/App.tsx:618-624 | adding an entry keeps at most 100 entries with strictly increasing ids between 1 and the counter, and the new entry is last with id counter + 1 |
| LogRecorder.ClearSpec | src/App.tsx:627-630 | clearing keeps the invariant and leaves only the `Logs cleared` entry, whose id is above every earlier id |
| LogRecorder.Clear | src/App.tsx:627-630 | the counter advances by one and the log is the single `Logs cleared` entry carrying the new id |
| LogRecorder.RecordAll | src/App.tsx:618-624 | `n` successive entries advance the counter by `n`, and after at least one the log holds between 1 and 100 entries |
| LogRecorder.Window | src/App.tsx:618-624 | the window over `n` requests has `min(n, 100)` entries; RecordAllFromInitial shows it is the log after those requests |
| LogRecorder.RecordAllFromInitial | src/App.tsx:618-624 | after `n` records from the start the log is the last `min(n, 100)` requests, numbered `n - k + 1` to `n` |
| LogRecorder.Record105 | src/App.tsx:618-624 | after 105 records exactly 100 entries remain, with ids 6 to 105 |
| LogRecorder.Recorder.AddLog | src/App.tsx:618-624 | the recorder's state becomes the pure record of the request |
| LogRecorder.Recorder.ClearLogs | src/App.tsx:627-630 | the recorder's state becomes the pure clear of the old state |
| SettingsForm.WithField | src/components/SettingsForm.tsx:69-87 | the edited field takes the value and the other three are unchanged |
| SettingsForm.Form.constructor | src/components/SettingsForm.tsx:13-26 | after mount the form holds the loaded settings, and neither saved nor changed is set |
| SettingsForm.Form.FormChanged | src/components/SettingsForm.tsx:21-26 | changed means the form differs from what is stored, and saved is cleared |
| SettingsForm.Form.Edit | src/components/SettingsForm.tsx:69-87 | one field is replaced, and the changed flag tracks the stored settings |
| SettingsForm.Form.HandleSaveOnly | src/components/SettingsForm.tsx:36-40 | the form is persisted, saved is set and changed is cleared, consistently with storage |
| SettingsForm.Form.HandleSubmit | src/components/SettingsForm.tsx:28-34 | as save-only, and the parent then receives the form |
| SettingsForm.Form.HandleReset | src/components/SettingsForm.tsx:42-46 | the store is cleared, the form shows the defaults, and nothing counts as changed |
| SettingsForm.Form.SaveDisabled | src/components/SettingsForm.tsx:96-103 | Save is disabled exactly when the form equals the settings loaded from storage |
| StatusCard.ClassifyFormatted | src/components/StatusCard.tsx:10-11 | on formatter output, expired exactly when the expiry has passed, expiring soon exactly when under 120 s are left, never both |
| StatusCard.OneClassForFormatted | src/components/StatusCard.tsx:37-41 | exactly one colour class is chosen: destructive, warning or success |
| StatusCard.ExpiryClasses | src/components/StatusCard.tsx:37-41 | at least one and at most two classes are kept, and the success colour exactly when neither expired nor expiring soon |
| StatusCard.IsExpired | src/components/StatusCard.tsx:10 | the `EXPIRED` test; ClassifyFormatted and TimerClassification state what it means for a token |
| StatusCard.IsExpiringSoon | src/components/StatusCard.tsx:11 | the under-two-minutes test; ClassifyFormatted and TimerClassification state what it means for a token |
| StatusCard.StatusLabel | src/components/StatusCard.tsx:28 | the label reads AUTHENTICATED exactly when authenticated |
| StatusCard.ExpiresRow | src/components/StatusCard.tsx:33-43 | the Expires In row appears exactly when authenticated, reads `N/A` for an empty text, and is never blank |
| StatusCard.DetailsShownIffARowIs | src/components/StatusCard.tsx:31-46 | the detail block is shown exactly when its Expires In row or its User row renders, so it is never empty |
| AuthDebugPanel.AllSignalsListedOnce | src/components/AuthDebugPanel.tsx:38-61 | all seven client events are subscribed, each once |
| AuthDebugPanel.SignalLevel | src/components/AuthDebugPanel.tsx:39-60 | exactly the token-expired and silent-renew-failure events log at `error`, and no event logs at `info` |
| AuthDebugPanel.NotificationLog | src/components/AuthDebugPanel.tsx:39-60 | each event's entry has that event's fixed level |
| AuthDebugPanel.AuthFlipLog | src/components/AuthDebugPanel.tsx:66-74 | one run of the watcher records at most one entry, naming the new state, and none on the first observation or without a change |
| AuthDebugPanel.Replay | src/components/AuthDebugPanel.tsx:66-74 | over a run of observations the watcher records at most one entry per observation |
| AuthDebugPanel.Flips | src/components/AuthDebugPanel.tsx:66-74 | the reference count of changes: fewer entries than observations |
| AuthDebugPanel.ReplayIsFlips | src/components/AuthDebugPanel.tsx:66-74 | over any run of observed states the watcher records exactly one entry per change of state, and none for the first |
| AuthDebugPanel.FlipsAlternate | src/components/AuthDebugPanel.tsx:66-74 | the recorded flips alternate, and the last names the current state |
| AuthDebugPanel.ErrorLog | src/components/AuthDebugPanel.tsx:88-92 | a present error gives one `error` entry carrying its message, no error gives none |
| AuthDebugPanel.LoginLog | src/components/AuthDebugPanel.tsx:95-107 | an `info` start entry, then at most one more, which is `error` exactly when the login failed |
| AuthDebugPanel.LogoutLog | src/components/AuthDebugPanel.tsx:109-124 | an `info` start entry, then at most one more, which is `error` exactly when the logout failed |
| AuthDebugPanel.RenewLog | src/components/AuthDebugPanel.tsx:130-136 | nothing exactly when no user comes back, otherwise one entry, which is `error` exactly on failure |
| AuthDebugPanel.RefreshLog | src/components/AuthDebugPanel.tsx:126-140 | an `info` start entry, then at most one more, which is `error` exactly when the refresh failed |
| AuthDebugPanel.ActionsReportOutcomes | src/components/AuthDebugPanel.tsx:95-140 | every action logs an `info` start and at most one more entry, which is an `error` exactly on failure; redirects and an empty refresh log nothing more |
| AuthDebugPanel.TimerValue | src/components/AuthDebugPanel.tsx:76-86 | the text is empty exactly when there is no expiry (missing or 0), the seconds are never negative, and with an expiry the value is the formatter's output |
| AuthDebugPanel.TimerClassification | src/components/AuthDebugPanel.tsx:142 | through the timer, expired exactly when an expiry is set and has passed, expiring soon exactly when under 120 s are left |
| AuthDebugPanel.NoExpiryShowsNA | src/components/StatusCard.tsx:33-43 | a session without an expiry shows `N/A` in the success colour |
| AuthDebugPanel.ExpiresRowShowsNAWithoutExpiry | src/components/StatusCard.tsx:33-43 | for an authenticated session the Expires In row reads `N/A` exactly when the token carries no expiry |
| AuthDebugPanel.RefreshLabel | src/components/AuthDebugPanel.tsx:232 | the label is never empty and reads `Refreshing...` exactly while a refresh is in flight |
| AuthDebugPanel.RefreshLabelIsInformative | src/components/AuthDebugPanel.tsx:232 | the refresh button's text tells apart in-flight, expired and ordinary |
| AuthDebugPanel.Panel.Subscribe | src/components/AuthDebugPanel.tsx:35-64 | with events available all seven handlers are registered, without them nothing is |
| AuthDebugPanel.Panel.Teardown | src/components/AuthDebugPanel.tsx:63 | every collected unsubscribe runs, leaving no handler registered |
| AuthDebugPanel.Panel.Remount | src/components/AuthDebugPanel.tsx:35-74 | old handlers are all released before the new ones are registered, and the new instance has seen no auth state and is not refreshing |
| AuthDebugPanel.Panel.Notify | src/components/AuthDebugPanel.tsx:38-61 | a registered event records exactly its entry, an unregistered one records nothing |
| AuthDebugPanel.Panel.ObserveAuth | src/components/AuthDebugPanel.tsx:66-74 | the log grows by the flip entry for the previous and current state, and the current state is remembered |
| AuthDebugPanel.Panel.ObserveError | src/components/AuthDebugPanel.tsx:88-92 | an error present records one `Auth error` entry with its message |
| AuthDebugPanel.Panel.CopyToClipboard | src/components/AuthDebugPanel.tsx:30-33 | a copy records one success entry |
| AuthDebugPanel.Panel.HandleLogin | src/components/AuthDebugPanel.tsx:95-107 | the log grows by exactly the login sequence for the method and outcome |
| AuthDebugPanel.Panel.HandleLogout | src/components/AuthDebugPanel.tsx:109-124 | the log grows by exactly the logout sequence for the method and outcome |
| AuthDebugPanel.Panel.BeginRefresh | src/components/AuthDebugPanel.tsx:126-129 | the flag is raised, so the refresh button is disabled, and the start entry is recorded |
| AuthDebugPanel.Panel.CompleteRefresh | src/components/AuthDebugPanel.tsx:130-139 | the outcome's entry is recorded and the flag lowered on every path, so the button is enabled again |
| AuthDebugPanel.Panel.HandleRefresh | src/components/AuthDebugPanel.tsx:126-140 | the log grows by exactly the refresh sequence, and the flag ends lowered with the button enabled |
| App.OidcConfig | src/App.tsx:648-663 | the configuration carries the four settings unchanged, and the client's store prefix lies inside the purged key space |
| App.PurgeEmptiesClientStore | src/App.tsx:634-636 | after the purge no key of the client's user store remains |
| App.MountLog | src/App.tsx:645 | the mount entry is an `info` entry naming the authority |
| App.ReconnectLog | src/App.tsx:639 | the reconnect entry is an `info` entry naming the new authority |
| App.App.Config | src/App.tsx:648-663 | the provider's configuration reflects the current settings |
| App.App.constructor | src/App.tsx:611-616 | the first render: settings loaded over the defaults, key 0, dialog closed, empty log, panel not yet subscribed |
| App.App.Mount | src/App.tsx:644-646 | after the panel subscribes, the mount entry naming the authority is recorded, so it is the first entry of the session |
| App.App.HandleSaveSettings | src/App.tsx:633-641 | client keys are purged, the settings are adopted, the dialog closes, the reconnect entry is logged, the key is bumped and the panel resubscribes afresh |
| App.App.SubmitForm | src/App.tsx:263-267 | the record written by the dialog survives the purge, so a reload yields exactly the submitted settings, and the panel is remounted afresh |
| App.App.OpenSettings | src/App.tsx:670 | the dialog opens, settings and key unchanged |
| App.App.CloseSettings | src/App.tsx:681 | the dialog closes, settings and key unchanged |
| App.InlineForm.Edit | src/App.tsx:291-319 | one field takes the typed value, the others are unchanged |
| App.InlineForm.HandleSubmit | src/App.tsx:263-267 | the form is persisted under the settings key and passed to the parent |
| App.InlineForm.HandleReset | src/App.tsx:269-275 | the store is cleared and the form shows the defaults, which is what loading now yields |

## Left out

- Log timestamps (`new Date()`), the locale time strings for expiry, and the clipboard write. These are clock and host effects. A formatted expiry enters as an optional string, and the clock as `now`.
- `JSON.parse`, `JSON.stringify` and `atob` are parameters, not implementations. A stored record is abstracted to the four optional string fields. Extra keys and non-string values are not modelled.
- Exceptions from local storage are not modelled. The loader's catch is covered by a codec parse that returns nothing.
- React scheduling is not modelled: StrictMode's double effects, batching, and re-running effects by object identity. The settings dialog's change effect is modelled as running after every form update.
- LogRecorder.Recorder.AddLog: the id numbering is that of a production build. In development, StrictMode (`src/main.tsx:14`) calls the state updater twice, so the ids step by 2.
- SettingsForm.Form.FormChanged: compares settings values, not their JSON texts. The two agree because both objects list their keys in the same order.
- SettingsForm.Form.HandleSubmit: the 500 ms `setTimeout` before `onSave` is not modelled. The value handed to the parent is returned instead.
- AuthDebugPanel.Panel.HandleRefresh: assumes nothing else runs during the `await`. `BeginRefresh` and `CompleteRefresh` model the two halves, so that other handlers can run between them.
- AuthDebugPanel.Panel.ObserveError: runs once per call. React runs the effect once per new error object.
- The OIDC client itself (redirects, popups, token renewal, revocation) is outside the model. Its effects reach the model as outcomes and notifications. The `onSigninCallback` history rewrite is not modelled.
- AuthDebugPanel.RefreshLabel models the header button only. The actions card shows different texts, and its layout is not modelled.
- The log panel, token panel and styling are not modelled, beyond the colour and icon tables.
