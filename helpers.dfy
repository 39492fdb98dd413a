/**
 * The settings store over `localStorage`, the compact-JWT decoder and the
 * time-remaining formatter.
 */
module Helpers {
  import opened Wrappers
  import opened JsString
  import opened Types
  import opened Constants
  import opened WebStorage

  // ---------------------------------------------------------------------
  // Settings store
  // ---------------------------------------------------------------------

  /**
   * What the object spread `...JSON.parse(saved)` contributes to each of the
   * four settings fields: None where the parsed value has no such field
   * (a parsed non-object contributes nothing at all).
   */
  datatype StoredFields = StoredFields(
    authority: Option<string>, clientId: Option<string>, scope: Option<string>, redirectUri: Option<string>)

  /** `JSON.stringify` of a settings record and `JSON.parse` of a stored text, both abstract. */
  datatype Codec = Codec(stringify: OidcSettings -> string, parse: string -> Option<StoredFields>)

  /** The fields a complete settings record carries. */
  function FieldsOf(s: OidcSettings): StoredFields {
    StoredFields(Some(s.authority), Some(s.clientId), Some(s.scope), Some(s.redirectUri))
  }

  /** What JSON guarantees: parsing a serialised record gives back its four fields, and the text is never empty. */
  ghost predicate Faithful(c: Codec) {
    forall s :: c.stringify(s) != "" && c.parse(c.stringify(s)) == Some(FieldsOf(s))
  }

  /** `{ ...defaults, ...fields }`: every present field wins over the default. */
  function Overlay(defaults: OidcSettings, f: StoredFields): (r: OidcSettings)
    ensures f == StoredFields(None, None, None, None) ==> r == defaults
    ensures f.authority.Some? && f.clientId.Some? && f.scope.Some? && f.redirectUri.Some? ==> FieldsOf(r) == f
  {
    OidcSettings(
      if f.authority.Some? then f.authority.value else defaults.authority,
      if f.clientId.Some? then f.clientId.value else defaults.clientId,
      if f.scope.Some? then f.scope.value else defaults.scope,
      if f.redirectUri.Some? then f.redirectUri.value else defaults.redirectUri)
  }

  /**
   * `getSavedSettings()` over the item map: a missing or empty stored text,
   * or one that does not parse, gives the defaults; otherwise the parsed
   * fields are overlaid on the defaults.
   */
  function GetSavedSettings(items: map<string, string>, defaults: OidcSettings, c: Codec): (r: OidcSettings)
    ensures r != defaults ==> SettingsKey in items && items[SettingsKey] != "" && c.parse(items[SettingsKey]).Some?
  {
    if SettingsKey in items && items[SettingsKey] != "" then
      match c.parse(items[SettingsKey])
      case Some(f) => Overlay(defaults, f)
      case None => defaults
    else defaults
  }

  /** Without a usable record the defaults come back unchanged. */
  lemma LoadWithoutRecordIsDefault(items: map<string, string>, defaults: OidcSettings, c: Codec)
    requires SettingsKey !in items || items[SettingsKey] == "" || c.parse(items[SettingsKey]).None?
    ensures GetSavedSettings(items, defaults, c) == defaults
  {
  }

  /** With a parsed record each field comes from the record where present and from the defaults otherwise. */
  lemma LoadMergesFieldwise(items: map<string, string>, defaults: OidcSettings, c: Codec, f: StoredFields)
    requires SettingsKey in items && items[SettingsKey] != "" && c.parse(items[SettingsKey]) == Some(f)
    ensures var r := GetSavedSettings(items, defaults, c);
      && r.authority == (if f.authority.Some? then f.authority.value else defaults.authority)
      && r.clientId == (if f.clientId.Some? then f.clientId.value else defaults.clientId)
      && r.scope == (if f.scope.Some? then f.scope.value else defaults.scope)
      && r.redirectUri == (if f.redirectUri.Some? then f.redirectUri.value else defaults.redirectUri)
  {
  }

  /** The item map after `saveSettings(s)`. */
  function SavedItems(items: map<string, string>, s: OidcSettings, c: Codec): (r: map<string, string>)
    ensures r.Keys == items.Keys + {SettingsKey} && r[SettingsKey] == c.stringify(s)
    ensures forall k :: k in items && k != SettingsKey ==> r[k] == items[k]
  {
    items[SettingsKey := c.stringify(s)]
  }

  /** Saving then loading gives back the saved record, whatever was stored before. */
  lemma SaveLoadRoundTrip(items: map<string, string>, s: OidcSettings, defaults: OidcSettings, c: Codec)
    requires Faithful(c)
    ensures GetSavedSettings(SavedItems(items, s, c), defaults, c) == s
  {
    assert c.stringify(s) != "" && c.parse(c.stringify(s)) == Some(FieldsOf(s));
  }

  /** The item map after the `oidc.` purge loop: exactly the keys outside the client's namespace remain. */
  function PurgeOidc(items: map<string, string>): (r: map<string, string>)
    ensures forall k :: k in r <==> k in items && !IsOidcKey(k)
    ensures forall k :: k in r ==> r[k] == items[k]
  {
    map k | k in items && !IsOidcKey(k) :: items[k]
  }

  /** The item map after `clearSettings()`: the settings key and the client's namespace are gone. */
  function ClearedItems(items: map<string, string>): (r: map<string, string>)
    ensures forall k :: k in r <==> k in items && k != SettingsKey && !IsOidcKey(k)
    ensures forall k :: k in r ==> r[k] == items[k]
  {
    PurgeOidc(items - {SettingsKey})
  }

  /** The purge keeps the settings record, and purging twice is purging once. */
  lemma PurgeKeepsSettingsRecord(items: map<string, string>)
    ensures SettingsKey in items ==> SettingsKey in PurgeOidc(items) && PurgeOidc(items)[SettingsKey] == items[SettingsKey]
    ensures PurgeOidc(PurgeOidc(items)) == PurgeOidc(items)
  {
    SettingsKeyIsNotOidcKey();
  }

  /** Clearing removes the settings key and every `oidc.` key, keeps every other key, and is idempotent. */
  lemma ClearedItemsSpec(items: map<string, string>)
    ensures forall k :: k in ClearedItems(items) <==> k in items && k != SettingsKey && !IsOidcKey(k)
    ensures forall k :: k in ClearedItems(items) ==> ClearedItems(items)[k] == items[k]
    ensures ClearedItems(ClearedItems(items)) == ClearedItems(items)
  {
  }

  /** Purging the client's keys leaves the settings record, so the loaded settings are unchanged. */
  lemma LoadIgnoresPurge(items: map<string, string>, defaults: OidcSettings, c: Codec)
    ensures GetSavedSettings(PurgeOidc(items), defaults, c) == GetSavedSettings(items, defaults, c)
  {
    PurgeKeepsSettingsRecord(items);
    SettingsKeyIsNotOidcKey();
  }

  /** After clearing, loading gives the defaults. */
  lemma LoadAfterClearIsDefault(items: map<string, string>, defaults: OidcSettings, c: Codec)
    ensures GetSavedSettings(ClearedItems(items), defaults, c) == defaults
  {
  }

  /** `saveSettings(s)`. */
  method SaveSettings(st: Storage, s: OidcSettings, c: Codec)
    modifies st
    ensures st.items == SavedItems(old(st.items), s, c)
  {
    st.SetItem(SettingsKey, c.stringify(s));
  }

  /**
   * `clearOidcStorage()`: a snapshot of the keys is walked and every key
   * with the `oidc.` prefix is removed (in whatever order the keys come).
   */
  method ClearOidcStorage(st: Storage)
    modifies st
    ensures st.items == PurgeOidc(old(st.items))
  {
    ghost var start := st.items;
    var keys := st.items.Keys;
    while keys != {}
      invariant keys <= start.Keys
      invariant forall k :: k in st.items <==> k in start && (k in keys || !IsOidcKey(k))
      invariant forall k :: k in st.items ==> st.items[k] == start[k]
      decreases keys
    {
      var k :| k in keys;
      if StartsWith(k, OidcPrefix) {
        st.RemoveItem(k);
      }
      keys := keys - {k};
    }
    assert st.items == PurgeOidc(start);
  }

  /** `clearSettings()`: remove the settings key, then purge the client's namespace. */
  method ClearSettings(st: Storage)
    modifies st
    ensures st.items == ClearedItems(old(st.items))
  {
    st.RemoveItem(SettingsKey);
    ClearOidcStorage(st);
  }

  // ---------------------------------------------------------------------
  // Compact-JWT decoder
  // ---------------------------------------------------------------------

  /** The base64url alphabet (section 5 of RFC 4648). */
  predicate IsBase64UrlChar(ch: char) {
    ('A' <= ch <= 'Z') || ('a' <= ch <= 'z') || ('0' <= ch <= '9') || ch == '-' || ch == '_'
  }

  /** The standard base64 alphabet (section 4 of RFC 4648). */
  predicate IsBase64Char(ch: char) {
    ('A' <= ch <= 'Z') || ('a' <= ch <= 'z') || ('0' <= ch <= '9') || ch == '+' || ch == '/'
  }

  /** `part.replace(/-/g, '+').replace(/_/g, '/')`: no padding is restored. */
  function UrlToStandard(part: string): (r: string)
    ensures |r| == |part|
    ensures forall i :: 0 <= i < |part| ==> r[i] == if part[i] == '-' then '+' else if part[i] == '_' then '/' else part[i]
  {
    ReplaceAll(ReplaceAll(part, '-', '+'), '_', '/')
  }

  /** The opposite substitution, from standard base64 back to base64url. */
  function StandardToUrl(text: string): (r: string)
    ensures |r| == |text|
    ensures forall i :: 0 <= i < |text| ==> r[i] == if text[i] == '+' then '-' else if text[i] == '/' then '_' else text[i]
  {
    ReplaceAll(ReplaceAll(text, '+', '-'), '/', '_')
  }

  /** On base64url text the substitution yields standard base64 of the same length, and can be undone. */
  lemma UrlToStandardTranslatesAlphabet(part: string)
    requires forall i :: 0 <= i < |part| ==> IsBase64UrlChar(part[i])
    ensures |UrlToStandard(part)| == |part|
    ensures forall i :: 0 <= i < |part| ==> IsBase64Char(UrlToStandard(part)[i])
    ensures StandardToUrl(UrlToStandard(part)) == part
  {
  }

  /** `JSON.parse(atob(UrlToStandard(part)))`, where either step may fail. */
  function DecodePart<J>(part: string, atob: string -> Option<string>, parse: string -> Option<J>): (r: Option<J>)
    ensures r.Some? ==> atob(UrlToStandard(part)).Some? && parse(atob(UrlToStandard(part)).value) == r
    ensures atob(UrlToStandard(part)).None? ==> r.None?
  {
    match atob(UrlToStandard(part))
    case None => None
    case Some(text) => parse(text)
  }

  /**
   * `decodeJwt(token)`: exactly three dot-separated parts are required; the
   * first two are decoded and parsed and any failure gives None; the third
   * part (the signature) is never looked at.
   */
  function DecodeJwt<J>(token: string, atob: string -> Option<string>, parse: string -> Option<J>): (r: Option<DecodedJwt<J>>)
    ensures r.Some? ==> Count(token, '.') == 2
    ensures r.Some? ==> var parts := Split(token, '.');
      && |parts| == 3
      && DecodePart(parts[0], atob, parse) == Some(r.value.header)
      && DecodePart(parts[1], atob, parse) == Some(r.value.payload)
  {
    SplitCount(token, '.');
    var parts := Split(token, '.');
    if |parts| != 3 then None
    else
      match (DecodePart(parts[0], atob, parse), DecodePart(parts[1], atob, parse))
      case (Some(header), Some(payload)) => Some(DecodedJwt(header, payload))
      case _ => None
  }

  /** A token with other than two dots is not decodable. */
  lemma {:induction false} DecodeJwtNeedsTwoDots<J>(token: string, atob: string -> Option<string>, parse: string -> Option<J>)
    requires Count(token, '.') != 2
    ensures DecodeJwt(token, atob, parse).None?
  {
    SplitCount(token, '.');
  }

  /**
   * On a token made of three dot-free segments the decoder succeeds exactly
   * when both the header and the payload segment decode, and then returns
   * both; otherwise it returns nothing, never a partial result.
   */
  lemma {:induction false} DecodeJwtOfSegments<J>(h: string, p: string, sig: string,
      atob: string -> Option<string>, parse: string -> Option<J>)
    requires '.' !in h && '.' !in p && '.' !in sig
    ensures var r := DecodeJwt(h + "." + p + "." + sig, atob, parse);
      && (r.Some? <==> DecodePart(h, atob, parse).Some? && DecodePart(p, atob, parse).Some?)
      && (r.Some? ==> r.value == DecodedJwt(DecodePart(h, atob, parse).value, DecodePart(p, atob, parse).value))
  {
    var parts := [h, p, sig];
    assert Join(parts, '.') == h + "." + p + "." + sig by {
      assert Join(parts[1..], '.') == p + "." + sig by {
        assert parts[1..][1..] == [sig];
      }
    }
    SplitJoin(parts, '.');
  }

  /** The signature segment never influences the result. */
  lemma SignatureIsIgnored<J>(h: string, p: string, sig1: string, sig2: string,
      atob: string -> Option<string>, parse: string -> Option<J>)
    requires '.' !in h && '.' !in p && '.' !in sig1 && '.' !in sig2
    ensures DecodeJwt(h + "." + p + "." + sig1, atob, parse) == DecodeJwt(h + "." + p + "." + sig2, atob, parse)
  {
    DecodeJwtOfSegments(h, p, sig1, atob, parse);
    DecodeJwtOfSegments(h, p, sig2, atob, parse);
  }

  // ---------------------------------------------------------------------
  // Time-remaining formatter
  // ---------------------------------------------------------------------

  /** The countdown text and the raw number of seconds left. */
  datatype TimeLeft = TimeLeft(text: string, seconds: int)

  const ExpiredText: string := "EXPIRED"

  /** Hours, minutes and seconds of a duration, by floor division. */
  function Decompose(diff: nat): (hms: (nat, nat, nat))
    ensures hms.0 * 3600 + hms.1 * 60 + hms.2 == diff
    ensures hms.1 < 60 && hms.2 < 60
  {
    (diff / 3600, (diff % 3600) / 60, diff % 60)
  }

  /** The three text shapes: "Hh Mm Ss" with hours, "Mm Ss" with minutes only, else "Ss". */
  function CountdownText(h: nat, m: nat, s: nat): (r: string)
  {
    if h > 0 then NatToString(h) + "h " + NatToString(m) + "m " + NatToString(s) + "s"
    else if m > 0 then NatToString(m) + "m " + NatToString(s) + "s"
    else NatToString(s) + "s"
  }

  /** `formatTimeLeft(expiresAt)` with `now` the current time in whole epoch seconds. */
  function FormatTimeLeft(expiresAt: int, now: int): (r: TimeLeft)
    ensures expiresAt - now <= 0 ==> r == TimeLeft(ExpiredText, 0)
    ensures expiresAt - now > 0 ==> r.seconds == expiresAt - now && r.text != ExpiredText
    ensures r.text != ""
    ensures r.text != ExpiredText ==> r.text[|r.text| - 1] == 's'
  {
    var diff := expiresAt - now;
    if diff <= 0 then TimeLeft(ExpiredText, 0)
    else
      var hms := Decompose(diff);
      var text := CountdownText(hms.0, hms.1, hms.2);
      assert text[|text| - 1] == 's';
      TimeLeft(text, diff)
  }

  /** One word of a countdown: digits followed by the unit letter. */
  function ParseUnit(word: string, unit: char): Option<nat> {
    if |word| >= 2 && word[|word| - 1] == unit && AllDigits(word[..|word| - 1])
    then Some(DigitsValue(word[..|word| - 1]))
    else None
  }

  /** Reads a countdown text back into a number of seconds. */
  function ParseCountdown(text: string): Option<nat> {
    var w := Split(text, ' ');
    if |w| == 3 then
      match (ParseUnit(w[0], 'h'), ParseUnit(w[1], 'm'), ParseUnit(w[2], 's'))
      case (Some(h), Some(m), Some(s)) => Some(h * 3600 + m * 60 + s)
      case _ => None
    else if |w| == 2 then
      match (ParseUnit(w[0], 'm'), ParseUnit(w[1], 's'))
      case (Some(m), Some(s)) => Some(m * 60 + s)
      case _ => None
    else ParseUnit(w[0], 's')
  }

  lemma ParseUnitOfNat(n: nat, unit: char)
    requires !IsDigit(unit)
    ensures ParseUnit(NatToString(n) + [unit], unit) == Some(n)
  {
    var w := NatToString(n) + [unit];
    assert w[..|w| - 1] == NatToString(n);
    DigitsValueOfNatToString(n);
  }

  lemma NatToStringHasNoSpace(n: nat)
    ensures ' ' !in NatToString(n)
  {
  }

  lemma {:induction false} ThreeWordText(h: nat, m: nat, s: nat)
    requires h > 0
    ensures ParseCountdown(CountdownText(h, m, s)) == Some(h * 3600 + m * 60 + s)
    ensures |Split(CountdownText(h, m, s), ' ')| == 3
  {
    var hw, mw, sw := NatToString(h) + "h", NatToString(m) + "m", NatToString(s) + "s";
    NatToStringHasNoSpace(h);
    NatToStringHasNoSpace(m);
    NatToStringHasNoSpace(s);
    ParseUnitOfNat(h, 'h');
    ParseUnitOfNat(m, 'm');
    ParseUnitOfNat(s, 's');
    var parts := [hw, mw, sw];
    assert Join(parts, ' ') == CountdownText(h, m, s) by {
      assert parts[1..][1..] == [sw];
      assert Join(parts[1..], ' ') == mw + " " + sw;
    }
    SplitJoin(parts, ' ');
  }

  lemma {:induction false} TwoWordText(m: nat, s: nat)
    requires m > 0
    ensures ParseCountdown(CountdownText(0, m, s)) == Some(m * 60 + s)
    ensures |Split(CountdownText(0, m, s), ' ')| == 2
  {
    var mw, sw := NatToString(m) + "m", NatToString(s) + "s";
    NatToStringHasNoSpace(m);
    NatToStringHasNoSpace(s);
    ParseUnitOfNat(m, 'm');
    ParseUnitOfNat(s, 's');
    var parts := [mw, sw];
    assert Join(parts, ' ') == CountdownText(0, m, s) by {
      assert parts[1..] == [sw];
    }
    SplitJoin(parts, ' ');
  }

  lemma {:induction false} OneWordText(s: nat)
    ensures ParseCountdown(CountdownText(0, 0, s)) == Some(s)
    ensures |Split(CountdownText(0, 0, s), ' ')| == 1
  {
    NatToStringHasNoSpace(s);
    ParseUnitOfNat(s, 's');
    SplitJoin([NatToString(s) + "s"], ' ');
  }

  /**
   * The countdown loses nothing: for a live session its text reads back as
   * the remaining seconds, with three words from one hour on, two from one
   * minute on, and one below a minute.
   */
  lemma {:induction false} CountdownRoundTrip(expiresAt: int, now: int)
    requires expiresAt > now
    ensures ParseCountdown(FormatTimeLeft(expiresAt, now).text) == Some(expiresAt - now)
    ensures |Split(FormatTimeLeft(expiresAt, now).text, ' ')|
      == if expiresAt - now >= 3600 then 3 else if expiresAt - now >= 60 then 2 else 1
  {
    var diff := expiresAt - now;
    var hms := Decompose(diff);
    assert FormatTimeLeft(expiresAt, now).text == CountdownText(hms.0, hms.1, hms.2);
    if hms.0 > 0 {
      ThreeWordText(hms.0, hms.1, hms.2);
    } else if hms.1 > 0 {
      TwoWordText(hms.1, hms.2);
    } else {
      OneWordText(hms.2);
    }
  }

  /** The three shapes on the documented inputs. */
  lemma FormatTimeLeftExamples(now: int)
    ensures FormatTimeLeft(now + 3725, now) == TimeLeft("1h 2m 5s", 3725)
    ensures FormatTimeLeft(now + 3600, now) == TimeLeft("1h 0m 0s", 3600)
    ensures FormatTimeLeft(now + 90, now) == TimeLeft("1m 30s", 90)
    ensures FormatTimeLeft(now + 45, now) == TimeLeft("45s", 45)
  {
    assert NatToString(30) == "30" by { assert NatToString(3) == "3"; }
    assert NatToString(45) == "45" by { assert NatToString(4) == "4"; }
    assert Decompose(3725) == (1, 2, 5);
    assert CountdownText(1, 2, 5) == "1h 2m 5s";
    assert Decompose(3600) == (1, 0, 0);
    assert CountdownText(1, 0, 0) == "1h 0m 0s";
    assert Decompose(90) == (0, 1, 30);
    assert CountdownText(0, 1, 30) == "1m 30s";
    assert Decompose(45) == (0, 0, 45);
    assert CountdownText(0, 0, 45) == "45s";
  }
}
