/**
 * `PersistentStorage`: the client's identification, session and state flags,
 * kept in the cookie jar, in `localStorage`, or in the cookie jar with
 * `localStorage` as the fallback (the default policy).
 *
 * Both stores are maps from names to strings. Whether the browser keeps a
 * cookie the client writes is an oracle of the `Browser`; the client decides
 * that a write "became visible" when a cookie of that name is present after
 * the write. The cookie domain the client computes for its writes does not
 * change the jar (its probe cookie is always removed again) and is not part
 * of this model.
 */
module Storage {
  import opened Values
  import opened Model
  import opened Identity
  import opened Codec

  const IDENTIFICATION_KEY := "bigdelta_analytics_identification"
  const TRACKING_ENABLED_STATE_KEY := "bigdelta_analytics_tracking_enabled"
  const TRACK_IP_AND_GEOLOCATION_STATE_KEY := "bigdelta_analytics_track_ip_and_geolocation"
  const SESSION_KEY := "bigdelta_analytics_session"

  /** What the page offers: a `document` (and so a cookie jar), a
      `localStorage`, and which cookie writes the browser keeps. */
  datatype Browser = Browser(
    hasDocument: bool,
    hasLocalStorage: bool,
    accepts: (string, string) -> bool)

  datatype Stores = Stores(cookies: map<string, string>, local: map<string, string>)

  /** `getCookie`: `null` without a document, `undefined` for a missing cookie. */
  function CookieOf(s: Stores, b: Browser, name: string): Option<string> {
    if b.hasDocument && name in s.cookies then Some(s.cookies[name]) else None
  }

  /** `getFromLocalStorage`. */
  function LocalOf(s: Stores, b: Browser, name: string): Option<string> {
    if b.hasLocalStorage && name in s.local then Some(s.local[name]) else None
  }

  /** The private `get`. With `storageType` `cookies` or `localStorage` the
      value read is discarded and nothing is returned; otherwise a non-empty
      cookie wins over `localStorage`. */
  function GetSpec(s: Stores, b: Browser, t: StorageType, name: string): Option<string> {
    match t
    case Cookies => None
    case LocalStorage => None
    case CookiesWithFallback =>
      var c := CookieOf(s, b, name);
      if c.Some? && c.value != "" then c else LocalOf(s, b, name)
  }

  /** `setCookie`'s effect on the jar. */
  function SetCookie(s: Stores, b: Browser, name: string, value: string): Stores {
    if b.hasDocument && b.accepts(name, value) then s.(cookies := s.cookies[name := value]) else s
  }

  /** `setInLocalStorage`'s effect. */
  function SetLocal(s: Stores, b: Browser, name: string, value: string): Stores {
    if b.hasLocalStorage then s.(local := s.local[name := value]) else s
  }

  /** The value `setCookie` returns: a document exists and a cookie of that
      name is present after the write. */
  predicate CookieVisible(s: Stores, b: Browser, name: string) {
    b.hasDocument && name in s.cookies
  }

  /** The private `persist`. */
  function PersistSpec(s: Stores, b: Browser, t: StorageType, name: string, value: string): Stores {
    match t
    case Cookies => SetCookie(s, b, name, value)
    case LocalStorage => SetLocal(s, b, name, value)
    case CookiesWithFallback =>
      var s' := SetCookie(s, b, name, value);
      if CookieVisible(s', b, name) then s' else SetLocal(s', b, name, value)
  }

  /** The private `remove`. */
  function RemoveSpec(s: Stores, b: Browser, t: StorageType, name: string): Stores {
    var dropCookie := t != LocalStorage && b.hasDocument;
    var dropLocal := t != Cookies && b.hasLocalStorage;
    Stores(
      if dropCookie then s.cookies - {name} else s.cookies,
      if dropLocal then s.local - {name} else s.local)
  }

  /** A default-policy write of `value` under `name` is what a later read
      finds: the cookie is kept, or it is refused and no cookie of that name
      hides the `localStorage` copy, or there is no document at all and the
      value goes to `localStorage`. */
  predicate Lands(s: Stores, b: Browser, name: string, value: string) {
    if b.hasDocument then b.accepts(name, value) || (name !in s.cookies && b.hasLocalStorage)
    else b.hasLocalStorage
  }

  /** In the default policy, reading back a non-empty value that landed gives that value. */
  lemma PersistThenGet(s: Stores, b: Browser, name: string, value: string)
    requires value != "" && Lands(s, b, name, value)
    ensures GetSpec(PersistSpec(s, b, CookiesWithFallback, name, value), b, CookiesWithFallback, name) == Some(value)
  {
  }

  /** The fallback write happens only when the cookie is not visible: a kept
      cookie leaves `localStorage` untouched, while a refused write with no
      cookie of that name goes to `localStorage`. */
  lemma FallbackOnlyWhenNotVisible(s: Stores, b: Browser, name: string, value: string)
    requires b.hasDocument
    ensures b.accepts(name, value) ==>
      PersistSpec(s, b, CookiesWithFallback, name, value) == Stores(s.cookies[name := value], s.local)
    ensures !b.accepts(name, value) && name !in s.cookies && b.hasLocalStorage ==>
      PersistSpec(s, b, CookiesWithFallback, name, value) == Stores(s.cookies, s.local[name := value])
  {
  }

  /** An older non-empty cookie of the same name counts as a visible write, so
      a refused write is lost: no fallback happens and reads keep finding the
      older cookie. */
  lemma StaleCookieShadows(s: Stores, b: Browser, name: string, value: string)
    requires b.hasDocument && !b.accepts(name, value)
    requires name in s.cookies && s.cookies[name] != ""
    ensures PersistSpec(s, b, CookiesWithFallback, name, value) == s
    ensures GetSpec(PersistSpec(s, b, CookiesWithFallback, name, value), b, CookiesWithFallback, name)
      == Some(s.cookies[name])
  {
  }

  /** A write under one name does not change what is read under another. */
  lemma PersistOther(s: Stores, b: Browser, t: StorageType, name: string, value: string, other: string)
    requires other != name
    ensures GetSpec(PersistSpec(s, b, t, name, value), b, t, other) == GetSpec(s, b, t, other)
  {
  }

  /** After a removal nothing is read under that name, whatever the policy. */
  lemma RemoveThenGet(s: Stores, b: Browser, t: StorageType, name: string)
    ensures GetSpec(RemoveSpec(s, b, t, name), b, t, name).None?
  {
  }

  /** A removal under one name does not change what is read under another. */
  lemma RemoveOther(s: Stores, b: Browser, t: StorageType, name: string, other: string)
    requires other != name
    ensures GetSpec(RemoveSpec(s, b, t, name), b, t, other) == GetSpec(s, b, t, other)
  {
  }

  /** `flag.toString()`. */
  function BoolText(flag: bool): (s: string)
    ensures s != "" && (s == "true" <==> flag)
  {
    if flag then "true" else "false"
  }

  /** `saveClientState` on the stores. */
  function SaveClientStateSpec(s: Stores, b: Browser, t: StorageType, st: ClientState): Stores {
    var s1 := PersistSpec(s, b, t, TRACKING_ENABLED_STATE_KEY, BoolText(st.trackingEnabled));
    PersistSpec(s1, b, t, TRACK_IP_AND_GEOLOCATION_STATE_KEY, BoolText(st.trackIpAndGeolocation))
  }

  /** `loadClientState` on what is read back: each flag starts from its
      default and a non-empty stored text overrides it, `"true"` meaning true
      and any other text false. */
  function ClientStateFrom(enabledText: Option<string>, ipText: Option<string>, config: FullConfig): ClientState {
    var trackingEnabled := !config.disableTrackingByDefault;
    var trackIp := config.trackIpAndGeolocation != Some(false);
    ClientState(
      if enabledText.Some? && |enabledText.value| > 0 then enabledText.value == "true" else trackingEnabled,
      if ipText.Some? && |ipText.value| > 0 then ipText.value == "true" else trackIp)
  }

  /** In the default policy, when both flag writes land, loading the client
      state gives back the state that was saved. */
  lemma ClientStateRoundTrip(s: Stores, b: Browser, st: ClientState, config: FullConfig)
    requires Lands(s, b, TRACKING_ENABLED_STATE_KEY, BoolText(st.trackingEnabled))
    requires Lands(PersistSpec(s, b, CookiesWithFallback, TRACKING_ENABLED_STATE_KEY, BoolText(st.trackingEnabled)),
                   b, TRACK_IP_AND_GEOLOCATION_STATE_KEY, BoolText(st.trackIpAndGeolocation))
    ensures var s' := SaveClientStateSpec(s, b, CookiesWithFallback, st);
      ClientStateFrom(GetSpec(s', b, CookiesWithFallback, TRACKING_ENABLED_STATE_KEY),
                      GetSpec(s', b, CookiesWithFallback, TRACK_IP_AND_GEOLOCATION_STATE_KEY), config) == st
  {
    var t := CookiesWithFallback;
    var s1 := PersistSpec(s, b, t, TRACKING_ENABLED_STATE_KEY, BoolText(st.trackingEnabled));
    PersistThenGet(s, b, TRACKING_ENABLED_STATE_KEY, BoolText(st.trackingEnabled));
    PersistOther(s1, b, t, TRACK_IP_AND_GEOLOCATION_STATE_KEY, BoolText(st.trackIpAndGeolocation), TRACKING_ENABLED_STATE_KEY);
    PersistThenGet(s1, b, TRACK_IP_AND_GEOLOCATION_STATE_KEY, BoolText(st.trackIpAndGeolocation));
  }

  /** The persistent storage of one client. */
  class PersistentStorage {
    const config: FullConfig
    const browser: Browser
    var cookies: map<string, string>
    var local: map<string, string>

    function Current(): Stores
      reads this
    {
      Stores(cookies, local)
    }

    constructor (config: FullConfig, browser: Browser, initial: Stores)
      ensures this.config == config && this.browser == browser && Current() == initial
    {
      this.config := config;
      this.browser := browser;
      cookies := initial.cookies;
      local := initial.local;
    }

    /** The private `get`. */
    function Get(name: string): Option<string>
      reads this
    {
      GetSpec(Current(), browser, config.storageType, name)
    }

    /** The private `persist`. */
    method Persist(name: string, value: string)
      modifies this
      ensures Current() == PersistSpec(old(Current()), browser, config.storageType, name, value)
    {
      match config.storageType {
        case Cookies =>
          if browser.hasDocument && browser.accepts(name, value) {
            cookies := cookies[name := value];
          }
        case LocalStorage =>
          if browser.hasLocalStorage {
            local := local[name := value];
          }
        case CookiesWithFallback =>
          if browser.hasDocument && browser.accepts(name, value) {
            cookies := cookies[name := value];
          }
          var isSet := browser.hasDocument && name in cookies;
          if !isSet && browser.hasLocalStorage {
            local := local[name := value];
          }
      }
    }

    /** The private `remove`. */
    method Remove(name: string)
      modifies this
      ensures Current() == RemoveSpec(old(Current()), browser, config.storageType, name)
    {
      if config.storageType != LocalStorage && browser.hasDocument {
        cookies := cookies - {name};
      }
      if config.storageType != Cookies && browser.hasLocalStorage {
        local := local - {name};
      }
    }

    /** `saveIdentification`: `null` removes the entry, anything else stores
        its text. */
    method SaveIdentification(id: Option<Identification>)
      modifies this
      ensures id.None? ==> Current() == RemoveSpec(old(Current()), browser, config.storageType, IDENTIFICATION_KEY)
      ensures id.Some? ==> Current() == PersistSpec(old(Current()), browser, config.storageType,
                                                    IDENTIFICATION_KEY, EncodeIdentification(id.value))
    {
      if id.None? {
        Remove(IDENTIFICATION_KEY);
      } else {
        Persist(IDENTIFICATION_KEY, EncodeIdentification(id.value));
      }
    }

    /** `loadIdentification`: nothing for a missing, empty or unreadable entry. */
    function LoadIdentification(): (r: Option<Identification>)
      reads this
      ensures (Get(IDENTIFICATION_KEY).None? || Get(IDENTIFICATION_KEY) == Some("")) ==> r.None?
      ensures config.storageType != CookiesWithFallback ==> r.None?
      ensures Get(IDENTIFICATION_KEY).Some? && Get(IDENTIFICATION_KEY).value != "" ==> r == DecodeIdentification(Get(IDENTIFICATION_KEY).value)
    {
      var item := Get(IDENTIFICATION_KEY);
      assert config.storageType != CookiesWithFallback ==> item.None?;
      if item.None? || |item.value| < 1 then None else DecodeIdentification(item.value)
    }

    /** `saveSession`: `null` removes the entry, anything else stores its text. */
    method SaveSession(session: Option<Session>)
      modifies this
      ensures session.None? ==> Current() == RemoveSpec(old(Current()), browser, config.storageType, SESSION_KEY)
      ensures session.Some? ==> Current() == PersistSpec(old(Current()), browser, config.storageType,
                                                         SESSION_KEY, EncodeSession(session.value))
    {
      if session.None? {
        Remove(SESSION_KEY);
      } else {
        Persist(SESSION_KEY, EncodeSession(session.value));
      }
    }

    /** `loadSession`: nothing for a missing, empty or unreadable entry. */
    function LoadSession(): (r: Option<Session>)
      reads this
      ensures (Get(SESSION_KEY).None? || Get(SESSION_KEY) == Some("")) ==> r.None?
      ensures config.storageType != CookiesWithFallback ==> r.None?
      ensures Get(SESSION_KEY).Some? && Get(SESSION_KEY).value != "" ==> r == DecodeSession(Get(SESSION_KEY).value)
    {
      var item := Get(SESSION_KEY);
      assert config.storageType != CookiesWithFallback ==> item.None?;
      if item.None? || |item.value| < 1 then None else DecodeSession(item.value)
    }

    /** `saveClientState`: each flag is written as `"true"` or `"false"`. */
    method SaveClientState(st: ClientState)
      modifies this
      ensures Current() == SaveClientStateSpec(old(Current()), browser, config.storageType, st)
    {
      Persist(TRACKING_ENABLED_STATE_KEY, BoolText(st.trackingEnabled));
      Persist(TRACK_IP_AND_GEOLOCATION_STATE_KEY, BoolText(st.trackIpAndGeolocation));
    }

    /** `loadClientState`: each flag starts from its configured default; a
        non-empty stored text replaces it, and only `"true"` reads as true. */
    method LoadClientState() returns (st: ClientState)
      ensures st == ClientStateFrom(Get(TRACKING_ENABLED_STATE_KEY), Get(TRACK_IP_AND_GEOLOCATION_STATE_KEY), config)
      ensures (Get(TRACKING_ENABLED_STATE_KEY).None? || Get(TRACKING_ENABLED_STATE_KEY) == Some(""))
        ==> st.trackingEnabled == !config.disableTrackingByDefault
      ensures (Get(TRACK_IP_AND_GEOLOCATION_STATE_KEY).None? || Get(TRACK_IP_AND_GEOLOCATION_STATE_KEY) == Some(""))
        ==> (st.trackIpAndGeolocation <==> config.trackIpAndGeolocation != Some(false))
      ensures Get(TRACKING_ENABLED_STATE_KEY).Some? && Get(TRACKING_ENABLED_STATE_KEY).value != ""
        ==> (st.trackingEnabled <==> Get(TRACKING_ENABLED_STATE_KEY).value == "true")
      ensures Get(TRACK_IP_AND_GEOLOCATION_STATE_KEY).Some? && Get(TRACK_IP_AND_GEOLOCATION_STATE_KEY).value != ""
        ==> (st.trackIpAndGeolocation <==> Get(TRACK_IP_AND_GEOLOCATION_STATE_KEY).value == "true")
    {
      var trackingEnabled := !config.disableTrackingByDefault;
      var trackIpAndGeolocation := config.trackIpAndGeolocation != Some(false);

      var trackingEnabledCookie := Get(TRACKING_ENABLED_STATE_KEY);
      var trackIpAndGeolocationCookie := Get(TRACK_IP_AND_GEOLOCATION_STATE_KEY);

      if trackingEnabledCookie.Some? && |trackingEnabledCookie.value| > 0 {
        trackingEnabled := trackingEnabledCookie.value == "true";
      }
      if trackIpAndGeolocationCookie.Some? && |trackIpAndGeolocationCookie.value| > 0 {
        trackIpAndGeolocation := trackIpAndGeolocationCookie.value == "true";
      }
      st := ClientState(trackingEnabled, trackIpAndGeolocation);
    }
  }

  /** In the default policy, a saved identification with distinct keys whose
      write lands is what the next load returns. */
  lemma IdentificationSaveLoad(s: Stores, b: Browser, id: Identification)
    requires DistinctKeys(id) && Lands(s, b, IDENTIFICATION_KEY, EncodeIdentification(id))
    ensures var s' := PersistSpec(s, b, CookiesWithFallback, IDENTIFICATION_KEY, EncodeIdentification(id));
      GetSpec(s', b, CookiesWithFallback, IDENTIFICATION_KEY) == Some(EncodeIdentification(id)) &&
      DecodeIdentification(EncodeIdentification(id)) == Some(id)
  {
    PersistThenGet(s, b, IDENTIFICATION_KEY, EncodeIdentification(id));
    IdentificationRoundTrip(id);
  }

  /** In the default policy, a saved session whose write lands is what the
      next load returns. */
  lemma SessionSaveLoad(s: Stores, b: Browser, x: Session)
    requires Lands(s, b, SESSION_KEY, EncodeSession(x))
    ensures var s' := PersistSpec(s, b, CookiesWithFallback, SESSION_KEY, EncodeSession(x));
      GetSpec(s', b, CookiesWithFallback, SESSION_KEY) == Some(EncodeSession(x)) &&
      DecodeSession(EncodeSession(x)) == Some(x)
  {
    PersistThenGet(s, b, SESSION_KEY, EncodeSession(x));
    SessionRoundTrip(x);
  }
}
