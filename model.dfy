/**
 * The records the client exchanges with its callers, its storage and the
 * ingestion endpoint: sessions, event payloads, relations, outbound
 * requests, the client state flags and the configuration.
 *
 * Times are integer milliseconds since the epoch (UTC); the ISO-8601 text
 * the client stores and sends is not modelled, and comparing two such texts
 * of the same format is comparing the numbers.
 */
module Model {
  import opened Values

  /** A browsing session and its running counters. */
  datatype Session = Session(
    id: string,
    session_start: int,
    session_end: int,
    event_count: int,
    pageview_count: int)

  /** A relation descriptor `{ id: { [key]: value }, set_once?, set? }`
      binding an event to a record; `value == None` is a `null` id. */
  datatype Relation = Relation(
    key: string,
    value: Option<string>,
    setOnceProps: Option<Props>,
    setProps: Option<Props>)

  /** A pure linkage relation, with no property mutations. */
  function LinkRelation(key: string, value: Option<string>): (r: Relation)
    ensures r.key == key && r.value == value && r.setOnceProps.None? && r.setProps.None?
  {
    Relation(key, value, None, None)
  }

  /** An event as the caller hands it to `track`. A `created_at` marks it as
      historical. */
  datatype Event = Event(
    event_name: string,
    properties: Option<Props>,
    relations: Option<seq<Relation>>,
    created_at: Option<string>)

  /** An event as it is sent to the ingestion endpoint. */
  datatype OutEvent = OutEvent(
    event_name: string,
    properties: Props,
    relations: seq<Relation>,
    created_at: Option<string>,
    track_ip_and_geolocation: Option<bool>)

  /** `SetRecordProperties`: property changes for one record. */
  datatype RecordUpdate = RecordUpdate(
    id: string,
    slug: string,
    setProps: Option<Props>,
    setOnceProps: Option<Props>)

  /** An outbound HTTP request, as recorded in the client's request log. */
  datatype Request =
    | EventsRequest(url: string, writeKey: string, events: seq<OutEvent>)
    | IdentifyRequest(url: string, writeKey: string, anonymousId: string, userId: string)
    | RecordsRequest(url: string, writeKey: string, records: seq<RecordUpdate>)

  datatype ClientState = ClientState(trackingEnabled: bool, trackIpAndGeolocation: bool)

  /** `storageType`: any value other than the two named ones selects the
      default cookie-then-localStorage policy. */
  datatype StorageType = Cookies | LocalStorage | CookiesWithFallback

  /** A missing `enabled` flag behaves as `false` wherever it is read. */
  datatype SessionsConfig = SessionsConfig(enabled: bool, excludeEvents: seq<string>)

  /** `singlePageAppTracking` is kept as the raw option text. */
  datatype PageViewsConfig = PageViewsConfig(enabled: bool, singlePageAppTracking: Option<string>)

  datatype FormsConfig = FormsConfig(
    enabled: bool,
    excludedFormIds: seq<string>,
    excludedInputFieldNames: seq<string>)

  datatype DefaultTrackingConfig = DefaultTrackingConfig(
    pageViews: Option<PageViewsConfig>,
    sessions: Option<SessionsConfig>,
    forms: Option<FormsConfig>,
    marketingAttribution: Option<bool>)

  /** The configuration a caller passes to the client. A missing
      `disableTrackingByDefault` behaves as `false`. */
  datatype Config = Config(
    baseURL: Option<string>,
    writeKey: string,
    cookieDomain: Option<string>,
    defaultTrackingConfig: Option<DefaultTrackingConfig>,
    disableTrackingByDefault: bool,
    trackIpAndGeolocation: Option<bool>,
    storageType: StorageType)

  /** The configuration after defaults are filled in. */
  datatype FullConfig = FullConfig(
    baseURL: string,
    writeKey: string,
    cookieDomain: Option<string>,
    defaultTrackingConfig: DefaultTrackingConfig,
    disableTrackingByDefault: bool,
    trackIpAndGeolocation: Option<bool>,
    storageType: StorageType)

  const DEFAULT_BASE_URL := "https://eu.api.metrical.io"
  const NO_DEFAULT_TRACKING := DefaultTrackingConfig(None, None, None, None)

  /** The client's constructor: the defaults are written first and the
      caller's configuration is spread over them, so a `baseURL` the caller
      gives (even an empty one) replaces the default. */
  function ToFullConfig(c: Config): (f: FullConfig)
    ensures c.baseURL.None? ==> f.baseURL == DEFAULT_BASE_URL
    ensures c.baseURL.Some? ==> f.baseURL == c.baseURL.value
    ensures f.writeKey == c.writeKey && f.storageType == c.storageType
  {
    FullConfig(
      if c.baseURL.Some? then c.baseURL.value else DEFAULT_BASE_URL,
      c.writeKey,
      c.cookieDomain,
      if c.defaultTrackingConfig.Some? then c.defaultTrackingConfig.value else NO_DEFAULT_TRACKING,
      c.disableTrackingByDefault,
      c.trackIpAndGeolocation,
      c.storageType)
  }

  /** `assertConfig`: both the base URL and the write key are non-empty. */
  predicate ConfigValid(c: FullConfig) {
    c.baseURL != "" && c.writeKey != ""
  }
}
