/**
 * The `Metrical` client: it holds the configuration, the client-state flags,
 * the identification and the current session, keeps them in persistent
 * storage, and sends event batches, identify calls and record updates to
 * the ingestion endpoint.
 *
 * The network is a log: each request the client sends is appended to the
 * field `sent`. What the page offers (the user agent and screen, the
 * referrer, URL parsing, the channel classifier, percent-decoding) is an
 * `Env`; the clock (`now`, in milliseconds) and the UUID generator (the
 * fresh ids) are parameters of the calls that read them.
 */
module Client {
  import opened Values
  import opened Model
  import opened Identity
  import opened Storage
  import opened Codec
  import opened Sessions
  import opened SessionMapper
  import UserAgent
  import Attribution
  import Navigation
  import Forms

  const EVENTS_PATH := "/v1/ingestion/events"
  const IDENTIFY_PATH := "/v1/ingestion/identify"
  const RECORDS_PATH := "/v1/ingestion/records"
  const FORM_SUBMITTED_EVENT_NAME := "Form Submitted"

  /** An argument that may be missing, one item, or an array of items. */
  datatype OneOrMany<T> = Missing | One(item: T) | Many(items: seq<T>) {
    function Items(): (r: seq<T>)
      requires !Missing?
      ensures One? ==> r == [item]
      ensures Many? ==> r == items
    {
      if One? then [item] else items
    }
  }

  /** What the page offers to the client. */
  datatype Env = Env(
    userAgent: string,
    msStream: bool,
    uaData: UserAgent.UaData,
    screenHeight: int,
    screenWidth: int,
    referrer: string,
    hostnameOf: string -> Option<string>,
    channel: ChannelInputs -> string,
    decode: string -> string)

  /** `window.location` and `document.title` at the time of a page view. */
  datatype PageContext = PageContext(
    title: string,
    href: string,
    protocol: string,
    hostname: string,
    pathname: string,
    search: string)

  /** Everything a call of the client can change. */
  datatype State = State(
    clientState: ClientState,
    identification: Option<Identification>,
    session: Option<Session>,
    stores: Stores,
    sent: seq<Request>)

  function SessionsCfg(config: FullConfig): Option<SessionsConfig> {
    config.defaultTrackingConfig.sessions
  }

  /** `parseReferringDomain`: nothing for an empty referrer or one that is
      not a URL, its host name otherwise. */
  function ReferringDomain(env: Env): (v: Value)
    ensures env.referrer == "" ==> v == Undefined
    ensures env.referrer != "" && env.hostnameOf(env.referrer).Some? ==> v == Str(env.hostnameOf(env.referrer).value)
    ensures env.referrer != "" && env.hostnameOf(env.referrer).None? ==> v == Undefined
  {
    if env.referrer == "" then Undefined
    else match env.hostnameOf(env.referrer)
      case None => Undefined
      case Some(h) => Str(h)
  }

  /** The properties `track` adds to every event. */
  function Enrichment(env: Env, browser: UserAgent.BrowserInfo, os: string): Props {
    map[
      "$screen_height" := Num(env.screenHeight),
      "$screen_width" := Num(env.screenWidth),
      "$referrer" := Str(env.referrer),
      "$referring_domain" := ReferringDomain(env),
      "$operating_system" := Str(os),
      "$device_type" := Str(UserAgent.DeviceType(env.userAgent)),
      "$browser" := Str(browser.name),
      "$browser_version" := if browser.version.Some? then Str(browser.version.value) else Undefined]
  }

  function PropsOf(e: Event): Props {
    if e.properties.Some? then e.properties.value else map[]
  }

  function CallerRelations(e: Event): seq<Relation> {
    if e.relations.Some? then e.relations.value else []
  }

  /** The enriched events: the added properties first, the caller's
      properties spread over them. */
  function Enrich(events: seq<Event>, extra: Props): (r: seq<Event>)
    ensures |r| == |events|
    ensures forall i :: 0 <= i < |events| ==>
      r[i].event_name == events[i].event_name && r[i].relations == events[i].relations &&
      r[i].created_at == events[i].created_at && r[i].properties.Some?
    ensures forall i :: 0 <= i < |events| ==> r[i].properties.value.Keys == extra.Keys + PropsOf(events[i]).Keys
    ensures forall i, k :: 0 <= i < |events| && k in PropsOf(events[i]) ==>
      r[i].properties.value[k] == PropsOf(events[i])[k]
    ensures forall i, k :: 0 <= i < |events| && k in extra && k !in PropsOf(events[i]) ==>
      r[i].properties.value[k] == extra[k]
  {
    seq(|events|, i requires 0 <= i < |events| => events[i].(properties := Some(extra + PropsOf(events[i]))))
  }

  /** Enrichment changes no event's session scope. */
  lemma {:induction false} EnrichKeepsScope(events: seq<Event>, extra: Props, cfg: Option<SessionsConfig>)
    ensures |Eligible(Enrich(events, extra), cfg)| == |Eligible(events, cfg)|
  {
    if events != [] {
      assert Enrich(events, extra)[1..] == Enrich(events[1..], extra);
      EnrichKeepsScope(events[1..], extra, cfg);
    }
  }

  /** The key of the relation binding an event to the current session. */
  const SESSION_ID_KEY := "session_id"

  /** One event as sent. */
  function Finalize(e: Event, ids: seq<Relation>, sessionRel: Option<Relation>,
                    cfg: Option<SessionsConfig>, trackIp: bool): OutEvent {
    OutEvent(
      e.event_name,
      PropsOf(e),
      ids + (if sessionRel.Some? && InScope(e, cfg) then [sessionRel.value] else []) + CallerRelations(e),
      e.created_at,
      if trackIp then None else Some(false))
  }

  function Batch(enriched: seq<Event>, ids: seq<Relation>, sessionRel: Option<Relation>,
                 cfg: Option<SessionsConfig>, trackIp: bool): (r: seq<OutEvent>)
    ensures |r| == |enriched|
    ensures forall i :: 0 <= i < |enriched| ==>
      r[i].event_name == enriched[i].event_name && r[i].properties == PropsOf(enriched[i]) &&
      r[i].created_at == enriched[i].created_at
    ensures forall i :: 0 <= i < |enriched| ==>
      (r[i].track_ip_and_geolocation.None? <==> trackIp) &&
      (r[i].track_ip_and_geolocation.Some? ==> r[i].track_ip_and_geolocation.value == false)
    ensures forall i :: 0 <= i < |enriched| ==>
      var rels, n := r[i].relations, |CallerRelations(enriched[i])|;
      |rels| >= |ids| + n && rels[..|ids|] == ids && rels[|rels| - n..] == CallerRelations(enriched[i])
    ensures forall i :: 0 <= i < |enriched| ==>
      var rels, n := r[i].relations, |CallerRelations(enriched[i])|;
      if sessionRel.Some? && InScope(enriched[i], cfg) then |rels| == |ids| + 1 + n && rels[|ids|] == sessionRel.value
      else |rels| == |ids| + n
  {
    seq(|enriched|, i requires 0 <= i < |enriched| => Finalize(enriched[i], ids, sessionRel, cfg, trackIp))
  }

  /** `tryUpdateSessionState` on the state. */
  function SessionUpdate(config: FullConfig, browser: Browser, s: State, events: seq<Event>,
                         now: int, freshId: string): (r: (State, SessionInfo))
    ensures r.1 == SessionStep(s.session, events, SessionsCfg(config), now, freshId).1
    ensures r.0.session == SessionStep(s.session, events, SessionsCfg(config), now, freshId).0
    ensures r.0.clientState == s.clientState && r.0.identification == s.identification && r.0.sent == s.sent
  {
    var (next, info) := SessionStep(s.session, events, SessionsCfg(config), now, freshId);
    if info.shouldTrack then
      (s.(session := next, stores := PersistSpec(s.stores, browser, config.storageType, SESSION_KEY, EncodeSession(next.value))), info)
    else (s, info)
  }

  /** The first half of `getIdentificationRelations`: a fresh
      `{ anonymous_id }` is created and saved when none is held. */
  function IdentificationUpdate(config: FullConfig, browser: Browser, s: State, anonId: string): (r: State)
    ensures r.identification == Some(EnsureIdentification(s.identification, anonId))
    ensures r.clientState == s.clientState && r.session == s.session && r.sent == s.sent
    ensures s.identification.Some? ==> r == s
    ensures s.identification.None? ==> r.stores == PersistSpec(s.stores, browser, config.storageType, IDENTIFICATION_KEY,
                                                             EncodeIdentification([IdEntry(ANONYMOUS_ID, Some(anonId))]))
  {
    if s.identification.Some? then s
    else
      var id := [IdEntry(ANONYMOUS_ID, Some(anonId))];
      s.(identification := Some(id),
         stores := PersistSpec(s.stores, browser, config.storageType, IDENTIFICATION_KEY, EncodeIdentification(id)))
  }

  /** The session relation of a batch, when the batch is tracked in the
      session (`getSessionProperties` and the relation built from it). */
  function SessionRelationFor(info: SessionInfo, enriched: seq<Event>, cfg: Option<SessionsConfig>,
                              session: Option<Session>, channel: ChannelInputs -> string): (r: Option<Relation>)
    requires info.shouldTrack ==> session.Some? && |Eligible(enriched, cfg)| > 0
    ensures r.Some? <==> info.shouldTrack
  {
    if info.shouldTrack then
      var props := SessionRelationProps(info, enriched, cfg, session, channel);
      Some(Relation(SESSION_ID_KEY, Some(session.value.id), Some(props.0), Some(props.1)))
    else None
  }

  /** What a `track` call that gets as far as sending does: the state before
      the request is appended, the session report, and the batch. */
  datatype TrackRun = TrackRun(state: State, info: SessionInfo, enriched: seq<Event>, batch: seq<OutEvent>)

  /** The part of `track` after its early returns: enrichment, the session
      update and the batch. */
  function Proceed(config: FullConfig, browser: Browser, s: State, events: seq<Event>, env: Env,
                   b: UserAgent.BrowserInfo, os: string, now: int, sessionId: string, anonId: string): (r: TrackRun)
    requires |events| > 0
    ensures |r.enriched| == |events|
    ensures r.info.shouldTrack ==>
      r.state.session.Some? && |Eligible(r.enriched, SessionsCfg(config))| > 0
  {
    var enriched := Enrich(events, Enrichment(env, b, os));
    var updated := SessionUpdate(config, browser, s, events, now, sessionId);
    var s1 := updated.0;
    var info := updated.1;
    EnrichKeepsScope(events, Enrichment(env, b, os), SessionsCfg(config));
    var sessionRel := SessionRelationFor(info, enriched, SessionsCfg(config), s1.session, env.channel);
    var s2 := IdentificationUpdate(config, browser, s1, anonId);
    var batch := Batch(enriched, Relations(s2.identification.value), sessionRel, SessionsCfg(config),
                       s2.clientState.trackIpAndGeolocation);
    TrackRun(s2, info, enriched, batch)
  }

  /** `track`: `None` when the call returns early or fails before sending. */
  function RunTrack(config: FullConfig, browser: Browser, s: State, payload: OneOrMany<Event>, env: Env,
                    now: int, sessionId: string, anonId: string): (r: Option<TrackRun>)
    ensures r.Some? ==> !payload.Missing? && |r.value.enriched| == |payload.Items()| > 0
    ensures r.Some? && r.value.info.shouldTrack ==>
      r.value.state.session.Some? && |Eligible(r.value.enriched, SessionsCfg(config))| > 0
  {
    if payload.Missing? || !s.clientState.trackingEnabled then None
    else
      var events := payload.Items();
      var b := UserAgent.BrowserWithVersion(env.userAgent);
      var os := UserAgent.OperatingSystem(env.userAgent, env.msStream, env.uaData);
      if |events| == 0 || !ConfigValid(config) || b.Throws? || os.Throws? then None
      else Some(Proceed(config, browser, s, events, env, b.value, os.value, now, sessionId, anonId))
  }

  /** The state once the batch of `run` is posted to the events endpoint. */
  function Delivered(config: FullConfig, run: TrackRun): State {
    run.state.(sent := run.state.sent + [EventsRequest(config.baseURL + EVENTS_PATH, config.writeKey, run.batch)])
  }

  /** The state after `track`. */
  function TrackSpec(config: FullConfig, browser: Browser, s: State, payload: OneOrMany<Event>, env: Env,
                     now: int, sessionId: string, anonId: string): State
  {
    match RunTrack(config, browser, s, payload, env, now, sessionId, anonId)
    case None => s
    case Some(run) => Delivered(config, run)
  }

  predicate Present(v: Option<Option<string>>) {
    v.Some? && v.value.Some? && v.value.value != ""
  }

  /** `identifyCallout`: linking happens only when both ids are present and
      the configuration is valid. */
  function IdentifyCallout(config: FullConfig, merged: Identification): (r: seq<Request>)
    ensures |r| <= 1
    ensures |r| == 1 <==> Present(Get(merged, ANONYMOUS_ID)) && Present(Get(merged, USER_ID)) && ConfigValid(config)
    ensures |r| == 1 ==> r[0] == IdentifyRequest(config.baseURL + IDENTIFY_PATH, config.writeKey,
                                                  Get(merged, ANONYMOUS_ID).value.value, Get(merged, USER_ID).value.value)
  {
    var anon := Get(merged, ANONYMOUS_ID);
    var user := Get(merged, USER_ID);
    if Present(anon) && Present(user) && ConfigValid(config) then
      [IdentifyRequest(config.baseURL + IDENTIFY_PATH, config.writeKey, anon.value.value, user.value.value)]
    else []
  }

  function HeldOrEmpty(held: Option<Identification>): Identification {
    if held.Some? then held.value else []
  }

  /** The state after `identify`. */
  function IdentifySpec(config: FullConfig, browser: Browser, s: State, updates: seq<(string, Value)>): State {
    if !s.clientState.trackingEnabled || |updates| == 0 then s
    else
      var merged := Merge(HeldOrEmpty(s.identification), updates);
      var kept := Delete(merged, ANONYMOUS_ID);
      s.(identification := Some(kept),
         sent := s.sent + IdentifyCallout(config, merged),
         stores := PersistSpec(s.stores, browser, config.storageType, IDENTIFICATION_KEY, EncodeIdentification(kept)))
  }

  /** The state after `setRecordProperties`. */
  function RecordsSpec(config: FullConfig, s: State, records: OneOrMany<RecordUpdate>): State {
    if records.Missing? || !s.clientState.trackingEnabled then s
    else
      var rs := records.Items();
      if |rs| == 0 || !ConfigValid(config) then s
      else s.(sent := s.sent + [RecordsRequest(config.baseURL + RECORDS_PATH, config.writeKey, rs)])
  }

  /** The state after `reset`. */
  function ResetSpec(config: FullConfig, browser: Browser, s: State): State {
    var s1 := RemoveSpec(s.stores, browser, config.storageType, IDENTIFICATION_KEY);
    s.(identification := None, session := None, stores := RemoveSpec(s1, browser, config.storageType, SESSION_KEY))
  }

  /** The state after `setState(st)`. */
  function SetStateSpec(config: FullConfig, browser: Browser, s: State, st: ClientState): State {
    s.(clientState := st, stores := SaveClientStateSpec(s.stores, browser, config.storageType, st))
  }

  predicate AttributionEnabled(config: FullConfig) {
    config.defaultTrackingConfig.marketingAttribution != Some(false)
  }

  function PageProperties(ctx: PageContext): Props {
    map[
      "$title" := Str(ctx.title),
      "$location" := Str(ctx.href),
      "$protocol" := Str(ctx.protocol),
      "$domain" := Str(ctx.hostname),
      "$path" := Str(ctx.pathname),
      "$query" := Str(ctx.search)]
  }

  /** The event `trackWithPageContext` hands to `track`: page properties,
      then the marketing attribution parameters when enabled, then the
      caller's properties; the name defaults to "Page View". */
  function PageViewEvent(config: FullConfig, ctx: PageContext, payload: Option<Event>, decode: string -> string): Event {
    var attribution := if AttributionEnabled(config)
      then (var m := Attribution.MarketingAttributionParameters(ctx.href, decode); map k | k in m :: Str(m[k])) else map[];
    var callerProps := if payload.Some? then PropsOf(payload.value) else map[];
    var props := PageProperties(ctx) + attribution + callerProps;
    var name := if payload.Some? && payload.value.event_name != "" then payload.value.event_name else PAGE_VIEW_EVENT_NAME;
    if payload.Some? then payload.value.(event_name := name, properties := Some(props))
    else Event(name, Some(props), None, None)
  }

  /** The payload the form tracker's callback passes on. */
  function FormSubmittedEvent(formId: string, formData: map<string, string>): Event {
    Event(FORM_SUBMITTED_EVENT_NAME, Some(map["$form_data" := Obj(map k | k in formData :: Str(formData[k])), "$form_id" := Str(formId)]), None, None)
  }

  /** The `reduce` in `identify`: each update whose value is a string, a
      number or `null` is written into the aggregate, in order. */
  method MergeUpdates(base: Identification, updates: seq<(string, Value)>) returns (agg: Identification)
    ensures agg == Merge(base, updates)
  {
    agg := base;
    var k := 0;
    while k < |updates|
      invariant 0 <= k <= |updates|
      invariant agg == Merge(base, updates[..k])
    {
      assert updates[..k + 1][..k] == updates[..k];
      var (key, value) := updates[k];
      if value.Str? || value.Num? || value.Null? {
        agg := Put(agg, key, if value.Null? then None else Some(JsString(value)));
      }
      k := k + 1;
    }
    assert updates[..k] == updates;
  }

  class Metrical {
    const config: FullConfig
    const storage: PersistentStorage
    var clientState: ClientState
    var identification: Option<Identification>
    var session: Option<Session>
    /** The requests sent so far, oldest first. */
    var sent: seq<Request>

    function Snapshot(): State
      reads this, storage
    {
      State(clientState, identification, session, storage.Current(), sent)
    }

    /** The storage writes with this client's configuration, and the held
        identification has distinct keys, as an object's keys are. */
    predicate Valid()
      reads this
    {
      storage.config == config &&
      (identification.Some? ==> DistinctKeys(identification.value))
    }

    /** The constructor: the state is loaded from storage, and tracking is
        switched off for a bot user agent. */
    constructor (c: Config, browser: Browser, initial: Stores, isBot: bool)
      ensures Valid() && fresh(storage)
      ensures config == ToFullConfig(c) && storage.browser == browser && sent == []
      ensures identification == DecodedOrNone(ToFullConfig(c), browser, initial, IDENTIFICATION_KEY)
      ensures session == (var t := GetSpec(initial, browser, ToFullConfig(c).storageType, SESSION_KEY);
                          if t.None? || t.value == "" then None else DecodeSession(t.value))
      ensures var loaded := ClientStateFrom(GetSpec(initial, browser, ToFullConfig(c).storageType, TRACKING_ENABLED_STATE_KEY),
                                            GetSpec(initial, browser, ToFullConfig(c).storageType, TRACK_IP_AND_GEOLOCATION_STATE_KEY),
                                            ToFullConfig(c));
        if isBot then
          clientState == loaded.(trackingEnabled := false) &&
          storage.Current() == SaveClientStateSpec(initial, browser, ToFullConfig(c).storageType, clientState)
        else clientState == loaded && storage.Current() == initial
    {
      config := ToFullConfig(c);
      var st := new PersistentStorage(ToFullConfig(c), browser, initial);
      storage := st;
      var loaded := st.LoadClientState();
      clientState := loaded;
      identification := st.LoadIdentification();
      session := st.LoadSession();
      sent := [];
      if st.Get(IDENTIFICATION_KEY).Some? {
        DecodedIdentificationDistinct(st.Get(IDENTIFICATION_KEY).value);
      }
      new;
      if isBot {
        DisableTracking();
      }
    }

    /** `track`. */
    method Track(payload: OneOrMany<Event>, env: Env, now: int, sessionId: string, anonId: string)
      requires Valid()
      modifies this, storage
      ensures Valid()
      ensures Snapshot() == TrackSpec(config, storage.browser, old(Snapshot()), payload, env, now, sessionId, anonId)
    {
      if payload.Missing? || !clientState.trackingEnabled {
        return;
      }
      var events := payload.Items();
      if |events| == 0 {
        return;
      }
      if !ConfigValid(config) {
        return;
      }
      var browserWithVersion := UserAgent.BrowserWithVersion(env.userAgent);
      var operatingSystem := UserAgent.OperatingSystem(env.userAgent, env.msStream, env.uaData);
      if browserWithVersion.Throws? || operatingSystem.Throws? {
        return;
      }
      SendEvents(events, env, browserWithVersion.value, operatingSystem.value, now, sessionId, anonId);
    }

    /** The body of `track` once the early returns are passed: the events are
        enriched, the session is updated, the batch is assembled and posted. */
    method SendEvents(events: seq<Event>, env: Env, b: UserAgent.BrowserInfo, os: string,
                      now: int, sessionId: string, anonId: string)
      requires Valid() && |events| > 0
      modifies this, storage
      ensures Valid()
      ensures Snapshot() == Delivered(config, Proceed(config, storage.browser, old(Snapshot()), events, env, b, os,
                                                      now, sessionId, anonId))
    {
      ghost var s0 := Snapshot();
      var enriched := Enrich(events, Enrichment(env, b, os));
      var info := TryUpdateSessionState(events, now, sessionId);
      EnrichKeepsScope(events, Enrichment(env, b, os), SessionsCfg(config));
      var sessionRel := SessionRelationOf(info, enriched, env.channel);
      var out := AssembleBatch(enriched, sessionRel, anonId);
      ghost var run := TrackRun(Snapshot(), info, enriched, out);
      assert Proceed(config, storage.browser, s0, events, env, b, os, now, sessionId, anonId) == run;
      sent := sent + [EventsRequest(config.baseURL + EVENTS_PATH, config.writeKey, out)];
    }

    /** The session relation `track` attaches when the batch counts towards
        the session: `getSessionProperties` of the held session. */
    method SessionRelationOf(info: SessionInfo, enriched: seq<Event>, channel: ChannelInputs -> string)
      returns (sessionRel: Option<Relation>)
      requires info.shouldTrack ==> session.Some? && |Eligible(enriched, SessionsCfg(config))| > 0
      ensures sessionRel == SessionRelationFor(info, enriched, SessionsCfg(config), session, channel)
    {
      sessionRel := None;
      if info.shouldTrack {
        var (setOnce, setProps) := SessionRelationProps(info, enriched, SessionsCfg(config), session, channel);
        sessionRel := Some(Relation(SESSION_ID_KEY, Some(session.value.id), Some(setOnce), Some(setProps)));
      }
    }

    /** The `map` that gives each enriched event its relations and the
        location marker; each element asks `getIdentificationRelations`
        afresh. */
    method AssembleBatch(enriched: seq<Event>, sessionRel: Option<Relation>, anonId: string) returns (out: seq<OutEvent>)
      requires Valid() && |enriched| > 0
      modifies this, storage
      ensures Valid()
      ensures Snapshot() == IdentificationUpdate(config, storage.browser, old(Snapshot()), anonId)
      ensures out == Batch(enriched, Relations(identification.value), sessionRel, SessionsCfg(config),
                           clientState.trackIpAndGeolocation)
    {
      ghost var s1 := Snapshot();
      ghost var s2 := IdentificationUpdate(config, storage.browser, s1, anonId);
      out := [];
      var i := 0;
      while i < |enriched|
        invariant 0 <= i <= |enriched|
        invariant Valid()
        invariant Snapshot() == if i == 0 then s1 else s2
        invariant |out| == i
        invariant forall j :: 0 <= j < i ==>
          out[j] == Finalize(enriched[j], Relations(s2.identification.value), sessionRel, SessionsCfg(config),
                             clientState.trackIpAndGeolocation)
      {
        var ids := GetIdentificationRelations(anonId);
        var event := enriched[i];
        var relations := ids + (if sessionRel.Some? && InScope(event, SessionsCfg(config)) then [sessionRel.value] else []) +
          CallerRelations(event);
        var marker := if clientState.trackIpAndGeolocation == false then Some(false) else None;
        out := out + [OutEvent(event.event_name, PropsOf(event), relations, event.created_at, marker)];
        i := i + 1;
      }
    }

    /** `tryUpdateSessionState`. */
    method TryUpdateSessionState(events: seq<Event>, now: int, freshId: string) returns (info: SessionInfo)
      requires Valid()
      modifies this, storage
      ensures Valid()
      ensures (Snapshot(), info) == SessionUpdate(config, storage.browser, old(Snapshot()), events, now, freshId)
    {
      var sessionsConfig := SessionsCfg(config);
      if sessionsConfig.None? || sessionsConfig.value.enabled {
        var eligibleEvents := Eligible(events, sessionsConfig);
        if |eligibleEvents| == 0 {
          assert SessionStep(session, events, sessionsConfig, now, freshId) == (session, SessionInfo(false, false));
          return SessionInfo(false, false);
        }
        var currentBatchEventCount := |eligibleEvents|;
        var currentBatchPageViewCount := PageViews(eligibleEvents);
        ghost var s0 := Snapshot();
        if session.Some? && now < session.value.session_end {
          var next := session.value.(
            session_end := now + SESSION_LENGTH_MS,
            event_count := session.value.event_count + currentBatchEventCount,
            pageview_count := session.value.pageview_count + currentBatchPageViewCount);
          assert SessionStep(session, events, sessionsConfig, now, freshId) == (Some(next), SessionInfo(true, false));
          StoreSession(next);
          assert (Snapshot(), SessionInfo(true, false)) == SessionUpdate(config, storage.browser, s0, events, now, freshId);
          return SessionInfo(true, false);
        } else {
          var next := Session(freshId, now, now + SESSION_LENGTH_MS, currentBatchEventCount, currentBatchPageViewCount);
          assert SessionStep(session, events, sessionsConfig, now, freshId) == (Some(next), SessionInfo(true, true));
          StoreSession(next);
          assert (Snapshot(), SessionInfo(true, true)) == SessionUpdate(config, storage.browser, s0, events, now, freshId);
          return SessionInfo(true, true);
        }
      }
      assert SessionStep(session, events, sessionsConfig, now, freshId) == (session, SessionInfo(false, false));
      return SessionInfo(false, false);
    }

    /** Holds `next` as the current session and saves it. */
    method StoreSession(next: Session)
      requires Valid()
      modifies this, storage
      ensures Valid()
      ensures Snapshot() == old(Snapshot()).(session := Some(next),
        stores := PersistSpec(old(storage.Current()), storage.browser, config.storageType, SESSION_KEY, EncodeSession(next)))
    {
      session := Some(next);
      storage.SaveSession(session);
    }

    /** `getIdentificationRelations`. */
    method GetIdentificationRelations(anonId: string) returns (relations: seq<Relation>)
      requires Valid()
      modifies this, storage
      ensures Valid()
      ensures Snapshot() == IdentificationUpdate(config, storage.browser, old(Snapshot()), anonId)
      ensures identification.Some? && relations == Relations(identification.value)
    {
      if identification.None? {
        identification := Some([IdEntry(ANONYMOUS_ID, Some(anonId))]);
        storage.SaveIdentification(identification);
      }
      relations := Relations(identification.value);
    }

    /** `identify`: the updates are the identification object's entries in
        key order; a missing object has none. */
    method Identify(updates: seq<(string, Value)>)
      requires Valid()
      modifies this, storage
      ensures Valid()
      ensures Snapshot() == IdentifySpec(config, storage.browser, old(Snapshot()), updates)
    {
      if !clientState.trackingEnabled {
        return;
      }
      if |updates| == 0 {
        return;
      }
      var base := HeldOrEmpty(identification);
      var agg := MergeUpdates(base, updates);
      MergeDistinct(base, updates);
      identification := Some(agg);
      var anonymousId := Get(agg, ANONYMOUS_ID);
      var userId := Get(agg, USER_ID);
      if Present(anonymousId) && Present(userId) && ConfigValid(config) {
        sent := sent + [IdentifyRequest(config.baseURL + IDENTIFY_PATH, config.writeKey,
                                        anonymousId.value.value, userId.value.value)];
      }
      DeleteDistinct(agg, ANONYMOUS_ID);
      identification := Some(Delete(agg, ANONYMOUS_ID));
      storage.SaveIdentification(identification);
    }

    /** `getIdentifier`. */
    function GetIdentifier(key: string): (r: Option<Option<string>>)
      reads this
      ensures identification.None? ==> r.None?
      ensures identification.Some? ==> (r.Some? <==> HasKey(identification.value, key))
      ensures identification.Some? ==> r == Get(identification.value, key)
    {
      if identification.Some? then Get(identification.value, key) else None
    }

    /** `getSessionId`. */
    function GetSessionId(): (r: Option<string>)
      reads this
      ensures r.Some? <==> session.Some?
      ensures session.Some? ==> r.value == session.value.id
    {
      if session.Some? then Some(session.value.id) else None
    }

    /** `setRecordProperties`. */
    method SetRecordProperties(records: OneOrMany<RecordUpdate>)
      requires Valid()
      modifies this
      ensures Valid()
      ensures Snapshot() == RecordsSpec(config, old(Snapshot()), records)
    {
      if records.Missing? || !clientState.trackingEnabled {
        return;
      }
      var rs := records.Items();
      if |rs| == 0 || !ConfigValid(config) {
        return;
      }
      sent := sent + [RecordsRequest(config.baseURL + RECORDS_PATH, config.writeKey, rs)];
    }

    /** `reset`. */
    method Reset()
      requires Valid()
      modifies this, storage
      ensures Valid()
      ensures Snapshot() == ResetSpec(config, storage.browser, old(Snapshot()))
    {
      identification := None;
      storage.SaveIdentification(None);
      session := None;
      storage.SaveSession(None);
    }

    /** `setState`. */
    method SetState(st: ClientState)
      requires Valid()
      modifies this, storage
      ensures Valid()
      ensures Snapshot() == SetStateSpec(config, storage.browser, old(Snapshot()), st)
      ensures identification == old(identification)
    {
      clientState := st;
      storage.SaveClientState(st);
    }

    method DisableTracking()
      requires Valid()
      modifies this, storage
      ensures Valid()
      ensures Snapshot() == SetStateSpec(config, storage.browser, old(Snapshot()), old(clientState).(trackingEnabled := false))
      ensures identification == old(identification)
    {
      SetState(clientState.(trackingEnabled := false));
    }

    method EnableTracking()
      requires Valid()
      modifies this, storage
      ensures Valid()
      ensures Snapshot() == SetStateSpec(config, storage.browser, old(Snapshot()), old(clientState).(trackingEnabled := true))
      ensures identification == old(identification)
    {
      SetState(clientState.(trackingEnabled := true));
    }

    /** `trackWithPageContext`, and so `trackPageView`. */
    method TrackWithPageContext(ctx: PageContext, payload: Option<Event>, env: Env, now: int, sessionId: string, anonId: string)
      requires Valid()
      modifies this, storage
      ensures Valid()
      ensures Snapshot() == TrackSpec(config, storage.browser, old(Snapshot()),
                                      One(PageViewEvent(config, ctx, payload, env.decode)), env, now, sessionId, anonId)
    {
      Track(One(PageViewEvent(config, ctx, payload, env.decode)), env, now, sessionId, anonId);
    }

    /** The form tracker's callback. */
    method TrackFormSubmitted(ctx: PageContext, formId: string, formData: map<string, string>, env: Env,
                              now: int, sessionId: string, anonId: string)
      requires Valid()
      modifies this, storage
      ensures Valid()
      ensures Snapshot() == TrackSpec(config, storage.browser, old(Snapshot()),
                                      One(PageViewEvent(config, ctx, Some(FormSubmittedEvent(formId, formData)), env.decode)),
                                      env, now, sessionId, anonId)
    {
      TrackWithPageContext(ctx, Some(FormSubmittedEvent(formId, formData)), env, now, sessionId, anonId);
    }

    /** `initPageViewsTracking`: the initial page view, then a listener
        unless single-page-app tracking is disabled. */
    method InitPageViewsTracking(pv: PageViewsConfig, ctx: PageContext, env: Env, now: int, sessionId: string, anonId: string)
      returns (listener: Option<Navigation.PageViewTracker>)
      requires Valid()
      modifies this, storage
      ensures Valid()
      ensures Snapshot() == TrackSpec(config, storage.browser, old(Snapshot()),
                                      One(PageViewEvent(config, ctx, None, env.decode)), env, now, sessionId, anonId)
      ensures listener.Some? <==> Navigation.Listening(pv.singlePageAppTracking)
      ensures listener.Some? ==> fresh(listener.value) && listener.value.mode == pv.singlePageAppTracking &&
                                 listener.value.lastUrlTracked == ctx.href
    {
      TrackWithPageContext(ctx, None, env, now, sessionId, anonId);
      if Navigation.Listening(pv.singlePageAppTracking) {
        var tracker := new Navigation.PageViewTracker(pv.singlePageAppTracking, ctx.href);
        listener := Some(tracker);
      } else {
        listener := None;
      }
    }

    /** `initDefaultTracking`: outside a browser window nothing happens;
        otherwise page views are tracked when enabled, and then a form
        tracker is set up over the page's forms when forms tracking is
        enabled. */
    method InitDefaultTracking(dtc: DefaultTrackingConfig, hasWindow: bool, ctx: PageContext, env: Env,
                               now: int, sessionId: string, anonId: string,
                               hasDocument: bool, forms: seq<Forms.Form>)
      returns (listener: Option<Navigation.PageViewTracker>, handlers: seq<Option<Forms.SubmitHandler>>)
      requires Valid()
      modifies this, storage
      ensures Valid()
      ensures Snapshot() == if PageViewsOn(dtc, hasWindow)
        then TrackSpec(config, storage.browser, old(Snapshot()), One(PageViewEvent(config, ctx, None, env.decode)),
                       env, now, sessionId, anonId)
        else old(Snapshot())
      ensures listener.Some? <==> PageViewsOn(dtc, hasWindow) && Navigation.Listening(dtc.pageViews.value.singlePageAppTracking)
      ensures listener.Some? ==> fresh(listener.value) && listener.value.lastUrlTracked == ctx.href
      ensures !FormsOn(dtc, hasWindow) ==> handlers == []
      ensures !hasDocument ==> handlers == []
      ensures FormsOn(dtc, hasWindow) && hasDocument ==> |handlers| == |forms|
      ensures forall i :: 0 <= i < |handlers| ==> (handlers[i].None? <==> forms[i].id in dtc.forms.value.excludedFormIds)
      ensures forall i :: 0 <= i < |handlers| && handlers[i].Some? ==>
        fresh(handlers[i].value) && handlers[i].value.form == forms[i] && !handlers[i].value.called &&
        handlers[i].value.excludedInputFieldNames == dtc.forms.value.excludedInputFieldNames
    {
      listener, handlers := None, [];
      if !hasWindow {
        return;
      }
      if dtc.pageViews.Some? && dtc.pageViews.value.enabled {
        listener := InitPageViewsTracking(dtc.pageViews.value, ctx, env, now, sessionId, anonId);
      }
      if dtc.forms.Some? && dtc.forms.value.enabled {
        var tracker := new Forms.FormTracker(dtc.forms.value.excludedFormIds, dtc.forms.value.excludedInputFieldNames);
        handlers := tracker.Init(forms, hasDocument);
      }
    }

    /** A `metrical_location_change` event: a page view is tracked when the
        listener's policy says the location changed. */
    method OnLocationChange(listener: Navigation.PageViewTracker, ctx: PageContext, env: Env,
                            now: int, sessionId: string, anonId: string)
      requires Valid()
      modifies this, storage, listener
      ensures Valid()
      ensures var dispatch := Navigation.ShouldDispatch(listener.mode, ctx.href, old(listener.lastUrlTracked));
        listener.lastUrlTracked == (if dispatch then ctx.href else old(listener.lastUrlTracked)) &&
        Snapshot() == if dispatch
          then TrackSpec(config, storage.browser, old(Snapshot()), One(PageViewEvent(config, ctx, None, env.decode)),
                         env, now, sessionId, anonId)
          else old(Snapshot())
    {
      var dispatch := listener.OnLocationChange(ctx.href);
      if dispatch {
        TrackWithPageContext(ctx, None, env, now, sessionId, anonId);
      }
    }
  }

  /** Page views are tracked from the start: in a browser window, with
      `pageViews.enabled` set. */
  predicate PageViewsOn(dtc: DefaultTrackingConfig, hasWindow: bool) {
    hasWindow && dtc.pageViews.Some? && dtc.pageViews.value.enabled
  }

  /** Forms are tracked: in a browser window, with `forms.enabled` set. */
  predicate FormsOn(dtc: DefaultTrackingConfig, hasWindow: bool) {
    hasWindow && dtc.forms.Some? && dtc.forms.value.enabled
  }

  /** `loadIdentification` on given stores. */
  function DecodedOrNone(config: FullConfig, browser: Browser, stores: Stores, key: string): Option<Identification> {
    var t := GetSpec(stores, browser, config.storageType, key);
    if t.None? || t.value == "" then None else DecodeIdentification(t.value)
  }
}
