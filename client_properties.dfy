/**
 * What the client's calls promise, stated on the state functions its
 * methods are proved against (`TrackSpec`, `IdentifySpec`, `RecordsSpec`,
 * `ResetSpec`, `SetStateSpec`).
 */
module ClientProperties {
  import opened Values
  import opened Model
  import opened Identity
  import opened Storage
  import opened Codec
  import opened Sessions
  import opened SessionMapper
  import opened Client
  import UserAgent

  /** The user agent can be classified (no regular-expression match fails). */
  predicate Classifiable(env: Env) {
    UserAgent.BrowserWithVersion(env.userAgent).Ok? &&
    UserAgent.OperatingSystem(env.userAgent, env.msStream, env.uaData).Ok?
  }

  /** `track` sends exactly when the payload is present and non-empty,
      tracking is enabled, the configuration is valid and the user agent can
      be classified; otherwise the state is left exactly as it was. */
  lemma TrackSendsIff(config: FullConfig, browser: Browser, s: State, payload: OneOrMany<Event>, env: Env,
                      now: int, sessionId: string, anonId: string)
    ensures var s' := TrackSpec(config, browser, s, payload, env, now, sessionId, anonId);
      (|s'.sent| == |s.sent| + 1 <==>
        !payload.Missing? && |payload.Items()| > 0 && s.clientState.trackingEnabled &&
        ConfigValid(config) && Classifiable(env)) &&
      (|s'.sent| == |s.sent| ==> s' == s)
    ensures var s' := TrackSpec(config, browser, s, payload, env, now, sessionId, anonId);
      |s'.sent| == |s.sent| || |s'.sent| == |s.sent| + 1
    ensures !(!payload.Missing? && |payload.Items()| > 0 && s.clientState.trackingEnabled &&
              ConfigValid(config) && Classifiable(env)) ==>
      TrackSpec(config, browser, s, payload, env, now, sessionId, anonId) == s
  {
  }

  /** With tracking disabled, `track`, `identify` and `setRecordProperties`
      change nothing and send nothing. */
  lemma DisabledClientIsInert(config: FullConfig, browser: Browser, s: State, payload: OneOrMany<Event>, env: Env,
                              now: int, sessionId: string, anonId: string,
                              updates: seq<(string, Value)>, records: OneOrMany<RecordUpdate>)
    requires !s.clientState.trackingEnabled
    ensures TrackSpec(config, browser, s, payload, env, now, sessionId, anonId) == s
    ensures IdentifySpec(config, browser, s, updates) == s
    ensures RecordsSpec(config, s, records) == s
  {
  }

  /** Disabling stops dispatch and enabling resumes it: after
      `disableTracking` a track sends nothing, after `enableTracking` the same
      track sends one batch. */
  lemma ReenablingResumes(config: FullConfig, browser: Browser, s: State, payload: OneOrMany<Event>, env: Env,
                          now: int, sessionId: string, anonId: string)
    requires !payload.Missing? && |payload.Items()| > 0 && ConfigValid(config) && Classifiable(env)
    ensures var off := SetStateSpec(config, browser, s, s.clientState.(trackingEnabled := false));
      TrackSpec(config, browser, off, payload, env, now, sessionId, anonId).sent == s.sent
    ensures var off := SetStateSpec(config, browser, s, s.clientState.(trackingEnabled := false));
      var on := SetStateSpec(config, browser, off, off.clientState.(trackingEnabled := true));
      |TrackSpec(config, browser, on, payload, env, now, sessionId, anonId).sent| == |s.sent| + 1
  {
    var off := SetStateSpec(config, browser, s, s.clientState.(trackingEnabled := false));
    var on := SetStateSpec(config, browser, off, off.clientState.(trackingEnabled := true));
    TrackSendsIff(config, browser, on, payload, env, now, sessionId, anonId);
  }

  /** A tracked batch updates the session as the session tracker decides,
      holds the identification it linked (creating `{ anonymous_id }` when
      none was held, and saving it then), and keeps the flags. */
  lemma TrackedState(config: FullConfig, browser: Browser, s: State, payload: OneOrMany<Event>, env: Env,
                     now: int, sessionId: string, anonId: string)
    requires RunTrack(config, browser, s, payload, env, now, sessionId, anonId).Some?
    ensures var run := RunTrack(config, browser, s, payload, env, now, sessionId, anonId).value;
      var step := SessionStep(s.session, payload.Items(), SessionsCfg(config), now, sessionId);
      var afterSession := SessionUpdate(config, browser, s, payload.Items(), now, sessionId).0;
      run.info == step.1 && run.state.session == step.0 &&
      run.state.identification == Some(EnsureIdentification(s.identification, anonId)) &&
      run.state.clientState == s.clientState && run.state.sent == s.sent &&
      (s.identification.Some? ==> run.state.stores == afterSession.stores) &&
      (s.identification.None? ==> run.state.stores == PersistSpec(afterSession.stores, browser, config.storageType,
        IDENTIFICATION_KEY, EncodeIdentification([IdEntry(ANONYMOUS_ID, Some(anonId))])))
  {
  }

  /** The user-agent classification and the enrichment built from it. */
  function Extra(env: Env): Props
    requires Classifiable(env)
  {
    Enrichment(env, UserAgent.BrowserWithVersion(env.userAgent).value,
               UserAgent.OperatingSystem(env.userAgent, env.msStream, env.uaData).value)
  }

  /** How a tracked batch is made: the events enriched, then each finalised
      with the identification relations and the session relation. */
  lemma RunShape(config: FullConfig, browser: Browser, s: State, payload: OneOrMany<Event>, env: Env,
                 now: int, sessionId: string, anonId: string)
    requires RunTrack(config, browser, s, payload, env, now, sessionId, anonId).Some?
    ensures Classifiable(env)
    ensures var run := RunTrack(config, browser, s, payload, env, now, sessionId, anonId).value;
      run.enriched == Enrich(payload.Items(), Extra(env)) &&
      run.batch == Batch(run.enriched, Relations(EnsureIdentification(s.identification, anonId)),
                         SessionRelationFor(run.info, run.enriched, SessionsCfg(config), run.state.session, env.channel),
                         SessionsCfg(config), s.clientState.trackIpAndGeolocation)
  {
  }

  /** Each sent event keeps its name and `created_at`; its relations are the
      identification relations (one per held key, in key order), then the
      session relation when the batch is tracked in the session and the event
      is in scope, then the caller's relations; and it carries the
      `track_ip_and_geolocation: false` marker exactly when that flag is off. */
  lemma TrackedEventRelations(config: FullConfig, browser: Browser, s: State, payload: OneOrMany<Event>, env: Env,
                              now: int, sessionId: string, anonId: string, i: int)
    requires RunTrack(config, browser, s, payload, env, now, sessionId, anonId).Some?
    requires 0 <= i < |payload.Items()|
    ensures var run := RunTrack(config, browser, s, payload, env, now, sessionId, anonId).value;
      var e := payload.Items()[i];
      var sessionRel := SessionRelationFor(run.info, run.enriched, SessionsCfg(config), run.state.session, env.channel);
      |run.batch| == |payload.Items()| &&
      run.batch[i].event_name == e.event_name && run.batch[i].created_at == e.created_at &&
      run.batch[i].relations ==
        Relations(EnsureIdentification(s.identification, anonId)) +
        (if run.info.shouldTrack && InScope(e, SessionsCfg(config)) then [sessionRel.value] else []) +
        CallerRelations(e) &&
      (run.batch[i].track_ip_and_geolocation == Some(false) <==> !s.clientState.trackIpAndGeolocation) &&
      (s.clientState.trackIpAndGeolocation ==> run.batch[i].track_ip_and_geolocation.None?)
  {
    RunShape(config, browser, s, payload, env, now, sessionId, anonId);
    var run := RunTrack(config, browser, s, payload, env, now, sessionId, anonId).value;
    var e := payload.Items()[i];
    var cfg := SessionsCfg(config);
    var sessionRel := SessionRelationFor(run.info, run.enriched, cfg, run.state.session, env.channel);
    assert run.enriched[i] == e.(properties := Some(Extra(env) + PropsOf(e)));
    assert run.batch[i] == Finalize(run.enriched[i], Relations(EnsureIdentification(s.identification, anonId)),
                                    sessionRel, cfg, s.clientState.trackIpAndGeolocation);
    assert InScope(run.enriched[i], cfg) == InScope(e, cfg);
  }

  /** Each sent event's properties are the enrichment with the caller's
      properties spread over it: the caller's values win. */
  lemma TrackedEventProperties(config: FullConfig, browser: Browser, s: State, payload: OneOrMany<Event>, env: Env,
                               now: int, sessionId: string, anonId: string, i: int)
    requires RunTrack(config, browser, s, payload, env, now, sessionId, anonId).Some?
    requires 0 <= i < |payload.Items()|
    ensures Classifiable(env)
    ensures var run := RunTrack(config, browser, s, payload, env, now, sessionId, anonId).value;
      var e := payload.Items()[i];
      |run.batch| == |payload.Items()| &&
      run.batch[i].properties.Keys == Extra(env).Keys + PropsOf(e).Keys &&
      (forall k :: k in PropsOf(e) ==> run.batch[i].properties[k] == PropsOf(e)[k]) &&
      (forall k :: k in Extra(env) && k !in PropsOf(e) ==> run.batch[i].properties[k] == Extra(env)[k])
  {
    RunShape(config, browser, s, payload, env, now, sessionId, anonId);
    var run := RunTrack(config, browser, s, payload, env, now, sessionId, anonId).value;
    var e := payload.Items()[i];
    var cfg := SessionsCfg(config);
    var sessionRel := SessionRelationFor(run.info, run.enriched, cfg, run.state.session, env.channel);
    assert run.enriched[i] == e.(properties := Some(Extra(env) + PropsOf(e)));
    assert run.batch[i] == Finalize(run.enriched[i], Relations(EnsureIdentification(s.identification, anonId)),
                                    sessionRel, cfg, s.clientState.trackIpAndGeolocation);
    assert run.batch[i].properties == Extra(env) + PropsOf(e);
  }

  /** The session relation binds to the current session; its `set` map
      describes that session and the batch's last in-scope event, and its
      `set_once` map is empty unless the session is new, when it describes
      the batch's first in-scope event. */
  lemma SessionRelationContents(info: SessionInfo, enriched: seq<Event>, cfg: Option<SessionsConfig>,
                                session: Option<Session>, channel: ChannelInputs -> string)
    requires info.shouldTrack && session.Some? && |Eligible(enriched, cfg)| > 0
    ensures var r := SessionRelationFor(info, enriched, cfg, session, channel).value;
      var eligible := Eligible(enriched, cfg);
      var first := eligible[0];
      var last := eligible[|eligible| - 1];
      r.key == "session_id" && r.value == Some(session.value.id) &&
      r.setProps == Some(SessionProperties(session.value, last.event_name, PropsOf(last))) &&
      (!info.isNew ==> r.setOnceProps == Some(map[])) &&
      (info.isNew ==> r.setOnceProps == Some(InitialSessionProperties(first.event_name, PropsOf(first), channel)))
  {
  }

  /** The first tracked batch of a client holding no identification links
      every event to one fresh anonymous id, first among its relations. */
  lemma FirstTrackLinksFreshAnonymousId(config: FullConfig, browser: Browser, s: State, payload: OneOrMany<Event>,
                                        env: Env, now: int, sessionId: string, anonId: string, i: int)
    requires s.identification.None?
    requires RunTrack(config, browser, s, payload, env, now, sessionId, anonId).Some?
    requires 0 <= i < |payload.Items()|
    ensures var run := RunTrack(config, browser, s, payload, env, now, sessionId, anonId).value;
      run.state.identification == Some([IdEntry(ANONYMOUS_ID, Some(anonId))]) &&
      |run.batch[i].relations| >= 1 &&
      run.batch[i].relations[0] == LinkRelation(ANONYMOUS_ID, Some(anonId))
  {
    TrackedEventRelations(config, browser, s, payload, env, now, sessionId, anonId, i);
  }

  /** `identify` with no keys is a no-op. Otherwise `anonymous_id` is gone
      afterwards; every other key holds the coerced value of its last usable
      update, or its old value when it had none; and the result is what is
      saved. */
  lemma IdentifyResult(config: FullConfig, browser: Browser, s: State, updates: seq<(string, Value)>, k: string)
    ensures |updates| == 0 ==> IdentifySpec(config, browser, s, updates) == s
    ensures s.clientState.trackingEnabled && |updates| > 0 ==>
      var s' := IdentifySpec(config, browser, s, updates);
      s'.identification.Some? &&
      Get(s'.identification.value, ANONYMOUS_ID) == None &&
      s'.stores == PersistSpec(s.stores, browser, config.storageType, IDENTIFICATION_KEY,
                               EncodeIdentification(s'.identification.value)) &&
      (k != ANONYMOUS_ID && (forall j :: 0 <= j < |updates| && updates[j].0 == k ==> Coerce(updates[j].1).None?) ==>
        Get(s'.identification.value, k) == Get(HeldOrEmpty(s.identification), k))
  {
    if s.clientState.trackingEnabled && |updates| > 0 {
      var merged := Merge(HeldOrEmpty(s.identification), updates);
      DeleteGet(merged, ANONYMOUS_ID, k);
      if k != ANONYMOUS_ID && (forall j :: 0 <= j < |updates| && updates[j].0 == k ==> Coerce(updates[j].1).None?) {
        MergeKeepsUntouched(HeldOrEmpty(s.identification), updates, k);
      }
    }
  }

  /** After `identify`, a key other than `anonymous_id` holds the coerced
      value of its last usable update: strings as given, numbers as their
      decimal text, `null` as `null`. */
  lemma IdentifyLastUsableWins(config: FullConfig, browser: Browser, s: State, updates: seq<(string, Value)>,
                               k: string, i: int)
    requires s.clientState.trackingEnabled && k != ANONYMOUS_ID && IsLastUsable(updates, k, i)
    ensures var s' := IdentifySpec(config, browser, s, updates);
      s'.identification.Some? && Get(s'.identification.value, k) == Coerce(updates[i].1)
  {
    var merged := Merge(HeldOrEmpty(s.identification), updates);
    MergeLastUsableWins(HeldOrEmpty(s.identification), updates, k, i);
    DeleteGet(merged, ANONYMOUS_ID, k);
  }

  /** `identify` sends the link call exactly when, after merging, both
      `anonymous_id` and `user_id` hold non-empty strings and the
      configuration is valid; the call carries those two ids. */
  lemma IdentifyLinksOnlyBothIds(config: FullConfig, browser: Browser, s: State, updates: seq<(string, Value)>)
    requires s.clientState.trackingEnabled && |updates| > 0
    ensures var merged := Merge(HeldOrEmpty(s.identification), updates);
      var s' := IdentifySpec(config, browser, s, updates);
      (|s'.sent| == |s.sent| + 1 <==>
        Present(Get(merged, ANONYMOUS_ID)) && Present(Get(merged, USER_ID)) && ConfigValid(config)) &&
      (|s'.sent| == |s.sent| + 1 ==>
        s'.sent[|s.sent|] == IdentifyRequest(config.baseURL + IDENTIFY_PATH, config.writeKey,
                                             Get(merged, ANONYMOUS_ID).value.value, Get(merged, USER_ID).value.value)) &&
      (|s'.sent| != |s.sent| + 1 ==> s'.sent == s.sent)
  {
  }

  /** After `identify`, the relations a later `track` attaches no longer
      link to the anonymous id. */
  lemma IdentifyThenTrackOmitsAnonymousId(config: FullConfig, browser: Browser, s: State,
                                          updates: seq<(string, Value)>, anonId: string)
    requires s.clientState.trackingEnabled && |updates| > 0
    ensures var s' := IdentifySpec(config, browser, s, updates);
      forall r :: r in Relations(EnsureIdentification(s'.identification, anonId)) ==> r.key != ANONYMOUS_ID
  {
    NoAnonymousRelationAfterDelete(Merge(HeldOrEmpty(s.identification), updates));
  }

  /** `reset` forgets the identification and the session, keeps the flags
      and sends nothing; in the default storage policy neither is read back. */
  lemma ResetForgets(config: FullConfig, browser: Browser, s: State)
    ensures var s' := ResetSpec(config, browser, s);
      s'.identification.None? && s'.session.None? && s'.clientState == s.clientState && s'.sent == s.sent
    ensures config.storageType == CookiesWithFallback ==>
      var s' := ResetSpec(config, browser, s);
      GetSpec(s'.stores, browser, CookiesWithFallback, IDENTIFICATION_KEY).None? &&
      GetSpec(s'.stores, browser, CookiesWithFallback, SESSION_KEY).None?
  {
    var t := config.storageType;
    var s1 := RemoveSpec(s.stores, browser, t, IDENTIFICATION_KEY);
    RemoveThenGet(s.stores, browser, t, IDENTIFICATION_KEY);
    RemoveOther(s1, browser, t, SESSION_KEY, IDENTIFICATION_KEY);
    RemoveThenGet(s1, browser, t, SESSION_KEY);
  }

  /** After `reset`, the next tracked batch starts over: a fresh anonymous
      id, and a new session when the batch is tracked in one. */
  lemma TrackAfterResetStartsOver(config: FullConfig, browser: Browser, s: State, payload: OneOrMany<Event>,
                                  env: Env, now: int, sessionId: string, anonId: string)
    requires RunTrack(config, browser, ResetSpec(config, browser, s), payload, env, now, sessionId, anonId).Some?
    ensures var run := RunTrack(config, browser, ResetSpec(config, browser, s), payload, env, now, sessionId, anonId).value;
      run.state.identification == Some([IdEntry(ANONYMOUS_ID, Some(anonId))]) &&
      (run.info.shouldTrack ==> run.info.isNew && run.state.session.Some? && run.state.session.value.id == sessionId &&
                                run.state.session.value.session_start == now)
  {
    TrackedState(config, browser, ResetSpec(config, browser, s), payload, env, now, sessionId, anonId);
  }

  /** `setRecordProperties` sends the records, as a list, exactly when they
      are present and non-empty, tracking is enabled and the configuration is
      valid, and changes nothing else. */
  lemma RecordsSentIff(config: FullConfig, s: State, records: OneOrMany<RecordUpdate>)
    ensures var s' := RecordsSpec(config, s, records);
      (s' != s <==> !records.Missing? && |records.Items()| > 0 && s.clientState.trackingEnabled && ConfigValid(config)) &&
      (s' != s ==> s' == s.(sent := s.sent + [RecordsRequest(config.baseURL + RECORDS_PATH, config.writeKey, records.Items())]))
  {
    var s' := RecordsSpec(config, s, records);
    if s' != s {
      assert |s'.sent| == |s.sent| + 1;
    }
  }

  /** Setting the flags saves them: in the default storage policy, when both
      writes land, the flags are read back as set. */
  lemma SetStatePersists(config: FullConfig, browser: Browser, s: State, st: ClientState)
    requires config.storageType == CookiesWithFallback
    requires Lands(s.stores, browser, TRACKING_ENABLED_STATE_KEY, BoolText(st.trackingEnabled))
    requires Lands(PersistSpec(s.stores, browser, CookiesWithFallback, TRACKING_ENABLED_STATE_KEY, BoolText(st.trackingEnabled)),
                   browser, TRACK_IP_AND_GEOLOCATION_STATE_KEY, BoolText(st.trackIpAndGeolocation))
    ensures var s' := SetStateSpec(config, browser, s, st);
      s'.clientState == st && s'.identification == s.identification && s'.session == s.session && s'.sent == s.sent &&
      ClientStateFrom(GetSpec(s'.stores, browser, CookiesWithFallback, TRACKING_ENABLED_STATE_KEY),
                      GetSpec(s'.stores, browser, CookiesWithFallback, TRACK_IP_AND_GEOLOCATION_STATE_KEY), config) == st
  {
    ClientStateRoundTrip(s.stores, browser, st, config);
  }

  /** A page view is named by the caller, or "Page View" when the caller
      gives no name; the caller's properties override the attribution
      parameters, which override the page properties; attribution is added
      unless it is switched off. */
  lemma PageViewEventFacts(config: FullConfig, ctx: PageContext, payload: Option<Event>, decode: string -> string)
    ensures var e := PageViewEvent(config, ctx, payload, decode);
      (payload.None? || payload.value.event_name == "" ==> e.event_name == PAGE_VIEW_EVENT_NAME) &&
      (payload.Some? && payload.value.event_name != "" ==> e.event_name == payload.value.event_name) &&
      (payload.Some? ==> e.relations == payload.value.relations && e.created_at == payload.value.created_at) &&
      e.properties.Some?
    ensures var props := PageViewEvent(config, ctx, payload, decode).properties.value;
      var caller := if payload.Some? then PropsOf(payload.value) else map[];
      var attribution := Attribution.MarketingAttributionParameters(ctx.href, decode);
      (forall k :: k in caller ==> props[k] == caller[k]) &&
      (AttributionEnabled(config) ==> forall k :: k in attribution && k !in caller ==> props[k] == Str(attribution[k])) &&
      (!AttributionEnabled(config) ==> props.Keys == PageProperties(ctx).Keys + caller.Keys) &&
      (forall k :: k in PageProperties(ctx) && k !in caller && (!AttributionEnabled(config) || k !in attribution) ==>
        props[k] == PageProperties(ctx)[k])
  {
  }

  /** A submitted form is tracked as a "Form Submitted" page-context event
      carrying the form's id and data. */
  lemma FormSubmittedFacts(config: FullConfig, ctx: PageContext, formId: string, formData: map<string, string>,
                           decode: string -> string)
    ensures var e := PageViewEvent(config, ctx, Some(FormSubmittedEvent(formId, formData)), decode);
      e.event_name == FORM_SUBMITTED_EVENT_NAME &&
      e.properties.value["$form_id"] == Str(formId) &&
      e.properties.value["$form_data"] == Obj(map k | k in formData :: Str(formData[k]))
  {
  }
}
