/**
 * The session tracker's decisions: which events count towards the session,
 * whether a batch extends the held session or starts a new one, and the
 * property maps of the session relation. The client applies these to its
 * `session` field (see `Client.Metrical.TryUpdateSessionState`).
 */
module Sessions {
  import opened Values
  import opened Model
  import opened SessionMapper

  const PAGE_VIEW_EVENT_NAME := "Page View"

  /** The excluded names, `[]` when no sessions configuration is given. */
  function Excluded(cfg: Option<SessionsConfig>): seq<string> {
    if cfg.Some? then cfg.value.excludeEvents else []
  }

  /** `isInSessionScope`: not a historical event (no truthy `created_at`) and
      not an excluded name. */
  predicate InScope(e: Event, cfg: Option<SessionsConfig>) {
    (e.created_at.None? || e.created_at == Some("")) && e.event_name !in Excluded(cfg)
  }

  /** `events.filter(isInSessionScope)`. */
  function Eligible(events: seq<Event>, cfg: Option<SessionsConfig>): (r: seq<Event>)
    ensures |r| <= |events|
    ensures forall e :: e in r <==> e in events && InScope(e, cfg)
  {
    if events == [] then []
    else (if InScope(events[0], cfg) then [events[0]] else []) + Eligible(events[1..], cfg)
  }

  /** The names of `events`, in order. */
  function EventNames(events: seq<Event>): seq<string> {
    seq(|events|, i requires 0 <= i < |events| => events[i].event_name)
  }

  /** The number of page views among `events`: how often the page-view name
      occurs among the event names. */
  function PageViews(events: seq<Event>): (n: nat)
    ensures n <= |events|
    ensures n == multiset(EventNames(events))[PAGE_VIEW_EVENT_NAME]
  {
    if events == [] then 0
    else
      assert EventNames(events) == [events[0].event_name] + EventNames(events[1..]);
      (if events[0].event_name == PAGE_VIEW_EVENT_NAME then 1 else 0) + PageViews(events[1..])
  }

  /** Sessions are tracked unless a sessions configuration is given with
      `enabled` off. */
  predicate Active(cfg: Option<SessionsConfig>) {
    cfg.None? || cfg.value.enabled
  }

  /** What `tryUpdateSessionState` reports; a missing `isNew` is `false`. */
  datatype SessionInfo = SessionInfo(shouldTrack: bool, isNew: bool)

  /** `tryUpdateSessionState` on values: the report and the session held
      afterwards, given the time `now` (milliseconds) and a fresh id. */
  function SessionStep(session: Option<Session>, events: seq<Event>, cfg: Option<SessionsConfig>,
                       now: int, freshId: string): (r: (Option<Session>, SessionInfo))
    ensures r.1.shouldTrack <==> Active(cfg) && |Eligible(events, cfg)| > 0
    ensures r.1.shouldTrack ==> r.0.Some?
    ensures !r.1.shouldTrack ==> r.0 == session && !r.1.isNew
  {
    var eligible := Eligible(events, cfg);
    if !Active(cfg) || |eligible| == 0 then (session, SessionInfo(false, false))
    else
      var count := |eligible|;
      var pageViews := PageViews(eligible);
      if session.Some? && now < session.value.session_end then
        (Some(session.value.(
           session_end := now + SESSION_LENGTH_MS,
           event_count := session.value.event_count + count,
           pageview_count := session.value.pageview_count + pageViews)),
         SessionInfo(true, false))
      else
        (Some(Session(freshId, now, now + SESSION_LENGTH_MS, count, pageViews)), SessionInfo(true, true))
  }

  /** A batch with no in-scope event, or with sessions switched off, leaves
      the session as it was and attaches no session relation. */
  lemma NothingInScopeNoChange(session: Option<Session>, events: seq<Event>, cfg: Option<SessionsConfig>,
                               now: int, freshId: string)
    requires !Active(cfg) || forall e :: e in events ==> !InScope(e, cfg)
    ensures SessionStep(session, events, cfg, now, freshId) == (session, SessionInfo(false, false))
  {
    if Active(cfg) {
      NoneInScope(events, cfg);
    }
  }

  /** Without in-scope events nothing is eligible. */
  lemma {:induction false} NoneInScope(events: seq<Event>, cfg: Option<SessionsConfig>)
    requires forall e :: e in events ==> !InScope(e, cfg)
    ensures Eligible(events, cfg) == []
  {
    if events != [] {
      assert events[0] in events;
      NoneInScope(events[1..], cfg);
    }
  }

  /** A batch with an in-scope event, while a session is live (`now` before
      its end), keeps the session's id and start, moves its end to thirty
      minutes after `now`, and adds the batch's in-scope event and page view
      counts. */
  lemma LiveSessionIsExtended(s: Session, events: seq<Event>, cfg: Option<SessionsConfig>,
                              now: int, freshId: string)
    requires Active(cfg) && now < s.session_end
    requires exists e :: e in events && InScope(e, cfg)
    ensures var (next, info) := SessionStep(Some(s), events, cfg, now, freshId);
      info == SessionInfo(true, false) && next.Some? &&
      next.value.id == s.id && next.value.session_start == s.session_start &&
      next.value.session_end == now + SESSION_LENGTH_MS &&
      next.value.event_count == s.event_count + |Eligible(events, cfg)| &&
      next.value.pageview_count == s.pageview_count + PageViews(Eligible(events, cfg))
  {
    var e :| e in events && InScope(e, cfg);
    assert e in Eligible(events, cfg);
  }

  /** Otherwise a new session starts now, under the fresh id, with this
      batch's counts. */
  lemma NewSessionStarts(session: Option<Session>, events: seq<Event>, cfg: Option<SessionsConfig>,
                         now: int, freshId: string)
    requires Active(cfg) && (session.None? || now >= session.value.session_end)
    requires exists e :: e in events && InScope(e, cfg)
    ensures var (next, info) := SessionStep(session, events, cfg, now, freshId);
      info == SessionInfo(true, true) &&
      next == Some(Session(freshId, now, now + SESSION_LENGTH_MS,
                           |Eligible(events, cfg)|, PageViews(Eligible(events, cfg))))
  {
    var e :| e in events && InScope(e, cfg);
    assert e in Eligible(events, cfg);
  }

  /** Counters a session keeps: page views never exceed events. */
  predicate CountersValid(s: Session) {
    0 <= s.pageview_count <= s.event_count
  }

  /** Every step keeps the counters valid, and a tracked batch leaves a
      session with at least one event. */
  lemma StepKeepsCounters(session: Option<Session>, events: seq<Event>, cfg: Option<SessionsConfig>,
                          now: int, freshId: string)
    requires session.Some? ==> CountersValid(session.value)
    ensures var (next, info) := SessionStep(session, events, cfg, now, freshId);
      (next.Some? ==> CountersValid(next.value)) &&
      (info.shouldTrack ==> next.Some? && next.value.event_count >= 1)
  {
  }

  /** Session properties of an extended session, for the durations the
      client's own expectations use: 1860 seconds after a one-minute
      extension of a fresh session. */
  lemma OneMinuteExtension(s: Session, events: seq<Event>, cfg: Option<SessionsConfig>, freshId: string)
    requires Active(cfg) && exists e :: e in events && InScope(e, cfg)
    requires s.session_end == s.session_start + SESSION_LENGTH_MS
    ensures var next := SessionStep(Some(s), events, cfg, s.session_start + 60 * 1000, freshId).0;
      next.Some? &&
      DurationSeconds(next.value.session_start, next.value.session_end) == Num(1860)
  {
    LiveSessionIsExtended(s, events, cfg, s.session_start + 60 * 1000, freshId);
  }

  /** `getSessionProperties`: the `set_once` and `set` maps of the session
      relation. `set_once` is empty unless the session is new. */
  function SessionRelationProps(info: SessionInfo, events: seq<Event>, cfg: Option<SessionsConfig>,
                                session: Option<Session>, channel: ChannelInputs -> string): (Props, Props)
    requires info.shouldTrack ==> session.Some? && |Eligible(events, cfg)| > 0
  {
    if info.shouldTrack then
      var eligible := Eligible(events, cfg);
      var first := eligible[0];
      var last := eligible[|eligible| - 1];
      var firstProps := if first.properties.Some? then first.properties.value else map[];
      var lastProps := if last.properties.Some? then last.properties.value else map[];
      (if info.isNew then InitialSessionProperties(first.event_name, firstProps, channel) else map[],
       SessionProperties(session.value, last.event_name, lastProps))
    else (map[], map[])
  }

  /** The session relation carries `set_once` only for a new session, and
      both maps are empty when the batch is not tracked. */
  lemma SetOnceOnlyWhenNew(info: SessionInfo, events: seq<Event>, cfg: Option<SessionsConfig>,
                           session: Option<Session>, channel: ChannelInputs -> string)
    requires info.shouldTrack ==> session.Some? && |Eligible(events, cfg)| > 0
    ensures var (setOnce, setProps) := SessionRelationProps(info, events, cfg, session, channel);
      (!info.isNew ==> setOnce == map[]) &&
      (!info.shouldTrack ==> setProps == map[] && setOnce == map[]) &&
      (info.shouldTrack ==> setProps["$event_count"] == Num(session.value.event_count))
  {
  }
}
