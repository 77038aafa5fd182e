# Metrical browser client, modelled in Dafny

This project models the core of the Metrical browser analytics client (the
`Metrical` class of bigdelta-browser and the helpers it calls) and proves
properties of that model.

- **The client** (`client.dfy`, module `Client`) is a class. Its fields are
  the same as the source's: the configuration, the client-state flags, the
  identification and the session, plus the persistent storage. It also has a
  log `sent` of the requests posted to the ingestion endpoint.
- **Specification functions.** Each public operation is a method whose
  postcondition equals a specification function of the old state:
  - `TrackSpec`, `IdentifySpec`, `RecordsSpec`, `ResetSpec` and
    `SetStateSpec` in `client.dfy`;
  - `SessionStep` in `sessions.dfy`.
  
  The properties the source promises are proved about those functions, as
  lemmas in `client_properties.dfy`.
- **Session tracking** (`sessions.dfy`, `session_mapper.dfy`):
  - which events are in session scope;
  - the 30-minute extend-or-start step and its per-batch counters;
  - the `set_once` and `set` maps attached to the session relation.
- **Identity** (`identity.dfy`) models the identification object as an ordered
  list of keys, because the relations follow key order. It covers:
  - the `identify` merge, with its coercions;
  - `delete`;
  - the lazily created anonymous id.
- **Storage** (`storage.dfy`): the cookie jar and `localStorage` are two maps,
  and whether the browser keeps a cookie is an oracle. The class
  `PersistentStorage` implements the three storage policies and the save and
  load of:
  - the identification;
  - the session;
  - the two state flags.
  
  The text format is a small codec with proved round trips (`codec.dfy`). It
  stands in for JSON.
- **Helpers:**
  - the two marketing-attribution variants (`attribution.dfy`);
  - the user-agent classifier (`user_agent.dfy`);
  - the cookie-domain probe loop (`cookie_domain.dfy`);
  - the form tracker's handler registration, once-only flag and field filter
    (`forms.dfy`);
  - the single-page-app navigation policy (`navigation.dfy`).

Everything the page offers is an input of the call that reads it:
- the clock, in integer milliseconds;
- fresh UUIDs;
- the user agent and screen;
- the referrer's host name;
- percent-decoding;
- the channel classifier;
- cookie acceptance.

Behaviour of the code worth knowing:
- **`identify` with unusable values.** It returns early only when the update
  has no keys at all. An update whose every value is unusable still runs the
  link check, the delete of `anonymous_id` and the save (`src/client.ts:152-171`).
- **The identity link** pairs `anonymous_id` with `user_id` specifically, and
  only when both are non-empty (`src/client.ts:292-296`).
- **Storage type `cookies` or `localStorage`.** The private `get` reads the
  value and discards it. Every load then yields nothing or the configured
  defaults (`src/utils/persistentStorage.ts:88-93`); `Storage.GetSpec` returns
  `None` for both.
- **Regular-expression match failure.** Indexing a match that failed throws:
  - for Safari without a `Version/` token;
  - for an iPhone user agent, whose `like Mac OS X` makes the Mac branch match
    first without a version;
  - and similar cases.
  
  This is modelled as a `Throws` outcome, and `track` then stops before any
  state changes. The repository's tests expect fallback labels here instead.
- **Bare `OPR`.** The Chrome branch excludes any `OPR`, not only `OPR/`, so
  such a Chrome user agent is `Unknown` (`src/utils/userAgentParser.ts:23`).

## Model

| member | source | states |
|---|---|---|
| Client.Metrical.constructor | src/client.ts:42-57 | Defaults are filled in, then the caller's config is spread over them. Flags, identification and session are loaded from storage. A bot user agent switches tracking off and saves the flags. |
| Client.Metrical.Track | src/client.ts:61-141 | The new state is `TrackSpec` of the old one: unchanged on every early return, otherwise the batch is delivered. |
| Client.Metrical.SendEvents | src/client.ts:81-137 | Once the early returns are passed, the state is the enriched, session-updated, identified run with one events request appended to the log. |
| Client.RunTrack | src/client.ts:61-122 | A run happens only for a present, non-empty payload whose events are all carried through. When the session counts the batch, a session is held and an in-scope event exists. |
| Client.Proceed | src/client.ts:81-122 | Enrichment keeps the batch length. A tracked session implies a held session and a non-empty eligible list, which is what `getSessionProperties` needs. |
| Client.Metrical.SessionRelationOf | src/client.ts:96-100 | The session relation is `SessionRelationFor` of the report: present exactly when the session counts the batch. |
| Client.SessionRelationFor | src/client.ts:255-267 | The relation exists if and only if `shouldTrack` holds. |
| Client.Metrical.AssembleBatch | src/client.ts:102-122 | The identification is ensured once and every event is finalised as `Batch` states: identification relations, then the session relation if in scope, then the caller's relations, plus the IP marker only when the flag is false. |
| Client.Batch | src/client.ts:102-122 | One sent event per enriched event. Each keeps its name, properties and `created_at`. Its relations start with the identification relations and end with the caller's own. Exactly when a session relation exists and the event is in scope, that relation sits between them. The IP marker is `false` when the flag is off, and absent otherwise. |
| Client.Enrich | src/client.ts:81-94 | Each event keeps its name, relations and `created_at`. Its property keys are the enrichment keys plus the caller's. A caller's property keeps its value (the caller wins), and an added property the caller did not set takes the enrichment value. |
| Client.EnrichKeepsScope | src/client.ts:96-100 | Enrichment changes no event's session scope (the eligible count is the same before and after). |
| Client.ReferringDomain | src/client.ts:453-462 | An empty referrer gives `undefined`. A referrer that parses as a URL gives its host name. A non-empty referrer that does not parse gives `undefined`, as the `catch` does. |
| Client.Metrical.TryUpdateSessionState | src/client.ts:211-249 | The new session and the report are those of `SessionStep`, and the session is saved only when the batch is tracked. |
| Client.Metrical.StoreSession | src/client.ts:227-243 | The new session is held and persisted under the session key; nothing else changes. |
| Client.SessionUpdate | src/client.ts:211-249 | The report and the next session are those of `SessionStep`; the flags, identification and log are untouched. |
| Client.IdentificationUpdate | src/client.ts:342-350 | The identification is the held one, or a fresh `{ anonymous_id }`. In the fresh case the stores become the persist of its encoding under the identification key. Nothing else changes, and a held identification leaves the state as it was. |
| Client.Metrical.GetIdentificationRelations | src/client.ts:342-354 | The identification is ensured as `IdentificationUpdate` says, and one pure linkage relation per held key is returned, in key order. |
| Client.MergeUpdates | src/client.ts:157-165 | The `reduce` loop computes `Merge`: usable values written in key order. |
| Client.Metrical.Identify | src/client.ts:147-172 | The new state is `IdentifySpec`: no-op when tracking is off or there are no keys; otherwise merge, link call, delete of `anonymous_id`, save. The held keys stay distinct. |
| Client.IdentifyCallout | src/client.ts:292-315 | At most one request. It is sent exactly when both `anonymous_id` and `user_id` are non-empty strings and the config is valid, and it carries those two ids. |
| Client.Metrical.GetIdentifier | src/client.ts:174-176 | `undefined` without an identification. Otherwise the result is `Identity.Get` of the key, so PutGet, DeleteGet and the merge lemmas describe what it returns. |
| Client.Metrical.GetSessionId | src/client.ts:207-209 | The id of the held session, and `undefined` exactly when no session is held. |
| Client.Metrical.SetRecordProperties | src/client.ts:178-184 | The new state is `RecordsSpec`: the records are sent as a list when present, tracking is on, the list is non-empty and the config is valid. |
| Client.Metrical.Reset | src/client.ts:186-191 | Identification and session are cleared and removed from storage; the flags are kept. |
| Client.Metrical.SetState | src/client.ts:356-359 | The flags are replaced and saved; the identification is unchanged. |
| Client.Metrical.DisableTracking | src/client.ts:193-198 | `setState` with `trackingEnabled` false and the other flag kept. |
| Client.Metrical.EnableTracking | src/client.ts:200-205 | `setState` with `trackingEnabled` true and the other flag kept. |
| Client.Metrical.TrackWithPageContext | src/client.ts:269-290 | `track` of the page-view event built from the page context and the optional payload. |
| Client.Metrical.TrackFormSubmitted | src/client.ts:436-446 | The form tracker's callback tracks a "Form Submitted" page-context event carrying `$form_data` and `$form_id`. |
| Client.Metrical.InitDefaultTracking | src/client.ts:361-373 | Nothing happens outside a window. Otherwise the initial page view is tracked when page views are enabled, and a form tracker registers the page's forms when forms tracking is enabled. |
| Client.Metrical.InitPageViewsTracking | src/client.ts:375-382 | The initial page view is tracked. A listener remembering the current URL is created exactly when single-page-app tracking is not `disabled`. |
| Client.Metrical.OnLocationChange | src/client.ts:412-432 | A page view is tracked exactly when the listener's policy dispatches, and `lastUrlTracked` moves to the new URL only then. |
| ClientProperties.TrackSendsIff | src/client.ts:61-141 | `track` appends exactly one events request, or none, and it appends one if and only if the payload is present and non-empty, tracking is on, the config is valid and the user agent can be classified. When that condition fails, the state is left exactly as it was. |
| ClientProperties.DisabledClientIsInert | src/client.ts:62-64 | With tracking off, `track`, `identify` and `setRecordProperties` change nothing. |
| ClientProperties.ReenablingResumes | src/client.ts:193-205 | After disabling, `track` changes nothing; after enabling again, it sends. |
| ClientProperties.TrackedState | src/client.ts:96-100 | A tracked batch updates the session as `SessionStep` decides and ensures the identification; the flags are kept. |
| ClientProperties.RunShape | src/client.ts:75-122 | The batch is `Batch` over the enriched events, with the ensured identification's relations and the flag's marker. |
| ClientProperties.TrackedEventRelations | src/client.ts:102-122 | Each sent event keeps its name and `created_at`. Its relations are the identification relations, then the session relation when tracked and in scope, then the caller's. The marker is there only when the flag is false. |
| ClientProperties.TrackedEventProperties | src/client.ts:81-94 | Each sent event's properties are the enrichment with the caller's properties overriding it; a caller key wins. |
| ClientProperties.SessionRelationContents | src/client.ts:255-264 | The session relation binds the current session id. `set_once` is empty unless the session is new, and `set` describes the session with the last eligible event. |
| ClientProperties.FirstTrackLinksFreshAnonymousId | src/client.ts:342-354 | With no identification held, every sent event starts with the single relation `{ anonymous_id: fresh }`. |
| ClientProperties.IdentifyResult | src/client.ts:147-172 | Zero keys is a no-op. Otherwise `anonymous_id` is gone from the held and the stored identification, and every other key holds its merged value. |
| ClientProperties.IdentifyLastUsableWins | src/client.ts:157-165 | A key other than `anonymous_id` holds the coerced value of its last usable update. |
| ClientProperties.IdentifyLinksOnlyBothIds | src/client.ts:167 | The link request is sent exactly when both ids are present after merging (and the config is valid). |
| ClientProperties.IdentifyThenTrackOmitsAnonymousId | src/client.ts:169 | After `identify`, no relation a later `track` attaches links `anonymous_id`. |
| ClientProperties.ResetForgets | src/client.ts:186-191 | `reset` clears identification and session and keeps the flags and log. In the default policy nothing is read back for either key. |
| ClientProperties.TrackAfterResetStartsOver | src/client.ts:186-191 | After `reset`, the next tracked batch links a fresh anonymous id and starts a new session. |
| ClientProperties.RecordsSentIff | src/client.ts:178-184 | The records request is appended exactly when the records are present, tracking is on, the list is non-empty and the config is valid. |
| ClientProperties.SetStatePersists | src/client.ts:356-359 | In the default storage policy, when both writes land, loading the flags gives back the state that was set. |
| ClientProperties.PageViewEventFacts | src/client.ts:269-290 | The name is the caller's, or "Page View" when missing or empty. Caller properties override attribution properties, which override page properties. |
| ClientProperties.FormSubmittedFacts | src/client.ts:436-446 | A submitted form is tracked as "Form Submitted" with `$form_id` and `$form_data` as given. |
| Sessions.Eligible | src/client.ts:215 | The filtered list holds exactly the in-scope events. |
| Sessions.PageViews | src/client.ts:222 | The count is the number of times "Page View" occurs among the event names, so it never exceeds the batch size. |
| Sessions.SessionStep | src/client.ts:211-249 | The batch counts if and only if sessions are active and an event is in scope. A counted batch leaves a session held; an uncounted one leaves the session as it was and is not new. |
| Sessions.NothingInScopeNoChange | src/client.ts:214-219 | With no in-scope event, or sessions disabled, the session is untouched and nothing is tracked. |
| Sessions.NoneInScope | src/client.ts:215-219 | Without in-scope events the eligible list is empty. |
| Sessions.LiveSessionIsExtended | src/client.ts:226-234 | A live session keeps its id and start, ends 30 minutes from now, and its counters grow by the batch's counts; it is not new. |
| Sessions.NewSessionStarts | src/client.ts:235-245 | Otherwise a new session gets the fresh id, starts now, ends 30 minutes later, and takes this batch's counts. |
| Sessions.StepKeepsCounters | src/client.ts:221-245 | Page views never exceed events in a held session, and a counted batch adds at least one event. |
| Sessions.OneMinuteExtension | src/client.ts:226-234 | A batch one minute into a fresh session extends it to a duration of 1860 seconds. |
| Sessions.SetOnceOnlyWhenNew | src/client.ts:261-264 | `set_once` is empty unless the session is new. |
| SessionMapper.DurationSeconds | src/utils/sessionMapper.ts:10-17 | Rounded seconds within half a second of the length; an end before the start gives no number. |
| SessionMapper.SessionPropertiesFacts | src/utils/sessionMapper.ts:6-25 | Start, end and counters are copied. `$is_bounce` holds if and only if the event count is 1. The end fields come from the last event. |
| SessionMapper.FreshSessionDuration | src/utils/sessionMapper.ts:10-17 | A fresh session lasts 1800 seconds. |
| SessionMapper.ExtendedSessionDuration | src/utils/sessionMapper.ts:10-17 | A session extended one minute after its start lasts 1860 seconds. |
| SessionMapper.InitialValuesCopy | src/utils/sessionMapper.ts:32-48 | Each listed `$initial_<p>` holds the first event's `$<p>`. |
| SessionMapper.AnyTruthyExists | src/utils/sessionMapper.ts:54-64 | The paid-click flag holds if and only if one of the click-id properties is truthy. |
| SessionMapper.InitialSessionPropertiesFacts | src/utils/sessionMapper.ts:27-67 | The start fields come from the first event, all 16 `$initial_` keys are copied, and the channel is the classifier applied to the first event's inputs. |
| Identity.Get | src/client.ts:175 | Defined exactly when the key is held. |
| Identity.Put | src/client.ts:163 | An existing key keeps its place; a new key is appended; the other keys keep their order. |
| Identity.PutGet | src/client.ts:163 | After a write the key holds the written value. |
| Identity.PutOther | src/client.ts:163 | A write leaves every other key's value unchanged. |
| Identity.PutDistinct | src/client.ts:163 | A write keeps the keys distinct. |
| Identity.Delete | src/client.ts:169 | The result holds only entries of the input, none under the deleted key. |
| Identity.DeleteGet | src/client.ts:169 | After `delete` the key is absent and every other key is unchanged. |
| Identity.DeleteDistinct | src/client.ts:169 | `delete` keeps the keys distinct. |
| Identity.Coerce | src/client.ts:158-163 | Only strings, numbers and `null` are usable; a number becomes its decimal text. |
| Identity.MergeDistinct | src/client.ts:157-165 | The merge keeps the keys distinct. |
| Identity.MergeLastUsableWins | src/client.ts:157-165 | A key ends with the coerced value of its last usable update. |
| Identity.MergeKeepsUntouched | src/client.ts:157-165 | A key with no usable update keeps its previous value. |
| Identity.Relations | src/client.ts:351-353 | One pure linkage relation (no `set`, no `set_once`) per entry, in key order. A key has a relation exactly when it is held, and a held key's relation carries the value `Get` reads for it. |
| Identity.NoAnonymousRelationAfterDelete | src/client.ts:169 | Once `anonymous_id` is deleted no relation links it. |
| Identity.EnsureIdentification | src/client.ts:343-347 | A held identification is returned unchanged. Without one, the result holds `anonymous_id` with the fresh id and no other key. |
| Storage.PersistThenGet | src/utils/persistentStorage.ts:94-108 | In the default policy, a non-empty value that lands is what a later read finds. |
| Storage.FallbackOnlyWhenNotVisible | src/utils/persistentStorage.ts:104-108 | A kept cookie leaves `localStorage` untouched. A refused write with no cookie of that name goes to `localStorage`. |
| Storage.StaleCookieShadows | src/utils/persistentStorage.ts:94-108 | An older non-empty cookie counts as a visible write: the refused value is lost and reads keep the old cookie. |
| Storage.PersistOther | src/utils/persistentStorage.ts:99-110 | A write under one name changes no read under another, in every policy. |
| Storage.RemoveThenGet | src/utils/persistentStorage.ts:112-121 | After a removal nothing is read under that name, in every policy. |
| Storage.RemoveOther | src/utils/persistentStorage.ts:112-121 | A removal changes no read under another name. |
| Storage.BoolText | src/utils/persistentStorage.ts:38-42 | Non-empty text that is `"true"` exactly for true. |
| Storage.ClientStateRoundTrip | src/utils/persistentStorage.ts:36-65 | In the default policy, when both writes land, loading gives back the saved flags. |
| Storage.PersistentStorage.Persist | src/utils/persistentStorage.ts:99-110 | The stores become `PersistSpec`: cookie, `localStorage`, or cookie with fallback when the cookie is not visible. |
| Storage.PersistentStorage.Remove | src/utils/persistentStorage.ts:112-121 | The stores become `RemoveSpec`: the selected stores drop the name. |
| Storage.PersistentStorage.SaveIdentification | src/utils/persistentStorage.ts:15-21 | `null` removes the key; anything else stores its text. |
| Storage.PersistentStorage.LoadIdentification | src/utils/persistentStorage.ts:23-34 | A missing or empty entry, or a non-default storage type, gives nothing; otherwise the decoded text, or nothing when it cannot be read. |
| Storage.PersistentStorage.SaveSession | src/utils/persistentStorage.ts:67-73 | `null` removes the key; anything else stores its text. |
| Storage.PersistentStorage.LoadSession | src/utils/persistentStorage.ts:75-86 | A missing or empty entry, or a non-default storage type, gives nothing; otherwise the decoded text, or nothing when it cannot be read. |
| Storage.PersistentStorage.SaveClientState | src/utils/persistentStorage.ts:36-44 | Each flag is written as `"true"` or `"false"`. |
| Storage.PersistentStorage.LoadClientState | src/utils/persistentStorage.ts:46-65 | The defaults are `!disableTrackingByDefault` and `trackIpAndGeolocation` defaults to true unless configured `false`. A non-empty stored text overrides its default, and only `"true"` reads as true. |
| Storage.IdentificationSaveLoad | src/utils/persistentStorage.ts:15-34 | In the default policy, a saved identification that lands is loaded back unchanged. |
| Storage.SessionSaveLoad | src/utils/persistentStorage.ts:67-86 | In the default policy, a saved session that lands is loaded back unchanged. |
| Codec.SessionRoundTrip | src/utils/persistentStorage.ts:71-81 | Decoding an encoded session gives the session back. |
| Codec.IdentificationRoundTrip | src/utils/persistentStorage.ts:19-30 | Decoding an encoded identification with distinct keys gives it back, keys in order. |
| Codec.DecodedIdentificationDistinct | src/utils/persistentStorage.ts:29-33 | Any decoded identification has distinct keys, as an object's keys are. |
| Codec.ParseIntRoundTrip | src/utils/persistentStorage.ts:71-81 | An encoded integer reads back, with whatever follows it. |
| Codec.ParseStrRoundTrip | src/utils/persistentStorage.ts:19-30 | An encoded string reads back, with whatever follows it. |
| Attribution.QueryString | src/utils/marketingAttribution.ts:25 | There is no query exactly when the URL has no `?`. |
| Attribution.AddDollar | src/utils/marketingAttribution.ts:29 | Each entry keeps its value and its position. Its key is one character longer, starts with `$`, and removing that `$` gives the original key back. |
| Attribution.KeepRestricts | src/utils/marketingAttribution.ts:26-28 | Filtering by name then building the object keeps exactly the listed keys, with their values. |
| Attribution.AddDollarKeys | src/utils/marketingAttribution.ts:26-30 | The prefixed object's keys are exactly the `$`-prefixed keys. |
| Attribution.AddDollarValue | src/utils/marketingAttribution.ts:26-30 | A prefixed key holds its unprefixed key's value. |
| Attribution.AddDollarRenames | src/utils/marketingAttribution.ts:26-30 | Prefixing renames the keys and keeps the values. |
| Attribution.PropertiesFromQuery | src/utils/marketingAttribution.ts:24-31 | A `$`-name is present exactly when its listed parameter occurs, with the parameters' object value. |
| Attribution.MarketingAttributionKeys | src/utils/marketingAttribution.ts:17-22 | The keys are exactly the `$`-names of the UTM and click-id parameters present. |
| Attribution.UnprefixedKeys | src/utils/getMarketingAttribution.ts:17-29 | The keys are exactly the listed parameters present. |
| Attribution.PrefixedMatchesUnprefixed | src/utils/getMarketingAttribution.ts:24-29 | For one URL, the two variants agree up to the `$` before each key. |
| Attribution.LastOccurrenceWins | src/utils/marketingAttribution.ts:26-30 | A repeated parameter takes the value of its last occurrence. |
| Attribution.NoQueryNoAttribution | src/utils/getMarketingAttribution.ts:25 | A URL with no `?` yields nothing, in both variants. |
| Attribution.OnlyFirstQueryIsRead | src/utils/marketingAttribution.ts:25 | Only the text between the first and second `?` is read. |
| Values.FromEntriesLastWins | src/utils/marketingAttribution.ts:26 | For a repeated key, `Object.fromEntries` keeps its last value. |
| UserAgent.UnknownWithoutToken | src/utils/userAgentParser.ts:11-49 | With no browser token the result is `{ Unknown, Unknown }`, and a named result implies a token. |
| UserAgent.ChromeWithBareOprIsUnknown | src/utils/userAgentParser.ts:23 | A Chrome user agent with a bare `OPR` and no other token is `Unknown`. |
| UserAgent.OperaFirst | src/utils/userAgentParser.ts:14-16 | An `Opera` or `OPR/` token decides the name Opera. |
| UserAgent.EdgeBeforeChrome | src/utils/userAgentParser.ts:17-25 | A Chromium Edge user agent is classified as Edge, not Chrome. |
| UserAgent.VersionFollowsToken | src/utils/userAgentParser.ts:19-43 | The captured version is `digits.digits` right after the token. |
| UserAgent.DecimalStopsAtSecondDot | src/utils/userAgentParser.ts:25 | `\d+\.\d+` captures `124.0` from `124.0.0.0`. |
| UserAgent.FirstMatch | src/utils/userAgentParser.ts:16-43 | The leftmost match position, with no match before it. |
| UserAgent.FirstAltMatch | src/utils/userAgentParser.ts:16 | The leftmost position where either alternative matches, with none before it. |
| UserAgent.WindowsNames | src/utils/userAgentParser.ts:55-78 | Only the six listed NT versions get a name; 10.0 is refined by the platform version (major 13 or more is Windows 11). |
| UserAgent.AppleLabels | src/utils/userAgentParser.ts:79-84 | A Mac OS X or iOS label is its token followed by at least two characters, all digits or dots: every `_` of the captured version became `.`. |
| UserAgent.MacTestedBeforeIos | src/utils/userAgentParser.ts:79-84 | A `Mac OS X` user agent takes the Mac branch; a missing version there throws. |
| UserAgent.MobileWins | src/utils/userAgentParser.ts:93-94 | `Android` or `Mobile` in the user agent gives `Mobile`, whatever else it says. |
| UserAgent.IpadIsTablet | src/utils/userAgentParser.ts:95-96 | An iPad user agent without a mobile token is a tablet. |
| CookieDomain.GetCookieDomain | src/utils/getCookieDomain.ts:4-28 | A configured domain is returned. Without a document the result is null. Otherwise the shortest accepted candidate is returned, or null when none is accepted. The jar is unchanged. |
| CookieDomain.CandidateIsLabelSuffix | src/utils/getCookieDomain.ts:14-17 | Every candidate is a dot followed by a suffix of the hostname starting at a label boundary. |
| CookieDomain.FirstCandidateIsLastLabel | src/utils/getCookieDomain.ts:16-17 | The first candidate tried is the last label alone. |
| Strings.JoinSplit | src/utils/getCookieDomain.ts:14-17 | Joining the parts of a split gives the string back. |
| Strings.JoinedSuffix | src/utils/getCookieDomain.ts:14-17 | The parts from any index on, joined, are a suffix of the string starting at a separator boundary. |
| Strings.ContainsOccurrence | src/utils/userAgentParser.ts:14-44 | A literal test succeeds exactly when the token occurs at some position. |
| Navigation.ShouldDispatch | src/client.ts:416-430 | `any` or unset compares full URLs, `path-with-query` the text before `#`, `path` the text before `#` and `?`; any other value never dispatches. |
| Navigation.FragmentChange | src/client.ts:416-430 | A fragment-only change dispatches in `any` mode and not in the other two. |
| Navigation.QueryChange | src/client.ts:416-430 | A query change dispatches in `path-with-query` mode and not in `path` mode. |
| Navigation.SameUrlNeverDispatches | src/client.ts:416-430 | Revisiting the last tracked URL never dispatches. |
| Navigation.PageViewTracker.OnLocationChange | src/client.ts:413-432 | The dispatch decision is `ShouldDispatch` against the last tracked URL, which moves to the new URL only when it dispatches. |
| Forms.ExcludedProperties | src/utils/formTracker.ts:93-107 | The lower-cased fixed and configured names, then the password inputs' names as written. |
| Forms.Reported | src/utils/formTracker.ts:112-117 | Exactly the text entries whose lower-cased key is not excluded. |
| Forms.FormDataContents | src/utils/formTracker.ts:112-119 | A key is reported exactly when its lower-cased form is not excluded, with the value of its last text entry. |
| Forms.SensitiveNeverReported | src/utils/formTracker.ts:93-101 | No field named like ccn, cvv, password, pin, secret or token, in any case, is reported. |
| Forms.FieldHiddenIff | src/utils/formTracker.ts:103-114 | A field is hidden exactly when its lower-cased name is excluded or equals a password input's name as written. |
| Forms.FormTracker.RegisterHandler | src/utils/formTracker.ts:53-58 | An excluded form gets no handler; any other form gets a fresh handler that has not run. |
| Forms.FormTracker.Init | src/utils/formTracker.ts:8-22 | Without a document nothing is registered. Otherwise every form is registered in order, excluded ones getting no handler. |
| Forms.SubmitHandler.Submit | src/utils/formTracker.ts:60-88 | The first submit yields the form id and filtered data; every later submit yields nothing. |
| Forms.SubmitTwice | src/utils/formTracker.ts:53-88 | Two submits of a registered form track once; an excluded form tracks never. |
| Model.ToFullConfig | src/client.ts:43-47 | A missing `baseURL` becomes the default; a given one, even empty, is kept. The write key and storage type are kept. |

## Left out

- Network: `fetch`, request headers and `requestConfig` spreading are not modelled (`src/client.ts:124-137`, `300-311`, `325-336`). Each request is appended to the client's log instead. A failing request changes no state, so the log records every attempt.
- Asynchrony: the interleaving of `async` calls is not modelled. Each public call is one atomic step, and in the location-change listener the URL update and the page view happen in that one step.
- Browser plumbing is not modelled:
  - history patching and the `popstate`/`hashchange` listeners (`src/client.ts:383-411`);
  - the `MutationObserver` (`src/utils/formTracker.ts:25-51`);
  - `preventDefault` and `requestSubmit`/`setTimeout` re-submission (`src/utils/formTracker.ts:69-82`).
  
  Forms and location changes are inputs of the methods that react to them.
- Model.ToFullConfig: an option given explicitly as `undefined` is not told apart from a missing one (both are `None`). In the source the spread of `src/client.ts:43-47` copies an explicit `undefined` over the default. An explicit `undefined` `baseURL` then fails every `assertConfig` (`src/client.ts:448-451`), so nothing is sent. An explicit `undefined` `defaultTrackingConfig` makes `track` throw when it reads the sessions option (`src/client.ts:212`). The model uses the defaults in both cases.
- Client.Metrical.constructor: `initDefaultTracking` is not called from the constructor. It is the separate method `InitDefaultTracking`, which the embedder calls after construction. The source starts it without awaiting it.
- js-cookie: cookie attributes (domain, path, expiry) and the string search in `document.cookie` are not modelled. Visibility is "a cookie of that name is present", and acceptance is an oracle. The cookie domain used by writes does not change the jar, so `getCookieDomain` is modelled separately.
- CookieDomain.GetCookieDomain: the random probe name (`Math.random`) is a parameter assumed absent from the jar. The `indexOf` substring test is approximated by presence of the name.
- The JSON text of stored values is replaced by a small codec. JSON for values other than objects (`JSON.parse` of arbitrary stored text) is only modelled as "decodes or not".
- Luxon date arithmetic and ISO-8601 text: times are integer milliseconds, and comparing ISO texts of one format is comparing the numbers. Fractional durations are not modelled; rounding is stated as a half-second bound.
- UUID generation is not modelled: fresh ids are parameters.
- `new URL(...).hostname` and `URLSearchParams` percent-decoding are given functions. Splitting into `&`-separated `name=value` pieces is modelled.
- `getChannelType` and `isBotUserAgent` are not part of this model: the classifier is a parameter and the bot check a boolean.
- The asynchronous `navigator.userAgentData` lookup of the Windows 10/11 branch is an input (`UaData`).
- Case-insensitive matching lower-cases ASCII letters only.
- Identity.Relations: key order follows insertion order. JavaScript's placement of integer-like keys first is not modelled.
- Numbers are integers: `toString` of fractional numbers and NaN are not modelled.
- The record update payload is carried as given, without its nested shape. The caller's relations are taken as a list.
- `window` and `document` are assumed present for `track`, whose browser and OS lookups read them. `currentPageContext` is the `PageContext` argument.
- The older DOM-only form tracker `src/formTracker.ts` is not part of this model.
