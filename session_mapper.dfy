/**
 * The property maps attached to the session relation: `set` describes the
 * session as it now stands and the batch's last in-scope event; `set_once`
 * describes how the session began, from its first in-scope event.
 *
 * The channel classifier (`getChannelType`) is not part of this model; it is
 * a given function of the five inputs the client hands it.
 */
module SessionMapper {
  import opened Values
  import opened Model
  import Attribution

  /** `Math.round` of the session length in seconds. An end before the start
      makes an invalid interval whose length is NaN, serialised as `null`. */
  function DurationSeconds(start: int, end: int): (v: Value)
    ensures end >= start ==> v.Num? && v.n * 1000 - 500 <= end - start < v.n * 1000 + 500
    ensures end < start ==> v == Null
  {
    if end >= start then Num((end - start + 500) / 1000) else Null
  }

  /** `sessionProperties(session, lastEvent)`. */
  function SessionProperties(session: Session, lastName: string, lastProps: Props): Props {
    map[
      "$session_start" := Num(session.session_start),
      "$session_end" := Num(session.session_end),
      "$session_duration_seconds" := DurationSeconds(session.session_start, session.session_end),
      "$event_count" := Num(session.event_count),
      "$pageview_count" := Num(session.pageview_count),
      "$is_bounce" := Bool(session.event_count == 1),
      "$end_event" := Str(lastName),
      "$end_location" := Lookup(lastProps, "$location"),
      "$end_path" := Lookup(lastProps, "$path")]
  }

  /** The session fields are copied, the bounce flag holds exactly for a
      one-event session, and the end fields come from the last event. */
  lemma SessionPropertiesFacts(session: Session, lastName: string, lastProps: Props)
    ensures var p := SessionProperties(session, lastName, lastProps);
      p["$session_start"] == Num(session.session_start) &&
      p["$session_end"] == Num(session.session_end) &&
      p["$event_count"] == Num(session.event_count) &&
      p["$pageview_count"] == Num(session.pageview_count) &&
      (p["$is_bounce"] == Bool(true) <==> session.event_count == 1) &&
      p["$end_event"] == Str(lastName) &&
      p["$end_location"] == Lookup(lastProps, "$location") &&
      p["$end_path"] == Lookup(lastProps, "$path")
  {
  }

  const SESSION_LENGTH_MS := 30 * 60 * 1000

  /** A fresh session lasts 1800 seconds. */
  lemma FreshSessionDuration(now: int)
    ensures DurationSeconds(now, now + SESSION_LENGTH_MS) == Num(1800)
  {
  }

  /** A session extended one minute after it started lasts 1860 seconds. */
  lemma ExtendedSessionDuration(start: int)
    ensures DurationSeconds(start, start + 60 * 1000 + SESSION_LENGTH_MS) == Num(1860)
  {
  }

  /** The event properties whose first-event values are kept as
      `$initial_<name>`, in the order the object lists them. */
  const INITIAL_PARAMS: seq<string> := Attribution.UTM_PARAMS + ["referring_domain"] + Attribution.CLICK_ID_PARAMS

  /** `$initial_<name>` := the first event's `$<name>`, for each name. */
  function InitialValues(props: Props, names: seq<string>): Props {
    if names == [] then map[]
    else
      var n := names[|names| - 1];
      InitialValues(props, names[..|names| - 1])["$initial_" + n := Lookup(props, "$" + n)]
  }

  /** Every listed name gets its `$initial_` key, holding the first event's value. */
  lemma {:induction false} InitialValuesCopy(props: Props, names: seq<string>, i: nat)
    requires i < |names|
    ensures "$initial_" + names[i] in InitialValues(props, names)
    ensures InitialValues(props, names)["$initial_" + names[i]] == Lookup(props, "$" + names[i])
  {
    var n := |names|;
    if i < n - 1 {
      var prefix := names[..n - 1];
      assert prefix[i] == names[i];
      InitialValuesCopy(props, prefix, i);
      var k := names[n - 1];
      if "$initial_" + k == "$initial_" + names[i] {
        assert k == ("$initial_" + k)[9..] == ("$initial_" + names[i])[9..] == names[i];
      }
    }
  }

  /** The inputs of `getChannelType`. */
  datatype ChannelInputs = ChannelInputs(
    campaign: string,
    medium: string,
    source: string,
    referringDomain: string,
    paid: bool)

  /** `!!props['$a'] || !!props['$b'] || …` over the given click ids. */
  function AnyTruthy(props: Props, ids: seq<string>): bool {
    if ids == [] then false else Truthy(Lookup(props, "$" + ids[0])) || AnyTruthy(props, ids[1..])
  }

  /** The paid flag is set exactly when one of the click ids is truthy. */
  lemma {:induction false} AnyTruthyExists(props: Props, ids: seq<string>)
    ensures AnyTruthy(props, ids) <==> exists i :: 0 <= i < |ids| && Truthy(Lookup(props, "$" + ids[i]))
  {
    if ids != [] {
      AnyTruthyExists(props, ids[1..]);
      if AnyTruthy(props, ids[1..]) {
        var i :| 0 <= i < |ids[1..]| && Truthy(Lookup(props, "$" + ids[1..][i]));
        assert Truthy(Lookup(props, "$" + ids[i + 1]));
      }
      if exists i :: 0 <= i < |ids| && Truthy(Lookup(props, "$" + ids[i])) {
        var i :| 0 <= i < |ids| && Truthy(Lookup(props, "$" + ids[i]));
        if i > 0 {
          assert ids[1..][i - 1] == ids[i];
        }
      }
    }
  }

  function ChannelInputsOf(props: Props): ChannelInputs {
    ChannelInputs(
      JsString(Lookup(props, "$utm_campaign")),
      JsString(Lookup(props, "$utm_medium")),
      JsString(Lookup(props, "$utm_source")),
      JsString(Lookup(props, "$referring_domain")),
      AnyTruthy(props, Attribution.CLICK_ID_PARAMS))
  }

  /** `initialSessionProperties(firstEvent)`. */
  function InitialSessionProperties(firstName: string, firstProps: Props, channel: ChannelInputs -> string): Props {
    InitialValues(firstProps, INITIAL_PARAMS)[
      "$start_event" := Str(firstName)][
      "$start_location" := Lookup(firstProps, "$location")][
      "$start_path" := Lookup(firstProps, "$path")][
      "$channel_type" := Str(channel(ChannelInputsOf(firstProps)))]
  }

  /** The `set_once` map records how the session began: the first event's
      name, location and path, each `$initial_<name>` equal to the first
      event's `$<name>` for the 5 UTM parameters, the referring domain and
      the 11 click ids, and the channel computed from the first event, with
      the paid flag set exactly when one of its click ids is truthy. */
  lemma InitialSessionPropertiesFacts(firstName: string, firstProps: Props, channel: ChannelInputs -> string)
    ensures var p := InitialSessionProperties(firstName, firstProps, channel);
      p["$start_event"] == Str(firstName) &&
      p["$start_location"] == Lookup(firstProps, "$location") &&
      p["$start_path"] == Lookup(firstProps, "$path") &&
      (forall i :: 0 <= i < |INITIAL_PARAMS| ==>
        "$initial_" + INITIAL_PARAMS[i] in p &&
        p["$initial_" + INITIAL_PARAMS[i]] == Lookup(firstProps, "$" + INITIAL_PARAMS[i])) &&
      p["$channel_type"] == Str(channel(ChannelInputsOf(firstProps))) &&
      (ChannelInputsOf(firstProps).paid <==>
        exists i :: 0 <= i < |Attribution.CLICK_ID_PARAMS| && Truthy(Lookup(firstProps, "$" + Attribution.CLICK_ID_PARAMS[i])))
  {
    var p := InitialSessionProperties(firstName, firstProps, channel);
    forall i | 0 <= i < |INITIAL_PARAMS|
      ensures "$initial_" + INITIAL_PARAMS[i] in p
      ensures p["$initial_" + INITIAL_PARAMS[i]] == Lookup(firstProps, "$" + INITIAL_PARAMS[i])
    {
      InitialValuesCopy(firstProps, INITIAL_PARAMS, i);
      var k := "$initial_" + INITIAL_PARAMS[i];
      assert k[1] == 'i';
      assert "$start_event"[1] == 's' && "$start_location"[1] == 's' && "$start_path"[1] == 's';
      assert "$channel_type"[1] == 'c';
    }
    AnyTruthyExists(firstProps, Attribution.CLICK_ID_PARAMS);
  }
}
