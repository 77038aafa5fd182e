/**
 * The text form in which the identification and the session are stored.
 * The client writes them with `JSON.stringify` and reads them back with
 * `JSON.parse`; this module stands in for that pair with a small
 * length-prefixed format that has the two properties the client relies on:
 * the text of a value is never empty, and reading back what was written
 * gives the value again. Reading arbitrary text never fails hard: text that
 * is not in the format gives `None`, as a `JSON.parse` error caught by the
 * client does.
 *
 * Format: a string is `<length>:<chars>`, an integer `<sign><digits>,`, a
 * session `S` followed by its five fields, an identification `I` followed by
 * its entries, each a key string and then `n` (null) or `s` and a value string.
 */
module Codec {
  import opened Values
  import opened Model
  import opened Identity
  import opened Strings

  predicate AllDigits(d: string) {
    forall i :: 0 <= i < |d| ==> IsDigit(d[i])
  }

  /** The number a run of decimal digits denotes. */
  function DigitsValue(d: string): nat
    requires AllDigits(d)
  {
    if d == [] then 0
    else DigitsValue(d[..|d| - 1]) * 10 + (d[|d| - 1] as int - '0' as int)
  }

  /** Reading the decimal digits of `n` gives `n`. */
  lemma {:induction false} DigitsValueOfDecimal(n: nat)
    ensures DigitsValue(NatToDecimal(n)) == n
  {
    if n >= 10 {
      var d := NatToDecimal(n);
      assert d[..|d| - 1] == NatToDecimal(n / 10);
      DigitsValueOfDecimal(n / 10);
    }
  }

  /** The length of the run of digits `s` starts with. */
  function LeadingDigits(s: string): (k: nat)
    ensures k <= |s| && AllDigits(s[..k])
    ensures k == |s| || !IsDigit(s[k])
  {
    if s == [] || !IsDigit(s[0]) then 0
    else
      var k := 1 + LeadingDigits(s[1..]);
      assert s[..k] == [s[0]] + s[1..][..k - 1];
      k
  }

  lemma {:induction false} LeadingDigitsOf(d: string, rest: string)
    requires AllDigits(d)
    requires rest == [] || !IsDigit(rest[0])
    ensures LeadingDigits(d + rest) == |d|
  {
    if d != [] {
      assert (d + rest)[1..] == d[1..] + rest;
      LeadingDigitsOf(d[1..], rest);
    }
  }

  /** A natural number written in decimal, and what follows it. */
  function ParseNat(s: string): (r: Option<(nat, string)>)
    ensures r.Some? ==> |r.value.1| < |s|
  {
    var k := LeadingDigits(s);
    if k == 0 then None else Some((DigitsValue(s[..k]), s[k..]))
  }

  lemma ParseNatDecimal(n: nat, rest: string)
    requires rest == [] || !IsDigit(rest[0])
    ensures ParseNat(NatToDecimal(n) + rest) == Some((n, rest))
  {
    var d := NatToDecimal(n);
    LeadingDigitsOf(d, rest);
    assert (d + rest)[..|d|] == d;
    assert (d + rest)[|d|..] == rest;
    DigitsValueOfDecimal(n);
  }

  function EncodeStr(t: string): string {
    NatToDecimal(|t|) + ":" + t
  }

  function ParseStr(s: string): (r: Option<(string, string)>)
    ensures r.Some? ==> |r.value.1| < |s|
  {
    var (n, rest) :- ParseNat(s);
    if |rest| >= 1 + n && rest[0] == ':' then Some((rest[1..1 + n], rest[1 + n..])) else None
  }

  /** A string reads back whatever follows it. */
  lemma ParseStrRoundTrip(t: string, rest: string)
    ensures ParseStr(EncodeStr(t) + rest) == Some((t, rest))
  {
    var tail := ":" + t + rest;
    ParseNatDecimal(|t|, tail);
    assert EncodeStr(t) + rest == NatToDecimal(|t|) + tail;
    assert tail[1..1 + |t|] == t && tail[1 + |t|..] == rest;
  }

  function EncodeInt(i: int): string {
    (if i < 0 then "-" else "+") + NatToDecimal(if i < 0 then -i else i) + ","
  }

  function ParseInt(s: string): (r: Option<(int, string)>)
    ensures r.Some? ==> |r.value.1| < |s|
  {
    if s == [] || (s[0] != '-' && s[0] != '+') then None
    else
      var (n, rest) :- ParseNat(s[1..]);
      var i := if s[0] == '-' then -(n as int) else n as int;
      if rest != [] && rest[0] == ',' then Some((i, rest[1..])) else None
  }

  /** A sign, a decimal and a comma read back as the signed number. */
  lemma ParseSigned(sign: char, m: nat, rest: string)
    requires sign == '-' || sign == '+'
    ensures ParseInt([sign] + NatToDecimal(m) + "," + rest) == Some((if sign == '-' then -(m as int) else m as int, rest))
  {
    var tail := "," + rest;
    var s := [sign] + NatToDecimal(m) + "," + rest;
    assert s[0] == sign && s[1..] == NatToDecimal(m) + tail;
    ParseNatDecimal(m, tail);
    assert tail[0] == ',' && tail[1..] == rest;
  }

  /** An integer reads back whatever follows it. */
  lemma ParseIntRoundTrip(i: int, rest: string)
    ensures ParseInt(EncodeInt(i) + rest) == Some((i, rest))
  {
    var m: nat := if i < 0 then -i else i;
    var sign := if i < 0 then '-' else '+';
    assert EncodeInt(i) + rest == [sign] + NatToDecimal(m) + "," + rest;
    ParseSigned(sign, m, rest);
  }


  /** `JSON.stringify(session)`. */
  function EncodeSession(x: Session): (s: string)
    ensures s != []
  {
    "S" + EncodeStr(x.id) + EncodeInt(x.session_start) + EncodeInt(x.session_end)
      + EncodeInt(x.event_count) + EncodeInt(x.pageview_count)
  }

  /** `JSON.parse` of a stored session; `None` for text it cannot read. */
  function DecodeSession(s: string): Option<Session> {
    if s == [] || s[0] != 'S' then None
    else
      var (id, r1) :- ParseStr(s[1..]);
      var (start, r2) :- ParseInt(r1);
      var (end, r3) :- ParseInt(r2);
      var (events, r4) :- ParseInt(r3);
      var (pageviews, r5) :- ParseInt(r4);
      if r5 == [] then Some(Session(id, start, end, events, pageviews)) else None
  }

  /** Reading a stored session gives back the session that was stored. */
  lemma SessionRoundTrip(x: Session)
    ensures DecodeSession(EncodeSession(x)) == Some(x)
  {
    var e4 := EncodeInt(x.pageview_count);
    var e3 := EncodeInt(x.event_count) + e4;
    var e2 := EncodeInt(x.session_end) + e3;
    var e1 := EncodeInt(x.session_start) + e2;
    assert EncodeSession(x) == "S" + (EncodeStr(x.id) + e1);
    assert EncodeSession(x)[1..] == EncodeStr(x.id) + e1;
    ParseStrRoundTrip(x.id, e1);
    ParseIntRoundTrip(x.session_start, e2);
    ParseIntRoundTrip(x.session_end, e3);
    ParseIntRoundTrip(x.event_count, e4);
    ParseIntRoundTrip(x.pageview_count, []);
    assert EncodeInt(x.pageview_count) + [] == e4;
  }

  function EncodeEntry(e: IdEntry): string {
    EncodeStr(e.key) + (if e.value.None? then "n" else "s" + EncodeStr(e.value.value))
  }

  function EncodeEntries(id: Identification): string {
    if id == [] then [] else EncodeEntry(id[0]) + EncodeEntries(id[1..])
  }

  /** `JSON.stringify(identification)`. */
  function EncodeIdentification(id: Identification): (s: string)
    ensures s != []
  {
    "I" + EncodeEntries(id)
  }

  function ParseEntry(s: string): (r: Option<(IdEntry, string)>)
    ensures r.Some? ==> |r.value.1| < |s|
  {
    var (key, rest) :- ParseStr(s);
    if rest == [] then None
    else if rest[0] == 'n' then Some((IdEntry(key, None), rest[1..]))
    else if rest[0] == 's' then
      var (v, rest') :- ParseStr(rest[1..]);
      Some((IdEntry(key, Some(v)), rest'))
    else None
  }

  lemma ParseEntryRoundTrip(e: IdEntry, rest: string)
    ensures ParseEntry(EncodeEntry(e) + rest) == Some((e, rest))
  {
    var tail := (if e.value.None? then "n" else "s" + EncodeStr(e.value.value)) + rest;
    assert EncodeEntry(e) + rest == EncodeStr(e.key) + tail;
    ParseStrRoundTrip(e.key, tail);
    if e.value.Some? {
      assert tail[1..] == EncodeStr(e.value.value) + rest;
      ParseStrRoundTrip(e.value.value, rest);
    }
  }

  /** Reads entries until the text ends. A key read twice keeps its first
      position and its last value, as an object literal with a repeated key
      does. */
  function DecodeEntries(s: string, acc: Identification): Option<Identification>
    decreases |s|
  {
    if s == [] then Some(acc)
    else
      var (e, rest) :- ParseEntry(s);
      DecodeEntries(rest, Put(acc, e.key, e.value))
  }

  /** `JSON.parse` of a stored identification; `None` for text it cannot read. */
  function DecodeIdentification(s: string): Option<Identification> {
    if s == [] || s[0] != 'I' then None else DecodeEntries(s[1..], [])
  }

  lemma DecodeEntriesStep(e: IdEntry, rest: string, acc: Identification)
    ensures DecodeEntries(EncodeEntry(e) + rest, acc) == DecodeEntries(rest, Put(acc, e.key, e.value))
  {
    ParseEntryRoundTrip(e, rest);
  }

  lemma MoveFirst<T>(a: seq<T>, s: seq<T>)
    requires s != []
    ensures a + [s[0]] + s[1..] == a + s
  {
    assert s == [s[0]] + s[1..];
  }

  /** With distinct keys overall, the first key of `id` is not among the keys of `acc`. */
  lemma NextKeyIsNew(acc: Identification, id: Identification)
    requires id != [] && DistinctKeys(acc + id)
    ensures !HasKey(acc, id[0].key)
  {
    forall i | 0 <= i < |acc| ensures acc[i].key != id[0].key {
      assert (acc + id)[i] == acc[i] && (acc + id)[|acc|] == id[0];
    }
  }

  lemma {:induction false} DecodeEntriesRoundTrip(id: Identification, acc: Identification)
    requires DistinctKeys(acc + id)
    ensures DecodeEntries(EncodeEntries(id), acc) == Some(acc + id)
  {
    if id != [] {
      var e := id[0];
      var rest := EncodeEntries(id[1..]);
      assert EncodeEntries(id) == EncodeEntry(e) + rest;
      DecodeEntriesStep(e, rest, acc);
      NextKeyIsNew(acc, id);
      var acc' := acc + [e];
      assert Put(acc, e.key, e.value) == acc';
      MoveFirst(acc, id);
      DecodeEntriesRoundTrip(id[1..], acc');
    } else {
      assert acc + id == acc;
    }
  }

  /** Reading a stored identification gives back the identification that was
      stored, provided its keys are distinct, as the keys of an object are. */
  lemma IdentificationRoundTrip(id: Identification)
    requires DistinctKeys(id)
    ensures DecodeIdentification(EncodeIdentification(id)) == Some(id)
  {
    assert [] + id == id;
    assert EncodeIdentification(id)[1..] == EncodeEntries(id);
    DecodeEntriesRoundTrip(id, []);
  }

  /** Whatever text is read, a decoded identification has distinct keys. */
  lemma {:induction false} DecodeEntriesDistinct(s: string, acc: Identification)
    requires DistinctKeys(acc)
    ensures DecodeEntries(s, acc).Some? ==> DistinctKeys(DecodeEntries(s, acc).value)
    decreases |s|
  {
    if s != [] && ParseEntry(s).Some? {
      var (e, rest) := ParseEntry(s).value;
      PutDistinct(acc, e.key, e.value);
      DecodeEntriesDistinct(rest, Put(acc, e.key, e.value));
    }
  }

  lemma DecodedIdentificationDistinct(s: string)
    ensures DecodeIdentification(s).Some? ==> DistinctKeys(DecodeIdentification(s).value)
  {
    if s != [] && s[0] == 'I' {
      DecodeEntriesDistinct(s[1..], []);
    }
  }
}
