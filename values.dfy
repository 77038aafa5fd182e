/**
 * JavaScript-level values the client manipulates: optional values, the
 * JSON-like property bags attached to events and records, truthiness,
 * `String(x)` and `Object.fromEntries`.
 */
module Values {

  datatype Option<+T> = None | Some(value: T) {
    predicate IsFailure() {
      None?
    }

    function PropagateFailure<U>(): Option<U>
      requires None?
    {
      None
    }

    function Extract(): T
      requires Some?
    {
      value
    }
  }

  /** A property value. `Undefined` stands for JavaScript's `undefined`
      (a key that is read but absent, or an optional enrichment that is
      missing); JSON serialisation drops such keys. */
  datatype Value =
    | Undefined
    | Null
    | Bool(b: bool)
    | Num(n: int)
    | Str(s: string)
    | Arr(items: seq<Value>)
    | Obj(fields: map<string, Value>)

  /** A property bag (`NestedObject`). */
  type Props = map<string, Value>

  /** `props[key]`: the stored value, or `undefined` when the key is absent. */
  function Lookup(props: Props, key: string): (v: Value)
    ensures key !in props ==> v == Undefined
  {
    if key in props then props[key] else Undefined
  }

  /** JavaScript truthiness (`!!v`); NaN is not a value of this model. */
  predicate Truthy(v: Value) {
    match v
    case Undefined => false
    case Null => false
    case Bool(b) => b
    case Num(n) => n != 0
    case Str(s) => s != ""
    case Arr(_) => true
    case Obj(_) => true
  }

  function DigitChar(d: nat): (c: char)
    requires d < 10
    ensures '0' <= c <= '9' && c as int - '0' as int == d
  {
    ('0' as int + d) as char
  }

  /** Decimal digits of a natural number, most significant first. */
  function NatToDecimal(n: nat): (s: string)
    ensures |s| >= 1
    ensures forall i :: 0 <= i < |s| ==> '0' <= s[i] <= '9'
  {
    if n < 10 then [DigitChar(n)] else NatToDecimal(n / 10) + [DigitChar(n % 10)]
  }

  /** `n.toString()` for an integer. */
  function IntToDecimal(n: int): (s: string)
    ensures |s| >= 1
    ensures (s[0] == '-') <==> n < 0
  {
    if n < 0 then "-" + NatToDecimal(-n) else NatToDecimal(n)
  }

  /** `String(v)`, as used on property values before they are handed to the
      channel classifier. */
  function JsString(v: Value): (s: string)
    ensures v.Str? ==> s == v.s
  {
    match v
    case Undefined => "undefined"
    case Null => "null"
    case Bool(b) => if b then "true" else "false"
    case Num(n) => IntToDecimal(n)
    case Str(s) => s
    case Arr(items) => JoinItems(items)
    case Obj(_) => "[object Object]"
  }

  /** `Array.prototype.toString`: elements joined by commas, with `null` and
      `undefined` elements written as empty strings. */
  function JoinItems(items: seq<Value>): string
    decreases items, 0
  {
    if items == [] then ""
    else
      var first := if items[0].Undefined? || items[0].Null? then "" else JsString(items[0]);
      if |items| == 1 then first else first + "," + JoinItems(items[1..])
  }

  /** `Object.fromEntries(entries)`: later entries overwrite earlier ones with
      the same key. */
  function FromEntries<V>(entries: seq<(string, V)>): (m: map<string, V>)
    ensures forall k :: k in m <==> exists i :: 0 <= i < |entries| && entries[i].0 == k
  {
    if entries == [] then map[]
    else
      var last := entries[|entries| - 1];
      var m := FromEntries(entries[..|entries| - 1]);
      m[last.0 := last.1]
  }

  /** Appending an entry to the list writes its key over the object. */
  lemma FromEntriesSnoc<V>(entries: seq<(string, V)>, e: (string, V))
    ensures FromEntries(entries + [e]) == FromEntries(entries)[e.0 := e.1]
  {
    assert (entries + [e])[..|entries|] == entries;
  }

  /** The index of the last entry with key `k`. */
  predicate IsLastWithKey<V>(entries: seq<(string, V)>, k: string, i: int) {
    0 <= i < |entries| && entries[i].0 == k &&
    forall j :: i < j < |entries| ==> entries[j].0 != k
  }

  /** For a repeated key, `Object.fromEntries` keeps the value of its last
      occurrence. */
  lemma {:induction false} FromEntriesLastWins<V>(entries: seq<(string, V)>, k: string, i: int)
    requires IsLastWithKey(entries, k, i)
    ensures k in FromEntries(entries) && FromEntries(entries)[k] == entries[i].1
  {
    var n := |entries|;
    if i < n - 1 {
      var prefix := entries[..n - 1];
      assert IsLastWithKey(prefix, k, i);
      FromEntriesLastWins(prefix, k, i);
    }
  }
}
