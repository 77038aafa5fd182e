/**
 * The identification the client holds: an object from relation keys
 * (`anonymous_id`, `user_id` or any tenant-defined key) to a string or
 * `null`. Key order matters, since the client emits one relation per key in
 * the object's insertion order, so the object is modelled as a sequence of
 * entries with distinct keys.
 */
module Identity {
  import opened Values
  import opened Model

  const ANONYMOUS_ID := "anonymous_id"
  const USER_ID := "user_id"

  /** One property of the identification object; `value == None` is `null`. */
  datatype IdEntry = IdEntry(key: string, value: Option<string>)

  type Identification = seq<IdEntry>

  predicate DistinctKeys(id: Identification) {
    forall i, j :: 0 <= i < j < |id| ==> id[i].key != id[j].key
  }

  predicate HasKey(id: Identification, k: string) {
    exists i :: 0 <= i < |id| && id[i].key == k
  }

  /** The position of the first entry with key `k`. */
  function FirstIndex(id: Identification, k: string): (i: nat)
    requires HasKey(id, k)
    ensures i < |id| && id[i].key == k
    ensures forall j :: 0 <= j < i ==> id[j].key != k
  {
    if id[0].key == k then 0
    else
      assert HasKey(id[1..], k) by {
        var i :| 0 <= i < |id| && id[i].key == k;
        assert id[1..][i - 1].key == k;
      }
      1 + FirstIndex(id[1..], k)
  }

  /** `id[k]`: `None` when the key is absent (`undefined`), otherwise the
      value held under it. */
  function Get(id: Identification, k: string): (r: Option<Option<string>>)
    ensures r.Some? <==> HasKey(id, k)
  {
    if HasKey(id, k) then Some(id[FirstIndex(id, k)].value) else None
  }

  /** Two identifications whose keys agree position by position (the second
      possibly longer) find every key of the first at the same place. */
  lemma SameKeysSameIndex(a: Identification, b: Identification, k: string)
    requires |a| <= |b| && forall j :: 0 <= j < |a| ==> a[j].key == b[j].key
    requires HasKey(a, k)
    ensures HasKey(b, k) && FirstIndex(b, k) == FirstIndex(a, k)
  {
    var i := FirstIndex(a, k);
    assert b[i].key == k;
  }

  /** `id[k] = v`: an existing key keeps its position, a new key goes last. */
  function Put(id: Identification, k: string, v: Option<string>): (r: Identification)
    ensures !HasKey(id, k) ==> r == id + [IdEntry(k, v)]
    ensures HasKey(id, k) ==> |r| == |id|
    ensures forall j :: 0 <= j < |id| ==> r[j].key == id[j].key
  {
    if HasKey(id, k) then id[FirstIndex(id, k) := IdEntry(k, v)] else id + [IdEntry(k, v)]
  }

  /** After `id[k] = v`, `k` holds `v`. */
  lemma PutGet(id: Identification, k: string, v: Option<string>)
    ensures Get(Put(id, k, v), k) == Some(v)
  {
    var r := Put(id, k, v);
    if HasKey(id, k) {
      SameKeysSameIndex(id, r, k);
    } else {
      assert r[|id|].key == k;
      assert FirstIndex(r, k) == |id|;
    }
  }

  /** `id[k] = v` leaves every other key as it was. */
  lemma PutOther(id: Identification, k: string, v: Option<string>, k': string)
    requires k' != k
    ensures Get(Put(id, k, v), k') == Get(id, k')
  {
    var r := Put(id, k, v);
    if HasKey(id, k') {
      SameKeysSameIndex(id, r, k');
    }
  }

  /** `id[k] = v` keeps the keys distinct. */
  lemma PutDistinct(id: Identification, k: string, v: Option<string>)
    requires DistinctKeys(id)
    ensures DistinctKeys(Put(id, k, v))
  {
    if !HasKey(id, k) {
      var r := Put(id, k, v);
      forall i, j | 0 <= i < j < |r| ensures r[i].key != r[j].key {
        if j == |id| {
          assert id[i].key != k;
        }
      }
    }
  }

  /** `delete id[k]`. */
  function Delete(id: Identification, k: string): (r: Identification)
    ensures forall e :: e in r ==> e in id && e.key != k
  {
    if id == [] then []
    else if id[0].key == k then Delete(id[1..], k)
    else [id[0]] + Delete(id[1..], k)
  }

  /** After `delete id[k]`, `k` is absent and the other keys are untouched. */
  lemma {:induction false} DeleteGet(id: Identification, k: string, k': string)
    ensures Get(Delete(id, k), k) == None
    ensures k' != k ==> Get(Delete(id, k), k') == Get(id, k')
  {
    var r := Delete(id, k);
    if id != [] && k' != k {
      DeleteGet(id[1..], k, k');
      if HasKey(id, k') && FirstIndex(id, k') > 0 {
        assert FirstIndex(id[1..], k') == FirstIndex(id, k') - 1;
      }
      if id[0].key != k && HasKey(r, k') && FirstIndex(r, k') > 0 {
        assert FirstIndex(r[1..], k') == FirstIndex(r, k') - 1;
      }
    }
  }

  /** `delete id[k]` keeps the keys distinct. */
  lemma {:induction false} DeleteDistinct(id: Identification, k: string)
    requires DistinctKeys(id)
    ensures DistinctKeys(Delete(id, k))
  {
    if id != [] {
      DeleteDistinct(id[1..], k);
      var tail := Delete(id[1..], k);
      forall e | e in tail ensures e.key != id[0].key {
        var i :| 0 <= i < |id[1..]| && id[1..][i] == e;
        assert id[i + 1] == e;
      }
    }
  }

  /** How `identify` reads one update value: strings are kept, numbers are
      stringified, `null` is kept as `null`; anything else is unusable. */
  function Coerce(v: Value): (r: Option<Option<string>>)
    ensures r.Some? <==> (v.Str? || v.Num? || v.Null?)
    ensures v.Num? ==> r == Some(Some(IntToDecimal(v.n)))
  {
    match v
    case Str(s) => Some(Some(s))
    case Num(n) => Some(Some(IntToDecimal(n)))
    case Null => Some(None)
    case _ => None
  }

  /** One step of the `reduce` in `identify`. */
  function MergeOne(agg: Identification, update: (string, Value)): Identification {
    match Coerce(update.1)
    case None => agg
    case Some(v) => Put(agg, update.0, v)
  }

  /** The `reduce` in `identify`: updates applied in key order. */
  function Merge(base: Identification, updates: seq<(string, Value)>): Identification {
    if updates == [] then base
    else MergeOne(Merge(base, updates[..|updates| - 1]), updates[|updates| - 1])
  }

  /** The merge keeps the keys distinct. */
  lemma {:induction false} MergeDistinct(base: Identification, updates: seq<(string, Value)>)
    requires DistinctKeys(base)
    ensures DistinctKeys(Merge(base, updates))
  {
    if updates != [] {
      var last := updates[|updates| - 1];
      MergeDistinct(base, updates[..|updates| - 1]);
      if Coerce(last.1).Some? {
        PutDistinct(Merge(base, updates[..|updates| - 1]), last.0, Coerce(last.1).value);
      }
    }
  }

  /** `i` is the last update for key `k` whose value is usable. */
  predicate IsLastUsable(updates: seq<(string, Value)>, k: string, i: int) {
    0 <= i < |updates| && updates[i].0 == k && Coerce(updates[i].1).Some? &&
    forall j :: i < j < |updates| && updates[j].0 == k ==> Coerce(updates[j].1).None?
  }

  /** After a merge, a key holds the coerced value of its last usable update. */
  lemma {:induction false} MergeLastUsableWins(base: Identification, updates: seq<(string, Value)>, k: string, i: int)
    requires IsLastUsable(updates, k, i)
    ensures Get(Merge(base, updates), k) == Some(Coerce(updates[i].1).value)
  {
    var n := |updates|;
    var prefix := updates[..n - 1];
    var last := updates[n - 1];
    if i < n - 1 {
      assert IsLastUsable(prefix, k, i);
      MergeLastUsableWins(base, prefix, k, i);
      if Coerce(last.1).Some? {
        PutOther(Merge(base, prefix), last.0, Coerce(last.1).value, k);
      }
    } else {
      PutGet(Merge(base, prefix), k, Coerce(last.1).value);
    }
  }

  /** A key with no usable update keeps the value it had before the merge. */
  lemma {:induction false} MergeKeepsUntouched(base: Identification, updates: seq<(string, Value)>, k: string)
    requires forall j :: 0 <= j < |updates| && updates[j].0 == k ==> Coerce(updates[j].1).None?
    ensures Get(Merge(base, updates), k) == Get(base, k)
  {
    if updates != [] {
      var prefix := updates[..|updates| - 1];
      var last := updates[|updates| - 1];
      MergeKeepsUntouched(base, prefix, k);
      if Coerce(last.1).Some? {
        PutOther(Merge(base, prefix), last.0, Coerce(last.1).value, k);
      }
    }
  }

  /** The relations `Object.entries(identification)` yields: one pure
      linkage relation per held key, in key order. */
  function Relations(id: Identification): (rs: seq<Relation>)
    ensures |rs| == |id|
    ensures forall i :: 0 <= i < |id| ==> rs[i].key == id[i].key
    ensures forall r :: r in rs ==> r.setOnceProps.None? && r.setProps.None?
    ensures forall k :: HasKey(id, k) <==> exists r :: r in rs && r.key == k
    ensures forall k :: HasKey(id, k) ==> LinkRelation(k, Get(id, k).value) in rs
  {
    seq(|id|, i requires 0 <= i < |id| => LinkRelation(id[i].key, id[i].value))
  }

  /** Once `anonymous_id` is deleted, no relation links to it. */
  lemma {:induction false} NoAnonymousRelationAfterDelete(id: Identification)
    ensures forall r :: r in Relations(Delete(id, ANONYMOUS_ID)) ==> r.key != ANONYMOUS_ID
  {
    var d := Delete(id, ANONYMOUS_ID);
    forall r | r in Relations(d) ensures r.key != ANONYMOUS_ID {
      var i :| 0 <= i < |d| && Relations(d)[i] == r;
      assert d[i] in d;
    }
  }

  /** The identification `getIdentificationRelations` works with: the held
      one, or a fresh `{ anonymous_id }` when none is held. */
  function EnsureIdentification(held: Option<Identification>, freshId: string): (id: Identification)
    ensures held.Some? ==> id == held.value
    ensures held.None? ==> Get(id, ANONYMOUS_ID) == Some(Some(freshId))
    ensures held.None? ==> forall k :: k != ANONYMOUS_ID ==> !HasKey(id, k)
  {
    if held.Some? then held.value
    else
      var created := [IdEntry(ANONYMOUS_ID, Some(freshId))];
      assert created[0].key == ANONYMOUS_ID;
      created
  }
}
