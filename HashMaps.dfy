/**
 * The insertion-ordered hash map: entries kept in the order their keys were
 * first put, looked up by a key identity, walked by a single cursor.
 *
 * A key's identity files a canonical integer string as that integer (the
 * string "12345" and the integer 12345 are one key) and keeps every other
 * scalar as it is, compares lists by their contents, and compares objects
 * by instance. The map's state is its
 * ordered entries and its cursor; the functions over `seq<Entry>` below are
 * the specification the class's methods are proved against.
 */
module HashMaps {
  import opened Host

  /** The identity under which the map files a key. */
  datatype KeyId =
    | NullKey
    | BoolKey(b: bool)
    | IntKey(i: int)
    | FloatKey(whole: int, text: string)
    | StrKey(s: string)
    | ListKey(elems: seq<KeyId>)
    | ObjectKey(id: nat)

  /**
   * The identity of a key: a string written as a canonical integer is that
   * integer, a list is the list of its elements' identities, an object is
   * its instance token.
   */
  function KeyIdOf(k: Value): KeyId
  {
    match k
    case Null => NullKey
    case Bool(b) => BoolKey(b)
    case Int(i) => IntKey(i)
    case Float(whole, text) => FloatKey(whole, text)
    case Str(s) =>
      if IsCanonicalIntString(s) then IntKey(IntegerStringValue(s))
      else StrKey(s)
    case List(elems) => ListKey(seq(|elems|, i requires 0 <= i < |elems| => KeyIdOf(elems[i])))
    case Object(id, _) => ObjectKey(id)
  }

  /** Two keys the map files under the same entry. */
  predicate SameKey(a: Value, b: Value) {
    KeyIdOf(a) == KeyIdOf(b)
  }

  /** An integer and its decimal rendering are the same key. */
  lemma {:induction false} IntegerAndItsStringAreOneKey(i: int)
    ensures SameKey(Str(IntToString(i)), Int(i))
  {
    IntToStringRoundTrip(i);
  }

  /** Two different strings are two keys, even when one of them reads as an integer. */
  lemma {:induction false} DistinctStringsAreDistinctKeys(a: string, b: string)
    requires a != b
    ensures !SameKey(Str(a), Str(b))
  {
    if IsCanonicalIntString(a) && IsCanonicalIntString(b) {
      CanonicalIntStringRoundTrip(a);
      CanonicalIntStringRoundTrip(b);
    }
  }

  /** A string that is not a canonical integer is never the same key as an integer. */
  lemma {:induction false} NonCanonicalStringIsNotAnInteger(s: string, i: int)
    requires !IsCanonicalIntString(s)
    ensures !SameKey(Str(s), Int(i))
  {
  }

  /** Objects are the same key exactly when they are the same instance, whatever they hold. */
  lemma {:induction false} ObjectKeysByIdentity(a: Value, b: Value)
    requires a.Object? && b.Object?
    ensures SameKey(a, b) <==> a.id == b.id
  {
  }

  /** Lists are the same key exactly when they have the same length and elementwise the same keys. */
  lemma {:induction false} ListKeysByContents(a: seq<Value>, b: seq<Value>)
    ensures SameKey(List(a), List(b)) <==> |a| == |b| && forall i :: 0 <= i < |a| ==> SameKey(a[i], b[i])
  {
    var ka, kb := KeyIdOf(List(a)).elems, KeyIdOf(List(b)).elems;
    if |a| == |b| && forall i :: 0 <= i < |a| ==> SameKey(a[i], b[i]) {
      assert ka == kb;
    }
    if SameKey(List(a), List(b)) {
      assert |a| == |ka| == |kb| == |b|;
      forall i | 0 <= i < |a| ensures SameKey(a[i], b[i]) {
        assert ka[i] == kb[i];
      }
    }
  }

  // ---------------------------------------------------------------------------
  // The entries and the specification of each operation

  /**
   * An entry: the key as it was put, the identity it is filed under
   * (computed once, when the key is first put), and the value.
   */
  datatype Entry = Entry(id: KeyId, key: Value, value: Value)

  /** The entry `put(k, v)` files. */
  function Filed(k: Value, v: Value): (e: Entry)
    ensures e.id == KeyIdOf(k) && e.key == k && e.value == v
  {
    Entry(KeyIdOf(k), k, v)
  }

  /** The entries of an ordered key => value structure, each filed under its key's identity. */
  function FiledPairs(pairs: seq<(Value, Value)>): (es: seq<Entry>)
    ensures |es| == |pairs|
    ensures forall i :: 0 <= i < |pairs| ==> es[i] == Filed(pairs[i].0, pairs[i].1)
  {
    seq(|pairs|, i requires 0 <= i < |pairs| => Filed(pairs[i].0, pairs[i].1))
  }

  /** Every entry is filed under its own key's identity. */
  predicate WellFiled(es: seq<Entry>) {
    forall j :: 0 <= j < |es| ==> es[j].id == KeyIdOf(es[j].key)
  }

  /** No two entries are filed under one identity. */
  predicate DistinctKeys(es: seq<Entry>) {
    forall i, j :: 0 <= i < j < |es| ==> es[i].id != es[j].id
  }

  /** The position of the entry filed under `id`, if any. */
  function IndexOf(es: seq<Entry>, id: KeyId): (r: Option<nat>)
    ensures r.Some? ==> r.value < |es| && es[r.value].id == id
    ensures r.Some? ==> forall j :: 0 <= j < r.value ==> es[j].id != id
    ensures r.None? <==> forall j :: 0 <= j < |es| ==> es[j].id != id
  {
    if es == [] then None
    else if es[0].id == id then Some(0)
    else
      match IndexOf(es[1..], id)
      case None => None
      case Some(i) => Some(i + 1)
  }

  predicate Contains(es: seq<Entry>, id: KeyId) {
    IndexOf(es, id).Some?
  }

  /** The value filed under `id`, if any. */
  function Lookup(es: seq<Entry>, id: KeyId): (r: Option<Value>)
    ensures r.Some? <==> exists j :: 0 <= j < |es| && es[j].id == id
    ensures r.Some? ==> exists j :: 0 <= j < |es| && es[j].id == id && es[j].value == r.value
  {
    match IndexOf(es, id)
    case None => None
    case Some(i) => Some(es[i].value)
  }

  /**
   * The entries after putting `e`: an entry already filed under e's
   * identity keeps its place and its key and takes the new value; a new
   * identity goes last.
   */
  function PutEntry(es: seq<Entry>, e: Entry): seq<Entry>
  {
    match IndexOf(es, e.id)
    case Some(i) => es[i := es[i].(value := e.value)]
    case None => es + [e]
  }

  /** The entries after remove: the entry filed under `id` is cut out, the others keep their order. */
  function RemoveEntry(es: seq<Entry>, id: KeyId): seq<Entry>
  {
    match IndexOf(es, id)
    case Some(i) => es[..i] + es[i + 1..]
    case None => es
  }

  /** The entries after putting each new entry in turn. */
  function PutEntries(es: seq<Entry>, news: seq<Entry>): seq<Entry>
    decreases |news|
  {
    if news == [] then es else PutEntries(PutEntry(es, news[0]), news[1..])
  }

  function KeysOf(es: seq<Entry>): (r: seq<Value>)
    ensures |r| == |es| && forall i :: 0 <= i < |es| ==> r[i] == es[i].key
  {
    seq(|es|, i requires 0 <= i < |es| => es[i].key)
  }

  function ValuesOf(es: seq<Entry>): (r: seq<Value>)
    ensures |r| == |es| && forall i :: 0 <= i < |es| ==> r[i] == es[i].value
  {
    seq(|es|, i requires 0 <= i < |es| => es[i].value)
  }

  /** The first entry filed under `id` decides IndexOf. */
  lemma {:induction false} IndexOfAt(es: seq<Entry>, id: KeyId, p: nat)
    requires p < |es| && es[p].id == id
    requires forall j :: 0 <= j < p ==> es[j].id != id
    ensures IndexOf(es, id) == Some(p)
  {
    assert IndexOf(es, id).Some?;
  }

  /** Putting under a present identity moves no identity: every IndexOf is as it was. */
  lemma {:induction false} IndexAfterOverwrite(es: seq<Entry>, e: Entry, i: nat, id: KeyId)
    requires IndexOf(es, e.id) == Some(i)
    ensures PutEntry(es, e) == es[i := es[i].(value := e.value)]
    ensures IndexOf(PutEntry(es, e), id) == IndexOf(es, id)
  {
    var r := es[i := es[i].(value := e.value)];
    assert forall j :: 0 <= j < |r| ==> r[j].id == es[j].id;
    IndexOfSameIds(es, r, id);
  }

  /** IndexOf looks only at identities: two sequences with the same identities, position by position, agree on it. */
  lemma {:induction false} IndexOfSameIds(a: seq<Entry>, b: seq<Entry>, id: KeyId)
    requires |a| == |b| && forall j :: 0 <= j < |a| ==> a[j].id == b[j].id
    ensures IndexOf(b, id) == IndexOf(a, id)
  {
    if IndexOf(a, id).Some? {
      IndexOfAt(b, id, IndexOf(a, id).value);
    }
  }

  /** Putting under a new identity adds it last and moves no other identity. */
  lemma {:induction false} IndexAfterAppend(es: seq<Entry>, e: Entry, id: KeyId)
    requires IndexOf(es, e.id).None?
    ensures PutEntry(es, e) == es + [e]
    ensures IndexOf(PutEntry(es, e), id) == if id == e.id then Some(|es|) else IndexOf(es, id)
  {
    IndexOfAppended(es, e, id);
  }

  /** Appending an entry whose identity is new: that identity is found last, every other as before. */
  lemma {:induction false} IndexOfAppended(es: seq<Entry>, e: Entry, id: KeyId)
    requires IndexOf(es, e.id).None?
    ensures IndexOf(es + [e], id) == if id == e.id then Some(|es|) else IndexOf(es, id)
  {
    if es != [] {
      assert (es + [e])[0] == es[0];
      assert (es + [e])[1..] == es[1..] + [e];
      if es[0].id != id {
        IndexOfAppended(es[1..], e, id);
      }
    }
  }

  /** After putting `e`, its identity gives its value and every other identity gives what it gave before. */
  lemma {:induction false} LookupAfterPut(es: seq<Entry>, e: Entry, id: KeyId)
    ensures Lookup(PutEntry(es, e), id) == if id == e.id then Some(e.value) else Lookup(es, id)
  {
    match IndexOf(es, e.id)
    case Some(i) =>
      IndexAfterOverwrite(es, e, i, id);
    case None =>
      IndexAfterAppend(es, e, id);
  }

  /**
   * put keeps the key order: a present key changes nothing in it, a new key
   * is appended; the other entries stay as they were.
   */
  lemma {:induction false} KeysAfterPut(es: seq<Entry>, e: Entry)
    ensures KeysOf(PutEntry(es, e)) == if Contains(es, e.id) then KeysOf(es) else KeysOf(es) + [e.key]
    ensures |PutEntry(es, e)| == |es| + (if Contains(es, e.id) then 0 else 1)
    ensures forall j :: 0 <= j < |es| && es[j].id != e.id ==> PutEntry(es, e)[j] == es[j]
  {
    var r := PutEntry(es, e);
    if Contains(es, e.id) {
      assert KeysOf(r) == KeysOf(es);
    } else {
      assert KeysOf(r) == KeysOf(es) + [e.key];
    }
  }

  /** put never files two entries under one identity, and files each under its key's identity. */
  lemma {:induction false} PutKeepsDistinct(es: seq<Entry>, e: Entry)
    requires DistinctKeys(es) && WellFiled(es) && e.id == KeyIdOf(e.key)
    ensures DistinctKeys(PutEntry(es, e)) && WellFiled(PutEntry(es, e))
  {
    var r := PutEntry(es, e);
    KeysAfterPut(es, e);
    assert forall j :: 0 <= j < |es| ==> r[j].id == es[j].id && r[j].key == es[j].key;
  }

  /** Cutting out entry `i` keeps the others in order, distinct and well filed. */
  lemma {:induction false} CutKeepsEntries(es: seq<Entry>, i: nat)
    requires i < |es|
    ensures |es[..i] + es[i + 1..]| == |es| - 1
    ensures forall j :: 0 <= j < i ==> (es[..i] + es[i + 1..])[j] == es[j]
    ensures forall j :: i < j < |es| ==> (es[..i] + es[i + 1..])[j - 1] == es[j]
    ensures DistinctKeys(es) ==> DistinctKeys(es[..i] + es[i + 1..])
    ensures WellFiled(es) ==> WellFiled(es[..i] + es[i + 1..])
  {
    var r := es[..i] + es[i + 1..];
    assert forall j :: 0 <= j < i ==> r[j] == es[j];
    assert forall j :: i <= j < |r| ==> r[j] == es[j + 1];
    if DistinctKeys(es) {
      forall a, b | 0 <= a < b < |r| ensures r[a].id != r[b].id {
        var a', b' := if a < i then a else a + 1, if b < i then b else b + 1;
        assert r[a] == es[a'] && r[b] == es[b'];
      }
    }
  }

  /** Cutting out entry `i` removes its identity and shifts every later identity down by one. */
  lemma {:induction false} IndexAfterCut(es: seq<Entry>, i: nat, r: seq<Entry>, other: KeyId)
    requires DistinctKeys(es) && i < |es| && |r| == |es| - 1
    requires forall j :: 0 <= j < i ==> r[j] == es[j]
    requires forall j :: i < j < |es| ==> r[j - 1] == es[j]
    ensures other == es[i].id ==> IndexOf(r, other).None?
    ensures IndexOf(es, other).None? ==> IndexOf(r, other).None?
    ensures IndexOf(es, other).Some? && IndexOf(es, other).value < i ==> IndexOf(r, other) == IndexOf(es, other)
    ensures IndexOf(es, other).Some? && IndexOf(es, other).value > i ==> IndexOf(r, other) == Some(IndexOf(es, other).value - 1)
  {
    if IndexOf(es, other).Some? {
      var p := IndexOf(es, other).value;
      if p < i {
        IndexOfAt(r, other, p);
      } else if p > i {
        forall j | 0 <= j < p - 1 ensures r[j].id != other {
          if j >= i {
            assert r[j] == es[j + 1];
          }
        }
        IndexOfAt(r, other, p - 1);
      }
    } else {
      forall j | 0 <= j < |r| ensures r[j].id != other {
        if j >= i {
          assert r[j] == es[j + 1];
        }
      }
    }
    if other == es[i].id {
      forall j | 0 <= j < |r| ensures r[j].id != other {
        if j >= i {
          assert r[j] == es[j + 1];
        }
      }
    }
  }

  /**
   * Removing `id` cuts out one entry exactly when `id` was present, and
   * keeps the entries distinct and well filed.
   */
  lemma {:induction false} RemoveKeepsDistinct(es: seq<Entry>, id: KeyId)
    requires DistinctKeys(es)
    ensures |RemoveEntry(es, id)| == |es| - (if Contains(es, id) then 1 else 0)
    ensures DistinctKeys(RemoveEntry(es, id))
    ensures WellFiled(es) ==> WellFiled(RemoveEntry(es, id))
  {
    if IndexOf(es, id).Some? {
      CutKeepsEntries(es, IndexOf(es, id).value);
    }
  }

  /** After removing `id`, it is gone and every other identity gives what it gave before. */
  lemma {:induction false} LookupAfterRemove(es: seq<Entry>, id: KeyId, other: KeyId)
    requires DistinctKeys(es)
    ensures Lookup(RemoveEntry(es, id), other) == if other == id then None else Lookup(es, other)
  {
    match IndexOf(es, id)
    case None =>
    case Some(i) =>
      CutKeepsEntries(es, i);
      LookupAfterCut(es, i, es[..i] + es[i + 1..], other);
  }

  /** After cutting out entry `i`, its identity is gone and every other identity gives what it gave before. */
  lemma {:induction false} LookupAfterCut(es: seq<Entry>, i: nat, r: seq<Entry>, other: KeyId)
    requires DistinctKeys(es) && i < |es| && |r| == |es| - 1
    requires forall j :: 0 <= j < i ==> r[j] == es[j]
    requires forall j :: i < j < |es| ==> r[j - 1] == es[j]
    ensures Lookup(r, other) == if other == es[i].id then None else Lookup(es, other)
  {
    IndexAfterCut(es, i, r, other);
    if other != es[i].id && IndexOf(es, other).Some? {
      var p := IndexOf(es, other).value;
      if p < i {
        assert r[p] == es[p];
      } else {
        assert r[p - 1] == es[p];
      }
    }
  }

  /** The identities that are contained after a run of puts: the earlier ones and the new ones. */
  lemma {:induction false} ContainsAfterPuts(es: seq<Entry>, news: seq<Entry>, id: KeyId)
    ensures Contains(PutEntries(es, news), id) <==> Contains(es, id) || exists i :: 0 <= i < |news| && news[i].id == id
    decreases |news|
  {
    if news != [] {
      ContainsAfterPuts(PutEntry(es, news[0]), news[1..], id);
      LookupAfterPut(es, news[0], id);
      assert forall i :: 0 < i < |news| ==> news[i] == news[1..][i - 1];
    }
  }

  /** A run of puts that never names `id` leaves its lookup as it was. */
  lemma {:induction false} LookupUntouchedByPuts(es: seq<Entry>, news: seq<Entry>, id: KeyId)
    requires forall j :: 0 <= j < |news| ==> news[j].id != id
    ensures Lookup(PutEntries(es, news), id) == Lookup(es, id)
    decreases |news|
  {
    if news != [] {
      LookupAfterPut(es, news[0], id);
      LookupUntouchedByPuts(PutEntry(es, news[0]), news[1..], id);
    }
  }

  /** After a run of puts, an identity put in the run gives the value of its last put. */
  lemma {:induction false} LookupAfterPuts(es: seq<Entry>, news: seq<Entry>, id: KeyId, last: nat)
    requires last < |news| && news[last].id == id
    requires forall j :: last < j < |news| ==> news[j].id != id
    ensures Lookup(PutEntries(es, news), id) == Some(news[last].value)
    decreases |news|
  {
    var next := PutEntry(es, news[0]);
    if last == 0 {
      LookupAfterPut(es, news[0], id);
      LookupUntouchedByPuts(next, news[1..], id);
    } else {
      LookupAfterPuts(next, news[1..], id, last - 1);
    }
  }

  /** Putting entries whose identities are new and pairwise distinct appends them in order. */
  lemma {:induction false} PutFreshEntries(es: seq<Entry>, news: seq<Entry>)
    requires DistinctKeys(es + news)
    ensures PutEntries(es, news) == es + news
    decreases |news|
  {
    if news != [] {
      var all := es + news;
      forall j | 0 <= j < |es| ensures es[j].id != news[0].id {
        assert all[j] == es[j] && all[|es|] == news[0];
      }
      assert PutEntry(es, news[0]) == es + [news[0]];
      assert es + [news[0]] + news[1..] == all;
      PutFreshEntries(es + [news[0]], news[1..]);
    }
  }

  /**
   * A map built from pairs with distinct keys lists exactly their keys and
   * values, in their order: createFromArray(m).values() is the values of m.
   */
  lemma {:induction false} ValuesOfFreshPuts(pairs: seq<(Value, Value)>)
    requires DistinctKeys(FiledPairs(pairs))
    ensures |PutEntries([], FiledPairs(pairs))| == |pairs|
    ensures forall i :: 0 <= i < |pairs| ==>
              KeysOf(PutEntries([], FiledPairs(pairs)))[i] == pairs[i].0 &&
              ValuesOf(PutEntries([], FiledPairs(pairs)))[i] == pairs[i].1
  {
    assert [] + FiledPairs(pairs) == FiledPairs(pairs);
    PutFreshEntries([], FiledPairs(pairs));
  }

  // ---------------------------------------------------------------------------
  // Sorting

  /** The comparator applied to two entries: to their keys, or to their values. */
  function CompareEntries(cmp: (Value, Value) -> int, byKey: bool, a: Entry, b: Entry): int
  {
    if byKey then cmp(a.key, b.key) else cmp(a.value, b.value)
  }

  /** Of any two values, at least one is not above the other. */
  ghost predicate Total(cmp: (Value, Value) -> int) {
    forall a, b :: cmp(a, b) <= 0 || cmp(b, a) <= 0
  }

  predicate Sorted(es: seq<Entry>, cmp: (Value, Value) -> int, byKey: bool) {
    forall i :: 0 < i < |es| ==> CompareEntries(cmp, byKey, es[i - 1], es[i]) <= 0
  }

  /** `e` placed before the first entry it is not above. */
  function Insert(e: Entry, es: seq<Entry>, cmp: (Value, Value) -> int, byKey: bool): seq<Entry>
  {
    if es == [] then [e]
    else if CompareEntries(cmp, byKey, e, es[0]) <= 0 then [e] + es
    else [es[0]] + Insert(e, es[1..], cmp, byKey)
  }

  /** The entries after sort(cmp, byKey): an insertion sort, which keeps equal entries in their order. */
  function SortEntries(es: seq<Entry>, cmp: (Value, Value) -> int, byKey: bool): seq<Entry>
  {
    if es == [] then [] else Insert(es[0], SortEntries(es[1..], cmp, byKey), cmp, byKey)
  }

  /** Looking up in a sequence that starts with `x`: `x` first, then the rest. */
  lemma {:induction false} LookupCons(x: Entry, t: seq<Entry>, id: KeyId)
    ensures Contains([x] + t, id) <==> x.id == id || Contains(t, id)
    ensures Lookup([x] + t, id) == if x.id == id then Some(x.value) else Lookup(t, id)
  {
    var s := [x] + t;
    assert s[0] == x && s[1..] == t;
    assert IndexOf(s, id) == if x.id == id then Some(0) else match IndexOf(t, id) case None => None case Some(i) => Some(i + 1);
  }

  /** A sequence that starts with `x` has distinct identities when the rest does and does not hold x's. */
  lemma {:induction false} DistinctCons(x: Entry, t: seq<Entry>)
    ensures DistinctKeys([x] + t) <==> DistinctKeys(t) && !Contains(t, x.id)
    ensures WellFiled([x] + t) <==> x.id == KeyIdOf(x.key) && WellFiled(t)
  {
    var s := [x] + t;
    assert s[0] == x;
    assert forall j :: 0 <= j < |t| ==> t[j] == s[j + 1];
    if DistinctKeys(t) && !Contains(t, x.id) {
      forall a, b | 0 <= a < b < |s| ensures s[a].id != s[b].id {
        assert s[b] == t[b - 1];
        if a > 0 {
          assert s[a] == t[a - 1];
        }
      }
    }
    if DistinctKeys(s) {
      forall j | 0 <= j < |t| ensures t[j].id != x.id {
        assert s[j + 1] == t[j];
      }
      forall a, b | 0 <= a < b < |t| ensures t[a].id != t[b].id {
        assert s[a + 1] == t[a] && s[b + 1] == t[b];
      }
    }
    if x.id == KeyIdOf(x.key) && WellFiled(t) {
      forall j | 0 <= j < |s| ensures s[j].id == KeyIdOf(s[j].key) {
        if j > 0 {
          assert s[j] == t[j - 1];
        }
      }
    }
  }

  lemma {:induction false} InsertPermutation(e: Entry, es: seq<Entry>, cmp: (Value, Value) -> int, byKey: bool)
    ensures multiset(Insert(e, es, cmp, byKey)) == multiset(es) + multiset{e}
    ensures |Insert(e, es, cmp, byKey)| == |es| + 1
  {
    if es != [] && CompareEntries(cmp, byKey, e, es[0]) > 0 {
      InsertPermutation(e, es[1..], cmp, byKey);
      assert es == [es[0]] + es[1..];
    }
  }

  /** Insert starts with the inserted entry or with the first entry it was inserted into. */
  lemma {:induction false} InsertHead(e: Entry, es: seq<Entry>, cmp: (Value, Value) -> int, byKey: bool)
    ensures Insert(e, es, cmp, byKey) != []
    ensures Insert(e, es, cmp, byKey)[0] == (if es != [] && CompareEntries(cmp, byKey, e, es[0]) > 0 then es[0] else e)
  {
  }

  /** A sequence that starts with `x` is sorted exactly when the rest is and `x` is not above its first entry. */
  lemma {:induction false} SortedCons(x: Entry, t: seq<Entry>, cmp: (Value, Value) -> int, byKey: bool)
    ensures Sorted([x] + t, cmp, byKey) <==> Sorted(t, cmp, byKey) && (t == [] || CompareEntries(cmp, byKey, x, t[0]) <= 0)
  {
    var s := [x] + t;
    assert s[0] == x;
    assert forall i :: 0 <= i < |t| ==> s[i + 1] == t[i];
    if Sorted(s, cmp, byKey) {
      forall i | 0 < i < |t| ensures CompareEntries(cmp, byKey, t[i - 1], t[i]) <= 0 {
        assert s[i] == t[i - 1] && s[i + 1] == t[i];
      }
    }
  }

  lemma {:induction false} InsertSorted(e: Entry, es: seq<Entry>, cmp: (Value, Value) -> int, byKey: bool)
    requires Total(cmp) && Sorted(es, cmp, byKey)
    ensures Sorted(Insert(e, es, cmp, byKey), cmp, byKey)
  {
    if es == [] {
      assert Sorted([e], cmp, byKey);
    } else if CompareEntries(cmp, byKey, e, es[0]) <= 0 {
      SortedCons(e, es, cmp, byKey);
    } else {
      var rest := es[1..];
      assert es == [es[0]] + rest;
      SortedCons(es[0], rest, cmp, byKey);
      var t := Insert(e, rest, cmp, byKey);
      InsertSorted(e, rest, cmp, byKey);
      InsertHead(e, rest, cmp, byKey);
      assert CompareEntries(cmp, byKey, es[0], e) <= 0;
      SortedCons(es[0], t, cmp, byKey);
    }
  }

  lemma {:induction false} InsertLookup(e: Entry, es: seq<Entry>, cmp: (Value, Value) -> int, byKey: bool, id: KeyId)
    ensures Contains(Insert(e, es, cmp, byKey), id) <==> e.id == id || Contains(es, id)
    ensures DistinctKeys(es) && !Contains(es, e.id) ==>
              Lookup(Insert(e, es, cmp, byKey), id) == if e.id == id then Some(e.value) else Lookup(es, id)
  {
    if es == [] {
      LookupCons(e, [], id);
    } else if CompareEntries(cmp, byKey, e, es[0]) <= 0 {
      LookupCons(e, es, id);
    } else {
      var t := Insert(e, es[1..], cmp, byKey);
      InsertLookup(e, es[1..], cmp, byKey, id);
      LookupCons(es[0], t, id);
      LookupCons(es[0], es[1..], id);
      LookupCons(es[0], es[1..], e.id);
      assert es == [es[0]] + es[1..];
      DistinctCons(es[0], es[1..]);
    }
  }

  lemma {:induction false} InsertDistinct(e: Entry, es: seq<Entry>, cmp: (Value, Value) -> int, byKey: bool)
    requires DistinctKeys(es) && !Contains(es, e.id)
    ensures DistinctKeys(Insert(e, es, cmp, byKey))
  {
    if es == [] {
      DistinctCons(e, []);
    } else if CompareEntries(cmp, byKey, e, es[0]) <= 0 {
      DistinctCons(e, es);
    } else {
      var t := Insert(e, es[1..], cmp, byKey);
      assert es == [es[0]] + es[1..];
      DistinctCons(es[0], es[1..]);
      LookupCons(es[0], es[1..], e.id);
      InsertDistinct(e, es[1..], cmp, byKey);
      InsertLookup(e, es[1..], cmp, byKey, es[0].id);
      DistinctCons(es[0], t);
    }
  }

  /**
   * sort(cmp, byKey) rearranges the entries: the same entries, and in
   * order when the comparator is total.
   */
  lemma {:induction false} SortPermutes(es: seq<Entry>, cmp: (Value, Value) -> int, byKey: bool)
    ensures multiset(SortEntries(es, cmp, byKey)) == multiset(es)
    ensures |SortEntries(es, cmp, byKey)| == |es|
    ensures Total(cmp) ==> Sorted(SortEntries(es, cmp, byKey), cmp, byKey)
  {
    if es != [] {
      var rest := SortEntries(es[1..], cmp, byKey);
      SortPermutes(es[1..], cmp, byKey);
      InsertPermutation(es[0], rest, cmp, byKey);
      if Total(cmp) {
        InsertSorted(es[0], rest, cmp, byKey);
      }
      assert es == [es[0]] + es[1..];
    }
  }

  /** Sorting keeps the contained identities; with distinct identities it keeps them distinct and every lookup as it was. */
  lemma {:induction false} SortKeepsLookups(es: seq<Entry>, cmp: (Value, Value) -> int, byKey: bool, id: KeyId)
    ensures Contains(SortEntries(es, cmp, byKey), id) <==> Contains(es, id)
    ensures DistinctKeys(es) ==>
              DistinctKeys(SortEntries(es, cmp, byKey)) && Lookup(SortEntries(es, cmp, byKey), id) == Lookup(es, id)
  {
    if es != [] {
      var rest := SortEntries(es[1..], cmp, byKey);
      SortKeepsLookups(es[1..], cmp, byKey, id);
      SortKeepsLookups(es[1..], cmp, byKey, es[0].id);
      InsertLookup(es[0], rest, cmp, byKey, id);
      assert es == [es[0]] + es[1..];
      LookupCons(es[0], es[1..], id);
      if DistinctKeys(es) {
        DistinctCons(es[0], es[1..]);
        InsertDistinct(es[0], rest, cmp, byKey);
      }
    }
  }

  /** Every entry of a sequence is filed under its key's identity exactly when each entry, as a member, is. */
  lemma {:induction false} WellFiledByMembers(es: seq<Entry>)
    ensures WellFiled(es) <==> forall e :: e in multiset(es) ==> e.id == KeyIdOf(e.key)
  {
    if WellFiled(es) {
      forall e | e in multiset(es) ensures e.id == KeyIdOf(e.key) {
        assert e in es;
      }
    }
    if forall e :: e in multiset(es) ==> e.id == KeyIdOf(e.key) {
      forall j | 0 <= j < |es| ensures es[j].id == KeyIdOf(es[j].key) {
        assert es[j] in multiset(es);
      }
    }
  }

  // ---------------------------------------------------------------------------
  // The map object

  class HashMap {
    var entries: seq<Entry>
    var cursor: nat

    /**
     * Each entry filed under its key's identity, no identity twice, and the
     * cursor on an entry or just past the last one.
     */
    predicate Valid()
      reads this
    {
      WellFiled(entries) && DistinctKeys(entries) && cursor <= |entries|
    }

    constructor()
      ensures Valid() && entries == [] && cursor == 0
    {
      entries := [];
      cursor := 0;
    }

    /** createFromArray(pairs): a new map holding the pairs, put in order. */
    static method CreateFromArray(pairs: seq<(Value, Value)>) returns (m: HashMap)
      ensures fresh(m) && m.Valid()
      ensures m.entries == PutEntries([], FiledPairs(pairs)) && m.cursor == 0
    {
      m := new HashMap();
      var news := FiledPairs(pairs);
      for i := 0 to |pairs|
        invariant m.Valid() && m.cursor == 0
        invariant PutEntries(m.entries, news[i..]) == PutEntries([], news)
      {
        assert news[i..][1..] == news[i + 1..];
        m.Put(pairs[i].0, pairs[i].1);
      }
    }

    /** put(key, value), also `$map[key] = value`. */
    method Put(k: Value, v: Value)
      requires Valid()
      modifies this
      ensures Valid()
      ensures entries == PutEntry(old(entries), Filed(k, v)) && cursor == old(cursor)
    {
      PutKeepsDistinct(entries, Filed(k, v));
      KeysAfterPut(entries, Filed(k, v));
      entries := PutEntry(entries, Filed(k, v));
    }

    /** get(key), also `$map[key]`: the value filed under the key's identity, or null. */
    function Get(k: Value): (r: Value)
      reads this
      ensures !ContainsKey(k) ==> r == Null
      ensures ContainsKey(k) ==> exists j :: 0 <= j < |entries| && entries[j].id == KeyIdOf(k) && entries[j].value == r
    {
      match Lookup(entries, KeyIdOf(k))
      case None => Null
      case Some(v) => v
    }

    /** containsKey(key), also `isset($map[key])`: some entry is filed under the key's identity. */
    function ContainsKey(k: Value): (r: bool)
      reads this
      ensures r <==> exists j :: 0 <= j < |entries| && entries[j].id == KeyIdOf(k)
    {
      Contains(entries, KeyIdOf(k))
    }

    /** containsValue(value): some entry holds this very value (for an object, this instance). */
    function ContainsValue(v: Value): (r: bool)
      reads this
      ensures r <==> exists j :: 0 <= j < |entries| && entries[j].value == v
    {
      v in ValuesOf(entries)
    }

    /** size(), also count($map). */
    function Size(): (r: nat)
      reads this
      ensures r == |entries|
    {
      |entries|
    }

    function IsEmpty(): (r: bool)
      reads this
      ensures r <==> Size() == 0
    {
      entries == []
    }

    /** values(): the values in entry order. */
    function Values(): (r: seq<Value>)
      reads this
      ensures |r| == |entries| && forall i :: 0 <= i < |entries| ==> r[i] == entries[i].value
    {
      ValuesOf(entries)
    }

    /** key(): the key under the cursor; null once the cursor is past the last entry. */
    function Key(): (r: Value)
      reads this
      ensures cursor < |entries| ==> r == entries[cursor].key
      ensures cursor >= |entries| ==> r == Null
    {
      if cursor < |entries| then entries[cursor].key else Null
    }

    /** current(): the value under the cursor; false once the cursor is past the last entry. */
    function Current(): (r: Value)
      reads this
      ensures cursor < |entries| ==> r == entries[cursor].value
      ensures cursor >= |entries| ==> r == Bool(false)
    {
      if cursor < |entries| then entries[cursor].value else Bool(false)
    }

    /** valid(): the cursor is on an entry. */
    function HasCurrent(): (r: bool)
      reads this
      ensures r <==> cursor < |entries|
    {
      cursor < |entries|
    }

    /** next(): one entry on, staying past the end once there. */
    method Next()
      requires Valid()
      modifies this`cursor
      ensures Valid()
      ensures cursor == if old(cursor) < |entries| then old(cursor) + 1 else old(cursor)
    {
      if cursor < |entries| {
        cursor := cursor + 1;
      }
    }

    /** rewind(): back to the first entry. */
    method Rewind()
      requires Valid()
      modifies this`cursor
      ensures Valid() && cursor == 0
    {
      cursor := 0;
    }

    /** clear(): no entries left, and the cursor back at the start. */
    method Clear()
      modifies this
      ensures Valid() && entries == [] && cursor == 0
    {
      entries := [];
      cursor := 0;
    }

    /**
     * remove(key), also `unset($map[key])`: the entry is cut out and the
     * rest keep their order; the cursor stays on the entry it was on, or
     * moves on to the next one when that entry was the one removed.
     */
    method Remove(k: Value) returns (removed: bool)
      requires Valid()
      modifies this
      ensures Valid()
      ensures removed == Contains(old(entries), KeyIdOf(k))
      ensures entries == RemoveEntry(old(entries), KeyIdOf(k))
      ensures cursor == match IndexOf(old(entries), KeyIdOf(k))
                        case Some(i) => if i < old(cursor) then old(cursor) - 1 else old(cursor)
                        case None => old(cursor)
    {
      RemoveKeepsDistinct(entries, KeyIdOf(k));
      match IndexOf(entries, KeyIdOf(k))
      case None =>
        removed := false;
      case Some(i) =>
        removed := true;
        if i < cursor {
          cursor := cursor - 1;
        }
        entries := entries[..i] + entries[i + 1..];
    }

    /**
     * sort(cmp, byKey): the entries rearranged by comparing keys (byKey) or
     * values, and the cursor back at the first entry.
     */
    method Sort(cmp: (Value, Value) -> int, byKey: bool)
      requires Valid()
      modifies this
      ensures Valid()
      ensures entries == SortEntries(old(entries), cmp, byKey) && cursor == 0
    {
      SortPermutes(entries, cmp, byKey);
      SortKeepsLookups(entries, cmp, byKey, NullKey);
      WellFiledByMembers(entries);
      WellFiledByMembers(SortEntries(entries, cmp, byKey));
      entries := SortEntries(entries, cmp, byKey);
      cursor := 0;
    }

    /** putAll(other): each entry of the other map put into this one, in order. */
    method PutAll(other: HashMap)
      requires Valid() && other.Valid()
      modifies this
      ensures Valid()
      ensures entries == PutEntries(old(entries), old(other.entries)) && cursor == old(cursor)
    {
      var news := other.entries;
      for i := 0 to |news|
        invariant Valid() && cursor == old(cursor)
        invariant PutEntries(entries, news[i..]) == PutEntries(old(entries), news)
      {
        assert news[i..][1..] == news[i + 1..];
        assert Filed(news[i].key, news[i].value) == news[i];
        Put(news[i].key, news[i].value);
      }
    }

    /** `clone $map`: a new map with the same entries and cursor, sharing no state with this one. */
    method Clone() returns (c: HashMap)
      requires Valid()
      ensures fresh(c) && c.Valid()
      ensures c.entries == entries && c.cursor == cursor
    {
      c := new HashMap();
      c.entries := entries;
      c.cursor := cursor;
    }

    /**
     * `foreach ($map as $key => $value)`: rewinds, visits every entry in
     * order through the map's own cursor, and leaves that cursor past the end.
     */
    method ForEach() returns (visited: seq<(Value, Value)>)
      requires Valid()
      modifies this`cursor
      ensures Valid() && cursor == |entries|
      ensures |visited| == |entries|
      ensures forall i :: 0 <= i < |entries| ==> visited[i] == (entries[i].key, entries[i].value)
    {
      Rewind();
      visited := [];
      while HasCurrent()
        invariant Valid()
        invariant |visited| == cursor
        invariant forall i :: 0 <= i < cursor ==> visited[i] == (entries[i].key, entries[i].value)
        decreases |entries| - cursor
      {
        visited := visited + [(Key(), Current())];
        Next();
      }
    }
  }
}
