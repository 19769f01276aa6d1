/**
 * The behaviour the map's test suite asserts, replayed on the model: each
 * method builds the same maps as one test case and proves what that case
 * asserts. Objects are values with instance tokens; `new stdClass` and
 * `new ArrayObject` are plain objects with tokens of their own.
 */
module HashMapScenarios {
  import opened Host
  import opened HashMaps

  /** The string "12345" is filed under the integer 12345. */
  lemma NumericStringKey()
    ensures KeyIdOf(Str("12345")) == IntKey(12345)
  {
    var s := "12345";
    assert s[..4] == "1234" && s[..4][..3] == "123" && s[..4][..3][..2] == "12" && s[..4][..3][..2][..1] == "1";
    assert IsCanonicalIntString(s);
    assert DigitsValue("1") == 1;
    assert DigitsValue("12") == 12;
    assert DigitsValue("123") == 123;
    assert DigitsValue("1234") == 1234;
    assert DigitsValue("12345") == 12345;
  }

  /** The word keys of the tests are filed as strings. */
  lemma WordKeys()
    ensures KeyIdOf(Str("foo")) == StrKey("foo")
    ensures KeyIdOf(Str("baz")) == StrKey("baz")
    ensures KeyIdOf(Str("bar")) == StrKey("bar")
  {
    assert !IsDigit('f') && !IsDigit('b');
  }

  /** Two pairs with different keys are put as two entries, in order. */
  lemma TwoFreshPuts(k1: Value, v1: Value, k2: Value, v2: Value)
    requires KeyIdOf(k1) != KeyIdOf(k2)
    ensures PutEntries([], FiledPairs([(k1, v1), (k2, v2)])) == [Filed(k1, v1), Filed(k2, v2)]
  {
    var a, b := Filed(k1, v1), Filed(k2, v2);
    var es := FiledPairs([(k1, v1), (k2, v2)]);
    assert es == [a, b];
    assert PutEntry([], a) == [a];
    assert IndexOf([a], b.id).None?;
    assert PutEntry([a], b) == [a, b];
    assert es[1..] == [b] && [b][1..] == [];
    assert PutEntries([a], [b]) == PutEntries([a, b], []);
  }

  /** The map createFromArray(['foo' => 'bar', 'baz' => 'lorem']) builds. */
  lemma FooBazEntries()
    ensures PutEntries([], FiledPairs([(Str("foo"), Str("bar")), (Str("baz"), Str("lorem"))])) ==
              [Entry(StrKey("foo"), Str("foo"), Str("bar")), Entry(StrKey("baz"), Str("baz"), Str("lorem"))]
  {
    WordKeys();
    TwoFreshPuts(Str("foo"), Str("bar"), Str("baz"), Str("lorem"));
  }

  /** A `new stdClass` or `new ArrayObject`: an object with no string form, told apart by its token. */
  function PlainInstance(id: nat): Value {
    Object(id, PlainObject(None))
  }

  method ArrayAccessScenario() {
    var m := new HashMap();
    m.Put(Str("foo"), Str("bar"));
    m.Put(Int(12345), Int(67890));
    NumericStringKey();
    assert m.ContainsKey(Str("12345")) && m.ContainsKey(Str("foo"));
    LookupAfterPut([Filed(Str("foo"), Str("bar"))], Filed(Int(12345), Int(67890)), StrKey("foo"));
    assert m.Get(Str("foo")) == Str("bar");
    var removed := m.Remove(Str("12345"));
    assert !m.ContainsKey(Str("12345"));
    assert m.Get(Str("foo")) == Str("bar");
    assert m.Size() == 1;
  }

  method ClearAndSizeScenario() {
    var m := new HashMap();
    m.Put(PlainInstance(1), PlainInstance(2));
    assert m.Size() == 1;
    m.Clear();
    assert m.Size() == 0 && m.IsEmpty();
  }

  method ContainsKeyScenario() {
    var stdClass := PlainInstance(1);
    var m := new HashMap();
    m.Put(stdClass, PlainInstance(2));
    assert m.ContainsKey(stdClass);
    assert !m.ContainsKey(PlainInstance(3));
  }

  method ContainsValueScenario() {
    var arrayObject := PlainInstance(2);
    var m := new HashMap();
    m.Put(PlainInstance(1), arrayObject);
    assert m.entries == [Filed(PlainInstance(1), arrayObject)];
    assert m.Values()[0] == arrayObject;
    assert m.ContainsValue(arrayObject);
    assert !m.ContainsValue(PlainInstance(3));
  }

  method CreateFromArrayScenario() {
    var m := HashMap.CreateFromArray([(Str("foo"), Str("bar")), (Str("baz"), Str("lorem"))]);
    FooBazEntries();
    WordKeys();
    assert m.Size() == 2;
    assert m.ContainsKey(Str("foo")) && m.ContainsKey(Str("baz"));
    assert !m.ContainsKey(Str("bar"));
  }

  method GetScenario() {
    var arrayObject := PlainInstance(2);
    var m := new HashMap();
    var stdClass := PlainInstance(1);
    m.Put(stdClass, arrayObject);
    assert m.Get(stdClass) == arrayObject;
    assert m.Get(PlainInstance(3)) == Null;
  }

  method IsEmptyScenario() {
    var m := new HashMap();
    assert m.IsEmpty();
    m.Put(Str("foo"), Str("bar"));
    assert !m.IsEmpty();
    m.Clear();
    assert m.IsEmpty();
  }

  method IterableScenario() {
    var m := HashMap.CreateFromArray([(Str("foo"), Str("bar")), (Str("baz"), Str("lorem"))]);
    FooBazEntries();
    var firstValue := m.Current();
    var visited := m.ForEach();
    assert visited[|visited| - 1] == (Str("baz"), Str("lorem"));
    assert m.Key() == Null;
    assert m.Current() == Bool(false);
    m.Rewind();
    assert m.Current() == firstValue;
  }

  method KeyScenario() {
    var m := new HashMap();
    assert m.Key() == Null;
    var stdClass := PlainInstance(1);
    m.Put(stdClass, List([Str("bar")]));
    assert m.Key() == stdClass;
  }

  method PutScenario() {
    var m := new HashMap();
    assert m.IsEmpty();
    m.Put(Str("foo"), Str("bar"));
    assert m.ContainsKey(Str("foo"));
    assert m.Get(Str("foo")) == Str("bar");
    var arrayKey := List([Str("foo"), List([Str("bar")])]);
    var stdClass := PlainInstance(1);
    ghost var before := m.entries;
    m.Put(arrayKey, stdClass);
    LookupAfterPut(before, Filed(arrayKey, stdClass), KeyIdOf(arrayKey));
    assert m.ContainsKey(arrayKey);
    assert m.Get(arrayKey) == stdClass;
  }

  method PutAllScenario() {
    var mapFoo := new HashMap();
    mapFoo.Put(Str("foo"), Str("bar"));
    assert mapFoo.Size() == 1;
    var other := new HashMap();
    other.Put(Str("baz"), Str("lorem"));
    mapFoo.PutAll(other);
    assert mapFoo.Size() == 2;
    assert mapFoo.Get(Str("baz")) == Str("lorem");
  }

  method RemoveScenario() {
    var m := new HashMap();
    m.Put(Str("foo"), Str("bar"));
    assert m.Size() == 1;
    var removed := m.Remove(Str("foo"));
    assert removed && m.Size() == 0;
  }

  /** `(string) v` for the StdString keys of the sort test; other values read as "". */
  function TextOf(v: Value): string {
    if IsStringLike(v) then StringOf(v) else ""
  }

  /** `$a <=> $b` on integers. */
  function Spaceship(a: int, b: int): int {
    if a < b then -1 else if a > b then 1 else 0
  }

  /** The sum of a two-integer list, as the value comparator of the sort test adds them. */
  function PairSum(v: Value): int {
    if v.List? && |v.elems| == 2 && v.elems[0].Int? && v.elems[1].Int? then v.elems[0].i + v.elems[1].i else 0
  }

  /** strcmp on the string forms, the key comparator of the sort test. */
  function ByText(a: Value, b: Value): int {
    StrCmp(TextOf(a), TextOf(b))
  }

  /** `$a1 + $a2 <=> $b1 + $b2`, the value comparator of the sort test. */
  function BySum(a: Value, b: Value): int {
    Spaceship(PairSum(a), PairSum(b))
  }

  /** Sorting three entries by hand: the third goes in first, then the second, then the first. */
  lemma SortThree(a: Entry, b: Entry, c: Entry, cmp: (Value, Value) -> int, byKey: bool)
    ensures SortEntries([a, b, c], cmp, byKey) == Insert(a, Insert(b, [c], cmp, byKey), cmp, byKey)
  {
    assert [a, b, c][1..] == [b, c] && [b, c][1..] == [c] && [c][1..] == [];
    assert SortEntries([c], cmp, byKey) == [c];
    assert SortEntries([b, c], cmp, byKey) == Insert(b, [c], cmp, byKey);
  }

  /** strcmp on the three keys of the sort test. */
  lemma TestKeysCompare()
    ensures StrCmp("BarFoo", "FooBaz") == -1 && StrCmp("FooBar", "BarFoo") == 1
    ensures StrCmp("FooBar", "FooBaz") == -1
  {
    assert "FooBar"[1..] == "ooBar" && "FooBaz"[1..] == "ooBaz";
    assert "ooBar"[1..] == "oBar" && "ooBaz"[1..] == "oBaz";
    assert "oBar"[1..] == "Bar" && "oBaz"[1..] == "Baz";
    assert "Bar"[1..] == "ar" && "Baz"[1..] == "az";
    assert "ar"[1..] == "r" && "az"[1..] == "z";
  }

  lemma KeySortOrder(fooBar: Entry, barFoo: Entry, fooBaz: Entry)
    requires TextOf(fooBar.key) == "FooBar" && TextOf(barFoo.key) == "BarFoo" && TextOf(fooBaz.key) == "FooBaz"
    ensures SortEntries([fooBar, barFoo, fooBaz], ByText, true) == [barFoo, fooBar, fooBaz]
  {
    SortThree(fooBar, barFoo, fooBaz, ByText, true);
    TestKeysCompare();
    assert Insert(barFoo, [fooBaz], ByText, true) == [barFoo, fooBaz];
    assert [barFoo, fooBaz][1..] == [fooBaz];
    assert Insert(fooBar, [fooBaz], ByText, true) == [fooBar, fooBaz];
  }

  lemma ValueSortOrder(fooBar: Entry, barFoo: Entry, fooBaz: Entry)
    requires PairSum(fooBar.value) == 579 && PairSum(barFoo.value) == 1245 && PairSum(fooBaz.value) == 912
    ensures SortEntries([fooBar, barFoo, fooBaz], BySum, false) == [fooBar, fooBaz, barFoo]
  {
    SortThree(fooBar, barFoo, fooBaz, BySum, false);
    assert Insert(barFoo, [fooBaz], BySum, false) == [fooBaz, barFoo] by {
      assert [fooBaz][1..] == [];
    }
  }

  /** The map of the sort test: three StdString keys, each with a pair of integers. */
  method SortTestMap() returns (hashMap: HashMap)
    ensures fresh(hashMap) && hashMap.Valid() && |hashMap.entries| == 3
    ensures TextOf(hashMap.entries[0].key) == "FooBar" && PairSum(hashMap.entries[0].value) == 579
    ensures TextOf(hashMap.entries[1].key) == "BarFoo" && PairSum(hashMap.entries[1].value) == 1245
    ensures TextOf(hashMap.entries[2].key) == "FooBaz" && PairSum(hashMap.entries[2].value) == 912
  {
    var fooBar, barFoo, fooBaz := Object(1, StdStringObject("FooBar")), Object(2, StdStringObject("BarFoo")), Object(3, StdStringObject("FooBaz"));
    var e1, e2, e3 := Entry(ObjectKey(1), fooBar, List([Int(123), Int(456)])),
                      Entry(ObjectKey(2), barFoo, List([Int(456), Int(789)])),
                      Entry(ObjectKey(3), fooBaz, List([Int(123), Int(789)]));
    assert PairSum(e1.value) == 579 && PairSum(e2.value) == 1245 && PairSum(e3.value) == 912;
    hashMap := new HashMap();
    hashMap.Put(fooBar, e1.value);
    assert hashMap.entries == [e1];
    hashMap.Put(barFoo, e2.value);
    assert IndexOf([e1], ObjectKey(2)).None?;
    assert hashMap.entries == [e1, e2];
    hashMap.Put(fooBaz, e3.value);
    assert IndexOf([e1, e2], ObjectKey(3)).None?;
    assert hashMap.entries == [e1, e2, e3];
  }

  /** The key half of the sort test: a clone sorted by key with strcmp, the original untouched. */
  method KeySortScenario() {
    var hashMap := SortTestMap();
    var original := hashMap.entries;
    assert original == [original[0], original[1], original[2]];
    var keySort := hashMap.Clone();
    keySort.Sort(ByText, true);
    KeySortOrder(original[0], original[1], original[2]);
    assert TextOf(keySort.Key()) == "BarFoo";
    keySort.Next();
    assert TextOf(keySort.Key()) == "FooBar";
    keySort.Next();
    assert TextOf(keySort.Key()) == "FooBaz";
    assert hashMap.entries == original;
  }

  /** The value half of the sort test: a clone sorted by the sum of the two integers, the original untouched. */
  method ValueSortScenario() {
    var hashMap := SortTestMap();
    var original := hashMap.entries;
    assert original == [original[0], original[1], original[2]];
    var valueSort := hashMap.Clone();
    valueSort.Sort(BySum, false);
    ValueSortOrder(original[0], original[1], original[2]);
    assert TextOf(valueSort.Key()) == "FooBar";
    valueSort.Next();
    assert TextOf(valueSort.Key()) == "FooBaz";
    valueSort.Next();
    assert TextOf(valueSort.Key()) == "BarFoo";
    assert hashMap.entries == original;
  }

  method ValuesScenario() {
    var m := new HashMap();
    m.Put(Str("foo"), Str("bar"));
    m.Put(Str("baz"), Str("lorem"));
    assert m.Values() == [Str("bar"), Str("lorem")];
  }
}
