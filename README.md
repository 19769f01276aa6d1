# voku/stdlib string, character and hash-map core in Dafny

This project models three parts of the `BlackBonjour\Stdlib` PHP library and proves properties of each.

- **`StdString`** (`StdStrings.dfy`) is the string object. The model covers:
  - construction from a string, a `StdString` or a `Character[]`;
  - `charAt` and the `ArrayAccess` trio `offsetExists`, `offsetGet` and `offsetSet`;
  - `substr`, `substring`, `getChars`, `subSequence` and `toCharArray`;
  - `regionMatches`, `startsWith`, `endsWith`, `contentEquals`, `compareTo` and `valueOf`.

  The object's only state is its data. Queries are functions of that data. `offsetSet` is a method on the class `StdString` that splices a value into the data in place. `getChars` copies into a by-reference PHP array; it is a method with a loop over a `map<int, Character>` that stands for that array.
- **`Character`** (`Characters.dfy`) is a value holding at most one character, with static helpers that check their arguments:
  - `handleIncomingChar`, `charCount`, `codePointAt` and `codePointBefore`;
  - `compare`, `compareTo` and `valueOf`.

  Each helper is a total function. A raised exception is an `Err` result.
- **`HashMap`** (`HashMaps.dfy`) is the insertion-ordered map whose behaviour `test/Util/HashMapTest.php` fixes. It is a class with two fields:
  - `entries`, an ordered sequence;
  - `cursor`, the single iteration cursor.

  Keys are host values. Their identity `KeyIdOf` works as follows:
  - A canonical integer string is the integer it denotes, so `'12345'` and `12345` are one key.
  - A list is compared by the identities of its elements.
  - An object is compared by its instance token.

  Each entry stores the identity it is filed under. The functions `PutEntry`, `RemoveEntry`, `PutEntries` and `SortEntries` over `seq<Entry>` specify the methods, and the lemmas about those functions carry the properties. `HashMapScenarios.dfy` replays every test case of the map on the model and proves its assertions.

`Host.dfy` holds the host-language pieces the library uses:
- dynamically typed values;
- `is_numeric` and the `(int)` cast;
- integer rendering;
- `strcmp` as the lexicographic order of code points. UTF-8 preserves code point order, so this is the byte order;
- `mb_substr` and `mb_strpos`, counting characters.

Strings are sequences of code points throughout. The host is PHP 7.3/7.4: an empty suffix makes `endsWith` true (`substr_compare` from PHP 7.2.18/7.3.5 on), and `mb_strpos` gives false for an empty needle or an offset outside the string, as before PHP 8.

## Model

| member | source | states |
|---|---|---|
| Host.StringCast | src/Lang/Character.php:106-107 | `(string)` of a non-array value: null and false give "", true gives "1", an integer a canonical string that reads back as it, a float its rendering, strings and Character and StdString wrappers their text, an object with `__toString` its rendering; it raises StringConversion exactly for an object without a string form |
| Host.IntToStringRoundTrip | src/Lang/StdString.php:723-726 | `(string) $int` is canonical, is an integer string, and reads back as the same integer |
| Host.CanonicalIntStringRoundTrip | test/Util/HashMapTest.php:26-33 | a canonical integer string is exactly the rendering of the integer it denotes, so string keys and integer keys coincide only there |
| Host.StrCmpSign | src/Lang/StdString.php:120-124 | `strcmp <=> 0` yields -1, 0 or 1; it is 0 exactly for equal strings; swapping the arguments negates it |
| Host.StrCmpTransitive | test/Util/HashMapTest.php:186 | the `strcmp` comparator that the key sort uses is transitive |
| Host.MbSubstr | src/Lang/StdString.php:631-638 | `mb_substr` returns at most the whole string: the `min(n, len-start)` characters from `start`, the rest of the string when no length is given, nothing past the end, and for a negative length everything from `start` up to that many characters before the end |
| Host.FirstOccurrence | src/Lang/StdString.php:594-603 | the first position at or after `from` where the needle occurs, or none when there is no such position |
| Host.MbStrpos | src/Lang/StdString.php:594-603 | `mb_strpos` gives the first occurrence of a non-empty needle at or after the offset, a negative offset counting from the end; none when there is no such occurrence, the needle is empty or the offset lies outside the string |
| Characters.NewCharacter | src/Lang/Character.php:31-38 | the constructor succeeds exactly for at most one character and then holds it; otherwise it raises InvalidArgument |
| Characters.HandleIncomingChar | src/Lang/Character.php:165-174 | no error exactly when every argument is a one-character string or Character; otherwise the error belongs to the first offending argument: TypeError for a wrong type, InvalidArgument for a wrong length |
| Characters.Utf16RoundTrip | src/Lang/Character.php:58-62 | a code point needs one or two UTF-16 units, and decoding them gives the code point back |
| Characters.CharCount | src/Lang/Character.php:58-62 | defined exactly for single characters; 2 when the code point is above 0xFFFF and 1 otherwise, which is the number of UTF-16 units |
| Characters.CodePointAt | src/Lang/Character.php:73-108 | raises InvalidArgument for a source that is neither a Character array nor a character sequence, for a negative index, and when a limit is given that is negative, not above the index or above the length; otherwise it is the code point of the first character of the element's string form. A missing element, an array element or an element whose string form is empty raises TypeError, an object element without a string form raises StringConversion, and an index past a character sequence raises OutOfBounds |
| Characters.CodePointAtConvertedElements | src/Lang/Character.php:106-107 | an integer 5, a StdString "x" and true after a Character give 53, 120 and 49; an object without a string form raises StringConversion |
| Characters.CodePointBefore | src/Lang/Character.php:119-126 | raises InvalidArgument when a start is given that is negative or not below the index; otherwise it equals `codePointAt(chars, index - 1)` |
| Characters.Compare | src/Lang/Character.php:137-141 | defined exactly for two single characters; -1, 0 or 1; 0 exactly when they are equal, negative exactly when the first code point is lower |
| Characters.CompareTo | src/Lang/Character.php:151-155 | defined exactly for a single-character argument; -1, 0 or 1, and 0 exactly when equal to this character; the sign is `strcmp` of this character's text with the argument's, the code-point order proved antisymmetric and transitive by Host.StrCmpSign and Host.StrCmpTransitive |
| Characters.ValueOf | src/Lang/Character.php:239-246 | accepts exactly a string or Character of at most one character and holds its text; any other type, and a string or Character of two or more characters, raises InvalidArgument; no other error is raised |
| StdStrings.DataAfterConstruct | src/Lang/StdString.php:39-58 | the data the constructor leaves as written: accepted exactly for a string, a StdString or a list of Characters; null exactly for the empty list |
| StdStrings.Construct | src/Lang/StdString.php:39-58 | the corrected constructor: the text of a string or StdString, the concatenation of a Character list, InvalidArgument otherwise |
| StdStrings.DataAfterConstructAgrees | src/Lang/StdString.php:39-58 | the constructor as written and the corrected one agree on every argument except the empty list |
| StdStrings.EmptyCharacterListLeavesNull | src/Lang/StdString.php:45-52 | `new StdString([])` leaves the data null where the empty string is meant |
| StdStrings.AppendCharacters | src/Lang/StdString.php:46-52 | the list loop succeeds exactly when every element is a Character, giving their texts concatenated in order |
| StdStrings.ConstructFromCharacters | src/Lang/StdString.php:39-52 | a list holding one Character per character of `s`, in order, constructs `s` |
| StdStrings.CharAt | src/Lang/StdString.php:76-83 | succeeds exactly for `0 <= index < length` and gives the character at that index; otherwise OutOfBounds |
| StdStrings.OffsetExists | src/Lang/StdString.php:409-416 | true exactly for a numeric offset whose integer value lies in `0 <= o < length` |
| StdStrings.OffsetGet | src/Lang/StdString.php:422-438 | a numeric offset succeeds exactly when `offsetExists` holds and gives that character; a non-numeric offset reads `charAt(0)`, except that an object offset without a string form raises StringConversion; every other failure is OutOfBounds |
| StdStrings.SpliceAt | src/Lang/StdString.php:444-466 | the spliced data has length `max(len, o + len(v))`, and position by position it holds the old data before the offset, spaces where the offset lies past the end, then the value, then the old data |
| StdStrings.SpliceExamples | test/Lang/StdStringTest.php:177-186 | the splices of the offsetSet test data: "FooCar", "FooBar Donald Duck", "FooBazz" |
| StdStrings.StdString.constructor | src/Lang/StdString.php:39-44 | a StdString built from a string holds that string |
| StdStrings.StdString.New | src/Lang/StdString.php:39-58 | `new StdString(arg)` succeeds exactly when the corrected constructor does, on a fresh object holding its data |
| StdStrings.StdString.OffsetSet | src/Lang/StdString.php:444-466 | a negative or non-numeric offset leaves the data unchanged, and raises StringConversion when it is an object without a string form; a non-string value raises TypeError and changes nothing; otherwise the data becomes the splice, whose length is `max(len, o + len(v))` |
| StdStrings.Substr | src/Lang/StdString.php:631-638 | a negative start raises InvalidArgument; otherwise at most `n` characters from `start`, each equal to the character at its position, the rest of the string when no length is given, and for a negative length `n` everything from `start` up to `-n` characters before the end |
| StdStrings.Substring | src/Lang/StdString.php:648-651 | as written: a non-zero end gives characters `begin..end` inclusive, which is `substr` of length `end - begin + 1` for any end, so an end past the string stops at its end and an end before `begin` gives less; an end that is 0 or absent reads to the end |
| StdStrings.SubstringInclusive | src/Lang/StdString.php:648-651 | corrected: any given end, 0 included, gives characters `begin..end` inclusive, which is `substr` of length `end - begin + 1` for any end; only an absent end reads to the end |
| StdStrings.SubstringZeroEnd | src/Lang/StdString.php:650 | `substring(0, 0)` of "FooBar" gives "FooBar" as written and "F" corrected |
| StdStrings.SubstringExamples | test/Lang/StdStringTest.php:720-731 | the substr and substring examples of the string tests, plus an end past the string and ends before `begin` |
| StdStrings.CopyCharsAt | src/Lang/StdString.php:331-338 | the copy adds exactly indices `d..d+count-1`, index `d+i` holds character `b+i`, and every other index keeps its entry |
| StdStrings.GetChars | src/Lang/StdString.php:331-338 | raises OutOfBounds exactly when there is something to copy and `begin < 0` or `end >= length`; the destination holds the characters copied before the failing one, and every other index is unchanged |
| StdStrings.SubSequence | src/Lang/StdString.php:609-621 | raises OutOfBounds exactly when `begin < 0` or `end > length - 1`; otherwise it holds exactly indices `0..end-begin`, index `j` holding character `begin + j` |
| StdStrings.ToCharArray | src/Lang/StdString.php:660-666 | exactly indices `0..length-1`, each holding the character at that index |
| StdStrings.RegionMatches | src/Lang/StdString.php:488-508 | a TypeError for an argument that is not a string or StdString; false when a region leaves its string; otherwise, for `len >= 0`, true exactly when the two `len`-character regions are equal, and for a negative `len` true exactly when the two `mb_substr` slices of that length are equal |
| StdStrings.RegionMatchesNegativeLength | src/Lang/StdString.php:494-507 | `regionMatches(0, 'abd', 0, -1)` on "abc" compares "ab" with "ab" and is true; against "xbc" it is false |
| StdStrings.StartsWith | src/Lang/StdString.php:594-603 | true exactly for a non-empty string-like prefix of this string with an offset of 0, or minus the length, which is the same position |
| StdStrings.EndsWith | src/Lang/StdString.php:229-246 | false for a pattern longer than the string; true exactly when the string is some `u` followed by the pattern |
| StdStrings.ContentEquals | src/Lang/StdString.php:177-186 | true exactly for a string or StdString equal to this string; false for any other type |
| StdStrings.CompareTo | src/Lang/StdString.php:120-124 | TypeError for a non-string argument; otherwise -1, 0 or 1, and 0 exactly when equal; the sign is `strcmp` of the two strings, the code-point order proved antisymmetric and transitive by Host.StrCmpSign and Host.StrCmpTransitive |
| StdStrings.CompareToAntisymmetric | src/Lang/StdString.php:120-124 | comparing two strings either way round gives opposite signs |
| StdStrings.ValueOf | src/Lang/StdString.php:708-733 | refuses exactly null, arrays and objects without a string form; booleans become "true"/"false"; an integer becomes its canonical decimal rendering, which reads back as that integer; a float gives its rendering; strings, wrappers and objects with `__toString` give their text |
| HashMaps.IntegerAndItsStringAreOneKey | test/Util/HashMapTest.php:26-33 | an integer and its decimal rendering are the same key |
| HashMaps.DistinctStringsAreDistinctKeys | test/Util/HashMapTest.php:76-79 | two different strings are never the same key, even when they denote integers |
| HashMaps.NonCanonicalStringIsNotAnInteger | test/Util/HashMapTest.php:26-33 | a string that is not a canonical integer is never the same key as an integer |
| HashMaps.ObjectKeysByIdentity | test/Util/HashMapTest.php:49-57 | two objects are the same key exactly when they are the same instance |
| HashMaps.ListKeysByContents | test/Util/HashMapTest.php:146-151 | two lists are the same key exactly when they have equal length and elementwise the same keys |
| HashMaps.IndexOf | test/Util/HashMapTest.php:82-92 | the position of the first entry filed under the identity, or none exactly when no entry is |
| HashMaps.Lookup | test/Util/HashMapTest.php:82-92 | a value exactly when some entry is filed under the identity, and then that entry's value |
| HashMaps.IndexAfterOverwrite | test/Util/HashMapTest.php:137-152 | putting a present key changes only that entry's value and moves no identity |
| HashMaps.IndexAfterAppend | test/Util/HashMapTest.php:137-152 | putting a new key appends it last and moves no other identity |
| HashMaps.IndexOfSameIds | test/Util/HashMapTest.php:137-152 | positions of identities depend only on the identities, not on keys or values |
| HashMaps.IndexOfAppended | test/Util/HashMapTest.php:137-152 | appending a new identity finds it last and finds every other identity where it was |
| HashMaps.LookupAfterPut | test/Util/HashMapTest.php:137-152 | after put(k, v), k gives v and every other key gives what it gave before |
| HashMaps.KeysAfterPut | test/Util/HashMapTest.php:208-211 | put keeps the key order: a present key changes nothing in it, a new key is appended, and the other entries are untouched |
| HashMaps.PutKeepsDistinct | test/Util/HashMapTest.php:137-152 | put never files two entries under one identity |
| HashMaps.CutKeepsEntries | test/Util/HashMapTest.php:165-174 | cutting out one entry keeps the others in order, distinct and well filed |
| HashMaps.LookupAfterCut | test/Util/HashMapTest.php:31-35 | after the cut, the removed identity gives nothing and every other identity gives its old value |
| HashMaps.IndexAfterCut | test/Util/HashMapTest.php:31-33 | after the cut, the removed identity is absent, earlier identities keep their positions and later ones move down by one |
| HashMaps.RemoveKeepsDistinct | test/Util/HashMapTest.php:165-174 | remove lowers the size by one exactly when the key was present, and keeps the entries distinct and well filed |
| HashMaps.LookupAfterRemove | test/Util/HashMapTest.php:31-35 | after remove(k), k is absent and every other key gives what it gave before |
| HashMaps.ContainsAfterPuts | test/Util/HashMapTest.php:69-80 | after a run of puts, exactly the earlier keys and the put keys are contained |
| HashMaps.LookupUntouchedByPuts | test/Util/HashMapTest.php:154-163 | a run of puts that never names a key leaves its value as it was |
| HashMaps.LookupAfterPuts | test/Util/HashMapTest.php:154-163 | after a run of puts, a key gives the value of its last put |
| HashMaps.PutFreshEntries | test/Util/HashMapTest.php:69-80 | puts of new, pairwise distinct keys append the entries in order |
| HashMaps.ValuesOfFreshPuts | test/Util/HashMapTest.php:208-211 | a map built from pairs with distinct keys lists exactly their keys and values, in their order |
| HashMaps.LookupCons | test/Util/HashMapTest.php:176-206 | looking up in `[x] + t` sees `x` first, then `t` |
| HashMaps.DistinctCons | test/Util/HashMapTest.php:176-206 | `[x] + t` is distinct exactly when `t` is and does not hold x's identity, and well filed exactly when `x` and `t` are |
| HashMaps.InsertPermutation | test/Util/HashMapTest.php:176-206 | inserting adds exactly one entry to the multiset of entries |
| HashMaps.SortedCons | test/Util/HashMapTest.php:176-206 | `[x] + t` is sorted exactly when `t` is and `x` is not above its first entry |
| HashMaps.InsertSorted | test/Util/HashMapTest.php:176-206 | with a total comparator, inserting into sorted entries keeps them sorted |
| HashMaps.InsertLookup | test/Util/HashMapTest.php:176-206 | inserting a new identity keeps every other lookup and adds its own |
| HashMaps.InsertDistinct | test/Util/HashMapTest.php:176-206 | inserting a new identity keeps the identities distinct |
| HashMaps.SortPermutes | test/Util/HashMapTest.php:176-206 | sort gives a permutation of the entries, sorted by the comparator on keys or on values when the comparator is total |
| HashMaps.SortKeepsLookups | test/Util/HashMapTest.php:176-206 | sort keeps the set of keys, keeps them distinct, and keeps every key's value |
| HashMaps.WellFiledByMembers | test/Util/HashMapTest.php:176-206 | being well filed depends only on the multiset of entries, so a permutation keeps it |
| HashMaps.HashMap.constructor | test/Util/HashMapTest.php:96-97 | a new map is empty with its cursor at the start |
| HashMaps.HashMap.CreateFromArray | test/Util/HashMapTest.php:69-80 | a fresh valid map holding the pairs put in order, with its cursor at the start |
| HashMaps.HashMap.Put | test/Util/HashMapTest.php:137-152 | the entries become `PutEntry` of the old ones, the map stays valid, and the cursor is unchanged |
| HashMaps.HashMap.Get | test/Util/HashMapTest.php:82-92 | null for a missing key; otherwise the value of the entry filed under the key's identity |
| HashMaps.HashMap.ContainsKey | test/Util/HashMapTest.php:49-57 | true exactly when some entry is filed under the key's identity |
| HashMaps.HashMap.ContainsValue | test/Util/HashMapTest.php:59-67 | true exactly when some entry holds this very value (for objects, this instance) |
| HashMaps.HashMap.Size | test/Util/HashMapTest.php:38-47 | the number of entries |
| HashMaps.HashMap.IsEmpty | test/Util/HashMapTest.php:94-104 | true exactly when the size is 0 |
| HashMaps.HashMap.Values | test/Util/HashMapTest.php:208-211 | the values in entry order |
| HashMaps.HashMap.Key | test/Util/HashMapTest.php:128-135 | the key under the cursor, or null once the cursor is past the last entry |
| HashMaps.HashMap.Current | test/Util/HashMapTest.php:113-125 | the value under the cursor, or false once the cursor is past the last entry |
| HashMaps.HashMap.HasCurrent | test/Util/HashMapTest.php:115-117 | true exactly when the cursor is on an entry |
| HashMaps.HashMap.Next | test/Util/HashMapTest.php:188-191 | the cursor moves one entry on and stays past the end once there |
| HashMaps.HashMap.Rewind | test/Util/HashMapTest.php:124-125 | the cursor returns to the first entry |
| HashMaps.HashMap.Clear | test/Util/HashMapTest.php:38-47 | no entries remain and the cursor is at the start |
| HashMaps.HashMap.Remove | test/Util/HashMapTest.php:165-174 | the entries become `RemoveEntry` of the old ones; the result says whether the key was present; the cursor stays on the entry it was on, or moves on to the next one when that entry was the one removed |
| HashMaps.HashMap.Sort | test/Util/HashMapTest.php:176-206 | the entries become `SortEntries` of the old ones, the map stays valid, and the cursor returns to the start |
| HashMaps.HashMap.PutAll | test/Util/HashMapTest.php:154-163 | the other map's entries are put in order, and the cursor is unchanged |
| HashMaps.HashMap.Clone | test/Util/HashMapTest.php:185 | a fresh map with the same entries and cursor |
| HashMaps.HashMap.ForEach | test/Util/HashMapTest.php:115-122 | visits every key and value in entry order and leaves the cursor past the end |
| HashMapScenarios.NumericStringKey | test/Util/HashMapTest.php:27-29 | `'12345'` is filed under the integer 12345 |
| HashMapScenarios.WordKeys | test/Util/HashMapTest.php:76-79 | `'foo'`, `'baz'` and `'bar'` are filed as strings |
| HashMapScenarios.TwoFreshPuts | test/Util/HashMapTest.php:69-80 | two pairs with different keys are put as two entries, in order |
| HashMapScenarios.FooBazEntries | test/Util/HashMapTest.php:69-80 | createFromArray of foo => bar, baz => lorem holds exactly those two entries, in order |
| HashMapScenarios.SortThree | test/Util/HashMapTest.php:176-206 | sorting three entries inserts the first into the sorted last two |
| HashMapScenarios.TestKeysCompare | test/Util/HashMapTest.php:186-188 | strcmp puts BarFoo before FooBar before FooBaz |
| HashMapScenarios.KeySortOrder | test/Util/HashMapTest.php:184-191 | by key with strcmp, the test map sorts to BarFoo, FooBar, FooBaz |
| HashMapScenarios.ValueSortOrder | test/Util/HashMapTest.php:193-205 | by value with the pair-sum comparator, the test map sorts to FooBar, FooBaz, BarFoo |
| HashMapScenarios.SortTestMap | test/Util/HashMapTest.php:178-182 | the three puts of the sort test give three entries in put order with their keys and pair sums |

The methods in `HashMapScenarios` without a contract (`ArrayAccessScenario`, `PutScenario`, `KeySortScenario` and the others) replay one test case each and prove its assertions as `assert` statements.

## Left out

- Unicode case mapping (`mb_strtolower`/`mb_strtoupper`) is left out. This covers `toLowerCase`, `toUpperCase`, `isLowerCase`, `isUpperCase`, `equalsIgnoreCase`, `compareToIgnoreCase`, and the case-insensitive paths of `regionMatches` and `endsWith`. Those paths depend on the host's Unicode tables.
- Regular expressions (`matches`, `replaceAll`, `replaceFirst`, `split`), `format` and `trim` are left out. They are calls into the host's libraries.
- The `$encoding` field, `mb_convert_encoding`, `unpack` and `getBytes` are left out. Strings are sequences of code points, and a code point is taken as given.
- StdStrings.EndsWith: `substr_compare` works on byte offsets, which the source computes from character lengths. The model compares characters, which is the same only for single-byte content.
- StdStrings.GetChars: the by-reference destination array is a `map<int, Character>`, which has no order. In the host, indices not yet in the array are appended after its existing entries, so their iteration order can differ from index order; the model keeps only which index holds which character.
- StdStrings.CompareTo and Host.StrCmp: `strcmp` is modelled as the order of code points, which is the byte order of their UTF-8 encoding.
- Warnings from `trigger_error` in `offsetGet` and `offsetSet` are not modelled. Building the warning converts the offset to a string; that raises StringConversion for an object without a string form, and otherwise both operations are modelled by what they do after the warning.
- `offsetUnset` of StdString raises a fatal error and is not modelled.
- Other StdString operations are not modelled: `hashCode`, `copyValueOf`, `concat`, `contains`, `indexOf`, `lastIndexOf`, `explode` and `replace`.
- Host.IsNumeric: only integer strings count as numeric. Strings with leading whitespace, a fraction or an exponent, which the host calls numeric, are treated as non-numeric. So `offsetGet('1.5')` reads `charAt(0)` in the model and `charAt(1)` in the host, and `offsetExists('1.5')` is false in the model and true in the host. A float value is carried by its integer part and its rendering.
- Host.MbStrpos: an empty needle gives false, and so does an offset past the end. This is the older behaviour of the host; newer versions return a position or raise instead.
- Host.Value.List, Characters.CodePointAt, HashMaps.KeyIdOf: a PHP array is modelled as the list of its values, without its keys. So `['a' => 1]`, `['b' => 1]` and `[1]` are one map key in the model and three in the host, and `codePointAt` reads the element at a position where the host reads the element under the key `$index`; the two agree only for arrays with keys `0..n-1` in order.
- Characters.CodePointAt: an element that is missing, is an array or has an empty string form (null, false, "") yields TypeError. That stands for the failed `unpack` result being returned as an `int`.
- Host.Value.Int, Host.ToInt, HashMaps.KeyIdOf: integers are unbounded. The host's integers are 64-bit, its `(int)` casts in `offsetExists`, `offsetGet` and `offsetSet` saturate, and an integer string beyond 64 bits stays a string key; the model treats every canonical integer string as an integer.
- The assertion helper `src/Util/Assert.php` is not part of this model. A failed type test is modelled as TypeError.
- The implementation `src/Util/HashMap.php` is not part of this model. Its hashing, collision policy and `spl_object_hash` are replaced by the key identity `KeyIdOf` with an instance token for objects.
- HashMaps.SortPermutes: the sort is proved to permute the entries, and to order them only for a total comparator. Stability is not claimed, because no test asserts it.
- HashMaps.PutEntry: on a put to a present key, the first key keeps its place and its original form. The tests do not say which of two equal keys is kept.
- HashMaps.HashMap.Put: `put` returns the map for chaining. The model's `Put` returns nothing, and the scenarios chain calls as separate statements.
- HashMaps.HashMap.PutAll: the other map's cursor is not modelled as moving. Only its entries are read.
- The `ArrayAccess` and `Countable` forms of the map are the same operations: `$map[k] = v` is `Put`, `$map[k]` is `Get`, `isset` is `ContainsKey`, `unset` is `Remove`, and `count` is `Size`. The `isset` check of a null value is not distinguished from `containsKey`.
- `usleep` in the iteration test is not modelled.

## Findings

| source | as written | input that shows it | evidently intended | confidence | as-written member | corrected member |
|---|---|---|---|---|---|---|
| src/Lang/StdString.php:648-651 | `$end ? $end - $begin + 1 : null` treats an end of 0 like a missing end, so it reads to the end of the string | `(new StdString('FooBar'))->substring(0, 0)` gives "FooBar" | an inclusive end of 0 gives the first character, "F" | medium, not executed | StdStrings.Substring (shown by StdStrings.SubstringZeroEnd) | StdStrings.SubstringInclusive |
| src/Lang/StdString.php:39-52 | the data field starts out null, and the Character list loop only appends to it, so an empty list leaves it null | `new StdString([])`: the data is null, which `__toString` cannot return as a string | the empty string, as for `new StdString('')` | medium, not executed | StdStrings.DataAfterConstruct (shown by StdStrings.EmptyCharacterListLeavesNull) | StdStrings.Construct |
