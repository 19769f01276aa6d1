/**
 * The StdString wrapper. Its only state is its data; every query is a
 * function of that data, written here with the data as the first
 * parameter `s`. A StdString returned by an operation is represented by
 * its data. offsetSet is the one operation that changes the object, and
 * the class StdString carries it.
 */
module StdStrings {
  import opened Host
  import opened Characters

  /** The Character holding s[i]. */
  function CharOf(s: string, i: nat): Character
    requires i < |s|
  {
    Character([s[i]])
  }

  // ---------------------------------------------------------------------------
  // Construction

  predicate IsCharacterValue(v: Value) {
    v.Object? && v.kind.CharacterObject?
  }

  predicate AllCharacters(elems: seq<Value>) {
    forall i :: 0 <= i < |elems| ==> IsCharacterValue(elems[i])
  }

  /** The data of the Characters of a list, concatenated in order. */
  function CharsText(elems: seq<Value>): string
    requires AllCharacters(elems)
  {
    if elems == [] then "" else CharsText(elems[..|elems| - 1]) + elems[|elems| - 1].kind.text
  }

  /**
   * The data the constructor leaves, as written: a string or a StdString
   * gives its text, a list of Characters their concatenation, and anything
   * else is refused. The data starts out null (None) and the list loop only
   * appends, so an empty list leaves it null.
   */
  function DataAfterConstruct(arg: Value): (r: Result<Option<string>>)
    ensures r.Ok? <==> IsStringLike(arg) || (arg.List? && AllCharacters(arg.elems))
    ensures r.Err? ==> r.error == InvalidArgument
    ensures r.Ok? && r.value.None? <==> arg == List([])
  {
    match arg
    case Str(s) => Ok(Some(s))
    case Object(_, StdStringObject(t)) => Ok(Some(t))
    case List(elems) =>
      if !AllCharacters(elems) then Err(InvalidArgument)
      else if elems == [] then Ok(None)
      else Ok(Some(CharsText(elems)))
    case _ => Err(InvalidArgument)
  }

  /**
   * The constructor with the data starting out as the empty string, so
   * that an empty list of Characters gives the empty string.
   */
  function Construct(arg: Value): (r: Result<string>)
    ensures r.Ok? <==> IsStringLike(arg) || (arg.List? && AllCharacters(arg.elems))
    ensures r.Err? ==> r.error == InvalidArgument
    ensures IsStringLike(arg) ==> r == Ok(StringOf(arg))
    ensures arg.List? && AllCharacters(arg.elems) ==> r == Ok(CharsText(arg.elems))
  {
    match arg
    case Str(s) => Ok(s)
    case Object(_, StdStringObject(t)) => Ok(t)
    case List(elems) => if AllCharacters(elems) then Ok(CharsText(elems)) else Err(InvalidArgument)
    case _ => Err(InvalidArgument)
  }

  /** On every argument but the empty list, the constructor as written agrees with Construct. */
  lemma DataAfterConstructAgrees(arg: Value)
    requires arg != List([])
    ensures DataAfterConstruct(arg).Ok? <==> Construct(arg).Ok?
    ensures Construct(arg).Ok? ==> DataAfterConstruct(arg).value == Some(Construct(arg).value)
  {
  }

  /** `new StdString([])` leaves the data null, where the empty string is meant. */
  lemma EmptyCharacterListLeavesNull()
    ensures DataAfterConstruct(List([])) == Ok(None)
    ensures Construct(List([])) == Ok("")
  {
  }

  /**
   * The constructor's loop over a list: each element must be a Character,
   * whose data is appended; the first other element raises.
   */
  method AppendCharacters(elems: seq<Value>) returns (r: Result<string>)
    ensures r.Ok? <==> AllCharacters(elems)
    ensures r.Ok? ==> r.value == CharsText(elems)
    ensures r.Err? ==> r.error == InvalidArgument
  {
    var data := "";
    for i := 0 to |elems|
      invariant AllCharacters(elems[..i])
      invariant data == CharsText(elems[..i])
    {
      if !IsCharacterValue(elems[i]) {
        return Err(InvalidArgument);
      }
      assert elems[..i + 1][..i] == elems[..i];
      data := data + elems[i].kind.text;
    }
    assert elems[..|elems|] == elems;
    r := Ok(data);
  }

  /** A list of the Characters of `s`, one per character and in order, rebuilds `s`. */
  lemma {:induction false} ConstructFromCharacters(s: string, elems: seq<Value>)
    requires |elems| == |s|
    requires forall i :: 0 <= i < |s| ==> IsCharacterValue(elems[i]) && elems[i].kind.text == [s[i]]
    ensures Construct(List(elems)) == Ok(s)
  {
    if s != [] {
      var n := |s| - 1;
      ConstructFromCharacters(s[..n], elems[..n]);
      assert s == s[..n] + [s[n]];
    }
  }

  // ---------------------------------------------------------------------------
  // Index access

  /** charAt(index): the character at `index`, OutOfBounds outside 0 <= index < length. */
  function CharAt(s: string, index: int): (r: Result<Character>)
    ensures r.Ok? <==> 0 <= index < |s|
    ensures r.Ok? ==> r.value.data == [s[index]]
    ensures r.Err? ==> r.error == OutOfBounds
  {
    if index < 0 || index > |s| - 1 then Err(OutOfBounds) else Ok(Character(MbSubstr(s, index, Some(1))))
  }

  /** offsetExists(offset): a numeric offset that charAt accepts. */
  function OffsetExists(s: string, offset: Value): (r: bool)
    ensures r <==> IsNumeric(offset) && 0 <= ToInt(offset) < |s|
  {
    if !IsNumeric(offset) then false else ToInt(offset) >= 0 && |s| > ToInt(offset)
  }

  /**
   * offsetGet(offset): charAt of a numeric offset; a non-numeric offset
   * warns and reads the first character. Building the warning converts the
   * offset to a string, which raises for an object without a string form.
   */
  function OffsetGet(s: string, offset: Value): (r: Result<Character>)
    ensures IsNumeric(offset) ==> (r.Ok? <==> OffsetExists(s, offset))
    ensures !IsNumeric(offset) ==> (r.Ok? <==> |s| > 0 && !HasNoStringForm(offset))
    ensures r.Ok? ==> r.value.data == [s[if IsNumeric(offset) then ToInt(offset) else 0]]
    ensures HasNoStringForm(offset) ==> r == Err(StringConversion)
    ensures r.Err? && !HasNoStringForm(offset) ==> r.error == OutOfBounds
  {
    if HasNoStringForm(offset) then Err(StringConversion)
    else if !IsNumeric(offset) then CharAt(s, 0)
    else if ToInt(offset) < 0 || |s| <= ToInt(offset) then Err(OutOfBounds)
    else CharAt(s, ToInt(offset))
  }

  /** n spaces. */
  function Spaces(n: nat): (r: string)
    ensures |r| == n && forall i :: 0 <= i < n ==> r[i] == ' '
  {
    seq(n, _ => ' ')
  }

  /**
   * The data offsetSet leaves for a non-negative offset: the first `offset`
   * characters, padded with spaces up to `offset`, then `value`, then what
   * followed the overwritten part.
   */
  function Splice(data: string, offset: nat, value: string): string
  {
    var length := |data|;
    var prefix := MbSubstr(data, 0, Some(offset)) + (if length < offset then Spaces(offset - length) else "");
    var suffixOffset := offset + |value|;
    var suffix := if suffixOffset < length then MbSubstr(data, suffixOffset, None) else "";
    prefix + value + suffix
  }

  /** Splice character by character: old data, padding, the value, old data again. */
  lemma SpliceAt(data: string, offset: nat, value: string)
    ensures |Splice(data, offset, value)| == Max(|data|, offset + |value|)
    ensures forall i :: 0 <= i < |Splice(data, offset, value)| ==>
              Splice(data, offset, value)[i] ==
                if i < offset then (if i < |data| then data[i] else ' ')
                else if i < offset + |value| then value[i - offset]
                else data[i]
  {
    var length := |data|;
    var head := MbSubstr(data, 0, Some(offset));
    assert head == data[..Min(offset, length)];
    var prefix := head + (if length < offset then Spaces(offset - length) else "");
    assert |prefix| == offset || (length >= offset && |prefix| == offset);
    var suffixOffset := offset + |value|;
    var suffix := if suffixOffset < length then MbSubstr(data, suffixOffset, None) else "";
    assert suffixOffset < length ==> suffix == data[suffixOffset..];
    var r := prefix + value + suffix;
    assert r == Splice(data, offset, value);
    forall i | 0 <= i < |r|
      ensures r[i] == if i < offset then (if i < |data| then data[i] else ' ')
                      else if i < offset + |value| then value[i - offset]
                      else data[i]
    {
      if i < offset {
        assert r[i] == prefix[i];
      } else if i < offset + |value| {
        assert r[i] == value[i - offset];
      } else {
        assert r[i] == suffix[i - offset - |value|];
      }
    }
  }

  /** The three splices the string tests spell out. */
  lemma SpliceExamples()
    ensures Splice("FooBar", 3, "C") == "FooCar"
    ensures Splice("FooBar", 7, "Donald Duck") == "FooBar Donald Duck"
    ensures Splice("FooBar", 5, "zz") == "FooBazz"
  {
    assert MbSubstr("FooBar", 0, Some(3)) == "Foo";
    assert MbSubstr("FooBar", 4, None) == "ar";
    assert MbSubstr("FooBar", 0, Some(7)) == "FooBar";
    assert Spaces(1) == " ";
    assert MbSubstr("FooBar", 0, Some(5)) == "FooBa";
  }

  // ---------------------------------------------------------------------------
  // Substrings

  /** substr(start, length): a negative start is refused; otherwise mb_substr. */
  function Substr(s: string, start: int, length: Option<int>): (r: Result<string>)
    ensures r.Ok? <==> start >= 0
    ensures r.Err? ==> r.error == InvalidArgument
    ensures r.Ok? && length.None? ==> r.value == s[Min(start, |s|)..]
    ensures r.Ok? && length.Some? && length.value >= 0 ==>
              |r.value| == Min(length.value, Max(0, |s| - start)) &&
              forall i :: 0 <= i < |r.value| ==> r.value[i] == s[start + i]
    ensures r.Ok? && length.Some? && length.value < 0 ==>
              r.value == s[Min(start, |s|)..Max(Min(start, |s|), |s| + length.value)]
  {
    if start < 0 then Err(InvalidArgument) else Ok(MbSubstr(s, start, length))
  }

  /**
   * substring(begin, end), as written: the end is inclusive, and an end
   * that is absent or 0 both mean "to the end of the string".
   */
  function Substring(s: string, begin: int, end: Option<int>): (r: Result<string>)
    ensures r.Ok? <==> begin >= 0
    ensures end.Some? && 0 <= begin <= end.value < |s| && end.value != 0 ==> r == Ok(s[begin..end.value + 1])
    ensures end.Some? && end.value != 0 ==> r == Substr(s, begin, Some(end.value - begin + 1))
    ensures end.None? || end.value == 0 ==> r == Substr(s, begin, None)
  {
    if end.None? || end.value == 0 then Substr(s, begin, None)
    else Substr(s, begin, Some(end.value - begin + 1))
  }

  /** substring with only an absent end meaning "to the end". */
  function SubstringInclusive(s: string, begin: int, end: Option<int>): (r: Result<string>)
    ensures r.Ok? <==> begin >= 0
    ensures end.Some? && 0 <= begin <= end.value < |s| ==> r == Ok(s[begin..end.value + 1])
    ensures end.Some? ==> r == Substr(s, begin, Some(end.value - begin + 1))
    ensures end.None? ==> r == Substr(s, begin, None)
  {
    if end.None? then Substr(s, begin, None)
    else Substr(s, begin, Some(end.value - begin + 1))
  }

  /** substring(0, 0) of "FooBar" returns the whole string where "F" is meant. */
  lemma SubstringZeroEnd()
    ensures Substring("FooBar", 0, Some(0)) == Ok("FooBar")
    ensures SubstringInclusive("FooBar", 0, Some(0)) == Ok("F")
  {
    assert "FooBar"[0..1] == "F";
  }

  /** The examples of the string tests, inclusive end. */
  lemma SubstringExamples()
    ensures Substr("FooBar", 2, Some(3)) == Ok("oBa")
    ensures Substr("FooBar", 2, None) == Ok("oBar")
    ensures Substring("FooBar", 2, Some(4)) == Ok("oBa")
    ensures Substring("FooBar", 2, None) == Ok("oBar")
    ensures Substring("FooBar", 2, Some(10)) == Ok("oBar")
    ensures Substring("FooBar", 3, Some(2)) == Ok("")
    ensures Substring("FooBar", 3, Some(1)) == Ok("Ba")
  {
    assert "FooBar"[2..5] == "oBa";
    assert "FooBar"[3..5] == "Ba";
  }

  /** Number of characters getChars copies before it ends or raises. */
  function GetCharsCount(n: nat, begin: int, end: int): (k: nat)
    ensures k > 0 ==> 0 <= begin && begin + k <= n
  {
    var length := end - begin + 1;
    if length <= 0 || begin < 0 then 0 else Min(length, Max(0, n - begin))
  }

  /** getChars raises when it has characters to copy and some lie outside the string. */
  predicate GetCharsFails(n: nat, begin: int, end: int) {
    end - begin + 1 > 0 && (begin < 0 || end >= n)
  }

  /** `dest` after `count` characters from s[begin..] are written at dstBegin onwards. */
  function CopyChars(s: string, begin: int, count: nat, dest: map<int, Character>, dstBegin: int): map<int, Character>
    requires count == 0 || (0 <= begin && begin + count <= |s|)
  {
    if count == 0 then dest
    else CopyChars(s, begin, count - 1, dest, dstBegin)[dstBegin + count - 1 := CharOf(s, begin + count - 1)]
  }

  /** CopyChars adds the copied indices, each holding its character, and leaves every other index alone. */
  lemma {:induction false} CopyCharsAt(s: string, begin: int, count: nat, dest: map<int, Character>, dstBegin: int)
    requires count == 0 || (0 <= begin && begin + count <= |s|)
    ensures forall j :: j in CopyChars(s, begin, count, dest, dstBegin) <==> j in dest || dstBegin <= j < dstBegin + count
    ensures forall j :: dstBegin <= j < dstBegin + count ==>
              CopyChars(s, begin, count, dest, dstBegin)[j] == CharOf(s, begin + (j - dstBegin))
    ensures forall j :: j in dest && !(dstBegin <= j < dstBegin + count) ==>
              CopyChars(s, begin, count, dest, dstBegin)[j] == dest[j]
  {
    if count > 0 {
      CopyCharsAt(s, begin, count - 1, dest, dstBegin);
    }
  }

  /**
   * getChars(begin, end, &destination, dstBegin): copies characters begin..end
   * (inclusive) to destination[dstBegin..], one charAt at a time; an index
   * outside the string raises, leaving the writes made before it.
   */
  method GetChars(s: string, begin: int, end: int, dest: map<int, Character>, dstBegin: int)
    returns (result: map<int, Character>, err: Option<Error>)
    ensures err.Some? <==> GetCharsFails(|s|, begin, end)
    ensures err.Some? ==> err.value == OutOfBounds
    ensures result == CopyChars(s, begin, GetCharsCount(|s|, begin, end), dest, dstBegin)
  {
    var length := end - begin + 1;
    result, err := dest, None;
    var i := 0;
    while i < length
      invariant 0 <= i <= Max(length, 0)
      invariant i > 0 ==> 0 <= begin && begin + i <= |s|
      invariant result == CopyChars(s, begin, i, dest, dstBegin)
    {
      var c := CharAt(s, begin + i);
      if c.Err? {
        assert i == GetCharsCount(|s|, begin, end);
        err := Some(c.error);
        return;
      }
      result := result[dstBegin + i := c.value];
      i := i + 1;
    }
    assert i == GetCharsCount(|s|, begin, end);
  }

  /**
   * subSequence(begin, end): characters begin..end (inclusive) as a list;
   * OutOfBounds for a negative begin or an end past the last character.
   */
  method SubSequence(s: string, begin: int, end: int) returns (r: Result<map<int, Character>>)
    ensures r.Ok? <==> 0 <= begin && end <= |s| - 1
    ensures r.Err? ==> r.error == OutOfBounds
    ensures r.Ok? ==> forall j :: j in r.value <==> 0 <= j <= end - begin
    ensures r.Ok? ==> forall j :: 0 <= j <= end - begin ==> r.value[j] == CharOf(s, begin + j)
  {
    if begin < 0 || end > |s| - 1 {
      return Err(OutOfBounds);
    }
    var list, err := GetChars(s, begin, end, map[], 0);
    CopyCharsAt(s, begin, GetCharsCount(|s|, begin, end), map[], 0);
    r := Ok(list);
  }

  /** toCharArray(): every character, in order, as a list. */
  method ToCharArray(s: string) returns (r: map<int, Character>)
    ensures forall j :: j in r <==> 0 <= j < |s|
    ensures forall j :: 0 <= j < |s| ==> r[j] == CharOf(s, j)
  {
    var err;
    r, err := GetChars(s, 0, |s| - 1, map[], 0);
    CopyCharsAt(s, 0, GetCharsCount(|s|, 0, |s| - 1), map[], 0);
  }

  // ---------------------------------------------------------------------------
  // Comparisons

  /**
   * regionMatches(offset, other, strOffset, len) without case folding: false
   * when either region does not lie inside its string, otherwise whether
   * the two regions are equal. `other` must be a string or a StdString.
   */
  function RegionMatches(s: string, offset: int, other: Value, strOffset: int, len: int): (r: Result<bool>)
    ensures r.Ok? <==> IsStringLike(other)
    ensures r.Err? ==> r.error == TypeError
    ensures r.Ok? && (offset < 0 || strOffset < 0 || strOffset + len > |StringOf(other)| || offset + len > |s|) ==>
              r.value == false
    ensures r.Ok? && len >= 0 && r.value ==>
              0 <= offset && 0 <= strOffset && offset + len <= |s| && strOffset + len <= |StringOf(other)|
    ensures r.Ok? && len >= 0 && 0 <= offset && 0 <= strOffset && offset + len <= |s| && strOffset + len <= |StringOf(other)| ==>
              (r.value <==> s[offset..offset + len] == StringOf(other)[strOffset..strOffset + len])
    ensures r.Ok? && len < 0 && 0 <= offset && 0 <= strOffset && offset + len <= |s| && strOffset + len <= |StringOf(other)| ==>
              (r.value <==> MbSubstr(s, offset, Some(len)) == MbSubstr(StringOf(other), strOffset, Some(len)))
  {
    if !IsStringLike(other) then Err(TypeError)
    else
      var t := StringOf(other);
      if offset < 0 || strOffset < 0 || strOffset + len > |t| || offset + len > |s| then Ok(false)
      else
        var a := MbSubstr(s, offset, Some(len));
        var b := MbSubstr(t, strOffset, Some(len));
        StrCmpSign(a, b);
        Ok(StrCmp(a, b) == 0)
  }

  /**
   * A negative length passes the region checks and goes to mb_substr, which
   * drops that many characters from the end of each string.
   */
  lemma RegionMatchesNegativeLength()
    ensures RegionMatches("abc", 0, Str("abd"), 0, -1) == Ok(true)
    ensures RegionMatches("abc", 0, Str("xbc"), 0, -1) == Ok(false)
  {
  }

  /**
   * startsWith(prefix, offset): whether mb_strpos finds the prefix at
   * position 0; false for an argument that is not a string or StdString.
   */
  function StartsWith(s: string, prefix: Value, offset: int): (r: bool)
    ensures r <==> IsStringLike(prefix) && StringOf(prefix) != [] && (offset == 0 || offset == -|s|)
                   && |StringOf(prefix)| <= |s| && s[..|StringOf(prefix)|] == StringOf(prefix)
  {
    IsStringLike(prefix) && MbStrpos(s, StringOf(prefix), offset) == Some(0)
  }

  /**
   * endsWith(suffix), case-sensitive: false for an argument that is not a
   * string or StdString or that is longer than this string; otherwise
   * whether the last characters equal it.
   */
  function EndsWith(s: string, suffix: Value): (r: bool)
    ensures IsStringLike(suffix) && |StringOf(suffix)| > |s| ==> !r
    ensures r <==> IsStringLike(suffix) && exists u :: s == u + StringOf(suffix)
  {
    if !IsStringLike(suffix) then false
    else
      var t := StringOf(suffix);
      if |t| > |s| then false
      else
        var u := s[..|s| - |t|];
        assert s == u + t <==> s[|s| - |t|..] == t;
        if s[|s| - |t|..] == t then true
        else
          assert forall v :: s == v + t ==> v == u;
          false
  }

  /** contentEquals(other): exactly equal to a string or a StdString; false for anything else. */
  function ContentEquals(s: string, other: Value): (r: bool)
    ensures r <==> IsStringLike(other) && StringOf(other) == s
  {
    if !IsStringLike(other) then false else s == StringOf(other)
  }

  /** compareTo(other): strcmp against a string or a StdString, as -1, 0 or 1. */
  function CompareTo(s: string, other: Value): (r: Result<int>)
    ensures r.Ok? <==> IsStringLike(other)
    ensures r.Err? ==> r.error == TypeError
    ensures r.Ok? ==> r.value in {-1, 0, 1}
    ensures r.Ok? ==> (r.value == 0 <==> s == StringOf(other))
    ensures r.Ok? ==> r.value == StrCmp(s, StringOf(other))
  {
    if !IsStringLike(other) then Err(TypeError)
    else
      StrCmpSign(s, StringOf(other));
      Ok(StrCmp(s, StringOf(other)))
  }

  /** Comparing two strings either way round gives opposite signs. */
  lemma CompareToAntisymmetric(a: string, b: string)
    ensures CompareTo(a, Str(b)).Ok? && CompareTo(b, Str(a)).Ok?
    ensures CompareTo(a, Str(b)).value == -CompareTo(b, Str(a)).value
  {
    StrCmpSign(a, b);
  }

  // ---------------------------------------------------------------------------
  // valueOf

  /**
   * StdString::valueOf(value): the string form of an object that has one,
   * of a boolean ("true"/"false"), of a number or of a string; anything
   * else is refused.
   */
  function ValueOf(v: Value): (r: Result<string>)
    ensures r.Err? <==> v.Null? || v.List? || (v.Object? && v.kind.PlainObject? && v.kind.rendering.None?)
    ensures r.Err? ==> r.error == InvalidArgument
    ensures v.Str? ==> r == Ok(v.s)
    ensures v.Bool? ==> r == Ok(if v.b then "true" else "false")
    ensures v.Int? ==> r.Ok? && IsCanonicalIntString(r.value) && IntegerStringValue(r.value) == v.i
    ensures v.Int? ==> r == Ok(IntToString(v.i))
    ensures v.Float? ==> r == Ok(v.text)
    ensures v.Object? && (v.kind.CharacterObject? || v.kind.StdStringObject?) ==> r == Ok(v.kind.text)
    ensures v.Object? && v.kind.PlainObject? && v.kind.rendering.Some? ==> r == Ok(v.kind.rendering.value)
  {
    match v
    case Object(_, kind) =>
      (match kind
       case CharacterObject(t) => Ok(t)
       case StdStringObject(t) => Ok(t)
       case PlainObject(rendering) => if rendering.Some? then Ok(rendering.value) else Err(InvalidArgument))
    case Bool(b) => Ok(if b then "true" else "false")
    case Float(_, text) => Ok(text)
    case Int(i) => IntToStringRoundTrip(i); Ok(IntToString(i))
    case Str(s) => Ok(s)
    case _ => Err(InvalidArgument)
  }

  // ---------------------------------------------------------------------------
  // The object

  class StdString {
    var data: string

    constructor(s: string)
      ensures data == s
    {
      data := s;
    }

    /** `new StdString(arg)`; the Character list is read by AppendCharacters. */
    static method New(arg: Value) returns (r: Result<StdString>)
      ensures r.Ok? <==> Construct(arg).Ok?
      ensures r.Err? ==> r.error == InvalidArgument
      ensures r.Ok? ==> fresh(r.value) && r.value.data == Construct(arg).value
    {
      match arg {
        case Str(s) =>
          var o := new StdString(s);
          r := Ok(o);
        case Object(_, StdStringObject(t)) =>
          var o := new StdString(t);
          r := Ok(o);
        case List(elems) =>
          var d := AppendCharacters(elems);
          if d.Err? {
            return Err(d.error);
          }
          var o := new StdString(d.value);
          r := Ok(o);
        case _ =>
          r := Err(InvalidArgument);
      }
    }

    /**
     * offsetSet(offset, value): a negative or non-numeric offset warns and
     * changes nothing, except that building the warning raises for an object
     * offset without a string form; a value that is not a string raises a
     * TypeError; otherwise the value is spliced in at the offset.
     */
    method OffsetSet(offset: Value, value: Value) returns (err: Option<Error>)
      modifies this
      ensures HasNoStringForm(offset) ==> err == Some(StringConversion) && data == old(data)
      ensures !HasNoStringForm(offset) && (!IsNumeric(offset) || ToInt(offset) < 0) ==> err.None? && data == old(data)
      ensures IsNumeric(offset) && ToInt(offset) >= 0 && !value.Str? ==> err == Some(TypeError) && data == old(data)
      ensures IsNumeric(offset) && ToInt(offset) >= 0 && value.Str? ==>
                err.None? && data == Splice(old(data), ToInt(offset), value.s)
      ensures IsNumeric(offset) && ToInt(offset) >= 0 && value.Str? ==>
                |data| == Max(|old(data)|, ToInt(offset) + |value.s|)
    {
      if !IsNumeric(offset) || ToInt(offset) < 0 {
        if HasNoStringForm(offset) {
          return Some(StringConversion);
        }
        return None;
      }
      if !value.Str? {
        return Some(TypeError);
      }
      SpliceAt(data, ToInt(offset), value.s);
      data := Splice(data, ToInt(offset), value.s);
      err := None;
    }
  }
}
