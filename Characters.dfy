/**
 * The Character wrapper: a value holding at most one character, and the
 * static helpers that validate their arguments before looking at code
 * points. Every helper is a total function; a thrown exception is an `Err`.
 */
module Characters {
  import opened Host

  /** What a Character may hold: the empty string or a single character. */
  type CharData = s: string | |s| <= 1

  datatype Character = Character(data: CharData)

  /** `new Character(s)`: more than one character is refused. */
  function NewCharacter(s: string): (r: Result<Character>)
    ensures r.Ok? <==> |s| <= 1
    ensures r.Ok? ==> r.value.data == s
    ensures r.Err? ==> r.error == InvalidArgument
  {
    if |s| > 1 then Err(InvalidArgument) else Ok(Character(s))
  }

  /** The type test `Character|string`. */
  predicate IsCharLike(v: Value) {
    v.Str? || (v.Object? && v.kind.CharacterObject?)
  }

  /** `(string) v` for a Character or a string. */
  function CharLikeText(v: Value): string
    requires IsCharLike(v)
  {
    if v.Str? then v.s else v.kind.text
  }

  /** An argument the helpers accept: a Character or string of exactly one character. */
  predicate IsSingleChar(v: Value) {
    IsCharLike(v) && |CharLikeText(v)| == 1
  }

  /** The exception a rejected argument raises: a type error, or a wrong length. */
  function ArgumentError(v: Value): Error {
    if IsCharLike(v) then InvalidArgument else TypeError
  }

  /**
   * handleIncomingChar(...chars): checks the arguments in order and raises
   * for the first one that is not a single character.
   */
  function HandleIncomingChar(chars: seq<Value>): (r: Option<Error>)
    ensures r.None? <==> forall i :: 0 <= i < |chars| ==> IsSingleChar(chars[i])
    ensures r.Some? ==> exists i :: 0 <= i < |chars| && !IsSingleChar(chars[i])
                                    && (forall j :: 0 <= j < i ==> IsSingleChar(chars[j]))
                                    && r.value == ArgumentError(chars[i])
  {
    if chars == [] then None
    else if !IsSingleChar(chars[0]) then Some(ArgumentError(chars[0]))
    else
      var rest := HandleIncomingChar(chars[1..]);
      assert forall i :: 1 <= i < |chars| ==> chars[i] == chars[1..][i - 1];
      rest
  }

  // ---------------------------------------------------------------------------
  // charCount and UTF-16

  /** The UTF-16 encoding of a code point: one unit, or a surrogate pair. */
  function Utf16Units(c: char): (units: seq<int>)
    ensures forall i :: 0 <= i < |units| ==> 0 <= units[i] <= 0xFFFF
  {
    var cp := c as int;
    if cp <= 0xFFFF then [cp]
    else [0xD800 + (cp - 0x10000) / 0x400, 0xDC00 + (cp - 0x10000) % 0x400]
  }

  /** Reads a code point back from one UTF-16 unit or a surrogate pair. */
  function Utf16Decode(units: seq<int>): int
    requires |units| == 1 || |units| == 2
  {
    if |units| == 1 then units[0]
    else 0x10000 + (units[0] - 0xD800) * 0x400 + (units[1] - 0xDC00)
  }

  lemma Utf16RoundTrip(c: char)
    ensures |Utf16Units(c)| == 1 || |Utf16Units(c)| == 2
    ensures Utf16Decode(Utf16Units(c)) == c as int
  {
  }

  /**
   * charCount(char): the number of UTF-16 units the character needs, 2 for
   * a code point above 0xFFFF and 1 otherwise.
   */
  function CharCount(c: Value): (r: Result<int>)
    ensures r.Ok? <==> IsSingleChar(c)
    ensures r.Err? ==> r.error == ArgumentError(c)
    ensures r.Ok? ==> (r.value == 2 <==> CharLikeText(c)[0] as int > 0xFFFF)
    ensures r.Ok? ==> r.value == |Utf16Units(CharLikeText(c)[0])|
  {
    match HandleIncomingChar([c])
    case Some(e) => Err(e)
    case None => Ok(if CharLikeText(c)[0] as int > 0xFFFF then 2 else 1)
  }

  // ---------------------------------------------------------------------------
  // codePointAt and codePointBefore

  /** A StdString, the only character sequence of this library. */
  predicate IsCharSequence(v: Value) {
    v.Object? && v.kind.StdStringObject?
  }

  /** A Character array (whose first element is a Character) or a character sequence. */
  predicate IsCharSource(v: Value) {
    IsCharSequence(v)
    || (v.List? && |v.elems| > 0 && v.elems[0].Object? && v.elems[0].kind.CharacterObject?)
  }

  /** count($chars) or $chars->length(). */
  function SourceLength(v: Value): nat
    requires IsCharSource(v)
  {
    if v.List? then |v.elems| else |v.kind.text|
  }

  /** The argument checks of codePointAt on index and limit. */
  predicate IndexAccepted(v: Value, index: int, limit: Option<int>)
    requires IsCharSource(v)
  {
    0 <= index && (limit.Some? ==> 0 <= limit.value && index < limit.value <= SourceLength(v))
  }

  /**
   * Element `index` exists, is not an array, and its string form has a
   * first character to take the code point of: mb_convert_encoding casts
   * any other value to a string before unpack reads its first code point.
   */
  predicate HasCodePoint(v: Value, index: nat)
    requires IsCharSource(v)
  {
    if v.List? then
      index < |v.elems| && !v.elems[index].List?
      && StringCast(v.elems[index]).Ok? && |StringCast(v.elems[index]).value| > 0
    else index < |v.kind.text|
  }

  /** The code point of element `index`: the first character of its string form. */
  function CodePointOf(v: Value, index: nat): int
    requires IsCharSource(v) && HasCodePoint(v, index)
  {
    if v.List? then StringCast(v.elems[index]).value[0] as int else v.kind.text[index] as int
  }

  /** Element `index` of an array is an object without a string form, so the cast raises. */
  predicate ElementHasNoStringForm(v: Value, index: nat) {
    v.List? && index < |v.elems| && HasNoStringForm(v.elems[index])
  }

  /**
   * Character::codePointAt(chars, index, limit): the code point at `index`
   * of a Character array or a character sequence, after checking that the
   * source is one of those, that the index is not negative and, when a
   * limit is given, that index < limit <= length.
   */
  function CodePointAt(chars: Value, index: int, limit: Option<int>): (r: Result<int>)
    ensures r.Ok? <==> IsCharSource(chars) && IndexAccepted(chars, index, limit) && HasCodePoint(chars, index)
    ensures r.Ok? ==> r.value == CodePointOf(chars, index)
    ensures !IsCharSource(chars) ==> r == Err(InvalidArgument)
    ensures IsCharSource(chars) && !IndexAccepted(chars, index, limit) ==> r == Err(InvalidArgument)
    ensures IsCharSource(chars) && IndexAccepted(chars, index, limit) && ElementHasNoStringForm(chars, index) ==>
              r == Err(StringConversion)
    ensures IsCharSource(chars) && IndexAccepted(chars, index, limit) && !HasCodePoint(chars, index)
            && !ElementHasNoStringForm(chars, index) ==>
              r == Err(if chars.List? then TypeError else OutOfBounds)
  {
    if !IsCharSource(chars) then Err(InvalidArgument)
    else if index < 0 then Err(InvalidArgument)
    else if limit.Some? && (limit.value < 0 || index >= limit.value) then Err(InvalidArgument)
    else if limit.Some? && limit.value > SourceLength(chars) then Err(InvalidArgument)
    else if chars.List? then
      // a missing element reads as null, whose empty string form has no code point,
      // and unpack refuses an array; both leave null as the int result
      if index >= |chars.elems| || chars.elems[index].List? then Err(TypeError)
      else
        match StringCast(chars.elems[index])
        case Err(e) => Err(e)
        case Ok(t) => if |t| > 0 then Ok(t[0] as int) else Err(TypeError)
    else
      // $chars->charAt($index)
      if HasCodePoint(chars, index) then Ok(CodePointOf(chars, index)) else Err(OutOfBounds)
  }

  /**
   * Elements after the first Character of an array are cast to strings:
   * an integer, a StdString and true each give the code point of their
   * string form's first character.
   */
  lemma CodePointAtConvertedElements()
    ensures CodePointAt(List([Object(0, CharacterObject("a")), Int(5)]), 1, None) == Ok(53)
    ensures CodePointAt(List([Object(0, CharacterObject("a")), Object(1, StdStringObject("x"))]), 1, None) == Ok(120)
    ensures CodePointAt(List([Object(0, CharacterObject("a")), Bool(true)]), 1, None) == Ok(49)
    ensures CodePointAt(List([Object(0, CharacterObject("a")), Object(1, PlainObject(None))]), 1, None)
            == Err(StringConversion)
  {
  }

  /**
   * Character::codePointBefore(chars, index, start): the code point at
   * index - 1, refused when a start is given that is negative or not below
   * the index.
   */
  function CodePointBefore(chars: Value, index: int, start: Option<int>): (r: Result<int>)
    ensures start.Some? && (start.value < 0 || index <= start.value) ==> r == Err(InvalidArgument)
    ensures r.Ok? ==> index >= 1 && IsCharSource(chars) && HasCodePoint(chars, index - 1)
                      && r.value == CodePointOf(chars, index - 1)
    ensures (start.None? || 0 <= start.value < index) ==> r == CodePointAt(chars, index - 1, None)
  {
    if start.Some? && (start.value < 0 || index <= start.value) then Err(InvalidArgument)
    else CodePointAt(chars, index - 1, None)
  }

  // ---------------------------------------------------------------------------
  // Comparison and conversion

  /**
   * Character::compare(a, b): both must be single characters; then `<=>`
   * on the two one-character strings, which for a single character is the
   * order of code points.
   */
  function Compare(a: Value, b: Value): (r: Result<int>)
    ensures r.Ok? <==> IsSingleChar(a) && IsSingleChar(b)
    ensures r.Ok? ==> r.value in {-1, 0, 1}
    ensures r.Ok? ==> (r.value == 0 <==> CharLikeText(a) == CharLikeText(b))
    ensures r.Ok? ==> (r.value < 0 <==> CharLikeText(a)[0] < CharLikeText(b)[0])
  {
    assert [a, b][0] == a && [a, b][1] == b;
    match HandleIncomingChar([a, b])
    case Some(e) => Err(e)
    case None =>
      StrCmpSign(CharLikeText(a), CharLikeText(b));
      Ok(StrCmp(CharLikeText(a), CharLikeText(b)))
  }

  /**
   * $this->compareTo(char): the argument must be a single character; then
   * strcmp of this character's data with it.
   */
  function CompareTo(self: Character, c: Value): (r: Result<int>)
    ensures r.Ok? <==> IsSingleChar(c)
    ensures r.Err? ==> r.error == ArgumentError(c)
    ensures r.Ok? ==> r.value in {-1, 0, 1}
    ensures r.Ok? ==> (r.value == 0 <==> self.data == CharLikeText(c))
    ensures r.Ok? ==> r.value == StrCmp(self.data, CharLikeText(c))
  {
    match HandleIncomingChar([c])
    case Some(e) => Err(e)
    case None =>
      StrCmpSign(self.data, CharLikeText(c));
      Ok(StrCmp(self.data, CharLikeText(c)))
  }

  /** Character::valueOf(char): a string or a Character becomes a new Character. */
  function ValueOf(c: Value): (r: Result<Character>)
    ensures r.Ok? <==> IsCharLike(c) && |CharLikeText(c)| <= 1
    ensures r.Ok? ==> r.value.data == CharLikeText(c)
    ensures !IsCharLike(c) ==> r == Err(InvalidArgument)
    ensures r.Err? ==> r.error == InvalidArgument
  {
    if IsCharLike(c) then NewCharacter(CharLikeText(c)) else Err(InvalidArgument)
  }
}
