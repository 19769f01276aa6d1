/**
 * The host-language values and built-in string functions that the string,
 * character and map wrappers lean on: dynamically typed values, the
 * numeric-string rules, byte-order string comparison, character-based
 * slicing (mb_substr) and search (mb_strpos).
 *
 * Strings are sequences of code points. The host's strings are UTF-8 bytes,
 * and its multibyte functions count code points, so slicing and searching
 * below count characters exactly as they do.
 */
module Host {

  /**
   * The exceptions the library raises: its own InvalidArgument and
   * OutOfBounds, the host's TypeError, and the recoverable fatal error the
   * host raises when an object without a string form is used as a string.
   */
  datatype Error = InvalidArgument | OutOfBounds | TypeError | StringConversion

  datatype Option<+T> = None | Some(value: T)

  /** A value, or the exception that was raised instead. */
  datatype Result<+T> = Ok(value: T) | Err(error: Error)

  /**
   * What an object is; its identity is the `id` of the enclosing value.
   * A Character object is seen from outside by its text only; the
   * Character value itself, with at most one character, is
   * Characters.Character, and CharacterObject is how that value appears
   * among host values.
   */
  datatype ObjectKind =
    | CharacterObject(text: string)    // a Character wrapper holding `text`
    | StdStringObject(text: string)    // a StdString wrapper holding `text`
    | PlainObject(rendering: Option<string>)  // any other object; Some(t) if its __toString gives t

  /**
   * A dynamically typed host value. A float is carried by the two facts the
   * wrappers use: its integer part (what an (int) cast yields) and its
   * decimal rendering (what a (string) cast yields). Arrays are lists.
   */
  datatype Value =
    | Null
    | Bool(b: bool)
    | Int(i: int)
    | Float(whole: int, text: string)
    | Str(s: string)
    | List(elems: seq<Value>)
    | Object(id: nat, kind: ObjectKind)

  /** The type test `string|StdString` that most string operations apply to their argument. */
  predicate IsStringLike(v: Value) {
    v.Str? || (v.Object? && v.kind.StdStringObject?)
  }

  /** `(string) v` raises: an object that has no __toString. */
  predicate HasNoStringForm(v: Value) {
    v.Object? && v.kind.PlainObject? && v.kind.rendering.None?
  }

  /** `(string) v` for a string-like value. */
  function StringOf(v: Value): (r: string)
    requires IsStringLike(v)
    ensures v.Str? ==> r == v.s
  {
    if v.Str? then v.s else v.kind.text
  }

  // ---------------------------------------------------------------------------
  // Decimal digits and integer strings

  predicate IsDigit(c: char) {
    '0' <= c <= '9'
  }

  predicate AllDigits(s: string) {
    forall i :: 0 <= i < |s| ==> IsDigit(s[i])
  }

  function DigitValue(c: char): (d: nat)
    requires IsDigit(c)
    ensures d < 10
  {
    (c as int) - ('0' as int)
  }

  function DigitChar(d: nat): (c: char)
    requires d < 10
    ensures IsDigit(c) && DigitValue(c) == d
  {
    (('0' as int) + d) as char
  }

  /** The number a string of decimal digits denotes, most significant first. */
  function DigitsValue(s: string): nat
    requires AllDigits(s)
  {
    if s == [] then 0 else 10 * DigitsValue(s[..|s| - 1]) + DigitValue(s[|s| - 1])
  }

  /** Decimal rendering of a natural number, without leading zeros. */
  function NatToString(n: nat): string
  {
    if n < 10 then [DigitChar(n)] else NatToString(n / 10) + [DigitChar(n % 10)]
  }

  /** `(string) i` for an integer. */
  function IntToString(i: int): string
  {
    if i < 0 then "-" + NatToString(-i) else NatToString(i)
  }

  /** Digits with no superfluous leading zero. */
  predicate IsCanonicalDigits(s: string) {
    |s| > 0 && AllDigits(s) && (|s| > 1 ==> s[0] != '0')
  }

  /**
   * An integer written the way the host renders it: "0", "123", "-45",
   * but not "+1", "007" or "-0". These are the strings that an array key
   * turns into the integer they denote.
   */
  predicate IsCanonicalIntString(s: string) {
    if |s| > 0 && s[0] == '-' then IsCanonicalDigits(s[1..]) && s[1..] != "0"
    else IsCanonicalDigits(s)
  }

  /** An optional sign followed by at least one digit: the integer forms of is_numeric. */
  predicate IsIntegerString(s: string) {
    if |s| > 0 && (s[0] == '-' || s[0] == '+') then |s| > 1 && AllDigits(s[1..])
    else |s| > 0 && AllDigits(s)
  }

  /** The integer an integer string denotes (the (int) cast). */
  function IntegerStringValue(s: string): int
    requires IsIntegerString(s)
  {
    if s[0] == '-' then -(DigitsValue(s[1..]) as int)
    else if s[0] == '+' then DigitsValue(s[1..])
    else DigitsValue(s)
  }

  lemma {:induction false} NatToStringIsCanonical(n: nat)
    ensures IsCanonicalDigits(NatToString(n))
    ensures DigitsValue(NatToString(n)) == n
  {
    if n >= 10 {
      NatToStringIsCanonical(n / 10);
      var t := NatToString(n / 10);
      var s := t + [DigitChar(n % 10)];
      assert s[..|s| - 1] == t;
      assert s[0] == t[0];
    }
  }

  lemma {:induction false} LeadingNonZeroIsPositive(s: string)
    requires IsCanonicalDigits(s) && s[0] != '0'
    ensures DigitsValue(s) >= 1
  {
    if |s| > 1 {
      var t := s[..|s| - 1];
      assert t[0] == s[0];
      LeadingNonZeroIsPositive(t);
    }
  }

  lemma {:induction false} CanonicalDigitsRoundTrip(s: string)
    requires IsCanonicalDigits(s)
    ensures NatToString(DigitsValue(s)) == s
  {
    if |s| > 1 {
      var t := s[..|s| - 1];
      assert t[0] == s[0];
      LeadingNonZeroIsPositive(t);
      CanonicalDigitsRoundTrip(t);
      var d := DigitValue(s[|s| - 1]);
      assert DigitsValue(s) == 10 * DigitsValue(t) + d;
      assert DigitChar(d) == s[|s| - 1];
      assert s == t + [s[|s| - 1]];
    } else {
      assert s == [DigitChar(DigitValue(s[0]))];
    }
  }

  /** Rendering an integer and reading it back gives the integer; the rendering is canonical. */
  lemma IntToStringRoundTrip(i: int)
    ensures IsCanonicalIntString(IntToString(i))
    ensures IsIntegerString(IntToString(i))
    ensures IntegerStringValue(IntToString(i)) == i
  {
    var n: nat := if i < 0 then -i else i;
    NatToStringIsCanonical(n);
    var t := NatToString(n);
    if i < 0 {
      var s := "-" + t;
      assert s[1..] == t;
    } else {
      assert t[0] != '-' && t[0] != '+';
    }
  }

  /**
   * `(string) v` for a value that is not an array: null and false give "",
   * true gives "1", an integer its decimal rendering, a float its rendering,
   * an object its text or its __toString; an object without __toString
   * raises.
   */
  function StringCast(v: Value): (r: Result<string>)
    requires !v.List?
    ensures r.Err? <==> HasNoStringForm(v)
    ensures r.Err? ==> r.error == StringConversion
    ensures IsStringLike(v) ==> r == Ok(StringOf(v))
    ensures v.Object? && v.kind.CharacterObject? ==> r == Ok(v.kind.text)
    ensures v.Object? && v.kind.PlainObject? && v.kind.rendering.Some? ==> r == Ok(v.kind.rendering.value)
    ensures v.Float? ==> r == Ok(v.text)
    ensures v.Int? ==> r.Ok? && IsCanonicalIntString(r.value) && IntegerStringValue(r.value) == v.i
    ensures v.Null? || v == Bool(false) ==> r == Ok("")
    ensures v == Bool(true) ==> r == Ok("1")
  {
    match v
    case Null => Ok("")
    case Bool(b) => Ok(if b then "1" else "")
    case Int(i) => IntToStringRoundTrip(i); Ok(IntToString(i))
    case Float(_, text) => Ok(text)
    case Str(s) => Ok(s)
    case Object(_, kind) =>
      match kind
      case CharacterObject(text) => Ok(text)
      case StdStringObject(text) => Ok(text)
      case PlainObject(rendering) =>
        if rendering.Some? then Ok(rendering.value) else Err(StringConversion)
  }

  /** A canonical integer string is the rendering of the integer it denotes. */
  lemma CanonicalIntStringRoundTrip(s: string)
    requires IsCanonicalIntString(s)
    ensures IsIntegerString(s)
    ensures IntToString(IntegerStringValue(s)) == s
  {
    if s[0] == '-' {
      var t := s[1..];
      CanonicalDigitsRoundTrip(t);
      if |t| > 1 {
        LeadingNonZeroIsPositive(t);
      } else {
        assert DigitsValue(t) == DigitValue(t[0]);
      }
      assert s == "-" + t;
    } else {
      CanonicalDigitsRoundTrip(s);
    }
  }

  // ---------------------------------------------------------------------------
  // is_numeric and the (int) cast

  /**
   * is_numeric: integers and floats, and strings in integer form.
   * (Leading whitespace, fractions and exponents in strings are not modelled.)
   */
  predicate IsNumeric(v: Value) {
    v.Int? || v.Float? || (v.Str? && IsIntegerString(v.s))
  }

  /** `(int) v` for a numeric value. */
  function ToInt(v: Value): int
    requires IsNumeric(v)
  {
    match v
    case Int(i) => i
    case Float(whole, _) => whole
    case Str(s) => IntegerStringValue(s)
  }

  // ---------------------------------------------------------------------------
  // strcmp

  /**
   * `strcmp(a, b) <=> 0`: -1, 0 or 1 by lexicographic order. Over UTF-8
   * bytes this is the lexicographic order of code points, since UTF-8
   * encoding preserves the order of code points.
   */
  function StrCmp(a: string, b: string): int
  {
    if a == [] && b == [] then 0
    else if a == [] then -1
    else if b == [] then 1
    else if a[0] < b[0] then -1
    else if a[0] > b[0] then 1
    else StrCmp(a[1..], b[1..])
  }

  lemma {:induction false} StrCmpSign(a: string, b: string)
    ensures StrCmp(a, b) in {-1, 0, 1}
    ensures StrCmp(a, b) == 0 <==> a == b
    ensures StrCmp(b, a) == -StrCmp(a, b)
  {
    if a != [] && b != [] && a[0] == b[0] {
      StrCmpSign(a[1..], b[1..]);
      assert a == [a[0]] + a[1..] && b == [b[0]] + b[1..];
    }
  }

  lemma {:induction false} StrCmpTransitive(a: string, b: string, c: string)
    requires StrCmp(a, b) <= 0 && StrCmp(b, c) <= 0
    ensures StrCmp(a, c) <= 0
  {
    if a != [] && b != [] && c != [] && a[0] == b[0] == c[0] {
      StrCmpTransitive(a[1..], b[1..], c[1..]);
    }
  }

  // ---------------------------------------------------------------------------
  // mb_substr and mb_strpos, counting characters

  /**
   * mb_substr(s, start, length): a negative start counts from the end; a
   * missing length means "to the end"; a negative length leaves that many
   * characters off the end.
   */
  function MbSubstr(s: string, start: int, length: Option<int>): (r: string)
    ensures |r| <= |s|
    ensures 0 <= start <= |s| && length.Some? && length.value >= 0 ==>
              |r| == Min(length.value, |s| - start) &&
              forall i :: 0 <= i < |r| ==> r[i] == s[start + i]
    ensures 0 <= start <= |s| && length.None? ==> r == s[start..]
    ensures start >= |s| ==> r == []
    ensures 0 <= start && length.Some? && 0 <= length.value && start + length.value <= |s| ==>
              r == s[start..start + length.value]
    ensures 0 <= start <= |s| && length.Some? && length.value < 0 ==>
              r == s[start..Max(start, |s| + length.value)]
  {
    var from := if start >= 0 then Min(start, |s|) else Max(0, |s| + start);
    var to :=
      match length
      case None => |s|
      case Some(n) => if n >= 0 then Min(from + n, |s|) else Max(from, |s| + n);
    s[from..to]
  }

  function Min(a: int, b: int): int { if a <= b then a else b }

  function Max(a: int, b: int): int { if a >= b then a else b }

  /** `needle` occurs in `hay` at position `p`. */
  predicate OccursAt(hay: string, needle: string, p: int) {
    0 <= p && p + |needle| <= |hay| && hay[p..p + |needle|] == needle
  }

  /** The first occurrence of `needle` in `hay` at or after `from`. */
  function FirstOccurrence(hay: string, needle: string, from: nat): (r: Option<nat>)
    decreases |hay| - from
    ensures r.Some? ==> from <= r.value && OccursAt(hay, needle, r.value)
    ensures r.Some? ==> forall p :: from <= p < r.value ==> !OccursAt(hay, needle, p)
    ensures r.None? ==> forall p :: from <= p ==> !OccursAt(hay, needle, p)
  {
    if from + |needle| > |hay| then None
    else if hay[from..from + |needle|] == needle then Some(from)
    else FirstOccurrence(hay, needle, from + 1)
  }

  /**
   * mb_strpos(hay, needle, offset): a negative offset counts from the end.
   * An empty needle, or an offset outside the string, gives a warning and
   * false (None).
   */
  function MbStrpos(hay: string, needle: string, offset: int): (r: Option<nat>)
    ensures r.Some? ==> needle != [] && OccursAt(hay, needle, r.value)
    ensures r.Some? ==> (offset >= 0 ==> r.value >= offset) && (offset < 0 ==> r.value >= |hay| + offset)
    ensures needle == [] || offset > |hay| || |hay| + offset < 0 ==> r.None?
    ensures needle != [] && 0 <= offset <= |hay| ==> r == FirstOccurrence(hay, needle, offset)
    ensures needle != [] && offset < 0 && |hay| + offset >= 0 ==> r == FirstOccurrence(hay, needle, |hay| + offset)
  {
    var from := if offset >= 0 then offset else |hay| + offset;
    if needle == [] || from < 0 || offset > |hay| then None
    else FirstOccurrence(hay, needle, from)
  }
}
