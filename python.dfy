/**
 * The Python built-ins the server's validation chain applies to a parsed
 * JSON body: truthiness, `in`, subscripting with a string key, `int()` and
 * the `repr` that `int()` quotes in its error message, each with the
 * exception it raises.
 */
module Python {
  import opened Wrappers
  import opened Text
  import opened Json

  /** An exception: its class (as far as the handlers tell classes apart) and `str(e)`. */
  datatype PyError =
    | JSONDecodeError(message: string)
    | ValueError(message: string)
    | TypeError(message: string)
    | KeyError(message: string)
    | OtherError(message: string)
  {
    /** `str(e)` */
    function Message(): string {
      match this
      case JSONDecodeError(m) => m
      case ValueError(m) => m
      case TypeError(m) => m
      case KeyError(m) => m
      case OtherError(m) => m
    }
  }

  /** The Python type of a parsed JSON value. */
  function TypeName(v: Value): string {
    match v
    case Null => "NoneType"
    case Bool(_) => "bool"
    case Num(_) => "int"
    case Str(_) => "str"
    case Arr(_) => "list"
    case Obj(_) => "dict"
  }

  /** `bool(v)`: `None`, `False`, `0` and empty containers are false, and
      nothing else is. */
  predicate Truthy(v: Value)
    ensures !Truthy(v) <==> v in {Null, Bool(false), Num(0), Str([]), Arr([]), Obj(map[])}
  {
    match v
    case Null => false
    case Bool(b) => b
    case Num(n) => n != 0
    case Str(s) => s != []
    case Arr(items) => items != []
    case Obj(fields) => fields != map[]
  }

  /** `key in v`: a dict's keys, a list's elements, a string's substrings;
      other types are not iterable. On a dict, `in` holds exactly when
      subscripting with the key succeeds. */
  function Contains(v: Value, key: string): (r: Result<bool, PyError>)
    ensures r.Failure? <==> !(v.Obj? || v.Arr? || v.Str?)
    ensures r.Failure? ==> r.error.TypeError?
    ensures v.Obj? ==> (r == Success(true) <==> Index(v, key).Success?)
    ensures v.Arr? ==> (r == Success(true) <==> Str(key) in v.items)
  {
    match v
    case Obj(fields) => Success(key in fields)
    case Arr(items) => Success(Str(key) in items)
    case Str(s) => Success(IsSubstring(key, s))
    case _ => Failure(TypeError("argument of type '" + TypeName(v) + "' is not iterable"))
  }

  /** `key` occurs in `s` at some position. */
  predicate IsSubstring(key: string, s: string) {
    key <= s || (s != [] && IsSubstring(key, s[1..]))
  }

  /** `v[key]`: a dict's value under the key; a dict without it raises a
      KeyError, and every other type a TypeError. */
  function Index(v: Value, key: string): (r: Result<Value, PyError>)
    ensures r.Success? <==> v.Obj? && key in v.fields
    ensures r.Success? ==> r.value == v.fields[key]
    ensures r.Failure? ==> (r.error.KeyError? <==> v.Obj?)
    ensures r.Failure? ==> r.error.KeyError? || r.error.TypeError?
  {
    match v
    case Obj(fields) =>
      if key in fields then Success(fields[key]) else Failure(KeyError(Repr(key)))
    case Arr(_) => Failure(TypeError("list indices must be integers or slices, not str"))
    case Str(_) => Failure(TypeError("string indices must be integers, not 'str'"))
    case _ => Failure(TypeError("'" + TypeName(v) + "' object is not subscriptable"))
  }

  /** The characters `int()` strips around a literal: the ASCII whitespace
      tab, line feed, vertical tab, form feed, carriage return and space, and
      the non-ASCII characters `str.isspace` accepts (which `int()` first
      turns into spaces). The separators U+001C to U+001F, though
      `str.isspace` accepts them, stay in place and make the literal invalid. */
  predicate IsIntSpace(c: char) {
    || ('\t' <= c <= '\r') || c == ' '
    || c == '\U{0085}' || c == '\U{00A0}' || c == '\U{1680}'
    || ('\U{2000}' <= c <= '\U{200A}')
    || c == '\U{2028}' || c == '\U{2029}' || c == '\U{202F}' || c == '\U{205F}' || c == '\U{3000}'
  }

  /** Decimal digits, single underscores allowed between two digits: a
      digit, then each further digit with at most one underscore before it. */
  predicate IsDigitRun(b: string)
    decreases |b|
  {
    && b != [] && IsDigit(b[0])
    && (|b| == 1 || if b[1] == '_' then IsDigitRun(b[2..]) else IsDigitRun(b[1..]))
  }

  /** The digits of a run, underscores dropped. */
  function DigitsOf(b: string): (ds: string)
    requires IsDigitRun(b)
    ensures ds != [] && forall i :: 0 <= i < |ds| ==> IsDigit(ds[i])
    decreases |b|
  {
    if |b| == 1 then [b[0]]
    else if b[1] == '_' then [b[0]] + DigitsOf(b[2..])
    else [b[0]] + DigitsOf(b[1..])
  }

  /** What `int(s)` accepts of a string: optional surrounding whitespace, an
      optional sign, then a digit run. */
  function ParseIntLiteral(s: string): Option<int> {
    ParseSigned(Trim(s, IsIntSpace))
  }

  /** An optional sign followed by a digit run. */
  function ParseSigned(t: string): Option<int> {
    if t != [] && t[0] == '-' then
      match ParseUnsigned(t[1..])
      case Some(n) => Some(-n)
      case None => None
    else if t != [] && t[0] == '+' then ParseUnsigned(t[1..])
    else ParseUnsigned(t)
  }

  /** The value of a digit run. */
  function ParseUnsigned(b: string): Option<int> {
    if IsDigitRun(b) then Some(DecimalValue(DigitsOf(b))) else None
  }

  const InvalidLiteralPrefix := "invalid literal for int() with base 10: "

  /** How much of the `repr` of a refused literal its ValueError quotes
      (the `%.200R` of CPython's message). */
  const ReprLimit := 200

  /** The first `n` characters of `s`, or all of `s` if it is shorter. */
  function Clip(s: string, n: nat): (r: string)
    ensures r <= s
    ensures |r| == if |s| <= n then |s| else n
  {
    if |s| <= n then s else s[..n]
  }

  /** `int(v)`: integers as they are, booleans as 1 and 0, strings holding
      an integer literal as its value. A refused string raises a ValueError
      quoting at most `ReprLimit` characters of its `repr`; any other type
      raises a TypeError. */
  function ToInt(v: Value): (r: Result<int, PyError>)
    ensures r.Success? <==> v.Num? || v.Bool? || (v.Str? && ParseIntLiteral(v.s).Some?)
    ensures v.Num? ==> r == Success(v.n)
    ensures r.Failure? ==> (r.error.ValueError? <==> v.Str?)
    ensures r.Failure? ==> r.error.ValueError? || r.error.TypeError?
    ensures r.Failure? && v.Str? ==>
              && InvalidLiteralPrefix <= r.error.message
              && |r.error.message| <= |InvalidLiteralPrefix| + ReprLimit
  {
    match v
    case Num(n) => Success(n)
    case Bool(b) => Success(if b then 1 else 0)
    case Str(s) =>
      (match ParseIntLiteral(s)
       case Some(n) => Success(n)
       case None => Failure(ValueError(InvalidLiteralPrefix + Clip(Repr(s), ReprLimit))))
    case _ =>
      Failure(TypeError("int() argument must be a string, a bytes-like object or a real number, not '"
                        + TypeName(v) + "'"))
  }

  function HexDigit(d: nat): char
    requires d < 16
  {
    if d < 10 then DigitChar(d) else ('a' as int + d - 10) as char
  }

  /** One character as `repr` writes it inside quotes `q`. */
  function ReprChar(c: char, q: char): string {
    if c == '\\' then "\\\\"
    else if c == q then ['\\', q]
    else if c == '\n' then "\\n"
    else if c == '\r' then "\\r"
    else if c == '\t' then "\\t"
    else if c < ' ' || c == '\U{007F}' then
      var code := c as int;
      ['\\', 'x', HexDigit(code / 16), HexDigit(code % 16)]
    else [c]
  }

  function ReprBody(s: string, q: char): string {
    if s == [] then [] else ReprChar(s[0], q) + ReprBody(s[1..], q)
  }

  /** `repr(s)`: single quotes unless `s` holds a single quote and no double
      quote, with the quote, the backslash and ASCII control characters escaped. */
  function Repr(s: string): string {
    var q := if '\'' in s && '"' !in s then '"' else '\'';
    [q] + ReprBody(s, q) + [q]
  }

  /** Printable ASCII other than the quotes and the backslash: `repr`
      writes it unchanged. */
  predicate IsPlain(c: char) {
    ' ' <= c < '\U{007F}' && c != '\\' && c != '\'' && c != '"'
  }

  /** `repr` of plain text is the text between single quotes. */
  lemma PlainRepr(s: string)
    requires forall i :: 0 <= i < |s| ==> IsPlain(s[i])
    ensures Repr(s) == "'" + s + "'"
  {
    assert '\'' !in s by {
      forall i | 0 <= i < |s| ensures s[i] != '\'' { assert IsPlain(s[i]); }
    }
    PlainReprBody(s);
  }

  lemma {:induction false} PlainReprBody(s: string)
    requires forall i :: 0 <= i < |s| ==> IsPlain(s[i])
    ensures ReprBody(s, '\'') == s
  {
    if s != [] {
      assert IsPlain(s[0]);
      PlainReprBody(s[1..]);
      assert [s[0]] + s[1..] == s;
    }
  }

  /** A word is not a number: `int()` raises a ValueError that quotes it. */
  lemma WordIsNotInt()
    ensures ToInt(Str("two")) == Failure(ValueError(InvalidLiteralPrefix + "'two'"))
  {
    assert Repr("two") == "'two'" by { PlainRepr("two"); }
    assert Clip("'two'", ReprLimit) == "'two'";
    assert ParseIntLiteral("two") == None by {
      assert Trim("two", IsIntSpace) == "two" by { NoSpaceNoTrim("two"); }
      assert !IsDigit('t');
    }
  }

  /** `int()` strips the whitespace around a number. */
  lemma SpacedNumberIsInt()
    ensures ToInt(Str(" 2 ")) == Success(2)
  {
    assert Trim(" 2 ", IsIntSpace) == "2" by {
      assert LeadingSpaces(" 2 ", IsIntSpace) == 1;
      assert SpanEnd(" 2 ", 1, 3, IsIntSpace) == 2;
    }
    assert ParseSigned("2") == Some(2) by {
      assert IsDigitRun("2");
      assert DigitsOf("2") == "2";
      assert DecimalValue("2") == 2;
    }
  }

  /** `int()` does not strip the ASCII separator U+001C: the literal is
      refused. */
  lemma SeparatorIsNotStripped()
    ensures ToInt(Str("\U{001C}2")).Failure?
  {
    assert Trim("\U{001C}2", IsIntSpace) == "\U{001C}2" by { NoSpaceNoTrim("\U{001C}2"); }
    assert !IsDigit('\U{001C}');
  }

  /** `int(str(n)) == n` */
  lemma {:induction false} ParseIntRoundTrip(n: int)
    ensures ParseIntLiteral(IntToString(n)) == Some(n)
  {
    if n < 0 {
      ParseNegative(n);
    } else {
      ParseNatural(n);
    }
  }

  lemma {:induction false} ParseNatural(n: nat)
    ensures ParseIntLiteral(IntToString(n)) == Some(n)
  {
    var digits := NatToString(n);
    NoSpaceNoTrim(digits);
    assert digits[0] != '+' && digits[0] != '-';
    DigitsOfNat(n);
  }

  lemma {:induction false} ParseNegative(n: int)
    requires n < 0
    ensures ParseIntLiteral(IntToString(n)) == Some(n)
  {
    var s := IntToString(n);
    var digits := NatToString(-n);
    assert s[0] == '-' && s[1..] == digits && s[|s| - 1] == digits[|digits| - 1];
    DigitsOfNat(-n);
    MinusLiteral(s, digits, -n);
  }

  /** A minus sign before a digit run, with no space after it, reads as
      the run's value negated. */
  lemma MinusLiteral(s: string, digits: string, m: int)
    requires s != [] && s[0] == '-' && s[1..] == digits && !IsIntSpace(s[|s| - 1])
    requires ParseUnsigned(digits) == Some(m)
    ensures ParseIntLiteral(s) == Some(-m)
  {
    NoSpaceParse(s);
    SignedMinus(s, digits);
  }

  /** A leading minus sign negates the value of the digit run after it. */
  lemma SignedMinus(t: string, digits: string)
    requires t != [] && t[0] == '-' && t[1..] == digits
    ensures ParseSigned(t) == match ParseUnsigned(digits) case Some(v) => Some(-v) case None => None
  {
  }

  /** The decimal digits of `m` read back as `m`. */
  lemma {:induction false} DigitsOfNat(m: nat)
    ensures ParseUnsigned(NatToString(m)) == Some(m)
  {
    NoUnderscores(NatToString(m));
    NatToStringRoundTrip(m);
  }

  /** A string of plain digits is its own digit run. */
  lemma {:induction false} NoUnderscores(ds: string)
    requires ds != [] && forall i :: 0 <= i < |ds| ==> IsDigit(ds[i])
    ensures IsDigitRun(ds) && DigitsOf(ds) == ds
  {
    if |ds| > 1 {
      NoUnderscores(ds[1..]);
      assert [ds[0]] + ds[1..] == ds;
    }
  }

  /** `int()` strips nothing from a string that neither starts nor ends
      with a space. */
  lemma NoSpaceParse(s: string)
    requires s != [] && !IsIntSpace(s[0]) && !IsIntSpace(s[|s| - 1])
    ensures ParseIntLiteral(s) == ParseSigned(s)
  {
    NoSpaceNoTrim(s);
  }

  /** A string that neither starts nor ends with a space trims to itself. */
  lemma NoSpaceNoTrim(s: string)
    requires s != [] && !IsIntSpace(s[0]) && !IsIntSpace(s[|s| - 1])
    ensures Trim(s, IsIntSpace) == s
  {
    assert LeadingSpaces(s, IsIntSpace) == 0;
    assert s[0..] == s;
    assert SpanEnd(s, 0, |s|, IsIntSpace) == |s|;
  }
}
