/**
 * The string operations both ends rely on: trimming by a whitespace class
 * (JavaScript's `trim`, and the whitespace `int()` skips around a literal),
 * ASCII lower-casing (JavaScript's `toLowerCase`), `Array.prototype.join`,
 * and decimal rendering of integers.
 */
module Text {

  /** The characters JavaScript's `String.prototype.trim` removes: the WhiteSpace
      and LineTerminator code points of ECMAScript (tab, vertical tab, form feed,
      space, no-break space, byte order mark, the Zs space separators, LF, CR,
      line separator, paragraph separator). */
  predicate IsJsSpace(c: char) {
    || c == '\t' || c == '\U{000B}' || c == '\U{000C}' || c == ' '
    || c == '\U{00A0}' || c == '\U{FEFF}' || c == '\U{1680}'
    || ('\U{2000}' <= c <= '\U{200A}')
    || c == '\U{202F}' || c == '\U{205F}' || c == '\U{3000}'
    || c == '\n' || c == '\r' || c == '\U{2028}' || c == '\U{2029}'
  }

  predicate AllSpace(s: string, isSpace: char -> bool) {
    forall i :: 0 <= i < |s| ==> isSpace(s[i])
  }

  /** Neither end of `s` is a space. */
  predicate IsTrimmed(s: string, isSpace: char -> bool) {
    s == [] || (!isSpace(s[0]) && !isSpace(s[|s| - 1]))
  }

  /** How many spaces `s` starts with: a prefix of spaces, followed by a
      non-space or the end. */
  function LeadingSpaces(s: string, isSpace: char -> bool): (n: nat)
    ensures n <= |s| && forall i :: 0 <= i < n ==> isSpace(s[i])
    ensures n < |s| ==> !isSpace(s[n])
    decreases |s|
  {
    if s != [] && isSpace(s[0]) then 1 + LeadingSpaces(s[1..], isSpace) else 0
  }
  /** Where the spaces that end `s[lo..hi]` begin: only spaces from there to
      `hi`, preceded by a non-space or by `lo`. */
  function SpanEnd(s: string, lo: nat, hi: nat, isSpace: char -> bool): (e: nat)
    requires lo <= hi <= |s|
    ensures lo <= e <= hi
    ensures forall i :: e <= i < hi ==> isSpace(s[i])
    ensures lo < e ==> !isSpace(s[e - 1])
    decreases hi - lo
  {
    if lo < hi && isSpace(s[hi - 1]) then SpanEnd(s, lo, hi - 1, isSpace) else hi
  }

  /** `s` with the spaces at both ends removed: the trimmed middle of `s`,
      found at offset `k`, with only spaces before and after it; it is empty
      exactly when `s` is all space. */
  function Trim(s: string, isSpace: char -> bool): (r: string)
    ensures IsTrimmed(r, isSpace)
    ensures r == [] <==> AllSpace(s, isSpace)
    ensures var k := LeadingSpaces(s, isSpace);
            && k + |r| <= |s| && r == s[k..k + |r|]
            && (forall i :: 0 <= i < k ==> isSpace(s[i]))
            && (forall i :: k + |r| <= i < |s| ==> isSpace(s[i]))
  {
    var k := LeadingSpaces(s, isSpace);
    var e := SpanEnd(s, k, |s|, isSpace);
    assert k < e ==> s[k..e][0] == s[k] && s[k..e][e - k - 1] == s[e - 1];
    s[k..e]
  }

  /** JavaScript's `String.prototype.trim`. */
  function JsTrim(s: string): string {
    Trim(s, IsJsSpace)
  }

  predicate IsUpperAscii(c: char) {
    'A' <= c <= 'Z'
  }

  /** JavaScript's `toLowerCase` on one character, for the ASCII letters. */
  function LowerChar(c: char): char {
    if IsUpperAscii(c) then (c as int + 32) as char else c
  }

  predicate IsLowerCase(s: string) {
    forall i :: 0 <= i < |s| ==> !IsUpperAscii(s[i])
  }

  /** JavaScript's `toLowerCase`: maps every character through `LowerChar`;
      no upper-case letter is left. */
  function ToLower(s: string): (r: string)
    ensures |r| == |s|
    ensures forall i :: 0 <= i < |s| ==> r[i] == LowerChar(s[i])
    ensures IsLowerCase(r)
  {
    if s == [] then [] else [LowerChar(s[0])] + ToLower(s[1..])
  }

  /** Lower-casing keeps a trimmed string trimmed: it maps a space to itself
      and a non-space to a non-space. */
  lemma LowerKeepsTrim(t: string)
    requires IsTrimmed(t, IsJsSpace)
    ensures IsTrimmed(ToLower(t), IsJsSpace)
  {
    var r := ToLower(t);
    if r != [] {
      assert r[0] == LowerChar(t[0]) && r[|r| - 1] == LowerChar(t[|t| - 1]);
    }
  }

  /** `Array.prototype.join(sep)` on an array of strings. */
  function Join(xs: seq<string>, sep: string): string {
    if xs == [] then []
    else if |xs| == 1 then xs[0]
    else xs[0] + sep + Join(xs[1..], sep)
  }

  /** Cuts `s` at every ", ". */
  function SplitCommaSpace(s: string): (r: seq<string>)
    ensures |r| >= 1
    decreases |s|
  {
    if s == [] then [[]]
    else if |s| >= 2 && s[0] == ',' && s[1] == ' ' then [[]] + SplitCommaSpace(s[2..])
    else
      var rest := SplitCommaSpace(s[1..]);
      [[s[0]] + rest[0]] + rest[1..]
  }

  /** A comma-free piece followed by ", " splits off as one entry. */
  lemma {:induction false} SplitLeading(x: string, t: string)
    requires ',' !in x
    ensures SplitCommaSpace(x + ", " + t) == [x] + SplitCommaSpace(t)
    decreases |x|
  {
    if x == [] {
      assert (x + ", " + t)[2..] == t;
    } else {
      SplitLeading(x[1..], t);
      assert (x + ", " + t)[1..] == x[1..] + ", " + t;
      assert [x[0]] + x[1..] == x;
    }
  }

  /** A comma-free string does not split. */
  lemma {:induction false} SplitWhole(x: string)
    requires ',' !in x
    ensures SplitCommaSpace(x) == [x]
    decreases |x|
  {
    if x != [] {
      SplitWhole(x[1..]);
      assert [x[0]] + x[1..] == x;
    }
  }

  /** Joining a non-empty list of comma-free entries with ", " loses nothing:
      splitting the result gives the list back. */
  lemma {:induction false} SplitJoin(xs: seq<string>)
    requires xs != []
    requires forall i :: 0 <= i < |xs| ==> ',' !in xs[i]
    ensures SplitCommaSpace(Join(xs, ", ")) == xs
    decreases |xs|
  {
    if |xs| == 1 {
      SplitWhole(xs[0]);
    } else {
      SplitJoin(xs[1..]);
      SplitLeading(xs[0], Join(xs[1..], ", "));
      assert [xs[0]] + xs[1..] == xs;
    }
  }

  /** Joining is not injective once an entry holds ", " itself. */
  lemma JoinAmbiguous()
    ensures Join(["salt, pepper"], ", ") == Join(["salt", "pepper"], ", ")
  {
  }

  /** Joining a list whose first entry is non-empty gives a non-empty string. */
  lemma JoinNonEmpty(xs: seq<string>, sep: string)
    requires xs != [] && xs[0] != []
    ensures Join(xs, sep) != []
  {
  }

  predicate IsDigit(c: char) {
    '0' <= c <= '9'
  }

  function DigitChar(d: nat): (c: char)
    requires d < 10
    ensures IsDigit(c) && c as int - '0' as int == d
  {
    ('0' as int + d) as char
  }

  /** The number a string of decimal digits denotes. */
  function DecimalValue(ds: string): int
    requires forall i :: 0 <= i < |ds| ==> IsDigit(ds[i])
  {
    if ds == [] then 0
    else DecimalValue(ds[..|ds| - 1]) * 10 + (ds[|ds| - 1] as int - '0' as int)
  }

  /** The decimal digits of `n`, most significant first, without leading zeros. */
  function NatToString(n: nat): (r: string)
    ensures r != [] && forall i :: 0 <= i < |r| ==> IsDigit(r[i])
    ensures |r| > 1 ==> r[0] != '0'
    decreases n
  {
    if n < 10 then [DigitChar(n)] else NatToString(n / 10) + [DigitChar(n % 10)]
  }

  /** JavaScript's `String(n)` and Python's `str(n)` on an integer. */
  function IntToString(n: int): string {
    if n < 0 then "-" + NatToString(-n) else NatToString(n)
  }

  /** Reading the digits of `n` back gives `n`. */
  lemma {:induction false} NatToStringRoundTrip(n: nat)
    ensures DecimalValue(NatToString(n)) == n
    decreases n
  {
    if n >= 10 {
      NatToStringRoundTrip(n / 10);
      var s := NatToString(n);
      assert s[..|s| - 1] == NatToString(n / 10);
    }
  }
}
