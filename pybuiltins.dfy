/** The few Python built-ins the evaluation scripts rely on, stated on Dafny values:
    an optional value (Python's None), Python's two numeric kinds, str() of an int,
    str.isspace / str.strip, and the pieces of str.split(sep) the scripts index. */
module PyBuiltins {

  datatype Option<+T> = None | Some(value: T)

  /** A Python number as the scripts write it: `1` is an int, `1/64` is a float. */
  datatype PyNum = PyInt(i: int) | PyFloat(x: real)

  /** The mathematical value of a Python number. */
  function Value(n: PyNum): real {
    match n
    case PyInt(i) => i as real
    case PyFloat(x) => x
  }

  // ---------------------------------------------------------------------------
  // str() of an int: decimal digits, a leading '-' for negatives

  function Digit(d: nat): (c: char)
    requires d < 10
    ensures '0' <= c <= '9' && (c as int) - ('0' as int) == d
  {
    ('0' as int + d) as char
  }

  /** Every character is a decimal digit. */
  predicate AllDigits(s: string) {
    forall k :: 0 <= k < |s| ==> '0' <= s[k] <= '9'
  }

  /** str(n) for a non-negative int: canonical decimal, a leading '0' only
      for zero itself. */
  function NatToStr(n: nat): (s: string)
    ensures |s| > 0 && AllDigits(s)
    ensures s[0] == '0' ==> n == 0
    decreases n
  {
    if n < 10 then [Digit(n)]
    else
      var prefix := NatToStr(n / 10);
      assert (prefix + [Digit(n % 10)])[0] == prefix[0];
      prefix + [Digit(n % 10)]
  }

  /** Reads a string of decimal digits back as a number (the reading every
      consumer of a decimal integer applies). */
  function DigitsValue(s: string): nat
    requires AllDigits(s)
  {
    if s == [] then 0
    else DigitsValue(s[..|s| - 1]) * 10 + ((s[|s| - 1] as int) - ('0' as int))
  }

  /** str(n) for a Python int. */
  function IntToStr(i: int): (s: string)
    ensures |s| > 0
    ensures i >= 0 ==> s == NatToStr(i)
    ensures i < 0 ==> s[0] == '-' && s[1..] == NatToStr(-i)
  {
    if i < 0 then "-" + NatToStr(-i) else NatToStr(i)
  }

  /** A text that reads as an int: digits, optionally after one '-'. */
  predicate IsIntText(s: string) {
    |s| > 0 && (if s[0] == '-' then |s| > 1 && AllDigits(s[1..]) else AllDigits(s))
  }

  /** Reads a text of that form back as a signed number. */
  function SignedValue(s: string): int
    requires IsIntText(s)
  {
    if s[0] == '-' then -(DigitsValue(s[1..]) as int) else DigitsValue(s)
  }

  /** str() of any int reads back as the same int, with a '-' exactly for
      negatives. */
  lemma IntToStrRoundTrip(i: int)
    ensures IsIntText(IntToStr(i))
    ensures IntToStr(i)[0] == '-' <==> i < 0
    ensures SignedValue(IntToStr(i)) == i
  {
    if i < 0 { NatToStrRoundTrip(-i); } else { NatToStrRoundTrip(i); }
  }

  /** str() of a non-negative int reads back as the same int. */
  lemma {:induction false} NatToStrRoundTrip(n: nat)
    ensures DigitsValue(NatToStr(n)) == n
    decreases n
  {
    if n >= 10 {
      NatToStrRoundTrip(n / 10);
      var s := NatToStr(n);
      assert s[..|s| - 1] == NatToStr(n / 10);
    }
  }

  /** str() of any Python number; floats are rendered by the interpreter's
      float repr, which is given. */
  function Str(n: PyNum, floatRepr: real -> string): (s: string)
    ensures n.PyInt? ==> IsIntText(s) && SignedValue(s) == n.i
    ensures n.PyFloat? ==> s == floatRepr(n.x)
  {
    match n
    case PyInt(i) => IntToStrRoundTrip(i); IntToStr(i)
    case PyFloat(x) => floatRepr(x)
  }

  // ---------------------------------------------------------------------------
  // str.isspace and str.strip()

  /** Python's str.isspace on one character: the characters of Unicode
      bidirectional class WS, B or S, or of general category Zs. */
  predicate IsSpace(c: char)
    ensures IsSpace(c) ==> !('0' <= c <= '9') && c != '-' && c != '+' && c != '.' && c != 'e' && c != 'E'
  {
    || c == ' ' || c == '\t' || c == '\n' || c == '\r'
    || c == '\U{000B}' || c == '\U{000C}'
    || ('\U{001C}' <= c <= '\U{001F}')
    || c == '\U{0085}' || c == '\U{00A0}' || c == '\U{1680}'
    || ('\U{2000}' <= c <= '\U{200A}')
    || c == '\U{2028}' || c == '\U{2029}' || c == '\U{202F}' || c == '\U{205F}'
    || c == '\U{3000}'
  }

  predicate AllSpace(s: string) {
    forall k :: 0 <= k < |s| ==> IsSpace(s[k])
  }

  /** No whitespace at either end. */
  predicate Trimmed(s: string) {
    s == [] || (!IsSpace(s[0]) && !IsSpace(s[|s| - 1]))
  }

  /** Length of the leading run of whitespace. */
  function LeadingSpaces(s: string): (k: nat)
    ensures k <= |s| && AllSpace(s[..k])
    ensures k < |s| ==> !IsSpace(s[k])
  {
    if s == [] || !IsSpace(s[0]) then 0
    else
      var k := 1 + LeadingSpaces(s[1..]);
      assert s[..k] == [s[0]] + s[1..][..k - 1];
      k
  }

  /** Length of the trailing run of whitespace. */
  function TrailingSpaces(s: string): (k: nat)
    ensures k <= |s| && AllSpace(s[|s| - k..])
    ensures k < |s| ==> !IsSpace(s[|s| - 1 - k])
  {
    if s == [] || !IsSpace(s[|s| - 1]) then 0
    else
      var t := s[..|s| - 1];
      var k := 1 + TrailingSpaces(t);
      assert s[|s| - k..] == t[|t| - (k - 1)..] + [s[|s| - 1]];
      k
  }

  /** Cutting a from the front and b from the back of s leaves the middle. */
  lemma MiddleOf(s: string, a: nat, b: nat)
    requires a + b <= |s|
    ensures var r := s[a..][..|s| - a - b];
      && |r| == |s| - a - b
      && s == s[..a] + r + s[a + |r|..]
      && s[a..][|s| - a - b..] == s[a + |r|..]
      && (r != [] ==> r[0] == s[a] && r[|r| - 1] == s[a..][|s| - a - 1 - b])
  {
  }

  /** str.strip() with no argument: removes whitespace at both ends. The result
      is the middle of a split of s into whitespace, a trimmed core, whitespace. */
  function Strip(s: string): (r: string)
    ensures Trimmed(r)
    ensures exists a :: 0 <= a <= |s| - |r| && s == s[..a] + r + s[a + |r|..]
                          && AllSpace(s[..a]) && AllSpace(s[a + |r|..])
  {
    var a := LeadingSpaces(s);
    var rest := s[a..];
    var b := TrailingSpaces(rest);
    MiddleOf(s, a, b);
    rest[..|rest| - b]
  }

  /** A whitespace prefix followed by a non-space (or nothing) is exactly the
      leading run. */
  lemma {:induction false} LeadingSpacesOf(p: string, t: string)
    requires AllSpace(p) && (t == [] || !IsSpace(t[0]))
    ensures LeadingSpaces(p + t) == |p|
  {
    if p != [] {
      assert (p + t)[1..] == p[1..] + t;
      LeadingSpacesOf(p[1..], t);
    } else {
      assert p + t == t;
    }
  }

  /** A whitespace suffix preceded by a non-space (or nothing) is exactly the
      trailing run. */
  lemma {:induction false} TrailingSpacesOf(t: string, q: string)
    requires AllSpace(q) && (t == [] || !IsSpace(t[|t| - 1]))
    ensures TrailingSpaces(t + q) == |q|
  {
    if q != [] {
      var s := t + q;
      assert s[..|s| - 1] == t + q[..|q| - 1];
      TrailingSpacesOf(t, q[..|q| - 1]);
    } else {
      assert t + q == t;
    }
  }

  /** The decomposition of Strip's contract is unique: whatever splits s into
      whitespace, a trimmed core m and whitespace, Strip(s) is that m. */
  lemma StripUnique(p: string, m: string, q: string)
    requires AllSpace(p) && AllSpace(q) && Trimmed(m)
    ensures Strip(p + m + q) == m
  {
    var s := p + m + q;
    if m == [] {
      assert s == (p + q) + [];
      LeadingSpacesOf(p + q, []);
    } else {
      assert s == p + (m + q);
      LeadingSpacesOf(p, m + q);
      assert s[|p|..] == m + q;
      TrailingSpacesOf(m, q);
    }
  }

  /** Stripping twice strips nothing more. */
  lemma StripIdempotent(s: string)
    ensures Strip(Strip(s)) == Strip(s)
  {
    var r := Strip(s);
    assert r == [] + r + [];
    StripUnique([], r, []);
  }

  // ---------------------------------------------------------------------------
  // Searching and str.split(sep)

  /** sep occurs in s starting at index i. */
  predicate OccursAt(s: string, sep: string, i: nat) {
    i + |sep| <= |s| && s[i..i + |sep|] == sep
  }

  /** The first occurrence of sep in s at or after index `from`. */
  function FindFrom(s: string, sep: string, from: nat): (r: Option<nat>)
    ensures r.Some? ==> from <= r.value && OccursAt(s, sep, r.value)
    ensures r.Some? ==> forall j: nat :: from <= j < r.value ==> !OccursAt(s, sep, j)
    ensures r.None? ==> forall j: nat :: from <= j ==> !OccursAt(s, sep, j)
    decreases |s| - from
  {
    if from + |sep| > |s| then None
    else if s[from..from + |sep|] == sep then Some(from)
    else FindFrom(s, sep, from + 1)
  }

  /** s.split(sep)[0]: the text before the first occurrence of sep, or all of s
      when sep does not occur (this index never fails). */
  function SplitFirst(s: string, sep: string): (r: string)
    requires |sep| > 0
    ensures |r| <= |s| && r == s[..|r|]
    ensures forall j: nat :: j < |r| ==> !OccursAt(s, sep, j)
    ensures |r| == |s| || OccursAt(s, sep, |r|)
  {
    match FindFrom(s, sep, 0)
    case None => s
    case Some(i) => s[..i]
  }

  /** s.split(sep)[1]: the text between the first and the second occurrence of
      sep (or the end of s); None stands for the IndexError raised when sep does
      not occur at all. */
  function SplitSecond(s: string, sep: string): (r: Option<string>)
    requires |sep| > 0
    ensures r.None? <==> forall j: nat :: !OccursAt(s, sep, j)
  {
    match FindFrom(s, sep, 0)
    case None => None
    case Some(i) =>
      match FindFrom(s, sep, i + |sep|)
      case None => Some(s[i + |sep|..])
      case Some(j) => Some(s[i + |sep|..j])
  }

  /** SplitSecond read off the positions: if the first occurrence of sep starts
      at i and the next one starting at or after i + |sep| is at j (or there is
      none and j is the end), the piece is exactly s[i + |sep|..j]. */
  lemma SplitSecondAt(s: string, sep: string, i: nat, j: nat)
    requires |sep| > 0
    requires OccursAt(s, sep, i) && forall k: nat :: k < i ==> !OccursAt(s, sep, k)
    requires i + |sep| <= j <= |s|
    requires forall k: nat :: i + |sep| <= k < j ==> !OccursAt(s, sep, k)
    requires j == |s| || OccursAt(s, sep, j)
    ensures SplitSecond(s, sep) == Some(s[i + |sep|..j])
  {
    var f := FindFrom(s, sep, 0);
    assert f == Some(i);
    var g := FindFrom(s, sep, i + |sep|);
    if j == |s| {
      assert g.None?;
      assert s[i + |sep|..] == s[i + |sep|..j];
    } else {
      assert g == Some(j);
    }
  }
}
