/** The JavaScript string operations the application code leans on:
    `split` with a non-empty separator, `join`, `startsWith`, `endsWith`,
    `trim`, `toLowerCase` on ASCII letters, `String(n)` for a non-negative
    integer, `padStart`, and the `x || fallback` idiom on optional strings.
    Strings are sequences of Unicode scalar values rather than UTF-16 code
    units; every separator and prefix used by the application is ASCII, so
    the positions found are the same. */
module JsStrings {
  import opened Wrappers

  // ---------------------------------------------------------------------
  // Searching and splitting
  // ---------------------------------------------------------------------

  /** `sep` occurs in `s` starting at position `q`. */
  predicate OccursAt(s: string, sep: string, q: nat)
  {
    q + |sep| <= |s| && s[q..q + |sep|] == sep
  }

  /** The first position at or after `from` where `sep` occurs in `s`, as
      `String.prototype.indexOf(sep, from)` finds it (`None` for -1). */
  function IndexOf(s: string, sep: string, from: nat): (r: Option<nat>)
    requires from <= |s|
    ensures r.Some? ==> from <= r.value && OccursAt(s, sep, r.value)
    ensures forall q :: from <= q && (r.None? || q < r.value) ==> !OccursAt(s, sep, q)
    decreases |s| - from
  {
    if from + |sep| > |s| then None
    else if s[from..from + |sep|] == sep then Some(from)
    else IndexOf(s, sep, from + 1)
  }

  /** `s.split(sep)` for a non-empty separator: the pieces between the
      leftmost non-overlapping occurrences of `sep`. */
  function Split(s: string, sep: string): (parts: seq<string>)
    requires |sep| > 0
    ensures |parts| >= 1
    decreases |s|, 1
  {
    match IndexOf(s, sep, 0)
    case None => [s]
    case Some(q) => SplitAround(s, sep, q)
  }

  /** The pieces of `s` when the first occurrence of `sep` is at `q`: the
      text before it, then the pieces of what follows it. */
  function SplitAround(s: string, sep: string, q: nat): (parts: seq<string>)
    requires |sep| > 0 && q + |sep| <= |s|
    ensures |parts| >= 2
    decreases |s|, 0
  {
    [s[..q]] + Split(s[q + |sep|..], sep)
  }

  /** `parts.join(sep)`. */
  function Join(parts: seq<string>, sep: string): string
  {
    if |parts| == 0 then ""
    else if |parts| == 1 then parts[0]
    else parts[0] + sep + Join(parts[1..], sep)
  }

  /** Joining the pieces of a split with the same separator gives back the
      original string. */
  lemma {:induction false} JoinSplit(s: string, sep: string)
    requires |sep| > 0
    ensures Join(Split(s, sep), sep) == s
    decreases |s|
  {
    match IndexOf(s, sep, 0)
    case None =>
    case Some(q) =>
      var rest := s[q + |sep|..];
      var parts := Split(rest, sep);
      JoinSplit(rest, sep);
      assert Split(s, sep) == [s[..q]] + parts;
      assert ([s[..q]] + parts)[1..] == parts;
      assert Join([s[..q]] + parts, sep) == s[..q] + sep + Join(parts, sep);
      assert s == s[..q] + sep + rest;
  }

  /** No piece of a split contains the separator. */
  lemma {:induction false} SplitPiecesAreFree(s: string, sep: string)
    requires |sep| > 0
    ensures forall p :: p in Split(s, sep) ==> IndexOf(p, sep, 0).None?
    decreases |s|
  {
    match IndexOf(s, sep, 0)
    case None =>
    case Some(q) =>
      var head := s[..q];
      SplitPiecesAreFree(s[q + |sep|..], sep);
      forall k: nat
        ensures OccursAt(head, sep, k) ==> OccursAt(s, sep, k)
      {
        if k + |sep| <= |head| {
          assert head[k..k + |sep|] == s[k..k + |sep|];
        }
      }
  }

  /** A string in which the separator occurs splits into at least two
      pieces, the first being the text before the first occurrence. */
  lemma SplitAtFirst(s: string, sep: string, q: nat)
    requires |sep| > 0 && IndexOf(s, sep, 0) == Some(q)
    ensures |Split(s, sep)| >= 2 && Split(s, sep)[0] == s[..q]
    ensures q + |sep| <= |s| && Split(s, sep)[1] == Split(s[q + |sep|..], sep)[0]
  {
  }

  /** A string in which `sep` occurs splits into at least two pieces. */
  lemma SplitOnPresentSeparator(s: string, sep: string, q: nat)
    requires |sep| > 0 && OccursAt(s, sep, q)
    ensures IndexOf(s, sep, 0).Some? && IndexOf(s, sep, 0).value <= q
    ensures |Split(s, sep)| >= 2
  {
    SplitAtFirst(s, sep, IndexOf(s, sep, 0).value);
  }

  /** An occurrence of `sep` at `q` is still one, at `q - d`, in the text
      from `d` on. */
  lemma OccursAfter(s: string, sep: string, d: nat, q: nat)
    requires OccursAt(s, sep, q) && d <= q
    ensures OccursAt(s[d..], sep, q - d)
  {
    assert s[d..][q - d..q - d + |sep|] == s[q..q + |sep|];
  }

  /** An occurrence of `sep` at `k` in the text from `d` on is one at
      `d + k` in the whole string. */
  lemma OccursShift(s: string, sep: string, d: nat, k: nat)
    requires d <= |s| && OccursAt(s[d..], sep, k)
    ensures OccursAt(s, sep, d + k)
  {
    assert s[d..][k..k + |sep|] == s[d + k..d + k + |sep|];
  }

  /** When searching from `d` finds nothing, neither does searching the
      text from `d` on. */
  lemma AbsentFromSuffix(s: string, sep: string, d: nat)
    requires d <= |s| && IndexOf(s, sep, d).None?
    ensures IndexOf(s[d..], sep, 0).None?
  {
    if IndexOf(s[d..], sep, 0).Some? {
      OccursShift(s, sep, d, IndexOf(s[d..], sep, 0).value);
    }
  }

  /** Conversely, when `sep` is not found in `s[d..]`, it is not found in
      `s` from `d` on. */
  lemma AbsentFromTail(s: string, sep: string, d: nat)
    requires d <= |s| && IndexOf(s[d..], sep, 0).None?
    ensures IndexOf(s, sep, d).None?
  {
    if IndexOf(s, sep, d).Some? {
      OccursAfter(s, sep, d, IndexOf(s, sep, d).value);
    }
  }

  /** Splitting at the first occurrence `p` gives one piece more than
      splitting the rest, and the second piece is the rest's first. */
  lemma SplitFirst(s: string, sep: string, p: nat)
    requires |sep| > 0 && IndexOf(s, sep, 0) == Some(p)
    ensures p + |sep| <= |s|
    ensures |Split(s, sep)| == 1 + |Split(s[p + |sep|..], sep)|
    ensures Split(s, sep)[1] == Split(s[p + |sep|..], sep)[0]
  {
    assert Split(s, sep) == SplitAround(s, sep, p);
  }

  /** A string in which `sep` is found splits into at least two pieces. */
  lemma SplitFound(s: string, sep: string)
    requires |sep| > 0 && IndexOf(s, sep, 0).Some?
    ensures |Split(s, sep)| >= 2
  {
    assert Split(s, sep) == SplitAround(s, sep, IndexOf(s, sep, 0).value);
  }

  /** A string in which `sep` is not found is its own single piece. */
  lemma SplitWhole(s: string, sep: string)
    requires |sep| > 0 && IndexOf(s, sep, 0).None?
    ensures |Split(s, sep)| == 1 && Split(s, sep)[0] == s
  {
  }

  /** With the first occurrence at `p` and none after it, a split gives
      exactly two pieces, the second being all the text after `p`. */
  lemma SplitInTwo(s: string, sep: string, p: nat)
    requires |sep| > 0 && IndexOf(s, sep, 0) == Some(p)
    requires IndexOf(s, sep, p + |sep|).None?
    ensures p + |sep| <= |s|
    ensures |Split(s, sep)| == 2 && Split(s, sep)[1] == s[p + |sep|..]
  {
    SplitFirst(s, sep, p);
    RestIsWhole(s, sep, p);
  }

  /** The text after the only occurrence of `sep` is a single piece. */
  lemma RestIsWhole(s: string, sep: string, p: nat)
    requires |sep| > 0 && p + |sep| <= |s| && IndexOf(s, sep, p + |sep|).None?
    ensures |Split(s[p + |sep|..], sep)| == 1
    ensures Split(s[p + |sep|..], sep)[0] == s[p + |sep|..]
  {
    AbsentFromSuffix(s, sep, p + |sep|);
    SplitWhole(s[p + |sep|..], sep);
  }

  /** Conversely, a split into exactly two pieces means `sep` does not
      occur again after its first occurrence. */
  lemma SplitTwoOnlyOnce(s: string, sep: string, p: nat)
    requires |sep| > 0 && IndexOf(s, sep, 0) == Some(p)
    requires |Split(s, sep)| == 2
    ensures p + |sep| <= |s|
    ensures IndexOf(s, sep, p + |sep|).None?
  {
    SplitFirst(s, sep, p);
    if IndexOf(s[p + |sep|..], sep, 0).Some? {
      SplitFound(s[p + |sep|..], sep);
    } else {
      AbsentFromTail(s, sep, p + |sep|);
    }
  }

  /** Two non-overlapping occurrences of `sep` give at least three pieces. */
  lemma SplitOnRepeatedSeparator(s: string, sep: string, p: nat, q: nat)
    requires |sep| > 0 && OccursAt(s, sep, p) && OccursAt(s, sep, q) && p + |sep| <= q
    ensures |Split(s, sep)| >= 3
  {
    SplitOnPresentSeparator(s, sep, p);
    var first := IndexOf(s, sep, 0).value;
    OccursAfter(s, sep, first + |sep|, q);
    SplitOnPresentSeparator(s[first + |sep|..], sep, q - (first + |sep|));
  }

  /** A one-character separator occurs exactly where that character is. */
  lemma OccursAtChar(s: string, c: char, q: nat)
    ensures OccursAt(s, [c], q) <==> q < |s| && s[q] == c
  {
    if q < |s| {
      assert s[q..q + 1] == [s[q]];
    }
  }

  /** A string without the character `c` does not split on it. */
  lemma SplitOnAbsentChar(s: string, c: char)
    requires c !in s
    ensures IndexOf(s, [c], 0).None? && Split(s, [c]) == [s]
  {
    if IndexOf(s, [c], 0).Some? {
      OccursAtChar(s, c, IndexOf(s, [c], 0).value);
    }
  }

  /** A string in which the one-character string `[c]` is not found does
      not contain `c`. */
  lemma CharNotFound(s: string, c: char)
    requires IndexOf(s, [c], 0).None?
    ensures c !in s
  {
    forall i | 0 <= i < |s|
      ensures s[i] != c
    {
      OccursAtChar(s, c, i);
    }
  }

  /** `s.startsWith(p)`. */
  predicate StartsWith(s: string, p: string)
  {
    |p| <= |s| && s[..|p|] == p
  }

  /** `s.endsWith(p)`. */
  predicate EndsWith(s: string, p: string)
  {
    |p| <= |s| && s[|s| - |p|..] == p
  }

  // ---------------------------------------------------------------------
  // Trimming and case
  // ---------------------------------------------------------------------

  /** The characters `String.prototype.trim` removes: ECMAScript's
      WhiteSpace and LineTerminator code points. */
  predicate IsWhitespace(c: char)
  {
    c == '\t' || c == '\n' || c == '\U{000B}' || c == '\U{000C}' || c == '\r'
    || c == ' ' || c == '\U{00A0}' || c == '\U{1680}'
    || ('\U{2000}' <= c <= '\U{200A}')
    || c == '\U{2028}' || c == '\U{2029}' || c == '\U{202F}' || c == '\U{205F}'
    || c == '\U{3000}' || c == '\U{FEFF}'
  }

  predicate AllWhitespace(s: string)
  {
    forall k :: 0 <= k < |s| ==> IsWhitespace(s[k])
  }

  /** The first position at or after `from` that does not hold
      whitespace (|s| if there is none). */
  function LeadingSpace(s: string, from: nat): (n: nat)
    requires from <= |s|
    ensures from <= n <= |s|
    ensures forall k :: from <= k < n ==> IsWhitespace(s[k])
    ensures n == |s| || !IsWhitespace(s[n])
    decreases |s| - from
  {
    if from < |s| && IsWhitespace(s[from]) then LeadingSpace(s, from + 1) else from
  }

  /** The start of the whitespace run that ends at `hi`, not going below
      `lo`. */
  function TrailingEnd(s: string, lo: nat, hi: nat): (n: nat)
    requires lo <= hi <= |s|
    ensures lo <= n <= hi
    ensures forall k :: n <= k < hi ==> IsWhitespace(s[k])
    ensures n == lo || !IsWhitespace(s[n - 1])
    decreases hi
  {
    if lo < hi && IsWhitespace(s[hi - 1]) then TrailingEnd(s, lo, hi - 1) else hi
  }

  /** `s.trim()`: whitespace removed at both ends (see TrimKeepsMiddle for
      what is left). */
  function Trim(s: string): (r: string)
    ensures |r| <= |s|
    ensures r == [] || (!IsWhitespace(r[0]) && !IsWhitespace(r[|r| - 1]))
  {
    var i := LeadingSpace(s, 0);
    var j := TrailingEnd(s, i, |s|);
    s[i..j]
  }

  /** Trimming removes only whitespace: what is left is the slice of `s`
      between an all-whitespace prefix and an all-whitespace suffix. */
  lemma TrimKeepsMiddle(s: string) returns (i: nat)
    ensures i + |Trim(s)| <= |s| && Trim(s) == s[i..i + |Trim(s)|]
    ensures AllWhitespace(s[..i]) && AllWhitespace(s[i + |Trim(s)|..])
  {
    i := LeadingSpace(s, 0);
    var j := TrailingEnd(s, i, |s|);
    assert Trim(s) == s[i..j];
    assert forall k :: 0 <= k < i ==> s[..i][k] == s[k];
    assert forall k :: 0 <= k < |s| - j ==> s[j..][k] == s[j + k];
  }

  /** A string that begins and ends with non-whitespace is its own trim. */
  lemma TrimUntouched(s: string)
    requires s != "" && !IsWhitespace(s[0]) && !IsWhitespace(s[|s| - 1])
    ensures Trim(s) == s
  {
    assert LeadingSpace(s, 0) == 0;
    assert s[0..|s|] == s;
  }

  /** Trimming leaves nothing exactly when the string is all whitespace. */
  lemma TrimEmpty(s: string)
    ensures Trim(s) == [] <==> AllWhitespace(s)
  {
    var i := TrimKeepsMiddle(s);
    if Trim(s) == [] {
      assert s == s[..i] + s[i..];
    } else {
      assert s[i] == Trim(s)[0];
    }
  }

  /** `toLowerCase` on one character, for the ASCII letters. */
  function LowerChar(c: char): (r: char)
    ensures 'A' <= c <= 'Z' ==> r as int == c as int + 32
    ensures !('A' <= c <= 'Z') ==> r == c
  {
    if 'A' <= c <= 'Z' then (c as int + 32) as char else c
  }

  /** `s.toLowerCase()` for the ASCII letters; other characters are kept. */
  function ToLower(s: string): (r: string)
    ensures |r| == |s|
    ensures forall k :: 0 <= k < |s| ==> r[k] == LowerChar(s[k])
  {
    seq(|s|, k requires 0 <= k < |s| => LowerChar(s[k]))
  }

  /** `o || fallback` for a value of type `string | undefined`: the empty
      string is falsy, so it is replaced too. */
  function OrElse(o: Option<string>, fallback: string): (r: string)
    ensures r == fallback || (o.Some? && r == o.value)
    ensures (o.Some? && o.value != "") <==> (o.Some? && r == o.value && r != "")
  {
    if o.Some? && o.value != "" then o.value else fallback
  }

  /** A JavaScript string or `null`/`undefined` is truthy iff it is a
      non-empty string. */
  predicate Truthy(o: Option<string>)
  {
    o.Some? && o.value != ""
  }

  // ---------------------------------------------------------------------
  // Decimal numerals
  // ---------------------------------------------------------------------

  predicate IsDigit(c: char)
  {
    '0' <= c <= '9'
  }

  predicate AllDigits(s: string)
  {
    forall k :: 0 <= k < |s| ==> IsDigit(s[k])
  }

  function DigitChar(d: nat): (c: char)
    requires d < 10
    ensures IsDigit(c) && c as int - '0' as int == d
  {
    (48 + d) as char
  }

  function DigitValue(c: char): (d: nat)
    requires IsDigit(c)
    ensures d < 10 && DigitChar(d) == c
  {
    c as int - '0' as int
  }

  /** `String(n)` for a non-negative integer: its decimal numeral, with no
      leading zero. */
  function DecimalString(n: nat): (s: string)
    ensures 1 <= |s| && AllDigits(s)
    ensures |s| > 1 ==> s[0] != '0'
  {
    if n < 10 then [DigitChar(n)] else DecimalString(n / 10) + [DigitChar(n % 10)]
  }

  /** The value of a numeral made of decimal digits (0 for the empty one). */
  function ParseDecimal(s: string): nat
    requires AllDigits(s)
  {
    if s == [] then 0 else 10 * ParseDecimal(s[..|s| - 1]) + DigitValue(s[|s| - 1])
  }

  /** Reading back a printed number gives the number. */
  lemma {:induction false} ParseDecimalString(n: nat)
    ensures ParseDecimal(DecimalString(n)) == n
  {
    if n >= 10 {
      ParseDecimalString(n / 10);
      var s := DecimalString(n);
      assert s[..|s| - 1] == DecimalString(n / 10);
    }
  }

  function Pow10(k: nat): (p: nat)
    ensures p >= 1
  {
    if k == 0 then 1 else 10 * Pow10(k - 1)
  }

  /** A number below 10^k prints with at most k digits. */
  lemma {:induction false} DecimalStringLength(n: nat, k: nat)
    requires 1 <= k && n < Pow10(k)
    ensures |DecimalString(n)| <= k
  {
    if n >= 10 {
      assert Pow10(1) == 10;
      assert n / 10 < Pow10(k - 1);
      DecimalStringLength(n / 10, k - 1);
    }
  }

  /** `s.padStart(len, [c])`: `s` preceded by enough copies of `c` to reach
      length `len`; a string already that long is returned as it is. */
  function PadStart(s: string, len: nat, c: char): (r: string)
    ensures |r| == if |s| >= len then |s| else len
    ensures EndsWith(r, s)
    ensures forall k :: 0 <= k < |r| - |s| ==> r[k] == c
  {
    if |s| >= len then s else seq(len - |s|, _ => c) + s
  }

  /** Leading zeros do not change the value of a numeral. */
  lemma {:induction false} LeadingZeros(z: string, s: string)
    requires forall k :: 0 <= k < |z| ==> z[k] == '0'
    requires AllDigits(s)
    ensures AllDigits(z + s) && ParseDecimal(z + s) == ParseDecimal(s)
    decreases |z| + |s|
  {
    if s == [] {
      assert z + s == z;
      if z != [] {
        LeadingZeros(z[..|z| - 1], []);
        assert z[..|z| - 1] + [] == z[..|z| - 1];
      }
    } else {
      LeadingZeros(z, s[..|s| - 1]);
      assert (z + s)[..|z + s| - 1] == z + s[..|s| - 1];
    }
  }
}
