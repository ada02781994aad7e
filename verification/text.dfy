/** The Python string operations the agent relies on: `str.strip()`,
    `str.lower()` on ASCII letters, `str.join` and the decimal rendering of
    a non-negative integer. */
module Text {

  /** Python's `str.isspace()`: the characters `str.strip()` removes when
      called without an argument. */
  predicate IsSpace(c: char) {
    var n := c as int;
    if n <= 32 then 9 <= n <= 13 || 28 <= n
    else if n < 0x85 then false
    else
      || n == 0x85 || n == 0xA0 || n == 0x1680
      || 0x2000 <= n <= 0x200A
      || n == 0x2028 || n == 0x2029 || n == 0x202F || n == 0x205F || n == 0x3000
  }

  predicate AllSpace(s: string) {
    forall i :: 0 <= i < |s| ==> IsSpace(s[i])
  }

  /** `s[i..j]` is what `strip()` leaves of `s`: everything before `i` and
      from `j` on is whitespace, and a non-empty `s[i..j]` starts and ends
      with a non-whitespace character. */
  predicate StripsTo(s: string, i: int, j: int) {
    && 0 <= i <= j <= |s|
    && (forall k :: 0 <= k < i ==> IsSpace(s[k]))
    && (forall k :: j <= k < |s| ==> IsSpace(s[k]))
    && (i < j ==> !IsSpace(s[i]) && !IsSpace(s[j - 1]))
  }

  /** The first index at or after `lo` that does not hold whitespace. */
  function SkipSpaces(s: string, lo: nat): (i: nat)
    requires lo <= |s|
    ensures lo <= i <= |s|
    ensures forall k :: lo <= k < i ==> IsSpace(s[k])
    ensures i < |s| ==> !IsSpace(s[i])
    decreases |s| - lo
  {
    if lo == |s| || !IsSpace(s[lo]) then lo else SkipSpaces(s, lo + 1)
  }

  /** The end of `s[lo..hi]` once its trailing whitespace is dropped. */
  function SkipTrailingSpaces(s: string, lo: nat, hi: nat): (j: nat)
    requires lo <= hi <= |s|
    ensures lo <= j <= hi
    ensures forall k :: j <= k < hi ==> IsSpace(s[k])
    ensures lo < j ==> !IsSpace(s[j - 1])
    decreases hi
  {
    if hi == lo || !IsSpace(s[hi - 1]) then hi else SkipTrailingSpaces(s, lo, hi - 1)
  }

  /** `s.strip()`: the infix of `s` between its leading and its trailing
      whitespace, empty exactly when `s` is blank. */
  function Strip(s: string): (r: string)
    ensures exists i, j :: StripsTo(s, i, j) && r == s[i..j]
    ensures r == [] <==> AllSpace(s)
  {
    var i := SkipSpaces(s, 0);
    var j := SkipTrailingSpaces(s, i, |s|);
    assert StripsTo(s, i, j);
    StripsToBlank(s, i, j);
    s[i..j]
  }

  lemma StripsToBlank(s: string, i: int, j: int)
    requires StripsTo(s, i, j)
    ensures s[i..j] == [] <==> AllSpace(s)
  {
  }

  /** A string that neither starts nor ends with whitespace is its own `strip()`. */
  lemma StripOfTrimmed(s: string)
    requires s != [] && !IsSpace(s[0]) && !IsSpace(s[|s| - 1])
    ensures Strip(s) == s
  {
    var i, j := StripMeetsStripsTo(s);
    assert StripsTo(s, 0, |s|);
    StripsToUnique(s, i, j, 0, |s|);
    assert s[0..|s|] == s;
  }

  /** `strip()` keeps every non-whitespace character of its argument. */
  lemma StripKeepsNonSpace(s: string, k: int)
    requires 0 <= k < |s| && !IsSpace(s[k])
    ensures s[k] in Strip(s)
  {
    var i, j := StripMeetsStripsTo(s);
    assert Strip(s)[k - i] == s[k];
  }

  /** Only one infix of `s` meets the description of `strip()`. */
  lemma StripsToUnique(s: string, i: int, j: int, i': int, j': int)
    requires StripsTo(s, i, j) && StripsTo(s, i', j')
    ensures s[i..j] == s[i'..j']
  {
    if i < j && i' < j' {
      assert i == i' && j == j';
    } else {
      assert i == j && i' == j';
    }
  }

  /** Whitespace around `s` moves the stripped infix but does not change it. */
  lemma StripsToPadded(w1: string, s: string, w2: string, i: int, j: int)
    requires AllSpace(w1) && AllSpace(w2) && StripsTo(s, i, j)
    ensures StripsTo(w1 + s + w2, |w1| + i, |w1| + j)
    ensures (w1 + s + w2)[|w1| + i..|w1| + j] == s[i..j]
  {
    var p := w1 + s + w2;
    forall k | 0 <= k < |w1| + i
      ensures IsSpace(p[k])
    {
      if k < |w1| { assert p[k] == w1[k]; } else { assert p[k] == s[k - |w1|]; }
    }
    forall k | |w1| + j <= k < |p|
      ensures IsSpace(p[k])
    {
      if k < |w1| + |s| { assert p[k] == s[k - |w1|]; } else { assert p[k] == w2[k - |w1| - |s|]; }
    }
    if i < j {
      assert p[|w1| + i] == s[i] && p[|w1| + j - 1] == s[j - 1];
    }
    assert p[|w1| + i..|w1| + j] == s[i..j];
  }

  /** `Strip(s)` is the infix `StripsTo` describes. */
  lemma StripMeetsStripsTo(s: string) returns (i: int, j: int)
    ensures StripsTo(s, i, j) && Strip(s) == s[i..j]
  {
    i := SkipSpaces(s, 0);
    j := SkipTrailingSpaces(s, i, |s|);
  }

  /** `StripsTo` pins `strip()` down: some bounds meet it, and every pair
      of bounds that does delimits `Strip(s)`. */
  lemma StripCharacterised(s: string)
    ensures exists i, j :: StripsTo(s, i, j)
    ensures forall i, j :: StripsTo(s, i, j) ==> s[i..j] == Strip(s)
  {
    var i0, j0 := StripMeetsStripsTo(s);
    forall i, j | StripsTo(s, i, j)
      ensures s[i..j] == Strip(s)
    {
      StripsToUnique(s, i, j, i0, j0);
    }
  }

  /** Surrounding a string with whitespace does not change what `strip()` returns. */
  lemma StripIgnoresPadding(w1: string, s: string, w2: string)
    requires AllSpace(w1) && AllSpace(w2)
    ensures Strip(w1 + s + w2) == Strip(s)
  {
    var i, j := StripMeetsStripsTo(s);
    var i', j' := StripMeetsStripsTo(w1 + s + w2);
    StripsToPadded(w1, s, w2, i, j);
    StripsToUnique(w1 + s + w2, i', j', |w1| + i, |w1| + j);
  }

  /** Python's `str.lower()` on one character, for the ASCII letters. */
  function LowerChar(c: char): char {
    if 'A' <= c <= 'Z' then (c as int + 32) as char else c
  }

  function UpperChar(c: char): char {
    if 'a' <= c <= 'z' then (c as int - 32) as char else c
  }

  /** Upper-casing maps whitespace to whitespace and nothing else to whitespace. */
  lemma UpperCharKeepsSpace(c: char)
    ensures IsSpace(UpperChar(c)) <==> IsSpace(c)
  {
  }

  /** `s.lower()` for strings whose only cased letters are ASCII. */
  function Lower(s: string): (r: string)
    ensures |r| == |s|
    ensures forall i :: 0 <= i < |s| ==> r[i] == LowerChar(s[i])
  {
    if s == [] then [] else [LowerChar(s[0])] + Lower(s[1..])
  }

  function Upper(s: string): (r: string)
    ensures |r| == |s|
    ensures forall i :: 0 <= i < |s| ==> r[i] == UpperChar(s[i])
  {
    if s == [] then [] else [UpperChar(s[0])] + Upper(s[1..])
  }

  /** Lower-casing forgets how a string was capitalised. */
  lemma LowerOfUpper(s: string)
    ensures Lower(Upper(s)) == Lower(s)
  {
    forall i | 0 <= i < |s|
      ensures Lower(Upper(s))[i] == Lower(s)[i]
    {
      var c := s[i];
      if 'a' <= c <= 'z' {
        assert UpperChar(c) as int == c as int - 32;
      }
    }
  }

  /** Upper-casing commutes with `strip()`: it maps whitespace to whitespace
      and everything else to non-whitespace. */
  lemma UpperKeepsStrip(s: string)
    ensures Strip(Upper(s)) == Upper(Strip(s))
  {
    var i, j := StripMeetsStripsTo(s);
    StripsToUpper(s, i, j);
    var i', j' := StripMeetsStripsTo(Upper(s));
    StripsToUnique(Upper(s), i', j', i, j);
  }

  /** The bounds `strip()` finds in `s` are also its bounds in `Upper(s)`. */
  lemma StripsToUpper(s: string, i: int, j: int)
    requires StripsTo(s, i, j)
    ensures StripsTo(Upper(s), i, j) && Upper(s)[i..j] == Upper(s[i..j])
  {
    var t := Upper(s);
    forall k | 0 <= k < |s|
      ensures IsSpace(t[k]) <==> IsSpace(s[k])
    {
      UpperCharKeepsSpace(s[k]);
    }
  }

  /** `sep.join(parts)`. */
  function Join(sep: string, parts: seq<string>): string {
    if |parts| == 0 then ""
    else if |parts| == 1 then parts[0]
    else parts[0] + sep + Join(sep, parts[1..])
  }

  /** The joined text begins with the first part. */
  lemma {:induction false} JoinStartsWithFirst(sep: string, parts: seq<string>)
    requires |parts| > 0
    ensures parts[0] <= Join(sep, parts)
  {
  }

  /** Joining one more part extends the text by the separator and that part. */
  lemma {:induction false} JoinSnoc(sep: string, parts: seq<string>, last: string)
    requires |parts| > 0
    ensures Join(sep, parts + [last]) == Join(sep, parts) + sep + last
  {
    if |parts| == 1 {
      assert parts + [last] == [parts[0], last];
      assert [parts[0], last][1..] == [last];
    } else {
      assert (parts + [last])[1..] == parts[1..] + [last];
      JoinSnoc(sep, parts[1..], last);
    }
  }

  function DigitChar(d: nat): (c: char)
    requires d < 10
    ensures '0' <= c <= '9'
  {
    ('0' as int + d) as char
  }

  /** Python's `str(n)` for a non-negative integer: its decimal digits,
      most significant first, with no leading zero. */
  function Decimal(n: nat): (r: string)
    ensures |r| > 0
    ensures forall i :: 0 <= i < |r| ==> '0' <= r[i] <= '9'
    ensures |r| > 1 ==> r[0] != '0'
  {
    if n < 10 then [DigitChar(n)] else Decimal(n / 10) + [DigitChar(n % 10)]
  }

  /** The number a string of decimal digits denotes (Python's `int(s)`). */
  function DecimalValue(s: string): nat
    requires forall i :: 0 <= i < |s| ==> '0' <= s[i] <= '9'
  {
    if s == [] then 0
    else DecimalValue(s[..|s| - 1]) * 10 + (s[|s| - 1] as int - '0' as int)
  }

  /** Reading back the decimal rendering gives the number rendered. */
  lemma {:induction false} DecimalRoundTrip(n: nat)
    ensures DecimalValue(Decimal(n)) == n
  {
    if n >= 10 {
      var r := Decimal(n);
      assert r[..|r| - 1] == Decimal(n / 10);
      DecimalRoundTrip(n / 10);
    }
  }
}
