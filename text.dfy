/** String operations of Python's `str` that the agent and the configuration loader
    rely on, stated over `seq<char>`: `strip()`, `find`/`in`, `upper()`, `split(sep)[0]`
    and `str(int)`. */
module Text {

  datatype Option<+T> = None | Some(value: T)

  /** A value, or the error an operation raised instead. */
  datatype Result<+T, +E> = Success(value: T) | Failure(error: E)

  /** The characters for which Python's `str.isspace()` holds. */
  predicate IsSpace(c: char) {
    || c == ' ' || c == '\t' || c == '\n' || c == '\r' || c == '\U{0B}' || c == '\U{0C}'
    || ('\U{1C}' <= c <= '\U{1F}') || c == '\U{85}' || c == '\U{A0}' || c == '\U{1680}'
    || ('\U{2000}' <= c <= '\U{200A}') || c == '\U{2028}' || c == '\U{2029}'
    || c == '\U{202F}' || c == '\U{205F}' || c == '\U{3000}'
  }

  /** The number of whitespace characters at the start of `s`. */
  function LeadingSpace(s: string): (n: nat)
    ensures n <= |s|
  {
    if s == [] || !IsSpace(s[0]) then 0 else 1 + LeadingSpace(s[1..])
  }

  /** `LeadingSpace` counts exactly the whitespace run at the start. */
  lemma {:induction false} LeadingSpaceSpec(s: string)
    ensures forall k :: 0 <= k < LeadingSpace(s) ==> IsSpace(s[k])
    ensures LeadingSpace(s) < |s| ==> !IsSpace(s[LeadingSpace(s)])
  {
    if s != [] && IsSpace(s[0]) {
      LeadingSpaceSpec(s[1..]);
    }
  }

  /** The number of whitespace characters at the end of `s`. */
  function TrailingSpace(s: string): (n: nat)
    ensures n <= |s|
  {
    if s == [] || !IsSpace(s[|s| - 1]) then 0 else 1 + TrailingSpace(s[..|s| - 1])
  }

  /** `TrailingSpace` counts exactly the whitespace run at the end. */
  lemma {:induction false} TrailingSpaceSpec(s: string)
    ensures forall k :: |s| - TrailingSpace(s) <= k < |s| ==> IsSpace(s[k])
    ensures TrailingSpace(s) < |s| ==> !IsSpace(s[|s| - 1 - TrailingSpace(s)])
  {
    if s != [] && IsSpace(s[|s| - 1]) {
      TrailingSpaceSpec(s[..|s| - 1]);
    }
  }

  /** `r` is `s` with the whitespace before offset `a` and after `a + |r|` removed,
      and `r` neither starts nor ends with whitespace. */
  ghost predicate Stripped(s: string, a: nat, r: string) {
    && a + |r| <= |s|
    && r == s[a..a + |r|]
    && (forall k :: 0 <= k < a ==> IsSpace(s[k]))
    && (forall k :: a + |r| <= k < |s| ==> IsSpace(s[k]))
    && (r != [] ==> !IsSpace(r[0]) && !IsSpace(r[|r| - 1]))
  }

  /** Python's `s.strip()`. */
  function Strip(s: string): string {
    var t := s[LeadingSpace(s)..];
    t[..|t| - TrailingSpace(t)]
  }

  /** `strip()` removes the whitespace at both ends and nothing else. */
  lemma StripStrips(s: string)
    ensures Stripped(s, LeadingSpace(s), Strip(s))
  {
    var a := LeadingSpace(s);
    var t := s[a..];
    var r := Strip(s);
    LeadingSpaceSpec(s);
    TrailingSpaceSpec(t);
    assert r == s[a..a + |r|];
    forall k | a + |r| <= k < |s| ensures IsSpace(s[k]) {
      assert s[k] == t[k - a];
    }
    if r != [] {
      assert r[0] == s[a];
    }
  }

  /** `Stripped` is a complete description of `strip()`: only one string satisfies it. */
  lemma StripUnique(s: string, a: nat, r: string)
    requires Stripped(s, a, r)
    ensures r == Strip(s)
  {
    var a0 := LeadingSpace(s);
    var r0 := Strip(s);
    StripStrips(s);
    LeadingSpaceSpec(s);
    if r == [] {
      assert forall k :: 0 <= k < |s| ==> IsSpace(s[k]);
      assert a0 == |s|;
    } else {
      assert s[a] == r[0];
      assert a0 == a;
      assert s[a + |r| - 1] == r[|r| - 1];
      assert r0 != [] by { assert s[a0] == r[0]; }
      assert s[a0 + |r0| - 1] == r0[|r0| - 1];
      assert |r0| == |r|;
    }
  }

  /** `pat` occurs in `s` at offset `i`. */
  predicate Occurs(s: string, pat: string, i: int) {
    0 <= i && i + |pat| <= |s| && s[i..i + |pat|] == pat
  }

  /** The first offset at or after `from` where `pat` occurs in `s` (Python's `s.find(pat, from)`). */
  function FindFrom(s: string, pat: string, from: nat): (r: Option<nat>)
    decreases |s| - from
    ensures r.Some? ==> from <= r.value && Occurs(s, pat, r.value)
    ensures r.Some? ==> forall k :: from <= k < r.value ==> !Occurs(s, pat, k)
    ensures r.None? ==> forall k :: from <= k ==> !Occurs(s, pat, k)
  {
    if from + |pat| > |s| then None
    else if s[from..from + |pat|] == pat then Some(from)
    else FindFrom(s, pat, from + 1)
  }

  /** Python's substring test `pat in s`. */
  predicate Contains(s: string, pat: string) {
    FindFrom(s, pat, 0).Some?
  }

  lemma ContainsAt(s: string, pat: string, i: int)
    requires Occurs(s, pat, i)
    ensures Contains(s, pat)
  {
  }

  /** If some character of `pat` appears nowhere in `s`, then `pat` is not a substring of `s`. */
  lemma MissingCharNotContained(s: string, pat: string, j: nat)
    requires j < |pat|
    requires forall k :: 0 <= k < |s| ==> s[k] != pat[j]
    ensures !Contains(s, pat)
  {
    forall i: int | 0 <= i ensures !Occurs(s, pat, i) {
      if i + |pat| <= |s| {
        assert s[i..i + |pat|][j] == s[i + j];
      }
    }
  }

  /** Upper case of an ASCII character; every other character is returned unchanged. */
  function AsciiUpper(c: char): char {
    if 'a' <= c <= 'z' then (c as int - 32) as char else c
  }

  /** Python's `c.upper()`, for ASCII characters and for every non-ASCII character whose
      full Unicode uppercase mapping contains an ASCII letter; any other character is
      kept as it is, which changes no ASCII substring of the result. */
  function UpperChar(c: char): string {
    if c < '\U{80}' then [AsciiUpper(c)]
    else if c == '\U{DF}' then "SS"
    else if c == '\U{131}' then "I"
    else if c == '\U{17F}' then "S"
    else if c == '\U{149}' then "\U{2BC}N"
    else if c == '\U{1F0}' then "J\U{30C}"
    else if c == '\U{1E96}' then "H\U{331}"
    else if c == '\U{1E97}' then "T\U{308}"
    else if c == '\U{1E98}' then "W\U{30A}"
    else if c == '\U{1E99}' then "Y\U{30A}"
    else if c == '\U{1E9A}' then "A\U{2BE}"
    else if c == '\U{FB00}' then "FF"
    else if c == '\U{FB01}' then "FI"
    else if c == '\U{FB02}' then "FL"
    else if c == '\U{FB03}' then "FFI"
    else if c == '\U{FB04}' then "FFL"
    else if c == '\U{FB05}' || c == '\U{FB06}' then "ST"
    else [c]
  }

  /** Python's `s.upper()`, character by character. */
  function Upper(s: string): string {
    if s == [] then [] else UpperChar(s[0]) + Upper(s[1..])
  }

  lemma {:induction false} UpperAppend(a: string, b: string)
    ensures Upper(a + b) == Upper(a) + Upper(b)
  {
    if a != [] {
      assert (a + b)[0] == a[0];
      assert (a + b)[1..] == a[1..] + b;
      UpperAppend(a[1..], b);
    } else {
      assert a + b == b;
    }
  }

  /** On ASCII text `upper()` keeps the length and maps each letter to its capital. */
  lemma {:induction false} UpperOfAscii(s: string)
    requires forall k :: 0 <= k < |s| ==> s[k] < '\U{80}'
    ensures |Upper(s)| == |s|
    ensures forall k :: 0 <= k < |s| ==> Upper(s)[k] == AsciiUpper(s[k])
  {
    if s != [] {
      UpperOfAscii(s[1..]);
    }
  }

  /** `upper()` introduces no space character: a space in the result comes from a space in the input. */
  lemma {:induction false} UpperKeepsSpaceFree(s: string)
    requires forall k :: 0 <= k < |s| ==> s[k] != ' '
    ensures forall k :: 0 <= k < |Upper(s)| ==> Upper(s)[k] != ' '
  {
    if s != [] {
      UpperKeepsSpaceFree(s[1..]);
      var h := UpperChar(s[0]);
      assert forall k :: 0 <= k < |h| ==> h[k] != ' ';
      assert Upper(s) == h + Upper(s[1..]);
    }
  }

  /** Python's `s.split(sep)[0]`: the part of `s` before the first `sep`, or all of `s`. */
  function PrefixBefore(s: string, sep: char): (r: string)
    ensures |r| <= |s| && r == s[..|r|]
    ensures forall k :: 0 <= k < |r| ==> r[k] != sep
    ensures |r| < |s| ==> s[|r|] == sep
  {
    if s == [] || s[0] == sep then [] else [s[0]] + PrefixBefore(s[1..], sep)
  }

  /** When the first `sep` of `s` is at offset `n`, the part before it is `s[..n]`. */
  lemma PrefixBeforeAt(s: string, sep: char, n: nat)
    requires n < |s| && s[n] == sep
    requires forall k :: 0 <= k < n ==> s[k] != sep
    ensures PrefixBefore(s, sep) == s[..n]
  {
  }

  predicate IsDigit(c: char) {
    '0' <= c <= '9'
  }

  /** The number a string of decimal digits denotes. */
  function DecimalValue(s: string): nat
    requires forall k :: 0 <= k < |s| ==> IsDigit(s[k])
  {
    if s == [] then 0
    else
      assert IsDigit(s[|s| - 1]);
      DecimalValue(s[..|s| - 1]) * 10 + (s[|s| - 1] as int - '0' as int)
  }

  /** Python's `str(n)` for a natural number: the shortest decimal numeral denoting `n`. */
  function NatToString(n: nat): (r: string)
    ensures |r| >= 1
    ensures forall k :: 0 <= k < |r| ==> IsDigit(r[k])
    ensures DecimalValue(r) == n
    ensures r[0] == '0' ==> n == 0
  {
    if n < 10 then [('0' as int + n) as char]
    else
      var p := NatToString(n / 10);
      var r := p + [('0' as int + n % 10) as char];
      assert r[..|r| - 1] == p;
      r
  }

  /** Python's `str(n)` for an integer. */
  function IntToString(n: int): string {
    if n < 0 then "-" + NatToString(-n) else NatToString(n)
  }
}
