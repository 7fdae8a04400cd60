/** String operations the renaming code relies on, with the meaning Python gives them
    for ASCII text: `str.isdigit`, `int`, `str`, `str.split`, `"\n".join`, `str.strip`,
    `str.endswith`, `str.lower` and `in` on substrings. */
module Text {

  datatype Option<T> = None | Some(value: T)

  // ---------------------------------------------------------------- sequences

  /** Regrouping a concatenation of three parts. */
  lemma ConcatAssoc<T>(x: seq<T>, y: seq<T>, z: seq<T>)
    ensures x + (y + z) == (x + y) + z
  {
  }

  /** Position `k > 0` of a sequence with a first element added. */
  lemma ConsAt<T>(x: T, rest: seq<T>, k: nat)
    requires 0 < k <= |rest|
    ensures ([x] + rest)[k] == rest[k - 1]
  {
  }

  /** Position `j` of a concatenation. */
  lemma ConcatAt<T>(a: seq<T>, b: seq<T>, j: nat)
    requires j < |a| + |b|
    ensures (a + b)[j] == if j < |a| then a[j] else b[j - |a|]
  {
  }

  // ---------------------------------------------------------------- digits

  predicate IsDigit(c: char) { '0' <= c <= '9' }

  /** `str.isdigit()` restricted to ASCII: non-empty and every character a digit. */
  predicate IsDigits(s: string) {
    |s| > 0 && forall i :: 0 <= i < |s| ==> IsDigit(s[i])
  }

  /** `int(s)` for a string of ASCII digits (leading zeros allowed). */
  function DigitsValue(s: string): nat
    requires forall i :: 0 <= i < |s| ==> IsDigit(s[i])
  {
    if |s| == 0 then 0
    else
      assert IsDigit(s[|s| - 1]);
      DigitsValue(s[..|s| - 1]) * 10 + (s[|s| - 1] as int - '0' as int)
  }

  function DigitChar(d: nat): (c: char)
    requires d < 10
    ensures IsDigit(c) && c as int - '0' as int == d
  {
    ('0' as int + d) as char
  }

  /** `str(n)` for a non-negative integer: its decimal digits without leading zeros. */
  function NatToString(n: nat): (s: string)
    ensures IsDigits(s)
    ensures n >= 10 <==> |s| > 1 && s[0] != '0'
    ensures n < 10 <==> |s| == 1
  {
    if n < 10 then [DigitChar(n)] else NatToString(n / 10) + [DigitChar(n % 10)]
  }

  /** `int(str(n)) == n`. */
  lemma {:induction false} NatToStringRoundTrip(n: nat)
    ensures DigitsValue(NatToString(n)) == n
  {
    if n >= 10 {
      var s := NatToString(n);
      assert s[..|s| - 1] == NatToString(n / 10);
      NatToStringRoundTrip(n / 10);
    }
  }

  // ---------------------------------------------------------------- split and join

  /** Index of the first `c` in `s`, or `|s|` when there is none. */
  function IndexOf(s: string, c: char): (i: nat)
    ensures i <= |s|
    ensures i < |s| ==> s[i] == c
    ensures forall j :: 0 <= j < i ==> s[j] != c
  {
    if |s| == 0 then 0 else if s[0] == c then 0 else 1 + IndexOf(s[1..], c)
  }

  /** `s.split(c)` for a one-character separator: always at least one part. */
  function Split(s: string, c: char): (parts: seq<string>)
    ensures |parts| >= 1
    decreases |s|
  {
    var i := IndexOf(s, c);
    if i == |s| then [s] else [s[..i]] + Split(s[i + 1..], c)
  }

  /** `c.join(parts)` for a one-character separator. */
  function Join(parts: seq<string>, c: char): string
  {
    if |parts| == 0 then "" else if |parts| == 1 then parts[0] else parts[0] + [c] + Join(parts[1..], c)
  }

  /** A split at a separator found at `i`. */
  lemma SplitAt(s: string, c: char, i: nat)
    requires i < |s| && IndexOf(s, c) == i
    ensures Split(s, c) == [s[..i]] + Split(s[i + 1..], c)
  {
  }

  /** A split that finds no separator. */
  lemma SplitNone(s: string, c: char)
    requires IndexOf(s, c) == |s|
    ensures Split(s, c) == [s]
  {
  }

  /** Splitting undoes joining. */
  lemma {:induction false} JoinSplit(s: string, c: char)
    ensures Join(Split(s, c), c) == s
    decreases |s|
  {
    var i := IndexOf(s, c);
    if i < |s| {
      var rest := Split(s[i + 1..], c);
      SplitAt(s, c, i);
      JoinSplit(s[i + 1..], c);
      assert Join([s[..i]] + rest, c) == s[..i] + [c] + Join(rest, c) by {
        assert ([s[..i]] + rest)[1..] == rest;
      }
      assert s == s[..i] + [c] + s[i + 1..];
    } else {
      SplitNone(s, c);
    }
  }

  /** No part of a split contains the separator. */
  lemma {:induction false} SplitPartsFree(s: string, c: char)
    ensures forall k :: 0 <= k < |Split(s, c)| ==> c !in Split(s, c)[k]
    decreases |s|
  {
    var i := IndexOf(s, c);
    if i < |s| {
      SplitPartsFree(s[i + 1..], c);
    }
  }

  /** Where the first separator of a concatenation is. */
  lemma {:induction false} IndexOfAppend(a: string, t: string, c: char)
    ensures IndexOf(a, c) < |a| ==> IndexOf(a + t, c) == IndexOf(a, c)
    ensures IndexOf(a, c) == |a| ==> IndexOf(a + t, c) == |a| + IndexOf(t, c)
  {
    if |a| > 0 {
      assert (a + t)[1..] == a[1..] + t;
      IndexOfAppend(a[1..], t, c);
    } else {
      assert a + t == t;
    }
  }


  /** When `a` holds no separator, the one after it ends the first part. */
  lemma SplitAroundFirst(a: string, b: string, c: char)
    requires IndexOf(a, c) == |a|
    ensures Split(a + [c] + b, c) == [a] + Split(b, c)
  {
    var s := a + [c] + b;
    IndexOfAppend(a, [c] + b, c);
    assert s == a + ([c] + b);
    assert IndexOf(s, c) == |a|;
    SplitAt(s, c, |a|);
    assert s[..|a|] == a;
    assert s[|a| + 1..] == b;
  }

  /** When `a` holds a separator at `i`, both splits cut there first. */
  lemma SplitAroundLater(a: string, b: string, c: char, i: nat)
    requires i < |a| && IndexOf(a, c) == i
    ensures Split(a + [c] + b, c) == [a[..i]] + Split(a[i + 1..] + [c] + b, c)
    ensures Split(a, c) == [a[..i]] + Split(a[i + 1..], c)
  {
    var s := a + [c] + b;
    IndexOfAppend(a, [c] + b, c);
    assert s == a + ([c] + b);
    assert IndexOf(s, c) == i;
    assert s[..i] == a[..i];
    assert s[i + 1..] == a[i + 1..] + [c] + b;
    SplitAt(s, c, i);
    SplitAt(a, c, i);
  }

  /** Splitting a text made of two texts around a separator splits each of them. */
  lemma {:induction false} SplitAround(a: string, b: string, c: char)
    ensures Split(a + [c] + b, c) == Split(a, c) + Split(b, c)
    decreases |a|
  {
    var i := IndexOf(a, c);
    if i == |a| {
      SplitAroundFirst(a, b, c);
      SplitNone(a, c);
    } else {
      SplitAroundLater(a, b, c, i);
      SplitAround(a[i + 1..], b, c);
      ConcatAssoc([a[..i]], Split(a[i + 1..], c), Split(b, c));
    }
  }

  /** Splitting three texts joined by two separators splits each of them. */
  lemma SplitAround3(a: string, m: string, b: string, c: char)
    ensures Split(a + [c] + m + [c] + b, c) == Split(a, c) + Split(m, c) + Split(b, c)
  {
    assert a + [c] + m + [c] + b == a + [c] + (m + [c] + b);
    SplitAround(a, m + [c] + b, c);
    SplitAround(m, b, c);
  }

  /** A text without the separator is a single part. */
  lemma SplitWithout(s: string, c: char)
    requires c !in s
    ensures Split(s, c) == [s]
  {
    assert forall j :: 0 <= j < |s| ==> s[j] != c;
  }

  /** Joining parts that do not contain the separator, then splitting, gives the parts back. */
  lemma {:induction false} SplitJoin(parts: seq<string>, c: char)
    requires |parts| >= 1
    requires forall k :: 0 <= k < |parts| ==> c !in parts[k]
    ensures Split(Join(parts, c), c) == parts
    decreases |parts|
  {
    if |parts| == 1 {
      SplitWithout(parts[0], c);
    } else {
      var tail := Join(parts[1..], c);
      assert Join(parts, c) == parts[0] + [c] + tail;
      SplitJoin(parts[1..], c);
      SplitAround(parts[0], tail, c);
      SplitWithout(parts[0], c);
      assert parts == [parts[0]] + parts[1..];
    }
  }

  // ---------------------------------------------------------------- strip

  /** The characters `str.strip()` removes, restricted to ASCII. */
  const Whitespace: set<char> := {' ', '\t', '\n', '\U{B}', '\U{C}', '\r', '\U{1C}', '\U{1D}', '\U{1E}', '\U{1F}'}

  /** Removes every leading character that is in `cs`. */
  function DropLeading(s: string, cs: set<char>): (r: string)
    ensures |r| <= |s| && r == s[|s| - |r|..]
    ensures forall i :: 0 <= i < |s| - |r| ==> s[i] in cs
    ensures |r| > 0 ==> r[0] !in cs
  {
    if |s| > 0 && s[0] in cs then
      var t := s[1..];
      var r := DropLeading(t, cs);
      assert t[|t| - |r|..] == s[|s| - |r|..];
      assert forall i :: 1 <= i < |s| - |r| ==> s[i] == t[i - 1];
      r
    else s
  }

  /** Removes every trailing character that is in `cs`. */
  function DropTrailing(s: string, cs: set<char>): (r: string)
    ensures |r| <= |s| && r == s[..|r|]
    ensures forall i :: |r| <= i < |s| ==> s[i] in cs
    ensures |r| > 0 ==> r[|r| - 1] !in cs
  {
    if |s| > 0 && s[|s| - 1] in cs then
      var t := s[..|s| - 1];
      var r := DropTrailing(t, cs);
      assert t[..|r|] == s[..|r|];
      assert forall i :: |r| <= i < |t| ==> s[i] == t[i];
      r
    else s
  }

  /** `s.strip(chars)`: cuts every character of `cs` off both ends of `s`. */
  function StripChars(s: string, cs: set<char>): (r: string)
    ensures |r| <= |s|
    ensures |r| > 0 ==> r[0] !in cs && r[|r| - 1] !in cs
  {
    DropTrailing(DropLeading(s, cs), cs)
  }

  /** What `s.strip(chars)` keeps is a middle slice of `s`, everything cut off on either side
      is in `cs`, and the result is empty exactly when every character of `s` is in `cs`. */
  lemma StripCharsSlice(s: string, cs: set<char>) returns (lo: nat, hi: nat)
    ensures lo <= hi <= |s| && StripChars(s, cs) == s[lo..hi]
    ensures forall i :: 0 <= i < lo ==> s[i] in cs
    ensures forall i :: hi <= i < |s| ==> s[i] in cs
    ensures StripChars(s, cs) == "" <==> forall i :: 0 <= i < |s| ==> s[i] in cs
  {
    var d := DropLeading(s, cs);
    var r := DropTrailing(d, cs);
    lo := |s| - |d|;
    hi := lo + |r|;
    assert r == s[lo..hi] by {
      assert d == s[lo..];
      assert r == d[..|r|];
    }
    forall i | hi <= i < |s|
      ensures s[i] in cs
    {
      assert s[i] == d[i - lo];
    }
    if |r| > 0 {
      assert r[0] == s[lo];
    }
  }

  /** `s.strip()`. */
  function Strip(s: string): string { StripChars(s, Whitespace) }

  /** Stripping leaves alone a text whose ends are not stripped characters. */
  lemma StripCharsKeeps(s: string, cs: set<char>)
    requires |s| > 0 && s[0] !in cs && s[|s| - 1] !in cs
    ensures StripChars(s, cs) == s
  {
    assert DropLeading(s, cs) == s;
  }

  // ---------------------------------------------------------------- substrings

  /** `s.endswith(suffix)`. */
  predicate EndsWith(s: string, suffix: string) {
    |suffix| <= |s| && s[|s| - |suffix|..] == suffix
  }

  /** The two characters `". "` occur in `s` at index `j`. */
  predicate DotSpaceAt(s: string, j: int) {
    0 <= j && j + 1 < |s| && s[j] == '.' && s[j + 1] == ' '
  }

  /** Index of the first occurrence of the two characters `". "` in `s` at or after `k`,
      or `|s|`. */
  function FindDotSpaceFrom(s: string, k: nat): (i: nat)
    requires k <= |s|
    ensures k <= i <= |s|
    ensures i < |s| ==> DotSpaceAt(s, i)
    ensures forall j :: k <= j < i ==> !DotSpaceAt(s, j)
    decreases |s| - k
  {
    if k + 1 >= |s| then |s| else if DotSpaceAt(s, k) then k else FindDotSpaceFrom(s, k + 1)
  }

  /** Index of the first occurrence of `". "` in `s`, or `|s|`. */
  function FindDotSpace(s: string): (i: nat)
    ensures i <= |s|
    ensures i < |s| ==> DotSpaceAt(s, i)
    ensures forall j :: 0 <= j < i ==> !DotSpaceAt(s, j)
  {
    FindDotSpaceFrom(s, 0)
  }

  /** In a line that starts with digits followed by `". "`, the first `". "` is the one
      after the digits. */
  lemma {:induction false} FindDotSpaceAfterDigits(digits: string, rest: string, k: nat)
    requires IsDigits(digits) && k <= |digits|
    ensures FindDotSpaceFrom(digits + ". " + rest, k) == |digits|
    decreases |digits| - k
  {
    var line := digits + ". " + rest;
    if k < |digits| {
      assert line[k] == digits[k];
      FindDotSpaceAfterDigits(digits, rest, k + 1);
    } else {
      assert DotSpaceAt(line, k);
    }
  }

  /** A text with `". "` at `j` is what comes before it, `". "`, and what comes after. */
  lemma DotSpaceCut(s: string, j: nat)
    requires DotSpaceAt(s, j)
    ensures s == s[..j] + ". " + s[j + 2..]
  {
    var mid := s[j..j + 2];
    assert mid == ". " by {
      assert |mid| == 2 && mid[0] == s[j] && mid[1] == s[j + 1];
    }
    assert s[j..] == mid + s[j + 2..];
    assert s == s[..j] + s[j..];
  }

  /** `'. ' in s`. */
  predicate HasDotSpace(s: string) { FindDotSpace(s) < |s| }

  /** `str.lower()` on ASCII letters. */
  function Lower(s: string): (r: string)
    ensures |r| == |s|
    ensures forall i :: 0 <= i < |s| ==> r[i] == LowerChar(s[i])
  {
    if |s| == 0 then "" else [LowerChar(s[0])] + Lower(s[1..])
  }

  function LowerChar(c: char): char {
    if 'A' <= c <= 'Z' then (c as int - 'A' as int + 'a' as int) as char else c
  }
}
