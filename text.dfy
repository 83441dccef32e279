/**
  The pieces of Python's `str` behaviour that the modelled code relies on:
  `strip`, `split`, `join`, `lower`/`upper`, `in` on strings, `str(int)`,
  `int(digits)` and the slice `s[:k]`.
*/
module Text {

  /** `c.isspace()`: the characters Python's `str.strip()` and the regex `\s` treat as whitespace. */
  predicate IsSpace(c: char) {
    || c == ' ' || '\t' <= c <= '\r' || '\U{1c}' <= c <= '\U{1f}'
    || c == '\U{85}' || c == '\U{a0}' || c == '\U{1680}' || '\U{2000}' <= c <= '\U{200a}'
    || c == '\U{2028}' || c == '\U{2029}' || c == '\U{202f}' || c == '\U{205f}' || c == '\U{3000}'
  }

  predicate IsDigit(c: char) { '0' <= c <= '9' }

  predicate IsLowerAlnum(c: char) { 'a' <= c <= 'z' || IsDigit(c) }

  function LowerChar(c: char): char {
    if 'A' <= c <= 'Z' then (c as int - 'A' as int + 'a' as int) as char else c
  }

  function UpperChar(c: char): char {
    if 'a' <= c <= 'z' then (c as int - 'a' as int + 'A' as int) as char else c
  }

  /** `s.lower()` on ASCII letters. */
  function Lower(s: string): string {
    seq(|s|, i requires 0 <= i < |s| => LowerChar(s[i]))
  }

  /** `s.upper()` on ASCII letters. */
  function Upper(s: string): string {
    seq(|s|, i requires 0 <= i < |s| => UpperChar(s[i]))
  }

  // ---------------------------------------------------------------- strip

  /** Neither end of `s` is whitespace. */
  predicate Stripped(s: string) {
    s == [] || (!IsSpace(s[0]) && !IsSpace(s[|s| - 1]))
  }

  function LStrip(s: string): string {
    if s != [] && IsSpace(s[0]) then LStrip(s[1..]) else s
  }

  function RStrip(s: string): string {
    if s != [] && IsSpace(s[|s| - 1]) then RStrip(s[..|s| - 1]) else s
  }

  lemma {:induction false} LStripShape(s: string)
    ensures LStrip(s) == [] || !IsSpace(LStrip(s)[0])
    ensures |LStrip(s)| <= |s| && LStrip(s) == s[|s| - |LStrip(s)|..]
    ensures (forall i :: 0 <= i < |s| ==> IsSpace(s[i])) ==> LStrip(s) == []
  {
    if s != [] && IsSpace(s[0]) {
      LStripShape(s[1..]);
    }
  }

  lemma {:induction false} RStripShape(s: string)
    ensures RStrip(s) == [] || !IsSpace(RStrip(s)[|RStrip(s)| - 1])
    ensures |RStrip(s)| <= |s| && RStrip(s) == s[..|RStrip(s)|]
  {
    if s != [] && IsSpace(s[|s| - 1]) {
      RStripShape(s[..|s| - 1]);
    }
  }

  /** `s.strip()`: the result has no whitespace at either end, and a string that already has none is kept. */
  function Strip(s: string): (r: string)
    ensures Stripped(r)
    ensures |r| <= |s|
    ensures Stripped(s) ==> r == s
    ensures r == [] <==> forall i :: 0 <= i < |s| ==> IsSpace(s[i])
  {
    StripShape(s);
    RStrip(LStrip(s))
  }

  lemma StripShape(s: string)
    ensures Stripped(RStrip(LStrip(s)))
    ensures |RStrip(LStrip(s))| <= |s|
    ensures Stripped(s) ==> RStrip(LStrip(s)) == s
    ensures RStrip(LStrip(s)) == [] <==> forall i :: 0 <= i < |s| ==> IsSpace(s[i])
  {
    var l := LStrip(s);
    LStripShape(s);
    RStripShape(l);
    var r := RStrip(l);
    if r != [] {
      assert r[0] == l[0];
    } else if l != [] {
      RStripAllSpace(l);
    }
    if r == [] {
      forall i | 0 <= i < |s| ensures IsSpace(s[i]) {
        LStripPrefixSpace(s, i);
      }
    }
  }

  lemma {:induction false} RStripAllSpace(s: string)
    ensures RStrip(s) == [] ==> forall i :: 0 <= i < |s| ==> IsSpace(s[i])
  {
    if s != [] && IsSpace(s[|s| - 1]) {
      RStripAllSpace(s[..|s| - 1]);
    }
  }

  lemma {:induction false} LStripPrefixSpace(s: string, i: int)
    requires 0 <= i < |s| - |LStrip(s)|
    ensures IsSpace(s[i])
  {
    if s != [] && IsSpace(s[0]) && i > 0 {
      LStripPrefixSpace(s[1..], i - 1);
    }
  }

  /** Stripping only removes characters: every character left is one of the input's. */
  lemma StripChars(s: string)
    ensures forall i :: 0 <= i < |Strip(s)| ==> Strip(s)[i] in s
  {
    var l := LStrip(s);
    LStripShape(s);
    RStripShape(l);
    forall i | 0 <= i < |Strip(s)| ensures Strip(s)[i] in s {
      assert Strip(s)[i] == l[i] == s[|s| - |l| + i];
    }
  }

  lemma {:induction false} LStripUpper(s: string)
    ensures LStrip(Upper(s)) == Upper(LStrip(s))
  {
    if s != [] {
      assert Upper(s)[1..] == Upper(s[1..]);
      if IsSpace(s[0]) {
        LStripUpper(s[1..]);
      }
    }
  }

  lemma {:induction false} RStripUpper(s: string)
    ensures RStrip(Upper(s)) == Upper(RStrip(s))
  {
    if s != [] {
      assert Upper(s)[..|s| - 1] == Upper(s[..|s| - 1]);
      if IsSpace(s[|s| - 1]) {
        RStripUpper(s[..|s| - 1]);
      }
    }
  }

  /** Upper-casing and stripping commute: no letter is whitespace. */
  lemma StripUpper(s: string)
    ensures Upper(Strip(s)) == Strip(Upper(s))
  {
    LStripUpper(s);
    RStripUpper(LStrip(s));
  }

  lemma StripIdempotent(s: string)
    ensures Strip(Strip(s)) == Strip(s)
  {
  }

  /** Every character of `w` is whitespace. */
  predicate AllSpace(w: string) {
    forall i :: 0 <= i < |w| ==> IsSpace(w[i])
  }

  lemma {:induction false} LStripPast(lead: string, w: string)
    requires AllSpace(lead)
    requires w != [] && !IsSpace(w[0])
    ensures LStrip(lead + w) == w
  {
    if lead != [] {
      assert (lead + w)[1..] == lead[1..] + w;
      LStripPast(lead[1..], w);
    }
  }

  lemma {:induction false} RStripPast(w: string, trail: string)
    requires AllSpace(trail)
    requires w != [] && !IsSpace(w[|w| - 1])
    ensures RStrip(w + trail) == w
  {
    if trail != [] {
      assert (w + trail)[..|w + trail| - 1] == w + trail[..|trail| - 1];
      RStripPast(w, trail[..|trail| - 1]);
    } else {
      assert w + trail == w;
    }
  }

  /** Stripping removes exactly the whitespace padding around a stripped string. */
  lemma StripPadded(lead: string, m: string, trail: string)
    requires AllSpace(lead) && AllSpace(trail) && Stripped(m)
    ensures Strip(lead + m + trail) == m
  {
    var s := lead + m + trail;
    if m == [] {
      forall i | 0 <= i < |s| ensures IsSpace(s[i]) {
        if i < |lead| {
          assert s[i] == lead[i];
        } else {
          assert s[i] == trail[i - |lead|];
        }
      }
    } else {
      assert s == lead + (m + trail);
      LStripPast(lead, m + trail);
      RStripPast(m, trail);
    }
  }

  // ---------------------------------------------------------------- join and split

  /** `sep.join(parts)` */
  function Join(sep: string, parts: seq<string>): string {
    if |parts| == 0 then ""
    else if |parts| == 1 then parts[0]
    else parts[0] + sep + Join(sep, parts[1..])
  }

  /** The index of the first `x` in `s`, or `|s|` when there is none. */
  function IndexOf<T(==)>(s: seq<T>, x: T): (i: nat)
    ensures i <= |s|
    ensures i < |s| ==> s[i] == x
    ensures forall j :: 0 <= j < i ==> s[j] != x
  {
    if s == [] then 0
    else if s[0] == x then 0
    else 1 + IndexOf(s[1..], x)
  }

  /** A prefix holding an `x` at or before index `i` has the same first `x` as the whole sequence. */
  lemma IndexOfPrefix<T>(p: seq<T>, s: seq<T>, x: T, i: nat)
    requires p <= s && i < |p| && p[i] == x
    ensures IndexOf(s, x) == IndexOf(p, x) <= i
  {
    var a := IndexOf(p, x);
    var b := IndexOf(s, x);
    assert a <= i;
    assert b <= a by {
      assert s[a] == x;
    }
  }

  /** `s.split(c)` for a one-character separator: always at least one piece. */
  function Split(s: string, c: char): (r: seq<string>)
    ensures |r| >= 1
    ensures forall k :: 0 <= k < |r| ==> c !in r[k]
    decreases |s|
  {
    var i := IndexOf(s, c);
    if i == |s| then [s] else [s[..i]] + Split(s[i + 1..], c)
  }

  /** Joining the pieces of a split with the separator gives back the original string. */
  lemma {:induction false} JoinSplit(s: string, c: char)
    ensures Join([c], Split(s, c)) == s
    decreases |s|
  {
    var i := IndexOf(s, c);
    if i < |s| {
      var rest := s[i + 1..];
      var pieces := Split(s, c);
      assert pieces == [s[..i]] + Split(rest, c);
      assert pieces[1..] == Split(rest, c);
      JoinSplit(rest, c);
      assert Join([c], pieces) == s[..i] + [c] + Join([c], Split(rest, c));
      assert s == s[..i] + [c] + rest;
    }
  }

  /** Splitting a join whose pieces do not contain the separator gives back the pieces. */
  lemma {:induction false} SplitJoin(parts: seq<string>, c: char)
    requires |parts| >= 1
    requires forall k :: 0 <= k < |parts| ==> c !in parts[k]
    ensures Split(Join([c], parts), c) == parts
  {
    var s := Join([c], parts);
    if |parts| == 1 {
      assert IndexOf(s, c) == |s|;
    } else {
      JoinFirstSeparator(parts, c);
      SplitJoin(parts[1..], c);
      assert parts == [parts[0]] + parts[1..];
    }
  }

  /** In a join of separator-free pieces, the first separator ends the first piece. */
  lemma JoinFirstSeparator(parts: seq<string>, c: char)
    requires |parts| >= 2
    requires c !in parts[0]
    ensures var s, n := Join([c], parts), |parts[0]|;
      IndexOf(s, c) == n && s[..n] == parts[0] && s[n + 1..] == Join([c], parts[1..])
  {
    var s := Join([c], parts);
    var rest := Join([c], parts[1..]);
    assert s == parts[0] + [c] + rest;
    assert s[|parts[0]|] == c;
    forall j | 0 <= j < |parts[0]| ensures s[j] != c {
      assert s[j] == parts[0][j];
    }
    assert s[..|parts[0]|] == parts[0];
    assert s[|parts[0]| + 1..] == rest;
  }

  /** A join contains `c` only where the separator or one of the pieces does. */
  lemma {:induction false} JoinAvoids(sep: string, parts: seq<string>, c: char)
    requires c !in sep
    requires forall k :: 0 <= k < |parts| ==> c !in parts[k]
    ensures c !in Join(sep, parts)
  {
    if |parts| > 1 {
      JoinAvoids(sep, parts[1..], c);
    }
  }

  /** Everything before the first `c` (Python's `s.split(c)[0]`). */
  function Before(s: string, c: char): (r: string)
    ensures r == Split(s, c)[0]
  {
    s[..IndexOf(s, c)]
  }

  // ---------------------------------------------------------------- substrings

  predicate IsPrefix(p: string, s: string) {
    |p| <= |s| && s[..|p|] == p
  }

  /** Python's `x in s` for strings. */
  predicate Contains(s: string, x: string)
    decreases |s|
  {
    IsPrefix(x, s) || (s != [] && Contains(s[1..], x))
  }

  lemma {:induction false} ContainsAt(s: string, x: string, k: nat)
    requires k + |x| <= |s| && s[k..k + |x|] == x
    ensures Contains(s, x)
    decreases k
  {
    if k > 0 {
      assert s[1..][k - 1..k - 1 + |x|] == s[k..k + |x|];
      ContainsAt(s[1..], x, k - 1);
    }
  }

  // ---------------------------------------------------------------- numbers

  function DigitChar(d: int): char
    requires 0 <= d < 10
  {
    ('0' as int + d) as char
  }

  /** `str(n)` for a natural number. */
  function NatToString(n: nat): (r: string)
    ensures |r| >= 1
    ensures forall i :: 0 <= i < |r| ==> IsDigit(r[i])
    ensures |r| == 1 <==> n < 10
  {
    if n < 10 then [DigitChar(n)] else NatToString(n / 10) + [DigitChar(n % 10)]
  }

  /** Distinct numbers render differently, so names built from them do not collide. */
  lemma {:induction false} NatToStringInjective(a: nat, b: nat)
    requires NatToString(a) == NatToString(b)
    ensures a == b
  {
    if a >= 10 && b >= 10 {
      var sa, sb := NatToString(a), NatToString(b);
      assert sa[..|sa| - 1] == NatToString(a / 10);
      assert sb[..|sb| - 1] == NatToString(b / 10);
      NatToStringInjective(a / 10, b / 10);
      assert DigitChar(a % 10) == sa[|sa| - 1] == DigitChar(b % 10);
    }
  }

  /** `str(i)` for any integer. */
  function IntToString(i: int): string {
    if i < 0 then "-" + NatToString(-i) else NatToString(i)
  }

  /** `int(s)` for a string of ASCII digits. */
  function DigitsToNat(s: string): nat
    requires forall i :: 0 <= i < |s| ==> IsDigit(s[i])
  {
    if s == [] then 0
    else
      assert IsDigit(s[|s| - 1]);
      10 * DigitsToNat(s[..|s| - 1]) + (s[|s| - 1] as int - '0' as int)
  }

  /** Reading back what `NatToString` renders gives the number. */
  lemma {:induction false} DigitsToNatOfNatToString(n: nat)
    ensures DigitsToNat(NatToString(n)) == n
  {
    if n >= 10 {
      var s := NatToString(n);
      assert s[..|s| - 1] == NatToString(n / 10);
      DigitsToNatOfNatToString(n / 10);
    }
  }

  // ---------------------------------------------------------------- slices

  /** Python's `s[:k]`, where a negative `k` counts from the end. */
  function TakePy<T>(s: seq<T>, k: int): (r: seq<T>)
    ensures 0 <= k ==> |r| == if k < |s| then k else |s|
    ensures k < 0 ==> |r| == if -k < |s| then |s| + k else 0
    ensures r == s[..|r|]
  {
    if k >= 0 then (if k < |s| then s[..k] else s)
    else (if -k < |s| then s[..|s| + k] else [])
  }
}
