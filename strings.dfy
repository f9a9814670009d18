/**
 * The pieces of Go's `strings`, `unicode` and `fmt` packages that the
 * program relies on, over `seq<char>`: white-space trimming, prefix tests,
 * splitting at a one-character separator, joining, and decimal and boolean
 * formatting for `%d`, `%v` and `%t`.
 */
module Strings {
  import opened Wrappers

  /** unicode.IsSpace: the white-space characters that strings.TrimSpace removes. */
  predicate IsSpace(c: char) {
    || c == '\t' || c == '\n' || c == '\U{0B}' || c == '\U{0C}' || c == '\r' || c == ' '
    || c == '\U{85}' || c == '\U{A0}' || c == '\U{1680}'
    || ('\U{2000}' <= c <= '\U{200A}')
    || c == '\U{2028}' || c == '\U{2029}' || c == '\U{202F}' || c == '\U{205F}' || c == '\U{3000}'
  }

  predicate AllSpace(s: string) {
    forall i :: 0 <= i < |s| ==> IsSpace(s[i])
  }

  /** True of a string that has no white space at either end (the empty string included). */
  predicate Trimmed(s: string) {
    s == [] || (!IsSpace(s[0]) && !IsSpace(s[|s| - 1]))
  }

  /** The length of the white-space run at the front of s. */
  function LeadingSpace(s: string): (n: nat)
    ensures n <= |s|
  {
    if s == [] || !IsSpace(s[0]) then 0 else 1 + LeadingSpace(s[1..])
  }

  /** The leading run is white space and ends at the first other character. */
  lemma {:induction false} LeadingSpaceRun(s: string)
    ensures var n := LeadingSpace(s); AllSpace(s[..n]) && (n < |s| ==> !IsSpace(s[n]))
  {
    if s != [] && IsSpace(s[0]) {
      LeadingSpaceRun(s[1..]);
      var n := LeadingSpace(s);
      assert s[..n] == [s[0]] + s[1..][..n - 1];
    }
  }

  /** The length of the white-space run at the back of s. */
  function TrailingSpace(s: string): (n: nat)
    ensures n <= |s|
  {
    if s == [] || !IsSpace(s[|s| - 1]) then 0 else 1 + TrailingSpace(s[..|s| - 1])
  }

  /** The trailing run is white space and starts after the last other character. */
  lemma {:induction false} TrailingSpaceRun(s: string)
    ensures var n := TrailingSpace(s); AllSpace(s[|s| - n..]) && (n < |s| ==> !IsSpace(s[|s| - 1 - n]))
  {
    if s != [] && IsSpace(s[|s| - 1]) {
      var init := s[..|s| - 1];
      TrailingSpaceRun(init);
      var m := TrailingSpace(init);
      assert TrailingSpace(s) == m + 1;
      var tail := s[|s| - (m + 1)..];
      assert tail == init[|init| - m..] + [s[|s| - 1]];
      forall k | 0 <= k < |tail|
        ensures IsSpace(tail[k])
      {
        if k < m {
          assert tail[k] == init[|init| - m..][k];
        }
      }
      if m + 1 < |s| {
        assert s[|s| - 1 - (m + 1)] == init[|init| - 1 - m];
      }
    }
  }

  /** strings.TrimSpace: s without its leading and trailing white space. */
  function TrimSpace(s: string): (r: string)
    ensures |r| <= |s|
  {
    var t := s[LeadingSpace(s)..];
    t[..|t| - TrailingSpace(t)]
  }

  /**
   * The shape of TrimSpace's result: a trimmed slice of s with only white
   * space before and after it.
   */
  lemma TrimSpaceShape(s: string)
    ensures var r, i := TrimSpace(s), LeadingSpace(s);
      && Trimmed(r) && i + |r| <= |s| && r == s[i..i + |r|]
      && AllSpace(s[..i]) && AllSpace(s[i + |r|..])
  {
    TrimSpaceSlices(s);
    TrimSpaceTrimmed(s);
    TrimSpaceSurround(s);
  }

  lemma TrimSpaceTrimmed(s: string)
    ensures Trimmed(TrimSpace(s))
  {
    var i := LeadingSpace(s);
    var t := s[i..];
    var n := TrailingSpace(t);
    TrimSpaceSlices(s);
    LeadingSpaceRun(s);
    TrailingSpaceRun(t);
  }

  lemma TrimSpaceSurround(s: string)
    ensures var r, i := TrimSpace(s), LeadingSpace(s); i + |r| <= |s| && AllSpace(s[..i]) && AllSpace(s[i + |r|..])
  {
    var i := LeadingSpace(s);
    var t := s[i..];
    TrimSpaceSlices(s);
    LeadingSpaceRun(s);
    TrailingSpaceRun(t);
  }

  /** The slices TrimSpace takes, LeadingSpace(s) characters in. */
  lemma TrimSpaceSlices(s: string)
    ensures var i := LeadingSpace(s); var t := s[i..]; var n := TrailingSpace(t); var r := t[..|t| - n];
      && i + |r| <= |s| && r == s[i..i + |r|] && s[i + |r|..] == t[|t| - n..]
      && (r != [] ==> r[0] == s[i] && r[|r| - 1] == t[|t| - 1 - n])
  {
  }

  /** A string trims to nothing exactly when it is all white space. */
  lemma TrimSpaceEmpty(s: string)
    ensures TrimSpace(s) == [] <==> AllSpace(s)
  {
    var i := LeadingSpace(s);
    var r := TrimSpace(s);
    TrimSpaceShape(s);
    LeadingSpaceRun(s);
    if r == [] {
      assert i == |s|;
      forall k | 0 <= k < |s| ensures IsSpace(s[k]) {
        assert k < i;
        assert s[k] == s[..i][k];
      }
    } else {
      assert r[0] == s[i];
    }
  }

  lemma {:induction false} LeadingSpaceAfter(pre: string, t: string)
    requires AllSpace(pre)
    ensures LeadingSpace(pre + t) == |pre| + LeadingSpace(t)
    decreases |pre|
  {
    if pre != [] {
      assert (pre + t)[1..] == pre[1..] + t;
      LeadingSpaceAfter(pre[1..], t);
    } else {
      assert pre + t == t;
    }
  }

  lemma {:induction false} TrailingSpaceBefore(t: string, suf: string)
    requires AllSpace(suf)
    ensures TrailingSpace(t + suf) == TrailingSpace(t) + |suf|
    decreases |suf|
  {
    if suf != [] {
      assert (t + suf)[..|t + suf| - 1] == t + suf[..|suf| - 1];
      TrailingSpaceBefore(t, suf[..|suf| - 1]);
    } else {
      assert t + suf == t;
    }
  }

  /**
   * TrimSpace is characterised by its result: a string that is white space,
   * then a trimmed middle, then white space, trims to that middle.
   */
  lemma TrimSpaceOf(pre: string, mid: string, suf: string)
    requires AllSpace(pre) && AllSpace(suf) && Trimmed(mid)
    ensures TrimSpace(pre + mid + suf) == mid
  {
    var s := pre + mid + suf;
    if mid == [] {
      assert s == pre + suf;
      assert AllSpace(s) by {
        forall k | 0 <= k < |s| ensures IsSpace(s[k]) {
          if k < |pre| { assert s[k] == pre[k]; } else { assert s[k] == suf[k - |pre|]; }
        }
      }
      TrimSpaceEmpty(s);
    } else {
      assert s == pre + (mid + suf);
      LeadingSpaceAfter(pre, mid + suf);
      assert LeadingSpace(mid + suf) == 0;
      assert s[|pre|..] == mid + suf;
      TrailingSpaceBefore(mid, suf);
      assert TrailingSpace(mid) == 0;
      assert (mid + suf)[..|mid|] == mid;
    }
  }

  /** Every character of the trimmed string occurs in the original. */
  lemma TrimSpaceChars(s: string, c: char)
    requires c in TrimSpace(s)
    ensures c in s
  {
    var r := TrimSpace(s);
    var i := LeadingSpace(s);
    TrimSpaceShape(s);
    var k :| 0 <= k < |r| && r[k] == c;
    assert s[i + k] == c;
  }

  /** Trimming twice is trimming once. */
  lemma TrimSpaceIdempotent(s: string)
    ensures TrimSpace(TrimSpace(s)) == TrimSpace(s)
  {
    var r := TrimSpace(s);
    TrimSpaceShape(s);
    assert [] + r + [] == r;
    TrimSpaceOf([], r, []);
  }

  /** strings.HasPrefix. */
  predicate HasPrefix(s: string, prefix: string) {
    prefix <= s
  }

  /** The middle of s when s is prefix + middle + suffix, or None. */
  function Unwrap(s: string, prefix: string, suffix: string): Option<string> {
    if |s| >= |prefix| + |suffix| && s[..|prefix|] == prefix && s[|s| - |suffix|..] == suffix
    then Some(s[|prefix|..|s| - |suffix|])
    else None
  }

  /** Wrapping a string in a fixed prefix and suffix loses nothing. */
  lemma UnwrapWrap(prefix: string, middle: string, suffix: string)
    ensures Unwrap(prefix + middle + suffix, prefix, suffix) == Some(middle)
  {
    var s := prefix + middle + suffix;
    assert s[..|prefix|] == prefix;
    assert s[|s| - |suffix|..] == suffix;
    assert s[|prefix|..|s| - |suffix|] == middle;
  }

  /** Hence wrapping is injective. */
  lemma WrapInjective(prefix: string, a: string, b: string, suffix: string)
    requires prefix + a + suffix == prefix + b + suffix
    ensures a == b
  {
    UnwrapWrap(prefix, a, suffix);
    UnwrapWrap(prefix, b, suffix);
  }

  /** The index of the first occurrence of c in s (strings.Index for one character). */
  function IndexOf(s: string, c: char): (r: Option<nat>)
    ensures r.None? <==> c !in s
    ensures r.Some? ==> r.value < |s| && s[r.value] == c && c !in s[..r.value]
  {
    if s == [] then None
    else if s[0] == c then Some(0)
    else match IndexOf(s[1..], c)
      case None => None
      case Some(i) =>
        assert s[..i + 1] == [s[0]] + s[1..][..i];
        Some(i + 1)
  }

  /**
   * strings.SplitN(s, sep, 2) for a one-character separator: the whole string
   * when sep does not occur, otherwise the parts before and after its first
   * occurrence.
   */
  function SplitTwo(s: string, sep: char): (parts: seq<string>)
    ensures sep !in s ==> parts == [s]
    ensures sep in s ==> |parts| == 2 && s == parts[0] + [sep] + parts[1] && sep !in parts[0]
  {
    match IndexOf(s, sep)
    case None => [s]
    case Some(i) =>
      assert s == s[..i] + [sep] + s[i + 1..];
      [s[..i], s[i + 1..]]
  }

  /** SplitTwo finds the first separator: the key has none, the value may have any. */
  lemma SplitTwoAt(key: string, value: string, sep: char)
    requires sep !in key
    ensures SplitTwo(key + [sep] + value, sep) == [key, value]
  {
    var s := key + [sep] + value;
    assert s[|key|] == sep;
    var parts := SplitTwo(s, sep);
    assert |parts[0]| == |key|;
    assert parts[0] == s[..|key|] == key;
    assert parts[1] == s[|key| + 1..] == value;
  }

  /** strings.Join: the parts with sep between neighbours. */
  function Join(parts: seq<string>, sep: string): string {
    if parts == [] then []
    else if |parts| == 1 then parts[0]
    else parts[0] + sep + Join(parts[1..], sep)
  }

  /**
   * strings.Split for a one-character separator: the maximal separator-free
   * pieces, always at least one (the empty string splits into [""]), which
   * join back to s.
   */
  function Split(s: string, sep: char): (parts: seq<string>)
    ensures |parts| >= 1
    ensures forall k :: 0 <= k < |parts| ==> sep !in parts[k]
    ensures Join(parts, [sep]) == s
    decreases |s|
  {
    match IndexOf(s, sep)
    case None => [s]
    case Some(i) =>
      var rest := Split(s[i + 1..], sep);
      assert s == s[..i] + [sep] + s[i + 1..];
      [s[..i]] + rest
  }

  /** The other half of the round trip: separator-free parts are recovered by Split. */
  lemma {:induction false} SplitJoin(parts: seq<string>, sep: char)
    requires |parts| >= 1
    requires forall k :: 0 <= k < |parts| ==> sep !in parts[k]
    ensures Split(Join(parts, [sep]), sep) == parts
    decreases |parts|
  {
    var s := Join(parts, [sep]);
    if |parts| == 1 {
      assert IndexOf(s, sep).None?;
    } else {
      var rest := Join(parts[1..], [sep]);
      assert s == parts[0] + [sep] + rest;
      var p := |parts[0]|;
      assert s[..p] == parts[0];
      assert s[p] == sep;
      assert IndexOf(s, sep) == Some(p) by {
        var r := IndexOf(s, sep);
        assert r.Some?;
      }
      assert s[p + 1..] == rest;
      SplitJoin(parts[1..], sep);
      assert Split(s, sep) == [s[..p]] + Split(s[p + 1..], sep);
      assert parts == [parts[0]] + parts[1..];
    }
  }

  /** The concatenation of a sequence of chunks, last chunk last. */
  function Concat(chunks: seq<string>): string {
    if chunks == [] then [] else Concat(chunks[..|chunks| - 1]) + chunks[|chunks| - 1]
  }

  function DigitChar(d: nat): char
    requires d < 10
  {
    "0123456789"[d]
  }

  /** fmt's %d / %v for a non-negative int. */
  function NatToString(n: nat): (r: string)
    ensures |r| >= 1
    ensures forall k :: 0 <= k < |r| ==> '0' <= r[k] <= '9'
  {
    if n < 10 then [DigitChar(n)] else NatToString(n / 10) + [DigitChar(n % 10)]
  }

  /** The value of a string of decimal digits. */
  function ParseDecimal(s: string): nat
    requires forall k :: 0 <= k < |s| ==> '0' <= s[k] <= '9'
  {
    if s == [] then 0 else 10 * ParseDecimal(s[..|s| - 1]) + (s[|s| - 1] as int - '0' as int)
  }

  lemma DigitValue(d: nat)
    requires d < 10
    ensures DigitChar(d) as int - '0' as int == d
  {
  }

  /** The decimal text of n denotes n. */
  lemma {:induction false} ParseNatToString(n: nat)
    ensures ParseDecimal(NatToString(n)) == n
  {
    if n < 10 {
      DigitValue(n);
    } else {
      var q, d := n / 10, n % 10;
      var r := NatToString(n);
      assert r == NatToString(q) + [DigitChar(d)];
      assert r[..|r| - 1] == NatToString(q);
      ParseNatToString(q);
      DigitValue(d);
      assert ParseDecimal(r) == 10 * q + d;
    }
  }

  /** fmt's %t. */
  function BoolToString(b: bool): string {
    if b then "true" else "false"
  }
}
