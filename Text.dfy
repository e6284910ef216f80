/**
 * The JavaScript string operations the extension relies on, over Dafny strings:
 * `trim`, `join`, `toLowerCase`, `lastIndexOf`, `includes`, `split(c)[0]`,
 * `substring(0, n)` and the decimal rendering of a non-negative integer.
 */
module Text {

  /** The WhiteSpace and LineTerminator code points of ECMAScript: what `String.prototype.trim` removes. */
  predicate IsSpace(c: char) {
    || c == '\t' || c == '\n' || c == '\U{B}' || c == '\U{C}' || c == '\r' || c == ' '
    || c == '\U{A0}' || c == '\U{1680}' || ('\U{2000}' <= c <= '\U{200A}')
    || c == '\U{2028}' || c == '\U{2029}' || c == '\U{202F}' || c == '\U{205F}'
    || c == '\U{3000}' || c == '\U{FEFF}'
  }

  /** Neither end of `s` is white space: `s` is its own trim. */
  predicate Trimmed(s: string) {
    s == [] || (!IsSpace(s[0]) && !IsSpace(s[|s| - 1]))
  }

  /** Every character of `s` is white space. */
  predicate AllSpace(s: string) {
    forall k :: 0 <= k < |s| ==> IsSpace(s[k])
  }

  /** `r` occurs in `s` as a contiguous piece. */
  ghost predicate Infix(r: string, s: string) {
    exists i :: InfixAt(r, s, i)
  }

  /** `r` occurs in `s` starting at index `i`. */
  predicate InfixAt(r: string, s: string, i: int) {
    0 <= i <= |s| - |r| && s[i..i + |r|] == r
  }

  /** A piece of a piece of `c` is a piece of `c`. */
  lemma InfixTransitive(a: string, b: string, c: string)
    requires Infix(a, b) && Infix(b, c)
    ensures Infix(a, c)
  {
    var i :| InfixAt(a, b, i);
    var j :| InfixAt(b, c, j);
    forall k | 0 <= k < |a|
      ensures c[i + j + k] == a[k]
    {
      assert a[k] == b[i + k] == c[j + i + k];
    }
    assert c[i + j..i + j + |a|] == a;
    assert InfixAt(a, c, i + j);
  }

  /** A prefix is a piece. */
  lemma PrefixIsInfix(p: string, s: string)
    requires p <= s
    ensures Infix(p, s)
  {
    assert InfixAt(p, s, 0);
  }

  /** The number of white-space characters at the start of `s`. */
  function Lead(s: string): (n: nat)
    ensures n <= |s|
    ensures forall k :: 0 <= k < n ==> IsSpace(s[k])
    ensures n < |s| ==> !IsSpace(s[n])
  {
    if |s| == 0 || !IsSpace(s[0]) then 0 else 1 + Lead(s[1..])
  }

  /** The number of white-space characters at the end of `s`. */
  function Trail(s: string): (n: nat)
    ensures n <= |s|
    ensures forall k :: |s| - n <= k < |s| ==> IsSpace(s[k])
    ensures n < |s| ==> !IsSpace(s[|s| - 1 - n])
  {
    if |s| == 0 || !IsSpace(s[|s| - 1]) then 0 else 1 + Trail(s[..|s| - 1])
  }

  /** `String.prototype.trim`: `s` without leading and trailing white space. */
  function Trim(s: string): (r: string)
    ensures Trimmed(r)
    ensures Trimmed(s) ==> r == s
    ensures |r| <= |s|
  {
    var a := Lead(s);
    var t := s[a..];
    t[..|t| - Trail(t)]
  }

  /** Trimming gives `""` exactly for all-space text, and otherwise a piece of the text. */
  lemma TrimPiece(s: string)
    ensures Trim(s) == [] <==> AllSpace(s)
    ensures Infix(Trim(s), s)
  {
    var a := Lead(s);
    var t := s[a..];
    assert InfixAt(Trim(s), s, a);
  }

  /** A text is its three pieces cut at `a` and `c`, in order. */
  lemma SplitThree(s: string, a: int, c: int)
    requires 0 <= a <= c <= |s|
    ensures s == s[..a] + s[a..c] + s[c..]
  {
    assert s[..a] + s[a..c] == s[..c];
  }

  /** Trimming removes white space from the two ends of the text and nothing else. */
  lemma TrimSplit(s: string)
    ensures exists pre, post :: s == pre + Trim(s) + post && AllSpace(pre) && AllSpace(post)
  {
    var a := Lead(s);
    var c := a + |s[a..]| - Trail(s[a..]);
    assert s[a..c] == Trim(s);
    assert AllSpace(s[..a]) by {
      forall k | 0 <= k < a ensures IsSpace(s[..a][k]) {
        assert s[..a][k] == s[k];
      }
    }
    assert AllSpace(s[c..]) by {
      var t := s[a..];
      forall k | 0 <= k < |s| - c ensures IsSpace(s[c..][k]) {
        assert s[c..][k] == t[c - a + k];
      }
    }
    SplitThree(s, a, c);
  }



  lemma TrimIdempotent(s: string)
    ensures Trim(Trim(s)) == Trim(s)
  {
  }

  /** `Array.prototype.join(sep)`: the parts in order with `sep` between neighbours. */
  function Join(parts: seq<string>, sep: string): string {
    if |parts| == 0 then ""
    else if |parts| == 1 then parts[0]
    else Join(parts[..|parts| - 1], sep) + sep + parts[|parts| - 1]
  }

  /** All parts are non-empty and trimmed. */
  predicate Segments(parts: seq<string>) {
    forall i :: 0 <= i < |parts| ==> parts[i] != "" && Trimmed(parts[i])
  }

  /** Joining non-empty trimmed segments gives a trimmed string, empty only when there is no segment. */
  lemma {:induction false} JoinSegments(parts: seq<string>, sep: string)
    requires Segments(parts)
    ensures Trimmed(Join(parts, sep))
    ensures Join(parts, sep) == "" <==> parts == []
    ensures parts != [] ==> parts[0] <= Join(parts, sep)
  {
    if |parts| > 1 {
      var init := parts[..|parts| - 1];
      JoinSegments(init, sep);
      var last := parts[|parts| - 1];
      assert Join(parts, sep) == Join(init, sep) + sep + last;
      assert init[0] == parts[0];
    }
  }

  /** The parts that are not the empty string, in order: `filter(s => s.length > 0)`. */
  function NonEmpty(parts: seq<string>): (r: seq<string>)
    ensures |r| <= |parts|
    ensures forall i :: 0 <= i < |r| ==> r[i] != "" && r[i] in parts
    ensures r == [] <==> forall i :: 0 <= i < |parts| ==> parts[i] == ""
  {
    if |parts| == 0 then []
    else
      var init := NonEmpty(parts[..|parts| - 1]);
      var last := parts[|parts| - 1];
      assert forall i :: 0 <= i < |parts| - 1 ==> parts[..|parts| - 1][i] == parts[i];
      if last == "" then init else init + [last]
  }

  /** Filtering after a push: the pushed part is kept exactly when it is not empty. */
  lemma NonEmptyPush(parts: seq<string>, p: string)
    ensures NonEmpty(parts + [p]) == NonEmpty(parts) + (if p == "" then [] else [p])
  {
    assert (parts + [p])[..|parts|] == parts;
  }

  /** Joining parts that are all non-empty gives `""` only for no parts at all. */
  lemma JoinEmpty(parts: seq<string>, sep: string)
    requires forall i :: 0 <= i < |parts| ==> parts[i] != ""
    ensures Join(parts, sep) == "" <==> parts == []
  {
    if |parts| > 1 {
      var last := parts[|parts| - 1];
      assert Join(parts, sep) == Join(parts[..|parts| - 1], sep) + sep + last;
      assert |Join(parts, sep)| >= |last| > 0;
    }
  }

  /** ASCII `toLowerCase` of one character. */
  function LowerChar(c: char): (r: char)
    ensures ('A' <= c <= 'Z') ==> r as int == c as int + 32
    ensures !('A' <= c <= 'Z') ==> r == c
  {
    if 'A' <= c <= 'Z' then (c as int + 32) as char else c
  }

  /** `toLowerCase` on the ASCII letters; the length never changes. */
  function ToLower(s: string): (r: string)
    ensures |r| == |s|
    ensures forall i :: 0 <= i < |s| ==> r[i] == LowerChar(s[i])
  {
    seq(|s|, i requires 0 <= i < |s| => LowerChar(s[i]))
  }

  /** `needle` occurs in `hay` at index `k`. */
  predicate OccursAt(hay: string, needle: string, k: int) {
    0 <= k <= |hay| - |needle| && hay[k..k + |needle|] == needle
  }

  /** The greatest index not above `k` at which `needle` occurs, or -1. */
  function LastFrom(hay: string, needle: string, k: int): (r: int)
    requires k <= |hay| - |needle|
    ensures r == -1 || (0 <= r <= k && OccursAt(hay, needle, r))
    ensures forall m :: r < m <= k ==> !OccursAt(hay, needle, m)
    decreases k + 1
  {
    if k < 0 then -1
    else if hay[k..k + |needle|] == needle then k
    else LastFrom(hay, needle, k - 1)
  }

  /** `String.prototype.lastIndexOf(needle)`: the last index at which `needle` occurs, or -1. */
  function LastIndexOf(hay: string, needle: string): (r: int)
    ensures r == -1 || OccursAt(hay, needle, r)
    ensures forall m :: r < m ==> !OccursAt(hay, needle, m)
  {
    LastFrom(hay, needle, |hay| - |needle|)
  }

  /** `String.prototype.includes(needle)`. */
  predicate Contains(hay: string, needle: string)
    ensures Contains(hay, needle) <==> exists k :: OccursAt(hay, needle, k)
  {
    LastIndexOf(hay, needle) >= 0
  }

  /** `s.split(c)[0]`: the part of `s` before the first `c`, all of `s` when there is none. */
  function Before(s: string, c: char): (r: string)
    ensures c !in r
    ensures r <= s
    ensures |r| < |s| ==> s[|r|] == c
  {
    if |s| == 0 || s[0] == c then "" else [s[0]] + Before(s[1..], c)
  }

  /** `s.substring(0, n)`: the first `n` characters, or all of `s` when it is shorter. */
  function Prefix(s: string, n: nat): (r: string)
    ensures |r| == if n < |s| then n else |s|
    ensures r <= s
  {
    if n < |s| then s[..n] else s
  }

  function Digit(d: nat): (c: char)
    requires d < 10
    ensures '0' <= c <= '9'
  {
    ('0' as int + d) as char
  }

  function DigitValue(c: char): nat
    requires '0' <= c <= '9'
  {
    c as int - '0' as int
  }

  /** The decimal text of `n` (what a template literal shows for a non-negative integer). */
  function Decimal(n: nat): (r: string)
    ensures |r| >= 1
    ensures forall i :: 0 <= i < |r| ==> '0' <= r[i] <= '9'
    ensures |r| > 1 ==> r[0] != '0'
  {
    if n < 10 then [Digit(n)] else Decimal(n / 10) + [Digit(n % 10)]
  }

  /** The number that a string of decimal digits denotes. */
  function DecimalValue(s: string): nat
    requires forall i :: 0 <= i < |s| ==> '0' <= s[i] <= '9'
  {
    if |s| == 0 then 0 else 10 * DecimalValue(s[..|s| - 1]) + DigitValue(s[|s| - 1])
  }

  /** Reading the decimal text of `n` gives back `n`, so different numbers never render alike. */
  lemma {:induction false} DecimalRoundTrip(n: nat)
    ensures DecimalValue(Decimal(n)) == n
  {
    if n >= 10 {
      DecimalRoundTrip(n / 10);
      var r := Decimal(n);
      assert r[..|r| - 1] == Decimal(n / 10);
    }
  }
}
