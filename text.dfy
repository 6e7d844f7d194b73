/**
 * The Python string primitives the backend relies on (`strip`, `startswith`,
 * `removeprefix`, `lower`, `in`, slicing with `[:n]`, `split`), stated over
 * `seq<char>`.
 */
module Text {
  import opened Wrappers

  /** The characters for which Python's `str.isspace()` holds. */
  predicate IsSpace(c: char) {
    c == ' ' || ('\t' <= c <= '\r') || ('\U{1C}' <= c <= '\U{1F}') || c == '\U{85}' || c == '\U{A0}'
    || c == '\U{1680}' || ('\U{2000}' <= c <= '\U{200A}') || c == '\U{2028}' || c == '\U{2029}'
    || c == '\U{202F}' || c == '\U{205F}' || c == '\U{3000}'
  }

  /** `s.lstrip()` */
  function LStrip(s: string): string {
    if |s| > 0 && IsSpace(s[0]) then LStrip(s[1..]) else s
  }

  /** `s.rstrip()` */
  function RStrip(s: string): string {
    if |s| > 0 && IsSpace(s[|s| - 1]) then RStrip(s[..|s| - 1]) else s
  }

  /** `lstrip` keeps a suffix that starts with no whitespace, and removes only whitespace. */
  lemma {:induction false} LStripShape(s: string)
    ensures |LStrip(s)| <= |s| && LStrip(s) == s[|s| - |LStrip(s)|..]
    ensures LStrip(s) == [] || !IsSpace(LStrip(s)[0])
    ensures forall j :: 0 <= j < |s| - |LStrip(s)| ==> IsSpace(s[j])
  {
    if |s| > 0 && IsSpace(s[0]) {
      LStripShape(s[1..]);
    }
  }

  /** `rstrip` keeps a prefix that ends with no whitespace, and removes only whitespace. */
  lemma {:induction false} RStripShape(s: string)
    ensures |RStrip(s)| <= |s| && RStrip(s) == s[..|RStrip(s)|]
    ensures RStrip(s) == [] || !IsSpace(RStrip(s)[|RStrip(s)| - 1])
    ensures forall j :: |RStrip(s)| <= j < |s| ==> IsSpace(s[j])
  {
    if |s| > 0 && IsSpace(s[|s| - 1]) {
      RStripShape(s[..|s| - 1]);
    }
  }

  /** A text made of whitespace strips to nothing. */
  lemma {:induction false} LStripAllSpace(s: string)
    requires forall j :: 0 <= j < |s| ==> IsSpace(s[j])
    ensures LStrip(s) == [] && Strip(s) == []
  {
    if s != [] {
      LStripAllSpace(s[1..]);
    }
  }

  /** Trimming after a non-space character leaves everything up to it in place. */
  lemma {:induction false} RStripAppend(p: string, q: string)
    requires |p| > 0 && !IsSpace(p[|p| - 1])
    ensures RStrip(p + q) == p + RStrip(q)
    decreases |q|
  {
    if q == [] {
      assert p + q == p;
    } else if IsSpace(q[|q| - 1]) {
      assert (p + q)[..|p + q| - 1] == p + q[..|q| - 1];
      RStripAppend(p, q[..|q| - 1]);
    }
  }

  /** Trimming after a part that keeps some non-space text also leaves the front in place. */
  lemma {:induction false} RStripAppendKept(p: string, q: string)
    requires RStrip(q) != []
    ensures RStrip(p + q) == p + RStrip(q)
    decreases |q|
  {
    if IsSpace(q[|q| - 1]) {
      assert (p + q)[..|p + q| - 1] == p + q[..|q| - 1];
      RStripAppendKept(p, q[..|q| - 1]);
    }
  }

  /** `strip` leaves a text that starts and ends with non-space. */
  lemma StripShape(s: string)
    ensures Strip(s) == [] || (!IsSpace(Strip(s)[0]) && !IsSpace(Strip(s)[|Strip(s)| - 1]))
  {
    LStripShape(s);
    RStripShape(LStrip(s));
  }

  /** Trimming a text that already starts and ends with non-space changes nothing. */
  lemma StripNoop(t: string)
    requires t == [] || (!IsSpace(t[0]) && !IsSpace(t[|t| - 1]))
    ensures Strip(t) == t
  {
  }

  /** `sub` found inside a slice is found in the whole text, shifted. */
  lemma AtInSlice(s: string, sub: string, lo: nat, hi: nat, p: nat)
    requires lo <= hi <= |s| && At(s[lo..hi], sub, p)
    ensures At(s, sub, lo + p)
  {
    var n := |sub|;
    var a := s[lo..hi][p..p + n];
    var b := s[lo + p..lo + p + n];
    forall k | 0 <= k < n
      ensures a[k] == b[k]
    {
      assert a[k] == s[lo + p + k];
    }
    assert a == b;
  }

  /** `s.strip()` */
  function Strip(s: string): string {
    RStrip(LStrip(s))
  }

  /** `s.strip(c)` for a one-character argument, as in `strip("`")`. */
  function StripChar(s: string, c: char): (r: string)
    ensures r == [] || (r[0] != c && r[|r| - 1] != c)
    ensures |r| <= |s|
  {
    if |s| > 0 && s[0] == c then StripChar(s[1..], c)
    else if |s| > 0 && s[|s| - 1] == c then StripChar(s[..|s| - 1], c)
    else s
  }

  /** Stripping `c` removes exactly the runs of `c` around a core that neither starts nor ends with `c`. */
  lemma {:induction false} StripCharAround(pre: string, m: string, post: string, c: char)
    requires forall i | 0 <= i < |pre| :: pre[i] == c
    requires forall i | 0 <= i < |post| :: post[i] == c
    requires m != [] && m[0] != c && m[|m| - 1] != c
    ensures StripChar(pre + m + post, c) == m
    decreases |pre| + |post|
  {
    var s := pre + m + post;
    if |pre| > 0 {
      assert s[0] == c;
      assert s[1..] == pre[1..] + m + post;
      StripCharAround(pre[1..], m, post, c);
    } else if |post| > 0 {
      assert s == m + post;
      assert s[0] == m[0];
      assert s[|s| - 1] == c;
      assert s[..|s| - 1] == pre + m + post[..|post| - 1];
      StripCharAround(pre, m, post[..|post| - 1], c);
    } else {
      assert s == m;
    }
  }

  predicate StartsWith(s: string, p: string) {
    |p| <= |s| && s[..|p|] == p
  }

  predicate EndsWith(s: string, x: string) {
    |x| <= |s| && s[|s| - |x|..] == x
  }

  /** `s.removeprefix(p)` */
  function RemovePrefix(s: string, p: string): string {
    if StartsWith(s, p) then s[|p|..] else s
  }

  /** `sub` occurs in `s` at index `i`. */
  predicate At(s: string, sub: string, i: int) {
    0 <= i && i + |sub| <= |s| && s[i..i + |sub|] == sub
  }

  /** Python's `sub in s`. */
  predicate Contains(s: string, sub: string) {
    exists i | 0 <= i <= |s| :: At(s, sub, i)
  }

  /** `s.find(sub, from)` as an option: the first occurrence at or after `from`. */
  function IndexFrom(s: string, sub: string, from: nat): (r: Option<nat>)
    ensures r.Some? ==> from <= r.value && At(s, sub, r.value)
    ensures r.Some? ==> forall j :: from <= j < r.value ==> !At(s, sub, j)
    ensures r.None? ==> forall j :: from <= j ==> !At(s, sub, j)
    decreases |s| - from
  {
    if from + |sub| > |s| then None
    else if At(s, sub, from) then Some(from)
    else IndexFrom(s, sub, from + 1)
  }

  /**
   * The regular expression `a.*b` searched in `s` (Python `.` does not match
   * a newline): `a` occurs, and `b` occurs later on the same line.
   */
  predicate Follows(s: string, a: string, b: string) {
    exists i, j | 0 <= i <= j <= |s| ::
      At(s, a, i) && i + |a| <= j && At(s, b, j) && '\n' !in s[i + |a|..j]
  }

  function LowerChar(c: char): char {
    if 'A' <= c <= 'Z' then (c as int + 32) as char else c
  }

  /** `s.lower()` on the ASCII letters; every other character is kept. */
  function Lower(s: string): (r: string)
    ensures |r| == |s|
  {
    seq(|s|, i requires 0 <= i < |s| => LowerChar(s[i]))
  }

  /** `s[:n]` */
  function Take(s: string, n: nat): string {
    if n <= |s| then s[..n] else s
  }

  /** `s.split(c, 1)[1]` when `c in s`: everything after the first `c`. */
  function AfterFirst(s: string, c: char): (r: string)
    requires c in s
    ensures |r| < |s| && r == s[|s| - |r|..] && s[|s| - |r| - 1] == c
    ensures c !in s[..|s| - |r| - 1]
  {
    if s[0] == c then s[1..] else AfterFirst(s[1..], c)
  }

  /** The chunks joined in order, as `content += chunk` over a stream builds them. */
  function Concat(chunks: seq<string>): string {
    if chunks == [] then "" else Concat(chunks[..|chunks| - 1]) + chunks[|chunks| - 1]
  }

  /** A word whose first character is absent occurs nowhere. */
  lemma NoCharNoAt(s: string, w: string, i: int)
    requires w != [] && w[0] !in s
    ensures !At(s, w, i)
  {
    if 0 <= i && i + |w| <= |s| {
      assert s[i..i + |w|][0] == s[i];
    }
  }

  /** A word whose first character is absent is not contained. */
  lemma NoCharNoContains(s: string, w: string)
    requires w != [] && w[0] !in s
    ensures !Contains(s, w)
  {
    forall i | 0 <= i <= |s| ensures !At(s, w, i) {
      NoCharNoAt(s, w, i);
    }
  }

  /** Concatenation distributes over splitting the chunk sequence. */
  lemma {:induction false} ConcatAppend(a: seq<string>, b: seq<string>)
    ensures Concat(a + b) == Concat(a) + Concat(b)
    decreases |b|
  {
    if b == [] {
      assert a + b == a;
    } else {
      var b' := b[..|b| - 1];
      assert (a + b)[..|a + b| - 1] == a + b';
      ConcatAppend(a, b');
    }
  }

  /** `sep.join(parts)` */
  function Join(parts: seq<string>, sep: string): string {
    if |parts| == 0 then ""
    else if |parts| == 1 then parts[0]
    else parts[0] + sep + Join(parts[1..], sep)
  }

  function DigitChar(d: nat): char
    requires d < 10
  {
    "0123456789"[d]
  }

  /** `str(n)` for a natural number. */
  function NatToDecimal(n: nat): string
    decreases n
  {
    if n < 10 then [DigitChar(n)] else NatToDecimal(n / 10) + [DigitChar(n % 10)]
  }

  /** `str(i)` for an integer. */
  function IntToDecimal(i: int): string {
    if i < 0 then "-" + NatToDecimal(-i) else NatToDecimal(i)
  }
}
