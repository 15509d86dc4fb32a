/**
 * String primitives the analytics and search code builds on, with the
 * semantics of the ECMAScript built-ins it calls: `toLowerCase`, `indexOf`,
 * `includes`, `trim`, `split(/\s+/)`, `join` and the decimal
 * rendering of a number inside a template literal.
 */
module Text {

  /** A character matched by the regular-expression class `\s`, which is also
      the set that `String.prototype.trim` removes. */
  predicate IsSpace(c: char) {
    c == ' ' || c == '\t' || c == '\n' || c == '\r' || c == '\U{000B}' || c == '\U{000C}'
    || c == '\U{00A0}' || c == '\U{1680}' || ('\U{2000}' <= c <= '\U{200A}')
    || c == '\U{2028}' || c == '\U{2029}' || c == '\U{202F}' || c == '\U{205F}'
    || c == '\U{3000}' || c == '\U{FEFF}'
  }

  predicate NoSpace(w: string) {
    forall k :: 0 <= k < |w| ==> !IsSpace(w[k])
  }

  function LowerChar(c: char): char {
    if 'A' <= c <= 'Z' then (c as int + 32) as char else c
  }

  /** ASCII lower-casing: it keeps the length, so an index into the lower-cased
      text is an index into the original text. */
  function Lower(s: string): (r: string)
    ensures |r| == |s|
    ensures forall k :: 0 <= k < |s| ==> r[k] == LowerChar(s[k])
  {
    if |s| == 0 then [] else [LowerChar(s[0])] + Lower(s[1..])
  }

  lemma {:induction false} LowerConcat(a: string, b: string)
    ensures Lower(a + b) == Lower(a) + Lower(b)
  {
    if |a| > 0 {
      assert (a + b)[0] == a[0];
      assert (a + b)[1..] == a[1..] + b;
      LowerConcat(a[1..], b);
    } else {
      assert a + b == b;
    }
  }

  lemma {:induction false} LowerSlice(s: string, i: nat, j: nat)
    requires i <= j <= |s|
    ensures Lower(s[i..j]) == Lower(s)[i..j]
  {
    var l, r := Lower(s[i..j]), Lower(s)[i..j];
    forall k | 0 <= k < |l| ensures l[k] == r[k] {
      assert s[i..j][k] == s[i + k];
    }
  }

  /** `sub` occurs in `s` starting at position `p`. */
  predicate IsOccurrence(s: string, sub: string, p: int) {
    0 <= p && p + |sub| <= |s| && s[p..p + |sub|] == sub
  }

  /** The leftmost occurrence of `sub` in `s` at or after `p`, or -1. */
  function FindFrom(s: string, sub: string, p: nat): (r: int)
    ensures r == -1 || (p <= r && IsOccurrence(s, sub, r))
    decreases |s| - p
  {
    if p + |sub| > |s| then -1
    else if s[p..p + |sub|] == sub then p
    else FindFrom(s, sub, p + 1)
  }

  /** The search skips no occurrence: none lies between its start and its
      result (or after its start, when it finds none). */
  lemma {:induction false} FindFromFirst(s: string, sub: string, p: nat, q: int)
    requires p <= q && (FindFrom(s, sub, p) == -1 || q < FindFrom(s, sub, p))
    ensures !IsOccurrence(s, sub, q)
    decreases |s| - p
  {
    if p + |sub| <= |s| && s[p..p + |sub|] != sub && p < q {
      FindFromFirst(s, sub, p + 1, q);
    }
  }

  /** `fromIndex` of `indexOf` is clamped into [0, |s|]. */
  function ClampIndex(s: string, from: int): (f: nat)
    ensures f <= |s|
    ensures 0 <= from <= |s| ==> f == from
  {
    if from < 0 then 0 else if from > |s| then |s| else from
  }

  /** `s.indexOf(sub, from)`. */
  function IndexOf(s: string, sub: string, from: int): (r: int)
    ensures r == -1 || (ClampIndex(s, from) <= r && IsOccurrence(s, sub, r))
  {
    FindFrom(s, sub, ClampIndex(s, from))
  }

  /** No occurrence lies between the start of an `indexOf` search and its
      result. */
  lemma IndexOfFirst(s: string, sub: string, from: int, q: int)
    requires ClampIndex(s, from) <= q
    requires IndexOf(s, sub, from) == -1 || q < IndexOf(s, sub, from)
    ensures !IsOccurrence(s, sub, q)
  {
    FindFromFirst(s, sub, ClampIndex(s, from), q);
  }

  /** An `indexOf` search finds an occurrence at or before any occurrence
      past its start. */
  lemma IndexOfFinds(s: string, sub: string, from: int, q: int)
    requires ClampIndex(s, from) <= q && IsOccurrence(s, sub, q)
    ensures IndexOf(s, sub, from) != -1 && IndexOf(s, sub, from) <= q
  {
    if IndexOf(s, sub, from) == -1 || q < IndexOf(s, sub, from) {
      IndexOfFirst(s, sub, from, q);
    }
  }

  /** `s.includes(sub)`. */
  predicate Contains(s: string, sub: string)
    ensures Contains(s, sub) <==> exists p :: IsOccurrence(s, sub, p)
  {
    var r := IndexOf(s, sub, 0);
    assert r >= 0 ==> IsOccurrence(s, sub, r);
    assert r < 0 ==> forall p :: !IsOccurrence(s, sub, p) by {
      forall p | r < 0 && IsOccurrence(s, sub, p) ensures false {
        IndexOfFirst(s, sub, 0, p);
      }
    }
    r >= 0
  }

  /** Number of whitespace characters at the start of `s`. */
  function LeadingSpaces(s: string): (n: nat)
    ensures n <= |s|
    ensures forall k :: 0 <= k < n ==> IsSpace(s[k])
    ensures n == |s| || !IsSpace(s[n])
  {
    if s != [] && IsSpace(s[0]) then 1 + LeadingSpaces(s[1..]) else 0
  }

  /** Number of whitespace characters at the end of `s`. */
  function TrailingSpaces(s: string): (n: nat)
    ensures n <= |s|
    ensures forall k :: |s| - n <= k < |s| ==> IsSpace(s[k])
    ensures n == |s| || !IsSpace(s[|s| - 1 - n])
  {
    if s != [] && IsSpace(s[|s| - 1]) then 1 + TrailingSpaces(s[..|s| - 1]) else 0
  }

  /** `s.trim()`. */
  function Trim(s: string): (r: string)
    ensures r == [] || (!IsSpace(r[0]) && !IsSpace(r[|r| - 1]))
  {
    var t := s[LeadingSpaces(s)..];
    t[..|t| - TrailingSpaces(t)]
  }

  /** Trimming a text whose last character is not whitespace only removes a
      prefix of whitespace: the result is a suffix of the text. */
  lemma TrimKeepsEnd(s: string)
    requires s != [] && !IsSpace(s[|s| - 1])
    ensures Trim(s) == s[LeadingSpaces(s)..]
    ensures Trim(s) != [] && Trim(s)[|Trim(s)| - 1] == s[|s| - 1]
  {
    var t := s[LeadingSpaces(s)..];
    assert t != [] && t[|t| - 1] == s[|s| - 1];
    assert TrailingSpaces(t) == 0;
  }

  /** End of the run of non-space characters starting at `i`. */
  function SpanNonSpace(s: string, i: nat): (j: nat)
    requires i <= |s|
    ensures i <= j <= |s|
    ensures forall k :: i <= k < j ==> !IsSpace(s[k])
    ensures j == |s| || IsSpace(s[j])
    decreases |s| - i
  {
    if i == |s| || IsSpace(s[i]) then i else SpanNonSpace(s, i + 1)
  }

  /** End of the run of whitespace starting at `i`. */
  function SpanSpace(s: string, i: nat): (j: nat)
    requires i <= |s|
    ensures i <= j <= |s|
    ensures forall k :: i <= k < j ==> IsSpace(s[k])
    ensures j == |s| || !IsSpace(s[j])
    decreases |s| - i
  {
    if i == |s| || !IsSpace(s[i]) then i else SpanSpace(s, i + 1)
  }

  /** `s.split(/\s+/)`: every maximal run of whitespace separates two fields,
      so leading or trailing whitespace yields an empty first or last field
      and the empty text yields one empty field. */
  function SplitWs(s: string): (r: seq<string>)
    ensures |r| >= 1
    ensures forall k :: 0 <= k < |r| ==> NoSpace(r[k])
    decreases |s|
  {
    var i := SpanNonSpace(s, 0);
    if i == |s| then [s]
    else
      var j := SpanSpace(s, i);
      [s[..i]] + SplitWs(s[j..])
  }

  /** `parts.join(sep)`. */
  function Join(parts: seq<string>, sep: string): string {
    if parts == [] then ""
    else if |parts| == 1 then parts[0]
    else parts[0] + sep + Join(parts[1..], sep)
  }

  /** An occurrence stays an occurrence when text is added around it. */
  lemma OccurrenceShift(s: string, sub: string, p: nat, pre: string, post: string)
    requires IsOccurrence(s, sub, p)
    ensures IsOccurrence(pre + s + post, sub, |pre| + p)
    ensures Contains(pre + s + post, sub)
  {
    var t := pre + s + post;
    assert t[|pre| + p..|pre| + p + |sub|] == s[p..p + |sub|];
    assert IsOccurrence(t, sub, |pre| + p);
  }

  /** An occurrence inside an occurrence is an occurrence. */
  lemma OccurrenceWithin(s: string, mid: string, at: nat, sub: string, p: nat)
    requires IsOccurrence(s, mid, at) && IsOccurrence(mid, sub, p)
    ensures IsOccurrence(s, sub, at + p)
    ensures Contains(s, sub)
  {
    assert s[at..at + |mid|] == mid;
    forall k | 0 <= k < |sub| ensures s[at + p + k] == sub[k] {
      assert s[at + p + k] == s[at..at + |mid|][p + k];
    }
    assert s[at + p..at + p + |sub|] == sub;
    assert IsOccurrence(s, sub, at + p);
  }

  /** An occurrence inside a slice that covers it. */
  lemma OccurrenceInSlice(s: string, sub: string, p: nat, i: nat, j: nat)
    requires IsOccurrence(s, sub, p) && i <= p && p + |sub| <= j <= |s|
    ensures IsOccurrence(s[i..j], sub, p - i)
  {
    var t := s[i..j];
    forall k | 0 <= k < |sub| ensures t[p - i + k] == sub[k] {
      assert t[p - i + k] == s[p + k] == s[p..p + |sub|][k];
    }
    assert t[p - i..p - i + |sub|] == sub;
  }

  /** Every part occurs in the joined text, at the position `p` returned. */
  lemma {:induction false} JoinOccurrence(parts: seq<string>, sep: string, i: nat) returns (p: nat)
    requires i < |parts|
    ensures IsOccurrence(Join(parts, sep), parts[i], p)
    ensures Contains(Join(parts, sep), parts[i])
  {
    if |parts| == 1 {
      p := 0;
      assert Join(parts, sep)[0..|parts[0]|] == parts[0];
    } else if i == 0 {
      p := 0;
      OccurrenceShift(parts[0], parts[0], 0, "", sep + Join(parts[1..], sep));
      assert "" + parts[0] + (sep + Join(parts[1..], sep)) == Join(parts, sep);
    } else {
      var q := JoinOccurrence(parts[1..], sep, i - 1);
      OccurrenceShift(Join(parts[1..], sep), parts[i], q, parts[0] + sep, "");
      assert parts[0] + sep + Join(parts[1..], sep) + "" == Join(parts, sep);
      p := |parts[0] + sep| + q;
    }
  }

  function DigitChar(d: nat): char
    requires d < 10
  {
    "0123456789"[d]
  }

  function DigitValue(c: char): int {
    c as int - '0' as int
  }

  predicate IsDigit(c: char) {
    '0' <= c <= '9'
  }

  /** Value of a sequence of decimal digits. */
  function DecimalValue(s: string): int {
    if s == [] then 0 else 10 * DecimalValue(s[..|s| - 1]) + DigitValue(s[|s| - 1])
  }

  /** How a non-negative integer is rendered in a template literal: decimal
      digits with no leading zero. */
  function Decimal(n: nat): (r: string)
    ensures r != [] && forall k :: 0 <= k < |r| ==> IsDigit(r[k])
    ensures r[0] == '0' ==> r == "0"
    ensures DecimalValue(r) == n
  {
    if n < 10 then [DigitChar(n)]
    else
      var r := Decimal(n / 10) + [DigitChar(n % 10)];
      assert r[..|r| - 1] == Decimal(n / 10);
      r
  }
}
