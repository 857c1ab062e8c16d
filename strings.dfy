/** Python string and slice semantics used by the scripts, stated on `seq<char>`. */
module Strings {

  datatype Option<+T> = None | Some(value: T)

  function Min(a: int, b: int): int { if a <= b then a else b }

  /** `s.startswith(prefix)` */
  predicate StartsWith(s: string, prefix: string) {
    |prefix| <= |s| && s[..|prefix|] == prefix
  }

  /** `s.endswith(suffix)` */
  predicate EndsWith(s: string, suffix: string) {
    |suffix| <= |s| && s[|s| - |suffix|..] == suffix
  }

  /** The characters Python's `str.isspace()` accepts; `str.strip()` removes exactly these. */
  predicate IsSpace(c: char) {
    ('\U{0009}' <= c <= '\U{000D}') || ('\U{001C}' <= c <= '\U{0020}')
    || c == '\U{0085}' || c == '\U{00A0}' || c == '\U{1680}'
    || ('\U{2000}' <= c <= '\U{200A}') || c == '\U{2028}' || c == '\U{2029}'
    || c == '\U{202F}' || c == '\U{205F}' || c == '\U{3000}'
  }

  /** Every character is whitespace (so `not s.strip()` holds in Python). */
  predicate IsBlank(s: string) {
    forall i :: 0 <= i < |s| ==> IsSpace(s[i])
  }

  /** `s.lstrip()`: the longest suffix of `s` that does not start with whitespace. */
  function TrimStart(s: string): (r: string)
    ensures |r| <= |s| && r == s[|s| - |r|..]
    ensures r == [] || !IsSpace(r[0])
    ensures forall i :: 0 <= i < |s| - |r| ==> IsSpace(s[i])
  {
    if s != [] && IsSpace(s[0]) then TrimStart(s[1..]) else s
  }

  /** `s.rstrip()`: the longest prefix of `s` that does not end with whitespace. */
  function TrimEnd(s: string): (r: string)
    ensures |r| <= |s| && r == s[..|r|]
    ensures r == [] || !IsSpace(r[|r| - 1])
    ensures forall i :: |r| <= i < |s| ==> IsSpace(s[i])
  {
    if s != [] && IsSpace(s[|s| - 1]) then TrimEnd(s[..|s| - 1]) else s
  }

  /** `s.strip()` */
  function Strip(s: string): string {
    TrimEnd(TrimStart(s))
  }

  /** Whitespace-only text strips to nothing from the left. */
  lemma {:induction false} BlankTrimsToEmpty(s: string)
    requires IsBlank(s)
    ensures TrimStart(s) == []
    decreases |s|
  {
    if s != [] {
      assert IsBlank(s[1..]) by {
        forall i | 0 <= i < |s| - 1 ensures IsSpace(s[1..][i]) {
          assert s[1..][i] == s[i + 1];
        }
      }
      BlankTrimsToEmpty(s[1..]);
    }
  }

  /** `s.strip()` is empty exactly when `s` is whitespace only. */
  lemma StripEmptyIffBlank(s: string)
    ensures Strip(s) == [] <==> IsBlank(s)
  {
    if IsBlank(s) {
      BlankTrimsToEmpty(s);
    }
  }

  /** Stripping twice is stripping once: a stripped text is its own `strip()`. */
  lemma StripIdempotent(s: string)
    ensures Strip(Strip(s)) == Strip(s)
  {
    var r := Strip(s);
    if r != [] {
      assert TrimStart(r) == r;
      assert TrimEnd(r) == r;
    }
  }

  /** `pattern` occurs in `s` starting at index `i`. */
  predicate OccursAt(s: string, pattern: string, i: int) {
    0 <= i && i + |pattern| <= |s| && s[i..i + |pattern|] == pattern
  }

  /** `s.replace(pattern, replacement)`: one left-to-right pass replacing every non-overlapping occurrence. */
  function Replace(s: string, pattern: string, replacement: string): (r: string)
    requires |pattern| > 0
    ensures (forall i :: !OccursAt(s, pattern, i)) ==> r == s
    decreases |s|
  {
    if |s| < |pattern| then s
    else if s[..|pattern|] == pattern then
      assert OccursAt(s, pattern, 0);
      replacement + Replace(s[|pattern|..], pattern, replacement)
    else
      assert forall i :: OccursAt(s[1..], pattern, i) ==> OccursAt(s, pattern, i + 1);
      [s[0]] + Replace(s[1..], pattern, replacement)
  }

  /** A sequence is the part before index `i`, the element at `i`, and the part after it. */
  lemma SeqSplit<T>(s: seq<T>, i: nat)
    requires i < |s|
    ensures s == s[..i] + ([s[i]] + s[i + 1..])
  {}

  /** Python's normalisation of a slice bound `i` against a sequence of length `n`. */
  function SliceBound(i: int, n: nat): (b: nat)
    ensures b <= n
    ensures 0 <= i ==> b == Min(i, n)
  {
    if i < 0 then (if n + i < 0 then 0 else n + i) else if i > n then n else i
  }

  /** `s[lo:hi]` with Python's clipping and negative-index rules. */
  function PySlice<T>(s: seq<T>, lo: int, hi: int): (r: seq<T>)
    ensures |r| <= |s|
    ensures 0 <= lo <= hi ==> r == s[Min(lo, |s|)..Min(hi, |s|)]
  {
    var a, b := SliceBound(lo, |s|), SliceBound(hi, |s|);
    if a < b then s[a..b] else []
  }

  /** `s[lo:]` with Python's clipping and negative-index rules. */
  function PySliceFrom<T>(s: seq<T>, lo: int): (r: seq<T>)
    ensures |r| <= |s|
    ensures 0 <= lo ==> r == s[Min(lo, |s|)..]
  {
    s[SliceBound(lo, |s|)..]
  }

  function DecimalDigit(d: nat): (c: char)
    requires d < 10
    ensures '0' <= c <= '9'
  {
    ('0' as int + d) as char
  }

  /** `str(n)` for a non-negative integer: its decimal digits, most significant first. */
  function NatToString(n: nat): (s: string)
    ensures |s| >= 1 && (n >= 10 ==> |s| >= 2)
    ensures forall i :: 0 <= i < |s| ==> '0' <= s[i] <= '9'
    decreases n
  {
    if n < 10 then [DecimalDigit(n)] else NatToString(n / 10) + [DecimalDigit(n % 10)]
  }

  /** Distinct numbers have distinct decimal strings. */
  lemma {:induction false} NatToStringInjective(a: nat, b: nat)
    requires NatToString(a) == NatToString(b)
    ensures a == b
  {
    var sa, sb := NatToString(a), NatToString(b);
    if a >= 10 && b >= 10 {
      assert sa[|sa| - 1] == DecimalDigit(a % 10) && sb[|sb| - 1] == DecimalDigit(b % 10);
      assert NatToString(a / 10) == sa[..|sa| - 1] == sb[..|sb| - 1] == NatToString(b / 10);
      NatToStringInjective(a / 10, b / 10);
    }
  }

  /** No two positions hold the same element. */
  predicate Distinct<T(==)>(s: seq<T>) {
    forall i, j :: 0 <= i < j < |s| ==> s[i] != s[j]
  }

  /** The text after the last `c` (all of `s` when it has none): `s.rsplit(c, 1)[-1]`. */
  function AfterLast(s: string, c: char): string
    decreases |s|
  {
    if s == [] then [] else if s[|s| - 1] == c then [] else AfterLast(s[..|s| - 1], c) + [s[|s| - 1]]
  }

  /** The text before the last `c` (empty when it has none). */
  function BeforeLast(s: string, c: char): string
    decreases |s|
  {
    if s == [] then [] else if s[|s| - 1] == c then s[..|s| - 1] else BeforeLast(s[..|s| - 1], c)
  }

  /** Splitting `x + [c] + a` at its last `c` gives back `x` and `a` when `a` holds no `c`. */
  lemma {:induction false} SplitLastField(x: string, c: char, a: string)
    requires forall i :: 0 <= i < |a| ==> a[i] != c
    ensures AfterLast(x + [c] + a, c) == a
    ensures BeforeLast(x + [c] + a, c) == x
    decreases |a|
  {
    var s := x + [c] + a;
    if a == [] {
      assert s[..|s| - 1] == x;
    } else {
      var a' := a[..|a| - 1];
      assert s[..|s| - 1] == x + [c] + a';
      assert s[|s| - 1] == a[|a| - 1];
      SplitLastField(x, c, a');
      assert a' + [a[|a| - 1]] == a;
    }
  }

  /** `sep.join(parts)` */
  function Join(sep: string, parts: seq<string>): string
    decreases |parts|
  {
    if parts == [] then "" else if |parts| == 1 then parts[0] else parts[0] + sep + Join(sep, parts[1..])
  }

  /** Every joined part occurs verbatim in the joined string. */
  lemma {:induction false} JoinContainsPart(sep: string, parts: seq<string>, k: nat)
    requires k < |parts|
    ensures exists p :: OccursAt(Join(sep, parts), parts[k], p)
    decreases |parts|
  {
    var j := Join(sep, parts);
    if |parts| == 1 {
      assert OccursAt(j, parts[k], 0);
    } else if k == 0 {
      assert j[0..|parts[0]|] == parts[0];
      assert OccursAt(j, parts[k], 0);
    } else {
      JoinContainsPart(sep, parts[1..], k - 1);
      var rest := Join(sep, parts[1..]);
      var p :| OccursAt(rest, parts[1..][k - 1], p);
      var off := |parts[0]| + |sep|;
      assert j == parts[0] + sep + rest;
      assert j[off + p..off + p + |parts[k]|] == rest[p..p + |parts[k]|];
      assert OccursAt(j, parts[k], off + p);
    }
  }

  /** `pattern` occurs at the end of `x + pattern`. */
  lemma OccursAfter(x: string, pattern: string)
    ensures OccursAt(x + pattern, pattern, |x|)
  {
    assert (x + pattern)[|x|..|x| + |pattern|] == pattern;
  }

  /** An occurrence survives appending text. */
  lemma OccursExtend(x: string, y: string, pattern: string, i: int)
    requires OccursAt(x, pattern, i)
    ensures OccursAt(x + y, pattern, i)
  {
    assert (x + y)[i..i + |pattern|] == x[i..i + |pattern|];
  }

  /** An occurrence survives prepending text, shifted by its length. */
  lemma OccursShift(x: string, y: string, pattern: string, i: int)
    requires OccursAt(y, pattern, i)
    ensures OccursAt(x + y, pattern, |x| + i)
  {
    assert (x + y)[|x| + i..|x| + i + |pattern|] == y[i..i + |pattern|];
  }
}
