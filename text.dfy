/**
 * The string and regular-expression primitives that the voter-card parser
 * relies on: Python's `str.upper`, `str.isdigit`, `str.strip`, `int(...)` on a
 * digit string, and the pieces of `re` used by its patterns (leftmost search,
 * greedy runs of one character class, case-insensitive literals).
 * Character classes are the ASCII ones.
 */
module Text {
  import opened Wrappers

  type String = seq<char>

  predicate IsDigit(c: char) { '0' <= c <= '9' }
  predicate IsLower(c: char) { 'a' <= c <= 'z' }
  predicate IsUpper(c: char) { 'A' <= c <= 'Z' }
  predicate IsAlnum(c: char) { IsDigit(c) || IsLower(c) || IsUpper(c) }

  /** The regex class `\w`. */
  predicate IsWord(c: char) { IsAlnum(c) || c == '_' }
  /** The regex class `\W`. */
  predicate NotWord(c: char) { !IsWord(c) }
  /** The regex class `[^a-zA-Z0-9]`. */
  predicate NotAlnum(c: char) { !IsAlnum(c) }
  /** The regex `.`: anything but a line feed. */
  predicate NotNewline(c: char) { c != '\n' }

  /** The regex class `\s`, which is also what `str.strip()` removes. */
  predicate IsSpace(c: char) {
    c == ' ' || c == '\t' || c == '\n' || c == '\r' || c == '\U{000B}' || c == '\U{000C}'
    || ('\U{001C}' <= c <= '\U{001F}')
  }

  function UpperChar(c: char): (u: char)
    ensures !IsLower(u)
  {
    if IsLower(c) then (c as int - 32) as char else c
  }

  /** `str.upper()` */
  function Upper(s: String): (r: String)
    ensures |r| == |s|
    ensures forall k :: 0 <= k < |r| ==> !IsLower(r[k]) && UpperChar(r[k]) == UpperChar(s[k])
    ensures forall k :: 0 <= k < |r| && !IsLower(s[k]) ==> r[k] == s[k]
  {
    seq(|s|, k requires 0 <= k < |s| => UpperChar(s[k]))
  }

  lemma UpperIdempotent(s: String)
    ensures Upper(Upper(s)) == Upper(s)
  {
  }

  /**
   * The literal `lit` occurs in `s` at position `i`, compared without regard
   * to ASCII case (a pattern literal under `re.IGNORECASE`).
   */
  predicate LitAt(s: String, i: nat, lit: String)
    decreases |lit|
  {
    |lit| == 0 || (i < |s| && UpperChar(s[i]) == UpperChar(lit[0]) && LitAt(s, i + 1, lit[1..]))
  }

  lemma {:induction false} LitAtChars(s: String, i: nat, lit: String)
    requires i <= |s|
    ensures LitAt(s, i, lit) <==>
              i + |lit| <= |s| && forall k :: 0 <= k < |lit| ==> UpperChar(s[i + k]) == UpperChar(lit[k])
    decreases |lit|
  {
    if |lit| > 0 {
      var tail := lit[1..];
      if i + 1 <= |s| {
        LitAtChars(s, i + 1, tail);
      }
      if i + |lit| <= |s| && forall k :: 0 <= k < |lit| ==> UpperChar(s[i + k]) == UpperChar(lit[k]) {
        forall k | 0 <= k < |tail|
          ensures UpperChar(s[i + 1 + k]) == UpperChar(tail[k])
        {
          assert UpperChar(s[i + (k + 1)]) == UpperChar(lit[k + 1]);
        }
        assert UpperChar(s[i + 0]) == UpperChar(lit[0]);
        assert LitAt(s, i + 1, tail);
        assert LitAt(s, i, lit);
      }
      if LitAt(s, i, lit) {
        assert LitAt(s, i + 1, tail);
        forall k | 0 <= k < |lit|
          ensures UpperChar(s[i + k]) == UpperChar(lit[k])
        {
          if k > 0 {
            assert UpperChar(s[i + 1 + (k - 1)]) == UpperChar(tail[k - 1]);
          }
        }
        assert i + |lit| <= |s|;
      }
    }
  }

  /** A non-empty literal that occurs at `i` fits inside `s` from `i`. */
  lemma {:induction false} LitAtFits(s: String, i: nat, lit: String)
    requires |lit| > 0 && LitAt(s, i, lit)
    ensures i + |lit| <= |s|
    decreases |lit|
  {
    if |lit| > 1 {
      LitAtFits(s, i + 1, lit[1..]);
    }
  }

  /** A literal written out verbatim in `s` matches there. */
  lemma {:induction false} LitAtExact(s: String, i: nat, lit: String)
    requires i + |lit| <= |s| && s[i..i + |lit|] == lit
    ensures LitAt(s, i, lit)
    decreases |lit|
  {
    if |lit| > 0 {
      assert s[i] == lit[0];
      assert s[i + 1..i + |lit|] == lit[1..];
      LitAtExact(s, i + 1, lit[1..]);
    }
  }

  /** A literal holding a letter that no character of `s` folds to occurs nowhere in `s`. */
  lemma LitAbsent(s: String, lit: String, m: nat)
    requires m < |lit|
    requires forall k :: 0 <= k < |s| ==> UpperChar(s[k]) != UpperChar(lit[m])
    ensures forall j: nat :: !LitAt(s, j, lit)
  {
    forall j: nat
      ensures !LitAt(s, j, lit)
    {
      if j <= |s| {
        LitAtChars(s, j, lit);
        if j + |lit| <= |s| {
          assert UpperChar(s[j + m]) != UpperChar(lit[m]);
        }
      }
    }
  }

  /** A literal two of whose adjacent letters never stand side by side in `s` occurs nowhere in `s`. */
  lemma LitAbsentPair(s: String, lit: String, m: nat)
    requires m + 1 < |lit|
    requires forall k :: 0 <= k < |s| - 1 ==>
               UpperChar(s[k]) != UpperChar(lit[m]) || UpperChar(s[k + 1]) != UpperChar(lit[m + 1])
    ensures forall j: nat :: !LitAt(s, j, lit)
  {
    forall j: nat
      ensures !LitAt(s, j, lit)
    {
      if j <= |s| {
        LitAtChars(s, j, lit);
        if j + |lit| <= |s| {
          assert UpperChar(s[j + m]) != UpperChar(lit[m]) || UpperChar(s[j + m + 1]) != UpperChar(lit[m + 1]);
        }
      }
    }
  }

  /** Upper-casing a line does not change where a case-insensitive literal occurs. */
  lemma LitAtUpper(s: String, i: nat, lit: String)
    requires i <= |s|
    ensures LitAt(Upper(s), i, lit) <==> LitAt(s, i, lit)
  {
    LitAtChars(s, i, lit);
    LitAtChars(Upper(s), i, lit);
  }

  /** A literal seen in a suffix is seen at the shifted position of the whole. */
  lemma LitAtShift(s: String, a: nat, h: nat, lit: String)
    requires a + h <= |s|
    ensures LitAt(s[a..], h, lit) <==> LitAt(s, a + h, lit)
  {
    LitAtChars(s[a..], h, lit);
    LitAtChars(s, a + h, lit);
    if LitAt(s, a + h, lit) {
      forall k | 0 <= k < |lit| ensures UpperChar(s[a..][h + k]) == UpperChar(lit[k]) {
        assert s[a..][h + k] == s[a + h + k];
      }
    }
  }

  /**
   * The leftmost position `r`, at or after `i` and at most `|s|`, where `p`
   * holds: where `re.search` starts a match whose success at a position is
   * decided by `p`.
   */
  function FirstFrom(s: String, i: nat, p: (String, nat) -> bool): (r: Option<nat>)
    requires i <= |s|
    ensures r.Some? ==> i <= r.value <= |s| && p(s, r.value) && forall k :: i <= k < r.value ==> !p(s, k)
    ensures r.None? ==> forall k :: i <= k <= |s| ==> !p(s, k)
    decreases |s| - i
  {
    if p(s, i) then Some(i) else if i == |s| then None else FirstFrom(s, i + 1, p)
  }

  /** The search stops at or before any position where the pattern holds. */
  lemma FirstFromAtMost(s: String, i: nat, p: (String, nat) -> bool, k: nat)
    requires i <= k <= |s| && p(s, k)
    ensures FirstFrom(s, i, p).Some? && FirstFrom(s, i, p).value <= k
  {
  }

  /**
   * Where a greedy `X*` that starts at `i` stops, for a character class `X`
   * given by `p`: the end of the maximal run of `p` characters from `i`.
   */
  function RunEnd(s: String, i: nat, p: char -> bool): (r: nat)
    requires i <= |s|
    ensures i <= r <= |s|
    ensures forall k :: i <= k < r ==> p(s[k])
    ensures r == |s| || !p(s[r])
    decreases |s| - i
  {
    if i == |s| || !p(s[i]) then i else RunEnd(s, i + 1, p)
  }

  /** A run measured in a suffix ends at the shifted position of the whole. */
  lemma {:induction false} RunEndShift(s: String, a: nat, j: nat, p: char -> bool)
    requires a + j <= |s|
    ensures RunEnd(s[a..], j, p) == RunEnd(s, a + j, p) - a
    decreases |s| - a - j
  {
    if a + j < |s| {
      assert s[a..][j] == s[a + j];
      if p(s[a + j]) {
        RunEndShift(s, a, j + 1, p);
      }
    }
  }

  /** The start of the maximal run of `p` characters that ends at `j`. */
  function RunStart(s: String, j: nat, p: char -> bool): (r: nat)
    requires j <= |s|
    ensures r <= j
    ensures forall k :: r <= k < j ==> p(s[k])
    ensures r == 0 || !p(s[r - 1])
  {
    if j == 0 || !p(s[j - 1]) then j else RunStart(s, j - 1, p)
  }

  /**
   * Removes every leading and every trailing `p` character: `str.strip()`
   * for `p` = whitespace, and `re.sub(r'^\W+|\W+$', '', s)` for `p` = `\W`.
   */
  function TrimWhile(s: String, p: char -> bool): (r: String)
    ensures var a := RunEnd(s, 0, p);
              a + |r| <= |s| && r == s[a..a + |r|] && forall k :: a + |r| <= k < |s| ==> p(s[k])
    ensures r == [] || (!p(r[0]) && !p(r[|r| - 1]))
  {
    var a := RunEnd(s, 0, p);
    if a == |s| then [] else s[a..RunStart(s, |s|, p)]
  }

  /** Trimming twice is trimming once. */
  lemma TrimWhileIdempotent(s: String, p: char -> bool)
    ensures TrimWhile(TrimWhile(s, p), p) == TrimWhile(s, p)
  {
    var r := TrimWhile(s, p);
    if r != [] {
      assert RunEnd(r, 0, p) == 0;
      assert RunStart(r, |r|, p) == |r|;
      assert r[0..|r|] == r;
    }
  }

  /** `str.strip()` */
  function Strip(s: String): String {
    TrimWhile(s, IsSpace)
  }

  /** The digit characters of `s` in order: the string the age loop accumulates. */
  function Digits(s: String): (r: String)
    ensures |r| <= |s|
    ensures forall k :: 0 <= k < |r| ==> IsDigit(r[k])
  {
    if |s| == 0 then [] else Digits(s[..|s| - 1]) + (if IsDigit(s[|s| - 1]) then [s[|s| - 1]] else [])
  }

  /** Taking digits distributes over concatenation: their order is kept. */
  lemma {:induction false} DigitsAppend(a: String, b: String)
    ensures Digits(a + b) == Digits(a) + Digits(b)
    decreases |b|
  {
    if |b| > 0 {
      var b' := b[..|b| - 1];
      assert (a + b)[..|a + b| - 1] == a + b';
      DigitsAppend(a, b');
    } else {
      assert a + b == a;
    }
  }

  /** A line has no digit exactly when no digit is collected from it. */
  lemma {:induction false} DigitsEmpty(s: String)
    ensures Digits(s) == [] <==> forall k :: 0 <= k < |s| ==> !IsDigit(s[k])
  {
    if |s| > 0 {
      DigitsEmpty(s[..|s| - 1]);
      assert forall k :: 0 <= k < |s| - 1 ==> s[..|s| - 1][k] == s[k];
    }
  }

  /** A string of digits is its own digit string. */
  lemma {:induction false} DigitsOfDigitString(s: String)
    requires forall k :: 0 <= k < |s| ==> IsDigit(s[k])
    ensures Digits(s) == s
  {
    if |s| > 0 {
      DigitsOfDigitString(s[..|s| - 1]);
      assert s[..|s| - 1] + [s[|s| - 1]] == s;
    }
  }

  function DigitValue(c: char): nat
    requires IsDigit(c)
  {
    c as int - '0' as int
  }

  /** `int(ds)` for a non-empty string of decimal digits. */
  function DecimalValue(ds: String): nat
    requires forall k :: 0 <= k < |ds| ==> IsDigit(ds[k])
  {
    if |ds| == 0 then 0 else 10 * DecimalValue(ds[..|ds| - 1]) + DigitValue(ds[|ds| - 1])
  }

  /** `str(n)`: the shortest decimal numeral of `n`. */
  function DecimalString(n: nat): (r: String)
    ensures |r| > 0
    ensures forall k :: 0 <= k < |r| ==> IsDigit(r[k])
  {
    var d := ['0' + ((n % 10) as char)];
    if n < 10 then d else DecimalString(n / 10) + d
  }

  /** Reading back a rendered number gives the number: `int(str(n)) == n`. */
  lemma {:induction false} DecimalRoundTrip(n: nat)
    ensures DecimalValue(DecimalString(n)) == n
  {
    var r := DecimalString(n);
    if n >= 10 {
      DecimalRoundTrip(n / 10);
      assert r[..|r| - 1] == DecimalString(n / 10);
    }
  }

  /** The index of the first line satisfying `p`, or `|lines|` if none does. */
  function FirstWhere(lines: seq<String>, p: String -> bool): (r: nat)
    ensures r <= |lines|
    ensures forall j :: 0 <= j < r ==> !p(lines[j])
    ensures r < |lines| ==> p(lines[r])
  {
    if |lines| == 0 || p(lines[0]) then 0 else 1 + FirstWhere(lines[1..], p)
  }

  /** An index before which `p` never holds and at which it holds (or the end) is the first one. */
  lemma {:induction false} FirstWhereIs(lines: seq<String>, p: String -> bool, k: nat)
    requires k <= |lines| && forall j :: 0 <= j < k ==> !p(lines[j])
    requires k < |lines| ==> p(lines[k])
    ensures FirstWhere(lines, p) == k
  {
    if k > 0 {
      var tail := lines[1..];
      forall j | 0 <= j < k - 1 ensures !p(tail[j]) {
        assert tail[j] == lines[j + 1];
      }
      if k - 1 < |tail| {
        assert tail[k - 1] == lines[k];
      }
      FirstWhereIs(tail, p, k - 1);
    }
  }

  /**
   * "Last match wins": the value of the last line on which `f` finds
   * something, or `init` if it finds nothing on any line.
   */
  function LastMatch<T>(lines: seq<String>, f: String -> Option<T>, init: Option<T>): Option<T> {
    if |lines| == 0 then init
    else
      var last := f(lines[|lines| - 1]);
      if last.Some? then last else LastMatch(lines[..|lines| - 1], f, init)
  }

  /** With no matching line, "last match wins" keeps the initial value. */
  lemma {:induction false} LastMatchNone<T>(lines: seq<String>, f: String -> Option<T>, init: Option<T>)
    requires forall i :: 0 <= i < |lines| ==> f(lines[i]).None?
    ensures LastMatch(lines, f, init) == init
  {
    if |lines| > 0 {
      var front := lines[..|lines| - 1];
      assert forall i :: 0 <= i < |front| ==> front[i] == lines[i];
      LastMatchNone(front, f, init);
    }
  }

  /**
   * With some matching line, "last match wins" gives the value found on a
   * matching line after which no line matches.
   */
  lemma {:induction false} LastMatchSome<T>(lines: seq<String>, f: String -> Option<T>, init: Option<T>)
    requires exists i :: 0 <= i < |lines| && f(lines[i]).Some?
    ensures var r := LastMatch(lines, f, init);
              r.Some? && exists i :: 0 <= i < |lines| && f(lines[i]) == r
                                     && forall j :: i < j < |lines| ==> f(lines[j]).None?
  {
    var n := |lines| - 1;
    if f(lines[n]).None? {
      var front := lines[..n];
      var i :| 0 <= i < |lines| && f(lines[i]).Some?;
      assert front[i] == lines[i];
      LastMatchSome(front, f, init);
      var k :| 0 <= k < n && f(front[k]) == LastMatch(front, f, init)
               && forall j :: k < j < n ==> f(front[j]).None?;
      assert forall j :: k < j < |lines| ==> f(lines[j]).None? by {
        forall j | k < j < |lines| ensures f(lines[j]).None? {
          if j < n {
            assert front[j] == lines[j];
          }
        }
      }
      assert f(lines[k]) == LastMatch(lines, f, init);
    }
  }

  /** The last matching line decides: nothing after line `k` matches, so its value is the result. */
  lemma {:induction false} LastMatchTail<T>(lines: seq<String>, k: nat, f: String -> Option<T>, init: Option<T>)
    requires k < |lines| && f(lines[k]).Some?
    requires forall j :: k < j < |lines| ==> f(lines[j]).None?
    ensures LastMatch(lines, f, init) == f(lines[k])
  {
    var n := |lines| - 1;
    if k < n {
      var front := lines[..n];
      assert front[k] == lines[k];
      forall j | k < j < n ensures f(front[j]).None? {
        assert front[j] == lines[j];
      }
      LastMatchTail(front, k, f, init);
    }
  }

  /** Extending the scanned prefix by one line: that line wins if it matches. */
  lemma LastMatchStep<T>(lines: seq<String>, i: nat, f: String -> Option<T>, init: Option<T>)
    requires i < |lines|
    ensures LastMatch(lines[..i + 1], f, init) ==
              if f(lines[i]).Some? then f(lines[i]) else LastMatch(lines[..i], f, init)
  {
    assert lines[..i + 1][..i] == lines[..i];
  }

  /** `LastMatchCons` for a prefix of a list: its first line is scanned before the rest of the prefix. */
  lemma LastMatchPrefixCons<T>(lines: seq<String>, k: nat, f: String -> Option<T>, init: Option<T>)
    requires 1 <= k <= |lines|
    ensures LastMatch(lines[..k], f, init) ==
              LastMatch(lines[1..][..k - 1], f, if f(lines[0]).Some? then f(lines[0]) else init)
  {
    assert lines[..k] == [lines[0]] + lines[1..][..k - 1];
    LastMatchCons(lines[0], lines[1..][..k - 1], f, init);
  }

  /** Scanning one more line at the front: it only matters if nothing later matches. */
  lemma {:induction false} LastMatchCons<T>(x: String, xs: seq<String>, f: String -> Option<T>, init: Option<T>)
    ensures LastMatch([x] + xs, f, init) == LastMatch(xs, f, if f(x).Some? then f(x) else init)
    decreases |xs|
  {
    if |xs| > 0 {
      assert ([x] + xs)[..|[x] + xs| - 1] == [x] + xs[..|xs| - 1];
      LastMatchCons(x, xs[..|xs| - 1], f, init);
    }
  }
}
