/**
 * The string primitives the application uses through JavaScript's String
 * methods: ASCII case mapping, whitespace (the `\s` class and `trim`),
 * `includes`, `startsWith`, `endsWith`, `split`, regular-expression run
 * replacement, and decimal rendering of integers (`${n}`).
 */
module Text {

  /** The characters JavaScript's `\s` and `String.prototype.trim` treat as white space. */
  predicate IsSpace(c: char) {
    c == ' ' || c == '\t' || c == '\n' || c == '\r' || c == '\U{B}' || c == '\U{C}'
    || c == '\U{A0}' || c == '\U{1680}' || ('\U{2000}' <= c <= '\U{200A}')
    || c == '\U{2028}' || c == '\U{2029}' || c == '\U{202F}' || c == '\U{205F}'
    || c == '\U{3000}' || c == '\U{FEFF}'
  }

  predicate IsLower(c: char) { 'a' <= c <= 'z' }
  predicate IsUpperLetter(c: char) { 'A' <= c <= 'Z' }
  predicate IsDigit(c: char) { '0' <= c <= '9' }

  /** `toUpperCase` on one character; only ASCII letters change. */
  function UpperChar(c: char): (u: char)
    ensures !IsLower(u)
    ensures IsLower(c) ==> IsUpperLetter(u)
    ensures !IsLower(c) ==> u == c
  {
    if IsLower(c) then (c as int - 32) as char else c
  }

  /** `toLowerCase` on one character; only ASCII letters change. */
  function LowerChar(c: char): (l: char)
    ensures !IsUpperLetter(l)
    ensures IsUpperLetter(c) ==> IsLower(l)
    ensures !IsUpperLetter(c) ==> l == c
  {
    if IsUpperLetter(c) then (c as int + 32) as char else c
  }

  function Upper(s: string): (r: string)
    ensures |r| == |s|
    ensures forall i :: 0 <= i < |s| ==> r[i] == UpperChar(s[i])
  {
    seq(|s|, i requires 0 <= i < |s| => UpperChar(s[i]))
  }

  function Lower(s: string): (r: string)
    ensures |r| == |s|
    ensures forall i :: 0 <= i < |s| ==> r[i] == LowerChar(s[i])
  {
    seq(|s|, i requires 0 <= i < |s| => LowerChar(s[i]))
  }

  /** No ASCII lower-case letter occurs in `s`. */
  predicate NoLower(s: string) {
    forall i :: 0 <= i < |s| ==> !IsLower(s[i])
  }

  lemma UpperIsUpper(s: string)
    ensures NoLower(Upper(s))
    ensures Upper(Upper(s)) == Upper(s)
  {
  }

  lemma UpperOfNoLower(s: string)
    requires NoLower(s)
    ensures Upper(s) == s
  {
  }

  /** Upper-casing forgets how a string was cased. */
  lemma UpperOfLower(s: string)
    ensures Upper(Lower(s)) == Upper(s)
  {
  }

  lemma UpperConcat(a: string, b: string)
    ensures Upper(a + b) == Upper(a) + Upper(b)
  {
  }

  lemma LowerConcat(a: string, b: string)
    ensures Lower(a + b) == Lower(a) + Lower(b)
  {
  }

  predicate StartsWith(s: string, prefix: string) {
    |prefix| <= |s| && s[..|prefix|] == prefix
  }

  predicate EndsWith(s: string, suffix: string) {
    |suffix| <= |s| && s[|s| - |suffix|..] == suffix
  }

  /** `s.includes(sub)`, written as the scan a reader would do by hand. */
  predicate Contains(s: string, sub: string)
    decreases |s|
  {
    StartsWith(s, sub) || (s != [] && Contains(s[1..], sub))
  }

  /** `sub` occurs in `s` starting at offset `k`. */
  predicate OccursAt(s: string, sub: string, k: int) {
    0 <= k <= |s| - |sub| && s[k..k + |sub|] == sub
  }

  /** `Contains` holds exactly when `sub` occurs at some offset of `s`. */
  lemma {:induction false} ContainsAt(s: string, sub: string)
    ensures Contains(s, sub) <==> exists k :: OccursAt(s, sub, k)
    decreases |s|
  {
    if StartsWith(s, sub) {
      assert OccursAt(s, sub, 0);
    } else if s != [] {
      ContainsAt(s[1..], sub);
      if Contains(s[1..], sub) {
        var k :| OccursAt(s[1..], sub, k);
        assert OccursAt(s, sub, k + 1);
      }
      if exists k :: OccursAt(s, sub, k) {
        var k :| OccursAt(s, sub, k);
        assert k != 0;
        assert OccursAt(s[1..], sub, k - 1);
      }
    }
  }

  // ---------------------------------------------------------------- trim

  function TrimStart(s: string): (r: string)
    ensures |r| <= |s| && EndsWith(s, r)
    ensures r == [] || !IsSpace(r[0])
    decreases |s|
  {
    if s != [] && IsSpace(s[0]) then TrimStart(s[1..]) else s
  }

  function TrimEnd(s: string): (r: string)
    ensures |r| <= |s| && StartsWith(s, r)
    ensures r == [] || !IsSpace(r[|r| - 1])
    decreases |s|
  {
    if s != [] && IsSpace(s[|s| - 1]) then TrimEnd(s[..|s| - 1]) else s
  }

  /** `String.prototype.trim`. */
  function Trim(s: string): string {
    TrimEnd(TrimStart(s))
  }

  predicate NoSpace(s: string) {
    forall i :: 0 <= i < |s| ==> !IsSpace(s[i])
  }

  predicate AllSpace(s: string) {
    forall i :: 0 <= i < |s| ==> IsSpace(s[i])
  }

  lemma {:induction false} TrimStartSkips(pre: string, s: string)
    requires AllSpace(pre)
    requires s == [] || !IsSpace(s[0])
    ensures TrimStart(pre + s) == s
    decreases |pre|
  {
    if pre == [] {
      assert pre + s == s;
    } else {
      assert (pre + s)[1..] == pre[1..] + s;
      TrimStartSkips(pre[1..], s);
    }
  }

  lemma {:induction false} TrimEndSkips(s: string, post: string)
    requires AllSpace(post)
    requires s == [] || !IsSpace(s[|s| - 1])
    ensures TrimEnd(s + post) == s
    decreases |post|
  {
    if post == [] {
      assert s + post == s;
    } else {
      assert (s + post)[..|s + post| - 1] == s + post[..|post| - 1];
      TrimEndSkips(s, post[..|post| - 1]);
    }
  }

  /** Surrounding white space is exactly what `trim` removes. */
  lemma TrimPadded(pre: string, s: string, post: string)
    requires AllSpace(pre) && AllSpace(post)
    requires s != [] && !IsSpace(s[0]) && !IsSpace(s[|s| - 1])
    ensures Trim(pre + s + post) == s
  {
    assert pre + s + post == pre + (s + post);
    TrimStartSkips(pre, s + post);
    TrimEndSkips(s, post);
  }

  // ---------------------------------------------------------------- split

  /** `s.split(sep)` for a one-character separator: always at least one piece. */
  function Split(s: string, sep: char): (pieces: seq<string>)
    ensures |pieces| >= 1
    ensures forall k :: 0 <= k < |pieces| ==> sep !in pieces[k]
    decreases |s|
  {
    if s == [] then [[]]
    else if s[0] == sep then [[]] + Split(s[1..], sep)
    else
      var rest := Split(s[1..], sep);
      [[s[0]] + rest[0]] + rest[1..]
  }

  /** Splitting at a separator splits the pieces there. */
  lemma {:induction false} SplitAround(a: string, b: string, sep: char)
    requires sep !in a
    ensures Split(a + [sep] + b, sep) == [a] + Split(b, sep)
    decreases |a|
  {
    if a == [] {
      assert a + [sep] + b == [sep] + b;
      assert ([sep] + b)[1..] == b;
    } else {
      assert (a + [sep] + b)[1..] == a[1..] + [sep] + b;
      SplitAround(a[1..], b, sep);
      assert [a[0]] + a[1..] == a;
    }
  }

  lemma {:induction false} SplitNoSep(a: string, sep: char)
    requires sep !in a
    ensures Split(a, sep) == [a]
    decreases |a|
  {
    if a != [] {
      SplitNoSep(a[1..], sep);
      assert [a[0]] + a[1..] == a;
    }
  }

  // ----------------------------------------------------- run replacement

  function DropRun(s: string, inRun: char -> bool): (r: string)
    ensures |r| <= |s| && EndsWith(s, r)
    ensures r == [] || !inRun(r[0])
    decreases |s|
  {
    if s != [] && inRun(s[0]) then DropRun(s[1..], inRun) else s
  }

  /**
   * `s.replace(/[…]+/g, repl)`: every maximal run of characters satisfying
   * `inRun` becomes one `repl`; other characters are kept in order.
   */
  function ReplaceRuns(s: string, inRun: char -> bool, repl: char): (r: string)
    decreases |s|
  {
    if s == [] then []
    else if inRun(s[0]) then [repl] + ReplaceRuns(DropRun(s[1..], inRun), inRun, repl)
    else [s[0]] + ReplaceRuns(s[1..], inRun, repl)
  }

  /** The characters of `s` that satisfy `p`, in order. */
  function Keep(s: string, p: char -> bool): (r: string)
    ensures |r| <= |s|
    ensures forall i :: 0 <= i < |r| ==> p(r[i])
    decreases |s|
  {
    if s == [] then [] else (if p(s[0]) then [s[0]] else []) + Keep(s[1..], p)
  }

  lemma KeepSingleton(c: char, p: char -> bool)
    ensures Keep([c], p) == if p(c) then [c] else []
  {
    assert [c][1..] == [];
  }

  lemma {:induction false} KeepConcat(a: string, b: string, p: char -> bool)
    ensures Keep(a + b, p) == Keep(a, p) + Keep(b, p)
    decreases |a|
  {
    if a == [] {
      assert a + b == b;
    } else {
      var h := if p(a[0]) then [a[0]] else [];
      assert (a + b)[0] == a[0];
      assert (a + b)[1..] == a[1..] + b;
      KeepConcat(a[1..], b, p);
      calc {
        Keep(a + b, p);
        h + Keep(a[1..] + b, p);
        h + (Keep(a[1..], p) + Keep(b, p));
        (h + Keep(a[1..], p)) + Keep(b, p);
      }
    }
  }

  lemma {:induction false} KeepNone(s: string, p: char -> bool)
    requires forall i :: 0 <= i < |s| ==> !p(s[i])
    ensures Keep(s, p) == []
    decreases |s|
  {
    if s != [] { KeepNone(s[1..], p); }
  }

  lemma {:induction false} DropRunKeep(s: string, inRun: char -> bool, p: char -> bool)
    requires forall c :: p(c) ==> !inRun(c)
    ensures Keep(DropRun(s, inRun), p) == Keep(s, p)
    decreases |s|
  {
    if s != [] && inRun(s[0]) { DropRunKeep(s[1..], inRun, p); }
  }

  /** Run replacement keeps every character outside the runs, in order. */
  lemma {:induction false} ReplaceRunsKeeps(s: string, inRun: char -> bool, repl: char, p: char -> bool)
    requires forall c :: p(c) ==> !inRun(c)
    requires !p(repl)
    ensures Keep(ReplaceRuns(s, inRun, repl), p) == Keep(s, p)
    decreases |s|
  {
    if s != [] {
      if inRun(s[0]) {
        var rest := DropRun(s[1..], inRun);
        ReplaceRunsKeeps(rest, inRun, repl, p);
        DropRunKeep(s[1..], inRun, p);
        assert ([repl] + ReplaceRuns(rest, inRun, repl))[1..] == ReplaceRuns(rest, inRun, repl);
      } else {
        ReplaceRunsKeeps(s[1..], inRun, repl, p);
        assert ([s[0]] + ReplaceRuns(s[1..], inRun, repl))[1..] == ReplaceRuns(s[1..], inRun, repl);
      }
    }
  }

  /** Every character of the result is `repl` or a character of `s` outside the runs. */
  lemma {:induction false} ReplaceRunsChars(s: string, inRun: char -> bool, repl: char)
    ensures forall i :: 0 <= i < |ReplaceRuns(s, inRun, repl)| ==>
              ReplaceRuns(s, inRun, repl)[i] == repl || (ReplaceRuns(s, inRun, repl)[i] in s && !inRun(ReplaceRuns(s, inRun, repl)[i]))
    decreases |s|
  {
    if s != [] {
      if inRun(s[0]) {
        var rest := DropRun(s[1..], inRun);
        ReplaceRunsChars(rest, inRun, repl);
        forall c | c in rest ensures c in s {
          var j :| 0 <= j < |rest| && rest[j] == c;
          assert s[|s| - |rest| + j] == c;
        }
      } else {
        ReplaceRunsChars(s[1..], inRun, repl);
      }
    }
  }

  /** The result never starts with a run character unless it is `repl`. */
  lemma ReplaceRunsHead(s: string, inRun: char -> bool, repl: char)
    ensures ReplaceRuns(s, inRun, repl) == [] <==> s == []
    ensures s != [] && inRun(s[0]) ==> ReplaceRuns(s, inRun, repl)[0] == repl
    ensures s != [] && !inRun(s[0]) ==> ReplaceRuns(s, inRun, repl)[0] == s[0]
  {
  }

  /** When `repl` itself belongs to the runs, the result never holds `repl` twice in a row. */
  lemma {:induction false} ReplaceRunsNoDouble(s: string, inRun: char -> bool, repl: char)
    requires inRun(repl)
    ensures forall i :: 0 <= i < |ReplaceRuns(s, inRun, repl)| - 1 ==>
              !(ReplaceRuns(s, inRun, repl)[i] == repl && ReplaceRuns(s, inRun, repl)[i + 1] == repl)
    decreases |s|
  {
    if s != [] {
      if inRun(s[0]) {
        var rest := DropRun(s[1..], inRun);
        ReplaceRunsNoDouble(rest, inRun, repl);
        ReplaceRunsHead(rest, inRun, repl);
      } else {
        ReplaceRunsNoDouble(s[1..], inRun, repl);
      }
    }
  }

  /** A string whose runs are already single `repl` characters is left as it is. */
  lemma {:induction false} ReplaceRunsFixed(s: string, inRun: char -> bool, repl: char)
    requires forall i :: 0 <= i < |s| && inRun(s[i]) ==> s[i] == repl
    requires forall i :: 0 <= i < |s| - 1 ==> !(inRun(s[i]) && inRun(s[i + 1]))
    ensures ReplaceRuns(s, inRun, repl) == s
    decreases |s|
  {
    if s != [] {
      ReplaceRunsFixed(s[1..], inRun, repl);
      assert [s[0]] + s[1..] == s;
    }
  }

  // ------------------------------------------------------------- numbers

  function DigitChar(d: nat): (c: char)
    requires d < 10
    ensures IsDigit(c) && c as int - '0' as int == d
  {
    ('0' as int + d) as char
  }

  predicate AllDigits(s: string) {
    forall i :: 0 <= i < |s| ==> IsDigit(s[i])
  }

  /** `${n}` for a non-negative integer: its decimal digits, without leading zeros. */
  function NatToString(n: nat): (r: string)
    ensures |r| >= 1 && AllDigits(r)
    decreases n
  {
    if n < 10 then [DigitChar(n)] else NatToString(n / 10) + [DigitChar(n % 10)]
  }

  /** The number a string of decimal digits denotes. */
  function DecimalValue(s: string): nat
    requires AllDigits(s)
    decreases |s|
  {
    if s == [] then 0 else DecimalValue(s[..|s| - 1]) * 10 + (s[|s| - 1] as int - '0' as int)
  }

  /** Reading back the rendered digits gives the number. */
  lemma {:induction false} DecimalRoundTrip(n: nat)
    ensures DecimalValue(NatToString(n)) == n
    decreases n
  {
    if n >= 10 {
      var s := NatToString(n);
      assert s[..|s| - 1] == NatToString(n / 10);
      DecimalRoundTrip(n / 10);
    }
  }

  /** The rendering of `n` has `k` digits exactly when `10^(k-1) <= n < 10^k` (k = 1..4). */
  lemma NatToStringLength(n: nat)
    ensures n < 10 ==> |NatToString(n)| == 1
    ensures 10 <= n < 100 ==> |NatToString(n)| == 2
    ensures 100 <= n < 1000 ==> |NatToString(n)| == 3
    ensures 1000 <= n < 10000 ==> |NatToString(n)| == 4
  {
    if n >= 10 {
      assert |NatToString(n)| == |NatToString(n / 10)| + 1;
      if n >= 100 {
        assert |NatToString(n / 10)| == |NatToString(n / 100)| + 1;
        if n >= 1000 {
          assert |NatToString(n / 100)| == |NatToString(n / 1000)| + 1;
        }
      }
    }
  }

  /** `${i}` for any integer: a minus sign before negative numbers. */
  function IntToString(i: int): (r: string)
    ensures |r| >= 1
    ensures i >= 0 ==> r == NatToString(i)
    ensures i < 0 ==> r == "-" + NatToString(-i)
  {
    if i < 0 then "-" + NatToString(-i) else NatToString(i)
  }

  /** `String(t).padStart(2, '0')`. */
  function PadStart2(t: string): (r: string)
    ensures |t| < 2 ==> |r| == 2
    ensures |t| >= 2 ==> r == t
    ensures EndsWith(r, t)
  {
    if |t| == 0 then "00" else if |t| == 1 then "0" + t else t
  }

  /** `a % b` in JavaScript: the remainder takes the sign of the dividend. */
  function JsRem(a: int, b: int): (r: int)
    requires b > 0
    ensures a >= 0 ==> r == a % b
    ensures a < 0 ==> -b < r <= 0
  {
    if a >= 0 then a % b else -((-a) % b)
  }
}
