/**
 * The Python string operations the modelled code relies on: whitespace
 * stripping, `split()`, `split(sep)`, `join`, `find`/`rfind`, `startswith`,
 * `endswith`, `in`, `replace`, `lower()` and decimal formatting of counters.
 */
module Text {

  /** Python's `str.isspace()` for a single character. */
  predicate IsSpace(c: char)
  {
    c == ' ' || ('\t' <= c <= '\r') || ('\U{1c}' <= c <= '\U{1f}') ||
    c == '\U{85}' || c == '\U{a0}' || c == '\U{1680}' || ('\U{2000}' <= c <= '\U{200a}') ||
    c == '\U{2028}' || c == '\U{2029}' || c == '\U{202f}' || c == '\U{205f}' || c == '\U{3000}'
  }

  predicate AllSpace(s: string)
  {
    forall i :: 0 <= i < |s| ==> IsSpace(s[i])
  }

  /** `s.lstrip()`: drops the leading whitespace and nothing else. */
  function LStrip(s: string): (r: string)
    ensures |r| <= |s| && r == s[|s| - |r|..]
    ensures AllSpace(s[..|s| - |r|])
    ensures r == [] || !IsSpace(r[0])
    decreases |s|
  {
    if s != [] && IsSpace(s[0]) then
      var r := LStrip(s[1..]);
      SpaceBefore(s, |s| - |r|);
      r
    else s
  }

  /** A leading space followed by a run of spaces is a run of spaces. */
  lemma SpaceBefore(s: string, k: nat)
    requires 1 <= k <= |s| && IsSpace(s[0]) && AllSpace(s[1..][..k - 1])
    ensures AllSpace(s[..k])
  {
    forall i | 0 <= i < k ensures IsSpace(s[..k][i]) {
      if i > 0 {
        assert s[..k][i] == s[1..][..k - 1][i - 1];
      }
    }
  }

  /** `s.rstrip()`: drops the trailing whitespace and nothing else. */
  function RStrip(s: string): (r: string)
    ensures |r| <= |s| && r == s[..|r|]
    ensures AllSpace(s[|r|..])
    ensures r == [] || !IsSpace(r[|r| - 1])
    decreases |s|
  {
    if s != [] && IsSpace(s[|s| - 1]) then
      var r := RStrip(s[..|s| - 1]);
      SpaceAfter(s, |r|);
      r
    else s
  }

  /** A run of spaces followed by a trailing space is a run of spaces. */
  lemma SpaceAfter(s: string, k: nat)
    requires k < |s| && IsSpace(s[|s| - 1]) && AllSpace(s[..|s| - 1][k..])
    ensures AllSpace(s[k..])
  {
    forall j | 0 <= j < |s| - k ensures IsSpace(s[k..][j]) {
      if j < |s| - 1 - k {
        assert s[k..][j] == s[..|s| - 1][k..][j];
      }
    }
  }

  /** Whitespace appended to a text disappears again under `rstrip()`. */
  lemma {:induction false} RStripTrailingSpace(s: string, ws: string)
    requires AllSpace(ws)
    ensures RStrip(s + ws) == RStrip(s)
    decreases |ws|
  {
    if ws != [] {
      var t := s + ws[..|ws| - 1];
      assert (s + ws)[..|s + ws| - 1] == t;
      assert IsSpace((s + ws)[|s + ws| - 1]);
      RStripTrailingSpace(s, ws[..|ws| - 1]);
    } else {
      assert s + ws == s;
    }
  }

  /** `s.strip()`. */
  function Strip(s: string): (r: string)
    ensures |r| <= |s|
    ensures r == [] || (!IsSpace(r[0]) && !IsSpace(r[|r| - 1]))
  {
    RStrip(LStrip(s))
  }

  lemma {:induction false} StripEmptyIffAllSpace(s: string)
    ensures Strip(s) == [] <==> AllSpace(s)
    decreases |s|
  {
    if s != [] && IsSpace(s[0]) {
      StripEmptyIffAllSpace(s[1..]);
      assert LStrip(s) == LStrip(s[1..]);
      assert AllSpace(s) <==> AllSpace(s[1..]) by {
        if AllSpace(s[1..]) {
          forall i | 0 <= i < |s| ensures IsSpace(s[i]) {
            if i > 0 { assert s[i] == s[1..][i - 1]; }
          }
        }
      }
    } else if s != [] {
      assert LStrip(s) == s;
      assert !IsSpace(s[0]);
    }
  }

  /** Stripping leading whitespace first never changes the stripped result. */
  lemma {:induction false} StripOfLStrip(s: string)
    ensures Strip(LStrip(s)) == Strip(s)
  {
    var l := LStrip(s);
    assert LStrip(l) == l;
  }

  /** A maximal run of non-whitespace at the start of `s`. */
  function WordLength(s: string): (n: nat)
    ensures n <= |s|
    ensures forall i :: 0 <= i < n ==> !IsSpace(s[i])
    ensures n < |s| ==> IsSpace(s[n])
    decreases |s|
  {
    if s == [] || IsSpace(s[0]) then 0 else 1 + WordLength(s[1..])
  }

  predicate IsWord(w: string)
  {
    w != [] && forall i :: 0 <= i < |w| ==> !IsSpace(w[i])
  }

  /** `s.split()` with no argument: the maximal non-whitespace runs, in order. */
  function Words(s: string): (r: seq<string>)
    ensures forall k :: 0 <= k < |r| ==> IsWord(r[k])
    decreases |s|
  {
    if s == [] then []
    else if IsSpace(s[0]) then Words(s[1..])
    else
      var n := WordLength(s);
      [s[..n]] + Words(s[n..])
  }

  lemma {:induction false} WordsOfAllSpace(s: string)
    requires AllSpace(s)
    ensures Words(s) == []
    decreases |s|
  {
    if s != [] {
      WordsOfAllSpace(s[1..]);
    }
  }

  /** A run of non-whitespace followed by whitespace or nothing is one word long. */
  lemma {:induction false} WordLengthOfRun(w: string, rest: string)
    requires forall i :: 0 <= i < |w| ==> !IsSpace(w[i])
    requires rest == [] || IsSpace(rest[0])
    ensures WordLength(w + rest) == |w|
    decreases |w|
  {
    if w == [] {
      assert w + rest == rest;
    } else {
      assert (w + rest)[1..] == w[1..] + rest;
      WordLengthOfRun(w[1..], rest);
    }
  }

  /** A single word splits into itself. */
  lemma WordsOfWord(w: string)
    requires IsWord(w)
    ensures Words(w) == [w]
  {
    WordLengthOfRun(w, []);
    assert w + [] == w;
    assert w[|w|..] == [];
  }

  /** A word followed by a space splits off as the first word. */
  lemma WordsOfWordThenSpace(w: string, t: string)
    requires IsWord(w)
    ensures Words(w + " " + t) == [w] + Words(t)
  {
    var s := w + " " + t;
    WordLengthOfRun(w, " " + t);
    assert s == w + (" " + t);
    assert s[..|w|] == w;
    assert s[|w|..] == " " + t;
    assert (" " + t)[1..] == t;
  }

  /**
   * Words joined by single spaces, with a further word glued to the last
   * one, split back into those words with the last one extended.
   */
  lemma {:induction false} WordsOfJoinThen(ws: seq<string>, tail: string)
    requires ws != []
    requires forall k :: 0 <= k < |ws| ==> IsWord(ws[k])
    requires IsWord(tail)
    ensures Words(Join(ws, " ") + tail) == ws[..|ws| - 1] + [ws[|ws| - 1] + tail]
    decreases |ws|
  {
    if |ws| == 1 {
      WordsOfWord(ws[0] + tail);
    } else {
      WordsOfJoinThen(ws[1..], tail);
      WordsOfJoinThenStep(ws, tail);
    }
  }

  lemma WordsOfJoinThenStep(ws: seq<string>, tail: string)
    requires |ws| > 1 && IsWord(ws[0])
    requires Words(Join(ws[1..], " ") + tail) == ws[1..][..|ws| - 2] + [ws[|ws| - 1] + tail]
    ensures Words(Join(ws, " ") + tail) == ws[..|ws| - 1] + [ws[|ws| - 1] + tail]
  {
    var rest := Join(ws[1..], " ");
    assert Join(ws, " ") + tail == ws[0] + " " + (rest + tail);
    WordsOfWordThenSpace(ws[0], rest + tail);
    InitOfTail(ws);
  }

  lemma InitOfTail<T>(s: seq<T>)
    requires |s| > 1
    ensures [s[0]] + s[1..][..|s| - 2] == s[..|s| - 1]
  {
    assert s[1..][..|s| - 2] == s[1..|s| - 1];
  }

  /** `sep.join(parts)`. */
  function Join(parts: seq<string>, sep: string): string
  {
    if parts == [] then ""
    else if |parts| == 1 then parts[0]
    else parts[0] + sep + Join(parts[1..], sep)
  }

  lemma {:induction false} JoinAppend(parts: seq<string>, last: string, sep: string)
    requires parts != []
    ensures Join(parts + [last], sep) == Join(parts, sep) + sep + last
  {
    if |parts| == 1 {
      assert parts + [last] == [parts[0], last];
    } else {
      assert (parts + [last])[1..] == parts[1..] + [last];
      JoinAppend(parts[1..], last, sep);
    }
  }

  /** Where part `i` begins in `Join(parts, sep)`. */
  function JoinOffset(parts: seq<string>, sep: string, i: nat): nat
    requires i <= |parts|
  {
    if i == 0 then 0 else |Join(parts[..i], sep)| + |sep|
  }

  /**
   * Every part sits whole in the joined text at its offset, and the next
   * part begins one separator after it ends, so the parts appear in order.
   */
  lemma {:induction false} JoinPartAt(parts: seq<string>, sep: string, i: nat)
    requires i < |parts|
    ensures OccursAt(Join(parts, sep), parts[i], JoinOffset(parts, sep, i))
    ensures i + 1 < |parts| ==> JoinOffset(parts, sep, i + 1) == JoinOffset(parts, sep, i) + |parts[i]| + |sep|
    decreases |parts|
  {
    if i == 0 {
      JoinFirst(parts, sep);
    } else {
      JoinPartAt(parts[1..], sep, i - 1);
      JoinPartAtStep(parts, sep, i);
    }
  }

  lemma JoinFirst(parts: seq<string>, sep: string)
    requires parts != []
    ensures OccursAt(Join(parts, sep), parts[0], 0)
    ensures |parts| > 1 ==> JoinOffset(parts, sep, 1) == |parts[0]| + |sep|
  {
    assert Join(parts, sep)[..|parts[0]|] == parts[0];
    assert parts[..1] == [parts[0]];
  }

  lemma JoinUnfold(parts: seq<string>, sep: string)
    requires |parts| > 1
    ensures Join(parts, sep) == parts[0] + sep + Join(parts[1..], sep)
  {
  }

  lemma JoinOffsetCons(parts: seq<string>, sep: string, i: nat)
    requires 1 <= i <= |parts|
    ensures JoinOffset(parts, sep, i) == |parts[0]| + |sep| + JoinOffset(parts[1..], sep, i - 1)
  {
    if i > 1 {
      assert parts[..i] == [parts[0]] + parts[1..][..i - 1];
      JoinCons(parts[0], parts[1..][..i - 1], sep);
    } else {
      assert parts[..1] == [parts[0]];
    }
  }

  lemma SliceShift<T>(a: seq<T>, b: seq<T>, o: nat, n: nat)
    requires o + n <= |b|
    ensures (a + b)[|a| + o..|a| + o + n] == b[o..o + n]
  {
  }

  lemma JoinPartAtStep(parts: seq<string>, sep: string, i: nat)
    requires 1 <= i < |parts|
    requires OccursAt(Join(parts[1..], sep), parts[i], JoinOffset(parts[1..], sep, i - 1))
    requires i + 1 < |parts| ==> JoinOffset(parts[1..], sep, i) == JoinOffset(parts[1..], sep, i - 1) + |parts[i]| + |sep|
    ensures OccursAt(Join(parts, sep), parts[i], JoinOffset(parts, sep, i))
    ensures i + 1 < |parts| ==> JoinOffset(parts, sep, i + 1) == JoinOffset(parts, sep, i) + |parts[i]| + |sep|
  {
    JoinUnfold(parts, sep);
    JoinOffsetCons(parts, sep, i);
    if i + 1 < |parts| {
      JoinOffsetStep(parts, sep, i);
    }
    ConcatAssoc(parts[0], sep, Join(parts[1..], sep));
    SliceShift(parts[0] + sep, Join(parts[1..], sep), JoinOffset(parts[1..], sep, i - 1), |parts[i]|);
  }

  lemma JoinOffsetStep(parts: seq<string>, sep: string, i: nat)
    requires 1 <= i && i + 1 < |parts|
    requires JoinOffset(parts[1..], sep, i) == JoinOffset(parts[1..], sep, i - 1) + |parts[i]| + |sep|
    ensures JoinOffset(parts, sep, i + 1) == JoinOffset(parts, sep, i) + |parts[i]| + |sep|
  {
    JoinOffsetCons(parts, sep, i);
    JoinOffsetCons(parts, sep, i + 1);
  }

  /** The position of the first `c` in `s`. */
  function CharIndex(s: string, c: char): (i: nat)
    requires c in s
    ensures i < |s| && s[i] == c && c !in s[..i]
  {
    if s[0] == c then 0 else
      assert c in s[1..] by { var j :| 0 <= j < |s| && s[j] == c; assert s[1..][j - 1] == c; }
      var k := CharIndex(s[1..], c);
      assert s[..k + 1] == [s[0]] + s[1..][..k];
      k + 1
  }

  lemma {:induction false} CharIndexAfter(a: string, c: char, b: string)
    requires c !in a
    ensures c in a + [c] + b && CharIndex(a + [c] + b, c) == |a|
  {
    var s := a + [c] + b;
    assert s[|a|] == c;
    if a != [] {
      assert s[1..] == a[1..] + [c] + b;
      CharIndexAfter(a[1..], c, b);
    }
  }

  /** `s.split(sep)` for a one-character separator: never empty, parts free of `sep`. */
  function SplitOn(s: string, sep: char): (r: seq<string>)
    ensures |r| >= 1
    ensures forall k :: 0 <= k < |r| ==> sep !in r[k]
    decreases |s|
  {
    if sep !in s then [s]
    else
      var i := CharIndex(s, sep);
      [s[..i]] + SplitOn(s[i + 1..], sep)
  }

  /** Splitting and joining back with the same separator gives the original text. */
  lemma {:induction false} JoinSplitOn(s: string, sep: char)
    ensures Join(SplitOn(s, sep), [sep]) == s
    decreases |s|
  {
    if sep in s {
      var i := CharIndex(s, sep);
      SplitOnUnfold(s, sep);
      JoinSplitOn(s[i + 1..], sep);
      JoinCons(s[..i], SplitOn(s[i + 1..], sep), [sep]);
      SplitAround(s, i);
    }
  }

  lemma SplitOnUnfold(s: string, sep: char)
    requires sep in s
    ensures SplitOn(s, sep) == [s[..CharIndex(s, sep)]] + SplitOn(s[CharIndex(s, sep) + 1..], sep)
  {
  }

  lemma SplitAround<T>(s: seq<T>, i: nat)
    requires i < |s|
    ensures s == s[..i] + [s[i]] + s[i + 1..]
  {
  }

  lemma JoinCons(head: string, rest: seq<string>, sep: string)
    requires rest != []
    ensures Join([head] + rest, sep) == head + sep + Join(rest, sep)
  {
    assert ([head] + rest)[1..] == rest;
  }

  /** Joining parts that do not contain the separator and splitting again gives the parts. */
  lemma {:induction false} SplitOnJoin(parts: seq<string>, sep: char)
    requires parts != []
    requires forall k :: 0 <= k < |parts| ==> sep !in parts[k]
    ensures SplitOn(Join(parts, [sep]), sep) == parts
    decreases |parts|
  {
    assert sep !in parts[0];
    if |parts| == 1 {
      assert Join(parts, [sep]) == parts[0];
    } else {
      var rest := Join(parts[1..], [sep]);
      var s := parts[0] + [sep] + rest;
      CharIndexAfter(parts[0], sep, rest);
      var i := CharIndex(s, sep);
      assert s[..i] == parts[0];
      assert s[i + 1..] == rest;
      assert Join(parts, [sep]) == s;
      SplitOnJoin(parts[1..], sep);
      assert SplitOn(s, sep) == [parts[0]] + SplitOn(rest, sep);
      assert parts == [parts[0]] + parts[1..];
    }
  }

  predicate StartsWith(s: string, prefix: string)
  {
    |prefix| <= |s| && s[..|prefix|] == prefix
  }

  predicate EndsWith(s: string, suffix: string)
  {
    |suffix| <= |s| && s[|s| - |suffix|..] == suffix
  }

  /** `sub` occurs in `s` starting at position `j`. */
  predicate OccursAt(s: string, sub: string, j: int)
  {
    0 <= j && j + |sub| <= |s| && s[j..j + |sub|] == sub
  }

  /** `s.find(sub)`: the first position where `sub` occurs, or -1. */
  function Find(s: string, sub: string): (r: int)
    ensures -1 <= r <= |s|
    ensures r >= 0 ==> OccursAt(s, sub, r)
    ensures forall j :: 0 <= j && (r < 0 || j < r) ==> !OccursAt(s, sub, j)
    decreases |s|
  {
    if StartsWith(s, sub) then 0
    else if s == [] then -1
    else
      var k := Find(s[1..], sub);
      assert forall j :: 1 <= j && OccursAt(s, sub, j) ==> OccursAt(s[1..], sub, j - 1) by {
        forall j | 1 <= j && OccursAt(s, sub, j) ensures OccursAt(s[1..], sub, j - 1) {
          assert s[1..][j - 1..j - 1 + |sub|] == s[j..j + |sub|];
        }
      }
      if k < 0 then -1
      else
        assert s[1..][k..k + |sub|] == s[k + 1..k + 1 + |sub|];
        k + 1
  }

  /** `sub in s`. */
  predicate Contains(s: string, sub: string)
  {
    Find(s, sub) >= 0
  }

  /** `s.rfind(sub)`: the last position where `sub` occurs, or -1. */
  function RFind(s: string, sub: string): (r: int)
    ensures -1 <= r <= |s|
    ensures r >= 0 ==> OccursAt(s, sub, r)
    ensures forall j :: r < j ==> !OccursAt(s, sub, j)
    decreases |s|
  {
    if |sub| > |s| then -1
    else if OccursAt(s, sub, |s| - |sub|) then |s| - |sub|
    else if s == [] then -1
    else
      var t := s[..|s| - 1];
      var k := RFind(t, sub);
      assert forall j :: OccursAt(s, sub, j) && j + |sub| < |s| ==> OccursAt(t, sub, j) by {
        forall j | OccursAt(s, sub, j) && j + |sub| < |s| ensures OccursAt(t, sub, j) {
          assert t[j..j + |sub|] == s[j..j + |sub|];
        }
      }
      if k >= 0 then assert t[k..k + |sub|] == s[k..k + |sub|]; k else -1
  }

  /** `c.lower()` on ASCII letters. */
  function LowerChar(c: char): char
  {
    if 'A' <= c <= 'Z' then (c as int + 32) as char else c
  }

  /** `s.lower()` on ASCII letters. */
  function Lower(s: string): (r: string)
    ensures |r| == |s|
    ensures forall i :: 0 <= i < |s| ==> r[i] == LowerChar(s[i])
  {
    seq(|s|, i requires 0 <= i < |s| => LowerChar(s[i]))
  }

  /** Lowercasing twice is lowercasing once. */
  lemma LowerIdempotent(s: string)
    ensures Lower(Lower(s)) == Lower(s)
  {
  }

  /** `s.replace(old, new)`: every non-overlapping occurrence, left to right. */
  function Replace(s: string, target: string, replacement: string): string
    requires target != []
    decreases |s|
  {
    if |s| < |target| then s
    else if s[..|target|] == target then replacement + Replace(s[|target|..], target, replacement)
    else [s[0]] + Replace(s[1..], target, replacement)
  }

  function DigitChar(d: nat): char
    requires d < 10
  {
    ('0' as int + d) as char
  }

  /** `str(n)` for a natural number. */
  function NatToString(n: nat): (r: string)
    ensures r != []
    ensures forall i :: 0 <= i < |r| ==> '0' <= r[i] <= '9'
  {
    if n < 10 then [DigitChar(n)] else NatToString(n / 10) + [DigitChar(n % 10)]
  }

  /** The decimal value of a digit string. */
  function DigitsValue(s: string): int
    requires forall i :: 0 <= i < |s| ==> '0' <= s[i] <= '9'
  {
    if s == [] then 0 else 10 * DigitsValue(s[..|s| - 1]) + (s[|s| - 1] as int - '0' as int)
  }

  /** `str(n)` is read back as `n`. */
  lemma {:induction false} NatToStringValue(n: nat)
    ensures DigitsValue(NatToString(n)) == n
  {
    if n >= 10 {
      NatToStringValue(n / 10);
      var r := NatToString(n);
      assert r[..|r| - 1] == NatToString(n / 10);
    }
  }

  lemma {:induction false} DigitsValueLeadingZero(s: string)
    requires forall i :: 0 <= i < |s| ==> '0' <= s[i] <= '9'
    ensures DigitsValue("0" + s) == DigitsValue(s)
    decreases |s|
  {
    if s != [] {
      var t := "0" + s;
      assert t[..|t| - 1] == "0" + s[..|s| - 1];
      DigitsValueLeadingZero(s[..|s| - 1]);
    }
  }

  /** The zero-padded counter is read back as the counter, so distinct counters give distinct texts. */
  lemma ZeroPad3Value(n: nat)
    ensures DigitsValue(ZeroPad3(n)) == n
  {
    NatToStringValue(n);
    if n < 100 {
      DigitsValueLeadingZero(NatToString(n));
      if n < 10 {
        assert "00" + NatToString(n) == "0" + ("0" + NatToString(n));
        DigitsValueLeadingZero("0" + NatToString(n));
      }
    }
  }

  /** `f"{n:03d}"`: the decimal digits of `n`, zero-padded on the left to three. */
  function ZeroPad3(n: nat): (r: string)
    ensures forall i :: 0 <= i < |r| ==> '0' <= r[i] <= '9'
  {
    if n < 10 then "00" + NatToString(n)
    else if n < 100 then "0" + NatToString(n)
    else NatToString(n)
  }

  /** Whitespace in front of a text disappears under `lstrip()`. */
  lemma {:induction false} LStripSpacePrefix(ws: string, s: string)
    requires AllSpace(ws)
    ensures LStrip(ws + s) == LStrip(s)
    decreases |ws|
  {
    if ws != [] {
      assert (ws + s)[1..] == ws[1..] + s;
      LStripSpacePrefix(ws[1..], s);
    } else {
      assert ws + s == s;
    }
  }

  /** `rstrip()` stops inside a tail that holds some non-whitespace. */
  lemma {:induction false} RStripKeepsPrefix(a: string, b: string)
    requires !AllSpace(b)
    ensures RStrip(a + b) == a + RStrip(b)
    decreases |b|
  {
    var i :| 0 <= i < |b| && !IsSpace(b[i]);
    if IsSpace(b[|b| - 1]) {
      var b' := b[..|b| - 1];
      assert !IsSpace(b'[i]);
      assert (a + b)[..|a + b| - 1] == a + b';
      RStripKeepsPrefix(a, b');
    }
  }

  /** A text with no surrounding whitespace is its own `strip()`. */
  lemma StripOfTrimmed(s: string)
    requires s != [] && !IsSpace(s[0]) && !IsSpace(s[|s| - 1])
    ensures LStrip(s) == s && RStrip(s) == s && Strip(s) == s
  {
  }

  /** `strip()` after `rstrip()` is `strip()`. */
  lemma StripOfRStrip(x: string)
    ensures Strip(RStrip(x)) == Strip(x)
  {
    StripEmptyIffAllSpace(x);
    if !AllSpace(x) {
      StripOfRStripWithText(x);
    }
  }

  lemma StripOfRStripWithText(x: string)
    requires !AllSpace(x)
    ensures Strip(RStrip(x)) == Strip(x)
  {
    var y := LStrip(x);
    var p := x[..|x| - |y|];
    SplitAt(x, |x| - |y|);
    StripEmptyIffAllSpace(x);
    RStripKeepsPrefix(p, y);
    StripOfLeadingText(y);
    LStripSpacePrefix(p, RStrip(y));
    RStripIdempotent(y);
  }

  lemma RStripIdempotent(s: string)
    ensures RStrip(RStrip(s)) == RStrip(s)
  {
  }

  lemma SplitAt<T>(s: seq<T>, k: nat)
    requires k <= |s|
    ensures s == s[..k] + s[k..]
  {
  }

  /** The characters of a stripped text come from the text. */
  lemma StripWithin(s: string, c: char)
    requires c !in s
    ensures c !in Strip(s) && c !in LStrip(s) && c !in RStrip(s)
  {
    LStripWithin(s, c);
    RStripWithin(s, c);
    RStripWithin(LStrip(s), c);
  }

  lemma LStripWithin(s: string, c: char)
    requires c !in s
    ensures c !in LStrip(s)
  {
    var l := LStrip(s);
    forall i | 0 <= i < |l| ensures l[i] != c {
      assert l[i] == s[|s| - |l| + i];
    }
  }

  lemma RStripWithin(s: string, c: char)
    requires c !in s
    ensures c !in RStrip(s)
  {
    var r := RStrip(s);
    forall i | 0 <= i < |r| ensures r[i] != c {
      assert r[i] == s[i];
    }
  }

  /** Joining texts free of `c` with a separator free of `c` gives a text free of `c`. */
  lemma {:induction false} JoinWithout(parts: seq<string>, sep: string, c: char)
    requires forall k :: 0 <= k < |parts| ==> c !in parts[k]
    requires c !in sep
    ensures c !in Join(parts, sep)
    decreases |parts|
  {
    if |parts| > 1 {
      JoinWithout(parts[1..], sep, c);
    }
  }

  /** After replacing `c` by a text free of it, `c` no longer occurs. */
  lemma {:induction false} ReplaceRemoves(s: string, c: char, replacement: string)
    requires c !in replacement
    ensures c !in Replace(s, [c], replacement)
    decreases |s|
  {
    if |s| >= 1 {
      ReplaceRemoves(s[1..], c, replacement);
    }
  }

  /** A text that starts with non-whitespace loses only its trailing whitespace. */
  lemma StripOfLeadingText(b: string)
    requires b != [] && !IsSpace(b[0])
    ensures Strip(b) == RStrip(b) && RStrip(b) != [] && RStrip(b)[0] == b[0]
    ensures LStrip(RStrip(b)) == RStrip(b)
  {
    assert LStrip(b) == b;
  }

  /** Stripping `a + b`, both starting with non-whitespace, keeps `a` whole. */
  lemma StripAfterText(a: string, b: string)
    requires a != [] && !IsSpace(a[0])
    requires b != [] && !IsSpace(b[0])
    ensures Strip(a + b) == a + Strip(b)
  {
    assert (a + b)[0] == a[0];
    assert LStrip(a + b) == a + b;
    assert !AllSpace(b) by {
      assert !IsSpace(b[0]);
    }
    RStripKeepsPrefix(a, b);
    StripOfLeadingText(b);
  }

  lemma ConcatAssoc<T>(a: seq<T>, b: seq<T>, c: seq<T>)
    ensures (a + b) + c == a + (b + c)
  {
  }

  lemma SliceConcat<T>(a: seq<T>, b: seq<T>)
    ensures (a + b)[|a|..] == b && (a + b)[..|a|] == a
  {
  }
}
