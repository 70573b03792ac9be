/** String helpers standing for the JavaScript built-ins the handlers and
    pages call: `toLowerCase`, `includes`, `trim`, `padStart`, `join`,
    `String(n)` on integers, `replace(/\s+/g, …)` and `replace(/x/g, …)`. */
module Text {

  /** `toLowerCase`, restricted to the ASCII letters. */
  function LowerChar(c: char): char
  {
    if 'A' <= c <= 'Z' then (c as int + 32) as char else c
  }

  function Lower(s: string): (r: string)
    ensures |r| == |s|
    ensures forall i :: 0 <= i < |s| ==> r[i] == LowerChar(s[i])
  {
    if s == [] then [] else [LowerChar(s[0])] + Lower(s[1..])
  }

  /** `hay.includes(needle)`: `needle` occurs in `hay` at some offset. */
  predicate Contains(hay: string, needle: string)
  {
    exists i :: 0 <= i <= |hay| && OccursAt(hay, needle, i)
  }

  predicate OccursAt(hay: string, needle: string, i: int)
  {
    0 <= i <= |hay| - |needle| && hay[i..i + |needle|] == needle
  }

  /** `hay.toLowerCase().includes(needle.toLowerCase())`. */
  predicate ContainsIgnoreCase(hay: string, needle: string)
  {
    Contains(Lower(hay), Lower(needle))
  }

  lemma ContainsSelf(s: string)
    ensures Contains(s, s)
  {
    assert OccursAt(s, s, 0);
  }

  /** A string equal to the needle ignoring case contains it ignoring case. */
  lemma ContainsIgnoreCaseOfEqual(hay: string, needle: string)
    requires Lower(hay) == Lower(needle)
    ensures ContainsIgnoreCase(hay, needle)
  {
    ContainsSelf(Lower(hay));
  }

  /** The characters JavaScript's `\s` and `trim` treat as white space. */
  predicate IsWhitespace(c: char)
  {
    || c == ' ' || c == '\t' || c == '\n' || c == '\r' || c == '\U{000B}' || c == '\U{000C}'
    || c == '\U{00A0}' || c == '\U{1680}' || '\U{2000}' <= c <= '\U{200A}'
    || c == '\U{2028}' || c == '\U{2029}' || c == '\U{202F}' || c == '\U{205F}'
    || c == '\U{3000}' || c == '\U{FEFF}'
  }

  predicate AllWhitespace(s: string)
  {
    forall i :: 0 <= i < |s| ==> IsWhitespace(s[i])
  }

  predicate NoWhitespace(s: string)
  {
    forall i :: 0 <= i < |s| ==> !IsWhitespace(s[i])
  }

  /** The number of white-space characters `s` starts with. */
  function LeadingWhitespace(s: string): (n: nat)
    ensures n <= |s|
    ensures forall i :: 0 <= i < n ==> IsWhitespace(s[i])
    ensures n < |s| ==> !IsWhitespace(s[n])
  {
    if s != [] && IsWhitespace(s[0]) then 1 + LeadingWhitespace(s[1..]) else 0
  }

  /** The number of white-space characters `s` ends with. */
  function TrailingWhitespace(s: string): (n: nat)
    ensures n <= |s|
    ensures forall i :: |s| - n <= i < |s| ==> IsWhitespace(s[i])
    ensures n < |s| ==> !IsWhitespace(s[|s| - 1 - n])
  {
    if s != [] && IsWhitespace(s[|s| - 1]) then 1 + TrailingWhitespace(s[..|s| - 1]) else 0
  }

  /** `trim()`, and the schema's `trim: true`. */
  function Trim(s: string): (r: string)
    ensures |r| <= |s|
    ensures r != [] ==> !IsWhitespace(r[0]) && !IsWhitespace(r[|r| - 1])
  {
    var i := LeadingWhitespace(s);
    if i == |s| then ""
    else
      var j := |s| - TrailingWhitespace(s);
      s[i..j]
  }

  /** What `Trim` removes is white space from both ends and nothing else:
      its result is a slice of `s` between two all-white-space ends. */
  lemma TrimIsSlice(s: string)
    ensures exists i :: 0 <= i <= |s| - |Trim(s)| && s[i..i + |Trim(s)|] == Trim(s)
                        && AllWhitespace(s[..i]) && AllWhitespace(s[i + |Trim(s)|..])
  {
    var i := LeadingWhitespace(s);
    var r := Trim(s);
    if i == |s| {
      assert r == [] && s[..i] == s && s[i..] == [];
      assert s[i..i + |r|] == r;
    } else {
      var j := |s| - TrailingWhitespace(s);
      assert r == s[i..j];
      assert |r| == j - i;
      forall k | 0 <= k < i
        ensures IsWhitespace(s[..i][k])
      {
      }
      forall k | 0 <= k < |s| - j
        ensures IsWhitespace(s[j..][k])
      {
        assert s[j..][k] == s[j + k];
      }
      assert s[i..i + |r|] == r;
    }
  }

  /** A trimmed string is left unchanged by another trim. */
  lemma TrimIdempotent(s: string)
    ensures Trim(Trim(s)) == Trim(s)
  {
    var t := Trim(s);
    if t != [] {
      assert LeadingWhitespace(t) == 0;
      assert TrailingWhitespace(t) == 0;
      assert t[0..|t|] == t;
    }
  }

  predicate IsDigit(c: char)
  {
    '0' <= c <= '9'
  }

  predicate AllDigits(s: string)
  {
    forall i :: 0 <= i < |s| ==> IsDigit(s[i])
  }

  function DigitChar(d: nat): (c: char)
    requires d < 10
    ensures IsDigit(c)
  {
    ('0' as int + d) as char
  }

  function DigitValue(c: char): (d: nat)
    requires IsDigit(c)
    ensures d < 10 && DigitChar(d) == c
  {
    c as int - '0' as int
  }

  /** `String(n)` for a non-negative integer: its decimal digits, most
      significant first, with no leading zero. */
  function NatToString(n: nat): (s: string)
    ensures |s| >= 1 && AllDigits(s)
    ensures s[0] == '0' ==> n == 0
  {
    if n < 10 then [DigitChar(n)] else NatToString(n / 10) + [DigitChar(n % 10)]
  }

  /** `String(i)` for any integer. */
  function IntToString(i: int): string
  {
    if i < 0 then "-" + NatToString(-i) else NatToString(i)
  }

  /** The value of a string of decimal digits. */
  function ParseNat(s: string): nat
    requires AllDigits(s)
  {
    if s == [] then 0 else ParseNat(s[..|s| - 1]) * 10 + DigitValue(s[|s| - 1])
  }

  lemma {:induction false} ParseNatToString(n: nat)
    ensures ParseNat(NatToString(n)) == n
  {
    if n >= 10 {
      var s := NatToString(n);
      assert s[..|s| - 1] == NatToString(n / 10);
      ParseNatToString(n / 10);
    }
  }

  /** `s.padStart(width, c)`. */
  function PadStart(s: string, width: nat, c: char): (r: string)
    ensures |r| == if |s| >= width then |s| else width
    ensures r[|r| - |s|..] == s
    ensures forall i :: 0 <= i < |r| - |s| ==> r[i] == c
  {
    if |s| >= width then s else [c] + PadStart(s, width - 1, c)
  }

  /** Leading zeros do not change the value of a digit string. */
  lemma {:induction false} ParseNatLeadingZeros(z: string, s: string)
    requires forall i :: 0 <= i < |z| ==> z[i] == '0'
    requires AllDigits(s)
    ensures AllDigits(z + s) && ParseNat(z + s) == ParseNat(s)
    decreases |s|
  {
    if s == [] {
      assert z + s == z;
      ParseNatZeros(z);
    } else {
      assert (z + s)[..|z + s| - 1] == z + s[..|s| - 1];
      ParseNatLeadingZeros(z, s[..|s| - 1]);
    }
  }

  lemma {:induction false} ParseNatZeros(z: string)
    requires forall i :: 0 <= i < |z| ==> z[i] == '0'
    ensures AllDigits(z) && ParseNat(z) == 0
  {
    if z != [] {
      ParseNatZeros(z[..|z| - 1]);
    }
  }

  /** `parts.join(sep)`. */
  function Join(parts: seq<string>, sep: string): string
  {
    if parts == [] then ""
    else if |parts| == 1 then parts[0]
    else parts[0] + sep + Join(parts[1..], sep)
  }

  /** `s.replace(/x/g, y)` for a single character `x`. */
  function ReplaceChar(s: string, x: char, y: char): (r: string)
    ensures |r| == |s|
    ensures forall i :: 0 <= i < |s| ==> r[i] == if s[i] == x then y else s[i]
  {
    if s == [] then [] else [if s[0] == x then y else s[0]] + ReplaceChar(s[1..], x, y)
  }

  /** Each maximal run of characters of class `p` becomes one `y`: a
      left-to-right scan that remembers whether it is inside a run. */
  function ReplaceRunsFrom(s: string, p: char -> bool, y: char, inRun: bool): string
  {
    if s == [] then []
    else if p(s[0]) then (if inRun then [] else [y]) + ReplaceRunsFrom(s[1..], p, y, true)
    else [s[0]] + ReplaceRunsFrom(s[1..], p, y, false)
  }

  /** Whether the scan is inside a run after reading `s`. */
  function InRunAfter(s: string, p: char -> bool, inRun: bool): bool
  {
    if s == [] then inRun else p(s[|s| - 1])
  }

  /** The replacement leaves no character of the class, never lengthens
      the string, and changes nothing when there is no run. */
  lemma {:induction false} ReplaceRunsShape(s: string, p: char -> bool, y: char, inRun: bool)
    requires !p(y)
    ensures var r := ReplaceRunsFrom(s, p, y, inRun);
      && (forall i :: 0 <= i < |r| ==> !p(r[i]))
      && |r| <= |s|
      && ((forall i :: 0 <= i < |s| ==> !p(s[i])) ==> r == s)
  {
    if s != [] {
      ReplaceRunsShape(s[1..], p, y, p(s[0]));
      assert (forall i :: 0 <= i < |s| ==> !p(s[i])) ==> (forall i :: 0 <= i < |s[1..]| ==> !p(s[1..][i]));
    }
  }

  /** `s.replace(/\s+/g, y)`: each maximal run of white space becomes one `y`. */
  function ReplaceWhitespaceRuns(s: string, y: char): (r: string)
    requires !IsWhitespace(y)
    ensures NoWhitespace(r)
    ensures |r| <= |s|
    ensures NoWhitespace(s) ==> r == s
  {
    ReplaceRunsShape(s, IsWhitespace, y, false);
    ReplaceRunsFrom(s, IsWhitespace, y, false)
  }

  /** The scan over `a + t` is the scan over `a` followed by the scan over
      `t` in the state `a` leaves it in. */
  lemma {:induction false} ReplaceRunsAppend(a: string, t: string, p: char -> bool, y: char, inRun: bool)
    ensures ReplaceRunsFrom(a + t, p, y, inRun)
         == ReplaceRunsFrom(a, p, y, inRun) + ReplaceRunsFrom(t, p, y, InRunAfter(a, p, inRun))
  {
    if a == [] {
      assert a + t == t;
    } else {
      var at := a + t;
      assert at[0] == a[0] && at[1..] == a[1..] + t;
      ReplaceRunsAppend(a[1..], t, p, y, p(a[0]));
      assert InRunAfter(a[1..], p, p(a[0])) == InRunAfter(a, p, inRun);
      var head: string := if p(a[0]) then (if inRun then [] else [y]) else [a[0]];
      var x := ReplaceRunsFrom(a[1..], p, y, p(a[0]));
      var z := ReplaceRunsFrom(t, p, y, InRunAfter(a, p, inRun));
      assert head + (x + z) == (head + x) + z;
    }
  }

  /** A run read inside a run adds nothing; a run read outside one adds
      one `y`. */
  lemma {:induction false} ReplaceRunsOfRun(w: string, p: char -> bool, y: char, inRun: bool)
    requires w != [] && forall i :: 0 <= i < |w| ==> p(w[i])
    ensures ReplaceRunsFrom(w, p, y, inRun) == if inRun then [] else [y]
  {
    if |w| > 1 {
      ReplaceRunsOfRun(w[1..], p, y, true);
    }
  }

  /** Text that does not start with a class character is scanned alike in
      either state. */
  lemma ReplaceRunsStateFree(b: string, p: char -> bool, y: char)
    requires b == [] || !p(b[0])
    ensures ReplaceRunsFrom(b, p, y, true) == ReplaceRunsFrom(b, p, y, false)
  {
  }

  /** No run of white space crosses the end of `a` when `a` ends in a
      non-white-space character, so the replacement splits there. */
  lemma ReplaceWhitespaceRunsAppend(a: string, t: string, y: char)
    requires !IsWhitespace(y)
    requires a == [] || !IsWhitespace(a[|a| - 1])
    ensures ReplaceWhitespaceRuns(a + t, y) == ReplaceWhitespaceRuns(a, y) + ReplaceWhitespaceRuns(t, y)
  {
    ReplaceRunsAppend(a, t, IsWhitespace, y, false);
  }

  /** A whole run of white space, however long, becomes one `y`. */
  lemma ReplaceWhitespaceRun(w: string, b: string, y: char)
    requires !IsWhitespace(y)
    requires w != [] && AllWhitespace(w)
    requires b == [] || !IsWhitespace(b[0])
    ensures ReplaceWhitespaceRuns(w + b, y) == [y] + ReplaceWhitespaceRuns(b, y)
  {
    ReplaceRunsAppend(w, b, IsWhitespace, y, false);
    ReplaceRunsOfRun(w, IsWhitespace, y, false);
    ReplaceRunsStateFree(b, IsWhitespace, y);
  }

  /** `s.replace(/\s+/g, y)` on `a`, a run `w`, then `b`: the run between
      two non-white-space characters turns into exactly one `y`, and the
      two sides are replaced on their own. */
  lemma ReplaceWhitespaceRunBetween(a: string, w: string, b: string, y: char)
    requires !IsWhitespace(y)
    requires w != [] && AllWhitespace(w)
    requires a == [] || !IsWhitespace(a[|a| - 1])
    requires b == [] || !IsWhitespace(b[0])
    ensures ReplaceWhitespaceRuns(a + w + b, y) == ReplaceWhitespaceRuns(a, y) + [y] + ReplaceWhitespaceRuns(b, y)
  {
    var wb := w + b;
    assert a + w + b == a + wb;
    ReplaceWhitespaceRunsAppend(a, wb, y);
    ReplaceWhitespaceRun(w, b, y);
  }
}
