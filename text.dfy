/**
 * The string operations of Python's `str` that the backend relies on:
 * `strip`, `lower`, `split`, `in` (substring test) and `join`.
 * Strings are sequences of Unicode scalar values, as Python's `str` is.
 */
module Text {

  /** Python's `str.isspace` set: the characters `strip()` and `split()` treat as whitespace. */
  predicate IsSpace(c: char) {
    var n := c as int;
    (9 <= n <= 13) || (0x1C <= n <= 0x20) || n == 0x85 || n == 0xA0 || n == 0x1680
    || (0x2000 <= n <= 0x200A) || n == 0x2028 || n == 0x2029 || n == 0x202F
    || n == 0x205F || n == 0x3000
  }

  /** `s.lstrip()`: drop leading whitespace. */
  function TrimLeft(s: string): (r: string)
    ensures |r| <= |s| && r == s[|s| - |r|..]
    ensures forall k :: 0 <= k < |s| - |r| ==> IsSpace(s[k])
    ensures r == [] || !IsSpace(r[0])
  {
    if s != [] && IsSpace(s[0]) then TrimLeft(s[1..]) else s
  }

  /** `s.rstrip()`: drop trailing whitespace. */
  function TrimRight(s: string): (r: string)
    ensures |r| <= |s| && r == s[..|r|]
    ensures forall k :: |r| <= k < |s| ==> IsSpace(s[k])
    ensures r == [] || !IsSpace(r[|r| - 1])
  {
    if s != [] && IsSpace(s[|s| - 1]) then TrimRight(s[..|s| - 1]) else s
  }

  /** Neither end of `s` is whitespace. */
  predicate IsStripped(s: string) {
    s == [] || (!IsSpace(s[0]) && !IsSpace(s[|s| - 1]))
  }

  /** `s.strip()`. */
  function Strip(s: string): (r: string)
    ensures IsStripped(r)
    ensures |r| <= |s|
  {
    TrimRight(TrimLeft(s))
  }

  lemma StripOfStripped(s: string)
    requires IsStripped(s)
    ensures Strip(s) == s
  {
  }

  /** `IsStripped` is kept by appending a piece whose last character is not whitespace. */
  lemma StrippedAppend(a: string, b: string)
    requires IsStripped(a) && b != [] && !IsSpace(b[|b| - 1])
    requires a != [] || !IsSpace(b[0])
    ensures IsStripped(a + b)
  {
  }

  /** ASCII case folding. */
  function LowerChar(c: char): char {
    if 'A' <= c <= 'Z' then (c as int + 32) as char else c
  }

  /** `s.lower()` (on ASCII letters; see README). */
  function Lower(s: string): (r: string)
    ensures |r| == |s|
  {
    seq(|s|, i requires 0 <= i < |s| => LowerChar(s[i]))
  }

  lemma LowerConcat(a: string, b: string)
    ensures Lower(a + b) == Lower(a) + Lower(b)
  {
  }

  /** A string without ASCII capitals is its own lowercase form. */
  lemma LowerOfLowercase(s: string)
    requires forall i :: 0 <= i < |s| ==> !('A' <= s[i] <= 'Z')
    ensures Lower(s) == s
  {
  }

  /** `w` occurs in `s` starting at index `i`. */
  predicate OccursAt(s: string, w: string, i: nat) {
    i + |w| <= |s| && s[i..i + |w|] == w
  }

  /** Python's `w in s`: `w` occurs in `s` as a contiguous substring. */
  predicate Contains(s: string, w: string) {
    exists i: nat :: i <= |s| && OccursAt(s, w, i)
  }

  lemma ContainsInPrefix(a: string, b: string, w: string)
    requires Contains(a, w)
    ensures Contains(a + b, w)
  {
    var i: nat :| i <= |a| && OccursAt(a, w, i);
    assert (a + b)[i..i + |w|] == a[i..i + |w|];
    assert OccursAt(a + b, w, i);
  }

  lemma ContainsInSuffix(a: string, b: string, w: string)
    requires Contains(b, w)
    ensures Contains(a + b, w)
  {
    var i: nat :| i <= |b| && OccursAt(b, w, i);
    assert (a + b)[|a| + i..|a| + i + |w|] == b[i..i + |w|];
    assert OccursAt(a + b, w, |a| + i);
  }

  lemma ContainsMiddle(a: string, w: string, b: string)
    ensures Contains(a + w + b, w)
  {
    assert (a + w + b)[|a|..|a| + |w|] == w;
    assert OccursAt(a + w + b, w, |a|);
  }

  /** A lowercase word stays a substring when the text around it is lowered. */
  lemma LowerKeepsWord(a: string, w: string, b: string)
    requires forall i :: 0 <= i < |w| ==> !('A' <= w[i] <= 'Z')
    ensures Contains(Lower(a + w + b), w)
  {
    LowerConcat(a + w, b);
    LowerConcat(a, w);
    LowerOfLowercase(w);
    ContainsMiddle(Lower(a), w, Lower(b));
  }

  /** Lowering a character keeps it whitespace or not. */
  lemma LowerCharSpace(c: char)
    ensures IsSpace(LowerChar(c)) == IsSpace(c)
  {
  }

  /** `strip` keeps one slice of its argument and drops only whitespace around it. */
  lemma StripSlice(s: string) returns (a: nat, b: nat)
    ensures a <= b <= |s| && Strip(s) == s[a..b]
    ensures forall k :: 0 <= k < a ==> IsSpace(s[k])
    ensures forall k :: b <= k < |s| ==> IsSpace(s[k])
  {
    var l := TrimLeft(s);
    a := |s| - |l|;
    b := a + |TrimRight(l)|;
    forall k | b <= k < |s| ensures IsSpace(s[k]) {
      assert l[k - a] == s[k];
    }
  }

  lemma LowerSlice(s: string, a: nat, b: nat)
    requires a <= b <= |s|
    ensures Lower(s[a..b]) == Lower(s)[a..b]
  {
  }

  /** An occurrence lying inside `x[a..b]` is an occurrence in that slice. */
  lemma OccursInSlice(x: string, w: string, i: nat, a: nat, b: nat)
    requires OccursAt(x, w, i) && a <= i && i + |w| <= b <= |x|
    ensures OccursAt(x[a..b], w, i - a)
  {
    var y := x[a..b];
    forall j | 0 <= j < |w| ensures y[i - a + j] == w[j] {
      assert y[i - a + j] == x[i + j] == x[i..i + |w|][j];
    }
    assert y[i - a..i - a + |w|] == w;
  }

  /** An occurrence of a word without whitespace in the lowered text avoids the whitespace at both ends. */
  lemma OccurrenceInside(s: string, w: string, i: nat, a: nat, b: nat)
    requires w != [] && forall k :: 0 <= k < |w| ==> !IsSpace(w[k])
    requires OccursAt(Lower(s), w, i) && a <= b <= |s|
    requires forall k :: 0 <= k < a ==> IsSpace(s[k])
    requires forall k :: b <= k < |s| ==> IsSpace(s[k])
    ensures a <= i && i + |w| <= b
  {
    var e := i + |w| - 1;
    assert Lower(s)[i] == w[0] && Lower(s)[e] == w[|w| - 1];
    LowerCharSpace(s[i]);
    LowerCharSpace(s[e]);
  }

  /** A word without whitespace found in the lowered text is found in the lowered stripped text. */
  lemma WordInStrip(s: string, w: string)
    requires w != [] && forall k :: 0 <= k < |w| ==> !IsSpace(w[k])
    requires Contains(Lower(s), w)
    ensures Contains(Lower(Strip(s)), w)
  {
    var a, b := StripSlice(s);
    var i: nat :| i <= |Lower(s)| && OccursAt(Lower(s), w, i);
    OccurrenceInside(s, w, i, a, b);
    OccursInSlice(Lower(s), w, i, a, b);
    LowerSlice(s, a, b);
    assert OccursAt(Lower(Strip(s)), w, i - a);
  }

  /** `any(w in s for w in ws)`. */
  predicate ContainsAny(s: string, ws: seq<string>) {
    if ws == [] then false else Contains(s, ws[0]) || ContainsAny(s, ws[1..])
  }

  lemma {:induction false} ContainsAnyMember(s: string, ws: seq<string>, k: nat)
    requires k < |ws| && Contains(s, ws[k])
    ensures ContainsAny(s, ws)
  {
    if k > 0 {
      ContainsAnyMember(s, ws[1..], k - 1);
    }
  }

  lemma {:induction false} ContainsAnyNone(s: string, ws: seq<string>)
    requires forall k :: 0 <= k < |ws| ==> !Contains(s, ws[k])
    ensures !ContainsAny(s, ws)
  {
    if ws != [] {
      ContainsAnyNone(s, ws[1..]);
    }
  }

  lemma {:induction false} ContainsAnyPrefix(a: string, b: string, ws: seq<string>)
    requires ContainsAny(a, ws)
    ensures ContainsAny(a + b, ws)
  {
    if Contains(a, ws[0]) {
      ContainsInPrefix(a, b, ws[0]);
    } else {
      ContainsAnyPrefix(a, b, ws[1..]);
    }
  }

  /** The longest prefix of `s` holding no whitespace. */
  function TakeWord(s: string): (w: string)
    ensures w <= s
    ensures forall k :: 0 <= k < |w| ==> !IsSpace(w[k])
    ensures s != [] && !IsSpace(s[0]) ==> w != []
  {
    if s == [] || IsSpace(s[0]) then [] else [s[0]] + TakeWord(s[1..])
  }

  /** A nonempty run of non-whitespace characters. */
  predicate IsWord(w: string) {
    w != [] && forall k :: 0 <= k < |w| ==> !IsSpace(w[k])
  }

  /** `s.split()` with no separator: the maximal runs of non-whitespace, in order. */
  function Split(s: string): (ws: seq<string>)
    ensures forall i :: 0 <= i < |ws| ==> IsWord(ws[i])
    decreases |s|
  {
    var t := TrimLeft(s);
    if t == [] then []
    else
      var w := TakeWord(t);
      assert IsWord(w);
      [w] + Split(t[|w|..])
  }

  /** `sep.join(ws)`. */
  function Join(ws: seq<string>, sep: string): string {
    if ws == [] then ""
    else if |ws| == 1 then ws[0]
    else ws[0] + sep + Join(ws[1..], sep)
  }

  function DigitChar(d: nat): char
    requires d < 10
  {
    "0123456789"[d]
  }

  /** `str(n)` for a non-negative integer. */
  function NatToString(n: nat): (r: string)
    ensures r != []
  {
    if n < 10 then [DigitChar(n)] else NatToString(n / 10) + [DigitChar(n % 10)]
  }
}
