/** The Python string operations the certificate generator relies on:
    `str.split()`, `str.upper()`, `str.lower()`, `in`, `endswith` and
    `replace`, written out over `seq<char>`. */
module Text {

  /** The separators of Python's argument-less `str.split()`: the characters
      for which `str.isspace()` holds. */
  predicate IsSpace(c: char) {
    var n := c as int;
    n == 0x20 || 0x09 <= n <= 0x0D || 0x1C <= n <= 0x1F || n == 0x85 || n == 0xA0
    || n == 0x1680 || 0x2000 <= n <= 0x200A || n == 0x2028 || n == 0x2029
    || n == 0x202F || n == 0x205F || n == 0x3000
  }

  predicate NoSpace(s: string) {
    forall i :: 0 <= i < |s| ==> !IsSpace(s[i])
  }

  /** Concatenation of a list of strings, last element outermost. */
  function Concat(ss: seq<string>): string {
    if ss == [] then [] else Concat(ss[..|ss| - 1]) + ss[|ss| - 1]
  }

  /** The characters of `s` that are not separators, in order. */
  function Visible(s: string): string {
    if s == [] then [] else (if IsSpace(s[0]) then [] else [s[0]]) + Visible(s[1..])
  }

  /** Length of the run of non-separator characters at the front of `s`. */
  function TokenLength(s: string): (n: nat)
    ensures n <= |s|
    ensures forall i :: 0 <= i < n ==> !IsSpace(s[i])
    ensures n < |s| ==> IsSpace(s[n])
  {
    if s == [] || IsSpace(s[0]) then 0 else 1 + TokenLength(s[1..])
  }

  /** `s.split()`: the maximal runs of non-separator characters, in order.
      Every token is non-empty and holds no separator. */
  function Split(s: string): (r: seq<string>)
    ensures forall k :: 0 <= k < |r| ==> r[k] != [] && NoSpace(r[k])
    decreases |s|
  {
    if s == [] then []
    else if IsSpace(s[0]) then Split(s[1..])
    else
      var n := TokenLength(s);
      [s[..n]] + Split(s[n..])
  }

  lemma ConcatPrepend(t: string, ss: seq<string>)
    ensures Concat([t] + ss) == t + Concat(ss)
    decreases |ss|
  {
    if ss != [] {
      var n := |ss| - 1;
      assert ([t] + ss)[..n + 1] == [t] + ss[..n];
      ConcatPrepend(t, ss[..n]);
    }
  }

  lemma VisibleAppend(a: string, b: string)
    ensures Visible(a + b) == Visible(a) + Visible(b)
    decreases |a|
  {
    if a != [] {
      assert (a + b)[1..] == a[1..] + b;
      VisibleAppend(a[1..], b);
    } else {
      assert a + b == b;
    }
  }

  lemma {:induction false} VisibleOfToken(s: string)
    requires NoSpace(s)
    ensures Visible(s) == s
    decreases |s|
  {
    if s != [] {
      VisibleOfToken(s[1..]);
    }
  }

  /** Splitting loses nothing but the separators: gluing the tokens back
      together gives the input with its separators removed. */
  lemma {:induction false} SplitKeepsVisible(s: string)
    ensures Concat(Split(s)) == Visible(s)
    decreases |s|
  {
    if s == [] {
    } else if IsSpace(s[0]) {
      SplitKeepsVisible(s[1..]);
    } else {
      var n := TokenLength(s);
      SplitKeepsVisible(s[n..]);
      ConcatPrepend(s[..n], Split(s[n..]));
      assert s == s[..n] + s[n..];
      VisibleAppend(s[..n], s[n..]);
      VisibleOfToken(s[..n]);
    }
  }

  /** A string made only of separators (the empty string among them) has no tokens. */
  lemma {:induction false} SplitBlank(s: string)
    requires forall i :: 0 <= i < |s| ==> IsSpace(s[i])
    ensures Split(s) == []
    decreases |s|
  {
    if s != [] {
      SplitBlank(s[1..]);
    }
  }

  /** A string with a visible character has at least one token. */
  lemma {:induction false} SplitNonBlank(s: string, i: nat)
    requires i < |s| && !IsSpace(s[i])
    ensures Split(s) != []
    decreases |s|
  {
    if IsSpace(s[0]) {
      SplitNonBlank(s[1..], i - 1);
    }
  }

  /** A run of non-separators ends where the string ends, or at the same
      place when more text follows it after a separator. */
  lemma {:induction false} TokenLengthAppend(a: string, t: string)
    requires TokenLength(a) < |a| || (t != [] && IsSpace(t[0]))
    ensures TokenLength(a + t) == TokenLength(a)
    decreases |a|
  {
    if a == [] {
      assert (a + t)[0] == t[0];
    } else if !IsSpace(a[0]) {
      assert (a + t)[1..] == a[1..] + t;
      TokenLengthAppend(a[1..], t);
    }
  }

  /** A non-empty string without separators is a single token. */
  lemma SplitSingle(t: string)
    requires t != [] && NoSpace(t)
    ensures Split(t) == [t]
  {
    var n := TokenLength(t);
    assert n == |t|;
    assert t[..n] == t && t[n..] == [];
  }

  /** A string that starts with a non-separator splits into its first run
      and the tokens of what follows. */
  lemma SplitFirstToken(s: string)
    requires s != [] && !IsSpace(s[0])
    ensures Split(s) == [s[..TokenLength(s)]] + Split(s[TokenLength(s)..])
  {
  }

  /** Tokens never cross a separator: splitting around one separator splits
      each side on its own. Together with `SplitSingle` this fixes every
      token to be a maximal run of non-separators. */
  lemma {:induction false} SplitAtSpace(a: string, c: char, b: string)
    requires IsSpace(c)
    ensures Split(a + [c] + b) == Split(a) + Split(b)
    decreases |a|, 1
  {
    var t := [c] + b;
    assert a + [c] + b == a + t;
    if a == [] {
      assert a + t == t && t[0] == c && t[1..] == b;
      assert Split(t) == Split(b);
    } else if IsSpace(a[0]) {
      assert (a + t)[0] == a[0] && (a + t)[1..] == a[1..] + [c] + b;
      assert Split(a + t) == Split(a[1..] + [c] + b);
      SplitAtSpace(a[1..], c, b);
      assert Split(a) == Split(a[1..]);
    } else {
      SplitTokenAtSpace(a, c, b);
    }
  }

  /** `SplitAtSpace` when the left side starts with a token: that token is
      also the first token of the whole. */
  lemma {:induction false} SplitTokenAtSpace(a: string, c: char, b: string)
    requires IsSpace(c) && a != [] && !IsSpace(a[0])
    ensures Split(a + [c] + b) == Split(a) + Split(b)
    decreases |a|, 0
  {
    var t := [c] + b;
    var n := TokenLength(a);
    TokenLengthAppend(a, t);
    SplitFirstToken(a + t);
    SplitFirstToken(a);
    assert a + [c] + b == a + t;
    assert (a + t)[..n] == a[..n];
    assert (a + t)[n..] == a[n..] + [c] + b;
    SplitAtSpace(a[n..], c, b);
  }

  // ---------------------------------------------------------------------
  // Case mapping on ASCII and Latin-1 letters

  predicate IsLowerLetter(c: char) {
    var n := c as int;
    0x61 <= n <= 0x7A || (0xE0 <= n <= 0xFE && n != 0xF7)
  }

  predicate IsUpperLetter(c: char) {
    var n := c as int;
    0x41 <= n <= 0x5A || (0xC0 <= n <= 0xDE && n != 0xD7)
  }

  function UpperChar(c: char): (r: char)
    ensures !IsLowerLetter(r)
    ensures IsLowerLetter(c) ==> IsUpperLetter(r) && LowerChar(r) == c
    ensures !IsLowerLetter(c) ==> r == c
  {
    if IsLowerLetter(c) then (c as int - 0x20) as char else c
  }

  function LowerChar(c: char): (r: char)
    ensures !IsUpperLetter(r)
  {
    if IsUpperLetter(c) then (c as int + 0x20) as char else c
  }

  /** `s.upper()`. */
  function Upper(s: string): string {
    seq(|s|, i requires 0 <= i < |s| => UpperChar(s[i]))
  }

  /** `s.lower()`. */
  function Lower(s: string): string {
    seq(|s|, i requires 0 <= i < |s| => LowerChar(s[i]))
  }

  lemma CaseCharFacts(c: char)
    ensures UpperChar(UpperChar(c)) == UpperChar(c) && LowerChar(UpperChar(c)) == LowerChar(c)
    ensures LowerChar(LowerChar(c)) == LowerChar(c) && UpperChar(LowerChar(c)) == UpperChar(c)
  {
  }

  /** Upper-casing leaves no lower-case letter, does nothing the second
      time, and keeps the string's lower-cased form. */
  lemma UpperNormalises(s: string)
    ensures forall i :: 0 <= i < |s| ==> !IsLowerLetter(Upper(s)[i])
    ensures Upper(Upper(s)) == Upper(s)
    ensures Lower(Upper(s)) == Lower(s)
  {
    forall i | 0 <= i < |s|
      ensures Upper(Upper(s))[i] == Upper(s)[i] && Lower(Upper(s))[i] == Lower(s)[i]
    {
      CaseCharFacts(s[i]);
    }
  }

  /** Lower-casing leaves no upper-case letter, does nothing the second
      time, and keeps the string's upper-cased form. */
  lemma LowerNormalises(s: string)
    ensures forall i :: 0 <= i < |s| ==> !IsUpperLetter(Lower(s)[i])
    ensures Lower(Lower(s)) == Lower(s)
    ensures Upper(Lower(s)) == Upper(s)
  {
    forall i | 0 <= i < |s|
      ensures Lower(Lower(s))[i] == Lower(s)[i] && Upper(Lower(s))[i] == Upper(s)[i]
    {
      CaseCharFacts(s[i]);
    }
  }

  // ---------------------------------------------------------------------
  // Searching and replacing

  /** `t` occurs in `s` starting at index `i`. */
  predicate OccursAt(s: string, t: string, i: int) {
    0 <= i <= |s| - |t| && s[i..i + |t|] == t
  }

  /** An occurrence moves right by the length of text put in front of it. */
  lemma OccursAtShift(u: string, s: string, t: string, i: int)
    requires OccursAt(s, t, i)
    ensures OccursAt(u + s, t, |u| + i)
  {
    assert (u + s)[|u| + i..|u| + i + |t|] == s[i..i + |t|];
  }

  /** `t in s` for strings. */
  function Contains(s: string, t: string): (r: bool)
    ensures r <==> exists i :: OccursAt(s, t, i)
    decreases |s|
  {
    if |s| < |t| then false
    else if s[..|t|] == t then assert OccursAt(s, t, 0); true
    else
      var r' := Contains(s[1..], t);
      assert r' ==> exists i :: OccursAt(s, t, i) by {
        if r' {
          var j :| OccursAt(s[1..], t, j);
          assert s[j + 1..j + 1 + |t|] == s[1..][j..j + |t|];
          assert OccursAt(s, t, j + 1);
        }
      }
      assert (exists i :: OccursAt(s, t, i)) ==> r' by {
        if exists i :: OccursAt(s, t, i) {
          var i :| OccursAt(s, t, i);
          assert i != 0;
          assert s[1..][i - 1..i - 1 + |t|] == s[i..i + |t|];
          assert OccursAt(s[1..], t, i - 1);
        }
      }
      r'
  }

  /** `s.endswith(t)`. */
  predicate EndsWith(s: string, t: string) {
    |t| <= |s| && s[|s| - |t|..] == t
  }

  /** `s.replace(a, b)` for single characters `a` and `b`. */
  function ReplaceChar(s: string, a: char, b: char): string {
    seq(|s|, i requires 0 <= i < |s| => if s[i] == a then b else s[i])
  }

  /** Replacing `a` by `b` is undone by replacing `b` by `a`, provided `b`
      did not occur to begin with. */
  lemma ReplaceCharRoundTrip(s: string, a: char, b: char)
    ensures (forall i :: 0 <= i < |s| ==> s[i] != b) ==> ReplaceChar(ReplaceChar(s, a, b), b, a) == s
  {
  }
}
