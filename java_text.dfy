/**
  The pieces of java.lang.String and java.util.StringTokenizer behaviour that the client relies
  on, stated over `seq<char>`: tokenizing, `split`, `indexOf`, `substring`, `compareTo`,
  `compareToIgnoreCase`, `contains`, `trim`, `toLowerCase` and `replaceAll("\n", sep)`.
  Characters compare by code point (Java compares UTF-16 code units; the two agree on the
  Basic Multilingual Plane), and case mapping is ASCII only.
*/
module JavaText {

  /** The default delimiter set of java.util.StringTokenizer: " \t\n\r\f". */
  const Whitespace: set<char> := {' ', '\t', '\n', '\r', '\U{000C}'}

  /** Length of the run of non-delimiters at the start of `s`. */
  function WordLength(s: string, delims: set<char>): (n: nat)
    ensures n <= |s|
    ensures forall i :: 0 <= i < n ==> s[i] !in delims
    ensures n == |s| || s[n] in delims
  {
    if s == [] || s[0] in delims then 0 else 1 + WordLength(s[1..], delims)
  }

  /** The tokens a StringTokenizer over `s` with the given delimiters returns, in order:
      the maximal non-empty runs of non-delimiter characters. */
  function Tokenize(s: string, delims: set<char>): (r: seq<string>)
    ensures forall t :: t in r ==> t != [] && forall c :: c in t ==> c !in delims
    decreases |s|
  {
    if s == [] then []
    else if s[0] in delims then Tokenize(s[1..], delims)
    else
      var n := WordLength(s, delims);
      [s[..n]] + Tokenize(s[n..], delims)
  }

  /** A text yields no token exactly when it holds delimiters only. */
  lemma {:induction false} TokenizeNone(s: string, delims: set<char>)
    ensures Tokenize(s, delims) == [] <==> forall c :: c in s ==> c in delims
    decreases |s|
  {
    if s != [] {
      assert s == [s[0]] + s[1..];
      if s[0] in delims {
        TokenizeNone(s[1..], delims);
      }
    }
  }

  /** The pieces joined with one separator character between neighbours. */
  function Join(ps: seq<string>, d: char): string {
    if ps == [] then ""
    else if |ps| == 1 then ps[0]
    else ps[0] + [d] + Join(ps[1..], d)
  }

  /** A word followed by nothing or by a delimiter is the first token. */
  lemma TokenizeWord(w: string, rest: string, delims: set<char>)
    requires w != [] && forall c :: c in w ==> c !in delims
    requires rest == [] || rest[0] in delims
    ensures Tokenize(w + rest, delims) == [w] + Tokenize(rest, delims)
  {
    var s := w + rest;
    assert s[0] == w[0] && w[0] in w;
    WordLengthOfWord(w, rest, delims);
    assert s[..|w|] == w && s[|w|..] == rest;
  }

  lemma {:induction false} WordLengthOfWord(w: string, rest: string, delims: set<char>)
    requires forall c :: c in w ==> c !in delims
    requires rest == [] || rest[0] in delims
    ensures WordLength(w + rest, delims) == |w|
    decreases |w|
  {
    if w != [] {
      assert w[0] in w;
      assert (w + rest)[1..] == w[1..] + rest;
      WordLengthOfWord(w[1..], rest, delims);
    } else {
      assert w + rest == rest;
    }
  }

  /** A non-empty run of non-delimiters: what a tokenizer returns as one token. */
  predicate IsToken(t: string, delims: set<char>) {
    t != [] && forall c :: c in t ==> c !in delims
  }

  /** A token, a delimiter and a tail tokenize to the token followed by the tail's tokens. */
  lemma TokenizeJoinStep(w: string, d: char, tail: string, delims: set<char>)
    requires d in delims && IsToken(w, delims)
    ensures Tokenize(w + [d] + tail, delims) == [w] + Tokenize(tail, delims)
  {
    assert w + [d] + tail == w + ([d] + tail);
    TokenizeWord(w, [d] + tail, delims);
    assert ([d] + tail)[1..] == tail;
  }

  /** Tokenizing undoes joining with a delimiter: the tokenizer recovers exactly the
      words of a line whose words are non-empty and delimiter-free. */
  lemma {:induction false} TokenizeJoin(ts: seq<string>, d: char, delims: set<char>)
    requires d in delims
    requires forall t :: t in ts ==> IsToken(t, delims)
    ensures Tokenize(Join(ts, d), delims) == ts
  {
    if |ts| == 1 {
      assert IsToken(ts[0], delims);
      TokenizeWord(ts[0], [], delims);
      assert ts[0] + [] == ts[0];
    } else if |ts| > 1 {
      assert IsToken(ts[0], delims);
      assert forall t :: t in ts[1..] ==> t in ts;
      TokenizeJoin(ts[1..], d, delims);
      TokenizeJoinStep(ts[0], d, Join(ts[1..], d), delims);
      assert ts == [ts[0]] + ts[1..];
    }
  }

  /** `indexOf`: the first position of `x` in `s`, or -1 when it does not occur. */
  function FirstIndex<T(==)>(s: seq<T>, x: T): (i: int)
    ensures -1 <= i < |s|
    ensures i == -1 <==> x !in s
    ensures 0 <= i ==> s[i] == x && x !in s[..i]
  {
    if s == [] then -1
    else if s[0] == x then 0
    else
      var j := FirstIndex(s[1..], x);
      assert s[1..][..j + 1] == s[1..j + 2] by { }
      if j == -1 then -1 else j + 1
  }

  /** `s.substring(s.indexOf(c) + 1)`: the text after the first `c`, or all of `s` when there is none. */
  function AfterFirst(s: string, c: char): (r: string)
    ensures c !in s ==> r == s
    ensures c in s ==> exists i :: 0 <= i < |s| && s[i] == c && c !in s[..i] && r == s[i + 1..]
  {
    s[FirstIndex(s, c) + 1..]
  }

  /** All pieces of `s` between occurrences of `c`, empty pieces included. */
  function SplitOn(s: string, c: char): (r: seq<string>)
    ensures |r| >= 1
    ensures forall p :: p in r ==> c !in p
    decreases |s|
  {
    var i := FirstIndex(s, c);
    if i < 0 then [s] else [s[..i]] + SplitOn(s[i + 1..], c)
  }

  /** Joining the pieces back gives the original text. */
  lemma {:induction false} JoinSplitOn(s: string, c: char)
    ensures Join(SplitOn(s, c), c) == s
    decreases |s|
  {
    var i := FirstIndex(s, c);
    if i < 0 {
      assert SplitOn(s, c) == [s];
    } else {
      var rest := SplitOn(s[i + 1..], c);
      JoinSplitOn(s[i + 1..], c);
      assert SplitOn(s, c) == [s[..i]] + rest;
      JoinCons(s[..i], rest, c);
      SliceAround(s, i);
    }
  }

  /** A text is the part before a position, the character there and the part after it. */
  lemma SliceAround<T>(s: seq<T>, i: nat)
    requires i < |s|
    ensures s == s[..i] + [s[i]] + s[i + 1..]
  {
  }

  /** Joining a piece in front of further pieces puts one separator between them. */
  lemma JoinCons(p: string, rest: seq<string>, c: char)
    requires rest != []
    ensures Join([p] + rest, c) == p + [c] + Join(rest, c)
  {
    assert ([p] + rest)[1..] == rest;
  }

  /** Splitting undoes joining when no piece contains the separator. */
  lemma {:induction false} SplitOnJoin(ps: seq<string>, c: char)
    requires ps != []
    requires forall p :: p in ps ==> c !in p
    ensures SplitOn(Join(ps, c), c) == ps
  {
    assert ps[0] in ps;
    if |ps| == 1 {
      assert SplitOn(ps[0], c) == [ps[0]];
    } else {
      assert forall p :: p in ps[1..] ==> p in ps;
      SplitOnJoin(ps[1..], c);
      var tail := Join(ps[1..], c);
      assert ps == [ps[0]] + ps[1..];
      JoinCons(ps[0], ps[1..], c);
      var s := ps[0] + [c] + tail;
      var k := |ps[0]|;
      SlicesOfConcat(ps[0], c, tail);
      FirstIndexAt(s, c, k);
      assert SplitOn(s, c) == [ps[0]] + SplitOn(tail, c);
    }
  }

  /** The slices of `a + [x] + b` around position `|a|`. */
  lemma SlicesOfConcat<T>(a: seq<T>, x: T, b: seq<T>)
    ensures var s := a + [x] + b; s[|a|] == x && s[..|a|] == a && s[|a| + 1..] == b
  {
  }

  /** A position holding `x` with no `x` before it is the first index. */
  lemma {:induction false} FirstIndexAt<T>(s: seq<T>, x: T, k: nat)
    requires k < |s| && s[k] == x && x !in s[..k]
    ensures FirstIndex(s, x) == k
  {
    if k > 0 {
      assert s[0] == s[..k][0];
      assert s[1..][..k - 1] == s[1..k];
      assert forall y :: y in s[1..k] ==> y in s[..k];
      FirstIndexAt(s[1..], x, k - 1);
    }
  }

  /** Removes the empty pieces at the end, as `String.split` does. */
  function DropTrailingEmpty(ps: seq<string>): (r: seq<string>)
    ensures r <= ps
    ensures r == [] || r[|r| - 1] != ""
    ensures forall i :: |r| <= i < |ps| ==> ps[i] == ""
  {
    if ps != [] && ps[|ps| - 1] == "" then DropTrailingEmpty(ps[..|ps| - 1]) else ps
  }

  /** `s.split(String.valueOf(c))` for a separator that is not a regular-expression
      meta-character. */
  function JavaSplit(s: string, c: char): seq<string> {
    if s == [] then [""] else DropTrailingEmpty(SplitOn(s, c))
  }

  /** `a.compareTo(b) < 0`. */
  predicate LexLess(a: string, b: string) {
    if a == [] then b != []
    else if b == [] then false
    else if a[0] != b[0] then a[0] < b[0]
    else LexLess(a[1..], b[1..])
  }

  lemma {:induction false} LexLessIrreflexive(a: string)
    ensures !LexLess(a, a)
  {
    if a != [] { LexLessIrreflexive(a[1..]); }
  }

  lemma {:induction false} LexLessTransitive(a: string, b: string, c: string)
    requires LexLess(a, b) && LexLess(b, c)
    ensures LexLess(a, c)
  {
    if a != [] && b != [] && c != [] && a[0] == b[0] && b[0] == c[0] {
      LexLessTransitive(a[1..], b[1..], c[1..]);
    }
  }

  /** `compareTo` is total: two different strings are ordered one way or the other. */
  lemma {:induction false} LexLessTotal(a: string, b: string)
    requires a != b
    ensures LexLess(a, b) != LexLess(b, a)
  {
    if a != [] && b != [] && a[0] == b[0] {
      assert a == [a[0]] + a[1..] && b == [b[0]] + b[1..];
      LexLessTotal(a[1..], b[1..]);
    }
  }

  function LowerChar(c: char): char {
    if 'A' <= c <= 'Z' then (c as int + 32) as char else c
  }

  function UpperChar(c: char): char {
    if 'a' <= c <= 'z' then (c as int - 32) as char else c
  }

  /** `toLowerCase`, on ASCII letters: each capital becomes its small letter, every other
      character is kept, and no capital is left. */
  function AsciiLower(s: string): (r: string)
    ensures |r| == |s|
    ensures forall i :: 0 <= i < |s| ==> r[i] == LowerChar(s[i])
    ensures forall i :: 0 <= i < |s| ==>
              if 'A' <= s[i] <= 'Z' then 'a' <= r[i] <= 'z' && r[i] as int - s[i] as int == 32
              else r[i] == s[i]
    ensures forall i :: 0 <= i < |r| ==> !('A' <= r[i] <= 'Z')
  {
    seq(|s|, i requires 0 <= i < |s| => LowerChar(s[i]))
  }

  /** `toUpperCase`, on ASCII letters: each small letter becomes its capital, every other
      character is kept, and no small letter is left. */
  function AsciiUpper(s: string): (r: string)
    ensures |r| == |s|
    ensures forall i :: 0 <= i < |s| ==> r[i] == UpperChar(s[i])
    ensures forall i :: 0 <= i < |s| ==>
              if 'a' <= s[i] <= 'z' then 'A' <= r[i] <= 'Z' && s[i] as int - r[i] as int == 32
              else r[i] == s[i]
    ensures forall i :: 0 <= i < |r| ==> !('a' <= r[i] <= 'z')
  {
    seq(|s|, i requires 0 <= i < |s| => UpperChar(s[i]))
  }

  /** Lower-casing twice is lower-casing once. */
  lemma AsciiLowerIdempotent(s: string)
    ensures AsciiLower(AsciiLower(s)) == AsciiLower(s)
  {
    var once := AsciiLower(s);
    forall i | 0 <= i < |s|
      ensures AsciiLower(once)[i] == once[i]
    {
      assert !('A' <= once[i] <= 'Z');
    }
  }

  /** Lower-casing forgets case: an upper-cased text lower-cases to the same text. */
  lemma AsciiLowerOfUpper(s: string)
    ensures AsciiLower(AsciiUpper(s)) == AsciiLower(s)
  {
    var up := AsciiUpper(s);
    forall i | 0 <= i < |s|
      ensures AsciiLower(up)[i] == AsciiLower(s)[i]
    {
      assert LowerChar(UpperChar(s[i])) == LowerChar(s[i]);
    }
  }

  /** `compareToIgnoreCase` ignores case: upper-casing either side changes nothing. */
  lemma LexLessIgnoresCase(a: string, b: string)
    ensures LexLessIgnoreCase(AsciiUpper(a), b) == LexLessIgnoreCase(a, b)
    ensures LexLessIgnoreCase(a, AsciiUpper(b)) == LexLessIgnoreCase(a, b)
  {
    AsciiLowerOfUpper(a);
    AsciiLowerOfUpper(b);
  }

  /** `a.compareToIgnoreCase(b) < 0`, with ASCII case folding. */
  predicate LexLessIgnoreCase(a: string, b: string) {
    LexLess(AsciiLower(a), AsciiLower(b))
  }

  /** `s.contains(sub)`, equivalently `s.indexOf(sub) > -1`. */
  predicate Contains(s: string, sub: string)
    decreases |s|
  {
    sub <= s || (s != [] && Contains(s[1..], sub))
  }

  /** Contains holds exactly when `sub` occurs at some position of `s`. */
  lemma {:induction false} ContainsAt(s: string, sub: string)
    ensures Contains(s, sub) <==> exists i :: 0 <= i <= |s| && sub <= s[i..]
    decreases |s|
  {
    assert s[0..] == s;
    if s != [] {
      ContainsAt(s[1..], sub);
      if exists i :: 0 <= i <= |s| && sub <= s[i..] {
        var i :| 0 <= i <= |s| && sub <= s[i..];
        if i > 0 { assert s[1..][i - 1..] == s[i..]; }
      }
      if exists i :: 0 <= i <= |s[1..]| && sub <= s[1..][i..] {
        var i :| 0 <= i <= |s[1..]| && sub <= s[1..][i..];
        assert s[1..][i..] == s[i + 1..];
      }
    }
  }

  predicate EndsWith(s: string, suffix: string) {
    |suffix| <= |s| && s[|s| - |suffix|..] == suffix
  }

  /** Removes the leading characters at or below U+0020. */
  function TrimStart(s: string): (r: string)
    ensures r == [] || r[0] > ' '
    ensures exists i :: 0 <= i <= |s| && r == s[i..]
    ensures forall k :: 0 <= k < |s| - |r| ==> s[k] <= ' '
  {
    if s != [] && s[0] <= ' ' then
      var r := TrimStart(s[1..]);
      assert exists i :: 0 <= i <= |s| - 1 && r == s[1..][i..];
      var i :| 0 <= i <= |s| - 1 && r == s[1..][i..];
      assert r == s[i + 1..];
      assert forall k :: 1 <= k < |s| - |r| ==> s[k] == s[1..][k - 1];
      r
    else
      assert s == s[0..];
      s
  }

  /** Removes the trailing characters at or below U+0020. */
  function TrimEnd(s: string): (r: string)
    ensures r == [] || r[|r| - 1] > ' '
    ensures r <= s
    ensures forall k :: |r| <= k < |s| ==> s[k] <= ' '
  {
    if s != [] && s[|s| - 1] <= ' ' then
      var r := TrimEnd(s[..|s| - 1]);
      assert forall k :: |r| <= k < |s| - 1 ==> s[k] == s[..|s| - 1][k];
      r
    else s
  }

  /** Every character of `s` before `i` and from `j` on is at or below U+0020. */
  predicate BlankOutside(s: string, i: int, j: int)
    requires 0 <= i <= j <= |s|
  {
    && (forall k :: 0 <= k < i ==> s[k] <= ' ')
    && (forall k :: j <= k < |s| ==> s[k] <= ' ')
  }

  /** Trimming the end of a suffix of `s` leaves a slice of `s` with blanks outside it. */
  lemma TrimmedSlice(s: string, i: nat, t: string, r: string)
    requires i <= |s| && t == s[i..] && r <= t
    requires forall k :: 0 <= k < i ==> s[k] <= ' '
    requires forall k :: |r| <= k < |t| ==> t[k] <= ' '
    ensures r == s[i..i + |r|] && BlankOutside(s, i, i + |r|)
  {
    forall k | i + |r| <= k < |s|
      ensures s[k] <= ' '
    {
      assert s[k] == t[k - i];
    }
  }

  /** `trim()`: strips every character at or below U+0020 from both ends. */
  function Trim(s: string): (r: string)
    ensures r == [] || (r[0] > ' ' && r[|r| - 1] > ' ')
    ensures exists i, j :: 0 <= i <= j <= |s| && r == s[i..j] && BlankOutside(s, i, j)
  {
    var t := TrimStart(s);
    var r := TrimEnd(t);
    var i := |s| - |t|;
    assert t == s[i..] by {
      var i' :| 0 <= i' <= |s| && t == s[i'..];
    }
    TrimmedSlice(s, i, t, r);
    r
  }

  /** `s.replaceAll("\n", sep)` for a separator free of '$' and '\' (the platform line separator). */
  function ReplaceNewlines(s: string, sep: string): (r: string)
    ensures '\n' !in s ==> r == s
    ensures '\n' !in sep ==> '\n' !in r
  {
    if s == [] then []
    else (if s[0] == '\n' then sep else [s[0]]) + ReplaceNewlines(s[1..], sep)
  }

  /** Each newline becomes the separator. */
  lemma ReplaceNewlinesNewline(sep: string)
    ensures ReplaceNewlines("\n", sep) == sep
  {
    assert "\n"[1..] == [];
  }

  /** The replacement works piecewise: the text is rewritten one character at a time. */
  lemma {:induction false} ReplaceNewlinesConcat(a: string, b: string, sep: string)
    ensures ReplaceNewlines(a + b, sep) == ReplaceNewlines(a, sep) + ReplaceNewlines(b, sep)
    decreases |a|
  {
    if a == [] {
      assert a + b == b;
    } else {
      assert (a + b)[0] == a[0] && (a + b)[1..] == a[1..] + b;
      ReplaceNewlinesConcat(a[1..], b, sep);
    }
  }
}
