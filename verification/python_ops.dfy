/**
 * The Python and numpy behaviour the core relies on, stated once: the exceptions it can raise,
 * `int()` of a float, `divmod` on floats, sequence indexing with negative indices, slicing,
 * `str.split()` and `str.startswith`.
 */
module Outcomes {

  datatype Option<T> = None | Some(value: T)

  /** The exceptions that end a run of the core. */
  datatype Fault =
    | ZeroDivisionError   // a float divided by 0.0
    | IndexError          // a sequence index outside [-len, len)
    | ValueError          // float() of a malformed field, numpy shapes that do not broadcast,
                          // numpy.empty of a negative length

  datatype Result<T> = Ok(value: T) | Err(fault: Fault)
}

module PythonOps {
  import opened Outcomes

  /** `int(x)` on a float: truncation toward zero. */
  function Trunc(x: real): (n: int)
    ensures 0.0 <= x ==> n as real <= x < n as real + 1.0
    ensures x < 0.0 ==> n as real - 1.0 < x <= n as real
  {
    if x >= 0.0 then x.Floor else -((-x).Floor)
  }

  predicate Integral(x: real) {
    x.Floor as real == x
  }

  lemma IntegralOfInt(n: int)
    ensures Integral(n as real)
  {
  }

  /** `divmod(x, y)` on floats with a positive divisor: floored quotient and a remainder in [0, y). */
  function DivMod(x: real, y: real): (qr: (real, real))
    requires 0.0 < y
    ensures Integral(qr.0)
    ensures qr.0 * y + qr.1 == x
    ensures 0.0 <= qr.1 < y
    ensures 0.0 <= x ==> 0.0 <= qr.0
  {
    var f := x / y;
    var q := f.Floor as real;
    Between(f, q, y, x);
    (q, x - q * y)
  }

  lemma Between(f: real, n: real, y: real, x: real)
    requires 0.0 <= f - n < 1.0 && 0.0 < y && f * y == x
    ensures n * y <= x < n * y + y
  {
    var a := f - n;
    assert a * y >= 0.0;
    assert (1.0 - a) * y > 0.0;
    assert (1.0 - a) * y == y - a * y;
    assert a * y == f * y - n * y;
    assert a * y < y;
    assert x - n * y == a * y;
  }

  /** `s[k]` for a Python sequence: negative indices count from the end. */
  function Index<T>(s: seq<T>, k: int): (r: Result<T>)
    ensures r.Ok? <==> -|s| <= k < |s|
    ensures 0 <= k < |s| ==> r == Ok(s[k])
    ensures -|s| <= k < 0 ==> r == Ok(s[|s| + k])
  {
    if 0 <= k < |s| then Ok(s[k])
    else if -|s| <= k < 0 then Ok(s[|s| + k])
    else Err(IndexError)
  }

  /** The whitespace that `str.split()` separates on (Python's `str.isspace`). */
  predicate IsSpace(c: char) {
    || ('\t' <= c <= '\r')
    || ('\U{1C}' <= c <= '\U{1F}')
    || c == ' ' || c == '\U{85}' || c == '\U{A0}' || c == '\U{1680}'
    || ('\U{2000}' <= c <= '\U{200A}')
    || c == '\U{2028}' || c == '\U{2029}' || c == '\U{202F}' || c == '\U{205F}' || c == '\U{3000}'
  }

  predicate NoSpace(w: string) {
    forall i :: 0 <= i < |w| ==> !IsSpace(w[i])
  }

  /** The length of the longest prefix of `s` without whitespace. */
  function WordLength(s: string): (n: nat)
    ensures n <= |s|
    ensures NoSpace(s[..n])
    ensures n < |s| ==> IsSpace(s[n])
  {
    if s == [] || IsSpace(s[0]) then 0
    else
      var n := 1 + WordLength(s[1..]);
      assert s[..n] == [s[0]] + s[1..][..n - 1];
      n
  }

  /** `s.split()`: the maximal runs of non-whitespace characters, in order (see SplitGaps). */
  function Split(s: string): (words: seq<string>)
    ensures forall i :: 0 <= i < |words| ==> words[i] != [] && NoSpace(words[i])
    decreases |s|
  {
    if s == [] then []
    else if IsSpace(s[0]) then Split(s[1..])
    else
      var n := WordLength(s);
      [s[..n]] + Split(s[n..])
  }

  /** The characters of `s` that are not whitespace, in order. */
  function Text(s: string): string {
    if s == [] then []
    else if IsSpace(s[0]) then Text(s[1..])
    else [s[0]] + Text(s[1..])
  }

  function Flatten(words: seq<string>): string {
    if words == [] then [] else words[0] + Flatten(words[1..])
  }

  lemma {:induction false} TextOfAppend(a: string, b: string)
    ensures Text(a + b) == Text(a) + Text(b)
  {
    if a != [] {
      assert (a + b)[1..] == a[1..] + b;
      TextOfAppend(a[1..], b);
    } else {
      assert a + b == b;
    }
  }

  lemma {:induction false} TextOfWord(w: string)
    requires NoSpace(w)
    ensures Text(w) == w
  {
    if w != [] {
      TextOfWord(w[1..]);
    }
  }

  /** Splitting loses no character but whitespace and keeps the order of the rest. */
  lemma {:induction false} SplitKeepsText(s: string)
    ensures Flatten(Split(s)) == Text(s)
    decreases |s|
  {
    if s == [] {
    } else if IsSpace(s[0]) {
      SplitKeepsText(s[1..]);
    } else {
      var n := WordLength(s);
      SplitKeepsText(s[n..]);
      assert s == s[..n] + s[n..];
      TextOfAppend(s[..n], s[n..]);
      TextOfWord(s[..n]);
      assert Split(s)[1..] == Split(s[n..]);
    }
  }

  /** Nothing but whitespace. */
  predicate Blank(x: string) {
    forall i :: 0 <= i < |x| ==> IsSpace(x[i])
  }

  /** The whitespace runs of `s` around its words: before the first word, between two words, and
      after the last. */
  function Gaps(s: string): (g: seq<string>)
    ensures 1 <= |g|
    decreases |s|
  {
    if s == [] then [[]]
    else if IsSpace(s[0]) then
      var rest := Gaps(s[1..]);
      [[s[0]] + rest[0]] + rest[1..]
    else
      [[]] + Gaps(s[WordLength(s)..])
  }

  /** `gaps[0] + words[0] + gaps[1] + ... + words[n-1] + gaps[n]`. */
  function Weave(gaps: seq<string>, words: seq<string>): string
    requires |gaps| == |words| + 1
    decreases |words|
  {
    if words == [] then gaps[0] else gaps[0] + words[0] + Weave(gaps[1..], words[1..])
  }

  lemma WeavePrepend(x: string, gaps: seq<string>, words: seq<string>)
    requires |gaps| == |words| + 1
    ensures Weave([x + gaps[0]] + gaps[1..], words) == x + Weave(gaps, words)
  {
    var gaps' := [x + gaps[0]] + gaps[1..];
    assert gaps'[1..] == gaps[1..];
  }

  /** `s` is its words woven with whitespace gaps, every gap between two words non-empty. */
  predicate Decomposed(s: string, g: seq<string>, w: seq<string>) {
    && |g| == |w| + 1
    && (forall i :: 0 <= i < |g| ==> Blank(g[i]))
    && (forall i :: 0 < i < |g| - 1 ==> g[i] != [])
    && s == Weave(g, w)
  }

  /** The words of `split()` are the maximal runs of non-whitespace: `s` is its words with
      whitespace gaps between them, every gap between two words non-empty. Since no word holds
      whitespace, no word could be cut or joined to its neighbour. */
  lemma {:induction false} SplitGaps(s: string)
    ensures Decomposed(s, Gaps(s), Split(s))
    decreases |s|
  {
    if s == [] {
    } else if IsSpace(s[0]) {
      SplitGaps(s[1..]);
      LeadingSpace(s);
    } else {
      SplitGaps(s[WordLength(s)..]);
      LeadingWord(s);
    }
  }

  lemma LeadingSpace(s: string)
    requires s != [] && IsSpace(s[0])
    requires Decomposed(s[1..], Gaps(s[1..]), Split(s[1..]))
    ensures Decomposed(s, Gaps(s), Split(s))
  {
    var rest := Gaps(s[1..]);
    assert Gaps(s) == [[s[0]] + rest[0]] + rest[1..];
    assert Split(s) == Split(s[1..]);
    SpaceInFront(s[0], s[1..], rest, Split(s[1..]));
    assert s == [s[0]] + s[1..];
  }

  /** A whitespace character in front of a decomposed remainder joins its first gap. */
  lemma SpaceInFront(c: char, t: string, rest: seq<string>, words: seq<string>)
    requires IsSpace(c) && Decomposed(t, rest, words)
    ensures Decomposed([c] + t, [[c] + rest[0]] + rest[1..], words)
  {
    var g := [[c] + rest[0]] + rest[1..];
    forall i | 0 <= i < |g|
      ensures Blank(g[i])
    {
      if i == 0 {
        assert Blank(rest[0]);
      } else {
        assert g[i] == rest[i];
      }
    }
    forall i | 0 < i < |g| - 1
      ensures g[i] != []
    {
      assert g[i] == rest[i];
    }
    WeavePrepend([c], rest, words);
  }

  lemma LeadingWord(s: string)
    requires s != [] && !IsSpace(s[0])
    requires Decomposed(s[WordLength(s)..], Gaps(s[WordLength(s)..]), Split(s[WordLength(s)..]))
    ensures Decomposed(s, Gaps(s), Split(s))
  {
    var n := WordLength(s);
    var rest, tail := Gaps(s[n..]), Split(s[n..]);
    assert Gaps(s) == [[]] + rest;
    assert Split(s) == [s[..n]] + tail;
    if tail != [] {
      assert s[n..] != [] && IsSpace(s[n..][0]);
    }
    WordInFront(s[..n], s[n..], rest, tail);
    assert s == s[..n] + s[n..];
  }

  /** A word in front of a decomposed remainder that is empty or starts with a non-empty gap. */
  lemma WordInFront(word: string, t: string, rest: seq<string>, tail: seq<string>)
    requires Decomposed(t, rest, tail)
    requires tail != [] ==> rest[0] != []
    ensures Decomposed(word + t, [[]] + rest, [word] + tail)
  {
    var g, w := [[]] + rest, [word] + tail;
    assert g[1..] == rest && w[1..] == tail;
    forall i | 0 < i < |g| - 1
      ensures g[i] != []
    {
      assert g[i] == rest[i - 1];
    }
    forall i | 0 <= i < |g|
      ensures Blank(g[i])
    {
      if i > 0 {
        assert g[i] == rest[i - 1];
      }
    }
    assert Weave(g, w) == [] + word + Weave(rest, tail);
  }

  predicate StartsWith(s: string, prefix: string) {
    prefix <= s
  }
}
