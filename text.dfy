/** Helpers that give Python's `str` and slice operations a meaning in Dafny.
    Every other module of the model imports this one. */
module Text {

  /** Python's `str.isspace` on one character: the code points CPython treats
      as whitespace, which is what `str.strip()` removes. */
  predicate IsSpace(c: char) {
    c == ' ' || '\t' <= c <= '\r' || '\U{1C}' <= c <= '\U{1F}' || c == '\U{85}' || c == '\U{A0}'
    || c == '\U{1680}' || '\U{2000}' <= c <= '\U{200A}' || c == '\U{2028}' || c == '\U{2029}'
    || c == '\U{202F}' || c == '\U{205F}' || c == '\U{3000}'
  }

  /** Python's `str.lower` on one character, for the Basic Latin and Latin-1 letters. */
  function LowerChar(c: char): char {
    if 'A' <= c <= 'Z' || ('\U{C0}' <= c <= '\U{DE}' && c != '\U{D7}') then (c as int + 32) as char else c
  }

  /** Python's `str.upper` on one character, for the Basic Latin letters. */
  function UpperChar(c: char): char {
    if 'a' <= c <= 'z' then (c as int - 32) as char else c
  }

  function Lower(s: string): (r: string)
    ensures |r| == |s|
  {
    seq(|s|, i requires 0 <= i < |s| => LowerChar(s[i]))
  }

  function Upper(s: string): (r: string)
    ensures |r| == |s|
  {
    seq(|s|, i requires 0 <= i < |s| => UpperChar(s[i]))
  }

  /** Python's `str.lstrip()`. */
  function StripStart(s: string): (r: string)
    ensures |r| <= |s|
  {
    if s != [] && IsSpace(s[0]) then StripStart(s[1..]) else s
  }

  /** `lstrip` removes exactly the leading run of whitespace: what it returns
      is a suffix of `s` that does not start with whitespace. */
  lemma {:induction false} StripStartRule(s: string)
    ensures var r := StripStart(s);
      && r == s[|s| - |r|..]
      && (r == [] || !IsSpace(r[0]))
      && forall i :: 0 <= i < |s| - |r| ==> IsSpace(s[i])
  {
    if s != [] && IsSpace(s[0]) {
      StripStartRule(s[1..]);
    }
  }

  /** Python's `str.rstrip()`. */
  function StripEnd(s: string): (r: string)
    ensures |r| <= |s|
  {
    if s != [] && IsSpace(s[|s| - 1]) then StripEnd(s[..|s| - 1]) else s
  }

  /** `rstrip` removes exactly the trailing run of whitespace: what it returns
      is a prefix of `s` that does not end with whitespace. */
  lemma {:induction false} StripEndRule(s: string)
    ensures var r := StripEnd(s);
      && r == s[..|r|]
      && (r == [] || !IsSpace(r[|r| - 1]))
      && forall i :: |r| <= i < |s| ==> IsSpace(s[i])
  {
    if s != [] && IsSpace(s[|s| - 1]) {
      StripEndRule(s[..|s| - 1]);
    }
  }

  /** Python's `str.strip()`. */
  function Strip(s: string): (r: string)
    ensures |r| <= |s|
  {
    StripEnd(StripStart(s))
  }

  /** Stripping removes exactly a whitespace frame around text that starts
      and ends with a non-space character. */
  lemma StripFramed(pre: string, x: string, post: string)
    requires forall i :: 0 <= i < |pre| ==> IsSpace(pre[i])
    requires forall i :: 0 <= i < |post| ==> IsSpace(post[i])
    requires x != [] && !IsSpace(x[0]) && !IsSpace(x[|x| - 1])
    ensures Strip(pre + x + post) == x
  {
    var s := pre + x + post;
    assert s[|pre|] == x[0];
    StripStartRule(s);
    var a := StripStart(s);
    assert a == x + post;
    assert a[|x| - 1] == x[|x| - 1];
    StripEndRule(a);
  }

  /** Stripping keeps a contiguous piece of the string: the one starting at
      the returned position. */
  lemma StripInside(s: string) returns (i: nat)
    ensures i + |Strip(s)| <= |s| && s[i..i + |Strip(s)|] == Strip(s)
  {
    var a := StripStart(s);
    StripStartRule(s);
    StripEndRule(a);
    i := |s| - |a|;
    assert s[i..i + |Strip(s)|] == a[..|Strip(s)|];
  }

  /** Stripping a slice of `s` leaves a piece of `s` itself. */
  lemma StripSlice(s: string, lo: nat, hi: nat) returns (at: nat)
    requires lo <= hi <= |s|
    ensures OccursAt(s, Strip(s[lo..hi]), at)
  {
    var w := s[lo..hi];
    var r := Strip(w);
    var i := StripInside(w);
    at := lo + i;
    forall k | 0 <= k < |r| ensures s[at + k] == r[k] {
      assert r[k] == w[i..i + |r|][k] == w[i + k];
    }
  }

  /** A string with a non-space character does not strip to nothing. */
  lemma StripNonEmpty(s: string, i: nat)
    requires i < |s| && !IsSpace(s[i])
    ensures Strip(s) != ""
  {
    StripStartRule(s);
    StripEndRule(StripStart(s));
  }

  /** Python's `t in s` on strings: `t` occurs in `s` as a contiguous substring. */
  predicate Contains(s: string, t: string) {
    exists i | 0 <= i <= |s| - |t| :: OccursAt(s, t, i)
  }

  predicate OccursAt(s: string, t: string, i: int) {
    0 <= i <= |s| - |t| && s[i..i + |t|] == t
  }

  lemma ContainsConcat(a: string, b: string, t: string)
    ensures Contains(a, t) ==> Contains(a + b, t)
    ensures Contains(b, t) ==> Contains(a + b, t)
  {
    if Contains(a, t) {
      var i :| 0 <= i <= |a| - |t| && OccursAt(a, t, i);
      assert OccursAt(a + b, t, i) by { assert (a + b)[i..i + |t|] == a[i..i + |t|]; }
    }
    if Contains(b, t) {
      var i :| 0 <= i <= |b| - |t| && OccursAt(b, t, i);
      var j := |a| + i;
      assert (a + b)[j..j + |t|] == b[i..i + |t|];
      assert OccursAt(a + b, t, j);
    }
  }

  /** A string that lacks one of the characters of `t` cannot contain `t`. */
  lemma MissingCharNotContains(s: string, t: string, c: char)
    requires c in t && c !in s
    ensures !Contains(s, t)
  {
    var k :| 0 <= k < |t| && t[k] == c;
    forall i ensures !OccursAt(s, t, i) {
      if 0 <= i <= |s| - |t| {
        assert s[i..i + |t|][k] == s[i + k] != c;
      }
    }
  }

  /** Python's `sep.join(parts)`. */
  function Join(sep: string, parts: seq<string>): string
  {
    if |parts| == 0 then ""
    else if |parts| == 1 then parts[0]
    else parts[0] + sep + Join(sep, parts[1..])
  }

  lemma {:induction false} JoinContains(sep: string, parts: seq<string>, k: nat, t: string)
    requires k < |parts| && Contains(parts[k], t)
    ensures Contains(Join(sep, parts), t)
  {
    if |parts| > 1 {
      if k == 0 {
        ContainsConcat(parts[0], sep + Join(sep, parts[1..]), t);
        assert parts[0] + sep + Join(sep, parts[1..]) == parts[0] + (sep + Join(sep, parts[1..]));
      } else {
        JoinContains(sep, parts[1..], k - 1, t);
        ContainsConcat(parts[0] + sep, Join(sep, parts[1..]), t);
      }
    }
  }

  lemma {:induction false} JoinAvoids(sep: string, parts: seq<string>, c: char)
    requires c !in sep
    requires forall k :: 0 <= k < |parts| ==> c !in parts[k]
    ensures c !in Join(sep, parts)
  {
    if |parts| > 1 {
      JoinAvoids(sep, parts[1..], c);
    }
  }

  /** Python's `s.split(c)` for a one-character separator: the pieces between
      the occurrences of `c`, always at least one, and joining them back with
      `c` gives `s` again. */
  function Split(s: string, c: char): (r: seq<string>)
    ensures |r| >= 1
    ensures forall k :: 0 <= k < |r| ==> c !in r[k]
    ensures Join([c], r) == s
  {
    if s == [] then [""]
    else
      var rest := Split(s[1..], c);
      if s[0] == c then
        [""] + rest
      else
        JoinGlue([s[0]], rest[0], rest[1..], [c]);
        [[s[0]] + rest[0]] + rest[1..]
  }

  lemma JoinGlue(a: string, x: string, xs: seq<string>, sep: string)
    ensures Join(sep, [a + x] + xs) == a + Join(sep, [x] + xs)
  {
    if |xs| > 0 {
      assert ([a + x] + xs)[1..] == xs;
      assert ([x] + xs)[1..] == xs;
    }
  }

  /** Python's normalisation of a slice bound `i` on a sequence of length `n`. */
  function PyIndex(i: int, n: nat): (r: nat)
    ensures r <= n
  {
    if i < 0 then (if i + n < 0 then 0 else i + n) else if i > n then n else i
  }

  /** Python's `s[i:j]`. */
  function PySlice<T>(s: seq<T>, i: int, j: int): (r: seq<T>)
    ensures |r| <= |s|
  {
    var a, b := PyIndex(i, |s|), PyIndex(j, |s|);
    if a <= b then s[a..b] else []
  }

  /** Python's `s[:j]`. */
  function PyTake<T>(s: seq<T>, j: int): (r: seq<T>)
    ensures |r| <= |s|
    ensures j >= 0 ==> r == s[..if j <= |s| then j else |s|]
  {
    PySlice(s, 0, j)
  }

  /** Python's `s[-k:]`. */
  function PyTakeLast<T>(s: seq<T>, k: int): (r: seq<T>)
    ensures |r| <= |s|
  {
    PySlice(s, -k, |s|)
  }

  /** Python's `str(n)` for a non-negative integer. */
  function NatToString(n: nat): (r: string)
    ensures |r| >= 1
    ensures forall i :: 0 <= i < |r| ==> '0' <= r[i] <= '9'
  {
    if n < 10 then [('0' as int + n) as char] else NatToString(n / 10) + [('0' as int + n % 10) as char]
  }

  predicate IsLowerHex(c: char) {
    '0' <= c <= '9' || 'a' <= c <= 'f'
  }

  predicate IsUpperHex(c: char) {
    '0' <= c <= '9' || 'A' <= c <= 'F'
  }
}
