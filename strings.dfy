/** The Python `str` operations the gateway's text handling uses:
    `startswith`, `find`/`in`, `split(sep)`, `strip`, `lower`. */
module Strings {

  predicate StartsWith(s: string, p: string) {
    |p| <= |s| && s[..|p|] == p
  }

  predicate EndsWith(s: string, p: string) {
    |p| <= |s| && s[|s| - |p|..] == p
  }

  /** `t` occurs in `s` at index `i`. */
  predicate OccursAt(s: string, t: string, i: int) {
    0 <= i && i + |t| <= |s| && s[i..i + |t|] == t
  }

  /** `s.find(t)`: the index of the first occurrence of `t` in `s`, or -1. */
  function Find(s: string, t: string): (k: int)
    ensures k == -1 || OccursAt(s, t, k)
    ensures forall i :: 0 <= i && (k == -1 || i < k) ==> !OccursAt(s, t, i)
    decreases |s|
  {
    if |s| < |t| then -1
    else if s[..|t|] == t then 0
    else
      var k := Find(s[1..], t);
      forall i | 1 <= i
        ensures OccursAt(s, t, i) <==> OccursAt(s[1..], t, i - 1)
      {
        if i + |t| <= |s| {
          var a, b := s[i..i + |t|], s[1..][i - 1..i - 1 + |t|];
          assert |a| == |b| && forall j :: 0 <= j < |a| ==> a[j] == b[j];
        }
      }
      if k == -1 then -1 else k + 1
  }

  /** `t in s` for strings. */
  predicate Contains(s: string, t: string) {
    Find(s, t) != -1
  }

  /** `s.find(c)` for a single character. */
  function IndexOf(s: string, c: char): (k: int)
    ensures k == -1 || (0 <= k < |s| && s[k] == c)
    ensures forall i :: 0 <= i < |s| && (k == -1 || i < k) ==> s[i] != c
    decreases |s|
  {
    if s == [] then -1
    else if s[0] == c then 0
    else
      var k := IndexOf(s[1..], c);
      if k == -1 then -1 else k + 1
  }

  /** `s.split(c)`: the pieces between occurrences of `c`; never empty. */
  function Split(s: string, c: char): (r: seq<string>)
    ensures |r| >= 1
    ensures forall i :: 0 <= i < |r| ==> c !in r[i]
    decreases |s|
  {
    if s == [] then [""]
    else
      var rest := Split(s[1..], c);
      if s[0] == c then [""] + rest
      else [[s[0]] + rest[0]] + rest[1..]
  }

  /** `c.join(pieces)` */
  function Join(pieces: seq<string>, c: char): string {
    if pieces == [] then ""
    else if |pieces| == 1 then pieces[0]
    else pieces[0] + [c] + Join(pieces[1..], c)
  }

  /** Splitting loses nothing: joining the pieces gives the string back. */
  lemma {:induction false} SplitJoin(s: string, c: char)
    ensures Join(Split(s, c), c) == s
    decreases |s|
  {
    if s != [] {
      SplitJoin(s[1..], c);
      var rest := Split(s[1..], c);
      if s[0] == c {
        assert s == [c] + s[1..];
      } else if |rest| == 1 {
        assert s == [s[0]] + s[1..];
      } else {
        assert Join(rest, c) == rest[0] + [c] + Join(rest[1..], c);
        assert [[s[0]] + rest[0]] + rest[1..] == [[s[0]] + rest[0]] + ([rest[1]] + rest[2..]);
        assert s == [s[0]] + s[1..];
      }
    }
  }

  /** A string without the separator is one piece. */
  lemma {:induction false} SplitNoSeparator(s: string, c: char)
    requires c !in s
    ensures Split(s, c) == [s]
    decreases |s|
  {
    if s != [] {
      SplitNoSeparator(s[1..], c);
      assert [s[0]] + s[1..] == s;
    }
  }

  /** The first piece is the text before the first separator. */
  lemma {:induction false} SplitLine(x: string, rest: string, c: char)
    requires c !in x
    ensures Split(x + [c] + rest, c) == [x] + Split(rest, c)
    decreases |x|
  {
    var s := x + [c] + rest;
    if x == [] {
      assert s[1..] == rest;
    } else {
      SplitLine(x[1..], rest, c);
      assert s[1..] == x[1..] + [c] + rest;
      assert [x[0]] + x[1..] == x;
    }
  }

  /** Text without the separator in front of a string joins its first piece. */
  lemma {:induction false} SplitFirstJoint(u: string, rest: string, c: char)
    requires c !in u
    ensures Split(u + rest, c)[0] == u + Split(rest, c)[0]
    decreases |u|
  {
    if u != [] {
      var s := u + rest;
      assert s[0] == u[0] && u[0] != c && s[1..] == u[1..] + rest;
      SplitFirstJoint(u[1..], rest, c);
      var r := Split(s[1..], c);
      assert Split(s, c)[0] == [u[0]] + r[0];
      assert [u[0]] + (u[1..] + Split(rest, c)[0]) == u + Split(rest, c)[0];
    } else {
      assert u + rest == rest && u + Split(rest, c)[0] == Split(rest, c)[0];
    }
  }

  /** Each line followed by the separator. */
  function Terminated(lines: seq<string>, c: char): string {
    if lines == [] then "" else lines[0] + [c] + Terminated(lines[1..], c)
  }

  /** Splitting separator-terminated lines gives the lines back. */
  lemma {:induction false} SplitTerminated(lines: seq<string>, rest: string, c: char)
    requires forall i :: 0 <= i < |lines| ==> c !in lines[i]
    ensures Split(Terminated(lines, c) + rest, c) == lines + Split(rest, c)
    decreases |lines|
  {
    if lines == [] {
      assert Terminated(lines, c) + rest == rest;
    } else {
      var tail := Terminated(lines[1..], c) + rest;
      SplitTerminated(lines[1..], rest, c);
      TerminatedFirst(lines, rest, c);
      SplitLine(lines[0], tail, c);
      ConsAssoc(lines, Split(rest, c));
    }
  }

  lemma ConcatAssoc<T>(a: seq<T>, b: seq<T>, c: seq<T>)
    ensures (a + b) + c == a + (b + c)
  {
  }

  /** The two sides of a separator. */
  lemma JointParts(a: string, c: char, b: string)
    ensures (a + [c] + b)[..|a|] == a && (a + [c] + b)[|a| + 1..] == b
  {
  }

  lemma ConsAssoc<T>(a: seq<T>, b: seq<T>)
    requires a != []
    ensures [a[0]] + (a[1..] + b) == a + b
  {
    assert a == [a[0]] + a[1..];
  }

  lemma TerminatedFirst(lines: seq<string>, rest: string, c: char)
    requires lines != []
    ensures Terminated(lines, c) + rest == lines[0] + [c] + (Terminated(lines[1..], c) + rest)
  {
  }

  lemma StartsWithAppend(a: string, b: string)
    ensures StartsWith(a + b, a)
  {
    assert (a + b)[..|a|] == a;
  }

  /** A text that starts with `head` starts with every prefix of `head`. */
  lemma StartsWithPrefix(head: string, rest: string, kw: string)
    requires StartsWith(head, kw)
    ensures StartsWith(head + rest, head) && StartsWith(head + rest, kw)
  {
    StartsWithAppend(head, rest);
    assert (head + rest)[..|kw|] == head[..|kw|];
  }

  /** The first separator after a separator-free prefix is found right after it. */
  lemma IndexOfJoint(a: string, b: string, c: char)
    requires c !in a
    ensures IndexOf(a + [c] + b, c) == |a|
  {
    var s := a + [c] + b;
    assert s[|a|] == c;
    assert forall i :: 0 <= i < |a| ==> s[i] == a[i];
  }

  /** `s.lstrip(chars)`, with the stripped characters given as a predicate. */
  function TrimStart(s: string, drop: char -> bool): (r: string)
    ensures |r| <= |s| && r == s[|s| - |r|..]
    ensures r != [] ==> !drop(r[0])
    decreases |s|
  {
    if s != [] && drop(s[0]) then TrimStart(s[1..], drop) else s
  }

  /** `s.rstrip(chars)` */
  function TrimEnd(s: string, drop: char -> bool): (r: string)
    ensures |r| <= |s| && r == s[..|r|]
    ensures r != [] ==> !drop(r[|r| - 1])
    decreases |s|
  {
    if s != [] && drop(s[|s| - 1]) then TrimEnd(s[..|s| - 1], drop) else s
  }

  /** Everything `TrimStart` removes is a stripped character. */
  lemma {:induction false} TrimStartDropped(s: string, drop: char -> bool)
    ensures forall i :: 0 <= i < |s| - |TrimStart(s, drop)| ==> drop(s[i])
    decreases |s|
  {
    if s != [] && drop(s[0]) {
      TrimStartDropped(s[1..], drop);
      assert forall i :: 1 <= i < |s| ==> s[i] == s[1..][i - 1];
    }
  }

  /** Everything `TrimEnd` removes is a stripped character. */
  lemma {:induction false} TrimEndDropped(s: string, drop: char -> bool)
    ensures forall i :: |TrimEnd(s, drop)| <= i < |s| ==> drop(s[i])
    decreases |s|
  {
    if s != [] && drop(s[|s| - 1]) {
      TrimEndDropped(s[..|s| - 1], drop);
      assert forall i :: 0 <= i < |s| - 1 ==> s[i] == s[..|s| - 1][i];
    }
  }

  /** `s.strip(chars)` */
  function Strip(s: string, drop: char -> bool): (r: string)
    ensures |r| <= |s|
    ensures r != [] ==> !drop(r[0]) && !drop(r[|r| - 1])
  {
    TrimEnd(TrimStart(s, drop), drop)
  }

  /** Stripping leaves a string alone whose ends are not stripped characters. */
  lemma StripUntouched(s: string, drop: char -> bool)
    requires s != [] ==> !drop(s[0]) && !drop(s[|s| - 1])
    ensures Strip(s, drop) == s
  {
    var a := TrimStart(s, drop);
    assert a == s;
    var b := TrimEnd(a, drop);
    assert b == a;
  }

  /** A leading stripped character makes no difference to `strip`. */
  lemma StripLeadingStripped(c: char, q: string, drop: char -> bool)
    requires drop(c)
    requires q != [] ==> !drop(q[0]) && !drop(q[|q| - 1])
    ensures Strip([c] + q, drop) == q
  {
    assert ([c] + q)[1..] == q;
    assert TrimStart([c] + q, drop) == TrimStart(q, drop);
    StripUntouched(q, drop);
  }

  /** The characters Python's `str.isspace` accepts, which `str.strip()` removes. */
  predicate IsSpace(ch: char) {
    ch == ' ' || ('\t' <= ch <= '\r') || ('\U{1C}' <= ch <= '\U{1F}')
    || ch == '\U{85}' || ch == '\U{A0}' || ch == '\U{1680}'
    || ('\U{2000}' <= ch <= '\U{200A}') || ch == '\U{2028}' || ch == '\U{2029}'
    || ch == '\U{202F}' || ch == '\U{205F}' || ch == '\U{3000}'
  }

  predicate IsQuote(ch: char) {
    ch == '"'
  }

  /** Lower-casing of one character (ASCII letters only). */
  function LowerChar(ch: char): char {
    if 'A' <= ch <= 'Z' then (ch as int + 32) as char else ch
  }

  /** `s.lower()`, restricted to ASCII letters. */
  function Lower(s: string): (r: string)
    ensures |r| == |s|
    ensures forall i :: 0 <= i < |r| ==> !('A' <= r[i] <= 'Z')
    ensures forall i :: 0 <= i < |s| && !('A' <= s[i] <= 'Z') ==> r[i] == s[i]
    ensures forall i :: 0 <= i < |s| && 'A' <= s[i] <= 'Z' ==> r[i] as int == s[i] as int + 32
  {
    seq(|s|, i requires 0 <= i < |s| => LowerChar(s[i]))
  }

}
