/** The few Python string built-ins the core relies on: substring test (`in`),
    slicing to a prefix (`s[:n]`), ASCII lower-casing (`str.lower`), and
    `str.split('\n')` / `'\n'.join(...)`. */
module Strings {

  /** Python's `sub in s` for strings: `sub` occurs somewhere in `s`. */
  predicate Contains(s: string, sub: string)
    ensures Contains(s, sub) ==> |sub| <= |s|
    ensures sub <= s ==> Contains(s, sub)
  {
    assert sub <= s ==> sub <= s[0..];
    exists i :: 0 <= i <= |s| && sub <= s[i..]
  }

  /** An occurrence stays an occurrence when text is put in front. */
  lemma ContainsAfter(p: string, t: string, sub: string)
    requires Contains(t, sub)
    ensures Contains(p + t, sub)
  {
    var i :| 0 <= i <= |t| && sub <= t[i..];
    assert (p + t)[|p| + i..] == t[i..];
  }

  /** Any string occurs in a string that is built around it. */
  lemma ContainsMiddle(a: string, b: string, c: string)
    ensures Contains(a + b + c, b)
  {
    var s := a + b + c;
    assert b <= s[|a|..] by {
      assert s[|a|..] == b + c;
    }
  }

  /** A string cannot occur in a line that lacks one of its characters. */
  lemma AbsentCharExcludes(s: string, sub: string, c: char)
    requires c in sub && c !in s
    ensures !Contains(s, sub)
  {
  }

  /** Python's `s[:n]`: the first at most `n` characters of `s`. */
  function Truncate(s: string, n: nat): (r: string)
    ensures r <= s
    ensures |r| == if |s| <= n then |s| else n
  {
    if |s| <= n then s else s[..n]
  }

  /** `str.lower` on the ASCII letters; every other character is kept. */
  function LowerChar(c: char): (r: char)
    ensures !('A' <= r <= 'Z')
    ensures 'A' <= c <= 'Z' ==> 'a' <= r <= 'z' && r as int - c as int == 'a' as int - 'A' as int
    ensures !('A' <= c <= 'Z') ==> r == c
  {
    if 'A' <= c <= 'Z' then (c as int - 'A' as int + 'a' as int) as char else c
  }

  /** The result has the same length, no upper-case ASCII letter, and every
      character of `s` that is not one is kept at its position. */
  function Lower(s: string): (r: string)
    ensures |r| == |s|
    ensures forall i :: 0 <= i < |r| ==> !('A' <= r[i] <= 'Z')
    ensures forall i :: 0 <= i < |s| && !('A' <= s[i] <= 'Z') ==> r[i] == s[i]
    ensures forall i :: 0 <= i < |s| && 'A' <= s[i] <= 'Z' ==>
      r[i] as int == s[i] as int + ('a' as int - 'A' as int)
  {
    seq(|s|, i requires 0 <= i < |s| => LowerChar(s[i]))
  }

  /** Lower-casing is applied character by character, so it commutes with slicing. */
  lemma LowerSlice(s: string, i: nat, j: nat)
    requires i <= j <= |s|
    ensures Lower(s)[i..j] == Lower(s[i..j])
  {
  }

  /** Lower-casing twice is lower-casing once. */
  lemma LowerIdempotent(s: string)
    ensures Lower(Lower(s)) == Lower(s)
  {
  }

  const NewLine: char := '\n'

  /** Python's `s.split('\n')`: the pieces between newlines, always at least one. */
  function Split(s: string): (r: seq<string>)
    ensures |r| >= 1
    ensures forall k :: 0 <= k < |r| ==> NewLine !in r[k]
    decreases |s|
  {
    if |s| == 0 then [""]
    else
      var rest := Split(s[1..]);
      if s[0] == NewLine then [""] + rest
      else [[s[0]] + rest[0]] + rest[1..]
  }

  /** Python's `'\n'.join(lines)`: the text starts with the first line and
      ends with the last. */
  function Join(lines: seq<string>): (r: string)
    ensures |lines| > 0 ==> lines[0] <= r
    decreases |lines|
  {
    if |lines| == 0 then ""
    else if |lines| == 1 then lines[0]
    else
      var tail := Join(lines[1..]);
      var r := lines[0] + [NewLine] + tail;
      r
  }

  lemma {:induction false} JoinConsChar(c: char, first: string, rest: seq<string>)
    ensures Join([[c] + first] + rest) == [c] + Join([first] + rest)
  {
    var l1 := [[c] + first] + rest;
    var l2 := [first] + rest;
    assert l1[1..] == rest && l2[1..] == rest;
  }

  /** Joining the pieces of a split gives back the text. */
  lemma {:induction false} JoinSplit(s: string)
    ensures Join(Split(s)) == s
    decreases |s|
  {
    if |s| > 0 {
      var rest := Split(s[1..]);
      JoinSplit(s[1..]);
      if s[0] == NewLine {
        var l := [""] + rest;
        assert l[0] == "" && l[1..] == rest && |l| > 1;
        assert Join(l) == "" + [NewLine] + Join(rest);
        assert s == [s[0]] + s[1..];
      } else {
        assert rest == [rest[0]] + rest[1..];
        JoinConsChar(s[0], rest[0], rest[1..]);
        assert s == [s[0]] + s[1..];
      }
    }
  }

  /** Splitting a newline-free prefix glued to a text. */
  lemma {:induction false} SplitPrefix(x: string, z: string)
    requires NewLine !in x
    ensures Split(x + z) == [x + Split(z)[0]] + Split(z)[1..]
    decreases |x|
  {
    if |x| > 0 {
      var s := x + z;
      assert s[0] == x[0] && s[1..] == x[1..] + z;
      assert x[0] in x;
      SplitPrefix(x[1..], z);
      assert [x[0]] + (x[1..] + Split(z)[0]) == x + Split(z)[0];
    } else {
      assert x + z == z && x + Split(z)[0] == Split(z)[0];
      assert Split(z) == [Split(z)[0]] + Split(z)[1..];
    }
  }

  /** Splitting a join of newline-free lines gives back the lines. */
  lemma {:induction false} SplitJoin(lines: seq<string>)
    requires |lines| >= 1
    requires forall k :: 0 <= k < |lines| ==> NewLine !in lines[k]
    ensures Split(Join(lines)) == lines
    decreases |lines|
  {
    if |lines| == 1 {
      SplitPrefix(lines[0], "");
      assert lines[0] + "" == lines[0];
    } else {
      var tail := Join(lines[1..]);
      SplitJoin(lines[1..]);
      var nl := [NewLine] + tail;
      assert lines[0] + [NewLine] + tail == lines[0] + nl;
      SplitPrefix(lines[0], nl);
      assert nl[1..] == tail;
      assert Join(lines) == lines[0] + nl;
      assert Split(nl) == [""] + lines[1..];
      assert lines[0] + "" == lines[0];
      assert lines == [lines[0]] + lines[1..];
    }
  }
}
