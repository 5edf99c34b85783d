/** Strings as the code compares and cleans them: order by characters, lower case, and surrounding white space. */
module Strings {
  /** The order of a sort by text. */
  predicate AtMost(a: string, b: string)
    decreases |a|
  {
    a == "" || (b != "" && (a[0] < b[0] || (a[0] == b[0] && AtMost(a[1..], b[1..]))))
  }

  lemma {:induction false} AtMostIsTotal(a: string, b: string)
    ensures AtMost(a, b) || AtMost(b, a)
    ensures AtMost(a, b) && AtMost(b, a) ==> a == b
    decreases |a|
  {
    if a != "" && b != "" {
      AtMostIsTotal(a[1..], b[1..]);
      assert a == [a[0]] + a[1..] && b == [b[0]] + b[1..];
    }
  }

  lemma {:induction false} AtMostIsTransitive(a: string, b: string, c: string)
    requires AtMost(a, b) && AtMost(b, c)
    ensures AtMost(a, c)
    decreases |a|
  {
    if a != "" && a[0] == b[0] == c[0] { AtMostIsTransitive(a[1..], b[1..], c[1..]); }
  }

  /** Where two texts first differ the lesser character comes first, and a beginning comes before the whole. */
  lemma {:induction false} FirstDifferenceDecides(p: string, c: char, a: string, d: char, b: string)
    ensures AtMost(p + [c] + a, p + [d] + b) <==> c < d || (c == d && AtMost(a, b))
    ensures AtMost(p, p + a) && (AtMost(p + a, p) <==> a == "")
    decreases |p|
  {
    var x, y := p + [c] + a, p + [d] + b;
    if p == "" {
      assert x[1..] == a && y[1..] == b;
    } else {
      FirstDifferenceDecides(p[1..], c, a, d, b);
      assert x[1..] == p[1..] + [c] + a && y[1..] == p[1..] + [d] + b && (p + a)[1..] == p[1..] + a;
    }
  }

  /** Only ASCII letters matter wherever the result is compared with ASCII text. */
  function LowerChar(c: char): char {
    if 'A' <= c <= 'Z' then (c as int + 32) as char else c
  }

  function Lower(s: string): (r: string)
    ensures |r| == |s|
  {
    seq(|s|, i requires 0 <= i < |s| => LowerChar(s[i]))
  }

  lemma LowerIsByLetter(i: nat, c: char)
    requires i < 26
    ensures LowerChar("ABCDEFGHIJKLMNOPQRSTUVWXYZ"[i]) == "abcdefghijklmnopqrstuvwxyz"[i]
    ensures LowerChar(c) != c ==> c in "ABCDEFGHIJKLMNOPQRSTUVWXYZ"
  {
    if LowerChar(c) != c { assert c == "ABCDEFGHIJKLMNOPQRSTUVWXYZ"[c as int - 65]; }
  }

  /** White space as str.strip() takes it. */
  predicate IsSpace(c: char) {
    var n := c as int;
    || 9 <= n <= 13 || 28 <= n <= 32 || n == 0x85 || n == 0xA0 || n == 0x1680 || 0x2000 <= n <= 0x200A
    || n == 0x2028 || n == 0x2029 || n == 0x202F || n == 0x205F || n == 0x3000
  }

  lemma SpacesListed(c: char)
    ensures IsSpace(c) <==>
            c as int in {9, 10, 11, 12, 13, 28, 29, 30, 31, 32, 133, 160, 5760, 8192, 8193, 8194, 8195, 8196, 8197, 8198,
                         8199, 8200, 8201, 8202, 8232, 8233, 8239, 8287, 12288}
  {
  }

  predicate AllSpace(s: string) { forall c | c in s :: IsSpace(c) }

  function StripLeft(s: string): string
    decreases |s|
  {
    if s != "" && IsSpace(s[0]) then StripLeft(s[1..]) else s
  }

  function StripRight(s: string): string
    decreases |s|
  {
    if s != "" && IsSpace(s[|s| - 1]) then StripRight(s[..|s| - 1]) else s
  }

  function Strip(s: string): string { StripRight(StripLeft(s)) }

  predicate Trimmed(s: string) { s != "" ==> !IsSpace(s[0]) && !IsSpace(s[|s| - 1]) }

  lemma {:induction false} StripLeftAll(pre: string, s: string)
    requires AllSpace(pre) && (s != "" ==> !IsSpace(s[0]))
    ensures StripLeft(pre + s) == s
    decreases |pre|
  {
    if pre == "" {
      assert pre + s == s;
    } else {
      assert (pre + s)[1..] == pre[1..] + s;
      StripLeftAll(pre[1..], s);
    }
  }

  lemma {:induction false} StripRightAll(s: string, post: string)
    requires AllSpace(post) && (s != "" ==> !IsSpace(s[|s| - 1]))
    ensures StripRight(s + post) == s
    decreases |post|
  {
    if post == "" {
      assert s + post == s;
    } else {
      assert (s + post)[..|s + post| - 1] == s + post[..|post| - 1];
      StripRightAll(s, post[..|post| - 1]);
    }
  }

  /** Stripping takes away exactly the white space around a text. */
  lemma StripTakesSpace(pre: string, s: string, post: string)
    requires AllSpace(pre) && AllSpace(post) && Trimmed(s) && s != ""
    ensures Strip(pre + s + post) == s
  {
    assert pre + s + post == pre + (s + post);
    StripLeftAll(pre, s + post);
    StripRightAll(s, post);
  }

  // ---------------------------------------------------------------- unused names

  lemma {:induction false} LongerThanAll(used: set<string>) returns (n: nat)
    ensures forall u | u in used :: |u| < n
    decreases |used|
  {
    n := 0;
    if used != {} {
      var u :| u in used;
      var m := LongerThanAll(used - {u});
      n := if |u| < m then m else |u| + 1;
    }
  }

  /** There is always another name. */
  lemma FreshName(used: set<string>) returns (name: string)
    ensures name !in used
  {
    var n := LongerThanAll(used);
    name := seq(n, i => 'x');
  }
}
