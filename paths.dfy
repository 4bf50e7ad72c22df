/** POSIX `os.path.join`, `os.path.basename` and `os.path.dirname`. */
module Paths {
  import opened Text

  /** `os.path.join(a, b)`: an absolute `b` replaces `a`; otherwise one '/' separates them. */
  function Join(a: string, b: string): string
  {
    if b != [] && b[0] == '/' then b
    else if a == [] || a[|a| - 1] == '/' then a + b
    else a + "/" + b
  }

  /** `os.path.join(p0, p1, ...)`, folded from the left. */
  function JoinAll(parts: seq<string>): string
    requires |parts| >= 1
  {
    if |parts| == 1 then parts[0]
    else Join(JoinAll(parts[..|parts| - 1]), parts[|parts| - 1])
  }

  /** Joining adds no character but '/'. */
  lemma {:induction false} JoinAllAvoids(parts: seq<string>, c: char)
    requires |parts| >= 1 && c != '/' && forall i :: 0 <= i < |parts| ==> c !in parts[i]
    ensures c !in JoinAll(parts)
  {
    if |parts| > 1 {
      JoinAllAvoids(parts[..|parts| - 1], c);
    }
  }

  /** Index just past the last '/' of `p`, or 0 (Python's `p.rfind('/') + 1`). */
  function AfterLastSlash(p: string): (n: nat)
    ensures n <= |p|
    ensures n > 0 ==> p[n - 1] == '/'
    ensures forall i :: n <= i < |p| ==> p[i] != '/'
  {
    if p == [] then 0
    else if p[|p| - 1] == '/' then |p|
    else AfterLastSlash(p[..|p| - 1])
  }

  /** `os.path.basename(p)`: the text after the last '/'. */
  function Basename(p: string): string
  {
    p[AfterLastSlash(p)..]
  }

  /**
    `os.path.dirname(p)`: the text up to and including the last '/', with trailing
    slashes removed unless it consists of slashes only.
   */
  function Dirname(p: string): string
  {
    var head := p[..AfterLastSlash(p)];
    var trimmed := RStrip(head, {'/'});
    if trimmed == [] then head else trimmed
  }

  /** Appending text without '/' does not move the last slash. */
  lemma {:induction false} AfterLastSlashAppend(x: string, n: string)
    requires '/' !in n
    ensures AfterLastSlash(x + n) == AfterLastSlash(x)
    decreases |n|
  {
    if n != [] {
      var m := n[..|n| - 1];
      assert (x + n)[..|x + n| - 1] == x + m;
      assert (x + n)[|x + n| - 1] == n[|n| - 1];
      AfterLastSlashAppend(x, m);
    } else {
      assert x + n == x;
    }
  }

  /** Joining a name without '/' onto a directory: the basename is that name. */
  lemma BasenameJoin(d: string, n: string)
    requires '/' !in n
    ensures Basename(Join(d, n)) == n
  {
    var j := Join(d, n);
    if n != [] && n[0] == '/' {
    } else if d == [] {
      assert j == n;
      AfterLastSlashAppend([], n);
      assert [] + n == n;
    } else if d[|d| - 1] == '/' {
      AfterLastSlashAppend(d, n);
      assert j[|d|..] == n;
    } else {
      AfterLastSlashAppend(d + "/", n);
      assert j == (d + "/") + n;
      assert j[|d| + 1..] == n;
    }
  }

  /** `d` with exactly the '/' that `os.path.join` puts after it. */
  function WithSlash(d: string): string
  {
    if d != [] && d[|d| - 1] == '/' then d else d + "/"
  }

  lemma JoinWithSlash(d: string, n: string)
    requires d != [] && '/' !in n
    ensures Join(d, n) == WithSlash(d) + n
    ensures AfterLastSlash(Join(d, n)) == |WithSlash(d)|
  {
    AfterLastSlashAppend(WithSlash(d), n);
  }

  /**
    Joining a name without '/' onto a directory that is not all slashes: the dirname of
    the result is the directory without its trailing slashes.
   */
  lemma DirnameJoin(d: string, n: string)
    requires '/' !in n
    requires RStrip(d, {'/'}) != []
    ensures Dirname(Join(d, n)) == RStrip(d, {'/'})
  {
    var j := Join(d, n);
    var d' := WithSlash(d);
    JoinWithSlash(d, n);
    assert j[..AfterLastSlash(j)] == d';
    assert RStrip(d', {'/'}) == RStrip(d, {'/'}) by {
      if d[|d| - 1] != '/' { RStripSlash(d); }
    }
  }

  lemma RStripSlash(d: string)
    requires d != []
    ensures RStrip(d + "/", {'/'}) == RStrip(d, {'/'})
  {
    assert (d + "/")[..|d + "/"| - 1] == d;
  }
}
