/**
  The subset of Python `str` behaviour the repository relies on: `in`, `find`,
  `split(sep)`, `sep.join`, `split()` on whitespace, `strip`/`lstrip`/`rstrip`
  with a character set, `startswith`, and decimal rendering of integers.
 */
module Text {
  import opened Wrappers

  /** `sep` occurs in `s` starting at index `i`. */
  predicate OccursAt(s: string, sep: string, i: int)
  {
    0 <= i && i + |sep| <= |s| && s[i..i + |sep|] == sep
  }

  lemma OccursAtShift(s: string, sep: string)
    requires |s| > 0
    ensures forall j :: 1 <= j ==> (OccursAt(s, sep, j) <==> OccursAt(s[1..], sep, j - 1))
  {
    forall j | 1 <= j ensures OccursAt(s, sep, j) <==> OccursAt(s[1..], sep, j - 1) {
      if j + |sep| <= |s| {
        assert s[1..][j - 1..j - 1 + |sep|] == s[j..j + |sep|];
      }
    }
  }

  /** Index of the first occurrence of `sep` in `s`: Python's `s.find(sep)`, with None for -1. */
  function Find(s: string, sep: string): (r: Option<nat>)
    ensures r.Some? ==> OccursAt(s, sep, r.value)
    ensures r.Some? ==> forall j :: 0 <= j < r.value ==> !OccursAt(s, sep, j)
    ensures r.None? ==> forall j :: !OccursAt(s, sep, j)
    decreases |s|
  {
    if |s| < |sep| then None
    else if sep <= s then Some(0)
    else
      OccursAtShift(s, sep);
      assert !OccursAt(s, sep, 0);
      match Find(s[1..], sep)
      case None => None
      case Some(i) => Some(i + 1)
  }

  /** Python's `t in s` for strings. */
  predicate Contains(s: string, t: string)
  {
    Find(s, t).Some?
  }

  lemma OccursAtChar(s: string, c: char, i: int)
    ensures OccursAt(s, [c], i) <==> 0 <= i < |s| && s[i] == c
  {
    if 0 <= i < |s| { assert s[i..i + 1] == [s[i]]; }
  }

  /** A one-character separator is found at the first index holding that character. */
  lemma FindChar(s: string, c: char)
    ensures Find(s, [c]).Some? <==> c in s
    ensures Find(s, [c]).Some? ==>
      var i := Find(s, [c]).value; i < |s| && s[i] == c && c !in s[..i]
  {
    match Find(s, [c])
    case None =>
      forall i | 0 <= i < |s| ensures s[i] != c {
        OccursAtChar(s, c, i);
      }
    case Some(i) =>
      OccursAtChar(s, c, i);
      forall k | 0 <= k < i ensures s[..i][k] != c {
        OccursAtChar(s, c, k);
      }
  }

  /** Python's `s.split(sep)` for a non-empty separator. */
  function Split(s: string, sep: string): (r: seq<string>)
    requires sep != []
    ensures |r| >= 1
    decreases |s|
  {
    match Find(s, sep)
    case None => [s]
    case Some(i) => [s[..i]] + Split(s[i + |sep|..], sep)
  }

  /** Python's `sep.join(parts)`. */
  function Join(parts: seq<string>, sep: string): string
  {
    if |parts| == 0 then ""
    else if |parts| == 1 then parts[0]
    else parts[0] + sep + Join(parts[1..], sep)
  }

  lemma JoinCons(x: string, rest: seq<string>, sep: string)
    requires |rest| >= 1
    ensures Join([x] + rest, sep) == x + sep + Join(rest, sep)
  {
    assert ([x] + rest)[1..] == rest;
  }

  /** Two joins written one after the other fuse the last part of the first with the first part of the second. */
  lemma {:induction false} JoinGlue(xs: seq<string>, a: string, b: string, ys: seq<string>, sep: string)
    ensures Join(xs + [a], sep) + Join([b] + ys, sep) == Join(xs + [a + b] + ys, sep)
    decreases |xs|
  {
    if xs == [] {
      assert xs + [a] == [a];
      assert xs + [a + b] + ys == [a + b] + ys;
      if ys != [] {
        JoinCons(b, ys, sep);
        JoinCons(a + b, ys, sep);
      }
    } else {
      var x, rest := xs[0], xs[1..];
      JoinGlue(rest, a, b, ys, sep);
      assert xs + [a] == [x] + (rest + [a]);
      assert xs + [a + b] + ys == [x] + (rest + [a + b] + ys);
      JoinCons(x, rest + [a], sep);
      JoinCons(x, rest + [a + b] + ys, sep);
    }
  }

  /** Joining the pieces of a split with the same separator gives back the string. */
  lemma {:induction false} JoinSplit(s: string, sep: string)
    requires sep != []
    ensures Join(Split(s, sep), sep) == s
    decreases |s|
  {
    var f := Find(s, sep);
    if f.Some? {
      var i := f.value;
      var rest := s[i + |sep|..];
      JoinSplit(rest, sep);
      assert Split(s, sep) == [s[..i]] + Split(rest, sep);
      JoinCons(s[..i], Split(rest, sep), sep);
      assert s[i..i + |sep|] == sep;
      assert s == s[..i] + s[i..i + |sep|] + rest;
    }
  }

  /** `a + sep + b` where `a` lacks the separator's first character: the first occurrence is right after `a`. */
  lemma FindAfter(a: string, sep: string, b: string)
    requires sep != [] && sep[0] !in a
    ensures Find(a + sep + b, sep) == Some(|a|)
  {
    var s := a + sep + b;
    assert s[|a|..|a| + |sep|] == sep;
    assert OccursAt(s, sep, |a|);
    forall j | 0 <= j < |a| ensures !OccursAt(s, sep, j) {
      OccursAtHead(s, sep, j);
      assert s[j] == a[j];
    }
  }

  lemma OccursAtHead(s: string, sep: string, i: int)
    ensures OccursAt(s, sep, i) && sep != [] ==> s[i] == sep[0]
  {
    if OccursAt(s, sep, i) && sep != [] {
      assert s[i..i + |sep|][0] == s[i];
    }
  }

  lemma SplitCons(a: string, sep: string, b: string)
    requires sep != [] && sep[0] !in a
    ensures Split(a + sep + b, sep) == [a] + Split(b, sep)
  {
    var s := a + sep + b;
    FindAfter(a, sep, b);
    assert s[..|a|] == a;
    assert s[|a| + |sep|..] == b;
  }

  lemma CutAt(s: string, c: char, i: nat)
    requires i < |s| && s[i] == c
    ensures s == s[..i] + [c] + s[i + 1..]
  {
  }

  /** A string without the separator's first character splits into itself. */
  lemma SplitSingle(s: string, sep: string)
    requires sep != [] && sep[0] !in s
    ensures Split(s, sep) == [s]
  {
    forall i | 0 <= i < |s| ensures !OccursAt(s, sep, i) {
      OccursAtHead(s, sep, i);
    }
  }

  /** Splitting on a separator whose first character no part contains undoes the join. */
  lemma {:induction false} SplitJoin(parts: seq<string>, sep: string)
    requires |parts| >= 1 && sep != []
    requires forall i :: 0 <= i < |parts| ==> sep[0] !in parts[i]
    ensures Split(Join(parts, sep), sep) == parts
  {
    if |parts| == 1 {
      SplitSingle(parts[0], sep);
    } else {
      SplitJoin(parts[1..], sep);
      SplitCons(parts[0], sep, Join(parts[1..], sep));
      assert parts == [parts[0]] + parts[1..];
    }
  }

  /** The pieces of a split on one character never contain it; there is more than one iff it occurs. */
  lemma {:induction false} SplitCharPieces(s: string, c: char)
    ensures forall i :: 0 <= i < |Split(s, [c])| ==> c !in Split(s, [c])[i]
    ensures |Split(s, [c])| == 1 <==> c !in s
    decreases |s|
  {
    FindChar(s, c);
    match Find(s, [c])
    case None =>
    case Some(i) =>
      SplitCharPieces(s[i + 1..], c);
      assert Split(s, [c]) == [s[..i]] + Split(s[i + 1..], [c]);
  }

  /** A string with `c` in it splits into the text before its first `c` and the split of the rest. */
  lemma SplitAtFirst(a: string, c: char, n: string)
    requires c in a
    ensures Find(a, [c]).Some?
    ensures var i := Find(a, [c]).value;
      Split(a + [c] + n, [c]) == [a[..i]] + Split(a[i + 1..] + [c] + n, [c])
      && Split(a, [c]) == [a[..i]] + Split(a[i + 1..], [c])
  {
    FindChar(a, c);
    var i := Find(a, [c]).value;
    var h, t := a[..i], a[i + 1..];
    assert a == h + [c] + t;
    assert a + [c] + n == h + [c] + (t + [c] + n);
    SplitCons(h, [c], t + [c] + n);
    SplitCons(h, [c], t);
  }

  /** Appending a separator and a piece without it adds exactly that piece. */
  lemma {:induction false} SplitAppendPiece(a: string, c: char, n: string)
    requires c !in n
    ensures Split(a + [c] + n, [c]) == Split(a, [c]) + [n]
    decreases |a|
  {
    if c !in a {
      SplitSingle(n, [c]);
      SplitCons(a, [c], n);
      SplitSingle(a, [c]);
    } else {
      SplitAtFirst(a, c, n);
      FindChar(a, c);
      var i := Find(a, [c]).value;
      SplitAppendPiece(a[i + 1..], c, n);
    }
  }

  /** The first piece of `s.split(sep)`: the text before the first separator, or all of `s`. */
  lemma SplitHead(s: string, sep: string)
    requires sep != []
    ensures Split(s, sep)[0] == match Find(s, sep) case None => s case Some(i) => s[..i]
  {
  }

  /** The whitespace characters of Python's `str.split()` within ASCII. */
  predicate IsSpace(c: char)
  {
    c == ' ' || c == '\t' || c == '\n' || c == '\r' || c == '\U{B}' || c == '\U{C}'
  }

  /** Length of the leading run of non-whitespace characters. */
  function WordLength(s: string): (n: nat)
    ensures n <= |s|
    ensures forall i :: 0 <= i < n ==> !IsSpace(s[i])
    ensures n < |s| ==> IsSpace(s[n])
  {
    if s == [] || IsSpace(s[0]) then 0 else 1 + WordLength(s[1..])
  }

  /** Python's `s.split()`: the maximal runs of non-whitespace characters, in order. */
  function Words(s: string): (r: seq<string>)
    ensures forall i :: 0 <= i < |r| ==> r[i] != []
    ensures forall i, k :: 0 <= i < |r| && 0 <= k < |r[i]| ==> !IsSpace(r[i][k])
    decreases |s|
  {
    if s == [] then []
    else if IsSpace(s[0]) then Words(s[1..])
    else
      var n := WordLength(s);
      [s[..n]] + Words(s[n..])
  }

  /** Every character is whitespace. */
  predicate Blank(s: string)
  {
    forall i :: 0 <= i < |s| ==> IsSpace(s[i])
  }

  /** `s.split()` is empty iff `s` is all whitespace. */
  lemma {:induction false} WordsEmpty(s: string)
    ensures Words(s) == [] <==> Blank(s)
    decreases |s|
  {
    if s != [] && IsSpace(s[0]) {
      WordsEmpty(s[1..]);
      assert forall i :: 1 <= i < |s| ==> s[i] == s[1..][i - 1];
    }
  }

  /** Python's `s.lstrip(chars)`. */
  function LStrip(s: string, cs: set<char>): (r: string)
    ensures |r| <= |s| && r == s[|s| - |r|..]
    ensures r == [] || r[0] !in cs
    ensures forall i :: 0 <= i < |s| - |r| ==> s[i] in cs
  {
    if s != [] && s[0] in cs then LStrip(s[1..], cs) else s
  }

  /** Python's `s.rstrip(chars)`. */
  function RStrip(s: string, cs: set<char>): (r: string)
    ensures r <= s
    ensures r == [] || r[|r| - 1] !in cs
    ensures forall i :: |r| <= i < |s| ==> s[i] in cs
  {
    if s != [] && s[|s| - 1] in cs then RStrip(s[..|s| - 1], cs) else s
  }

  /** Python's `s.strip(chars)`. */
  function Strip(s: string, cs: set<char>): string
  {
    RStrip(LStrip(s, cs), cs)
  }

  /** `strip` leaves neither end in the stripped set. */
  lemma StripEnds(s: string, cs: set<char>)
    ensures var r := Strip(s, cs); r == [] || (r[0] !in cs && r[|r| - 1] !in cs)
  {
    var l := LStrip(s, cs);
    var r := RStrip(l, cs);
    if r != [] {
      assert r[0] == l[0];
    }
  }

  /** Python's whitespace `strip()`. */
  function StripSpaces(s: string): string
  {
    Strip(s, {' ', '\t', '\n', '\r', '\U{B}', '\U{C}'})
  }

  /** `n` blanks. */
  function Spaces(n: nat): (s: string)
    ensures |s| == n && forall i :: 0 <= i < n ==> s[i] == ' '
  {
    if n == 0 then "" else " " + Spaces(n - 1)
  }

  function DigitChar(d: nat): char
    requires d < 10
  {
    "0123456789"[d]
  }

  /** Decimal rendering of a natural number, as `str(n)`. */
  function NatToString(n: nat): (r: string)
    ensures r != []
    ensures forall i :: 0 <= i < |r| ==> '0' <= r[i] <= '9'
  {
    if n < 10 then [DigitChar(n)] else NatToString(n / 10) + [DigitChar(n % 10)]
  }

  /** Decimal rendering of an integer, as `str(i)`. */
  function IntToString(i: int): string
  {
    if i < 0 then "-" + NatToString(-i) else NatToString(i)
  }
}
