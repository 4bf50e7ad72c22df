/**
  What the two nondeterministic test tasks share: the choice of the RSE protocol that
  matches the configured one, and the file list that the upload task writes and the
  register task reads (src/tasks/tests/upload_nondeterministic.py,
  src/tasks/tests/register_nondeterministic.py).
 */
module FileLists {
  import opened Wrappers
  import opened Seqs
  import opened Text
  import Paths
  import opened Pfns

  // ---------------------------------------------------------------- protocols

  /** The three keys of an RSE protocol that the tasks compare. */
  datatype Protocol = Protocol(scheme: string, hostname: string, prefix: string)

  /**
    The first protocol whose scheme, hostname and prefix all equal the configured ones,
    rendered `scheme://hostname` + prefix, or None when no protocol matches.
   */
  method SelectProtocol(protocols: seq<Protocol>, scheme: string, hostname: string, prefix: string)
    returns (selected: Option<string>)
    ensures selected.Some? <==> Protocol(scheme, hostname, prefix) in protocols
    ensures selected.Some? ==> selected.value == scheme + "://" + hostname + prefix
  {
    var i := 0;
    while i < |protocols|
      invariant 0 <= i <= |protocols|
      invariant Protocol(scheme, hostname, prefix) !in protocols[..i]
    {
      var p := protocols[i];
      if p.scheme == scheme && p.hostname == hostname && p.prefix == prefix {
        return Some(scheme + "://" + hostname + prefix);
      }
      TakeSnoc(protocols, i);
      i := i + 1;
    }
    assert protocols[..i] == protocols;
    return None;
  }

  // ---------------------------------------------------------------- writing

  /** The first line of every file list. */
  const HeaderLine := "# pfn did"

  /** The line of one uploaded file: its absolute path, a tab, and `scope:name`. */
  function FileLine(scope: string, p: Pfn): string
  {
    AbsPath(p) + "\t" + scope + ":" + p.name
  }

  /** The line of each PFN, in order. */
  function Lines(scope: string, ps: seq<Pfn>): seq<string>
  {
    seq(|ps|, i requires 0 <= i < |ps| => FileLine(scope, ps[i]))
  }

  /** `h`, then each of `ls` after a newline. */
  function Joined(h: string, ls: seq<string>): string
  {
    if ls == [] then h else Joined(h, ls[..|ls| - 1]) + "\n" + ls[|ls| - 1]
  }

  /** The header and the lines of `ps`, each after a newline. */
  function Content(scope: string, ps: seq<Pfn>): string
  {
    Joined(HeaderLine, Lines(scope, ps))
  }

  /** The whole file list: every line ends in a newline. */
  function FileListText(scope: string, ps: seq<Pfn>): string
  {
    Content(scope, ps) + "\n"
  }

  /** The lines of all but the last PFN, then the last one's. */
  lemma LinesSnoc(scope: string, ps: seq<Pfn>)
    requires ps != []
    ensures Lines(scope, ps) == Lines(scope, ps[..|ps| - 1]) + [FileLine(scope, ps[|ps| - 1])]
  {
  }

  /** Writing one more PFN's line extends the list by that line and a newline. */
  lemma ContentSnoc(scope: string, ps: seq<Pfn>, p: Pfn)
    ensures FileListText(scope, ps + [p]) == FileListText(scope, ps) + FileLine(scope, p) + "\n"
  {
    var ls := Lines(scope, ps + [p]);
    assert ls[..|ps|] == Lines(scope, ps);
    assert ls[|ps|] == FileLine(scope, p);
  }

  // ---------------------------------------------------------------- reading

  /** `contents.rstrip("\r\n").split("\n")`. */
  function ListLines(contents: string): seq<string>
  {
    Split(RStrip(contents, {'\r', '\n'}), "\n")
  }

  /** How the register task treats one line. */
  datatype Line =
    | Header                            // a compliant header: skipped
    | BadHeader                         // a '#' line other than `pfn did`: the task returns False
    | Entry(pfn: Pfn, did: string)      // a file to register
    | Malformed                         // not two tab-separated fields, or no `://`: raises

  /**
    A '#' line is a header, compliant iff its words after the leading '#'s are exactly
    `pfn` and `did`. Any other line must split on tabs into exactly a path and a DID,
    and the path must contain `://`.
   */
  function ParseLine(entry: string): Line
  {
    if |entry| >= 1 && entry[0] == '#' then ParseHeader(entry) else ParseEntry(entry)
  }

  /** `tuple(entry.lstrip("#").split()) != ("pfn", "did")` decides a header line. */
  function ParseHeader(entry: string): Line
  {
    if Words(LStrip(entry, {'#'})) == ["pfn", "did"] then Header else BadHeader
  }

  /** `pfn, did = entry.split("\t")`, then `PFN.fromabspath(pfn)`. */
  function ParseEntry(entry: string): Line
  {
    var pieces := Split(entry, "\t");
    if |pieces| != 2 then Malformed
    else
      match FromAbsPath(pieces[0])
      case None => Malformed
      case Some(p) => Entry(p, pieces[1])
  }

  /** The header the upload task writes is compliant. */
  lemma HeaderParses()
    ensures ParseLine(HeaderLine) == Header
  {
    HeaderStrip();
    HeaderWords();
  }

  lemma HeaderStrip()
    ensures HeaderLine[0] == '#' && LStrip(HeaderLine, {'#'}) == " pfn did"
  {
    assert HeaderLine[1..] == " pfn did";
    assert LStrip(" pfn did", {'#'}) == " pfn did";
  }

  lemma HeaderWords()
    ensures Words(" pfn did") == ["pfn", "did"]
  {
    FirstWord("pfn", " did");
    FirstWord("did", "");
    assert " pfn did"[1..] == "pfn did";
    assert "pfn" + " did" == "pfn did";
    assert " did"[1..] == "did";
    assert "did" + "" == "did";
  }

  /** A word followed by nothing or by whitespace is split off whole. */
  lemma FirstWord(w: string, rest: string)
    requires w != [] && forall i :: 0 <= i < |w| ==> !IsSpace(w[i])
    requires rest == [] || IsSpace(rest[0])
    ensures Words(w + rest) == [w] + Words(rest)
  {
    WordLengthOf(w, rest);
    assert (w + rest)[..|w|] == w && (w + rest)[|w|..] == rest;
  }

  lemma {:induction false} WordLengthOf(w: string, rest: string)
    requires forall i :: 0 <= i < |w| ==> !IsSpace(w[i])
    requires rest == [] || IsSpace(rest[0])
    ensures WordLength(w + rest) == |w|
    decreases |w|
  {
    if w == [] {
      assert w + rest == rest;
    } else {
      assert (w + rest)[1..] == w[1..] + rest;
      WordLengthOf(w[1..], rest);
    }
  }

  // ---------------------------------------------------------------- round trip

  /** A PFN as the constructor leaves it. */
  predicate Normal(p: Pfn)
  {
    MakePfn(p.scheme, p.hostname, p.dir, p.name) == p
  }

  /** `c` occurs in none of the PFN's parts. */
  predicate Avoids(p: Pfn, c: char)
  {
    c !in p.scheme && c !in p.hostname && c !in p.dir && c !in p.name
  }

  /** A PFN whose line the register task reads back as written. */
  predicate Listable(scope: string, p: Pfn)
  {
    Normal(p) && Plain(scope, p)
  }

  /**
    No tab, newline or carriage return anywhere in the PFN or in the scope; no ':' in
    the scheme, directory or name; no '/' in the scheme, host or name; a scheme not
    starting with '#'; and no `root` host ending in ':'.
   */
  predicate Plain(scope: string, p: Pfn)
  {
    Avoids(p, '\t') && Avoids(p, '\n') && Avoids(p, '\r')
    && '\t' !in scope && '\n' !in scope && '\r' !in scope
    && ':' !in p.scheme && ':' !in p.dir && ':' !in p.name
    && '/' !in p.scheme && '/' !in p.hostname && '/' !in p.name
    && (p.scheme == [] || p.scheme[0] != '#')
    && (p.scheme == "root" && p.hostname != [] ==> p.hostname[|p.hostname| - 1] != ':')
  }

  /** Joining two paths adds at most a '/'. */
  lemma JoinAvoids(a: string, b: string, c: char)
    requires c !in a && c !in b && c != '/'
    ensures c !in Paths.Join(a, b)
  {
  }

  /** A line in the list has no tab but the one between its fields, and no newline. */
  lemma FileLineChars(scope: string, p: Pfn)
    requires Plain(scope, p)
    ensures '\t' !in AbsPath(p) && '\t' !in scope + ":" + p.name
    ensures '\n' !in FileLine(scope, p) && '\r' !in FileLine(scope, p)
    ensures FileLine(scope, p) != [] && FileLine(scope, p)[|FileLine(scope, p)| - 1] !in {'\r', '\n'}
  {
    JoinAvoids(p.dir, p.name, '\t');
    JoinAvoids(p.dir, p.name, '\n');
    JoinAvoids(p.dir, p.name, '\r');
    var did := scope + ":" + p.name;
    var l := FileLine(scope, p);
    assert l == AbsPath(p) + "\t" + did;
    assert l[|l| - 1] == did[|did| - 1];
    if p.name == [] {
      assert did[|did| - 1] == ':';
    } else {
      assert did[|did| - 1] == p.name[|p.name| - 1] && p.name[|p.name| - 1] in p.name;
    }
  }

  /** A line in the list is no header and splits on its one tab into the path and the DID. */
  lemma LineSplits(scope: string, p: Pfn)
    requires Plain(scope, p)
    ensures var line := FileLine(scope, p);
      line[0] != '#' && Split(line, "\t") == [AbsPath(p), scope + ":" + p.name]
  {
    var line := FileLine(scope, p);
    var did := scope + ":" + p.name;
    FileLineChars(scope, p);
    assert line == AbsPath(p) + "\t" + did;
    if p.scheme == [] {
      assert line[0] == ':';
    } else {
      assert line[0] == p.scheme[0];
    }
    SplitCons(AbsPath(p), "\t", did);
    SplitSingle(did, "\t");
  }

  /** A line in the list is read as the entry of the PFN its path parses to. */
  lemma LineParsesAs(scope: string, p: Pfn, q: Pfn)
    requires Plain(scope, p) && FromAbsPath(AbsPath(p)) == Some(q)
    ensures ParseLine(FileLine(scope, p)) == Entry(q, scope + ":" + p.name)
  {
    LineSplits(scope, p);
    EntryOf(FileLine(scope, p), AbsPath(p), scope + ":" + p.name, q);
  }

  lemma EntryOf(line: string, path: string, did: string, q: Pfn)
    requires |line| >= 1 && line[0] != '#' && Split(line, "\t") == [path, did]
    requires FromAbsPath(path) == Some(q)
    ensures ParseLine(line) == Entry(q, did)
  {
    assert ParseLine(line) == ParseEntry(line);
    var pieces := Split(line, "\t");
    assert pieces[0] == path && pieces[1] == did;
  }

  /** The path of a PFN whose parts are plain parses back to that PFN, once normalised. */
  lemma PlainRoundTrip(scope: string, p: Pfn)
    requires Plain(scope, p)
    ensures FromAbsPath(AbsPath(MakePfn(p.scheme, p.hostname, p.dir, p.name)))
      == Some(MakePfn(p.scheme, p.hostname, p.dir, p.name))
  {
    AbsPathRoundTrip(p.scheme, p.hostname, p.dir, p.name);
  }

  /** The register task reads an uploaded file's line back as that PFN and `scope:name`. */
  lemma LineParses(scope: string, p: Pfn)
    requires Listable(scope, p)
    ensures ParseLine(FileLine(scope, p)) == Entry(p, scope + ":" + p.name)
  {
    PlainRoundTrip(scope, p);
    LineParsesAs(scope, p, p);
  }

  /** Splitting joined lines that hold no newline on newlines gives them back. */
  lemma {:induction false} JoinedSplit(h: string, ls: seq<string>)
    requires '\n' !in h && forall i :: 0 <= i < |ls| ==> '\n' !in ls[i]
    ensures Split(Joined(h, ls), "\n") == [h] + ls
  {
    if ls == [] {
      SplitSingle(h, "\n");
    } else {
      var n := |ls| - 1;
      JoinedSplit(h, ls[..n]);
      SplitAppendPiece(Joined(h, ls[..n]), '\n', ls[n]);
      assert [h] + ls == [h] + ls[..n] + [ls[n]];
    }
  }

  /** The list's lines before the final newline: the header, then one line per PFN. */
  lemma ContentLines(scope: string, ps: seq<Pfn>)
    requires forall i :: 0 <= i < |ps| ==> Plain(scope, ps[i])
    ensures Split(Content(scope, ps), "\n") == [HeaderLine] + Lines(scope, ps)
  {
    forall i | 0 <= i < |ps| ensures '\n' !in Lines(scope, ps)[i] {
      FileLineChars(scope, ps[i]);
    }
    JoinedSplit(HeaderLine, Lines(scope, ps));
  }

  /** The content ends in the header's or the last line's final character, neither '\r' nor '\n'. */
  lemma ContentEnd(scope: string, ps: seq<Pfn>)
    requires forall i :: 0 <= i < |ps| ==> Plain(scope, ps[i])
    ensures RStrip(FileListText(scope, ps), {'\r', '\n'}) == Content(scope, ps)
  {
    var c := Content(scope, ps);
    var t := FileListText(scope, ps);
    assert t[..|t| - 1] == c;
    if ps == [] {
      assert c[|c| - 1] == 'd';
    } else {
      var n := |ps| - 1;
      FileLineChars(scope, ps[n]);
      var l := FileLine(scope, ps[n]);
      assert Lines(scope, ps)[n] == l;
      assert c[|c| - 1] == l[|l| - 1];
    }
  }

  /** Reading a written list back gives its header and then the line of each PFN. */
  lemma ListedLines(scope: string, ps: seq<Pfn>)
    requires forall i :: 0 <= i < |ps| ==> Plain(scope, ps[i])
    ensures ListLines(FileListText(scope, ps)) == [HeaderLine] + Lines(scope, ps)
  {
    ContentEnd(scope, ps);
    ContentLines(scope, ps);
  }

  /** The line of each listable PFN parses back to it. */
  lemma LinesParse(scope: string, ps: seq<Pfn>)
    requires forall i :: 0 <= i < |ps| ==> Listable(scope, ps[i])
    ensures forall i :: 0 <= i < |ps| ==> ParseLine(Lines(scope, ps)[i]) == Entry(ps[i], scope + ":" + ps[i].name)
  {
    forall i | 0 <= i < |ps|
      ensures ParseLine(Lines(scope, ps)[i]) == Entry(ps[i], scope + ":" + ps[i].name)
    {
      LineParses(scope, ps[i]);
    }
  }

  /**
    Every file list the upload task writes passes the register task's parser: the first
    line is a compliant header, and line `i + 1` registers the `i`-th PFN under
    `scope:name`.
   */
  lemma UploadListParses(scope: string, ps: seq<Pfn>)
    requires forall i :: 0 <= i < |ps| ==> Listable(scope, ps[i])
    ensures var lines := ListLines(FileListText(scope, ps));
      |lines| == |ps| + 1 && ParseLine(lines[0]) == Header
      && forall i :: 0 <= i < |ps| ==> ParseLine(lines[i + 1]) == Entry(ps[i], scope + ":" + ps[i].name)
  {
    var lines := ListLines(FileListText(scope, ps));
    ListedLines(scope, ps);
    LinesParse(scope, ps);
    HeaderParses();
    Tail(HeaderLine, Lines(scope, ps));
  }

  lemma Tail(h: string, ls: seq<string>)
    ensures forall i :: 0 <= i < |ls| ==> ([h] + ls)[i + 1] == ls[i]
  {
  }
}
