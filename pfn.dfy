/**
  Physical file names (`PFN`): a scheme, a host, a directory and a file name, normalised
  when built, rendered as an absolute path and parsed back from one.
 */
module Pfns {
  import opened Wrappers
  import opened Seqs
  import opened Text
  import Paths

  /** The four normalised parts of a PFN. */
  datatype Pfn = Pfn(scheme: string, hostname: string, dir: string, name: string)

  /** No '/' at either end. */
  predicate Trimmed(s: string)
  {
    s == [] || (s[0] != '/' && s[|s| - 1] != '/')
  }

  /** `s.strip('/')`. */
  function StripSlashes(s: string): string
  {
    Strip(s, {'/'})
  }

  /** `s.strip('/')` leaves no slash at either end. */
  lemma StripSlashesTrimmed(s: string)
    ensures Trimmed(StripSlashes(s))
  {
    StripEnds(s, {'/'});
  }

  /** `s.strip('/')` removes characters only at the ends. */
  lemma StripSlashesKeeps(s: string, c: char)
    requires c !in s
    ensures c !in StripSlashes(s)
  {
    var l := LStrip(s, {'/'});
    forall i | 0 <= i < |l| ensures l[i] != c {
      assert l[i] == s[|s| - |l| + i];
    }
  }

  /** A trimmed string is its own strip, and so is a leading slash followed by it. */
  lemma StripTrimmed(s: string)
    requires Trimmed(s)
    ensures StripSlashes(s) == s
    ensures StripSlashes("/" + s) == s
  {
    assert LStrip(s, {'/'}) == s;
    assert RStrip(s, {'/'}) == s;
    var t := "/" + s;
    assert t[0] == '/' && t[1..] == s;
    assert LStrip(t, {'/'}) == LStrip(s, {'/'});
  }

  /** The constructor: scheme and host lose their outer slashes, the name its leading ones. */
  function MakePfn(scheme: string, hostname: string, dir: string, name: string): (p: Pfn)
    ensures Trimmed(p.scheme) && Trimmed(p.hostname)
    ensures p.name == [] || p.name[0] != '/'
    ensures p.scheme == "root" ==> |p.dir| >= 1 && p.dir[0] == '/' && Trimmed(p.dir[1..])
    ensures p.scheme != "root" ==> Trimmed(p.dir)
  {
    StripSlashesTrimmed(scheme);
    StripSlashesTrimmed(hostname);
    StripSlashesTrimmed(dir);
    var s := StripSlashes(scheme);
    var core := StripSlashes(dir);
    Pfn(s, StripSlashes(hostname), if s == "root" then Rooted(core) else core, LStrip(name, {'/'}))
  }

  /** A `root` directory: one leading slash. */
  function Rooted(core: string): (d: string)
    ensures |d| >= 1 && d[0] == '/' && d[1..] == core
  {
    "/" + core
  }

  /** Building a PFN from the parts of a PFN gives it back. */
  lemma MakePfnIdempotent(scheme: string, hostname: string, dir: string, name: string)
    ensures var p := MakePfn(scheme, hostname, dir, name);
      MakePfn(p.scheme, p.hostname, p.dir, p.name) == p
  {
    var p := MakePfn(scheme, hostname, dir, name);
    StripTrimmed(p.scheme);
    StripTrimmed(p.hostname);
    if p.scheme == "root" {
      StripTrimmed(p.dir[1..]);
      assert Rooted(p.dir[1..]) == p.dir;
    } else {
      StripTrimmed(p.dir);
    }
  }

  /** `abspath`: `scheme://hostname/` and the directory joined with the name. */
  function AbsPath(p: Pfn): string
  {
    p.scheme + "://" + p.hostname + "/" + Paths.Join(p.dir, p.name)
  }

  /** `dirname`: the directory part of the absolute path. */
  function DirName(p: Pfn): string
  {
    Paths.Dirname(AbsPath(p))
  }

  /**
    `fromabspath`: the scheme before the first `://`, the host up to the next '/', the name
    after the last '/', the segments in between as directory; None where the path has no
    `://` and indexing the split raises.
   */
  function FromAbsPath(abspath: string): Option<Pfn>
  {
    var pieces := Split(abspath, "://");
    if |pieces| < 2 then None else Some(FromRest(pieces[0], pieces[1]))
  }

  /** The PFN of a scheme and the text after its `://`. */
  function FromRest(scheme: string, rest: string): Pfn
  {
    var segs := Split(rest, "/");
    var inner := Join(if |segs| >= 2 then segs[1..|segs| - 1] else [], "/");
    MakePfn(scheme, segs[0], if scheme == "root" then inner else "/" + inner, segs[|segs| - 1])
  }

  /** A `root` PFN has a double slash after the host; another with an empty directory is `scheme://host/name`. */
  lemma AbsPathShape(p: Pfn)
    requires p.name == [] || p.name[0] != '/'
    ensures p.scheme == "root" && p.dir == "/" ==> AbsPath(p) == p.scheme + "://" + p.hostname + "//" + p.name
    ensures p.scheme != "root" && p.dir == [] ==> AbsPath(p) == p.scheme + "://" + p.hostname + "/" + p.name
  {
  }

  /** The host and path after `://`, laid out by the four shapes of the directory. */
  function Rest(hostname: string, root: bool, core: string, name: string): string
  {
    hostname + (if root then "//" else "/") + (if core == [] then name else core + "/" + name)
  }

  lemma AbsPathRest(p: Pfn, core: string)
    requires Trimmed(core) && '/' !in p.name
    requires p.dir == if p.scheme == "root" then Rooted(core) else core
    ensures AbsPath(p) == p.scheme + "://" + Rest(p.hostname, p.scheme == "root", core, p.name)
  {
    if p.scheme == "root" && core != [] {
      assert p.dir[|p.dir| - 1] == core[|core| - 1];
    }
  }

  /** The three characters of `://` at `j`. */
  lemma OccursAtSeparator(r: string, j: int)
    ensures OccursAt(r, "://", j) ==> 0 <= j && j + 2 < |r| && r[j] == ':' && r[j + 1] == '/' && r[j + 2] == '/'
  {
    if OccursAt(r, "://", j) {
      var w := r[j..j + 3];
      assert w[0] == r[j] && w[1] == r[j + 1] && w[2] == r[j + 2];
    }
  }

  /**
    A host without '/' followed by text without ':' that starts with '/' holds no `://`,
    unless the host ends in ':' and the text starts with two slashes.
   */
  lemma HostTailNoSeparator(h: string, tail: string)
    requires '/' !in h && ':' !in tail && |tail| >= 1 && tail[0] == '/'
    requires |tail| >= 2 && tail[1] == '/' && h != [] ==> h[|h| - 1] != ':'
    ensures Find(h + tail, "://").None?
  {
    var r := h + tail;
    forall j | 0 <= j && j + 2 < |r|
      ensures !(r[j] == ':' && r[j + 1] == '/' && r[j + 2] == '/')
    {
      if j + 1 < |h| {
        assert r[j + 1] == h[j + 1];
      } else if j + 1 == |h| {
        assert r[j] == h[j] && r[j + 2] == tail[1];
      } else {
        assert r[j] == tail[j - |h|];
      }
    }
    forall j ensures !OccursAt(r, "://", j) {
      OccursAtSeparator(r, j);
    }
  }

  /** The rest holds no `://`: its ':' are the host's only, and that is followed by one '/' unless a `root` host ends in ':'. */
  lemma RestNoSeparator(hostname: string, root: bool, core: string, name: string)
    requires '/' !in hostname && ':' !in core && ':' !in name && '/' !in name
    requires Trimmed(core)
    requires root && hostname != [] ==> hostname[|hostname| - 1] != ':'
    ensures Find(Rest(hostname, root, core, name), "://").None?
  {
    var body := if core == [] then name else core + "/" + name;
    var tail := (if root then "//" else "/") + body;
    assert Rest(hostname, root, core, name) == hostname + tail;
    assert ':' !in body;
    assert !root ==> body == [] || body[0] != '/';
    HostTailNoSeparator(hostname, tail);
  }

  /** The '/'-segments of the directory and name after the host. */
  lemma BodySegments(core: string, name: string)
    requires '/' !in name
    ensures Split(if core == [] then name else core + "/" + name, "/")
      == (if core == [] then [] else Split(core, "/")) + [name]
  {
    if core == [] {
      SplitSingle(name, "/");
    } else {
      SplitAppendPiece(core, '/', name);
    }
  }

  lemma Regroup(a: seq<string>, b: seq<string>, c: seq<string>, d: seq<string>)
    ensures a + (b + (c + d)) == a + (b + c) + d
    ensures a + (c + d) == a + c + d
  {
  }

  /** The segments `fromabspath` finds between the host and the name. */
  function Mid(root: bool, core: string): seq<string>
  {
    (if root then [""] else []) + (if core == [] then [] else Split(core, "/"))
  }

  /** The '/'-segments of the rest: the host, an empty segment for `root`, the directory's segments, the name. */
  lemma RestSegments(hostname: string, root: bool, core: string, name: string)
    requires '/' !in hostname && '/' !in name
    ensures Split(Rest(hostname, root, core, name), "/") == [hostname] + Mid(root, core) + [name]
  {
    var body := if core == [] then name else core + "/" + name;
    var c := if core == [] then [] else Split(core, "/");
    BodySegments(core, name);
    if root {
      assert Rest(hostname, root, core, name) == hostname + "//" + body;
      RootedSplit(hostname, body);
      assert Mid(root, core) == [""] + c;
      Regroup([hostname], [""], c, [name]);
    } else {
      assert Rest(hostname, root, core, name) == hostname + "/" + body;
      SplitCons(hostname, "/", body);
      assert Mid(root, core) == c;
      Regroup([hostname], [], c, [name]);
      assert [] + c == c;
    }
  }

  /** A doubled separator after the host leaves an empty segment. */
  lemma RootedSplit(hostname: string, body: string)
    requires '/' !in hostname
    ensures Split(hostname + "//" + body, "/") == [hostname] + ([""] + Split(body, "/"))
  {
    assert "//" == "/" + "/";
    Regroup3(hostname, "/", "/", body);
    SplitCons(hostname, "/", "/" + body);
    EmptyHead("/", body);
    SplitCons("", "/", body);
  }

  /** The segments between host and name join back to the directory as `fromabspath` receives it. */
  lemma InnerJoin(root: bool, core: string)
    ensures Join(Mid(root, core), "/") == if root && core != [] then "/" + core else core
  {
    if core != [] {
      JoinSplit(core, "/");
      if root {
        JoinCons("", Split(core, "/"), "/");
      } else {
        assert Mid(root, core) == Split(core, "/");
      }
    }
  }

  /** Splitting on `://` after a scheme without ':' and before a rest without `://`. */
  lemma FromAbsPathRest(scheme: string, rest: string)
    requires ':' !in scheme && Find(rest, "://").None?
    ensures FromAbsPath(scheme + "://" + rest) == Some(FromRest(scheme, rest))
  {
    SplitCons(scheme, "://", rest);
    assert Split(rest, "://") == [rest];
    var pieces := Split(scheme + "://" + rest, "://");
    assert pieces == [scheme, rest];
  }

  /** The parts `fromabspath` reads off a rest laid out by `Rest`. */
  lemma FromRestOf(scheme: string, hostname: string, core: string, name: string)
    requires '/' !in hostname && '/' !in name
    ensures var inner := if scheme == "root" && core != [] then "/" + core else core;
      FromRest(scheme, Rest(hostname, scheme == "root", core, name))
      == MakePfn(scheme, hostname, if scheme == "root" then inner else "/" + inner, name)
  {
    var root := scheme == "root";
    RestSegments(hostname, root, core, name);
    var mid := Mid(root, core);
    var segs := Split(Rest(hostname, root, core, name), "/");
    assert segs[0] == hostname && segs[|segs| - 1] == name;
    assert segs[1..|segs| - 1] == mid;
    InnerJoin(root, core);
  }

  /**
    Parsing the absolute path gives the PFN back, when the scheme holds neither ':' nor '/',
    the host and the name no '/', the directory and the name no ':', and a `root` host does
    not end in ':' (so that no second `://` appears).
   */
  lemma AbsPathRoundTrip(scheme: string, hostname: string, dir: string, name: string)
    requires ':' !in scheme && '/' !in scheme && '/' !in hostname && '/' !in name
    requires ':' !in dir && ':' !in name
    requires scheme == "root" && hostname != [] ==> hostname[|hostname| - 1] != ':'
    ensures FromAbsPath(AbsPath(MakePfn(scheme, hostname, dir, name))) == Some(MakePfn(scheme, hostname, dir, name))
  {
    var core := StripSlashes(dir);
    MakePfnParts(scheme, hostname, dir, name);
    StripSlashesTrimmed(dir);
    StripSlashesKeeps(dir, ':');
    NormalRoundTrip(scheme, hostname, core, name);
  }

  /** The constructor keeps parts that are already normal, and strips the directory. */
  lemma MakePfnParts(scheme: string, hostname: string, dir: string, name: string)
    requires '/' !in scheme && '/' !in hostname && '/' !in name
    ensures MakePfn(scheme, hostname, dir, name)
      == Pfn(scheme, hostname, if scheme == "root" then Rooted(StripSlashes(dir)) else StripSlashes(dir), name)
  {
    NoSlashTrimmed(scheme);
    NoSlashTrimmed(hostname);
    StripTrimmed(scheme);
    StripTrimmed(hostname);
    if name != [] {
      assert name[0] in name;
      LStripKeeps(name, {'/'});
    }
  }

  /** A string not starting with a stripped character is its own left strip. */
  lemma LStripKeeps(s: string, cs: set<char>)
    requires s == [] || s[0] !in cs
    ensures LStrip(s, cs) == s
  {
  }

  /** A string without '/' has none at either end. */
  lemma NoSlashTrimmed(s: string)
    requires '/' !in s
    ensures Trimmed(s)
  {
    if s != [] {
      assert s[0] in s && s[|s| - 1] in s;
    }
  }

  /** The round trip for a PFN whose parts are already normal. */
  lemma NormalRoundTrip(scheme: string, hostname: string, core: string, name: string)
    requires ':' !in scheme && '/' !in scheme && '/' !in hostname && '/' !in name
    requires ':' !in core && ':' !in name && Trimmed(core)
    requires scheme == "root" && hostname != [] ==> hostname[|hostname| - 1] != ':'
    ensures var p := Pfn(scheme, hostname, if scheme == "root" then Rooted(core) else core, name);
      FromAbsPath(AbsPath(p)) == Some(p)
  {
    var root := scheme == "root";
    var p := Pfn(scheme, hostname, if root then Rooted(core) else core, name);
    var rest := Rest(hostname, root, core, name);
    AbsPathRest(p, core);
    RestNoSeparator(hostname, root, core, name);
    FromAbsPathRest(scheme, rest);
    FromRestOf(scheme, hostname, core, name);
    var inner := if root && core != [] then "/" + core else core;
    var d := if root then inner else "/" + inner;
    SameDir(root, core);
    MakePfnParts(scheme, hostname, d, name);
  }

  /** The directory `fromabspath` rebuilds normalises to the original one. */
  lemma SameDir(root: bool, core: string)
    requires Trimmed(core)
    ensures var inner := if root && core != [] then "/" + core else core;
      var d := if root then inner else "/" + inner;
      StripSlashes(d) == core && (root ==> Rooted(StripSlashes(d)) == Rooted(core))
  {
    StripTrimmed(core);
  }

  /** The dirname is the absolute path's directory part with its trailing slashes removed. */
  lemma DirNameMeans(p: Pfn)
    requires '/' !in p.name
    ensures DirName(p) == RStrip(p.scheme + "://" + p.hostname + "/" + p.dir, {'/'})
  {
    var d := p.scheme + "://" + p.hostname + "/" + p.dir;
    var prefix := p.scheme + "://" + p.hostname + "/";
    assert d == prefix + p.dir;
    assert AbsPath(p) == Paths.Join(d, p.name) by {
      if p.dir == [] {
        assert d == prefix;
      } else {
        assert d[|d| - 1] == p.dir[|p.dir| - 1];
      }
    }
    assert RStrip(d, {'/'}) != [] by {
      assert d[|p.scheme|] == ':';
    }
    Paths.DirnameJoin(d, p.name);
  }
}
