/**
  The task `TestUploadNondeterministic` (src/tasks/tests/upload_nondeterministic.py):
  spoof a grid of local files and PFNs, copy each file to its PFN on the RSE, and store
  the list of copied PFNs and their DIDs next to them for the register task.
  The storage calls become a log of actions.
 */
module UploadNondeterministic {
  import opened Wrappers
  import opened Text
  import Paths
  import opened Pfns
  import opened Cells
  import opened Tasks
  import opened FileLists
  import LfnPfnSpoofer

  /** The task's kwargs; None is a missing key. */
  datatype Kwargs = Kwargs(
    rse: Option<string>,
    spooferClassName: Option<string>,
    spooferKwargs: Option<LfnPfnSpoofer.SpoofArgs>,
    scheme: Option<string>,
    hostname: Option<string>,
    prefix: Option<string>,
    scope: Option<string>,
    filelistDir: Option<string>)

  predicate Complete(k: Kwargs)
  {
    k.rse.Some? && k.spooferClassName.Some? && k.spooferKwargs.Some? && k.scheme.Some? && k.hostname.Some?
    && k.prefix.Some? && k.scope.Some? && k.filelistDir.Some?
  }

  /** All kwargs present and the configured protocol offered by the RSE. */
  predicate Supported(k: Kwargs, protocols: seq<Protocol>)
  {
    Complete(k) && Protocol(k.scheme.value, k.hostname.value, k.prefix.value) in protocols
  }

  /** The selected protocol, `scheme://hostname` + prefix. */
  function Selected(k: Kwargs): string
    requires Complete(k)
  {
    k.scheme.value + "://" + k.hostname.value + k.prefix.value
  }

  /** One storage call: `gfal.mkdir_rec(path, 775)` or `gfal.filecopy(params, src, dst)`. */
  datatype Action = MkdirRec(path: string) | FileCopy(src: string, dst: string)

  /** What `getattr` finds under the requested name in the spoofer module. */
  datatype Lookup = TestingSpoofer | OtherAttribute | NoAttribute

  const TestingClass := "LFNPFNSpoofer_SKAO_Testing_v1"

  /** The names every module object has: its own globals and those of `types.ModuleType`. */
  const ModuleDunders: set<string> :=
    {"__name__", "__doc__", "__package__", "__loader__", "__spec__", "__file__", "__cached__",
     "__builtins__", "__dict__", "__class__", "__delattr__", "__dir__", "__eq__", "__format__",
     "__ge__", "__getattribute__", "__gt__", "__hash__", "__init__", "__init_subclass__", "__le__",
     "__lt__", "__ne__", "__new__", "__reduce__", "__reduce_ex__", "__repr__", "__setattr__",
     "__sizeof__", "__str__", "__subclasshook__"}

  /** The names the spoofer module defines or imports, and those every module has. */
  const ModuleAttributes: set<string> :=
    {"LFNPFNSpoofer", TestingClass, "LFN", "PFN", "abstractmethod", "datetime", "os", "uuid",
     "generateRandomFile"} + ModuleDunders

  /**
    Only the testing spoofer can be built and used; any other attribute of the module fails
    when called with the spoofer's arguments, and a name the module lacks is an AttributeError.
   */
  function LookupClass(name: string): (r: Lookup)
    ensures r == TestingSpoofer <==> name == TestingClass
    ensures r == NoAttribute <==> name !in ModuleAttributes
    ensures name in ModuleDunders ==> r == OtherAttribute
  {
    if name == TestingClass then TestingSpoofer
    else if name in ModuleAttributes then OtherAttribute
    else NoAttribute
  }

  /** The pairs a fresh spoofer holds after `spoof(kwargs)`: none when a key is missing. */
  function SpoofedPairs(a: LfnPfnSpoofer.SpoofArgs, scheme: string, hostname: string, prefix: string, scope: string,
                        stamp: Cell -> string, uuid: Cell -> string, localFile: nat -> string): seq<(string, Pfn)>
  {
    if !LfnPfnSpoofer.Complete(a) then []
    else
      LfnPfnSpoofer.NewPairs(LfnPfnSpoofer.PfnOf(scheme, hostname, scope, prefix, a.testDirPrefix.value, stamp, uuid),
                             localFile, a.nProjects.value, a.nDatasetsPerProject.value, a.nFilesPerDataset.value)
  }

  /** The two calls for one pair: make the PFN's directory, then copy the local file to it. */
  function CopyOf(pair: (string, Pfn)): seq<Action>
  {
    [MkdirRec(DirName(pair.1)), FileCopy("file://" + pair.0, AbsPath(pair.1))]
  }

  /** The calls for every pair, in order. */
  function Copies(pairs: seq<(string, Pfn)>): seq<Action>
  {
    if pairs == [] then [] else Copies(pairs[..|pairs| - 1]) + CopyOf(pairs[|pairs| - 1])
  }

  /** Pair `i` gives actions `2i` and `2i + 1`: its directory, then its copy. */
  lemma {:induction false} CopiesAt(pairs: seq<(string, Pfn)>)
    ensures |Copies(pairs)| == 2 * |pairs|
    ensures forall i :: 0 <= i < |pairs| ==>
      Copies(pairs)[2 * i] == CopyOf(pairs[i])[0] && Copies(pairs)[2 * i + 1] == CopyOf(pairs[i])[1]
  {
    if pairs != [] {
      var n := |pairs| - 1;
      var c := Copies(pairs[..n]);
      CopiesAt(pairs[..n]);
      assert Copies(pairs) == c + CopyOf(pairs[n]);
      forall i | 0 <= i < |pairs|
        ensures Copies(pairs)[2 * i] == CopyOf(pairs[i])[0] && Copies(pairs)[2 * i + 1] == CopyOf(pairs[i])[1]
      {
        if i < n {
          assert pairs[..n][i] == pairs[i];
          assert Copies(pairs)[2 * i] == c[2 * i] && Copies(pairs)[2 * i + 1] == c[2 * i + 1];
        } else {
          assert 2 * i == |c|;
        }
      }
    }
  }

  /** Where the list is stored: `os.path.join(selected, filelist_dir, "run_<timestamp>")`. */
  function ListPath(selected: string, filelistDir: string, startStamp: string): string
  {
    Paths.JoinAll([selected, filelistDir, "run_" + startStamp])
  }

  /**
    The list is the file `run_<timestamp>` of the directory the task creates for it just
    before the copy.
   */
  lemma ListPathIn(selected: string, filelistDir: string, startStamp: string)
    requires '/' !in startStamp && RStrip(Paths.Join(selected, filelistDir), {'/'}) != []
    ensures Paths.Basename(ListPath(selected, filelistDir, startStamp)) == "run_" + startStamp
    ensures Paths.Dirname(ListPath(selected, filelistDir, startStamp))
      == RStrip(Paths.Join(selected, filelistDir), {'/'})
  {
    var parts := [selected, filelistDir, "run_" + startStamp];
    assert parts[..2][..1] == [selected];
    assert Paths.JoinAll(parts[..2]) == Paths.Join(selected, filelistDir);
    assert Paths.JoinAll(parts) == Paths.Join(Paths.Join(selected, filelistDir), "run_" + startStamp);
    Paths.BasenameJoin(Paths.Join(selected, filelistDir), "run_" + startStamp);
    Paths.DirnameJoin(Paths.Join(selected, filelistDir), "run_" + startStamp);
  }

  /** Copying one more pair adds its two actions. */
  lemma CopiesSnoc(pairs: seq<(string, Pfn)>, i: nat)
    requires i < |pairs|
    ensures Copies(pairs[..i + 1]) == Copies(pairs[..i]) + CopyOf(pairs[i])
    ensures LfnPfnSpoofer.Seconds(pairs[..i + 1]) == LfnPfnSpoofer.Seconds(pairs[..i]) + [pairs[i].1]
  {
    assert pairs[..i + 1][..i] == pairs[..i];
  }

  /**
    `run(args, kwargs)`, with `protocols` what the RSE offers, `startStamp` the timestamp
    the list is named after, `stamp`, `uuid` and `localFile` what the spoofer draws, and
    `tmpName` the local list's name. A missing kwarg, an unsupported protocol or a name
    the module lacks returns False before any storage call; another attribute raises.
    Otherwise the pairs are uploaded in order and the list of their PFNs written after
    them, into its own directory. An empty mapping raises when it is unpacked.
   */
  method Run(k: Kwargs, protocols: seq<Protocol>, startStamp: string, stamp: Cell -> string, uuid: Cell -> string,
             localFile: nat -> string, tmpName: string)
    returns (end: Ending, actions: seq<Action>, list: string)
    ensures !Supported(k, protocols) ==> end == ReturnedFalse && actions == []
    ensures Supported(k, protocols) && LookupClass(k.spooferClassName.value) == NoAttribute ==>
      end == ReturnedFalse && actions == []
    ensures Supported(k, protocols) && LookupClass(k.spooferClassName.value) == OtherAttribute ==>
      end == Raising && actions == []
    ensures Supported(k, protocols) && LookupClass(k.spooferClassName.value) == TestingSpoofer ==>
      var pairs := SpoofedPairs(k.spooferKwargs.value, k.scheme.value, k.hostname.value, k.prefix.value,
                                k.scope.value, stamp, uuid, localFile);
      (pairs == [] ==> end == Raising && actions == [])
      && (pairs != [] ==>
            end == Finished
            && list == FileListText(k.scope.value, LfnPfnSpoofer.Seconds(pairs))
            && actions == Copies(pairs)
                          + [MkdirRec(Paths.Join(Selected(k), k.filelistDir.value)),
                             FileCopy("file://" + tmpName, ListPath(Selected(k), k.filelistDir.value, startStamp))])
  {
    if !Complete(k) {
      return ReturnedFalse, [], [];
    }
    var scheme, hostname, prefix, scope := k.scheme.value, k.hostname.value, k.prefix.value, k.scope.value;
    var selected := SelectProtocol(protocols, scheme, hostname, prefix);
    if selected.None? {
      return ReturnedFalse, [], [];
    }
    var cls := LookupClass(k.spooferClassName.value);
    if cls == NoAttribute {
      return ReturnedFalse, [], [];
    } else if cls == OtherAttribute {
      return Raising, [], [];
    }
    var spoofer := new LfnPfnSpoofer.Spoofer(scheme, hostname, prefix, scope);
    var ignored := spoofer.Spoof(k.spooferKwargs.value, stamp, uuid, localFile);
    ghost var m := SpoofedPairs(k.spooferKwargs.value, scheme, hostname, prefix, scope, stamp, uuid, localFile);
    assert spoofer.mapping == m;
    list := HeaderLine + "\n";
    var lfns, pfns := spoofer.Lfns(), spoofer.Pfns();
    if lfns.Raised? || pfns.Raised? {
      return Raising, [], list;
    }
    var pairs := LfnPfnSpoofer.Zip(lfns.value, pfns.value);
    LfnPfnSpoofer.ZipComponents(m);
    actions := [];
    var i := 0;
    while i < |pairs|
      invariant 0 <= i <= |pairs|
      invariant actions == Copies(pairs[..i])
      invariant list == FileListText(scope, LfnPfnSpoofer.Seconds(pairs[..i]))
    {
      var (lfn, pfn) := pairs[i];
      actions := actions + [MkdirRec(DirName(pfn)), FileCopy("file://" + lfn, AbsPath(pfn))];
      list := list + FileLine(scope, pfn) + "\n";
      CopiesSnoc(pairs, i);
      ContentSnoc(scope, LfnPfnSpoofer.Seconds(pairs[..i]), pfn);
      i := i + 1;
    }
    assert pairs[..i] == pairs == m;
    actions := actions + [MkdirRec(Paths.Join(selected.value, k.filelistDir.value)),
                          FileCopy("file://" + tmpName, ListPath(selected.value, k.filelistDir.value, startStamp))];
    end := Finished;
  }

  // ---------------------------------------------------------------- the list round trip

  /** No tab, newline or carriage return. */
  predicate Clean(s: string)
  {
    '\t' !in s && '\n' !in s && '\r' !in s
  }

  /**
    Configuration and draws under which every spoofed PFN is listable: no line breaks or
    tabs anywhere; no ':' in the scheme, the scope, the prefix, the test-directory prefix,
    the timestamps or the UUIDs; no '/' in the scheme, the host or the UUIDs; a scheme not
    starting with '#'; and no `root` host ending in ':'.
   */
  ghost predicate PlainInputs(scheme: string, hostname: string, scope: string, prefix: string, testDirPrefix: string,
                        stamp: Cell -> string, uuid: Cell -> string)
  {
    Clean(scheme) && Clean(hostname) && Clean(scope) && Clean(prefix) && Clean(testDirPrefix)
    && ':' !in scheme && ':' !in scope && ':' !in prefix && ':' !in testDirPrefix
    && '/' !in scheme && '/' !in hostname
    && (scheme == [] || scheme[0] != '#')
    && (scheme == "root" && hostname != [] ==> hostname[|hostname| - 1] != ':')
    && (forall c: Cell :: Clean(stamp(c)) && ':' !in stamp(c))
    && (forall c: Cell :: Clean(uuid(c)) && ':' !in uuid(c) && '/' !in uuid(c))
  }

  /** A character kept out of every configured part is kept out of the spoofed directory. */
  lemma SpoofedDirAvoids(scope: string, prefix: string, testDirPrefix: string, st: string, c: Cell, ch: char)
    requires ch in {'\t', '\n', '\r', ':'}
    requires ch !in scope && ch !in prefix && ch !in testDirPrefix && ch !in st
    ensures ch !in LfnPfnSpoofer.SpoofedDir(scope, prefix, testDirPrefix, st, c)
  {
    var parts := [scope, prefix, testDirPrefix + "_" + st, "project" + NatToString(c.pi),
                  "dataset" + NatToString(c.di)];
    var np, nd := NatToString(c.pi), NatToString(c.di);
    assert ch !in np && ch !in nd;
    Paths.JoinAllAvoids(parts, ch);
  }

  /** The name `<fi>_<uuid>` keeps out what the UUID keeps out. */
  lemma SpoofedNameAvoids(fi: nat, u: string, ch: char)
    requires ch in {'\t', '\n', '\r', ':', '/'} && ch !in u
    ensures ch !in LfnPfnSpoofer.SpoofedName(fi, u)
  {
    var n := NatToString(fi);
    assert ch !in n;
  }

  /** A PFN built from parts free of the characters the list format reserves is listable. */
  lemma MakePfnListable(scope: string, scheme: string, hostname: string, dir: string, name: string)
    requires Clean(scope) && Clean(scheme) && Clean(hostname) && Clean(dir) && Clean(name)
    requires ':' !in scheme && ':' !in dir && ':' !in name
    requires '/' !in scheme && '/' !in hostname && '/' !in name
    requires scheme == [] || scheme[0] != '#'
    requires scheme == "root" && hostname != [] ==> hostname[|hostname| - 1] != ':'
    ensures Listable(scope, MakePfn(scheme, hostname, dir, name))
  {
    var core := StripSlashes(dir);
    MakePfnParts(scheme, hostname, dir, name);
    MakePfnIdempotent(scheme, hostname, dir, name);
    StripSlashesKeeps(dir, '\t');
    StripSlashesKeeps(dir, '\n');
    StripSlashesKeeps(dir, '\r');
    StripSlashesKeeps(dir, ':');
    PlainParts(scope, scheme, hostname, core, name);
  }

  /** Parts without '/' pass through the constructor unchanged, and the directory is stripped. */
  lemma MakePfnParts(scheme: string, hostname: string, dir: string, name: string)
    requires '/' !in scheme && '/' !in hostname && '/' !in name
    ensures MakePfn(scheme, hostname, dir, name)
      == Pfn(scheme, hostname, if scheme == "root" then "/" + StripSlashes(dir) else StripSlashes(dir), name)
  {
    NoSlash(scheme);
    NoSlash(hostname);
    NoSlash(name);
  }

  lemma NoSlash(s: string)
    requires '/' !in s
    ensures StripSlashes(s) == s && LStrip(s, {'/'}) == s
  {
    StripTrimmed(s);
  }

  lemma PlainParts(scope: string, scheme: string, hostname: string, core: string, name: string)
    requires Clean(scope) && Clean(scheme) && Clean(hostname) && Clean(core) && Clean(name)
    requires ':' !in scheme && ':' !in core && ':' !in name
    requires '/' !in scheme && '/' !in hostname && '/' !in name
    requires scheme == [] || scheme[0] != '#'
    requires scheme == "root" && hostname != [] ==> hostname[|hostname| - 1] != ':'
    ensures Plain(scope, Pfn(scheme, hostname, if scheme == "root" then "/" + core else core, name))
  {
  }

  /** Under plain inputs, the PFN of every cell is one whose line reads back as written. */
  lemma SpoofedListable(scheme: string, hostname: string, scope: string, prefix: string, testDirPrefix: string,
                        stamp: Cell -> string, uuid: Cell -> string, c: Cell)
    requires PlainInputs(scheme, hostname, scope, prefix, testDirPrefix, stamp, uuid)
    ensures Listable(scope, LfnPfnSpoofer.PfnOf(scheme, hostname, scope, prefix, testDirPrefix, stamp, uuid)(c))
  {
    var dir := LfnPfnSpoofer.SpoofedDir(scope, prefix, testDirPrefix, stamp(c), c);
    var name := LfnPfnSpoofer.SpoofedName(c.fi, uuid(c));
    assert Clean(stamp(c)) && ':' !in stamp(c);
    assert Clean(uuid(c)) && ':' !in uuid(c) && '/' !in uuid(c);
    SpoofedDirAvoids(scope, prefix, testDirPrefix, stamp(c), c, '\t');
    SpoofedDirAvoids(scope, prefix, testDirPrefix, stamp(c), c, '\n');
    SpoofedDirAvoids(scope, prefix, testDirPrefix, stamp(c), c, '\r');
    SpoofedDirAvoids(scope, prefix, testDirPrefix, stamp(c), c, ':');
    SpoofedNameAvoids(c.fi, uuid(c), '\t');
    SpoofedNameAvoids(c.fi, uuid(c), '\n');
    SpoofedNameAvoids(c.fi, uuid(c), '\r');
    SpoofedNameAvoids(c.fi, uuid(c), ':');
    SpoofedNameAvoids(c.fi, uuid(c), '/');
    MakePfnListable(scope, scheme, hostname, dir, name);
  }

  /**
    Every list this task writes for a complete spoof under plain inputs passes the register
    task's parser: a compliant header, then the `i`-th uploaded PFN and `scope:name`.
   */
  lemma UploadedListParses(a: LfnPfnSpoofer.SpoofArgs, scheme: string, hostname: string, prefix: string,
                           scope: string, stamp: Cell -> string, uuid: Cell -> string, localFile: nat -> string)
    requires LfnPfnSpoofer.Complete(a)
    requires PlainInputs(scheme, hostname, scope, prefix, a.testDirPrefix.value, stamp, uuid)
    ensures var ps := LfnPfnSpoofer.Seconds(SpoofedPairs(a, scheme, hostname, prefix, scope, stamp, uuid, localFile));
      var lines := ListLines(FileListText(scope, ps));
      |lines| == |ps| + 1 && ParseLine(lines[0]) == Header
      && forall i :: 0 <= i < |ps| ==> ParseLine(lines[i + 1]) == Entry(ps[i], scope + ":" + ps[i].name)
  {
    var ps := SpoofedPfns(a, scheme, hostname, prefix, scope, stamp, uuid, localFile);
    ListablePfns(scheme, hostname, scope, prefix, a.testDirPrefix.value, stamp, uuid,
                 Grid(a.nProjects.value, a.nDatasetsPerProject.value, a.nFilesPerDataset.value));
    UploadListParses(scope, ps);
  }

  /** The uploaded PFNs are those of the grid's cells, in order. */
  lemma SpoofedPfns(a: LfnPfnSpoofer.SpoofArgs, scheme: string, hostname: string, prefix: string,
                    scope: string, stamp: Cell -> string, uuid: Cell -> string, localFile: nat -> string)
    returns (ps: seq<Pfn>)
    requires LfnPfnSpoofer.Complete(a)
    ensures ps == LfnPfnSpoofer.Seconds(SpoofedPairs(a, scheme, hostname, prefix, scope, stamp, uuid, localFile))
    ensures ps == Map(Grid(a.nProjects.value, a.nDatasetsPerProject.value, a.nFilesPerDataset.value),
                      LfnPfnSpoofer.PfnOf(scheme, hostname, scope, prefix, a.testDirPrefix.value, stamp, uuid))
  {
    var f := LfnPfnSpoofer.PfnOf(scheme, hostname, scope, prefix, a.testDirPrefix.value, stamp, uuid);
    ps := Map(Grid(a.nProjects.value, a.nDatasetsPerProject.value, a.nFilesPerDataset.value), f);
    LfnPfnSpoofer.ComponentsZip(LfnPfnSpoofer.LocalFiles(localFile, |ps|), ps);
  }

  /** Under plain inputs the PFN of every cell of a list of cells is listable. */
  lemma ListablePfns(scheme: string, hostname: string, scope: string, prefix: string, testDirPrefix: string,
                     stamp: Cell -> string, uuid: Cell -> string, cells: seq<Cell>)
    requires PlainInputs(scheme, hostname, scope, prefix, testDirPrefix, stamp, uuid)
    ensures var ps := Map(cells, LfnPfnSpoofer.PfnOf(scheme, hostname, scope, prefix, testDirPrefix, stamp, uuid));
      forall i :: 0 <= i < |ps| ==> Listable(scope, ps[i])
  {
    var f := LfnPfnSpoofer.PfnOf(scheme, hostname, scope, prefix, testDirPrefix, stamp, uuid);
    MapAt(cells, f);
    forall i | 0 <= i < |cells|
      ensures Listable(scope, Map(cells, f)[i])
    {
      SpoofedListable(scheme, hostname, scope, prefix, testDirPrefix, stamp, uuid, cells[i]);
    }
  }
}
