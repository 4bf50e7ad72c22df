/**
  The LFN-to-PFN registry (src/common/rucio/lfn2pfn.py): a list of physical file
  names kept aligned with the list of local files they were made from, the names
  derived from them, and the generic spoofer that fills it with a grid of
  project/dataset/file paths.
 */
module Lfn2Pfn {
  import opened Wrappers
  import opened Seqs
  import opened Text
  import Paths
  import opened Cells
  import Reports

  /** `scope:basename(pfn)`: the DID a PFN is registered under. */
  function Did(scope: string, pfn: string): string
  {
    scope + ":" + Paths.Basename(pfn)
  }

  /** The DID of each PFN, in order. */
  function Dids(scope: string, pfns: seq<string>): seq<string>
  {
    if pfns == [] then [] else Dids(scope, pfns[..|pfns| - 1]) + [Did(scope, pfns[|pfns| - 1])]
  }

  /** The directory of each PFN, in order. */
  function Dirs(pfns: seq<string>): seq<string>
  {
    if pfns == [] then [] else Dirs(pfns[..|pfns| - 1]) + [Paths.Dirname(pfns[|pfns| - 1])]
  }

  /** The file name of each PFN, in order. */
  function Names(pfns: seq<string>): seq<string>
  {
    if pfns == [] then [] else Names(pfns[..|pfns| - 1]) + [Paths.Basename(pfns[|pfns| - 1])]
  }

  lemma {:induction false} NamesAt(pfns: seq<string>)
    ensures |Names(pfns)| == |pfns|
    ensures forall i :: 0 <= i < |pfns| ==> Names(pfns)[i] == Paths.Basename(pfns[i])
  {
    if pfns != [] {
      var n := |pfns| - 1;
      var init := pfns[..n];
      NamesAt(init);
      var w, last := Names(init), Paths.Basename(pfns[n]);
      assert Names(pfns) == w + [last];
      SnocAt(w, last);
      forall i | 0 <= i < n ensures Names(pfns)[i] == Paths.Basename(pfns[i]) {
        assert init[i] == pfns[i];
      }
    }
  }

  lemma {:induction false} DirsAt(pfns: seq<string>)
    ensures |Dirs(pfns)| == |pfns|
    ensures forall i :: 0 <= i < |pfns| ==> Dirs(pfns)[i] == Paths.Dirname(pfns[i])
  {
    if pfns != [] {
      var n := |pfns| - 1;
      var init := pfns[..n];
      DirsAt(init);
      var w, last := Dirs(init), Paths.Dirname(pfns[n]);
      assert Dirs(pfns) == w + [last];
      SnocAt(w, last);
      forall i | 0 <= i < n ensures Dirs(pfns)[i] == Paths.Dirname(pfns[i]) {
        assert init[i] == pfns[i];
      }
    }
  }

  /**
    The derived lists have one entry per PFN, in the PFNs' order, and the i-th DID is
    the scope, a ':' and the i-th file name.
   */
  lemma {:induction false} DidsAt(scope: string, pfns: seq<string>)
    ensures |Dids(scope, pfns)| == |Names(pfns)| == |pfns|
    ensures forall i :: 0 <= i < |pfns| ==> Dids(scope, pfns)[i] == scope + ":" + Names(pfns)[i]
  {
    if pfns != [] {
      var n := |pfns| - 1;
      DidsAt(scope, pfns[..n]);
      NamesAt(pfns);
      NamesAt(pfns[..n]);
    }
  }

  /** One more PFN adds one entry at the end of each derived list. */
  lemma DerivedSnoc(scope: string, pfns: seq<string>, p: string)
    ensures Dids(scope, pfns + [p]) == Dids(scope, pfns) + [Did(scope, p)]
    ensures Dirs(pfns + [p]) == Dirs(pfns) + [Paths.Dirname(p)]
    ensures Names(pfns + [p]) == Names(pfns) + [Paths.Basename(p)]
  {
    assert (pfns + [p])[..|pfns|] == pfns;
  }

  /** The kwargs the generic spoofer reads; `None` is a missing key. */
  datatype SpoofArgs = SpoofArgs(
    testDirPrefix: Option<string>,
    nFiles: Option<nat>,
    nProjects: Option<nat>,
    nDatasets: Option<nat>,
    size: Option<nat>)

  predicate Complete(a: SpoofArgs)
  {
    a.testDirPrefix.Some? && a.nFiles.Some? && a.nProjects.Some? && a.nDatasets.Some? && a.size.Some?
  }

  /**
    The PFN of cell `c`: under `root`, the scope, the run directory, `project<pi>`,
    `dataset<di>` and the base name of the generated file.
   */
  function SpoofedPfn(root: string, scope: string, runDir: string, file: string, c: Cell): string
  {
    Paths.JoinAll([root, scope, runDir, "project" + NatToString(c.pi), "dataset" + NatToString(c.di),
      Paths.Basename(file)])
  }

  /** `SpoofedPfn` for every cell, the file of each cell given by `gen`. */
  function PfnOf(root: string, scope: string, runDir: string, gen: Cell -> string): Cell -> string
  {
    c => SpoofedPfn(root, scope, runDir, gen(c), c)
  }

  /** The base name of a path has no '/'. */
  lemma BasenameNoSlash(p: string)
    ensures '/' !in Paths.Basename(p)
  {
    var n := Paths.AfterLastSlash(p);
    forall i | 0 <= i < |p| - n
      ensures Paths.Basename(p)[i] != '/'
    {
      assert Paths.Basename(p)[i] == p[n + i];
    }
  }

  /** The DID of a spoofed PFN is the scope and the base name of the file it came from. */
  lemma SpoofedDid(root: string, scope: string, runDir: string, file: string, c: Cell)
    ensures Did(scope, SpoofedPfn(root, scope, runDir, file, c)) == scope + ":" + Paths.Basename(file)
  {
    var parts := [root, scope, runDir, "project" + NatToString(c.pi), "dataset" + NatToString(c.di),
      Paths.Basename(file)];
    assert parts[..5][..4] == parts[..4];
    assert Paths.JoinAll(parts) == Paths.Join(Paths.JoinAll(parts[..5]), Paths.Basename(file));
    BasenameNoSlash(file);
    Paths.BasenameJoin(Paths.JoinAll(parts[..5]), Paths.Basename(file));
  }

  /**
    The new entries a spoof adds: `np · nd · nf` of them, and the one at the position of
    cell (pi, di, fi), projects outermost and files innermost, is that cell's PFN and
    generated file.
   */
  lemma SpoofedAt(f: Cell -> string, gen: Cell -> string, np: nat, nd: nat, nf: nat,
                  pi: nat, di: nat, fi: nat)
    requires pi < np && di < nd && fi < nf
    ensures |Map(Grid(np, nd, nf), f)| == |Map(Grid(np, nd, nf), gen)| == (nf * nd) * np
    ensures Reports.Slot(nf * nd, pi, Reports.Slot(nf, di, fi)) < (nf * nd) * np
    ensures Map(Grid(np, nd, nf), f)[Reports.Slot(nf * nd, pi, Reports.Slot(nf, di, fi))] == f(Cell(pi, di, fi))
    ensures Map(Grid(np, nd, nf), gen)[Reports.Slot(nf * nd, pi, Reports.Slot(nf, di, fi))] == gen(Cell(pi, di, fi))
  {
    GridCell(np, nd, nf, pi, di, fi);
    MapAt(Grid(np, nd, nf), f);
    MapAt(Grid(np, nd, nf), gen);
  }

  /** `LFN2PFN`: PFNs and the local files they name, appended in pairs. */
  class Registry {
    const scheme: string
    const hostname: string
    const rsePrefix: string
    const scope: string
    var pfns: seq<string>
    var files: seq<string>

    /** The PFN and the file at each index belong together. */
    ghost predicate Valid()
      reads this
    {
      |pfns| == |files|
    }

    constructor (scheme: string, hostname: string, rsePrefix: string, scope: string)
      ensures this.scheme == scheme && this.hostname == hostname
      ensures this.rsePrefix == rsePrefix && this.scope == scope
      ensures pfns == [] && files == [] && Valid()
    {
      this.scheme := scheme;
      this.hostname := hostname;
      this.rsePrefix := rsePrefix;
      this.scope := scope;
      pfns := [];
      files := [];
    }

    /** `scheme://hostname` followed by the RSE prefix. */
    function Root(): string
    {
      scheme + "://" + hostname + rsePrefix
    }

    /** `insert`: the PFN and its file go at the end of their lists, at the same index. */
    method Insert(file: string, pfn: string)
      modifies this
      ensures pfns == old(pfns) + [pfn] && files == old(files) + [file]
      ensures old(Valid()) ==> Valid() && pfns[|pfns| - 1] == pfn && files[|pfns| - 1] == file
    {
      pfns := pfns + [pfn];
      files := files + [file];
    }

    /** `getDIDsFromPFNs`. */
    method GetDids() returns (dids: seq<string>)
      ensures dids == Dids(scope, pfns)
    {
      dids := [];
      var i := 0;
      while i < |pfns|
        invariant 0 <= i <= |pfns|
        invariant dids == Dids(scope, pfns[..i])
      {
        DerivedSnoc(scope, pfns[..i], pfns[i]);
        TakeSnoc(pfns, i);
        dids := dids + [scope + ":" + Paths.Basename(pfns[i])];
        i := i + 1;
      }
      assert pfns[..i] == pfns;
    }

    /** `getDirectoriesFromPFNs`. */
    method GetDirectories() returns (dirs: seq<string>)
      ensures dirs == Dirs(pfns)
    {
      dirs := [];
      var i := 0;
      while i < |pfns|
        invariant 0 <= i <= |pfns|
        invariant dirs == Dirs(pfns[..i])
      {
        DerivedSnoc(scope, pfns[..i], pfns[i]);
        TakeSnoc(pfns, i);
        dirs := dirs + [Paths.Dirname(pfns[i])];
        i := i + 1;
      }
      assert pfns[..i] == pfns;
    }

    /** `getFilenamesFromPFNs`. */
    method GetFilenames() returns (names: seq<string>)
      ensures names == Names(pfns)
    {
      names := [];
      var i := 0;
      while i < |pfns|
        invariant 0 <= i <= |pfns|
        invariant names == Names(pfns[..i])
      {
        DerivedSnoc(scope, pfns[..i], pfns[i]);
        TakeSnoc(pfns, i);
        names := names + [Paths.Basename(pfns[i])];
        i := i + 1;
      }
      assert pfns[..i] == pfns;
    }

    /** The middle loop of the spoofer: every dataset of project `pi`, in order. */
    method InsertProject(pi: nat, nd: nat, nf: nat, f: Cell -> string, gen: Cell -> string)
      modifies this
      ensures pfns == old(pfns) + Map(Block(pi, nd, nf), f)
      ensures files == old(files) + Map(Block(pi, nd, nf), gen)
    {
      ghost var pg, fg := pfns, files;
      var di := 0;
      while di < nd
        invariant 0 <= di <= nd
        invariant pfns == pg + Map(Block(pi, di, nf), f)
        invariant files == fg + Map(Block(pi, di, nf), gen)
      {
        InsertDataset(pi, di, nf, f, gen);
        BlockStep(pg, pi, di, nf, f);
        BlockStep(fg, pi, di, nf, gen);
        di := di + 1;
      }
    }

    /** The inner loop of the spoofer: every file of dataset `di` of project `pi`, in order. */
    method InsertDataset(pi: nat, di: nat, nf: nat, f: Cell -> string, gen: Cell -> string)
      modifies this
      ensures pfns == old(pfns) + Map(Row(pi, di, nf), f)
      ensures files == old(files) + Map(Row(pi, di, nf), gen)
    {
      ghost var pb, fb := pfns, files;
      var fi := 0;
      while fi < nf
        invariant 0 <= fi <= nf
        invariant pfns == pb + Map(Row(pi, di, fi), f)
        invariant files == fb + Map(Row(pi, di, fi), gen)
      {
        var c := Cell(pi, di, fi);
        Insert(gen(c), f(c));
        RowStep(pb, pi, di, fi, f);
        RowStep(fb, pi, di, fi, gen);
        fi := fi + 1;
      }
    }

    /** The outer loop of the spoofer: every project's datasets, in order. */
    method InsertGrid(np: nat, nd: nat, nf: nat, f: Cell -> string, gen: Cell -> string)
      modifies this
      ensures pfns == old(pfns) + Map(Grid(np, nd, nf), f)
      ensures files == old(files) + Map(Grid(np, nd, nf), gen)
    {
      ghost var p0, f0 := pfns, files;
      var pi := 0;
      while pi < np
        invariant 0 <= pi <= np
        invariant pfns == p0 + Map(Grid(pi, nd, nf), f)
        invariant files == f0 + Map(Grid(pi, nd, nf), gen)
      {
        InsertProject(pi, nd, nf, f, gen);
        GridStep(p0, pi, nd, nf, f);
        GridStep(f0, pi, nd, nf, gen);
        pi := pi + 1;
      }
    }

    /**
      The body of `LFN2PFN_SKAO_SpoofGeneric`'s constructor. With a key missing, the
      handler uses a logger the class never sets, so the call raises and nothing is
      inserted. Otherwise one pair per cell of the project × dataset × file grid is
      appended, projects outermost; `gen` is the random file made for each cell and
      `timestamp` the one stamp the whole run shares.
     */
    method SpoofGeneric(args: SpoofArgs, timestamp: string, gen: Cell -> string) returns (raised: bool)
      modifies this
      ensures raised == !Complete(args)
      ensures raised ==> pfns == old(pfns) && files == old(files)
      ensures !raised ==>
        var runDir := args.testDirPrefix.value + "_" + timestamp;
        var cells := Grid(args.nProjects.value, args.nDatasets.value, args.nFiles.value);
        pfns == old(pfns) + Map(cells, PfnOf(Root(), scope, runDir, gen))
        && files == old(files) + Map(cells, gen)
      ensures old(Valid()) ==> Valid()
    {
      if !Complete(args) {
        return true;
      }
      raised := false;
      var runDir := args.testDirPrefix.value + "_" + timestamp;
      var np, nd, nf := args.nProjects.value, args.nDatasets.value, args.nFiles.value;
      var f := PfnOf(Root(), scope, runDir, gen);
      InsertGrid(np, nd, nf, f, gen);
      MapAt(Grid(np, nd, nf), f);
      MapAt(Grid(np, nd, nf), gen);
    }
  }
}
