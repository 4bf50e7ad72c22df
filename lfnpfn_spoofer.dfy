/**
  The LFN/PFN spoofer (src/common/rucio/lfnpfn_spoofer.py): a mapping of local files
  (LFNs, modelled by their paths) to the PFNs they are to be uploaded to, and
  `LFNPFNSpoofer_SKAO_Testing_v1.spoof`, which appends a project × dataset × file grid
  of fresh pairs to it.
 */
module LfnPfnSpoofer {
  import opened Wrappers
  import opened Text
  import Paths
  import opened Cells
  import opened Pfns
  import Reports

  /** Python's `zip`: pairs up to the shorter of the two lists. */
  function Zip(ls: seq<string>, ps: seq<Pfn>): (r: seq<(string, Pfn)>)
  {
    var n := if |ls| <= |ps| then |ls| else |ps|;
    seq(n, i requires 0 <= i < n => (ls[i], ps[i]))
  }

  /** The first components of the pairs (`lfns, _ = zip(*mapping)`). */
  function Firsts(m: seq<(string, Pfn)>): seq<string>
  {
    if m == [] then [] else Firsts(m[..|m| - 1]) + [m[|m| - 1].0]
  }

  /** The second components of the pairs (`_, pfns = zip(*mapping)`). */
  function Seconds(m: seq<(string, Pfn)>): seq<Pfn>
  {
    if m == [] then [] else Seconds(m[..|m| - 1]) + [m[|m| - 1].1]
  }

  /** Both component lists have one entry per pair, in the pairs' order. */
  lemma {:induction false} ComponentsAt(m: seq<(string, Pfn)>)
    ensures |Firsts(m)| == |Seconds(m)| == |m|
    ensures forall i :: 0 <= i < |m| ==> Firsts(m)[i] == m[i].0 && Seconds(m)[i] == m[i].1
  {
    if m != [] {
      ComponentsAt(m[..|m| - 1]);
    }
  }

  /** Splitting a mapping into its two lists and zipping them again gives it back. */
  lemma ZipComponents(m: seq<(string, Pfn)>)
    ensures Zip(Firsts(m), Seconds(m)) == m
  {
    ComponentsAt(m);
  }

  /** Zipping two lists of one length and splitting the result gives them back. */
  lemma ComponentsZip(ls: seq<string>, ps: seq<Pfn>)
    requires |ls| == |ps|
    ensures Firsts(Zip(ls, ps)) == ls && Seconds(Zip(ls, ps)) == ps
  {
    ComponentsAt(Zip(ls, ps));
  }

  /** The kwargs `spoof` reads; `None` is a missing key. */
  datatype SpoofArgs = SpoofArgs(
    nDatasetsPerProject: Option<nat>,
    nFilesPerDataset: Option<nat>,
    nProjects: Option<nat>,
    size: Option<nat>,
    testDirPrefix: Option<string>)

  predicate Complete(a: SpoofArgs)
  {
    a.nDatasetsPerProject.Some? && a.nFilesPerDataset.Some? && a.nProjects.Some? && a.size.Some?
    && a.testDirPrefix.Some?
  }

  /** `scope/prefix/<test_dir_prefix>_<stamp>/project<pi>/dataset<di>`. */
  function SpoofedDir(scope: string, prefix: string, testDirPrefix: string, stamp: string, c: Cell): string
  {
    Paths.JoinAll([scope, prefix, testDirPrefix + "_" + stamp, "project" + NatToString(c.pi),
      "dataset" + NatToString(c.di)])
  }

  /** `<fi>_<uuid>`. */
  function SpoofedName(fi: nat, uuid: string): string
  {
    NatToString(fi) + "_" + uuid
  }

  /** The PFN of each cell; `stamp` and `uuid` are the timestamp and UUID taken for it. */
  function PfnOf(scheme: string, hostname: string, scope: string, prefix: string, testDirPrefix: string,
                 stamp: Cell -> string, uuid: Cell -> string): Cell -> Pfn
  {
    c => MakePfn(scheme, hostname, SpoofedDir(scope, prefix, testDirPrefix, stamp(c), c),
                 SpoofedName(c.fi, uuid(c)))
  }

  /** The local file made for each of `n` PFNs, in order. */
  function LocalFiles(localFile: nat -> string, n: nat): (r: seq<string>)
  {
    seq(n, k requires 0 <= k < n => localFile(k))
  }

  /** The pairs one `spoof` call adds. */
  function NewPairs(f: Cell -> Pfn, localFile: nat -> string, np: nat, nd: nat, nf: nat): seq<(string, Pfn)>
  {
    var pfns := Map(Grid(np, nd, nf), f);
    Zip(LocalFiles(localFile, |pfns|), pfns)
  }

  /**
    A spoof adds `np · nd · nf` pairs. The one at the position of cell (pi, di, fi),
    projects outermost and files innermost, holds that cell's PFN, paired with the local
    file generated at the same position.
   */
  lemma NewPairsAt(f: Cell -> Pfn, localFile: nat -> string, np: nat, nd: nat, nf: nat,
                   pi: nat, di: nat, fi: nat)
    requires pi < np && di < nd && fi < nf
    ensures |NewPairs(f, localFile, np, nd, nf)| == (nf * nd) * np
    ensures var k := Reports.Slot(nf * nd, pi, Reports.Slot(nf, di, fi));
      k < (nf * nd) * np && NewPairs(f, localFile, np, nd, nf)[k] == (localFile(k), f(Cell(pi, di, fi)))
  {
    GridCell(np, nd, nf, pi, di, fi);
    MapAt(Grid(np, nd, nf), f);
  }

  /** The name `<fi>_<uuid>` begins with a digit, so the PFN keeps it unchanged. */
  lemma SpoofedPfnName(scheme: string, hostname: string, scope: string, prefix: string,
                       testDirPrefix: string, stamp: Cell -> string, uuid: Cell -> string, c: Cell)
    ensures PfnOf(scheme, hostname, scope, prefix, testDirPrefix, stamp, uuid)(c).name == SpoofedName(c.fi, uuid(c))
  {
    var n := SpoofedName(c.fi, uuid(c));
    assert n[0] == NatToString(c.fi)[0];
    assert LStrip(n, {'/'}) == n;
  }

  /** The body of the pair loop: every cell from the `pi`-th project on, in order. */
  method ProjectPfns(acc: seq<Pfn>, pi: nat, nd: nat, nf: nat, f: Cell -> Pfn) returns (r: seq<Pfn>)
    ensures r == acc + Map(Block(pi, nd, nf), f)
  {
    r := acc;
    var di := 0;
    while di < nd
      invariant 0 <= di <= nd
      invariant r == acc + Map(Block(pi, di, nf), f)
    {
      r := DatasetPfns(r, pi, di, nf, f);
      BlockStep(acc, pi, di, nf, f);
      di := di + 1;
    }
  }

  /** The innermost loop: the PFN of every file of dataset `di` of project `pi`, appended. */
  method DatasetPfns(acc: seq<Pfn>, pi: nat, di: nat, nf: nat, f: Cell -> Pfn) returns (r: seq<Pfn>)
    ensures r == acc + Map(Row(pi, di, nf), f)
  {
    r := acc;
    var fi := 0;
    while fi < nf
      invariant 0 <= fi <= nf
      invariant r == acc + Map(Row(pi, di, fi), f)
    {
      r := r + [f(Cell(pi, di, fi))];
      RowStep(acc, pi, di, fi, f);
      fi := fi + 1;
    }
  }

  /** `LFNPFNSpoofer_SKAO_Testing_v1`: the (LFN, PFN) mapping it has built so far. */
  class Spoofer {
    const scheme: string
    const hostname: string
    const prefix: string
    const scope: string
    var mapping: seq<(string, Pfn)>

    constructor (scheme: string, hostname: string, prefix: string, scope: string)
      ensures this.scheme == scheme && this.hostname == hostname
      ensures this.prefix == prefix && this.scope == scope && mapping == []
    {
      this.scheme := scheme;
      this.hostname := hostname;
      this.prefix := prefix;
      this.scope := scope;
      mapping := [];
    }

    /** The `lfns` property: `zip(*mapping)` cannot be unpacked when the mapping is empty. */
    function Lfns(): (r: Result<seq<string>>)
      reads this
      ensures r.Raised? <==> mapping == []
    {
      if mapping == [] then Raised else Ok(Firsts(mapping))
    }

    /** The `pfns` property, likewise. */
    function Pfns(): (r: Result<seq<Pfn>>)
      reads this
      ensures r.Raised? <==> mapping == []
    {
      if mapping == [] then Raised else Ok(Seconds(mapping))
    }

    /**
      `spoof(kwargs)`: with a key missing it returns False and changes nothing;
      otherwise it appends one pair per cell of the grid, projects outermost, each PFN
      under the per-file `stamp` and `uuid` and paired with the `localFile` generated at
      its position, and returns None (`failed` is false).
     */
    method Spoof(args: SpoofArgs, stamp: Cell -> string, uuid: Cell -> string, localFile: nat -> string)
      returns (failed: bool)
      modifies this
      ensures failed == !Complete(args)
      ensures failed ==> mapping == old(mapping)
      ensures !failed ==>
        mapping == old(mapping) + NewPairs(PfnOf(scheme, hostname, scope, prefix, args.testDirPrefix.value,
                                                 stamp, uuid),
                                           localFile, args.nProjects.value, args.nDatasetsPerProject.value,
                                           args.nFilesPerDataset.value)
    {
      if !Complete(args) {
        return true;
      }
      failed := false;
      var nd, nf, np := args.nDatasetsPerProject.value, args.nFilesPerDataset.value, args.nProjects.value;
      var f := PfnOf(scheme, hostname, scope, prefix, args.testDirPrefix.value, stamp, uuid);
      var pfns: seq<Pfn> := [];
      var pi := 0;
      while pi < np
        invariant 0 <= pi <= np
        invariant pfns == Map(Grid(pi, nd, nf), f)
        invariant mapping == old(mapping)
      {
        pfns := ProjectPfns(pfns, pi, nd, nf, f);
        CellsSnoc(pi, 0, 0, nd, nf, f);
        pi := pi + 1;
      }
      var lfns := LocalFiles(localFile, |pfns|);
      mapping := mapping + Zip(lfns, pfns);
    }
  }
}
