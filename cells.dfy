/**
  The order in which the spoofers visit their files: projects outermost, then datasets,
  then files, as three nested `range` loops do.
 */
module Cells {
  import opened Reports
  import opened Seqs

  /** Project `pi`, dataset `di`, file `fi`. */
  datatype Cell = Cell(pi: nat, di: nat, fi: nat)

  /** The first `nf` files of dataset `di` of project `pi`. */
  function Row(pi: nat, di: nat, nf: nat): seq<Cell>
  {
    if nf == 0 then [] else Row(pi, di, nf - 1) + [Cell(pi, di, nf - 1)]
  }

  /** The first `nd` datasets of project `pi`, `nf` files each. */
  function Block(pi: nat, nd: nat, nf: nat): seq<Cell>
  {
    if nd == 0 then [] else Block(pi, nd - 1, nf) + Row(pi, nd - 1, nf)
  }

  /** The first `np` projects of `nd` datasets of `nf` files. */
  function Grid(np: nat, nd: nat, nf: nat): seq<Cell>
  {
    if np == 0 then [] else Grid(np - 1, nd, nf) + Block(np - 1, nd, nf)
  }

  lemma {:induction false} RowAt(pi: nat, di: nat, nf: nat)
    ensures |Row(pi, di, nf)| == nf
    ensures forall fi :: 0 <= fi < nf ==> Row(pi, di, nf)[fi] == Cell(pi, di, fi)
  {
    if nf > 0 {
      RowAt(pi, di, nf - 1);
    }
  }

  lemma {:induction false} BlockLength(pi: nat, nd: nat, nf: nat)
    ensures |Block(pi, nd, nf)| == nf * nd
  {
    if nd == 0 {
      MulNone(nf, nd);
    } else {
      BlockLength(pi, nd - 1, nf);
      RowAt(pi, nd - 1, nf);
      MulLast(nf, nd);
    }
  }

  /** File `fi` of dataset `di` is at `di · nf + fi` of its project. */
  lemma {:induction false} BlockCell(pi: nat, nd: nat, nf: nat, di: nat, fi: nat)
    requires di < nd && fi < nf
    ensures |Block(pi, nd, nf)| == nf * nd
    ensures Slot(nf, di, fi) < nf * nd && Block(pi, nd, nf)[Slot(nf, di, fi)] == Cell(pi, di, fi)
  {
    SlotBelow(nf, di, fi, nd);
    BlockLength(pi, nd, nf);
    BlockLength(pi, nd - 1, nf);
    RowAt(pi, nd - 1, nf);
    if di < nd - 1 {
      SlotBelow(nf, di, fi, nd - 1);
      BlockCell(pi, nd - 1, nf, di, fi);
    } else {
      assert Slot(nf, di, fi) == nf * (nd - 1) + fi;
    }
  }

  lemma {:induction false} GridLength(np: nat, nd: nat, nf: nat)
    ensures |Grid(np, nd, nf)| == (nf * nd) * np
  {
    if np == 0 {
      MulNone(nf * nd, np);
    } else {
      GridLength(np - 1, nd, nf);
      BlockLength(np - 1, nd, nf);
      MulLast(nf * nd, np);
    }
  }

  /**
    There are `np · nd · nf` cells, and cell (pi, di, fi) is at
    `pi · (nd · nf) + di · nf + fi`: projects outermost, files innermost.
   */
  lemma {:induction false} GridCell(np: nat, nd: nat, nf: nat, pi: nat, di: nat, fi: nat)
    requires pi < np && di < nd && fi < nf
    ensures |Grid(np, nd, nf)| == (nf * nd) * np
    ensures Slot(nf, di, fi) < nf * nd
    ensures Slot(nf * nd, pi, Slot(nf, di, fi)) < (nf * nd) * np
    ensures Grid(np, nd, nf)[Slot(nf * nd, pi, Slot(nf, di, fi))] == Cell(pi, di, fi)
  {
    var k, j := nf * nd, Slot(nf, di, fi);
    BlockCell(pi, nd, nf, di, fi);
    SlotBelow(k, pi, j, np);
    GridLength(np, nd, nf);
    GridLength(np - 1, nd, nf);
    BlockLength(np - 1, nd, nf);
    if pi < np - 1 {
      SlotBelow(k, pi, j, np - 1);
      GridCell(np - 1, nd, nf, pi, di, fi);
    } else {
      assert Slot(k, pi, j) == k * (np - 1) + j;
    }
  }

  /** `f` applied to each cell, in order. */
  function Map<T>(cs: seq<Cell>, f: Cell -> T): seq<T>
  {
    if cs == [] then [] else Map(cs[..|cs| - 1], f) + [f(cs[|cs| - 1])]
  }

  lemma {:induction false} MapAt<T>(cs: seq<Cell>, f: Cell -> T)
    ensures |Map(cs, f)| == |cs|
    ensures forall k :: 0 <= k < |cs| ==> Map(cs, f)[k] == f(cs[k])
  {
    if cs != [] {
      var n := |cs| - 1;
      MapAt(cs[..n], f);
    }
  }

  lemma {:induction false} MapAppend<T>(a: seq<Cell>, b: seq<Cell>, f: Cell -> T)
    ensures Map(a + b, f) == Map(a, f) + Map(b, f)
    decreases |b|
  {
    if b == [] {
      assert a + b == a;
    } else {
      var n := |b| - 1;
      assert (a + b)[..|a + b| - 1] == a + b[..n];
      MapAppend(a, b[..n], f);
    }
  }

  /** One more file, dataset or project extends the cells at the end. */
  lemma CellsSnoc<T>(pi: nat, di: nat, fi: nat, nd: nat, nf: nat, f: Cell -> T)
    ensures Map(Row(pi, di, fi + 1), f) == Map(Row(pi, di, fi), f) + [f(Cell(pi, di, fi))]
    ensures Map(Block(pi, di + 1, nf), f) == Map(Block(pi, di, nf), f) + Map(Row(pi, di, nf), f)
    ensures Map(Grid(pi + 1, nd, nf), f) == Map(Grid(pi, nd, nf), f) + Map(Block(pi, nd, nf), f)
  {
    var r := Row(pi, di, fi) + [Cell(pi, di, fi)];
    assert r[..|r| - 1] == Row(pi, di, fi);
    MapAppend(Block(pi, di, nf), Row(pi, di, nf), f);
    MapAppend(Grid(pi, nd, nf), Block(pi, nd, nf), f);
  }

  /** What accumulates after the next file of a dataset. */
  lemma RowStep<T>(acc: seq<T>, pi: nat, di: nat, fi: nat, f: Cell -> T)
    ensures acc + Map(Row(pi, di, fi + 1), f) == acc + Map(Row(pi, di, fi), f) + [f(Cell(pi, di, fi))]
  {
    CellsSnoc(pi, di, fi, 0, 0, f);
    AppendAssoc(acc, Map(Row(pi, di, fi), f), [f(Cell(pi, di, fi))]);
  }

  /** What accumulates after the next dataset of a project. */
  lemma BlockStep<T>(acc: seq<T>, pi: nat, di: nat, nf: nat, f: Cell -> T)
    ensures acc + Map(Block(pi, di + 1, nf), f) == acc + Map(Block(pi, di, nf), f) + Map(Row(pi, di, nf), f)
  {
    CellsSnoc(pi, di, 0, 0, nf, f);
    AppendAssoc(acc, Map(Block(pi, di, nf), f), Map(Row(pi, di, nf), f));
  }

  /** What accumulates after the next project. */
  lemma GridStep<T>(acc: seq<T>, pi: nat, nd: nat, nf: nat, f: Cell -> T)
    ensures acc + Map(Grid(pi + 1, nd, nf), f) == acc + Map(Grid(pi, nd, nf), f) + Map(Block(pi, nd, nf), f)
  {
    CellsSnoc(pi, 0, 0, nd, nf, f);
    AppendAssoc(acc, Map(Grid(pi, nd, nf), f), Map(Block(pi, nd, nf), f));
  }
}
