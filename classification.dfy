/**
  Which cells of the QR matrix belong to a finder or an alignment pattern
  (is_finder_pattern_module, get_alignment_pattern_centers,
  is_alignment_pattern_module). The encoder's alignment position table is
  an input: `positions` is what `qrcode.util.pattern_position(version)`
  returns.
*/
module Classification {
  import opened Sequences

  /** A matrix cell, `(r, c)`. */
  datatype Cell = Cell(row: int, col: int)

  /** The `size`-by-`size` square whose top-left cell is (top, left). */
  predicate InSquare(r: int, c: int, top: int, left: int, size: int) {
    top <= r < top + size && left <= c < left + size
  }

  /** is_finder_pattern_module: the top-left, top-right and bottom-left 7x7 corner blocks. */
  predicate IsFinderModule(r: int, c: int, n: int) {
    || (0 <= r < 7 && 0 <= c < 7)
    || (0 <= r < 7 && n - 7 <= c < n)
    || (n - 7 <= r < n && 0 <= c < 7)
  }

  function AbsI(x: int): nat { if x >= 0 then x else -x }

  /** Row and column distance at most `d` from the cell (cr, cc). */
  predicate Within(r: int, c: int, cr: int, cc: int, d: int) {
    AbsI(r - cr) <= d && AbsI(c - cc) <= d
  }

  /** The three finder centres, in the order the finder patterns are drawn. */
  function FinderCentres(n: int): seq<Cell> {
    [Cell(3, 3), Cell(3, n - 4), Cell(n - 4, 3)]
  }

  /**
    A cell is a finder cell exactly when it lies within distance 3 of one
    of the three finder centres, for every matrix of side at least 7.
  */
  lemma FinderByCentres(r: int, c: int, n: int)
    requires n >= 7
    ensures IsFinderModule(r, c, n) <==>
      exists i :: 0 <= i < 3 && Within(r, c, FinderCentres(n)[i].row, FinderCentres(n)[i].col, 3)
  {
    var f := FinderCentres(n);
    if IsFinderModule(r, c, n) {
      if 0 <= r < 7 && 0 <= c < 7 {
        assert Within(r, c, f[0].row, f[0].col, 3);
      } else if 0 <= r < 7 {
        assert Within(r, c, f[1].row, f[1].col, 3);
      } else {
        assert Within(r, c, f[2].row, f[2].col, 3);
      }
    }
  }

  /**
    The three blocks, as 7x7 squares anchored at the three corners; no
    cell of the bottom-right 7x7 block is a finder cell once the matrix
    has room for two blocks per side (every QR matrix does: 21 >= 14).
  */
  lemma FinderBlocks(r: int, c: int, n: int)
    ensures IsFinderModule(r, c, n) <==>
      InSquare(r, c, 0, 0, 7) || InSquare(r, c, 0, n - 7, 7) || InSquare(r, c, n - 7, 0, 7)
    ensures n >= 14 && InSquare(r, c, n - 7, n - 7, 7) ==> !IsFinderModule(r, c, n)
    ensures !(0 <= r < n && 0 <= c < n) ==> !IsFinderModule(r, c, n) || n < 7
  {
  }

  /** `{(r, c) for r in positions for c in positions}`, row-major. */
  function Product(rows: seq<int>, cols: seq<int>): (cells: seq<Cell>)
    ensures forall x :: x in cells <==> x.row in rows && x.col in cols
  {
    if rows == [] then []
    else
      assert rows == [rows[0]] + rows[1..];
      Row(rows[0], cols) + Product(rows[1..], cols)
  }

  function Row(r: int, positions: seq<int>): (cells: seq<Cell>)
    ensures forall x :: x in cells <==> x.row == r && x.col in positions
  {
    if positions == [] then [] else [Cell(r, positions[0])] + Row(r, positions[1..])
  }

  /** The centres the finder patterns take in the position grid. */
  predicate IsFinderSlot(x: Cell, last: int) {
    x == Cell(6, 6) || x == Cell(6, last) || x == Cell(last, 6)
  }

  function NotFinderSlot(last: int): Cell -> bool {
    x => !IsFinderSlot(x, last)
  }

  /**
    get_alignment_pattern_centers: empty below version 2 or without
    positions; otherwise every pair of positions except the three finder
    slots, each once. (Python returns `list(set)`, in no particular order;
    here in row-major order.)
  */
  function AlignmentCenters(version: int, positions: seq<int>): (cs: seq<Cell>)
    ensures version < 2 || positions == [] ==> cs == []
    ensures version >= 2 && positions != [] ==>
      forall x :: x in cs <==>
        x.row in positions && x.col in positions && !IsFinderSlot(x, positions[|positions| - 1])
    ensures forall i, j :: 0 <= i < j < |cs| ==> cs[i] != cs[j]
  {
    if version < 2 || positions == [] then []
    else Dedup(Filter(Product(positions, positions), NotFinderSlot(positions[|positions| - 1])))
  }

  /**
    is_alignment_pattern_module: the early-exit scan over the centres for
    one whose 5x5 neighbourhood holds the cell.
  */
  function IsAlignmentModule(r: int, c: int, centers: seq<Cell>): (b: bool)
    ensures b <==> exists i :: 0 <= i < |centers| && Within(r, c, centers[i].row, centers[i].col, 2)
  {
    if centers == [] then false
    else if centers[0].row - 2 <= r <= centers[0].row + 2 && centers[0].col - 2 <= c <= centers[0].col + 2 then true
    else
      var b := IsAlignmentModule(r, c, centers[1..]);
      assert b <==> exists i :: 1 <= i < |centers| && Within(r, c, centers[i].row, centers[i].col, 2) by {
        if b {
          var i :| 0 <= i < |centers[1..]| && Within(r, c, centers[1..][i].row, centers[1..][i].col, 2);
          assert centers[i + 1] == centers[1..][i];
        }
        if exists i :: 1 <= i < |centers| && Within(r, c, centers[i].row, centers[i].col, 2) {
          var i :| 1 <= i < |centers| && Within(r, c, centers[i].row, centers[i].col, 2);
          assert centers[1..][i - 1] == centers[i];
        }
      }
      b
  }

  /**
    Composed: for version 2 and up, a cell is an alignment cell exactly
    when some pair of positions other than a finder slot is within
    distance 2 of it; below version 2 no cell is.
  */
  lemma AlignmentCellsFromPositions(r: int, c: int, version: int, positions: seq<int>)
    ensures version < 2 ==> !IsAlignmentModule(r, c, AlignmentCenters(version, positions))
    ensures version >= 2 && positions != [] ==>
      (IsAlignmentModule(r, c, AlignmentCenters(version, positions)) <==>
        exists pr, pc :: pr in positions && pc in positions &&
          !IsFinderSlot(Cell(pr, pc), positions[|positions| - 1]) && Within(r, c, pr, pc, 2))
  {
    if version >= 2 && positions != [] {
      var cs := AlignmentCenters(version, positions);
      if IsAlignmentModule(r, c, cs) {
        PositionsOfCentre(r, c, version, positions);
      }
      if exists pr, pc :: pr in positions && pc in positions &&
           !IsFinderSlot(Cell(pr, pc), positions[|positions| - 1]) && Within(r, c, pr, pc, 2) {
        CentreOfPositions(r, c, version, positions);
      }
    }
  }

  /** A cell near a centre is near a pair of positions that is not a finder slot. */
  lemma PositionsOfCentre(r: int, c: int, version: int, positions: seq<int>)
    requires version >= 2 && positions != []
    requires IsAlignmentModule(r, c, AlignmentCenters(version, positions))
    ensures exists pr, pc :: pr in positions && pc in positions &&
                             !IsFinderSlot(Cell(pr, pc), positions[|positions| - 1]) && Within(r, c, pr, pc, 2)
  {
    var cs := AlignmentCenters(version, positions);
    var i :| 0 <= i < |cs| && Within(r, c, cs[i].row, cs[i].col, 2);
    var x := cs[i];
    assert x in cs;
    assert Cell(x.row, x.col) == x;
  }

  /** A cell near a pair of positions that is not a finder slot is near a centre. */
  lemma CentreOfPositions(r: int, c: int, version: int, positions: seq<int>)
    requires version >= 2 && positions != []
    requires exists pr, pc :: pr in positions && pc in positions &&
                              !IsFinderSlot(Cell(pr, pc), positions[|positions| - 1]) && Within(r, c, pr, pc, 2)
    ensures IsAlignmentModule(r, c, AlignmentCenters(version, positions))
  {
    var cs := AlignmentCenters(version, positions);
    var pr, pc :| pr in positions && pc in positions &&
      !IsFinderSlot(Cell(pr, pc), positions[|positions| - 1]) && Within(r, c, pr, pc, 2);
    var x := Cell(pr, pc);
    assert x in cs;
    var i :| 0 <= i < |cs| && cs[i] == x;
    assert Within(r, c, cs[i].row, cs[i].col, 2);
  }

  /** Version 2 has positions [6, 18]: one alignment pattern, centred at (18, 18). */
  lemma VersionTwoCenters(p: seq<int>)
    requires p == [6, 18]
    ensures AlignmentCenters(2, p) == [Cell(18, 18)]
  {
    var q: seq<int> := [18];
    assert p[1..] == q && q[1..] == [];
    assert Row(6, q) == [Cell(6, 18)];
    assert Row(18, q) == [Cell(18, 18)];
    assert Row(6, p) == [Cell(6, 6), Cell(6, 18)];
    assert Row(18, p) == [Cell(18, 6), Cell(18, 18)];
    assert Product(q, p) == [Cell(18, 6), Cell(18, 18)];
    var keep := NotFinderSlot(18);
    var a: seq<Cell> := [Cell(18, 18)];
    var b: seq<Cell> := [Cell(18, 6)] + a;
    var c: seq<Cell> := [Cell(6, 18)] + b;
    var d: seq<Cell> := [Cell(6, 6)] + c;
    assert Product(p, p) == d;
    assert keep(Cell(18, 18)) && !keep(Cell(18, 6)) && !keep(Cell(6, 18)) && !keep(Cell(6, 6));
    FilterCons(Cell(18, 18), [], keep);
    FilterCons(Cell(18, 6), a, keep);
    FilterCons(Cell(6, 18), b, keep);
    FilterCons(Cell(6, 6), c, keep);
    assert [Cell(18, 18)] + [] == a;
    assert Filter(d, keep) == a;
    assert a[..0] == [];
  }
}
