/**
 * components/game/game-board.tsx: the 8 by 8 grid, placing a dragged shape, clearing full rows
 * and columns together, the score for a move, the shape slots and the game-over rule, and the
 * power-ups used on the board.
 *
 * The board is a value (`seq<seq<Cell>>`), as in the source, where every update works on a copy
 * made by `board.map(...)`. The `powerUps` prop is a parameter of the operations that read it,
 * and what they hand to `onPowerUpUse` or `onGameOver` is returned. The random draws and the
 * `Date.now()` text needed to deal new shapes are parameters too.
 */
module GameBoard {
  import opened Common
  import opened BlockShapes
  import opened PowerUpShop

  const BOARD_SIZE := 8

  datatype Cell = Cell(filled: bool, color: string)

  /** `{ filled: false, color: "" }` */
  const EMPTY := Cell(false, "")

  type Board = seq<seq<Cell>>

  predicate IsBoard(b: Board)
  {
    |b| == BOARD_SIZE && forall r :: 0 <= r < BOARD_SIZE ==> |b[r]| == BOARD_SIZE
  }

  predicate OnBoard(r: int, c: int)
  {
    0 <= r < BOARD_SIZE && 0 <= c < BOARD_SIZE
  }

  /** The board a game starts with. */
  function EmptyBoard(): (b: Board)
    ensures IsBoard(b)
    ensures forall r, c :: OnBoard(r, c) ==> b[r][c] == EMPTY
  {
    seq(BOARD_SIZE, _ => seq(BOARD_SIZE, _ => EMPTY))
  }

  /** Two boards with the same cells are the same board. */
  lemma BoardExt(a: Board, b: Board)
    requires IsBoard(a) && IsBoard(b)
    requires forall r, c :: OnBoard(r, c) ==> a[r][c] == b[r][c]
    ensures a == b
  {
    forall r | 0 <= r < BOARD_SIZE ensures a[r] == b[r] {
      assert forall c :: 0 <= c < BOARD_SIZE ==> a[r][c] == b[r][c];
    }
  }

  // ---------------------------------------------------------------- placement

  /** The `k`-th cell of `shape` put at origin (r0, c0) lands on the board and on an empty cell. */
  predicate CellFits(shape: BlockShape, r0: int, c0: int, b: Board, k: int)
    requires IsBoard(b) && 0 <= k < |shape.cells|
  {
    var r := r0 + shape.cells[k].row;
    var c := c0 + shape.cells[k].col;
    OnBoard(r, c) && !b[r][c].filled
  }

  /** The shape at origin (r0, c0) lies wholly on the board and covers no filled cell. */
  predicate Fits(shape: BlockShape, r0: int, c0: int, b: Board)
    requires IsBoard(b)
  {
    forall k :: 0 <= k < |shape.cells| ==> CellFits(shape, r0, c0, b, k)
  }

  /** `canPlaceShape(shape, startRow, startCol, currentBoard)` */
  method CanPlaceShape(shape: BlockShape, r0: int, c0: int, b: Board) returns (ok: bool)
    requires IsBoard(b)
    ensures ok <==> Fits(shape, r0, c0, b)
  {
    for k := 0 to |shape.cells|
      invariant forall j :: 0 <= j < k ==> CellFits(shape, r0, c0, b, j)
    {
      var r := r0 + shape.cells[k].row;
      var c := c0 + shape.cells[k].col;
      if r < 0 || r >= BOARD_SIZE || c < 0 || c >= BOARD_SIZE {
        assert !CellFits(shape, r0, c0, b, k);
        return false;
      }
      if b[r][c].filled {
        assert !CellFits(shape, r0, c0, b, k);
        return false;
      }
    }
    return true;
  }

  /** Some shape still in a slot fits at some origin of the board. */
  predicate AnyFits(slots: seq<Option<BlockShape>>, b: Board)
    requires IsBoard(b)
  {
    exists i, r, c :: 0 <= i < |slots| && slots[i].Some? && 0 <= r < BOARD_SIZE && 0 <= c < BOARD_SIZE && Fits(slots[i].value, r, c, b)
  }

  /** `canAnyShapeBePlaced(shapes, currentBoard)`: empty slots are skipped. */
  method CanAnyShapeBePlaced(slots: seq<Option<BlockShape>>, b: Board) returns (ok: bool)
    requires IsBoard(b)
    ensures ok <==> AnyFits(slots, b)
  {
    for i := 0 to |slots|
      invariant forall j, r, c :: 0 <= j < i && slots[j].Some? && 0 <= r < BOARD_SIZE && 0 <= c < BOARD_SIZE ==> !Fits(slots[j].value, r, c, b)
    {
      if slots[i].None? {
        continue;
      }
      var shape := slots[i].value;
      for r := 0 to BOARD_SIZE
        invariant forall j, r', c :: 0 <= j < i && slots[j].Some? && 0 <= r' < BOARD_SIZE && 0 <= c < BOARD_SIZE ==> !Fits(slots[j].value, r', c, b)
        invariant forall r', c :: 0 <= r' < r && 0 <= c < BOARD_SIZE ==> !Fits(shape, r', c, b)
      {
        for c := 0 to BOARD_SIZE
          invariant forall r', c' :: 0 <= r' < r && 0 <= c' < BOARD_SIZE ==> !Fits(shape, r', c', b)
          invariant forall c' :: 0 <= c' < c ==> !Fits(shape, r, c', b)
        {
          var fits := CanPlaceShape(shape, r, c, b);
          if fits {
            return true;
          }
        }
      }
    }
    return false;
  }

  /** Whether cell (r, c) is one of the cells of `shape` put at origin (r0, c0). */
  predicate Covers(shape: BlockShape, r0: int, c0: int, r: int, c: int)
  {
    CoversAmong(shape, r0, c0, |shape.cells|, r, c)
  }

  /** Whether cell (r, c) is one of the first `n` cells of `shape` put at origin (r0, c0). */
  predicate CoversAmong(shape: BlockShape, r0: int, c0: int, n: int, r: int, c: int)
    requires n <= |shape.cells|
  {
    exists k :: 0 <= k < n && r0 + shape.cells[k].row == r && c0 + shape.cells[k].col == c
  }

  lemma CoversStep(shape: BlockShape, r0: int, c0: int, n: nat, r: int, c: int)
    requires n < |shape.cells|
    ensures CoversAmong(shape, r0, c0, n + 1, r, c) <==>
      CoversAmong(shape, r0, c0, n, r, c) || (r0 + shape.cells[n].row == r && c0 + shape.cells[n].col == c)
  {
    if CoversAmong(shape, r0, c0, n + 1, r, c) && !(r0 + shape.cells[n].row == r && c0 + shape.cells[n].col == c) {
      var k :| 0 <= k < n + 1 && r0 + shape.cells[k].row == r && c0 + shape.cells[k].col == c;
      assert k < n;
    }
  }

  /** The board with the shape's cells filled in its colour. */
  function PlacedBoard(b: Board, shape: BlockShape, r0: int, c0: int): (nb: Board)
    requires IsBoard(b)
    ensures IsBoard(nb)
  {
    seq(BOARD_SIZE, r requires 0 <= r < BOARD_SIZE =>
      seq(BOARD_SIZE, c requires 0 <= c < BOARD_SIZE =>
        if Covers(shape, r0, c0, r, c) then Cell(true, shape.color) else b[r][c]))
  }

  lemma PlacedAt(b: Board, shape: BlockShape, r0: int, c0: int, r: int, c: int)
    requires IsBoard(b) && OnBoard(r, c)
    ensures PlacedBoard(b, shape, r0, c0)[r][c] == if Covers(shape, r0, c0, r, c) then Cell(true, shape.color) else b[r][c]
  {
  }

  /** A shape that fits fills exactly the cells it covers, each of them empty before, in its own
      colour, and leaves every other cell as it was. */
  lemma PlacedBoardFills(b: Board, shape: BlockShape, r0: int, c0: int)
    requires IsBoard(b) && Fits(shape, r0, c0, b)
    ensures forall r, c :: OnBoard(r, c) && Covers(shape, r0, c0, r, c) ==>
      !b[r][c].filled && PlacedBoard(b, shape, r0, c0)[r][c] == Cell(true, shape.color)
    ensures forall r, c :: OnBoard(r, c) && !Covers(shape, r0, c0, r, c) ==>
      PlacedBoard(b, shape, r0, c0)[r][c] == b[r][c]
    ensures forall k :: 0 <= k < |shape.cells| ==> OnBoard(r0 + shape.cells[k].row, c0 + shape.cells[k].col)
  {
    forall r, c | OnBoard(r, c) && Covers(shape, r0, c0, r, c) ensures !b[r][c].filled {
      assert CoversAmong(shape, r0, c0, |shape.cells|, r, c);
      var k :| 0 <= k < |shape.cells| && r0 + shape.cells[k].row == r && c0 + shape.cells[k].col == c;
      assert CellFits(shape, r0, c0, b, k);
    }
    forall k | 0 <= k < |shape.cells| ensures OnBoard(r0 + shape.cells[k].row, c0 + shape.cells[k].col) {
      assert CellFits(shape, r0, c0, b, k);
    }
  }

  /** `nb` is `b` with the first `n` cells of the shape filled in its colour. */
  ghost predicate FilledUpTo(nb: Board, b: Board, shape: BlockShape, r0: int, c0: int, n: int)
    requires IsBoard(b) && n <= |shape.cells|
  {
    && IsBoard(nb)
    && forall r, c :: OnBoard(r, c) ==>
         nb[r][c] == if CoversAmong(shape, r0, c0, n, r, c) then Cell(true, shape.color) else b[r][c]
  }

  /** Filling the cell the `n`-th offset lands on extends the filled prefix by one. */
  lemma FillStep(nb: Board, b: Board, shape: BlockShape, r0: int, c0: int, n: nat)
    requires IsBoard(b) && n < |shape.cells| && FilledUpTo(nb, b, shape, r0, c0, n)
    requires OnBoard(r0 + shape.cells[n].row, c0 + shape.cells[n].col)
    ensures var r := r0 + shape.cells[n].row;
      var c := c0 + shape.cells[n].col;
      FilledUpTo(nb[r := nb[r][c := Cell(true, shape.color)]], b, shape, r0, c0, n + 1)
  {
    var r := r0 + shape.cells[n].row;
    var c := c0 + shape.cells[n].col;
    var next := nb[r := nb[r][c := Cell(true, shape.color)]];
    forall r', c' | OnBoard(r', c')
      ensures next[r'][c'] == if CoversAmong(shape, r0, c0, n + 1, r', c') then Cell(true, shape.color) else b[r'][c']
    {
      CoversStep(shape, r0, c0, n, r', c');
    }
  }

  /** With every cell filled, the board is the placed board. */
  lemma FilledAll(nb: Board, b: Board, shape: BlockShape, r0: int, c0: int)
    requires IsBoard(b) && FilledUpTo(nb, b, shape, r0, c0, |shape.cells|)
    ensures nb == PlacedBoard(b, shape, r0, c0)
  {
    forall r, c | OnBoard(r, c) ensures nb[r][c] == PlacedBoard(b, shape, r0, c0)[r][c] {
      PlacedAt(b, shape, r0, c0, r, c);
    }
    BoardExt(nb, PlacedBoard(b, shape, r0, c0));
  }

  /** Fills the cells of a fitting shape, one cell of the shape at a time. */
  method PlaceCells(b: Board, shape: BlockShape, r0: int, c0: int) returns (nb: Board)
    requires IsBoard(b) && Fits(shape, r0, c0, b)
    ensures nb == PlacedBoard(b, shape, r0, c0)
  {
    PlacedBoardFills(b, shape, r0, c0);
    nb := b;
    for k := 0 to |shape.cells|
      invariant FilledUpTo(nb, b, shape, r0, c0, k)
    {
      var r := r0 + shape.cells[k].row;
      var c := c0 + shape.cells[k].col;
      FillStep(nb, b, shape, r0, c0, k);
      nb := nb[r := nb[r][c := Cell(true, shape.color)]];
    }
    FilledAll(nb, b, shape, r0, c0);
  }

  // ---------------------------------------------------------------- clearing

  predicate FullRow(b: Board, r: int)
    requires IsBoard(b) && 0 <= r < BOARD_SIZE
  {
    forall c :: 0 <= c < BOARD_SIZE ==> b[r][c].filled
  }

  predicate FullCol(b: Board, c: int)
    requires IsBoard(b) && 0 <= c < BOARD_SIZE
  {
    forall r :: 0 <= r < BOARD_SIZE ==> b[r][c].filled
  }

  /** The full rows among the first `n`, in increasing order. */
  function FullRowsBelow(b: Board, n: nat): seq<int>
    requires IsBoard(b) && n <= BOARD_SIZE
  {
    if n == 0 then [] else FullRowsBelow(b, n - 1) + (if FullRow(b, n - 1) then [n - 1] else [])
  }

  /** The full columns among the first `n`, in increasing order. */
  function FullColsBelow(b: Board, n: nat): seq<int>
    requires IsBoard(b) && n <= BOARD_SIZE
  {
    if n == 0 then [] else FullColsBelow(b, n - 1) + (if FullCol(b, n - 1) then [n - 1] else [])
  }

  /** `rowsToClear` lists each full row once, in increasing order, and nothing else. */
  lemma {:induction false} FullRowsExact(b: Board, n: nat)
    requires IsBoard(b) && n <= BOARD_SIZE
    ensures forall r :: r in FullRowsBelow(b, n) <==> 0 <= r < n && FullRow(b, r)
    ensures forall i :: 0 <= i < |FullRowsBelow(b, n)| ==> 0 <= FullRowsBelow(b, n)[i] < n
    ensures forall i, j :: 0 <= i < j < |FullRowsBelow(b, n)| ==> FullRowsBelow(b, n)[i] < FullRowsBelow(b, n)[j]
  {
    if n > 0 {
      FullRowsExact(b, n - 1);
      var p := FullRowsBelow(b, n - 1);
      assert forall i :: 0 <= i < |p| ==> p[i] < n - 1;
    }
  }

  /** `colsToClear` lists each full column once, in increasing order, and nothing else. */
  lemma {:induction false} FullColsExact(b: Board, n: nat)
    requires IsBoard(b) && n <= BOARD_SIZE
    ensures forall c :: c in FullColsBelow(b, n) <==> 0 <= c < n && FullCol(b, c)
    ensures forall i :: 0 <= i < |FullColsBelow(b, n)| ==> 0 <= FullColsBelow(b, n)[i] < n
    ensures forall i, j :: 0 <= i < j < |FullColsBelow(b, n)| ==> FullColsBelow(b, n)[i] < FullColsBelow(b, n)[j]
  {
    if n > 0 {
      FullColsExact(b, n - 1);
      var p := FullColsBelow(b, n - 1);
      assert forall i :: 0 <= i < |p| ==> p[i] < n - 1;
    }
  }

  /** The number of lines a clear removes: full rows plus full columns, judged on the same board. */
  function LinesCleared(b: Board): nat
    requires IsBoard(b)
  {
    |FullRowsBelow(b, BOARD_SIZE)| + |FullColsBelow(b, BOARD_SIZE)|
  }

  /** The board once every full row and every full column is emptied together. */
  function ClearedBoard(b: Board): (nb: Board)
    requires IsBoard(b)
    ensures IsBoard(nb)
  {
    seq(BOARD_SIZE, r requires 0 <= r < BOARD_SIZE =>
      seq(BOARD_SIZE, c requires 0 <= c < BOARD_SIZE =>
        if FullRow(b, r) || FullCol(b, c) then EMPTY else b[r][c]))
  }

  lemma ClearedAt(b: Board, r: int, c: int)
    requires IsBoard(b) && OnBoard(r, c)
    ensures ClearedBoard(b)[r][c] == if FullRow(b, r) || FullCol(b, c) then EMPTY else b[r][c]
  {
  }

  /** After a clear no row and no column is full. */
  lemma ClearLeavesNoFullLine(b: Board)
    requires IsBoard(b)
    ensures forall r :: 0 <= r < BOARD_SIZE ==> !FullRow(ClearedBoard(b), r)
    ensures forall c :: 0 <= c < BOARD_SIZE ==> !FullCol(ClearedBoard(b), c)
  {
    var nb := ClearedBoard(b);
    forall r | 0 <= r < BOARD_SIZE ensures !FullRow(nb, r) {
      if FullRow(b, r) {
        ClearedAt(b, r, 0);
      } else {
        var c :| 0 <= c < BOARD_SIZE && !b[r][c].filled;
        ClearedAt(b, r, c);
      }
    }
    forall c | 0 <= c < BOARD_SIZE ensures !FullCol(nb, c) {
      if FullCol(b, c) {
        ClearedAt(b, 0, c);
      } else {
        var r :| 0 <= r < BOARD_SIZE && !b[r][c].filled;
        ClearedAt(b, r, c);
      }
    }
  }

  lemma {:induction false} NoFullRows(b: Board, n: nat)
    requires IsBoard(b) && n <= BOARD_SIZE
    requires forall r :: 0 <= r < n ==> !FullRow(b, r)
    ensures FullRowsBelow(b, n) == []
  {
    if n > 0 {
      NoFullRows(b, n - 1);
    }
  }

  lemma {:induction false} NoFullCols(b: Board, n: nat)
    requires IsBoard(b) && n <= BOARD_SIZE
    requires forall c :: 0 <= c < n ==> !FullCol(b, c)
    ensures FullColsBelow(b, n) == []
  {
    if n > 0 {
      NoFullCols(b, n - 1);
    }
  }

  /** A board without full lines clears nothing and is left as it is. */
  lemma ClearWithoutFullLines(b: Board)
    requires IsBoard(b)
    requires forall r :: 0 <= r < BOARD_SIZE ==> !FullRow(b, r)
    requires forall c :: 0 <= c < BOARD_SIZE ==> !FullCol(b, c)
    ensures LinesCleared(b) == 0
    ensures ClearedBoard(b) == b
  {
    NoFullRows(b, BOARD_SIZE);
    NoFullCols(b, BOARD_SIZE);
    forall r, c | OnBoard(r, c) ensures ClearedBoard(b)[r][c] == b[r][c] {
      ClearedAt(b, r, c);
    }
    BoardExt(ClearedBoard(b), b);
  }

  /** Clearing is idempotent: a cleared board has no full line left to clear. */
  lemma ClearIdempotent(b: Board)
    requires IsBoard(b)
    ensures LinesCleared(ClearedBoard(b)) == 0
    ensures ClearedBoard(ClearedBoard(b)) == ClearedBoard(b)
  {
    ClearLeavesNoFullLine(b);
    ClearWithoutFullLines(ClearedBoard(b));
  }

  /** Empties every listed row. */
  method ClearRows(b: Board, rows: seq<int>) returns (nb: Board)
    requires IsBoard(b)
    requires forall i :: 0 <= i < |rows| ==> 0 <= rows[i] < BOARD_SIZE
    ensures IsBoard(nb)
    ensures forall r, c :: OnBoard(r, c) ==> nb[r][c] == if r in rows then EMPTY else b[r][c]
  {
    nb := b;
    for i := 0 to |rows|
      invariant IsBoard(nb)
      invariant forall r, c :: OnBoard(r, c) ==> nb[r][c] == if r in rows[..i] then EMPTY else b[r][c]
    {
      var row := rows[i];
      for c := 0 to BOARD_SIZE
        invariant IsBoard(nb)
        invariant forall r, c' :: OnBoard(r, c') ==>
          nb[r][c'] == if r in rows[..i] || (r == row && c' < c) then EMPTY else b[r][c']
      {
        nb := nb[row := nb[row][c := EMPTY]];
      }
      assert rows[..i + 1] == rows[..i] + [row];
    }
    assert rows[..|rows|] == rows;
  }

  /** Empties every listed column. */
  method ClearCols(b: Board, cols: seq<int>) returns (nb: Board)
    requires IsBoard(b)
    requires forall i :: 0 <= i < |cols| ==> 0 <= cols[i] < BOARD_SIZE
    ensures IsBoard(nb)
    ensures forall r, c :: OnBoard(r, c) ==> nb[r][c] == if c in cols then EMPTY else b[r][c]
  {
    nb := b;
    for i := 0 to |cols|
      invariant IsBoard(nb)
      invariant forall r, c :: OnBoard(r, c) ==> nb[r][c] == if c in cols[..i] then EMPTY else b[r][c]
    {
      var col := cols[i];
      for r := 0 to BOARD_SIZE
        invariant IsBoard(nb)
        invariant forall r', c :: OnBoard(r', c) ==>
          nb[r'][c] == if c in cols[..i] || (c == col && r' < r) then EMPTY else b[r'][c]
      {
        nb := nb[r := nb[r][col := EMPTY]];
      }
      assert cols[..i + 1] == cols[..i] + [col];
    }
    assert cols[..|cols|] == cols;
  }

  /** `clearLines(currentBoard)`: collects the full rows, then the full columns, of the board as
      given, and empties them all. */
  method ClearLines(b: Board) returns (nb: Board, cleared: nat)
    requires IsBoard(b)
    ensures nb == ClearedBoard(b)
    ensures cleared == LinesCleared(b)
  {
    var rows: seq<int> := [];
    for r := 0 to BOARD_SIZE
      invariant rows == FullRowsBelow(b, r)
    {
      var full := true;
      for c := 0 to BOARD_SIZE
        invariant full <==> forall c' :: 0 <= c' < c ==> b[r][c'].filled
      {
        full := full && b[r][c].filled;
      }
      if full {
        rows := rows + [r];
      }
    }
    var cols: seq<int> := [];
    for c := 0 to BOARD_SIZE
      invariant cols == FullColsBelow(b, c)
    {
      var full := true;
      for r := 0 to BOARD_SIZE
        invariant full <==> forall r' :: 0 <= r' < r ==> b[r'][c].filled
      {
        full := full && b[r][c].filled;
      }
      if full {
        cols := cols + [c];
      }
    }
    FullRowsExact(b, BOARD_SIZE);
    FullColsExact(b, BOARD_SIZE);
    var mid := ClearRows(b, rows);
    nb := ClearCols(mid, cols);
    BoardExt(nb, ClearedBoard(b));
    cleared := |rows| + |cols|;
  }

  // ---------------------------------------------------------------- scoring

  /** The points for a move: 10 per cell placed, 100 per line cleared, and 50 per line beyond the
      first when more than one line goes at once. */
  function ScoreGain(cells: nat, cleared: nat): int
  {
    var gain := cells * 10;
    if cleared > 0 then
      gain + cleared * 100 + (if cleared > 1 then (cleared - 1) * 50 else 0)
    else gain
  }

  /** The gain in closed form: 10 per cell, plus 150 per line less 50 once any line goes; each more
      line is worth at least 100 more. */
  lemma ScoreGainClosedForm(cells: nat, cleared: nat)
    ensures ScoreGain(cells, cleared) == 10 * cells + (if cleared == 0 then 0 else 150 * cleared - 50)
    ensures ScoreGain(cells, cleared + 1) - ScoreGain(cells, cleared) >= 100
    ensures ScoreGain(cells, cleared) >= 10 * cells
  {
  }

  // ---------------------------------------------------------------- power-up areas

  /** Cell (r, c) lies in rows [r0, r1) and columns [q0, q1). */
  predicate InRect(r: int, c: int, r0: int, r1: int, q0: int, q1: int)
  {
    r0 <= r < r1 && q0 <= c < q1
  }

  /** Empties the cells of rows [r0, r1) and columns [q0, q1), row by row. */
  method ClearRect(b: Board, r0: int, r1: int, q0: int, q1: int) returns (nb: Board)
    requires IsBoard(b)
    requires 0 <= r0 <= r1 <= BOARD_SIZE && 0 <= q0 <= q1 <= BOARD_SIZE
    ensures IsBoard(nb)
    ensures forall r, c :: OnBoard(r, c) ==> nb[r][c] == if InRect(r, c, r0, r1, q0, q1) then EMPTY else b[r][c]
  {
    nb := b;
    var r := r0;
    while r < r1
      invariant IsBoard(nb)
      invariant r0 <= r <= r1
      invariant forall r', c :: OnBoard(r', c) ==>
        nb[r'][c] == if InRect(r', c, r0, r, q0, q1) then EMPTY else b[r'][c]
    {
      var c := q0;
      while c < q1
        invariant IsBoard(nb)
        invariant q0 <= c <= q1
        invariant forall r', c' :: OnBoard(r', c') ==>
          nb[r'][c'] == if InRect(r', c', r0, r, q0, q1) || (r' == r && q0 <= c' < c) then EMPTY else b[r'][c']
      {
        nb := nb[r := nb[r][c := EMPTY]];
        c := c + 1;
      }
      r := r + 1;
    }
  }

  function Min(a: int, b: int): int
  {
    if a < b then a else b
  }

  function Max(a: int, b: int): int
  {
    if a < b then b else a
  }

  /** The power-up waiting for a cell click (`activePowerUp`). */
  datatype Armed = ArmedEraser | ArmedMiniBomb | ArmedStandardBomb

  /** The inventory entry an armed power-up draws on. */
  function KindOf(a: Armed): PowerUpKind
  {
    match a
    case ArmedEraser => Eraser
    case ArmedMiniBomb => MiniBomb
    case ArmedStandardBomb => StandardBomb
  }

  /** The cells an armed power-up clears when cell (row, col) is clicked: the one cell for the
      eraser (only when filled), the 2 by 2 block from it for the mini bomb and the 3 by 3 block
      around it for the standard bomb, each cut at the board's edges. */
  predicate Blasted(a: Armed, b: Board, row: int, col: int, r: int, c: int)
    requires IsBoard(b) && OnBoard(row, col)
  {
    match a
    case ArmedEraser => r == row && c == col && b[row][col].filled
    case ArmedMiniBomb => row <= r < row + 2 && col <= c < col + 2
    case ArmedStandardBomb => row - 1 <= r <= row + 1 && col - 1 <= c <= col + 1
  }

  // ---------------------------------------------------------------- the session

  datatype GameState = GameState(
    board: Board,
    slots: seq<Option<BlockShape>>,
    score: int,
    gameOver: bool,
    draggedShape: Option<BlockShape>,
    draggedIndex: Option<nat>,
    isValidPlacement: bool,
    activePowerUp: Option<Armed>)

  /** What the component keeps true: a proper board, no slots before the first deal and three
      after it, and a drag that remembers a slot that exists. */
  predicate Consistent(s: GameState)
  {
    && IsBoard(s.board)
    && (|s.slots| == 0 || |s.slots| == 3)
    && (s.draggedShape.Some? <==> s.draggedIndex.Some?)
    && (s.draggedIndex.Some? ==> s.draggedIndex.value < |s.slots|)
  }

  /** One `Math.random()` pair per shape of a deal of three, each in [0, 1). */
  predicate DealDraws(draws: seq<(real, real)>)
  {
    |draws| >= 3 && forall i :: 0 <= i < |draws| ==> 0.0 <= draws[i].0 < 1.0 && 0.0 <= draws[i].1 < 1.0
  }

  /** A deal of `getRandomShapes(3)`: the score argument is left at its default 0. */
  function Deal(draws: seq<(real, real)>, ts: string): (slots: seq<Option<BlockShape>>)
    requires DealDraws(draws)
    ensures |slots| == 3 && forall i :: 0 <= i < 3 ==> slots[i].Some?
  {
    seq(3, i requires 0 <= i < 3 => Some(Dealt(draws[i], ComplexPercent(0), ts, i)))
  }

  /** `getRandomShapes(3)` in a slot list. */
  method DealThree(draws: seq<(real, real)>, ts: string) returns (slots: seq<Option<BlockShape>>)
    requires DealDraws(draws)
    ensures slots == Deal(draws, ts)
  {
    var shapes := GetRandomShapes(3, 0, draws, ts);
    slots := seq(3, i requires 0 <= i < 3 => Some(shapes[i]));
  }

  predicate AllEmpty(slots: seq<Option<BlockShape>>)
  {
    forall i :: 0 <= i < |slots| ==> slots[i].None?
  }

  /** The slots once the dragged slot is emptied (`newShapes[draggedIndex] = null`). */
  function UseSlot(slots: seq<Option<BlockShape>>, index: Option<nat>): seq<Option<BlockShape>>
  {
    if index.Some? && index.value < |slots| then slots[index.value := None] else slots
  }

  /** What `placeShape(shape, startRow, startCol)` does to the state, and whether it calls
      `onGameOver` and with which score. */
  predicate PlacedAs(s: GameState, shape: BlockShape, r0: int, c0: int, draws: seq<(real, real)>, ts: string,
                     placed: bool, t: GameState, finalScore: Option<int>)
    requires Consistent(s) && DealDraws(draws)
  {
    && (placed <==> Fits(shape, r0, c0, s.board))
    && (!placed ==> t == s && finalScore == None)
    && (placed ==>
          var filled := PlacedBoard(s.board, shape, r0, c0);
          var board := ClearedBoard(filled);
          var score := s.score + ScoreGain(|shape.cells|, LinesCleared(filled));
          var rest := UseSlot(s.slots, s.draggedIndex);
          var over := !AllEmpty(rest) && !AnyFits(rest, board);
          && t == s.(board := board, score := score,
                     slots := if AllEmpty(rest) then Deal(draws, ts) else rest,
                     gameOver := s.gameOver || over)
          && finalScore == if over then Some(score) else None)
  }

  /** `placeShape`, computed on the state as it stands when the drag ends. */
  method ComposePlacement(s: GameState, shape: BlockShape, r0: int, c0: int, draws: seq<(real, real)>, ts: string)
    returns (placed: bool, t: GameState, finalScore: Option<int>)
    requires Consistent(s) && DealDraws(draws)
    ensures PlacedAs(s, shape, r0, c0, draws, ts, placed, t, finalScore)
  {
    placed := CanPlaceShape(shape, r0, c0, s.board);
    if !placed {
      return false, s, None;
    }
    var filled := PlaceCells(s.board, shape, r0, c0);
    var score := s.score + |shape.cells| * 10;
    var board, cleared := ClearLines(filled);
    if cleared > 0 {
      score := score + cleared * 100;
      if cleared > 1 {
        score := score + (cleared - 1) * 50;
      }
    }
    assert score == s.score + ScoreGain(|shape.cells|, cleared);
    t, finalScore := SettleSlots(s, board, score, draws, ts);
  }

  /** The end of `placeShape` once the board and the score are settled: the used slot is emptied; a
      hand with no shape left is dealt anew, and otherwise the game is over when no shape left fits
      anywhere, with the score handed on as the final one. */
  method SettleSlots(s: GameState, board: Board, score: int, draws: seq<(real, real)>, ts: string)
    returns (t: GameState, finalScore: Option<int>)
    requires IsBoard(board) && DealDraws(draws)
    ensures var rest := UseSlot(s.slots, s.draggedIndex);
      var over := !AllEmpty(rest) && !AnyFits(rest, board);
      && t == s.(board := board, score := score,
                 slots := if AllEmpty(rest) then Deal(draws, ts) else rest,
                 gameOver := s.gameOver || over)
      && finalScore == if over then Some(score) else None
  {
    var rest := UseSlot(s.slots, s.draggedIndex);
    finalScore := None;
    if AllEmpty(rest) {
      var dealt := DealThree(draws, ts);
      t := s.(board := board, score := score, slots := dealt);
    } else {
      var any := CanAnyShapeBePlaced(rest, board);
      t := s.(board := board, score := score, slots := rest, gameOver := s.gameOver || !any);
      if !any {
        finalScore := Some(score);
      }
    }
  }

  /** The game screen's state. */
  class GameSession {
    var board: Board
    var slots: seq<Option<BlockShape>>
    var score: int
    var gameOver: bool
    var draggedShape: Option<BlockShape>
    var draggedIndex: Option<nat>
    var isValidPlacement: bool
    var activePowerUp: Option<Armed>

    function State(): GameState
      reads this
    {
      GameState(board, slots, score, gameOver, draggedShape, draggedIndex, isValidPlacement, activePowerUp)
    }

    ghost predicate Valid()
      reads this
    {
      Consistent(State())
    }

    /** The first render: an empty board, no shapes yet, nothing dragged or armed. */
    constructor ()
      ensures State() == GameState(EmptyBoard(), [], 0, false, None, None, false, None)
      ensures Valid()
    {
      board := EmptyBoard();
      slots := [];
      score := 0;
      gameOver := false;
      draggedShape := None;
      draggedIndex := None;
      isValidPlacement := false;
      activePowerUp := None;
    }

    /** The mount effect: a start bonus, when one is held, is spent for a score of 500; then three
        shapes are dealt. The returned inventory is what goes to `onPowerUpUse`. */
    method Start(powerUps: Inventory, draws: seq<(real, real)>, ts: string) returns (used: Option<Inventory>)
      requires Valid() && DealDraws(draws)
      modifies this
      ensures Valid()
      ensures State() == old(State()).(score := if powerUps.startBonus > 0 then 500 else 0, slots := Deal(draws, ts))
      ensures used == if powerUps.startBonus > 0 then Some(Adjust(powerUps, StartBonus, -1)) else None
    {
      used := None;
      var initialScore := 0;
      if powerUps.startBonus > 0 {
        initialScore := 500;
        used := Some(Adjust(powerUps, StartBonus, -1));
      }
      score := initialScore;
      slots := DealThree(draws, ts);
    }

    /** `usePowerUp(type)`: a board refresh held is spent at once on a new deal; an eraser or a bomb
        held is armed for the next cell click; anything else does nothing. */
    method UsePowerUp(kind: PowerUpKind, powerUps: Inventory, draws: seq<(real, real)>, ts: string) returns (used: Option<Inventory>)
      requires Valid() && DealDraws(draws)
      modifies this
      ensures Valid()
      ensures kind == BoardRefresh && powerUps.boardRefresh > 0 ==>
        State() == old(State()).(slots := Deal(draws, ts)) && used == Some(Adjust(powerUps, BoardRefresh, -1))
      ensures kind == Eraser && powerUps.eraser > 0 ==>
        State() == old(State()).(activePowerUp := Some(ArmedEraser)) && used == None
      ensures kind == MiniBomb && powerUps.miniBomb > 0 ==>
        State() == old(State()).(activePowerUp := Some(ArmedMiniBomb)) && used == None
      ensures kind == StandardBomb && powerUps.standardBomb > 0 ==>
        State() == old(State()).(activePowerUp := Some(ArmedStandardBomb)) && used == None
      ensures Count(powerUps, kind) <= 0 || kind == ExtraMoves || kind == StartBonus ==>
        State() == old(State()) && used == None
    {
      used := None;
      if kind == BoardRefresh && powerUps.boardRefresh > 0 {
        var dealt := DealThree(draws, ts);
        slots := dealt;
        used := Some(Adjust(powerUps, BoardRefresh, -1));
      } else if kind == Eraser && powerUps.eraser > 0 {
        activePowerUp := Some(ArmedEraser);
      } else if kind == MiniBomb && powerUps.miniBomb > 0 {
        activePowerUp := Some(ArmedMiniBomb);
      } else if kind == StandardBomb && powerUps.standardBomb > 0 {
        activePowerUp := Some(ArmedStandardBomb);
      }
    }

    /** `handleCellClick(row, col)` with a power-up armed: the cells it blasts are emptied, a
        charge is handed back to `onPowerUpUse` (for the eraser only when it erased something),
        and the power-up is disarmed. Without one armed, nothing happens. */
    method HandleCellClick(row: int, col: int, powerUps: Inventory) returns (used: Option<Inventory>)
      requires Valid() && OnBoard(row, col)
      modifies this
      ensures Valid()
      ensures old(activePowerUp).None? ==> State() == old(State()) && used == None
      ensures old(activePowerUp).Some? ==>
        var a := old(activePowerUp).value;
        && (forall r, c :: OnBoard(r, c) ==>
              board[r][c] == if Blasted(a, old(board), row, col, r, c) then EMPTY else old(board)[r][c])
        && State() == old(State()).(board := board, activePowerUp := None)
        && used == if a == ArmedEraser && !old(board)[row][col].filled then None
                   else Some(Adjust(powerUps, KindOf(a), -1))
    {
      used := None;
      if activePowerUp.None? {
        return;
      }
      var nb := board;
      match activePowerUp.value {
        case ArmedEraser =>
          if board[row][col].filled {
            nb := board[row := board[row][col := EMPTY]];
            used := Some(Adjust(powerUps, Eraser, -1));
          }
        case ArmedMiniBomb =>
          nb := ClearRect(board, row, Min(row + 2, BOARD_SIZE), col, Min(col + 2, BOARD_SIZE));
          used := Some(Adjust(powerUps, MiniBomb, -1));
        case ArmedStandardBomb =>
          nb := ClearRect(board, Max(0, row - 1), Min(row + 2, BOARD_SIZE), Max(0, col - 1), Min(col + 2, BOARD_SIZE));
          used := Some(Adjust(powerUps, StandardBomb, -1));
      }
      board := nb;
      activePowerUp := None;
    }

    /** `handleDragStart` on the shape in slot `index`: refused once the game is over. */
    method DragStart(index: nat)
      requires Valid() && index < |slots| && slots[index].Some?
      modifies this
      ensures Valid()
      ensures old(gameOver) ==> State() == old(State())
      ensures !old(gameOver) ==> State() == old(State()).(draggedShape := old(slots)[index], draggedIndex := Some(index))
    {
      if gameOver {
        return;
      }
      draggedShape := slots[index];
      draggedIndex := Some(index);
    }

    /** `handleDragMove`, with (row, col) the origin the drag position rounds to: the placement
        is marked valid exactly when the dragged shape fits there. */
    method DragMove(row: int, col: int)
      requires Valid()
      modifies this
      ensures Valid()
      ensures old(draggedShape).None? ==> State() == old(State())
      ensures old(draggedShape).Some? ==>
        State() == old(State()).(isValidPlacement := Fits(old(draggedShape).value, row, col, old(board)))
    {
      if draggedShape.None? {
        return;
      }
      isValidPlacement := CanPlaceShape(draggedShape.value, row, col, board);
    }

    /** `handleDragEnd`, with (row, col) the origin the release position rounds to: the shape is
        placed only when the last move marked the placement valid, and the drag is over either
        way. */
    method DragEnd(row: int, col: int, draws: seq<(real, real)>, ts: string) returns (placed: bool, finalScore: Option<int>)
      requires Valid() && DealDraws(draws)
      modifies this
      ensures Valid()
      ensures old(draggedShape).None? ==>
        State() == old(State()).(draggedShape := None, draggedIndex := None) && !placed && finalScore == None
      ensures old(draggedShape).Some? && !old(isValidPlacement) ==>
        State() == old(State()).(draggedShape := None, draggedIndex := None, isValidPlacement := false)
        && !placed && finalScore == None
      ensures old(draggedShape).Some? && old(isValidPlacement) ==>
        exists t :: PlacedAs(old(State()), old(draggedShape).value, row, col, draws, ts, placed, t, finalScore)
          && State() == t.(draggedShape := None, draggedIndex := None, isValidPlacement := false)
    {
      placed, finalScore := false, None;
      if draggedShape.None? {
        draggedIndex := None;
        return;
      }
      if isValidPlacement {
        var t;
        placed, t, finalScore := ComposePlacement(State(), draggedShape.value, row, col, draws, ts);
        Apply(t);
      }
      EndDrag();
    }

    /** Takes over the board, slots, score and game-over flag of `t`. */
    method Apply(t: GameState)
      requires Valid() && Consistent(t)
      requires t.draggedShape == draggedShape && t.draggedIndex == draggedIndex
      requires t.isValidPlacement == isValidPlacement && t.activePowerUp == activePowerUp
      modifies this
      ensures Valid()
      ensures State() == t
    {
      board := t.board;
      slots := t.slots;
      score := t.score;
      gameOver := t.gameOver;
    }

    method EndDrag()
      requires IsBoard(board) && (|slots| == 0 || |slots| == 3)
      modifies this
      ensures Valid()
      ensures State() == old(State()).(draggedShape := None, draggedIndex := None, isValidPlacement := false)
    {
      draggedShape := None;
      draggedIndex := None;
      isValidPlacement := false;
    }

    /** The restart buttons: an empty board, score 0, the game resumed and a new deal. The drag
        state and an armed power-up are kept. */
    method Restart(draws: seq<(real, real)>, ts: string)
      requires Valid() && DealDraws(draws)
      modifies this
      ensures Valid()
      ensures State() == old(State()).(board := EmptyBoard(), score := 0, gameOver := false, slots := Deal(draws, ts))
    {
      var dealt := DealThree(draws, ts);
      board := EmptyBoard();
      score := 0;
      gameOver := false;
      slots := dealt;
    }
  }

  /** A placement keeps the state consistent, never lowers the score and leaves no full line on
      the board. */
  lemma PlacementKeepsConsistent(s: GameState, shape: BlockShape, r0: int, c0: int, draws: seq<(real, real)>, ts: string,
                                 placed: bool, t: GameState, finalScore: Option<int>)
    requires Consistent(s) && DealDraws(draws)
    requires PlacedAs(s, shape, r0, c0, draws, ts, placed, t, finalScore)
    ensures Consistent(t)
    ensures t.score >= s.score
    ensures placed ==> LinesCleared(t.board) == 0
  {
    if placed {
      var filled := PlacedBoard(s.board, shape, r0, c0);
      var board := ClearedBoard(filled);
      var rest := UseSlot(s.slots, s.draggedIndex);
      assert |rest| == |s.slots|;
      ScoreGainClosedForm(|shape.cells|, LinesCleared(filled));
      ClearIdempotent(filled);
      assert t.board == board;
    }
  }
}
