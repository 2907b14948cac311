/** The 4x4 board as a value, read line by line for a direction, and what
    one push (merge pass, then compaction pass, on the same lines) does to
    it. */
module Boards {
  import opened Lines
  import opened Directions

  /** Rows of cells; `b[r][c]` is row r, column c, and 0 is an empty cell. */
  type Board = seq<seq<int>>

  ghost predicate IsBoard(b: Board) {
    |b| == 4 && forall r :: 0 <= r < 4 ==> |b[r]| == 4
  }

  /** The board a new match starts from: every cell empty. */
  const EmptyBoard: Board := [[0, 0, 0, 0], [0, 0, 0, 0], [0, 0, 0, 0], [0, 0, 0, 0]]

  function Cell(b: Board, cell: (int, int)): int
    requires IsBoard(b) && 0 <= cell.0 < 4 && 0 <= cell.1 < 4
  {
    b[cell.0][cell.1]
  }

  /** Line `k` of the board for direction `d`, in scan order. */
  function Line(b: Board, d: Direction, k: int): (s: seq<int>)
    requires IsBoard(b) && 0 <= k < 4
    ensures |s| == 4
    ensures forall p :: 0 <= p < 4 ==> s[p] == Cell(b, CellAt(d, k, p))
  {
    seq(4, p requires 0 <= p < 4 => Cell(b, CellAt(d, k, p)))
  }

  ghost predicate IsLines(lines: seq<seq<int>>) {
    |lines| == 4 && forall k :: 0 <= k < 4 ==> |lines[k]| == 4
  }

  /** The board whose line `k` for direction `d` is `lines[k]`. */
  function FromLines(d: Direction, lines: seq<seq<int>>): (b: Board)
    requires IsLines(lines)
    ensures IsBoard(b)
  {
    seq(4, r requires 0 <= r < 4 =>
      seq(4, c requires 0 <= c < 4 => lines[LineOf(d, r, c)][PosOf(d, r, c)]))
  }

  /** Reading the lines back gives the lines the board was built from. */
  lemma LinesOfFromLines(d: Direction, lines: seq<seq<int>>)
    requires IsLines(lines)
    ensures forall k :: 0 <= k < 4 ==> Line(FromLines(d, lines), d, k) == lines[k]
  {
  }

  /** The four lines of a direction cover the board: two boards with the same
      lines are the same board. */
  lemma LinesDetermineBoard(b1: Board, b2: Board, d: Direction)
    requires IsBoard(b1) && IsBoard(b2)
    requires forall k :: 0 <= k < 4 ==> Line(b1, d, k) == Line(b2, d, k)
    ensures b1 == b2
  {
    forall r, c | 0 <= r < 4 && 0 <= c < 4
      ensures b1[r][c] == b2[r][c]
    {
      CellAtLineOf(d, r, c);
      var k, p := LineOf(d, r, c), PosOf(d, r, c);
      assert Line(b1, d, k)[p] == Line(b2, d, k)[p];
    }
    forall r | 0 <= r < 4 ensures b1[r] == b2[r] {
    }
  }

  // -----------------------------------------------------------------------
  // One push

  /** The board after the merge pass for direction `d`. */
  function MergeBoard(b: Board, d: Direction): (m: Board)
    requires IsBoard(b)
    ensures IsBoard(m)
  {
    FromLines(d, seq(4, k requires 0 <= k < 4 => MergeLine(Line(b, d, k))))
  }

  /** Points scored by the merge pass: the sum over the four lines. */
  function MergeBoardScore(b: Board, d: Direction): int
    requires IsBoard(b)
  {
    MergeScore(Line(b, d, 0)) + MergeScore(Line(b, d, 1)) + MergeScore(Line(b, d, 2)) + MergeScore(Line(b, d, 3))
  }

  /** The board after the compaction pass for direction `d`. */
  function CompactBoard(b: Board, d: Direction): (m: Board)
    requires IsBoard(b)
    ensures IsBoard(m)
  {
    FromLines(d, seq(4, k requires 0 <= k < 4 => CompactLine(Line(b, d, k))))
  }

  /** What a push reports: the new board, the merge pass's points, and
      whether the compaction pass moved a tile. */
  datatype Outcome = Outcome(board: Board, score: int, moved: bool)

  /** One push: merge, then compact, along the same lines. The flag comes
      from the compaction pass alone, so a push in which tiles only merge in
      place reports no movement. */
  function Push(b: Board, d: Direction): (o: Outcome)
    requires IsBoard(b)
    ensures IsBoard(o.board)
  {
    var merged := MergeBoard(b, d);
    var compacted := CompactBoard(merged, d);
    Outcome(compacted, MergeBoardScore(b, d), compacted != merged)
  }

  /** Lines stay separate: line `k` after a push depends on line `k` before
      it and on nothing else, and it is the textbook 2048 move on that line. */
  lemma PushLine(b: Board, d: Direction, k: int)
    requires IsBoard(b) && 0 <= k < 4
    ensures Line(MergeBoard(b, d), d, k) == MergeLine(Line(b, d, k))
    ensures Line(Push(b, d).board, d, k) == CompactLine(MergeLine(Line(b, d, k)))
    ensures var tiles := Combine(NonZeros(Line(b, d, k)));
            Line(Push(b, d).board, d, k) == tiles + Zeros(4 - |tiles|)
  {
    var m := MergeBoard(b, d);
    MergeBoardLine(b, d, k);
    CompactBoardLine(m, d, k);
    PushLineCombines(Line(b, d, k));
  }

  lemma MergeBoardLine(b: Board, d: Direction, k: int)
    requires IsBoard(b) && 0 <= k < 4
    ensures Line(MergeBoard(b, d), d, k) == MergeLine(Line(b, d, k))
  {
    LinesOfFromLines(d, seq(4, j requires 0 <= j < 4 => MergeLine(Line(b, d, j))));
  }

  lemma CompactBoardLine(b: Board, d: Direction, k: int)
    requires IsBoard(b) && 0 <= k < 4
    ensures Line(CompactBoard(b, d), d, k) == CompactLine(Line(b, d, k))
  {
    LinesOfFromLines(d, seq(4, j requires 0 <= j < 4 => CompactLine(Line(b, d, j))));
  }

  /** The score of a push is what the textbook rule scores on each line. */
  lemma PushScore(b: Board, d: Direction)
    requires IsBoard(b)
    ensures Push(b, d).score ==
              CombineScore(NonZeros(Line(b, d, 0))) + CombineScore(NonZeros(Line(b, d, 1))) +
              CombineScore(NonZeros(Line(b, d, 2))) + CombineScore(NonZeros(Line(b, d, 3)))
  {
    PushLineCombines(Line(b, d, 0));
    PushLineCombines(Line(b, d, 1));
    PushLineCombines(Line(b, d, 2));
    PushLineCombines(Line(b, d, 3));
  }

  /** The flag is true exactly when the compaction pass changed the board,
      that is, when some line left by the merge pass was not yet packed. */
  lemma PushMoved(b: Board, d: Direction)
    requires IsBoard(b)
    ensures Push(b, d).moved <==> exists k :: 0 <= k < 4 && !Packed(Line(MergeBoard(b, d), d, k))
  {
    var m := MergeBoard(b, d);
    var c := CompactBoard(m, d);
    LinesOfFromLines(d, seq(4, j requires 0 <= j < 4 => CompactLine(Line(m, d, j))));
    forall k | 0 <= k < 4
      ensures Line(c, d, k) == Line(m, d, k) <==> Packed(Line(m, d, k))
    {
      CompactLineFixedIff(Line(m, d, k));
    }
    if forall k :: 0 <= k < 4 ==> Packed(Line(m, d, k)) {
      LinesDetermineBoard(c, m, d);
    }
  }

  /** Compacting an already compacted board changes nothing: a second
      compaction pass in the same direction reports no movement. */
  lemma CompactBoardIdempotent(b: Board, d: Direction)
    requires IsBoard(b)
    ensures CompactBoard(CompactBoard(b, d), d) == CompactBoard(b, d)
  {
    var c := CompactBoard(b, d);
    LinesOfFromLines(d, seq(4, j requires 0 <= j < 4 => CompactLine(Line(b, d, j))));
    LinesOfFromLines(d, seq(4, j requires 0 <= j < 4 => CompactLine(Line(c, d, j))));
    forall k | 0 <= k < 4
      ensures Line(CompactBoard(c, d), d, k) == Line(c, d, k)
    {
      CompactLineIdempotent(Line(b, d, k));
    }
    LinesDetermineBoard(CompactBoard(c, d), c, d);
  }

  /** Line `k` of `m` is what the merge pass makes of line `k` of `b`, and
      line `k` of `c` what the compaction pass makes of it. */
  ghost predicate PushesLine(b: Board, d: Direction, m: Board, c: Board, k: int)
    requires IsBoard(b) && IsBoard(m) && IsBoard(c) && 0 <= k < 4
  {
    MergeLine(Line(b, d, k)) == Line(m, d, k) && CompactLine(Line(m, d, k)) == Line(c, d, k)
  }

  /** A push is determined line by line. */
  lemma PushByLines(b: Board, d: Direction, m: Board, c: Board)
    requires IsBoard(b) && IsBoard(m) && IsBoard(c)
    requires PushesLine(b, d, m, c, 0) && PushesLine(b, d, m, c, 1)
    requires PushesLine(b, d, m, c, 2) && PushesLine(b, d, m, c, 3)
    ensures Push(b, d).board == c && Push(b, d).moved == (c != m)
    ensures Push(b, d).score ==
              MergeScore(Line(b, d, 0)) + MergeScore(Line(b, d, 1)) + MergeScore(Line(b, d, 2)) + MergeScore(Line(b, d, 3))
  {
    forall k | 0 <= k < 4
      ensures Line(m, d, k) == MergeLine(Line(b, d, k)) && Line(c, d, k) == CompactLine(Line(m, d, k))
    {
      assert PushesLine(b, d, m, c, k) by {
        if k == 0 {} else if k == 1 {} else if k == 2 {} else {}
      }
    }
    MergeBoardByLines(b, d, m);
    CompactBoardByLines(m, d, c);
  }

  /** A board whose every line is the merged line is the merged board. */
  lemma MergeBoardByLines(b: Board, d: Direction, m: Board)
    requires IsBoard(b) && IsBoard(m)
    requires forall k :: 0 <= k < 4 ==> Line(m, d, k) == MergeLine(Line(b, d, k))
    ensures m == MergeBoard(b, d)
  {
    LinesOfFromLines(d, seq(4, j requires 0 <= j < 4 => MergeLine(Line(b, d, j))));
    LinesDetermineBoard(MergeBoard(b, d), m, d);
  }

  /** A board whose every line is the compacted line is the compacted board. */
  lemma CompactBoardByLines(b: Board, d: Direction, c: Board)
    requires IsBoard(b) && IsBoard(c)
    requires forall k :: 0 <= k < 4 ==> Line(c, d, k) == CompactLine(Line(b, d, k))
    ensures c == CompactBoard(b, d)
  {
    LinesOfFromLines(d, seq(4, j requires 0 <= j < 4 => CompactLine(Line(b, d, j))));
    LinesDetermineBoard(CompactBoard(b, d), c, d);
  }

  /** The boards agree on every cell outside line `k`. */
  ghost predicate SameOffLine(a: Board, b: Board, d: Direction, k: int)
    requires IsBoard(a) && IsBoard(b)
  {
    forall r, c :: 0 <= r < 4 && 0 <= c < 4 && LineOf(d, r, c) != k ==> a[r][c] == b[r][c]
  }

  /** Boards that agree off line `k` have the same other lines. */
  lemma SameOffLineLines(a: Board, b: Board, d: Direction, k: int)
    requires IsBoard(a) && IsBoard(b) && SameOffLine(a, b, d, k)
    ensures forall j :: 0 <= j < 4 && j != k ==> Line(a, d, j) == Line(b, d, j)
  {
    forall j | 0 <= j < 4 && j != k ensures Line(a, d, j) == Line(b, d, j) {
      assert forall p :: 0 <= p < 4 ==> Line(a, d, j)[p] == Line(b, d, j)[p];
    }
  }

  /** Two boards differ exactly when one of their lines does. */
  lemma BoardsDifferByLines(a: Board, b: Board, d: Direction)
    requires IsBoard(a) && IsBoard(b)
    ensures a != b <==> exists j :: 0 <= j < 4 && Line(a, d, j) != Line(b, d, j)
  {
    if forall j :: 0 <= j < 4 ==> Line(a, d, j) == Line(b, d, j) {
      LinesDetermineBoard(a, b, d);
    }
  }

  /** Lines before `n` of `m` are lines of `b` with pass `f` applied; the
      rest are still the lines of `b`. */
  ghost predicate LinesDone(b: Board, m: Board, d: Direction, n: int, f: seq<int> -> seq<int>)
    requires IsBoard(b) && IsBoard(m)
  {
    (forall j :: 0 <= j < n && j < 4 ==> Line(m, d, j) == f(Line(b, d, j))) &&
    (forall j :: n <= j < 4 && 0 <= j ==> Line(m, d, j) == Line(b, d, j))
  }

  /** Applying the pass to line `n`, and to no other line, extends the
      lines done by one. */
  lemma LinesDoneStep(b: Board, m: Board, m': Board, d: Direction, n: int, f: seq<int> -> seq<int>)
    requires IsBoard(b) && IsBoard(m) && IsBoard(m') && 0 <= n < 4
    requires LinesDone(b, m, d, n, f)
    requires Line(m', d, n) == f(Line(m, d, n)) && SameOffLine(m', m, d, n)
    ensures Line(m, d, n) == Line(b, d, n)
    ensures LinesDone(b, m', d, n + 1, f)
  {
    SameOffLineLines(m', m, d, n);
  }

  /** Points the merge pass scores on the first `n` lines. */
  ghost function LinesScore(b: Board, d: Direction, n: int): int
    requires IsBoard(b) && 0 <= n <= 4
  {
    if n == 0 then 0 else LinesScore(b, d, n - 1) + MergeScore(Line(b, d, n - 1))
  }

  /** Summed over all four lines, the points are the merge pass's score. */
  lemma LinesScoreAll(b: Board, d: Direction)
    requires IsBoard(b)
    ensures LinesScore(b, d, 4) == MergeBoardScore(b, d)
  {
    assert LinesScore(b, d, 1) == MergeScore(Line(b, d, 0));
    assert LinesScore(b, d, 2) == LinesScore(b, d, 1) + MergeScore(Line(b, d, 1));
    assert LinesScore(b, d, 3) == LinesScore(b, d, 2) + MergeScore(Line(b, d, 2));
  }

  /** Writing one cell changes one position of one line. */
  lemma WriteLine(b: Board, d: Direction, k: int, p: int, v: int)
    requires IsBoard(b) && 0 <= k < 4 && 0 <= p < 4
    ensures var cell := CellAt(d, k, p);
            Line(Write(b, cell.0, cell.1, v), d, k) == Line(b, d, k)[p := v]
    ensures var cell := CellAt(d, k, p);
            forall j :: 0 <= j < 4 && j != k ==> Line(Write(b, cell.0, cell.1, v), d, j) == Line(b, d, j)
  {
  }

  // -----------------------------------------------------------------------
  // Directions on rows and columns

  function Reverse(s: seq<int>): (r: seq<int>)
    ensures |r| == |s| && forall i :: 0 <= i < |s| ==> r[i] == s[|s| - 1 - i]
  {
    seq(|s|, i requires 0 <= i < |s| => s[|s| - 1 - i])
  }

  function Column(b: Board, c: int): (col: seq<int>)
    requires IsBoard(b) && 0 <= c < 4
    ensures |col| == 4 && forall r :: 0 <= r < 4 ==> col[r] == b[r][c]
  {
    seq(4, r requires 0 <= r < 4 => b[r][c])
  }

  /** Left reads a row from column 0, Right from column 3, Up reads a column
      from row 0, Down from row 3. */
  lemma DirectionLines(b: Board, k: int)
    requires IsBoard(b) && 0 <= k < 4
    ensures Line(b, Left, k) == b[k]
    ensures Line(b, Right, k) == Reverse(b[k])
    ensures Line(b, Up, k) == Column(b, k)
    ensures Line(b, Down, k) == Reverse(Column(b, k))
  {
  }

  /** A packs every row toward column 0. */
  lemma PushLeftRow(b: Board, k: int)
    requires IsBoard(b) && 0 <= k < 4
    ensures Push(b, Left).board[k] == CompactLine(MergeLine(b[k]))
    ensures Packed(Push(b, Left).board[k])
  {
    PushLine(b, Left, k);
    DirectionLines(b, k);
    DirectionLines(Push(b, Left).board, k);
    CompactLineShape(MergeLine(b[k]));
  }

  /** D packs every row toward column 3. */
  lemma PushRightRow(b: Board, k: int)
    requires IsBoard(b) && 0 <= k < 4
    ensures Push(b, Right).board[k] == Reverse(CompactLine(MergeLine(Reverse(b[k]))))
    ensures Packed(Reverse(Push(b, Right).board[k]))
  {
    var r := Push(b, Right).board[k];
    assert Reverse(r) == CompactLine(MergeLine(Reverse(b[k]))) by {
      PushLine(b, Right, k);
      DirectionLines(b, k);
      DirectionLines(Push(b, Right).board, k);
    }
    CompactLineShape(MergeLine(Reverse(b[k])));
    assert Reverse(Reverse(r)) == r;
  }

  /** W packs every column toward row 0. */
  lemma PushUpColumn(b: Board, k: int)
    requires IsBoard(b) && 0 <= k < 4
    ensures Column(Push(b, Up).board, k) == CompactLine(MergeLine(Column(b, k)))
    ensures Packed(Column(Push(b, Up).board, k))
  {
    PushLine(b, Up, k);
    DirectionLines(b, k);
    DirectionLines(Push(b, Up).board, k);
    CompactLineShape(MergeLine(Column(b, k)));
  }

  /** S packs every column toward row 3. */
  lemma PushDownColumn(b: Board, k: int)
    requires IsBoard(b) && 0 <= k < 4
    ensures Column(Push(b, Down).board, k) == Reverse(CompactLine(MergeLine(Reverse(Column(b, k)))))
    ensures Packed(Reverse(Column(Push(b, Down).board, k)))
  {
    var c := Column(Push(b, Down).board, k);
    assert Reverse(c) == CompactLine(MergeLine(Reverse(Column(b, k)))) by {
      PushLine(b, Down, k);
      DirectionLines(b, k);
      DirectionLines(Push(b, Down).board, k);
    }
    CompactLineShape(MergeLine(Reverse(Column(b, k))));
    assert Reverse(Reverse(c)) == c;
  }

  // -----------------------------------------------------------------------
  // Terminal checks

  ghost predicate HasEmptyCell(b: Board)
    requires IsBoard(b)
  {
    exists r, c :: 0 <= r < 4 && 0 <= c < 4 && b[r][c] == 0
  }

  /** Two equal cells side by side in some row. */
  ghost predicate HasHorizontalPair(b: Board)
    requires IsBoard(b)
  {
    exists r, c :: 0 <= r < 4 && 0 <= c < 3 && b[r][c] == b[r][c + 1]
  }

  /** Two equal cells one above the other in some column. */
  ghost predicate HasVerticalPair(b: Board)
    requires IsBoard(b)
  {
    exists r, c {:trigger b[r + 1][c]} :: 0 <= r < 3 && 0 <= c < 4 && b[r][c] == b[r + 1][c]
  }

  /** The condition under which the game goes on. */
  ghost predicate MoveAvailable(b: Board)
    requires IsBoard(b)
  {
    HasEmptyCell(b) || HasHorizontalPair(b) || HasVerticalPair(b)
  }

  /** The tile that wins the game. */
  const WinningTile := 2048

  ghost predicate Won(b: Board)
    requires IsBoard(b)
  {
    exists r, c :: 0 <= r < 4 && 0 <= c < 4 && b[r][c] == WinningTile
  }

  /** On a board that cannot move, every line of every direction is full and
      has no two equal neighbours. */
  lemma StuckLines(b: Board, d: Direction, k: int)
    requires IsBoard(b) && !MoveAvailable(b) && 0 <= k < 4
    ensures forall i :: 0 <= i < 4 ==> Line(b, d, k)[i] != 0
    ensures forall i :: 0 <= i < 3 ==> Line(b, d, k)[i] != Line(b, d, k)[i + 1]
  {
    var s := Line(b, d, k);
    forall i | 0 <= i < 3 ensures s[i] != s[i + 1] {
      if d == Left {
        assert b[k][i] != b[k][i + 1];
      } else if d == Right {
        var c := 2 - i;
        assert b[k][c] != b[k][c + 1];
      } else if d == Up {
        assert b[i][k] != b[i + 1][k];
      } else {
        var r := 2 - i;
        assert b[r][k] != b[r + 1][k];
      }
    }
  }

  /** When the game cannot go on, a push in any direction changes nothing,
      scores nothing and reports no movement. */
  lemma StuckBoard(b: Board, d: Direction)
    requires IsBoard(b) && !MoveAvailable(b)
    ensures Push(b, d) == Outcome(b, 0, false)
  {
    var m := MergeBoard(b, d);
    forall k | 0 <= k < 4
      ensures MergeScore(Line(b, d, k)) == 0
      ensures Line(m, d, k) == Line(b, d, k)
    {
      StuckLines(b, d, k);
      StuckLine(Line(b, d, k), 0);
      MergeBoardLine(b, d, k);
    }
    LinesDetermineBoard(m, b, d);
    forall k | 0 <= k < 4
      ensures Line(CompactBoard(b, d), d, k) == Line(b, d, k)
    {
      StuckLines(b, d, k);
      StuckLine(Line(b, d, k), 0);
      CompactBoardLine(b, d, k);
    }
    LinesDetermineBoard(CompactBoard(b, d), b, d);
  }

  // -----------------------------------------------------------------------
  // Tiles

  ghost predicate AllTilesBoard(b: Board)
    requires IsBoard(b)
  {
    forall r, c :: 0 <= r < 4 && 0 <= c < 4 ==> IsTile(b[r][c])
  }

  lemma TilesByLines(b: Board, d: Direction)
    requires IsBoard(b)
    ensures AllTilesBoard(b) <==> forall k :: 0 <= k < 4 ==> AllTiles(Line(b, d, k))
  {
    if forall k :: 0 <= k < 4 ==> AllTiles(Line(b, d, k)) {
      forall r, c | 0 <= r < 4 && 0 <= c < 4 ensures IsTile(b[r][c]) {
        CellAtLineOf(d, r, c);
        assert Line(b, d, LineOf(d, r, c))[PosOf(d, r, c)] == b[r][c];
      }
    }
  }

  /** A push keeps every cell empty or a power of two from 2 on. */
  lemma PushKeepsTiles(b: Board, d: Direction)
    requires IsBoard(b) && AllTilesBoard(b)
    ensures AllTilesBoard(Push(b, d).board)
  {
    TilesByLines(b, d);
    TilesByLines(MergeBoard(b, d), d);
    TilesByLines(Push(b, d).board, d);
    forall k | 0 <= k < 4 ensures AllTiles(Line(Push(b, d).board, d, k)) {
      PushLine(b, d, k);
      PassesKeepTiles(Line(b, d, k));
      PassesKeepTiles(MergeLine(Line(b, d, k)));
    }
  }

  // -----------------------------------------------------------------------
  // Empty cells

  /** The value `v` written into row `r`, column `c`. */
  function Write(b: Board, r: int, c: int, v: int): (w: Board)
    requires IsBoard(b) && 0 <= r < 4 && 0 <= c < 4
    ensures IsBoard(w)
  {
    b[r := b[r][c := v]]
  }

  /** Boards are equal when they agree cell by cell. */
  lemma BoardsEqual(a: Board, b: Board)
    requires IsBoard(a) && IsBoard(b)
    requires forall r, c :: 0 <= r < 4 && 0 <= c < 4 ==> a[r][c] == b[r][c]
    ensures a == b
  {
    forall r | 0 <= r < 4 ensures a[r] == b[r] {
      assert forall c :: 0 <= c < 4 ==> a[r][c] == b[r][c];
    }
  }

  /** Row-major position of a cell. */
  function Order(cell: (int, int)): int {
    4 * cell.0 + cell.1
  }

  /** The empty cells among the first `c` cells of row `r`, left to right. */
  function EmptyInRow(b: Board, r: int, c: int): seq<(int, int)>
    requires IsBoard(b) && 0 <= r < 4 && 0 <= c <= 4
  {
    if c == 0 then []
    else EmptyInRow(b, r, c - 1) + (if b[r][c - 1] == 0 then [(r, c - 1)] else [])
  }

  /** The empty cells of the first `r` rows, in row-major order. */
  function EmptyInRows(b: Board, r: int): seq<(int, int)>
    requires IsBoard(b) && 0 <= r <= 4
  {
    if r == 0 then [] else EmptyInRows(b, r - 1) + EmptyInRow(b, r - 1, 4)
  }

  /** The empty cells of the board, in row-major order. */
  function EmptyCells(b: Board): seq<(int, int)>
    requires IsBoard(b)
  {
    EmptyInRows(b, 4)
  }

  ghost predicate InBoard(cell: (int, int)) {
    0 <= cell.0 < 4 && 0 <= cell.1 < 4
  }

  ghost predicate Ascending(cells: seq<(int, int)>) {
    forall i, j :: 0 <= i < j < |cells| ==> Order(cells[i]) < Order(cells[j])
  }

  lemma {:induction false} EmptyInRowExact(b: Board, r: int, c: int)
    requires IsBoard(b) && 0 <= r < 4 && 0 <= c <= 4
    ensures forall cell :: cell in EmptyInRow(b, r, c) <==>
              cell.0 == r && 0 <= cell.1 < c && b[r][cell.1] == 0
    ensures Ascending(EmptyInRow(b, r, c))
  {
    if c > 0 {
      EmptyInRowExact(b, r, c - 1);
    }
  }

  lemma {:induction false} EmptyInRowsExact(b: Board, r: int)
    requires IsBoard(b) && 0 <= r <= 4
    ensures forall cell :: cell in EmptyInRows(b, r) <==>
              InBoard(cell) && cell.0 < r && b[cell.0][cell.1] == 0
    ensures Ascending(EmptyInRows(b, r))
  {
    if r > 0 {
      EmptyInRowsExact(b, r - 1);
      EmptyInRowExact(b, r - 1, 4);
      var front, row := EmptyInRows(b, r - 1), EmptyInRow(b, r - 1, 4);
      forall i, j | 0 <= i < j < |front + row|
        ensures Order((front + row)[i]) < Order((front + row)[j])
      {
        if j >= |front| && i < |front| {
          assert front[i] in front;
          assert row[j - |front|] in row;
        }
      }
    }
  }

  /** The listed cells are exactly the empty ones, each once, in row-major
      order. */
  lemma EmptyCellsExact(b: Board)
    requires IsBoard(b)
    ensures forall cell :: cell in EmptyCells(b) <==> InBoard(cell) && b[cell.0][cell.1] == 0
    ensures forall i, j :: 0 <= i < j < |EmptyCells(b)| ==>
              Order(EmptyCells(b)[i]) < Order(EmptyCells(b)[j])
  {
    EmptyInRowsExact(b, 4);
  }

  lemma {:induction false} EmptyInRowWrite(b: Board, r: int, c: int, v: int, r': int, n: int)
    requires IsBoard(b) && 0 <= r < 4 && 0 <= c < 4 && b[r][c] == 0 && v != 0
    requires 0 <= r' < 4 && 0 <= n <= 4
    ensures |EmptyInRow(Write(b, r, c, v), r', n)| ==
              if r' == r && c < n then |EmptyInRow(b, r', n)| - 1 else |EmptyInRow(b, r', n)|
  {
    if n > 0 {
      EmptyInRowWrite(b, r, c, v, r', n - 1);
    }
  }

  lemma {:induction false} EmptyInRowsWrite(b: Board, r: int, c: int, v: int, n: int)
    requires IsBoard(b) && 0 <= r < 4 && 0 <= c < 4 && b[r][c] == 0 && v != 0 && 0 <= n <= 4
    ensures |EmptyInRows(Write(b, r, c, v), n)| ==
              if r < n then |EmptyInRows(b, n)| - 1 else |EmptyInRows(b, n)|
  {
    if n > 0 {
      EmptyInRowsWrite(b, r, c, v, n - 1);
      EmptyInRowWrite(b, r, c, v, n - 1, 4);
    }
  }

  /** Filling an empty cell shortens the list of empty cells by one. */
  lemma EmptyCellsWrite(b: Board, r: int, c: int, v: int)
    requires IsBoard(b) && 0 <= r < 4 && 0 <= c < 4 && b[r][c] == 0 && v != 0
    ensures |EmptyCells(Write(b, r, c, v))| == |EmptyCells(b)| - 1
  {
    EmptyInRowsWrite(b, r, c, v, 4);
  }

  /** Writing a 2 or a 4 keeps every cell empty or a power of two from 2 on. */
  lemma WriteKeepsTiles(b: Board, r: int, c: int, v: int)
    requires IsBoard(b) && 0 <= r < 4 && 0 <= c < 4 && AllTilesBoard(b) && (v == 2 || v == 4)
    ensures AllTilesBoard(Write(b, r, c, v))
  {
    assert IsTile(2) && IsTile(4) by {
      assert IsPowerOfTwo(1);
      assert IsPowerOfTwo(2);
      assert IsPowerOfTwo(4);
    }
  }

  /** A board has an empty cell exactly when the list of empty cells is
      not empty. */
  lemma EmptyCellsNonEmpty(b: Board)
    requires IsBoard(b)
    ensures EmptyCells(b) != [] <==> HasEmptyCell(b)
  {
    EmptyCellsExact(b);
    var cells := EmptyCells(b);
    if HasEmptyCell(b) {
      var r, c :| 0 <= r < 4 && 0 <= c < 4 && b[r][c] == 0;
      assert InBoard((r, c));
      assert (r, c) in cells;
    }
    if cells != [] {
      assert cells[0] in cells;
    }
  }
}
