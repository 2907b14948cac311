/** The engine's operations on the game table, a 4x4 array updated in place.
    Each is proved against the board functions of module Boards, read off
    the array by Snapshot. */
module Helpers {
  import opened Directions
  import opened Lines
  import opened Boards

  ghost predicate IsTable(t: array2<int>) {
    t.Length0 == 4 && t.Length1 == 4
  }

  /** The board the table holds right now. */
  ghost function Snapshot(t: array2<int>): (b: Board)
    requires IsTable(t)
    reads t
    ensures IsBoard(b)
    ensures forall r, c :: 0 <= r < 4 && 0 <= c < 4 ==> b[r][c] == t[r, c]
  {
    [[t[0, 0], t[0, 1], t[0, 2], t[0, 3]],
     [t[1, 0], t[1, 1], t[1, 2], t[1, 3]],
     [t[2, 0], t[2, 1], t[2, 2], t[2, 3]],
     [t[3, 0], t[3, 1], t[3, 2], t[3, 3]]]
  }

  /** A new table: 4x4, every cell empty. */
  method NewTable() returns (t: array2<int>)
    ensures fresh(t) && IsTable(t)
    ensures Snapshot(t) == EmptyBoard
  {
    t := new int[4, 4]((r, c) => 0);
  }

  // -----------------------------------------------------------------------
  // Empty cells and tile insertion

  /** The empty cells of the table, scanned row by row. */
  method GetEmptyIndexes(t: array2<int>) returns (indexes: seq<(int, int)>)
    requires IsTable(t)
    ensures indexes == EmptyCells(Snapshot(t))
  {
    ghost var b := Snapshot(t);
    indexes := [];
    for row := 0 to 4
      invariant indexes == EmptyInRows(b, row)
    {
      for col := 0 to 4
        invariant indexes == EmptyInRows(b, row) + EmptyInRow(b, row, col)
      {
        if t[row, col] == 0 {
          indexes := indexes + [(row, col)];
        }
      }
    }
  }

  /** Writes a 2 or a 4 into one empty cell, chosen freely; a full table is
      left as it is. */
  method InsertBlock(t: array2<int>)
    requires IsTable(t)
    modifies t
    ensures old(EmptyCells(Snapshot(t))) == [] ==> Snapshot(t) == old(Snapshot(t))
    ensures old(EmptyCells(Snapshot(t))) != [] ==>
              exists r, c, v :: 0 <= r < 4 && 0 <= c < 4 && old(Snapshot(t))[r][c] == 0 &&
                (v == 2 || v == 4) && Snapshot(t) == Write(old(Snapshot(t)), r, c, v)
    ensures old(EmptyCells(Snapshot(t))) != [] ==>
              |EmptyCells(Snapshot(t))| == |old(EmptyCells(Snapshot(t)))| - 1
    ensures old(AllTilesBoard(Snapshot(t))) ==> AllTilesBoard(Snapshot(t))
  {
    ghost var b := Snapshot(t);
    var indexes := GetEmptyIndexes(t);
    if |indexes| > 0 {
      var i :| 0 <= i < |indexes|;
      var row, col := indexes[i].0, indexes[i].1;
      var v :| v in [2, 4];
      EmptyCellsExact(b);
      assert indexes[i] in EmptyCells(b);
      t[row, col] := v;
      BoardsEqual(Snapshot(t), Write(b, row, col, v));
      EmptyCellsWrite(b, row, col, v);
      if AllTilesBoard(b) {
        WriteKeepsTiles(b, row, col, v);
      }
    }
  }

  // -----------------------------------------------------------------------
  // Terminal checks

  /** Some row holds two equal cells side by side. */
  method CanMoveHorizontally(t: array2<int>) returns (r: bool)
    requires IsTable(t)
    ensures r == HasHorizontalPair(Snapshot(t))
  {
    for row := 0 to 4
      invariant forall i, j :: 0 <= i < row && 0 <= j < 3 ==> t[i, j] != t[i, j + 1]
    {
      for col := 0 to 3
        invariant forall j :: 0 <= j < col ==> t[row, j] != t[row, j + 1]
      {
        if t[row, col] == t[row, col + 1] {
          assert Snapshot(t)[row][col] == Snapshot(t)[row][col + 1];
          return true;
        }
      }
    }
    return false;
  }

  /** Some column holds two equal cells one above the other. */
  method CanMoveVertically(t: array2<int>) returns (r: bool)
    requires IsTable(t)
    ensures r == HasVerticalPair(Snapshot(t))
  {
    for col := 0 to 4
      invariant forall i, j :: 0 <= i < 3 && 0 <= j < col ==> t[i, j] != t[i + 1, j]
    {
      for row := 0 to 3
        invariant forall i :: 0 <= i < row ==> t[i, col] != t[i + 1, col]
      {
        if t[row, col] == t[row + 1, col] {
          assert Snapshot(t)[row][col] == Snapshot(t)[row + 1][col];
          return true;
        }
      }
    }
    return false;
  }

  /** The game goes on while a cell is empty or two neighbours in a row or
      a column are equal. */
  method CanMove(t: array2<int>) returns (r: bool)
    requires IsTable(t)
    ensures r == MoveAvailable(Snapshot(t))
  {
    var indexes := GetEmptyIndexes(t);
    EmptyCellsNonEmpty(Snapshot(t));
    if |indexes| > 0 {
      return true;
    }
    r := CanMoveHorizontally(t);
    if !r {
      r := CanMoveVertically(t);
    }
  }

  /** Some cell holds the winning tile. */
  method HasWon(t: array2<int>) returns (r: bool)
    requires IsTable(t)
    ensures r == Won(Snapshot(t))
  {
    for row := 0 to 4
      invariant forall i, j :: 0 <= i < row && 0 <= j < 4 ==> t[i, j] != WinningTile
    {
      for col := 0 to 4
        invariant forall j :: 0 <= j < col ==> t[row, j] != WinningTile
      {
        if t[row, col] == WinningTile {
          assert Snapshot(t)[row][col] == WinningTile;
          return true;
        }
      }
    }
    return false;
  }

  // -----------------------------------------------------------------------
  // The push passes, one line at a time

  // The source walks array indexes with range(start, end, step): the pivot
  // from the near edge up to the cell before the far edge, the cursor from
  // the cell after the pivot to the far edge. The loops below walk the same
  // cells by scan position p (and q), at array index Index(d, p).

  /** Reads array index `i` of line `k`, which is scan position `p`. */
  method Get(t: array2<int>, d: Direction, k: int, i: int, ghost p: int) returns (v: int)
    requires IsTable(t) && 0 <= k < 4 && 0 <= p < 4 && i == Index(d, p)
    ensures v == Line(Snapshot(t), d, k)[p]
  {
    var cell := At(d, k, i);
    v := t[cell.0, cell.1];
  }

  /** Writes `v` at array index `i` of line `k`, which is scan position `p`. */
  method Put(t: array2<int>, d: Direction, k: int, i: int, v: int, ghost p: int)
    requires IsTable(t) && 0 <= k < 4 && 0 <= p < 4 && i == Index(d, p)
    modifies t
    ensures Line(Snapshot(t), d, k) == old(Line(Snapshot(t), d, k))[p := v]
    ensures SameOffLine(Snapshot(t), old(Snapshot(t)), d, k)
  {
    ghost var b := Snapshot(t);
    var cell := At(d, k, i);
    t[cell.0, cell.1] := v;
    BoardsEqual(Snapshot(t), Write(b, cell.0, cell.1, v));
    WriteLine(b, d, k, p, v);
  }

  /** One pivot of the merge pass: the cursor walks from the cell after the
      pivot to the far edge, skipping empty cells; the first tile it meets
      is absorbed into the pivot when equal to it and otherwise stops the
      walk. */
  method MergePivot(t: array2<int>, d: Direction, k: int, p: int) returns (gained: int)
    requires IsTable(t) && 0 <= k < 4 && 0 <= p < 3
    modifies t
    ensures Line(Snapshot(t), d, k) == MergeScan(old(Line(Snapshot(t), d, k)), p, p + 1).line
    ensures gained == MergeScan(old(Line(Snapshot(t), d, k)), p, p + 1).score
    ensures SameOffLine(Snapshot(t), old(Snapshot(t)), d, k)
  {
    ghost var cur := Line(Snapshot(t), d, k);
    var idx := Index(d, p);
    var last := Get(t, d, k, idx, p);
    gained := 0;
    for q := p + 1 to 4
      invariant Line(Snapshot(t), d, k) == cur && gained == 0
      invariant MergeScan(cur, p, q) == MergeScan(cur, p, p + 1)
      invariant Snapshot(t) == old(Snapshot(t))
    {
      var cursor := Index(d, q);
      var current := Get(t, d, k, cursor, q);
      if current == 0 {
      } else if current == last {
        Put(t, d, k, idx, 2 * last, p);
        Put(t, d, k, cursor, 0, q);
        gained := 2 * last;
        return;
      } else {
        return;
      }
    }
  }

  /** The merge pass on line `k`: every pivot but the far edge in scan
      order, each on the line as the earlier pivots left it. */
  method SumLine(t: array2<int>, d: Direction, k: int) returns (gained: int)
    requires IsTable(t) && 0 <= k < 4
    modifies t
    ensures Line(Snapshot(t), d, k) == MergeLine(old(Line(Snapshot(t), d, k)))
    ensures gained == MergeScore(old(Line(Snapshot(t), d, k)))
    ensures SameOffLine(Snapshot(t), old(Snapshot(t)), d, k)
  {
    ghost var b := Snapshot(t);
    ghost var s := Line(b, d, k);
    gained := 0;
    for p := 0 to 3
      invariant MergeFrom(Line(Snapshot(t), d, k), p).line == MergeLine(s)
      invariant gained + MergeFrom(Line(Snapshot(t), d, k), p).score == MergeScore(s)
      invariant SameOffLine(Snapshot(t), b, d, k)
    {
      var g := MergePivot(t, d, k, p);
      gained := gained + g;
    }
  }

  /** One pivot of the compaction pass: an empty pivot takes the first tile
      after it in scan order, swapping places with it; a pivot holding a
      tile stays. */
  method MovePivot(t: array2<int>, d: Direction, k: int, p: int) returns (swapped: bool)
    requires IsTable(t) && 0 <= k < 4 && 0 <= p < 3
    modifies t
    ensures var s := old(Line(Snapshot(t), d, k));
            swapped == (s[p] == 0 && FirstNonZero(s, p + 1) < 4)
    ensures swapped == (MoveStep(old(Line(Snapshot(t), d, k)), p) != old(Line(Snapshot(t), d, k)))
    ensures Line(Snapshot(t), d, k) == MoveStep(old(Line(Snapshot(t), d, k)), p)
    ensures SameOffLine(Snapshot(t), old(Snapshot(t)), d, k)
  {
    ghost var cur := Line(Snapshot(t), d, k);
    swapped := false;
    var idx := Index(d, p);
    var pivot := Get(t, d, k, idx, p);
    if pivot != 0 {
      return;
    }
    for q := p + 1 to 4
      invariant Line(Snapshot(t), d, k) == cur && !swapped
      invariant FirstNonZero(cur, q) == FirstNonZero(cur, p + 1)
      invariant Snapshot(t) == old(Snapshot(t))
    {
      var cursor := Index(d, q);
      var current := Get(t, d, k, cursor, q);
      if current != 0 {
        var temp := pivot;
        Put(t, d, k, idx, current, p);
        Put(t, d, k, cursor, temp, q);
        swapped := true;
        return;
      }
    }
  }

  /** The compaction pass on line `k`: every pivot but the far edge in scan
      order. Reports whether any tile moved. */
  method MoveLine(t: array2<int>, d: Direction, k: int) returns (moved: bool)
    requires IsTable(t) && 0 <= k < 4
    modifies t
    ensures Line(Snapshot(t), d, k) == CompactLine(old(Line(Snapshot(t), d, k)))
    ensures moved == (CompactLine(old(Line(Snapshot(t), d, k))) != old(Line(Snapshot(t), d, k)))
    ensures SameOffLine(Snapshot(t), old(Snapshot(t)), d, k)
  {
    ghost var b := Snapshot(t);
    ghost var s := Line(b, d, k);
    ghost var cur := s;
    moved := false;
    for p := 0 to 3
      invariant Line(Snapshot(t), d, k) == cur && |cur| == 4
      invariant NonZeros(cur) == NonZeros(s) && SettledBefore(cur, p)
      invariant !moved ==> cur == s
      invariant moved ==> !Packed(s)
      invariant SameOffLine(Snapshot(t), b, d, k)
    {
      MoveStepSettles(cur, p);
      var swapped := MovePivot(t, d, k, p);
      if swapped {
        moved := true;
      }
      cur := MoveStep(cur, p);
    }
    CompactionDone(cur, s, moved);
  }

  // -----------------------------------------------------------------------
  // The passes over the whole table

  /** The merge pass along every row, toward column 0 for Left and toward
      column 3 for Right; returns the points scored. */
  method HorizontalSum(t: array2<int>, d: Direction) returns (sum: int)
    requires IsTable(t) && d.Horizontal()
    modifies t
    ensures Snapshot(t) == MergeBoard(old(Snapshot(t)), d)
    ensures sum == MergeBoardScore(old(Snapshot(t)), d)
  {
    ghost var b := Snapshot(t);
    sum := 0;
    for row := 0 to 4
      invariant LinesDone(b, Snapshot(t), d, row, MergeLine)
      invariant sum == LinesScore(b, d, row)
    {
      ghost var before := Snapshot(t);
      var gained := SumLine(t, d, row);
      LinesDoneStep(b, before, Snapshot(t), d, row, MergeLine);
      assert gained == MergeScore(Line(b, d, row));
      assert LinesScore(b, d, row + 1) == LinesScore(b, d, row) + MergeScore(Line(b, d, row));
      sum := sum + gained;
    }
    MergeBoardByLines(b, d, Snapshot(t));
    LinesScoreAll(b, d);
  }

  /** The merge pass along every column, toward row 0 for Up and toward
      row 3 for Down; returns the points scored. */
  method VerticalSum(t: array2<int>, d: Direction) returns (sum: int)
    requires IsTable(t) && !d.Horizontal()
    modifies t
    ensures Snapshot(t) == MergeBoard(old(Snapshot(t)), d)
    ensures sum == MergeBoardScore(old(Snapshot(t)), d)
  {
    ghost var b := Snapshot(t);
    sum := 0;
    for col := 0 to 4
      invariant LinesDone(b, Snapshot(t), d, col, MergeLine)
      invariant sum == LinesScore(b, d, col)
    {
      ghost var before := Snapshot(t);
      var gained := SumLine(t, d, col);
      LinesDoneStep(b, before, Snapshot(t), d, col, MergeLine);
      assert gained == MergeScore(Line(b, d, col));
      assert LinesScore(b, d, col + 1) == LinesScore(b, d, col) + MergeScore(Line(b, d, col));
      sum := sum + gained;
    }
    MergeBoardByLines(b, d, Snapshot(t));
    LinesScoreAll(b, d);
  }

  /** The compaction pass along every row; reports whether a tile moved. */
  method HorizontalMove(t: array2<int>, d: Direction) returns (movement: bool)
    requires IsTable(t) && d.Horizontal()
    modifies t
    ensures Snapshot(t) == CompactBoard(old(Snapshot(t)), d)
    ensures movement == (Snapshot(t) != old(Snapshot(t)))
  {
    ghost var b := Snapshot(t);
    movement := false;
    for row := 0 to 4
      invariant LinesDone(b, Snapshot(t), d, row, CompactLine)
      invariant movement == exists j :: 0 <= j < row && CompactLine(Line(b, d, j)) != Line(b, d, j)
    {
      ghost var before := Snapshot(t);
      var moved := MoveLine(t, d, row);
      LinesDoneStep(b, before, Snapshot(t), d, row, CompactLine);
      if moved {
        movement := true;
      }
    }
    CompactBoardByLines(b, d, Snapshot(t));
    BoardsDifferByLines(Snapshot(t), b, d);
  }

  /** The compaction pass along every column; reports whether a tile
      moved. */
  method VerticalMove(t: array2<int>, d: Direction) returns (movement: bool)
    requires IsTable(t) && !d.Horizontal()
    modifies t
    ensures Snapshot(t) == CompactBoard(old(Snapshot(t)), d)
    ensures movement == (Snapshot(t) != old(Snapshot(t)))
  {
    ghost var b := Snapshot(t);
    movement := false;
    for col := 0 to 4
      invariant LinesDone(b, Snapshot(t), d, col, CompactLine)
      invariant movement == exists j :: 0 <= j < col && CompactLine(Line(b, d, j)) != Line(b, d, j)
    {
      ghost var before := Snapshot(t);
      var moved := MoveLine(t, d, col);
      LinesDoneStep(b, before, Snapshot(t), d, col, CompactLine);
      if moved {
        movement := true;
      }
    }
    CompactBoardByLines(b, d, Snapshot(t));
    BoardsDifferByLines(Snapshot(t), b, d);
  }

  /** One move: the key picks the direction; the merge pass runs and then
      the compaction pass on the same axis. Returns the merge pass's points
      and the compaction pass's movement flag. */
  method PushBlocks(t: array2<int>, key: char) returns (score: int, moved: bool)
    requires IsTable(t) && key in {'W', 'A', 'S', 'D'}
    modifies t
    ensures Snapshot(t) == Push(old(Snapshot(t)), FromKey(key).value).board
    ensures score == Push(old(Snapshot(t)), FromKey(key).value).score
    ensures moved == Push(old(Snapshot(t)), FromKey(key).value).moved
  {
    match key
    case 'A' =>
      score := HorizontalSum(t, Left);
      moved := HorizontalMove(t, Left);
    case 'D' =>
      score := HorizontalSum(t, Right);
      moved := HorizontalMove(t, Right);
    case 'W' =>
      score := VerticalSum(t, Up);
      moved := VerticalMove(t, Up);
    case 'S' =>
      score := VerticalSum(t, Down);
      moved := VerticalMove(t, Down);
  }
}
