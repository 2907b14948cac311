/** The documented push sequence and the worked examples, each computed
    line by line on the model. */
module Examples {
  import opened Lines
  import opened Directions
  import opened Boards

  /** A line that is empty before, after the merge pass and after the
      compaction pass is consistent with one push. */
  lemma EmptyLinePushes(b: Board, d: Direction, m: Board, c: Board, k: int)
    requires IsBoard(b) && IsBoard(m) && IsBoard(c) && 0 <= k < 4
    requires AllZero(Line(b, d, k)) && AllZero(Line(m, d, k)) && AllZero(Line(c, d, k))
    ensures PushesLine(b, d, m, c, k) && MergeScore(Line(b, d, k)) == 0
  {
    EmptyLine(Line(b, d, k), 0);
    assert Line(b, d, k) == Line(m, d, k) == Line(c, d, k);
  }

  /** Both passes on the line [4, 2, 2, 0]. */
  lemma LineExample_4_2_2_0(s: seq<int>, m: seq<int>, c: seq<int>)
    requires s == [4, 2, 2, 0] && m == [4, 4, 0, 0] && c == [4, 4, 0, 0]
    ensures MergeFrom(s, 0) == Merge(m, 4) && MergeScore(s) == 4 && CompactLine(m) == c
  {
    assert MergeFrom([4, 2, 2, 0], 0) == Merge([4, 4, 0, 0], 4) && CompactLine([4, 4, 0, 0]) == [4, 4, 0, 0] by {
      assert MergeScan([4, 4, 0, 0], 2, 4) == Merge([4, 4, 0, 0], 0);
      assert MergeScan([4, 4, 0, 0], 2, 3) == Merge([4, 4, 0, 0], 0);
      assert MergeScan([4, 2, 2, 0], 1, 2) == Merge([4, 4, 0, 0], 4);
      assert MergeScan([4, 2, 2, 0], 0, 1) == Merge([4, 2, 2, 0], 0);
      assert MergeFrom([4, 4, 0, 0], 3) == Merge([4, 4, 0, 0], 0);
      assert NonZeros([4, 4, 0, 0]) == [4, 4];
    }
  }

  /** Both passes on the line [2, 2, 2, 0]. */
  lemma LineExample_2_2_2_0(s: seq<int>, m: seq<int>, c: seq<int>)
    requires s == [2, 2, 2, 0] && m == [4, 0, 2, 0] && c == [4, 2, 0, 0]
    ensures MergeFrom(s, 0) == Merge(m, 4) && MergeScore(s) == 4 && CompactLine(m) == c
  {
    assert MergeFrom([2, 2, 2, 0], 0) == Merge([4, 0, 2, 0], 4) && CompactLine([4, 0, 2, 0]) == [4, 2, 0, 0] by {
      assert MergeScan([4, 0, 2, 0], 2, 4) == Merge([4, 0, 2, 0], 0);
      assert MergeScan([4, 0, 2, 0], 2, 3) == Merge([4, 0, 2, 0], 0);
      assert MergeScan([4, 0, 2, 0], 1, 2) == Merge([4, 0, 2, 0], 0);
      assert MergeScan([2, 2, 2, 0], 0, 1) == Merge([4, 0, 2, 0], 4);
      assert MergeFrom([4, 0, 2, 0], 3) == Merge([4, 0, 2, 0], 0);
      assert NonZeros([4, 0, 2, 0]) == [4, 2];
    }
  }

  /** Both passes on the line [2, 2, 2, 2]. */
  lemma LineExample_2_2_2_2(s: seq<int>, m: seq<int>, c: seq<int>)
    requires s == [2, 2, 2, 2] && m == [4, 0, 4, 0] && c == [4, 4, 0, 0]
    ensures MergeFrom(s, 0) == Merge(m, 8) && MergeScore(s) == 8 && CompactLine(m) == c
  {
    assert MergeFrom([2, 2, 2, 2], 0) == Merge([4, 0, 4, 0], 8) && CompactLine([4, 0, 4, 0]) == [4, 4, 0, 0] by {
      assert MergeScan([4, 0, 2, 2], 2, 3) == Merge([4, 0, 4, 0], 4);
      assert MergeScan([4, 0, 2, 2], 1, 2) == Merge([4, 0, 2, 2], 0);
      assert MergeScan([2, 2, 2, 2], 0, 1) == Merge([4, 0, 2, 2], 4);
      assert MergeFrom([4, 0, 4, 0], 3) == Merge([4, 0, 4, 0], 0);
      assert NonZeros([4, 0, 4, 0]) == [4, 4];
    }
  }

  /** Both passes on the line [0, 2, 2, 2]. */
  lemma LineExample_0_2_2_2(s: seq<int>, m: seq<int>, c: seq<int>)
    requires s == [0, 2, 2, 2] && m == [0, 4, 0, 2] && c == [4, 2, 0, 0]
    ensures MergeFrom(s, 0) == Merge(m, 4) && MergeScore(s) == 4 && CompactLine(m) == c
  {
    assert MergeFrom([0, 2, 2, 2], 0) == Merge([0, 4, 0, 2], 4) && CompactLine([0, 4, 0, 2]) == [4, 2, 0, 0] by {
      assert MergeScan([0, 4, 0, 2], 2, 3) == Merge([0, 4, 0, 2], 0);
      assert MergeScan([0, 2, 2, 2], 1, 2) == Merge([0, 4, 0, 2], 4);
      assert MergeScan([0, 2, 2, 2], 0, 1) == Merge([0, 2, 2, 2], 0);
      assert MergeFrom([0, 4, 0, 2], 3) == Merge([0, 4, 0, 2], 0);
      assert NonZeros([0, 4, 0, 2]) == [4, 2];
    }
  }

  /** Both passes on the line [0, 0, 4, 4]. */
  lemma LineExample_0_0_4_4(s: seq<int>, m: seq<int>, c: seq<int>)
    requires s == [0, 0, 4, 4] && m == [0, 0, 8, 0] && c == [8, 0, 0, 0]
    ensures MergeFrom(s, 0) == Merge(m, 8) && MergeScore(s) == 8 && CompactLine(m) == c
  {
    assert MergeFrom([0, 0, 4, 4], 0) == Merge([0, 0, 8, 0], 8) && CompactLine([0, 0, 8, 0]) == [8, 0, 0, 0] by {
      assert MergeScan([0, 0, 4, 4], 2, 3) == Merge([0, 0, 8, 0], 8);
      assert MergeScan([0, 0, 4, 4], 1, 2) == Merge([0, 0, 4, 4], 0);
      assert MergeScan([0, 0, 4, 4], 0, 2) == Merge([0, 0, 4, 4], 0);
      assert MergeScan([0, 0, 4, 4], 0, 1) == Merge([0, 0, 4, 4], 0);
      assert MergeFrom([0, 0, 8, 0], 3) == Merge([0, 0, 8, 0], 0);
      assert NonZeros([0, 0, 8, 0]) == [8];
    }
  }

  /** Both passes on the line [0, 0, 2, 4]. */
  lemma LineExample_0_0_2_4(s: seq<int>, m: seq<int>, c: seq<int>)
    requires s == [0, 0, 2, 4] && m == [0, 0, 2, 4] && c == [2, 4, 0, 0]
    ensures MergeFrom(s, 0) == Merge(m, 0) && MergeScore(s) == 0 && CompactLine(m) == c
  {
    assert MergeFrom([0, 0, 2, 4], 0) == Merge([0, 0, 2, 4], 0) && CompactLine([0, 0, 2, 4]) == [2, 4, 0, 0] by {
      assert MergeScan([0, 0, 2, 4], 2, 3) == Merge([0, 0, 2, 4], 0);
      assert MergeScan([0, 0, 2, 4], 1, 2) == Merge([0, 0, 2, 4], 0);
      assert MergeScan([0, 0, 2, 4], 0, 2) == Merge([0, 0, 2, 4], 0);
      assert MergeScan([0, 0, 2, 4], 0, 1) == Merge([0, 0, 2, 4], 0);
      assert MergeFrom([0, 0, 2, 4], 3) == Merge([0, 0, 2, 4], 0);
      assert NonZeros([0, 0, 2, 4]) == [2, 4];
    }
  }

  /** Both passes on the line [0, 4, 0, 4]. */
  lemma LineExample_0_4_0_4(s: seq<int>, m: seq<int>, c: seq<int>)
    requires s == [0, 4, 0, 4] && m == [0, 8, 0, 0] && c == [8, 0, 0, 0]
    ensures MergeFrom(s, 0) == Merge(m, 8) && MergeScore(s) == 8 && CompactLine(m) == c
  {
    assert MergeFrom([0, 4, 0, 4], 0) == Merge([0, 8, 0, 0], 8) && CompactLine([0, 8, 0, 0]) == [8, 0, 0, 0] by {
      assert MergeScan([0, 8, 0, 0], 2, 4) == Merge([0, 8, 0, 0], 0);
      assert MergeScan([0, 8, 0, 0], 2, 3) == Merge([0, 8, 0, 0], 0);
      assert MergeScan([0, 4, 0, 4], 1, 3) == Merge([0, 8, 0, 0], 8);
      assert MergeScan([0, 4, 0, 4], 1, 2) == Merge([0, 8, 0, 0], 8);
      assert MergeScan([0, 4, 0, 4], 0, 1) == Merge([0, 4, 0, 4], 0);
      assert MergeFrom([0, 8, 0, 0], 3) == Merge([0, 8, 0, 0], 0);
      assert NonZeros([0, 8, 0, 0]) == [8];
    }
  }

  /** Both passes on the line [8, 2, 8, 2]. */
  lemma LineExample_8_2_8_2(s: seq<int>, m: seq<int>, c: seq<int>)
    requires s == [8, 2, 8, 2] && m == [8, 2, 8, 2] && c == [8, 2, 8, 2]
    ensures MergeFrom(s, 0) == Merge(m, 0) && MergeScore(s) == 0 && CompactLine(m) == c
  {
    assert MergeFrom([8, 2, 8, 2], 0) == Merge([8, 2, 8, 2], 0) && CompactLine([8, 2, 8, 2]) == [8, 2, 8, 2] by {
      assert MergeScan([8, 2, 8, 2], 2, 3) == Merge([8, 2, 8, 2], 0);
      assert MergeScan([8, 2, 8, 2], 1, 2) == Merge([8, 2, 8, 2], 0);
      assert MergeScan([8, 2, 8, 2], 0, 1) == Merge([8, 2, 8, 2], 0);
      assert MergeFrom([8, 2, 8, 2], 3) == Merge([8, 2, 8, 2], 0);
      assert NonZeros([8, 2, 8, 2]) == [8, 2, 8, 2];
    }
  }

  /** Both passes on the line [0, 8, 0, 8]. */
  lemma LineExample_0_8_0_8(s: seq<int>, m: seq<int>, c: seq<int>)
    requires s == [0, 8, 0, 8] && m == [0, 16, 0, 0] && c == [16, 0, 0, 0]
    ensures MergeFrom(s, 0) == Merge(m, 16) && MergeScore(s) == 16 && CompactLine(m) == c
  {
    assert MergeFrom([0, 8, 0, 8], 0) == Merge([0, 16, 0, 0], 16) && CompactLine([0, 16, 0, 0]) == [16, 0, 0, 0] by {
      assert MergeScan([0, 16, 0, 0], 2, 4) == Merge([0, 16, 0, 0], 0);
      assert MergeScan([0, 16, 0, 0], 2, 3) == Merge([0, 16, 0, 0], 0);
      assert MergeScan([0, 8, 0, 8], 1, 3) == Merge([0, 16, 0, 0], 16);
      assert MergeScan([0, 8, 0, 8], 1, 2) == Merge([0, 16, 0, 0], 16);
      assert MergeScan([0, 8, 0, 8], 0, 1) == Merge([0, 8, 0, 8], 0);
      assert MergeFrom([0, 16, 0, 0], 3) == Merge([0, 16, 0, 0], 0);
      assert NonZeros([0, 16, 0, 0]) == [16];
    }
  }

  /** Both passes on the line [2, 8, 2, 8]. */
  lemma LineExample_2_8_2_8(s: seq<int>, m: seq<int>, c: seq<int>)
    requires s == [2, 8, 2, 8] && m == [2, 8, 2, 8] && c == [2, 8, 2, 8]
    ensures MergeFrom(s, 0) == Merge(m, 0) && MergeScore(s) == 0 && CompactLine(m) == c
  {
    assert MergeFrom([2, 8, 2, 8], 0) == Merge([2, 8, 2, 8], 0) && CompactLine([2, 8, 2, 8]) == [2, 8, 2, 8] by {
      assert MergeScan([2, 8, 2, 8], 2, 3) == Merge([2, 8, 2, 8], 0);
      assert MergeScan([2, 8, 2, 8], 1, 2) == Merge([2, 8, 2, 8], 0);
      assert MergeScan([2, 8, 2, 8], 0, 1) == Merge([2, 8, 2, 8], 0);
      assert MergeFrom([2, 8, 2, 8], 3) == Merge([2, 8, 2, 8], 0);
      assert NonZeros([2, 8, 2, 8]) == [2, 8, 2, 8];
    }
  }

  /** Both passes on the line [2, 2, 0, 0]. */
  lemma LineExample_2_2_0_0(s: seq<int>, m: seq<int>, c: seq<int>)
    requires s == [2, 2, 0, 0] && m == [4, 0, 0, 0] && c == [4, 0, 0, 0]
    ensures MergeFrom(s, 0) == Merge(m, 4) && MergeScore(s) == 4 && CompactLine(m) == c
  {
    assert MergeFrom([2, 2, 0, 0], 0) == Merge([4, 0, 0, 0], 4) && CompactLine([4, 0, 0, 0]) == [4, 0, 0, 0] by {
      assert MergeScan([4, 0, 0, 0], 2, 4) == Merge([4, 0, 0, 0], 0);
      assert MergeScan([4, 0, 0, 0], 2, 3) == Merge([4, 0, 0, 0], 0);
      assert MergeScan([4, 0, 0, 0], 1, 4) == Merge([4, 0, 0, 0], 0);
      assert MergeScan([4, 0, 0, 0], 1, 3) == Merge([4, 0, 0, 0], 0);
      assert MergeScan([4, 0, 0, 0], 1, 2) == Merge([4, 0, 0, 0], 0);
      assert MergeScan([2, 2, 0, 0], 0, 1) == Merge([4, 0, 0, 0], 4);
      assert MergeFrom([4, 0, 0, 0], 3) == Merge([4, 0, 0, 0], 0);
      assert NonZeros([4, 0, 0, 0]) == [4];
    }
  }

  /** Both passes on the line [4, 0, 4, 4]. */
  lemma LineExample_4_0_4_4(s: seq<int>, m: seq<int>, c: seq<int>)
    requires s == [4, 0, 4, 4] && m == [8, 0, 0, 4] && c == [8, 4, 0, 0]
    ensures MergeFrom(s, 0) == Merge(m, 8) && MergeScore(s) == 8 && CompactLine(m) == c
  {
    assert MergeFrom([4, 0, 4, 4], 0) == Merge([8, 0, 0, 4], 8) && CompactLine([8, 0, 0, 4]) == [8, 4, 0, 0] by {
      assert MergeScan([8, 0, 0, 4], 2, 3) == Merge([8, 0, 0, 4], 0);
      assert MergeScan([8, 0, 0, 4], 1, 3) == Merge([8, 0, 0, 4], 0);
      assert MergeScan([8, 0, 0, 4], 1, 2) == Merge([8, 0, 0, 4], 0);
      assert MergeScan([4, 0, 4, 4], 0, 2) == Merge([8, 0, 0, 4], 8);
      assert MergeScan([4, 0, 4, 4], 0, 1) == Merge([8, 0, 0, 4], 8);
      assert MergeFrom([8, 0, 0, 4], 3) == Merge([8, 0, 0, 4], 0);
      assert NonZeros([8, 0, 0, 4]) == [8, 4];
    }
  }

  /** Both passes on the line [4, 4, 0, 0]. */
  lemma LineExample_4_4_0_0(s: seq<int>, m: seq<int>, c: seq<int>)
    requires s == [4, 4, 0, 0] && m == [8, 0, 0, 0] && c == [8, 0, 0, 0]
    ensures MergeFrom(s, 0) == Merge(m, 8) && MergeScore(s) == 8 && CompactLine(m) == c
  {
    assert MergeFrom([4, 4, 0, 0], 0) == Merge([8, 0, 0, 0], 8) && CompactLine([8, 0, 0, 0]) == [8, 0, 0, 0] by {
      assert MergeScan([8, 0, 0, 0], 2, 4) == Merge([8, 0, 0, 0], 0);
      assert MergeScan([8, 0, 0, 0], 2, 3) == Merge([8, 0, 0, 0], 0);
      assert MergeScan([8, 0, 0, 0], 1, 4) == Merge([8, 0, 0, 0], 0);
      assert MergeScan([8, 0, 0, 0], 1, 3) == Merge([8, 0, 0, 0], 0);
      assert MergeScan([8, 0, 0, 0], 1, 2) == Merge([8, 0, 0, 0], 0);
      assert MergeScan([4, 4, 0, 0], 0, 1) == Merge([8, 0, 0, 0], 8);
      assert MergeFrom([8, 0, 0, 0], 3) == Merge([8, 0, 0, 0], 0);
      assert NonZeros([8, 0, 0, 0]) == [8];
    }
  }

  /** Both passes on the line [0, 2, 2, 4]. */
  lemma LineExample_0_2_2_4(s: seq<int>, m: seq<int>, c: seq<int>)
    requires s == [0, 2, 2, 4] && m == [0, 4, 0, 4] && c == [4, 4, 0, 0]
    ensures MergeFrom(s, 0) == Merge(m, 4) && MergeScore(s) == 4 && CompactLine(m) == c
  {
    assert MergeFrom([0, 2, 2, 4], 0) == Merge([0, 4, 0, 4], 4) && CompactLine([0, 4, 0, 4]) == [4, 4, 0, 0] by {
      assert MergeScan([0, 4, 0, 4], 2, 3) == Merge([0, 4, 0, 4], 0);
      assert MergeScan([0, 2, 2, 4], 1, 2) == Merge([0, 4, 0, 4], 4);
      assert MergeScan([0, 2, 2, 4], 0, 1) == Merge([0, 2, 2, 4], 0);
      assert MergeFrom([0, 4, 0, 4], 3) == Merge([0, 4, 0, 4], 0);
      assert NonZeros([0, 4, 0, 4]) == [4, 4];
    }
  }

  /** Both passes on the line [0, 0, 2, 2]. */
  lemma LineExample_0_0_2_2(s: seq<int>, m: seq<int>, c: seq<int>)
    requires s == [0, 0, 2, 2] && m == [0, 0, 4, 0] && c == [4, 0, 0, 0]
    ensures MergeFrom(s, 0) == Merge(m, 4) && MergeScore(s) == 4 && CompactLine(m) == c
  {
    assert MergeFrom([0, 0, 2, 2], 0) == Merge([0, 0, 4, 0], 4) && CompactLine([0, 0, 4, 0]) == [4, 0, 0, 0] by {
      assert MergeScan([0, 0, 2, 2], 2, 3) == Merge([0, 0, 4, 0], 4);
      assert MergeScan([0, 0, 2, 2], 1, 2) == Merge([0, 0, 2, 2], 0);
      assert MergeScan([0, 0, 2, 2], 0, 2) == Merge([0, 0, 2, 2], 0);
      assert MergeScan([0, 0, 2, 2], 0, 1) == Merge([0, 0, 2, 2], 0);
      assert MergeFrom([0, 0, 4, 0], 3) == Merge([0, 0, 4, 0], 0);
      assert NonZeros([0, 0, 4, 0]) == [4];
    }
  }

  /** The lines of the board before the push. */
  lemma DoctestPushABefore(x: Board)
    requires x == [[4, 2, 2, 0], [2, 2, 2, 0], [2, 2, 2, 2], [0, 2, 2, 2]]
    ensures Line(x, Left, 0) == [4, 2, 2, 0]
    ensures Line(x, Left, 1) == [2, 2, 2, 0]
    ensures Line(x, Left, 2) == [2, 2, 2, 2]
    ensures Line(x, Left, 3) == [0, 2, 2, 2]
  {
  }

  /** The lines of the board after the merge pass. */
  lemma DoctestPushAMerged(x: Board)
    requires x == [[4, 4, 0, 0], [4, 0, 2, 0], [4, 0, 4, 0], [0, 4, 0, 2]]
    ensures Line(x, Left, 0) == [4, 4, 0, 0]
    ensures Line(x, Left, 1) == [4, 0, 2, 0]
    ensures Line(x, Left, 2) == [4, 0, 4, 0]
    ensures Line(x, Left, 3) == [0, 4, 0, 2]
  {
  }

  /** The lines of the board after the push. */
  lemma DoctestPushAAfter(x: Board)
    requires x == [[4, 4, 0, 0], [4, 2, 0, 0], [4, 4, 0, 0], [4, 2, 0, 0]]
    ensures Line(x, Left, 0) == [4, 4, 0, 0]
    ensures Line(x, Left, 1) == [4, 2, 0, 0]
    ensures Line(x, Left, 2) == [4, 4, 0, 0]
    ensures Line(x, Left, 3) == [4, 2, 0, 0]
  {
  }

  /** The first push of the documented sequence: A on the starting table scores 20 and moves. */
  lemma DoctestPushA(b: Board, m: Board, c: Board)
    requires b == [[4, 2, 2, 0], [2, 2, 2, 0], [2, 2, 2, 2], [0, 2, 2, 2]]
    requires m == [[4, 4, 0, 0], [4, 0, 2, 0], [4, 0, 4, 0], [0, 4, 0, 2]]
    requires c == [[4, 4, 0, 0], [4, 2, 0, 0], [4, 4, 0, 0], [4, 2, 0, 0]]
    ensures Push(b, Left) == Outcome(c, 20, true)
  {
    DoctestPushABefore(b);
    DoctestPushAMerged(m);
    DoctestPushAAfter(c);
    LineExample_4_2_2_0(Line(b, Left, 0), Line(m, Left, 0), Line(c, Left, 0));
    LineExample_2_2_2_0(Line(b, Left, 1), Line(m, Left, 1), Line(c, Left, 1));
    LineExample_2_2_2_2(Line(b, Left, 2), Line(m, Left, 2), Line(c, Left, 2));
    LineExample_0_2_2_2(Line(b, Left, 3), Line(m, Left, 3), Line(c, Left, 3));
    PushByLines(b, Left, m, c);
    assert c[1][1] != m[1][1];
  }

  /** The lines of the board before the push. */
  lemma DoctestPushDBefore(x: Board)
    requires x == [[4, 4, 0, 0], [4, 2, 0, 0], [4, 4, 0, 0], [4, 2, 0, 0]]
    ensures Line(x, Right, 0) == [0, 0, 4, 4]
    ensures Line(x, Right, 1) == [0, 0, 2, 4]
    ensures Line(x, Right, 2) == [0, 0, 4, 4]
    ensures Line(x, Right, 3) == [0, 0, 2, 4]
  {
  }

  /** The lines of the board after the merge pass. */
  lemma DoctestPushDMerged(x: Board)
    requires x == [[0, 8, 0, 0], [4, 2, 0, 0], [0, 8, 0, 0], [4, 2, 0, 0]]
    ensures Line(x, Right, 0) == [0, 0, 8, 0]
    ensures Line(x, Right, 1) == [0, 0, 2, 4]
    ensures Line(x, Right, 2) == [0, 0, 8, 0]
    ensures Line(x, Right, 3) == [0, 0, 2, 4]
  {
  }

  /** The lines of the board after the push. */
  lemma DoctestPushDAfter(x: Board)
    requires x == [[0, 0, 0, 8], [0, 0, 4, 2], [0, 0, 0, 8], [0, 0, 4, 2]]
    ensures Line(x, Right, 0) == [8, 0, 0, 0]
    ensures Line(x, Right, 1) == [2, 4, 0, 0]
    ensures Line(x, Right, 2) == [8, 0, 0, 0]
    ensures Line(x, Right, 3) == [2, 4, 0, 0]
  {
  }

  /** Then D scores 16 and moves. */
  lemma DoctestPushD(b: Board, m: Board, c: Board)
    requires b == [[4, 4, 0, 0], [4, 2, 0, 0], [4, 4, 0, 0], [4, 2, 0, 0]]
    requires m == [[0, 8, 0, 0], [4, 2, 0, 0], [0, 8, 0, 0], [4, 2, 0, 0]]
    requires c == [[0, 0, 0, 8], [0, 0, 4, 2], [0, 0, 0, 8], [0, 0, 4, 2]]
    ensures Push(b, Right) == Outcome(c, 16, true)
  {
    DoctestPushDBefore(b);
    DoctestPushDMerged(m);
    DoctestPushDAfter(c);
    LineExample_0_0_4_4(Line(b, Right, 0), Line(m, Right, 0), Line(c, Right, 0));
    LineExample_0_0_2_4(Line(b, Right, 1), Line(m, Right, 1), Line(c, Right, 1));
    LineExample_0_0_4_4(Line(b, Right, 2), Line(m, Right, 2), Line(c, Right, 2));
    LineExample_0_0_2_4(Line(b, Right, 3), Line(m, Right, 3), Line(c, Right, 3));
    PushByLines(b, Right, m, c);
    assert c[0][1] != m[0][1];
  }

  /** The lines of the board before the push. */
  lemma DoctestPushWBefore(x: Board)
    requires x == [[0, 0, 0, 8], [0, 0, 4, 2], [0, 0, 0, 8], [0, 0, 4, 2]]
    ensures AllZero(Line(x, Up, 0))
    ensures AllZero(Line(x, Up, 1))
    ensures Line(x, Up, 2) == [0, 4, 0, 4]
    ensures Line(x, Up, 3) == [8, 2, 8, 2]
  {
  }

  /** The lines of the board after the merge pass. */
  lemma DoctestPushWMerged(x: Board)
    requires x == [[0, 0, 0, 8], [0, 0, 8, 2], [0, 0, 0, 8], [0, 0, 0, 2]]
    ensures AllZero(Line(x, Up, 0))
    ensures AllZero(Line(x, Up, 1))
    ensures Line(x, Up, 2) == [0, 8, 0, 0]
    ensures Line(x, Up, 3) == [8, 2, 8, 2]
  {
  }

  /** The lines of the board after the push. */
  lemma DoctestPushWAfter(x: Board)
    requires x == [[0, 0, 8, 8], [0, 0, 0, 2], [0, 0, 0, 8], [0, 0, 0, 2]]
    ensures AllZero(Line(x, Up, 0))
    ensures AllZero(Line(x, Up, 1))
    ensures Line(x, Up, 2) == [8, 0, 0, 0]
    ensures Line(x, Up, 3) == [8, 2, 8, 2]
  {
  }

  /** Then W scores 8 and moves. */
  lemma DoctestPushW(b: Board, m: Board, c: Board)
    requires b == [[0, 0, 0, 8], [0, 0, 4, 2], [0, 0, 0, 8], [0, 0, 4, 2]]
    requires m == [[0, 0, 0, 8], [0, 0, 8, 2], [0, 0, 0, 8], [0, 0, 0, 2]]
    requires c == [[0, 0, 8, 8], [0, 0, 0, 2], [0, 0, 0, 8], [0, 0, 0, 2]]
    ensures Push(b, Up) == Outcome(c, 8, true)
  {
    DoctestPushWBefore(b);
    DoctestPushWMerged(m);
    DoctestPushWAfter(c);
    EmptyLinePushes(b, Up, m, c, 0);
    EmptyLinePushes(b, Up, m, c, 1);
    LineExample_0_4_0_4(Line(b, Up, 2), Line(m, Up, 2), Line(c, Up, 2));
    LineExample_8_2_8_2(Line(b, Up, 3), Line(m, Up, 3), Line(c, Up, 3));
    PushByLines(b, Up, m, c);
    assert c[0][2] != m[0][2];
    var o := Push(b, Up);
    assert o.board == c && o.moved && o.score == 8;
  }

  /** The lines of the board before the push. */
  lemma DoctestPushSBefore(x: Board)
    requires x == [[0, 0, 8, 8], [0, 0, 0, 2], [0, 0, 8, 8], [0, 0, 0, 2]]
    ensures AllZero(Line(x, Down, 0))
    ensures AllZero(Line(x, Down, 1))
    ensures Line(x, Down, 2) == [0, 8, 0, 8]
    ensures Line(x, Down, 3) == [2, 8, 2, 8]
  {
  }

  /** The lines of the board after the merge pass. */
  lemma DoctestPushSMerged(x: Board)
    requires x == [[0, 0, 0, 8], [0, 0, 0, 2], [0, 0, 16, 8], [0, 0, 0, 2]]
    ensures AllZero(Line(x, Down, 0))
    ensures AllZero(Line(x, Down, 1))
    ensures Line(x, Down, 2) == [0, 16, 0, 0]
    ensures Line(x, Down, 3) == [2, 8, 2, 8]
  {
  }

  /** The lines of the board after the push. */
  lemma DoctestPushSAfter(x: Board)
    requires x == [[0, 0, 0, 8], [0, 0, 0, 2], [0, 0, 0, 8], [0, 0, 16, 2]]
    ensures AllZero(Line(x, Down, 0))
    ensures AllZero(Line(x, Down, 1))
    ensures Line(x, Down, 2) == [16, 0, 0, 0]
    ensures Line(x, Down, 3) == [2, 8, 2, 8]
  {
  }

  /** After an 8 is written at row 2, column 2, S scores 16 and moves. */
  lemma DoctestPushS(b: Board, m: Board, c: Board)
    requires b == [[0, 0, 8, 8], [0, 0, 0, 2], [0, 0, 8, 8], [0, 0, 0, 2]]
    requires m == [[0, 0, 0, 8], [0, 0, 0, 2], [0, 0, 16, 8], [0, 0, 0, 2]]
    requires c == [[0, 0, 0, 8], [0, 0, 0, 2], [0, 0, 0, 8], [0, 0, 16, 2]]
    ensures Push(b, Down) == Outcome(c, 16, true)
  {
    DoctestPushSBefore(b);
    DoctestPushSMerged(m);
    DoctestPushSAfter(c);
    EmptyLinePushes(b, Down, m, c, 0);
    EmptyLinePushes(b, Down, m, c, 1);
    LineExample_0_8_0_8(Line(b, Down, 2), Line(m, Down, 2), Line(c, Down, 2));
    LineExample_2_8_2_8(Line(b, Down, 3), Line(m, Down, 3), Line(c, Down, 3));
    PushByLines(b, Down, m, c);
    assert c[2][2] != m[2][2];
  }

  /** The lines of the board before the push. */
  lemma MergeOnlyPushBefore(x: Board)
    requires x == [[2, 2, 0, 0], [0, 0, 0, 0], [0, 0, 0, 0], [0, 0, 0, 0]]
    ensures Line(x, Left, 0) == [2, 2, 0, 0]
    ensures AllZero(Line(x, Left, 1))
    ensures AllZero(Line(x, Left, 2))
    ensures AllZero(Line(x, Left, 3))
  {
  }

  /** The lines of the board after the merge pass. */
  lemma MergeOnlyPushMerged(x: Board)
    requires x == [[4, 0, 0, 0], [0, 0, 0, 0], [0, 0, 0, 0], [0, 0, 0, 0]]
    ensures Line(x, Left, 0) == [4, 0, 0, 0]
    ensures AllZero(Line(x, Left, 1))
    ensures AllZero(Line(x, Left, 2))
    ensures AllZero(Line(x, Left, 3))
  {
  }

  /** The lines of the board after the push. */
  lemma MergeOnlyPushAfter(x: Board)
    requires x == [[4, 0, 0, 0], [0, 0, 0, 0], [0, 0, 0, 0], [0, 0, 0, 0]]
    ensures Line(x, Left, 0) == [4, 0, 0, 0]
    ensures AllZero(Line(x, Left, 1))
    ensures AllZero(Line(x, Left, 2))
    ensures AllZero(Line(x, Left, 3))
  {
  }

  /** Tiles that merge where they stand score, but the push reports no movement. */
  lemma MergeOnlyPush(b: Board, m: Board, c: Board)
    requires b == [[2, 2, 0, 0], [0, 0, 0, 0], [0, 0, 0, 0], [0, 0, 0, 0]]
    requires m == [[4, 0, 0, 0], [0, 0, 0, 0], [0, 0, 0, 0], [0, 0, 0, 0]]
    requires c == [[4, 0, 0, 0], [0, 0, 0, 0], [0, 0, 0, 0], [0, 0, 0, 0]]
    ensures Push(b, Left) == Outcome(c, 4, false)
  {
    MergeOnlyPushBefore(b);
    MergeOnlyPushMerged(m);
    MergeOnlyPushAfter(c);
    LineExample_2_2_0_0(Line(b, Left, 0), Line(m, Left, 0), Line(c, Left, 0));
    EmptyLinePushes(b, Left, m, c, 1);
    EmptyLinePushes(b, Left, m, c, 2);
    EmptyLinePushes(b, Left, m, c, 3);
    PushByLines(b, Left, m, c);
  }

  /** The lines of the board before the push. */
  lemma WorkedExamplePushBefore(x: Board)
    requires x == [[4, 0, 4, 4], [0, 0, 0, 0], [0, 0, 0, 0], [0, 0, 0, 0]]
    ensures Line(x, Left, 0) == [4, 0, 4, 4]
    ensures AllZero(Line(x, Left, 1))
    ensures AllZero(Line(x, Left, 2))
    ensures AllZero(Line(x, Left, 3))
  {
  }

  /** The lines of the board after the merge pass. */
  lemma WorkedExamplePushMerged(x: Board)
    requires x == [[8, 0, 0, 4], [0, 0, 0, 0], [0, 0, 0, 0], [0, 0, 0, 0]]
    ensures Line(x, Left, 0) == [8, 0, 0, 4]
    ensures AllZero(Line(x, Left, 1))
    ensures AllZero(Line(x, Left, 2))
    ensures AllZero(Line(x, Left, 3))
  {
  }

  /** The lines of the board after the push. */
  lemma WorkedExamplePushAfter(x: Board)
    requires x == [[8, 4, 0, 0], [0, 0, 0, 0], [0, 0, 0, 0], [0, 0, 0, 0]]
    ensures Line(x, Left, 0) == [8, 4, 0, 0]
    ensures AllZero(Line(x, Left, 1))
    ensures AllZero(Line(x, Left, 2))
    ensures AllZero(Line(x, Left, 3))
  {
  }

  /** The worked example: the row 4 0 4 4 merges to 8 0 0 4, then packs to 8 4 0 0. */
  lemma WorkedExamplePush(b: Board, m: Board, c: Board)
    requires b == [[4, 0, 4, 4], [0, 0, 0, 0], [0, 0, 0, 0], [0, 0, 0, 0]]
    requires m == [[8, 0, 0, 4], [0, 0, 0, 0], [0, 0, 0, 0], [0, 0, 0, 0]]
    requires c == [[8, 4, 0, 0], [0, 0, 0, 0], [0, 0, 0, 0], [0, 0, 0, 0]]
    ensures Push(b, Left) == Outcome(c, 8, true)
  {
    WorkedExamplePushBefore(b);
    WorkedExamplePushMerged(m);
    WorkedExamplePushAfter(c);
    LineExample_4_0_4_4(Line(b, Left, 0), Line(m, Left, 0), Line(c, Left, 0));
    EmptyLinePushes(b, Left, m, c, 1);
    EmptyLinePushes(b, Left, m, c, 2);
    EmptyLinePushes(b, Left, m, c, 3);
    PushByLines(b, Left, m, c);
    assert c[0][1] != m[0][1];
  }

  /** The lines of the board before the push. */
  lemma RepeatedPushFirstBefore(x: Board)
    requires x == [[2, 2, 2, 2], [0, 0, 0, 0], [0, 0, 0, 0], [0, 0, 0, 0]]
    ensures Line(x, Left, 0) == [2, 2, 2, 2]
    ensures AllZero(Line(x, Left, 1))
    ensures AllZero(Line(x, Left, 2))
    ensures AllZero(Line(x, Left, 3))
  {
  }

  /** The lines of the board after the merge pass. */
  lemma RepeatedPushFirstMerged(x: Board)
    requires x == [[4, 0, 4, 0], [0, 0, 0, 0], [0, 0, 0, 0], [0, 0, 0, 0]]
    ensures Line(x, Left, 0) == [4, 0, 4, 0]
    ensures AllZero(Line(x, Left, 1))
    ensures AllZero(Line(x, Left, 2))
    ensures AllZero(Line(x, Left, 3))
  {
  }

  /** The lines of the board after the push. */
  lemma RepeatedPushFirstAfter(x: Board)
    requires x == [[4, 4, 0, 0], [0, 0, 0, 0], [0, 0, 0, 0], [0, 0, 0, 0]]
    ensures Line(x, Left, 0) == [4, 4, 0, 0]
    ensures AllZero(Line(x, Left, 1))
    ensures AllZero(Line(x, Left, 2))
    ensures AllZero(Line(x, Left, 3))
  {
  }

  /** A push is not idempotent: four 2s pushed left give two 4s ... */
  lemma RepeatedPushFirst(b: Board, m: Board, c: Board)
    requires b == [[2, 2, 2, 2], [0, 0, 0, 0], [0, 0, 0, 0], [0, 0, 0, 0]]
    requires m == [[4, 0, 4, 0], [0, 0, 0, 0], [0, 0, 0, 0], [0, 0, 0, 0]]
    requires c == [[4, 4, 0, 0], [0, 0, 0, 0], [0, 0, 0, 0], [0, 0, 0, 0]]
    ensures Push(b, Left) == Outcome(c, 8, true)
  {
    RepeatedPushFirstBefore(b);
    RepeatedPushFirstMerged(m);
    RepeatedPushFirstAfter(c);
    LineExample_2_2_2_2(Line(b, Left, 0), Line(m, Left, 0), Line(c, Left, 0));
    EmptyLinePushes(b, Left, m, c, 1);
    EmptyLinePushes(b, Left, m, c, 2);
    EmptyLinePushes(b, Left, m, c, 3);
    PushByLines(b, Left, m, c);
    assert c[0][1] != m[0][1];
  }

  /** The lines of the board before the push. */
  lemma RepeatedPushSecondBefore(x: Board)
    requires x == [[4, 4, 0, 0], [0, 0, 0, 0], [0, 0, 0, 0], [0, 0, 0, 0]]
    ensures Line(x, Left, 0) == [4, 4, 0, 0]
    ensures AllZero(Line(x, Left, 1))
    ensures AllZero(Line(x, Left, 2))
    ensures AllZero(Line(x, Left, 3))
  {
  }

  /** The lines of the board after the merge pass. */
  lemma RepeatedPushSecondMerged(x: Board)
    requires x == [[8, 0, 0, 0], [0, 0, 0, 0], [0, 0, 0, 0], [0, 0, 0, 0]]
    ensures Line(x, Left, 0) == [8, 0, 0, 0]
    ensures AllZero(Line(x, Left, 1))
    ensures AllZero(Line(x, Left, 2))
    ensures AllZero(Line(x, Left, 3))
  {
  }

  /** The lines of the board after the push. */
  lemma RepeatedPushSecondAfter(x: Board)
    requires x == [[8, 0, 0, 0], [0, 0, 0, 0], [0, 0, 0, 0], [0, 0, 0, 0]]
    ensures Line(x, Left, 0) == [8, 0, 0, 0]
    ensures AllZero(Line(x, Left, 1))
    ensures AllZero(Line(x, Left, 2))
    ensures AllZero(Line(x, Left, 3))
  {
  }

  /** ... and pushing left again merges those into an 8. */
  lemma RepeatedPushSecond(b: Board, m: Board, c: Board)
    requires b == [[4, 4, 0, 0], [0, 0, 0, 0], [0, 0, 0, 0], [0, 0, 0, 0]]
    requires m == [[8, 0, 0, 0], [0, 0, 0, 0], [0, 0, 0, 0], [0, 0, 0, 0]]
    requires c == [[8, 0, 0, 0], [0, 0, 0, 0], [0, 0, 0, 0], [0, 0, 0, 0]]
    ensures Push(b, Left) == Outcome(c, 8, false)
  {
    RepeatedPushSecondBefore(b);
    RepeatedPushSecondMerged(m);
    RepeatedPushSecondAfter(c);
    LineExample_4_4_0_0(Line(b, Left, 0), Line(m, Left, 0), Line(c, Left, 0));
    EmptyLinePushes(b, Left, m, c, 1);
    EmptyLinePushes(b, Left, m, c, 2);
    EmptyLinePushes(b, Left, m, c, 3);
    PushByLines(b, Left, m, c);
  }

  /** The compaction walk-through on the line [4, 0, 0, 4]: the first
      pivot holds a tile and is skipped, the second is empty and takes the
      4 its cursor finds at the far edge, the third is left empty. */
  lemma CompactionWalkthrough(s: seq<int>)
    requires s == [4, 0, 0, 4]
    ensures MoveStep(s, 0) == s
    ensures MoveStep(s, 1) == [4, 4, 0, 0]
    ensures MoveStep(MoveStep(s, 1), 2) == [4, 4, 0, 0]
    ensures CompactLine(s) == [4, 4, 0, 0] && CompactLine(s) != s
  {
    var t := [4, 4, 0, 0];
    assert s[1] == 0 && s[2] == 0 && s[3] == 4;
    assert FirstNonZero(s, 1) == 3;
    assert s[1 := s[3]][3 := 0] == t;
    assert FirstNonZero(t, 3) == 4;
    var tail := [4];
    assert tail[1..] == [];
    assert NonZeros(tail) == [4];
    assert NonZeros([0] + tail) == [4] by { assert ([0] + tail)[1..] == tail; }
    assert NonZeros([0, 0] + tail) == [4] by {
      assert ([0, 0] + tail)[1..] == [0] + tail;
    }
    assert s[1..] == [0, 0] + tail;
    assert NonZeros(s) == [4, 4];
  }

  // -----------------------------------------------------------------------
  // The documented runs of each pass on its own

  /** A board whose four lines are the merged lines is the merged board,
      and the pass scores what the four lines score. */
  lemma MergesByLines(b: Board, d: Direction, m: Board)
    requires IsBoard(b) && IsBoard(m)
    requires MergeLine(Line(b, d, 0)) == Line(m, d, 0) && MergeLine(Line(b, d, 1)) == Line(m, d, 1)
    requires MergeLine(Line(b, d, 2)) == Line(m, d, 2) && MergeLine(Line(b, d, 3)) == Line(m, d, 3)
    ensures MergeBoard(b, d) == m
  {
    forall k | 0 <= k < 4
      ensures Line(m, d, k) == MergeLine(Line(b, d, k))
    {
      if k == 0 {} else if k == 1 {} else if k == 2 {} else {}
    }
    MergeBoardByLines(b, d, m);
  }

  /** A board whose four lines are the compacted lines is the compacted
      board. */
  lemma CompactsByLines(m: Board, d: Direction, c: Board)
    requires IsBoard(m) && IsBoard(c)
    requires CompactLine(Line(m, d, 0)) == Line(c, d, 0) && CompactLine(Line(m, d, 1)) == Line(c, d, 1)
    requires CompactLine(Line(m, d, 2)) == Line(c, d, 2) && CompactLine(Line(m, d, 3)) == Line(c, d, 3)
    ensures CompactBoard(m, d) == c
  {
    forall k | 0 <= k < 4
      ensures Line(c, d, k) == CompactLine(Line(m, d, k))
    {
      if k == 0 {} else if k == 1 {} else if k == 2 {} else {}
    }
    CompactBoardByLines(m, d, c);
  }


  /** The merge pass A on the documented table scores 20. */
  lemma SumDoctestLeft(b: Board, m: Board)
    requires b == [[4, 2, 2, 0], [2, 2, 2, 0], [2, 2, 2, 2], [0, 2, 2, 2]]
    requires m == [[4, 4, 0, 0], [4, 0, 2, 0], [4, 0, 4, 0], [0, 4, 0, 2]]
    ensures MergeBoard(b, Left) == m && MergeBoardScore(b, Left) == 20
  {
    var l0 := [4, 4, 0, 0];
    var l1 := [4, 2, 0, 0];
    DoctestPushABefore(b);
    DoctestPushAMerged(m);
    LineExample_4_2_2_0(Line(b, Left, 0), Line(m, Left, 0), l0);
    LineExample_2_2_2_0(Line(b, Left, 1), Line(m, Left, 1), l1);
    LineExample_2_2_2_2(Line(b, Left, 2), Line(m, Left, 2), l0);
    LineExample_0_2_2_2(Line(b, Left, 3), Line(m, Left, 3), l1);
    MergesByLines(b, Left, m);
  }

  /** The compaction pass A on that result moves tiles. */
  lemma MoveDoctestLeft(m: Board, c: Board)
    requires m == [[4, 4, 0, 0], [4, 0, 2, 0], [4, 0, 4, 0], [0, 4, 0, 2]]
    requires c == [[4, 4, 0, 0], [4, 2, 0, 0], [4, 4, 0, 0], [4, 2, 0, 0]]
    ensures CompactBoard(m, Left) == c && c != m
  {
    var l0 := [4, 2, 2, 0];
    var l1 := [2, 2, 2, 0];
    var l2 := [2, 2, 2, 2];
    var l3 := [0, 2, 2, 2];
    DoctestPushAMerged(m);
    DoctestPushAAfter(c);
    LineExample_4_2_2_0(l0, Line(m, Left, 0), Line(c, Left, 0));
    LineExample_2_2_2_0(l1, Line(m, Left, 1), Line(c, Left, 1));
    LineExample_2_2_2_2(l2, Line(m, Left, 2), Line(c, Left, 2));
    LineExample_0_2_2_2(l3, Line(m, Left, 3), Line(c, Left, 3));
    CompactsByLines(m, Left, c);
    assert c[1][1] != m[1][1];
  }

  /** The lines of the documented table, scanned for D. */
  lemma SumDoctestRightBefore(x: Board)
    requires x == [[4, 2, 2, 0], [2, 2, 2, 0], [2, 2, 2, 2], [0, 2, 2, 2]]
    ensures Line(x, Right, 0) == [0, 2, 2, 4]
    ensures Line(x, Right, 1) == [0, 2, 2, 2]
    ensures Line(x, Right, 2) == [2, 2, 2, 2]
    ensures Line(x, Right, 3) == [2, 2, 2, 0]
  {
  }

  /** The lines of the table after the merge pass D. */
  lemma SumDoctestRightAfter(x: Board)
    requires x == [[4, 0, 4, 0], [2, 0, 4, 0], [0, 4, 0, 4], [0, 2, 0, 4]]
    ensures Line(x, Right, 0) == [0, 4, 0, 4]
    ensures Line(x, Right, 1) == [0, 4, 0, 2]
    ensures Line(x, Right, 2) == [4, 0, 4, 0]
    ensures Line(x, Right, 3) == [4, 0, 2, 0]
  {
  }

  /** The lines of the table after the compaction pass D. */
  lemma MoveDoctestRightAfter(x: Board)
    requires x == [[0, 0, 4, 4], [0, 0, 2, 4], [0, 0, 4, 4], [0, 0, 2, 4]]
    ensures Line(x, Right, 0) == [4, 4, 0, 0]
    ensures Line(x, Right, 1) == [4, 2, 0, 0]
    ensures Line(x, Right, 2) == [4, 4, 0, 0]
    ensures Line(x, Right, 3) == [4, 2, 0, 0]
  {
  }

  /** The merge pass D on the documented table also scores 20. */
  lemma SumDoctestRight(b: Board, m: Board)
    requires b == [[4, 2, 2, 0], [2, 2, 2, 0], [2, 2, 2, 2], [0, 2, 2, 2]]
    requires m == [[4, 0, 4, 0], [2, 0, 4, 0], [0, 4, 0, 4], [0, 2, 0, 4]]
    ensures MergeBoard(b, Right) == m && MergeBoardScore(b, Right) == 20
  {
    var l0 := [4, 4, 0, 0];
    var l1 := [4, 2, 0, 0];
    SumDoctestRightBefore(b);
    SumDoctestRightAfter(m);
    LineExample_0_2_2_4(Line(b, Right, 0), Line(m, Right, 0), l0);
    LineExample_0_2_2_2(Line(b, Right, 1), Line(m, Right, 1), l1);
    LineExample_2_2_2_2(Line(b, Right, 2), Line(m, Right, 2), l0);
    LineExample_2_2_2_0(Line(b, Right, 3), Line(m, Right, 3), l1);
    MergesByLines(b, Right, m);
  }

  /** The compaction pass D on that result moves tiles. */
  lemma MoveDoctestRight(m: Board, c: Board)
    requires m == [[4, 0, 4, 0], [2, 0, 4, 0], [0, 4, 0, 4], [0, 2, 0, 4]]
    requires c == [[0, 0, 4, 4], [0, 0, 2, 4], [0, 0, 4, 4], [0, 0, 2, 4]]
    ensures CompactBoard(m, Right) == c && c != m
  {
    var l0 := [0, 2, 2, 4];
    var l1 := [0, 2, 2, 2];
    var l2 := [2, 2, 2, 2];
    var l3 := [2, 2, 2, 0];
    SumDoctestRightAfter(m);
    MoveDoctestRightAfter(c);
    LineExample_0_2_2_4(l0, Line(m, Right, 0), Line(c, Right, 0));
    LineExample_0_2_2_2(l1, Line(m, Right, 1), Line(c, Right, 1));
    LineExample_2_2_2_2(l2, Line(m, Right, 2), Line(c, Right, 2));
    LineExample_2_2_2_0(l3, Line(m, Right, 3), Line(c, Right, 3));
    CompactsByLines(m, Right, c);
    assert c[0][0] != m[0][0];
  }

  /** The lines of the documented table, scanned for W. */
  lemma SumDoctestUpBefore(x: Board)
    requires x == [[4, 2, 2, 0], [2, 2, 2, 0], [2, 2, 2, 2], [0, 2, 2, 2]]
    ensures Line(x, Up, 0) == [4, 2, 2, 0]
    ensures Line(x, Up, 1) == [2, 2, 2, 2]
    ensures Line(x, Up, 2) == [2, 2, 2, 2]
    ensures Line(x, Up, 3) == [0, 0, 2, 2]
  {
  }

  /** The lines of the table after the merge pass W. */
  lemma SumDoctestUpAfter(x: Board)
    requires x == [[4, 4, 4, 0], [4, 0, 0, 0], [0, 4, 4, 4], [0, 0, 0, 0]]
    ensures Line(x, Up, 0) == [4, 4, 0, 0]
    ensures Line(x, Up, 1) == [4, 0, 4, 0]
    ensures Line(x, Up, 2) == [4, 0, 4, 0]
    ensures Line(x, Up, 3) == [0, 0, 4, 0]
  {
  }

  /** The lines of the table after the compaction pass W. */
  lemma MoveDoctestUpAfter(x: Board)
    requires x == [[4, 4, 4, 4], [4, 4, 4, 0], [0, 0, 0, 0], [0, 0, 0, 0]]
    ensures Line(x, Up, 0) == [4, 4, 0, 0]
    ensures Line(x, Up, 1) == [4, 4, 0, 0]
    ensures Line(x, Up, 2) == [4, 4, 0, 0]
    ensures Line(x, Up, 3) == [4, 0, 0, 0]
  {
  }

  /** The merge pass W on the documented table scores 24. */
  lemma SumDoctestUp(b: Board, m: Board)
    requires b == [[4, 2, 2, 0], [2, 2, 2, 0], [2, 2, 2, 2], [0, 2, 2, 2]]
    requires m == [[4, 4, 4, 0], [4, 0, 0, 0], [0, 4, 4, 4], [0, 0, 0, 0]]
    ensures MergeBoard(b, Up) == m && MergeBoardScore(b, Up) == 24
  {
    var l0 := [4, 4, 0, 0];
    var l1 := [4, 0, 0, 0];
    SumDoctestUpBefore(b);
    SumDoctestUpAfter(m);
    LineExample_4_2_2_0(Line(b, Up, 0), Line(m, Up, 0), l0);
    LineExample_2_2_2_2(Line(b, Up, 1), Line(m, Up, 1), l0);
    LineExample_2_2_2_2(Line(b, Up, 2), Line(m, Up, 2), l0);
    LineExample_0_0_2_2(Line(b, Up, 3), Line(m, Up, 3), l1);
    MergesByLines(b, Up, m);
  }

  /** The compaction pass W on that result moves tiles. */
  lemma MoveDoctestUp(m: Board, c: Board)
    requires m == [[4, 4, 4, 0], [4, 0, 0, 0], [0, 4, 4, 4], [0, 0, 0, 0]]
    requires c == [[4, 4, 4, 4], [4, 4, 4, 0], [0, 0, 0, 0], [0, 0, 0, 0]]
    ensures CompactBoard(m, Up) == c && c != m
  {
    var l0 := [4, 2, 2, 0];
    var l1 := [2, 2, 2, 2];
    var l2 := [0, 0, 2, 2];
    SumDoctestUpAfter(m);
    MoveDoctestUpAfter(c);
    LineExample_4_2_2_0(l0, Line(m, Up, 0), Line(c, Up, 0));
    LineExample_2_2_2_2(l1, Line(m, Up, 1), Line(c, Up, 1));
    LineExample_2_2_2_2(l1, Line(m, Up, 2), Line(c, Up, 2));
    LineExample_0_0_2_2(l2, Line(m, Up, 3), Line(c, Up, 3));
    CompactsByLines(m, Up, c);
    assert c[0][3] != m[0][3];
  }

  /** The lines of the documented table, scanned for S. */
  lemma SumDoctestDownBefore(x: Board)
    requires x == [[4, 2, 2, 0], [2, 2, 2, 0], [2, 2, 2, 2], [0, 2, 2, 2]]
    ensures Line(x, Down, 0) == [0, 2, 2, 4]
    ensures Line(x, Down, 1) == [2, 2, 2, 2]
    ensures Line(x, Down, 2) == [2, 2, 2, 2]
    ensures Line(x, Down, 3) == [2, 2, 0, 0]
  {
  }

  /** The lines of the table after the merge pass S. */
  lemma SumDoctestDownAfter(x: Board)
    requires x == [[4, 0, 0, 0], [0, 4, 4, 0], [4, 0, 0, 0], [0, 4, 4, 4]]
    ensures Line(x, Down, 0) == [0, 4, 0, 4]
    ensures Line(x, Down, 1) == [4, 0, 4, 0]
    ensures Line(x, Down, 2) == [4, 0, 4, 0]
    ensures Line(x, Down, 3) == [4, 0, 0, 0]
  {
  }

  /** The lines of the table after the compaction pass S. */
  lemma MoveDoctestDownAfter(x: Board)
    requires x == [[0, 0, 0, 0], [0, 0, 0, 0], [4, 4, 4, 0], [4, 4, 4, 4]]
    ensures Line(x, Down, 0) == [4, 4, 0, 0]
    ensures Line(x, Down, 1) == [4, 4, 0, 0]
    ensures Line(x, Down, 2) == [4, 4, 0, 0]
    ensures Line(x, Down, 3) == [4, 0, 0, 0]
  {
  }

  /** The merge pass S on the documented table also scores 24. */
  lemma SumDoctestDown(b: Board, m: Board)
    requires b == [[4, 2, 2, 0], [2, 2, 2, 0], [2, 2, 2, 2], [0, 2, 2, 2]]
    requires m == [[4, 0, 0, 0], [0, 4, 4, 0], [4, 0, 0, 0], [0, 4, 4, 4]]
    ensures MergeBoard(b, Down) == m && MergeBoardScore(b, Down) == 24
  {
    var l0 := [4, 4, 0, 0];
    var l1 := [4, 0, 0, 0];
    SumDoctestDownBefore(b);
    SumDoctestDownAfter(m);
    LineExample_0_2_2_4(Line(b, Down, 0), Line(m, Down, 0), l0);
    LineExample_2_2_2_2(Line(b, Down, 1), Line(m, Down, 1), l0);
    LineExample_2_2_2_2(Line(b, Down, 2), Line(m, Down, 2), l0);
    LineExample_2_2_0_0(Line(b, Down, 3), Line(m, Down, 3), l1);
    MergesByLines(b, Down, m);
  }

  /** The compaction pass S on that result moves tiles. */
  lemma MoveDoctestDown(m: Board, c: Board)
    requires m == [[4, 0, 0, 0], [0, 4, 4, 0], [4, 0, 0, 0], [0, 4, 4, 4]]
    requires c == [[0, 0, 0, 0], [0, 0, 0, 0], [4, 4, 4, 0], [4, 4, 4, 4]]
    ensures CompactBoard(m, Down) == c && c != m
  {
    var l0 := [0, 2, 2, 4];
    var l1 := [2, 2, 2, 2];
    var l2 := [2, 2, 0, 0];
    SumDoctestDownAfter(m);
    MoveDoctestDownAfter(c);
    LineExample_0_2_2_4(l0, Line(m, Down, 0), Line(c, Down, 0));
    LineExample_2_2_2_2(l1, Line(m, Down, 1), Line(c, Down, 1));
    LineExample_2_2_2_2(l1, Line(m, Down, 2), Line(c, Down, 2));
    LineExample_2_2_0_0(l2, Line(m, Down, 3), Line(c, Down, 3));
    CompactsByLines(m, Down, c);
    assert c[0][0] != m[0][0];
  }

  /** The documented listing of empty cells, in row-major order. */
  lemma EmptyCellsDoctest(b: Board)
    requires b == [[4, 2, 2, 0], [2, 2, 2, 0], [0, 2, 2, 0], [2, 0, 2, 0]]
    ensures EmptyCells(b) == [(0, 3), (1, 3), (2, 0), (2, 3), (3, 1), (3, 3)]
  {
    assert EmptyInRow(b, 0, 1) == [];
    assert EmptyInRow(b, 0, 2) == [];
    assert EmptyInRow(b, 0, 3) == [];
    assert EmptyInRow(b, 0, 4) == [(0, 3)];
    assert EmptyInRow(b, 1, 1) == [];
    assert EmptyInRow(b, 1, 2) == [];
    assert EmptyInRow(b, 1, 3) == [];
    assert EmptyInRow(b, 1, 4) == [(1, 3)];
    assert EmptyInRow(b, 2, 1) == [(2, 0)];
    assert EmptyInRow(b, 2, 2) == [(2, 0)];
    assert EmptyInRow(b, 2, 3) == [(2, 0)];
    assert EmptyInRow(b, 2, 4) == [(2, 0), (2, 3)];
    assert EmptyInRow(b, 3, 1) == [];
    assert EmptyInRow(b, 3, 2) == [(3, 1)];
    assert EmptyInRow(b, 3, 3) == [(3, 1)];
    assert EmptyInRow(b, 3, 4) == [(3, 1), (3, 3)];
    assert EmptyInRows(b, 1) == [(0, 3)];
    assert EmptyInRows(b, 2) == [(0, 3), (1, 3)];
    assert EmptyInRows(b, 3) == [(0, 3), (1, 3), (2, 0), (2, 3)];
    assert EmptyInRows(b, 4) == [(0, 3), (1, 3), (2, 0), (2, 3), (3, 1), (3, 3)];
  }
}
