/** One line of the 2048 board (a row or a column) read in the order in
    which the engine scans it: position 0 is the edge the tiles are pushed
    toward, position |s| - 1 the far edge.  A cell holds 0 when it is empty.

    The merge pass and the compaction pass of a push are specified here on
    such a line; the board and the four directions are layered on top in
    module Boards. */
module Lines {

  // -----------------------------------------------------------------------
  // Views of a line

  /** The nonzero cells of `s`, in their order. */
  function NonZeros(s: seq<int>): (r: seq<int>)
    ensures |r| <= |s|
    ensures forall i :: 0 <= i < |r| ==> r[i] != 0
  {
    if s == [] then []
    else if s[0] == 0 then NonZeros(s[1..])
    else [s[0]] + NonZeros(s[1..])
  }

  /** Every tile of a line is one of its nonzero values. */
  lemma {:induction false} NonZerosFrom(s: seq<int>)
    ensures forall x :: x in NonZeros(s) ==> x in s && x != 0
  {
    if s != [] {
      NonZerosFrom(s[1..]);
      assert forall x :: x in s[1..] ==> x in s;
    }
  }

  /** `n` empty cells. */
  function Zeros(n: nat): (r: seq<int>)
    ensures |r| == n && forall i :: 0 <= i < n ==> r[i] == 0
  {
    seq(n, i => 0)
  }

  ghost predicate AllZero(s: seq<int>) {
    forall i :: 0 <= i < |s| ==> s[i] == 0
  }

  /** The total of the values on a line. */
  function Sum(s: seq<int>): int {
    if s == [] then 0 else s[0] + Sum(s[1..])
  }

  /** Every empty cell comes after every nonzero cell. */
  ghost predicate Packed(s: seq<int>) {
    forall i, j :: 0 <= i < j < |s| && s[i] == 0 ==> s[j] == 0
  }

  lemma {:induction false} NonZerosAppend(a: seq<int>, b: seq<int>)
    ensures NonZeros(a + b) == NonZeros(a) + NonZeros(b)
  {
    if a == [] {
      assert a + b == b;
    } else {
      assert (a + b)[1..] == a[1..] + b;
      NonZerosAppend(a[1..], b);
    }
  }

  lemma {:induction false} NonZerosOfZeros(s: seq<int>)
    requires AllZero(s)
    ensures NonZeros(s) == []
  {
    if s != [] {
      NonZerosOfZeros(s[1..]);
    }
  }

  lemma {:induction false} NonZerosOfTiles(s: seq<int>)
    requires forall i :: 0 <= i < |s| ==> s[i] != 0
    ensures NonZeros(s) == s
  {
    if s != [] {
      NonZerosOfTiles(s[1..]);
    }
  }

  /** Empty cells between positions `i` and `j` do not show in the tiles. */
  lemma {:induction false} NonZerosSkip(s: seq<int>, i: nat, j: nat)
    requires i <= j <= |s|
    requires forall k :: i <= k < j ==> s[k] == 0
    ensures NonZeros(s[i..]) == NonZeros(s[j..])
    decreases j - i
  {
    if i < j {
      assert s[i..][1..] == s[i + 1..];
      NonZerosSkip(s, i + 1, j);
    }
  }

  /** The tiles from a nonzero cell on: that cell, then the tiles after it. */
  lemma NonZerosAt(s: seq<int>, f: nat)
    requires f < |s| && s[f] != 0
    ensures NonZeros(s[f..]) == [s[f]] + NonZeros(s[f + 1..])
  {
    assert s[f..][0] == s[f];
    assert s[f..][1..] == s[f + 1..];
  }

  lemma {:induction false} SumUpdate(s: seq<int>, i: nat, x: int)
    requires i < |s|
    ensures Sum(s[i := x]) == Sum(s) - s[i] + x
  {
    if i == 0 {
      assert s[i := x][1..] == s[1..];
    } else {
      assert s[i := x][1..] == s[1..][i - 1 := x];
      SumUpdate(s[1..], i - 1, x);
    }
  }

  // -----------------------------------------------------------------------
  // Compaction pass

  /** What the compaction pass makes of a line: its tiles in their original
      order, packed against position 0, then empty cells. */
  function CompactLine(s: seq<int>): (r: seq<int>)
    ensures |r| == |s|
  {
    var tiles := NonZeros(s);
    tiles + Zeros(|s| - |tiles|)
  }

  /** A compacted line is packed and holds the same tiles in the same order. */
  lemma CompactLineShape(s: seq<int>)
    ensures Packed(CompactLine(s))
    ensures NonZeros(CompactLine(s)) == NonZeros(s)
  {
    var tiles := NonZeros(s);
    NonZerosAppend(tiles, Zeros(|s| - |tiles|));
    NonZerosOfTiles(tiles);
    NonZerosOfZeros(Zeros(|s| - |tiles|));
  }

  /** A packed line is its own compaction. */
  lemma {:induction false} PackedIsCompact(s: seq<int>)
    requires Packed(s)
    ensures CompactLine(s) == s
  {
    if s == [] {
    } else if s[0] == 0 {
      assert AllZero(s);
      NonZerosOfZeros(s);
    } else {
      PackedIsCompact(s[1..]);
      assert s == [s[0]] + s[1..];
    }
  }

  /** Compaction leaves a line unchanged exactly when it is already packed. */
  lemma CompactLineFixedIff(s: seq<int>)
    ensures CompactLine(s) == s <==> Packed(s)
  {
    CompactLineShape(s);
    if Packed(s) {
      PackedIsCompact(s);
    }
  }

  /** Compacting twice is compacting once. */
  lemma CompactLineIdempotent(s: seq<int>)
    ensures CompactLine(CompactLine(s)) == CompactLine(s)
  {
    CompactLineShape(s);
    PackedIsCompact(CompactLine(s));
  }

  /** Compaction only rearranges the values of a line. */
  lemma {:induction false} CompactLinePermutes(s: seq<int>)
    ensures multiset(CompactLine(s)) == multiset(s)
  {
    if s != [] {
      CompactLinePermutes(s[1..]);
      var tiles := NonZeros(s[1..]);
      var k := |s| - 1 - |tiles|;
      assert multiset(s) == multiset{s[0]} + multiset(tiles) + multiset(Zeros(k)) by {
        assert s == [s[0]] + s[1..];
        assert multiset(s[1..]) == multiset(tiles) + multiset(Zeros(k));
      }
      if s[0] == 0 {
        CompactLineCons0(s, tiles, k);
      } else {
        CompactLineConsTile(s, tiles, k);
      }
    }
  }

  lemma CompactLineCons0(s: seq<int>, tiles: seq<int>, k: nat)
    requires s != [] && s[0] == 0 && tiles == NonZeros(s[1..]) && k == |s| - 1 - |tiles|
    ensures multiset(CompactLine(s)) == multiset{0} + multiset(tiles) + multiset(Zeros(k))
  {
    assert NonZeros(s) == tiles;
    assert Zeros(k + 1) == [0] + Zeros(k);
    assert CompactLine(s) == tiles + ([0] + Zeros(k));
  }

  lemma CompactLineConsTile(s: seq<int>, tiles: seq<int>, k: nat)
    requires s != [] && s[0] != 0 && tiles == NonZeros(s[1..]) && k == |s| - 1 - |tiles|
    ensures multiset(CompactLine(s)) == multiset{s[0]} + multiset(tiles) + multiset(Zeros(k))
  {
    assert NonZeros(s) == [s[0]] + tiles;
    assert CompactLine(s) == [s[0]] + tiles + Zeros(k);
  }

  /** The tiles of a line are those before `p` followed by those from `p` on. */
  lemma NonZerosSplit(s: seq<int>, p: nat)
    requires p <= |s|
    ensures NonZeros(s) == NonZeros(s[..p]) + NonZeros(s[p..])
  {
    assert s == s[..p] + s[p..];
    NonZerosAppend(s[..p], s[p..]);
  }

  /** The empty cell at `p` and the tile at `q`, with only empty cells
      between them, trade places: the tiles of the line, in order, are the
      same. */
  lemma SwapKeepsNonZeros(s: seq<int>, p: nat, q: nat)
    requires p < q < |s|
    requires s[p] == 0 && s[q] != 0
    requires forall i :: p < i < q ==> s[i] == 0
    ensures NonZeros(s[p := s[q]][q := 0]) == NonZeros(s)
  {
    var t := s[p := s[q]][q := 0];
    assert NonZeros(s[p..]) == [s[q]] + NonZeros(s[q + 1..]) by {
      NonZerosSkip(s, p, q);
      NonZerosAt(s, q);
    }
    assert NonZeros(t[p..]) == [s[q]] + NonZeros(s[q + 1..]) by {
      NonZerosAt(t, p);
      NonZerosSkip(t, p + 1, q + 1);
      assert t[q + 1..] == s[q + 1..];
    }
    NonZerosSplit(s, p);
    NonZerosSplit(t, p);
    assert t[..p] == s[..p];
  }

  /** One pivot of the compaction pass: an empty pivot trades places with
      the first tile after it; otherwise the line stays as it is. */
  function MoveStep(s: seq<int>, p: nat): (r: seq<int>)
    requires p < |s|
    ensures |r| == |s|
  {
    var f := FirstNonZero(s, p + 1);
    if s[p] == 0 && f < |s| then s[p := s[f]][f := 0] else s
  }

  /** The cells before `p` are settled: an empty one among them has only
      empty cells after it. */
  ghost predicate SettledBefore(s: seq<int>, p: int) {
    forall i, j :: 0 <= i < p && i < j < |s| && s[i] == 0 ==> s[j] == 0
  }

  /** A pivot step settles one more cell and keeps the tiles in order; a
      step that changes the line shows the line was not packed. */
  lemma MoveStepSettles(s: seq<int>, p: nat)
    requires p < |s| && SettledBefore(s, p)
    ensures SettledBefore(MoveStep(s, p), p + 1)
    ensures NonZeros(MoveStep(s, p)) == NonZeros(s)
    ensures MoveStep(s, p) != s ==> !Packed(s)
  {
    var f := FirstNonZero(s, p + 1);
    if s[p] == 0 && f < |s| {
      SwapKeepsNonZeros(s, p, f);
      assert forall i :: 0 <= i < p ==> s[i] != 0;
    }
  }

  /** A line settled up to its far edge, holding the tiles of `s` in order,
      is the compaction of `s`. */
  lemma SettledIsCompact(c: seq<int>, s: seq<int>)
    requires |c| == |s| && 0 < |c| && SettledBefore(c, |c| - 1)
    requires NonZeros(c) == NonZeros(s)
    ensures c == CompactLine(s)
  {
    assert Packed(c);
    PackedIsCompact(c);
  }

  /** At the end of the compaction pass the line is the compaction of the
      original, and a tile moved exactly when the original was not already
      compact. */
  lemma CompactionDone(c: seq<int>, s: seq<int>, moved: bool)
    requires |c| == |s| && 0 < |c| && SettledBefore(c, |c| - 1)
    requires NonZeros(c) == NonZeros(s)
    requires !moved ==> c == s
    requires moved ==> !Packed(s)
    ensures c == CompactLine(s)
    ensures moved == (CompactLine(s) != s)
  {
    SettledIsCompact(c, s);
    CompactLineFixedIff(s);
  }

  // -----------------------------------------------------------------------
  // Merge pass

  /** A line after a merge pass, with the points that pass scored. */
  datatype Merge = Merge(line: seq<int>, score: int)

  /** The cursor walk of the pivot at `p`, the cursor standing at `q`: an
      empty cell is looked through; the first nonzero cell either equals the
      pivot (the pivot doubles, that cell empties, and the doubled value is
      scored) or blocks it. A pivot that is itself empty never equals a
      nonzero cell, so it never merges. */
  function MergeScan(s: seq<int>, p: nat, q: nat): (m: Merge)
    requires p < q <= |s|
    ensures |m.line| == |s|
    decreases |s| - q
  {
    if q == |s| then Merge(s, 0)
    else if s[q] == 0 then MergeScan(s, p, q + 1)
    else if s[q] == s[p] then Merge(s[p := 2 * s[p]][q := 0], 2 * s[p])
    else Merge(s, 0)
  }

  /** The merge pass from pivot `p` on: every pivot up to the one before the
      far edge, each on the line as the earlier pivots left it. */
  function MergeFrom(s: seq<int>, p: nat): (m: Merge)
    requires p <= |s|
    ensures |m.line| == |s|
    decreases |s| - p
  {
    if p + 1 >= |s| then Merge(s, 0)
    else
      var step := MergeScan(s, p, p + 1);
      var rest := MergeFrom(step.line, p + 1);
      Merge(rest.line, step.score + rest.score)
  }

  /** What the merge pass makes of a line. */
  function MergeLine(s: seq<int>): seq<int> {
    MergeFrom(s, 0).line
  }

  /** The points the merge pass scores on a line. */
  function MergeScore(s: seq<int>): int {
    MergeFrom(s, 0).score
  }

  /** Position of the first nonzero cell at or after `i`, or |s| if none. */
  function FirstNonZero(s: seq<int>, i: nat): (f: nat)
    requires i <= |s|
    ensures i <= f <= |s|
    ensures forall k :: i <= k < f ==> s[k] == 0
    ensures f < |s| ==> s[f] != 0
    decreases |s| - i
  {
    if i == |s| || s[i] != 0 then i else FirstNonZero(s, i + 1)
  }

  /** The partner rule: the pivot at `p` merges with the first nonzero cell
      after it, and only if that cell holds the pivot's value. */
  lemma {:induction false} MergeScanPartner(s: seq<int>, p: nat, q: nat)
    requires p < q <= |s|
    ensures var f := FirstNonZero(s, q);
            MergeScan(s, p, q) ==
              if f < |s| && s[f] == s[p] then Merge(s[p := 2 * s[p]][f := 0], 2 * s[p])
              else Merge(s, 0)
    decreases |s| - q
  {
    if q < |s| && s[q] == 0 {
      MergeScanPartner(s, p, q + 1);
    }
  }

  /** The partner rule, stated without FirstNonZero: a pivot changes its line
      exactly when some later cell holds its (nonzero) value with only empty
      cells in between, and then it doubles and that cell empties. */
  lemma MergeScanChanges(s: seq<int>, p: nat)
    requires p + 1 < |s|
    ensures MergeScan(s, p, p + 1).line != s <==>
              exists q :: p < q < |s| && s[p] != 0 && s[q] == s[p] && AllZero(s[p + 1..q])
    ensures forall q :: p < q < |s| && s[p] != 0 && s[q] == s[p] && AllZero(s[p + 1..q]) ==>
              MergeScan(s, p, p + 1) == Merge(s[p := 2 * s[p]][q := 0], 2 * s[p])
  {
    MergeScanPartner(s, p, p + 1);
    var f := FirstNonZero(s, p + 1);
    forall q | p < q < |s| && s[p] != 0 && s[q] == s[p] && AllZero(s[p + 1..q])
      ensures f == q
    {
      assert forall i :: p + 1 <= i < q ==> s[i] == s[p + 1..q][i - (p + 1)];
    }
    if f < |s| && s[f] == s[p] {
      assert s[p] != 0;
      assert s[p := 2 * s[p]][f := 0][p] != s[p];
      assert AllZero(s[p + 1..f]);
    }
  }

  /** The combination rule of 2048 on the tiles of a line, front to back: the
      first two tiles merge when they are equal, and a merged tile takes no
      further part in the move. */
  function Combine(t: seq<int>): (r: seq<int>)
    ensures |r| <= |t|
  {
    if |t| < 2 then t
    else if t[0] == t[1] then [2 * t[0]] + Combine(t[2..])
    else [t[0]] + Combine(t[1..])
  }

  /** The points scored under that rule: the sum of the merged tiles. */
  function CombineScore(t: seq<int>): int {
    if |t| < 2 then 0
    else if t[0] == t[1] then 2 * t[0] + CombineScore(t[2..])
    else CombineScore(t[1..])
  }

  /** One pivot of the merge pass: it merges with its partner `f` (the first
      nonzero cell after it) when that cell holds its value, and otherwise
      leaves the line to the next pivot. */
  lemma MergeFromStep(s: seq<int>, p: nat)
    requires p + 1 < |s|
    ensures var f := FirstNonZero(s, p + 1);
            MergeFrom(s, p) ==
              if f < |s| && s[f] == s[p] then
                var rest := MergeFrom(s[p := 2 * s[p]][f := 0], p + 1);
                Merge(rest.line, 2 * s[p] + rest.score)
              else MergeFrom(s, p + 1)
  {
    MergeScanPartner(s, p, p + 1);
  }

  /** The merge pass from pivot `p` on acts on the tiles at and after `p`
      exactly as the combination rule does, and scores what it scores. */
  lemma {:induction false} MergeFromCombines(s: seq<int>, p: nat)
    requires p <= |s|
    ensures NonZeros(MergeFrom(s, p).line[p..]) == Combine(NonZeros(s[p..]))
    ensures MergeFrom(s, p).score == CombineScore(NonZeros(s[p..]))
    decreases |s| - p
  {
    if p + 1 >= |s| {
      return;
    }
    var f := FirstNonZero(s, p + 1);
    if f < |s| && s[f] == s[p] {
      var s1 := s[p := 2 * s[p]][f := 0];
      var rest := MergeFrom(s1, p + 1);
      MergeFromCombines(s1, p + 1);
      assert rest.line[p] == 2 * s[p] by {
        MergeFromCells(s1, p + 1);
      }
      MergingPivot(s, p, f, rest.line);
      assert MergeFrom(s, p) == Merge(rest.line, 2 * s[p] + rest.score) by {
        MergeFromStep(s, p);
      }
    } else {
      var rest := MergeFrom(s, p + 1);
      MergeFromCombines(s, p + 1);
      assert rest.line[p] == s[p] by {
        MergeFromCells(s, p + 1);
      }
      BlockedPivot(s, p, f, rest.line);
      assert MergeFrom(s, p) == rest by {
        MergeFromStep(s, p);
      }
    }
  }

  /** The step of MergeFromCombines for a pivot that merges with the cell at
      `f`; `r` is the line the rest of the pass makes of it. */
  lemma MergingPivot(s: seq<int>, p: nat, f: nat, r: seq<int>)
    requires p < f < |s| && f == FirstNonZero(s, p + 1) && s[f] == s[p]
    requires |r| == |s| && r[p] == 2 * s[p]
    requires NonZeros(r[p + 1..]) == Combine(NonZeros(s[p := 2 * s[p]][f := 0][p + 1..]))
    ensures NonZeros(r[p..]) == Combine(NonZeros(s[p..]))
    ensures CombineScore(NonZeros(s[p..])) == 2 * s[p] + CombineScore(NonZeros(s[p := 2 * s[p]][f := 0][p + 1..]))
  {
    var v := s[p];
    var rest := NonZeros(s[f + 1..]);
    assert NonZeros(s[p..]) == [v] + ([v] + rest) by {
      NonZerosAt(s, p);
      NonZerosSkip(s, p + 1, f);
      NonZerosAt(s, f);
    }
    var s1 := s[p := 2 * v][f := 0];
    assert NonZeros(s1[p + 1..]) == rest by {
      NonZerosSkip(s1, p + 1, f + 1);
      assert s1[f + 1..] == s[f + 1..];
    }
    NonZerosAt(r, p);
    CombineEqualPair(v, rest);
  }

  /** The step of MergeFromCombines for a pivot that does not merge: it is
      empty, has no tile after it, or is blocked by an unequal tile. */
  lemma BlockedPivot(s: seq<int>, p: nat, f: nat, r: seq<int>)
    requires p + 1 < |s| && f == FirstNonZero(s, p + 1) && !(f < |s| && s[f] == s[p])
    requires |r| == |s| && r[p] == s[p]
    requires NonZeros(r[p + 1..]) == Combine(NonZeros(s[p + 1..]))
    ensures NonZeros(r[p..]) == Combine(NonZeros(s[p..]))
    ensures CombineScore(NonZeros(s[p + 1..])) == CombineScore(NonZeros(s[p..]))
  {
    if s[p] == 0 {
      NonZerosSkip(s, p, p + 1);
      NonZerosSkip(r, p, p + 1);
    } else {
      NonZerosAt(s, p);
      NonZerosAt(r, p);
      var t := NonZeros(s[p + 1..]);
      assert t == [] || t[0] != s[p] by {
        NonZerosSkip(s, p + 1, f);
        if f < |s| {
          NonZerosAt(s, f);
        }
      }
      CombineCons(s[p], t);
    }
  }

  lemma CombineEqualPair(v: int, rest: seq<int>)
    ensures Combine([v] + ([v] + rest)) == [2 * v] + Combine(rest)
    ensures CombineScore([v] + ([v] + rest)) == 2 * v + CombineScore(rest)
  {
    assert ([v] + ([v] + rest))[2..] == rest;
  }

  lemma CombineCons(v: int, t: seq<int>)
    requires t == [] || t[0] != v
    ensures Combine([v] + t) == [v] + Combine(t)
    ensures CombineScore([v] + t) == CombineScore(t)
  {
    assert ([v] + t)[1..] == t;
  }

  /** Merge then compaction on a line is the textbook 2048 move: the tiles
      combined by the rule above, packed against the edge. */
  lemma PushLineCombines(s: seq<int>)
    ensures NonZeros(MergeLine(s)) == Combine(NonZeros(s))
    ensures MergeScore(s) == CombineScore(NonZeros(s))
    ensures CompactLine(MergeLine(s)) ==
              Combine(NonZeros(s)) + Zeros(|s| - |Combine(NonZeros(s))|)
  {
    MergeFromCombines(s, 0);
    assert s[0..] == s;
    assert MergeLine(s)[0..] == MergeLine(s);
  }

  /** A merge doubles a pivot of value v and empties its partner, so the
      pass keeps the total of the line. */
  lemma {:induction false} MergeFromKeepsSum(s: seq<int>, p: nat)
    requires p <= |s|
    ensures Sum(MergeFrom(s, p).line) == Sum(s)
    decreases |s| - p
  {
    if p + 1 < |s| {
      MergeScanPartner(s, p, p + 1);
      var step := MergeScan(s, p, p + 1);
      MergeFromKeepsSum(step.line, p + 1);
      var f := FirstNonZero(s, p + 1);
      if f < |s| && s[f] == s[p] {
        SumUpdate(s, p, 2 * s[p]);
        SumUpdate(s[p := 2 * s[p]], f, 0);
      }
    }
  }

  /** Cell by cell: the pass leaves the cells before `p` alone, and every
      other cell ends holding its value, 0, or twice its value (a cell is
      doubled at most once); the far-edge cell is never a pivot, so it is
      never doubled. */
  lemma {:induction false} MergeFromCells(s: seq<int>, p: nat)
    requires p <= |s|
    ensures var r := MergeFrom(s, p).line;
            && (forall i :: 0 <= i < p ==> r[i] == s[i])
            && (forall i :: p <= i < |s| ==> r[i] == s[i] || r[i] == 0 || r[i] == 2 * s[i])
            && (p < |s| ==> r[|s| - 1] == s[|s| - 1] || r[|s| - 1] == 0)
    decreases |s| - p
  {
    if p + 1 < |s| {
      MergeScanPartner(s, p, p + 1);
      MergeFromCells(MergeScan(s, p, p + 1).line, p + 1);
    }
  }

  /** Each cell the merge pass doubled, counted once: the cell's new value. */
  function Doubled(s: seq<int>, r: seq<int>): (d: seq<int>)
    requires |r| == |s|
    ensures |d| == |s|
  {
    seq(|s|, i requires 0 <= i < |s| => if r[i] != s[i] && r[i] != 0 then r[i] else 0)
  }

  lemma {:induction false} MergeFromScoresDoubled(s: seq<int>, p: nat)
    requires p <= |s|
    ensures MergeFrom(s, p).score == Sum(Doubled(s, MergeFrom(s, p).line))
    decreases |s| - p
  {
    var r := MergeFrom(s, p).line;
    if p + 1 >= |s| {
      assert Doubled(s, r) == Zeros(|s|);
      ZerosSum(|s|);
    } else {
      MergeScanPartner(s, p, p + 1);
      var step := MergeScan(s, p, p + 1);
      MergeFromScoresDoubled(step.line, p + 1);
      MergeFromCells(step.line, p + 1);
      var f := FirstNonZero(s, p + 1);
      if f < |s| && s[f] == s[p] {
        var s1 := step.line;
        assert Doubled(s, r) == Doubled(s1, r)[p := 2 * s[p]];
        SumUpdate(Doubled(s1, r), p, 2 * s[p]);
      } else {
        assert Doubled(s, r) == Doubled(step.line, r);
      }
    }
  }

  lemma {:induction false} ZerosSum(n: nat)
    ensures Sum(Zeros(n)) == 0
  {
    if n > 0 {
      assert Zeros(n)[1..] == Zeros(n - 1);
      ZerosSum(n - 1);
    }
  }

  /** The merge pass over a whole line: the total is kept, each cell is
      doubled at most once, the far edge is never doubled, and the score is
      the sum of the newly doubled values. */
  lemma MergeLineFacts(s: seq<int>)
    ensures |MergeLine(s)| == |s|
    ensures Sum(MergeLine(s)) == Sum(s)
    ensures forall i :: 0 <= i < |s| ==>
              MergeLine(s)[i] == s[i] || MergeLine(s)[i] == 0 || MergeLine(s)[i] == 2 * s[i]
    ensures |s| > 0 ==> MergeLine(s)[|s| - 1] == s[|s| - 1] || MergeLine(s)[|s| - 1] == 0
    ensures MergeScore(s) == Sum(Doubled(s, MergeLine(s)))
  {
    MergeFromKeepsSum(s, 0);
    MergeFromCells(s, 0);
    MergeFromScoresDoubled(s, 0);
  }

  /** An empty pivot finds no partner on an empty line. */
  lemma {:induction false} EmptyLineScan(s: seq<int>, p: nat, q: nat)
    requires p < q <= |s| && AllZero(s)
    ensures MergeScan(s, p, q) == Merge(s, 0)
    decreases |s| - q
  {
    if q < |s| {
      EmptyLineScan(s, p, q + 1);
    }
  }

  /** A line with no tiles is left alone by both passes. */
  lemma {:induction false} EmptyLine(s: seq<int>, p: nat)
    requires p <= |s| && AllZero(s)
    ensures MergeFrom(s, p) == Merge(s, 0)
    ensures CompactLine(s) == s
    decreases |s| - p
  {
    if p + 1 < |s| {
      EmptyLineScan(s, p, p + 1);
      EmptyLine(s, p + 1);
    }
    assert Packed(s);
    PackedIsCompact(s);
  }

  /** A line without empty cells and without two equal neighbours is left
      alone by both passes. */
  lemma {:induction false} StuckLine(s: seq<int>, p: nat)
    requires p <= |s|
    requires forall i :: 0 <= i < |s| ==> s[i] != 0
    requires forall i :: 0 <= i < |s| - 1 ==> s[i] != s[i + 1]
    ensures MergeFrom(s, p) == Merge(s, 0)
    ensures CompactLine(s) == s
    decreases |s| - p
  {
    if p + 1 < |s| {
      StuckLine(s, p + 1);
    }
    assert Packed(s);
    PackedIsCompact(s);
  }

  // -----------------------------------------------------------------------
  // Tile values

  /** 1, 2, 4, 8, ... */
  predicate IsPowerOfTwo(x: int)
    decreases if x < 0 then 0 else x
  {
    x == 1 || (x >= 2 && x % 2 == 0 && IsPowerOfTwo(x / 2))
  }

  /** A value a cell may hold: empty, or a power of two from 2 on. */
  predicate IsTile(x: int) {
    x == 0 || (x >= 2 && IsPowerOfTwo(x))
  }

  ghost predicate AllTiles(s: seq<int>) {
    forall i :: 0 <= i < |s| ==> IsTile(s[i])
  }

  lemma DoubleTile(x: int)
    requires IsTile(x)
    ensures IsTile(2 * x)
  {
    assert (2 * x) / 2 == x;
  }

  /** Both passes keep every cell 0 or a power of two from 2 on. */
  lemma PassesKeepTiles(s: seq<int>)
    requires AllTiles(s)
    ensures AllTiles(MergeLine(s))
    ensures AllTiles(CompactLine(s))
  {
    MergeLineFacts(s);
    forall i | 0 <= i < |s| ensures IsTile(MergeLine(s)[i]) {
      DoubleTile(s[i]);
    }
    var tiles := NonZeros(s);
    NonZerosFrom(s);
    forall i | 0 <= i < |s| ensures IsTile(CompactLine(s)[i]) {
      if i < |tiles| {
        assert tiles[i] in tiles;
      }
    }
  }
}
