# A verified model of the 2048 board engine

This project models the board engine of a terminal 2048 game: the
functions in `helpers.py` that create the 4x4 table, list its empty cells,
insert a random tile, check whether the game can go on or has been won,
and push the tiles in one of the four directions W, A, S and D. The file
`src/helpers.py` is a byte-identical copy of `helpers.py`, and one model
covers both.

The model has five modules:

- `Directions` (Directions.dfy) holds the four directions, the keys that
  select them, and where each direction reads a line of the board. A
  line is read in *scan order*: position 0 is the cell next to the edge
  the tiles are pushed toward.
  - A (Left) and W (Up) start at index 0 and step up.
  - D (Right) and S (Down) start at index 3 and step down.
  - This is the `range(start, end, step)` of the source.
  - Module `Wrappers`, in the same file, holds an `Option` type.
- `Lines` (Lines.dfy) holds the two passes on one line, as specification
  functions.
  - `MergeScan` and `MergeFrom` follow the pivot and cursor walk of the
    merge pass.
  - `CompactLine` is the compaction result: the tiles in order, then the
    zeros.
  - `MoveStep` is one pivot of the compaction pass.
  - The lemmas say what the passes mean:
    - the partner rule;
    - the textbook 2048 rule (`Combine`);
    - the total of the line is kept;
    - each cell is doubled at most once, and the far edge is never
      doubled;
    - compaction is a packing permutation and is idempotent;
    - powers of two stay powers of two.
- `Boards` (Boards.dfy) lifts the passes to the board.
  - `MergeBoard`, `CompactBoard` and `Push` are the board-level passes.
  - `Push` runs the merge pass and then the compaction pass, and returns
    the merge score and the compaction flag.
  - The lemmas show:
    - lines stay separate;
    - each key packs toward the right edge;
    - a stuck board is left alone;
    - tiles stay tiles.
  - This module also holds the list of empty cells.
- `Helpers` (Helpers.dfy) holds the source's functions as methods on an
  `array2<int>`, changed in place with the source's loops.
  - Each method is proved against the board functions through
    `Snapshot`, the board the array holds.
  - The per-line loops of the four pass functions are factored into
    `SumLine`/`MergePivot` and `MoveLine`/`MovePivot`.
  - The outer loops `HorizontalSum`, `VerticalSum`, `HorizontalMove` and
    `VerticalMove` keep the source's structure.
- `Examples` (Examples.dfy) proves the documented examples on the model:
  - the doctest sequence A, D, W, S of `push_blocks`;
  - the doctests of each single pass;
  - the listing of empty cells;
  - the two worked examples in `game.py`, for the merge pass and for the
    compaction pass.

## Behaviour worth noting

- A and W scan from index 0 upward; D and S scan from index 3 downward
  (helpers.py:781-784, 854-857). `Index` and `DirectionLines` state this.
- The flag a push returns is the compaction pass's flag alone
  (helpers.py:231-237). A push in which tiles only merge in place scores
  points but reports no movement (`MergeOnlyPush`). `game.py` still inserts
  a tile after such a push, because it also looks at the score
  (game.py:464).
- A push is not idempotent. `[2,2,2,2]` pushed left gives `[4,4,0,0]`, and
  pushed left again gives `[8,0,0,0]` (`RepeatedPushFirst`,
  `RepeatedPushSecond`). The compaction pass alone is idempotent
  (`CompactBoardIdempotent`).

## Model

| member | source | states |
|---|---|---|
| Directions.FromKey | helpers.py:227-237 | exactly the keys W, A, S, D select a direction, and the one selected has that key |
| Directions.KeyRoundTrip | helpers.py:229-237 | each direction is selected by its own key |
| Directions.Index | helpers.py:781-784 | scan position p is array index p for a and w and index 3 - p for d and s, always inside the line |
| Lines.MergeScan | helpers.py:793-806 | one pivot's cursor walk; its contract gives only the length of the line, and its meaning is stated by MergeScanPartner and MergeScanChanges |
| Lines.MergeFrom | helpers.py:787-806 | the merge pass from a pivot onward; its contract gives only the length, and its meaning is stated by MergeFromStep, MergeFromCombines, MergeFromCells and MergeFromScoresDoubled |
| Lines.MergeLine | helpers.py:787-806 | the merged line; it has no contract of its own, and its meaning is stated by MergeLineFacts and PushLineCombines |
| Lines.MergeScore | helpers.py:787-806 | the merge pass's score; it has no contract of its own, and its meaning is stated by MergeLineFacts and MergeFromScoresDoubled |
| Lines.MoveStep | helpers.py:934-949 | one pivot of the compaction pass; its contract gives only the length, and its meaning is stated by MoveStepSettles |
| Lines.CompactLine | helpers.py:932-951 | the compacted line; its contract gives only the length, and its meaning is stated by CompactLineShape, CompactLinePermutes, CompactLineFixedIff and SettledIsCompact |
| Lines.FirstNonZero | helpers.py:796-799 | the cursor's first stop after position i: every cell before it is empty, and it is a tile unless it is the end of the line |
| Lines.MergeScanPartner | helpers.py:793-806 | a pivot merges only with the first tile after it and only when that tile equals it; then the pivot doubles, the partner empties and the doubled value is scored; otherwise the line is unchanged |
| Lines.MergeScanChanges | helpers.py:796-806 | a pivot changes the line exactly when it is a tile whose first following tile, across empty cells only, holds the same value; an empty pivot never merges, an unequal tile blocks |
| Lines.MergeFromStep | helpers.py:787-806 | the merge pass is one pivot after another, each on the line the earlier pivots left |
| Lines.MergingPivot | helpers.py:800-804 | a merging pivot contributes its doubled value to the line and the score as the textbook rule does |
| Lines.BlockedPivot | helpers.py:805-806 | a pivot with no equal partner keeps its value and adds nothing to the score |
| Lines.MergeFromCombines | helpers.py:786-806 | the tiles after the merge pass are the textbook 2048 combination of the tiles before it, and the score is that combination's score |
| Lines.PushLineCombines | helpers.py:230-231 | merge then compaction on a line gives the combined tiles packed at the start followed by zeros |
| Lines.MergeFromKeepsSum | helpers.py:800-803 | the merge pass keeps the total of the line, because 2v replaces v + v |
| Lines.MergeFromCells | helpers.py:787-806 | each cell ends as itself, empty or doubled, so it is doubled at most once; the far-edge cell is never doubled |
| Lines.MergeFromScoresDoubled | helpers.py:801-803 | the score equals the sum of the newly doubled cells |
| Lines.MergeLineFacts | helpers.py:786-806 | the merge pass on a whole line: same length, same total, cells kept, emptied or doubled, far edge never doubled, score equals the doubled values |
| Lines.EmptyLine | helpers.py:798-799 | an empty line is left alone by both passes and scores nothing |
| Lines.StuckLine | helpers.py:805-806 | a full line with no equal neighbours is left alone by both passes |
| Lines.CompactLineShape | helpers.py:932-951 | after compaction the line is packed and holds the original tiles in their original order |
| Lines.CompactLinePermutes | helpers.py:945-947 | compaction keeps the multiset of values on the line |
| Lines.PackedIsCompact | helpers.py:937-938 | a packed line is left as it is |
| Lines.CompactLineFixedIff | helpers.py:937-949 | compaction leaves a line unchanged if and only if the line is already packed |
| Lines.CompactLineIdempotent | helpers.py:932-951 | compacting twice gives what compacting once gives |
| Lines.MoveStepSettles | helpers.py:934-949 | one pivot of the compaction pass settles one more cell, keeps the tiles in order, and changes the line only when it was not packed |
| Lines.SettledIsCompact | helpers.py:932-949 | once every pivot is settled, the line is the compacted line |
| Lines.CompactionDone | helpers.py:932-951 | after all pivots, the line is the compacted line and the flag is set exactly when compaction changed the line |
| Lines.DoubleTile | helpers.py:801 | doubling a tile gives a tile |
| Lines.PassesKeepTiles | helpers.py:801-802 | if every cell is 0 or a power of two of at least 2, both passes keep it so |
| Boards.Line | helpers.py:786-796 | line k of a direction reads its cells in scan order: row k for a and d, column k for w and s |
| Boards.MergeBoard | helpers.py:227-237 | the board after the merge pass; its contract gives only the board shape, and its meaning is stated by MergeBoardLine and Helpers.HorizontalSum/VerticalSum |
| Boards.MergeBoardScore | helpers.py:227-237 | the merge pass's score on a board; it has no contract of its own, and its meaning is stated by PushScore |
| Boards.CompactBoard | helpers.py:227-237 | the board after the compaction pass; its contract gives only the board shape, and its meaning is stated by CompactBoardLine and CompactBoardIdempotent |
| Boards.Push | helpers.py:227-237 | a whole push; its contract gives only the board shape, and its meaning is stated by PushLine, PushScore, PushMoved and PushByLines |
| Boards.EmptyCells | helpers.py:728-735 | the list of empty cells; it has no contract of its own, and its meaning is stated by EmptyCellsExact, EmptyCellsWrite and EmptyCellsNonEmpty |
| Boards.MoveAvailable | helpers.py:157-160 | whether the game can go on; it has no contract of its own, and its meaning is stated by StuckLines, StuckBoard and Helpers.CanMove |
| Boards.Won | helpers.py:176-180 | whether some cell holds 2048; it has no contract of its own, and Helpers.HasWon is proved against it |
| Boards.MergeBoardLine | helpers.py:786-808 | line k after the merge pass is the merge pass on line k |
| Boards.CompactBoardLine | helpers.py:932-951 | line k after the compaction pass is the compaction of line k |
| Boards.PushLine | helpers.py:229-237 | lines stay separate: line k after a push depends on line k alone and is the textbook move on it |
| Boards.PushScore | helpers.py:803 | the score of a push is the sum over the four lines of the textbook rule's score |
| Boards.PushMoved | helpers.py:231-237 | the flag of a push is set exactly when some line left by the merge pass was not packed |
| Boards.PushByLines | helpers.py:229-237 | a push is determined line by line: board, score and flag follow from the four lines |
| Boards.CompactBoardIdempotent | helpers.py:932-951 | a second compaction in the same direction changes nothing |
| Boards.DirectionLines | helpers.py:781-784 | a reads rows left to right, d rows right to left, w columns top down, s columns bottom up |
| Boards.PushLeftRow | helpers.py:230-231 | A packs every row toward column 0 |
| Boards.PushRightRow | helpers.py:232-233 | D packs every row toward column 3 |
| Boards.PushUpColumn | helpers.py:234-235 | W packs every column toward row 0 |
| Boards.PushDownColumn | helpers.py:236-237 | S packs every column toward row 3 |
| Boards.StuckLines | helpers.py:157-160 | when the game cannot go on, every line is full and has no equal neighbours |
| Boards.StuckBoard | helpers.py:129-160 | when the game cannot go on, every push leaves the board alone, scores 0 and reports no movement |
| Boards.PushKeepsTiles | helpers.py:801-802 | a push keeps every cell 0 or a power of two of at least 2 |
| Boards.WriteKeepsTiles | helpers.py:126 | writing a 2 or a 4 keeps every cell a tile |
| Boards.EmptyCellsExact | helpers.py:728-735 | the listed cells are exactly the empty cells, in row-major order |
| Boards.EmptyCellsWrite | helpers.py:123-126 | filling one empty cell with a tile lowers the number of empty cells by one |
| Boards.EmptyCellsNonEmpty | helpers.py:157-158 | the list of empty cells is non-empty exactly when some cell is empty |
| Helpers.NewTable | helpers.py:83-101 | a new table is 4x4 with every cell 0 |
| Helpers.GetEmptyIndexes | helpers.py:708-735 | returns the empty cells of the table in row-major order |
| Helpers.InsertBlock | helpers.py:104-126 | a full table is left unchanged; otherwise one previously empty cell becomes 2 or 4, every other cell is kept, the number of empty cells drops by one, and tiles stay tiles |
| Helpers.CanMoveHorizontally | helpers.py:143-148 | true exactly when some row has two equal neighbours |
| Helpers.CanMoveVertically | helpers.py:150-155 | true exactly when some column has two equal neighbours |
| Helpers.CanMove | helpers.py:129-160 | true exactly when a cell is empty or two neighbours in a row or a column are equal |
| Helpers.HasWon | helpers.py:163-180 | true exactly when some cell holds 2048 |
| Helpers.MergePivot | helpers.py:788-806 | one pivot's cursor walk on the table: the line becomes the scan's result, the gained points are its score, and other lines are untouched |
| Helpers.SumLine | helpers.py:787-806 | the merge pass on line k: the line becomes the merged line, the gain is its score, and other lines are untouched |
| Helpers.HorizontalSum | helpers.py:738-808 | the table becomes the row-wise merged board for a or d, and the returned sum is the pass's score |
| Helpers.VerticalSum | helpers.py:811-881 | the table becomes the column-wise merged board for w or s, and the returned sum is the pass's score |
| Helpers.MovePivot | helpers.py:934-949 | one pivot of the compaction pass on the table: an empty pivot swaps with the first tile after it, and the result reports whether a swap happened |
| Helpers.MoveLine | helpers.py:933-949 | line k becomes the compacted line, and the flag is set exactly when that changed it |
| Helpers.HorizontalMove | helpers.py:884-951 | the table becomes the row-wise compacted board for a or d, and the flag is set exactly when the table changed |
| Helpers.VerticalMove | helpers.py:954-1022 | the table becomes the column-wise compacted board for w or s, and the flag is set exactly when the table changed |
| Helpers.PushBlocks | helpers.py:183-239 | for W, A, S, D: the table, score and flag are those of the merge pass followed by the compaction pass in that direction |
| Examples.DoctestPushA | helpers.py:206-210 | the documented table pushed with A scores 20 and moves |
| Examples.DoctestPushD | helpers.py:211-214 | then D scores 16 and moves |
| Examples.DoctestPushW | helpers.py:215-218 | then W scores 8 and moves |
| Examples.DoctestPushS | helpers.py:219-225 | after an 8 is written at row 2, column 2, S scores 16 and moves |
| Examples.SumDoctestLeft | helpers.py:766-770 | the merge pass a on the documented table scores 20 with the documented result |
| Examples.SumDoctestRight | helpers.py:771-775 | the merge pass d on the documented table scores 20 with the documented result |
| Examples.SumDoctestUp | helpers.py:839-843 | the merge pass w on the documented table scores 24 with the documented result |
| Examples.SumDoctestDown | helpers.py:844-848 | the merge pass s on the documented table scores 24 with the documented result |
| Examples.MoveDoctestLeft | helpers.py:912-916 | the compaction pass a gives the documented table and reports movement |
| Examples.MoveDoctestRight | helpers.py:917-921 | the compaction pass d gives the documented table and reports movement |
| Examples.MoveDoctestUp | helpers.py:982-986 | the compaction pass w gives the documented table and reports movement |
| Examples.MoveDoctestDown | helpers.py:988-992 | the compaction pass s gives the documented table and reports movement |
| Examples.WorkedExamplePush | game.py:79-103 | the row 4 0 4 4 merges to 8 0 0 4, then packs to 8 4 0 0 |
| Examples.CompactionWalkthrough | game.py:124-150 | on the line 4 0 0 4 the first pivot is skipped, the second takes the 4 at the far edge, the third changes nothing, and the line packs to 4 4 0 0 |
| Examples.LineExample_4_0_4_4 | game.py:79-103 | on the line 4 0 4 4 the merge pass gives 8 0 0 4 with score 8 |
| Examples.MergeOnlyPush | game.py:452-465 | a push whose tiles only merge in place scores 4 but reports no movement |
| Examples.RepeatedPushFirst | helpers.py:786-806 | four 2s pushed left give two 4s, score 8 |
| Examples.RepeatedPushSecond | helpers.py:786-806 | pushing left again merges them into an 8 and scores 8 again, so a push is not idempotent |
| Examples.EmptyCellsDoctest | src/helpers.py:724-726 | the documented table lists the empty cells (0,3), (1,3), (2,0), (2,3), (3,1), (3,3) |

## Left out

- Rendering and terminal layout are left out (`print_table`, `print_records`, `print_win`, `print_lose`, the banner and the alignment helpers). They only format and print.
- The random choices in `insert_block` are not modelled as probabilities. The cell and the value are chosen nondeterministically with `:|` among the empty cells and {2, 4}, and the contract holds for every choice.
- `game.py` is not part of this model: its menus, input loops, records list and the per-turn rule that calls the engine. The per-turn rule appears only as the `MergeOnlyPush` example.
- The fallback `case _: return 0, 0` of `push_blocks` is not modelled. The assert before it excludes every other key, and `PushBlocks` requires one of W, A, S, D.
- The doctest runner at the end of the file is not modelled.
- The key reaches `PushBlocks` as a character. The lower-case direction strings passed to the four pass functions become a `Direction` value, and their asserts become the `requires` on `d.Horizontal()`.
- The source inlines the per-line loops in each pass function; here they are the shared methods `SumLine` and `MoveLine`. The range of array indexes is walked by scan position, and `Index` maps each position to the array index the source uses.
- Integers are unbounded. The source's Python integers are too, so there is no wrap-around to model.
