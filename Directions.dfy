/** An optional value, for the key lookup that may fail. */
module Wrappers {
  datatype Option<T> = None | Some(value: T)
}

/** The four push directions, the keys that select them, and where each one
    reads a line of the 4x4 board.

    A line is read in scan order: position 0 is the edge the tiles are pushed
    toward. For Left and Up that edge is index 0 and the scan walks up from
    it; for Right and Down it is index 3 and the scan walks down. */
module Directions {
  import opened Wrappers

  datatype Direction = Up | Left | Down | Right {

    /** The key the player types for this direction. */
    function Key(): char {
      match this
      case Up => 'W'
      case Left => 'A'
      case Down => 'S'
      case Right => 'D'
    }

    /** Left and Right push along rows, Up and Down along columns. */
    predicate Horizontal() {
      this == Left || this == Right
    }

    /** First pivot index of the scan: the edge the tiles pack toward. */
    function Start(): int {
      if this == Left || this == Up then 0 else 3
    }

    /** +1 when the scan walks up the indexes, -1 when it walks down. */
    function Step(): int {
      if Start() == 0 then 1 else -1
    }
  }

  /** The direction a key selects; any key other than W, A, S, D selects
      none. */
  function FromKey(c: char): (d: Option<Direction>)
    ensures d.Some? <==> c in {'W', 'A', 'S', 'D'}
    ensures d.Some? ==> d.value.Key() == c
  {
    match c
    case 'W' => Some(Up)
    case 'A' => Some(Left)
    case 'S' => Some(Down)
    case 'D' => Some(Right)
    case _ => None
  }

  /** Each direction is selected by its own key. */
  lemma KeyRoundTrip(d: Direction)
    ensures FromKey(d.Key()) == Some(d)
  {
  }

  /** Index along the line of scan position `p`. */
  function Index(d: Direction, p: int): (i: int)
    requires 0 <= p < 4
    ensures 0 <= i < 4
    ensures i == if d.Step() == 1 then d.Start() + p else d.Start() - p
  {
    if d.Step() == 1 then p else 3 - p
  }

  /** The line that holds the cell at row `r`, column `c`. */
  function LineOf(d: Direction, r: int, c: int): int {
    if d.Horizontal() then r else c
  }

  /** The scan position of the cell at row `r`, column `c` on its line. */
  function PosOf(d: Direction, r: int, c: int): int {
    var i := if d.Horizontal() then c else r;
    if d.Step() == 1 then i else 3 - i
  }

  /** Row and column of array index `i` on line `k`: line k is row k for
      Left and Right and column k for Up and Down. */
  function At(d: Direction, k: int, i: int): (cell: (int, int)) {
    if d.Horizontal() then (k, i) else (i, k)
  }

  /** Row and column of scan position `p` on line `k`. */
  function CellAt(d: Direction, k: int, p: int): (cell: (int, int))
    requires 0 <= k < 4 && 0 <= p < 4
    ensures 0 <= cell.0 < 4 && 0 <= cell.1 < 4
    ensures LineOf(d, cell.0, cell.1) == k && PosOf(d, cell.0, cell.1) == p
  {
    At(d, k, Index(d, p))
  }

  /** Every cell sits at exactly one position of exactly one line. */
  lemma CellAtLineOf(d: Direction, r: int, c: int)
    requires 0 <= r < 4 && 0 <= c < 4
    ensures 0 <= LineOf(d, r, c) < 4 && 0 <= PosOf(d, r, c) < 4
    ensures CellAt(d, LineOf(d, r, c), PosOf(d, r, c)) == (r, c)
  {
  }
}
