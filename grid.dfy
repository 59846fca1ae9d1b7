/** The map the robot cleans: a fixed Rows x Cols grid of dirty flags. */
module Grid {
  import opened Randomness

  /** A tile coordinate (row, col). */
  type Cell = (int, int)

  predicate InGrid(cell: Cell, rows: int, cols: int)
  {
    0 <= cell.0 < rows && 0 <= cell.1 < cols
  }

  /** How a statement ended: normally, or with an IndexOutOfRangeException. */
  datatype Outcome = Completed | IndexOutOfRange

  /** C#'s bounds-checked store `a[i, j] = v`: it either writes that one
      element or throws and writes nothing. */
  method StoreChecked(a: array2<bool>, i: int, j: int, v: bool) returns (outcome: Outcome)
    modifies a
    ensures outcome == Completed <==> 0 <= i < a.Length0 && 0 <= j < a.Length1
    ensures outcome == Completed ==> a[i, j] == v
    ensures outcome == IndexOutOfRange ==> unchanged(a)
    ensures forall r, c :: 0 <= r < a.Length0 && 0 <= c < a.Length1 && (r, c) != (i, j) ==>
              a[r, c] == old(a[r, c])
  {
    if 0 <= i < a.Length0 && 0 <= j < a.Length1 {
      a[i, j] := v;
      outcome := Completed;
    } else {
      outcome := IndexOutOfRange;
    }
  }

  class Map {
    const Rows: nat
    const Cols: nat
    const dirtyTiles: array2<bool>

    /** The flag matrix has exactly Rows x Cols cells. */
    ghost predicate Valid()
    {
      dirtyTiles.Length0 == Rows && dirtyTiles.Length1 == Cols
    }

    /** Some tile of the map is dirty. */
    ghost predicate AnyDirty()
      requires Valid()
      reads dirtyTiles
    {
      exists r, c :: 0 <= r < Rows && 0 <= c < Cols && dirtyTiles[r, c]
    }

    /** Fills the grid row by row, one coin `random.Next(2) == 1` per tile. */
    constructor (rows: nat, cols: nat, random: Random)
      modifies random
      ensures Valid() && fresh(dirtyTiles)
      ensures Rows == rows && Cols == cols
      ensures random.calls == old(random.calls) + rows * cols
      ensures forall r, c :: 0 <= r < rows && 0 <= c < cols ==>
                dirtyTiles[r, c] == (random.draws(old(random.calls) + r * cols + c) % 2 == 1)
    {
      var tiles := new bool[rows, cols];
      ghost var start := random.calls;
      var r := 0;
      while r < rows
        invariant 0 <= r <= rows
        invariant random.calls == start + r * cols
        invariant forall i, j :: 0 <= i < r && 0 <= j < cols ==>
                    tiles[i, j] == (random.draws(start + i * cols + j) % 2 == 1)
      {
        var c := 0;
        while c < cols
          invariant 0 <= c <= cols
          invariant random.calls == start + r * cols + c
          invariant forall i, j :: 0 <= i < r && 0 <= j < cols ==>
                      tiles[i, j] == (random.draws(start + i * cols + j) % 2 == 1)
          invariant forall j :: 0 <= j < c ==>
                      tiles[r, j] == (random.draws(start + r * cols + j) % 2 == 1)
        {
          var coin := random.Next(2);
          tiles[r, c] := coin == 1;
          c := c + 1;
        }
        assert start + r * cols + cols == start + (r + 1) * cols;
        r := r + 1;
      }
      Rows, Cols, dirtyTiles := rows, cols, tiles;
    }

    /** The stored flag of a tile; there is no bounds check, so the tile must exist. */
    function IsDirty(row: int, col: int): (dirty: bool)
      requires Valid()
      requires 0 <= row < Rows && 0 <= col < Cols
      reads dirtyTiles
      ensures dirty ==> AnyDirty()
    {
      dirtyTiles[row, col]
    }

    /** Scans the grid in row-major order and stops at the first dirty tile. */
    method HasDirtyTiles() returns (found: bool)
      requires Valid()
      ensures found <==> AnyDirty()
    {
      var r := 0;
      while r < Rows
        invariant 0 <= r <= Rows
        invariant forall i, j :: 0 <= i < r && 0 <= j < Cols ==> !dirtyTiles[i, j]
      {
        var c := 0;
        while c < Cols
          invariant 0 <= c <= Cols
          invariant forall j :: 0 <= j < c ==> !dirtyTiles[r, j]
        {
          if dirtyTiles[r, c] {
            return true;
          }
          c := c + 1;
        }
        r := r + 1;
      }
      return false;
    }

    /** Map.CleanTile as the source has it: the store goes to row index Rows,
        which never exists, so every call throws and no flag is cleared. */
    method CleanTileAsWritten(row: int, col: int) returns (outcome: Outcome)
      requires Valid()
      modifies dirtyTiles
      ensures outcome == IndexOutOfRange
      ensures unchanged(dirtyTiles)
    {
      outcome := StoreChecked(dirtyTiles, Rows, col, false);
    }

    /** Map.CleanTile as intended: clears the flag of tile (row, col); a tile
        outside the grid throws like any other out-of-range store. */
    method CleanTile(row: int, col: int) returns (outcome: Outcome)
      requires Valid()
      modifies dirtyTiles
      ensures outcome == Completed <==> 0 <= row < Rows && 0 <= col < Cols
      ensures outcome == Completed ==> !IsDirty(row, col)
      ensures outcome == IndexOutOfRange ==> unchanged(dirtyTiles)
      ensures forall r, c :: 0 <= r < Rows && 0 <= c < Cols && (r, c) != (row, col) ==>
                IsDirty(r, c) == old(IsDirty(r, c))
      ensures AnyDirty() ==> old(AnyDirty())
    {
      outcome := StoreChecked(dirtyTiles, row, col, false);
    }
  }
}
