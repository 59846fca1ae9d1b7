/** The visit orders of the two cleaning strategies, as functions of the map's
    dimensions (and, for the random path, of the generator's draw stream),
    with what the strategies promise about them. */
module Traversal {
  import opened Grid

  /** The visits of row `row` of a `cols`-wide map: left to right on an even
      row, right to left on an odd row. */
  function RowSweep(row: int, cols: nat): seq<Cell>
  {
    seq(cols, k requires 0 <= k < cols => if row % 2 == 0 then (row, k) else (row, cols - 1 - k))
  }

  /** The S-pattern (boustrophedon) sweep of the first `rows` rows, row by row. */
  function SPatternOrder(rows: nat, cols: nat): seq<Cell>
  {
    if rows == 0 then [] else SPatternOrder(rows - 1, cols) + RowSweep(rows - 1, cols)
  }

  /** The first `count` probes of the random path for a generator that has
      already consumed `start` draws: probe i takes draw start + 2i for its
      row and draw start + 2i + 1 for its column. */
  function RandomProbes(draws: nat -> nat, start: nat, rows: nat, cols: nat, count: nat): seq<Cell>
    requires count == 0 || (rows > 0 && cols > 0)
  {
    if count == 0 then []
    else
      RandomProbes(draws, start, rows, cols, count - 1)
      + [(draws(start + 2 * (count - 1)) % rows, draws(start + 2 * (count - 1) + 1) % cols)]
  }

  ghost predicate Distinct<T>(s: seq<T>)
  {
    forall i, j :: 0 <= i < j < |s| ==> s[i] != s[j]
  }

  /** An element of a sequence without repetitions occurs in it exactly once. */
  lemma {:induction false} DistinctOccursOnce<T>(s: seq<T>, x: T)
    requires Distinct(s) && x in s
    ensures multiset(s)[x] == 1
  {
    assert s == [s[0]] + s[1..];
    if s[0] == x {
      assert x !in s[1..];
    } else {
      DistinctOccursOnce(s[1..], x);
    }
  }

  // ----- S-pattern -----

  /** The sweep makes exactly one visit per tile: Rows * Cols in all. */
  lemma {:induction false} SPatternLength(rows: nat, cols: nat)
    ensures |SPatternOrder(rows, cols)| == rows * cols
  {
    if rows > 0 {
      SPatternLength(rows - 1, cols);
      assert (rows - 1) * cols + cols == rows * cols;
    }
  }

  /** The sweep never visits a coordinate outside the map. */
  lemma {:induction false} SPatternInGrid(rows: nat, cols: nat)
    ensures forall i :: 0 <= i < |SPatternOrder(rows, cols)| ==>
              InGrid(SPatternOrder(rows, cols)[i], rows, cols)
  {
    if rows > 0 {
      SPatternInGrid(rows - 1, cols);
    }
  }

  /** Rows are taken in increasing order: every visit of row r comes before
      every visit of a later row. */
  lemma {:induction false} SPatternRowsAscending(rows: nat, cols: nat)
    ensures forall i, j :: 0 <= i <= j < |SPatternOrder(rows, cols)| ==>
              SPatternOrder(rows, cols)[i].0 <= SPatternOrder(rows, cols)[j].0
  {
    if rows > 0 {
      SPatternRowsAscending(rows - 1, cols);
      SPatternInGrid(rows - 1, cols);
    }
  }

  /** No tile is visited twice. */
  lemma {:induction false} SPatternDistinct(rows: nat, cols: nat)
    ensures Distinct(SPatternOrder(rows, cols))
  {
    if rows > 0 {
      SPatternDistinct(rows - 1, cols);
      SPatternInGrid(rows - 1, cols);
    }
  }

  /** Every tile of the map is visited. */
  lemma {:induction false} SPatternCovers(rows: nat, cols: nat, cell: Cell)
    requires InGrid(cell, rows, cols)
    ensures cell in SPatternOrder(rows, cols)
  {
    if cell.0 == rows - 1 {
      var k := if (rows - 1) % 2 == 0 then cell.1 else cols - 1 - cell.1;
      assert RowSweep(rows - 1, cols)[k] == cell;
    } else {
      SPatternCovers(rows - 1, cols, cell);
    }
  }

  /** Each tile of the map is visited exactly once, and nothing else is visited. */
  lemma SPatternVisitsOnce(rows: nat, cols: nat, cell: Cell)
    ensures multiset(SPatternOrder(rows, cols))[cell] == if InGrid(cell, rows, cols) then 1 else 0
  {
    SPatternInGrid(rows, cols);
    if InGrid(cell, rows, cols) {
      SPatternDistinct(rows, cols);
      SPatternCovers(rows, cols, cell);
      DistinctOccursOnce(SPatternOrder(rows, cols), cell);
    }
  }

  /** Visit r * cols + k is step k of row r's sweep. */
  lemma {:induction false} SPatternPosition(rows: nat, cols: nat, r: nat, k: nat)
    requires r < rows && k < cols
    ensures r * cols + k < |SPatternOrder(rows, cols)|
    ensures SPatternOrder(rows, cols)[r * cols + k] == RowSweep(r, cols)[k]
  {
    SPatternLength(rows - 1, cols);
    if r < rows - 1 {
      SPatternPosition(rows - 1, cols, r, k);
    }
  }

  /** An even row is swept left to right: its k-th visit is column k. */
  lemma SPatternEvenRowForward(rows: nat, cols: nat, r: nat, k: nat)
    requires r < rows && r % 2 == 0 && k < cols
    ensures r * cols + k < |SPatternOrder(rows, cols)|
    ensures SPatternOrder(rows, cols)[r * cols + k] == (r, k)
  {
    SPatternPosition(rows, cols, r, k);
  }

  /** An odd row is swept right to left: its k-th visit is column cols - 1 - k. */
  lemma SPatternOddRowBackward(rows: nat, cols: nat, r: nat, k: nat)
    requires r < rows && r % 2 == 1 && k < cols
    ensures r * cols + k < |SPatternOrder(rows, cols)|
    ensures SPatternOrder(rows, cols)[r * cols + k] == (r, cols - 1 - k)
  {
    SPatternPosition(rows, cols, r, k);
  }

  // ----- Random path -----

  /** The random path makes exactly `count` probes. */
  lemma {:induction false} RandomProbesLength(draws: nat -> nat, start: nat, rows: nat, cols: nat, count: nat)
    requires count == 0 || (rows > 0 && cols > 0)
    ensures |RandomProbes(draws, start, rows, cols, count)| == count
  {
    if count > 0 {
      RandomProbesLength(draws, start, rows, cols, count - 1);
    }
  }

  /** Probe i is made of draws start + 2i (row) and start + 2i + 1 (column). */
  lemma {:induction false} RandomProbeAt(draws: nat -> nat, start: nat, rows: nat, cols: nat, count: nat, i: nat)
    requires count == 0 || (rows > 0 && cols > 0)
    requires i < count
    ensures |RandomProbes(draws, start, rows, cols, count)| == count
    ensures RandomProbes(draws, start, rows, cols, count)[i]
            == (draws(start + 2 * i) % rows, draws(start + 2 * i + 1) % cols)
  {
    RandomProbesLength(draws, start, rows, cols, count - 1);
    if i < count - 1 {
      RandomProbeAt(draws, start, rows, cols, count - 1, i);
    }
  }

  /** Every probe of the random path is a tile of the map. */
  lemma {:induction false} RandomProbesInGrid(draws: nat -> nat, start: nat, rows: nat, cols: nat, count: nat)
    requires count == 0 || (rows > 0 && cols > 0)
    ensures forall i :: 0 <= i < |RandomProbes(draws, start, rows, cols, count)| ==>
              InGrid(RandomProbes(draws, start, rows, cols, count)[i], rows, cols)
  {
    RandomProbesLength(draws, start, rows, cols, count);
    forall i | 0 <= i < count
      ensures InGrid(RandomProbes(draws, start, rows, cols, count)[i], rows, cols)
    {
      RandomProbeAt(draws, start, rows, cols, count, i);
    }
  }
}
