/** The robot vacuum and its pluggable cleaning strategies. */
module Vacuum {
  import opened Grid
  import opened Randomness
  import opened Traversal

  datatype Option<T> = None | Some(value: T)

  /** The closed family of cleaning strategies. A random-path strategy owns
      the generator it draws its probes from. */
  datatype Strategy = SPattern | RandomPath(random: Random)

  /** One line the robot writes to the console. */
  datatype Line = Cleaned(row: int, col: int) | NoStrategySet

  /** The console lines the robot writes for a sequence of visits. */
  function Lines(cells: seq<Cell>): seq<Line>
  {
    seq(|cells|, i requires 0 <= i < |cells| => Cleaned(cells[i].0, cells[i].1))
  }

  lemma LinesAppend(cells: seq<Cell>, row: int, col: int)
    ensures Lines(cells + [(row, col)]) == Lines(cells) + [Cleaned(row, col)]
  {
  }

  /** The objects a run of the strategy updates besides the robot. */
  function Footprint(strategy: Strategy): set<object>
  {
    match strategy
    case SPattern => {}
    case RandomPath(random) => {random}
  }

  /** The tiles a run of `strategy` visits on a rows x cols map, in order. */
  function Visits(strategy: Strategy, rows: nat, cols: nat): seq<Cell>
    reads Footprint(strategy)
  {
    match strategy
    case SPattern => SPatternOrder(rows, cols)
    case RandomPath(random) =>
      assert rows * cols == 0 || (rows > 0 && cols > 0);
      RandomProbes(random.draws, random.calls, rows, cols, rows * cols)
  }

  /** Every strategy visits exactly Rows * Cols tiles, all of them on the map. */
  lemma VisitsShape(strategy: Strategy, rows: nat, cols: nat)
    ensures |Visits(strategy, rows, cols)| == rows * cols
    ensures forall i :: 0 <= i < |Visits(strategy, rows, cols)| ==>
              InGrid(Visits(strategy, rows, cols)[i], rows, cols)
  {
    match strategy
    case SPattern =>
      SPatternLength(rows, cols);
      SPatternInGrid(rows, cols);
    case RandomPath(random) =>
      RandomProbesLength(random.draws, random.calls, rows, cols, rows * cols);
      RandomProbesInGrid(random.draws, random.calls, rows, cols, rows * cols);
  }

  /** SPatternStrategy.Clean: even rows left to right, odd rows right to left. */
  method SPatternClean(robot: Robot, room: Map)
    modifies robot`console
    ensures robot.console == old(robot.console) + Lines(SPatternOrder(room.Rows, room.Cols))
  {
    var row := 0;
    while row < room.Rows
      invariant 0 <= row <= room.Rows
      invariant robot.console == old(robot.console) + Lines(SPatternOrder(row, room.Cols))
    {
      ghost var done := SPatternOrder(row, room.Cols);
      ghost var sweep := RowSweep(row, room.Cols);
      if row % 2 == 0 {
        var col := 0;
        while col < room.Cols
          invariant 0 <= col <= room.Cols
          invariant robot.console == old(robot.console) + Lines(done + sweep[..col])
        {
          robot.CleanTile(row, col);
          assert done + sweep[..col + 1] == (done + sweep[..col]) + [(row, col)];
          LinesAppend(done + sweep[..col], row, col);
          col := col + 1;
        }
      } else {
        var col := room.Cols - 1;
        while col >= 0
          invariant -1 <= col < room.Cols
          invariant robot.console == old(robot.console) + Lines(done + sweep[..room.Cols - 1 - col])
        {
          robot.CleanTile(row, col);
          assert done + sweep[..room.Cols - col] == (done + sweep[..room.Cols - 1 - col]) + [(row, col)];
          LinesAppend(done + sweep[..room.Cols - 1 - col], row, col);
          col := col - 1;
        }
      }
      assert sweep[..room.Cols] == sweep;
      row := row + 1;
    }
  }

  /** RandomPathStrategy.Clean: Rows * Cols probes, each a row draw then a column draw. */
  method RandomPathClean(random: Random, robot: Robot, room: Map)
    modifies random, robot`console
    ensures random.calls == old(random.calls) + 2 * (room.Rows * room.Cols)
    ensures robot.console == old(robot.console)
              + Lines(RandomProbes(random.draws, old(random.calls), room.Rows, room.Cols, room.Rows * room.Cols))
  {
    ghost var start := random.calls;
    var totalTiles := room.Rows * room.Cols;
    var i := 0;
    while i < totalTiles
      invariant 0 <= i <= totalTiles
      invariant i == 0 || (room.Rows > 0 && room.Cols > 0)
      invariant random.calls == start + 2 * i
      invariant robot.console == old(robot.console)
                  + Lines(RandomProbes(random.draws, start, room.Rows, room.Cols, i))
    {
      assert room.Rows > 0 && room.Cols > 0;
      var row := random.Next(room.Rows);
      var col := random.Next(room.Cols);
      robot.CleanTile(row, col);
      LinesAppend(RandomProbes(random.draws, start, room.Rows, room.Cols, i), row, col);
      i := i + 1;
    }
  }

  /** ICleaningStrategy.Clean: runs the strategy once over the map. */
  method Clean(strategy: Strategy, robot: Robot, room: Map)
    modifies robot`console, Footprint(strategy)
    ensures robot.console == old(robot.console) + Lines(old(Visits(strategy, room.Rows, room.Cols)))
    ensures strategy.RandomPath? ==>
              strategy.random.calls == old(strategy.random.calls) + 2 * (room.Rows * room.Cols)
  {
    match strategy
    case SPattern =>
      SPatternClean(robot, room);
    case RandomPath(random) =>
      RandomPathClean(random, robot, room);
  }

  class Robot {
    var cleaningStrategy: Option<Strategy>
    var Name: string
    /** Everything the robot has written, oldest first. */
    var console: seq<Line>

    constructor (name: string)
      ensures Name == name && cleaningStrategy == None && console == []
    {
      Name := name;
      cleaningStrategy := None;
      console := [];
    }

    method SetStrategy(strategy: Option<Strategy>)
      modifies this`cleaningStrategy
      ensures cleaningStrategy == strategy
    {
      cleaningStrategy := strategy;
    }

    /** The objects a run of the current strategy updates besides the robot. */
    function StrategyFootprint(): set<object>
      reads this
    {
      if cleaningStrategy.Some? then Footprint(cleaningStrategy.value) else {}
    }

    /** Without a strategy: writes the warning and does nothing else. With one:
        runs it exactly once over `room`, with this robot as the callback. */
    method StartCleaning(room: Map)
      modifies this`console, StrategyFootprint()
      ensures unchanged(room.dirtyTiles)
      ensures old(cleaningStrategy).None? ==> console == old(console) + [NoStrategySet]
      ensures old(cleaningStrategy).Some? ==>
                console == old(console) + Lines(old(Visits(cleaningStrategy.value, room.Rows, room.Cols)))
      ensures cleaningStrategy.Some? && cleaningStrategy.value.RandomPath? ==>
                cleaningStrategy.value.random.calls
                == old(cleaningStrategy.value.random.calls) + 2 * (room.Rows * room.Cols)
    {
      if cleaningStrategy.None? {
        console := console + [NoStrategySet];
        return;
      }
      Clean(cleaningStrategy.value, this, room);
    }

    /** The per-tile callback: reports the tile and never touches the map. */
    method CleanTile(row: int, col: int)
      modifies this`console
      ensures console == old(console) + [Cleaned(row, col)]
    {
      console := console + [Cleaned(row, col)];
    }
  }
}
