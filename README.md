# Robot vacuum: a verified model of its cleaning strategies

This project models the core of a small robot-vacuum simulation written in C#.
A `Robot` holds an optional cleaning strategy. `StartCleaning` runs that strategy over a
`Map`, which is a fixed `Rows x Cols` grid of dirty flags. The strategy calls the robot
back once per visited tile, and the robot writes one console line per visit.

There are two strategies:
- the S-pattern sweep goes through the rows in order, even rows left to right and odd rows right to left;
- the random path makes `Rows * Cols` probes, each a random row and a random column.

Files and modules:
- `random.dfy`, module `Randomness`: `System.Random`, modelled as a class over an arbitrary
  stream holding one value per `Next` call (`draws: nat -> nat`). `Next(n)` returns the next value
  reduced into `[0, n)`. The stream stands for the seed that `new Random()` picks at run time.
- `grid.dfy`, module `Grid`: the `Map` class over an `array2<bool>`. Its constructor fills the
  grid from a generator, and it has `IsDirty`, `HasDirtyTiles` and `CleanTile`. Also here:
  C#'s bounds-checked array store (`StoreChecked`), which throws `IndexOutOfRangeException`.
- `traversal.dfy`, module `Traversal`: the visit order of each strategy as a function
  (`SPatternOrder`, `RowSweep`, `RandomProbes`), and the lemmas about those orders.
- `vacuum.dfy`, module `Vacuum`: the strategy family as a closed datatype
  (`SPattern | RandomPath(random)`), the two `Clean` loops, and the `Robot` class. The robot's
  console is a field `console: seq<Line>`. Its per-tile callback appends `Cleaned(row, col)`, so
  every property of a traversal is a postcondition on that sequence.

The repository also has an earlier revision of the strategies (`vacuum.cs` at the top level).
Its two `Clean` loops are the same as in `VacuumCleanerApp/vacuum.cs`, so one model covers both.
The `Traversal` lemmas cite whichever revision's lines they were stated against.

Two choices follow from the code:
- `IsDirty` indexes the array without a check, so it requires an in-range tile. An out-of-range read would throw `IndexOutOfRangeException`.
- `Map.CleanTile` writes to the wrong row. See "## Findings".

## Model

| member | source | states |
|---|---|---|
| `Randomness.Random.constructor` | VacuumCleanerApp/vacuum.cs:35 | a new generator has consumed no draws of its stream |
| `Randomness.Random.Next` | VacuumCleanerApp/vacuum.cs:44-45 | returns a value in `[0, maxValue)` (0 for a zero bound), fixed by the next draw of the stream; consumes exactly one draw |
| `Grid.StoreChecked` | VacuumCleanerApp/vacuum.cs:107 | a C# store `a[i, j] = v` completes exactly when both indices are in range; it then writes only that element, otherwise it throws and the array is unchanged |
| `Grid.Map.constructor` | VacuumCleanerApp/vacuum.cs:88-102 | the grid has exactly `rows x cols` cells and the dimensions are fixed; tile `(r, c)` is dirty exactly when the generator's draw number `r * cols + c` (counting from its starting point) is odd; exactly `rows * cols` draws are consumed |
| `Grid.Map.IsDirty` | VacuumCleanerApp/vacuum.cs:103 | needs an in-range tile (no bounds check); a dirty answer is a witness that the map has a dirty tile |
| `Grid.Map.HasDirtyTiles` | VacuumCleanerApp/vacuum.cs:109-116 | true if and only if some tile of the map is dirty; changes nothing |
| `Grid.Map.CleanTileAsWritten` | VacuumCleanerApp/vacuum.cs:105-108 | the code as written: for every input it throws `IndexOutOfRangeException` and leaves every flag unchanged |
| `Grid.Map.CleanTile` | VacuumCleanerApp/vacuum.cs:105-108 | corrected: completes exactly for in-range tiles; afterwards that tile is clean, every other tile keeps its flag, and no dirt appears; an out-of-range tile throws and changes nothing |
| `Traversal.SPatternLength` | vacuum.cs:15-31 | the S-pattern sweep makes exactly `Rows * Cols` visits |
| `Traversal.SPatternInGrid` | VacuumCleanerApp/vacuum.cs:13-29 | the S-pattern sweep never visits a coordinate outside the map |
| `Traversal.SPatternRowsAscending` | VacuumCleanerApp/vacuum.cs:13 | rows are visited in increasing order: every visit of row `r` comes before every visit of a later row |
| `Traversal.SPatternDistinct` | VacuumCleanerApp/vacuum.cs:13-29 | the S-pattern sweep never visits a tile twice |
| `Traversal.SPatternCovers` | vacuum.cs:15-31 | every tile of the map is visited by the S-pattern sweep |
| `Traversal.SPatternVisitsOnce` | VacuumCleanerApp/vacuum.cs:13-29 | each in-range tile occurs exactly once in the sweep, and any other coordinate occurs zero times |
| `Traversal.SPatternPosition` | VacuumCleanerApp/vacuum.cs:15-27 | visit number `r * Cols + k` is step `k` of row `r`'s sweep |
| `Traversal.SPatternEvenRowForward` | vacuum.cs:17-22 | on an even row the `k`-th visit is column `k` (left to right) |
| `Traversal.SPatternOddRowBackward` | vacuum.cs:24-29 | on an odd row the `k`-th visit is column `Cols - 1 - k` (right to left) |
| `Traversal.RandomProbesLength` | vacuum.cs:41-46 | the random path makes exactly one probe per loop iteration, `Rows * Cols` in all |
| `Traversal.RandomProbeAt` | VacuumCleanerApp/vacuum.cs:42-46 | probe `i` is the row drawn by draw `2i` and the column drawn by draw `2i + 1` |
| `Traversal.RandomProbesInGrid` | vacuum.cs:44-45 | every random-path row lies in `[0, Rows)` and every column in `[0, Cols)` |
| `Vacuum.VisitsShape` | VacuumCleanerApp/vacuum.cs:3-6 | whichever strategy runs, it visits exactly `Rows * Cols` tiles, all of them on the map |
| `Vacuum.SPatternClean` | VacuumCleanerApp/vacuum.cs:10-30 | the nested loops call the robot back once per visit of `SPatternOrder`, in that order, and nothing else changes |
| `Vacuum.RandomPathClean` | VacuumCleanerApp/vacuum.cs:37-48 | the loop calls the robot back for exactly the probes of `RandomProbes` and consumes `2 * Rows * Cols` draws; with no tiles it never consults the generator |
| `Vacuum.Clean` | VacuumCleanerApp/vacuum.cs:3-6 | one run of a strategy writes exactly that strategy's visits to the robot's console |
| `Vacuum.Robot.constructor` | VacuumCleanerApp/vacuum.cs:56-59 | a new robot has the given name, no strategy and an empty console |
| `Vacuum.Robot.SetStrategy` | VacuumCleanerApp/vacuum.cs:61-64 | replaces the strategy unconditionally, including with none; nothing else changes |
| `Vacuum.Robot.StartCleaning` | VacuumCleanerApp/vacuum.cs:66-74 | with no strategy it writes the warning line and runs nothing; with one it runs that strategy exactly once on this robot and the given map, and a random-path strategy's generator advances by `2 * Rows * Cols` values; the map's flags never change |
| `Vacuum.Robot.CleanTile` | VacuumCleanerApp/vacuum.cs:76-79 | appends one line naming the tile to the console and does not touch the map |

## Left out

- The text of console lines: the strategy banners, the robot's name inside "cleaned tile" lines, and number formatting. A line is kept as `Cleaned(row, col)` or `NoStrategySet`.
- `Program.Main` (VacuumCleanerApp/vacuum.cs:119-136): a demo driver that runs both strategies on a 3x4 map.
- The distribution of `System.Random` and the seed that `new Random()` picks at run time. A generator is any stream with one value per `Next` call, and `Next(n)` is the next value modulo `n`. How many internal outputs .NET uses per call is not modelled.
- Grid.Map.constructor: the map's private `new Random()` (VacuumCleanerApp/vacuum.cs:94) becomes a generator the caller passes in. The model therefore lets callers share one generator between a map and a strategy, which the source never does.
- Randomness.Random.Next: with a bound of 0 it returns 0 and still consumes one draw. Whether .NET consumes state there depends on its version. This case never happens in the modelled code.
- C# 32-bit overflow of `Rows * Cols` and of the loop counters: integers are unbounded and the dimensions are non-negative.
- The compile errors of the earlier revision (`new Rabdom()`, the unused `using System.Data`, and its use of `Robot` and `Map` without defining them). Only its loop logic is modelled.
- Obstacles, the sweep-until-clean "intelligent" strategy and the rendering delays of later revisions. They are not in these source files.
- Strategy objects are not modelled by identity: `RandomPath(random)` stands for a `RandomPathStrategy` and the generator it owns.

## Findings

| source | as written | input that shows it | evidently intended | confidence | as-written member | corrected member |
|---|---|---|---|---|---|---|
| VacuumCleanerApp/vacuum.cs:107 | `dirtyTiles[Rows, col] = false`: the row index is the constant `Rows` and the `row` argument is ignored | any call, e.g. `CleanTile(0, 0)` on a 3x4 map: row index 3 is outside `0..2`, so it throws `IndexOutOfRangeException` and the tile stays dirty | `dirtyTiles[row, col] = false` | high (not executed) | `Grid.Map.CleanTileAsWritten` | `Grid.Map.CleanTile` |
