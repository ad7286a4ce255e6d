/** A rental and its movement across the grid: the vehicle closes the
    distance along the first coordinate, then along the second, one cell per
    step, using up one unit of battery and redrawing itself on every step. */
module Rentals {
  import opened Java
  import opened JavaString
  import opened Vehicles
  import opened Drivers
  import opened CityGrid

  /** The "yes" answer of the rental files. */
  const YES: string := "da"

  /** The date of a malfunction that did not happen. */
  const NOT_EXIST: string := "nema"

  /** A malfunction record; the description is `null` when there was none. */
  datatype Malfunction = Malfunction(hasMalfunction: string, dateTimeOfMalfunction: string,
                                     descriptionOfMalfunction: Option<string>)

  /** The two `Malfunction` constructors. */
  function MalfunctionAt(hasMalfunction: string, dateTime: string): Malfunction
  {
    Malfunction(hasMalfunction, dateTime, Some("Pokvareno vozilo"))
  }

  function NoMalfunction(hasMalfunction: string): Malfunction
  {
    Malfunction(hasMalfunction, NOT_EXIST, None)
  }

  /** A rental: who rented which vehicle when, from where to where, for how
      long, and whether it broke down or ran under a promotion. */
  datatype Rental = Rental(
    rentalDateTime: string,
    driver: Driver,
    vehicle: Vehicle,
    firstStartCoordinate: int32,
    secondStartCoordinate: int32,
    firstFinishCoordinate: int32,
    secondFinishCoordinate: int32,
    usageDurationInSeconds: int32,
    malfunction: Malfunction,
    promotion: string)
  {
    /** The id a rental gets when it is made. */
    function IdOfRental(): string
    {
      rentalDateTime + " " + vehicle.idOfVehicle
    }
  }

  /** The rental id determines the date and the vehicle, for vehicle ids
      without spaces (dates may hold one). */
  lemma IdOfRentalDeterminesParts(r1: Rental, r2: Rental)
    requires ' ' !in r1.vehicle.idOfVehicle && ' ' !in r2.vehicle.idOfVehicle
    requires r1.IdOfRental() == r2.IdOfRental()
    ensures r1.rentalDateTime == r2.rentalDateTime
    ensures r1.vehicle.idOfVehicle == r2.vehicle.idOfVehicle
  {
    SpaceSuffix(r1.rentalDateTime, r1.vehicle.idOfVehicle, r2.rentalDateTime, r2.vehicle.idOfVehicle);
  }

  lemma SpaceSuffix(d1: string, v1: string, d2: string, v2: string)
    requires ' ' !in v1 && ' ' !in v2
    requires d1 + " " + v1 == d2 + " " + v2
    ensures d1 == d2 && v1 == v2
  {
    var s := d1 + " " + v1;
    LastIndexOfBefore(d1, ' ', v1);
    LastIndexOfBefore(d2, ' ', v2);
    assert s[..|d1|] == d1;
    assert (d2 + " " + v2)[..|d2|] == d2;
    assert s[|d1| + 1..] == v1;
    assert (d2 + " " + v2)[|d2| + 1..] == v2;
  }

  // ---------------------------------------------------------------------
  // The path
  // ---------------------------------------------------------------------

  /** `x1++` or `x1--`, whichever approaches the target. */
  function Toward(from: int32, to: int32): (next: int32)
    requires from != to
    ensures MathAbs(to - next) == MathAbs(to - from) - 1
  {
    if to > from then from + 1 else from - 1
  }

  datatype Cell = Cell(first: int32, second: int32)

  /** The cells the two loops of `run()` visit from (x, y): the first
      coordinate moves one unit at a time until it reaches `x2`, then the
      second until it reaches `y2`; the starting cell is not among them. */
  function PathFrom(x: int32, x2: int32, y: int32, y2: int32): (p: seq<Cell>)
    ensures |p| == MathAbs(x2 - x) + MathAbs(y2 - y)
    decreases MathAbs(x2 - x) + MathAbs(y2 - y)
  {
    if x != x2 then [Cell(Toward(x, x2), y)] + PathFrom(Toward(x, x2), x2, y, y2)
    else if y != y2 then [Cell(x, Toward(y, y2))] + PathFrom(x, x2, Toward(y, y2), y2)
    else []
  }

  /** The `k`-th cell visited from (x, y), in closed form. */
  lemma {:induction false} PathFromAt(x: int32, x2: int32, y: int32, y2: int32, k: nat)
    requires k < MathAbs(x2 - x) + MathAbs(y2 - y)
    ensures var n := MathAbs(x2 - x);
            PathFrom(x, x2, y, y2)[k] ==
              if k < n then Cell(if x2 > x then x + k + 1 else x - k - 1, y)
              else Cell(x2, if y2 > y then y + (k - n) + 1 else y - (k - n) - 1)
    decreases MathAbs(x2 - x) + MathAbs(y2 - y)
  {
    if k > 0 {
      if x != x2 {
        PathFromAt(Toward(x, x2), x2, y, y2, k - 1);
      } else {
        PathFromAt(x, x2, Toward(y, y2), y2, k - 1);
      }
    }
  }

  /** The cells a rental visits, in order. */
  function Path(r: Rental): (p: seq<Cell>)
    ensures |p| == MathAbs(r.firstFinishCoordinate - r.firstStartCoordinate) +
                   MathAbs(r.secondFinishCoordinate - r.secondStartCoordinate)
  {
    PathFrom(r.firstStartCoordinate, r.firstFinishCoordinate, r.secondStartCoordinate, r.secondFinishCoordinate)
  }

  /** The number of steps that close the first coordinate. */
  function FirstLegLength(r: Rental): nat
  {
    MathAbs(r.firstFinishCoordinate - r.firstStartCoordinate)
  }

  /** The number of steps that close the second coordinate. */
  function SecondLegLength(r: Rental): nat
  {
    MathAbs(r.secondFinishCoordinate - r.secondStartCoordinate)
  }

  /** Each cell of the path, in closed form: the first `FirstLegLength` cells
      move the first coordinate one unit at a time toward its target with the
      second coordinate at its start, the rest move the second coordinate with
      the first at its target. */
  lemma PathAt(r: Rental, k: nat)
    requires k < |Path(r)|
    ensures var (x1, x2) := (r.firstStartCoordinate, r.firstFinishCoordinate);
            var (y1, y2) := (r.secondStartCoordinate, r.secondFinishCoordinate);
            var n := FirstLegLength(r);
            Path(r)[k] == if k < n then Cell(if x2 > x1 then x1 + k + 1 else x1 - k - 1, y1)
                          else Cell(x2, if y2 > y1 then y1 + (k - n) + 1 else y1 - (k - n) - 1)
  {
    PathFromAt(r.firstStartCoordinate, r.firstFinishCoordinate, r.secondStartCoordinate, r.secondFinishCoordinate, k);
  }

  /** Distance between two cells in grid steps. */
  function Distance(a: Cell, b: Cell): nat
  {
    MathAbs(a.first - b.first) + MathAbs(a.second - b.second)
  }

  /** The path is a walk: it starts next to the start cell, each cell is next
      to the one before, and it ends on the finish cell. */
  lemma PathIsWalk(r: Rental)
    requires |Path(r)| > 0
    ensures Distance(Path(r)[0], Cell(r.firstStartCoordinate, r.secondStartCoordinate)) == 1
    ensures forall k | 0 < k < |Path(r)| :: Distance(Path(r)[k - 1], Path(r)[k]) == 1
    ensures Path(r)[|Path(r)| - 1] == Cell(r.firstFinishCoordinate, r.secondFinishCoordinate)
  {
    var p := Path(r);
    PathAt(r, 0);
    PathAt(r, |p| - 1);
    forall k | 0 < k < |p| ensures Distance(p[k - 1], p[k]) == 1 {
      PathAt(r, k - 1);
      PathAt(r, k);
    }
  }

  /** No first-coordinate step comes after a second-coordinate step: along
      the first leg the second coordinate is still at its start, along the
      second leg the first coordinate is already at its target. */
  lemma FirstCoordinateFirst(r: Rental, k: nat)
    requires k < |Path(r)|
    ensures k < FirstLegLength(r) ==> Path(r)[k].second == r.secondStartCoordinate
    ensures k >= FirstLegLength(r) ==> Path(r)[k].first == r.firstFinishCoordinate
  {
    PathAt(r, k);
  }

  // ---------------------------------------------------------------------
  // Steps, delay and the published labels
  // ---------------------------------------------------------------------

  /** `Math.abs(x2 - x1) + Math.abs(y2 - y1)` in `int`. */
  function NumberOfFields(r: Rental): int32
  {
    Add(Abs(Sub(r.firstFinishCoordinate, r.firstStartCoordinate)),
        Abs(Sub(r.secondFinishCoordinate, r.secondStartCoordinate)))
  }

  /** The pause between steps, `(usageDurationInSeconds * 1000) / numberOfFields`. */
  function Delay(r: Rental): int32
    requires NumberOfFields(r) != 0
  {
    Div(Mul(r.usageDurationInSeconds, 1000), NumberOfFields(r))
  }

  /** How many steps `run()` takes before it ends: none when the distance
      is 0 (the division throws), one when the delay is negative (the first
      `Thread.sleep` throws), the whole path otherwise. */
  function StepCount(r: Rental): (n: nat)
    ensures n <= |Path(r)|
  {
    if NumberOfFields(r) == 0 then 0
    else if Delay(r) < 0 then Min(1, |Path(r)|)
    else |Path(r)|
  }

  /** On coordinates that cannot overflow, the `int` field count is the
      Manhattan distance, i.e. the length of the path. */
  lemma NumberOfFieldsIsDistance(r: Rental)
    requires -0x1000_0000 <= r.firstStartCoordinate <= 0x1000_0000
    requires -0x1000_0000 <= r.firstFinishCoordinate <= 0x1000_0000
    requires -0x1000_0000 <= r.secondStartCoordinate <= 0x1000_0000
    requires -0x1000_0000 <= r.secondFinishCoordinate <= 0x1000_0000
    ensures NumberOfFields(r) == |Path(r)|
  {
    var dx := Sub(r.firstFinishCoordinate, r.firstStartCoordinate);
    var dy := Sub(r.secondFinishCoordinate, r.secondStartCoordinate);
    assert dx == r.firstFinishCoordinate - r.firstStartCoordinate;
    assert dy == r.secondFinishCoordinate - r.secondStartCoordinate;
    assert Abs(dx) == MathAbs(dx) && Abs(dy) == MathAbs(dy);
  }

  /** A rental between two different cells whose duration in milliseconds
      fits in an `int` walks its whole path, one step per cell, with the
      delay the integer quotient of the duration by the distance. */
  lemma RunWalksWholePath(r: Rental)
    requires -0x1000_0000 <= r.firstStartCoordinate <= 0x1000_0000
    requires -0x1000_0000 <= r.firstFinishCoordinate <= 0x1000_0000
    requires -0x1000_0000 <= r.secondStartCoordinate <= 0x1000_0000
    requires -0x1000_0000 <= r.secondFinishCoordinate <= 0x1000_0000
    requires 0 <= r.usageDurationInSeconds <= INT_MAX / 1000
    requires |Path(r)| > 0
    ensures NumberOfFields(r) != 0
    ensures Delay(r) == (r.usageDurationInSeconds * 1000) / |Path(r)|
    ensures StepCount(r) == |Path(r)|
  {
    NumberOfFieldsIsDistance(r);
  }

  /** The label published at step `k` (from 1): the vehicle id and the
      battery level `decreaseBatteryLevel` returned at that step. */
  function StepLabel(vehicleId: string, b0: int32, k: nat): string
  {
    vehicleId + "-" + IntToString(Reported(LevelAfter(b0, k)))
  }

  /** One `updateMatrix(x, y, info)` call. */
  datatype Move = Move(x: int32, y: int32, info: string)

  /** The `updateMatrix` calls for the cells `p`, the first of them being
      step `k` + 1 of the walk: the cell's second coordinate is passed first. */
  function MovesAlong(vehicleId: string, b0: int32, p: seq<Cell>, k: nat): (moves: seq<Move>)
    ensures |moves| == |p|
    decreases |p|
  {
    if |p| == 0 then []
    else [Move(p[0].second, p[0].first, StepLabel(vehicleId, b0, k + 1))] + MovesAlong(vehicleId, b0, p[1..], k + 1)
  }

  /** The `i`-th call of `MovesAlong`, in closed form. */
  lemma {:induction false} MovesAlongAt(vehicleId: string, b0: int32, p: seq<Cell>, k: nat, i: nat)
    requires i < |p|
    ensures MovesAlong(vehicleId, b0, p, k)[i] == Move(p[i].second, p[i].first, StepLabel(vehicleId, b0, k + i + 1))
    decreases |p|
  {
    if i > 0 {
      MovesAlongAt(vehicleId, b0, p[1..], k + 1, i - 1);
      assert StepLabel(vehicleId, b0, (k + 1) + (i - 1) + 1) == StepLabel(vehicleId, b0, k + i + 1);
    }
  }

  /** The `updateMatrix` calls of a full walk from battery level `b0`. */
  function RunMoves(r: Rental, b0: int32): (moves: seq<Move>)
    ensures |moves| == |Path(r)|
  {
    MovesAlong(r.vehicle.idOfVehicle, b0, Path(r), 0)
  }

  /** The grid after a sequence of `updateMatrix` calls, in order. */
  function ApplyMoves(g: Grid, moves: seq<Move>): Grid
    decreases |moves|
  {
    if |moves| == 0 then g
    else
      var last := moves[|moves| - 1];
      Updated(ApplyMoves(g, moves[..|moves| - 1]), last.x, last.y, last.info)
  }

  /** Starting from a full battery, every label of a walk of up to 95 steps
      names as its predecessor the label of the step before: each update
      takes the vehicle's previous label off the grid. */
  lemma LabelsChainFromFullBattery(vehicleId: string, k: nat)
    requires '-' !in vehicleId
    requires 1 <= k < 95
    ensures StepLabel(vehicleId, 100, k) == vehicleId + "-" + IntToString(100 - k)
    ensures OldLabel(StepLabel(vehicleId, 100, k + 1)) == Some(StepLabel(vehicleId, 100, k))
  {
    ChargedThenDecreased(k);
    ChargedThenDecreased(k + 1);
    OldLabelOfStep(vehicleId, 100 - (k + 1));
  }

  /** One more `updateMatrix` call extends the fold by that call. */
  lemma ApplyMovesStep(g: Grid, moves: seq<Move>, k: nat)
    requires k < |moves|
    ensures ApplyMoves(g, moves[..k + 1]) == Updated(ApplyMoves(g, moves[..k]), moves[k].x, moves[k].y, moves[k].info)
  {
    assert moves[..k + 1][..k] == moves[..k];
  }

  /** The call `run()` makes at step `k` + 1 is the `k`-th move of the walk. */
  lemma StepIsMove(r: Rental, b0: int32, k: nat, x1: int32, y1: int32, level: int32)
    requires k < |Path(r)|
    requires Path(r)[k] == Cell(x1, y1)
    requires level == Reported(LevelAfter(b0, k + 1))
    ensures RunMoves(r, b0)[k] == Move(y1, x1, r.vehicle.idOfVehicle + "-" + IntToString(level))
  {
    MovesAlongAt(r.vehicle.idOfVehicle, b0, Path(r), 0, k);
    assert StepLabel(r.vehicle.idOfVehicle, b0, 0 + k + 1) == StepLabel(r.vehicle.idOfVehicle, b0, k + 1);
  }

  /** A coordinate `k` unit steps from `from` in the direction of `to`. */
  function Along(from: int32, to: int32, k: nat): int
  {
    if to > from then from + k else from - k
  }

  /** The statement both loops of `run()` repeat after moving:
      `mainFrame.updateMatrix(y1, x1, vehicleId + "-" + vehicle.decreaseBatteryLevel())`. */
  method Redraw(vehicle: Vehicle, mainFrame: MainFrame, x1: int32, y1: int32)
    modifies vehicle`batteryLevel, mainFrame
    ensures vehicle.batteryLevel == LevelAfter(old(vehicle.batteryLevel), 1)
    ensures mainFrame.Snapshot() ==
            Updated(old(mainFrame.Snapshot()), y1, x1, vehicle.idOfVehicle + "-" + IntToString(Reported(vehicle.batteryLevel)))
  {
    var level := vehicle.DecreaseBatteryLevel();
    mainFrame.UpdateMatrix(y1, x1, vehicle.idOfVehicle + "-" + IntToString(level));
  }

  /** The cell a first-loop step reaches is the next cell of the path. */
  lemma FirstLegCell(r: Rental, k: nat, x: int32)
    requires k < FirstLegLength(r)
    requires x == Along(r.firstStartCoordinate, r.firstFinishCoordinate, k + 1)
    ensures k < |Path(r)| && Path(r)[k] == Cell(x, r.secondStartCoordinate)
  {
    PathAt(r, k);
  }

  /** The cell a second-loop step reaches is the next cell of the path. */
  lemma SecondLegCell(r: Rental, k: nat, y: int32)
    requires FirstLegLength(r) <= k < FirstLegLength(r) + SecondLegLength(r)
    requires y == Along(r.secondStartCoordinate, r.secondFinishCoordinate, k - FirstLegLength(r) + 1)
    ensures k < |Path(r)| && Path(r)[k] == Cell(r.firstFinishCoordinate, y)
  {
    PathAt(r, k);
  }

  /** The battery and the grid are those of the first `k` steps of the walk
      that started from battery level `b0` on grid `g0`. */
  ghost predicate WalkedTo(r: Rental, mainFrame: MainFrame, g0: Grid, b0: int32, k: nat)
    reads r.vehicle, mainFrame
  {
    k <= |Path(r)| && r.vehicle.batteryLevel == LevelAfter(b0, k) &&
    mainFrame.Snapshot() == ApplyMoves(g0, RunMoves(r, b0)[..k])
  }

  /** One step of either loop, as the `k`-th move of the walk. */
  method Advance(r: Rental, mainFrame: MainFrame, x1: int32, y1: int32, ghost g0: Grid, ghost b0: int32, ghost k: nat)
    requires k < |Path(r)| && Path(r)[k] == Cell(x1, y1)
    requires WalkedTo(r, mainFrame, g0, b0, k)
    modifies r.vehicle`batteryLevel, mainFrame
    ensures WalkedTo(r, mainFrame, g0, b0, k + 1)
  {
    LevelAfterNext(b0, k);
    Redraw(r.vehicle, mainFrame, x1, y1);
    StepIsMove(r, b0, k, x1, y1, Reported(r.vehicle.batteryLevel));
    ApplyMovesStep(g0, RunMoves(r, b0), k);
  }

  /** One step of the first loop: `x1` moves one unit toward `x2`, and the
      vehicle is redrawn there as the `k`-th move of the walk. */
  method FirstLegStep(r: Rental, mainFrame: MainFrame, x1: int32, ghost g0: Grid, ghost b0: int32, ghost k: nat)
    returns (next: int32)
    requires k < FirstLegLength(r) && x1 == Along(r.firstStartCoordinate, r.firstFinishCoordinate, k)
    requires WalkedTo(r, mainFrame, g0, b0, k)
    modifies r.vehicle`batteryLevel, mainFrame
    ensures next == Along(r.firstStartCoordinate, r.firstFinishCoordinate, k + 1)
    ensures WalkedTo(r, mainFrame, g0, b0, k + 1)
  {
    next := if r.firstFinishCoordinate > x1 then x1 + 1 else x1 - 1;
    FirstLegCell(r, k, next);
    Advance(r, mainFrame, next, r.secondStartCoordinate, g0, b0, k);
  }

  /** One step of the second loop: `y1` moves one unit toward `y2`, the
      first coordinate being at its target, as the `k`-th move of the walk. */
  method SecondLegStep(r: Rental, mainFrame: MainFrame, y1: int32, ghost g0: Grid, ghost b0: int32, ghost k: nat)
    returns (next: int32)
    requires FirstLegLength(r) <= k < FirstLegLength(r) + SecondLegLength(r)
    requires y1 == Along(r.secondStartCoordinate, r.secondFinishCoordinate, k - FirstLegLength(r))
    requires WalkedTo(r, mainFrame, g0, b0, k)
    modifies r.vehicle`batteryLevel, mainFrame
    ensures next == Along(r.secondStartCoordinate, r.secondFinishCoordinate, k - FirstLegLength(r) + 1)
    ensures WalkedTo(r, mainFrame, g0, b0, k + 1)
  {
    next := if r.secondFinishCoordinate > y1 then y1 + 1 else y1 - 1;
    SecondLegCell(r, k, next);
    Advance(r, mainFrame, r.firstFinishCoordinate, next, g0, b0, k);
  }

  /** The first loop of `run()`: closes the first coordinate, redrawing at
      every step; `interrupted` when the negative delay made the first
      `Thread.sleep` throw after a step. `done` counts the steps taken. */
  method WalkFirstCoordinate(r: Rental, mainFrame: MainFrame, delay: int32)
    returns (interrupted: bool, ghost done: nat)
    modifies r.vehicle`batteryLevel, mainFrame
    ensures interrupted <==> delay < 0 && FirstLegLength(r) > 0
    ensures done == if interrupted then 1 else FirstLegLength(r)
    ensures WalkedTo(r, mainFrame, old(mainFrame.Snapshot()), old(r.vehicle.batteryLevel), done)
  {
    ghost var g0 := mainFrame.Snapshot();
    ghost var b0 := r.vehicle.batteryLevel;
    ghost var n := FirstLegLength(r);
    var x1 := r.firstStartCoordinate;
    var x2 := r.firstFinishCoordinate;
    var y1 := r.secondStartCoordinate;
    done := 0;
    while x1 != x2
      invariant done <= n && x1 == Along(r.firstStartCoordinate, x2, done)
      invariant delay < 0 ==> done == 0
      invariant WalkedTo(r, mainFrame, g0, b0, done)
      decreases n - done
    {
      x1 := FirstLegStep(r, mainFrame, x1, g0, b0, done);
      done := done + 1;
      if delay < 0 {
        return true, done;
      }
    }
    return false, done;
  }

  /** The second loop of `run()`: closes the second coordinate, the first
      one being at its target, going on from the `FirstLegLength` steps of
      the first loop; it stops after one step on a negative delay. */
  method WalkSecondCoordinate(r: Rental, mainFrame: MainFrame, delay: int32, ghost g0: Grid, ghost b0: int32)
    returns (interrupted: bool, ghost done: nat)
    requires delay < 0 ==> FirstLegLength(r) == 0
    requires WalkedTo(r, mainFrame, g0, b0, FirstLegLength(r))
    modifies r.vehicle`batteryLevel, mainFrame
    ensures interrupted <==> delay < 0 && SecondLegLength(r) > 0
    ensures done == if interrupted then 1 else FirstLegLength(r) + SecondLegLength(r)
    ensures WalkedTo(r, mainFrame, g0, b0, done)
  {
    ghost var n := FirstLegLength(r);
    ghost var m := SecondLegLength(r);
    var x1 := r.firstFinishCoordinate;
    var y1 := r.secondStartCoordinate;
    var y2 := r.secondFinishCoordinate;
    ghost var j: nat := 0;
    done := n;
    while y1 != y2
      invariant j <= m && done == n + j && y1 == Along(r.secondStartCoordinate, y2, j)
      invariant delay < 0 ==> j == 0
      invariant WalkedTo(r, mainFrame, g0, b0, done)
      decreases m - j
    {
      y1 := SecondLegStep(r, mainFrame, y1, g0, b0, done);
      done := done + 1;
      j := j + 1;
      if delay < 0 {
        return true, done;
      }
    }
    assert j == m;
    return false, done;
  }

  /** `run()`: walks the path, lowering the battery once and redrawing the
      vehicle once per step, until the walk ends or an exception stops it. */
  method Run(r: Rental, mainFrame: MainFrame)
    modifies r.vehicle`batteryLevel, mainFrame
    ensures r.vehicle.batteryLevel == LevelAfter(old(r.vehicle.batteryLevel), StepCount(r))
    ensures mainFrame.Snapshot() == ApplyMoves(old(mainFrame.Snapshot()), RunMoves(r, old(r.vehicle.batteryLevel))[..StepCount(r)])
  {
    ghost var g0 := mainFrame.Snapshot();
    ghost var b0 := r.vehicle.batteryLevel;
    var numberOfFields := Add(Abs(Sub(r.firstFinishCoordinate, r.firstStartCoordinate)),
                              Abs(Sub(r.secondFinishCoordinate, r.secondStartCoordinate)));
    if numberOfFields == 0 {
      assert StepCount(r) == 0;
      return;
    }
    var delay := Div(Mul(r.usageDurationInSeconds, 1000), numberOfFields);
    assert delay == Delay(r);
    var interrupted, done := WalkFirstCoordinate(r, mainFrame, delay);
    if interrupted {
      assert done == StepCount(r);
      return;
    }
    interrupted, done := WalkSecondCoordinate(r, mainFrame, delay, g0, b0);
    assert |Path(r)| == FirstLegLength(r) + SecondLegLength(r);
    assert done == StepCount(r);
  }
}
