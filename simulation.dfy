/** The simulation run: rentals grouped by their timestamp, one group after
    another; every rental of a group charges its vehicle, shows a marker or
    drives, and is settled; the grid is cleared once the whole group is
    done. The threads of the program are taken in the sequential schedule
    in which each rental's task runs as soon as it is started. */
module Simulation {
  import opened Java
  import opened JavaString
  import opened Vehicles
  import opened Drivers
  import opened CityGrid
  import opened Rentals
  import RentalCalculator
  import ReadRentals

  // ---------------------------------------------------------------------
  // Grouping by timestamp
  // ---------------------------------------------------------------------

  /** The distinct timestamps, in order of first appearance: the key order
      of the `LinkedHashMap`. */
  function DatesOf(rentals: seq<Rental>): seq<string>
    decreases |rentals|
  {
    if |rentals| == 0 then []
    else
      var dates := DatesOf(rentals[..|rentals| - 1]);
      var date := rentals[|rentals| - 1].rentalDateTime;
      if date in dates then dates else dates + [date]
  }

  /** The groups of the given timestamps, one after another. */
  function ConcatGroups(rentals: seq<Rental>, dates: seq<string>): seq<Rental>
    decreases |dates|
  {
    if |dates| == 0 then []
    else ConcatGroups(rentals, dates[..|dates| - 1]) + ReadRentals.WithDate(rentals, dates[|dates| - 1])
  }

  /** A rental added at the end joins the group of its timestamp, at its end. */
  lemma {:induction false} WithDateSnoc(s: seq<Rental>, x: Rental, date: string)
    ensures ReadRentals.WithDate(s + [x], date) ==
            ReadRentals.WithDate(s, date) + if x.rentalDateTime == date then [x] else []
    decreases |s|
  {
    if |s| == 0 {
      assert s + [x] == [x];
      assert [x][1..] == [];
    } else {
      assert (s + [x])[0] == s[0] && (s + [x])[1..] == s[1..] + [x];
      WithDateSnoc(s[1..], x, date);
    }
  }

  /** A group holds exactly the rentals of its timestamp. */
  lemma {:induction false} WithDateHolds(s: seq<Rental>, date: string, r: Rental)
    ensures r in ReadRentals.WithDate(s, date) <==> r in s && r.rentalDateTime == date
    decreases |s|
  {
    if |s| > 0 {
      WithDateHolds(s[1..], date, r);
      assert s == [s[0]] + s[1..];
    }
  }

  /** The keys are distinct and are exactly the timestamps of the rentals. */
  lemma {:induction false} DatesOfHolds(s: seq<Rental>)
    ensures Distinct(DatesOf(s))
    ensures forall date :: date in DatesOf(s) <==> exists k | 0 <= k < |s| :: s[k].rentalDateTime == date
    decreases |s|
  {
    if |s| > 0 {
      var t := s[..|s| - 1];
      DatesOfHolds(t);
      forall date ensures date in DatesOf(s) <==> exists k | 0 <= k < |s| :: s[k].rentalDateTime == date {
        if exists k | 0 <= k < |t| :: t[k].rentalDateTime == date {
          var k :| 0 <= k < |t| && t[k].rentalDateTime == date;
          assert s[k] == t[k];
        }
        if exists k | 0 <= k < |s| :: s[k].rentalDateTime == date {
          var k :| 0 <= k < |s| && s[k].rentalDateTime == date;
          if k < |t| {
            assert t[k] == s[k];
          }
        }
      }
    }
  }

  /** Every group under a key is non-empty, and a timestamp no rental has
      has no rentals. */
  lemma GroupNonEmptyIffDate(s: seq<Rental>, date: string)
    ensures |ReadRentals.WithDate(s, date)| > 0 <==> date in DatesOf(s)
  {
    DatesOfHolds(s);
    var group := ReadRentals.WithDate(s, date);
    if date in DatesOf(s) {
      var k :| 0 <= k < |s| && s[k].rentalDateTime == date;
      WithDateHolds(s, date, s[k]);
    }
    if |group| > 0 {
      WithDateHolds(s, date, group[0]);
      var k :| 0 <= k < |s| && s[k] == group[0];
    }
  }

  /** Every rental lands in the group of its own timestamp and in no other. */
  lemma ExactlyOneGroup(s: seq<Rental>, k: nat, date: string)
    requires k < |s|
    ensures s[k].rentalDateTime in DatesOf(s)
    ensures s[k] in ReadRentals.WithDate(s, date) <==> date == s[k].rentalDateTime
  {
    DatesOfHolds(s);
    WithDateHolds(s, date, s[k]);
  }

  /** A rental added at the end adds itself to the groups of the given keys
      when its timestamp is among them, and nothing otherwise. */
  lemma {:induction false} ConcatGroupsSnoc(t: seq<Rental>, x: Rental, dates: seq<string>)
    requires Distinct(dates)
    ensures multiset(ConcatGroups(t + [x], dates)) ==
            multiset(ConcatGroups(t, dates)) + if x.rentalDateTime in dates then multiset{x} else multiset{}
    decreases |dates|
  {
    if |dates| > 0 {
      DistinctFront(dates);
      ConcatGroupsSnoc(t, x, dates[..|dates| - 1]);
      WithDateSnoc(t, x, dates[|dates| - 1]);
    }
  }

  /** A rental whose timestamp is not among the keys leaves their groups
      as they were. */
  lemma {:induction false} ConcatGroupsSnocElsewhere(t: seq<Rental>, x: Rental, dates: seq<string>)
    requires x.rentalDateTime !in dates
    ensures ConcatGroups(t + [x], dates) == ConcatGroups(t, dates)
    decreases |dates|
  {
    if |dates| > 0 {
      ConcatGroupsSnocElsewhere(t, x, dates[..|dates| - 1]);
      WithDateSnoc(t, x, dates[|dates| - 1]);
    }
  }

  /** The keys but the last are distinct and do not hold the last. */
  lemma DistinctFront(dates: seq<string>)
    requires |dates| > 0 && Distinct(dates)
    ensures Distinct(dates[..|dates| - 1])
    ensures dates == dates[..|dates| - 1] + [dates[|dates| - 1]]
    ensures forall d :: d in dates <==> d in dates[..|dates| - 1] || d == dates[|dates| - 1]
    ensures dates[|dates| - 1] !in dates[..|dates| - 1]
  {
    var front := dates[..|dates| - 1];
    assert dates == front + [dates[|dates| - 1]];
    forall i | 0 <= i < |front| ensures front[i] == dates[i] {
    }
  }

  /** A rental added at the end adds its timestamp to the keys when it is
      new. */
  lemma DatesOfSnoc(t: seq<Rental>, x: Rental)
    ensures DatesOf(t + [x]) == if x.rentalDateTime in DatesOf(t) then DatesOf(t) else DatesOf(t) + [x.rentalDateTime]
  {
    assert (t + [x])[..|t|] == t;
  }

  /** A rental with a new timestamp is alone in its group. */
  lemma NewDateGroup(t: seq<Rental>, x: Rental)
    requires x.rentalDateTime !in DatesOf(t)
    ensures ReadRentals.WithDate(t + [x], x.rentalDateTime) == [x]
  {
    GroupNonEmptyIffDate(t, x.rentalDateTime);
    WithDateSnoc(t, x, x.rentalDateTime);
  }

  /** The groups split the rentals: together they hold each rental exactly
      once. */
  lemma {:induction false} GroupsPartition(s: seq<Rental>)
    ensures multiset(ConcatGroups(s, DatesOf(s))) == multiset(s)
    decreases |s|
  {
    if |s| > 0 {
      var t := s[..|s| - 1];
      var x := s[|s| - 1];
      assert s == t + [x];
      GroupsPartition(t);
      DatesOfHolds(t);
      DatesOfSnoc(t, x);
      ConcatGroupsSnoc(t, x, DatesOf(t));
      if x.rentalDateTime !in DatesOf(t) {
        NewDateGroup(t, x);
      }
    }
  }

  /** The sizes of the groups add up to the number of rentals. */
  lemma GroupSizesAddUp(s: seq<Rental>)
    ensures |ConcatGroups(s, DatesOf(s))| == |s|
  {
    GroupsPartition(s);
    assert |ConcatGroups(s, DatesOf(s))| == |multiset(ConcatGroups(s, DatesOf(s)))|;
  }

  /** Rentals of one timestamp stand next to each other. */
  predicate Contiguous(s: seq<Rental>)
  {
    forall i, j, k | 0 <= i < j < k < |s| && s[i].rentalDateTime == s[k].rentalDateTime ::
      s[j].rentalDateTime == s[i].rentalDateTime
  }

  /** Rentals sorted by timestamp keep each timestamp's rentals together. */
  lemma SortedIsContiguous(s: seq<Rental>)
    requires ReadRentals.SortedByDate(s)
    ensures Contiguous(s)
  {
    forall i, j, k | 0 <= i < j < k < |s| && s[i].rentalDateTime == s[k].rentalDateTime
      ensures s[j].rentalDateTime == s[i].rentalDateTime
    {
      CompareToAntisymmetric(s[j].rentalDateTime, s[k].rentalDateTime);
      CompareToZero(s[i].rentalDateTime, s[j].rentalDateTime);
    }
  }

  /** With contiguous timestamps the last key is the last rental's. */
  lemma {:induction false} LastDateIsLastRentals(s: seq<Rental>)
    requires |s| > 0 && Contiguous(s)
    ensures |DatesOf(s)| > 0 && DatesOf(s)[|DatesOf(s)| - 1] == s[|s| - 1].rentalDateTime
    decreases |s|
  {
    var t := s[..|s| - 1];
    var x := s[|s| - 1];
    DatesOfHolds(t);
    if x.rentalDateTime in DatesOf(t) {
      var k :| 0 <= k < |t| && t[k].rentalDateTime == x.rentalDateTime;
      assert s[k] == t[k];
      if k < |t| - 1 {
        assert s[|t| - 1].rentalDateTime == s[k].rentalDateTime;
      }
      ContiguousFront(s);
      LastDateIsLastRentals(t);
    }
  }

  /** Dropping the last rental keeps timestamps together. */
  lemma ContiguousFront(s: seq<Rental>)
    requires |s| > 0 && Contiguous(s)
    ensures Contiguous(s[..|s| - 1])
  {
    var t := s[..|s| - 1];
    forall i, j, l | 0 <= i < j < l < |t| && t[i].rentalDateTime == t[l].rentalDateTime
      ensures t[j].rentalDateTime == t[i].rentalDateTime
    {
      assert t[i] == s[i] && t[j] == s[j] && t[l] == s[l];
    }
  }

  /** A rental added at the end joins the last group when that group is
      its timestamp's. */
  lemma ConcatGroupsSnocLast(t: seq<Rental>, x: Rental, dates: seq<string>)
    requires |dates| > 0 && dates[|dates| - 1] == x.rentalDateTime && x.rentalDateTime !in dates[..|dates| - 1]
    ensures ConcatGroups(t + [x], dates) == ConcatGroups(t, dates) + [x]
  {
    ConcatGroupsSnocElsewhere(t, x, dates[..|dates| - 1]);
    WithDateSnoc(t, x, x.rentalDateTime);
  }

  /** A rental with a new timestamp opens the last group. */
  lemma ConcatGroupsNewDate(t: seq<Rental>, x: Rental)
    requires x.rentalDateTime !in DatesOf(t)
    ensures ConcatGroups(t + [x], DatesOf(t) + [x.rentalDateTime]) == ConcatGroups(t, DatesOf(t)) + [x]
  {
    var dates := DatesOf(t);
    assert (dates + [x.rentalDateTime])[..|dates|] == dates;
    ConcatGroupsSnocElsewhere(t, x, dates);
    NewDateGroup(t, x);
  }

  /** For rentals sorted by timestamp, as `readRentals` returns them, the
      groups one after another give back the rentals. */
  lemma {:induction false} GroupsOfContiguousRentals(s: seq<Rental>)
    requires Contiguous(s)
    ensures ConcatGroups(s, DatesOf(s)) == s
    decreases |s|
  {
    if |s| > 0 {
      var t := s[..|s| - 1];
      var x := s[|s| - 1];
      assert s == t + [x];
      ContiguousFront(s);
      GroupsOfContiguousRentals(t);
      DatesOfSnoc(t, x);
      if x.rentalDateTime !in DatesOf(t) {
        ConcatGroupsNewDate(t, x);
      } else {
        LastDateIsLastRentals(s);
        DatesOfHolds(t);
        DistinctFront(DatesOf(t));
        ConcatGroupsSnocLast(t, x, DatesOf(t));
      }
    }
  }

  /** `simulationOfRentals`, first loop: the rentals filed under their
      timestamps, keys in order of first appearance. */
  method GroupByDateTime(rentals: seq<Rental>) returns (dates: seq<string>, groups: map<string, seq<Rental>>)
    ensures dates == DatesOf(rentals)
    ensures forall date :: date in groups <==> date in dates
    ensures forall date | date in groups :: groups[date] == ReadRentals.WithDate(rentals, date)
  {
    dates := [];
    groups := map[];
    var i := 0;
    while i < |rentals|
      invariant 0 <= i <= |rentals|
      invariant dates == DatesOf(rentals[..i])
      invariant forall date :: date in groups <==> date in dates
      invariant forall date | date in groups :: groups[date] == ReadRentals.WithDate(rentals[..i], date)
    {
      var rental := rentals[i];
      var dateTime := rental.rentalDateTime;
      assert rentals[..i + 1] == rentals[..i] + [rental];
      forall date ensures ReadRentals.WithDate(rentals[..i + 1], date) ==
                          ReadRentals.WithDate(rentals[..i], date) + if dateTime == date then [rental] else [] {
        WithDateSnoc(rentals[..i], rental, date);
      }
      if dateTime !in groups {
        GroupNonEmptyIffDate(rentals[..i], dateTime);
        dates := dates + [dateTime];
        groups := groups[dateTime := []];
      }
      groups := groups[dateTime := groups[dateTime] + [rental]];
      i := i + 1;
    }
    assert rentals[..i] == rentals;
  }

  // ---------------------------------------------------------------------
  // Dispatching a group
  // ---------------------------------------------------------------------

  /** The label a broken-down vehicle shows where it stands: its id and its
      battery, which the charge has just set to 100. */
  function Marker(r: Rental): string
  {
    r.vehicle.idOfVehicle + "-" + IntToString(100)
  }

  /** What a rental's task does to the grid, its vehicle charged first: a
      marker at the start for a breakdown, the drive otherwise. */
  function TaskGrid(g: Grid, r: Rental): Grid
  {
    if YES == r.malfunction.hasMalfunction then
      WithContent(g, r.firstStartCoordinate, r.secondStartCoordinate, Marker(r))
    else ApplyMoves(g, RunMoves(r, 100)[..StepCount(r)])
  }

  /** The grid after each rental task of a group, in order. */
  function GridAfterTasks(g: Grid, group: seq<Rental>): Grid
    decreases |group|
  {
    if |group| == 0 then g else TaskGrid(GridAfterTasks(g, group[..|group| - 1]), group[|group| - 1])
  }

  /** The settlement of a rental under the driver counts. */
  function SettlementOf(r: Rental, records: map<string, RentalCalculator.Record>, counts: map<string, int32>,
                        nameOfFolder: Option<string>): RentalCalculator.Outcome
  {
    RentalCalculator.Settlement(r, records, CountOf(counts, r.driver.nameOfTheDriver), nameOfFolder)
  }

  /** The bill files after the settlements of a group, in order. */
  function TextsAfterTasks(texts: map<string, seq<string>>, group: seq<Rental>, records: map<string, RentalCalculator.Record>,
                           counts: map<string, int32>, nameOfFolder: Option<string>, show: real -> string)
    : map<string, seq<string>>
    decreases |group|
  {
    if |group| == 0 then texts
    else
      var r := group[|group| - 1];
      RentalCalculator.TextsAfter(TextsAfterTasks(texts, group[..|group| - 1], records, counts, nameOfFolder, show),
                                  r, SettlementOf(r, records, counts, nameOfFolder), nameOfFolder, show)
  }

  /** How many settlements of a group throw. */
  function Failures(group: seq<Rental>, records: map<string, RentalCalculator.Record>, counts: map<string, int32>,
                    nameOfFolder: Option<string>): (n: nat)
    ensures n <= |group|
    decreases |group|
  {
    if |group| == 0 then 0
    else
      Failures(group[..|group| - 1], records, counts, nameOfFolder) +
      if SettlementOf(group[|group| - 1], records, counts, nameOfFolder).Failed? then 1 else 0
  }

  /** A group has no failing settlement exactly when each of its rentals
      settles. */
  lemma {:induction false} NoFailuresIffAllSettle(group: seq<Rental>, records: map<string, RentalCalculator.Record>,
                                                  counts: map<string, int32>, nameOfFolder: Option<string>)
    ensures Failures(group, records, counts, nameOfFolder) == 0 <==>
            forall k | 0 <= k < |group| :: !SettlementOf(group[k], records, counts, nameOfFolder).Failed?
    decreases |group|
  {
    if |group| > 0 {
      var front := group[..|group| - 1];
      NoFailuresIffAllSettle(front, records, counts, nameOfFolder);
      assert forall k | 0 <= k < |front| :: front[k] == group[k];
    }
  }

  /** One rental of a group: the vehicle is charged, then it shows a marker
      at its start when it broke down and drives otherwise, and in any case
      the rental is settled (the `finally` block). */
  method RunTask(r: Rental, mainFrame: MainFrame, disk: RentalCalculator.Disk, registry: DriverRegistry,
                 nameOfFolder: Option<string>, show: real -> string)
    returns (totalPrice: Option<real>)
    modifies r.vehicle`batteryLevel, mainFrame, disk`texts
    ensures r.vehicle.batteryLevel == if YES == r.malfunction.hasMalfunction then 100 else LevelAfter(100, StepCount(r))
    ensures mainFrame.Snapshot() == TaskGrid(old(mainFrame.Snapshot()), r)
    ensures totalPrice ==
            RentalCalculator.TotalPrice(SettlementOf(r, disk.records, registry.driverCountMap, nameOfFolder))
    ensures disk.texts == RentalCalculator.TextsAfter(old(disk.texts), r,
                                                      SettlementOf(r, disk.records, registry.driverCountMap, nameOfFolder),
                                                      nameOfFolder, show)
  {
    r.vehicle.ChargeBatteryLevel();
    if YES == r.malfunction.hasMalfunction {
      mainFrame.ShowContentAt(r.firstStartCoordinate, r.secondStartCoordinate,
                              r.vehicle.idOfVehicle + "-" + IntToString(r.vehicle.batteryLevel));
    } else {
      Run(r, mainFrame);
    }
    totalPrice := disk.ReadAndCalculateFromPropertiesFile(r, registry, nameOfFolder, show);
  }

  /** The failure count of a group, one rental further. */
  lemma FailuresNext(group: seq<Rental>, i: nat, records: map<string, RentalCalculator.Record>,
                     counts: map<string, int32>, nameOfFolder: Option<string>)
    requires i < |group|
    ensures Failures(group[..i + 1], records, counts, nameOfFolder) ==
            Failures(group[..i], records, counts, nameOfFolder) +
            if SettlementOf(group[i], records, counts, nameOfFolder).Failed? then 1 else 0
  {
    assert group[..i + 1][..i] == group[..i] && group[..i + 1][i] == group[i];
  }

  /** The grid after a group's tasks, one rental further. */
  lemma GridNext(group: seq<Rental>, i: nat, g0: Grid)
    requires i < |group|
    ensures GridAfterTasks(g0, group[..i + 1]) == TaskGrid(GridAfterTasks(g0, group[..i]), group[i])
  {
    assert group[..i + 1][..i] == group[..i] && group[..i + 1][i] == group[i];
  }

  /** The bill files after a group's settlements, one rental further. */
  lemma TextsNext(group: seq<Rental>, i: nat, texts0: map<string, seq<string>>,
                  records: map<string, RentalCalculator.Record>, counts: map<string, int32>,
                  nameOfFolder: Option<string>, show: real -> string)
    requires i < |group|
    ensures TextsAfterTasks(texts0, group[..i + 1], records, counts, nameOfFolder, show) ==
            RentalCalculator.TextsAfter(TextsAfterTasks(texts0, group[..i], records, counts, nameOfFolder, show),
                                        group[i], SettlementOf(group[i], records, counts, nameOfFolder), nameOfFolder, show)
  {
    assert group[..i + 1][..i] == group[..i] && group[..i + 1][i] == group[i];
  }

  /** One turn of the dispatch loop: rental `i` of the group runs and is
      settled, and the grid and the bill files move on by that rental. */
  method DispatchRental(group: seq<Rental>, i: nat, ghost g0: Grid, ghost texts0: map<string, seq<string>>,
                        mainFrame: MainFrame, disk: RentalCalculator.Disk, registry: DriverRegistry,
                        nameOfFolder: Option<string>, show: real -> string)
    returns (totalPrice: Option<real>)
    requires i < |group|
    requires mainFrame.Snapshot() == GridAfterTasks(g0, group[..i])
    requires disk.texts == TextsAfterTasks(texts0, group[..i], disk.records, registry.driverCountMap, nameOfFolder, show)
    modifies group[i].vehicle`batteryLevel, mainFrame, disk`texts
    ensures totalPrice.None? <==> SettlementOf(group[i], disk.records, registry.driverCountMap, nameOfFolder).Failed?
    ensures mainFrame.Snapshot() == GridAfterTasks(g0, group[..i + 1])
    ensures disk.texts == TextsAfterTasks(texts0, group[..i + 1], disk.records, registry.driverCountMap, nameOfFolder, show)
  {
    GridNext(group, i, g0);
    TextsNext(group, i, texts0, disk.records, registry.driverCountMap, nameOfFolder, show);
    totalPrice := RunTask(group[i], mainFrame, disk, registry, nameOfFolder, show);
  }

  /** The rentals of one timestamp, in order, with the latch set to the
      group's size. A settlement that throws skips its `countDown`, so the
      latch is left at the number of failing settlements. */
  method ProcessGroup(group: seq<Rental>, vehicles: seq<Vehicle>, mainFrame: MainFrame, disk: RentalCalculator.Disk,
                      registry: DriverRegistry, nameOfFolder: Option<string>, show: real -> string)
    returns (latch: int)
    requires forall k | 0 <= k < |group| :: group[k].vehicle in vehicles
    modifies vehicles, mainFrame, disk`texts
    ensures latch == Failures(group, disk.records, registry.driverCountMap, nameOfFolder)
    ensures mainFrame.Snapshot() == GridAfterTasks(old(mainFrame.Snapshot()), group)
    ensures disk.texts == TextsAfterTasks(old(disk.texts), group, disk.records, registry.driverCountMap, nameOfFolder, show)
  {
    ghost var g0 := mainFrame.Snapshot();
    ghost var texts0 := disk.texts;
    latch := |group|;
    var i := 0;
    while i < |group|
      invariant 0 <= i <= |group|
      invariant latch == |group| - i + Failures(group[..i], disk.records, registry.driverCountMap, nameOfFolder)
      invariant mainFrame.Snapshot() == GridAfterTasks(g0, group[..i])
      invariant disk.texts == TextsAfterTasks(texts0, group[..i], disk.records, registry.driverCountMap, nameOfFolder, show)
    {
      FailuresNext(group, i, disk.records, registry.driverCountMap, nameOfFolder);
      var totalPrice := DispatchRental(group, i, g0, texts0, mainFrame, disk, registry, nameOfFolder, show);
      if totalPrice.Some? {
        latch := latch - 1;
      }
      i := i + 1;
    }
    assert group[..i] == group;
  }

  /** The dispatch loop with `countDown` run whatever the settlement does:
      the latch of every group opens. */
  method ProcessGroupCountingDown(group: seq<Rental>, vehicles: seq<Vehicle>, mainFrame: MainFrame,
                                  disk: RentalCalculator.Disk, registry: DriverRegistry, nameOfFolder: Option<string>,
                                  show: real -> string)
    returns (latch: int)
    requires forall k | 0 <= k < |group| :: group[k].vehicle in vehicles
    modifies vehicles, mainFrame, disk`texts
    ensures latch == 0
    ensures mainFrame.Snapshot() == GridAfterTasks(old(mainFrame.Snapshot()), group)
    ensures disk.texts == TextsAfterTasks(old(disk.texts), group, disk.records, registry.driverCountMap, nameOfFolder, show)
  {
    ghost var g0 := mainFrame.Snapshot();
    ghost var texts0 := disk.texts;
    latch := |group|;
    var i := 0;
    while i < |group|
      invariant 0 <= i <= |group|
      invariant latch == |group| - i
      invariant mainFrame.Snapshot() == GridAfterTasks(g0, group[..i])
      invariant disk.texts == TextsAfterTasks(texts0, group[..i], disk.records, registry.driverCountMap, nameOfFolder, show)
    {
      var _ := DispatchRental(group, i, g0, texts0, mainFrame, disk, registry, nameOfFolder, show);
      latch := latch - 1;
      i := i + 1;
    }
    assert group[..i] == group;
  }

  // ---------------------------------------------------------------------
  // The whole run
  // ---------------------------------------------------------------------

  /** How a run ends: the records could not be written (the exception
      leaves `invokeLater` before anything is scheduled), a group's latch
      never opened (the scheduler waits for ever), or every group ran. */
  datatype Status = NotStarted | Blocked(group: nat) | Finished

  /** The rentals of the file go into the catalog's vehicles, sorted. */
  lemma LoadedRentalsUseCatalog(fileOrder: seq<Rental>, lines: seq<string>, vehicles: seq<Vehicle>, date: string)
    requires ReadRentals.Represents(fileOrder, ReadRentals.LoadedFrom(ReadRentals.DataRows(lines), vehicles))
    ensures ReadRentals.SortedByDate(ReadRentals.SortByDate(fileOrder))
    ensures forall r | r in ReadRentals.WithDate(ReadRentals.SortByDate(fileOrder), date) :: r.vehicle in vehicles
  {
    var loaded := ReadRentals.LoadedFrom(ReadRentals.DataRows(lines), vehicles);
    ReadRentals.LoadedFromIsClean(ReadRentals.DataRows(lines), vehicles);
    ReadRentals.SortByDateIsStableSort(fileOrder);
    forall r | r in ReadRentals.WithDate(ReadRentals.SortByDate(fileOrder), date) ensures r.vehicle in vehicles {
      WithDateHolds(ReadRentals.SortByDate(fileOrder), date, r);
      assert r in multiset(ReadRentals.SortByDate(fileOrder));
      var k :| 0 <= k < |fileOrder| && fileOrder[k] == r;
      assert ReadRentals.Matches(fileOrder[k], loaded[k]);
    }
  }

  /** Every rental of every group of the loaded rentals drives a vehicle
      of the catalog. */
  lemma GroupsUseCatalog(fileOrder: seq<Rental>, lines: seq<string>, vehicles: seq<Vehicle>, dates: seq<string>,
                         groups: map<string, seq<Rental>>)
    requires ReadRentals.Represents(fileOrder, ReadRentals.LoadedFrom(ReadRentals.DataRows(lines), vehicles))
    requires forall j | 0 <= j < |dates| :: dates[j] in groups
    requires forall date | date in groups :: groups[date] == ReadRentals.WithDate(ReadRentals.SortByDate(fileOrder), date)
    ensures forall j, k | 0 <= j < |dates| && 0 <= k < |groups[dates[j]]| :: groups[dates[j]][k].vehicle in vehicles
  {
    forall j, k | 0 <= j < |dates| && 0 <= k < |groups[dates[j]]| ensures groups[dates[j]][k].vehicle in vehicles {
      LoadedRentalsUseCatalog(fileOrder, lines, vehicles, dates[j]);
      assert groups[dates[j]][k] in ReadRentals.WithDate(ReadRentals.SortByDate(fileOrder), dates[j]);
    }
  }

  /** One entry of the map: its rentals are dispatched, the scheduler waits
      on the latch and, once it opens, clears the grid. The latch stays up
      exactly when a settlement of the group threw. */
  method RunEntry(group: seq<Rental>, vehicles: seq<Vehicle>, mainFrame: MainFrame, disk: RentalCalculator.Disk,
                  registry: DriverRegistry, nameOfFolder: Option<string>, show: real -> string)
    returns (latch: int)
    requires forall k | 0 <= k < |group| :: group[k].vehicle in vehicles
    modifies vehicles, mainFrame, disk`texts
    ensures latch == Failures(group, disk.records, registry.driverCountMap, nameOfFolder)
    ensures latch == 0 ==> mainFrame.city == map[]
  {
    latch := ProcessGroup(group, vehicles, mainFrame, disk, registry, nameOfFolder, show);
    if latch == 0 {
      mainFrame.ClearMatrix();
    }
  }

  /** The groups run in key order, the grid cleared after each; the first
      group whose latch stays up blocks the scheduler, and no later group
      runs. */
  method RunGroups(dates: seq<string>, groups: map<string, seq<Rental>>, vehicles: seq<Vehicle>,
                   registry: DriverRegistry, mainFrame: MainFrame, disk: RentalCalculator.Disk,
                   nameOfFolder: Option<string>, show: real -> string)
    returns (status: Status)
    requires forall j | 0 <= j < |dates| :: dates[j] in groups
    requires forall j, k | 0 <= j < |dates| && 0 <= k < |groups[dates[j]]| :: groups[dates[j]][k].vehicle in vehicles
    modifies vehicles, mainFrame, disk`texts
    ensures !status.NotStarted?
    ensures status.Blocked? ==>
              status.group < |dates| &&
              Failures(groups[dates[status.group]], disk.records, registry.driverCountMap, nameOfFolder) > 0 &&
              forall j | 0 <= j < status.group :: Failures(groups[dates[j]], disk.records, registry.driverCountMap, nameOfFolder) == 0
    ensures status.Finished? ==>
              forall j | 0 <= j < |dates| :: Failures(groups[dates[j]], disk.records, registry.driverCountMap, nameOfFolder) == 0
    ensures status.Finished? && |dates| > 0 ==> mainFrame.city == map[]
  {
    var j := 0;
    while j < |dates|
      invariant 0 <= j <= |dates|
      invariant forall i | 0 <= i < j :: Failures(groups[dates[i]], disk.records, registry.driverCountMap, nameOfFolder) == 0
      invariant j > 0 ==> mainFrame.city == map[]
    {
      var latch := RunEntry(groups[dates[j]], vehicles, mainFrame, disk, registry, nameOfFolder, show);
      if latch > 0 {
        return Blocked(j);
      }
      j := j + 1;
    }
    status := Finished;
  }

  /** `simulationOfRentals` as written: read the rentals (`fileOrder` in
      file order, `rentals` sorted), write their records, group them, then run the groups in order; after each group
      the grid is cleared. When a settlement of a group throws, that
      group's latch never reaches zero and no later group runs. */
  method SimulationOfRentals(content: Option<seq<string>>, vehicles: seq<Vehicle>, registry: DriverRegistry,
                             mainFrame: MainFrame, disk: RentalCalculator.Disk, nameOfFolder: Option<string>,
                             values: Option<RentalCalculator.Values>, show: real -> string)
    returns (rentals: seq<Rental>, ghost fileOrder: seq<Rental>, dates: seq<string>, groups: map<string, seq<Rental>>,
             status: Status)
    modifies vehicles, registry, mainFrame, disk
    ensures ReadRentals.Represents(fileOrder, ReadRentals.LoadedFrom(ReadRentals.DataRows(ReadRentals.LinesOf(content)), vehicles))
    ensures rentals == ReadRentals.SortByDate(fileOrder)
    ensures registry.driverCountMap ==
            BumpedAll(old(registry.driverCountMap), ReadRentals.DriverNamesFrom(ReadRentals.DataRows(ReadRentals.LinesOf(content))))
    ensures ReadRentals.SortedByDate(rentals)
    ensures dates == DatesOf(rentals) && forall date :: date in groups <==> date in dates
    ensures forall date | date in groups :: groups[date] == ReadRentals.WithDate(rentals, date)
    ensures status.NotStarted? <==> !forall k | 0 <= k < |rentals| :: RentalCalculator.ValuesPresent(rentals[k], values)
    ensures status.Blocked? ==>
              status.group < |dates| &&
              Failures(groups[dates[status.group]], disk.records, registry.driverCountMap, nameOfFolder) > 0 &&
              forall j | 0 <= j < status.group :: Failures(groups[dates[j]], disk.records, registry.driverCountMap, nameOfFolder) == 0
    ensures status.Finished? ==>
              forall j | 0 <= j < |dates| :: Failures(groups[dates[j]], disk.records, registry.driverCountMap, nameOfFolder) == 0
    ensures status.Finished? && |dates| > 0 ==> mainFrame.city == map[]
    ensures disk.records == RentalCalculator.WrittenRecords(old(disk.records), rentals, nameOfFolder, values)
  {
    rentals, fileOrder := ReadRentals.ReadRentalsFrom(content, vehicles, registry);
    var written := disk.WriteInPropertieFile(rentals, nameOfFolder, values);
    dates, groups := GroupByDateTime(rentals);
    ReadRentals.SortByDateIsStableSort(fileOrder);
    if !written {
      return rentals, fileOrder, dates, groups, NotStarted;
    }
    GroupsUseCatalog(fileOrder, ReadRentals.LinesOf(content), vehicles, dates, groups);
    status := RunGroups(dates, groups, vehicles, registry, mainFrame, disk, nameOfFolder, show);
  }

  /** A missing folder name throws in every settlement that finds its
      record: once the records are written, the first group of the run
      has a failing settlement, so its latch never opens. */
  lemma FolderlessRunBlocksFirstGroup(rentals: seq<Rental>, records: map<string, RentalCalculator.Record>,
                                      counts: map<string, int32>, values: Option<RentalCalculator.Values>)
    requires |rentals| > 0
    requires forall k | 0 <= k < |rentals| :: RentalCalculator.ValuesPresent(rentals[k], values)
    ensures |DatesOf(rentals)| > 0
    ensures Failures(ReadRentals.WithDate(rentals, DatesOf(rentals)[0]),
                     RentalCalculator.WrittenRecords(records, rentals, None, values), counts, None) > 0
  {
    var written := RentalCalculator.WrittenRecords(records, rentals, None, values);
    DatesOfHolds(rentals);
    var date := DatesOf(rentals)[0];
    var group := ReadRentals.WithDate(rentals, date);
    GroupNonEmptyIffDate(rentals, date);
    WithDateHolds(rentals, date, group[0]);
    var k :| 0 <= k < |rentals| && rentals[k] == group[0];
    RentalCalculator.WrittenRecordsHold(records, rentals, None, values);
    assert RentalCalculator.RecordHolds(written, rentals[k], None, values);
    assert SettlementOf(group[0], written, counts, None).Failed?;
    NoFailuresIffAllSettle(group, written, counts, None);
  }

  /** What `SimulationOfRentals` promises comes, without a folder name, to
      a scheduler blocked at the first group whenever there is a rental and
      the records are written. */
  lemma FolderlessRunIsBlocked(rentals: seq<Rental>, dates: seq<string>, groups: map<string, seq<Rental>>,
                               records: map<string, RentalCalculator.Record>, counts: map<string, int32>,
                               values: Option<RentalCalculator.Values>, status: Status)
    requires |rentals| > 0
    requires forall k | 0 <= k < |rentals| :: RentalCalculator.ValuesPresent(rentals[k], values)
    requires dates == DatesOf(rentals) && forall date :: date in groups <==> date in dates
    requires forall date | date in groups :: groups[date] == ReadRentals.WithDate(rentals, date)
    requires !status.NotStarted?
    requires status.Blocked? ==>
               status.group < |dates| &&
               Failures(groups[dates[status.group]], RentalCalculator.WrittenRecords(records, rentals, None, values), counts, None) > 0 &&
               forall j | 0 <= j < status.group ::
                 Failures(groups[dates[j]], RentalCalculator.WrittenRecords(records, rentals, None, values), counts, None) == 0
    requires status.Finished? ==>
               forall j | 0 <= j < |dates| ::
                 Failures(groups[dates[j]], RentalCalculator.WrittenRecords(records, rentals, None, values), counts, None) == 0
    ensures status == Blocked(0)
  {
    FolderlessRunBlocksFirstGroup(rentals, records, counts, values);
    assert dates[0] in groups;
  }

  /** The groups run in key order with every settlement counting down: each
      latch opens, every group runs and the grid is cleared after each. */
  method RunGroupsCountingDown(dates: seq<string>, groups: map<string, seq<Rental>>, vehicles: seq<Vehicle>,
                               registry: DriverRegistry, mainFrame: MainFrame, disk: RentalCalculator.Disk,
                               nameOfFolder: Option<string>, show: real -> string)
    requires forall j | 0 <= j < |dates| :: dates[j] in groups
    requires forall j, k | 0 <= j < |dates| && 0 <= k < |groups[dates[j]]| :: groups[dates[j]][k].vehicle in vehicles
    modifies vehicles, mainFrame, disk`texts
    ensures |dates| > 0 ==> mainFrame.city == map[]
  {
    var j := 0;
    while j < |dates|
      invariant 0 <= j <= |dates|
      invariant j > 0 ==> mainFrame.city == map[]
    {
      var latch := ProcessGroupCountingDown(groups[dates[j]], vehicles, mainFrame, disk, registry, nameOfFolder, show);
      mainFrame.ClearMatrix();
      j := j + 1;
    }
  }

  /** `simulationOfRentals` with `countDown` run whatever the settlement
      does: once the records are written, every group runs, whatever the
      settlements come to, and the run ends with the grid cleared. */
  method SimulationOfRentalsCountingDown(content: Option<seq<string>>, vehicles: seq<Vehicle>, registry: DriverRegistry,
                                         mainFrame: MainFrame, disk: RentalCalculator.Disk, nameOfFolder: Option<string>,
                                         values: Option<RentalCalculator.Values>, show: real -> string)
    returns (rentals: seq<Rental>, ghost fileOrder: seq<Rental>, dates: seq<string>, groups: map<string, seq<Rental>>,
             status: Status)
    modifies vehicles, registry, mainFrame, disk
    ensures ReadRentals.Represents(fileOrder, ReadRentals.LoadedFrom(ReadRentals.DataRows(ReadRentals.LinesOf(content)), vehicles))
    ensures rentals == ReadRentals.SortByDate(fileOrder)
    ensures registry.driverCountMap ==
            BumpedAll(old(registry.driverCountMap), ReadRentals.DriverNamesFrom(ReadRentals.DataRows(ReadRentals.LinesOf(content))))
    ensures ReadRentals.SortedByDate(rentals)
    ensures dates == DatesOf(rentals) && forall date :: date in groups <==> date in dates
    ensures forall date | date in groups :: groups[date] == ReadRentals.WithDate(rentals, date)
    ensures status.NotStarted? <==> !forall k | 0 <= k < |rentals| :: RentalCalculator.ValuesPresent(rentals[k], values)
    ensures !status.Blocked?
    ensures status.Finished? && |dates| > 0 ==> mainFrame.city == map[]
    ensures disk.records == RentalCalculator.WrittenRecords(old(disk.records), rentals, nameOfFolder, values)
  {
    rentals, fileOrder := ReadRentals.ReadRentalsFrom(content, vehicles, registry);
    var written := disk.WriteInPropertieFile(rentals, nameOfFolder, values);
    dates, groups := GroupByDateTime(rentals);
    ReadRentals.SortByDateIsStableSort(fileOrder);
    if !written {
      return rentals, fileOrder, dates, groups, NotStarted;
    }
    GroupsUseCatalog(fileOrder, ReadRentals.LinesOf(content), vehicles, dates, groups);
    RunGroupsCountingDown(dates, groups, vehicles, registry, mainFrame, disk, nameOfFolder, show);
    status := Finished;
  }
}
