/** Loading the rentals file. Every data line that is well formed names a
    driver (one `Driver` object per name and pass); a line becomes a rental
    when its vehicle is in the catalog and it does not repeat an earlier
    rental; the rentals come out sorted by date, oldest first. */
module ReadRentals {
  import opened Java
  import opened JavaString
  import opened Vehicles
  import opened Drivers
  import opened Rentals
  import RentalCalculator

  /** The text that marks the header line. */
  const DATE: string := "Datum"

  /** `ReadVehicles.SEPARATOR`. */
  const SEPARATOR: char := ','

  /** The quote that wraps the start and finish locations. */
  const QUOTE: char := '\"'

  const START: int32 := 0
  const FINISH: int32 := 19

  // ---------------------------------------------------------------------
  // Coordinates
  // ---------------------------------------------------------------------

  predicate IsValidCoordinateWithinRange(coordinate: int32)
  {
    START <= coordinate <= FINISH
  }

  predicate CheckIfCoordinatesAreCorrect(firstStartCoordinate: int32, secondStartCoordinate: int32,
                                         firstFinishCoordinate: int32, secondFinishCoordinate: int32)
  {
    IsValidCoordinateWithinRange(firstStartCoordinate) && IsValidCoordinateWithinRange(secondStartCoordinate) &&
    IsValidCoordinateWithinRange(firstFinishCoordinate) && IsValidCoordinateWithinRange(secondFinishCoordinate)
  }

  /** The coordinates are correct exactly when all four lie on the 20 x 20
      grid; a ride in the narrow part of the city always does. */
  lemma CoordinatesCorrectIffOnGrid(r: Rental)
    ensures CheckIfCoordinatesAreCorrect(r.firstStartCoordinate, r.secondStartCoordinate,
                                         r.firstFinishCoordinate, r.secondFinishCoordinate) <==>
            (0 <= r.firstStartCoordinate <= 19 && 0 <= r.secondStartCoordinate <= 19 &&
             0 <= r.firstFinishCoordinate <= 19 && 0 <= r.secondFinishCoordinate <= 19)
    ensures RentalCalculator.IsNarrow(r) ==>
            CheckIfCoordinatesAreCorrect(r.firstStartCoordinate, r.secondStartCoordinate,
                                         r.firstFinishCoordinate, r.secondFinishCoordinate)
  {
  }

  // ---------------------------------------------------------------------
  // One line of the file
  // ---------------------------------------------------------------------

  /** The fields of a data line. */
  datatype Row = Row(
    rentalDateTime: string,
    nameOfTheDriver: string,
    idOfVehicle: string,
    firstStartCoordinate: int32,
    secondStartCoordinate: int32,
    firstFinishCoordinate: int32,
    secondFinishCoordinate: int32,
    usageDurationInSeconds: int32,
    hasMalfunction: string,
    promotion: string)

  predicate RowCoordinatesCorrect(row: Row)
  {
    CheckIfCoordinatesAreCorrect(row.firstStartCoordinate, row.secondStartCoordinate,
                                 row.firstFinishCoordinate, row.secondFinishCoordinate)
  }

  /** A data line cut at the commas: fields 3 to 6 with their quotes
      removed, and 3 to 7, parsed as `int`s. `None` is a line the loader
      skips: fewer than ten fields (`ArrayIndexOutOfBoundsException`) or a
      number that does not parse (`NumberFormatException`). */
  function ParseLine(line: string): Option<Row>
  {
    var parts := Split(line, SEPARATOR);
    if |parts| < 10 then None
    else
      var firstStart := ParseInt(RemoveChar(parts[3], QUOTE));
      var secondStart := ParseInt(RemoveChar(parts[4], QUOTE));
      var firstFinish := ParseInt(RemoveChar(parts[5], QUOTE));
      var secondFinish := ParseInt(RemoveChar(parts[6], QUOTE));
      var usageDurationInSeconds := ParseInt(parts[7]);
      if firstStart.None? || secondStart.None? || firstFinish.None? || secondFinish.None? ||
         usageDurationInSeconds.None? then None
      else
        Some(Row(parts[0], parts[1], parts[2], firstStart.value, secondStart.value, firstFinish.value,
                 secondFinish.value, usageDurationInSeconds.value, parts[8], parts[9]))
  }

  /** A line laid out the way the loader reads it: the start and the finish
      location each a quoted "x,y" pair. */
  function FormatLine(row: Row): string
  {
    Join([row.rentalDateTime, row.nameOfTheDriver, row.idOfVehicle,
          [QUOTE] + IntToString(row.firstStartCoordinate), IntToString(row.secondStartCoordinate) + [QUOTE],
          [QUOTE] + IntToString(row.firstFinishCoordinate), IntToString(row.secondFinishCoordinate) + [QUOTE],
          IntToString(row.usageDurationInSeconds), row.hasMalfunction, row.promotion], SEPARATOR)
  }

  /** Quotes around a number are dropped before it is parsed. */
  lemma UnquotedNumber(n: int32)
    ensures ParseInt(RemoveChar([QUOTE] + IntToString(n), QUOTE)) == Some(n)
    ensures ParseInt(RemoveChar(IntToString(n) + [QUOTE], QUOTE)) == Some(n)
  {
    IntToStringDigitsOnly(n, QUOTE);
    RemoveCharAbsent(IntToString(n), QUOTE);
    RemoveCharAppend([QUOTE], IntToString(n), QUOTE);
    RemoveCharAppend(IntToString(n), [QUOTE], QUOTE);
    assert RemoveChar([QUOTE], QUOTE) == "";
    assert "" + IntToString(n) == IntToString(n) + "" == IntToString(n);
    ParseIntRoundTrip(n);
  }

  /** Reading a written line gives the row back, when its text fields hold
      no comma and the promotion is not empty (`split` drops a trailing
      empty field). */
  lemma ParseFormattedLine(row: Row)
    requires SEPARATOR !in row.rentalDateTime && SEPARATOR !in row.nameOfTheDriver && SEPARATOR !in row.idOfVehicle
    requires SEPARATOR !in row.hasMalfunction && SEPARATOR !in row.promotion && row.promotion != ""
    ensures ParseLine(FormatLine(row)) == Some(row)
  {
    var fields := [row.rentalDateTime, row.nameOfTheDriver, row.idOfVehicle,
                   [QUOTE] + IntToString(row.firstStartCoordinate), IntToString(row.secondStartCoordinate) + [QUOTE],
                   [QUOTE] + IntToString(row.firstFinishCoordinate), IntToString(row.secondFinishCoordinate) + [QUOTE],
                   IntToString(row.usageDurationInSeconds), row.hasMalfunction, row.promotion];
    IntToStringDigitsOnly(row.firstStartCoordinate, SEPARATOR);
    IntToStringDigitsOnly(row.secondStartCoordinate, SEPARATOR);
    IntToStringDigitsOnly(row.firstFinishCoordinate, SEPARATOR);
    IntToStringDigitsOnly(row.secondFinishCoordinate, SEPARATOR);
    IntToStringDigitsOnly(row.usageDurationInSeconds, SEPARATOR);
    assert NoneContains(fields, SEPARATOR);
    SplitJoin(fields, SEPARATOR);
    UnquotedNumber(row.firstStartCoordinate);
    UnquotedNumber(row.secondStartCoordinate);
    UnquotedNumber(row.firstFinishCoordinate);
    UnquotedNumber(row.secondFinishCoordinate);
    ParseIntRoundTrip(row.usageDurationInSeconds);
  }

  /** The malfunction a line describes: dated with the rental when the flag
      is "da", with the "nema" sentinel otherwise. */
  function MalfunctionFor(row: Row): (m: Malfunction)
    ensures m.hasMalfunction == row.hasMalfunction
    ensures m.dateTimeOfMalfunction == if row.hasMalfunction == "da" then row.rentalDateTime else "nema"
  {
    if YES == row.hasMalfunction then MalfunctionAt(row.hasMalfunction, row.rentalDateTime)
    else NoMalfunction(row.hasMalfunction)
  }

  // ---------------------------------------------------------------------
  // The vehicle catalog
  // ---------------------------------------------------------------------

  /** The first vehicle with the id, in the catalog's iteration order. */
  function FindVehicle(vehicles: seq<Vehicle>, idOfVehicle: string): (v: Option<Vehicle>)
    ensures v.Some? ==> v.value in vehicles && v.value.idOfVehicle == idOfVehicle
    ensures v.None? <==> forall k | 0 <= k < |vehicles| :: vehicles[k].idOfVehicle != idOfVehicle
    decreases |vehicles|
  {
    if |vehicles| == 0 then None
    else if vehicles[0].idOfVehicle == idOfVehicle then Some(vehicles[0])
    else FindVehicle(vehicles[1..], idOfVehicle)
  }

  // ---------------------------------------------------------------------
  // What a pass accepts
  // ---------------------------------------------------------------------

  /** What the loader makes of a line: nothing for the header (any line
      containing "Datum") or a line that does not parse, else its row. */
  function DataRow(line: string): Option<Row>
  {
    if Contains(line, DATE) then None else ParseLine(line)
  }

  /** The rows of the lines, line by line. */
  function DataRows(lines: seq<string>): (rows: seq<Option<Row>>)
    ensures |rows| == |lines|
  {
    seq(|lines|, i requires 0 <= i < |lines| => DataRow(lines[i]))
  }

  /** An accepted line and the vehicle it was matched with. */
  datatype Loaded = Loaded(row: Row, vehicle: Vehicle)

  /** `rentalExists`: an accepted rental of the same vehicle at the same
      time, while this line's own coordinates are on the grid. */
  predicate RentalExists(accepted: seq<Loaded>, row: Row)
  {
    exists k | 0 <= k < |accepted| ::
      accepted[k].vehicle.idOfVehicle == row.idOfVehicle &&
      accepted[k].row.rentalDateTime == row.rentalDateTime && RowCoordinatesCorrect(row)
  }

  /** The accepted rentals after one more line. */
  function LoadRow(accepted: seq<Loaded>, row: Option<Row>, vehicles: seq<Vehicle>): seq<Loaded>
  {
    if row.None? then accepted
    else
      var vehicle := FindVehicle(vehicles, row.value.idOfVehicle);
      if vehicle.Some? && !RentalExists(accepted, row.value) then accepted + [Loaded(row.value, vehicle.value)]
      else accepted
  }

  /** The accepted rentals after the given rows, in file order. */
  function LoadedFrom(rows: seq<Option<Row>>, vehicles: seq<Vehicle>): seq<Loaded>
    decreases |rows|
  {
    if |rows| == 0 then [] else LoadRow(LoadedFrom(rows[..|rows| - 1], vehicles), rows[|rows| - 1], vehicles)
  }

  /** The driver names after one more line: a data line that parses makes
      its driver, unless the name already has one in this pass. */
  function NameRow(names: seq<string>, row: Option<Row>): seq<string>
  {
    if row.Some? && row.value.nameOfTheDriver !in names then names + [row.value.nameOfTheDriver] else names
  }

  /** The names a pass makes drivers for, in order of first appearance. */
  function DriverNamesFrom(rows: seq<Option<Row>>): seq<string>
    decreases |rows|
  {
    if |rows| == 0 then [] else NameRow(DriverNamesFrom(rows[..|rows| - 1]), rows[|rows| - 1])
  }

  /** The header line is skipped before anything is read from it. */
  lemma HeaderIsSkipped(line: string)
    requires Contains(line, DATE)
    ensures DataRow(line) == None
  {
  }

  /** The duplicate rule: a row is accepted exactly when its vehicle is in
      the catalog, and it is not an on-grid repeat of an accepted rental; an
      accepted row is appended with a catalog vehicle of its id, any other
      row leaves the rentals as they were. */
  lemma LoadRowCases(accepted: seq<Loaded>, row: Option<Row>, vehicles: seq<Vehicle>)
    ensures var next := LoadRow(accepted, row, vehicles);
            && (|next| == |accepted| + 1 <==>
                  row.Some? &&
                  (exists k | 0 <= k < |vehicles| :: vehicles[k].idOfVehicle == row.value.idOfVehicle) &&
                  !(RowCoordinatesCorrect(row.value) &&
                    exists k | 0 <= k < |accepted| :: accepted[k].vehicle.idOfVehicle == row.value.idOfVehicle &&
                                                     accepted[k].row.rentalDateTime == row.value.rentalDateTime))
            && (|next| == |accepted| + 1 ==> next == accepted + [Loaded(row.value, next[|accepted|].vehicle)] &&
                                              next[|accepted|].vehicle in vehicles &&
                                              next[|accepted|].vehicle.idOfVehicle == row.value.idOfVehicle)
            && (|next| != |accepted| + 1 ==> next == accepted)
  {
  }

  /** A row whose coordinates leave the grid is never a duplicate: it is
      accepted whenever its vehicle is in the catalog. */
  lemma OffGridIsNeverDuplicate(accepted: seq<Loaded>, row: Row, vehicles: seq<Vehicle>)
    requires !RowCoordinatesCorrect(row)
    requires exists k | 0 <= k < |vehicles| :: vehicles[k].idOfVehicle == row.idOfVehicle
    ensures LoadRow(accepted, Some(row), vehicles) ==
            accepted + [Loaded(row, FindVehicle(vehicles, row.idOfVehicle).value)]
  {
  }

  /** What a pass accepts: rows read from the file, each matched with a
      vehicle of the catalog carrying its id, and no on-grid row repeating
      the vehicle and time of an earlier one. */
  lemma {:induction false} LoadedFromIsClean(rows: seq<Option<Row>>, vehicles: seq<Vehicle>)
    ensures forall k | 0 <= k < |LoadedFrom(rows, vehicles)| ::
              LoadedFrom(rows, vehicles)[k].vehicle in vehicles &&
              LoadedFrom(rows, vehicles)[k].vehicle.idOfVehicle == LoadedFrom(rows, vehicles)[k].row.idOfVehicle
    ensures forall k | 0 <= k < |LoadedFrom(rows, vehicles)| :: Some(LoadedFrom(rows, vehicles)[k].row) in rows
    ensures forall i, j | 0 <= i < j < |LoadedFrom(rows, vehicles)| && RowCoordinatesCorrect(LoadedFrom(rows, vehicles)[j].row) ::
              !(LoadedFrom(rows, vehicles)[i].vehicle.idOfVehicle == LoadedFrom(rows, vehicles)[j].row.idOfVehicle &&
                LoadedFrom(rows, vehicles)[i].row.rentalDateTime == LoadedFrom(rows, vehicles)[j].row.rentalDateTime)
    decreases |rows|
  {
    if |rows| > 0 {
      var prefix := rows[..|rows| - 1];
      var last := rows[|rows| - 1];
      var before := LoadedFrom(prefix, vehicles);
      var loaded := LoadedFrom(rows, vehicles);
      LoadedFromIsClean(prefix, vehicles);
      LoadRowCases(before, last, vehicles);
      assert loaded == LoadRow(before, last, vehicles);
      assert forall x | x in prefix :: x in rows;
      if |loaded| == |before| + 1 {
        var row := last.value;
        assert loaded[|before|].row == row && last in rows;
        assert !RentalExists(before, row);
        forall i | 0 <= i < |before| && RowCoordinatesCorrect(row)
          ensures !(loaded[i].vehicle.idOfVehicle == row.idOfVehicle &&
                    loaded[i].row.rentalDateTime == row.rentalDateTime)
        {
          assert loaded[i] == before[i];
        }
      } else {
        assert loaded == before;
      }
    }
  }

  /** A pass makes at most one driver per name. */
  lemma {:induction false} DriverNamesDistinct(rows: seq<Option<Row>>)
    ensures Distinct(DriverNamesFrom(rows))
    decreases |rows|
  {
    if |rows| > 0 {
      DriverNamesDistinct(rows[..|rows| - 1]);
    }
  }

  /** A row names the driver. */
  predicate NamesDriver(row: Option<Row>, name: string)
  {
    row.Some? && row.value.nameOfTheDriver == name
  }

  /** A pass makes a driver for exactly the names of its data lines that
      parse, accepted or not. */
  lemma {:induction false} DriverNamesAreNamedRows(rows: seq<Option<Row>>, name: string)
    ensures name in DriverNamesFrom(rows) <==> exists i | 0 <= i < |rows| :: NamesDriver(rows[i], name)
    decreases |rows|
  {
    if |rows| > 0 {
      var prefix := rows[..|rows| - 1];
      DriverNamesAreNamedRows(prefix, name);
      if exists i | 0 <= i < |prefix| :: NamesDriver(prefix[i], name) {
        var i :| 0 <= i < |prefix| && NamesDriver(prefix[i], name);
        assert rows[i] == prefix[i];
      }
      if exists i | 0 <= i < |rows| :: NamesDriver(rows[i], name) {
        var i :| 0 <= i < |rows| && NamesDriver(rows[i], name);
        if i < |prefix| {
          assert prefix[i] == rows[i];
        }
      }
    }
  }

  /** One pass raises the count of each name by one when some data line
      that parses names it, accepted or not, and leaves it alone otherwise. */
  lemma PassBumpsEachNameOnce(counts: map<string, int32>, lines: seq<string>, name: string)
    ensures CountOf(BumpedAll(counts, DriverNamesFrom(DataRows(lines))), name) ==
            if exists i | 0 <= i < |lines| :: NamesDriver(DataRow(lines[i]), name)
            then Wrap(CountOf(counts, name) + 1) else CountOf(counts, name)
  {
    var rows := DataRows(lines);
    DriverNamesDistinct(rows);
    DriverNamesAreNamedRows(rows, name);
    assert forall i | 0 <= i < |lines| :: rows[i] == DataRow(lines[i]);
    BumpedAllOnce(counts, DriverNamesFrom(rows), name);
  }

  // ---------------------------------------------------------------------
  // Sorting by date
  // ---------------------------------------------------------------------

  /** `x` goes before the first rental whose date is not earlier. */
  function InsertByDate(x: Rental, s: seq<Rental>): (t: seq<Rental>)
    ensures multiset(t) == multiset(s) + multiset{x}
    decreases |s|
  {
    if |s| == 0 || CompareTo(x.rentalDateTime, s[0].rentalDateTime) <= 0 then [x] + s
    else
      assert s == [s[0]] + s[1..];
      [s[0]] + InsertByDate(x, s[1..])
  }

  /** The rentals sorted by `rentalDateTime.compareTo`. */
  function SortByDate(s: seq<Rental>): seq<Rental>
    decreases |s|
  {
    if |s| == 0 then [] else InsertByDate(s[0], SortByDate(s[1..]))
  }

  predicate SortedByDate(s: seq<Rental>)
  {
    forall i, j | 0 <= i < j < |s| :: CompareTo(s[i].rentalDateTime, s[j].rentalDateTime) <= 0
  }

  /** The rentals of one date, in order. */
  function WithDate(s: seq<Rental>, date: string): (t: seq<Rental>)
    decreases |s|
  {
    if |s| == 0 then []
    else if s[0].rentalDateTime == date then [s[0]] + WithDate(s[1..], date)
    else WithDate(s[1..], date)
  }

  lemma {:induction false} InsertKeepsSorted(x: Rental, s: seq<Rental>)
    requires SortedByDate(s)
    ensures SortedByDate(InsertByDate(x, s))
    decreases |s|
  {
    var t := InsertByDate(x, s);
    if |s| == 0 || CompareTo(x.rentalDateTime, s[0].rentalDateTime) <= 0 {
      forall j | 0 < j < |t| ensures CompareTo(x.rentalDateTime, t[j].rentalDateTime) <= 0 {
        if j > 1 {
          CompareToTransitive(x.rentalDateTime, s[0].rentalDateTime, s[j - 1].rentalDateTime);
        }
      }
    } else {
      var rest := InsertByDate(x, s[1..]);
      InsertKeepsSorted(x, s[1..]);
      CompareToAntisymmetric(x.rentalDateTime, s[0].rentalDateTime);
      forall j | 0 <= j < |rest| ensures CompareTo(s[0].rentalDateTime, rest[j].rentalDateTime) <= 0 {
        assert rest[j] in multiset(s[1..]) + multiset{x};
        if rest[j] != x {
          var m :| 0 <= m < |s[1..]| && s[1..][m] == rest[j];
          assert s[m + 1] == rest[j];
        }
      }
      assert t == [s[0]] + rest;
    }
  }

  /** Inserting keeps the order of the rentals of each date, the new one
      going before the others of its date. */
  lemma {:induction false} InsertKeepsDates(x: Rental, s: seq<Rental>, date: string)
    ensures WithDate(InsertByDate(x, s), date) ==
            if x.rentalDateTime == date then [x] + WithDate(s, date) else WithDate(s, date)
    decreases |s|
  {
    if |s| == 0 || CompareTo(x.rentalDateTime, s[0].rentalDateTime) <= 0 {
      assert ([x] + s)[1..] == s;
    } else {
      InsertKeepsDates(x, s[1..], date);
      CompareToZero(x.rentalDateTime, s[0].rentalDateTime);
      assert ([s[0]] + InsertByDate(x, s[1..]))[1..] == InsertByDate(x, s[1..]);
      if x.rentalDateTime == date {
        assert s[0].rentalDateTime != date;
      }
    }
  }

  /** The sort keeps every rental, as many times as it occurs. */
  lemma {:induction false} SortByDatePermutes(s: seq<Rental>)
    ensures multiset(SortByDate(s)) == multiset(s)
    decreases |s|
  {
    if |s| > 0 {
      SortByDatePermutes(s[1..]);
      assert s == [s[0]] + s[1..];
      assert multiset(s) == multiset{s[0]} + multiset(s[1..]);
    }
  }

  /** The sort orders the rentals by date. */
  lemma {:induction false} SortByDateSorted(s: seq<Rental>)
    ensures SortedByDate(SortByDate(s))
    decreases |s|
  {
    if |s| > 0 {
      SortByDateSorted(s[1..]);
      InsertKeepsSorted(s[0], SortByDate(s[1..]));
    }
  }

  /** The sort is stable: the rentals of each date keep their file order. */
  lemma {:induction false} SortByDateKeepsDates(s: seq<Rental>, date: string)
    ensures WithDate(SortByDate(s), date) == WithDate(s, date)
    decreases |s|
  {
    if |s| > 0 {
      SortByDateKeepsDates(s[1..], date);
      InsertKeepsDates(s[0], SortByDate(s[1..]), date);
    }
  }

  /** The sort is a permutation, ordered by date, and stable. */
  lemma SortByDateIsStableSort(s: seq<Rental>)
    ensures multiset(SortByDate(s)) == multiset(s)
    ensures SortedByDate(SortByDate(s))
    ensures forall date :: WithDate(SortByDate(s), date) == WithDate(s, date)
  {
    SortByDatePermutes(s);
    SortByDateSorted(s);
    forall date ensures WithDate(SortByDate(s), date) == WithDate(s, date) {
      SortByDateKeepsDates(s, date);
    }
  }

  // ---------------------------------------------------------------------
  // Drivers of a pass
  // ---------------------------------------------------------------------

  function NamesOf(drivers: seq<Driver>): (names: seq<string>)
    ensures |names| == |drivers|
    ensures forall k | 0 <= k < |drivers| :: names[k] == drivers[k].nameOfTheDriver
  {
    seq(|drivers|, k requires 0 <= k < |drivers| => drivers[k].nameOfTheDriver)
  }

  /** The first driver of the list with the name. */
  function FindDriver(drivers: seq<Driver>, nameOfTheDriver: string): (d: Option<Driver>)
    ensures d.Some? ==> d.value in drivers && d.value.nameOfTheDriver == nameOfTheDriver
    ensures d.None? <==> nameOfTheDriver !in NamesOf(drivers)
    decreases |drivers|
  {
    if |drivers| == 0 then None
    else if drivers[0].nameOfTheDriver == nameOfTheDriver then Some(drivers[0])
    else
      assert NamesOf(drivers) == [drivers[0].nameOfTheDriver] + NamesOf(drivers[1..]);
      FindDriver(drivers[1..], nameOfTheDriver)
  }

  /** `findOrCreateDriver`: the driver of the list with that name, or a new
      driver, appended to the list, whose construction bumps the count of
      the name. Names in the list stay distinct. */
  method FindOrCreateDriver(drivers: seq<Driver>, nameOfTheDriver: string, registry: DriverRegistry)
    returns (driver: Driver, newDrivers: seq<Driver>)
    modifies registry
    ensures driver.nameOfTheDriver == nameOfTheDriver && driver in newDrivers
    ensures nameOfTheDriver in NamesOf(drivers) ==>
              driver == FindDriver(drivers, nameOfTheDriver).value && newDrivers == drivers &&
              registry.driverCountMap == old(registry.driverCountMap)
    ensures nameOfTheDriver !in NamesOf(drivers) ==>
              fresh(driver) && newDrivers == drivers + [driver] &&
              NamesOf(newDrivers) == NamesOf(drivers) + [nameOfTheDriver] &&
              registry.driverCountMap == Bumped(old(registry.driverCountMap), nameOfTheDriver)
    ensures Distinct(NamesOf(drivers)) ==> Distinct(NamesOf(newDrivers))
  {
    var existingDriver := FindDriver(drivers, nameOfTheDriver);
    if existingDriver.Some? {
      return existingDriver.value, drivers;
    }
    driver := new Driver(nameOfTheDriver, registry);
    newDrivers := drivers + [driver];
    assert NamesOf(newDrivers) == NamesOf(drivers) + [nameOfTheDriver];
  }

  // ---------------------------------------------------------------------
  // A pass over the file
  // ---------------------------------------------------------------------

  /** The row a rental was made from. */
  function RentalRow(r: Rental): Row
  {
    Row(r.rentalDateTime, r.driver.nameOfTheDriver, r.vehicle.idOfVehicle, r.firstStartCoordinate,
        r.secondStartCoordinate, r.firstFinishCoordinate, r.secondFinishCoordinate,
        r.usageDurationInSeconds, r.malfunction.hasMalfunction, r.promotion)
  }

  /** A rental made from an accepted line: its fields are the line's, its
      vehicle the one matched, its malfunction the one the flag gives. */
  predicate Matches(r: Rental, l: Loaded)
  {
    RentalRow(r) == l.row && r.vehicle == l.vehicle && r.malfunction == MalfunctionFor(l.row)
  }

  /** The lines of the file; a file that cannot be read has none
      (`readRentals` catches the `IOException`). */
  function LinesOf(content: Option<seq<string>>): seq<string>
  {
    if content.None? then [] else content.value
  }

  /** The rentals made so far stand for the accepted lines. */
  predicate Represents(accepted: seq<Rental>, loaded: seq<Loaded>)
  {
    |accepted| == |loaded| && forall k | 0 <= k < |accepted| :: Matches(accepted[k], loaded[k])
  }

  /** A data row becomes a rental, driven by `driver`, when its vehicle is
      in the catalog and it is not a duplicate of an accepted rental. */
  method AcceptRow(row: Row, driver: Driver, accepted: seq<Rental>, ghost loaded: seq<Loaded>, vehicles: seq<Vehicle>)
    returns (newAccepted: seq<Rental>)
    requires Represents(accepted, loaded)
    requires driver.nameOfTheDriver == row.nameOfTheDriver
    ensures Represents(newAccepted, LoadRow(loaded, Some(row), vehicles))
    ensures newAccepted == accepted || (|newAccepted| == |accepted| + 1 && newAccepted[..|accepted|] == accepted &&
                                        newAccepted[|accepted|].driver == driver)
  {
    newAccepted := accepted;
    var existingVehicle := FindVehicle(vehicles, row.idOfVehicle);
    var rentalExists := exists k | 0 <= k < |accepted| ::
      accepted[k].vehicle.idOfVehicle == row.idOfVehicle && accepted[k].rentalDateTime == row.rentalDateTime &&
      CheckIfCoordinatesAreCorrect(row.firstStartCoordinate, row.secondStartCoordinate,
                                   row.firstFinishCoordinate, row.secondFinishCoordinate);
    assert rentalExists == RentalExists(loaded, row) by {
      assert forall k | 0 <= k < |accepted| ::
        accepted[k].vehicle.idOfVehicle == loaded[k].vehicle.idOfVehicle &&
        accepted[k].rentalDateTime == loaded[k].row.rentalDateTime;
    }
    if existingVehicle.Some? && !rentalExists {
      var rental := Rental(row.rentalDateTime, driver, existingVehicle.value, row.firstStartCoordinate,
                           row.secondStartCoordinate, row.firstFinishCoordinate, row.secondFinishCoordinate,
                           row.usageDurationInSeconds, MalfunctionFor(row), row.promotion);
      newAccepted := accepted + [rental];
      assert newAccepted[..|accepted|] == accepted;
    }
  }

  /** One turn of the loop of `readRentals`, once the line is read: a data
      row finds or makes its driver, then becomes a rental when its vehicle
      is in the catalog and it is not a duplicate. */
  method ReadRentalRow(parsed: Option<Row>, accepted: seq<Rental>, ghost loaded: seq<Loaded>, drivers: seq<Driver>,
                       vehicles: seq<Vehicle>, registry: DriverRegistry)
    returns (newAccepted: seq<Rental>, newDrivers: seq<Driver>)
    requires Represents(accepted, loaded)
    requires Distinct(NamesOf(drivers))
    requires forall k | 0 <= k < |accepted| :: accepted[k].driver in drivers
    modifies registry
    ensures Represents(newAccepted, LoadRow(loaded, parsed, vehicles))
    ensures NamesOf(newDrivers) == NameRow(NamesOf(drivers), parsed)
    ensures Distinct(NamesOf(newDrivers))
    ensures forall d | d in newDrivers :: d in drivers || fresh(d)
    ensures forall k | 0 <= k < |newAccepted| :: newAccepted[k].driver in newDrivers
    ensures registry.driverCountMap ==
            if |newDrivers| == |drivers| then old(registry.driverCountMap)
            else Bumped(old(registry.driverCountMap), parsed.value.nameOfTheDriver)
  {
    newAccepted, newDrivers := accepted, drivers;
    if parsed.None? {
      return;
    }
    var row := parsed.value;
    var driver;
    driver, newDrivers := FindOrCreateDriver(drivers, row.nameOfTheDriver, registry);
    assert forall d | d in drivers :: d in newDrivers;
    newAccepted := AcceptRow(row, driver, accepted, loaded, vehicles);
    assert forall k | 0 <= k < |newAccepted| :: newAccepted[k].driver in newDrivers by {
      forall k | 0 <= k < |newAccepted| ensures newAccepted[k].driver in newDrivers {
        if k < |accepted| {
          assert newAccepted[k] == accepted[k];
        }
      }
    }
  }

  /** `readRentals`: one rental per accepted line, in file order
      (`rentals`), returned sorted by date. The drivers are new objects, one
      per name, and the count of each name is bumped once. */
  method ReadRentalsFrom(content: Option<seq<string>>, vehicles: seq<Vehicle>, registry: DriverRegistry)
    returns (sortedRentals: seq<Rental>, ghost rentals: seq<Rental>)
    modifies registry
    ensures Represents(rentals, LoadedFrom(DataRows(LinesOf(content)), vehicles))
    ensures sortedRentals == SortByDate(rentals)
    ensures registry.driverCountMap ==
            BumpedAll(old(registry.driverCountMap), DriverNamesFrom(DataRows(LinesOf(content))))
    ensures forall k | 0 <= k < |rentals| :: fresh(rentals[k].driver)
    ensures forall k, l | 0 <= k < |rentals| && 0 <= l < |rentals| ::
              rentals[k].driver.nameOfTheDriver == rentals[l].driver.nameOfTheDriver ==> rentals[k].driver == rentals[l].driver
  {
    var lines := LinesOf(content);
    ghost var rows := DataRows(lines);
    var accepted: seq<Rental> := [];
    var drivers: seq<Driver> := [];
    var i := 0;
    while i < |lines|
      invariant 0 <= i <= |lines|
      invariant Represents(accepted, LoadedFrom(rows[..i], vehicles))
      invariant NamesOf(drivers) == DriverNamesFrom(rows[..i])
      invariant Distinct(NamesOf(drivers))
      invariant forall d | d in drivers :: fresh(d)
      invariant forall k | 0 <= k < |accepted| :: accepted[k].driver in drivers
      invariant registry.driverCountMap == BumpedAll(old(registry.driverCountMap), DriverNamesFrom(rows[..i]))
    {
      ghost var names := DriverNamesFrom(rows[..i]);
      ghost var oldDrivers := drivers;
      var parsed := DataRow(lines[i]);
      assert rows[..i + 1][..i] == rows[..i] && rows[..i + 1][i] == rows[i] == parsed;
      assert LoadedFrom(rows[..i + 1], vehicles) == LoadRow(LoadedFrom(rows[..i], vehicles), parsed, vehicles);
      assert DriverNamesFrom(rows[..i + 1]) == NameRow(names, parsed);
      accepted, drivers := ReadRentalRow(parsed, accepted, LoadedFrom(rows[..i], vehicles), drivers, vehicles, registry);
      if |drivers| != |oldDrivers| {
        BumpedAllSnoc(old(registry.driverCountMap), names, parsed.value.nameOfTheDriver);
      }
      i := i + 1;
    }
    assert rows[..i] == rows;
    forall k, l | 0 <= k < |accepted| && 0 <= l < |accepted| &&
                  accepted[k].driver.nameOfTheDriver == accepted[l].driver.nameOfTheDriver
      ensures accepted[k].driver == accepted[l].driver
    {
      var a :| 0 <= a < |drivers| && drivers[a] == accepted[k].driver;
      var b :| 0 <= b < |drivers| && drivers[b] == accepted[l].driver;
      assert NamesOf(drivers)[a] == NamesOf(drivers)[b];
    }
    rentals := accepted;
    sortedRentals := SortByDate(accepted);
  }
}
