/** The business report: the bills read back from the text files that the
    settlements wrote, grouped by day, and the income, discount, repair and
    tax figures worked out from a list of bills. Money is taken as `real`. */
module Reports {
  import opened Java
  import opened JavaString
  import opened Vehicles
  import opened Drivers
  import opened Rentals
  import RentalCalculator

  const TRUE: string := "true"
  const CAR_COEFFICIENT: real := 0.07
  const BIKE_COEFFICIENT: real := 0.04
  const SCOOTER_COEFFICIENT: real := 0.02

  /** The fields of a bill read back from its file. */
  datatype Bill = Bill(rentalDateTime: string, nameOfTheDriver: string, idOfVehicle: string, unitPrice: int32,
                       startLocation: string, finishLocation: string, usageDurationInSeconds: int32,
                       hasMalfunction: string, hasPromotion: string, discount: real, discountProm: real,
                       totalPrice: real, inNarrowCity: string)

  // ---------------------------------------------------------------------
  // Reading a bill
  // ---------------------------------------------------------------------

  /** `takingSecondString(line, separator)` for a one-character separator:
      the trimmed text after its first occurrence, or "" without one. It is
      written as a scan up to the separator; `TakingSecondStringIsIndexOf`
      states it in the source's terms of `indexOf` and `substring`. */
  function TakingSecondString(line: string, separator: char): (r: string)
    ensures separator !in line ==> r == ""
    decreases |line|
  {
    if |line| == 0 then ""
    else if line[0] == separator then Trim(line[1..])
    else TakingSecondString(line[1..], separator)
  }

  /** The scan is `line.substring(line.indexOf(separator) + 1).trim()`
      when the separator occurs, and "" when it does not. */
  lemma {:induction false} TakingSecondStringIsIndexOf(line: string, separator: char)
    ensures var i := IndexOf(line, separator);
            TakingSecondString(line, separator) == if i != -1 then Trim(line[i + 1..]) else ""
    decreases |line|
  {
    if |line| > 0 && line[0] != separator {
      TakingSecondStringIsIndexOf(line[1..], separator);
      var j := IndexOf(line[1..], separator);
      if j != -1 {
        assert IndexOf(line, separator) == j + 1;
        assert line[1..][j + 1..] == line[j + 2..];
      }
    }
  }

  /** The text taken is trimmed: it has no edge whitespace. */
  lemma {:induction false} TakingSecondStringIsTrimmed(line: string, separator: char)
    ensures HasNoEdgeWhitespace(TakingSecondString(line, separator))
    decreases |line|
  {
    if |line| > 0 {
      if line[0] == separator {
        TrimHasNoEdgeWhitespace(line[1..]);
      } else {
        TakingSecondStringIsTrimmed(line[1..], separator);
      }
    }
  }

  /** A bill line gives its value back when the caption holds no separator
      and the value no edge whitespace. */
  lemma {:induction false} FieldLine(caption: string, separator: char, value: string)
    requires separator !in caption && HasNoEdgeWhitespace(value)
    ensures TakingSecondString(RentalCalculator.BillLine(caption, separator, value), separator) == value
    decreases |caption|
  {
    var line := RentalCalculator.BillLine(caption, separator, value);
    if |caption| == 0 {
      assert line[1..] == " " + value;
      TrimAfterBlank(value);
    } else {
      assert line[1..] == RentalCalculator.BillLine(caption[1..], separator, value);
      FieldLine(caption[1..], separator, value);
    }
  }

  /** The separator `createBills` cuts each of the 13 bill lines at: '?'
      for the malfunction and promotion lines, ':' for the others. */
  const READ_SEPARATORS: seq<char> := [':', ':', ':', ':', ':', ':', ':', '?', '?', ':', ':', ':', ':']

  /** The texts taken from the first |separators| lines, each cut at its
      own separator. */
  function FieldsOf(lines: seq<string>, separators: seq<char>): (fields: seq<string>)
    requires |separators| <= |lines|
    ensures |fields| == |separators|
  {
    if |separators| == 0 then []
    else
      var n := |separators| - 1;
      FieldsOf(lines, separators[..n]) + [TakingSecondString(lines[n], separators[n])]
  }

  /** Each field is the text taken from its own line. */
  lemma {:induction false} FieldsOfAt(lines: seq<string>, separators: seq<char>, k: nat)
    requires |separators| <= |lines| && k < |separators|
    ensures FieldsOf(lines, separators)[k] == TakingSecondString(lines[k], separators[k])
    decreases |separators|
  {
    var n := |separators| - 1;
    var before := FieldsOf(lines, separators[..n]);
    assert FieldsOf(lines, separators) == before + [TakingSecondString(lines[n], separators[n])];
    if k < n {
      FieldsOfAt(lines, separators[..n], k);
      assert separators[..n][k] == separators[k];
    }
  }

  /** One bill file as `createBills` reads it: 13 lines in the order the
      bill is written, each cut at its separator. `None` is an exception
      that leaves `createBills`: a missing line (`NoSuchElementException`)
      or a number that does not parse (`NumberFormatException`). Lines
      after the 13th are not read. */
  function ParseBill(lines: seq<string>): (b: Option<Bill>)
    ensures b.Some? ==> |lines| >= 13
  {
    if |lines| < 13 then None else BillOf(FieldsOf(lines, READ_SEPARATORS))
  }

  /** The bill the 13 texts taken from a file make: the unit price and the
      duration through `Integer.parseInt`, the three prices through
      `Double.parseDouble`, the other fields as they are. */
  function BillOf(f: seq<string>): (b: Option<Bill>)
    requires |f| == 13
  {
    var unitPrice := ParseInt(f[3]);
    var usageDurationInSeconds := ParseInt(f[6]);
    var discount := ParseDecimal(f[9]);
    var discountProm := ParseDecimal(f[10]);
    var totalPrice := ParseDecimal(f[11]);
    if unitPrice.None? || usageDurationInSeconds.None? || discount.None? || discountProm.None? || totalPrice.None? then None
    else
      Some(Bill(f[0], f[1], f[2], unitPrice.value, f[4], f[5], usageDurationInSeconds.value, f[7], f[8],
                discount.value, discountProm.value, totalPrice.value, f[12]))
  }

  /** A bill read from a file has a trimmed timestamp. */
  lemma ParsedDateIsTrimmed(lines: seq<string>)
    requires ParseBill(lines).Some?
    ensures HasNoEdgeWhitespace(ParseBill(lines).value.rentalDateTime)
  {
    FieldsOfAt(lines, READ_SEPARATORS, 0);
    TakingSecondStringIsTrimmed(lines[0], ':');
  }

  /** Lines that each give back their value, when cut at their separator,
      read as those values. */
  lemma {:induction false} FieldsOfValues(lines: seq<string>, separators: seq<char>, values: seq<string>)
    requires |separators| <= |lines| && |values| == |separators|
    requires forall k | 0 <= k < |separators| :: TakingSecondString(lines[k], separators[k]) == values[k]
    ensures FieldsOf(lines, separators) == values
    decreases |separators|
  {
    if |separators| > 0 {
      var n := |separators| - 1;
      FieldsOfValues(lines, separators[..n], values[..n]);
      assert values == values[..n] + [values[n]];
    }
  }

  /** The printed number has no edge whitespace. */
  lemma IntToStringHasNoEdgeWhitespace(n: int)
    ensures HasNoEdgeWhitespace(IntToString(n))
  {
    NatToStringIsDecimal(if n < 0 then -n else n);
  }

  /** A location, two numbers and a comma, has no edge whitespace. */
  lemma LocationHasNoEdgeWhitespace(x: int, y: int)
    ensures HasNoEdgeWhitespace(IntToString(x) + "," + IntToString(y))
  {
    IntToStringHasNoEdgeWhitespace(x);
    IntToStringHasNoEdgeWhitespace(y);
    NatToStringIsDecimal(if x < 0 then -x else x);
    NatToStringIsDecimal(if y < 0 then -y else y);
  }

  /** `Double.toString` prints the value without edge whitespace, and
      `Double.parseDouble` reads the printed text as `read`. */
  predicate PrintsAs(show: real -> string, x: real, read: real)
  {
    HasNoEdgeWhitespace(show(x)) && ParseDecimal(show(x)) == Some(read)
  }

  /** The reader cuts each line at the separator the writer put after its
      caption, and no caption holds its separator before that. */
  lemma SeparatorsAgree()
    ensures READ_SEPARATORS == RentalCalculator.BILL_SEPARATORS
    ensures |RentalCalculator.BILL_CAPTIONS| == 13
  {
  }

  lemma NameCaptions(k: nat)
    requires k < 3
    ensures READ_SEPARATORS[k] !in RentalCalculator.BILL_CAPTIONS[k]
  {
  }

  lemma NumberCaptions(k: nat)
    requires 3 <= k < 6
    ensures READ_SEPARATORS[k] !in RentalCalculator.BILL_CAPTIONS[k]
  {
  }

  lemma FlagCaptions(k: nat)
    requires 6 <= k < 9
    ensures READ_SEPARATORS[k] !in RentalCalculator.BILL_CAPTIONS[k]
  {
  }

  lemma PriceCaptions(k: nat)
    requires 9 <= k < 12
    ensures READ_SEPARATORS[k] !in RentalCalculator.BILL_CAPTIONS[k]
  {
  }

  lemma NarrowCaption()
    ensures READ_SEPARATORS[12] !in RentalCalculator.BILL_CAPTIONS[12]
  {
  }

  /** No caption holds the separator its line is cut at. */
  lemma CaptionHoldsNoSeparator(k: nat)
    requires k < 13
    ensures READ_SEPARATORS[k] !in RentalCalculator.BILL_CAPTIONS[k]
  {
    if k < 3 { NameCaptions(k); }
    else if k < 6 { NumberCaptions(k); }
    else if k < 9 { FlagCaptions(k); }
    else if k < 12 { PriceCaptions(k); }
    else { NarrowCaption(); }
  }

  /** The values of a bill have no edge whitespace when its texts have none
      and its prices print without any. */
  lemma BillValuesTrimmed(r: Rental, unitPrice: int32, usageDurationInSeconds: int32, discount: real,
                          discountProm: real, totalPrice: real, show: real -> string, k: nat)
    requires HasNoEdgeWhitespace(r.rentalDateTime) && HasNoEdgeWhitespace(r.driver.nameOfTheDriver)
    requires HasNoEdgeWhitespace(r.vehicle.idOfVehicle)
    requires HasNoEdgeWhitespace(r.malfunction.hasMalfunction) && HasNoEdgeWhitespace(r.promotion)
    requires HasNoEdgeWhitespace(show(discount)) && HasNoEdgeWhitespace(show(discountProm))
    requires HasNoEdgeWhitespace(show(totalPrice)) && k < 13
    ensures HasNoEdgeWhitespace(RentalCalculator.BillValues(r, unitPrice, usageDurationInSeconds, discount, discountProm, totalPrice, show)[k])
  {
    var values := RentalCalculator.BillValues(r, unitPrice, usageDurationInSeconds, discount, discountProm, totalPrice, show);
    if k == 3 {
      IntToStringHasNoEdgeWhitespace(unitPrice);
    } else if k == 4 {
      LocationHasNoEdgeWhitespace(r.firstStartCoordinate, r.secondStartCoordinate);
    } else if k == 5 {
      LocationHasNoEdgeWhitespace(r.firstFinishCoordinate, r.secondFinishCoordinate);
    } else if k == 6 {
      IntToStringHasNoEdgeWhitespace(usageDurationInSeconds);
    } else if k == 12 {
      NarrowValueTrimmed(RentalCalculator.IsNarrow(r));
    } else if k == 9 {
      assert values[k] == show(discount);
    } else if k == 10 {
      assert values[k] == show(discountProm);
    } else if k == 11 {
      assert values[k] == show(totalPrice);
    }
  }

  /** "true" and "false" have no edge whitespace. */
  lemma NarrowValueTrimmed(b: bool)
    ensures HasNoEdgeWhitespace(RentalCalculator.BoolToString(b))
  {
  }

  /** Cutting each written line at its separator gives back the value
      written on it. */
  lemma WrittenFields(r: Rental, unitPrice: int32, usageDurationInSeconds: int32, discount: real,
                      discountProm: real, totalPrice: real, show: real -> string)
    requires HasNoEdgeWhitespace(r.rentalDateTime) && HasNoEdgeWhitespace(r.driver.nameOfTheDriver)
    requires HasNoEdgeWhitespace(r.vehicle.idOfVehicle)
    requires HasNoEdgeWhitespace(r.malfunction.hasMalfunction) && HasNoEdgeWhitespace(r.promotion)
    requires HasNoEdgeWhitespace(show(discount)) && HasNoEdgeWhitespace(show(discountProm))
    requires HasNoEdgeWhitespace(show(totalPrice))
    ensures FieldsOf(RentalCalculator.BillLines(r, unitPrice, usageDurationInSeconds, discount, discountProm, totalPrice, show),
                     READ_SEPARATORS) ==
            RentalCalculator.BillValues(r, unitPrice, usageDurationInSeconds, discount, discountProm, totalPrice, show)
  {
    var lines := RentalCalculator.BillLines(r, unitPrice, usageDurationInSeconds, discount, discountProm, totalPrice, show);
    var values := RentalCalculator.BillValues(r, unitPrice, usageDurationInSeconds, discount, discountProm, totalPrice, show);
    SeparatorsAgree();
    forall k | 0 <= k < 13
      ensures TakingSecondString(lines[k], READ_SEPARATORS[k]) == values[k]
    {
      CaptionHoldsNoSeparator(k);
      BillValuesTrimmed(r, unitPrice, usageDurationInSeconds, discount, discountProm, totalPrice, show, k);
      FieldLine(RentalCalculator.BILL_CAPTIONS[k], READ_SEPARATORS[k], values[k]);
    }
    FieldsOfValues(lines, READ_SEPARATORS, values);
  }

  /** Texts whose numbers parse to a bill's numbers make that bill. */
  lemma BillOfFields(f: seq<string>, b: Bill)
    requires |f| == 13
    requires f[0] == b.rentalDateTime && f[1] == b.nameOfTheDriver && f[2] == b.idOfVehicle
    requires ParseInt(f[3]) == Some(b.unitPrice) && f[4] == b.startLocation && f[5] == b.finishLocation
    requires ParseInt(f[6]) == Some(b.usageDurationInSeconds) && f[7] == b.hasMalfunction && f[8] == b.hasPromotion
    requires ParseDecimal(f[9]) == Some(b.discount) && ParseDecimal(f[10]) == Some(b.discountProm)
    requires ParseDecimal(f[11]) == Some(b.totalPrice) && f[12] == b.inNarrowCity
    ensures BillOf(f) == Some(b)
  {
  }

  /** The values of a bill, one by one. */
  lemma BillValuesAre(r: Rental, unitPrice: int32, usageDurationInSeconds: int32, discount: real,
                      discountProm: real, totalPrice: real, show: real -> string)
    ensures var f := RentalCalculator.BillValues(r, unitPrice, usageDurationInSeconds, discount, discountProm, totalPrice, show);
            f[0] == r.rentalDateTime && f[1] == r.driver.nameOfTheDriver && f[2] == r.vehicle.idOfVehicle &&
            f[3] == IntToString(unitPrice) &&
            f[4] == IntToString(r.firstStartCoordinate) + "," + IntToString(r.secondStartCoordinate) &&
            f[5] == IntToString(r.firstFinishCoordinate) + "," + IntToString(r.secondFinishCoordinate) &&
            f[6] == IntToString(usageDurationInSeconds) && f[7] == r.malfunction.hasMalfunction && f[8] == r.promotion &&
            f[9] == show(discount) && f[10] == show(discountProm) && f[11] == show(totalPrice) &&
            f[12] == RentalCalculator.BoolToString(RentalCalculator.IsNarrow(r))
  {
  }

  /** The written values make the bill they came from. */
  lemma BillOfWritten(r: Rental, unitPrice: int32, usageDurationInSeconds: int32, discount: real,
                      discountProm: real, totalPrice: real, show: real -> string,
                      discountRead: real, discountPromRead: real, totalPriceRead: real)
    requires PrintsAs(show, discount, discountRead) && PrintsAs(show, discountProm, discountPromRead)
    requires PrintsAs(show, totalPrice, totalPriceRead)
    ensures BillOf(RentalCalculator.BillValues(r, unitPrice, usageDurationInSeconds, discount, discountProm, totalPrice, show)) ==
            Some(Bill(r.rentalDateTime, r.driver.nameOfTheDriver, r.vehicle.idOfVehicle, unitPrice,
                      IntToString(r.firstStartCoordinate) + "," + IntToString(r.secondStartCoordinate),
                      IntToString(r.firstFinishCoordinate) + "," + IntToString(r.secondFinishCoordinate),
                      usageDurationInSeconds, r.malfunction.hasMalfunction, r.promotion,
                      discountRead, discountPromRead, totalPriceRead, RentalCalculator.BoolToString(RentalCalculator.IsNarrow(r))))
  {
    BillValuesAre(r, unitPrice, usageDurationInSeconds, discount, discountProm, totalPrice, show);
    ParseIntRoundTrip(unitPrice);
    ParseIntRoundTrip(usageDurationInSeconds);
    BillOfFields(RentalCalculator.BillValues(r, unitPrice, usageDurationInSeconds, discount, discountProm, totalPrice, show),
                 Bill(r.rentalDateTime, r.driver.nameOfTheDriver, r.vehicle.idOfVehicle, unitPrice,
                      IntToString(r.firstStartCoordinate) + "," + IntToString(r.secondStartCoordinate),
                      IntToString(r.firstFinishCoordinate) + "," + IntToString(r.secondFinishCoordinate),
                      usageDurationInSeconds, r.malfunction.hasMalfunction, r.promotion,
                      discountRead, discountPromRead, totalPriceRead, RentalCalculator.BoolToString(RentalCalculator.IsNarrow(r))));
  }

  /** Reading a bill gives back what `writeInTxtFile` wrote: the text and
      integer fields exactly, when the texts have no edge whitespace, and
      the prices as `Double.parseDouble` reads their printed form. */
  lemma ParseWrittenBill(r: Rental, unitPrice: int32, usageDurationInSeconds: int32, discount: real,
                         discountProm: real, totalPrice: real, show: real -> string,
                         discountRead: real, discountPromRead: real, totalPriceRead: real)
    requires HasNoEdgeWhitespace(r.rentalDateTime) && HasNoEdgeWhitespace(r.driver.nameOfTheDriver)
    requires HasNoEdgeWhitespace(r.vehicle.idOfVehicle)
    requires HasNoEdgeWhitespace(r.malfunction.hasMalfunction) && HasNoEdgeWhitespace(r.promotion)
    requires PrintsAs(show, discount, discountRead) && PrintsAs(show, discountProm, discountPromRead)
    requires PrintsAs(show, totalPrice, totalPriceRead)
    ensures ParseBill(RentalCalculator.BillLines(r, unitPrice, usageDurationInSeconds, discount, discountProm, totalPrice, show)) ==
            Some(Bill(r.rentalDateTime, r.driver.nameOfTheDriver, r.vehicle.idOfVehicle, unitPrice,
                      IntToString(r.firstStartCoordinate) + "," + IntToString(r.secondStartCoordinate),
                      IntToString(r.firstFinishCoordinate) + "," + IntToString(r.secondFinishCoordinate),
                      usageDurationInSeconds, r.malfunction.hasMalfunction, r.promotion,
                      discountRead, discountPromRead, totalPriceRead, RentalCalculator.BoolToString(RentalCalculator.IsNarrow(r))))
  {
    WrittenFields(r, unitPrice, usageDurationInSeconds, discount, discountProm, totalPrice, show);
    BillOfWritten(r, unitPrice, usageDurationInSeconds, discount, discountProm, totalPrice, show,
                  discountRead, discountPromRead, totalPriceRead);
  }

  /** A bill written for a rental counts as income in the narrow city
      exactly when the rental stayed in the narrow part of the grid. */
  lemma WrittenBillNarrowIff(r: Rental, unitPrice: int32, usageDurationInSeconds: int32, discount: real,
                             discountProm: real, totalPrice: real, show: real -> string,
                             discountRead: real, discountPromRead: real, totalPriceRead: real)
    requires HasNoEdgeWhitespace(r.rentalDateTime) && HasNoEdgeWhitespace(r.driver.nameOfTheDriver)
    requires HasNoEdgeWhitespace(r.vehicle.idOfVehicle)
    requires HasNoEdgeWhitespace(r.malfunction.hasMalfunction) && HasNoEdgeWhitespace(r.promotion)
    requires PrintsAs(show, discount, discountRead) && PrintsAs(show, discountProm, discountPromRead)
    requires PrintsAs(show, totalPrice, totalPriceRead)
    ensures var b := ParseBill(RentalCalculator.BillLines(r, unitPrice, usageDurationInSeconds, discount, discountProm, totalPrice, show));
            b.Some? && (TRUE == b.value.inNarrowCity <==> RentalCalculator.IsNarrow(r))
  {
    ParseWrittenBill(r, unitPrice, usageDurationInSeconds, discount, discountProm, totalPrice, show,
                     discountRead, discountPromRead, totalPriceRead);
  }

  // ---------------------------------------------------------------------
  // Reading the bill files
  // ---------------------------------------------------------------------

  /** A file of the bills folder: its name and its lines. */
  datatype BillFile = BillFile(name: string, lines: seq<string>)

  /** `listFiles` keeps the files whose name ends with ".txt". */
  predicate IsBillFile(f: BillFile)
  {
    EndsWith(f.name, RentalCalculator.TXT)
  }

  /** No bill file among these fails to parse: `createBills` reads them all
      without an exception. */
  predicate AllBillsRead(files: seq<BillFile>)
    decreases |files|
  {
    |files| == 0 ||
    (var n := |files| - 1; AllBillsRead(files[..n]) && (IsBillFile(files[n]) ==> ParseBill(files[n].lines).Some?))
  }

  lemma {:induction false} AllBillsReadIff(files: seq<BillFile>)
    ensures AllBillsRead(files) <==> forall k | 0 <= k < |files| :: IsBillFile(files[k]) ==> ParseBill(files[k].lines).Some?
    decreases |files|
  {
    if |files| > 0 {
      var n := |files| - 1;
      AllBillsReadIff(files[..n]);
      assert forall k | 0 <= k < n :: files[..n][k] == files[k];
    }
  }

  /** The bills `createBills` adds, in the order of the files: one per bill
      file, up to the first file that does not parse. */
  function BillsRead(files: seq<BillFile>): (bills: seq<Bill>)
    ensures |bills| <= |files|
    decreases |files|
  {
    if |files| == 0 then []
    else
      var n := |files| - 1;
      var before := BillsRead(files[..n]);
      if !AllBillsRead(files[..n]) || !IsBillFile(files[n]) || ParseBill(files[n].lines).None? then before
      else before + [ParseBill(files[n].lines).value]
  }

  /** Once a file fails, the files after it add nothing. */
  lemma {:induction false} BillsReadStopsAtFailure(files: seq<BillFile>, i: nat)
    requires i <= |files| && !AllBillsRead(files[..i])
    ensures !AllBillsRead(files) && BillsRead(files) == BillsRead(files[..i])
    decreases |files|
  {
    if i < |files| {
      var n := |files| - 1;
      assert files[..n][..i] == files[..i];
      BillsReadStopsAtFailure(files[..n], i);
    } else {
      assert files[..i] == files;
    }
  }

  /** Every bill read is the parse of one of the bill files. */
  lemma {:induction false} BillsReadFromFiles(files: seq<BillFile>, j: nat)
    requires j < |BillsRead(files)|
    ensures exists k | 0 <= k < |files| :: IsBillFile(files[k]) && ParseBill(files[k].lines) == Some(BillsRead(files)[j])
    decreases |files|
  {
    var n := |files| - 1;
    var before := BillsRead(files[..n]);
    if j < |before| {
      BillsReadFromFiles(files[..n], j);
      var k :| 0 <= k < n && IsBillFile(files[..n][k]) && ParseBill(files[..n][k].lines) == Some(before[j]);
      assert files[..n][k] == files[k];
    } else {
      assert IsBillFile(files[n]) && ParseBill(files[n].lines) == Some(BillsRead(files)[j]);
    }
  }

  /** All the bill files parse and every one gives a bill. */
  lemma {:induction false} AllBillsReadCount(files: seq<BillFile>)
    requires AllBillsRead(files)
    ensures |BillsRead(files)| == CountBillFiles(files)
    decreases |files|
  {
    if |files| > 0 {
      AllBillsReadCount(files[..|files| - 1]);
    }
  }

  /** The number of bill files. */
  function CountBillFiles(files: seq<BillFile>): (n: nat)
    ensures n <= |files|
    decreases |files|
  {
    if |files| == 0 then 0
    else CountBillFiles(files[..|files| - 1]) + (if IsBillFile(files[|files| - 1]) then 1 else 0)
  }

  // ---------------------------------------------------------------------
  // Grouping by day
  // ---------------------------------------------------------------------

  /** `rentalDateTime.split(" ")[0]`; `None` is the
      `ArrayIndexOutOfBoundsException` of a text made only of blanks, which
      splits into no piece at all. */
  function DayKey(rentalDateTime: string): (key: Option<string>)
  {
    var parts := Split(rentalDateTime, ' ');
    if |parts| == 0 then None else Some(parts[0])
  }

  /** The first piece survives the dropping of trailing empty pieces when
      it is not empty itself. */
  lemma {:induction false} DropTrailingEmptyKeepsFirst(parts: seq<string>)
    requires |parts| > 0 && parts[0] != ""
    ensures |DropTrailingEmpty(parts)| > 0 && DropTrailingEmpty(parts)[0] == parts[0]
    decreases |parts|
  {
    if |parts| > 1 && parts[|parts| - 1] == "" {
      DropTrailingEmptyKeepsFirst(parts[..|parts| - 1]);
    }
  }

  /** A timestamp read from a bill is trimmed, so its key is the part before
      the first blank, or all of it when it has none. */
  lemma DayKeyOfTrimmed(rentalDateTime: string)
    requires HasNoEdgeWhitespace(rentalDateTime)
    ensures DayKey(rentalDateTime) ==
            Some(if ' ' in rentalDateTime then rentalDateTime[..IndexOf(rentalDateTime, ' ')] else rentalDateTime)
  {
    if ' ' in rentalDateTime {
      var i := IndexOf(rentalDateTime, ' ');
      assert rentalDateTime[i] == ' ' && !IsTrimmed(rentalDateTime[0]);
      var parts := SplitAll(rentalDateTime, ' ');
      assert parts[0] == rentalDateTime[..i];
      DropTrailingEmptyKeepsFirst(parts);
    }
  }

  /** `createBillsGroupedByDate`: the bills in list order under their day
      key; `None` when a key cannot be taken. */
  function GroupedByDate(bills: seq<Bill>): (groups: Option<map<string, seq<Bill>>>)
    decreases |bills|
  {
    if |bills| == 0 then Some(map[])
    else
      var n := |bills| - 1;
      var key := DayKey(bills[n].rentalDateTime);
      match GroupedByDate(bills[..n])
      case None => None
      case Some(m) =>
        if key.None? then None
        else Some(m[key.value := (if key.value in m then m[key.value] else []) + [bills[n]]])
  }

  /** The bills of one day, in list order. */
  function BillsOfDay(bills: seq<Bill>, day: string): (r: seq<Bill>)
    ensures |r| <= |bills|
    decreases |bills|
  {
    if |bills| == 0 then []
    else
      var n := |bills| - 1;
      BillsOfDay(bills[..n], day) + (if DayKey(bills[n].rentalDateTime) == Some(day) then [bills[n]] else [])
  }

  /** Grouping succeeds exactly when every bill has a key. */
  lemma {:induction false} GroupedByDateSomeIff(bills: seq<Bill>)
    ensures GroupedByDate(bills).Some? <==> forall k | 0 <= k < |bills| :: DayKey(bills[k].rentalDateTime).Some?
    decreases |bills|
  {
    if |bills| > 0 {
      var n := |bills| - 1;
      GroupedByDateSomeIff(bills[..n]);
      assert forall k | 0 <= k < n :: bills[..n][k] == bills[k];
    }
  }

  /** Each day's group holds exactly that day's bills, in list order, and
      the days with a group are exactly those with a bill. */
  lemma {:induction false} GroupedByDateIsBillsOfDay(bills: seq<Bill>, day: string)
    requires GroupedByDate(bills).Some?
    ensures day in GroupedByDate(bills).value <==> |BillsOfDay(bills, day)| > 0
    ensures day in GroupedByDate(bills).value ==> GroupedByDate(bills).value[day] == BillsOfDay(bills, day)
    decreases |bills|
  {
    if |bills| > 0 {
      GroupedByDateIsBillsOfDay(bills[..|bills| - 1], day);
    }
  }

  /** Bills read from the files always have a key: grouping cannot fail. */
  lemma ReadBillsGroup(files: seq<BillFile>)
    ensures GroupedByDate(BillsRead(files)).Some?
  {
    var bills := BillsRead(files);
    forall j | 0 <= j < |bills|
      ensures DayKey(bills[j].rentalDateTime).Some?
    {
      BillsReadFromFiles(files, j);
      var k :| 0 <= k < |files| && IsBillFile(files[k]) && ParseBill(files[k].lines) == Some(bills[j]);
      ParsedDateIsTrimmed(files[k].lines);
      DayKeyOfTrimmed(bills[j].rentalDateTime);
    }
    GroupedByDateSomeIff(bills);
  }

  // ---------------------------------------------------------------------
  // The report object
  // ---------------------------------------------------------------------

  /** `Report`: the bills read and the bills grouped by day. */
  class Report {
    var bills: seq<Bill>
    var billsGroupedByDate: map<string, seq<Bill>>

    /** The field initialisers: no bills and no groups yet. */
    constructor ()
      ensures bills == [] && billsGroupedByDate == map[]
    {
      bills := [];
      billsGroupedByDate := map[];
    }

    /** `createBills`: appends the bill of every bill file, in listing
        order, to `bills`. A `null` folder name (`nameOfFolder` is `None`)
        makes `new File(null)` throw before anything is read. `files` is
        `None` when the folder cannot be listed; then nothing is read. `ok`
        is false when the method throws: a `null` folder name, or a file
        that failed to parse, after the bills read so far were added. */
    method CreateBills(nameOfFolder: Option<string>, files: Option<seq<BillFile>>) returns (ok: bool)
      modifies this`bills
      ensures nameOfFolder.None? ==> !ok && bills == old(bills)
      ensures nameOfFolder.Some? && files.None? ==> ok && bills == old(bills)
      ensures nameOfFolder.Some? && files.Some? ==>
                (ok <==> AllBillsRead(files.value)) && bills == old(bills) + BillsRead(files.value)
    {
      if nameOfFolder.None? {
        return false;
      }
      ok := true;
      if files.None? {
        return;
      }
      var fs := files.value;
      var i := 0;
      while i < |fs| && ok
        invariant 0 <= i <= |fs|
        invariant ok <==> AllBillsRead(fs[..i])
        invariant bills == old(bills) + BillsRead(fs[..i])
      {
        assert fs[..i + 1][..i] == fs[..i];
        if IsBillFile(fs[i]) {
          var bill := ParseBill(fs[i].lines);
          if bill.None? {
            ok := false;
          } else {
            bills := bills + [bill.value];
          }
        }
        i := i + 1;
      }
      if ok {
        assert fs[..i] == fs;
      } else {
        BillsReadStopsAtFailure(fs, i);
      }
    }

    /** `setBillsGroupedByDate(createBillsGroupedByDate())`. `ok` is false
        when a key cannot be taken; the groups are then left as they were. */
    method GroupBillsByDate() returns (ok: bool)
      modifies this`billsGroupedByDate
      ensures ok <==> GroupedByDate(bills).Some?
      ensures ok ==> billsGroupedByDate == GroupedByDate(bills).value
      ensures !ok ==> billsGroupedByDate == old(billsGroupedByDate)
      ensures bills == [] ==> ok && billsGroupedByDate == map[]
    {
      var groups := GroupedByDate(bills);
      ok := groups.Some?;
      if ok {
        billsGroupedByDate := groups.value;
      }
    }
  }

  /** `new Report()`: reads the bills and groups them by day. `None` is the
      exception thrown out of the constructor: by a `null` folder name, by
      a file that does not parse, or by a timestamp without a day;
      `ReadBillsGroup` shows the last never happens. */
  method NewReport(nameOfFolder: Option<string>, files: Option<seq<BillFile>>) returns (report: Option<Report>)
    ensures nameOfFolder.None? ==> report.None?
    ensures nameOfFolder.Some? && files.None? ==>
            report.Some? && report.value.bills == [] && report.value.billsGroupedByDate == map[]
    ensures nameOfFolder.Some? && files.Some? ==>
            (report.Some? <==> AllBillsRead(files.value) && GroupedByDate(BillsRead(files.value)).Some?)
    ensures report.Some? && files.Some? ==>
            report.value.bills == BillsRead(files.value) &&
            Some(report.value.billsGroupedByDate) == GroupedByDate(BillsRead(files.value))
    ensures report.Some? ==> fresh(report.value)
  {
    var r := new Report();
    var ok := r.CreateBills(nameOfFolder, files);
    if !ok {
      return None;
    }
    assert files.Some? ==> r.bills == BillsRead(files.value);
    ok := r.GroupBillsByDate();
    if !ok {
      return None;
    }
    return Some(r);
  }

  // ---------------------------------------------------------------------
  // Totals over a list of bills
  // ---------------------------------------------------------------------

  /** The sum of `amount` over the bills, in list order. */
  function Sum(list: seq<Bill>, amount: Bill -> real): real
    decreases |list|
  {
    if |list| == 0 then 0.0 else Sum(list[..|list| - 1], amount) + amount(list[|list| - 1])
  }

  /** The bills `keep` accepts, in list order. */
  function Filter(list: seq<Bill>, keep: Bill -> bool): (r: seq<Bill>)
    ensures |r| <= |list|
    ensures forall k | 0 <= k < |r| :: keep(r[k])
    decreases |list|
  {
    if |list| == 0 then []
    else
      var n := |list| - 1;
      Filter(list[..n], keep) + (if keep(list[n]) then [list[n]] else [])
  }

  lemma {:induction false} SumAppend(a: seq<Bill>, b: seq<Bill>, amount: Bill -> real)
    ensures Sum(a + b, amount) == Sum(a, amount) + Sum(b, amount)
    decreases |b|
  {
    if |b| == 0 {
      assert a + b == a;
    } else {
      var n := |b| - 1;
      assert (a + b)[..|a + b| - 1] == a + b[..n];
      SumAppend(a, b[..n], amount);
    }
  }

  /** Summing over the kept bills is summing `masked`, which is `amount` on
      the kept bills and zero on the others. */
  lemma {:induction false} SumOfFilter(list: seq<Bill>, keep: Bill -> bool, amount: Bill -> real, masked: Bill -> real)
    requires forall b :: masked(b) == (if keep(b) then amount(b) else 0.0)
    ensures Sum(Filter(list, keep), amount) == Sum(list, masked)
    decreases |list|
  {
    if |list| > 0 {
      var n := |list| - 1;
      SumOfFilter(list[..n], keep, amount, masked);
      SumAppend(Filter(list[..n], keep), if keep(list[n]) then [list[n]] else [], amount);
    }
  }

  /** A sum of amounts bounded by other amounts is bounded by their sum. */
  lemma {:induction false} SumMonotone(list: seq<Bill>, low: Bill -> real, high: Bill -> real)
    requires forall k | 0 <= k < |list| :: low(list[k]) <= high(list[k])
    ensures Sum(list, low) <= Sum(list, high)
    decreases |list|
  {
    if |list| > 0 {
      SumMonotone(list[..|list| - 1], low, high);
    }
  }

  function TotalPriceOf(b: Bill): real { b.totalPrice }
  function DiscountOfBill(b: Bill): real { b.discount }
  function DiscountPromOfBill(b: Bill): real { b.discountProm }
  function UnitPriceOfBill(b: Bill): real { b.unitPrice as real }

  /** `totalIncome`: the sum of the total prices. */
  function TotalIncome(list: seq<Bill>): real
  {
    Sum(list, TotalPriceOf)
  }

  /** `totalDiscount`: the sum of the discounts, divided by 100. */
  function TotalDiscount(list: seq<Bill>): real
  {
    Sum(list, DiscountOfBill) / 100.0
  }

  /** `totalDiscountPromotion`: the sum of the promotion discounts, divided
      by 100. */
  function TotalDiscountPromotion(list: seq<Bill>): real
  {
    Sum(list, DiscountPromOfBill) / 100.0
  }

  /** The income and the discounts of two lists together are the sums of
      those of each. */
  lemma TotalsAppend(a: seq<Bill>, b: seq<Bill>)
    ensures TotalIncome(a + b) == TotalIncome(a) + TotalIncome(b)
    ensures TotalDiscount(a + b) == TotalDiscount(a) + TotalDiscount(b)
    ensures TotalDiscountPromotion(a + b) == TotalDiscountPromotion(a) + TotalDiscountPromotion(b)
  {
    SumAppend(a, b, TotalPriceOf);
    SumAppend(a, b, DiscountOfBill);
    SumAppend(a, b, DiscountPromOfBill);
  }

  /** No income is negative when no bill has a negative price. */
  lemma TotalIncomeNonNegative(list: seq<Bill>)
    requires forall k | 0 <= k < |list| :: list[k].totalPrice >= 0.0
    ensures TotalIncome(list) >= 0.0
  {
    SumMonotone(list, ZeroOf, TotalPriceOf);
    SumOfZero(list);
  }

  function ZeroOf(b: Bill): real { 0.0 }

  lemma {:induction false} SumOfZero(list: seq<Bill>)
    ensures Sum(list, ZeroOf) == 0.0
    decreases |list|
  {
    if |list| > 0 {
      SumOfZero(list[..|list| - 1]);
    }
  }

  // Narrow and wide city

  predicate IsNarrowBill(b: Bill) { TRUE == b.inNarrowCity }
  predicate IsWideBill(b: Bill) { TRUE != b.inNarrowCity }

  /** What a bill adds to the narrow-city income. */
  function NarrowAmount(b: Bill): real
  {
    if TRUE == b.inNarrowCity then b.totalPrice else 0.0
  }

  function WideAmount(b: Bill): real
  {
    if TRUE == b.inNarrowCity then 0.0 else b.totalPrice
  }

  /** `totalIncomeInNarrowCity`: the income of the bills whose narrow-city
      flag is "true". */
  method TotalIncomeInNarrowCity(list: seq<Bill>) returns (total: real)
    ensures total == TotalIncome(Filter(list, IsNarrowBill))
  {
    total := 0.0;
    var i := 0;
    while i < |list|
      invariant 0 <= i <= |list|
      invariant total == Sum(list[..i], NarrowAmount)
    {
      assert list[..i + 1][..i] == list[..i];
      var bill := list[i];
      if TRUE == bill.inNarrowCity {
        total := total + bill.totalPrice;
      } else {
        total := total + 0.0;
      }
      i := i + 1;
    }
    assert list[..i] == list;
    SumOfFilter(list, IsNarrowBill, TotalPriceOf, NarrowAmount);
  }

  /** The narrow-city and the wide-city incomes add up to the income. */
  lemma {:induction false} NarrowPlusWide(list: seq<Bill>)
    ensures TotalIncome(Filter(list, IsNarrowBill)) + TotalIncome(Filter(list, IsWideBill)) == TotalIncome(list)
    decreases |list|
  {
    SumOfFilter(list, IsNarrowBill, TotalPriceOf, NarrowAmount);
    SumOfFilter(list, IsWideBill, TotalPriceOf, WideAmount);
    NarrowWideAmounts(list);
  }

  lemma {:induction false} NarrowWideAmounts(list: seq<Bill>)
    ensures Sum(list, NarrowAmount) + Sum(list, WideAmount) == Sum(list, TotalPriceOf)
    decreases |list|
  {
    if |list| > 0 {
      NarrowWideAmounts(list[..|list| - 1]);
    }
  }

  /** `totalIncomeInWideCity`: the income less the narrow-city income,
      which is the income of the bills whose flag is not "true". */
  method TotalIncomeInWideCity(list: seq<Bill>) returns (total: real)
    ensures total == TotalIncome(Filter(list, IsWideBill))
  {
    var narrow := TotalIncomeInNarrowCity(list);
    total := TotalIncome(list) - narrow;
    NarrowPlusWide(list);
  }

  // Repairs

  /** The repair coefficient of a vehicle by the letter its id contains:
      "A" for a car, else "B" for a bike, else a scooter. */
  function Coefficient(idOfVehicle: string): (c: real)
    ensures c == CAR_COEFFICIENT || c == BIKE_COEFFICIENT || c == SCOOTER_COEFFICIENT
    ensures c == CAR_COEFFICIENT <==> Contains(idOfVehicle, RentalCalculator.CAR_FIRST_LETTER)
  {
    if Contains(idOfVehicle, RentalCalculator.CAR_FIRST_LETTER) then CAR_COEFFICIENT
    else if Contains(idOfVehicle, RentalCalculator.BIKE_FIRST_LETTER) then BIKE_COEFFICIENT
    else SCOOTER_COEFFICIENT
  }

  predicate HasRepair(b: Bill) { Rentals.YES == b.hasMalfunction }

  /** What a bill adds to the repairs: its coefficient times its unit price
      when it had a malfunction, nothing otherwise. */
  function RepairCost(b: Bill): (cost: real)
  {
    if Rentals.YES == b.hasMalfunction then Coefficient(b.idOfVehicle) * (b.unitPrice as real) else 0.0
  }

  /** The repairs of a list of bills. */
  function Repairs(list: seq<Bill>): real
  {
    Sum(list, RepairCost)
  }

  /** `totalAmountOfMalfunctionRepairs`. */
  method TotalAmountOfMalfunctionRepairs(list: seq<Bill>) returns (total: real)
    ensures total == Repairs(list)
  {
    total := 0.0;
    var i := 0;
    while i < |list|
      invariant 0 <= i <= |list|
      invariant total == Sum(list[..i], RepairCost)
    {
      assert list[..i + 1][..i] == list[..i];
      var bill := list[i];
      if Rentals.YES == bill.hasMalfunction {
        if Contains(bill.idOfVehicle, RentalCalculator.CAR_FIRST_LETTER) {
          total := total + CAR_COEFFICIENT * (bill.unitPrice as real);
        } else if Contains(bill.idOfVehicle, RentalCalculator.BIKE_FIRST_LETTER) {
          total := total + BIKE_COEFFICIENT * (bill.unitPrice as real);
        } else {
          total := total + SCOOTER_COEFFICIENT * (bill.unitPrice as real);
        }
      }
      i := i + 1;
    }
    assert list[..i] == list;
  }

  /** Only the bills with a malfunction cost repairs. */
  lemma RepairsOnlyOfMalfunctions(list: seq<Bill>)
    ensures Repairs(list) == Repairs(Filter(list, HasRepair))
  {
    SumOfFilter(list, HasRepair, RepairCost, RepairCost);
  }

  function LowRepair(b: Bill): real { if HasRepair(b) then SCOOTER_COEFFICIENT * (b.unitPrice as real) else 0.0 }
  function HighRepair(b: Bill): real { if HasRepair(b) then CAR_COEFFICIENT * (b.unitPrice as real) else 0.0 }

  /** The unit price of a bill with a malfunction, nothing otherwise. */
  function RepairUnitPrice(b: Bill): real { if HasRepair(b) then b.unitPrice as real else 0.0 }

  /** A sum of amounts scaled by one factor is that factor times the sum. */
  lemma {:induction false} SumScaled(list: seq<Bill>, c: real, base: Bill -> real, scaled: Bill -> real)
    requires forall b :: scaled(b) == c * base(b)
    ensures Sum(list, scaled) == c * Sum(list, base)
    decreases |list|
  {
    if |list| > 0 {
      var n := |list| - 1;
      SumScaled(list[..n], c, base, scaled);
      var x := Sum(list[..n], base);
      assert c * (x + base(list[n])) == c * x + c * base(list[n]);
    }
  }

  /** A bill's repair lies between its scooter and its car rate. */
  lemma RepairCostBetween(b: Bill)
    requires b.unitPrice >= 0
    ensures LowRepair(b) <= RepairCost(b) <= HighRepair(b)
  {
    var c := Coefficient(b.idOfVehicle);
    var u := b.unitPrice as real;
    if c == BIKE_COEFFICIENT {
      assert SCOOTER_COEFFICIENT * u <= BIKE_COEFFICIENT * u <= CAR_COEFFICIENT * u;
    }
  }

  /** The scooter rate over every bill with a malfunction. */
  lemma LowRepairs(list: seq<Bill>)
    ensures Sum(list, LowRepair) == SCOOTER_COEFFICIENT * Sum(Filter(list, HasRepair), UnitPriceOfBill)
  {
    forall b ensures RepairUnitPrice(b) == (if HasRepair(b) then UnitPriceOfBill(b) else 0.0) { }
    SumOfFilter(list, HasRepair, UnitPriceOfBill, RepairUnitPrice);
    forall b ensures LowRepair(b) == SCOOTER_COEFFICIENT * RepairUnitPrice(b) { }
    SumScaled(list, SCOOTER_COEFFICIENT, RepairUnitPrice, LowRepair);
  }

  /** The car rate over every bill with a malfunction. */
  lemma HighRepairs(list: seq<Bill>)
    ensures Sum(list, HighRepair) == CAR_COEFFICIENT * Sum(Filter(list, HasRepair), UnitPriceOfBill)
  {
    forall b ensures RepairUnitPrice(b) == (if HasRepair(b) then UnitPriceOfBill(b) else 0.0) { }
    SumOfFilter(list, HasRepair, UnitPriceOfBill, RepairUnitPrice);
    forall b ensures HighRepair(b) == CAR_COEFFICIENT * RepairUnitPrice(b) { }
    SumScaled(list, CAR_COEFFICIENT, RepairUnitPrice, HighRepair);
  }

  /** With no negative unit price, the repairs lie between the scooter and
      the car coefficient times the unit prices of the bills with a
      malfunction. */
  lemma RepairsBetween(list: seq<Bill>)
    requires forall k | 0 <= k < |list| :: list[k].unitPrice >= 0
    ensures SCOOTER_COEFFICIENT * Sum(Filter(list, HasRepair), UnitPriceOfBill) <= Repairs(list)
    ensures Repairs(list) <= CAR_COEFFICIENT * Sum(Filter(list, HasRepair), UnitPriceOfBill)
  {
    forall k | 0 <= k < |list|
      ensures LowRepair(list[k]) <= RepairCost(list[k]) <= HighRepair(list[k])
    {
      RepairCostBetween(list[k]);
    }
    SumMonotone(list, LowRepair, RepairCost);
    SumMonotone(list, RepairCost, HighRepair);
    LowRepairs(list);
    HighRepairs(list);
  }

  // Maintenance, costs and tax

  /** `totalMaintenanceAmount`: a fifth of the income. */
  function TotalMaintenanceAmount(list: seq<Bill>): real
  {
    TotalIncome(list) * 0.2
  }

  /** `totalCostsOfCompany`: a fifth of the income as well. */
  function TotalCostsOfCompany(list: seq<Bill>): real
  {
    TotalIncome(list) * 0.2
  }

  /** The tax: a tenth of the income less maintenance, repairs and company
      costs. */
  function Tax(list: seq<Bill>): real
  {
    (TotalIncome(list) - TotalMaintenanceAmount(list) - Repairs(list) - TotalCostsOfCompany(list)) * 0.1
  }

  /** `totalTax`, which sums the repairs with its loop. */
  method TotalTax(list: seq<Bill>) returns (tax: real)
    ensures tax == Tax(list)
  {
    var repairs := TotalAmountOfMalfunctionRepairs(list);
    tax := (TotalIncome(list) - TotalMaintenanceAmount(list) - repairs - TotalCostsOfCompany(list)) * 0.1;
  }

  /** The tax is six hundredths of the income less a tenth of the repairs;
      without a malfunction it is six hundredths of the income. */
  lemma TaxClosedForm(list: seq<Bill>)
    ensures Tax(list) == 0.06 * TotalIncome(list) - 0.1 * Repairs(list)
    ensures (forall k | 0 <= k < |list| :: !HasRepair(list[k])) ==> Tax(list) == 0.06 * TotalIncome(list)
  {
    if forall k | 0 <= k < |list| :: !HasRepair(list[k]) {
      RepairsOnlyOfMalfunctions(list);
      FilterNone(list, HasRepair);
    }
  }

  lemma {:induction false} FilterNone(list: seq<Bill>, keep: Bill -> bool)
    requires forall k | 0 <= k < |list| :: !keep(list[k])
    ensures Filter(list, keep) == []
    decreases |list|
  {
    if |list| > 0 {
      FilterNone(list[..|list| - 1], keep);
    }
  }
}
