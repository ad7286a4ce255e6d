/** Pricing and settlement of rentals. Each rental gets a record, a
    key/value properties file named after the rental id, filled from the
    company's `values.properties`; when the rental ends the record is read
    back, the price worked out and a 13-line bill written. */
module RentalCalculator {
  import opened Java
  import opened JavaString
  import opened Vehicles
  import opened Drivers
  import opened Rentals

  const FILE_WITH_VALUES: string := "values"
  const FOLDER_NAME_KEY: string := "FOLDER_NAME"
  const CAR_FIRST_LETTER: string := "A"
  const BIKE_FIRST_LETTER: string := "B"
  const CAR_UNIT_PRICE: string := "CAR_UNIT_PRICE"
  const BIKE_UNIT_PRICE: string := "BIKE_UNIT_PRICE"
  const SCOOTER_UNIT_PRICE: string := "SCOOTER_UNIT_PRICE"
  const EXTENSION: string := ".properties"
  const TXT: string := ".txt"
  const DISTANCE_NARROW: string := "DISTANCE_NARROW"
  const DISTANCE_WIDE: string := "DISTANCE_WIDE"
  const DISCOUNT: string := "DISCOUNT"
  const DISCOUNT_PROM: string := "DISCOUNT_PROM"
  const FOLDER_PATH: string := "FOLDER_PATH"
  const DRIVER_COUNT: int32 := 10
  const MIN: int32 := 5
  const MAX: int32 := 14

  /** `File.separator`, taken to be the Unix one. */
  const SEPARATOR: string := "/"

  /** The keys a rental's record is written with. */
  datatype Key =
    | DistanceNarrow | DistanceWide | Discount | DiscountProm
    | CarUnitPrice | BikeUnitPrice | ScooterUnitPrice | FolderPath

  /** The name each key has in the properties file. */
  function KeyName(k: Key): string
  {
    match k
    case DistanceNarrow => DISTANCE_NARROW
    case DistanceWide => DISTANCE_WIDE
    case Discount => DISCOUNT
    case DiscountProm => DISCOUNT_PROM
    case CarUnitPrice => CAR_UNIT_PRICE
    case BikeUnitPrice => BIKE_UNIT_PRICE
    case ScooterUnitPrice => SCOOTER_UNIT_PRICE
    case FolderPath => FOLDER_PATH
  }

  /** Different keys have different names, so a record keyed by `Key` is
      the properties file keyed by name. */
  lemma KeyNameInjective(a: Key, b: Key)
    requires KeyName(a) == KeyName(b)
    ensures a == b
  {
  }

  /** A rental's record: values by key. */
  type Record = map<Key, string>

  /** The company's `values.properties`: values by key name, of which only
      the names of `Key` are ever looked up. */
  type Values = map<Key, string>

  // ---------------------------------------------------------------------
  // The city centre
  // ---------------------------------------------------------------------

  predicate IsValidCoordinate(coordinate: int32)
  {
    MIN <= coordinate <= MAX
  }

  /** A ride in the narrow part of the city: both ends inside the centre. */
  predicate CheckIfIsDistanceNarrow(firstStart: int32, secondStart: int32, firstFinish: int32, secondFinish: int32)
  {
    IsValidCoordinate(firstStart) && IsValidCoordinate(secondStart) &&
    IsValidCoordinate(firstFinish) && IsValidCoordinate(secondFinish)
  }

  predicate IsNarrow(r: Rental)
  {
    CheckIfIsDistanceNarrow(r.firstStartCoordinate, r.secondStartCoordinate,
                            r.firstFinishCoordinate, r.secondFinishCoordinate)
  }

  /** The narrow test holds exactly when the start and the finish cell both
      lie in the square [5, 14] x [5, 14], and then the whole path does too. */
  lemma NarrowIffInsideCentre(r: Rental)
    ensures IsNarrow(r) <==>
            (5 <= r.firstStartCoordinate <= 14 && 5 <= r.secondStartCoordinate <= 14 &&
             5 <= r.firstFinishCoordinate <= 14 && 5 <= r.secondFinishCoordinate <= 14)
    ensures IsNarrow(r) ==> forall k | 0 <= k < |Path(r)| :: 5 <= Path(r)[k].first <= 14 && 5 <= Path(r)[k].second <= 14
  {
    if IsNarrow(r) {
      forall k | 0 <= k < |Path(r)| ensures 5 <= Path(r)[k].first <= 14 && 5 <= Path(r)[k].second <= 14 {
        PathAt(r, k);
      }
    }
  }

  // ---------------------------------------------------------------------
  // The price formula
  // ---------------------------------------------------------------------

  /** `(unitPrice * usageDurationInSeconds) * distance`: the product of the
      two `int`s wraps around before it is widened. */
  function Gross(unitPrice: int32, usageDurationInSeconds: int32, distance: real): real
  {
    (Mul(unitPrice, usageDurationInSeconds) as real) * distance
  }

  /** `calculatePrices`: both discounts, in percent, taken off the gross price. */
  function CalculatePrices(unitPrice: int32, usageDurationInSeconds: int32, distance: real,
                           discount: real, discountProm: real): real
  {
    var price := Gross(unitPrice, usageDurationInSeconds, distance);
    price - ((discount / 100.0) * price) - ((discountProm / 100.0) * price)
  }

  /** The discounts add up rather than compound: the total is the gross price
      scaled by one minus their sum, which exceeds the compounded price by
      the product of the two cuts; with no discount it is the gross price,
      which is the exact product when that fits in an `int`. */
  lemma DiscountsAreNotCompounded(unitPrice: int32, usageDurationInSeconds: int32, distance: real,
                                  discount: real, discountProm: real)
    ensures var gross := Gross(unitPrice, usageDurationInSeconds, distance);
            var total := CalculatePrices(unitPrice, usageDurationInSeconds, distance, discount, discountProm);
            && total == gross * (1.0 - (discount + discountProm) / 100.0)
            && total == gross * (1.0 - discount / 100.0) * (1.0 - discountProm / 100.0)
                        - gross * (discount / 100.0) * (discountProm / 100.0)
            && total == CalculatePrices(unitPrice, usageDurationInSeconds, distance, discountProm, discount)
    ensures CalculatePrices(unitPrice, usageDurationInSeconds, distance, 0.0, 0.0) ==
            Gross(unitPrice, usageDurationInSeconds, distance)
    ensures INT_MIN <= unitPrice * usageDurationInSeconds <= INT_MAX ==>
            Gross(unitPrice, usageDurationInSeconds, distance) == ((unitPrice * usageDurationInSeconds) as real) * distance
  {
    var gross := Gross(unitPrice, usageDurationInSeconds, distance);
    var d := discount / 100.0;
    var p := discountProm / 100.0;
    assert gross * (1.0 - d) * (1.0 - p) == gross - d * gross - p * gross + gross * d * p;
  }

  // ---------------------------------------------------------------------
  // Names of the files
  // ---------------------------------------------------------------------

  /** The name of a rental's record: the id with every ':' made '_', then
      ".properties". */
  function FileName(idOfRental: string): (f: string)
    ensures ':' !in f
  {
    ReplaceChar(idOfRental, ':', '_') + EXTENSION
  }

  /** The record name keeps every other character of the id, in place. */
  lemma FileNameKeepsId(idOfRental: string)
    ensures |FileName(idOfRental)| == |idOfRental| + |EXTENSION|
    ensures FileName(idOfRental)[|idOfRental|..] == EXTENSION
    ensures forall i | 0 <= i < |idOfRental| && idOfRental[i] != ':' :: FileName(idOfRental)[i] == idOfRental[i]
    ensures forall i | 0 <= i < |idOfRental| && idOfRental[i] == ':' :: FileName(idOfRental)[i] == '_'
  {
    var f := FileName(idOfRental);
    assert f[|idOfRental|..] == EXTENSION;
  }

  /** String concatenation prints a `null` folder name as "null". */
  function FolderText(nameOfFolder: Option<string>): string
  {
    if nameOfFolder.None? then "null" else nameOfFolder.value
  }

  /** Where a rental's bill goes: the folder, the record name without its
      extension, and ".txt". */
  function BillPath(folder: string, fileName: string): string
  {
    folder + SEPARATOR + RemoveAll(fileName, EXTENSION) + TXT
  }

  // ---------------------------------------------------------------------
  // Reading the company's values
  // ---------------------------------------------------------------------

  /** `returnValueFromPropertieFile(key)` over the contents of
      `values.properties` (`None` when the file does not exist): "" without
      the file, Java's `null` (`None`) for a key the file lacks. */
  function ReturnValueFromPropertieFile(values: Option<Values>, key: Key): (v: Option<string>)
    ensures values.None? ==> v == Some("")
    ensures values.Some? ==> (v.Some? <==> key in values.value)
    ensures v.Some? && values.Some? ==> v.value == values.value[key]
  {
    if values.None? then Some("")
    else if key in values.value then Some(values.value[key]) else None
  }

  /** The record named `fileName`, empty when there is no such file. */
  function RecordOf(records: map<string, Record>, fileName: string): Record
  {
    if fileName in records then records[fileName] else map[]
  }

  // ---------------------------------------------------------------------
  // Writing a rental's record
  // ---------------------------------------------------------------------

  /** The record after one `addOrUpdatePropertiesFile(key, value, ...)`,
      a `None` value being Java's `null`: the file is opened for writing,
      which empties it, before the value is set, and setting `null` throws;
      so a `null` leaves the record empty. */
  function Overlay(record: Record, key: Key, value: Option<string>): Record
  {
    if value.None? then map[] else record[key := value.value]
  }

  /** The unit-price key a vehicle type is written under. */
  function UnitPriceKey(typeOfVehicle: string): Key
  {
    if typeOfVehicle == CAR then CarUnitPrice
    else if typeOfVehicle == BIKE then BikeUnitPrice
    else ScooterUnitPrice
  }

  /** The distance rate key the narrow test picks. */
  function DistanceKey(r: Rental): Key
  {
    if IsNarrow(r) then DistanceNarrow else DistanceWide
  }

  /** The bill path a rental's record is written with. */
  function RentalBillPath(r: Rental, nameOfFolder: Option<string>): string
  {
    BillPath(FolderText(nameOfFolder), FileName(r.IdOfRental()))
  }

  /** The record after the five upserts of `writeForRentalInPropertiesFile`,
      in order, starting from `start`; the first `null` value ends the run
      with its exception. */
  function RentalRecord(start: Record, r: Rental, nameOfFolder: Option<string>, values: Option<Values>): Record
  {
    var r1 := Overlay(start, DistanceKey(r), ReturnValueFromPropertieFile(values, DistanceKey(r)));
    if ReturnValueFromPropertieFile(values, DistanceKey(r)).None? then r1 else
    var r2 := Overlay(r1, Discount, ReturnValueFromPropertieFile(values, Discount));
    if ReturnValueFromPropertieFile(values, Discount).None? then r2 else
    var r3 := Overlay(r2, DiscountProm, ReturnValueFromPropertieFile(values, DiscountProm));
    if ReturnValueFromPropertieFile(values, DiscountProm).None? then r3 else
    var r4 := Overlay(r3, UnitPriceKey(r.vehicle.typeOfVehicle), Some(IntToString(r.vehicle.purchasePrice)));
    Overlay(r4, FolderPath, Some(RentalBillPath(r, nameOfFolder)))
  }

  /** Whether every value `writeForRentalInPropertiesFile` reads from
      `values.properties` is there. */
  predicate ValuesPresent(r: Rental, values: Option<Values>)
  {
    ReturnValueFromPropertieFile(values, DistanceKey(r)).Some? && ReturnValueFromPropertieFile(values, Discount).Some? && ReturnValueFromPropertieFile(values, DiscountProm).Some?
  }

  /** Without `values.properties` nothing is missing: every value reads as "". */
  lemma NoValuesFileMeansEmptyValues(r: Rental)
    ensures ValuesPresent(r, None)
    ensures ReturnValueFromPropertieFile(None, DistanceKey(r)) == ReturnValueFromPropertieFile(None, Discount) == ReturnValueFromPropertieFile(None, DiscountProm) == Some("")
  {
  }

  /** A company value missing leaves the rental's record empty, whatever it
      held before. */
  lemma MissingValueEmptiesRecord(start: Record, r: Rental, nameOfFolder: Option<string>, values: Option<Values>)
    requires !ValuesPresent(r, values)
    ensures RentalRecord(start, r, nameOfFolder, values) == map[]
  {
  }

  /** What a rental's record holds once written: the distance key the
      narrow test picks, with the company's value for it; both discounts;
      the vehicle's purchase price under the unit-price key of its type; and
      the bill path. Every other key keeps its value, including the other
      distance key or another unit-price key if the record already had one,
      and a record that did not exist holds these five keys only. */
  lemma RentalRecordContents(start: Record, r: Rental, nameOfFolder: Option<string>, values: Option<Values>)
    requires ValuesPresent(r, values)
    ensures var stored := RentalRecord(start, r, nameOfFolder, values);
            var unitKey := UnitPriceKey(r.vehicle.typeOfVehicle);
            var written := {DistanceKey(r), Discount, DiscountProm, unitKey, FolderPath};
            && stored.Keys == start.Keys + written
            && Some(stored[DistanceKey(r)]) == ReturnValueFromPropertieFile(values, DistanceKey(r))
            && Some(stored[Discount]) == ReturnValueFromPropertieFile(values, Discount)
            && Some(stored[DiscountProm]) == ReturnValueFromPropertieFile(values, DiscountProm)
            && stored[unitKey] == IntToString(r.vehicle.purchasePrice)
            && stored[FolderPath] == RentalBillPath(r, nameOfFolder)
            && (forall k | k in start && k !in written :: stored[k] == start[k])
  {
    var unitKey := UnitPriceKey(r.vehicle.typeOfVehicle);
    var r1 := Overlay(start, DistanceKey(r), ReturnValueFromPropertieFile(values, DistanceKey(r)));
    var r2 := Overlay(r1, Discount, ReturnValueFromPropertieFile(values, Discount));
    var r3 := Overlay(r2, DiscountProm, ReturnValueFromPropertieFile(values, DiscountProm));
    var r4 := Overlay(r3, unitKey, Some(IntToString(r.vehicle.purchasePrice)));
    assert RentalRecord(start, r, nameOfFolder, values) == Overlay(r4, FolderPath, Some(RentalBillPath(r, nameOfFolder)));
  }

  /** The files after one `addOrUpdatePropertiesFile(key, value, fileName)`. */
  function Upsert(records: map<string, Record>, fileName: string, key: Key, value: Option<string>): map<string, Record>
  {
    records[fileName := Overlay(RecordOf(records, fileName), key, value)]
  }

  /** The files after the upserts of `writeForRentalInPropertiesFile`, one
      call after the other, the first `null` value ending the run. */
  function RentalUpserts(records: map<string, Record>, r: Rental, nameOfFolder: Option<string>, values: Option<Values>): map<string, Record>
  {
    var fileName := FileName(r.IdOfRental());
    var m1 := Upsert(records, fileName, DistanceKey(r), ReturnValueFromPropertieFile(values, DistanceKey(r)));
    if ReturnValueFromPropertieFile(values, DistanceKey(r)).None? then m1 else
    var m2 := Upsert(m1, fileName, Discount, ReturnValueFromPropertieFile(values, Discount));
    if ReturnValueFromPropertieFile(values, Discount).None? then m2 else
    var m3 := Upsert(m2, fileName, DiscountProm, ReturnValueFromPropertieFile(values, DiscountProm));
    if ReturnValueFromPropertieFile(values, DiscountProm).None? then m3 else
    var m4 := Upsert(m3, fileName, UnitPriceKey(r.vehicle.typeOfVehicle), Some(IntToString(r.vehicle.purchasePrice)));
    Upsert(m4, fileName, FolderPath, Some(RentalBillPath(r, nameOfFolder)))
  }

  /** The upserts touch the rental's record alone, and leave it as
      `RentalRecord` says. */
  lemma RentalUpsertsWriteRecord(records: map<string, Record>, r: Rental, nameOfFolder: Option<string>, values: Option<Values>)
    ensures var fileName := FileName(r.IdOfRental());
            RentalUpserts(records, r, nameOfFolder, values) ==
            records[fileName := RentalRecord(RecordOf(records, fileName), r, nameOfFolder, values)]
  {
    var fileName := FileName(r.IdOfRental());
    var start := RecordOf(records, fileName);
    var r1 := Overlay(start, DistanceKey(r), ReturnValueFromPropertieFile(values, DistanceKey(r)));
    var r2 := Overlay(r1, Discount, ReturnValueFromPropertieFile(values, Discount));
    var r3 := Overlay(r2, DiscountProm, ReturnValueFromPropertieFile(values, DiscountProm));
    var r4 := Overlay(r3, UnitPriceKey(r.vehicle.typeOfVehicle), Some(IntToString(r.vehicle.purchasePrice)));
    UpsertAgain(records, fileName, r1, Discount, ReturnValueFromPropertieFile(values, Discount));
    UpsertAgain(records, fileName, r2, DiscountProm, ReturnValueFromPropertieFile(values, DiscountProm));
    UpsertAgain(records, fileName, r3, UnitPriceKey(r.vehicle.typeOfVehicle), Some(IntToString(r.vehicle.purchasePrice)));
    UpsertAgain(records, fileName, r4, FolderPath, Some(RentalBillPath(r, nameOfFolder)));
  }

  /** Upserting a file that was just set updates that record alone. */
  lemma UpsertAgain(records: map<string, Record>, fileName: string, record: Record, key: Key, value: Option<string>)
    ensures Upsert(records[fileName := record], fileName, key, value) == records[fileName := Overlay(record, key, value)]
  {
  }

  /** The rentals' records after `writeInPropertieFile`: one rental after
      the other, the first failing one ending the walk. */
  function WrittenRecords(records: map<string, Record>, rentals: seq<Rental>, nameOfFolder: Option<string>,
                          values: Option<Values>): map<string, Record>
    decreases |rentals|
  {
    if |rentals| == 0 then records
    else
      var fileName := FileName(rentals[0].IdOfRental());
      var next := records[fileName := RentalRecord(RecordOf(records, fileName), rentals[0], nameOfFolder, values)];
      if !ValuesPresent(rentals[0], values) then next
      else WrittenRecords(next, rentals[1..], nameOfFolder, values)
  }

  /** A rental's record holds the values writing that rental put there
      from the company's values. */
  ghost predicate RecordHolds(records: map<string, Record>, r: Rental, nameOfFolder: Option<string>, values: Option<Values>)
  {
    var fileName := FileName(r.IdOfRental());
    fileName in records &&
    var record := records[fileName];
    DistanceKey(r) in record && Some(record[DistanceKey(r)]) == ReturnValueFromPropertieFile(values, DistanceKey(r)) &&
    Discount in record && Some(record[Discount]) == ReturnValueFromPropertieFile(values, Discount) &&
    DiscountProm in record && Some(record[DiscountProm]) == ReturnValueFromPropertieFile(values, DiscountProm) &&
    FolderPath in record && record[FolderPath] == BillPath(FolderText(nameOfFolder), fileName)
  }

  /** Writing one more rental, not short of values, keeps what another
      rental's record holds. */
  lemma WriteKeepsRecordHolds(records: map<string, Record>, s: Rental, r: Rental,
                              nameOfFolder: Option<string>, values: Option<Values>)
    requires RecordHolds(records, r, nameOfFolder, values)
    requires ValuesPresent(s, values)
    ensures var fileName := FileName(s.IdOfRental());
            RecordHolds(records[fileName := RentalRecord(RecordOf(records, fileName), s, nameOfFolder, values)],
                        r, nameOfFolder, values)
  {
    var fileName := FileName(s.IdOfRental());
    RentalRecordContents(RecordOf(records, fileName), s, nameOfFolder, values);
  }

  /** Writing more rentals, none of them short of values, keeps what an
      earlier rental's record holds. */
  lemma {:induction false} RecordHoldsLater(records: map<string, Record>, rentals: seq<Rental>, r: Rental,
                                            nameOfFolder: Option<string>, values: Option<Values>)
    requires RecordHolds(records, r, nameOfFolder, values)
    requires forall i | 0 <= i < |rentals| :: ValuesPresent(rentals[i], values)
    ensures RecordHolds(WrittenRecords(records, rentals, nameOfFolder, values), r, nameOfFolder, values)
    decreases |rentals|
  {
    if |rentals| > 0 {
      var s := rentals[0];
      var fileName := FileName(s.IdOfRental());
      var next := records[fileName := RentalRecord(RecordOf(records, fileName), s, nameOfFolder, values)];
      WriteKeepsRecordHolds(records, s, r, nameOfFolder, values);
      assert forall i | 0 <= i < |rentals[1..]| :: rentals[1..][i] == rentals[i + 1];
      RecordHoldsLater(next, rentals[1..], r, nameOfFolder, values);
    }
  }

  /** Writing every record leaves the files of other names alone. */
  lemma {:induction false} WrittenRecordsKeepOthers(records: map<string, Record>, rentals: seq<Rental>,
                                                    nameOfFolder: Option<string>, values: Option<Values>, f: string)
    requires forall i | 0 <= i < |rentals| :: FileName(rentals[i].IdOfRental()) != f
    ensures f in WrittenRecords(records, rentals, nameOfFolder, values) <==> f in records
    ensures f in records ==> WrittenRecords(records, rentals, nameOfFolder, values)[f] == records[f]
    decreases |rentals|
  {
    if |rentals| > 0 {
      var fileName := FileName(rentals[0].IdOfRental());
      var next := records[fileName := RentalRecord(RecordOf(records, fileName), rentals[0], nameOfFolder, values)];
      if ValuesPresent(rentals[0], values) {
        assert forall i | 0 <= i < |rentals[1..]| :: rentals[1..][i] == rentals[i + 1];
        WrittenRecordsKeepOthers(next, rentals[1..], nameOfFolder, values, f);
      }
    }
  }

  /** When nothing is missing from the company's values, writing every
      record leaves each rental's record with its distance key, both
      discounts and the bill path, as the company's values and the folder
      give them: a later rental with the same record name sets the same
      values. */
  lemma {:induction false} WrittenRecordsHold(records: map<string, Record>, rentals: seq<Rental>,
                                              nameOfFolder: Option<string>, values: Option<Values>)
    requires forall i | 0 <= i < |rentals| :: ValuesPresent(rentals[i], values)
    ensures forall i | 0 <= i < |rentals| ::
              RecordHolds(WrittenRecords(records, rentals, nameOfFolder, values), rentals[i], nameOfFolder, values)
    decreases |rentals|
  {
    if |rentals| > 0 {
      var r := rentals[0];
      var rest := rentals[1..];
      var fileName := FileName(r.IdOfRental());
      var next := records[fileName := RentalRecord(RecordOf(records, fileName), r, nameOfFolder, values)];
      var after := WrittenRecords(records, rentals, nameOfFolder, values);
      assert after == WrittenRecords(next, rest, nameOfFolder, values);
      assert forall i | 0 <= i < |rest| :: rest[i] == rentals[i + 1];
      WrittenRecordsHold(next, rest, nameOfFolder, values);
      RentalRecordContents(RecordOf(records, fileName), r, nameOfFolder, values);
      assert RecordHolds(next, r, nameOfFolder, values);
      RecordHoldsLater(next, rest, r, nameOfFolder, values);
      forall i | 0 <= i < |rentals| ensures RecordHolds(after, rentals[i], nameOfFolder, values) {
        if i > 0 {
          assert rentals[i] == rest[i - 1];
        }
      }
    }
  }

  // ---------------------------------------------------------------------
  // Settlement
  // ---------------------------------------------------------------------

  /** The unit-price key settlement reads: chosen by the letters of the
      record name, "A" before "B". */
  function SettlementUnitPriceKey(fileName: string): Key
  {
    if Contains(fileName, CAR_FIRST_LETTER) then CarUnitPrice
    else if Contains(fileName, BIKE_FIRST_LETTER) then BikeUnitPrice
    else ScooterUnitPrice
  }

  /** A capital letter lies in the record name exactly when it lies in the
      rental id. */
  lemma LetterInFileName(id: string, c: char)
    requires c != '_' && c != ':' && c !in EXTENSION
    ensures c in FileName(id) <==> c in id
  {
    var f := FileName(id);
    FileNameKeepsId(id);
    if c in id {
      var j :| 0 <= j < |id| && id[j] == c;
      assert f[j] == c;
    }
    if c in f {
      var j :| 0 <= j < |f| && f[j] == c;
      assert j < |id|;
    }
  }

  /** A letter lies in a rental id exactly when it lies in the date or in
      the vehicle id. */
  lemma LetterInId(r: Rental, c: char)
    requires c != ' '
    ensures c in r.IdOfRental() <==> c in r.rentalDateTime || c in r.vehicle.idOfVehicle
  {
    var id := r.IdOfRental();
    if c in r.vehicle.idOfVehicle {
      var j :| 0 <= j < |r.vehicle.idOfVehicle| && r.vehicle.idOfVehicle[j] == c;
      assert id[|r.rentalDateTime| + 1 + j] == c;
    }
  }

  /** When the only capital 'A' or 'B' of a rental id is the one that the
      vehicle id's letter gives its type (A for cars, B for bikes, neither
      for scooters), settlement reads the unit-price key writing used. */
  lemma SettlementReadsWrittenUnitPrice(r: Rental)
    requires 'A' !in r.rentalDateTime && 'B' !in r.rentalDateTime
    requires r.vehicle.typeOfVehicle == CAR ==> 'A' in r.vehicle.idOfVehicle
    requires r.vehicle.typeOfVehicle == BIKE ==> 'A' !in r.vehicle.idOfVehicle && 'B' in r.vehicle.idOfVehicle
    requires r.vehicle.typeOfVehicle != CAR && r.vehicle.typeOfVehicle != BIKE ==>
             'A' !in r.vehicle.idOfVehicle && 'B' !in r.vehicle.idOfVehicle
    ensures SettlementUnitPriceKey(FileName(r.IdOfRental())) == UnitPriceKey(r.vehicle.typeOfVehicle)
  {
    var f := FileName(r.IdOfRental());
    ContainsChar(f, 'A');
    ContainsChar(f, 'B');
    LetterInFileName(r.IdOfRental(), 'A');
    LetterInFileName(r.IdOfRental(), 'B');
    LetterInId(r, 'A');
    LetterInId(r, 'B');
  }

  /** `properties.getProperty(KeyName(k))` on a record. */
  function GetProperty(record: Record, k: Key): Option<string>
  {
    if k in record then Some(record[k]) else None
  }

  /** The unit price settlement reads; `None` is the exception of
      `Integer.parseInt` on a missing or malformed value. */
  function UnitPriceOf(record: Record, fileName: string): Option<int32>
  {
    ParseNullableInt(GetProperty(record, SettlementUnitPriceKey(fileName)))
  }

  /** The distance rate settlement reads. */
  function DistanceOf(record: Record, r: Rental): Option<real>
  {
    ParseNullableDecimal(GetProperty(record, DistanceKey(r)))
  }

  /** The loyalty discount: read only for the tenth driver of the name. */
  function DiscountOf(record: Record, driverCount: int32): Option<real>
  {
    if driverCount == DRIVER_COUNT then ParseNullableDecimal(GetProperty(record, Discount)) else Some(0.0)
  }

  /** The promotional discount: read only for a rental marked "da". */
  function DiscountPromOf(record: Record, r: Rental): Option<real>
  {
    if YES == r.promotion then ParseNullableDecimal(GetProperty(record, DiscountProm)) else Some(0.0)
  }

  /** What `readAndCalculateFromPropertiesFile` comes to: no record (price
      0, no bill), an exception (a value missing or unreadable, or a `null`
      folder name), or a bill with the prices it shows. */
  datatype Outcome =
    | NoRecord
    | Failed
    | Billed(unitPrice: int32, discount: real, discountProm: real, totalPrice: real)

  /** The returned price, `None` when the method throws. */
  function TotalPrice(o: Outcome): Option<real>
  {
    match o
    case NoRecord => Some(0.0)
    case Failed => None
    case Billed(_, _, _, totalPrice) => Some(totalPrice)
  }

  /** Settlement of a rental from the records, the number of drivers made
      under its driver's name, and the folder name. */
  function Settlement(r: Rental, records: map<string, Record>, driverCount: int32, nameOfFolder: Option<string>): Outcome
  {
    var fileName := FileName(r.IdOfRental());
    if fileName !in records then NoRecord
    else
      var record := records[fileName];
      var unitPrice := UnitPriceOf(record, fileName);
      var distance := DistanceOf(record, r);
      var discount := DiscountOf(record, driverCount);
      var discountProm := DiscountPromOf(record, r);
      if unitPrice.None? || distance.None? || discount.None? || discountProm.None? || nameOfFolder.None? then Failed
      else
        var price := CalculatePrices(unitPrice.value, r.usageDurationInSeconds, distance.value, discount.value, discountProm.value);
        Billed(unitPrice.value, discount.value, discountProm.value,
               if YES == r.malfunction.hasMalfunction then 0.0 else price)
  }

  /** The bill files after a settlement: its bill written when it is
      billed, nothing otherwise. */
  function TextsAfter(texts: map<string, seq<string>>, r: Rental, o: Outcome, nameOfFolder: Option<string>,
                      show: real -> string): map<string, seq<string>>
  {
    if o.Billed? && nameOfFolder.Some? then
      texts[BillPath(nameOfFolder.value, FileName(r.IdOfRental())) :=
            BillLines(r, o.unitPrice, r.usageDurationInSeconds, o.discount, o.discountProm, o.totalPrice, show)]
    else texts
  }

  /** A rental that broke down costs nothing, whatever else holds. */
  lemma MalfunctionSettlesAtZero(r: Rental, records: map<string, Record>, driverCount: int32, nameOfFolder: Option<string>)
    requires r.malfunction.hasMalfunction == "da"
    ensures TotalPrice(Settlement(r, records, driverCount, nameOfFolder)) in {None, Some(0.0)}
  {
  }

  /** Without a record there is nothing to settle: the price is 0. */
  lemma MissingRecordSettlesAtZero(r: Rental, records: map<string, Record>, driverCount: int32, nameOfFolder: Option<string>)
    requires FileName(r.IdOfRental()) !in records
    ensures Settlement(r, records, driverCount, nameOfFolder) == NoRecord
    ensures TotalPrice(Settlement(r, records, driverCount, nameOfFolder)) == Some(0.0)
  {
  }

  /** The loyalty discount applies to the tenth driver of a name and no
      other; the promotion only to rentals marked "da". */
  lemma DiscountsApplyOnlyWhenDue(r: Rental, records: map<string, Record>, driverCount: int32, nameOfFolder: Option<string>)
    ensures var o := Settlement(r, records, driverCount, nameOfFolder);
            var record := RecordOf(records, FileName(r.IdOfRental()));
            && (o.Billed? && driverCount != 10 ==> o.discount == 0.0)
            && (o.Billed? && driverCount == 10 ==> Some(o.discount) == ParseNullableDecimal(GetProperty(record, Discount)))
            && (o.Billed? && r.promotion != "da" ==> o.discountProm == 0.0)
            && (o.Billed? && r.promotion == "da" ==> Some(o.discountProm) == ParseNullableDecimal(GetProperty(record, DiscountProm)))
  {
  }

  /** Settlement fails exactly when a value it reads is missing or
      unreadable, or the folder name is `null`; otherwise a rental that did
      not break down is charged the price formula on its record's unit price
      and distance rate with the discounts that are due. */
  lemma SettlementCases(r: Rental, records: map<string, Record>, driverCount: int32, nameOfFolder: Option<string>)
    requires FileName(r.IdOfRental()) in records
    ensures var fileName := FileName(r.IdOfRental());
            var record := records[fileName];
            var o := Settlement(r, records, driverCount, nameOfFolder);
            && (o.Failed? <==> UnitPriceOf(record, fileName).None? || DistanceOf(record, r).None? ||
                               DiscountOf(record, driverCount).None? || DiscountPromOf(record, r).None? ||
                               nameOfFolder.None?)
            && (o.Billed? ==> Some(o.unitPrice) == UnitPriceOf(record, fileName))
            && (o.Billed? && r.malfunction.hasMalfunction != "da" ==>
                  o.totalPrice == CalculatePrices(o.unitPrice, r.usageDurationInSeconds, DistanceOf(record, r).value,
                                                  o.discount, o.discountProm))
  {
  }

  /** Settling a rental whose record was just written reads back the
      vehicle's purchase price as the unit price, and the distance rate and
      the discounts from the company's values: it fails only when one of
      those that is due does not parse, or the folder name is `null`. */
  lemma WrittenRecordSettles(records: map<string, Record>, r: Rental, driverCount: int32,
                             nameOfFolder: Option<string>, values: Option<Values>)
    requires ValuesPresent(r, values)
    requires 'A' !in r.rentalDateTime && 'B' !in r.rentalDateTime
    requires r.vehicle.typeOfVehicle == CAR ==> 'A' in r.vehicle.idOfVehicle
    requires r.vehicle.typeOfVehicle == BIKE ==> 'A' !in r.vehicle.idOfVehicle && 'B' in r.vehicle.idOfVehicle
    requires r.vehicle.typeOfVehicle != CAR && r.vehicle.typeOfVehicle != BIKE ==>
             'A' !in r.vehicle.idOfVehicle && 'B' !in r.vehicle.idOfVehicle
    ensures var fileName := FileName(r.IdOfRental());
            var written := records[fileName := RentalRecord(RecordOf(records, fileName), r, nameOfFolder, values)];
            var record := written[fileName];
            && fileName in written
            && UnitPriceOf(record, fileName) == Some(r.vehicle.purchasePrice)
            && DistanceOf(record, r) == ParseNullableDecimal(ReturnValueFromPropertieFile(values, DistanceKey(r)))
            && GetProperty(record, Discount) == ReturnValueFromPropertieFile(values, Discount)
            && GetProperty(record, DiscountProm) == ReturnValueFromPropertieFile(values, DiscountProm)
  {
    var fileName := FileName(r.IdOfRental());
    RentalRecordContents(RecordOf(records, fileName), r, nameOfFolder, values);
    SettlementReadsWrittenUnitPrice(r);
    ParseIntRoundTrip(r.vehicle.purchasePrice);
  }

  // ---------------------------------------------------------------------
  // The bill
  // ---------------------------------------------------------------------

  function BoolToString(b: bool): string
  {
    if b then "true" else "false"
  }

  /** A line of the bill: its caption, the separator that ends the
      caption, a blank and the value. */
  function BillLine(caption: string, separator: char, value: string): string
  {
    caption + [separator, ' '] + value
  }

  /** The captions of the bill's 13 lines, in order. */
  const BILL_CAPTIONS: seq<string> :=
    ["Datum iznajmljivanja", "Korisnik koji iznajmljuje", "ID vozila je", "Cijena nabavke vozila je",
     "Pocetna lokacija je", "Odredisna lokacija je", "Trajanje je", "Da li ima kvar", "Da li ima promociju",
     "Popust iznosi", "Promocija iznosi", "Ukupna cijena za placanje je", "Da li je voznja u uzem dijelu grada"]

  /** The character that ends each caption: the two yes/no questions end
      in '?', the other captions in ':'. */
  const BILL_SEPARATORS: seq<char> := [':', ':', ':', ':', ':', ':', ':', '?', '?', ':', ':', ':', ':']

  /** The values the bill's lines show, in order; `show` is
      `Double.toString`. */
  function BillValues(r: Rental, unitPrice: int32, usageDurationInSeconds: int32, discount: real,
                      discountProm: real, totalPrice: real, show: real -> string): (values: seq<string>)
    ensures |values| == 13
  {
    [r.rentalDateTime,
     r.driver.nameOfTheDriver,
     r.vehicle.idOfVehicle,
     IntToString(unitPrice),
     IntToString(r.firstStartCoordinate) + "," + IntToString(r.secondStartCoordinate),
     IntToString(r.firstFinishCoordinate) + "," + IntToString(r.secondFinishCoordinate),
     IntToString(usageDurationInSeconds),
     r.malfunction.hasMalfunction,
     r.promotion,
     show(discount),
     show(discountProm),
     show(totalPrice),
     BoolToString(IsNarrow(r))]
  }

  /** The 13 lines `writeInTxtFile` prints: each caption with its value. */
  function BillLines(r: Rental, unitPrice: int32, usageDurationInSeconds: int32, discount: real,
                     discountProm: real, totalPrice: real, show: real -> string): (lines: seq<string>)
    ensures |lines| == 13
  {
    var values := BillValues(r, unitPrice, usageDurationInSeconds, discount, discountProm, totalPrice, show);
    seq(13, k requires 0 <= k < 13 => BillLine(BILL_CAPTIONS[k], BILL_SEPARATORS[k], values[k]))
  }

  // ---------------------------------------------------------------------
  // The files
  // ---------------------------------------------------------------------

  /** The working directory: the rentals' properties records by file name
      and the text files (bills) by path. */
  class Disk {
    var records: map<string, Record>
    var texts: map<string, seq<string>>

    constructor(records: map<string, Record>, texts: map<string, seq<string>>)
      ensures this.records == records && this.texts == texts
    {
      this.records := records;
      this.texts := texts;
    }

    /** `addOrUpdatePropertiesFile(key, value, fileName)`: loads the record
        if it exists, opens it for writing (emptying it), sets the key and
        stores the result; `ok` is false when `value` is `null`, whose
        `NullPointerException` escapes with the file left empty. */
    method AddOrUpdatePropertiesFile(key: Key, value: Option<string>, fileName: string) returns (ok: bool)
      modifies this`records
      ensures ok <==> value.Some?
      ensures records == Upsert(old(records), fileName, key, value)
    {
      var properties: Record := map[];
      if fileName in records {
        properties := records[fileName];
      }
      records := records[fileName := map[]];
      if value.None? {
        return false;
      }
      properties := properties[key := value.value];
      records := records[fileName := properties];
      return true;
    }

    /** `writeForRentalInPropertiesFile(rental, nameOfFolder)`, reading the
        company's values from `values`; `ok` is false when one of them is
        missing, which throws out of the call. */
    method WriteForRentalInPropertiesFile(r: Rental, nameOfFolder: Option<string>, values: Option<Values>)
      returns (ok: bool)
      modifies this`records
      ensures ok <==> ValuesPresent(r, values)
      ensures var fileName := FileName(r.IdOfRental());
              records == old(records)[fileName := RentalRecord(RecordOf(old(records), fileName), r, nameOfFolder, values)]
    {
      RentalUpsertsWriteRecord(records, r, nameOfFolder, values);
      var typeOfVehicle := r.vehicle.typeOfVehicle;
      var vehicleUnitPrice := IntToString(r.vehicle.purchasePrice);
      var fileName := FileName(r.IdOfRental());
      var txtFilePath := FolderText(nameOfFolder) + SEPARATOR + RemoveAll(fileName, EXTENSION) + TXT;
      if CheckIfIsDistanceNarrow(r.firstStartCoordinate, r.secondStartCoordinate,
                                 r.firstFinishCoordinate, r.secondFinishCoordinate) {
        ok := AddOrUpdatePropertiesFile(DistanceNarrow, ReturnValueFromPropertieFile(values, DistanceNarrow), fileName);
      } else {
        ok := AddOrUpdatePropertiesFile(DistanceWide, ReturnValueFromPropertieFile(values, DistanceWide), fileName);
      }
      if !ok {
        return;
      }
      ok := AddOrUpdatePropertiesFile(Discount, ReturnValueFromPropertieFile(values, Discount), fileName);
      if !ok {
        return;
      }
      ok := AddOrUpdatePropertiesFile(DiscountProm, ReturnValueFromPropertieFile(values, DiscountProm), fileName);
      if !ok {
        return;
      }
      if typeOfVehicle == CAR {
        ok := AddOrUpdatePropertiesFile(CarUnitPrice, Some(vehicleUnitPrice), fileName);
      } else if typeOfVehicle == BIKE {
        ok := AddOrUpdatePropertiesFile(BikeUnitPrice, Some(vehicleUnitPrice), fileName);
      } else {
        ok := AddOrUpdatePropertiesFile(ScooterUnitPrice, Some(vehicleUnitPrice), fileName);
      }
      ok := AddOrUpdatePropertiesFile(FolderPath, Some(txtFilePath), fileName);
    }

    /** `writeInPropertieFile(rentals)`: writes every rental's record in
        order; a missing company value throws out of the loop. */
    method WriteInPropertieFile(rentals: seq<Rental>, nameOfFolder: Option<string>, values: Option<Values>)
      returns (ok: bool)
      modifies this`records
      ensures ok <==> forall i | 0 <= i < |rentals| :: ValuesPresent(rentals[i], values)
      ensures records == WrittenRecords(old(records), rentals, nameOfFolder, values)
    {
      var i := 0;
      while i < |rentals|
        invariant 0 <= i <= |rentals|
        invariant forall j | 0 <= j < i :: ValuesPresent(rentals[j], values)
        invariant WrittenRecords(records, rentals[i..], nameOfFolder, values) ==
                  WrittenRecords(old(records), rentals, nameOfFolder, values)
      {
        assert rentals[i..][0] == rentals[i] && rentals[i..][1..] == rentals[i + 1..];
        ok := WriteForRentalInPropertiesFile(rentals[i], nameOfFolder, values);
        if !ok {
          return;
        }
        i := i + 1;
      }
      return true;
    }

    /** `writeInTxtFile`: the bill, 13 lines, at the path the folder and the
        record name give. */
    method WriteInTxtFile(r: Rental, folder: string, fileName: string, unitPrice: int32, usageDurationInSeconds: int32,
                          discount: real, discountProm: real, totalPrice: real, show: real -> string)
      modifies this`texts
      ensures texts == old(texts)[BillPath(folder, fileName) :=
                                  BillLines(r, unitPrice, usageDurationInSeconds, discount, discountProm, totalPrice, show)]
    {
      var lines := BillLines(r, unitPrice, usageDurationInSeconds, discount, discountProm, totalPrice, show);
      texts := texts[folder + SEPARATOR + RemoveAll(fileName, EXTENSION) + TXT := lines];
    }

    /** `readAndCalculateFromPropertiesFile(rental)`: reads the rental's
        record, prices the rental and writes its bill; `None` when it
        throws. `show` is `Double.toString`. */
    method ReadAndCalculateFromPropertiesFile(r: Rental, registry: DriverRegistry, nameOfFolder: Option<string>,
                                              show: real -> string)
      returns (totalPrice: Option<real>)
      modifies this`texts
      ensures var o := Settlement(r, records, registry.GetDriverCount(r.driver.nameOfTheDriver), nameOfFolder);
              && totalPrice == TotalPrice(o)
              && texts == TextsAfter(old(texts), r, o, nameOfFolder, show)
    {
      ghost var o := Settlement(r, records, registry.GetDriverCount(r.driver.nameOfTheDriver), nameOfFolder);
      totalPrice := Some(0.0);
      var fileName := FileName(r.IdOfRental());
      if fileName !in records {
        assert o == NoRecord;
        return;
      }
      var properties := records[fileName];
      var usageDurationInSeconds := r.usageDurationInSeconds;
      var unitPrice := UnitPriceOf(properties, fileName);
      if unitPrice.None? {
        return None;
      }
      var distance := DistanceOf(properties, r);
      if distance.None? {
        return None;
      }
      var discount := DiscountOf(properties, registry.GetDriverCount(r.driver.nameOfTheDriver));
      if discount.None? {
        return None;
      }
      var discountProm := DiscountPromOf(properties, r);
      if discountProm.None? {
        return None;
      }
      if nameOfFolder.None? {
        return None;
      }
      var folder := nameOfFolder.value;
      var total := CalculatePrices(unitPrice.value, usageDurationInSeconds, distance.value, discount.value, discountProm.value);
      if YES == r.malfunction.hasMalfunction {
        total := 0.0;
      }
      assert o == Billed(unitPrice.value, discount.value, discountProm.value, total);
      WriteInTxtFile(r, folder, fileName, unitPrice.value, usageDurationInSeconds, discount.value, discountProm.value, total, show);
      totalPrice := Some(total);
    }
  }
}
