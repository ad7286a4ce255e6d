# Vehicle rental company: a Dafny model of the rental core

The system simulates an electric-vehicle rental company on a 20 x 20 city grid.
It works in four stages:

1. **Loading.** Rentals are read from a comma-separated file. Rentals of unknown vehicles are dropped, and so are on-grid duplicates. Each line finds or makes its driver, and a new driver bumps a process-wide count of drivers per name.
2. **Records.** Every rental gets a pricing record: a properties file named after the rental id.
3. **Simulation.** Rentals run in groups of equal timestamp. Before its rental, each vehicle is charged. A vehicle that broke down shows a marker where it stands; any other vehicle drives across the grid one cell per step, losing one battery unit per step. Each rental is then settled: its price is computed from its record and a 13-line bill is written. The grid is cleared after every group.
4. **Reports.** The report reads the bills back, groups them by day and totals the income, discounts, repairs and tax.

The model has one module per source unit.

- `Java` (`java.dfy`): 32-bit `int` arithmetic with wrap-around; `Math.abs`; `/`; `null` as `Option`.
- `JavaString` (`jstring.dfy`): the `String`, `Integer` and `Double` operations the code uses: `trim`, `indexOf`, `split`, `replace`, `contains`, `compareTo`, `Integer.toString`/`parseInt`, `Double.parseDouble`.
- `Vehicles` (`vehicles.dfy`): `Vehicle` and its three subclasses as one class. Its battery field is the state that changes.
- `Drivers` (`drivers.dfy`): `Driver`, and the static `driverCountMap` as a `DriverRegistry` object.
- `CityGrid` (`city_grid.dfy`): `MainFrame`'s two maps, `city` and `previousPosition`. Its four operations are proved against pure functions on a `Grid` value.
- `Rentals` (`rentals.dfy`): the `Rental` value and `run()`, whose two loops are proved against the path and move sequences of a rental.
- `RentalCalculator` (`rental_calculator.dfy`): records, pricing, settlement and the bill file. The working directory is a `Disk` object holding maps of records and text files.
- `ReadRentals` (`read_rentals.dfy`): `readRentals` one line at a time, `findOrCreateDriver`, the stable sort by timestamp.
- `Simulation` (`simulation.dfy`): `simulationOfRentals`: grouping by timestamp, then dispatching and settling every group in a sequential schedule.
- `Reports` (`reports.dfy`): `Report`: bill parsing, grouping by day, and the aggregates.

Inputs the program reads from the environment become parameters:

- the rentals file is `content`;
- the vehicle catalog is `vehicles`, a sequence in the set's iteration order;
- the listing of the bills folder is `files`;
- `values.properties` is `values`;
- `FOLDER_NAME` is `nameOfFolder`;
- `Double.toString` is `show`.

## Model

| member | source | states |
|---|---|---|
| `Vehicles.Vehicle.Car` | src/org/unibl/etf/epj2/vehicles/ElectricCar.java:41-46 | A new car has the given fields, a full battery (100) and passenger capacity. |
| `Vehicles.Vehicle.Bike` | src/org/unibl/etf/epj2/vehicles/ElectricBike.java:35-38 | A new bike has the given fields, a full battery and no passenger capacity. |
| `Vehicles.Vehicle.Scooter` | src/org/unibl/etf/epj2/vehicles/ElectricScooter.java:30-33 | A new scooter has the given fields, a full battery and no passenger capacity. |
| `Vehicles.Vehicle.ChargeBatteryLevel` | src/org/unibl/etf/epj2/vehicles/Vehicle.java:199-201 | Whatever the level was, the battery becomes exactly 100. |
| `Vehicles.Vehicle.DecreaseBatteryLevel` | src/org/unibl/etf/epj2/vehicles/Vehicle.java:208-210 | The field drops by one, in `int`, with no floor. The returned value is `Reported(field)`: at least 5. |
| `Vehicles.Reported` | src/org/unibl/etf/epj2/vehicles/Vehicle.java:209 | `Math.max(5, field)`: never below 5; equal to the field when the field is 5 or more, otherwise 5. |
| `Vehicles.LevelAfterNext` | src/org/unibl/etf/epj2/vehicles/Vehicle.java:209 | After k+1 decreases the field is one below, with wrap-around, its value after k. |
| `Vehicles.LevelAfterAdd` | src/org/unibl/etf/epj2/vehicles/Vehicle.java:209 | j decreases after k decreases equal k+j decreases. |
| `Vehicles.ChargedThenDecreased` | src/org/unibl/etf/epj2/vehicles/Vehicle.java:199-210 | After a charge, the k-th decrease returns 100-k for 1 <= k <= 95. From the 95th decrease until the field wraps, it returns 5. |
| `Vehicles.EqualsIsEquivalence` | src/org/unibl/etf/epj2/vehicles/Vehicle.java:230-242 | `equals` (same runtime class, same id) is reflexive, symmetric and transitive, and is false for `null`. |
| `Vehicles.HashCodeAgreesWithEquals` | src/org/unibl/etf/epj2/vehicles/Vehicle.java:230-252 | Equal vehicles have equal hash codes. |
| `Drivers.Bumped` | src/org/unibl/etf/epj2/drivers/Driver.java:45 | One more driver of a name raises that name's count by one (in `int`) and leaves every other name's count unchanged. |
| `Drivers.BumpedAllSnoc` | src/org/unibl/etf/epj2/drivers/Driver.java:45 | Making drivers for a list of names, then one more, bumps the counts of the list and then that name. |
| `Drivers.BumpedAllOnce` | src/org/unibl/etf/epj2/drivers/Driver.java:45 | Making one driver per name of a list of distinct names raises each listed name's count by exactly one. Names not listed keep their count. |
| `Drivers.DriverRegistry.constructor` | src/org/unibl/etf/epj2/drivers/Driver.java:32 | The count map starts empty. |
| `Drivers.DriverRegistry.GetDriverCount` | src/org/unibl/etf/epj2/drivers/Driver.java:147-149 | The count is 0 for a name never constructed. |
| `Drivers.SetDriverNumbers` | src/org/unibl/etf/epj2/drivers/Driver.java:53-61 | The result has exactly n characters (none for a negative n), every one a decimal digit. |
| `Drivers.Driver.constructor` | src/org/unibl/etf/epj2/drivers/Driver.java:41-46 | A new driver has the name, an 8-digit id and a 10-digit licence number. The count of that name goes up by one and no other count changes. |
| `Drivers.DriverEqualsAndHashCode` | src/org/unibl/etf/epj2/drivers/Driver.java:116-139 | Driver equality, by name only, is an equivalence relation, and equal drivers have equal hash codes. |
| `CityGrid.RemoveFirst` | src/org/unibl/etf/epj2/epj2simulation/MainFrame.java:106 | `List.remove(Object)` drops exactly one occurrence when there is one, and nothing otherwise. |
| `CityGrid.RemoveFirstOfAppended` | src/org/unibl/etf/epj2/epj2simulation/MainFrame.java:106 | Removing an entry just appended, and absent before, restores the list. |
| `CityGrid.Appended` | src/org/unibl/etf/epj2/epj2simulation/MainFrame.java:114 | `computeIfAbsent(...).add` gives the cell its old labels plus the new one at the end. |
| `CityGrid.Detached` | src/org/unibl/etf/epj2/epj2simulation/MainFrame.java:104-110 | The cell loses one occurrence of the label and is removed from the map when that empties it. |
| `CityGrid.ChangesStayInTheirCell` | src/org/unibl/etf/epj2/epj2simulation/MainFrame.java:104-115 | Adding to or removing from one cell leaves every other cell, and its presence in the map, unchanged. |
| `CityGrid.ChangesKeepNoEmptyCells` | src/org/unibl/etf/epj2/epj2simulation/MainFrame.java:104-115 | Adding and removing never leave an empty cell in the map. |
| `CityGrid.IntToStringHasNoComma` | src/org/unibl/etf/epj2/epj2simulation/MainFrame.java:98 | A printed coordinate holds no comma, so the cell key "x,y" can be read back. |
| `CityGrid.PositionInjective` | src/org/unibl/etf/epj2/epj2simulation/MainFrame.java:98 | Different coordinate pairs give different cell keys. |
| `CityGrid.OldLabelOfStep` | src/org/unibl/etf/epj2/epj2simulation/MainFrame.java:100-103 | For the label id-level, the label removed is id-(level+1), the vehicle's label one step earlier. |
| `CityGrid.UpdateOfUnreadableLabel` | src/org/unibl/etf/epj2/epj2simulation/MainFrame.java:100-117 | A label whose battery part does not parse makes `updateMatrix` throw before it changes anything. |
| `CityGrid.UpdatePlacesLabel` | src/org/unibl/etf/epj2/epj2simulation/MainFrame.java:114-115 | After an update, `info` is the last label in cell "x,y" and is remembered there. Every other remembered label keeps its position. |
| `CityGrid.UpdateRemovesOldLabel` | src/org/unibl/etf/epj2/epj2simulation/MainFrame.java:104-110 | When the old label is remembered at a different cell, one occurrence of it is removed from that cell. |
| `CityGrid.UpdateLeavesOtherCells` | src/org/unibl/etf/epj2/epj2simulation/MainFrame.java:104-115 | Cells other than the old and the new one are unchanged, and so is their presence in the map. |
| `CityGrid.OperationsKeepNoEmptyCells` | src/org/unibl/etf/epj2/epj2simulation/MainFrame.java:96-159 | No operation, nor the timer expiry, leaves an empty cell in `city`. |
| `CityGrid.ExpiryUndoesShow` | src/org/unibl/etf/epj2/epj2simulation/MainFrame.java:136-156 | Take a marker shown in a cell that did not hold it. When its timer fires, the grid is exactly what it was before. |
| `CityGrid.DetachedAfterAppended` | src/org/unibl/etf/epj2/epj2simulation/MainFrame.java:139-151 | Removing an entry that was just appended to a cell, and absent before, restores the map. |
| `CityGrid.RestoredCell` | src/org/unibl/etf/epj2/epj2simulation/MainFrame.java:144-151 | Putting a cell's old labels back undoes any change to that cell. |
| `CityGrid.RemovedNewCell` | src/org/unibl/etf/epj2/epj2simulation/MainFrame.java:144-151 | Removing a cell that was added undoes the addition. |
| `CityGrid.ExpiryAfterClear` | src/org/unibl/etf/epj2/epj2simulation/MainFrame.java:123-151 | An expiry that fires after `clearMatrix` finds no cell and does nothing. |
| `CityGrid.MainFrame.constructor` | src/org/unibl/etf/epj2/epj2simulation/MainFrame.java:31-37 | Both maps start empty. |
| `CityGrid.MainFrame.UpdateMatrix` | src/org/unibl/etf/epj2/epj2simulation/MainFrame.java:96-118 | The new grid state is `Updated` of the old one. A missing old cell is skipped, as the caught `NullPointerException` there does. |
| `CityGrid.MainFrame.ClearMatrix` | src/org/unibl/etf/epj2/epj2simulation/MainFrame.java:123-128 | `city` becomes empty and `previousPosition` is kept. |
| `CityGrid.MainFrame.ShowContentAt` | src/org/unibl/etf/epj2/epj2simulation/MainFrame.java:136-140 | The content is appended to cell "x,y", and `previousPosition` is kept. |
| `CityGrid.MainFrame.ExpireContent` | src/org/unibl/etf/epj2/epj2simulation/MainFrame.java:141-156 | The timer's action: the content is removed once from its cell and the cell is dropped if that empties it. Nothing happens if the cell is gone. |
| `Rentals.IdOfRentalDeterminesParts` | src/org/unibl/etf/epj2/rentals/Rental.java:105 | For vehicle ids without spaces, the id `rentalDateTime + " " + vehicleId` determines both parts. |
| `Rentals.Toward` | src/org/unibl/etf/epj2/rentals/Rental.java:353-357 | Each `x1++`/`x1--` step brings the coordinate exactly one unit closer to its target. |
| `Rentals.PathFrom` | src/org/unibl/etf/epj2/rentals/Rental.java:352-378 | The two loops visit exactly \|x2-x1\| + \|y2-y1\| cells. |
| `Rentals.PathFromAt` | src/org/unibl/etf/epj2/rentals/Rental.java:352-378 | The k-th visited cell in closed form: a first-coordinate step while k < \|x2-x1\|, a second-coordinate step afterwards. |
| `Rentals.Path` | src/org/unibl/etf/epj2/rentals/Rental.java:343-378 | A rental's path has the Manhattan length of its start and finish. |
| `Rentals.PathAt` | src/org/unibl/etf/epj2/rentals/Rental.java:352-378 | Each cell of a rental's path in closed form. |
| `Rentals.PathIsWalk` | src/org/unibl/etf/epj2/rentals/Rental.java:352-378 | The first published cell is one step from the start, and the start itself is never published. Each cell is one step from the one before, and the last is the finish. |
| `Rentals.FirstCoordinateFirst` | src/org/unibl/etf/epj2/rentals/Rental.java:352-378 | No first-coordinate step comes after a second-coordinate step. |
| `Rentals.StepCount` | src/org/unibl/etf/epj2/rentals/Rental.java:347-378 | `run()` never takes more steps than its path has cells. |
| `Rentals.NumberOfFieldsIsDistance` | src/org/unibl/etf/epj2/rentals/Rental.java:347 | When the coordinates cannot overflow, the `int` field count equals the path length. |
| `Rentals.RunWalksWholePath` | src/org/unibl/etf/epj2/rentals/Rental.java:347-378 | Take a non-empty path and a duration in milliseconds that fits in an `int`. The delay is then (duration*1000) / steps, by integer division, and `run()` walks every cell. |
| `Rentals.MovesAlong` | src/org/unibl/etf/epj2/rentals/Rental.java:352-378 | One `updateMatrix` call per cell. |
| `Rentals.MovesAlongAt` | src/org/unibl/etf/epj2/rentals/Rental.java:352-378 | Call i passes the cell's second coordinate first, then its first, and the vehicle id with the battery value returned at that step. |
| `Rentals.RunMoves` | src/org/unibl/etf/epj2/rentals/Rental.java:352-378 | A full walk makes one call per cell of the path. |
| `Rentals.LabelsChainFromFullBattery` | src/org/unibl/etf/epj2/rentals/Rental.java:352-378 | From a full battery, step k publishes id-(100-k). For walks under 95 steps, each label names the previous step's label as the one for `updateMatrix` to remove. |
| `Rentals.ApplyMovesStep` | src/org/unibl/etf/epj2/rentals/Rental.java:352-378 | One more call extends the grid fold by that call. |
| `Rentals.StepIsMove` | src/org/unibl/etf/epj2/rentals/Rental.java:352-378 | The call `run()` makes at step k+1 is the k-th move of the walk. |
| `Rentals.Redraw` | src/org/unibl/etf/epj2/rentals/Rental.java:358 | One step lowers the battery once and applies one `updateMatrix(y1, x1, id-returnedLevel)`. |
| `Rentals.FirstLegCell` | src/org/unibl/etf/epj2/rentals/Rental.java:352-357 | The cell a first-loop step reaches is the next cell of the path. |
| `Rentals.SecondLegCell` | src/org/unibl/etf/epj2/rentals/Rental.java:366-371 | The cell a second-loop step reaches is the next cell of the path. |
| `Rentals.Advance` | src/org/unibl/etf/epj2/rentals/Rental.java:352-378 | After k steps, the grid and the battery are those of the first k steps of the walk. |
| `Rentals.FirstLegStep` | src/org/unibl/etf/epj2/rentals/Rental.java:351-356 | One pass of the first loop moves `x1` one unit toward its target. That is the next cell of the path, and after it the grid and the battery are those of one more step of the walk. |
| `Rentals.SecondLegStep` | src/org/unibl/etf/epj2/rentals/Rental.java:365-370 | One pass of the second loop moves `y1` one unit toward its target, with the same effect on the grid and the battery. |
| `Rentals.WalkFirstCoordinate` | src/org/unibl/etf/epj2/rentals/Rental.java:352-364 | The first loop closes the first coordinate: one step per unit, or a single step before a negative delay throws. |
| `Rentals.WalkSecondCoordinate` | src/org/unibl/etf/epj2/rentals/Rental.java:366-378 | The second loop closes the second coordinate, continuing the first loop's steps. |
| `Rentals.Run` | src/org/unibl/etf/epj2/rentals/Rental.java:342-379 | The battery ends `StepCount` decreases lower. The grid has received exactly the first `StepCount` calls of the walk, in order. |
| `RentalCalculator.KeyNameInjective` | src/org/unibl/etf/epj2/rentals/RentalCalculator.java:73-98 | The property keys have distinct names. |
| `RentalCalculator.NarrowIffInsideCentre` | src/org/unibl/etf/epj2/rentals/RentalCalculator.java:206-221 | A ride is narrow exactly when all four coordinates lie in [5, 14]; a narrow ride's whole path stays inside that square. |
| `RentalCalculator.DiscountsAreNotCompounded` | src/org/unibl/etf/epj2/rentals/RentalCalculator.java:336-340 | The total is gross*(1-(d+p)/100), with gross = unitPrice*duration*distance and the product wrapped in `int` first. This exceeds the compounded price by gross*d*p/10000. The two discounts commute, zero discounts give the gross price, and the `int` product equals the true product when it fits. |
| `RentalCalculator.FileName` | src/org/unibl/etf/epj2/rentals/RentalCalculator.java:143 | A record name never holds ':'. |
| `RentalCalculator.FileNameKeepsId` | src/org/unibl/etf/epj2/rentals/RentalCalculator.java:143 | The record name is the id with each ':' replaced by '_', every other character in place, followed by ".properties". |
| `RentalCalculator.ReturnValueFromPropertieFile` | src/org/unibl/etf/epj2/rentals/RentalCalculator.java:349-368 | Without `values.properties` the value is "". With the file it is the stored value, or `null` for a key the file lacks. |
| `RentalCalculator.NoValuesFileMeansEmptyValues` | src/org/unibl/etf/epj2/rentals/RentalCalculator.java:349-368 | Without `values.properties` no value is missing; every value reads as "". |
| `RentalCalculator.MissingValueEmptiesRecord` | src/org/unibl/etf/epj2/rentals/RentalCalculator.java:170-194 | A `null` company value truncates the record file, then `setProperty` throws, so the record is left empty. |
| `RentalCalculator.RentalRecordContents` | src/org/unibl/etf/epj2/rentals/RentalCalculator.java:136-160 | Writing stores the distance key the narrow test picks and both discounts, each with the company's value. It stores the unit-price key chosen by vehicle type with the purchase price, and `FOLDER_PATH` with the bill path. Every other key keeps its value, including the other distance key or another unit-price key if the record already had one. A record that did not exist holds these five keys only. |
| `RentalCalculator.RentalUpsertsWriteRecord` | src/org/unibl/etf/epj2/rentals/RentalCalculator.java:145-159 | The five upserts touch only the rental's own record file. |
| `RentalCalculator.UpsertAgain` | src/org/unibl/etf/epj2/rentals/RentalCalculator.java:170-194 | An upsert to a file just set overlays that record alone. |
| `RentalCalculator.WriteKeepsRecordHolds` | src/org/unibl/etf/epj2/rentals/RentalCalculator.java:116-126 | Writing another rental whose values are all present keeps what a rental's record holds. |
| `RentalCalculator.RecordHoldsLater` | src/org/unibl/etf/epj2/rentals/RentalCalculator.java:116-126 | Later rentals, none short of values, keep what an earlier record holds. |
| `RentalCalculator.WrittenRecordsKeepOthers` | src/org/unibl/etf/epj2/rentals/RentalCalculator.java:116-126 | Writing every record leaves files of other names unchanged. |
| `RentalCalculator.WrittenRecordsHold` | src/org/unibl/etf/epj2/rentals/RentalCalculator.java:116-160 | When no company value is missing, every rental's record holds its written values once all records are written. |
| `RentalCalculator.LetterInFileName` | src/org/unibl/etf/epj2/rentals/RentalCalculator.java:245-247 | A letter other than '_', ':' and those of ".properties" is in the record name exactly when it is in the id. |
| `RentalCalculator.LetterInId` | src/org/unibl/etf/epj2/rentals/Rental.java:105 | A letter is in a rental id exactly when it is in the date or in the vehicle id. |
| `RentalCalculator.SettlementReadsWrittenUnitPrice` | src/org/unibl/etf/epj2/rentals/RentalCalculator.java:245-251 | Settlement tests the name for "A", then "B", else scooter. When the id's letter agrees with the vehicle type, settlement reads the unit-price key that writing chose. |
| `RentalCalculator.MalfunctionSettlesAtZero` | src/org/unibl/etf/epj2/rentals/RentalCalculator.java:272-274 | A rental marked "da" for malfunction settles at 0, unless settlement throws first. |
| `RentalCalculator.MissingRecordSettlesAtZero` | src/org/unibl/etf/epj2/rentals/RentalCalculator.java:233-235 | Without a record there is no bill, and the price is 0. |
| `RentalCalculator.DiscountsApplyOnlyWhenDue` | src/org/unibl/etf/epj2/rentals/RentalCalculator.java:258-267 | The loyalty discount is read only when the driver count is exactly 10, else it is 0. The promotion is read only for "da", else it is 0. |
| `RentalCalculator.SettlementCases` | src/org/unibl/etf/epj2/rentals/RentalCalculator.java:235-275 | Settlement throws exactly when a value it reads is missing or unparsable, or the folder is `null`. Otherwise the bill carries the unit price read, and the price is `calculatePrices` of the values read unless the rental broke down. |
| `RentalCalculator.WrittenRecordSettles` | src/org/unibl/etf/epj2/rentals/RentalCalculator.java:245-264 | A record just written reads back the purchase price as the unit price, and the company's distance rate and discounts. |
| `RentalCalculator.BillValues` | src/org/unibl/etf/epj2/rentals/RentalCalculator.java:304-316 | A bill has 13 values. `Reports.BillValuesAre` states each one. |
| `RentalCalculator.BillLines` | src/org/unibl/etf/epj2/rentals/RentalCalculator.java:304-316 | A bill has 13 lines. `Reports.WrittenFields` shows that each line carries its value after its caption's separator. |
| `RentalCalculator.Disk.AddOrUpdatePropertiesFile` | src/org/unibl/etf/epj2/rentals/RentalCalculator.java:170-194 | The record is loaded (empty when the file is missing) and the key is set, all other keys kept. A `null` value leaves the file empty and throws. |
| `RentalCalculator.Disk.WriteForRentalInPropertiesFile` | src/org/unibl/etf/epj2/rentals/RentalCalculator.java:136-160 | Only the rental's own record changes, to `RentalRecord`. The call throws exactly when a company value is missing. |
| `RentalCalculator.Disk.WriteInPropertieFile` | src/org/unibl/etf/epj2/rentals/RentalCalculator.java:116-126 | Records are written in list order, and the first missing value throws out of the loop. |
| `RentalCalculator.Disk.WriteInTxtFile` | src/org/unibl/etf/epj2/rentals/RentalCalculator.java:301-322 | The bill's 13 lines are written at folder/name.txt, replacing any file there. |
| `RentalCalculator.Disk.ReadAndCalculateFromPropertiesFile` | src/org/unibl/etf/epj2/rentals/RentalCalculator.java:230-286 | The returned price and the bill written follow `Settlement` under the driver's current count. |
| `ReadRentals.CoordinatesCorrectIffOnGrid` | src/org/unibl/etf/epj2/rentals/ReadRentals.java:179-197 | The coordinates are correct exactly when all four lie in [0, 19]. A narrow ride always passes. |
| `ReadRentals.UnquotedNumber` | src/org/unibl/etf/epj2/rentals/ReadRentals.java:102-109 | A number with its quote removed parses back to the number. |
| `ReadRentals.ParseFormattedLine` | src/org/unibl/etf/epj2/rentals/ReadRentals.java:97-118 | A line written in the file's layout reads back as its row, when its text fields hold no comma and the promotion is not empty. |
| `ReadRentals.MalfunctionFor` | src/org/unibl/etf/epj2/rentals/ReadRentals.java:112-117 | The malfunction keeps the flag. It carries the rental date for "da" and the "nema" sentinel otherwise. |
| `ReadRentals.FindVehicle` | src/org/unibl/etf/epj2/rentals/ReadRentals.java:120-122 | The result is a catalog vehicle with the id, and is empty exactly when no vehicle has that id. |
| `ReadRentals.DataRows` | src/org/unibl/etf/epj2/rentals/ReadRentals.java:95-97 | One entry per line. `ReadRentals.LoadedFromIsClean` and `ReadRentals.DriverNamesAreNamedRows` state what they come to. |
| `ReadRentals.HeaderIsSkipped` | src/org/unibl/etf/epj2/rentals/ReadRentals.java:96 | Any line containing "Datum" yields nothing. |
| `ReadRentals.LoadRowCases` | src/org/unibl/etf/epj2/rentals/ReadRentals.java:120-134 | A row is accepted exactly when its vehicle is in the catalog and it is not an on-grid repeat of an accepted rental. It is then appended with a catalog vehicle carrying its id; otherwise nothing changes. |
| `ReadRentals.OffGridIsNeverDuplicate` | src/org/unibl/etf/epj2/rentals/ReadRentals.java:123-129 | A row with off-grid coordinates is accepted whenever its vehicle is in the catalog. |
| `ReadRentals.LoadedFromIsClean` | src/org/unibl/etf/epj2/rentals/ReadRentals.java:95-142 | An accepted row came from the file and drives a catalog vehicle with its id. No on-grid accepted row repeats the vehicle and timestamp of an earlier one. |
| `ReadRentals.DriverNamesDistinct` | src/org/unibl/etf/epj2/rentals/ReadRentals.java:159-168 | A pass makes at most one driver per name. |
| `ReadRentals.DriverNamesAreNamedRows` | src/org/unibl/etf/epj2/rentals/ReadRentals.java:119-140 | A pass makes a driver exactly for the names of its data lines that parse, accepted or not. |
| `ReadRentals.PassBumpsEachNameOnce` | src/org/unibl/etf/epj2/rentals/ReadRentals.java:92-119 | One pass raises a name's count by one when some parsing data line names it, accepted or not, and leaves it unchanged otherwise. |
| `ReadRentals.InsertByDate` | src/org/unibl/etf/epj2/rentals/ReadRentals.java:143-145 | Insertion adds exactly the one rental. |
| `ReadRentals.InsertKeepsSorted` | src/org/unibl/etf/epj2/rentals/ReadRentals.java:143-145 | Inserting into a sorted list keeps it sorted by `compareTo`. |
| `ReadRentals.InsertKeepsDates` | src/org/unibl/etf/epj2/rentals/ReadRentals.java:143-145 | Insertion keeps each timestamp's rentals in order. |
| `ReadRentals.SortByDatePermutes` | src/org/unibl/etf/epj2/rentals/ReadRentals.java:143-145 | The sort is a permutation. |
| `ReadRentals.SortByDateSorted` | src/org/unibl/etf/epj2/rentals/ReadRentals.java:143-145 | The sorted list is ordered by timestamp. |
| `ReadRentals.SortByDateKeepsDates` | src/org/unibl/etf/epj2/rentals/ReadRentals.java:143-145 | The sort is stable: rentals of one timestamp keep their file order. |
| `ReadRentals.SortByDateIsStableSort` | src/org/unibl/etf/epj2/rentals/ReadRentals.java:143-145 | The sort is a stable, ordered permutation. |
| `ReadRentals.NamesOf` | src/org/unibl/etf/epj2/rentals/ReadRentals.java:160-161 | One name per driver, in order. |
| `ReadRentals.FindDriver` | src/org/unibl/etf/epj2/rentals/ReadRentals.java:160-163 | The result is a listed driver with the name, and is empty exactly when no driver has it. |
| `ReadRentals.FindOrCreateDriver` | src/org/unibl/etf/epj2/rentals/ReadRentals.java:159-168 | Without a count change, the result is the listed driver with the name. Otherwise it is a fresh driver appended to the list, whose name's count goes up by one. The names stay distinct. |
| `ReadRentals.AcceptRow` | src/org/unibl/etf/epj2/rentals/ReadRentals.java:120-134 | The rentals follow the duplicate rule, and a new rental gets the line's driver. |
| `ReadRentals.ReadRentalRow` | src/org/unibl/etf/epj2/rentals/ReadRentals.java:96-140 | One line updates the rentals by the duplicate rule and the drivers by first appearance of names. The driver names stay distinct, and the count changes only for a new name. |
| `ReadRentals.ReadRentalsFrom` | src/org/unibl/etf/epj2/rentals/ReadRentals.java:87-151 | The rentals are the accepted lines in file order, returned stably sorted. A name's count rises once per pass in which it appears, and rentals of one name share one fresh driver. An unreadable file gives no rentals. |
| `Simulation.WithDateSnoc` | src/org/unibl/etf/epj2/epj2simulation/Epj2SimulationGui.java:218-223 | A rental added at the end joins its own timestamp's group, at the end. |
| `Simulation.WithDateHolds` | src/org/unibl/etf/epj2/epj2simulation/Epj2SimulationGui.java:218-223 | A group holds exactly the rentals of its timestamp. |
| `Simulation.DatesOfHolds` | src/org/unibl/etf/epj2/epj2simulation/Epj2SimulationGui.java:217-223 | The keys are distinct and are exactly the rentals' timestamps. |
| `Simulation.GroupNonEmptyIffDate` | src/org/unibl/etf/epj2/epj2simulation/Epj2SimulationGui.java:217-223 | A timestamp's group is non-empty exactly when the timestamp is a key. |
| `Simulation.ExactlyOneGroup` | src/org/unibl/etf/epj2/epj2simulation/Epj2SimulationGui.java:217-223 | Every rental lands in the group of its own timestamp and in no other. |
| `Simulation.ConcatGroupsSnoc` | src/org/unibl/etf/epj2/epj2simulation/Epj2SimulationGui.java:218-223 | Appending a rental adds it once to the groups when its key is among them. |
| `Simulation.ConcatGroupsSnocElsewhere` | src/org/unibl/etf/epj2/epj2simulation/Epj2SimulationGui.java:218-223 | A rental with a key outside the list leaves those groups unchanged. |
| `Simulation.DistinctFront` | src/org/unibl/etf/epj2/epj2simulation/Epj2SimulationGui.java:217 | All but the last of a list of distinct keys are distinct and do not include the last. |
| `Simulation.DatesOfSnoc` | src/org/unibl/etf/epj2/epj2simulation/Epj2SimulationGui.java:221 | `computeIfAbsent` adds a key only for a new timestamp. |
| `Simulation.NewDateGroup` | src/org/unibl/etf/epj2/epj2simulation/Epj2SimulationGui.java:221-222 | A rental with a new timestamp is alone in its group. |
| `Simulation.GroupsPartition` | src/org/unibl/etf/epj2/epj2simulation/Epj2SimulationGui.java:217-223 | Together the groups hold each rental exactly as often as the list does. |
| `Simulation.GroupSizesAddUp` | src/org/unibl/etf/epj2/epj2simulation/Epj2SimulationGui.java:217-223 | The group sizes add up to the number of rentals. |
| `Simulation.SortedIsContiguous` | src/org/unibl/etf/epj2/rentals/ReadRentals.java:143-145 | In a list sorted by timestamp, rentals of one timestamp stand together. |
| `Simulation.LastDateIsLastRentals` | src/org/unibl/etf/epj2/epj2simulation/Epj2SimulationGui.java:217-223 | With contiguous timestamps, the last key is the last rental's. |
| `Simulation.ContiguousFront` | src/org/unibl/etf/epj2/epj2simulation/Epj2SimulationGui.java:217-223 | Dropping the last rental keeps timestamps contiguous. |
| `Simulation.ConcatGroupsSnocLast` | src/org/unibl/etf/epj2/epj2simulation/Epj2SimulationGui.java:218-223 | A rental of the last key's timestamp goes to the end of the concatenated groups. |
| `Simulation.ConcatGroupsNewDate` | src/org/unibl/etf/epj2/epj2simulation/Epj2SimulationGui.java:218-223 | A rental with a new timestamp opens the last group and ends the concatenation. |
| `Simulation.GroupsOfContiguousRentals` | src/org/unibl/etf/epj2/epj2simulation/Epj2SimulationGui.java:217-223 | For sorted rentals, concatenating the groups in key order gives back the input. |
| `Simulation.GroupByDateTime` | src/org/unibl/etf/epj2/epj2simulation/Epj2SimulationGui.java:217-223 | The loop returns the keys in first-appearance order, and each group holds its timestamp's rentals in list order. |
| `Simulation.Failures` | src/org/unibl/etf/epj2/epj2simulation/Epj2SimulationGui.java:240-243 | No more settlements of a group throw than the group has rentals. `Simulation.NoFailuresIffAllSettle` states when there are none. |
| `Simulation.NoFailuresIffAllSettle` | src/org/unibl/etf/epj2/epj2simulation/Epj2SimulationGui.java:240-243 | No settlement of a group throws exactly when every rental of it settles. |
| `Simulation.RunTask` | src/org/unibl/etf/epj2/epj2simulation/Epj2SimulationGui.java:229-243 | Each vehicle is charged to 100. A "da" rental then shows id-100 at its start, and any other rental runs. The rental is settled on both branches. |
| `Simulation.FailuresNext` | src/org/unibl/etf/epj2/epj2simulation/Epj2SimulationGui.java:228 | The failure count grows by one rental per turn. |
| `Simulation.GridNext` | src/org/unibl/etf/epj2/epj2simulation/Epj2SimulationGui.java:228 | The grid after a group's tasks grows by one task per turn. |
| `Simulation.TextsNext` | src/org/unibl/etf/epj2/epj2simulation/Epj2SimulationGui.java:228 | The bill files after a group's settlements grow by one settlement per turn. |
| `Simulation.DispatchRental` | src/org/unibl/etf/epj2/epj2simulation/Epj2SimulationGui.java:228-244 | One turn runs and settles rental i. The price is absent exactly when its settlement throws. |
| `Simulation.ProcessGroup` | src/org/unibl/etf/epj2/epj2simulation/Epj2SimulationGui.java:226-246 | The latch starts at the group's size and ends at its number of failing settlements. The grid and the bills are those of the group's tasks in order. |
| `Simulation.ProcessGroupCountingDown` | src/org/unibl/etf/epj2/epj2simulation/Epj2SimulationGui.java:226-246 | With `countDown` run whatever settlement does, the latch always reaches zero, and the grid and the bills are as in `ProcessGroup`. |
| `Simulation.LoadedRentalsUseCatalog` | src/org/unibl/etf/epj2/rentals/ReadRentals.java:120-145 | The loaded rentals come back sorted, and every rental of a timestamp drives a catalog vehicle. |
| `Simulation.GroupsUseCatalog` | src/org/unibl/etf/epj2/epj2simulation/Epj2SimulationGui.java:215-223 | Every rental of every group drives a catalog vehicle. |
| `Simulation.RunEntry` | src/org/unibl/etf/epj2/epj2simulation/Epj2SimulationGui.java:225-250 | A group's latch stays up exactly when one of its settlements throws. When it opens, the grid is cleared. |
| `Simulation.RunGroups` | src/org/unibl/etf/epj2/epj2simulation/Epj2SimulationGui.java:224-255 | Groups run in key order. The first group with a throwing settlement blocks the run, every earlier group opened, and a finished run leaves the grid cleared. |
| `Simulation.SimulationOfRentals` | src/org/unibl/etf/epj2/epj2simulation/Epj2SimulationGui.java:212-258 | `fileOrder` holds exactly the accepted lines of `content`, in file order. The run uses those rentals sorted, grouped by timestamp. Each name's driver count rises once for a pass that names it and is not changed by the run. The records are written, and the run never starts when a company value is missing. Otherwise it blocks at the first group with a throwing settlement, or finishes with the grid cleared. |
| `Simulation.FolderlessRunBlocksFirstGroup` | src/org/unibl/etf/epj2/rentals/RentalCalculator.java:268-269 | Without a folder name, once the records are written, a settlement in the first group throws. |
| `Simulation.FolderlessRunIsBlocked` | src/org/unibl/etf/epj2/epj2simulation/Epj2SimulationGui.java:240-248 | Without a folder name, a run with rentals whose records are written blocks at its first group. |
| `Simulation.RunGroupsCountingDown` | src/org/unibl/etf/epj2/epj2simulation/Epj2SimulationGui.java:224-255 | With `countDown` always run, a run with at least one group ends with the grid cleared. |
| `Simulation.SimulationOfRentalsCountingDown` | src/org/unibl/etf/epj2/epj2simulation/Epj2SimulationGui.java:212-258 | The same rentals, grouping, driver counts and records as `SimulationOfRentals`, all tied to `content`. The corrected run never blocks: once the records are written, every group runs and the grid ends cleared. |
| `Reports.TakingSecondString` | src/org/unibl/etf/epj2/reports/Report.java:276-283 | The text after the separator is "" when the separator is absent. |
| `Reports.TakingSecondStringIsIndexOf` | src/org/unibl/etf/epj2/reports/Report.java:276-283 | The result is `line.substring(indexOf + 1).trim()` when the separator occurs, and "" when it does not. |
| `Reports.TakingSecondStringIsTrimmed` | src/org/unibl/etf/epj2/reports/Report.java:276-283 | The result has no edge whitespace. |
| `Reports.FieldLine` | src/org/unibl/etf/epj2/reports/Report.java:276-283 | A caption, its separator, a blank and a value read back as the value, when the caption holds no separator and the value has no edge whitespace. |
| `Reports.FieldsOf` | src/org/unibl/etf/epj2/reports/Report.java:112-124 | One text per line read. `Reports.FieldsOfAt` states how each is cut. |
| `Reports.FieldsOfAt` | src/org/unibl/etf/epj2/reports/Report.java:112-124 | Each text is cut from its own line at its own separator. |
| `Reports.ParseBill` | src/org/unibl/etf/epj2/reports/Report.java:111-126 | A bill is read only from a file of at least 13 lines; fewer lines make `nextLine` throw. |
| `Reports.ParsedDateIsTrimmed` | src/org/unibl/etf/epj2/reports/Report.java:112 | A parsed bill's timestamp is trimmed. |
| `Reports.FieldsOfValues` | src/org/unibl/etf/epj2/reports/Report.java:112-124 | Lines that each give back their value, cut at their separator, read as those values. |
| `Reports.SeparatorsAgree` | src/org/unibl/etf/epj2/reports/Report.java:112-124 | The reader cuts each of the 13 lines at the separator the writer puts after its caption: '?' for the two yes/no questions, ':' for the others. |
| `Reports.CaptionHoldsNoSeparator` | src/org/unibl/etf/epj2/rentals/RentalCalculator.java:304-316 | No caption holds the separator its line is cut at. |
| `Reports.BillValuesTrimmed` | src/org/unibl/etf/epj2/rentals/RentalCalculator.java:304-316 | The written values have no edge whitespace when the rental's texts and the printed prices have none. |
| `Reports.WrittenFields` | src/org/unibl/etf/epj2/reports/Report.java:112-124 | Cutting each written line at its separator gives back the values written. |
| `Reports.BillOfFields` | src/org/unibl/etf/epj2/reports/Report.java:115-126 | Texts whose numbers parse to a bill's numbers make that bill. |
| `Reports.BillValuesAre` | src/org/unibl/etf/epj2/rentals/RentalCalculator.java:304-316 | The bill's 13 values, field by field. |
| `Reports.BillOfWritten` | src/org/unibl/etf/epj2/reports/Report.java:112-126 | The written values make the bill they came from. |
| `Reports.ParseWrittenBill` | src/org/unibl/etf/epj2/reports/Report.java:112-126 | Round trip: reading a bill `writeInTxtFile` wrote gives back the timestamp, driver, vehicle, unit price, locations, duration, flags and narrow flag exactly. The prices come back as `Double.parseDouble` reads their printed text. |
| `Reports.WrittenBillNarrowIff` | src/org/unibl/etf/epj2/reports/Report.java:189-201 | A bill read back counts as narrow-city income exactly when the rental was narrow. |
| `Reports.AllBillsReadIff` | src/org/unibl/etf/epj2/reports/Report.java:107-132 | Reading succeeds exactly when every ".txt" file parses. |
| `Reports.BillsRead` | src/org/unibl/etf/epj2/reports/Report.java:107-132 | At most one bill per file. |
| `Reports.BillsReadStopsAtFailure` | src/org/unibl/etf/epj2/reports/Report.java:109-131 | Once a file fails to parse, the files after it add nothing, since the exception leaves the loop. |
| `Reports.BillsReadFromFiles` | src/org/unibl/etf/epj2/reports/Report.java:107-127 | Every bill read is the parse of a ".txt" file. |
| `Reports.AllBillsReadCount` | src/org/unibl/etf/epj2/reports/Report.java:107-127 | When every bill file parses, there is one bill per bill file. |
| `Reports.CountBillFiles` | src/org/unibl/etf/epj2/reports/Report.java:107 | `listFiles` keeps at most every file. `Reports.AllBillsReadCount` equates it with the bills read. |
| `Reports.DropTrailingEmptyKeepsFirst` | src/org/unibl/etf/epj2/reports/Report.java:146 | `split` keeps a non-empty first piece. |
| `Reports.DayKeyOfTrimmed` | src/org/unibl/etf/epj2/reports/Report.java:146 | For a trimmed timestamp, the day key is the text before the first blank, or the whole text without one. |
| `Reports.BillsOfDay` | src/org/unibl/etf/epj2/reports/Report.java:142-149 | A day holds at most the listed bills. `Reports.GroupedByDateIsBillsOfDay` equates it with that day's group. |
| `Reports.GroupedByDateSomeIff` | src/org/unibl/etf/epj2/reports/Report.java:142-149 | Grouping succeeds exactly when every bill has a day key. |
| `Reports.GroupedByDateIsBillsOfDay` | src/org/unibl/etf/epj2/reports/Report.java:142-149 | Each day's group holds exactly that day's bills in list order, and only days with a bill have a group. |
| `Reports.ReadBillsGroup` | src/org/unibl/etf/epj2/reports/Report.java:142-149 | Bills read from files always have a day key, so grouping cannot fail. |
| `Reports.Report.constructor` | src/org/unibl/etf/epj2/reports/Report.java:48-53 | A report starts with no bills and no groups. |
| `Reports.Report.CreateBills` | src/org/unibl/etf/epj2/reports/Report.java:105-135 | A `null` folder name throws before any file is read and adds nothing. An unlistable folder adds nothing and does not throw. Otherwise the bills of the files are appended in listing order, and the call throws exactly when a bill file does not parse. |
| `Reports.Report.GroupBillsByDate` | src/org/unibl/etf/epj2/reports/Report.java:142-149 | The groups become the bills grouped by day key. The call fails exactly when a key cannot be taken, and no bills give no groups. |
| `Reports.NewReport` | src/org/unibl/etf/epj2/reports/Report.java:58-62 | A `null` folder name gives no report. Otherwise the report holds the bills read and their grouping, and is absent exactly when a bill file fails to parse or a timestamp has no key. An unlistable folder gives an empty report. |
| `Reports.Filter` | src/org/unibl/etf/epj2/reports/Report.java:189-235 | The kept bills all pass the test, and there are no more of them than bills. |
| `Reports.SumAppend` | src/org/unibl/etf/epj2/reports/Report.java:157-180 | A sum over two lists is the sum of their sums. |
| `Reports.SumOfFilter` | src/org/unibl/etf/epj2/reports/Report.java:189-235 | Summing over the kept bills equals summing an amount that is zero on every other bill. |
| `Reports.SumMonotone` | src/org/unibl/etf/epj2/reports/Report.java:157-235 | Sums keep pointwise bounds. |
| `Reports.TotalsAppend` | src/org/unibl/etf/epj2/reports/Report.java:157-180 | Income, discount and promotion totals are additive over lists. |
| `Reports.TotalIncomeNonNegative` | src/org/unibl/etf/epj2/reports/Report.java:157-159 | The income is not negative unless some price is. |
| `Reports.SumOfZero` | src/org/unibl/etf/epj2/reports/Report.java:189-235 | Summing zero amounts gives 0. |
| `Reports.TotalIncomeInNarrowCity` | src/org/unibl/etf/epj2/reports/Report.java:189-201 | The loop sums the total prices of the bills whose flag is "true". |
| `Reports.NarrowPlusWide` | src/org/unibl/etf/epj2/reports/Report.java:189-211 | Narrow income plus wide income is the income. |
| `Reports.NarrowWideAmounts` | src/org/unibl/etf/epj2/reports/Report.java:189-211 | The narrow and wide amounts of each bill add up to its price. |
| `Reports.TotalIncomeInWideCity` | src/org/unibl/etf/epj2/reports/Report.java:209-211 | Income minus narrow income is the income of the bills whose flag is not "true". |
| `Reports.Coefficient` | src/org/unibl/etf/epj2/reports/Report.java:224-230 | The coefficient is the car, bike or scooter rate, and it is the car rate exactly when the id contains "A". |
| `Reports.TotalAmountOfMalfunctionRepairs` | src/org/unibl/etf/epj2/reports/Report.java:219-235 | The loop's sum is the repairs: coefficient times unit price for each "da" bill. |
| `Reports.RepairsOnlyOfMalfunctions` | src/org/unibl/etf/epj2/reports/Report.java:221-233 | Only bills with a malfunction cost repairs. |
| `Reports.SumScaled` | src/org/unibl/etf/epj2/reports/Report.java:219-235 | A sum of amounts scaled by one factor is that factor times the sum. |
| `Reports.RepairCostBetween` | src/org/unibl/etf/epj2/reports/Report.java:224-231 | For a non-negative unit price, a bill's repair lies between its scooter rate and its car rate. |
| `Reports.LowRepairs` | src/org/unibl/etf/epj2/reports/Report.java:219-235 | The scooter rate over all bills is the scooter coefficient times the unit prices of bills with a malfunction. |
| `Reports.HighRepairs` | src/org/unibl/etf/epj2/reports/Report.java:219-235 | The same holds for the car rate. |
| `Reports.RepairsBetween` | src/org/unibl/etf/epj2/reports/Report.java:219-235 | With no negative unit price, repairs lie between 0.02 and 0.07 times the unit prices of bills with a malfunction. |
| `Reports.TotalTax` | src/org/unibl/etf/epj2/reports/Report.java:263-265 | The tax is (income − maintenance − repairs − company costs) * 0.1. |
| `Reports.TaxClosedForm` | src/org/unibl/etf/epj2/reports/Report.java:243-265 | The tax is 0.06·income − 0.1·repairs, and 0.06·income when no bill had a malfunction. |
| `Reports.FilterNone` | src/org/unibl/etf/epj2/reports/Report.java:189-235 | Nothing passes a test that no bill meets. |
| `JavaString.ParseIntRoundTrip` | src/org/unibl/etf/epj2/reports/Report.java:115-118 | `Integer.parseInt` reads back what `Integer.toString` prints. |
| `JavaString.IndexOf` | src/org/unibl/etf/epj2/reports/Report.java:278 | `indexOf` is -1 exactly when the character is absent; otherwise it is the first position holding it. |
| `JavaString.TrimHasNoEdgeWhitespace` | src/org/unibl/etf/epj2/reports/Report.java:280 | `trim` leaves no edge whitespace. |
| `JavaString.ReplaceChar` | src/org/unibl/etf/epj2/rentals/RentalCalculator.java:143 | `replace(":", "_")` changes exactly the ':' characters. |
| `JavaString.RemoveChar` | src/org/unibl/etf/epj2/rentals/ReadRentals.java:102-105 | `replace("\"", "")` leaves no quote and adds no character. |
| `JavaString.SplitJoin` | src/org/unibl/etf/epj2/rentals/ReadRentals.java:97 | `split(",")` gives back the fields of a comma-joined line whose fields hold no comma and whose last field is not empty. |
| `JavaString.ContainsChar` | src/org/unibl/etf/epj2/rentals/RentalCalculator.java:245-247 | `contains` of a one-letter string is membership. |
| `JavaString.CompareToTransitive` | src/org/unibl/etf/epj2/rentals/ReadRentals.java:144 | `compareTo` orders strings transitively. |
| `JavaString.CompareToZero` | src/org/unibl/etf/epj2/rentals/ReadRentals.java:144 | `compareTo` is 0 exactly for equal strings. |
| `JavaString.CompareToAntisymmetric` | src/org/unibl/etf/epj2/rentals/ReadRentals.java:144 | Swapping the arguments of `compareTo` negates the result. |
| `Java.Wrap` | src/org/unibl/etf/epj2/vehicles/Vehicle.java:209 | `int` arithmetic agrees with the true value whenever that value fits. |
| `Java.WrapShift` | src/org/unibl/etf/epj2/vehicles/Vehicle.java:209 | Wrapping after every step equals wrapping once at the end. |
| `Java.Abs` | src/org/unibl/etf/epj2/rentals/Rental.java:347 | `Math.abs` is the absolute value, except that `Math.abs(MIN_VALUE)` is `MIN_VALUE`. |
| `Java.Div` | src/org/unibl/etf/epj2/rentals/Rental.java:348 | `int` division truncates toward zero: the quotient's magnitude is that of a divided by that of b, rounded down, and a non-zero quotient is negative exactly when the signs differ. `MIN_VALUE / -1` overflows to `MIN_VALUE`. |
| `Java.QuotientFits` | src/org/unibl/etf/epj2/rentals/Rental.java:348 | The truncated quotient fits in an `int` except for `MIN_VALUE / -1`, whose quotient 2^31 wraps to `MIN_VALUE`. |

## Left out

- Swing, the menus, the painting of the grid and `VehicleSerialization.serializeVehicle` are left out. They are user interface and Java object serialization.
- Threads, `CountDownLatch`, `Thread.sleep`, the 5-second pause and `invokeLater` run in one sequential schedule: each rental task runs to its end as soon as it is started. Interleavings of tasks within a group are not modelled.
- The `javax.swing.Timer` of `showContentAt` is not scheduled. Its action is the separate `CityGrid.MainFrame.ExpireContent`, which a caller can apply at any point.
- File I/O becomes maps: records by file name and text files by path, in `RentalCalculator.Disk`. Properties escaping, the comment and date lines `store` adds, and newlines inside values are not modelled.
- A `FileNotFoundException` or other `IOException` raised while a listed file disappears, or while a record or bill is opened, is not modelled.
- `File.separator` is taken as "/".
- `JavaString.CompareTo` compares Unicode code points. Java's `compareTo` compares UTF-16 code units, so a character at U+10000 or above sorts after U+E000 to U+FFFF in the model but before them in Java.
- `JavaString.ParseInt` accepts only ASCII digits. `Integer.parseInt` accepts every decimal digit that `Character.digit` knows, in any script.
- Floating point is modelled over exact reals. `Double.toString` is the parameter `show`, and `Double.parseDouble` reads decimal literals without NaN, Infinity or hexadecimal forms.
- `Reports.ParseWrittenBill`: prices do not round-trip exactly. They come back as whatever `Double.parseDouble` makes of `show`'s text, which is a hypothesis of the lemma.
- `new Random()` in `setDriverNumbers`: the digits are arbitrary. Only their count and that they are digits are stated.
- The iteration order of the vehicle `HashSet` and of `listFiles` is the order of the `vehicles` and `files` parameters.
- The `firstCall` report printing in `readRentals`, the stack traces, the getters, setters and `toString` methods are left out, as are the static `FILE_WITH_*` and constant initialisers. Their values, and the value of `FOLDER_NAME`, are parameters.
- `Reports.TakingSecondString`: the separator is one character, as at every call site. Multi-character separators are not modelled.
- `Simulation.RunGroups`, `Simulation.RunEntry` and `Simulation.RunGroupsCountingDown` state the grid and the latches, not the bill files summed over several groups. The bills are stated one group at a time by `Simulation.ProcessGroup`.
- `Simulation.SimulationOfRentals` speaks of the records as written by `writeInPropertieFile`. It does not state the bill files of the whole run.
- `Reports.TotalIncomeInNarrowCity` and `Reports.TotalAmountOfMalfunctionRepairs` omit their `bill != null`, `getInNarrowCity() != null` and `getIdOfVehicle() != null` tests: a bill read from a file is never `null`, and neither is any of its fields.
- `Drivers.DriverRegistry.GetDriverCount` states only the count of a name never constructed (0). Other counts follow from `Bumped` through the constructor's contract.
- `CityGrid.MainFrame.constructor` covers only the two maps. The window, its panel and its layout are left out.

## Findings

| source | as written | input that shows it | evidently intended | confidence | as-written member | corrected member |
|---|---|---|---|---|---|---|
| src/org/unibl/etf/epj2/epj2simulation/Epj2SimulationGui.java:240-248 | `readAndCalculateFromPropertiesFile` runs in the `finally` block before `latch.countDown()`. An unchecked exception from it skips the count-down, so `latch.await()` waits forever and no later group runs. | No `FOLDER_NAME` in `values.properties`, so `nameOfFolder` is `null`, and at least one rental whose record was written. `new File(null)` at RentalCalculator.java:269 then throws `NullPointerException` in the first group. So does a missing or unparsable rate in a record. | Every rental counts down whatever its settlement does, so every group runs and the grid is cleared after each. | not executed | `Simulation.FolderlessRunIsBlocked` | `Simulation.SimulationOfRentalsCountingDown` |
