/** The rental company's electric vehicles: one class, whose battery level
    is the only state that changes, and one variant per kind of vehicle. */
module Vehicles {
  import opened Java
  import JavaString

  /** The type names that the vehicle catalog uses. */
  const CAR: string := "automobil"
  const BIKE: string := "bicikl"
  const SCOOTER: string := "trotinet"

  /** What each subclass adds to the common vehicle fields. */
  datatype Kind =
    | ElectricCar(purchaseDate: string, description: string)
    | ElectricBike(rangePerCharge: int32)
    | ElectricScooter(maxSpeed: int32)

  /** The battery field after `k` calls of `decreaseBatteryLevel` from `b0`:
      `k` lower, in `int` arithmetic, with no floor. */
  function LevelAfter(b0: int32, k: nat): int32
  {
    Wrap(b0 - k)
  }

  /** One more decrease lowers, with wrap-around, the field that the others
      left. */
  lemma LevelAfterNext(b0: int32, k: nat)
    ensures LevelAfter(b0, k + 1) == Wrap(LevelAfter(b0, k) - 1)
  {
    WrapShift(b0 - k, -1);
  }

  /** Decreases add up: `j` more after `k` are `k` + `j` in all. */
  lemma LevelAfterAdd(b0: int32, k: nat, j: nat)
    ensures LevelAfter(LevelAfter(b0, k), j) == LevelAfter(b0, k + j)
  {
    WrapShift(b0 - k, -(j as int));
  }

  /** The value `decreaseBatteryLevel` returns for the field it has just
      lowered: never below 5, and the field itself from 5 up. */
  function Reported(field: int32): (r: int32)
    ensures r >= 5 && r >= field
    ensures field >= 5 ==> r == field
    ensures field < 5 ==> r == 5
  {
    Max(5, field)
  }

  /** After a full charge, the `k`-th decrease returns 100 - `k` while that
      is at least 5, and 5 from then on until the field wraps around. */
  lemma ChargedThenDecreased(k: nat)
    ensures 1 <= k <= 95 ==> Reported(LevelAfter(100, k)) == 100 - k
    ensures 95 <= k <= 0x8000_0064 ==> Reported(LevelAfter(100, k)) == 5
  {
  }

  class Vehicle {
    const idOfVehicle: string
    const manufacturer: string
    const model: string
    const purchasePrice: int32
    const typeOfVehicle: string
    const kind: Kind
    const hasPassengerCapacity: bool
    var batteryLevel: int32

    /** An electric car: fully charged, and the only kind that carries passengers. */
    constructor Car(idOfVehicle: string, manufacturer: string, model: string, purchasePrice: int32,
                    typeOfVehicle: string, purchaseDate: string, description: string)
      ensures this.idOfVehicle == idOfVehicle && this.manufacturer == manufacturer && this.model == model
      ensures this.purchasePrice == purchasePrice && this.typeOfVehicle == typeOfVehicle
      ensures kind == ElectricCar(purchaseDate, description)
      ensures batteryLevel == 100 && hasPassengerCapacity
    {
      this.idOfVehicle := idOfVehicle;
      this.manufacturer := manufacturer;
      this.model := model;
      this.purchasePrice := purchasePrice;
      this.typeOfVehicle := typeOfVehicle;
      this.kind := ElectricCar(purchaseDate, description);
      this.hasPassengerCapacity := true;
      this.batteryLevel := 100;
    }

    /** An electric bike: fully charged, without passenger capacity. */
    constructor Bike(idOfVehicle: string, manufacturer: string, model: string, purchasePrice: int32,
                     typeOfVehicle: string, rangePerCharge: int32)
      ensures this.idOfVehicle == idOfVehicle && this.manufacturer == manufacturer && this.model == model
      ensures this.purchasePrice == purchasePrice && this.typeOfVehicle == typeOfVehicle
      ensures kind == ElectricBike(rangePerCharge)
      ensures batteryLevel == 100 && !hasPassengerCapacity
    {
      this.idOfVehicle := idOfVehicle;
      this.manufacturer := manufacturer;
      this.model := model;
      this.purchasePrice := purchasePrice;
      this.typeOfVehicle := typeOfVehicle;
      this.kind := ElectricBike(rangePerCharge);
      this.hasPassengerCapacity := false;
      this.batteryLevel := 100;
    }

    /** An electric scooter: fully charged, without passenger capacity. */
    constructor Scooter(idOfVehicle: string, manufacturer: string, model: string, purchasePrice: int32,
                        typeOfVehicle: string, maxSpeed: int32)
      ensures this.idOfVehicle == idOfVehicle && this.manufacturer == manufacturer && this.model == model
      ensures this.purchasePrice == purchasePrice && this.typeOfVehicle == typeOfVehicle
      ensures kind == ElectricScooter(maxSpeed)
      ensures batteryLevel == 100 && !hasPassengerCapacity
    {
      this.idOfVehicle := idOfVehicle;
      this.manufacturer := manufacturer;
      this.model := model;
      this.purchasePrice := purchasePrice;
      this.typeOfVehicle := typeOfVehicle;
      this.kind := ElectricScooter(maxSpeed);
      this.hasPassengerCapacity := false;
      this.batteryLevel := 100;
    }

    /** Sets the battery to exactly 100, whatever it was. */
    method ChargeBatteryLevel()
      modifies this`batteryLevel
      ensures batteryLevel == 100
    {
      batteryLevel := 100;
    }

    /** Lowers the battery field by one, in `int`, and returns the new field
        floored at 5; the floor applies to the returned value only. */
    method DecreaseBatteryLevel() returns (level: int32)
      modifies this`batteryLevel
      ensures batteryLevel == LevelAfter(old(batteryLevel), 1)
      ensures level == Reported(batteryLevel)
    {
      batteryLevel := Wrap(batteryLevel - 1);
      level := Max(5, batteryLevel);
    }

    /** `equals`: another vehicle of the same class with the same id. */
    predicate Equals(other: Vehicle?)
    {
      other != null && SameClass(kind, other.kind) && idOfVehicle == other.idOfVehicle
    }

    /** `hashCode`: the hash of the id alone. */
    function HashCode(): int32
    {
      JavaString.HashCode(idOfVehicle)
    }
  }

  /** Java's `getClass() == other.getClass()` on the three subclasses. */
  predicate SameClass(a: Kind, b: Kind)
  {
    (a.ElectricCar? && b.ElectricCar?) || (a.ElectricBike? && b.ElectricBike?) ||
    (a.ElectricScooter? && b.ElectricScooter?)
  }

  /** `equals` is an equivalence on vehicles and never holds for `null`. */
  lemma EqualsIsEquivalence(a: Vehicle, b: Vehicle, c: Vehicle)
    ensures a.Equals(a) && !a.Equals(null)
    ensures a.Equals(b) <==> b.Equals(a)
    ensures a.Equals(b) && b.Equals(c) ==> a.Equals(c)
  {
  }

  /** Equal vehicles have equal hashes, as `Object.hashCode` demands. */
  lemma HashCodeAgreesWithEquals(a: Vehicle, b: Vehicle)
    requires a.Equals(b)
    ensures a.HashCode() == b.HashCode()
  {
  }
}
