/** Drivers and the process-wide count of how many `Driver` objects have been
    made for each name, which decides the loyalty discount. */
module Drivers {
  import opened Java
  import opened JavaString

  /** `driverCountMap.getOrDefault(name, 0)`. */
  function CountOf(counts: map<string, int32>, name: string): int32
  {
    if name in counts then counts[name] else 0
  }

  /** The count map after one more driver called `name` has been made. */
  function Bumped(counts: map<string, int32>, name: string): (r: map<string, int32>)
    ensures CountOf(r, name) == Wrap(CountOf(counts, name) + 1)
    ensures forall other | other != name :: CountOf(r, other) == CountOf(counts, other)
  {
    counts[name := Wrap(CountOf(counts, name) + 1)]
  }

  /** The count map after one driver per name of `names` has been made, in order. */
  function BumpedAll(counts: map<string, int32>, names: seq<string>): map<string, int32>
    decreases |names|
  {
    if |names| == 0 then counts else BumpedAll(Bumped(counts, names[0]), names[1..])
  }

  /** One more name at the end bumps the count it reaches. */
  lemma {:induction false} BumpedAllSnoc(counts: map<string, int32>, names: seq<string>, name: string)
    ensures BumpedAll(counts, names + [name]) == Bumped(BumpedAll(counts, names), name)
    decreases |names|
  {
    if |names| == 0 {
      assert names + [name] == [name];
    } else {
      assert (names + [name])[0] == names[0] && (names + [name])[1..] == names[1..] + [name];
      BumpedAllSnoc(Bumped(counts, names[0]), names[1..], name);
    }
  }

  predicate Distinct(names: seq<string>)
  {
    forall i, j | 0 <= i < j < |names| :: names[i] != names[j]
  }

  /** Making one driver for each of a list of distinct names raises the
      count of exactly those names, each by one. */
  lemma {:induction false} BumpedAllOnce(counts: map<string, int32>, names: seq<string>, name: string)
    requires Distinct(names)
    ensures CountOf(BumpedAll(counts, names), name) ==
            if name in names then Wrap(CountOf(counts, name) + 1) else CountOf(counts, name)
    decreases |names|
  {
    if |names| > 0 {
      var rest := names[1..];
      assert Distinct(rest) by {
        forall i, j | 0 <= i < j < |rest| ensures rest[i] != rest[j] {
          assert rest[i] == names[i + 1] && rest[j] == names[j + 1];
        }
      }
      assert names[0] !in rest by {
        forall i | 0 <= i < |rest| ensures rest[i] != names[0] {
          assert rest[i] == names[i + 1];
        }
      }
      BumpedAllOnce(Bumped(counts, names[0]), rest, name);
      assert name in names <==> name == names[0] || name in rest;
    }
  }

  /** The static `driverCountMap` shared by every `Driver`. */
  class DriverRegistry {
    var driverCountMap: map<string, int32>

    constructor()
      ensures driverCountMap == map[]
    {
      driverCountMap := map[];
    }

    /** `Driver.getDriverCount`: how many drivers of that name have been
        made, 0 for a name never seen. */
    function GetDriverCount(name: string): (n: int32)
      reads this
      ensures name !in driverCountMap ==> n == 0
    {
      CountOf(driverCountMap, name)
    }
  }

  /** `setDriverNumbers(n)`: `n` decimal digits, each chosen arbitrarily
      (the source draws them from `java.util.Random`). */
  method SetDriverNumbers(lengthOfDriverNumber: int32) returns (s: string)
    ensures |s| == Max(lengthOfDriverNumber, 0)
    ensures AllDigits(s)
  {
    s := "";
    var i := 0;
    while i < lengthOfDriverNumber
      invariant 0 <= i == |s| <= Max(lengthOfDriverNumber, 0)
      invariant AllDigits(s)
    {
      var randomNumber :| 0 <= randomNumber < 10;
      s := s + [DigitChar(randomNumber)];
      i := i + 1;
    }
  }

  class Driver {
    const nameOfTheDriver: string
    const driverIdentificationNumber: string
    const driverLicenseNumber: string

    /** A new driver gets an 8-digit id and a 10-digit licence number, and
        the count of its name goes up by one. */
    constructor(nameOfTheDriver: string, registry: DriverRegistry)
      modifies registry
      ensures this.nameOfTheDriver == nameOfTheDriver
      ensures |driverIdentificationNumber| == 8 && AllDigits(driverIdentificationNumber)
      ensures |driverLicenseNumber| == 10 && AllDigits(driverLicenseNumber)
      ensures registry.driverCountMap == Bumped(old(registry.driverCountMap), nameOfTheDriver)
    {
      var id := SetDriverNumbers(8);
      var licence := SetDriverNumbers(10);
      this.nameOfTheDriver := nameOfTheDriver;
      this.driverIdentificationNumber := id;
      this.driverLicenseNumber := licence;
      new;
      registry.driverCountMap := Bumped(registry.driverCountMap, nameOfTheDriver);
    }

    /** `equals`: another driver with the same name. */
    predicate Equals(other: Driver?)
    {
      other != null && nameOfTheDriver == other.nameOfTheDriver
    }

    /** `hashCode`: the hash of the name alone. */
    function HashCode(): int32
    {
      JavaString.HashCode(nameOfTheDriver)
    }
  }

  /** Equal drivers have equal hashes, and equality is an equivalence. */
  lemma DriverEqualsAndHashCode(a: Driver, b: Driver, c: Driver)
    ensures a.Equals(a) && !a.Equals(null)
    ensures a.Equals(b) <==> b.Equals(a)
    ensures a.Equals(b) && b.Equals(c) ==> a.Equals(c)
    ensures a.Equals(b) ==> a.HashCode() == b.HashCode()
  {
  }
}
