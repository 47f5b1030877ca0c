/** The resource inventory hierarchy: a `Resource` ledger of `total` units of which
    `allocated` are handed out, its validation helpers, and the `Storage` subclasses
    whose constructors pass `self` twice to their parent. */
module Inheritance {
  import opened Values

  /** `validate_integer`: a `TypeError` for a non-integer, a `ValueError` when an
      optional bound is crossed. Both bounds are inclusive; the custom-message
      parameters are accepted and ignored, so they do not appear here. */
  function ValidateInteger(value: Value, min: Option<int>, max: Option<int>): (r: Outcome)
    ensures r == Pass <==>
      value.Int? && (min.Some? ==> min.value <= value.i) && (max.Some? ==> value.i <= max.value)
    ensures r == Fail(TypeError) <==> !value.Int?
    ensures r == Fail(ValueError) <==>
      value.Int? && ((min.Some? && value.i < min.value) || (max.Some? && value.i > max.value))
  {
    if !value.Int? then Fail(TypeError)
    else if min.Some? && value.i < min.value then Fail(ValueError)
    else if max.Some? && value.i > max.value then Fail(ValueError)
    else Pass
  }

  /** `validate_string`: a `TypeError` for anything but a string. */
  function ValidateString(value: Value): (r: Outcome)
    ensures r == Pass <==> value.Str?
    ensures r.Fail? ==> r.error == TypeError
  {
    if value.Str? then Pass else Fail(TypeError)
  }

  /** The checks of `Resource.__init__`, in their order: name and manufacturer must be
      strings, `total` a non-negative integer, `allocated` an integer in `0..total`. */
  function CheckResourceArgs(name: Value, manufacturer: Value, total: Value, allocatedUnits: Value): (r: Outcome)
    ensures r == Pass <==>
      name.Str? && manufacturer.Str? && total.Int? && allocatedUnits.Int? &&
      0 <= total.i && 0 <= allocatedUnits.i <= total.i
    ensures r == Fail(TypeError) <==>
      !name.Str? || !manufacturer.Str? || !total.Int? || (total.i >= 0 && !allocatedUnits.Int?)
    ensures r == Fail(ValueError) <==>
      name.Str? && manufacturer.Str? && total.Int? &&
      (total.i < 0 || (allocatedUnits.Int? && (allocatedUnits.i < 0 || allocatedUnits.i > total.i)))
    ensures r.Fail? ==> r.error == TypeError || r.error == ValueError
  {
    if ValidateString(name).Fail? then ValidateString(name)
    else if ValidateString(manufacturer).Fail? then ValidateString(manufacturer)
    else if ValidateInteger(total, Some(0), None).Fail? then ValidateInteger(total, Some(0), None)
    else ValidateInteger(allocatedUnits, Some(0), Some(total.i))
  }

  /** The classes of the hierarchy, for `category`. */
  datatype Kind = ResourceKind | CpuKind | StorageKind | SsdKind | HddKind

  function ClassName(kind: Kind): string
  {
    match kind
    case ResourceKind => "Resource"
    case CpuKind => "CPU"
    case StorageKind => "Storage"
    case SsdKind => "SSD"
    case HddKind => "HDD"
  }

  /** ASCII lower-casing, which is all `str.lower` does on the class names above. */
  function LowerChar(c: char): char
  {
    if 'A' <= c <= 'Z' then (c as int - 'A' as int + 'a' as int) as char else c
  }

  /** `category`: the class name in lower case. */
  function Category(kind: Kind): (r: string)
    ensures |r| == |ClassName(kind)|
    ensures forall i :: 0 <= i < |r| ==> 'a' <= r[i] <= 'z'
    ensures forall i :: 0 <= i < |r| ==> r[i] == ClassName(kind)[i] || r[i] as int == ClassName(kind)[i] as int + 32
  {
    seq(|ClassName(kind)|, i requires 0 <= i < |ClassName(kind)| => LowerChar(ClassName(kind)[i]))
  }

  /** A resource ledger. Name and manufacturer never change; `total` and `allocated`
      (named `allocatedUnits` here, as `allocated` is a Dafny keyword) are
      updated in place by `claim`, `freeup`, `died` and `purchased`. */
  class Resource {
    const name: string
    const manufacturer: string
    var total: int
    var allocatedUnits: int

    /** The ledger invariant every validated operation keeps. */
    ghost predicate Valid()
      reads this
    {
      0 <= allocatedUnits <= total
    }

    /** The `available` property: units not handed out. */
    function Available(): (r: int)
      reads this
      ensures Valid() ==> 0 <= r <= total
      ensures r == 0 <==> allocatedUnits == total
    {
      total - allocatedUnits
    }

    constructor Init(name: string, manufacturer: string, total: int, allocatedUnits: int)
      requires 0 <= allocatedUnits <= total
      ensures Valid()
      ensures this.name == name && this.manufacturer == manufacturer
      ensures this.total == total && this.allocatedUnits == allocatedUnits
    {
      this.name := name;
      this.manufacturer := manufacturer;
      this.total := total;
      this.allocatedUnits := allocatedUnits;
    }

    /** `Resource(name, manufacturer, total, allocated)`: raises before any field is set,
        or builds a ledger that satisfies the invariant. */
    static method New(name: Value, manufacturer: Value, total: Value, allocatedUnits: Value)
      returns (r: Result<Resource>)
      ensures r.Ok? <==> CheckResourceArgs(name, manufacturer, total, allocatedUnits) == Pass
      ensures r.Err? ==> CheckResourceArgs(name, manufacturer, total, allocatedUnits) == Fail(r.error)
      ensures r.Ok? ==> fresh(r.value) && r.value.Valid()
      ensures r.Ok? ==> r.value.name == name.s && r.value.manufacturer == manufacturer.s
      ensures r.Ok? ==> r.value.total == total.i && r.value.allocatedUnits == allocatedUnits.i
    {
      var check := CheckResourceArgs(name, manufacturer, total, allocatedUnits);
      if check.Fail? {
        return Err(check.error);
      }
      var res := new Resource.Init(name.s, manufacturer.s, total.i, allocatedUnits.i);
      return Ok(res);
    }

    /** `claim(n)`: hand out `n` of the available units. */
    method Claim(n: Value) returns (res: Outcome)
      requires Valid()
      modifies this
      ensures Valid()
      ensures res == ValidateInteger(n, Some(0), Some(old(Available())))
      ensures res.Pass? ==> allocatedUnits == old(allocatedUnits) + n.i && total == old(total)
      ensures res.Pass? ==> Available() == old(Available()) - n.i
      ensures res.Fail? ==> allocatedUnits == old(allocatedUnits) && total == old(total)
    {
      res := ValidateInteger(n, Some(0), Some(Available()));
      if res.Pass? {
        allocatedUnits := allocatedUnits + n.i;
      }
    }

    /** `freeup(n)`: take back `n` of the allocated units. */
    method Freeup(n: Value) returns (res: Outcome)
      requires Valid()
      modifies this
      ensures Valid()
      ensures res == ValidateInteger(n, Some(0), Some(old(allocatedUnits)))
      ensures res.Pass? ==> allocatedUnits == old(allocatedUnits) - n.i && total == old(total)
      ensures res.Pass? ==> Available() == old(Available()) + n.i
      ensures res.Fail? ==> allocatedUnits == old(allocatedUnits) && total == old(total)
    {
      res := ValidateInteger(n, Some(0), Some(allocatedUnits));
      if res.Pass? {
        allocatedUnits := allocatedUnits - n.i;
      }
    }

    /** `died(n)`: `n` allocated units broke; they leave both the allocation and the
        stock, so the number available does not change. */
    method Died(n: Value) returns (res: Outcome)
      requires Valid()
      modifies this
      ensures Valid()
      ensures res == ValidateInteger(n, Some(0), Some(old(allocatedUnits)))
      ensures res.Pass? ==> allocatedUnits == old(allocatedUnits) - n.i && total == old(total) - n.i
      ensures Available() == old(Available())
      ensures res.Fail? ==> allocatedUnits == old(allocatedUnits) && total == old(total)
    {
      res := ValidateInteger(n, Some(0), Some(allocatedUnits));
      if res.Pass? {
        allocatedUnits := allocatedUnits - n.i;
        total := total - n.i;
      }
    }

    /** `purchased(n)`: `n` new units join the stock. */
    method Purchased(n: Value) returns (res: Outcome)
      requires Valid()
      modifies this
      ensures Valid()
      ensures res == ValidateInteger(n, Some(0), None)
      ensures res.Pass? ==> total == old(total) + n.i && allocatedUnits == old(allocatedUnits)
      ensures res.Pass? ==> Available() == old(Available()) + n.i
      ensures res.Fail? ==> allocatedUnits == old(allocatedUnits) && total == old(total)
    {
      res := ValidateInteger(n, Some(0), None);
      if res.Pass? {
        total := total + n.i;
      }
    }
  }

  /** `Storage.__init__` as called with the positional arguments that follow `self`.
      Python refuses a call whose number of positional arguments is not the five it
      declares (name, manufacturer, total, allocatedUnits, capacity_GB) with a `TypeError`
      before its body runs. */
  function StorageInit(args: seq<Value>): (r: Outcome)
    ensures |args| != 5 ==> r == Fail(TypeError)
    ensures |args| == 5 ==>
      (r == Pass <==> CheckResourceArgs(args[0], args[1], args[2], args[3]) == Pass && args[4].Int?)
  {
    if |args| != 5 then Fail(TypeError)
    else
      var base := CheckResourceArgs(args[0], args[1], args[2], args[3]);
      if base.Fail? then base else ValidateInteger(args[4], None, None)
  }

  /** `SSD.__init__` as written: it hands `self` (an object) to `Storage.__init__` in
      front of the five real arguments, so every construction raises `TypeError`. */
  function SsdInit(name: Value, manufacturer: Value, total: Value, allocatedUnits: Value,
                   capacity: Value, interface: Value): (r: Outcome)
    ensures r == Fail(TypeError)
  {
    var base := StorageInit([Obj, name, manufacturer, total, allocatedUnits, capacity]);
    if base.Fail? then base else ValidateString(interface)
  }

  /** `SSD.__init__` with `self` passed once, as the other subclasses do. */
  function SsdInitIntended(name: Value, manufacturer: Value, total: Value, allocatedUnits: Value,
                           capacity: Value, interface: Value): (r: Outcome)
    ensures r == Pass <==>
      CheckResourceArgs(name, manufacturer, total, allocatedUnits) == Pass &&
      capacity.Int? && interface.Str?
  {
    var base := StorageInit([name, manufacturer, total, allocatedUnits, capacity]);
    if base.Fail? then base else ValidateString(interface)
  }

  /** The drive sizes `HDD` accepts. */
  predicate IsHddSize(size: string)
  {
    size == "2.5\"" || size == "3.5\""
  }

  /** The checks `HDD.__init__` makes after its parent: `size` one of the two drive
      sizes, `rpm` an integer in `1000..8000` inclusive. */
  function HddOwnChecks(size: Value, rpm: Value): (r: Outcome)
    ensures r == Pass <==> size.Str? && IsHddSize(size.s) && rpm.Int? && 1000 <= rpm.i <= 8000
  {
    if ValidateString(size).Fail? then ValidateString(size)
    else if !IsHddSize(size.s) then Fail(ValueError)
    else ValidateInteger(rpm, Some(1000), Some(8000))
  }

  /** `HDD.__init__` as written: the same extra `self` as in `SSD`, so its own size and
      rpm checks are never reached. */
  function HddInit(name: Value, manufacturer: Value, total: Value, allocatedUnits: Value,
                   capacity: Value, size: Value, rpm: Value): (r: Outcome)
    ensures r == Fail(TypeError)
  {
    var base := StorageInit([Obj, name, manufacturer, total, allocatedUnits, capacity]);
    if base.Fail? then base else HddOwnChecks(size, rpm)
  }

  /** `HDD.__init__` with `self` passed once. */
  function HddInitIntended(name: Value, manufacturer: Value, total: Value, allocatedUnits: Value,
                           capacity: Value, size: Value, rpm: Value): (r: Outcome)
    ensures r == Pass <==>
      CheckResourceArgs(name, manufacturer, total, allocatedUnits) == Pass && capacity.Int? &&
      size.Str? && IsHddSize(size.s) && rpm.Int? && 1000 <= rpm.i <= 8000
  {
    var base := StorageInit([name, manufacturer, total, allocatedUnits, capacity]);
    if base.Fail? then base else HddOwnChecks(size, rpm)
  }

  /** The discrepancy in one statement: valid argument sets exist (valid ledger
      numbers, a capacity, an interface, a drive size and an rpm in range), the intended
      constructors accept them, and the constructors as written reject them. */
  lemma StorageSubclassesRejectValidArguments(total: int, allocatedUnits: int, capacity: int, rpm: int)
    requires 0 <= allocatedUnits <= total && 1000 <= rpm <= 8000
    ensures SsdInitIntended(Str("s"), Str("m"), Int(total), Int(allocatedUnits), Int(capacity), Str("SATA")) == Pass
    ensures SsdInit(Str("s"), Str("m"), Int(total), Int(allocatedUnits), Int(capacity), Str("SATA")) == Fail(TypeError)
    ensures HddInitIntended(Str("h"), Str("m"), Int(total), Int(allocatedUnits), Int(capacity), Str("3.5\""), Int(rpm)) == Pass
    ensures HddInit(Str("h"), Str("m"), Int(total), Int(allocatedUnits), Int(capacity), Str("3.5\""), Int(rpm)) == Fail(TypeError)
  {
    assert IsHddSize("3.5\"");
  }
}
