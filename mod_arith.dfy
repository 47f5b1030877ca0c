/** `Mod`: an integer kept reduced modulo a positive modulus, with binary operators
    that build new objects, in-place operators that update the left operand, and
    comparisons against integers and other `Mod` objects of the same modulus. */
module ModArith {
  import opened Values

  // ---------------------------------------------------------------------------
  // Integer facts about Euclidean remainder (Python's `%` for a positive divisor)

  /** `a` and `b` leave the same remainder modulo `m`. */
  predicate Congruent(a: int, b: int, m: int)
    requires m > 0
  {
    (a - b) % m == 0
  }

  lemma MulAtLeast(a: int, m: int)
    requires a >= 1 && m > 0
    ensures a * m >= m
  {
    assert a * m == (a - 1) * m + m;
  }

  /** The remainder is determined by any decomposition `x == q * m + r` with `0 <= r < m`. */
  lemma ModUnique(x: int, q: int, r: int, m: int)
    requires m > 0 && 0 <= r < m && x == q * m + r
    ensures x % m == r
  {
    var q0, r0 := x / m, x % m;
    assert (q - q0) * m == r0 - r;
    if q > q0 {
      MulAtLeast(q - q0, m);
    } else if q < q0 {
      assert (q0 - q) * m == r - r0;
      MulAtLeast(q0 - q, m);
    }
  }

  /** Adding a multiple of the modulus does not change the remainder. */
  lemma ModShift(x: int, k: int, m: int)
    requires m > 0
    ensures (x + k * m) % m == x % m
  {
    assert x + k * m == (x / m + k) * m + x % m;
    ModUnique(x + k * m, x / m + k, x % m, m);
  }

  /** For `0 <= v < m`, `k % m == v` says exactly that `k` and `v` are congruent. */
  lemma RemainderIsCongruence(k: int, v: int, m: int)
    requires m > 0 && 0 <= v < m
    ensures k % m == v <==> Congruent(k, v, m)
  {
    if k % m == v {
      assert k - v == (k / m) * m;
      ModShift(0, k / m, m);
    } else {
      if Congruent(k, v, m) {
        assert k - v == ((k - v) / m) * m;
        ModUnique(k, (k - v) / m, v, m);
        assert false;
      }
    }
  }

  /** A number and its remainder are congruent. */
  lemma ReduceIsCongruent(v: int, m: int)
    requires m > 0
    ensures Congruent(v % m, v, m)
  {
    assert v % m - v == -(v / m) * m;
    ModShift(0, -(v / m), m);
  }

  lemma AddReduced(a: int, b: int, m: int)
    requires m > 0
    ensures (a % m + b % m) % m == (a + b) % m
  {
    assert a + b == (a % m + b % m) + (a / m + b / m) * m;
    ModShift(a % m + b % m, a / m + b / m, m);
  }

  lemma SubReduced(a: int, b: int, m: int)
    requires m > 0
    ensures (a % m - b % m) % m == (a - b) % m
  {
    assert a - b == (a % m - b % m) + (a / m - b / m) * m;
    ModShift(a % m - b % m, a / m - b / m, m);
  }

  lemma MulReduced(a: int, b: int, m: int)
    requires m > 0
    ensures (a % m * (b % m)) % m == (a * b) % m
  {
    var qa, ra, qb, rb := a / m, a % m, b / m, b % m;
    assert a == qa * m + ra && b == qb * m + rb;
    calc {
      a * b;
      (qa * m + ra) * (qb * m + rb);
      ra * rb + (qa * qb * m + qa * rb + ra * qb) * m;
    }
    ModShift(ra * rb, qa * qb * m + qa * rb + ra * qb, m);
  }

  // ---------------------------------------------------------------------------
  // The operators

  /** The four operators `_perform_operation` is given. */
  datatype ArithOp = Add | Sub | Mul | Pow

  /** Integer exponentiation with a natural exponent (`operator.pow` on such arguments). */
  function Power(base: int, exp: nat): int
  {
    if exp == 0 then 1 else base * Power(base, exp - 1)
  }

  /** `op(a, b)` on two integers. The right operand is never negative: `_get_value`
      has already reduced it modulo the positive modulus, so `**` stays in the integers. */
  function Apply(op: ArithOp, a: int, b: int): int
    requires op == Pow ==> b >= 0
  {
    match op
    case Add => a + b
    case Sub => a - b
    case Mul => a * b
    case Pow => Power(a, b)
  }

  /** `Mod.__init__` as a check plus normalisation: a `TypeError` for a non-integer value
      or modulus, a `ValueError` for a modulus that is not positive, and otherwise the
      stored value, which is the representative of `value` in `0..modulus-1`. */
  function Normalise(value: Value, modulus: Value): (r: Result<int>)
    ensures r.Ok? <==> value.Int? && modulus.Int? && modulus.i > 0
    ensures !value.Int? || !modulus.Int? ==> r == Err(TypeError)
    ensures value.Int? && modulus.Int? && modulus.i <= 0 ==> r == Err(ValueError)
    ensures r.Ok? ==> 0 <= r.value < modulus.i && Congruent(r.value, value.i, modulus.i)
  {
    if !value.Int? then Err(TypeError)
    else if !modulus.Int? then Err(TypeError)
    else if !(modulus.i > 0) then Err(ValueError)
    else
      ReduceIsCongruent(value.i, modulus.i);
      Ok(value.i % modulus.i)
  }

  /** The right-hand operand of an operator or comparison: an `int`, a `Mod`, or any
      other object. */
  datatype Operand = IntOperand(i: int) | ModOperand(m: Mod) | OtherOperand
  {
    function Reads(): set<object>
    {
      if ModOperand? then {m} else {}
    }
  }

  ghost predicate OperandValid(other: Operand)
    reads other.Reads()
  {
    other.ModOperand? ==> other.m.Valid()
  }

  class Mod {
    var value: int
    const modulus: int

    /** What construction and every operator establish: a positive modulus and a
        value reduced modulo it. */
    ghost predicate Valid()
      reads this
    {
      0 < modulus && 0 <= value < modulus
    }

    constructor Make(v: int, m: int)
      requires m > 0
      ensures Valid() && modulus == m && value == v % m
    {
      modulus := m;
      value := v % m;
    }

    /** `Mod(value, modulus)`. */
    static method New(value: Value, modulus: Value) returns (r: Result<Mod>)
      ensures r.Ok? <==> Normalise(value, modulus).Ok?
      ensures r.Err? ==> Normalise(value, modulus) == Err(r.error)
      ensures r.Ok? ==> fresh(r.value) && r.value.Valid() && r.value.modulus == modulus.i
      ensures r.Ok? ==> r.value.value == Normalise(value, modulus).value
    {
      var n := Normalise(value, modulus);
      if n.Err? {
        return Err(n.error);
      }
      var m := new Mod.Make(value.i, modulus.i);
      return Ok(m);
    }

    /** `_get_value`: the reduced value of a compatible operand, else `TypeError`. */
    function GetValue(other: Operand): (r: Result<int>)
      reads this, other.Reads()
      requires Valid() && OperandValid(other)
      ensures r.Ok? <==> other.IntOperand? || (other.ModOperand? && other.m.modulus == modulus)
      ensures r.Err? ==> r.error == TypeError
      ensures r.Ok? ==> 0 <= r.value < modulus
      ensures other.IntOperand? ==> r.Ok? && Congruent(r.value, other.i, modulus)
      ensures other.ModOperand? && r.Ok? ==> r.value == other.m.value
    {
      match other
      case IntOperand(k) =>
        ReduceIsCongruent(k, modulus);
        Ok(k % modulus)
      case ModOperand(m) =>
        if modulus == m.modulus then Ok(m.value) else Err(TypeError)
      case OtherOperand =>
        Err(TypeError)
    }

    /** `==`: compares reduced values; an integer `k` is equal exactly when it is
        congruent to the value. An incompatible operand raises instead of comparing
        unequal. */
    function Eq(other: Operand): (r: Result<bool>)
      reads this, other.Reads()
      requires Valid() && OperandValid(other)
      ensures r.Ok? <==> GetValue(other).Ok?
      ensures r.Err? ==> r.error == TypeError
      ensures other.IntOperand? ==> r == Ok(Congruent(other.i, value, modulus))
      ensures other.ModOperand? && r.Ok? ==> (r.value <==> value == other.m.value)
    {
      match GetValue(other)
      case Err(e) => Err(e)
      case Ok(v) =>
        if other.IntOperand? then
          RemainderIsCongruence(other.i, value, modulus);
          Ok(value == v)
        else
          Ok(value == v)
    }

    /** `!=`, Python's default: the negation of `==`. */
    function Ne(other: Operand): (r: Result<bool>)
      reads this, other.Reads()
      requires Valid() && OperandValid(other)
      ensures r.Ok? <==> Eq(other).Ok?
      ensures r.Err? ==> r.error == TypeError
      ensures r.Ok? ==> r.value != Eq(other).value
    {
      match Eq(other)
      case Err(e) => Err(e)
      case Ok(b) => Ok(!b)
    }

    /** `<` on reduced values. */
    function Lt(other: Operand): (r: Result<bool>)
      reads this, other.Reads()
      requires Valid() && OperandValid(other)
      ensures r.Ok? <==> GetValue(other).Ok?
      ensures r.Err? ==> r.error == TypeError
      ensures r.Ok? ==> (r.value <==> value < GetValue(other).value)
    {
      match GetValue(other)
      case Err(e) => Err(e)
      case Ok(v) => Ok(value < v)
    }

    /** `<=` as `functools.total_ordering` derives it: `<`, and if that is false, `==`. */
    function Le(other: Operand): (r: Result<bool>)
      reads this, other.Reads()
      requires Valid() && OperandValid(other)
      ensures r.Ok? <==> GetValue(other).Ok?
      ensures r.Err? ==> r.error == TypeError
      ensures r.Ok? ==> (r.value <==> value <= GetValue(other).value)
    {
      match Lt(other)
      case Err(e) => Err(e)
      case Ok(b) => if b then Ok(true) else Eq(other)
    }

    /** `>` as `total_ordering` derives it: neither `<` nor `==`. */
    function Gt(other: Operand): (r: Result<bool>)
      reads this, other.Reads()
      requires Valid() && OperandValid(other)
      ensures r.Ok? <==> GetValue(other).Ok?
      ensures r.Err? ==> r.error == TypeError
      ensures r.Ok? ==> (r.value <==> value > GetValue(other).value)
    {
      match Lt(other)
      case Err(e) => Err(e)
      case Ok(b) => if b then Ok(false) else Ne(other)
    }

    /** `>=` as `total_ordering` derives it: not `<`. */
    function Ge(other: Operand): (r: Result<bool>)
      reads this, other.Reads()
      requires Valid() && OperandValid(other)
      ensures r.Ok? <==> GetValue(other).Ok?
      ensures r.Err? ==> r.error == TypeError
      ensures r.Ok? ==> (r.value <==> value >= GetValue(other).value)
    {
      match Lt(other)
      case Err(e) => Err(e)
      case Ok(b) => Ok(!b)
    }

    /** `_perform_operation(other, op)` without `in_place`, which is what `+`, `-`, `*`
        and `**` do: a new object with the same modulus holding `op(a, b) % modulus`.
        The method modifies nothing, so both operands keep their values. */
    method PerformOperation(other: Operand, op: ArithOp) returns (r: Result<Mod>)
      requires Valid() && OperandValid(other)
      ensures r.Ok? <==> GetValue(other).Ok?
      ensures r.Err? ==> r.error == TypeError
      ensures r.Ok? ==> fresh(r.value) && r.value.Valid() && r.value.modulus == modulus
      ensures r.Ok? ==> r.value.value == Apply(op, value, GetValue(other).value) % modulus
    {
      var ov := GetValue(other);
      if ov.Err? {
        return Err(ov.error);
      }
      var made := New(Int(Apply(op, value, ov.value)), Int(modulus));
      return made;
    }

    /** `_perform_operation(other, op, in_place=True)`, which is what `+=`, `-=`, `*=`
        and `**=` do: the value becomes `op(a, b) % modulus` and the same object is
        returned. The operand is read before the update, so `x += x` doubles `x`. */
    method PerformInPlace(other: Operand, op: ArithOp) returns (r: Result<Mod>)
      requires Valid() && OperandValid(other)
      modifies this
      ensures Valid()
      ensures r.Ok? <==> old(GetValue(other)).Ok?
      ensures r.Err? ==> r.error == TypeError && value == old(value)
      ensures r.Ok? ==> r.value == this
      ensures r.Ok? ==> value == Apply(op, old(value), old(GetValue(other)).value) % modulus
    {
      var ov := GetValue(other);
      if ov.Err? {
        return Err(ov.error);
      }
      value := Apply(op, value, ov.value) % modulus;
      return Ok(this);
    }

    /** `-x`: builds `Mod(-value, -modulus)`, whose modulus is never positive, so
        negation always raises `ValueError`. */
    method Neg() returns (r: Result<Mod>)
      requires Valid()
      ensures r == Err(ValueError)
    {
      r := New(Int(-value), Int(-modulus));
    }
  }

  // ---------------------------------------------------------------------------
  // Arithmetic on the stored representative agrees with arithmetic on integers

  /** `Mod(x, m) op k` for `+`, `-` and `*` holds what reducing `x op k` directly
      would give: the reduction of both operands in `_get_value` and construction is
      harmless for these operators. */
  lemma ReducedOperandsAgree(op: ArithOp, x: int, k: int, m: int)
    requires m > 0 && op != Pow
    ensures Apply(op, x % m, k % m) % m == Apply(op, x, k) % m
  {
    match op
    case Add => AddReduced(x, k, m);
    case Sub => SubReduced(x, k, m);
    case Mul => MulReduced(x, k, m);
  }

  /** `**` as written also reduces the exponent modulo `m`, which does not preserve
      powers: `Mod(2, 5) ** 7` holds 4, while `2 ** 7 % 5` is 3. */
  lemma PowReducesExponent()
    ensures Apply(Pow, 2 % 5, 7 % 5) % 5 == 4
    ensures Power(2, 7) % 5 == 3
  {
    assert Power(2, 2) == 4;
    assert Power(2, 7) == 128;
  }

  /** The evidently intended `**` with an integer exponent: the power of the stored
      value reduced modulo `m`, with the exponent left unreduced. */
  function PowIntended(value: int, exp: nat, m: int): (r: int)
    requires m > 0
    ensures 0 <= r < m
  {
    Power(value, exp) % m
  }

  /** Products of congruent factors are congruent. */
  lemma MulCongruent(a: int, b: int, c: int, d: int, m: int)
    requires m > 0 && a % m == c % m && b % m == d % m
    ensures (a * b) % m == (c * d) % m
  {
    MulReduced(a, b, m);
    MulReduced(c, d, m);
  }

  /** Reducing the base first does not change a power modulo `m`. */
  lemma {:induction false} PowerReduced(a: int, e: nat, m: int)
    requires m > 0
    ensures Power(a % m, e) % m == Power(a, e) % m
  {
    if e > 0 {
      var r, p, q := a % m, Power(a % m, e - 1), Power(a, e - 1);
      PowerReduced(a, e - 1, m);
      ModUnique(r, 0, r, m);
      MulCongruent(r, p, a, q, m);
      assert Power(r, e) == r * p && Power(a, e) == a * q;
    }
  }

  /** The intended `**` on `Mod(x, m)` agrees with the integer power of `x`. */
  lemma PowIntendedAgrees(x: int, e: nat, m: int)
    requires m > 0
    ensures PowIntended(x % m, e, m) == Power(x, e) % m
  {
    PowerReduced(x, e, m);
  }
}
