/** A regular polygon given by its number of edges `n` and circumradius `R`, whose five
    derived quantities are computed on first read and cached until `n` or `R` is
    reassigned. The cache-coherence invariant is `Polygon.Valid`: every filled cell holds
    its formula evaluated at the current `(n, R)`. */
module Polygons {
  import opened Values

  /** `sin(pi / n)` and `cos(pi / n)` as the `math` module computes them in floating
      point. The model does not fix their values; it only requires that the same `n`
      always gives the same result. */
  datatype Trig = Trig(sinPiOver: int -> real, cosPiOver: int -> real)

  /** `(n - 2) * (180 / n)`, in degrees, computed exactly. */
  function InteriorAngleOf(n: int): (r: real)
    requires n != 0
    ensures r == 180.0 - 360.0 / n as real
    ensures n >= 3 ==> 60.0 <= r < 180.0
  {
    (n - 2) as real * (180.0 / n as real)
  }

  /** `2 * R * sin(pi / n)`. */
  function EdgeLengthOf(t: Trig, n: int, R: int): real
    requires n != 0
  {
    2.0 * R as real * t.sinPiOver(n)
  }

  /** `R * cos(pi / n)`. */
  function ApothemOf(t: Trig, n: int, R: int): real
    requires n != 0
  {
    R as real * t.cosPiOver(n)
  }

  /** `0.5 * n * edge_length * apothem`. */
  function AreaOf(t: Trig, n: int, R: int): real
    requires n != 0
  {
    0.5 * n as real * EdgeLengthOf(t, n, R) * ApothemOf(t, n, R)
  }

  /** `n * edge_length`. */
  function PerimeterOf(t: Trig, n: int, R: int): real
    requires n != 0
  {
    n as real * EdgeLengthOf(t, n, R)
  }

  /** The concrete angles the test module expects for a triangle and a pentagon. */
  lemma InteriorAnglesOfTestShapes()
    ensures InteriorAngleOf(3) == 60.0
    ensures InteriorAngleOf(5) == 108.0
  {
  }

  /** `_validate_field(value, int)`: a `TypeError` for anything but an integer. */
  function ValidateField(value: Value): (r: Outcome)
    ensures r == Pass <==> value.Int?
    ensures r.Fail? ==> r.error == TypeError
  {
    if value.Int? then Pass else Fail(TypeError)
  }

  /** The checks of `Polygon.__init__`: both arguments integers (`n` checked first),
      then at least three edges. */
  function CheckPolygonArgs(n: Value, R: Value): (r: Outcome)
    ensures r == Pass <==> n.Int? && R.Int? && n.i >= 3
    ensures r == Fail(TypeError) <==> !n.Int? || !R.Int?
    ensures r == Fail(ValueError) <==> n.Int? && R.Int? && n.i < 3
  {
    if ValidateField(n).Fail? then ValidateField(n)
    else if ValidateField(R).Fail? then ValidateField(R)
    else if n.i < 3 then Fail(ValueError)
    else Pass
  }

  /** The result of `__eq__` or `__gt__`: an answer, or `NotImplemented` for an operand
      that is not a polygon. */
  datatype Comparison = Answer(b: bool) | NotImplemented

  /** The right-hand operand of a comparison. */
  datatype PolygonOperand = PolygonArg(p: Polygon) | OtherArg
  {
    function Reads(): set<object>
    {
      if PolygonArg? then {p} else {}
    }
  }

  /** The attributes a caller can assign to. */
  datatype Attribute =
    | Edges | Vertices | Circumradius
    | InteriorAngleAttr | EdgeLengthAttr | ApothemAttr | AreaAttr | PerimeterAttr
  {
    /** The five derived properties have a getter and no setter. */
    predicate IsDerived()
    {
      !(Edges? || Vertices? || Circumradius?)
    }
  }

  class Polygon {
    var n: int
    var vertices: int
    var R: int
    var interiorAngle: Option<real>
    var edgeLength: Option<real>
    var apothem: Option<real>
    var area: Option<real>
    var perimeter: Option<real>
    const trig: Trig

    /** Edges and vertices agree, and every filled cache cell holds its formula for
        the current `(n, R)`. A cell can only be filled when `n` is not zero, since the
        formula divides by `n`. */
    ghost predicate Valid()
      reads this
    {
      && vertices == n
      && (interiorAngle.Some? ==> n != 0 && interiorAngle.value == InteriorAngleOf(n))
      && (edgeLength.Some? ==> n != 0 && edgeLength.value == EdgeLengthOf(trig, n, R))
      && (apothem.Some? ==> n != 0 && apothem.value == ApothemOf(trig, n, R))
      && (area.Some? ==> n != 0 && area.value == AreaOf(trig, n, R))
      && (perimeter.Some? ==> n != 0 && perimeter.value == PerimeterOf(trig, n, R))
    }

    /** All five cache cells are empty. */
    ghost predicate CacheEmpty()
      reads this
    {
      interiorAngle.None? && edgeLength.None? && apothem.None? && area.None? && perimeter.None?
    }

    constructor Init(n: int, R: int, trig: Trig)
      requires n >= 3
      ensures Valid() && CacheEmpty()
      ensures this.n == n && this.vertices == n && this.R == R && this.trig == trig
    {
      this.n := n;
      this.R := R;
      this.vertices := n;
      this.trig := trig;
      interiorAngle := None;
      edgeLength := None;
      apothem := None;
      area := None;
      perimeter := None;
    }

    /** `Polygon(n, R)`, with the trigonometric functions supplied by the caller. */
    static method New(n: Value, R: Value, trig: Trig) returns (r: Result<Polygon>)
      ensures r.Ok? <==> CheckPolygonArgs(n, R) == Pass
      ensures r.Err? ==> CheckPolygonArgs(n, R) == Fail(r.error)
      ensures r.Ok? ==> fresh(r.value) && r.value.Valid() && r.value.CacheEmpty()
      ensures r.Ok? ==> r.value.n == n.i && r.value.vertices == n.i && r.value.R == R.i
      ensures r.Ok? ==> r.value.trig == trig
    {
      var check := CheckPolygonArgs(n, R);
      if check.Fail? {
        return Err(check.error);
      }
      var p := new Polygon.Init(n.i, R.i, trig);
      return Ok(p);
    }

    /** `__eq__`: same number of vertices and same circumradius; the cached values
        take no part. */
    function Eq(other: PolygonOperand): (r: Comparison)
      reads this, other.Reads()
      ensures r.Answer? <==> other.PolygonArg?
      ensures r.Answer? ==> (r.b <==> vertices == other.p.vertices && R == other.p.R)
    {
      match other
      case PolygonArg(p) => Answer(vertices == p.vertices && R == p.R)
      case OtherArg => NotImplemented
    }

    /** `__gt__`: more vertices; the circumradius takes no part. */
    function Gt(other: PolygonOperand): (r: Comparison)
      reads this, other.Reads()
      ensures r.Answer? <==> other.PolygonArg?
      ensures r.Answer? ==> (r.b <==> vertices > other.p.vertices)
    {
      match other
      case PolygonArg(p) => Answer(vertices > p.vertices)
      case OtherArg => NotImplemented
    }

    /** `_reset_properties_to_none`: empties the five cache cells and nothing else. */
    method ResetPropertiesToNone()
      modifies this
      ensures CacheEmpty()
      ensures n == old(n) && vertices == old(vertices) && R == old(R)
    {
      interiorAngle := None;
      edgeLength := None;
      apothem := None;
      area := None;
      perimeter := None;
    }

    /** The `edges` setter: type-checked, but not checked against the minimum of three
        edges that the constructor enforces. */
    method SetEdges(value: Value) returns (res: Outcome)
      requires Valid()
      modifies this
      ensures Valid()
      ensures res == ValidateField(value)
      ensures res.Pass? ==> n == value.i && vertices == value.i && R == old(R) && CacheEmpty()
      ensures res.Fail? ==> unchanged(this)
    {
      res := ValidateField(value);
      if res.Pass? {
        n := value.i;
        vertices := value.i;
        ResetPropertiesToNone();
      }
    }

    /** The `vertices` setter: the same as `edges`. */
    method SetVertices(value: Value) returns (res: Outcome)
      requires Valid()
      modifies this
      ensures Valid()
      ensures res == ValidateField(value)
      ensures res.Pass? ==> n == value.i && vertices == value.i && R == old(R) && CacheEmpty()
      ensures res.Fail? ==> unchanged(this)
    {
      res := ValidateField(value);
      if res.Pass? {
        vertices := value.i;
        n := value.i;
        ResetPropertiesToNone();
      }
    }

    /** The `circumradius` setter. */
    method SetCircumradius(value: Value) returns (res: Outcome)
      requires Valid()
      modifies this
      ensures Valid()
      ensures res == ValidateField(value)
      ensures res.Pass? ==> R == value.i && n == old(n) && vertices == old(vertices) && CacheEmpty()
      ensures res.Fail? ==> unchanged(this)
    {
      res := ValidateField(value);
      if res.Pass? {
        R := value.i;
        ResetPropertiesToNone();
      }
    }

    /** Attribute assignment `p.<attr> = value`: the three parameters go through their
        setters; the derived properties have no setter, so Python raises
        `AttributeError` and nothing changes. */
    method SetAttribute(attr: Attribute, value: Value) returns (res: Outcome)
      requires Valid()
      modifies this
      ensures Valid()
      ensures attr.IsDerived() ==> res == Fail(AttributeError) && unchanged(this)
      ensures !attr.IsDerived() ==> res == ValidateField(value)
      ensures res.Fail? ==> unchanged(this)
      ensures res.Pass? ==> CacheEmpty()
      ensures res.Pass? && (attr.Edges? || attr.Vertices?) ==>
        n == value.i && vertices == value.i && R == old(R)
      ensures res.Pass? && attr.Circumradius? ==> R == value.i && n == old(n)
    {
      match attr
      case Edges => res := SetEdges(value);
      case Vertices => res := SetVertices(value);
      case Circumradius => res := SetCircumradius(value);
      case _ => res := Fail(AttributeError);
    }

    /** The `interior_angle` property. */
    method InteriorAngle() returns (r: Result<real>)
      requires Valid()
      modifies this
      ensures Valid()
      ensures n == old(n) && vertices == old(vertices) && R == old(R)
      ensures r.Ok? <==> n != 0
      ensures r.Err? ==> r.error == ZeroDivisionError
      ensures r.Ok? ==> r.value == InteriorAngleOf(n) && interiorAngle == Some(r.value)
      ensures old(interiorAngle).Some? || r.Err? ==> unchanged(this)
      ensures edgeLength == old(edgeLength) && apothem == old(apothem)
      ensures area == old(area) && perimeter == old(perimeter)
    {
      if interiorAngle.None? {
        if n == 0 {
          return Err(ZeroDivisionError);
        }
        interiorAngle := Some(InteriorAngleOf(n));
      }
      return Ok(interiorAngle.value);
    }

    /** The `edge_length` property. */
    method EdgeLength() returns (r: Result<real>)
      requires Valid()
      modifies this
      ensures Valid()
      ensures n == old(n) && vertices == old(vertices) && R == old(R)
      ensures r.Ok? <==> n != 0
      ensures r.Err? ==> r.error == ZeroDivisionError
      ensures r.Ok? ==> r.value == EdgeLengthOf(trig, n, R) && edgeLength == Some(r.value)
      ensures old(edgeLength).Some? || r.Err? ==> unchanged(this)
      ensures interiorAngle == old(interiorAngle) && apothem == old(apothem)
      ensures area == old(area) && perimeter == old(perimeter)
    {
      if edgeLength.None? {
        if n == 0 {
          return Err(ZeroDivisionError);
        }
        edgeLength := Some(EdgeLengthOf(trig, n, R));
      }
      return Ok(edgeLength.value);
    }

    /** The `apothem` property. */
    method Apothem() returns (r: Result<real>)
      requires Valid()
      modifies this
      ensures Valid()
      ensures n == old(n) && vertices == old(vertices) && R == old(R)
      ensures r.Ok? <==> n != 0
      ensures r.Err? ==> r.error == ZeroDivisionError
      ensures r.Ok? ==> r.value == ApothemOf(trig, n, R) && apothem == Some(r.value)
      ensures old(apothem).Some? || r.Err? ==> unchanged(this)
      ensures interiorAngle == old(interiorAngle) && edgeLength == old(edgeLength)
      ensures area == old(area) && perimeter == old(perimeter)
    {
      if apothem.None? {
        if n == 0 {
          return Err(ZeroDivisionError);
        }
        apothem := Some(ApothemOf(trig, n, R));
      }
      return Ok(apothem.value);
    }

    /** The `area` property. On a cache miss it reads `edge_length` and then `apothem`
        through their getters, so those cells are filled as well. */
    method Area() returns (r: Result<real>)
      requires Valid()
      modifies this
      ensures Valid()
      ensures n == old(n) && vertices == old(vertices) && R == old(R)
      ensures r.Ok? <==> n != 0
      ensures r.Err? ==> r.error == ZeroDivisionError
      ensures r.Ok? ==> r.value == AreaOf(trig, n, R) && area == Some(r.value)
      ensures old(area).None? && r.Ok? ==> edgeLength.Some? && apothem.Some?
      ensures old(area).Some? || r.Err? ==> unchanged(this)
      ensures interiorAngle == old(interiorAngle) && perimeter == old(perimeter)
    {
      if area.None? {
        var el := EdgeLength();
        if el.Err? {
          return Err(el.error);
        }
        // `n` is not zero here, so `apothem` cannot raise.
        var ap := Apothem();
        area := Some(0.5 * n as real * el.value * ap.value);
      }
      return Ok(area.value);
    }

    /** The `perimeter` property. On a cache miss it reads `edge_length` through its
        getter, so that cell is filled as well. */
    method Perimeter() returns (r: Result<real>)
      requires Valid()
      modifies this
      ensures Valid()
      ensures n == old(n) && vertices == old(vertices) && R == old(R)
      ensures r.Ok? <==> n != 0
      ensures r.Err? ==> r.error == ZeroDivisionError
      ensures r.Ok? ==> r.value == PerimeterOf(trig, n, R) && perimeter == Some(r.value)
      ensures old(perimeter).None? && r.Ok? ==> edgeLength.Some?
      ensures old(perimeter).Some? || r.Err? ==> unchanged(this)
      ensures interiorAngle == old(interiorAngle) && apothem == old(apothem)
      ensures area == old(area)
    {
      if perimeter.None? {
        var el := EdgeLength();
        if el.Err? {
          return Err(el.error);
        }
        perimeter := Some(n as real * el.value);
      }
      return Ok(perimeter.value);
    }
  }

  /** `==` between polygons is an equivalence relation. */
  lemma EqIsEquivalence(a: Polygon, b: Polygon, c: Polygon)
    ensures a.Eq(PolygonArg(a)) == Answer(true)
    ensures a.Eq(PolygonArg(b)) == b.Eq(PolygonArg(a))
    ensures a.Eq(PolygonArg(b)) == Answer(true) && b.Eq(PolygonArg(c)) == Answer(true) ==>
      a.Eq(PolygonArg(c)) == Answer(true)
  {
  }

  /** `>` between polygons is a strict order, and equal polygons are not ordered. */
  lemma GtIsStrictOrder(a: Polygon, b: Polygon, c: Polygon)
    ensures a.Gt(PolygonArg(a)) == Answer(false)
    ensures a.Gt(PolygonArg(b)) == Answer(true) ==> b.Gt(PolygonArg(a)) == Answer(false)
    ensures a.Gt(PolygonArg(b)) == Answer(true) && b.Gt(PolygonArg(c)) == Answer(true) ==>
      a.Gt(PolygonArg(c)) == Answer(true)
    ensures a.Eq(PolygonArg(b)) == Answer(true) ==> a.Gt(PolygonArg(b)) == Answer(false)
  {
  }

  /** What the contracts above let a caller conclude about the shapes `(3, 1)` and
      `(5, 2)` used by the unit tests. */
  method ExampleScenario(t: Trig) returns (angle: Result<real>, refused: Outcome, divided: Result<real>)
    ensures angle == Ok(60.0)
    ensures refused == Fail(AttributeError)
    ensures divided == Err(ZeroDivisionError)
  {
    var r1 := Polygon.New(Int(3), Int(1), t);
    var r2 := Polygon.New(Int(3), Int(1), t);
    var r3 := Polygon.New(Int(5), Int(2), t);
    var bad1 := Polygon.New(Str("3"), Int(1), t);
    var bad2 := Polygon.New(Int(1), Int(3), t);
    assert bad1 == Err(TypeError) && bad2 == Err(ValueError);
    assert r1.Ok? && r2.Ok? && r3.Ok?;
    var p, p2, p3 := r1.value, r2.value, r3.value;
    assert p.Eq(PolygonArg(p2)) == Answer(true);
    assert p.Eq(PolygonArg(p3)) == Answer(false);
    assert p3.Gt(PolygonArg(p)) == Answer(true);
    assert p2.Gt(PolygonArg(p3)) == Answer(false);
    angle := p.InteriorAngle();
    InteriorAnglesOfTestShapes();
    assert angle == Ok(60.0);
    var again := p.InteriorAngle();
    assert again == angle;
    refused := p.SetAttribute(InteriorAngleAttr, Int(999));
    assert refused == Fail(AttributeError);
    // The `edges` setter does not re-check the minimum, so a later read can divide by 0.
    var setZero := p.SetEdges(Int(0));
    assert setZero == Pass;
    divided := p.InteriorAngle();
    assert divided == Err(ZeroDivisionError);
  }
}
