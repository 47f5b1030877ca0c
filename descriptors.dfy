/** Validating descriptors: an integer field and a string field that check a value
    against exclusive bounds before storing it in the instance dictionary under the
    descriptor's name, and a `Person` class using one of each. */
module Descriptors {
  import opened Values

  /** The attribute dictionary (`__dict__`) of an instance that owns descriptors. */
  class Instance {
    var dict: map<string, Value>

    constructor ()
      ensures dict == map[]
    {
      dict := map[];
    }
  }

  /** The two validating descriptor classes. */
  datatype FieldKind = IntegerKind | CharKind

  /** What `__get__` returns: the descriptor itself when looked up on the class, else
      the stored value. */
  datatype Got = Descriptor(d: Validator) | Stored(value: Value)

  /** `IntegerField.__set__`'s checks: an integer strictly between the bounds that are
      set. */
  function CheckInteger(mini: Option<int>, max: Option<int>, value: Value): (r: Outcome)
    ensures r == Pass <==>
      value.Int? && (mini.Some? ==> value.i > mini.value) && (max.Some? ==> value.i < max.value)
    ensures r == Fail(TypeError) <==> !value.Int?
    ensures r == Fail(ValueError) <==>
      value.Int? && ((mini.Some? && value.i <= mini.value) || (max.Some? && value.i >= max.value))
  {
    if !value.Int? then Fail(TypeError)
    else if mini.Some? && value.i <= mini.value then Fail(ValueError)
    else if max.Some? && value.i >= max.value then Fail(ValueError)
    else Pass
  }

  /** `CharField.__set__`'s checks: a string whose length is strictly between the bounds
      that are set. */
  function CheckChar(mini: Option<int>, max: Option<int>, value: Value): (r: Outcome)
    ensures r == Pass <==>
      value.Str? && (mini.Some? ==> |value.s| > mini.value) && (max.Some? ==> |value.s| < max.value)
    ensures r == Fail(TypeError) <==> !value.Str?
    ensures r == Fail(ValueError) <==>
      value.Str? && ((mini.Some? && |value.s| <= mini.value) || (max.Some? && |value.s| >= max.value))
  {
    if !value.Str? then Fail(TypeError)
    else if mini.Some? && |value.s| <= mini.value then Fail(ValueError)
    else if max.Some? && |value.s| >= max.value then Fail(ValueError)
    else Pass
  }

  /** `CharField.__init__`'s lower bound: `max(mini or 0, 0)`. A missing or zero bound
      becomes 0, a negative one is raised to 0, a positive one is kept. */
  function CharMini(mini: Option<int>): (r: int)
    ensures r >= 0
    ensures mini.Some? && mini.value > 0 ==> r == mini.value
    ensures mini.None? || mini.value <= 0 ==> r == 0
  {
    var m := if mini.Some? && mini.value != 0 then mini.value else 0;
    if m > 0 then m else 0
  }

  /** A validating descriptor (`BaseValidator` with the `__set__` of its subclass).
      `name` is what `__set_name__` records: the attribute it is bound to. */
  class Validator {
    const kind: FieldKind
    const name: string
    const mini: Option<int>
    const max: Option<int>

    /** `IntegerField(mini_, max_)` bound to `name`: the bounds are kept as given. */
    constructor IntegerField(name: string, mini: Option<int>, max: Option<int>)
      ensures kind == IntegerKind && this.name == name && this.mini == mini && this.max == max
    {
      kind := IntegerKind;
      this.name := name;
      this.mini := mini;
      this.max := max;
    }

    /** `CharField(mini_, max_)` bound to `name`: the lower bound is normalised, so it is
        never missing and never negative. */
    constructor CharField(name: string, mini: Option<int>, max: Option<int>)
      ensures kind == CharKind && this.name == name && this.max == max
      ensures this.mini == Some(CharMini(mini)) && this.mini.value >= 0
    {
      kind := CharKind;
      this.name := name;
      this.mini := Some(CharMini(mini));
      this.max := max;
    }

    /** The checks `__set__` makes for this descriptor. */
    function Check(value: Value): (r: Outcome)
    {
      match kind
      case IntegerKind => CheckInteger(mini, max, value)
      case CharKind => CheckChar(mini, max, value)
    }

    /** `__get__(instance, owner)`: on the class (`instance is None`) the descriptor
        itself, else the value stored under its name, `None` when nothing is. */
    function Get(instance: Option<Instance>): (r: Got)
      reads if instance.Some? then {instance.value} else {}
      ensures instance.None? ==> r == Descriptor(this)
      ensures instance.Some? && name !in instance.value.dict ==> r == Stored(NoneValue)
      ensures instance.Some? && name in instance.value.dict ==> r == Stored(instance.value.dict[name])
    {
      match instance
      case None => Descriptor(this)
      case Some(inst) => Stored(if name in inst.dict then inst.dict[name] else NoneValue)
    }

    /** `__set__(instance, value)`: stores the value under the descriptor's name only
        when every check passes; a failed set leaves the dictionary as it was. */
    method Set(instance: Instance, value: Value) returns (res: Outcome)
      modifies instance
      ensures res == Check(value)
      ensures res.Pass? ==> instance.dict == old(instance.dict)[name := value]
      ensures res.Pass? ==> Get(Some(instance)) == Stored(value)
      ensures res.Fail? ==> instance.dict == old(instance.dict)
    {
      res := Check(value);
      if res.Pass? {
        instance.dict := instance.dict[name := value];
      }
    }
  }

  /** `Person.name = CharField(1, 50)`. */
  const PersonNameMini: Option<int> := Some(1)
  const PersonNameMax: Option<int> := Some(50)
  /** `Person.age = IntegerField(0, 100)`. */
  const PersonAgeMini: Option<int> := Some(0)
  const PersonAgeMax: Option<int> := Some(100)

  /** The descriptors of `Person`, as its class body creates them. */
  method PersonFields() returns (nameField: Validator, ageField: Validator)
    ensures nameField.kind == CharKind && nameField.name == "name"
    ensures nameField.mini == Some(CharMini(PersonNameMini)) && nameField.max == PersonNameMax
    ensures ageField.kind == IntegerKind && ageField.name == "age"
    ensures ageField.mini == PersonAgeMini && ageField.max == PersonAgeMax
  {
    nameField := new Validator.CharField("name", PersonNameMini, PersonNameMax);
    ageField := new Validator.IntegerField("age", PersonAgeMini, PersonAgeMax);
  }

  /** A `Person` accepts names of 2 to 49 characters and ages from 1 to 99. */
  lemma PersonBounds(name: string, age: int)
    ensures CheckChar(Some(CharMini(PersonNameMini)), PersonNameMax, Str(name)) == Pass
      <==> 2 <= |name| <= 49
    ensures CheckInteger(PersonAgeMini, PersonAgeMax, Int(age)) == Pass <==> 1 <= age <= 99
  {
  }
}
