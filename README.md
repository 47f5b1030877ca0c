# Validated objects from the deep-dive OOP exercises, in Dafny

This project models six small Python exercises. Each one is a class whose attributes
are validated on construction and on assignment, some with lazily cached derived
values. Each source file becomes one Dafny module. A shared module `Values` holds
what they all need:

- a tagged `Value` that stands for a dynamically typed Python argument;
- the exception kinds `Error`;
- `Result`, `Outcome` and `Option`.

A raised exception is an `Err`/`Fail` result. A method that raises leaves the object
as it was, and its contract says so.

| module | source | what it is |
|---|---|---|
| `Inheritance` | `3_inher_project.py` | `validate_integer`, `validate_string`, the `Resource` ledger (`0 <= allocated <= total`), `category`, and the `SSD`/`HDD` constructors |
| `ModArith` | `2_poly_project.py` | `Mod`, an integer modulo a positive modulus: construction, operand resolution, comparisons including the ones `total_ordering` derives, `+ - * **`, the in-place forms, and negation |
| `Polygons` | `polygon.py`, `test_polygon.py` | a regular polygon with five lazily cached derived values and the cache-coherence invariant `Polygon.Valid` |
| `Accounts` | `1_cls_project.py` | a bank account with an integer balance, `str.strip`, name setters and a cached `full_name` |
| `Descriptors` | `4_descriptor_project.py` | `IntegerField` and `CharField` validating descriptors, and the `Person` bounds |
| `Articles` | `5_article_project.py` | the type-checking `ArticleField`, the class-level id counter, `__len__` and `short_introduction` |

Objects that Python updates in place are Dafny classes:

- `Resource`, `Mod`, `Polygon`, `Account` and `Article`;
- the instance `__dict__` that the descriptors write into;
- `Article._id`, which is an `IdCounter` object.

Their mutating methods state the whole new state and the invariant they keep (the
account's cached full name is the exception: it can go stale, and `Accounts.Account.FullName`
says what is read then). A
constructor that can raise is a static method `New` returning a `Result`. The
validation it runs is a separate function (`CheckResourceArgs`, `CheckPolygonArgs`,
`CheckAccountArgs`), whose contract gives each exception exactly.

Some behaviour of the code is modelled as it is, even where it looks unintended:

- The `edges` and `vertices` setters of `Polygon` do not re-check `n >= 3`. The model keeps that gap.
- The polygon getters therefore return `ZeroDivisionError` when `n` is 0. `Polygons.ExampleScenario` shows the sequence of calls.
- `Account.__init__` tests `balance < 0` before `isinstance(balance, int)`. So a string or `None` balance raises `TypeError` rather than the `ValueError` the message suggests.
- The two defects in the "## Findings" table are modelled as written, and next to each is its corrected form.

## Model

| member | source | states |
|---|---|---|
| `Inheritance.ValidateInteger` | 3_inher_project.py:1-11 | passes iff the value is an int within the optional bounds, both inclusive; `TypeError` exactly for a non-int, `ValueError` exactly for an int outside a given bound |
| `Inheritance.ValidateString` | 3_inher_project.py:14-16 | passes iff the value is a string, otherwise `TypeError` |
| `Inheritance.CheckResourceArgs` | 3_inher_project.py:20-27 | construction is accepted iff name and manufacturer are strings, `total >= 0` and `0 <= allocated <= total`; `TypeError` exactly for a non-string name or manufacturer, a non-int total, or a non-int `allocated` after a valid total; `ValueError` exactly for a negative total or an int `allocated` outside `0..total`; no other error kind is possible |
| `Inheritance.Category` | 3_inher_project.py:85-86 | the result has the class name's length, is all lower-case letters, and each character is the class name's character or its lower-case form |
| `Inheritance.Resource.Available` | 3_inher_project.py:54-56 | under the invariant, `0 <= available <= total`; it is zero exactly when everything is allocated |
| `Inheritance.Resource.Init` | 3_inher_project.py:28-31 | the four fields hold the validated arguments and the invariant holds |
| `Inheritance.Resource.New` | 3_inher_project.py:20-31 | succeeds iff `CheckResourceArgs` passes, otherwise returns that error; a new resource holds the arguments and satisfies `0 <= allocated <= total` |
| `Inheritance.Resource.Claim` | 3_inher_project.py:64-66 | accepted iff `0 <= n <= available`; then `allocated` grows by `n` and `total` is kept; a refusal changes nothing; the invariant is preserved |
| `Inheritance.Resource.Freeup` | 3_inher_project.py:68-70 | accepted iff `0 <= n <= allocated`; then `allocated` shrinks by `n` and `total` is kept; a refusal changes nothing; the invariant is preserved |
| `Inheritance.Resource.Died` | 3_inher_project.py:72-77 | accepted iff `0 <= n <= allocated`; then both `allocated` and `total` shrink by `n`, so `available` is unchanged; a refusal changes nothing |
| `Inheritance.Resource.Purchased` | 3_inher_project.py:79-83 | accepted iff `n >= 0`; then `total` grows by `n` and `allocated` is kept; a refusal changes nothing |
| `Inheritance.StorageInit` | 3_inher_project.py:126-134 | a call with other than five positional arguments is a `TypeError`; with five it passes iff the resource checks pass and the capacity is an int |
| `Inheritance.SsdInit` | 3_inher_project.py:146-157 | as written (`self` passed twice), every `SSD(...)` raises `TypeError` |
| `Inheritance.SsdInitIntended` | 3_inher_project.py:146-157 | with `self` passed once, `SSD(...)` succeeds iff the resource checks pass, the capacity is an int and the interface a string |
| `Inheritance.HddOwnChecks` | 3_inher_project.py:179-185 | passes iff the size is `2.5"` or `3.5"` and rpm an int in 1000..8000 inclusive |
| `Inheritance.HddInit` | 3_inher_project.py:169-185 | as written, every `HDD(...)` raises `TypeError`, so the size and rpm checks are never reached |
| `Inheritance.HddInitIntended` | 3_inher_project.py:169-185 | with `self` passed once, `HDD(...)` succeeds iff the resource, capacity, size and rpm checks all pass |
| `Inheritance.StorageSubclassesRejectValidArguments` | 3_inher_project.py:152-155 | valid argument sets exist (valid ledger numbers, a capacity, an interface, a `3.5"` size and an rpm in 1000..8000); the intended `SSD` and `HDD` constructors accept them and the constructors as written raise `TypeError` |
| `ModArith.ReduceIsCongruent` | 2_poly_project.py:17 | `v % m` is congruent to `v` modulo `m` |
| `ModArith.RemainderIsCongruence` | 2_poly_project.py:53-55 | for a reduced `v`, `k % m == v` iff `k` and `v` are congruent modulo `m` |
| `ModArith.AddReduced` | 2_poly_project.py:64-65 | adding reduced operands and reducing gives the reduced sum |
| `ModArith.SubReduced` | 2_poly_project.py:67-68 | subtracting reduced operands and reducing gives the reduced difference |
| `ModArith.MulReduced` | 2_poly_project.py:70-71 | multiplying reduced operands and reducing gives the reduced product |
| `ModArith.Normalise` | 2_poly_project.py:8-17 | `TypeError` for a non-int value or modulus, `ValueError` for a modulus `<= 0`; otherwise a value in `[0, modulus)` congruent to the input |
| `ModArith.Mod.Make` | 2_poly_project.py:16-17 | stores the modulus and the reduced value; the invariant `0 <= value < modulus` holds |
| `ModArith.Mod.New` | 2_poly_project.py:8-17 | succeeds exactly when `Normalise` does, with the same error otherwise; the new object holds the normalised value |
| `ModArith.Mod.GetValue` | 2_poly_project.py:36-41 | an int yields its reduction, congruent to it and in `[0, modulus)`; a `Mod` with the same modulus yields its value; anything else is `TypeError` |
| `ModArith.Mod.Eq` | 2_poly_project.py:53-55 | against an int `k`, true iff `k` is congruent to the value; against a compatible `Mod`, true iff the values match; an incompatible operand raises `TypeError` instead of comparing unequal |
| `ModArith.Mod.Ne` | 2_poly_project.py:53-55 | the negation of `==`, with the same errors |
| `ModArith.Mod.Lt` | 2_poly_project.py:57-59 | compares the value with the resolved operand; errors as for `_get_value` |
| `ModArith.Mod.Le` | 2_poly_project.py:53-59 | the `total_ordering` derivation from `<` and `==` is exactly `<=` on the reduced values |
| `ModArith.Mod.Gt` | 2_poly_project.py:53-59 | the `total_ordering` derivation is exactly `>` on the reduced values |
| `ModArith.Mod.Ge` | 2_poly_project.py:53-59 | the `total_ordering` derivation is exactly `>=` on the reduced values |
| `ModArith.Mod.PerformOperation` | 2_poly_project.py:43-51 | `+ - * **` give a new object with the same modulus holding `op(value, operand) % modulus`, and change neither operand; an incompatible operand is `TypeError` |
| `ModArith.Mod.PerformInPlace` | 2_poly_project.py:43-49 | `+= -= *= **=` set the value to `op(old value, operand) % modulus`, keep the modulus, return the same object, and change nothing on `TypeError` |
| `ModArith.Mod.Neg` | 2_poly_project.py:61-62 | unary minus always raises `ValueError` |
| `ModArith.ReducedOperandsAgree` | 2_poly_project.py:64-71 | for `+`, `-` and `*`, working on the reduced value and the reduced operand gives the same residue as the integers themselves |
| `ModArith.PowReducesExponent` | 2_poly_project.py:73-74 | as written, `Mod(2, 5) ** 7` holds 4, while `2 ** 7 % 5` is 3 |
| `ModArith.PowIntended` | 2_poly_project.py:73-74 | the intended power with an unreduced exponent lies in `[0, m)` |
| `ModArith.PowerReduced` | 2_poly_project.py:73-74 | reducing the base first does not change a power modulo `m` |
| `ModArith.PowIntendedAgrees` | 2_poly_project.py:73-74 | the intended `Mod(x, m) ** e` equals `x ** e % m` for every natural `e` |
| `Polygons.InteriorAngleOf` | polygon.py:84-85 | the angle is `180 - 360 / n`, and for `n >= 3` lies in `[60, 180)` |
| `Polygons.InteriorAnglesOfTestShapes` | test_polygon.py:46-48 | a triangle has interior angle 60 and a pentagon 108 |
| `Polygons.ValidateField` | polygon.py:43-47 | passes iff the value is an int, otherwise `TypeError` |
| `Polygons.CheckPolygonArgs` | polygon.py:5-9 | accepted iff both are ints and `n >= 3`; `TypeError` exactly when one is not an int; `ValueError` exactly for ints with `n < 3` |
| `Polygons.Polygon.Init` | polygon.py:11-18 | `edges == vertices == n`, `circumradius == R`, and all five cache cells empty |
| `Polygons.Polygon.New` | polygon.py:5-18 | succeeds iff `CheckPolygonArgs` passes, with its error otherwise; the new polygon satisfies the cache invariant and has an empty cache |
| `Polygons.Polygon.Eq` | polygon.py:23-28 | `NotImplemented` exactly for a non-polygon; otherwise true iff vertices and circumradius both match |
| `Polygons.Polygon.Gt` | polygon.py:30-34 | `NotImplemented` exactly for a non-polygon; otherwise true iff this polygon has more vertices, whatever the radii |
| `Polygons.Polygon.ResetPropertiesToNone` | polygon.py:36-41 | empties all five cells and keeps `n`, `vertices` and `R` |
| `Polygons.Polygon.SetEdges` | polygon.py:53-58 | type-checked, with no minimum; on success `edges == vertices == value`, `R` kept, cache empty; on `TypeError` nothing changes; cache coherence is preserved |
| `Polygons.Polygon.SetVertices` | polygon.py:64-69 | the same as the `edges` setter |
| `Polygons.Polygon.SetCircumradius` | polygon.py:75-79 | type-checked; on success `R == value` with `n` kept and the cache empty; on `TypeError` nothing changes |
| `Polygons.Polygon.SetAttribute` | test_polygon.py:49-50 | assigning one of the five derived properties raises `AttributeError` and changes nothing; the three parameters go through their setters |
| `Polygons.Polygon.InteriorAngle` | polygon.py:81-86 | succeeds iff `n != 0`, else `ZeroDivisionError`; the result is the formula at the current `n` and is stored; a cache hit returns the stored value unchanged; the other cells are untouched |
| `Polygons.Polygon.EdgeLength` | polygon.py:88-93 | succeeds iff `n != 0`; the result is `2 R sin(pi/n)` at the current `(n, R)`, stored on first read and reused |
| `Polygons.Polygon.Apothem` | polygon.py:95-100 | succeeds iff `n != 0`; the result is `R cos(pi/n)` at the current `(n, R)`, stored on first read and reused |
| `Polygons.Polygon.Area` | polygon.py:102-107 | succeeds iff `n != 0`; the result is `0.5 n edge_length apothem`, and reading it also fills the edge-length and apothem cells |
| `Polygons.Polygon.Perimeter` | polygon.py:109-114 | succeeds iff `n != 0`; the result is `n edge_length`, and reading it also fills the edge-length cell |
| `Polygons.EqIsEquivalence` | polygon.py:23-28 | `==` between polygons is reflexive, symmetric and transitive |
| `Polygons.GtIsStrictOrder` | polygon.py:30-34 | `>` between polygons is irreflexive, asymmetric and transitive, and equal polygons are not ordered |
| `Polygons.ExampleScenario` | test_polygon.py:10-50 | for the test shapes `(3, 1)`, `(3, 1)` and `(5, 2)`: the triangle's interior angle reads 60; assigning `interior_angle` raises `AttributeError`; after `edges` is set to 0, which the setter allows, reading the angle raises `ZeroDivisionError` |
| `Accounts.TrimStart` | 1_cls_project.py:16-17 | the result is a suffix of the input that does not start with whitespace, and everything removed is whitespace |
| `Accounts.TrimEnd` | 1_cls_project.py:16-17 | the result is a prefix of the input that does not end with whitespace, and everything removed is whitespace |
| `Accounts.Strip` | 1_cls_project.py:16-17 | the result neither starts nor ends with whitespace and is no longer than the input |
| `Accounts.TrimStartPastSpace` | 1_cls_project.py:16-17 | leading whitespace in front of a text that does not start with whitespace is removed exactly |
| `Accounts.TrimEndPastSpace` | 1_cls_project.py:16-17 | trailing whitespace after a text that does not end with whitespace is removed exactly |
| `Accounts.StripSurrounded` | 1_cls_project.py:16-17 | stripping whitespace around a text that neither starts nor ends with whitespace gives that text back |
| `Accounts.StripIdempotent` | 1_cls_project.py:16-17 | stripping twice is stripping once |
| `Accounts.CheckAccountArgs` | 1_cls_project.py:4-14 | accepted iff the three names are strings and the balance is an int `>= 0`; a non-string name gives `TypeError`; with string names, `ValueError` exactly for a negative int or a float balance, and `TypeError` for a str, `None`, datetime or other object not comparable with 0, since `balance < 0` fails before the type test |
| `Accounts.Account.Init` | 1_cls_project.py:16-20 | the names are stored stripped, the balance as given, and no full name is cached |
| `Accounts.Account.New` | 1_cls_project.py:4-20 | succeeds iff `CheckAccountArgs` passes, with its error otherwise; the new account holds stripped names, a non-negative balance and no cached full name |
| `Accounts.Account.ValidateAndSetName` | 1_cls_project.py:52-56 | accepts a string or `None` and stores it unstripped in the chosen name, otherwise `TypeError` with nothing changed; the other name, the balance and the cached full name are kept, so a direct call can leave the cache stale |
| `Accounts.Account.SetFirstName` | 1_cls_project.py:26-29 | on success the first name is replaced and the cached full name cleared, which makes the cache coherent; on `TypeError` nothing changes; the balance is kept |
| `Accounts.Account.SetLastName` | 1_cls_project.py:35-38 | on success the last name is replaced and the cached full name cleared, which makes the cache coherent; on `TypeError` nothing changes; the balance is kept |
| `Accounts.Account.FullName` | 1_cls_project.py:40-46 | a filled cache is returned as it is, whatever the names now are; an empty one is filled with `first + " " + last`, or the read raises `TypeError` when a name is `None`; when the cache was coherent before, the result is `first + " " + last` and the cache stays coherent |
| `Accounts.StaleFullName` | 1_cls_project.py:40-56 | for any names: after `full_name` reads the stripped first and last names joined by a space, a direct `validate_and_set_name` of the first name leaves the next read unchanged, although the first name has been replaced |
| `Accounts.Account.Deposit` | 1_cls_project.py:69-74 | accepted iff an int `> 0`, which is then added; otherwise `ValueError` and nothing changes; the balance stays non-negative |
| `Accounts.Account.Withdraw` | 1_cls_project.py:76-81 | accepted iff an int with `0 < v < balance`, which is then subtracted, leaving a positive balance; withdrawing all of it is refused with `ValueError`, and a refusal changes nothing |
| `Descriptors.CheckInteger` | 4_descriptor_project.py:16-24 | passes iff an int strictly between the bounds that are set; `TypeError` exactly for a non-int; `ValueError` exactly for an int on or past a bound |
| `Descriptors.CheckChar` | 4_descriptor_project.py:35-43 | passes iff a string whose length is strictly between the bounds that are set; `TypeError` exactly for a non-string; `ValueError` exactly for a length on or past a bound |
| `Descriptors.CharMini` | 4_descriptor_project.py:30-33 | the normalised lower bound is never negative; a positive bound is kept; a missing, zero or negative one becomes 0 |
| `Descriptors.Validator.IntegerField` | 4_descriptor_project.py:2-7 | an integer descriptor bound to its name, with the bounds as given |
| `Descriptors.Validator.CharField` | 4_descriptor_project.py:30-33 | a string descriptor whose lower bound is present and non-negative |
| `Descriptors.Validator.Get` | 4_descriptor_project.py:9-12 | on the class, the descriptor itself; on an instance, the stored value, or `None` before any successful set |
| `Descriptors.Validator.Set` | 4_descriptor_project.py:16-45 | the outcome is the descriptor's checks; on success the value is stored under the name and read back by `Get`; a failed set leaves the dictionary as it was |
| `Descriptors.PersonFields` | 4_descriptor_project.py:48-50 | `Person.name` is a string field with bounds 1 and 50 (after normalisation) and `Person.age` an integer field with bounds 0 and 100 |
| `Descriptors.PersonBounds` | 4_descriptor_project.py:48-50 | a `Person` accepts exactly the names of 2 to 49 characters and the ages 1 to 99 |
| `Articles.ArticleField.Get` | 5_article_project.py:28-31 | on the class, the field itself; on an article, the stored value, or `None` for an unset field |
| `Articles.ArticleField.Set` | 5_article_project.py:18-26 | succeeds iff the value has the field's type; then it is stored under the field's name and read back by `Get`; a `TypeError` leaves the dictionary as it was |
| `Articles.IdCounter.constructor` | 5_article_project.py:35 | the class counter starts at 0 |
| `Articles.ValidatePositive` | 5_article_project.py:69-76 | passes iff a positive int; `TypeError` exactly for a non-int; `ValueError` exactly for an int `<= 0` |
| `Articles.Article.New` | 5_article_project.py:42-48 | succeeds iff the title, author and content are strings and the date is a datetime, otherwise `TypeError` with the counter untouched; a new article holds the four values and takes the counter's value as its id, and the counter moves on by one |
| `Articles.Article.Length` | 5_article_project.py:63-64 | `len(article)` is the length of its content |
| `Articles.Article.ShortIntroduction` | 5_article_project.py:78-82 | `TypeError` for a non-int, `ValueError` for `n <= 0`, `IndexError` for `n >= len(content)`; otherwise the longest prefix `content[:i]` with `i <= n` and a space or newline at `i`, and `None` when `content[0..n]` holds neither |
| `Articles.IdsConsecutive` | 5_article_project.py:47-48 | the id sequence `IdsAssigned` describes is consecutive from the starting counter value, hence distinct and increasing |
| `Articles.ConstructAll` | 5_article_project.py:42-48 | running the constructor over any sequence of argument sets with one shared counter hands out exactly the ids `IdsAssigned` gives for the well-typed ones, consecutive from the starting counter value, and the counter moves on by their number |

## Left out

- `Account.pay_interest`, `_interest_rate`, `get_interest_rate` and `set_interest_rate` are not modelled. They work on floating point.
- The values of `sin` and `cos` are not modelled. They come from floating-point library calls, so they are a parameter (`Polygons.Trig`). The `isclose` checks of the polygon tests are therefore not restated.
- Polygons.Polygon.New: the trigonometric functions are stored per polygon, so the model does not promise that two polygons agree on `sin(pi / n)`. In Python they share the one `math` module.
- The interior angle is computed exactly over the reals. Python computes it in floating point.
- `__repr__` and `__str__` of every class are not modelled. They only format text.
- `Mod.__hash__` and `Mod.__int__` are not modelled. The first relies on the built-in `hash`; the second only returns the value.
- Reflected arithmetic (`k + Mod(...)`) is not modelled. `int.__add__` returns `NotImplemented` and `Mod` defines no `__radd__` or other reflected operator, so Python raises `TypeError`.
- Reflected comparisons (`k == Mod(...)`, `k < Mod(...)`) are not modelled. Python answers them through `Mod.__eq__` and the derived `Mod.__gt__`, which `Eq` and `Gt` model with the operands swapped.
- A negative exponent in `**` cannot occur. `_get_value` reduces every int operand into `[0, modulus)`, so no restriction is placed on exponents.
- `bool` counting as an `int` in `isinstance` is not modelled. A `Value` is either `Int` or something else.
- `Strip` covers the characters `str.isspace` accepts, listed by code point. Unicode properties are otherwise not modelled.
- Accounts.Account.New: the default `balance=0` is not modelled. Every call passes the balance explicitly; omitting it behaves as passing `Int(0)`.
- Accounts.CheckAccountArgs: a numeric object such as a `Decimal` or a `Fraction` compares with 0, so Python refuses it with `ValueError`; such objects are not represented, and `Obj` stands only for objects that cannot be compared with an int.
- Accounts.Account.ValidateAndSetName: `setattr` can write any attribute name, but the model limits it to the two names the setters pass (`NameField`).
- The `CPU` subclass is not modelled. Its constructor only adds a string check and two unbounded integer checks to those of `Resource`.
- The `Resource` repr tuples are not modelled. They are construction-time snapshots.
- `ArticleField.__set__` stamps `_last_edited` with the wall clock when the content is set. That timestamp is not modelled, and neither are `last_edited`, `Article.__repr__` or `Article.__lt__`, which compare or format dates.
- A datetime is an opaque `DateTime` value.
- `Article.most_common_words` is not modelled. It relies on a Unicode regular expression, `str.lower` and `Counter.most_common` tie-breaking.
- `__set_name__` is not modelled. The name it records is a constructor argument of the descriptor.
- `super()` dispatch is not modelled. Each subclass constructor calls the parent's checks directly.
- The `total_ordering` decorator itself is not modelled. `Le`, `Gt` and `Ge` spell out the methods it derives.
- `Articles.Article.New` does not model a failing constructor leaving a half-filled instance behind. The partly built article is unreachable afterwards.
- The error messages of all exceptions are not modelled. `validate_integer` accepts its custom-message parameters and ignores them. Only the exception type is kept.

## Findings

| source | as written | input that shows it | evidently intended | confidence | as-written member | corrected member |
|---|---|---|---|---|---|---|
| 3_inher_project.py:152-155 | `SSD.__init__` and `HDD.__init__` pass `self` to `super().__init__` in addition to the implicit one, so `Storage.__init__` gets six positional arguments for five parameters | `SSD('s', 'm', 1, 0, 256, 'SATA')` raises `TypeError` | pass the five arguments without `self`, after which valid arguments construct a drive | high, not executed | `Inheritance.SsdInit`, `Inheritance.HddInit` | `Inheritance.SsdInitIntended`, `Inheritance.HddInitIntended` |
| 2_poly_project.py:73-74 | `**` resolves its exponent through `_get_value`, which reduces it modulo the modulus, and exponents do not work modulo `m` | `Mod(2, 5) ** 7` holds 4, while `2 ** 7 % 5 == 3` | raise the value to the unreduced integer exponent, then reduce | medium, not executed | `ModArith.PowReducesExponent` | `ModArith.PowIntended` |
