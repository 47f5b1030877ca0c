/** A bank account with an integer balance that deposits and withdrawals keep
    non-negative, and a `full_name` that is cached until a name setter clears it. */
module Accounts {
  import opened Values

  // ---------------------------------------------------------------------------
  // `str.strip()` without arguments

  /** The characters `str.isspace` accepts, which `str.strip()` removes. */
  predicate IsSpace(c: char)
  {
    || '\t' <= c <= '\r'
    || '\U{1C}' <= c <= ' '
    || c == '\U{85}' || c == '\U{A0}' || c == '\U{1680}'
    || '\U{2000}' <= c <= '\U{200A}'
    || c == '\U{2028}' || c == '\U{2029}' || c == '\U{202F}' || c == '\U{205F}'
    || c == '\U{3000}'
  }

  /** `s` with its leading whitespace removed. */
  function TrimStart(s: string): (r: string)
    ensures |r| <= |s| && r == s[|s| - |r|..]
    ensures r == [] || !IsSpace(r[0])
    ensures forall i :: 0 <= i < |s| - |r| ==> IsSpace(s[i])
  {
    if s != [] && IsSpace(s[0]) then TrimStart(s[1..]) else s
  }

  /** `s` with its trailing whitespace removed. */
  function TrimEnd(s: string): (r: string)
    ensures |r| <= |s| && r == s[..|r|]
    ensures r == [] || !IsSpace(r[|r| - 1])
    ensures forall i :: |r| <= i < |s| ==> IsSpace(s[i])
  {
    if s != [] && IsSpace(s[|s| - 1]) then TrimEnd(s[..|s| - 1]) else s
  }

  /** `s.strip()`: the result neither starts nor ends with whitespace. */
  function Strip(s: string): (r: string)
    ensures |r| <= |s|
    ensures r == [] || (!IsSpace(r[0]) && !IsSpace(r[|r| - 1]))
  {
    TrimEnd(TrimStart(s))
  }

  /** All characters of `s` are whitespace. */
  predicate AllSpace(s: string)
  {
    forall i :: 0 <= i < |s| ==> IsSpace(s[i])
  }

  lemma {:induction false} TrimStartPastSpace(a: string, s: string)
    requires AllSpace(a) && (s == [] || !IsSpace(s[0]))
    ensures TrimStart(a + s) == s
  {
    if a != [] {
      assert (a + s)[1..] == a[1..] + s;
      TrimStartPastSpace(a[1..], s);
    } else {
      assert a + s == s;
    }
  }

  lemma {:induction false} TrimEndPastSpace(s: string, b: string)
    requires AllSpace(b) && (s == [] || !IsSpace(s[|s| - 1]))
    ensures TrimEnd(s + b) == s
  {
    if b != [] {
      assert (s + b)[..|s + b| - 1] == s + b[..|b| - 1];
      TrimEndPastSpace(s, b[..|b| - 1]);
    } else {
      assert s + b == s;
    }
  }

  /** `strip` removes exactly the whitespace around a text that neither starts nor ends
      with whitespace. Together with the contract of `Strip`, this says the result is
      the input without its surrounding whitespace. */
  lemma StripSurrounded(a: string, s: string, b: string)
    requires AllSpace(a) && AllSpace(b)
    requires s == [] || (!IsSpace(s[0]) && !IsSpace(s[|s| - 1]))
    ensures Strip(a + s + b) == s
  {
    if s == [] {
      assert a + s + b == a + b;
      TrimStartPastSpace(a + b, []);
      assert a + b + [] == a + b;
      assert TrimEnd([]) == [];
    } else {
      assert a + s + b == a + (s + b);
      TrimStartPastSpace(a, s + b);
      TrimEndPastSpace(s, b);
    }
  }

  /** Stripping twice is stripping once. */
  lemma StripIdempotent(s: string)
    ensures Strip(Strip(s)) == Strip(s)
  {
    var r := Strip(s);
    StripSurrounded([], r, []);
    assert [] + r + [] == r;
  }

  // ---------------------------------------------------------------------------
  // The account

  /** The checks of `Account.__init__`. The three names must be strings. The balance
      test is `balance < 0 or not isinstance(balance, int)`: the comparison runs first,
      so a string, `None` or other object that cannot be compared with 0 raises
      `TypeError`, while a float is refused with `ValueError` whatever its sign. */
  function CheckAccountArgs(first: Value, last: Value, acctNum: Value, balance: Value): (r: Outcome)
    ensures r == Pass <==> first.Str? && last.Str? && acctNum.Str? && balance.Int? && balance.i >= 0
    ensures !first.Str? || !last.Str? || !acctNum.Str? ==> r == Fail(TypeError)
    ensures first.Str? && last.Str? && acctNum.Str? ==>
      (r == Fail(ValueError) <==> (balance.Int? && balance.i < 0) || balance.Float?)
    ensures first.Str? && last.Str? && acctNum.Str? && !balance.Int? && !balance.Float? ==>
      r == Fail(TypeError)
  {
    if !first.Str? || !last.Str? || !acctNum.Str? then Fail(TypeError)
    else
      match balance
      case Int(b) => if b < 0 then Fail(ValueError) else Pass
      case Float(_) => Fail(ValueError)
      case _ => Fail(TypeError)
  }

  /** Which name `validate_and_set_name` writes. */
  datatype NameField = First | Last

  /** The name a setter stores: the string itself, or `None`. */
  function StoredName(value: Value): Option<string>
  {
    if value.Str? then Some(value.s) else None
  }

  class Account {
    var firstName: Option<string>
    var lastName: Option<string>
    const acctNum: string
    var balance: int
    var fullName: Option<string>

    /** The balance is never negative: construction, `deposit` and `withdraw` keep it so. */
    ghost predicate Valid()
      reads this
    {
      balance >= 0
    }

    /** A cached full name is the two names joined by one space. Construction and the
        two setters establish it; a direct `validate_and_set_name` call after a read of
        `full_name` breaks it, and the cache then goes stale. */
    ghost predicate CacheCoherent()
      reads this
    {
      fullName.Some? ==>
        firstName.Some? && lastName.Some? &&
        fullName.value == firstName.value + " " + lastName.value
    }

    constructor Init(first: string, last: string, acctNum: string, balance: int)
      requires balance >= 0
      ensures Valid() && CacheCoherent()
      ensures firstName == Some(Strip(first)) && lastName == Some(Strip(last))
      ensures this.acctNum == acctNum && this.balance == balance && fullName.None?
    {
      firstName := Some(Strip(first));
      lastName := Some(Strip(last));
      this.acctNum := acctNum;
      this.balance := balance;
      fullName := None;
    }

    /** `Account(first_name, last_name, acct_num, balance)`: names stored stripped,
        full name not yet computed. */
    static method New(first: Value, last: Value, acctNum: Value, balance: Value)
      returns (r: Result<Account>)
      ensures r.Ok? <==> CheckAccountArgs(first, last, acctNum, balance) == Pass
      ensures r.Err? ==> CheckAccountArgs(first, last, acctNum, balance) == Fail(r.error)
      ensures r.Ok? ==> fresh(r.value) && r.value.Valid() && r.value.CacheCoherent()
      ensures r.Ok? ==> r.value.firstName == Some(Strip(first.s)) && r.value.lastName == Some(Strip(last.s))
      ensures r.Ok? ==> r.value.acctNum == acctNum.s && r.value.balance == balance.i
      ensures r.Ok? ==> r.value.fullName.None?
    {
      var check := CheckAccountArgs(first, last, acctNum, balance);
      if check.Fail? {
        return Err(check.error);
      }
      var a := new Account.Init(first.s, last.s, acctNum.s, balance.i);
      return Ok(a);
    }

    /** `validate_and_set_name`: stores a string or `None` as given (no stripping) into
        one name, else raises `TypeError`. It does not touch the cached full name;
        the setters that call it do. */
    method ValidateAndSetName(field: NameField, value: Value) returns (res: Outcome)
      modifies this
      ensures res == Pass <==> value.Str? || value.NoneValue?
      ensures res.Fail? ==> res.error == TypeError && unchanged(this)
      ensures res.Pass? && field == First ==> firstName == StoredName(value) && lastName == old(lastName)
      ensures res.Pass? && field == Last ==> lastName == StoredName(value) && firstName == old(firstName)
      ensures balance == old(balance) && fullName == old(fullName)
    {
      if value.Str? || value.NoneValue? {
        match field {
          case First => firstName := StoredName(value);
          case Last => lastName := StoredName(value);
        }
        res := Pass;
      } else {
        res := Fail(TypeError);
      }
    }

    /** The `first_name` setter: on success the cached full name is cleared. */
    method SetFirstName(value: Value) returns (res: Outcome)
      requires Valid()
      modifies this
      ensures Valid()
      ensures res.Pass? || old(CacheCoherent()) ==> CacheCoherent()
      ensures res == Pass <==> value.Str? || value.NoneValue?
      ensures res.Fail? ==> res.error == TypeError && unchanged(this)
      ensures res.Pass? ==> firstName == StoredName(value) && lastName == old(lastName) && fullName.None?
      ensures balance == old(balance)
    {
      res := ValidateAndSetName(First, value);
      if res.Pass? {
        fullName := None;
      }
    }

    /** The `last_name` setter: on success the cached full name is cleared. */
    method SetLastName(value: Value) returns (res: Outcome)
      requires Valid()
      modifies this
      ensures Valid()
      ensures res.Pass? || old(CacheCoherent()) ==> CacheCoherent()
      ensures res == Pass <==> value.Str? || value.NoneValue?
      ensures res.Fail? ==> res.error == TypeError && unchanged(this)
      ensures res.Pass? ==> lastName == StoredName(value) && firstName == old(firstName) && fullName.None?
      ensures balance == old(balance)
    {
      res := ValidateAndSetName(Last, value);
      if res.Pass? {
        fullName := None;
      }
    }

    /** The `full_name` property: `first + ' ' + last`, computed on the first read after
        construction or a name change and then reused. A name set to `None` makes the
        concatenation raise `TypeError`. A filled cache is returned as it is, whether or
        not it still matches the names. */
    method FullName() returns (r: Result<string>)
      modifies this
      ensures firstName == old(firstName) && lastName == old(lastName) && balance == old(balance)
      ensures old(fullName).Some? ==> r == Ok(old(fullName).value) && unchanged(this)
      ensures old(fullName).None? ==> (r.Ok? <==> firstName.Some? && lastName.Some?)
      ensures r.Err? ==> r.error == TypeError && unchanged(this)
      ensures old(fullName).None? && r.Ok? ==> fullName == Some(r.value)
      ensures old(CacheCoherent()) ==> CacheCoherent()
      ensures old(CacheCoherent()) ==>
        (r.Ok? <==> firstName.Some? && lastName.Some?) &&
        (r.Ok? ==> r.value == firstName.value + " " + lastName.value && fullName == Some(r.value))
    {
      if fullName.None? {
        if firstName.None? || lastName.None? {
          return Err(TypeError);
        }
        fullName := Some(firstName.value + " " + lastName.value);
      }
      return Ok(fullName.value);
    }

    /** `deposit(value)`: a positive integer is added; anything else raises
        `ValueError` and leaves the account as it was. */
    method Deposit(value: Value) returns (res: Outcome)
      requires Valid()
      modifies this
      ensures Valid()
      ensures res == Pass <==> value.Int? && value.i > 0
      ensures res.Fail? ==> res.error == ValueError && unchanged(this)
      ensures res.Pass? ==> balance == old(balance) + value.i && balance > old(balance)
      ensures firstName == old(firstName) && lastName == old(lastName) && fullName == old(fullName)
    {
      if value.Int? && value.i > 0 {
        balance := balance + value.i;
        res := Pass;
      } else {
        res := Fail(ValueError);
      }
    }

    /** `withdraw(value)`: a positive integer strictly below the balance is subtracted,
        so the balance stays positive and withdrawing all of it is refused; anything
        else raises `ValueError` and leaves the account as it was. */
    method Withdraw(value: Value) returns (res: Outcome)
      requires Valid()
      modifies this
      ensures Valid()
      ensures res == Pass <==> value.Int? && 0 < value.i < old(balance)
      ensures res.Fail? ==> res.error == ValueError && unchanged(this)
      ensures res.Pass? ==> balance == old(balance) - value.i && 0 < balance < old(balance)
      ensures firstName == old(firstName) && lastName == old(lastName) && fullName == old(fullName)
    {
      if value.Int? && balance > value.i > 0 {
        balance := balance - value.i;
        res := Pass;
      } else {
        res := Fail(ValueError);
      }
    }
  }

  /** `validate_and_set_name` is public, and a direct call after a read of `full_name`
      leaves the cache stale: the next read still returns the old full name, although
      the first name is now `renamed`. */
  method StaleFullName(first: string, last: string, renamed: string)
    returns (before: Result<string>, after: Result<string>, firstNow: Option<string>)
    ensures before == Ok(Strip(first) + " " + Strip(last)) && after == before
    ensures firstNow == Some(renamed)
  {
    var a := new Account.Init(first, last, "1", 0);
    before := a.FullName();
    var stored := a.ValidateAndSetName(First, Str(renamed));
    after := a.FullName();
    firstNow := a.firstName;
  }
}
