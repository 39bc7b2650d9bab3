/** The two field validators of the pydantic `ContactBase` models. The same
    validator bodies appear in fastapi/app.py, fastapi_sync/app.py and
    fastapi_sync/schemas.py; this module defines them once, together with the
    way pydantic applies a field's type and nullability before its validator. */
module Validators {
  import opened Common

  const NullUsername := "username cannot be null"
  const ShortUsername := "username must be at least 3 characters long"
  const InvalidPhone := "phonenumber must be a valid 10-digit integer"

  /** `validate_username_length`: an empty name is reported as null, a name of
      one or two characters as too short; any other name is returned as given. */
  function ValidateUsername(value: string): (r: Result<string, string>)
    ensures r.Ok? <==> |value| >= 3
    ensures r.Ok? ==> r.value == value
    ensures value == "" ==> r == Err(NullUsername)
    ensures 0 < |value| < 3 ==> r == Err(ShortUsername)
  {
    if |value| == 0 then Err(NullUsername)
    else if |value| < 3 then Err(ShortUsername)
    else Ok(value)
  }

  /** The decimal digits of a natural number, most significant first. */
  function NatToDecimal(n: nat): (s: string)
    ensures |s| >= 1
  {
    if n < 10 then ["0123456789"[n]]
    else NatToDecimal(n / 10) + ["0123456789"[n % 10]]
  }

  /** Python's `str(n)` for an integer: a minus sign before the digits of a
      negative number. */
  function IntToDecimal(n: int): string
  {
    if n < 0 then "-" + NatToDecimal(-n) else NatToDecimal(n)
  }

  function Pow10(k: nat): nat
  {
    if k == 0 then 1 else 10 * Pow10(k - 1)
  }

  /** A number is written with at most `k` digits exactly when it is below 10^k. */
  lemma {:induction false} DigitCountBound(n: nat, k: nat)
    requires k >= 1
    ensures |NatToDecimal(n)| <= k <==> n < Pow10(k)
  {
    if n >= 10 {
      if k == 1 {
        assert |NatToDecimal(n)| == |NatToDecimal(n / 10)| + 1;
        assert Pow10(1) == 10;
      } else {
        DigitCountBound(n / 10, k - 1);
        assert |NatToDecimal(n)| == |NatToDecimal(n / 10)| + 1;
        assert Pow10(k) == 10 * Pow10(k - 1);
      }
    } else {
      assert Pow10(k) >= 10 by { Pow10AtLeastTen(k); }
    }
  }

  lemma {:induction false} Pow10AtLeastTen(k: nat)
    requires k >= 1
    ensures Pow10(k) >= 10
  {
    if k > 1 {
      Pow10AtLeastTen(k - 1);
    }
  }

  /** The condition of `validate_phonenumber_range` — `len(str(value)) == 10`
      and `1 <= value <= 9999999999` — holds exactly for the ten-digit numbers. */
  lemma TenDigitNumbers(value: int)
    ensures (|IntToDecimal(value)| == 10 && 1 <= value <= 9999999999)
            <==> 1000000000 <= value <= 9999999999
  {
    assert Pow10(9) == 1000000000;
    assert Pow10(10) == 10000000000;
    if value >= 1 {
      DigitCountBound(value, 10);
      DigitCountBound(value, 9);
    }
  }

  /** `validate_phonenumber_range`, with the integer that pydantic produced. */
  function ValidatePhone(value: int): (r: Result<int, string>)
    ensures r.Ok? <==> 1000000000 <= value <= 9999999999
    ensures r.Ok? ==> r.value == value
    ensures r.Err? ==> r.error == InvalidPhone
  {
    TenDigitNumbers(value);
    if |IntToDecimal(value)| != 10 || !(1 <= value <= 9999999999) then Err(InvalidPhone)
    else Ok(value)
  }

  // ---- how pydantic treats a declared field before its validator runs ----

  /** A field declared with a plain type and no default: absent is "field
      required", `null` is "none is not an allowed value". */
  function RequiredField<T>(r: Raw<T>): (v: Result<T, Problem>)
    ensures v.Ok? <==> r.Given?
    ensures r.Given? ==> v == Ok(r.value)
  {
    match r
    case Missing => Err(FieldRequired)
    case Null => Err(NoneNotAllowed)
    case Given(x) => Ok(x)
  }

  /** A field declared `Optional[str]` (or `str | None = None`): absent and
      `null` both give `None`. */
  function OptionalField<T>(r: Raw<T>): (v: Option<T>)
    ensures v.Some? <==> r.Given?
    ensures r.Given? ==> v == Some(r.value)
  {
    if r.Given? then Some(r.value) else None
  }

  /** A required `int` field: the value must be present and convertible. */
  function IntegerField(r: Raw<NumberInput>): (v: Result<int, Problem>)
    ensures v.Ok? <==> r.Given? && r.value.IntegerInput?
    ensures v.Ok? ==> v.value == r.value.n
  {
    match r
    case Missing => Err(FieldRequired)
    case Null => Err(NoneNotAllowed)
    case Given(NotNumeric) => Err(NotInteger)
    case Given(IntegerInput(n)) => Ok(n)
  }

  /** The `username: str` field with its validator. */
  function UsernameField(r: Raw<string>): (v: Result<string, Problem>)
    ensures v.Ok? <==> r.Given? && |r.value| >= 3
    ensures v.Ok? ==> v.value == r.value
    ensures r == Given("") ==> v == Err(Rejected(NullUsername))
    ensures r.Given? && 1 <= |r.value| < 3 ==> v == Err(Rejected(ShortUsername))
  {
    match RequiredField(r)
    case Err(p) => Err(p)
    case Ok(s) =>
      match ValidateUsername(s)
      case Ok(u) => Ok(u)
      case Err(m) => Err(Rejected(m))
  }

  /** The `phonenumber: int` field with its validator. */
  function PhoneField(r: Raw<NumberInput>): (v: Result<int, Problem>)
    ensures v.Ok? <==> r.Given? && r.value.IntegerInput? && 1000000000 <= r.value.n <= 9999999999
    ensures v.Ok? ==> v.value == r.value.n
    ensures r.Given? && r.value.IntegerInput? && !v.Ok? ==> v == Err(Rejected(InvalidPhone))
  {
    match IntegerField(r)
    case Err(p) => Err(p)
    case Ok(n) =>
      match ValidatePhone(n)
      case Ok(x) => Ok(x)
      case Err(m) => Err(Rejected(m))
  }

  /** The username validator's three outcomes, as fastapi_sync/app.py states them. */
  lemma UsernameOutcomes(value: string)
    ensures |value| == 0 ==> ValidateUsername(value) == Err(NullUsername)
    ensures 1 <= |value| <= 2 ==> ValidateUsername(value) == Err(ShortUsername)
    ensures |value| >= 3 ==> ValidateUsername(value) == Ok(value)
  {
  }

  /** The phone validator of fastapi_sync/app.py accepts exactly the ten-digit
      numbers and then returns the number unchanged. */
  lemma PhoneOutcomes(value: int)
    ensures 1000000000 <= value <= 9999999999 ==> ValidatePhone(value) == Ok(value)
    ensures value < 1000000000 || value > 9999999999 ==> ValidatePhone(value) == Err(InvalidPhone)
  {
  }
}
