/** `ContactSchema` of flask/app.py, loaded the way marshmallow 3 loads it:
    each field is deserialized and its `validate=` predicate checked; a
    `@validates('username')` hook then sees the username only if that field
    passed. Only when no field failed does marshmallow call the
    `@validates_schema` hook, and it calls it with `partial` and `many` keyword
    arguments that the hook's two-parameter signature does not accept: that
    call raises `TypeError`, so `load` never returns the loaded data. */
module FlaskSchema {
  import opened Common
  import Validators

  /** marshmallow's message when a `validate=` predicate returns false. */
  const InvalidValue := "Invalid value."
  const PhoneNotInteger := "phonenumber must be an integer"

  /** The loaded dictionary: a key is absent (`None` here) when the body did
      not carry it; `country` and `state` may also hold `null`. */
  datatype Loaded = Loaded(
    username: string,
    email: Option<string>,
    phonenumber: Option<int>,
    emailOptIn: Option<bool>,
    smsOptIn: Option<bool>,
    country: Option<Option<string>>,
    state: Option<Option<string>>,
    matmOwner: Option<string>)

  datatype FlaskBody = FlaskBody(
    username: Raw<string>,
    email: Raw<string>,
    phonenumber: Raw<NumberInput>,
    emailOptIn: Raw<bool>,
    smsOptIn: Raw<bool>,
    country: Raw<string>,
    state: Raw<string>,
    matmOwner: Raw<string>)

  /** The body of the `@validates('username')` hook: the null message for an
      empty name, nothing otherwise. */
  function ValidateUsernameHook(value: string): (message: Option<string>)
    ensures message.Some? <==> value == ""
    ensures message.Some? ==> message.value == Validators.NullUsername
  {
    if value == "" then Some(Validators.NullUsername) else None
  }

  /** `fields.Str(required=True, validate=len >= 3)`, then the hook on a value
      that passed. */
  function UsernameField(r: Raw<string>): (v: Result<string, Problem>)
    ensures v.Ok? <==> r.Given? && |r.value| >= 3
    ensures v.Ok? ==> v.value == r.value
    ensures r.Given? && |r.value| < 3 ==> v == Err(Rejected(InvalidValue))
    ensures r.Missing? ==> v == Err(FieldRequired)
  {
    match r
    case Missing => Err(FieldRequired)
    case Null => Err(NoneNotAllowed)
    case Given(s) =>
      if |s| < 3 then Err(Rejected(InvalidValue))
      else match ValidateUsernameHook(s)
        case Some(m) => Err(Rejected(m))
        case None => Ok(s)
  }

  /** A field that may be left out but not set to `null` (`allow_none` is
      false by default). */
  function NonNullField<T>(r: Raw<T>): (v: Result<Option<T>, Problem>)
    ensures v.Ok? <==> !r.Null?
    ensures r.Missing? ==> v == Ok(None)
    ensures r.Given? ==> v == Ok(Some(r.value))
  {
    match r
    case Missing => Ok(None)
    case Null => Err(NoneNotAllowed)
    case Given(x) => Ok(Some(x))
  }

  /** A field declared `allow_none=True`: absent, `null` or a value. */
  function NullableField<T>(r: Raw<T>): (v: Option<Option<T>>)
    ensures v.None? <==> r.Missing?
    ensures r.Null? ==> v == Some(None)
    ensures r.Given? ==> v == Some(Some(r.value))
  {
    match r
    case Missing => None
    case Null => Some(None)
    case Given(x) => Some(Some(x))
  }

  /** `fields.Integer(validate=1 <= value <= 9999999999)`. */
  function PhonenumberField(r: Raw<NumberInput>): (v: Result<Option<int>, Problem>)
    ensures v.Ok? <==> r.Missing? || (r.Given? && r.value.IntegerInput? && 1 <= r.value.n <= 9999999999)
    ensures v.Ok? && r.Given? ==> v.value == Some(r.value.n)
    ensures r.Given? && r.value.NotNumeric? ==> v == Err(NotInteger)
  {
    match r
    case Missing => Ok(None)
    case Null => Err(NoneNotAllowed)
    case Given(NotNumeric) => Err(NotInteger)
    case Given(IntegerInput(n)) => if 1 <= n <= 9999999999 then Ok(Some(n)) else Err(Rejected(InvalidValue))
  }

  /** The field errors of `user_schema.load`, in declaration order. */
  function LoadErrors(b: FlaskBody): seq<FieldError>
  {
    Report("username", UsernameField(b.username)) + OtherErrors(b)
  }

  /** The errors of the fields after `username`; none of them is about the
      username. */
  function OtherErrors(b: FlaskBody): (errors: seq<FieldError>)
    ensures forall e :: e in errors ==> e.field != "username"
  {
    Report("email", NonNullField(b.email))
    + Report("phonenumber", PhonenumberField(b.phonenumber))
    + Report("email_opt_in_status", NonNullField(b.emailOptIn))
    + Report("sms_opt_in_status", NonNullField(b.smsOptIn))
    + Report("matm_owner", NonNullField(b.matmOwner))
  }

  /** The field stage of `user_schema.load(request.json)`: a body passes
      exactly when the username is present with at least three characters,
      the phone number, if present, is an integer from 1 to 9999999999, and
      none of email, the two flags and `matm_owner` is `null`; `country` and
      `state` may be `null`. What passes is what the schema-level hook would
      be given. */
  function Load(b: FlaskBody): (r: Result<Loaded, seq<FieldError>>)
    ensures r.Ok? <==>
              && b.username.Given? && |b.username.value| >= 3
              && (b.phonenumber.Missing? || (b.phonenumber.Given? && b.phonenumber.value.IntegerInput?
                                              && 1 <= b.phonenumber.value.n <= 9999999999))
              && !b.email.Null? && !b.emailOptIn.Null? && !b.smsOptIn.Null? && !b.matmOwner.Null?
    ensures r.Ok? ==>
              && r.value.username == b.username.value
              && (r.value.phonenumber.Some? <==> b.phonenumber.Given?)
              && (b.phonenumber.Given? ==> r.value.phonenumber.value == b.phonenumber.value.n)
              && r.value.country == NullableField(b.country) && r.value.state == NullableField(b.state)
    ensures r.Err? ==> r.error == LoadErrors(b)
  {
    var errors := LoadErrors(b);
    if errors != [] then Err(errors)
    else
      Ok(Loaded(UsernameField(b.username).value, NonNullField(b.email).value,
                PhonenumberField(b.phonenumber).value, NonNullField(b.emailOptIn).value,
                NonNullField(b.smsOptIn).value, NullableField(b.country), NullableField(b.state),
                NonNullField(b.matmOwner).value))
  }

  /** How `user_schema.load` ends: a `ValidationError` carrying the field
      errors, or the `TypeError` of calling the schema-level hook. There is no
      third way: it never returns. */
  datatype LoadOutcome = ValidationFailed(errors: seq<FieldError>) | HookTypeError

  /** `user_schema.load(request.json)` as a whole: the schema-level hook is
      skipped when a field failed, and otherwise called with arguments it does
      not accept. */
  function SchemaLoad(b: FlaskBody): (r: LoadOutcome)
    ensures r.ValidationFailed? <==> Load(b).Err?
    ensures r.ValidationFailed? ==> r.errors == LoadErrors(b) && r.errors != []
    ensures r == HookTypeError <==> Load(b).Ok?
  {
    match Load(b)
    case Err(errors) => ValidationFailed(errors)
    case Ok(_) => HookTypeError
  }

  /** What the body of `validate_phonenumber_type` would do with a loaded
      dictionary: `data['phonenumber']` raises `KeyError` when the key is
      absent. Marshmallow 3 never reaches this body (see `SchemaLoad`). */
  datatype HookOutcome = HookPassed | HookRejected(message: string) | HookKeyError

  function ValidatePhonenumberType(data: Loaded): (o: HookOutcome)
    ensures o == HookKeyError <==> data.phonenumber.None?
    ensures o.HookRejected? ==> o.message == PhoneNotInteger
  {
    // A loaded `phonenumber` is always an `int`, so `isinstance` holds.
    if data.phonenumber.None? then HookKeyError else HookPassed
  }

  /** The username rule: a missing name is "Missing data for required field.",
      a name shorter than three characters fails the field's predicate with
      marshmallow's generic message, and an accepted name is unchanged. */
  lemma FlaskUsernameRule(b: FlaskBody)
    ensures b.username.Missing? ==> Load(b).Err? && Load(b).error[0] == FieldError("username", FieldRequired)
    ensures b.username.Given? && |b.username.value| < 3 ==>
              Load(b).Err? && Load(b).error[0] == FieldError("username", Rejected(InvalidValue))
    ensures Load(b).Ok? ==> |Load(b).value.username| >= 3
  {
  }

  /** The hook's "username cannot be null" is never reported: the empty name
      fails the field's own predicate first, and the hook sees only names of
      three or more characters. */
  lemma FlaskNullMessageNeverRaised(b: FlaskBody)
    ensures Load(b).Err? ==> FieldError("username", Rejected(Validators.NullUsername)) !in Load(b).error
  {
    var bad := FieldError("username", Rejected(Validators.NullUsername));
    assert bad !in Report("username", UsernameField(b.username));
    assert bad !in OtherErrors(b);
  }

  /** The phone rule: only the range is checked, so numbers with fewer than
      ten digits pass here while the FastAPI validators refuse them. */
  lemma FlaskAcceptsShortNumbers(n: int)
    requires 1 <= n < 1000000000
    ensures PhonenumberField(Given(IntegerInput(n))) == Ok(Some(n))
    ensures Validators.PhoneField(Given(IntegerInput(n))) == Err(Rejected(Validators.InvalidPhone))
  {
  }

  /** Every body leaves `user_schema.load` with an exception: field errors, or
      the hook's `TypeError` for exactly the bodies whose fields all pass.
      Nothing after `load` in `add_user` is ever reached. */
  lemma FlaskLoadNeverReturns(b: FlaskBody)
    ensures SchemaLoad(b) == HookTypeError <==>
              b.username.Given? && |b.username.value| >= 3 && !b.email.Null? && !b.emailOptIn.Null?
              && !b.smsOptIn.Null? && !b.matmOwner.Null?
              && (b.phonenumber.Missing? || (b.phonenumber.Given? && b.phonenumber.value.IntegerInput?
                                              && 1 <= b.phonenumber.value.n <= 9999999999))
  {
  }

  /** The body of the schema-level type check never rejects a loaded
      dictionary: it either passes or, when the body had no phone number,
      raises `KeyError`. */
  lemma FlaskTypeCheckUnreachable(b: FlaskBody)
    requires Load(b).Ok?
    ensures !ValidatePhonenumberType(Load(b).value).HookRejected?
    ensures ValidatePhonenumberType(Load(b).value) == HookKeyError <==> b.phonenumber.Missing?
  {
  }

  /** `country` and `state` may be `null`; `matm_owner` may not. */
  lemma FlaskNullableFields(b: FlaskBody)
    ensures b.matmOwner.Null? ==> Load(b).Err? && FieldError("matm_owner", NoneNotAllowed) in Load(b).error
    ensures b.country.Null? && Load(b).Ok? ==> Load(b).value.country == Some(None)
    ensures Load(b.(country := Null, state := Null)).Ok? <==> Load(b).Ok?
  {
  }
}
