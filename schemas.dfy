/** The shared request models of fastapi_sync/schemas.py: `ContactBase` with
    its two validators and optional `country` and `state`, `ContactCreate`,
    which adds nothing, and `ContactUpdate`, which adds a required `id`. */
module Schemas {
  import opened Common
  import Validators

  datatype ContactBase = ContactBase(
    username: string,
    phonenumber: int,
    country: Option<string>,
    state: Option<string>,
    email: string,
    emailOptIn: bool,
    phonenumberOptIn: bool)

  /** `class ContactCreate(ContactBase): pass`. */
  type ContactCreate = ContactBase

  datatype ContactUpdate = ContactUpdate(base: ContactBase, id: int)

  /** A JSON body, with every field either model may read. */
  datatype Body = Body(
    username: Raw<string>,
    phonenumber: Raw<NumberInput>,
    country: Raw<string>,
    state: Raw<string>,
    email: Raw<string>,
    emailOptIn: Raw<bool>,
    phonenumberOptIn: Raw<bool>,
    id: Raw<NumberInput>)

  /** The `ContactBase` field errors, in declaration order. */
  function BaseErrors(b: Body): seq<FieldError>
  {
    Report("username", Validators.UsernameField(b.username))
    + Report("phonenumber", Validators.PhoneField(b.phonenumber))
    + Report("email", Validators.RequiredField(b.email))
    + Report("email_opt_in_status", Validators.RequiredField(b.emailOptIn))
    + Report("phonenumber_opt_in_status", Validators.RequiredField(b.phonenumberOptIn))
  }

  /** Validation of a body as `ContactBase` (and so as `ContactCreate`): it is
      accepted exactly when the username has at least three characters, the
      phone number ten digits and the email and both flags are present; the
      model carries the body's values unchanged, and an absent or null
      `country` or `state` is `None`. */
  function ParseContactBase(b: Body): (r: Result<ContactBase, seq<FieldError>>)
    ensures r.Ok? <==>
              && b.username.Given? && |b.username.value| >= 3
              && b.phonenumber.Given? && b.phonenumber.value.IntegerInput?
              && 1000000000 <= b.phonenumber.value.n <= 9999999999
              && b.email.Given? && b.emailOptIn.Given? && b.phonenumberOptIn.Given?
    ensures r.Ok? ==>
              && r.value.username == b.username.value && r.value.phonenumber == b.phonenumber.value.n
              && r.value.email == b.email.value
              && r.value.emailOptIn == b.emailOptIn.value && r.value.phonenumberOptIn == b.phonenumberOptIn.value
              && (r.value.country.Some? <==> b.country.Given?) && (b.country.Given? ==> r.value.country.value == b.country.value)
              && (r.value.state.Some? <==> b.state.Given?) && (b.state.Given? ==> r.value.state.value == b.state.value)
    ensures r.Err? ==> r.error == BaseErrors(b)
  {
    var errors := BaseErrors(b);
    if errors != [] then Err(errors)
    else
      Ok(ContactBase(Validators.UsernameField(b.username).value, Validators.PhoneField(b.phonenumber).value,
                     Validators.OptionalField(b.country), Validators.OptionalField(b.state),
                     b.email.value, b.emailOptIn.value, b.phonenumberOptIn.value))
  }

  /** Validation of a body as `ContactUpdate`: exactly what `ContactBase`
      accepts, with an integer `id` as well; its errors are those of
      `ContactBase` followed by the one for `id`. */
  function ParseContactUpdate(b: Body): (r: Result<ContactUpdate, seq<FieldError>>)
    ensures r.Ok? <==> ParseContactBase(b).Ok? && b.id.Given? && b.id.value.IntegerInput?
    ensures r.Ok? ==> r.value == ContactUpdate(ParseContactBase(b).value, b.id.value.n)
    ensures r.Err? ==> r.error == BaseErrors(b) + Report("id", Validators.IntegerField(b.id))
  {
    var errors := BaseErrors(b) + Report("id", Validators.IntegerField(b.id));
    if errors != [] then Err(errors)
    else Ok(ContactUpdate(ParseContactBase(b).value, Validators.IntegerField(b.id).value))
  }

  /** The username rules as a caller of `ContactBase` sees them: an empty name
      is reported as null, a name of one or two characters as too short, and a
      longer one comes back unchanged. */
  lemma UsernameRules(b: Body)
    requires b.username.Given?
    ensures b.username.value == "" ==>
              ParseContactBase(b).Err? && ParseContactBase(b).error[0] == FieldError("username", Rejected(Validators.NullUsername))
    ensures 1 <= |b.username.value| <= 2 ==>
              ParseContactBase(b).Err? && ParseContactBase(b).error[0] == FieldError("username", Rejected(Validators.ShortUsername))
    ensures ParseContactBase(b).Ok? ==> ParseContactBase(b).value.username == b.username.value
  {
  }

  /** `country` and `state` may be left out: a body without them that is
      otherwise valid is accepted with both `None`. */
  lemma OptionalFieldsDefaultToNone(b: Body)
    requires b.country.Missing? && b.state.Missing?
    requires b.username.Given? && |b.username.value| >= 3
    requires b.phonenumber.Given? && b.phonenumber.value.IntegerInput?
    requires 1000000000 <= b.phonenumber.value.n <= 9999999999
    requires b.email.Given? && b.emailOptIn.Given? && b.phonenumberOptIn.Given?
    ensures ParseContactBase(b).Ok?
    ensures ParseContactBase(b).value.country == None && ParseContactBase(b).value.state == None
  {
  }

  /** A body valid as `ContactBase` but without `id` is refused as
      `ContactUpdate`, with "field required" for `id` alone. */
  lemma UpdateRequiresId(b: Body)
    requires ParseContactBase(b).Ok? && b.id.Missing?
    ensures ParseContactUpdate(b) == Err([FieldError("id", FieldRequired)])
  {
    assert BaseErrors(b) == [];
    assert Validators.IntegerField(b.id) == Err(FieldRequired);
    assert BaseErrors(b) + Report("id", Validators.IntegerField(b.id)) == [FieldError("id", FieldRequired)];
  }
}
