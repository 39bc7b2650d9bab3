/** The rows the contact service stores (the SQLAlchemy tables `contacts`,
    `email_opt_in`, `mobile_opt_in` and `individaul`) and the request body the
    `POST /contacts` handlers of fastapi/app.py and fastapi_sync/app.py accept
    (their pydantic `ContactBase`). */
module Records {
  import opened Common
  import Validators

  /** The `status` column. The source writes the conflict message, or
      "updated - <time>" / "created - <time>"; the times are not modelled. */
  datatype Status = NoStatus | MatchingError | Updated | Created

  datatype Contact = Contact(
    username: string,
    phonenumber: int,
    country: Option<string>,
    state: Option<string>,
    email: string,
    emailOptIn: bool,
    smsOptIn: bool,
    matmOwner: string,
    individualId: Option<string>,
    status: Status,
    contactId: string)

  datatype ContactPointEmail = ContactPointEmail(
    username: string,
    email: string,
    country: Option<string>,
    state: Option<string>,
    matmOwner: string,
    contactId: string)

  datatype ContactPointPhone = ContactPointPhone(
    username: string,
    phonenumber: int,
    country: Option<string>,
    state: Option<string>,
    matmOwner: string,
    contactId: string)

  datatype Individual = Individual(username: string, individualId: string)

  /** The four tables, each in insertion order. */
  datatype Tables = Tables(
    contacts: seq<Contact>,
    emailPoints: seq<ContactPointEmail>,
    phonePoints: seq<ContactPointPhone>,
    individuals: seq<Individual>)

  /** A validated `ContactBase` request body. */
  datatype Submission = Submission(
    username: string,
    email: string,
    phonenumber: int,
    emailOptIn: bool,
    smsOptIn: bool,
    country: Option<string>,
    state: Option<string>,
    matmOwner: string)

  /** The JSON body before validation. */
  datatype Payload = Payload(
    username: Raw<string>,
    email: Raw<string>,
    phonenumber: Raw<NumberInput>,
    emailOptIn: Raw<bool>,
    smsOptIn: Raw<bool>,
    country: Raw<string>,
    state: Raw<string>,
    matmOwner: Raw<string>)

  /** Pydantic's validation of `ContactBase`: every field is checked and every
      failing field is reported, in declaration order. A body is accepted
      exactly when every required field is present, the username has at least
      three characters and the phone number ten digits; the accepted submission
      carries the body's values, and an absent or null country or state becomes
      `None`. */
  function ParseSubmission(p: Payload): (r: Result<Submission, seq<FieldError>>)
    ensures r.Ok? <==>
              && p.username.Given? && |p.username.value| >= 3
              && p.email.Given?
              && p.phonenumber.Given? && p.phonenumber.value.IntegerInput?
              && 1000000000 <= p.phonenumber.value.n <= 9999999999
              && p.emailOptIn.Given? && p.smsOptIn.Given? && p.matmOwner.Given?
    ensures r.Ok? ==>
              var s := r.value;
              && s.username == p.username.value && s.email == p.email.value
              && s.phonenumber == p.phonenumber.value.n
              && s.emailOptIn == p.emailOptIn.value && s.smsOptIn == p.smsOptIn.value
              && s.matmOwner == p.matmOwner.value
              && (s.country.Some? <==> p.country.Given?) && (p.country.Given? ==> s.country.value == p.country.value)
              && (s.state.Some? <==> p.state.Given?) && (p.state.Given? ==> s.state.value == p.state.value)
  {
    var username := Validators.UsernameField(p.username);
    var email := Validators.RequiredField(p.email);
    var phone := Validators.PhoneField(p.phonenumber);
    var emailOptIn := Validators.RequiredField(p.emailOptIn);
    var smsOptIn := Validators.RequiredField(p.smsOptIn);
    var owner := Validators.RequiredField(p.matmOwner);
    var errors := Report("username", username) + Report("email", email) + Report("phonenumber", phone)
                  + Report("email_opt_in_status", emailOptIn) + Report("sms_opt_in_status", smsOptIn)
                  + Report("matm_owner", owner);
    if errors != [] then Err(errors)
    else Ok(Submission(username.value, email.value, phone.value, emailOptIn.value, smsOptIn.value,
                       Validators.OptionalField(p.country), Validators.OptionalField(p.state), owner.value))
  }

  /** An empty or too-short username is reported with the validator's own
      message, whatever the other fields hold. */
  lemma ParseSubmissionUsernameErrors(p: Payload)
    ensures p.username == Given("") ==>
              ParseSubmission(p).Err? && ParseSubmission(p).error[0] == FieldError("username", Rejected(Validators.NullUsername))
    ensures p.username.Given? && 1 <= |p.username.value| <= 2 ==>
              ParseSubmission(p).Err? && ParseSubmission(p).error[0] == FieldError("username", Rejected(Validators.ShortUsername))
  {
  }

  /** `uuid4().hex`: 32 lower-case hexadecimal digits. */
  predicate IsUuidHex(s: string)
  {
    |s| == 32 && forall i :: 0 <= i < |s| ==> s[i] in "0123456789abcdef"
  }

  /** Python's `hex[:8]`: the first eight characters, or all of a shorter string. */
  function ShortId(hex: string): (id: string)
    ensures IsUuidHex(hex) ==> |id| == 8 && forall i :: 0 <= i < 8 ==> id[i] in "0123456789abcdef"
  {
    if |hex| <= 8 then hex else hex[..8]
  }

  /** The `Contact(...)` the handler builds from the request, with the token
      `uuid4().hex[:8]` as its `contact_id`. */
  function NewContact(data: Submission, contactId: string): Contact
  {
    Contact(data.username, data.phonenumber, data.country, data.state, data.email,
            data.emailOptIn, data.smsOptIn, data.matmOwner, None, NoStatus, contactId)
  }

  /** The row `write_email_opt_in` builds from a contact. */
  function EmailPointOf(c: Contact): ContactPointEmail
  {
    ContactPointEmail(c.username, c.email, c.country, c.state, c.matmOwner, c.contactId)
  }

  /** The row `write_mobile_opt_in` builds from a contact. */
  function PhonePointOf(c: Contact): ContactPointPhone
  {
    ContactPointPhone(c.username, c.phonenumber, c.country, c.state, c.matmOwner, c.contactId)
  }
}
