# Contact identity resolution, modelled in Dafny

The repository compares three web frameworks on one service. `POST /contacts`
receives a contact: a username, an email, a phone number, two opt-in flags, an
optional country and state, and the owner (`matm_owner`) that submits it. The
service validates the body. It then looks for contact points already stored
under the same email or phone number and decides one of two things:

- the submission updates a contact that the same owner already holds;
- the submission becomes a new contact, possibly flagged with the conflict
  "matching error on contact data".

After that it writes either two contact points (email and phone) or an
`Individual` row.

This model covers:

- **The validators.** The pydantic `ContactBase` of fastapi/app.py and
  fastapi_sync/app.py, the shared models of fastapi_sync/schemas.py, and the
  marshmallow `ContactSchema` of flask/app.py.
- **The resolution step.** This is the body shared by `index`
  (fastapi/app.py) and `create_contact` (fastapi_sync/app.py). The same scan
  loop also appears in Flask's `add_user`.
- **The answers of the two FastAPI handlers.**

The model follows the code as written:

- A conflict met late in the scan does not undo a same-owner candidate found
  earlier.
- `individual_id` is never copied, because that line is a comparison, not an
  assignment.
- The `Individual` row is written on the update and conflict paths, not on
  the cross-owner path.
- A conflicting submission is still committed as a new contact.
- The asynchronous handler fails at `await write_email_task` whenever that
  task was never created. This failure comes after the commit.
- Under marshmallow 3, Flask's `user_schema.load` never returns: a body either
  fails the field checks or reaches the schema-level hook, whose signature
  does not accept the arguments it is called with.

Layout:

- **common.dfy** (`Common`): option and result types, raw JSON fields and
  field errors.
- **validators.dfy** (`Validators`):
  - the username and phone validators, which the three pydantic models repeat
    word for word;
  - the proof that `len(str(n)) == 10 and 1 <= n <= 9999999999` means ten
    digits;
  - how pydantic treats a required, optional or integer field.
- **records.dfy** (`Records`):
  - the stored rows and the four tables;
  - the validated submission and `ParseSubmission`, the `ContactBase` of the
    two apps;
  - `hex[:8]`.
- **matching.dfy** (`Matching`):
  - the scan as a pure function `Scan`, together with an independent
    description of it (`FirstClash` and `Collect`) and its lemmas;
  - the two loops as the method `ScanHits`, proved equal to `Scan`.
- **resolution.dfy** (`Resolution`):
  - one request as a pure function `Handle` on the tables;
  - the consistency invariant of the tables;
  - a lemma for each outcome.
- **storage.dfy** (`Storage`): the session as the class `Store`, with
  sequence fields that its methods append to or update in place:
  - `write_email_opt_in`, `write_mobile_opt_in` and `update_contact`;
  - `ResolveAndCommit`, proved equal to `Handle`.
- **replies.dfy** (`Replies`): what a request answers.
- **fastapi_app.dfy** (`FastApiApp`): the asynchronous `index`.
- **fastapi_sync_app.dfy** (`FastApiSyncApp`): `create_contact`, which
  schedules background tasks.
- **schemas.dfy** (`Schemas`): fastapi_sync/schemas.py.
- **flask_schema.dfy** (`FlaskSchema`): `ContactSchema`.

The two `uuid4().hex` tokens of a request are parameters:

- `contactUuid`: the model cuts it to eight characters, as the handlers do.
- `individualUuid`: the token of the `Individual` row.

The model never assumes the tokens are fresh, because the source never checks
them. `Resolution.ConsistencyPreserved` names the freshness it needs. The
`.one()` lookup of the update path is an outcome, `LookupFailed`, not a
precondition. `Resolution.LookupSucceeds` proves that it cannot happen while
the tables are consistent.

## Model

| member | source | states |
|---|---|---|
| Validators.ValidateUsername | fastapi/app.py:103-110 | a username is accepted exactly when it has at least three characters, and is then returned unchanged; the empty name is refused with "username cannot be null", a name of one or two characters with "username must be at least 3 characters long" |
| Validators.UsernameOutcomes | fastapi_sync/app.py:108-115 | the three outcomes of the username validator: null message for "", length message for 1-2 characters, the value itself otherwise |
| Validators.DigitCountBound | fastapi/app.py:116 | a natural number is written with at most k decimal digits exactly when it is below 10^k |
| Validators.TenDigitNumbers | fastapi/app.py:116 | `len(str(n)) == 10` together with `1 <= n <= 9999999999` holds exactly for 1000000000 <= n <= 9999999999 |
| Validators.IntToDecimal | fastapi/app.py:116 | Python's `str(n)`: no contract of its own; `DigitCountBound` and `TenDigitNumbers` state how its length relates to the number |
| Validators.ValidatePhone | fastapi/app.py:112-117 | a phone number is accepted exactly when it has ten digits, and is then returned unchanged; otherwise the error is "phonenumber must be a valid 10-digit integer" |
| Validators.PhoneOutcomes | fastapi_sync/app.py:117-122 | the phone validator returns the number for every ten-digit number and the 10-digit message for every other integer |
| Validators.RequiredField | fastapi/app.py:94-101 | a field declared without a default is accepted exactly when present and not null, with its value |
| Validators.OptionalField | fastapi/app.py:99-100 | an `Optional[str]` field is `None` when absent or null and the value otherwise |
| Validators.IntegerField | fastapi/app.py:96 | an `int` field is accepted exactly when present and convertible to an integer, with that integer |
| Validators.UsernameField | fastapi/app.py:103-110 | the username field after its type check and validator: accepted exactly for strings of length >= 3, unchanged; "" and 1-2 characters are rejected with the validator's two messages |
| Validators.PhoneField | fastapi/app.py:112-117 | the phone field after its type check and validator: accepted exactly for ten-digit integers, unchanged; any other integer is rejected with the 10-digit message |
| Records.ParseSubmission | fastapi/app.py:93-117 | a body is accepted exactly when every required field is present, the username has at least three characters and the phone number ten digits; the accepted submission carries the body's values, and country and state are `None` exactly when absent or null |
| Records.ParseSubmissionUsernameErrors | fastapi/app.py:103-110 | an empty or too-short username makes the whole body fail, and the first error reported is the username validator's own message |
| Records.ShortId | fastapi/app.py:172 | `uuid4().hex[:8]` is eight hexadecimal characters |
| Records.NewContact | fastapi/app.py:168-170 | the `Contact` built from the submission: no contract of its own; `NewContactPath` states that it carries every submitted column, the eight-character id, no individual id and no status |
| Records.EmailPointOf | fastapi/app.py:128-135 | the email point `write_email_opt_in` builds: no contract of its own; `NewContactPath`, `CrossOwnerPath`, `UpdatePath` and `SideEffectSelection` state which contact it copies |
| Records.PhonePointOf | fastapi/app.py:145-152 | the phone point `write_mobile_opt_in` builds: no contract of its own; the same lemmas as for `EmailPointOf` state which contact it copies |
| Matching.EmailHits | fastapi/app.py:175-176 | the email query returns exactly the stored email points with the submitted email (both directions) |
| Matching.PhoneHits | fastapi/app.py:173-174 | the phone query returns exactly the stored phone points with the submitted number (both directions) |
| Matching.EmailHitsAppend | fastapi/app.py:175-176 | the email query keeps table order and multiplicity: the hits of two stretches of the table are the first stretch's hits followed by the second's |
| Matching.PhoneHitsAppend | fastapi/app.py:173-174 | the phone query keeps table order and multiplicity in the same way |
| Matching.Classify | fastapi/app.py:183-188 | the `if`/`elif` chain of one hit: no contract of its own; `ScanStep`, `ScanIgnoresUnrelated` and `CandidatesComeFromHits` state what each of its four answers does to the scan |
| Matching.Scan | fastapi/app.py:181-199 | the scan with its early exit as a function: no contract of its own; specified by `ScanCharacterization`, `ScanStopsAtConflict`, `ScanStep`, `ScanConcat`, `ScanIgnoresUnrelated` and `CandidatesComeFromHits`, and computed by `ScanHits` |
| Matching.FirstClash | fastapi/app.py:185-186 | the position of the first same-owner, other-username hit: every hit before it is not a clash, and the hit there is |
| Matching.Collect | fastapi/app.py:183-196 | the independent description of the candidate lists: an id is collected exactly when some hit with the given relation carries it |
| Matching.ScanCharacterization | fastapi/app.py:181-199 | the scan keeps, in visiting order, the ids of the same-owner and the cross-owner hits before the first clash, and reports a conflict exactly when a clash exists |
| Matching.ScanStopsAtConflict | fastapi/app.py:193-199 | once a clash has been met, no later hit changes the result |
| Matching.ScanStep | fastapi/app.py:182-196 | while no clash has been met, one more hit extends the lists according to its three-way classification |
| Matching.ScanConcat | fastapi/app.py:182-196 | email hits are scanned before phone hits: when the email hits raise no conflict, their candidates come first, the phone hits' candidates follow, and the conflict flag is that of the phone hits |
| Matching.ScanIgnoresUnrelated | fastapi/app.py:187-196 | a hit with another owner and another username changes nothing |
| Matching.CandidatesComeFromHits | fastapi/app.py:183-196 | every same-owner candidate is the id of a same-owner, same-username hit, and every cross-owner candidate that of an other-owner, same-username hit |
| Matching.ScanHits | fastapi/app.py:179-199 | the two loops with their early exit compute exactly the pure scan of the email hits followed by the phone hits (the loops of fastapi_sync/app.py:177-197 and flask/app.py:147-167 are the same) |
| Resolution.Matches | fastapi/app.py:202 | the contact lookup by id returns every position holding that id, only such positions, in increasing order |
| Resolution.Candidates | fastapi/app.py:173-199 | the two queries followed by the scan: no contract of its own; `CandidateIsStoredPoint` and the lemmas about `Scan` state what it returns |
| Resolution.Text | fastapi/app.py:171-207 | the three texts `message` can hold: no contract of its own; `MessageCharacterization` states when each is committed |
| Resolution.SideEffects | fastapi/app.py:214-220 | the background writes: no contract of its own; specified by `SideEffectSelection`, `UpdatePath`, `NewContactPath`, `CrossOwnerPath` and `ConflictPath` |
| Resolution.Handle | fastapi/app.py:167-223 | one request on the tables: no contract of its own; specified by `UpdatePath`, `NewContactPath`, `CrossOwnerPath`, `ConflictPath`, `MessageCharacterization`, `SideEffectSelection`, `OneContactCommitted`, `LookupSucceeds` and `ConsistencyPreserved`; `ResolveAndCommit` is proved equal to it (fastapi_sync/app.py:165-222 is the same) |
| Resolution.UniqueLookup | fastapi/app.py:202-203 | with unique contact ids, the lookup of a stored id finds exactly that contact |
| Resolution.CandidateIsStoredPoint | fastapi/app.py:183-192 | every same-owner candidate is the contact id of a stored email or phone point |
| Resolution.LookupSucceeds | fastapi/app.py:202-203 | when every point names a stored contact and ids are unique, `scalars().one()` always finds exactly one contact |
| Resolution.ConsistencyPreserved | fastapi/app.py:172 | a request keeps the tables consistent provided the new eight-character id is not already taken |
| Resolution.UpdatePath | fastapi/app.py:201-220 | with a same-owner candidate, the contact with the first candidate's id gets the submitted state and country and an updated status; no other field or contact changes and none is added; the message is "contact Updated", even after a conflict; the side effects copy that updated stored row, not the submission: with cross-owner candidates its email and phone points (stored username, email, number and `contact_id`) are appended and no `Individual` row is, without them an `Individual` row with the stored username is appended and the point tables do not change |
| Resolution.NewContactPath | fastapi/app.py:168-172 | with no candidate and no conflict, exactly one contact is added with the submission's fields, the eight-character id and no individual id; an email and a phone point mirroring it are written; the message is "Contact added successfully" |
| Resolution.CrossOwnerPath | fastapi/app.py:209-212 | with only cross-owner candidates, a new contact is added with a created status and no individual id; contact points are still written; the message is the conflict text if a conflict was met |
| Resolution.ConflictPath | fastapi/app.py:198-199 | a conflict with no earlier candidate still commits the submission as a new contact, with the conflict as its status and as the message; no contact point is written and an `Individual` row is |
| Resolution.MessageCharacterization | fastapi/app.py:171-207 | the committed message is "contact Updated" exactly when there was a same-owner candidate, the conflict text exactly when there was none and a conflict was met, and "Contact added successfully" otherwise |
| Resolution.SideEffectSelection | fastapi/app.py:214-220 | contact points are written exactly when the message is still "Contact added successfully" or there are cross-owner candidates, and they are the email and phone points of the committed contact row; otherwise one `Individual` row with that row's username and the fresh token is added, and the point tables do not change |
| Resolution.OneContactCommitted | fastapi_sync/app.py:199-222 | each request commits exactly one contact row, either appended or changed in place with its id kept; a failed lookup changes nothing |
| Resolution.PointIdLookup | fastapi/app.py:202-203 | on consistent tables the id carried by any stored contact point names exactly one contact |
| Resolution.EmptyTablesAdd | fastapi/app.py:168-172 | the first submission to empty tables leaves exactly one contact and the email and phone points mirroring it, with "Contact added successfully" |
| Resolution.RepeatUpdates | fastapi/app.py:201-220 | a submission repeating the username, email, phone and owner of the only stored contact updates it in place, writes one `Individual` row and answers "contact Updated" |
| Resolution.ResubmissionUpdates | fastapi/app.py:201-220 | posting a contact to empty tables adds it; posting the same username, email, phone and owner again updates that contact in place and writes one `Individual` row instead of contact points |
| Resolution.CandidateBeforeConflictWins | fastapi/app.py:198-207 | a same-owner email candidate followed by a clashing phone point still leads to the update and "contact Updated" |
| Storage.Store.WriteEmailOptIn | fastapi/app.py:125-140 | appends one email point that copies the contact's username, email, country, state, owner and id; nothing else changes (fastapi_sync/app.py:124-139 is the same) |
| Storage.Store.WriteMobileOptIn | fastapi/app.py:142-156 | appends one phone point that copies the contact's username, number, country, state, owner and id; nothing else changes (fastapi_sync/app.py:141-155 is the same) |
| Storage.Store.UpdateContact | fastapi/app.py:158-162 | appends one `Individual` row with the contact's username and the fresh token; nothing else changes (fastapi_sync/app.py:157-160 is the same, with the token drawn by the caller) |
| Storage.Store.ResolveAndCommit | fastapi/app.py:167-223 | the imperative handler body leaves exactly the tables and the outcome of `Handle`, and keeps the tables consistent when the new id is fresh |
| Replies.LookupFault | fastapi/app.py:203 | `scalars().one()` raises "no row" exactly when nothing was found and "multiple rows" otherwise |
| FastApiApp.IndexReply | fastapi/app.py:214-228 | after the commit the handler answers with the message and username exactly when the contact-point tasks were created, and otherwise fails with the unbound `write_email_task`; a failed lookup is a server error of its own |
| FastApiApp.Post | fastapi/app.py:165-228 | one request to `index` as a value: no contract of its own; `Index` is proved equal to it and `IndexFailsAfterCommit`, `IndexRepliesOnlyAddedWithoutCrossOwner`, `ResubmissionFails` and `VariantsAgreeOnTables` state its answers |
| FastApiApp.Index | fastapi/app.py:165-228 | an invalid body is refused with its field errors and the store is untouched; a valid one leaves the tables of `Handle` and the answer of `IndexReply` |
| FastApiApp.IndexFailsAfterCommit | fastapi/app.py:214-225 | on consistent tables the handler fails exactly when an `Individual` row was written, and every failure comes after the tables changed; it answers exactly when the contact points were written |
| FastApiApp.IndexRepliesOnlyAddedWithoutCrossOwner | fastapi/app.py:201-225 | without cross-owner candidates the only answer the handler ever returns is "Contact added successfully": updates and conflicts end in the unbound-task error |
| FastApiApp.ResubmissionFails | fastapi/app.py:201-225 | posting the same valid body twice to empty tables answers "Contact added successfully" and then a server error, though the second request updated the contact and wrote an `Individual` row |
| FastApiSyncApp.CreateContactReply | fastapi_sync/app.py:162-225 | after the commit the handler always answers 201 with the message and the username, whichever background task was queued; only a failed lookup is a server error |
| FastApiSyncApp.Post | fastapi_sync/app.py:162-225 | one request to `create_contact` as a value: no contract of its own; `CreateContact` is proved equal to it and `CreateContactAlwaysResponds` and `VariantsAgreeOnTables` state its answers |
| FastApiSyncApp.CreateContact | fastapi_sync/app.py:162-225 | an invalid body is refused with its field errors and the store is untouched; a valid one leaves the tables of `Handle` and the answer of `CreateContactReply` |
| FastApiSyncApp.CreateContactAlwaysResponds | fastapi_sync/app.py:196-225 | on consistent tables every valid body is answered 201 with its username, and the message is "contact Updated", the conflict text or "Contact added successfully" exactly in the three cases of the scan |
| FastApiSyncApp.VariantsAgreeOnTables | fastapi_sync/app.py:212-225 | the two FastAPI handlers leave the same tables; whenever the asynchronous one answers, the synchronous one gives the same answer with 201; where only the synchronous one answers, the other fails on the unbound task |
| Schemas.ParseContactBase | fastapi_sync/schemas.py:5-28 | a body is accepted exactly when the username has at least three characters, the phone number ten digits, and email and both flags are present; the values are kept, country and state default to `None`; the errors are those of the fields in order |
| Schemas.ParseContactUpdate | fastapi_sync/schemas.py:35-36 | `ContactUpdate` accepts exactly what `ContactBase` accepts plus an integer `id`, and carries the base model and the id |
| Schemas.UsernameRules | fastapi_sync/schemas.py:14-21 | "" is rejected as null, one or two characters as too short, and an accepted username is returned unchanged |
| Schemas.OptionalFieldsDefaultToNone | fastapi_sync/schemas.py:8-9 | a valid body without country and state is accepted with both `None` |
| Schemas.UpdateRequiresId | fastapi_sync/schemas.py:36 | a valid base body without `id` is refused as `ContactUpdate` with "field required" for `id` alone |
| FlaskSchema.ValidateUsernameHook | flask/app.py:109-112 | the hook raises "username cannot be null" exactly for the empty name |
| FlaskSchema.UsernameField | flask/app.py:99 | the username is required and accepted exactly with at least three characters, unchanged; shorter names fail with "Invalid value." |
| FlaskSchema.NonNullField | flask/app.py:106 | a field without `allow_none` may be absent but not null |
| FlaskSchema.NullableField | flask/app.py:104-105 | an `allow_none=True` field may be absent, null or a value |
| FlaskSchema.PhonenumberField | flask/app.py:101 | the phone number may be absent; if present it must be an integer from 1 to 9999999999, and a non-integer is "Not a valid integer." |
| FlaskSchema.Load | flask/app.py:98-106 | a body passes the field checks exactly when the username has at least three characters, the phone number, if any, is in range, and email, the flags and `matm_owner` are not null; country and state may be null; the errors are those of the fields in order |
| FlaskSchema.SchemaLoad | flask/app.py:114-131 | `user_schema.load` as marshmallow 3 runs it: a body with field errors fails with exactly those errors, and every body that passes the field checks ends in the `TypeError` of calling the two-parameter schema hook with `partial` and `many` |
| FlaskSchema.FlaskLoadNeverReturns | flask/app.py:114-132 | `load` never returns data: the hook's `TypeError` is raised for exactly the bodies whose fields all pass, so `add_user` never gets past line 131 |
| FlaskSchema.ValidatePhonenumberType | flask/app.py:114-117 | the body of the schema hook, which marshmallow 3 never reaches: on loaded data it would raise `KeyError` exactly when the phone number was absent |
| FlaskSchema.FlaskUsernameRule | flask/app.py:99 | a missing username is "Missing data for required field.", a short one "Invalid value.", and one that passes the field checks has at least three characters |
| FlaskSchema.FlaskNullMessageNeverRaised | flask/app.py:109-112 | "username cannot be null" is never among the errors: the empty name fails the field's own predicate first |
| FlaskSchema.FlaskAcceptsShortNumbers | flask/app.py:101 | every number from 1 to 999999999 passes Flask's phone field while the FastAPI phone validator rejects it |
| FlaskSchema.FlaskTypeCheckUnreachable | flask/app.py:114-117 | even if the hook's body were reached, its "phonenumber must be an integer" branch would never be taken on data that passed the field checks |
| FlaskSchema.FlaskNullableFields | flask/app.py:104-106 | a null `matm_owner` is rejected with "Field may not be null."; null country and state pass as null and never change whether a body passes the field checks |

## Left out

- HTTP routing, `Depends`, the timing middleware and hooks, and the "time taken" field of the answer: framework plumbing and clock readings.
- The GET endpoints of the three apps: they read tables and contain no logic.
- SQLAlchemy engines, sessions and queries: the tables are sequences in insertion order, and a query returns rows in that order.
- Rows with a null `contact_id` cannot be stored: that column is a plain string in the model.
- `create_task`, `BackgroundTasks`, and the two tasks that share one session: the writes happen in sequence within the request, with no interleaving.
- The `try`/`except` that prints and swallows a failed contact-point write: storage never fails in the model.
- The moment at which a background task runs relative to the session's closing is not modelled.
- `uuid4()`: the tokens are parameters; whether they are random or unique is not modelled.
- Resolution.Handle: the times inside `status` ("updated - …", "created - …") are reduced to tags, and the conflict status is a tag rather than the message text.
- `EmailStr` and marshmallow's `fields.Email` checks: email is any string.
- Pydantic's coercions (a numeric string for `int`, for instance) are abstracted to "converts to this integer" or "does not convert". The pydantic 1 reading of `Optional[str]` without a default (absent means `None`) is assumed.
- Marshmallow: unknown keys, coercion of strings to booleans or integers, and the exact message of each built-in error are abstracted. Marshmallow 3 is assumed: it skips the `@validates_schema` hook when a field failed and otherwise calls it with `partial` and `many` keyword arguments, which its two-parameter signature refuses with `TypeError`. As a consequence `user_schema.load` never returns data (`FlaskSchema.SchemaLoad`); the hook's body is modelled separately as what it would do if it were reached.
- Flask's `add_user` after `load`: `load` never returns (see above), and `user_schema.validate(**data)`, `db.session` and the undefined `contact_ins` would stop it later in any case. Only its schema and its scan loop are modelled.
- stress_test.py: a load generator with random payloads and file output.
