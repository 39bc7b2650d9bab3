/** `POST /contacts` of fastapi_sync/app.py (`create_contact`): validation of
    the body and the shared resolution step, with the contact points or the
    `Individual` row left to background tasks, and an answer that does not
    depend on which. */
module FastApiSyncApp {
  import opened Common
  import opened Records
  import opened Matching
  import opened Resolution
  import opened Replies
  import opened Storage
  import FastApiApp

  /** The answer once the commit is done: the message dictionary with the
      route's HTTP 201, whatever background task was queued. */
  function CreateContactReply(commit: Commit, username: string): (r: Response)
    ensures r.Reply? <==> commit.Committed?
    ensures r.Reply? ==> r.code == 201 && r.message == Text(commit.message) && r.username == username
    ensures r.ServerError? ==> r.fault != UnboundEmailTask
  {
    match commit
    case LookupFailed(found) => ServerError(LookupFault(found))
    case Committed(message, _) => Reply(201, Text(message), username)
  }

  /** One request against tables `t`, as a value. */
  function Post(t: Tables, body: Payload, contactUuid: string, individualUuid: string): Outcome
  {
    match ParseSubmission(body)
    case Err(errors) => Outcome(t, Unprocessable(errors))
    case Ok(data) =>
      var s := Handle(t, data, contactUuid, individualUuid);
      Outcome(s.tables, CreateContactReply(s.commit, data.username))
  }

  /** The handler over the store; the background tasks are run in queue order
      before the next request. */
  method CreateContact(store: Store, body: Payload, contactUuid: string, individualUuid: string) returns (r: Response)
    modifies store
    ensures Outcome(store.Tables(), r) == Post(old(store.Tables()), body, contactUuid, individualUuid)
  {
    var parsed := ParseSubmission(body);
    if parsed.Err? {
      return Unprocessable(parsed.error);
    }
    var data := parsed.value;
    var commit := store.ResolveAndCommit(data, contactUuid, individualUuid);
    if commit.LookupFailed? {
      return ServerError(LookupFault(commit.found));
    }
    r := Reply(201, Text(commit.message), data.username);
  }

  /** Against consistent tables a valid body is always answered with 201 and
      the submitted username, and the message names the branch taken:
      "contact Updated" exactly when a same-owner candidate was found, the
      conflict text exactly when none was but a conflict was met, "Contact
      added successfully" otherwise. */
  lemma CreateContactAlwaysResponds(t: Tables, body: Payload, contactUuid: string, individualUuid: string)
    requires Consistent(t) && ParseSubmission(body).Ok?
    ensures var data := ParseSubmission(body).value;
            var scan := Candidates(t, data);
            var r := Post(t, body, contactUuid, individualUuid).response;
            && r.Reply? && r.code == 201 && r.username == data.username
            && (r.message == "contact Updated" <==> |scan.sameOwner| > 0)
            && (r.message == "matching error on contact data" <==> scan.sameOwner == [] && scan.conflict)
            && (r.message == "Contact added successfully" <==> scan.sameOwner == [] && !scan.conflict)
  {
    var data := ParseSubmission(body).value;
    LookupSucceeds(t, data, contactUuid, individualUuid);
    MessageCharacterization(t, data, contactUuid, individualUuid);
  }

  /** Both variants leave the same tables behind, and they answer alike
      (up to the status code) exactly when the contact points were written;
      otherwise the asynchronous variant fails where this one answers. */
  lemma VariantsAgreeOnTables(t: Tables, body: Payload, contactUuid: string, individualUuid: string)
    ensures var own := Post(t, body, contactUuid, individualUuid);
            var other := FastApiApp.Post(t, body, contactUuid, individualUuid);
            && own.tables == other.tables
            && (other.response.Reply? ==> own.response == other.response.(code := 201))
            && (own.response.Reply? && !other.response.Reply? ==> other.response == ServerError(UnboundEmailTask))
  {
  }
}
