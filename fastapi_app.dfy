/** `POST /contacts` of fastapi/app.py (`index`): validation of the body, the
    shared resolution step, and `await write_email_task`, which fails whenever
    the branch that creates that task was not taken. */
module FastApiApp {
  import opened Common
  import opened Records
  import opened Matching
  import opened Resolution
  import opened Replies
  import opened Storage

  /** The answer once the commit is done: the message dictionary (HTTP 200)
      when the contact-point tasks were created, and otherwise the
      `UnboundLocalError` of line 225. */
  function IndexReply(commit: Commit, username: string): (r: Response)
    ensures r.Reply? <==> commit.Committed? && commit.pointsWritten
    ensures r.Reply? ==> r.code == 200 && r.message == Text(commit.message) && r.username == username
    ensures commit.Committed? && !commit.pointsWritten ==> r == ServerError(UnboundEmailTask)
    ensures commit.LookupFailed? ==> r.ServerError? && r.fault != UnboundEmailTask
  {
    match commit
    case LookupFailed(found) => ServerError(LookupFault(found))
    case Committed(message, pointsWritten) =>
      if pointsWritten then Reply(200, Text(message), username) else ServerError(UnboundEmailTask)
  }

  /** One request against tables `t`, as a value. */
  function Post(t: Tables, body: Payload, contactUuid: string, individualUuid: string): Outcome
  {
    match ParseSubmission(body)
    case Err(errors) => Outcome(t, Unprocessable(errors))
    case Ok(data) =>
      var s := Handle(t, data, contactUuid, individualUuid);
      Outcome(s.tables, IndexReply(s.commit, data.username))
  }

  /** The handler over the store: a body `ContactBase` rejects leaves the
      store alone; otherwise the resolution step commits, and the answer
      follows from which background tasks were created. */
  method Index(store: Store, body: Payload, contactUuid: string, individualUuid: string) returns (r: Response)
    modifies store
    ensures Outcome(store.Tables(), r) == Post(old(store.Tables()), body, contactUuid, individualUuid)
  {
    var parsed := ParseSubmission(body);
    if parsed.Err? {
      return Unprocessable(parsed.error);
    }
    var data := parsed.value;
    var commit := store.ResolveAndCommit(data, contactUuid, individualUuid);
    if commit.LookupFailed? {
      return ServerError(LookupFault(commit.found));
    }
    var writeEmailTaskBound := commit.pointsWritten;
    if !writeEmailTaskBound {
      return ServerError(UnboundEmailTask);
    }
    r := Reply(200, Text(commit.message), data.username);
  }

  /** A valid body against consistent tables fails with the unbound task
      exactly when an `Individual` row was written, and that failure comes
      after the commit: the tables have changed. It answers with the message
      exactly when the two contact points were written. */
  lemma IndexFailsAfterCommit(t: Tables, body: Payload, contactUuid: string, individualUuid: string)
    requires Consistent(t) && ParseSubmission(body).Ok?
    ensures var o := Post(t, body, contactUuid, individualUuid);
            && (o.response == ServerError(UnboundEmailTask) <==> |o.tables.individuals| == |t.individuals| + 1)
            && (o.response.ServerError? ==> o.response.fault == UnboundEmailTask && o.tables != t)
            && (o.response.Reply? <==> |o.tables.emailPoints| == |t.emailPoints| + 1)
  {
    var data := ParseSubmission(body).value;
    LookupSucceeds(t, data, contactUuid, individualUuid);
    SideEffectSelection(t, data, contactUuid, individualUuid);
  }

  /** The handler never confirms an update, and never reports the conflict,
      unless there were also cross-owner candidates: without them both paths
      end in the unbound-task error. */
  lemma IndexRepliesOnlyAddedWithoutCrossOwner(t: Tables, body: Payload, contactUuid: string, individualUuid: string)
    requires ParseSubmission(body).Ok?
    requires Candidates(t, ParseSubmission(body).value).crossOwner == []
    ensures var o := Post(t, body, contactUuid, individualUuid);
            o.response.Reply? ==> o.response.message == Text(ContactAdded)
  {
    var data := ParseSubmission(body).value;
    var s := Handle(t, data, contactUuid, individualUuid);
    if s.commit.Committed? {
      SideEffectSelection(t, data, contactUuid, individualUuid);
    }
  }

  /** Posting the same contact twice to empty tables: the first request
      answers "Contact added successfully"; the second updates the stored
      contact in place and writes an `Individual` row, then answers 500. */
  lemma ResubmissionFails(body: Payload, uuid1: string, uuid2: string, uuid3: string, uuid4: string)
    requires ParseSubmission(body).Ok?
    ensures var o1 := Post(Tables([], [], [], []), body, uuid1, uuid2);
            var o2 := Post(o1.tables, body, uuid3, uuid4);
            && o1.response == Reply(200, "Contact added successfully", body.username.value)
            && o2.response == ServerError(UnboundEmailTask)
            && |o2.tables.contacts| == 1 && o2.tables.contacts[0].status == Updated
            && o2.tables.individuals == [Individual(body.username.value, uuid4)]
  {
    var data := ParseSubmission(body).value;
    ResubmissionUpdates(data, data, uuid1, uuid2, uuid3, uuid4);
  }
}
