/** What one `POST /contacts` request does to the tables, as a function: the
    body shared by `index` in fastapi/app.py and `create_contact` in
    fastapi_sync/app.py, from building the new `Contact` to the commit. The
    imperative version is `Storage.Store.ResolveAndCommit`, proved equal to it. */
module Resolution {
  import opened Common
  import opened Records
  import opened Matching

  /** The three texts the handler's `message` variable can hold. */
  datatype Message = ContactAdded | ContactUpdated | MatchingErrorText

  function Text(m: Message): string
  {
    match m
    case ContactAdded => "Contact added successfully"
    case ContactUpdated => "contact Updated"
    case MatchingErrorText => "matching error on contact data"
  }

  /** How the shared part of the handler ends: the contact was committed with
      this response message (and the contact points, rather than an
      `Individual` row, were written or not), or `scalars().one()` found no
      contact, or several, for the first same-owner candidate. */
  datatype Commit = Committed(message: Message, pointsWritten: bool) | LookupFailed(found: nat)

  datatype Step = Step(tables: Tables, commit: Commit)

  /** The scan over the stored email points, then phone points, that share the
      submission's email and phone number. */
  function Candidates(t: Tables, data: Submission): ScanResult
  {
    Scan(EmailHits(t.emailPoints, data.email) + PhoneHits(t.phonePoints, data.phonenumber),
         data.matmOwner, data.username)
  }

  /** `select(Contact).filter(Contact.contact_id == id)`: the positions of the
      contacts with that id, in table order. */
  function Matches(contacts: seq<Contact>, id: string): (r: seq<nat>)
    ensures forall k :: 0 <= k < |r| ==> r[k] < |contacts| && contacts[r[k]].contactId == id
    ensures forall i :: 0 <= i < |contacts| && contacts[i].contactId == id ==> i in r
    ensures forall a, b :: 0 <= a < b < |r| ==> r[a] < r[b]
  {
    if contacts == [] then []
    else
      var n := |contacts| - 1;
      Matches(contacts[..n], id) + (if contacts[n].contactId == id then [n] else [])
  }

  /** The background writes: one email and one phone contact point mirroring
      the committed contact when the message is still "Contact added
      successfully" or there are cross-owner candidates, and otherwise one
      `Individual` row with the contact's username and a fresh token. */
  function SideEffects(t: Tables, c: Contact, message: Message, crossOwner: bool, individualUuid: string): Step
  {
    if message == ContactAdded || crossOwner then
      Step(t.(emailPoints := t.emailPoints + [EmailPointOf(c)], phonePoints := t.phonePoints + [PhonePointOf(c)]),
           Committed(message, true))
    else
      Step(t.(individuals := t.individuals + [Individual(c.username, individualUuid)]), Committed(message, false))
  }

  /** One request: `contactUuid` and `individualUuid` stand for the two
      `uuid4().hex` values the handler draws. */
  function Handle(t: Tables, data: Submission, contactUuid: string, individualUuid: string): Step
  {
    var scan := Candidates(t, data);
    var message := if scan.conflict then MatchingErrorText else ContactAdded;
    var pending := NewContact(data, ShortId(contactUuid)).(status := if scan.conflict then MatchingError else NoStatus);
    if |scan.sameOwner| > 0 then
      var found := Matches(t.contacts, scan.sameOwner[0]);
      if |found| != 1 then Step(t, LookupFailed(|found|))
      else
        var i := found[0];
        var c := t.contacts[i].(state := data.state, country := data.country, status := Updated);
        SideEffects(t.(contacts := t.contacts[i := c]), c, ContactUpdated, |scan.crossOwner| > 0, individualUuid)
    else
      var c := if |scan.crossOwner| > 0 then pending.(status := Created) else pending;
      SideEffects(t.(contacts := t.contacts + [c]), c, message, |scan.crossOwner| > 0, individualUuid)
  }

  // ---- the table invariant ----

  function ContactIds(contacts: seq<Contact>): set<string>
  {
    set c | c in contacts :: c.contactId
  }

  /** Every contact point names a stored contact. */
  predicate PointsReferenceContacts(t: Tables)
  {
    && (forall p :: p in t.emailPoints ==> p.contactId in ContactIds(t.contacts))
    && (forall p :: p in t.phonePoints ==> p.contactId in ContactIds(t.contacts))
  }

  predicate UniqueContactIds(contacts: seq<Contact>)
  {
    forall i, j :: 0 <= i < j < |contacts| ==> contacts[i].contactId != contacts[j].contactId
  }

  predicate Consistent(t: Tables)
  {
    PointsReferenceContacts(t) && UniqueContactIds(t.contacts)
  }

  /** Every candidate of the scan is the contact id of a stored contact point. */
  lemma CandidateIsStoredPoint(t: Tables, data: Submission, id: string)
    requires id in Candidates(t, data).sameOwner
    ensures (exists p :: p in t.emailPoints && p.contactId == id) || (exists p :: p in t.phonePoints && p.contactId == id)
  {
    var emailHits := EmailHits(t.emailPoints, data.email);
    var phoneHits := PhoneHits(t.phonePoints, data.phonenumber);
    CandidatesComeFromHits(emailHits + phoneHits, data.matmOwner, data.username);
    var h :| h in emailHits + phoneHits && Classify(h, data.matmOwner, data.username) == SameContact && h.contactId == id;
    if h in emailHits {
      var p :| p in t.emailPoints && p.email == data.email && h == EmailHit(p);
      assert p.contactId == id;
    } else {
      var p :| p in t.phonePoints && p.phonenumber == data.phonenumber && h == PhoneHit(p);
      assert p.contactId == id;
    }
  }

  lemma {:induction false} NoMatch(contacts: seq<Contact>, id: string)
    requires forall j :: 0 <= j < |contacts| ==> contacts[j].contactId != id
    ensures Matches(contacts, id) == []
  {
    if contacts != [] {
      NoMatch(contacts[..|contacts| - 1], id);
    }
  }

  /** With unique ids, looking up the id of a stored contact finds that contact alone. */
  lemma {:induction false} UniqueLookup(contacts: seq<Contact>, id: string, i: nat)
    requires UniqueContactIds(contacts)
    requires i < |contacts| && contacts[i].contactId == id
    ensures Matches(contacts, id) == [i]
  {
    var n := |contacts| - 1;
    var prefix := contacts[..n];
    if i == n {
      NoMatch(prefix, id);
    } else {
      UniqueLookup(prefix, id, i);
      assert contacts[n].contactId != id;
    }
  }

  /** With consistent tables, the id of any stored contact point names exactly
      one contact. */
  lemma PointIdLookup(t: Tables, id: string)
    requires Consistent(t)
    requires (exists p :: p in t.emailPoints && p.contactId == id) || (exists p :: p in t.phonePoints && p.contactId == id)
    ensures |Matches(t.contacts, id)| == 1
  {
    assert id in ContactIds(t.contacts);
    var c :| c in t.contacts && c.contactId == id;
    var i :| 0 <= i < |t.contacts| && t.contacts[i] == c;
    UniqueLookup(t.contacts, id, i);
  }

  /** With consistent tables the `scalars().one()` lookup of the first
      same-owner candidate always finds exactly one contact. */
  lemma LookupSucceeds(t: Tables, data: Submission, contactUuid: string, individualUuid: string)
    requires Consistent(t)
    ensures Handle(t, data, contactUuid, individualUuid).commit.Committed?
  {
    var scan := Candidates(t, data);
    if |scan.sameOwner| > 0 {
      CandidateIsStoredPoint(t, data, scan.sameOwner[0]);
      PointIdLookup(t, scan.sameOwner[0]);
    }
  }

  /** Changing a contact in place without touching its id keeps the set of ids
      and their uniqueness. */
  lemma ReplaceKeepsIds(contacts: seq<Contact>, i: nat, c: Contact)
    requires i < |contacts| && c.contactId == contacts[i].contactId
    ensures ContactIds(contacts[i := c]) == ContactIds(contacts)
    ensures UniqueContactIds(contacts) ==> UniqueContactIds(contacts[i := c])
  {
    var after := contacts[i := c];
    forall id | id in ContactIds(contacts) ensures id in ContactIds(after) {
      var d :| d in contacts && d.contactId == id;
      var j :| 0 <= j < |contacts| && contacts[j] == d;
      assert after[j].contactId == id;
    }
    forall id | id in ContactIds(after) ensures id in ContactIds(contacts) {
      var d :| d in after && d.contactId == id;
      var j :| 0 <= j < |after| && after[j] == d;
      assert contacts[j].contactId == id;
    }
  }

  /** Appending a contact with a fresh id adds that id and keeps ids unique. */
  lemma AppendKeepsIds(contacts: seq<Contact>, c: Contact)
    ensures ContactIds(contacts + [c]) == ContactIds(contacts) + {c.contactId}
    ensures UniqueContactIds(contacts) && c.contactId !in ContactIds(contacts) ==> UniqueContactIds(contacts + [c])
  {
    var after := contacts + [c];
    assert after[|contacts|] == c;
    if UniqueContactIds(contacts) && c.contactId !in ContactIds(contacts) {
      forall i, j | 0 <= i < j < |after| ensures after[i].contactId != after[j].contactId {
        if j == |contacts| {
          assert contacts[i] in contacts;
        }
      }
    }
  }

  /** A request keeps the tables consistent when the new `contact_id` is not
      already taken (the handler itself never checks this). */
  lemma ConsistencyPreserved(t: Tables, data: Submission, contactUuid: string, individualUuid: string)
    requires Consistent(t)
    requires ShortId(contactUuid) !in ContactIds(t.contacts)
    ensures Consistent(Handle(t, data, contactUuid, individualUuid).tables)
  {
    LookupSucceeds(t, data, contactUuid, individualUuid);
    var scan := Candidates(t, data);
    var t' := Handle(t, data, contactUuid, individualUuid).tables;
    if |scan.sameOwner| > 0 {
      var i := Matches(t.contacts, scan.sameOwner[0])[0];
      var c := t.contacts[i].(state := data.state, country := data.country, status := Updated);
      assert t'.contacts == t.contacts[i := c];
      ReplaceKeepsIds(t.contacts, i, c);
      assert t.contacts[i] in t.contacts;
    } else {
      var c := t'.contacts[|t.contacts|];
      assert t'.contacts == t.contacts + [c];
      assert c.contactId == ShortId(contactUuid);
      AppendKeepsIds(t.contacts, c);
    }
  }

  // ---- the three outcomes ----

  /** Same-owner candidates found: the stored contact whose id is the first
      candidate gets the submission's state and country and an "updated"
      status, every other column and every other contact stays as it was, no
      contact is added, and the message is "contact Updated" even when a
      conflict was met later in the scan. The side effects are built from that
      updated stored row, not from the submission: its contact points carry the
      stored username, email, phone number and `contact_id`, and so does the
      `Individual` row. */
  lemma UpdatePath(t: Tables, data: Submission, contactUuid: string, individualUuid: string)
    requires |Candidates(t, data).sameOwner| > 0
    requires |Matches(t.contacts, Candidates(t, data).sameOwner[0])| == 1
    ensures var i := Matches(t.contacts, Candidates(t, data).sameOwner[0])[0];
            var s := Handle(t, data, contactUuid, individualUuid);
            && t.contacts[i].contactId == Candidates(t, data).sameOwner[0]
            && |s.tables.contacts| == |t.contacts|
            && s.tables.contacts[i] == t.contacts[i].(state := data.state, country := data.country, status := Updated)
            && (forall j :: 0 <= j < |t.contacts| && j != i ==> s.tables.contacts[j] == t.contacts[j])
            && s.commit.Committed? && s.commit.message == ContactUpdated
            && s.commit.pointsWritten == (|Candidates(t, data).crossOwner| > 0)
            && (s.commit.pointsWritten ==>
                  && s.tables.emailPoints == t.emailPoints + [EmailPointOf(s.tables.contacts[i])]
                  && s.tables.phonePoints == t.phonePoints + [PhonePointOf(s.tables.contacts[i])]
                  && s.tables.individuals == t.individuals)
            && (!s.commit.pointsWritten ==>
                  && s.tables.emailPoints == t.emailPoints && s.tables.phonePoints == t.phonePoints
                  && s.tables.individuals == t.individuals + [Individual(t.contacts[i].username, individualUuid)])
  {
  }

  /** No candidate and no conflict: exactly one contact is added, carrying the
      submission's columns and the eight-character token; one email and one
      phone point mirroring it are written; the message is "Contact added
      successfully". */
  lemma NewContactPath(t: Tables, data: Submission, contactUuid: string, individualUuid: string)
    requires Candidates(t, data) == ScanResult([], [], false)
    ensures var s := Handle(t, data, contactUuid, individualUuid);
            var c := NewContact(data, ShortId(contactUuid));
            && s.tables.contacts == t.contacts + [c]
            && c.username == data.username && c.email == data.email && c.phonenumber == data.phonenumber
            && c.country == data.country && c.state == data.state && c.matmOwner == data.matmOwner
            && c.status == NoStatus && c.individualId == None
            && s.tables.emailPoints == t.emailPoints + [ContactPointEmail(data.username, data.email, data.country, data.state, data.matmOwner, ShortId(contactUuid))]
            && s.tables.phonePoints == t.phonePoints + [ContactPointPhone(data.username, data.phonenumber, data.country, data.state, data.matmOwner, ShortId(contactUuid))]
            && s.tables.individuals == t.individuals
            && s.commit == Committed(ContactAdded, true)
  {
  }

  /** Only cross-owner candidates: a new contact is added with a "created"
      status and no `individual_id` (the matched contact's is never copied),
      contact points are still written, and the message is the conflict text
      when a conflict was met, "Contact added successfully" otherwise. */
  lemma CrossOwnerPath(t: Tables, data: Submission, contactUuid: string, individualUuid: string)
    requires Candidates(t, data).sameOwner == [] && Candidates(t, data).crossOwner != []
    ensures var s := Handle(t, data, contactUuid, individualUuid);
            var c := NewContact(data, ShortId(contactUuid)).(status := Created);
            && c.individualId == None
            && s.tables.contacts == t.contacts + [c]
            && s.tables.emailPoints == t.emailPoints + [EmailPointOf(c)]
            && s.tables.phonePoints == t.phonePoints + [PhonePointOf(c)]
            && s.tables.individuals == t.individuals
            && s.commit == Committed(if Candidates(t, data).conflict then MatchingErrorText else ContactAdded, true)
  {
  }

  /** A conflict with no candidate before it: the submission is still committed
      as a new contact, with the conflict text as its status and as the message;
      no contact point is written and an `Individual` row is queued instead. */
  lemma ConflictPath(t: Tables, data: Submission, contactUuid: string, individualUuid: string)
    requires Candidates(t, data) == ScanResult([], [], true)
    ensures var s := Handle(t, data, contactUuid, individualUuid);
            && s.tables.contacts == t.contacts + [NewContact(data, ShortId(contactUuid)).(status := MatchingError)]
            && s.tables.emailPoints == t.emailPoints && s.tables.phonePoints == t.phonePoints
            && s.tables.individuals == t.individuals + [Individual(data.username, individualUuid)]
            && s.commit == Committed(MatchingErrorText, false)
  {
  }

  /** The committed message tells the branch apart: "contact Updated" exactly
      when there was a same-owner candidate, the conflict text exactly when
      there was none but the scan met a conflict, "Contact added successfully"
      otherwise. */
  lemma MessageCharacterization(t: Tables, data: Submission, contactUuid: string, individualUuid: string)
    requires Handle(t, data, contactUuid, individualUuid).commit.Committed?
    ensures var m := Handle(t, data, contactUuid, individualUuid).commit.message;
            var scan := Candidates(t, data);
            && (m == ContactUpdated <==> |scan.sameOwner| > 0)
            && (m == MatchingErrorText <==> scan.sameOwner == [] && scan.conflict)
            && (m == ContactAdded <==> scan.sameOwner == [] && !scan.conflict)
  {
  }

  /** The position of the row a committed request writes: the contact named by
      the first same-owner candidate, or the end of the table. */
  function CommittedRow(t: Tables, data: Submission): nat
  {
    var scan := Candidates(t, data);
    if |scan.sameOwner| > 0 && |Matches(t.contacts, scan.sameOwner[0])| > 0
    then Matches(t.contacts, scan.sameOwner[0])[0]
    else |t.contacts|
  }

  /** Exactly one of the two side effects happens: the contact points are
      written exactly when the message is still "Contact added successfully" or
      there are cross-owner candidates, and they mirror the committed contact
      row; otherwise one `Individual` row is added with that row's username and
      the fresh token. */
  lemma SideEffectSelection(t: Tables, data: Submission, contactUuid: string, individualUuid: string)
    requires Handle(t, data, contactUuid, individualUuid).commit.Committed?
    ensures var s := Handle(t, data, contactUuid, individualUuid);
            var k := CommittedRow(t, data);
            var cross := |Candidates(t, data).crossOwner| > 0;
            && k < |s.tables.contacts|
            && (s.commit.pointsWritten <==> s.commit.message == ContactAdded || cross)
            && (s.commit.pointsWritten ==>
                  && s.tables.emailPoints == t.emailPoints + [EmailPointOf(s.tables.contacts[k])]
                  && s.tables.phonePoints == t.phonePoints + [PhonePointOf(s.tables.contacts[k])]
                  && s.tables.individuals == t.individuals)
            && (!s.commit.pointsWritten ==>
                  && s.tables.emailPoints == t.emailPoints && s.tables.phonePoints == t.phonePoints
                  && s.tables.individuals == t.individuals + [Individual(s.tables.contacts[k].username, individualUuid)])
  {
    var s := Handle(t, data, contactUuid, individualUuid);
    assert s.commit.message == ContactAdded ==> !Candidates(t, data).conflict && |Candidates(t, data).sameOwner| == 0;
  }

  /** Each request commits exactly one contact row: either one contact is
      appended and the earlier rows are untouched, or one existing contact is
      changed in place, keeping its `contact_id`. A failed lookup changes
      nothing. */
  lemma OneContactCommitted(t: Tables, data: Submission, contactUuid: string, individualUuid: string)
    ensures var s := Handle(t, data, contactUuid, individualUuid);
            && (s.commit.LookupFailed? ==> s.tables == t)
            && (s.commit.Committed? ==>
                  || (|s.tables.contacts| == |t.contacts| + 1 && s.tables.contacts[..|t.contacts|] == t.contacts)
                  || (exists i :: 0 <= i < |t.contacts| && i < |s.tables.contacts| && s.tables.contacts == t.contacts[i := s.tables.contacts[i]]
                                  && s.tables.contacts[i].contactId == t.contacts[i].contactId))
  {
    var s := Handle(t, data, contactUuid, individualUuid);
    var scan := Candidates(t, data);
    if |scan.sameOwner| > 0 && s.commit.Committed? {
      var i := Matches(t.contacts, scan.sameOwner[0])[0];
      assert s.tables.contacts == t.contacts[i := s.tables.contacts[i]];
    }
  }

  // ---- scenarios from the service's documentation ----

  /** The first submission to empty tables: one contact and its two points. */
  lemma EmptyTablesAdd(data: Submission, contactUuid: string, individualUuid: string)
    ensures var c := NewContact(data, ShortId(contactUuid));
            Handle(Tables([], [], [], []), data, contactUuid, individualUuid)
              == Step(Tables([c], [EmailPointOf(c)], [PhonePointOf(c)], []), Committed(ContactAdded, true))
  {
    var empty := Tables([], [], [], []);
    assert Candidates(empty, data) == ScanResult([], [], false) by {
      assert EmailHits([], data.email) + PhoneHits([], data.phonenumber) == [];
    }
    NewContactPath(empty, data, contactUuid, individualUuid);
  }

  /** Tables holding one email point and one phone point, both found by the
      submission, the email point naming a same-owner candidate: the scan
      yields that candidate followed by what the phone point contributes. */
  lemma {:induction false} TwoPointScan(t: Tables, data: Submission)
    requires |t.emailPoints| == 1 && t.emailPoints[0].email == data.email
    requires |t.phonePoints| == 1 && t.phonePoints[0].phonenumber == data.phonenumber
    requires Classify(EmailHit(t.emailPoints[0]), data.matmOwner, data.username) == SameContact
    ensures var p := Scan([PhoneHit(t.phonePoints[0])], data.matmOwner, data.username);
            Candidates(t, data) ==
              ScanResult([t.emailPoints[0].contactId] + p.sameOwner, p.crossOwner, p.conflict)
  {
    var he := EmailHit(t.emailPoints[0]);
    var hp := PhoneHit(t.phonePoints[0]);
    assert EmailHits(t.emailPoints, data.email) == [he] by {
      assert t.emailPoints[1..] == [];
    }
    assert PhoneHits(t.phonePoints, data.phonenumber) == [hp] by {
      assert t.phonePoints[1..] == [];
    }
    assert Scan([he], data.matmOwner, data.username) == ScanResult([he.contactId], [], false) by {
      assert [he][1..] == [];
    }
    ScanConcat([he], [hp], data.matmOwner, data.username);
  }

  /** With a single stored contact named by the first same-owner candidate and
      no cross-owner candidate, that contact is updated and an `Individual`
      row is written. */
  lemma UpdateOfOnlyContact(t: Tables, data: Submission, contactUuid: string, individualUuid: string)
    requires |t.contacts| == 1
    requires Candidates(t, data).sameOwner != [] && Candidates(t, data).sameOwner[0] == t.contacts[0].contactId
    requires Candidates(t, data).crossOwner == []
    ensures var s := Handle(t, data, contactUuid, individualUuid);
            && s.commit == Committed(ContactUpdated, false)
            && s.tables.contacts == [t.contacts[0].(state := data.state, country := data.country, status := Updated)]
            && s.tables.individuals == t.individuals + [Individual(t.contacts[0].username, individualUuid)]
  {
    assert Matches(t.contacts, t.contacts[0].contactId) == [0] by {
      assert t.contacts[..0] == [];
    }
    UpdatePath(t, data, contactUuid, individualUuid);
  }

  /** Both points of the only stored contact name it as a same-owner candidate. */
  lemma RepeatCandidates(c: Contact, data: Submission)
    requires c.username == data.username && c.email == data.email
    requires c.phonenumber == data.phonenumber && c.matmOwner == data.matmOwner
    ensures Candidates(Tables([c], [EmailPointOf(c)], [PhonePointOf(c)], []), data)
              == ScanResult([c.contactId, c.contactId], [], false)
  {
    var t := Tables([c], [EmailPointOf(c)], [PhonePointOf(c)], []);
    var hp := PhoneHit(t.phonePoints[0]);
    TwoPointScan(t, data);
    assert Scan([hp], data.matmOwner, data.username) == ScanResult([c.contactId], [], false) by {
      assert [hp][1..] == [];
    }
  }

  /** A submission that repeats the username, email, phone number and owner of
      the only stored contact updates it and writes an `Individual` row. */
  lemma RepeatUpdates(c: Contact, data: Submission, contactUuid: string, individualUuid: string)
    requires c.username == data.username && c.email == data.email
    requires c.phonenumber == data.phonenumber && c.matmOwner == data.matmOwner
    ensures var s := Handle(Tables([c], [EmailPointOf(c)], [PhonePointOf(c)], []), data, contactUuid, individualUuid);
            && s.commit == Committed(ContactUpdated, false)
            && s.tables.contacts == [c.(state := data.state, country := data.country, status := Updated)]
            && s.tables.individuals == [Individual(c.username, individualUuid)]
  {
    var t := Tables([c], [EmailPointOf(c)], [PhonePointOf(c)], []);
    RepeatCandidates(c, data);
    UpdateOfOnlyContact(t, data, contactUuid, individualUuid);
  }

  /** Submitting a body to empty tables adds it; submitting a body with the same
      username, email, phone number and owner again (a changed state or country
      is allowed) updates that contact in place instead of adding a second one. */
  lemma ResubmissionUpdates(first: Submission, second: Submission, uuid1: string, uuid2: string, uuid3: string, uuid4: string)
    requires second.username == first.username && second.email == first.email
    requires second.phonenumber == first.phonenumber && second.matmOwner == first.matmOwner
    ensures var s1 := Handle(Tables([], [], [], []), first, uuid1, uuid2);
            var s2 := Handle(s1.tables, second, uuid3, uuid4);
            && s1.commit == Committed(ContactAdded, true)
            && |s1.tables.contacts| == 1
            && s2.commit == Committed(ContactUpdated, false)
            && |s2.tables.contacts| == 1
            && s2.tables.contacts[0] == s1.tables.contacts[0].(state := second.state, country := second.country, status := Updated)
            && s2.tables.individuals == [Individual(first.username, uuid4)]
  {
    EmptyTablesAdd(first, uuid1, uuid2);
    RepeatUpdates(NewContact(first, ShortId(uuid1)), second, uuid3, uuid4);
  }

  /** A same-owner email point followed by a clashing phone point: the
      candidate is kept and the conflict is reported. */
  lemma ClashCandidates(t: Tables, data: Submission)
    requires |t.emailPoints| == 1 && t.emailPoints[0].email == data.email
    requires |t.phonePoints| == 1 && t.phonePoints[0].phonenumber == data.phonenumber
    requires Classify(EmailHit(t.emailPoints[0]), data.matmOwner, data.username) == SameContact
    requires Classify(PhoneHit(t.phonePoints[0]), data.matmOwner, data.username) == OwnerClash
    ensures Candidates(t, data) == ScanResult([t.emailPoints[0].contactId], [], true)
  {
    TwoPointScan(t, data);
    assert Scan([PhoneHit(t.phonePoints[0])], data.matmOwner, data.username) == ScanResult([], [], true);
  }

  /** The source's answer to a submission whose email matches a contact of the
      same owner and username while its phone number is held by the same owner
      under another username: the earlier candidate wins, the stored contact is
      updated and the message is "contact Updated", not the conflict text. */
  lemma CandidateBeforeConflictWins(data: Submission, stored: Contact, other: string, uuid1: string, uuid2: string)
    requires other != data.username
    requires stored.username == data.username && stored.matmOwner == data.matmOwner
    ensures var e := ContactPointEmail(data.username, data.email, None, None, data.matmOwner, stored.contactId);
            var p := ContactPointPhone(other, data.phonenumber, None, None, data.matmOwner, "x" + stored.contactId);
            var t := Tables([stored], [e], [p], []);
            var s := Handle(t, data, uuid1, uuid2);
            && Candidates(t, data).conflict
            && s.commit == Committed(ContactUpdated, false)
            && s.tables.contacts == [stored.(state := data.state, country := data.country, status := Updated)]
  {
    var e := ContactPointEmail(data.username, data.email, None, None, data.matmOwner, stored.contactId);
    var p := ContactPointPhone(other, data.phonenumber, None, None, data.matmOwner, "x" + stored.contactId);
    var t := Tables([stored], [e], [p], []);
    ClashCandidates(t, data);
    UpdateOfOnlyContact(t, data, uuid1, uuid2);
  }
}
