/** The identity-matching scan of the `POST /contacts` handlers: the contact
    points that share the submission's email, then those that share its phone
    number, are sorted into same-owner candidates (`matched_contacts`) and
    cross-owner candidates (`matched_individuals`); the first point held by the
    same owner under another username raises "matching error on contact data"
    and ends the scan. */
module Matching {
  import opened Records

  /** The three columns of a contact point that the scan reads. */
  datatype Hit = Hit(matmOwner: string, username: string, contactId: string)

  /** How one contact point relates to the submission. */
  datatype Relation = SameContact | OwnerClash | SameIndividual | Unrelated

  datatype ScanResult = ScanResult(sameOwner: seq<string>, crossOwner: seq<string>, conflict: bool)

  function Classify(h: Hit, owner: string, username: string): Relation
  {
    if h.matmOwner == owner && h.username == username then SameContact
    else if h.matmOwner == owner then OwnerClash
    else if h.username == username then SameIndividual
    else Unrelated
  }

  function EmailHit(p: ContactPointEmail): Hit { Hit(p.matmOwner, p.username, p.contactId) }

  function PhoneHit(p: ContactPointPhone): Hit { Hit(p.matmOwner, p.username, p.contactId) }

  /** `select(ContactPointEmail).filter(ContactPointEmail.email == email)`, in
      table order. */
  function EmailHits(points: seq<ContactPointEmail>, email: string): (hits: seq<Hit>)
    ensures forall h :: h in hits ==> exists p :: p in points && p.email == email && h == EmailHit(p)
    ensures forall p :: p in points && p.email == email ==> EmailHit(p) in hits
  {
    if points == [] then []
    else
      var rest := EmailHits(points[1..], email);
      if points[0].email == email then [EmailHit(points[0])] + rest else rest
  }

  /** `select(ContactPointPhone).filter(ContactPointPhone.phonenumber == phone)`,
      in table order. */
  function PhoneHits(points: seq<ContactPointPhone>, phone: int): (hits: seq<Hit>)
    ensures forall h :: h in hits ==> exists p :: p in points && p.phonenumber == phone && h == PhoneHit(p)
    ensures forall p :: p in points && p.phonenumber == phone ==> PhoneHit(p) in hits
  {
    if points == [] then []
    else
      var rest := PhoneHits(points[1..], phone);
      if points[0].phonenumber == phone then [PhoneHit(points[0])] + rest else rest
  }

  /** The email query keeps table order: the hits of two stretches of the
      table are those of the first stretch followed by those of the second. */
  lemma {:induction false} EmailHitsAppend(a: seq<ContactPointEmail>, b: seq<ContactPointEmail>, email: string)
    ensures EmailHits(a + b, email) == EmailHits(a, email) + EmailHits(b, email)
  {
    if a == [] {
      assert a + b == b;
    } else {
      assert (a + b)[0] == a[0];
      assert (a + b)[1..] == a[1..] + b;
      EmailHitsAppend(a[1..], b, email);
    }
  }

  /** The phone query keeps table order in the same way. */
  lemma {:induction false} PhoneHitsAppend(a: seq<ContactPointPhone>, b: seq<ContactPointPhone>, phone: int)
    ensures PhoneHits(a + b, phone) == PhoneHits(a, phone) + PhoneHits(b, phone)
  {
    if a == [] {
      assert a + b == b;
    } else {
      assert (a + b)[0] == a[0];
      assert (a + b)[1..] == a[1..] + b;
      PhoneHitsAppend(a[1..], b, phone);
    }
  }

  /** The scan as a function of the hits in the order they are visited. */
  function Scan(hits: seq<Hit>, owner: string, username: string): ScanResult
  {
    if hits == [] then ScanResult([], [], false)
    else
      var h := hits[0];
      var rest := Scan(hits[1..], owner, username);
      match Classify(h, owner, username)
      case SameContact => rest.(sameOwner := [h.contactId] + rest.sameOwner)
      case OwnerClash => ScanResult([], [], true)
      case SameIndividual => rest.(crossOwner := [h.contactId] + rest.crossOwner)
      case Unrelated => rest
  }

  /** What one hit adds to the lists of a scan that has not stopped. */
  function Visit(r: ScanResult, h: Hit, owner: string, username: string): ScanResult
  {
    match Classify(h, owner, username)
    case SameContact => r.(sameOwner := r.sameOwner + [h.contactId])
    case OwnerClash => r.(conflict := true)
    case SameIndividual => r.(crossOwner := r.crossOwner + [h.contactId])
    case Unrelated => r
  }

  // ---- an independent description of the scan ----

  /** The position of the first clashing hit, or `|hits|` when there is none. */
  function FirstClash(hits: seq<Hit>, owner: string, username: string): (k: nat)
    ensures k <= |hits|
    ensures forall i :: 0 <= i < k ==> Classify(hits[i], owner, username) != OwnerClash
    ensures k < |hits| ==> Classify(hits[k], owner, username) == OwnerClash
  {
    if hits == [] then 0
    else if Classify(hits[0], owner, username) == OwnerClash then 0
    else 1 + FirstClash(hits[1..], owner, username)
  }

  /** The contact ids of all hits with relation `rel`, in order. */
  function Collect(hits: seq<Hit>, owner: string, username: string, rel: Relation): (ids: seq<string>)
    ensures forall id :: id in ids <==> exists h :: h in hits && Classify(h, owner, username) == rel && h.contactId == id
  {
    if hits == [] then []
    else
      var rest := Collect(hits[1..], owner, username, rel);
      if Classify(hits[0], owner, username) == rel then [hits[0].contactId] + rest else rest
  }

  /** The scan keeps, in visiting order, the ids of the same-owner and of the
      cross-owner hits that come before the first clash, ignores everything
      from the clash on, and reports a conflict exactly when there is a clash. */
  lemma {:induction false} ScanCharacterization(hits: seq<Hit>, owner: string, username: string)
    ensures var k := FirstClash(hits, owner, username);
            Scan(hits, owner, username) ==
              ScanResult(Collect(hits[..k], owner, username, SameContact),
                         Collect(hits[..k], owner, username, SameIndividual),
                         k < |hits|)
  {
    if hits != [] {
      var h := hits[0];
      var k := FirstClash(hits, owner, username);
      if Classify(h, owner, username) != OwnerClash {
        ScanCharacterization(hits[1..], owner, username);
        var k' := FirstClash(hits[1..], owner, username);
        assert k == k' + 1;
        var prefix := hits[..k];
        assert prefix[0] == h;
        assert prefix[1..] == hits[1..][..k'];
      } else {
        assert hits[..k] == [];
      }
    }
  }

  /** Once the scan has met a clash, nothing after it is examined. */
  lemma {:induction false} ScanStopsAtConflict(pre: seq<Hit>, post: seq<Hit>, owner: string, username: string)
    requires Scan(pre, owner, username).conflict
    ensures Scan(pre + post, owner, username) == Scan(pre, owner, username)
  {
    if pre != [] {
      if Classify(pre[0], owner, username) != OwnerClash {
        assert (pre + post)[1..] == pre[1..] + post;
        ScanStopsAtConflict(pre[1..], post, owner, username);
      }
    }
  }

  /** A scan that has not stopped visits the next hit as `Visit` says. */
  lemma {:induction false} ScanStep(pre: seq<Hit>, h: Hit, owner: string, username: string)
    requires !Scan(pre, owner, username).conflict
    ensures Scan(pre + [h], owner, username) == Visit(Scan(pre, owner, username), h, owner, username)
  {
    if pre == [] {
      assert [] + [h] == [h];
    } else {
      assert (pre + [h])[1..] == pre[1..] + [h];
      assert Classify(pre[0], owner, username) != OwnerClash;
      ScanStep(pre[1..], h, owner, username);
    }
  }

  /** Email hits are scanned before phone hits: when the email hits raise no
      conflict, the candidates found among them come first, followed by those
      found among the phone hits. */
  lemma {:induction false} ScanConcat(emailHits: seq<Hit>, phoneHits: seq<Hit>, owner: string, username: string)
    requires !Scan(emailHits, owner, username).conflict
    ensures var e := Scan(emailHits, owner, username);
            var p := Scan(phoneHits, owner, username);
            Scan(emailHits + phoneHits, owner, username) ==
              ScanResult(e.sameOwner + p.sameOwner, e.crossOwner + p.crossOwner, p.conflict)
  {
    if emailHits == [] {
      assert emailHits + phoneHits == phoneHits;
    } else {
      assert (emailHits + phoneHits)[1..] == emailHits[1..] + phoneHits;
      ScanConcat(emailHits[1..], phoneHits, owner, username);
    }
  }

  /** A point held by another owner under another username changes nothing. */
  lemma {:induction false} ScanIgnoresUnrelated(pre: seq<Hit>, h: Hit, post: seq<Hit>, owner: string, username: string)
    requires Classify(h, owner, username) == Unrelated
    ensures Scan(pre + [h] + post, owner, username) == Scan(pre + post, owner, username)
  {
    if pre == [] {
      assert [] + [h] + post == [h] + post;
      assert ([h] + post)[0] == h;
      assert ([h] + post)[1..] == post;
      assert pre + post == post;
    } else {
      assert (pre + [h] + post)[1..] == pre[1..] + [h] + post;
      assert (pre + post)[1..] == pre[1..] + post;
      ScanIgnoresUnrelated(pre[1..], h, post, owner, username);
    }
  }

  /** Every candidate is the contact id of a hit of the matching relation. */
  lemma {:induction false} CandidatesComeFromHits(hits: seq<Hit>, owner: string, username: string)
    ensures forall id :: id in Scan(hits, owner, username).sameOwner ==>
              exists h :: h in hits && Classify(h, owner, username) == SameContact && h.contactId == id
    ensures forall id :: id in Scan(hits, owner, username).crossOwner ==>
              exists h :: h in hits && Classify(h, owner, username) == SameIndividual && h.contactId == id
  {
    if hits != [] {
      CandidatesComeFromHits(hits[1..], owner, username);
      forall id | id in Scan(hits, owner, username).sameOwner
        ensures exists h :: h in hits && Classify(h, owner, username) == SameContact && h.contactId == id
      {
        if id != hits[0].contactId || Classify(hits[0], owner, username) != SameContact {
          var h :| h in hits[1..] && Classify(h, owner, username) == SameContact && h.contactId == id;
          assert h in hits;
        }
      }
      forall id | id in Scan(hits, owner, username).crossOwner
        ensures exists h :: h in hits && Classify(h, owner, username) == SameIndividual && h.contactId == id
      {
        if id != hits[0].contactId || Classify(hits[0], owner, username) != SameIndividual {
          var h :| h in hits[1..] && Classify(h, owner, username) == SameIndividual && h.contactId == id;
          assert h in hits;
        }
      }
    }
  }

  /** The two loops of the handler: email hits, then phone hits, with the
      `raise ValueError` of a clash leaving both loops at once. */
  method ScanHits(emailHits: seq<Hit>, phoneHits: seq<Hit>, owner: string, username: string)
    returns (matchedContacts: seq<string>, matchedIndividuals: seq<string>, conflict: bool)
    ensures ScanResult(matchedContacts, matchedIndividuals, conflict) == Scan(emailHits + phoneHits, owner, username)
  {
    matchedContacts, matchedIndividuals, conflict := [], [], false;
    var i := 0;
    while i < |emailHits|
      invariant 0 <= i <= |emailHits|
      invariant !conflict
      invariant ScanResult(matchedContacts, matchedIndividuals, false) == Scan(emailHits[..i], owner, username)
    {
      var h := emailHits[i];
      ScanStep(emailHits[..i], h, owner, username);
      assert emailHits[..i + 1] == emailHits[..i] + [h];
      if h.matmOwner == owner && h.username == username {
        matchedContacts := matchedContacts + [h.contactId];
      } else if h.matmOwner == owner && h.username != username {
        assert Scan(emailHits[..i + 1], owner, username).conflict;
        ScanStopsAtConflict(emailHits[..i + 1], emailHits[i + 1..] + phoneHits, owner, username);
        assert emailHits[..i + 1] + (emailHits[i + 1..] + phoneHits) == emailHits + phoneHits;
        conflict := true;
        return;
      } else if h.matmOwner != owner && h.username == username {
        matchedIndividuals := matchedIndividuals + [h.contactId];
      }
      i := i + 1;
    }
    assert emailHits[..i] == emailHits;
    assert emailHits + phoneHits[..0] == emailHits;
    var j := 0;
    while j < |phoneHits|
      invariant 0 <= j <= |phoneHits|
      invariant ScanResult(matchedContacts, matchedIndividuals, false) == Scan(emailHits + phoneHits[..j], owner, username)
    {
      var h := phoneHits[j];
      ScanStep(emailHits + phoneHits[..j], h, owner, username);
      assert emailHits + phoneHits[..j + 1] == (emailHits + phoneHits[..j]) + [h];
      if h.matmOwner == owner && h.username == username {
        matchedContacts := matchedContacts + [h.contactId];
      } else if h.matmOwner == owner && h.username != username {
        ScanStopsAtConflict(emailHits + phoneHits[..j + 1], phoneHits[j + 1..], owner, username);
        assert emailHits + phoneHits[..j + 1] + phoneHits[j + 1..] == emailHits + phoneHits;
        conflict := true;
        return;
      } else if h.matmOwner != owner && h.username == username {
        matchedIndividuals := matchedIndividuals + [h.contactId];
      }
      j := j + 1;
    }
    assert phoneHits[..j] == phoneHits;
  }
}
