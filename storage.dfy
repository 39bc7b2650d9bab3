/** The database session the handlers write through, as an object whose four
    tables are sequences the methods append to or update in place. */
module Storage {
  import opened Common
  import opened Records
  import opened Matching
  import opened Resolution

  class Store {
    var contacts: seq<Contact>
    var emailPoints: seq<ContactPointEmail>
    var phonePoints: seq<ContactPointPhone>
    var individuals: seq<Individual>

    function Tables(): Tables
      reads this
    {
      Records.Tables(contacts, emailPoints, phonePoints, individuals)
    }

    constructor ()
      ensures Tables() == Records.Tables([], [], [], [])
    {
      contacts, emailPoints, phonePoints, individuals := [], [], [], [];
    }

    /** `write_email_opt_in`: one email contact point mirroring the contact. */
    method WriteEmailOptIn(data: Contact)
      modifies this
      ensures emailPoints == old(emailPoints) + [EmailPointOf(data)]
      ensures contacts == old(contacts) && phonePoints == old(phonePoints) && individuals == old(individuals)
    {
      emailPoints := emailPoints + [ContactPointEmail(data.username, data.email, data.country, data.state,
                                                      data.matmOwner, data.contactId)];
    }

    /** `write_mobile_opt_in`: one phone contact point mirroring the contact. */
    method WriteMobileOptIn(data: Contact)
      modifies this
      ensures phonePoints == old(phonePoints) + [PhonePointOf(data)]
      ensures contacts == old(contacts) && emailPoints == old(emailPoints) && individuals == old(individuals)
    {
      phonePoints := phonePoints + [ContactPointPhone(data.username, data.phonenumber, data.country, data.state,
                                                      data.matmOwner, data.contactId)];
    }

    /** `update_contact`: one `Individual` row with the contact's username and
        the fresh token. */
    method UpdateContact(data: Contact, individualIdNew: string)
      modifies this
      ensures individuals == old(individuals) + [Individual(data.username, individualIdNew)]
      ensures contacts == old(contacts) && emailPoints == old(emailPoints) && phonePoints == old(phonePoints)
    {
      individuals := individuals + [Individual(data.username, individualIdNew)];
    }

    /** The handler body shared by both FastAPI variants, from building the new
        contact to `db.commit()`. The two `uuid4().hex` values are parameters. */
    method ResolveAndCommit(data: Submission, contactUuid: string, individualUuid: string) returns (result: Commit)
      modifies this
      ensures Tables() == Handle(old(Tables()), data, contactUuid, individualUuid).tables
      ensures result == Handle(old(Tables()), data, contactUuid, individualUuid).commit
      ensures Consistent(old(Tables())) && ShortId(contactUuid) !in ContactIds(old(contacts)) ==> Consistent(Tables())
    {
      ghost var before := Tables();
      if Consistent(before) && ShortId(contactUuid) !in ContactIds(contacts) {
        ConsistencyPreserved(before, data, contactUuid, individualUuid);
      }
      var contactIns := NewContact(data, ShortId(contactUuid));
      var message := ContactAdded;
      var emailHits := EmailHits(emailPoints, data.email);
      var phoneHits := PhoneHits(phonePoints, data.phonenumber);
      var matchedContacts, matchedIndividuals, conflict := ScanHits(emailHits, phoneHits, data.matmOwner, data.username);
      if conflict {
        contactIns := contactIns.(status := MatchingError);
        message := MatchingErrorText;
      }
      var existing := -1;
      if |matchedContacts| > 0 {
        var found := Matches(contacts, matchedContacts[0]);
        if |found| != 1 {
          return LookupFailed(|found|);
        }
        existing := found[0];
        contactIns := contacts[existing].(state := data.state, country := data.country, status := Updated);
        message := ContactUpdated;
      } else if |matchedIndividuals| > 0 {
        contactIns := contactIns.(status := Created);
      }
      var writePoints := message == ContactAdded || |matchedIndividuals| > 0;
      if writePoints {
        WriteEmailOptIn(contactIns);
        WriteMobileOptIn(contactIns);
      } else {
        UpdateContact(contactIns, individualUuid);
      }
      if existing >= 0 {
        contacts := contacts[existing := contactIns];
      } else {
        contacts := contacts + [contactIns];
      }
      result := Committed(message, writePoints);
    }
  }
}
