/** The "Message Campaigns" page (src/app/messages/page.tsx): the mock split of the
    contacts into sent / failed / not-sent for one message, and the recipient
    selection of one message card. */
module Messages {
  import opened Types
  import opened Seqs

  /** The three recipient lists of one message. */
  datatype RecipientStatuses = RecipientStatuses(sent: seq<Contact>, failed: seq<Contact>, notSent: seq<Contact>)

  /** `new Set(cs.map(c => c.id))`: the ids of `cs`, as a set. */
  function IdSet(cs: seq<Contact>): (r: set<string>)
    ensures forall c :: c in cs ==> c.id in r
    ensures forall id :: id in r ==> exists c :: c in cs && c.id == id
  {
    var ids := Ids(cs);
    assert forall c :: c in cs ==> c.id in ids by {
      forall c | c in cs ensures c.id in ids {
        var i :| 0 <= i < |cs| && cs[i] == c;
        assert ids[i] == c.id;
      }
    }
    assert forall id :: id in ids ==> exists c :: c in cs && c.id == id by {
      forall id | id in ids ensures exists c :: c in cs && c.id == id {
        var i :| 0 <= i < |ids| && ids[i] == id;
        assert cs[i] in cs;
      }
    }
    set id | id in ids
  }

  /** `getRecipientStatuses`: the first half of the ids count as sent, the one id right
      after them as failed, and each list keeps, in order, the contacts whose id is in
      the corresponding set. The message id is not consulted. */
  function GetRecipientStatuses(messageId: string, allContacts: seq<Contact>): (r: RecipientStatuses)
    ensures forall c :: c in allContacts ==> c in r.sent || c in r.failed || c in r.notSent
    ensures forall c :: c in r.notSent ==> c in allContacts && c !in r.sent && c !in r.failed
    ensures forall c :: c in r.sent || c in r.failed ==> c in allContacts
  {
    var n := |allContacts|;
    var half := n / 2;
    var sentIds := IdSet(allContacts[..half]);
    var failedIds := IdSet(allContacts[half..FailedEnd(n)]);
    RecipientStatuses(
      Filter(allContacts, (c: Contact) => c.id in sentIds),
      Filter(allContacts, (c: Contact) => c.id in failedIds),
      Filter(allContacts, (c: Contact) => c.id !in sentIds && c.id !in failedIds))
  }

  /** The number shown as "Sent to _ of n contacts". */
  function TotalSent(st: RecipientStatuses): (t: nat)
    ensures t == |st.sent + st.failed|
  {
    |st.sent| + |st.failed|
  }

  /** With distinct ids, a contact's id lies in the id set of a slice exactly when the
      contact's position lies in that slice. */
  lemma IdInSlice(cs: seq<Contact>, lo: nat, hi: nat, i: nat)
    requires DistinctIds(cs) && lo <= hi <= |cs| && i < |cs|
    ensures cs[i].id in IdSet(cs[lo..hi]) <==> lo <= i < hi
  {
    if cs[i].id in IdSet(cs[lo..hi]) {
      var c :| c in cs[lo..hi] && c.id == cs[i].id;
      var j :| lo <= j < hi && cs[j] == c;
    }
  }

  /** The end of the failed slice: ⌊n/2⌋ + 1, clamped to n as `slice` does. */
  function FailedEnd(n: nat): (e: nat)
    ensures n / 2 <= e <= n
    ensures e == if n == 0 then 0 else n / 2 + 1
  {
    if n / 2 + 1 <= n then n / 2 + 1 else n
  }

  /** With distinct ids, a contact's id is a sent id exactly when it is in the first
      half, and a failed id exactly when it is the one after. */
  lemma IdSetsByPosition(allContacts: seq<Contact>)
    requires DistinctIds(allContacts)
    ensures var n := |allContacts|;
      forall i :: 0 <= i < n ==>
        && (allContacts[i].id in IdSet(allContacts[..n / 2]) <==> i < n / 2)
        && (allContacts[i].id in IdSet(allContacts[n / 2..FailedEnd(n)]) <==> n / 2 <= i < FailedEnd(n))
  {
    var n := |allContacts|;
    assert allContacts[..n / 2] == allContacts[0..n / 2];
    forall i | 0 <= i < n
      ensures allContacts[i].id in IdSet(allContacts[..n / 2]) <==> i < n / 2
      ensures allContacts[i].id in IdSet(allContacts[n / 2..FailedEnd(n)]) <==> n / 2 <= i < FailedEnd(n)
    {
      IdInSlice(allContacts, 0, n / 2, i);
      IdInSlice(allContacts, n / 2, FailedEnd(n), i);
    }
  }

  /** With distinct ids the buckets are the three consecutive slices of the input:
      `sent` is the first ⌊n/2⌋ contacts, `failed` the one at index ⌊n/2⌋ (none when
      n = 0), `notSent` the rest. So they are pairwise disjoint, keep the input order,
      and together give back the whole input. */
  lemma BucketsAreSlices(messageId: string, allContacts: seq<Contact>)
    requires DistinctIds(allContacts)
    ensures var st := GetRecipientStatuses(messageId, allContacts);
      var n := |allContacts|;
      && st.sent == allContacts[..n / 2]
      && st.failed == allContacts[n / 2..FailedEnd(n)]
      && st.notSent == allContacts[FailedEnd(n)..]
      && st.sent + st.failed + st.notSent == allContacts
  {
    var n := |allContacts|;
    var st := GetRecipientStatuses(messageId, allContacts);
    SentIsSlice(allContacts);
    FailedIsSlice(allContacts);
    NotSentIsSlice(allContacts);
    assert st.sent == allContacts[..n / 2];
    assert st.failed == allContacts[n / 2..FailedEnd(n)];
    assert st.notSent == allContacts[FailedEnd(n)..];
    SplitThreeLeft(allContacts, n / 2, FailedEnd(n));
  }

  lemma SentIsSlice(allContacts: seq<Contact>)
    requires DistinctIds(allContacts)
    ensures var n := |allContacts|;
      Filter(allContacts, (c: Contact) => c.id in IdSet(allContacts[..n / 2])) == allContacts[..n / 2]
  {
    var n := |allContacts|;
    var sentIds := IdSet(allContacts[..n / 2]);
    IdSetsByPosition(allContacts);
    FilterIsSlice(allContacts, (c: Contact) => c.id in sentIds, 0, n / 2);
  }

  lemma FailedIsSlice(allContacts: seq<Contact>)
    requires DistinctIds(allContacts)
    ensures var n := |allContacts|;
      Filter(allContacts, (c: Contact) => c.id in IdSet(allContacts[n / 2..FailedEnd(n)])) == allContacts[n / 2..FailedEnd(n)]
  {
    var n := |allContacts|;
    var failedIds := IdSet(allContacts[n / 2..FailedEnd(n)]);
    IdSetsByPosition(allContacts);
    FilterIsSlice(allContacts, (c: Contact) => c.id in failedIds, n / 2, FailedEnd(n));
  }

  lemma NotSentIsSlice(allContacts: seq<Contact>)
    requires DistinctIds(allContacts)
    ensures var n := |allContacts|;
      var sentIds := IdSet(allContacts[..n / 2]);
      var failedIds := IdSet(allContacts[n / 2..FailedEnd(n)]);
      Filter(allContacts, (c: Contact) => c.id !in sentIds && c.id !in failedIds) == allContacts[FailedEnd(n)..]
  {
    var n := |allContacts|;
    var sentIds := IdSet(allContacts[..n / 2]);
    var failedIds := IdSet(allContacts[n / 2..FailedEnd(n)]);
    NotSentPositions(allContacts);
    FilterIsSlice(allContacts, (c: Contact) => c.id !in sentIds && c.id !in failedIds, FailedEnd(n), n);
  }

  /** With distinct ids, a contact's id is in neither set exactly when it comes after
      the failed one. */
  lemma NotSentPositions(allContacts: seq<Contact>)
    requires DistinctIds(allContacts)
    ensures var n := |allContacts|;
      var sentIds := IdSet(allContacts[..n / 2]);
      var failedIds := IdSet(allContacts[n / 2..FailedEnd(n)]);
      forall i :: 0 <= i < n ==>
        (allContacts[i].id !in sentIds && allContacts[i].id !in failedIds <==> FailedEnd(n) <= i < n)
  {
    IdSetsByPosition(allContacts);
  }

  /** `failed` is the single contact at index ⌊n/2⌋, or nothing when there are no
      contacts. */
  lemma FailedIsOne(messageId: string, allContacts: seq<Contact>)
    requires DistinctIds(allContacts)
    ensures var st := GetRecipientStatuses(messageId, allContacts);
      st.failed == if allContacts == [] then [] else [allContacts[|allContacts| / 2]]
  {
    BucketsAreSlices(messageId, allContacts);
  }

  /** With distinct ids the bar reads at most "n of n": sent plus failed is ⌊n/2⌋ + 1
      (or 0 for no contacts), never more than the number of contacts. */
  lemma TotalSentBound(messageId: string, allContacts: seq<Contact>)
    requires DistinctIds(allContacts)
    ensures var n := |allContacts|;
      TotalSent(GetRecipientStatuses(messageId, allContacts)) == (if n == 0 then 0 else n / 2 + 1)
    ensures TotalSent(GetRecipientStatuses(messageId, allContacts)) <= |allContacts|
  {
    BucketsAreSlices(messageId, allContacts);
  }

  /** Whatever the ids, `notSent` never shares a contact with `sent` or `failed`, and
      every contact is in at least one of the three lists. */
  lemma BucketsCover(messageId: string, allContacts: seq<Contact>)
    ensures var st := GetRecipientStatuses(messageId, allContacts);
      && (forall c :: c in st.notSent ==> c !in st.sent && c !in st.failed)
      && (forall c :: c in allContacts ==> c in st.sent || c in st.failed || c in st.notSent)
      && IsSubsequence(st.sent, allContacts)
      && IsSubsequence(st.failed, allContacts)
      && IsSubsequence(st.notSent, allContacts)
  {
    var n := |allContacts|;
    var half := n / 2;
    var sentIds := IdSet(allContacts[..half]);
    var failedIds := IdSet(allContacts[half..FailedEnd(n)]);
    FilterIsSubsequence(allContacts, (c: Contact) => c.id in sentIds);
    FilterIsSubsequence(allContacts, (c: Contact) => c.id in failedIds);
    FilterIsSubsequence(allContacts, (c: Contact) => c.id !in sentIds && c.id !in failedIds);
  }

  /** The split is the same for every message. */
  lemma StatusesIgnoreMessage(m1: string, m2: string, allContacts: seq<Contact>)
    ensures GetRecipientStatuses(m1, allContacts) == GetRecipientStatuses(m2, allContacts)
  {
  }

  /** Without distinct ids the bound fails: two contacts sharing one id are both
      counted as sent and as failed, and the bar reads "4 of 2". */
  lemma DuplicateIdsOvercount(a: Contact, b: Contact)
    requires a.id == b.id
    ensures TotalSent(GetRecipientStatuses("msg1", [a, b])) == 4
  {
    var all := [a, b];
    assert all[..1] == [a] && all[1..2] == [b];
    var sentIds := IdSet(all[..1]);
    var failedIds := IdSet(all[1..2]);
    FilterAll(all, (c: Contact) => c.id in sentIds);
    FilterAll(all, (c: Contact) => c.id in failedIds);
  }

  /** `selectedContacts` after `handleContactToggle(id)`: the id's membership flips. */
  function Toggled(selection: set<string>, id: string): (r: set<string>)
    ensures id in r <==> id !in selection
    ensures forall other :: other != id ==> (other in r <==> other in selection)
  {
    if id in selection then selection - {id} else selection + {id}
  }

  /** Toggling twice restores the selection. */
  lemma ToggleTwice(selection: set<string>, id: string)
    ensures Toggled(Toggled(selection, id), id) == selection
  {
  }

  /** What pressing "Send" reports: the toast asking for a recipient, or the number of
      contacts the message was queued for. */
  datatype SendOutcome = SelectionRequired | Queued(count: nat)

  /** The state of one message card: its message and contacts (props) and the set of
      selected recipient ids. */
  class MessageCampaignCard {
    const message: MessageTemplate
    const allContacts: seq<Contact>
    var selectedContacts: set<string>

    constructor (message: MessageTemplate, allContacts: seq<Contact>)
      ensures this.message == message && this.allContacts == allContacts
      ensures selectedContacts == {}
    {
      this.message := message;
      this.allContacts := allContacts;
      selectedContacts := {};
    }

    /** The card's recipient lists; with distinct ids its "Sent to" figure is
        ⌊n/2⌋ + 1 of n (0 for no contacts). */
    function Statuses(): (st: RecipientStatuses)
      ensures forall c :: c in allContacts ==> c in st.sent || c in st.failed || c in st.notSent
      ensures DistinctIds(allContacts) ==>
        TotalSent(st) == if allContacts == [] then 0 else |allContacts| / 2 + 1
    {
      if DistinctIds(allContacts) then
        TotalSentBound(message.id, allContacts);
        GetRecipientStatuses(message.id, allContacts)
      else
        GetRecipientStatuses(message.id, allContacts)
    }

    /** `handleContactToggle` */
    method ContactToggle(contactId: string)
      modifies this
      ensures selectedContacts == Toggled(old(selectedContacts), contactId)
    {
      var newSelection := selectedContacts;
      if contactId in newSelection {
        newSelection := newSelection - {contactId};
      } else {
        newSelection := newSelection + {contactId};
      }
      selectedContacts := newSelection;
    }

    /** `handleSelectAllNotSent`: the selection becomes the ids of the not-sent list. */
    method SelectAllNotSent()
      modifies this
      ensures selectedContacts == IdSet(Statuses().notSent)
    {
      selectedContacts := IdSet(Statuses().notSent);
    }

    /** `handleSend`: an empty selection is refused and kept; otherwise the message is
        queued for every selected id and the selection is cleared. */
    method Send() returns (outcome: SendOutcome)
      modifies this
      ensures old(selectedContacts) == {} ==> outcome == SelectionRequired && selectedContacts == {}
      ensures old(selectedContacts) != {} ==> outcome == Queued(|old(selectedContacts)|) && selectedContacts == {}
    {
      if |selectedContacts| == 0 {
        return SelectionRequired;
      }
      outcome := Queued(|selectedContacts|);
      selectedContacts := {};
    }
  }

  /** With distinct ids, "Select All" picks exactly the contacts after the failed one,
      so none of them is a sent or failed recipient. */
  lemma SelectAllNotSentIds(messageId: string, allContacts: seq<Contact>, c: Contact)
    requires DistinctIds(allContacts) && c in allContacts
    ensures var st := GetRecipientStatuses(messageId, allContacts);
      c.id in IdSet(st.notSent) <==> c in st.notSent
  {
    var st := GetRecipientStatuses(messageId, allContacts);
    BucketsAreSlices(messageId, allContacts);
    if c.id in IdSet(st.notSent) {
      var d :| d in st.notSent && d.id == c.id;
      var i :| 0 <= i < |allContacts| && allContacts[i] == c;
      var j :| 0 <= j < |allContacts| && allContacts[j] == d;
      assert i == j;
    }
  }
}
