/** The "My Network" page (src/app/contacts/page.tsx): the search-and-filter view of
    the contact list and the edit dialog that changes one contact's relationship and
    support. */
module Contacts {
  import opened Types
  import opened Seqs
  import opened Text

  /** A filter drop-down: `'all'` or one enum value. */
  datatype Choice<T> = All | Only(value: T)

  predicate Admits<T(==)>(f: Choice<T>, v: T)
  {
    f.All? || f.value == v
  }

  /** The search box: an empty query matches everything; otherwise the lowercased
      query must occur in the lowercased name or the lowercased member id. The query
      counts only through its lowercase form. */
  predicate SearchMatches(c: Contact, query: string)
    ensures SearchMatches(c, query) <==>
      || Lower(query) == ""
      || Includes(Lower(c.name), Lower(query))
      || Includes(Lower(c.memberId), Lower(query))
  {
    LowerEmpty(query);
    query == ""
    || Includes(Lower(c.name), Lower(query))
    || Includes(Lower(c.memberId), Lower(query))
  }

  /** The three conditions of the filter, ANDed. */
  predicate Matches(c: Contact, relationship: Choice<Relationship>, support: Choice<Support>, query: string)
    ensures relationship.All? && support.All? && query == "" ==> Matches(c, relationship, support, query)
    ensures Matches(c, relationship, support, query) ==> SearchMatches(c, query)
  {
    Admits(relationship, c.relationship) && Admits(support, c.support) && SearchMatches(c, query)
  }

  /** `filteredContacts` */
  function FilterContacts(contacts: seq<Contact>, relationship: Choice<Relationship>,
                          support: Choice<Support>, query: string): (r: seq<Contact>)
    ensures |r| <= |contacts|
    ensures forall c :: c in r <==> c in contacts && Matches(c, relationship, support, query)
  {
    Filter(contacts, c => Matches(c, relationship, support, query))
  }

  /** The filtered list keeps the original relative order; everything in it passes all
      three conditions, and every contact that passes them is in it, as often as in
      the input. */
  lemma FilterContactsSpec(contacts: seq<Contact>, relationship: Choice<Relationship>,
                           support: Choice<Support>, query: string)
    ensures var r := FilterContacts(contacts, relationship, support, query);
      && IsSubsequence(r, contacts)
      && (forall c :: c in r ==>
            && (relationship.All? || c.relationship == relationship.value)
            && (support.All? || c.support == support.value)
            && (query == "" || Includes(Lower(c.name), Lower(query)) || Includes(Lower(c.memberId), Lower(query))))
      && (forall c :: c in contacts && Matches(c, relationship, support, query) ==> c in r)
      && (forall c :: c in contacts ==>
            multiset(r)[c] == if Matches(c, relationship, support, query) then multiset(contacts)[c] else 0)
  {
    var p := c => Matches(c, relationship, support, query);
    FilterIsSubsequence(contacts, p);
    forall c | c in contacts
      ensures multiset(FilterContacts(contacts, relationship, support, query))[c]
              == if Matches(c, relationship, support, query) then multiset(contacts)[c] else 0
    {
      FilterMultiplicity(contacts, p, c);
    }
  }

  /** With an empty query and both drop-downs on "all", nothing is filtered out. */
  lemma NoFilterIsIdentity(contacts: seq<Contact>)
    ensures FilterContacts(contacts, All, All, "") == contacts
  {
    FilterAll(contacts, c => Matches(c, All, All, ""));
  }

  /** The search ignores case: queries that lowercase alike select the same contacts. */
  lemma SearchIgnoresCase(contacts: seq<Contact>, relationship: Choice<Relationship>,
                          support: Choice<Support>, q1: string, q2: string)
    requires Lower(q1) == Lower(q2)
    ensures FilterContacts(contacts, relationship, support, q1) == FilterContacts(contacts, relationship, support, q2)
  {
    LowerEmpty(q1);
    LowerEmpty(q2);
    FilterCongruent(contacts, c => Matches(c, relationship, support, q1), c => Matches(c, relationship, support, q2));
  }

  /** Narrowing the search to its lowercase form changes nothing. */
  lemma SearchByLowercase(contacts: seq<Contact>, relationship: Choice<Relationship>,
                          support: Choice<Support>, query: string)
    ensures FilterContacts(contacts, relationship, support, Lower(query)) == FilterContacts(contacts, relationship, support, query)
  {
    LowerIdempotent(query);
    SearchIgnoresCase(contacts, relationship, support, Lower(query), query);
  }

  /** The list after saving the dialog: every contact with the edited id gets the new
      relationship and support; all others are kept. */
  function ApplyEdit(contacts: seq<Contact>, id: string, relationship: Relationship, support: Support): (r: seq<Contact>)
    ensures |r| == |contacts|
    ensures forall i :: 0 <= i < |r| ==> r[i].id == contacts[i].id && r[i].networkSize == contacts[i].networkSize
    ensures forall i :: 0 <= i < |r| && contacts[i].id != id ==> r[i] == contacts[i]
    ensures forall i :: 0 <= i < |r| && contacts[i].id == id ==> r[i].relationship == relationship && r[i].support == support
  {
    seq(|contacts|, i requires 0 <= i < |contacts| =>
      if contacts[i].id == id then contacts[i].(relationship := relationship, support := support) else contacts[i])
  }

  /** Saving touches only the two edited fields of the contacts whose id matches:
      same length, same ids in the same places, every other field and every other
      contact unchanged. */
  lemma ApplyEditSpec(contacts: seq<Contact>, id: string, relationship: Relationship, support: Support, i: nat)
    requires i < |contacts|
    ensures var r := ApplyEdit(contacts, id, relationship, support);
      && |r| == |contacts|
      && r[i].id == contacts[i].id
      && r[i].name == contacts[i].name
      && r[i].memberId == contacts[i].memberId
      && r[i].canInfluence == contacts[i].canInfluence
      && r[i].appStatus == contacts[i].appStatus
      && r[i].networkSize == contacts[i].networkSize
      && r[i].pollingStatus == contacts[i].pollingStatus
      && r[i].lastSeen == contacts[i].lastSeen
      && (contacts[i].id == id ==> r[i].relationship == relationship && r[i].support == support)
      && (contacts[i].id != id ==> r[i] == contacts[i])
  {
  }

  /** Editing an id that no contact has leaves the list as it was. */
  lemma ApplyEditMissingId(contacts: seq<Contact>, id: string, relationship: Relationship, support: Support)
    requires forall c :: c in contacts ==> c.id != id
    ensures ApplyEdit(contacts, id, relationship, support) == contacts
  {
  }

  /** Saving the same edit twice is the same as saving it once. */
  lemma ApplyEditIdempotent(contacts: seq<Contact>, id: string, relationship: Relationship, support: Support)
    ensures var once := ApplyEdit(contacts, id, relationship, support);
      ApplyEdit(once, id, relationship, support) == once
  {
  }

  /** The ids, and hence their distinctness, survive an edit. */
  lemma ApplyEditKeepsIds(contacts: seq<Contact>, id: string, relationship: Relationship, support: Support)
    ensures Ids(ApplyEdit(contacts, id, relationship, support)) == Ids(contacts)
    ensures DistinctIds(contacts) ==> DistinctIds(ApplyEdit(contacts, id, relationship, support))
  {
  }

  /** With distinct ids and the edited id present, exactly one contact changes. */
  lemma ApplyEditChangesOne(contacts: seq<Contact>, k: nat, relationship: Relationship, support: Support)
    requires DistinctIds(contacts) && k < |contacts|
    ensures var r := ApplyEdit(contacts, contacts[k].id, relationship, support);
      && r == contacts[k := contacts[k].(relationship := relationship, support := support)]
  {
  }

  /** The component state of the page: the (session-local) contact list, the edit
      dialog's state, and the three filter controls. */
  class ContactsPage {
    var contacts: seq<Contact>
    var isEditDialogOpen: bool
    var selectedContact: Option<Contact>
    var editedRelationship: Relationship
    var editedSupport: Support
    var searchQuery: string
    var relationshipFilter: Choice<Relationship>
    var supportFilter: Choice<Support>

    /** `useState` initial values. */
    constructor (initial: seq<Contact>)
      ensures contacts == initial
      ensures !isEditDialogOpen && selectedContact == None
      ensures editedRelationship == Friend && editedSupport == Unsure
      ensures searchQuery == "" && relationshipFilter == All && supportFilter == All
    {
      contacts := initial;
      isEditDialogOpen := false;
      selectedContact := None;
      editedRelationship := Friend;
      editedSupport := Unsure;
      searchQuery := "";
      relationshipFilter := All;
      supportFilter := All;
    }

    /** The list the page renders. */
    function Visible(): (r: seq<Contact>)
      reads this
      ensures IsSubsequence(r, contacts)
      ensures forall c :: c in r ==> Matches(c, relationshipFilter, supportFilter, searchQuery)
      ensures forall c :: c in contacts && Matches(c, relationshipFilter, supportFilter, searchQuery) ==> c in r
    {
      FilterContactsSpec(contacts, relationshipFilter, supportFilter, searchQuery);
      FilterContacts(contacts, relationshipFilter, supportFilter, searchQuery)
    }

    /** `handleEditClick`: select the contact, seed the dialog from it and open it. */
    method EditClick(contact: Contact)
      modifies this
      ensures selectedContact == Some(contact)
      ensures editedRelationship == contact.relationship && editedSupport == contact.support
      ensures isEditDialogOpen
      ensures contacts == old(contacts)
      ensures searchQuery == old(searchQuery)
      ensures relationshipFilter == old(relationshipFilter) && supportFilter == old(supportFilter)
    {
      selectedContact := Some(contact);
      editedRelationship := contact.relationship;
      editedSupport := contact.support;
      isEditDialogOpen := true;
    }

    /** `handleSaveChanges`: with a selected contact, write the dialog's two values into
        every contact with its id, close the dialog and clear the selection; without
        one, do nothing. */
    method SaveChanges()
      modifies this
      ensures old(selectedContact).None? ==>
        && contacts == old(contacts)
        && isEditDialogOpen == old(isEditDialogOpen)
        && selectedContact == None
      ensures old(selectedContact).Some? ==>
        && contacts == ApplyEdit(old(contacts), old(selectedContact).value.id, old(editedRelationship), old(editedSupport))
        && !isEditDialogOpen
        && selectedContact == None
      ensures editedRelationship == old(editedRelationship) && editedSupport == old(editedSupport)
      ensures searchQuery == old(searchQuery)
      ensures relationshipFilter == old(relationshipFilter) && supportFilter == old(supportFilter)
    {
      if selectedContact.Some? {
        contacts := ApplyEdit(contacts, selectedContact.value.id, editedRelationship, editedSupport);
        isEditDialogOpen := false;
        selectedContact := None;
      }
    }

    /** The relationship drop-down inside the dialog. */
    method SetEditedRelationship(r: Relationship)
      modifies this`editedRelationship
      ensures editedRelationship == r
    {
      editedRelationship := r;
    }

    /** The support drop-down inside the dialog. */
    method SetEditedSupport(s: Support)
      modifies this`editedSupport
      ensures editedSupport == s
    {
      editedSupport := s;
    }

    /** The dialog's open/close control and its Cancel button; closing does not clear
        the selection. */
    method SetEditDialogOpen(open: bool)
      modifies this`isEditDialogOpen
      ensures isEditDialogOpen == open
    {
      isEditDialogOpen := open;
    }

    /** The search box. */
    method SetSearchQuery(q: string)
      modifies this`searchQuery
      ensures searchQuery == q
    {
      searchQuery := q;
    }

    /** The relationship filter drop-down. */
    method SetRelationshipFilter(f: Choice<Relationship>)
      modifies this`relationshipFilter
      ensures relationshipFilter == f
    {
      relationshipFilter := f;
    }

    /** The support filter drop-down. */
    method SetSupportFilter(f: Choice<Support>)
      modifies this`supportFilter
      ensures supportFilter == f
    {
      supportFilter := f;
    }
  }

  /** With distinct ids, opening the dialog on a listed contact and saving at once
      leaves the list as it was. */
  method EditThenSaveUnchanged(page: ContactsPage, k: nat)
    requires DistinctIds(page.contacts) && k < |page.contacts|
    modifies page
    ensures page.contacts == old(page.contacts)
    ensures !page.isEditDialogOpen && page.selectedContact == None
  {
    var c := page.contacts[k];
    page.EditClick(c);
    page.SaveChanges();
    ApplyEditChangesOne(old(page.contacts), k, c.relationship, c.support);
    assert old(page.contacts)[k := c] == old(page.contacts);
  }
}
