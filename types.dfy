/** The record and enum types shared by every page (src/lib/types.ts), and the
    second-level network lookup that the fixture, the tree and the dashboard all use. */
module Types {

  datatype Option<T> = None | Some(value: T)

  datatype Relationship = Family | Friend | Colleague | Neighbor | Acquaintance | Other

  datatype Support = High | Medium | Low | Unsure

  datatype AppStatus = Installed | Pending | NotJoined

  datatype PollingStatus = Voted | NotVotedYet | Unknown

  datatype UrgencyLevel = Critical | Important | Gentle

  /** A tracked person. `networkSize` is a JavaScript number in the source; every
      value it takes is a length or a small literal, so it is a `nat` here. */
  datatype Contact = Contact(
    id: string,
    name: string,
    memberId: string,
    relationship: Relationship,
    support: Support,
    canInfluence: bool,
    appStatus: AppStatus,
    networkSize: nat,
    pollingStatus: PollingStatus,
    lastSeen: Option<string>)

  datatype MessageType = Urgent | Scheduled

  datatype MessageTemplate = MessageTemplate(
    id: string,
    title: string,
    from: string,
    received: string,
    content: string,
    kind: MessageType)

  datatype User = User(name: string, level: Option<int>)

  /** Each contact id's own direct contacts, in order. */
  type Networks = map<string, seq<Contact>>

  /** The string a relationship renders as (the union type's literal). */
  function RelationshipLabel(r: Relationship): (s: string)
    ensures s != "" && s != "You"
  {
    match r
    case Family => "Family"
    case Friend => "Friend"
    case Colleague => "Colleague"
    case Neighbor => "Neighbor"
    case Acquaintance => "Acquaintance"
    case Other => "Other"
  }

  lemma RelationshipLabelInjective(a: Relationship, b: Relationship)
    ensures RelationshipLabel(a) == RelationshipLabel(b) ==> a == b
  {
  }

  /** `(networks[id] || [])`: the contact's own list, or empty when the id is not a key. */
  function NetworkOf(networks: Networks, id: string): (r: seq<Contact>)
    ensures id in networks ==> r == networks[id]
    ensures id !in networks ==> r == []
  {
    if id in networks then networks[id] else []
  }

  /** `(networks[id] || []).length` */
  function NetworkSize(networks: Networks, id: string): (n: nat)
    ensures n == |NetworkOf(networks, id)|
    ensures n > 0 ==> id in networks
  {
    |NetworkOf(networks, id)|
  }

  /** The ids of a list of contacts, in order (`contacts.map(c => c.id)`). */
  function Ids(cs: seq<Contact>): (r: seq<string>)
    ensures |r| == |cs|
    ensures forall i :: 0 <= i < |cs| ==> r[i] == cs[i].id
  {
    seq(|cs|, i requires 0 <= i < |cs| => cs[i].id)
  }

  /** No two contacts in the list share an id. */
  predicate DistinctIds(cs: seq<Contact>)
  {
    forall i, j :: 0 <= i < j < |cs| ==> cs[i].id != cs[j].id
  }
}
