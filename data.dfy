/** The mock data every page reads (src/lib/data.ts): the user, the direct contacts,
    their second-level networks and the message templates, together with what the
    pages compute from them. */
module Fixture {
  import opened Types
  import Dashboard

  /** `mockUser` */
  function MockUser(): (u: User)
    ensures u.name == "Sunil" && u.level == Some(1)
  {
    User("Sunil", Some(1))
  }

  /** `secondLevelNetworks`. The entry '1-2' has no `canInfluence` in the source (the
      `as Contact` cast hides it); its value there is `undefined`, which every reader
      treats as false. */
  function SecondLevelNetworks(): (m: Networks)
    ensures m.Keys == {"1", "3", "7", "8"}
    ensures forall k :: k in m ==> |m[k]| > 0
  {
    map[
      "1" := [
        Contact("1-1", "Friend 1 of Priya", "CA-F1", Friend, High, true, Installed, 2, Voted, None),
        Contact("1-2", "Colleague 1 of Priya", "CA-C1", Colleague, Medium, false, Pending, 0, NotVotedYet, None)],
      "3" := [
        Contact("3-1", "Family 1 of Sara", "CA-F2", Family, High, false, Installed, 3, Voted, None)],
      "7" := [
        Contact("7-1", "Neighbor 1 of Sunita", "CA-N1", Neighbor, Medium, true, NotJoined, 0, NotVotedYet, None)],
      "8" := [
        Contact("8-1", "Friend 2 of Vikram", "CA-F3", Friend, High, false, Installed, 1, Voted, None)]
    ]
  }

  /** The order in which `Object.values` visits the map's keys (integer-like keys
      ascending). */
  function NetworkKeys(): (keys: seq<string>)
    ensures Dashboard.EnumeratesKeys(SecondLevelNetworks(), keys)
  {
    ["1", "3", "7", "8"]
  }

  /** A direct contact whose `networkSize` is `(secondLevelNetworks[id] || []).length`. */
  function Direct(id: string, name: string, memberId: string, relationship: Relationship, support: Support,
                  canInfluence: bool, appStatus: AppStatus, pollingStatus: PollingStatus,
                  lastSeen: Option<string>): (c: Contact)
    ensures c.id == id
    ensures c.networkSize == |NetworkOf(SecondLevelNetworks(), id)|
  {
    Contact(id, name, memberId, relationship, support, canInfluence, appStatus,
            NetworkSize(SecondLevelNetworks(), id), pollingStatus, lastSeen)
  }

  /** `mockContacts` */
  function MockContacts(): (cs: seq<Contact>)
    ensures |cs| == 8
  {
    [ Direct("1", "Priya Sharma", "CA234567", Family, High, true, Installed, NotVotedYet, Some("10 min ago")),
      Direct("2", "Amit Patel", "CA345678", Friend, High, false, Pending, NotVotedYet, Some("1 hour ago")),
      Direct("3", "Sara Ali", "CA456789", Colleague, Medium, true, Installed, Voted, None),
      Direct("4", "Raj Kumar", "CA567890", Neighbor, Medium, false, NotJoined, Voted, None),
      Direct("5", "Deepak Shah", "CA678901", Friend, Low, false, Pending, NotVotedYet, None),
      Direct("6", "Rohan Verma", "CA789012", Acquaintance, Unsure, false, NotJoined, NotVotedYet, None),
      Direct("7", "Sunita Gupta", "CA890123", Family, High, true, Installed, Voted, None),
      Direct("8", "Vikram Singh", "CA901234", Friend, High, true, Installed, Voted, None) ]
  }

  /** The message bodies, kept apart and written as short pieces so that reasoning
      about the templates stays cheap; each is the source's text exactly. */
  function TownHallBody(): string
  {
    "Join us for a community"
    + " town hall tomorrow at"
    + " the Grand Auditorium."
    + " Your participation is"
    + " valuable for discussing"
    + " key issues. We look"
    + " forward to your"
    + " presence."
  }

  function ElectionDayBody(): string
  {
    "This is a reminder that"
    + " the election is on"
    + " [Date]. Your"
    + " participation is"
    + " important. Your"
    + " designated polling"
    + " station is [Polling"
    + " Station]."
  }

  function ThankYouBody(): string
  {
    "We appreciate your"
    + " continued engagement"
    + " and contribution."
    + " Please continue to"
    + " share information with"
    + " your network and"
    + " encourage their"
    + " participation."
  }

  /** `mockMessages` */
  function MockMessages(): (ms: seq<MessageTemplate>)
    ensures |ms| == 3
    ensures forall i, j :: 0 <= i < j < |ms| ==> ms[i].id != ms[j].id
  {
    [ MessageTemplate("msg1", "IMPORTANT: Community Town Hall", "Central Office", "2 min ago",
        TownHallBody(),
        Urgent),
      MessageTemplate("msg2", "Reminder: Election Day", "Central Office", "1 day ago",
        ElectionDayBody(),
        Scheduled),
      MessageTemplate("msg3", "Thank You for Your Contribution", "Central Office", "3 days ago",
        ThankYouBody(),
        Urgent) ]
  }

  /** Every direct contact's size is its network's length. */
  lemma NetworkSizesDerived()
    ensures forall c :: c in MockContacts() ==> c.networkSize == NetworkSize(SecondLevelNetworks(), c.id)
  {
  }

  /** The network lengths by id: 2 for '1'; 1 for '3', '7' and '8'; 0 for the other
      direct contacts, which have no entry. */
  lemma NetworkLengths()
    ensures var m := SecondLevelNetworks();
      && NetworkSize(m, "1") == 2 && NetworkSize(m, "2") == 0 && NetworkSize(m, "3") == 1 && NetworkSize(m, "4") == 0
      && NetworkSize(m, "5") == 0 && NetworkSize(m, "6") == 0 && NetworkSize(m, "7") == 1 && NetworkSize(m, "8") == 1
  {
    var m := SecondLevelNetworks();
    assert "2" !in m && "4" !in m && "5" !in m && "6" !in m;
  }

  /** The stored sizes: Priya 2, Sara, Sunita and Vikram 1, everyone else 0. */
  lemma NetworkSizeValues()
    ensures var cs := MockContacts();
      && |cs| == 8
      && cs[0].networkSize == 2 && cs[1].networkSize == 0 && cs[2].networkSize == 1 && cs[3].networkSize == 0
      && cs[4].networkSize == 0 && cs[5].networkSize == 0 && cs[6].networkSize == 1 && cs[7].networkSize == 1
  {
    NetworkLengths();
  }

  /** The networks hold five second-level contacts in all. */
  lemma SecondLevelTotal()
    ensures Dashboard.TotalNetworkSize(SecondLevelNetworks(), NetworkKeys()) == 5
  {
    var m := SecondLevelNetworks();
    FlattenFixture();
    Dashboard.FlattenLength(m, NetworkKeys());
    assert |m["1"]| == 2 && |m["3"]| == 1 && |m["7"]| == 1 && |m["8"]| == 1;
  }

  /** The second-level contacts' sizes are literals of their own, unrelated to any
      network entry (none of their ids is a key of the map). */
  lemma SecondLevelSizesAreLiterals()
    ensures var m := SecondLevelNetworks();
      && m["1"][0].networkSize == 2 && m["1"][1].networkSize == 0 && m["3"][0].networkSize == 3
      && m["7"][0].networkSize == 0 && m["8"][0].networkSize == 1
      && m["1"][0].networkSize != NetworkSize(m, m["1"][0].id)
      && m["3"][0].networkSize != NetworkSize(m, m["3"][0].id)
      && m["8"][0].networkSize != NetworkSize(m, m["8"][0].id)
  {
    var m := SecondLevelNetworks();
    assert "1-1" !in m && "3-1" !in m && "8-1" !in m;
  }

  /** The map's keys are ids of direct contacts, and the key order lists each key once. */
  lemma KeysAreDirectIds()
    ensures forall k :: k in SecondLevelNetworks() ==> exists i :: 0 <= i < |MockContacts()| && MockContacts()[i].id == k
    ensures Dashboard.EnumeratesKeys(SecondLevelNetworks(), NetworkKeys())
  {
    var cs := MockContacts();
    assert cs[0].id == "1" && cs[2].id == "3" && cs[6].id == "7" && cs[7].id == "8";
    assert SecondLevelNetworks().Keys == {"1", "3", "7", "8"};
  }

  /** `Object.values(secondLevelNetworks).flat()` on the fixture. */
  lemma FlattenFixture()
    ensures var m := SecondLevelNetworks();
      Dashboard.Flatten(m, NetworkKeys()) == m["1"] + m["3"] + m["7"] + m["8"]
  {
    var m := SecondLevelNetworks();
    var keys := NetworkKeys();
    assert keys[1..] == ["3", "7", "8"] && keys[1..][1..] == ["7", "8"] && keys[1..][1..][1..] == ["8"];
    assert Dashboard.Flatten(m, ["8"]) == m["8"] + Dashboard.Flatten(m, []);
  }

  /** Three templates, msg1 to msg3; the dashboard shows msg1 as the latest. */
  lemma MessagesFixture()
    ensures |MockMessages()| == 3
    ensures MockMessages()[0].id == "msg1" && MockMessages()[1].id == "msg2" && MockMessages()[2].id == "msg3"
    ensures Dashboard.LatestMessage(MockMessages()) == Some(MockMessages()[0])
  {
  }
}
