/** What the pages compute on the mock data (src/lib/data.ts): the polling counts,
    the dashboard figures, the message buckets and the network tree. */
module FixtureFacts {
  import opened Types
  import opened Seqs
  import opened Fixture
  import Polling
  import Dashboard
  import Messages
  import NetworkTree

  /** Each contact's polling status and support, position by position. */
  predicate Shaped(cs: seq<Contact>, statuses: seq<PollingStatus>, supports: seq<Support>)
  {
    && |cs| == |statuses| == |supports|
    && forall i :: 0 <= i < |cs| ==> cs[i].pollingStatus == statuses[i] && cs[i].support == supports[i]
  }

  function DirectStatuses(): seq<PollingStatus>
  {
    [NotVotedYet, NotVotedYet, Voted, Voted, NotVotedYet, NotVotedYet, Voted, Voted]
  }

  function DirectSupports(): seq<Support>
  {
    [High, High, Medium, Medium, Low, Unsure, High, High]
  }

  function SecondLevelStatuses(): seq<PollingStatus>
  {
    [Voted, NotVotedYet, Voted, NotVotedYet, Voted]
  }

  function SecondLevelSupports(): seq<Support>
  {
    [High, Medium, High, Medium, High]
  }

  lemma DirectShape()
    ensures Shaped(MockContacts(), DirectStatuses(), DirectSupports())
  {
  }

  lemma SecondLevelShape()
    ensures Shaped(Dashboard.Flatten(SecondLevelNetworks(), NetworkKeys()), SecondLevelStatuses(), SecondLevelSupports())
  {
    FlattenFixture();
  }

  /** The polling counts of any eight contacts shaped like the direct contacts. */
  lemma PollingCounts(cs: seq<Contact>)
    requires Shaped(cs, DirectStatuses(), DirectSupports())
    ensures Polling.VotedCount(cs) == 4
    ensures |Polling.NotVoted(cs)| == 4
  {
    CountEight(cs, Polling.HasVoted);
    CountEight(cs, Polling.NotVotedYetStatus);
  }

  predicate HighNotVoted(c: Contact) { c.pollingStatus == NotVotedYet && c.support == High }

  predicate MediumNotVoted(c: Contact) { c.pollingStatus == NotVotedYet && c.support == Medium }

  predicate LowNotVoted(c: Contact) { c.pollingStatus == NotVotedYet && (c.support == Low || c.support == Unsure) }

  /** The tab counts of any eight contacts shaped like the direct contacts. */
  lemma HighCount(cs: seq<Contact>)
    requires Shaped(cs, DirectStatuses(), DirectSupports())
    ensures |Polling.Priorities(cs).high| == 2
  {
    FilterFilter(cs, Polling.NotVotedYetStatus, Polling.IsHigh, HighNotVoted);
    HighNotVotedTally(cs);
  }

  lemma HighNotVotedTally(cs: seq<Contact>)
    requires Shaped(cs, DirectStatuses(), DirectSupports())
    ensures Count(cs, HighNotVoted) == 2
  {
    CountEight(cs, HighNotVoted);
  }

  lemma MediumCount(cs: seq<Contact>)
    requires Shaped(cs, DirectStatuses(), DirectSupports())
    ensures |Polling.Priorities(cs).medium| == 0
  {
    FilterFilter(cs, Polling.NotVotedYetStatus, Polling.IsMedium, MediumNotVoted);
    MediumNotVotedTally(cs);
  }

  lemma MediumNotVotedTally(cs: seq<Contact>)
    requires Shaped(cs, DirectStatuses(), DirectSupports())
    ensures Count(cs, MediumNotVoted) == 0
  {
    CountEight(cs, MediumNotVoted);
  }

  lemma LowCount(cs: seq<Contact>)
    requires Shaped(cs, DirectStatuses(), DirectSupports())
    ensures |Polling.Priorities(cs).low| == 2
  {
    FilterFilter(cs, Polling.NotVotedYetStatus, Polling.IsLowOrUnsure, LowNotVoted);
    LowNotVotedTally(cs);
  }

  lemma LowNotVotedTally(cs: seq<Contact>)
    requires Shaped(cs, DirectStatuses(), DirectSupports())
    ensures Count(cs, LowNotVoted) == 2
  {
    CountEight(cs, LowNotVoted);
  }

  /** The polling page on the fixture: 4 of the 8 direct contacts have voted; of those
      who have not, 2 are High, none Medium and 2 Low or Unsure. */
  lemma PollingFixture()
    ensures Polling.VotedCount(MockContacts()) == 4
    ensures |Polling.NotVoted(MockContacts())| == 4
    ensures var p := Polling.Priorities(MockContacts());
      |p.high| == 2 && |p.medium| == 0 && |p.low| == 2
  {
    DirectShape();
    PollingCounts(MockContacts());
    HighCount(MockContacts());
    MediumCount(MockContacts());
    LowCount(MockContacts());
  }

  /** One Low and one Unsure contact among the direct contacts. */
  lemma DirectSupportCounts(direct: seq<Contact>)
    requires Shaped(direct, DirectStatuses(), DirectSupports())
    ensures Count(direct, Dashboard.IsLow) == 1 && Count(direct, Dashboard.IsUnsure) == 1
  {
    CountEight(direct, Dashboard.IsLow);
    CountEight(direct, Dashboard.IsUnsure);
  }

  /** No Low or Unsure contact among the second-level contacts. */
  lemma SecondLevelSupportCounts(flat: seq<Contact>)
    requires Shaped(flat, SecondLevelStatuses(), SecondLevelSupports())
    ensures Count(flat, Dashboard.IsLow) == 0 && Count(flat, Dashboard.IsUnsure) == 0
  {
    forall x | x in flat ensures !Dashboard.IsLow(x) && !Dashboard.IsUnsure(x) {
      var i :| 0 <= i < |flat| && flat[i] == x;
    }
  }

  /** The dashboard figures over any direct contacts and networks of the fixture's shape. */
  lemma FiguresOfShape(direct: seq<Contact>, networks: Networks, keys: seq<string>)
    requires Shaped(direct, DirectStatuses(), DirectSupports())
    requires Shaped(Dashboard.Flatten(networks, keys), SecondLevelStatuses(), SecondLevelSupports())
    ensures var all := Dashboard.AllContacts(direct, networks, keys);
      var f := Dashboard.CandidateFigures(all);
      && |all| == 13
      && f.lowSupport == 1
      && f.unsureSupport == 1
      && f.supportScore == 12115
  {
    Dashboard.CountsSplit(direct, networks, keys);
    DirectSupportCounts(direct);
    SecondLevelSupportCounts(Dashboard.Flatten(networks, keys));
  }

  /** The candidate dashboard on the fixture: 13 contacts in all, one Low and one
      Unsure, so the score is 12115, the figure the trend chart ends on. */
  lemma DashboardFixture()
    ensures var all := Dashboard.AllContacts(MockContacts(), SecondLevelNetworks(), NetworkKeys());
      var f := Dashboard.CandidateFigures(all);
      && |all| == 13
      && f.lowSupport == 1
      && f.unsureSupport == 1
      && f.supportScore == 12115
  {
    DirectShape();
    SecondLevelShape();
    FiguresOfShape(MockContacts(), SecondLevelNetworks(), NetworkKeys());
  }

  /** Each contact's id, position by position. */
  predicate IdsAre(cs: seq<Contact>, ids: seq<string>)
  {
    |cs| == |ids| && forall i :: 0 <= i < |cs| ==> cs[i].id == ids[i]
  }

  /** The direct contacts' ids are the digits 1 to 8, one character each. */
  lemma DirectIds()
    ensures |MockContacts()| == 8
    ensures forall i :: 0 <= i < 8 ==> MockContacts()[i].id == [(i + 49) as char]
    ensures forall i :: 0 <= i < 8 ==> |MockContacts()[i].id| == 1
  {
    var cs := MockContacts();
    assert cs[0].id == [49 as char] && cs[1].id == [50 as char] && cs[2].id == [51 as char] && cs[3].id == [52 as char];
    assert cs[4].id == [53 as char] && cs[5].id == [54 as char] && cs[6].id == [55 as char] && cs[7].id == [56 as char];
  }

  lemma DirectIdsDistinct()
    ensures DistinctIds(MockContacts())
  {
    DirectIds();
    var cs := MockContacts();
    forall i, j | 0 <= i < j < |cs| ensures cs[i].id != cs[j].id {
      assert cs[i].id[0] != cs[j].id[0];
    }
  }

  lemma SecondLevelIds()
    ensures IdsAre(Dashboard.Flatten(SecondLevelNetworks(), NetworkKeys()), ["1-1", "1-2", "3-1", "7-1", "8-1"])
  {
    FlattenFixture();
  }

  /** Five ids of three characters, told apart by their first and last characters. */
  lemma SecondLevelIdsDistinct(flat: seq<Contact>)
    requires IdsAre(flat, ["1-1", "1-2", "3-1", "7-1", "8-1"])
    ensures DistinctIds(flat)
    ensures forall c :: c in flat ==> |c.id| == 3
  {
    var ids: seq<string> := ["1-1", "1-2", "3-1", "7-1", "8-1"];
    assert forall i :: 0 <= i < 5 ==> |ids[i]| == 3;
    forall i, j | 0 <= i < j < 5 ensures ids[i] != ids[j] {
      assert ids[i][0] != ids[j][0] || ids[i][2] != ids[j][2];
    }
  }

  /** Two lists with distinct ids, no id in both, make one list with distinct ids. */
  lemma DistinctIdsAppend(a: seq<Contact>, b: seq<Contact>)
    requires DistinctIds(a) && DistinctIds(b)
    requires forall x, y :: x in a && y in b ==> x.id != y.id
    ensures DistinctIds(a + b)
  {
    forall i, j | 0 <= i < j < |a + b| ensures (a + b)[i].id != (a + b)[j].id {
      if j < |a| {
      } else if i >= |a| {
        assert (a + b)[i] == b[i - |a|] && (a + b)[j] == b[j - |a|];
      } else {
        assert (a + b)[i] in a && (a + b)[j] in b;
      }
    }
  }

  /** All thirteen contacts, direct and second-level, have distinct ids: the direct
      ones are one character long, the second-level ones three. */
  lemma AllIdsDistinct()
    ensures DistinctIds(MockContacts())
    ensures DistinctIds(Dashboard.AllContacts(MockContacts(), SecondLevelNetworks(), NetworkKeys()))
  {
    var direct, flat := MockContacts(), Dashboard.Flatten(SecondLevelNetworks(), NetworkKeys());
    DirectIds();
    DirectIdsDistinct();
    SecondLevelIds();
    SecondLevelIdsDistinct(flat);
    DirectAndSecondLevelApart(direct, flat);
    DistinctIdsAppend(direct, flat);
  }

  /** A one-character id never equals a three-character one. */
  lemma DirectAndSecondLevelApart(direct: seq<Contact>, flat: seq<Contact>)
    requires forall i :: 0 <= i < |direct| ==> |direct[i].id| == 1
    requires forall c :: c in flat ==> |c.id| == 3
    ensures forall x, y :: x in direct && y in flat ==> x.id != y.id
  {
    forall x, y | x in direct && y in flat ensures x.id != y.id {
      var i :| 0 <= i < |direct| && direct[i] == x;
    }
  }

  /** The buckets of any eight contacts with distinct ids. */
  lemma BucketsOfEight(messageId: string, cs: seq<Contact>)
    requires |cs| == 8 && DistinctIds(cs)
    ensures var st := Messages.GetRecipientStatuses(messageId, cs);
      && st.sent == cs[..4] && st.failed == [cs[4]] && st.notSent == cs[5..]
      && Messages.TotalSent(st) == 5
  {
    Messages.BucketsAreSlices(messageId, cs);
    assert cs[4..5] == [cs[4]];
  }

  /** The messages page on the fixture: contacts 1-4 are shown as sent, 5 as failed and
      6-8 as not sent, so every card reads "Sent to 5 of 8". */
  lemma MessagesBucketsFixture(messageId: string)
    ensures var cs := MockContacts();
      var st := Messages.GetRecipientStatuses(messageId, cs);
      && st.sent == cs[..4] && st.failed == [cs[4]] && st.notSent == cs[5..]
      && Messages.TotalSent(st) == 5
  {
    DirectIds();
    DirectIdsDistinct();
    BucketsOfEight(messageId, MockContacts());
  }

  /** The network tree on the fixture shows every direct contact unchanged, with the
      stored sizes as the counts of children; the root shows 8. */
  lemma TreeFixture()
    ensures var tree := NetworkTree.BuildTree(MockContacts(), SecondLevelNetworks());
      forall i :: 0 <= i < |tree| ==> tree[i].contact == Some(MockContacts()[i])
    ensures NetworkTree.NodeNetworkSize(NetworkTree.RootNode(MockUser(), MockContacts(), SecondLevelNetworks())) == 8
  {
    NetworkSizesDerived();
    NetworkTree.BuildTreeKeepsConsistentContacts(MockContacts(), SecondLevelNetworks());
    NetworkTree.RootSpec(MockUser(), MockContacts(), SecondLevelNetworks());
  }
}
