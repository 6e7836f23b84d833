/** The "Polling Day" page (src/app/polling/page.tsx): turnout counts of the user's
    network and the get-out-the-vote lists of contacts who have not voted, by
    priority. */
module Polling {
  import opened Types
  import opened Seqs

  predicate HasVoted(c: Contact) { c.pollingStatus == Voted }

  predicate NotVotedYetStatus(c: Contact) { c.pollingStatus == NotVotedYet }

  /** `networkVotedCount` */
  function VotedCount(contacts: seq<Contact>): (n: nat)
    ensures n <= |contacts|
    ensures n == 0 <==> forall c :: c in contacts ==> c.pollingStatus != Voted
    ensures n == |contacts| <==> forall c :: c in contacts ==> c.pollingStatus == Voted
  {
    Count(contacts, HasVoted)
  }

  /** `networkNotVoted` */
  function NotVoted(contacts: seq<Contact>): (r: seq<Contact>)
    ensures |r| <= |contacts|
    ensures forall c :: c in r <==> c in contacts && c.pollingStatus == NotVotedYet
  {
    Filter(contacts, NotVotedYetStatus)
  }

  predicate IsHigh(c: Contact) { c.support == High }

  predicate IsMedium(c: Contact) { c.support == Medium }

  /** `['Low', 'Unsure'].includes(c.support)` */
  predicate IsLowOrUnsure(c: Contact) { c.support == Low || c.support == Unsure }

  /** The three tabs of the action center. */
  datatype PriorityLists = PriorityLists(high: seq<Contact>, medium: seq<Contact>, low: seq<Contact>)

  /** The tabs' lists: not-voted contacts by support, High, Medium, Low or Unsure. */
  function Priorities(contacts: seq<Contact>): (p: PriorityLists)
    ensures forall c :: c in p.high <==> c in contacts && c.pollingStatus == NotVotedYet && c.support == High
    ensures forall c :: c in p.medium <==> c in contacts && c.pollingStatus == NotVotedYet && c.support == Medium
    ensures forall c :: c in p.low <==>
      c in contacts && c.pollingStatus == NotVotedYet && (c.support == Low || c.support == Unsure)
  {
    var notVoted := NotVoted(contacts);
    PriorityLists(Filter(notVoted, IsHigh), Filter(notVoted, IsMedium), Filter(notVoted, IsLowOrUnsure))
  }

  /** The voted count is the number of contacts whose status is `Voted`, never more
      than the network; `NotVoted` keeps, in order, exactly the `Not Voted Yet`
      contacts; an `Unknown` contact is in neither. */
  lemma TurnoutSpec(contacts: seq<Contact>)
    ensures VotedCount(contacts) <= |contacts|
    ensures VotedCount(contacts) + |NotVoted(contacts)| <= |contacts|
    ensures IsSubsequence(NotVoted(contacts), contacts)
    ensures forall c :: c in NotVoted(contacts) <==> c in contacts && c.pollingStatus == NotVotedYet
    ensures forall c :: c in contacts && c.pollingStatus == Unknown ==> c !in NotVoted(contacts) && !HasVoted(c)
  {
    FilterIsSubsequence(contacts, NotVotedYetStatus);
    VotedAndNotVotedDisjoint(contacts);
  }

  /** Voted and not-yet-voted contacts are counted apart: together with the `Unknown`
      ones they make up the whole network. */
  lemma {:induction false} VotedAndNotVotedDisjoint(contacts: seq<Contact>)
    ensures VotedCount(contacts) + |NotVoted(contacts)| + Count(contacts, (c: Contact) => c.pollingStatus == Unknown)
            == |contacts|
  {
    if contacts != [] {
      VotedAndNotVotedDisjoint(contacts[1..]);
    }
  }

  /** The three priority lists partition the not-voted list by support: each keeps the
      order of the not-voted list, each holds only its own support levels, every
      not-voted contact is in exactly one of them, and the tab counts add up. */
  lemma PrioritiesPartition(contacts: seq<Contact>)
    ensures var nv := NotVoted(contacts);
      var p := Priorities(contacts);
      && IsSubsequence(p.high, nv) && IsSubsequence(p.medium, nv) && IsSubsequence(p.low, nv)
      && (forall c :: c in p.high ==> c.support == High && c.pollingStatus == NotVotedYet)
      && (forall c :: c in p.medium ==> c.support == Medium && c.pollingStatus == NotVotedYet)
      && (forall c :: c in p.low ==> (c.support == Low || c.support == Unsure) && c.pollingStatus == NotVotedYet)
      && multiset(p.high) + multiset(p.medium) + multiset(p.low) == multiset(nv)
      && |p.high| + |p.medium| + |p.low| == |nv|
  {
    var nv := NotVoted(contacts);
    var p := Priorities(contacts);
    FilterIsSubsequence(nv, IsHigh);
    FilterIsSubsequence(nv, IsMedium);
    FilterIsSubsequence(nv, IsLowOrUnsure);
    forall c ensures (multiset(p.high) + multiset(p.medium) + multiset(p.low))[c] == multiset(nv)[c] {
      FilterMultiplicity(nv, IsHigh, c);
      FilterMultiplicity(nv, IsMedium, c);
      FilterMultiplicity(nv, IsLowOrUnsure, c);
    }
    assert multiset(p.high) + multiset(p.medium) + multiset(p.low) == multiset(nv);
    assert |multiset(nv)| == |nv|;
  }

  /** The card's badge: "HIGH PRIORITY" for High, "MEDIUM PRIORITY" for Medium,
      nothing otherwise. */
  function PriorityBadge(s: Support): (badge: Option<string>)
    ensures badge == Some("HIGH PRIORITY") <==> s == High
    ensures badge == Some("MEDIUM PRIORITY") <==> s == Medium
    ensures badge == None <==> s == Low || s == Unsure
  {
    match s
    case High => Some("HIGH PRIORITY")
    case Medium => Some("MEDIUM PRIORITY")
    case _ => None
  }

  /** Every card in a tab wears that tab's badge (none in the Low tab). */
  lemma BadgeMatchesTab(contacts: seq<Contact>)
    ensures var p := Priorities(contacts);
      && (forall c :: c in p.high ==> PriorityBadge(c.support) == Some("HIGH PRIORITY"))
      && (forall c :: c in p.medium ==> PriorityBadge(c.support) == Some("MEDIUM PRIORITY"))
      && (forall c :: c in p.low ==> PriorityBadge(c.support) == None)
  {
  }
}
