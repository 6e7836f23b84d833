/** The dashboard (src/app/dashboard/page.tsx): which dashboard a role sees, the
    campaigner's "recent contacts" and latest message, and the candidate's support
    counts and support score over direct and second-level contacts. */
module Dashboard {
  import opened Types
  import opened Seqs
  import Layout
  import Polling

  /** Headline figures the candidate dashboard shows as fixed numbers. */
  const HighSupport: nat := 1245
  const MediumSupport: nat := 2378

  /** `Object.values(networks).flat()`, visiting the keys in the order `keys` gives.
      (JavaScript visits integer-like keys in ascending order; a map has no order, so
      the order is a parameter.) */
  function Flatten(networks: Networks, keys: seq<string>): (r: seq<Contact>)
    ensures forall k, c :: k in keys && c in NetworkOf(networks, k) ==> c in r
    ensures forall c :: c in r ==> exists k :: k in keys && k in networks && c in networks[k]
  {
    if keys == [] then [] else NetworkOf(networks, keys[0]) + Flatten(networks, keys[1..])
  }

  /** `keys` lists every key of the map exactly once. */
  predicate EnumeratesKeys(networks: Networks, keys: seq<string>)
  {
    && (forall k :: k in keys ==> k in networks)
    && (forall k :: k in networks ==> k in keys)
    && (forall i, j :: 0 <= i < j < |keys| ==> keys[i] != keys[j])
  }

  /** The sum of the network lengths of the listed keys. */
  function TotalNetworkSize(networks: Networks, keys: seq<string>): (t: nat)
    ensures forall k :: k in keys ==> NetworkSize(networks, k) <= t
    ensures (forall k :: k in keys ==> k !in networks) ==> t == 0
  {
    if keys == [] then 0
    else
      assert forall k :: k in keys[1..] ==> k in keys;
      NetworkSize(networks, keys[0]) + TotalNetworkSize(networks, keys[1..])
  }

  /** The flattened list has one entry per second-level contact. */
  lemma {:induction false} FlattenLength(networks: Networks, keys: seq<string>)
    ensures |Flatten(networks, keys)| == TotalNetworkSize(networks, keys)
  {
    if keys != [] {
      FlattenLength(networks, keys[1..]);
    }
  }

  lemma {:induction false} FlattenAppend(networks: Networks, a: seq<string>, b: seq<string>)
    ensures Flatten(networks, a + b) == Flatten(networks, a) + Flatten(networks, b)
  {
    if a == [] {
      assert a + b == b;
    } else {
      assert (a + b)[0] == a[0];
      assert (a + b)[1..] == a[1..] + b;
      FlattenAppend(networks, a[1..], b);
    }
  }

  /** Taking the key at position `j` out of the list. */
  lemma RemoveKey(keys: seq<string>, j: nat)
    requires j < |keys|
    ensures multiset(keys) == multiset(keys[..j] + keys[j + 1..]) + multiset{keys[j]}
  {
    assert keys == keys[..j] + [keys[j]] + keys[j + 1..];
  }

  /** Flattening with the key at position `j` moved to the front. */
  lemma FlattenRemoveKey(networks: Networks, keys: seq<string>, j: nat)
    requires j < |keys|
    ensures multiset(Flatten(networks, keys))
         == multiset(NetworkOf(networks, keys[j])) + multiset(Flatten(networks, keys[..j] + keys[j + 1..]))
  {
    var k := keys[j];
    assert keys == keys[..j] + ([k] + keys[j + 1..]);
    FlattenAppend(networks, keys[..j], [k] + keys[j + 1..]);
    FlattenAppend(networks, [k], keys[j + 1..]);
    FlattenAppend(networks, keys[..j], keys[j + 1..]);
    assert Flatten(networks, [k]) == NetworkOf(networks, k) + Flatten(networks, []);
  }

  /** Taking the same key out of two lists with the same keys leaves the same keys. */
  lemma RemoveMatchingKey(keys1: seq<string>, keys2: seq<string>, j: nat)
    requires multiset(keys1) == multiset(keys2)
    requires |keys1| > 0 && j < |keys2| && keys2[j] == keys1[0]
    ensures multiset(keys1[1..]) == multiset(keys2[..j] + keys2[j + 1..])
  {
    var rest2 := keys2[..j] + keys2[j + 1..];
    RemoveKey(keys1, 0);
    RemoveKey(keys2, j);
    assert keys1[..0] + keys1[1..] == keys1[1..];
    forall x ensures multiset(keys1[1..])[x] == multiset(rest2)[x] {
      assert multiset(keys1)[x] == multiset(keys2)[x];
    }
  }

  /** Visiting the keys in another order gives the same contacts, possibly reordered. */
  lemma {:induction false} FlattenPermutation(networks: Networks, keys1: seq<string>, keys2: seq<string>)
    requires multiset(keys1) == multiset(keys2)
    ensures multiset(Flatten(networks, keys1)) == multiset(Flatten(networks, keys2))
    decreases |keys1|
  {
    if keys1 == [] {
      assert |multiset(keys2)| == 0;
    } else {
      assert keys1[0] in multiset(keys2);
      var j :| 0 <= j < |keys2| && keys2[j] == keys1[0];
      RemoveMatchingKey(keys1, keys2, j);
      FlattenPermutation(networks, keys1[1..], keys2[..j] + keys2[j + 1..]);
      FlattenRemoveKey(networks, keys1, 0);
      assert keys1[..0] + keys1[1..] == keys1[1..];
      FlattenRemoveKey(networks, keys2, j);
    }
  }

  /** `allContacts`: the direct contacts followed by every second-level contact. */
  function AllContacts(direct: seq<Contact>, networks: Networks, keys: seq<string>): (r: seq<Contact>)
    ensures |r| == |direct| + TotalNetworkSize(networks, keys)
    ensures r[..|direct|] == direct
  {
    FlattenLength(networks, keys);
    direct + Flatten(networks, keys)
  }

  predicate IsLow(c: Contact) { c.support == Low }

  predicate IsUnsure(c: Contact) { c.support == Unsure }

  /** `supportScore` from the four support figures: 4, 3 and 1 points for High,
      Medium and Low (the tooltip's weights). */
  function SupportScore(high: nat, medium: nat, low: nat): (score: nat)
    ensures high + medium + low <= score <= 4 * (high + medium + low)
    ensures score == 0 <==> high == 0 && medium == 0 && low == 0
  {
    high * 4 + medium * 3 + low * 1
  }

  /** The candidate dashboard's support figures. */
  datatype SupportFigures = SupportFigures(lowSupport: nat, unsureSupport: nat, supportScore: nat)

  /** `lowSupport`, `unsureSupport` and `supportScore`: Low and Unsure are counted over
      all contacts, direct and second-level; High and Medium are the fixed figures. */
  function CandidateFigures(all: seq<Contact>): (f: SupportFigures)
    ensures f.lowSupport + f.unsureSupport <= |all|
    ensures f.supportScore == 4 * HighSupport + 3 * MediumSupport + f.lowSupport
  {
    var low := Count(all, IsLow);
    var unsure := Count(all, IsUnsure);
    LowAndUnsureApart(all);
    SupportFigures(low, unsure, SupportScore(HighSupport, MediumSupport, low))
  }

  /** Low and Unsure contacts are counted apart. */
  lemma {:induction false} LowAndUnsureApart(all: seq<Contact>)
    ensures Count(all, IsLow) + Count(all, IsUnsure) <= |all|
  {
    if all != [] {
      LowAndUnsureApart(all[1..]);
    }
  }

  /** The counts over all contacts are the counts over the direct contacts plus those
      over the second-level contacts. */
  lemma CountsSplit(direct: seq<Contact>, networks: Networks, keys: seq<string>)
    ensures var f := CandidateFigures(AllContacts(direct, networks, keys));
      var flat := Flatten(networks, keys);
      && f.lowSupport == Count(direct, IsLow) + Count(flat, IsLow)
      && f.unsureSupport == Count(direct, IsUnsure) + Count(flat, IsUnsure)
  {
    var flat := Flatten(networks, keys);
    CountAppend(direct, flat, IsLow);
    CountAppend(direct, flat, IsUnsure);
  }

  /** The figures do not depend on the order in which the map's keys are visited. */
  lemma FiguresIgnoreKeyOrder(direct: seq<Contact>, networks: Networks, keys1: seq<string>, keys2: seq<string>)
    requires multiset(keys1) == multiset(keys2)
    ensures CandidateFigures(AllContacts(direct, networks, keys1)) == CandidateFigures(AllContacts(direct, networks, keys2))
  {
    FlattenPermutation(networks, keys1, keys2);
    var a1, a2 := AllContacts(direct, networks, keys1), AllContacts(direct, networks, keys2);
    assert multiset(a1) == multiset(a2);
    CountPermutation(a1, a2, IsLow);
    CountPermutation(a1, a2, IsUnsure);
  }

  /** The tooltip's rule applied contact by contact. */
  function Weight(s: Support): (w: nat)
    ensures w <= 4
    ensures w == 0 <==> s == Unsure
  {
    match s
    case High => 4
    case Medium => 3
    case Low => 1
    case Unsure => 0
  }

  /** The score as the tooltip describes it: the sum of every contact's weight. */
  function WeightSum(cs: seq<Contact>): (w: nat)
    ensures w <= 4 * |cs|
    ensures w == 0 <==> forall c :: c in cs ==> c.support == Unsure
  {
    if cs == [] then 0 else Weight(cs[0].support) + WeightSum(cs[1..])
  }

  /** Counting by support and weighting the counts 4/3/1 is the same as summing the
      per-contact weights; Unsure contacts add nothing. */
  lemma {:induction false} WeightSumIsScore(cs: seq<Contact>)
    ensures WeightSum(cs) == SupportScore(Count(cs, Polling.IsHigh),
                                          Count(cs, Polling.IsMedium),
                                          Count(cs, IsLow))
  {
    if cs != [] {
      WeightSumIsScore(cs[1..]);
      CountCons(cs, Polling.IsHigh);
      CountCons(cs, Polling.IsMedium);
      CountCons(cs, IsLow);
      WeightIsBits(cs[0]);
      assert WeightSum(cs) == Weight(cs[0].support) + WeightSum(cs[1..]);
    }
  }

  /** One contact's weight, by the three counted support levels. */
  lemma WeightIsBits(c: Contact)
    ensures Weight(c.support) == 4 * Bit(c, Polling.IsHigh) + 3 * Bit(c, Polling.IsMedium) + Bit(c, IsLow)
  {
  }

  /** The per-contact score is invariant under reordering the contacts. */
  lemma WeightSumPermutation(a: seq<Contact>, b: seq<Contact>)
    requires multiset(a) == multiset(b)
    ensures WeightSum(a) == WeightSum(b)
  {
    WeightSumIsScore(a);
    WeightSumIsScore(b);
    CountPermutation(a, b, Polling.IsHigh);
    CountPermutation(a, b, Polling.IsMedium);
    CountPermutation(a, b, IsLow);
  }

  /** `slice(0, 3)`: the first three contacts, or all of them when there are fewer. */
  function RecentContacts(cs: seq<Contact>): (r: seq<Contact>)
    ensures |r| == if |cs| < 3 then |cs| else 3
    ensures IsSubsequence(r, cs)
    ensures forall i :: 0 <= i < |r| ==> r[i] == cs[i]
  {
    var r := if |cs| < 3 then cs else cs[..3];
    PrefixIsSubsequence(r, cs);
    r
  }

  lemma {:induction false} PrefixIsSubsequence(a: seq<Contact>, b: seq<Contact>)
    requires |a| <= |b| && a == b[..|a|]
    ensures IsSubsequence(a, b)
  {
    if a != [] {
      PrefixIsSubsequence(a[1..], b[1..]);
    }
  }

  /** `mockMessages[0]`, the message shown as the latest (none for an empty list). */
  function LatestMessage(messages: seq<MessageTemplate>): (m: Option<MessageTemplate>)
    ensures messages == [] <==> m.None?
    ensures m.Some? ==> m.value == messages[0]
  {
    if messages == [] then None else Some(messages[0])
  }

  /** The candidate dashboard is shown exactly when the role parameter is
      `candidate`; a missing or empty parameter gives the campaigner's. */
  function ShowsCandidateDashboard(roleParam: Option<string>): (b: bool)
    ensures b <==> roleParam == Some("candidate")
  {
    Layout.CandidateOnlyWhenAsked(roleParam);
    Layout.ResolveRole(roleParam) == "candidate"
  }

  /** The page title that goes with the choice. */
  function PageTitle(roleParam: Option<string>): (title: string)
    ensures title == "Candidate Dashboard" <==> roleParam == Some("candidate")
    ensures title == "Home" <==> roleParam != Some("candidate")
  {
    if ShowsCandidateDashboard(roleParam) then "Candidate Dashboard" else "Home"
  }
}
