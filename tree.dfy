/** The "Network Tree" page (src/app/network/tree/page.tsx): a two-level tree of the
    user's direct contacts and, under each, that contact's own contacts. */
module NetworkTree {
  import opened Types

  /** `TreeNodeData`; `description` is the relationship label (or "You" at the root). */
  datatype TreeNode = TreeNode(
    id: string,
    name: string,
    description: string,
    contact: Option<Contact>,
    children: seq<TreeNode>)

  /** A second-level node: it carries the contact as stored and shows no children. */
  function ChildNode(c: Contact): (n: TreeNode)
    ensures n.id == c.id && n.name == c.name && n.contact == Some(c)
    ensures IsLeaf(n)
  {
    TreeNode(c.id, c.name, RelationshipLabel(c.relationship), Some(c), [])
  }

  /** The children of a top-level contact, one per entry of its network, in order. */
  function ChildrenOf(networks: Networks, id: string): (r: seq<TreeNode>)
    ensures |r| == NetworkSize(networks, id)
    ensures forall k :: 0 <= k < |r| ==> r[k].contact == Some(NetworkOf(networks, id)[k]) && IsLeaf(r[k])
  {
    var kids := NetworkOf(networks, id);
    seq(|kids|, i requires 0 <= i < |kids| => ChildNode(kids[i]))
  }

  /** A top-level node: its contact is copied with `networkSize` replaced by the number
      of children. */
  function TopNode(networks: Networks, c: Contact): (n: TreeNode)
    ensures n.id == c.id && n.name == c.name
    ensures n.contact == Some(c.(networkSize := NetworkSize(networks, c.id)))
    ensures |n.children| == NetworkSize(networks, c.id) && AtMostTwoLevels(n)
  {
    var children := ChildrenOf(networks, c.id);
    TreeNode(c.id, c.name, RelationshipLabel(c.relationship), Some(c.(networkSize := |children|)), children)
  }

  /** `buildTree` */
  function BuildTree(contacts: seq<Contact>, networks: Networks): (r: seq<TreeNode>)
    ensures |r| == |contacts|
    ensures forall i :: 0 <= i < |r| ==>
      && r[i].id == contacts[i].id
      && AtMostTwoLevels(r[i])
      && NodeNetworkSize(r[i]) == |r[i].children|
  {
    seq(|contacts|, i requires 0 <= i < |contacts| => TopNode(networks, contacts[i]))
  }

  /** A node shows no children. */
  predicate IsLeaf(n: TreeNode)
  {
    n.children == []
  }

  /** Every child of `n` is a leaf: the subtree is at most two levels deep. */
  predicate AtMostTwoLevels(n: TreeNode)
  {
    forall k :: 0 <= k < |n.children| ==> IsLeaf(n.children[k])
  }

  /** The number of levels of a subtree (a leaf has one). */
  function Depth(n: TreeNode): (d: nat)
    ensures d >= 1
    decreases n, 1
  {
    1 + MaxDepth(n.children)
  }

  /** The deepest subtree in a list of siblings (0 for none). */
  function MaxDepth(nodes: seq<TreeNode>): (d: nat)
    ensures forall k :: 0 <= k < |nodes| ==> Depth(nodes[k]) <= d
    ensures nodes == [] <==> d == 0
    decreases nodes, 0
  {
    if nodes == [] then 0
    else
      var first, rest := Depth(nodes[0]), MaxDepth(nodes[1..]);
      assert forall k :: 1 <= k < |nodes| ==> nodes[k] == nodes[1..][k - 1];
      if first < rest then rest else first
  }

  /** Siblings that are all leaves are one level deep. */
  lemma {:induction false} MaxDepthOfLeaves(nodes: seq<TreeNode>)
    requires forall k :: 0 <= k < |nodes| ==> IsLeaf(nodes[k])
    ensures MaxDepth(nodes) <= 1
  {
    if nodes != [] {
      MaxDepthOfLeaves(nodes[1..]);
      assert Depth(nodes[0]) == 1 + MaxDepth([]);
    }
  }

  /** A node whose children are leaves has depth at most two. */
  lemma TwoLevelsDepth(n: TreeNode)
    requires AtMostTwoLevels(n)
    ensures Depth(n) <= 2
  {
    MaxDepthOfLeaves(n.children);
  }

  /** Siblings of depth at most two are at most two levels deep. */
  lemma {:induction false} MaxDepthAtMostTwo(nodes: seq<TreeNode>)
    requires forall k :: 0 <= k < |nodes| ==> Depth(nodes[k]) <= 2
    ensures MaxDepth(nodes) <= 2
  {
    if nodes != [] {
      MaxDepthAtMostTwo(nodes[1..]);
    }
  }

  /** One node per contact, in order, with the contact's id, name and relationship;
      its children are the contact's network entries, in order, each carrying the
      second-level contact unchanged (its stored `networkSize` included) and no
      children of its own; its contact is the input contact with `networkSize` set to
      the number of children and every other field copied. */
  lemma BuildTreeSpec(contacts: seq<Contact>, networks: Networks, i: nat)
    requires i < |contacts|
    ensures var tree := BuildTree(contacts, networks);
      var c := contacts[i];
      var kids := NetworkOf(networks, c.id);
      && |tree| == |contacts|
      && tree[i].id == c.id
      && tree[i].name == c.name
      && tree[i].description == RelationshipLabel(c.relationship)
      && |tree[i].children| == |kids|
      && (forall k :: 0 <= k < |kids| ==>
            && tree[i].children[k].id == kids[k].id
            && tree[i].children[k].name == kids[k].name
            && tree[i].children[k].contact == Some(kids[k])
            && IsLeaf(tree[i].children[k]))
      && tree[i].contact.Some?
      && tree[i].contact.value.networkSize == |tree[i].children|
      && tree[i].contact.value == c.(networkSize := |kids|)
      && AtMostTwoLevels(tree[i])
  {
  }

  /** The tree's sizes agree with the network lookup used by the fixture: a top node
      shows `(networks[id] || []).length`. */
  lemma TopSizeIsNetworkSize(contacts: seq<Contact>, networks: Networks, i: nat)
    requires i < |contacts|
    ensures NodeNetworkSize(BuildTree(contacts, networks)[i]) == NetworkSize(networks, contacts[i].id)
  {
  }

  /** When the stored sizes are already consistent with the networks, the tree carries
      every contact unchanged. */
  lemma BuildTreeKeepsConsistentContacts(contacts: seq<Contact>, networks: Networks)
    requires forall c :: c in contacts ==> c.networkSize == NetworkSize(networks, c.id)
    ensures forall i :: 0 <= i < |contacts| ==> BuildTree(contacts, networks)[i].contact == Some(contacts[i])
  {
    forall i | 0 <= i < |contacts| ensures BuildTree(contacts, networks)[i].contact == Some(contacts[i]) {
      assert contacts[i] in contacts;
    }
  }

  /** The status a node displays: the contact's app status, `Installed` without one. */
  function NodeStatus(n: TreeNode): (s: AppStatus)
    ensures n.contact.None? ==> s == Installed
    ensures n.contact.Some? ==> s == n.contact.value.appStatus
  {
    match n.contact
    case None => Installed
    case Some(c) => c.appStatus
  }

  /** The size a node displays: the contact's `networkSize`, 0 without one. */
  function NodeNetworkSize(n: TreeNode): (k: nat)
    ensures n.contact.None? ==> k == 0
    ensures n.contact.Some? ==> k == n.contact.value.networkSize
  {
    match n.contact
    case None => 0
    case Some(c) => c.networkSize
  }

  /** The expand chevron is shown exactly when the node has a child. */
  function CanExpand(n: TreeNode): (b: bool)
    ensures b <==> |n.children| > 0
  {
    |n.children| > 0
  }

  /** The status caption. */
  function StatusLabel(s: AppStatus): (caption: string)
    ensures caption == "Active" <==> s == Installed
    ensures caption == "Invite Sent" <==> s == Pending
    ensures caption == "Not Joined" <==> s == NotJoined
  {
    match s
    case Installed => "Active"
    case Pending => "Invite Sent"
    case NotJoined => "Not Joined"
  }

  /** The three captions are distinct, so the caption determines the status. */
  lemma StatusLabelInjective(a: AppStatus, b: AppStatus)
    ensures StatusLabel(a) == StatusLabel(b) ==> a == b
  {
  }

  /** The root: the user, described as "You", with the whole tree below it. Its
      contact is a partial record in the page (`networkSize`, `support` and
      `appStatus` only); the fields the page leaves unset are placeholders here. */
  function RootNode(user: User, contacts: seq<Contact>, networks: Networks): (n: TreeNode)
    ensures n.name == user.name && n.description == "You"
    ensures n.children == BuildTree(contacts, networks)
    ensures NodeNetworkSize(n) == |contacts|
  {
    var placeholder := Contact("", "", "", Other, High, false, Installed, |contacts|, Unknown, None);
    TreeNode("", user.name, "You", Some(placeholder), BuildTree(contacts, networks))
  }

  /** The root shows the number of direct contacts, is active, and can expand exactly
      when there is a direct contact; below it the tree is two levels deep, so the
      whole tree, root included, has at most three. */
  lemma RootSpec(user: User, contacts: seq<Contact>, networks: Networks)
    ensures var root := RootNode(user, contacts, networks);
      && NodeNetworkSize(root) == |contacts|
      && StatusLabel(NodeStatus(root)) == "Active"
      && (CanExpand(root) <==> |contacts| > 0)
      && (forall k :: 0 <= k < |root.children| ==> Depth(root.children[k]) <= 2)
      && Depth(root) <= 3
  {
    var root := RootNode(user, contacts, networks);
    forall k | 0 <= k < |root.children| ensures Depth(root.children[k]) <= 2 {
      BuildTreeSpec(contacts, networks, k);
      TwoLevelsDepth(root.children[k]);
    }
    MaxDepthAtMostTwo(root.children);
  }

  /** A leaf cannot expand; a top node can expand exactly when its contact has a
      second-level network with an entry. */
  lemma ExpandIffNetwork(contacts: seq<Contact>, networks: Networks, i: nat)
    requires i < |contacts|
    ensures CanExpand(BuildTree(contacts, networks)[i]) <==> NetworkSize(networks, contacts[i].id) > 0
    ensures forall k :: 0 <= k < |BuildTree(contacts, networks)[i].children| ==>
      !CanExpand(BuildTree(contacts, networks)[i].children[k])
  {
  }
}
