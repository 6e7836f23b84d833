# CA-Connect contact directory, modelled in Dafny

CA-Connect is a role-based campaign web front end. Each page takes the user's contacts and derives what it shows from them, and the pages share one set of mock data. This project models that derivation layer and proves properties about it:

- **My Network** (`Contacts`): the search-and-filter view of the contact list, and the edit dialog. The page's component state is the class `ContactsPage`.
- **Message Campaigns** (`Messages`): the split of the contacts into sent, failed and not-sent recipients, and one message card's recipient selection, as the class `MessageCampaignCard`.
- **Network Tree** (`NetworkTree`): the two-level tree of direct contacts and their own contacts, and what a tree node displays.
- **Polling Day** (`Polling`): the voted and not-yet-voted counts, and the High, Medium and Low/Unsure get-out-the-vote lists.
- **Dashboard** (`Dashboard`): which dashboard a role sees, the recent contacts and latest message, and the candidate's Low/Unsure counts and support score.
- **Application shell** (`Layout`): the navigation entries per role, and role-carrying links.
- **Mock data** (`Fixture`, `FixtureFacts`): the user, contacts, second-level networks and message templates. `FixtureFacts` holds what the pages compute on them.

`Types` holds the records and enums. `Seqs` holds `Array.filter`, counting and the subsequence order. `Text` holds `toLowerCase` and `includes`.

A second-level network is a `map<string, seq<Contact>>`. JavaScript's `Object.values` visits its keys in a fixed order, so the model takes that order as a list of keys. `FiguresIgnoreKeyOrder` shows the dashboard's figures do not depend on it.

The candidate dashboard's support score does not count High and Medium contacts: it weights the fixed figures 1245 (High) and 2378 (Medium) and counts only Low over the contacts (`CandidateFigures`). `WeightSumIsScore` shows that the tooltip's per-contact 4/3/1 weighting equals the count-based formula.

## Model

| member | source | states |
|---|---|---|
| Types.RelationshipLabel | src/lib/types.ts:2 | A relationship renders as a non-empty label, never the root's "You". |
| Types.RelationshipLabelInjective | src/lib/types.ts:2 | Different relationships render differently. |
| Types.NetworkOf | src/app/network/tree/page.tsx:85 | `networks[id] \|\| []`: the id's own list when the id is a key, otherwise empty. |
| Types.NetworkSize | src/lib/data.ts:35 | A contact's network size is the length of its list; a positive size means the id is a key. |
| Types.Ids | src/app/messages/page.tsx:22 | `map(c => c.id)`: one id per contact, position by position. |
| Seqs.Filter | src/app/contacts/page.tsx:81 | `Array.filter`: no longer than the input; holds only elements that pass, and every element that passes. |
| Seqs.FilterIsSubsequence | src/app/contacts/page.tsx:81 | A filtered list keeps the input's relative order. |
| Seqs.FilterMultiplicity | src/app/contacts/page.tsx:81 | A passing element occurs in the result as often as in the input; a failing one never does. |
| Seqs.FilterAll | src/app/contacts/page.tsx:82-84 | Filtering with a condition every element passes gives the input back. |
| Seqs.FilterIsSlice | src/app/messages/page.tsx:26-28 | Filtering with a condition that holds exactly on the positions lo to hi gives that slice. |
| Seqs.FilterFilter | src/app/polling/page.tsx:72-76 | Filtering twice is filtering once by the conjunction. |
| Seqs.Count | src/app/polling/page.tsx:70 | `filter(...).length`: at most the list's length; 0 exactly when none passes, the full length exactly when all pass. |
| Seqs.CountPermutation | src/app/dashboard/page.tsx:128-129 | A count depends only on the multiset of elements, not their order. |
| Seqs.CountAppend | src/app/dashboard/page.tsx:122 | Counting over a concatenation adds the counts over the two parts. |
| Text.LowerChar | src/app/contacts/page.tsx:85 | A-Z map to a-z; every other character is kept; the result is never one of A-Z. |
| Text.Lower | src/app/contacts/page.tsx:85-86 | `toLowerCase` keeps the length and lowercases character by character. |
| Text.LowerIdempotent | src/app/contacts/page.tsx:85-86 | Lowercasing twice is lowercasing once. |
| Text.LowerEmpty | src/app/contacts/page.tsx:84-86 | Only the empty query lowercases to the empty string. |
| Text.Includes | src/app/contacts/page.tsx:85-86 | `includes` is true exactly when the needle occurs at some position of the haystack. |
| Text.IncludesEmpty | src/app/contacts/page.tsx:84-86 | Every string includes the empty string. |
| Contacts.FilterContactsSpec | src/app/contacts/page.tsx:81-88 | The filtered list keeps order, and every kept contact passes all three conditions. Every contact that passes all three is kept, as often as in the input. |
| Contacts.SearchMatches | src/app/contacts/page.tsx:84-86 | The search box matches when the lowercased query is empty or occurs in the lowercased name or member id; the query counts only through its lowercase form. |
| Contacts.Matches | src/app/contacts/page.tsx:82-87 | With both drop-downs on "all" and an empty query every contact matches; a match always passes the search. |
| Contacts.FilterContacts | src/app/contacts/page.tsx:81-88 | `filteredContacts` is no longer than the list and holds exactly the listed contacts that match. |
| Contacts.ApplyEdit | src/app/contacts/page.tsx:71-75 | The saved list has the same length, ids and sizes in place; a contact with another id is unchanged; one with the edited id gets the new relationship and support. |
| Contacts.NoFilterIsIdentity | src/app/contacts/page.tsx:82-84 | An empty query with both drop-downs on "all" shows the whole list. |
| Contacts.SearchIgnoresCase | src/app/contacts/page.tsx:85-86 | Queries that lowercase alike select the same contacts. |
| Contacts.SearchByLowercase | src/app/contacts/page.tsx:85-86 | Searching for a query's lowercase form selects what the query selects. |
| Contacts.ApplyEditSpec | src/app/contacts/page.tsx:71-75 | Saving sets relationship and support on each contact with the edited id, and changes nothing else: not the length, no other field, no other contact. |
| Contacts.ApplyEditMissingId | src/app/contacts/page.tsx:71-75 | Editing an id no contact has leaves the list unchanged. |
| Contacts.ApplyEditIdempotent | src/app/contacts/page.tsx:71-75 | Saving the same edit twice is saving it once. |
| Contacts.ApplyEditKeepsIds | src/app/contacts/page.tsx:71-75 | Saving keeps every id in its place, so distinct ids stay distinct. |
| Contacts.ApplyEditChangesOne | src/app/contacts/page.tsx:71-75 | With distinct ids, saving changes exactly the one contact with the edited id. |
| Contacts.ContactsPage.constructor | src/app/contacts/page.tsx:49-57 | The initial state: the given list, dialog closed, nothing selected, Friend/Unsure in the dialog, empty query, both filters "all". |
| Contacts.ContactsPage.Visible | src/app/contacts/page.tsx:81-88 | The rendered list is an order-keeping sublist of the state's contacts. It holds exactly the contacts matching the current filters. |
| Contacts.ContactsPage.EditClick | src/app/contacts/page.tsx:62-67 | Clicking edit selects the contact, seeds the dialog with its relationship and support, and opens the dialog. The list and the filters are unchanged. |
| Contacts.ContactsPage.SaveChanges | src/app/contacts/page.tsx:69-79 | Without a selection nothing changes. With one, the list becomes the edited list, the dialog closes and the selection clears. |
| Contacts.ContactsPage.SetEditedRelationship | src/app/contacts/page.tsx:251 | The dialog's relationship drop-down sets only the edited relationship. |
| Contacts.ContactsPage.SetEditedSupport | src/app/contacts/page.tsx:264 | The dialog's support drop-down sets only the edited support. |
| Contacts.ContactsPage.SetEditDialogOpen | src/app/contacts/page.tsx:238 | Opening or closing the dialog changes only its open flag; the selection stays. |
| Contacts.ContactsPage.SetSearchQuery | src/app/contacts/page.tsx:187 | The search box sets only the query. |
| Contacts.ContactsPage.SetRelationshipFilter | src/app/contacts/page.tsx:106 | The relationship drop-down sets only its filter. |
| Contacts.ContactsPage.SetSupportFilter | src/app/contacts/page.tsx:116 | The support drop-down sets only its filter. |
| Contacts.EditThenSaveUnchanged | src/app/contacts/page.tsx:62-79 | With distinct ids, editing a listed contact and saving at once leaves the list as it was. The dialog ends closed with nothing selected. |
| Messages.IdSet | src/app/messages/page.tsx:22-23 | `new Set(....map(c => c.id))`: the set holds every listed contact's id and nothing else. |
| Messages.GetRecipientStatuses | src/app/messages/page.tsx:20-30 | Whatever the ids, every contact lands in some list, every listed contact is an input contact, and a not-sent contact is neither sent nor failed. |
| Messages.TotalSent | src/app/messages/page.tsx:38 | `totalSent` is the number of recipients shown as sent or failed. |
| Messages.FailedEnd | src/app/messages/page.tsx:23 | The failed slice ends at ⌊n/2⌋ + 1, or at 0 when there are no contacts. |
| Messages.IdInSlice | src/app/messages/page.tsx:22-23 | With distinct ids, an id is in a slice's id set exactly when its contact's position is in the slice. |
| Messages.IdSetsByPosition | src/app/messages/page.tsx:22-23 | With distinct ids, an id is a sent id exactly in the first half, and a failed id exactly at position ⌊n/2⌋. |
| Messages.BucketsAreSlices | src/app/messages/page.tsx:20-30 | With distinct ids: sent is the first ⌊n/2⌋ contacts, failed the next one, notSent the rest. So the lists are disjoint, in order, and together give back the input. |
| Messages.SentIsSlice | src/app/messages/page.tsx:22-26 | With distinct ids, the sent list is exactly the first ⌊n/2⌋ contacts. |
| Messages.FailedIsSlice | src/app/messages/page.tsx:23-27 | With distinct ids, the failed list is exactly the slice from ⌊n/2⌋ to the failed end. |
| Messages.NotSentIsSlice | src/app/messages/page.tsx:22-28 | With distinct ids, the not-sent list is exactly the contacts after the failed one. |
| Messages.FailedIsOne | src/app/messages/page.tsx:23-27 | With distinct ids, failed is the single contact at index ⌊n/2⌋, or empty for no contacts. |
| Messages.TotalSentBound | src/app/messages/page.tsx:38-80 | With distinct ids, the bar's "sent" figure is ⌊n/2⌋ + 1 (0 for none) and never exceeds the number of contacts. |
| Messages.BucketsCover | src/app/messages/page.tsx:26-28 | Whatever the ids, every contact is in some list, notSent shares nothing with sent or failed, and each list keeps input order. |
| Messages.StatusesIgnoreMessage | src/app/messages/page.tsx:20-23 | The split does not depend on the message. |
| Messages.DuplicateIdsOvercount | src/app/messages/page.tsx:20-38 | Two contacts sharing an id are both counted as sent and as failed, so the bar reads 4 of 2. |
| Messages.Toggled | src/app/messages/page.tsx:40-48 | Toggling flips the id's membership and no other id's. |
| Messages.ToggleTwice | src/app/messages/page.tsx:40-48 | Toggling an id twice restores the selection. |
| Messages.MessageCampaignCard.constructor | src/app/messages/page.tsx:32-34 | A card starts with its message and contacts and an empty selection. |
| Messages.MessageCampaignCard.Statuses | src/app/messages/page.tsx:37-38 | The card's lists cover its contacts; with distinct ids its "Sent to" figure is ⌊n/2⌋ + 1 (0 for none). |
| Messages.MessageCampaignCard.ContactToggle | src/app/messages/page.tsx:40-48 | The selection becomes the toggled selection. |
| Messages.MessageCampaignCard.SelectAllNotSent | src/app/messages/page.tsx:50-53 | The selection becomes exactly the ids of the not-sent list. |
| Messages.MessageCampaignCard.Send | src/app/messages/page.tsx:55-71 | An empty selection is refused with "Selection required" and stays empty. Otherwise the message is queued for as many contacts as are selected, and the selection is cleared. |
| Messages.SelectAllNotSentIds | src/app/messages/page.tsx:50-53 | With distinct ids, "Select All" picks exactly the not-sent contacts, and no sent or failed one. |
| NetworkTree.Depth | src/app/network/tree/page.tsx:16-22 | Every subtree has at least one level. |
| NetworkTree.MaxDepth | src/app/network/tree/page.tsx:21 | The deepest of a list of siblings bounds each one; it is 0 only for no siblings. |
| NetworkTree.MaxDepthOfLeaves | src/app/network/tree/page.tsx:90 | Siblings with no children are one level deep. |
| NetworkTree.TwoLevelsDepth | src/app/network/tree/page.tsx:90 | A node whose children are leaves is at most two levels deep. |
| NetworkTree.MaxDepthAtMostTwo | src/app/network/tree/page.tsx:83-104 | Siblings each at most two levels deep are at most two levels deep together. |
| NetworkTree.ChildNode | src/app/network/tree/page.tsx:85-91 | A second-level node carries the contact's id, name and record unchanged, and has no children. |
| NetworkTree.ChildrenOf | src/app/network/tree/page.tsx:85-91 | One leaf child per entry of the contact's network, in order, each carrying its entry. |
| NetworkTree.TopNode | src/app/network/tree/page.tsx:93-102 | A top node carries the contact with `networkSize` replaced by its number of children, and its children are leaves. |
| NetworkTree.BuildTree | src/app/network/tree/page.tsx:83-104 | One node per contact with its id, each at most two levels deep, each showing its number of children as its size. |
| NetworkTree.RootNode | src/app/network/tree/page.tsx:127 | The root shows the user's name, "You", the built tree below it, and the number of direct contacts as its size. |
| NetworkTree.BuildTreeSpec | src/app/network/tree/page.tsx:83-104 | One node per contact, in order, with its id, name and relationship. Its children are its network's entries, in order, each unchanged and with no children. Its contact is the input with networkSize set to the number of children. |
| NetworkTree.TopSizeIsNetworkSize | src/app/network/tree/page.tsx:85-99 | A top node shows `(networks[id] \|\| []).length` as its size. |
| NetworkTree.BuildTreeKeepsConsistentContacts | src/app/network/tree/page.tsx:97-100 | When the stored sizes already match the networks, the tree carries every contact unchanged. |
| NetworkTree.NodeStatus | src/app/network/tree/page.tsx:27 | A node shows its contact's app status, or Installed without a contact. |
| NetworkTree.NodeNetworkSize | src/app/network/tree/page.tsx:29 | A node shows its contact's networkSize, or 0 without a contact. |
| NetworkTree.CanExpand | src/app/network/tree/page.tsx:36 | A node can expand exactly when it has a child. |
| NetworkTree.StatusLabel | src/app/network/tree/page.tsx:68 | Installed is "Active", Pending "Invite Sent", Not Joined "Not Joined". |
| NetworkTree.StatusLabelInjective | src/app/network/tree/page.tsx:68 | The caption determines the status. |
| NetworkTree.RootSpec | src/app/network/tree/page.tsx:110-127 | The root shows the number of direct contacts, is Active, and can expand exactly when there is a contact. The whole tree is at most three levels deep. |
| NetworkTree.ExpandIffNetwork | src/app/network/tree/page.tsx:36 | A top node can expand exactly when its network has an entry; a second-level node never can. |
| Polling.TurnoutSpec | src/app/polling/page.tsx:69-72 | The voted count is at most the network. The not-voted list keeps exactly the Not Voted Yet contacts, in order. An Unknown contact is in neither. |
| Polling.VotedAndNotVotedDisjoint | src/app/polling/page.tsx:69-72 | Voted, Not Voted Yet and Unknown contacts add up to the whole network. |
| Polling.PrioritiesPartition | src/app/polling/page.tsx:74-76 | The three tabs partition the not-voted list by support into High, Medium and Low/Unsure. Each keeps order, and their counts sum to the not-voted count. |
| Polling.VotedCount | src/app/polling/page.tsx:70 | `networkVotedCount`: at most the network; 0 exactly when nobody voted, the whole network exactly when everyone did. |
| Polling.NotVoted | src/app/polling/page.tsx:72 | `networkNotVoted` holds exactly the contacts whose status is Not Voted Yet. |
| Polling.Priorities | src/app/polling/page.tsx:74-76 | Each tab holds exactly the not-voted contacts of its support levels: High, Medium, or Low and Unsure. |
| Polling.PriorityBadge | src/app/polling/page.tsx:21-22 | "HIGH PRIORITY" exactly for High, "MEDIUM PRIORITY" exactly for Medium, no badge otherwise. |
| Polling.BadgeMatchesTab | src/app/polling/page.tsx:21-22 | Every card in a tab wears that tab's badge, and none in the Low tab. |
| Layout.ResolveRole | src/components/layout/AppLayout.tsx:56 | A missing or empty role parameter means campaigner; any other value is the role. |
| Layout.CandidateOnlyWhenAsked | src/components/layout/AppLayout.tsx:56-58 | The role is candidate exactly when the parameter is "candidate". |
| Layout.NavItemsFor | src/components/layout/AppLayout.tsx:30-58 | The candidate has 5 entries and everyone else 4. Each list starts with the base entries and ends with Polling Day. |
| Layout.NavItemsSpec | src/components/layout/AppLayout.tsx:30-45 | Both lists start with Home, My Network, Messages and link to /polling. Only the candidate's links to /network/tree. |
| Layout.AppendRoleRoundTrip | src/components/layout/AppLayout.tsx:60 | A role link is the path, then `?role=`, then the role; stripping the role gives the path back. |
| Layout.AppendRoleInjective | src/components/layout/AppLayout.tsx:60 | Different paths give different links under the same role. |
| Layout.BaseNavItems | src/components/layout/AppLayout.tsx:30-34 | Three entries with distinct paths. |
| Layout.CandidateNavItems | src/components/layout/AppLayout.tsx:36-40 | Five entries, the base ones first, with distinct paths. |
| Layout.CampaignerNavItems | src/components/layout/AppLayout.tsx:42-45 | Four entries, the base ones first, with distinct paths. |
| Layout.AppendRoleToHref | src/components/layout/AppLayout.tsx:60 | The link is the path, then `?role=`, then the role. |
| Layout.StripRole | src/components/layout/AppLayout.tsx:60 | A link stripped of its role gives back a path that rebuilds the link; when stripping fails, no path builds that link. |
| Dashboard.FlattenLength | src/app/dashboard/page.tsx:121 | `Object.values(...).flat()` has one entry per second-level contact. |
| Dashboard.FlattenAppend | src/app/dashboard/page.tsx:121 | Flattening distributes over concatenating key lists. |
| Dashboard.FlattenPermutation | src/app/dashboard/page.tsx:121 | Visiting the keys in another order gives the same contacts, possibly reordered. |
| Dashboard.Flatten | src/app/dashboard/page.tsx:121 | The flattened list holds every contact of every visited network, and only those. |
| Dashboard.TotalNetworkSize | src/app/dashboard/page.tsx:121 | The total is at least each visited network's size, and 0 when no visited key has a network. |
| Dashboard.SupportScore | src/app/dashboard/page.tsx:131 | The score lies between one and four points per counted contact, and is 0 exactly when every count is 0. |
| Dashboard.WeightSum | src/app/dashboard/page.tsx:221-223 | The tooltip's per-contact sum is at most 4 per contact, and 0 exactly when every contact is Unsure. |
| Dashboard.AllContacts | src/app/dashboard/page.tsx:120-122 | All contacts are the direct ones first, then as many as the networks hold. |
| Dashboard.CandidateFigures | src/app/dashboard/page.tsx:124-131 | Low plus Unsure is at most the number of contacts; the score is 4·1245 + 3·2378 + the Low count. |
| Dashboard.LowAndUnsureApart | src/app/dashboard/page.tsx:128-129 | Low and Unsure contacts are counted apart. |
| Dashboard.CountsSplit | src/app/dashboard/page.tsx:120-129 | The Low and Unsure counts are the direct contacts' plus the second-level contacts'. |
| Dashboard.FiguresIgnoreKeyOrder | src/app/dashboard/page.tsx:121-131 | The figures do not depend on the order in which the networks are visited. |
| Dashboard.Weight | src/app/dashboard/page.tsx:221-223 | A contact weighs at most 4 points, and 0 exactly when Unsure. |
| Dashboard.WeightSumIsScore | src/app/dashboard/page.tsx:131 | Summing each contact's tooltip weight equals 4·High + 3·Medium + 1·Low over the counts. |
| Dashboard.WeightSumPermutation | src/app/dashboard/page.tsx:221-223 | The weighted score does not depend on the contacts' order. |
| Dashboard.RecentContacts | src/app/dashboard/page.tsx:23 | `slice(0, 3)`: the first min(3, n) contacts, in order. |
| Dashboard.LatestMessage | src/app/dashboard/page.tsx:24 | The latest message is the first template, and there is none only for no templates. |
| Dashboard.ShowsCandidateDashboard | src/app/dashboard/page.tsx:307-312 | The candidate dashboard is shown exactly when the role parameter is "candidate". |
| Dashboard.PageTitle | src/app/dashboard/page.tsx:311 | The title is "Candidate Dashboard" exactly for the candidate, "Home" otherwise. |
| Fixture.NetworkSizesDerived | src/lib/data.ts:26-117 | Every direct contact's networkSize is the length of its second-level list, or 0 without one. |
| Fixture.NetworkLengths | src/lib/data.ts:10-24 | The network lengths: 2 for '1', 1 for '3', '7' and '8', 0 for the other ids. |
| Fixture.NetworkSizeValues | src/lib/data.ts:26-117 | Priya's size is 2; Sara's, Sunita's and Vikram's 1; everyone else's 0. |
| Fixture.SecondLevelTotal | src/lib/data.ts:10-24 | The networks hold five second-level contacts. |
| Fixture.SecondLevelSizesAreLiterals | src/lib/data.ts:12-22 | The second-level sizes are the literals 2, 0, 3, 0, 1, and three of them disagree with any network entry. |
| Fixture.KeysAreDirectIds | src/lib/data.ts:10-117 | Every network key is a direct contact's id, and the visiting order lists each key once. |
| Fixture.FlattenFixture | src/app/dashboard/page.tsx:121 | On the mock data, the flattened networks are the lists of '1', '3', '7', '8' in that order. |
| Fixture.MessagesFixture | src/lib/data.ts:119-144 | Three templates, msg1 to msg3; the dashboard's latest is msg1. |
| Fixture.MockUser | src/lib/data.ts:4-7 | The user is Sunil, at level 1. |
| Fixture.SecondLevelNetworks | src/lib/data.ts:10-24 | The networks are keyed by '1', '3', '7' and '8', and none is empty. |
| Fixture.NetworkKeys | src/lib/data.ts:10-24 | The visiting order lists each network key exactly once. |
| Fixture.Direct | src/lib/data.ts:35 | A direct contact's size is the length of its id's network. |
| Fixture.MockContacts | src/lib/data.ts:26-117 | Eight direct contacts. |
| Fixture.MockMessages | src/lib/data.ts:119-144 | Three templates with distinct ids. |
| FixtureFacts.DirectShape | src/lib/data.ts:26-117 | The direct contacts' polling statuses and supports, position by position. |
| FixtureFacts.SecondLevelShape | src/lib/data.ts:10-24 | The second-level contacts' polling statuses and supports, in visiting order. |
| FixtureFacts.PollingCounts | src/app/polling/page.tsx:69-72 | Eight contacts shaped like the direct ones: 4 voted, 4 not yet. |
| FixtureFacts.HighCount | src/app/polling/page.tsx:74 | Such contacts put 2 in the High tab. |
| FixtureFacts.MediumCount | src/app/polling/page.tsx:75 | Such contacts put none in the Medium tab. |
| FixtureFacts.LowCount | src/app/polling/page.tsx:76 | Such contacts put 2 in the Low tab. |
| FixtureFacts.PollingFixture | src/app/polling/page.tsx:69-76 | On the mock data, 4 of 8 have voted; the tabs hold 2 High, 0 Medium and 2 Low or Unsure. |
| FixtureFacts.DirectSupportCounts | src/app/dashboard/page.tsx:128-129 | The direct contacts hold one Low and one Unsure contact. |
| FixtureFacts.SecondLevelSupportCounts | src/app/dashboard/page.tsx:128-129 | The second-level contacts hold no Low or Unsure contact. |
| FixtureFacts.FiguresOfShape | src/app/dashboard/page.tsx:120-131 | Contacts of the mock data's shape give 13 contacts in all, Low 1, Unsure 1 and score 12115. |
| FixtureFacts.DashboardFixture | src/app/dashboard/page.tsx:120-152 | On the mock data: 13 contacts, Low 1, Unsure 1, and score 12115, which is the last trend point. |
| FixtureFacts.DirectIds | src/lib/data.ts:28-107 | The direct ids are the digits 1 to 8. |
| FixtureFacts.DirectIdsDistinct | src/lib/data.ts:28-107 | The eight direct ids are pairwise distinct. |
| FixtureFacts.SecondLevelIds | src/lib/data.ts:12-22 | The second-level ids, in visiting order, are 1-1, 1-2, 3-1, 7-1, 8-1. |
| FixtureFacts.SecondLevelIdsDistinct | src/lib/data.ts:12-22 | The five second-level ids are pairwise distinct. |
| FixtureFacts.DirectAndSecondLevelApart | src/lib/data.ts:12-107 | No direct id is a second-level id. |
| FixtureFacts.AllIdsDistinct | src/lib/data.ts:10-117 | All 13 contacts, direct and second-level, have distinct ids, so the bucketing and edit lemmas apply. |
| FixtureFacts.BucketsOfEight | src/app/messages/page.tsx:20-38 | Eight contacts with distinct ids split into four sent, one failed and three not sent; the bar shows 5. |
| FixtureFacts.MessagesBucketsFixture | src/app/messages/page.tsx:183-185 | Each card on the mock contacts shows contacts 1-4 as sent, 5 as failed, 6-8 as not sent, and "Sent to 5 of 8". |
| FixtureFacts.TreeFixture | src/app/network/tree/page.tsx:108-127 | On the mock data the tree carries every direct contact unchanged, and the root shows 8. |

## Left out

- Rendering is not modelled: JSX, styling, dialogs and sheets, icons, `Link`, `Suspense`. Only what the pages compute and the state they keep is.
- The charts are not modelled, including the relationship chart's `Math.random` data: it is nondeterministic and only decorates the page.
- Turnout percentages and `toFixed` are floating point and not modelled; only the integer counts they divide are. The empty-list division by zero goes with them.
- `toLocaleString` and `Intl.NumberFormat` are locale-formatting library calls and are not modelled.
- Clipboard, toast and `console.log` side effects are not modelled. `Send` returns the toast's outcome as a value.
- `useSearchParams` is a parameter: the role parameter is an `Option<string>`.
- Types.NetworkOf: an id naming an `Object.prototype` member (`constructor`, `toString`, `__proto__`) is treated as absent. In the page such a lookup is truthy, so `buildTree` would throw on it and the size idiom would give a wrong length; no id in the data is such a name.
- Text.Lower: lowercases ASCII letters only. Full Unicode `toLowerCase` is a library table.
- The headline figures 4387 and 639 are constants and not modelled; 1245 and 2378 enter only the score. Of the trend array, only its last point, 12115, is used, in `DashboardFixture`.
- The tree node's collapse state and the contact search page's button state are UI state and not modelled.
- The add-contact page, the settings page, the landing page and the icon set hold no derivation logic and are not part of this model.
- `PromotionRequest` and `mockPromotionRequests` are not modelled: the type is not declared in the types file, and no page modelled here reads the list.
- `UrgencyLevel` has no behaviour; it is a datatype only.
- The order in which `Object.values` visits the second-level keys is a parameter, because a Dafny map has no order. The mock data's order is given by `NetworkKeys`.
- NetworkTree.RootNode: the root's contact is a partial record in the page (`networkSize`, `support` and `appStatus` only). The fields the page leaves unset are placeholders, and no lemma reads them.
- Fixture.SecondLevelNetworks: contact '1-2' has no `canInfluence` in the source; the `as Contact` cast hides the gap. Its value there is `undefined`, which is modelled as `false`.
- Messages.BucketsAreSlices: holds only for distinct ids, as do SentIsSlice, FailedIsSlice, NotSentIsSlice, FailedIsOne, TotalSentBound and SelectAllNotSentIds. The page assumes distinct ids without checking them. BucketsCover states what holds whatever the ids, and DuplicateIdsOvercount shows the bound fails without them. AllIdsDistinct shows the mock data meets the condition.
- Contacts.ApplyEditChangesOne: states "exactly one contact changes" only for distinct ids. ApplyEditSpec states the general case, where every contact with the id changes.
- Messages.MessageCampaignCard.ContactToggle: copies the set, then adds or deletes the id on the copy. Sets are values here, so the model does not capture that the copy is a separate object from the old state.
