# UNIDO partnership CRM — a verified model of its core logic

The CRM keeps a list of partner organisations and relates them to UNIDO's
organisation chart and staff directory. This project models the parts of it
that are discrete logic, and proves what that logic promises.

- **Partner store.** One store holds the partner list and supports four
  operations: add, update, delete and import.
- **Partner list page.** Filters the partners by a free-text search and
  multiple selections, then shows one page of the result.
- **Partner detail page.** Finds one partner by the id in the route. It edits
  a copy of the partner, commits the copy on save, and logs new engagements.
- **Dashboard.** Counts partners by status, type, region and sector. It shows
  the five most cited Sustainable Development Goals (SDGs) and the five newest
  engagements.
- **Network graph builder.** Turns partners and staff into nodes and links.
- **Analysis helpers.** Infer partner roles, measure link and connection
  strength, and find partnership opportunities, key connectors and network
  density.
- **Network view.**
  - places each node in one of five organisational clusters;
  - defines a force towards each cluster's anchor, which it never applies;
  - highlights a selected node or cluster;
  - pins a node while it is dragged.
- **Hierarchy panel.** Buckets partners into the directorate and division of
  their UNIDO contact.
- **Directory lookups.** Staff and organisation lookups with their fallback
  chains.
- **Colour helpers.**

One Dafny module corresponds to each source file. Three shared modules support
them:

- `Common`: Option, `parseInt` without a radix (decimal, or hexadecimal
  after `0x`), ASCII lower-casing, substring, split, trim over JavaScript's
  whitespace set, join, and integer-to-decimal text.
- `Collections`: count, filter, subsequence, sum, a count object in
  first-appearance order, the order `Object.keys` lists its keys in, a stable
  descending sort, and take.
- `Records`: the partner and staff records.

**How JavaScript is modelled.**

| JavaScript | In the model |
|---|---|
| optional arrays | `Option<seq<…>>` |
| field that is only tested for truthiness (e.g. a missing contact) | `""` or `0` |
| a partner's region, which may be missing | `Option<string>`, since `undefined` and `""` differ under `===` and as count keys |
| node ids (numbers for partners, strings for staff) | `PartnerId(int) \| StaffId(string)`, so `===` never equates the two kinds |
| object used as a dictionary | sequence of entries in key insertion order; `Object.keys` and `Object.entries` list array-index keys first, ascending, then the rest in that order |
| numbers | exact `int` or `real` |

**How stateful code is modelled.**

| Source | Dafny class | Modelled as |
|---|---|---|
| DataContext store | `DataContext.PartnerStore` | `seq` field; each method is proved to produce a pure specification function of the old list |
| React state slots of the list page | `PartnerList.PartnerListView` | fields overwritten by methods |
| React state slots of the detail page | `PartnerDetail.PartnerDetailView` | fields overwritten by methods |
| React state slots of the network view | `NetworkVisualization.NetworkView` | fields overwritten by methods |
| React state slots of the hierarchy panel | `OrganizationalHierarchy.HierarchyView` | fields overwritten by methods |
| `forEach` loops that write node fields | writes into an `array<SimNode>` | each loop is proved equal, element by element, to a pure function |
| loops that accumulate a total, a set or a count object | `for` loops | proved equal to a specification function |

## Model

| member | source | states |
|---|---|---|
| Common.Lower | src/components/Partners/PartnerList.js:79-82 | `toLowerCase` on ASCII letters: same length, each character lower-cased, with PartnerList.LowerIdempotent; other letters are left alone (see Left out) |
| Common.ParseIntOfIntToString | src/components/Partners/PartnerDetail.js:61 | `parseInt` of the decimal text of any integer gives that integer back |
| Common.ParseIntHex | src/components/Partners/PartnerDetail.js:61 | `0x` or `0X` and hexadecimal digits, signed or not, read as a hexadecimal number up to the first non-hex character; no digit after the prefix gives NaN |
| Common.HexTwoDigits | src/components/Partners/PartnerDetail.js:61 | two hexadecimal digits have the value 16·d1 + d2 |
| Common.TrimOneEach | src/components/Dashboard/utils/dashboardUtils.js:165 | `trim` removes a white-space character at each end and keeps the inside |
| Common.UnicodeSpaces | src/components/Dashboard/utils/dashboardUtils.js:165 | the no-break space, the byte order mark, the line separator and the ideographic space are white space; the zero-width space is not |
| Collections.InsertDescWithKey | src/components/Dashboard/utils/dashboardUtils.js:266-268 | inserting an element puts it first among the elements with its key and leaves the elements with other keys in order |
| Collections.SortDescStable | src/components/Dashboard/utils/dashboardUtils.js:266-268 | the sort is stable: the elements with any one key keep their relative order |
| Collections.ObjectEntriesPermutes | src/components/Dashboard/utils/dashboardUtils.js:241-244 | `Object.keys` lists every entry of a count object once: a permutation of the insertion order |
| Collections.ObjectEntriesOrder | src/components/Dashboard/utils/dashboardUtils.js:241-244 | array-index keys come first in strictly ascending numeric order; the other keys follow in insertion order |
| Collections.IndexKeyText | src/components/Dashboard/utils/dashboardUtils.js:241-244 | an array-index key is the canonical decimal text of its value, so two index keys with the same value are the same key |
| Collections.PermutedEntries | src/components/Dashboard/utils/dashboardUtils.js:241-244 | any reordering of entries with distinct keys keeps the keys distinct, every key's count and the total |
| Collections.ObjectEntriesOfTally | src/components/Dashboard/utils/dashboardUtils.js:235-244 | the listed entries of a count object have distinct keys, exactly the counted values as keys, each value's true count, and a sum equal to the number of values counted |
| DashboardUtils.ProcessNetworkData | src/components/Dashboard/utils/dashboardUtils.js:14-66 | `processNetworkData`: the graph of partner nodes, the named staff nodes and the resolving links; its properties are stated by DashboardUtils.PartnerNodesFirst, StaffNodeIff, NoOrphanStaff, LinksResolve and OneContact |
| DashboardUtils.PartnerNodesFirst | src/components/Dashboard/utils/dashboardUtils.js:26-38 | node i is the node of partner i, in input order; every later node is a staff node |
| DashboardUtils.NamedStaffKept | src/components/Dashboard/utils/dashboardUtils.js:19-24 | a staff record named as some partner's main contact is kept |
| DashboardUtils.KeptStaffNamed | src/components/Dashboard/utils/dashboardUtils.js:40-42 | every kept staff record is listed and named as some partner's contact |
| DashboardUtils.StaffNodeIff | src/components/Dashboard/utils/dashboardUtils.js:19-47 | a listed staff member is a node iff some partner names it as main contact |
| DashboardUtils.NoOrphanStaff | src/components/Dashboard/utils/dashboardUtils.js:40-47 | every staff node comes from a listed staff record that some partner names |
| DashboardUtils.ContactLinksResolve | src/components/Dashboard/utils/dashboardUtils.js:54-56 | every contact link runs from a partner to a built node |
| DashboardUtils.ConnectionLinksResolve | src/components/Dashboard/utils/dashboardUtils.js:58-61 | every partner-partner link runs from a partner to a built node |
| DashboardUtils.LinksResolve | src/components/Dashboard/utils/dashboardUtils.js:15-63 | both ends of every link are built nodes; a missing partner list gives no links |
| DashboardUtils.OneContact | src/components/Dashboard/utils/dashboardUtils.js:14-66 | one partner whose contact is the one listed staff member, without connections, gives two nodes and exactly one contact link |
| DashboardUtils.ConnectedPair | src/components/Dashboard/utils/dashboardUtils.js:14-66 | two partners, the first naming one of two listed staff members as contact and connected to the second and to an id with no node: the two partner nodes and the named staff node, in that order, then the contact link and the one partner-partner link; the unnamed staff member and the dangling connection are dropped |
| DashboardUtils.StaffNodeOf | src/components/Dashboard/utils/dashboardUtils.js:42-47 | a staff node carries the record's id and name, and its directorate, or 'Unknown' when it has none; the directorate is never empty |
| DashboardUtils.UnknownDirectorateNode | src/components/Dashboard/utils/dashboardUtils.js:19-47 | a staff member named as contact and without a directorate appears in the graph with directorate 'Unknown' |
| DashboardUtils.DanglingConnectionScenario | src/components/Dashboard/utils/dashboardUtils.js:58-61 | a connection to an id that is not a node yields no link; a missing staff list counts as empty |
| DashboardUtils.CalculateTotalContributions | src/components/Dashboard/utils/dashboardUtils.js:111-123 | the loop computes the sum over all records: amount if Financial, else estimatedValue; 0 for a missing list |
| DashboardUtils.TotalContributionsAppend | src/components/Dashboard/utils/dashboardUtils.js:111-123 | the total is additive over concatenated partner lists |
| DashboardUtils.GetContributionTypeData | src/components/Dashboard/utils/dashboardUtils.js:179-197 | returns the three rows Financial, In-kind and Other, each the loop's total for that type; all zero for a missing list |
| DashboardUtils.PartsAddUp | src/components/Dashboard/utils/dashboardUtils.js:179-197 | per contribution list, the three type totals add up to the contribution total |
| DashboardUtils.TypeTotalsAddUp | src/components/Dashboard/utils/dashboardUtils.js:179-197 | the three rows of the type breakdown add up to calculateTotalContributions (lines 111-123) |
| DashboardUtils.CalculateActiveProjects | src/components/Dashboard/utils/dashboardUtils.js:131-145 | the loop counts exactly the projects that are "In Progress" or "Active"; 0 for a missing list |
| DashboardUtils.ActiveProjectsBound | src/components/Dashboard/utils/dashboardUtils.js:131-145 | the active count is between 0 and the number of projects, and equals a count by filter |
| DashboardUtils.TrimAll | src/components/Dashboard/utils/dashboardUtils.js:164-165 | trims every piece of a split location list, keeping its length and order; the white space removed is JavaScript's, including U+00A0, U+FEFF and the line separators (Common.UnicodeSpaces) |
| DashboardUtils.AddPlaces | src/components/Dashboard/utils/dashboardUtils.js:164-165 | the inner loop adds the trimmed location pieces to the set in order |
| DashboardUtils.AddProjectPlace | src/components/Dashboard/utils/dashboardUtils.js:162-167 | one project adds its location pieces to the set |
| DashboardUtils.AddProjectPlaces | src/components/Dashboard/utils/dashboardUtils.js:161-168 | the project loop adds every project's location pieces to the set |
| DashboardUtils.GetUniqueCountries | src/components/Dashboard/utils/dashboardUtils.js:153-171 | the result is the set built from all countries and the JavaScript-trimmed project locations, in first-insertion order; [] for a missing list |
| DashboardUtils.PartnerPlacesMembers | src/components/Dashboard/utils/dashboardUtils.js:157-169 | a text is one of a partner's places iff it is the partner's own country or a trimmed piece of a project location |
| DashboardUtils.CountryCandidatesMembers | src/components/Dashboard/utils/dashboardUtils.js:153-171 | a country is a candidate iff it is a place of some partner |
| DashboardUtils.UniqueCountriesFacts | src/components/Dashboard/utils/dashboardUtils.js:153-171 | the countries are distinct, and each is a place of some partner (iff) |
| DashboardUtils.ObjectKeyOrderMembers | src/components/Dashboard/utils/dashboardUtils.js:218-221 | Object.entries key order is a permutation of the insertion order |
| DashboardUtils.ObjectKeyOrderDistinct | src/components/Dashboard/utils/dashboardUtils.js:218-221 | reordering distinct keys keeps them distinct |
| DashboardUtils.AscendingByNegKey | src/components/Dashboard/utils/dashboardUtils.js:218-221 | distinct keys sorted by descending negation are strictly ascending |
| DashboardUtils.SortedIndices | src/components/Dashboard/utils/dashboardUtils.js:218-221 | the array-index keys come out in ascending numeric order |
| DashboardUtils.ObjectKeyOrderIndicesFirst | src/components/Dashboard/utils/dashboardUtils.js:218-221 | array-index keys come first and ascending; the other keys follow in insertion order |
| DashboardUtils.SdgNameInjective | src/components/Dashboard/Dashboard.js:50-51 | different SDG numbers get different "SDG n" labels |
| DashboardUtils.CountSdgs | src/components/Dashboard/utils/dashboardUtils.js:210-216 | the increment loop turns the count object of a prefix into the count object of the prefix extended by the SDGs |
| DashboardUtils.GetSDGAlignmentData | src/components/Dashboard/utils/dashboardUtils.js:205-222 | the loop's rows are the ordered count object of every partner's SDGs; [] for a missing list |
| DashboardUtils.SdgListMembers | src/components/Dashboard/utils/dashboardUtils.js:210-216 | an SDG is counted iff some partner's alignment contains it |
| DashboardUtils.SdgRowsCorrect | src/components/Dashboard/utils/dashboardUtils.js:205-222 | every row names an aligned SDG and carries that SDG's number of occurrences |
| DashboardUtils.SdgRowsComplete | src/components/Dashboard/utils/dashboardUtils.js:205-222 | every aligned SDG has its row with its count |
| DashboardUtils.SdgRowsDistinct | src/components/Dashboard/utils/dashboardUtils.js:205-222 | no SDG name occurs in two rows |
| DashboardUtils.RegionOf | src/components/Dashboard/utils/dashboardUtils.js:236 | a region is truthy iff it is present and not empty, and then it is the partner's region |
| DashboardUtils.Distribution | src/components/Dashboard/utils/dashboardUtils.js:230-269 | the counting object over one truthy text field, listed in `Object.keys` order and mapped to name/value rows; stated by DashboardUtils.DistributionFacts and DistributionOrder |
| DashboardUtils.GetRegionalDistributionData | src/components/Dashboard/utils/dashboardUtils.js:230-245 | the loop yields the per-region count rows over truthy regions, in `Object.keys` order; [] for a missing list |
| DashboardUtils.DistributionFacts | src/components/Dashboard/utils/dashboardUtils.js:230-269 | each row names a truthy value with its positive count; every truthy value has its row; names are distinct |
| DashboardUtils.DistributionOrder | src/components/Dashboard/utils/dashboardUtils.js:241-244 | rows whose names are array indices come first, in strictly ascending numeric order |
| DashboardUtils.GetSectorDistributionData | src/components/Dashboard/utils/dashboardUtils.js:253-269 | `getSectorDistributionData`: the stable descending sort of the sector rows, cut to six, [] for a missing list; stated by DashboardUtils.SectorRowsCorrect, SectorRowsDistinct, SectorTopSix and Collections.SortDescStable |
| DashboardUtils.SectorRowsCorrect | src/components/Dashboard/utils/dashboardUtils.js:253-269 | at most six sector rows, by non-increasing count, each the sector's true count |
| DashboardUtils.SectorRowsDistinct | src/components/Dashboard/utils/dashboardUtils.js:253-269 | no sector is shown twice |
| DashboardUtils.SectorTopSix | src/components/Dashboard/utils/dashboardUtils.js:264-268 | a sector left out has no more partners than the sixth row, and is left out only when six rows are shown |
| DashboardUtils.NodeColor | src/components/Dashboard/utils/dashboardUtils.js:78-87 | partner nodes get the primary colour, staff nodes the secondary |
| DashboardUtils.EnhanceLocalNetworkData | src/components/Dashboard/utils/dashboardUtils.js:74-90 | the links are kept, and every node is kept with its type's colour added; a missing graph gives the empty graph |
| DashboardUtils.FindDirectorate | src/components/Dashboard/utils/dashboardUtils.js:354 | returns a listed directorate with that id, or None iff none has it |
| DashboardUtils.FilterPartners | src/components/Dashboard/utils/dashboardUtils.js:279-363 | `filterPartners`: the partners that pass the type, status, region, year, SDG and directorate filters, [] for a missing list; stated by DashboardUtils.FilterPartnersSubsequence, FilterPartnersMembers and FilterPartnersUnfiltered |
| DashboardUtils.FilterPartnersSubsequence | src/components/Dashboard/utils/dashboardUtils.js:279-363 | the result is a subsequence of the input; a missing list gives [] |
| DashboardUtils.FilterPartnersMembers | src/components/Dashboard/utils/dashboardUtils.js:279-363 | a partner is kept iff it is in the input and passes every selected filter |
| DashboardUtils.FilterPartnersUnfiltered | src/components/Dashboard/utils/dashboardUtils.js:282-362 | with no filter object, or every selection "all", every partner is kept |
| DashboardUtils.UnlistedDirectorate | src/components/Dashboard/utils/dashboardUtils.js:350-359 | a directorate selection that is not listed filters exactly as "all" |
| DashboardUtils.UndatedAgreementPassesYear | src/components/Dashboard/utils/dashboardUtils.js:327-335 | an agreement with neither date passes any year selection |
| DashboardUtils.NaNYearActivity | src/components/Dashboard/utils/dashboardUtils.js:301-336 | with a NaN year, only undated agreements and projects without dates count as active |
| DashboardUtils.NaNYearFilter | src/components/Dashboard/utils/dashboardUtils.js:301-341 | a year selection without digits tests activity in the NaN year |
| DashboardUtils.ContributionYearExact | src/components/Dashboard/utils/dashboardUtils.js:319-323 | a dated contribution passes exactly the year it is dated in |
| NetworkVisualization.FindCluster | src/components/Dashboard/NetworkVisualization/NetworkVisualization.js:111 | returns a cluster with that id, or None iff no cluster has it |
| NetworkVisualization.CatalogLookup | src/components/Dashboard/NetworkVisualization/NetworkVisualization.js:20-38 | exactly the five lower-case ids name a cluster, each with its listed colour |
| NetworkVisualization.AnchorBound | src/components/Dashboard/NetworkVisualization/NetworkVisualization.js:34-38 | an anchor coordinate lies within the radius of the centre when the trig factor is in [-1, 1] |
| NetworkVisualization.AnchorsInBox | src/components/Dashboard/NetworkVisualization/NetworkVisualization.js:29-38 | every anchor lies in the box of side 2·radius (35% of the smaller side) around the centre |
| NetworkVisualization.ContactStaff | src/components/Dashboard/NetworkVisualization/NetworkVisualization.js:83-86 | finds the contact in the directory when it has a directorate; None iff there is no contact or it is not listed |
| NetworkVisualization.SectorTest | src/components/Dashboard/NetworkVisualization/NetworkVisualization.js:95-104 | names the test of the sector chain that yields cluster i |
| NetworkVisualization.SectorLookup | src/components/Dashboard/NetworkVisualization/NetworkVisualization.js:93-108 | the first matching test wins; no match gives 'glo' |
| NetworkVisualization.ClusterNamesDistinct | src/components/Dashboard/NetworkVisualization/NetworkVisualization.js:20-26 | the five cluster names differ |
| NetworkVisualization.SectorClusterByName | src/components/Dashboard/NetworkVisualization/NetworkVisualization.js:93-108 | a sector spelled as a cluster's name maps to that cluster; any other gives 'glo'; always a cluster id |
| NetworkVisualization.AssignNode | src/components/Dashboard/NetworkVisualization/NetworkVisualization.js:77-120 | one node of the assignment pass: a partner gets its contact's directorate, else its sector's cluster, else 'glo', and staff are left alone; stated by NetworkVisualization.AssignPriority, ContactAssignedHasNoCluster and SectorAssignedJoinsCluster, and applied by AssignUnits |
| NetworkVisualization.AssignUnits | src/components/Dashboard/NetworkVisualization/NetworkVisualization.js:77-120 | the in-place pass sets every node to its assigned form and leaves non-partner nodes unchanged |
| NetworkVisualization.StaffDirectoratesListed | src/data/unidoStaff.js:7-305 | every staff member's directorate is one of eight codes |
| NetworkVisualization.StaffDirectoratesUpper | src/data/unidoStaff.js:7-305 | those codes all start with an upper-case letter |
| NetworkVisualization.AssignPriority | src/components/Dashboard/NetworkVisualization/NetworkVisualization.js:79-108 | the unit is the found contact's directorate, else the sector's cluster, else 'glo'; never empty |
| NetworkVisualization.ContactAssignedHasNoCluster | src/components/Dashboard/NetworkVisualization/NetworkVisualization.js:85-118 | a partner assigned through a listed contact gets an upper-case code, no cluster, and keeps its position |
| NetworkVisualization.SectorAssignedJoinsCluster | src/components/Dashboard/NetworkVisualization/NetworkVisualization.js:93-118 | a partner assigned by sector joins a cluster and starts within 50 of its anchor |
| NetworkVisualization.StaffUnit | src/components/Dashboard/NetworkVisualization/NetworkVisualization.js:320 | the unit of a staff node is its directorate lower-cased, with the same length |
| NetworkVisualization.DrawnNode | src/components/Dashboard/NetworkVisualization/NetworkVisualization.js:315-360 | one node as drawn: its unit and unit colour (the fill of a staff circle, the stroke of a partner rectangle; the rectangle's fill, from the type colours, is not modelled); stated by NetworkVisualization.StaffColor and StaffClusterExamples, and applied by DrawNodes |
| NetworkVisualization.DrawNodes | src/components/Dashboard/NetworkVisualization/NetworkVisualization.js:315-360 | the drawing pass sets each node's unit and colour, element by element |
| NetworkVisualization.StaffColor | src/components/Dashboard/NetworkVisualization/NetworkVisualization.js:318-338 | a staff node gets a cluster's colour exactly when its lower-cased directorate names a cluster, else grey |
| NetworkVisualization.StaffClusterExamples | src/components/Dashboard/NetworkVisualization/NetworkVisualization.js:318-338 | "SPP" staff join 'spp'; "DG" staff match no cluster, as their code lower-cases to 'dg', not 'odg' |
| NetworkVisualization.Pulled | src/components/Dashboard/NetworkVisualization/NetworkVisualization.js:223-230 | one node under the cluster force; stated by NetworkVisualization.PullFacts and PullTowardsAnchor, and applied by UnitForce |
| NetworkVisualization.UnitForce | src/components/Dashboard/NetworkVisualization/NetworkVisualization.js:221-231 | one application of the force updates every node to its pulled form, in place; the view never applies it |
| NetworkVisualization.PullFacts | src/components/Dashboard/NetworkVisualization/NetworkVisualization.js:221-231 | the force moves no position and leaves nodes without a cluster unchanged; it adds (anchor − pos)·alpha·0.2 to the velocity |
| NetworkVisualization.PullTowardsAnchor | src/components/Dashboard/NetworkVisualization/NetworkVisualization.js:226-228 | with positive alpha, the velocity change points towards the anchor on each axis |
| NetworkVisualization.NodeSize | src/components/Dashboard/NetworkVisualization/NetworkVisualization.js:547-581 | staff: 8 without a division, 6 with one; every size within [6, 22] |
| NetworkVisualization.BaseSize | src/components/Dashboard/NetworkVisualization/NetworkVisualization.js:561-576 | a partner without positive contributions or projects has size 6 |
| NetworkVisualization.SizeUnclamped | src/components/Dashboard/NetworkVisualization/NetworkVisualization.js:561-580 | within the bounds, a partner's size is the unclamped sum |
| NetworkVisualization.BuiltLinksDefaultStyle | src/components/Dashboard/NetworkVisualization/NetworkVisualization.js:256-273 | links of kind "contact" or "partner-partner" get the default grey at opacity 0.5 |
| NetworkVisualization.Connected | src/components/Dashboard/NetworkVisualization/NetworkVisualization.js:451-458 | the neighbours of the selected node; characterised by NetworkVisualization.ConnectedIff and built by ConnectedNodeIds |
| NetworkVisualization.ConnectedSnoc | src/components/Dashboard/NetworkVisualization/NetworkVisualization.js:451-458 | one more link adds exactly its far end to the neighbour set |
| NetworkVisualization.ConnectedNodeIds | src/components/Dashboard/NetworkVisualization/NetworkVisualization.js:451-458 | the loop builds exactly the neighbour set |
| NetworkVisualization.ConnectedIff | src/components/Dashboard/NetworkVisualization/NetworkVisualization.js:451-458 | x is a neighbour iff some link joins it to the selection, in either direction |
| NetworkVisualization.UnitNodeIds | src/components/Dashboard/NetworkVisualization/NetworkVisualization.js:621-627 | the loop collects exactly the ids of nodes in the unit |
| NetworkVisualization.UnitLinkIds | src/components/Dashboard/NetworkVisualization/NetworkVisualization.js:629-635 | the loop collects exactly the links with both ends in the unit |
| NetworkVisualization.NodeHighlightTable | src/components/Dashboard/NetworkVisualization/NetworkVisualization.js:460-495 | a node is opaque iff it is the selection or a link joins it to the selection, else at 0.3; a link is opaque iff it touches the selection, else at 0.1 |
| NetworkVisualization.UnitHighlightTable | src/components/Dashboard/NetworkVisualization/NetworkVisualization.js:636-646 | exactly the unit's nodes are opaque, and exactly its internal links are emphasised |
| NetworkVisualization.Strength | src/components/Dashboard/NetworkVisualization/NetworkVisualization.js:661-756 | the strength of the x/y position forces under the default, node and unit focus; ordered by NetworkVisualization.NodeForcesOrder and UnitForcesOrder |
| NetworkVisualization.Charge | src/components/Dashboard/NetworkVisualization/NetworkVisualization.js:661-756 | the many-body charge under each focus; ordered by NetworkVisualization.NodeForcesOrder and UnitForcesOrder |
| NetworkVisualization.TargetX | src/components/Dashboard/NetworkVisualization/NetworkVisualization.js:661-756 | the x target of the position force: the unit's anchor for its members under unit focus, else the centre; stated by NetworkVisualization.UnitForcesOrder |
| NetworkVisualization.Spread | src/components/Dashboard/NetworkVisualization/NetworkVisualization.js:661-756 | the width of the random spread around the target; ordered by NetworkVisualization.NodeForcesOrder and UnitForcesOrder |
| NetworkVisualization.NodeForcesOrder | src/components/Dashboard/NetworkVisualization/NetworkVisualization.js:714-756 | the selected node is pulled hardest, repels most and spreads least; its neighbours come next; every other node comes last |
| NetworkVisualization.UnitForcesOrder | src/components/Dashboard/NetworkVisualization/NetworkVisualization.js:661-698 | under unit focus members target the anchor and are pulled harder, repel more and spread less than other nodes, which target the centre; the default forces are the same for every node |
| NetworkVisualization.NetworkView.constructor | src/components/Dashboard/NetworkVisualization/NetworkVisualization.js:15-41 | nothing selected, default forces, plain visuals; whether the parent passed `onNodeClick` is recorded |
| NetworkVisualization.NetworkView.ClickNode | src/components/Dashboard/NetworkVisualization/NetworkVisualization.js:292-312 | the same node again deselects, any other selects it; the click is reported only when a handler was passed; selectedUnit is unchanged; forces and visuals follow the selection |
| NetworkVisualization.NetworkView.ClickUnit | src/components/Dashboard/NetworkVisualization/NetworkVisualization.js:584-688 | toggles the unit as the click handlers of lines 182-218 do, and clears the node selection; then `updateVisualsForSelectedUnit` either restores the default forces with alpha 0.3 (lines 612-615) or highlights the unit and applies the unit focus with alpha 0.5 (lines 661-686) |
| NetworkVisualization.NetworkView.ClickBackground | src/components/Dashboard/NetworkVisualization/NetworkVisualization.js:137-146 | clears both selections and ends with default forces, plain visuals and alpha 0.3 |
| NetworkVisualization.NetworkView.DragStarted | src/components/Dashboard/NetworkVisualization/NetworkVisualization.js:529-533 | pins the node at its position; the first active drag heats the simulation to 0.3 |
| NetworkVisualization.NetworkView.Dragged | src/components/Dashboard/NetworkVisualization/NetworkVisualization.js:535-538 | moves the pin to the pointer; other nodes are unchanged |
| NetworkVisualization.NetworkView.DragEnded | src/components/Dashboard/NetworkVisualization/NetworkVisualization.js:540-544 | releases the pin and, with no active drag, cools the target to 0 |
| UnidoOrganization.SameNamed | src/data/unidoOrganization.js:48-180 | one division per id, named by its id |
| UnidoOrganization.Tagged | src/data/unidoOrganization.js:188-196 | one flat entry per division of the directorate |
| UnidoOrganization.GetAllDivisions | src/data/unidoOrganization.js:184-200 | the nested loops yield every division tagged with its directorate, directorate by directorate |
| UnidoOrganization.FlatDivisionsIndex | src/data/unidoOrganization.js:184-200 | division j of directorate i sits at the number of earlier divisions plus j, tagged with directorate i |
| UnidoOrganization.FlatDivisionsLength | src/data/unidoOrganization.js:184-200 | one entry per division of the chart |
| UnidoOrganization.OfficeUnits | src/data/unidoOrganization.js:213-218 | one unit per office, with the DG as parent |
| UnidoOrganization.DirectorateUnits | src/data/unidoOrganization.js:221-226 | one unit per directorate, with the DG as parent |
| UnidoOrganization.DivisionUnitsOf | src/data/unidoOrganization.js:232-239 | one unit per division, with its directorate as parent |
| UnidoOrganization.GetAllUnits | src/data/unidoOrganization.js:203-245 | the header entries followed by the loop's division units |
| UnidoOrganization.DivisionUnitsMatchDivisions | src/data/unidoOrganization.js:184-245 | the division units are the flat divisions, with the directorate id as parent |
| UnidoOrganization.UnitsShape | src/data/unidoOrganization.js:204-242 | the DG comes first with no parent, then the offices and directorates under the DG; length is 1 + offices + directorates + divisions |
| UnidoOrganization.DivisionUnitAt | src/data/unidoOrganization.js:231-242 | each division unit sits at its computed position with its directorate as parent |
| UnidoOrganization.SecondaryUnits | src/data/unidoOrganization.js:343-351 | in focus-area order, exactly the mapped areas whose unit differs from the primary |
| UnidoOrganization.FallbackUnit | src/data/unidoOrganization.js:330-340 | the sector's unit, else the type's unit, else SPP/SPP-IPS |
| UnidoOrganization.CollectSecondary | src/data/unidoOrganization.js:343-351 | the loop builds exactly the secondary units |
| UnidoOrganization.ContactUnit | src/data/unidoOrganization.js:311-328 | the contact's directorate and division when `getStaffById` finds the contact and it has a directorate, else nothing; stated by UnidoOrganization.MapPartnerToUnidoUnits |
| UnidoOrganization.MapPartnerToUnidoUnits | src/data/unidoOrganization.js:299-354 | a listed contact with a directorate returns early with no secondary units; otherwise fallback primary plus secondary units; the primary always names a directorate |
| UnidoOrganization.UnitTableHasDirectorates | src/data/unidoOrganization.js:249-293 | every unit in the mapping table names a directorate |
| UnidoOrganization.UnidoSizes | src/data/unidoOrganization.js:6-181 | the chart has 104 divisions and 114 units |
| UnidoStaff.FindStaff | src/data/unidoStaff.js:374-376 | the first record with that id, or None iff no record has it |
| UnidoStaff.FindOwnId | src/data/unidoStaff.js:374-376 | with distinct ids, looking up a member's id finds that member |
| UnidoStaff.IncreasingCodesDistinct | src/data/unidoStaff.js:7-305 | ids whose numeric codes increase along the table are distinct |
| UnidoStaff.StaffIdsDistinct | src/data/unidoStaff.js:7-305 | no staff id occurs twice |
| UnidoStaff.GetStaffById | src/data/unidoStaff.js:374-376 | `getStaffById`: the first directory entry with the id; stated by UnidoStaff.FindStaff and GetStaffByOwnId |
| UnidoStaff.GetStaffByOwnId | src/data/unidoStaff.js:374-376 | getStaffById of each member's id returns that member of the directory (lines 7-305) |
| UnidoStaff.FindAppropriateContact | src/data/unidoStaff.js:354-367 | sector mapping first, then type mapping, then "staff_202"; always a mapping value or the default |
| UnidoStaff.ContactTableValues | src/data/unidoStaff.js:311-350 | every value of the contact table is one of fourteen staff ids |
| UnidoStaff.ContactIdsAListed | src/data/unidoStaff.js:7-305 | the first half of those ids are all in the directory |
| UnidoStaff.ContactIdsBListed | src/data/unidoStaff.js:7-305 | the second half are all in the directory |
| UnidoStaff.ContactIsListed | src/data/unidoStaff.js:311-376 | every recommended contact is a member of the directory |
| NetworkUtils.InferPartnerRoles | src/components/Dashboard/NetworkVisualization/networkUtils.js:59-82 | roles are distinct names from the role set |
| NetworkUtils.RoleTable | src/components/Dashboard/NetworkVisualization/networkUtils.js:59-82 | the per-type roles; Private Sector has Financing iff contributions > 100000; an unlisted type has none |
| NetworkUtils.ConnectionStrength | src/components/Dashboard/NetworkVisualization/networkUtils.js:90-104 | at most 6, and at least 1 when the log factor is non-negative |
| NetworkUtils.ConnectionStrengthBase | src/components/Dashboard/NetworkVisualization/networkUtils.js:90-104 | without contributions the strength is in [1, 3], and exactly 1 without projects |
| NetworkUtils.LinkStrength | src/components/Dashboard/NetworkVisualization/networkUtils.js:113-139 | 1 when an endpoint is missing, else within [1, 3.3] |
| NetworkUtils.FindNode | src/components/Dashboard/NetworkVisualization/networkUtils.js:38-39 | returns a node with that id, or None iff no node has it |
| NetworkUtils.EnhanceNode | src/components/Dashboard/NetworkVisualization/networkUtils.js:21-33 | a node with its inferred roles and connection strength; stated by NetworkUtils.EnhancePreserves, InferPartnerRoles and ConnectionStrength |
| NetworkUtils.EnhanceNetworkData | src/components/Dashboard/NetworkVisualization/networkUtils.js:12-15 | a missing graph, node list or link list gives the empty graph |
| NetworkUtils.EnhancePreserves | src/components/Dashboard/NetworkVisualization/networkUtils.js:12-51 | node and link counts, order and base records are kept; every node gets its roles |
| NetworkUtils.FindOwnNode | src/components/Dashboard/NetworkVisualization/networkUtils.js:38-39 | with distinct ids, the lookup finds the node itself |
| NetworkUtils.StaffLinkStrength | src/components/Dashboard/NetworkVisualization/networkUtils.js:113-139 | a link from a partner with a region into a staff node has strength 1 |
| NetworkUtils.StaffLinkWithoutRegion | src/components/Dashboard/NetworkVisualization/networkUtils.js:113-139 | a link from a partner without a region into a staff node has strength 1.5, the two missing regions being equal |
| NetworkUtils.CheckRoleComplementarity | src/components/Dashboard/NetworkVisualization/networkUtils.js:226-244 | `checkRoleComplementarity`: some listed pair of roles is split between the two nodes, in either order; stated by NetworkUtils.ComplementaritySymmetric and ComplementarityExamples |
| NetworkUtils.ComplementaritySymmetric | src/components/Dashboard/NetworkVisualization/networkUtils.js:226-244 | the test is symmetric and false when either node lacks roles |
| NetworkUtils.ComplementarityExamples | src/components/Dashboard/NetworkVisualization/networkUtils.js:229-243 | a financing and an implementing partner complement; two identical role lists do not |
| NetworkUtils.FindPartnershipOpportunities | src/components/Dashboard/NetworkVisualization/networkUtils.js:186-217 | the nested loops yield the first ten pairs of the two passes |
| NetworkUtils.PairsWithMembers | src/components/Dashboard/NetworkVisualization/networkUtils.js:192-212 | a pair appears iff it is an unlinked, complementary, non-self pair with the first node |
| NetworkUtils.AllPairsMembers | src/components/Dashboard/NetworkVisualization/networkUtils.js:191-213 | a pair appears iff two nodes of the lists form an opportunity |
| NetworkUtils.OpportunitiesFacts | src/components/Dashboard/NetworkVisualization/networkUtils.js:186-217 | at most 10 pairs; each joins two different complementary nodes not linked either way |
| NetworkUtils.Degree | src/components/Dashboard/NetworkVisualization/networkUtils.js:255-257 | a degree is at most the number of links |
| NetworkUtils.DegreeCounts | src/components/Dashboard/NetworkVisualization/networkUtils.js:255-257 | the degree is the number of links having the node as source or target |
| NetworkUtils.IdentifyKeyConnectors | src/components/Dashboard/NetworkVisualization/networkUtils.js:252-270 | `identifyKeyConnectors`: the five nodes of highest degree, stable on ties; stated by NetworkUtils.KeyConnectorsFacts and DegreeCounts |
| NetworkUtils.KeyConnectorsFacts | src/components/Dashboard/NetworkVisualization/networkUtils.js:252-270 | at most 5 entries by non-increasing degree, each a node's true degree; a node left out has no higher degree than the last shown |
| NetworkUtils.CalculateNetworkDensity | src/components/Dashboard/NetworkVisualization/networkUtils.js:174-178 | defined iff there are at least 2 nodes; then density · n(n−1)/2 = number of links |
| NetworkUtils.DensityBounds | src/components/Dashboard/NetworkVisualization/networkUtils.js:174-178 | the density is 0 without links, non-negative, and at most 1 with at most one link per pair |
| NetworkUtils.AnalyzeNetwork | src/components/Dashboard/NetworkVisualization/networkUtils.js:147-166 | {} iff the graph or an array is missing; otherwise density, opportunities and connectors |
| OrganizationalHierarchy.KeyIndex | src/components/Dashboard/OrganizationalHierarchy/OrganizationalHierarchy.js:101 | the position stored under a key, or None iff the key is absent |
| OrganizationalHierarchy.FindBucket | src/components/Dashboard/OrganizationalHierarchy/OrganizationalHierarchy.js:73 | the first division bucket with that id, or None iff there is none |
| OrganizationalHierarchy.FindDivision | src/components/Dashboard/OrganizationalHierarchy/OrganizationalHierarchy.js:71-77 | the first division with that id across the directorates in key order, or None iff there is none |
| OrganizationalHierarchy.OrganizationData | src/components/Dashboard/OrganizationalHierarchy/OrganizationalHierarchy.js:49-133 | the two loops yield the placement of all partners into the initial buckets |
| OrganizationalHierarchy.AddTo | src/components/Dashboard/OrganizationalHierarchy/OrganizationalHierarchy.js:88-97 | a push onto one division bucket; stated by OrganizationalHierarchy.AddToFacts and AddToOneVirtual |
| OrganizationalHierarchy.AddToVirtual | src/components/Dashboard/OrganizationalHierarchy/OrganizationalHierarchy.js:104-126 | a push onto the directorate's own bucket, created once when missing; stated by OrganizationalHierarchy.AddToVirtualFacts, AddToVirtualOneVirtual and PlaceIntoBare |
| OrganizationalHierarchy.Place | src/components/Dashboard/OrganizationalHierarchy/OrganizationalHierarchy.js:80-130 | one partner of the `forEach`; stated by OrganizationalHierarchy.PlaceNowhere, PlaceByDivision, PlaceByDirectorate, PlaceKeepsKeys and PlaceOneVirtual |
| OrganizationalHierarchy.PlaceAll | src/components/Dashboard/OrganizationalHierarchy/OrganizationalHierarchy.js:80-130 | the `forEach` over all partners; stated by OrganizationalHierarchy.PlaceAllFacts and computed in place by OrganizationData |
| OrganizationalHierarchy.AddToFacts | src/components/Dashboard/OrganizationalHierarchy/OrganizationalHierarchy.js:88-97 | a push adds the entry to one bucket only: keys and every other bucket unchanged, total +1 |
| OrganizationalHierarchy.AddToVirtualFacts | src/components/Dashboard/OrganizationalHierarchy/OrganizationalHierarchy.js:104-126 | a push goes into the directorate's own `_DIR` bucket, which is created only when missing; total +1 |
| OrganizationalHierarchy.PlaceNowhere | src/components/Dashboard/OrganizationalHierarchy/OrganizationalHierarchy.js:80-84 | no contact, or a contact not in the directory, places nothing |
| OrganizationalHierarchy.PlaceByDivision | src/components/Dashboard/OrganizationalHierarchy/OrganizationalHierarchy.js:85-98 | a contact with a division places the partner into the first matching division, or nowhere |
| OrganizationalHierarchy.PlaceByDirectorate | src/components/Dashboard/OrganizationalHierarchy/OrganizationalHierarchy.js:99-126 | a directorate-only contact places the partner into that directorate's own bucket, or nowhere when the key is absent |
| OrganizationalHierarchy.PlaceKeepsKeys | src/components/Dashboard/OrganizationalHierarchy/OrganizationalHierarchy.js:80-130 | a placement keeps the keys and adds 0 or 1 to the total |
| OrganizationalHierarchy.AddToOneVirtual | src/components/Dashboard/OrganizationalHierarchy/OrganizationalHierarchy.js:88-97 | a push keeps at most one own bucket per directorate |
| OrganizationalHierarchy.AddToVirtualOneVirtual | src/components/Dashboard/OrganizationalHierarchy/OrganizationalHierarchy.js:104-126 | creating the own bucket lazily keeps at most one per directorate |
| OrganizationalHierarchy.PlaceOneVirtual | src/components/Dashboard/OrganizationalHierarchy/OrganizationalHierarchy.js:80-130 | one placement keeps at most one own bucket per directorate |
| OrganizationalHierarchy.PlaceAllFacts | src/components/Dashboard/OrganizationalHierarchy/OrganizationalHierarchy.js:80-130 | the partner pass keeps the keys, keeps at most one own bucket per directorate, and places each partner at most once |
| OrganizationalHierarchy.CountDirectoratePartners | src/components/Dashboard/OrganizationalHierarchy/OrganizationalHierarchy.js:152-155 | `countDirectoratePartners`: the sum of the bucket sizes; stated by OrganizationalHierarchy.ZeroBuckets, AllEmptyTotal and AddToFacts (one push adds one) |
| OrganizationalHierarchy.ZeroBuckets | src/components/Dashboard/OrganizationalHierarchy/OrganizationalHierarchy.js:152-155 | empty buckets sum to 0 |
| OrganizationalHierarchy.AllEmptyTotal | src/components/Dashboard/OrganizationalHierarchy/OrganizationalHierarchy.js:152-155 | all-empty directorates hold no partner |
| OrganizationalHierarchy.InitializedEmpty | src/components/Dashboard/OrganizationalHierarchy/OrganizationalHierarchy.js:53-61 | the first pass leaves every bucket empty |
| OrganizationalHierarchy.InitializedKeys | src/components/Dashboard/OrganizationalHierarchy/OrganizationalHierarchy.js:53-61 | with distinct ids, one key per directorate, in chart order |
| OrganizationalHierarchy.InitialResultKeys | src/components/Dashboard/OrganizationalHierarchy/OrganizationalHierarchy.js:53-68 | one key per directorate plus 'DG', every bucket empty |
| OrganizationalHierarchy.UnidoInitial | src/components/Dashboard/OrganizationalHierarchy/OrganizationalHierarchy.js:53-68 | for the UNIDO chart: five keys, 'DG' last, nothing placed |
| OrganizationalHierarchy.DGIsLastKey | src/components/Dashboard/OrganizationalHierarchy/OrganizationalHierarchy.js:63-68 | 'DG' is the last key |
| OrganizationalHierarchy.DirectorGeneralContact | src/components/Dashboard/OrganizationalHierarchy/OrganizationalHierarchy.js:99-126 | a DG-office contact puts the partner into a new "DG_DIR" bucket of the DG office |
| OrganizationalHierarchy.PlaceIntoBare | src/components/Dashboard/OrganizationalHierarchy/OrganizationalHierarchy.js:104-122 | into a directorate without buckets, the own bucket becomes its only one |
| OrganizationalHierarchy.UnlistedDirectorateDropped | src/components/Dashboard/OrganizationalHierarchy/OrganizationalHierarchy.js:100-104 | a contact in a directorate that is not a key places nothing |
| OrganizationalHierarchy.Toggled | src/components/Dashboard/OrganizationalHierarchy/OrganizationalHierarchy.js:136-149 | flips the read value of one key; every other key keeps its value and presence |
| OrganizationalHierarchy.ToggleTwice | src/components/Dashboard/OrganizationalHierarchy/OrganizationalHierarchy.js:136-149 | toggling twice restores what every key reads as |
| OrganizationalHierarchy.HierarchyView.constructor | src/components/Dashboard/OrganizationalHierarchy/OrganizationalHierarchy.js:45-46 | both expansion maps start empty |
| OrganizationalHierarchy.HierarchyView.ToggleDirectorate | src/components/Dashboard/OrganizationalHierarchy/OrganizationalHierarchy.js:136-141 | toggles the directorate map only |
| OrganizationalHierarchy.HierarchyView.ToggleDivision | src/components/Dashboard/OrganizationalHierarchy/OrganizationalHierarchy.js:144-149 | toggles the division map only |
| DataContext.MaxId | src/contexts/DataContext.js:30 | the largest id, attained by some partner |
| DataContext.NextId | src/contexts/DataContext.js:30-31 | exceeds every id; 1 for an empty list |
| DataContext.Added | src/contexts/DataContext.js:29-34 | the old list kept as a prefix, plus the new partner with a fresh id |
| DataContext.Updated | src/contexts/DataContext.js:36-38 | same length and order; matching ids replaced, every other entry unchanged |
| DataContext.Imported | src/contexts/DataContext.js:44-51 | same length as the input; a truthy id kept, else length + index + 1 |
| DataContext.PartnerStore.constructor | src/contexts/DataContext.js:9-20 | the store starts with the given list |
| DataContext.PartnerStore.AddPartner | src/contexts/DataContext.js:29-34 | the list becomes the added list |
| DataContext.PartnerStore.UpdatePartner | src/contexts/DataContext.js:36-38 | the list becomes the updated list |
| DataContext.PartnerStore.DeletePartner | src/contexts/DataContext.js:40-42 | the list becomes the list without that id |
| DataContext.PartnerStore.ImportPartners | src/contexts/DataContext.js:44-51 | the list becomes the imported list |
| DataContext.UpdateFacts | src/contexts/DataContext.js:36-38 | ids are unchanged; an unknown id changes nothing; a repeated update is idempotent |
| DataContext.Deleted | src/contexts/DataContext.js:40-42 | the `filter` of `deletePartner`; stated by DataContext.DeleteFacts, CountComplement and DeleteUndoesAdd |
| DataContext.DeleteFacts | src/contexts/DataContext.js:40-42 | a subsequence holding exactly the partners with another id; length drops by the number removed; an unknown id changes nothing |
| DataContext.CountComplement | src/contexts/DataContext.js:40-42 | kept plus removed is the whole list |
| DataContext.DeleteUndoesAdd | src/contexts/DataContext.js:29-42 | deleting the id just given to an added partner restores the list |
| DataContext.ImportFacts | src/contexts/DataContext.js:44-51 | truthy ids kept; generated ids exceed the old length and are distinct; all-truthy input is kept as is |
| PartnerList.Page | src/components/Partners/PartnerList.js:111-112 | the contiguous slice from page·n, with at most n rows, clamped at the end |
| PartnerList.Mentions | src/components/Partners/PartnerList.js:79-82 | `field.toLowerCase().includes(term.toLowerCase())`; stated by PartnerList.SearchIgnoresCase |
| PartnerList.MatchesSearch | src/components/Partners/PartnerList.js:79-84 | the search term is in the name, country, sector or type, or in a present description; stated by PartnerList.EmptySearchMatches and SearchIgnoresCase |
| PartnerList.Matches | src/components/Partners/PartnerList.js:77-108 | the search and every selection and date bound pass; stated by PartnerList.SelectionFacts and FilteredFacts |
| PartnerList.Filtered | src/components/Partners/PartnerList.js:77-109 | the partners that match, in order; stated by PartnerList.FilteredFacts and ClearedListsAll |
| PartnerList.LowerIdempotent | src/components/Partners/PartnerList.js:79-84 | lower-casing twice is lower-casing once |
| PartnerList.SearchIgnoresCase | src/components/Partners/PartnerList.js:79-84 | the search ignores the case of the term |
| PartnerList.EmptySearchMatches | src/components/Partners/PartnerList.js:79-84 | an empty term matches every partner |
| PartnerList.SelectionFacts | src/components/Partners/PartnerList.js:87-100 | an empty selection passes all; otherwise membership decides, and a missing region is in no selection; the SDG test passes iff some selected SDG is aligned |
| PartnerList.FilteredFacts | src/components/Partners/PartnerList.js:77-109 | a subsequence holding exactly the matching partners |
| PartnerList.ClearedListsAll | src/components/Partners/PartnerList.js:68-109 | with cleared filters and no search term, every partner is listed |
| PartnerList.PagesCover | src/components/Partners/PartnerList.js:111-112 | row k is row k mod n of page k div n |
| PartnerList.SelectionOf | src/components/Partners/PartnerList.js:63-66 | picked items are kept; typed text is split at commas, and the pieces join back to the text |
| PartnerList.PartnerListView.constructor | src/components/Partners/PartnerList.js:31-43 | page 0, 10 rows, empty search and selections, panel closed |
| PartnerList.PartnerListView.ChangePage | src/components/Partners/PartnerList.js:45-47 | sets the page only |
| PartnerList.PartnerListView.ChangeRowsPerPage | src/components/Partners/PartnerList.js:49-52 | sets the rows per page and resets the page to 0 |
| PartnerList.PartnerListView.Search | src/components/Partners/PartnerList.js:54-57 | sets the term and resets the page to 0 |
| PartnerList.PartnerListView.ToggleFilterPanel | src/components/Partners/PartnerList.js:59-61 | flips the panel only |
| PartnerList.PartnerListView.SelectRegions | src/components/Partners/PartnerList.js:63-66 | sets the region selection only |
| PartnerList.PartnerListView.SelectSectors | src/components/Partners/PartnerList.js:63-66 | sets the sector selection only |
| PartnerList.PartnerListView.SelectTypes | src/components/Partners/PartnerList.js:63-66 | sets the type selection only |
| PartnerList.PartnerListView.SelectStatuses | src/components/Partners/PartnerList.js:63-66 | sets the status selection only |
| PartnerList.PartnerListView.SelectSdgs | src/components/Partners/PartnerList.js:63-66 | sets the SDG selection only |
| PartnerList.PartnerListView.ChangeDates | src/components/Partners/PartnerList.js:40-43 | sets the date range only |
| PartnerList.PartnerListView.ClearFilters | src/components/Partners/PartnerList.js:68-75 | empties every selection and the date range; keeps the term, page and panel |
| PartnerDetail.FindById | src/components/Partners/PartnerDetail.js:61 | the first partner with that id, or None iff there is none |
| PartnerDetail.FindPartner | src/components/Partners/PartnerDetail.js:61-73 | a parameter `parseInt` reads as NaN finds nothing; otherwise the lookup by the id `parseInt` reads, decimal or `0x` hexadecimal |
| PartnerDetail.HexRouteFinds | src/components/Partners/PartnerDetail.js:61-63 | a route parameter `0x` followed by hexadecimal digits finds the partner whose id is their hexadecimal value |
| PartnerDetail.FindAfterUpdate | src/components/Partners/PartnerDetail.js:61-88 | after a same-id update the page finds the new record |
| PartnerDetail.FindFirst | src/components/Partners/PartnerDetail.js:61 | the first index with the id is what the lookup returns |
| PartnerDetail.SaveUnchanged | src/components/Partners/PartnerDetail.js:79-88 | with distinct ids, saving an unchanged copy keeps the store |
| PartnerDetail.WithField | src/components/Partners/PartnerDetail.js:90-95 | only the named field changes |
| PartnerDetail.EditUndo | src/components/Partners/PartnerDetail.js:90-95 | writing the shown value back undoes an edit, except that a missing region comes back empty; every field then shows what it showed before; a second edit overrides the first |
| PartnerDetail.WithActivity | src/components/Partners/PartnerDetail.js:103-114 | earlier engagements kept as a prefix; the new one is last with id length + 1; nothing else changes |
| PartnerDetail.PartnerDetailView.constructor | src/components/Partners/PartnerDetail.js:50-62 | first tab, not editing, the copy is the found partner, blank meeting form |
| PartnerDetail.PartnerDetailView.EditToggle | src/components/Partners/PartnerDetail.js:79-88 | leaving edit mode commits the copy; entering it copies the current partner |
| PartnerDetail.PartnerDetailView.Cancel | src/components/Partners/PartnerDetail.js:165 | leaves edit mode without committing |
| PartnerDetail.PartnerDetailView.EditChange | src/components/Partners/PartnerDetail.js:90-95 | changes one field of the copy |
| PartnerDetail.PartnerDetailView.OpenActivityDialog | src/components/Partners/PartnerDetail.js:408 | opens the dialog only |
| PartnerDetail.PartnerDetailView.EditActivity | src/components/Partners/PartnerDetail.js:710-739 | replaces the form only |
| PartnerDetail.PartnerDetailView.SubmitActivity | src/components/Partners/PartnerDetail.js:103-121 | the store and page get the partner with the new engagement appended; the dialog closes; the form resets to a blank meeting |
| PartnerDetail.PartnerDetailView.AskDelete | src/components/Partners/PartnerDetail.js:97-101 | opens the confirmation only |
| PartnerDetail.PartnerDetailView.CancelDelete | src/components/Partners/PartnerDetail.js:678-690 | the confirmation closes and nothing else changes |
| PartnerDetail.PartnerDetailView.CloseActivityDialog | src/components/Partners/PartnerDetail.js:695-746 | the activity dialog closes, the typed form is kept, and nothing else changes |
| PartnerDetail.PartnerDetailView.DeleteConfirm | src/components/Partners/PartnerDetail.js:97-101 | removes that id from the store; the partner is no longer found |
| Dashboard.DashboardMetrics | src/components/Dashboard/Dashboard.js:19-70 | the `useMemo` metrics; stated by Dashboard.StatusCountsFacts, DistributionsFacts, TopSdgsFacts and RecentActivitiesFacts |
| Dashboard.StatusDisjoint | src/components/Dashboard/Dashboard.js:20-23 | two different statuses together count the partners having either |
| Dashboard.DisjointBound | src/components/Dashboard/Dashboard.js:20-23 | two disjoint tests count no more than the partners |
| Dashboard.StatusCountsFacts | src/components/Dashboard/Dashboard.js:20-23 | each status figure counts exactly that status; the four add up to at most the total of line 74 |
| Dashboard.RegionKey | src/components/Dashboard/Dashboard.js:34 | a present region is its own key; a missing one is the key "undefined" |
| Dashboard.EntriesAreTally | src/components/Dashboard/Dashboard.js:25-44 | the entries `Object.entries` lists for a count object have distinct keys, the right counts, and a sum equal to the number of values counted |
| Dashboard.DistributionsFacts | src/components/Dashboard/Dashboard.js:25-44 | the metrics' type, region and sector entries are count objects of the partners' values, each adding up to the number of partners |
| Dashboard.CountLabels | src/components/Dashboard/Dashboard.js:49-52 | "SDG n" labels count as their numbers do |
| Dashboard.CountSdgList | src/components/Dashboard/Dashboard.js:47-54 | an SDG's occurrences add up over the partners |
| Dashboard.SdgCounterFacts | src/components/Dashboard/Dashboard.js:47-54 | each partner adds one for every entry of its alignment; the counts add up to all entries |
| Dashboard.TopSdgsFacts | src/components/Dashboard/Dashboard.js:56-59 | at most 5 counted labels by non-increasing count; a label left out counts no more than the fifth |
| Dashboard.ActivityMembers | src/components/Dashboard/Dashboard.js:62-68 | every collected activity is an engagement of the partner whose name it carries |
| Dashboard.RecentActivitiesFacts | src/components/Dashboard/Dashboard.js:62-70 | at most 5, newest first, each tagged with its partner; any left out is no newer than the fifth |
| ColorUtils.ColorOf | src/components/Dashboard/utils/colorUtils.js:108-130 | the first entry with the key, or the fallback iff the key is absent |
| ColorUtils.ColorAt | src/components/Dashboard/utils/colorUtils.js:108-130 | a key first listed at position i gets colour i |
| ColorUtils.RegionColor | src/components/Dashboard/utils/colorUtils.js:108-110 | `getRegionColor`: the table colour, else '#95a5a6'; stated by ColorUtils.ColorAt and RegionLookups |
| ColorUtils.PartnerTypeColor | src/components/Dashboard/utils/colorUtils.js:118-120 | `getPartnerTypeColor`: the table colour, else '#95a5a6'; stated by ColorUtils.ColorAt and TypeLookups |
| ColorUtils.StatusColor | src/components/Dashboard/utils/colorUtils.js:128-130 | `getStatusColor`: the table colour, else '#95a5a6'; stated by ColorUtils.ColorAt and StatusLookups |
| ColorUtils.TypeLookups | src/components/Dashboard/utils/colorUtils.js:21-29 | Government is the secondary colour; UN Agency is #1976d2 |
| ColorUtils.StatusLookups | src/components/Dashboard/utils/colorUtils.js:42-47 | Planning and Active share the primary colour |
| ColorUtils.RegionLookups | src/components/Dashboard/utils/colorUtils.js:52-60 | Oceania and Africa get their listed colours |
| ColorUtils.SdgColor | src/components/Dashboard/utils/colorUtils.js:82-100 | `getSDGColor` of a number or an "SDG n" name; stated by ColorUtils.SdgNumberColor, SdgNameColor and SdgColorRange |
| ColorUtils.SdgNumberColor | src/components/Dashboard/utils/colorUtils.js:91-99 | SDGs 1..17 map to the table; anything else to #777777 |
| ColorUtils.SdgNameColor | src/components/Dashboard/utils/colorUtils.js:85-89 | the colour of "SDG n" is the colour of n |
| ColorUtils.SdgColorRange | src/components/Dashboard/utils/colorUtils.js:82-100 | only 1..17 have colours of their own, all different from the no-SDG grey |
| ColorUtils.JsRem8 | src/components/Dashboard/utils/colorUtils.js:138-140 | JavaScript's % 8: the Euclidean remainder for non-negative numbers, and a non-positive remainder for negative ones |
| ColorUtils.ChartColor | src/components/Dashboard/utils/colorUtils.js:138-140 | for i ≥ 0, chartColors[i mod 8] |
| ColorUtils.ChartColorCycle | src/components/Dashboard/utils/colorUtils.js:138-140 | period 8 over i ≥ 0; a negative index is coloured iff it is a multiple of 8, then with the primary colour |

## Where the code and the design description differ

The model follows the code in each of these cases.

- A node click does not clear `selectedUnit`. The design says it does
  (NetworkVisualization.js:292-312).
- After a background click, the last call (`updateVisualsForSelectedUnit(null)`)
  leaves alpha at 0.3, not 0.2.
- The graph builder names partner-to-staff links `"contact"`, but the renderer
  styles `"contact-relationship"`. Built links therefore always get the default
  style.
- Staff nodes from the builder never carry a division, so a staff node is
  always drawn at size 8.
- Contact-assigned partners receive upper-case staff directorate codes. These
  never match the lower-case cluster ids, so such partners join no cluster
  and the cluster force would leave them alone. Staff of the Director
  General's office lower-case to `dg`, not `odg`.
- The cluster force is never applied. The tick listener that calls it
  (NetworkVisualization.js:242-245) is replaced by the drawing listener
  registered under the same event name at line 399, as d3 keeps one listener
  per name. The model keeps the force and proves what one application does.
- The hierarchy panel's keys are the directorates of the chart plus `DG`. A
  directorate-only contact in any other directorate (DTI, EAE, SDG in the
  directory) is dropped.
- Import numbers partners without an id from the current list's length. Such
  ids can therefore collide with ids the imported partners keep.
- The dashboard's "Add Partner" button uses an `Add` icon (Dashboard.js:93)
  that the icon import at Dashboard.js:5-8 does not bring in. Rendering the
  page therefore fails with a ReferenceError, or the build rejects the
  undefined name, once the metrics have been computed. The model covers the
  metrics only.

## Left out

- The d3 physics (link and charge forces, collision, alpha decay, ticks). The
  model carries only the parameter values the view hands to d3.
- SVG rendering, zoom, transitions, label truncation and tooltips are
  rendering work.
- `Math.random`, `cos`, `sin`, `log10` and `sqrt` become parameters: random
  draws as given values, and the math functions as function-typed arguments.
  Only the clamp bounds, the anchor box and the jitter range are proved.
- Dates and the clock become abstract parameters:
  - `new Date(...)` is a `string -> int` or `string -> Option<int>`;
  - the "today" of a new activity form is a given string;
  - `daysUntil` is not part of this model.
- `calculateDashboardMetrics` in dashboardUtils.js is not part of this model.
  It depends on the clock, and `Dashboard.js` does not call it; the metrics
  that `Dashboard.js` computes itself are modelled.
- localStorage persistence of the store, Excel import/export and history
  navigation are I/O.
- React hook timing: the click handlers read selections captured when the
  effect ran. The toggle rule is modelled as written, not the stale-closure
  behaviour.
- The node objects that d3 shares with the view are modelled as one
  `array<SimNode>`. Aliasing between d3's copy and React's copy is not
  modelled.
- NetworkVisualization.AssignUnits takes the staff directory as a parameter
  instead of reading the module constant.
- NaN from `log10` of a non-positive value is not modelled. ConnectionStrength
  states its lower bound only when the log factor is non-negative.
- Dashboard.RecentActivitiesFacts: the sort order is stated for a total time
  function. An unparseable date, which makes the JavaScript comparator
  inconsistent, is not modelled.
- Dashboard.DashboardMetrics: the count objects are plain objects, so a type,
  region or sector named `"constructor"` starts its count from an inherited
  function, and one named `"__proto__"` is not listed. The model counts such
  names like any other.
- DashboardUtils.Distribution: the region and sector count objects have the
  same prototype-key behaviour, and the model counts such names like any
  other.
- DataContext.NextId: ids are taken to be numbers. An imported record keeps
  any truthy id, a text one included, and then `Math.max` gives NaN and the
  next added partner gets the id NaN.
- ColorUtils.ColorOf: a prototype key such as `"constructor"` would find an
  inherited member in the JavaScript colour table. The model treats it as
  absent.
- UnidoStaff.FindAppropriateContact: a sector named like a prototype key,
  such as `"constructor"`, would find an inherited member of the sector table
  in JavaScript. The model treats it as absent.
- UnidoOrganization.FallbackUnit: the same prototype-key lookup in the
  sector-to-unit table is treated as absent.
- UnidoOrganization.SecondaryUnits: the same prototype-key lookup in the
  sector-to-unit table is treated as absent.
- Common.Lower folds ASCII letters only. `toLowerCase` also folds other
  letters, such as `É`.
- PartnerList.Mentions: case is ignored for ASCII letters only, through
  Common.Lower.
- PartnerList.SearchIgnoresCase: it is stated for ASCII case folding only; a
  query `é` is not shown to find a name spelled `É`.
- PartnerList.MatchesSearch: a partner without a name, country, sector or
  type makes the search throw a `TypeError` in JavaScript. The model reads
  such a field as `""`; only the region is modelled as possibly missing. Its
  case folding is ASCII only, as for Common.Lower.
- PartnerList.EmptySearchMatches: it holds for records that have all four
  searched fields; for others JavaScript throws instead of matching.
- PartnerList.FilteredFacts: the list is the matching partners for records
  that have all four searched fields; for others JavaScript throws.
- PartnerList.ClearedListsAll: every partner is listed when every record has
  all four searched fields; otherwise JavaScript throws.
- Dashboard.DashboardMetrics: a partner without a type or sector is counted
  under the key `"undefined"` in JavaScript, and under `""` here. A missing
  region is counted under `"undefined"`, as in JavaScript.
- NetworkUtils.LinkStrength: a missing region is modelled, but a missing type
  is read as `""`, which gives the same roles.
- ColorUtils.ChartColor and ColorUtils.SdgColor are defined for whole numbers
  only. Fractional indices and SDG numbers are not modelled.
- PartnerList.PartnerListView.ChangeRowsPerPage takes the new row count as a
  natural number, not the `parseInt` of the select's text.
- PartnerList.PartnerListView.SelectSdgs takes the selected numbers; typed
  SDG text is not modelled.
- The detail page's tab change and its navigation after delete are UI only.
