# AEGIS fraud console: a Dafny model of its client logic

AEGIS is a fraud-operations console for QRIS payments. It has these pages:

- a transaction dashboard, with a detail modal and a fund-flow diagram;
- a network visualizer that draws transactions, payers, merchants, issuers and countries as a force graph;
- an attack simulator driven by a WebSocket event stream;
- a scripted attack-scenario terminal;
- a simulated QRIS phone payment;
- an investigation chat with a "thinking" indicator.

The console is mostly view code. This project models the decisions inside that code and proves what each one promises.

**How the model is built**

- *JavaScript values.* Each value becomes a datatype.
- *Pure helpers.* Each pure helper becomes a function with a contract.
- *Component state.* Each component's React state (its `useState` and `useRef` cells) becomes a class whose fields the handlers update. Each handler becomes a method with `modifies this`.
- *Accumulating loops.* The graph builder's loop over its `Map` becomes a method with loop invariants. An independent function specifies it, and lemmas prove the graph's properties against that function.
- *Timers and callbacks.* Timers, animation frames, WebSocket callbacks and awaited API calls become explicit steps. A pending timer is a flag or a queue, fired by its own method. An `await` splits its handler into a Begin method and a Finish method, and the call's outcome is a parameter.

**Modules**

- Shared modules:
  - `Base`: Option, min and max, `Math.round`.
  - `Text`: ASCII case mapping, `includes`, `startsWith`, `trim`, `split` and `join`, number formatting, `substring`.
  - `Risk`: the 0.4 and 0.7 risk bands.
  - `ApiTypes` and `DashboardTypes`: the record types.
- One module per source file:
  - `GraphBuilder`: the visualizer's builder and its `getOrCreateNode` map.
  - `GraphInteraction`, `NodePainter`, `NodeCard`, `SearchBar` and `ContainerDimensions`: the visualizer's hooks and components.
  - `FlowGraph` and `MiniGraph`: the dashboard's fund-flow diagram and mini graph.
  - `TransactionTable`, `DetailModal` and `DashboardPage`: the dashboard table, the detail modal and the dashboard page.
  - `AttackSimulator` and `AttackLogView`: the attack simulator and the scenario terminal.
  - `UseChat`, `BotResponses`, `ChatInput` and `ThinkingIndicator`: the investigation chat.
  - `Sidebar`, `StatCard`, `QrisPayment` and `ErrorBoundary`: layout, cards, the QRIS phone and the error boundary.

## Model

| member | source | states |
|---|---|---|
| Base.Round | src/features/visualizer/constants.ts:59 | `Math.round` lands within half a unit of its argument |
| Base.RoundMonotone | src/features/visualizer/constants.ts:64 | rounding never decreases as the argument grows (used for the node-size monotonicity) |
| Base.Max | src/features/visualizer/constants.ts:53 | `Math.max` is an upper bound of both arguments and equals one of them |
| Risk.TierMonotone | src/features/dashboard/components/TransactionTable.tsx:29-34 | the `>= 0.7` / `>= 0.4` bands are monotone in the score: a higher score never falls into a lower band |
| Risk.RiskPct | src/features/visualizer/constants.ts:59 | the percentage of a score in [0,1] lies in [0,100]; a score of at least 0.7 gives at least 70 |
| Risk.RiskPctMonotone | src/features/visualizer/constants.ts:59 | the percentage never decreases as the score grows |
| Text.Lower | src/features/investigate/botResponses.ts:17 | `toLowerCase` (ASCII): same length, each character mapped by LowerChar |
| Text.LowerIdempotent | src/features/investigate/botResponses.ts:17 | lowercasing twice equals lowercasing once |
| Text.Trim | src/features/investigate/components/ChatInput.tsx:16 | `trim()` yields a substring of the input with no white space at either end, and everything cut off before and after it is white space |
| Text.TrimIdempotent | src/features/investigate/components/ChatInput.tsx:16 | trimming a trimmed string changes nothing |
| Text.TrimEmptyIffBlank | src/features/visualizer/components/SearchBar.tsx:21 | `trim()` gives the empty string exactly for a blank string |
| Text.Split | src/features/dashboard/components/StatCard.tsx:38 | `split(' ')` yields at least one part, and no part contains the separator |
| Text.JoinSplit | src/features/dashboard/components/StatCard.tsx:38-40 | joining the parts of a split with the separator gives back the string |
| Text.SplitFirst | src/features/dashboard/components/StatCard.tsx:38 | the first part is a prefix, followed by the separator when there is one; without one the split is the whole string |
| Text.Prefix | src/features/visualizer/constants.ts:75 | `substring(0, n)` has length min(n, length) and is a prefix |
| GraphBuilder.Upsert | src/features/visualizer/constants.ts:27-56 | `getOrCreateNode` keeps the map well formed (unique order, keys equal node ids), and the keys afterwards are the old keys plus the id |
| GraphBuilder.UpsertEffect | src/features/visualizer/constants.ts:33-54 | a new id is appended to the insertion order, with the given options or the type's defaults; an existing node keeps its id, name, type, size and colour; every other entry is unchanged |
| GraphBuilder.UpsertMerge | src/features/visualizer/constants.ts:50-54 | for an existing id: no score offered leaves the map unchanged; a score sets `max(old ?? 0, new)`, so a present score never drops |
| GraphBuilder.NodesOf | src/features/visualizer/constants.ts:123 | `Array.from(nodeMap.values())` lists the entries in insertion order |
| GraphBuilder.NodeMap.constructor | src/features/visualizer/constants.ts:24 | the map starts empty |
| GraphBuilder.NodeMap.GetOrCreateNode | src/features/visualizer/constants.ts:27-56 | the map's new contents are `Upsert` of the old ones, and the returned node is the map's entry for the id |
| GraphBuilder.NodeMap.Values | src/features/visualizer/constants.ts:123 | returns the nodes in insertion order |
| GraphBuilder.TxValMonotone | src/features/visualizer/constants.ts:62-65 | a riskier transaction node is never smaller, and every size for a score in [0,1] lies between 12 and 32 |
| GraphBuilder.TransactionStyle | src/features/visualizer/constants.ts:62-65 | the `let` updates give the colour and size of the score's risk tier (red/orange/grey, 22 + round(10·score) / 16 / 12) |
| GraphBuilder.ApplyCalls | src/features/visualizer/constants.ts:68-87 | a run of `getOrCreateNode` calls keeps the map well formed and adds exactly the called ids |
| GraphBuilder.AddNodes | src/features/visualizer/constants.ts:68-87 | one transaction's five calls keep the map well formed |
| GraphBuilder.AddNodesKeys | src/features/visualizer/constants.ts:68-87 | after one transaction, the keys are the old keys plus its transaction, payer, merchant, issuer and country ids |
| GraphBuilder.AddTransactionNodes | src/features/visualizer/constants.ts:67-87 | the five calls, made on the map object, leave it as `AddNodes` says, and return the 12-character payer prefix |
| GraphBuilder.TableFrom | src/features/visualizer/constants.ts:58-120 | the node map after any prefix of the loop is well formed |
| GraphBuilder.PushTransactionLinks | src/features/visualizer/constants.ts:90-119 | the four `links.push` calls append exactly the ownership, payment, issuer and location links of the transaction, in that order |
| GraphBuilder.BuildGraphFromTransactions | src/features/visualizer/constants.ts:23-126 | the loop over the transactions that fills the map and pushes the links returns exactly the graph that `Build` specifies |
| GraphBuilder.BuildShape | src/features/visualizer/constants.ts:23-129 | the built graph has 4 links per transaction, unique node ids, links whose ends are nodes, no isolated node, and is `EMPTY_GRAPH` for no input |
| GraphBuilder.FoldStep | src/features/visualizer/constants.ts:58-120 | one more loop iteration adds one transaction's nodes to the map and appends its four links |
| GraphBuilder.LinksLength | src/features/visualizer/constants.ts:90-119 | exactly `4·|transactions|` links |
| GraphBuilder.LinkAt | src/features/visualizer/constants.ts:90-119 | link `4i+k` is the k-th link pushed for transaction i |
| GraphBuilder.LinkOrigin | src/features/visualizer/constants.ts:90-119 | every link is one of the four pushed for transaction `k/4` |
| GraphBuilder.KeysAreDerivedIds | src/features/visualizer/constants.ts:68-87 | the map's keys are exactly the ids derived from the transactions |
| GraphBuilder.NodeIdsUnique | src/features/visualizer/constants.ts:24 | no two nodes of the result share an id |
| GraphBuilder.NodeIdsAreDerived | src/features/visualizer/constants.ts:122-125 | a node with id x exists exactly when x is derived from some transaction |
| GraphBuilder.LinkEndsDerived | src/features/visualizer/constants.ts:90-119 | each link's source and target are ids derived from the transactions |
| GraphBuilder.LinksReferToNodes | src/features/visualizer/constants.ts:90-119 | referential integrity: every link's source and target is a node of the result |
| GraphBuilder.DerivedIdTouched | src/features/visualizer/constants.ts:90-119 | every id derived from a transaction is an end of one of its links |
| GraphBuilder.NoIsolatedNodes | src/features/visualizer/constants.ts:58-120 | every node of the result is the source or target of some link |
| GraphBuilder.LinkPrefix | src/features/visualizer/constants.ts:93-116 | the four link-id prefixes `L-own-`, `L-pay-`, `L-iss-` and `L-geo-` all have the same length |
| GraphBuilder.LinkIdsUnique | src/features/visualizer/constants.ts:93-116 | for transactions with distinct ids, no two links share an id |
| GraphBuilder.OnlyPaymentLinkHasAmount | src/features/visualizer/constants.ts:97-112 | only the transaction-to-merchant link carries an amount and a currency, and they are the transaction's amount and "IDR" |
| GraphBuilder.UpsertExtends | src/features/visualizer/constants.ts:50-54 | a call keeps every existing key, its position in the order and everything but the risk score |
| GraphBuilder.ApplyExtends | src/features/visualizer/constants.ts:68-87 | a run of calls does the same |
| GraphBuilder.BuildExtends | src/features/visualizer/constants.ts:58-120 | later iterations never remove or reorder nodes made by earlier ones |
| GraphBuilder.MaxOfferIsMax | src/features/visualizer/constants.ts:53 | the merged score is absent exactly when nothing was offered, and otherwise is the largest offer |
| GraphBuilder.UpsertKeepsMax | src/features/visualizer/constants.ts:50-54 | with non-negative offers, one call keeps "the node's score is the maximum offered so far" |
| GraphBuilder.ApplyKeepsMax | src/features/visualizer/constants.ts:68-87 | a run of calls keeps it too |
| GraphBuilder.NodeCallsOffer | src/features/visualizer/constants.ts:68-81 | a transaction offers its percentage to its own node, and to its merchant only when flagged |
| GraphBuilder.NodeCallsNonNegative | src/features/visualizer/constants.ts:59-81 | a non-negative risk score offers only non-negative percentages |
| GraphBuilder.RiskIsMaxOffered | src/features/visualizer/constants.ts:50-87 | each node's final score is the maximum of all scores offered to it over the whole input (absent if none) |
| GraphBuilder.MerchantRiskOnlyWhenFlagged | src/features/visualizer/constants.ts:79-81 | a merchant node (not also a transaction id) is offered a score exactly when some transaction for it is flagged |
| GraphInteraction.Interaction.constructor | src/features/visualizer/hooks/useGraphInteraction.ts:22-28 | nothing hovered or selected, positions at the origin |
| GraphInteraction.Interaction.SetHoverNode | src/features/visualizer/hooks/useGraphInteraction.ts:22 | sets only the hovered node |
| GraphInteraction.Interaction.MouseMove | src/features/visualizer/hooks/useGraphInteraction.ts:38-52 | records the pointer, and moves the link tooltip to it only while a link is hovered |
| GraphInteraction.Interaction.HandleNodeClick | src/features/visualizer/hooks/useGraphInteraction.ts:81-97 | clicking the selected node (same id) clears the selection and keeps the position; another node is selected at the click point (unchanged without a container) |
| GraphInteraction.Interaction.HandleLinkHover | src/features/visualizer/hooks/useGraphInteraction.ts:120-131 | a link sets the tooltip at the last pointer position; none clears it |
| GraphInteraction.Interaction.HandleBackgroundClick | src/features/visualizer/hooks/useGraphInteraction.ts:134 | always clears the selection and nothing else |
| GraphInteraction.ConnectionCount | src/features/visualizer/hooks/useGraphInteraction.ts:100-105 | over links whose ends are the builder's id strings, the count never exceeds the number of links |
| GraphInteraction.ConnectionCountPositive | src/features/visualizer/hooks/useGraphInteraction.ts:100-105 | the count is positive exactly when some link starts or ends at the id |
| GraphInteraction.ConnectionCountAppend | src/features/visualizer/hooks/useGraphInteraction.ts:100-105 | the count over two concatenated link lists is the sum of their counts |
| GraphInteraction.BuiltNodesConnected | src/features/visualizer/hooks/useGraphInteraction.ts:100-105 | over the built graph's id-string ends, every node has at least one connection |
| GraphInteraction.ConnectionCountAsWritten | src/features/visualizer/hooks/useGraphInteraction.ts:100-105 | the strict-equality count as written, over ends in either form, never exceeds the number of links |
| GraphInteraction.LiveConnectionCount | src/features/visualizer/hooks/useGraphInteraction.ts:100-105 | the count by the id each end stands for never exceeds the number of links |
| GraphInteraction.CountsBeforeLayout | src/features/visualizer/hooks/useGraphInteraction.ts:100-105 | before the first layout the count as written and the corrected count both equal the count over the id strings |
| GraphInteraction.AsWrittenMissesLaidOutLinks | src/features/visualizer/hooks/useGraphInteraction.ts:100-105 | after the engine's first layout of a built graph, the count as written is zero for every node, although each node has a link |
| GraphInteraction.BuiltNodesConnectedAfterLayout | src/features/visualizer/hooks/useGraphInteraction.ts:100-105 | after the first layout the corrected count equals the id-string count, so every node of a built graph still has at least one connection |
| GraphInteraction.FindNode | src/features/visualizer/hooks/useGraphInteraction.ts:111 | `find` returns the first node with the id, or nothing exactly when none has it |
| GraphInteraction.GetNodeName | src/features/visualizer/hooks/useGraphInteraction.ts:108-117 | an id string gives the matching node's name or the id itself; an object gives its name, else its id, else '—' |
| GraphInteraction.EndpointsResolve | src/features/visualizer/hooks/useGraphInteraction.ts:108-113 | in a built graph, every link end resolves to a node |
| GraphInteraction.FlaggedCount | src/features/visualizer/hooks/useGraphInteraction.ts:137-139 | the count never exceeds the number of nodes |
| GraphInteraction.FlaggedCountPositive | src/features/visualizer/hooks/useGraphInteraction.ts:137-139 | positive exactly when some node's score is above 70 |
| GraphInteraction.FlaggedCountAll | src/features/visualizer/hooks/useGraphInteraction.ts:137-139 | equals the node count exactly when every node is above 70 |
| NodePainter.Dimmed | src/features/visualizer/hooks/useNodePainter.ts:23-39 | the two-step `let isDimmed` update equals: a failed search match for a non-blank query, or a focus set that excludes the node |
| NodePainter.BorderColor | src/features/visualizer/hooks/useNodePainter.ts:43-54 | a transaction is red exactly above 70, else grey; other types never get either colour |
| NodePainter.PaintNode | src/features/visualizer/hooks/useNodePainter.ts:17-123 | alpha 0.12 exactly while dimmed and 1.0 after the call; glow iff hovered or selected; pulse iff above 70; a full-strength stroke iff emphasised; label iff zoomed past 1.2 or emphasised; badge iff labelled and above 70, red iff above 85 |
| NodePainter.DimmedAgreesWithSearch | src/features/visualizer/hooks/useNodePainter.ts:24-31 | without a focus set, a node is undimmed exactly when the search bar lists it as a match |
| NodePainter.DimmingCases | src/features/visualizer/hooks/useNodePainter.ts:33-39 | with a blank query, no focus set dims nothing, and a non-empty one dims exactly the nodes outside it |
| NodeCard.Measured | src/features/visualizer/components/NodeCard.tsx:47-48 | the container's client size, or the given size when that is missing or 0 |
| NodeCard.Placement | src/features/visualizer/components/NodeCard.tsx:50-57 | left and top are always at least 12; with `0 ≤ x ≤ cW` and room for the card plus margins, the card fits inside the container |
| NodeCard.PlaceCard | src/features/visualizer/components/NodeCard.tsx:50-59 | the sequence of `let left/top` updates computes `Placement` |
| NodeCard.FlipAndLift | src/features/visualizer/components/NodeCard.tsx:50-55 | the card sits to the right when it fits; it flips to `x − cardW − 20` when it does not (and the flip clears the margin); a card too low is lifted to `cH − cardH − 12` |
| NodeCard.DragFollowsPointer | src/features/visualizer/components/NodeCard.tsx:72-95 | dragging moves the card by exactly the pointer's displacement, without clamping; no displacement leaves it in place |
| NodeCard.Card.constructor | src/features/visualizer/components/NodeCard.tsx:33-37 | unplaced, not dragging, zero offset |
| NodeCard.Card.Layout | src/features/visualizer/components/NodeCard.tsx:40-60 | the layout effect places the card by `Placement` on the measured container size |
| NodeCard.Card.DragStart | src/features/visualizer/components/NodeCard.tsx:63-79 | does nothing while unplaced; otherwise starts dragging and records the grab offset when the container is found |
| NodeCard.Card.DragMove | src/features/visualizer/components/NodeCard.tsx:84-96 | while dragging with a container, the card goes to `pointer − offset`; otherwise nothing changes |
| NodeCard.Card.DragEnd | src/features/visualizer/components/NodeCard.tsx:98 | mouse-up ends dragging and keeps the position |
| NodeCard.Card.StyleLeft | src/features/visualizer/components/NodeCard.tsx:120 | −9999 while unplaced, else the placed left |
| NodeCard.Card.StyleTop | src/features/visualizer/components/NodeCard.tsx:121 | −9999 while unplaced, else the placed top |
| NodeCard.BorderEmphasis | src/features/visualizer/components/NodeCard.tsx:108-113 | danger iff above 85, warning iff above 70 but not above 85 |
| NodeCard.ScoreEmphasis | src/features/visualizer/components/NodeCard.tsx:180-200 | the score's colour: danger iff above 85, warning iff in (70, 85] |
| NodeCard.InvestigateTarget | src/features/visualizer/components/NodeCard.tsx:209-214 | the button is shown iff the score is above 70, and investigates the node's id |
| NodeCard.RiskDecorationsAgree | src/features/visualizer/components/NodeCard.tsx:108-214 | an Investigate button implies a shown risk row with the border's colour, and a calm border means no button |
| SearchBar.FilterMatching | src/features/visualizer/components/SearchBar.tsx:22-27 | the filter keeps only matching nodes of the input |
| SearchBar.FilterMembers | src/features/visualizer/components/SearchBar.tsx:22-27 | a node is kept exactly when it is in the input and its lowercased name, id or type contains the lowercased query |
| SearchBar.FilterAppend | src/features/visualizer/components/SearchBar.tsx:22-27 | filtering distributes over concatenation, so the original order is kept |
| SearchBar.Filtered | src/features/visualizer/components/SearchBar.tsx:20-28 | a blank query gives no matches; otherwise the filter's result |
| SearchBar.Listed | src/features/visualizer/components/SearchBar.tsx:55 | the dropdown lists the first min(8, matches) matches |
| SearchBar.RiskPill | src/features/visualizer/components/SearchBar.tsx:80-82 | the pill appears iff the score is above 70, and is red iff above 85 |
| SearchBar.SearchBox.constructor | src/features/visualizer/components/SearchBar.tsx:18 | unfocused, with the given query |
| SearchBar.SearchBox.Change | src/features/visualizer/components/SearchBar.tsx:45 | typing replaces the query |
| SearchBar.SearchBox.Focus | src/features/visualizer/components/SearchBar.tsx:46 | focusing sets the flag |
| SearchBar.SearchBox.BlurTimeout | src/features/visualizer/components/SearchBar.tsx:47 | the delayed blur clears the flag |
| SearchBar.SearchBox.HandleSelect | src/features/visualizer/components/SearchBar.tsx:30-34 | selecting passes the node on, clears the query and unfocuses |
| SearchBar.PanelsExclusive | src/features/visualizer/components/SearchBar.tsx:53-92 | the dropdown and "No nodes found" are never both shown; with focus and a non-blank query one of them is; a blank query shows neither |
| SearchBar.NameMatches | src/features/visualizer/components/SearchBar.tsx:24 | searching for a node's own lowercased name finds it |
| ContainerDimensions.Side | src/features/visualizer/hooks/useContainerDimensions.ts:15-16 | `clientWidth || offsetWidth`: the client size unless it is 0 |
| ContainerDimensions.Resized | src/features/visualizer/hooks/useContainerDimensions.ts:14-20 | the size changes to the measured one only when both sides are positive |
| ContainerDimensions.ResizedPositive | src/features/visualizer/hooks/useContainerDimensions.ts:17-19 | a positive size stays positive |
| ContainerDimensions.Dimensions.constructor | src/features/visualizer/hooks/useContainerDimensions.ts:6 | 800×600, nothing pending |
| ContainerDimensions.Dimensions.UpdateSize | src/features/visualizer/hooks/useContainerDimensions.ts:14-20 | `updateSize` on the mount and window resize applies `Resized` and keeps both sides positive |
| ContainerDimensions.Dimensions.Observed | src/features/visualizer/hooks/useContainerDimensions.ts:22-25 | an observer callback cancels the pending frame and requests one, so exactly one is pending |
| ContainerDimensions.Dimensions.FrameFired | src/features/visualizer/hooks/useContainerDimensions.ts:24 | the frame runs `updateSize` and leaves nothing pending |
| ContainerDimensions.Dimensions.Cleanup | src/features/visualizer/hooks/useContainerDimensions.ts:32-36 | cleanup cancels the pending frame |
| FlowGraph.FlowGraphShape | src/features/dashboard/components/TransactionFlowGraph.tsx:86-155 | five nodes of distinct types and four links whose ends are node ids; exactly the two payment links carry the amount |
| FlowGraph.FindFlowNode | src/features/dashboard/components/TransactionFlowGraph.tsx:264 | `find` returns the first node with the id, or nothing exactly when none has it |
| FlowGraph.FlowNodeName | src/features/dashboard/components/TransactionFlowGraph.tsx:261-270 | an id gives the found node's name or the id itself; an object gives its name, else its id, else '—' |
| FlowGraph.FlowEndpointsResolve | src/features/dashboard/components/TransactionFlowGraph.tsx:125-152 | every link end is found among the nodes; the user's id names itself |
| FlowGraph.FlowHover.constructor | src/features/dashboard/components/TransactionFlowGraph.tsx:77-80 | nothing hovered, no tooltips, pointer at the origin |
| FlowGraph.FlowHover.HandleNodeHover | src/features/dashboard/components/TransactionFlowGraph.tsx:187-198 | a node shows its tooltip at the pointer; none hides it |
| FlowGraph.FlowHover.HandleLinkHover | src/features/dashboard/components/TransactionFlowGraph.tsx:201-212 | a link shows its tooltip at the pointer; none hides it |
| FlowGraph.FlowHover.MouseMove | src/features/dashboard/components/TransactionFlowGraph.tsx:171-181 | records the pointer and moves the link tooltip only while a link is hovered |
| MiniGraph.MiniGraphData | src/features/dashboard/components/MiniGraphVisualizer.tsx:35-37 | the main builder on the one transaction: four links and one to five nodes |
| MiniGraph.MiniNodeCount | src/features/dashboard/components/MiniGraphVisualizer.tsx:35-37 | a single transaction yields between one and five nodes |
| MiniGraph.TruncateLabel | src/features/dashboard/components/MiniGraphVisualizer.tsx:104-105 | a label is never longer than 14; up to 14 it is unchanged, longer ones become the first 12 characters and '…' |
| MiniGraph.MiniStroke | src/features/dashboard/components/MiniGraphVisualizer.tsx:57-68 | the mini painter's own border chain agrees with the main painter's border colour; the stroke adds the `bb` alpha |
| MiniGraph.MiniBadge | src/features/dashboard/components/MiniGraphVisualizer.tsx:109-114 | the `score%` badge appears iff the score is above 40, red iff above 70 |
| MiniGraph.GlowMeansRedBadge | src/features/dashboard/components/MiniGraphVisualizer.tsx:71-114 | the high-risk glow is drawn exactly when the badge is red |
| TransactionTable.RiskBadge | src/features/dashboard/components/TransactionTable.tsx:29-34 | red, orange or green exactly by the tier of the score (at least 0.7, at least 0.4, below) |
| TransactionTable.RiskBadgeByTier | src/features/dashboard/components/TransactionTable.tsx:29-34 | two scores get the same badge exactly when they share a tier; red stays red for higher scores |
| TransactionTable.GetStatusBadge | src/features/dashboard/components/TransactionTable.tsx:36-56 | priority order confirmed_fraud, false_positive, is_flagged, normal, each with its style |
| TransactionTable.ReviewOutranksFlag | src/features/dashboard/components/TransactionTable.tsx:36-47 | a review status decides the badge whatever the flag says |
| TransactionTable.FraudTypeBadge | src/features/dashboard/components/TransactionTable.tsx:58-68 | '' for an absent or empty type, grey for any unknown type, and a non-grey colour for each of the five known types |
| TransactionTable.FraudTypeBadgesDistinct | src/features/dashboard/components/TransactionTable.tsx:60-67 | two different known fraud types never share a colour, and none of them gets the grey fallback |
| TransactionTable.Unscore | src/features/dashboard/components/TransactionTable.tsx:72 | `replace(/_/g, ' ')` maps underscores to spaces and keeps everything else |
| TransactionTable.Capitalise | src/features/dashboard/components/TransactionTable.tsx:72 | `replace(/\b\w/g, toUpperCase)` uppercases exactly the word-initial characters |
| TransactionTable.FormatFraudType | src/features/dashboard/components/TransactionTable.tsx:70-73 | '—' for no type; otherwise the same length, no underscore, word starts not lowercase |
| TransactionTable.FormatOnlyRecases | src/features/dashboard/components/TransactionTable.tsx:72 | formatting changes nothing but case and underscores |
| TransactionTable.FormatIdempotent | src/features/dashboard/components/TransactionTable.tsx:70-73 | formatting a formatted type changes nothing |
| TransactionTable.PageWindow | src/features/dashboard/components/TransactionTable.tsx:279-285 | min(pages, 7) buttons, each labelled by the case rule |
| TransactionTable.PageWindowProperties | src/features/dashboard/components/TransactionTable.tsx:279-285 | the labels are consecutive; for a page in range, all lie in [1, pages] and include the page |
| TransactionTable.PageWindowCases | src/features/dashboard/components/TransactionTable.tsx:282-284 | beyond 7 pages: 1..7 near the start, the last 7 near the end, page±3 otherwise |
| TransactionTable.PrevNextInRange | src/features/dashboard/components/TransactionTable.tsx:272-302 | prev and next stay in range, move one page when enabled, and are disabled exactly at the first and last page |
| TransactionTable.Table.constructor | src/features/dashboard/components/TransactionTable.tsx:90 | no transaction selected |
| TransactionTable.Table.SelectRow | src/features/dashboard/components/TransactionTable.tsx:212 | a row click opens its detail |
| TransactionTable.Table.CloseDetail | src/features/dashboard/components/TransactionTable.tsx:316 | closing clears the selection |
| DetailModal.RiskColor | src/features/dashboard/components/TransactionDetailModal.tsx:37-41 | red, orange or green exactly by the score's tier |
| DetailModal.RiskBg | src/features/dashboard/components/TransactionDetailModal.tsx:43-47 | the bar's background by the same tiers |
| DetailModal.RiskColourAndBarAgree | src/features/dashboard/components/TransactionDetailModal.tsx:37-47 | the figure and its bar always share a hue |
| DetailModal.BarWidth | src/features/dashboard/components/TransactionDetailModal.tsx:172 | `min(score·100, 100)`: never above 100, proportional up to a score of 1 |
| DetailModal.BarWidthMonotone | src/features/dashboard/components/TransactionDetailModal.tsx:172 | a higher score never gives a shorter bar |
| DetailModal.TimeSinceRow | src/features/dashboard/components/TransactionDetailModal.tsx:212-219 | the '—' row (≥ 99999) is never highlighted; the highlight is exactly "under 120 s" |
| DetailModal.HighlightsOf | src/features/dashboard/components/TransactionDetailModal.tsx:137-224 | count ≥ 5, velocity ≥ 2, country switches ≥ 2, new and shared device, and the time-since rule |
| DetailModal.HighlightsMonotone | src/features/dashboard/components/TransactionDetailModal.tsx:202-224 | larger counts never remove a highlight |
| DetailModal.Click | src/features/dashboard/components/TransactionDetailModal.tsx:235-260 | a disabled button (status already the target) issues nothing; an enabled one issues `(txnId, target)` that changes the status |
| DetailModal.ButtonsEnabled | src/features/dashboard/components/TransactionDetailModal.tsx:235-260 | for a pending transaction every button is enabled; otherwise exactly one is disabled |
| DetailModal.AiRecMeansBlockEnabled | src/features/dashboard/components/TransactionDetailModal.tsx:76-271 | the AI REC tag appears exactly when Block is enabled and the merchant's risk figure is red |
| DashboardPage.StatusChange | src/features/dashboard/index.tsx:13-20 | same length and order; matching entries get the new status and nothing else changes |
| DashboardPage.StatusChangeKeepsIds | src/features/dashboard/index.tsx:16 | only the status field of any entry can differ |
| DashboardPage.StatusChangeIdempotent | src/features/dashboard/index.tsx:13-20 | the same change twice equals once |
| DashboardPage.StatusChangeLastWins | src/features/dashboard/index.tsx:13-20 | of two changes to one id, the last wins |
| DashboardPage.StatusChangesCommute | src/features/dashboard/index.tsx:13-20 | changes to different ids commute |
| DashboardPage.ClickDisablesButton | src/features/dashboard/index.tsx:16 | after a modal button's change, that button is disabled for the entry |
| DashboardPage.Count | src/features/dashboard/index.tsx:25-27 | a filtered count is at most the length |
| DashboardPage.CountPositive | src/features/dashboard/index.tsx:25-27 | positive exactly when some entry has the status |
| DashboardPage.CountsPartition | src/features/dashboard/index.tsx:23-29 | the four status counts sum to the length |
| DashboardPage.StatsOf | src/features/dashboard/index.tsx:23-29 | total is the length; pending + flagged + blocked + approved is the total, so the three never exceed it |
| DashboardPage.StatusChangeCounts | src/features/dashboard/index.tsx:13-29 | a change to t never lowers the count of t or raises any other count |
| AttackSimulator.KeepNewest | src/features/attack/index.tsx:124 | `prev.slice(-300)` keeps the newest min(|logs|, 300) lines |
| AttackSimulator.LoggedKeepsIds | src/features/attack/index.tsx:122-127 | after `addLog` at most 301 lines, the new one last, ids strictly increasing and below the counter |
| AttackSimulator.OrDefault | src/features/attack/index.tsx:170 | `x \|\| default` for optional strings |
| AttackSimulator.PctDone | src/features/attack/index.tsx:192 | 0 without a total; otherwise progress/total·100 capped at 100, in [0, 100] for non-negative progress |
| AttackSimulator.PctDoneMonotone | src/features/attack/index.tsx:192 | more progress never lowers the percentage |
| AttackSimulator.TypeRate | src/features/attack/index.tsx:554-555 | 0 for a zero type total, in [0, 100] when detected ≤ total, 100 when all were caught |
| AttackSimulator.RowOf | src/features/attack/index.tsx:550-555 | rows come from `per_type_total ?? per_type`; detected defaults to 0; the rate is `TypeRate` |
| AttackSimulator.RatesWithoutTotals | src/features/attack/index.tsx:551-555 | without per-type totals every rate is 100 (or 0 for a zero count) |
| AttackSimulator.DisplayStats | src/features/attack/index.tsx:194 | a selected past run outranks the live stats |
| AttackSimulator.ShownCount | src/features/attack/index.tsx:490-535 | `displayStats?.x ?? 0`: 0 without stats, else the picked figure |
| AttackSimulator.WithLogValid | src/features/attack/index.tsx:122-127 | logging keeps the state invariant, appends the line with the next id and touches only the log and counter |
| AttackSimulator.OpenedResets | src/features/attack/index.tsx:132-144 | on open: running, not completed, no stats, zero progress, empty feed, zero elapsed, no selected run, and the log is exactly the launch line |
| AttackSimulator.ReceivedValid | src/features/attack/index.tsx:147-172 | every event keeps the invariant (log ≤ 301, feed ≤ 100); a transaction prepends and adds 1; stats_update replaces the stats; attack_end completes the run with the launch's total as progress, shown as 100% exactly when the slider was not raised since the launch |
| AttackSimulator.PctDoneFull | src/features/attack/index.tsx:192 | with a positive total, 100% exactly when progress has reached the total |
| AttackSimulator.SliderMovedBeforeOpen | src/features/attack/index.tsx:129-178 | a total changed between the Launch click and the open does not reach the handlers: the run ends with the click's total as progress, shown as 100% exactly when that total is at least the new one |
| AttackSimulator.LaunchAt200EndsAt40Percent | src/features/attack/index.tsx:129-192 | launched at 200 and raised to 500 before the open, the run ends at 200 of 500, 40% |
| AttackSimulator.StopAndErrorValid | src/features/attack/index.tsx:173-185 | stop and error stop the run and append exactly one line |
| AttackSimulator.SelectedRunHidesLive | src/features/attack/index.tsx:147-194 | live events never change the figures shown while a past run is selected |
| AttackSimulator.Simulator.constructor | src/features/attack/index.tsx:78-90 | the initial state (200 transactions, 15% fraud, fast, idle, empty log and feed) satisfies the invariant |
| AttackSimulator.Simulator.AddLog | src/features/attack/index.tsx:122-127 | the state becomes `WithLog` of the old one |
| AttackSimulator.Simulator.SetTotal | src/features/attack/index.tsx:329-333 | the slider sets the total within [50, 2000] |
| AttackSimulator.Simulator.SetFraudPct | src/features/attack/index.tsx:46-75 | a preset button sets the fraud ratio to one of 5%, 15%, 30% or 50% and changes nothing else |
| AttackSimulator.Simulator.SetSpeed | src/features/attack/index.tsx:364-369 | a speed button sets the speed and changes nothing else |
| AttackSimulator.Simulator.Launch | src/features/attack/index.tsx:129-130 | the Launch click records the total its socket's handlers capture, and changes nothing else |
| AttackSimulator.Simulator.ResetRun | src/features/attack/index.tsx:133-140 | the eight setters reset the run and keep configuration, history toggle and counter |
| AttackSimulator.Simulator.ResetProgress | src/features/attack/index.tsx:133-136 | the first four setters |
| AttackSimulator.Simulator.ResetFeed | src/features/attack/index.tsx:137-140 | the last four setters |
| AttackSimulator.Simulator.Open | src/features/attack/index.tsx:132-146 | the state becomes `Opened` of the old one |
| AttackSimulator.Simulator.OnMessage | src/features/attack/index.tsx:147-172 | the state becomes `Received` of the old one and the event |
| AttackSimulator.Simulator.OnError | src/features/attack/index.tsx:173-176 | logs the socket error and stops |
| AttackSimulator.Simulator.OnClose | src/features/attack/index.tsx:177 | only stops |
| AttackSimulator.Simulator.Stop | src/features/attack/index.tsx:180-185 | stops and logs one warning |
| AttackSimulator.Simulator.Tick | src/features/attack/index.tsx:107-113 | the interval sets the elapsed seconds |
| AttackSimulator.Simulator.ViewRun | src/features/attack/index.tsx:187-190 | selects the run and closes the history |
| AttackSimulator.Simulator.BackToLive | src/features/attack/index.tsx:224 | clears the selected run |
| AttackSimulator.Simulator.ToggleHistory | src/features/attack/index.tsx:231 | flips the history panel |
| AttackLogView.Schedule | src/features/operation-simulator/components/AttackLogView.tsx:316-336 | script line i fires at 600 + 800·i, the verdict at 600 + 800·n + 400 |
| AttackLogView.ScheduleOrdered | src/features/operation-simulator/components/AttackLogView.tsx:316-336 | the timers fire in strictly increasing time, the verdict last |
| AttackLogView.ScriptLogs | src/features/operation-simulator/components/AttackLogView.tsx:319 | each script line becomes one log with its type, message and details |
| AttackLogView.AfterScript | src/features/operation-simulator/components/AttackLogView.tsx:317-336 | firing the remaining timers appends the remaining lines and then the verdict |
| AttackLogView.RunLog | src/features/operation-simulator/components/AttackLogView.tsx:311-336 | the final log is boot(2), the script in order, then blocked and system: n + 4 lines |
| AttackLogView.LineText | src/features/operation-simulator/components/AttackLogView.tsx:114-116 | blocked and success lines carry their markers before the message |
| AttackLogView.LogView.constructor | src/features/operation-simulator/components/AttackLogView.tsx:174-179 | empty log, idle, no scenario, modal closed, no timers |
| AttackLogView.LogView.RunScenario | src/features/operation-simulator/components/AttackLogView.tsx:306-337 | no effect while simulating; otherwise selects the scenario, opens the modal, boots the log and schedules the timers |
| AttackLogView.LogView.Fire | src/features/operation-simulator/components/AttackLogView.tsx:318-336 | the earliest timer appends its lines; the verdict ends the simulation |
| AttackLogView.LogView.CloseModal | src/features/operation-simulator/components/AttackLogView.tsx:397 | closing only hides the modal |
| AttackLogView.FooterExclusive | src/features/operation-simulator/components/AttackLogView.tsx:52-137 | "analyzing" and the verdict footer are never both shown, and neither is shown while the modal is closed |
| UseChat.BotMessage | src/features/investigate/hooks/useChat.ts:74-80 | a bot reply keeps content and reasoning and has id `b-seq` |
| UseChat.StartMessages | src/features/investigate/hooks/useChat.ts:65-81 | `u-0` with the initial message when given, then the bot reply |
| UseChat.Loaded | src/features/investigate/hooks/useChat.ts:158-164 | 'assistant' maps to bot and any other role to user; id `role-seq` |
| UseChat.LoadHistory | src/features/investigate/hooks/useChat.ts:157-165 | history is mapped one to one, in order |
| UseChat.LoadHistoryBots | src/features/investigate/hooks/useChat.ts:160 | the loaded bot messages are exactly the assistant messages |
| UseChat.LoadHistoryAppend | src/features/investigate/hooks/useChat.ts:157-165 | loading distributes over concatenated histories |
| UseChat.Chat.constructor | src/features/investigate/hooks/useChat.ts:10-19 | no messages, not typing or loading, no chat id, empty id field, new-chat view shown, no start in progress |
| UseChat.Chat.SetTxnIdInput | src/features/investigate/hooks/useChat.ts:15 | sets only the id field |
| UseChat.Chat.BeginStart | src/features/investigate/hooks/useChat.ts:51-59 | a blank id or the id already starting changes nothing; otherwise claims the guard and clears the chat |
| UseChat.Chat.FinishStart | src/features/investigate/hooks/useChat.ts:61-97 | success sets the chat id and the start messages; failure leaves one error message and the new-chat view; either releases the guard and stops typing |
| UseChat.Chat.BeginSend | src/features/investigate/hooks/useChat.ts:108-124 | without a chat, starts one with the content iff an id was entered and appends nothing; with one, appends the user message and types |
| UseChat.Chat.FinishSend | src/features/investigate/hooks/useChat.ts:125-147 | appends exactly one bot reply or error message and stops typing |
| UseChat.Chat.BeginLoad | src/features/investigate/hooks/useChat.ts:150-154 | switches to the session with an empty, loading view |
| UseChat.Chat.FinishLoad | src/features/investigate/hooks/useChat.ts:155-169 | a loaded history replaces the messages; a failure keeps them; loading ends |
| UseChat.Chat.BeginDelete | src/features/investigate/hooks/useChat.ts:172-180 | the delete goes ahead exactly when confirmed; the chat id current at the click is kept; nothing changes |
| UseChat.Chat.FinishDelete | src/features/investigate/hooks/useChat.ts:181-189 | a successful delete of the chat that was current at the click resets the view, whatever chat is current now; otherwise nothing changes |
| UseChat.DeleteDuringLoad | src/features/investigate/hooks/useChat.ts:150-189 | a chat opened and loaded while the delete of the previous chat is awaited is closed and emptied when the delete completes |
| UseChat.Chat.NewChat | src/features/investigate/hooks/useChat.ts:191-195 | new-chat view, no chat id, no messages |
| UseChat.StartGuard | src/features/investigate/hooks/useChat.ts:51-97 | from a free guard: the first start of an id is accepted, a second start of the same id is refused, and after the first finishes a new start is accepted; the guard ends free |
| BotResponses.FirstMatch | src/features/investigate/botResponses.ts:19-54 | the default exactly when no rule matches; otherwise the reply of the first matching rule |
| BotResponses.FirstMatchIndexed | src/features/investigate/botResponses.ts:19-54 | when every rule sits at its reply's position, a non-default reply names a rule that matches, and no earlier rule matches |
| BotResponses.MatchResponseMeaning | src/features/investigate/botResponses.ts:16-55 | `matchResponse` gives category k exactly when rule k matches the lowercased input and no earlier rule does |
| BotResponses.FirstRuleWins | src/features/investigate/botResponses.ts:19-52 | an input matching rule k never gets a later category |
| BotResponses.CaseInsensitive | src/features/investigate/botResponses.ts:17 | upper-, lower- and original-case input get the same reply |
| BotResponses.HiGreets | src/features/investigate/botResponses.ts:21-25 | any input containing "hi", in any case, gets the greeting |
| BotResponses.ThisTransactionGreets | src/features/investigate/botResponses.ts:21-28 | "this transaction" is greeted, not answered as a transaction question, because "this" contains "hi" |
| BotResponses.EmptyGetsDefault | src/features/investigate/botResponses.ts:54 | the empty input gets the default |
| ChatInput.Outgoing | src/features/investigate/components/ChatInput.tsx:15-18 | nothing without content; otherwise the trimmed text, or '(image)' for blank text, with the image only when present |
| ChatInput.EnabledButtonSends | src/features/investigate/components/ChatInput.tsx:44-102 | an enabled send button always sends, and a button disabled only for lack of content has nothing to send |
| ChatInput.OutgoingOfTrimmed | src/features/investigate/components/ChatInput.tsx:16-18 | sending already-trimmed text gives the same message |
| ChatInput.ChatBox.constructor | src/features/investigate/components/ChatInput.tsx:10-11 | empty text, no image |
| ChatInput.ChatBox.SetText | src/features/investigate/components/ChatInput.tsx:70 | sets only the text |
| ChatInput.ChatBox.ImageLoaded | src/features/investigate/components/ChatInput.tsx:37-39 | the reader's result becomes the preview |
| ChatInput.ChatBox.ClearImage | src/features/investigate/components/ChatInput.tsx:58 | removes only the preview |
| ChatInput.ChatBox.HandleSend | src/features/investigate/components/ChatInput.tsx:15-24 | sends `Outgoing`; a send clears text and image, no send changes nothing |
| ChatInput.ChatBox.HandleKeyDown | src/features/investigate/components/ChatInput.tsx:26-31 | Enter without Shift sends; anything else changes nothing |
| ThinkingIndicator.NextStep | src/features/investigate/components/ThinkingIndicator.tsx:23 | one step on, saturating at the last of the five steps |
| ThinkingIndicator.StepAfterTicks | src/features/investigate/components/ThinkingIndicator.tsx:21-26 | n ticks from step s reach min(s + n, 4) |
| ThinkingIndicator.NextStepMonotone | src/features/investigate/components/ThinkingIndicator.tsx:23 | the step never moves back and stays in [0, 4] |
| ThinkingIndicator.VisibleSteps | src/features/investigate/components/ThinkingIndicator.tsx:46 | exactly the first stepIdx + 1 steps are listed |
| ThinkingIndicator.OneStepInProgress | src/features/investigate/components/ThinkingIndicator.tsx:48-53 | every listed step but the last is done; the last is in progress |
| ThinkingIndicator.Thinking.constructor | src/features/investigate/components/ThinkingIndicator.tsx:13-14 | both counters start at 0 |
| ThinkingIndicator.Thinking.TickSecond | src/features/investigate/components/ThinkingIndicator.tsx:17 | each second adds exactly 1 |
| ThinkingIndicator.Thinking.TickStep | src/features/investigate/components/ThinkingIndicator.tsx:22-24 | the step timer advances by `NextStep`, monotonically and within range |
| Sidebar.PathsDifferEarly | src/components/layout/Sidebar.tsx:5-11 | the five menu paths differ in their first letter after the slash |
| Sidebar.AtMostOneActive | src/components/layout/Sidebar.tsx:24 | no pathname activates two items |
| Sidebar.SubPathActivates | src/components/layout/Sidebar.tsx:24 | any page below an item's path keeps that item active |
| Sidebar.RootActivatesNone | src/components/layout/Sidebar.tsx:24 | '/' activates no item |
| Sidebar.ExtensionActivates | src/components/layout/Sidebar.tsx:8-24 | the prefix test has no segment boundary: "/attacks" activates the attack item |
| StatCard.Line1 | src/features/dashboard/components/StatCard.tsx:38 | the text before the first space, or the whole title without one |
| StatCard.TitleLines | src/features/dashboard/components/StatCard.tsx:38-40 | with a space, line 1, a space and line 2 give back the title; without one line 2 is empty |
| StatCard.CardBackground | src/features/dashboard/components/StatCard.tsx:29 | the given background, or 'bg-card' when absent or empty |
| StatCard.CardBackgroundStable | src/features/dashboard/components/StatCard.tsx:29 | the chosen background is never empty, so handing it back as the card's colour chooses it again |
| QrisPayment.Pay | src/features/operation-simulator/components/QRISPaymentView.tsx:27 | processing, everything else kept |
| QrisPayment.Resolved | src/features/operation-simulator/components/QRISPaymentView.tsx:29-44 | a pay code is stored and the scan timer set; a failure returns to idle and keeps the old code |
| QrisPayment.Scanned | src/features/operation-simulator/components/QRISPaymentView.tsx:36-39 | the timer sets success and clears itself |
| QrisPayment.Done | src/features/operation-simulator/components/QRISPaymentView.tsx:174-175 | Done returns to idle and keeps the code |
| QrisPayment.ScreenOf | src/features/operation-simulator/components/QRISPaymentView.tsx:70-83 | the success screen iff success; the QR screen iff not success and a non-empty code is present; the amount screen otherwise |
| QrisPayment.SuccessfulRun | src/features/operation-simulator/components/QRISPaymentView.tsx:26-39 | pay, code, scan ends on the success screen with the code; Pay is disabled from the click until the scan |
| QrisPayment.FailureKeepsQr | src/features/operation-simulator/components/QRISPaymentView.tsx:40-44 | a failed call re-enables Pay and keeps the code |
| QrisPayment.DoneShowsOldQr | src/features/operation-simulator/components/QRISPaymentView.tsx:83-175 | after a payment, Done shows the old QR code again, not the amount screen |
| QrisPayment.QrisView.constructor | src/features/operation-simulator/components/QRISPaymentView.tsx:19-24 | idle, no code, no timer |
| QrisPayment.QrisView.HandlePay | src/features/operation-simulator/components/QRISPaymentView.tsx:27 | the state becomes `Pay` of the old one |
| QrisPayment.QrisView.GatewayAnswered | src/features/operation-simulator/components/QRISPaymentView.tsx:31-44 | the state becomes `Resolved` of the old one and the outcome |
| QrisPayment.QrisView.ScanCompleted | src/features/operation-simulator/components/QRISPaymentView.tsx:36-39 | success, and the callback receives the fixed amount and merchant |
| QrisPayment.QrisView.HandleDone | src/features/operation-simulator/components/QRISPaymentView.tsx:174-175 | the state becomes `Done` of the old one |
| ErrorBoundary.FromError | src/components/ErrorBoundary.tsx:23-25 | a caught error gives `{hasError: true, error}` |
| ErrorBoundary.RenderOf | src/components/ErrorBoundary.tsx:35-65 | children iff no error; with an error the fallback when given, else the default card |
| ErrorBoundary.CatchThenReset | src/components/ErrorBoundary.tsx:23-65 | after a caught error the children are hidden; after a reset they are shown |
| ErrorBoundary.Boundary.constructor | src/components/ErrorBoundary.tsx:18-21 | `{hasError: false, error: null}` |
| ErrorBoundary.Boundary.Caught | src/components/ErrorBoundary.tsx:23-25 | the state becomes the derived error state |
| ErrorBoundary.Boundary.HandleReset | src/components/ErrorBoundary.tsx:31-33 | back to exactly the initial state |

## Findings

| source | as written | input that shows it | evidently intended | confidence | as-written member | corrected member |
|---|---|---|---|---|---|---|
| src/features/visualizer/hooks/useGraphInteraction.ts:100-105 | `getConnectionCount` compares each link end with the node id by `===`. The force-graph engine replaces the id strings of `graphData.links` with node objects when it lays the graph out, so the comparison never holds after that. | Any non-empty transaction list: after the first layout, every node of the built graph counts 0 connections, although each has a link. | Compare the id each end stands for, as `getNodeName` (lines 108-117) already reads ends of both forms. | medium, not executed | GraphInteraction.ConnectionCountAsWritten, GraphInteraction.AsWrittenMissesLaidOutLinks | GraphInteraction.LiveConnectionCount, GraphInteraction.BuiltNodesConnectedAfterLayout |

## Left out

- GraphBuilder.RiskIsMaxOffered: requires non-negative risk scores. The merge reads an absent score as 0 (`?? 0`). So a node created without a score and later offered a negative one ends at 0, not at the maximum offered.
- GraphBuilder.UpsertKeepsMax and GraphBuilder.ApplyKeepsMax: require non-negative offers, for the same reason.
- GraphBuilder.LinkIdsUnique: requires distinct transaction ids. The source does not guarantee them.
- GraphInteraction.AfterLayout: the engine's replacement of link ends is modelled as one step that swaps each id for the name and id of its node. When in the layout it happens, the node's other fields, and the engine's error for an id no node has, are not modelled.
- Network and API calls (src/api.ts) are not modelled. Their results are parameters of the Finish steps:
  - chat start, send and history;
  - QRIS creation;
  - session deletion.
- The effects that only fetch are left out: the attack history, `loadSessions`, `loadFlaggedTxns`, and the chat-session list and recent-transaction list they fill.
- Timers, intervals, animation frames, the ResizeObserver, the FileReader and the WebSocket are modelled as explicit steps, as the methods above show. Real time, cancellation races and transport are not.
- Two timer steps take their values as parameters:
  - `Date.now()` in the attack timer, passed as the elapsed seconds;
  - the chat's timestamps, passed as a `now` parameter.
- `window.confirm`, `alert` and `console` logging are not modelled:
  - the confirmation's answer is a parameter of `BeginDelete`;
  - alerts and console output, including ErrorBoundary's `componentDidCatch`, have no effect in the model.
- The route effect in useChat.ts:100-106 and the navigation it does are not modelled. A start it triggers is the same `BeginStart` step.
- Force-graph engine calls are not modelled: zoom, centre, fit, d3 forces and particles. This includes the zoom controls and `handleSearchSelect` in useGraphInteraction.ts:58-78; their behaviour lives in a third-party layout engine.
- AttackSimulator.Launched: of the configuration the socket's handlers capture at the Launch click, only the total is kept, because only `attack_end` reads it back. The launch line and the configuration `onopen` sends use the click's fraud ratio and speed too; the line is a parameter and the message is not modelled. A second Launch click before the first socket opens starts a second socket; the model keeps one socket, so it holds only the latest click's total.
- Risk.RiskPct: scores and their products are exact reals, not IEEE doubles. So a product that should fall exactly half-way can round one higher than in the source: `0.285 * 100` is 28.499999999999996 as a double, and `Math.round` gives 28 where the model gives 29 (likewise 0.145, 0.565 and 0.575). The same holds for the other real-valued members: GraphBuilder.TransactionStyle, DetailModal.BarWidth, AttackSimulator.PctDone and AttackSimulator.TypeRate. The tier thresholds 0.4 and 0.7 and their products by 100 are exact either way.
- The configuration controls of the attack page are disabled while a run is on (`disabled={running}`). The setters SetTotal, SetFraudPct and SetSpeed model what the controls call; that a disabled control issues no call is not modelled.
- Canvas geometry is not modelled. Radii, gradients, fonts, `measureText`, `roundRect`, icon glyphs and the sine pulse in useNodePainter.ts are floating-point drawing. The model keeps only the drawing decisions and the colours.
- Pixel positions are integers:
  - `getBoundingClientRect` offsets are inputs;
  - the clamped card is a `Point`/`CardPos` of ints.
- Case mapping and `\w`/`\s` classes are ASCII plus the common JavaScript white space. String lengths count characters, not UTF-16 code units. So `substring` on astral characters is not modelled.
- Number formatting (`toLocaleString`, `toFixed`) is not modelled:
  - the attack launch and completion texts are parameters;
  - integers render with `IntToString`.
- Reference equality is modelled as value equality: the hovered node in the painter and links compared with `===`.
- The hovered-link ref is merged with the `hoverLink` state it mirrors on every render.
- React nodes are reduced to optional labels: the error boundary's fallback and the rendered children.
- Components render only `className` strings and markup. Only the class choices that encode a decision are modelled. The ChatInput textarea auto-height is omitted.
- NodeCard's early return when the card element is missing is not modelled. So is the `|| 72` default radius in the painters.
- botResponses.ts: the reply texts are reduced to their category. The random 800–2000 ms delay of `getBotResponse` is not modelled.
- The static data and wiring are out:
  - `DUMMY_TRANSACTIONS`;
  - the AttackLogView scenario texts and random simulation id;
  - log ids and timestamps in AttackLogView (`Date.now() + Math.random()`).
- AttackSimulator types and pickers:
  - `AttackRun` fields beyond the live statistics are not modelled;
  - `ShownCount` takes the figure to show as a picker function rather than naming each of the eleven cards.
- The unreachable `defaults[type] || …` fallback in constants.ts:41 is not modelled, because the node type is a closed datatype.
- `getFraudTypeBadge` looks the type up in an object literal, so inherited keys such as "constructor" also hit. The model treats only the five own keys as known.
- Prop mismatches between files are not modelled. In the source, SearchBar is rendered without its query props, NodeCard without `onInvestigate`, and TransactionTable with props the dashboard page does not pass. The model uses the props each component declares.
- The QRIS image URL and `encodeURIComponent` are not modelled.
