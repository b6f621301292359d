# Verification of the BGP network simulator

A Dafny model of the simulator's routing core, with proofs. To check it, run
`dafny verify dfyconfig.toml` in this directory.

## What is modelled

**The shared routing table** (`RouterMask`, `RouterMaskMap`, `IpNetwork`, `Route`, `RibEntry`,
`Rib`, `RibRuns`, `RibCounts`, `BgpRib`). One table serves up to 64 routers. It stores each distinct
route once per prefix, tagged with a 64-bit mask of the routers that hold it. `RouterMask.dfy` proves
that the word operations are operations on sets of bit positions; everything above it reasons about
the sets. The classes `RouterMaskMap`, `BgpRibEntry` and `BgpRib` change their fields in place and are
proved against functions on table states; the theorems about single operations, whole runs and
counters are about those functions.

**Folding advertisements into the table** (`Advertisement`, `RibUpdate`): the nested expansion of an
advertisement into routes, the client of the table, and what it reports.

**The pipeline of a router** (`Link`, `LinkRun`, `Interface`, `BgpSession`, `BgpProcess`, `Router`).
An `End` is an interface with its channels as a value; `Process` is a BGP process as a value. Each
method of the classes is proved to perform one stage function on these values, for all sessions of a
process at once. The laws of links (order, accounts, the exact condition for losing nothing) are proved
over any run; any interleaving of sends and receives by both sessions of a pair is shown to be such a
run in each direction.

**The network** (`Network`, `Provenance`, `Attribution`, `Staleness`, `Delivery`, `NetworkWork`,
`NetworkLink`, `HopAccount`, `Topology`, `NetworkManager`, `Wiring`, `Assembly`).
`Networks.Take` is one stage of one router on one session; a run is any sequence of such steps of any
routers, with advertisements injected at routers or in channels in between. `NetworkWork` shows that an
uninterrupted `work` of one router is the cycle that the class performs. `Wiring` shows that the
networks built from topologies are such networks; `NetworkLink` and `HopAccount` carry the order and the
accounts of links to them. `Provenance` says where routes can come from, `Delivery` conversely where they
get, `Attribution` whose they are, and `Staleness` how long they stay. `Assembly` builds the routers and
sessions of a topology as objects, with the values that the network starts from.

**The live parser** (`LiveBgpParser`): newline framing of a byte stream that arrives in chunks, and
what one step of the parser does with the result.

Texts that the code parses (peer addresses and prefixes inside an advertisement) are carried as the
outcome of the parse, with `None` for a text that does not parse. Router identifiers are numbers that
are only compared. Panics are preconditions (`CanAcquire`) or results (`Panicked`, `None`).

## What the code does that its names and comments do not say

- The comparison of routes is not antisymmetric, and of tied routes the last one is kept, not the
  first (src/components/route.rs:68-69, src/components/bgp/bgp_bestroute.rs:8-13;
  `Ribs.NewestOfTiedIsFound`).
- A lookup takes the longest match of the table of all routers and only then looks at the router's
  mask, so another router's longer prefix hides a router's own route; `RibRuns.LookupAgreesIff` gives
  the exact condition, `RibRuns.MoreSpecificShadows` shows that it is met.
- `insert_route` compares with the routes of all routers at the prefix, not with the caller's.
- A second route from the same peer does not replace the first; therefore removal undoes insertion
  exactly when the router held nothing from that peer there (`Ribs.UndoIff`,
  `Ribs.SecondRouteTakesFirst`).
- A removal is reported by comparing with the best route of all routers, not by what the caller held, so
  a report need not change anything and a change need not be reported (`Ribs.RemoveReportIsRightIff`,
  `Ribs.ReportWithoutRemoval`, `Ribs.RemovalWithoutReport`).
- Withdrawals are expanded with an empty next hop, while a removal is reported only when the best route
  equals the withdrawn one in every field. So withdrawals do not travel through the network, and what a
  router has learned from another router it keeps (`RibUpdates.WithdrawalReportedIff`,
  `Provenance.NoWithdrawalIsPassedOn`, `Staleness.LearnedRoutesStay`).
- Generated advertisements carry no path, so an own-AS filter can drop only injected ones
  (`Attribution.OwnASRejectsOnlyInjected`).
- `Interface::receive` takes a message from the channel before it finds the buffer full, and loses it;
  `Interface::send` drops the rest of its buffer at the first refusal. Nothing is lost exactly when every
  batch fits the room it meets (`LinkRuns.NoLossIffRoom`).
- `IpNetworkBlacklistFilter` returns true, which keeps the route, exactly when the prefixes overlap.
- The loop of `from_topology` panics on a self-loop, because the same router is borrowed twice.
- A parser step that finds its download finished replaces the receiver, chunks included, but keeps the
  buffered bytes, so the start of the new stream is appended to an unfinished line of the old one. That
  is harmless exactly when the decoder makes the same of the first new line with the old bytes in front
  as without them (`LiveBgpParsers.RestartIsCleanIff`); it always is when no bytes are left over, and for
  any others there is a decoder for which it is not (`LiveBgpParsers.RestartSpoilsLine`).

## Model

| member | source | states |
|---|---|---|
| `RibRuns.InterleavingIndependence` | src/components/bgp/bgp_rib.rs:225-265 | After any interleaving of registrations, insertions, removals and clears, every router holds at every prefix exactly the routes it would hold had its own operations run on a table of its own |
| `RibRuns.RunRefines` | src/components/bgp/bgp_rib_entry.rs:13-44 | Refinement over any run: the masked table gives each router exactly the plain set of routes that replaying the run on a set yields, and the representation invariant is kept |
| `RibRuns.LookupAgreesIff` | src/components/bgp/bgp_rib.rs:212-223 | After any run, a router's lookup has the path length and peer of the lookup on a private table if and only if no other router's longer prefix shadows it; a shadowed router finds nothing |
| `RibRuns.MoreSpecificShadows` | src/components/bgp/bgp_rib.rs:212-218 | For all routes and addresses: one router's insertion under a longer covering prefix shadows another router's covering route |
| `RibRuns.FewRoutersFinish` | src/utils/router_mask.rs:49-65 | A run by at most 64 routers never meets the full-map panic and registers nobody else |
| `Ribs.UndoIff` | src/components/bgp/bgp_rib.rs:225-265 | Inserting and then removing a route restores the table literally (order, other routers' masks, absence of the entry) if and only if the router held no route from that peer at that prefix |
| `Ribs.SecondRouteTakesFirst` | src/components/bgp/bgp_rib.rs:225-265 | Undo does fail from a fresh table, for all routes of one peer at one prefix: inserting and removing a second one removes the first as well |
| `Ribs.InsertLeaves` | src/components/bgp/bgp_rib.rs:225-248 | An insertion leaves every other router's list at every prefix, and the caller's lists at other prefixes, unchanged as sequences |
| `Ribs.RemoveLeaves` | src/components/bgp/bgp_rib.rs:250-265 | A removal leaves every other router's list at every prefix unchanged as a sequence, also when the entry is deleted |
| `Ribs.InsertAdds` | src/components/bgp/bgp_rib.rs:225-248 | An insertion adds exactly that route to the caller's list |
| `Ribs.RemoveTakes` | src/components/bgp/bgp_rib_entry.rs:24-37 | A removal takes exactly the caller's routes with that peer and prefix and keeps the order of the rest |
| `Ribs.RegisterFrame` | src/components/bgp/bgp_rib.rs:203-205 | Registering changes nobody's routes; a newly registered router sees nothing |
| `Ribs.InsertKeepsInv` | src/components/bgp/bgp_rib.rs:225-248 | Insertion keeps the table invariant: nonempty masks within the allocated bits, routes distinct and stored under their own prefix, no empty entry |
| `Ribs.RemoveKeepsInv` | src/components/bgp/bgp_rib.rs:250-265 | Removal keeps the table invariant, with the entry deleted exactly when its last route goes |
| `Ribs.LookupIs` | src/components/bgp/bgp_rib.rs:212-223 | A lookup returns, at the longest stored prefix that covers the address, the router's route that none of its routes there beats and that beats all its later ones; nothing exactly when no stored prefix covers or the router holds nothing at the longest |
| `Ribs.NewestOfTiedIsFound` | src/components/bgp/bgp_rib.rs:220-223 | After a router inserts a route nobody had stored, its lookup returns it if and only if none of its earlier routes there beats it: of tied routes the newest is found |
| `Ribs.InsertAppends` | src/components/bgp/bgp_rib_entry.rs:13-23 | A route that nobody has stored goes to the end of the caller's list |
| `Ribs.RoutesInStoredOrder` | src/components/bgp/bgp_rib_entry.rs:38-44 | A router's list is the list of everything stored at the prefix, in that order, without what it does not hold |
| `Ribs.InsertReportIsExact` | src/components/bgp/bgp_rib.rs:225-248 | The new route is reported if and only if no stored route of any router at the prefix beats it; unreported, the overall best route is unchanged; reported, it has the new route's key and is that route unless it was stored already |
| `Ribs.RemovalChangesBestIff` | src/components/bgp/bgp_rib.rs:250-265 | A removal changes the overall best route if and only if that route is the withdrawing peer's and only the caller holds it |
| `Ribs.RemoveReportIsRightIff` | src/components/bgp/bgp_rib.rs:250-265 | A reported removal changes the overall best route if and only if the caller alone held the reported route; an unreported one, if and only if the caller alone held a best route of that source with another next hop or path |
| `Ribs.ReportWithoutRemoval` | src/components/bgp/bgp_rib.rs:250-263 | For every route: a router that holds nothing has another router's best route reported as removed, and the table stays as it is |
| `Ribs.RemovalWithoutReport` | src/components/bgp/bgp_rib.rs:250-265 | For every route with a next hop: the withdrawal of the only route, with the empty next hop of all withdrawals, empties the table and takes the best route, and is not reported |
| `Ribs.WithdrawnRoutes` | src/components/bgp/bgp_rib_entry.rs:24-37 | A withdrawal drops exactly the routes of the source that nobody else holds and keeps the order of the others |
| `RibCounts.CountedTwice` | src/components/bgp/bgp_rib.rs:145-170 | The per-router route counts add up to the population counts of all stored masks, which lie between the total route count and 64 times it |
| `RibCounts.TotalIsDistinctRoutes` | src/components/bgp/bgp_rib.rs:145-150 | The total route count is the number of different routes stored, whoever holds them |
| `RibCounts.RouteCountIsSize` | src/components/bgp/bgp_rib.rs:152-170 | A router's route count is the number of routes it holds |
| `RibCounts.PrefixCountIsSize` | src/components/bgp/bgp_rib.rs:152-170 | A family counter is the number of distinct prefixes of that family at which the router holds a route |
| `RibCounts.FamiliesPartition` | src/components/bgp/bgp_rib.rs:152-170 | The IPv4 and IPv6 prefixes of a router are disjoint and add up to all its prefixes |
| `RouterMaskMaps.RunKeeps` | src/utils/router_mask.rs:49-71 | Over any run of registrations and removals: distinct positions, the mask is their union and has as many bits as there are routers (at most 64), and positions never move |
| `RouterMaskMaps.FullIff64` | src/utils/router_mask.rs:53-55 | Registration panics on a new router if and only if 64 routers are registered |
| `RouterMaskMaps.AcquireKeeps` | src/utils/router_mask.rs:49-65 | A new router gets the lowest position nobody owns and existing positions stay |
| `RouterMaskMaps.ReleaseKeeps` | src/utils/router_mask.rs:69-71 | Removal frees exactly the router's own position |
| `RouterMaskMaps.TakenIsOwners` | src/utils/router_mask.rs:66-74 | The number of bits in the combined mask is the number of registered routers |
| `RouterMaskMaps.ScanStep` | src/utils/router_mask.rs:56-63 | The scan for a free bit stops at the lowest free position |
| `RouterMaskMaps.RouterMaskMap.Get` | src/utils/router_mask.rs:49-65 | The bit scan registers exactly as the allocator does, panics exactly when it is full, and never reaches the panic after the loop |
| `RouterMaskMaps.RouterMaskMap.TryGet` | src/utils/router_mask.rs:46-48 | An unregistered router reads as the empty mask |
| `RouterMaskMaps.RouterMaskMap.Remove` | src/utils/router_mask.rs:69-71 | The exclusive or frees exactly the router's bit |
| `RouterMasks.CombineIsUnion` | src/utils/router_mask.rs:24-29 | Combining masks is union of their positions |
| `RouterMasks.WithoutIsDifference` | src/utils/router_mask.rs:21-23 | Removing a mask is difference of positions |
| `RouterMasks.ContainsIsSuperset` | src/utils/router_mask.rs:18-20 | Containment is inclusion of a nonempty set of positions |
| `RouterMasks.ToggleIsSymmetricDifference` | src/utils/router_mask.rs:69-71 | Exclusive or of masks is symmetric difference of positions |
| `RouterMasks.SameBits` | src/components/bgp/bgp_rib_entry.rs:25-29 | Two masks are equal if and only if their positions are |
| `RouterMasks.AllIsEverything` | src/utils/router_mask.rs:15-17 | The all-ones mask is the only one holding all 64 positions |
| `RouterMasks.CountIsSize` | src/utils/router_mask.rs:12-14 | The population count is the number of positions |
| `RibEntries.BgpRibEntry.Insert` | src/components/bgp/bgp_rib_entry.rs:13-23 | In place: the first equal route gains the router, otherwise the route is appended |
| `RibEntries.BgpRibEntry.Withdraw` | src/components/bgp/bgp_rib_entry.rs:24-37 | In place: the two passes together do what one withdrawal on the tagged list does |
| `RibEntries.BgpRibEntry.GetWithMask` | src/components/bgp/bgp_rib_entry.rs:38-44 | Filtering by mask yields the routes whose holders include all of the router's positions, in stored order |
| `RibEntries.WithdrawPasses` | src/components/bgp/bgp_rib_entry.rs:24-37 | Dropping the routes held by the router alone and then clearing its bit is one pass of withdrawals over sets of holders |
| `RibEntries.InsertWithdraw` | src/components/bgp/bgp_rib_entry.rs:13-37 | On one entry, inserting and withdrawing is the identity when the router holds nothing from that peer |
| `RibEntries.InsertFrame` | src/components/bgp/bgp_rib_entry.rs:13-23 | Inserting for some routers leaves any other router's view literally unchanged |
| `RibEntries.WithdrawFrame` | src/components/bgp/bgp_rib_entry.rs:24-37 | Withdrawing for some routers leaves any other router's view literally unchanged |
| `Routes.BeatsIff` | src/components/route.rs:50-81 | A route beats another if and only if its path is shorter or, at equal length, its peer comes later: IPv6 after IPv4, then the larger address |
| `Routes.BestIsShortest` | src/components/bgp/bgp_bestroute.rs:8-13 | The chosen route has a path of minimal length, among those the latest peer, and is the last of the routes with that length and peer |
| `Routes.CmpIsPreorder` | src/components/route.rs:50-81 | The comparison ranks (path length, peer) linearly and equates exactly the routes with the same key |
| `Routes.BestIsLastMaximum` | src/components/bgp/bgp_bestroute.rs:8-13 | The best route stands where nothing beats it and it beats everything later: the last maximum |
| `Routes.BestAppend` | src/components/bgp/bgp_bestroute.rs:8-13 | Appending a route makes it the best if and only if nothing beats it |
| `Routes.BestKeyOfSet` | src/components/bgp/bgp_bestroute.rs:8-13 | The key of the best route depends only on the set of routes |
| `Routes.BestSurvives` | src/components/bgp/bgp_bestroute.rs:8-13 | Dropping other routes leaves the best route the best |
| `BgpRibs.BgpRib.InsertRoute` | src/components/bgp/bgp_rib.rs:225-248 | In place: the new table and report are those of the specification, for an existing and for a missing entry |
| `BgpRibs.BgpRib.RemoveRoute` | src/components/bgp/bgp_rib.rs:250-265 | In place: the new table and report are those of the specification; the entry goes with its last route |
| `BgpRibs.BgpRib.RegisterRouter` | src/components/bgp/bgp_rib.rs:203-205 | Registers the router and changes no entry |
| `BgpRibs.BgpRib.Clear` | src/components/bgp/bgp_rib.rs:267-270 | Forgets every route and every registration |
| `BgpRibs.BgpRib.GetRoutesForRouter` | src/components/bgp/bgp_rib.rs:212-218 | Longest match on the shared table first, the router's mask afterwards |
| `BgpRibs.BgpRib.GetBestRouteForRouter` | src/components/bgp/bgp_rib.rs:220-223 | The best of those routes |
| `BgpRibs.BgpRib.GetTotalRouteCount` | src/components/bgp/bgp_rib.rs:145-150 | The sum of the entries' lengths |
| `BgpRibs.BgpRib.GetRoutesCountWithMask` | src/components/bgp/bgp_rib.rs:152-170 | The router's route count and its two prefix counts, each as the sum the double-counting lemmas speak of |
| `IpNetworks.CoversIff` | src/components/filters.rs:190-198 | In numbers: a prefix covers exactly the addresses of its family from its own on, two to the power of its host bits many |
| `IpNetworks.CanonicalIff` | src/components/filters.rs:190-198 | In numbers: a prefix is a length within 32 or 128 and a base in range that is a multiple of that many addresses |
| `IpNetworks.FamilySizes` | src/components/filters.rs:190-198 | There are 4294967296 IPv4 addresses of 32 bits, and IPv6 addresses have 128 |
| `IpNetworks.LongestMatchIsLongest` | src/components/bgp/bgp_rib.rs:214-217 | Longest match returns the unique longest covering prefix, or none if and only if no prefix covers |
| `IpNetworks.FilterIsOverlap` | src/components/filters.rs:190-198 | The network filter returns true if and only if the two prefixes share an address, for all pairs of either family |
| `IpNetworks.OverlapIsNesting` | src/components/filters.rs:190-198 | Prefixes that pass the filter are nested |
| `IpNetworks.FilterIsSymmetric` | src/components/filters.rs:190-198 | The filter is symmetric in the two prefixes |
| `Advertisements.GetAnnouncements` | src/components/advertisement.rs:67-87 | The nested loops yield one route per announced prefix that parses, in order |
| `Advertisements.GetWithdrawals` | src/components/advertisement.rs:89-107 | The loop yields one route with an empty next hop per withdrawn prefix that parses |
| `Advertisements.ExpandMember` | src/components/advertisement.rs:67-87 | A route is expanded if and only if some announcement names its prefix and next hop, the peer is the advertisement's and the path is its path |
| `Advertisements.RoutesCarryThePath` | src/components/advertisement.rs:67-107 | Announced and withdrawn routes carry the path of the advertisement unchanged, an empty one when it has none, and its peer |
| `Advertisements.OwnASRejectsIff` | src/components/filters.rs:168-180 | The own-AS filter rejects exactly the advertisements with a path that has the number as an element or in a set |
| `Advertisements.HostFilterPassesOwn` | src/components/filters.rs:154-158 | What a router generates passes the host filter of its own address and no other |
| `Advertisements.GeneratedAnnounces` | src/components/bgp/bgp_process.rs:147-178 | Round trip: a neighbour expands a generated advertisement into exactly the reported routes, in order, as routes of the sender with an empty path |
| `Advertisements.GeneratedWithdraws` | src/components/bgp/bgp_process.rs:157-162 | Round trip for the withdrawals, which come out with an empty next hop |
| `RibUpdates.BgpRibInterface.Update` | src/components/bgp/bgp_rib.rs:54-81 | In place, any batch of advertisements: the table is the one after all their insertions and removals, in order, and the waiting changes gain exactly the reports of that run |
| `RibUpdates.BgpRibInterface.Absorb` | src/components/bgp/bgp_rib.rs:60-71 | One advertisement: announcements before withdrawals |
| `RibUpdates.BgpRibInterface.TakeUpdates` | src/components/bgp/bgp_rib.rs:83-85 | Collecting the changes empties them |
| `RibUpdates.BgpRibInterface.constructor` | src/components/bgp/bgp_rib.rs:28-35 | A client registers its router and starts without changes |
| `RibUpdates.OpsOfAt` | src/components/bgp/bgp_rib.rs:60-71 | The operations of one advertisement, position by position: the announced routes in order, then the withdrawn ones |
| `RibUpdates.BatchesReportOnce` | src/components/bgp/bgp_rib.rs:54-85 | For a client alone at its table: however a stream of advertisements is cut into batches, the batches' reports one after the other are the report of the whole stream |
| `RibUpdates.ExactlyOnce` | src/components/bgp/bgp_rib.rs:54-85 | For a client alone at its table, as every process is: over any number of batches the reported announcements are, in order and each once, the received routes that nothing stored beat when inserted, and the reported withdrawals those that were the overall best when removed |
| `RibUpdates.ExactlyOncePerClient` | src/components/bgp/bgp_rib.rs:54-85 | On a shared table, for any interleaving of the clients' locked sections, collections, registrations and clears: what a client collects, followed by what still waits, announces in order and each once the routes it inserted that nothing stored by anyone beat at that moment, and withdraws those it removed that were the best of all |
| `RibUpdates.CollectedIsReported` | src/components/bgp/bgp_rib.rs:54-85 | Collecting loses and repeats nothing: what a client collects and what waits is the report of its own operations within the run of all clients |
| `RibUpdates.WithdrawalHasLastWord` | src/components/bgp/bgp_rib.rs:60-71 | A prefix that one advertisement both announces and withdraws ends without a route from that peer for the client |
| `RibUpdates.WithdrawalReportedIff` | src/components/bgp/bgp_rib.rs:250-265 | A received withdrawal is reported if and only if the overall best route is that peer's, has an empty next hop and has the advertisement's path |
| `RibUpdates.WithdrawalsStaySilent` | src/components/bgp/bgp_rib.rs:66-71 | While every stored and announced next hop is nonempty, no withdrawal is ever reported |
| `Links.AcceptedIs` | src/components/interface.rs:178-200 | A push keeps the buffer and takes the first messages of the batch, as many as fit |
| `Links.TransmittedIs` | src/components/interface.rs:127-153 | Closed form: a send keeps the channel and adds the first messages that pass the filter, as many as fit |
| `Links.ReceivedIs` | src/components/interface.rs:96-125 | Closed form: a receive adds the first messages that pass, as many as fit, and empties the channel or stops after the passing message that finds the buffer full, which is gone |
| `LinkRuns.RunLedger` | src/components/interface.rs:96-200 | Any run of pushes, sends, receives and drains: delivered and pending messages form an in-order, position-by-position subsequence of those pushed, buffers stay within capacity, and every missing message is accounted for by one of the three overflows or by a filter that rejects it |
| `LinkRuns.LossMeansFull` | src/components/interface.rs:111-119 | A loss leaves the buffer it fell at full, and a receive loses at most one message |
| `LinkRuns.NoLossIffRoom` | src/components/interface.rs:96-200 | Over any run, nothing is lost if and only if every batch fits the room it meets |
| `LinkRuns.CompleteIff` | src/components/interface.rs:96-200 | What is delivered or sure to pass is everything pushed that passes both filters if and only if no such message fell at a full buffer |
| `Links.TransmitFitsIff` | src/components/interface.rs:141-148 | The channel refuses nothing if and only if the messages that pass the out-filter fit |
| `Links.ReceiveFitsIff` | src/components/interface.rs:110-120 | The incoming buffer refuses nothing if and only if the messages that pass the in-filter fit |
| `LinkRuns.PassingInOrder` | src/components/interface.rs:96-200 | What is delivered, followed by what is under way and will pass, is a subsequence of the pushed messages that pass both filters |
| `LinkRuns.Lossless` | src/components/interface.rs:96-200 | When every batch fits the room it meets, nothing is lost or reordered: it is exactly that filtered sequence |
| `Links.TransmitOrder` | src/components/interface.rs:127-153 | A send keeps the channel's contents, adds in order a subsequence of the buffer that passes the filter, and respects the bound |
| `Links.TransmitAccounts` | src/components/interface.rs:127-153 | Every buffered message is in the channel, refused by a full channel, or rejected by the filter |
| `Links.ReceiveOrder` | src/components/interface.rs:96-125 | A receive only extends the buffer, in order, and respects its capacity |
| `Links.ReceiveAccounts` | src/components/interface.rs:103-121 | Every message of the channel stays, is buffered, is rejected by the filter, or is the single one popped before the buffer was found full |
| `Interfaces.BuffersAreReplaced` | src/components/interface.rs:84-160 | After a receive the incoming buffer, and after a send of something the outgoing one, is empty and has the configured size; nothing else about the buffers changes |
| `Interfaces.Interface.Receive` | src/components/interface.rs:96-125 | In place: queue and buffer are those of the specified receive; without an inbound channel nothing happens |
| `Interfaces.Interface.Send` | src/components/interface.rs:127-153 | In place: the buffer is emptied and replaced, the channel is that of the specified send; an empty buffer or a missing channel changes nothing |
| `Interfaces.Interface.GetIncomingAdvertisements` | src/components/interface.rs:155-160 | Hands over the buffer and replaces it by one of the configured size |
| `Interfaces.Interface.PushOutgoingAdvertisement` | src/components/interface.rs:162-176 | Appends one advertisement, reports a full buffer, ignores it without an outbound channel |
| `Interfaces.Interface.PushOutgoingAdvertisements` | src/components/interface.rs:178-200 | Keeps what fits and reports an error if and only if not everything did |
| `Interfaces.Interface.SetBufferSize` | src/components/interface.rs:84-88 | Changes the sizes of future buffers only |
| `Interfaces.Interface.ForceResize` | src/components/interface.rs:90-95 | Drops both buffers and applies the sizes at once |
| `Interfaces.Interface.Loopback` | src/components/interface.rs:44-58 | One channel in both directions; the first buffers keep the default capacity |
| `Interfaces.ReceiveInvents` | src/components/interface.rs:96-125 | What a receive hands over was buffered or in the inbound channel |
| `Interfaces.SendInvents` | src/components/interface.rs:127-200 | What is in the outbound channel after a send was there, was buffered, or is being sent |
| `BgpSessions.BgpSession.Receive` | src/components/bgp/bgp_session.rs:60-68 | Receive and drain combined; an error if and only if there is no interface |
| `BgpSessions.BgpSession.Send` | src/components/bgp/bgp_session.rs:70-82 | Push and send combined: what fits is sent even when the overflow is reported |
| `BgpSessions.SessionsRunTheLink` | src/components/bgp/bgp_session.rs:60-82 | Any interleaving of sends and receives by both sessions of a linked pair is, in one direction, a run of that link, so the ledger laws hold of it |
| `BgpSessions.RunFlips` | src/components/bgp/bgp_session.rs:60-82 | The other direction is the same pair seen from the other side, for every run |
| `BgpSessions.ReceivedInOrder` | src/components/bgp/bgp_session.rs:60-82 | In both directions and over any interleaving of sends and receives by both: all a session ever receives is an in-order subsequence of what the other sent and both filters pass |
| `BgpSessions.ReceivedAll` | src/components/bgp/bgp_session.rs:60-82 | In both directions: a session receives all of that, in order and up to what is still under way, if and only if nothing that passes both filters fell at a full buffer; and nothing falls if and only if every batch meets room for all of it |
| `BgpSessions.ReceiveAll` | src/components/bgp/bgp_process.rs:126-139 | Receiving from all sessions in turn: the collected advertisements in session order, and every session as if received from alone |
| `BgpSessions.SendAll` | src/components/bgp/bgp_process.rs:180-186 | Every session is sent the whole list, as if it were the only one |
| `BgpProcesses.EachMaximalRouteOnce` | src/components/bgp/bgp_process.rs:125-188 | End to end, whatever the neighbours do between cycles: what a neighbour reads from the advertisements of all cycles is, in order and each once, the received routes that nothing stored beat when inserted, as this process's routes with an empty path, and what it is told to remove are the received withdrawals of routes that were the best of all |
| `BgpProcesses.CycleLeaves` | src/components/bgp/bgp_process.rs:125-188 | One cycle: the table after the received operations, nothing waiting, and an advertisement that announces and withdraws exactly the reports |
| `BgpProcesses.CycleSends` | src/components/bgp/bgp_process.rs:180-188 | A cycle offers every session the old advertisements and the new one, after receiving from it, and keeps none |
| `BgpProcesses.UpdateFinishes` | src/components/bgp/bgp_rib.rs:54-81 | A table that can register the process's router absorbs any batch without the allocator's panic |
| `BgpProcesses.BgpProcess.constructor` | src/components/bgp/bgp_process.rs:22-35 | A process starts with a table of its own and no sessions |
| `BgpProcesses.BgpProcess.AddSession` | src/components/bgp/bgp_process.rs:89-91 | Appends a session that shares nothing with the process |
| `BgpProcesses.BgpProcess.Receive` | src/components/bgp/bgp_process.rs:125-141 | In place, on all sessions and the table: exactly the receive stage |
| `BgpProcesses.BgpProcess.GetBestRouteChanges` | src/components/bgp/bgp_process.rs:143-145 | Moves the waiting changes, leaving none |
| `BgpProcesses.BgpProcess.GenerateAdvertisement` | src/components/bgp/bgp_process.rs:147-178 | Appends the generated advertisement and changes nothing else |
| `BgpProcesses.BgpProcess.Send` | src/components/bgp/bgp_process.rs:180-188 | In place, on all sessions: exactly the send stage; the list is cleared |
| `Routers.Router.Work` | src/modules/router.rs:73-83 | Every process has run exactly one cycle, no cycle touches another process, and the router owns what it owned and new objects |
| `Routers.Router.AddBgpProcess` | src/modules/router.rs:54-57 | The process takes the router's identifier and joins the list; the others are untouched |
| `Provenance.EveryPairWasInjected` | src/modules/router.rs:74-83 | Over any run of any network, for any interleaving of the routers' stages with injections: every (prefix, next hop) stored, reported, buffered or in flight was named by an injected advertisement, and a walk along links leads from the injection to where it is |
| `Provenance.PairsTravel` | src/modules/router.rs:74-83 | The same from any starting state, with the walk as a witness |
| `Provenance.StepCarries` | src/components/bgp/bgp_process.rs:125-188 | One stage moves a pair along at most one link and creates none |
| `Provenance.UpdateLearns` | src/components/advertisement.rs:67-87 | A table and its changes learn only pairs that the collected advertisements name |
| `Provenance.NoWithdrawalIsPassedOn` | src/components/advertisement.rs:99-99 | Over any run in which injected announcements have a next hop, no router ever has a withdrawal to report, waiting or collected |
| `Attribution.EveryRouteIsAttributed` | src/components/bgp/bgp_process.rs:147-178 | Over any run, every stored route has the peer and path of an injected advertisement, or an empty path and the address of a router one hop away as its peer |
| `Attribution.WiredRoutesAreAttributed` | src/modules/network.rs:140-163 | In a wired topology that router is a neighbour |
| `Attribution.AdOrigin` | src/components/bgp/bgp_process.rs:147-188 | Over any run, an advertisement anywhere in the network was injected, or was generated in a step of a router at most one hop away out of what that router had to report then: nothing is forwarded |
| `Attribution.OwnASRejectsOnlyInjected` | src/components/filters.rs:168-180 | Over any run and at every place, an own-AS filter can reject only injected advertisements |
| `Attribution.HostFilterPassesOnly` | src/components/filters.rs:143-160 | Over any run and at every place, a host filter passes only injected advertisements and those generated by a router of that host at most one hop away |
| `Staleness.StoredStays` | src/components/bgp/bgp_process.rs:157-162 | Staleness: when injected announcements have next hops, then over any run a route stored at a router stays stored, unless an advertisement that withdraws its prefix for its own peer is injected |
| `Staleness.LearnedRoutesStay` | src/components/bgp/bgp_process.rs:157-162 | So a route learned from another router of the network is never removed, whatever is withdrawn at its origin, while no injected withdrawal speaks for a router |
| `Staleness.OnlyInjectedWithdraw` | src/components/bgp/bgp_process.rs:157-174 | Over any such run, every advertisement anywhere in the network that withdraws something was injected |
| `Deliveries.CarriesIff` | src/modules/router.rs:73-83 | Converse of provenance: in an idle network with room in its buffers and filters that pass everything, an injected advertisement brings a pair from one place to another in some run if and only if a walk along links leads there |
| `Deliveries.LearnsIff` | src/modules/router.rs:73-83 | The same into the table of a router other than the source, for an advertisement that withdraws nothing |
| `Deliveries.LearnsIffConnected` | src/modules/network.rs:34-79 | In the network wired from any topology without self-loops and with room on its links: an advertisement injected in a channel into a router brings a pair into another router's table in some run if and only if a path of the topology joins the two |
| `Deliveries.DigestedBears` | src/components/bgp/bgp_process.rs:125-178 | What an idle router makes of any advertisement that names a pair: one that names it again, and a stored route unless the advertisement also withdraws |
| `NetworkLinks.HandedOverInOrder` | src/components/interface.rs:96-200 | Over any run of the network, what one session of a hop hands over is an in-order subsequence of what passed the other's out-filter and of what was injected into the channel, filtered by its in-filter |
| `NetworkLinks.WiredLinksKeepOrder` | src/modules/network.rs:140-163 | The same for every session of every network wired from a topology without self-loops, with the neighbour it sends to |
| `HopAccounts.HopAccount` | src/components/interface.rs:96-200 | Over any run of the network, a message that the receiver's filter passes was offered to a hop as often as it was handed over, is under way, or was dropped at one of the three full buffers |
| `HopAccounts.HopIsCompleteIff` | src/components/interface.rs:96-200 | What a hop has handed over, followed by what is under way and will pass, is exactly what was offered and passes, in order, if and only if nothing that passes was dropped at a full buffer |
| `HopAccounts.HopDropsNothingIff` | src/components/interface.rs:96-200 | Over any run of the network, a hop drops nothing if and only if in every step what passes fits the room it meets |
| `NetworkLinks.WiredPairIsLinked` | src/modules/network.rs:140-163 | Opposite sessions of a wired network start as a linked and unused pair, to which the laws of pairs apply |
| `Networks.TakeOk` | src/components/interface.rs:96-200 | Every stage keeps all buffers and channels within their bounds and the wiring unchanged |
| `NetworkWork.WorkIsACycle` | src/modules/router.rs:74-83 | Refinement: the stages of one router, uninterrupted, do to its process exactly what the imperative cycle does |
| `Topologies.VertexLaw` | src/utils/topology.rs:103-110 | Adding a vertex overwrites or appends, changes no other value and moves no vertex |
| `Topologies.EdgeLaw` | src/utils/topology.rs:93-101 | Adding an edge appends it and lists its missing ends with the default value, changing no value |
| `Topologies.EdgeVertices` | src/utils/topology.rs:93-101 | The missing ends of an edge go to the end of the vertex list, the first before the second |
| `Topologies.BuiltIsProper` | src/utils/topology.rs:93-118 | Every topology built by the add operations lists each vertex once and both ends of every edge |
| `Topologies.Topology.AddVertex` | src/utils/topology.rs:103-110 | In place, by a search of the list |
| `Topologies.Topology.AddEdge` | src/utils/topology.rs:93-101 | In place, in the order of the code |
| `Topologies.Topology.ContainsVertex` | src/utils/topology.rs:120-122 | True if and only if the vertex is listed |
| `Topologies.Topology.FromEdges` | src/utils/topology.rs:112-118 | The topology built by adding the edges in order |
| `NetworkManagers.FromTopology` | src/modules/network.rs:34-79 | For every topology, also improper ones: a repeated vertex panics, the first edge with a missing or repeated router decides the error or panic, and otherwise each router has its sessions and the channels are those of the edges |
| `NetworkManagers.OutcomeIs` | src/modules/network.rs:34-79 | From the lists alone: a vertex listed twice panics; otherwise the first edge that does not join two different listed vertices decides, by its first unlisted end or a panic on a self-loop; without one the network is wired |
| `Assemblies.RoutersAreTheirVertices` | src/modules/network.rs:40-47 | In every wired outcome the router of a vertex acts under the vertex's identifier and address, on an empty table of its own, with one session per edge and nothing to do |
| `Assemblies.NoOtherRouters` | src/modules/network.rs:40-47 | And there are no other routers |
| `Assemblies.NewRouterFor` | src/modules/network.rs:41-47 | In place, objects: a new process added to a new router and given the router's identifier is, as a value, the node of the wired network before it has sessions |
| `Assemblies.NewInterfacePair` | src/modules/network.rs:140-163 | In place, objects: two interfaces on two channels of the given room, each receiving what the other sends |
| `Assemblies.NewSessionPair` | src/modules/network.rs:179-195 | In place, objects: two sessions on such interfaces |
| `Assemblies.SessionsAreNewPairs` | src/modules/network.rs:50-78 | Every session of a wired network starts with the value of such a session, on channels with the room of its edge |
| `NetworkManagers.CreateRouters` | src/modules/network.rs:41-47 | One router per vertex, or the panic if and only if a vertex is repeated |
| `Wirings.WiredIffLoopFree` | src/modules/network.rs:34-79 | For every topology built by the add operations: wired if and only if no edge is a self-loop; a router is never missing |
| `Wirings.OneSessionPerEdge` | src/modules/network.rs:50-78 | A router has one session per edge at it, in the order of the edges |
| `Wirings.SessionsAreTwiceTheEdges` | src/modules/network.rs:50-78 | All routers together have twice as many sessions as there are edges |
| `Wirings.OppositeSession` | src/modules/network.rs:140-163 | Each session's out channel is the in channel of exactly one session of all routers: the one of the same edge at the other router, and conversely |
| `Wirings.WiredNetworkIsReady` | src/modules/network.rs:34-79 | A wired network is idle, within its bounds and free of shared channels, so that the run theorems apply to it |
| `Wirings.HopsAreEdges` | src/modules/network.rs:140-163 | Routers joined through a channel are joined by an edge of the topology |
| `Wirings.PairsFollowPaths` | src/modules/router.rs:74-83 | Provenance in any wired topology: every pair at a router came from an injection, along a path of the topology |
| `LiveBgpParsers.ChunksDoNotMatter` | src/modules/live_bgp_parser.rs:138-160 | When all complete lines decode, any cut of the stream into chunks and calls yields the advertisements of its lines in order, leaves exactly the bytes after the last newline, and counts each byte and message once |
| `LiveBgpParsers.FrameIsLines` | src/modules/live_bgp_parser.rs:149-157 | Framing agrees with the decomposition of the buffer into lines |
| `LiveBgpParsers.FrameStopsAt` | src/modules/live_bgp_parser.rs:149-157 | Framing stops after the first line that does not decode: the line is consumed, earlier advertisements are kept, later bytes are left |
| `LiveBgpParsers.IsLineIff` | src/modules/live_bgp_parser.rs:149-151 | A line ends with the byte of a newline and has no other |
| `LiveBgpParsers.SplitIsUnique` | src/modules/live_bgp_parser.rs:149-151 | The decomposition into lines is unique |
| `LiveBgpParsers.EveryStreamSplits` | src/modules/live_bgp_parser.rs:149-151 | Every byte sequence has a decomposition into lines |
| `LiveBgpParsers.FrameAppend` | src/modules/live_bgp_parser.rs:138-160 | A buffer that decodes can be cut anywhere |
| `LiveBgpParsers.RestartIsCleanIff` | src/modules/live_bgp_parser.rs:98-122 | For every decoder, every unfinished line left over and every first new line: all that follows is read as without the old bytes if and only if the decoder makes the same of the new line with the old bytes in front as of the new line alone |
| `LiveBgpParsers.RestartAfterCallIsCleanIff` | src/modules/live_bgp_parser.rs:138-160 | The same condition for what a call leaves over, which is nothing if and only if the bytes so far were none or ended with a newline |
| `LiveBgpParsers.RestartSpoilsLine` | src/modules/live_bgp_parser.rs:169-185 | For every leftover and every first line of the new stream: a decoder that knows the line reads it from the stream alone, and fails on it after the old bytes |
| `LiveBgpParsers.LiveBgpParser.ProcessBuffer` | src/modules/live_bgp_parser.rs:138-160 | In place: drains every chunk, then frames; an error if and only if there is no receiver or a line does not decode |
| `LiveBgpParsers.LiveBgpParser.Work` | src/modules/live_bgp_parser.rs:163-213 | On success every session is sent all kept and new advertisements once and none is kept; on a line that does not decode nothing is sent, the advertisements are kept, the bytes and the stream are dropped, and the policy decides whether to stop; the sessions keep their objects, so steps can follow one another |
| `LiveBgpParsers.LiveBgpParser.StartStream` | src/modules/live_bgp_parser.rs:98-122 | A new receiver replaces the old one; the buffered bytes stay |
| `LiveBgpParsers.LiveBgpParser.StopStream` | src/modules/live_bgp_parser.rs:124-132 | Drops the receiver and the buffered bytes |

## Left out

- HTTP streaming, the asynchronous runtime, JSON decoding and the fields of live messages: decoding a line is an arbitrary function from bytes to malformed, other, or an advertisement.
- The library's prefix table: a map from canonical prefix to entry; its longest match is proved to be the longest covering prefix of the map's keys.
- Parsing and printing of addresses and prefixes: carried as data; printing a canonical prefix or address and parsing it again is taken to give it back.
- Exporting and importing a table: file input and output; an import does not restore the mask map.
- Time-outs of locks: the table's lock and the channels' locks are always obtained, so the branches that skip an update or return a lock error are not modelled; a locked section is one step.
- Threads, the thread manager and the state machine that calls `work`: their effect on routing is the interleaving of stages, which is arbitrary here.
- The message bus and its channel identifiers: a channel is a bounded sequence with one receiver; the error for a message that is not an advertisement and the disconnection of a channel do not occur.
- NetworkManagers.FromTopology: works on routers, sessions and channels as values, because the network theorems are about values; sharing of objects between routers is what the channel numbers express. Assemblies.NewRouterFor and Assemblies.NewSessionPair build the objects with these values. Errors of the channel factory are not modelled.
- Networks.TakeOk: the granularity of a step is one stage on one session; interleavings inside the receive loop or the send loop of one session are not modelled.
- RibUpdates.BgpRibInterface.Update: the branch that skips an advertisement when the lock is not obtained is not modelled.
- BgpSessions.ReceiveAll: two sessions of one process that are linked to each other, or share a channel, are not modelled; the wiring never makes such sessions.
- BgpSessions.SendAll: sessions that share a channel are not modelled here either; the errors that are only logged are not returned.
- BgpProcesses.BgpProcess.AddSession: a session whose channel another session of the process already has is not modelled.
- Routers.Router.Work: a router whose processes share a table through `with_rib` or share a link is not modelled; the network gives each router one process with its own table. Several clients of one table are covered at the level of locked sections by RibUpdates.ExactlyOncePerClient and RibRuns.InterleavingIndependence.
- Routers.Router.AddBgpProcess: adding a process that shares its table with another one of the router is not modelled.
- RouterMaskMaps.RouterMaskMap.Remove: requires a registered router, since the code unwraps; the table itself never calls it.
- Counters and lengths are unbounded numbers; wrap-around of 64-bit counters is not modelled.
- Capacities of vectors are exactly the requested sizes, where the allocator may give more.
- Filters are pure predicates; the filters on vectors and the and/or combinators would only add easy members.
- Advertisement fields that no modelled code reads: time stamps, autonomous system of the peer, origin, community, raw text, message type, identifiers.
- Session and process configuration other than the address, statistics times, pretty printing, defaults, and the drawing of identifiers, which are parameters.
- `remove_session`, `connect_interface_pair`, `connect_bgp_session_pair`, cloning and comparison of tables: variations of modelled operations.
- Convergence of the network and freedom from loops: the code provides neither.
