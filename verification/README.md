# Starfish: a verified model of the core protocols

Starfish runs programs over a peer-to-peer network: peers keep a distributed hash table, programs
are sets of small tasks that send each other events, files and consoles are reached through the
table, and peers watch over each other. This project models the protocols underneath and proves
what they guarantee. `dafny verify dfyconfig.toml` checks all of it.

| file | what it models |
|---|---|
| `Wrappers.dfy` | optional results and failures |
| `Metric.dfy` | the XOR distance between ids, and "sort by distance and take the first n" |
| `Dht.dfy` | one peer's tables, cached flags, address set and subscriptions (class `PlugBoard`), and the step that caches an entry and registers with the peer it came from |
| `Deletion.dfy` | deletion notices flooding along registrations, cycles included |
| `Fetch.dfy` | `FetchItem`, the search that carries its visited chain |
| `Placement.dfy` | `dht_set_plain` and `StoreItem` for all four tables |
| `Store.dfy` | what greedy stores achieve, and what they leave on their way |
| `CacheTree.dfy` | the tree that the copies of an entry form below its owner |
| `DeviceStore.dfy` | registering a device, and what its host must know for it |
| `Coherence.dfy` | runs of stores, fetches, deletions and bootstraps of any entries, seen as one cell for each |
| `Durability.dfy` | tasks and files after their first store |
| `TaskTree.dfy`, `NamedWay.dfy` | how the copies of a task or a file hang on its owner, and what goes past the way of its store |
| `Examples.dfy` | networks reached from start-up by bootstraps, at which a promise fails |
| `MonitorSelection.dfy` | the retry loop that chooses a monitor |
| `Compiler.dfy`, `CompilerLayout.dfy`, `CompilerCorrectness.dfy` | the task compiler, the ids it assigns, and the simulation between named source and compiled program |
| `Collisions.dfy` | task names registered more than once, and the ids they share |
| `Events.dfy` | event encoding, the execution engine, and the lineage of events over whole processes |
| `Execution.dfy` | compiled programs in the execution engine |
| `Journal.dfy` | the monitor's checkpoint journal and what recovery replays |
| `Files.dfy` | replicated files: owner and monitor, loss of either |
| `Keys.dfy` | the name codec and the mode bits of file and device keys |
| `Devices.dfy` | the device host: allocation, opening, and the byte stream of a device |
| `LineEditor.dfy` | the console line editor |
| `KeepAlive.dfy` | the failure counter of a keep-alive channel |

How the model is read:

- Objects whose methods update fields are classes (`PlugBoard`, `Registry`, `NodeEngine`,
  `MonitorService`, `Replica`, `IOHost`, `Socket`, `Console`, `Channel`). Each method is proved equal to a
  function on values, and the theorems are lemmas about those functions and about runs of them.
- A network is a map from addresses to peers: the peers that resolve to a transport and answer.
  An address outside the map is one that does not resolve. A remote call is a method call; handlers
  are atomic.
- Liveness tests, the outcome of a heartbeat, random bytes of a handle, what a user function returns
  and what a condition string evaluates to are parameters.
- An exception is a result: `Failure`, `Error`, `RAISED`, `ERR`, or `false`, as each member says.

What the proofs brought to light:

- A deletion clears exactly the holders reachable along registrations, and tables of cached copies
  stay trees hanging on the owner, but only the peer and device tables delete at all
  (`src/plugboard.py:1655-1724`).
- A store of a peer's own address reaches its owner in one hop, because the request teaches every
  table the key as an address first. When it replaces a value, all copies but the owner's and the
  starter's stay stale, so it reaches every copy exactly when there are no others
  (`Coherence.OverwriteReachesAll`, and `Examples.StaleCopy` for one).
- A first task or file store leaves subscriptions and serve entries at every forwarding peer although
  they hold no copy, so peers without a copy are free of traces exactly when the store is not
  forwarded at all (`Store.StrayTraces`, and `Examples.StrayAtSecond` for one).
- A host that registers a device owns the entry, and can take all copies back, exactly when it is
  itself among the two nearest peers it knows (`DeviceStore.HostMustBeNear`). The key of a teletype
  begins with the first four bytes of its host, so this fails only for a host that knows two other
  peers with those bytes that are nearer to the key (`DeviceStore.TtyHostMustBeNear` is exact,
  `Examples.FarHostFails` shows one).
- The copies of a task or file stay registered from copy to copy up to the owner, although the peers
  that passed the store on had nothing to register (`TaskTree.CopiesHangOnOwner`), unless a fetch
  names one of those on its chain and goes past it (`Examples.CutOffPastTheWay` shows one).
- The first checkpoint after a process starts is filed and cleared by the same announcement, so
  until the second one recovery replays nothing (`Journal.FirstCheckpointIsLost`, and
  `Journal.FirstLostSecondReplayed` at one run); and a checkpoint is also lost whenever the two
  checkpoints before it are for the same task (`Journal.RecoveryReplaysLatest` is exact).
- A monitor replaced, or an owner lost, while the file is open loses the bytes before the cursor:
  over any run the copies stay in step exactly when every loss finds the file closed, at its start,
  or empty (`Files.StaysInStep`, and `Files.LossWhileOpen` for one that does not). After the loss of an owner the new monitor starts empty
  (`Files.FailoverLeavesMonitorEmpty`, and `Files.FailoverOfClosedFile` for one file).
- A condition string repeated within a group makes the later function replace the earlier one at the
  earlier one's place (`CompilerCorrectness.PickIsFirst`, and `CompilerCorrectness.RepeatedCondition` for two). A conditional alternative that returns an
  event without a target crashes where an unconditional task would end the process; source and
  compiled run agree exactly up to that (`CompilerCorrectness.AgreesUntilAltKills`, and
  `CompilerCorrectness.EndingCrashes` for one program).
- An unconditional task name registered twice can give another name the id of a conditional task,
  which then never runs (`Collisions.NamesShareIds` is exact, `Collisions.AlternativeIsShadowed` shows
  one program).
- A hosted task takes 1000 events and then none any more, because nothing gives its units back
  (`Events.UnitsRunOut`).
- The 65th device of a host gets the key of the first and takes its place if that is still listed
  (`Devices.TtyKeysEqual` is exact, `Devices.SixtyFifthCollides` the first case).
- A file name whose normal form is empty or starts with a slash has a key that does not lead back to
  itself (`Keys.FileKeyRoundTrip` is exact, `Keys.DigitNameIsLost` one such name).
- A keep-alive channel that has closed reports itself connected again after the next success
  (`KeepAlive.ConnectedWhen` is exact, `KeepAlive.ClosedYetConnected` one history).
- A backspace removes a byte, not a character (`LineEditor.BackspaceUndoes`).

## Model

| member | source | states |
|---|---|---|
| Metric.XorInjective | src/util/util.py:122-140 | xor with a fixed key is injective on ids, so distinct ids have distinct distances |
| Metric.XorBit | src/util/util.py:122-140 | a bit of the exclusive or is set exactly when the two differ there |
| Metric.CloserTransitive | src/core/DHT.py:90-95 | nearness to a key is transitive |
| Metric.CloserTotal | src/core/DHT.py:90-95 | of two ids exactly one is nearer to a key unless they are equal, so sorting by distance has no ties |
| Metric.SelfIsNearest | src/core/DHT.py:90-95 | the key itself is nearer than every other id |
| Metric.CloserSharesPrefix | src/util/util.py:122-140 | whatever is nearer to a key than an address that shares its first k bytes shares them, too |
| Metric.Nearest | src/core/DHT.py:94-99 | the first of the sorted addresses is a member nearer than all others |
| Metric.NearestUnique | src/core/DHT.py:94-99 | there is only one nearest address |
| Metric.Closest | src/core/DHT.py:165-172 | the first n of the sorted addresses are n addresses of the set, or all of them when it has fewer |
| Metric.ClosestSorted | src/core/DHT.py:165-172 | they are distinct and come nearest first |
| Metric.ClosestByRank | src/core/DHT.py:165-172 | an address is among the first n exactly when fewer than n addresses are nearer |
| Metric.NearestN | src/core/DHT.py:165-172 | the first n are, nearest first, exactly the addresses with fewer than n nearer ones |
| Dht.PlugBoard.constructor | src/plugboard.py:62-129 | the tables of a peer that has just started: its own transport, its own address, and its own serve entries |
| Dht.PlugBoard.Get | src/core/DHT.py:144-174 | owned, found in the cache, or not found with the three nearest addresses |
| Dht.PlugBoard.SetCache | src/core/DHT.py:176-196 | caching never turns an owned entry into a cached one |
| Dht.PlugBoard.Set | src/core/DHT.py:215-263 | the value is kept at a peer that is among the n nearest it knows, and elsewhere cached or not, with the neighbors to try |
| Dht.PlugBoard.OpenServe | src/plugboard.py:1555-1556 | a serve entry is opened unless there is one |
| Dht.PlugBoard.UpdateAddresses | src/core/DHT.py:75-79 | one address more, nothing else |
| Dht.PlugBoard.Remove | src/core/DHT.py:124-133 | the entry and its cached flag go, and nothing changes when neither is there |
| Dht.PlugBoard.RemovePeerFromAddressTables | src/plugboard.py:161-167 | one address less, nothing else |
| Dht.PlugBoard.DropEntry | src/plugboard.py:1679-1724 | a holder's first reaction to a notice takes away entry, flag and, for a peer, its address, and nothing else |
| Dht.PlugBoard.ForgetCachers | src/plugboard.py:277-278 | the notified cachers, and only they, leave the serve entry |
| Dht.PlugBoard.Unserve | src/plugboard.py:1679-1724 | the subscription and the serve entry go |
| Dht.PlugBoard.RegisterNotice | src/communications/DHTService.py:575-593 | the cacher joins an existing serve entry; without one the request fails and changes nothing |
| Dht.DhtSetCacheNotices | src/plugboard.py:1368-1486 | a peer without subscription or serve entry registers upstream and opens both; otherwise nothing changes; no other peer is touched |
| Dht.DhtCacheStore | src/plugboard.py:1323-1366 | caching an entry from an upstream peer, including the registration, as one step of the whole network |
| Dht.SubscriptionTables | src/plugboard.py:1368-1404 | what a registration changes in the tables of the cacher, of the peer it registers with, and of nobody else |
| Dht.CachingTables | src/plugboard.py:1323-1366 | what caching changes in every table; an owner stays owner and registers nowhere |
| Deletion.ReachedLeast | src/plugboard.py:257-278 | the reached holders are within every set around the start that is closed under registrations between holders |
| Deletion.ReachedClosed | src/plugboard.py:257-278 | the reached holders are closed under registrations, and are all holders |
| Deletion.FloodStep | src/plugboard.py:268-275 | notifying one cacher keeps the flood's invariant: what is purged stays inside the reached set and closed, and now contains that cacher if it held a copy |
| Deletion.FloodDone | src/plugboard.py:257-278 | once all cachers are notified the purged peers are exactly the reached ones |
| Deletion.ForgetFirst | src/plugboard.py:1655-1674 | forgetting the address before the flood does not change its outcome |
| Deletion.FloodShrinks | src/plugboard.py:1679-1724 | every notice strictly shrinks the set of holders, which is why floods end on cyclic registrations |
| Deletion.NotifyCachers | src/plugboard.py:257-278 | the loop over the cachers purges every cacher that held a copy, and only reached holders |
| Deletion.SendDeletionNotice | src/plugboard.py:257-278 | the same, and the notified cachers leave the sender's serve entry |
| Deletion.DeletedNotice | src/plugboard.py:1679-1724 | a notice at a peer leaves the network with exactly the holders reachable from it purged, and without the deleted peer's address, whatever the registration graph, and every other peer as it was |
| Deletion.DeleteItem | src/plugboard.py:1655-1674 | a delete request does the same for peers and devices; it is a no-op for tasks and files; its status tells whether the peer held and served the entry |
| Deletion.PurgedTables | src/plugboard.py:1679-1724 | what a deletion changes in the tables of a purged peer: the entry, its flag, the address of a peer, and who is served, if it was served |
| Deletion.PurgeForgets | src/plugboard.py:161-167 | every reached peer forgets the address that a deleted entry gives, and nobody else forgets or learns one |
| Fetch.SearchSound | src/communications/DHTService.py:252-378 | a successful search walks a repetition-free route through non-holders, along the three nearest addresses and off the initial chain, to a holder |
| Fetch.CutRoute | src/communications/DHTService.py:252-378 | a route that returns to its start can be cut to one that leaves it for good |
| Fetch.SearchComplete | src/communications/DHTService.py:252-378 | if any route to a holder exists off the initial chain, the search succeeds, although every peer tries its neighbours with a growing chain |
| Fetch.SearchDecides | src/communications/DHTService.py:252-378 | a search succeeds exactly when a holder is reachable off the initial chain, from peer to peer, each among the three nearest the one before knows |
| Fetch.FetchedFrom | src/communications/DHTService.py:335-378 | a peer on the way back returns its neighbour's value and caches it from that neighbour |
| Fetch.AsksAre | src/core/DHT.py:165-172 | a peer asks exactly the peers it knows that fewer than three others it knows are nearer to the key than |
| Fetch.AsksNearestFirst | src/core/DHT.py:165-172 | it asks them nearest first, each once |
| Fetch.NearestAnswers | src/communications/DHTService.py:308-360 | a fetch at a peer without the entry returns what the nearest of the peers asked that can reach a holder off the chain returns, cached from that peer, and nothing exactly when none can |
| Fetch.FetchItem | src/communications/DHTService.py:252-378 | the recursive handler terminates, returns the value of the holder the search finds and caches it along the way; a failed fetch changes no table |
| Placement.DhtSetPlain | src/plugboard.py:1501-1643 | for every table: whether the peer keeps, copies or only passes the value, the traces it opens, the status with its exceptions, and the neighbors to try |
| Placement.KeptTables | src/plugboard.py:1525-1586 | what a store of a peer, task or file changes in the tables of a peer that owns the value, and of one that does not |
| Placement.DeviceTables | src/plugboard.py:1588-1643 | what a store of a device changes in the tables of the peer asked, and the status, branch by branch |
| Placement.DeviceRegistered | src/plugboard.py:1614-1631 | a peer that caches a device from its host is registered there |
| Placement.FirstNewIs | src/communications/DHTService.py:451-462 | the neighbor a store goes on to is new and answers, and all before it are not or do not; there is none exactly when no neighbor is |
| Placement.CacheFromHost | src/plugboard.py:1614-1631 | a peer near a device's key drops its own entry and caches the device from its host, or fails when the host does not resolve |
| Placement.FirstAnswering | src/communications/DHTService.py:451-462 | the loop ends at the first neighbor that is not on the chain and resolves, or at none when there is none |
| Placement.StoreItem | src/communications/DHTService.py:380-513 | the recursive handler terminates and computes the store for every table, with a subscription at every next hop |
| Placement.CopyAfterRemoval | src/plugboard.py:1614-1618 | putting a device into the table, taking it out and caching it leaves a cached copy, whatever was there |
| Store.NearestDespiteChain | src/core/DHT.py:244-251 | ignoring a chain of farther peers does not change which address is nearest |
| Store.GreedyHop | src/communications/DHTService.py:411-492 | each forward goes to a strictly nearer peer that is not on the chain |
| Store.StorePasses | src/communications/DHTService.py:411-513 | in any network a store ends at a peer that is itself the nearest it knows off the chain, goes on to the nearest otherwise, and fails when that does not answer |
| Store.StoreConverges | src/communications/DHTService.py:411-492 | a store succeeds at the peer it names, which is the nearest address in its own whole table and nearer than the start, and holds the stamped value |
| Store.OwnerIsGlobal | src/communications/DHTService.py:411-492 | with complete tables every start agrees on the one nearest peer |
| Store.StoreLeavesOneCopy | src/communications/DHTService.py:411-492 | a task or file store changes the data of its owner only, and no address table |
| Store.GreedyRoute | src/communications/DHTService.py:252-378 | the way of a store is a route a fetch may take |
| Store.StoreThenFetch | src/communications/DHTService.py:411-492 | a task or file stored for the first time is found by a fetch from where it was stored; what is found names its owner, and a task arrives with what was stored |
| Store.FirstStoreTraces | src/communications/DHTService.py:476-484 | after a first task or file store exactly the forwarding peers have subscribed, exactly they and the owner have serve entries, and only the owner has a copy |
| Store.StrayTraces | src/communications/DHTService.py:476-484 | peers without a copy are free of traces after a first task or file store exactly when its first peer owns it at once |
| Store.StartTables | src/plugboard.py:62-129 | freshly started peers know themselves only, and there is nothing of an entry exactly when its key is no peer's address |
| Examples.StrayAtSecond | src/communications/DHTService.py:476-484 | two peers that start and bootstrap, and a task at which such a trace is left |
| Durability.FetchSpreads | src/communications/DHTService.py:252-378 | while all copies agree, a fetch returns that value or nothing and keeps them agreeing |
| Durability.RunKeepsCopies | src/communications/DHTService.py:252-513 | whatever requests on whatever entries follow, short of another store of it, no copy of a task or file is lost or gets another value |
| Durability.ServeAddresses | src/communications/DHTService.py:252-513 | only requests on peers' addresses change what peers know of each other |
| Durability.StoredStays | src/communications/DHTService.py:380-513 | after a first store and any such requests, every fetch returns the stored value or nothing, and does return it at the owner, and, if no request was about a peer's address, wherever a copy was reachable before |
| TaskTree.FirstStoreHangs | src/communications/DHTService.py:476-484 | after a first task or file store each peer that passed it on is registered at its next hop, and the owner alone has a copy |
| TaskTree.SearchFollows | src/communications/DHTService.py:308-360 | a search whose chain does not name the way of the store follows it from the peer at which it meets it, and then cannot fail |
| TaskTree.FetchHangs | src/communications/DHTService.py:337-354 | such a fetch leaves only copies that are registered, from copy to copy, with the owner |
| TaskTree.CopiesHangOnOwner | src/plugboard.py:1368-1486 | after a first store and any run of such fetches and of requests on other tasks, files and devices, the peers reached from the owner along registrations are exactly those with a copy |
| NamedWay.DiamondCuts | src/plugboard.py:1368-1486 | a peer whose fetch names the next hop of its store and goes past it gets a copy that no copy has registered |
| Examples.CutOffPastTheWay | src/plugboard.py:1368-1486 | four peers that start and bootstrap, and a task at which that happens |
| CacheTree.CacheKeepsTree | src/plugboard.py:1323-1404 | a peer that caches a value from a holder hangs on the tree of registrations, and the owner's value stays |
| CacheTree.FetchKeepsTree | src/communications/DHTService.py:337-354 | a fetch anywhere keeps the tree and the owner's value, and returns and spreads nothing but values that copies already have |
| CacheTree.FetchOfBlank | src/communications/DHTService.py:252-378 | when no copy exists a fetch finds nothing and changes nothing |
| CacheTree.DeleteAtOwner | src/plugboard.py:1679-1724 | a deletion at the owner leaves no copy and no trace anywhere, and its address at no former holder |
| CacheTree.DeleteElsewhere | src/plugboard.py:1679-1724 | a deletion at another peer cuts off whole branches: what stays is a tree with the owner's value |
| CacheTree.OwnerLeaves | src/plugboard.py:1645-1649 | when the owner is gone and every peer registered with it deletes the entry, no copy and no trace is left anywhere |
| CacheTree.PeerHop | src/plugboard.py:1501-1530 | the next hop of a store of a peer's address is that peer |
| CacheTree.PeerStore | src/communications/DHTService.py:411-492 | such a store writes at the owner and leaves its starter with a registered cached copy |
| CacheTree.PeerStoreTree | src/communications/DHTService.py:411-492 | a store of a peer's address from any peer, whatever values the copies have, leaves a tree in which the owner and the starter have the new value and all others what they had |
| DeviceStore.StoreBelowHost | src/plugboard.py:1588-1631 | the peers a device's store reaches after its host hang their copies below the host, one below the next |
| DeviceStore.NextIsNearest | src/communications/DHTService.py:451-462 | a device goes on to the peer nearest to its key of all that are known and not visited |
| DeviceStore.DevicePasses | src/communications/DHTService.py:451-513 | a store at a peer that passes the device on ends where a store from that nearest peer does, with a subscription there |
| DeviceStore.NearHost | src/plugboard.py:1588-1612 | a host among the two nearest peers it knows becomes the root of a tree of copies of its address |
| DeviceStore.FarHost | src/core/DHT.py:253-260 | a host that is not gets a copy like others, nobody owns the entry, and nobody is registered with the host |
| DeviceStore.HostMustBeNear | src/plugboard.py:1034-1043 | registering a device makes its host the root of all copies, and a deletion at the host clears them all, exactly when the host is among the two nearest peers it knows |
| DeviceStore.NearByRivals | src/core/DHT.py:165-172 | a host whose first four bytes begin the key is among the two nearest it knows exactly when it knows fewer than two nearer peers with those bytes |
| DeviceStore.TtyHostMustBeNear | src/core/io_host.py:36-46 | the same registration of a teletype works exactly then, and always when the host knows fewer than two other peers with its first four bytes |
| Examples.FarHostFails | src/plugboard.py:1034-1043 | three peers that start and bootstrap, and a teletype at which that fails |
| Coherence.StoreRepresents | src/communications/DHTService.py:380-513 | a store of any value from any peer acts on a peer's address as on its cell, which keeps the old values possible when other peers have copies |
| Coherence.DeviceRepresents | src/plugboard.py:1588-1612 | the registration of a device by a near host does, too |
| Coherence.FetchRepresents | src/communications/DHTService.py:252-378 | a fetch at any peer changes no cell and returns a value of its cell or nothing |
| Coherence.DeleteRepresents | src/plugboard.py:1655-1724 | a deletion empties the cell at the owner and changes nothing of it elsewhere |
| Coherence.BootRepresents | src/plugboard.py:369-387 | copying an entry at a bootstrap adds to its tree |
| Coherence.ServeRepresents | src/plugboard.py:1655-1724 | every lawful request on an entry acts on the network as it does on the cell |
| Coherence.ServeApart | src/communications/DHTService.py:252-513 | a request on one entry, in any table, leaves data, cached flags, registrations and subscriptions of every other entry at every peer as they were |
| Coherence.ServeCellSteps | src/communications/DHTService.py:252-593 | what the network makes of a cell is a step of the cell alone |
| Coherence.RunRefinesCell | src/communications/DHTService.py:252-593 | over any interleaving of requests on all entries, the network keeps representing the cell of each peer's address and each device, and the cell makes a run of its own, which needs no network |
| Coherence.CellKeeps | src/communications/DHTService.py:252-593 | a cell of one value keeps it through any run without a store, or a deletion at the owner |
| Coherence.StartRepresents | src/plugboard.py:62-129 | freshly started peers represent each peer's transport, and the absence of an entry exactly when its key is no peer's address |
| Coherence.FetchAfterRun | src/communications/DHTService.py:252-378 | from start-up, after any interleaving of stores, fetches, deletions and bootstraps of any entries, a fetch of any peer's address returns a value of its cell or nothing; the latest, at the owner; and nothing, with no copy left, after a deletion at the owner |
| Coherence.OverwriteReachesAll | src/plugboard.py:1374-1380 | a store of a new value reaches every copy exactly when only its starter and the owner have one |
| Examples.StaleCopy | src/plugboard.py:1374-1380 | two peers that start and bootstrap, at which a stale copy stays |
| MonitorSelection.GetNextClosestNeighbor | src/core/DHT.py:88-99 | the nearest address not ignored, or none |
| MonitorSelection.SelectMonitor | src/plugboard.py:491-511 | the loop ends at the nearest known peer, other than itself and the lost monitor, that is live or does not resolve: with that peer, or with the assertion error; and with none exactly when there is no such peer |
| Compiler.Registry.Task | src/core/star_components.py:836-867 | a name with a colon is refused; otherwise the function is appended |
| Compiler.Registry.ConditionalTask | src/core/star_components.py:870-899 | the alternative joins its name's group, or opens one, and keeps registration order |
| Compiler.NumberPlain | src/core/star_components.py:912-919 | unconditional tasks are numbered in registration order; too many fail |
| Compiler.CompileAlts | src/core/star_components.py:977-1005 | the alternatives of a group get the next ids in order, and the dictionary of their conditions; too many fail |
| Compiler.CompileGroup | src/core/star_components.py:975-1014 | one group's alternatives, then its dispatcher, get the next ids and callables |
| Compiler.Compile | src/core/star_components.py:902-1025 | the loops compute the compiled program, or fail on an id over two bytes or an unknown start |
| Compiler.DecimalSpells | src/core/star_components.py:983-984 | the number in the name of an alternative is its position in decimal |
| CompilerLayout.AltNameInjective | src/core/star_components.py:983-984 | names of alternatives determine group and position |
| CompilerLayout.AltNamesHaveColons | src/core/star_components.py:983-984 | names of alternatives differ from all registered names, which have no colon |
| CompilerLayout.GroupsLaid | src/core/star_components.py:974-1014 | every id holds the callable of the name it was given to, and nothing is overwritten later |
| CompilerLayout.IdsAreDistinct | src/core/star_components.py:912-1025 | distinct names have distinct two-byte ids, and the names that can be targeted are exactly the registered ones |
| Collisions.IdIsLast | src/core/star_components.py:912-919 | the id of an unconditional name is the position of its last registration |
| Collisions.NamesShareIds | src/core/star_components.py:912-1014 | whatever names are repeated, no two names share an id exactly when the last registration of each unconditional name that is no group's stands below the number of distinct names, or beyond the ids of the conditional tasks |
| Collisions.CompilesWhen | src/core/star_components.py:912-1023 | compilation succeeds exactly when the registered unconditional functions, and then all ids, fit two bytes and the start is a registered name |
| Collisions.RepetitionsShareIds | src/core/star_components.py:974-1014 | names do share an id when there are repetitions, conditional tasks enough, and a last name that is no group's |
| Collisions.SharedIdRuns | src/core/star_components.py:921-951 | the id of an unconditional name runs the function first registered under it, whatever other names have that id |
| Collisions.AlternativeIsShadowed | src/core/star_components.py:974-1014 | three registrations and a group whose alternative is shadowed |
| CompilerCorrectness.PickIsFirst | src/core/star_components.py:1005-1008 | a group runs its first alternative that holds exactly when no later one repeats that condition string |
| CompilerCorrectness.RepeatedCondition | src/core/star_components.py:1005-1008 | two alternatives under one condition string, of which the second runs |
| CompilerCorrectness.PickNothing | src/core/star_components.py:962-970 | a group picks nothing exactly when none of its conditions holds |
| CompilerCorrectness.VisitsFollow | src/core/star_components.py:923-1014 | in a run of the source each function runs on what the one before sent, is the one registered for the name it sent that to, and has the checkpoint flag registered for it |
| CompilerCorrectness.ChoicesPick | src/core/star_components.py:957-972 | the dictionary the dispatcher walks chooses the alternative the source picks, or none when none holds |
| CompilerCorrectness.DeliverSame | src/core/star_components.py:925-945 | an event sent to a name reaches the task of that name with the right checkpoint flag, and fails on either side together |
| CompilerCorrectness.PlainStep | src/core/star_components.py:923-950 | an unconditional task runs the same function on the same data on either side |
| CompilerCorrectness.GroupStep | src/core/star_components.py:957-1014 | when no condition of a group holds both sides wait, and otherwise the compiled run takes the dispatcher's step and the alternative's |
| CompilerCorrectness.SourceRunsCompile | src/core/star_components.py:902-1025 | every run of the source has a compiled run with the same visits, dispatcher steps erased, that halts, crashes or goes on where it does |
| CompilerCorrectness.CompiledRunsHaveSources | src/core/star_components.py:902-1025 | every compiled run has a source run with the same visits, that ends where it does or just before the alternative a dispatcher has chosen |
| CompilerCorrectness.StartMatches | src/core/star_components.py:1020-1023 | the two start in matching configurations |
| CompilerCorrectness.AgreesUntilAltKills | src/core/star_components.py:989-999 | where any function may end the process, source and compiled run agree on visits and ending exactly as long as no alternative run so far returned no target |
| CompilerCorrectness.EndingCrashes | src/core/star_components.py:989-999 | a program whose source run ends and whose compiled run crashes |
| Events.EncodingRoundTrip | src/core/star_components.py:436-514 | encoding and decoding erases exactly the origins below the top, all along the previous events, and repeating it changes nothing more |
| Events.AncestorsSurvive | src/core/star_components.py:436-514 | no ancestor is lost in encoding and each arrives with its own fields |
| Events.NoTargetArrives | src/core/star_components.py:436-514 | an event without a target arrives for the task of zeros, any other for its own, with all its fields |
| Events.NodeEngine.ImportTask | src/core/star_engine.py:62-75 | a task is hosted once, with its first monitor |
| Events.NodeEngine.UpdateMonitor | src/core/star_engine.py:147-151 | a hosted task gets the new monitor; nothing else changes |
| Events.NodeEngine.RecvEvent | src/core/star_engine.py:93-145 | an event for a hosted task with units left takes one and is queued with that task's monitor, any other goes back to the network |
| Events.EnteredAs | src/core/star_engine.py:138-145 | an event is queued with the monitor and otherwise as it came |
| Events.MonitorIsLast | src/core/star_engine.py:147-151 | over any sequence of signals a hosted task has the monitor it was last told of, or its first one |
| Events.HostedFirst | src/core/star_engine.py:62-75 | a task becomes hosted by the first request for it, with the monitor given there and 1000 units |
| Events.NodeEngine.ExecuteNext | src/core/star_engine.py:180-299 | one event is run and at most one sent, addressed within the process and with its two ancestors and the nonce |
| Events.OutputSays | src/core/star_engine.py:236-299 | what is sent goes to the task named, within the process, with what the callable replied |
| Events.AncestorsWhole | src/core/star_engine.py:185-199 | its two ancestors are whole events, of which encoding has erased no more than nested origins |
| Events.UnitsRunOut | src/core/star_engine.py:62-145 | over any sequence of imports, monitor updates and events, a hosted task takes as many events as it has units, and then none |
| Events.HopDescends | src/core/star_engine.py:185-199 | what arrives after a hop names the ancestors its sender computed |
| Events.LineageHolds | src/core/star_engine.py:185-299 | in any process, whatever its checkpoint flags, each event's origin is the latest earlier checkpoint or the start, its previous the one before that, and its nonce the start's |
| Execution.CompiledFits | src/core/star_components.py:912-1014 | every id of a compiled program, and every id a dispatcher may choose, fits two bytes |
| Execution.HostedIsProcess | src/core/star_engine.py:180-299 | the events of a process that hosts a program are a process in the sense of the lineage |
| Execution.HostedVisits | src/core/star_engine.py:180-299 | the first j of them run the user functions that the program runs in j steps |
| Execution.RunIsHosted | src/core/star_engine.py:180-299 | every run of the program is one of a hosted process |
| Execution.SourceExecutes | src/core/star_components.py:902-1025 | whatever a source does in k steps, a process that hosts its compilation does, with the same functions on the same data, and goes on or ends as the source does |
| Execution.ProcessHasSource | src/core/star_components.py:902-1025 | whatever such a process runs, a run of the source does |
| Journal.MonitorService.AddProcess | src/TaskMonitor.py:18-27 | a process gets an empty journal once |
| Journal.MonitorService.AddCheckpoint | src/TaskMonitor.py:29-64 | the event is filed under the task of its origin, of the process and peer it belongs to, or refused when these are unknown |
| Journal.MonitorService.RemoveCheckpoint | src/TaskMonitor.py:66-107 | exactly the entry under the task of the origin, and the event's in the reverse table, are removed, and it is reported whether there was one |
| Journal.MonitorService.Checkpoint | src/communications/TaskService.py:124-153 | announcing an event files it if it is a checkpoint and then clears the entry of the checkpoint before its origin |
| Journal.FiledWhere | src/communications/TaskService.py:124-153 | a checkpoint is filed under the task it descends from, and the entry of the checkpoint before that is cleared only if that had a monitor |
| Journal.ProcessesApart | src/core/star_components.py:306-320 | two tasks share a journal exactly when they have user and process in common |
| Journal.KeysApart | src/core/star_components.py:471-482 | two events share an entry of the reverse table exactly when target and nonce agree |
| Journal.OneProcess | src/core/star_components.py:306-320 | all events of a process carry the same process part of the id, so they share one journal |
| Journal.WatchProcess | src/TaskMonitor.py:18-107 | a monitor told of a process's events in order holds the journal of the run, and no other journal changes |
| Journal.FiledCheckpoint | src/plugboard.py:772-870 | within a run, a checkpoint is filed under the checkpoint before it and clears the entry under the one before that |
| Journal.LogIsExpected | src/TaskMonitor.py:29-122 | after any run the journal is the start entry and at most the latest checkpoint |
| Journal.RecoveryReplaysLatest | src/plugboard.py:739-791 | recovery over all tasks replays exactly the latest checkpoint event, if and only if it is not the start and the two checkpoints before it are for different tasks, and otherwise nothing |
| Journal.RecallAll | src/plugboard.py:739-752 | recalling for all tasks of a process finds exactly the journal's entries under them |
| Journal.WatchAndRecover | src/plugboard.py:739-791 | a monitor that was told of a process's events and loses its owner recalls the latest checkpoint event, exactly under the same condition |
| Journal.FirstCheckpointIsLost | src/communications/TaskService.py:138-153 | the first checkpoint after the start leaves the journal with the start entry only |
| Journal.FirstLostSecondReplayed | src/communications/TaskService.py:138-153 | a start event and two checkpoint events at which the first is lost and the second replayed |
| Files.Overwrite | src/core/File.py:414-419 | a write puts its bytes at the position, keeps all others, and fills a gap with zeros |
| Files.Slice | src/core/File.py:407-412 | a read returns the bytes at the position, as many as asked for and present |
| Files.Replica.FetchFile | src/core/File.py:54-95 | an unused file is granted a new handle for opening only, a used one only to its handle |
| Files.Replica.OpenObject | src/core/File.py:384-405 | opening an open file keeps its position |
| Files.Replica.ReadObject | src/core/File.py:407-412 | a read moves the position by what it returned, and fails on a closed file |
| Files.Replica.WriteObject | src/core/File.py:414-419 | a write moves the position past the bytes written, and fails on a closed file |
| Files.Replica.SeekObject | src/core/File.py:421-426 | a seek moves the position relative to start, position or end, and fails on another mode or a closed file (`Files.SeekThenRead` and `Files.SeekThenWrite` say in bytes where it leads) |
| Files.Replica.CloseHandle | src/core/File.py:97-116 | only the handle in use can be given back |
| Files.Replica.Follow | src/communications/FileService.py:344-682 | a forwarded request acts on the monitor's copy under the owner's handle |
| Files.Replica.FetchContents | src/core/File.py:158-173 | the bytes from the position to the end are shipped and the object is closed |
| Files.Replica.SetContents | src/core/File.py:442-446 | the file holds exactly the given bytes and is closed |
| Files.HandleRequest | src/communications/FileService.py:344-682 | owner and monitor after a request, and its status and data, for every kind of request and handle |
| Files.StatusOf | src/communications/FileService.py:344-682 | when a request is answered, refused for its handle, or fails at the file object |
| Files.OpenAndClose | src/core/File.py:54-116 | opening gives an unused file a handle of random bytes and process, at its start, and leaves a used one as it is; closing takes the handle back |
| Files.SeekThenRead | src/core/File.py:407-426 | after a seek to an offset from start, position or end a read of everything returns the bytes from there on |
| Files.SeekThenWrite | src/core/File.py:414-426 | a write after a seek to the end appends |
| Files.ReadInParts | src/core/File.py:407-412 | a read in two parts is a read at once, and returns the bytes at the position |
| Files.WriteInParts | src/core/File.py:414-419 | a write in two parts is a write at once |
| Files.MonitorFollows | src/communications/FileService.py:344-682 | whatever its copy is, the monitor ignores requests that did not go through, and executes all others for itself |
| Files.RequestKeepsAgreement | src/communications/FileService.py:344-682 | agreeing copies stay agreeing, a refused request changes neither, and a handle is out exactly when the object is open |
| Files.ReplicasAgree | src/communications/FileService.py:344-682 | the same over every sequence of requests with any handles |
| Files.HandleGuards | src/core/File.py:54-95 | only the handle's holder gets through, a file in use is opened by nobody else, and contents change only by its holder's writes |
| Files.WriteThenRead | src/core/File.py:407-426 | writing, seeking back and reading returns what was written |
| Files.ReplaceMonitor | src/plugboard.py:568-602 | the owner's and the new monitor's copy after a monitor is lost |
| Files.FailOver | src/plugboard.py:715-735 | the new owner's copy after the owner is lost, and the copy of its monitor |
| Files.ShippedWhole | src/core/File.py:158-173 | the whole file is shipped exactly when it is closed, at its start, or empty |
| Files.ReplacementAgrees | src/plugboard.py:537-604 | replacing the monitor re-establishes agreement exactly when the file is not in use |
| Files.FailoverRestores | src/plugboard.py:715-735 | the new owner has the lost owner's file exactly when it was not in use, and its contents exactly when they were shipped whole |
| Files.FailoverAfterRun | src/plugboard.py:715-735 | after any requests that leave the file closed the monitor restores what one file executing them holds |
| Files.FailoverLeavesMonitorEmpty | src/plugboard.py:572-590 | new owner and new monitor have the same bytes exactly when none were shipped |
| Files.FailoverOfClosedFile | src/plugboard.py:572-590 | a closed file of one byte at which they differ |
| Files.StaysInStep | src/plugboard.py:537-604 | over any run of requests and losses of monitors the copies stay in step exactly when every loss finds the file closed, at its start, or empty |
| Files.LossWhileOpen | src/plugboard.py:537-604 | a file opened and read by one byte, after which the loss of its monitor breaks the agreement |
| Files.FailoverAfterLosses | src/plugboard.py:715-735 | after such a run that leaves the file closed the monitor restores the owner's file |
| Keys.AndModeMask | src/core/File.py:289-312 | the mode mask keeps the low six bits |
| Keys.AndModeBits | src/core/File.py:314-322 | the complement of the mode mask keeps the high two bits |
| Keys.OrMode | src/core/File.py:299-311 | setting the mode bits on cleared ones is a sum |
| Keys.NameFits | src/util/util.py:45-62 | a name's code is below 28^6, which is below 2^29 |
| Keys.OneCharacter | src/util/util.py:45-62 | a letter alone is its place in the alphabet from 2 on, in either case, a slash 1, and anything else 0 |
| Keys.OneMoreCharacter | src/util/util.py:45-62 | one more character adds that times the power of 28 of the characters that counted before |
| Keys.CodecRoundTrip | src/util/util.py:45-81 | decompressing undoes compressing up to case and dropped characters |
| Keys.CompressStrToBytes | src/util/util.py:45-62 | the loops compute the base-28 code of the filtered name, padded; a long name fails |
| Keys.DecompressBytesToStr | src/util/util.py:65-81 | the loops spell the six base-28 digits |
| Keys.SlashDropped | src/core/File.py:251-256 | one leading slash of a path does not count, and at most six characters may follow |
| Keys.KeyBytes | src/core/File.py:289-312 | a key is user and name with the kind's bits in place of the name's two highest |
| Keys.KeyRead | src/core/File.py:314-338 | reading a key back gives kind, user and the name without those bits |
| Keys.CaseIgnored | src/util/util.py:49 | names that differ only in case have the same normal form and code |
| Keys.CompressedEqual | src/util/util.py:45-62 | compressed names are equal exactly when the normal names are |
| Keys.FileNameLow | src/util/util.py:45-62 | the mode mask takes nothing from a compressed name |
| Keys.FileKeysEqual | src/core/File.py:251-312 | two files share a key exactly when user and normal name agree |
| Keys.ReadFileKey | src/core/File.py:314-338 | the key of a file is read back as the file of its normal name |
| Keys.FileKeyRoundTrip | src/core/File.py:250-338 | a file's key leads back to itself exactly when the normal name is not empty and has no leading slash |
| Keys.DigitNameIsLost | src/core/File.py:314-338 | a file name whose key is invalid when read back |
| Keys.DeviceKeysEqual | src/core/File.py:259-311 | two devices of a host share a key exactly when their numbers agree but for bits 6 and 7 |
| Keys.DeviceKeyRoundTrip | src/core/File.py:314-338 | a device key gives back the number with bits 6 and 7 cleared, so the device itself exactly when they are clear |
| Keys.KindsDisjoint | src/core/File.py:299-311 | no file key is a device key |
| Devices.IOHost.OpenDeviceConnection | src/core/io_host.py:204-223 | a free device goes to its first opener, who may open again; others find it busy; an unlisted one is detached |
| Devices.IOHost.CloseDevice | src/core/io_host.py:225-233 | only the holder frees the device |
| Devices.IOHost.AllocateDevice | src/core/io_host.py:235-252 | a new device with empty stream under the next number's key, which is a new key for the first 64 |
| Devices.IOHost.DeallocateDevice | src/core/io_host.py:254-261 | the device is marked done and leaves both tables; an unlisted one fails |
| Devices.IOHost.ReadDevice | src/core/io_host.py:271-305 | the dequeuing loop and the cut, with every status; other devices are untouched |
| Devices.IOHost.WriteDevice | src/core/io_host.py:307-318 | the holder's data joins the output queue unless the device is done |
| Devices.IOHost.ReadAvailable | src/core/io_host.py:320-335 | nothing is announced to others or after hang-up, and pending bytes are always announced to the holder |
| Devices.TtyKeysEqual | src/core/io_host.py:235-252 | two numbers of a host collide exactly when they agree but for bits 6 and 7 |
| Devices.TtyKeyBytes | src/core/io_host.py:235-252 | the bytes of a teletype's key: the first four of its host and its number, whose last byte gives up its two high bits |
| Devices.SixtyFifthCollides | src/core/io_host.py:235-252 | the 65th device of any host has the key of the first |
| Devices.FirstKeysAreNew | src/core/io_host.py:235-252 | the first 64 devices get pairwise distinct keys |
| Devices.DrainKeepsBytes | src/core/io_host.py:279-288 | dequeuing moves bytes without loss and stops only with more than asked for |
| Devices.ReadTakesPrefix | src/core/io_host.py:271-305 | a holder's read of length n takes min(n, available) bytes off the front, -1 takes all, another process takes none |
| Devices.StreamConserved | src/core/io_host.py:204-305 | over any interleaving of arrivals, reads of any length by anyone, opens, closes and hang-ups, bytes returned and pending are the bytes that were there and arrived, in order |
| Devices.OthersCannotInterfere | src/core/io_host.py:204-305 | until the holder closes, the run is the same without whatever the others attempted |
| Devices.UnopenedGivesNothing | src/core/io_host.py:204-335 | a device that nobody has opened gives no bytes and stays free, whatever is attempted on it short of opening it |
| Devices.HolderReceivesAll | src/core/io_host.py:204-305 | a holder that ends with a read of everything has received exactly what was pending and arrived |
| LineEditor.Console.Receive | src/core/io_host.py:485-524 | one read of characters is processed one by one, the rest dropped after a hang-up |
| LineEditor.Console.Enter | src/core/io_host.py:487-509 | a carriage return hangs up, or submits to the kernel or to the device and clears the line |
| LineEditor.Console.Key | src/core/io_host.py:510-522 | line feeds and leading spaces are ignored, a delete takes one byte, all else is appended |
| LineEditor.Console.ExitKernel | src/core/io_host.py:366-368 | the console goes to the device, which gets a line feed |
| LineEditor.Console.ReaderProcessing | src/core/io_host.py:476-531 | the reading loop ends done, having processed the text up to the first empty read or hang-up |
| LineEditor.TypedConcat | src/core/io_host.py:485-524 | processing text in two parts is processing it at once |
| LineEditor.PlainTyped | src/core/io_host.py:519-522 | plain text joins the line and is echoed |
| LineEditor.Skipped | src/core/io_host.py:510-513 | line feeds, and spaces before anything else of a line, leave no trace |
| LineEditor.Deleted | src/core/io_host.py:514-518 | a delete takes the last byte of the line, if there is one |
| LineEditor.Returned | src/core/io_host.py:487-509 | a carriage return submits the line and starts a new one; DETACH hangs up, and a line that begins with kernel, and all after it, go to the kernel |
| LineEditor.Utf8Shape | src/core/io_host.py:519-522 | how many bytes a character takes, and what each of them carries |
| LineEditor.ChunksDoNotMatter | src/core/io_host.py:476-526 | any two splits of the same text into non-empty reads give the same queues and state |
| LineEditor.EachReturnSubmitsOnce | src/core/io_host.py:487-509 | each carriage return before the hang-up submits its edited line once, in order, to the device until the kernel is on and then to the kernel |
| LineEditor.Utf8RoundTrip | src/core/io_host.py:519-522 | the bytes appended for a character determine it |
| LineEditor.BackspaceUndoes | src/core/io_host.py:514-522 | one delete undoes a typed character exactly when it is ASCII; as many as it has bytes always do |
| KeepAlive.Channel.Heartbeat | src/KeepAlive.py:75-89 | an answer lowers the count, a failure raises it and closes the channel beyond the limit |
| KeepAlive.Channel.KillUpdate | src/KeepAlive.py:91-95 | a failed use counts as a failed heartbeat |
| KeepAlive.Channel.Update | src/KeepAlive.py:97-102 | a success marks the channel connected and lowers a positive count |
| KeepAlive.Channel.AddCallback | src/KeepAlive.py:46-49 | one callback more, nothing else |
| KeepAlive.Channel.Verify | src/KeepAlive.py:66-73 | the channel is connected exactly when the ping was answered, nothing else changes |
| KeepAlive.Channel.MarkOffline | src/KeepAlive.py:104-116 | the callbacks are called in order, once, and never on a closed channel |
| KeepAlive.CountIsWorstSuffix | src/KeepAlive.py:75-102 | the count is the largest failures minus successes over all suffixes of the history |
| KeepAlive.FourthFailureCloses | src/KeepAlive.py:75-95 | a new channel counts its failures, and closes at the fourth in a row |
| KeepAlive.UpdateIsSuccess | src/KeepAlive.py:97-102 | a success outside a heartbeat, which skips the check, has the effect of one inside |
| KeepAlive.ClosedByAWindow | src/KeepAlive.py:75-116 | the channel closes exactly when over some stretch failures exceed successes by more than the limit |
| KeepAlive.ClosedForGood | src/KeepAlive.py:104-116 | closing is permanent and nothing is called afterwards |
| KeepAlive.CallbacksFireOnce | src/KeepAlive.py:104-116 | exactly the callbacks registered by the closing are called, once each, in order |
| KeepAlive.ConnectedWhen | src/KeepAlive.py:97-107 | a channel reports itself connected exactly when it is not closed or something succeeded after it closed |
| KeepAlive.ClosedYetConnected | src/KeepAlive.py:97-107 | four failures and a success, after which the channel is closed and reports itself connected |

## Left out

- Coherence.RunRefinesCell: is about peers' addresses and devices, because deleting a task or a file is a no-op in the source (`Durability.StoredStays` speaks of those). A store of a peer's address is about a peer that answers and has not visited it yet, as every such store starts with an empty chain; a device is registered once, by a host near enough (`DeviceStore.HostMustBeNear` says what happens otherwise).
- Store.FirstStoreTraces: is about keys that are no peer's address; a peer serves the task, file and device under its own address from its start on.
- TaskTree.CopiesHangOnOwner: is about runs in which peers learn no new addresses, because the way of the store is that of the tables then.
- Journal.RecoveryReplaysLatest: is about a process with one owner and one monitor; with several owners a sender without a monitor entry drops its record.
- Files.HandleRequest: is about requests that find a live monitor; the loops that wait for a new one are left out.
- LineEditor.ChunksDoNotMatter: is about text typed while nobody switches the kernel off, which other parts of the console can do between two reads.
- Keys.CodecRoundTrip: is about ASCII names; upper-casing others can change their length. Directory keys are invalid here because the source cannot read them back.
- Keys of different tables share one map tagged with the table, and one address set stands for the four, which every handler updates together; discovery rounds, and the messages of a bootstrap around the entries it copies, are left out.
- What the owner of a stored task or file does with it at once: sending it to the engine, hosting it, asking for a monitor.
- Nested transport lookups, which are themselves fetches that fill tables: a peer either resolves or does not, throughout a run.
- Concurrency inside one handler, and remote calls that time out half way: handlers are atomic.
- `seen_peers`, keep-alive registrations made while storing and fetching, and logging.
- `dht_get` and `dht_set`, which wrap the handlers in a call to the peer itself; `DHT.clear_cache`, `DHT.get_random_key`, and update requests, which are stubs.
- The reverse map of the journal beyond its effect on removal: recall never reads it.
- The thread pool of the engine; events run one after the other.
- System (await) events, and `set_target` with a task object outside a dispatcher.
- Serialised callables and the runtime data of tasks; a user function is a function of the event's data.
- Several files in one manager: requests touch only their own key's entries, and the model follows one key.
- `TellFile`, file deletion, base32 paths on disk, and seek modes beyond the three of POSIX.
- Formatting and parsing of a device's number in its path.
- Telnet greeting, console output, and the kernel's side of its queues.
- `KeepAlive_Channel.callback_loop` and the other wall-clock parts of keep-alive, including pings received from peers.
