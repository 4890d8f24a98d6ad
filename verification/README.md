# The ducati daemon, modelled

Ducati's daemon gives containers addresses on an overlay network. It keeps four pieces of state that have to agree
over long runs: the IP reservations, the records in the datastore, the sandboxes (network namespaces with their
links) and the monitors that answer neighbour misses. This project models how they change and proves what they keep.

`dafny verify dfyconfig.toml` checks everything. The modules, from the bottom up:

- **Addresses.** `Ipv4` has addresses as bytes (`net.IP`, `net.IPNet.Contains`, `nextIP`) and as numbers, and proves
  the two views equal. `AddressPool` says what one network's gateway and reservations become in a call, as functions,
  and what that guarantees; `MemoryStore` and `Allocator` are the mutable store and allocator, proved to do what those
  functions say. `AllocatorRuns` interleaves any number of calls, one access to shared state at a time; `AloneRuns` ties
  its steps to the specification.
- **Requests.** `Cni` is Add and Del over allocator, container and datastore, as functions and as a mutable
  controller. `CniRuns` interleaves any number of Add and Del requests on top of `AllocatorRuns`.
- **Sandboxes.** `Host` is what the daemon acts on: links, namespace files, the tables of sandboxes and monitors.
  `Commands` is the command language and its interpreter, `Container` the command trees of Setup and Delete, `Daemon`
  the mutable daemon, proved to do what those functions say and to keep what the results say. The results are in
  `SandboxSafety`, `RepositoryRuns`, `SetupEffects`, `SetupDelete`, `SetupSucceeds`, `Bridges`, `Sparing`, `Stranded`
  and `Lost`.
  `Naming` has the names made from a network's VNI.
- **Monitors and locks.** `Misses` has the filter, the resolver and the inserter's entries, `MonitorRuns` the
  goroutines and channels, `Watcher` the mutable table of done channels, `Locks` the mutexes of all of it, and
  `Exclusion` what they guard.

What the model assumes:

- The kernel: link names are unique in a namespace, deleting one end of a veth pair deletes the other, deleting a
  bridge releases its slaves, moving a link takes it down and flushes it, look-ups of links answer truthfully, and a
  namespace's links (with the far ends of its veths) are gone once its file is unmounted and removed.
- Failure: every call that changes something outside the daemon may fail. In `Host` a plan, a sequence of truth
  values, says which of the coming calls do; the results hold for every plan.
- Concurrency: steps are sequentially consistent. Go-level data races are not modelled.
- Libraries: SHA-1 is any function to 20 bytes, base32 any function to 32 characters, and the conversions between
  text and hardware or IP addresses in the resolver are any functions.

Where the code does not do what one might expect of it, the model follows the code and says when it does and what
happens otherwise, mostly with an input beside it: a failed Add keeps its address (`Cni.FailedAddKeepsItsAddress`,
`Cni.FailedAddHoldsSecondAddress`); cleanup does not tolerate a sandbox torn down before
(`SetupDelete.CleanupSucceedsExactly`, `Stranded.CleanupTriedAgain`); a network whose sandbox could not be made or
cleaned up may be lost for good (`Lost.LostExactly`, `Lost.LostToFailedMount`, `Lost.StrandedByFailedVxlan`); a bridge
half made is never finished (`Bridges.SetupCompletesBridge`, `Lost.BridgeNeverFinished`); a monitor registered twice
leaves the first running (`MonitorRuns.OverwrittenIsNeverStopped`, `MonitorRuns.TwoStartsOneStop`); a stopped monitor's
resolver and inserter never end (`MonitorRuns.ShutDownForGood`, `MonitorRuns.StopLeavesTwoWaiting`); the start-up check
lets through a subnet wider than the overlay (`AddressPool.OverlayHoldsExactly`,
`AddressPool.StartUpCheckMissesWideSubnets`); the reloader takes any file in the sandbox directory for a sandbox
(`Naming.ReloaderTakesForeignFiles`); and links are moved into a sandbox, and sandboxes taken down, whoever holds the
sandbox's lock (`Exclusion.CallsAreGuarded`, `Exclusion.LinkMovedIntoLockedSandbox`).

## Model

| member | source | states |
|---|---|---|
| Ipv4.NextIPExact | ipam/allocator.go:169-173 | The byte-level successor is the number plus one in four bytes exactly when that number is at least 2^24 and below 2^32; otherwise it is no IPv4 address of any form |
| Ipv4.MaskedEqualIsShift | ipam/allocator.go:90-92 | Comparing two addresses byte by byte under a CIDR mask, of any length, is comparing the leading bits of the two numbers |
| Ipv4.ContainsIsInterval | ipam/allocator.go:90-92 | The mask comparison that ends the scan is membership in one interval of numbers, wherever in the block the configured base lies |
| Ipv4.ToStringInjective | ipam/memory_store.go:24-30 | The text under which the store keeps an address tells any two addresses apart |
| Ipv4.ToStringSpells | ipam/memory_store.go:24-30 | The text of an address is its four bytes in order, each as its one decimal number, with dots between |
| AddressPool.ScanAdvance | ipam/allocator.go:88-97 | One turn of the loop either leaves the subnet or stands one number further with strictly less of the subnet left, so the scan ends and never wraps |
| AddressPool.LeastFreeFinds | ipam/allocator.go:88-107 | The search over numbers finds the least free one, or there is none |
| AddressPool.AllocateIsFirstFit | ipam/allocator.go:66-119 | An ID not on the network gets the least address above the base that is in the subnet, not the gateway and not reserved, with the subnet's prefix length, the configured routes and the gateway that was set, or else the address after the base; it is refused exactly when there is none; nothing else is reserved |
| AddressPool.AllocateByAddresses | ipam/allocator.go:66-119 | The same of addresses as bytes: what is handed out is in the subnet, above the base and not taken, all between are taken; and a call is refused exactly when every address of the subnet above the base is taken or the base's successor has a zero first octet |
| AddressPool.AllocateThenRelease | ipam/allocator.go:66-133 | Releasing after a successful allocation restores the reservations exactly |
| AddressPool.AllocateKeeps | ipam/allocator.go:66-119 | Allocating keeps every reservation in the subnet above the base and off the gateway, and at most one address per ID |
| AddressPool.Capacity | ipam/allocator.go:88-107 | Live reservations never exceed the addresses above the base that the scan reaches, less the gateway if it is one of them |
| AddressPool.SequentialRuns | ipam/allocator.go:66-167 | After every sequence of calls, a network's gateway and reservations are what its own calls alone would have made them, each ID holds at most one address on it, and the reservations never exceed the addresses above the base, less the gateway if it is one of them |
| AddressPool.OverlayHoldsExactly | cmd/ducatid/main.go:57-62 | Given the start-up check, all addresses that can be reserved, so without the gateway, lie in the overlay exactly when the last of them does, which a local prefix at least as long as the overlay's ensures |
| AddressPool.StartUpCheckMissesWideSubnets | cmd/ducatid/main.go:60-62 | Without it: base 10.0.0.254/16 passes the check against overlay 10.0.0.0/24, and the first address handed out is 10.0.1.0, outside the overlay |
| MemoryStore.InMemoryStore.Reserve | ipam/memory_store.go:20-32 | For an address of any form, reserves its text for the ID exactly when that text is not taken, and changes nothing otherwise |
| MemoryStore.InMemoryStore.ReleaseByID | ipam/memory_store.go:34-45 | Removes all of the ID's addresses and nobody else's |
| MemoryStore.InMemoryStore.Contains | ipam/memory_store.go:47-54 | Finds an ID exactly when it holds some address |
| Allocator.Scan | ipam/allocator.go:88-107 | The loop over bytes, reserving as it goes, reserves the least free number of the specification or finds none, and terminates; it ends in the store's error exactly when the store returns one on an address the scan tries, and then nothing is reserved |
| Allocator.Allocator.GetConfig | ipam/allocator.go:135-150 | Returns the network's one configuration, made fresh on first use, or the factory's error exactly when the first use meets one; disturbs no network's gateway or reservations |
| Allocator.Allocator.GetStore | ipam/allocator.go:152-167 | Returns the network's one store, made fresh on first use, or the factory's error exactly when the first use meets one; disturbs no network's gateway or reservations |
| Allocator.Allocator.AllocateIP | ipam/allocator.go:66-119 | Does to its network what the specification says, unless a factory or the store returns an error: exactly then that error comes back, a factory's with nothing changed, a store's with at most the gateway set; a lease has an address of the subnet, its prefix length, the network's gateway and the configured routes; no other network changes |
| Allocator.Allocator.ReleaseIP | ipam/allocator.go:121-133 | Does to its network what the specification says, or nothing where the factory or the store returns an error; no other network changes |
| AllocatorRuns.ReservationsInRange | ipam/allocator.go:77-107 | In every interleaving: every reservation is in range, no network with reservations lacks a gateway, a gateway that is set is the configured or computed one, and it is not reserved |
| AllocatorRuns.ReservationsLieInOverlay | cmd/ducatid/main.go:57-62 | In every interleaving every reserved address lies in the overlay, if the overlay passed the start-up check and the local prefix is at least as long or the last address that can be reserved lies in it |
| AllocatorRuns.GatewayNeverChanges | ipam/allocator.go:81-86 | In every interleaving a gateway, once set, is the same at every later point |
| AllocatorRuns.ReturnedStaysReserved | ipam/allocator.go:99-107 | In every interleaving an address returned to an ID stays reserved under that ID until a release of that ID |
| AllocatorRuns.NoAddressHeldTwice | ipam/memory_store.go:20-32 | In every interleaving two calls that got the same address, neither released since, are one and the same call |
| AllocatorRuns.ReservationsFit | ipam/allocator.go:88-107 | In every interleaving a network's reservations never exceed the addresses above the base, less the gateway if it is one of them |
| AllocatorRuns.ExhaustionIsHonest | ipam/allocator.go:88-94 | In every interleaving a call that gives up for want of an address is right: every address that can be reserved was reserved at some point of that call |
| AloneRuns.UninterruptedAllocate | ipam/allocator.go:66-119 | From every state an interleaving comes to, an AllocateIP that runs on uninterrupted returns and does to its network what the specification says, result included, and to no other network anything |
| AloneRuns.UninterruptedRelease | ipam/allocator.go:121-133 | The same of a ReleaseIP |
| CniRuns.RecordsAreBacked | cni/cni_add.go:26-63 | In every interleaving of Add and Del requests that do not overlap for one ID, with any step failing, every record made since boot is backed by a live reservation of exactly its address, under its ID, on its network |
| CniRuns.RecordsNeverShare | cni/cni_add.go:26-63 | Two such records on one network never share an address |
| CniRuns.OneAddressPerContainer | ipam/allocator.go:77-79 | In those interleavings an ID holds at most one address on each network |
| CniRuns.RequestsRunTheAllocator | cni/cni_del.go:31-61 | The allocator inside a run of requests is the allocator of a run of its own calls, so what holds of those holds here |
| CniRuns.AddRecords | cni/cni_add.go:37-60 | An Add whose setup succeeds and whose record is then inserted adds, whatever other requests do in between, one record: its ID, its network, the address it was given, and the hardware address, host, sandbox and app of its setup |
| CniRuns.DelReleases | cni/cni_del.go:31-61 | A Del that has read, torn down and deleted goes on, whatever other requests do in between, to release the ID's addresses on the network that the record named |
| Cni.FailedAddKeepsItsAddress | cni/cni_add.go:37-60 | A failed Add adds no record; if allocation failed nothing outside the gateway changed; otherwise exactly one new reservation, under its ID, is left behind |
| Cni.FailedAddHoldsSecondAddress | cni/cni_add.go:52-55 | At one input: on subnet 10.0.0.0/24 an Add whose container namespace cannot be opened leaves 10.0.0.2 reserved for its ID and no record |
| Cni.AddThenDelLeavesNoTrace | cni/cni_del.go:31-61 | From any state that keeps the safety invariant and has no sandbox for the network, a successful Add followed by a successful Del restores reservations, records, links, namespace files, sandboxes and monitors exactly |
| Cni.Controller.AddContainer | cni/cni_add.go:26-63 | The controller over the mutable allocator, daemon and datastore does what the specification says, on the network of the payload and to no other network's reservations, unless a factory or the store returns an error to its allocation: exactly then that error comes back, with at most the gateway set; wherever it stops, records that were all backed by reservations stay so and the sandboxes stay safe; on success the record has the payload's ID, app and space (or else the default network), the text of the leased address, the hardware address and the host and the network's sandbox; the address was free and is reserved; the lease has the configured prefix, routes and gateway; and the container's link is up with that address and those routes, its pair's other end in the sandbox |
| Cni.Controller.DelContainer | cni/cni_del.go:31-61 | The same for Del, on the network that the record names and no other, where a release that fails comes after the record is gone and keeps the address; once the container is taken down its link is gone, and its network's sandbox is registered still exactly if it was and a veth is in it; on success the container has no record and no address on that network |
| Cni.Controller.RecordsAnswer | watcher/resolver.go:29-64 | While all records are backed by reservations and name the sandboxes of their networks, which Add and Del keep, a record answers every miss for its address in its sandbox with its hardware address and its host, in whatever order the store lists its records, where networks have different VNIs |
| Cni.Datastore.Create | store/store.go:58-77 | Inserts a record exactly when the ID has none and the call does not fail |
| Cni.Datastore.Delete | store/store.go:102-118 | Deletes a record exactly when the ID has one and the call does not fail |
| Commands.GroupReportsFirstFailure | executor/commands/commands.go:17-35 | A group that fails reports the index of its first failing member and that member's cause; all members before it succeeded, and the state is the one it left, so none after it ran |
| Commands.FlattenPreserves | executor/commands/commands.go:11-29 | Splicing nested groups, at every depth and under conditions and namespaces, preserves the final state and success or failure of every command tree |
| Commands.FlattenIsFlat | executor/commands/commands.go:11-29 | The flattened tree has no group directly in a group |
| Container.AddRoutes | container/command_builder.go:66-83 | The loop makes one route command per route, in order, to the route's destination and through the route's own gateway, or the lease's if it has none |
| SetupEffects.RoutesEffect | container/command_builder.go:66-83 | Adding routes that all succeed appends each, in order, with its destination and its own gateway or else the lease's, to the one link and changes nothing else |
| SetupEffects.VethTreeEffect | container/command_builder.go:85-119 | When it succeeds, exactly the two ends of one new pair have appeared: one in the container, up, with the address and routes, one in the sandbox; neither name was taken |
| SetupEffects.BridgeTreeEffect | container/command_builder.go:143-164 | When it succeeds, the vxlan link and the sandbox end are up and on one bridge that exists in the sandbox, whether or not it was there before; no link outside the sandbox has changed and none has gone |
| SetupEffects.SetupEstablishes | container/creator.go:57-106 | Whenever Setup succeeds, from any state: vxlan link and sandbox end are up in the sandbox and on the same bridge, the container end of the same pair is up and carries exactly the leased address and, in order, the routes, each through its own gateway or else the lease's; the sandbox is registered and monitored |
| Bridges.SetupCompletesBridge | container/command_builder.go:130-156 | A Setup that succeeds leaves the bridge up, with the gateway's address and holding dns0, if and only if there was no bridge of that name before or it was so already; one half made by an earlier failure is left as it is |
| Bridges.FirstSetupEquips | container/command_builder.go:19-42 | A network's first Setup that succeeds leaves in its sandbox a vxlan link of its VNI, up, a dns0 link, up, with the configured DNS address, and the DNS server running |
| SetupSucceeds.SetupSucceedsExactly | container/creator.go:57-106 | With no call failing, Setup succeeds if and only if: for a network's first container, the sandbox file and every link name it makes are free, the two ends have different names and no two routes are the same; for a further one, the vxlan link is in a mounted sandbox, the names of the pair are free, no two routes are the same, and a bridge is there or can be made |
| SetupSucceeds.DeleteSucceedsExactly | container/deletor.go:16-47 | With no call failing, Delete succeeds if and only if the container's link exists and, once it is gone, there is no such sandbox, or a veth is still in it, or it is not torn down, monitored and mounted |
| SetupSucceeds.ThereAndBack | container/deletor.go:16-47 | With no call failing and those names free, Setup succeeds, Delete succeeds after it, and links, namespace files, sandboxes and monitors are exactly as before |
| SetupDelete.CreatingTwiceIsCreatingOnce | container/command_builder.go:19-42 | Success registers the sandbox; once it is registered, even by an attempt that failed later, creating it again succeeds and changes nothing |
| SetupDelete.SetupThenDelete | container/deletor.go:16-47 | From any state that keeps the safety invariant and has no sandbox for the network, Setup then Delete, both succeeding, restore links, namespace files, registered sandboxes and monitored names exactly |
| SetupDelete.DeleteRemovesOnlyThePair | container/deletor.go:16-47 | Where another container's veth is in the sandbox, a Delete that succeeds removes exactly the container's link and its peer; files, sandboxes, monitors and every other link stay |
| SetupDelete.CleanupEffect | executor/commands/cleanup_sandbox.go:37-66 | A cleanup that succeeds on a registered sandbox takes away its file, entry, monitor and links, and nothing else, when it has no veth, and changes nothing when it has one |
| SetupDelete.CleanupSucceedsExactly | executor/commands/cleanup_sandbox.go:57-66 | With no call failing, cleanup succeeds if and only if there is no such sandbox, or a veth is in it, or it is not torn down, monitored and mounted; so the already-destroyed error that arrives wrapped is not tolerated |
| SandboxSafety.WiringKeeps | executor/commands/in_namespace.go:16-25 | Every tree of link commands confined to a sandbox that is registered, not torn down and monitored keeps the safety invariant and the daemon's tables, wherever it stops |
| SandboxSafety.SetupKeeps | container/creator.go:57-106 | Setup keeps the safety invariant, wherever it fails |
| SandboxSafety.DeleteKeeps | container/deletor.go:16-47 | Delete keeps the safety invariant, wherever it fails |
| SandboxSafety.SandboxesWithVethsAreSafe | executor/commands/cleanup_sandbox.go:37-66 | After every run from boot of Add, Del, successful restarts and vanishing containers, one after the other, any call failing: no sandbox was torn down with a veth in it; a sandbox with a veth is registered, not torn down and monitored; monitored names are registered |
| RepositoryRuns.RegisteredAlwaysHaveFiles | sandbox/repository.go:105-175 | Between any two calls of Create, Destroy and Load, in any order and failing at any point, whatever the rest of the daemon does to links, monitors and registered sandboxes in between, every registered name has its namespace file |
| RepositoryRuns.LoadMakesThemEqual | sandbox/repository.go:63-90 | At any point of any such run a Load that succeeds, over a walk that comes by every file, makes the registered names exactly the files; one that fails still registers only files |
| Stranded.StrandedForGood | executor/commands/cleanup_sandbox.go:57-66 | One way to lose a network, in runs with any link names: once a run from boot leaves a sandbox registered without its vxlan link, and torn down or unmonitored, it is so in every continuation: no Add and no Del on its network succeeds, whichever calls fail, and no restart of the daemon does |
| Stranded.HalfMadeIsStranded | container/command_builder.go:19-42 | A creation that registers the sandbox and fails before the vxlan link is in it leaves it so |
| Stranded.CleanupTriedAgain | executor/commands/cleanup_sandbox.go:57-66 | At one run: from an empty host, one Add, and one Del whose unmount fails, leave a torn-down sandbox, whose cleanup ends in the already-destroyed error wrapped twice |
| Lost.LostExactly | container/command_builder.go:19-42 | After every run from boot, for every container whose names are free: no continuation ever lets it be added if and only if the network is lost, which can be read off the host: its vxlan link is not in its sandbox, and the sandbox is registered, or its file is there, or a link of the host outside any container's pair has the vxlan link's name |
| Lost.LostForGood | container/command_builder.go:19-42 | A network that is lost is so in every continuation: no Add on it succeeds, whichever calls fail, and while its file is there no restart of the daemon does |
| Lost.UsableUnlessLost | container/creator.go:57-106 | From every reachable state in which the network is not lost, such a container can be added after at most two more requests |
| Lost.LostToFailedMount | lib/namespace/repository_linux.go:17-31 | At one run: from an empty host, one Add whose bind mount fails loses the network, though no sandbox is registered |
| Lost.StrandedByFailedVxlan | container/command_builder.go:19-42 | At one run: from an empty host, one Add whose vxlan link cannot be made leaves a registered sandbox that is stranded |
| Lost.BridgeNeverFinished | container/command_builder.go:130-156 | At one run: from an empty host, two Adds that fail leave a bridge without dns0; with no call failing a third container's Add succeeds, and the bridge is still without it |
| Daemon.Daemon.CreateNamespace | lib/namespace/repository.go:67-95 | Step by step as specified; success means the file was not there and is now, mounted; a failure leaves behind at most the file |
| Daemon.Daemon.DestroyNamespace | lib/namespace/repository_linux.go:10-15 | Step by step as specified; success takes the file and every link; a failure keeps the file and the links |
| Daemon.Daemon.CreateSandbox | sandbox/repository.go:105-131 | Step by step as specified; however it ends every registered name has its file; success means a new sandbox with its loopback up |
| Daemon.Daemon.Teardown | sandbox/sandbox.go:128-145 | Succeeds exactly on a monitored sandbox that is not torn down, whose monitor and DNS server it stops; otherwise it changes nothing |
| Daemon.Daemon.DestroySandbox | sandbox/repository.go:149-175 | Step by step as specified; however it ends every registered name has its file; success leaves no entry, file, monitor or link of the sandbox |
| Daemon.Daemon.Load | sandbox/repository.go:63-90 | The loop over a walk of the directory, sub-directories included, does what the specification says, and with no call failing gets through exactly when every name it comes by is one of a file; if every registered name had its file it still has, and a walk past every file that gets through makes the registered names exactly the files |
| Daemon.Daemon.ReloadMonitors | sandbox/repository.go:92-103 | The loop over the sandboxes adds monitors for registered names only; when it gets through it has found a mounted namespace and a vxlan link of the recovered name in each, and monitors all of them; with no call failing it gets through exactly then |
| Daemon.Daemon.Restart | cmd/ducatid/main.go:251-259 | Start-up succeeds only from a state that can be restarted and over a walk of names of files only, and from every such state over such a walk if no call fails; then exactly the files are registered and monitored, the links are as before, and the safety invariant is kept |
| Daemon.Daemon.VethDeviceCount | lib/links/factory.go:179-193 | The loop counts exactly the veth links of the namespace |
| Daemon.Daemon.CleanupSandbox | executor/commands/cleanup_sandbox.go:17-69 | Step by step as specified; keeps the safety invariant, wherever it stops; success takes a sandbox without veths away whole and leaves one with a veth as it is |
| Daemon.Daemon.StartDNS | executor/commands/start_dns_server.go:18-78 | Step by step as specified; success means a new dns0 link, up, with exactly the server's address, as the only change of links, and the server launched |
| Daemon.Daemon.StartMonitor | executor/commands/start_monitor.go:19-32 | Step by step as specified; success means the sandbox is monitored and its mounted namespace has the vxlan link |
| Daemon.Daemon.MoveLink | executor/commands/move_link.go:14-26 | Step by step as specified; success means the sandbox is registered and the link has left its namespace for the sandbox, down and flushed, as the only change of links |
| Daemon.Daemon.Execute | executor/commands/commands.go:17-29 | Executing a command over the mutable state, with the loop over a group's members and each primitive carried out by its own steps, gives the state and the error of the interpreter |
| Daemon.Daemon.SetupContainer | container/creator.go:57-106 | Step by step as specified; keeps the safety invariant, wherever it stops; success means the vxlan link and the sandbox end are up and on the bridge, the container end is up with exactly the leased address and, in order, the routes, the sandbox registered and monitored |
| Daemon.Daemon.DeleteContainer | container/deletor.go:16-47 | Step by step as specified; keeps the safety invariant, wherever it stops; success means the container's link and its peer are gone and no link is new |
| Naming.GetVNI | network/network_mapper.go:20-27 | Clearing the fourth byte in place gives the first byte of the hash plus 256 times the second plus 65536 times the third: a number below 2^24 |
| Naming.LinkNamesFit | container/creator.go:51-60 | For every network ID and container ID the VNI has 24 bits and every generated link name has at most 15 characters, a container's the first fifteen of the base32 text of its hash; the bridge of an eight-digit VNI has exactly 15 |
| Naming.NamesSpell | container/creator.go:58-60 | The names of a network's sandbox, vxlan link and bridge are vni-, vxlan and vxlanbr with the one decimal number of its VNI |
| Naming.SandboxNameInjective | container/creator.go:59 | Sandbox names tell VNIs apart |
| Naming.ReloaderRecoversVxlanName | reloader/reloader.go:34-42 | From the path of any sandbox under any directory the reloader recovers the vxlan name that creation and deletion use |
| Text.BaseOfOthers | watcher/resolver.go:37 | The last element of the empty path, of the root, of a path without slashes, and of a path with slashes at its end |
| Naming.ReloaderRefusesExactly | reloader/reloader.go:34-42 | A path is refused if and only if it is its own last element and does not start with the sandbox prefix |
| Naming.ReloaderTakesForeignFiles | reloader/reloader.go:34-42 | Every file in every sandbox directory whose name does not start with the sandbox prefix is taken for a sandbox, with a vxlan name made of the whole file name |
| Locks.CallsAreOrdered | sandbox/repository.go:92-175 | Setup, cleanup, DNS start, reload, load and every repository and watcher call take their locks in the order sandbox, repository, watcher |
| Locks.NeverDeadlocked | container/creator.go:76-90 | In no reachable state of any number of concurrent calls, any of them failing at any piece of work, are all unfinished calls blocked |
| Locks.OneSandboxLock | executor/commands/cleanup_sandbox.go:23-58 | No thread ever holds two sandbox locks |
| Locks.CallsFinish | executor/commands/start_dns_server.go:26-32 | Once no calls arrive, the number of remaining steps is bounded by what is left to do; where no step is possible every call has finished and every lock is free |
| Exclusion.CallsDoTheirWork | executor/commands/cleanup_sandbox.go:17-69 | Setup, cleanup, DNS start and every repository and watcher call do these pieces of work in this order |
| Exclusion.ReloadsAll | sandbox/repository.go:92-103 | Reloading goes through all the sandboxes, and registers and starts each one's monitor |
| Exclusion.CallsAreGuarded | container/creator.go:76-90 | Every piece of work inside a sandbox, on the repository's table or on the watcher's is done under the lock of that sandbox or table, in every call; that links are moved into a sandbox and sandboxes taken down under its lock too holds exactly of a Setup that creates none and moves the veth into the sandbox it locked, of a cleanup that destroys the one it locked, and of the calls that do neither |
| Exclusion.WorkIsGuarded | container/creator.go:76-90 | In every reachable state a call about to do such a piece of work owns the lock that guards it |
| Exclusion.NoTwoInside | container/creator.go:76-90 | In no reachable state are two calls inside one sandbox, in the repository's table or in the watcher's at once |
| Exclusion.AloneInside | executor/commands/cleanup_sandbox.go:33-58 | From the count of a sandbox's veths to its end, and from the first step of a container's wiring to the last, in every run nobody else does anything inside that sandbox; nor moves a link in or takes it down, if all calls are of the kind above |
| Exclusion.LinkMovedIntoLockedSandbox | executor/commands/move_link.go:14-26 | At one run: a Setup that has just registered a sandbox can move its vxlan link in while another Setup holds the sandbox's lock and works inside |
| MonitorRuns.StartersAreReleased | watcher/watcher.go:130-141 | The wait inside a locked call is no deadlock: in every reachable state a start that waits for its inserter has an enabled step of the two, each such step brings it closer to release, and no other step of the monitor takes it further away |
| Misses.ExamineBatch | lib/subscriber/subscriber.go:70-84 | The loop forwards, in order, exactly the misses before the first message that cannot be decoded, and stops the subscriber exactly if there is one |
| Misses.NextIsForwarded | lib/subscriber/subscriber.go:70-84 | After messages that could be decoded, the next is forwarded exactly if it has an IP address, and no hardware address or the state 0x04; after one that cannot be decoded none is |
| Misses.FirstMatchIsFirst | watcher/resolver.go:36-53 | The record chosen is the first that matches the miss's sandbox and address; there is none exactly when no record matches |
| Misses.ResolvedFromOneRecord | watcher/resolver.go:41-64 | A resolved miss takes its hardware address and its host from one and the same matching record |
| Misses.ResolveOne | watcher/resolver.go:29-64 | The loop over the records, with its breaks, resolves a miss exactly when the query worked and the first record of its sandbox and address has a good hardware address, to that hardware address and that record's host |
| Misses.ResolvesExactly | watcher/resolver.go:29-64 | A miss is resolved if and only if the query worked and the first record with its sandbox and its address has a hardware address that can be read; it then has that hardware address and that record's host, and everything else as it was |
| Misses.AddNeighbors | lib/neigh/arp_inserter.go:46-83 | The loop submits, per neighbour, the reachable L3 neighbour and then, only if that was set, the forwarding entry on the vxlan link |
| Misses.NextIsSubmitted | lib/neigh/arp_inserter.go:46-83 | For each neighbour: nothing if the namespace cannot be entered; else first the neighbour itself with state 0x02, then, only if that was set, the forwarding entry of family 7, flag 0x02 and state 0x02 on the vxlan link, from its hardware address to the host |
| MonitorRuns.NoChannelPanics | watcher/watcher.go:67-141 | In every interleaving of any number of monitors starting, stopping and failing, no goroutine sends on or closes a closed channel, nor stands in a send on one |
| MonitorRuns.TableIsLatest | watcher/watcher.go:76-90 | The table maps a namespace to the monitor registered last since the last stop, and to none if there is none |
| MonitorRuns.StopClosesTheLatest | watcher/watcher.go:109-128 | Stop finds a namespace exactly when it was registered, even by a start that failed, since its last stop; it then closes that one open done channel and no other; registered channels are pairwise distinct |
| MonitorRuns.OverwrittenIsNeverStopped | watcher/watcher.go:78-80 | A monitor whose namespace is registered again before a stop is never told to stop in any continuation |
| MonitorRuns.TwoStartsOneStop | watcher/watcher.go:78-80 | At one run: two starts and one stop of a namespace stop the second monitor and leave the first unregistered and open |
| MonitorRuns.HandledIsPrefix | watcher/watcher.go:92-104 | In every reachable state the neighbours handled by a monitor's inserter are, in order and without repetition, a prefix of the received messages after filtering and resolving, and what it has submitted is, in order, the entries of those neighbours |
| MonitorRuns.ForwardingEntriesPairOneRecord | lib/neigh/arp_inserter.go:46-83 | Every forwarding entry ever submitted pairs the hardware address and the host of one datastore record that matches the sandbox and address of a received miss |
| MonitorRuns.PipelineDrains | watcher/watcher.go:92-104 | In every reachable state of a monitor whose start returned without an error: while a received message is under way some goroutine can move one along, so no wait on a channel is a deadlock; every such step uses up some of an amount of work that only receiving adds to; and when none is left every miss received has been resolved or given up, and handled |
| MonitorRuns.BatchIsHandled | watcher/watcher.go:92-104 | From every such state the monitor can by steps of its own, no more than that work, handle all it has received |
| MonitorRuns.MissesAreAnswered | watcher/resolver.go:29-64 | With nothing under way, every miss received before a bad message has been looked up, and if the first record of its sandbox and address had a good hardware address, the inserter has handled it with that hardware address and that record's host |
| MonitorRuns.ResolverNeverEnds | watcher/watcher.go:92-104 | The channel the resolver reads is never closed, so whatever becomes of the subscriber neither the resolver nor, by its channel closing, the inserter ends |
| MonitorRuns.ShutDownForGood | watcher/watcher.go:92-104 | A monitor that was stopped, down to its forwarder, is so in every continuation: its resolver and inserter wait and no step of it is possible |
| MonitorRuns.StopLeavesTwoWaiting | watcher/watcher.go:109-128 | At one run: a start, a stop, the socket closed, receiver and forwarder over, and resolver and inserter wait for good |
| Watcher.MissWatcher.StartMonitor | watcher/watcher.go:76-90 | Registers a fresh open done channel whatever happens after, keeping registered channels open and distinct |
| Watcher.MissWatcher.StopMonitor | watcher/watcher.go:109-128 | Closes the registered channel, takes it out of the table and touches no other; fails exactly when there is none |

## Left out

- HTTP handlers, JSON, the client, SQL and driver error codes, logging, process supervision and the rest of start-up.
- The DNS server itself, its socket and the namespace writer: only the dns0 link, the sandbox lock and the process remain.
- The text of errors and of command trees (`executor/commands/commands.go:37-70` and every `String`): it changes no state.
- IPv6 subnets: the configured base is an IPv4 address in its four- or sixteen-byte form.
- MTUs, link indices and the kernel's own validation of addresses and routes.
- OS threads, file descriptors and the temporary name of a namespace: a failure to open, unmount or remove the temporary name is one failure with the same outcome.
- Distinct VNIs for distinct networks: the hash is truncated and may collide.
- Overlap between whole Add and Del requests at the links: `SandboxSafety`, `Stranded` and `Lost` run them one after the other, on one network or on several. On one network overlap would break what they prove, because cleanup looks a sandbox up by name, locks it, and destroys by name what may have been created again. On different networks the requests share the host's links, the containers' links and the tables; `Sparing` shows that a whole request spares the other networks, not that each of its steps does in between another's. What overlaps freely is in `AllocatorRuns`, `CniRuns`, `Locks`, `Exclusion` and `MonitorRuns`.
- Lost.LostExactly: the links are named as `container/creator.go:51-60` names them, from a base32 hash; addresses are not part of these runs, so an ID that a failed Add left on its network (`Cni.FailedAddKeepsItsAddress`) is not refused in them.
- SandboxSafety.SandboxesWithVethsAreSafe: a restart that fails ends the daemon; the state it leaves is not followed further.
- RepositoryRuns.LoadMakesThemEqual: the walk comes by every file; the callback drops the error of a directory that cannot be read, so that such a walk misses files without failing. Nobody but the repository makes or removes files at the top of the directory.
- Exclusion.AloneInside: a call's look-ups of a sandbox by name are parameters, which may be any objects; that they agree with what is registered is not modelled.
- Daemon.Daemon.Execute: the sandbox repository holds sandboxes as values under their names, so a sandbox object kept by a caller after its name was destroyed and created again is not modelled.
- CniRuns.RecordsAreBacked: Setup and Delete are single steps that may fail; their effect on links is in `SandboxSafety` and `SetupDelete`. Records made before the last boot are not covered, since reservations do not survive a restart.
- Watcher.MissWatcher.StartMonitor: two flags stand for what the inserter and the subscription answer; the goroutines are in `MonitorRuns`.
- Misses.ResolveOne: one turn of the resolver's loop, given the datastore's answer; the channel around it is in `MonitorRuns`.
- MonitorRuns.PipelineDrains: some step is always possible and every one counts down, but that the scheduler takes it is not modelled.
