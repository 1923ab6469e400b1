# frridge: a verified model of the lab orchestrator's decision logic

frridge builds network labs: it starts FRR containers, wires them with bridges and
veth pairs, keeps a state file for tearing everything down again, and on macOS
runs all of that inside a Multipass guest. Docker, the kernel and the file
system are modelled here as small worlds whose every operation may fail, and a failing
operation may still have taken effect. The code between them is modelled statement by
statement and proved against what it is for.

The files, by subject:

- **A lab's life.** `State` is the snapshot and its checks. `HostLinks` is the host's
  network namespace with two kernel rules: a veth loses both ends at once, and a
  container takes its namespace's links with it. `LabHost` is the machine (containers,
  links, state file, lab directory), with a record of every operation that has failed,
  which no command keeps but the operations themselves. `Cleanup` is `cleanupRuntime`, `Wiring` is
  `configureLinks`, and `Lifecycle` is `up` with its rollback, `Down`, `MigrateState`
  and runs of them. Naming is abstract there (`Namer`): the lifecycle theorems need no
  distinctness of names. `Names` says exactly when the names really made are distinct, and
  `LabsApart` what follows for two labs on one machine: cleaning up one leaves the other
  running.
- **Validator and executor.** `Linux` and `Topology` are the checks of
  `internal/config/config.go`, and `LinuxAcceptance` says of the section alone which ones
  pass. `LinuxProgram` has the steps `configureLinux` takes, `LinuxSoundness` and
  `TopologySoundness` the theorem that accepted topologies never meet a taken name,
  `LinuxEffect` what such a run leaves behind, `RouterLinks` the same for wiring's own
  moves and renames inside a router, `LinuxMasters` the master relation, `LinuxRuntime`
  the executor with failures.
- **Guest shell transport.** `ShellQuote` has POSIX tokenisation (sections 2.2.2, 2.2.3
  and 2.3 of the Shell Command Language in IEEE Std 1003.1-2017) and the quoting that it
  undoes, `EnvKeys` the order of the exports, `GuestScript` the whole script, `ShellFrame`
  the framed output and its parser, and `GuestRun` what running the script prints, which
  joins the two.
- **Path coverage.** `CoveragePath` has recursive pathname resolution (section 4.13 of
  the Base Definitions in IEEE Std 1003.1-2017), the work list that meets it, and a second
  account of both: clean the text before the first link, put its target in, start again.
- **Publish-last protocols.** `ImageCache` (concurrent builds), `GuestImage` (the
  guest's latest tag), `Seeding` (first-boot vtysh commands).
- `Strings`, `Options` and `Sequences` are shared helpers.

Assumptions. SHA-1 prefixes do not collide on the keys in use, and where migration is
concerned a topology digest determines the topology; both appear as preconditions, never
as facts. A Docker image ID determines the image's labels, the inputs it was built from
among them. The random part of a temporary
file name is not handed out twice, and nobody else writes the `frridge-mp-cache` tags or
the guest's `frridge-frr:latest`. A path that `EvalSymlinks` finds is found where
resolution ends. Library parsers (CIDR, IP, MAC) are parameters.

Where the code says more or less than one would expect:

- The path-component test is meant for slash-free names, but it also admits the name `/`,
  whose base is itself (`Names.PathComponents`). With it generated names stay distinct.
- Nothing in the validator keeps slashes out of interface names and out of the names of a
  router's own bridges. An endpoint shares its key with one that has none exactly when its
  bridge's name holds a slash, or its interface's does and the router with what comes
  before the last one ends in a name fit for a router (`Names.TwinsExactly`). So `x/y` is
  such an interface name and `x//y` is not (`Names.DoubledSlashHasNoTwin`). On one router
  the dataplane then meets a taken name exactly when two namespaces share a key
  (`TopologySoundness.CleanExactlyWhenApart`).
- A write of `frr.conf` that fails half-way leaves a fragment, which a later boot without
  reseed takes for the base file: such a boot ends with the base file exactly if it did not
  start from a fragment (`Booted` in `Seeding`). The marker promise survives that.
- A rollback that fails and whose inventory cannot be saved either is the one way a bridge
  escapes the account (`Stranded(false)` in `Lifecycle.Up`): only bridges of that topology
  can, and they do exactly if any of them is left.
- The guest script writes environment keys unquoted and unchecked. A guest command gets its
  environment, and its output comes back, exactly if every key is a name that the guest's
  shell lets be set (`GuestRun.TransportDelivers`); a key of ordinary characters whose part
  before an equals sign is none ends the script before its output marker
  (`GuestRun.OutputArrivesExactly`). The program only ever passes one key, and that is such
  a name (`GuestRun.ProgramsCommandsAreDelivered`).

## Model

| member | source | states |
|---|---|---|
| Lifecycle.Session | internal/runtime/runtime.go:103-270 | over any sequence of up, recreate, down and migrate with changing topologies, any failures, and others at work in between, every bridge the program created that still exists is in the state file's inventory (for an old file: in that of the topology it was made from); the run breaks off only behind an up whose rollback failed with its inventory lost, and then only that topology's bridges can be unaccounted for |
| Lifecycle.Up | internal/runtime/runtime.go:103-222 | an existing lab is refused untouched; success saves a snapshot that matches what runs; a clean rollback leaves the machine as it was short of links bearing the lab's names; a failed one keeps its inventory; if that cannot be saved there is no file, the bridges left are among this topology's, and the account holds exactly when there are none. It completes exactly if nothing of the lab is in the way and no operation fails, it rolls back exactly if the one step of creation that stopped it is all that fails, and whatever a failed rollback leaves had its own removal fail |
| Lifecycle.MakeWay | internal/runtime/runtime.go:109-125 | creation begins exactly if no operation fails and no state file, no labelled container and no bridge of the program's is left, or with recreate can be removed; without recreate nothing is touched to find out |
| Lifecycle.RollBack | internal/runtime/runtime.go:141-152 | from any point creation can reach, a rollback is clean exactly if none of its operations fails; it then restores containers and host links and leaves no state file, half-made pairs, moved ends and lost creation replies included; a failed one removes nothing that was there before except by the lab's own names, and each recorded or new container and each doomed link is gone or had its own removal fail, save new containers that could not be listed; the inventory is lost only if saving it failed |
| Lifecycle.UndoneBySweep | internal/runtime/runtime.go:141-152 | removing recorded and labelled containers and the lab's names from what creation left gives back what there was before |
| Lifecycle.Bring | internal/runtime/runtime.go:154-220 | at success and at every failure alike the snapshot held passes the checks of a later cleanup, covers every container whose ID is known and every bridge made, and nothing that existed was changed; it stops at the first step that fails and only there |
| Lifecycle.SnapshotIsUsable | internal/state/state.go:64-86 | however far up got, its snapshot validates for the lab |
| Lifecycle.RecordedAreListed | internal/runtime/runtime.go:341-387 | the inventory at any moment lists only bridges of the topology |
| Lifecycle.StartRouters | internal/runtime/runtime.go:154-200 | every container whose ID was reported is recorded, exists, is new, carries lab and router labels and, on success, its own PID; any other new one carries the lab's label |
| Lifecycle.StartRouter | internal/runtime/runtime.go:154-200 | one router: its container is recorded as soon as its ID is reported, whether or not it starts |
| Lifecycle.RuntimeExists | internal/runtime/runtime.go:324-339 | a lab exists exactly when it has a state file of any kind or a labelled container; only a failing look leaves it unknown |
| Lifecycle.Down | internal/runtime/runtime.go:226-237 | refusals change nothing, a failed removal keeps file and directory, a finished one leaves no labelled container and no bridge of the program's; it finishes exactly if its inventory is usable and nothing fails |
| Lifecycle.Retry | internal/runtime/runtime.go:551-644 | passes with ever different topologies never add anything and never lose the inventory, and the first without fault removes exactly the containers recorded or labelled at the start and every recorded bridge; every pass that does not finish has a failure of its own |
| Lifecycle.MigrateState | internal/runtime/runtime.go:241-270 | exactly an old snapshot and the topology of its digest are accepted, unless reading or writing fails; otherwise the file is unchanged; bridges stay accounted for |
| Lifecycle.MigrationRestores | internal/runtime/runtime.go:241-270 | migrating a complete snapshot whose inventory was erased restores it exactly, from no other topology, and a second migration is refused |
| Lifecycle.LoadedIsPlain | internal/config/config.go:290-446 | a topology that passes validation is all the lifecycle asks for |
| Cleanup.CleanupRuntime | internal/runtime/runtime.go:551-644 | removes only recorded or labelled containers, owned or generated links and what hangs on them; refuses without touching anything; tries everything whatever fails; keeps file and directory on failure; runs through, leaving exactly the rest, exactly if its inventory is usable and no operation fails; every failure it reports happened |
| Cleanup.SweepAll | internal/runtime/runtime.go:574-628 | lists the labelled containers and sweeps; without an inventory a labelled container, or a listing that fails, stops it before anything is removed; what it reports is what failed |
| Cleanup.ReadInventory | internal/runtime/runtime.go:554-572 | a cleanup goes by the snapshot it is given, else by a readable, valid, migrated state file, else by none; it turns down a usable one only if reading fails |
| Cleanup.SweepContainers | internal/runtime/runtime.go:592-596 | every container is tried; only those whose removal failed can be left |
| Cleanup.SweepAllEnds | internal/runtime/runtime.go:598-621 | every veth end of the topology is tried; only those whose deletion failed can be left |
| Cleanup.SweepEnds | internal/runtime/runtime.go:603-620 | the same for the ends of one link |
| Cleanup.SweepBridges | internal/runtime/runtime.go:622-628 | every recorded bridge is tried, whatever the topology has become |
| Cleanup.SweepLink | internal/runtime/runtime.go:606-627 | one deletion: its failure is noted exactly if it happened, and spares nothing else |
| Cleanup.Forget | internal/runtime/runtime.go:630-643 | the state file goes first; the directory only after it, and only on request; each outcome but the last has its failure |
| Cleanup.SweepDone | internal/runtime/runtime.go:551-644 | when nothing reported a failure, containers and links are exactly what was there minus what was doomed |
| Cleanup.LeftIsGoneOrFailed | internal/runtime/runtime.go:592-628 | what a sweep tried is gone or had its own removal fail |
| Wiring.ConfigureLinks | internal/runtime/runtime.go:341-387 | every bridge is recorded before it exists, wherever wiring stops; only generated names are added; on success each link is attached as asked and the inventory is that of the topology; it stops exactly at a step that fails |
| Wiring.ConfigureLink | internal/runtime/runtime.go:343-383 | one link: the record, then the bridge, then its members |
| Wiring.AttachMembers | internal/runtime/runtime.go:351-361 | each member's port is on its bridge with its peer in its own router |
| Wiring.AttachMember | internal/runtime/runtime.go:352-360 | one member |
| Wiring.AttachPair | internal/runtime/runtime.go:362-382 | both ends of a point-to-point link are in their routers |
| LabHost.InventoryHolds | internal/runtime/runtime.go:260-265 | the inventory lists exactly the bridge links, each with the name its link is given |
| LabHost.Host.EnsureBridge | internal/netlink/netlink.go:58-86 | a link of that name is adopted; a new bridge may be left behind by a failure |
| LabHost.Host.CreateBridgeAttachment | internal/netlink/netlink.go:88-120 | on success port, master and moved peer are in place; a failure leaves at most the pair, whole or half moved |
| LabHost.Host.CreateP2PAttachment | internal/netlink/netlink.go:122-143 | on success neither end is left on the host; a failure leaves at most the two names |
| LabHost.Host.DeleteLink | internal/netlink/netlink.go:318-331 | success means the name is gone, and its peer with it |
| LabHost.Host.RemoveContainer | internal/docker/docker.go:151-159 | success means the container is gone, with every host link that led into it |
| LabHost.Host.CreateContainer | internal/docker/docker.go:85-114 | a container can be created without its ID being learnt |
| HostLinks.ClearUndoesGrowth | internal/runtime/runtime.go:592-628 | clearing what was added by its names and containers gives back what there was, short of those names |
| HostLinks.ClearReached | internal/runtime/runtime.go:592-628 | once every doomed name and container is gone exactly the rest is left |
| HostLinks.DeleteSpares | internal/netlink/netlink.go:318-331 | deleting a doomed link takes nothing that is not doomed |
| Names.PathComponents | internal/config/config.go:448-450 | exactly the slash-free, NUL-free, non-special names pass, and the root |
| Names.KeysDecode | internal/runtime/runtime.go:927-954 | within a family a key determines lab, link, router and interface, for every accepted lab and router, the root included, and whatever slashes the link name holds |
| Names.DistinctEndpointsDistinctNames | internal/runtime/runtime.go:927-954 | endpoints of all labs and all six families with slash-free interface and own-bridge names get distinct 14-byte names, short of a hash collision |
| Names.TwinsExactly | internal/runtime/runtime.go:927-954 | for every endpoint with accepted lab and router: another, slash-free one has its key exactly when the bridge's name holds a slash, or the interface's does and the router with what precedes its last slash ends in a name fit for a router |
| Names.DoubledSlashHasNoTwin | internal/runtime/runtime.go:936-942 | a slash in an interface name is not enough: x//y shares its key with no slash-free endpoint |
| LabsApart.DoomedNamesDisjoint | internal/runtime/runtime.go:574-628 | what the cleanups of two labs may delete by name has nothing in common, short of a hash collision |
| LabsApart.OtherLabSpared | internal/runtime/runtime.go:551-644 | however a lab's cleanup goes, every link bearing another lab's generated name stays as it is, with its ends, if such links end among themselves or in containers that are not removed |
| LabsApart.RaisedKeepsToItself | internal/runtime/runtime.go:154-220 | a lab raised, wholly or partly, where nothing bore its names meets that condition as long as its own containers are not removed |
| LabsApart.SweptLabsNeighbourRuns | internal/runtime/runtime.go:551-644 | however a lab's cleanup goes, another lab that was complete is complete: containers, PIDs, bridges, ports with their masters, and moved ends |
| LabsApart.DownBeside | internal/runtime/runtime.go:226-237 | down on one lab, refused, failed or finished, leaves another running lab complete, short of a hash collision |
| LabsApart.CompleteRuns | internal/runtime/runtime.go:154-222 | a lab that up has just completed is such a running lab |
| LabsApart.RaisedRecordsOwn | internal/runtime/runtime.go:154-220 | however far up got, its snapshot records only containers of its own lab |
| LinuxAcceptance.AcceptedExactly | internal/config/config.go:605-780 | the checks pass exactly for the sections whose fields are in order, that give no trimmed link two masters, repeat no interface, peer or namespace name, and never make a device under the trimmed name of one that is there, a moved peer leaving its name; the master map is then just what the section gives |
| LinuxAcceptance.ValidateLinux | internal/config/config.go:605-780 | accepts exactly the sections in order in that sense, and the map it builds is the graph of the masters they give |
| Linux.ClaimLinuxDevice | internal/config/config.go:808-815 | a trimmed name is claimed once |
| Linux.ClaimLinuxMaster | internal/config/config.go:787-806 | a link is given one master; a blank end claims nothing |
| Linux.ValidateLinuxNamespace | internal/config/config.go:834-855 | a namespace name is used once and its fields are well formed |
| Linux.ValidateBridge | internal/config/config.go:714-763 | one bridge with its ports, VXLANs and namespaces |
| LinuxAcceptance.ReplayVeths | internal/config/config.go:765-777 | the second pass over the veths: it passes exactly if no end takes a name that is there, a peer's name being free again after its move |
| Topology.Validate | internal/config/config.go:363-420 | of what the cited lines and the name checks before them look at, accepts exactly the well-formed topologies: lab and router names, link shapes, no interface used twice on a router, every section accepted |
| Topology.ValidateLinks | internal/config/config.go:363-414 | link names and router interfaces are used once over all links |
| Topology.LinkInterfacesAreTrimmed | internal/config/config.go:387-401 | the interfaces handed to the section checks are trimmed, non-empty and not the loopback |
| LinuxSoundness.AcceptedSectionsAreClean | internal/config/config.go:605-780 | no step of an accepted section's program creates, moves or renames onto a taken name, peer names reused after a move included |
| LinuxSoundness.BridgeSound | internal/netlink/netlink.go:226-258 | one bridge with everything below it keeps the validator's device list in step with the names present |
| LinuxSoundness.VethSound | internal/runtime/runtime.go:435-444 | one veth does too, its peer leaving its name free for the next |
| TopologySoundness.CleanExactlyWhenApart | internal/runtime/runtime.go:399-452 | the same for every router of a topology that loads, with the generated veth names as made, exactly if no two of its namespaces share a key |
| TopologySoundness.SlashFreeBridgesApart | internal/runtime/runtime.go:944-950 | slash-free bridge names are enough to keep the keys apart |
| TopologySoundness.GeneratedNamesAreFresh | internal/runtime/runtime.go:944-950 | namespace veths whose keys are apart get distinct names, unlike any name of the user's |
| TopologySoundness.VethNamesTell | internal/runtime/runtime.go:944-950 | short of a hash collision the names in use tell apart what their keys tell apart, and the two ends of a veth |
| RouterLinks.WiringIsSmooth | internal/runtime/runtime.go:341-387 | in every router of a topology that loads, the ends wiring moves in and renames meet no taken name, a link from a router to itself included, and leave exactly the loopback and the router's interfaces |
| RouterLinks.RouterComesUpClean | internal/runtime/runtime.go:341-452 | from the bare namespace through wiring and dataplane setup no step meets a taken name, exactly if no two of the router's namespaces share a key |
| LinuxRuntime.Dataplane.ConfigureLinux | internal/runtime/runtime.go:399-452 | executed step by step with any step failing, an accepted section never meets a taken name, and it succeeds exactly if no step fails; the router then has exactly the loopback, its link interfaces, every VRF, bond, bridge and VXLAN, the generated host ends, the veths and the peers that did not move, and exactly the section's namespaces, each with its loopback and its one interface |
| LinuxEffect.CleanRunLeaves | internal/runtime/runtime.go:399-452 | the same of any run of the program that meets no taken name, said of the section without the program |
| LinuxEffect.OwnersComeFirst | internal/netlink/netlink.go:193-291 | every entry makes its device before any step of its own sets a master for it, for its ports or for what hangs on it |
| LinuxEffect.LateMastersFindDevices | internal/runtime/runtime.go:413-446 | when a bond, an interface or a veth is given its master, every VRF, bond, bridge and VXLAN of the section is there to be one |
| LinuxMasters.ExecutedIsListed | internal/runtime/runtime.go:399-452 | the (link, master) pairs executed are the ones the section lists, plus the generated host ends |
| LinuxAcceptance.ExtendIsGraph | internal/config/config.go:787-806 | with no link given two masters, the map holds just the pairs given |
| LinuxMasters.MastersSetOnceAndAsListed | internal/config/config.go:787-806 | each listed pair is set exactly once and no other is set |
| LinuxMasters.FinalMastersAreListed | internal/runtime/runtime.go:399-452 | whatever the order of the same steps, each link ends under the master listed for it, and under none if none is |
| ShellQuote.TokenisingUndoesJoin | internal/multipass/system.go:291-301 | tokenising quoted arguments gives back exactly the arguments, empty ones, quotes and newlines included |
| ShellQuote.RunQuote | internal/multipass/system.go:291-293 | a quoted value is one word with the value as its literal text |
| ShellQuote.ShellJoin | internal/multipass/system.go:295-301 | the loop builds the quoted arguments in order, separated by single spaces |
| GuestScript.BuildShellScript | internal/multipass/system.go:243-275 | the script holds a line for every key of the environment in sorted order, and the guest shell reads it as exactly the commands meant, for every combination of directory, environment and markers |
| GuestScript.ScriptRunsItsCommands | internal/multipass/system.go:243-275 | a shell reading the script sees exactly the intended commands, so no argument, directory or value ends its command early |
| EnvKeys.SortedEnvKeys | internal/multipass/system.go:277-289 | the keys of the environment, each once, in Go's order |
| EnvKeys.SortedIsUnique | internal/multipass/system.go:277-289 | there is only one such list |
| ShellFrame.ParseUndoesFrame | internal/multipass/system.go:303-327 | parsing a frame gives back content and code, for content that may itself hold either marker |
| ShellFrame.ParsedIsFrame | internal/multipass/system.go:303-327 | whatever parses is a frame with a clean banner and a canonical code in 0..255 |
| ShellFrame.ParserAcceptsExactlyFrames | internal/multipass/system.go:303-327 | both directions at once |
| ShellFrame.NewShellMarkers | internal/multipass/system.go:223-233 | the markers made from a token have what the framing relies on |
| ShellFrame.AtoiUndoesItoa | internal/multipass/system.go:319-325 | a printed number reads back as itself |
| GuestRun.TransportDelivers | internal/multipass/system.go:243-327 | for any environment keys, with markers and without: the guest runs exactly the command, once, with its arguments, its directory and all of its environment on top of the guest's, and its output and status come back, exactly if every key is a settable name |
| GuestRun.OutputArrivesExactly | internal/multipass/system.go:243-327 | for keys of ordinary characters: output and status come back exactly if the directory can be entered and every key up to its first equals sign is a settable name; otherwise the parser finds no output marker |
| GuestRun.OnlySettableArrives | internal/multipass/system.go:250-256 | whatever commands a shell reads out of a script, no process it starts has a variable that cannot be set, beyond the guest's own |
| GuestRun.ProgramsCommandsAreDelivered | internal/multipass/multipass.go:187-224 | the environment the program passes, always in a script without markers, is delivered |
| GuestRun.ScriptPrintsFrame | internal/multipass/system.go:243-275 | with every export accepted the script runs the command once and prints the frame of its output and status, printf formats expanded |
| GuestRun.PlainScriptEndsWithStatus | internal/multipass/system.go:243-275 | without markers the script runs the command once, prints what it prints and ends with its status, also if the command takes the rest of the script |
| GuestRun.RefusedScriptIsSilent | internal/multipass/system.go:243-256 | a script refused its directory or an export runs nothing, prints nothing and fails |
| GuestRun.MarkersAreVerbatim | internal/multipass/system.go:223-233 | markers hold nothing that a printf format would change |
| GuestRun.EndedShellIsNoticed | internal/multipass/system.go:303-327 | a command that ends the shell itself leaves no status, and the parser says so |
| CoveragePath.ResolvedCoveragePath | cmd/frridge-mp/root.go:283-334 | the answer, whether EvalSymlinks finds the path or it is missing, is that of repeated substitution: clean the text before the first link, put the link's target in its place, start again, at most 255 times; failing to make the path absolute or to look it up is an error; no beginning of the result is a link or a special name |
| CoveragePath.WalkMissing | cmd/frridge-mp/root.go:291-330 | the work list ends on every file system and meets recursive resolution, failures and exhaustion included |
| CoveragePath.ResolveConcat | cmd/frridge-mp/root.go:295-330 | resolution goes through the parts one after the other, charging each link it follows |
| CoveragePath.ResolutionIsSubstitution | cmd/frridge-mp/root.go:295-330 | on every file system, recursive resolution and repeated substitution agree, links that go up or start at the root included |
| CoveragePath.LinkFreeWayIsLexical | cmd/frridge-mp/root.go:295-330 | a way with no link on it resolves to its lexical cleaning |
| CoveragePath.DotDotCancels | cmd/frridge-mp/root.go:304-306 | in a cleaning a name followed by ".." counts as if neither were there |
| CoveragePath.RootDotDotStays | cmd/frridge-mp/root.go:304-306 | ".." at the root stays at the root |
| CoveragePath.WalkMeetsUnlimitedResolution | cmd/frridge-mp/root.go:311-315 | the walk finds exactly the paths that unlimited resolution reaches over at most 255 links |
| CoveragePath.LimitOnlyCutsShort | cmd/frridge-mp/root.go:311-315 | a higher limit never changes an answer already found |
| CoveragePath.ResolveLinkFree | cmd/frridge-mp/root.go:295-330 | no beginning of a resolved path is a link, "." or ".." |
| CoveragePath.SelfLinkNeverResolves | cmd/frridge-mp/root.go:309-315 | a link to itself exhausts every limit |
| CoveragePath.EnsureBelowHostDir | cmd/frridge-mp/root.go:264-281 | the test on the relative path accepts exactly the resolved paths that extend the resolved host directory |
| CoveragePath.RelStaysBelowIffPrefix | cmd/frridge-mp/root.go:273-279 | a relative path escapes exactly when the base is no prefix of the target |
| ImageCache.ImageBuilder.Build | internal/multipass/image_builder.go:117-187 | among any other calls, a call reports an image exactly when it published its own inputs' lookup for an installed archive of that image, and the image carries these inputs; failing or stopped it had no share in any lookup; it does report the image built if no step of its own fails, the image is right and Docker keeps it meanwhile |
| ImageCache.RunKeepsInv | internal/multipass/image_builder.go:117-187 | the cache invariant survives any interleaving of any number of calls, each stopped anywhere |
| ImageCache.PublishedLookupsAreUsable | internal/multipass/image_builder.go:76-113 | at every moment a lookup that exists finds a complete archive of the image it names, an image that carries the inputs looked up |
| ImageCache.LookupsAreWhatWasPublished | internal/multipass/image_builder.go:178-186 | the lookups are the initial ones changed by the last renames of the run and nothing else |
| ImageCache.OnlyPublishersPublish | internal/multipass/image_builder.go:178-186 | a call has a share in the lookups exactly when it got as far as its last rename |
| ImageCache.RenderInjective | internal/multipass/image_builder.go:137-148 | archives, lookups and temporary files of different calls never share a name |
| ImageCache.ParseUndoesIdentity | internal/multipass/image_builder.go:245-254 | the identity Docker writes parses to the image it was written for |
| GuestImage.Guest.EnsureImage | internal/multipass/multipass.go:345-400 | success leaves the latest tag on an image of the requested inputs, or the matching legacy one without overrides or refresh; failure leaves it alone; each route is open only where allowed; a matching guest is kept until a refresh; it does succeed if no command fails, nobody meddles and the image its route leads to is the right one |
| GuestImage.Guest.Import | internal/multipass/multipass.go:431-456 | the latest tag moves only to the image whose identity was checked, last and at once; a right archive is taken unless a command fails or someone meddles |
| GuestImage.Guest.BuildHere | internal/multipass/multipass.go:458-490 | the same for an image built in the guest |
| GuestImage.Guest.Identify | internal/multipass/multipass.go:402-429 | an answer is the identity of what the name refers to, or nobody's |
| Seeding.LabDir.Session | internal/frr/files.go:40-92 | through any boots, reseeds and purges, each marker left vouches for the list of a boot that named the router with it, or for what it vouched for at the start, and no purge or successful reseed has come since; and whatever is marked had that whole list run in order, without failure and last |
| Seeding.LabDir.Boot | internal/runtime/runtime.go:103-222 | without reseed a seeded router sees no vtysh command; success leaves every router with something to seed seeded by its own list, over the base configuration exactly if reseeded or not torn before, and with exactly what was due run in order: shell commands always, vtysh commands exactly if it was reseeded or had no marker; other routers are untouched; a boot in which nothing fails succeeds |
| Seeding.PrepareRouterFiles | internal/frr/files.go:40-80 | seeding is needed exactly when no marker is left; the marker goes before the file it vouches for is rewritten; a missing frr.conf ends as the base file and a fragment stays one |
| Seeding.RunRouterCommands | internal/runtime/runtime.go:499-547 | due commands run once each in order; the marker is set only after a whole pass with something in it; however far a round gets, a seeded router is given no vtysh command |
| Seeding.DueSeeding | internal/runtime/runtime.go:499-547 | a router that needs seeding is due its whole list, in order |
| Seeding.DueShells | internal/runtime/runtime.go:499-547 | whether or not it needs seeding, the same shell commands are due in the same order |
| Seeding.MarkSeeded | internal/frr/files.go:84-92 | the marker appears only over a finished pass, even when its write fails |
| Seeding.VtyshEntriesConcat | internal/runtime/runtime.go:499-547 | what vtysh was given over two stretches is what it was given over each, in order |
| Seeding.QuietPassHasNoVtysh | internal/runtime/runtime.go:517-519 | a boot that need not seed gives vtysh nothing |

## Left out

- A process killed inside `up`: bridges created since the last write would be unrecorded; the lifecycle claims assume the command returns.
- Path cleaning and the inside of `filepath.Abs` and `EvalSymlinks`: they are parameters, the latter assumed to tell the truth about what it finds.
- Docker SDK calls, real netlink and namespace system calls, timeouts, contexts and signals: only success, failure and partial effect.
- YAML and JSON decoding, defaults and sysctl merging, error texts: library work or easy.
- Topology.Validate: leaves out the checks of API version, images, loopbacks, mounts, sysctls, startup commands and pings, which stand apart from names, links and sections and are easy.
- Link attributes (MTU, addresses, MAC, state up) and routes: they change no name, master or placement.
- LinuxAcceptance.ValidateLinux: does not show that referenced interfaces and masters exist, because the code does not check it.
- `containerName` and `sanitizeName`: many-to-one by design.
- The hash framing of `sourceDigest` and `imageContextDigest`: separators around arbitrary data are not an injective encoding.
- A partial removal of the lab's directory is modelled as any part of it being left; what is in the files is not.
- GuestScript.ScriptRunsItsCommands: asks for environment keys of ordinary characters; other text is outside the modelled grammar, and no such key is ever delivered (GuestRun.TransportDelivers).
- Names.DistinctEndpointsDistinctNames: asks for slash-free interface names and slash-free names of a router's own bridges; Names.TwinsExactly says exactly which others are at risk.
- GuestRun.TransportDelivers: printf is given its meaning for text, line ends and plain strings, and cd prints nothing, which is all the script uses; a guest command is a process, or ends the shell, but does not otherwise change it, and variables the shell rewrites by itself, such as `_`, are not singled out.
- The input that is fed to a command behind its script.
- RouterLinks.WiringIsSmooth: the kernel moves and renames one end at a time; that a link's other end is set up on the host side at the same time is `Wiring`'s part.
- The copying and streaming of the guest's output, instance management and the guest bootstrap.
