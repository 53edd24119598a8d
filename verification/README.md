# A verified model of the DS-Lite plugin

tr181-dslite is an event-driven controller for one DS-Lite tunnel (RFC 6333): it learns the local
address and the tunnel concentrator's name or address, brings up the kernel tunnel `dslite0`, a
firewall service and two IP interfaces, and mirrors what it did in the data model. This project
models that controller in Dafny and proves what every run of it keeps.

Check everything with `dafny verify dfyconfig.toml`.

## How it is organised

- `Model`, `Tunnel`, `Resolver`, `Netmodel`, `Interface`, `Events`, `World`: the plugin as functions,
  one module per C file. A `Node` is one interface with DSLite.Enable and the shared surroundings; a
  `World` is all interfaces. Pointers are numbers and may dangle: following NULL or a released record,
  or handing over the handle of a query or timer that is gone, sets `fault`. Functions of the
  surroundings (controller, firewall, IP manager, netmodel, c-ares, `inet_ntop`) are an arbitrary
  `Oracle`, indexed by call number, over which every result quantifies.
- `Invariant`, `Keeps`, `Lifecycle`: the joint invariant, function by function, then per transition.
- `Progress`, `Switching`, `EveryEvent`: what every event achieves - what is attempted, looked up, set
  up or taken down - told by the state before it and by the answers of the surroundings, and gathered in
  one predicate, `EveryEvent.Achieves`, that holds of every event of every run.
- `Ownership`, `StaleTimers`, `Service`, `Retry`, `StaticAddress`, `Sync`, `Breaking`, `Agreement`,
  `LastWriter`, `Outcomes`, `EndToEnd`: the results. `Witnesses`: runs that reach the exceptional situations.
- `Ioctl`, `IoctlController`, `Controller`: the tunnel controller over a device table, as functions,
  as a class, and as the controller the plugin relies on.
- `Cares`, `CaresAdapter`: the c-ares adapter of one query, as functions and as a class.
- `PluginObjects`, `Plugin`: the lifecycle code as classes that update their fields in place. Each
  method does to its object what the function of the same name does, so that the entry points -
  writing a parameter, adding an instance, delivering a callback - carry the results over.
- `AddressBuffer`: the two 46-byte address buffers, written in place.

A parameter write and the handlers it triggers are one transition. A netmodel handler may run inside
the open call, a lookup may complete inside the call that starts it, and closing an outstanding
lookup delivers its failure from inside. A name that a DHCP report writes is handled after the
handler that wrote it, as the event queue does. Some fields are history: they are written and never
read by the modelled code. A lookup carries the method in force and the name when it was submitted
(`Lookup.via`, `Lookup.name`), a record the method its remote address came by (`via`, `usedVia`) and
whether a name was submitted and answered (`asked`, `answered`), an interface all names submitted
(`attempts`).

Most results ask the controller for one thing (`Model.Trusted`): that it reports success only with the
tunnel as requested. The ioctl controller keeps that promise (`Controller.IoctlIsTrusted`).

## Where the code falls short of the plain law

Each of these is kept as the code has it, reached by a concrete input or run, and replaced by an
exact condition.

- A record exists exactly while an interface is active, unless an instance is added with Enable = true
  while DSLite.Enable is true (`Ownership.OwnershipHoldsExactly`, `Ownership.AddedWhileOnFaults`).
- A DNS query that is replaced may leave a running timer behind, which then calls back into freed
  memory (`StaleTimers.NoTimerOutlivesExactly`, `Witnesses.NewNameLeavesTimer`, `Cares.CloseAlone`),
  and with its destroy timer running its channel, too (`StaleTimers.NoChannelStrandedExactly`,
  `Witnesses.NewNameStrandsChannel`).
- Retrying stops when the retry timer expires with an empty EndpointName
  (`Retry.RetryingEndsExactly`, `Retry.ClearedNameStalls`).
- Switching off with a lookup outstanding ends in Error (`Outcomes.SwitchOff`, `Outcomes.SwitchAllOff`,
  `Witnesses.SwitchOffEndsInError`).
- Tunnel, service and status part ways when an Enabled interface is set up again with addresses that
  `inet_pton` does not read, or before the remote address of a new method is known
  (`EndToEnd.KernelAgreesExactly`, `Agreement.AgreementHoldsExactly`, `Breaking.StepSync`,
  `Sync.SetupAgreesExactly`, `Witnesses.UnreadableWrite`, `Witnesses.SwitchThenWan`).
- Setup is rolled back for negative codes of the IP manager only, and a firewall that refuses is not
  noticed (`Outcomes.SetupAllOrNothing`); the roll-back does not reach the IP rows
  (`Outcomes.FailedSetupKeepsRows`).
- Emptying EndpointAddress does not empty the record (`StaticAddress.RecordMatchesExactly`,
  `StaticAddress.EnabledShowsExactly`, `Witnesses.ClearedAddressComesBack`), and a static address that
  was configured while the address query could not be opened is not picked up by writing it again
  (`LastWriter.LastWriterLaw`, `Witnesses.ListensWithoutAddress`).

## Model

| member | source | states |
|---|---|---|
| Ownership.EveryRunOwnsItsRecords | tr181-dslite-v0.10.6/src/dm_dslite_events.c:102-268 | With a trusted controller: in every state of every guarded run, for any number of interfaces: a private record is allocated and pointed to exactly while DSLite.Enable and Enable hold; every query, lookup and retry timer refers to an allocated record and no code followed a released or NULL record, query or timer handle; netmodel queries opened minus closed equals the non-NULL query fields. Timers of freed DNS queries are the subject of StaleTimers |
| Ownership.OwnershipHoldsExactly | tr181-dslite-v0.10.6/src/dm_dslite_events.c:73-100 | With a trusted controller: the record-iff-active law holds in every state of a run if and only if the run never adds an instance with Enable = true while DSLite.Enable is true |
| Ownership.AddedWhileOnFaults | tr181-dslite-v0.10.6/src/dm_dslite_events.c:140-152 | A concrete run for the excluded case: the instance added while on has no record, and its first static address follows the NULL record pointer |
| StaleTimers.NoTimerOutlivesExactly | tr181-dslite-v0.10.6/src/dslite_utils.c:149-178 | With a trusted controller: in every state of every guarded run no timer runs on a freed DNS query and none has called back, if and only if no event submits a name while the lookup of the record has its destroy timer running, sockets open, or its DNS timer running with no completion to come |
| StaleTimers.StepStale | tr181-dslite-v0.10.6/src/dslite_utils.c:170 | One event leaves a timer on exactly the query that it frees in that situation, and on no other |
| Witnesses.NewNameLeavesTimer | tr181-dslite-v0.10.6/src/dslite_cares.c:207-210 | A concrete run: a new name arrives while a socket is open, and the destroy timer of the freed query calls back |
| StaleTimers.NoChannelStrandedExactly | tr181-dslite-v0.10.6/src/dslite_cares.c:297-300 | With a trusted controller: in every state of every guarded run no channel of a freed DNS query is left behind, if and only if no event submits a name while the destroy timer of the lookup of the record runs |
| Witnesses.NewNameStrandsChannel | tr181-dslite-v0.10.6/src/dslite_cares.c:207-210 | A concrete run: a new name arrives while the destroy timer runs, and the channel is left behind |
| Service.EnabledMeansTunnel | tr181-dslite-v0.10.6/src/dslite_interface.c:259-299 | With a trusted controller: across every run with at most one active interface, Status = Enabled implies an up kernel tunnel between LocalAddress and EndpointAddressInUse, both non-empty, and both IP interfaces enabled |
| Service.AddressesKeepTheirSource | tr181-dslite-v0.10.6/src/dslite_interface.c:222-257 | With a trusted controller: in every run: a remote address of an active interface came from a lookup submitted under the current method, or was copied under it; every lookup in flight was submitted under the current method for the name submitted last; Enabled shows an address of 1 to 45 characters and an Origin that names the method it came by, every other status shows none; a static interface has no lookup, no DHCP query, no retry timer and is never Disabled, so the close-while-waiting branch is unreachable; an open DHCP query implies method DHCPv6; local address and netdev are known together and a lookup exists only with both; a known remote address excludes Disabled. What a local-address report does is Progress.ReportAddressOutcome |
| Retry.RetryingEndsExactly | tr181-dslite-v0.10.6/src/dslite_utils.c:109-178 | With a trusted controller, and when queries can be opened, every active interface that submitted a name has a lookup outstanding, its retry timer running or a successful last lookup in every state of a run, if and only if the run has no stalling event; and in every run each expiry of a retry timer submits EndpointName once more, unless it is empty |
| Retry.StepStaysAwake | tr181-dslite-v0.10.6/src/dslite_utils.c:109-120 | One event ends retrying exactly when it is the expiry of the retry timer with an empty EndpointName, no lookup outstanding and no success so far; with any other name the expiry submits it once |
| Retry.ClearedNameStalls | tr181-dslite-v0.10.6/src/dslite_utils.c:109-120 | A concrete run that stalls: no WAN address yet, the name is cleared, the timer expires |
| Agreement.AgreementHoldsExactly | tr181-dslite-v0.10.6/src/dslite_interface.c:259-299 | With a controller that accepts readable addresses, firewall and IP manager that accept, an inet_ntop whose texts are readable, reports that name known devices, and one active interface at a time: tunnel present, firewall service present and some interface Enabled are equivalent in every state of a run, if and only if no event has an Enabled interface set up again and turned down; changes of method, and whatever netmodel or c-ares report inside open calls, are covered |
| Sync.SetupAgreesExactly | tr181-dslite-v0.10.6/src/dslite_interface.c:259-279 | Setup breaks the agreement of tunnel, service and status exactly when the controller or a missing WAN interface refuses it while the interface was Enabled, or the IP manager answers with a positive code |
| Witnesses.UnreadableWrite | tr181-dslite-v0.10.6/src/dm_dslite_events.c:140-160 | A concrete run that breaks the agreement by one write of an unreadable EndpointAddress |
| Witnesses.SwitchThenWan | tr181-dslite-v0.10.6/src/dm_dslite_events.c:251-268 | A concrete run that breaks the agreement without an unreadable address: the method of an Enabled interface changes, and WANInterface is written while the lookup is in flight |
| StaticAddress.RecordMatchesExactly | tr181-dslite-v0.10.6/src/dslite_interface.c:118-137 | With a trusted controller: in every state of every guarded run the record of each static interface holds its EndpointAddress or no address, if and only if no event empties EndpointAddress while the record holds an address |
| StaticAddress.StepMatches | tr181-dslite-v0.10.6/src/dm_dslite_events.c:140-160 | One event parts record and EndpointAddress exactly when it empties EndpointAddress while the record holds an address |
| StaticAddress.EnabledShowsExactly | tr181-dslite-v0.10.6/src/dslite_interface.c:222-257 | With a trusted controller: in every state of every guarded run an Enabled static interface shows its EndpointAddress if and only if EndpointAddress is not empty |
| Witnesses.ClearedAddressComesBack | tr181-dslite-v0.10.6/src/dslite_interface.c:118-137 | A concrete run: emptying EndpointAddress goes to Error, and the next local-address report brings the tunnel back with the old remote address |
| LastWriter.LastWriterLaw | tr181-dslite-v0.10.6/src/dslite_netmodel.c:110-151 | For a listening static interface, whatever tunnel or service is left over, every sequence of local-address reports and EndpointAddress writes whose last report and last write are readable ends Enabled with tunnel, service and data model given by these two, if and only if EndpointAddress, if readable, had reached the record before |
| Witnesses.ListensWithoutAddress | tr181-dslite-v0.10.6/src/dslite_interface.c:301-322 | A concrete run to a listening interface whose EndpointAddress has not reached the record |
| EndToEnd.EnabledMeansKernelTunnel | tr181-dslite-v0.10.6/mod-dslite-ioctl/src/dslite_ioctl.c:143-253 | With the ioctl controller, under any pattern of failing system calls: Enabled implies that the device table holds an up tunnel dslite0 whose parsed endpoints are the two addresses shown |
| EndToEnd.KernelAgreesExactly | tr181-dslite-v0.10.6/mod-dslite-ioctl/src/dslite_ioctl.c:236-264 | With the ioctl controller, working system calls, accepting firewall and IP manager, and an inet_pton that reads what inet_ntop writes: kernel tunnel, firewall service and status are equivalent in every state of a run with one active interface at a time, if and only if no event has an Enabled interface set up again with addresses that inet_pton does not read, or with none |
| Lifecycle.StepKeeps | tr181-dslite-v0.10.6/src/dm_dslite_events.c:102-268 | Every transition of one interface keeps the joint invariant of record, queries, lookup, timer, status and static address, keeps Enabled true to the outside world, and keeps retrying alive unless a retry timer expires with an empty name. What the transition achieves is EveryEvent.EveryEventAchieves |
| Ownership.WorldStepKeeps | tr181-dslite-v0.10.6/src/dm_dslite_events.c:102-138 | The invariant of every interface survives any event of any interface and the loop over all instances |
| EveryEvent.EveryEventAchieves | tr181-dslite-v0.10.6/src/dm_dslite_events.c:102-268 | With a trusted controller: every event of a sound interface achieves exactly what the rows of Progress and Switching below say of it, or changes nothing when its query, lookup or timer is not there; an interface that is off only takes writes |
| EveryEvent.EveryRunAchieves | tr181-dslite-v0.10.6/src/dm_dslite_events.c:102-268 | The same for any event after any guarded run of any number of instances, with the records of all others as they were |
| EveryEvent.AddedWaits | tr181-dslite-v0.10.6/src/dm_dslite_events.c:73-100 | A new instance, after any run, keeps the parameters it was given, shows Disabled, no addresses and Origin DHCPv6, and nothing is opened for it or changed elsewhere |
| Progress.RetryOutcome | tr181-dslite-v0.10.6/src/dslite_utils.c:109-120 | When the retry timer expires the name is submitted once, whatever the status; without a local address the timer runs again; otherwise one lookup for the name is in flight under the current method, or was refused, or was answered at once, with an address that is then set up or with none, so that the timer runs; an empty name stops the timer and nothing else happens |
| Progress.ResolveOutcome | tr181-dslite-v0.10.6/src/dslite_utils.c:149-178 | The same account for every resolution, with its return code: -1 exactly when there is no local address or the query is refused; a lookup that was in flight fails first and takes the interface down |
| Progress.ReportAddressOutcome | tr181-dslite-v0.10.6/src/dslite_netmodel.c:110-151 | A local-address report, for every method: an empty one takes the interface down and keeps the record; any other is stored, and with a remote address known, an accepting controller and a known device it ends Enabled if and only if there is a WAN interface and both addresses read as IPv6, with tunnel, firewall service, IP rows and status parameters as the record has them |
| Progress.LookupDoneOutcome | tr181-dslite-v0.10.6/src/dslite_cares.c:135-164 | A completion that finds an address stores it, deletes the retry timer and sets up, with the same if-and-only-if; any other takes the interface down and starts the retry timer |
| Progress.SetNameOutcome | tr181-dslite-v0.10.6/src/dm_dslite_events.c:198-219 | A new name is stored, and submitted once unless it is empty or the address is static; Error when nothing could be started |
| Progress.ReportNameOutcome | tr181-dslite-v0.10.6/src/dslite_netmodel.c:76-108 | A name told by DHCP that counts becomes EndpointName and is submitted once, whether it is new or not; Error when nothing could be started; any other report changes nothing |
| Progress.SetAddressOutcome | tr181-dslite-v0.10.6/src/dm_dslite_events.c:140-160 | A static address is copied and set up, an emptied one takes the interface down, and under another method it is only stored |
| Progress.DestroyTimerOutcome | tr181-dslite-v0.10.6/src/dslite_cares.c:87-101 | When the destroy timer expires the channel is gone, and a lookup in flight fails, which takes the interface down and starts the retry timer |
| Progress.SetupOutcome | tr181-dslite-v0.10.6/src/dslite_interface.c:259-279 | Setting up in accepting surroundings ends Enabled if and only if there is a WAN interface and both addresses read as IPv6: then tunnel, service on that WAN interface, the two IP rows with their lower layers and the status parameters follow the record; other services and rows stay |
| Progress.DisableOutcome | tr181-dslite-v0.10.6/src/dslite_interface.c:281-299 | Taking down to Error withdraws service and IP rows if the interface was Enabled, and touches nothing outside otherwise |
| Switching.SetWanOutcome | tr181-dslite-v0.10.6/src/dm_dslite_events.c:251-268 | A new WAN interface: emptied or refused by netmodel, the interface is taken down; otherwise it is set up, whatever the status was, with the addresses of the record or those told inside the call, and ends Enabled if and only if they read as IPv6 |
| Switching.SwitchOutcome | tr181-dslite-v0.10.6/src/dm_dslite_events.c:162-249 | A new precedence or address type has the new method obtain the remote address: a static one is copied and set up, a name is submitted once, DHCP is asked and a name it tells at once is submitted once; missing or refused, Error; a lookup in flight fails first |
| Switching.SetEnableOutcome | tr181-dslite-v0.10.6/src/dslite_interface.c:311-322 | Switching on asks netmodel for the local address, Error without a WAN interface or refused, and then obtains the remote address by the method in force |
| Switching.DsliteOutcome | tr181-dslite-v0.10.6/src/dm_dslite_events.c:102-120 | The same for DSLite.Enable and the one instance that is enabled; all others stay as they are |
| Switching.SwitchOffOutcome | tr181-dslite-v0.10.6/src/dm_dslite_events.c:122-138 | Switching off an Enabled interface withdraws service and IP rows; switching off any other touches nothing outside |
| Outcomes.SwitchOff | tr181-dslite-v0.10.6/src/dslite_interface.c:96-116 | Switching off frees the record and everything opened for it, empties both addresses, and ends Disabled if and only if no lookup is outstanding; otherwise it ends Error |
| Outcomes.SwitchAllOff | tr181-dslite-v0.10.6/src/dm_dslite_events.c:102-120 | The same law for DSLite.Enable = false: every active interface ends with nothing allocated or open, and Disabled if and only if it had no lookup outstanding, otherwise Error; the others stay as they are |
| Witnesses.SwitchOffEndsInError | tr181-dslite-v0.10.6/src/dslite_cares.c:297-300 | A concrete run whose last event switches off and which ends in Error |
| Outcomes.NameReport | tr181-dslite-v0.10.6/src/dslite_netmodel.c:76-108 | A DHCP name report causes exactly one resolution attempt, with that name, and leaves EndpointName equal to it, if it is not empty and is short enough or unchanged; otherwise neither happens |
| Outcomes.NameReportOnSwitch | tr181-dslite-v0.10.6/src/dm_dslite_events.c:162-196 | The same count for a name that is reported from inside the call that opens the query on a change to DHCPv6 |
| Outcomes.NameReportOnEnable | tr181-dslite-v0.10.6/src/dm_dslite_events.c:122-138 | The same count for a name that is reported from inside the call that opens the query on switching on |
| Outcomes.NameReportOnDslite | tr181-dslite-v0.10.6/src/dm_dslite_events.c:102-120 | The same count for a name that is reported from inside the call while DSLite itself is switched on |
| Outcomes.LookupOutcome | tr181-dslite-v0.10.6/src/dslite_cares.c:135-164 | For every answer the remote address becomes the text of the first non-IPv4 node and the retry timer is gone, if there is such a node; otherwise the interface goes to Error, keeps its remote address and the retry timer runs |
| Outcomes.SetupAllOrNothing | tr181-dslite-v0.10.6/src/dslite_interface.c:259-279 | From a torn-down state setup ends fully set up or in Error with neither tunnel nor service, if and only if the controller refuses, or the firewall and the IP manager accept, or the IP manager answers with a negative code and no firewall service is left; it ends Enabled without a service exactly when only the firewall refused |
| Outcomes.FailedSetupKeepsRows | tr181-dslite-v0.10.6/src/dslite_interface.c:268-274 | A setup that ends in Error leaves the IP rows as they were exactly when it did not get to the tunneled IP interface, was refused there, or that row already had the new value |
| Outcomes.DisableTakesDown | tr181-dslite-v0.10.6/src/dslite_interface.c:281-299 | Taking an Enabled interface down, with a controller that can, and a firewall and an IP manager that accept, removes tunnel and service, switches both IP interfaces off, clears the lower layer and leaves every other row and service alone |
| Invariant.SetupKeeps | tr181-dslite-v0.10.6/src/dslite_interface.c:259-279 | Setup changes status parameters and surroundings only, never ends Disabled, and ends Enabled exactly when bringing up succeeded, showing the record's addresses; Origin is the precedence in either case |
| Invariant.DisableKeeps | tr181-dslite-v0.10.6/src/dslite_interface.c:281-299 | Disabling sets the requested status with empty addresses and Origin, changes nothing else of the interface, and leaves the surroundings alone unless it was Enabled |
| Keeps.ResolveKeeps | tr181-dslite-v0.10.6/src/dslite_utils.c:149-178 | Resolving a name replaces the lookup, keeps netmodel queries and local addresses, records one attempt, and leaves a lookup outstanding, a timer running or a success |
| Keeps.OpenAddressKeeps | tr181-dslite-v0.10.6/src/dslite_netmodel.c:177-198 | Opening the address query closes the old one and stores the new one, or stores NULL, or does nothing without a WAN interface, also when its handler runs inside the call |
| Keeps.OpenDhcpKeeps | tr181-dslite-v0.10.6/src/dslite_netmodel.c:153-175 | Opening the DHCP query closes the old one and stores the new one, or stores NULL, or does nothing without a WAN interface, also when its handler runs inside the call; a name told inside the call is resolved or queued once |
| Lifecycle.ProceedKeeps | tr181-dslite-v0.10.6/src/dslite_interface.c:140-177 | Obtaining the remote address and acting on the outcome keeps the invariant and decides the status of a static interface |
| Lifecycle.ProceedStatic | tr181-dslite-v0.10.6/src/dslite_interface.c:118-137 | A static address is copied into the record, cut to 45 characters, or missing exactly when EndpointAddress is empty, which leaves the record as it was; there is no lookup to wait for |
| Lifecycle.CleanupKeeps | tr181-dslite-v0.10.6/src/dslite_interface.c:96-116 | Cleaning up leaves nothing allocated or open; an outstanding lookup fails from inside and turns the status into Error |
| Lifecycle.SwitchKeeps | tr181-dslite-v0.10.6/src/dslite_utils.c:306-320 | Clearing after a method change leaves remote address, lookup, DHCP query and retry timer all gone, and restores the invariant under the new method |
| Breaking.StepSync | tr181-dslite-v0.10.6/src/dm_dslite_events.c:102-268 | One transition in cooperating surroundings leaves tunnel and service behind an interface in Error exactly for the events that Breaks names - an unreadable address written or reported, a WAN change or method change that cannot be set up, a lookup that finds an address beside an unreadable local one - and keeps all three together for every other |
| Ioctl.UpsertSets | tr181-dslite-v0.10.6/mod-dslite-ioctl/src/dslite_ioctl.c:236-253 | After a successful upsert exactly the row of the truncated name has changed: it is up and holds that name, protocol 4, encapsulation limit 4, hop limit 64, flags 3, the parsed local and remote addresses and the index of the netdev, and keeps its own index |
| Ioctl.FailedUpsert | tr181-dslite-v0.10.6/mod-dslite-ioctl/src/dslite_ioctl.c:143-203 | A failed upsert leaves the table untouched unless only the final bring-up failed, and then says what it left |
| Ioctl.UpsertSucceedsExactly | tr181-dslite-v0.10.6/mod-dslite-ioctl/src/dslite_ioctl.c:79-116 | With working system calls an upsert succeeds if and only if all arguments are non-empty, both addresses parse, the netdev exists and the name is free or a tunnel |
| Ioctl.UpsertIdempotent | tr181-dslite-v0.10.6/mod-dslite-ioctl/src/dslite_ioctl.c:236-253 | Repeating a successful upsert changes nothing in the table, whether or not the repetition succeeds, and with working calls it succeeds |
| Ioctl.DeleteRemoves | tr181-dslite-v0.10.6/mod-dslite-ioctl/src/dslite_ioctl.c:255-264 | A delete removes exactly the named tunnel or changes nothing; it needs the netdev to exist |
| Ioctl.AddThenDelete | tr181-dslite-v0.10.6/mod-dslite-ioctl/src/dslite_ioctl.c:236-264 | Add then delete restores a table that lacked the device |
| Ioctl.SocketsClosed | tr181-dslite-v0.10.6/mod-dslite-ioctl/src/dslite_ioctl.c:118-234 | On every path through both entry points each opened socket is closed once |
| Controller.HistoryFrame | tr181-dslite-v0.10.6/mod-dslite-ioctl/src/dslite_ioctl.c:236-264 | Over any sequence of calls, devices that no call names keep their rows and sockets balance |
| Controller.UpsertAfterAnyHistory | tr181-dslite-v0.10.6/mod-dslite-ioctl/src/dslite_ioctl.c:236-264 | After any history, a successful upsert decides the named tunnel, other devices are as at the start, all sockets are closed |
| Controller.IoctlIsTrusted | tr181-dslite-v0.10.6/mod-dslite-ioctl/src/dslite_ioctl.c:143-203 | The ioctl controller reports success only with the tunnel as requested |
| Controller.IoctlAccepts | tr181-dslite-v0.10.6/mod-dslite-ioctl/src/dslite_ioctl.c:236-264 | With working system calls it accepts, for known devices, exactly the arguments that parse, and takes tunnels down |
| IoctlController.Machine.GetTunnelParams | tr181-dslite-v0.10.6/mod-dslite-ioctl/src/dslite_ioctl.c:79-116 | The parameter block is filled if and only if the tunnel name and both addresses are given and the addresses parse; it then holds the truncated name, protocol 4, encapsulation limit 4, hop limit 64, flags 3 and the two addresses |
| IoctlController.Machine.SetInterfaceUp | tr181-dslite-v0.10.6/mod-dslite-ioctl/src/dslite_ioctl.c:118-141 | New kernel state and code as specified |
| IoctlController.Machine.Operate | tr181-dslite-v0.10.6/mod-dslite-ioctl/src/dslite_ioctl.c:143-203 | New kernel state and code as specified, for all three commands |
| IoctlController.Machine.Exists | tr181-dslite-v0.10.6/mod-dslite-ioctl/src/dslite_ioctl.c:206-234 | New kernel state and code as specified |
| IoctlController.Machine.AddOrModifyTunnel | tr181-dslite-v0.10.6/mod-dslite-ioctl/src/dslite_ioctl.c:236-253 | The imperative upsert refines the function about which the upsert laws are proved |
| IoctlController.Machine.RemoveTunnel | tr181-dslite-v0.10.6/mod-dslite-ioctl/src/dslite_ioctl.c:255-264 | The imperative delete refines its function |
| Cares.EveryHistoryMirrors | tr181-dslite-v0.10.6/src/dslite_cares.c:177-214 | After any sequence of socket-state callbacks, completions and timer expiries the event loop watches exactly the listed sockets, each once; one completion and one destruction per query; an idle channel has its destroy timer running |
| Cares.DeleteThenClose | tr181-dslite-v0.10.6/src/dslite_cares.c:285-326 | Deleting the timers and then closing leaves no socket and no timer, with the channel destroyed once and the lookup completed once, whether or not the destroy timer fired before |
| Cares.CloseAlone | tr181-dslite-v0.10.6/src/dslite_cares.c:285-308 | Closing without deleting the timers leaves no running timer exactly under the stated condition, and leaves the channel behind exactly when its destroy timer runs |
| Cares.CloseWithSocket | tr181-dslite-v0.10.6/src/dslite_cares.c:207-210 | A concrete history after which closing leaves the destroy timer running |
| Cares.SocketOutcome | tr181-dslite-v0.10.6/src/dslite_cares.c:177-214 | A socket-state callback adds or removes that socket; a new one starts the DNS timer, also beside others, and a known one does not; when the list is empty an existing destroy timer starts |
| Cares.LookupView | tr181-dslite-v0.10.6/src/dslite_cares.c:285-326 | Completion, deletion of the timers and both expiries act on the view that the rest of the plugin has of a query as they do there |
| Cares.SocketView | tr181-dslite-v0.10.6/src/dslite_cares.c:177-214 | A socket callback acts on that view as Resolver.SocketChanged says: sockets, DNS timer and destroy timer |
| Cares.CloseView | tr181-dslite-v0.10.6/src/dslite_cares.c:285-308 | Closing reports a failure, leaves the channel behind, and leaves a running timer exactly when Resolver.CloseLookup and Resolver.LeavesTimer say so; after deletion of the timers none is left |
| Cares.ListGet | tr181-dslite-v0.10.6/src/dslite_cares.c:75-85 | Finds the first entry with a value, or says that there is none |
| CaresAdapter.DnsQuery.ListGet | tr181-dslite-v0.10.6/src/dslite_cares.c:75-85 | The loop over the list finds the same entry |
| CaresAdapter.DnsQuery.SockState | tr181-dslite-v0.10.6/src/dslite_cares.c:177-214 | List, event loop and timers after a socket-state callback as specified |
| CaresAdapter.DnsQuery.AddrInfo | tr181-dslite-v0.10.6/src/dslite_cares.c:135-164 | The loop over the answer reports the first non-IPv4 node |
| CaresAdapter.DnsQuery.DestroyExpired | tr181-dslite-v0.10.6/src/dslite_cares.c:87-101 | Destroy timer expiry as specified |
| CaresAdapter.DnsQuery.Close | tr181-dslite-v0.10.6/src/dslite_cares.c:285-308 | Sockets leave the event loop one by one, then the channel goes, as specified |
| CaresAdapter.DnsQuery.DeleteTimers | tr181-dslite-v0.10.6/src/dslite_cares.c:320-326 | Both timers are gone |
| Resolver.FirstV6 | tr181-dslite-v0.10.6/src/dslite_cares.c:148-157 | The first node that is not IPv4, if any |
| AddressBuffer.Buffer.Copy | tr181-dslite-v0.10.6/src/dslite_interface.c:131 | The text is the source cut to 45 characters, with zeros after it: always terminated, no stale suffix |
| AddressBuffer.Buffer.Clear | tr181-dslite-v0.10.6/src/dslite_utils.c:309 | The text is empty |
| AddressBuffer.CStringIs | tr181-dslite-v0.10.6/src/dslite_interface.c:131 | The text of a buffer is what precedes its first terminator |
| Basics.Trunc | tr181-dslite-v0.10.6/src/dslite_interface.c:131 | The longest prefix of at most n characters |
| PluginObjects.InterfaceObject.Dispatch | tr181-dslite-v0.10.6/src/dm_dslite_events.c:102-268 | Delivering a parameter write or callback to an interface object makes one transition; a sound object achieves what the event asks (EveryEvent.Achieves), stays sound, has followed no pointer to nothing, and has its record allocated exactly while it is active |
| Plugin.Dslite.SetEnable | tr181-dslite-v0.10.6/src/dm_dslite_events.c:102-120 | The loop over all instances and the queued events make one transition of the whole plugin, which keeps every instance sound, records exact, and Enabled instances served |
| Plugin.Dslite.AddInstance | tr181-dslite-v0.10.6/src/dm_dslite_events.c:73-100 | A new instance is stored and not switched on; the plugin stays sound unless it is on and the instance has Enable set |
| Plugin.Dslite.Dispatch | tr181-dslite-v0.10.6/src/dm_dslite_events.c:122-268 | An event of one instance makes one transition of the whole plugin, in which that instance achieves what the event asks (EveryEvent.Achieves), and which keeps every instance sound, records exact, and Enabled instances served |

## Left out

- Plugin start and stop, module loading and ODL parsing: library plumbing.
- The amx bus, variants, transactions, netmodel, c-ares, `inet_pton` and `inet_ntop`: parameters of the model.
- Memory exhaustion: allocations of records, timers and strings succeed; opening queries may fail.
- Read-only and persistent attributes of EndpointName: any name may be written at any time instead, which allows more runs.
- Instance deletion: it has no handler.
- Invalid enumeration strings: `check_enum` refuses them, so precedence, address type and status are enumerations.
- Other users of `dslite0`, of the firewall service and of the IP rows: nothing else changes them.
- Several active interfaces at once: covered by the results about records, timers, sources, static addresses and retrying, not by those about the one tunnel.
- What a callback into a freed DNS query does: it is recorded (`wild`) and the rest of the state stays as it is.
- StaticAddress.RecordMatchesExactly: is about the record, because a run may end before a report brings the old address back into use; for the address in use see StaticAddress.EnabledShowsExactly.
- CaresAdapter.DnsQuery: sockets that c-ares opens or closes are events; which ones it opens is not modelled.
- PluginObjects.InterfaceObject: records are values in a map from pointers, so that a released record is an absent key; their buffers are strings of at most 45 characters, as `AddressBuffer` justifies.
- Logging, and wall-clock durations: a timer runs or it does not.
