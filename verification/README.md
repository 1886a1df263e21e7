# SpWKit in Dafny

SpWKit is a software stack for SpaceWire links. This project models its stateful
cores and proves what they promise over every input and every run:

- **vspwd**, the daemon behind the DEVICE backend (`src/vspwd/server.c`): two
  virtual ports, four clients, an optional UDP bridge, bounded rings, one
  response slot per client, monitor masks and statistics. `Daemon` gives every
  handler as one atomic step over values, `DaemonInvariant` what every reachable
  state satisfies, and `DaemonMonitors`, `DaemonReattach`, `DaemonLedger`,
  `DaemonFifo`, `DaemonTimeCodes`, `DaemonOwners`, `DaemonPairing`,
  `DaemonTraffic` and `DaemonQuiescence` the theorems over whole runs.
  `DaemonRequests`, `DaemonBridging` and `DaemonReports` say from outside what
  each request, bridge step and record does and means, and `LinkHistory` derives
  every link state from the history of requests granted. `DaemonCells` and
  `DaemonServer` are the same handlers in place, on mutable port and client
  structures with rings and reassembly buffers; each method is proved equal to
  the step it implements, and serving any steps from boot is proved to be a run,
  so the theorems hold of the structures as well.
- **The VSPD path**: the codec and frame validator (`Vspd`, `VspdBuffers`,
  `Payloads`) and what they put at which byte (`WireFormat`), fragmentation
  (`Fragments`, `PacketJoins`), the device client (`DeviceEvents`,
  `DeviceClient`), what a client reads from its socket (`Inbox`) and makes of it
  (`ClientOutcomes`), the composed path through the daemon (`PacketPath`), and
  what the owner of a port sees of it through its device (`OwnerDevices`).
- **The management client** (`SnapshotQueue`, `Observation`, `ManagementClient`,
  `ManagementSession`): a coalescing ring of snapshots, composed with the
  daemon's monitor masks, for any sequence of calls.
- **Zero-copy ownership** (`Driver`, `DriverOwnership`, `DriverHistory`,
  `DriverPort`): the slot table of the DRIVER backend under the epoch guard of
  the port, with the hardware provider as an arbitrary environment;
  `DriverHistory` derives the table and every outcome from the history of calls.
- **The CUSE presenter** (`CuseRecord`, `CuseBroker`, `CuseHistory`,
  `CusePresenter`): two threads over three rings, one step for each lock region.
- **The fault injector** (`Faults`, `FaultRuns`, `FaultPattern`,
  `FaultInjector`) and the **workspace layout** (`Alignment`, `Workspace`).

`Words`, `Division` and `Rings` hold what several parts share: machine words
with explicit widths and wrap-around, remainders, and rings over fixed arrays.

## How to read it

A run is a list of states and a list of steps (`IsRun`). Sockets are FIFOs of
records whose sends may fail without effect; a step that sends carries the
outcome of its sends. The UDP port behind the bridge, the hardware provider, the
kernel and the clock answer as they like: their answers are parameters of steps
and methods. Counters wrap at their width; equations between counters hold
modulo 2^64.

Assumptions about what lies outside:

- The UDP port, and the port behind the CUSE presenter, report a link state of
  the enumeration, packets of at most 1 MiB and time codes within the protocol's
  range.
- Pointers are valid; the checks for null pointers are not modelled.
- `device_send` does not check the packet's length; packets are at most 1 MiB.
- The device client's identifiers wrap to zero. `FragmentWellShaped` states
  exactly which identifiers the validator accepts, zero not among them.
- FUSE callbacks run one at a time beside the broker thread, because the
  presenter starts FUSE single-threaded (`src/cuse/spwcuse.c:777`).
- A slot address may be handed out again after a reset, so ownership is stated
  for buffers handed out since the last successful reset.

Results the code alone does not show:

- Of the tests daemon and device client make on a fragment, only the one of its
  place can fail on a validated frame: `DaemonBreaksOnlyOutOfPlace` and
  `DeviceRefusesOnlyOutOfPlace` say exactly which frames are refused, and which
  of them cost the packet being joined.
- A client that owns a port is sent no snapshots and none are marked for it
  (`src/vspwd/server.c:365-379`), so a subscriber that owns a port for a while can
  come back to an outdated one with none due: `SubscriberGoesStale` and
  `OtherPortGoesStale` are such runs from boot, for the port it owned and for the
  other one. `CoherenceAcrossOwnership` proves, for every run and whatever happens
  in between, exactly when it does not: if a snapshot was due when it attached;
  or, for the port it owned, if that port had been attached before and its
  statistics are at the detach what they were before the attach; or, for the other
  port, if its snapshot is unchanged or the detach takes its link down.
- CUSE replies are made after the lock is dropped. A read cancelled by release
  can therefore be answered while the broker still holds an older one:
  `OvertakingHappens` gives such a run, and `ArrivalOrder` proves that reads are
  answered in arrival order exactly in the runs without such a step. An
  application that closes the device only once its reads have come back never
  sees it (`IdleReleaseOrder`).

## Model

| member | source | states |
|---|---|---|
| `Words.Be32RoundTrips` | src/backends/device/vspw_device_protocol.c:11-33 | reading and writing undo each other for every 32-bit word, and the first byte weighs 2^24, the last 1 |
| `Words.Be64RoundTrips` | src/backends/device/vspw_device_protocol.c:18-38 | the same for 64-bit words |
| `Vspd.DecodeUndoesEncode` | src/backends/device/vspw_device_protocol.c:287-346 | the header read from an encoded header is that header, all 40 bytes and the signed status included |
| `Vspd.EncodeUndoesDecode` | src/backends/device/vspw_device_protocol.c:287-346 | the bytes of a decoded header are the bytes it came from, so no two images share a header |
| `Vspd.ParseInvertsBytes` | src/backends/device/vspw_device_protocol.c:86-377 | a record comes back from its frame if and only if it is well shaped |
| `Vspd.BytesInvertsParse` | src/backends/device/vspw_device_protocol.c:348-377 | every accepted frame is the image of the well-shaped record read from it |
| `VspdBuffers.EncodeHeader` | src/backends/device/vspw_device_protocol.c:287-313 | the buffer gets exactly the 40-byte image, or is left alone when the common fields are invalid; bytes behind it are untouched |
| `VspdBuffers.ReadHeader` | src/backends/device/vspw_device_protocol.c:315-346 | the header decoded from the first bytes of a buffer, with truncation and each refusal |
| `ByteBuffers.WriteBe32` | src/backends/device/vspw_device_protocol.c:28-33 | the word lands at its place, most significant byte first, and no other byte changes |
| `Payloads.StatisticsRoundTrip` | src/backends/device/vspw_device_protocol.c:459-489 | the statistics codec is a bijection on 72 bytes |
| `Payloads.PortInfoRoundTrip` | src/backends/device/vspw_device_protocol.c:413-433 | the port-information codec is a bijection on 16 bytes |
| `Payloads.SnapshotRoundTrip` | src/backends/device/vspw_device_protocol.c:491-511 | the snapshot codec is a bijection on 88 bytes |
| `Payloads.ServerInfoRoundTrip` | src/backends/device/vspw_device_protocol.c:389-411 | the server-information codec is a bijection on 20 bytes |
| `Payloads.CapabilitiesRoundTrip` | src/backends/device/vspw_device_protocol.c:435-457 | the capabilities codec is a bijection on 24 bytes |
| `WireFormat.Be16Places` | src/backends/device/vspw_device_protocol.c:23-26 | the two bytes of a 16-bit word are its base-256 digits, the most significant first |
| `WireFormat.Be32Places` | src/backends/device/vspw_device_protocol.c:28-33 | byte k of a 32-bit word is its base-256 digit of weight 3-k |
| `WireFormat.Be64Places` | src/backends/device/vspw_device_protocol.c:35-38 | byte k of a 64-bit word is its digit of weight 7-k |
| `WireFormat.ImagesAreRead` | src/backends/device/vspw_device_protocol.c:7-21 | the word read from two, four or eight bytes is the one whose digits they are |
| `WireFormat.HeaderPlaces` | src/backends/device/vspw_device_protocol.c:287-313 | the byte place of every field of the 40-byte header |
| `WireFormat.HeaderBegins` | src/backends/device/vspw_device_protocol.c:86-110 | the literal first bytes of every header the common checks let through |
| `WireFormat.CommonVerdict` | src/backends/device/vspw_device_protocol.c:86-110 | which of the common checks fails first, with the numbers of the protocol |
| `WireFormat.FrameVerdict` | src/backends/device/vspw_device_protocol.c:348-377 | the verdict on every frame: header, then length, then shape |
| `WireFormat.RequestsLetThrough` | src/backends/device/vspw_device_protocol.c:112-285 | exactly which requests and events the validator lets through, type by type |
| `WireFormat.ResponsesLetThrough` | src/backends/device/vspw_device_protocol.c:155-285 | exactly which responses it lets through, with their payload sizes |
| `WireFormat.ProtocolNumbers` | src/backends/device/vspw_device_protocol.h:30-90 | message types and status codes as numbers |
| `WireFormat.StatisticsPlaces` | src/backends/device/vspw_device_protocol.c:459-473 | the place and order of the nine counters |
| `WireFormat.PortInfoPlaces` | src/backends/device/vspw_device_protocol.c:413-422 | the places of flags, link state and queue counts |
| `WireFormat.SnapshotPlaces` | src/backends/device/vspw_device_protocol.c:491-500 | the places of port information and counters in a snapshot |
| `WireFormat.ServerInfoPlaces` | src/backends/device/vspw_device_protocol.c:389-399 | the places of the five server limits |
| `WireFormat.CapabilitiesPlaces` | src/backends/device/vspw_device_protocol.c:435-445 | the places of feature bits and limits |
| `WireFormat.FragmentFlagByte` | src/vspwd/server.c:1053-1118 | the flag byte of every fragment: 2 first, 4 last, 8 or 16 with its end |
| `WireFormat.FragmentFields` | src/vspwd/server.c:1053-1118 | offset, total, size and bytes of every fragment |
| `WireFormat.CuseHeaderPlaces` | src/cuse/vspw_cuse_record.c:43-64 | the sixteen bytes of every CUSE record header |
| `WireFormat.CuseRecordBytes` | src/cuse/spwcuse.c:154-195 | the bytes of the record a packet or a time code becomes |
| `Fragments.FragmentWellShaped` | src/backends/device/vspw_device_protocol.c:112-153 | a fragment at a frame boundary validates if and only if its identifiers are those its direction calls for |
| `Fragments.SplitAtBoundary` | src/backends/device/device_backend.c:629-684 | the fragments before and from any boundary make up all fragments of the packet |
| `PacketJoins.DaemonBreaksOnlyOutOfPlace` | src/vspwd/server.c:447-488 | a validated DATA_TX frame breaks the daemon's joining if and only if it neither starts a packet nor goes on where the one being joined stands |
| `PacketJoins.DeviceRefusesOnlyOutOfPlace` | src/backends/device/device_backend.c:242-286 | a validated DATA_RX frame is refused exactly if a packet is held or the frame is out of place, and the packet being joined is dropped exactly if a frame of it does not go on where it stands |
| `PacketJoins.DaemonUndoesSplit` | src/vspwd/server.c:447-488 | from the fragments of any packets, empty ones included, the daemon joins exactly those packets and is idle again |
| `PacketJoins.DeviceUndoesSplit` | src/backends/device/device_backend.c:242-286 | from the fragments of any packets a device joins exactly those packets and is ready for more |
| `PacketJoins.DeviceTakesPart` | src/backends/device/device_backend.c:242-286 | after the fragments before a boundary the receiver holds exactly that prefix |
| `PacketPath.PathIdentity` | src/vspwd/server.c:447-502 | the path is the identity: a sender that starts as owner and conforms keeps its port, the daemon joins exactly the packets it splits, and the receiver rebuilds exactly the acknowledged ones in order, short of those still queued |
| `PacketPath.RunJoins` | src/vspwd/server.c:411-502 | along any run of a conforming sender it keeps its port, its fragments are joined as sent, and the packets accepted for the peer are exactly the offered ones that were acknowledged |
| `PacketPath.StepSends` | src/vspwd/server.c:411-502 | a step in which the sender conforms leaves it its port and moves the packet it is sending on by exactly the fragment taken |
| `PacketPath.AcknowledgedAreOffered` | src/vspwd/server.c:489-501 | when every offered packet was acknowledged, the two lists are equal |
| `DaemonInvariant.UpdateStatesSettles` | src/vspwd/server.c:162-217 | one left-to-right pass makes every stored link state the calculated one, from any well-shaped state |
| `DaemonInvariant.NextInv` | src/vspwd/server.c:121-1299 | every handler keeps one-to-one attachment, unowned bridged ports, empty queues of free and latched ports, nonzero identifiers, fragment boundaries and settled link states |
| `DaemonInvariant.ReachableInv` | src/vspwd/server.c:683-719 | that invariant holds in every state of every run from boot, with or without a bridge |
| `DaemonInvariant.RunIsMutual` | src/vspwd/server.c:162-195 | a client port in RUN has an owner and a peer in RUN |
| `DaemonInvariant.AnswerWellShaped` | src/vspwd/server.c:248-282 | every response queued passes the client's validator, whatever the request and its outcome |
| `DaemonRuns.SentWellShaped` | src/vspwd/server.c:1019-1236 | every record a flush sends in a state of the invariant passes the validator |
| `DaemonRuns.EmittedFramesParse` | src/vspwd/server.c:1019-1236 | the bytes sent on any socket in any run parse back to the record meant |
| `DaemonMonitors.StepNoticed` | src/vspwd/server.c:365-379 | no step changes a watched port's snapshot without marking it, and none loses a pending bit |
| `DaemonMonitors.FlushUnattachedSends` | src/vspwd/server.c:1162-1197 | a pending bit is cleared only by sending the port's current snapshot |
| `DaemonMonitors.MonitorCoherence` | src/vspwd/server.c:996-1003 | in every run a subscriber that stays subscribed and unattached has the snapshot pending or was last sent the current one |
| `DaemonReattach.StepFreezes` | src/vspwd/server.c:365-379 | no step changes the monitor masks of a client that owns a port before and after it |
| `DaemonReattach.OwnerSentNoSnapshot` | src/vspwd/server.c:1214-1236 | the owner of a port is sent no snapshot |
| `DaemonReattach.DetachFrees` | src/vspwd/server.c:381-398 | a detach frees its port, and moves the other one, marking it, exactly if that one is owned and started |
| `DaemonReattach.ReattachedSubscriber` | src/vspwd/server.c:365-398 | from any attach to the detach, whatever happens between, a coherent subscriber keeps its subscription and is coherent again if and only if a snapshot was due already or what it knew still holds: for the port it owned everAttached and statistics, for the other its snapshot, unless the detach marks it |
| `DaemonReattach.CoherenceAcrossOwnership` | src/vspwd/server.c:365-398 | the same for every run from boot, from the subscription on |
| `DaemonReattach.SubscriberGoesStale` | src/vspwd/server.c:365-398 | a run from boot, each answer sent before the next request, that ends with a subscriber of port 0 that is not coherent, after it attached and detached that port |
| `DaemonReattach.OtherPortGoesStale` | src/vspwd/server.c:365-398 | a run from boot that ends with a subscriber of port 1 that is not coherent, after another client attached that port while it owned port 0 |
| `DaemonLedger.LinkErrorsCountEntries` | src/vspwd/server.c:197-217 | between attaches and clears the error counter grows by the number of entries to ERROR_WAIT, for bridged ports too |
| `DaemonLedger.RefreshCounts` | src/vspwd/server.c:527-551 | publishing a bridge state counts its entry once although the pass follows |
| `DaemonLedger.StepConserves` | src/vspwd/server.c:411-445 | no step without attach, detach, reset or clear changes what is sent minus received minus queued |
| `DaemonLedger.Conservation` | src/vspwd/server.c:411-666 | over any such run sent packets, bytes and time codes grow by what the peer received plus what its rings gained |
| `DaemonFifo.StepQueue` | src/vspwd/server.c:411-445 | what one step appends to, sends from and takes off a port's queue |
| `DaemonFifo.FifoDelivery` | src/vspwd/server.c:1053-1118 | the DATA_RX records sent are all fragments of the accepted packets, packet after packet, short of exactly the queue; only the head may be partly sent |
| `DaemonFifo.BridgeDelivery` | src/vspwd/server.c:553-576 | packets accepted for a bridged port are those carried by UDP followed by the queue |
| `DaemonTimeCodes.StepCodes` | src/vspwd/server.c:504-525 | accepted time codes join a port's ring at its end, and what is sent or carried comes off its front |
| `DaemonTimeCodes.TimeCodeDelivery` | src/vspwd/server.c:1120-1160 | the time codes accepted for a port since its attach or reset are those sent to its owner, in order, followed by the ring |
| `DaemonTimeCodes.BridgedTimeCodes` | src/vspwd/server.c:578-597 | for a bridged port they are those handed to UDP, in order, followed by the ring |
| `DaemonOwners.StepInforms` | src/vspwd/server.c:197-217 | no step leaves the owner of a port without a link state event due for a state it was not last told |
| `DaemonOwners.OwnerCoherence` | src/vspwd/server.c:1019-1051 | in every run from an attach on, the owner has a link state event due or was last told the port's link state |
| `OwnerDevices.DeviceReflects` | src/backends/device/device_backend.c:231-288 | however reading records and taking packets and time codes interleave, a device that refuses no event shows the last link state read and has handed over or holds exactly the codes and packets read |
| `OwnerDevices.OwnersView` | src/backends/device/device_backend.c:231-288 | composed with the daemon: the device shows the port's link state unless an event is due, and taken, held and queued codes and packets are exactly those accepted for the port, in order |
| `DaemonPairing.VerdictShape` | src/vspwd/server.c:721-1017 | an admissible request is answered or ends the connection, except a DATA_TX fragment with more to come, which is never answered |
| `DaemonPairing.Pairing` | src/vspwd/server.c:248-294 | along a connection the responses sent and held answer the requests that call for one, in order, one each, with type, request and port kept and no payload on failure |
| `DaemonRequests.LinkStates` | src/vspwd/server.c:162-195 | one if-and-only-if for each link state of a port, over who owns the two ports and what they did; STARTED never |
| `DaemonRequests.ReachableLinks` | src/vspwd/server.c:162-217 | the same in every state the daemon reaches, with a bridged port showing the UDP link |
| `DaemonRequests.LinkNumbers` | include/spwkit/types.h:59-66 | the six link states as numbers |
| `DaemonRequests.StopEffect` | src/vspwd/server.c:813-821 | after STOP: not started, not latched, READY, rings, counters and owner kept, a local peer that was up CONNECTING, answer OK |
| `DaemonRequests.StartEffect` | src/vspwd/server.c:803-811 | after START: started, not latched, RUN, ERROR_WAIT or CONNECTING by the peer alone, a local peer that is up in RUN |
| `DaemonRequests.ResetEffect` | src/vspwd/server.c:823-833 | after RESET: stopped, latched in ERROR_RESET, both rings and the packet being joined gone, counters kept |
| `DaemonRequests.AttachEffect` | src/vspwd/server.c:766-791 | after ATTACH: the port is the client's, READY with the event due, stopped, empty, counters and identifiers anew |
| `DaemonRequests.DetachEffect` | src/vspwd/server.c:381-398 | after DETACH: the port is nobody's and empty, a local peer that was up shows ERROR_WAIT |
| `DaemonRequests.CloseEffect` | src/vspwd/server.c:400-409 | a connection that ends vacates its port as DETACH does, and its slot is as at boot |
| `DaemonRequests.HelloEffect` | src/vspwd/server.c:751-764 | HELLO is answered with version 1.3 and greets the client, if it owns no port |
| `DaemonRequests.ClearEffect` | src/vspwd/server.c:924-994 | clearing zeroes all nine counters of the port and announces it, for its owner or any manager |
| `DaemonRequests.SubscribeEffect` | src/vspwd/server.c:996-1003 | a subscription adds one port, and its first snapshot is due at once |
| `DaemonRequests.UnsubscribeEffect` | src/vspwd/server.c:1005-1013 | taking it back removes that port and what was due |
| `DaemonRequests.TimeCodeEffect` | src/vspwd/server.c:504-525 | a time code is refused without link, dropped and counted with a full ring, queued at the peer otherwise |
| `DaemonRequests.OwnRefused` | src/vspwd/server.c:296-305 | a request about a port not owned changes nothing; its status says which check failed |
| `DaemonRequests.ManagementRefused` | src/vspwd/server.c:307-318 | the same for the management plane |
| `DaemonRequests.AttachRefused` | src/vspwd/server.c:766-791 | exactly when an attach is refused, and with which status |
| `DaemonRequests.DataRefused` | src/vspwd/server.c:447-502 | a last fragment from a client without port is answered and what was joined forgotten |
| `DaemonRequests.HangsUpExactly` | src/vspwd/server.c:721-749 | exactly which inputs make the daemon close the connection |
| `DaemonBridging.AcceptEffect` | src/vspwd/server.c:1273-1299 | a connection gets the first free of four slots, clean; with none free nothing happens |
| `DaemonBridging.RefreshEffect` | src/vspwd/server.c:527-551 | the bridged port shows the link reported, or ERROR_WAIT without a report, and its peer follows |
| `DaemonBridging.PopPacketEffect` | src/vspwd/server.c:553-576 | a packet handed to the UDP port leaves the ring, counted with its bytes |
| `DaemonBridging.PopTimeCodeEffect` | src/vspwd/server.c:578-597 | likewise a time code |
| `DaemonBridging.PushPacketEffect` | src/vspwd/server.c:599-639 | a packet of the UDP port is queued exactly if both links run and there is room |
| `DaemonBridging.PushTimeCodeEffect` | src/vspwd/server.c:641-666 | likewise a time code |
| `DaemonBridging.BridgeIdles` | src/vspwd/server.c:527-666 | without bridge, link, traffic or success the bridge steps do nothing |
| `DaemonBridging.BootEffect` | src/vspwd/server.c:219-235 | the state at boot, with or without a bridge |
| `DaemonReports.FlagBitsMean` | src/vspwd/server.c:334-355 | what each bit of a port's flags says |
| `DaemonReports.InfoDescribes` | src/vspwd/server.c:334-355 | the sixteen bytes of port information describe the port: flags, link number, queue counts |
| `DaemonReports.OwnReports` | src/vspwd/server.c:835-922 | the answers to an owner's queries, byte by byte; nothing else changes |
| `DaemonReports.ManagerReports` | src/vspwd/server.c:934-984 | the answers to a manager's queries, byte by byte; nothing else changes |
| `DaemonReports.SnapshotReports` | src/vspwd/server.c:1162-1197 | every snapshot record describes its port and counts its traffic |
| `DaemonReports.StateReports` | src/vspwd/server.c:1019-1051 | a link-state event carries the number of the state |
| `DaemonReports.CodeReports` | src/vspwd/server.c:1120-1160 | a time-code event carries count and flags |
| `DaemonReports.OwnerFlush` | src/vspwd/server.c:1214-1236 | what an owner is sent: link state, fragment, time code, in this order up to the first failure |
| `DaemonReports.AnswerFirst` | src/vspwd/server.c:1214-1236 | an answer goes first and alone |
| `DaemonReports.MonitorFlush` | src/vspwd/server.c:1162-1197 | a manager is sent one snapshot at a time, port 0 first, as the port is then |
| `LinkHistory.StepStands` | src/vspwd/server.c:721-1017 | one step moves a port's standing exactly by the requests granted and the connections that end |
| `LinkHistory.LinkFollowsHistory` | src/vspwd/server.c:162-217 | in every run the link state of a port follows from the history of granted ATTACH, START, STOP, RESET, DETACH and departures alone |
| `DaemonTraffic.SubmitFate` | src/vspwd/server.c:489-501 | a packet is refused exactly if its port is not in RUN, dropped and counted once exactly if the peer's ring is full, queued otherwise; the second link check never refuses |
| `DaemonTraffic.SubmitTimeCodeFate` | src/vspwd/server.c:884-906 | the same for time codes |
| `DaemonTraffic.FinalFragmentFate` | src/vspwd/server.c:867-882 | the same for the last DATA_TX fragment in any reachable state, with the status of its response |
| `DaemonTraffic.StartBringsBothUp` | docs/vspwd.md:68-76 | starting the second of two attached ports brings both to RUN |
| `DaemonTraffic.PeerLossShows` | docs/vspwd.md:68-76 | when a port's owner goes, its started peer is in ERROR_WAIT |
| `DaemonTraffic.ResetHoldsLink` | src/vspwd/server.c:823-833 | a reset port is in ERROR_RESET and no local peer is in RUN |
| `DaemonQuiescence.FlushProgress` | src/vspwd/server.c:1214-1236 | every successful flush of a client with output lowers a measure of what is outstanding |
| `DaemonQuiescence.Quiescence` | src/vspwd/server.c:1199-1236 | flushing clients with output ends after at most that many flushes, in any order |
| `DaemonQuiescence.Drains` | src/vspwd/server.c:1199-1236 | rest can be reached from every state of the invariant |
| `DaemonQuiescence.OutputIsWhatFlushSends` | src/vspwd/server.c:1199-1212 | a client reports output if and only if a flush would send something |
| `DaemonQuiescence.RestIsNothingOutstanding` | src/vspwd/server.c:1199-1212 | without a bridge no client has output if and only if nothing is outstanding anywhere |
| `DaemonCells.PortCell.Put` | src/vspwd/server.c:411-445 | the ring gains the packet last, under a nonzero identifier that skips zero on wrap |
| `DaemonCells.PortCell.TakeId` | src/vspwd/server.c:121-130 | identifiers are consecutive and skip zero on 32-bit wrap |
| `DaemonCells.PortCell.PutCode` | src/vspwd/server.c:504-523 | the time-code ring gains the code last |
| `DaemonCells.PortCell.Took` | src/vspwd/server.c:570-574 | the head packet leaves the ring and is counted received, bytes included |
| `DaemonCells.PortCell.ClearQueues` | src/vspwd/server.c:136-160 | both rings are empty afterwards, nothing else changes |
| `DaemonCells.PortCell.Advance` | src/vspwd/server.c:1107-1117 | the head moves on by the chunk sent, or leaves the ring and is counted received |
| `DaemonCells.PortCell.TookCode` | src/vspwd/server.c:1154-1158 | the oldest time code leaves the ring and is counted |
| `DaemonCells.PortCell.Free` | src/vspwd/server.c:381-398 | a freed port has no owner, no command, no queue and no pending event |
| `DaemonCells.PortCell.Claim` | src/vspwd/server.c:766-791 | an attached port starts fresh: owner set, statistics and queues empty, identifiers from one |
| `DaemonCells.PortCell.Relink` | src/vspwd/server.c:207-215 | a moved link state raises the event flag and counts an entry to ERROR_WAIT |
| `DaemonCells.PortCell.PublishLink` | src/vspwd/server.c:537-545 | the bridged port takes the remote state and counts an entry to ERROR_WAIT, without an event for an owner |
| `DaemonCells.PortCell.Latch` | src/vspwd/server.c:823-833 | a reset port is stopped, latched and empty |
| `DaemonCells.ClientCell.Join` | src/vspwd/server.c:447-488 | the fragment lands inside the 1 MiB buffer behind what was joined, or is refused, as the joining function says |
| `DaemonCells.ClientCell.ClearReassembly` | src/vspwd/server.c:148-155 | what was being joined is forgotten, nothing else changes |
| `DaemonCells.ClientCell.Clear` | src/vspwd/server.c:400-409 | the client record is as at boot, connected or not |
| `DaemonCells.ClientCell.Notice` | src/vspwd/server.c:365-379 | a connected, greeted, unattached watcher gets the bit, nobody else |
| `DaemonServer.Vspwd.Boot` | src/vspwd/server.c:219-235 | a server before its first client |
| `DaemonServer.Vspwd.MarkPortChanged` | src/vspwd/server.c:365-379 | exactly the watchers of the port get the bit, everything else stays |
| `DaemonServer.Vspwd.LinkStateAgrees` | src/vspwd/server.c:162-195 | the calculation on the structures is the one on values, and for a port without bridge each link state means exactly what it tells of the two ports |
| `DaemonServer.Vspwd.UpdateAll` | src/vspwd/server.c:197-217 | the loop over the ports is the value-level pass |
| `DaemonServer.Vspwd.UpdateOne` | src/vspwd/server.c:199-216 | one port of the pass: a change is counted, flagged and marked, no change touches nothing |
| `DaemonServer.Vspwd.Accept` | src/vspwd/server.c:1273-1299 | a connection takes the first free slot with a clean record, or none |
| `DaemonServer.Vspwd.Detach` | src/vspwd/server.c:381-398 | detaching frees the port, forgets the reassembly and settles the link states |
| `DaemonServer.Vspwd.Close` | src/vspwd/server.c:400-409 | closing detaches and clears the client record |
| `DaemonServer.Vspwd.Transmit` | src/vspwd/server.c:411-445 | one packet moves to the peer's ring and is counted at the source; both ports are marked |
| `DaemonServer.Vspwd.TransmitCode` | src/vspwd/server.c:504-523 | the same for a time code |
| `DaemonServer.Vspwd.Submit` | src/vspwd/server.c:489-501 | the end of a packet as `SubmitFate` describes it |
| `DaemonServer.Vspwd.SubmitCode` | src/vspwd/server.c:884-906 | a time code as `SubmitTimeCodeFate` describes it |
| `DaemonServer.Vspwd.Drop` | src/vspwd/server.c:492-497 | one drop more on the port's books, its watchers marked |
| `DaemonServer.Vspwd.TakeData` | src/vspwd/server.c:867-882 | a DATA_TX record joins, submits or ends the connection |
| `DaemonServer.Vspwd.TakeHello` | src/vspwd/server.c:751-764 | a greeting is accepted from clients without a port and answered with the version |
| `DaemonServer.Vspwd.TakeAttach` | src/vspwd/server.c:766-791 | a port is claimed exactly if the client is greeted and unattached and the port exists, is free and not bridged |
| `DaemonServer.Vspwd.TakeTimeCode` | src/vspwd/server.c:884-906 | a TIME_CODE_TX record submits its code and is always answered |
| `DaemonServer.Vspwd.StartStop` | src/vspwd/server.c:803-821 | the port is started or stopped and no longer latched, rings and owner stay, a stopped one with an owner is READY, and the link states are settled |
| `DaemonServer.Vspwd.LatchReset` | src/vspwd/server.c:823-833 | reset latches and empties the port, forgets the reassembly and settles the link states |
| `DaemonServer.Vspwd.ZeroStatistics` | src/vspwd/server.c:924-932 | the port's statistics are zero and its watchers marked |
| `DaemonServer.Vspwd.TakeOwned` | src/vspwd/server.c:793-932 | detach, start, stop, reset, queries and clear of a client's own port |
| `DaemonServer.Vspwd.TakeManagement` | src/vspwd/server.c:934-1012 | the requests of the non-owning management plane |
| `DaemonServer.Vspwd.TakeRequest` | src/vspwd/server.c:721-1017 | the request switch is the value-level handler |
| `DaemonServer.Vspwd.ReceiveOne` | src/vspwd/server.c:1238-1271 | a frame is parsed and handled; anything inadmissible ends the connection |
| `DaemonServer.Vspwd.Conclude` | src/vspwd/server.c:248-282 | a verdict becomes a hang-up, silence, or the one response held |
| `DaemonServer.Vspwd.SendState` | src/vspwd/server.c:1019-1051 | the state event goes out and its flag is cleared only if the send succeeds |
| `DaemonServer.Vspwd.SendPacket` | src/vspwd/server.c:1053-1118 | the fragment due next goes out; a failed send changes nothing |
| `DaemonServer.Vspwd.SendCode` | src/vspwd/server.c:1120-1160 | the oldest time code goes out; a failed send changes nothing |
| `DaemonServer.Vspwd.SendFromPort` | src/vspwd/server.c:1019-1160 | state event, fragment and time code of an owner go out until a send fails |
| `DaemonServer.Vspwd.SendSnapshot` | src/vspwd/server.c:1162-1197 | the lowest pending snapshot goes out and only its bit is cleared |
| `DaemonServer.Vspwd.FlushOne` | src/vspwd/server.c:1214-1236 | a flush sends the response first, else snapshots or port traffic, as the value-level flush |
| `DaemonServer.Vspwd.OutputAgrees` | src/vspwd/server.c:1199-1212 | the output test on the structures is the one on values |
| `DaemonServer.Vspwd.OpenBridge` | src/vspwd/server.c:683-719 | the bridged port before its first refresh |
| `DaemonServer.Vspwd.Refresh` | src/vspwd/server.c:527-551 | the remote state is published before the pass |
| `DaemonServer.Vspwd.PopPacket` | src/vspwd/server.c:553-576 | a carried packet leaves the bridged port's ring and is counted |
| `DaemonServer.Vspwd.PopCode` | src/vspwd/server.c:578-597 | a carried time code leaves the ring and is counted |
| `DaemonServer.Vspwd.PushPacket` | src/vspwd/server.c:599-639 | a packet from UDP is taken only when link and ring allow, and then queued |
| `DaemonServer.Vspwd.PushCode` | src/vspwd/server.c:641-666 | a time code from UDP is taken only when link and ring allow, and then queued |
| `DaemonServer.Vspwd.ServiceBridge` | src/vspwd/server.c:668-681 | one service is a run of its single steps, cut short when the bridge is not in RUN |
| `DaemonServer.Vspwd.Serve` | src/vspwd/server.c:1391-1457 | any step of the state machine, and the records it sends, is one call on the structures |
| `DaemonServer.Vspwd.ServeAll` | src/vspwd/server.c:1391-1457 | serving any steps in turn is a run of the state machine and sends each client exactly what that run sends it, so every theorem about runs holds of the structures |
| `DaemonServer.BootAndServe` | src/vspwd/server.c:1359-1462 | whatever it serves after boot, with a bridge or without, the server's structures satisfy the invariant of reachable states and each client has been sent what the run sends it |
| `DeviceClient.DeviceContext.QueueTimeCode` | src/backends/device/device_backend.c:217-229 | the ring gains the time code last, or refuses it exactly when full |
| `DeviceClient.DeviceContext.TakeTimeCode` | src/backends/device/device_backend.c:794-798 | the oldest time code leaves the ring |
| `DeviceClient.DeviceContext.MarkDisconnected` | src/backends/device/device_backend.c:111-120 | the link shows ERROR_WAIT and nothing received is kept |
| `DeviceClient.DeviceContext.Append` | src/backends/device/device_backend.c:267-272 | the payload lands behind what was received, inside the buffer |
| `DeviceClient.DeviceContext.JoinData` | src/backends/device/device_backend.c:242-286 | the receive buffer and fields follow the joining function, every refusal included |
| `DeviceClient.DeviceContext.Process` | src/backends/device/device_backend.c:231-288 | one event changes link state, time codes or receive side as its type says |
| `DeviceClient.DeviceContext.WaitResponse` | src/backends/device/device_backend.c:290-340 | the events before are absorbed in order and the first other arrival decides, in device, connection, result and arrivals read: if the response to this request comes next the wait succeeds with it, a foreign response ends the connection |
| `DeviceClient.DeviceContext.TakeFrame` | src/backends/device/device_backend.c:311-338 | what one frame does to a waiting device, every refusal and its effect on the connection included |
| `DeviceClient.DeviceContext.Service` | src/backends/device/device_backend.c:693-711 | one frame is taken as an event or refused, responses included |
| `Inbox.LeadIs` | src/backends/device/device_backend.c:299-339 | reading arrivals for as long as they are taken ends at one place, the same for every way of reading |
| `DeviceClient.DeviceContext.SendFragments` | src/backends/device/device_backend.c:629-684 | the records sent are a prefix of the packet's fragments, all of them unless a send failed; the loop ends only there |
| `DeviceClient.DeviceContext.ServiceUntilPacket` | src/backends/device/device_backend.c:688-714 | success if and only if some start of the inbox completes a packet, after exactly the first that does; otherwise the first arrival not absorbed decides |
| `DeviceClient.DeviceContext.ServiceUntilTimeCode` | src/backends/device/device_backend.c:775-793 | success if and only if some start of the inbox brings a time code, after exactly the first that does; otherwise the first arrival not absorbed decides |
| `DeviceClient.DeviceContext.ReceiveTimeCode` | src/backends/device/device_backend.c:766-799 | the time code is the oldest of the ring once there is one; without one the failed wait decides |
| `DeviceClient.DeviceContext.HandOver` | src/backends/device/device_backend.c:731-742 | a packet that fits is handed over and forgotten, one that does not stays |
| `DeviceClient.DeviceContext.Send` | src/backends/device/device_backend.c:610-686 | every fragment goes out unless a send fails, in time, in part or for good, each with its result and effect; then the result is the status of the response to this request whenever that comes next after the events, and that of the failed wait otherwise |
| `DeviceClient.DeviceContext.Receive` | src/backends/device/device_backend.c:716-743 | the packet is the one the first sufficient start of the inbox completes, handed over if it fits and kept otherwise; without one the failed wait decides |
| `ClientOutcomes.StatusMeans` | src/backends/device/device_backend.c:87-100 | the result each status number gives; an unknown one is a backend error |
| `ClientOutcomes.DeviceJoinOutcome` | src/backends/device/device_backend.c:231-288 | what a fragment in its place makes of the packet being joined, for fragments of any size |
| `ClientOutcomes.DaemonJoinOutcome` | src/vspwd/server.c:447-502 | the same in the daemon, with exactly which fragments are out of place |
| `ClientOutcomes.EventOutcome` | src/backends/device/device_backend.c:231-288 | what each type of event does to the device, and which are refused |
| `ClientOutcomes.WaitOutcome` | src/backends/device/device_backend.c:290-340 | how each arrival ends a wait for a response, and which cost the connection |
| `ClientOutcomes.ServeOutcome` | src/backends/device/device_backend.c:815-836 | what each arrival does without a wait for a response |
| `ClientOutcomes.SendOutcome` | src/backends/device/device_backend.c:152-182 | the result of each way a send can fail |
| `ClientOutcomes.ReplyOutcome` | src/tools/vspd_management_client.c:150-234 | the status each arrival gives a management request |
| `ClientOutcomes.SnapshotOutcome` | src/tools/vspd_management_client.c:99-120 | a snapshot takes the place of the one queued for its port, or the last; it is refused only with eight queued |
| `SnapshotQueue.NeverRefuses` | src/tools/vspd_management_client.c:99-120 | with up to eight ports the coalescing queue takes every snapshot |
| `SnapshotQueue.Find` | src/tools/vspd_management_client.c:103-110 | the first entry of the port, or the end if there is none |
| `SnapshotQueue.CoalesceDistinct` | src/tools/vspd_management_client.c:99-120 | the queue keeps at most one entry for each port |
| `SnapshotQueue.CoalesceWaiting` | src/tools/vspd_management_client.c:99-120 | after queueing, the newest snapshot waits for its port and other ports keep theirs |
| `Observation.PlayTracks` | src/tools/vspd_management_client.c:428-465 | however reads and returns interleave, what was returned and what waits select in order from what was read, up to its last |
| `Observation.ObservationHolds` | src/tools/vspd_management_client.c:428-465 | end to end: returned snapshots select in order from those sent, and with nothing outstanding the last one is the port's current state |
| `ManagementClient.Client.TakeRequestId` | src/tools/vspd_management_client.c:88-97 | request identifiers count up and are never zero, also after wrap |
| `ManagementClient.Client.QueueEvent` | src/tools/vspd_management_client.c:99-120 | the in-place search overwrites or appends as the coalescing function says, and refuses only for want of room |
| `ManagementClient.Client.PopEvent` | src/tools/vspd_management_client.c:136-148 | the oldest entry leaves the ring |
| `ManagementClient.Client.Take` | src/tools/vspd_management_client.c:122-134 | an event is queued as the coalescing function says, or refused without effect |
| `ManagementClient.Client.AwaitResponse` | src/tools/vspd_management_client.c:189-233 | every snapshot read before is queued and the first other arrival decides: the response to this request comes back with its status and, if it fits, its payload; anything else is an error or a timeout |
| `ManagementClient.Client.ReceiveSnapshot` | src/tools/vspd_management_client.c:428-465 | the caller gets the oldest queued entry; with none queued it gets the snapshot read next, and fails exactly if what comes is none |
| `ManagementSession.SessionPlays` | src/tools/vspd_management_client.c:150-465 | any calls on a connected client, in any order, are one interleaving of reading records and returning snapshots |
| `ManagementSession.SessionObserves` | src/tools/vspd_management_client.c:150-465 | composed with the daemon: the snapshots any session returns select in order from those sent, and with all read, none queued and none due the last one is the port's current snapshot |
| `ManagementSession.Serve` | src/tools/vspd_management_client.c:150-465 | one call on the ring in place does to queue, socket and snapshots returned what the session function says |
| `ManagementSession.ServeAll` | src/tools/vspd_management_client.c:150-465 | and so do any calls one after the other |
| `DriverOwnership.DoTableOk` | src/backends/driver/driver_backend.c:256-525 | whatever the provider answers, active slots have distinct tokens and lengths within capacity |
| `DriverOwnership.EpochOwnership` | src/core/port.c:379-399 | a buffer passes the guard if and only if it was handed out since the last reset and not handed back since |
| `DriverOwnership.OpenedOk` | src/backends/driver/driver_backend.c:88-107 | a freshly opened port has a sound table and no buffer in the application's hands |
| `DriverOwnership.AsksOnlyForOwned` | src/core/port.c:835-957 | the provider is asked to submit or release only a buffer bound to this port and in the application's hands, rollbacks of a fresh acquire aside |
| `DriverOwnership.ForeignRefused` | src/core/port.c:379-399 | whatever two ports have gone through, a buffer in the table of one is refused by the guard of the other: nothing changes and the provider is not asked |
| `DriverOwnership.FailureKeepsOwnership` | src/backends/driver/driver_backend.c:373-525 | a call that fails changes nobody's ownership |
| `DriverOwnership.OwnershipAgreement` | src/backends/driver/driver_backend.c:338-525 | after every run a sound provider's books and the table agree on who owns each buffer |
| `DriverOwnership.OpenedAgrees` | src/backends/driver/driver_backend.c:88-107 | a freshly opened port agrees with a provider that has lent nothing |
| `DriverOwnership.RollbackMustSucceed` | src/backends/driver/driver_backend.c:358-363 | the agreement survives a rollback if and only if its release succeeds |
| `DriverPort.OpenPort.FindFreeSlot` | src/backends/driver/driver_backend.c:256-267 | the first vacant slot of the range, or its end |
| `DriverPort.OpenPort.IsTokenInUse` | src/backends/driver/driver_backend.c:269-279 | true if and only if an active slot carries the token |
| `DriverPort.OpenPort.FindSubmittedSlot` | src/backends/driver/driver_backend.c:296-308 | the first transmit slot the backend holds under the token |
| `DriverPort.OpenPort.IsOwned` | src/core/port.c:379-391 | the guard and the backend's search in one |
| `DriverPort.OpenPort.ResetPort` | src/core/port.c:602-616 | a successful reset empties the table and starts a new nonzero epoch |
| `DriverPort.OpenPort.Acquire` | src/backends/driver/driver_backend.c:338-371 | a transmit buffer is bound to the first free slot, or the provider's descriptor is rolled back |
| `DriverPort.OpenPort.Submit` | src/backends/driver/driver_backend.c:373-409 | a successful submit hands the buffer to the backend, a failed one leaves it with the application; the provider is given the length and terminator of the public buffer |
| `DriverPort.OpenPort.Reclaim` | src/backends/driver/driver_backend.c:411-436 | a submitted buffer comes back to the application under its own slot |
| `DriverPort.OpenPort.Release` | src/backends/driver/driver_backend.c:438-459 | a successful release vacates the slot |
| `DriverPort.OpenPort.AcquireReceived` | src/backends/driver/driver_backend.c:461-503 | a received buffer is exposed only after validation and synchronisation, else rolled back |
| `DriverPort.OpenPort.ReleaseReceived` | src/backends/driver/driver_backend.c:505-525 | a successful release vacates the slot |
| `DriverPort.OpenPort.SetBufferPacket` | src/core/port.c:786-806 | only an owned transmit buffer takes a length within capacity and a valid terminator |
| `DriverHistory.TableTold` | src/backends/driver/driver_backend.c:323-525 | in every run, with any provider, each slot shows what the history of calls tells: where the buffer is, and the length and terminator the application set last since it was handed it |
| `DriverHistory.SubmitsWhatWasSet` | src/backends/driver/driver_backend.c:373-409 | in every run a submitted buffer carries the length and terminator set last and the provider's token, capacity and data |
| `DriverHistory.HandedOutShows` | src/backends/driver/driver_backend.c:323-371 | a buffer handed out shows the provider's capacity, and after reclaim or reception its length and terminator |
| `DriverHistory.SubmitOutcome` | src/backends/driver/driver_backend.c:373-409 | result and asks of a submission, from the history |
| `DriverHistory.ReleaseOutcome` | src/backends/driver/driver_backend.c:438-525 | result and asks of a release, started or not |
| `DriverHistory.SetOutcome` | src/core/port.c:786-806 | which lengths and terminators can be set |
| `DriverHistory.AcquireTxOutcome` | src/backends/driver/driver_backend.c:338-371 | the slot, result and asks of a transmit acquire, with each refusal |
| `DriverHistory.AcquireRxOutcome` | src/backends/driver/driver_backend.c:461-503 | the slot, result and asks of a reception, with each refusal |
| `DriverHistory.ReclaimOutcome` | src/backends/driver/driver_backend.c:411-436 | exactly which reclaimed buffers are handed out, and in which slot |
| `DriverHistory.ResetOutcome` | src/core/port.c:602-616 | a reset empties the table and moves to another epoch, never zero |
| `CuseRecord.DecodeUndoesImage` | src/cuse/vspw_cuse_record.c:43-98 | decoding an encoded header gives it back, and accepts exactly the valid ones |
| `CuseRecord.ImageUndoesDecode` | src/cuse/vspw_cuse_record.c:43-98 | accepted bytes are the image of their header |
| `CuseRecord.EncodeHeader` | src/cuse/vspw_cuse_record.c:43-67 | the buffer gets the 16-byte image, or is left alone |
| `CuseRecord.DecodeHeader` | src/cuse/vspw_cuse_record.c:69-98 | the header and verdict of the first 16 bytes |
| `CuseRecord.EventOfRecord` | src/cuse/spwcuse.c:154-195 | every packet or time code received becomes a valid record that stands for it |
| `CuseRecord.RecordOfEvent` | src/cuse/spwcuse.c:257-298 | a valid record is, byte for byte, the one its packet or time code becomes on the other side |
| `CuseRecord.EncodeEvent` | src/cuse/spwcuse.c:154-195 | header and payload are laid out as that record |
| `CuseBroker.AnsweredOnce` | src/cuse/spwcuse.c:197-230 | under every interleaving a queued read is answered once or still held, never both nor twice |
| `CuseBroker.ArrivalOrder` | src/cuse/spwcuse.c:548-574 | reads are answered in arrival order if and only if no cancelled read is answered while the broker holds an older one |
| `CuseBroker.OvertakingHappens` | src/cuse/spwcuse.c:548-574 | a run of two small reads and an empty packet in which the second read is answered before the first |
| `CuseBroker.IdleReleaseOrder` | src/cuse/spwcuse.c:548-574 | if release is called only once every read has been answered, reads are answered in arrival order |
| `CuseBroker.RecordsInOrder` | src/cuse/spwcuse.c:300-438 | what the port received reaches readers in that order, each event once and as the valid record it reads back from; a read too small takes none; writes are answered in order; the port is drained only while the ring has room |
| `CuseBroker.AnswersFit` | src/cuse/spwcuse.c:197-230 | every answer is one its read can have, a record only with room for it and EAGAIN only to a non-blocking read, and the records among the answers are those delivered, in order |
| `CusePresenter.Ring.Push` | src/cuse/spwcuse.c:110-140 | the element is last, or is refused exactly when the ring is full |
| `CusePresenter.Ring.Pop` | src/cuse/spwcuse.c:142-152 | the oldest element leaves |
| `CusePresenter.Presenter.CallRead` | src/cuse/spwcuse.c:461-481 | a read is queued, or answered at once for want of room |
| `CusePresenter.Presenter.CallWrite` | src/cuse/spwcuse.c:483-520 | a valid record is queued, anything else answered at once |
| `CusePresenter.Presenter.CallRelease` | src/cuse/spwcuse.c:548-574 | every queued read leaves the ring in order, to be answered after the lock |
| `CusePresenter.Presenter.ServiceOneRead` | src/cuse/spwcuse.c:197-230 | the oldest read meets the oldest record, which stays if it does not fit |
| `CusePresenter.Presenter.PopWrite` | src/cuse/spwcuse.c:362-370 | the oldest write is taken and the poll handle with it |
| `CusePresenter.Presenter.Expire` | src/cuse/spwcuse.c:400-416 | after an empty immediate wait the oldest read is refused if it is non-blocking |
| `CusePresenter.Presenter.EnqueueRecord` | src/cuse/spwcuse.c:154-195 | a received event becomes the last record, encoded |
| `CuseHistory.HeaderVerdict` | src/cuse/vspw_cuse_record.c:20-98 | the verdict on every header, by its bytes and the first fault it has |
| `CuseHistory.RecordBytes` | src/cuse/spwcuse.c:232-256 | exactly which bytes a write is accepted for |
| `CuseHistory.QueuedExactly` | src/cuse/spwcuse.c:461-520 | exactly which reads and writes are queued |
| `CuseHistory.WritesToldTruly` | src/cuse/spwcuse.c:258-298 | in every run the answers to writes are, one for one, the outcomes of the port's sends |
| `CuseHistory.ReadsToldTruly` | src/cuse/spwcuse.c:197-230 | in every run what reads are answered, and whether somebody polls, follows from the steps |
| `CuseHistory.WaitBegins` | src/cuse/spwcuse.c:349-401 | when the broker waits for the port, and what it notes |
| `CuseHistory.WaitEndsExactly` | src/cuse/spwcuse.c:395-438 | exactly when a wait ends in a refusal to wait, or in draining the port |
| `CuseHistory.ReleaseTakesAll` | src/cuse/spwcuse.c:548-582 | release takes every queued read away to interrupt it |
| `CuseHistory.NothingLost` | src/cuse/spwcuse.c:300-347 | in every run all the port gave that could be stored is delivered or on its way |
| `CuseHistory.DrainsOn` | src/cuse/spwcuse.c:395-438 | exactly when the port is drained on |
| `FaultRuns.ShiftNonzero` | src/backends/ethernet/deterministic_faults.c:92-105 | the generator never reaches its dead state |
| `FaultRuns.RunKeeps` | src/backends/ethernet/deterministic_faults.c:60-152 | in every run all generators stay nonzero and bounded rules within budget |
| `FaultRuns.BudgetHolds` | src/backends/ethernet/deterministic_faults.c:85-90 | a rule with a budget decides at most that often, and its counter is the number of its decisions |
| `FaultRuns.DomainsDoNotInterfere` | src/backends/ethernet/deterministic_faults.c:107-152 | however transport and EEP events interleave, each domain gets the decisions it would get alone |
| `FaultRuns.ResetRestores` | src/backends/ethernet/deterministic_faults.c:60-72 | reset after any run gives back the initial state |
| `FaultInjector.DeterministicFaults.Restart` | src/backends/ethernet/deterministic_faults.c:60-72 | the loop seeds every generator and zeroes every counter |
| `FaultInjector.DeterministicFaults.InjectTransport` | src/backends/ethernet/deterministic_faults.c:107-131 | the first transport rule concerned, not used up and hit decides |
| `FaultInjector.DeterministicFaults.InjectEep` | src/backends/ethernet/deterministic_faults.c:133-152 | the same for EEP rules |
| `FaultPattern.StartStates` | src/backends/ethernet/deterministic_faults.c:60-72 | the eight start states of a seed, with literal constants, never zero |
| `FaultPattern.ShiftScrambles` | src/backends/ethernet/deterministic_faults.c:92-105 | one generator step in products and a quotient |
| `FaultPattern.FirstNumbers` | src/backends/ethernet/deterministic_faults.c:92-105 | literal first numbers |
| `FaultPattern.StatesFollowSeed` | src/backends/ethernet/deterministic_faults.c:92-105 | in every run a generator stands where its draws took it from the seed |
| `FaultPattern.PatternFollowsSeed` | src/backends/ethernet/deterministic_faults.c:107-152 | in every run the rule that decides an event is the first that elects it, by number, budget, target and probability |
| `Alignment.PowerOfTwoTest` | src/core/port.c:65-67 | the bit test holds if and only if the value is a power of two |
| `Alignment.AlignUpExact` | src/core/port.c:51-53 | alignment is the least multiple not below the value if and only if the sum does not overflow; otherwise it is zero |
| `Workspace.LayoutIsSound` | src/core/port.c:451-503 | a workspace that passes the checks holds port and context in bounds, apart and aligned |
| `Workspace.DriverContextExact` | src/backends/driver/driver_backend.c:49-74 | the overflow checks refuse exactly the slot tables whose size does not fit |
| `Workspace.SlotsInContext` | src/backends/driver/driver_backend.c:49-107 | every slot, the last included, lies inside the context, apart from the header and every other slot, and aligned |
| `Workspace.DriverWorkspaceIsSound` | src/backends/driver/driver_backend.c:49-107 | a DRIVER port opened in place has every slot inside the workspace, behind port and header, apart from every other slot, and aligned |
| `Workspace.OpensExactly` | src/core/port.c:451-503 | opening succeeds exactly for workspaces aligned for both and large enough, with each refusal |
| `Workspace.RefusesBadBackend` | src/core/port.c:69-103 | a backend with a bad alignment or an empty context is refused |

## Left out

- Sockets, poll, accept queues, signals, file paths and FUSE calls: only FIFO records, failing sends and lock regions are kept.
- Deadlines and clocks of the device and management clients: a wait that ends without a record is an input.
- Session set-up and reconnect of the device client (`connect_session`, `ensure_connected`): flat sequences of requests.
- Start, stop, reset, link-state, capability and statistics calls of the device client (`device_reset` also forgets what was received, as `ClearRx` does), and the copied-packet calls of the DRIVER backend: forwarding only.
- `device_wait`: the loop of `ServiceUntilPacket` and `ServiceUntilTimeCode` once more, with either as its goal.
- The UDP, loopback and simulator backends and the VSPW-TP reassembler are not part of this model.
- Configuration validators in `src/core/port.c` and the fault-rule validator: flat branch lists.
- Shutdown of the CUSE presenter: the promises are stated for the time before it.
- `spwctl`, `spwmon`, benchmarks, profiling probes and integrations: not the product's state.
- DaemonCells.PortCell.Put: the data area of a ring slot is a value, not a 1 MiB array inside the slot.
- DaemonServer.Vspwd.ReceiveOne: monitor masks are sets of ports rather than bit words, and the response slot holds the record rather than its bytes; `ParseInvertsBytes` connects the two.
- DaemonServer.Vspwd.Accept: takes one connection; the loop that repeats it until no connection waits is a run of such steps.
- DeviceClient.DeviceContext.Send: starts from a connection; what the client does to get one back is left out.
- DeviceClient.DeviceContext.Receive: starts from a connection, as above.
- CuseBroker.RecordsInOrder: a record whose allocation fails is lost, as in the source, and does not count as received.
- DriverOwnership.OwnershipAgreement: speaks of providers that lend fresh tokens, reclaim submitted buffers with valid descriptors and succeed in rollback releases; any provider may fail every other call.
