# Verified model of shellraiser's stateful components

shellraiser runs coding agents and shells in containers ("workers") behind one
coordinator. Its hard logic sits in small concurrent components that keep state. This
project models those components in Dafny and proves what they promise.

Each component appears in up to two forms. A file named after the component holds its
data, one transition function for every critical section, and the class or loop that the
source has, proved equal to those functions. A machine performs those critical sections,
interleaved in any order and any number; it stands in a file ending in `Machine`, or in the
file ending in `Runs` (and in `ActiveDevice`) where the theorems about every reachable state
or every run are. Other files of a component hold what each step of its machine keeps.
Fields called history in the comments record what happened; a guard mentions one at most to
pick a fresh id or to name a caller that exists.

| file | what it models |
|---|---|
| `Sequences`, `Fanout` | shared facts; bounded channels fed by a lock-protected subscriber set |
| `Ring`, `Session`, `SessionMachine`, `SessionSteps`, `SessionRuns` | the PTY session: scrollback ring, fan-out, idle/running/exited, terminal attach |
| `Manager` | the session manager: sessions, their order, status event subscribers |
| `DeviceLink`, `LinkMachine`, `LinkIdentity`, `LinkWire`, `LinkAgreement`, `LinkRuns` | forwards over the device link, all connections of a device process |
| `PortKey`, `PortMapper`, `PortRuns`, `RelayRuns` | listeners and relay listeners opened and closed by racing calls |
| `PortWiring`, `PortTables` | port mapping on the active device and remembered ports; that this view agrees with the port mapper's |
| `SwitchMachine`, `SwitchSteps`, `SwitchRuns`, `SwitchOrder`, `SwitchFailures`, `SwitchBoard` | rebinding after a switch: the machine, what each step keeps, the theorems, when a mapped port is a known one, the runs that go wrong, and the coordinator's own idea of the active device |
| `ActiveDevice` | which device is active, step by step |
| `Framing`, `CommandRelay`, `CommandRuns` | the framed command relay, down to the bytes in flight |
| `SecretResolve` | cached resolution of secret references, and the device's policy |
| `EventHub`, `HubRuns` | the cross-project event hub and the browser's mirror of it |
| `RateLimit` | the login and device-key limiters |
| `Overlay`, `Reorder`, `Porcelain` | command overlay merge, manual reorder with stable sort, `git worktree list` parsing |

Conventions: times are integer milliseconds and never run backwards; ids the source draws
at random are fresh numbers; the outcome of a bind, a read, a dial, a process or a clock is
a parameter of the action or method that meets it; where Go visits a map in no particular
order the model lets any order happen. Every operation the source takes under one lock is
one action, and so is one send, receive, bind, close or read outside a lock. Two actions
are coarser. A bind on a device is one action in `PortRuns` and `SwitchMachine`, where
`LinkMachine` has the request, the listener and the reply apart. And an autoMap's look at the
store is one action with its look at the declarations, which do not change. The two locks
that a switch takes in turn are each modelled where they matter: `ActiveDevice` has both
with a gap between them, and `SwitchMachine` has the port mapper's, which decides where a
port is bound.

## Where the code does not do what one would like

Each of these is proved, with the exact condition and, where a run is needed to meet the
failure, such a run.

- A device switch does not always carry the mapped ports over. `SwitchRuns.RebindIsExact`
  says when, for every run and every port: once the rebinds of its worker are done, the port
  is on the active device, or was refused, if and only if (1) it was sought since it was
  last torn down, that is, an autoMap of its worker read the store while the port was
  declared or remembered, or a map request published it, or an autoMap that had read before
  then still had it ahead; and (2) the tearing down did not catch a Map of it between its read
  of another device, which binds the port, and its publication. Both can fail with one Map
  at a time under way, nothing refused and every rebind finished:
  - `SwitchFailures.MappedThenLost`: a request has mapped the port and has yet to note it in
    the store when the device changes and the rebind's autoMap reads the store. The request
    is answered with success, the port is remembered, and it is mapped nowhere
    (cmd/sr/coordinator.go:397-403, 449-475). `SwitchRuns.NotedInTime` is the guard: it is
    sought if it is declared or remembered before that autoMap reads.
  - `SwitchFailures.PortLeftBehind`: a declared port stays on the device that was left. Its
    Map had read that device and published after unmapPorts (cmd/sr/portmap.go:183-191,
    cmd/sr/coordinator.go:108-116).
- A request to unmap can be undone: `SwitchFailures.UnmapUndone` is a run in which an autoMap
  that had read the store maps the port again after it was forgotten, and
  `SwitchRuns.UnmapIsUndoneIff` says when that happens; `SwitchRuns.UnmapHolds` is the guard
  (cmd/sr/coordinator.go:405-408).
- `PortRuns.LawHoldsIffPublishesClean`, `PortRuns.OverlappingMapsLeak`: two overlapping
  calls of Map for one port leak a listener. A run loses no listener if and only if every
  publication in it finds its port unmapped, which Map does not check again
  (cmd/sr/portmap.go:187-191).
- Ports are bound on the active device, and the active device is a registered one, only as
  `ActiveDevice.BoardIsExact` says: for every run, whatever overlaps, it gives both exactly,
  by who switched, told the port mapper and registered last. It is sufficient that
  connections with one key register one at a time and a connection's hellos are handled
  before its end (`ActiveDevice.ActiveIsRegistered`), and that switches do not overlap
  (`ActiveDevice.PortMapperFollows`); the code ensures none of the three, since a hello is
  handled in another goroutine than the end of its link (cmd/sr/devicelink.go:128-164).
  Runs that go wrong when one is dropped: `OverlappingHellosDisagree`,
  `OverlappingSwitchesDisagree`, and `DeadDeviceStaysActive`, where a link dies while its
  hello is being handled and the dead device stays active.
- `HubRuns.ReconnectShows`, `HubRuns.ReconnectGoesWrong`: when the browser's EventSource
  reconnects onto the mirror it already has, it shows wrongly exactly those of its old
  sessions that the hub had forgotten by then and has not mentioned since
  (web/app.js:1057-1071). `EventHub.SnapshotMirrors` says this of the snapshot alone.
- `EventHub.SnapshotFits`: a snapshot of more than 64 sessions is cut off
  (cmd/sr/coordevents.go:173-182).
- `CommandRelay.ReplyIsRendered`, `CommandRuns.RelayIsTransparent`: an exit code arrives
  modulo 2^32, so exactly if it is a 32-bit unsigned number
  (internal/cmdrelay/cmdrelay.go:257-261).
- `RateLimit.LoginRate`, `RateLimit.LoginBoundIsMet`: 8 wrong passwords a minute is the
  bound for logins that do not overlap. With c in flight at once it is 7 + c in one minute
  and 8k + c - 1 in k minutes for c up to 8; for any c it is k times c rounded up to a
  multiple of 8, plus (c - 1) % 8, and a run meets it (internal/auth/http.go:27-44).
- `Porcelain.ScanIffOk`: the scanner gives lines back exactly if none has 65536 bytes or
  more and none ends in a carriage return; it drops the carriage return and, as
  `Porcelain.ScanStops` says, silently stops at a line that is too long
  (internal/worktree/worktree.go:68-69).
- docs/device-link.md:197 says a device repeats its binds after every reconnect; in the
  code the coordinator rebinds (cmd/sr/coordinator.go:108-116). The model follows the code.

## Model

The table lists results, and the methods with a loop or a choice to make. The contracts of
handlers that make one update (such as those of `DeviceLink`) are stated beside their code.

| member | source | states |
|---|---|---|
| Fanout.SendToAll | internal/session/session.go:185-190 | the non-blocking send loop offers the value to exactly the registered channels, in any visiting order, and would panic exactly if one of them is closed |
| Fanout.CloseEach | internal/session/session.go:239-245 | the exit loop closes and unregisters every registered channel and nothing else |
| Fanout.BroadcastSound | cmd/sr/coordevents.go:161-169 | sending keeps the discipline "registered means open", so it never panics |
| Fanout.CloseAllSound | internal/session/session.go:239-245 | closing all keeps the discipline |
| Fanout.LocalSound | internal/session/session.go:126-144 | subscribing, cancelling any number of times and receiving keep the discipline |
| Ring.RingBuffer.Write | internal/session/ring.go:14-23 | the ring holds the last max bytes of everything written so far |
| Ring.RingBuffer.Snapshot | internal/session/ring.go:25-31 | returns the last max bytes of everything written so far |
| Ring.RingIsTail | internal/session/ring.go:14-31 | whatever the chunking, trimming after every write gives the tail of the whole output |
| Session.Session.Subscribe | internal/session/session.go:126-144 | registers an open channel, or hands out a closed one if the session has exited |
| Session.Session.Deliver | internal/session/session.go:177-191 | counts the chunk as activity unless a resize window is open, and offers it to every subscriber |
| Session.Session.MonitorTick | internal/session/session.go:200-227 | the idle/running transition of one tick with its event, and when the loop ends |
| Session.Session.HandleExit | internal/session/session.go:233-251 | final state, exit code, every subscriber closed and gone, and the exit event |
| SessionRuns.AttachHasNoGap | internal/server/server.go:673-704 | for every interleaving: the snapshot is the last 256 KiB of an output prefix, the live chunks start at or before its end, are every later chunk in order unless the channel overflowed, and then an in-order subsequence |
| SessionRuns.ReplayIsATailOfTheOutput | internal/session/session.go:122-144 | snapshot plus later live chunks show exactly a tail of the whole output, no shorter than the ring |
| SessionRuns.ChannelsAreSafe | internal/session/session.go:79-84 | in every run no send hits a closed channel, none is closed twice, and closed means unregistered |
| SessionRuns.ExitIsFinal | internal/session/session.go:233-251 | once exited a session stays exited and has no subscribers ever after |
| SessionRuns.TickFollowsCountedOutput | internal/session/session.go:200-215 | a tick leaves the session running exactly if output that counts came within the last second |
| SessionRuns.IdleAndDingTiming | internal/session/session.go:40-45 | idle comes 1 s or more after the last counted output and less than 1 s plus the tick gap; a ding exactly for agents that ran 2 s, hence with output over more than 1 s less the gap |
| SessionRuns.RepaintsDoNotCount | internal/session/session.go:179-184 | output inside windows of earlier resizes leaves the time of the last counted output unchanged |
| SessionRuns.RepaintingNeverWakes | internal/session/session.go:158-184 | an idle session never becomes running while all output since falls into resize windows |
| Manager.Manager.Kill | internal/session/manager.go:203-223 | forgets the session in the map and in the order, or reports that there is none |
| Manager.Manager.List | internal/session/manager.go:172-182 | the recorded sessions in order |
| Manager.ListIsCreationOrder | internal/session/manager.go:171-182 | over all runs the list is the sessions created and not killed, each once, as created, in creation order |
| Manager.EventChannelsAreSafe | internal/session/manager.go:226-250 | over all runs no panic, and a channel carries an in-order selection of the events since it subscribed, all of them if it was never full |
| DeviceLink.DeviceClient.CloseAll | cmd/sr/deviceclient.go:426-433 | no tag is left and every listener in the table is closed |
| LinkRuns.RoutingIsExact | cmd/sr/devicelink.go:166-193 | reconnects included, a bridged connection went to the dialer of the very Forward whose bind made the listener it came in on |
| LinkRuns.ChannelIsBridgedOrRefused | cmd/sr/devicelink.go:172-177 | an incoming channel is bridged exactly while its Forward has neither failed nor been closed, and else refused |
| LinkRuns.ListenersAreRegistered | cmd/sr/deviceclient.go:287-308 | while the link is up, every tag listened for is registered on the coordinator or about to be unbound |
| LinkRuns.QuietLinkAgrees | cmd/sr/devicelink.go:322-347 | on a quiet link both ends hold exactly the tags of the successful, unclosed Forwards |
| LinkRuns.OfflineHoldsNothing | cmd/sr/deviceclient.go:215-262 | off the link the device holds no forward listener |
| PortMapper.PortMapper.UnmapPorts | cmd/sr/portmap.go:243-252 | each closer of every mapping of the worker runs once and all are gone |
| PortMapper.PortMapper.CloseWorker | cmd/sr/portmap.go:268-289 | forwards, both relay listeners and the client of the worker are closed and gone |
| PortRuns.ListenersAreConserved | cmd/sr/portmap.go:160-203 | if Maps of one port do not overlap, every listener ever opened is either open with exactly one forward or call to close it, or its closer ran once and nobody holds it |
| PortRuns.LawHoldsIffPublishesClean | cmd/sr/portmap.go:187-192 | for whole runs, whatever overlaps: every listener is conserved all the way if and only if every publication finds its port unmapped |
| PortRuns.PublishConservesIffUnmapped | cmd/sr/portmap.go:187-192 | the same of one publication, from a state in which the law holds |
| PortRuns.OverlappingMapsLeak | cmd/sr/portmap.go:160-203 | a run of two overlapping Maps that leaves a listener open with no owner |
| PortRuns.PlaceAttach | cmd/sr/portmap.go:220-237 | a late tailnet listener is conserved when its mapping was kept, removed or re-created |
| RelayRuns.OneRelayPerWorker | cmd/sr/portmap.go:296-398 | a running accept loop with an open listener is the one published for its worker, and there is only one |
| RelayRuns.QuietEntryMeansRunning | cmd/sr/coordinator.go:80-101 | once things are quiet a relay entry exists exactly if its accept loop runs, on the recorded listener |
| RelayRuns.QuietLosersAreClosed | cmd/sr/portmap.go:315-320 | once things are quiet a listener that lost the race is closed and not published |
| PortWiring.Wiring.TryListen | cmd/sr/device.go:65-75 | a listen on a given or on any port, as the device would bind it |
| PortWiring.Wiring.Forward | cmd/sr/deviceclient.go:368-388 | refused without the grant; the wanted port if free; else nothing if strict, and any free port otherwise |
| PortWiring.Wiring.Map | cmd/sr/portmap.go:160-203 | reserved and invalid ports are refused, mapped ones keep their host port, others are bound on the active device |
| PortWiring.Wiring.Apply | cmd/sr/coordinator.go:452-459 | the wished host port, and any if that fails |
| PortWiring.Wiring.AutoMap | cmd/sr/coordinator.go:449-475 | applies exactly a plan: declarations in order, then the undeclared remembered ports, each of them once |
| PortWiring.Wiring.UnmapPorts | cmd/sr/portmap.go:243-252 | all of the worker's slots are released and no other |
| PortWiring.Wiring.HandleMap | cmd/sr/coordinator.go:392-404 | unmaps, maps anew, and remembers the host port on success |
| PortWiring.StoreReads | cmd/sr/portstore.go:26-56 | set and del change what get returns for their own key and for no other |
| PortWiring.PlanCovers | cmd/sr/coordinator.go:449-475 | autoMap asks for exactly the declared and remembered ports, and a remembered host port wins over a declared one |
| PortWiring.ApplyOutcome | cmd/sr/coordinator.go:452-459 | which host port a mapping gets, and exactly when it fails: fallback only if the wished port is not free |
| PortWiring.ApplyAccepted | cmd/sr/portmap.go:183-186 | a device that accepts OS-assigned binds never fails a mapping; a failure changes nothing |
| PortWiring.MappedIsKept | cmd/sr/portmap.go:167-173 | a port already mapped keeps its host port whatever is asked for |
| PortTables.ViewsAgree | cmd/sr/portmap.go:187-264 | the forwards with their closers and the ports with their slots file the same ports at the same host ports, through any sequence of publications, late tailnet listeners, Unmaps and unmapPorts |
| SwitchSteps.WantedStep | cmd/sr/coordinator.go:392-475 | for every single step, exactly when it leaves a port mapped, refused or ahead of an autoMap |
| SwitchRuns.MappedIffSought | cmd/sr/coordinator.go:392-475 | in every run: with no autoMap or Map of its worker left, a port is mapped or refused if and only if it was sought since it was last torn down |
| SwitchRuns.RebindIsExact | cmd/sr/coordinator.go:56-116 | in every run, for every port: once the rebinds a switch listed its worker for are done, it is on the active device, or refused, if and only if it was sought since it was last torn down and no Map of it that binds was then between reading another device and publishing; and it is never both mapped and refused |
| SwitchRuns.StrayedStaysBehind | cmd/sr/portmap.go:183-192 | where such a port is: on the device its Map had read, not the active one |
| SwitchRuns.SwitchKeepsTheMappedSet | cmd/sr/coordinator.go:108-116 | the same of a port that was mapped, through any number of switches, with nothing assumed of what the store holds |
| SwitchRuns.NotedInTime | cmd/sr/coordinator.go:449-451 | a port that is declared or remembered while it is mapped, or while an autoMap of its worker has yet to read the store, is mapped again or refused |
| SwitchRuns.UnmapIsUndoneIff | cmd/sr/coordinator.go:405-408 | after a request to unmap, the port ends up mapped or refused if and only if it was sought since, counting an autoMap that had read the store and still had it ahead |
| SwitchRuns.UnmapHolds | cmd/sr/coordinator.go:405-408 | it stays unmapped if no such autoMap is there and none reads the store before the port is forgotten |
| SwitchRuns.WillingDeviceRemapsAll | cmd/sr/coordinator.go:56-73 | where devices accept OS-assigned binds, such a port is mapped again if and only if it was sought since, and on the active device if and only if moreover no Map of it strayed |
| SwitchRuns.RebindHonoursRemembered | cmd/sr/coordinator.go:449-475 | in every run an autoMap asks for the host port the store held when it read it, else a declared one; it takes the port's own number or any only after a device has refused that one to an earlier Map of the same `apply` |
| SwitchRuns.ForwardsAreApart | cmd/sr/portmap.go:160-203 | no two forwards ever hold the same port of the same device |
| SwitchOrder.MappedIsKnown | cmd/sr/coordinator.go:392-408 | when requests to unmap keep clear of the worker's autoMaps and map requests, a mapped port is declared, remembered or about to be noted by its request |
| SwitchOrder.OrderlySwitchKeepsTheMappedSet | cmd/sr/coordinator.go:108-116 | so in such runs every port mapped before a switch and not about to be noted is mapped again on the active device, or refused, if and only if no Map of it strayed |
| SwitchFailures.PortLeftBehind | cmd/sr/coordinator.go:108-116 | a run with one Map at a time, nothing refused and all rebinds done that leaves a declared port on the old device |
| SwitchFailures.MappedThenLost | cmd/sr/coordinator.go:397-403 | a run of the same kind in which a port mapped by a request that succeeds, and remembered, is mapped nowhere after a switch |
| SwitchFailures.UnmapUndone | cmd/sr/coordinator.go:405-408 | a run in which a port is unmapped and forgotten and ends up mapped again |
| SwitchBoard.PortsAreOnTheActiveDevice | cmd/sr/coordinator.go:56-73 | if switches do not overlap and none is half done, what RebindIsExact says of the port mapper's device holds of the coordinator's |
| ActiveDevice.Switchboard.Activate | cmd/sr/devicelink.go:197-203 | undisturbed, and whatever was the case before, the caller ends up registered, active, and where ports are bound |
| ActiveDevice.Switchboard.Deactivate | cmd/sr/devicelink.go:237-245 | undisturbed, the caller steps down and a newer device is left alone |
| ActiveDevice.BoardIsExact | cmd/sr/coordinator.go:53-73 | in every run: ports are bound on the active device if and only if the last to tell the port mapper told it what the switches left active; the active device is registered if and only if it is the local one or was the last to register under its key and has not unregistered |
| ActiveDevice.KeptExactly | cmd/sr/devicelink.go:197-245 | for every single step, exactly when it keeps the active device registered and exactly when it keeps ports bound on the active device |
| ActiveDevice.ActiveIsRegistered | cmd/sr/devicelink.go:128-203 | if connections with one key register one at a time and hellos are handled before the end of their link, the active device is the local one or the registered one, except while its key changes hands |
| ActiveDevice.PortMapperFollows | cmd/sr/portmap.go:126-130 | if switches do not overlap, the port mapper's device is the active one whenever no switch is half done |
| ActiveDevice.OverlappingHellosDisagree | cmd/sr/devicelink.go:148-158 | a run that ends at rest with an unregistered active device |
| ActiveDevice.OverlappingSwitchesDisagree | cmd/sr/coordinator.go:56-73 | a run that ends at rest with ports bound on another device than the active one |
| ActiveDevice.DeadDeviceStaysActive | cmd/sr/devicelink.go:128-164 | a run in which a link dies while its hello is handled: at rest the dead device is active, unregistered, and where ports are bound |
| Framing.Be32RoundTrip | internal/cmdrelay/cmdrelay.go:257-261 | big-endian 32-bit encoding gives the number back modulo 2^32 |
| Framing.FrameRoundTrip | internal/cmdrelay/cmdrelay.go:208-243 | a frame reads back, whatever follows it, if and only if its payload is within the limit |
| Framing.CutFrame | internal/cmdrelay/cmdrelay.go:229-243 | which error a stream that ends inside a frame gives |
| Framing.DecodeAllFrames | internal/cmdrelay/cmdrelay.go:229-243 | a stream of frames decodes to them and then to whatever the rest decodes to |
| Framing.AnyPrefixDecodes | internal/cmdrelay/cmdrelay.go:229-243 | any byte prefix decodes to exactly the whole frames in it and then one error, never another frame |
| Framing.HeaderRoundTrip | internal/cmdrelay/cmdrelay.go:263-292 | the header reads back if and only if it is within the limit |
| Framing.RequestRoundTrip | internal/cmdrelay/cmdrelay.go:208-292 | header and frame sequence read back in full, then end of file |
| Framing.UniquelyDecodable | internal/cmdrelay/cmdrelay.go:208-292 | different requests have different encodings |
| CommandRelay.FrameWriter.WriteFrame | internal/cmdrelay/cmdrelay.go:213-227 | appends exactly the frame's encoding |
| CommandRelay.Reader.NextFrame | internal/cmdrelay/cmdrelay.go:229-243 | the next frame or the error, and what is left |
| CommandRelay.ShimLoop | internal/cmdrelay/cmdrelay.go:188-206 | renders a reply stream: outputs by stream, and how it ends |
| CommandRelay.RenderFrames | internal/cmdrelay/cmdrelay.go:188-206 | frames before the exit contribute exactly their payloads, stream by stream |
| CommandRelay.ReplyIsRendered | internal/cmdrelay/cmdrelay.go:153-206 | a finished reply gives the tool's stdout, stderr and exit code, however interleaved |
| CommandRelay.CutReplyIsRendered | internal/cmdrelay/cmdrelay.go:188-193 | a cut reply gives exactly the whole frames that arrived, and "link closed" |
| CommandRuns.RelayIsTransparent | internal/cmdrelay/cmdrelay.go:106-206 | end to end, in every reachable state: outputs are prefixes of the tool's, its stdin a prefix of the input, all of it at end of stdin, and everything is there when Shim returns the code |
| CommandRuns.PipeTake | internal/cmdrelay/cmdrelay.go:208-243 | reading from a pipe with a half-written frame gets the frames in order, each whole |
| SecretResolve.OpPolicy | internal/cmdrelay/cmdrelay.go:85-102 | which arguments are refused and why; accepted exactly if there is no separator and the first word is not denied |
| SecretResolve.ReadsAreAccepted | cmd/worker/shim.go:140-140 | every `op read` of a reference passes the policy |
| SecretResolve.Fetch | cmd/worker/shim.go:200-210 | the device's answer, asked only if not cached |
| SecretResolve.ResolveEnv | cmd/worker/shim.go:133-149 | same keys, every reference replaced by the device's value and nothing else, in any visiting order; fails exactly if one fails; each reference read once |
| SecretResolve.MatchIsLongest | cmd/worker/shim.go:80-80 | what the reference pattern matches at the start of a text |
| SecretResolve.PiecesCut | cmd/worker/shim.go:200-200 | cutting a template into plain text and references gives the template back, leftmost and longest |
| SecretResolve.PiecesUnique | cmd/worker/shim.go:200-200 | no other cut is leftmost and longest |
| SecretResolve.Inject | cmd/worker/shim.go:198-215 | exactly the references are replaced, each by the device's value; fails exactly if one fails; each is read, none twice unless it failed |
| SecretResolve.TemplateReadsAreAccepted | cmd/worker/shim.go:204-204 | every call made for a template passes the policy |
| EventHub.EventHub.Record | cmd/sr/coordevents.go:129-144 | the session's latest event is kept or, on exit, dropped, and the event offered to every subscriber |
| EventHub.EventHub.SyncReaders | cmd/sr/coordevents.go:67-92 | exactly the running workers have readers; each gone one is forgotten and announced exactly once |
| EventHub.EventHub.Subscribe | cmd/sr/coordevents.go:172-186 | registers a channel and replays every entry once, in any order |
| EventHub.RecordMirrored | web/app.js:1059-1068 | reducing a session event keeps the mirror equal to the hub's map |
| EventHub.GoneMirrored | web/app.js:1062-1062 | reducing a gone message keeps the mirror equal to the hub's map |
| EventHub.SnapshotMirrors | cmd/sr/coordevents.go:172-186 | a snapshot brings a mirror up to date if and only if the mirror held no session the hub has forgotten |
| EventHub.SnapshotFits | cmd/sr/coordevents.go:173-182 | a new channel takes the snapshot whole if and only if it has at most 64 entries, and else its first 64 |
| HubRuns.MirrorRefines | web/app.js:1057-1077 | in every reachable state the fold of all messages to a subscriber that dropped none shows, worker by worker, exactly the sessions needing input |
| HubRuns.CountIsRight | web/app.js:1074-1077 | such a browser counts right how many sessions of a project await input |
| HubRuns.MirrorLagsInOrder | web/app.js:1057-1071 | before that it shows the hub as it was a known number of changes ago, state by state |
| HubRuns.ReconnectShows | web/app.js:1057-1071 | in every reachable state and from whatever mirror a browser subscribes with: having handled all messages of a channel that dropped none, it shows the sessions needing input and, wrongly, exactly those of its old ones that the hub had forgotten at the join and has not mentioned since |
| HubRuns.ReconnectGoesWrong | cmd/sr/coordevents.go:172-195 | a run in which a browser that missed nothing leaves, comes back, and shows a session that needs no input |
| HubRuns.HubChannelsAreSafe | cmd/sr/coordevents.go:161-195 | in every run no send hits a closed channel, none is closed twice, and open means registered |
| RateLimit.AuthManager.RecordAttempt | internal/auth/auth.go:134-146 | success clears the count; the eighth failure locks for a minute and clears it |
| RateLimit.AuthManager.HandleLogin | internal/auth/http.go:27-44 | refused without looking at the password exactly while locked; else the answer is the password's and is recorded |
| RateLimit.AuthLockout.Allow | cmd/sr/authlockout.go:30-41 | refused exactly after five failures within a minute of the last one |
| RateLimit.AuthLockout.AuthDevice | cmd/sr/devicelink.go:95-115 | accepted exactly if not locked out and the key is configured, and recorded accordingly |
| RateLimit.LoginRate | internal/auth/auth.go:43-46 | in any k minutes without a success, at most 8k wrong passwords are evaluated one at a time; with c in flight at most 7 + c in one minute and 8k + c - 1 in k for c up to 8, and for any c, k times c rounded up to a multiple of 8, plus (c - 1) % 8 |
| RateLimit.LoginBoundIsMet | internal/auth/auth.go:128-146 | for every k and c a run from a fresh manager that evaluates exactly that many |
| RateLimit.KeyRate | cmd/sr/authlockout.go:10-59 | in any k minutes without a success at most 4 + k failed keys of one identity are judged one at a time, and 4 + kc with c in flight; an identity is a remote address with its port, hence one connection |
| RateLimit.KeyBoundIsMet | cmd/sr/authlockout.go:30-53 | for every k and c a run that judges exactly that many |
| RateLimit.LoginIsTwoEvents | internal/auth/http.go:27-37 | a login is a lock check and, unless refused, a recorded outcome |
| RateLimit.KeyIsTwoEvents | cmd/sr/devicelink.go:95-115 | a key attempt is a lock check and, unless refused, a recorded outcome |
| Overlay.MergeCommands | internal/config/config.go:164-180 | the loop with its index map replaces the last entry of each overriding name or appends |
| Overlay.MergeRefinesConcatenation | internal/config/config.go:162-164 | last-wins lookup in the merge is last-wins lookup in base followed by overrides |
| Overlay.MergeKeepsBaseOrder | internal/config/config.go:162-180 | base entries stay in place, each overridden exactly if it is the last of an overridden name |
| Overlay.MergeAddsNoDuplicates | internal/config/config.go:170-178 | no name repeats that the base did not repeat, and exactly the names of both appear |
| Overlay.MergeAssociative | internal/config/config.go:164-180 | overlaying is associative |
| Overlay.CommandTable | internal/server/server.go:75-78 | the server's table answers by last-wins lookup |
| Reorder.DropWorktree | web/app.js:526-536 | a permutation: the dragged row lands where the target was and the rest keep their order; nothing happens otherwise |
| Reorder.MetaStore.SetOrder | internal/server/colors.go:45-50 | gives the paths their positions one by one |
| Reorder.MetaStore.ListWorktrees | internal/server/server.go:322-344 | annotates in place and sorts stably |
| Reorder.MetaStore.AnnotateInPlace | internal/server/server.go:328-335 | every entry gets its own colour, name and position, and the main one a default name |
| Reorder.OrderedMeta | internal/server/colors.go:45-66 | posting an order changes no colour or name, and nothing of other paths |
| Reorder.OrderedAt | internal/server/colors.go:45-50 | the last mention of a path is its position |
| Reorder.StableSortedIsStable | internal/server/server.go:336-343 | the sort orders the entries, permutes them and keeps ties in order |
| Reorder.StableSortIsUnique | internal/server/server.go:336-343 | any stable sort by this order gives the same result |
| Reorder.ListingOrder | internal/server/server.go:328-344 | the listing is a permutation: positioned entries first by position, then the others in git's order |
| Reorder.ReorderRoundTrip | internal/server/colors.go:45-50 | after posting a displayed order, listing the same worktrees shows exactly that order |
| Reorder.DropPostList | web/app.js:526-536 | dragging a row and posting the outcome makes the next listing, in whatever order git gives the worktrees, show exactly the dropped order |
| Porcelain.List | internal/worktree/worktree.go:55-90 | the line loop with its flush computes Parsed |
| Porcelain.ScanJoined | internal/worktree/worktree.go:68-70 | the scanner undoes joining lines |
| Porcelain.ScanIffOk | internal/worktree/worktree.go:68-70 | lines without a newline are given back if and only if each is shorter than 65536 bytes and none ends in a carriage return |
| Porcelain.ScanStops | internal/worktree/worktree.go:68-69 | the scanner stops at the first line too long for its buffer |
| Porcelain.ReadRecord | internal/worktree/worktree.go:71-86 | the lines of one record are read as what the record says |
| Porcelain.ParseInvertsPrint | internal/worktree/worktree.go:55-91 | parsing printed records gives exactly the reachable ones, in order, the first marked main, with or without the last blank line |

## Left out

- Docker, git, processes, PTYs, SSH cryptography, the tailnet, HTTP, websockets and files are outside: their outcomes are parameters.
- bcrypt, cookies, tokens, sign-in sessions and setting a password: the password check is a parameter.
- JSON and TOML: a hub message, a relay header or a stored map is its value; what arrives malformed is dropped in the source before it reaches this logic.
- The keepalive, open-url, agent and command channels of a device link, and Forward's error path for a reply that cannot be parsed (cmd/sr/devicelink.go:339-341), which leaves its tag registered.
- The way out of connectOnce on an interrupt signal, after which the process ends.
- LinkMachine models one device process with all its connections; devices share nothing but the coordinator's registry, which ActiveDevice models. The device serves requests in one goroutine, so serving one is one action.
- Tags are numbers: the source writes number n as "f" followed by n.
- The global order of status events, which are sent after the session's lock is released.
- Whether a hub reader that ended early is started again.
- Manager.Manager.List: the Info listed is the one given at creation; the state, exit code and pid it also shows are the session's own.
- SwitchRuns.RebindIsExact: assumes, like all of its machine, that a port has one Map under way at a time (PortRuns has what overlapping ones do) and that declarations do not change.
- SwitchRuns.SwitchKeepsTheMappedSet: is about a port that no request unmaps and nobody forgets meanwhile; RebindIsExact is about every run.
- SwitchOrder.MappedIsKnown: is about runs in which requests to unmap keep clear of autoMaps and map requests; SwitchRuns.UnmapIsUndoneIff is about every run.
- SwitchMachine frees a device's port when its forward is closed; another program may take it at once, so a late release is covered. What becomes of the listeners of a device whose link is gone is in LinkRuns.
- PortWiring flattens the nested map of forwards and names a bound listener by its device and port; PortMapper has the nested map and the listeners, and PortTables.ViewsAgree relates the two.
- PortRuns.ListenersAreConserved: assumes that Maps of one port do not overlap; LawHoldsIffPublishesClean is the statement without it.
- ActiveDevice.ActiveIsRegistered, PortMapperFollows: sufficient conditions; BoardIsExact has the exact ones.
- Parsing the arguments and environment files of `op run`, choosing input and output of `op inject`, and running the command afterwards.
- A resolver whose answers change from one read to the next.
- The line Shim prints about a closed link (internal/cmdrelay/cmdrelay.go:190-191) is the LinkClosed ending, not part of the error output.
- Git statistics added to the parsed worktrees.
- The library's sorting algorithm: any stable sort is the one used here.
- Project registry, enrollment, reaper, journal and port attribution, which filter lists and keep flags.
- The rest of the browser code.
