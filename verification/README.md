# lantun: a verified model of the tunnel

lantun exposes a local port to other machines. A host tunnel accepts connections from clients; a
client tunnel listens on a local address and, for every local connection, opens a session to the
host, which connects to the real service. Two forwarding loops per side then carry the bytes.

The project models the code around the sockets and the QUIC library, and proves what it keeps:

| module | models |
|---|---|
| `Common` | addresses, datagrams, the two constants, concatenation of pieces |
| `Forwarder` | both forwarding loops of a session as one state machine: biased select over stop channel, source and timer, shared activity stamp, watch channel with versions, clock truncated to seconds |
| `Fidelity`, `Idle`, `Stopping`, `Stuck` | what every run of that machine keeps: content, idle timeout, behaviour after a stop, and exactly when a session is stuck |
| `Completeness` | what the machine can do: every chunking, the end of a stream, one datagram for each chunk |
| `ForwarderTasks` | the same loops as objects that update shared state and a reused buffer array in place, proved to follow the machine |
| `Tunnel` | one client tunnel, one host connection and the numbered streams between them |
| `Isolation`, `Listener`, `StopBudget` | what every run of that system keeps: pairing, bytes end to end, registries, the shared UDP queue, shutdown |
| `Workloads` | every sequence of connections can be served by that system, byte for byte |
| `HostRuns`, `HostTunnels` | the host's accept loop over many peers, its maps shared by reference, the connection count, start and stop |
| `SharedState`, `ClientTunnels` | the shared map and stop channel; connecting and disconnecting a client tunnel |
| `Views` | every run of `Tunnel`, seen from the host and from the client, is a run of those two |
| `ControlPacket` | the receive loop for the connection request |
| `Hex`, `ConfigEntries`, `Config`, `LoadConfig` | secrets as text, sorted entry lists, the add and remove commands, loading into tunnel maps |

An interleaving is a sequence of atomic steps; a lemma about all valid sequences covers all
interleavings. Fields such as `fed`, `taken`, `out` and `stores` record the past; where a main result
speaks of what was sent or counted, a function over the steps alone (`Input`, `AppSent`,
`Activities`, `CountRequests`) says the same without them.

What is taken for granted about the surroundings:

- streams of one kind are numbered and accepted in the order they were opened, and each delivers its
  bytes, in order, to whichever session of the other side holds the stream of that number (sections
  2.1, 2.2 and 3.2 of RFC 9000); that both sides hold it for the same session is proved;
- decoding a control packet inverts encoding it (`Tunnel.Lawful`);
- one non-decreasing clock per side, read both as wall-clock seconds and by the timer;
- reading the clock and storing the stamp is one step; were it two, the stamp could move back;
- a panic ends the whole run (`panic = "abort"`, Cargo.toml:24), so a run may simply stop there;
- a read that returns an error disables its branch for that select, hence `PollTimer(true)`.

## Findings

- A UDP client session is stuck for good as soon as another application's datagram waits in the
  shared socket with only own nonempty datagrams before it: it forwards those, and then, unless it is
  told to stop or a read of the socket fails, neither forwards, times out nor ends, and the other
  application is never served. `Stuck.EndsIffNotBarred` is the exact
  condition in every state not told to stop; `Listener.TwoApplicationsStarve` reaches it from the
  connection on with one datagram of each of two applications, and `Listener.SecondApplicationStarves`
  follows the whole client from there.
- The idle timeout is 20 seconds by name, but a direction can give up 19.000000001 seconds after
  the other one was active (`Idle.TimeoutBeforeTwentySeconds`); never after 19 seconds or less
  (`Idle.NoEarlyTimeout`). A loop at the top of an iteration can come short of 20 seconds exactly if the
  last activity did not fall on the turn of a second (`Idle.EarlyTimeoutIff`); one that arms its timer
  at once, exactly if it does so at a smaller fraction of a second than that of the activity
  (`Idle.PromptTimeoutIff`).
- Dropping a tunnel's sender before sending a stop makes the loops spin for ever: from the start of a
  session on, a loop then reads, writes or ends exactly if the stop was sent (`Stuck.DroppedAtStart`);
  `Stuck.DroppedSenderIff` has the condition for every state of a loop.
- Disconnecting a client tunnel panics exactly if its listener has already exited, for instance
  because its address was in use (`ClientTunnels.ClientTunnel.Disconnect`, over whole lives of the
  tunnel `ClientTunnels.AbortsIff`).
- `add-client` accepts a hexadecimal secret of any length; with one of another length than 64 the
  whole configuration no longer loads, until an entry of that name is removed
  (`LoadConfig.CommandsLoadIff`, `LoadConfig.BrokenUntilRemoved`).
- A session that fails between registration and the start of its forwarders leaves its entry
  behind, and the host's count keeps it (`HostRuns.ActiveCountIsConserved`; reached in
  `HostRuns.LeftoverIsReachable`).

## Model

| member | source | states |
|---|---|---|
| `Fidelity.SessionForwardsPrefix` | lantun-core/src/net/tcp.rs:41-133 | over every interleaving and chunking, a direction has written a prefix of what its source was given, and all of it if a stream end ended it |
| `Fidelity.SessionTakesOwnDatagrams` | lantun-core/src/net/udp.rs:229-280 | a UDP client session consumes an in-order prefix of the datagrams waiting or arriving, all of them its own sender's, and hands on the first 1024 bytes of each in order; emitted datagrams have 1 to 1024 bytes |
| `Fidelity.DatagramsGoWhole` | lantun-core/src/common.rs:14 | over every run of a session that reads a UDP socket, datagrams of at most 1024 bytes are handed on whole and of a longer one exactly the first 1024 bytes, in order |
| `Fidelity.RunFaithful` | lantun-core/src/net/udp.rs:99-140 | every run keeps: written plus pending is what was read, read plus waiting is what arrived, a peeked datagram is still at the head when received |
| `Fidelity.ActFaithful` | lantun-core/src/net/udp.rs:241-267 | each step of a loop, including peek then receive into the peeked length, keeps that invariant |
| `Fidelity.RunFeeds` | lantun-core/src/net/tcp.rs:92-133 | what a source was given equals what the run's events brought to it |
| `Idle.RunIdle` | lantun-core/src/net/tcp.rs:46-88 | every run keeps: the stamp is the truncated last activity, and unless the opposite direction was active since the load, a timer fires no sooner than 20 whole seconds after the stamp |
| `Idle.VainWakesArePaid` | lantun-core/src/net/tcp.rs:94-131 | over any run, timer wake-ups that do not end a loop number at most the opposite direction's reads |
| `Idle.VainWakeHasCause` | lantun-core/src/net/tcp.rs:78-87 | each such wake-up has a read by the opposite direction between the iteration's load of the stamp and the wake-up |
| `Idle.NoEarlyTimeout` | lantun-core/src/net/tcp.rs:47-54 | a loop that times out does so more than 19 seconds after the session's start and after every activity of either direction |
| `Idle.TimeoutBeforeTwentySeconds` | lantun-core/src/utils.rs:3-7 | a run in which the timeout comes 19 seconds and one nanosecond after the last activity |
| `Idle.EarlyTimeoutIff` | lantun-core/src/net/tcp.rs:46-87 | with nothing to read and no further activity, a loop at the top of an iteration has a continuation that times out less than 20 real seconds after the last activity exactly if that activity did not fall on the turn of a second |
| `Idle.EarlyDeadlineIff` | lantun-core/src/net/tcp.rs:50-54 | once the timer is armed, such a continuation exists exactly if the deadline is less than 20 real seconds after the last activity |
| `Idle.PromptTimeoutIff` | lantun-core/src/utils.rs:3-7 | for a loop that arms its timer without delay, exactly if the fraction of a second at that moment is smaller than that of the last activity |
| `Stopping.OneChunkAfterStop` | lantun-core/src/net/tcp.rs:56-77 | after a stop at any point of any run, each direction writes at most 1024 further bytes and reads at most one further chunk, and none unless it was past its poll of the channel |
| `Stopping.StartedAfterStopForwardsNothing` | lantun-core/src/net/tcp.rs:35-43 | loops started after the stop forward nothing, since cloned receivers keep the unseen version |
| `Stopping.RunAfterStop` | lantun-core/src/net/udp.rs:53-96 | after a stop no run increases the bytes, chunks or steps a direction may still spend |
| `Stopping.ShutdownTerminates` | lantun-core/src/net/tcp.rs:135-137 | after a stop each loop takes at most 1030 more steps and until it ends has one to take in which no read fails |
| `Stopping.ShutdownCompletes` | lantun-core/src/net/tcp.rs:135-137 | after a stop, steps of the two loops alone, no read failing, complete the join |
| `Stuck.DroppedSenderIff` | lantun-core/src/net/tcp.rs:56-63 | a loop whose sender is gone can still end, read or write exactly if the stop was sent, or it has this poll of the channel behind it and its source does not send it back, with and without failing reads |
| `Stuck.DroppedSenderStalls` | lantun-core/src/net/tcp.rs:104-111 | the same at every point of every run at which the sender is dropped |
| `Stuck.DroppedAtStart` | lantun-core/src/net/tcp.rs:35-63 | of a session just started when the sender is dropped, each loop does anything at all exactly if the stop was sent |
| `Stuck.DroppedSenderSpins` | lantun-core/src/net/tcp.rs:58-63 | with the sender dropped unsent, a loop before its poll never reads, writes or ends in any continuation |
| `Stuck.EndsIffNotBarred` | lantun-core/src/net/udp.rs:229-280 | in every reachable state not told to stop, the upward loop of a UDP client session has an undisturbed continuation that ends it exactly if no other application's datagram waits with only own nonempty ones before it, or it is at the decision that ends it |
| `Stuck.BarredForGood` | lantun-core/src/net/udp.rs:249-267 | with such a datagram waiting, every undisturbed continuation forwards at most the own datagrams before it, and neither ends the loop nor joins the session |
| `Stuck.ForeignHeadBlocks` | lantun-core/src/net/udp.rs:249-252 | with a foreign datagram at the head, no continuation without a stop or read error forwards anything, ends the loop or joins the session |
| `Stuck.ForwardsIffOwnHead` | lantun-core/src/net/udp.rs:249-266 | a polling UDP client session can still forward something exactly if its queue is empty or headed by an own datagram with content |
| `Stuck.ForeignHeadIsReachable` | lantun-core/src/client.rs:255-293 | a session started on one datagram of each of two applications is barred from its start |
| `Stuck.FailedReceiveRetries` | lantun-core/src/net/udp.rs:254-258 | a receive that fails after its peek loses nothing: the loop can go round and peek the same datagram again |
| `Completeness.EveryChunking` | lantun-core/src/net/tcp.rs:64-76 | whatever waits in a stream can be read in chunks of any sizes from 1 to 1024 bytes, each written in any pieces |
| `Completeness.CloseDelivers` | lantun-core/src/net/tcp.rs:112-120 | once its stream is closed, a loop not told to stop nor about to time out can end by its own steps, with everything the stream carried delivered |
| `Completeness.OneDatagramPerRead` | lantun-core/src/net/udp.rs:71-84 | over every run, towards a UDP socket each chunk read goes out as one datagram, in order |
| `ForwarderTasks.Loop.Turn` | lantun-core/src/net/tcp.rs:46-63 | the clock, stamp, timer and stop parts of the loop, in place, follow the machine's step |
| `ForwarderTasks.Loop.Transfer` | lantun-core/src/net/udp.rs:249-267 | reading, peeking, receiving and writing, through one buffer that is overwritten in place, follow the machine's step and stamp exactly when a chunk was read |
| `ForwarderTasks.Loop.ReceiveOverPeeked` | lantun-core/src/net/udp.rs:254-266 | receiving into the peeked length of the buffer, over what the peek left there, is the machine's receive |
| `ForwarderTasks.Session.Happen` | lantun-core/src/net/tcp.rs:34-44 | one step of either task or of the surroundings changes the shared state as the machine does |
| `ForwarderTasks.Session.Drive` | lantun-core/src/net/tcp.rs:135-137 | any schedule of the two tasks, each with its own buffer array, ends where the machine's run ends |
| `ForwarderTasks.ForwardSession` | lantun-core/src/net/tcp.rs:146-267 | a whole session hands each side a prefix of what the other side held, in pieces of 1 to 1024 bytes |
| `Isolation.SessionsNeverMix` | lantun-core/src/host.rs:279-347 | in every interleaving the host's k-th session holds the stream that the client opened for its k-th session and for no other, and has the address of the connection that the listener had picked when it opened that stream; its service received a prefix of what that session's application sent, and the application a prefix of what that service sent |
| `Isolation.EofIsComplete` | lantun-core/src/net/tcp.rs:188-201 | for the two sessions that hold one stream: if one side ended on its application's end of file and the other on the end of the stream, everything arrived; both ways |
| `Isolation.DatagramsCarryTheBytes` | lantun-core/src/net/udp.rs:71-84 | a UDP service gets datagrams of 1 to 1024 bytes whose concatenation is a prefix of the bytes read at the other end |
| `Isolation.StopReachesForwarders` | lantun-core/src/client.rs:347-348 | over every run the client has been told to stop exactly if it was disconnected at some point, the host exactly if it was stopped, and the forwarders they run exactly then too |
| `Isolation.ReadsAreBounded` | lantun-core/src/common.rs:58-63 | over every run, packets and streams are read in chunks of at most 1024 bytes |
| `Isolation.StepPaired` | lantun-core/src/client.rs:221-222 | every step keeps streams and packets in lockstep on both sides and the host's sessions equal to the client's first ones, each on the stream of the same number |
| `Isolation.HostStepMirrors` | lantun-core/src/host.rs:280-285 | the host decodes for its next session exactly the address the client sent for the session of that number |
| `Isolation.StepLinked` | lantun-core/src/client.rs:211-242 | every step keeps what each side was given over a stream a prefix of what the session holding it on the other side wrote, complete once the end was seen |
| `Isolation.RunLinked` | lantun-core/src/host.rs:272-348 | all of these over every run |
| `Listener.RegistriesBalance` | lantun-core/src/client.rs:315-335 | in every reachable state no insertion overwrites, every deregistration finds its own session, the "already tunnelled" branch is dead, and the client's map is empty when listening or exited |
| `Listener.LeftSessionsHaveEnded` | lantun-core/src/net/tcp.rs:135-139 | over every run, on either side, every session with forwarders other than the one being forwarded has both loops ended |
| `Listener.NothingIsRefused` | lantun-core/src/client.rs:205-301 | in every reachable state the client can be disconnected, the host stopped and a datagram of anyone arrive; opening a session can fail at each step, the host takes streams and packets as soon as they are there, and a running session can take every step its loops and sockets allow |
| `Listener.DatagramsAreDemultiplexed` | lantun-core/src/client.rs:255-297 | for every arrival order the datagrams consumed session by session, followed by the waiting ones, are exactly the arrivals; each session consumed only its own sender's and wrote a prefix of the first 1024 bytes of each, in order |
| `Listener.PickNamesNextSender` | lantun-core/src/client.rs:266-275 | the UDP listener picks the sender of the first datagram that no session has consumed |
| `Listener.SecondApplicationStarves` | lantun-core/src/client.rs:266-293 | once a foreign datagram heads the queue, the session never ends and no other is opened until the tunnel is disconnected |
| `Listener.TwoApplicationsStarve` | lantun-core/src/client.rs:255-297 | from the connection on, one datagram of each of two applications leads there |
| `Listener.BarredFromStart` | lantun-core/src/net/udp.rs:243-252 | every session started on a queue where another application's datagram bars it is in that state |
| `Listener.ClientShutsDown` | lantun-core/src/client.rs:205-301 | once disconnected the client takes at most 2062 further steps, has one in which nothing fails until it has exited, and exits with an empty map |
| `StopBudget.StoppedSideWritesOneChunk` | lantun-core/src/host.rs:322-344 | a client that was disconnected, or a host that was stopped, writes over all present and future sessions at most 1024 further bytes per direction, and none if no session was forwarding |
| `Workloads.EveryWorkloadIsServed` | lantun-core/src/host.rs:279-347 | for every sequence of connections, TCP or UDP on either side, with any data, replies and divisions of the streams, there is a run that serves them all: session k has the k-th address, its service got exactly the data, its application exactly the reply, and both sides are ready for more |
| `HostRuns.HappensKeepsInv` | lantun-core/src/host.rs:203-264 | each turn of the accept loop keeps peers connected, each served once, the served peer's map holding exactly its session |
| `HostRuns.ActiveCountIsConserved` | lantun-core/src/host.rs:423-440 | over every run the entries number the sessions registered minus deregistered, and between sessions exactly those that failed to start |
| `HostRuns.LeftoverIsReachable` | lantun-core/src/host.rs:303-319 | one connection whose session fails to start leaves its entry behind |
| `HostRuns.PeersAreServedOnce` | lantun-core/src/host.rs:222-240 | exactly the peers that connected are registered and were handed to the session loop, each once |
| `HostRuns.LookupsSucceed` | lantun-core/src/host.rs:297-308 | the peer lookup always succeeds on an empty map, and a deregistration finds its own entry |
| `HostRuns.LoopKeepsInv` | lantun-core/src/host.rs:222-241 | over every run the connected peers only grow |
| `HostTunnels.DisconnectLocalClientConnection` | lantun-core/src/host.rs:357-375 | removes the entry under the virtual address and says whether there was one |
| `HostTunnels.HostRun.Connect` | lantun-core/src/host.rs:218-240 | a known peer is ignored; a new one is added to the others, with an empty map nobody else holds, and is served |
| `HostTunnels.HostRun.Register` | lantun-core/src/host.rs:287-309 | inserts into the peer's shared map, under the unspecified address of the connection's family, and hands the forwarders an alias of it |
| `HostTunnels.HostRun.StartForwarding` | lantun-core/src/host.rs:311-346 | on failure the session loop ends and the entry stays |
| `HostTunnels.HostRun.Deregister` | lantun-core/src/net/tcp.rs:137-139 | through the alias the forwarders always find and remove their own entry |
| `HostTunnels.HostRun.NumActiveConnections` | lantun-core/src/host.rs:423-440 | the loop over all peers returns the number of entries |
| `HostTunnels.ServeAndCount` | lantun-core/src/host.rs:202-265 | after any run of the loop on shared maps the returned count is sessions registered minus deregistered |
| `HostTunnels.HostTunnel.Start` | lantun-core/src/host.rs:165-202 | starts only if not open; a failed start changes nothing; running exactly if properties are present |
| `HostTunnels.HostTunnel.Stop` | lantun-core/src/host.rs:379-393 | the stop always finds a live receiver, so stopping never panics and leaves the tunnel not running |
| `HostTunnels.HostTunnel.NumActiveConnections` | lantun-core/src/host.rs:423-440 | zero when not running |
| `HostTunnels.HostTunnel.NumClients` | lantun-core/src/host.rs:396-403 | the peers served, zero when not running |
| `HostTunnels.LiveAndObserve` | lantun-core/src/host.rs:165-440 | after any calls of start and stop, also failed ones, mixed with the accept loop's turns: no stop lacks a receiver, the tunnel is running exactly if the last effective call was a start, the connections are those of the run since then and the clients its distinct peers, or zero |
| `ClientTunnels.DisconnectLocalConnection` | lantun-core/src/client.rs:315-335 | removes the entry under the local address and says whether there was one |
| `ClientTunnels.ClientRun.EndSession` | lantun-core/src/net/tcp.rs:258-264 | the session's entry is found and the map is empty afterwards |
| `ClientTunnels.ClientTunnel.Connect` | lantun-core/src/client.rs:164-198 | connects only if not connected; a failed attempt changes nothing |
| `ClientTunnels.ClientTunnel.Disconnect` | lantun-core/src/client.rs:338-358 | panics exactly if the listener has exited; otherwise leaves the tunnel not running with the stop sent |
| `ClientTunnels.ClientTunnel.NumActiveConnections` | lantun-core/src/client.rs:378-385 | one while a session is served, else zero |
| `ClientTunnels.DisconnectAfterListenerFailed` | lantun-core/src/client.rs:208-209 | a listener that cannot bind makes the later disconnect panic |
| `ClientTunnels.LiveAndObserve` | lantun-core/src/client.rs:164-385 | after any calls of connect and disconnect, also failed ones, mixed with the listener's turns: flag, count and panic are those of the tunnel's life |
| `ClientTunnels.AbortsIff` | lantun-core/src/client.rs:347-349 | the program panics exactly if the last call was a disconnect after the listener had exited |
| `Views.HostIsAcceptLoop` | lantun-core/src/host.rs:203-348 | on the host, every run of client and host is a run of the accept loop with that one peer, and the registry is that peer's map |
| `Views.ClientIsListener` | lantun-core/src/client.rs:205-301 | on the client, every such run is a life of the tunnel after one connect, and the registry is the listener's map |
| `ControlPacket.ReceivePacket` | lantun-core/src/common.rs:51-72 | for every split into reads the loop ends with exactly the bytes sent, so the request sent is the request received; read and decode errors are told apart |
| `Hex.DecodeInvertsEncode` | lantun-cli/src/main.rs:137-139 | decoding inverts encoding for every byte string |
| `Hex.EncodeInvertsDecode` | lantun-cli/src/main.rs:181-191 | encoding what was decoded is the text in lower case |
| `Hex.EncodedAt` | lantun-cli/src/main.rs:137-139 | byte i is written as two digits of the lower-case alphabet, its high half first |
| `Hex.DecodesIffWellFormed` | lantun-cli/src/main.rs:181-183 | exactly the texts of even length with hexadecimal digits decode |
| `Hex.NormaliseKeepsSecret` | lantun-cli/src/main.rs:181-191 | normalising keeps the secret and is idempotent |
| `ConfigEntries.StableSortUnique` | lantun-cli/src/main.rs:160-160 | a list has one stable sort by name, whatever the algorithm |
| `ConfigEntries.LeqMeans` | lantun-cli/src/main.rs:160-160 | names are ordered by the first differing character, a prefix first |
| `ConfigEntries.SortIsStable` | lantun-cli/src/main.rs:160-160 | the modelled sort is sorted, keeps the order within each name and is a permutation |
| `ConfigEntries.SortByName` | lantun-cli/src/main.rs:203-203 | the loop computes that sort |
| `ConfigEntries.PushThenSort` | lantun-cli/src/main.rs:159-160 | push then stable sort of a sorted list inserts after the last entry whose name is not greater |
| `Config.CommandsKeepInv` | lantun-cli/src/main.rs:150-238 | any commands from the empty configuration keep both lists sorted and distinct on address and protocol, with decodable secrets |
| `Config.FindName` | lantun-cli/src/main.rs:227-231 | the first entry of a name, if any |
| `Config.LanTunConfig.AddHostTunnel` | lantun-cli/src/main.rs:137-160 | refuses a taken address and protocol, changing nothing; else the sorted host list holds the new entry besides the old ones, and the client list is untouched |
| `Config.LanTunConfig.AddClientTunnel` | lantun-cli/src/main.rs:181-203 | refuses text that is not hexadecimal, then a taken address and protocol, changing nothing; else the sorted client list holds the new entry, with the secret in lower case, besides the old ones, and the host list is untouched |
| `Config.LanTunConfig.RemoveTunnel` | lantun-cli/src/main.rs:226-239 | removes and reports the first host entry of that name, else the first client entry, else nothing; all else stays in place |
| `LoadConfig.LoadHosts` | lantun-cli/src/config.rs:16-24 | succeeds exactly if every private secret is 32 bytes of hexadecimal, else returns the error of the first entry that cannot be loaded |
| `LoadConfig.LoadClients` | lantun-cli/src/config.rs:26-34 | succeeds exactly if secrets are good and keys distinct, else returns the error of the first entry that cannot be loaded: bad text, bad length, or the key it shares with an earlier one |
| `LoadConfig.FailureUnique` | lantun-cli/src/config.rs:16-34 | a list that cannot be loaded determines that error |
| `LoadConfig.CreateState` | lantun-cli/src/config.rs:13-37 | loads exactly the loadable configurations, into the maps below; otherwise returns the first host error, or if there is none the first client error |
| `LoadConfig.HostMapLastWins` | lantun-core/src/host.rs:85-104 | of the entries with one private secret the last wins |
| `LoadConfig.HostMapKeys` | lantun-core/src/host.rs:101-103 | one host tunnel per distinct private secret, and no other |
| `LoadConfig.ClientMapOnePerEntry` | lantun-core/src/client.rs:82-105 | one client tunnel per entry, under its own key |
| `LoadConfig.AddedHostLoads` | lantun-cli/src/main.rs:137-160 | an added host tunnel loads under the bytes of its generated secret, and is the tunnel found there if no other entry has that secret |
| `LoadConfig.AddedClientIsFound` | lantun-cli/src/main.rs:181-203 | a client tunnel added with 64 hexadecimal digits loads under its address and protocol, with its name and those bytes, and the others load as before |
| `LoadConfig.CommandsLoadIff` | lantun-cli/src/main.rs:181-203 | a configuration made by commands loads exactly if every client secret has 64 characters |
| `LoadConfig.WrongLengthBreaksLoading` | lantun-cli/src/config.rs:27-29 | whatever commands came before, adding a client with a free key and a hexadecimal secret is accepted, and the configuration then loads exactly if it did before and the secret has 64 characters |
| `LoadConfig.BrokenUntilRemoved` | lantun-cli/src/main.rs:181-239 | after a secret of another length was added, every later configuration fails to load until an entry of that name is removed |

## Left out

- QUIC, relays, discovery and encryption: a library; only ordered streams are assumed.
- When a freshly opened stream becomes visible to the host: the model lets the host accept it at once, which adds runs and removes none.
- The byte format of control packets: only that decoding inverts encoding.
- Key generation and the validity of public keys: 32 bytes are taken to be a key, so the panic on bytes that are no valid key is not modelled.
- Real sockets, task scheduling and fairness: every interleaving of steps is allowed, and progress is stated as a bound on steps plus the existence of a next step.
- Progress of the idle timeout: stated as the existence of a continuation that ends the loop, not for every schedule.
- Tasks of a host or client tunnel that was stopped and started again: the old run goes on with maps and channels the tunnel no longer holds, and is not followed further.
- The end of a write: a write that fails panics and ends the run; one that never completes leaves its direction where it is.
- Host shutdown as a whole: the accept loop does not end on a stop, so only its sessions are shown to end.
- `ConfigEntries.SortByName`: the library's sorting algorithm is not modelled, only that it is stable, which fixes its result.
- Reading and writing the configuration file, command-line parsing, listing, logging: input and output.
- Parsing and printing of the protocol name, and the `enabled` field, which is never read.
