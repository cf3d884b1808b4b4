# A model of the reverse TCP tunnel

The repository forwards TCP connections through a WebSocket: a server accepts external
connections on a port of its pool, gives each a connection identifier, and multiplexes their
bytes over the WebSocket of the client that registered the device; the client dials the local
service once per identifier and copies bytes both ways. This project models the server
(`internal/server/server.go`, `proxy.go`, `port_pool.go`), the client
(`internal/client/client.go`) and what they say to each other, and proves that the bytes of a
connection arrive unchanged, in order and nowhere else, that the registry stays one table, that
shutting down loses nothing, that closing a connection comes to an end, and that threads never
wait for each other in a circle.

`dafny verify dfyconfig.toml` verifies the whole project.

## How the model is built

The code is concurrent, so it appears twice.

*Machines.* `Proxies` (one proxy: accept loop, one read loop per connection, `Stop`), `Clients`
(one client: `Start`/`run`, one reader per local connection, heartbeat, reconnect, `Stop`) and
`Registries` (the critical sections under the server lock) are state machines on values. One
step is one critical section or one I/O call. `Tunnel` composes any number of proxies and
clients with the registry, the message handler of every WebSocket, the administrator, the two
sweeps and the goroutines that stop proxies after the server lock was released. A run is any
sequence of steps any of them can take, so every interleaving at that granularity is covered,
including the windows between a lookup and its use, between taking a proxy out of the registry
and stopping it, and between a local reader and a reconnect. Histories (what was read, written
and sent, which identifiers were heard of) are part of the states.

*Code.* The classes `PortPools.PortPool`, `ServerCode.Server`, `ProxyCode.Proxy` and
`ClientCode.Client` keep the code's own fields and change them in place with its own loops. Each
method is proved against the function or the run of events of the machine it stands for; what
those keep is proved on the machines. A method says what happens when nobody comes in between;
interference is the machines' subject.

| file | what it holds |
|---|---|
| `port_pool.dfy` | the allocator: value, cyclic order, fairness, class |
| `registry.dfy`, `sections.dfy` | the registry and its runs; what each critical section changes, field by field |
| `limits.dfy`, `deadlines.dfy` | the device limit; expiry and heartbeats over timed runs |
| `frames.dfy` | the messages, and what one connection sees of a stream of them |
| `proxy.dfy`, `proxy_stop.dfy` | one proxy; slots and `Stop` |
| `client.dfy`, `client_sessions.dfy` | one client; its side of the protocol, and when it crashes |
| `tunnel.dfy` | the composition |
| `tunnel_inv.dfy`, `tunnel_proxy.dfy`, `tunnel_client.dfy`, `tunnel_handler.dfy`, `tunnel_admin.dfy` | its invariant and why every step keeps it |
| `tunnel_places.dfy` | no proxy is lost, no port has two listeners |
| `tunnel_theorems.dfy` | the promises about every reachable state |
| `tunnel_origins.dfy`, `tunnel_protocol.dfy` | where devices and limits come from; one registration per WebSocket, and nothing sent that the other side does not know |
| `tunnel_progress.dfy` | no frame is given up while its connection can take it, and every goroutine has a next step |
| `tunnel_closing.dfy` | why closing a connection terminates |
| `locks.dfy` | the lock order and freedom from deadlock |
| `objects.dfy`, `proxy_code.dfy`, `server_code.dfy`, `client_code.dfy` | the code's own form |

### What is assumed

* Connection identifiers are fresh. `proxy.go:284-296` draws eight random characters and never
  checks; here an accepted connection gets an identifier no connection had before.
* A WebSocket delivers in order, and once a write on it fails, or it is closed, no later write
  succeeds; the same holds for a TCP socket. (`proxy.go:226-230` only logs a failed write.)
  Frames already written may still arrive after that, or be lost.
* Binding a port that another listener holds fails.
* An I/O call returns at some time, with success or with an error. A read may fail at any time.
* The checks of the token and of the administrator's password are one Boolean, `authorised`.
* Time is an integer the caller reads from a clock that does not go back; `time.Time{}` as "no
  expiry" is `None`.

Nothing is assumed about scheduling, except by `TunnelClosing.ClosedConnectionsLeave`, which names
its hypothesis; nor about how many WebSockets a client has had, or about which connection a reader
that survived a reconnect sends on.

### Claims that do not hold of the code

* `MaxDevices` is not a bound on the number of devices: `Limits.LimitCanBeExceeded` exceeds it
  from every state with one place and two ports free; `Limits.LimitWithRaces` and
  `Limits.LimitWithOpenConnections` give the bound that holds, and `Limits.BoundIsReached` says
  that no smaller one does.
* A connection that keeps sending heartbeats can be closed as silent:
  `Deadlines.SecondRegistrationGetsClosed` is a run in which it happens.
  `Deadlines.BeatingClosedExactly` says that it happens if and only if, at some sweep, another
  device registered on the same connection has a record older than the timeout. With clients of this
  repository that does not happen: they register once per connection, so a WebSocket has one device
  at most (`TunnelProtocol.OneDevicePerWebSocket`), and `Deadlines.BeatingIsNeverClosed` is what
  they can rely on.
* A client does not always reconnect: `run` and `register` read through `c.conn`
  (`client.go:161`, `client.go:208`), which the heartbeat or `Stop` may have set to nil since.
  `ClientSessions.DropMayCrash` is that step from every state in which the client waits for a
  message; `ClientSessions.CrashesOnlyAfterDrop` says that without such a close no run crashes.
* The comment above `closeConn` (`client.go:401`) asks its caller to hold the lock that the
  function itself takes; the model follows the code.

## Model

| member | source | states |
|---|---|---|
| `PortPools.AllocateFirstFree` | internal/server/port_pool.go:30-49 | an allocation hands out the first free port in cyclic order from the cursor, fails exactly when the range is full, and then leaves the cursor where it began |
| `PortPools.PortPool.Allocate` | internal/server/port_pool.go:30-49 | the loop over the moving cursor does what the value-level allocation says |
| `PortPools.PortPool.Release` | internal/server/port_pool.go:52-58 | removes one port from both maps and touches nothing else |
| `PortPools.PortPool.GetBinding` | internal/server/port_pool.go:61-66 | the device bound to a used port, and none for any other |
| `PortPools.PortPool.GetUsedPorts` | internal/server/port_pool.go:69-74 | the number of used ports |
| `PortPools.PortPool.GetAvailablePorts` | internal/server/port_pool.go:77-82 | the number of free ports of the range; with the used ones it makes up the range size |
| `PortPools.NoStarvation` | internal/server/port_pool.go:34-58 | a port free at cyclic distance d is handed out by the (d+1)-th later allocation at the latest, whatever releases come in between |
| `PortPools.WithinOneTurn` | internal/server/port_pool.go:34-58 | so every free port is handed out within as many allocations as the range has ports |
| `PortPools.LooksPastUsedPorts` | internal/server/port_pool.go:35-46 | an allocation looks at a port exactly when every port before it, in cyclic order from the cursor, is in use |
| `PortPools.FairTurn` | internal/server/port_pool.go:34-46 | between two hand-outs of one port the cursor came to every other port of the range, which was then in use or handed out |
| `PortPools.PortAccounting` | internal/server/port_pool.go:69-82 | used plus available is the range size |
| `Registries.OneTable` | internal/server/server.go:203-599 | after any sequence of register, disconnect, enable, disable, sweep and heartbeat, failed ones included, `devices`, `conns`, `proxies`, `used` and `bindings` are views of one table |
| `Registries.RegisterConsistent` | internal/server/server.go:233-266 | a registration keeps the views in agreement; a refused one changes nothing, and "no port" means the range is full |
| `Registries.RegisterSucceeds` | internal/server/server.go:233-266 | a new name with a free port is registered on the first free port in cyclic order |
| `Registries.DisconnectConsistent` | internal/server/server.go:360-378 | removing a device and its port keeps the views in agreement |
| `Registries.EnableConsistent` | internal/server/server.go:473-501 | enabling never overwrites a proxy, and a failed one (failed bind included) leaves the registry as it was |
| `Registries.DisableConsistent` | internal/server/server.go:517-546 | disabling always has a proxy to hand to the caller; a refused one changes nothing |
| `Registries.SweepConsistent` | internal/server/server.go:567-586 | the sweep keeps the views in agreement and takes out the proxy of a port exactly when the device bound to it has expired |
| `Registries.RouteStaysHome` | internal/server/server.go:301-357 | a message is routed to a proxy of the very device registered on its WebSocket |
| `Registries.RouteNeverReturns` | internal/server/server.go:203-599 | a WebSocket that is no longer routed to a proxy is never routed to that proxy again |
| `Registries.RouteExactly` | internal/server/server.go:301-357 | a WebSocket has a route exactly when it is registered and its device enabled, and the route is the proxy on that device's port |
| `Registries.DevicesAreUsedPorts` | internal/server/port_pool.go:69-82 | there are as many devices as used ports, so no more than the range has |
| `Sections.RegisterExactly` | internal/server/server.go:233-266 | the write section succeeds exactly when the name is new and a port is free; the record, the maps and the pool afterwards, and that nothing else changed |
| `Sections.DisconnectExactly` | internal/server/server.go:360-378 | the device of the connection, its port and its proxy go, and nothing else |
| `Sections.EnableExactly` | internal/server/server.go:473-501 | succeeds exactly when the device is there, not enabled and its port can be bound; it then expires after the duration, or never if none was given, and everything else stays |
| `Sections.DisableExactly` | internal/server/server.go:517-541 | succeeds exactly when the device is there and enabled, and takes out its proxy and its expiry |
| `Sections.OwnerExactly` | internal/server/server.go:284-287 | a heartbeat finds a device exactly when its connection is registered, and then that one |
| `Sections.BeatExactly` | internal/server/server.go:290-296 | sets the time of that very record, if it is still there, and nothing else |
| `Sections.TimedOutExactly` | internal/server/server.go:396-412 | the connections to close are exactly those of devices not heard of for longer than the timeout |
| `Sections.RecordsKept` | internal/server/server.go:203-599 | only a registration adds a record, with what was requested, and no section changes that later |
| `Limits.LimitWithRaces` | internal/server/server.go:223-260 | with at most K handlers between check and insertion there are at most MaxDevices - 1 + K devices: MaxDevices when registrations are serialised |
| `Limits.LimitWithOpenConnections` | internal/server/server.go:223-260 | the same bound with K the number of open connections |
| `Limits.BoundIsReached` | internal/server/server.go:223-260 | for every limit, every number K of open connections and every range with enough ports, some run reaches MaxDevices - 1 + K devices |
| `Limits.LimitCanBeExceeded` | internal/server/server.go:223-260 | one below the limit, two handlers that check before either inserts both get in |
| `Deadlines.SweepClearsExpired` | internal/server/server.go:567-586 | a sweep disables exactly the devices whose expiry has passed and takes out their proxies; devices without expiry, or not past it, keep record and proxy; the stop list is exactly the removed proxies |
| `Deadlines.ExpiryBound` | internal/server/server.go:495-599 | with sweeps at most 60 s apart no device stays enabled more than 60 s past its expiry |
| `Deadlines.EnabledNoLonger` | internal/server/server.go:495-599 | a device enabled for a duration is not enabled any more 60 s after its end, unless it was enabled again |
| `Deadlines.EnabledAsAsked` | internal/server/server.go:495-599 | and until its end, or for ever without one, it stays enabled unless it is disabled or its connection closes: no sweep comes too early |
| `Deadlines.SilenceBound` | internal/server/server.go:390-417 | a device whose record is older than the timeout plus one 10 s sweep has had its connection closed |
| `Deadlines.SilentIsClosed` | internal/server/server.go:284-417 | when each connection registers at most once, a connection on which neither a registration nor a heartbeat was handled for the timeout plus 10 s has been closed |
| `Deadlines.ReconnectSucceeds` | internal/server/server.go:360-378 | the disconnect then frees name and port, and the same name registers again at once |
| `Deadlines.OneDevicePerConnection` | internal/server/server.go:203-281 | when each connection registers at most once, devices and connections correspond one to one |
| `Deadlines.BeatingIsNeverClosed` | internal/server/server.go:284-298 | then a connection whose heartbeat gaps stay within the timeout is never closed by the sweep |
| `Deadlines.BeatingClosedExactly` | internal/server/server.go:203-412 | however often connections register, a connection that keeps sending heartbeats is closed if and only if some sweep finds another device of that connection with a record older than the timeout |
| `Deadlines.SecondRegistrationGetsClosed` | internal/server/server.go:203-412 | a run from the start, its heartbeats never more than 5 s apart, in which a connection that registered twice is closed under a timeout of 9 s |
| `Deadlines.ServerRuns` | internal/server/server.go:390-599 | the expiry and silence bounds for every punctual run of a server from its start |
| `Deadlines.OrderlyServerRuns` | internal/server/server.go:203-417 | the heartbeat promise, both ways, for every such run with one registration per connection |
| `Deadlines.ServerClosesExactly` | internal/server/server.go:203-417 | and exactly when it fails, for every run |
| `Proxies.StepInv` | internal/server/proxy.go:97-250 | every step of accept loop, read loops, `Stop`, writes and closes keeps the proxy's invariant: what was sent about a connection carries exactly what was read from it |
| `ProxyStop.SlotConservation` | internal/server/proxy.go:107-188 | in every reachable state the count is the number of connections whose clean-up has not finished, it bounds the map, and it never exceeds the limit |
| `ProxyStop.ConfiguredLimit` | internal/server/proxy.go:54-66 | in every run of a started proxy no more connections hold a slot than were configured, 10000 if the setting is not positive |
| `ProxyStop.AdmittedExactly` | internal/server/proxy.go:139-149 | a connection is turned away exactly when as many as the limit allows hold a slot |
| `ProxyStop.AcceptsUntilStopped` | internal/server/proxy.go:127-137 | while the stop channel is open the accept loop has not exited and can step, failed Accepts included; while it listens any new connection can be accepted |
| `ProxyStop.SlotReturnedOnce` | internal/server/proxy.go:175-188 | a slot is returned once, when the clean-up finishes, although three paths remove from the map |
| `ProxyStop.StopComplete` | internal/server/proxy.go:97-118 | after `Stop` an open socket is in the accept step in flight or belongs to a read loop that can read nothing more; at most one connection was accepted after the channel closed |
| `ProxyStop.WorkDecreases` | internal/server/proxy.go:97-213 | after the drain every step of the proxy's own goroutines decreases a measure, and calls from outside keep it |
| `ProxyStop.StopWindsDown` | internal/server/proxy.go:97-213 | so a drained proxy takes boundedly many steps, and when it can take no more every socket is closed, the map empty and every slot returned |
| `Clients.StepInv` | internal/client/client.go:45-467 | every step of the client keeps its invariant, reconnects and readers of older sessions included |
| `ClientSessions.StepTalks` | internal/client/client.go:127-186 | every step of a client keeps this: it registers once at most on a WebSocket, sends only what the server knows, and serves only after `assigned` was the first message there |
| `ClientSessions.CrashesOnlyAfterDrop` | internal/client/client.go:190-212 | a run in which neither the heartbeat nor `Stop` closes the connection never reads through a nil connection |
| `ClientSessions.DropMayCrash` | internal/client/client.go:206-246 | after such a close while the client waits for a message, its next read may |
| `TunnelClient.ClientServed` | internal/server/proxy.go:161-211 | the client receives what it relies on: an identifier is opened once, before any data for it, and stays on one WebSocket |
| `TunnelAdmin.StepInv` | internal/server/server.go:149-599 | every step of the composed system keeps the invariant from which the theorems follow |
| `TunnelTheorems.LocalGetsPrefix` | internal/client/client.go:282-338 | in every reachable state the bytes written to a local socket are a prefix of the bytes read from the external socket of the same connection |
| `TunnelTheorems.ExternalGetsPrefix` | internal/server/proxy.go:216-240 | in every reachable state the bytes written to an external socket are a prefix of the bytes read from the local socket of the same connection, readers that outlived a reconnect included; without a local socket nothing is written |
| `TunnelTheorems.OneLocalSocket` | internal/client/client.go:282-303 | a connection has a local socket at one client at most |
| `TunnelTheorems.DrainedAtClient` | internal/client/client.go:306-310 | when the client handles the server's conn_close for an open local connection with no failed write, everything read from the external socket has been written |
| `TunnelTheorems.DrainedAtServer` | internal/server/proxy.go:243-250 | when the server handles a reader's conn_close and the external socket is open with no failed write, everything read from the local socket has been written |
| `TunnelTheorems.RoutingIsolation` | internal/server/server.go:301-357 | a handler changes only proxies of the very device that is registered on its own WebSocket, even if the proxy was removed or its port reused between lookup and use, and in such a proxy only the connection the message names, in sockets and map |
| `TunnelTheorems.NoProxyLost` | internal/server/server.go:360-599 | every started proxy is in the registry and running, or in exactly one stop list, or stopped |
| `TunnelTheorems.OneListenerPerPort` | internal/server/server.go:473-557 | two proxies on one port never listen at the same time: the assumption about binding, carried to every reachable state |
| `TunnelTheorems.LogIsOpenDataClose` | internal/server/proxy.go:161-188 | what a WebSocket carries to the client about a connection is a prefix of open data* close, and only the home WebSocket carries any |
| `TunnelTheorems.ClosingDoesNotPingPong` | internal/client/client.go:341-384 | in a whole run a client writes at most one conn_close for a connection plus one per data message it could not deliver |
| `TunnelOrigins.PassesCheck` | internal/server/server.go:205-231 | a handler passes the checks exactly with the right token, a name, a positive port and the limit not reached; otherwise the answer is an error and the registry as it was |
| `TunnelOrigins.OnlyAuthorisedDevices` | internal/server/server.go:203-266 | in every reachable state each device was asked for by a register message on its WebSocket with the right token, a name and a positive local port |
| `TunnelOrigins.ProxiesRespectLimit` | internal/server/proxy.go:54-149 | in every reachable state no proxy has more slots in use than the server was configured for |
| `TunnelProtocol.OneDevicePerWebSocket` | internal/client/client.go:45-86 | in every reachable state a WebSocket has one device at most, and `conns` leads to it |
| `TunnelProtocol.ClosedMeansUnregistered` | internal/server/server.go:165-171 | a WebSocket whose read has failed has no device in the registry, and in the end it is closed |
| `TunnelProtocol.NothingSkipped` | internal/server/server.go:180-198 | no handler ever meets a message type it does not know, and neither does a client |
| `TunnelProtocol.AssignedFirst` | internal/client/client.go:147-186 | a client serves only after `assigned` was the first message of the session, and returns only after `Stop` |
| `TunnelProgress.HandedOver` | internal/server/server.go:301-357 | a frame of a connection whose proxy the registry holds is handed to that very proxy |
| `TunnelProgress.NotGivenUp` | internal/server/server.go:301-357 | while the registry holds the proxy and the proxy lists the connection, every step of the handler brings the frame on and the last one writes it or closes the connection: it is not given up |
| `TunnelProgress.InsertAnswers` | internal/server/server.go:233-281 | the answer to a registration is the device's port, or an error exactly when the name is taken or no port is free |
| `TunnelProgress.HeartbeatAnswered` | internal/server/server.go:284-298 | a heartbeat goes on exactly when its connection is registered |
| `TunnelProgress.BeatAnswered` | internal/server/server.go:289-297 | it is then acknowledged, and credited to the very device that was found |
| `TunnelProgress.SweepClosesExactly` | internal/server/server.go:396-412 | a heartbeat sweep takes down the WebSockets of silent devices and no others |
| `TunnelProgress.HandlerGoesOn` | internal/server/server.go:149-200 | a handler has a next step until its WebSocket is closed, and takes a frame whenever there is one |
| `TunnelProgress.HandlerCanDeliver` | internal/server/proxy.go:216-240 | it can write all it has exactly when the socket is open with no failed write, and a reply exactly while the WebSocket is up |
| `TunnelProgress.StopListGoesOn` | internal/server/proxy.go:97-118 | a stop list that is not empty can be worked on |
| `TunnelProgress.ConnectionGoesOn` | internal/server/proxy.go:127-213 | every external connection has a next step until it has finished or was refused |
| `TunnelProgress.ProxyCanServe` | internal/server/proxy.go:161-211 | an open connection can be read from, and its frame sent exactly while the WebSocket is up |
| `TunnelProgress.ClientGoesOn` | internal/client/client.go:45-467 | unless it returned or crashed, a client's main goroutine has a next step and so has every running reader, or the holder of the write lock has |
| `TunnelProgress.ClientCanReceive` | internal/client/client.go:202-220 | a client that waits for a message can receive the next one that was sent to it |
| `TunnelProgress.AdministrationGoesOn` | internal/server/server.go:390-599 | enabling, disabling and both sweeps are never held up |
| `TunnelPlaces.StepSettled` | internal/server/server.go:360-599 | every step keeps each proxy in one place and each port at one listener |
| `TunnelClosing.NeverRaised` | internal/server/proxy.go:174-211 | once the external side of a connection has ended, no step of anybody raises its well-founded rank |
| `TunnelClosing.InChargeLowers` | internal/client/client.go:208-399 | until the identifier is out of both maps for good, every step of the goroutine in charge (the one that serves the connection, then the main goroutine of the client) lowers the rank, whatever the step is and however its I/O ends |
| `TunnelClosing.NeverStuck` | internal/client/client.go:421-467 | that goroutine can take a step, or waits for the client's write lock, whose holder's write frees the lock however it ends |
| `TunnelClosing.CloseIsHandled` | internal/client/client.go:306-310 | without failures the close does it: WebSocket up and everything sent about the connection received, the client lists it no more, unless it is handling the close at that moment |
| `TunnelClosing.GoneStays` | internal/server/proxy.go:174-211 | once out of both maps for good, an identifier stays out, whoever moves |
| `TunnelClosing.ClosedConnectionsLeave` | internal/client/client.go:306-399 | in every endless run in which the goroutine in charge is not left out for ever, a connection whose external side has ended is some time out of the maps on both sides |
| `Locks.PathsAscend` | internal/server/server.go:102-599 | every code path of server, proxies, web server and client takes its locks in increasing rank |
| `Locks.StepInv` | internal/server/server.go:284-298 | mutual exclusion and lock order survive every step of every thread |
| `Locks.NoDeadlock` | internal/server/server.go:420-443 | whichever paths run in whichever interleaving, threads never wait for each other in a circle, and a lock held for writing is held by nobody else |
| `Locks.WaitsEnd` | internal/server/server.go:420-443 | a thread that is not done can step, or waits, through finitely many that wait, for one that can |
| `Locks.StepsUnlessWaiting` | internal/server/server.go:284-298 | a thread that is not done can step exactly when no other is in the way of the lock it asks for |
| `Locks.BroadcastUnderLockSticks` | internal/server/server.go:268-269 | the broadcast has to stay outside the server lock: inside it the path breaks the order and the thread waits for itself |
| `ProxyCode.Proxy.constructor` | internal/server/proxy.go:54-94 | a proxy with no connections and the configured limit, or 10000 if that is not positive |
| `ProxyCode.Proxy.Admit` | internal/server/proxy.go:139-149 | takes a slot exactly when one is free |
| `ProxyCode.Proxy.Serve` | internal/server/proxy.go:127-168 | one turn of the accept loop: turned away and closed, or counted, listed and announced |
| `ProxyCode.ServedIsARun` | internal/server/proxy.go:127-168 | that turn is a run of the machine |
| `ProxyCode.Proxy.ReadLoop` | internal/server/proxy.go:174-213 | everything read is sent in order, then the end is reported, the socket closed, the entry deleted and the slot returned; a send that fails stops none of this |
| `ProxyCode.Proxy.ReadTurn` | internal/server/proxy.go:191-211 | one turn of the loop, from any state: it ends at a closed stop channel or a failed read, and otherwise sends what it read |
| `ProxyCode.ForwardedIsARun` | internal/server/proxy.go:190-211 | the loop is a run of the machine |
| `ProxyCode.EndedIsARun` | internal/server/proxy.go:175-188 | so is its deferred clean-up |
| `Frames.ChunksCarryAll` | internal/server/proxy.go:205-210 | the frames the loop sends carry exactly the bytes it read |
| `ProxyCode.Proxy.Stop` | internal/server/proxy.go:97-118 | a second call changes nothing; the first closes channel, listener and every listed connection, and empties the map |
| `ProxyCode.StopIsARun` | internal/server/proxy.go:97-118 | `Stop` is a run of the machine |
| `ProxyCode.Proxy.HandleFromClient` | internal/server/proxy.go:216-240 | writes to a listed connection of a running proxy, and to no other socket |
| `ProxyCode.DeliverInv` | internal/server/proxy.go:216-240 | that is nothing, or one write event of the machine |
| `ProxyCode.Proxy.CloseConn` | internal/server/proxy.go:243-250 | closes and delists the connection if it is listed, and closes no other |
| `ProxyCode.DropInv` | internal/server/proxy.go:243-250 | that is the close event of the machine |
| `ServerCode.Server.HandleRegister` | internal/server/server.go:203-281 | the answer is an error exactly for a wrong token, an empty name, a bad port, a reached limit, a taken name or an exhausted pool, and then no map changes; otherwise the new record is in both maps and the answer is its port, the first free one; the connection is dropped exactly for the wrong token and the limit |
| `ServerCode.Server.Insert` | internal/server/server.go:233-266 | the section under the write lock is the registration of the registry; when it fails, and the record it enters |
| `ServerCode.Server.HandleDisconnect` | internal/server/server.go:360-387 | removes the connection's device, port and proxy from the maps and nothing else, and returns the proxy to stop |
| `ServerCode.Server.HandleHeartbeat` | internal/server/server.go:284-298 | sets the time of the device registered on the connection and of no other, and acknowledges |
| `ServerCode.Server.EnableDevice` | internal/server/server.go:473-514 | succeeds exactly when the device is there, not enabled and its port can be bound; a new proxy with the configured limit is then in the map and the device enabled until the end of the duration, or for ever; no other device changes |
| `ServerCode.Server.DisableDevice` | internal/server/server.go:517-557 | succeeds exactly when the device is enabled; its proxy is then out of the map and returned, and no other device changes |
| `ServerCode.Server.CheckExpired` | internal/server/server.go:566-594 | whatever order the map is walked in, exactly the devices past their expiry are disabled, their proxies are out of the map, and the list holds each of these once |
| `ServerCode.OrderDoesNotMatter` | internal/server/server.go:570-585 | looking at the devices one by one in any order is the sweep |
| `ServerCode.Server.CheckHeartbeats` | internal/server/server.go:396-412 | the list holds exactly the connections of devices last heard of more than the timeout ago |
| `ServerCode.Server.Route` | internal/server/server.go:302-308 | the proxy on the port of the connection's device, exactly when connection and proxy are in the maps |
| `ClientCode.Client.Connect` | internal/client/client.go:127-144 | a new session on a new WebSocket |
| `ClientCode.Client.Register` | internal/client/client.go:147-186 | fails exactly without a connection, on a failed write or read, or on any answer but `assigned`, and then the WebSocket is closed; otherwise the port is the one assigned |
| `ClientCode.RegisterIsARun` | internal/client/client.go:147-186 | that is a run of the machine |
| `ClientCode.Client.HeartbeatTick` | internal/client/client.go:226-253 | the heartbeat goes out, or the WebSocket is closed and the loop ends |
| `ClientCode.HeartbeatIsARun` | internal/client/client.go:226-253 | that is a run of the machine |
| `ClientCode.Client.Stop` | internal/client/client.go:93-114 | the first call closes channel and WebSocket, a second changes nothing |
| `ClientCode.Client.SendMessage` | internal/client/client.go:421-454 | an error without a connection or on a failed write; otherwise the frame goes out on the current WebSocket |
| `ClientCode.Client.HandleConnOpen` | internal/client/client.go:282-303 | a dialed connection is listed; after a failed dial a conn_close goes back |
| `ClientCode.ReportIsARun` | internal/client/client.go:282-322 | the report after a failed dial, or of an identifier that is not listed, is a run of the machine |
| `ClientCode.OpenIsARun` | internal/client/client.go:282-303 | listing and starting the reader is a run of the machine |
| `ClientCode.Client.HandleData` | internal/client/client.go:313-338 | a listed connection gets the bytes, and is closed and delisted when the write fails; for any other identifier a conn_close goes back |
| `ClientCode.DataIsARun` | internal/client/client.go:313-338 | that is a run of the machine |
| `ClientCode.Client.ReadFromLocal` | internal/client/client.go:341-373 | reads and sends until a send fails, then closes the connection and reports its end |
| `ClientCode.RelayIsARun` | internal/client/client.go:349-371 | one turn of that loop is a run of the machine |
| `ClientCode.DepartureIsARun` | internal/client/client.go:343-347 | so is its deferred part |
| `ClientCode.ReadFailureEnds` | internal/client/client.go:349-356 | a failed read leads to that part and to nothing else |
| `ClientCode.TraceLog` | internal/client/client.go:349-371 | while the WebSocket takes frames, it carries everything read, in order |
| `ClientCode.Client.CloseLocalConn` | internal/client/client.go:376-384 | closes and delists the connection if it is listed, and closes no other |
| `ClientCode.Client.HandleConnClose` | internal/client/client.go:306-310 | closes and delists the connection the server reported |
| `ClientCode.CloseIsAnEvent` | internal/client/client.go:306-310 | that is the close event of the machine |
| `ClientCode.Client.Cleanup` | internal/client/client.go:387-399 | closes every listed connection and the WebSocket, and empties the map |
| `ClientCode.CleanUpIsAnEvent` | internal/client/client.go:387-399 | that is the clean-up event of the machine |

## Left out

- JSON, base64, WebSocket framing and TCP: they belong to libraries. A message that does not parse (`server.go:172-177`, `client.go:214-218`) is therefore not modelled.
- The web interface (`internal/server/web.go`): HTML, cookies, sessions and the content of broadcasts. Only the locks of its handlers appear, in `locks.dfy`, and that broadcasts happen outside the server lock.
- `internal/client/multi_client.go`, `cmd/`, `pkg/config`, `pkg/logger` and the build scripts: they would add easy members. The logger appears only as the last lock of the order.
- The random generator behind connection identifiers: a fresh identifier stands for it.
- `Server.Stop` (`server.go:102-147`) as a state the server goes on from: it clears the maps without releasing ports, and nothing follows it. Its locks are in the lock order.
- Half-closed TCP: the code closes a socket as a whole when a read ends, so completeness is claimed for the direction that ended.
- Data races of the Go memory model: a critical section and an I/O call are atomic here, so two goroutines writing one WebSocket without a common lock (`server.go:436-438`) are not seen.
- Dropping the connection after a refused registration (`server.go:209`, `server.go:229`) as a step of the composed machine: `ServerCode.Server.HandleRegister` does it, and in the machine the handler's next read may fail, as any read may; that it must fail soon is not stated there.
- The outer loops `acceptLoop` and `Start` as methods: a class method is one turn of them, and the machines run the turns. That a second `Start` is refused, and the wait at the end of `Stop`.
- ServerCode.Server.HandleRegister: states what one handler does alone; two handlers between check and insertion are the subject of `Limits`.
- ProxyCode.Proxy.ReadLoop: takes the stop channel as it is when the loop starts; `ReadTurn` takes it as it finds it, and a stop in the middle is covered by `Proxies`.
- ProxyCode.Proxy.Stop: states what happens when no other goroutine of the proxy moves meanwhile; the interleavings are covered by `ProxyStop`.
- TunnelClosing.ClosedConnectionsLeave: has the hypothesis that the goroutine in charge moves again and again, which is what the scheduler, the write lock and I/O calls that return give; for the write lock that means that it is not kept from a waiting goroutine for ever. A client that has read through a nil connection (`client.go:208`) counts as gone.
- Deadlines.BeatingIsNeverClosed: an acknowledged heartbeat is one step at the time it is credited; the delay between its arrival and its crediting is part of the gap.
