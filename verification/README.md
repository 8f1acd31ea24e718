# CommonwealthMP, verified model

CommonwealthMP is a multiplayer server and game plugin. This project models, in Dafny, the
parts of it where something can go subtly wrong, and proves what they keep.

* **The session protocol** (`Types`, `Session`, `SessionInv`, `Ownership`, `SessionFacts`,
  `Admission`, `Joining`, `UdpIndex`, `Persist`, `Saves`, `Uploads`, `Mixups`, `Runtime`; `Messages`,
  `Origins`, `Posts`, `Exits`, `Admin`, `Poses`, `Looks`, `Lives`, `Lifetimes`). `Session` is the simulation thread
  as a state machine on values: events, timeouts and admin commands in, commands for the network
  thread and jobs for the persistence thread out. What the program leaves open (the order in
  which an unordered map is walked, the client `find_host` falls on, the clock) is an argument
  of a step, so every theorem holds for all choices. `Runtime` is the object with its fields
  updated in place and its loops, each method proved against the state machine. The modules from
  `Messages` on say in plain terms, for every step, what is queued to whom and what the state is
  afterwards, and what follows over whole runs.
* **The two threads together** (`Net`, `NetIo`, `System`, `Refusals`, `Interleaved`, `Tags`, `Races`). The network
  thread's tables, the two bounded queues, and every interleaving of both threads. The simulation
  thread's state is private to it, so a handler changes it in one step; its commands are then
  pushed one at a time, and the network thread may act between any two of them.
* **The wire stack** (`Bytes`, `Wire`, `Inventory`, `Blobs`, `SendQueue`, `Framing`,
  `Pipeline`, `Relayed`, `Layouts`). Inventory sheets to bytes, chunks, send buffer, byte stream, frames,
  reassembly and back, also through the session and to a client that receives many senders.
* **Three algorithms** (`RateLimit`; `Motion`, `Sampling`; `Subrecords`, `Esp`, `EspFile`,
  `EspKept`, `EspScan`). The rate
  limiter, pose sampling and stepping, and the script that writes the plugin file.

Loops and objects are methods and classes; each is tied to a function on values, and the
theorems are about those functions. Messages of a session are values; blob packets are bytes.

## What the code turns out to do

* The branch of BindPeer that takes a peer away from another connection never fires on commands
  the session queues; the late require-host rejection and the stale-entry branch of
  `find_by_udp` never run either.
* Refused sends never make the threads disagree. A refused BindPeer, or a refused CloseConn or
  KeepPending of a bound connection, does, with one exception: the close of a soft reconnect is
  made good by its BindPeer when that gets in and the new connection is open
  (`Refusals.HandlerAgreesIff`, `Net.ChangeAgreesIff`). If connections come and go meanwhile,
  what counts is which ones are closed in the end (`Interleaved.AnyStepsAgreeIff`). A run that gets there is
  `Refusals.FloodedServerDisagrees`.
* A report of a closed connection removes the client it names without looking at the connection
  (`Races.ForgottenIff`). A soft reconnect whose old connection hangs up a moment too early thus
  ends the new one (`Races.LateReportEvicts`).
* Two clients may bind one UDP address; the index then misses one of them. It is complete
  throughout a run exactly when that never happens (`UdpIndex.UncontestedIff`,
  `UdpIndex.ContestedReachable`).
* Leftovers of an equally long blob whose last chunk had arrived mix into the next one
  (`Blobs.LeftoversExactIff`, `Blobs.MixedCompletion`); a session run that gets there through
  the limit of 64 chunks a second is `Mixups.UploadsMix`.
* The dirty marks are cleared before the worker's queue has taken the job. A refused job loses
  a change until the key is marked again or the server shuts down (`Saves.RecordSafeIff`,
  `Saves.ChangeIsLost`).
* The poses meant for a client that just joined are never sent: its UDP address is not bound
  yet (`Admission.JoinSendsNoPose`).
* A written plugin file whose source has race fields, but none of four bytes or a first one
  that is zero, is rejected by the script's own verifier (`EspFile.WrittenPassesIff`,
  `EspFile.ZeroRaceFails`).

## Model

| member | source | states |
|---|---|---|
| `System.TwoThreadAgreement` | server/src/net_io.cpp:56-175 | over every interleaving of handlers, single pushes, executed commands, accepts, frames and hang-ups in which no outbound push is refused: running the commands still on their way leaves each open connection bound to peer p exactly when session client p owns it; the two network tables are inverse; no bind steals; a connection lost by itself may be closed before or after the replay |
| `System.NextKeepsSysInv` | server/src/handlers.cpp:204-317 | each step whose push is not refused keeps the relation between session, queues and tables; the network thread may act between any two pushes of a handler |
| `System.EveryRunInverse` | server/src/net_io.cpp:56-77 | over every run, refused pushes or not: `peerToConn_` and `conns_[c].peerId` are mutually inverse, the session invariant holds, and accepts in flight are for connections the session has never seen |
| `System.NextKeepsCore` | server/src/net_io.cpp:47-208 | every step keeps these, refused pushes included; that accepted connection numbers are new is proved here, not assumed |
| `System.HeadAcceptFresh` | server/src/net_io.cpp:195-205 | an accept event at the head of the inbound queue is for a connection the session knows nothing of |
| `Net.ExecInverse` | server/src/net_io.cpp:79-178 | any command whatsoever, also one that finds its connection by peer, keeps the tables inverse and opens no connection |
| `Net.ReplayHead` | server/src/net_io.cpp:81-83 | executing the first queued command now or in the replay is the same |
| `Net.CloseCommutesReplay` | server/src/net_io.cpp:56-77 | closing a lost connection commutes with replaying the queued commands |
| `Net.AcceptCommutesReplay` | server/src/net_io.cpp:180-208 | accepting a connection commutes with replaying commands about older ones |
| `Net.ChangeKeepsAgreement` | server/src/net_io.cpp:130-175 | each of the seven ways a step can change ownership carries agreement over, and never makes BindPeer take a connection or a peer away from another |
| `Net.ChangeAgreesIff` | server/src/queues.hpp:25-34 | whatever subset of its control commands gets in, an ownership change keeps agreement if and only if each refused one is about nothing open or bound, or is the close of an old connection whose peer the following accepted bind moves to an open one |
| `Refusals.HandlerAgreesIff` | server/src/queues.hpp:25-34 | after a handler, with its pushes and the executed commands interleaved in any way, the threads agree if and only if its refused control commands do no harm in that sense |
| `Interleaved.AnyStepsAgreeIff` | server/src/net_io.cpp:47-287 | the condition in full: between the pushes of a handler anything may happen on the network thread (accepts, frames, hang-ups, connections lost on a send); the threads agree afterwards if and only if each refused control command that mattered is about a connection that the remaining queue leaves closed |
| `Interleaved.EndAgreesIff` | server/src/net_io.cpp:56-175 | the same for one ownership change and any tables reachable from it |
| `Refusals.BurstAgreesIff` | server/src/queues.hpp:25-34 | when the pushes come in one go: if and only if every control command about an open, bound or to be bound connection stands before the place where the queue is full |
| `Refusals.FullQueueDisagrees` | server/src/handlers.cpp:109-119 | with the outbound queue full, any admissible Hello of somebody new on an open pending connection makes the threads disagree |
| `Refusals.FloodedServerDisagrees` | server/src/handlers.cpp:333-347 | such a state is reached: from every initial state that would admit the Hello, a run of connections that each ask for the session info fills the queue, and the Hello then leaves a client whose open connection is bound to nobody |
| `Ownership.StepChange` | server/src/handlers.cpp:98-119 | for every step, the control commands it queues are exactly those of the one ownership change it makes: bind, re-attach (close old, bind new), close, keep pending, silent drop, close of a pending connection, or none |
| `Ownership.StepPending` | server/src/handlers.cpp:226-240 | a connection is pending after a step only if it was known before or has just been accepted |
| `NetIo.NetThread.ProcessOutbound` | server/src/net_io.cpp:79-178 | the command loop empties the queue, does to tables and inbound queue what the system steps do one after the other, and keeps the tables inverse |
| `NetIo.NetThread.CloseConn` | server/src/net_io.cpp:56-77 | both table entries go; the close event is pushed if asked for |
| `NetIo.NetThread.Bind` | server/src/net_io.cpp:130-147 | the BindPeer branch, with the peer taken from another connection when there is one |
| `NetIo.NetThread.Keep` | server/src/net_io.cpp:161-175 | the KeepPending branch |
| `NetIo.NetThread.Execute` | server/src/net_io.cpp:83-176 | one command; a dead socket on a send closes that connection and reports it |
| `NetIo.NetThread.AcceptOne` | server/src/net_io.cpp:195-205 | a new connection number, a table entry without a peer, an accept event |
| `NetIo.NetThread.ReadFrame` | server/src/net_io.cpp:273-284 | a frame is pushed with the peer its connection is bound to; a refused push closes the connection |
| `Tags.FrameReachesOwner` | server/src/net_io.cpp:273-284 | when the network thread has caught up, a frame is queued as read, behind what was read before, under a tag by which the session takes it for the word of exactly the client that owns the connection; with 8192 events waiting the connection is closed instead |
| `Tags.HangupReachesOwner` | server/src/net_io.cpp:56-77 | a connection that closes then is reported under a tag by which the session removes exactly the client that owns it |
| `Races.CommandReports` | server/src/net_io.cpp:79-178 | one command: only a message that finds its socket dead is reported, as the close of its connection under the peer it was bound to; what the session itself had closed is not |
| `Races.ForgottenIff` | server/src/handlers.cpp:299-311 | a report of a closed connection removes the client it names, wherever that one is by now, or without a name the owner; the connection then still has an owner if and only if it had one and the report named somebody else |
| `Races.LateReportEvicts` | server/src/handlers.cpp:299-311 | and that happens: a client comes back on a new connection, its old one hangs up before the network thread has run the commands, and handling the report removes the client from the new connection, which is open |
| `SessionInv.ReachableInv` | server/src/handlers.cpp:204-317 | in every state reachable by events, timeouts and admin commands: peer ids below the counter, distinct player keys, at most one owner of a connection among clients and pending entries, a pose and a token for every client, host 0 exactly without clients and otherwise live, sound UDP index, live cache equal to the record |
| `SessionInv.StepKeepsInv` | server/src/handlers.cpp:319-806 | one step keeps that invariant |
| `SessionInv.RemoveKeepsInv` | server/src/handlers.cpp:204-245 | removing a client keeps it, also when the connection goes back to pending and when a close event had already zeroed the connection |
| `SessionInv.KickKeepsInv` | server/src/admin_cmds.cpp:43-72 | an admin kick keeps it |
| `SessionInv.PoseKeepsInv` | server/src/handlers.cpp:757-790 | a pose keeps client cache and record equal |
| `SessionInv.KeepBlobKeepsInv` | server/src/handlers.cpp:607-615 | a finished blob keeps client cache and record equal |
| `SessionInv.ReattachKeepsInv` | server/src/handlers.cpp:433-459 | re-attaching a live client to another connection keeps the invariant |
| `SessionInv.AddKeepsInv` | server/src/handlers.cpp:461-487 | adding a client keeps the invariant |
| `SessionInv.HostLookupIdle` | server/src/net_util.cpp:89-101 | in reachable states `find_host` finds the host in place and changes nothing |
| `SessionInv.LateFallbackUnreachable` | server/src/handlers.cpp:477-486 | a Hello that requires a host and passed its gates finds one: the late rejection never runs |
| `SessionFacts.StepNextPeer` | server/src/net_util.cpp:71-74 | the peer counter moves by one exactly when a new client is bound |
| `SessionFacts.GoneForGood` | server/src/net_util.cpp:71-74 | a peer id that was handed out and is not live is never live again, in any run |
| `SessionFacts.CapacityHolds` | server/src/handlers.cpp:412-417 | without a lowering of the limit, the number of clients never exceeds `maxPlayers` in any run |
| `SessionFacts.StepHonest` | server/src/handlers.cpp:532-543 | every pose, chat line, hit or blob packet queued by any step names a sender live at that moment and different from the receiver |
| `SessionFacts.DepartureIsFinal` | server/src/handlers.cpp:204-245 | once a client is gone, nothing queued later in the run to anyone is attributed to it |
| `SessionFacts.OneByeEach` | server/src/handlers.cpp:218-240 | removal queues exactly one Bye to each remaining client, one control command for the leaver, and nothing else |
| `SessionFacts.AdmitShape` | server/src/handlers.cpp:431-531 | who joined, on which connection, and exactly what was queued: binding commands, then the greeting |
| `Admission.AdmissionIff` | server/src/handlers.cpp:353-515 | a Hello on a pending connection that passes its rate check is welcomed if and only if it is admissible (versions, in world, not banned, password, mod hash, host at the right place, room or same key); otherwise one Reject is queued and clients, records, pending list, host and world are unchanged |
| `Admission.GateIffAdmissible` | server/src/handlers.cpp:361-417 | the gates, tried in order, let a Hello through exactly when the declarative predicate holds |
| `Admission.JoinSendsNoPose` | server/src/handlers.cpp:532-536 | the poses meant for a joining client are never sent: a welcomed Hello queues no datagram at all |
| `UdpIndex.StepMoves` | server/src/handlers.cpp:159-182 | every step moves bindings and index in one of three ways: not at all, one client unbound, one client bound by a valid token |
| `UdpIndex.EntryHistory` | server/src/handlers.cpp:726-747 | an indexed address leads to a live client bound to it, by a UdpBind that carried its token at the time, with no unbinding since |
| `UdpIndex.NoStaleEntry` | server/src/handlers.cpp:176-180 | the branch that erases a stale entry never runs |
| `UdpIndex.UncontestedComplete` | server/src/handlers.cpp:734-738 | while nobody binds an address another client holds, every bound client is in the index |
| `UdpIndex.LookupIsSearch` | server/src/handlers.cpp:169-182 | in such runs the lookup answers exactly like a search over all clients |
| `UdpIndex.UncontestedIff` | server/src/handlers.cpp:734-738 | from the start, the index is complete after every prefix of a run if and only if no step of the run binds an address that another client holds |
| `UdpIndex.ContestedLookup` | server/src/handlers.cpp:169-182 | a bind from an address another client holds is always possible, and afterwards the lookup answers with the newcomer alone while both are bound to the address |
| `UdpIndex.ContestedReachable` | server/src/handlers.cpp:726-747 | such a bind is reached: from every initial state with room that would admit either of two players, a run in which both join and bind one address |
| `Persist.StepMarks` | server/src/handlers.cpp:121-144 | every step keeps this: a record or the world differs from its last queued snapshot only while marked dirty |
| `Persist.ReachableMarked` | server/src/handlers.cpp:121-144 | so in every run, judged by all snapshots offered and starting at what was loaded |
| `Saves.RecordSafeIff` | server/src/handlers.cpp:131-143 | for every run and whichever jobs the queue refused: a record not marked dirty equals its last snapshot that was taken if and only if the last job that spoke of it was taken, or carried what that snapshot already had |
| `Saves.WorldSafeIff` | server/src/handlers.cpp:126-143 | the same for the world |
| `Saves.Offer` | server/src/queues.hpp:25-34 | the jobs of a run offered to the worker under any schedule: the accepted ones are those taken; a worker that gets no step takes them until its queue is full |
| `Saves.ChangeIsLost` | server/src/handlers.cpp:137-143 | a change is lost: from every initial state that would admit the player, a run with a new upload, 256 bans and a refused flush leaves a record that is not marked and differs from its last snapshot taken |
| `Persist.FlushMarks` | server/src/handlers.cpp:121-144 | a flush settles everything that was dirty |
| `Persist.PersistWorker.Enqueue` | server/src/persist_worker.cpp:36-39 | any job, at any time, is appended or, when the queue is full, refused |
| `Persist.PersistWorker.ThreadStep` | server/src/persist_worker.cpp:48-84 | one step of the thread (test of the flag, wait, handling of a job, one job of the drain) keeps the ledger: written, in hand and queued are the accepted jobs, in order |
| `Persist.PersistWorker.Join` | server/src/persist_worker.cpp:69-84 | a thread told to stop runs to its end, and then exactly the accepted jobs have been written, each once, in order |
| `Persist.PersistWorker.Stop` | server/src/persist_worker.cpp:25-34 | the same for any number of thread steps between clearing the flag and pushing the empty job, and whether that push is refused or not |
| `Persist.EnqueueBlocking` | server/src/persist_worker.cpp:41-46 | for any number of thread steps during each sleep: the job is accepted or not, and three thread steps in all are enough |
| `Persist.Shutdown` | server/src/main.cpp:245-252 | for every schedule of the thread: once the final job gets through, every accepted job has been written once and in order, and the last write of every record and of the world is its final value, whatever was refused before |
| `Uploads.UploadArrives` | server/src/handlers.cpp:598-624 | in a run with any other steps in between, when the chunks of one client and kind that pass the rate check are the packets of a blob, the last one puts exactly that blob into the record and sends every other client exactly its packets, in order, under the sender's id |
| `Uploads.StepUploads` | server/src/handlers.cpp:598-615 | every step either hands one chunk to one assembly, or leaves all assemblies and all stored blobs alone |
| `Uploads.AssemblyIsFeed` | server/src/net_util.cpp:50-54 | over any run an assembly holds what its own client's chunks make of it |
| `Uploads.BroadcastExact` | server/src/handlers.cpp:616-620 | a loop over all clients sends each, on its own connection, exactly what is due to it, in whatever order the table is walked |
| `Messages.KickRelayed` | server/src/handlers.cpp:650-664 | a Kick frame of a live client queues one copy on the connection of its live target if the client is the host, and otherwise nothing at all |
| `Messages.TeleportRelayed` | server/src/handlers.cpp:665-678 | the same for a Teleport |
| `Origins.KickIsFromHost` | server/src/handlers.cpp:650-664 | conversely, wherever any step queues a Kick, the event is a Kick frame of the host with that target and reason, the receiver is the live target, and nothing else is queued |
| `Origins.TeleportIsFromHost` | server/src/handlers.cpp:665-678 | the same for a Teleport |
| `Origins.StepKinds` | server/src/handlers.cpp:247-806 | for every step: which kinds of message its event can cause, and that no other is queued |
| `Messages.HitRelayed` | server/src/handlers.cpp:679-704 | a hit reaches its live target alone, under the sender's id and with its damage cut to 500, exactly when hits are allowed, within 24 a second, from the client it names, at somebody else and with damage above 0 |
| `Messages.ChatRelayed` | server/src/handlers.cpp:633-649 | a chat line goes to every other client exactly once within 4 a second, and to nobody beyond |
| `Messages.HeartbeatEchoed` | server/src/handlers.cpp:625-632 | a heartbeat comes back to its sender under the sender's own id |
| `Messages.QueryAnswered` | server/src/handlers.cpp:333-347 | what a session query is answered with, field by field, and that beyond 4 a second there is no answer |
| `Messages.RejectReasons` | server/src/handlers.cpp:361-417 | why an inadmissible Hello is turned away: the first condition that fails, in order; nothing else is queued |
| `Messages.HelloWelcomed` | server/src/handlers.cpp:513-543 | all that an admitted Hello queues: binding, a Welcome whose token, host and new fields are those of the state after it, a snapshot with the place for each of the three cases, and the looks of the others |
| `Lives.WelcomeIsTrue` | server/src/handlers.cpp:513-515 | every Welcome that any step queues tells the truth: its peer is live after the step on that connection with that token; it is called host exactly if it is, and new exactly if its record had no pose; the flags are the rules in force |
| `Lifetimes.TokenStands` | server/src/handlers.cpp:571-581 | over any run, a client's token stays until a newer Welcome is queued for it |
| `Lifetimes.WelcomedCanBind` | server/src/handlers.cpp:726-738 | the round trip: in any run, a UdpBind with the token a Welcome announced, from any address, binds that client as long as it stays and no newer Welcome was queued for it; a bind with any other token changes nothing |
| `Lives.StepLives` | server/src/handlers.cpp:546-754 | for every step and every client before and after it: `lastSeen` becomes the time of the step exactly if the client gave a sign of life in it, and its token changes only with a Welcome that announces the new one |
| `Lifetimes.LastSeenIs` | server/src/handlers.cpp:563-563 | over any run, a client was last seen at the time of its last sign of life |
| `Lifetimes.HeardIsKept` | server/src/handlers.cpp:821-832 | whoever was heard from cannot time out within 8 seconds of it, and can as soon as they have passed without another sign |
| `Poses.PoseRelayed` | server/src/handlers.cpp:757-790 | a pose from a bound client, within 30 a second: every other bound client gets exactly one copy under the sender's id if there is no limit, if the two known locations differ, or if the two are at most `interestUu` apart; nobody else gets anything |
| `Poses.ActorRelayed` | server/src/handlers.cpp:791-805 | an actor pose goes to the same kind of receivers around the actor, from the host only |
| `Poses.NearSymmetric` | server/src/sim.hpp:26-51 | interest is mutual |
| `Poses.NearGrows` | server/src/sim.hpp:37-51 | raising a positive limit, or lifting it, loses no receiver |
| `Poses.BindAnswered` | server/src/handlers.cpp:726-746 | a client that binds gets the last pose of each other client once, at its new address; a bind with another token is not answered |
| `Looks.LooksExact` | server/src/handlers.cpp:532-543 | what an admitted client is told of each other one: every chunk of its appearance and then of its inventory, in order, under type 7 and 8, and nothing else |
| `Posts.NewPost` | server/src/handlers.cpp:461-511 | the whole state after a new client was let in: its record found or made, its pose from the record or the spawn, the host role if it is free, and for the host the world and mod hash of its Hello; all else unchanged |
| `Posts.BackPost` | server/src/handlers.cpp:433-459 | the whole state after a client still in the session came back: new connection and token, no UDP binding, its place in the session kept |
| `Posts.AgainPost` | server/src/handlers.cpp:571-581 | the whole state after a second Hello: a new token, and the UDP binding gone |
| `Posts.PosePost` | server/src/handlers.cpp:757-783 | the whole state after a pose: client and record take it, within the rate, and the world follows the host |
| `Posts.SnapshotPost` | server/src/handlers.cpp:582-597 | the whole state after a world snapshot: it counts from the host only, and a missing location keeps the old one |
| `Posts.ChunkPost` | server/src/handlers.cpp:598-615 | the whole state after an inventory chunk: a finished blob goes to client and record, which is marked, and the assembly is dropped |
| `Posts.BindPost` | server/src/handlers.cpp:726-738 | the whole state after a UdpBind: bound and indexed exactly if the token is the client's, with the old binding gone |
| `Exits.ByePost` | server/src/handlers.cpp:204-245 | a client that says Bye: the whole state, the job and the messages; its connection is pending again |
| `Exits.TimeoutPost` | server/src/handlers.cpp:204-245 | a client that timed out: the whole state, the job with every marked record and the leaver's, one Bye to each other client and its connection closed; the host role passes on only if it was the leaver's |
| `Exits.ClosedPost` | server/src/handlers.cpp:299-311 | a closed connection with a client: the same, and no pending entry is left |
| `Exits.ClosedUntagged` | server/src/handlers.cpp:299-311 | the same for a close event without a peer: the client on that connection leaves, and nothing is left to close |
| `Exits.KickPost` | server/src/admin_cmds.cpp:43-72 | the kick command: only the victim is told, its record is marked, and a ban is saved at once |
| `Exits.StrangerExpires` | server/src/handlers.cpp:808-819 | a pending connection is closed once it is more than ten seconds old, and not before; nothing else changes |
| `Admin.KeyShape` | protocol/cmp_util.hpp:11-26 | player keys are 1 to 31 letters, digits, dashes and underscores; such a key is kept, other characters are left out, and nothing left means "player" |
| `Admin.TokenFresh` | protocol/cmp_net.hpp:86-94 | the token formula, and that a token is never 0 and never the one before |
| `Admin.PasswordSet` | server/src/admin_cmds.cpp:127-135 | the password is cut to 15 characters, and every client is told the new rules once |
| `Admin.Reloaded` | server/src/admin_cmds.cpp:95-113 | a reload: settings, password cut, mod hash kept if none is given, and every client told once |
| `Admin.ServerSays` | server/src/handlers.cpp:834-840 | server lines and heartbeats go to every client exactly once in nobody's name |
| `Admin.Ticked` | server/src/handlers.cpp:121-144 | the save tick: one job with the marked records as they are now and the world if it changed, or none |
| `Admin.SavedAll` | server/src/admin_cmds.cpp:82-86 | the save command: the world, everything marked and the record of every live client |
| `Posts.AcceptPost` | server/src/handlers.cpp:250-259 | an accepted connection is pending from then on, and nothing else changes |
| `Poses.StrayCmds` | server/src/handlers.cpp:749-753 | a pose from an address nobody is bound to goes nowhere |
| `Exits.ClosedNobody` | server/src/handlers.cpp:299-311 | a close event without a peer on a connection nobody owns drops its pending entry and nothing else |
| `Exits.ClosedStranger` | server/src/handlers.cpp:299-311 | the same for a close event whose peer is gone |
| `Admin.CharsApart` | protocol/cmp_util.hpp:11-18 | the filter on key characters looks at each on its own and keeps the order |
| `Admin.SetMax` | server/src/admin_cmds.cpp:90-94 | the player limit is at least 1 |
| `Admin.SetMessage` | server/src/admin_cmds.cpp:149-158 | the message of the day |
| `Admin.PvpSet` | server/src/admin_cmds.cpp:114-126 | hits allowed or not, and every client told the new rules once |
| `Admin.Banished` | server/src/admin_cmds.cpp:135-147 | a ban or its end, by the cleaned key, is saved at once and removes nobody |
| `Admin.FirstRecord` | server/src/server_state.hpp:29-40 | the record of a key never seen: the start of the game, no pose, nothing carried |
| `Runtime.ServerRuntime.ApplyInbound` | server/src/handlers.cpp:247-317 | each event does what the state machine's step does, as an enabled step, and keeps the invariant |
| `Runtime.ServerRuntime.RemoveClient` | server/src/handlers.cpp:204-245 | the object after removal is the specified state, with the commands and jobs specified |
| `Runtime.ServerRuntime.Kick` | server/src/admin_cmds.cpp:43-72 | the kick command: ban if asked, a Bye to the victim only, connection closed, host found again |
| `Runtime.ServerRuntime.FindHost` | server/src/net_util.cpp:89-101 | keeps a live host, else any client, else clears the role |
| `Runtime.ServerRuntime.Flush` | server/src/handlers.cpp:121-144 | one job with the dirty records and the dirty world, or none |
| `Runtime.ServerRuntime.SendEach` | server/src/handlers.cpp:532-543 | the loop over all clients, each loop body written out, in whatever order the table yields them |
| `Runtime.ServerRuntime.FindPending` | server/src/handlers.cpp:184-192 | the first entry for a connection, found by a loop |
| `Runtime.ServerRuntime.FindByConn` | server/src/handlers.cpp:194-202 | some client on a connection, found by a loop in any order |
| `Runtime.ServerRuntime.HandlePendingMessage` | server/src/handlers.cpp:319-544 | a query or Hello on a pending connection |
| `Runtime.ServerRuntime.ExpirePending` | server/src/handlers.cpp:808-819 | a run of pending timeouts, after which none is overdue |
| `Runtime.ServerRuntime.ExpireClients` | server/src/handlers.cpp:821-832 | a run of client timeouts, one for each client that was overdue |
| `Blobs.AnyOrderReassembles` | protocol/cmp_blobs.hpp:265-313 | delivering the packets of a blob of 1 to 65535 bytes in any order with repeats, to an empty assembly or one of other dimensions, gives Pending until all indices have arrived and then Complete with exactly that blob |
| `Blobs.InOrderReassembles` | protocol/cmp_blobs.hpp:265-313 | from any valid assembly with other dimensions or an empty last slot, in-order delivery gives exactly the blob |
| `Blobs.LeftoversExactIff` | protocol/cmp_blobs.hpp:282-313 | over leftovers of an equally long blob, in-order delivery is exact if and only if the last chunk of the old blob had not arrived |
| `Blobs.MixedCompletion` | protocol/cmp_blobs.hpp:282-313 | what is delivered otherwise: the new prefix up to the filled gap and the tail of the old blob |
| `Mixups.UploadsMix` | server/src/handlers.cpp:598-615 | it happens in a session: from every initial state that would admit the player, a run in which the rate limit drops the middle of a long upload and the next one of that length puts its own beginning and the old last chunk into the record |
| `Blobs.SplitBlobChunks` | protocol/cmp_blobs.hpp:234-263 | the packets of the blob, or failure exactly for an empty or oversized blob |
| `Blobs.PiecesMakeBlob` | protocol/cmp_blobs.hpp:246-260 | the payloads joined are the blob |
| `Blobs.AssembleBlobChunk` | protocol/cmp_blobs.hpp:265-313 | the loop form does what the assembly step is specified to do, keeping at most 135 slots of at most 488 bytes |
| `Blobs.ChunkRoundTrip` | protocol/cmp_blobs.hpp:250-259 | header, fields and payload of a chunk packet read back |
| `Layouts.ChunkBytes` | protocol/cmp_protocol.hpp:231-238 | a chunk packet octet by octet: magic, type, version, size, zeros, and the five fields, low octet first |
| `Layouts.PacketBytes` | protocol/cmp_blobs.hpp:234-263 | chunk i of a blob: how many there are, where its 488 octets start, and what its header says |
| `Layouts.SheetBytes` | protocol/cmp_blobs.hpp:134-162 | an encoded sheet octet by octet: the four letters, version 1, the fixed fields, and where the two lists stand |
| `Layouts.FieldBytes` | protocol/cmp_blobs.hpp:62-70 | a text field: the text up to its first zero, cut to leave one zero at the end |
| `Layouts.DrainAnything` | protocol/cmp_net.hpp:52-70 | for arbitrary bytes: each frame taken has the magic and is as long as it says, they stand one after the other from the start, and what follows is kept, or dropped exactly if it cannot start a frame |
| `Layouts.TakenIff` | protocol/cmp_net.hpp:112-130 | a message is taken whole exactly if it is not empty and fits 1 MiB with what waits, and otherwise not at all |
| `Layouts.SentFromFront` | protocol/cmp_net.hpp:133-160 | sending takes octets from the front of what waits |
| `Layouts.PluginAnything` | plugin/src/udp_win.cpp:114-157 | one call of the plugin on arbitrary bytes: the magic is not looked at, a size below 12 empties the buffer, and a frame longer than the caller's is lost |
| `Layouts.FormBytes` | protocol/cmp_blobs.hpp:71-75 | a form octet by octet |
| `Layouts.FormsBytes` | protocol/cmp_blobs.hpp:134-162 | form i of a list stands at 28 times i |
| `Layouts.StacksBytes` | protocol/cmp_blobs.hpp:134-162 | stack i of a list stands at 32 times i, its form first |
| `Layouts.KeptOne` | protocol/cmp_protocol.hpp:459-463 | a form is left out exactly if it is zero or one of the two forbidden ids, in whatever plugin |
| `Layouts.KeptConcat` | protocol/cmp_blobs.hpp:190-199 | worn forms are judged one by one and keep their order |
| `Layouts.StackKeptOne` | protocol/cmp_protocol.hpp:459-463 | the same for a stack |
| `Layouts.StacksKeptConcat` | protocol/cmp_blobs.hpp:208-217 | the same for stacks |
| `Inventory.RoundTrip` | protocol/cmp_blobs.hpp:134-219 | decoding an encoding, with anything after it, gives the normal form: first 32 worn and 192 stacks, zero and forbidden forms dropped, texts cut |
| `Inventory.PrefixRejected` | protocol/cmp_blobs.hpp:164-219 | every strict prefix of an encoding is rejected |
| `Inventory.TrailingBytesIgnored` | protocol/cmp_blobs.hpp:164-219 | for any bytes that decode, what follows does not matter |
| `Inventory.EncodingSplittable` | protocol/cmp_blobs.hpp:134-162 | every encoding has at most 7110 bytes and can be split |
| `Inventory.SecondTripExact` | protocol/cmp_blobs.hpp:134-219 | a sheet that went through the codec once passes it unchanged |
| `Inventory.KeptFormsMembers` | protocol/cmp_protocol.hpp:459-463 | exactly the non-zero, not forbidden forms survive |
| `Inventory.EncodeInventorySheet` | protocol/cmp_blobs.hpp:134-162 | the writer's loops produce the encoding |
| `Inventory.DecodeInventorySheet` | protocol/cmp_blobs.hpp:164-219 | the reader's cursor and loops accept and return what the layout specifies |
| `Inventory.BlobReader.ReadForm` | protocol/cmp_blobs.hpp:111-117 | a form is read whole or not at all |
| `Inventory.BlobReader.ReadWorn` | protocol/cmp_blobs.hpp:190-199 | the worn loop: fails exactly on missing bytes, keeps the allowed forms in order |
| `Inventory.BlobReader.ReadStacks` | protocol/cmp_blobs.hpp:208-217 | the stack loop |
| `Inventory.BlobWriter.WriteForm` | protocol/cmp_blobs.hpp:71-75 | raw id and padded plugin name |
| `SendQueue.EveryRunOk` | protocol/cmp_net.hpp:99-161 | over every run of appends and partial drains: bytes sent followed by bytes pending are the accepted messages joined; the buffer never exceeds twice 1 MiB; bytes moved by compaction never exceed bytes sent |
| `SendQueue.TcpSendQueue.Append` | protocol/cmp_net.hpp:112-130 | refused exactly for empty data or when over the limit; otherwise compacted and appended |
| `SendQueue.TcpSendQueue.Drain` | protocol/cmp_net.hpp:133-160 | some number of pending bytes leave, in order; without blocking or closing, all of them |
| `Framing.SegmentationIrrelevant` | protocol/cmp_net.hpp:52-84 | however the bytes of well-formed frames are cut into reads, exactly those frames come out, in order, and nothing is left |
| `Framing.PollWellFormed` | server/src/net_io.cpp:253-286 | part way through a stream exactly the complete frames are out and the rest waits |
| `Framing.DrainResidue` | protocol/cmp_net.hpp:52-70 | for arbitrary bytes the residue is shorter than one maximal frame |
| `Framing.RecvBuffer.TryExtract` | protocol/cmp_net.hpp:52-70 | one extraction: a frame, nothing yet, or garbage cleared |
| `Framing.RecvBuffer.RecvAppend` | protocol/cmp_net.hpp:72-84 | append, or the overflow result |
| `Framing.RecvBuffer.PollConn` | server/src/net_io.cpp:253-286 | for arbitrary reads of at most 4096 bytes the overflow result is never reached, and the frames are those specified |
| `Framing.PluginBuffer.RecvFrame` | plugin/src/udp_win.cpp:114-157 | the plugin's extractor: append what arrives, then at most one frame; oversized ones dropped |
| `Framing.PluginPrefix` | plugin/src/udp_win.cpp:114-157 | any calls on a well-formed stream hand over a prefix of its fitting frames and keep the rest |
| `Framing.SameFramesBothSides` | plugin/src/udp_win.cpp:114-157 | with enough calls and a buffer for maximal frames the plugin receives exactly the frames the server's loop yields, however each side's stream is cut |
| `Pipeline.SheetsArrive` | protocol/cmp_blobs.hpp:134-313 | any sheets, encoded, split, queued among other messages, drained by arbitrary partial sends, cut into arbitrary reads, framed, header-checked, dispatched by kind or by kind and sender, reassembled and decoded, come out as their normal forms, in order |
| `Relayed.SheetThroughSession` | server/src/handlers.cpp:598-624 | a sheet uploaded by one client in any run of the session, with any other steps in between, reaches every other client among the packets of all other senders and kinds, as the latest of that sender and in normal form |
| `Relayed.BlobsThroughSession` | plugin/src/net/poll.cpp:31-61 | for any run, receiver, kind and sender, a receiver that dispatches by kind and peer id completes exactly the blobs it was sent, in order |
| `Relayed.RunWhole` | server/src/handlers.cpp:71-81 | over any run, what a connection carries of one kind and sender are the packets of whole blobs, one after the other |
| `Pipeline.BlobsArrive` | protocol/cmp_net.hpp:52-161 | the same for arbitrary blobs of either kind |
| `Pipeline.BlobsCanBeSent` | protocol/cmp_net.hpp:112-160 | any blobs can be sent so that nothing is refused and all of it leaves: the hypotheses of the end-to-end theorems can be met |
| `Pipeline.AllPacketsPass` | protocol/cmp_protocol.hpp:365-375 | every packet passes the header check |
| `Pipeline.FeedMany` | protocol/cmp_blobs.hpp:265-313 | blobs sent one after the other come out one after the other |
| `RateLimit.AtMostTwice` | server/src/sim.hpp:15-24 | when a key's request times do not decrease, any half-open second admits at most twice the limit for that key |
| `RateLimit.TwiceReached` | server/src/sim.hpp:15-24 | twice the limit is reached, for every limit |
| `RateLimit.BackwardClockBreaksBound` | server/src/sim.hpp:15-24 | why the order of time is a hypothesis: on times that jump forth and back, which the steady clock never gives, the formula would exceed the bound |
| `RateLimit.KeysIndependent` | server/src/sim.hpp:15-24 | a key is served as if no other key existed |
| `RateLimit.FreshWindowAdmits` | server/src/sim.hpp:18-23 | a request a second or more after its window began is admitted if and only if the limit is positive |
| `RateLimit.SilenceIsRewarded` | server/src/sim.hpp:18-23 | a key silent for a second is served if and only if the limit is positive |
| `RateLimit.RateTable.Allow` | server/src/sim.hpp:15-24 | the table after one request and the answer |
| `Motion.RingIsNewestHistory` | plugin/src/net/motion_interp.h:34-51 | after any pushes the ring is the last eight entries of the unlimited history, with non-decreasing times |
| `Motion.PoseRing.PushSample` | plugin/src/net/motion_interp.h:34-51 | clamp, replace a repeat, or append and drop the oldest |
| `Motion.InteriorBetween` | plugin/src/net/motion_interp.h:126-147 | at an interior time the result lies between two adjacent samples around that time; the last fallback is never taken |
| `Motion.InteriorBracketed` | plugin/src/net/motion_interp.h:126-131 | the search finds the first adjacent pair around an interior time |
| `Motion.HitsSample` | plugin/src/net/motion_interp.h:126-147 | at an interior sample's time the result is that sample, the first one if times tie, with its yaw up to whole turns |
| `Motion.OutsideTheRing` | plugin/src/net/motion_interp.h:94-125 | before the ring the oldest sample; after it the newest, displaced by at most 0.15 times its velocity |
| `Motion.SampleRing` | plugin/src/net/motion_interp.h:88-159 | the search loop returns the specified sample |
| `Motion.LerpAngleLoop` | plugin/src/net/motion_interp.h:76-86 | both wrap loops end, at the specified turn |
| `Motion.TurnCongruent` | plugin/src/net/motion_interp.h:76-86 | the turn is at most half a circle and congruent to the requested one |
| `Motion.TurnShortest` | plugin/src/net/motion_interp.h:76-86 | no congruent turn is shorter |
| `Motion.StepExact` | plugin/src/net/motion_interp.h:169-199 | a step that does not jump covers exactly its length along the segment, so the distance falls by exactly that length and never past the target |
| `Motion.WalkProgress` | plugin/src/net/motion_interp.h:169-199 | every frame covers at least 0.45 or arrives, and what has arrived stays |
| `Motion.Converges` | plugin/src/net/motion_interp.h:169-199 | frames of at least 1/120 second reach a fixed target within d / 0.45 steps, and from anywhere within 4552 |
| `Sampling.InteriorExact` | plugin/src/net/motion_interp.h:126-147 | at an interior time every coordinate, the pitch, the speed and the velocity have gone the same part of the way as the time between the two samples; the yaw goes that part of a congruent turn of at most half a circle; the flags change half way; samples at most a microsecond apart count as the later one |
| `Sampling.AfterExact` | plugin/src/net/motion_interp.h:110-125 | after the newest sample the place moves at its velocity for the elapsed time, at most 0.15 seconds, and counts as extrapolated beyond 0.0001 |
| `Sampling.PushCases` | plugin/src/net/motion_interp.h:34-51 | what a push comes to: the new sample last and never earlier than its predecessor, which it replaces exactly if nothing moved; a ninth drops the oldest |
| `Sampling.StepIs` | plugin/src/net/motion_interp.h:169-199 | when a step puts the actor on the target, when that counts as a snap, and otherwise exactly how far it goes |
| `Sampling.FewSamples` | plugin/src/net/motion_interp.h:88-108 | one sample is shown at any time, and none is invalid |
| `Subrecords.ParseBuilt` | scripts/gen_esp.py:52-80 | parsing built subrecords gives the same list for all payload lengths below 2^32, the XXXX form included |
| `Subrecords.RoundTripIff` | scripts/gen_esp.py:52-80 | that holds if and only if every type is ASCII of four characters other than XXXX and every payload shorter than 2^32 |
| `Subrecords.RebuildKeepsMeaning` | scripts/gen_esp.py:52-80 | parsing, building and parsing any data again gives the same list; only non-ASCII types cannot be built |
| `Subrecords.ParsedRegular` | scripts/gen_esp.py:52-69 | what is parsed never has the type XXXX |
| `Subrecords.ParseSubrecords` | scripts/gen_esp.py:52-69 | the index loop returns the specified list, or fails on a cut XXXX size |
| `Subrecords.BuildSubrecords` | scripts/gen_esp.py:72-80 | the chunk loop returns the specified bytes, or fails exactly on an unprintable entry |
| `Esp.RewriteRecord` | scripts/gen_esp.py:240-268 | the loop that keeps, replaces and completes subrecords |
| `Esp.PlainActorBits` | scripts/gen_esp.py:257-257 | exactly the four actor flags are cleared, for every other bit number nothing changes |
| `Esp.Scanner.WalkTo` | scripts/gen_esp.py:129-153 | the recursive walk with its shared cursor reads the specified records |
| `Esp.ScanEsm` | scripts/gen_esp.py:121-156 | the types and the decompressed NPC records of a file |
| `EspFile.ScanWritten` | scripts/gen_esp.py:271-299 | a scan of a written file reads exactly its header record and the one NPC record |
| `EspFile.ScanFindsTheNpc` | scripts/gen_esp.py:121-156 | so its NPC list is that record, whatever the decompressor does |
| `EspFile.VerifyWritten` | scripts/gen_esp.py:304-327 | on a written file the verifier judges the copied subrecords and nothing else |
| `EspFile.WrittenPassesIff` | scripts/gen_esp.py:240-327 | every source record that parses can be rewritten, and the file (when its sizes fit their 32-bit fields) passes the script's verifier if and only if the source has no race field or its first whole one is not zero; otherwise the verdict is the missing race |
| `EspFile.ZeroRaceFails` | scripts/gen_esp.py:323-324 | a source with one race field of four zero bytes is rewritten, written and rejected for its missing race |
| `EspFile.RewrittenRace` | scripts/gen_esp.py:266-267 | the race of the rewritten record: the source's own, or the default without one |
| `EspKept.RewrittenIs` | scripts/gen_esp.py:240-268 | the rewritten record as a whole: what is kept of the source in its order, with an editor id in front, a name in second place and a race at the end wherever the source has none |
| `EspKept.RewrittenOfKind` | scripts/gen_esp.py:245-262 | for each of the kept kinds other than the editor id and the actor data, the subrecords are exactly the source's |
| `EspKept.RewrittenCarries` | scripts/gen_esp.py:214-262 | order is kept across kinds, and actor data keep number and length, with only the four flag bits and the template mask cleared |
| `EspKept.AcbsIsPlain` | scripts/gen_esp.py:256-261 | actor data octet by octet: four flag bits cleared and no other, 14 and 15 zero from length 16 on, the rest as in the source |
| `EspKept.RewrittenNames` | scripts/gen_esp.py:250-265 | editor id and name: as many as the source has but at least one, each the script's own |
| `EspKept.RewrittenOnly` | scripts/gen_esp.py:246-249 | no dropped kind and none that starts with FM comes through |
| `EspScan.ScanReadsAll` | scripts/gen_esp.py:129-153 | a scan of any plugin file, however its groups are nested, reads every record once, in file order and with every field as written |
| `EspScan.NpcTaken` | scripts/gen_esp.py:45-50 | an NPC record is taken, inflated if its flag says so, or passed over |
| `EspScan.LastTypeCounts` | scripts/gen_esp.py:121-156 | a form has the type of the last record that carries it |
| `EspScan.FirstTaken` | scripts/gen_esp.py:83-101 | the readers take the first editor id up to its first zero, and the word of the first subrecord long enough to hold one |
| `EspScan.VerdictIs` | scripts/gen_esp.py:317-327 | the verdict on the NPC record, check by check |
| `Layouts.SubBytes` | scripts/gen_esp.py:72-80 | a subrecord octet by octet, and the announcement of one longer than 65535 octets |
| `EspScan.NoTypeWithout` | scripts/gen_esp.py:121-156 | a form that no record carries has no type |
| `EspScan.NoneTaken` | scripts/gen_esp.py:83-101 | without such a subrecord the editor id is empty and the word is 0 |

## Left out

- Sockets, poll, threads, mutexes and clocks: results of `send`, `recv` and `accept`, the time and the order of atomic queue operations are arguments or free choices of a step.
- The packed layout of messages other than blob chunks, and the copying between structs and bytes; a received message that fails the header check is one value, `BadHeader`.
- Socket addresses are abstract numbers; two addresses are equal exactly when their printed keys are.
- Peer and connection counters do not wrap around; the `peerId` field of a client is its key in the client table.
- Time stamps and expiry of blob assemblies (`startedSec`, and the plugin's time limit on unfinished ones), counters kept for statistics only (`datagrams`, `badHeaders`).
- Logging, JSON events, INI and session file formats, console output, the text of reject messages.
- The records of one persistence job are a map: they go to distinct files, so their order within the job is not modelled.
- What the session would do on learning that a job was refused: the code only logs it.
- Floating point rounding: poses, sampling, stepping and rates are over the reals; a square root is passed in as the non-negative number whose square is the squared distance.
- `verify_esp`'s comparison of the header's float with 1.0, and zlib, are function arguments; `pick_source` and the command line are left out because they only select the record.
- The admin commands that only print, and parsing of their words; kick, say, save, maxplayers, reload, pvp, password, ban, unban and motd are steps.
- The game-engine side of the plugin, menus, overlay, crash reporter, build and packaging scripts.
- Message constructors, name tables, form-id packing: one-branch facts that would only add easy members.
