# A verified model of the MQTT broker and the FTP server

This project models the two in-process test servers that do more than look something up:
the MQTT 3.1.1 broker (`src/mqtt_server.cpp`), the FTP server (`src/ftp_server.cpp`), and
the thread group that both join their client threads with
(`include/mock-services/detail/thread_utils.h`). It proves what a user of the servers relies on:
messages arrive once and in order, paths and current directories stay canonical, logins
decide what a command may do, and shutting down leaves nothing behind.

`dafny verify dfyconfig.toml` checks all of it.

## How it is built

* Every loop of the source that computes something is a method with a loop, verified against
  a function; the properties are lemmas about the functions. Objects whose methods update
  fields are classes (`Connection`, `Implementation`, `Group`, `Client`, `Server`), and each
  method states its whole new state.
* Concurrency is a state machine. One step is one region under a lock, one complete send, one
  complete read of a packet, or one call on the thread group. `BrokerRuns` and `FtpShutdown`
  hold the two machines; a run is any list of steps in which each is enabled when its turn
  comes, so the scheduler, the peers and the operating system choose freely. The same
  functions (`Removed`, `Subscribed`, `Selects`, `Unfinished`, …) specify the methods of the
  classes and make up the steps of the machines.
* The functions that the methods are proved against are not taken on trust either: what they
  come to is stated once more in plain bytes, characters, reply codes and fields, without
  their own vocabulary (`WireBytes`, `TopicBytes`, `LineEndings`, `FtpWords`, `FtpCommands`,
  `FtpLogins`), and for the broker over whole runs (`BrokerIds`, `BrokerReplies`, `BrokerLoop`).
* In `FtpRuns` one client's commands run to completion one after the other, in any mix with
  changes to the user table.

| file | models |
|---|---|
| `Sequences` | splitting, joining and flattening |
| `RemainingLength`, `Packets`, `Framing`, `Connections` | the MQTT wire codec, down to partial `recv` and `send` |
| `WireBytes` | the same in plain bytes |
| `Topics`, `TopicBytes` | the topic matcher, by levels and in plain bytes |
| `Broker` | session map and history, one method per critical section |
| `BrokerRuns` | the broker as a state machine of acceptor, handlers and `stop` |
| `BrokerInvariants`, `BrokerDelivery`, `BrokerTheorems` | what every run of it keeps |
| `BrokerOwnership`, `BrokerCollisions` | when a client's session is its own, and runs in which it is not |
| `BrokerIds`, `BrokerReplies`, `BrokerLoop` | which id a client gets, what it is answered, and the edges of its loop |
| `BrokerProgress` | every handler comes to its end, and `stop` can always return |
| `BrokerReading`, `BrokerRouting`, `BrokerStop` | the runs against the packet loop, what subscribers get, and what the sweep of `stop` misses |
| `Paths`, `Agreement`, `Confinement` | `resolve` and `cwd_cmd`, when they agree, and which paths are inside a directory |
| `CommandLines`, `LineEndings`, `LostBytes` | from `recv` chunks to command lines, their endings, and streams with NULs |
| `FtpSession`, `FtpRuns`, `FtpConfinement` | the session engine, its runs, and where their calls land |
| `FtpWords`, `FtpCommands`, `FtpLogins` | the command words, what each command needs, does and answers, and who can log in |
| `FtpShutdown`, `FtpStop` | acceptor, client threads and `stop`, and that `stop` can always return |
| `ThreadGroup` | `thread_group` |

## What the proofs found

* **Duplicate client ids** (`src/mqtt_server.cpp:435-438`, `:540-545`, `:493`). A client loses its
  session in exactly two ways (`StepBreaksExactly`): a CONNECT takes its id, or another handler
  with its id runs `remove_session`. The second happens with a rejected client: the handler goes
  on after its session has been removed and removes the id once more at its end, together with
  the session of whoever has connected with it by then. `OwnershipLastsExactly` says from which
  states no later step can do this; `SecondConnectTakesOver` and `RejectedClientTakesSession` are
  runs. The sweep of `stop` misses exactly the clients whose id was taken (`SweepMissesExactly`);
  `DisplacedHoldsUpStop` is a run in which `stop` waits for one.
* **After QUIT** (`src/ftp_server.cpp:373-380`, `:415`): the remaining lines of the same chunk are
  still dispatched. The lines up to the first QUIT do not depend on the chunking
  (`ChunkingDoesNotMatter`). The lines after it do: `AfterQuitExactly` and `ChunkingDecides`.
* **A NUL byte** ends what is kept of its chunk (`src/ftp_server.cpp:371`), so bytes after it are lost
  or not depending on the chunking: `NulsAreTheException` gives the exact condition for the bytes
  that are kept, `DispatchExactly` for the commands.
* **The prefix test of `resolve`** (`src/ftp_server.cpp:88-90`) compares strings, not components, so a
  neighbour whose name continues the base's last component passes. `OutsideExactly` says which
  requests are granted outside the base, `ConfinedExactly` and `OwnRootExactly` what that means
  for whole runs, and `NeighbourReached` is a run.
* **The directory made at login** (`src/ftp_server.cpp:455-465`) is the account's root as configured;
  it does not pass through `resolve`. `MadeInsideExactly` says where it is, `RootMadeBeside` is a run.
* **The two normalisers** agree on all files if and only if the directory change never climbs above
  the root (`AgreeExactly`, without backslashes). A backslash is part of a name for the one and a
  separator for the other: `AgreeEverywhereExactly` is the condition for all requests, and
  `BackslashParts` a family for which they part.
* **PASV after the sweep of `stop`** (`src/ftp_server.cpp:222-235`, `:482-522`, `:766-775`): a listener that
  a client opens after a sweep has reached it, and that no transfer, PASV or QUIT of the client
  uses up, is not closed when its thread ends; in every other case all are
  (`ListenersBalanceUnlessLate`, `LateListenerStaysOpen`).

## Model

| member | source | states |
|---|---|---|
| RemainingLength.EncodeLoop | src/mqtt_server.cpp:46-55 | the do-while loop computes the base-128 form, for lengths of any size |
| RemainingLength.DecodeLoop | src/mqtt_server.cpp:30-44 | the buffer decoder computes `Decode`, and its `int` multiplier never exceeds 128^4 |
| RemainingLength.LengthRoundTrip | src/mqtt_server.cpp:30-55 | up to 268435455 a length takes at most 4 bytes and is read back with its byte count whatever follows; every larger one is refused (section 2.2.3 of MQTT 3.1.1) |
| RemainingLength.DecodeCanonical | src/mqtt_server.cpp:30-55 | a decoded length is at most 268435455, does not depend on what follows, and re-encodes to the same bytes if and only if it was one byte or did not end in a zero byte |
| Connections.Connection.Recv | src/mqtt_server.cpp:67-76 | one `recv`: any non-empty front part of what is still to come, nothing only at the end of the stream |
| Connections.Connection.Send | src/mqtt_server.cpp:78-87 | one `send`: the peer takes as many bytes as it likes, or fails |
| Connections.RecvExact | src/mqtt_server.cpp:67-76 | succeeds if and only if enough bytes come, fills exactly the asked-for places with the next bytes, and leaves the rest of the buffer as it was, however the stream is cut into segments |
| Connections.SendAll | src/mqtt_server.cpp:78-87 | what is sent is a prefix of the data, all of it if and only if the call succeeds |
| Connections.AcceptedIsTotal | src/mqtt_server.cpp:78-87 | as many bytes go out as the calls accept between them before one of them fails, and never more than there are |
| Packets.WordRoundTrip | src/mqtt_server.cpp:168-169 | a 16-bit field keeps its number modulo 65536, and reading a field and writing it again gives the same two bytes |
| Packets.ForwardedBodyIdentical | src/mqtt_server.cpp:121-133 | a PUBLISH body that was accepted is forwarded with the identical body, and its topic length is never cut (section 3.3 of MQTT 3.1.1) |
| Packets.PublishRoundTrip | src/mqtt_server.cpp:174-183 | encoding then decoding gives the message back if and only if the topic has 1 to 65535 bytes |
| Packets.DecodeSubscribeLoop | src/mqtt_server.cpp:140-159 | the offset loop computes `DecodeSubscribe`, with every read in bounds |
| Packets.SubscribeExact | src/mqtt_server.cpp:140-159 | a SUBSCRIBE body is accepted with a given result if and only if that result fits the 16-bit fields and serialises to exactly that body (section 3.8.3 of MQTT 3.1.1) |
| Packets.ConnectExact | src/mqtt_server.cpp:95-114 | a CONNECT body is accepted with a given result if and only if it starts with the serialised form of the result (section 3.1 of MQTT 3.1.1) |
| Packets.PingrespIsFrame | src/mqtt_server.cpp:185-187 | the literal bytes are a frame of type 13 with an empty body |
| WireBytes.LengthDigits | src/mqtt_server.cpp:46-55 | the one, two, three or four bytes of a length, digit by digit, with 128 added to all but the last |
| WireBytes.WordBytes | src/mqtt_server.cpp:168-169 | a 16-bit number is 256 times its first byte plus its second, written and read |
| WireBytes.WrittenAnswers | src/mqtt_server.cpp:161-187 | CONNACK is the bytes 32, 2, 0, 0 and PINGRESP 208, 0 |
| WireBytes.WrittenSuback | src/mqtt_server.cpp:165-172 | SUBACK is 144, the length, the two bytes of the packet id, and the codes |
| WireBytes.WrittenPublish | src/mqtt_server.cpp:174-183 | a forwarded PUBLISH is 48, the length, the two bytes of the topic's length, the topic and the payload |
| WireBytes.PublishRead | src/mqtt_server.cpp:121-133 | a PUBLISH body is a length that is not 0 and not too large, that many bytes of topic, and the payload; any other is refused |
| WireBytes.EntryRead | src/mqtt_server.cpp:145-157 | a SUBSCRIBE entry is a length, that many bytes of filter and one more byte, and then come the other entries |
| WireBytes.ConnectRead | src/mqtt_server.cpp:95-114 | a CONNECT body is accepted if and only if it has the seven bytes of protocol name and level and is long enough for the client id; which bytes are the id, the keep-alive and the flags |
| Framing.FrameRoundTrip | src/mqtt_server.cpp:57-65 | a frame with a payload of at most 268435455 bytes is read back as that type and payload with the rest untouched; one with a larger payload is refused |
| Framing.CutFrameYieldsNothing | src/mqtt_server.cpp:449-462 | a stream that ends inside a frame gives no packet |
| Framing.FramesRecovered | src/mqtt_server.cpp:449-462 | from any concatenation of frames, the read loop recovers exactly the list of types and payloads |
| Framing.CutStream | src/mqtt_server.cpp:449-462 | a connection that breaks inside a frame delivers exactly the frames before it |
| Framing.ReadRemainingLength | src/mqtt_server.cpp:501-512 | the stream decoder agrees with the buffer decoder, consumes exactly its bytes, and its multiplier stays in an `int` |
| Framing.ReadPacket | src/mqtt_server.cpp:449-462 | one round of the loop returns the next packet of the stream, whatever the segments and whatever the reused buffer holds from before |
| Framing.PacketLoop | src/mqtt_server.cpp:449-495 | for every list of frames with admissible payloads and every way of cutting their bytes into segments, the handler's loop dispatches exactly those types and payloads, in order, up to the first after which the connection is closed, a malformed SUBSCRIBE included; for any other stream it does so with its complete packets |
| WireBytes.DispatchedUpTo | src/mqtt_server.cpp:449-491 | what the loop dispatches of any list of packets is the front part up to the first packet after which it does not go on |
| Framing.ReadFirst | src/mqtt_server.cpp:397-419 | whenever the stream has a first packet its type is returned, and for a CONNECT its payload too, with exactly the bytes after it left to read |
| Framing.ReadConnect | src/mqtt_server.cpp:397-425 | a client is admitted exactly when the first packet of its stream is a well-formed CONNECT |
| WireBytes.FirstIsConnect | src/mqtt_server.cpp:397-425 | a client is let in if and only if the first packet has type 1 and a CONNECT body |
| WireBytes.ConnectAdmits | src/mqtt_server.cpp:397-425 | a CONNECT given byte by byte lets its client in with the id in it, whatever follows |
| Topics.SplitTopic | src/mqtt_server.cpp:189-202 | the loop, with its extra round past the end, computes the levels |
| Topics.TopicMatches | src/mqtt_server.cpp:204-232 | the two-index loop computes `Matches` |
| Topics.MatchesExactly | src/mqtt_server.cpp:204-232 | a filter matches if and only if `#` occurs only as its last level and some choice of one level per `+` and zero or more levels for `#` turns its levels into the topic's (section 4.7.1 of MQTT 3.1.1) |
| Topics.PlainFilterIsEquality | src/mqtt_server.cpp:204-232 | without wildcard levels, matching is equality of the strings, since splitting is injective (section 4.7.3) |
| Topics.CoversExactly | src/mqtt_server.cpp:204-232 | for any two filters, one matches whatever the other matches if and only if a level-wise test says so and it has no misplaced `#`, or the other has one and matches nothing |
| TopicBytes.MatchesByBytes | src/mqtt_server.cpp:189-232 | for every filter and topic the matcher agrees with one that works on the bytes, cutting both at their first slashes: 43 alone stands for one level, 35 alone at the end for all that are left |
| TopicBytes.SingleWildcards | src/mqtt_server.cpp:216-223 | `+` matches exactly the topics without a slash, `#` every topic |
| TopicBytes.TrailingWildcards | src/mqtt_server.cpp:204-232 | for f without wildcards: `f/#` matches f and whatever starts with `f/`, `f/+` exactly `f/` and one more level, and f only itself |
| TopicBytes.MisplacedHash | src/mqtt_server.cpp:209-212 | a filter with a level `#` that is not its last matches nothing |
| Broker.Implementation.Register | src/mqtt_server.cpp:435-438 | the entry of that id is replaced, whoever held it |
| Broker.Implementation.RemoveSession | src/mqtt_server.cpp:594-604 | the id's entry goes and its socket is closed; an absent id changes nothing |
| Broker.Implementation.AddFilters | src/mqtt_server.cpp:547-557 | the filters are appended in order, one zero return code each; none without a session |
| Broker.Implementation.Wanted | src/mqtt_server.cpp:574-579 | the inner loop with its break: true if and only if some filter of the session matches |
| Broker.Implementation.SnapshotTargets | src/mqtt_server.cpp:567-581 | the targets are the sockets of exactly the sessions with a matching filter, each session once, in some order |
| Broker.Implementation.Sweep | src/mqtt_server.cpp:309-319 | every socket in the map is closed and the map is empty |
| Broker.Implementation.HandleSubscribe | src/mqtt_server.cpp:537-561 | a malformed body removes the session and closes the socket without a reply; otherwise the filters are entered and a SUBACK with one code per filter entered is sent |
| Broker.Implementation.HandlePublish | src/mqtt_server.cpp:518-531 | a malformed body is dropped; otherwise it is recorded, and one frame goes to the targets of the snapshot |
| BrokerRuns.FramesAreEncoded | src/mqtt_server.cpp:161-187 | the frames that the state machine posts are byte for byte those of the encoders |
| BrokerTheorems.EveryRun | src/mqtt_server.cpp:240-605 | the invariants hold after every run, for every schedule, peer and choice of ids |
| BrokerTheorems.StopLeavesNothing | src/mqtt_server.cpp:295-323 | whenever `stop` has returned, there is no session, every handler has finished and every accepted socket is closed, even with duplicate ids |
| BrokerTheorems.EveryKeyHasALiveHandler | src/mqtt_server.cpp:435-495 | every key of the session map has a handler with that id, still to run its final `remove_session`, on the open socket in the entry |
| BrokerReading.HandlersFollowTheLoop | src/mqtt_server.cpp:449-495 | in every run, what a handler has read is a front part of what that loop dispatches of its peer's bytes after the CONNECT |
| BrokerIds.IdOfHandler | src/mqtt_server.cpp:427-438 | in every run the id of an admitted handler is the client id of its CONNECT if that is not empty, and otherwise the non-empty id chosen at the step that admitted it |
| BrokerIds.NoEmptyId | src/mqtt_server.cpp:427-438 | in every run no session is kept under the empty id, and each belongs to a connection with a well-formed CONNECT |
| BrokerIds.NamelessClientsKeepApart | src/mqtt_server.cpp:428-432 | a run in which two clients with empty client ids and different generated ones both have their session |
| BrokerReplies.RepliesExactly | src/mqtt_server.cpp:441-477 | in every run the replies in an admitted client's box are, in bytes, those due whose sends succeeded, in order: 32 2 0 0 first, then for each well-formed SUBSCRIBE 144, the length, the packet id and a zero for each filter entered, and for each PINGREQ 208 0; all that are due have been tried, but for the one in progress; after a failed CONNACK nothing is read |
| BrokerReplies.AllAnswered | src/mqtt_server.cpp:441-477 | when no send has failed and no answer is in progress the replies are exactly those due |
| BrokerReplies.AllEntered | src/mqtt_server.cpp:547-557 | in a run without duplicate live ids and before the sweep of `stop`, every SUBSCRIBE has its filters entered, so that its SUBACK has a zero for each |
| BrokerReplies.NobodyElseAnswered | src/mqtt_server.cpp:397-425 | a connection that has not been admitted is sent no reply |
| BrokerLoop.WhyItLeaves | src/mqtt_server.cpp:441-495 | in every run a handler leaves its loop only because it was never admitted, read a packet of a type not served, could not send the CONNACK, found the server stopped, or had no further packet or no open socket |
| BrokerLoop.OneMoreAtMost | src/mqtt_server.cpp:451 | once `stop` has begun each handler reads at most one more packet |
| BrokerLoop.ClosedStaysSilent | src/mqtt_server.cpp:78-87 | in every run a socket that has been closed stays closed, and nothing more is sent to it |
| BrokerProgress.EveryStepAdvances | src/mqtt_server.cpp:397-495 | every step of a handler takes it closer to its end in a well-founded order, so none runs for ever |
| BrokerProgress.NeverBlocked | src/mqtt_server.cpp:397-604 | a handler that has not finished can always take a step, whatever the others do |
| BrokerProgress.ComesToItsEnd | src/mqtt_server.cpp:397-495 | from every state the steps of one handler alone lead it to its end |
| BrokerProgress.StopCanReturn | src/mqtt_server.cpp:295-323 | no run reaches a state from which `stop` could not return, with duplicate ids or without |
| BrokerTheorems.ExactlyOneFrame | src/mqtt_server.cpp:567-588 | in every interleaving, a PUBLISH is once in the box of a socket if it has been routed, that socket's session had a matching filter in the locked snapshot, and the send was made and succeeded; otherwise not at all |
| BrokerTheorems.NothingUnrouted | src/mqtt_server.cpp:518-588 | a PUBLISH that was not decoded, or not yet routed, is in no box |
| BrokerTheorems.SubscriberDecodes | src/mqtt_server.cpp:397-588 | end to end on bytes: everything that was sent to a subscriber parses to messages labelled by publisher and number, each the message of that number in the bytes its publisher sent, those of one publisher in its order (section 4.6 of MQTT 3.1.1), and each message exactly as often as it is due: once if wanted in the locked snapshot and sent without failure, otherwise not at all |
| BrokerTheorems.DecodedOnce | src/mqtt_server.cpp:397-588 | one message and one subscriber, when the send is neither pending nor failed: the message is decoded at exactly one place if the subscriber's session wanted it in the locked snapshot, and nowhere otherwise |
| BrokerRouting.SnapshotOfTheRun | src/mqtt_server.cpp:570-581 | the snapshot of a routed message is the session map of the run at the step that routed it |
| BrokerTheorems.HistoryKeepsOrder | src/mqtt_server.cpp:338-341 | the history since the last clear is the recent end of all that was recorded, and what it holds of one publisher are consecutive messages in its sending order, up to its last recorded one |
| BrokerTheorems.HistoryIsGenuine | src/mqtt_server.cpp:518-527 | every entry is the message of that number in its publisher's own byte stream |
| BrokerLoop.HistorySinceClear | src/mqtt_server.cpp:338-341 | in every run the history is exactly the messages recorded since the last `clear_messages`, in order; starting and stopping leave it alone |
| BrokerOwnership.StepBreaksExactly | src/mqtt_server.cpp:435-604 | of all steps of all threads, a reachable state in which every client owns its session loses that by exactly these: a CONNECT that takes a client's id, and a `remove_session`, final or after a malformed SUBSCRIBE, by another handler with a client's id |
| BrokerOwnership.OwnershipLastsExactly | src/mqtt_server.cpp:435-604 | no continuation without a further reuse of an id takes a session away if and only if no client now shares its id with a handler that has yet to leave; otherwise one that does is constructed |
| BrokerOwnership.DistinctRunsOwn | src/mqtt_server.cpp:435-495 | in every run without duplicate live ids each registered client owns the session of its id, with exactly the filters it has asked for, until `stop` sweeps the map; and at all times each entry of the map is owned like that |
| BrokerOwnership.TargetsAreTheSubscribers | src/mqtt_server.cpp:567-581 | in such a run a snapshot selects exactly the clients with a session that have themselves subscribed with a matching filter; before the sweep those are the connected clients that were not rejected |
| BrokerRouting.SubscribersGetIt | src/mqtt_server.cpp:397-588 | in a run without duplicate live ids, and with the send neither pending nor failed: a client decodes a message at exactly one place if, at the step that routed it, it had a session and had itself asked for a matching filter, and nowhere otherwise |
| BrokerRouting.AskedForMeans | src/mqtt_server.cpp:547-557 | a client has asked for a topic if and only if a filter of an entry in one of the SUBSCRIBE packets it has sent, and that have been entered, matches it |
| BrokerOwnership.SubackOnePerFilter | src/mqtt_server.cpp:547-560 | in such a run, for a client that is connected before the sweep: the SUBACK put together when the filters are entered holds the packet id and one zero per filter (section 3.9.3 of MQTT 3.1.1); that it is what is sent is `BrokerReplies.RepliesExactly` |
| BrokerStop.SweepMissesExactly | src/mqtt_server.cpp:309-319 | of the admitted handlers that have yet to leave, the sweep of `stop` leaves an open socket open if and only if, at some step of the run, another client took the handler's id |
| BrokerStop.SweepReachesAll | src/mqtt_server.cpp:309-319 | in a run without duplicate live ids no admitted handler that has yet to leave has an open socket after the sweep |
| BrokerCollisions.SecondConnectTakesOver | src/mqtt_server.cpp:435-438 | a run in which two clients with one id are both served and only the second has a session |
| BrokerCollisions.RejectedClientTakesSession | src/mqtt_server.cpp:540-545 | a run in which a rejected client's final `remove_session` takes the session of a client that connected with its id in the meantime, when no other client had it, and closes that client's socket |
| BrokerCollisions.DisplacedHoldsUpStop | src/mqtt_server.cpp:309-322 | a run in which the sweep of `stop` misses a displaced client: its socket stays open, and nothing that the server can do lets `join_all` go on before the peer closes the connection |
| BrokerOwnership.DuplicateIdBreaksOwnership | src/mqtt_server.cpp:427-438 | a CONNECT is harmless, at once and in every continuation without a further reuse, if and only if no handler that has yet to leave has the id it takes, rejected ones included, and no client's id was shared before |
| ThreadGroup.Group.Add | include/mock-services/detail/thread_utils.h:21-24 | the thread goes to the end |
| ThreadGroup.Group.JoinFinished | include/mock-services/detail/thread_utils.h:26-36 | the erase loop joins exactly the threads whose flag reads true, and keeps the others in order |
| ThreadGroup.Group.JoinAll | include/mock-services/detail/thread_utils.h:38-45 | every thread is joined and none is kept |
| ThreadGroup.JoinsOnlyRaised | include/mock-services/detail/thread_utils.h:26-36 | a thread is joined if and only if a flag of it read true, and kept if and only if one read false |
| ThreadGroup.Conservation | include/mock-services/detail/thread_utils.h:21-45 | over every sequence of calls, with flags rising at any time, threads held and threads joined are together the threads added, with multiplicity |
| ThreadGroup.JoinedOnce | include/mock-services/detail/thread_utils.h:21-45 | a thread added once is joined at most once, and exactly once after `join_all` |
| ThreadGroup.OrderKept | include/mock-services/detail/thread_utils.h:26-36 | the threads held are a subsequence of the threads added, in that order |
| Paths.ResolveLoop | src/ftp_server.cpp:48-93 | the whole of `resolve` computes `Resolve` |
| Paths.ResolveScan | src/ftp_server.cpp:62-77 | the character scan is the stack machine run on the pieces between slashes, and refuses to pop an empty stack |
| Paths.ChangeDirLoop | src/ftp_server.cpp:661-702 | the path computation of `cwd_cmd` computes `ChangeDir` |
| Paths.ChangeDirScan | src/ftp_server.cpp:680-694 | the scan is the same machine, which stays at the root instead of refusing |
| Paths.ResolveLands | src/ftp_server.cpp:48-93 | for a canonical base: the result is the base less the levels the request climbs out of, followed by the names it then goes down; refused if it climbs out of everything or the base is not a prefix |
| Paths.ResolvedIsCanonical | src/ftp_server.cpp:48-93 | for every absolute base, each path not refused has no empty, `.` or `..` component and starts with the base |
| Paths.BelowBaseIsGranted | src/ftp_server.cpp:48-93 | a request that never climbs above the base is granted, and its components are the base's followed by its own normal form |
| Paths.PrefixTestIsOfStrings | src/ftp_server.cpp:88-90 | with base `/a`, the request `../ab` is granted as `/ab`, which is not inside the base |
| Paths.ChangeDirCanonical | src/ftp_server.cpp:661-702 | the new directory is canonical, whatever the old one and the argument |
| Paths.NormalisersAgree | src/ftp_server.cpp:48-93 | `CWD d` and then a file is the same as naming `d/file`, if there is no backslash in the directories and d never climbs above the root |
| Paths.AgreeExactly | src/ftp_server.cpp:661-702 | without backslashes in the directories they agree on all files if and only if d never climbs above the root |
| Paths.BackslashParts | src/ftp_server.cpp:60 | for all plain names p, q and f: after `CWD p\q/..` the file f is in the base, but `p\q/../f` names the one in p |
| Paths.PwdRoundTrip | src/ftp_server.cpp:404 | `CWD` of the path that `PWD` prints gives the current directory back |
| Paths.CdupUndoesCwd | src/ftp_server.cpp:414 | `CWD` of a plain name adds it, and `CDUP` takes it away again |
| Agreement.AgreeEverywhereExactly | src/ftp_server.cpp:48-93 | for every current directory and every d, backslashes included: over all canonical bases and all relative files `CWD d` and then the file is the same as both at once if and only if the new directory and the request, as `resolve` reads them, climb equally far and go down the same names |
| Agreement.SameWayWithoutBackslash | src/ftp_server.cpp:661-702 | without backslashes that condition says that d never climbs above the root |
| Confinement.GrantedExactly | src/ftp_server.cpp:48-93 | for a canonical base: a request is granted if and only if it does not climb out of the root and, of the place it ends at, all but the base's last component agree and the last may go on; the result is that place |
| Confinement.InsideExactly | src/ftp_server.cpp:86-92 | a request is granted inside the base, component by component, if and only if it leads back through all components it climbed out of |
| Confinement.OutsideExactly | src/ftp_server.cpp:86-92 | a request is granted outside the base, component by component, if and only if it climbs out, leads back through all but the last component, and goes on to a longer name that starts like the last |
| Confinement.NeighboursGranted | src/ftp_server.cpp:88-90 | every base but the root has such neighbours: the request for the base's own name with more behind it is granted |
| Confinement.MadeInsideExactly | src/ftp_server.cpp:455-465 | the directory that a login creates lies inside the temporary directory if and only if the account's root, as configured, leads back through what it climbs out of |
| Confinement.MadeBeside | src/ftp_server.cpp:455-465 | a root `../x` makes a directory x beside the temporary one |
| CommandLines.DrainLines | src/ftp_server.cpp:373-380 | the inner loop computes `Lines`, and leaves what follows the last line feed; what `Lines` takes off and skips is stated in `LineEndings` |
| CommandLines.ClientLoop | src/ftp_server.cpp:362-381 | the outer loop dispatches `Served`: chunk after chunk, until a chunk with a QUIT has been served to its end |
| LineEndings.EndedByCrLf | src/ftp_server.cpp:373-380 | whatever the line, a carriage return and a line feed end it, one carriage return is taken off, and an empty line is skipped |
| LineEndings.EndedByLf | src/ftp_server.cpp:373-380 | a line feed alone ends a line that does not end in a carriage return |
| LineEndings.EndingsDoNotMatter | src/ftp_server.cpp:373-380 | for every list of lines, each ended in one of the two ways, the lines taken out are the non-empty ones, and what follows the last line feed stays |
| LineEndings.DispatchedAsSent | src/ftp_server.cpp:362-381 | such lines without NULs and without a QUIT among them are dispatched as they were written, whatever their endings and however the bytes are cut |
| LineEndings.KeptOfChunk | src/ftp_server.cpp:371 | what is kept of a chunk ends before its first NUL |
| CommandLines.LinesConcat | src/ftp_server.cpp:371-380 | draining one text and then more is draining both at once |
| CommandLines.ServedLines | src/ftp_server.cpp:362-381 | what is dispatched is a prefix of the lines of all that was received, and up to and including the first QUIT the two are equal |
| CommandLines.ChunkingDoesNotMatter | src/ftp_server.cpp:362-381 | without NUL bytes the dispatched lines, up to the first QUIT, are the lines of the byte stream, whatever the chunks |
| CommandLines.SinglesServe | src/ftp_server.cpp:362-381 | arriving byte by byte, a NUL-free stream is dispatched up to and including the first QUIT, and no further |
| CommandLines.AfterQuitExactly | src/ftp_server.cpp:362-381 | all lines of a NUL-free stream are dispatched for every chunking if and only if no line follows the first QUIT, whether over all chunkings or over those with the chunk sizes that `recv` can return |
| CommandLines.ChunkingDecides | src/ftp_server.cpp:362-381 | for every NUL-free stream that fits the buffer and has lines after a QUIT: in one chunk all lines are dispatched, byte by byte those up to the QUIT |
| CommandLines.NulsAreTheException | src/ftp_server.cpp:367-371 | what reaches the line buffer is the same for all chunkings if and only if only NULs follow the first NUL |
| LostBytes.DispatchExactly | src/ftp_server.cpp:362-381 | for every stream, NULs included: each chunking dispatches the lines before the first NUL, and no others, if and only if none of these follows a QUIT and, unless one is a QUIT, no choice of the bytes lost behind NULs completes a line |
| FtpSession.Server.AddUser | src/ftp_server.cpp:245-257 | replaces the first account of that name that is not anonymous, or adds one at the end |
| FtpSession.Server.UserCmd | src/ftp_server.cpp:421-442 | the new state and reply, including the immediate login of an anonymous user |
| FtpSession.Server.PassCmd | src/ftp_server.cpp:444-480 | the new state, call and reply: only the first account of the name counts |
| FtpSession.Server.PasvCmd | src/ftp_server.cpp:482-522 | closes a pending listener first, and closes the new one on every failing set-up step |
| FtpSession.Server.ListCmd | src/ftp_server.cpp:524-540 | the order of the checks, the listing of the resolved path, and that the listener is used up |
| FtpSession.Server.FileTransfer | src/ftp_server.cpp:542-590 | the same for RETR and STOR, with 226 exactly when the file could be opened |
| FtpSession.Server.FileOp | src/ftp_server.cpp:592-659 | DELE, MKD and RMD: checks, one call on the resolved path, and the reply by its outcome |
| FtpSession.Server.CwdCmd | src/ftp_server.cpp:661-702 | needs login and read permission, then never fails |
| FtpSession.Server.Dispatch | src/ftp_server.cpp:390-419 | a command line has the effect of the command its first word names, in any case |
| FtpWords.LoginWords | src/ftp_server.cpp:401-415 | USER, PASS and QUIT, in either case of each letter, are those commands |
| FtpWords.ListWords | src/ftp_server.cpp:406-407 | PASV and LIST are those commands |
| FtpWords.DirectoryWords | src/ftp_server.cpp:413-414 | CWD changes to its argument, CDUP to `..` |
| FtpWords.QuitLine | src/ftp_server.cpp:415 | the line after which reading ends is the one that quits: the one that spells QUIT |
| FtpCommands.LoginFirst | src/ftp_server.cpp:715-721 | without a login every command but USER, PASS, QUIT, NOOP, FEAT and unknown ones is answered 530 and changes nothing |
| FtpCommands.PermissionFirst | src/ftp_server.cpp:723-731 | without the bit it needs, write for STOR, DELE, RMD and MKD, read for LIST, RETR and CWD, a command is answered 550 and changes nothing |
| FtpCommands.FileCallAnswer | src/ftp_server.cpp:592-659 | DELE, RMD and MKD: 501 without an argument, 550 for a path that is not granted, otherwise the call, and 250, 257 or 550 by its outcome; nothing else changes |
| FtpCommands.TransferAnswer | src/ftp_server.cpp:524-590 | LIST, RETR and STOR: 501, 550, or 150 and then 425 without a data connection, 226 or 550 by the outcome; the listener is used up |
| FtpCommands.FixedAnswers | src/ftp_server.cpp:401-419 | over runs, SYST, PWD, TYPE, NOOP, FEAT and unknown words are answered with their codes and change nothing |
| FtpCommands.QuitCloses | src/ftp_server.cpp:415 | over runs, a QUIT line is answered 221, then the connection and a pending listener are closed, and the rest stays |
| FtpCommands.PasvOpens | src/ftp_server.cpp:482-522 | PASV closes a pending listener, and is answered 227 exactly when it leaves a new one, otherwise 425 |
| FtpLogins.UserAnswers | src/ftp_server.cpp:421-442 | USER is decided by the first entry of that name, or the first anonymous one if the name is `anonymous`: it logs in at the temporary directory with 230, or is answered 331 |
| FtpLogins.PassAnswers | src/ftp_server.cpp:448-478 | PASS is decided by the first account of the name that USER gave: with its password the session has its rights and its root, otherwise 530 |
| FtpLogins.PassRefused | src/ftp_server.cpp:444-479 | PASS is answered 230 when already logged in, 503 without a USER, 530 without an account, and changes nothing |
| FtpLogins.Roots | src/ftp_server.cpp:454-459 | the root is the temporary directory, or what is configured below it, with or without a slash in front |
| FtpSession.Client.AcceptData | src/ftp_server.cpp:738-747 | gives a connection if and only if a listener is pending and the peer comes, and uses the listener up either way |
| FtpSession.Client.Close | src/ftp_server.cpp:757-764 | the control socket is marked closed and a pending listener is closed, and with neither left nothing changes |
| FtpRuns.LoginSoundness | src/ftp_server.cpp:421-480 | in every run a session is logged in if and only if it has logged in against the table, its permissions and root are together those of its most recent accepted login, and it never falls back |
| FtpRuns.LoginAgainstTable | src/ftp_server.cpp:421-480 | the account of an accepted login is in the user table at that moment: by PASS with its name and password, by USER only for an anonymous account |
| FtpRuns.AddUserOverwrites | src/ftp_server.cpp:245-257 | after `add_user` PASS accepts the new password of that name and no other; other names are as before |
| FtpLogins.AccountReplaced | src/ftp_server.cpp:245-257 | `add_user` puts the entry in the place of the first account of its name |
| FtpLogins.AccountAppended | src/ftp_server.cpp:245-257 | or at the end if there is none |
| FtpLogins.AccountLogsIn | src/ftp_server.cpp:245-480 | after any run that has left the session open and not logged in: add an account that no anonymous entry hides, and USER and PASS with its name and password log in with its rights and root, answered 331 and 230 |
| FtpLogins.AnonymousLogsIn | src/ftp_server.cpp:259-442 | after any run, an anonymous entry that no other hides lets in who says `USER anonymous` |
| FtpLogins.NobodyLogsIn | src/ftp_server.cpp:264-480 | after any run that has left the session open, with a USER given and not logged in: after `clear_users` USER and PASS are answered 530 and change nothing else |
| FtpRuns.RightsAfter | src/ftp_server.cpp:448-475 | a command changes permissions and root only by an accepted login, and then both together |
| FtpRuns.EffectsLicensed | src/ftp_server.cpp:524-659 | a command makes at most one file-system call: the one it asks for, on the resolved path, logged in and with the permission bit held; or the root directory of an account that has just logged in |
| FtpCommands.CallsNeedTheRight | src/ftp_server.cpp:524-659 | if a command gains a call that writes, deletes, makes or removes, the session is logged in and has the write bit; if one that lists or reads, the read bit |
| FtpCommands.RunCallsNeedTheRight | src/ftp_server.cpp:421-659 | over every run the same of the bits of the table entry of the last accepted login |
| FtpCommands.EveryCallAllowed | src/ftp_server.cpp:421-659 | every call ever made in a run was made by a line at which the login in force had the bit, on a path granted under that login's root |
| FtpCommands.FileLines | src/ftp_server.cpp:592-659 | after every run, DELE, RMD and MKD lines make their call on the granted path if and only if the session is logged in, may write, has an argument and the path is granted |
| FtpCommands.TransferLines | src/ftp_server.cpp:524-590 | after every run, the same for LIST, RETR and STOR, when moreover a listener is pending and the peer comes |
| FtpConfinement.GrantedUnderRoot | src/ftp_server.cpp:454-459 | under any account's root a granted path is canonical and starts with the temporary directory; a root of the account's own keeps it strictly below that directory |
| FtpConfinement.EveryPathIsConfined | src/ftp_server.cpp:444-659 | in every run, whatever roots the accounts were given, every path of a transfer or file command is canonical and starts with the temporary directory, and the directory made at a login starts with it as it is written |
| FtpConfinement.PlaceExactly | src/ftp_server.cpp:444-659 | a call of a command, login included, lands inside the temporary directory, component by component, if and only if the command is not one of two kinds: a login to an account whose root does not lead back, and a sidestepping request in a session rooted at the temporary directory itself |
| FtpConfinement.ConfinedExactly | src/ftp_server.cpp:444-659 | over every run and both kinds of calls: everything lands inside the temporary directory if and only if none of the calls came from one of those two |
| FtpConfinement.OwnRootExactly | src/ftp_server.cpp:524-659 | in a session with a canonical root, a command's call lands outside that root if and only if its request sidesteps |
| FtpConfinement.RootMadeBeside | src/ftp_server.cpp:455-465 | a run whose login creates a directory beside the temporary one |
| FtpConfinement.NeighbourReached | src/ftp_server.cpp:592-613 | a run in which a client deletes, from an account with the root `name`, a file beside it whose name starts with `name` |
| FtpRuns.CwdStaysCanonical | src/ftp_server.cpp:661-702 | in every run the current directory is canonical |
| FtpRuns.PwdThenCwd | src/ftp_server.cpp:404 | after every run, a CWD line with the path that PWD prints changes nothing but the reply log; it is answered with 250 if the session is logged in and may read, and with 530 or 550 otherwise |
| FtpRuns.CwdThenCdup | src/ftp_server.cpp:413-414 | after every run, a CWD line with a plain name and then a CDUP line leave everything but the reply log as it was, logged in or not |
| FtpRuns.ListenersBalanced | src/ftp_server.cpp:482-590 | in every run a listener is pending if and only if `pasv` holds, and the listeners opened are, with multiplicity, those closed and the pending one |
| FtpRuns.ListenersClosedOnce | src/ftp_server.cpp:749-775 | when the client is removed, every opening of a listener has been matched by exactly one closing |
| FtpRuns.TransfersCovered | src/ftp_server.cpp:482-590 | in every run no more transfers are completed than listeners were set up, with one set-up to spare while a listener is pending, counting what is served after QUIT; while the control connection is open these are the 226 and the 227 replies |
| FtpShutdown.EveryRun | src/ftp_server.cpp:319-388 | the invariants of the shutdown hold in every interleaving of `stop`, acceptor and client threads |
| FtpShutdown.HeldRegisteredOrClosed | src/ftp_server.cpp:329-339 | each accepted client is in the acceptor's hands, in the registry, or closed, and no control socket is closed twice |
| FtpShutdown.RegistryExactly | src/ftp_server.cpp:329-339 | in every run, while no sweep holds the registry's mutex, the registry holds, once each, exactly the clients that the acceptor has handed on, no sweep has closed and whose threads have not removed them |
| FtpShutdown.AcceptorExitClosesAll | src/ftp_server.cpp:350-359 | once the acceptor has exited, the registry is empty and every control socket has been closed exactly once |
| FtpShutdown.StopJoinsAll | src/ftp_server.cpp:222-235 | when `stop` has returned, moreover every client thread has finished |
| FtpStop.StopCanReturn | src/ftp_server.cpp:222-235 | no run of `stop`, acceptor and client threads reaches a state from which `stop` could not return with every client closed and every thread joined |
| FtpShutdown.ListenersBalanceUnlessLate | src/ftp_server.cpp:757-775 | a finished client's listeners are all closed unless, in the run, a PASV of the client was served after a sweep had reached it and no PASV, transfer or QUIT of it came later; exactly then one stays open |
| FtpShutdown.LateListenerStaysOpen | src/ftp_server.cpp:222-235 | a run in which such a listener stays open |

## Left out

- Socket creation, bind, select, Winsock, reuse of descriptor numbers and operating-system errors: a socket is a unique handle with an inbound and an outbound byte sequence and a closed flag. The failure paths of `start`, `base_url` and `port` are left out with them.
- Data races on fields that the code shares without a lock (`client->sock`, `listen_sock_`), and the interleaving of bytes of two sends to one socket: a lock region, a `close_client` and a `send_all` is one step each. The loop of `send_all` itself is modelled, but in the runs a failed send leaves no partial frame behind.
- A client's byte stream is fixed when it is accepted and read on demand; a connection that breaks early is a shorter stream.
- Termination of either `stop` while a peer has connected and stays silent: that is the peer's choice.
- BrokerProgress.StopCanReturn: there is a continuation in which `stop` returns; that it is taken needs a scheduler that serves every thread and peers whose streams end.
- FtpStop.StopCanReturn: the same; a thread that waits for its peer, in `recv` or in the `accept` of a data connection, is taken to go on some time.
- The numbers in generated client ids (`src/mqtt_server.cpp:428-432`): the id of an anonymous client is an arbitrary choice of each run.
- The order in which the session map is walked: a snapshot may be in any order.
- File contents, directory listings, time formatting and `TempDir`: a command's file-system call is recorded with its path and may succeed or fail.
- Accepted data connections, which each transfer opens and closes in one function body, and the bytes on them.
- The texts of the FTP replies: a reply is its code; the three lines of FEAT are one reply, and the greeting is left out.
- `conn_users_`: it is a set, and a session's user name can still change after its login (`src/ftp_server.cpp:425`), so it does not count sessions.
- QoS 1 and 2, retained messages, wills, keep-alive, UNSUBSCRIBE and the rule for `$` topics (section 4.7.2 of MQTT 3.1.1): the code does not implement them. A PUBLISH is always decoded as one of QoS 0.
- SFTP, REST and SOAP: the first rests on libssh, whose sources are not part of this model; the other two are thin maps over libraries.
- Framing.ReadFirst: its payload is described only for a CONNECT, since for any other type the code closes the socket without reading it.
- FtpRuns.ListenersClosedOnce: one client without a concurrent `stop`; `FtpShutdown` covers the shutdown, where listeners are counted and not named.
- FtpConfinement.OwnRootExactly: an account's root may be configured in a form that is not canonical, such as with a trailing slash or a `..`; for those, being inside the root is not defined, and the theorem about all roots is that of `EveryPathIsConfined` and `ConfinedExactly`, which speak of the temporary directory.
- Symbolic links, and whether the directories on a path exist: where a path ends is read off the path.
