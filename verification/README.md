# A model of the networked snake game, with proofs

This project models the client/server snake game in Dafny and proves properties of the model. It has five
parts:

* the **transport**: typed messages on a byte stack (`Message`), the challenge that comes before the first frame
  (`Scrambling`), one end of a connection with its write pump and its reader (`Connection`, `EndpointRuns`), two ends
  joined by byte channels (`Transport`, `HonestHandshake`, `Delivery`), and the queue between the network thread and the
  game (`Queues`, `QueueThreads`);
* the **protocol**: the bodies of the messages (`Protocol`, `Codec`), the server (`Server`, with its state as values in
  `Lobbies`, and `Broadcast`) and the client (`Client`);
* the **system** of the server and all its clients (`Game`, `Handlers`): what both ends read of what the other has sent
  (`Relays`, `Mailboxes`), what the clients keep of the server's powerups (`Replica`, `PowerupSync`) and players
  (`Presence`), and a run in which they do not (`StaleStart`);
* the **snake** on the torus and the keys that steer it (`Snake`);
* the **free cells** where a powerup can go (`FreeGrid`).

Classes stand for the program's objects and change their fields in place: `MessageBuffer`, `Queue`, `Connection`,
`Server`, `SnakeClient` and `Player`. Their methods are proved against functions or relations on values, and what the
program is for is proved about those, for all inputs and all runs. `dafny verify dfyconfig.toml` checks everything.

## How the pieces fit

**Transport.** An `Endpoint` is the state of one connection end; `Act` says what each completion handler does, and
the methods of class `Connection` are proved to do it. `EndpointRuns` holds what every run of one end keeps, for any
peer. `Transport` joins a server-side and a client-side end by two byte channels that may cut, delay or stop the bytes
anywhere, with any handler failing and any end closing at any time. It shows that the two byte streams refine two
message queues: what is delivered is a prefix of `Arrived(sent)`, which is what the reader makes of the bytes of the
messages sent. `HonestHandshake` counts the steps that an honest client's handshake takes, and `Delivery` shows that
every run in which nothing has failed can be continued until the client is validated and both ends have all that
arrives of what the other has sent.

**What the reader does with empty bodies.** The reader has one buffer and resizes its body only when a header announces
one. A message without a body is therefore delivered with the last body that came before it. The theorems say so
exactly instead of hiding it: `Redelivered` is the function from the messages sent to the messages delivered,
`DeliveredBodies` says when a delivered message agrees with its header, and `StaleRelay` says what becomes of a
message of that kind when the server sends it on. `StaleDelivery` and `StaleRelayHappens` are a run in which both
happen: a report and then a message without a body.

This is what the program does whenever a player who has reported asks for the game to start: the request comes to the
server with the report's body, it is sent on like that, and the clients read the body as frames. `StaleStart` shows
where that can lead: a client ends up with a powerup that the server does not have.

**Wake-ups.** `Wait` tests for emptiness before it takes the lock of its condition variable, so a notification can fall
in between and wake nobody. `WakeUpsKeptIff` says, for every run, that the consumer is never on its way to sleep on a
stored item without a notification to come if and only if no notification falls there; `MissedIsLost` shows that each
one that does can leave the consumer asleep.

**Broadcasts.** `MessageAllClients` and `OnClientDisconnect` call each other. In class `Server` they are proved to
terminate, and to tell everyone the right thing, when at most one member of the list is disconnected. `Broadcast`
follows the same calls with a fuel counter and shows that this condition is exact: with two disconnected members no
amount of fuel is enough. `Lobbies.BroadcastsAgree` says that the two are about the same condition and the same result.

A broadcast that finds a member gone announces that to everyone in the middle of its own loop, so members before that
place get the message first and members after it the announcement first. `Client.BroadcastPresence` says what the two
orders mean for a client's map of players.

`Server.View` is the server's list, players and mail as a value of `Lobbies`, where a connected member's mail is all that
`Send` was ever given for it, whatever asio has done with it since. Each handler is proved to turn one such value into
the next, announcements included, in the order in which they are sent.

**The system.** `Game` puts the server, its clients, what each has sent and the messages of clients that are gone into one
state, and each handler into one step. An end reads `Arrived` of what the other has sent, so messages that come as
something else are part of it. `Handlers` shows that each method of the classes `Server` and `SnakeClient` that matters
is one of its steps, and that everything asio completes on a connection is none, except that a failure is the step in
which the client is lost.

A run is *clean* if every message that is sent in it announces its body, those that the server sends on as they came
included, unless there is nobody to send them to. What the programs make themselves always does, apart from a snapshot
or a report of 4 GiB. `MailReadIff` shows that a run is clean exactly when, at every moment, every client reads its mail
as the messages it was sent and the server reads what the clients have sent. A start request spoils it if and only if
its sender has sent a message with a body before (`RelayWholeIff`) and there is a client to send it to.

`Presence` follows the players over clean runs: once its mail is handled, a client's map has exactly the server's
players and the ghosts that kills of clients that are gone have made.

**Powerup copies.** A client removes a powerup from its own list the moment it eats it, and later follows the server's
announcements. `Replica` keeps all messages under way in the state, those of clients that are gone included.
`Agreement` says that what a client's list will be, once everything under way to it is handled, is the server's list
with the default entries that its snapshot made, less its own eats that the server has yet to handle. `StepExact` gives,
for each kind of step, the condition on the state before it under which agreement survives, and shows that the condition
is necessary. `FairRunsAgree` shows that it holds along every run in which no two eats compete for one powerup;
`RaceBreaksAgreement` is a run from the empty server in which two do.

`PowerupSync` shows that every clean run of `Game` is a run of `Replica`, and `ClientsAgree` states agreement for the
clients' whole states and real messages. `StaleStartBreaksAgreement` is a run that is not clean and has no competing
eats, and at its end a client does not agree.

**Constants and sizes.** `uint32_t`, `int` and `size_t` have 4, 4 and 8 bytes and are stored lowest byte first, as on
the x64 machines the program is built for. A value-initialised `Position`, `PowerupData` or `Powerup` is at (0, 0).

## Model

| member | source | states |
|---|---|---|
| Message.FromToBytes | Networking/message.h:42-45 | an integer that fits in `w` bytes comes back from its `w` bytes |
| Message.DecodeEncode | Networking/message.h:54-67 | copying a value of any type the programs push into bytes and back gives the value |
| Message.WordIntAgree | Networking/message.h:54-67 | an identifier pushed as `uint32_t` and popped as `int`, or the reverse, is the converted number, and converting back gives the original |
| Message.PopPush | Networking/message.h:36-67 | one pop undoes one push and gives the value |
| Message.PushedAllSize | Networking/message.h:47-48 | after any pushes the header holds the size of the body modulo 2^32, and the size itself while it is below 2^32 |
| Message.StackLaw | Networking/message.h:36-67 | any typed values, popped by the same types in reverse order, come back and leave header and body as they were |
| Message.MessageBuffer.Push | Networking/message.h:37-50 | the in-place push is the function that the stack law is about |
| Message.MessageBuffer.Pop | Networking/message.h:54-67 | the in-place pop is the function that the stack law is about |
| Scrambling.UnscrambleScramble | Networking/connection.h:269-274 | the answer determines the low 56 bits of the challenge |
| Scrambling.ScrambleIsLow | Networking/connection.h:269-274 | the answer depends on nothing but the low 56 bits |
| Scrambling.ScrambleCollision | Networking/connection.h:269-274 | two challenges have the same answer if and only if their low 56 bits agree |
| Scrambling.HalfBytesSwap | Networking/connection.h:269-274 | half-byte by half-byte: the two halves of each of the seven low bytes change places and the top byte is cleared |
| Scrambling.KnownAnswers | Networking/connection.h:269-274 | the answers to two challenges |
| Queues.Queue.PushBack | Networking/queue.h:60-70 | the item goes behind the stored ones |
| Queues.Queue.PopFront | Networking/queue.h:36-45 | the oldest item is returned and gone, the rest stays in order |
| Queues.TakeUpTo | Networking/server.h:171-191 | the drain loop hands over the oldest messages in order, as many as there are up to the bound, and leaves the rest |
| QueueThreads.QueueSafety | Networking/queue.h:36-110 | in every interleaving of any number of producers and one consumer: each lock has one holder, the holder of `muxBlocking` waits for no lock, what was popped and what is stored is what was pushed in order, and when `Wait` returns there is something to pop until it is popped |
| QueueThreads.NoDeadlock | Networking/queue.h:36-110 | whenever a thread is inside an operation and not asleep, some such thread can go on |
| QueueThreads.WakeUpsKeptIff | Networking/queue.h:60-110 | along any run from an empty queue the consumer is never asleep or on its way to sleep on a stored item with nobody about to notify it, if and only if no notification of the run falls between the consumer's test for emptiness and its lock |
| QueueThreads.DoomedByMissing | Networking/queue.h:60-110 | the same for one step: nothing but such a notification brings the consumer there |
| QueueThreads.MissedIsLost | Networking/queue.h:60-110 | after every such notification, in any run, steps that store nothing and notify nobody leave the consumer asleep on what was stored |
| QueueThreads.WakeUpCanBeLost | Networking/queue.h:103-110 | for any item there is a run in which the consumer ends up asleep on a queue that is not empty |
| Connection.ParseHeaderBytes | Networking/connection.h:135-190 | a header survives the wire |
| Connection.HeaderBytesParse | Networking/connection.h:135-190 | any eight bytes are the wire form of the header they are read as |
| Connection.Connection.constructor | Networking/connection.h:25-34 | a new connection: empty queues and buffer, and on the server's side a challenge with its expected answer |
| Connection.Connection.ConnectToClient | Networking/connection.h:49-62 | an open server-side connection takes its identifier, starts to write the challenge and to read the answer; any other is left alone |
| Connection.Connection.Send | Networking/connection.h:113-131 | the message is posted behind the others, and nothing else changes |
| Connection.Connection.RunPostedSend | Networking/connection.h:117-130 | the oldest posted message is queued, and a header write starts if and only if the queue was empty |
| Connection.Connection.OnHeaderWritten | Networking/connection.h:191-220 | the next write: the body of the same message if it has one, else the next message's header if there is one; on an error the socket is closed |
| Connection.Connection.OnBodyWritten | Networking/connection.h:228-248 | the message is dropped from the queue and the next header write starts if there is one |
| Connection.Connection.OnHeaderRead | Networking/connection.h:139-162 | with a body announced the buffer is resized and the body is read; without one the buffer is delivered as it is, to the incoming queue, with its sender on the server's side |
| Connection.Connection.OnBodyRead | Networking/connection.h:170-183 | header and body are delivered together and the next header is read |
| Connection.Connection.OnValidationWritten | Networking/connection.h:281-297 | a client starts to read frames; an error closes the socket |
| Connection.Connection.OnValidationRead | Networking/connection.h:304-347 | the server validates exactly the expected answer and closes on any other; the client answers with the scrambled challenge |
| EndpointRuns.ActKeepsGood | Networking/connection.h:113-348 | every handler, with success or error, keeps the invariant of pump, reader and handshake |
| EndpointRuns.WritePump | Networking/connection.h:113-249 | in every run: while the socket is open a write is outstanding if and only if the out-queue is not empty, and what it has left to write is the end of the front message's header or body |
| EndpointRuns.WorkOfStep | Networking/connection.h:113-249 | each successful completion lowers the number of writes left by exactly one, each accepted message adds its one or two, a body write that fails gives its unit back, and no other step changes it |
| EndpointRuns.Drains | Networking/connection.h:187-249 | the out-queue is empty after n successful writes if and only if n is at least that number |
| EndpointRuns.DeliveredBodies | Networking/connection.h:135-184 | in every run and for any peer: a message delivered without an announced body carries the last body before it, so it agrees with its header if and only if it has a body or nothing before it had |
| EndpointRuns.StaleDelivery | Networking/connection.h:135-184 | for any challenge, any message with a body and any type there is a run of a new server-side connection in which the right answer, that message and a header without a body are read, and what is then delivered under that header is the old body |
| EndpointRuns.HandshakeSafety | Networking/connection.h:300-348 | for any peer: `OnClientValidated` is called at most once, only after the right answer, and no frame is read or delivered before |
| Transport.ExecKeepsOk | Networking/connection.h:113-348 | in every run of two joined ends no byte is lost, invented or moved, and the frames read are what the received bytes say |
| Transport.ReadWire | Networking/connection.h:135-249 | a stream of consistent messages followed by anything is read as those messages first |
| Transport.FramingExact | Networking/connection.h:135-249 | reading undoes writing if and only if every message's header announces the size of its body |
| Transport.PrefixCode | Networking/connection.h:135-249 | if the bytes of one list of messages are a prefix of those of another, the messages are too |
| Transport.StaleRelay | SnekServer/server.cpp:162-168 | a message received without an announced body and sent on as it is: its frame is read back if and only if nothing received before it had a body; otherwise the old body's bytes are read as frames |
| Transport.StaleRelayHappens | SnekServer/server.cpp:162-168 | in the run of `StaleDelivery` the second message, sent on as it is, is read back as an empty one and the frames that its old body spells |
| Transport.AcceptedInOrder | Networking/connection.h:113-131 | what the queues have accepted and what is still posted is what the applications sent, in order |
| Transport.StreamRefinesQueue | Networking/connection.h:113-266 | after any run, in each direction, what is delivered is a prefix of what the reader makes of the bytes of the messages sent, whatever messages these are; when their headers announce their bodies it is the first of them, in order, with their headers and every non-empty body intact, and an empty body replaced as `Redelivered` says |
| Transport.NothingLost | Networking/connection.h:113-266 | once everything is accepted and written and the receiver waits for more, all that arrives of the accepted messages has been delivered |
| HonestHandshake.NeverRejected | Networking/connection.h:323-332 | in every run of the two own ends, an answer that the server has read in full is the expected one |
| HonestHandshake.ForwardStep | Networking/connection.h:277-348 | as long as nothing failed and the server waits for an answer, a step of the handshake is enabled, and it lowers what is left |
| HonestHandshake.HandshakeCompletes | Networking/connection.h:277-348 | from every such state there is a run to validation |
| HonestHandshake.NeverSetBack | Networking/connection.h:277-348 | no step of either end adds to what is left of the handshake |
| HonestHandshake.HonestClientIsValidated | Networking/connection.h:277-348 | every run from the start against an honest client in which nothing failed has validated it or can be continued until it has |
| HonestHandshake.ValidatedInTime | Networking/connection.h:277-348 | in a run in which nothing failed no more steps advance the handshake than there were to do at the start, and a run with that many has validated the client |
| Delivery.OneWay | Networking/connection.h:113-266 | while both ends read frames, the rest of one direction can be written and read without touching what the other direction has delivered |
| Delivery.EverythingArrives | Networking/connection.h:113-348 | every run from the start in which nothing has failed has a continuation, in which nothing more is sent, that validates the client and delivers, in both directions, all that arrives of what was sent |
| Codec.CellsRoundTrip | SnekServer/server.cpp:286-295 | cells pushed from head to tail and popped to the front come back in their own order |
| Codec.TailRoundTrip | SnekServer/server.cpp:286-295 | a tail of any length with its length on top comes back, and what was below it is untouched |
| Codec.PlayerRoundTrip | Snek/snakeclient.cpp:63-83 | a player comes back under its identifier, although that is popped as an `int`, with its colour and its tail, alive, facing up and without food |
| Codec.PlayersRoundTrip | Snek/snakeclient.cpp:57-84 | any number of players in any order come back like that as entries of the client's map, whose other entries stay |
| Codec.PowerupListRoundTrip | Snek/snakeclient.cpp:46-55 | n powerups come back as n default entries followed by the list reversed |
| Codec.SnapshotRoundTrip | SnekServer/server.cpp:44-70 | for any players, any order of the map, any powerups and anything the client knew: the snapshot is used up, the identifier and every player with its colour and tail come back, and the powerup list is the default entries and then the list reversed |
| Codec.PlayerLayout | SnekServer/server.cpp:53-58 | the bytes of a player: its cells from head to tail, their number, its colour, its identifier |
| Codec.SnapshotLayout | SnekServer/server.cpp:43-69 | the bytes of a snapshot: the players, their number, the powerups, their number, the identifier |
| Codec.UpdateLayout | Snek/snakeclient.cpp:9-29 | the bytes of a report: the cells from head to tail, their number, the direction as 0 to 3 for up, right, down and left, the identifier |
| Codec.UpdateRoundTrip | Snek/snakeclient.cpp:9-29 | a report comes back as the same identifier, direction and tail, with nothing left |
| Codec.AddTail | SnekServer/server.cpp:286-295 | the loop pushes the encoding that the round trips are about, and keeps the header right |
| Codec.TakeTail | Snek/snakeclient.cpp:153-161 | the decoders' loop takes off exactly one tail |
| Codec.SnapshotMessage | SnekServer/server.cpp:43-69 | the loops over players and powerups build the snapshot that the round trip is about |
| FreeGrid.Mark | SnekServer/server.cpp:230-241 | after the loops over tails and powerups a cell is marked if and only if one of them covers it |
| FreeGrid.GetFreeGrid | SnekServer/server.cpp:226-253 | the list has exactly the cells of the grid that no tail and no powerup covers, each once, column by column |
| FreeGrid.ListsFreeUnique | SnekServer/server.cpp:226-253 | two such lists are equal, so the order of the map of players does not matter |
| FreeGrid.FreeSetSize | SnekServer/server.cpp:226-253 | free cells, cells of tails and powerups together are at least 1200 |
| FreeGrid.FreeSetShrinks | SnekServer/server.cpp:211-216 | a powerup on a free cell takes exactly that cell |
| FreeGrid.DrawIsPossible | SnekServer/server.cpp:204-212 | the range of the random index is empty if and only if no cell is free, which cannot be while tails and powerups together are fewer than 1200 |
| Broadcast.NobodyLost | Networking/server.h:127-169 | if nobody but the ignored member is disconnected, everyone else who is connected gets the message once, in list order, and nothing else changes |
| Broadcast.OneLost | Networking/server.h:127-169 | if one other member is disconnected: who gets the message and who the announcement, in which order, that exactly this entry and this player go |
| Broadcast.NeverSettles | SnekServer/server.cpp:93-111 | with a disconnected member to announce and another one, no depth of calls is enough |
| Broadcast.SettlesIff | Networking/server.h:127-169 | the mutual recursion comes to an end if and only if at most one member is disconnected, and then at depth two; otherwise it runs out of any depth that it is given |
| Server.Server.constructor | SnekServer/server.cpp:9-13 | the server starts empty, with twelve spawn points, in order |
| Lobbies.BroadcastsAgree | Networking/server.h:127-169 | what `MessageAllClients` asks of the list is what makes the calls of `Broadcast` end, and the list and the players that are left are the same |
| Server.SpawnOrder | SnekServer/server.cpp:266-275 | where the spawn points are; taken from the back, the first six are different and at least ten cells apart, and the other six are all the same cell |
| Server.Server.MessageAllClients | Networking/server.h:127-169 | every member's mail grows by exactly the message and the announcement it is due, in the order the loop reaches them; exactly the lost member leaves the list and the players |
| Server.Server.OnClientDisconnect | SnekServer/server.cpp:93-111 | everyone else gets the announcement once, and only that player goes |
| Server.Server.Tell | Networking/server.h:127-169 | as the handlers use it: connected members other than the ignored one get the message once, no connected member is dropped |
| Lobbies.MailContents | Networking/server.h:127-152 | exactly what one broadcast puts into a member's mail, announcement and order included |
| Server.Server.OnClientConnect | SnekServer/server.cpp:15-27 | a client is allowed if and only if there is a spawn point and the game has not started |
| Server.Server.OnAccepted | Networking/server.h:58-98 | an approved connection joins the list under the next identifier, different from all others, and its handshake starts; a denied one changes nothing, not even the connection |
| Server.Server.OnClientValidated | SnekServer/server.cpp:29-91 | the last spawn point becomes the new player's tail; the snapshot goes to the newcomer, the announcement to the others; powerups are added until there is one for an even number of players, and k + 1 for 2k + 1, each on a free cell and announced to all |
| Server.Server.OnMessage | SnekServer/server.cpp:113-179 | for each type the whole effect on mail, players, powerups and the game's start, whether the sender is in the list, closed or gone from it; an unknown type changes nothing; powerups stay distinct and in the grid |
| Server.Server.OnPowerupEaten | SnekServer/server.cpp:117-129 | the first entry on the eaten cell goes, if there is one, and the connected clients but the eater, which may be gone itself, are told; then one new powerup on a free cell is announced to all, so the count stays, or grows by one if there was none; of the players only that of a closed connection goes |
| Server.Server.DeletePowerup | SnekServer/server.cpp:181-199 | the first entry on the cell goes and everyone but the eater is told |
| Server.EraseFirst | SnekServer/server.cpp:188-195 | the search loop erases the first match and nothing else, and nothing when there is none |
| Server.Server.GeneratePowerup | SnekServer/server.cpp:201-224 | one powerup is added, on a cell that nothing covers, and announced to everyone |
| Server.Server.OnUpdatePlayer | SnekServer/server.cpp:131-160 | the others get the report as it came although the server then takes it apart; without a player of the sender the handler ends there with an exception; otherwise the sender's tail and direction are stored and no other player changes, and the player that the report names is killed if and only if its head hits something; the broadcasts take away exactly the players of closed connections that they find |
| Server.Server.OnStartGame | SnekServer/server.cpp:162-168 | the request goes back to everyone as it came and the game counts as started |
| Server.Server.FindsCollision | SnekServer/server.cpp:297-324 | whatever the order of the map, the scan finds something if and only if there is a hit |
| Lobbies.HitExactly | SnekServer/server.cpp:297-324 | for any players: there is a hit if and only if the head is on index 4 or later of the own tail or anywhere on the tail of another player |
| Lobbies.HitIsCollision | SnekServer/server.cpp:297-324 | for a snake that moved by the rules and never reversed: if and only if its head is on any other cell of its own tail or on another player |
| Lobbies.ReversalIsNoHit | SnekServer/server.cpp:301-311 | a head on index 2, and nowhere else, is no hit |
| Lobbies.FifthCellIsHit | SnekServer/server.cpp:301-311 | every spawned snake can come to be hit with its head on its fifth cell and on no other |
| Server.Server.PlayerCollision | SnekServer/server.cpp:297-324 | exactly one kill goes to everyone when there is a hit, and nothing happens otherwise |
| Lobbies.ReportWhileOpen | SnekServer/server.cpp:131-160 | while everyone is connected: the sender's player gets the reported tail and direction and keeps its colour, nobody else changes; everyone but the sender gets the report and then everyone the kill, if there is a hit |
| Lobbies.EatWhileOpen | SnekServer/server.cpp:117-129 | while everyone is connected: everyone but the eater is told of the eat, then everyone of the new powerup |
| Lobbies.StartWhileOpen | SnekServer/server.cpp:162-168 | while everyone is connected: everyone gets the request as it came, its sender too |
| Lobbies.JoinWhileOpen | SnekServer/server.cpp:29-91 | while everyone is connected: the newcomer gets the snapshot and everyone else the announcement, then everyone each new powerup in order |
| Client.SnakeClient.HandleMessages | Snek/snakeclient.cpp:31-210 | every queued message is handled in order, and the client's state is what the messages make of it, whatever value a report has for a direction |
| Client.SnakeClient.OnServerValidation | Snek/snakeclient.cpp:41-87 | the loops decode the snapshot in place: identifier, powerup list, players |
| Client.SnakeClient.OnUpdatePlayer | Snek/snakeclient.cpp:140-163 | direction and tail are replaced, and an unknown player is created |
| Client.SnakeClient.OnPowerupEaten | Snek/snakeclient.cpp:165-182 | the first entry on the cell goes, if there is one |
| Client.SnakeClient.EatPowerup | Snek/snakeclient.cpp:212-226 | the entry goes at once, the own snake will grow by one, and the server is told while connected |
| Client.SnakeClient.UpdateServer | Snek/snakeclient.cpp:9-29 | the report that the round trips are about is sent while connected |
| Client.SnakeClient.AttemptGameStart | Snek/snakeclient.cpp:228-239 | a request is sent unless the game has started, and the client does not start it by itself |
| Client.SnapshotHandled | Snek/snakeclient.cpp:41-87 | the client's state after the server's snapshot |
| Client.SnapshotEntries | Snek/snakeclient.cpp:41-87 | entry by entry: as many powerups at the origin as the server has, then the server's from the last to the first; every player of the server, alive, facing up, without food, with its tail and colour; everyone else as before |
| Client.NewPlayerHandled | Snek/snakeclient.cpp:89-114 | after the server's announcement that player is there, alive, facing up, without food, with its tail and colour, and nothing else changes |
| Client.RemovalHandled | Snek/snakeclient.cpp:116-126 | after the server's announcement exactly that player is gone, although the identifier travels as an `int` |
| Client.KillHandled | Snek/snakeclient.cpp:191-199 | after a kill that player is dead and has no cells, its food, direction and colour stay, and so does everyone else |
| Client.StartHandled | Snek/snakeclient.cpp:184-189 | after the server's start the game has started, whatever body came with it, and nothing else changes |
| Client.RelayAgreement | SnekServer/server.cpp:131-156 | the server and every other client read a report as the same tail in the sender's order and the same direction; on the client that player's colour, food and life stay, and so does everyone else |
| Client.BroadcastPresence | Networking/server.h:127-169 | who is in a client's map of players after the mail of one broadcast: the message's player is added and the lost member removed, except that a message about the lost member itself brings it back on exactly the clients after it in the list |
| Client.KilledAndGone | SnekServer/server.cpp:277-284 | the case in which that happens: a kill whose broadcast finds the killed player's own connection closed leaves a dead player without a body there |
| Presence.PlayersAgree | SnekServer/server.cpp:29-179 | in every clean run of the system in which reports name their senders: what a validated client's map will have, once it has handled what arrives of its mail, is the server's players and the client's ghosts, and none of the ghosts is a member of the server's list |
| Presence.GhostsByKills | SnekServer/server.cpp:277-284 | in each step, a client gets a ghost exactly when a kill is broadcast whose player's own connection is found closed before the client in the list; it never loses one |
| Client.PowerupsFollowNotes | Snek/snakeclient.cpp:31-210 | after any messages of any types the powerup list is what `Replica` makes of the snapshots, additions and removals among them |
| Client.ServerNotes | SnekServer/server.cpp:61-66 | what the server's snapshot and its two powerup messages mean in `Replica` |
| Replica.ApplyAllCount | Snek/snakeclient.cpp:128-182 | handling messages changes the number of entries on a cell as counting says |
| Replica.OneMore | Snek/snakeclient.cpp:165-182 | an entry more at first is an entry more at last, unless a removal under way would have found nothing |
| Replica.AgreesByCount | Snek/snakeclient.cpp:165-182 | agreement as equality of multisets is equality of counts on every cell |
| Replica.EatExact | Snek/snakeclient.cpp:212-226 | eating an entry keeps that client's agreement if and only if no removal under way was meant for it |
| Replica.OwnEatHandledExact | SnekServer/server.cpp:117-129 | handling an eat keeps the eater's agreement if and only if the powerup exists or the eats under way exceed the default entries there |
| Replica.OtherEatHandledExact | SnekServer/server.cpp:181-199 | handling an eat keeps another client's agreement if and only if the powerup exists or its default entries there are covered by its own eats |
| Replica.AnnouncedExact | SnekServer/server.cpp:201-224 | a new powerup keeps a client's agreement if and only if its eats under way on that cell are covered by the server's list and its default entries |
| Replica.SnapshotAgrees | SnekServer/server.cpp:43-70 | a client whose snapshot is sent agrees, whatever was under way to it before |
| Replica.StepExact | SnekServer/server.cpp:113-224 | for every step, the handling of an eat whose sender is gone included: agreement of all validated clients survives it if and only if the step is safe |
| Replica.RunAgreesIffSafe | SnekServer/server.cpp:113-224 | along any run there is agreement throughout if and only if every step is safe |
| Replica.FairIsSafe | SnekServer/server.cpp:117-129 | without competing eats every step is safe |
| Replica.FairRunsAgree | SnekServer/server.cpp:117-224 | along every run without competing eats: agreement throughout, distinct powerups, eats under way are of powerups of their own, and the number of powerups is what was added less what was eaten |
| Replica.RunsFromTheStart | SnekServer/server.cpp:9-13 | all of this holds of every such run from the empty server |
| Replica.QuietAgreement | Snek/snakeclient.cpp:46-55 | in every run from the empty server without competing eats: a client with nothing under way has the server's powerups and its default entries |
| Replica.RaceBreaksAgreement | SnekServer/server.cpp:117-129 | for any two cells, a run of whole handlers from the empty server: two eats of one powerup, with a new one on the same cell in between, leave the first client, which has no default entries, with an entry that the server does not have |
| PowerupSync.StepRefines | SnekServer/server.cpp:29-224 | every clean step of the system, with its real messages, is some steps of `Replica` |
| PowerupSync.RunRefines | SnekServer/server.cpp:29-224 | every clean run of the system is a run of `Replica` |
| PowerupSync.ClientsAgree | Snek/snakeclient.cpp:128-226 | in every clean run of the system from its start without competing eats, at every moment: a validated client can take apart what arrives of its mail, and its powerup list will then be the server's list with the default entries of its snapshot, less the eats it has sent that the server has not handled |
| StaleStart.StaleStartBreaksAgreement | SnekServer/server.cpp:162-168 | for any two clients and a powerup anywhere else than on the spawn point: a run from the start in which two clients join, the second one reports, with its head on (5, 8) and any cell behind it, and asks for the game to start. No eats compete and the report names its sender, but the relayed request is not clean; the first client then reads its mail as something else and ends with a powerup on that cell which the server does not have |
| Game.ReadInOrder | Networking/connection.h:113-266 | in any run of a connection's two ends, what each end has delivered is the first part of what the system says it reads |
| Game.BoardInEveryRun | SnekServer/server.cpp:181-224 | in every run of the system, competing eats and relayed requests that are misread included: the server's powerups lie in the grid on distinct cells, its members and their identifiers are distinct, and every player is one of a member |
| Game.JoinedBoardIs | SnekServer/server.cpp:29-91 | in every step in which a client joins: its player has one cell, on the spawn point, and faces up; nobody who stays changes; the powerups are filled up to one for an even number of players and to k + 1 for 2k + 1 |
| Mailboxes.OwnPlayerKnown | Snek/snakeclient.cpp:41-87 | in every clean run, a client that knows its identifier has been validated, the identifier is that of its member of the server's list, and its own player is in its map |
| Relays.MailReadIff | SnekServer/server.cpp:131-168 | along any run of the system: at every moment every client can read its mail, and the server what the clients have sent, as the messages that were sent, if and only if the run is clean |
| Relays.StepSoundIff | SnekServer/server.cpp:131-168 | the same for one step, from any state that a run can reach in which all can be read |
| Relays.RelayWholeIff | Networking/connection.h:135-184 | what the server gets announces its body if and only if it was sent with a body, or nothing that the client sent before had one |
| Handlers.ServerBegins | SnekServer/server.cpp:9-13 | a new server is where the system starts |
| Handlers.ServerHandles | SnekServer/server.cpp:113-179 | `OnMessage` for the next message that arrives from a connected client, a request with an old body included, is a step of the system unless it ends with an exception |
| Handlers.ServerHandlesStray | Networking/server.h:171-191 | so it is for a message in the queue whose sender is gone |
| Handlers.ServerValidates | SnekServer/server.cpp:29-91 | `OnClientValidated` is a step of the system |
| Handlers.ServerAccepts | Networking/server.h:58-98 | so is the acceptor's handler when it lets the client in, and it is none when not |
| Handlers.ServerCompletes | Networking/connection.h:113-348 | whatever asio completes on a connection of the server: the socket stays open unless it failed or the answer was wrong; while it does nothing changes for the system, and otherwise the client is lost with any number of its messages in the server's queue |
| Handlers.ClientBegins | Snek/snakeclient.cpp:6-7 | a new client is what the system has for it when its connection is accepted |
| Handlers.ClientEats | Snek/snakeclient.cpp:212-226 | `EatPowerup` of a connected client is a step of the system |
| Handlers.ClientHears | Snek/snakeclient.cpp:31-210 | `HandleMessage` for the next message that arrives of the client's mail is a step of the system |
| Handlers.ClientReports | Snek/snakeclient.cpp:9-29 | `UpdateServer` is a step of the system |
| Handlers.ClientAsksToStart | Snek/snakeclient.cpp:228-239 | and so is a request to start the game, which a client that knows of the start does not make |
| Handlers.ClientCompletes | Networking/connection.h:113-348 | whatever asio completes on a client's end changes nothing for the system |
| Snake.Player.Move | Snek/player.cpp:9-63 | the in-place move is the function that the runs are made of |
| Snake.Player.DropTail | Snek/player.cpp:101-112 | food is used up, or else the last cell goes |
| Snake.SnakeShape | Snek/player.cpp:9-63 | in every run the cells are in the grid, neighbours in the tail are neighbours on the torus, a live snake has a head, and the tail is the newest part of the head's path |
| Snake.LengthConserved | Snek/player.cpp:65-112 | in every run of a live snake length plus food grows by exactly what is eaten |
| Snake.GrowthByMoves | Snek/player.cpp:101-112 | with all food given up front, n moves make the snake longer by the smaller of n and the food; a direction without a name moves nothing |
| Snake.KillIsFinal | Snek/player.cpp:75-79 | in every run, from a kill on the snake is dead, has no cells and makes no move, whatever comes after |
| Snake.RoundIs | Snek/main.cpp:88-112 | what a round of the game loop does to a live snake: one step in the direction the keys leave it, one more cell to come if it eats, death and no cells if it is killed |
| Snake.OddNeverHead | SnekServer/server.cpp:301-311 | the head is never on an odd index of its own tail |
| Snake.SecondIsHeadIff | SnekServer/server.cpp:301-311 | the head is on index 2 if and only if the last two moves were opposite |
| Snake.ScanFromFour | SnekServer/server.cpp:301-311 | a scan from index 4 that finds nothing has missed something if and only if the snake has more than two cells and its last two moves were opposite |
| Snake.ScanFromFourIsComplete | SnekServer/server.cpp:301-311 | for a snake that never reversed the scan from index 4 finds every self-collision |
| Snake.FourIsReached | SnekServer/server.cpp:301-311 | a later start would miss something: every spawned snake can reach its own index 4 without reversing |
| Snake.KeyCallback | Snek/inputhandler.cpp:9-40 | which key turns the snake, judged by its direction at that moment, and that nothing happens before the identifier is known |
| Snake.OneKeyNoReversal | Snek/inputhandler.cpp:24-39 | any keys of which at most one is accepted do not turn the snake round |
| Snake.KeysReverseIff | Snek/inputhandler.cpp:24-39 | any keys turn the snake round if and only if the last accepted one asks for the opposite direction |
| Snake.TwoKeysReverse | Snek/inputhandler.cpp:24-39 | two accepted keys between two moves can |
| Snake.NoReversalIff | Snek/inputhandler.cpp:24-39 | in any play the local snake never reverses if and only if in every round of a live snake the last accepted key does not ask for the opposite of the last move |
| Snake.NoReversalInPlay | Snek/inputhandler.cpp:24-39 | with at most one accepted key between moves the local snake never reverses, so the server's scan finds every self-collision |

## Left out

- Server.Server.MessageAllClients: requires at most one disconnected member, because with more the program's recursion does not end; `Broadcast.SettlesIff` is the exact statement.
- Server.Server.OnUpdatePlayer: requires that the identifier can be popped and, if the sender has a player, the rest of the report too, and that the named player has a head when another player has cells to compare it with; the program reads past its data otherwise. A report may name another player and may have an empty tail.
- Server.Server.OnPowerupEaten: requires a cell in the body and a free cell in the grid for the new powerup; a draw from an empty range is undefined in the program. Handlers that use the grid require tails inside it, which it is indexed with unchecked, and `OnMessage` keeps that only for reports whose tails are inside.
- Server.Server.OnClientValidated: requires a spawn point, room for the powerups to be added and lists that an `int` can count; `back()` of an empty vector and a draw from an empty range are undefined in the program.
- Server.Server.OnMessage: requires what the handler of the message's type requires; with an exception in a report the program ends, and so does the run of the system that `Handlers.ServerHandles` speaks about.
- Lobbies.ReportWhileOpen: is, like the three lemmas beside it, about a list in which everyone is connected; with one member gone the mail of each broadcast is what `Lobbies.MailContents` says.
- Client.SnakeClient.HandleMessages: requires that the messages have the bodies that the decoders pop; popping a body that is too short is undefined in the program.
- Transport.StreamRefinesQueue: a client sends only once it reads frames, which its game loop sees to.
- Transport.NothingLost: is about a state in which everything is written and read.
- Delivery.EverythingArrives: says that some continuation delivers everything; that the network and the scheduler choose such a one is not assumed or shown.
- QueueThreads.QueueSafety: has one consumer and no `PushFront`, `PopBack`, `Back`, `Count` or `Clear`.
- QueueThreads.MissedIsLost: a spurious wake-up or a later push would wake the consumer again; the continuation it gives has neither.
- Replica.StepExact: treats the eat and the powerup that follows it in the same handler as two steps, which allows more runs than the program has.
- Game.BoardInEveryRun: a run has only steps in which the handler comes to its end: broadcasts with at most one disconnected member, bodies that hold what is popped from them, no exception, a free cell for a powerup. At any other the program recurses without end, stops, or is undefined. A connection closes for both of its ends at once, some of what the client has sent has arrived by then, and the rest is lost.
- PowerupSync.ClientsAgree: holds of clean runs only; in others clients misread their mail (`Relays.MailReadIff`) and agreement can be lost (`StaleStart.StaleStartBreaksAgreement`). Runs in which a misread message happens to change no powerup list are not told apart from those. A client that is not connected any more is out of the system, and what it eats then stays its own.
- Presence.PlayersAgree: holds of clean runs in which a report names its sender, as the program's own client does; with another name the server would kill, and the clients would move, another player than the one whose tail is stored.
- Handlers.ClientReports: requires that the client has its own player, which it has in every clean run (`Mailboxes.OwnPlayerKnown`); otherwise the program would put in one without a tail.
- Handlers.ServerValidates: requires what `Server.Server.OnClientValidated` requires, and `Handlers.ServerAccepts` that identifiers have not run out.
- Snake.SnakeShape: is about snakes that move by the rules; tails that another program puts into a report are not, and neither is the overflow of `int` for coordinates far outside the grid.
- asio, sockets, name resolution and threads are replaced by steps that complete, fail or close in any order; the bytes of a write reach the channel in order, and those of the validation parameter before those of frames.
- Data races between the network thread and the game on `players` and on the list of connections: handlers are atomic.
- The counter for identifiers is not followed past 2^32.
- The random choice of a cell is any choice from the list, and of a colour any 32-bit value; colours mean nothing else.
- A direction beyond the four is kept and passed on as the value it is, and moves nothing.
- `ServerInterface::MessageClient`, `Start`, `Stop`, and `ClientInterface` beyond `Send`: not used by the server, or thin wrappers.
- Window, drawing, console output, `Powerup::CheckCollision`, `GenerateGrid` and the getters.
- The libraries in `lib/`.
