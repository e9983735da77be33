# tavernmx, modelled and verified in Dafny

tavernmx is a chat server with a graphical client. This project models the parts of it that have to
agree with each other, and proves what they promise one another: over every run of the whole system,
every interleaving of the pool's threads, and every way a stream of bytes can be cut into reads.

Verify everything with `dafny verify dfyconfig.toml`.

## How the model is built

Code that changes state in place is modelled as classes and methods with loops. Each of their methods
is proved against a function on values, and the theorems are about those functions and the state
machines made of them.

| files | what they model |
|---|---|
| `server_worker.dfy`, `server_tick.dfy`, `server_loop.dfy` | the server worker's tick: rooms, histories and client queues as objects, in nested loops; `server_spec.dfy` says what each message and the end of a tick do, on values |
| `server_run.dfy`, `effects.dfy`, `tick_is_run.dfy` | all runs of the server: clients connect, disconnect and expire between any two steps, and within a tick the server takes any messages; what a tick's messages bring about; a tick of the worker is shown to be one of these runs |
| `replica.dfy`, `convergence.dfy`, `delivery.dfy`, `gaps.dfy`, `missed_line.dfy`, `stale_lines.dfy` | what a client makes of the messages, whatever it selects; agreement on the rooms, order of the chat lines, histories after joining and what is missing in them |
| `chat_window.dfy`, `commands.dfy`, `client_spec.dfy`, `selection.dfy`, `user_input.dfy` | the handlers of the chat window as methods, the same on values, the selected room, and what the user's input queues |
| `link.dfy`, `pump.dfy` | a connection: queues, blocks in transit, the handshake, the two workers, the heartbeat |
| `peer.dfy`, `joining.dfy`, `world.dfy`, `asking.dfy`, `own_history.dfy`, `authorship.dfy`, `settling.dfy`, `loads.dfy`, `winding_down.dfy` | the server, all connections and all windows together, moving in any order, asking for histories, showing each other's lines, and coming to rest |
| `thread_pool.dfy`, `pool_invariants.dfy`, `pool_theorems.dfy`, `blocks.dfy` | the pool that runs the connections, with each access to shared state a step of its own; how it divides a range |
| `framing.dfy` | blocks as bytes, and their reassembly from reads |
| `rooms.dfy`, `room_manager.dfy`, `room_lists.dfy` | rooms, their manager, and the room list message |
| `ring_buffer.dfy`, `history_store.dfy`, `messages.dfy`, `collections.dfy` | the history buffer, a history per room, messages, sequences |

Every event a room has accepted since it was created is kept in `State.logs`, everything ever pushed
to a client in `State.pushed`; both exist only to state the theorems. `Stretch(log, from, to)` is the
part of a log between two positions, as messages carry it; `Delivered(s, room)` is how much of it
has been distributed.

## What the code does that one might not expect

* A room list reaches the client in the order of its keys as text, so "10" comes before "2": the
  order is the server's exactly when there are at most ten rooms (`RoomLists.OrderKept`).
* A history request for 0 events is answered with everything retained (`Messages.ReplyIsOldest`,
  `Messages.ZeroAsksForAll`). A reply holds the oldest retained events, not the latest. So a client that
  joins misses events exactly if more than 100 are retained besides those still to be distributed in
  the tick of its request, until 999 more were distributed (`Gaps.NoneSkippedExactly`,
  `MissedLines.LineMissed`).
* An event that was accepted in the tick of a history request, before the request, is shown twice if it
  is among those replied, until 999 events were distributed since (`Gaps.SomeDoubledExactly`).
* Lines said in the tick in which their room is destroyed are sent after the room's ROOM_DESTROY, and
  the client keeps them under the name. They are shown in a new room of that name until its history
  is rewritten (`StaleLines.StaleLinesExactly`, `Replicas.OldLineInNewRoom`).
* The client's rooms and `waiting_on_server` are globals and survive a reconnection. Until the new
  connection's first room list arrives the selected room may be one this connection never asked for:
  another leftover room when one is destroyed, or one whose mark as joined is left over
  (`Selection.SelectedAskedExactly` with `Selection.LeftoverSelectedUnjoined` and
  `Selection.LeftoverMarkSuppressesJoin`). The window may be told to wait until something is received
  (`Pumps.OneHeartbeatOutstanding`).
* A first read that ends exactly where the payload starts returns a block without its payload
  (`Framing.PayloadMissed`), and a read that runs into the next block spoils the one being read
  (`Framing.ReceivedExactly`).
* `RingBuffer::size` of a full buffer is the capacity, one more than can be read.
* `tasks_running` counts every worker until it first looks for a task, so a server that has just
  started may refuse a client although it serves none (`PoolTheorems.RefusesBeforeStart`).

## Model

| member | source | states |
|---|---|---|
| `Worlds.QuietMeansAgreed` | src/client/workers/chatwindow-worker.cpp:99-173 | over all runs of server, connections and windows, windows over any rooms left from an earlier connection among them: when nothing is under way to or from a client and the server is between ticks, its window lists exactly the server's rooms, and its selected room, if there is any room, is one the server has it joined to |
| `Settling.ComesToRest` | src/server/workers/client-worker.cpp:29-66 | from every state that any run reaches, moves of the workers, the windows and the server alone, with nobody acting, can lead a connected client to such a quiet state, and so to agreement |
| `WindingDown.WindsDown` | src/server/workers/client-worker.cpp:29-66 | any run of such moves, in any order and however long, does no more than a number known before it starts; and whenever it is between ticks with nothing left to do for a connected client, the client agrees with the server |
| `WindingDown.MoveDescends` | src/server/workers/server-worker.cpp:85-197 | every move leaves strictly less to do, counted over all queues, blocks in transit, handshakes and what a tick still has to tell, or is a turn without messages |
| `WindingDown.NothingToDoIsQuiet` | src/client/workers/serverconnection-worker.cpp:46-89 | between ticks, a client whose workers and window have nothing to move and none of whose messages waits has nothing under way |
| `Loads.ProcessLoad` | src/server/workers/server-worker.cpp:96-159 | a message costs more than its reply and the broadcasts it causes, whatever it is |
| `Loads.PumpLoad` | src/server/workers/client-worker.cpp:36-56 | a turn of a worker that receives, answers and sends leaves less to do, or changes nothing |
| `WindingDown.TickEndLoad` | src/server/workers/server-worker.cpp:163-197 | the end of a tick costs no more than what it had to tell |
| `Settling.Ticks` | src/server/workers/server-worker.cpp:94-197 | a whole tick can always be run, after which every connected client was heard; if only joins and history requests had come in, a client is told nothing but histories |
| `Settling.CatchesUp` | src/client/workers/chatwindow-worker.cpp:99-166 | a window can always catch up with what was pushed; that makes it send nothing but joins and history requests, and nothing at all after histories |
| `Worlds.PendingFoldsToRooms` | src/server/workers/server-worker.cpp:92-197 | at every tick boundary, folding the messages under way to a client into the rooms its window lists gives the server's rooms, once the list was pushed |
| `Worlds.CaughtUp` | src/client/workers/chatwindow-worker.cpp:99-166 | a window that has handled everything under way has the rooms and histories that all that was ever pushed to it makes of the rooms it opened with |
| `OwnHistories.NoGapShown` | src/client/workers/chatwindow-worker.cpp:26-39 | over all runs: from the moment the server takes a window's own request for the history of a room it has joined, while the room and the connection last, a window that has caught up shows exactly the replied events and those distributed since, by position, the latest 999 of these; when one between is missing, and when one is shown twice, exactly, by what the server can tell before it answers |
| `OwnHistories.AskIsJoined` | src/client/workers/chatwindow-worker.cpp:33-38 | when the server takes a window's request for a history, it has the client joined: the join was queued first |
| `OwnHistories.NotAskedAgain` | src/client/workers/chatwindow-worker.cpp:33-38 | while a joined room stays listed its history is not asked for again |
| `OwnHistories.ServersPart` | src/server/workers/server-worker.cpp:85-197 | of a run of the whole system in which client and room last, the server's part is a run in which the client does not ask again |
| `Authorship.LineIsShown` | src/server/workers/server-worker.cpp:29-36 | over all runs: a line that the server takes in a room is shown by every window that has joined it, the sender's own too, while room and connection last and once it has caught up: with the name its sender gave when it connected as its author, with the text that was sent, at its time up to 32 bits, and as far from the end as in what was distributed, for up to 999 lines |
| `Authorship.TakenAsNamed` | src/server/workers/client-worker.cpp:17-21 | over all runs the server takes every message as one of the user its sender named in HELLO |
| `Asking.StepAsks` | src/client/workers/serverconnection-worker.cpp:30-31 | every step of anyone keeps it true that a window asks for a history only directly behind the join, and that a connection asks for the list and is pushed one once |
| `Worlds.StepKeeps` | src/server/workers/server-worker.cpp:85-197 | every step of anyone keeps the invariant that ties each connection and window to what the server has pushed and who has joined |
| `Worlds.RunKeeps` | src/server/workers/server-worker.cpp:85-197 | the same over runs of any length |
| `Worlds.ServerPushes` | src/server/workers/server-worker.cpp:99-189 | the server only adds to the ends of the outgoing queues, and nothing that the connection's workers would absorb |
| `Joining.ListedIsRoom` | src/server/workers/server-worker.cpp:116-123 | a room that a window has joined, and that nothing under way takes away, is a room of the server when its join arrives |
| `Joining.TickEndJoin` | src/server/workers/server-worker.cpp:171-197 | the end of a tick keeps it true that a room joined at the window is joined at the server or its join is under way, unless the tick destroys the room and says so |
| `Joining.HandledJoin` | src/client/workers/chatwindow-worker.cpp:99-163 | and so does every message a window handles |
| `Peers.FoldPending` | src/client/workers/chatwindow-worker.cpp:99-166 | what a window will show after everything under way is what all that was pushed makes |
| `Peers.HandledKeeps` | src/client/workers/chatwindow-worker.cpp:99-166 | handling a message keeps a window in step with what was taken from its connection, and settled |
| `Convergence.RoomListsConverge` | src/server/workers/server-worker.cpp:92-197 | at every tick boundary of every run of the server, a connected client that was sent the list will, after all that was pushed, list exactly the server's rooms, whatever it listed before: also for lists answered in the middle of a tick, rooms created and destroyed in one tick, repeated destroys, clients that connect at any time |
| `Convergence.ListedUnlessNew` | src/server/workers/server-worker.cpp:97-132 | in the middle of a tick it will list a room exactly if the server has it, unless this tick created it |
| `Convergence.TickAgrees` | src/server/workers/server-worker.cpp:163-197 | the broadcasts of a tick do to a client's rooms what its sweep does to the server's |
| `Convergence.ListAgrees` | src/server/workers/server-worker.cpp:97-101 | a list answered in the middle of a tick carries exactly the rooms of that moment, doomed ones included |
| `Delivery.JoinedHearsAll` | src/server/workers/server-worker.cpp:179-189 | while a room and a connection last, a joined client is sent exactly the room's events from the first one undistributed when it joined, each once and in order |
| `Delivery.DeliveredAtTickStart` | src/server/workers/server-worker.cpp:116-155 | that first event is the first of the tick in which it joined |
| `Delivery.OneOrderForAll` | src/server/workers/server-worker.cpp:179-189 | of two clients in a room, what the later one to join is sent is the end of what the other is sent |
| `Delivery.StepHears` | src/server/workers/server-worker.cpp:116-189 | what one step sends to a client of a room: to a joined one the stretch of the log distributed in it, to another nothing |
| `Delivery.TickEchoes` | src/server/workers/server-worker.cpp:179-189 | the lines a tick sends one client of one room are all the room's undistributed events if it has joined, else none |
| `Delivery.ShowsAfterAsking` | src/server/workers/server-worker.cpp:133-144 | what a joined client shows after a history request for any number of events: the replied part of the log, then the log from the first event that was undistributed when it asked, the latest 999 of these |
| `Delivery.NoGapOnJoining` | src/server/workers/server-worker.cpp:133-189 | with 100 events asked for and no more than 100 logged: every event up to the request, then every event since the start of that tick |
| `Gaps.ShowsPositions` | src/server/workers/server-worker.cpp:133-144 | which events of the log a client shows after a history request, by position, with the limit of 999 |
| `Gaps.NoneSkippedExactly` | src/server/workers/server-worker.cpp:47-58 | none of them is missing between the oldest shown and the last distributed exactly if everything was asked for, or no more is retained than was asked for and is still to be distributed together, or 999 or more were distributed since |
| `Gaps.SomeDoubledExactly` | src/server/workers/server-worker.cpp:145-155 | one is shown twice exactly if some were still to be distributed, some of them were replied, and they were distributed since with no more than 998 in all |
| `MissedLines.LineMissed` | src/server/workers/server-worker.cpp:47-58 | a reachable state: 101 lines were said in one tick, a client joins in the next and asks for 100, and lacks the last line |
| `Delivery.ReplyOfLog` | src/server/workers/server-worker.cpp:47-58 | the reply in terms of the room's whole log |
| `StaleLines.StaleLinesExactly` | src/server/workers/server-worker.cpp:171-189 | after a tick that destroys a room, a client that was sent the list no longer lists it, and shows under its name exactly the lines said in that tick if it had joined, nothing if not, whatever it kept under the name before |
| `StaleLines.ShownInNewRoom` | src/client/workers/chatwindow-worker.cpp:120-133 | creating a room keeps what is shown under its name |
| `Replicas.ShowsEchoes` | src/client/client-ui/chatwindow.cpp:125-132 | while a room is listed and its history not rewritten, the client shows what it showed followed by the room's lines, the latest 999 |
| `Replicas.StaysListed` | src/client/client-ui/chatwindow.cpp:125-132 | histories belong to listed rooms, and a message keeps it so unless it is a line of a room that is not listed |
| `Replicas.OldLineInNewRoom` | src/client/client-ui/chatwindow.cpp:125-172 | a line after its room's ROOM_DESTROY is shown in the next room of that name |
| `ServerRun.HistoryTracksRooms` | src/server/workers/server-worker.cpp:179-197 | between ticks no room is marked, no event waits, only rooms have histories, and a room's history is the latest 999 of what was accepted since it was created |
| `ServerRun.NewRoomStartsEmpty` | src/server/workers/server-worker.cpp:102-115 | in whatever state, a room that is created again starts without history |
| `ServerRun.StepKeeps` | src/server/workers/server-worker.cpp:85-197 | every step of the server keeps names valid and distinct, doomed rooms and announced names in agreement, and histories and undistributed events in agreement with the logs |
| `ServerRun.SurvivesTick` | src/server/workers/server-worker.cpp:192-197 | a room outlives a tick exactly when it is not named among those to destroy, with its clients that still exist and no events |
| `Effects.TickEffects` | src/server/workers/server-worker.cpp:90-197 | over a whole tick: afterwards exactly those rooms are listed that were before, or that a request taken in it created, its name being good and not taken, and that no request taken asked to destroy; each client of the tick, and no other, is told once of each room created, and of a room to be destroyed as often as that was asked for |
| `Effects.MembersExactly` | src/server/workers/server-worker.cpp:102-132 | who has joined a room after any step: those who had, and the client of the message taken if it asks to join a listed room or creates the room; at the end of a tick those whose connection exists, if the room still does |
| `Effects.TakeReplies` | src/server/workers/server-worker.cpp:97-144 | only the sender is answered, and only a request for the list, with one list of all rooms, and a request for a listed room's history of 0 to 100 events, with one history: its oldest retained events, by author, text and time |
| `Effects.InitialRooms` | src/server/workers/server-worker.cpp:71-77 | at the start exactly the configured rooms with good names are listed, and nobody has joined one |
| `Effects.InitialOrder` | src/server/workers/server-worker.cpp:71-77 | in the configured order, if all names are good and differ |
| `Effects.ConnectedInOrder` | include/tavernmx/server.h:257-260 | those who stay in a room keep their order |
| `ServerRun.SendKeepsLog` | src/server/workers/server-worker.cpp:145-155 | an accepted line goes to the end of its room's events and into its history |
| `ServerLoops.Tick` | src/server/workers/server-worker.cpp:85-197 | the tick in place: the new rooms and histories, and what every client is sent |
| `TickRuns.TickIsRun` | src/server/workers/server-worker.cpp:85-197 | what a tick in place does is what some run of single steps does, which takes exactly the messages that had come in, client by client and in order, each for its client's user and at the next reading of the clock; so that the theorems about runs hold of it |
| `ServerLoops.Gather` | src/server/workers/server-worker.cpp:94-161 | all messages of all clients processed in order, with the replies in the right queues |
| `ServerLoops.TakeMessages` | src/server/workers/server-worker.cpp:95-160 | one client's queue is emptied in order |
| `ServerLoops.GatherJoinedOnce` | include/tavernmx/server.h:268-277 | whatever is asked for, nobody is in a room's list of clients twice |
| `ServerTicks.FinishTick` | src/server/workers/server-worker.cpp:163-197 | all creates, then all destroys to the clients of the tick, then each room's events to its clients, and the clean-up |
| `ServerTicks.Broadcast` | src/server/workers/server-worker.cpp:165-176 | one message to each client of the tick |
| `ServerTicks.DistributeRooms` | src/server/workers/server-worker.cpp:179-189 | each room loses the clients that are gone and its events; each client that is left gets them, room by room |
| `ServerTicks.CleanUp` | src/server/workers/server-worker.cpp:192-197 | histories of destroyed rooms and the rooms themselves go |
| `ServerWorkers.ServerWorker.ProcessMessage` | src/server/workers/server-worker.cpp:96-159 | one message processed in place, with its reply; what that comes to is in `Effects.TickEffects`, `Effects.MembersExactly`, `Effects.TakeReplies` and `Authorship.LineIsShown` |
| `ServerWorkers.ServerWorker.CreateInitial` | src/server/workers/server-worker.cpp:71-77 | the rooms of the configuration, without invalid and repeated names |
| `ServerWorkers.JoinRoom` | include/tavernmx/server.h:268-277 | a client is added unless it is there |
| `ServerWorkers.StillConnected` | include/tavernmx/server.h:257-260 | the clients whose connection still exists, in their order |
| `ServerWorkers.EventsToMessages` | src/server/workers/server-worker.cpp:29-36 | a chat line message for each event, in order, for the room of that name, with the event's author and text and its time up to 32 bits |
| `HistoryStores.HistoryStore.Insert` | src/server/workers/server-worker.cpp:39-44 | a new or existing history with the event added, the latest 999 |
| `HistoryStores.HistoryStore.Rewrite` | include/tavernmx/client-ui.h:352-363 | the history replaced by the latest 999 of the given events, whatever it was |
| `HistoryStores.HistoryStore.Keep` | src/client/client-ui/chatwindow.cpp:166-170 | histories of rooms that are not listed go |
| `Messages.AddHistoryEvent` | src/shared/messaging.cpp:123-142 | the event is appended by author, text and time up to 32 bits, and the count kept in step |
| `Messages.BuildHistory` | src/server/workers/server-worker.cpp:47-58 | the reply to a request: the oldest retained events, as many as asked for or all if none were asked for, each with its author, text and time up to 32 bits |
| `Messages.ReplyIsOldest` | src/server/workers/server-worker.cpp:47-58 | the reply holds the oldest retained events in order, its count is their number, and it exceeds what was asked for exactly if nothing was asked for and something is retained |
| `Messages.ZeroAsksForAll` | src/server/workers/server-worker.cpp:50-55 | a request for nothing that gets two events |
| `ChatWindows.ChatWindow.HandleMessage` | src/client/workers/chatwindow-worker.cpp:99-166 | one message handled in place |
| `ChatWindows.ChatWindow.RoomChanged` | src/client/workers/chatwindow-worker.cpp:169-173 | the user picks a room: that entry and its name are selected, and it is asked for, with a history of 100, if it is listed and not joined |
| `ChatWindows.ChatWindow.ChatSubmit` | src/client/workers/chatwindow-worker.cpp:175-211 | the user submits a line: one that does not start with a slash goes as it is to the room of the selected entry and to no other, or nowhere if nothing is selected; a command queues what `UserInput.CommandQueues` says; and nothing but the queue changes |
| `UserInput.SubmitQueues` | src/client/workers/chatwindow-worker.cpp:175-211 | in a window that agrees with itself: a line is queued once, for the room of the selected entry on display; a command of two words queues a request for its second word if it spells `/create_room` and the name is good, or `/destroy_room` and the room is listed; anything else queues nothing |
| `UserInput.CommandQueues` | src/client/workers/chatwindow-worker.cpp:183-201 | the same for a command as it is typed, in small or capital letters, with any blanks between its words and behind them |
| `UserInput.PickSelects` | src/client/workers/chatwindow-worker.cpp:169-173 | the picked entry is selected, its room joined, no other room's join changes, and a join and a request for 100 events are queued exactly if it was not joined |
| `UserInput.ListedInOrder` | src/client/workers/chatwindow-worker.cpp:102-113 | the rooms of a list with good and different names are the window's rooms in the list's order, none joined |
| `Commands.Tokenize` | src/shared/util.cpp:8-26 | the loop that splits a command into words |
| `Commands.FirstWord` | src/shared/util.cpp:8-26 | a command has a first word, which starts with its first character |
| `Commands.TokensJoin` | src/shared/util.cpp:8-26 | cutting input at any delimiter cuts its words into those before and those behind |
| `Commands.OneToken` | src/shared/util.cpp:8-26 | input without the delimiter is one word, or none if it is empty |
| `Commands.LowerSpells` | src/shared/util.cpp:28-35 | text in small letters is a given word exactly if it spells the word letter by letter, each small or capital |
| `ChatWindows.ChatWindow.ShowRooms` | src/client/client-ui/chatwindow.cpp:146-172 | the list on display, the first room selected, histories of other rooms gone |
| `ChatWindows.ChatWindow.SelectRoomByName` | src/client/client-ui/chatwindow.cpp:135-144 | the named room selected if it is on display, else nothing changed |
| `ChatWindows.ChatWindow.IssueRoomJoinIfNeeded` | src/client/workers/chatwindow-worker.cpp:26-39 | a join and a history request queued unless the room is joined already |
| `ClientSpec.HandleFollows` | src/client/workers/chatwindow-worker.cpp:99-166 | the handler does to rooms and histories what following the server means, whatever is selected |
| `ClientSpec.DestroyFinds` | src/client/workers/chatwindow-worker.cpp:134-150 | destroying a room takes away that room and no other |
| `Selection.SelectedIsJoined` | src/client/workers/chatwindow-worker.cpp:99-173 | over all sequences of messages and user actions in a first connection: no rooms and no selection, or index and name agree, the room is listed and joined, and a join directly followed by a history request was queued for it |
| `Selection.HandleSettles` | src/client/workers/chatwindow-worker.cpp:102-150 | a message changes the selection only if the selected room goes; then the first room is selected, or none |
| `Selection.JoinedWasAsked` | src/client/workers/chatwindow-worker.cpp:26-39 | a room that was not joined and now is was asked for in between |
| `Selection.AskedOnce` | src/client/workers/chatwindow-worker.cpp:26-39 | as long as a room stays and no list arrives, its join is queued once, when it turns joined |
| `Selection.ListSettles` | src/client/workers/chatwindow-worker.cpp:102-119 | a room list makes any window agree with itself, whatever it was like |
| `Selection.ListMakesAsked` | src/client/workers/chatwindow-worker.cpp:102-119 | over any rooms left from an earlier connection: from every list on, whatever else happens, the window agrees with itself and the selected room was asked for since that list |
| `Selection.SelectedAskedExactly` | src/client/workers/chatwindow-worker.cpp:16-18 | whatever arrives and the user does, the selected room was asked for in this connection, exactly if there is no leftover room or a single one that is not marked as joined |
| `Selection.LeftoverMarkSuppressesJoin` | src/client/workers/chatwindow-worker.cpp:31-38 | one leftover room marked as joined and a ROOM_CREATE before the first list: the room is selected and its mark suppresses the join |
| `Selection.LeftoverSelectedUnjoined` | src/client/workers/chatwindow-worker.cpp:134-150 | two leftover rooms and a ROOM_DESTROY before the first list: a room is selected that was never asked for |
| `Links.TakenIsPrefix` | src/server/workers/client-worker.cpp:17-66 | however a connection runs, what is popped at one end is a prefix of what was queued at the other, in both directions, and while it works nothing is missing in between |
| `Links.StepKeeps` | src/client/workers/serverconnection-worker.cpp:46-89 | every step of either worker, of the handshake and of the queues' users keeps it so |
| `Links.HelloKeeps` | src/shared/connection.cpp:46-66 | waiting for HELLO throws nothing away, because HELLO travels alone |
| `Links.AckKeeps` | src/shared/connection.cpp:68-87 | nor does waiting for the answer, though the server may have sent more behind it; the room list request is then the first message under way |
| `Pumps.WaitFor` | src/shared/connection.cpp:46-87 | a wait ends at the first poll whose block holds a wanted message, with the first one in it, or at the first poll after the time is up |
| `Pumps.FirstOfAll` | src/shared/connection.cpp:46-66 | what a wait finds is the first wanted message of all that arrived |
| `Pumps.FoundIsFirst` | src/shared/connection.cpp:52-58 | what is found in a block is wanted and nothing before it is; nothing is found exactly if nothing is wanted |
| `Pumps.AnsweredOrQueued` | src/server/workers/client-worker.cpp:38-56 | of a block, each heartbeat is acknowledged once, ACK and NAK are dropped, and every other message is queued once |
| `Pumps.ClientWorker.Iterate` | src/server/workers/client-worker.cpp:36-66 | what one turn queues, answers and sends |
| `Pumps.ServerMessageWorker.Iterate` | src/client/workers/serverconnection-worker.cpp:46-89 | the same at the client, with the heartbeat: one is sent exactly if none is outstanding and more than 30 seconds have passed since the last block, and the worker gives up, sending nothing, exactly if one is outstanding, that much has passed, and the outstanding one is older than that |
| `Pumps.WorkServer` | src/client/workers/serverconnection-worker.cpp:33-89 | over the whole loop: a turn writes its answers, a heartbeat exactly if by the times of the turns so far none is outstanding and more than 30 seconds have passed since the last block, and what was queued; the loop ends in exactly the first turn in which one is outstanding for more than 30 seconds in such a silence |
| `Pumps.ServerTurn` | src/server/workers/client-worker.cpp:29-56 | a turn of the server's worker on a connection is its step in a run of the connection |
| `Pumps.ClientTurn` | src/client/workers/serverconnection-worker.cpp:33-89 | a turn of the client's worker is its step, with a heartbeat if one is due, or the loss of the connection if it gives up |
| `Pumps.OneHeartbeatOutstanding` | src/client/workers/serverconnection-worker.cpp:25-82 | on a clock that does not run backwards: at most one heartbeat since the last block, sent after more than the timeout; the window waits exactly while one is outstanding, or while the flag an earlier connection left has not been cleared by a block |
| `Pumps.GivesUpAfterSilence` | src/client/workers/serverconnection-worker.cpp:71-82 | the worker gives up only after more than two timeouts without a block |
| `PoolTheorems.NoLostWakeup` | include/thread-pool/BS_thread_pool.hpp:907-926 | in every interleaving, if the waiter is blocked and nothing is queued or running, some worker is between its decrement and its notify, or has dequeued the last task and not yet counted it |
| `PoolTheorems.LookingNotifies` | include/thread-pool/BS_thread_pool.hpp:915-918 | left alone, such a worker notifies within five steps, though it reads the three variables one after the other |
| `PoolTheorems.WaitMeansFinished` | include/thread-pool/BS_thread_pool.hpp:761-775 | when `wait` succeeds everything submitted so far has finished, each task as often as it was submitted |
| `PoolTheorems.QueuedAsAsked` | include/thread-pool/BS_thread_pool.hpp:459-466 | every task a thread calls the pool with is queued, in that order and once each, but for one that its caller is about to queue |
| `PoolTheorems.WaitFinishesAll` | include/thread-pool/BS_thread_pool.hpp:761-775 | so when `wait` succeeds exactly the tasks that the pool was ever called with have finished |
| `PoolTheorems.TasksAccountedFor` | include/thread-pool/BS_thread_pool.hpp:907-943 | tasks are dequeued once each in the order they were queued, and each is queued, in one worker's hands or finished; `tasks_running` is the number of workers not past their decrement, and never more than the thread count |
| `PoolTheorems.RefusesExactly` | src/server/main.cpp:59-68 | a client is refused exactly while every worker is counted as running |
| `PoolTheorems.RefusesBeforeStart` | include/thread-pool/BS_thread_pool.hpp:857-868 | which they all are until their threads have started |
| `PoolTheorems.NoTaskLeftToSleepers` | include/thread-pool/BS_thread_pool.hpp:459-466 | while a worker of a running pool sleeps, there are as many workers on their way to the queue and notifies due as there are queued tasks |
| `PoolTheorems.WaitingIsNotDeadlock` | include/thread-pool/BS_thread_pool.hpp:761-775 | while the owner waits, a worker can step or a thread is in the middle of submitting |
| `PoolTheorems.JoinCountsDown` | include/thread-pool/BS_thread_pool.hpp:873-884 | after `destroy_threads` has notified nobody sleeps, and each worker step brings the workers strictly nearer to having all left |
| `PoolTheorems.JoinIsNotDeadlock` | include/thread-pool/BS_thread_pool.hpp:873-884 | and some thread can step until they have, when the joins go through |
| `PoolInvariants.StepKeeps` | include/thread-pool/BS_thread_pool.hpp:907-943 | every step of every thread keeps the pool's invariant |
| `LoopBlocks.RepairUnreachable` | include/thread-pool/BS_thread_pool.hpp:965-984 | the repair of an empty block size never runs |
| `LoopBlocks.BlocksTile` | include/thread-pool/BS_thread_pool.hpp:992-1006 | the blocks are not empty, follow each other from the start of the range to its end, and differ in size by at most one |
| `LoopBlocks.EveryIndexInOneBlock` | include/thread-pool/BS_thread_pool.hpp:992-1006 | every index of the range is in exactly one block |
| `Framing.SizeRoundTrip` | src/shared/messaging.cpp:46-50 | reading the length back gives the length written, for all 32-bit lengths, and the other way round |
| `Framing.BigEndianOrders` | src/shared/messaging.cpp:70-73 | the first byte is the most significant: the lengths' order is that of their bytes, the first that differs deciding |
| `Framing.SmallSizeLast` | src/shared/messaging.cpp:70-73 | a length below 256 is in the last byte, behind three zeros |
| `Framing.MessageBlock.SetPayload` | include/tavernmx/messaging.h:37-40 | payload and size set together |
| `Framing.MessageBlock.ApplyBuffer` | src/shared/messaging.cpp:24-64 | what one read does to a block, in place |
| `Framing.PackBlock` | src/shared/messaging.cpp:66-76 | header, length, payload |
| `Framing.ReceiveMessage` | src/shared/ssl.cpp:78-98 | the loop over reads computes what `Receive` says, and how many reads it uses |
| `Framing.ReceivedExactly` | src/shared/ssl.cpp:87-97 | a packed block comes back whole, with exactly its own bytes read, if and only if the first read reaches into the payload and some read ends where the block ends, for any bytes before the header without its first character |
| `Framing.WaitsForTheRest` | src/shared/ssl.cpp:89-92 | as long as the end of a block is not read, the call goes on, with all of the payload that was read |
| `Framing.PayloadMissed` | src/shared/ssl.cpp:87-97 | what comes back when the first read does not reach the payload |
| `Framing.StrayByteLoses` | src/shared/messaging.cpp:29-37 | the header's first character before a header hides it from that read |
| `Framing.ReceivesFront` | src/shared/ssl.cpp:78-98 | one call reads exactly the reads of the block in front |
| `Framing.ReceivesAllSent` | src/shared/ssl.cpp:78-98 | over a whole connection the blocks received are the blocks sent, in order |
| `RingBuffers.RingBuffer.Insert` | include/tavernmx/ringbuffer.h:125-137 | the item is the latest, and of all items the latest capacity - 1 remain |
| `RingBuffers.RingBuffer.Reset` | include/tavernmx/ringbuffer.h:152-157 | nothing remains, and every slot is empty |
| `RingBuffers.RingBuffer.Tail` | include/tavernmx/ringbuffer.h:89-94 | the oldest item, if any |
| `RingBuffers.RingBuffer.Size` | include/tavernmx/ringbuffer.h:166-174 | the number of items, or the capacity if the buffer is full |
| `RingBuffers.RingBuffer.Full` | include/tavernmx/ringbuffer.h:117-119 | whether capacity - 1 items are there |
| `RingBuffers.RingBuffer.Forward` | include/tavernmx/ringbuffer.h:39-44 | an iteration meets the items, oldest first, and no empty slot |
| `RingBuffers.RingBuffer.Backward` | include/tavernmx/ringbuffer.h:52-59 | a reverse iteration meets them in reverse |
| `RingBuffers.WindowMoves` | include/tavernmx/ringbuffer.h:219-224 | stepping the head, and the tail when the head meets it, drops exactly the oldest item of a full buffer |
| `RingBuffers.KeepsTheLatest` | include/tavernmx/ringbuffer.h:125-157 | over any run of insertions and resets the items are the latest capacity - 1 since the last reset |
| `RoomManagers.RoomManager.CreateRoom` | include/tavernmx/room.h:137-147 | a new room at the end, of that name and with nothing marked, exactly if its name is valid and not taken, else nothing |
| `Rooms.OneCharacterName` | src/shared/room.cpp:5-15 | of the names of one character exactly the ASCII letters and digits are valid, by their codes |
| `Rooms.JoinedNames` | src/shared/room.cpp:5-15 | two valid names with any number of hyphens between them are valid exactly if they have at most 25 characters together |
| `Rooms.LongerNames` | src/shared/room.cpp:5-15 | and there are no other valid names |
| `Rooms.NameHolds` | src/shared/room.cpp:5-15 | a valid name has 1 to 25 characters, none but letters, digits and hyphens, and no hyphen at either end |
| `RoomManagers.RoomManager.Lookup` | include/tavernmx/room.h:170-179 | the room of that name exactly if it is listed |
| `RoomManagers.RoomManager.Clear` | include/tavernmx/room.h:184-187 | no rooms |
| `RoomManagers.RoomManager.RemoveDestroyedRooms` | include/tavernmx/room.h:192-201 | the marked rooms go, and the list of names with them |
| `Rooms.ManagerAgrees` | include/tavernmx/room.h:137-201 | over any run of operations names are valid and distinct, and a lookup finds exactly the listed names |
| `Rooms.SweepFinds` | include/tavernmx/room.h:192-201 | a sweep keeps exactly the rooms that are not marked, unchanged |
| `Rooms.SweepInOrder` | include/tavernmx/room.h:192-201 | and in their order |
| `RoomLists.CreateRoomList` | include/tavernmx/messaging.h:249-256 | the loop that fills the sorted object |
| `RoomLists.ListCarriesNames` | include/tavernmx/messaging.h:249-256 | the message carries exactly the names, each once |
| `RoomLists.OrderKept` | include/tavernmx/messaging.h:249-256 | in their order exactly if there are at most ten |

## Left out

- OpenSSL, sockets and certificates: a connection delivers written blocks in order until it breaks; how a read returns is a sequence of chunks.
- nlohmann::json and MessagePack: messages are values, and a payload is its bytes; a room list keeps the one property of JSON objects that matters here, the order of keys.
- Messages that are malformed or of type Invalid, and all `assert`s: taken as compiled out, and as not sent by either program.
- Clients refused with NAK because the server is full, and handshakes that time out: such a connection never opens.
- The interleaving of the user interface's or the server's pushes with the connection's workers within one handler or one step: one message handled, or one end of a tick, is one step in `world.dfy`. `Links.TakenIsPrefix` holds for pushes one by one.
- `ServerLoops.Tick`: takes the clients' queues as they stand at its start; messages that arrive while it runs are in the runs of `server_run.dfy`, where the server may take any message.
- `ServerLoops.Gather`: likewise takes the queues as they stand.
- `ServerLoops.TakeMessages`: likewise takes the queue as it stands.
- `Commands.Lower`: only ASCII letters, as in the default locale; the text of a timestamp is not modelled.
- Clocks: the time at which the server takes a message is a parameter of the step, not a reading of a clock that runs on; in `server_run.dfy` alone so is the user's name, which in `world.dfy` is that of the sender's HELLO.
- Real time: sleeping and loop pacing do nothing; the heartbeat works on readings of a clock.
- Rendering, fonts and colours, scroll position, the connect screens, configuration and logging.
- Pool features the repository does not use: priority, pause, purge, futures, timed or several waiters, resizing.
- `LoopBlocks.BlocksTile`: indices are unbounded integers, so ranges whose size overflows are not modelled.
- Shutting down the server, and the exceptions that end a worker.
