# LanShare, modelled and proved

LanShare moves files and formatted text between two browsers, directly where the network
allows it and through its own relay where it does not. This project models the parts of it
in which the order of events, the bookkeeping or the rewriting is what makes it right, and
proves what those parts promise over every run, every interleaving and every input.

How it is laid out, from the transfer of files downwards:

- **Transfers** (`TransferProtocol`, `TransferSystem`, `TransferInvariant`, `TransferSafety`,
  `TransferOrder`, `TransferRuns`, `TransferCompletes`). Two Conversations exchange batches,
  documents, chunks and confirmations over any number of ordered transports, in both directions
  at once. Dialogs are answered at any time, waits time out, users cancel, transports close with
  messages in flight.
  `TransferStrays` shows what goes wrong when transports are switched or questions answered
  carelessly, from any careful state. `TransferCompletes` is about getting done: what is sent
  and accepted arrives whole, every job is accounted for, texts are neither lost nor made up.
  `TransferEngine` is the same engine as classes that update their fields in place, proved
  equal, step by step, to the functions the theorems are about.
- **The hub** (`HubSystem`). A step system with one reader and one writer goroutine per
  connection, a blocking queue of 64 and a separate step for every stretch of code between
  taking and releasing a lock. `HubSafety` and `HubRoster` are about rooms and identities,
  `HubSessions`, `SessionView` and `HubTraffic` about relay sessions, `HubRace` about the race
  between a session's announcement and its close, `HubProgress` about deadlock and draining.
  `HubAnswers` says in full what each connection's goroutine sends to each other one, and that it
  acts on every message; `HubDepartures` what becomes of names, displaced connections and the
  sessions a departure leaves.
  `HubEngine` changes the tables in place, `RosterReplay` is the roster as browsers rebuild it.
- **The relay's ends** (`RelayProtocol`, `RelayCredit`, `RelayEngine`, `RelayChannel`).
  Framing, credit, acknowledgements and progress, and the relay as a channel from one
  client's send to the other's onMessage.
- **Both over the hub** (`TransferOverRelay`, `CreditOverRelay`). Two Conversations, and the two
  ends of a session with their counters, on sessions of one hub run: each does, turn by turn,
  only what `TransferSystem`, or `RelayCredit`, lets it do, so what is proved there about runs
  holds here.
- **The direct path** (`DirectLink`, `DirectLinkEngine`). Offer collisions over the signaling
  states of section 3.2 of RFC 8829, with rollback per its section 4.1.10.2.
- **The sanitizer** (`Strings`, `StyleCleaner`, `StyleLaws`, `Sanitizer`, `SanitizerLaws`,
  `SanitizerDom`). The style rewriter on strings, the tree pass as a function, and the walk that
  moves and removes nodes in place. The two modules of laws say what becomes of each declaration
  and each attribute without the sanitizer's own vocabulary, both ways.
- **Smaller parts**: the STUN responder (`Stun`, `StunServer`, sections 6, 15, 15.1 and 15.2 of
  RFC 5389) and the image budget (`ImageBudget`).

What the theorems take for granted, because the code does:

- A transfer moves to another transport with care. There are two ways, both enough for
  delivery. Either nothing of an earlier stream is still in flight elsewhere (`Drained`); or
  only end markers are, and nobody says yes to a transfer its sender has given up (`Attended`),
  which also puts every chunk in its place. The care is needed: from any careful state, a
  batch begun while a chunk is in flight elsewhere can be saved with foreign bytes in it
  (`TransferStrays.StrayChunkCorrupts`), a start marker left behind can take the bytes of the
  next transfer (`StrayDocumentSwallows`, `StrayFileSwallows`), a late yes can put a file's
  bytes into a document (`LateYesMisplaces`, `LateYesHappens`), and where an end marker is left
  behind it can have a file saved with foreign bytes (`StrayEndSaves`, `StrayEndHappens`).
- Every message of a Conversation other than a chunk reads back from its JSON text.
- Files are received in memory. With a file handle the code awaits `createWritable` before it
  opens the inbound slot, and chunks that arrive meanwhile are ignored.
- For the order of traffic and the shape of a session, the session's own two ends speak of it
  only once they have read its announcement (`HubSessions.Polite`). What everyone else names is
  up to them, even though `closeRelay` deletes a session whoever asks. Isolation, the roster and
  freedom from deadlock hold whatever anyone names.
- For the order of traffic, fewer than 2^32 - 1 sessions have been opened, so that an id is
  never used for a second session.
- Signaling between the two ends of a direct link is in order and loses nothing. As far as the
  server goes that is proved: `HubAnswers.SignalsAreSent` and `HubAnswers.EveryAnswerIsDue`.

Where the code and what is written about it part, the model follows the code:

- A departing target can close a session after it is in the table and before its opener is
  told, so an opener can be handed a close and then the announcement. `HubRace.CloseDecides`
  says when: the race is decided as the target's goroutine queues the close for the opener,
  by whether the opener's announcement is still to be queued. It is not decided when the
  target tears its sessions down: from one such state both outcomes are possible
  (`HubRace.EitherCanWin`). A target that has not left never causes it
  (`HubTraffic.RelayIsFifo`).
- The style rewriter is not idempotent: it tests a declaration before it removes the space
  before the colon. `StyleCleaner.OnePassSuffices` says exactly when one pass is enough.
- The rewriter keeps a declaration if one of its addresses is a data: one, where its comment
  wants all of them to be. It keeps the promise for a declaration with one address
  (`StyleCleaner.OneAddressIsData`); behind a data: address any tail passes that is not blocked
  for a reason of its own (`StyleCleaner.TailRidesAlong`).
- A displaced connection may still announce a name. `RosterReplay.LateNameInforms` says exactly
  when that leaves everyone informed. If its replacement bears another name the room is misled
  (`RosterReplay.StaleNameMisleads`); if the replacement has left, the room lists a member that
  is in nobody's room, which the displaced connection's departure does not take back
  (`RosterReplay.StaleNameHaunts`). Both states
  are reachable (`RosterReplay.StaleNamesHappen`).

## Model

| member | source | states |
|---|---|---|
| TransferRuns.DoneMeansDelivered | web/js/transfer.js:295-383 | in every careful run of either kind, for both directions at once: transfers reported done are, in order, among those saved; nothing is saved twice; everything saved is byte for byte what was sent under that name |
| TransferRuns.BatchInOrder | web/js/transfer.js:329-357 | when file i of a batch is reported done, files 1 to i are at the receiver, complete and in batch order |
| TransferRuns.ConfirmedFilesAreSaved | web/js/transfer.js:385-393 | a confirmation the sender has acted on means the receiver holds that file with exactly its bytes |
| TransferRuns.SavedWasGiven | web/js/transfer.js:222-293 | what is saved at one end is among the files and documents the user gave to send at the other |
| TransferRuns.EveryByteInItsPlace | web/js/transfer.js:541-565 | in every attended run, what is open at either end holds the leading bytes of what its name stands for, and the next chunk to arrive on any transport is the next of those bytes |
| TransferCompletes.SendingCompletes | web/js/transfer.js:222-383 | from every state in which A is not sending, for every live transport that may be used and everything that can be sent, there is a careful way on, the other user saying yes if asked, after which every file has been saved byte for byte and reported done in order, and the lock given back |
| TransferCompletes.SendingBackCompletes | web/js/transfer.js:222-383 | the same for what B sends |
| TransferCompletes.SaysNo | web/js/transfer.js:307-311 | when the other user says no, the job ends declined and reported so, and nothing of it is opened or saved |
| TransferCompletes.JobsEndAccountedFor | web/js/transfer.js:313-356 | whenever a job ends in a careful run, all its files have been reported done, in order and last, or it was declined, cancelled between two files, failed at one of its files and said so, or was never answered; one that goes on undisturbed has gone through its whole batch |
| TransferCompletes.CancelledSendsNoMore | web/js/transfer.js:313-364 | once a job is cancelled nothing more of its files goes out but an end marker |
| TransferCompletes.TextsArrive | web/js/transfer.js:210-213 | in every run, however careless, for what A sends B: the texts shown that came by a transport are the first of those sent by it, in order, the rest are on it while it lives, and nothing else is shown |
| TransferStrays.StrayChunkCorrupts | web/js/transfer.js:295-305 | from every careful state, a non-empty batch begun on one transport while a chunk of an earlier stream is in flight on another can end saved with more bytes than were sent |
| TransferStrays.StrayDocumentSwallows | web/js/transfer.js:498-539 | from every careful state, a document's start marker left behind on another transport can take the first chunk of the next batch |
| TransferStrays.StrayFileSwallows | web/js/transfer.js:465-492 | from every attended state, a file's start marker left behind can take the first chunk of the next document |
| TransferStrays.StrayEndSaves | web/js/transfer.js:443-463 | from every attended state in which the question about an earlier batch is still open, a careful move that leaves behind the end marker of a file still open, with only messages about other things ahead of it, has a way on that ends undelivered; exactly one step of it, a yes to that question, lacks care |
| TransferStrays.StrayEndHappens | web/js/transfer.js:443-463 | such a state is reachable in attended use |
| TransferStrays.LateYesMisplaces | web/js/transfer.js:507-539 | in every careful state in which a chunk is next and the user is asked about a document large enough for it, a yes puts the chunk into that document, and it is a chunk of something else |
| TransferStrays.LateYesHappens | web/js/transfer.js:507-539 | a concrete run, drained at every switch, in which a late yes puts a byte of a file into a document |
| TransferStrays.StraySwitchCorrupts | web/js/transfer.js:174-178 | a concrete run in which a job begun on another transport too early is confirmed with foreign bytes in it |
| TransferRuns.StepKeeps | web/js/transfer.js:401-425 | every step of either end, and every closing transport, keeps the joint invariant of both directions |
| TransferEngine.Conversation.constructor | web/js/transfer.js:173-198 | a new conversation is in the protocol's initial state |
| TransferEngine.Conversation.HandleMessage | web/js/transfer.js:401-425 | in place, what each message does to every field and what is sent back |
| TransferEngine.Conversation.SettleDecision | web/js/transfer.js:427-433 | only the decision being waited for is taken, once |
| TransferEngine.Conversation.SettleAck | web/js/transfer.js:435-441 | a confirmation resolves the wait for its own file and no other |
| TransferEngine.Conversation.HandleFileStart | web/js/transfer.js:465-492 | a file is opened only if it is of the accepted batch |
| TransferEngine.Conversation.HandleDocStart | web/js/transfer.js:498-539 | a document is refused, asked about or opened by its declared size |
| TransferEngine.Conversation.HandleChunk | web/js/transfer.js:541-565 | a chunk goes to the open slot; a document that outgrows its size is cut off |
| TransferEngine.Conversation.HandleEnd | web/js/transfer.js:567-610 | an end marker saves and confirms the open file or document of that kind and name only |
| TransferEngine.Conversation.SettleDialog | web/js/transfer.js:443-463 | an answered dialog accepts or declines the batch or document it asked about |
| TransferEngine.Conversation.Send | web/js/transfer.js:281-293 | a second transfer is refused while one is running |
| TransferEngine.Conversation.TransportReady | web/js/transfer.js:295-307 | fresh names are given out and the job is announced |
| TransferEngine.Conversation.Proceed | web/js/transfer.js:307-357 | one stretch of the sender between two awaits |
| TransferEngine.Conversation.GiveUp | web/js/transfer.js:318-393 | a wait that times out or fails gives back the lock and forgets what it waited for |
| TransferEngine.Conversation.CancelBatch | web/js/transfer.js:395-397 | a cancelled batch is noted and nothing else changes |
| TransferEngine.MemorySink.Write | web/js/transfer.js:93-95 | a chunk is added to what the sink holds |
| TransferEngine.MemorySink.Abort | web/js/transfer.js:112-114 | an aborted sink holds nothing |
| TransferEngine.MemorySink.Finish | web/js/transfer.js:97-110 | the copying loop returns the concatenation of the chunks written |
| TransferEngine.Pump | web/js/transfer.js:359-383 | the loop on offset puts out the blob's chunks in order, all of them, or all before the first offset at which it is cancelled or the path is lost |
| TransferEngine.ChunksJoin | web/js/transfer.js:363-369 | the chunks of a blob are non-empty, within the chunk size, and join to the blob |
| TransferEngine.OpenDocumentsStayBounded | web/js/transfer.js:498-588 | for every sequence of messages and answers, well formed or not, an open document holds exactly the bytes counted, within its declared size and the cap |
| TransferEngine.WhatIsSavedWasStreamed | web/js/transfer.js:541-610 | for every sequence of messages and answers, well formed or not, what is saved under a name is exactly the chunks heard between a start and the end marker of that kind and name |
| HubAnswers.EveryAnswerIsDue | internal/server/peer.go:165-197 | for every two connections of every run: what the one's goroutine has queued for the other is the first of what the operations it carried out owe to it, in order, and while the other is open, with what is still to be queued, all of it; announcements of joins, names and departures, signals, session announcements, frames, acknowledgements, problems, and, by themselves, closes |
| HubAnswers.EveryRequestIsActedOn | internal/server/peer.go:140-197 | each message taken from a client is carried out, once and in order, but for the one in hand |
| HubAnswers.SignalsAreSent | internal/server/peer.go:166-179 | each signal one connection has from another answers one its client sent to this identity, same body, the sender's own identity, in order |
| HubDepartures.NameIs | internal/server/peer.go:190-195 | a connection goes by the name its client last gave |
| HubDepartures.NewerTurnsOut | internal/server/hub.go:41-59 | in every run, a connection that has joined and is open stands in its room under its identity, or a goroutine is about to close it because a newer one has taken its place |
| HubDepartures.DepartureEndsSessions | internal/server/relay.go:135-151 | once a connection that held its entry has left and its goroutine is done, no session it opened is in the table, and none that was there when it left names it |
| HubSafety.RoomsNeverMix | internal/server/hub.go:33-126 | in every run, whatever ids clients name, mail comes from one's own room, roster entries stand under their own room and identity, sessions join two distinct connections of one room, queues are bounded |
| HubSafety.StepKeeps | internal/server/relay.go:42-151 | every fine-grained step keeps that invariant, pending operations included |
| HubRoster.LatestWins | internal/server/hub.go:33-106 | the entry of an identity is the most recent join under it that has not left; no empty room is kept |
| HubRoster.OwnFind | internal/server/hub.go:85-94 | a connection that leaves removes the entry of its identity if it still holds it, and leaves it to the connection that displaced it otherwise |
| HubRoster.LeaveFindsSame | internal/server/hub.go:91-94 | a departure changes the entry of no other identity |
| HubSessions.NextIsFree | internal/server/relay.go:53-67 | without wrap-around the allocated id is the next one and was never used |
| HubSessions.StepTraceable | internal/server/relay.go:77-151 | whatever ids clients name, frames about a session are only ever queued for or handed to its two ends, and a client that speaks of one has read its announcement or is on record as not having |
| HubSessions.AnnouncedToEnd | internal/server/relay.go:73-74 | whoever has read the announcement of a session is one of its two ends |
| SessionView.Promised | internal/server/relay.go:118-151 | what follows for one session from what its two ends' mailboxes and goroutines keep |
| HubTraffic.RelayIsFifo | internal/server/relay.go:77-151 | for every session of every run whose own two ends waited for its announcement, whatever all others do: traffic is handed over in order and without gaps; the target hears announcement, traffic, at most one close; the opener too if and only if no close was queued for it before its announcement, which happens only when the target has left; at most one close in all |
| HubTraffic.DeliveredInOrder | internal/server/peer.go:65-112 | for every such session, what is delivered about it is a prefix of what was sent about it |
| HubTraffic.StepFlows | internal/server/peer.go:140-197 | every step keeps the view of every session whose own ends wait right, whatever others name and whatever else shares queues and sockets |
| HubRace.CloseDecides | internal/server/relay.go:68-74 | for every session whose own ends waited, when the target's goroutine queues the close for the opener the outcome is settled: if the opener's announcement is still to be queued the opener never hears it first, otherwise what the opener hears keeps its shape for ever |
| HubRace.CloseCanOvertake | internal/server/relay.go:68-74 | a run from an empty server, in which nobody speaks of a session too early, hands the opener the close before the announcement |
| HubRace.EitherCanWin | internal/server/relay.go:134-151 | from one reachable state after the target's teardown, one run hands the opener the close first and another the announcement first |
| HubRace.Delivers | internal/server/peer.go:97-112 | whatever is queued for an open connection can be delivered without anything else happening |
| HubProgress.StuckMeansIdle | internal/server/peer.go:65-75 | no deadlock: if no goroutine can move and no client can read, everything has been dealt with |
| HubProgress.BacklogDrains | internal/server/peer.go:97-162 | from every reachable state, work in any order ends within the state's weight, and ends with everything dealt with |
| HubProgress.FreeIdExists | internal/server/relay.go:53-67 | whenever fewer than 2^32 - 1 sessions are live the counter finds a free id |
| HubProgress.WorkLightens | internal/server/peer.go:140-162 | every step of a goroutine, and every read of a client, uses up some of the weight |
| HubEngine.Hub.constructor | internal/server/hub.go:24-29 | a new hub is empty and valid |
| HubEngine.Hub.Others | internal/server/hub.go:129-137 | the loop over a room lists everyone but one identity exactly once, with their names |
| HubEngine.Hub.Join | internal/server/hub.go:33-59 | in place: who is displaced, who is told, and the rooms after, as in the step system |
| HubEngine.Hub.Leave | internal/server/hub.go:78-99 | in place: only the connection that holds the entry removes it, and an emptied room goes |
| HubEngine.Hub.FindPeer | internal/server/hub.go:122-126 | a connection is found only in its own room under its own identity |
| HubEngine.Hub.Allocate | internal/server/relay.go:53-67 | the loop ends, with the first free nonzero id after the counter; every key stays its session's own id |
| HubEngine.Hub.Route | internal/server/relay.go:81-91 | the far end of a known session of one's own, or nobody |
| HubEngine.Hub.CloseRelay | internal/server/relay.go:118-131 | the session goes whoever asks, and the far end of a member is to be told |
| HubEngine.Hub.ClosePeerSessions | internal/server/relay.go:135-151 | exactly the departing connection's sessions are taken out, each listed once |
| RosterReplay.ReplayIsTheRoom | web/js/app.js:83-97 | replaying an open connection's messages gives exactly the room minus itself, names included |
| RosterReplay.LateNameInforms | internal/server/hub.go:110-118 | a name announced late leaves every open client informed if and only if the connection holds its entry, or the entry's holder bears that name, or nobody told is open |
| RosterReplay.StaleNameMisleads | internal/server/hub.go:110-118 | whenever a displaced connection announces a name its replacement does not bear, every other open member is left with it |
| RosterReplay.StaleNameHaunts | internal/server/hub.go:110-118 | whenever it does so after its replacement has left, every other open member lists an identity that is in nobody's room, and its own departure tells them nothing |
| RosterReplay.StaleNamesHappen | internal/server/hub.go:33-118 | runs from an empty server that reach both situations |
| RosterReplay.StepInforms | internal/server/hub.go:33-118 | joins, departures, displacements, deaths and renamings keep every open client informed |
| RelayProtocol.FrameRoundTrip | web/js/relay.js:109-118 | a frame gives the server its session, and the far end its session, kind and body |
| RelayProtocol.FrameLayout | web/js/relay.js:109-113 | on the wire: the session most significant byte first, the kind, the body; the server reads that session back |
| RelayProtocol.FrameInjective | web/js/relay.js:5-8 | different messages never make the same frame |
| RelayProtocol.U32Back | web/js/signaling.js:96 | a session id written big endian reads back |
| RelayChannel.MessagesArriveInOrder | web/js/signaling.js:94-99 | for every session whose own ends waited for its announcement, whatever others do, the messages that reach onMessage are the first of those passed to send, in order, per session and direction |
| RelayChannel.SendPasses | web/js/relay.js:100-118 | a message sent is one frame, for its own session and for no other |
| TransferOverRelay.RelayRunIsTransferRun | web/js/transfer.js:199-202 | whatever the server and all other clients do, what two Conversations do over sessions of one hub run is, turn by turn, a run of the transfer system, with the same two ends |
| TransferOverRelay.DeliveredOverRelay | web/js/relay.js:100-137 | in every such careful run, against the names that run registers: transfers reported done are saved, in order and once, and what is saved is what was registered; in attended use what is open holds leading bytes of its own name and the next chunk carries it on |
| TransferOverRelay.SavedOverRelay | web/js/transfer.js:567-610 | whatever is saved at one end is, byte for byte, one of the files or documents given to send at the other |
| TransferOverRelay.NextFrameMayGo | web/js/relay.js:109-118 | at either end, once the session is announced to it, the frame of the message passed to send next may go on the socket |
| CreditOverRelay.RelayRunIsCreditRun | web/js/relay.js:109-141 | whatever the server and all other clients do, what the two ends' counters do over a session of a hub run is, turn by turn, a run of the credit system |
| CreditOverRelay.WindowOverRelay | web/js/relay.js:150-153 | in every such run the four counters nest and unacknowledged file bytes stay within the window plus a chunk |
| CreditOverRelay.NoStallOverRelay | web/js/relay.js:157-171 | in every such run, while the session and its two connections live, a sender out of credit is waiting for a server or client step that can be taken, a frame still to go on a socket, or something handed over and not yet dealt with |
| RelayCredit.CountersNest | web/js/relay.js:78-81 | acked, acknowledged, received and sent are always in that order across the two ends |
| RelayCredit.CreditHolds | web/js/relay.js:150-153 | unacknowledged file bytes never exceed the window plus a chunk, texts interleaved or not |
| RelayCredit.WindowIsReached | web/js/relay.js:150-153 | that bound, 4 MB and a chunk, is reached by a run |
| RelayCredit.NoStall | web/js/relay.js:124-127 | with nothing under way the shortfall is less than the acknowledgement interval, so a sender out of credit has something under way |
| RelayCredit.CreditComesBack | web/js/relay.js:157-171 | delivering what is under way takes a bounded number of steps and leaves both ends with credit |
| RelayCredit.PumpFinishes | web/js/transfer.js:363-371 | a pump of any number of bytes, begun in any reachable state of a whole path, is carried to its end: every order of its turns and the deliveries is bounded, and while bytes remain some turn is possible |
| RelayCredit.ProgressIsHonest | web/js/transfer.js:372-379 | the progress reported for a file is at most what the receiver has taken in of it |
| RelayCredit.ConfirmedMeansAcknowledged | web/js/transfer.js:595-600 | when a file's confirmation arrives, everything through its end marker has been acknowledged |
| RelayCredit.StepKeeps | web/js/relay.js:120-153 | sending, receiving, acknowledging, flushing and losing the path keep the joint invariant |
| RelayEngine.Signaling.Send | web/js/signaling.js:105-109 | a message goes out exactly when the socket is connected |
| RelayEngine.Signaling.RouteBinary | web/js/signaling.js:94-99 | a frame reaches the transport of its session and no other |
| RelayEngine.RelayTable.HandleRelayAck | web/js/relay.js:32-34 | an acknowledgement reaches the transport of its session and no other |
| RelayEngine.RelayTable.HandleRelayClose | web/js/relay.js:36-38 | a close takes its transport out of the table and off the socket |
| RelayEngine.RelayTransport.constructor | web/js/relay.js:84-90 | a new transport is registered under its session, counters at zero |
| RelayEngine.RelayTransport.Send | web/js/relay.js:100-107 | nothing is sent once the session or the socket is closed |
| RelayEngine.RelayTransport.Write | web/js/relay.js:109-118 | the buffer filled in place is the frame, and only body bytes are counted |
| RelayEngine.RelayTransport.Receive | web/js/relay.js:120-137 | a payload is counted, acknowledged when due, and handed on |
| RelayEngine.RelayTransport.BufferedAmount | web/js/relay.js:96-98 | what is sent and not acknowledged |
| RelayEngine.RelayTransport.Writable | web/js/relay.js:150-153 | a chunk may be sent while no more than 4 MB is unacknowledged |
| RelayEngine.RelayTransport.ApplyAck | web/js/relay.js:139-141 | the acknowledged count never falls |
| RelayEngine.RelayTransport.MarkClosed | web/js/relay.js:143-148 | a closed transport is no longer reached by frames or control messages |
| RelayEngine.RelayTransport.FlushAck | web/js/relay.js:173-177 | everything received is acknowledged, unless it was already |
| RelayEngine.RelayTransport.Close | web/js/relay.js:179-183 | the server is told once |
| DirectLink.NegotiationSettles | web/js/peer.js:159-179 | whenever everything is at rest after a start, both ends are stable on the same offer and answer, and a dropped offer's sender has answered the other's |
| DirectLink.OnlyImpoliteDrops | web/js/peer.js:167-173 | the polite end never drops an offer, and the impolite one only with an offer of its own |
| DirectLink.NegotiationEnds | web/js/peer.js:104-114 | rest is always reached, within fourteen steps |
| DirectLink.OneIsPolite | web/js/peer.js:84-86 | of two different identities exactly one is polite |
| DirectLink.EitherMayStart | web/js/peer.js:98-179 | whichever end starts alone, a run leads to both settled on its offer and the other's answer |
| DirectLink.OffersMayCross | web/js/peer.js:159-179 | a run in which both start at once, the impolite end drops the other's offer and both settle on its own |
| DirectLink.LessIs | web/js/peer.js:84-86 | the polite one is the one whose identity comes first, by code unit |
| DirectLink.StepKeeps | web/js/peer.js:104-179 | offers, answers, rollbacks and refusals keep the joint invariant |
| DirectLinkEngine.Link.constructor | web/js/peer.js:78-88 | a new link has no connection and knows its politeness |
| DirectLinkEngine.Link.Start | web/js/peer.js:98-141 | a connection is made once, and not on a closed link |
| DirectLinkEngine.Link.NegotiationNeeded | web/js/peer.js:104-107 | the link notes that it is making an offer |
| DirectLinkEngine.Link.HandleDescription | web/js/peer.js:159-175 | a colliding offer is refused by the impolite end only; everything else is queued |
| DirectLinkEngine.Link.Complete | web/js/peer.js:107-112 | what completing an operation does to the connection, and what is then signaled |
| StyleCleaner.CleanStyleLoop | web/js/sanitize.js:197-212 | the loop collecting kept declarations computes the rewriting |
| StyleCleaner.TwoPassesSuffice | web/js/sanitize.js:197-212 | three passes equal two on every string |
| StyleCleaner.OnePassSuffices | web/js/sanitize.js:200-209 | one pass is already idempotent if and only if no declaration that would be kept has a property ending in the script scheme's name |
| StyleCleaner.OnePassIsNotEnough | web/js/sanitize.js:205-206 | a concrete attribute that one pass keeps and the second drops |
| StyleCleaner.TwiceCleanIsSafe | web/js/sanitize.js:62-67 | after two passes every declaration passes all three filters |
| StyleCleaner.RewriteAgain | web/js/sanitize.js:200-209 | a rewritten declaration is kept as it is, unless its property ends in the script scheme's name |
| StyleCleaner.OneAddressIsData | web/js/sanitize.js:59-64 | every kept declaration with exactly one address has a data: address there |
| StyleCleaner.TailRidesAlong | web/js/sanitize.js:59-64 | a kept declaration with a data: address is kept with any tail, addresses included, that adds no blocked text |
| StyleCleaner.OneDataUrlIsEnough | web/js/sanitize.js:59-64 | a concrete declaration kept for one data: address although another is not one |
| StyleLaws.OneDeclaration | web/js/sanitize.js:197-212 | one declaration, in whatever white space, is kept as property and value, or dropped exactly if it says expression(, behavior:, -moz-binding, javascript:, @import, any case, or has an address and no data: one, or sets position or z-index |
| StyleLaws.NoDeclaration | web/js/sanitize.js:201-204 | what has no colon, or none after anything but white space, is dropped |
| StyleLaws.SeveralDeclarations | web/js/sanitize.js:199-211 | of several declarations each is treated as it would be alone, in order, and what is left is joined |
| Sanitizer.Settles | web/js/sanitize.js:107-146 | cleaning three times is cleaning twice, for every tree, attributes and order included |
| Sanitizer.Absorbs | web/js/rich.js:140-145 | the strict pass after the permissive one is the strict pass twice |
| Sanitizer.AttrsSettle | web/js/sanitize.js:156-194 | an element's attributes, their order and the link's target and relation settle after two passes |
| Sanitizer.CleanIsSafe | web/js/sanitize.js:12-57 | a cleaned tree holds only text and allowed elements, allowed attributes, images with a permitted source, and links whose address is normalised and http:, https:, mailto: or tel:, in a tab of their own |
| Sanitizer.StylesAreSafe | web/js/rich.js:140-145 | in every tree cleaned twice, in whatever modes, every declaration of every style passes the three filters |
| Sanitizer.CleanRewrites | web/js/sanitize.js:156-170 | each cleaning takes every style that stays in the tree through the rewriter once more |
| Sanitizer.CleanKeepsText | web/js/sanitize.js:107-154 | a cleaned tree reads, text and elements in order, exactly as the original outside dropped subtrees and removed images |
| SanitizerLaws.LinksAre | web/js/sanitize.js:172-183 | a link keeps its address, normalised, if and only if it parses to one of the four schemes, and opens in a tab of its own if and only if it does |
| SanitizerLaws.ImagesAre | web/js/sanitize.js:185-193 | an image keeps its source if and only if it is embedded image data, or an http address where those are allowed, and each size if and only if it is a number |
| SanitizerLaws.OthersAre | web/js/sanitize.js:157-170 | of every other attribute, a style stays as the rewriter leaves it, what is allowed stays as it is, and nothing else stays |
| SanitizerLaws.AttributesInOrder | web/js/sanitize.js:159-183 | what stays keeps its place, a link's target and relation come last |
| SanitizerLaws.NothingRuns | web/js/sanitize.js:24-40 | whatever is cleaned, the result has no element that runs, loads or submits anything, no event handler, class or id |
| SanitizerDom.Dom.Sanitize | web/js/sanitize.js:91-92 | the in-place walk over a document computes the tree function |
| SanitizerDom.Dom.CleanChildren | web/js/sanitize.js:107-112 | the walk over a snapshot cleans every child, whatever becomes of its siblings, and touches nothing else |
| SanitizerDom.Dom.CleanNode | web/js/sanitize.js:114-146 | a node gives way to what the tree function makes of it, in its place among its siblings |
| SanitizerDom.Dom.Unwrap | web/js/sanitize.js:149-154 | moving first children before the element leaves the children in order and the element gone |
| SanitizerDom.Dom.CleanAttributes | web/js/sanitize.js:156-194 | the attributes changed in place are the function's |
| SanitizerDom.Dom.SiftAttributes | web/js/sanitize.js:159-170 | the loop over a static copy filters and rewrites each attribute once |
| Stun.ResponseReadsBack | internal/stun/stun.go:97-124 | for every accepted packet and every source, a generic reader consumes the response exactly, its length is right and a multiple of four, and both addresses read back to the source |
| Stun.WalkInverts | internal/stun/stun.go:126-136 | padded attributes read back, for any attribute list |
| Stun.MessageRoundTrip | internal/stun/stun.go:117-123 | any message whose attributes fit reads back |
| Stun.RequestsAreAnswered | internal/stun/stun.go:98-109 | every well-formed Binding request, with whatever attributes, is answered with its own transaction |
| Stun.MappedReads | internal/stun/stun.go:168-180 | MAPPED-ADDRESS reads back to address and port |
| Stun.XorMappedReads | internal/stun/stun.go:141-165 | XOR-MAPPED-ADDRESS reads back to address and port |
| Stun.AddressIsSource | internal/stun/stun.go:145-154 | the address told stands for the source's own, IPv4 within IPv6 included |
| Stun.XorBits | internal/stun/stun.go:150-152 | exclusive or sets exactly the bits in which its arguments differ |
| Stun.XorMappedBits | internal/stun/stun.go:141-165 | what is sent differs from the port exactly where the cookie's upper half has a bit, and from the address exactly where cookie and transaction have one |
| Stun.SampleIPv4 | internal/stun/stun.go:141-165 | the XOR-MAPPED-ADDRESS of the sample response of section 2.2 of RFC 5769, byte for byte |
| Stun.WhatIsAnswered | internal/stun/stun.go:98-109 | a packet is answered if and only if it has twenty bytes, begins with 00 01 and has the cookie in place |
| Stun.XorTwice | internal/stun/stun.go:150-152 | exclusive or with the same key undoes itself |
| StunServer.AppendAttr | internal/stun/stun.go:128-136 | the padding loop writes one attribute's encoding |
| StunServer.AppendXorMappedAddress | internal/stun/stun.go:141-165 | the XOR loops write the attribute for either family |
| StunServer.AppendMappedAddress | internal/stun/stun.go:168-180 | the attribute for either family is appended |
| StunServer.BuildResponse | internal/stun/stun.go:97-124 | each malformed packet is refused for its own reason, any other answered |
| StunServer.Server.Serve | internal/stun/stun.go:76-94 | exactly the answered requests are counted |
| ImageBudget.BudgetHolds | web/js/rich.js:75-108 | under every interleaving: six runners, or one for each image, no more than that in progress, no image in two hands, what is used is the initial size and the lengths accepted, within the cap |
| ImageBudget.EveryImageHandled | web/js/rich.js:181-191 | when the runners have finished every image has been handled once and the counts add up |
| ImageBudget.OutcomeIs | web/js/rich.js:78-108 | under every interleaving: an image ends inlined with n bytes if and only if it was fetched with that length and fitted when it arrived, kept if and only if it was embedded and fitted at its turn, dropped otherwise |
| ImageBudget.RunnersFinish | web/js/rich.js:181-191 | every run has at most two steps for each image and one for each runner, and while a runner has not finished some step is possible |
| ImageBudget.Inliner.KeepEmbedded | web/js/rich.js:82-90 | an embedded image stays exactly if it fits; what stays is charged, what does not is counted as dropped |
| ImageBudget.Inliner.Embed | web/js/rich.js:92-107 | a fetched image stays exactly if it was fetched and fits; what stays is charged and counted as inlined, what does not is counted as dropped |
| ImageBudget.Inliner.Take | web/js/rich.js:184-186 | runners take the images one by one |

## Left out

- `StreamSink`, picked file handles and downloads: browser calls; the awaited `createWritable` leaves a gap in which chunks are ignored.
- TransferRuns.DoneMeansDelivered: attended use also forbids moving away from a file's start marker before a batch of files, where a drained receiver would ignore it; it matters before a document (`TransferStrays.StrayFileSwallows`).
- TransferOverRelay.DeliveredOverRelay: is about transports that are relay sessions, closed at both ends at once; the counters of such a session are in `CreditOverRelay`, which tells messages by their sizes and does not say what a Conversation makes of them.
- `abortAll`: it resolves pending confirmations, so "done" would no longer mean delivered.
- Failures of a receiver's reply after a file is saved, and the progress and rate events of the transfer engine; progress on the relay is in `RelayCredit`.
- Times: timeouts, heartbeats and send timeouts are steps in which a wait fails or a connection closes, at any moment.
- TransferSystem: the user may answer dialogs in any order; text decoding and JSON parsing are not modelled, malformed messages are one kind of message.
- HubTraffic.RelayIsFifo: does not cover an id used for a second session after 2^32 - 1 allocations, because frames carry no other mark of their session.
- RosterReplay.ReplayIsTheRoom: is about a coarser model of the hub than `HubSystem`, not derived from it, which takes each operation as one step and closed connections as silent; in between, messages of concurrent joins and departures can reach a client in either order.
- Frames queued for a connection that is already closed: the queue may accept or refuse them, and nobody can tell.
- The order in which a welcome lists names, devices and addresses of connections, statistics, HTTP, tokens and cookies.
- A relay transport's socket backpressure (`bufferedAmount` of the WebSocket), which only makes a sender wait longer.
- ICE candidates, data channel events and the flag that forgives candidates of a dropped offer, beyond keeping the flag.
- Signaling that is lost while a socket reconnects.
- HTML parsing and serialisation: the sanitizer is modelled on trees whose attribute names are distinct and in lower case, as the parser leaves them; URL parsing is any function under which normalised addresses parse to themselves.
- SanitizerDom: nodes are entries of one store that refer to each other by key; a removed node's entry stays behind, unreachable.
- Fetching and reading images: any outcome, at any time.
- `PeerLink`'s choice of path: a transfer may be given any transport.
- User interface, diagnostics, name and device filters, subnet keys, firewall and certificate handling: each is settled by reading one function.
