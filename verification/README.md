# The fleet-manager client, modelled and verified

This project models the C++ client with which a device or a pilot talks to the fleet manager's facade,
and proves what it keeps on every run. It follows the client's layers.

| layer | value specification | objects | results |
|---|---|---|---|
| run-to-completion executor | `EventMachine` | `StateMachine` | order, conservation, one task at a time, progress, stalling |
| facade stream | `FacadePump`, `PumpDelivery` | `ClientBackend` | write order, one WRITE and one READ, the drain loop, what is read and handed on, what crosses sessions |
| channel table | `Channels`, `ChannelTheory` | `ChannelsHandler` | validation and closing of any list, pointers, books of insertions and removals |
| protocol machines | `Pilot`, `Device` | `StateContext`, `PilotClient`, `DeviceClient` | invariants and observers over every run, heartbeats, outcomes, provenance |
| the whole client | `ClientSystem` and the `System...` modules | | one poll task, delivery, sessions, handler messages on the wire, events handled, the books of the completion queue |

**Form.** Code that changes things step by step is a class whose methods follow the source's methods, loops
included; each method's `ensures` ties the new state to a function of the old one, and the theorems are about
these functions. `PilotClient.PilotClient.HandleEvent` and `DeviceClient.DeviceClient.HandleEvent` connect the
two: one call is one `Step`, so every lemma about `Run` is about every sequence of calls.

**The world outside** is part of the input. A channel description carries the behaviour of its remote end
(`Remote`: connecting throws, the request cannot be serialized, sending throws, reading throws, or an answer
comes back); an `Env` carries the answers of the core, of opening and closing the stream, of the location
provider, and the order in which the hash table lists its keys. Completions of gRPC operations come in any
order in which they are due. Theorems hold for all of them.

**How a handler ends** is explicit. `Running`: it returned. `Threw`: an exception left it; the event machine
then never starts another handler (`EventMachine.StalledForGood`), so a run ends there. `Undefined`: it used
the result of an unchecked lookup that found nothing, or a pointer to an erased channel, which C++ gives no
meaning to. `PilotOutcomes.OutcomeExactly` and `DeviceOutcomes.OutcomeExactly` say which events end how,
exactly. `HandleEvent` requires that the event is not of the third kind, because the code assumes so, and
then throws exactly when that function says.

**Observers** (`Observers`, `Tallies`, `Provenance`, `Watching`) read only the trace of what can be seen from outside -
messages, listener events, openings and closings, channels made and removed - and never a protocol state. They
are the reference definitions that the protocol machines are held against; `TraceMeaning`, `OwnershipMeaning` and
`Conversation` say in plain positions of the trace what their verdicts mean, `ListenerGrammar` and `PilotGrammar` in
words of a grammar, and the theorems are stated in these terms.

## What the code does that one might not expect

Where the code departs from what its structure suggests, the model follows the code and a lemma says exactly when.

- Messages still queued when a session is closed go out in the next session, right after its SETUP
  (`PumpTheory.LeftoverReachesNextSession`). The wire follows the order of the calls exactly in sessions that
  began with an empty queue (`PumpTheory.FifoExactly`).
- A READ that completes well while the stream is being closed, or opened, is discarded: a session opened
  at rest can lose its last message, and no other (`PumpDelivery.ClosingLosesMessage`, `SystemDelivery.SessionDelivery`).
- If CLOSE completes before an outstanding READ or WRITE, that operation survives into the next session. The
  READ makes an event own a buffer that gRPC has still to fill (`PumpDelivery.EarlyCloseHandsOutLiveBuffer`); the
  WRITE makes two outstanding at once (`PumpTheory.EarlyCloseDoublesWrite`). Delivery holds if and only if no such
  READ is handed on (`SystemDelivery.DeliveryExactly`), and a session flows if and only if it was opened with nothing
  outstanding (`SystemDelivery.SessionFlowsExactly`).
- A live channel whose id is validated again and fails is erased without being closed and without the listener
  being told; this happens exactly to the ids with some failing description (`TableInvariant.ForgottenExactly`,
  `DeviceTheorems.ReattachForgetsExactly`). If an earlier description of the same list was accepted, a pointer
  to the erased channel is used (`ChannelTheory.PointersLiveExactly`).
- An exception during validation leaves the entry of the channel being opened in the table, if its socket could
  be built, besides the channels accepted before it (`ChannelTheory.ThrowLeavesExactly`); none of them is reported
  (`TableInvariant.ValidationReportsNothing`), and the client is stalled for good.
- The user's RELEASE of a pilot only removes all channels; the pilot stays in Operating
  (`PilotOutcomes.UserReleaseEmptiesTable`). Ending the session is up to the server.
- The user's rejection of a handover is sent with `ACCEPTED`, and CONTROL_RELEASED is obeyed whether or not the
  user agreed (`PilotConversation.MessagesAnswerEvents`, `PilotTheorems.OwnershipFollowsHistory`).
- The pilot's Recovering state absorbs every event, heartbeats included.

## Model

| member | source | states |
|---|---|---|
| `EventMachine.RunsAreOrderly` | include/system/IStateMachine.hpp:45-63 | under every interleaving of notifiers, deferring and recalling handlers, and any number of io_service threads: accepted events are handled, in flight or queued, once each and in the order of notification; at most one task is posted or running; the machine is idle only with nothing to do |
| `EventMachine.EndKeepsOrder` | include/system/IStateMachine.hpp:125-138 | both ways in which a task can end, by `proceed` and by an exception that skips it, keep order and conservation |
| `EventMachine.OnlyOneRuns` | include/system/IStateMachine.hpp:125-150 | whenever a handler runs it is the only one, and no other is posted |
| `EventMachine.DeferredComeBack` | include/system/IStateMachine.hpp:75-92 | under every interleaving the events accepted are those notified and those recalled, each recall bringing back the event deferred longest, once; what was not recalled is kept in order |
| `EventMachine.StalledForGood` | include/system/IStateMachine.hpp:48-52 | after an exception nothing is ever handled again: later notifications only lengthen the queue |
| `EventMachine.DrainHandlesAll` | include/system/IStateMachine.hpp:125-138 | as long as handlers return, every accepted event is handled, in order, and the machine comes to rest |
| `StateMachine.StateMachine.NotifyEvent` | include/system/IStateMachine.hpp:45-63 | the new state is `Notify` of the old: queued when processing, posted otherwise; order is kept |
| `StateMachine.StateMachine.Defer` | include/system/IStateMachine.hpp:75-80 | appends to the deferred events and leaves the rest |
| `StateMachine.StateMachine.Recall` | include/system/IStateMachine.hpp:82-92 | the event deferred longest is notified anew; with none deferred nothing changes |
| `StateMachine.StateMachine.BeginTask` | include/system/IStateMachine.hpp:120-123 | the task taken is the only one of the machine anywhere |
| `StateMachine.StateMachine.Proceed` | include/system/IStateMachine.hpp:125-138 | exactly the next queued event is posted; processing goes on exactly if there was one |
| `StateMachine.StateMachine.Abort` | include/system/IStateMachine.hpp:140-150 | an exception leaves no task anywhere while the machine stays marked as processing |
| `ClientBackend.ClientBackend.Send` | source/backend/ClientBackend.cpp:129-149 | new state is `SendMessage` of the old, and the pump's flow invariant is kept |
| `ClientBackend.ClientBackend.OpenFacadeConnection` | source/backend/ClientBackend.cpp:184-210 | throws exactly unless a good OPEN is what completes in time; the new session flows if and only if nothing was outstanding, and its leftover is the old queue |
| `ClientBackend.ClientBackend.ProceedGrpcQueue` | source/backend/ClientBackend.cpp:212-257 | one poll is `Polled`: which buffer is handed to an event, the next READ, whether the task is posted again, failed completions ignored; the flow invariant is kept |
| `ClientBackend.ClientBackend.CloseFacadeConnection` | source/backend/ClientBackend.cpp:94-127 | for every outcome of the waits, timeouts after the first included: the drain loop ends after at most one completion for each outstanding operation and one more; it throws exactly unless the last one is a good CLOSE; the queue of unsent messages stays |
| `PumpTheory.SessionFlows` | source/backend/ClientBackend.cpp:129-149 | under every interleaving of `send` with completions: at most one WRITE and one READ outstanding, written and queued messages together are the sent ones in order with the leftover after the first, and a queued message of a session that sent something implies `sending` |
| `PumpTheory.FifoExactly` | source/backend/ClientBackend.cpp:139-148 | written plus queued equals sent, in call order, if and only if the session began with an empty queue |
| `PumpTheory.DrainEnds` | source/backend/ClientBackend.cpp:109-116 | bound and conservation of the drain loop for every order of completions |
| `PumpTheory.SessionDrainEnds` | source/backend/ClientBackend.cpp:98-126 | closing a flowing session takes at most three completions; the last is CLOSE unless an opening given up earlier completes just then; nothing is left outstanding exactly if it took them all |
| `PumpTheory.LeftoverReachesNextSession` | source/backend/ClientBackend.cpp:202-204 | all that is queued at closing is written in the next session, in order, after that session's first message |
| `PumpTheory.QueueMayOutliveSession` | source/backend/ClientBackend.cpp:98-143 | a session is closed in good order with a message queued: its second one, while the first was being written |
| `PumpTheory.OpenFlowsExactly` | source/backend/ClientBackend.cpp:197-204 | a session flows from its opening if and only if no READ and no WRITE was outstanding when it was opened |
| `PumpTheory.EarlyCloseDoublesWrite` | source/backend/ClientBackend.cpp:109-116 | if CLOSE completes before the WRITE, the next session's first message makes two outstanding WRITEs |
| `PumpDelivery.ReadIsFollowedByRead` | source/backend/ClientBackend.cpp:225-234 | a poll that read a message leaves a READ outstanding into a buffer never used before, which the next event will get; as many READs are outstanding as before |
| `PumpDelivery.OnlyReadsAreHandedOn` | source/backend/ClientBackend.cpp:229-234 | a poll hands out the buffer at hand exactly if it took a good READ |
| `PumpDelivery.FailuresAreIgnored` | source/backend/ClientBackend.cpp:219-227 | a completion that failed changes nothing of the client: its operation is no longer outstanding, and no other begins |
| `PumpDelivery.EarlyCloseHandsOutLiveBuffer` | source/backend/ClientBackend.cpp:229-233 | if CLOSE completes before the READ, the next session hands out a buffer that is empty and still being filled |
| `PumpDelivery.ClosingDiscards` | source/backend/ClientBackend.cpp:109-116 | the drain loop discards exactly the messages that it reads |
| `PumpDelivery.OpeningDiscards` | source/backend/ClientBackend.cpp:193-198 | an opening discards exactly the message of the READ it takes in place of its OPEN |
| `PumpDelivery.ClosingLosesMessage` | source/backend/ClientBackend.cpp:111-116 | a closing otherwise in order loses a message: the READ completes well in the drain loop |
| `PumpDelivery.SessionShortfall` | source/backend/ClientBackend.cpp:229-234 | of a session opened at rest, what polls handed on is all that was read while the stream is open, and later all or all but the last |
| `PumpDelivery.PollDeliversExactly` | source/backend/ClientBackend.cpp:229-234 | a poll keeps every event's buffer holding its own message if and only if it does not take a good READ into another buffer than the one it hands out (and that one does not happen to hold the same message) |
| `PumpDelivery.RestedMakesNoMistake` | source/backend/ClientBackend.cpp:229-234 | that never happens in or after a session opened at rest, until the next opening |
| `ChannelTheory.ValidateThrowsExactly` | source/backend/ChannelsHandler.cpp:132-161 | validating a list throws if and only if for some description there is no socket class (TCP, or UDP without TLS), or connecting or sending throws |
| `ChannelTheory.ValidateMembers` | source/backend/ChannelsHandler.cpp:60-83 | for any list, repeats and existing ids included: an id is in the table afterwards if and only if for its last description a socket exists and the remote end said yes, or it was there and is not listed |
| `ChannelTheory.ValidateFlags` | source/backend/ChannelsHandler.cpp:67-80 | an old channel and its ownership flag survive if and only if no description of its id failed; every other channel there is a new one, not owned |
| `ChannelTheory.ValidateResult` | source/backend/ChannelsHandler.cpp:71-82 | the result is the accepted descriptions, in list order |
| `ChannelTheory.PointersLiveExactly` | source/backend/ChannelsHandler.cpp:70-79 | every returned pointer refers to a channel of the table if and only if no accepted description is followed by a failing one of the same id |
| `ChannelTheory.ThrowLeavesExactly` | source/backend/ChannelsHandler.cpp:66-71 | what an exception leaves: the table as the descriptions before the throwing one made it, and an entry for its id if and only if its socket could be built |
| `ChannelTheory.ThrowLeavesIds` | source/backend/ChannelsHandler.cpp:66-71 | the ids of the table after an exception, for any list |
| `ChannelTheory.CloseMembers` | source/backend/ChannelsHandler.cpp:85-101 | closing any list removes exactly the named channels and leaves every other entry as it was |
| `ChannelTheory.CloseEverything` | source/backend/ChannelsHandler.cpp:103-111 | closing all keys in any iteration order empties the table |
| `ChannelTheory.SetOwnedMeaning` | source/backend/ChannelsHandler.cpp:113-120 | marking is defined if and only if every id is present, and then marks exactly the named channels |
| `ChannelTheory.ValidateKeepsBalance` | source/backend/ChannelsHandler.cpp:60-83 | every channel ever inserted stays accounted for: insertions equal live plus dropped plus closed |
| `ChannelTheory.CloseKeepsBalance` | source/backend/ChannelsHandler.cpp:85-111 | the same for closing, repeats and missing ids included |
| `ChannelsHandler.ChannelsHandler.BuildSocket` | source/backend/ChannelsHandler.cpp:132-161 | throws if and only if the protocol is unknown, or is UDP with TLS |
| `ChannelsHandler.ChannelImpl.Open` | source/traffic/ChannelImpl.cpp:26-65 | the outcome against the remote end: accepted if and only if it answered yes; an exception if and only if connecting or sending throws; refused in every other case |
| `ChannelsHandler.ChannelsHandler.GetChannels` | source/backend/ChannelsHandler.cpp:38-47 | the live channels of the named ids, in order; requires the ids to be present, as the unchecked lookup does |
| `ChannelsHandler.ChannelsHandler.GetAllChannels` | source/backend/ChannelsHandler.cpp:27-36 | every channel of the table, in the table's iteration order |
| `ChannelsHandler.ChannelsHandler.ValidateChannels` | source/backend/ChannelsHandler.cpp:60-83 | the in-place loop computes `Validate` of the old table; on return the result and the members are as the list predicates say |
| `ChannelsHandler.ChannelsHandler.CloseChannels` | source/backend/ChannelsHandler.cpp:85-101 | the in-place loop removes exactly the named channels and computes `Close` |
| `ChannelsHandler.ChannelsHandler.CloseAllChannels` | source/backend/ChannelsHandler.cpp:103-111 | closing each and then clearing equals closing one by one |
| `ChannelsHandler.ChannelsHandler.SetOwned` | source/backend/ChannelsHandler.cpp:113-120 | after the loop a channel is owned if and only if it was or is named |
| `ChannelsHandler.ChannelsHandler.SetChannelOwned` | source/backend/ChannelsHandler.cpp:122-125 | one flag changes, no other |
| `TableInvariant.ForgottenExactly` | source/backend/ChannelsHandler.cpp:76-80 | a live channel is erased by a validation if and only if some description of its id fails |
| `TableInvariant.ReportAndClose` | source/state/pilot/connected/ClosingChannels.cpp:76-78 | telling the listener and then closing keeps the table and the reports in agreement |
| `TableInvariant.ValidatedAwait` | source/state/pilot/connected/ValidatingChannels.cpp:30-41 | after a validation the table holds what was reported and, besides, exactly the validated channels |
| `TableInvariant.ValidationReportsNothing` | source/backend/ChannelsHandler.cpp:60-83 | however a validation ends, of the channels then in the table the listener knows exactly those that were there before; after an exception the others stay unreported |
| `StateContext.StateContext.HandleHeartbeat` | source/backend/HeartbeatHandler.cpp:28-37 | one reply, with the key of the heartbeat and the present location |
| `StateContext.StateContext.DefaultMessageHandle` | source/state/IState.cpp:72-83 | a well-formed heartbeat is answered, anything else changes nothing |
| `PilotClient.PilotClient.StartInner` | source/state/pilot/connected/ValidatingChannels.cpp:30-41 | the entry actions, the table changed in place, equal the value machine's; an exception is told |
| `PilotClient.PilotClient.HandleUserEvent` | source/state/pilot/connected/Operating.cpp:42-70 | what each inner state makes of a user event, for every state and event |
| `PilotClient.PilotClient.ValidatingMessage` | source/state/pilot/connected/ValidatingChannels.cpp:69-95 | marks, reports and moves on exactly as the value machine does; requires the ids it looks up unchecked |
| `PilotClient.PilotClient.OpeningMessage` | source/state/pilot/connected/OpeningChannels.cpp:68-93 | accepted: validate the offered channels; rejected: report and return |
| `PilotClient.PilotClient.ClosingMessage` | source/state/pilot/connected/ClosingChannels.cpp:69-107 | removal accepted, rejected, or overtaken by the server's release |
| `PilotClient.PilotClient.OperatingMessage` | source/state/pilot/connected/Operating.cpp:92-119 | update, control asked back, release, or default |
| `PilotClient.PilotClient.RequestingMessage` | source/state/pilot/connected/RequestingControl.cpp:74-105 | the handover's acquisition, message by message |
| `PilotClient.PilotClient.ReleasingMessage` | source/state/pilot/connected/ReleasingControl.cpp:88-106 | the handover's release, message by message |
| `PilotClient.PilotClient.OnNewState` | source/state/pilot/Connected.cpp:44-53 | the inner loop equals `RunInner` and lifts Released to Disconnecting |
| `PilotClient.PilotClient.StartConnecting` | source/state/pilot/Connecting.cpp:35-62 | session opened and SETUP sent, or the failure reported and Disconnected next: `StartConnecting` of the value machine, whose results `PilotSetup` states |
| `PilotClient.PilotClient.StartDisconnecting` | source/state/pilot/Disconnecting.cpp:23-29 | stream closed and RELEASED told, or an exception after the closing began |
| `PilotClient.PilotClient.ConnectingMessage` | source/state/pilot/Connecting.cpp:81-105 | SETUP accepted, rejected, or default |
| `PilotClient.PilotClient.FollowTransitions` | include/system/IStateMachine.hpp:144-149 | the outer loop equals `RunOuter`, ending by the rank of the next state or by an exception |
| `PilotClient.PilotClient.HandleEvent` | include/system/IStateMachine.hpp:140-150 | one event through both transition loops is one `Step` of the value machine; it throws exactly when `Outcome` says; the run invariant is kept |
| `PilotRuns.StepKeeps` | source/state/pilot/Connected.cpp:34-53 | the run invariant - state against stream, pending procedure, ownership ledger, reports, listener grammar and books - is inductive, exceptions included |
| `PilotRuns.RunKeeps` | source/state/pilot/Disconnected.cpp:33-46 | it holds after every run |
| `PilotTheorems.OwnershipFollowsHistory` | source/state/pilot/connected/RequestingControl.cpp:90-96 | on every run a live channel is owned if and only if at some position after it was made a message granted it - a confirmation, naming it, of a CHANNELS_READY not yet confirmed, or CONTROL_READY accepted for the REQUEST_CONTROL last sent - and no later one is a CONTROL_RELEASED for it |
| `OwnershipMeaning.GrantedMeans` | source/state/pilot/connected/ValidatingChannels.cpp:73-84 | what the ownership observer's verdict means, by positions in any trace |
| `PilotTheorems.ReportsFollowTable` | source/state/pilot/connected/ValidatingChannels.cpp:73-84 | on every run, channel by channel: in the table if and only if reported as opened at some position, not reported as closing after it, and not erased by a failed validation; or awaiting confirmation |
| `TraceMeaning.ReportedMeans` | source/state/pilot/connected/ClosingChannels.cpp:76-78 | what the observer of reports means, by positions in any trace |
| `PilotTheorems.TableEmptyOutsideConnected` | source/state/pilot/connected/Operating.cpp:104-114 | on every run the table is empty in every other outer state |
| `PilotTheorems.ProceduresNeverOverlap` | source/state/pilot/connected/Operating.cpp:42-70 | between any two requests in the trace the server concluded the first |
| `PilotTheorems.SessionsAreBracketed` | source/state/pilot/Connecting.cpp:35-62 | every message goes out on an open stream, SETUP exactly as the first one; openings and closings strictly alternate |
| `PilotTheorems.StreamOpenExactly` | source/state/pilot/Disconnecting.cpp:23-29 | between events the stream is open if and only if the state is Connecting or Connected; no run rests in Disconnecting or Released |
| `PilotTheorems.ListenerHearsSessions` | source/state/pilot/Connected.cpp:26-32 | what the listener hears on any run, throwing ones included, is the beginning of a sequence of whole sessions of the pilot's grammar |
| `PilotGrammar.PilotGrammarExactly` | source/state/pilot/Connecting.cpp:81-105 | the observer's automaton accepts a word if and only if it can be continued to such a sequence |
| `PilotTheorems.EachChannelHasOneFate` | source/backend/ChannelsHandler.cpp:85-111 | every channel was inserted once and is live, was dropped once, or was closed once, never two of these |
| `PilotTheorems.EventsRunToCompletion` | source/state/pilot/Connected.cpp:44-53 | each event ends after at most one inner and two outer transitions; an opening is attempted exactly when a disconnected pilot is told to operate and the core answers, and ends as the environment has it; each closing ends in one RELEASED and a running client exactly if it returns |
| `PilotTheorems.DeferredAreRecalled` | source/state/pilot/connected/Operating.cpp:26-119 | a deferred event is recalled exactly when the pilot comes to operate and when the operation is updated, once each time |
| `PilotSetup.OperateOpensSession` | source/state/pilot/Connecting.cpp:35-62 | a disconnected pilot told to operate is connecting if and only if the core answers and the stream opens, and then one SETUP with the core's key and the user's channels went out; in the two other cases it is disconnected, nothing went out and the listener knows of the failure |
| `PilotSetup.OnlyOperateConnects` | source/state/pilot/Disconnected.cpp:33-46 | no other event has an effect on a disconnected pilot |
| `PilotWatching.ClosingNamesLiveChannels` | source/state/pilot/connected/ClosingChannels.cpp:73-83 | on every run, at the position where the listener is told that a channel is closing: it was made before, and neither closed nor dropped before |
| `PilotWatching.ChannelsCloseAfterReport` | source/state/pilot/connected/ClosingChannels.cpp:73-83 | on every run, a channel is closed after a CHANNELS_CLOSING that names it in the same event, and before the server is answered |
| `PilotWatching.ReleasedComesLast` | source/state/pilot/Disconnecting.cpp:23-29 | on every run, RELEASED is told after the stream was closed, in the same event |
| `PilotEffects.RunOuterEffects` | include/system/IStateMachine.hpp:144-149 | the outer loop is bounded by a rank of the state it goes to first, which also fixes what it does to the stream |
| `PilotOutcomes.OutcomeExactly` | source/backend/ChannelsHandler.cpp:113-125 | an event is undefined, throws or returns if and only if the state, the message and the environment say so |
| `PilotOutcomes.ReleaseNamesAll` | source/state/pilot/connected/Operating.cpp:64-65 | on a user's release one message goes out, and it names every channel of the table once |
| `PilotOutcomes.RunWaiting` | source/state/pilot/connected/ClosingChannels.cpp:48-67 | whatever happens until the server answers, the table and the named ids stay and nothing goes wrong |
| `PilotOutcomes.AcceptedRemoval` | source/state/pilot/connected/ClosingChannels.cpp:73-83 | acceptance removes exactly the named channels and returns to Operating |
| `PilotOutcomes.UserReleaseEmptiesTable` | source/state/pilot/connected/ClosingChannels.cpp:73-83 | the user's release is safe and complete: the lookup is defined and acceptance leaves the table empty |
| `PilotConversation.MessagesAnswerEvents` | source/state/pilot/connected/ReleasingControl.cpp:39-69 | every message of every run goes out on account of the last event taken in, with exactly that event's data, and is the only one to do so |
| `PilotConversation.NewsAnswersEvents` | source/state/pilot/connected/RequestingControl.cpp:74-105 | everything the listener hears is on account of the last event taken in, with that event's data |
| `PilotConversation.ListenerHearsFirst` | source/state/pilot/connected/ClosingChannels.cpp:73-83 | in every run, where an event calls for a word to the listener and for a message, the listener hears first; only OPERATION_STARTED comes after the first message of the connected pilot |
| `PilotConversation.ReadyNamesOffer` | source/state/pilot/connected/ValidatingChannels.cpp:30-41 | each CHANNELS_READY has its cause at the last event before it, an accepted SETUP or ADD_CHANNELS, names the accepted descriptions of that very message in order, and nothing else was sent in between |
| `PilotConversation.OpenedNamesReady` | source/state/pilot/connected/ValidatingChannels.cpp:73-84 | CHANNELS_OPENED comes at the first confirmation of the CHANNELS_READY last sent and reports exactly the ids that message named |
| `PilotConversation.ClosingNamesRemoval` | source/state/pilot/connected/ClosingChannels.cpp:73-83 | CHANNELS_CLOSING comes at the server's release, or at the acceptance of the removal last asked for, and then reports exactly the ids it named |
| `PilotConversation.CalledForIsSaid` | source/state/pilot/connected/ClosingChannels.cpp:69-107 | for every stage of the conversation: the message and the word to the listener that an event calls for come before the next event, and before the end of a run that returned |
| `PilotProvenance.NothingIsLeftUnsaid` | source/state/pilot/connected/RequestingControl.cpp:74-105 | after every run that returned nothing called for is missing, and the stage tells the protocol state |
| `Conversation.StageMeans` | source/state/IState.cpp:20-30 | the observer's stage is what positions say: the action that began it, or concluded what was under way, and none since that leaves it |
| `Conversation.CalledForWasSaid` | source/state/IState.cpp:61-64 | what an honest trace owes between an event and the next |
| `TraceMeaning.RequestsTakeTurns` | source/state/pilot/connected/OpeningChannels.cpp:68-93 | what the procedure observer's verdict means for every two requests |
| `TraceMeaning.SentOnOpenStream` | source/backend/ClientBackend.cpp:129-149 | what the stream observer's verdict means for every message |
| `TraceMeaning.BordersAlternate` | source/backend/ClientBackend.cpp:94-101 | and for every opening and closing |
| `PilotHeartbeats.HeartbeatAnswered` | source/state/IState.cpp:72-83 | a heartbeat gets one answer with its key in every state that dispatches messages, none in the others, and changes nothing else |
| `PilotHeartbeats.HeartbeatsTransparent` | source/backend/HeartbeatHandler.cpp:28-37 | deleting all heartbeats from any run leaves state, table, flags and listener events, and deletes only heartbeats and their answers from the trace |
| `DeviceHeartbeats.HeartbeatAnswered` | source/state/IState.cpp:72-83 | the same for the device |
| `DeviceHeartbeats.HeartbeatsTransparent` | source/backend/HeartbeatHandler.cpp:28-37 | the same for the device |
| `DeviceClient.DeviceClient.AttachChannels` | source/state/device/connected/Flying.cpp:108-121 | channels validated in place, reported and answered with the accepted ids |
| `DeviceClient.DeviceClient.ReleaseChannels` | source/state/device/connected/Flying.cpp:123-136 | channels reported, closed in place and named in the answer; requires them present, as the lookup does |
| `DeviceClient.DeviceClient.EndOperation` | source/state/device/connected/Flying.cpp:90-101 | every channel reported and closed, the end reported and acknowledged |
| `DeviceClient.DeviceClient.HandleMessage` | source/state/device/connected/Releasing.cpp:54-71 | what each inner state makes of a message, for every state and message |
| `DeviceClient.DeviceClient.OnNewState` | source/state/device/Connected.cpp:49-58 | the inner loop equals `RunInner` and lifts Released to Disconnecting |
| `DeviceClient.DeviceClient.StartConnecting` | source/state/device/Connecting.cpp:36-57 | session opened and SETUP sent, or the failure reported and Disconnected next |
| `DeviceClient.DeviceClient.StartDisconnecting` | source/state/device/Disconnecting.cpp:23-29 | stream closed and RELEASED told, or an exception |
| `DeviceClient.DeviceClient.FollowTransitions` | include/system/IStateMachine.hpp:144-149 | as for the pilot |
| `DeviceClient.DeviceClient.HandleEvent` | include/system/IStateMachine.hpp:140-150 | one event is one `Step` of the value machine; it throws exactly when `Outcome` says; the run invariant is kept |
| `DeviceRuns.RunKeeps` | source/state/device/Disconnected.cpp:31-41 | the device's run invariant holds after every run |
| `DeviceTheorems.ReportsFollowTable` | source/state/device/connected/Flying.cpp:108-136 | on every run a channel is in the table if and only if it was reported as opened at some position, not reported as closing after it, and not erased by a failed validation |
| `DeviceTheorems.ReattachForgetsExactly` | source/state/device/connected/Flying.cpp:66-76 | attaching takes a reported channel away without a word if and only if some description of its id fails |
| `DeviceTheorems.TableEmptyUnlessFlying` | source/state/device/connected/Flying.cpp:90-101 | on every run the table is empty whenever the device is not flying |
| `DeviceTheorems.ListenerHearsSessions` | source/state/device/Connected.cpp:26-32 | what the listener hears on any run is the beginning of a sequence of whole sessions of the grammar |
| `ListenerGrammar.DeviceGrammarExactly` | source/state/device/Connecting.cpp:81-98 | the observer's automaton accepts a word if and only if it can be continued to such a sequence |
| `DeviceTheorems.SessionsAreBracketed` | source/state/device/Connecting.cpp:36-57 | as for the pilot |
| `DeviceTheorems.StreamOpenExactly` | source/state/device/Disconnecting.cpp:23-29 | as for the pilot |
| `DeviceTheorems.EachChannelHasOneFate` | source/backend/ChannelsHandler.cpp:85-111 | as for the pilot |
| `DeviceTheorems.EventsRunToCompletion` | source/state/device/Connected.cpp:49-58 | as for the pilot, with attaching in place of operating |
| `DeviceSetup.AttachOpensSession` | source/state/device/Connecting.cpp:36-57 | a disconnected device told to attach is connecting if and only if the core answers and the stream opens, and then one SETUP with the core's key went out; in the two other cases it is disconnected, nothing went out and the listener knows of the failure |
| `DeviceSetup.OnlyAttachConnects` | source/state/device/Disconnected.cpp:31-41 | no other event has an effect on a disconnected device |
| `DeviceWatching.ClosingNamesLiveChannels` | source/state/device/connected/Flying.cpp:123-136 | on every run, at the position where the listener is told that a channel is closing: it was made before, and neither closed nor dropped before |
| `DeviceWatching.ChannelsCloseAfterReport` | source/state/device/connected/Flying.cpp:90-136 | on every run, a channel is closed after a CHANNELS_CLOSING that names it in the same event, and before the server is answered |
| `DeviceWatching.ReleasedComesLast` | source/state/device/Disconnecting.cpp:23-29 | on every run, RELEASED is told after the stream was closed, in the same event |
| `DeviceOutcomes.OutcomeExactly` | source/state/device/connected/Flying.cpp:78-88 | an event is undefined, throws or returns if and only if the state, the message and the environment say so |
| `DeviceConversation.MessagesAnswerEvents` | source/state/device/connected/Flying.cpp:108-136 | every message of every run goes out on account of the last event taken in, with exactly that event's data, and is the only one to do so |
| `DeviceConversation.NewsAnswersEvents` | source/state/device/connected/Flying.cpp:90-136 | everything the listener hears is on account of the last event taken in: channels opened are those accepted of its attachment, in order, channels closing those its release names |
| `DeviceConversation.ListenerHearsFirst` | source/state/device/connected/Flying.cpp:108-136 | in every run the listener hears of channels and of the operation's end before the server is answered |
| `DeviceConversation.AnswersNameTheSame` | source/state/device/connected/Flying.cpp:113-135 | the server is answered with the same ids |
| `DeviceConversation.CalledForIsSaid` | source/state/device/connected/Flying.cpp:62-106 | what an event calls for at any stage comes before the next event, and before the end of a run that returned |
| `DeviceProvenance.NothingIsLeftUnsaid` | source/state/device/connected/Ready.cpp:32-79 | after every run that returned nothing called for is missing, and the stage tells the protocol state |
| `SystemTheory.OnePollTask` | source/backend/ClientBackend.cpp:253-256 | over any number of sessions at most one poll task waits, and an open stream has one |
| `SystemDelivery.DeliveryExactly` | source/backend/ClientBackend.cpp:229-234 | at every moment of a run the messages handled and those waiting in posted and queued events are the messages the polls read, in order and once each, if and only if no poll took a good READ into another buffer than the one it handed out |
| `SystemDelivery.RestedRunsDeliver` | source/backend/ClientBackend.cpp:199-204 | that never happens in a run all of whose sessions were opened with nothing outstanding |
| `SystemDelivery.SessionDelivery` | source/backend/ClientBackend.cpp:109-116 | of the messages read in a session opened at rest all are handed on while it is open, and all but at most the last in the end: short exactly if a closing, or an opening that failed, took the last READ |
| `SystemDelivery.ReadIsDelivered` | source/backend/ClientBackend.cpp:229-234 | in a run without that mistake: handled and waiting messages are what earlier sessions handed on, followed by the messages of a session opened at rest, short of the last one at most; and no READ is filling a buffer that an event owns |
| `SystemDelivery.SessionFlowsExactly` | source/backend/ClientBackend.cpp:236-249 | in every session of every run, whatever earlier ones did: the pump's flow invariant holds as long as the session is open if and only if it was opened with nothing outstanding |
| `SystemSending.HandlersFeedPump` | source/state/IState.cpp:61-64 | at every moment of every run the messages the pump was given in this session are those the handlers sent since the stream was last opened, in order; together with what was left over from before, each is written or queued, none lost or doubled, whatever was outstanding at the opening |
| `SystemSending.HandlersReachWire` | source/backend/ClientBackend.cpp:129-149 | while a stream is open that was opened at rest, what is written and then what is queued are the messages of the trace after that opening, in order, with the leftover after the first |
| `SystemSessions.SessionGoesOnExactly` | source/backend/ClientBackend.cpp:225-249 | in a session opened at rest, as long as it is open: a READ is outstanding into the buffer the next event gets if and only if no READ of the session failed, and none is outstanding otherwise; a WRITE is outstanding exactly when the client takes the stream to be busy if and only if no WRITE failed, and after a failure nothing is written any more |
| `SystemBooks.OperationsAreSettled` | source/backend/ClientBackend.cpp:94-257 | over every run, openings, closings, WRITEs and READs: each that was begun has completed once and was taken by a poll, a drain loop or an opening, or is outstanding; the messages read are those of the good READs taken, in order |
| `SystemEvents.NoticesAreHandled` | include/system/IStateMachine.hpp:45-63 | in every run the events handled that are no messages, followed by those waiting, are the events the client was notified of, in order and once each |
| `SystemEvents.HandlersGetTheirEvents` | include/system/IStateMachine.hpp:45-63 | the handler in each place gets the event accepted in that place: unchanged if it was given, a message if it was delivered |
| `SystemSetup.HandlersRun` | include/system/IStateMachine.hpp:120-138 | an event task at the head always runs, whatever OPEN and CLOSE make of it; the peer takes one step, with the environment's answers; the machine stalls exactly if the handler did not return |
| `SystemSetup.SessionOpensExactly` | source/backend/ClientBackend.cpp:184-210 | in the whole client a call to operate or attach leads to a session if and only if the core answers and a good OPEN comes in time: then SETUP with key and channels is alone on the wire, a READ into a new buffer is outstanding and the poll task waits; otherwise nothing was sent |
| `SystemSetup.SessionClosesExactly` | source/backend/ClientBackend.cpp:94-127 | a handler that closes the stream ends the polling; the peer is without a session and the machine goes on if and only if the drain loop ended with a good CLOSE |
| `SystemTheory.HandlerPosts` | source/backend/ClientBackend.cpp:202-204 | a handler posts at most one poll task, and only when the stream was closed before |
| `SystemTheory.HandlerSession` | source/backend/ClientBackend.cpp:199-204 | a handler goes on with the session that is open, or leaves a new one that does not flow unless it was opened at rest |
| `SystemTheory.ApplyKeeps` | include/system/IStateMachine.hpp:120-138 | every step of the whole client keeps the system invariant, in particular that a dying poll task runs before any event task that could reopen |

## Left out

- Sockets, TLS, HTTP, the core client, certificates and configuration: library and file I/O; their answers are inputs.
- Host, port and validation key of a channel, and the core's answer besides the key: passed through unread.
- `Security` values the protocol does not name: the source falls out of its inner switch there without a value.
- Timers (`executeAfter`, `executeEvery`) and the heartbeat supervision methods: unused or empty; the time of the last heartbeat is stored and never read.
- The device's Recovering state: nothing enters it.
- `toString`, logging and the example programs: presentation only.
- Traffic on open channels (`send`, `onReceived`, `onClosed`) and channel listeners: forwarding only.
- Several handlers of one machine at once: `defer` and `recall` are taken to be called from handlers; `defer` has no caller, so `recall` changes nothing in `ClientSystem`.
- `ClientSystem` has one io_service thread, so a poll task and an event task never overlap; the event machine alone is proved for any number of threads.
- In `ClientSystem` nobody but the poll task notifies Received events.
- A socket that throws on `disconnect`: closing a channel always returns.
- `StateMachine.StateMachine.Abort`: is a ghost method, because an exception is not a statement of the source.
- `ClientBackend.ClientBackend.CloseFacadeConnection`: requires that its first wait is answered; when that one times out the source tests a tag that was never set.
- `PilotClient.PilotClient.HandleEvent`: requires that no unchecked lookup misses, as the source does of its peers; `PilotOutcomes.OutcomeExactly` tells when that is.
- `DeviceClient.DeviceClient.HandleEvent`: requires the same; `DeviceOutcomes.OutcomeExactly` tells when that is.
- What a handler finds in a buffer that gRPC has not filled is any message: the definition of the message type is not part of this model.
- Pointers to channels are modelled as id and incarnation; that a pointer dangles is a statement about incarnations, not about memory.
