# Models of the chat client, the auth seeding lock, the plan scripts and the log queues

This project models four parts of the repository in Dafny and proves what they
promise over every input, every run or every interleaving.

**The chat transcript** (`useChatWs.ts` feeding `useChatStream.ts`).
`SequenceFilter` is the sequence filter of `onmessage`; `ChatSocket` is the
connection with its subscriptions as a state machine, and `ChatWs` the hook that
implements it with its refs. `ChatTypes` and `ChatModel` say what each operation of
`useChatStream` does to its refs; `ChatStream` is the hook as objects changed in
place (the transcript, the bubble maps, the live buffers, the current run), every
method of which is tied to its function in `ChatModel`. The theorems are in
`ChatDelivery` (the bubble shows what the server streamed), `ChatIndex`,
`ChatIsolation`, `ChatFinals` and `ChatUnnamed` (who owns a bubble, who may change it,
what a final leaves and that it is absorbing), `ChatStop` (the stop handshake),
`ChatScreen` (what every message update keeps), `ChatTurns` (what a user turn shows),
`ChatHistory` and `ChatMerge` (the history merge), `ChatLive` (text segments and tool
calls), `ChatOutcomes` (what each event leaves), `ChatLocal` (what each operation of the
page leaves) and `ChatReconnect` (a lost connection is retried and heals). They are about
runs of `ChatModel.Step`: socket events in any order and mixed with every local operation;
and they say what is on screen in terms of its messages, not of the functions that
compute it.

**The keyed lock and auth seeding** (`authSeed.ts`). `AuthSeed` gives one action to
each await point, for any number of concurrent calls, and proves that the promise
chains refine a first-in-first-out queue per key. `Seeder` is the module in place.
`AuthSeedRuns` says what each call ends with, and why, in every interleaving.

**The plan scripts.** `PlanStatus` parses classified lines, `SelectCurrentTask`
rewrites and selects, `PlanLines` says what a task's fields and a normalisation mean for
the lines of the plan, `SelectionRuns` follows repeated runs, `SelectionReport` is about
the payload a run writes, `CheckHandoff` is the validator of that payload, `PlanSections`
extracts sections; `Tiling` says what it means for ranges to cover lines exactly once.

**Two bounded queues.** `LogTransport` is the batching retry queue of the client's
logs, `LogStore` the server's bounded log. `Prelude` holds optional values and
subsequences.

Run `dafny verify dfyconfig.toml` to check everything.

## Assumptions stated in the model

- React state updates take effect at once, in the order the code makes them; what an
  updater does to refs happens when it is called.
- `makeId()` yields ids never seen before; ids from outside are a different kind of
  value. Clocks are parameters, and a date is its text with its value in milliseconds.
- Sends on an open socket do not fail, and a socket is absent, connecting or open.
- Lines of a plan are already classified; a `resolve` function makes paths comparable
  and a `normal` function normalises section names.
- The file system of `authSeed.ts` has no other writer; every stat, mkdir and copy may fail.
- The server's side of `ChatDelivery`: a snapshot with number s carries the
  concatenation of the deltas up to s, and another run's numbers have another key (true
  for conversation ids without a colon: `PlainIdsKeepKeysApart`).

## Where a promise has a condition

- *Finalization* is absorbing except for events that carry no inflight id. Such an event
  writes the active bubble, final or not, exactly under the guard of
  `UnnamedUpdateChangesExactly` and `UnnamedFinalChangesExactly`, and there is a run in which
  it does (`UnnamedSnapshotReopens`). A final for a mapped inflight closes its bubble to later
  turns (`SettledForever`); only a final that had to make the bubble itself leaves it open to
  one (`ReopenedExactly`).
- *Tracking* of optimistic messages survives hydration exactly as `HydrationIsExact` says; a
  run in which it does not is `ForeignEntryBreaksTracking`.
- *Conservation* of log entries holds exactly when no flush meets a waiting queue with
  forwarding off (`RunConserves`).
- *Bounded log queries* agree with the full history exactly as `QueryExactness` says.
- *Selection* with task numbers that are not distinct: repeated runs still settle
  (`RunSettles`, `RunsReachFixedPoint`); twice the to-do plus the in-progress tasks decreases,
  and the validator agrees, exactly under `PromotionPays` and `ClearPromotion`.
- *A bubble becomes stopped* also when a caller appends a message that already is
  (`RunStopped`).

## Model

| member | source | states |
|---|---|---|
| SequenceFilter.ComparedExactly | client/src/hooks/useChatWs.ts:478-500 | Two messages are compared exactly if both are sidebar messages, or both name the same conversation and the same run or none (for ids that no key can be mistaken for). |
| SequenceFilter.FirstIsPositive | client/src/hooks/useChatWs.ts:502-512 | With nothing remembered a message passes exactly if it has no number, no key, or a positive number. |
| SequenceFilter.AcceptedIffRecord | client/src/hooks/useChatWs.ts:478-515 | A message is passed on if and only if it has no number to check or its number is a strict running maximum of its key: larger than the remembered start value and than every earlier number of that key, dropped ones included. |
| SequenceFilter.LastIsMaximum | client/src/hooks/useChatWs.ts:502-515 | What is remembered for a key is an upper bound of every number seen under it, and is one of them or the start value. |
| SequenceFilter.LastAfterSplits | client/src/hooks/useChatWs.ts:502-515 | Filtering one stretch of messages after another is filtering them together. |
| SequenceFilter.ReplayChangesNothing | client/src/hooks/useChatWs.ts:502-515 | Inserting, at any later point, a message whose number does not exceed one already delivered under its key changes neither the messages passed on nor what is remembered. |
| ChatDelivery.BubbleShowsServerText | client/src/hooks/useChatStream.ts:1799-1951 | Whatever happens in a window without another adoption, a final of the run or a reset (duplicates, stale replays, late finals, other runs and conversations, unnamed events that displace nothing, stops, added, bound and settled messages, answers to the request), once each gap has been healed by a later snapshot the bubble of the adopted run shows exactly the answer and the reasoning the server has streamed up to the highest number accepted. |
| ChatDelivery.HealedIsExact | client/src/hooks/useChatStream.ts:1799-1951 | The same about the live buffers, with the run staying current, unfinished and mapped to its bubble throughout. |
| ChatDelivery.MoveExact | client/src/hooks/useChatStream.ts:1894-2013 | One more arrival or operation keeps text and reasoning exact unless it skips over text; an accepted snapshot makes them exact whatever was there before. |
| ChatDelivery.LocalKeepsRun | client/src/hooks/useChatStream.ts:909-1035 | Stopping, adding, binding and settling messages, a send that is not begun, and the answer to this run's request leave the current run, its live buffers and its bubble as they are. |
| ChatDelivery.PlainIdsKeepKeysApart | client/src/hooks/useChatWs.ts:273-500 | For conversation ids without a colon, an event whose sequence key is the run's is an event of the run. |
| ChatDelivery.PlainIdsShowServerText | client/src/hooks/useChatStream.ts:1799-1951 | So for such ids the bubble shows the server's text with no assumption about keys. |
| ChatDelivery.ConsecutiveIsHealed | client/src/hooks/useChatWs.ts:502-515 | If every accepted message of the run is a snapshot or follows its predecessor by one, nothing needs healing. |
| ChatDelivery.ReplayChangesNothing | client/src/hooks/useChatWs.ts:502-515 | Delivering a message again, or an older one of the same run, at any later point leaves the whole client (transcript and remembered numbers) as it would be without it. |
| ChatDelivery.SnapshotAdopts | client/src/hooks/useChatStream.ts:1799-1875 | A snapshot that is not ignored loads its text and reasoning, and its run is then adopted with its bubble showing them if and only if the run has no bubble yet or its bubble is still on screen. |
| ChatDelivery.SnapshotIsExact | client/src/hooks/useChatStream.ts:1799-1875 | After an accepted snapshot of the run the live text and reasoning are the server's at the snapshot's number. |
| ChatDelivery.SnapshotThenDelivery | client/src/hooks/useChatStream.ts:1799-1951 | From an adopting snapshot to any later point of its window the run's bubble shows the server's text at the highest number accepted. |
| ChatDelivery.TurnAdopts | client/src/hooks/useChatStream.ts:1587-1615 | A user turn that starts an unmapped run gives it a new bubble of its own, with empty text and reasoning, and makes it current. |
| ChatDelivery.OthersKeepRun | client/src/hooks/useChatStream.ts:1772-2155 | Any harmless event of another run, another conversation or an acknowledgement not taken leaves the current run, its live buffers and its bubble as they are. |
| ChatDelivery.FinalFinishes | client/src/hooks/useChatStream.ts:2042-2192 | The final of an adopted run leaves its bubble complete, stopped or failed as it says, with all that was live (or the error of a failed run that wrote nothing), and no inflight that can still act owns the bubble afterwards. |
| ChatDelivery.FinishedForever | client/src/hooks/useChatStream.ts:1571-2192 | And so it stays through every later run of transcript events none of which is an unnamed one that writes the bubble. |
| ChatOutcomes.IgnoredEvents | client/src/hooks/useChatStream.ts:1505-2057 | Events of other conversations change nothing; finals and updates of final runs, updates while another run is current, and snapshots and turns of a run seen before while another is current change only the highest number heard. |
| ChatOutcomes.EventsTakeUp | client/src/hooks/useChatStream.ts:1587-2171 | Every other event of a run but a late final makes it current and seen, opens the stream or, if final, ends it, finalizes the run and gives up a pending stop. |
| ChatOutcomes.UpdateShown | client/src/hooks/useChatStream.ts:1894-2040 | An update of a run with a bubble on screen adds exactly its delta, thought, new warning or tool call to what is live, and the bubble shows all of that and is processing. |
| ChatOutcomes.UpdateMakesBubble | client/src/hooks/useChatStream.ts:556-636 | An update of a run without a bubble makes one, active and mapped to it, with nothing of another run in it. |
| ChatOutcomes.SnapshotShown | client/src/hooks/useChatStream.ts:1829-1874 | A snapshot replaces everything live by what it carries, and its bubble shows that, with its command and, if that is a date, its start. |
| ChatOutcomes.SnapshotMakesBubble | client/src/hooks/useChatStream.ts:1829-1874 | A snapshot of a run without a bubble shows it in a new one. |
| ChatOutcomes.TurnLive | client/src/hooks/useChatStream.ts:1587-1615 | A turn of a run without a bubble starts empty in a new one; a run with one gets it back, with the buffers cleared if it displaces another while no send is waiting. |
| ChatOutcomes.AnonymousToolIsNew | client/src/hooks/useChatStream.ts:791-822 | A tool event without a call id is recorded under an id made for it. |
| ChatIndex.RunKeepsIndex | client/src/hooks/useChatStream.ts:556-636 | In every reachable state the inflight-to-bubble map agrees with the historical map, both are injective, every bubble id was made by the hook, and "" owns none. |
| ChatIndex.StepKeepsIndex | client/src/hooks/useChatStream.ts:556-636 | Every operation keeps that. |
| ChatIsolation.Isolation | client/src/hooks/useChatStream.ts:1563-2206 | A transcript event for inflight i leaves every assistant bubble but i's as it is, in the same order. |
| ChatIsolation.RunIsolates | client/src/hooks/useChatStream.ts:1563-2206 | The same after every run of operations. |
| ChatIsolation.ShowTurnSpares | client/src/hooks/useChatStream.ts:1636-1766 | A user turn never touches an assistant bubble, whichever user message it confirms or inserts. |
| ChatIsolation.StaleEventChangesNothingLive | client/src/hooks/useChatStream.ts:1571-2155 | While another inflight is current, an event of one already seen leaves the live buffers, the current inflight, the status and a pending stop unchanged; unless it is a final, the screen and the maps too. |
| ChatFinals.FinalAbsorbs | client/src/hooks/useChatStream.ts:1800-2057 | From a final on, no run of transcript events changes the inflight's bubble as long as no user turn takes the inflight up again and no event without an inflight writes it. |
| ChatFinals.RunFinalAbsorbs | client/src/hooks/useChatStream.ts:1800-2064 | The same from the final of any reachable state. |
| ChatFinals.CurrentFinalEnds | client/src/hooks/useChatStream.ts:2083-2192 | The final of the current run leaves its bubble complete, stopped or failed as it says, marked as an error if it failed, with its usage and timing where it has them, and with what was live or, for a failed run that wrote nothing visible, its error; the run is over and no stop is pending. |
| ChatFinals.LateFinalMarks | client/src/hooks/useChatStream.ts:2098-2157 | A late final marks the bubble its inflight has on screen in the same way without touching its content, and leaves the live run alone. |
| ChatFinals.LateFinalSuppressed | client/src/hooks/useChatStream.ts:2123-2138 | A late final without a bubble on screen only marks its inflight final. |
| ChatFinals.UnmappedFinalEnds | client/src/hooks/useChatStream.ts:2157-2192 | The final of an unmapped inflight, with no other run current, makes the bubble it ends, empty or showing the error. |
| ChatFinals.FinalSettles | client/src/hooks/useChatStream.ts:2059-2098 | A final for a mapped inflight leaves its bubble with no owner that can still act. |
| ChatFinals.SettledForever | client/src/hooks/useChatStream.ts:1571-2192 | Such a bubble is changed by no run of transcript events, not even one that takes the inflight up again, unless an event without an inflight writes it. |
| ChatFinals.ReopenedExactly | client/src/hooks/useChatStream.ts:556-2157 | However much later a user turn takes a final inflight up again, it reuses the final's bubble if and only if that final found no mapping and ended the current run. |
| ChatIsolation.UnnamedIsolation | client/src/hooks/useChatStream.ts:563-578 | An event without an inflight changes no bubble but the active one, a last one still processing, or a new one. |
| ChatUnnamed.UnnamedUpdateChangesExactly | client/src/hooks/useChatStream.ts:563-1951 | A snapshot, delta, thought, warning or tool event without an inflight changes a finished bubble on screen if and only if it is for this conversation, no final without an inflight has been applied, no run is current (snapshots do not ask) and the bubble is the active one. |
| ChatUnnamed.UnnamedFinalChangesExactly | client/src/hooks/useChatStream.ts:2042-2192 | A final without an inflight changes a finished bubble if and only if that guard holds and the bubble does not already show what the final leaves. |
| ChatUnnamed.UnnamedSnapshotReopens | client/src/hooks/useChatStream.ts:1799-1875 | There is a reachable state with a settled bubble that the next event, a snapshot without an inflight, changes. |
| ChatUnnamed.UnnamedUpdateShown | client/src/hooks/useChatStream.ts:563-636 | An update without an inflight, with no run current, adds itself to what is live and is shown in the active bubble or, with none active, the last one still processing. |
| ChatUnnamed.UnnamedUpdateMakesBubble | client/src/hooks/useChatStream.ts:563-636 | Without either bubble it is shown in a new one, with nothing else in it. |
| ChatStop.AckAnswersItsStop | client/src/hooks/useChatStream.ts:1524-1559 | In every run an acknowledgement that is taken answers an earlier stop made under its own request id and pending ever since, and ends the run; any other leaves the whole state unchanged. |
| ChatStop.AckRemovesEmptyBubble | client/src/hooks/useChatStream.ts:487-526 | It takes from the screen exactly the bubble of the stopped run (or the active one), and only if that shows no text, reasoning, tool call, warning or command. |
| ChatStop.AckDropsMapping | client/src/hooks/useChatStream.ts:518-525 | The mapping of the stopped run goes, and its bubble is the active one no more. |
| ChatStop.AcksNeedRequests | client/src/hooks/useChatStream.ts:528-543 | Over every run, the acknowledgements taken for a request id plus the pending one never outnumber the stops made under it. |
| ChatStop.ConsumedOnce | client/src/hooks/useChatStream.ts:1524-1559 | With distinct request ids no stop request is consumed twice. |
| ChatStop.RunStopped | client/src/hooks/useChatStream.ts:2083-2192 | For every stopped bubble of a reachable state there is a step before which it was not stopped and after which it was, and that step is a stopped final that writes this bubble, hydration with a stopped entry that carries its id or matches it on screen, or a caller adding it stopped; never an acknowledgement. |
| ChatStop.StepStopped | client/src/hooks/useChatStream.ts:1524-2192 | The same for one operation: a bubble it turns stopped is turned so by one of those. |
| ChatStop.HistoryStopped | client/src/hooks/useChatStream.ts:1079-1161 | A message that hydration turns stopped has a stopped entry of its own: one that carries its id and matches nothing, or one matched to it. |
| ChatStop.OnFinalStopped | client/src/hooks/useChatStream.ts:2083-2192 | A final adds at most one stopped bubble, and only a stopped final does: its own inflight's, or without an inflight the one it reuses or makes. |
| ChatScreen.RunKeepsScreen | client/src/hooks/useChatStream.ts:322-412 | In every reachable state message ids are distinct, no optimistic user message has the non-empty content of a confirmed one, tracked ids name messages on screen that are optimistic user messages, and the inflight-to-optimistic map names tracked ids. |
| ChatScreen.StepKeepsScreen | client/src/hooks/useChatStream.ts:987-1035 | Every operation keeps that, given new ids for new messages and hydration that meets the condition below. |
| ChatScreen.CollapseClears | client/src/hooks/useChatStream.ts:375-400 | Collapsing leaves no optimistic echo of a confirmed message, drops nothing but echoes and adds nothing. |
| ChatScreen.CollapseMeans | client/src/hooks/useChatStream.ts:375-400 | Collapsing drops exactly the optimistic user messages whose non-empty text a confirmed user message on the list has, and keeps the others in order. |
| ChatScreen.ShowTracks | client/src/hooks/useChatStream.ts:344-373 | A message stays tracked exactly while it is on screen, and bound to a run exactly while it is tracked. |
| ChatScreen.ShowKeeps | client/src/hooks/useChatStream.ts:402-412 | updateMessages establishes the screen invariant for any list with distinct known ids in which tracked ids name echoes. |
| ChatScreen.ShowTurnKeeps | client/src/hooks/useChatStream.ts:1636-1766 | Every branch of the user-turn updater keeps the invariant. |
| ChatScreen.HydrationIsExact | client/src/hooks/useChatStream.ts:1037-1174 | Hydration keeps the invariant if and only if every unmatched entry that is the first of its id, where the id stays tracked, is an optimistic user message. |
| ChatScreen.RunScreenIsExact | client/src/hooks/useChatStream.ts:322-412 | A run whose new messages have new ids keeps the invariant throughout if and only if every hydration in it meets that condition. |
| ChatScreen.ForeignEntryBreaksTracking | client/src/hooks/useChatStream.ts:1037-1161 | The condition can fail in a reachable state: history that confirms another content under the id of a message sent optimistically leaves that id tracked. |
| ChatTurns.TurnIsShown | client/src/hooks/useChatStream.ts:1563-1766 | After a user turn that is not ignored its content is shown by a confirmed user message and by no optimistic one. |
| ChatTurns.AppendsExactly | client/src/hooks/useChatStream.ts:1636-1747 | A turn gets a message of its own if and only if it has content, its bound message is gone, and none of the last eight messages is a user message with its text that is optimistic, dated within half an hour of it, or at most a minute old. |
| ChatTurns.LastRepeatDecides | client/src/hooks/useChatStream.ts:1656-1745 | Otherwise, without a bound message, the last such message is confirmed, unless it is confirmed with the same date already: the scan for a recent optimistic message never finds another one. |
| ChatTurns.BoundTurnConfirms | client/src/hooks/useChatStream.ts:1640-1655 | A turn of the run a tracked message is bound to confirms that message with its text and date, untracks it, and adds or drops no other message of the user but optimistic copies. |
| ChatTurns.TurnPlace | client/src/hooks/useChatStream.ts:1747-1765 | A message a turn adds goes last, or just before the bubble of its reply if that is last and still processing. |
| ChatTurns.NewTurnAdds | client/src/hooks/useChatStream.ts:1747-1765 | A turn of a new run that repeats nothing adds the user message and, after it, the bubble of its reply. |
| ChatTurns.RepeatedTurnAddsNothing | client/src/hooks/useChatStream.ts:1718-1733 | A dated turn that repeats a user message of the last eight, text and date, adds none. |
| ChatHistory.OnScreenKept | client/src/hooks/useChatStream.ts:1067-1161 | While something is live, or history is prepended, each id on screen is shown exactly once afterwards, unless its message is an echo the update collapses. |
| ChatHistory.EntryShownOrMatched | client/src/hooks/useChatStream.ts:1079-1161 | Every history entry is shown by its id (or collapsed as an echo) if it matches none of the last six messages; otherwise a matching one of its role among those six is shown instead. |
| ChatHistory.ReplacedByLastMatch | client/src/hooks/useChatStream.ts:1082-1142 | A matched message is overlaid by the last entry matched to it: its role, text and segments, under the message's own id and no longer optimistic. |
| ChatHistory.ReplacedOnlyByMatch | client/src/hooks/useChatStream.ts:1082-1142 | Only matched messages are rewritten. |
| ChatHistory.KeptUnmatched | client/src/hooks/useChatStream.ts:1082-1142 | What the merge keeps beside the screen are history entries without a match. |
| ChatMerge.LiveMeans | client/src/hooks/useChatStream.ts:1045-1052 | Something is live exactly if a run is streaming, being sent or current, a message is tracked, or one on screen is processing or optimistic. |
| ChatMerge.MatchMeans | client/src/hooks/useChatStream.ts:1083-1113 | An entry stands for a message exactly under the rules for role, text, dates within half an hour and processing messages it continues. |
| ChatMerge.MatchedIsOverlaid | client/src/hooks/useChatStream.ts:1114-1149 | A message that entries stand for shows the last of them: confirmed, under its own id, with its role, text and segments, and every optional field from the entry if it carries it and as it was if not. |
| ChatMerge.UnmatchedStays | client/src/hooks/useChatStream.ts:1143-1153 | A message no entry stands for, whose id no unmatched entry takes, stays as it is. |
| ChatMerge.UnmatchedIsShown | client/src/hooks/useChatStream.ts:1114-1161 | The first unmatched entry of an id is shown as it is. |
| ChatMerge.HistoryComesFirst | client/src/hooks/useChatStream.ts:1150-1161 | Unmatched entries come first, in their order, then what was on screen in its order; in replace mode with nothing live only the entries. |
| ChatMerge.HydrationEndsRun | client/src/hooks/useChatStream.ts:1053-1166 | The run is forgotten exactly if a finished entry stands for a processing message; all mappings are with another conversation, and the live ones when nothing is live. |
| ChatMerge.HydrationUntracks | client/src/hooks/useChatStream.ts:1116-1142 | A message stays tracked exactly if it is still on screen and no entry stands for it. |
| ChatHistory.HistoryDecides | client/src/hooks/useChatStream.ts:1150-1161 | With nothing live, in replace mode, the screen afterwards is a function of the history alone. |
| ChatHistory.HydrateTwice | client/src/hooks/useChatStream.ts:1037-1166 | With nothing live, hydrating finished history a second time changes nothing. |
| ChatLive.RunKeepsLive | client/src/hooks/useChatStream.ts:791-1951 | In every reachable state the text segments concatenate to the live text, tool segments have distinct ids, each of them is a key of the tool-call map, and warnings are non-empty and kept once each. |
| ChatLive.RunShowsTools | client/src/hooks/useChatStream.ts:1858-2181 | As long as no failed final has replaced the segments by its error text, tool segments and tool-call map have the same ids. |
| ChatLive.ApplyToolIds | client/src/hooks/useChatStream.ts:791-878 | A tool event adds its call to the map and to the segments and nothing else; text is untouched. |
| ChatLive.ToolIsRecorded | client/src/hooks/useChatStream.ts:791-878 | One tool event records its call under its id with the status, name, payload, parameters and errors the event and an earlier result call for; other calls and the order stay, a new call gets a segment with room for text after it, a result is shown in every segment of its call, and citations are replaced by a result that has some. |
| ChatLive.ToolsInOrder | client/src/hooks/useChatStream.ts:1858-1871 | The tool events of a snapshot take effect one by one in their order, each call without an id under a new one. |
| ChatLive.LateRequestKeepsResult | client/src/hooks/useChatStream.ts:796-822 | A request that arrives after its result keeps the payload and the error but sets the call back to requesting. |
| ChatLive.AppendTextSpells | client/src/hooks/useChatStream.ts:1935-1947 | Appending a delta to the segments appends it to what they spell. |
| ChatLive.AdoptSnapshotLive | client/src/hooks/useChatStream.ts:1858-1871 | Loading a snapshot, tool events included, yields buffers that satisfy both and hold the snapshot's text and reasoning. |
| ChatLocal.StopOnlyMarks | client/src/hooks/useChatStream.ts:909-926 | Stopping changes nothing but the status, the inflight to stop and, if one is given, the request id. |
| ChatLocal.ResetStartsOver | client/src/hooks/useChatStream.ts:936-977 | A reset leaves the initial state under the new conversation id, and a switch does but for the messages it keeps. |
| ChatLocal.LocalIsAdded | client/src/hooks/useChatStream.ts:979-985 | A local message is added last, unless it is an optimistic copy of a confirmed one; of the others only optimistic copies of it go. |
| ChatLocal.OptimisticIsAdded | client/src/hooks/useChatStream.ts:987-1005 | An optimistic message gets a new id and is tracked exactly if it is shown. |
| ChatLocal.SettleConfirms | client/src/hooks/useChatStream.ts:1023-1035 | A settled message is confirmed, untracked and unbound; optimistic copies of it go. |
| ChatLocal.OptimisticIsConfirmed | client/src/hooks/useChatStream.ts:987-1655 | A message added optimistically and bound to a run is the one that run's turn confirms; the user's other messages stay without a copy of it. |
| ChatLocal.SendTakesUp | client/src/hooks/useChatStream.ts:1305-1384 | A send makes its run current with a new active bubble mapped to it, and forgets what was live and a pending stop. |
| ChatLocal.SendShows | client/src/hooks/useChatStream.ts:1347-1384 | It shows the user's message, confirmed, and after it the empty bubble of the reply. |
| ChatLocal.FailureShows | client/src/hooks/useChatStream.ts:1431-1483 | A refused or failed request adds an error bubble and fails the active bubble with what is live. |
| ChatLocal.RunActive | client/src/hooks/useChatStream.ts:556-636 | In every run the active bubble's id has been made. |
| ChatLocal.RestoreShows | client/src/hooks/useChatStream.ts:1188-1262 | A fetched snapshot is ignored if its run was seen and another is current, or is current and heard further; otherwise it is shown in the bubble of its run. |
| ChatLocal.RestoreMakesBubble | client/src/hooks/useChatStream.ts:1188-1262 | Without a bubble in this conversation it is shown in a new one. |
| ChatLocal.RestoreRefs | client/src/hooks/useChatStream.ts:1209-1240 | It makes its run current, its number the one heard and its bubble active; mappings of another conversation are forgotten. |
| ChatSocket.RunKeepsLink | client/src/hooks/useChatWs.ts:375-466 | After every run of opens, closes, reconnects, subscribes, unsubscribes and unmounts, replaying what the current socket carried plus what waits subscribes to nothing outside the desired set. |
| ChatSocket.ServerMatchesDesired | client/src/hooks/useChatWs.ts:429-466 | Whenever an onopen handler has completed since the last close, whatever subscribes and unsubscribes followed, that replay equals the desired set; on an open socket what was sent alone does. |
| ChatSocket.ResubscribeRestores | client/src/hooks/useChatWs.ts:452-465 | The end of an onopen handler leaves exactly the desired subscriptions on the wire. |
| ChatSocket.ResubscribedLasts | client/src/hooks/useChatWs.ts:625-687 | Only a close, an unmount or a change of realtime mode undoes that. |
| ChatReconnect.LossIsRetried | client/src/hooks/useChatWs.ts:625-652 | In every run a hook without a socket has a retry waiting 250, 500, 1000 and then 2000 milliseconds, by the number of losses since it last opened, exactly if it is in realtime mode and the page has not left; the retry makes a new socket. |
| ChatReconnect.ReopenWaits | client/src/hooks/useChatWs.ts:429-466 | A socket that opens first sends what waited, in order; after a loss nothing else is sent until the snapshot refresh settles, and otherwise the desired subscriptions follow at once: sidebar, ingest, then conversations in order. |
| ChatReconnect.LossHeals | client/src/hooks/useChatWs.ts:413-652 | However the page subscribes and unsubscribes meanwhile, a lost connection that is retried, opens and settles its refresh has been told exactly the subscriptions wanted then. |
| ChatReconnect.OperationSends | client/src/hooks/useChatWs.ts:388-760 | A subscribe, unsubscribe or cancel goes behind everything sent or waiting, does nothing if it sends nothing, and a cancel never stays without a socket. |
| ChatReconnect.NothingOvertakes | client/src/hooks/useChatWs.ts:375-409 | In every run nothing on the wire is lost or overtaken while the socket lasts, and what waits survives the loss of a socket. |
| ChatReconnect.WantedLast | client/src/hooks/useChatWs.ts:701-710 | A conversation wanted anew is the last to be subscribed again; one wanted already keeps its place. |
| ChatReconnect.DroppedInOrder | client/src/hooks/useChatWs.ts:701-720 | A dropped conversation is gone and the others keep their order. |
| ChatSocket.WantDropKeeps | client/src/hooks/useChatWs.ts:689-732 | A subscribe or unsubscribe changes the desired set and the replay alike. |
| ChatWs.ChatWs.constructor | client/src/hooks/useChatWs.ts:350-361 | A new hook has made its first connection attempt and remembers nothing. |
| ChatWs.ChatWs.Send | client/src/hooks/useChatWs.ts:388-409 | The message is sent on an open socket and waits otherwise. |
| ChatWs.ChatWs.FlushPendingMessages | client/src/hooks/useChatWs.ts:375-386 | On an open socket everything that waited is sent, in order; otherwise nothing changes. |
| ChatWs.ChatWs.ConnectNow | client/src/hooks/useChatWs.ts:413-427 | A new connecting socket is made exactly when there is none; the retry timer is cleared either way. |
| ChatWs.ChatWs.ResubscribeAll | client/src/hooks/useChatWs.ts:448-465 | After the await of onopen the wanted topics are subscribed: sidebar, ingest, then each conversation. |
| ChatWs.ChatWs.SendConversations | client/src/hooks/useChatWs.ts:460-465 | Every wanted conversation is subscribed once, in insertion order. |
| ChatWs.ChatWs.OnOpen | client/src/hooks/useChatWs.ts:429-466 | What onopen does up to its await, or to its end when it does not reconnect. |
| ChatWs.ChatWs.SnapshotRefreshed | client/src/hooks/useChatWs.ts:438-465 | What onopen does after its await. |
| ChatWs.ChatWs.OnClose | client/src/hooks/useChatWs.ts:625-652 | The socket is forgotten, and a retry is scheduled unless the close was intended or realtime is off. |
| ChatWs.ChatWs.OnMessage | client/src/hooks/useChatWs.ts:468-515 | A message of the active socket is passed on exactly when the sequence filter accepts it, and then remembered. |
| ChatWs.ChatWs.SubscribeTopic | client/src/hooks/useChatWs.ts:689-728 | The topic becomes wanted and a subscribe is sent; nothing happens with realtime off or an empty conversation id. |
| ChatWs.ChatWs.UnsubscribeTopic | client/src/hooks/useChatWs.ts:695-732 | The topic is no longer wanted and an unsubscribe is sent. |
| ChatWs.ChatWs.CancelRun | client/src/hooks/useChatWs.ts:734-760 | A cancel request is sent or waits, and a closed connection is opened. |
| ChatWs.ChatWs.Unmount | client/src/hooks/useChatWs.ts:672-686 | Ingest is unsubscribed, the timer cleared and the socket dropped. |
| ChatWs.ChatWs.ChangeRealtime | client/src/hooks/useChatWs.ts:670-687 | The effect is torn down and run again with the new mode. |
| ChatStream.CollapseConfirmedUserEchoes | client/src/hooks/useChatStream.ts:375-400 | Drops exactly the optimistic user messages whose content a confirmed one has. |
| ChatStream.FindLatestOptimistic | client/src/hooks/useChatStream.ts:1656-1668 | Finds the last optimistic user message among the last eight. |
| ChatStream.FindSameTurn | client/src/hooks/useChatStream.ts:1696-1731 | Finds the last of the last eight messages that the turn repeats: same user content, and optimistic, within thirty minutes of the turn or within the last minute. |
| ChatStream.IndexOfId | client/src/hooks/useChatStream.ts:1640-1643 | Finds the first message with an id, or reports -1. |
| ChatStream.FindMatch | client/src/hooks/useChatStream.ts:1083-1113 | Finds the first candidate an entry matches. |
| ChatStream.DropRepeatedIds | client/src/hooks/useChatStream.ts:1154-1160 | Keeps the first message of each id. |
| ChatStream.DropId | client/src/hooks/useChatStream.ts:515 | Drops exactly the messages with the id. |
| ChatStream.UpdateToolSegment | client/src/hooks/useChatStream.ts:856-862 | Replaces the tool in its segment and reports whether it had one. |
| ChatStream.Transcript.RemoveOptimisticTracking | client/src/hooks/useChatStream.ts:327-342 | The id is no longer tracked nor the target of any inflight; all else stays. |
| ChatStream.Transcript.PruneOptimisticTracking | client/src/hooks/useChatStream.ts:344-373 | Tracked ids not on the list go, and inflights that named them. |
| ChatStream.Transcript.UpdateMessages | client/src/hooks/useChatStream.ts:402-412 | The list shown is the given one without confirmed echoes, and tracking is pruned to it. |
| ChatStream.Transcript.EditMessage | client/src/hooks/useChatStream.ts:638-681 | Exactly the message with the id is rewritten, and the list shown again. |
| ChatStream.Transcript.ConfirmUserMessage | client/src/hooks/useChatStream.ts:1644-1744 | The message at the index becomes the confirmed turn, untracked if asked for. |
| ChatStream.Transcript.InsertUserTurn | client/src/hooks/useChatStream.ts:1747-1765 | The new message goes to the end, or before the processing bubble of its own reply. |
| ChatStream.Transcript.ConfirmUnboundTurn | client/src/hooks/useChatStream.ts:1656-1745 | Without a bound message: a recent optimistic one with the content, or the last repetition of the turn. |
| ChatStream.Transcript.ConfirmUserTurn | client/src/hooks/useChatStream.ts:1636-1745 | The branches of the updater: bound message first, then a recent optimistic one, then a repeated turn; otherwise the turn needs a message of its own. |
| ChatStream.Transcript.MatchHistory | client/src/hooks/useChatStream.ts:1080-1142 | Splits history into unmatched entries and replacements, untracks matched echoes and notices a finished entry for a processing bubble. |
| ChatStream.Transcript.MergeHistory | client/src/hooks/useChatStream.ts:1067-1161 | The list updater of hydrateHistory as a whole. |
| ChatStream.Transcript.RemoveIfEmpty | client/src/hooks/useChatStream.ts:496-516 | The bubble goes exactly if it is an assistant bubble that shows nothing. |
| ChatStream.Bubbles.MapReused | client/src/hooks/useChatStream.ts:616-630 | A reused bubble keeps its mapping and is entered in the historical map. |
| ChatStream.Bubbles.RecordFinal | client/src/hooks/useChatStream.ts:2062-2098 | The inflight is seen and final, and no longer mapped. |
| ChatStream.Buffers.ApplyToolEvent | client/src/hooks/useChatStream.ts:791-878 | A request registers its call, keeping an earlier result; a result updates it, its segment and the citations. |
| ChatStream.Buffers.AppendDelta | client/src/hooks/useChatStream.ts:1935-1947 | Text grows by the delta, in the last text segment or a new one. |
| ChatStream.Buffers.Advance | client/src/hooks/useChatStream.ts:1935-2036 | What a delta, a thought, a warning or a tool event adds. |
| ChatStream.Buffers.LoadSnapshot | client/src/hooks/useChatStream.ts:1858-1871 | The buffers become the snapshot's, its tool events applied in order. |
| ChatStream.Buffers.Finish | client/src/hooks/useChatStream.ts:2172-2181 | A failed run without visible text shows its error instead. |
| ChatStream.CurrentRun.EnterStopping | client/src/hooks/useChatStream.ts:528-543 | The status is stopping, the current inflight is the one to stop, and a request id, if given, replaces the pending one. |
| ChatStream.ChatStream.constructor | client/src/hooks/useChatStream.ts:306-316 | A new hook is in the initial state, which is valid. |
| ChatStream.ChatStream.FindReusable | client/src/hooks/useChatStream.ts:556-578 | The bubble to reuse: the one mapped to the key, or without a key the active one or a last one still processing. |
| ChatStream.ChatStream.EnsureAssistantMessage | client/src/hooks/useChatStream.ts:556-636 | Reuses that bubble or makes an empty one, and maps it to the key. |
| ChatStream.ChatStream.ResolveAssistantId | client/src/hooks/useChatStream.ts:1878-1890 | The mapped bubble, or an ensured one. |
| ChatStream.ChatStream.OnIncrementalEvent | client/src/hooks/useChatStream.ts:1894-2040 | A delta, thought, warning or tool event is ignored for a final inflight or while another is current, and otherwise shown in the inflight's bubble. |
| ChatStream.ChatStream.AdoptInflight | client/src/hooks/useChatStream.ts:1829-1874 | A snapshot makes its inflight current with exactly the state it carries. |
| ChatStream.ChatStream.OnSnapshotEvent | client/src/hooks/useChatStream.ts:1799-1875 | Snapshots of final inflights and stale replays are ignored; any other is adopted. |
| ChatStream.ChatStream.AdoptUserTurn | client/src/hooks/useChatStream.ts:1587-1609 | The turn's inflight becomes current, seen and not final, with empty buffers if it displaces another while nothing is being sent. |
| ChatStream.ChatStream.OnUserTurnEvent | client/src/hooks/useChatStream.ts:1563-1770 | Stale replays are ignored; any other turn gets a bubble for its inflight and its user message confirmed or inserted. |
| ChatStream.ChatStream.ShowUserTurn | client/src/hooks/useChatStream.ts:1636-1766 | The list updater of a user turn. |
| ChatStream.ChatStream.ExistingAssistantMessage | client/src/hooks/useChatStream.ts:434-450 | The mapped bubble, or the historical one while it is on screen. |
| ChatStream.ChatStream.OnFinalEvent | client/src/hooks/useChatStream.ts:2042-2206 | A replay is ignored, a late final only marks its bubble, and the current run's final ends the run in its bubble. |
| ChatStream.ChatStream.FinishRun | client/src/hooks/useChatStream.ts:2157-2192 | The current run ends, in its bubble or a new one. |
| ChatStream.ChatStream.RemovePendingAssistant | client/src/hooks/useChatStream.ts:487-526 | An empty pending bubble and the pointers to it go. |
| ChatStream.ChatStream.OnCancelAckEvent | client/src/hooks/useChatStream.ts:1524-1559 | Only the acknowledgement of the pending stop ends it. |
| ChatStream.ChatStream.HandleWsEvent | client/src/hooks/useChatStream.ts:1505-2208 | The dispatch: other conversations are ignored, transcript events raise the sequence number first. Valid is kept, here and by every operation below. |
| ChatStream.ChatStream.Stop | client/src/hooks/useChatStream.ts:909-925 | The status becomes stopping for the current inflight. |
| ChatStream.ChatStream.Reset | client/src/hooks/useChatStream.ts:936-951 | Everything is forgotten under a new conversation id. |
| ChatStream.ChatStream.SetConversation | client/src/hooks/useChatStream.ts:953-977 | The conversation is switched and its tracking forgotten; messages stay unless cleared. |
| ChatStream.ChatStream.ConversationRendered | client/src/hooks/useChatStream.ts:306-316 | The effect of a changed conversation id: maps, tracking and pending stop are cleared. |
| ChatStream.ChatStream.AppendLocalMessage | client/src/hooks/useChatStream.ts:979-985 | The message is appended and the list shown. |
| ChatStream.ChatStream.AppendOptimisticUserMessage | client/src/hooks/useChatStream.ts:987-1005 | A tracked optimistic message is appended. |
| ChatStream.ChatStream.BindOptimisticUserMessage | client/src/hooks/useChatStream.ts:1007-1021 | A tracked message is bound to a non-empty inflight. |
| ChatStream.ChatStream.FinalizeOptimisticUserMessage | client/src/hooks/useChatStream.ts:1023-1035 | The message is untracked and confirmed. |
| ChatStream.ChatStream.Send | client/src/hooks/useChatStream.ts:1298-1380 | Nothing for blank text, while sending or without a model; otherwise the run starts with the user message and a new bubble. |
| ChatStream.ChatStream.SendAccepted | client/src/hooks/useChatStream.ts:1453-1466 | The server's inflight and conversation ids are taken over. |
| ChatStream.ChatStream.SendRejected | client/src/hooks/useChatStream.ts:1431-1482 | An error bubble is shown and the active bubble fails. |
| ChatStream.ChatStream.IsLive | client/src/hooks/useChatStream.ts:1045-1053 | Is a run current, streaming or being sent, or any message optimistic or processing? |
| ChatStream.ChatStream.HydrateHistory | client/src/hooks/useChatStream.ts:1037-1174 | History replaces or extends the list, the maps of another conversation are dropped, and a finished entry for a processing bubble resets the run. The hook stays valid exactly if the history meets the condition on tracked ids. |
| ChatStream.ChatStream.HydrateInflightSnapshot | client/src/hooks/useChatStream.ts:1188-1271 | Stale replays and snapshots not newer than the current one are ignored; any other is adopted. |
| AuthSeed.MutualExclusion | server/src/agents/authSeed.ts:40-56 | In every run, once a call is past the lock every earlier call on its key has finished: no two are ever inside together, and they enter in arrival order. |
| AuthSeed.EntryIffPending | server/src/agents/authSeed.ts:41-55 | A key has a map entry if and only if some call holds or awaits its lock, and the entry is the latest such call's. |
| AuthSeed.HeadCanProceed | server/src/agents/authSeed.ts:46-55 | The first unfinished call of a key can always wake: no wake-up is lost, also after a body that throws. |
| AuthSeed.StepRefinesFifo | server/src/agents/authSeed.ts:40-56 | Every action is one step of a first-in-first-out queue per key: an arrival joins the back, waking lets the head in, finishing removes the head, nothing else matters. |
| AuthSeed.RunRefinesFifo | server/src/agents/authSeed.ts:40-56 | Every run of the promise chains is a run of that queue. |
| AuthSeed.RunKeepsLock | server/src/agents/authSeed.ts:38-56 | The invariant of the promise chains holds in every run. |
| AuthSeed.AtMostOneSeeds | server/src/agents/authSeed.ts:63-131 | Of two calls on one path that both report a copy the later was told to overwrite, so at most one non-overwriting call succeeds. |
| AuthSeed.CopiesNeverOverlap | server/src/agents/authSeed.ts:113-116 | No two copies onto one path, overwriting ones included, are under way at once. |
| AuthSeed.PresentFileUntouched | server/src/agents/authSeed.ts:63-131 | A file present at the start is the same file after any run of non-overwriting calls. |
| AuthSeedRuns.ResultExplained | server/src/agents/authSeed.ts:63-131 | In every run a call copies only after the primary was found and, unless it may overwrite, its own file was not; it skips only because its file was there and it may not overwrite, or the primary was not; it warns only because a check, mkdir or copy failed. |
| AuthSeedRuns.OthersDoNotMatter | server/src/agents/authSeed.ts:38-56 | Once past the lock, what happens to a call and its file in any interleaving is what its own actions alone would do. |
| AuthSeedRuns.CallOutcome | server/src/agents/authSeed.ts:63-131 | Whatever other calls do in between, a call ends as its own outcomes promise (copied, skipped or warned), and where it got as far as copying the file is its copy, a partial one or as before. |
| AuthSeed.Seeder.WithLock | server/src/agents/authSeed.ts:40-49 | A call joins its key's chain. |
| AuthSeed.Seeder.Release | server/src/agents/authSeed.ts:52-55 | The finally block releases the chain and drops the entry if it is still this call's. |
| AuthSeed.Seeder.LockObtained | server/src/agents/authSeed.ts:49-51 | A call whose predecessor has resolved enters its body, at the check its kind starts with. |
| AuthSeed.Seeder.AgentChecked | server/src/agents/authSeed.ts:73 | A present file ends the call, a failed check warns, a missing file leads on. |
| AuthSeed.Seeder.PrimaryChecked | server/src/agents/authSeed.ts:74 | A missing primary file ends the call, a failed check warns. |
| AuthSeed.Seeder.DirectoryMade | server/src/agents/authSeed.ts:76 | A failed mkdir warns. |
| AuthSeed.Seeder.CopyEnded | server/src/agents/authSeed.ts:77-84 | The copy's outcome decides the file and the result. |
| Tiling.TilesCoverOnce | scripts/plan_sections.py:255-273 | Ranges that tile cover every line of the interval exactly once and no other line. |
| PlanStatus.ParsePlan | scripts/plan_status.py:105-175 | The loop yields for each task heading the task its lines describe: last status line, checkboxes per section, blockers, and the lines up to the next heading. |
| PlanStatus.CollectInto | scripts/plan_status.py:142-170 | What one line adds to the task being collected. |
| PlanStatus.TasksTile | scripts/plan_status.py:115-173 | Task ranges tile the plan from the first task heading to the last line. |
| PlanStatus.TasksHaveOneHeading | scripts/plan_status.py:115-136 | Each task's range holds one task heading, its first line. |
| PlanStatus.HighestIsHighest | scripts/plan_status.py:205 | The task chosen last is the first of those with the highest number. |
| PlanStatus.LowestIsLowest | scripts/plan_status.py:252 | The earliest to-do is the first of those with the lowest number. |
| PlanLines.TaskOfLines | scripts/plan_status.py:142-170 | A parsed task's counters are the numbers of boxes, ticked and open, below its subtasks and testing headings, its status is that of its last status line, and its blockers are exactly its blocker lines. |
| PlanLines.StaleMeans | scripts/select_current_task.py:113-122 | A task is stale exactly if its lines say in progress, hold a box under subtasks or testing, and no open one and no live blocker. |
| PlanLines.NormalizedLine | scripts/select_current_task.py:65-122 | Normalisation changes exactly the status lines of tasks whose number a task finished by its lines carries, and they then say done. |
| PlanLines.OpenTaskKeepsStatus | scripts/select_current_task.py:113-122 | So a task with a number of its own keeps its status lines while one of its boxes is open or a blocker is live. |
| PlanLines.StoryCompleteMeans | scripts/plan_status.py:239-260 | The story is complete exactly if there is a task and the lines of every task say done and leave nothing open. |
| SelectCurrentTask.RewriteLines | scripts/select_current_task.py:65-106 | The loop rewrites exactly the status lines below a heading whose number has an update that differs, and reports each. |
| SelectCurrentTask.Selector.RewriteTaskStatuses | scripts/select_current_task.py:65-106 | The plan file becomes the rewritten one; it is written only when something applies. |
| SelectCurrentTask.ParseCommutesWithRewrite | scripts/select_current_task.py:65-106 | Parsing the rewritten plan gives the original tasks with only the status replaced, and only for tasks with a status line and an update; titles, ranges, counters and blockers stay. |
| SelectCurrentTask.AppliedIffChanged | scripts/select_current_task.py:71-106 | Nothing is reported applied if and only if no line changes. |
| SelectCurrentTask.RewriteAt | scripts/select_current_task.py:73-91 | Whether a line is rewritten depends only on the line and the last heading above it. |
| SelectCurrentTask.Selector.Select | scripts/select_current_task.py:189-272 | A run leaves the plan normalised and then promoted, and writes the payload of the branch it took. |
| SelectionReport.RunIsReported | scripts/select_current_task.py:71-106 | The payload reports one entry per changed line, in order, with the number above it and its old and new status, for the normalisation and then the promotion. |
| SelectionReport.ReasonGiven | scripts/select_current_task.py:203-272 | The status and reason given are those of the number of tasks in progress after normalisation, of a to-do, and of the story being complete; open tasks are listed, all of them, exactly if there is more than one. |
| SelectionReport.TaskSelected | scripts/select_current_task.py:220-260 | The task selected is the one in progress, or after a promotion the first of the earliest to-do's number, and none otherwise. |
| SelectionReport.StoryReported | scripts/select_current_task.py:166-186 | Completion and final status are those of the plan the run leaves behind. |
| SelectionReport.PromotedLine | scripts/select_current_task.py:233-240 | A promotion changes exactly the status lines of the tasks with the earliest to-do's number, when nothing is in progress. |
| SelectionRuns.NormalizedTasks | scripts/select_current_task.py:113-201 | Normalisation marks done exactly the tasks that have a status and share their number with a stale task. |
| SelectionRuns.NormalizationIsExact | scripts/select_current_task.py:113-122 | It marks done exactly the stale tasks (in progress, with boxes, none unchecked, no live blocker) and no other task if and only if every task with a status that shares a stale task's number is stale too or already done; distinct numbers are enough. |
| SelectionRuns.PromotionCondition | scripts/select_current_task.py:203-240 | A promotion happens if and only if nothing is in progress and something is to do. |
| SelectionRuns.PromotionIsExact | scripts/select_current_task.py:233-240 | It changes exactly the lowest-numbered to-do task if and only if no other task of that number has a status. |
| SelectionRuns.RunSettles | scripts/select_current_task.py:189-272 | For every plan, shared numbers included: a run leaves it unchanged or strictly lowers the pair of to-do and in-progress counts; it leaves it unchanged if and only if no task is stale and something is in progress or nothing is to do. |
| SelectionRuns.RunDecreases | scripts/select_current_task.py:189-272 | A run leaves the plan unchanged or strictly decreases twice the to-do plus the in-progress tasks if and only if it promotes nothing or the promotion re-opens fewer tasks of its number than it takes on together with what normalisation takes off. |
| SelectionRuns.DistinctNumbersPay | scripts/select_current_task.py:189-272 | Distinct numbers are enough for that. |
| SelectionRuns.RunsReachFixedPoint | scripts/select_current_task.py:189-272 | Repeated runs settle on every plan, within (tasks + 1) times the to-do tasks plus the tasks in progress. |
| SelectionRuns.ResolvedFixedPoint | scripts/select_current_task.py:203-231 | Where a run resolves and changes nothing exactly one task is in progress, it is the selected one, and it is not stale. |
| SelectionRuns.SharedNumberReopens | scripts/select_current_task.py:233-240 | That condition can fail: promoting a shared number re-opens a done task, and the measure does not drop. |
| CheckHandoff.AcceptedExactly | scripts/check_current_task_handoff.py:175-264 | Any handoff is accepted if and only if everything could be read, it is for this plan, says resolved, and names by number, title and status the one task in progress. |
| CheckHandoff.RefusedBecause | scripts/check_current_task_handoff.py:175-264 | The reason given is the first check that fails, in the order path, story complete, not resolved, number of open tasks, no selected task, another task; a missing active task is never the reason. |
| CheckHandoff.SelectorAndValidatorAgree | scripts/check_current_task_handoff.py:207-264 | Right after a selector run the validator accepts if and only if the selector wrote resolved, reports story complete for a completed story and selection not resolved for both repair outcomes; all this if and only if the path is not blank and, where a to-do was promoted, exactly one task of its number carries a status and the first task of the number does. |
| CheckHandoff.DistinctNumbersAreClear | scripts/select_current_task.py:233-246 | Distinct numbers meet that condition. |
| CheckHandoff.SharedNumberDisagrees | scripts/check_current_task_handoff.py:231-258 | The condition can fail: with a shared number the selector writes resolved and the validator counts two open tasks. |
| CheckHandoff.PromotedState | scripts/select_current_task.py:233-246 | After a promotion as many tasks are in progress as carried a status under the promoted number, and the first task of the number is in progress exactly if it carried one. |
| CheckHandoff.PromotedAgrees | scripts/check_current_task_handoff.py:217-258 | A handoff written by a promotion is accepted if and only if the promotion was clear. |
| PlanSections.SectionRanges | scripts/plan_sections.py:255-273 | The loops yield one range per section heading, each ending before the next heading. |
| PlanSections.BoundedTaskEnd | scripts/plan_sections.py:280-286 | The end is the line before the first story heading inside the task, or the task's end. |
| PlanSections.SectionsTile | scripts/plan_sections.py:300-318 | Metadata and sections tile the lines from start to end. |
| PlanSections.SectionsHaveOneHeading | scripts/plan_sections.py:255-273 | Each section range has exactly one section heading, its first line, which names it. |
| PlanSections.TaskSectionsTile | scripts/plan_sections.py:280-318 | Inside every parsed task, metadata and sections tile the lines from its heading to its bounded end. |
| PlanSections.PickSections | scripts/plan_sections.py:321-336 | The loop picks exactly the wanted sections with their lines and remembers exactly the wanted names it met. |
| PlanSections.RequestedMeans | scripts/plan_sections.py:321-336 | The sections kept are all of them, or those whose name normalises as a requested item does, in order and as often as they occur. |
| PlanSections.ChosenMeans | scripts/plan_sections.py:328-336 | Each extract is a section kept, with exactly its lines. |
| PlanSections.TaskSections | scripts/plan_sections.py:300-341 | Metadata are the lines before the first section, sections the wanted ones, and an item is missing if and only if no section heading of the task normalises to it. |
| PlanSections.NamesAreHeadings | scripts/plan_sections.py:289-297 | The section names are exactly the normalised section headings of the task. |
| LogTransport.RunConserves | client/src/logging/transport.ts:9-63 | Acknowledged entries, the batch in flight and the queue are all accepted entries in order if and only if no flush met a waiting queue with forwarding off. |
| LogTransport.RunKeeps | client/src/logging/transport.ts:9-63 | In every run at most one POST of 1 to 10 entries is outstanding, the failures in a row wait 500, 1000, 2000 and then 4000 milliseconds, a waiting queue has a timer or was left by an offline browser, and nothing is repeated or reordered. |
| LogTransport.StepConserves | client/src/logging/transport.ts:15-63 | One event loses entries if and only if it discards a waiting queue. |
| LogTransport.SendAccepts | client/src/logging/transport.ts:57-63 | A call accepts exactly the entries of at most maxBytes, in order and as often as they were passed. |
| LogTransport.RunDelivers | client/src/logging/transport.ts:9-63 | With forwarding on throughout, every entry passed within its limit is acknowledged, in flight or queued, as often as it was passed. |
| LogTransport.WaitingIsPosted | client/src/logging/transport.ts:15-54 | Online, a call, a retry timer and a success leave nothing waiting without a POST, which takes the first entries waiting, at most ten. |
| LogTransport.FailureWaits | client/src/logging/transport.ts:46-51 | A failure puts the batch back in front and posts nothing until its timer; offline everything waits. |
| LogTransport.Forwarder.FlushQueue | client/src/logging/transport.ts:15-36 | Up to its fetch, flushQueue discards, leaves or takes a batch of at most ten. |
| LogTransport.Forwarder.Settled | client/src/logging/transport.ts:37-54 | The answer acknowledges the batch or puts it back in front and schedules the promised delay; an emptied backoff flushes again. |
| LogTransport.Forwarder.RetryTimer | client/src/logging/transport.ts:48 | A retry timer flushes. |
| LogTransport.Forwarder.Send | client/src/logging/transport.ts:57-63 | Entries that fit are queued in order, then flushed. |
| LogStore.FiltersNarrow | server/src/logStore.ts:20-41 | Without filters everything matches, and each filter narrows independently by its own field: level, source, text somewhere in the searched text, dates for dated entries, numbers for numbered ones. |
| LogStore.MatchingMeans | server/src/logStore.ts:84-85 | The matching entries keep their order and number. |
| LogStore.QueryRefinesHistory | server/src/logStore.ts:84-86 | A query bounded by a sequence the window still reaches finds what it would in the full history. |
| LogStore.QueryExactness | server/src/logStore.ts:84-86 | For a positive limit a query answers as over the full history if and only if the window fills the limit or no evicted entry matches. |
| LogStore.Store.Append | server/src/logStore.ts:43-46 | The entry gets the next number; the window holds the newest entries. |
| LogStore.Store.Query | server/src/logStore.ts:84-86 | The last matching entries of the window, and of the full history when sinceSequence reaches back far enough. |
| LogStore.Store.LastSequence | server/src/logStore.ts:88-90 | The number of the last entry; the window holds the last min(n, max) entries with consecutive numbers ending there. |
| LogStore.Store.ResetStore | server/src/logStore.ts:101-106 | The log starts over at number one. |

## Left out

- React rendering, routing, effects that only log, and all log and console calls.
- The thinking timer and the `thinking` and `thinkStreaming` flags, `threadId`, the set of confirmed inflight ids (written, never read), ids of segments, and the provider and model of a message.
- `send` keeps its changes of refs and messages; its request, its payload and the choice of a conversation id when there is none are not part of the model. An accepted answer is compared with the current conversation id rather than the one rendered when `send` was called.
- ChatStream: the refs of one concern are the fields of one object (transcript, bubbles, buffers, current run) rather than twenty separate ones.
- ChatDelivery.BubbleShowsServerText: the window ends at hydration, at a new send, at a switch of conversation and at a refused request.
- Tool results: parsing a payload string and extracting citations; the event carries its citations.
- Metadata (command, usage, timing) arrives normalised; a field that is explicitly undefined counts as absent.
- The closing state of a WebSocket, sends that throw, and the order in which `flushPendingMessages` puts failed sends back.
- The counters of deltas and tool events in `useChatWs.ts`, which only feed logs.
- `propagateAgentAuthFromPrimary`, a loop over the modelled copy; and a path that exists without being a regular file.
- Regular expressions, `splitlines`, the trailing newline of the plan file, JSON, path resolution and argument parsing of the scripts; the `active_or_done` selector, explicit task numbers and the list of inconsistent tasks.
- `render_range` strips trailing space from the extracted text; the model keeps the lines. `story_sections`, the task index and the profiles of `plan_sections.py` are not modelled.
- Log entries other than the fields the filters read; the emitter and the forwarding of client entries to the base logger in `logStore.ts`.
- `logStore.ts`: a limit that is not a positive number is modelled by what `slice` does, but the theorem about the full history is for positive limits.
