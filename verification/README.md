# KDE workspace: clipboard history, session management, menus and startup options

This project models four parts of the KDE workspace and proves properties of them, for all inputs and all runs.

* **Clipboard history** (`RingSpec`, `History`, `HistoryRuns`, `HistoryFile`, `HistoryPopup`). The history is a circle of
  items linked by uuid and resolved through a table. Class `ClipboardHistory.History` relinks it in place; every method is
  proved to do to the circle what a short function in `RingSpec` does to a sequence. What cycling means is proved about
  the sequences. Saving, loading, the lists for other programs and the "More" menus are clients of the ring.
* **Session management** (`SessionModel`, `SessionServer`, `SessionRounds`, `SessionSafety`, `SessionEnds`, `SessionRuns`,
  `SessionTrace`, `SessionPerform`, `SessionGaps`, `SessionExamples`, `SessionStore`, `SessionEntries`, `SessionMeaning`,
  `SessionPlan`). The manager's side of the X Session
  Management Protocol 1.0, with the window manager saving first. Class `SessionServer.KSMServer` holds the client objects
  and lists and changes them in place; its methods are proved against the functions of `SessionModel.Server`.
  `SessionRounds` runs these functions on arbitrary sequences of events and keeps, beside the server, what an observer has
  seen (who reported, who was told what, who may interact). `SessionPerform` delivers the same events to the objects: in
  every run they are in the states, and send the messages, of which the other modules prove properties. Messages that are
  sent, commands that are run and timers that are started are entries and flags of the state. What the handlers come to is
  proved without reference to them: `SessionEntries` says it of the lists of properties the clients have set,
  `SessionMeaning` of who has answered and who is told what, and `SessionPlan`, over runs, of the request that began a round.
* **Startup** (`StartupModel`, `StartupServer`, `StartupRuns`, `StartupRestore`, `StartupMeaning`, `StartupPerform`). The
  phases of the
  startup, the gate that applications can close, and the stored session's applications started one after the other.
  `StartupMeaning` says of the events when the gate is open, and of the stored entries what is launched and started;
  `StartupPerform` runs the object as `SessionPerform` does.
* **Menu editor** (`MenuModel`, `MenuFile`, `MenuMembership`, `MenuRuns`, `MenuMeaning`, `TreeSort`). The document of the Desktop Menu
  Specification 1.0 edited along paths, the queue of actions, and the sort that respects separators.
* **Startup options** (`StartupConfig`, `StartupFresh`). The writer that caches options and the checker that decides from
  time stamps whether the cache may be used.

`Strings` and `Picking` hold what several parts need: lower case, white space and the order of strings, and what it means to
pick elements out of a list in order.

## What the environment is assumed to do

* Clients of the session manager follow the protocol: a window manager reports done once per round, nobody asks for
  phase 2 outside a round, only the interacting client cancels, and only while a shutdown or a sub-session is being saved
  (`SessionRounds.Allowed`). The window manager's program name is fixed, no window manager joins during a round, and a round
  starts with no interaction holder. A sub-session may begin with things left over from a cancelled round: the run notes
  this (`counted`, `cleared`), and only the two properties that depend on it are stated for rounds that began without.
* A timer fires only while it runs, and klauncher and kcminit report only while they are listened to.
* In the runs of `HistoryRuns` the size limit stays positive, neither the only item nor the cursor's item is removed, and
  the limit is not shrunk below the cursor (`HistoryRuns.State.Allows`). The methods themselves do not require this: their
  contracts say exactly when the ring and the cursor stay sound.
* Whoever changes a configuration file after the cache was written leaves a later time stamp (`StartupFresh.Later`).

## What the code does not do

These are properties one might expect and which the code does not have; each is proved, with the exact condition.

* The program removes history items without the checks just mentioned: editing an item (`klipper/klipper.cpp:977`) and
  replacing it by a command's output (`klipper/clipcommandprocess.cpp:68`). In a history of one item the removal empties the
  table but leaves the top behind, and the insertion that follows looks up the top's neighbour in vain
  (`HistoryRuns.RemoveOnly`); `ClipboardHistory.History.Remove` says that this happens for the only item and no other.
* A checkpoint does not start the protection timer, so silent clients can block it
  (`SessionGaps.CheckpointGuarded`, and a run that leads there: `SessionExamples.UnguardedCheckpoint`).
* When a window manager leaves a logout or a checkpoint before it has reported, nobody tells the other clients to save.
  They can still be told if and only if exactly as many window managers have to report as are awaited
  (`SessionGaps.OthersCanStillBeTold`); a window manager that leaves makes the two differ (`SessionGaps.LeavingSticks`), for
  the rest of the round (`SessionGaps.StuckStays`), and the protection timer then ends it without them
  (`SessionGaps.EndsWithoutThem`). `SessionExamples.WmLeavesTheRound` is a run in which this happens.
* A cancelled round leaves interaction requests and the count of awaited window managers behind. A sub-session that
  follows is right about the turns iff it names all clients with a request, and about the count iff it was zero
  (`SessionGaps.CancelThenClose`, `SessionGaps.LeftoverRequests`, `SessionGaps.StaleCount`). In `SessionExamples.LeftoverRequest`
  a client waits for a turn that is free, in `SessionExamples.ToldTwice` a client is told to save twice in one round.
* Opening a part of the session is not refused while the session starts up, and ends the startup
  (`StartupRestore.OpeningStopsStartup`).
* Moving a menu leaves an instruction that names the old or the new place by all but the last component of its path. It
  names the right menu if and only if the path ends with a slash or has nothing beyond what both paths have in common
  (`MenuMeaning.MoveNames`).
* A separator sorted together with a nameless item can move (`TreeSort.SweptSeparatorStays`).
* The name of a file with a space in it is respelled before it is noted as a dependency, so that changes of the file go
  unnoticed (`StartupFresh.StaleJustWhenSpaced`). The description in `kstartupconfig/kstartupconfig.c:56-62` promises that all
  relevant files are noted.

## Model

| member | source | states |
|---|---|---|
| RingSpec.CycleNextPromotes | klipper/history.cpp:161-188 | from the state after an insert or a move to top, k < n steps forward give exactly the ring in which item k was moved to the top, with the cursor behind it |
| RingSpec.CycleNextSaturates | klipper/history.cpp:161-163 | after n - 1 steps the cursor is the top and every further step does nothing |
| RingSpec.PrevUndoesNext | klipper/history.cpp:190-220 | one step back undoes every effective step forward, links, top and cursor included, for every ring size |
| RingSpec.NextUndoesPrev | klipper/history.cpp:161-188 | one step forward undoes every effective step back |
| RingSpec.CycleRoundTrip | klipper/history.cpp:161-220 | k effective steps forward and k back are the identity |
| RingSpec.AnnouncedItemBecomesTop | klipper/history.cpp:223-239 | a step brings to the top exactly the item that was announced for it, and nothing moves when none was |
| RingSpec.CyclingPermutes | klipper/history.cpp:161-220 | cycling neither duplicates, loses nor invents an item |
| ClipboardHistory.HistoryItem.Chain | klipper/historyitem.cpp:98-102 | exactly the two links between two items are set |
| ClipboardHistory.HistoryItem.InsertBetween | klipper/historyitem.cpp:104-123 | the four links around an item are set, or its own two when it is alone; no other link changes |
| ClipboardHistory.TableCovered | klipper/history.cpp:241-245 | the table holds exactly the uuids of the circle |
| ClipboardHistory.History.Insert | klipper/history.cpp:46-63 | keeps one sound ring; a new item goes on top of the newest ones, a known one moves to the top; the user-selected mark follows |
| ClipboardHistory.History.ForceInsert | klipper/history.cpp:65-77 | refines the sequence insert; a known item changes nothing |
| ClipboardHistory.History.Trim | klipper/history.cpp:79-97 | keeps exactly the newest items up to the size limit, linked as one circle |
| ClipboardHistory.History.EraseOldest | klipper/history.cpp:79-97 | the erasing loop removes exactly the oldest items from the table and ends at the new bottom |
| ClipboardHistory.History.Remove | klipper/history.cpp:99-113 | takes the item out of the circle; the ring stays sound iff it was not the only item, the cursor iff it was not the item |
| ClipboardHistory.History.SlotClear | klipper/history.cpp:116-122 | leaves the empty history |
| ClipboardHistory.History.MoveToTop | klipper/history.cpp:132-150 | the item comes to the front, the others keep their order, the cursor is the former top |
| ClipboardHistory.History.SetMaxSize | klipper/history.cpp:152-155 | keeps the newest items; the history stays valid iff the cursor's item is kept (or one item is left) |
| ClipboardHistory.History.CycleNext | klipper/history.cpp:161-188 | the relinking of up to four neighbours, special cases included, refines a swap with the top |
| ClipboardHistory.History.CyclePrev | klipper/history.cpp:190-220 | the same for stepping back |
| ClipboardHistory.History.NextInCycle | klipper/history.cpp:223-227 | what is announced as the next item |
| ClipboardHistory.History.PrevInCycle | klipper/history.cpp:229-239 | what is announced as the previous item; nothing for an empty history |
| ClipboardHistory.History.Find | klipper/history.cpp:241-245 | finds exactly the items of the ring, each under its uuid |
| HistoryRuns.StepKeepsWellFormed | klipper/history.cpp:46-220 | every allowed action keeps the items distinct, within the limit, and the cursor alive |
| HistoryRuns.Perform | klipper/history.cpp:46-220 | every action on the linked ring is the same action on the list of uuids |
| HistoryRuns.PerformAll | klipper/history.cpp:46-220 | every run of actions on the linked ring is the same run on the list, and the ring is sound after it |
| HistoryRuns.HistoryIsMostRecent | klipper/history.cpp:46-97 | after any sequence of copies the history is exactly the most recently copied distinct contents, newest first, cut to the limit |
| HistoryRuns.MostRecentHasAll | klipper/history.cpp:46-77 | the most recently copied contents are all contents that were copied, and no others |
| HistoryRuns.RemoveOnly | klipper/history.cpp:99-113 | removing the only item leaves a top that the empty table does not know |
| HistoryFile.SaveHistory | klipper/klipper.cpp:445-453 | the walk ends and writes each item once, from the top |
| HistoryFile.LoadHistory | klipper/klipper.cpp:396-418 | the reversed list is inserted into a cleared history |
| HistoryFile.LoadedDistinct | klipper/klipper.cpp:403-418 | inserting distinct records oldest first gives the newest of them in their original order |
| HistoryFile.SaveThenLoad | klipper/klipper.cpp:403-453 | a saved history comes back in the same order, cut to the loading history's limit |
| HistoryFile.GetClipboardHistoryMenu | klipper/klipper.cpp:790-802 | lists the texts of all items from the top |
| HistoryFile.GetClipboardHistoryItem | klipper/klipper.cpp:804-817 | gives element i of that list, and the empty string outside it |
| HistoryPopup.PopupProxy.BuildParent | klipper/popupproxy.cpp:70-80 | the popup shows the matching items from the top, as many as it has room for, and, if any are left, a way to the next menu |
| HistoryPopup.PopupProxy.InsertFromSpill | klipper/popupproxy.cpp:143-181 | one page: the matching items from the remembered one on, as many as the height of the menu has room for and one more if there are any; it goes through at least one item and remembers where it stopped; if the remembered item has gone nothing changes |
| HistoryPopup.PopupProxy.FillMenu | klipper/popupproxy.cpp:150-170 | the loop goes on to the next item as long as the entries of the matching items so far fit into the room there is, and stops behind the first one that does not, or at the end of the ring |
| HistoryPopup.PopupProxy.OpenAll | klipper/popupproxy.cpp:70-181 | opening one "More" menu after the other shows page after page until the ring is exhausted |
| HistoryPopup.MatchingOne | klipper/popupproxy.cpp:159-163 | what the filter leaves of one item |
| HistoryPopup.PagesShowAll | klipper/popupproxy.cpp:143-181 | the pages concatenate to the filtered history in order, each match once, in at most n menus, whatever the heights |
| SessionServer.KSMClient.ResetState | ksmserver/client.cpp:72-78 | all four flags are cleared |
| SessionServer.KSMServer.RequestShutdown | ksmserver/shutdown.cpp:104-230 | starts a logout round, puts it off during startup, ignores it otherwise: the whole new state of server and clients |
| SessionServer.KSMServer.SaveCurrentSession | ksmserver/shutdown.cpp:237-268 | starts a checkpoint |
| SessionServer.KSMServer.SaveYourselfDone | ksmserver/shutdown.cpp:279-313 | notes the report, may complete the round, and after the last window manager has the others told |
| SessionServer.KSMServer.InteractRequest | ksmserver/shutdown.cpp:315-323 | queues the request and hands out the turn |
| SessionServer.KSMServer.InteractDone | ksmserver/shutdown.cpp:325-334 | only the holder's message counts; it cancels or passes the turn on |
| SessionServer.KSMServer.Phase2Request | ksmserver/shutdown.cpp:337-353 | notes the request, may complete the round, and counts as a window manager's first report |
| SessionServer.KSMServer.HandlePendingInteractions | ksmserver/shutdown.cpp:355-373 | gives the turn to the first waiting client and stops the protection timer, or restarts it |
| SessionServer.KSMServer.CancelShutdown | ksmserver/shutdown.cpp:376-401 | tells the clients, runs discard commands of those that saved, and is idle |
| SessionServer.KSMServer.ProtectionTimeout | ksmserver/shutdown.cpp:424-437 | gives up on silent clients and tries to complete the round |
| SessionServer.KSMServer.CompleteShutdownOrCheckpoint | ksmserver/shutdown.cpp:439-494 | goes on only when everybody in the round has answered; then those are told to whom phase 2 is owed; only if it is owed to nobody, the session is stored if it is to be saved and else discarded, commands are run for exactly the old data that nobody uses, or that is used, and the next phase begins |
| SessionServer.KSMServer.LogoutSoundFinished | ksmserver/shutdown.cpp:505-589 | starts the killing |
| SessionServer.KSMServer.CompleteKilling | ksmserver/shutdown.cpp:523-538 | goes on to the window managers when nobody else is left |
| SessionServer.KSMServer.KillWM | ksmserver/shutdown.cpp:540-565 | tells the window managers to die, or quits when there is none |
| SessionServer.KSMServer.CompleteKillingWM | ksmserver/shutdown.cpp:567-575 | quits when all clients are gone |
| SessionServer.KSMServer.KillTimeout | ksmserver/shutdown.cpp:591-597 | goes on to the window managers |
| SessionServer.KSMServer.WmKillTimeout | ksmserver/shutdown.cpp:599-605 | quits |
| SessionServer.KSMServer.SaveSubSession | ksmserver/shutdown.cpp:631-663 | asks the named clients to save; some of them are to be closed |
| SessionServer.KSMServer.StartKillingSubSession | ksmserver/shutdown.cpp:665-679 | tells the clients to be closed to die |
| SessionServer.KSMServer.CompleteKillingSubSession | ksmserver/shutdown.cpp:681-696 | waits for those that are not window managers |
| SessionServer.KSMServer.SignalSubSessionClosed | ksmserver/shutdown.cpp:698-709 | the sub-session is over |
| SessionServer.KSMServer.NewClient | ksmserver/server.cpp:806-811 | a new client joins with clear flags |
| SessionServer.KSMServer.DeleteClient | ksmserver/server.cpp:813-833 | a client leaves every list, its turn is passed on, and rounds and killings go on without it |
| SessionServer.KSMServer.StoreSession | ksmserver/server.cpp:888-963 | old commands are run, the first window manager moves to the front unless only a part of the session is stored, and the group, and no other, is written anew |
| SessionServer.KSMServer.WriteEntries | ksmserver/server.cpp:919-956 | the group has, numbered from one and in order, an entry for each client (of the part that is closed) that is not left out, with the program, commands, hint and user of the first properties of these names |
| SessionServer.KSMServer.DiscardSession | ksmserver/server.cpp:868-886 | discard commands that the old session also has are run |
| SessionEntries.OnlyTheGetters | ksmserver/client.cpp:63-187 | each getter gives the values of the first property of its name if that has the expected kind, and nothing else would be right: the program and the user the first value, the commands all, the restart hint the number of the first character |
| SessionEntries.StorableIs | ksmserver/server.cpp:925-944 | a client is stored iff its hint is not 3, it has a program or a restart command, and its program is not excluded by its path or by what follows the last slash |
| SessionEntries.EntryForIs | ksmserver/server.cpp:946-954 | an entry is the one written for a client iff it holds exactly what the client's properties say, and the mark of the window manager iff its program is that |
| SessionEntries.NumberedWrites | ksmserver/server.cpp:919-956 | the group has such an entry for each client of the list, numbered from one, and nothing else |
| SessionMeaning.StoringStores | ksmserver/server.cpp:888-963 | storing writes the clients not left out, in order, behind the first window manager, or those of a part of the session; only the round's group changes |
| SessionMeaning.CompletionIs | ksmserver/shutdown.cpp:439-494 | for every state: nothing happens unless everybody in the round has answered; then phase 2 begins for exactly those to whom it is owed; else the session is stored iff it is to be saved, exactly the right commands are run, exactly the right clients are told, and the phase moves on |
| SessionMeaning.BeginningAsks | ksmserver/shutdown.cpp:187-225 | a logout or checkpoint asks exactly the window managers to save, or everybody if there is none, announcing a logout and allowing interaction unless only a checkpoint is made |
| SessionMeaning.ClosingAsks | ksmserver/shutdown.cpp:647-662 | closing a part of the session asks exactly the clients with one of the names, and lists those to be closed |
| SessionMeaning.ReportingAsks | ksmserver/shutdown.cpp:302-313 | the last first report awaited from a window manager has exactly the other clients asked, any other report nobody |
| SessionMeaning.LateDoneIs | ksmserver/shutdown.cpp:279-290 | a report outside a round has only the data saved for it thrown away |
| SessionMeaning.CancellingIs | ksmserver/shutdown.cpp:376-401 | cancelling a logout tells every client and throws away what those have saved that had reported; cancelling the closing of a part tells whoever asked for it; the server is idle |
| SessionMeaning.PutOffIs | ksmserver/shutdown.cpp:104-125 | a request during startup is remembered, another one that starts nothing forgets it |
| SessionMeaning.AskingTurnIs | ksmserver/shutdown.cpp:315-373 | a request to interact waits for its turn or is granted at once, by phase; if nobody has the turn the first client of the list that waits gets it and the timer stops, and if nobody waits the timer starts |
| SessionMeaning.EndingTurnIs | ksmserver/shutdown.cpp:325-373 | only the holder's message passes the turn on, in the same way |
| SessionMeaning.SilenceIs | ksmserver/shutdown.cpp:424-437 | the timer takes exactly the clients that have not answered to be done, and then the round may end, unless somebody interacts or no round is on |
| SessionMeaning.AnswerIs | ksmserver/shutdown.cpp:279-353 | a report or request for phase 2 is noted for that client, then the round may go on, then a window manager's first answer counts |
| SessionMeaning.SoundIs | ksmserver/shutdown.cpp:505-565 | after the logout sound exactly the clients that are no window managers are told to die; when there are none, the window managers are, and without any of these either the server quits |
| SessionMeaning.KillTimersAre | ksmserver/shutdown.cpp:591-709 | the kill timer brings exactly the window managers' turn, their own timer ends the server, and that of a part of the session its closing |
| SessionMeaning.DepartureIs | ksmserver/server.cpp:813-833 | a departure brings the window managers' turn iff nobody else is left, ends the server when the last of them goes, and a part of the session iff only window managers of it are left |
| SessionPlan.StepSavesAsPlanned | ksmserver/shutdown.cpp:104-494 | an event that ends a round stores the session iff the request that began the round asked for it, in the group that follows from it and with the entries of the clients it is about, and otherwise discards it; no other event does either or changes what is stored; all requests to save are of the round's kind |
| SessionPlan.EveryRunSavesAsPlanned | ksmserver/shutdown.cpp:104-494 | so it is for every event of every run |
| SessionStore.Numbered | ksmserver/server.cpp:919-956 | entries are numbered 1..count without gaps and read back in order |
| SessionStore.WmFirst | ksmserver/server.cpp:911-917 | nobody is lost or doubled |
| SessionStore.WmLeads | ksmserver/server.cpp:911-917 | the first matching window manager comes first, the others keep their order |
| SessionStore.StoredIds | ksmserver/server.cpp:919-946 | exactly the storable clients are stored |
| SessionStore.StoredInOrder | ksmserver/server.cpp:919-946 | in their order, each as often as it is listed |
| SessionRuns.InitialInv | ksmserver/server.cpp:606-730 | the server starts with the invariant of every round |
| SessionRounds.StepKeepsInv | ksmserver/shutdown.cpp:104-709 | every event, in any order, keeps the invariant: the waiting count covers the window managers that have not reported; SaveYourself reaches a client at most once, and once no window manager is awaited every client that was there when the round began exactly once; flags tell the truth; the timer or an interaction guards the round; one client interacts and no request waits for a free turn |
| SessionRuns.RunKeepsInv | ksmserver/shutdown.cpp:104-709 | so does every run |
| SessionRuns.StepAwaits | ksmserver/shutdown.cpp:439-503 | no completion is missed: whenever a round is on, some client that takes part has not reported |
| SessionSafety.SavedOnlyWhenAllDone | ksmserver/shutdown.cpp:439-494 | without a protection timeout a session is stored or discarded only after every client of the round has itself reported done |
| SessionSafety.Phase2OnlyWhenAllReported | ksmserver/shutdown.cpp:439-470 | and nobody gets phase 2 before each of them has reported done or asked for phase 2 |
| SessionSafety.WindowManagersFirst | ksmserver/shutdown.cpp:188-225 | nobody else is told to save before every connected window manager has finished its first phase |
| SessionEnds.OneTimeout | ksmserver/shutdown.cpp:424-437 | a timeout ends the round iff nobody is owed phase 2; otherwise nobody is owed it afterwards |
| SessionEnds.TwoTimeoutsEndRound | ksmserver/shutdown.cpp:403-466 | with nobody interacting, two timeouts in a row always end the round |
| SessionEnds.HolderKeepsTurn | ksmserver/shutdown.cpp:315-373 | a new grant follows only the holder's InteractDone or disconnect |
| SessionEnds.KillOrder | ksmserver/shutdown.cpp:505-605 | Die reaches a window manager only when no other client is connected or the kill timer fired; the server quits only when all are gone, no window manager is left to kill, or its timer fired |
| SessionEnds.EverybodyIsKilled | ksmserver/shutdown.cpp:505-565 | every client is told to die when its turn comes after the logout sound or by the kill timer |
| SessionEnds.LastDepartureKills | ksmserver/server.cpp:813-833 | the window managers' turn comes with the departure that leaves nobody else, and then each of them is told to die |
| SessionRuns.NoRequestForgotten | ksmserver/shutdown.cpp:315-373 | within a round a request waits until it gets the turn, whatever else happens |
| SessionRuns.EveryStepIsSafe | ksmserver/shutdown.cpp:104-605 | the safety properties of one step, from the invariant |
| SessionRuns.EveryRunIsSafe | ksmserver/shutdown.cpp:104-605 | in every run from the start every event is handled safely |
| SessionTrace.HandleAfter | ksmserver/shutdown.cpp:104-709 | what a handler does and sends does not depend on what was sent before |
| SessionPerform.Deliver | ksmserver/server.cpp:190-262 | one event delivered to the server's objects does to them what the handler's function says |
| SessionPerform.Perform | ksmserver/shutdown.cpp:104-709 | the objects take the step of the run and send exactly its messages |
| SessionPerform.PerformAll | ksmserver/shutdown.cpp:104-709 | after every run the objects are in its state, which satisfies the invariant, and have sent its messages |
| SessionPerform.RunServer | ksmserver/server.cpp:606-640 | from a new server on |
| SessionGaps.CheckpointGuarded | ksmserver/shutdown.cpp:237-268 | a checkpoint does not start the protection timer: it is guarded iff the timer happened to run or nobody is connected |
| SessionGaps.StuckStays | ksmserver/shutdown.cpp:279-313 | once more window managers are awaited than can report, nobody is told to save by any event until the next round |
| SessionGaps.OthersCanStillBeTold | ksmserver/shutdown.cpp:279-313 | while window managers are awaited the others can still be told iff exactly as many have to report as are awaited |
| SessionGaps.ReportsTellOthers | ksmserver/shutdown.cpp:302-313 | then the reports of the missing window managers alone have every other client told |
| SessionGaps.LeavingSticks | ksmserver/server.cpp:813-833 | a window manager that leaves a round before it has reported makes it stuck |
| SessionGaps.EndsWithoutThem | ksmserver/shutdown.cpp:424-437 | at most two timeouts then end the round, with the others not told |
| SessionGaps.LeftoverRequests | ksmserver/shutdown.cpp:631-663 | a sub-session starts with no waiting request iff none was left over outside the clients it names |
| SessionGaps.CancelThenClose | ksmserver/shutdown.cpp:376-401 | after a cancel, a sub-session is right about the turns iff it names every client with a pending request, and about the count iff it was zero |
| SessionGaps.StaleCount | ksmserver/shutdown.cpp:302-313 | in a sub-session a window manager's report has others told to save iff the count was left at one by an earlier round |
| SessionExamples.UnguardedCheckpoint | ksmserver/shutdown.cpp:237-268 | a run from the start to a checkpoint without a timer |
| SessionExamples.WmLeavesTheRound | ksmserver/server.cpp:813-833 | a run from the start in which the only other client is never told to save, whatever follows in the round |
| SessionExamples.LeftoverRequest | ksmserver/shutdown.cpp:631-663 | a run from the start to a sub-session in which a client waits while the turn is free |
| SessionExamples.ToldTwice | ksmserver/shutdown.cpp:302-313 | a run from the start in which a client is told to save twice in one sub-session round |
| StartupServer.KSMStartup.RestoreSession | ksmserver/startup.cpp:94-130 | launches the stored window manager command, or the configured one; the whole new state |
| StartupServer.KSMStartup.StartDefaultSession | ksmserver/startup.cpp:137-152 | launches the window manager; the whole new state |
| StartupServer.KSMStartup.LaunchWM | ksmserver/startup.cpp:154-165 | starts the command and the four second timer; the whole new state |
| StartupServer.KSMStartup.WmProcessChange | ksmserver/startup.cpp:191-210 | a failing window manager is replaced by KWin, once; the whole new state |
| StartupServer.KSMStartup.StartAutoStart0 | ksmserver/startup.cpp:212-224 | first gated phase; the whole new state |
| StartupServer.KSMStartup.AutoStart0Done | ksmserver/startup.cpp:226-252 | second gated phase; the report is not listened to again; the whole new state |
| StartupServer.KSMStartup.KcmPhase1Done | ksmserver/startup.cpp:254-263 | goes on once; the whole new state |
| StartupServer.KSMStartup.AutoStart1Done | ksmserver/startup.cpp:285-305 | third gated phase, into the restoring; the whole new state |
| StartupServer.KSMStartup.ClientRegistered | ksmserver/startup.cpp:307-311 | the next application follows the previous one's registration; the whole new state |
| StartupServer.KSMStartup.TryRestoreNext | ksmserver/startup.cpp:313-365 | starts entries until one has to be waited for or none is left; the whole new state |
| StartupServer.KSMStartup.StartAutoStart2 | ksmserver/startup.cpp:367-406 | fourth gated phase; the whole new state |
| StartupServer.KSMStartup.AutoStart2Done | ksmserver/startup.cpp:432-440 | notes one half of the last phase; the whole new state |
| StartupServer.KSMStartup.KcmPhase2Done | ksmserver/startup.cpp:442-454 | notes the other half; the whole new state |
| StartupServer.KSMStartup.FinishStartup | ksmserver/startup.cpp:464-478 | ready when both halves are; the whole new state |
| StartupServer.KSMStartup.CheckStartupSuspend | ksmserver/startup.cpp:480-491 | holds the phase and starts the timer unless nobody suspends; the whole new state |
| StartupServer.KSMStartup.SuspendStartup | ksmserver/startup.cpp:493-498 | counts suspensions by application; the whole new state |
| StartupServer.KSMStartup.ResumeStartup | ksmserver/startup.cpp:500-511 | the last resume restarts the held phase; the whole new state |
| StartupServer.KSMStartup.StartupSuspendTimeout | ksmserver/startup.cpp:513-517 | so does the timer; the whole new state |
| StartupServer.KSMStartup.ResumeStartupInternal | ksmserver/startup.cpp:519-539 | clears the suspensions and enters the phase again; the whole new state |
| StartupServer.KSMStartup.RestoreSubSession | ksmserver/startup.cpp:554-566 | opens a stored part of the session; the whole new state |
| StartupRuns.StepKeeps | ksmserver/startup.cpp:212-539 | every event keeps the gate's bookkeeping, and something is always armed that moves the startup on |
| StartupRuns.NoWakeupLost | ksmserver/startup.cpp:480-539 | the last resume, or the timeout, restarts exactly the phase that was held |
| StartupRuns.GateRespected | ksmserver/startup.cpp:212-305 | a gated phase is left only with nobody suspending |
| StartupRuns.EveryStartup | ksmserver/startup.cpp:94-478 | over every interleaving the actions done form the script's prefix for the phase reached, and restoring goes in stored order without passing anybody over |
| StartupRuns.ReadyComesLast | ksmserver/startup.cpp:432-478 | ready comes only after both second-phase completions, with exactly the script's actions before it |
| StartupRuns.NextWaitsForPrevious | ksmserver/startup.cpp:307-365 | the next application is started only when the previous one registers or the timer gives up |
| StartupRestore.WaitsForEachId | ksmserver/startup.cpp:323-359 | one go starts entries without an id until it comes to one with an id, and waits for exactly that one |
| StartupRestore.ScriptInTurn | ksmserver/startup.cpp:212-478 | the actions come in their fixed order |
| StartupRestore.NothingTwice | ksmserver/startup.cpp:212-478 | no action of the startup but the launch of a window manager happens twice, neither while it goes on nor when it has been ready |
| StartupRestore.RestoresWhatIsStored | ksmserver/startup.cpp:313-365 | by the last phase exactly the entries with a restart command that want to be restarted and are and were no window manager were started, each once, in stored order |
| StartupRestore.FiringEnds | ksmserver/startup.cpp:313-365 | however few applications register, the restore timer brings the restoring of a session or sub-session to its end |
| StartupRestore.SessionComesBack | ksmserver/server.cpp:919-956 | if a session was stored from some clients, its startup has by the last phase started exactly those that were not left out, gave a restart command and neither were nor are the window manager, in stored order, each with the restart command it had set |
| StartupRestore.StoredWmIsLaunched | ksmserver/server.cpp:911-917 | the first window manager of the list is launched, with the restart command it had set |
| StartupRestore.OpeningStopsStartup | ksmserver/startup.cpp:554-566 | opening a sub-session leaves a startup going iff none was going |
| StartupMeaning.GateKeepsBooks | ksmserver/startup.cpp:480-539 | after any events the gate has exactly the suspensions on its books that were neither taken back nor forgotten when the timer fired |
| StartupMeaning.OpenWhenBalanced | ksmserver/startup.cpp:480-539 | the gate is open iff every application has resumed the startup as often as it has suspended it since the gate was last cleared |
| StartupMeaning.LaunchedAtFirst | ksmserver/startup.cpp:94-165 | the configured window manager is launched, or, where the session has entries of it, the command of the first one |
| StartupMeaning.OnlyKwinReplaces | ksmserver/startup.cpp:191-210 | a window manager is launched later only when the one being launched fails and is not KWin, and it is KWin then |
| StartupMeaning.LaunchedTwiceAtMost | ksmserver/startup.cpp:191-210 | so at most two are launched in a startup, the second being KWin |
| StartupMeaning.RestoreGoes | ksmserver/startup.cpp:323-359 | one go starts, in order, exactly the entries that may be started and whose clients are not there, up to and with the first that has an identity |
| StartupMeaning.AwaitedGoesOn | ksmserver/startup.cpp:307-365 | the awaited registration or the timer starts exactly the next go; then the next entry is waited for, or the last phase begins unless the gate is closed, or the part of the session is open |
| StartupMeaning.OpeningGoesOn | ksmserver/startup.cpp:554-566 | opening a part of the session starts with the first of the entries stored for it |
| StartupMeaning.ReportsTakenOnce | ksmserver/startup.cpp:226-454 | the report that ends a phase is not listened to again |
| StartupPerform.Perform | ksmserver/startup.cpp:212-566 | one event delivered to the object does what the handler's function says, timers and clients coming and going included |
| StartupPerform.PerformAll | ksmserver/startup.cpp:212-566 | after every run the object is in its state, which satisfies the invariant |
| StartupPerform.RunStartup | ksmserver/startup.cpp:94-155 | from a new server on that restores a session or starts the default one |
| MenuFile.MenuFile.FindMenu | kmenuedit/menufile.cpp:124-189 | finds the menu along a path, or makes what is missing on the way; finds nothing iff there is nothing |
| MenuFile.MenuFile.PurgeIncludesExcludes | kmenuedit/menufile.cpp:210-243 | takes one mention out of every list and finds the last list of each kind |
| MenuFile.MenuFile.AddEntry | kmenuedit/menufile.cpp:278-300 | the edit of the document and of the removed entries |
| MenuFile.MenuFile.RemoveEntry | kmenuedit/menufile.cpp:356-376 | the same for a removal |
| MenuFile.MenuFile.SetLayout | kmenuedit/menufile.cpp:302-353 | a new layout replaces earlier ones |
| MenuFile.EntryToDirId | kmenuedit/menufile.cpp:191-208 | the name is the one relative to the XDG directories if the path is absolute and there is such a name, and otherwise what follows the last slash |
| MenuFile.MenuFile.AddMenu | kmenuedit/menufile.cpp:378-386 | adds a directory under that name |
| MenuFile.MenuFile.MoveMenu | kmenuedit/menufile.cpp:388-438 | leaves a move instruction in the last common menu, and the new place marked as not deleted |
| MenuFile.MenuFile.RemoveMenu | kmenuedit/menufile.cpp:440-448 | marks the menu deleted: one Deleted child, no NotDeleted one |
| MenuFile.MenuFile.PushAction | kmenuedit/menufile.cpp:502-510 | appends to the queue |
| MenuFile.MenuFile.PopAction | kmenuedit/menufile.cpp:512-521 | only the last action can be taken back |
| MenuFile.MenuFile.PerformAction | kmenuedit/menufile.cpp:480-500 | one queued action is the edits it stands for |
| MenuFile.MenuFile.PerformAllActions | kmenuedit/menufile.cpp:523-547 | the queue in order, then the removed entries hidden, then saved |
| MenuFile.MenuFile.RestoreMenuSystem | kmenuedit/menufile.cpp:554-568 | starts from a new document |
| MenuMembership.MentionsPurged | kmenuedit/menufile.cpp:210-243 | purging leaves no mention iff no list had the entry twice; other entries keep theirs |
| MenuMembership.FindsEdited | kmenuedit/menufile.cpp:124-189 | the edited or created menu is the one its path finds afterwards |
| MenuMembership.OtherMenusKept | kmenuedit/menufile.cpp:124-300 | every other menu lists what it listed before |
| MenuMembership.EntryDecided | kmenuedit/menufile.cpp:278-376 | after an edit the entry is listed once in the right kind and not in the other, iff no list had it twice before |
| MenuRuns.LastWriterWins | kmenuedit/menufile.cpp:278-376 | over any sequence of edits a menu includes an id iff it was added there last, excludes it iff it was removed there last, never both, never twice |
| MenuRuns.NewDocumentListsLast | kmenuedit/menufile.cpp:88-93 | on a created document, exactly that |
| MenuRuns.RemovedAreLastRemoved | kmenuedit/menufile.cpp:278-376 | the removed entries are those whose last edit in any menu was a removal |
| MenuRuns.PerformedHides | kmenuedit/menufile.cpp:523-547 | after the queue every id whose last entry action was a removal, or that was noted as removed before and not touched since, is in .hidden exactly once; all else is decided by the queue alone |
| MenuMeaning.MarkLeft | kmenuedit/menufile.cpp:388-448 | after a removal the menu that its path finds has exactly one Deleted child and no NotDeleted one, after undoing it the other way round; its other children are as they were |
| MenuMeaning.LastMarkWins | kmenuedit/menufile.cpp:388-448 | over any sequence of edits a menu is marked as deleted iff it was removed last, as not deleted iff it was moved to last, never both, never twice |
| MenuMeaning.MovedIsUndeleted | kmenuedit/menufile.cpp:388-438 | the new place of a moved menu is marked as not deleted, wherever the instruction to move is left |
| MenuMeaning.MoveNames | kmenuedit/menufile.cpp:388-438 | the instruction to move, read from the menu it is left in, names the old and the new menu iff their paths end with a slash or have nothing beyond the common part; there is none only if both are the same |
| MenuMeaning.LayoutLeft | kmenuedit/menufile.cpp:302-353 | the new layout is the only one, comes last, and has the right element for each item |
| MenuMeaning.AppendedLast | kmenuedit/menufile.cpp:378-438 | a directory or an instruction to move is appended, the old place before the new one, and the menu is otherwise as it was |
| MenuMeaning.QueueDecides | kmenuedit/menufile.cpp:480-547 | over any queue of actions the last one about an entry in a menu decides whether it is included or excluded, and the last one that removes the menu or moves another there decides how it is marked |
| Strings.StringLessIs | kmenuedit/treeview.cpp:140-168 | one string is less iff it is a proper prefix of the other, or has the smaller character where they first differ |
| Strings.LowerIs | kmenuedit/treeview.cpp:140-168 | lower case changes the letters A to Z, each into the one 32 places on, and nothing else |
| Strings.StringLessTotal | kmenuedit/treeview.cpp:140-168 | the order of strings is irreflexive, asymmetric and total: of two different strings exactly one is less |
| TreeSort.StrictWeakOrder | kmenuedit/treeview.cpp:140-168 | both comparisons are strict weak orders |
| TreeSort.SortItemChildren | kmenuedit/treeview.cpp:1534-1549 | the loop sorts group after group and leaves the separators that end them |
| TreeSort.GroupsPermute | kmenuedit/treeview.cpp:1525-1553 | the children are permuted |
| TreeSort.GroupsAreSortedRuns | kmenuedit/treeview.cpp:1534-1549 | when exactly the separators are nameless, sorting by groups is the same as leaving every separator, swept-in ones included, at its index and sorting what lies between |
| TreeSort.SweptSeparatorStays | kmenuedit/treeview.cpp:1534-1549 | a separator sorted with a group stays first, whatever the sort does, iff nothing else in the group compares equal to it |
| TreeSort.SortItem | kmenuedit/treeview.cpp:1525-1569 | so it is for the item and for everything below it: separators stay, and neighbours between them are in the order of their lower-cased names or descriptions |
| TreeSort.InOrderIs | kmenuedit/treeview.cpp:140-168 | an item may stand in front of another iff the lower-cased descriptions, where one of them has any and these are what is sorted by, otherwise the lower-cased names, are equal or the first precedes the second |
| TreeSort.SortedRunsInOrder | kmenuedit/treeview.cpp:1534-1581 | after a sort neighbours without a separator between them are in this order |
| StartupConfig.Check | kstartupconfig/kstartupconfig.c:78-159 | the nested reading loops decide as the verdict says, for every content of the files |
| StartupConfig.GetEntry | kstartupconfig/kdostartupconfig.cpp:47-72 | the first word or quoted entry, and what follows |
| StartupConfig.WriteConfig | kstartupconfig/kdostartupconfig.cpp:84-163 | the writer's loop produces script, notes and code, line by line as the settings say (the value of the first entry with the key, or the default); nothing is written when a file cannot be opened |
| StartupConfig.RequestAsks | kstartupconfig/kdostartupconfig.cpp:47-118 | file, group, key and default are the first four entries of the line: words up to a blank, or what stands between quotes |
| StartupConfig.WrittenMeans | kstartupconfig/kdostartupconfig.cpp:94-167 | line by line: the value is that of the first entry with the key in the group, or else the default; a whole group gives a variable for each entry; the variable is named after file, group and key; the notes list the file in every directory; and the code says why the writer stopped |
| StartupConfig.LinesSplit | kstartupconfig/kdostartupconfig.cpp:96-106 | the lines put together are the text, and each ends at its newline or is full |
| StartupFresh.FreshIsCovered | kstartupconfig/kstartupconfig.c:113-152 | fresh iff the notes begin with a record of its own for every current key line, whose files all still exist and are no newer and whose marked files are still absent |
| StartupFresh.LinesOfText | kstartupconfig/kstartupconfig.c:113-128 | lines written are the lines read back |
| StartupFresh.FreshAfterWriting | kstartupconfig/kdostartupconfig.cpp:96-163 | right after a successful write the checker reports fresh iff all (short) key lines are trimmed and none is empty |
| StartupFresh.FreshMeansUnchanged | kstartupconfig/kstartupconfig.c:113-152 | a fresh cache, perhaps for fewer keys and on a later disk, begins with exactly what the writer would write now, values included, if no file name contains a space |
| StartupFresh.StaleWhenSpaced | kstartupconfig/kdostartupconfig.cpp:110-158 | for any key or group line of a file with a space in its name there is a stale cache that passes for fresh |
| StartupFresh.StaleJustWhenSpaced | kstartupconfig/kdostartupconfig.cpp:110-158 | and for no other line |
| StartupFresh.QuotedRoundTrip | kstartupconfig/kdostartupconfig.cpp:47-72 | entries written in quotes are read back, spaces and empty ones included |

## Left out

- Item contents, checksums and stream encodings of the clipboard: uuids are distinct identifiers, a record is its item.
- D-Bus, X11, ICE, dialogs, sounds, widgets and processes: messages and commands are entries of a list, dialogs are answers.
- Legacy session management clients, the lists of running legacy applications, and power management.
- KSMServer.clientSetProgram and the choice of the window manager from the configuration: the program is known when a client joins.
- KSMServer.pendingShutdownTimeout: a shutdown put off during startup is noted, its retry is a new request.
- The two machines of ksmserver run separately: the saving half sees the startup as one phase, and the startup half sees clients as registered ids. So the model does not show how KSMServer.restoreSubSession (`ksmserver/startup.cpp:554-566`), which does not ask for the state, overwrites that of a running logout or checkpoint.
- KConfig's merging of files: what a configuration amounts to is an arbitrary function of the contents of the listed files; kdeglobals, which the program does not list either, is not part of it.
- KShell's quoting of values and the operating system's distinction between unreadable, missing and special files.
- Lines of the key file longer than one read: `StartupFresh.FreshAfterWriting` and `StartupFresh.FreshMeansUnchanged` are about short lines, reading itself is modelled for lines of any length.
- MenuFile.uniqueMenuName, loading a menu file and its error messages.
- TreeSort.Sort: stands for std::sort, of which only the contract is used; the order of equal items is left open.
- The tree's root item, layout marks and widgets in the sort; names are compared by lower-casing the letters A to Z only.
- MenuFile.MenuFile.FindMenu: elements are reached by their positions in one document value, so two handles to the same element are not modelled.
- StartupServer.KSMStartup: fields that belong together are records, reassigned as a whole.
