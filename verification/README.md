# A model of the notifs-piper daemon

notifs-piper is a notification daemon. D-Bus calls, client requests and expiry threads push jobs on one shared list; one
manager thread pops them, works on a bounded log of notifications and sends results back; a listener routes each result
to the process that asked, or fans it out to every watcher, which may push further jobs. This project models that daemon
in Dafny and proves what it keeps in every run, under every interleaving of its threads.

| file | what is in it |
|---|---|
| `Types.dfy`, `Log.dfy` | notifications, jobs, results; the bounded deque as pure operations |
| `Executor.dfy` | what executing one job does to the log and answers, as a pure function |
| `History.dfy` | whole sessions: every entry of the log explained by what was executed since the start |
| `Order.dfy` | when the log is newest first |
| `System.dfy` | the daemon as a transition system: one action per atomic thing a thread does |
| `Queueing.dfy`, `Numbering.dfy`, `Calls.dfy`, `Saving.dfy`, `Expiry.dfy`, `Routing.dfy`, `Watching.dfy`, `Notices.dfy`, `Settling.dfy` | one inductive property of the system each: tokens and order; ids; calls over D-Bus and what was pushed for them; what the disk holds; expiry; replies; fan-out and panics; results for everybody and who has read what; termination |
| `Daemon.dfy` | the main theorems, about every reachable state |
| `Walks.dfy` | runs at particular inputs, for what the theorems do not promise |
| `Text.dfy`, `Wire.dfy`, `Grammar.dfy` | the messages on the socket: parsers, printers, round trips, which texts are accepted and what the others are answered |
| `Shared.dfy`, `Manager.dfy`, `Dbus.dfy`, `Listener.dfy`, `Server.dfy` | the program's own classes and loops, proved against the functions above |

`dafny verify dfyconfig.toml` checks everything.

The three layers are tied together. The methods of the classes are proved equal to pure functions (`Manager.ExecSpec`,
`Dbus.NotifySpec` and `Dbus.PushSpec`, `Listener.IncomingSpec`, `Listener.ReplySpec` and `Listener.NoticeSpec`), and those,
in every state of the system, to the actions that one call stands for (`Manager.ExecIsTheManagersActions`,
`Dbus.NotifyIsTheBusActions`, `Dbus.CloseIsTheBusAction`, `Listener.IncomingIsTheRequestTask`,
`Listener.ReplyIsTheReplyTask`, `Listener.NoticeIsTheNoticeTask`). `Listener.TextTellsTheSame` says that what the listener
reads out of the text of a result is what the system says of the result itself, and `Listener.PassingSignalGoesOut`,
`BroadcastGoesOut`, `ReadGoesOut` and `QueryGoesOut` say what text each result of the manager has.

A session is what happens from one start of the daemon to the next. Theorems about histories are about one session each;
what a stop and a new start take back is said exactly by `Daemon.TrueStaysTrueExactly` and `Daemon.TrueForARunExactly`,
which are about whole runs.

## What the theorems assume

- Clients (`System.Assumed`): a `replaces_id` is 0 or at most the counter, the u32 counter does not run over, requests are
  those the command line sends (process id 0 for signals, the process's own id for read, query and watch, the same id in
  envelope and job), and a process that waits for a reply does not ask again. `Numbering.ForeignReplacementBreaksIds`
  shows what the first is for, `Executor.IdsStayDistinctExactly` and `Dbus.FreshIdExactly` when ids stay distinct.
- The stored log a daemon starts from for the first time has distinct ids, none of them 0. Later starts need no such
  assumption: the daemon may be stopped at any moment and started again over whatever its disk holds.
- One clock in milliseconds stands for both clocks of the program. A write to the disk succeeds, and the system grants every
  expiry thread that is asked for (src/server/jobs/broadcast.rs:51 panics on the manager thread otherwise). Sending a result to the
  listener, and writing to a client or a watcher, may fail at any time.
- The JSON library reads back what it wrote, notifications and lists of them, and never writes an empty text.
- Emitting a D-Bus signal may work or fail in either of two ways; the choice is open at each signal.
- A fan-out is one action: the listener holds the lock on the watchers from the first write to the last.

Nothing is assumed about FORCE, about the bounds of a read, or about the bound of the log: where those matter the
theorems say exactly how.

## Where code and documentation disagree, and where the code does not do what one expects

- README.md:46 of the repository says that a `true` answer to a query stays true for ever. It stays true over an action of
  the daemon exactly if the action does not replace or evict the notification, and is not a new start over a disk that was
  last written before the close (`Daemon.TrueStaysTrueExactly`, over whole runs `Daemon.TrueForARunExactly`;
  `Executor.QueryTrueIsNotForEver` and `Walks.RestartForgetsAClose` show both ways to lose it). In the second case the
  next close of the same notification goes out a second time.
- The same line says that the query also tells whether a notification does not exist in the log. It answers `false` then, as
  for an open one (`Executor.QueryAnswersExactly`, src/server/jobs/query.rs:18).
- README.md:15 says that there is a maximum number of stored notifications. Eviction tests for equality, so the bound holds in a
  session exactly if the stored log was within it and it is not 0, or it is 0 and nothing is ever broadcast
  (`History.BoundHoldsExactly`, `Walks.StoredLogOutgrowsTheBound`).
- A forced close of an id that is not in the log stops the manager thread, and so does a read whose end lies before its
  start and inside the log, which a release build of the client sends if `skip + count` does not fit in 16 bits, and so
  does a result that cannot be sent to the listener. As long as the disk can be written and threads can be had, nothing
  else does
  (`Executor.PanicsExactly`, `Daemon.ManagerStopsExactly`, `Daemon.ManagerStopsOnlyFor`; `Walks` has a run for each).
- Once the manager thread is gone, the next token a listener task sends makes the task panic, and the next D-Bus call panics
  with the job list locked; from then on whoever wants to push a job panics, requests get lost and expiries too
  (`Daemon.ThreadsPanicExactly`, `Walks.RequestAfterTheEnd`, `Walks.CallAfterTheEnd`). Before that nothing panics
  (`Daemon.UnwrapsNeverFail`).
- With auto-close on, an open notification that was loaded at the start never expires (`Daemon.GuardedOnlyThisSession`,
  `Walks.LoadedStaysOpen`).
- README.md:29 says that a notification becomes read once it is read or watched. What no read has shown is marked by the
  acknowledgement of a watcher, which only knows the id. So a notification can also be marked that nobody has got: exactly
  if an acknowledgement of an earlier notification of its id is executed after its broadcast
  (`Daemon.WatchedIsReadExactly`, `Walks.LateAckMarksTheReplacement`).
- README.md:66 shows an `oth` message with the bare text of an error. The program prints the whole result in the rendering
  of the language, `Err("...")`, so this message never comes (`Wire.DocumentedOtherIsNeverPrinted`).
- src/server/manager.rs:35-37 keeps timeouts in 16 bits because none is negative. A positive timeout above 65535
  milliseconds is taken modulo 65536 (`Executor.LongTimeoutsWrap`); all deadlines are stated through that mapping.
- README.md:25 says that a read answers the most recent notifications first, and `--skip` skips the most recent ones. It does
  whenever the log is newest first, and a read of everything only then (`Order.ReadsNewestFirstExactly`). Since the back
  entry moves into the hole of a replaced one, the log stays so over a broadcast exactly if that replaces nothing, or one
  of the last two entries, or the last but two of a log that is one entry longer than its bound
  (`Order.OrderByTimeExactly`); within a session it is always so exactly if it was loaded so and every broadcast is of that
  kind (`Daemon.NewestFirstExactly`). `Walks.ReplacingBreaksTheOrder` shows three entries out of order.

## Model

| member | source | states |
|---|---|---|
| Types.FlagsAreBits | src/server/jobs/mod.rs:176-187 | the two flag tests of the model are the byte masks of the program |
| Log.FindIsMembership | src/server/manager.rs:188-190 | with distinct ids, finding an id returns an entry exactly if the log holds it |
| Log.SwapRemoveBackKeepsTheRest | src/server/manager.rs:220 | taking an entry out with the back entry moved into the hole loses that entry only, as a multiset |
| Log.RemoveTakesOne | src/server/manager.rs:214-221 | removing an id removes its entry and nothing else, and ids stay distinct |
| Log.KeptLosesTheBack | src/server/manager.rs:224-226 | eviction drops the back entry exactly if the log is full, and nothing else |
| Log.AppendBound | src/server/manager.rs:223-229 | one append keeps the bound exactly if the log was within it and the bound is not 0; a log too long only grows |
| Log.PushFrontKeepsDistinct | src/server/manager.rs:228 | a new front entry keeps ids distinct exactly if its id was not there |
| Log.MarksTouchOneEntry | src/server/manager.rs:236-241 | marking by id sets one flag of one entry; everything else keeps its value |
| Log.SliceableExactly | src/server/manager.rs:253-254 | the clamped slice exists exactly if start <= end or the log ends before the end |
| Log.ReadThroughAt | src/server/manager.rs:257-261 | a marking read sets `read` on exactly the positions of its window and moves nothing |
| Log.ReadsCompose | src/server/manager.rs:245-269 | two adjacent reads return the entries, and leave the log, of the one long read |
| Log.MaxId | src/server/mod.rs:62 | the start of the counter is the largest stored id, 0 for an empty log |
| Executor.ExpiresExactlyWhenMapped | src/server/manager.rs:276-283 | both unwraps on the mapped timeout succeed exactly for timeouts that are -1 or positive; -1 maps to the default, a positive one to its 16 low bits |
| Executor.LongTimeoutsWrap | src/server/manager.rs:276-283 | a positive timeout means what it says exactly up to 65535 milliseconds; 65536 expires at once |
| Executor.PanicsExactly | src/server/jobs/close.rs:58-65 | executing a job stops the manager exactly for a forced close of a missing id or a reversed read window inside the log |
| Executor.GateExactly | src/server/jobs/close.rs:58-89 | a signal goes out exactly if its entry is open or it is forced, and an expiry moreover only for an entry that expires and is due; only a close that passes changes the log |
| Executor.DueExpiryCloses | src/server/jobs/close.rs:67-98 | an expiry executed at or after the deadline of the entry leaves that entry closed |
| Executor.ExpiresInNumbers | src/server/jobs/close.rs:67-98 | with auto-close on, an expiry leaves an open entry closed exactly from its time plus the default, or plus its timeout modulo 65536, on; without a timeout never |
| Executor.TimerInNumbers | src/server/jobs/broadcast.rs:32-69 | a broadcast starts exactly one thread that wakes after the default or after the timeout modulo 65536, and none without auto-close or without a timeout |
| Executor.ReplyNamesTheSignal | src/server/jobs/signals.rs:34-59 | the result of a signal carries that signal's event whether or not the bus took it, and is an error with the reason exactly if it did not |
| Executor.BroadcastConserves | src/server/jobs/broadcast.rs:20-71 | a broadcast puts its notification in front and loses the replaced and the evicted entry only; a replacement within the bound evicts nobody |
| Executor.BroadcastEntries | src/server/jobs/broadcast.rs:22-69 | who is in the log after a broadcast of a well-numbered notification; ids stay distinct |
| Executor.IdsStayDistinctExactly | src/server/jobs/broadcast.rs:22-69 | a broadcast keeps ids distinct exactly if it has no namesake, replaces it, or evicts it |
| Executor.ReadAnswersWithTheLogAfter | src/server/jobs/read.rs:17-30 | a read answers with its window as the log shows it afterwards, marked unless it was silent |
| Executor.QueryAnswersExactly | src/server/jobs/query.rs:15-21 | a query says true exactly if the log holds a closed entry of the id |
| Executor.QueryStableExactly | src/server/jobs/query.rs:18 | over one job of a running daemon a true answer stays true exactly if the job does not replace or evict the entry |
| Executor.QueryTrueIsNotForEver | README.md:46 | a replacement turns a true answer into false |
| Executor.ReadEntries | src/server/manager.rs:257-261 | a marking read adds and drops no entry and keeps ids distinct |
| History.DistinctAlways | src/server/manager.rs:214-229 | ids are distinct before every execution of a session |
| History.LogRefinesHistory | src/server/manager.rs:214-269 | every entry is the latest broadcast of its id or the loaded one, closed exactly if it was or a passing close followed, read exactly if it was or an acknowledgement or a read that showed it followed |
| History.FlagsOnlyRise | src/server/manager.rs:174-202 | within a session, between two broadcasts of an id neither flag goes back and nothing else of the entry changes |
| History.SignalsFollowTheProtocol | src/server/jobs/signals.rs:25-59 | within a session, an unforced signal belongs to a block opened by a broadcast of its id or by an open loaded entry and not closed since |
| History.NothingAfterAClose | src/server/jobs/close.rs:58-98 | within a session, after a close of an id no unforced signal on it passes before its next broadcast |
| History.ExpiryIsNeverEarly | src/server/jobs/close.rs:67-89 | an expiry that goes out finds the deadline of the latest broadcast of its id reached |
| History.BoundHoldsExactly | src/server/manager.rs:223-229 | the log stays bounded through a session exactly if it was loaded within a bound that is not 0, or nothing is broadcast |
| Order.OrderByTimeExactly | src/server/manager.rs:214-229 | with a newest-first log and a newer notification, the log after a broadcast is newest first exactly if it replaces nothing or an entry far enough back |
| Order.OrderOverBroadcastExactly | src/server/manager.rs:214-229 | the same for any way of telling ages before and after the broadcast |
| Order.OrderAfterRemoving | src/server/manager.rs:220 | moving the back entry into a hole keeps the order of what is left exactly if no entry behind the hole is left |
| Order.OrderHoldsExactly | README.md:25 | a session has kept its log newest first up to any point exactly if it was loaded so and every broadcast kept it |
| Order.ReadsNewestFirstExactly | README.md:25 | a read of a newest-first log answers newest first, behind all it skips and before all it leaves, and a read of everything only of such a log |
| Queueing.TokensKept | src/server/mod.rs:100-118 | as long as there is a manager thread, tokens sent, owed and taken equal the jobs in the list, and nobody has poisoned it, so the manager never wakes to an empty or locked list |
| Queueing.LineChanges | src/server/manager.rs:285-297 | an action adds one job at the end of the line, unless the list is poisoned, or serves the first one, or leaves the line alone |
| Queueing.ConservedKept | src/server/manager.rs:285-297 | executed jobs followed by waiting jobs are always the jobs pushed, in order |
| Queueing.UntouchedIsUnchanged | src/server/manager.rs:204-212 | a job that does not set the dirty flag does not change the log |
| Queueing.PersistedKept | src/server/manager.rs:285-308 | a clean manager agrees with its disk, and a dirty one that is past its flush has more jobs waiting, although `empty` is read at the pop |
| Queueing.IdleIsPersisted | src/server/manager.rs:293-308 | idle with an empty list, the disk holds the log and a new process rebuilds it |
| Numbering.ShapedKept | src/main.rs:98-105 | only jobs the daemon makes and jobs the command line sends are ever in line |
| Numbering.NumberedKept | src/server/dbus.rs:114-141 | ids in log, disk and line stay known to the counter, a queued fresh notification shares its id with no entry and no earlier broadcast, and the log is the replay of the session |
| Numbering.ForeignReplacementBreaksIds | src/server/dbus.rs:114-120 | replacing an id that was never handed out puts two notifications with one id into the log |
| Calls.ToldKept | src/server/dbus.rs:101-152 | every action keeps that what was pushed for D-Bus calls, and what is about to be, are the calls that came in, in order, each with its own timeout, content, replaced id and time |
| Calls.EntryIsACall | src/server/dbus.rs:101-144 | an entry broadcast in this session has the timeout, content, replaced id and time of one call that came in |
| Calls.PushedAreExpectedKept | src/main.rs:98-105 | only jobs the daemon makes and jobs the command line sends have ever been pushed |
| Saving.SavedKept | src/server/manager.rs:300-308 | the disk always holds the log as it was after some number of executions of the session, a number that never goes down |
| Saving.ClosedInBetween | src/server/jobs/close.rs:95-98 | a notification that is closed now and was not at some earlier point of the session had a close go out since |
| Saving.RestartReopensExactly | src/server/manager.rs:204-212 | a stop and a new start make a closed notification one that is not exactly if a close of it went out after what the disk holds, and the disk has it not closed |
| Saving.ClosedStaysExactly | src/server/jobs/query.rs:18 | a closed notification stays closed over an action exactly if the action does not displace it and is not such a new start |
| Expiry.NoOrphansKept | src/server/jobs/broadcast.rs:32-69 | every action keeps every open expiring notification guarded by a thread or a due expiry, as long as the list is not poisoned |
| Expiry.GuardedAfterFire | src/server/jobs/broadcast.rs:50-64 | a thread that wakes hands its guard on to the job it pushes |
| Expiry.GuardedAfterWork | src/server/jobs/close.rs:67-98 | an entry still open after a job has not lost its guard |
| Expiry.ExpiryNeedsAutoCloseKept | src/server/jobs/broadcast.rs:32 | expiries and their threads exist only with auto-close on |
| Expiry.ExpiriesArePostedKept | src/server/jobs/broadcast.rs:43-64 | threads and expiries only come from broadcasts of the session |
| Expiry.GuardedExactly | src/server/jobs/broadcast.rs:32-69 | an open expiring entry has a guard exactly if it was broadcast in this session |
| Routing.RoutedKept | src/server/listener.rs:164-184 | every action keeps each waiting request in exactly one place, with its connection held in between, also when its task panics |
| Routing.RoutedUnhold | src/server/listener.rs:246-254 | when a reply comes its connection is there, so the unwrap does not fail |
| Routing.RoutedPushRequest | src/server/listener.rs:173-175 | pushing a held request keeps the places matched |
| Routing.RoutedSend | src/server/manager.rs:310-319 | a read or query always has a result to send, and sending it keeps the places matched, whether it works or not |
| Watching.FanOutExactly | src/server/listener.rs:186-243 | exactly the watchers whose write worked stay, and one acknowledgement follows exactly if the message is a notification and one who stays is not silent |
| Watching.RegisteredKept | src/server/listener.rs:164-171 | every action keeps that each watcher has asked to watch on its own connection, with the flags it is registered under |
| Watching.HeardAloudKept | src/server/listener.rs:203 | every action keeps that nothing is heard unless somebody asked to watch without being silent |
| Watching.NoticesSafeKept | src/server/listener.rs:218-224 | results for process 0 that look like results are notifications |
| Watching.HaltExplainedKept | src/server/mod.rs:102-134 | a manager thread that has ended did so at a job that panics, for one of the two known reasons, or at a result that was not sent |
| Watching.StopsExactly | src/server/mod.rs:102-134 | as long as the disk takes writes and threads are granted, an action ends the manager thread exactly if it executes such a job or fails to send a result |
| Watching.ResultInHandKept | src/server/manager.rs:297-319 | what the manager has to send is what the last execution gave |
| Watching.TasksPanicExactly | src/server/listener.rs:143-157 | a listener task panics exactly if it sends its token to a manager that is gone or wants to lock a poisoned list |
| Watching.CallsPanicExactly | src/server/dbus.rs:84-91 | a D-Bus call panics exactly if the manager is gone or the list poisoned, an expiry thread exactly at a poisoned list, and the list is poisoned exactly by a D-Bus call to a manager that is gone |
| Watching.LostExactly | src/server/listener.rs:174-175 | a request is lost exactly when its task comes to a poisoned list |
| Watching.CalmKept | src/server/listener.rs:143-157 | while the manager thread is there nothing panics and no request is lost |
| Notices.CountedKept | src/server/manager.rs:310-319 | the results for everybody of all executions are those fanned out, those on their way and the one in the hand of the manager |
| Notices.TellsExactly | src/server/manager.rs:310-319 | an execution under process 0 has a result for everybody exactly if it is a broadcast, which then carries its own notification, or a signal that passed |
| Notices.AnnouncedKept | src/server/jobs/broadcast.rs:20-71 | only what was broadcast is announced, and only what was heard is about to be acknowledged |
| Notices.CausedKept | src/server/listener.rs:218-239 | every acknowledgement ever pushed goes back to a notification of its id that was broadcast before it and heard by a watcher |
| Notices.AcknowledgedKept | src/server/listener.rs:218-239 | what was heard is acknowledged or about to be, unless the list is poisoned |
| Notices.ReadByAckExactly | src/server/jobs/acknowledge.rs:9-12 | an entry that no read has shown is marked exactly by the acknowledgement of its own notice, which was heard, or by a late one for an earlier notification of its id |
| Notices.HeardIsAcked | src/server/listener.rs:218-239 | with nothing left in line, what was heard has been acknowledged after its broadcast |
| Settling.WorkWeighs | src/server/jobs/broadcast.rs:32-71 | a job can cause at most one thread and one result, an acknowledgement neither |
| Settling.InternalActionsSettle | src/server/listener.rs:186-244 | every action the daemon takes by itself uses up a natural number |
| Settling.QuietRunsAreShort | src/server/listener.rs:186-244 | without outside calls, the actions of a run other than ticks are bounded by that number |
| Settling.Progress | src/server/mod.rs:100-118 | unless at rest or stopped, the daemon has an action of its own to take, if need be after waiting for a thread |
| Settling.QuietRunsGoOn | src/server/mod.rs:100-118 | a run without outside calls that has not come to rest or to the end of the manager can go on |
| Settling.CanSettle | src/server/mod.rs:100-118 | from every state with matching tokens there is a run to rest or to the end of the manager |
| Daemon.InvKept | src/server/mod.rs:28-143 | all properties together are kept by every action, restarts included |
| Daemon.NeverWakesToNothing | src/server/mod.rs:114-118 | the branch called unreachable is unreachable, and with a manager thread tokens and jobs match |
| Daemon.FirstInFirstOut | src/server/manager.rs:285-297 | in every reachable state the jobs executed, in hand and waiting are the jobs pushed, in order |
| Daemon.IdsAreDistinct | src/server/dbus.rs:114-120 | in every reachable state ids in the log and on disk are distinct, not zero and at most the counter |
| Daemon.LogIsExplained | src/server/manager.rs:214-269 | in every reachable state each entry is explained by the executions of the session |
| Daemon.LogIsBounded | src/server/manager.rs:223-229 | in every reachable state the log is bounded if it was loaded within a bound that is not 0, with the exact condition over the session |
| Daemon.NewestFirstExactly | README.md:25 | in every reachable state, the log has always been newest first in this session exactly if it was loaded so and every broadcast that replaced an entry found it far enough back |
| Daemon.DiskIsUpToDate | src/server/manager.rs:300-308 | in every reachable state the disk, and so a new start, has the log of some point of the session, for a clean manager that of now, and idle with an empty list the manager is clean |
| Daemon.TrueStaysTrueExactly | README.md:46 | in every reachable state and over every action, what a query calls closed stays closed exactly if the action does not replace or evict it and is not a new start that has lost its close |
| Daemon.TrueForARunExactly | README.md:46 | over every run, restarts included, it stays closed exactly if no action of the run is one of those |
| Daemon.SignalNeedsReopening | src/server/jobs/close.rs:58-65 | in every run, restarts included, an unforced signal on a notification closed before needs such an action in between |
| Daemon.SignalsConform | src/server/jobs/signals.rs:25-59 | in every reachable state, every unforced signal of the session conforms to the blocks of the protocol |
| Daemon.ExpiredOnTime | src/server/jobs/close.rs:67-89 | in every reachable state, every expiry of the session went out when the time of the notification it closed, plus the default or its timeout modulo 65536, had come |
| Daemon.NobodyIsForgotten | src/server/jobs/broadcast.rs:28-65 | in every reachable state an open expiring notification of the session has a thread asleep until the default, or its timeout modulo 65536, after its broadcast was executed, or its due expiry in line, which closes it when executed, or the manager is gone and the list poisoned |
| Daemon.CallsAreToldInOrder | src/server/dbus.rs:101-152 | in every reachable state, the jobs pushed for D-Bus calls are the calls that came in, in order and complete, unless the list is poisoned and the manager gone |
| Daemon.EntriesAreCalls | src/server/dbus.rs:101-144 | in every reachable state, an entry of the session is what a call over D-Bus gave |
| Daemon.GuardedOnlyThisSession | src/server/jobs/broadcast.rs:32-69 | while the manager is there, an open expiring entry has a guard exactly if it was broadcast in this session |
| Daemon.HeldExactly | src/server/listener.rs:174-184 | a process is in the table of connections exactly while its request is held, lost, in line, with the manager or on its way back |
| Daemon.UnwrapsNeverFail | src/server/listener.rs:218-254 | none of the unwraps of the listener ever fails, and while the manager thread is there nothing panics at all |
| Daemon.ThreadsPanicExactly | src/server/listener.rs:143-157 | which actions make a task, a D-Bus call or an expiry thread panic, and what poisons the list; a manager that is gone leaves everything as it is |
| Daemon.ExactlyOneReply | src/server/listener.rs:246-265 | each reply written, successfully or not, is the result of executing the job asked on that connection, no connection is written to twice, and each request is waiting or was written to |
| Daemon.EveryNoticeOnce | src/server/listener.rs:186-216 | in every reachable state, each result for everybody has been fanned out once, is on its way, or is in the hand of the manager |
| Daemon.WhoTellsEverybody | src/server/manager.rs:310-319 | in every reachable state, an execution of the session under process 0 has a result for everybody exactly if it is a broadcast or a signal that passed |
| Daemon.WatchersHaveAsked | src/server/listener.rs:164-171 | in every reachable state, each watcher has asked to watch on its connection with the flags it is registered under |
| Daemon.SilentWatchersMarkNothing | README.md:29 | if everybody who asked to watch is silent, nothing is ever heard or acknowledged |
| Daemon.WatchedIsReadExactly | README.md:29 | in every reachable state, an entry of the session that no read has shown is marked read exactly by the acknowledgement of its own notice, heard by a watcher who stays and is not silent, or by a late one; and at rest what was heard and broadcast once is marked |
| Daemon.ManagerStopsOnlyFor | src/server/mod.rs:102-134 | as long as the disk takes writes and threads are granted, a manager that is gone was stopped by a forced close of a missing id, a reversed window, or the result of its last job that could not be sent |
| Daemon.ManagerStopsExactly | src/server/mod.rs:102-134 | in every reachable state, exactly these stop it, under the same assumption |
| Daemon.AtRest | src/server/jobs/broadcast.rs:32-69 | at rest the log is on disk, nobody waits, and with auto-close on every open notification of the session never expires |
| Daemon.ComesToRest | src/server/listener.rs:186-244 | from every reachable state quiet runs are bounded, can go on until they come to rest or to the end of the manager, and one does |
| Walks.ForcedCloseStopsTheManager | src/server/jobs/close.rs:65 | a run in which a forced close stops the manager |
| Walks.ReversedReadStopsTheManager | src/server/manager.rs:253-254 | a run in which a reversed read does |
| Walks.FailedSendStopsTheManager | src/server/manager.rs:316-319 | a run in which a result that is not taken does |
| Walks.RequestAfterTheEnd | src/server/listener.rs:143-151 | after that, the next request makes its task panic, and at a poisoned list it gets lost |
| Walks.CallAfterTheEnd | src/server/dbus.rs:84-91 | and the next D-Bus call poisons the list |
| Walks.StoredLogOutgrowsTheBound | src/server/manager.rs:223-229 | a run in which a log with bound 1 grows from two entries to three |
| Walks.RestartForgetsAClose | src/server/manager.rs:300-308 | a run in which a process was told `true`, and after a new start the notification is open and its close goes out again |
| Walks.ReplacingBreaksTheOrder | src/server/manager.rs:220 | a run that replaces the newest of three and leaves the oldest before the middle one |
| Walks.LateAckMarksTheReplacement | src/server/jobs/acknowledge.rs:10 | a run in which a notification that nobody has heard is marked read |
| Walks.LoadedStaysOpen | src/server/jobs/broadcast.rs:32-69 | a daemon at rest, with auto-close on, over an open notification whose time has passed |
| Text.SplitExactly | src/utils/macros.rs:52-83 | a cut is returned exactly if it restores the string and no earlier cut is possible |
| Text.DecimalRoundTrip | src/utils/macros.rs:85-103 | a printed number below the limit of its type is read back |
| Text.DecimalIsPositional | src/server/jobs/mod.rs:97-99 | numbers are written in base ten |
| Wire.JobRoundTrip | src/server/jobs/mod.rs:43-58 | name and payload of every job with a text parse back to the job, for any free text |
| Wire.JobDescRoundTrip | src/server/jobs/mod.rs:205-242 | description and job parse back |
| Wire.TransmissionRoundTrip | src/server/transmission.rs:19-79 | every envelope parses back with its data untouched |
| Wire.RequestRoundTrip | src/main.rs:98-105 | a request goes through both levels unchanged |
| Wire.RequestsDiffer | src/main.rs:98-105 | different requests have different texts |
| Wire.EventRoundTrip | src/server/jobs/mod.rs:66-103 | every event parses back, for any text in it |
| Wire.ResultsSurvive | src/server/jobs/mod.rs:125-173 | every printed result parses; it reads as results exactly if it was results with a text, then with that text; events come back exactly |
| Wire.ResultTexts | README.md:57-65 | the texts of results and errors are those the documentation of the protocol shows; other results are `oth` and a rendering |
| Wire.EventTexts | README.md:57-65 | the texts of the events are those the documentation of the protocol shows |
| Wire.DocumentedOtherIsNeverPrinted | src/server/jobs/mod.rs:162-164 | the `oth` message that README.md:66 shows is never printed, since the rendering starts with the variant |
| Wire.RequestTexts | src/server/jobs/close.rs:135-148 | the texts of a close for each reason, and of a broadcast |
| Wire.SignalTexts | src/server/jobs/signals.rs:67-96 | the texts of the two signals, with any text in them |
| Wire.QuestionTexts | src/server/jobs/read.rs:37-50 | the texts of a read, a query and a watch |
| Wire.EnvelopeTexts | src/server/transmission.rs:19-79 | the texts of a description and of each kind of envelope |
| Grammar.NumeralsExactly | src/utils/macros.rs:85-103 | a text is read as a number exactly if it is that number in base ten, perhaps behind zeros and one plus sign, and fits its type |
| Grammar.PairsExactly | src/server/jobs/mod.rs:205-213 | two numbers are read exactly from a text that is one numeral, `#`, and another |
| Grammar.JobsExactly | src/server/jobs/mod.rs:43-58 | a text is taken for a job exactly if it is its name and a payload that spells it |
| Grammar.RequestsExactly | src/server/jobs/mod.rs:225-242 | a text is taken for a request exactly if it is process id and flags, and behind them the text of a job |
| Grammar.UnreachableExactly | src/server/jobs/close.rs:25-37 | the parser stops its task exactly for a job with an unknown name or a close with a number that is no reason, whatever stands in front of the job |
| Grammar.EnvelopesExactly | src/server/transmission.rs:19-79 | a text is taken for a message exactly if it is its envelope and its data |
| Grammar.EventsExactly | src/server/jobs/mod.rs:66-103 | a text is taken for an event exactly if it is its tag and what belongs to it |
| Grammar.ResultsExactly | src/server/jobs/mod.rs:125-156 | what each of the four tags of a result means to its reader, and that there are no others |
| Grammar.CloseErrors | src/server/jobs/close.rs:135-143 | which number of a close is complained about, the left one first |
| Grammar.ReadErrors | src/server/jobs/read.rs:37-45 | the same for a read |
| Grammar.SignalErrors | src/server/jobs/signals.rs:67-75 | the same for the two signals |
| Grammar.QueryErrors | src/server/jobs/query.rs:29-33 | the same for a query |
| Grammar.PayloadErrors | src/server/jobs/watch.rs:17-28 | a watch with another payload and a broadcast that is no JSON are answered with their texts |
| Grammar.SeparatorErrors | src/utils/macros.rs:52-83 | a text that cannot be cut is an error that names the separator |
| Grammar.DescErrors | src/server/jobs/mod.rs:205-232 | an error in the job comes before one in the process id, and that before one in the flags |
| Grammar.TypeErrors | src/server/transmission.rs:19-37 | an error in the number of an envelope comes before one in its tag |
| Grammar.EventErrors | src/server/jobs/mod.rs:94-98 | unknown tags of events and results, and a wrong number |
| Manager.LogsManager.RemoveNotification | src/server/manager.rs:214-221 | the deque, the returned entry and the dirty flag after a removal |
| Manager.LogsManager.AppendNotification | src/server/manager.rs:223-229 | the deque after an append, and the dirty flag |
| Manager.LogsManager.ReadNotification | src/server/manager.rs:231-243 | one entry marked read; dirty even if there is none |
| Manager.LogsManager.ReadLogs | src/server/manager.rs:245-269 | the loop marks the clamped window in place and the slice returned shows the marks |
| Manager.LogsManager.ExecuteBroadcast | src/server/jobs/broadcast.rs:20-72 | replacement, expiry thread, append and result |
| Manager.LogsManager.ExecuteClose | src/server/jobs/close.rs:51-128 | gate, expiry re-check, marking in place and result |
| Manager.LogsManager.ExecuteSignal | src/server/jobs/signals.rs:25-60 | gate and result, with the log untouched |
| Manager.LogsManager.ExecuteRead | src/server/jobs/read.rs:17-30 | window, marks and result |
| Manager.LogsManager.ExecuteJob | src/server/jobs/mod.rs:36-41 | each job does what the pure executor says |
| Manager.LogsManager.Exec | src/server/manager.rs:285-327 | one call pops, executes, flushes if the list was empty behind the job when it was popped, whatever others push meanwhile, and sends or fails to; the new state and the result are those of `ExecSpec` |
| Manager.ExecStatesExactly | src/server/manager.rs:285-327 | a call returns an error exactly if a signal passed whose emission did not work and that was sent, panics exactly at a poisoned list or a job that stops the manager, and does nothing exactly at an empty list |
| Manager.ReadShowsItsMarks | src/server/manager.rs:253-268 | a marking read returns the marked entries |
| Manager.ExecIsTheManagersActions | src/server/manager.rs:285-327 | one call is the pop, work, flush and send of the manager, with any jobs pushed by others after the pop, also when it fails |
| Manager.ResultGoesOut | src/server/manager.rs:310-319 | work, flush and send put exactly the result of the job on its way, under its process id, and nothing if there is none |
| Dbus.Notifications.PushJob | src/server/dbus.rs:84-91 | one job at the end of the list and one token, or a panic at a poisoned list, or a panic that poisons it |
| Dbus.Notifications.Notify | src/server/dbus.rs:101-144 | the id, the wrapping counter, and when the call panics; without a panic the list is the old one and a broadcast with exactly the timeout, content, replaced id and time given, unread and open |
| Dbus.Notifications.CloseNotification | src/server/dbus.rs:146-152 | the close pushed, with reason 3 and no flags, and when the call panics |
| Dbus.NotifyIsTheBusActions | src/server/dbus.rs:101-144 | in every state of the system, what `Notify` is proved to do is what the two actions of the D-Bus thread do, and nothing else moves |
| Dbus.CloseIsTheBusAction | src/server/dbus.rs:146-152 | the same for `CloseNotification` and its one action |
| Dbus.FreshIdExactly | src/server/dbus.rs:114-117 | a fresh id is new, and not 0, exactly if the counter does not run over |
| Dbus.CloseCallsAreHarmless | src/server/dbus.rs:146-152 | a close over D-Bus never stops the manager |
| Listener.CompletesExactly | src/server/listener.rs:59-84 | a message gets through exactly if before any failure there is room for all of it and one more write is accepted |
| Listener.Socket.Write | src/server/listener.rs:59-84 | success means the whole message, once and in order; failure a part of it from its start |
| Listener.Listener.HandleIncoming | src/server/listener.rs:164-184 | watches are registered with their own flags and connection, other jobs held and pushed, errors answered with the message or a part of it, and when the task panics |
| Listener.Listener.HandleReply | src/server/listener.rs:246-265 | the connection is taken off the table and gets the message, or a part of it from its start if the write fails |
| Listener.Listener.HandleNotice | src/server/listener.rs:186-244 | who stays, what everyone who stays has received, which is an envelope to 0 with exactly the data that came in, the acknowledgement, and when the task panics |
| Listener.Listener.WriteToAll | src/server/listener.rs:190-205 | the loop over the watchers writes to each once and notes exactly the failures |
| Listener.Listener.DropBroken | src/server/listener.rs:206-216 | the loop over the failures drops exactly those |
| Listener.DistinctFit | src/server/listener.rs:207-213 | the count of watchers left does not go below zero |
| Listener.IncomingIsTheRequestTask | src/server/listener.rs:164-184 | in every state of the system, what `HandleIncoming` is proved to do with the text of a request is what the actions of its task do |
| Listener.ReplyIsTheReplyTask | src/server/listener.rs:246-265 | the same for `HandleReply` |
| Listener.NoticeIsTheNoticeTask | src/server/listener.rs:186-244 | the same for `HandleNotice` on the text of any result |
| Listener.TextTellsTheSame | src/server/listener.rs:218-236 | the text of a result looks like results exactly if the result is, and its notification comes back whole |
| Listener.WatchersReadTheSignal | src/server/jobs/mod.rs:125-173 | what a watcher reads of a signal that passed is that signal |
| Listener.PassingSignalGoesOut | src/server/jobs/close.rs:100-128 | a signal that passes puts one result on its way after work, flush and send, whatever became of the emission; its text is the event with the id and text of the job, or the rendering of the error if no runtime could be built |
| Listener.BroadcastGoesOut | src/server/jobs/broadcast.rs:67-71 | a broadcast puts one result on its way, whose text reads back as its notification |
| Listener.ReadGoesOut | src/server/jobs/read.rs:17-30 | the text sent for a read is results, and reads back as the clamped window of the log afterwards |
| Listener.QueryGoesOut | src/server/jobs/query.rs:8-22 | the text sent for a query is `true` exactly if the log holds a closed entry of the id, and `false` otherwise |
| Listener.EnvelopesKeepTheText | src/server/transmission.rs:58-79 | both envelopes around a result parse back with its text unchanged |
| Server.Start | src/server/mod.rs:28-66 | an empty list, a clean manager over the stored log, and a counter no id exceeds |
| Server.ManagerLoop | src/server/mod.rs:100-135 | while other threads push during any round, the loop serves the jobs in the order of the pushes, leaves the log of its history on disk, never finds the list empty, and ends early only for a job that panics or a result that is not sent |

## Left out

- D-Bus, sockets, runtimes: emission is an open choice, and of a signal that goes out to the bus the model has the job only; a socket is a list of answers to write attempts.
- Messages of type `Err` and texts that are no message at all: the listener answers both with an error and goes on.
- JSON and the log file: disk content is a sequence of entries; reading a file that is missing or cannot be parsed, and the backup of the latter, are not modelled.
- `Listener::read`: messages arrive whole; a result that is cut off while it is sent does not arrive.
- Clients other than the command line, in particular broadcasts over the socket and reads under process id 0.
- Delivery order: each result has a connection and a task of its own, so watchers may see another order than the manager's; histories are stated at the manager.
- The end of the process after a listener task has panicked (src/server/listener.rs:118-120): the accept loop then gives up at the next connection. The model lets the other threads go on until the next start, and so has more runs than the program.
- Failing to write the log file, which also ends the manager thread, and leaves a file that may be cut off; and being refused an expiry thread, which ends it too.
- A stop in the middle of an action; a stop between two actions is the restart of the model.
- The locks on the two tables of the listener. The one on the held connections is let go of before anything can panic; a task that panics after a fan-out still holds the one on the watchers, which is of the kind that is not poisoned.
- Command line parsing, capabilities, server information, logging.
- The details text of a parse error, which nothing reads.
- Server.ManagerLoop: other threads push between the pop and the end of a round, with their tokens there by its end; every finer interleaving is in `System`.
- Queueing.PersistedKept: does not promise that the disk is up to date while jobs are waiting, because the program does not write then; `Saving.SavedKept` says what it holds.
