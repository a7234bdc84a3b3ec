/** Runs of the daemon at particular inputs: each shows that something the theorems do not promise does happen. */
module Walks {
  import opened Types
  import opened Log
  import opened Executor
  import opened History
  import opened System
  import opened Numbering
  import opened Order
  import opened Saving
  import opened Settling
  import opened Daemon

  // ---------------------------------------------------------------- legs of a run

  /** A daemon at its start. */
  lemma Start(cfg: Config, stored: Entries) returns (t: State)
    requires Distinct(stored) && !HasId(stored, 0)
    ensures t == Boot(cfg, stored, 0, 0) && Reachable(t)
  {
    t := Boot(cfg, stored, 0, 0);
    assert Initial(t) && Steps(t, [], t);
  }

  /** The manager is idle with these jobs in line and a token for each. */
  predicate Ready(s: State, line: seq<JobDesc>) {
    && s.mgr.phase.Idle? && s.bus.queue == line && s.bus.tokens == |line| && s.bus.owing == 0 && !s.bus.poisoned
    && s.hub.arrived == {} && s.hub.inserted == {}
  }

  lemma Ask(s: State, line: seq<JobDesc>, desc: JobDesc) returns (t: State)
    requires Reachable(s) && Ready(s, line) && Asked(desc) && desc.pid !in s.clients.waiting
    ensures Reachable(t) && Ready(t, line + [desc])
    ensures t.mgr == s.mgr && t.clock == s.clock && t.notifying == s.notifying && t.hub.outgoing == s.hub.outgoing
  {
    t := AskInHand(s, desc);
    t := Walk(t, PushRequest(Request(s.clients.nextConn, desc)));
    t := Walk(t, SendToken);
  }

  /** A request has arrived and its connection is held. */
  lemma AskInHand(s: State, desc: JobDesc) returns (t: State)
    requires Reachable(s) && Asked(desc) && desc.pid !in s.clients.waiting
    requires s.hub.arrived == {} && s.hub.inserted == {}
    ensures Reachable(t) && t.hub.arrived == {} && t.hub.inserted == {Request(s.clients.nextConn, desc)}
    ensures t == s.(hub := t.hub, clients := t.clients) && t.hub.outgoing == s.hub.outgoing
  {
    t := Walk(s, Connect(desc));
    t := Walk(t, Insert(Request(s.clients.nextConn, desc)));
  }

  lemma BusClose(s: State, line: seq<JobDesc>, id: Nid) returns (t: State)
    requires Reachable(s) && Ready(s, line) && s.notifying.None?
    ensures Reachable(t) && Ready(t, line + [CloseCallDesc(id)])
    ensures t.mgr == s.mgr && t.clock == s.clock && t.clients == s.clients && t.hub == s.hub && t.notifying.None?
  {
    t := Walk(s, CloseCall(id));
  }

  lemma Begin(s: State, line: seq<JobDesc>) returns (t: State)
    requires Reachable(s) && Ready(s, line) && line != []
    ensures Reachable(t) && t.mgr == s.mgr.(phase := Popped(line[0], line[1..] == [])) && t.clock == s.clock
    ensures t.bus.queue == line[1..] && t.bus.tokens == |line| - 1 && t.bus.owing == 0 && !t.bus.poisoned
    ensures t.hub == s.hub && t.notifying == s.notifying && t.counter == s.counter
  {
    t := Walk(s, TakeToken);
    t := Walk(t, Pop);
  }

  function WithResult(hub: Hub, desc: JobDesc, reply: Reply): Hub {
    if reply.result == Ok(None) then hub
    else hub.(outgoing := hub.outgoing + multiset{Outgoing(desc.pid, reply)})
  }

  /** The manager serves the first job in line, and the result goes out. */
  lemma Serve(s: State, line: seq<JobDesc>, effect: Effect) returns (t: State)
    requires Reachable(s) && Ready(s, line) && line != []
    requires Execute(Cfg(s), s.mgr.log, line[0], s.clock, Emitted) == Done(effect)
    ensures Reachable(t) && Ready(t, line[1..]) && t.clock == s.clock
    ensures t.mgr.log == effect.log && t.mgr.session == Extend(s.mgr.session, Execution(line[0], s.clock, Emitted))
    ensures line[1..] != [] ==> t.mgr.disk == s.mgr.disk && t.mgr.saved == s.mgr.saved
    ensures t.hub == WithResult(s.hub, line[0], effect.reply) && t.notifying == s.notifying
    ensures t.counter == s.counter
  {
    var u := Begin(s, line);
    u := Walk(u, Work(Emitted));
    t := Finish(u);
  }

  lemma Finish(s: State) returns (t: State)
    requires Reachable(s) && s.mgr.phase.Executed?
    ensures Reachable(t) && t.bus == s.bus && t.clock == s.clock && t.mgr.phase.Idle?
    ensures t.mgr.log == s.mgr.log && t.mgr.session == s.mgr.session
    ensures !s.mgr.phase.empty ==> t.mgr.disk == s.mgr.disk && t.mgr.saved == s.mgr.saved
    ensures t.hub == WithResult(s.hub, s.mgr.phase.desc, s.mgr.phase.reply) && t.notifying == s.notifying
    ensures t.counter == s.counter
  {
    t := Walk(s, Flush);
    t := Walk(t, Send(true));
  }

  lemma BusNotify(s: State, replacesId: Nid, content: Content) returns (t: State, event: Notification)
    requires Reachable(s) && Ready(s, []) && s.notifying.None?
    requires if replacesId == 0 then s.counter + 1 < U32_LIMIT else replacesId <= s.counter
    ensures Reachable(t) && Ready(t, [BroadcastDesc(event)])
    ensures event == NewNotification(s, replacesId, 0, content)
    ensures t.mgr == s.mgr && t.clock == s.clock && t.hub == s.hub && t.notifying.None?
    ensures t.counter == if replacesId == 0 then event.id else s.counter
  {
    t := Walk(s, Notify(replacesId, 0, content));
    event := t.notifying.value;
    t := Walk(t, PushNotification);
  }

  function BroadcastOut(n: Notification): Outgoing {
    Outgoing(0, FulfilledJob(Ok(Some(OneJson(n))), Results))
  }

  /** A notification comes in over D-Bus and is broadcast. */
  lemma Post(s: State, replacesId: Nid, content: Content) returns (t: State, event: Notification)
    requires Reachable(s) && Ready(s, []) && s.notifying.None?
    requires if replacesId == 0 then s.counter + 1 < U32_LIMIT else replacesId <= s.counter
    ensures Reachable(t) && Ready(t, []) && t.notifying.None?
    ensures event.id == (if replacesId == 0 then s.counter + 1 else replacesId) && event.replacesId == replacesId
    ensures event.time == s.clock && !event.read
    ensures t.mgr.log == Append(Cfg(s).maxLogs, Cleared(s.mgr.log, event), event)
    ensures t.mgr.session.cfg == Cfg(s) && t.mgr.session.loaded == s.mgr.session.loaded
    ensures t.hub == s.hub.(outgoing := s.hub.outgoing + multiset{BroadcastOut(event)})
    ensures t.clock == s.clock && t.counter == if replacesId == 0 then event.id else s.counter
  {
    t, event := BusNotify(s, replacesId, content);
    t := ServePost(t, event);
    NewIs(s, replacesId, content);
  }

  lemma NewIs(s: State, replacesId: Nid, content: Content)
    requires replacesId == 0 ==> s.counter + 1 < U32_LIMIT
    ensures var event := NewNotification(s, replacesId, 0, content);
            && event.id == (if replacesId == 0 then s.counter + 1 else replacesId)
            && event.replacesId == replacesId && event.time == s.clock && !event.read
  {
  }

  lemma ServePost(s: State, event: Notification) returns (t: State)
    requires Reachable(s) && Ready(s, [BroadcastDesc(event)])
    ensures Reachable(t) && Ready(t, []) && t.notifying == s.notifying
    ensures t.mgr.log == Append(Cfg(s).maxLogs, Cleared(s.mgr.log, event), event)
    ensures t.mgr.session.cfg == Cfg(s) && t.mgr.session.loaded == s.mgr.session.loaded
    ensures t.hub == s.hub.(outgoing := s.hub.outgoing + multiset{BroadcastOut(event)})
    ensures t.clock == s.clock && t.counter == s.counter
  {
    t := Serve(s, [BroadcastDesc(event)], ExecuteBroadcast(Cfg(s), s.mgr.log, event, s.clock));
  }

  // ---------------------------------------------------------------- the end of the manager

  /** One forced close of an unknown id stops the manager. */
  lemma ForcedCloseStopsTheManager(cfg: Config, id: Nid) returns (t: State)
    ensures Reachable(t) && t.mgr.phase == Halted(JobPanicked(JobDesc(Close(id, Dismissed), 0, 2)))
    ensures ForcedOnMissing(t.mgr.log, t.mgr.phase.why.desc) && !t.bus.poisoned && t.notifying.None?
  {
    var desc := JobDesc(Close(id, Dismissed), 0, 2);
    t := Start(cfg, []);
    t := Ask(t, [], desc);
    PanicsExactly(cfg, [], desc, 0, Emitted);
    t := BreakDown(t, [desc]);
  }

  /** The first job in line stops the manager. */
  lemma BreakDown(s: State, line: seq<JobDesc>) returns (t: State)
    requires Reachable(s) && Ready(s, line) && line != []
    requires Execute(Cfg(s), s.mgr.log, line[0], s.clock, Emitted).Panic?
    ensures Reachable(t) && t.mgr == s.mgr.(phase := Halted(JobPanicked(line[0])))
    ensures !t.bus.poisoned && t.notifying == s.notifying
  {
    t := Begin(s, line);
    t := Walk(t, Work(Emitted));
  }

  /** So does a read whose start and count ran over 16 bits: it starts behind its end, and the end is in the log. */
  lemma ReversedReadStopsTheManager(cfg: Config, n: Notification, pid: Pid) returns (t: State)
    requires n.id != 0 && pid != 0
    ensures Reachable(t) && t.mgr.phase == Halted(JobPanicked(JobDesc(Read(65535, 0), pid, NO_FLAGS)))
    ensures WindowReversed(t.mgr.log, t.mgr.phase.why.desc)
  {
    var desc := JobDesc(Read(65535, 0), pid, NO_FLAGS);
    t := Start(cfg, [n]);
    t := Ask(t, [], desc);
    PanicsExactly(cfg, [n], desc, 0, Emitted);
    t := BreakDown(t, [desc]);
  }

  /** And a result that the listener's socket does not take. */
  lemma FailedSendStopsTheManager(cfg: Config, id: Nid, pid: Pid) returns (t: State)
    requires pid != 0
    ensures Reachable(t) && Gone(t) && t.mgr.phase.why.SendFailed?
    ensures t.mgr.phase.why.desc == JobDesc(Query(id), pid, NO_FLAGS)
  {
    var desc := JobDesc(Query(id), pid, NO_FLAGS);
    t := Start(cfg, []);
    t := Ask(t, [], desc);
    t := Begin(t, [desc]);
    t := Walk(t, Work(Emitted));
    t := FailToSend(t);
  }

  lemma FailToSend(s: State) returns (t: State)
    requires Reachable(s) && s.mgr.phase.Executed? && s.mgr.phase.reply.result != Ok(None)
    ensures Reachable(t) && t.mgr.phase == Halted(SendFailed(s.mgr.phase.desc, s.mgr.phase.reply))
  {
    t := Walk(s, Flush);
    t := Walk(t, Send(false));
  }

  /** Once the manager is gone, the next request makes its task panic: at the token, or at a poisoned list, and then the
      request never gets into line. */
  lemma RequestAfterTheEnd(s: State, desc: JobDesc) returns (t: State)
    requires Reachable(s) && Gone(s) && Asked(desc) && desc.pid !in s.clients.waiting && s.hub.panics == 0
    ensures Reachable(t) && t.hub.panics == 1
    ensures t.bus.queue == if s.bus.poisoned then s.bus.queue else s.bus.queue + [desc]
    ensures s.bus.poisoned ==> t.hub.lost == s.hub.lost + {Request(s.clients.nextConn, desc)}
  {
    var r := Request(s.clients.nextConn, desc);
    t := Walk(s, Connect(desc));
    t := Walk(t, Insert(r));
    t := Walk(t, PushRequest(r));
    if !s.bus.poisoned {
      t := Walk(t, SendToken);
    }
  }

  /** And the next call over D-Bus panics with the list locked, after which nobody can lock it. */
  lemma CallAfterTheEnd(s: State, id: Nid) returns (t: State)
    requires Reachable(s) && Gone(s) && s.notifying.None? && !s.bus.poisoned
    ensures Reachable(t) && t.bus.poisoned && t.bus.panics == s.bus.panics + 1
  {
    t := Walk(s, CloseCall(id));
  }

  // ---------------------------------------------------------------- the bound of the log

  /** A daemon that starts with a smaller bound than its stored log has entries never gets down to it: it only grows. */
  lemma StoredLogOutgrowsTheBound(a: Notification, b: Notification, content: Content) returns (t: State)
    requires a.id != 0 && b.id != 0 && a.id != b.id && MaxId([a, b]) + 1 < U32_LIMIT
    ensures Reachable(t) && Cfg(t).maxLogs == 1 && |t.mgr.log| == 3
  {
    var cfg := Config(1, false, 5000);
    t := Start(cfg, [a, b]);
    var event: Notification;
    t, event := Post(t, 0, content);
    AppendBound(1, [a, b], event);
  }

  // ---------------------------------------------------------------- a close that is not saved

  /** A process is told that notification 1 is closed, and it is; but more jobs were waiting, so the log was not
      written, and after a stop and a new start the notification is open. The next close of it goes out once more. */
  lemma RestartForgetsAClose(cfg: Config, n: Notification, pid: Pid) returns (t: State, u: State)
    requires n.id != 0 && !n.closed && pid != 0
    ensures Reachable(t) && IsClosed(t.mgr.log, n.id)
    ensures Outgoing(pid, FulfilledJob(Ok(Some(Text("true"))), Results)) in t.hub.outgoing
    ensures UnsavedClose(t.mgr.session, 0, n.id) && t.mgr.saved == 0
    ensures u == Next(t, Restart(cfg)) && Reachable(u) && !IsClosed(u.mgr.log, n.id)
    ensures Passes(cfg, u.mgr.log, CloseCallDesc(n.id), u.clock, Emitted)
  {
    t := ClosedAndTold(cfg, n, JobDesc(Query(n.id), pid, NO_FLAGS));
    UnsavedOf(t, n);
    u := Walk(t, Restart(cfg));
  }

  /** The log the daemon started with is still the one on disk. */
  lemma UnsavedOf(t: State, n: Notification)
    requires Reachable(t) && t.mgr.session.loaded == [n] && !n.closed && IsClosed(t.mgr.log, n.id) && t.mgr.saved == 0
    ensures UnsavedClose(t.mgr.session, 0, n.id) && t.mgr.disk == [n]
  {
    ReachableInv(t);
    assert !IsClosed(At(t.mgr.session, 0), n.id);
    UnsavedExactly(t.mgr.session, 0, n.id);
  }

  lemma ClosedAndTold(cfg: Config, n: Notification, query: JobDesc) returns (t: State)
    requires n.id != 0 && !n.closed && query.cmd == Query(n.id) && query.flags == NO_FLAGS && query.pid != 0
    ensures Reachable(t) && IsClosed(t.mgr.log, n.id) && t.mgr.saved == 0 && t.mgr.session.loaded == [n]
    ensures Cfg(t) == cfg && t.mgr.phase.Idle?
    ensures Outgoing(query.pid, FulfilledJob(Ok(Some(Text("true"))), Results)) in t.hub.outgoing
  {
    t := ThreeJobsWait(cfg, n, query);
    ClosingOne(cfg, n, t.clock);
    var closing := Execute(cfg, [n], CloseCallDesc(n.id), t.clock, Emitted).effect;
    t := Serve(t, [CloseCallDesc(n.id), query, CloseCallDesc(n.id)], closing);
    t := Serve(t, [query, CloseCallDesc(n.id)], Execute(cfg, closing.log, query, t.clock, Emitted).effect);
  }

  lemma ThreeJobsWait(cfg: Config, n: Notification, query: JobDesc) returns (t: State)
    requires n.id != 0 && Asked(query) && query.pid != 0
    ensures Reachable(t) && Ready(t, [CloseCallDesc(n.id), query, CloseCallDesc(n.id)])
    ensures t.mgr == Boot(cfg, [n], 0, 0).mgr
  {
    t := Start(cfg, [n]);
    t := CloseAskClose(t, n.id, query);
  }

  lemma CloseAskClose(s: State, id: Nid, query: JobDesc) returns (t: State)
    requires Reachable(s) && Ready(s, []) && s.notifying.None? && Asked(query) && query.pid !in s.clients.waiting
    ensures Reachable(t) && Ready(t, [CloseCallDesc(id), query, CloseCallDesc(id)]) && t.mgr == s.mgr
  {
    var close := CloseCallDesc(id);
    assert [] + [close] == [close] && [close] + [query] == [close, query];
    assert [close, query] + [close] == [close, query, close];
    t := BusClose(s, [], id);
    t := Ask(t, [close], query);
    t := BusClose(t, [close, query], id);
  }

  lemma ClosingOne(cfg: Config, n: Notification, now: nat)
    requires !n.closed
    ensures var outcome := Execute(cfg, [n], CloseCallDesc(n.id), now, Emitted);
            outcome.Done? && IsClosed(outcome.effect.log, n.id) && outcome.effect.reply != NOTHING
  {
    FindIsMembership([n], n);
    MarksTouchOneEntry([n], n.id, n.(closed := true));
  }

  // ---------------------------------------------------------------- the order of the log

  /** Three stored notifications, newest first; the newest is replaced, and the oldest one ends up before the middle
      one. Only with a bound of two does the eviction take away what would be out of order. */
  lemma ReplacingBreaksTheOrder(cfg: Config, c: Notification, b: Notification, a: Notification, content: Content)
    returns (t: State, event: Notification)
    requires c.id != 0 && b.id != 0 && a.id != 0 && c.id != b.id && c.id != a.id && b.id != a.id
    requires c.time > b.time > a.time && cfg.maxLogs != 2
    ensures NewestFirst([c, b, a], TimeOf()) && event.id == c.id && event.time > c.time
    ensures Reachable(t) && t.mgr.session.loaded == [c, b, a] && t.mgr.log == [event, a, b]
    ensures !NewestFirst(t.mgr.log, TimeOf())
  {
    ThreeStored(c, b, a);
    t := StartLater(cfg, [c, b, a], c.time + 1);
    t, event := ReplaceFront(t, c, b, a, content);
    OldBeforeMiddle(event, a, b);
  }

  lemma ThreeStored(c: Notification, b: Notification, a: Notification)
    requires c.id != 0 && b.id != 0 && a.id != 0 && c.id != b.id && c.id != a.id && b.id != a.id
    requires c.time > b.time > a.time
    ensures Distinct([c, b, a]) && !HasId([c, b, a], 0) && c.id <= MaxId([c, b, a])
    ensures NewestFirst([c, b, a], TimeOf())
  {
    assert c in [c, b, a];
  }

  lemma ReplaceFront(s: State, c: Notification, b: Notification, a: Notification, content: Content)
    returns (t: State, event: Notification)
    requires Reachable(s) && Ready(s, []) && s.notifying.None? && 0 < c.id <= s.counter
    requires s.mgr.log == [c, b, a] && Cfg(s).maxLogs != 2
    ensures Reachable(t) && t.mgr.log == [event, a, b] && t.mgr.session.loaded == s.mgr.session.loaded
    ensures event.id == c.id && event.time == s.clock
  {
    t, event := Post(s, c.id, content);
    ReplacedInFront(Cfg(s).maxLogs, c, b, a, event);
  }

  lemma OldBeforeMiddle(event: Notification, a: Notification, b: Notification)
    requires a.time < b.time
    ensures !NewestFirst([event, a, b], TimeOf())
  {
    assert TimeOf()([event, a, b][1]) < TimeOf()([event, a, b][2]);
  }

  lemma StartLater(cfg: Config, stored: Entries, clock: nat) returns (t: State)
    requires Distinct(stored) && !HasId(stored, 0)
    ensures Reachable(t) && Ready(t, []) && t.notifying.None? && t.clock == clock && t.counter == MaxId(stored)
    ensures t.mgr.log == stored && t.mgr.session == Session(cfg, stored, [])
  {
    t := Start(cfg, stored);
    t := Walk(t, Tick(clock));
  }

  lemma ReplacedInFront(maxLogs: Count, c: Notification, b: Notification, a: Notification, event: Notification)
    requires event.replacesId == c.id != 0 && maxLogs != 2
    ensures Append(maxLogs, Cleared([c, b, a], event), event) == [event, a, b]
  {
    assert Position([c, b, a], c.id) == Some(0);
    assert Cleared([c, b, a], event) == [a, b];
  }

  // ---------------------------------------------------------------- an acknowledgement that comes too late

  /** A watcher hears a notification; before its task pushes the acknowledgement the notification is replaced. The
      acknowledgement then marks the replacement, whose notice is still on its way and nobody has heard. */
  lemma LateAckMarksTheReplacement(cfg: Config, pid: Pid, content: Content)
    returns (t: State, second: Notification)
    requires pid != 0 && cfg.maxLogs != 0
    ensures Reachable(t) && t.mgr.log == [second.(read := true)] && !second.read
    ensures second !in t.hub.heard && BroadcastOut(second) in t.hub.outgoing
  {
    var first;
    t := WatchFirst(cfg, pid);
    t, first := PostAndHear(t, content);
    t, second := ReplaceAndAck(t, first, content);
  }

  /** The only watcher hears the first notification. */
  lemma PostAndHear(s: State, content: Content) returns (t: State, first: Notification)
    requires Reachable(s) && Ready(s, []) && s.notifying.None? && s.counter == 0 && s.mgr.log == []
    requires SomeoneReads(s.hub.watchers)
    requires s.hub.heard == {}
    ensures Reachable(t) && Ready(t, []) && t.notifying.None? && t.counter == 1
    ensures t.mgr.log == [first] && first.id == 1 && first.replacesId == 0
    ensures first in t.hub.acks && t.hub.heard == {first}
  {
    t, first := Post(s, 0, content);
    PostedAlone(Cfg(s).maxLogs, first);
    t := HearOne(t, first);
  }

  lemma ReplaceAndAck(s: State, first: Notification, content: Content) returns (t: State, second: Notification)
    requires Reachable(s) && Ready(s, []) && s.notifying.None? && s.counter == 1
    requires s.mgr.log == [first] && first.id == 1 && first.replacesId == 0
    requires first in s.hub.acks && s.hub.heard == {first}
    ensures Reachable(t) && t.mgr.log == [second.(read := true)] && !second.read
    ensures second !in t.hub.heard && BroadcastOut(second) in t.hub.outgoing
  {
    t, second := Post(s, 1, content);
    ReplacedAlone(Cfg(s).maxLogs, first, second);
    t := AckNow(t, first);
    t := MarkOnly(t, second);
  }

  lemma MarkOnly(s: State, n: Notification) returns (t: State)
    requires Reachable(s) && Ready(s, [AckDesc(n.id)]) && s.mgr.log == [n]
    ensures Reachable(t) && t.mgr.log == [n.(read := true)] && t.hub == s.hub
  {
    MarkedAlone(n);
    t := Serve(s, [AckDesc(n.id)], Effect(MarkRead([n], n.id), true, None, NOTHING));
  }

  lemma HearOne(s: State, n: Notification) returns (t: State)
    requires Reachable(s) && Ready(s, []) && SomeoneReads(s.hub.watchers)
    requires BroadcastOut(n) in s.hub.outgoing && s.hub.heard == {}
    ensures Reachable(t) && Ready(t, []) && t.mgr == s.mgr && t.notifying == s.notifying && t.counter == s.counter
    ensures n in t.hub.acks && t.hub.heard == {n}
  {
    HeardByAll(s.hub, n);
    t := Walk(s, FanOut(BroadcastOut(n), {}));
  }

  lemma HeardByAll(hub: Hub, n: Notification)
    requires SomeoneReads(hub.watchers)
    ensures var o := BroadcastOut(n);
            FanOutTo(hub, o, {}) == hub.(outgoing := hub.outgoing - multiset{o}, fanned := hub.fanned + multiset{o},
                                         acks := hub.acks + multiset{n}, heard := hub.heard + {n})
  {
    assert Survivors(hub.watchers, {}) == hub.watchers;
  }

  lemma PostedAlone(maxLogs: Count, n: Notification)
    requires n.replacesId == 0
    ensures Append(maxLogs, Cleared([], n), n) == [n]
  {
  }

  lemma WatchFirst(cfg: Config, pid: Pid) returns (t: State)
    requires pid != 0
    ensures Reachable(t) && Ready(t, []) && t.notifying.None? && t.mgr == Boot(cfg, [], 0, 0).mgr && t.counter == 0
    ensures SomeoneReads(t.hub.watchers)
    ensures t.hub.heard == {}
  {
    t := Start(cfg, []);
    t := WatchAloud(t, pid);
  }

  lemma WatchAloud(s: State, pid: Pid) returns (t: State)
    requires Reachable(s) && Ready(s, []) && pid != 0 && pid !in s.clients.waiting
    ensures Reachable(t) && Ready(t, []) && t.notifying == s.notifying && t.mgr == s.mgr && t.counter == s.counter
    ensures SomeoneReads(t.hub.watchers) && t.hub.heard == s.hub.heard
  {
    var r := Request(s.clients.nextConn, JobDesc(Watch, pid, NO_FLAGS));
    t := WatchArrives(s, r);
    t := Walk(t, Register(r));
    assert pid in t.hub.watchers && !Silent(t.hub.watchers[pid].flags);
  }

  lemma WatchArrives(s: State, r: Request) returns (t: State)
    requires Reachable(s) && s.hub.arrived == {} && r.conn == s.clients.nextConn && r.desc.cmd.Watch?
    requires r.desc.pid != 0 && r.desc.pid !in s.clients.waiting
    ensures Reachable(t) && t == s.(hub := s.hub.(arrived := {r}), clients := t.clients)
  {
    t := Walk(s, Connect(r.desc));
  }

  lemma ReplacedAlone(maxLogs: Count, first: Notification, second: Notification)
    requires second.replacesId == first.id != 0
    ensures Append(maxLogs, Cleared([first], second), second) == [second]
  {
    assert Position([first], first.id) == Some(0);
    assert Cleared([first], second) == [];
  }

  lemma MarkedAlone(n: Notification)
    ensures MarkRead([n], n.id) == [n.(read := true)]
  {
    assert Position([n], n.id) == Some(0);
  }

  lemma AckNow(s: State, n: Notification) returns (t: State)
    requires Reachable(s) && Ready(s, []) && n in s.hub.acks
    ensures Reachable(t) && Ready(t, [AckDesc(n.id)]) && t.mgr == s.mgr && t.clock == s.clock
    ensures t.hub.heard == s.hub.heard && t.hub.outgoing == s.hub.outgoing && t.notifying == s.notifying
  {
    t := Walk(s, PushAck(n));
    t := Walk(t, SendToken);
  }

  // ---------------------------------------------------------------- an old notification that stays open

  /** Started over an open notification whose time has long come, with auto-close on, the daemon is at rest. */
  lemma LoadedStaysOpen(cfg: Config, n: Notification) returns (t: State)
    requires cfg.autoClose && n.id != 0 && !n.closed && Expires(n.timeout)
    ensures Reachable(t) && Cfg(t) == cfg && Settled(t) && t.clock >= Deadline(cfg, n)
    ensures n in t.mgr.log
  {
    t := Start(cfg, [n]);
    t := Walk(t, Tick(Deadline(cfg, n)));
  }
}
