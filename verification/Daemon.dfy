/** What holds of the daemon in every state it can reach, whatever its threads, its clients and its clock do,
    and however often it is stopped and started again over its stored log. */
module Daemon {
  import opened Types
  import opened Log
  import opened Executor
  import opened History
  import opened System
  import opened Queueing
  import opened Numbering
  import opened Calls
  import opened Expiry
  import opened Notices
  import opened Order
  import opened Routing
  import opened Saving
  import opened Watching
  import opened Settling

  /** The clock never runs behind what has been executed. */
  ghost predicate Clocked(s: State) {
    && (forall i :: 0 <= i < |s.mgr.session.runs| ==> s.mgr.session.runs[i].now <= s.clock)
    && (forall i, j :: 0 <= i < j < |s.mgr.session.runs| ==> s.mgr.session.runs[i].now <= s.mgr.session.runs[j].now)
  }

  lemma ClockedKept(s: State, a: Action)
    requires Enabled(s, a) && Clocked(s)
    ensures Clocked(Next(s, a))
  {
    LineChanges(s, a);
    TimeOnlyPasses(s, a);
  }

  lemma TimeOnlyPasses(s: State, a: Action)
    requires Enabled(s, a)
    ensures s.clock <= Next(s, a).clock
  {
  }

  ghost predicate Inv(s: State) {
    && TokensMatch(s.bus, s.mgr.phase)
    && Conserved(s)
    && Persisted(s.bus, s.mgr)
    && Shaped(s)
    && Numbered(s)
    && Clocked(s)
    && SavedMatch(s.mgr)
    && NoOrphans(s) && ExpiryNeedsAutoClose(s) && ExpiriesArePosted(s)
    && Routed(s)
    && NoticesSafe(s) && Calm(s)
    && ResultInHand(s.mgr) && HaltExplained(s.mgr)
    && WellTold(s)
    && Told(s) && PushedAreExpected(s)
    && Registered(s) && HeardAloud(s)
  }

  lemma InvAtBoot(cfg: Config, stored: Entries, clock: nat, nextConn: Conn)
    ensures var s := Boot(cfg, stored, clock, nextConn);
            && TokensMatch(s.bus, s.mgr.phase) && Conserved(s) && Persisted(s.bus, s.mgr) && Shaped(s) && Clocked(s)
            && SavedMatch(s.mgr) && Calm(s) && ResultInHand(s.mgr) && HaltExplained(s.mgr)
  {
  }

  lemma NothingOnItsWayAtBoot(cfg: Config, stored: Entries, clock: nat, nextConn: Conn)
    ensures var s := Boot(cfg, stored, clock, nextConn);
            NoOrphans(s) && ExpiryNeedsAutoClose(s) && ExpiriesArePosted(s) && NoticesSafe(s)
  {
  }

  lemma NobodyAtBoot(cfg: Config, stored: Entries, clock: nat, nextConn: Conn)
    ensures var s := Boot(cfg, stored, clock, nextConn);
            Told(s) && PushedAreExpected(s) && Registered(s) && HeardAloud(s)
  {
  }

  lemma InvAtStart(s: State)
    requires Initial(s)
    ensures Inv(s)
  {
    InvAtBoot(Cfg(s), s.mgr.disk, s.clock, s.clients.nextConn);
    NothingOnItsWayAtBoot(Cfg(s), s.mgr.disk, s.clock, s.clients.nextConn);
    WellToldAtBoot(Cfg(s), s.mgr.disk, s.clock, s.clients.nextConn);
    NobodyAtBoot(Cfg(s), s.mgr.disk, s.clock, s.clients.nextConn);
    NumberedBoot(Cfg(s), s.mgr.disk, s.clock, s.clients.nextConn);
    RoutedBoot(Cfg(s), s.mgr.disk, s.clock, s.clients.nextConn);
  }

  lemma InvKept(s: State, a: Action)
    requires Inv(s) && Enabled(s, a) && Assumed(s, a)
    ensures Inv(Next(s, a))
  {
    TokensKept(s, a);
    ConservedKept(s, a);
    PersistedKept(s, a);
    ShapedKept(s, a);
    NumberedKept(s, a);
    ClockedKept(s, a);
    SavedKept(s, a);
    NoOrphansKept(s, a);
    ExpiryNeedsAutoCloseKept(s, a);
    ExpiriesArePostedKept(s, a);
    RoutedKept(s, a);
    NoticesSafeKept(s, a);
    CalmKept(s, a);
    ResultInHandKept(s, a);
    HaltExplainedKept(s, a);
    WellToldKept(s, a);
    ToldKept(s, a);
    PushedAreExpectedKept(s, a);
    RegisteredKept(s, a);
    HeardAloudKept(s, a);
  }

  lemma {:induction false} InvAlways(s: State, actions: seq<Action>, t: State)
    requires Inv(s) && Steps(s, actions, t)
    ensures Inv(t)
    decreases actions
  {
    if actions != [] {
      InvKept(s, actions[0]);
      InvAlways(Next(s, actions[0]), actions[1..], t);
    }
  }

  lemma ReachableInv(t: State)
    requires Reachable(t)
    ensures Inv(t)
  {
    var s, actions :| Initial(s) && Steps(s, actions, t);
    InvAtStart(s);
    InvAlways(s, actions, t);
  }

  lemma ReachableNext(s: State, a: Action)
    requires Reachable(s) && Enabled(s, a) && Assumed(s, a)
    ensures Reachable(Next(s, a))
  {
    var s0, actions :| Initial(s0) && Steps(s0, actions, s);
    StepsOneMore(s0, actions, s, a);
  }

  // ---------------------------------------------------------------- the job list

  /** As long as there is a manager thread, tokens and jobs match. It never wakes to an empty list, nor to one that it
      cannot lock. */
  lemma NeverWakesToNothing(t: State)
    requires Reachable(t)
    ensures !Gone(t) ==>
              t.bus.tokens + t.bus.owing + t.bus.waking + (if t.mgr.phase.Awake? then 1 else 0) == |t.bus.queue|
    ensures t.mgr.phase.Awake? ==> t.bus.queue != [] && !t.bus.poisoned
    ensures t.mgr.phase != Halted(QueueEmpty) && t.mgr.phase != Halted(ListPoisoned)
  {
    ReachableInv(t);
  }

  /** Every job pushed is executed once, in the order of the pushes. */
  lemma FirstInFirstOut(t: State)
    requires Reachable(t)
    ensures t.bus.pushed == Descs(t.mgr.session.runs) + Hand(t.mgr.phase) + t.bus.queue
  {
    ReachableInv(t);
    assert Descs(t.mgr.session.runs) + Line(t) == Descs(t.mgr.session.runs) + Hand(t.mgr.phase) + t.bus.queue;
  }

  // ---------------------------------------------------------------- the log

  /** The ids in the log and on disk are distinct, not zero, and known to the counter, in every session. */
  lemma IdsAreDistinct(t: State)
    requires Reachable(t)
    ensures Distinct(t.mgr.log) && Distinct(t.mgr.disk)
    ensures forall n :: n in t.mgr.log || n in t.mgr.disk ==> 0 < n.id <= t.counter
  {
    ReachableInv(t);
    LogDistinct(t);
  }

  /** Every entry is explained by the executions of this session. */
  lemma LogIsExplained(t: State, n: Notification) returns (o: Notification)
    requires Reachable(t) && n in t.mgr.log
    ensures Explains(t.mgr.session, |t.mgr.session.runs|, o, n)
  {
    ReachableInv(t);
    o := LogRefinesHistory(t.mgr.session, |t.mgr.session.runs|, n);
  }

  /** Within a session the log stays bounded exactly if it was loaded within a bound that is not zero, or, with
      bound zero, if nothing was broadcast. */
  lemma LogIsBounded(t: State)
    requires Reachable(t)
    ensures t.mgr.log == At(t.mgr.session, |t.mgr.session.runs|)
    ensures |t.mgr.session.loaded| <= Cfg(t).maxLogs && Cfg(t).maxLogs != 0 ==> |t.mgr.log| <= Cfg(t).maxLogs
    ensures AlwaysBounded(t.mgr.session) <==>
            |t.mgr.session.loaded| <= Cfg(t).maxLogs && (Cfg(t).maxLogs == 0 ==> NeverBroadcasts(t.mgr.session))
  {
    ReachableInv(t);
    BoundHoldsExactly(t.mgr.session);
    if |t.mgr.session.loaded| <= Cfg(t).maxLogs && Cfg(t).maxLogs != 0 {
      BoundKept(t.mgr.session, |t.mgr.session.runs|);
    }
  }

  /** Within a session the log has always been newest first, as reads promise, exactly if it was loaded so and every
      broadcast that replaced an entry found it that far back. `born` tells the ages of the loaded entries. */
  lemma NewestFirstExactly(t: State, born: Nid -> int)
    requires Reachable(t) && BornBefore(t.mgr.session, born)
    ensures t.mgr.log == At(t.mgr.session, |t.mgr.session.runs|)
    ensures (forall k: nat :: k <= |t.mgr.session.runs| ==> InOrder(t.mgr.session, born, k)) <==>
            && InOrder(t.mgr.session, born, 0)
            && forall k: nat :: k < |t.mgr.session.runs| ==> KeepsOrderAt(t.mgr.session, k)
  {
    ReachableInv(t);
    OrderHoldsExactly(t.mgr.session, born, |t.mgr.session.runs|);
  }

  /** The disk always holds the log as it was at some point of the session, never a mixture, and that is what a stop
      and a new start go back to. A clean manager agrees with its disk; with nothing to do it is clean. */
  lemma DiskIsUpToDate(t: State, cfg: Config)
    requires Reachable(t)
    ensures t.mgr.saved <= |t.mgr.session.runs| && t.mgr.disk == At(t.mgr.session, t.mgr.saved)
    ensures Next(t, Restart(cfg)).mgr.log == At(t.mgr.session, t.mgr.saved)
    ensures !t.mgr.dirty ==> t.mgr.disk == t.mgr.log
    ensures t.mgr.phase.Idle? && t.bus.queue == [] ==> !t.mgr.dirty && Next(t, Restart(cfg)).mgr.log == t.mgr.log
  {
    ReachableInv(t);
    if t.mgr.phase.Idle? && t.bus.queue == [] {
      IdleIsPersisted(t, cfg);
    }
  }

  // ---------------------------------------------------------------- how long a closed notification stays closed

  /** What a query answers stays true over an action exactly if the action does not replace or evict the closed
      notification, and is not a new start over a disk that was last written before the close went out. */
  lemma TrueStaysTrueExactly(s: State, a: Action, id: Nid)
    requires Reachable(s) && Enabled(s, a) && IsClosed(s.mgr.log, id)
    ensures s.mgr.saved <= |s.mgr.session.runs|
    ensures IsClosed(Next(s, a).mgr.log, id) <==> !Reopens(s, a, id)
  {
    ReachableInv(s);
    ClosedStaysExactly(s, a, id);
  }

  ghost predicate NeverReopens(s: State, actions: seq<Action>, id: Nid)
    decreases actions
  {
    actions == [] ||
    (Enabled(s, actions[0]) && s.mgr.saved <= |s.mgr.session.runs| && !Reopens(s, actions[0], id)
     && NeverReopens(Next(s, actions[0]), actions[1..], id))
  }

  ghost predicate StaysClosed(s: State, actions: seq<Action>, id: Nid)
    decreases actions
  {
    IsClosed(s.mgr.log, id) &&
    (actions == [] || (Enabled(s, actions[0]) && StaysClosed(Next(s, actions[0]), actions[1..], id)))
  }

  /** Over a whole run, restarts included, a closed notification stays closed exactly if no action of the run is one of
      those. */
  lemma {:induction false} TrueForARunExactly(s: State, actions: seq<Action>, t: State, id: Nid)
    requires Reachable(s) && Steps(s, actions, t) && IsClosed(s.mgr.log, id)
    ensures StaysClosed(s, actions, id) <==> NeverReopens(s, actions, id)
    decreases actions
  {
    if actions != [] {
      TrueStaysTrueExactly(s, actions[0], id);
      if !Reopens(s, actions[0], id) {
        ReachableNext(s, actions[0]);
        TrueForARunExactly(Next(s, actions[0]), actions[1..], t, id);
      } else {
        assert !IsClosed(Next(s, actions[0]).mgr.log, id);
      }
    }
  }

  lemma {:induction false} ClosedAtTheEnd(s: State, actions: seq<Action>, t: State, id: Nid)
    requires Steps(s, actions, t) && StaysClosed(s, actions, id)
    ensures IsClosed(t.mgr.log, id)
    decreases actions
  {
    if actions != [] {
      ClosedAtTheEnd(Next(s, actions[0]), actions[1..], t, id);
    }
  }

  /** So in a whole run, restarts included, an unforced signal on a notification that was closed before goes out only if
      some action in between was one of those. */
  lemma SignalNeedsReopening(s: State, actions: seq<Action>, t: State, em: Emission)
    requires Reachable(s) && Steps(s, actions, t) && t.mgr.phase.Popped? && !Force(t.mgr.phase.desc.flags)
    requires Passes(Cfg(t), t.mgr.log, t.mgr.phase.desc, t.clock, em)
    requires IsClosed(s.mgr.log, t.mgr.phase.desc.cmd.id)
    ensures !NeverReopens(s, actions, t.mgr.phase.desc.cmd.id)
  {
    var desc := t.mgr.phase.desc;
    TrueForARunExactly(s, actions, t, desc.cmd.id);
    if NeverReopens(s, actions, desc.cmd.id) {
      ClosedAtTheEnd(s, actions, t, desc.cmd.id);
      PanicsExactly(Cfg(t), t.mgr.log, desc, t.clock, em);
      GateExactly(Cfg(t), t.mgr.log, desc, t.clock, em);
      assert false;
    }
  }

  // ---------------------------------------------------------------- signals and expiry

  /** Within a session, every unforced signal that went out belongs to a block that was opened by a broadcast of its
      id, or by an open loaded entry, and not closed since. */
  lemma SignalsConform(t: State, j: nat)
    requires Reachable(t) && j < |t.mgr.session.runs| && !Force(t.mgr.session.runs[j].desc.flags)
    requires var x := t.mgr.session.runs[j]; Passes(Cfg(t), At(t.mgr.session, j), x.desc, x.now, x.em)
    ensures var id := t.mgr.session.runs[j].desc.cmd.id;
            && !ClosedWithin(t.mgr.session, Since(t.mgr.session, j, id), j, id)
            && (LastPost(t.mgr.session, j, id).None? ==> IsOpen(t.mgr.session.loaded, id))
  {
    ReachableInv(t);
    SignalsFollowTheProtocol(t.mgr.session, j);
  }

  /** An expiry that went out did so when the clock had reached the deadline of the notification it closed. */
  lemma ExpiredOnTime(t: State, j: nat) returns (o: Notification)
    requires Reachable(t) && j < |t.mgr.session.runs| && IsExpiry(t.mgr.session.runs[j].desc)
    requires var x := t.mgr.session.runs[j]; Passes(Cfg(t), At(t.mgr.session, j), x.desc, x.now, x.em)
    ensures o.id == t.mgr.session.runs[j].desc.cmd.id && Origin(t.mgr.session, j, o)
    ensures o.timeout == -1 || o.timeout > 0
    ensures o.time + (if o.timeout == -1 then Cfg(t).defaultTimeout else o.timeout % 65536)
            <= t.mgr.session.runs[j].now <= t.clock
  {
    ReachableInv(t);
    o := ExpiryIsNeverEarly(t.mgr.session, j);
  }

  /** With auto-close on, an open notification of this session that can expire has a thread asleep until exactly its
      mapped timeout after its latest broadcast was executed, or that time has come and its expiry is in line; that
      time is not before its deadline, and an expiry executed from then on leaves the entry closed. The manager
      executes what is in line unless it is gone, and only after that can the list be poisoned and an expiry get lost.
      */
  lemma NobodyIsForgotten(t: State, n: Notification, k: nat)
    requires Reachable(t) && Cfg(t).autoClose && n in t.mgr.log && !n.closed && (n.timeout == -1 || n.timeout > 0)
    requires LastPost(t.mgr.session, |t.mgr.session.runs|, n.id) == Some(k)
    ensures var wait := if n.timeout == -1 then Cfg(t).defaultTimeout else n.timeout % 65536;
            var wake := t.mgr.session.runs[k].now + wait;
            && n.time + wait <= wake
            && (|| Timer(n.id, wake) in t.timers
                || (JobDesc(Close(n.id, Expired), 0, 0) in Hand(t.mgr.phase) + t.bus.queue && wake <= t.clock)
                || (t.bus.poisoned && Gone(t)))
    ensures var wait := if n.timeout == -1 then Cfg(t).defaultTimeout else n.timeout % 65536;
            forall now: nat, em :: t.mgr.session.runs[k].now + wait <= now ==>
              var outcome := Execute(Cfg(t), t.mgr.log, JobDesc(Close(n.id, Expired), 0, 0), now, em);
              outcome.Done? && n.(closed := true) in outcome.effect.log
  {
    ReachableGuards(t);
    InNumbers(t.mgr.session, n, k);
    GuardedInNumbers(t, n, WakeTime(t.mgr.session, n));
    DueFromThenOn(Cfg(t), t.mgr.log, n, WakeTime(t.mgr.session, n));
  }

  lemma ReachableGuards(t: State)
    requires Reachable(t)
    ensures NoOrphans(t) && TokensMatch(t.bus, t.mgr.phase) && Distinct(t.mgr.log)
  {
    ReachableInv(t);
    LogDistinct(t);
  }

  lemma InNumbers(session: Session, n: Notification, k: nat)
    requires Expires(n.timeout) && LastPost(session, |session.runs|, n.id) == Some(k)
    ensures var wait := if n.timeout == -1 then session.cfg.defaultTimeout else n.timeout % 65536;
            WakeTime(session, n) == session.runs[k].now + wait && Deadline(session.cfg, n) == n.time + wait
  {
  }

  lemma GuardedInNumbers(t: State, n: Notification, wake: nat)
    requires NoOrphans(t) && TokensMatch(t.bus, t.mgr.phase) && Cfg(t).autoClose
    requires n in t.mgr.log && !n.closed && Expires(n.timeout) && PostedHere(t.mgr.session, n.id)
    requires wake == WakeTime(t.mgr.session, n)
    ensures Deadline(Cfg(t), n) <= wake
    ensures || Timer(n.id, wake) in t.timers
            || (JobDesc(Close(n.id, Expired), 0, 0) in Hand(t.mgr.phase) + t.bus.queue && wake <= t.clock)
            || (t.bus.poisoned && Gone(t))
  {
    if !t.bus.poisoned {
      assert Guarded(n.id, wake, t.timers, Line(t), t.clock);
    }
  }

  lemma DueFromThenOn(cfg: Config, log: Entries, n: Notification, wake: nat)
    requires Distinct(log) && n in log && !n.closed && cfg.autoClose && Expires(n.timeout) && Deadline(cfg, n) <= wake
    ensures forall now: nat, em :: wake <= now ==>
              var outcome := Execute(cfg, log, JobDesc(Close(n.id, Expired), 0, 0), now, em);
              outcome.Done? && n.(closed := true) in outcome.effect.log
  {
    forall now: nat, em | wake <= now
      ensures var outcome := Execute(cfg, log, JobDesc(Close(n.id, Expired), 0, 0), now, em);
              outcome.Done? && n.(closed := true) in outcome.effect.log
    {
      DueExpiryCloses(cfg, log, n, now, em);
    }
  }

  /** As long as the manager is there, an open notification that can expire has a thread or a due expiry on its way
      exactly if it was broadcast in this session. What was loaded at the start stays open until someone closes it. */
  lemma GuardedOnlyThisSession(t: State, n: Notification)
    requires Reachable(t) && Cfg(t).autoClose && !Gone(t) && n in t.mgr.log && !n.closed && Expires(n.timeout)
    ensures (exists wake :: Guarded(n.id, wake, t.timers, Line(t), t.clock)) <==> PostedHere(t.mgr.session, n.id)
  {
    ReachableInv(t);
    GuardedExactly(t, n);
  }

  // ---------------------------------------------------------------- requests and replies

  /** A process is in the table of held connections exactly while its request is inserted, in line, with the manager, or
      on its way back, or got lost in between; and the connection held is the one the request came in on. */
  lemma HeldExactly(t: State, pid: Pid)
    requires Reachable(t) && pid != 0
    ensures pid in t.hub.active <==>
            || (exists r :: r in t.hub.inserted + t.hub.lost && r.desc.pid == pid)
            || (exists i :: 0 <= i < |t.bus.queue| && t.bus.queue[i].pid == pid)
            || (Busy(t.mgr.phase).Some? && Busy(t.mgr.phase).value.pid == pid)
            || (exists o :: o in t.hub.outgoing && o.pid == pid)
    ensures pid in t.hub.active ==>
              t.hub.active[pid] in t.clients.asked && t.clients.asked[t.hub.active[pid]].pid == pid
  {
    ReachableInv(t);
    HeldIsUnderWay(t, pid);
  }

  lemma HeldIsUnderWay(t: State, pid: Pid)
    requires Routed(t) && pid != 0
    ensures pid in t.hub.active <==>
            || (exists r :: r in t.hub.inserted + t.hub.lost && r.desc.pid == pid)
            || (exists i :: 0 <= i < |t.bus.queue| && t.bus.queue[i].pid == pid)
            || (Busy(t.mgr.phase).Some? && Busy(t.mgr.phase).value.pid == pid)
            || (exists o :: o in t.hub.outgoing && o.pid == pid)
    ensures pid in t.hub.active ==>
              t.hub.active[pid] in t.clients.asked && t.clients.asked[t.hub.active[pid]].pid == pid
  {
    var w := t.clients.waiting;
    if pid in t.hub.active {
      assert Held(w[pid].stage) && w[pid].desc.pid == pid;
      match w[pid].stage {
        case Inserting => assert Request(w[pid].conn, w[pid].desc) in t.hub.inserted + t.hub.lost;
        case Queueing =>
          var i :| 0 <= i < |t.bus.queue| && t.bus.queue[i] == w[pid].desc;
          assert t.bus.queue[i].pid == pid;
        case Running => assert Busy(t.mgr.phase) == Some(w[pid].desc);
        case Returning => assert Outgoing(pid, t.clients.answers[w[pid].conn].reply) in t.hub.outgoing;
      }
    }
    forall i | 0 <= i < |t.bus.queue| && t.bus.queue[i].pid == pid ensures pid in t.hub.active {
      HeldWhileQueued(t, i);
    }
  }

  lemma HeldWhileQueued(t: State, i: nat)
    requires Routed(t) && i < |t.bus.queue| && t.bus.queue[i].pid != 0
    ensures t.bus.queue[i].pid in t.hub.active
  {
    assert Holds(t.clients.waiting, t.bus.queue[i].pid, t.bus.queue[i], Queueing);
  }

  /** None of the listener's unwraps ever fails: the held connection is there when the reply comes, and what looks
      like a notification is one. While the manager is there nothing panics at all, and no request gets lost. */
  lemma UnwrapsNeverFail(t: State)
    requires Reachable(t)
    ensures forall o :: o in t.hub.outgoing && o.pid != 0 ==> o.pid in t.hub.active
    ensures forall o :: o in t.hub.outgoing && o.pid == 0 && IsResults(o.reply) ==> o.reply.result.value.value.OneJson?
    ensures t.hub.panics > 0 || t.bus.panics > 0 || t.bus.poisoned || t.hub.lost != {} ==> Gone(t)
  {
    ReachableInv(t);
    forall o | o in t.hub.outgoing && o.pid == 0 && IsResults(o.reply) ensures o.reply.result.value.value.OneJson? {
      assert NoticeIsNotification(o.pid, o.reply);
    }
  }

  /** When the manager is gone, the next token that a listener task sends makes the task panic, and the next D-Bus call
      panics and poisons the list; from then on whoever wants to push a job panics. Nothing else makes a thread panic,
      and nothing but a new start changes what the manager left behind. */
  lemma ThreadsPanicExactly(s: State, a: Action)
    requires Reachable(s) && Enabled(s, a) && !a.Restart?
    ensures Next(s, a).hub.panics > s.hub.panics <==> TaskPanics(s, a)
    ensures Next(s, a).bus.panics > s.bus.panics <==> CallPanics(s, a)
    ensures Next(s, a).bus.poisoned <==> s.bus.poisoned || ((a.CloseCall? || a.PushNotification?) && Gone(s))
    ensures Gone(s) ==> Next(s, a).mgr == s.mgr
  {
    ReachableInv(s);
    TasksPanicExactly(s, a);
    CallsPanicExactly(s, a);
    LostExactly(s, a);
  }

  /** A reply written to a connection is the result of executing, once, the very job that was asked on that
      connection; no connection is written to twice; and every read and query either still waits or has had its reply
      written to it. */
  lemma ExactlyOneReply(t: State)
    requires Reachable(t)
    ensures forall i :: 0 <= i < |t.clients.delivered| ==>
              var d := t.clients.delivered[i];
              && d.conn in t.clients.asked && d.conn in t.clients.answers
              && Answers(t.mgr.session, t.clients.asked[d.conn], t.clients.answers[d.conn])
              && d.reply == t.clients.answers[d.conn].reply
    ensures forall i, j :: 0 <= i < j < |t.clients.delivered| ==>
              && t.clients.delivered[i].conn != t.clients.delivered[j].conn
              && t.clients.answers[t.clients.delivered[i].conn].run
                 != t.clients.answers[t.clients.delivered[j].conn].run
    ensures forall k :: k in t.clients.asked && Asked(t.clients.asked[k]) && t.clients.asked[k].pid != 0 ==>
              (IsWaiting(t.clients, k) <==> !Received(t.clients.delivered, k))
  {
    ReachableInv(t);
  }

  // ---------------------------------------------------------------- calls over D-Bus

  /** The jobs pushed for calls over D-Bus are the calls that came in, in their order and with all they gave; only the
      latest may still be in the hand of the D-Bus thread, and only calls to a list that nobody can lock are lost. */
  lemma CallsAreToldInOrder(t: State)
    requires Reachable(t)
    ensures CallsOf(t.bus.pushed) <= t.calls
    ensures !t.bus.poisoned ==> CallsOf(t.bus.pushed) + Pending(t.notifying) == t.calls
    ensures t.bus.poisoned ==> Gone(t)
  {
    ReachableInv(t);
  }

  /** Every entry broadcast in this session has the timeout, the content, the replaced id and the time of a call. */
  lemma EntriesAreCalls(t: State, n: Notification)
    requires Reachable(t) && n in t.mgr.log && PostedHere(t.mgr.session, n.id)
    ensures Notified(n.replacesId, n.timeout, n.content, n.time) in t.calls
  {
    ReachableInv(t);
    EntryIsACall(t, n, LastPost(t.mgr.session, |t.mgr.session.runs|, n.id).value);
  }

  // ---------------------------------------------------------------- results for everybody

  /** Every watcher has asked to watch, on the connection and with the flags that the listener has for it. */
  lemma WatchersHaveAsked(t: State, pid: Pid)
    requires Reachable(t) && pid in t.hub.watchers
    ensures var w := t.hub.watchers[pid];
            w.conn in t.clients.asked && t.clients.asked[w.conn] == JobDesc(Watch, pid, w.flags)
  {
    ReachableInv(t);
  }

  /** If everyone who has asked to watch asked for silence, nothing is heard, and nothing is acknowledged. */
  lemma SilentWatchersMarkNothing(t: State)
    requires Reachable(t)
    requires forall c :: c in t.clients.asked && t.clients.asked[c].cmd.Watch? ==> Silent(t.clients.asked[c].flags)
    ensures t.hub.heard == {} && t.hub.acks == multiset{}
    ensures forall d :: d in t.bus.pushed ==> !d.cmd.Acknowledge?
  {
    ReachableInv(t);
    forall i | 0 <= i < |t.bus.pushed| ensures !t.bus.pushed[i].cmd.Acknowledge? {
      assert CausedAt(t.bus, t.hub, t.mgr.session, i);
    }
  }

  /** Of what was executed under process 0, exactly the broadcasts and the signals that passed their gate have
      something to tell everybody, a broadcast its own notification. */
  lemma WhoTellsEverybody(t: State, j: nat)
    requires Reachable(t) && j < |t.mgr.session.runs| && t.mgr.session.runs[j].desc.pid == 0
    ensures var x := t.mgr.session.runs[j];
            var notice := NoticeOf(Cfg(t), At(t.mgr.session, j), x);
            && |notice| <= 1
            && (notice != multiset{} <==>
                  x.desc.cmd.Broadcast? || Passes(Cfg(t), At(t.mgr.session, j), x.desc, x.now, x.em))
            && (x.desc.cmd.Broadcast? ==>
                  notice == multiset{Outgoing(0, FulfilledJob(Ok(Some(OneJson(x.desc.cmd.event))), Results))})
  {
    ReachableInv(t);
    ExecutedAreExpected(t, j);
    assert OrderlyAt(t.mgr.session, j);
    TellsExactly(Cfg(t), At(t.mgr.session, j), t.mgr.session.runs[j]);
  }

  /** Every result for everybody is fanned out once: those of all executions are the ones fanned out, the ones on their
      way, and the one in the manager's hand. */
  lemma EveryNoticeOnce(t: State, reply: Reply)
    requires Reachable(t)
    ensures NoticesOf(t.mgr.session, |t.mgr.session.runs|)[Outgoing(0, reply)]
            == t.hub.fanned[Outgoing(0, reply)] + t.hub.outgoing[Outgoing(0, reply)]
               + InHand(t.mgr.phase)[Outgoing(0, reply)]
  {
    ReachableInv(t);
    assert CountedFor(NoticesOf(t.mgr.session, |t.mgr.session.runs|), t.hub, t.mgr.phase, Outgoing(0, reply));
  }

  /** A notification of this session that no read has shown is marked read exactly by an acknowledgement of its own
      notice, which a watcher who stays and is not silent has then heard, or by one that came too late for an earlier
      notification of its id. */
  lemma WatchedIsReadExactly(t: State, n: Notification, k: nat) returns (o: Notification)
    requires Reachable(t) && n in t.mgr.log && LastPost(t.mgr.session, |t.mgr.session.runs|, n.id) == Some(k)
    requires !ShownSince(t.mgr.session, k, n.id)
    ensures t.mgr.session.runs[k].desc.cmd == Broadcast(o) && o.id == n.id
    ensures n.read <==> AckedFor(t, k, n.id, o) || AckedLate(t, k, o)
    ensures AckedFor(t, k, n.id, o) ==> o in t.hub.heard
    ensures Settled(t) && o in t.hub.heard && !Posted(t.mgr.session, o, k) ==> AckedFor(t, k, n.id, o)
  {
    ReachableInv(t);
    o := ReadByAckExactly(t, n, k);
    if Settled(t) && o in t.hub.heard && !Posted(t.mgr.session, o, k) {
      HeardIsAcked(t, o, k);
    }
  }

  // ---------------------------------------------------------------- stopping and resting

  /** A manager that is gone was stopped by a forced close of an id that is not in the log, by a read whose end lies
      before its start and inside the log, or by a result that could not be sent, and then that was the result of the
      last job it executed. */
  lemma ManagerStopsOnlyFor(t: State)
    requires Reachable(t) && Gone(t)
    ensures t.mgr.phase.why.JobPanicked? || t.mgr.phase.why.SendFailed?
    ensures t.mgr.phase.why.JobPanicked? ==>
              StopsTheManager(t.mgr.log, t.mgr.phase.why.desc)
    ensures t.mgr.phase.why.SendFailed? ==>
              && t.mgr.phase.why.reply.result != Ok(None) && t.mgr.session.runs != []
              && Answers(t.mgr.session, t.mgr.phase.why.desc,
                         Answer(|t.mgr.session.runs| - 1, t.mgr.phase.why.reply))
  {
    ReachableInv(t);
  }

  /** And each of the three does stop it, and nothing else. */
  lemma ManagerStopsExactly(s: State, a: Action)
    requires Reachable(s) && Enabled(s, a) && !Gone(s)
    ensures Gone(Next(s, a)) <==>
            || (a.Work? && StopsTheManager(s.mgr.log, s.mgr.phase.desc))
            || (a == Send(false) && s.mgr.phase.reply.result != Ok(None))
  {
    ReachableInv(s);
    StopsExactly(s, a);
  }

  lemma Walk(s: State, a: Action) returns (t: State)
    requires Reachable(s) && Enabled(s, a) && Assumed(s, a)
    ensures Reachable(t) && t == Next(s, a)
  {
    t := Next(s, a);
    ReachableNext(s, a);
  }

  /** At rest everything is done: the log is on disk, nobody waits for a reply, and with auto-close on every open
      notification of this session is one that never expires. */
  lemma AtRest(t: State)
    requires Reachable(t) && Settled(t)
    ensures t.mgr.disk == t.mgr.log
    ensures t.clients.waiting == map[]
    ensures Cfg(t).autoClose ==>
              forall n :: n in t.mgr.log && !n.closed && PostedHere(t.mgr.session, n.id) ==>
                  n.timeout == 0 || n.timeout < -1
  {
    ReachableInv(t);
    NobodyWaits(t);
    if Cfg(t).autoClose {
      NothingLeftToExpire(t);
    }
  }

  lemma NothingLeftToExpire(t: State)
    requires NoOrphans(t) && Settled(t) && Cfg(t).autoClose && !t.bus.poisoned
    ensures forall n :: n in t.mgr.log && !n.closed && PostedHere(t.mgr.session, n.id) ==>
        n.timeout == 0 || n.timeout < -1
  {
    assert Line(t) == [];
    assert forall id, wake :: !Guarded(id, wake, t.timers, Line(t), t.clock);
  }

  lemma NobodyWaits(t: State)
    requires Routed(t) && Settled(t) && Calm(t) && !t.bus.poisoned
    ensures t.clients.waiting == map[]
  {
    var w := t.clients.waiting;
    forall p | p in w ensures false {
      StandsSomewhere(t, p);
    }
    assert w.Keys == {};
  }

  /** Whoever waits has a request, a job or a reply somewhere. */
  lemma StandsSomewhere(t: State, pid: Pid)
    requires Routed(t) && pid in t.clients.waiting
    ensures || t.hub.arrived != {} || t.hub.inserted != {} || t.hub.lost != {} || t.bus.queue != []
            || Busy(t.mgr.phase).Some? || t.hub.outgoing != multiset{} || t.hub.parcels != {}
  {
  }

  ghost predicate AllQuiet(actions: seq<Action>) {
    forall i :: 0 <= i < |actions| ==> Quiet(actions[i])
  }

  /** The run has used up what it took, and unless it has come to rest or to the end of the manager it can go on. */
  ghost predicate FaresWell(s: State, actions: seq<Action>, t: State) {
    Busywork(actions) + Effort(t) <= Effort(s) && (Settled(t) || Gone(t) || CanGoOn(t))
  }

  lemma AQuietRun(s: State, actions: seq<Action>, t: State)
    requires TokensMatch(s.bus, s.mgr.phase) && Steps(s, actions, t) && AllQuiet(actions)
    ensures FaresWell(s, actions, t)
  {
    QuietRunsAreShort(s, actions, t);
    if !Settled(t) && !Gone(t) {
      QuietRunsGoOn(s, actions, t);
    }
  }

  /** Without further calls from outside, from every reachable state: all runs are finite up to ticks of the clock, a
      run that is not at rest can go on unless the manager is gone, and there is a run to the end. */
  lemma ComesToRest(s: State) returns (actions: seq<Action>, t: State)
    requires Reachable(s)
    ensures Steps(s, actions, t) && AllQuiet(actions) && (Settled(t) || Gone(t))
    ensures forall others, u :: Steps(s, others, u) && AllQuiet(others) ==> FaresWell(s, others, u)
  {
    ReachableInv(s);
    actions, t := CanSettle(s);
    forall others, u | Steps(s, others, u) && AllQuiet(others) ensures FaresWell(s, others, u) {
      AQuietRun(s, others, u);
    }
  }
}
