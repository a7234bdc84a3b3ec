/** Results fanned out to the watchers, and what can make a thread of the daemon stop. */
module Watching {
  import opened Types
  import opened Log
  import opened Executor
  import opened History
  import opened System
  import opened Queueing
  import opened Numbering
  import N = Notices
  import R = Routing

  // ---------------------------------------------------------------- fan-out

  /** Exactly the watchers whose write worked stay, with their flags; one acknowledgement follows exactly when the
      message is a notification and someone who stays is not silent. */
  lemma FanOutExactly(hub: Hub, o: Outgoing, broken: set<Pid>)
    requires IsResults(o.reply) ==> o.reply.result.value.value.OneJson?
    ensures var after := FanOutTo(hub, o, broken);
            var heard := exists p :: p in hub.watchers && p !in broken && !Silent(hub.watchers[p].flags);
            && after.panics == hub.panics && after.outgoing == hub.outgoing - multiset{o}
            && (forall p :: p in after.watchers <==> p in hub.watchers && p !in broken)
            && (forall p :: p in after.watchers ==> after.watchers[p] == hub.watchers[p])
            && after.fanned == hub.fanned + multiset{o}
            && (if heard && IsResults(o.reply)
                then var n := o.reply.result.value.value.notification;
                     after.acks == hub.acks + multiset{n} && after.heard == hub.heard + {n}
                else after.acks == hub.acks && after.heard == hub.heard)
  {
    assert forall p :: p in Survivors(hub.watchers, broken) <==> p in hub.watchers && p !in broken;
  }

  /** Among the results for process 0 only broadcasts look like results, so what the listener takes for a
      notification is one. */
  predicate NoticeIsNotification(pid: Pid, reply: Reply) {
    pid == 0 && IsResults(reply) ==> reply.result.value.value.OneJson?
  }

  ghost predicate NoticesSafe(s: State) {
    && (forall o :: o in s.hub.outgoing ==> NoticeIsNotification(o.pid, o.reply))
    && (s.mgr.phase.Executed? || s.mgr.phase.Flushed? ==> NoticeIsNotification(s.mgr.phase.desc.pid, s.mgr.phase.reply))
  }

  lemma WorkIsSafe(cfg: Config, log: Entries, desc: JobDesc, now: nat, em: Emission)
    requires Expected(desc) && Execute(cfg, log, desc, now, em).Done?
    ensures NoticeIsNotification(desc.pid, Execute(cfg, log, desc, now, em).effect.reply)
  {
  }

  lemma NoticesSafeKept(s: State, a: Action)
    requires Enabled(s, a) && Shaped(s) && NoticesSafe(s)
    ensures NoticesSafe(Next(s, a))
    ensures a.FanOut? ==> Next(s, a).hub.panics == s.hub.panics
  {
    match a {
      case Work(em) => NoticesSafeWork(s, em);
      case FanOut(o, broken) => NoticesSafeFanOut(s, o, broken);
      case Unhold(o) => NoticesSafeUnhold(s, o);
      case Send(ok) => NoticesSafeSend(s, ok);
      case _ => NoticesSafeElsewhere(s, a);
    }
  }

  lemma NoticesSafeFanOut(s: State, o: Outgoing, broken: set<Pid>)
    requires Enabled(s, FanOut(o, broken)) && NoticesSafe(s)
    ensures NoticesSafe(Next(s, FanOut(o, broken)))
    ensures Next(s, FanOut(o, broken)).hub.panics == s.hub.panics
  {
    assert NoticeIsNotification(o.pid, o.reply);
    FanOutExactly(s.hub, o, broken);
  }

  lemma NoticesSafeUnhold(s: State, o: Outgoing)
    requires Enabled(s, Unhold(o)) && NoticesSafe(s)
    ensures NoticesSafe(Next(s, Unhold(o)))
  {
    assert TakeOff(s, o).hub.outgoing == s.hub.outgoing - multiset{o};
  }

  lemma NoticesSafeSend(s: State, ok: bool)
    requires Enabled(s, Send(ok)) && NoticesSafe(s)
    ensures NoticesSafe(Next(s, Send(ok)))
  {
  }

  lemma NoticesSafeElsewhere(s: State, a: Action)
    requires Enabled(s, a) && NoticesSafe(s) && !a.Work? && !a.FanOut? && !a.Unhold? && !a.Send?
    ensures NoticesSafe(Next(s, a))
  {
    OutgoingStays(s, a);
  }

  lemma NoticesSafeWork(s: State, em: Emission)
    requires Enabled(s, Work(em)) && Shaped(s) && NoticesSafe(s)
    ensures NoticesSafe(Next(s, Work(em)))
  {
    assert Line(s)[0] == s.mgr.phase.desc;
    if Execute(Cfg(s), s.mgr.log, s.mgr.phase.desc, s.clock, em).Done? {
      WorkIsSafe(Cfg(s), s.mgr.log, s.mgr.phase.desc, s.clock, em);
    }
  }

  lemma OutgoingStays(s: State, a: Action)
    requires Enabled(s, a) && !a.Work? && !a.FanOut? && !a.Unhold? && !a.Send?
    ensures Next(s, a).hub.outgoing == s.hub.outgoing || a.Restart?
    ensures a.Restart? ==> Next(s, a).hub.outgoing == multiset{}
    ensures var p, q := s.mgr.phase, Next(s, a).mgr.phase;
            q == p || q.Awake? || q.Idle? || q.Popped? || q.Halted? || (p.Executed? && q == Flushed(p.desc, p.reply))
  {
  }

  // ---------------------------------------------------------------- who watches

  /** Every request that has arrived is one that was asked on its connection, and every watcher asked to watch, on the
      connection it is registered with and with the flags it is registered with. */
  ghost predicate Registered(s: State) {
    && (forall r :: r in s.hub.arrived ==> r.conn in s.clients.asked && s.clients.asked[r.conn] == r.desc)
    && (forall p :: p in s.hub.watchers ==>
          && s.hub.watchers[p].conn in s.clients.asked
          && s.clients.asked[s.hub.watchers[p].conn] == JobDesc(Watch, p, s.hub.watchers[p].flags))
  }

  lemma RegisteredKept(s: State, a: Action)
    requires Enabled(s, a) && R.Ticketed(s.clients) && Registered(s)
    ensures Registered(Next(s, a))
  {
    if a.Connect? {
      RegisteredConnect(s, a.desc);
    } else if a.Register? {
      RegisteredWatch(s, a.request);
    } else if !a.Restart? {
      WatchersDwindle(s, a);
    }
  }

  lemma RegisteredConnect(s: State, desc: JobDesc)
    requires R.Ticketed(s.clients) && Registered(s)
    ensures Registered(Next(s, Connect(desc)))
  {
  }

  lemma RegisteredWatch(s: State, r: Request)
    requires Enabled(s, Register(r)) && Registered(s)
    ensures Registered(Next(s, Register(r)))
  {
    assert r.desc == JobDesc(Watch, r.desc.pid, r.desc.flags);
  }

  lemma WatchersDwindle(s: State, a: Action)
    requires Enabled(s, a) && !a.Connect? && !a.Register? && !a.Restart?
    ensures var t := Next(s, a);
            && t.clients.asked == s.clients.asked && t.hub.arrived <= s.hub.arrived
            && forall p :: p in t.hub.watchers ==> p in s.hub.watchers && t.hub.watchers[p] == s.hub.watchers[p]
  {
    AskedOnce(s, a);
    if a.FanOut? {
      assert Next(s, a).hub.watchers == s.hub.watchers - a.broken;
    } else if R.OfRequests(a) || R.OfReplies(a) || a.Send? || a.PushAck? {
      TasksLeaveTheWatchers(s, a);
    } else {
      N.HubLeft(s, a);
    }
  }

  lemma TasksLeaveTheWatchers(s: State, a: Action)
    requires Enabled(s, a) && !a.Connect? && !a.Register? && !a.FanOut?
    requires R.OfRequests(a) || R.OfReplies(a) || a.Send? || a.PushAck?
    ensures Next(s, a).hub.arrived <= s.hub.arrived && Next(s, a).hub.watchers == s.hub.watchers
  {
    if a.Insert? {
      assert Next(s, a).hub.arrived == s.hub.arrived - {a.request} && Next(s, a).hub.watchers == s.hub.watchers;
    } else if a.PushRequest? || a.PushAck? {
      EnteringLeavesTheWatchers(s, a);
    } else {
      ResultsLeaveTheWatchers(s, a);
    }
  }

  lemma EnteringLeavesTheWatchers(s: State, a: Action)
    requires Enabled(s, a) && (a.PushRequest? || a.PushAck?)
    ensures Next(s, a).hub.arrived == s.hub.arrived && Next(s, a).hub.watchers == s.hub.watchers
  {
  }

  lemma ResultsLeaveTheWatchers(s: State, a: Action)
    requires Enabled(s, a) && (a.Send? || a.Unhold? || a.Deliver?)
    ensures Next(s, a).hub.arrived == s.hub.arrived && Next(s, a).hub.watchers == s.hub.watchers
  {
  }

  /** Only a new request is asked. */
  lemma AskedOnce(s: State, a: Action)
    requires Enabled(s, a) && !a.Connect? && !a.Restart?
    ensures Next(s, a).clients.asked == s.clients.asked
  {
  }

  /** Some process has asked to watch and did not ask for silence. */
  ghost predicate SomeoneAskedAloud(asked: map<Conn, JobDesc>) {
    exists c :: c in asked && asked[c].cmd.Watch? && !Silent(asked[c].flags)
  }

  /** Nothing is heard or acknowledged for those who watch silently. */
  ghost predicate HeardAloud(s: State) {
    s.hub.heard != {} || s.hub.acks != multiset{} ==> SomeoneAskedAloud(s.clients.asked)
  }

  lemma HeardAloudKept(s: State, a: Action)
    requires Enabled(s, a) && R.Ticketed(s.clients) && Registered(s) && HeardAloud(s)
    ensures HeardAloud(Next(s, a))
  {
    if a.FanOut? {
      HeardByTheAsking(s, a.outgoing, a.broken);
    } else if a.Connect? {
      AskedStays(s, a.desc);
    } else if !a.Restart? {
      NothingNewHeard(s, a);
    }
  }

  lemma HeardByTheAsking(s: State, o: Outgoing, broken: set<Pid>)
    requires Enabled(s, FanOut(o, broken)) && Registered(s) && HeardAloud(s)
    ensures HeardAloud(Next(s, FanOut(o, broken)))
  {
    var left := Survivors(s.hub.watchers, broken);
    if SomeoneReads(left) {
      var p :| p in left && !Silent(left[p].flags);
      assert left[p] == s.hub.watchers[p];
      assert s.clients.asked[s.hub.watchers[p].conn] == JobDesc(Watch, p, s.hub.watchers[p].flags);
    }
  }

  lemma AskedStays(s: State, desc: JobDesc)
    requires R.Ticketed(s.clients) && HeardAloud(s)
    ensures HeardAloud(Next(s, Connect(desc)))
  {
    if SomeoneAskedAloud(s.clients.asked) {
      var c :| c in s.clients.asked && s.clients.asked[c].cmd.Watch? && !Silent(s.clients.asked[c].flags);
      assert Next(s, Connect(desc)).clients.asked[c] == s.clients.asked[c];
    }
  }

  lemma NothingNewHeard(s: State, a: Action)
    requires Enabled(s, a) && !a.Connect? && !a.FanOut? && !a.Restart?
    ensures var t := Next(s, a);
            && t.clients.asked == s.clients.asked
            && t.hub.heard == s.hub.heard && (t.hub.acks == s.hub.acks || s.hub.acks != multiset{})
  {
    AskedOnce(s, a);
    if a.PushAck? {
      N.AckLeaves(s, a.notification);
    } else {
      N.HearingStays(s, a);
    }
  }

  // ---------------------------------------------------------------- what stops the manager

  /** What the manager has to send is what executing the job gave, as the last execution of the session. */
  ghost predicate ResultInHand(mgr: Manager) {
    R.ResultOf(mgr.phase).Some? ==>
      && mgr.session.runs != []
      && R.Answers(mgr.session, R.Busy(mgr.phase).value, Answer(|mgr.session.runs| - 1, R.ResultOf(mgr.phase).value))
  }

  lemma ResultInHandKept(s: State, a: Action)
    requires Enabled(s, a) && Numbered(s) && ResultInHand(s.mgr)
    ensures ResultInHand(Next(s, a).mgr)
  {
    if a.Work? {
      ResultInHandWork(s, a.em);
    } else {
      HandStays(s, a);
    }
  }

  lemma ResultInHandWork(s: State, em: Emission)
    requires Enabled(s, Work(em)) && Numbered(s)
    ensures ResultInHand(Next(s, Work(em)).mgr)
  {
    var mgr := Next(s, Work(em)).mgr;
    WorkOnPhase(s, em);
    if mgr.phase.Executed? {
      var effect := Execute(Cfg(s), s.mgr.log, s.mgr.phase.desc, s.clock, em).effect;
      R.NewAnswer(s, effect, em, Answer(|s.mgr.session.runs|, effect.reply));
      LastIsInHand(mgr, s.mgr.session, Execution(s.mgr.phase.desc, s.clock, em));
    }
  }

  lemma WorkOnPhase(s: State, em: Emission)
    requires Enabled(s, Work(em))
    ensures var mgr := Next(s, Work(em)).mgr;
            match Execute(Cfg(s), s.mgr.log, s.mgr.phase.desc, s.clock, em)
            case Panic => mgr.phase == Halted(JobPanicked(s.mgr.phase.desc))
            case Done(effect) =>
              && mgr.phase == Executed(s.mgr.phase.desc, s.mgr.phase.empty, effect.reply)
              && mgr.session == Extend(s.mgr.session, Execution(s.mgr.phase.desc, s.clock, em))
  {
  }

  lemma LastIsInHand(mgr: Manager, session: Session, x: Execution)
    requires mgr.phase.Executed? && mgr.session == Extend(session, x) && mgr.phase.desc == x.desc
    requires R.Answers(mgr.session, x.desc, Answer(|session.runs|, mgr.phase.reply))
    ensures ResultInHand(mgr)
  {
  }

  lemma HandStays(s: State, a: Action)
    requires Enabled(s, a) && !a.Work?
    ensures var p, q := s.mgr, Next(s, a).mgr;
            || R.ResultOf(q.phase).None?
            || (q.session == p.session
                && R.ResultOf(q.phase) == R.ResultOf(p.phase) && R.Busy(q.phase) == R.Busy(p.phase))
  {
  }

  /** If the manager thread is gone, it is known why: a job that stops it, or a result that was not sent. */
  ghost predicate HaltExplained(mgr: Manager) {
    mgr.phase.Halted? ==>
      match mgr.phase.why
      case JobPanicked(desc) => StopsTheManager(mgr.log, desc)
      case SendFailed(_, reply) => reply.result != Ok(None)
      case _ => false
  }

  lemma HaltExplainedKept(s: State, a: Action)
    requires Enabled(s, a) && TokensMatch(s.bus, s.mgr.phase) && HaltExplained(s.mgr)
    ensures HaltExplained(Next(s, a).mgr)
  {
    match a {
      case Work(em) =>
        PanicsExactly(Cfg(s), s.mgr.log, s.mgr.phase.desc, s.clock, em);
      case Pop => assert s.bus.queue != [] && !s.bus.poisoned;
      case _ =>
    }
  }

  /** The manager thread ends at a forced close of an id that is not in the log, at a read whose end lies before its
      start and inside the log, and at a result that cannot be sent. Nothing else ends it. */
  lemma StopsExactly(s: State, a: Action)
    requires Enabled(s, a) && TokensMatch(s.bus, s.mgr.phase) && !Gone(s)
    ensures Gone(Next(s, a)) <==>
            || (a.Work? && StopsTheManager(s.mgr.log, s.mgr.phase.desc))
            || (a == Send(false) && s.mgr.phase.reply.result != Ok(None))
  {
    match a {
      case Work(em) => PanicsExactly(Cfg(s), s.mgr.log, s.mgr.phase.desc, s.clock, em);
      case Pop => assert s.bus.queue != [] && !s.bus.poisoned;
      case _ =>
    }
  }

  // ---------------------------------------------------------------- what follows when the manager is gone

  /** Nothing panics, and no request is lost, while the manager thread is there. A request is only lost at a list that
      a D-Bus call has poisoned. */
  ghost predicate Calm(s: State) {
    && (!Gone(s) ==> s.hub.panics == 0 && s.bus.panics == 0)
    && (!s.bus.poisoned ==> s.hub.lost == {} && s.bus.panics == 0)
  }

  /** The listener task that takes this action panics: nobody receives its token, or it cannot lock the list. */
  predicate TaskPanics(s: State, a: Action) {
    (a.SendToken? && Gone(s)) || ((a.PushRequest? || a.PushAck?) && s.bus.poisoned)
  }

  /** The D-Bus call or expiry thread that takes this action panics. */
  predicate CallPanics(s: State, a: Action) {
    ((a.CloseCall? || a.PushNotification?) && (Gone(s) || s.bus.poisoned)) || (a.Fire? && s.bus.poisoned)
  }

  lemma TasksPanicExactly(s: State, a: Action)
    requires Enabled(s, a) && R.Routed(s) && NoticesSafe(s)
    ensures !a.Restart? ==> Next(s, a).hub.panics == s.hub.panics + (if TaskPanics(s, a) then 1 else 0)
    ensures a.Restart? ==> Next(s, a).hub.panics == 0
  {
    match a {
      case FanOut(o, broken) => NoticesSafeFanOut(s, o, broken);
      case Unhold(o) => R.RoutedUnhold(s, o);
      case _ => OtherTasksPanic(s, a);
    }
  }

  lemma OtherTasksPanic(s: State, a: Action)
    requires Enabled(s, a) && !a.FanOut? && !a.Unhold?
    ensures !a.Restart? ==> Next(s, a).hub.panics == s.hub.panics + (if TaskPanics(s, a) then 1 else 0)
    ensures a.Restart? ==> Next(s, a).hub.panics == 0
  {
  }

  lemma CallsPanicExactly(s: State, a: Action)
    requires Enabled(s, a) && !a.Restart?
    ensures Next(s, a).bus.panics == s.bus.panics + (if CallPanics(s, a) then 1 else 0)
    ensures Next(s, a).bus.poisoned <==> s.bus.poisoned || ((a.CloseCall? || a.PushNotification?) && Gone(s))
  {
  }

  lemma LostExactly(s: State, a: Action)
    requires Enabled(s, a) && !a.Restart?
    ensures Next(s, a).hub.lost == if a.PushRequest? && s.bus.poisoned then s.hub.lost + {a.request} else s.hub.lost
    ensures Gone(s) ==> Next(s, a).mgr == s.mgr
  {
    if TurnsManager(a) {
      NobodyIsLostByManager(s, a);
    } else {
      ListOnlyGrows(s, a);
      LostByOthers(s, a);
    }
  }

  lemma NobodyIsLostByManager(s: State, a: Action)
    requires Enabled(s, a) && TurnsManager(a)
    ensures !Gone(s) && Next(s, a).hub.lost == s.hub.lost
  {
  }

  lemma LostByOthers(s: State, a: Action)
    requires Enabled(s, a) && !TurnsManager(a) && !a.Restart?
    ensures Next(s, a).hub.lost == if a.PushRequest? && s.bus.poisoned then s.hub.lost + {a.request} else s.hub.lost
  {
  }

  lemma CalmKept(s: State, a: Action)
    requires Enabled(s, a) && TokensMatch(s.bus, s.mgr.phase) && R.Routed(s) && NoticesSafe(s) && Calm(s)
    ensures Calm(Next(s, a))
  {
    TasksPanicExactly(s, a);
    if !a.Restart? {
      CallsPanicExactly(s, a);
      LostExactly(s, a);
    }
  }
}
