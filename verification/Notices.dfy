/** Results for everybody: each is fanned out exactly once, and whose hearing it marks a notification read. */
module Notices {
  import opened Types
  import opened Log
  import opened Executor
  import opened History
  import opened System
  import opened Queueing
  import opened Numbering
  import R = Routing

  // ---------------------------------------------------------------- every notice once

  /** What an execution has to tell everybody. */
  function NoticeOf(cfg: Config, log: Entries, x: Execution): multiset<Outgoing> {
    match Run(cfg, log, x)
    case Done(effect) => Notice(x.desc, effect.reply)
    case Panic => multiset{}
  }

  function Notice(desc: JobDesc, reply: Reply): multiset<Outgoing> {
    if desc.pid == 0 && reply.result != Ok(None) then multiset{Outgoing(0, reply)} else multiset{}
  }

  /** Among the jobs that are ever in line under process 0, exactly the broadcasts and the signals that pass their
      gate have something to tell, a broadcast its own notification. */
  lemma TellsExactly(cfg: Config, log: Entries, x: Execution)
    requires Expected(x.desc) && x.desc.pid == 0 && Run(cfg, log, x).Done?
    ensures |NoticeOf(cfg, log, x)| <= 1
    ensures NoticeOf(cfg, log, x) != multiset{} <==> x.desc.cmd.Broadcast? || Passes(cfg, log, x.desc, x.now, x.em)
    ensures x.desc.cmd.Broadcast? ==>
              NoticeOf(cfg, log, x) == multiset{Outgoing(0, FulfilledJob(Ok(Some(OneJson(x.desc.cmd.event))), Results))}
  {
    if NoticeOf(cfg, log, x) != multiset{} {
      assert NoticeOf(cfg, log, x) == multiset{Outgoing(0, Run(cfg, log, x).effect.reply)};
    }
  }

  function Sum(f: nat --> multiset<Outgoing>, i: nat): multiset<Outgoing>
    requires forall j: nat :: j < i ==> f.requires(j)
  {
    if i == 0 then multiset{} else Sum(f, i - 1) + f(i - 1)
  }

  lemma {:induction false} SameSum(f: nat --> multiset<Outgoing>, g: nat --> multiset<Outgoing>, i: nat)
    requires forall j: nat :: j < i ==> f.requires(j) && g.requires(j) && f(j) == g(j)
    ensures Sum(f, i) == Sum(g, i)
  {
    if i > 0 {
      SameSum(f, g, i - 1);
    }
  }

  function Telling(s: Session): nat --> multiset<Outgoing> {
    (j: nat) requires j < |s.runs| => NoticeOf(s.cfg, At(s, j), s.runs[j])
  }

  /** What the first `i` executions had to tell. */
  function NoticesOf(s: Session, i: nat): multiset<Outgoing>
    requires i <= |s.runs|
  {
    Sum(Telling(s), i)
  }

  /** The one that the manager has executed and not sent. */
  function InHand(phase: Phase): multiset<Outgoing> {
    if R.ResultOf(phase).Some? then Notice(R.Busy(phase).value, R.ResultOf(phase).value) else multiset{}
  }

  ghost predicate CountedFor(executed: multiset<Outgoing>, hub: Hub, phase: Phase, o: Outgoing) {
    o.pid == 0 ==> executed[o] == hub.fanned[o] + hub.outgoing[o] + InHand(phase)[o]
  }

  /** The notices of all executions are those fanned out, those on their way and the one in the manager's hand. */
  ghost predicate Counted(s: State) {
    forall o :: CountedFor(NoticesOf(s.mgr.session, |s.mgr.session.runs|), s.hub, s.mgr.phase, o)
  }

  lemma NoticesOneMore(s: Session, x: Execution)
    ensures NoticesOf(Extend(s, x), |s.runs| + 1) == NoticesOf(s, |s.runs|) + NoticeOf(s.cfg, At(s, |s.runs|), x)
  {
    var t := Extend(s, x);
    forall j: nat | j < |s.runs| ensures Telling(t)(j) == Telling(s)(j) {
      AtExtend(s, x, j);
      assert t.runs[j] == s.runs[j];
    }
    SameSum(Telling(t), Telling(s), |s.runs|);
    AtExtend(s, x, |s.runs|);
    assert Telling(t)(|s.runs|) == NoticeOf(s.cfg, At(s, |s.runs|), x);
  }

  lemma CountedKept(s: State, a: Action)
    requires Enabled(s, a) && Replayed(s.mgr) && Counted(s)
    ensures Counted(Next(s, a))
  {
    if a.Work? {
      CountedWork(s, a.em);
    } else if a.Send? {
      CountedSend(s, a.ok);
    } else if a.FanOut? || a.Unhold? {
      CountedTaken(s, a);
    } else {
      NoticesStay(s, a);
    }
  }

  lemma CountedWork(s: State, em: Emission)
    requires Enabled(s, Work(em)) && Replayed(s.mgr) && Counted(s)
    ensures Counted(Next(s, Work(em)))
  {
    var t := Next(s, Work(em));
    WorkTells(s, em);
    if t.mgr.phase.Executed? {
      NoticesOneMore(s.mgr.session, Execution(s.mgr.phase.desc, s.clock, em));
    }
    forall o ensures CountedFor(NoticesOf(t.mgr.session, |t.mgr.session.runs|), t.hub, t.mgr.phase, o) {
      assert CountedFor(NoticesOf(s.mgr.session, |s.mgr.session.runs|), s.hub, s.mgr.phase, o);
    }
  }

  lemma WorkTells(s: State, em: Emission)
    requires Enabled(s, Work(em)) && Replayed(s.mgr)
    ensures var t := Next(s, Work(em));
            var x := Execution(s.mgr.phase.desc, s.clock, em);
            && t.hub == s.hub && InHand(s.mgr.phase) == multiset{}
            && (if t.mgr.phase.Executed?
                then && t.mgr.session == Extend(s.mgr.session, x)
                     && InHand(t.mgr.phase) == NoticeOf(Cfg(s), At(s.mgr.session, |s.mgr.session.runs|), x)
                else t.mgr.session == s.mgr.session && InHand(t.mgr.phase) == multiset{})
  {
    assert Next(s, Work(em)) == WorkOn(s, em);
    match Execute(Cfg(s), s.mgr.log, s.mgr.phase.desc, s.clock, em) {
      case Panic =>
      case Done(effect) =>
    }
  }

  lemma CountedSend(s: State, ok: bool)
    requires Enabled(s, Send(ok)) && Counted(s)
    ensures Counted(Next(s, Send(ok)))
  {
    var t := Next(s, Send(ok));
    SendTells(s, ok);
    forall o ensures CountedFor(NoticesOf(t.mgr.session, |t.mgr.session.runs|), t.hub, t.mgr.phase, o) {
      assert CountedFor(NoticesOf(s.mgr.session, |s.mgr.session.runs|), s.hub, s.mgr.phase, o);
    }
  }

  lemma SendTells(s: State, ok: bool)
    requires Enabled(s, Send(ok))
    ensures var t := Next(s, Send(ok));
            && t.mgr.session == s.mgr.session && t.hub.fanned == s.hub.fanned
            && forall o: Outgoing :: o.pid == 0 ==>
                 t.hub.outgoing[o] + InHand(t.mgr.phase)[o] == s.hub.outgoing[o] + InHand(s.mgr.phase)[o]
  {
    SendMoves(s, ok);
    var o := Outgoing(s.mgr.phase.desc.pid, s.mgr.phase.reply);
    assert s.mgr.phase.reply.result != Ok(None) && o.pid == 0 ==> InHand(s.mgr.phase) == multiset{o};
    assert o.pid != 0 ==> InHand(s.mgr.phase) == multiset{};
  }

  lemma SendMoves(s: State, ok: bool)
    requires Enabled(s, Send(ok))
    ensures var t := Next(s, Send(ok));
            var desc, reply := s.mgr.phase.desc, s.mgr.phase.reply;
            && t.mgr.session == s.mgr.session
            && (if ok && reply.result != Ok(None)
                then && t.hub == s.hub.(outgoing := s.hub.outgoing + multiset{Outgoing(desc.pid, reply)})
                     && InHand(t.mgr.phase) == multiset{}
                else t.hub == s.hub && InHand(t.mgr.phase) == InHand(s.mgr.phase))
  {
  }

  lemma CountedTaken(s: State, a: Action)
    requires Enabled(s, a) && Counted(s) && (a.FanOut? || a.Unhold?)
    ensures Counted(Next(s, a))
  {
    var t := Next(s, a);
    assert t.mgr == s.mgr && t.hub.outgoing == s.hub.outgoing - multiset{a.outgoing};
    assert t.hub.fanned == if a.FanOut? then s.hub.fanned + multiset{a.outgoing} else s.hub.fanned;
    forall o ensures CountedFor(NoticesOf(t.mgr.session, |t.mgr.session.runs|), t.hub, t.mgr.phase, o) {
      assert CountedFor(NoticesOf(s.mgr.session, |s.mgr.session.runs|), s.hub, s.mgr.phase, o);
    }
  }

  lemma NoticesStay(s: State, a: Action)
    requires Enabled(s, a) && Counted(s) && !a.Work? && !a.Send? && !a.FanOut? && !a.Unhold?
    ensures Counted(Next(s, a))
  {
    var t := Next(s, a);
    SameNotices(s, a);
    if !a.Restart? {
      forall o ensures CountedFor(NoticesOf(t.mgr.session, |t.mgr.session.runs|), t.hub, t.mgr.phase, o) {
        assert CountedFor(NoticesOf(s.mgr.session, |s.mgr.session.runs|), s.hub, s.mgr.phase, o);
      }
    }
  }

  lemma SameNotices(s: State, a: Action)
    requires Enabled(s, a) && !a.Work? && !a.Send? && !a.FanOut? && !a.Unhold?
    ensures var t := Next(s, a);
            if a.Restart? then
              && t.mgr.session.runs == [] && t.hub.fanned == t.hub.outgoing == multiset{}
              && InHand(t.mgr.phase) == multiset{}
            else
              && t.mgr.session == s.mgr.session && t.hub.fanned == s.hub.fanned && t.hub.outgoing == s.hub.outgoing
              && InHand(t.mgr.phase) == InHand(s.mgr.phase)
  {
    if !a.Restart? {
      ResultStays(s, a);
      HubNoticesStay(s, a);
    }
  }

  lemma HubNoticesStay(s: State, a: Action)
    requires Enabled(s, a) && !a.Restart? && !a.Send? && !a.FanOut? && !a.Unhold?
    ensures Next(s, a).hub.fanned == s.hub.fanned && Next(s, a).hub.outgoing == s.hub.outgoing
  {
  }

  lemma ResultStays(s: State, a: Action)
    requires Enabled(s, a) && !a.Work? && !a.Send? && !a.Restart?
    ensures var p, q := s.mgr, Next(s, a).mgr;
            && q.session == p.session && R.ResultOf(q.phase) == R.ResultOf(p.phase)
            && (R.ResultOf(p.phase).Some? ==> R.Busy(q.phase) == R.Busy(p.phase))
  {
  }

  // ---------------------------------------------------------------- what an acknowledgement goes back to

  /** The notification was broadcast by one of the first `i` executions. */
  ghost predicate Posted(session: Session, n: Notification, i: nat) {
    exists c :: 0 <= c < i && c < |session.runs| && session.runs[c].desc.cmd == Broadcast(n)
  }

  /** If the reply shows one notification, that was broadcast. */
  ghost predicate ShowsPosted(session: Session, reply: Reply) {
    reply.result.Ok? && reply.result.value.Some? && reply.result.value.value.OneJson? ==>
      Posted(session, reply.result.value.value.notification, |session.runs|)
  }

  /** Only what was broadcast is announced, and only what was heard is acknowledged. */
  ghost predicate Announced(s: State) {
    && (forall o :: o in s.hub.outgoing ==> ShowsPosted(s.mgr.session, o.reply))
    && (R.ResultOf(s.mgr.phase).Some? ==> ShowsPosted(s.mgr.session, R.ResultOf(s.mgr.phase).value))
    && (forall n :: n in s.hub.heard ==> Posted(s.mgr.session, n, |s.mgr.session.runs|))
    && (forall n :: n in s.hub.acks ==> n in s.hub.heard)
  }

  lemma PostedExtend(session: Session, x: Execution, n: Notification, i: nat, j: nat)
    requires Posted(session, n, i) && i <= j
    ensures Posted(Extend(session, x), n, j) && Posted(session, n, j)
  {
    var c :| 0 <= c < i && c < |session.runs| && session.runs[c].desc.cmd == Broadcast(n);
    assert Extend(session, x).runs[c] == session.runs[c];
  }

  lemma ShowsPostedExtend(session: Session, x: Execution, reply: Reply)
    requires ShowsPosted(session, reply)
    ensures ShowsPosted(Extend(session, x), reply)
  {
    if reply.result.Ok? && reply.result.value.Some? && reply.result.value.value.OneJson? {
      PostedExtend(session, x, reply.result.value.value.notification, |session.runs|, |session.runs| + 1);
    }
  }

  lemma AnnouncedKept(s: State, a: Action)
    requires Enabled(s, a) && Announced(s)
    ensures Announced(Next(s, a))
  {
    if a.Work? {
      AnnouncedWork(s, a.em);
    } else if a.Send? {
      AnnouncedSend(s, a.ok);
    } else if a.FanOut? {
      AnnouncedFanOut(s, a.outgoing, a.broken);
    } else {
      AnnouncedElsewhere(s, a);
    }
  }

  lemma AnnouncedSend(s: State, ok: bool)
    requires Enabled(s, Send(ok)) && Announced(s)
    ensures Announced(Next(s, Send(ok)))
  {
  }

  /** What a fan-out adds to what was heard. */
  lemma FanOutHears(hub: Hub, o: Outgoing, broken: set<Pid>)
    ensures var after := FanOutTo(hub, o, broken);
            && after.outgoing == hub.outgoing - multiset{o}
            && (|| (after.heard == hub.heard && after.acks == hub.acks)
                || (&& IsResults(o.reply) && o.reply.result.value.value.OneJson?
                    && var n := o.reply.result.value.value.notification;
                       after.heard == hub.heard + {n} && after.acks == hub.acks + multiset{n}))
  {
  }

  lemma AnnouncedFanOut(s: State, o: Outgoing, broken: set<Pid>)
    requires Enabled(s, FanOut(o, broken)) && Announced(s)
    ensures Announced(Next(s, FanOut(o, broken)))
  {
    var t := Next(s, FanOut(o, broken));
    FanOutHears(s.hub, o, broken);
    assert t.mgr == s.mgr && t.hub == FanOutTo(s.hub, o, broken);
    assert ShowsPosted(s.mgr.session, o.reply);
  }

  lemma AnnouncedElsewhere(s: State, a: Action)
    requires Enabled(s, a) && Announced(s) && !a.Work? && !a.Send? && !a.FanOut?
    ensures Announced(Next(s, a))
  {
    AnnouncementsStay(s, a);
  }

  lemma AnnouncementsStay(s: State, a: Action)
    requires Enabled(s, a) && !a.Work? && !a.Send? && !a.FanOut?
    ensures var t := Next(s, a);
            if a.Restart? then
              t.hub.outgoing == multiset{} && t.hub.heard == {} && t.hub.acks == multiset{} && t.mgr.phase.Idle?
            else
              && t.mgr.session == s.mgr.session && t.hub.heard == s.hub.heard
              && t.hub.outgoing <= s.hub.outgoing && t.hub.acks <= s.hub.acks
              && R.ResultOf(t.mgr.phase) == R.ResultOf(s.mgr.phase)
  {
    if !a.Restart? {
      ResultStays(s, a);
      NothingIsHeard(s, a);
    }
  }

  lemma NothingIsHeard(s: State, a: Action)
    requires Enabled(s, a) && !a.Restart? && !a.Send? && !a.FanOut?
    ensures var p, q := s.hub, Next(s, a).hub;
            q.heard == p.heard && q.outgoing <= p.outgoing && q.acks <= p.acks
  {
    if a.Unhold? {
      assert TakeOff(s, a.outgoing).hub.outgoing == s.hub.outgoing - multiset{a.outgoing};
      assert TakeOff(s, a.outgoing).hub.acks == s.hub.acks && TakeOff(s, a.outgoing).hub.heard == s.hub.heard;
    } else if a.PushAck? {
      AckLeaves(s, a.notification);
    } else {
      HearingStays(s, a);
      HubNoticesStay(s, a);
    }
  }

  lemma AckLeaves(s: State, n: Notification)
    requires Enabled(s, PushAck(n))
    ensures var q := Next(s, PushAck(n)).hub;
            q.heard == s.hub.heard && q.outgoing == s.hub.outgoing && q.acks == s.hub.acks - multiset{n}
  {
  }

  lemma HearingStays(s: State, a: Action)
    requires Enabled(s, a) && !a.Restart? && !a.FanOut? && !a.PushAck?
    ensures Next(s, a).hub.heard == s.hub.heard && Next(s, a).hub.acks == s.hub.acks
  {
    if R.OfRequests(a) || R.OfReplies(a) || a.Send? {
      HearingOfTasks(s, a);
    } else {
      HubLeft(s, a);
    }
  }

  lemma HearingOfTasks(s: State, a: Action)
    requires Enabled(s, a) && !a.FanOut? && (R.OfRequests(a) || R.OfReplies(a) || a.Send?)
    ensures Next(s, a).hub.heard == s.hub.heard && Next(s, a).hub.acks == s.hub.acks
  {
    if R.OfRequests(a) {
      HearingOfRequests(s, a);
    } else {
      HearingOfReplies(s, a);
    }
  }

  lemma HearingOfReplies(s: State, a: Action)
    requires Enabled(s, a) && (R.OfReplies(a) || a.Send?) && !a.FanOut?
    ensures Next(s, a).hub.heard == s.hub.heard && Next(s, a).hub.acks == s.hub.acks
  {
    match a {
      case Unhold(o) => assert Next(s, a) == TakeOff(s, o);
      case Deliver(_, _) =>
      case Send(ok) => assert Next(s, a) == SendBack(s, ok);
    }
  }

  lemma HearingOfRequests(s: State, a: Action)
    requires Enabled(s, a) && R.OfRequests(a)
    ensures Next(s, a).hub.heard == s.hub.heard && Next(s, a).hub.acks == s.hub.acks
  {
  }

  lemma HubLeft(s: State, a: Action)
    requires Enabled(s, a) && !R.OfRequests(a) && !R.OfReplies(a) && !a.Send? && !a.PushAck? && !a.Restart?
    ensures Next(s, a).hub.(panics := s.hub.panics) == s.hub
  {
  }

  lemma AnnouncedWork(s: State, em: Emission)
    requires Enabled(s, Work(em)) && Announced(s)
    ensures Announced(Next(s, Work(em)))
  {
    var t := Next(s, Work(em));
    var x := Execution(s.mgr.phase.desc, s.clock, em);
    assert t.hub == s.hub;
    match Execute(Cfg(s), s.mgr.log, s.mgr.phase.desc, s.clock, em) {
      case Panic =>
      case Done(effect) =>
        NewsIsPosted(s.mgr.session, s.mgr.log, x, effect);
        forall o | o in s.hub.outgoing ensures ShowsPosted(t.mgr.session, o.reply) {
          ShowsPostedExtend(s.mgr.session, x, o.reply);
        }
        forall n | n in s.hub.heard ensures Posted(t.mgr.session, n, |t.mgr.session.runs|) {
          PostedExtend(s.mgr.session, x, n, |s.mgr.session.runs|, |s.mgr.session.runs| + 1);
        }
    }
  }

  lemma NewsIsPosted(session: Session, log: Entries, x: Execution, effect: Effect)
    requires Run(session.cfg, log, x) == Done(effect)
    ensures ShowsPosted(Extend(session, x), effect.reply)
  {
    assert Extend(session, x).runs[|session.runs|] == x;
  }

  ghost predicate CausedAt(bus: Bus, hub: Hub, session: Session, i: nat)
    requires i < |bus.pushed| == |bus.causes|
  {
    match bus.causes[i]
    case None => !bus.pushed[i].cmd.Acknowledge?
    case Some(n) => bus.pushed[i] == AckDesc(n.id) && n in hub.heard && Posted(session, n, i)
  }

  /** Every acknowledgement ever pushed goes back to a notification of its id that was broadcast before it and heard. */
  ghost predicate Caused(s: State) {
    && |s.bus.causes| == |s.bus.pushed|
    && forall i :: 0 <= i < |s.bus.pushed| ==> CausedAt(s.bus, s.hub, s.mgr.session, i)
  }

  lemma CausedKept(s: State, a: Action)
    requires Enabled(s, a) && Shaped(s) && Conserved(s) && Announced(s) && Caused(s)
    ensures Caused(Next(s, a))
  {
    if a.Restart? {
      assert Next(s, a).bus.pushed == [] && Next(s, a).bus.causes == [];
    } else if a.PushAck? && !s.bus.poisoned {
      CausedAck(s, a.notification);
    } else if a.Work? {
      CausedWork(s, a.em);
    } else {
      OthersCauseNothing(s, a);
      CausedOn(s, Next(s, a));
    }
  }

  lemma CausedOn(s: State, t: State)
    requires Caused(s) && t.mgr.session == s.mgr.session && s.hub.heard <= t.hub.heard && GainsNoAck(s.bus, t.bus)
    ensures Caused(t)
  {
    forall i | 0 <= i < |t.bus.pushed| ensures CausedAt(t.bus, t.hub, t.mgr.session, i) {
      assert i < |s.bus.pushed| ==> CausedAt(s.bus, s.hub, s.mgr.session, i);
    }
  }

  ghost predicate GainsNoAck(bus: Bus, bus': Bus) {
    || (bus'.pushed == bus.pushed && bus'.causes == bus.causes)
    || (|bus'.pushed| == |bus.pushed| + 1 && bus'.pushed[..|bus.pushed|] == bus.pushed
        && bus'.causes == bus.causes + [None] && !bus'.pushed[|bus.pushed|].cmd.Acknowledge?)
  }

  lemma OthersCauseNothing(s: State, a: Action)
    requires Enabled(s, a) && Shaped(s) && !a.Restart? && !a.Work? && !(a.PushAck? && !s.bus.poisoned)
    ensures var t := Next(s, a);
            t.mgr.session == s.mgr.session && s.hub.heard <= t.hub.heard && GainsNoAck(s.bus, t.bus)
  {
    if ChangeOf(s, a).Joined? {
      PushedNoAck(s, a);
    } else {
      PushedNothing(s, a);
    }
    SessionAndHearing(s, a);
  }

  lemma SessionAndHearing(s: State, a: Action)
    requires Enabled(s, a) && !a.Restart? && !a.Work?
    ensures Next(s, a).mgr.session == s.mgr.session && s.hub.heard <= Next(s, a).hub.heard
  {
  }

  lemma PushedNoAck(s: State, a: Action)
    requires Enabled(s, a) && Shaped(s) && ChangeOf(s, a).Joined? && !a.PushAck?
    ensures GainsNoAck(s.bus, Next(s, a).bus)
  {
    var t := Next(s, a);
    var desc := ChangeOf(s, a).desc;
    assert !desc.cmd.Acknowledge?;
    assert t.bus.pushed == s.bus.pushed + [desc] && t.bus.causes == s.bus.causes + [None];
  }

  lemma PushedNothing(s: State, a: Action)
    requires Enabled(s, a) && !a.Restart? && !ChangeOf(s, a).Joined?
    ensures Next(s, a).bus.pushed == s.bus.pushed && Next(s, a).bus.causes == s.bus.causes
  {
  }

  lemma CausedAck(s: State, n: Notification)
    requires Enabled(s, PushAck(n)) && Conserved(s) && Announced(s) && Caused(s) && !s.bus.poisoned
    ensures Caused(Next(s, PushAck(n)))
  {
    var t := Next(s, PushAck(n));
    var last := |s.bus.pushed|;
    assert t.bus.pushed == s.bus.pushed + [AckDesc(n.id)] && t.bus.causes == s.bus.causes + [Some(n)];
    assert n in s.hub.heard && t.hub.heard == s.hub.heard && t.mgr == s.mgr;
    assert |s.mgr.session.runs| <= last;
    assert Posted(s.mgr.session, n, last);
    forall i | 0 <= i < |t.bus.pushed| ensures CausedAt(t.bus, t.hub, t.mgr.session, i) {
      if i < last {
        assert CausedAt(s.bus, s.hub, s.mgr.session, i);
      }
    }
  }

  lemma CausedWork(s: State, em: Emission)
    requires Enabled(s, Work(em)) && Caused(s)
    ensures Caused(Next(s, Work(em)))
  {
    var t := Next(s, Work(em));
    assert t.bus == s.bus && t.hub == s.hub;
    var x := Execution(s.mgr.phase.desc, s.clock, em);
    assert t.mgr.session == s.mgr.session || t.mgr.session == Extend(s.mgr.session, x);
    forall i | 0 <= i < |t.bus.pushed| ensures CausedAt(t.bus, t.hub, t.mgr.session, i) {
      assert CausedAt(s.bus, s.hub, s.mgr.session, i);
      if s.bus.causes[i].Some? {
        PostedExtend(s.mgr.session, x, s.bus.causes[i].value, i, i);
      }
    }
  }

  /** Unless nobody can lock the list any more, whatever was heard is acknowledged or about to be. */
  ghost predicate Acknowledged(s: State) {
    !s.bus.poisoned ==> forall n :: n in s.hub.heard ==> n in s.hub.acks || Some(n) in s.bus.causes
  }

  lemma AcknowledgedKept(s: State, a: Action)
    requires Enabled(s, a) && Acknowledged(s)
    ensures Acknowledged(Next(s, a))
  {
    match a {
      case FanOut(o, broken) => HeardIsToBeAcked(s, o, broken);
      case PushAck(n) => AckIsPushed(s, n);
      case Restart(_) =>
      case _ =>
        HearingStays(s, a);
        CausesGrow(s, a);
    }
  }

  lemma HeardIsToBeAcked(s: State, o: Outgoing, broken: set<Pid>)
    requires Enabled(s, FanOut(o, broken)) && Acknowledged(s)
    ensures Acknowledged(Next(s, FanOut(o, broken)))
  {
    FanOutHears(s.hub, o, broken);
  }

  lemma AckIsPushed(s: State, n: Notification)
    requires Enabled(s, PushAck(n)) && Acknowledged(s)
    ensures Acknowledged(Next(s, PushAck(n)))
  {
    var t := Next(s, PushAck(n));
    AckLeaves(s, n);
    if !s.bus.poisoned {
      assert t.bus.causes == s.bus.causes + [Some(n)];
      forall m | m in t.hub.heard ensures m in t.hub.acks || Some(m) in t.bus.causes {
        assert m != n && m in s.hub.acks ==> m in t.hub.acks;
        assert t.bus.causes[|s.bus.causes|] == Some(n);
      }
    }
  }

  lemma CausesGrow(s: State, a: Action)
    requires Enabled(s, a) && !a.Restart?
    ensures s.bus.poisoned ==> Next(s, a).bus.poisoned
    ensures s.bus.causes <= Next(s, a).bus.causes
  {
  }

  ghost predicate WellTold(s: State) {
    Counted(s) && Announced(s) && Caused(s) && Acknowledged(s)
  }

  lemma WellToldAtBoot(cfg: Config, stored: Entries, clock: nat, nextConn: Conn)
    ensures WellTold(Boot(cfg, stored, clock, nextConn))
  {
  }

  lemma WellToldKept(s: State, a: Action)
    requires Enabled(s, a) && Shaped(s) && Conserved(s) && Replayed(s.mgr) && WellTold(s)
    ensures WellTold(Next(s, a))
  {
    CountedKept(s, a);
    AnnouncedKept(s, a);
    CausedKept(s, a);
    AcknowledgedKept(s, a);
  }

  // ---------------------------------------------------------------- what marks a notification read

  /** A read that was not silent has shown the entry since this execution. */
  ghost predicate ShownSince(s: Session, k: nat, id: Nid) {
    exists j :: k < j < |s.runs| && s.runs[j].desc.cmd.Read? && Reads(At(s, j), s.runs[j], id)
  }

  /** An acknowledgement of this id was executed after the `k`-th execution, and goes back to this notification. */
  ghost predicate AckedFor(s: State, k: nat, id: Nid, n: Notification) {
    exists j :: k < j < |s.mgr.session.runs| && j < |s.bus.causes|
      && s.mgr.session.runs[j].desc.cmd == Acknowledge(id) && s.bus.causes[j] == Some(n)
  }

  /** The acknowledgement executed after a broadcast came too late: it was caused by an earlier notification of the
      id. */
  ghost predicate AckedLate(s: State, k: nat, n: Notification) {
    exists m :: m != n && m.id == n.id && m in s.hub.heard && Posted(s.mgr.session, m, k) && AckedFor(s, k, n.id, m)
  }

  lemma RunWasPushed(s: State, j: nat)
    requires Conserved(s) && j < |s.mgr.session.runs|
    ensures j < |s.bus.pushed| && s.bus.pushed[j] == s.mgr.session.runs[j].desc
  {
    assert Descs(s.mgr.session.runs)[j] == s.mgr.session.runs[j].desc;
  }

  /** What an acknowledgement executed after the latest broadcast of its id goes back to. */
  lemma CauseOfAck(s: State, k: nat, j: nat, id: Nid) returns (m: Notification)
    requires Conserved(s) && Caused(s) && LastPost(s.mgr.session, |s.mgr.session.runs|, id) == Some(k)
    requires k < j < |s.mgr.session.runs| && s.mgr.session.runs[j].desc.cmd == Acknowledge(id)
    ensures j < |s.bus.causes| && s.bus.causes[j] == Some(m) && m.id == id && m in s.hub.heard
    ensures m == s.mgr.session.runs[k].desc.cmd.event || Posted(s.mgr.session, m, k)
  {
    RunWasPushed(s, j);
    assert CausedAt(s.bus, s.hub, s.mgr.session, j);
    m := s.bus.causes[j].value;
    var c :| 0 <= c < j && c < |s.mgr.session.runs| && s.mgr.session.runs[c].desc.cmd == Broadcast(m);
    assert Posts(s.mgr.session.runs[c], id);
    assert c <= k;
  }

  /** An entry broadcast in this session that no read has shown is marked read exactly by an acknowledgement of its own
      notice, which a watcher has then heard, or by one that came too late for an earlier notification of its id. */
  lemma ReadByAckExactly(s: State, n: Notification, k: nat) returns (o: Notification)
    requires Replayed(s.mgr) && Conserved(s) && Caused(s)
    requires n in s.mgr.log && LastPost(s.mgr.session, |s.mgr.session.runs|, n.id) == Some(k)
    requires !ShownSince(s.mgr.session, k, n.id)
    ensures s.mgr.session.runs[k].desc.cmd == Broadcast(o) && o.id == n.id
    ensures n.read <==> AckedFor(s, k, n.id, o) || AckedLate(s, k, o)
    ensures AckedFor(s, k, n.id, o) ==> o in s.hub.heard
  {
    var session := s.mgr.session;
    o := LogRefinesHistory(session, |session.runs|, n);
    BroadcastsAreUnread(session, k);
    if n.read {
      var j :| k < j < |session.runs| && Reads(At(session, j), session.runs[j], n.id);
      assert session.runs[j].desc.cmd == Acknowledge(n.id);
      var m := CauseOfAck(s, k, j, n.id);
      assert AckedFor(s, k, n.id, m);
    }
    if AckedFor(s, k, n.id, o) {
      var j :| k < j < |session.runs| && j < |s.bus.causes|
        && session.runs[j].desc.cmd == Acknowledge(n.id) && s.bus.causes[j] == Some(o);
      var m := CauseOfAck(s, k, j, n.id);
    }
    if AckedFor(s, k, n.id, o) || AckedLate(s, k, o) {
      AcksMark(s, k, n.id);
    }
  }

  lemma BroadcastsAreUnread(session: Session, k: nat)
    requires Sound(session) && k < |session.runs| && session.runs[k].desc.cmd.Broadcast?
    ensures !session.runs[k].desc.cmd.event.read
  {
    assert OrderlyAt(session, k);
  }

  lemma AcksMark(s: State, k: nat, id: Nid)
    requires exists n :: AckedFor(s, k, id, n)
    ensures ReadWithin(s.mgr.session, k + 1, |s.mgr.session.runs|, id)
  {
    var n :| AckedFor(s, k, id, n);
    var j :| k < j < |s.mgr.session.runs| && j < |s.bus.causes|
      && s.mgr.session.runs[j].desc.cmd == Acknowledge(id) && s.bus.causes[j] == Some(n);
    assert Reads(At(s.mgr.session, j), s.mgr.session.runs[j], id);
  }

  /** With nothing left in line, what was heard has been acknowledged, after the broadcast if there was but one. */
  lemma HeardIsAcked(s: State, o: Notification, k: nat)
    requires Conserved(s) && Caused(s) && Acknowledged(s)
    requires !s.bus.poisoned && Line(s) == [] && s.hub.acks == multiset{}
    requires LastPost(s.mgr.session, |s.mgr.session.runs|, o.id) == Some(k) && !Posted(s.mgr.session, o, k)
    requires o in s.hub.heard
    ensures AckedFor(s, k, o.id, o)
  {
    var i :| 0 <= i < |s.bus.causes| && s.bus.causes[i] == Some(o);
    assert CausedAt(s.bus, s.hub, s.mgr.session, i);
    assert i < |s.mgr.session.runs|;
    RunWasPushed(s, i);
    var c :| 0 <= c < i && c < |s.mgr.session.runs| && s.mgr.session.runs[c].desc.cmd == Broadcast(o);
    assert Posts(s.mgr.session.runs[c], o.id);
    assert c == k;
  }
}
