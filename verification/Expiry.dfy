/** Expiring notifications are never forgotten: while one is open, a thread or a job is on its way to close it. */
module Expiry {
  import opened Types
  import opened Log
  import opened Executor
  import opened History
  import opened System
  import opened Queueing
  import opened Numbering

  ghost predicate PostedHere(session: Session, id: Nid) {
    LastPost(session, |session.runs|, id).Some?
  }

  lemma {:induction false} LastPostExtend(s: Session, x: Execution, i: nat, id: Nid)
    requires i <= |s.runs|
    ensures LastPost(Extend(s, x), i, id) == LastPost(s, i, id)
  {
    if i > 0 {
      LastPostExtend(s, x, i - 1, id);
    }
  }

  lemma PostedExtend(s: Session, x: Execution, id: Nid)
    ensures PostedHere(Extend(s, x), id) <==> Posts(x, id) || PostedHere(s, id)
  {
    LastPostExtend(s, x, |s.runs|, id);
  }

  /** When the thread started by the latest broadcast of this notification wakes: the mapped timeout after the
      execution. */
  function WakeTime(session: Session, n: Notification): nat
    requires Expires(n.timeout) && LastPost(session, |session.runs|, n.id).Some?
  {
    session.runs[LastPost(session, |session.runs|, n.id).value].now + MapTimeout(session.cfg, n.timeout).value.value
  }

  lemma WakeTimeExtend(s: Session, x: Execution, n: Notification)
    requires Expires(n.timeout) && PostedHere(s, n.id) && !Posts(x, n.id)
    ensures PostedHere(Extend(s, x), n.id) && WakeTime(Extend(s, x), n) == WakeTime(s, n)
  {
    LastPostExtend(s, x, |s.runs|, n.id);
  }

  /** A thread sleeps until exactly this time, or the time has come and the expiry is in line. */
  ghost predicate Guarded(id: Nid, wake: nat, timers: multiset<Timer>, line: seq<JobDesc>, clock: nat) {
    Timer(id, wake) in timers || (ExpiryDesc(id) in line && wake <= clock)
  }

  /** With auto-close on, every open notification broadcast since the daemon started that can expire is guarded, and its
      guard does not come before its deadline. Only a list that no thread can lock any more loses guards. */
  ghost predicate NoOrphans(s: State) {
    Cfg(s).autoClose ==>
      forall n :: n in s.mgr.log && !n.closed && Expires(n.timeout) && PostedHere(s.mgr.session, n.id) ==>
        && (s.bus.poisoned || Guarded(n.id, WakeTime(s.mgr.session, n), s.timers, Line(s), s.clock))
        && Deadline(Cfg(s), n) <= WakeTime(s.mgr.session, n)
  }

  /** Expiries only exist with auto-close on. */
  ghost predicate ExpiryNeedsAutoClose(s: State) {
    !Cfg(s).autoClose ==>
      && s.timers == multiset{}
      && (forall i :: 0 <= i < |Line(s)| ==> !IsExpiry(Line(s)[i]))
      && (forall i :: 0 <= i < |s.mgr.session.runs| ==> !IsExpiry(s.mgr.session.runs[i].desc))
  }

  predicate IsExpiry(desc: JobDesc) {
    desc.cmd.Close? && desc.cmd.reason == Expired
  }

  lemma ExpiryNeedsAutoCloseKept(s: State, a: Action)
    requires Enabled(s, a) && Shaped(s) && ExpiryNeedsAutoClose(s)
    ensures ExpiryNeedsAutoClose(Next(s, a))
  {
    LineChanges(s, a);
    match ChangeOf(s, a) {
      case Served => ServedNeedsAutoClose(s, a.em);
      case Joined(desc) => JoinedNeedsAutoClose(s, a, desc);
      case _ => TimersDwindle(s, a);
    }
  }

  lemma TimersDwindle(s: State, a: Action)
    requires Enabled(s, a) && !ChangeOf(s, a).Served?
    ensures Next(s, a).timers <= s.timers
    ensures !a.Restart? ==> Cfg(Next(s, a)) == Cfg(s)
    ensures a.Restart? ==> Next(s, a).timers == multiset{}
  {
  }

  lemma JoinedNeedsAutoClose(s: State, a: Action, desc: JobDesc)
    requires Enabled(s, a) && Shaped(s) && ExpiryNeedsAutoClose(s)
    requires LineFollows(s, a) && ChangeOf(s, a) == Joined(desc)
    ensures ExpiryNeedsAutoClose(Next(s, a))
  {
    TimersDwindle(s, a);
    if a.Fire? {
      assert a.timer in s.timers;
    }
    assert IsExpiry(desc) ==> a.Fire?;
  }

  lemma ServedNeedsAutoClose(s: State, em: Emission)
    requires s.mgr.phase.Popped? && ExpiryNeedsAutoClose(s) && LineFollows(s, Work(em)) && ChangeOf(s, Work(em)).Served?
    ensures ExpiryNeedsAutoClose(Next(s, Work(em)))
  {
    if !Cfg(s).autoClose {
      var t := Next(s, Work(em));
      forall i | 0 <= i < |Line(t)| ensures !IsExpiry(Line(t)[i]) {
        assert Line(t)[i] == Line(s)[i + 1];
      }
      assert !IsExpiry(Line(s)[0]);
    }
  }

  lemma GuardedStill(id: Nid, wake: nat, timers: multiset<Timer>, line: seq<JobDesc>, clock: nat,
        line': seq<JobDesc>, clock': nat)
    requires Guarded(id, wake, timers, line, clock) && clock <= clock' && forall d :: d in line ==> d in line'
    ensures Guarded(id, wake, timers, line', clock')
  {
  }

  /** A thread that fires hands its guard on to the job it pushes. */
  lemma GuardedAfterFire(id: Nid, wake: nat, timers: multiset<Timer>, line: seq<JobDesc>, clock: nat, t: Timer)
    requires Guarded(id, wake, timers, line, clock) && t in timers && t.wake <= clock
    ensures Guarded(id, wake, timers - multiset{t}, line + [ExpiryDesc(t.id)], clock)
  {
    var line' := line + [ExpiryDesc(t.id)];
    assert line'[|line|] == ExpiryDesc(t.id);
    if ExpiryDesc(id) in line {
      assert ExpiryDesc(id) in line';
    }
  }

  lemma NoOrphansFire(s: State, t: Timer)
    requires Enabled(s, Fire(t)) && NoOrphans(s)
    ensures NoOrphans(Next(s, Fire(t)))
  {
    LineChanges(s, Fire(t));
    var u := Next(s, Fire(t));
    assert u.bus.poisoned == s.bus.poisoned && u.mgr == s.mgr;
    if Cfg(s).autoClose && !s.bus.poisoned {
      forall n | n in u.mgr.log && !n.closed && Expires(n.timeout) && PostedHere(u.mgr.session, n.id)
        ensures Guarded(n.id, WakeTime(u.mgr.session, n), u.timers, Line(u), u.clock)
      {
        GuardedAfterFire(n.id, WakeTime(s.mgr.session, n), s.timers, Line(s), s.clock, t);
      }
    }
  }

  lemma NoOrphansElsewhere(s: State, a: Action)
    requires Enabled(s, a) && NoOrphans(s) && !a.Fire? && !ChangeOf(s, a).Served?
    ensures NoOrphans(Next(s, a))
  {
    LineChanges(s, a);
    var u := Next(s, a);
    if a.Restart? {
      assert u.mgr.session.runs == [];
    } else {
      LogAndTimersStay(s, a);
      assert forall d :: d in Line(s) ==> d in Line(u);
      if Cfg(u).autoClose && !u.bus.poisoned {
        forall n | n in u.mgr.log && !n.closed && Expires(n.timeout) && PostedHere(u.mgr.session, n.id)
          ensures Guarded(n.id, WakeTime(u.mgr.session, n), u.timers, Line(u), u.clock)
        {
          GuardedStill(n.id, WakeTime(s.mgr.session, n), s.timers, Line(s), s.clock, Line(u), u.clock);
        }
      }
    }
  }

  lemma LogAndTimersStay(s: State, a: Action)
    requires Enabled(s, a) && !a.Fire? && !a.Restart? && !ChangeOf(s, a).Served?
    ensures Next(s, a).mgr.log == s.mgr.log && Next(s, a).timers == s.timers && s.clock <= Next(s, a).clock
    ensures s.bus.poisoned ==> Next(s, a).bus.poisoned
  {
  }

  /** An entry that is still open after a job keeps its guard: had the job been its due expiry, it would be closed. */
  lemma GuardedAfterWork(cfg: Config, log: Entries, x: Execution, p: Notification, m: Notification, wake: nat,
                         timers: multiset<Timer>, rest: seq<JobDesc>)
    requires Distinct(log) && Orderly(cfg, log, x) && CarriesOn(cfg, log, x, p, m) && m in After(cfg, log, x)
    requires !m.closed && Expires(m.timeout) && Deadline(cfg, m) <= wake
    requires Guarded(m.id, wake, timers, [x.desc] + rest, x.now)
    ensures Guarded(m.id, wake, timers, rest, x.now)
  {
    if Timer(m.id, wake) !in timers && ExpiryDesc(m.id) !in rest {
      assert x.desc == ExpiryDesc(m.id);
      DistinctAfter(cfg, log, x);
      DueExpiryCloses(cfg, log, p, x.now, x.em);
      SameIdSameEntry(After(cfg, log, x), m, p.(closed := true));
      assert false;
    }
  }

  lemma NoOrphansWork(s: State, em: Emission)
    requires Enabled(s, Work(em)) && Numbered(s) && NoOrphans(s) && ChangeOf(s, Work(em)).Served?
    ensures NoOrphans(Next(s, Work(em)))
  {
    LineChanges(s, Work(em));
    ReplayedWork(s, em);
    var u := WorkOn(s, em);
    if Cfg(s).autoClose {
      forall m | m in u.mgr.log && !m.closed && Expires(m.timeout) && PostedHere(u.mgr.session, m.id)
        ensures u.bus.poisoned || Guarded(m.id, WakeTime(u.mgr.session, m), u.timers, Line(u), u.clock)
        ensures Deadline(Cfg(u), m) <= WakeTime(u.mgr.session, m)
      {
        GuardedWork(s, em, m);
      }
    }
  }

  lemma GuardedWork(s: State, em: Emission, m: Notification)
    requires Enabled(s, Work(em)) && Numbered(s) && NoOrphans(s) && ChangeOf(s, Work(em)).Served?
    requires LineFollows(s, Work(em)) && Cfg(s).autoClose
    requires var u := WorkOn(s, em);
             m in u.mgr.log && !m.closed && Expires(m.timeout) && PostedHere(u.mgr.session, m.id)
    ensures var u := WorkOn(s, em);
            && (u.bus.poisoned || Guarded(m.id, WakeTime(u.mgr.session, m), u.timers, Line(u), u.clock))
            && Deadline(Cfg(u), m) <= WakeTime(u.mgr.session, m)
  {
    var u := WorkOn(s, em);
    var x := Execution(s.mgr.phase.desc, s.clock, em);
    ReplayedWork(s, em);
    var posted, p := StepBack(Cfg(s), s.mgr.log, x, m);
    if posted {
      assert NumberedAt(Line(s), 0, s.counter, s.clock, s.mgr.log);
      PostedIsGuarded(s.mgr.session, s.mgr.log, x, m);
    } else {
      PostedExtend(s.mgr.session, x, m.id);
      CarriedIsGuarded(s.mgr.session, s.mgr.log, x, p, m, s.timers, Line(u), s.bus.poisoned);
    }
  }

  lemma PostedIsGuarded(session: Session, log: Entries, x: Execution, m: Notification)
    requires x.desc.cmd == Broadcast(m) && session.cfg.autoClose && Expires(m.timeout) && m.time <= x.now
    ensures PostedHere(Extend(session, x), m.id) && Deadline(session.cfg, m) <= WakeTime(Extend(session, x), m)
    ensures Run(session.cfg, log, x).effect.timer == Some(Timer(m.id, WakeTime(Extend(session, x), m)))
  {
    assert LastPost(Extend(session, x), |session.runs| + 1, m.id) == Some(|session.runs|);
  }

  lemma CarriedIsGuarded(session: Session, log: Entries, x: Execution, p: Notification, m: Notification,
                         timers: multiset<Timer>, rest: seq<JobDesc>, poisoned: bool)
    requires Distinct(log) && Orderly(session.cfg, log, x) && CarriesOn(session.cfg, log, x, p, m)
    requires m in After(session.cfg, log, x)
    requires !m.closed && Expires(m.timeout) && PostedHere(session, m.id)
    requires poisoned || Guarded(p.id, WakeTime(session, p), timers, [x.desc] + rest, x.now)
    requires Deadline(session.cfg, p) <= WakeTime(session, p)
    ensures PostedHere(Extend(session, x), m.id)
    ensures poisoned || Guarded(m.id, WakeTime(Extend(session, x), m), timers, rest, x.now)
    ensures Deadline(session.cfg, m) <= WakeTime(Extend(session, x), m)
  {
    WakeTimeExtend(session, x, m);
    if !poisoned {
      GuardedAfterWork(session.cfg, log, x, p, m, WakeTime(session, m), timers, rest);
    }
  }

  lemma NoOrphansKept(s: State, a: Action)
    requires Enabled(s, a) && Numbered(s) && NoOrphans(s)
    ensures NoOrphans(Next(s, a))
  {
    if a.Fire? {
      NoOrphansFire(s, a.timer);
    } else if ChangeOf(s, a).Served? {
      NoOrphansWork(s, a.em);
    } else {
      NoOrphansElsewhere(s, a);
    }
  }

  // ---------------------------------------------------------------- who has a guard

  /** Threads and expiries only come from broadcasts of this session. */
  ghost predicate ExpiriesArePosted(s: State) {
    && (forall t :: t in s.timers ==> PostedHere(s.mgr.session, t.id))
    && (forall i :: 0 <= i < |Line(s)| && IsExpiry(Line(s)[i]) ==> PostedHere(s.mgr.session, Line(s)[i].cmd.id))
  }

  lemma ExpiriesArePostedKept(s: State, a: Action)
    requires Enabled(s, a) && Shaped(s) && ExpiriesArePosted(s)
    ensures ExpiriesArePosted(Next(s, a))
  {
    LineChanges(s, a);
    match ChangeOf(s, a) {
      case Served => ServedArePosted(s, a.em);
      case Joined(desc) => JoinedArePosted(s, a, desc);
      case _ => StillArePosted(s, a);
    }
  }

  lemma StillArePosted(s: State, a: Action)
    requires Enabled(s, a) && ExpiriesArePosted(s) && LineFollows(s, a)
    requires ChangeOf(s, a).Same? || ChangeOf(s, a).Cleared?
    ensures ExpiriesArePosted(Next(s, a))
  {
    TimersDwindle(s, a);
  }

  lemma JoinedArePosted(s: State, a: Action, desc: JobDesc)
    requires Enabled(s, a) && Shaped(s) && ExpiriesArePosted(s) && LineFollows(s, a) && ChangeOf(s, a) == Joined(desc)
    ensures ExpiriesArePosted(Next(s, a))
  {
    TimersDwindle(s, a);
    assert IsExpiry(desc) ==> a.Fire?;
  }

  lemma ServedArePosted(s: State, em: Emission)
    requires Enabled(s, Work(em)) && ExpiriesArePosted(s)
    requires LineFollows(s, Work(em)) && ChangeOf(s, Work(em)).Served?
    ensures ExpiriesArePosted(Next(s, Work(em)))
  {
    var x := Execution(s.mgr.phase.desc, s.clock, em);
    var t := Next(s, Work(em));
    TimersOfWork(s, em);
    StillPosted(s.mgr.session, x, s.timers, t.timers, Line(s), Line(t));
  }

  lemma TimersOfWork(s: State, em: Emission)
    requires Enabled(s, Work(em))
    ensures forall e :: e in Next(s, Work(em)).timers ==>
              e in s.timers || Posts(Execution(s.mgr.phase.desc, s.clock, em), e.id)
  {
  }

  lemma StillPosted(session: Session, x: Execution, timers: multiset<Timer>, timers': multiset<Timer>,
                    line: seq<JobDesc>, line': seq<JobDesc>)
    requires forall e :: e in timers ==> PostedHere(session, e.id)
    requires forall e :: e in timers' ==> e in timers || Posts(x, e.id)
    requires forall i :: 0 <= i < |line| && IsExpiry(line[i]) ==> PostedHere(session, line[i].cmd.id)
    requires line == [x.desc] + line'
    ensures forall e :: e in timers' ==> PostedHere(Extend(session, x), e.id)
    ensures forall i :: 0 <= i < |line'| && IsExpiry(line'[i]) ==> PostedHere(Extend(session, x), line'[i].cmd.id)
  {
    forall e | e in timers' ensures PostedHere(Extend(session, x), e.id) {
      PostedExtend(session, x, e.id);
    }
    forall i | 0 <= i < |line'| && IsExpiry(line'[i]) ensures PostedHere(Extend(session, x), line'[i].cmd.id) {
      assert line'[i] == line[i + 1];
      PostedExtend(session, x, line'[i].cmd.id);
    }
  }

  /** With auto-close on, an open entry that can expire has a thread or a due expiry on its way exactly if it was
      broadcast in this session: entries loaded at the start are never expired. */
  lemma GuardedExactly(s: State, n: Notification)
    requires NoOrphans(s) && ExpiriesArePosted(s) && Cfg(s).autoClose && !s.bus.poisoned
    requires n in s.mgr.log && !n.closed && Expires(n.timeout)
    ensures (exists wake :: Guarded(n.id, wake, s.timers, Line(s), s.clock)) <==> PostedHere(s.mgr.session, n.id)
  {
    if PostedHere(s.mgr.session, n.id) {
      assert Guarded(n.id, WakeTime(s.mgr.session, n), s.timers, Line(s), s.clock);
    }
    if wake :| Guarded(n.id, wake, s.timers, Line(s), s.clock) {
      if Timer(n.id, wake) !in s.timers {
        var i :| 0 <= i < |Line(s)| && Line(s)[i] == ExpiryDesc(n.id);
      }
    }
  }
}
