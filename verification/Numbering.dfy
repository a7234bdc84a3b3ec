/** Which jobs can be on their way, and why no two notifications in the log ever share an id. */
module Numbering {
  import opened Types
  import opened Log
  import opened Executor
  import opened History
  import opened System
  import opened Queueing

  // ---------------------------------------------------------------- the jobs on their way

  /** The jobs the daemon makes for itself: broadcasts, D-Bus closes, expiries and acknowledgements. */
  predicate Internal(desc: JobDesc) {
    && desc.pid == 0 && desc.flags == NO_FLAGS
    && match desc.cmd
       case Broadcast(_) => true
       case Close(_, reason) => reason == CallCloseNotification || reason == Expired
       case Acknowledge(_) => true
       case _ => false
  }

  predicate Asked(desc: JobDesc) {
    FromCommandLine(desc) && !desc.cmd.Watch?
  }

  predicate Expected(desc: JobDesc) {
    Internal(desc) || Asked(desc)
  }

  ghost predicate Polite(hub: Hub) {
    && (forall r :: r in hub.arrived ==> FromCommandLine(r.desc))
    && (forall r :: r in hub.inserted ==> Asked(r.desc))
  }

  ghost predicate AllExpected(line: seq<JobDesc>) {
    forall i :: 0 <= i < |line| ==> Expected(line[i])
  }

  ghost predicate Shaped(s: State) {
    && Polite(s.hub)
    && AllExpected(Line(s))
  }

  lemma ShapedKept(s: State, a: Action)
    requires Enabled(s, a) && Assumed(s, a) && Shaped(s)
    ensures Shaped(Next(s, a))
  {
    LineChanges(s, a);
    PoliteKept(s, a);
    match ChangeOf(s, a) {
      case Joined(desc) => assert Expected(desc);
      case Served => ExpectedTail(s.mgr.phase.desc, Line(Next(s, a)));
      case _ =>
    }
  }

  lemma ExpectedTail(desc: JobDesc, rest: seq<JobDesc>)
    requires AllExpected([desc] + rest)
    ensures AllExpected(rest)
  {
    forall i | 0 <= i < |rest| ensures Expected(rest[i]) {
      assert ([desc] + rest)[i + 1] == rest[i];
    }
  }

  lemma PoliteKept(s: State, a: Action)
    requires Enabled(s, a) && Assumed(s, a) && Polite(s.hub)
    ensures Polite(Next(s, a).hub)
  {
  }

  // ---------------------------------------------------------------- ids

  /** A notification on its way into the log, as D-Bus made it. */
  predicate Fits(n: Notification, counter: Nid, clock: nat) {
    0 < n.id <= counter && !n.read && !n.closed && (n.replacesId == 0 || n.replacesId == n.id) && n.time <= clock
  }

  /** A notification that asked for a fresh id still has it for itself: neither the log nor the jobs ahead of it use
      it. */
  ghost predicate Unused(n: Notification, log: Entries, ahead: seq<JobDesc>) {
    n.replacesId == 0 ==>
      && !HasId(log, n.id)
      && forall j :: 0 <= j < |ahead| && ahead[j].cmd.Broadcast? ==> ahead[j].cmd.event.id != n.id
  }

  ghost predicate NumberedAt(line: seq<JobDesc>, i: nat, counter: Nid, clock: nat, log: Entries)
    requires i < |line|
  {
    line[i].cmd.Broadcast? ==> Fits(line[i].cmd.event, counter, clock) && Unused(line[i].cmd.event, log, line[..i])
  }

  ghost predicate LineNumbered(line: seq<JobDesc>, counter: Nid, clock: nat, log: Entries) {
    forall i :: 0 <= i < |line| ==> NumberedAt(line, i, counter, clock, log)
  }

  ghost predicate Known(log: Entries, counter: Nid) {
    forall n :: n in log ==> 0 < n.id <= counter
  }

  /** The record of the session explains the log. */
  ghost predicate Replayed(mgr: Manager) {
    Sound(mgr.session) && mgr.log == At(mgr.session, |mgr.session.runs|)
  }

  ghost predicate Numbered(s: State) {
    && Replayed(s.mgr)
    && Known(s.mgr.log, s.counter)
    && Distinct(s.mgr.disk) && Known(s.mgr.disk, s.counter)
    && LineNumbered(Line(s), s.counter, s.clock, s.mgr.log)
    && (s.notifying.Some? ==>
          Fits(s.notifying.value, s.counter, s.clock) && Unused(s.notifying.value, s.mgr.log, Line(s)))
  }

  lemma LogDistinct(s: State)
    requires Replayed(s.mgr)
    ensures Distinct(s.mgr.log)
  {
    DistinctAlways(s.mgr.session, |s.mgr.session.runs|);
  }

  lemma NumberedAsTimeGoesBy(line: seq<JobDesc>, counter: Nid, clock: nat, log: Entries, counter': Nid, clock': nat)
    requires LineNumbered(line, counter, clock, log) && counter <= counter' && clock <= clock'
    ensures LineNumbered(line, counter', clock', log)
  {
    forall i | 0 <= i < |line| ensures NumberedAt(line, i, counter', clock', log) {
      assert NumberedAt(line, i, counter, clock, log);
    }
  }

  lemma NumberedJoin(line: seq<JobDesc>, desc: JobDesc, counter: Nid, clock: nat, log: Entries)
    requires LineNumbered(line, counter, clock, log)
    requires desc.cmd.Broadcast? ==> Fits(desc.cmd.event, counter, clock) && Unused(desc.cmd.event, log, line)
    ensures LineNumbered(line + [desc], counter, clock, log)
  {
    forall i | 0 <= i < |line + [desc]| ensures NumberedAt(line + [desc], i, counter, clock, log) {
      if i < |line| {
        assert NumberedAt(line, i, counter, clock, log);
        assert (line + [desc])[..i] == line[..i];
      } else {
        assert (line + [desc])[..i] == line;
      }
    }
  }

  /** Executing the first job of the line leaves the ids known and the rest of the line numbered. */
  lemma IdsAfter(cfg: Config, log: Entries, x: Execution, m: Notification)
    requires Distinct(log) && Orderly(cfg, log, x) && m in After(cfg, log, x)
    ensures HasId(log, m.id) || (x.desc.cmd.Broadcast? && m == x.desc.cmd.event)
  {
    var posted, p := StepBack(cfg, log, x, m);
    if !posted {
      assert p in log && p.id == m.id;
    }
  }

  lemma NumberedServe(cfg: Config, line: seq<JobDesc>, x: Execution, n: Notification, log: Entries)
    requires Distinct(log) && Orderly(cfg, log, x) && line != [] && line[0] == x.desc
    requires Unused(n, log, line)
    ensures Unused(n, After(cfg, log, x), line[1..])
  {
    if n.replacesId == 0 {
      var after := After(cfg, log, x);
      if HasId(after, n.id) {
        var m :| m in after && m.id == n.id;
        IdsAfter(cfg, log, x, m);
      }
      forall j | 0 <= j < |line[1..]| && line[1..][j].cmd.Broadcast? ensures line[1..][j].cmd.event.id != n.id {
        assert line[1..][j] == line[j + 1];
      }
    }
  }

  lemma LineServed(cfg: Config, line: seq<JobDesc>, x: Execution, counter: Nid, clock: nat, log: Entries)
    requires Distinct(log) && Orderly(cfg, log, x) && line != [] && line[0] == x.desc
    requires LineNumbered(line, counter, clock, log)
    ensures LineNumbered(line[1..], counter, clock, After(cfg, log, x))
  {
    forall i | 0 <= i < |line[1..]| ensures NumberedAt(line[1..], i, counter, clock, After(cfg, log, x)) {
      assert NumberedAt(line, i + 1, counter, clock, log);
      if line[i + 1].cmd.Broadcast? {
        var ahead := line[..i + 1];
        NumberedServe(cfg, ahead, x, line[i + 1].cmd.event, log);
        assert ahead[1..] == line[1..][..i];
      }
    }
  }

  /** The job in the manager's hand is one the history calls orderly. */
  lemma HandIsOrderly(s: State, em: Emission)
    requires Numbered(s) && s.mgr.phase.Popped?
    requires Execute(Cfg(s), s.mgr.log, s.mgr.phase.desc, s.clock, em).Done?
    ensures Orderly(Cfg(s), s.mgr.log, Execution(s.mgr.phase.desc, s.clock, em))
  {
    assert Line(s)[0] == s.mgr.phase.desc;
    assert NumberedAt(Line(s), 0, s.counter, s.clock, s.mgr.log);
  }

  lemma KnownAfter(cfg: Config, log: Entries, x: Execution, counter: Nid)
    requires Distinct(log) && Orderly(cfg, log, x) && Known(log, counter)
    requires x.desc.cmd.Broadcast? ==> 0 < x.desc.cmd.event.id <= counter
    ensures Known(After(cfg, log, x), counter)
  {
    forall m | m in After(cfg, log, x) ensures 0 < m.id <= counter {
      IdsAfter(cfg, log, x, m);
    }
  }

  /** What executing the job in hand does to the manager, in terms of the history. */
  lemma ReplayedWork(s: State, em: Emission)
    requires Numbered(s) && s.mgr.phase.Popped? && Execute(Cfg(s), s.mgr.log, s.mgr.phase.desc, s.clock, em).Done?
    ensures var x := Execution(s.mgr.phase.desc, s.clock, em);
            var t := WorkOn(s, em);
            && Distinct(s.mgr.log) && Orderly(Cfg(s), s.mgr.log, x)
            && t.mgr.session == Extend(s.mgr.session, x)
            && t.mgr.log == After(Cfg(s), s.mgr.log, x) && t.mgr.disk == s.mgr.disk
            && Replayed(t.mgr)
  {
    HandIsOrderly(s, em);
    LogDistinct(s);
    WorkOnManager(s, em);
    SoundExtend(s.mgr.session, Execution(s.mgr.phase.desc, s.clock, em));
  }

  lemma WorkOnManager(s: State, em: Emission)
    requires s.mgr.phase.Popped? && Execute(Cfg(s), s.mgr.log, s.mgr.phase.desc, s.clock, em).Done?
    ensures var x := Execution(s.mgr.phase.desc, s.clock, em);
            var t := WorkOn(s, em);
            && t.mgr.session == Extend(s.mgr.session, x)
            && t.mgr.log == After(Cfg(s), s.mgr.log, x) && t.mgr.disk == s.mgr.disk
  {
  }

  lemma NumberedWork(s: State, em: Emission)
    requires Enabled(s, Work(em)) && Numbered(s)
    requires Execute(Cfg(s), s.mgr.log, s.mgr.phase.desc, s.clock, em).Done?
    ensures Numbered(Next(s, Work(em)))
  {
    var x := Execution(s.mgr.phase.desc, s.clock, em);
    var t := WorkOn(s, em);
    ReplayedWork(s, em);
    NumberedWorkLine(s, t, x);
  }

  lemma NumberedWorkLine(s: State, t: State, x: Execution)
    requires Numbered(s) && Distinct(s.mgr.log) && Orderly(Cfg(s), s.mgr.log, x) && s.mgr.phase.Popped?
    requires x.desc == s.mgr.phase.desc
    requires t.mgr.log == After(Cfg(s), s.mgr.log, x) && Replayed(t.mgr) && t.mgr.disk == s.mgr.disk
    requires t.bus == s.bus && t.mgr.phase.Executed? && t.counter == s.counter && t.clock == s.clock
    requires t.notifying == s.notifying
    ensures Numbered(t)
  {
    var line := Line(s);
    assert line[0] == x.desc && line[1..] == Line(t);
    assert NumberedAt(line, 0, s.counter, s.clock, s.mgr.log);
    KnownAfter(Cfg(s), s.mgr.log, x, s.counter);
    LineServed(Cfg(s), line, x, s.counter, s.clock, s.mgr.log);
    if s.notifying.Some? {
      NumberedServe(Cfg(s), line, x, s.notifying.value, s.mgr.log);
    }
  }

  lemma NumberedNotify(s: State, replacesId: Nid, timeout: Timeout, content: Content)
    requires Numbered(s) && Enabled(s, Notify(replacesId, timeout, content))
    requires Assumed(s, Notify(replacesId, timeout, content))
    ensures Numbered(Next(s, Notify(replacesId, timeout, content)))
  {
    var t := Next(s, Notify(replacesId, timeout, content));
    NumberedAsTimeGoesBy(Line(s), s.counter, s.clock, s.mgr.log, t.counter, t.clock);
    if replacesId == 0 {
      forall j | 0 <= j < |Line(s)| && Line(s)[j].cmd.Broadcast? ensures Line(s)[j].cmd.event.id != t.counter {
        assert NumberedAt(Line(s), j, s.counter, s.clock, s.mgr.log);
      }
    }
  }

  lemma NumberedJoined(s: State, a: Action)
    requires Numbered(s) && Shaped(s) && Enabled(s, a) && ChangeOf(s, a).Joined?
    ensures Numbered(Next(s, a))
  {
    LineChanges(s, a);
    NumberedJoin(Line(s), ChangeOf(s, a).desc, s.counter, s.clock, s.mgr.log);
  }

  lemma NumberedSame(s: State, a: Action)
    requires Numbered(s) && Enabled(s, a) && ChangeOf(s, a).Same? && !a.Notify?
    ensures Numbered(Next(s, a))
  {
    LineChanges(s, a);
    var t := Next(s, a);
    assert t.mgr.log == s.mgr.log && t.counter == s.counter && s.clock <= t.clock;
    assert t.notifying == s.notifying || t.notifying.None?;
    NumberedAsTimeGoesBy(Line(s), s.counter, s.clock, s.mgr.log, t.counter, t.clock);
    LogDistinct(s);
  }

  lemma NumberedBoot(cfg: Config, stored: Entries, clock: nat, nextConn: Conn)
    requires Distinct(stored) && !HasId(stored, 0)
    ensures Numbered(Boot(cfg, stored, clock, nextConn))
  {
  }

  lemma NumberedKept(s: State, a: Action)
    requires Enabled(s, a) && Assumed(s, a) && Shaped(s) && Numbered(s)
    ensures Numbered(Next(s, a))
  {
    if a.Notify? {
      NumberedNotify(s, a.replacesId, a.timeout, a.content);
    } else if a.Restart? {
      NumberedBoot(a.cfg, s.mgr.disk, s.clock, s.clients.nextConn);
    } else {
      match ChangeOf(s, a) {
        case Joined(_) => NumberedJoined(s, a);
        case Served => NumberedWork(s, a.em);
        case _ => NumberedSame(s, a);
      }
    }
  }

  /** Without the assumption on replaced ids the ids do not stay distinct: replacing an id that was never handed
      out lets the counter run into it later. */
  lemma ForeignReplacementBreaksIds(cfg: Config, content: Content)
    requires cfg.maxLogs >= 2
    ensures var first := Notification(1, 0, false, false, 1, 0, content);
            var second := Notification(1, 0, false, false, 0, 0, content);
            var s := Session(cfg, [], [Execution(BroadcastDesc(first), 0, Emitted),
                  Execution(BroadcastDesc(second), 0, Emitted)]);
            At(s, 2) == [second, first] && !Distinct(At(s, 2))
  {
    var first := Notification(1, 0, false, false, 1, 0, content);
    var second := Notification(1, 0, false, false, 0, 0, content);
    var s := Session(cfg, [], [Execution(BroadcastDesc(first), 0, Emitted),
          Execution(BroadcastDesc(second), 0, Emitted)]);
    assert At(s, 0) == [];
    assert At(s, 1) == [first];
    assert At(s, 2) == [second, first];
    assert At(s, 2)[0].id == At(s, 2)[1].id;
  }
}
