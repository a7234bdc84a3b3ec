/** What the disk holds at any moment, and what a stop of the daemon therefore takes back. */
module Saving {
  import opened Types
  import opened Log
  import opened Executor
  import opened History
  import opened System
  import opened Numbering

  /** The disk holds the log as it was after the first `saved` executions of the session. */
  ghost predicate SavedMatch(mgr: Manager) {
    mgr.saved <= |mgr.session.runs| && mgr.disk == At(mgr.session, mgr.saved)
  }

  lemma SavedKept(s: State, a: Action)
    requires Enabled(s, a) && Replayed(s.mgr) && SavedMatch(s.mgr)
    ensures SavedMatch(Next(s, a).mgr)
    ensures a.Restart? || s.mgr.saved <= Next(s, a).mgr.saved
  {
    match a {
      case Work(em) => SavedWork(s, em);
      case _ => DiskMoves(s, a);
    }
  }

  lemma SavedWork(s: State, em: Emission)
    requires Enabled(s, Work(em)) && SavedMatch(s.mgr)
    ensures SavedMatch(Next(s, Work(em)).mgr) && Next(s, Work(em)).mgr.saved == s.mgr.saved
  {
    if Execute(Cfg(s), s.mgr.log, s.mgr.phase.desc, s.clock, em).Done? {
      AtExtend(s.mgr.session, Execution(s.mgr.phase.desc, s.clock, em), s.mgr.saved);
    }
  }

  lemma DiskMoves(s: State, a: Action)
    requires Enabled(s, a) && !a.Work?
    ensures var p, q := s.mgr, Next(s, a).mgr;
            if a.Restart? then q.disk == q.session.loaded && q.saved == 0
            else q.session == p.session
                 && ((q.disk == p.disk && q.saved == p.saved) || (q.disk == p.log && q.saved == |p.session.runs|))
  {
  }

  // ---------------------------------------------------------------- closed for how long

  /** Executing this job replaces the notification with this id or pushes it off the back of the log. */
  predicate Displaces(cfg: Config, log: Entries, cmd: Job, id: Nid) {
    cmd.Broadcast? && (cmd.event.id == id || Evicted(cfg, log, cmd.event) == Find(log, id))
  }

  /** A close of this id went out that the disk does not know of: it holds no closed notification of this id. */
  ghost predicate UnsavedClose(session: Session, saved: nat, id: Nid)
    requires saved <= |session.runs|
  {
    !IsClosed(At(session, saved), id) && ClosedWithin(session, saved, |session.runs|, id)
  }

  lemma ClosedEntry(log: Entries, id: Nid) returns (n: Notification)
    requires IsClosed(log, id)
    ensures n in log && n.id == id && n.closed
  {
    n := Find(log, id).value;
  }

  lemma ClosedBefore(session: Session, j: nat, id: Nid)
    requires Sound(session) && 0 < j <= |session.runs| && IsClosed(At(session, j), id)
    ensures IsClosed(At(session, j - 1), id) || Closes(session.cfg, At(session, j - 1), session.runs[j - 1], id)
  {
    AtNext(session, j);
    var log := At(session, j - 1);
    var n := ClosedEntry(At(session, j), id);
    var posted, p := StepBack(session.cfg, log, session.runs[j - 1], n);
    if p in log {
      FindIsMembership(log, p);
    }
  }

  lemma {:induction false} Rises(p: nat --> bool, i: nat, j: nat) returns (k: nat)
    requires i <= j && (forall k: nat :: k <= j ==> p.requires(k)) && !p(i) && p(j)
    ensures i <= k < j && !p(k) && p(k + 1)
    decreases j
  {
    k := j - 1;
    if p(k) {
      k := Rises(p, i, j - 1);
    }
  }

  /** A notification that is closed now and was not, or was not there, some executions ago has been closed since. */
  lemma ClosedInBetween(session: Session, i: nat, j: nat, id: Nid)
    requires Sound(session) && i <= j <= |session.runs|
    requires !IsClosed(At(session, i), id) && IsClosed(At(session, j), id)
    ensures ClosedWithin(session, i, j, id)
  {
    var k := Rises((n: nat) requires n <= |session.runs| => IsClosed(At(session, n), id), i, j);
    ClosedBefore(session, k + 1, id);
    CloseCounts(session, i, k, j, id);
  }

  /** A stop and a new start make a closed notification one that is not closed exactly if its close went out after
      the disk was last written. */
  lemma RestartReopensExactly(s: State, cfg: Config, id: Nid)
    requires Replayed(s.mgr) && SavedMatch(s.mgr) && IsClosed(s.mgr.log, id)
    ensures !IsClosed(Next(s, Restart(cfg)).mgr.log, id) <==> UnsavedClose(s.mgr.session, s.mgr.saved, id)
  {
    NewStartLoadsTheDisk(s, cfg);
    UnsavedExactly(s.mgr.session, s.mgr.saved, id);
  }

  lemma NewStartLoadsTheDisk(s: State, cfg: Config)
    ensures Next(s, Restart(cfg)).mgr.log == s.mgr.disk
  {
  }

  lemma UnsavedExactly(session: Session, saved: nat, id: Nid)
    requires Sound(session) && saved <= |session.runs| && IsClosed(At(session, |session.runs|), id)
    ensures !IsClosed(At(session, saved), id) <==> UnsavedClose(session, saved, id)
  {
    if !IsClosed(At(session, saved), id) {
      ClosedInBetween(session, saved, |session.runs|, id);
    }
  }

  /** What can make a closed notification one that is not. */
  ghost predicate Reopens(s: State, a: Action, id: Nid)
    requires Enabled(s, a) && s.mgr.saved <= |s.mgr.session.runs|
  {
    || (a.Work? && Displaces(Cfg(s), s.mgr.log, s.mgr.phase.desc.cmd, id))
    || (a.Restart? && UnsavedClose(s.mgr.session, s.mgr.saved, id))
  }

  /** A closed notification stays closed over an action exactly if the action does not displace it and is not a new
      start over a disk that does not know of its close. */
  lemma ClosedStaysExactly(s: State, a: Action, id: Nid)
    requires Enabled(s, a) && Numbered(s) && SavedMatch(s.mgr) && IsClosed(s.mgr.log, id)
    ensures IsClosed(Next(s, a).mgr.log, id) <==> !Reopens(s, a, id)
  {
    if a.Work? {
      ClosedOverWork(s, a.em, id);
    } else if a.Restart? {
      RestartReopensExactly(s, a.cfg, id);
    } else {
      LogStays(s, a);
    }
  }

  lemma LogStays(s: State, a: Action)
    requires Enabled(s, a) && !a.Work? && !a.Restart?
    ensures Next(s, a).mgr.log == s.mgr.log
  {
  }

  lemma LogAfterWork(s: State, em: Emission)
    requires Enabled(s, Work(em))
    ensures Next(s, Work(em)).mgr.log == After(Cfg(s), s.mgr.log, Execution(s.mgr.phase.desc, s.clock, em))
  {
  }

  lemma ClosedOverWork(s: State, em: Emission, id: Nid)
    requires Enabled(s, Work(em)) && Numbered(s) && IsClosed(s.mgr.log, id)
    ensures IsClosed(Next(s, Work(em)).mgr.log, id) <==> !Displaces(Cfg(s), s.mgr.log, s.mgr.phase.desc.cmd, id)
  {
    var desc := s.mgr.phase.desc;
    LogAfterWork(s, em);
    PanicsExactly(Cfg(s), s.mgr.log, desc, s.clock, em);
    if Execute(Cfg(s), s.mgr.log, desc, s.clock, em).Done? {
      LogDistinct(s);
      HandIsOrderly(s, em);
      QueryStableExactly(Cfg(s), s.mgr.log, desc, s.clock, em, id);
    }
  }
}
