/** The job list and its wake-up tokens, and when the log on disk is up to date. */
module Queueing {
  import opened Types
  import opened Log
  import opened Executor
  import opened History
  import opened System

  // ---------------------------------------------------------------- tokens

  /** As long as there is a manager thread, nobody has panicked with the list locked, and every job in the list is
      matched by a token in the channel, by a producer about to send one, or by the token the manager has just taken.
      */
  predicate TokensMatch(bus: Bus, phase: Phase) {
    phase.Halted? ||
    (!bus.poisoned && bus.tokens + bus.owing + bus.waking + (if phase.Awake? then 1 else 0) == |bus.queue|)
  }

  lemma TokensKept(s: State, a: Action)
    requires Enabled(s, a) && TokensMatch(s.bus, s.mgr.phase)
    ensures TokensMatch(Next(s, a).bus, Next(s, a).mgr.phase)
    ensures Next(s, a).mgr.phase == Halted(QueueEmpty) ==> s.mgr.phase == Halted(QueueEmpty)
    ensures Next(s, a).mgr.phase == Halted(ListPoisoned) ==> s.mgr.phase == Halted(ListPoisoned)
  {
    if Gone(s) {
      GoneForGood(s, a);
    } else if TurnsManager(a) {
      TokensTurn(s, a);
    } else {
      TokensElsewhere(s, a);
    }
  }

  /** A manager thread that has ended stays so until the next start. */
  lemma GoneForGood(s: State, a: Action)
    requires Enabled(s, a) && Gone(s)
    ensures if a.Restart? then TokensMatch(Next(s, a).bus, Next(s, a).mgr.phase) && Next(s, a).mgr.phase.Idle?
            else Next(s, a).mgr.phase == s.mgr.phase
  {
  }

  predicate TurnsManager(a: Action) {
    a.TakeToken? || a.Pop? || a.Work? || a.Flush? || a.Send?
  }

  lemma TokensTurn(s: State, a: Action)
    requires Enabled(s, a) && TurnsManager(a) && TokensMatch(s.bus, s.mgr.phase) && !Gone(s)
    ensures TokensMatch(Next(s, a).bus, Next(s, a).mgr.phase)
    ensures Next(s, a).mgr.phase != Halted(QueueEmpty) && Next(s, a).mgr.phase != Halted(ListPoisoned)
  {
  }

  lemma TokensElsewhere(s: State, a: Action)
    requires Enabled(s, a) && !TurnsManager(a) && TokensMatch(s.bus, s.mgr.phase) && !Gone(s)
    ensures TokensMatch(Next(s, a).bus, Next(s, a).mgr.phase) && !Gone(Next(s, a))
  {
  }

  // ---------------------------------------------------------------- first in, first out

  function Hand(phase: Phase): seq<JobDesc> {
    match phase
    case Popped(desc, _) => [desc]
    case Halted(JobPanicked(desc)) => [desc]
    case _ => []
  }

  /** The jobs that are pushed and not executed: the one in the manager's hand, then the list. */
  function Line(s: State): seq<JobDesc> {
    Hand(s.mgr.phase) + s.bus.queue
  }

  function Descs(runs: seq<Execution>): seq<JobDesc> {
    seq(|runs|, i requires 0 <= i < |runs| => runs[i].desc)
  }

  /** Jobs executed so far, in order, followed by the waiting ones are exactly the jobs pushed, in order. */
  predicate Conserved(s: State) {
    s.bus.pushed == Descs(s.mgr.session.runs) + Line(s)
  }

  /** What an action does to the line: add one job at its end, take its first one off, start over, or nothing. */
  datatype LineChange = Same | Joined(desc: JobDesc) | Served | Cleared

  function Joining(bus: Bus, desc: JobDesc): LineChange {
    if bus.poisoned then Same else Joined(desc)
  }

  function ChangeOf(s: State, a: Action): LineChange
    requires Enabled(s, a)
  {
    match a
    case CloseCall(id) => Joining(s.bus, CloseCallDesc(id))
    case PushNotification => Joining(s.bus, BroadcastDesc(s.notifying.value))
    case PushRequest(r) => Joining(s.bus, r.desc)
    case Fire(t) => Joining(s.bus, ExpiryDesc(t.id))
    case PushAck(n) => Joining(s.bus, AckDesc(n.id))
    case Work(em) => if Execute(Cfg(s), s.mgr.log, s.mgr.phase.desc, s.clock, em).Done? then Served else Same
    case Restart(_) => Cleared
    case _ => Same
  }

  ghost predicate LineFollows(s: State, a: Action)
    requires Enabled(s, a)
  {
    var t := Next(s, a);
    match ChangeOf(s, a)
    case Same => Line(t) == Line(s) && t.bus.pushed == s.bus.pushed && t.mgr.session == s.mgr.session
    case Joined(desc) => Line(t) == Line(s) + [desc] && t.bus.pushed == s.bus.pushed + [desc]
        && t.mgr.session == s.mgr.session
    case Served => && a.Work? && Line(s) == [s.mgr.phase.desc] + Line(t) && t.bus.pushed == s.bus.pushed
                   && t.mgr.session == Extend(s.mgr.session, Execution(s.mgr.phase.desc, s.clock, a.em))
    case Cleared => Line(t) == [] && t.bus.pushed == [] && t.mgr.session.runs == []
  }

  lemma LineChanges(s: State, a: Action)
    requires Enabled(s, a)
    ensures LineFollows(s, a)
  {
    if ChangeOf(s, a).Joined? {
      JobJoins(s, a);
    } else if a.Pop? {
      Popping(s);
    } else if a.Work? {
      Working(s, a.em);
    } else {
      Staying(s, a);
    }
  }

  lemma JobJoins(s: State, a: Action)
    requires Enabled(s, a) && ChangeOf(s, a).Joined?
    ensures LineFollows(s, a)
  {
    var t := Next(s, a);
    assert t.bus.queue == s.bus.queue + [ChangeOf(s, a).desc];
    assert t.mgr == s.mgr;
  }

  lemma Popping(s: State)
    requires Enabled(s, Pop)
    ensures LineFollows(s, Pop)
  {
    if s.bus.queue != [] {
      assert s.bus.queue == [s.bus.queue[0]] + s.bus.queue[1..];
    }
  }

  lemma Working(s: State, em: Emission)
    requires Enabled(s, Work(em))
    ensures LineFollows(s, Work(em))
  {
    assert WorkOn(s, em).bus == s.bus;
  }

  lemma Staying(s: State, a: Action)
    requires Enabled(s, a) && !ChangeOf(s, a).Joined? && !a.Pop? && !a.Work?
    ensures LineFollows(s, a)
  {
    if TurnsManager(a) {
      match a {
        case TakeToken =>
        case Flush =>
        case Send(_) =>
      }
    } else if !a.Restart? {
      LineUntouched(s, a);
    }
  }

  lemma LineUntouched(s: State, a: Action)
    requires Enabled(s, a) && !ChangeOf(s, a).Joined? && !TurnsManager(a) && !a.Restart?
    ensures var t := Next(s, a);
            t.mgr == s.mgr && t.bus.queue == s.bus.queue && t.bus.pushed == s.bus.pushed
  {
  }

  lemma ConservedKept(s: State, a: Action)
    requires Enabled(s, a) && Conserved(s)
    ensures Conserved(Next(s, a))
  {
    LineChanges(s, a);
    var runs := s.mgr.session.runs;
    if ChangeOf(s, a).Served? {
      var x := Execution(s.mgr.phase.desc, s.clock, a.em);
      assert Descs(runs + [x]) == Descs(runs) + [x.desc];
    }
  }

  // ---------------------------------------------------------------- the log on disk

  /** A clean manager agrees with its disk; a dirty one has either not reached its flush or knows that more
      jobs are waiting, whatever the producers pushed meanwhile. */
  predicate Persisted(bus: Bus, mgr: Manager) {
    && (!mgr.dirty ==> mgr.disk == mgr.log)
    && match mgr.phase
       case Popped(_, empty) => !empty ==> bus.queue != []
       case Executed(_, empty, _) => !empty ==> bus.queue != []
       case Halted(_) => true
       case _ => mgr.dirty ==> bus.queue != []
  }

  lemma UntouchedIsUnchanged(cfg: Config, log: Entries, desc: JobDesc, now: nat, em: Emission)
    ensures match Execute(cfg, log, desc, now, em)
            case Panic => true
            case Done(effect) => effect.touched || effect.log == log
  {
  }

  lemma PersistedKept(s: State, a: Action)
    requires Enabled(s, a) && Persisted(s.bus, s.mgr)
    ensures Persisted(Next(s, a).bus, Next(s, a).mgr)
  {
    if TurnsManager(a) {
      PersistedTurn(s, a);
    } else if !a.Restart? {
      ListOnlyGrows(s, a);
    }
  }

  lemma PersistedTurn(s: State, a: Action)
    requires Enabled(s, a) && TurnsManager(a) && Persisted(s.bus, s.mgr)
    ensures Persisted(Next(s, a).bus, Next(s, a).mgr)
  {
    match a {
      case Work(em) => UntouchedIsUnchanged(Cfg(s), s.mgr.log, s.mgr.phase.desc, s.clock, em);
      case _ =>
    }
  }

  lemma ListOnlyGrows(s: State, a: Action)
    requires Enabled(s, a) && !TurnsManager(a) && !a.Restart?
    ensures Next(s, a).mgr == s.mgr && (s.bus.queue != [] ==> Next(s, a).bus.queue != [])
  {
  }

  /** Idle with nothing to do, the log is on disk, and a new process over that disk has the same log. */
  lemma IdleIsPersisted(s: State, cfg: Config)
    requires Persisted(s.bus, s.mgr) && s.mgr.phase.Idle? && s.bus.queue == []
    ensures !s.mgr.dirty && s.mgr.disk == s.mgr.log
    ensures Next(s, Restart(cfg)).mgr.log == s.mgr.log
  {
  }
}
