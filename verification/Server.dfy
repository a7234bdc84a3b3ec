/** Starting the daemon, and the manager's loop over the wake-up channel. */
module Server {
  import opened Types
  import opened Log
  import opened Executor
  import opened History
  import opened Shared
  import opened Manager
  import opened Queueing
  import Dbus

  /** The counter starts at the largest stored id, so that the next fresh id is new. */
  method Start(stored: Entries, config: Config) returns (list: SyncList, notifier: Notifier,
        manager: LogsManager, bus: Dbus.Notifications)
    ensures fresh(list) && fresh(notifier) && fresh(manager) && fresh(manager.file) && fresh(bus)
    ensures manager.list == list && bus.list == list && bus.sender == notifier && manager.config == config
    ensures list.jobs == [] && !list.poisoned && notifier.tokens == 0 && notifier.open
    ensures manager.logsBuffer == stored == manager.file.content && !manager.dirty
    ensures forall n :: n in stored ==> n.id <= bus.counter
    ensures bus.counter == 0 || HasId(stored, bus.counter)
  {
    list := new SyncList();
    notifier := new Notifier();
    var file := new LogFile(stored);
    manager := new LogsManager(list, file, config);
    bus := new Dbus.Notifications(MaxId(manager.logsBuffer), list, notifier);
  }

  /** The loop of the manager thread, run until the channel is empty, while other threads push `others[i]` during its
      `i`-th round, with a token for each job. It never finds an empty list; it executes the jobs in the order of the
      pushes, so that the log is the one the history gives; and unless a job stops it or a result cannot be sent, it
      leaves the list empty and the log on disk. When it ends, nobody receives tokens any more. `nows`, `ems` and
      `oks` are what clock, bus and socket say at each job. */
  method ManagerLoop(manager: LogsManager, notifier: Notifier, others: seq<seq<JobDesc>>,
        nows: nat -> nat, ems: nat -> Emission, oks: nat -> bool)
    returns (stopped: bool, ghost runs: seq<Execution>, ghost pushed: seq<JobDesc>)
    requires notifier.open && !manager.list.poisoned && notifier.tokens == |manager.list.jobs|
    requires !manager.dirty ==> manager.file.content == manager.logsBuffer
    requires manager.dirty ==> manager.list.jobs != []
    modifies manager, manager.list`jobs, manager.file, notifier
    ensures pushed == Pushed(old(manager.list.jobs), others, |runs|)
            || (stopped && pushed == Pushed(old(manager.list.jobs), others, |runs| + 1))
    ensures Served(manager.config, old(manager.logsBuffer), manager.logsBuffer, runs, pushed)
    ensures Timed(runs, nows, ems) && notifier.open == !stopped
    ensures !stopped ==>
              && |runs| == |pushed| && manager.list.jobs == []
              && !manager.dirty && manager.file.content == manager.logsBuffer
    ensures stopped ==>
              StopExplained(manager.config, old(manager.logsBuffer), manager.logsBuffer, runs, pushed, oks)
  {
    ghost var jobs := manager.list.jobs;
    ghost var loaded := manager.logsBuffer;
    runs, pushed, stopped := [], jobs, false;
    var served := 0;
    while notifier.tokens > 0
      invariant served == |runs| && notifier.open && notifier.tokens == |manager.list.jobs|
      invariant Serving(manager, loaded, runs, pushed) && pushed == Pushed(jobs, others, served)
      invariant Timed(runs, nows, ems)
      decreases if served < |others| then |others| - served else 0, notifier.tokens
    {
      var during := Batch(others, served);
      ghost var before := runs;
      stopped, runs := Round(manager, notifier, during, nows(served), ems(served), oks(served), loaded, runs, pushed,
                             oks);
      OneMoreRound(before, runs, pushed[served], nows, ems, jobs, others);
      pushed := pushed + during;
      if stopped {
        return;
      }
      served := served + 1;
    }
    AllServed(runs, pushed);
  }

  lemma OneMoreRound(runs: seq<Execution>, more: seq<Execution>, desc: JobDesc, nows: nat -> nat, ems: nat -> Emission,
        jobs: seq<JobDesc>, others: seq<seq<JobDesc>>)
    requires Timed(runs, nows, ems)
    requires more == runs || more == runs + [Execution(desc, nows(|runs|), ems(|runs|))]
    ensures Timed(more, nows, ems)
    ensures Pushed(jobs, others, |runs| + 1) == Pushed(jobs, others, |runs|) + Batch(others, |runs|)
  {
  }

  /** One round: a token is taken, a job served, and the others have pushed and sent theirs. */
  method Round(manager: LogsManager, notifier: Notifier, during: seq<JobDesc>, now: nat, em: Emission, ok: bool,
        ghost loaded: Entries, ghost runs: seq<Execution>, ghost jobs: seq<JobDesc>, ghost oks: nat -> bool)
    returns (stopped: bool, ghost more: seq<Execution>)
    requires notifier.open && notifier.tokens == |manager.list.jobs| > 0
    requires Serving(manager, loaded, runs, jobs) && ok == oks(|runs|)
    modifies manager, manager.list`jobs, manager.file, notifier
    ensures |runs| < |jobs| && (more == runs + [Execution(jobs[|runs|], now, em)] || (stopped && more == runs))
    ensures Served(manager.config, loaded, manager.logsBuffer, more, jobs + during)
    ensures notifier.open == !stopped
    ensures !stopped ==>
              && Serving(manager, loaded, more, jobs + during) && notifier.tokens == |manager.list.jobs|
              && notifier.tokens == old(notifier.tokens) - 1 + |during|
    ensures stopped ==> StopExplained(manager.config, loaded, manager.logsBuffer, more, jobs + during, oks)
  {
    var _ := notifier.Receive();
    stopped, more := ServeNext(manager, during, now, em, ok, loaded, runs, jobs, oks);
    if stopped {
      notifier.Hang();
    } else {
      notifier.SendAll(|during|);
    }
  }

  lemma AllServed(runs: seq<Execution>, pushed: seq<JobDesc>)
    requires |runs| <= |pushed| && pushed[|runs|..] == []
    ensures |runs| == |pushed|
  {
  }

  function Batch(others: seq<seq<JobDesc>>, i: nat): seq<JobDesc> {
    if i < |others| then others[i] else []
  }

  /** All jobs pushed by the end of the first `i` rounds. */
  function Pushed(jobs: seq<JobDesc>, others: seq<seq<JobDesc>>, i: nat): seq<JobDesc> {
    if i == 0 then jobs else Pushed(jobs, others, i - 1) + Batch(others, i - 1)
  }

  /** The first jobs are executed, in order, and the log is the one that the history gives. */
  ghost predicate Served(cfg: Config, loaded: Entries, log: Entries, runs: seq<Execution>, jobs: seq<JobDesc>) {
    && |runs| <= |jobs| && Descs(runs) == jobs[..|runs|]
    && log == At(Session(cfg, loaded, runs), |runs|)
  }

  ghost predicate Timed(runs: seq<Execution>, nows: nat -> nat, ems: nat -> Emission) {
    forall i :: 0 <= i < |runs| ==> runs[i].now == nows(i) && runs[i].em == ems(i)
  }

  /** The last job executed had a result, and the socket did not take it. */
  ghost predicate NotSent(cfg: Config, loaded: Entries, runs: seq<Execution>, ok: bool) {
    && runs != [] && !ok
    && var outcome := Run(cfg, At(Session(cfg, loaded, runs), |runs| - 1), runs[|runs| - 1]);
       outcome.Done? && outcome.effect.reply.result != Ok(None)
  }

  ghost predicate StopExplained(cfg: Config, loaded: Entries, log: Entries, runs: seq<Execution>, jobs: seq<JobDesc>,
                                oks: nat -> bool) {
    || (|runs| < |jobs| && StopsTheManager(log, jobs[|runs|]))
    || (runs != [] && NotSent(cfg, loaded, runs, oks(|runs| - 1)))
  }

  /** The first jobs of the list are executed, and the others are waiting. */
  ghost predicate Serving(manager: LogsManager, loaded: Entries, runs: seq<Execution>, jobs: seq<JobDesc>)
    reads manager, manager.list, manager.file
  {
    && Served(manager.config, loaded, manager.logsBuffer, runs, jobs)
    && !manager.list.poisoned && manager.list.jobs == jobs[|runs|..]
    && (!manager.dirty ==> manager.file.content == manager.logsBuffer)
    && (manager.dirty ==> manager.list.jobs != [])
  }

  /** One call of `Exec`. `more` is the record of what was executed before and by it. */
  method ServeNext(manager: LogsManager, during: seq<JobDesc>, now: nat, em: Emission, ok: bool, ghost loaded: Entries,
        ghost runs: seq<Execution>, ghost jobs: seq<JobDesc>, ghost oks: nat -> bool)
    returns (stopped: bool, ghost more: seq<Execution>)
    requires Serving(manager, loaded, runs, jobs) && |runs| < |jobs| && ok == oks(|runs|)
    modifies manager, manager.list`jobs, manager.file
    ensures more == runs + [Execution(jobs[|runs|], now, em)] || (stopped && more == runs)
    ensures Served(manager.config, loaded, manager.logsBuffer, more, jobs + during)
    ensures !stopped ==>
              && Serving(manager, loaded, more, jobs + during)
              && |manager.list.jobs| == |old(manager.list.jobs)| - 1 + |during|
    ensures stopped ==> StopExplained(manager.config, loaded, manager.logsBuffer, more, jobs + during, oks)
  {
    ghost var x := Execution(jobs[|runs|], now, em);
    ServedOne(manager.config, loaded, runs, x, jobs, during, manager.dirty, manager.file.content, oks);
    var state := manager.Exec(during, now, em, ok);
    stopped := state == Panicked || state == Failed;
    more := if state == Panicked then runs else runs + [x];
  }

  /** What one call of `Exec` on the rest of the list does, in terms of the history. */
  lemma ServedOne(cfg: Config, loaded: Entries, runs: seq<Execution>, x: Execution, jobs: seq<JobDesc>,
        during: seq<JobDesc>, dirty: bool, disk: Entries, oks: nat -> bool)
    requires Served(cfg, loaded, At(Session(cfg, loaded, runs), |runs|), runs, jobs)
    requires |runs| < |jobs| && x.desc == jobs[|runs|]
    requires !dirty ==> disk == At(Session(cfg, loaded, runs), |runs|)
    ensures var log := At(Session(cfg, loaded, runs), |runs|);
            var r := ExecSpec(cfg, jobs[|runs|..], false, log, dirty, disk, during, x.now, x.em, oks(|runs|));
            var more, pushed := if r.state == Panicked then runs else runs + [x], jobs + during;
            && r.state != Noop && Served(cfg, loaded, r.log, more, pushed)
            && (r.state == Panicked || r.state == Failed ==> StopExplained(cfg, loaded, r.log, more, pushed, oks))
            && (r.state != Panicked ==>
                  && r.queue == pushed[|more|..] && |r.queue| == |jobs| - |runs| - 1 + |during|
                  && (!r.dirty ==> r.disk == r.log) && (r.dirty ==> r.queue != []))
  {
    var log := At(Session(cfg, loaded, runs), |runs|);
    JobsBehind(jobs, during, |runs|);
    match Execute(cfg, log, x.desc, x.now, x.em) {
      case Panic => PanicsExactly(cfg, log, x.desc, x.now, x.em);
      case Done(effect) =>
        UntouchedIsUnchanged(cfg, log, x.desc, x.now, x.em);
        ServedOneMore(cfg, loaded, runs, x, jobs, during, effect);
    }
  }

  lemma ServedOneMore(cfg: Config, loaded: Entries, runs: seq<Execution>, x: Execution, jobs: seq<JobDesc>,
        during: seq<JobDesc>, effect: Effect)
    requires Served(cfg, loaded, At(Session(cfg, loaded, runs), |runs|), runs, jobs)
    requires |runs| < |jobs| && x.desc == jobs[|runs|]
    requires Run(cfg, At(Session(cfg, loaded, runs), |runs|), x) == Done(effect)
    ensures Served(cfg, loaded, effect.log, runs + [x], jobs + during)
    ensures effect.reply.result != Ok(None) ==> NotSent(cfg, loaded, runs + [x], false)
  {
    OneMoreRun(cfg, loaded, runs, x, jobs);
    JobsBehind(jobs, during, |runs|);
  }

  /** How the list divides when the job at `i` is next and others push. */
  lemma JobsBehind(jobs: seq<JobDesc>, during: seq<JobDesc>, i: nat)
    requires i < |jobs|
    ensures jobs[i..] != [] && jobs[i..][0] == jobs[i] == (jobs + during)[i]
    ensures jobs[i..][1..] + during == (jobs + during)[i + 1..]
    ensures (jobs + during)[..i] == jobs[..i] && (jobs + during)[..i + 1] == jobs[..i + 1]
  {
  }

  lemma OneMoreRun(cfg: Config, loaded: Entries, runs: seq<Execution>, x: Execution, jobs: seq<JobDesc>)
    requires |runs| < |jobs| && Descs(runs) == jobs[..|runs|] && x.desc == jobs[|runs|]
    ensures Descs(runs + [x]) == jobs[..|runs| + 1]
    ensures At(Session(cfg, loaded, runs + [x]), |runs|) == At(Session(cfg, loaded, runs), |runs|)
    ensures At(Session(cfg, loaded, runs + [x]), |runs| + 1) == After(cfg, At(Session(cfg, loaded, runs), |runs|), x)
  {
    AtExtend(Session(cfg, loaded, runs), x, |runs|);
    assert Descs(runs + [x]) == Descs(runs) + [x.desc];
  }
}
