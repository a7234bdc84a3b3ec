/** The manager: the log in memory, the jobs that work on it, and the step that executes one job. */
module Manager {
  import opened Types
  import opened Log
  import opened Executor
  import opened Shared
  import S = System

  /** `Failed` is the error that `exec` returns when the result cannot be sent. */
  datatype ExecState = Executed | Noop | Error | Failed | Panicked

  /** The whole effect of one call of `Exec` when other threads push `during` it. */
  datatype ExecResult = ExecResult(state: ExecState, queue: seq<JobDesc>, log: Entries, dirty: bool, disk: Entries,
                                   timer: Option<Timer>, sent: Option<S.Outgoing>)

  function ExecSpec(cfg: Config, queue: seq<JobDesc>, poisoned: bool, log: Entries, dirty: bool, disk: Entries,
        during: seq<JobDesc>, now: nat, em: Emission, ok: bool): ExecResult {
    if poisoned then ExecResult(Panicked, queue, log, dirty, disk, None, None)
    else if queue == [] then ExecResult(Noop, [], log, dirty, disk, None, None)
    else
      var desc, rest := queue[0], queue[1..];
      match Execute(cfg, log, desc, now, em)
      case Panic => ExecResult(Panicked, rest + during, log, dirty, disk, None, None)
      case Done(effect) =>
        var flush := rest == [] && (dirty || effect.touched);
        var silent := effect.reply.result == Ok(None);
        var state := if silent then Executed else if !ok then Failed
                     else if effect.reply.result.Err? then Error else Executed;
        ExecResult(state, rest + during, effect.log, (dirty || effect.touched) && !flush,
                   if flush then effect.log else disk, effect.timer,
                   if silent || !ok then None else Some(S.Outgoing(desc.pid, effect.reply)))
  }

  class LogsManager {
    const list: SyncList
    const file: LogFile
    const config: Config
    var logsBuffer: Entries
    var dirty: bool
    /** The expiry threads started so far, and the results sent to the listener so far, in order. */
    var sleepers: seq<Timer>
    var sent: seq<S.Outgoing>

    constructor (list: SyncList, file: LogFile, config: Config)
      ensures this.list == list && this.file == file && this.config == config
      ensures logsBuffer == file.content && !dirty && sleepers == [] && sent == []
    {
      this.list, this.file, this.config := list, file, config;
      logsBuffer, dirty, sleepers, sent := file.content, false, [], [];
    }

    method RemoveNotification(nid: Nid) returns (removed: Option<Notification>)
      modifies this`logsBuffer, this`dirty
      ensures logsBuffer == Remove(old(logsBuffer), nid)
      ensures removed == Find(old(logsBuffer), nid)
      ensures dirty == (old(dirty) || HasId(old(logsBuffer), nid))
    {
      var pos := Position(logsBuffer, nid);
      if pos.None? {
        return None;
      }
      dirty := true;
      var hole, back := pos.value, |logsBuffer| - 1;
      removed := Some(logsBuffer[hole]);
      logsBuffer := logsBuffer[hole := logsBuffer[back]];
      logsBuffer := logsBuffer[..back];
    }

    method AppendNotification(notif: Notification)
      modifies this`logsBuffer, this`dirty
      ensures logsBuffer == Append(config.maxLogs, old(logsBuffer), notif)
      ensures dirty
    {
      if |logsBuffer| == config.maxLogs {
        if logsBuffer != [] {
          logsBuffer := logsBuffer[..|logsBuffer| - 1];
        }
      }
      dirty := true;
      logsBuffer := [notif] + logsBuffer;
    }

    method ReadNotification(nid: Nid)
      modifies this`logsBuffer, this`dirty
      ensures logsBuffer == MarkRead(old(logsBuffer), nid)
      ensures dirty
    {
      var pos := Position(logsBuffer, nid);
      if pos.Some? {
        logsBuffer := logsBuffer[pos.value := logsBuffer[pos.value].(read := true)];
      }
      dirty := true;
    }

    /** `None` is the slice that does not exist. */
    method ReadLogs(start: Count, end: Count, updateRead: bool) returns (slice: Option<Entries>)
      modifies this`logsBuffer, this`dirty
      ensures slice.None? <==> !Sliceable(old(logsBuffer), start, end)
      ensures slice.None? ==> logsBuffer == old(logsBuffer) && dirty == old(dirty)
      ensures slice.Some? ==>
                && logsBuffer == (if updateRead then ReadThrough(old(logsBuffer), start, end) else old(logsBuffer))
                && slice.value == Window(logsBuffer, start, end)
                && dirty == (old(dirty) || (updateRead && slice.value != []))
    {
      var len := |logsBuffer|;
      var lo, hi := Min(len, start), Min(len, end);
      if hi < lo {
        return None;
      }
      if updateRead && lo != hi {
        dirty := true;
        var i := lo;
        while i < hi
          invariant lo <= i <= hi && |logsBuffer| == len && dirty
          invariant forall k :: 0 <= k < len ==>
                      logsBuffer[k] == if lo <= k < i then old(logsBuffer)[k].(read := true) else old(logsBuffer)[k]
        {
          logsBuffer := logsBuffer[i := logsBuffer[i].(read := true)];
          i := i + 1;
        }
        MarkedIsReadThrough(old(logsBuffer), logsBuffer, start, end);
      } else if updateRead {
        MarkedIsReadThrough(logsBuffer, logsBuffer, start, end);
      }
      slice := Some(logsBuffer[lo..hi]);
    }

    method SpawnExpiry(timer: Timer)
      modifies this`sleepers
      ensures sleepers == old(sleepers) + [timer]
    {
      sleepers := sleepers + [timer];
    }

    // -------------------------------------------------------------- the jobs

    method ExecuteBroadcast(event: Notification, now: nat) returns (reply: Reply)
      modifies this`logsBuffer, this`dirty, this`sleepers
      ensures var effect := Executor.ExecuteBroadcast(config, old(logsBuffer), event, now);
              && logsBuffer == effect.log && dirty && reply == effect.reply
              && sleepers == old(sleepers) + Started(effect.timer)
    {
      var replacement := event.replacesId;
      if replacement != 0 {
        var _ := RemoveNotification(replacement);
      }
      if config.autoClose && event.timeout != 0 && event.timeout >= -1 {
        SpawnExpiry(Timer(event.id, now + MapTimeout(config, event.timeout).value.value));
      }
      AppendNotification(event);
      reply := FulfilledJob(Ok(Some(OneJson(event))), Results);
    }

    /** `None` is the unwrap of an entry that is not there. */
    method ExecuteClose(id: Nid, reason: Reason, flags: Flags, now: nat, em: Emission) returns (reply: Option<Reply>)
      modifies this`logsBuffer, this`dirty
      ensures match Executor.ExecuteClose(config, old(logsBuffer), id, reason, flags, now, em)
              case Panic => reply.None? && logsBuffer == old(logsBuffer) && dirty == old(dirty)
              case Done(effect) =>
                && reply == Some(effect.reply) && logsBuffer == effect.log && dirty == (old(dirty) || effect.touched)
    {
      var pos := Position(logsBuffer, id);
      if (pos.None? || logsBuffer[pos.value].closed) && !Force(flags) {
        return Some(NOTHING);
      }
      if pos.None? {
        return None;
      }
      var ne := logsBuffer[pos.value];
      if reason == Expired && config.autoClose && NotYetExpired(config, ne, now) {
        return Some(NOTHING);
      }
      logsBuffer := logsBuffer[pos.value := ne.(closed := true)];
      dirty := true;
      reply := Some(Signalled(CloseEvent(id), em));
    }

    method ExecuteSignal(id: Nid, event: EventType, flags: Flags, em: Emission) returns (reply: Reply)
      ensures Executor.ExecuteSignal(logsBuffer, id, event, flags, em) == Unchanged(logsBuffer, reply)
    {
      var entry := Find(logsBuffer, id);
      if (entry.None? || entry.value.closed) && !Force(flags) {
        return NOTHING;
      }
      reply := Signalled(event, em);
    }

    method ExecuteRead(start: Count, end: Count, flags: Flags) returns (reply: Option<Reply>)
      modifies this`logsBuffer, this`dirty
      ensures match Executor.ExecuteRead(old(logsBuffer), start, end, flags)
              case Panic => reply.None? && logsBuffer == old(logsBuffer) && dirty == old(dirty)
              case Done(effect) =>
                && reply == Some(effect.reply) && logsBuffer == effect.log && dirty == (old(dirty) || effect.touched)
    {
      ghost var before := logsBuffer;
      var slice := ReadLogs(start, end, !Silent(flags));
      if slice.None? {
        return None;
      }
      ReadShowsItsMarks(before, start, end);
      reply := Some(FulfilledJob(Ok(Some(ListJson(slice.value))), Results));
    }

    method ExecuteQuery(id: Nid) returns (reply: Reply)
      ensures reply == FulfilledJob(Ok(Some(Text(if IsClosed(logsBuffer, id) then "true" else "false"))), Results)
    {
      var entry := Find(logsBuffer, id);
      var answer := entry.Some? && entry.value.closed;
      reply := FulfilledJob(Ok(Some(Text(if answer then "true" else "false"))), Results);
    }

    method ExecuteJob(desc: JobDesc, now: nat, em: Emission) returns (reply: Option<Reply>)
      modifies this`logsBuffer, this`dirty, this`sleepers
      ensures match Execute(config, old(logsBuffer), desc, now, em)
              case Panic =>
                && reply.None? && logsBuffer == old(logsBuffer) && dirty == old(dirty) && sleepers == old(sleepers)
              case Done(effect) =>
                && reply == Some(effect.reply) && logsBuffer == effect.log && dirty == (old(dirty) || effect.touched)
                && sleepers == old(sleepers) + Started(effect.timer)
    {
      match desc.cmd {
        case Broadcast(event) =>
          var r := ExecuteBroadcast(event, now);
          reply := Some(r);
        case Close(id, reason) => reply := ExecuteClose(id, reason, desc.flags, now, em);
        case ActionInvoked(id, key) =>
          var r := ExecuteSignal(id, ActionEvent(id, key), desc.flags, em);
          reply := Some(r);
        case ActivationToken(id, token) =>
          var r := ExecuteSignal(id, TokenEvent(id, token), desc.flags, em);
          reply := Some(r);
        case Read(start, end) => reply := ExecuteRead(start, end, desc.flags);
        case Query(id) =>
          var r := ExecuteQuery(id);
          reply := Some(r);
        case Watch => reply := Some(NOTHING);
        case Acknowledge(id) =>
          ReadNotification(id);
          reply := Some(NOTHING);
      }
    }

    /** Pops one job, executes it, writes the log if the list was empty behind the job, and sends the result; `ok` says
        whether connecting and writing to the listener work. The list is let go of after the pop, and `during` is what
        other threads push from then on. */
    method Exec(during: seq<JobDesc>, now: nat, em: Emission, ok: bool) returns (state: ExecState)
      modifies this, list`jobs, file
      ensures var r := ExecSpec(config, old(list.jobs), list.poisoned, old(logsBuffer), old(dirty), old(file.content),
                                during, now, em, ok);
              && state == r.state && list.jobs == r.queue && logsBuffer == r.log && dirty == r.dirty
                  && file.content == r.disk
              && sleepers == old(sleepers) + Started(r.timer)
              && sent == old(sent) + (if r.sent.Some? then [r.sent.value] else [])
    {
      var locked := list.Lock();
      if !locked {
        return Panicked;
      }
      var jd := list.PopFront();
      if jd.None? {
        return Noop;
      }
      var empty := list.jobs == [];
      assert old(list.jobs)[1..] == list.jobs;
      list.PushAll(during);
      var fj := ExecuteJob(jd.value, now, em);
      if fj.None? {
        return Panicked;
      }
      if empty && dirty {
        dirty := false;
        file.content := logsBuffer;
      }
      if fj.value.result == Ok(None) {
        return Executed;
      }
      if !ok {
        return Failed;
      }
      sent := sent + [S.Outgoing(jd.value.pid, fj.value)];
      state := if fj.value.result.Err? then Error else Executed;
    }
  }

  function Started(timer: Option<Timer>): seq<Timer> {
    if timer.Some? then [timer.value] else []
  }

  lemma MarkedIsReadThrough(before: Entries, after: Entries, start: Count, end: Count)
    requires Sliceable(before, start, end) && |after| == |before|
    requires forall k :: 0 <= k < |before| ==>
               after[k] == if Min(|before|, start) <= k < Min(|before|, end) then before[k].(read := true)
                   else before[k]
    ensures after == ReadThrough(before, start, end)
  {
    ReadThroughLength(before, start, end);
    forall k | 0 <= k < |before| ensures after[k] == ReadThrough(before, start, end)[k] {
      ReadThroughAt(before, start, end, k);
    }
  }

  /** What a call of `Exec` returns: an error exactly if a signal passed, its emission did not work, and that was sent;
      and what makes it panic, fail, or do nothing. */
  lemma ExecStatesExactly(cfg: Config, queue: seq<JobDesc>, poisoned: bool, log: Entries, dirty: bool, disk: Entries,
        during: seq<JobDesc>, now: nat, em: Emission, ok: bool)
    ensures var state := ExecSpec(cfg, queue, poisoned, log, dirty, disk, during, now, em, ok).state;
            && (state == Noop <==> !poisoned && queue == [])
            && (state == Panicked <==> poisoned || (queue != [] && StopsTheManager(log, queue[0])))
            && (state == Error <==>
                  !poisoned && queue != [] && ok && Passes(cfg, log, queue[0], now, em) && !em.Emitted?)
            && (state == Failed ==> !ok)
  {
    if queue != [] {
      PanicsExactly(cfg, log, queue[0], now, em);
    }
  }

  /** What a marking read returns are the marked entries. */
  lemma ReadShowsItsMarks(log: Entries, start: Count, end: Count)
    requires Sliceable(log, start, end)
    ensures Window(ReadThrough(log, start, end), start, end) == AllRead(Window(log, start, end))
    ensures Window(log, start, end) == [] ==> ReadThrough(log, start, end) == log
    ensures |ReadThrough(log, start, end)| == |log|
  {
    ReadThroughLength(log, start, end);
    var lo, hi := Min(|log|, start), Min(|log|, end);
    forall i | lo <= i < hi ensures ReadThrough(log, start, end)[i] == AllRead(Window(log, start, end))[i - lo] {
      ReadThroughAt(log, start, end, i);
    }
    if lo == hi {
      MarkedIsReadThrough(log, log, start, end);
    }
  }

  function Waking(timer: Option<Timer>): multiset<Timer> {
    if timer.Some? then multiset{timer.value} else multiset{}
  }

  function Leaving(sent: Option<S.Outgoing>): multiset<S.Outgoing> {
    if sent.Some? then multiset{sent.value} else multiset{}
  }

  lemma PopGives(s: S.State)
    requires s.mgr.phase.Awake? && s.bus.queue != [] && !s.bus.poisoned
    ensures var t := S.Next(s, S.Pop);
            && t.bus == s.bus.(queue := s.bus.queue[1..])
            && t.hub == s.hub && t.timers == s.timers && t.clock == s.clock
            && t.mgr == s.mgr.(phase := S.Popped(s.bus.queue[0], s.bus.queue[1..] == []))
  {
  }

  lemma WorkGives(s: S.State, em: Emission)
    requires s.mgr.phase.Popped?
    ensures var t := S.Next(s, S.Work(em));
            && t.bus == s.bus && t.hub == s.hub
            && match Execute(S.Cfg(s), s.mgr.log, s.mgr.phase.desc, s.clock, em)
               case Panic => t.mgr.phase == S.Halted(S.JobPanicked(s.mgr.phase.desc))
               case Done(effect) =>
                 && t.mgr.phase == S.Executed(s.mgr.phase.desc, s.mgr.phase.empty, effect.reply)
                 && t.mgr.log == effect.log && t.mgr.dirty == (s.mgr.dirty || effect.touched)
                     && t.mgr.disk == s.mgr.disk
                 && t.timers == s.timers + Waking(effect.timer)
  {
  }

  /** The state after the manager has worked on the job in its hand, flushed, and sent. */
  function WorkedAndSent(s: S.State, em: Emission): S.State
    requires s.mgr.phase.Popped? && Execute(S.Cfg(s), s.mgr.log, s.mgr.phase.desc, s.clock, em).Done?
  {
    WorkGives(s, em);
    S.Next(S.Next(S.Next(s, S.Work(em)), S.Flush), S.Send(true))
  }

  /** A job with a result adds exactly that result, for its own process, to what is on the way to the listener, and a
      job without one adds nothing. */
  lemma ResultGoesOut(s: S.State, em: Emission, effect: Effect)
    requires s.mgr.phase.Popped? && Execute(S.Cfg(s), s.mgr.log, s.mgr.phase.desc, s.clock, em) == Done(effect)
    ensures WorkedAndSent(s, em).hub ==
            if effect.reply.result == Ok(None) then s.hub
            else s.hub.(outgoing := s.hub.outgoing + multiset{S.Outgoing(s.mgr.phase.desc.pid, effect.reply)})
  {
    WorkGives(s, em);
    SendGives(S.Next(s, S.Work(em)));
  }

  lemma SendGives(s: S.State)
    requires s.mgr.phase.Executed?
    ensures S.Next(S.Next(s, S.Flush), S.Send(true)).hub ==
            if s.mgr.phase.reply.result == Ok(None) then s.hub
            else s.hub.(outgoing := s.hub.outgoing + multiset{S.Outgoing(s.mgr.phase.desc.pid, s.mgr.phase.reply)})
  {
  }

  /** Where sending a result, or not having one to send, leaves the manager. */
  function PhaseAfter(desc: JobDesc, reply: Reply, ok: bool): S.Phase {
    if ok || reply.result == Ok(None) then S.Idle else S.Halted(S.SendFailed(desc, reply))
  }

  function Sent(desc: JobDesc, reply: Reply, ok: bool): Option<S.Outgoing> {
    if ok && reply.result != Ok(None) then Some(S.Outgoing(desc.pid, reply)) else None
  }

  lemma FinishGives(s: S.State, ok: bool)
    requires s.mgr.phase.Executed?
    ensures var t := S.Next(S.Next(s, S.Flush), S.Send(ok));
            var flush := s.mgr.phase.empty && s.mgr.dirty;
            var desc, reply := s.mgr.phase.desc, s.mgr.phase.reply;
            && t.bus == s.bus && t.timers == s.timers && t.mgr.log == s.mgr.log
            && t.mgr.phase == PhaseAfter(desc, reply, ok)
            && t.mgr.dirty == (s.mgr.dirty && !flush) && t.mgr.disk == (if flush then s.mgr.log else s.mgr.disk)
            && t.hub.outgoing == s.hub.outgoing + Leaving(Sent(desc, reply, ok))
  {
  }

  /** Other threads have pushed these jobs. */
  function WithPushed(s: S.State, during: seq<JobDesc>): S.State {
    s.(bus := s.bus.(queue := s.bus.queue + during))
  }

  function Popped(s: S.State, during: seq<JobDesc>): S.State
    requires s.mgr.phase.Awake?
  {
    WithPushed(S.Next(s, S.Pop), during)
  }

  /** The state after the manager's own actions on one job, when other threads push after the pop. */
  function OneJob(s: S.State, during: seq<JobDesc>, em: Emission, ok: bool): S.State
    requires s.mgr.phase.Awake? && s.bus.queue != [] && !s.bus.poisoned
    requires Execute(S.Cfg(s), s.mgr.log, s.bus.queue[0], s.clock, em).Done?
  {
    PopGives(s);
    WorkGives(Popped(s, during), em);
    S.Next(S.Next(S.Next(Popped(s, during), S.Work(em)), S.Flush), S.Send(ok))
  }

  lemma OneJobGives(s: S.State, during: seq<JobDesc>, em: Emission, ok: bool, effect: Effect)
    requires s.mgr.phase.Awake? && s.bus.queue != [] && !s.bus.poisoned
    requires Execute(S.Cfg(s), s.mgr.log, s.bus.queue[0], s.clock, em) == Done(effect)
    ensures var t := OneJob(s, during, em, ok);
            var flush := s.bus.queue[1..] == [] && (s.mgr.dirty || effect.touched);
            && t.mgr.phase == PhaseAfter(s.bus.queue[0], effect.reply, ok)
            && t.bus == s.bus.(queue := s.bus.queue[1..] + during) && t.mgr.log == effect.log
            && t.mgr.dirty == ((s.mgr.dirty || effect.touched) && !flush)
            && t.mgr.disk == (if flush then effect.log else s.mgr.disk)
            && t.timers == s.timers + Waking(effect.timer)
            && t.hub.outgoing == s.hub.outgoing + Leaving(Sent(s.bus.queue[0], effect.reply, ok))
  {
    var popped := Popped(s, during);
    PopGives(s);
    WorkGives(popped, em);
    FinishGives(S.Next(popped, S.Work(em)), ok);
  }

  /** `Exec` is the sequence of the manager's own actions in the system, with whatever other threads push in between. */
  lemma ExecIsTheManagersActions(s: S.State, during: seq<JobDesc>, em: Emission, ok: bool)
    requires s.mgr.phase.Awake?
    ensures var r := ExecSpec(S.Cfg(s), s.bus.queue, s.bus.poisoned, s.mgr.log, s.mgr.dirty, s.mgr.disk, during,
                              s.clock, em, ok);
            match r.state
            case Noop => S.Next(s, S.Pop).mgr.phase == S.Halted(S.QueueEmpty)
            case Panicked =>
              var popped := Popped(s, during);
              if s.bus.poisoned then popped.mgr.phase == S.Halted(S.ListPoisoned)
              else
                && popped.mgr.phase.Popped? && popped.bus.queue == r.queue
                && S.Next(popped, S.Work(em)).mgr.phase == S.Halted(S.JobPanicked(s.bus.queue[0]))
            case _ => Finished(s, during, em, ok, r)
  {
    if s.bus.queue != [] && !s.bus.poisoned {
      match Execute(S.Cfg(s), s.mgr.log, s.bus.queue[0], s.clock, em) {
        case Panic =>
          PopGives(s);
          WorkGives(Popped(s, during), em);
        case Done(effect) => OneJobIsFinished(s, during, em, ok, effect);
      }
    }
  }

  /** The state after one job is the one that `r` tells of. */
  ghost predicate Finished(s: S.State, during: seq<JobDesc>, em: Emission, ok: bool, r: ExecResult) {
    && s.mgr.phase.Awake? && s.bus.queue != [] && !s.bus.poisoned
    && Execute(S.Cfg(s), s.mgr.log, s.bus.queue[0], s.clock, em).Done?
    && var t := OneJob(s, during, em, ok);
       && (r.state == Failed <==> S.Gone(t)) && (r.state != Failed ==> t.mgr.phase == S.Idle)
       && t.bus.queue == r.queue
       && t.mgr.log == r.log && t.mgr.dirty == r.dirty && t.mgr.disk == r.disk
       && t.timers == s.timers + Waking(r.timer)
       && t.hub.outgoing == s.hub.outgoing + Leaving(r.sent)
  }

  lemma OneJobIsFinished(s: S.State, during: seq<JobDesc>, em: Emission, ok: bool, effect: Effect)
    requires s.mgr.phase.Awake? && s.bus.queue != [] && !s.bus.poisoned
    requires Execute(S.Cfg(s), s.mgr.log, s.bus.queue[0], s.clock, em) == Done(effect)
    ensures Finished(s, during, em, ok,
                     ExecSpec(S.Cfg(s), s.bus.queue, false, s.mgr.log, s.mgr.dirty, s.mgr.disk, during, s.clock,
                              em, ok))
  {
    OneJobGives(s, during, em, ok, effect);
  }
}
