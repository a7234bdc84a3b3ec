/** What executing one job does to the log, and what it answers. */
module Executor {
  import opened Types
  import opened Log

  /** `Ok(None)` for a notification that never expires by itself; positive timeouts are cut to 16 bits. */
  function MapTimeout(cfg: Config, timeout: Timeout): Result<Option<Count>, ()> {
    if timeout == -1 then Ok(Some(cfg.defaultTimeout))
    else if timeout == 0 then Ok(None)
    else if timeout > 0 then Ok(Some(timeout % U16_LIMIT))
    else Err(())
  }

  predicate Expires(timeout: Timeout) {
    timeout != 0 && timeout >= -1
  }

  lemma ExpiresExactlyWhenMapped(cfg: Config, timeout: Timeout)
    ensures Expires(timeout) <==> MapTimeout(cfg, timeout).Ok? && MapTimeout(cfg, timeout).value.Some?
    ensures Expires(timeout) <==> timeout == -1 || timeout > 0
    ensures MapTimeout(cfg, -1) == Ok(Some(cfg.defaultTimeout))
    ensures timeout > 0 ==> MapTimeout(cfg, timeout) == Ok(Some(timeout % 65536))
  {
  }

  /** A positive timeout means what it says exactly up to 65535 milliseconds; 65536 expires at once. */
  lemma LongTimeoutsWrap(cfg: Config, timeout: Timeout)
    requires timeout > 0
    ensures MapTimeout(cfg, timeout).Ok? && MapTimeout(cfg, timeout).value.Some?
    ensures MapTimeout(cfg, timeout).value.value == timeout <==> timeout <= 65535
    ensures MapTimeout(cfg, 65536) == Ok(Some(0))
  {
  }

  function Deadline(cfg: Config, n: Notification): nat
    requires Expires(n.timeout)
  {
    n.time + MapTimeout(cfg, n.timeout).value.value
  }

  /** `touched` says whether the job marked the manager dirty. */
  datatype Effect = Effect(log: Entries, touched: bool, timer: Option<Timer>, reply: Reply)

  datatype Outcome = Panic | Done(effect: Effect)

  function Unchanged(log: Entries, reply: Reply): Outcome {
    Done(Effect(log, false, None, reply))
  }

  function Signalled(event: EventType, em: Emission): Reply {
    match em
    case Emitted => FulfilledJob(Ok(Some(Text(""))), Event(event))
    case Refused(message) => FulfilledJob(Err(message), Event(event))
    case NoRuntime(message) => FulfilledJob(Err(message), Other)
  }

  function Execute(cfg: Config, log: Entries, desc: JobDesc, now: nat, em: Emission): Outcome {
    match desc.cmd
    case Broadcast(event) => Done(ExecuteBroadcast(cfg, log, event, now))
    case Close(id, reason) => ExecuteClose(cfg, log, id, reason, desc.flags, now, em)
    case ActionInvoked(id, key) => ExecuteSignal(log, id, ActionEvent(id, key), desc.flags, em)
    case ActivationToken(id, token) => ExecuteSignal(log, id, TokenEvent(id, token), desc.flags, em)
    case Read(start, end) => ExecuteRead(log, start, end, desc.flags)
    case Query(id) => Unchanged(log, FulfilledJob(Ok(Some(Text(if IsClosed(log, id) then "true" else "false"))),
          Results))
    case Watch => Unchanged(log, NOTHING)
    case Acknowledge(id) => Done(Effect(MarkRead(log, id), true, None, NOTHING))
  }

  function ExecuteBroadcast(cfg: Config, log: Entries, event: Notification, now: nat): Effect {
    var timer := if cfg.autoClose && Expires(event.timeout)
                 then Some(Timer(event.id, now + MapTimeout(cfg, event.timeout).value.value))
                 else None;
    Effect(Append(cfg.maxLogs, Cleared(log, event), event), true, timer,
          FulfilledJob(Ok(Some(OneJson(event))), Results))
  }

  function ExecuteClose(cfg: Config, log: Entries, id: Nid, reason: Reason, flags: Flags, now: nat,
        em: Emission): Outcome {
    match Find(log, id)
    case None => if Force(flags) then Panic else Unchanged(log, NOTHING)
    case Some(n) =>
      if n.closed && !Force(flags) then Unchanged(log, NOTHING)
      else if reason == Expired && cfg.autoClose && NotYetExpired(cfg, n, now) then Unchanged(log, NOTHING)
      else Done(Effect(MarkClosed(log, id), true, None, Signalled(CloseEvent(id), em)))
  }

  /** The re-check of an expiry: drop it for timeout 0, for a timeout that cannot be mapped, and before the deadline. */
  predicate NotYetExpired(cfg: Config, n: Notification, now: nat) {
    || n.timeout == 0
    || match MapTimeout(cfg, n.timeout)
       case Err(_) => true
       case Ok(mapped) => now < mapped.value + n.time
  }

  function ExecuteSignal(log: Entries, id: Nid, event: EventType, flags: Flags, em: Emission): Outcome {
    var entry := Find(log, id);
    if (entry.None? || entry.value.closed) && !Force(flags) then Unchanged(log, NOTHING)
    else Unchanged(log, Signalled(event, em))
  }

  function ExecuteRead(log: Entries, start: Count, end: Count, flags: Flags): Outcome {
    if !Sliceable(log, start, end) then Panic
    else
      var window := Window(log, start, end);
      if !Silent(flags) && window != []
      then Done(Effect(ReadThrough(log, start, end), true, None,
            FulfilledJob(Ok(Some(ListJson(AllRead(window)))), Results)))
      else Unchanged(log, FulfilledJob(Ok(Some(ListJson(window))), Results))
  }

  predicate IsClosed(log: Entries, id: Nid) {
    match Find(log, id)
    case Some(n) => n.closed
    case None => false
  }

  /** Present and open. */
  predicate IsOpen(log: Entries, id: Nid) {
    match Find(log, id)
    case Some(n) => !n.closed
    case None => false
  }

  // ---------------------------------------------------------------- when a job stops the program

  predicate ForcedOnMissing(log: Entries, desc: JobDesc) {
    desc.cmd.Close? && Force(desc.flags) && !HasId(log, desc.cmd.id)
  }

  predicate WindowReversed(log: Entries, desc: JobDesc) {
    desc.cmd.Read? && desc.cmd.end < desc.cmd.start && desc.cmd.end < |log|
  }

  predicate StopsTheManager(log: Entries, desc: JobDesc) {
    ForcedOnMissing(log, desc) || WindowReversed(log, desc)
  }

  /** Exactly two jobs stop the manager: a forced close of an id that is not in the log, and a
      read whose end lies before its start and inside the log. */
  lemma PanicsExactly(cfg: Config, log: Entries, desc: JobDesc, now: nat, em: Emission)
    ensures Execute(cfg, log, desc, now, em).Panic? <==> StopsTheManager(log, desc)
  {
  }

  // ---------------------------------------------------------------- the gate of the signals

  predicate IsSignal(cmd: Job) {
    cmd.Close? || cmd.ActionInvoked? || cmd.ActivationToken?
  }

  /** A signal on `desc.cmd.id` goes out to the bus and to the watchers. */
  ghost predicate Passes(cfg: Config, log: Entries, desc: JobDesc, now: nat, em: Emission) {
    && IsSignal(desc.cmd)
    && Execute(cfg, log, desc, now, em).Done?
    && Execute(cfg, log, desc, now, em).effect.reply != NOTHING
  }

  /** The gate in terms of the entry: an unforced signal needs an open entry, and an expiry needs, on top
      of that, an entry that can expire and whose own deadline has come. */
  lemma GateExactly(cfg: Config, log: Entries, desc: JobDesc, now: nat, em: Emission)
    requires IsSignal(desc.cmd) && !ForcedOnMissing(log, desc)
    ensures Passes(cfg, log, desc, now, em) <==>
            && (IsOpen(log, desc.cmd.id) || Force(desc.flags))
            && (desc.cmd.Close? && desc.cmd.reason == Expired && cfg.autoClose ==>
                  var n := Find(log, desc.cmd.id).value;
                  Expires(n.timeout) && Deadline(cfg, n) <= now)
    ensures Passes(cfg, log, desc, now, em) && desc.cmd.Close? ==>
              Execute(cfg, log, desc, now, em).effect.log == MarkClosed(log, desc.cmd.id)
    ensures !(Passes(cfg, log, desc, now, em) && desc.cmd.Close?) ==> Execute(cfg, log, desc, now, em).effect.log == log
  {
    assert Find(log, desc.cmd.id).None? <==> !HasId(log, desc.cmd.id);
  }

  /** The expiry a timer sends, run at or after the deadline of the entry it finds, leaves that entry closed. */
  lemma DueExpiryCloses(cfg: Config, log: Entries, n: Notification, now: nat, em: Emission)
    requires Distinct(log) && n in log && Expires(n.timeout) && Deadline(cfg, n) <= now
    ensures Execute(cfg, log, JobDesc(Close(n.id, Expired), 0, NO_FLAGS), now, em).Done?
    ensures n.(closed := true) in Execute(cfg, log, JobDesc(Close(n.id, Expired), 0, NO_FLAGS), now, em).effect.log
  {
    FindIsMembership(log, n);
    MarksTouchOneEntry(log, n.id, n.(closed := true));
    assert n.closed ==> n.(closed := true) == n;
  }

  /** An open entry is closed by an expiry exactly once its time plus the configured default, or the 16 low bits of
      its own timeout, has come, and never if it asked for no expiry or for one that makes no sense. */
  lemma ExpiresInNumbers(cfg: Config, log: Entries, n: Notification, now: nat, em: Emission)
    requires Distinct(log) && n in log && !n.closed && cfg.autoClose
    ensures var outcome := Execute(cfg, log, JobDesc(Close(n.id, Expired), 0, 0), now, em);
            && outcome.Done?
            && (n.timeout == -1 ==> (n.(closed := true) in outcome.effect.log <==> n.time + cfg.defaultTimeout <= now))
            && (n.timeout > 0 ==> (n.(closed := true) in outcome.effect.log <==> n.time + n.timeout % 65536 <= now))
            && (n.timeout == 0 || n.timeout < -1 ==> outcome.effect.log == log)
  {
    FindIsMembership(log, n);
    MarksTouchOneEntry(log, n.id, n.(closed := true));
    if n.(closed := true) in log {
      SameIdSameEntry(log, n, n.(closed := true));
    }
  }

  /** The event that a signal stands for. */
  function EventOf(cmd: Job): EventType
    requires IsSignal(cmd)
  {
    match cmd
    case Close(id, _) => CloseEvent(id)
    case ActionInvoked(id, key) => ActionEvent(id, key)
    case ActivationToken(id, token) => TokenEvent(id, token)
  }

  /** Whatever became of the emission, unless no runtime could be built, the reply names the signal. The result is an
      error, with the reason, exactly if the emission did not work, and an empty text if it did. */
  lemma ReplyNamesTheSignal(cfg: Config, log: Entries, desc: JobDesc, now: nat, em: Emission)
    requires IsSignal(desc.cmd) && Passes(cfg, log, desc, now, em)
    ensures var reply := Execute(cfg, log, desc, now, em).effect.reply;
            && reply.typ == (if em.NoRuntime? then Other else Event(EventOf(desc.cmd)))
            && (em.Emitted? ==> reply.result == Ok(Some(Text(""))))
            && (em.Refused? || em.NoRuntime? ==> reply.result == Err(em.message))
  {
  }

  // ---------------------------------------------------------------- broadcasting

  /** With auto-close on, and then only, a broadcast starts one thread for its own id, which wakes after the configured
      default or after the 16 low bits of the timeout; without an expiry none. */
  lemma TimerInNumbers(cfg: Config, log: Entries, event: Notification, now: nat, em: Emission)
    ensures var outcome := Execute(cfg, log, JobDesc(Broadcast(event), 0, 0), now, em);
            && outcome.Done?
            && outcome.effect.timer ==
               if cfg.autoClose && event.timeout == -1 then Some(Timer(event.id, now + cfg.defaultTimeout))
               else if cfg.autoClose && event.timeout > 0 then Some(Timer(event.id, now + event.timeout % 65536))
               else None
  {
  }

  /** The log once the replaced notification is gone. */
  function Cleared(log: Entries, event: Notification): Entries {
    if event.replacesId != 0 then Remove(log, event.replacesId) else log
  }

  function Replaced(log: Entries, event: Notification): Option<Notification> {
    if event.replacesId != 0 then Find(log, event.replacesId) else None
  }

  /** The entry pushed off the back by a broadcast, if any. */
  function Evicted(cfg: Config, log: Entries, event: Notification): Option<Notification> {
    Overflow(cfg.maxLogs, Cleared(log, event))
  }

  lemma ClearedLosesTheReplaced(log: Entries, event: Notification)
    requires Distinct(log)
    ensures Distinct(Cleared(log, event))
    ensures multiset(log) == multiset(Cleared(log, event)) + Single(Replaced(log, event))
    ensures forall n :: n in Cleared(log, event) <==> n in log && (event.replacesId != 0 ==> n.id != event.replacesId)
    ensures |log| == |Cleared(log, event)| + (if Replaced(log, event).Some? then 1 else 0)
  {
    if event.replacesId != 0 {
      RemoveTakesOne(log, event.replacesId);
    }
  }

  /** A broadcast puts the new entry in front and loses the replaced and the evicted entry, nothing else. */
  lemma BroadcastConserves(cfg: Config, log: Entries, event: Notification, now: nat)
    requires Distinct(log)
    ensures var after := ExecuteBroadcast(cfg, log, event, now).log;
            && after != [] && after[0] == event
            && multiset(after) + Single(Replaced(log, event)) + Single(Evicted(cfg, log, event))
               == multiset(log) + multiset{event}
    ensures Replaced(log, event).Some? && |log| <= cfg.maxLogs ==> Evicted(cfg, log, event).None?
  {
    var rest := Cleared(log, event);
    var kept := Kept(cfg.maxLogs, rest);
    ClearedLosesTheReplaced(log, event);
    KeptLosesTheBack(cfg.maxLogs, rest);
    assert ExecuteBroadcast(cfg, log, event, now).log == [event] + kept;
    assert multiset([event] + kept) == multiset{event} + multiset(kept);
  }

  /** Who asks for a fresh id gets one that is not in the log; who replaces keeps the id. */
  predicate WellNumbered(log: Entries, event: Notification) {
    event.id != 0 && (event.replacesId == event.id || (event.replacesId == 0 && !HasId(log, event.id)))
  }

  /** Membership after a broadcast; the ids stay distinct. */
  lemma BroadcastEntries(cfg: Config, log: Entries, event: Notification, now: nat)
    requires Distinct(log) && WellNumbered(log, event)
    ensures Distinct(ExecuteBroadcast(cfg, log, event, now).log)
    ensures forall n :: n in ExecuteBroadcast(cfg, log, event, now).log <==>
              n == event || (n in log && n.id != event.id && Evicted(cfg, log, event) != Some(n))
  {
    var rest := Cleared(log, event);
    var kept := Kept(cfg.maxLogs, rest);
    ClearedLosesTheReplaced(log, event);
    KeptLosesTheBack(cfg.maxLogs, rest);
    PushFrontKeepsDistinct(kept, event);
    assert ExecuteBroadcast(cfg, log, event, now).log == [event] + kept;
    assert !HasId(kept, event.id);
  }

  /** When a broadcast keeps the ids distinct: it replaces its namesake, or there is none, or the namesake is the
      entry that falls off the back. */
  lemma IdsStayDistinctExactly(cfg: Config, log: Entries, event: Notification, now: nat)
    requires Distinct(log)
    ensures Distinct(ExecuteBroadcast(cfg, log, event, now).log) <==>
            || !HasId(log, event.id)
            || (event.replacesId != 0 && event.replacesId == event.id)
            || Evicted(cfg, log, event) == Find(log, event.id)
  {
    var rest := Cleared(log, event);
    var kept := Kept(cfg.maxLogs, rest);
    ClearedLosesTheReplaced(log, event);
    KeptLosesTheBack(cfg.maxLogs, rest);
    PushFrontKeepsDistinct(kept, event);
    assert ExecuteBroadcast(cfg, log, event, now).log == [event] + kept;
    if HasId(log, event.id) {
      NamesakeKept(log, kept, event, Find(log, event.id).value, Evicted(cfg, log, event));
    }
  }

  lemma NamesakeKept(log: Entries, kept: Entries, event: Notification, n: Notification, evicted: Option<Notification>)
    requires Distinct(log) && n in log && n.id == event.id
    requires forall m :: m in kept <==>
               m in log && (event.replacesId != 0 ==> m.id != event.replacesId) && evicted != Some(m)
    ensures HasId(kept, event.id) <==> !(event.replacesId != 0 && event.replacesId == event.id) && evicted != Some(n)
  {
    if HasId(kept, event.id) {
      var m :| m in kept && m.id == event.id;
      SameIdSameEntry(log, n, m);
    } else {
      assert n !in kept;
    }
  }

  // ---------------------------------------------------------------- reads and queries

  /** A read answers with its window as the log shows it afterwards: marked, unless the read was silent. */
  lemma ReadAnswersWithTheLogAfter(cfg: Config, log: Entries, desc: JobDesc, now: nat, em: Emission)
    requires desc.cmd.Read? && Execute(cfg, log, desc, now, em).Done?
    ensures var effect := Execute(cfg, log, desc, now, em).effect;
            && |effect.log| == |log| && effect.reply.typ == Results
            && effect.reply.result == Ok(Some(ListJson(Window(effect.log, desc.cmd.start, desc.cmd.end))))
            && forall i :: 0 <= i < |log| ==>
                 effect.log[i] ==
                 if !Silent(desc.flags) && desc.cmd.start <= i < desc.cmd.end then log[i].(read := true) else log[i]
  {
    var start, end := desc.cmd.start, desc.cmd.end;
    var through := ReadThrough(log, start, end);
    ReadThroughLength(log, start, end);
    forall i | 0 <= i < |log| ensures through[i] == if start <= i < end then log[i].(read := true) else log[i] {
      ReadThroughAt(log, start, end, i);
    }
    assert Window(through, start, end) == AllRead(Window(log, start, end));
  }

  /** A query says `true` exactly if the log holds a closed entry of this id. */
  lemma QueryAnswersExactly(cfg: Config, log: Entries, desc: JobDesc, now: nat, em: Emission)
    requires desc.cmd.Query? && Distinct(log)
    ensures var effect := Execute(cfg, log, desc, now, em).effect;
            && effect.log == log && effect.reply.typ == Results
            && effect.reply.result == Ok(Some(Text(
                 if exists n :: n in log && n.id == desc.cmd.id && n.closed then "true" else "false")))
  {
    if n :| n in log && n.id == desc.cmd.id && n.closed {
      FindIsMembership(log, n);
    }
  }

  /** While the daemon is up, a `true` answer of a query stays true over a job exactly when the job is not a broadcast
      that replaces the entry or pushes it off the back of the log. */
  lemma QueryStableExactly(cfg: Config, log: Entries, desc: JobDesc, now: nat, em: Emission, id: Nid)
    requires Distinct(log) && IsClosed(log, id) && Execute(cfg, log, desc, now, em).Done?
    requires desc.cmd.Broadcast? ==> !desc.cmd.event.closed && WellNumbered(log, desc.cmd.event)
    ensures IsClosed(Execute(cfg, log, desc, now, em).effect.log, id) <==>
            !(desc.cmd.Broadcast? && (desc.cmd.event.id == id
                                      || Evicted(cfg, log, desc.cmd.event) == Find(log, id)))
  {
    var n := Find(log, id).value;
    if desc.cmd.Broadcast? {
      QueryOverBroadcast(cfg, log, desc.cmd.event, now, n);
    } else {
      LogAfterOthers(cfg, log, desc, now, em);
      QueryOverOthers(log, desc, Execute(cfg, log, desc, now, em).effect.log, n);
    }
  }

  /** What a job other than a broadcast can make of the log. */
  ghost predicate OnlyMarks(log: Entries, cmd: Job, after: Entries) {
    match cmd
    case Broadcast(_) => false
    case Close(id, _) => after == log || after == MarkClosed(log, id)
    case Acknowledge(id) => after == MarkRead(log, id)
    case Read(start, end) => Sliceable(log, start, end) && (after == log || after == ReadThrough(log, start, end))
    case _ => after == log
  }

  lemma LogAfterOthers(cfg: Config, log: Entries, desc: JobDesc, now: nat, em: Emission)
    requires Execute(cfg, log, desc, now, em).Done? && !desc.cmd.Broadcast?
    ensures OnlyMarks(log, desc.cmd, Execute(cfg, log, desc, now, em).effect.log)
  {
  }

  lemma QueryOverOthers(log: Entries, desc: JobDesc, after: Entries, n: Notification)
    requires Distinct(log) && n in log && n.closed && OnlyMarks(log, desc.cmd, after)
    ensures IsClosed(after, n.id)
  {
    FindIsMembership(log, n);
    match desc.cmd {
      case Close(other, _) => QueryOverMarks(log, other, n);
      case Acknowledge(other) => QueryOverMarks(log, other, n);
      case Read(start, end) => QueryOverRead(log, start, end, n);
      case _ =>
    }
  }

  lemma QueryOverBroadcast(cfg: Config, log: Entries, event: Notification, now: nat, n: Notification)
    requires Distinct(log) && n in log && n.closed && !event.closed && WellNumbered(log, event)
    ensures IsClosed(ExecuteBroadcast(cfg, log, event, now).log, n.id) <==>
            event.id != n.id && Evicted(cfg, log, event) != Some(n)
  {
    var after := ExecuteBroadcast(cfg, log, event, now).log;
    BroadcastEntries(cfg, log, event, now);
    ClosedAfterReplacing(log, after, event, n, Evicted(cfg, log, event));
  }

  lemma QueryOverMarks(log: Entries, other: Nid, n: Notification)
    requires Distinct(log) && n in log && n.closed
    ensures IsClosed(log, n.id) && IsClosed(MarkClosed(log, other), n.id) && IsClosed(MarkRead(log, other), n.id)
  {
    var r := n.(read := true);
    MarksTouchOneEntry(log, other, n);
    MarksTouchOneEntry(log, other, r);
    FindIsMembership(log, n);
    FindIsMembership(MarkClosed(log, other), n);
    FindIsMembership(MarkRead(log, other), if n in MarkRead(log, other) then n else r);
  }

  lemma ClosedAfterReplacing(log: Entries, after: Entries, event: Notification, n: Notification,
        evicted: Option<Notification>)
    requires Distinct(log) && Distinct(after) && n in log && n.closed && !event.closed && WellNumbered(log, event)
    requires forall m :: m in after <==> m == event || (m in log && m.id != event.id && evicted != Some(m))
    ensures IsClosed(after, n.id) <==> event.id != n.id && evicted != Some(n)
  {
    if n in after {
      FindIsMembership(after, n);
    } else if event.id == n.id {
      FindIsMembership(after, event);
    } else if HasId(after, n.id) {
      SameIdSameEntry(log, n, Find(after, n.id).value);
    }
  }

  lemma ReadEntries(log: Entries, start: Count, end: Count)
    requires Distinct(log) && Sliceable(log, start, end)
    ensures Distinct(ReadThrough(log, start, end))
    ensures forall n :: n in ReadThrough(log, start, end) ==> n in log || (n.read && n.(read := false) in log)
    ensures forall i :: 0 <= i < |log| ==>
              (if start <= i < end then log[i].(read := true) else log[i]) in ReadThrough(log, start, end)
  {
    var after := ReadThrough(log, start, end);
    ReadThroughLength(log, start, end);
    forall i | 0 <= i < |log|
      ensures after[i] == if start <= i < end then log[i].(read := true) else log[i]
      ensures (if start <= i < end then log[i].(read := true) else log[i]) in after
    {
      ReadThroughAt(log, start, end, i);
      assert after[i] in after;
    }
    forall n | n in after ensures n in log || (n.read && n.(read := false) in log) {
      var i :| 0 <= i < |after| && after[i] == n;
      MarkedOrNot(log, i, n);
    }
  }

  lemma MarkedOrNot(log: Entries, i: nat, n: Notification)
    requires i < |log| && (n == log[i] || n == log[i].(read := true))
    ensures n in log || (n.read && n.(read := false) in log)
  {
    assert log[i].read ==> log[i].(read := true) == log[i];
    assert !log[i].read ==> log[i].(read := true).(read := false) == log[i];
  }

  lemma QueryOverRead(log: Entries, start: Count, end: Count, n: Notification)
    requires Distinct(log) && n in log && n.closed && Sliceable(log, start, end)
    ensures IsClosed(ReadThrough(log, start, end), n.id) && IsClosed(log, n.id)
  {
    ReadEntries(log, start, end);
    var i :| 0 <= i < |log| && log[i] == n;
    var after := ReadThrough(log, start, end);
    var m := if start <= i < end then n.(read := true) else n;
    FindIsMembership(after, m);
    FindIsMembership(log, n);
  }

  /** The README promises that a `true` answer stays true for ever. It does not: a notification that
      replaces the closed one opens the id again. */
  lemma QueryTrueIsNotForEver(n: Notification, later: Notification, now: nat, em: Emission)
    requires n.closed && n.id != 0 && !later.closed && later.id == n.id == later.replacesId
    ensures IsClosed([n], n.id)
    ensures var desc := JobDesc(Broadcast(later), 0, NO_FLAGS);
            !IsClosed(Execute(Config(100, false, 5000), [n], desc, now, em).effect.log, n.id)
  {
    var cfg := Config(100, false, 5000);
    FindIsMembership([n], n);
    QueryOverBroadcast(cfg, [n], later, now, n);
  }
}
