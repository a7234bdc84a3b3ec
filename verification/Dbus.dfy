/** The D-Bus side: it numbers the notifications and pushes jobs. */
module Dbus {
  import opened Types
  import opened Log
  import opened Executor
  import opened Shared
  import S = System

  /** What a call over D-Bus can see and change: the id counter, the job list with its lock, and the wake-up channel. */
  datatype View = View(counter: Nid, jobs: seq<JobDesc>, poisoned: bool, tokens: nat)

  datatype Outcome = Outcome(view: View, panicked: bool)

  /** `open` says whether the manager thread is there to receive the token. */
  function PushSpec(v: View, open: bool, desc: JobDesc): Outcome {
    if v.poisoned then Outcome(v, true)
    else if open then Outcome(v.(jobs := v.jobs + [desc], tokens := v.tokens + 1), false)
    else Outcome(v.(jobs := v.jobs + [desc], poisoned := true), true)
  }

  /** The counter is a u32 of a release build: it wraps. */
  function NotifySpec(v: View, open: bool, replacesId: Nid, timeout: Timeout, content: Content, now: nat): Outcome {
    var counter := if replacesId != 0 then v.counter else if v.counter + 1 == U32_LIMIT then 0 else v.counter + 1;
    var id := if replacesId != 0 then replacesId else counter;
    PushSpec(v.(counter := counter), open,
             S.BroadcastDesc(Notification(id, now, false, false, replacesId, timeout, content)))
  }

  class Notifications {
    var counter: Nid
    const list: SyncList
    const sender: Notifier

    constructor (counter: Nid, list: SyncList, sender: Notifier)
      ensures this.counter == counter && this.list == list && this.sender == sender
    {
      this.counter, this.list, this.sender := counter, list, sender;
    }

    ghost function Seen(): View
      reads this, list, sender
    {
      View(counter, list.jobs, list.poisoned, sender.tokens)
    }

    /** `panicked` is the panic of the call: the list cannot be locked, or the manager is down, and then the lock is
        held. */
    method PushJob(desc: JobDesc) returns (panicked: bool)
      modifies list, sender`tokens
      ensures Outcome(Seen(), panicked) == PushSpec(old(Seen()), sender.open, desc)
    {
      var locked := list.Lock();
      if !locked {
        return true;
      }
      list.PushBack(desc);
      var sent := sender.Send();
      if !sent {
        list.Poison();
      }
      panicked := !sent;
    }

    method Notify(replacesId: Nid, timeout: Timeout, content: Content, now: nat) returns (id: Nid, panicked: bool)
      modifies this`counter, list, sender`tokens
      ensures Outcome(Seen(), panicked) == NotifySpec(old(Seen()), sender.open, replacesId, timeout, content, now)
      ensures id == if replacesId != 0 then replacesId else counter
      ensures replacesId == 0 ==> counter == (if old(counter) + 1 == U32_LIMIT then 0 else old(counter) + 1)
      ensures replacesId != 0 ==> counter == old(counter)
      ensures !panicked ==>
                && sender.tokens == old(sender.tokens) + 1 && |list.jobs| == |old(list.jobs)| + 1
                && list.jobs[..|old(list.jobs)|] == old(list.jobs)
                && var desc := list.jobs[|old(list.jobs)|];
                   && desc.pid == 0 && desc.flags == 0 && desc.cmd.Broadcast?
                   && var n := desc.cmd.event;
                      && n.id == id && n.replacesId == replacesId && n.timeout == timeout && n.content == content
                      && n.time == now && !n.read && !n.closed
    {
      if replacesId == 0 {
        counter := (counter + 1) % U32_LIMIT;
        id := counter;
      } else {
        id := replacesId;
      }
      panicked :=
        PushJob(JobDesc(Broadcast(Notification(id, now, false, false, replacesId, timeout, content)), 0, NO_FLAGS));
    }

    method CloseNotification(nid: Nid) returns (panicked: bool)
      modifies list, sender`tokens
      ensures Outcome(Seen(), panicked) == PushSpec(old(Seen()), sender.open, S.CloseCallDesc(nid))
      ensures !panicked ==>
                list.jobs == old(list.jobs) + [JobDesc(Close(nid, CallCloseNotification), 0, 0)]
    {
      panicked := PushJob(JobDesc(Close(nid, CallCloseNotification), 0, NO_FLAGS));
    }
  }

  // ---------------------------------------------------------------- the methods and the actions of the system

  function SeenOf(s: S.State): View {
    View(s.counter, s.bus.queue, s.bus.poisoned, s.bus.tokens)
  }

  /** Everything that a call over D-Bus has nothing to do with. */
  predicate OnlyTheBusMoved(s: S.State, t: S.State) {
    && t == s.(counter := t.counter, bus := t.bus, calls := t.calls)
    && t.bus.owing == s.bus.owing && t.bus.waking == s.bus.waking
  }

  /** `Notify` is two actions of the system, in every state of it: the id is taken, then the job is pushed. */
  lemma NotifyIsTheBusActions(s: S.State, replacesId: Nid, timeout: Timeout, content: Content)
    requires s.notifying.None?
    ensures var t := S.Next(S.Next(s, S.Notify(replacesId, timeout, content)), S.PushNotification);
            && NotifySpec(SeenOf(s), !S.Gone(s), replacesId, timeout, content, s.clock)
               == Outcome(SeenOf(t), t.bus.panics > s.bus.panics)
            && OnlyTheBusMoved(s, t)
  {
  }

  /** `CloseNotification` is one. */
  lemma CloseIsTheBusAction(s: S.State, id: Nid)
    requires s.notifying.None?
    ensures var t := S.Next(s, S.CloseCall(id));
            && PushSpec(SeenOf(s), !S.Gone(s), S.CloseCallDesc(id)) == Outcome(SeenOf(t), t.bus.panics > s.bus.panics)
            && OnlyTheBusMoved(s, t)
  {
  }

  /** Closing over D-Bus carries reason 3 of the protocol and no flags, so it never stops the manager. */
  lemma CloseCallsAreHarmless(cfg: Config, log: Entries, id: Nid, now: nat, em: Emission)
    ensures S.CloseCallDesc(id) == JobDesc(Close(id, CallCloseNotification), 0, 0)
    ensures Execute(cfg, log, S.CloseCallDesc(id), now, em).Done?
  {
    PanicsExactly(cfg, log, S.CloseCallDesc(id), now, em);
  }

  /** A fresh id is larger than every id handed out before exactly as long as the counter does not run over. */
  lemma FreshIdExactly(s: S.State, timeout: Timeout, content: Content)
    ensures S.NewNotification(s, 0, timeout, content).id > s.counter <==> s.counter + 1 < U32_LIMIT
    ensures S.NewNotification(s, 0, timeout, content).id != 0 <==> s.counter + 1 < U32_LIMIT
  {
  }
}
