/** What came in over D-Bus is what is pushed, in the same order and with everything the caller gave. */
module Calls {
  import opened Types
  import opened History
  import opened System
  import opened Queueing
  import opened Numbering

  /** The call over D-Bus that a job stands for, if any. */
  function CallOf(desc: JobDesc): seq<BusCall> {
    match desc.cmd
    case Broadcast(n) => [Notified(n.replacesId, n.timeout, n.content, n.time)]
    case Close(id, reason) => if reason == CallCloseNotification then [CloseAsked(id)] else []
    case _ => []
  }

  function CallsOf(pushed: seq<JobDesc>): seq<BusCall> {
    if pushed == [] then [] else CallsOf(pushed[..|pushed| - 1]) + CallOf(pushed[|pushed| - 1])
  }

  lemma CallsOneMore(pushed: seq<JobDesc>, desc: JobDesc)
    ensures CallsOf(pushed + [desc]) == CallsOf(pushed) + CallOf(desc)
  {
    var more := pushed + [desc];
    assert more[..|more| - 1] == pushed;
  }

  lemma {:induction false} CallIsAmong(pushed: seq<JobDesc>, i: nat, call: BusCall)
    requires i < |pushed| && call in CallOf(pushed[i])
    ensures call in CallsOf(pushed)
  {
    if i < |pushed| - 1 {
      CallIsAmong(pushed[..|pushed| - 1], i, call);
    }
  }

  function Pending(notifying: Option<Notification>): seq<BusCall> {
    if notifying.Some? then CallOf(BroadcastDesc(notifying.value)) else []
  }

  /** The jobs pushed for calls over D-Bus, and the notification in the D-Bus thread's hand, are the calls that came
      in, in their order. Once nobody can lock the list, the calls that came in before are. */
  ghost predicate Told(s: State) {
    && CallsOf(s.bus.pushed) <= s.calls
    && (!s.bus.poisoned ==> CallsOf(s.bus.pushed) + Pending(s.notifying) == s.calls)
  }

  lemma ToldKept(s: State, a: Action)
    requires Enabled(s, a) && Shaped(s) && Told(s)
    ensures Told(Next(s, a))
  {
    if a.Notify? {
      ToldNotify(s, a.replacesId, a.timeout, a.content);
    } else if a.CloseCall? || a.PushNotification? {
      ToldCall(s, a);
    } else if !a.Restart? {
      LineChanges(s, a);
      CallsStay(s, a);
      OthersAreNoCalls(s, a);
      ToldStill(s, Next(s, a), ChangeOf(s, a));
    }
  }

  lemma ToldStill(s: State, t: State, change: LineChange)
    requires Told(s) && t.calls == s.calls && t.notifying == s.notifying && t.bus.poisoned == s.bus.poisoned
    requires t.bus.pushed == if change.Joined? then s.bus.pushed + [change.desc] else s.bus.pushed
    requires change.Joined? ==> CallOf(change.desc) == []
    ensures Told(t)
  {
    if change.Joined? {
      CallsOneMore(s.bus.pushed, change.desc);
    }
  }

  lemma ToldNotify(s: State, replacesId: Nid, timeout: Timeout, content: Content)
    requires Enabled(s, Notify(replacesId, timeout, content)) && Told(s)
    ensures Told(Next(s, Notify(replacesId, timeout, content)))
  {
    var t := Next(s, Notify(replacesId, timeout, content));
    assert t.bus == s.bus && t.calls == s.calls + [Notified(replacesId, timeout, content, s.clock)];
    assert Pending(s.notifying) == [];
  }

  lemma ToldCall(s: State, a: Action)
    requires Enabled(s, a) && Told(s) && (a.CloseCall? || a.PushNotification?)
    ensures Told(Next(s, a))
  {
    var t := Next(s, a);
    var desc := if a.CloseCall? then CloseCallDesc(a.id) else BroadcastDesc(s.notifying.value);
    assert t.calls == if a.CloseCall? then s.calls + [CloseAsked(a.id)] else s.calls;
    if s.bus.poisoned {
      assert t.bus.pushed == s.bus.pushed;
    } else {
      assert t.bus.pushed == s.bus.pushed + [desc] && t.notifying.None?;
      CallsOneMore(s.bus.pushed, desc);
    }
  }

  /** No other action is a call or pushes one. */
  lemma CallsStay(s: State, a: Action)
    requires Enabled(s, a) && Shaped(s) && !a.Notify? && !a.CloseCall? && !a.PushNotification? && !a.Restart?
    ensures var t := Next(s, a);
            t.calls == s.calls && t.notifying == s.notifying && t.bus.poisoned == s.bus.poisoned
  {
  }

  lemma OthersAreNoCalls(s: State, a: Action)
    requires Enabled(s, a) && Shaped(s) && !a.Notify? && !a.CloseCall? && !a.PushNotification? && !a.Restart?
    ensures ChangeOf(s, a).Joined? ==> CallOf(ChangeOf(s, a).desc) == []
  {
  }

  /** An entry broadcast in this session has the timeout, the content and the time of a call that came in. */
  lemma EntryIsACall(s: State, n: Notification, k: nat)
    requires Replayed(s.mgr) && Conserved(s) && Told(s)
    requires n in s.mgr.log && LastPost(s.mgr.session, |s.mgr.session.runs|, n.id) == Some(k)
    ensures Notified(n.replacesId, n.timeout, n.content, n.time) in s.calls
  {
    var o := LogRefinesHistory(s.mgr.session, |s.mgr.session.runs|, n);
    var i: nat := k;
    assert Descs(s.mgr.session.runs)[i] == s.mgr.session.runs[i].desc;
    assert s.bus.pushed[i] == s.mgr.session.runs[i].desc;
    CallIsAmong(s.bus.pushed, i, Notified(n.replacesId, n.timeout, n.content, n.time));
    PrefixHas(CallsOf(s.bus.pushed), s.calls, Notified(n.replacesId, n.timeout, n.content, n.time));
  }

  lemma PrefixHas(prefix: seq<BusCall>, all: seq<BusCall>, call: BusCall)
    requires prefix <= all && call in prefix
    ensures call in all
  {
    var i :| 0 <= i < |prefix| && prefix[i] == call;
    assert all[i] == call;
  }

  // ---------------------------------------------------------------- all jobs ever pushed

  /** Only jobs the daemon makes and jobs the command line sends are ever pushed. */
  ghost predicate PushedAreExpected(s: State) {
    AllExpected(s.bus.pushed)
  }

  lemma PushedAreExpectedKept(s: State, a: Action)
    requires Enabled(s, a) && Assumed(s, a) && Shaped(s) && PushedAreExpected(s)
    ensures PushedAreExpected(Next(s, a))
  {
    LineChanges(s, a);
    match ChangeOf(s, a) {
      case Joined(desc) => assert Expected(desc);
      case _ =>
    }
  }

  lemma ExecutedAreExpected(s: State, j: nat)
    requires Conserved(s) && PushedAreExpected(s) && j < |s.mgr.session.runs|
    ensures Expected(s.mgr.session.runs[j].desc)
  {
    assert Descs(s.mgr.session.runs)[j] == s.mgr.session.runs[j].desc;
    assert s.bus.pushed[j] == s.mgr.session.runs[j].desc;
  }
}
