/** Left alone, the daemon comes to rest: every action it takes by itself uses up some of a finite supply,
    and it never gets stuck before the supply is used up. */
module Settling {
  import opened Types
  import opened Log
  import opened Executor
  import opened System
  import opened Queueing

  /** How many further actions a job can cause, at most. An acknowledgement answers nothing; any other job may send a
      result, whose fan-out may cause an acknowledgement; a broadcast may also start one expiry thread. */
  function Weight(cmd: Job): nat {
    match cmd
    case Acknowledge(_) => 4
    case Broadcast(_) => 27
    case _ => 12
  }

  function Load(queue: seq<JobDesc>): nat {
    if queue == [] then 0 else Weight(queue[0].cmd) + Load(queue[1..])
  }

  lemma {:induction false} LoadJoin(queue: seq<JobDesc>, desc: JobDesc)
    ensures Load(queue + [desc]) == Load(queue) + Weight(desc.cmd)
  {
    if queue == [] {
      assert ([] + [desc])[1..] == [];
    } else {
      LoadJoin(queue[1..], desc);
      assert (queue + [desc])[1..] == queue[1..] + [desc];
    }
  }

  function ReplyWeight(reply: Reply): nat {
    if reply.result == Ok(None) then 0 else 8
  }

  function PhaseWeight(phase: Phase): nat {
    match phase
    case Popped(desc, _) => Weight(desc.cmd) - 1
    case Executed(_, _, reply) => 2 + ReplyWeight(reply)
    case Flushed(_, reply) => 1 + ReplyWeight(reply)
    case _ => 0
  }

  function BusWeight(bus: Bus): nat {
    Load(bus.queue) + bus.tokens + 2 * bus.owing + 2 * bus.waking
  }

  function HubWeight(hub: Hub): nat {
    31 * |hub.arrived| + 30 * |hub.inserted| + 8 * |hub.outgoing| + 7 * |hub.acks| + |hub.parcels|
  }

  /** The supply. */
  function Effort(s: State): nat {
    BusWeight(s.bus) + PhaseWeight(s.mgr.phase) + HubWeight(s.hub) + 15 * |s.timers|
    + (if s.notifying.Some? then 29 else 0)
  }

  lemma WorkWeighs(cfg: Config, log: Entries, desc: JobDesc, now: nat, em: Emission)
    requires Execute(cfg, log, desc, now, em).Done?
    ensures var effect := Execute(cfg, log, desc, now, em).effect;
            2 + ReplyWeight(effect.reply) + (if effect.timer.Some? then 15 else 0) < Weight(desc.cmd) - 1
  {
  }

  lemma PushWeighs(bus: Bus, desc: JobDesc)
    ensures BusWeight(Push(bus, desc)) == BusWeight(bus) + Weight(desc.cmd)
  {
    LoadJoin(bus.queue, desc);
  }

  /** Every internal action uses up supply. */
  lemma InternalActionsSettle(s: State, a: Action)
    requires Enabled(s, a) && !External(a) && TokensMatch(s.bus, s.mgr.phase)
    ensures Effort(Next(s, a)) < Effort(s)
  {
    if ChangeOf(s, a).Joined? {
      PushWeighs(s.bus, ChangeOf(s, a).desc);
      JoiningSettles(s, a);
    } else if Pushes(a) {
      PanicSettles(s, a);
    } else if a.Work? {
      WorkSettles(s, a.em);
    } else if a.FanOut? {
      FanOutWeighs(s.hub, a.outgoing, a.broken);
    } else if a.Unhold? {
      UnholdSettles(s, a.outgoing);
    } else if a.Deliver? || a.Register? || a.Insert? {
      HubSettles(s, a);
    } else if a.Send? {
      SendSettles(s, a.ok);
    } else {
      ManagerSettles(s, a);
    }
  }

  lemma JoiningSettles(s: State, a: Action)
    requires Enabled(s, a) && !External(a) && ChangeOf(s, a).Joined?
    requires var desc := ChangeOf(s, a).desc; BusWeight(Push(s.bus, desc)) == BusWeight(s.bus) + Weight(desc.cmd)
    ensures Effort(Next(s, a)) < Effort(s)
  {
    if a.PushRequest? || a.PushAck? {
      TaskPushSettles(s, a);
    } else {
      CallPushSettles(s, a);
    }
  }

  lemma TaskPushSettles(s: State, a: Action)
    requires Enabled(s, a) && (a.PushRequest? || a.PushAck?) && ChangeOf(s, a).Joined?
    requires var desc := ChangeOf(s, a).desc; BusWeight(Push(s.bus, desc)) == BusWeight(s.bus) + Weight(desc.cmd)
    ensures Effort(Next(s, a)) < Effort(s)
  {
    var t := Next(s, a);
    assert t == s.(hub := t.hub, bus := t.bus, clients := t.clients);
    assert BusWeight(t.bus) == BusWeight(Push(s.bus, ChangeOf(s, a).desc)) + 2;
    match a {
      case PushRequest(r) => assert |s.hub.inserted - {r}| == |s.hub.inserted| - 1;
      case PushAck(n) => assert |s.hub.acks - multiset{n}| == |s.hub.acks| - 1;
    }
  }

  lemma CallPushSettles(s: State, a: Action)
    requires Enabled(s, a) && (a.PushNotification? || a.Fire?) && ChangeOf(s, a).Joined?
    requires var desc := ChangeOf(s, a).desc; BusWeight(Push(s.bus, desc)) == BusWeight(s.bus) + Weight(desc.cmd)
    ensures Effort(Next(s, a)) < Effort(s)
  {
    var t := Next(s, a);
    assert t.hub == s.hub && t.mgr == s.mgr;
    assert BusWeight(t.bus) <= BusWeight(Push(s.bus, ChangeOf(s, a).desc)) + (if a.Fire? then 2 else 1);
    if a.Fire? {
      assert |s.timers - multiset{a.timer}| == |s.timers| - 1;
    }
  }

  /** The actions that push a job if the list can be locked. */
  predicate Pushes(a: Action) {
    a.PushNotification? || a.PushRequest? || a.Fire? || a.PushAck?
  }

  lemma PanicSettles(s: State, a: Action)
    requires Enabled(s, a) && Pushes(a) && !ChangeOf(s, a).Joined?
    ensures Effort(Next(s, a)) < Effort(s)
  {
    if a.PushRequest? || a.PushAck? {
      TaskPanicSettles(s, a);
    } else {
      CallPanicSettles(s, a);
    }
  }

  lemma TaskPanicSettles(s: State, a: Action)
    requires Enabled(s, a) && (a.PushRequest? || a.PushAck?) && s.bus.poisoned
    ensures Effort(Next(s, a)) < Effort(s)
  {
    var t := Next(s, a);
    assert t == s.(hub := t.hub);
    match a {
      case PushRequest(r) => assert |s.hub.inserted - {r}| == |s.hub.inserted| - 1;
      case PushAck(n) => assert |s.hub.acks - multiset{n}| == |s.hub.acks| - 1;
    }
  }

  lemma CallPanicSettles(s: State, a: Action)
    requires Enabled(s, a) && (a.PushNotification? || a.Fire?) && s.bus.poisoned
    ensures Effort(Next(s, a)) < Effort(s)
  {
    var t := Next(s, a);
    assert t.hub == s.hub && t.mgr == s.mgr && t.bus == s.bus.(panics := t.bus.panics);
    assert BusWeight(t.bus) == BusWeight(s.bus);
    if a.Fire? {
      assert |s.timers - multiset{a.timer}| == |s.timers| - 1;
    }
  }

  lemma WorkSettles(s: State, em: Emission)
    requires Enabled(s, Work(em))
    ensures Effort(Next(s, Work(em))) < Effort(s)
  {
    var desc := s.mgr.phase.desc;
    if Execute(Cfg(s), s.mgr.log, desc, s.clock, em).Done? {
      WorkWeighs(Cfg(s), s.mgr.log, desc, s.clock, em);
    }
  }

  lemma HubSettles(s: State, a: Action)
    requires Enabled(s, a) && (a.Deliver? || a.Register? || a.Insert?)
    ensures Effort(Next(s, a)) < Effort(s)
  {
    match a {
      case Deliver(k, _) => assert |s.hub.parcels - {k}| == |s.hub.parcels| - 1;
      case Register(r) => assert |s.hub.arrived - {r}| == |s.hub.arrived| - 1;
      case Insert(r) => InsertWeighs(s.hub, r);
    }
  }

  lemma UnholdSettles(s: State, o: Outgoing)
    requires Enabled(s, Unhold(o))
    ensures Effort(Next(s, Unhold(o))) < Effort(s)
  {
    UnholdWeighs(s, o);
    var t := TakeOff(s, o);
    assert t.bus == s.bus && t.mgr == s.mgr && t.timers == s.timers && t.notifying == s.notifying;
  }

  lemma InsertWeighs(hub: Hub, r: Request)
    requires r in hub.arrived
    ensures 31 * |hub.arrived - {r}| + 30 * |hub.inserted + {r}| < 31 * |hub.arrived| + 30 * |hub.inserted|
  {
    assert |hub.arrived - {r}| == |hub.arrived| - 1;
    assert |hub.inserted + {r}| <= |hub.inserted| + 1;
  }

  lemma FanOutWeighs(hub: Hub, o: Outgoing, broken: set<Pid>)
    requires o in hub.outgoing
    ensures HubWeight(FanOutTo(hub, o, broken)) < HubWeight(hub)
  {
    assert |hub.outgoing - multiset{o}| == |hub.outgoing| - 1;
  }

  lemma UnholdWeighs(s: State, o: Outgoing)
    requires o in s.hub.outgoing
    ensures HubWeight(TakeOff(s, o).hub) < HubWeight(s.hub)
  {
    assert |s.hub.outgoing - multiset{o}| == |s.hub.outgoing| - 1;
    if o.pid in s.hub.active {
      assert |s.hub.parcels + {Parcel(s.hub.active[o.pid], o.pid, o.reply)}| <= |s.hub.parcels| + 1;
    }
  }

  lemma ManagerSettles(s: State, a: Action)
    requires Enabled(s, a) && TokensMatch(s.bus, s.mgr.phase)
    requires a.SendToken? || a.SendExpiryToken? || a.TakeToken? || a.Pop? || a.Flush?
    ensures Effort(Next(s, a)) < Effort(s)
  {
    match a {
      case Pop => assert s.bus.queue != [];
      case _ =>
    }
  }

  lemma SendSettles(s: State, ok: bool)
    requires Enabled(s, Send(ok))
    ensures Effort(Next(s, Send(ok))) < Effort(s)
  {
    var t := Next(s, Send(ok));
    assert t.bus == s.bus && t.timers == s.timers && t.notifying == s.notifying;
    SendWeighs(s, ok);
  }

  lemma SendWeighs(s: State, ok: bool)
    requires Enabled(s, Send(ok))
    ensures var t := SendBack(s, ok);
            PhaseWeight(t.mgr.phase) + HubWeight(t.hub) < PhaseWeight(s.mgr.phase) + HubWeight(s.hub)
  {
    var o := Outgoing(s.mgr.phase.desc.pid, s.mgr.phase.reply);
    var t := SendBack(s, ok);
    assert t.hub == s.hub || t.hub == s.hub.(outgoing := s.hub.outgoing + multiset{o});
    assert |s.hub.outgoing + multiset{o}| == |s.hub.outgoing| + 1;
  }

  predicate Quiet(a: Action) {
    a.Tick? || !External(a)
  }

  function Busywork(actions: seq<Action>): nat {
    if actions == [] then 0 else (if actions[0].Tick? then 0 else 1) + Busywork(actions[1..])
  }

  /** With nothing coming in from outside, the number of actions other than ticks is bounded by the supply. */
  lemma {:induction false} QuietRunsAreShort(s: State, actions: seq<Action>, t: State)
    requires TokensMatch(s.bus, s.mgr.phase) && Steps(s, actions, t)
    requires forall i :: 0 <= i < |actions| ==> Quiet(actions[i])
    ensures Busywork(actions) + Effort(t) <= Effort(s)
    decreases actions
  {
    if actions != [] {
      var a, u := actions[0], Next(s, actions[0]);
      TokensKept(s, a);
      if a.Tick? {
        TicksAreFree(s, a);
      } else {
        InternalActionsSettle(s, a);
      }
      QuietRunsAreShort(u, actions[1..], t);
    }
  }

  lemma TicksAreFree(s: State, a: Action)
    requires Enabled(s, a) && a.Tick?
    ensures Effort(Next(s, a)) == Effort(s)
  {
  }

  /** Nothing is queued, owed, held, sleeping or on its way. */
  predicate Settled(s: State) {
    && s.notifying.None? && s.bus.queue == [] && s.bus.tokens == 0 && s.bus.owing == 0 && s.bus.waking == 0
    && s.mgr.phase.Idle?
    && s.timers == multiset{} && s.hub.arrived == {} && s.hub.inserted == {}
    && s.hub.outgoing == multiset{} && s.hub.acks == multiset{} && s.hub.parcels == {}
  }

  /** Unless it is at rest or its manager is gone, the daemon has an action of its own to take, if need be once
      the next thread's time has come: a waiting job always has its token. */
  lemma Progress(s: State) returns (a: Action)
    requires TokensMatch(s.bus, s.mgr.phase) && !Settled(s) && !s.mgr.phase.Halted?
    ensures Enabled(s, a) && Quiet(a)
    ensures a.Tick? ==> exists t :: t in s.timers && Enabled(Next(s, a), Fire(t))
  {
    if s.notifying.Some? {
      a := PushNotification;
    } else if s.hub.arrived != {} {
      var r :| r in s.hub.arrived;
      a := if r.desc.cmd.Watch? then Register(r) else Insert(r);
    } else if s.hub.inserted != {} {
      var r :| r in s.hub.inserted;
      a := PushRequest(r);
    } else if s.bus.owing > 0 {
      a := SendToken;
    } else if s.bus.waking > 0 {
      a := SendExpiryToken;
    } else if s.hub.outgoing != multiset{} {
      var o :| o in s.hub.outgoing;
      a := if o.pid == 0 then FanOut(o, {}) else Unhold(o);
    } else if s.hub.acks != multiset{} {
      var n :| n in s.hub.acks;
      a := PushAck(n);
    } else if s.hub.parcels != {} {
      var k :| k in s.hub.parcels;
      a := Deliver(k, true);
    } else if s.mgr.phase.Idle? && s.bus.tokens == 0 {
      var t :| t in s.timers;
      a := Tick(if t.wake > s.clock then t.wake - s.clock else 0);
      assert Enabled(Next(s, a), Fire(t));
    } else {
      a := match s.mgr.phase
        case Idle => TakeToken
        case Awake => Pop
        case Popped(_, _) => Work(Emitted)
        case Executed(_, _, _) => Flush
        case _ => Send(true);
    }
  }

  /** The daemon has an action of its own to take, or a thread to wait for. */
  ghost predicate CanGoOn(s: State) {
    || (exists a :: Enabled(s, a) && !External(a))
    || (exists ms, t :: t in s.timers && Enabled(Next(s, Tick(ms)), Fire(t)))
  }

  lemma {:induction false} QuietRunsGoOn(s: State, actions: seq<Action>, t: State)
    requires TokensMatch(s.bus, s.mgr.phase) && Steps(s, actions, t) && !Settled(t) && !t.mgr.phase.Halted?
    ensures CanGoOn(t)
    decreases actions
  {
    if actions == [] {
      var a := Progress(t);
      if a.Tick? {
        var e :| e in t.timers && Enabled(Next(t, a), Fire(e));
        assert Enabled(Next(t, Tick(a.ms)), Fire(e));
      }
    } else {
      TokensKept(s, actions[0]);
      QuietRunsGoOn(Next(s, actions[0]), actions[1..], t);
    }
  }

  /** So from every state there is a way to rest (or to the end of the manager) without any help from outside. */
  lemma CanSettle(s: State) returns (actions: seq<Action>, t: State)
    requires TokensMatch(s.bus, s.mgr.phase)
    ensures Steps(s, actions, t) && forall i :: 0 <= i < |actions| ==> Quiet(actions[i])
    ensures Settled(t) || t.mgr.phase.Halted?
    decreases Effort(s)
  {
    if Settled(s) || s.mgr.phase.Halted? {
      actions, t := [], s;
    } else {
      var lead, u := StepToRest(s);
      var rest;
      rest, t := CanSettle(u);
      actions := lead + rest;
      StepsPrepend(s, lead, u, rest, t);
    }
  }

  lemma StepToRest(s: State) returns (lead: seq<Action>, u: State)
    requires TokensMatch(s.bus, s.mgr.phase) && !Settled(s) && !s.mgr.phase.Halted?
    ensures Steps(s, lead, u) && forall i :: 0 <= i < |lead| ==> Quiet(lead[i])
    ensures TokensMatch(u.bus, u.mgr.phase) && Effort(u) < Effort(s)
  {
    var a := Progress(s);
    if a.Tick? {
      var e :| e in s.timers && Enabled(Next(s, a), Fire(e));
      lead, u := [a, Fire(e)], Next(Next(s, a), Fire(e));
      WaitAndFire(s, a, e);
    } else {
      lead, u := [a], Next(s, a);
      TokensKept(s, a);
      InternalActionsSettle(s, a);
      assert [a][1..] == [];
    }
  }

  lemma WaitAndFire(s: State, a: Action, e: Timer)
    requires TokensMatch(s.bus, s.mgr.phase) && a.Tick? && Enabled(Next(s, a), Fire(e))
    ensures var u := Next(Next(s, a), Fire(e));
            Steps(s, [a, Fire(e)], u) && TokensMatch(u.bus, u.mgr.phase) && Effort(u) < Effort(s)
  {
    var v := Next(s, a);
    TokensKept(s, a);
    TicksAreFree(s, a);
    TokensKept(v, Fire(e));
    InternalActionsSettle(v, Fire(e));
    TwoSteps(s, a, Fire(e));
  }

  lemma TwoSteps(s: State, a: Action, b: Action)
    requires Enabled(s, a) && Assumed(s, a) && Enabled(Next(s, a), b) && Assumed(Next(s, a), b)
    ensures Steps(s, [a, b], Next(Next(s, a), b))
  {
    assert [a, b][1..] == [b] && [b][1..] == [];
    assert Steps(Next(s, a), [b], Next(Next(s, a), b));
  }

  lemma StepsPrepend(s: State, lead: seq<Action>, u: State, rest: seq<Action>, t: State)
    requires Steps(s, lead, u) && Steps(u, rest, t)
    ensures Steps(s, lead + rest, t)
    decreases lead
  {
    if lead == [] {
      assert lead + rest == rest;
    } else {
      StepsPrepend(Next(s, lead[0]), lead[1..], u, rest, t);
      assert (lead + rest)[1..] == lead[1..] + rest;
    }
  }
}
