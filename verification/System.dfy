/** The running daemon as a transition system. One action is one atomic thing that one thread does: the D-Bus
    thread, a listener task, the manager thread, an expiry thread, a client, or the clock. Between any two
    actions of one thread all the others may act. */
module System {
  import opened Types
  import opened Log
  import opened Executor
  import opened History

  // ---------------------------------------------------------------- state

  /** Why the manager thread is gone: it woke to an empty list or to one it could not lock, a job stopped it, or a
      result could not be sent. */
  datatype Halt = QueueEmpty | ListPoisoned | JobPanicked(desc: JobDesc) | SendFailed(desc: JobDesc, reply: Reply)

  /** Where the manager thread is in its loop. `empty` is what it saw of the queue when it popped. */
  datatype Phase =
    | Idle
    | Awake
    | Popped(desc: JobDesc, empty: bool)
    | Executed(desc: JobDesc, empty: bool, reply: Reply)
    | Flushed(desc: JobDesc, reply: Reply)
    | Halted(why: Halt)

  /** `session` records the loaded log and all executions since, and `saved` how many of them the disk holds; the
      program itself keeps neither. */
  datatype Manager = Manager(phase: Phase, log: Entries, dirty: bool, disk: Entries, session: Session, saved: nat)

  /** The shared job list with its wake-up channel. `owing` and `waking` count the listener tasks and the expiry
      threads that have pushed a job and not yet sent its token. The list is `poisoned` once a thread has panicked
      with the lock on it. `pushed` records every job ever pushed, `causes` for each acknowledgement what it
      acknowledges, and `panics` counts D-Bus calls and expiry threads that panicked. */
  datatype Bus = Bus(queue: seq<JobDesc>, tokens: nat, owing: nat, waking: nat, poisoned: bool, pushed: seq<JobDesc>,
                     causes: seq<Option<Notification>>, panics: nat)

  type Conn = nat

  datatype Request = Request(conn: Conn, desc: JobDesc)

  /** A result on its way from the manager to the listener. */
  datatype Outgoing = Outgoing(pid: Pid, reply: Reply)

  /** A reply taken off the table of held connections, about to be written. */
  datatype Parcel = Parcel(conn: Conn, pid: Pid, reply: Reply)

  datatype Watcher = Watcher(conn: Conn, flags: Flags)

  /** The listener: requests that have arrived, requests whose connection is held but whose job is not pushed yet, those
      whose task panicked in between, held connections, watchers, results coming back, notifications about to be
      acknowledged, replies about to be written, and how many of its tasks have panicked. `fanned` records the results
      fanned out, and `heard` the notifications among them that a watcher who stayed and is not silent has got. */
  datatype Hub = Hub(arrived: set<Request>, inserted: set<Request>, lost: set<Request>, active: map<Pid, Conn>,
                     watchers: map<Pid, Watcher>, outgoing: multiset<Outgoing>, acks: multiset<Notification>,
                     parcels: set<Parcel>, panics: nat, fanned: multiset<Outgoing>, heard: set<Notification>)

  datatype Stage = Arriving | Inserting | Queueing | Running | Returning | Delivering

  datatype Ticket = Ticket(conn: Conn, desc: JobDesc, stage: Stage)

  /** The reply to a request, and which execution of the session produced it. */
  datatype Answer = Answer(run: nat, reply: Reply)

  /** A reply that was written to a connection, and whether all of it got there. */
  datatype Delivery = Delivery(conn: Conn, reply: Reply, ok: bool)

  /** The client side: which process waits for which request, and a record of what was asked, what the manager
      answered, and what was written back. `stage` only records where a request is. */
  datatype Clients = Clients(nextConn: Conn, waiting: map<Pid, Ticket>, asked: map<Conn, JobDesc>,
                             answers: map<Conn, Answer>, delivered: seq<Delivery>)

  /** A call that came in over D-Bus, and when. */
  datatype BusCall =
    | Notified(replacesId: Nid, timeout: Timeout, content: Content, time: nat)
    | CloseAsked(id: Nid)

  /** `notifying` is a D-Bus notification that has its id and time but is not pushed yet. `calls` records the calls that
      came in over D-Bus. */
  datatype State = State(clock: nat, counter: Nid, notifying: Option<Notification>, bus: Bus, mgr: Manager,
                         timers: multiset<Timer>, hub: Hub, clients: Clients, calls: seq<BusCall>)

  function Cfg(s: State): Config {
    s.mgr.session.cfg
  }

  /** The manager thread has ended, and the receiving end of the wake-up channel with it. */
  predicate Gone(s: State) {
    s.mgr.phase.Halted?
  }

  // ---------------------------------------------------------------- actions

  datatype Action =
    // the outside world
    | Tick(ms: nat)
    | Notify(replacesId: Nid, timeout: Timeout, content: Content)
    | CloseCall(id: Nid)
    | Connect(desc: JobDesc)
    | Restart(cfg: Config)
    // the D-Bus thread
    | PushNotification
    // listener tasks for requests
    | Register(request: Request)
    | Insert(request: Request)
    | PushRequest(request: Request)
    // listener tasks and expiry threads that have pushed
    | SendToken
    | SendExpiryToken
    // the manager thread
    | TakeToken
    | Pop
    | Work(em: Emission)
    | Flush
    | Send(ok: bool)
    // expiry threads
    | Fire(timer: Timer)
    // listener tasks for results
    | FanOut(outgoing: Outgoing, broken: set<Pid>)
    | PushAck(notification: Notification)
    | Unhold(outgoing: Outgoing)
    | Deliver(parcel: Parcel, ok: bool)

  predicate External(a: Action) {
    a.Tick? || a.Notify? || a.CloseCall? || a.Connect? || a.Restart?
  }

  function CloseCallDesc(id: Nid): JobDesc {
    JobDesc(Close(id, CallCloseNotification), 0, NO_FLAGS)
  }

  function ExpiryDesc(id: Nid): JobDesc {
    JobDesc(Close(id, Expired), 0, NO_FLAGS)
  }

  function AckDesc(id: Nid): JobDesc {
    JobDesc(Acknowledge(id), 0, NO_FLAGS)
  }

  function BroadcastDesc(n: Notification): JobDesc {
    JobDesc(Broadcast(n), 0, NO_FLAGS)
  }

  /** What the program can do next. */
  predicate Enabled(s: State, a: Action) {
    match a
    case Tick(_) => true
    case Notify(_, _, _) => s.notifying.None?
    case CloseCall(_) => s.notifying.None?
    case Connect(_) => true
    case Restart(_) => true
    case PushNotification => s.notifying.Some?
    case Register(r) => r in s.hub.arrived && r.desc.cmd.Watch?
    case Insert(r) => r in s.hub.arrived && !r.desc.cmd.Watch?
    case PushRequest(r) => r in s.hub.inserted
    case SendToken => s.bus.owing > 0
    case SendExpiryToken => s.bus.waking > 0
    case TakeToken => s.mgr.phase.Idle? && s.bus.tokens > 0
    case Pop => s.mgr.phase.Awake?
    case Work(_) => s.mgr.phase.Popped?
    case Flush => s.mgr.phase.Executed?
    case Send(_) => s.mgr.phase.Flushed?
    case Fire(t) => t in s.timers && t.wake <= s.clock
    case FanOut(o, _) => o in s.hub.outgoing && o.pid == 0
    case PushAck(n) => n in s.hub.acks
    case Unhold(o) => o in s.hub.outgoing && o.pid != 0
    case Deliver(p, _) => p in s.hub.parcels
  }

  /** The requests the command line sends: signals under process id 0, queries, reads and watches under the
      process's own id. */
  predicate FromCommandLine(desc: JobDesc) {
    match desc.cmd
    case Close(_, reason) => desc.pid == 0 && reason == Dismissed
    case ActionInvoked(_, _) => desc.pid == 0
    case ActivationToken(_, _) => desc.pid == 0
    case Read(_, _) => desc.pid != 0
    case Query(_) => desc.pid != 0
    case Watch => desc.pid != 0
    case _ => false
  }

  /** What the daemon relies on from its clients: a replaced id was handed out before, the id counter does not run
      over, requests come from the command line, and a process that waits for a reply does not ask again. */
  predicate Assumed(s: State, a: Action) {
    match a
    case Notify(replacesId, _, _) => if replacesId == 0 then s.counter + 1 < U32_LIMIT else replacesId <= s.counter
    case Connect(desc) => FromCommandLine(desc) && desc.pid !in s.clients.waiting
    case _ => true
  }

  // ---------------------------------------------------------------- effects

  function Push(bus: Bus, desc: JobDesc): Bus {
    bus.(queue := bus.queue + [desc], pushed := bus.pushed + [desc], causes := bus.causes + [None])
  }

  function PushAckOwing(bus: Bus, n: Notification): Bus {
    var desc := AckDesc(n.id);
    bus.(queue := bus.queue + [desc], pushed := bus.pushed + [desc], causes := bus.causes + [Some(n)],
         owing := bus.owing + 1)
  }

  function PushWithToken(bus: Bus, desc: JobDesc): Bus {
    Push(bus, desc).(tokens := bus.tokens + 1)
  }

  function PushOwing(bus: Bus, desc: JobDesc): Bus {
    Push(bus, desc).(owing := bus.owing + 1)
  }

  /** The D-Bus thread sends the token before it lets go of the list, so that it poisons the list if there is nobody to
      receive the token. It cannot take a list that is poisoned already. */
  function Call(bus: Bus, gone: bool, desc: JobDesc): Bus {
    if bus.poisoned then bus.(panics := bus.panics + 1)
    else if gone then Push(bus, desc).(poisoned := true, panics := bus.panics + 1)
    else PushWithToken(bus, desc)
  }

  /** An expiry thread can panic at the lock, but does not care what becomes of its token. */
  function Ring(bus: Bus, id: Nid): Bus {
    if bus.poisoned then bus.(panics := bus.panics + 1) else Push(bus, ExpiryDesc(id)).(waking := bus.waking + 1)
  }

  function EnterRequest(s: State, r: Request): State {
    var rest := s.hub.(inserted := s.hub.inserted - {r});
    if s.bus.poisoned then s.(hub := rest.(lost := s.hub.lost + {r}, panics := s.hub.panics + 1))
    else s.(hub := rest, bus := PushOwing(s.bus, r.desc), clients := Advance(s.clients, r.desc.pid, Queueing))
  }

  function EnterAck(s: State, n: Notification): State {
    var rest := s.hub.(acks := s.hub.acks - multiset{n});
    if s.bus.poisoned then s.(hub := rest.(panics := s.hub.panics + 1))
    else s.(hub := rest, bus := PushAckOwing(s.bus, n))
  }

  /** A listener task whose token nobody receives panics. */
  function SettleToken(s: State): State
    requires s.bus.owing > 0
  {
    var rest := s.bus.(owing := s.bus.owing - 1);
    if Gone(s) then s.(bus := rest, hub := s.hub.(panics := s.hub.panics + 1))
    else s.(bus := rest.(tokens := s.bus.tokens + 1))
  }

  function SettleExpiryToken(s: State): State
    requires s.bus.waking > 0
  {
    var rest := s.bus.(waking := s.bus.waking - 1);
    if Gone(s) then s.(bus := rest) else s.(bus := rest.(tokens := s.bus.tokens + 1))
  }

  function Advance(c: Clients, pid: Pid, stage: Stage): Clients {
    if pid in c.waiting then c.(waiting := c.waiting[pid := c.waiting[pid].(stage := stage)]) else c
  }

  function NewNotification(s: State, replacesId: Nid, timeout: Timeout, content: Content): Notification {
    var id := if replacesId == 0 then (s.counter + 1) % U32_LIMIT else replacesId;
    Notification(id, s.clock, false, false, replacesId, timeout, content)
  }

  function Accept(s: State, desc: JobDesc): State {
    var conn := s.clients.nextConn;
    var waiting := if desc.pid != 0 && !desc.cmd.Watch?
                   then s.clients.waiting[desc.pid := Ticket(conn, desc, Arriving)]
                   else s.clients.waiting;
    s.(hub := s.hub.(arrived := s.hub.arrived + {Request(conn, desc)}),
       clients := s.clients.(nextConn := conn + 1, waiting := waiting, asked := s.clients.asked[conn := desc]))
  }

  /** A fresh process over the stored log. */
  function Boot(cfg: Config, stored: Entries, clock: nat, nextConn: Conn): State {
    State(clock, MaxId(stored), None, Bus([], 0, 0, 0, false, [], [], 0),
          Manager(Idle, stored, false, stored, Session(cfg, stored, []), 0), multiset{},
          Hub({}, {}, {}, map[], map[], multiset{}, multiset{}, {}, 0, multiset{}, {}),
          Clients(nextConn, map[], map[], map[], []), [])
  }

  function PopJob(s: State): State {
    if s.bus.poisoned then s.(mgr := s.mgr.(phase := Halted(ListPoisoned)))
    else if s.bus.queue == [] then s.(mgr := s.mgr.(phase := Halted(QueueEmpty)))
    else
      var desc := s.bus.queue[0];
      var rest := s.bus.queue[1..];
      s.(bus := s.bus.(queue := rest), mgr := s.mgr.(phase := Popped(desc, rest == [])),
         clients := Advance(s.clients, desc.pid, Running))
  }

  function WorkOn(s: State, em: Emission): State
    requires s.mgr.phase.Popped?
  {
    var desc := s.mgr.phase.desc;
    match Execute(Cfg(s), s.mgr.log, desc, s.clock, em)
    case Panic => s.(mgr := s.mgr.(phase := Halted(JobPanicked(desc))))
    case Done(effect) =>
      s.(mgr := s.mgr.(phase := Executed(desc, s.mgr.phase.empty, effect.reply), log := effect.log,
                       dirty := s.mgr.dirty || effect.touched,
                       session := Extend(s.mgr.session, Execution(desc, s.clock, em))),
         timers := if effect.timer.Some? then s.timers + multiset{effect.timer.value} else s.timers,
         clients := if desc.pid in s.clients.waiting
                    then s.clients.(answers := s.clients.answers[s.clients.waiting[desc.pid].conn :=
                                                                   Answer(|s.mgr.session.runs|, effect.reply)])
                    else s.clients)
  }

  function FlushLog(mgr: Manager): Manager
    requires mgr.phase.Executed?
  {
    var next := Flushed(mgr.phase.desc, mgr.phase.reply);
    if mgr.phase.empty && mgr.dirty
    then mgr.(phase := next, dirty := false, disk := mgr.log, saved := |mgr.session.runs|)
    else mgr.(phase := next)
  }

  /** Connecting to the listener, or writing to it, may fail, and that is the end of the manager thread. */
  function SendBack(s: State, ok: bool): State
    requires s.mgr.phase.Flushed?
  {
    var desc, reply := s.mgr.phase.desc, s.mgr.phase.reply;
    var idle := s.mgr.(phase := Idle);
    if reply.result == Ok(None) then s.(mgr := idle)
    else if !ok then s.(mgr := s.mgr.(phase := Halted(SendFailed(desc, reply))))
    else s.(mgr := idle, hub := s.hub.(outgoing := s.hub.outgoing + multiset{Outgoing(desc.pid, reply)}),
            clients := Advance(s.clients, desc.pid, Returning))
  }

  /** What the listener recognises as the text of results (see `Wire` for the text itself). */
  predicate IsResults(reply: Reply) {
    reply.typ.Results? && reply.result.Ok? && reply.result.value.Some?
  }

  function Survivors(watchers: map<Pid, Watcher>, broken: set<Pid>): map<Pid, Watcher> {
    watchers - broken
  }

  predicate SomeoneReads(watchers: map<Pid, Watcher>) {
    exists p :: p in watchers && !Silent(watchers[p].flags)
  }

  function FanOutTo(hub: Hub, o: Outgoing, broken: set<Pid>): Hub {
    var left := Survivors(hub.watchers, broken);
    var rest := hub.(outgoing := hub.outgoing - multiset{o}, watchers := left, fanned := hub.fanned + multiset{o});
    if SomeoneReads(left) && IsResults(o.reply) then
      if o.reply.result.value.value.OneJson? then
        var n := o.reply.result.value.value.notification;
        rest.(acks := hub.acks + multiset{n}, heard := hub.heard + {n})
      else rest.(panics := hub.panics + 1)
    else rest
  }

  function TakeOff(s: State, o: Outgoing): State {
    var rest := s.hub.(outgoing := s.hub.outgoing - multiset{o}, active := s.hub.active - {o.pid});
    if o.pid in s.hub.active
    then s.(hub := rest.(parcels := s.hub.parcels + {Parcel(s.hub.active[o.pid], o.pid, o.reply)}),
            clients := Advance(s.clients, o.pid, Delivering))
    else s.(hub := rest.(panics := s.hub.panics + 1))
  }

  function Next(s: State, a: Action): State
    requires Enabled(s, a)
  {
    match a
    case Tick(ms) => s.(clock := s.clock + ms)
    case Notify(replacesId, timeout, content) =>
      var n := NewNotification(s, replacesId, timeout, content);
      s.(notifying := Some(n), counter := if replacesId == 0 then n.id else s.counter,
         calls := s.calls + [Notified(replacesId, timeout, content, s.clock)])
    case CloseCall(id) =>
      s.(bus := Call(s.bus, Gone(s), CloseCallDesc(id)), calls := s.calls + [CloseAsked(id)])
    case Connect(desc) => Accept(s, desc)
    case Restart(cfg) => Boot(cfg, s.mgr.disk, s.clock, s.clients.nextConn)
    case PushNotification =>
      s.(notifying := None, bus := Call(s.bus, Gone(s), BroadcastDesc(s.notifying.value)))
    case Register(r) =>
      s.(hub := s.hub.(arrived := s.hub.arrived - {r},
            watchers := s.hub.watchers[r.desc.pid := Watcher(r.conn, r.desc.flags)]))
    case Insert(r) =>
      s.(hub := s.hub.(arrived := s.hub.arrived - {r}, inserted := s.hub.inserted + {r},
            active := s.hub.active[r.desc.pid := r.conn]),
         clients := Advance(s.clients, r.desc.pid, Inserting))
    case PushRequest(r) => EnterRequest(s, r)
    case SendToken => SettleToken(s)
    case SendExpiryToken => SettleExpiryToken(s)
    case TakeToken => s.(bus := s.bus.(tokens := s.bus.tokens - 1), mgr := s.mgr.(phase := Awake))
    case Pop => PopJob(s)
    case Work(em) => WorkOn(s, em)
    case Flush => s.(mgr := FlushLog(s.mgr))
    case Send(ok) => SendBack(s, ok)
    case Fire(t) => s.(timers := s.timers - multiset{t}, bus := Ring(s.bus, t.id))
    case FanOut(o, broken) => s.(hub := FanOutTo(s.hub, o, broken))
    case PushAck(n) => EnterAck(s, n)
    case Unhold(o) => TakeOff(s, o)
    case Deliver(p, ok) =>
      s.(hub := s.hub.(parcels := s.hub.parcels - {p}),
         clients := s.clients.(waiting := s.clients.waiting - {p.pid},
               delivered := s.clients.delivered + [Delivery(p.conn, p.reply, ok)]))
  }

  // ---------------------------------------------------------------- runs

  /** The daemon starts over a stored log whose ids are distinct and not zero. */
  ghost predicate Initial(s: State) {
    && s == Boot(Cfg(s), s.mgr.disk, s.clock, s.clients.nextConn)
    && Distinct(s.mgr.disk)
    && !HasId(s.mgr.disk, 0)
  }

  ghost predicate Steps(s: State, actions: seq<Action>, t: State)
    decreases actions
  {
    if actions == [] then s == t
    else Enabled(s, actions[0]) && Assumed(s, actions[0]) && Steps(Next(s, actions[0]), actions[1..], t)
  }

  ghost predicate Reachable(t: State) {
    exists s, actions :: Initial(s) && Steps(s, actions, t)
  }

  lemma {:induction false} StepsOneMore(s: State, actions: seq<Action>, t: State, a: Action)
    requires Steps(s, actions, t) && Enabled(t, a) && Assumed(t, a)
    ensures Steps(s, actions + [a], Next(t, a))
    decreases actions
  {
    if actions == [] {
      assert [a][1..] == [];
    } else {
      StepsOneMore(Next(s, actions[0]), actions[1..], t, a);
      assert (actions + [a])[1..] == actions[1..] + [a];
    }
  }
}
