/** Every read and every query gets exactly one reply, its own, on the connection it came in on. */
module Routing {
  import opened Types
  import opened Log
  import opened Executor
  import opened History
  import opened System
  import opened Queueing
  import opened Numbering

  type Tickets = map<Pid, Ticket>

  predicate Holds(w: Tickets, pid: Pid, desc: JobDesc, stage: Stage) {
    pid in w && w[pid].desc == desc && w[pid].stage == stage
  }

  ghost predicate Own(w: Tickets) {
    0 !in w && forall p :: p in w ==> w[p].desc.pid == p && Asked(w[p].desc)
  }

  /** Waiting processes wait for a request of their own on a connection of their own. */
  ghost predicate Ticketed(c: Clients) {
    && Own(c.waiting)
    && (forall p :: p in c.waiting ==>
          && c.waiting[p].conn in c.asked && c.asked[c.waiting[p].conn] == c.waiting[p].desc)
    && (forall k :: k in c.asked ==> k < c.nextConn)
  }

  ghost predicate ArrivedMatch(arrived: set<Request>, w: Tickets) {
    && (forall r :: r in arrived && r.desc.pid != 0 && !r.desc.cmd.Watch? ==>
          Holds(w, r.desc.pid, r.desc, Arriving) && w[r.desc.pid].conn == r.conn)
    && (forall p :: p in w && w[p].stage.Arriving? ==> Request(w[p].conn, w[p].desc) in arrived)
  }

  /** A request whose task has panicked stays where it was. */
  ghost predicate InsertedMatch(inserted: set<Request>, lost: set<Request>, w: Tickets) {
    && (forall r :: r in inserted && r.desc.pid != 0 ==>
          r !in lost && Holds(w, r.desc.pid, r.desc, Inserting) && w[r.desc.pid].conn == r.conn)
    && (forall r :: r in lost && r.desc.pid != 0 ==>
          Holds(w, r.desc.pid, r.desc, Inserting) && w[r.desc.pid].conn == r.conn)
    && (forall p :: p in w && w[p].stage.Inserting? ==>
          Request(w[p].conn, w[p].desc) in inserted || Request(w[p].conn, w[p].desc) in lost)
  }

  ghost predicate QueueMatch(queue: seq<JobDesc>, w: Tickets) {
    && (forall i :: 0 <= i < |queue| && queue[i].pid != 0 ==> Holds(w, queue[i].pid, queue[i], Queueing))
    && (forall i, j :: 0 <= i < j < |queue| && queue[i].pid != 0 ==> queue[i].pid != queue[j].pid)
    && (forall p :: p in w && w[p].stage.Queueing? ==> w[p].desc in queue)
  }

  /** The job the manager is busy with. */
  function Busy(phase: Phase): Option<JobDesc> {
    match phase
    case Popped(desc, _) => Some(desc)
    case Executed(desc, _, _) => Some(desc)
    case Flushed(desc, _) => Some(desc)
    case Halted(JobPanicked(desc)) => Some(desc)
    case Halted(SendFailed(desc, _)) => Some(desc)
    case _ => None
  }

  /** The result of the job the manager is busy with. */
  function ResultOf(phase: Phase): Option<Reply> {
    match phase
    case Executed(_, _, reply) => Some(reply)
    case Flushed(_, reply) => Some(reply)
    case Halted(SendFailed(_, reply)) => Some(reply)
    case _ => None
  }

  ghost predicate PhaseMatch(phase: Phase, w: Tickets, answers: map<Conn, Answer>) {
    && (Busy(phase).Some? && Busy(phase).value.pid != 0 ==> Holds(w, Busy(phase).value.pid, Busy(phase).value, Running))
    && (forall p :: p in w && w[p].stage.Running? ==>
          && Busy(phase) == Some(w[p].desc)
          && (w[p].conn in answers <==> ResultOf(phase).Some?)
          && (ResultOf(phase).Some? ==> answers[w[p].conn].reply == ResultOf(phase).value))
  }

  ghost predicate OutgoingMatch(outgoing: multiset<Outgoing>, w: Tickets, answers: map<Conn, Answer>) {
    && (forall o :: o in outgoing && o.pid != 0 ==>
          && o.pid in w && w[o.pid].stage.Returning? && w[o.pid].conn in answers
          && o.reply == answers[w[o.pid].conn].reply && outgoing[o] == 1)
    && (forall p :: p in w && w[p].stage.Returning? ==>
          w[p].conn in answers && Outgoing(p, answers[w[p].conn].reply) in outgoing)
  }

  ghost predicate ParcelsMatch(parcels: set<Parcel>, w: Tickets, answers: map<Conn, Answer>) {
    && (forall k :: k in parcels ==>
          && k.pid in w && w[k.pid].stage.Delivering? && w[k.pid].conn == k.conn
          && k.conn in answers && k.reply == answers[k.conn].reply)
    && (forall p :: p in w && w[p].stage.Delivering? ==>
          w[p].conn in answers && Parcel(w[p].conn, p, answers[w[p].conn].reply) in parcels)
  }

  predicate Held(stage: Stage) {
    stage.Inserting? || stage.Queueing? || stage.Running? || stage.Returning?
  }

  /** The table of held connections: a non-zero process is in it exactly while its request is inserted, queued,
      running or on its way back, and it holds the connection that the request came in on. */
  ghost predicate ActiveMatch(active: map<Pid, Conn>, w: Tickets) {
    forall p: Pid :: p != 0 ==>
      && (p in active <==> p in w && Held(w[p].stage))
      && (p in active ==> active[p] == w[p].conn)
  }

  /** The answer is what executing this very job gave, at its place in the session. */
  predicate Answers(session: Session, desc: JobDesc, a: Answer) {
    && a.run < |session.runs| && session.runs[a.run].desc == desc
    && var outcome := Run(session.cfg, At(session, a.run), session.runs[a.run]);
       outcome.Done? && outcome.effect.reply == a.reply
  }

  predicate Unanswered(stage: Stage) {
    stage.Arriving? || stage.Inserting? || stage.Queueing?
  }

  ghost predicate Answered(session: Session, c: Clients) {
    && (forall k :: k in c.answers ==> k in c.asked && Answers(session, c.asked[k], c.answers[k]))
    && (forall k, l :: k in c.answers && l in c.answers && k != l ==> c.answers[k].run != c.answers[l].run)
    && (forall p :: p in c.waiting && Unanswered(c.waiting[p].stage) ==> c.waiting[p].conn !in c.answers)
  }

  lemma AnswersExtend(session: Session, x: Execution, desc: JobDesc, a: Answer)
    requires Answers(session, desc, a)
    ensures Answers(Extend(session, x), desc, a)
  {
    AtExtend(session, x, a.run);
    assert Extend(session, x).runs[a.run] == session.runs[a.run];
  }

  lemma AnsweredExtend(session: Session, x: Execution, c: Clients)
    requires Answered(session, c)
    ensures Answered(Extend(session, x), c)
  {
    forall k | k in c.answers ensures Answers(Extend(session, x), c.asked[k], c.answers[k]) {
      AnswersExtend(session, x, c.asked[k], c.answers[k]);
    }
  }

  ghost predicate Received(delivered: seq<Delivery>, conn: Conn) {
    exists i :: 0 <= i < |delivered| && delivered[i].conn == conn
  }

  ghost predicate IsWaiting(c: Clients, conn: Conn)
    requires conn in c.asked
  {
    var pid := c.asked[conn].pid;
    pid in c.waiting && c.waiting[pid].conn == conn
  }

  /** Whatever was asked is waiting or has been delivered, never both, never twice, and always as answered. */
  ghost predicate Accounted(c: Clients) {
    && (forall i :: 0 <= i < |c.delivered| ==>
          && c.delivered[i].conn in c.answers
          && c.delivered[i].conn in c.asked
          && c.delivered[i].reply == c.answers[c.delivered[i].conn].reply
          && !IsWaiting(c, c.delivered[i].conn))
    && (forall i, j :: 0 <= i < j < |c.delivered| ==> c.delivered[i].conn != c.delivered[j].conn)
    && (forall k :: k in c.asked && Asked(c.asked[k]) && c.asked[k].pid != 0 ==>
          IsWaiting(c, k) || Received(c.delivered, k))
  }

  ghost predicate Routed(s: State) {
    && Ticketed(s.clients)
    && ArrivedMatch(s.hub.arrived, s.clients.waiting)
    && InsertedMatch(s.hub.inserted, s.hub.lost, s.clients.waiting)
    && QueueMatch(s.bus.queue, s.clients.waiting)
    && PhaseMatch(s.mgr.phase, s.clients.waiting, s.clients.answers)
    && OutgoingMatch(s.hub.outgoing, s.clients.waiting, s.clients.answers)
    && ParcelsMatch(s.hub.parcels, s.clients.waiting, s.clients.answers)
    && ActiveMatch(s.hub.active, s.clients.waiting)
    && Answered(s.mgr.session, s.clients)
    && Accounted(s.clients)
  }

  // ---------------------------------------------------------------- moving one ticket on

  function Move(w: Tickets, pid: Pid, stage: Stage): (moved: Tickets)
    ensures moved.Keys == w.Keys
    ensures forall p :: p in w ==> moved[p] == if p == pid then w[p].(stage := stage) else w[p]
  {
    if pid in w then w[pid := w[pid].(stage := stage)] else w
  }

  predicate Standing(w: Tickets, pid: Pid, stage: Stage) {
    pid in w && w[pid].stage == stage
  }

  /** A place is not disturbed by a ticket that neither comes from it nor goes to it. */
  lemma ArrivedStays(arrived: set<Request>, w: Tickets, pid: Pid, stage: Stage)
    requires ArrivedMatch(arrived, w) && !Standing(w, pid, Arriving) && !stage.Arriving?
    ensures ArrivedMatch(arrived, Move(w, pid, stage))
  {
  }

  lemma InsertedStays(inserted: set<Request>, lost: set<Request>, w: Tickets, pid: Pid, stage: Stage)
    requires InsertedMatch(inserted, lost, w) && !Standing(w, pid, Inserting) && !stage.Inserting?
    ensures InsertedMatch(inserted, lost, Move(w, pid, stage))
  {
  }

  lemma QueueStays(queue: seq<JobDesc>, w: Tickets, pid: Pid, stage: Stage)
    requires QueueMatch(queue, w) && !Standing(w, pid, Queueing) && !stage.Queueing?
    ensures QueueMatch(queue, Move(w, pid, stage))
  {
    forall i | 0 <= i < |queue| && queue[i].pid != 0
      ensures Holds(Move(w, pid, stage), queue[i].pid, queue[i], Queueing)
    {
      assert Holds(w, queue[i].pid, queue[i], Queueing);
    }
  }

  lemma PhaseStays(phase: Phase, w: Tickets, answers: map<Conn, Answer>, pid: Pid, stage: Stage)
    requires PhaseMatch(phase, w, answers) && !Standing(w, pid, Running) && !stage.Running?
    ensures PhaseMatch(phase, Move(w, pid, stage), answers)
  {
  }

  lemma OutgoingStays(outgoing: multiset<Outgoing>, w: Tickets, answers: map<Conn, Answer>, pid: Pid, stage: Stage)
    requires OutgoingMatch(outgoing, w, answers) && !Standing(w, pid, Returning) && !stage.Returning?
    ensures OutgoingMatch(outgoing, Move(w, pid, stage), answers)
  {
  }

  lemma ParcelsStay(parcels: set<Parcel>, w: Tickets, answers: map<Conn, Answer>, pid: Pid, stage: Stage)
    requires ParcelsMatch(parcels, w, answers) && !Standing(w, pid, Delivering) && !stage.Delivering?
    ensures ParcelsMatch(parcels, Move(w, pid, stage), answers)
  {
  }

  lemma ActiveStays(active: map<Pid, Conn>, w: Tickets, pid: Pid, stage: Stage)
    requires ActiveMatch(active, w) && (pid in w ==> (Held(w[pid].stage) <==> Held(stage)))
    ensures ActiveMatch(active, Move(w, pid, stage))
  {
  }

  /** The client's own records do not depend on the stage, except that nothing is answered before it runs. */
  lemma RecordsStay(session: Session, c: Clients, pid: Pid, stage: Stage)
    requires Ticketed(c) && Answered(session, c) && Accounted(c)
    requires stage.Inserting? || stage.Queueing? ==>
               Standing(c.waiting, pid, Arriving) || Standing(c.waiting, pid, Inserting) || pid !in c.waiting
    requires !stage.Arriving?
    ensures Advance(c, pid, stage).waiting == Move(c.waiting, pid, stage)
    ensures Ticketed(Advance(c, pid, stage)) && Answered(session, Advance(c, pid, stage))
        && Accounted(Advance(c, pid, stage))
  {
    var d := Advance(c, pid, stage);
    assert d == c.(waiting := Move(c.waiting, pid, stage));
    AccountsStay(c, d);
  }

  lemma AccountsStay(c: Clients, d: Clients)
    requires Accounted(c) && d.asked == c.asked && d.answers == c.answers && d.delivered == c.delivered
    requires d.waiting.Keys == c.waiting.Keys && forall p :: p in c.waiting ==> d.waiting[p].conn == c.waiting[p].conn
    ensures Accounted(d)
  {
    assert forall k :: k in c.asked ==> (IsWaiting(c, k) <==> IsWaiting(d, k));
  }

  // ---------------------------------------------------------------- arriving

  lemma RoutedConnect(s: State, desc: JobDesc)
    requires Routed(s) && Assumed(s, Connect(desc))
    ensures Routed(Next(s, Connect(desc)))
  {
    var c, d := s.clients, Accept(s, desc).clients;
    if desc.pid != 0 && !desc.cmd.Watch? {
      PlacesAfterConnect(s, desc, d.waiting);
    } else {
      assert d.waiting == c.waiting;
    }
    RecordsAfterConnect(s.mgr.session, c, d, desc);
  }

  lemma PlacesAfterConnect(s: State, desc: JobDesc, w: Tickets)
    requires Routed(s) && Asked(desc) && desc.pid != 0 && desc.pid !in s.clients.waiting
    requires w == s.clients.waiting[desc.pid := Ticket(s.clients.nextConn, desc, Arriving)]
    ensures ArrivedMatch(s.hub.arrived + {Request(s.clients.nextConn, desc)}, w)
    ensures InsertedMatch(s.hub.inserted, s.hub.lost, w) && QueueMatch(s.bus.queue, w)
    ensures PhaseMatch(s.mgr.phase, w, s.clients.answers) && OutgoingMatch(s.hub.outgoing, w, s.clients.answers)
    ensures ParcelsMatch(s.hub.parcels, w, s.clients.answers) && ActiveMatch(s.hub.active, w)
  {
    NewcomerArrives(s.hub.arrived, s.clients.waiting, s.clients.nextConn, desc);
    NewcomerElsewhere(s.hub.inserted, s.hub.lost, s.bus.queue, s.clients.waiting, desc, w);
    NewcomerLater(s, desc, w);
  }

  lemma NewcomerArrives(arrived: set<Request>, w: Tickets, conn: Conn, desc: JobDesc)
    requires ArrivedMatch(arrived, w) && desc.pid !in w
    ensures ArrivedMatch(arrived + {Request(conn, desc)}, w[desc.pid := Ticket(conn, desc, Arriving)])
  {
  }

  lemma NewcomerElsewhere(inserted: set<Request>, lost: set<Request>, queue: seq<JobDesc>, w: Tickets, desc: JobDesc,
                          w': Tickets)
    requires InsertedMatch(inserted, lost, w) && QueueMatch(queue, w) && desc.pid !in w
    requires exists k :: w' == w[desc.pid := Ticket(k, desc, Arriving)]
    ensures InsertedMatch(inserted, lost, w') && QueueMatch(queue, w')
  {
    forall i | 0 <= i < |queue| && queue[i].pid != 0 ensures Holds(w', queue[i].pid, queue[i], Queueing) {
      assert Holds(w, queue[i].pid, queue[i], Queueing);
    }
  }

  lemma NewcomerLater(s: State, desc: JobDesc, w: Tickets)
    requires PhaseMatch(s.mgr.phase, s.clients.waiting, s.clients.answers)
    requires OutgoingMatch(s.hub.outgoing, s.clients.waiting, s.clients.answers)
    requires ParcelsMatch(s.hub.parcels, s.clients.waiting, s.clients.answers)
    requires ActiveMatch(s.hub.active, s.clients.waiting)
    requires desc.pid != 0 && desc.pid !in s.clients.waiting
    requires w == s.clients.waiting[desc.pid := Ticket(s.clients.nextConn, desc, Arriving)]
    ensures PhaseMatch(s.mgr.phase, w, s.clients.answers) && OutgoingMatch(s.hub.outgoing, w, s.clients.answers)
    ensures ParcelsMatch(s.hub.parcels, w, s.clients.answers) && ActiveMatch(s.hub.active, w)
  {
    var ticket := Ticket(s.clients.nextConn, desc, Arriving);
    NewcomerNotBusy(s.mgr.phase, s.clients.waiting, s.clients.answers, desc.pid, ticket);
    NewcomerNotOut(s.hub.outgoing, s.clients.waiting, s.clients.answers, desc.pid, ticket);
    NewcomerNoParcel(s.hub.parcels, s.clients.waiting, s.clients.answers, desc.pid, ticket);
  }

  lemma NewcomerNotBusy(phase: Phase, w: Tickets, answers: map<Conn, Answer>, pid: Pid, ticket: Ticket)
    requires PhaseMatch(phase, w, answers) && pid !in w && ticket.stage.Arriving?
    ensures PhaseMatch(phase, w[pid := ticket], answers)
  {
  }

  lemma NewcomerNotOut(outgoing: multiset<Outgoing>, w: Tickets, answers: map<Conn, Answer>, pid: Pid, ticket: Ticket)
    requires OutgoingMatch(outgoing, w, answers) && pid !in w && ticket.stage.Arriving?
    ensures OutgoingMatch(outgoing, w[pid := ticket], answers)
  {
  }

  lemma NewcomerNoParcel(parcels: set<Parcel>, w: Tickets, answers: map<Conn, Answer>, pid: Pid, ticket: Ticket)
    requires ParcelsMatch(parcels, w, answers) && pid !in w && ticket.stage.Arriving?
    ensures ParcelsMatch(parcels, w[pid := ticket], answers)
  {
  }

  lemma RecordsAfterConnect(session: Session, c: Clients, d: Clients, desc: JobDesc)
    requires Ticketed(c) && Answered(session, c) && Accounted(c) && FromCommandLine(desc) && desc.pid !in c.waiting
    requires d.asked == c.asked[c.nextConn := desc] && d.answers == c.answers && d.delivered == c.delivered
    requires d.nextConn == c.nextConn + 1
    requires d.waiting == if desc.pid != 0 && !desc.cmd.Watch?
        then c.waiting[desc.pid := Ticket(c.nextConn, desc, Arriving)] else c.waiting
    ensures Ticketed(d) && Answered(session, d) && Accounted(d)
  {
    assert Ticketed(d);
    assert Answered(session, d);
    AccountsAfterConnect(c, d, desc);
  }

  lemma AccountsAfterConnect(c: Clients, d: Clients, desc: JobDesc)
    requires Ticketed(c) && Accounted(c) && FromCommandLine(desc) && desc.pid !in c.waiting
    requires d.asked == c.asked[c.nextConn := desc] && d.answers == c.answers && d.delivered == c.delivered
    requires d.waiting == if desc.pid != 0 && !desc.cmd.Watch?
        then c.waiting[desc.pid := Ticket(c.nextConn, desc, Arriving)] else c.waiting
    ensures Accounted(d)
  {
    forall k | k in c.asked ensures IsWaiting(c, k) <==> IsWaiting(d, k) {
      assert k < c.nextConn;
    }
  }

  // ---------------------------------------------------------------- from the socket to the list

  lemma RoutedInsert(s: State, r: Request)
    requires Routed(s) && Shaped(s) && Enabled(s, Insert(r))
    ensures Routed(Next(s, Insert(r)))
  {
    var w, pid := s.clients.waiting, r.desc.pid;
    assert pid != 0 ==> Standing(w, pid, Arriving);
    RecordsStay(s.mgr.session, s.clients, pid, Inserting);
    InsertMoves(s.hub, w, r);
    QueueStays(s.bus.queue, w, pid, Inserting);
    PhaseStays(s.mgr.phase, w, s.clients.answers, pid, Inserting);
    OutgoingStays(s.hub.outgoing, w, s.clients.answers, pid, Inserting);
    ParcelsStay(s.hub.parcels, w, s.clients.answers, pid, Inserting);
  }

  lemma InsertMoves(hub: Hub, w: Tickets, r: Request)
    requires ArrivedMatch(hub.arrived, w) && InsertedMatch(hub.inserted, hub.lost, w) && ActiveMatch(hub.active, w)
    requires r in hub.arrived && !r.desc.cmd.Watch? && Own(w)
    ensures ArrivedMatch(hub.arrived - {r}, Move(w, r.desc.pid, Inserting))
    ensures InsertedMatch(hub.inserted + {r}, hub.lost, Move(w, r.desc.pid, Inserting))
    ensures ActiveMatch(hub.active[r.desc.pid := r.conn], Move(w, r.desc.pid, Inserting))
  {
  }

  lemma RoutedPushRequest(s: State, r: Request)
    requires Routed(s) && Enabled(s, PushRequest(r))
    ensures Routed(Next(s, PushRequest(r)))
  {
    if s.bus.poisoned {
      RequestIsLost(s.hub, s.clients.waiting, r);
    } else {
      RequestIsQueued(s, r);
    }
  }

  lemma RequestIsLost(hub: Hub, w: Tickets, r: Request)
    requires InsertedMatch(hub.inserted, hub.lost, w) && r in hub.inserted
    ensures InsertedMatch(hub.inserted - {r}, hub.lost + {r}, w)
  {
  }

  lemma RequestIsQueued(s: State, r: Request)
    requires Routed(s) && Enabled(s, PushRequest(r)) && !s.bus.poisoned
    ensures Routed(EnterRequest(s, r))
  {
    var w, pid := s.clients.waiting, r.desc.pid;
    assert pid != 0 ==> Standing(w, pid, Inserting);
    RecordsStay(s.mgr.session, s.clients, pid, Queueing);
    InsertedLoses(s.hub.inserted, s.hub.lost, w, r);
    QueueGains(s.bus.queue, w, r.desc);
    ArrivedStays(s.hub.arrived, w, pid, Queueing);
    PhaseStays(s.mgr.phase, w, s.clients.answers, pid, Queueing);
    OutgoingStays(s.hub.outgoing, w, s.clients.answers, pid, Queueing);
    ParcelsStay(s.hub.parcels, w, s.clients.answers, pid, Queueing);
    ActiveStays(s.hub.active, w, pid, Queueing);
  }

  lemma InsertedLoses(inserted: set<Request>, lost: set<Request>, w: Tickets, r: Request)
    requires InsertedMatch(inserted, lost, w) && r in inserted && Own(w)
    ensures InsertedMatch(inserted - {r}, lost, Move(w, r.desc.pid, Queueing))
  {
  }

  lemma QueueGains(queue: seq<JobDesc>, w: Tickets, desc: JobDesc)
    requires QueueMatch(queue, w) && Own(w)
    requires desc.pid != 0 ==> desc.pid in w && w[desc.pid].desc == desc && !w[desc.pid].stage.Queueing?
    ensures QueueMatch(queue + [desc], Move(w, desc.pid, Queueing))
  {
    var w' := Move(w, desc.pid, Queueing);
    var queue' := queue + [desc];
    forall i | 0 <= i < |queue'| && queue'[i].pid != 0 ensures Holds(w', queue'[i].pid, queue'[i], Queueing) {
      if i < |queue| {
        assert Holds(w, queue[i].pid, queue[i], Queueing);
      }
    }
    forall i, j | 0 <= i < j < |queue'| && queue'[i].pid != 0 ensures queue'[i].pid != queue'[j].pid {
      assert Holds(w, queue[i].pid, queue[i], Queueing);
    }
    forall p | p in w' && w'[p].stage.Queueing? ensures w'[p].desc in queue' {
      if p == desc.pid {
        assert queue'[|queue|] == desc;
      } else {
        assert w[p].desc in queue;
      }
    }
  }

  // ---------------------------------------------------------------- the manager

  lemma RoutedPop(s: State)
    requires Routed(s) && Enabled(s, Pop)
    ensures Routed(Next(s, Pop))
  {
    if s.bus.queue != [] && !s.bus.poisoned {
      var w, desc := s.clients.waiting, s.bus.queue[0];
      assert desc.pid != 0 ==> Holds(w, desc.pid, desc, Queueing);
      RecordsStay(s.mgr.session, s.clients, desc.pid, Running);
      QueueLoses(s.bus.queue, w);
      PhaseGains(s.mgr.phase, w, s.clients.answers, desc, s.bus.queue[1..] == []);
      ArrivedStays(s.hub.arrived, w, desc.pid, Running);
      InsertedStays(s.hub.inserted, s.hub.lost, w, desc.pid, Running);
      OutgoingStays(s.hub.outgoing, w, s.clients.answers, desc.pid, Running);
      ParcelsStay(s.hub.parcels, w, s.clients.answers, desc.pid, Running);
      ActiveStays(s.hub.active, w, desc.pid, Running);
    }
  }

  lemma QueueLoses(queue: seq<JobDesc>, w: Tickets)
    requires QueueMatch(queue, w) && queue != [] && Own(w)
    ensures QueueMatch(queue[1..], Move(w, queue[0].pid, Running))
  {
    var desc, rest := queue[0], queue[1..];
    var w' := Move(w, desc.pid, Running);
    forall i | 0 <= i < |rest| && rest[i].pid != 0 ensures Holds(w', rest[i].pid, rest[i], Queueing) {
      assert rest[i] == queue[i + 1];
      assert Holds(w, queue[i + 1].pid, queue[i + 1], Queueing);
      assert desc.pid != 0 ==> queue[0].pid != queue[i + 1].pid;
    }
    forall i, j | 0 <= i < j < |rest| && rest[i].pid != 0 ensures rest[i].pid != rest[j].pid {
      assert queue[i + 1].pid != queue[j + 1].pid;
    }
    forall p | p in w' && w'[p].stage.Queueing? ensures w'[p].desc in rest {
      assert w[p].desc in queue;
      var i :| 0 <= i < |queue| && queue[i] == w[p].desc;
      assert w[p].desc.pid == p;
      assert i != 0;
      assert rest[i - 1] == w[p].desc;
    }
  }

  lemma PhaseGains(phase: Phase, w: Tickets, answers: map<Conn, Answer>, desc: JobDesc, empty: bool)
    requires PhaseMatch(phase, w, answers) && phase.Awake? && Own(w)
    requires desc.pid != 0 ==> Holds(w, desc.pid, desc, Queueing) && w[desc.pid].conn !in answers
    ensures PhaseMatch(Popped(desc, empty), Move(w, desc.pid, Running), answers)
  {
  }

  lemma RepliesOf(cfg: Config, log: Entries, desc: JobDesc, now: nat, em: Emission)
    requires Asked(desc) && desc.pid != 0 && Execute(cfg, log, desc, now, em).Done?
    ensures IsResults(Execute(cfg, log, desc, now, em).effect.reply)
  {
  }

  lemma RoutedWork(s: State, em: Emission)
    requires Routed(s) && Numbered(s) && Enabled(s, Work(em))
    ensures Routed(Next(s, Work(em)))
  {
    var desc := s.mgr.phase.desc;
    var outcome := Execute(Cfg(s), s.mgr.log, desc, s.clock, em);
    if outcome.Panic? {
      BusyForGood(s, em);
    } else {
      AnsweredExtend(s.mgr.session, Execution(desc, s.clock, em), s.clients);
      if desc.pid in s.clients.waiting {
        BusyIsAnswered(s, outcome.effect, em);
      } else {
        BusyForItself(s, outcome.effect, em);
      }
    }
  }

  lemma BusyForGood(s: State, em: Emission)
    requires Routed(s) && s.mgr.phase.Popped? && Execute(Cfg(s), s.mgr.log, s.mgr.phase.desc, s.clock, em).Panic?
    ensures Routed(WorkOn(s, em))
  {
    PhaseSame(s.mgr.phase, Halted(JobPanicked(s.mgr.phase.desc)), s.clients.waiting, s.clients.answers);
  }

  lemma BusyForItself(s: State, effect: Effect, em: Emission)
    requires Routed(s) && s.mgr.phase.Popped? && s.mgr.phase.desc.pid !in s.clients.waiting
    requires Answered(Extend(s.mgr.session, Execution(s.mgr.phase.desc, s.clock, em)), s.clients)
    requires Execute(Cfg(s), s.mgr.log, s.mgr.phase.desc, s.clock, em) == Done(effect)
    ensures Routed(WorkOn(s, em))
  {
    var t := WorkOn(s, em);
    assert t.clients == s.clients && t.hub == s.hub && t.bus == s.bus;
    assert PhaseMatch(t.mgr.phase, s.clients.waiting, s.clients.answers);
  }

  lemma BusyIsAnswered(s: State, effect: Effect, em: Emission)
    requires Routed(s) && Numbered(s) && s.mgr.phase.Popped? && s.mgr.phase.desc.pid in s.clients.waiting
    requires Execute(Cfg(s), s.mgr.log, s.mgr.phase.desc, s.clock, em) == Done(effect)
    requires Answered(Extend(s.mgr.session, Execution(s.mgr.phase.desc, s.clock, em)), s.clients)
    ensures Routed(WorkOn(s, em))
  {
    var desc, w := s.mgr.phase.desc, s.clients.waiting;
    var conn := w[desc.pid].conn;
    var answer := Answer(|s.mgr.session.runs|, effect.reply);
    var answers := s.clients.answers[conn := answer];
    assert Holds(w, desc.pid, desc, Running);
    LaterPlacesKeep(s.clients, s.hub, conn, answers);
    NewAnswer(s, effect, em, answer);
    AnsweringRecords(s.mgr.session, Execution(desc, s.clock, em), s.clients, conn, answers);
    PhaseAnswers(s.mgr.phase, w, s.clients.answers, conn, answers, effect.reply);
  }

  lemma NewAnswer(s: State, effect: Effect, em: Emission, answer: Answer)
    requires Numbered(s) && s.mgr.phase.Popped? && answer == Answer(|s.mgr.session.runs|, effect.reply)
    requires Execute(Cfg(s), s.mgr.log, s.mgr.phase.desc, s.clock, em) == Done(effect)
    ensures Answers(Extend(s.mgr.session, Execution(s.mgr.phase.desc, s.clock, em)), s.mgr.phase.desc, answer)
  {
    AtExtend(s.mgr.session, Execution(s.mgr.phase.desc, s.clock, em), answer.run);
  }

  ghost predicate OneConnEach(w: Tickets) {
    forall p, q :: p in w && q in w && p != q ==> w[p].conn != w[q].conn
  }

  lemma ConnsDiffer(c: Clients)
    requires Ticketed(c)
    ensures OneConnEach(c.waiting)
  {
    forall p, q | p in c.waiting && q in c.waiting && p != q ensures c.waiting[p].conn != c.waiting[q].conn {
      assert c.asked[c.waiting[p].conn].pid == p && c.asked[c.waiting[q].conn].pid == q;
    }
  }

  lemma LaterPlacesKeep(c: Clients, hub: Hub, conn: Conn, answers: map<Conn, Answer>)
    requires Ticketed(c) && OutgoingMatch(hub.outgoing, c.waiting, c.answers)
    requires ParcelsMatch(hub.parcels, c.waiting, c.answers)
    requires exists p :: p in c.waiting && c.waiting[p].conn == conn && c.waiting[p].stage.Running?
    requires conn in answers && answers.Keys == c.answers.Keys + {conn}
    requires forall k :: k in c.answers && k != conn ==> answers[k] == c.answers[k]
    ensures OutgoingMatch(hub.outgoing, c.waiting, answers) && ParcelsMatch(hub.parcels, c.waiting, answers)
  {
    ConnsDiffer(c);
  }

  lemma AnsweringRecords(session: Session, x: Execution, c: Clients, conn: Conn, answers: map<Conn, Answer>)
    requires Ticketed(c) && Answered(session, c) && Answered(Extend(session, x), c) && Accounted(c)
    requires exists p :: p in c.waiting && c.waiting[p].conn == conn && c.waiting[p].stage.Running?
    requires conn in answers && answers == c.answers[conn := answers[conn]] && conn in c.asked
    requires Answers(Extend(session, x), c.asked[conn], answers[conn]) && answers[conn].run == |session.runs|
    ensures var d := c.(answers := answers); Ticketed(d) && Answered(Extend(session, x), d) && Accounted(d)
  {
    assert forall k :: k in c.answers ==> c.answers[k].run < |session.runs|;
    AnswersAfterAnswer(Extend(session, x), c, conn, answers);
    AccountsAfterAnswer(c, conn, answers);
  }

  lemma AnswersAfterAnswer(session: Session, c: Clients, conn: Conn, answers: map<Conn, Answer>)
    requires Ticketed(c) && Answered(session, c)
    requires exists p :: p in c.waiting && c.waiting[p].conn == conn && c.waiting[p].stage.Running?
    requires conn in answers && answers == c.answers[conn := answers[conn]] && conn in c.asked
    requires Answers(session, c.asked[conn], answers[conn])
    requires forall k :: k in c.answers ==> c.answers[k].run < answers[conn].run
    ensures Answered(session, c.(answers := answers))
  {
    ConnsDiffer(c);
  }

  lemma AccountsAfterAnswer(c: Clients, conn: Conn, answers: map<Conn, Answer>)
    requires Ticketed(c) && Accounted(c) && conn in c.asked
    requires exists p :: p in c.waiting && c.waiting[p].conn == conn
    requires conn in answers && answers == c.answers[conn := answers[conn]]
    ensures Accounted(c.(answers := answers))
  {
    var d := c.(answers := answers);
    assert IsWaiting(c, conn);
    assert forall k :: k in c.asked ==> (IsWaiting(c, k) <==> IsWaiting(d, k));
  }

  lemma PhaseAnswers(phase: Phase, w: Tickets, answers: map<Conn, Answer>, conn: Conn,
        answers': map<Conn, Answer>, reply: Reply)
    requires PhaseMatch(phase, w, answers) && phase.Popped? && Own(w)
    requires Holds(w, phase.desc.pid, phase.desc, Running) && w[phase.desc.pid].conn == conn && conn in answers'
    requires answers'[conn].reply == reply
    ensures PhaseMatch(Executed(phase.desc, phase.empty, reply), w, answers')
  {
  }

  lemma RoutedSend(s: State, ok: bool)
    requires Routed(s) && Enabled(s, Send(ok))
    ensures Routed(Next(s, Send(ok)))
  {
    if ok || s.mgr.phase.reply.result == Ok(None) {
      ResultLeaves(s);
    } else {
      PhaseSame(s.mgr.phase, Halted(SendFailed(s.mgr.phase.desc, s.mgr.phase.reply)), s.clients.waiting,
                s.clients.answers);
    }
  }

  lemma ResultLeaves(s: State)
    requires Routed(s) && s.mgr.phase.Flushed?
    ensures Routed(SendBack(s, true))
  {
    var desc, reply, w := s.mgr.phase.desc, s.mgr.phase.reply, s.clients.waiting;
    if desc.pid != 0 {
      assert Holds(w, desc.pid, desc, Running);
      var answer := s.clients.answers[w[desc.pid].conn];
      RepliesOf(Cfg(s), At(s.mgr.session, answer.run), desc, s.mgr.session.runs[answer.run].now,
            s.mgr.session.runs[answer.run].em);
    }
    if reply.result != Ok(None) {
      RecordsStay(s.mgr.session, s.clients, desc.pid, Returning);
      PhaseLoses(s.mgr.phase, w, s.clients.answers, Returning);
      OutgoingGains(s.hub.outgoing, w, s.clients.answers, Outgoing(desc.pid, reply));
      ArrivedStays(s.hub.arrived, w, desc.pid, Returning);
      InsertedStays(s.hub.inserted, s.hub.lost, w, desc.pid, Returning);
      QueueStays(s.bus.queue, w, desc.pid, Returning);
      ParcelsStay(s.hub.parcels, w, s.clients.answers, desc.pid, Returning);
      ActiveStays(s.hub.active, w, desc.pid, Returning);
    } else {
      PhaseLoses(s.mgr.phase, w, s.clients.answers, Returning);
    }
  }

  lemma PhaseLoses(phase: Phase, w: Tickets, answers: map<Conn, Answer>, stage: Stage)
    requires PhaseMatch(phase, w, answers) && phase.Flushed? && Own(w) && !stage.Running?
    ensures PhaseMatch(Idle, Move(w, phase.desc.pid, stage), answers)
    ensures phase.desc.pid == 0 ==> Move(w, phase.desc.pid, stage) == w
  {
  }

  lemma OutgoingGains(outgoing: multiset<Outgoing>, w: Tickets, answers: map<Conn, Answer>, o: Outgoing)
    requires OutgoingMatch(outgoing, w, answers) && Own(w)
    requires o.pid != 0 ==>
               Standing(w, o.pid, Running) && w[o.pid].conn in answers && answers[w[o.pid].conn].reply == o.reply
    ensures OutgoingMatch(outgoing + multiset{o}, Move(w, o.pid, Returning), answers)
  {
    if o.pid != 0 {
      assert o !in outgoing;
    }
  }

  // ---------------------------------------------------------------- the way back

  /** The connection to reply on is there: the `unwrap` of the listener never fails. */
  lemma RoutedUnhold(s: State, o: Outgoing)
    requires Routed(s) && Enabled(s, Unhold(o))
    ensures Routed(Next(s, Unhold(o)))
    ensures o.pid in s.hub.active && Next(s, Unhold(o)).hub.panics == s.hub.panics
  {
    var w := s.clients.waiting;
    assert Standing(w, o.pid, Returning);
    RecordsStay(s.mgr.session, s.clients, o.pid, Delivering);
    UnholdMoves(s.hub, w, s.clients.answers, o);
    ArrivedStays(s.hub.arrived, w, o.pid, Delivering);
    InsertedStays(s.hub.inserted, s.hub.lost, w, o.pid, Delivering);
    QueueStays(s.bus.queue, w, o.pid, Delivering);
    PhaseStays(s.mgr.phase, w, s.clients.answers, o.pid, Delivering);
  }

  lemma UnholdMoves(hub: Hub, w: Tickets, answers: map<Conn, Answer>, o: Outgoing)
    requires OutgoingMatch(hub.outgoing, w, answers) && ParcelsMatch(hub.parcels, w, answers)
    requires ActiveMatch(hub.active, w) && Own(w)
    requires o in hub.outgoing && o.pid != 0
    ensures OutgoingMatch(hub.outgoing - multiset{o}, Move(w, o.pid, Delivering), answers)
    ensures o.pid in hub.active
    ensures ParcelsMatch(hub.parcels + {Parcel(hub.active[o.pid], o.pid, o.reply)}, Move(w, o.pid, Delivering), answers)
    ensures ActiveMatch(hub.active - {o.pid}, Move(w, o.pid, Delivering))
  {
    OutgoingLoses(hub.outgoing, w, answers, o);
    ParcelsGain(hub.parcels, w, answers, Parcel(hub.active[o.pid], o.pid, o.reply));
  }

  lemma OutgoingLoses(outgoing: multiset<Outgoing>, w: Tickets, answers: map<Conn, Answer>, o: Outgoing)
    requires OutgoingMatch(outgoing, w, answers) && o in outgoing && o.pid != 0
    ensures OutgoingMatch(outgoing - multiset{o}, Move(w, o.pid, Delivering), answers)
  {
  }

  lemma ParcelsGain(parcels: set<Parcel>, w: Tickets, answers: map<Conn, Answer>, k: Parcel)
    requires ParcelsMatch(parcels, w, answers) && Standing(w, k.pid, Returning) && w[k.pid].conn == k.conn
    requires k.conn in answers && answers[k.conn].reply == k.reply
    ensures ParcelsMatch(parcels + {k}, Move(w, k.pid, Delivering), answers)
  {
  }

  lemma RoutedDeliver(s: State, k: Parcel, ok: bool)
    requires Routed(s) && Enabled(s, Deliver(k, ok))
    ensures Routed(Next(s, Deliver(k, ok)))
  {
    var t := Next(s, Deliver(k, ok));
    LeavesPlaces(s, t.clients.waiting, k);
    DeliveredRecords(s.mgr.session, s.clients, t.clients, k, ok);
  }

  lemma LeavesPlaces(s: State, w: Tickets, k: Parcel)
    requires Routed(s) && k in s.hub.parcels && w == s.clients.waiting - {k.pid}
    ensures ArrivedMatch(s.hub.arrived, w) && InsertedMatch(s.hub.inserted, s.hub.lost, w) && QueueMatch(s.bus.queue, w)
    ensures PhaseMatch(s.mgr.phase, w, s.clients.answers) && OutgoingMatch(s.hub.outgoing, w, s.clients.answers)
    ensures ParcelsMatch(s.hub.parcels - {k}, w, s.clients.answers) && ActiveMatch(s.hub.active, w)
  {
    assert Standing(s.clients.waiting, k.pid, Delivering);
    LeavesEarlyPlaces(s.hub, s.bus.queue, s.clients.waiting, w, k.pid);
    LeavesLatePlaces(s.hub, s.mgr.phase, s.clients.waiting, w, s.clients.answers, k);
  }

  lemma LeavesEarlyPlaces(hub: Hub, queue: seq<JobDesc>, v: Tickets, w: Tickets, pid: Pid)
    requires ArrivedMatch(hub.arrived, v) && InsertedMatch(hub.inserted, hub.lost, v) && QueueMatch(queue, v)
    requires Standing(v, pid, Delivering) && w == v - {pid}
    ensures ArrivedMatch(hub.arrived, w) && InsertedMatch(hub.inserted, hub.lost, w) && QueueMatch(queue, w)
  {
    forall i | 0 <= i < |queue| && queue[i].pid != 0 ensures Holds(w, queue[i].pid, queue[i], Queueing) {
      assert Holds(v, queue[i].pid, queue[i], Queueing);
    }
  }

  lemma LeavesLatePlaces(hub: Hub, phase: Phase, v: Tickets, w: Tickets, answers: map<Conn, Answer>, k: Parcel)
    requires PhaseMatch(phase, v, answers) && OutgoingMatch(hub.outgoing, v, answers)
    requires ParcelsMatch(hub.parcels, v, answers) && ActiveMatch(hub.active, v)
    requires k in hub.parcels && Standing(v, k.pid, Delivering) && w == v - {k.pid}
    ensures PhaseMatch(phase, w, answers) && OutgoingMatch(hub.outgoing, w, answers)
    ensures ParcelsMatch(hub.parcels - {k}, w, answers) && ActiveMatch(hub.active, w)
  {
  }

  lemma DeliveredRecords(session: Session, c: Clients, d: Clients, k: Parcel, ok: bool)
    requires Ticketed(c) && Answered(session, c) && Accounted(c)
    requires k.pid in c.waiting && c.waiting[k.pid].conn == k.conn && k.conn in c.answers
    requires k.reply == c.answers[k.conn].reply
    requires d == c.(waiting := c.waiting - {k.pid}, delivered := c.delivered + [Delivery(k.conn, k.reply, ok)])
    ensures Ticketed(d) && Answered(session, d) && Accounted(d)
  {
    assert Ticketed(d);
    assert Answered(session, d);
    AccountsAfterDelivery(c, d, k, ok);
  }

  lemma AccountsAfterDelivery(c: Clients, d: Clients, k: Parcel, ok: bool)
    requires Ticketed(c) && Accounted(c)
    requires k.pid in c.waiting && c.waiting[k.pid].conn == k.conn && k.conn in c.answers
    requires k.reply == c.answers[k.conn].reply
    requires d == c.(waiting := c.waiting - {k.pid}, delivered := c.delivered + [Delivery(k.conn, k.reply, ok)])
    ensures Accounted(d)
  {
    assert c.asked[k.conn].pid == k.pid && IsWaiting(c, k.conn);
    forall j | j in c.asked ensures IsWaiting(d, j) <==> IsWaiting(c, j) && j != k.conn {
    }
    assert d.delivered[|c.delivered|].conn == k.conn;
    forall j | j in d.asked && Asked(d.asked[j]) && d.asked[j].pid != 0
      ensures IsWaiting(d, j) || Received(d.delivered, j)
    {
      if Received(c.delivered, j) {
        var i :| 0 <= i < |c.delivered| && c.delivered[i].conn == j;
        assert d.delivered[i].conn == j;
      }
    }
  }

  // ---------------------------------------------------------------- everything else

  lemma RoutedJoin(s: State, a: Action)
    requires Routed(s) && Enabled(s, a) && (a.CloseCall? || a.PushNotification? || a.Fire? || a.PushAck?)
    ensures Routed(Next(s, a))
  {
    if ChangeOf(s, a).Joined? {
      QueueGains(s.bus.queue, s.clients.waiting, ChangeOf(s, a).desc);
      assert Move(s.clients.waiting, 0, Queueing) == s.clients.waiting;
    }
    var t := Next(s, a);
    assert t.clients == s.clients && t.mgr == s.mgr;
    assert t.hub.(acks := s.hub.acks, panics := s.hub.panics) == s.hub;
  }

  lemma RoutedRegister(s: State, r: Request)
    requires Routed(s) && Enabled(s, Register(r))
    ensures Routed(Next(s, Register(r)))
  {
    WatchLeaves(s.hub.arrived, s.clients.waiting, r);
  }

  lemma WatchLeaves(arrived: set<Request>, w: Tickets, r: Request)
    requires ArrivedMatch(arrived, w) && r in arrived && r.desc.cmd.Watch? && Own(w)
    ensures ArrivedMatch(arrived - {r}, w)
  {
  }

  lemma RoutedFanOut(s: State, o: Outgoing, broken: set<Pid>)
    requires Routed(s) && Enabled(s, FanOut(o, broken))
    ensures Routed(Next(s, FanOut(o, broken)))
  {
    NoticeLeaves(s.hub.outgoing, s.clients.waiting, s.clients.answers, o);
    FanOutKeeps(s.hub, o, broken);
  }

  lemma FanOutKeeps(hub: Hub, o: Outgoing, broken: set<Pid>)
    ensures var t := FanOutTo(hub, o, broken);
            && t.arrived == hub.arrived && t.inserted == hub.inserted && t.lost == hub.lost && t.active == hub.active
            && t.outgoing == hub.outgoing - multiset{o} && t.parcels == hub.parcels
  {
  }

  lemma NoticeLeaves(outgoing: multiset<Outgoing>, w: Tickets, answers: map<Conn, Answer>, o: Outgoing)
    requires OutgoingMatch(outgoing, w, answers) && o.pid == 0 && Own(w)
    ensures OutgoingMatch(outgoing - multiset{o}, w, answers)
  {
  }

  lemma RoutedElsewhere(s: State, a: Action)
    requires Routed(s) && Enabled(s, a)
    requires a.Tick? || a.Notify? || a.SendToken? || a.SendExpiryToken? || a.TakeToken? || a.Flush?
    ensures Routed(Next(s, a))
  {
    PlacesUntouched(s, a);
    PhaseSame(s.mgr.phase, Next(s, a).mgr.phase, s.clients.waiting, s.clients.answers);
  }

  lemma PlacesUntouched(s: State, a: Action)
    requires Enabled(s, a)
    requires a.Tick? || a.Notify? || a.SendToken? || a.SendExpiryToken? || a.TakeToken? || a.Flush?
    ensures var t := Next(s, a);
            && t.clients == s.clients && t.hub.(panics := s.hub.panics) == s.hub && t.bus.queue == s.bus.queue
            && t.mgr.session == s.mgr.session
            && Busy(t.mgr.phase) == Busy(s.mgr.phase) && ResultOf(t.mgr.phase) == ResultOf(s.mgr.phase)
  {
  }

  lemma PhaseSame(phase: Phase, next: Phase, w: Tickets, answers: map<Conn, Answer>)
    requires PhaseMatch(phase, w, answers) && Busy(next) == Busy(phase) && ResultOf(next) == ResultOf(phase)
    ensures PhaseMatch(next, w, answers)
  {
  }

  lemma RoutedBoot(cfg: Config, stored: Entries, clock: nat, nextConn: Conn)
    ensures Routed(Boot(cfg, stored, clock, nextConn))
  {
  }

  predicate OfRequests(a: Action) {
    a.Connect? || a.Register? || a.Insert? || a.PushRequest?
  }

  predicate OfManager(a: Action) {
    a.Pop? || a.Work? || a.Send?
  }

  predicate OfReplies(a: Action) {
    a.FanOut? || a.Unhold? || a.Deliver?
  }

  predicate OfProducers(a: Action) {
    a.CloseCall? || a.PushNotification? || a.Fire? || a.PushAck?
  }

  lemma RoutedByRequests(s: State, a: Action)
    requires Enabled(s, a) && Assumed(s, a) && Shaped(s) && Routed(s) && OfRequests(a)
    ensures Routed(Next(s, a))
  {
    match a {
      case Connect(desc) => RoutedConnect(s, desc);
      case Register(r) => RoutedRegister(s, r);
      case Insert(r) => RoutedInsert(s, r);
      case PushRequest(r) => RoutedPushRequest(s, r);
    }
  }

  lemma RoutedByManager(s: State, a: Action)
    requires Enabled(s, a) && Numbered(s) && Routed(s) && OfManager(a)
    ensures Routed(Next(s, a))
  {
    match a {
      case Pop => RoutedPop(s);
      case Work(em) => RoutedWork(s, em);
      case Send(ok) => RoutedSend(s, ok);
    }
  }

  lemma RoutedByReplies(s: State, a: Action)
    requires Enabled(s, a) && Routed(s) && OfReplies(a)
    ensures Routed(Next(s, a))
  {
    match a {
      case FanOut(o, broken) => RoutedFanOut(s, o, broken);
      case Unhold(o) => RoutedUnhold(s, o);
      case Deliver(k, ok) => RoutedDeliver(s, k, ok);
    }
  }

  lemma RoutedKept(s: State, a: Action)
    requires Enabled(s, a) && Assumed(s, a) && Shaped(s) && Numbered(s) && Routed(s)
    ensures Routed(Next(s, a))
  {
    if OfRequests(a) {
      RoutedByRequests(s, a);
    } else if OfManager(a) {
      RoutedByManager(s, a);
    } else if OfReplies(a) {
      RoutedByReplies(s, a);
    } else if OfProducers(a) {
      RoutedJoin(s, a);
    } else if a.Restart? {
      RoutedBoot(a.cfg, s.mgr.disk, s.clock, s.clients.nextConn);
    } else {
      RoutedElsewhere(s, a);
    }
  }
}
