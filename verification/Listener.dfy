/** The listener: writing to sockets that take a message in pieces, routing replies, and fanning results out. */
module Listener {
  import opened Types
  import opened Shared
  import opened Wire
  import E = Executor
  import L = Log
  import M = Manager
  import S = System

  // ---------------------------------------------------------------- writing in pieces

  /** What a socket answers to one attempt to write: it takes up to so many characters, it would block, or it fails.
      Once the list of answers is used up the peer is gone. */
  datatype Attempt = Accepts(n: nat) | WouldBlock | Fails

  type Script = seq<Attempt>

  /** Whether a message with `left` characters to go gets through. */
  predicate Completes(script: Script, left: nat) {
    if script == [] then false
    else match script[0]
      case Accepts(n) => left == 0 || Completes(script[1..], left - L.Min(n, left))
      case WouldBlock => Completes(script[1..], left)
      case Fails => false
  }

  function Capacity(script: Script): nat {
    if script == [] then 0 else Capacity(script[1..]) + (if script[0].Accepts? then script[0].n else 0)
  }

  ghost predicate Willing(script: Script, k: nat, left: nat)
    requires k < |script|
  {
    script[k].Accepts? && Capacity(script[..k]) >= left && forall i :: 0 <= i < k ==> !script[i].Fails?
  }

  /** A message gets through exactly if, before any failure, the attempts made have room for all of it and one more
      write, the empty one, is accepted. */
  lemma {:induction false} CompletesExactly(script: Script, left: nat)
    ensures Completes(script, left) <==> exists k :: 0 <= k < |script| && Willing(script, k, left)
  {
    if script != [] {
      var rest := script[1..];
      var room := if script[0].Accepts? then script[0].n else 0;
      var next: nat := left - L.Min(room, left);
      CompletesExactly(rest, next);
      forall k | 0 <= k < |rest| && !script[0].Fails? ensures Willing(script, k + 1, left) <==> Willing(rest, k, next) {
        assert script[..k + 1] == [script[0]] + rest[..k];
        assert script[..k + 1][1..] == rest[..k];
        assert script[k + 1] == rest[k];
        assert forall i :: 0 <= i < k ==> script[i + 1] == rest[i];
        if Willing(rest, k, next) {
          forall i | 0 <= i < k + 1 ensures !script[i].Fails? {
            assert i > 0 ==> script[i] == rest[i - 1];
          }
        }
      }
      CompletesStep(script, left, next);
    }
  }

  lemma CompletesStep(script: Script, left: nat, next: nat)
    requires script != [] && next == left - L.Min(if script[0].Accepts? then script[0].n else 0, left)
    requires Completes(script[1..], next) <==> exists k :: 0 <= k < |script[1..]| && Willing(script[1..], k, next)
    requires forall k :: 0 <= k < |script[1..]| && !script[0].Fails? ==>
        (Willing(script, k + 1, left) <==> Willing(script[1..], k, next))
    ensures Completes(script, left) <==> exists k :: 0 <= k < |script| && Willing(script, k, left)
  {
    var rest := script[1..];
    assert script[..0] == [];
    if script[0].Accepts? && left == 0 {
      assert Willing(script, 0, left);
    } else {
      if Completes(script, left) {
        var k :| 0 <= k < |rest| && Willing(rest, k, next);
        assert Willing(script, k + 1, left);
      }
      if k :| 0 <= k < |script| && Willing(script, k, left) {
        assert k > 0;
        assert !script[0].Fails?;
        assert 0 <= k - 1 < |rest| && Willing(script, (k - 1) + 1, left);
        assert Willing(rest, k - 1, next);
      }
    }
  }

  /** One end of a connection; the number tells connections apart. */
  class Socket {
    const conn: S.Conn
    var received: string

    constructor (conn: S.Conn)
      ensures this.conn == conn && received == ""
    {
      this.conn := conn;
      received := "";
    }

    method TryWrite(data: string, n: nat) returns (accepted: nat)
      modifies this`received
      ensures accepted == L.Min(n, |data|) && received == old(received) + data[..accepted]
    {
      accepted := L.Min(n, |data|);
      received := received + data[..accepted];
    }

    /** The loop ends only at a write accepted when nothing was left, so success means the whole message, once and in
        order, and failure a part of it from its start. */
    method Write(data: string, script: Script) returns (ok: bool)
      modifies this`received
      ensures ok == Completes(script, |data|)
      ensures ok ==> received == old(received) + data
      ensures exists k :: 0 <= k <= |data| && received == old(received) + data[..k]
    {
      var buf := data;
      var i := 0;
      ghost var gone := 0;
      while i < |script|
        invariant 0 <= i <= |script| && 0 <= gone <= |data|
        invariant buf == data[gone..] && received == old(received) + data[..gone]
        invariant Completes(script, |data|) == Completes(script[i..], |buf|)
      {
        match script[i] {
          case Accepts(n) =>
            var accepted := TryWrite(buf, n);
            if buf == "" {
              return true;
            }
            assert data[..gone] + buf[..accepted] == data[..gone + accepted];
            gone := gone + accepted;
            buf := buf[accepted..];
          case WouldBlock =>
          case Fails =>
            return false;
        }
        i := i + 1;
      }
      ok := false;
    }
  }

  // ---------------------------------------------------------------- what the tasks do

  /** What a task of the listener can see and change: the held connections, the watchers, the job list with its lock,
      and the wake-up channel. */
  datatype View = View(active: map<Pid, S.Conn>, watchers: map<Pid, S.Watcher>, jobs: seq<JobDesc>, poisoned: bool,
                       tokens: nat)

  datatype Outcome = Outcome(view: View, panicked: bool)

  /** A task pushes a job and wakes the manager; `open` says whether the manager thread is there to be woken. */
  function PushSpec(v: View, open: bool, desc: JobDesc): Outcome {
    if v.poisoned then Outcome(v, true)
    else if open then Outcome(v.(jobs := v.jobs + [desc], tokens := v.tokens + 1), false)
    else Outcome(v.(jobs := v.jobs + [desc]), true)
  }

  function IncomingSpec(v: View, open: bool, json: Json, pid: Pid, data: string, conn: S.Conn): Outcome {
    match ParseJobDesc(json, data)
    case Unreachable => Outcome(v, true)
    case Bad(_) => Outcome(v, false)
    case Good(desc) => JobSpec(v, open, pid, desc, conn)
  }

  function JobSpec(v: View, open: bool, pid: Pid, desc: JobDesc, conn: S.Conn): Outcome {
    if desc.cmd.Watch? then Outcome(v.(watchers := v.watchers[pid := S.Watcher(conn, desc.flags)]), false)
    else PushSpec(v.(active := v.active[pid := conn]), open, desc)
  }

  function ReplySpec(v: View, pid: Pid): Outcome {
    Outcome(v.(active := v.active - {pid}), pid !in v.active)
  }

  /** The list is locked before the notification is unwrapped. */
  function AckSpec(v: View, open: bool, json: Json, data: string): Outcome {
    if !LooksLikeResults(data) then Outcome(v, false)
    else if v.poisoned then Outcome(v, true)
    else match json.parse(ResultsText(data))
      case None => Outcome(v.(poisoned := true), true)
      case Some(n) => PushSpec(v, open, S.AckDesc(n.id))
  }

  function NoticeSpec(v: View, open: bool, json: Json, data: string, broken: set<Pid>): Outcome {
    var left := v.(watchers := v.watchers - broken);
    if S.SomeoneReads(left.watchers) then AckSpec(left, open, json, data) else Outcome(left, false)
  }

  // ---------------------------------------------------------------- the listener

  datatype Held = Held(socket: Socket, flags: Flags)

  ghost function Connections(active: map<Pid, Socket>): map<Pid, S.Conn> {
    map p | p in active :: active[p].conn
  }

  ghost function Watchers(listening: map<Pid, Held>): map<Pid, S.Watcher> {
    map p | p in listening :: S.Watcher(listening[p].socket.conn, listening[p].flags)
  }

  lemma OneMore(active: map<Pid, Socket>, listening: map<Pid, Held>, pid: Pid, socket: Socket, flags: Flags)
    ensures Connections(active[pid := socket]) == Connections(active)[pid := socket.conn]
    ensures Watchers(listening[pid := Held(socket, flags)]) == Watchers(listening)[pid := S.Watcher(socket.conn, flags)]
  {
  }

  ghost function Broken(listening: map<Pid, Held>, text: string, scripts: Pid -> Script): set<Pid> {
    set p | p in listening && !Completes(scripts(p), |text|)
  }

  /** Someone who is not silent has got the message, when these are still to come and those have failed. */
  ghost predicate Heard(listening: map<Pid, Held>, todo: set<Pid>, broken: seq<Pid>) {
    exists p :: p in listening && p !in todo && p !in broken && !Silent(listening[p].flags)
  }

  lemma HeardOneMore(listening: map<Pid, Held>, todo: set<Pid>, broken: seq<Pid>, p: Pid)
    requires p in listening && p in todo && p !in broken
    ensures Heard(listening, todo - {p}, broken) <==> Heard(listening, todo, broken) || !Silent(listening[p].flags)
    ensures Heard(listening, todo - {p}, broken + [p]) <==> Heard(listening, todo, broken)
  {
    if Heard(listening, todo, broken) {
      var q :| q in listening && q !in todo && q !in broken && !Silent(listening[q].flags);
      assert q !in broken + [p];
    }
    if !Silent(listening[p].flags) {
      assert p !in todo - {p};
    }
  }

  lemma WatchersLeft(before: map<Pid, Held>, broken: set<Pid>, after: map<Pid, Held>)
    requires forall p :: p in after <==> p in before && p !in broken
    requires forall p :: p in after ==> after[p] == before[p]
    ensures Watchers(after) == Watchers(before) - broken
    ensures S.SomeoneReads(Watchers(after)) <==> exists p :: p in after && !Silent(after[p].flags)
  {
    if p :| p in after && !Silent(after[p].flags) {
      assert p in Watchers(after) && !Silent(Watchers(after)[p].flags);
    }
  }

  class Listener {
    var active: map<Pid, Socket>
    var listening: map<Pid, Held>
    const list: SyncList
    const notify: Notifier

    constructor (list: SyncList, notify: Notifier)
      ensures this.list == list && this.notify == notify && active == map[] && listening == map[]
    {
      this.list, this.notify := list, notify;
      active, listening := map[], map[];
    }

    /** Every watcher has a connection of its own. */
    ghost predicate Valid()
      reads this
    {
      forall p, q :: p in listening && q in listening && p != q ==> listening[p].socket != listening[q].socket
    }

    ghost function Seen(): View
      reads this, list, notify
    {
      View(Connections(active), Watchers(listening), list.jobs, list.poisoned, notify.tokens)
    }

    /** `panicked` is the panic of the task: the list cannot be locked, or the manager is down. */
    method PushAndNotify(desc: JobDesc) returns (panicked: bool)
      modifies list`jobs, notify`tokens
      ensures Outcome(Seen(), panicked) == PushSpec(old(Seen()), notify.open, desc)
      ensures list.jobs == (if list.poisoned then old(list.jobs) else old(list.jobs) + [desc])
      ensures panicked <==> list.poisoned || !notify.open
    {
      var locked := list.Lock();
      if !locked {
        return true;
      }
      list.PushBack(desc);
      var sent := notify.Send();
      panicked := !sent;
    }

    method HandleJob(pid: Pid, desc: JobDesc, socket: Socket) returns (panicked: bool)
      requires Valid() && forall p :: p in listening ==> listening[p].socket != socket
      modifies this`active, this`listening, list`jobs, notify`tokens
      ensures Valid()
      ensures Outcome(Seen(), panicked) == JobSpec(old(Seen()), notify.open, pid, desc, socket.conn)
      ensures if desc.cmd.Watch?
              then listening == old(listening)[pid := Held(socket, desc.flags)] && active == old(active)
              else listening == old(listening) && active == old(active)[pid := socket]
      ensures list.jobs == if desc.cmd.Watch? || list.poisoned then old(list.jobs) else old(list.jobs) + [desc]
      ensures panicked <==> !desc.cmd.Watch? && (list.poisoned || !notify.open)
    {
      panicked := false;
      OneMore(active, listening, pid, socket, desc.flags);
      if desc.cmd.Watch? {
        listening := listening[pid := Held(socket, desc.flags)];
      } else {
        active := active[pid := socket];
        panicked := PushAndNotify(desc);
      }
    }

    /** A request: a watch is registered, any other job is pushed with its connection held, and what cannot be parsed is
        answered with an error. */
    method HandleIncoming(json: Json, pid: Pid, data: string, socket: Socket, script: Script) returns (panicked: bool)
      requires Valid() && forall p :: p in listening ==> listening[p].socket != socket
      modifies this`active, this`listening, list`jobs, notify`tokens, socket`received
      ensures Valid()
      ensures Outcome(Seen(), panicked) == IncomingSpec(old(Seen()), notify.open, json, pid, data, socket.conn)
      ensures match ParseJobDesc(json, data)
              case Good(desc) =>
                && socket.received == old(socket.received)
                && (if desc.cmd.Watch?
                    then listening == old(listening)[pid := Held(socket, desc.flags)] && active == old(active)
                    else listening == old(listening) && active == old(active)[pid := socket])
                && list.jobs ==
                   (if desc.cmd.Watch? || list.poisoned then old(list.jobs) else old(list.jobs) + [desc])
                && (panicked <==> !desc.cmd.Watch? && (list.poisoned || !notify.open))
              case Bad(e) =>
                && !panicked && listening == old(listening) && active == old(active) && list.jobs == old(list.jobs)
                && GotPart(old(socket.received), socket.received, PrintTransmission(Transmission(Error, e.error)),
                           script)
              case Unreachable =>
                && panicked && listening == old(listening) && active == old(active) && list.jobs == old(list.jobs)
                && socket.received == old(socket.received)
    {
      panicked := false;
      match ParseJobDesc(json, data) {
        case Good(desc) =>
          panicked := HandleJob(pid, desc, socket);
        case Bad(e) =>
          var _ := socket.Write(PrintTransmission(Transmission(Error, e.error)), script);
        case Unreachable =>
          panicked := true;
      }
    }

    /** A result for one process: its connection is taken off the table and gets the message, or part of it. `panicked`
        is the unwrap of a connection that is not there. */
    method HandleReply(pid: Pid, data: string, script: Script) returns (panicked: bool)
      requires pid != 0
      modifies this`active, if pid in active then {active[pid]} else {}
      ensures Outcome(Seen(), panicked) == ReplySpec(old(Seen()), pid)
      ensures active == old(active) - {pid} && (panicked <==> pid !in old(active))
      ensures !panicked ==>
                GotPart(old(active[pid].received), old(active[pid]).received,
                        PrintTransmission(Transmission(Outgoing(pid), data)), script)
    {
      if pid !in active {
        assert active - {pid} == active;
        return true;
      }
      var socket := active[pid];
      active := active - {pid};
      var _ := socket.Write(PrintTransmission(Transmission(Outgoing(pid), data)), script);
      panicked := false;
    }

    /** A result for everybody. The watchers whose write fails are dropped; if someone who stays is not silent and the
        message reads as results, the notification in it is acknowledged. */
    method HandleNotice(json: Json, data: string, scripts: Pid -> Script) returns (panicked: bool)
      requires Valid()
      modifies this`listening, list, notify`tokens, set p | p in listening :: listening[p].socket
      ensures Valid()
      ensures var broken := Broken(old(listening), Notice(data), scripts);
              Outcome(Seen(), panicked) == NoticeSpec(old(Seen()), notify.open, json, data, broken)
      ensures forall p :: p in listening ==>
                && p in old(listening) && listening[p] == old(listening)[p]
                && listening[p].socket.received == old(listening[p].socket.received) + Notice(data)
      ensures ParseTransmission(Notice(data)) == Good(Transmission(Outgoing(0), data))
    {
      var read := SendToAll(Notice(data), scripts);
      panicked := false;
      if read {
        panicked := AcknowledgeResults(json, data);
      }
      NoticeReads(data);
    }

    /** `panicked` is the unwrap of a notification that is not there, or a panic of the push. */
    method AcknowledgeResults(json: Json, data: string) returns (panicked: bool)
      modifies list, notify`tokens
      ensures Outcome(Seen(), panicked) == AckSpec(old(Seen()), notify.open, json, data)
      ensures if LooksLikeResults(data) && !old(list.poisoned) then
                match json.parse(ResultsText(data))
                case None => panicked && list.poisoned && list.jobs == old(list.jobs)
                case Some(n) =>
                  && list.jobs == old(list.jobs) + [JobDesc(Acknowledge(n.id), 0, 0)] && !list.poisoned
                  && panicked == !notify.open
              else list.jobs == old(list.jobs) && (panicked <==> LooksLikeResults(data))
    {
      panicked := false;
      var back := ParseFulfilled(data);
      if back.Good? && back.value.typ.Results? {
        ParsedResultsHaveText(data);
        var locked := list.Lock();
        if !locked {
          return true;
        }
        match json.parse(back.value.result.value.value) {
          case Some(n) => panicked := PushAndNotify(JobDesc(Acknowledge(n.id), 0, NO_FLAGS));
          case None =>
            list.Poison();
            panicked := true;
        }
      }
    }

    method SendToAll(text: string, scripts: Pid -> Script) returns (read: bool)
      requires Valid()
      modifies this`listening, set p | p in listening :: listening[p].socket
      ensures Valid()
      ensures Seen() == old(Seen()).(watchers := old(Seen()).watchers - Broken(old(listening), text, scripts))
      ensures read == S.SomeoneReads(Seen().watchers)
      ensures forall p :: p in listening ==>
                && p in old(listening) && listening[p] == old(listening)[p]
                && listening[p].socket.received == old(listening[p].socket.received) + text
    {
      ghost var before := listening;
      var broken;
      read, broken := WriteToAll(text, scripts);
      DropBroken(broken);
      WatchersLeft(before, Broken(before, text, scripts), listening);
    }

    /** Writes to every watcher, in no particular order, and notes the failures. */
    method WriteToAll(text: string, scripts: Pid -> Script) returns (read: bool, broken: seq<Pid>)
      requires Valid()
      modifies set p | p in listening :: listening[p].socket
      ensures forall p :: p in broken <==> p in listening && !Completes(scripts(p), |text|)
      ensures forall i, j :: 0 <= i < j < |broken| ==> broken[i] != broken[j]
      ensures forall p :: p in listening && p !in broken ==>
                listening[p].socket.received == old(listening[p].socket.received) + text
      ensures read <==> Heard(listening, {}, broken)
    {
      var todo := listening.Keys;
      broken, read := [], false;
      while todo != {}
        invariant todo <= listening.Keys
        invariant forall p :: p in broken <==> p in listening && p !in todo && !Completes(scripts(p), |text|)
        invariant forall i, j :: 0 <= i < j < |broken| ==> broken[i] != broken[j]
        invariant forall p :: p in todo ==> listening[p].socket.received == old(listening[p].socket.received)
        invariant forall p :: p in listening && p !in todo && p !in broken ==>
                    listening[p].socket.received == old(listening[p].socket.received) + text
        invariant read <==> Heard(listening, todo, broken)
        decreases todo
      {
        var p :| p in todo;
        HeardOneMore(listening, todo, broken, p);
        todo := todo - {p};
        var ok := listening[p].socket.Write(text, scripts(p));
        if ok {
          read := read || !Silent(listening[p].flags);
        } else {
          broken := broken + [p];
        }
      }
    }

    method DropBroken(broken: seq<Pid>)
      requires forall i, j :: 0 <= i < j < |broken| ==> broken[i] != broken[j]
      requires forall p :: p in broken ==> p in listening
      modifies this`listening
      ensures forall p :: p in listening <==> p in old(listening) && p !in broken
      ensures forall p :: p in listening ==> listening[p] == old(listening)[p]
    {
      DistinctFit(broken, listening.Keys);
      var left: nat := |listening| - |broken|;
      var i := 0;
      while i < |broken|
        invariant 0 <= i <= |broken|
        invariant forall p :: p in listening <==> p in old(listening) && p !in broken[..i]
        invariant forall p :: p in listening ==> listening[p] == old(listening)[p]
      {
        listening := listening - {broken[i]};
        i := i + 1;
      }
      assert broken[..i] == broken;
    }
  }

  /** All of the message has arrived if the writes went through, and in any case a part of it from its start. */
  ghost predicate GotPart(before: string, after: string, message: string, script: Script) {
    && (Completes(script, |message|) ==> after == before + message)
    && exists k :: 0 <= k <= |message| && after == before + message[..k]
  }

  function Notice(data: string): string {
    PrintTransmission(Transmission(Outgoing(0), data))
  }

  lemma NoticeReads(data: string)
    ensures ParseTransmission(Notice(data)) == Good(Transmission(Outgoing(0), data))
  {
    TransmissionRoundTrip(Transmission(Outgoing(0), data));
  }

  predicate LooksLikeResults(data: string) {
    && ParseFulfilled(data).Good? && ParseFulfilled(data).value.typ.Results?
    && ParseFulfilled(data).value.result.Ok? && ParseFulfilled(data).value.result.value.Some?
  }

  function ResultsText(data: string): string
    requires LooksLikeResults(data)
  {
    ParseFulfilled(data).value.result.value.value
  }

  lemma ParsedResultsHaveText(data: string)
    requires ParseFulfilled(data).Good? && ParseFulfilled(data).value.typ.Results?
    ensures ParseFulfilled(data).value.result.Ok? && ParseFulfilled(data).value.result.value.Some?
  {
  }

  /** The count of watchers left never goes below zero. */
  lemma DistinctFit<T>(items: seq<T>, all: set<T>)
    requires forall i, j :: 0 <= i < j < |items| ==> items[i] != items[j]
    requires forall x :: x in items ==> x in all
    ensures |items| <= |all|
  {
    if items != [] {
      var last := items[|items| - 1];
      assert last in items;
      var front := items[..|items| - 1];
      forall x | x in front ensures x in all - {last} {
        var i :| 0 <= i < |front| && front[i] == x;
        assert items[i] == x;
      }
      DistinctFit(front, all - {last});
    }
  }

  // ---------------------------------------------------------------- the text and what it stands for

  /** The text of a result, as the manager sends it to the listener. */
  function TextOf(json: Json, debug: Debug, reply: Reply): string {
    PrintFulfilled(debug, RenderReply(json, reply))
  }

  /** No job hands back an empty text as its results. */
  lemma ResultsAreNotEmpty(json: Json, cfg: Config, log: L.Entries, desc: JobDesc, now: nat, em: Emission)
    requires Faithful(json) && E.Execute(cfg, log, desc, now, em).Done?
    ensures var reply := E.Execute(cfg, log, desc, now, em).effect.reply;
            HasResults(RenderReply(json, reply)) <==> S.IsResults(reply)
  {
  }

  /** What the listener, which sees text, reads out of a reply is what the system, which sees the reply itself, says
      of it: the same replies look like results, and the notification of a broadcast comes back whole. */
  lemma TextTellsTheSame(json: Json, debug: Debug, cfg: Config, log: L.Entries, desc: JobDesc, now: nat, em: Emission)
    requires Faithful(json) && E.Execute(cfg, log, desc, now, em).Done?
    ensures var reply := E.Execute(cfg, log, desc, now, em).effect.reply;
            var text := TextOf(json, debug, reply);
            && (LooksLikeResults(text) <==> S.IsResults(reply))
            && (S.IsResults(reply) && reply.result.value.value.OneJson? ==>
                  json.parse(ResultsText(text)) == Some(reply.result.value.value.notification))
  {
    ResultsAreNotEmpty(json, cfg, log, desc, now, em);
    ResultsSurvive(debug, RenderReply(json, E.Execute(cfg, log, desc, now, em).effect.reply));
  }

  /** What a watcher reads of a signal that passed the gate is exactly that signal, with any text in it. */
  lemma WatchersReadTheSignal(json: Json, debug: Debug, cfg: Config, log: L.Entries, desc: JobDesc, now: nat,
        em: Emission)
    requires E.IsSignal(desc.cmd) && E.Passes(cfg, log, desc, now, em) && !em.NoRuntime?
    ensures var reply := E.Execute(cfg, log, desc, now, em).effect.reply;
            var back := ParseFulfilled(TextOf(json, debug, reply));
            && back.Good? && back.value.result == Ok(None) && back.value.typ.Event?
            && (desc.cmd.Close? ==> back.value.typ.event == CloseEvent(desc.cmd.id))
            && (desc.cmd.ActionInvoked? ==> back.value.typ.event == ActionEvent(desc.cmd.id, desc.cmd.actionKey))
            && (desc.cmd.ActivationToken? ==> back.value.typ.event == TokenEvent(desc.cmd.id, desc.cmd.token))
  {
    E.ReplyNamesTheSignal(cfg, log, desc, now, em);
    ResultsSurvive(debug, RenderReply(json, E.Execute(cfg, log, desc, now, em).effect.reply));
  }

  // ---------------------------------------------------------------- what the manager's results say to whom

  /** A signal that passes its gate leaves for the listener, whatever became of its emission, as one result more under
      the process id of the job; unless no runtime could be built, its text is the event of the job. */
  lemma PassingSignalGoesOut(json: Json, debug: Debug, s: S.State, em: Emission) returns (reply: Reply)
    requires s.mgr.phase.Popped? && E.Passes(S.Cfg(s), s.mgr.log, s.mgr.phase.desc, s.clock, em)
    ensures M.WorkedAndSent(s, em).hub ==
            s.hub.(outgoing := s.hub.outgoing + multiset{S.Outgoing(s.mgr.phase.desc.pid, reply)})
    ensures !em.NoRuntime? ==>
              var back := ParseFulfilled(TextOf(json, debug, reply));
              var cmd := s.mgr.phase.desc.cmd;
              && back.Good? && back.value.result == Ok(None) && back.value.typ.Event?
              && (cmd.Close? ==> back.value.typ.event == CloseEvent(cmd.id))
              && (cmd.ActionInvoked? ==> back.value.typ.event == ActionEvent(cmd.id, cmd.actionKey))
              && (cmd.ActivationToken? ==> back.value.typ.event == TokenEvent(cmd.id, cmd.token))
    ensures em.NoRuntime? ==> TextOf(json, debug, reply) == "oth#" + debug(Err(em.message))
    ensures reply.result.Err? <==> !em.Emitted?
  {
    var effect := E.Execute(S.Cfg(s), s.mgr.log, s.mgr.phase.desc, s.clock, em).effect;
    reply := effect.reply;
    SignalsHaveResults(S.Cfg(s), s.mgr.log, s.mgr.phase.desc, s.clock, em);
    M.ResultGoesOut(s, em, effect);
    E.ReplyNamesTheSignal(S.Cfg(s), s.mgr.log, s.mgr.phase.desc, s.clock, em);
    if !em.NoRuntime? {
      WatchersReadTheSignal(json, debug, S.Cfg(s), s.mgr.log, s.mgr.phase.desc, s.clock, em);
    }
  }

  lemma SignalsHaveResults(cfg: Config, log: L.Entries, desc: JobDesc, now: nat, em: Emission)
    requires E.Passes(cfg, log, desc, now, em)
    ensures E.Execute(cfg, log, desc, now, em).effect.reply.result != Ok(None)
  {
  }

  /** A broadcast leaves as one result more, whose text is results with this very notification. */
  lemma BroadcastGoesOut(json: Json, debug: Debug, s: S.State, em: Emission) returns (reply: Reply)
    requires Faithful(json) && s.mgr.phase.Popped? && s.mgr.phase.desc.cmd.Broadcast?
    ensures E.Execute(S.Cfg(s), s.mgr.log, s.mgr.phase.desc, s.clock, em).Done?
    ensures M.WorkedAndSent(s, em).hub ==
            s.hub.(outgoing := s.hub.outgoing + multiset{S.Outgoing(s.mgr.phase.desc.pid, reply)})
    ensures var text := TextOf(json, debug, reply);
            LooksLikeResults(text) && json.parse(ResultsText(text)) == Some(s.mgr.phase.desc.cmd.event)
  {
    var effect := E.Execute(S.Cfg(s), s.mgr.log, s.mgr.phase.desc, s.clock, em).effect;
    reply := effect.reply;
    M.ResultGoesOut(s, em, effect);
    ResultsSurvive(debug, RenderReply(json, reply));
  }

  /** A read that can be done leaves as one result more for its process, whose text is results with the JSON of its
      window of the log as it is afterwards. */
  lemma ReadGoesOut(json: Json, debug: Debug, s: S.State, em: Emission) returns (reply: Reply)
    requires Faithful(json) && s.mgr.phase.Popped? && s.mgr.phase.desc.cmd.Read?
    requires E.Execute(S.Cfg(s), s.mgr.log, s.mgr.phase.desc, s.clock, em).Done?
    ensures M.WorkedAndSent(s, em).hub ==
            s.hub.(outgoing := s.hub.outgoing + multiset{S.Outgoing(s.mgr.phase.desc.pid, reply)})
    ensures var text := TextOf(json, debug, reply);
            var log := S.Next(s, S.Work(em)).mgr.log;
            var lo, hi := L.Min(|log|, s.mgr.phase.desc.cmd.start), L.Min(|log|, s.mgr.phase.desc.cmd.end);
            && LooksLikeResults(text) && lo <= hi && json.parseMany(ResultsText(text)) == Some(log[lo..hi])
  {
    var desc := s.mgr.phase.desc;
    var effect := E.Execute(S.Cfg(s), s.mgr.log, desc, s.clock, em).effect;
    reply := effect.reply;
    E.ReadAnswersWithTheLogAfter(S.Cfg(s), s.mgr.log, desc, s.clock, em);
    M.ResultGoesOut(s, em, effect);
    M.WorkGives(s, em);
    ReadText(json, debug, reply, L.Window(effect.log, desc.cmd.start, desc.cmd.end));
  }

  lemma ReadText(json: Json, debug: Debug, reply: Reply, ns: seq<Notification>)
    requires Faithful(json) && reply == FulfilledJob(Ok(Some(ListJson(ns))), Results)
    ensures var text := TextOf(json, debug, reply);
            LooksLikeResults(text) && json.parseMany(ResultsText(text)) == Some(ns)
  {
    ResultsSurvive(debug, RenderReply(json, reply));
  }

  /** A query leaves as one result more for its process, whose text is results with `true` if the log holds a closed
      entry of the id, and with `false` if not. */
  lemma QueryGoesOut(json: Json, debug: Debug, s: S.State, em: Emission) returns (reply: Reply)
    requires s.mgr.phase.Popped? && s.mgr.phase.desc.cmd.Query? && L.Distinct(s.mgr.log)
    ensures E.Execute(S.Cfg(s), s.mgr.log, s.mgr.phase.desc, s.clock, em).Done?
    ensures M.WorkedAndSent(s, em).hub ==
            s.hub.(outgoing := s.hub.outgoing + multiset{S.Outgoing(s.mgr.phase.desc.pid, reply)})
    ensures var text := TextOf(json, debug, reply);
            && LooksLikeResults(text)
            && ResultsText(text) ==
               if exists n :: n in s.mgr.log && n.id == s.mgr.phase.desc.cmd.id && n.closed then "true" else "false"
  {
    var effect := E.Execute(S.Cfg(s), s.mgr.log, s.mgr.phase.desc, s.clock, em).effect;
    reply := effect.reply;
    E.QueryAnswersExactly(S.Cfg(s), s.mgr.log, s.mgr.phase.desc, s.clock, em);
    M.ResultGoesOut(s, em, effect);
    ResultsSurvive(debug, RenderReply(json, reply));
  }

  /** Both envelopes around a result hand its text on unchanged: the one from the manager to the listener, and the one
      that a process or a watcher gets. */
  lemma EnvelopesKeepTheText(json: Json, debug: Debug, o: S.Outgoing)
    ensures var data := TextOf(json, debug, o.reply);
            && ParseTransmission(PrintTransmission(Transmission(Outgoing(o.pid), data)))
               == Good(Transmission(Outgoing(o.pid), data))
            && ParseTransmission(Notice(data)) == Good(Transmission(Outgoing(0), data))
  {
    TransmissionRoundTrip(Transmission(Outgoing(o.pid), TextOf(json, debug, o.reply)));
    TransmissionRoundTrip(Transmission(Outgoing(0), TextOf(json, debug, o.reply)));
  }

  // ---------------------------------------------------------------- the methods and the actions of the system

  function SeenOf(s: S.State): View {
    View(s.hub.active, s.hub.watchers, s.bus.queue, s.bus.poisoned, s.bus.tokens)
  }

  /** Everything that a task of the listener has nothing to do with. */
  predicate OnlyTheListenerMoved(s: S.State, t: S.State) {
    && t == s.(bus := t.bus, hub := t.hub, clients := t.clients)
    && t.bus.owing == s.bus.owing && t.bus.waking == s.bus.waking
  }

  /** The task of a request: register it, or hold it, push it, and send the token unless it got stuck at the lock. */
  function RequestTask(s: S.State, r: S.Request): S.State
    requires r in s.hub.arrived
  {
    if r.desc.cmd.Watch? then S.Next(s, S.Register(r))
    else
      var pushed := S.Next(S.Next(s, S.Insert(r)), S.PushRequest(r));
      if s.bus.poisoned then pushed else S.Next(pushed, S.SendToken)
  }

  /** `HandleIncoming` on the text of a request is that task, in every state of the system. */
  lemma IncomingIsTheRequestTask(json: Json, s: S.State, r: S.Request)
    requires r in s.hub.arrived && S.FromCommandLine(r.desc)
    ensures var t := RequestTask(s, r);
            && IncomingSpec(SeenOf(s), !S.Gone(s), json, r.desc.pid, PrintJobDesc(json, r.desc), r.conn)
               == Outcome(SeenOf(t), t.hub.panics > s.hub.panics)
            && OnlyTheListenerMoved(s, t)
  {
    JobDescRoundTrip(json, r.desc);
    if !r.desc.cmd.Watch? {
      PushIsTheRequestTask(s, r);
    }
  }

  lemma PushIsTheRequestTask(s: S.State, r: S.Request)
    requires r in s.hub.arrived && !r.desc.cmd.Watch?
    ensures var t := RequestTask(s, r);
            && PushSpec(SeenOf(s).(active := s.hub.active[r.desc.pid := r.conn]), !S.Gone(s), r.desc)
               == Outcome(SeenOf(t), t.hub.panics > s.hub.panics)
            && OnlyTheListenerMoved(s, t)
  {
    var held := S.Next(s, S.Insert(r));
    assert held.bus == s.bus && held.hub.panics == s.hub.panics && held.mgr == s.mgr;
    assert held.hub.active == s.hub.active[r.desc.pid := r.conn] && held.hub.watchers == s.hub.watchers;
  }

  /** The task of a reply: take the connection off the table, and write to it. */
  function ReplyTask(s: S.State, o: S.Outgoing, ok: bool): S.State
    requires o in s.hub.outgoing && o.pid != 0
  {
    var taken := S.Next(s, S.Unhold(o));
    if o.pid in s.hub.active then S.Next(taken, S.Deliver(S.Parcel(s.hub.active[o.pid], o.pid, o.reply), ok)) else taken
  }

  lemma ReplyIsTheReplyTask(s: S.State, o: S.Outgoing, ok: bool)
    requires o in s.hub.outgoing && o.pid != 0
    ensures var t := ReplyTask(s, o, ok);
            && ReplySpec(SeenOf(s), o.pid) == Outcome(SeenOf(t), t.hub.panics > s.hub.panics)
            && OnlyTheListenerMoved(s, t)
  {
    assert o.pid !in s.hub.active ==> s.hub.active - {o.pid} == s.hub.active;
  }

  /** The task of a result for everybody: fan it out, and if that calls for it push the acknowledgement, and send the
      token unless it got stuck at the lock. */
  function NoticeTask(s: S.State, o: S.Outgoing, broken: set<Pid>): S.State
    requires o in s.hub.outgoing && o.pid == 0 && (S.IsResults(o.reply) ==> o.reply.result.value.value.OneJson?)
  {
    var fanned := S.Next(s, S.FanOut(o, broken));
    if S.SomeoneReads(fanned.hub.watchers) && S.IsResults(o.reply) then
      var pushed := S.Next(fanned, S.PushAck(o.reply.result.value.value.notification));
      if s.bus.poisoned then pushed else S.Next(pushed, S.SendToken)
    else fanned
  }

  /** `HandleNotice` on the text of what a job gave is that task, in every state of the system. */
  lemma NoticeIsTheNoticeTask(json: Json, debug: Debug, s: S.State, o: S.Outgoing, broken: set<Pid>,
                              cfg: Config, log: L.Entries, desc: JobDesc, now: nat, em: Emission)
    requires Faithful(json) && o in s.hub.outgoing && o.pid == 0
    requires E.Execute(cfg, log, desc, now, em).Done? && o.reply == E.Execute(cfg, log, desc, now, em).effect.reply
    requires S.IsResults(o.reply) ==> o.reply.result.value.value.OneJson?
    ensures var t := NoticeTask(s, o, broken);
            && NoticeSpec(SeenOf(s), !S.Gone(s), json, TextOf(json, debug, o.reply), broken)
               == Outcome(SeenOf(t), t.hub.panics > s.hub.panics)
            && OnlyTheListenerMoved(s, t)
  {
    TextTellsTheSame(json, debug, cfg, log, desc, now, em);
    NoticeOfText(json, s, o, broken, TextOf(json, debug, o.reply));
  }

  lemma NoticeOfText(json: Json, s: S.State, o: S.Outgoing, broken: set<Pid>, text: string)
    requires o in s.hub.outgoing && o.pid == 0 && (S.IsResults(o.reply) ==> o.reply.result.value.value.OneJson?)
    requires LooksLikeResults(text) <==> S.IsResults(o.reply)
    requires S.IsResults(o.reply) ==> json.parse(ResultsText(text)) == Some(o.reply.result.value.value.notification)
    ensures var t := NoticeTask(s, o, broken);
            && NoticeSpec(SeenOf(s), !S.Gone(s), json, text, broken) == Outcome(SeenOf(t), t.hub.panics > s.hub.panics)
            && OnlyTheListenerMoved(s, t)
  {
    var fanned := S.Next(s, S.FanOut(o, broken));
    assert fanned.bus == s.bus && fanned.mgr == s.mgr && fanned.hub.watchers == s.hub.watchers - broken;
    assert fanned.hub.panics == s.hub.panics && fanned.hub.active == s.hub.active;
    if S.SomeoneReads(fanned.hub.watchers) && S.IsResults(o.reply) {
      AckIsTwoActions(fanned, o.reply.result.value.value.notification);
    }
  }

  lemma AckIsTwoActions(s: S.State, n: Notification)
    requires n in s.hub.acks
    ensures var pushed := S.Next(s, S.PushAck(n));
            && (!s.bus.poisoned ==> pushed.bus.owing > 0)
            && var t := if s.bus.poisoned then pushed else S.Next(pushed, S.SendToken);
               && PushSpec(SeenOf(s), !S.Gone(s), S.AckDesc(n.id)) == Outcome(SeenOf(t), t.hub.panics > s.hub.panics)
               && OnlyTheListenerMoved(s, t)
  {
  }
}
