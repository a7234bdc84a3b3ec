/** Whole sessions of the manager: the log it loaded and every job it has executed since, in order.
    What the log says about a notification is explained here by what happened to its id. */
module History {
  import opened Types
  import opened Log
  import opened Executor

  datatype Execution = Execution(desc: JobDesc, now: nat, em: Emission)

  datatype Session = Session(cfg: Config, loaded: Entries, runs: seq<Execution>)

  function Run(cfg: Config, log: Entries, x: Execution): Outcome {
    Execute(cfg, log, x.desc, x.now, x.em)
  }

  function After(cfg: Config, log: Entries, x: Execution): Entries {
    match Run(cfg, log, x)
    case Done(effect) => effect.log
    case Panic => log
  }

  /** The log before the `i`-th execution. */
  function At(s: Session, i: nat): Entries
    requires i <= |s.runs|
  {
    if i == 0 then s.loaded else After(s.cfg, At(s, i - 1), s.runs[i - 1])
  }

  predicate Posts(x: Execution, id: Nid) {
    x.desc.cmd.Broadcast? && x.desc.cmd.event.id == id
  }

  ghost predicate Closes(cfg: Config, log: Entries, x: Execution, id: Nid) {
    x.desc.cmd.Close? && x.desc.cmd.id == id && Passes(cfg, log, x.desc, x.now, x.em)
  }

  /** An acknowledgement of the id, or a read that is not silent and whose window shows it. */
  predicate Reads(log: Entries, x: Execution, id: Nid) {
    match x.desc.cmd
    case Acknowledge(other) => other == id
    case Read(start, end) => !Silent(x.desc.flags) && Sliceable(log, start, end) && HasId(Window(log, start, end), id)
    case _ => false
  }

  /** What the rest of the daemon guarantees about the jobs it lets through: none of them stopped the
      manager, and a broadcast brings a notification that is new, or takes the place of its namesake. */
  ghost predicate Orderly(cfg: Config, log: Entries, x: Execution) {
    && Run(cfg, log, x).Done?
    && (x.desc.cmd.Broadcast? ==>
          WellNumbered(log, x.desc.cmd.event) && !x.desc.cmd.event.read && !x.desc.cmd.event.closed)
  }

  ghost predicate OrderlyAt(s: Session, i: nat)
    requires i < |s.runs|
  {
    Orderly(s.cfg, At(s, i), s.runs[i])
  }

  ghost predicate Sound(s: Session) {
    && Distinct(s.loaded)
    && forall i :: 0 <= i < |s.runs| ==> OrderlyAt(s, i)
  }

  function Extend(s: Session, x: Execution): Session {
    s.(runs := s.runs + [x])
  }

  lemma {:induction false} AtExtend(s: Session, x: Execution, i: nat)
    requires i <= |s.runs|
    ensures At(Extend(s, x), i) == At(s, i)
  {
    if i > 0 {
      AtExtend(s, x, i - 1);
    }
  }

  lemma SoundExtend(s: Session, x: Execution)
    requires Sound(s) && Orderly(s.cfg, At(s, |s.runs|), x)
    ensures Sound(Extend(s, x))
    ensures At(Extend(s, x), |s.runs| + 1) == After(s.cfg, At(s, |s.runs|), x)
  {
    var t := Extend(s, x);
    AtExtend(s, x, |s.runs|);
    forall i | 0 <= i < |t.runs| ensures OrderlyAt(t, i) {
      AtExtend(s, x, i);
      assert i < |s.runs| ==> OrderlyAt(s, i);
    }
  }

  // ---------------------------------------------------------------- one step, entry by entry

  lemma DistinctAfter(cfg: Config, log: Entries, x: Execution)
    requires Distinct(log) && Orderly(cfg, log, x)
    ensures Distinct(After(cfg, log, x))
  {
    match x.desc.cmd {
      case Broadcast(event) => BroadcastEntries(cfg, log, event, x.now);
      case Close(id, _) => if Find(log, id).Some? { MarksTouchOneEntry(log, id, Find(log, id).value); }
      case Acknowledge(id) => if Find(log, id).Some? { MarksTouchOneEntry(log, id, Find(log, id).value); }
      case Read(start, end) => ReadEntries(log, start, end);
      case _ =>
    }
  }

  /** `m` carries on the entry `p` of the log before: only its flags may have moved, `closed` only by a
      passing close of this id and `read` only by an acknowledgement or a read that showed it. */
  ghost predicate CarriesOn(cfg: Config, log: Entries, x: Execution, p: Notification, m: Notification) {
    && p in log && p.id == m.id && !Posts(x, m.id)
    && m == p.(read := m.read, closed := m.closed)
    && (m.closed <==> p.closed || Closes(cfg, log, x, m.id))
    && (m.read <==> p.read || Reads(log, x, m.id))
  }

  lemma Predecessor(cfg: Config, log: Entries, x: Execution, m: Notification) returns (p: Notification)
    requires Distinct(log) && Orderly(cfg, log, x) && m in After(cfg, log, x)
    requires x.desc.cmd.Broadcast? ==> m != x.desc.cmd.event
    ensures CarriesOn(cfg, log, x, p, m)
  {
    match x.desc.cmd {
      case Broadcast(event) =>
        p := m;
        BroadcastEntries(cfg, log, event, x.now);
      case Close(id, _) => p := CloseCarriesOn(cfg, log, x, m);
      case Acknowledge(id) =>
        MarksTouchOneEntry(log, id, m);
        p := if m in log then m else m.(read := false);
      case Read(start, end) => p := ReadCarriesOn(cfg, log, x, m);
      case _ => p := m;
    }
  }

  lemma CloseCarriesOn(cfg: Config, log: Entries, x: Execution, m: Notification) returns (p: Notification)
    requires Distinct(log) && Orderly(cfg, log, x) && m in After(cfg, log, x) && x.desc.cmd.Close?
    ensures CarriesOn(cfg, log, x, p, m)
  {
    var id := x.desc.cmd.id;
    PanicsExactly(cfg, log, x.desc, x.now, x.em);
    GateExactly(cfg, log, x.desc, x.now, x.em);
    MarksTouchOneEntry(log, id, m);
    p := if m in log then m else m.(closed := false);
  }

  lemma ReadCarriesOn(cfg: Config, log: Entries, x: Execution, m: Notification) returns (p: Notification)
    requires Distinct(log) && Orderly(cfg, log, x) && m in After(cfg, log, x) && x.desc.cmd.Read?
    ensures CarriesOn(cfg, log, x, p, m)
  {
    var start, end := x.desc.cmd.start, x.desc.cmd.end;
    var after := After(cfg, log, x);
    var window := Window(log, start, end);
    var i :| 0 <= i < |after| && after[i] == m;
    if !Silent(x.desc.flags) && window != [] {
      ReadThroughAt(log, start, end, if i < |log| then i else 0);
    }
    p := log[i];
    WindowById(log, start, end, i);
  }

  lemma WindowById(log: Entries, start: Count, end: Count, i: nat)
    requires Distinct(log) && Sliceable(log, start, end) && i < |log|
    ensures HasId(Window(log, start, end), log[i].id) <==> start <= i < end
  {
    var window := Window(log, start, end);
    if start <= i < end {
      assert window[i - start] == log[i];
    }
    if HasId(window, log[i].id) {
      var n :| n in window && n.id == log[i].id;
      var j :| 0 <= j < |window| && window[j] == n;
      assert log[start + j].id == log[i].id;
    }
  }

  // ---------------------------------------------------------------- the log refines its history

  lemma {:induction false} DistinctAlways(s: Session, i: nat)
    requires Sound(s) && i <= |s.runs|
    ensures Distinct(At(s, i))
    decreases i
  {
    if i > 0 {
      DistinctAlways(s, i - 1);
      DistinctNext(s, i);
    }
  }

  lemma DistinctNext(s: Session, i: nat)
    requires Sound(s) && 0 < i <= |s.runs| && Distinct(At(s, i - 1))
    ensures Distinct(At(s, i))
  {
    assert OrderlyAt(s, i - 1);
    DistinctAfter(s.cfg, At(s, i - 1), s.runs[i - 1]);
  }

  /** The latest broadcast of this id among the first `i` executions. */
  function LastPost(s: Session, i: nat, id: Nid): (k: Option<nat>)
    requires i <= |s.runs|
    ensures k.Some? ==> k.value < i && Posts(s.runs[k.value], id)
    ensures forall j :: (if k.Some? then k.value + 1 else 0) <= j < i ==> !Posts(s.runs[j], id)
  {
    if i == 0 then None
    else if Posts(s.runs[i - 1], id) then Some(i - 1)
    else LastPost(s, i - 1, id)
  }

  function Since(s: Session, i: nat, id: Nid): nat
    requires i <= |s.runs|
  {
    match LastPost(s, i, id)
    case Some(k) => k + 1
    case None => 0
  }

  /** The notification as it first appeared: in the latest broadcast of its id, or in the loaded log. */
  ghost predicate Origin(s: Session, i: nat, n: Notification)
    requires i <= |s.runs|
  {
    match LastPost(s, i, n.id)
    case Some(k) => s.runs[k].desc.cmd.event == n
    case None => n in s.loaded
  }

  ghost predicate ClosedWithin(s: Session, from: nat, to: nat, id: Nid)
    requires to <= |s.runs|
  {
    exists j :: from <= j < to && Closes(s.cfg, At(s, j), s.runs[j], id)
  }

  ghost predicate ReadWithin(s: Session, from: nat, to: nat, id: Nid)
    requires to <= |s.runs|
  {
    exists j :: from <= j < to && Reads(At(s, j), s.runs[j], id)
  }

  /** `n` is the notification `o` of the origin, closed or read only by what happened since. */
  ghost predicate Explains(s: Session, i: nat, o: Notification, n: Notification)
    requires i <= |s.runs|
  {
    && o.id == n.id && Origin(s, i, o)
    && n == o.(read := n.read, closed := n.closed)
    && (n.closed <==> o.closed || ClosedWithin(s, Since(s, i, n.id), i, n.id))
    && (n.read <==> o.read || ReadWithin(s, Since(s, i, n.id), i, n.id))
  }

  lemma WithinOneMore(s: Session, from: nat, i: nat, id: Nid)
    requires from <= i < |s.runs|
    ensures ClosedWithin(s, from, i + 1, id) <==> ClosedWithin(s, from, i, id) || Closes(s.cfg, At(s, i), s.runs[i], id)
    ensures ReadWithin(s, from, i + 1, id) <==> ReadWithin(s, from, i, id) || Reads(At(s, i), s.runs[i], id)
  {
    if ClosedWithin(s, from, i + 1, id) {
      var j :| from <= j < i + 1 && Closes(s.cfg, At(s, j), s.runs[j], id);
      assert j == i || ClosedWithin(s, from, i, id);
    }
    if ReadWithin(s, from, i + 1, id) {
      var j :| from <= j < i + 1 && Reads(At(s, j), s.runs[j], id);
      assert j == i || ReadWithin(s, from, i, id);
    }
  }

  lemma ExplainsOneMore(s: Session, i: nat, o: Notification, p: Notification, m: Notification)
    requires 0 < i <= |s.runs| && Explains(s, i - 1, o, p) && CarriesOn(s.cfg, At(s, i - 1), s.runs[i - 1], p, m)
    ensures Explains(s, i, o, m)
  {
    assert LastPost(s, i, m.id) == LastPost(s, i - 1, m.id);
    WithinOneMore(s, Since(s, i - 1, m.id), i - 1, m.id);
  }

  lemma JustPosted(s: Session, i: nat, n: Notification)
    requires 0 < i <= |s.runs| && s.runs[i - 1].desc.cmd.Broadcast?
    requires s.runs[i - 1].desc.cmd.event == n && !n.read && !n.closed
    ensures Explains(s, i, n, n)
  {
    var k: nat := i - 1;
    assert LastPost(s, i, n.id) == Some(k);
  }

  /** Every entry of the log is the latest broadcast of its id (or the loaded entry), `closed` exactly if it
      was closed to begin with or a passing close followed, `read` exactly if it was read to begin with or an
      acknowledgement or a read that showed it followed. */
  lemma {:induction false} LogRefinesHistory(s: Session, i: nat, n: Notification) returns (o: Notification)
    requires Sound(s) && i <= |s.runs| && n in At(s, i)
    ensures Explains(s, i, o, n)
    decreases i
  {
    if i == 0 {
      o := n;
      LoadedExplainsItself(s, n);
    } else {
      var posted, p := ExplainsStep(s, i, n);
      if posted {
        o := n;
      } else {
        o := LogRefinesHistory(s, i - 1, p);
      }
    }
  }

  lemma ExplainsStep(s: Session, i: nat, n: Notification) returns (posted: bool, p: Notification)
    requires Sound(s) && 0 < i <= |s.runs| && n in At(s, i)
    ensures posted ==> Explains(s, i, n, n)
    ensures !posted ==> p in At(s, i - 1) && forall o :: Explains(s, i - 1, o, p) ==> Explains(s, i, o, n)
  {
    AtNext(s, i);
    posted, p := StepBack(s.cfg, At(s, i - 1), s.runs[i - 1], n);
    if posted {
      JustPosted(s, i, n);
    } else {
      forall o | Explains(s, i - 1, o, p) ensures Explains(s, i, o, n) {
        ExplainsOneMore(s, i, o, p, n);
      }
    }
  }

  lemma LoadedExplainsItself(s: Session, n: Notification)
    requires n in s.loaded
    ensures Explains(s, 0, n, n)
  {
  }

  lemma AtNext(s: Session, i: nat)
    requires Sound(s) && 0 < i <= |s.runs|
    ensures At(s, i) == After(s.cfg, At(s, i - 1), s.runs[i - 1])
    ensures Distinct(At(s, i - 1)) && Orderly(s.cfg, At(s, i - 1), s.runs[i - 1])
  {
    DistinctAlways(s, i - 1);
    assert OrderlyAt(s, i - 1);
  }

  lemma StepBack(cfg: Config, log: Entries, x: Execution, m: Notification) returns (posted: bool, p: Notification)
    requires Distinct(log) && Orderly(cfg, log, x) && m in After(cfg, log, x)
    ensures posted ==> x.desc.cmd.Broadcast? && x.desc.cmd.event == m && !m.read && !m.closed
    ensures !posted ==> CarriesOn(cfg, log, x, p, m)
  {
    posted, p := true, m;
    if !(x.desc.cmd.Broadcast? && m == x.desc.cmd.event) {
      posted := false;
      p := Predecessor(cfg, log, x, m);
    }
  }

  // ---------------------------------------------------------------- what follows for signals, flags and expiry

  lemma NoPostNoChange(s: Session, i: nat, j: nat, id: Nid)
    requires i <= j <= |s.runs|
    requires forall k :: i <= k < j ==> !Posts(s.runs[k], id)
    ensures LastPost(s, j, id) == LastPost(s, i, id)
  {
    if i < j {
      NoPostNoChange(s, i, j - 1, id);
    }
  }

  /** Within a session neither flag is taken back while the id is not broadcast again, and nothing else of the entry
      moves. */
  lemma FlagsOnlyRise(s: Session, i: nat, j: nat, n: Notification, m: Notification)
    requires Sound(s) && i <= j <= |s.runs| && n in At(s, i) && m in At(s, j) && n.id == m.id
    requires forall k :: i <= k < j ==> !Posts(s.runs[k], n.id)
    ensures m == n.(read := m.read, closed := m.closed)
    ensures (n.closed ==> m.closed) && (n.read ==> m.read)
  {
    NoPostNoChange(s, i, j, n.id);
    var o := LogRefinesHistory(s, i, n);
    var q := LogRefinesHistory(s, j, m);
    assert o == q by {
      if LastPost(s, i, n.id).None? {
        SameIdSameEntry(s.loaded, o, q);
      }
    }
    var from := Since(s, i, n.id);
    assert ClosedWithin(s, from, i, n.id) ==> ClosedWithin(s, from, j, n.id);
    assert ReadWithin(s, from, i, n.id) ==> ReadWithin(s, from, j, n.id);
  }

  /** The protocol of the signals within a session, for every id: an unforced signal belongs to the block opened by
      the latest broadcast of the id (or by an open loaded entry), and no close of the id went out since that block
      began. So a block is a broadcast, any number of actions and activations, and at most one close at its end. */
  lemma SignalsFollowTheProtocol(s: Session, j: nat)
    requires Sound(s) && j < |s.runs| && !Force(s.runs[j].desc.flags)
    requires Passes(s.cfg, At(s, j), s.runs[j].desc, s.runs[j].now, s.runs[j].em)
    ensures var id := s.runs[j].desc.cmd.id;
            && !ClosedWithin(s, Since(s, j, id), j, id)
            && (LastPost(s, j, id).None? ==> IsOpen(s.loaded, id))
  {
    var x := s.runs[j];
    var id := x.desc.cmd.id;
    PanicsExactly(s.cfg, At(s, j), x.desc, x.now, x.em);
    GateExactly(s.cfg, At(s, j), x.desc, x.now, x.em);
    var n := Find(At(s, j), id).value;
    var o := LogRefinesHistory(s, j, n);
    if LastPost(s, j, id).None? {
      FindIsMembership(s.loaded, o);
    }
  }

  /** Within a session, after a close went out no unforced signal on that id passes until the id is broadcast again. */
  lemma NothingAfterAClose(s: Session, i: nat, j: nat, id: Nid) returns (k: nat)
    requires Sound(s) && i < j < |s.runs| && Closes(s.cfg, At(s, i), s.runs[i], id)
    requires !Force(s.runs[j].desc.flags) && Passes(s.cfg, At(s, j), s.runs[j].desc, s.runs[j].now, s.runs[j].em)
    requires s.runs[j].desc.cmd.id == id
    ensures i < k < j && Posts(s.runs[k], id)
  {
    SignalsFollowTheProtocol(s, j);
    k := BlockBeganLater(s, i, j, id);
  }

  lemma CloseCounts(s: Session, from: nat, i: nat, to: nat, id: Nid)
    requires i < to <= |s.runs| && Closes(s.cfg, At(s, i), s.runs[i], id)
    ensures from <= i ==> ClosedWithin(s, from, to, id)
  {
  }

  lemma BlockBeganLater(s: Session, i: nat, j: nat, id: Nid) returns (k: nat)
    requires i < j < |s.runs| && Closes(s.cfg, At(s, i), s.runs[i], id) && !ClosedWithin(s, Since(s, j, id), j, id)
    ensures i < k < j && Posts(s.runs[k], id)
  {
    var from := Since(s, j, id);
    CloseCounts(s, from, i, j, id);
    k := LastPost(s, j, id).value;
  }

  /** An expiry goes out only for a notification whose latest broadcast (or loaded entry) can expire, and not before
      the deadline that this notification itself carries: a stale timer cannot close a replacement early. */
  lemma ExpiryIsNeverEarly(s: Session, j: nat) returns (o: Notification)
    requires Sound(s) && j < |s.runs| && s.cfg.autoClose
    requires s.runs[j].desc.cmd.Close? && s.runs[j].desc.cmd.reason == Expired
    requires Passes(s.cfg, At(s, j), s.runs[j].desc, s.runs[j].now, s.runs[j].em)
    ensures o.id == s.runs[j].desc.cmd.id && Origin(s, j, o)
    ensures Expires(o.timeout) && Deadline(s.cfg, o) <= s.runs[j].now
  {
    var x := s.runs[j];
    PanicsExactly(s.cfg, At(s, j), x.desc, x.now, x.em);
    GateExactly(s.cfg, At(s, j), x.desc, x.now, x.em);
    var n := Find(At(s, j), x.desc.cmd.id).value;
    o := LogRefinesHistory(s, j, n);
  }

  // ---------------------------------------------------------------- the bound on the log

  lemma {:induction false} BoundKept(s: Session, i: nat)
    requires |s.loaded| <= s.cfg.maxLogs && i <= |s.runs|
    requires s.cfg.maxLogs == 0 ==> NeverBroadcasts(s)
    ensures |At(s, i)| <= s.cfg.maxLogs
  {
    if i > 0 {
      BoundKept(s, i - 1);
      LengthAfter(s.cfg, At(s, i - 1), s.runs[i - 1]);
    }
  }

  lemma LengthAfter(cfg: Config, log: Entries, x: Execution)
    ensures !x.desc.cmd.Broadcast? ==> |After(cfg, log, x)| == |log|
    ensures x.desc.cmd.Broadcast? && |log| <= cfg.maxLogs && cfg.maxLogs != 0 ==> |After(cfg, log, x)| <= cfg.maxLogs
    ensures x.desc.cmd.Broadcast? ==> |After(cfg, log, x)| > 0
  {
    match x.desc.cmd {
      case Broadcast(event) => AppendBound(cfg.maxLogs, Cleared(log, event), event);
      case Read(start, end) => if Sliceable(log, start, end) { ReadThroughLength(log, start, end); }
      case _ =>
    }
  }

  ghost predicate AlwaysBounded(s: Session) {
    forall i :: 0 <= i <= |s.runs| ==> |At(s, i)| <= s.cfg.maxLogs
  }

  ghost predicate NeverBroadcasts(s: Session) {
    forall k :: 0 <= k < |s.runs| ==> !s.runs[k].desc.cmd.Broadcast?
  }

  /** The log stays within its bound for a whole session exactly when it was loaded within the bound and,
      should the bound be zero, nothing is ever broadcast. Starting with a smaller bound than the stored
      log, or with a bound of zero, breaks it. */
  lemma BoundHoldsExactly(s: Session)
    ensures AlwaysBounded(s) <==> |s.loaded| <= s.cfg.maxLogs && (s.cfg.maxLogs == 0 ==> NeverBroadcasts(s))
  {
    if AlwaysBounded(s) {
      assert |At(s, 0)| <= s.cfg.maxLogs;
      forall k | 0 <= k < |s.runs| && s.cfg.maxLogs == 0 ensures !s.runs[k].desc.cmd.Broadcast? {
        LengthAfter(s.cfg, At(s, k), s.runs[k]);
        assert |At(s, k + 1)| <= s.cfg.maxLogs;
      }
    }
    if |s.loaded| <= s.cfg.maxLogs && (s.cfg.maxLogs == 0 ==> NeverBroadcasts(s)) {
      forall i | 0 <= i <= |s.runs| ensures |At(s, i)| <= s.cfg.maxLogs {
        BoundKept(s, i);
      }
    }
  }
}
