/** The order of the log. Reads promise the most recent notifications first, but the back entry that moves into the hole
    of a replaced one can break that. */
module Order {
  import opened Types
  import opened Log
  import opened Executor
  import opened History

  /** Strictly from newest to oldest, for some way of telling ages: a larger number is newer. */
  ghost predicate NewestFirst(log: Entries, age: Notification -> int) {
    forall i, j :: 0 <= i < j < |log| ==> age(log[i]) > age(log[j])
  }

  // ---------------------------------------------------------------- one broadcast

  /** The entry to be replaced is not there, or so far back that nothing it should stay behind is left for the back
      entry to overtake: in the last two places, or in the last three if the broadcast also evicts one. */
  predicate KeepsOrder(maxLogs: Count, log: Entries, event: Notification) {
    || event.replacesId == 0
    || match Position(log, event.replacesId)
       case None => true
       case Some(p) => p + 2 >= |log| || (p + 3 == |log| && |log| == maxLogs + 1)
  }

  lemma PrefixInOrder(log: Entries, k: nat, age: Notification -> int)
    requires NewestFirst(log, age) && k <= |log|
    ensures NewestFirst(log[..k], age)
  {
  }

  /** The back entry is in order in its new place exactly if no entry older than the hole is left between. */
  lemma OrderAfterRemoving(log: Entries, p: nat, k: nat, age: Notification -> int)
    requires NewestFirst(log, age) && p < |log| && k < |log|
    ensures NewestFirst(SwapRemoveBack(log, p)[..k], age) <==> p + 2 >= |log| || p + 1 >= k
  {
    var rest := SwapRemoveBack(log, p)[..k];
    var last := |log| - 1;
    forall i | 0 <= i < k ensures rest[i] == log[if i == p then last else i] {
    }
    if p + 1 < last && p + 1 < k {
      assert age(rest[p]) < age(rest[p + 1]);
    } else {
      forall i, j | 0 <= i < j < k ensures age(rest[i]) > age(rest[j]) {
        assert i != p;
      }
    }
  }

  lemma OrderLeftExactly(maxLogs: Count, log: Entries, event: Notification, age: Notification -> int)
    requires NewestFirst(log, age)
    ensures NewestFirst(Kept(maxLogs, Cleared(log, event)), age) <==> KeepsOrder(maxLogs, log, event)
  {
    var rest := Cleared(log, event);
    var kept := Kept(maxLogs, rest);
    assert kept == rest[..|kept|];
    if event.replacesId != 0 && Position(log, event.replacesId).Some? {
      OrderAfterRemoving(log, Position(log, event.replacesId).value, |kept|, age);
    } else {
      PrefixInOrder(log, |kept|, age);
    }
  }

  /** A broadcast of a notification newer than all in the log leaves a log that was newest first newest first exactly if
      it replaces nothing, or an entry that far back. `before` and `after` tell the ages before and after it. */
  lemma OrderOverBroadcastExactly(cfg: Config, log: Entries, event: Notification, now: nat,
                                  before: Notification -> int, after: Notification -> int)
    requires Distinct(log) && NewestFirst(log, before)
    requires forall n :: n in Kept(cfg.maxLogs, Cleared(log, event)) ==> after(n) == before(n) < after(event)
    ensures NewestFirst(ExecuteBroadcast(cfg, log, event, now).log, after) <==> KeepsOrder(cfg.maxLogs, log, event)
  {
    var kept := Kept(cfg.maxLogs, Cleared(log, event));
    OrderLeftExactly(cfg.maxLogs, log, event, before);
    assert ExecuteBroadcast(cfg, log, event, now).log == [event] + kept;
    assert forall i :: 0 <= i < |kept| ==> kept[i] in kept;
    OrderUnderNewest(kept, event, before, after);
  }

  lemma OrderUnderNewest(kept: Entries, event: Notification, before: Notification -> int, after: Notification -> int)
    requires forall i :: 0 <= i < |kept| ==> after(kept[i]) == before(kept[i]) < after(event)
    ensures NewestFirst([event] + kept, after) <==> NewestFirst(kept, before)
  {
    var log := [event] + kept;
    assert log[0] == event && log[1..] == kept;
    if NewestFirst(kept, before) {
      forall i, j | 0 <= i < j < |log| ensures after(log[i]) > after(log[j]) {
        assert log[j] == kept[j - 1] && after(kept[j - 1]) < after(event);
        if i > 0 {
          assert log[i] == kept[i - 1] && before(kept[i - 1]) > before(kept[j - 1]);
        }
      }
    }
    if NewestFirst(log, after) {
      NewestFirstBelow(log, after);
      forall i, j | 0 <= i < j < |kept| ensures before(kept[i]) > before(kept[j]) {
        assert after(kept[i]) > after(kept[j]);
      }
    }
  }

  lemma NewestFirstBelow(log: Entries, age: Notification -> int)
    requires log != [] && NewestFirst(log, age)
    ensures NewestFirst(log[1..], age)
  {
  }

  function TimeOf(): Notification -> int {
    (n: Notification) => n.time
  }

  /** The same with the time that every notification carries. */
  lemma OrderByTimeExactly(cfg: Config, log: Entries, event: Notification, now: nat)
    requires Distinct(log) && NewestFirst(log, TimeOf()) && forall n :: n in log ==> n.time < event.time
    ensures NewestFirst(ExecuteBroadcast(cfg, log, event, now).log, TimeOf()) <==> KeepsOrder(cfg.maxLogs, log, event)
  {
    ClearedLosesTheReplaced(log, event);
    KeptLosesTheBack(cfg.maxLogs, Cleared(log, event));
    OrderOverBroadcastExactly(cfg, log, event, now, TimeOf(), TimeOf());
  }

  // ---------------------------------------------------------------- a session

  /** When a notification entered the log: at the execution of its latest broadcast, or before the session, and then at
      the time that `born` tells of its id. */
  function Entered(s: Session, born: Nid -> int, i: nat): Notification -> int
    requires i <= |s.runs|
  {
    (n: Notification) =>
      match LastPost(s, i, n.id)
      case Some(k) => k
      case None => born(n.id)
  }

  ghost predicate InOrder(s: Session, born: Nid -> int, i: nat)
    requires i <= |s.runs|
  {
    NewestFirst(At(s, i), Entered(s, born, i))
  }

  /** Loaded entries are older than the session. */
  ghost predicate BornBefore(s: Session, born: Nid -> int) {
    forall n :: n in s.loaded ==> born(n.id) < 0
  }

  ghost predicate KeepsOrderAt(s: Session, k: nat)
    requires k < |s.runs|
  {
    s.runs[k].desc.cmd.Broadcast? ==> KeepsOrder(s.cfg.maxLogs, At(s, k), s.runs[k].desc.cmd.event)
  }

  /** No entry is newer than the execution before which it is there. */
  lemma EnteredBefore(s: Session, born: Nid -> int, i: nat, n: Notification)
    requires Sound(s) && BornBefore(s, born) && i <= |s.runs| && n in At(s, i)
    ensures Entered(s, born, i)(n) < i
  {
    var o := LogRefinesHistory(s, i, n);
  }

  /** A job that is no broadcast leaves the ids in their places. */
  lemma IdsStay(cfg: Config, log: Entries, x: Execution)
    requires !x.desc.cmd.Broadcast?
    ensures |After(cfg, log, x)| == |log|
    ensures forall i :: 0 <= i < |log| ==> After(cfg, log, x)[i].id == log[i].id
  {
    if x.desc.cmd.Read? && Sliceable(log, x.desc.cmd.start, x.desc.cmd.end) {
      var start, end := x.desc.cmd.start, x.desc.cmd.end;
      ReadThroughLength(log, start, end);
      forall i | 0 <= i < |log| ensures ReadThrough(log, start, end)[i].id == log[i].id {
        ReadThroughAt(log, start, end, i);
      }
    }
  }

  lemma OrderOverOthers(s: Session, born: Nid -> int, k: nat)
    requires k < |s.runs| && !s.runs[k].desc.cmd.Broadcast? && InOrder(s, born, k)
    ensures InOrder(s, born, k + 1)
  {
    IdsStay(s.cfg, At(s, k), s.runs[k]);
    forall id ensures LastPost(s, k + 1, id) == LastPost(s, k, id) {
    }
    SameIdsSameOrder(At(s, k), At(s, k + 1), Entered(s, born, k), Entered(s, born, k + 1));
  }

  lemma SameIdsSameOrder(log: Entries, log': Entries, age: Notification -> int, age': Notification -> int)
    requires NewestFirst(log, age) && |log'| == |log|
    requires forall i :: 0 <= i < |log| ==> age'(log'[i]) == age(log[i])
    ensures NewestFirst(log', age')
  {
  }

  lemma SurvivorsAreOthers(maxLogs: Count, log: Entries, event: Notification, n: Notification)
    requires Distinct(log) && WellNumbered(log, event) && n in Kept(maxLogs, Cleared(log, event))
    ensures n in log && n.id != event.id
  {
    ClearedLosesTheReplaced(log, event);
    KeptLosesTheBack(maxLogs, Cleared(log, event));
  }

  lemma AgesOverPost(s: Session, born: Nid -> int, k: nat, n: Notification)
    requires Sound(s) && BornBefore(s, born) && k < |s.runs| && s.runs[k].desc.cmd.Broadcast?
    requires n in At(s, k) && n.id != s.runs[k].desc.cmd.event.id
    ensures Entered(s, born, k + 1)(n) == Entered(s, born, k)(n) < Entered(s, born, k + 1)(s.runs[k].desc.cmd.event)
  {
    EnteredBefore(s, born, k, n);
    assert LastPost(s, k + 1, n.id) == LastPost(s, k, n.id);
    assert LastPost(s, k + 1, s.runs[k].desc.cmd.event.id) == Some(k);
  }

  lemma AgesOfSurvivors(s: Session, born: Nid -> int, k: nat)
    requires Sound(s) && BornBefore(s, born) && k < |s.runs| && s.runs[k].desc.cmd.Broadcast?
    ensures var event := s.runs[k].desc.cmd.event;
            forall n :: n in Kept(s.cfg.maxLogs, Cleared(At(s, k), event)) ==>
              Entered(s, born, k + 1)(n) == Entered(s, born, k)(n) < Entered(s, born, k + 1)(event)
  {
    var event := s.runs[k].desc.cmd.event;
    AtNext(s, k + 1);
    forall n | n in Kept(s.cfg.maxLogs, Cleared(At(s, k), event))
      ensures Entered(s, born, k + 1)(n) == Entered(s, born, k)(n) < Entered(s, born, k + 1)(event)
    {
      SurvivorsAreOthers(s.cfg.maxLogs, At(s, k), event, n);
      AgesOverPost(s, born, k, n);
    }
  }

  lemma LogAfterPost(s: Session, k: nat)
    requires k < |s.runs| && s.runs[k].desc.cmd.Broadcast?
    ensures At(s, k + 1) == ExecuteBroadcast(s.cfg, At(s, k), s.runs[k].desc.cmd.event, s.runs[k].now).log
  {
  }

  lemma OrderOverPost(s: Session, born: Nid -> int, k: nat)
    requires Sound(s) && BornBefore(s, born) && k < |s.runs| && s.runs[k].desc.cmd.Broadcast? && InOrder(s, born, k)
    ensures InOrder(s, born, k + 1) <==> KeepsOrderAt(s, k)
  {
    DistinctAlways(s, k);
    AgesOfSurvivors(s, born, k);
    LogAfterPost(s, k);
    OrderOverBroadcastExactly(s.cfg, At(s, k), s.runs[k].desc.cmd.event, s.runs[k].now, Entered(s, born, k),
                              Entered(s, born, k + 1));
  }

  lemma OrderOverJob(s: Session, born: Nid -> int, k: nat)
    requires Sound(s) && BornBefore(s, born) && k < |s.runs| && InOrder(s, born, k)
    ensures InOrder(s, born, k + 1) <==> KeepsOrderAt(s, k)
  {
    if s.runs[k].desc.cmd.Broadcast? {
      OrderOverPost(s, born, k);
    } else {
      OrderOverOthers(s, born, k);
    }
  }

  /** What is so before every execution up to here is so at the start and kept by each. */
  lemma {:induction false} AlwaysExactly(holds: nat --> bool, kept: nat --> bool, i: nat)
    requires forall k: nat :: k <= i ==> holds.requires(k) && (k < i ==> kept.requires(k))
    requires forall k: nat :: k < i && holds(k) ==> (holds(k + 1) <==> kept(k))
    ensures (forall k: nat :: k <= i ==> holds(k)) <==> holds(0) && forall k: nat :: k < i ==> kept(k)
    decreases i
  {
    if i > 0 {
      AlwaysExactly(holds, kept, i - 1);
      assert holds(i - 1) ==> (holds(i) <==> kept(i - 1));
    }
  }

  /** The log has been newest first up to now exactly if it was loaded so, and every broadcast that replaced an entry
      found it that far back. */
  lemma OrderHoldsExactly(s: Session, born: Nid -> int, i: nat)
    requires Sound(s) && BornBefore(s, born) && i <= |s.runs|
    ensures (forall k: nat :: k <= i ==> InOrder(s, born, k)) <==>
            InOrder(s, born, 0) && forall k: nat :: k < i ==> KeepsOrderAt(s, k)
  {
    forall k: nat | k < i && InOrder(s, born, k) ensures InOrder(s, born, k + 1) <==> KeepsOrderAt(s, k) {
      OrderOverJob(s, born, k);
    }
    var holds := (k: nat) requires k <= |s.runs| => InOrder(s, born, k);
    var kept := (k: nat) requires k < |s.runs| => KeepsOrderAt(s, k);
    AlwaysExactly(holds, kept, i);
    assert forall k: nat :: k <= i ==> (holds(k) <==> InOrder(s, born, k));
    assert forall k: nat :: k < i ==> (kept(k) <==> KeepsOrderAt(s, k));
  }

  // ---------------------------------------------------------------- reads

  /** Entries answered by a read, as they are told apart by age from those before and behind them. */
  ghost predicate WindowInOrder(log: Entries, lo: nat, hi: nat, answer: Entries, age: Notification -> int)
    requires lo <= hi <= |log|
  {
    && NewestFirst(answer, age)
    && (forall n, m :: n in log[..lo] && m in answer ==> age(n) > age(m))
    && (forall n, m :: n in answer && m in log[hi..] ==> age(n) > age(m))
  }

  lemma WindowsAreInOrder(log: Entries, lo: nat, hi: nat, answer: Entries, age: Notification -> int)
    requires lo <= hi <= |log| && |answer| == hi - lo && NewestFirst(log, age)
    requires forall i :: 0 <= i < |answer| ==> age(answer[i]) == age(log[lo + i])
    ensures WindowInOrder(log, lo, hi, answer, age)
  {
    forall i, j | 0 <= i < j < |answer| ensures age(answer[i]) > age(answer[j]) {
      assert age(log[lo + i]) > age(log[lo + j]);
    }
    forall n, m | n in log[..lo] && m in answer ensures age(n) > age(m) {
      var i :| 0 <= i < lo && log[i] == n;
      var j :| 0 <= j < |answer| && answer[j] == m;
      assert age(log[i]) > age(log[lo + j]);
    }
    forall n, m | n in answer && m in log[hi..] ensures age(n) > age(m) {
      var i :| 0 <= i < |answer| && answer[i] == n;
      var j :| hi <= j < |log| && log[j] == m;
      assert age(log[lo + i]) > age(log[j]);
    }
  }

  lemma AnswerOfRead(cfg: Config, log: Entries, desc: JobDesc, now: nat, em: Emission, age: Notification -> int)
    returns (answer: Entries)
    requires desc.cmd.Read? && Execute(cfg, log, desc, now, em).Done?
    requires forall n: Notification :: age(n.(read := true)) == age(n)
    ensures Execute(cfg, log, desc, now, em).effect.reply.result == Ok(Some(ListJson(answer)))
    ensures var lo, hi := Min(|log|, desc.cmd.start), Min(|log|, desc.cmd.end);
            && lo <= hi && |answer| == hi - lo
            && forall i :: 0 <= i < |answer| ==> age(answer[i]) == age(log[lo + i])
  {
    var window := Window(log, desc.cmd.start, desc.cmd.end);
    answer := if !Silent(desc.flags) && window != [] then AllRead(window) else window;
  }

  /** A read answers newest first, with everything before its window newer and everything behind it older, whenever the
      log is newest first; and the answer to a read of everything is newest first only then. */
  lemma ReadsNewestFirstExactly(cfg: Config, log: Entries, desc: JobDesc, now: nat, em: Emission,
                                age: Notification -> int) returns (answer: Entries)
    requires desc.cmd.Read? && Execute(cfg, log, desc, now, em).Done?
    requires forall n: Notification :: age(n.(read := true)) == age(n)
    ensures Execute(cfg, log, desc, now, em).effect.reply.result == Ok(Some(ListJson(answer)))
    ensures var lo, hi := Min(|log|, desc.cmd.start), Min(|log|, desc.cmd.end);
            lo <= hi && (NewestFirst(log, age) ==> WindowInOrder(log, lo, hi, answer, age))
    ensures desc.cmd.start == 0 && desc.cmd.end >= |log| ==> (NewestFirst(answer, age) <==> NewestFirst(log, age))
  {
    answer := AnswerOfRead(cfg, log, desc, now, em, age);
    var lo, hi := Min(|log|, desc.cmd.start), Min(|log|, desc.cmd.end);
    if NewestFirst(log, age) {
      WindowsAreInOrder(log, lo, hi, answer, age);
    }
    if lo == 0 && hi == |log| && NewestFirst(answer, age) {
      SameIdsSameOrder(answer, log, age, age);
    }
  }
}
