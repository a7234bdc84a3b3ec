/** The bounded log of notifications, as pure operations on its deque. */
module Log {
  import opened Types

  type Entries = seq<Notification>

  ghost predicate Distinct(log: Entries) {
    forall i, j :: 0 <= i < j < |log| ==> log[i].id != log[j].id
  }

  predicate HasId(log: Entries, id: Nid) {
    exists n :: n in log && n.id == id
  }

  /** Index of the first entry with this id. */
  function Position(log: Entries, id: Nid): (pos: Option<nat>)
    ensures pos.Some? ==> pos.value < |log| && log[pos.value].id == id
    ensures pos.Some? ==> forall i :: 0 <= i < pos.value ==> log[i].id != id
    ensures pos.None? <==> !HasId(log, id)
  {
    if log == [] then None
    else if log[0].id == id then Some(0)
    else match Position(log[1..], id)
      case Some(p) => Some(p + 1)
      case None => None
  }

  function Find(log: Entries, id: Nid): (entry: Option<Notification>)
    ensures entry.Some? ==> entry.value in log && entry.value.id == id
    ensures entry.None? <==> !HasId(log, id)
  {
    match Position(log, id)
    case Some(p) => Some(log[p])
    case None => None
  }

  /** With distinct ids, looking up an id and membership are the same thing. */
  lemma FindIsMembership(log: Entries, n: Notification)
    requires Distinct(log)
    ensures n in log <==> Find(log, n.id) == Some(n)
  {
    if n in log {
      var i :| 0 <= i < |log| && log[i] == n;
      var p := Position(log, n.id).value;
      assert p == i;
    }
  }

  lemma SameIdSameEntry(log: Entries, n: Notification, m: Notification)
    requires Distinct(log) && n in log && m in log && n.id == m.id
    ensures n == m
  {
    FindIsMembership(log, n);
    FindIsMembership(log, m);
  }

  /** Takes out the entry at `pos`; the back entry moves into the hole. */
  function SwapRemoveBack(log: Entries, pos: nat): (rest: Entries)
    requires pos < |log|
    ensures |rest| == |log| - 1
  {
    log[pos := log[|log| - 1]][..|log| - 1]
  }

  function Remove(log: Entries, id: Nid): Entries {
    match Position(log, id)
    case Some(p) => SwapRemoveBack(log, p)
    case None => log
  }

  lemma SwapRemoveBackKeepsTheRest(log: Entries, pos: nat)
    requires pos < |log|
    ensures multiset(SwapRemoveBack(log, pos)) + multiset{log[pos]} == multiset(log)
  {
    var last := |log| - 1;
    var rest := SwapRemoveBack(log, pos);
    assert log == log[..last] + [log[last]];
    if pos != last {
      var front := log[..last];
      assert rest == front[pos := log[last]];
      assert multiset(rest) == multiset(front) - multiset{front[pos]} + multiset{log[last]};
    } else {
      assert rest == log[..last];
    }
  }

  /** Replacement takes out the entry with that id and nothing else, whatever it does to the order. */
  lemma RemoveTakesOne(log: Entries, id: Nid)
    requires Distinct(log)
    ensures Distinct(Remove(log, id))
    ensures !HasId(Remove(log, id), id)
    ensures forall n :: n in Remove(log, id) <==> n in log && n.id != id
    ensures multiset(log) == multiset(Remove(log, id))
                             + (if HasId(log, id) then multiset{Find(log, id).value} else multiset{})
  {
    var rest := Remove(log, id);
    match Position(log, id) {
      case None =>
      case Some(p) =>
        SwapRemoveBackKeepsTheRest(log, p);
        var last := |log| - 1;
        forall i | 0 <= i < last ensures rest[i] == log[if i == p then last else i] {
        }
        forall n | n in log && n.id != id ensures n in rest {
          var i :| 0 <= i < |log| && log[i] == n;
          assert i != p;
          assert rest[if i == last then p else i] == n;
        }
    }
  }

  /** Evicts the back entry when the log is exactly full, then puts the new one in front. */
  function Append(maxLogs: Count, log: Entries, n: Notification): Entries {
    [n] + Kept(maxLogs, log)
  }

  function Kept(maxLogs: Count, log: Entries): Entries {
    if |log| == maxLogs && |log| > 0 then log[..|log| - 1] else log
  }

  /** The entry pushed off the back by an append. */
  function Overflow(maxLogs: Count, log: Entries): Option<Notification> {
    if |log| == maxLogs && |log| > 0 then Some(log[|log| - 1]) else None
  }

  function Single(entry: Option<Notification>): multiset<Notification> {
    if entry.Some? then multiset{entry.value} else multiset{}
  }

  lemma KeptLosesTheBack(maxLogs: Count, log: Entries)
    requires Distinct(log)
    ensures Distinct(Kept(maxLogs, log))
    ensures multiset(log) == multiset(Kept(maxLogs, log)) + Single(Overflow(maxLogs, log))
    ensures forall n :: n in Kept(maxLogs, log) <==> n in log && Overflow(maxLogs, log) != Some(n)
  {
    var kept := Kept(maxLogs, log);
    if Overflow(maxLogs, log).Some? {
      assert log == kept + [log[|log| - 1]];
      forall n | n in kept ensures n != log[|log| - 1] {
        var i :| 0 <= i < |kept| && kept[i] == n;
        assert log[i].id != log[|log| - 1].id;
      }
    }
  }

  /** The bound survives an append exactly when the log was within it and the bound is not zero:
      eviction tests for equality, so a log that is once too long only grows. */
  lemma AppendBound(maxLogs: Count, log: Entries, n: Notification)
    ensures |Append(maxLogs, log, n)| <= maxLogs <==> |log| <= maxLogs && maxLogs != 0
    ensures |log| > maxLogs || maxLogs == 0 ==> |Append(maxLogs, log, n)| == |log| + 1
  {
  }

  lemma PushFrontKeepsDistinct(log: Entries, n: Notification)
    requires Distinct(log)
    ensures Distinct([n] + log) <==> !HasId(log, n.id)
  {
    var out := [n] + log;
    if HasId(log, n.id) {
      var m :| m in log && m.id == n.id;
      var i :| 0 <= i < |log| && log[i] == m;
      assert out[0].id == out[i + 1].id;
    } else {
      forall i, j | 0 <= i < j < |out| ensures out[i].id != out[j].id {
        assert out[j] == log[j - 1] && log[j - 1] in log;
        assert i > 0 ==> out[i] == log[i - 1];
      }
    }
  }

  /** Sets one flag of the first entry with this id, in place. */
  function MarkClosed(log: Entries, id: Nid): Entries {
    match Position(log, id)
    case Some(p) => log[p := log[p].(closed := true)]
    case None => log
  }

  function MarkRead(log: Entries, id: Nid): Entries {
    match Position(log, id)
    case Some(p) => log[p := log[p].(read := true)]
    case None => log
  }

  lemma UpdateTouchesOneEntry(log: Entries, p: nat, changed: Notification, n: Notification)
    requires Distinct(log) && p < |log| && changed.id == log[p].id
    ensures Distinct(log[p := changed])
    ensures n in log[p := changed] <==> if n.id == changed.id then n == changed else n in log
  {
    var out := log[p := changed];
    if n in log && n.id != changed.id {
      var i :| 0 <= i < |log| && log[i] == n;
      assert out[i] == n;
    }
    assert out[p] == changed;
  }

  /** Both marks leave every other entry alone and set exactly one flag of the entry named. */
  lemma MarksTouchOneEntry(log: Entries, id: Nid, n: Notification)
    requires Distinct(log)
    ensures Distinct(MarkClosed(log, id)) && Distinct(MarkRead(log, id))
    ensures n in MarkClosed(log, id) <==>
            if n.id == id then n.closed && (n in log || n.(closed := false) in log) else n in log
    ensures n in MarkRead(log, id) <==>
            if n.id == id then n.read && (n in log || n.(read := false) in log) else n in log
  {
    match Position(log, id) {
      case None =>
      case Some(p) =>
        var m := log[p];
        UpdateTouchesOneEntry(log, p, m.(closed := true), n);
        UpdateTouchesOneEntry(log, p, m.(read := true), n);
        OnlyEntry(log, p, n);
        OnlyEntry(log, p, n.(closed := false));
        OnlyEntry(log, p, n.(read := false));
    }
  }

  lemma OnlyEntry(log: Entries, p: nat, n: Notification)
    requires Distinct(log) && p < |log|
    ensures n.id == log[p].id ==> (n in log <==> n == log[p])
  {
  }

  function Min(a: nat, b: nat): nat {
    if a <= b then a else b
  }

  function AllRead(ns: Entries): (out: Entries)
    ensures |out| == |ns|
    ensures forall i :: 0 <= i < |ns| ==> out[i] == ns[i].(read := true)
  {
    seq(|ns|, i requires 0 <= i < |ns| => ns[i].(read := true))
  }

  /** The slice bounds of a read are clamped to the log; a slice whose clamped start lies
      behind its clamped end does not exist and the program stops. */
  predicate Sliceable(log: Entries, start: Count, end: Count) {
    Min(|log|, start) <= Min(|log|, end)
  }

  function Window(log: Entries, start: Count, end: Count): Entries
    requires Sliceable(log, start, end)
  {
    log[Min(|log|, start)..Min(|log|, end)]
  }

  /** The log after a read of this window that marks what it returns. */
  function ReadThrough(log: Entries, start: Count, end: Count): Entries
    requires Sliceable(log, start, end)
  {
    log[..Min(|log|, start)] + AllRead(Window(log, start, end)) + log[Min(|log|, end)..]
  }

  lemma SliceableExactly(log: Entries, start: Count, end: Count)
    ensures Sliceable(log, start, end) <==> start <= end || |log| <= end
  {
  }

  lemma ReadThroughAt(log: Entries, start: Count, end: Count, i: nat)
    requires Sliceable(log, start, end) && i < |log|
    ensures |ReadThrough(log, start, end)| == |log|
    ensures ReadThrough(log, start, end)[i] == if start <= i < end then log[i].(read := true) else log[i]
  {
    assert log == log[..Min(|log|, start)] + Window(log, start, end) + log[Min(|log|, end)..];
  }

  /** Two adjacent reads return the same entries and leave the same log as one long read. */
  lemma ReadsCompose(log: Entries, start: Count, middle: Count, end: Count)
    requires start <= middle <= end
    ensures var once := ReadThrough(log, start, middle);
            && Window(ReadThrough(log, start, end), start, end)
               == Window(once, start, middle) + Window(ReadThrough(once, middle, end), middle, end)
            && ReadThrough(once, middle, end) == ReadThrough(log, start, end)
  {
    var once := ReadThrough(log, start, middle);
    var all := ReadThrough(log, start, end);
    ReadsLeaveTheSameLog(log, start, middle, end);
    forall i | 0 <= i < Min(|log|, middle) ensures once[i] == all[i] {
      ReadThroughAt(log, start, middle, i);
      ReadThroughAt(log, start, end, i);
    }
    SplitWindow(once, all, Min(|log|, start), Min(|log|, middle), Min(|log|, end));
  }

  lemma ReadThroughLength(log: Entries, start: Count, end: Count)
    requires Sliceable(log, start, end)
    ensures |ReadThrough(log, start, end)| == |log|
  {
  }

  lemma ReadsLeaveTheSameLog(log: Entries, start: Count, middle: Count, end: Count)
    requires start <= middle <= end
    ensures |ReadThrough(log, start, middle)| == |log| == |ReadThrough(log, start, end)|
    ensures ReadThrough(ReadThrough(log, start, middle), middle, end) == ReadThrough(log, start, end)
  {
    var once := ReadThrough(log, start, middle);
    ReadThroughLength(log, start, middle);
    ReadThroughLength(log, start, end);
    ReadThroughLength(once, middle, end);
    forall i | 0 <= i < |log| ensures ReadThrough(once, middle, end)[i] == ReadThrough(log, start, end)[i] {
      ReadThroughAt(log, start, middle, i);
      ReadThroughAt(once, middle, end, i);
      ReadThroughAt(log, start, end, i);
    }
  }

  lemma SplitWindow(once: Entries, all: Entries, start: nat, middle: nat, end: nat)
    requires start <= middle <= end <= |all| == |once|
    requires forall i :: 0 <= i < middle ==> once[i] == all[i]
    ensures all[start..end] == once[start..middle] + all[middle..end]
  {
  }

  /** Largest id in the log, or 0: where the id counter starts. */
  function MaxId(log: Entries): (top: Nid)
    ensures forall n :: n in log ==> n.id <= top
    ensures log == [] ==> top == 0
    ensures log != [] ==> HasId(log, top)
  {
    if log == [] then 0
    else
      var rest := MaxId(log[1..]);
      assert forall n :: n in log ==> n == log[0] || n in log[1..];
      if log[1..] == [] || log[0].id >= rest then
        assert log[0] in log;
        log[0].id
      else
        rest
  }
}
