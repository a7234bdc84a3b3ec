/** What the threads share: the job list, the wake-up channel, and the log file. */
module Shared {
  import opened Types
  import opened Log

  /** The job list behind its lock, which nobody gets any more once a thread has panicked while holding it. */
  class SyncList {
    var jobs: seq<JobDesc>
    var poisoned: bool

    constructor ()
      ensures jobs == [] && !poisoned
    {
      jobs, poisoned := [], false;
    }

    method Lock() returns (ok: bool)
      ensures ok == !poisoned
    {
      ok := !poisoned;
    }

    method Poison()
      modifies this`poisoned
      ensures poisoned
    {
      poisoned := true;
    }

    method PushBack(desc: JobDesc)
      requires !poisoned
      modifies this`jobs
      ensures jobs == old(jobs) + [desc]
    {
      jobs := jobs + [desc];
    }

    /** Other threads push, one after the other. */
    method PushAll(descs: seq<JobDesc>)
      requires !poisoned
      modifies this`jobs
      ensures jobs == old(jobs) + descs
    {
      jobs := jobs + descs;
    }

    method PopFront() returns (desc: Option<JobDesc>)
      requires !poisoned
      modifies this`jobs
      ensures old(jobs) == [] ==> desc == None && jobs == []
      ensures old(jobs) != [] ==> desc.Some? && old(jobs) == [desc.value] + jobs
    {
      if jobs == [] {
        desc := None;
      } else {
        desc := Some(jobs[0]);
        jobs := jobs[1..];
      }
    }
  }

  /** The wake-up channel: `open` until the receiving thread ends. */
  class Notifier {
    var tokens: nat
    var open: bool

    constructor ()
      ensures tokens == 0 && open
    {
      tokens, open := 0, true;
    }

    method Send() returns (ok: bool)
      modifies this`tokens
      ensures ok == open && tokens == (if ok then old(tokens) + 1 else old(tokens))
    {
      ok := open;
      if ok {
        tokens := tokens + 1;
      }
    }

    /** Other threads send this many tokens. */
    method SendAll(count: nat)
      requires open
      modifies this`tokens
      ensures tokens == old(tokens) + count
    {
      tokens := tokens + count;
    }

    method Hang()
      modifies this`open
      ensures !open
    {
      open := false;
    }

    method Receive() returns (ok: bool)
      modifies this`tokens
      ensures ok == (old(tokens) > 0)
      ensures tokens == if ok then old(tokens) - 1 else 0
    {
      ok := tokens > 0;
      if ok {
        tokens := tokens - 1;
      }
    }
  }

  class LogFile {
    var content: Entries

    constructor (stored: Entries)
      ensures content == stored
    {
      content := stored;
    }
  }
}
