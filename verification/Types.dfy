/** The vocabulary shared by every part of the daemon: fixed-width numbers, notifications,
    jobs and the results that jobs produce. */
module Types {

  const U8_LIMIT: nat := 0x100
  const U16_LIMIT: nat := 0x1_0000
  const U32_LIMIT: nat := 0x1_0000_0000

  /** Notification ids and process ids are u32, log counts and timeouts u16, flags u8. */
  type Nid = n: nat | n < U32_LIMIT
  type Pid = n: nat | n < U32_LIMIT
  type Count = n: nat | n < U16_LIMIT
  type Flags = n: nat | n < U8_LIMIT
  type Timeout = n: int | -0x8000_0000 <= n < 0x8000_0000

  datatype Option<+T> = None | Some(value: T)

  datatype Result<+T, +E> = Ok(value: T) | Err(error: E)

  /** What the daemon stores of a notification but never looks into. */
  datatype Content = Content(appName: string, appIcon: string, summary: string, body: string,
                             actions: seq<string>, hints: map<string, string>)

  datatype Notification = Notification(id: Nid, time: nat, read: bool, closed: bool,
                                       replacesId: Nid, timeout: Timeout, content: Content)

  datatype Reason = Expired | Dismissed | CallCloseNotification | Undefined

  datatype Job =
    | Broadcast(event: Notification)
    | Close(id: Nid, reason: Reason)
    | ActionInvoked(id: Nid, actionKey: string)
    | ActivationToken(id: Nid, token: string)
    | Read(start: Count, end: Count)
    | Query(id: Nid)
    | Watch
    | Acknowledge(id: Nid)

  datatype JobDesc = JobDesc(cmd: Job, pid: Pid, flags: Flags)

  const NO_FLAGS: Flags := 0

  /** Bit 0 of the flags is SILENT, bit 1 is FORCE. */
  predicate Silent(flags: Flags) {
    flags % 2 == 1
  }

  predicate Force(flags: Flags) {
    flags / 2 % 2 == 1
  }

  /** The two tests are the masks with 0x01 and 0x02 on the byte. */
  lemma FlagsAreBits(byte: bv8)
    ensures Silent(byte as nat) <==> byte & 0x01 != 0
    ensures Force(byte as nat) <==> byte & 0x02 != 0
  {
    assert byte & 0x01 == byte % 2;
    assert (byte >> 1) & 0x01 == (byte >> 1) % 2;
  }

  datatype EventType =
    | CloseEvent(id: Nid)
    | ActionEvent(id: Nid, actionKey: string)
    | TokenEvent(id: Nid, token: string)

  datatype ResultType = Results | Event(event: EventType) | Other

  datatype FulfilledJob<+B> = FulfilledJob(result: Result<Option<B>, string>, typ: ResultType)

  /** The text a job hands back, before JSON rendering. */
  datatype Body = OneJson(notification: Notification) | ListJson(notifications: seq<Notification>) | Text(text: string)

  type Reply = FulfilledJob<Body>

  /** A job that answers `Ok(None)`: the manager sends nothing back. */
  const NOTHING: Reply := FulfilledJob(Ok(None), Other)

  datatype Config = Config(maxLogs: Count, autoClose: bool, defaultTimeout: Count)

  /** How emitting a D-Bus signal went: no runtime could be built, the bus refused, or it went out. */
  datatype Emission = Emitted | Refused(message: string) | NoRuntime(message: string)

  /** A sleeping expiry thread: it pushes `Close(id, Expired)` once the clock reaches `wake`. */
  datatype Timer = Timer(id: Nid, wake: nat)
}
