/** The messages on the socket: requests, results, and the envelopes around both. */
module Wire {
  import opened Types
  import opened Text

  /** The JSON library, which the daemon only relies on to read back what it wrote. */
  datatype Json = Json(one: Notification -> string, many: seq<Notification> -> string,
        parse: string -> Option<Notification>, parseMany: string -> Option<seq<Notification>>)

  ghost predicate Faithful(json: Json) {
    && (forall n :: json.one(n) != "" && json.parse(json.one(n)) == Some(n))
    && (forall ns :: json.many(ns) != "" && json.parseMany(json.many(ns)) == Some(ns))
  }

  datatype PayloadError = PayloadError(data: string, error: string)

  /** `Unreachable` is where the program stops at an `unreachable!`. */
  datatype Parsed<+T> = Good(value: T) | Bad(error: PayloadError) | Unreachable

  function NoPattern<T>(data: string, pattern: string): Parsed<T> {
    Bad(PayloadError(data, "Pattern [" + pattern + "] was not found in split."))
  }

  function BadNumber<T>(data: string, typ: string, structure: string): Parsed<T> {
    Bad(PayloadError(data, "Invalid parsing for type '" + typ + "' in structure '" + structure + "'."))
  }

  function ParseNumber(data: string, limit: nat, typ: string, structure: string): (r: Parsed<nat>)
    requires limit > 0
    ensures r.Good? ==> r.value < limit
  {
    match ParseUnsigned(data, limit)
    case Some(n) => Good(n)
    case None => BadNumber(data, typ, structure)
  }

  /** `number#number`, as several payloads have it. */
  function ParsePair(data: string, limit1: nat, typ1: string, limit2: nat, typ2: string,
        structure: string): (r: Parsed<(nat, nat)>)
    requires limit1 > 0 && limit2 > 0
    ensures r.Good? ==> r.value.0 < limit1 && r.value.1 < limit2
  {
    match SplitOnce(data, "#")
    case None => NoPattern(data, "'#'")
    case Some((first, second)) =>
      match ParseNumber(first, limit1, typ1, structure)
      case Bad(e) => Bad(e)
      case Unreachable => Unreachable
      case Good(n) =>
        match ParseNumber(second, limit2, typ2, structure)
        case Bad(e) => Bad(e)
        case Unreachable => Unreachable
        case Good(m) => Good((n, m))
  }

  /** `id#text`, where the text may contain anything. */
  function ParseTagged(data: string, structure: string): (r: Parsed<(Nid, string)>) {
    match SplitOnce(data, "#")
    case None => NoPattern(data, "'#'")
    case Some((first, second)) =>
      match ParseNumber(first, U32_LIMIT, "Nid", structure)
      case Bad(e) => Bad(e)
      case Unreachable => Unreachable
      case Good(n) => Good((n, second))
  }

  function ReasonNumber(reason: Reason): nat {
    match reason
    case Expired => 1
    case Dismissed => 2
    case CallCloseNotification => 3
    case Undefined => 4
  }

  function ReasonOf(n: nat): Parsed<Reason> {
    if n == 1 then Good(Expired)
    else if n == 2 then Good(Dismissed)
    else if n == 3 then Good(CallCloseNotification)
    else if n == 4 then Good(Undefined)
    else Unreachable
  }

  // ---------------------------------------------------------------- jobs

  function Name(cmd: Job): string {
    match cmd
    case Broadcast(_) => "broadcast"
    case Close(_, _) => "close"
    case ActionInvoked(_, _) => "action"
    case ActivationToken(_, _) => "activation"
    case Read(_, _) => "read"
    case Query(_) => "query"
    case Watch => "watch"
    case Acknowledge(_) => "close"
  }

  /** Acknowledgements are internal and have no text. */
  function PrintJob(json: Json, cmd: Job): string
    requires !cmd.Acknowledge?
  {
    match cmd
    case Broadcast(event) => json.one(event)
    case Close(id, reason) => Decimal(id) + "#" + Decimal(ReasonNumber(reason))
    case ActionInvoked(id, key) => Decimal(id) + "#" + key
    case ActivationToken(id, token) => Decimal(id) + "#" + token
    case Read(start, end) => Decimal(start) + "#" + Decimal(end)
    case Query(id) => Decimal(id)
    case Watch => "watch"
  }

  function ParseClose(data: string): Parsed<Job> {
    match ParsePair(data, U32_LIMIT, "Nid", U32_LIMIT, "NotificationClosedRepr", "Close")
    case Bad(e) => Bad(e)
    case Unreachable => Unreachable
    case Good((id, n)) =>
      match ReasonOf(n)
      case Good(reason) => Good(Close(id, reason))
      case Bad(e) => Bad(e)
      case Unreachable => Unreachable
  }

  function ParseRead(data: string): Parsed<Job> {
    match ParsePair(data, U16_LIMIT, "LogCountType", U16_LIMIT, "LogCountType", "Read")
    case Good((start, end)) => Good(Read(start, end))
    case Bad(e) => Bad(e)
    case Unreachable => Unreachable
  }

  function ParseQuery(data: string): Parsed<Job> {
    match ParseNumber(data, U32_LIMIT, "Nid", "Query")
    case Good(id) => Good(Query(id))
    case Bad(e) => Bad(e)
    case Unreachable => Unreachable
  }

  function ParseAction(data: string): Parsed<Job> {
    match ParseTagged(data, "Signal")
    case Good((id, key)) => Good(ActionInvoked(id, key))
    case Bad(e) => Bad(e)
    case Unreachable => Unreachable
  }

  function ParseActivation(data: string): Parsed<Job> {
    match ParseTagged(data, "Signal")
    case Good((id, token)) => Good(ActivationToken(id, token))
    case Bad(e) => Bad(e)
    case Unreachable => Unreachable
  }

  function ParseBroadcast(json: Json, data: string): Parsed<Job> {
    match json.parse(data)
    case Some(event) => Good(Broadcast(event))
    case None => Bad(PayloadError(data, "Error while parsing 'event' for 'Broadcast'"))
  }

  function ParseJob(json: Json, data: string): Parsed<Job> {
    match SplitOnce(data, "##")
    case None => NoPattern(data, "\"##\"")
    case Some((typ, rest)) => ParsePayload(json, typ, rest)
  }

  function ParsePayload(json: Json, typ: string, rest: string): Parsed<Job> {
    if typ == "broadcast" then ParseBroadcast(json, rest)
    else if typ == "close" then ParseClose(rest)
    else if typ == "read" then ParseRead(rest)
    else if typ == "watch" then (if rest == "watch" then Good(Watch) else Bad(PayloadError(rest, "Invalid payload")))
    else if typ == "action" then ParseAction(rest)
    else if typ == "activation" then ParseActivation(rest)
    else if typ == "query" then ParseQuery(rest)
    else Unreachable
  }

  function PrintDesc(desc: JobDesc): string {
    Decimal(desc.pid) + "#" + Decimal(desc.flags)
  }

  function PrintJobDesc(json: Json, desc: JobDesc): string
    requires !desc.cmd.Acknowledge?
  {
    PrintDesc(desc) + "##" + (Name(desc.cmd) + "##" + PrintJob(json, desc.cmd))
  }

  /** The job is parsed before the description, so its error comes first. */
  function ParseJobDesc(json: Json, data: string): Parsed<JobDesc> {
    match SplitOnce(data, "##")
    case None => NoPattern(data, "\"##\"")
    case Some((desc, job)) =>
      match ParseJob(json, job)
      case Bad(e) => Bad(e)
      case Unreachable => Unreachable
      case Good(cmd) =>
        match ParsePair(desc, U32_LIMIT, "Pid", U8_LIMIT, "FlagsRepr", "Desc")
        case Bad(e) => Bad(e)
        case Unreachable => Unreachable
        case Good((pid, flags)) => Good(JobDesc(cmd, pid, flags))
  }

  // ---------------------------------------------------------------- envelopes

  datatype TransmissionType = Incoming(pid: Pid) | Outgoing(pid: Pid) | Error

  datatype Transmission = Transmission(typ: TransmissionType, data: string)

  function PrintType(typ: TransmissionType): string {
    match typ
    case Incoming(pid) => "inc" + "#" + Decimal(pid)
    case Outgoing(pid) => "out" + "#" + Decimal(pid)
    case Error => "Err"
  }

  function ParseType(data: string): Parsed<TransmissionType> {
    if data == "Err" then Good(Error)
    else match SplitOnce(data, "#")
      case None => NoPattern(data, "'#'")
      case Some((first, second)) =>
        match ParseNumber(second, U32_LIMIT, "Pid", "TransmissionType")
        case Bad(e) => Bad(e)
        case Unreachable => Unreachable
        case Good(pid) =>
          if first == "inc" then Good(Incoming(pid))
          else if first == "out" then Good(Outgoing(pid))
          else Bad(PayloadError(first, "Invalid type for 'TransmissionType' enum."))
  }

  function PrintTransmission(tr: Transmission): string {
    PrintType(tr.typ) + "##" + tr.data
  }

  function ParseTransmission(data: string): Parsed<Transmission> {
    match SplitOnce(data, "##")
    case None => NoPattern(data, "\"##\"")
    case Some((first, second)) =>
      match ParseType(first)
      case Good(typ) => Good(Transmission(typ, second))
      case Bad(e) => Bad(e)
      case Unreachable => Unreachable
  }

  // ---------------------------------------------------------------- results

  function PrintEvent(event: EventType): string {
    match event
    case CloseEvent(id) => "cls" + "#" + Decimal(id)
    case ActionEvent(id, key) => "act" + "#" + (Decimal(id) + "#" + key)
    case TokenEvent(id, token) => "acv" + "#" + (Decimal(id) + "#" + token)
  }

  function ParseEvent(data: string): Parsed<EventType> {
    match SplitOnce(data, "#")
    case None => NoPattern(data, "'#'")
    case Some((typ, rest)) =>
      if typ == "cls" then
        match ParseNumber(rest, U32_LIMIT, "Nid", "EventType")
        case Good(id) => Good(CloseEvent(id))
        case Bad(e) => Bad(e)
        case Unreachable => Unreachable
      else if typ == "act" then
        match ParseTagged(rest, "EventType")
        case Good((id, key)) => Good(ActionEvent(id, key))
        case Bad(e) => Bad(e)
        case Unreachable => Unreachable
      else if typ == "acv" then
        match ParseTagged(rest, "EventType")
        case Good((id, token)) => Good(TokenEvent(id, token))
        case Bad(e) => Bad(e)
        case Unreachable => Unreachable
      else Bad(PayloadError(typ, "Bad type for 'EventType'."))
  }

  type Debug = Result<Option<string>, string> -> string

  /** `debug` is the language's own rendering of a result, used for everything that is neither an event nor results. */
  function PrintFulfilled(debug: Debug, f: FulfilledJob<string>): string {
    match f.typ
    case Event(event) => "ev" + "#" + PrintEvent(event)
    case Other => "oth" + "#" + debug(f.result)
    case Results =>
      match f.result
      case Err(message) => "err" + "#" + message
      case Ok(Some(text)) => if text != "" then "res" + "#" + text else ""
      case Ok(None) => ""
  }

  function ParseFulfilled(data: string): Parsed<FulfilledJob<string>> {
    if data == "" then Good(FulfilledJob(Ok(None), Other))
    else match SplitOnce(data, "#")
      case None => NoPattern(data, "'#'")
      case Some((typ, rest)) =>
        if typ == "err" then Good(FulfilledJob(Err(rest), Other))
        else if typ == "res" then Good(FulfilledJob(Ok(Some(rest)), Results))
        else if typ == "ev" then
          match ParseEvent(rest)
          case Good(event) => Good(FulfilledJob(Ok(None), Event(event)))
          case Bad(e) => Bad(e)
          case Unreachable => Unreachable
        else if typ == "oth" then Good(FulfilledJob(Ok(Some(rest)), Other))
        else Bad(PayloadError(typ, "Invalid type for 'FulfilledJob'."))
  }

  function Render(json: Json, body: Body): string {
    match body
    case OneJson(n) => json.one(n)
    case ListJson(ns) => json.many(ns)
    case Text(s) => s
  }

  function RenderReply(json: Json, reply: Reply): FulfilledJob<string> {
    match reply.result
    case Ok(Some(body)) => FulfilledJob(Ok(Some(Render(json, body))), reply.typ)
    case Ok(None) => FulfilledJob(Ok(None), reply.typ)
    case Err(message) => FulfilledJob(Err(message), reply.typ)
  }

  // ---------------------------------------------------------------- round trips

  lemma PairRoundTrip(n: nat, limit1: nat, typ1: string, m: nat, limit2: nat, typ2: string, structure: string)
    requires n < limit1 && m < limit2
    ensures ParsePair(Decimal(n) + "#" + Decimal(m), limit1, typ1, limit2, typ2, structure) == Good((n, m))
  {
    DecimalHasNoHash(n);
    SplitAtHash(Decimal(n), Decimal(m));
    DecimalRoundTrip(n, limit1);
    DecimalRoundTrip(m, limit2);
  }

  /** Free text comes back whole, even if it contains or starts with `#`. */
  lemma TaggedRoundTrip(id: Nid, text: string, structure: string)
    ensures ParseTagged(Decimal(id) + "#" + text, structure) == Good((id, text))
  {
    DecimalHasNoHash(id);
    SplitAtHash(Decimal(id), text);
    DecimalRoundTrip(id, U32_LIMIT);
  }

  lemma JobRoundTrip(json: Json, cmd: Job)
    requires !cmd.Acknowledge? && (cmd.Broadcast? ==> Faithful(json))
    ensures ParseJob(json, Name(cmd) + "##" + PrintJob(json, cmd)) == Good(cmd)
  {
    SplitAtHashes(Name(cmd), PrintJob(json, cmd));
    NamesLead(json, cmd, PrintJob(json, cmd));
    PayloadRoundTrip(json, cmd);
  }

  lemma PayloadRoundTrip(json: Json, cmd: Job)
    requires !cmd.Acknowledge? && (cmd.Broadcast? ==> Faithful(json))
    ensures ParseLike(json, cmd, PrintJob(json, cmd)) == Good(cmd)
  {
    match cmd {
      case Broadcast(event) =>
      case Close(id, reason) => CloseRoundTrip(id, reason);
      case ActionInvoked(id, key) => TaggedRoundTrip(id, key, "Signal");
      case ActivationToken(id, token) => TaggedRoundTrip(id, token, "Signal");
      case Read(start, end) => ReadRoundTrip(start, end);
      case Query(id) => DecimalRoundTrip(id, U32_LIMIT);
      case Watch =>
    }
  }

  /** What the parser for jobs of this kind makes of a payload. */
  function ParseLike(json: Json, cmd: Job, payload: string): Parsed<Job>
    requires !cmd.Acknowledge?
  {
    match cmd
    case Broadcast(_) => ParseBroadcast(json, payload)
    case Close(_, _) => ParseClose(payload)
    case ActionInvoked(_, _) => ParseAction(payload)
    case ActivationToken(_, _) => ParseActivation(payload)
    case Read(_, _) => ParseRead(payload)
    case Query(_) => ParseQuery(payload)
    case Watch => if payload == "watch" then Good(Watch) else Bad(PayloadError(payload, "Invalid payload"))
  }

  /** Each name leads to its own parser. */
  lemma NamesLead(json: Json, cmd: Job, payload: string)
    requires !cmd.Acknowledge?
    ensures ParsePayload(json, Name(cmd), payload) == ParseLike(json, cmd, payload)
  {
  }

  lemma CloseRoundTrip(id: Nid, reason: Reason)
    ensures ParseClose(Decimal(id) + "#" + Decimal(ReasonNumber(reason))) == Good(Close(id, reason))
  {
    PairRoundTrip(id, U32_LIMIT, "Nid", ReasonNumber(reason), U32_LIMIT, "NotificationClosedRepr", "Close");
  }

  lemma ReadRoundTrip(start: Count, end: Count)
    ensures ParseRead(Decimal(start) + "#" + Decimal(end)) == Good(Read(start, end))
  {
    PairRoundTrip(start, U16_LIMIT, "LogCountType", end, U16_LIMIT, "LogCountType", "Read");
  }

  /** One `#` between two parts without any is no place for `##`. */
  lemma SplitAfterPair(a: string, b: string, rest: string)
    requires NoHash(a) && NoHash(b) && b != ""
    ensures SplitOnce(a + "#" + b + "##" + rest, "##") == Some((a + "#" + b, rest))
  {
    var s := a + "#" + b;
    forall i | 0 <= i < |s| && s[i] == '#' ensures i + 1 < |s| && s[i + 1] != '#' {
      assert i == |a|;
      assert s[i + 1] == b[0];
    }
    SplitAtHashes(s, rest);
  }

  lemma JobDescRoundTrip(json: Json, desc: JobDesc)
    requires !desc.cmd.Acknowledge? && (desc.cmd.Broadcast? ==> Faithful(json))
    ensures ParseJobDesc(json, PrintJobDesc(json, desc)) == Good(desc)
  {
    var job := Name(desc.cmd) + "##" + PrintJob(json, desc.cmd);
    DecimalHasNoHash(desc.pid);
    DecimalHasNoHash(desc.flags);
    SplitAfterPair(Decimal(desc.pid), Decimal(desc.flags), job);
    JobRoundTrip(json, desc.cmd);
    PairRoundTrip(desc.pid, U32_LIMIT, "Pid", desc.flags, U8_LIMIT, "FlagsRepr", "Desc");
  }

  lemma TransmissionRoundTrip(tr: Transmission)
    ensures ParseTransmission(PrintTransmission(tr)) == Good(tr)
  {
    match tr.typ {
      case Error => SplitAtHashes("Err", tr.data);
      case Incoming(pid) => EnvelopeRoundTrip("inc", pid, tr.data);
      case Outgoing(pid) => EnvelopeRoundTrip("out", pid, tr.data);
    }
  }

  lemma EnvelopeRoundTrip(tag: string, pid: Pid, data: string)
    requires tag == "inc" || tag == "out"
    ensures SplitOnce(tag + "#" + Decimal(pid) + "##" + data, "##") == Some((tag + "#" + Decimal(pid), data))
    ensures ParseType(tag + "#" + Decimal(pid)) == Good(if tag == "inc" then Incoming(pid) else Outgoing(pid))
  {
    DecimalHasNoHash(pid);
    SplitAfterPair(tag, Decimal(pid), data);
    SplitAtHash(tag, Decimal(pid));
    DecimalRoundTrip(pid, U32_LIMIT);
    assert (tag + "#" + Decimal(pid))[3] == '#';
    assert |"Err"| == 3;
  }

  /** A request goes through both levels unchanged: envelope, process id, flags and job, for any free text in it. */
  lemma RequestRoundTrip(json: Json, desc: JobDesc)
    requires !desc.cmd.Acknowledge? && (desc.cmd.Broadcast? ==> Faithful(json))
    ensures var text := PrintTransmission(Transmission(Incoming(desc.pid), PrintJobDesc(json, desc)));
            && ParseTransmission(text) == Good(Transmission(Incoming(desc.pid), PrintJobDesc(json, desc)))
            && ParseJobDesc(json, ParseTransmission(text).value.data) == Good(desc)
  {
    TransmissionRoundTrip(Transmission(Incoming(desc.pid), PrintJobDesc(json, desc)));
    JobDescRoundTrip(json, desc);
  }

  /** So no two different requests have the same text. */
  lemma RequestsDiffer(json: Json, a: JobDesc, b: JobDesc)
    requires !a.cmd.Acknowledge? && !b.cmd.Acknowledge? && Faithful(json)
    requires PrintTransmission(Transmission(Incoming(a.pid), PrintJobDesc(json, a)))
             == PrintTransmission(Transmission(Incoming(b.pid), PrintJobDesc(json, b)))
    ensures a == b
  {
    RequestRoundTrip(json, a);
    RequestRoundTrip(json, b);
  }

  lemma EventRoundTrip(event: EventType)
    ensures ParseEvent(PrintEvent(event)) == Good(event)
  {
    match event {
      case CloseEvent(id) =>
        SplitAtHash("cls", Decimal(id));
        DecimalRoundTrip(id, U32_LIMIT);
      case ActionEvent(id, key) =>
        SplitAtHash("act", Decimal(id) + "#" + key);
        TaggedRoundTrip(id, key, "EventType");
      case TokenEvent(id, token) =>
        SplitAtHash("acv", Decimal(id) + "#" + token);
        TaggedRoundTrip(id, token, "EventType");
    }
  }

  predicate HasResults(f: FulfilledJob<string>) {
    f.typ.Results? && f.result.Ok? && f.result.value.Some? && f.result.value.value != ""
  }

  /** Every printed result can be read; it reads as results exactly if it was results with a text, and then with that
      text; events come back exactly; an error in place of results comes back as that error. */
  lemma ResultsSurvive(debug: Debug, f: FulfilledJob<string>)
    ensures var back := ParseFulfilled(PrintFulfilled(debug, f));
            && back.Good?
            && (back.value.typ.Results? <==> HasResults(f))
            && (HasResults(f) ==> back.value == f)
            && (f.typ.Event? <==> back.value.typ.Event?)
            && (f.typ.Event? ==> back.value == FulfilledJob(Ok(None), f.typ))
            && (f.typ.Results? && f.result.Err? ==> back.value == FulfilledJob(f.result, Other))
  {
    match f.typ {
      case Event(event) =>
        SplitAtHash("ev", PrintEvent(event));
        EventRoundTrip(event);
      case Other => SplitAtHash("oth", debug(f.result));
      case Results =>
        match f.result {
          case Err(message) => SplitAtHash("err", message);
          case Ok(Some(text)) => SplitAtHash("res", text);
          case Ok(None) =>
        }
    }
  }

  // ---------------------------------------------------------------- the texts themselves

  /** The messages that the documentation of the protocol shows. */
  lemma EventTexts(debug: Debug)
    ensures PrintFulfilled(debug, FulfilledJob(Ok(Some("")), Event(CloseEvent(1)))) == "ev#cls#1"
    ensures PrintFulfilled(debug, FulfilledJob(Ok(Some("")), Event(ActionEvent(2, "Ok")))) == "ev#act#2#Ok"
    ensures PrintFulfilled(debug, FulfilledJob(Ok(Some("")), Event(TokenEvent(2, "#t")))) == "ev#acv#2##t"
  {
    Digits();
  }

  lemma ResultTexts(debug: Debug, result: Result<Option<string>, string>)
    ensures PrintFulfilled(debug, FulfilledJob(Ok(Some("[]")), Results)) == "res#[]"
    ensures PrintFulfilled(debug, FulfilledJob(Err("down"), Results)) == "err#down"
    ensures PrintFulfilled(debug, FulfilledJob(result, Other)) == "oth#" + debug(result)
  {
  }

  /** Rust renders a result by its variant first. */
  ghost predicate NamesTheVariant(debug: Debug) {
    forall r :: |debug(r)| >= 3 && debug(r)[..3] == if r.Ok? then "Ok(" else "Err"
  }

  /** So no message is the one that the documentation shows for other results, which has the bare text. */
  lemma DocumentedOtherIsNeverPrinted(debug: Debug, f: FulfilledJob<string>)
    requires NamesTheVariant(debug)
    ensures PrintFulfilled(debug, f) != "oth#Internal error: server is down"
  {
    var documented := "oth#Internal error: server is down";
    match f.typ {
      case Event(event) => assert PrintFulfilled(debug, f)[0] == 'e' && documented[0] == 'o';
      case Other =>
        assert PrintFulfilled(debug, f)[4] == debug(f.result)[..3][0];
        assert documented[4] == 'I';
      case Results => assert PrintFulfilled(debug, f) == "" || PrintFulfilled(debug, f)[0] != 'o';
    }
  }

  /** The name of each job, and the numbers that the Desktop Notifications protocol gives to the reasons of a close. */
  lemma RequestTexts(json: Json, n: Notification)
    ensures PrintJobDesc(json, JobDesc(Close(7, Expired), 0, 0)) == "0#0##" + ("close##" + "7#1")
    ensures PrintJobDesc(json, JobDesc(Close(7, Dismissed), 0, 2)) == "0#2##" + ("close##" + "7#2")
    ensures PrintJobDesc(json, JobDesc(Close(7, CallCloseNotification), 0, 0)) == "0#0##" + ("close##" + "7#3")
    ensures PrintJobDesc(json, JobDesc(Close(7, Undefined), 0, 0)) == "0#0##" + ("close##" + "7#4")
    ensures PrintJobDesc(json, JobDesc(Broadcast(n), 0, 0)) == "0#0##" + ("broadcast##" + json.one(n))
  {
    Digits();
  }

  lemma SignalTexts(json: Json)
    ensures PrintJobDesc(json, JobDesc(ActionInvoked(7, "##"), 0, 2)) == "0#2##" + ("action##" + "7###")
    ensures PrintJobDesc(json, JobDesc(ActivationToken(7, "t"), 0, 0)) == "0#0##" + ("activation##" + "7#t")
  {
    Digits();
  }

  lemma QuestionTexts(json: Json)
    ensures PrintJobDesc(json, JobDesc(Read(0, 5), 9, 1)) == "9#1##" + ("read##" + "0#5")
    ensures PrintJobDesc(json, JobDesc(Query(7), 9, 0)) == "9#0##" + ("query##" + "7")
    ensures PrintJobDesc(json, JobDesc(Watch, 9, 1)) == "9#1##" + ("watch##" + "watch")
  {
    Digits();
  }

  lemma Digits()
    ensures Decimal(0) == "0" && Decimal(1) == "1" && Decimal(2) == "2" && Decimal(3) == "3" && Decimal(4) == "4"
    ensures Decimal(5) == "5" && Decimal(7) == "7" && Decimal(9) == "9"
  {
  }

  lemma EnvelopeTexts()
    ensures PrintTransmission(Transmission(Incoming(9), "x")) == "inc#9##x"
    ensures PrintTransmission(Transmission(Outgoing(0), "x")) == "out#0##x"
    ensures PrintTransmission(Transmission(Error, "x")) == "Err##x"
  {
    Digits();
  }
}
