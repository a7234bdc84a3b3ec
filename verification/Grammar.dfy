/** Which texts the parsers accept, exactly, and which errors the others are answered with. */
module Grammar {
  import opened Types
  import opened Text
  import opened Wire

  // ---------------------------------------------------------------- numbers

  function Zeros(k: nat): string {
    if k == 0 then "" else "0" + Zeros(k - 1)
  }

  /** A number in base ten, perhaps behind zeros, and perhaps one plus sign in front of it all. */
  ghost predicate IsNumeral(s: string, n: nat) {
    exists k :: s == Zeros(k) + Decimal(n) || s == "+" + (Zeros(k) + Decimal(n))
  }

  lemma ZerosHaveNoHash(k: nat)
    ensures NoHash(Zeros(k)) && (k > 0 ==> Zeros(k)[0] == '0')
  {
  }

  lemma NumeralHasNoHash(s: string, n: nat)
    requires IsNumeral(s, n)
    ensures NoHash(s) && s != ""
  {
    var k :| s == Zeros(k) + Decimal(n) || s == "+" + (Zeros(k) + Decimal(n));
    ZerosHaveNoHash(k);
  }

  lemma ZerosFromTheRight(k: nat)
    ensures Zeros(k) + "0" == Zeros(k + 1)
  {
    if k > 0 {
      ZerosFromTheRight(k - 1);
      assert Zeros(k) + "0" == "0" + (Zeros(k - 1) + "0");
    }
  }

  lemma {:induction false} ZerosAreSkipped(k: nat, s: string, limit: nat)
    requires limit > 0
    ensures ParseDigits(Zeros(k) + s, 0, limit) == ParseDigits(s, 0, limit)
  {
    if k == 0 {
      assert Zeros(0) + s == s;
    } else {
      assert (Zeros(k) + s)[1..] == Zeros(k - 1) + s;
      ZerosAreSkipped(k - 1, s, limit);
    }
  }

  lemma {:induction false} OnlyDigitsAreRead(s: string, acc: nat, limit: nat)
    requires acc < limit && ParseDigits(s, acc, limit).Some?
    ensures forall i :: 0 <= i < |s| ==> IsDigit(s[i])
  {
    if s != "" {
      OnlyDigitsAreRead(s[1..], acc * 10 + DigitValue(s[0]), limit);
      assert forall i :: 0 < i < |s| ==> s[i] == s[1..][i - 1];
    }
  }

  /** What was read from the left was written from the right. */
  lemma {:induction false} DigitsAreANumeral(s: string, limit: nat) returns (k: nat)
    requires s != "" && limit > 0 && ParseDigits(s, 0, limit).Some?
    ensures s == Zeros(k) + Decimal(ParseDigits(s, 0, limit).value)
    decreases |s|
  {
    var front, c := s[..|s| - 1], s[|s| - 1];
    var n := ParseDigits(s, 0, limit).value;
    assert s == front + [c];
    OnlyDigitsAreRead(s, 0, limit);
    ParseDigitsAppend(front, c, 0, limit);
    if front == "" {
      k := 0;
      assert s == [c] == [DigitChar(n)];
    } else {
      k := DigitsAreANumeral(front, limit);
      k := OneMoreDigit(front, k, ParseDigits(front, 0, limit).value, c);
    }
  }

  lemma OneMoreDigit(front: string, k: nat, n: nat, c: char) returns (k': nat)
    requires front == Zeros(k) + Decimal(n) && IsDigit(c)
    ensures front + [c] == Zeros(k') + Decimal(n * 10 + DigitValue(c))
  {
    var m := n * 10 + DigitValue(c);
    assert [c] == [DigitChar(DigitValue(c))];
    if n == 0 {
      ZerosFromTheRight(k);
      k' := k + 1;
    } else {
      k' := k;
      assert m / 10 == n && m % 10 == DigitValue(c);
      assert Decimal(m) == Decimal(n) + [c];
    }
  }

  lemma NumeralIsRead(s: string, k: nat, n: nat, limit: nat)
    requires n < limit && s == Zeros(k) + Decimal(n)
    ensures ParseDigits(s, 0, limit) == Some(n) && s != "" && s[0] != '+'
  {
    ZerosHaveNoHash(k);
    ZerosAreSkipped(k, Decimal(n), limit);
    ParseDecimalDigits(n, limit);
    assert s[0] == if k > 0 then Zeros(k)[0] else Decimal(n)[0];
  }

  /** A text is read as a number exactly if it is a numeral for it, and the number fits its type. */
  lemma NumeralsExactly(s: string, n: nat, limit: nat)
    requires limit > 0
    ensures ParseUnsigned(s, limit) == Some(n) <==> IsNumeral(s, n) && n < limit
  {
    if ParseUnsigned(s, limit) == Some(n) {
      if s[0] == '+' {
        var k := DigitsAreANumeral(s[1..], limit);
        assert s == "+" + (Zeros(k) + Decimal(n));
      } else {
        var k := DigitsAreANumeral(s, limit);
      }
    }
    if IsNumeral(s, n) && n < limit {
      var k :| s == Zeros(k) + Decimal(n) || s == "+" + (Zeros(k) + Decimal(n));
      NumeralIsRead(Zeros(k) + Decimal(n), k, n, limit);
      if s == "+" + (Zeros(k) + Decimal(n)) {
        assert s[1..] == Zeros(k) + Decimal(n);
      }
    }
  }

  // ---------------------------------------------------------------- two numbers, and a number with a text

  ghost predicate IsPair(data: string, n: nat, m: nat) {
    exists a, b :: data == a + "#" + b && IsNumeral(a, n) && IsNumeral(b, m)
  }

  ghost predicate IsTagged(data: string, id: nat, text: string) {
    exists a :: data == a + "#" + text && IsNumeral(a, id)
  }

  lemma PairsExactly(data: string, limit1: nat, typ1: string, limit2: nat, typ2: string, structure: string,
                     n: nat, m: nat)
    requires limit1 > 0 && limit2 > 0
    ensures ParsePair(data, limit1, typ1, limit2, typ2, structure) == Good((n, m)) <==>
            IsPair(data, n, m) && n < limit1 && m < limit2
  {
    SplitSound(data, "#");
    if ParsePair(data, limit1, typ1, limit2, typ2, structure) == Good((n, m)) {
      var (a, b) := SplitOnce(data, "#").value;
      NumeralsExactly(a, n, limit1);
      NumeralsExactly(b, m, limit2);
    }
    if IsPair(data, n, m) && n < limit1 && m < limit2 {
      var a, b :| data == a + "#" + b && IsNumeral(a, n) && IsNumeral(b, m);
      NumeralHasNoHash(a, n);
      SplitAtHash(a, b);
      NumeralsExactly(a, n, limit1);
      NumeralsExactly(b, m, limit2);
    }
  }

  lemma TaggedExactly(data: string, structure: string, id: Nid, text: string)
    ensures ParseTagged(data, structure) == Good((id, text)) <==> IsTagged(data, id, text)
  {
    SplitSound(data, "#");
    if ParseTagged(data, structure) == Good((id, text)) {
      var (a, b) := SplitOnce(data, "#").value;
      NumeralsExactly(a, id, U32_LIMIT);
    }
    if IsTagged(data, id, text) {
      var a :| data == a + "#" + text && IsNumeral(a, id);
      NumeralHasNoHash(a, id);
      SplitAtHash(a, text);
      NumeralsExactly(a, id, U32_LIMIT);
    }
  }

  // ---------------------------------------------------------------- requests

  /** Name and payload that stand for a job. */
  ghost predicate Spells(json: Json, name: string, payload: string, cmd: Job) {
    match cmd
    case Broadcast(n) => name == "broadcast" && json.parse(payload) == Some(n)
    case Close(id, reason) => name == "close" && exists k :: IsPair(payload, id, k) && IsReason(k, reason)
    case ActionInvoked(id, key) => name == "action" && IsTagged(payload, id, key)
    case ActivationToken(id, token) => name == "activation" && IsTagged(payload, id, token)
    case Read(start, end) => name == "read" && IsPair(payload, start, end)
    case Query(id) => name == "query" && IsNumeral(payload, id)
    case Watch => name == "watch" && payload == "watch"
    case Acknowledge(_) => false
  }

  /** The numbers that the Desktop Notifications protocol gives to the reasons of a close. */
  predicate IsReason(k: nat, reason: Reason) {
    || (k == 1 && reason == Expired) || (k == 2 && reason == Dismissed)
    || (k == 3 && reason == CallCloseNotification) || (k == 4 && reason == Undefined)
  }

  lemma ClosesExactly(data: string, id: Nid, reason: Reason)
    ensures ParseClose(data) == Good(Close(id, reason)) <==> exists k :: IsPair(data, id, k) && IsReason(k, reason)
  {
    var pair := ParsePair(data, U32_LIMIT, "Nid", U32_LIMIT, "NotificationClosedRepr", "Close");
    if pair.Good? {
      PairsExactly(data, U32_LIMIT, "Nid", U32_LIMIT, "NotificationClosedRepr", "Close", pair.value.0, pair.value.1);
    }
    if k :| IsPair(data, id, k) && IsReason(k, reason) {
      PairsExactly(data, U32_LIMIT, "Nid", U32_LIMIT, "NotificationClosedRepr", "Close", id, k);
    }
  }

  lemma PayloadsExactly(json: Json, name: string, payload: string, cmd: Job)
    requires NoHash(name)
    ensures ParseJob(json, name + "##" + payload) == Good(cmd) <==> Spells(json, name, payload, cmd)
  {
    SplitAtHashes(name, payload);
    if Named(name, cmd) {
      NamesLead(json, cmd, payload);
      NamedPayloadsExactly(json, payload, cmd);
    } else {
      OtherNamesGiveOthers(json, name, payload, cmd);
    }
  }

  predicate Named(name: string, cmd: Job) {
    !cmd.Acknowledge? && name == Name(cmd)
  }

  lemma OtherNamesGiveOthers(json: Json, name: string, payload: string, cmd: Job)
    requires !Named(name, cmd)
    ensures ParsePayload(json, name, payload) != Good(cmd)
  {
  }

  lemma NamedPayloadsExactly(json: Json, payload: string, cmd: Job)
    requires !cmd.Acknowledge?
    ensures ParseLike(json, cmd, payload) == Good(cmd) <==> Spells(json, Name(cmd), payload, cmd)
  {
    match cmd {
      case Broadcast(_) =>
      case Close(id, reason) => ClosesExactly(payload, id, reason);
      case ActionInvoked(id, key) => TaggedExactly(payload, "Signal", id, key);
      case ActivationToken(id, token) => TaggedExactly(payload, "Signal", id, token);
      case Read(start, end) =>
        PairsExactly(payload, U16_LIMIT, "LogCountType", U16_LIMIT, "LogCountType", "Read", start, end);
      case Query(id) => NumeralsExactly(payload, id, U32_LIMIT);
      case Watch =>
    }
  }

  lemma SpelledNamesHaveNoHash(json: Json, name: string, payload: string, cmd: Job)
    requires Spells(json, name, payload, cmd)
    ensures NoHash(name)
  {
  }

  lemma UnknownNamesStop(json: Json, name: string, payload: string)
    requires !KnownName(name)
    ensures ParsePayload(json, name, payload).Unreachable?
  {
  }

  lemma KnownNamesHaveNoHash(name: string)
    requires KnownName(name)
    ensures NoHash(name)
  {
  }

  /** A text is taken for a job exactly if it is its name and a payload that spells it. */
  lemma JobsExactly(json: Json, data: string, cmd: Job)
    ensures ParseJob(json, data) == Good(cmd) <==>
            exists name, payload :: data == name + "##" + payload && Spells(json, name, payload, cmd)
  {
    SplitSound(data, "##");
    if ParseJob(json, data) == Good(cmd) {
      var (name, payload) := SplitOnce(data, "##").value;
      if !KnownName(name) {
        UnknownNamesStop(json, name, payload);
      }
      KnownNamesHaveNoHash(name);
      PayloadsExactly(json, name, payload, cmd);
    }
    if name, payload :| data == name + "##" + payload && Spells(json, name, payload, cmd) {
      SpelledNamesHaveNoHash(json, name, payload, cmd);
      PayloadsExactly(json, name, payload, cmd);
    }
  }

  /** A text is taken for a request exactly if it is the process id, the flags, and a job. */
  lemma RequestsExactly(json: Json, data: string, desc: JobDesc)
    ensures ParseJobDesc(json, data) == Good(desc) <==>
            exists head, job :: data == head + "##" + job && IsPair(head, desc.pid, desc.flags)
                                && ParseJob(json, job) == Good(desc.cmd)
  {
    SplitSound(data, "##");
    if ParseJobDesc(json, data) == Good(desc) {
      var (head, job) := SplitOnce(data, "##").value;
      PairsExactly(head, U32_LIMIT, "Pid", U8_LIMIT, "FlagsRepr", "Desc", desc.pid, desc.flags);
    }
    if head, job :|
        data == head + "##" + job && IsPair(head, desc.pid, desc.flags) && ParseJob(json, job) == Good(desc.cmd) {
      CutBehindPair(head, job, desc.pid, desc.flags);
      PairsExactly(head, U32_LIMIT, "Pid", U8_LIMIT, "FlagsRepr", "Desc", desc.pid, desc.flags);
    }
  }

  lemma CutBehindPair(head: string, rest: string, n: nat, m: nat)
    requires IsPair(head, n, m)
    ensures SplitOnce(head + "##" + rest, "##") == Some((head, rest))
  {
    var a, b :| head == a + "#" + b && IsNumeral(a, n) && IsNumeral(b, m);
    NumeralHasNoHash(a, n);
    NumeralHasNoHash(b, m);
    SplitAfterPair(a, b, rest);
  }

  // ---------------------------------------------------------------- requests that stop their task

  predicate KnownName(name: string) {
    name in ["broadcast", "close", "read", "watch", "action", "activation", "query"]
  }

  /** A close whose reason is a number, but none of the four. */
  ghost predicate StrangeClose(name: string, payload: string) {
    name == "close" && exists id: Nid, k: nat :: IsPair(payload, id, k) && k < U32_LIMIT && !(1 <= k <= 4)
  }

  ghost predicate PanickingJob(job: string) {
    exists name, payload ::
      IsCut(job, "##", Some((name, payload))) && (!KnownName(name) || StrangeClose(name, payload))
  }

  /** The task panics exactly for a job with an unknown name and for a close with an unknown reason, whatever stands in
      front of the job. */
  lemma UnreachableExactly(json: Json, data: string)
    ensures ParseJobDesc(json, data).Unreachable? <==>
            exists head, job :: IsCut(data, "##", Some((head, job))) && PanickingJob(job)
  {
    SplitSound(data, "##");
    UnreachableBehind(json, data);
    if SplitOnce(data, "##").Some? {
      UnreachableJob(json, SplitOnce(data, "##").value.1);
    }
    if head, job :| IsCut(data, "##", Some((head, job))) && PanickingJob(job) {
      SplitExactly(data, "##", head, job);
    }
  }

  lemma UnreachableBehind(json: Json, data: string)
    ensures ParseJobDesc(json, data).Unreachable? <==>
            SplitOnce(data, "##").Some? && ParseJob(json, SplitOnce(data, "##").value.1).Unreachable?
  {
  }

  lemma UnreachableJob(json: Json, job: string)
    ensures ParseJob(json, job).Unreachable? <==> PanickingJob(job)
  {
    SplitSound(job, "##");
    if SplitOnce(job, "##").Some? {
      var (name, payload) := SplitOnce(job, "##").value;
      UnreachablePayload(json, name, payload);
    }
    if name, payload :|
        IsCut(job, "##", Some((name, payload))) && (!KnownName(name) || StrangeClose(name, payload)) {
      SplitExactly(job, "##", name, payload);
    }
  }

  lemma UnreachablePayload(json: Json, name: string, payload: string)
    ensures ParsePayload(json, name, payload).Unreachable? <==> !KnownName(name) || StrangeClose(name, payload)
  {
    if name == "close" {
      NamesLead(json, Close(0, Expired), payload);
      UnreachableClose(payload);
    } else {
      OthersAnswer(json, payload);
    }
  }

  lemma OthersAnswer(json: Json, payload: string)
    ensures !ParseBroadcast(json, payload).Unreachable? && !ParseRead(payload).Unreachable?
    ensures !ParseAction(payload).Unreachable? && !ParseActivation(payload).Unreachable?
    ensures !ParseQuery(payload).Unreachable?
  {
  }

  lemma UnreachableClose(payload: string)
    ensures ParseClose(payload).Unreachable? <==> StrangeClose("close", payload)
  {
    var pair := ParsePair(payload, U32_LIMIT, "Nid", U32_LIMIT, "NotificationClosedRepr", "Close");
    if pair.Good? {
      PairsExactly(payload, U32_LIMIT, "Nid", U32_LIMIT, "NotificationClosedRepr", "Close", pair.value.0,
                   pair.value.1);
    }
    if StrangeClose("close", payload) {
      var id: Nid, k: nat :| IsPair(payload, id, k) && k < U32_LIMIT && !(1 <= k <= 4);
      PairsExactly(payload, U32_LIMIT, "Nid", U32_LIMIT, "NotificationClosedRepr", "Close", id, k);
    }
  }

  // ---------------------------------------------------------------- envelopes, events and results

  ghost predicate IsEnvelope(head: string, typ: TransmissionType) {
    match typ
    case Error => head == "Err"
    case Incoming(pid) => exists a :: IsNumeral(a, pid) && head == "inc" + "#" + a
    case Outgoing(pid) => exists a :: IsNumeral(a, pid) && head == "out" + "#" + a
  }

  lemma TypesExactly(head: string, typ: TransmissionType)
    ensures ParseType(head) == Good(typ) <==> IsEnvelope(head, typ)
  {
    SplitSound(head, "#");
    if ParseType(head) == Good(typ) && !typ.Error? {
      var (_, a) := SplitOnce(head, "#").value;
      NumeralsExactly(a, typ.pid, U32_LIMIT);
    }
    if IsEnvelope(head, typ) && !typ.Error? {
      var tag := if typ.Incoming? then "inc" else "out";
      var a :| IsNumeral(a, typ.pid) && head == tag + "#" + a;
      assert head[0] == tag[0] != 'E';
      NumeralsExactly(a, typ.pid, U32_LIMIT);
      SplitAtHash(tag, a);
    }
  }

  lemma CutBehindEnvelope(head: string, typ: TransmissionType, rest: string)
    requires IsEnvelope(head, typ)
    ensures SplitOnce(head + "##" + rest, "##") == Some((head, rest))
  {
    if typ.Error? {
      SplitAtHashes(head, rest);
    } else {
      var tag := if typ.Incoming? then "inc" else "out";
      var a :| IsNumeral(a, typ.pid) && head == tag + "#" + a;
      NumeralHasNoHash(a, typ.pid);
      SplitAfterPair(tag, a, rest);
    }
  }

  /** A text is taken for a message exactly if it is its envelope and its data. */
  lemma EnvelopesExactly(data: string, tr: Transmission)
    ensures ParseTransmission(data) == Good(tr) <==>
            exists head :: data == head + "##" + tr.data && IsEnvelope(head, tr.typ)
  {
    SplitSound(data, "##");
    if ParseTransmission(data) == Good(tr) {
      var (head, _) := SplitOnce(data, "##").value;
      TypesExactly(head, tr.typ);
    }
    if head :| data == head + "##" + tr.data && IsEnvelope(head, tr.typ) {
      CutBehindEnvelope(head, tr.typ, tr.data);
      TypesExactly(head, tr.typ);
    }
  }

  /** What a text behind the tag of an event says. */
  ghost predicate IsEvent(tag: string, rest: string, event: EventType) {
    match event
    case CloseEvent(id) => tag == "cls" && IsNumeral(rest, id)
    case ActionEvent(id, key) => tag == "act" && IsTagged(rest, id, key)
    case TokenEvent(id, token) => tag == "acv" && IsTagged(rest, id, token)
  }

  lemma TaggedEventsExactly(tag: string, rest: string, event: EventType)
    requires NoHash(tag)
    ensures ParseEvent(tag + "#" + rest) == Good(event) <==> IsEvent(tag, rest, event)
  {
    SplitAtHash(tag, rest);
    match event {
      case CloseEvent(id) => NumeralsExactly(rest, id, U32_LIMIT);
      case ActionEvent(id, key) => TaggedExactly(rest, "EventType", id, key);
      case TokenEvent(id, token) => TaggedExactly(rest, "EventType", id, token);
    }
  }

  /** A text is taken for an event exactly if it is its tag and what belongs to it. */
  lemma EventsExactly(data: string, event: EventType)
    ensures ParseEvent(data) == Good(event) <==>
            exists tag, rest :: data == tag + "#" + rest && IsEvent(tag, rest, event)
  {
    SplitSound(data, "#");
    if ParseEvent(data) == Good(event) {
      var (tag, rest) := SplitOnce(data, "#").value;
      TaggedEventsExactly(tag, rest, event);
    }
    if tag, rest :| data == tag + "#" + rest && IsEvent(tag, rest, event) {
      TaggedEventsExactly(tag, rest, event);
    }
  }

  /** What the four tags of a result mean to whoever reads it. */
  lemma ResultsExactly(tag: string, rest: string, f: FulfilledJob<string>)
    requires NoHash(tag)
    ensures ParseFulfilled(tag + "#" + rest) == Good(f) <==>
            || (tag == "err" && f == FulfilledJob(Err(rest), Other))
            || (tag == "res" && f == FulfilledJob(Ok(Some(rest)), Results))
            || (tag == "oth" && f == FulfilledJob(Ok(Some(rest)), Other))
            || (tag == "ev" && f.result == Ok(None) && f.typ.Event? && ParseEvent(rest) == Good(f.typ.event))
  {
    SplitAtHash(tag, rest);
  }

  // ---------------------------------------------------------------- what is wrong with the others

  function WrongNumber(typ: string, structure: string): string {
    "Invalid parsing for type '" + typ + "' in structure '" + structure + "'."
  }

  ghost predicate Unreadable(a: string, limit: nat) {
    forall n: nat :: n < limit ==> !IsNumeral(a, n)
  }

  lemma UnreadableFails(a: string, limit: nat)
    requires limit > 0 && Unreadable(a, limit)
    ensures ParseUnsigned(a, limit) == None
  {
    var r := ParseUnsigned(a, limit);
    if r.Some? {
      NumeralsExactly(a, r.value, limit);
    }
  }

  /** A number that cannot be read is named with its type, the left one first. */
  lemma PairErrors(a: string, b: string, limit1: nat, typ1: string, limit2: nat, typ2: string, structure: string)
    requires limit1 > 0 && limit2 > 0 && NoHash(a)
    ensures Unreadable(a, limit1) ==>
              ParsePair(a + "#" + b, limit1, typ1, limit2, typ2, structure)
              == Bad(PayloadError(a, WrongNumber(typ1, structure)))
    ensures !Unreadable(a, limit1) && Unreadable(b, limit2) ==>
              ParsePair(a + "#" + b, limit1, typ1, limit2, typ2, structure)
              == Bad(PayloadError(b, WrongNumber(typ2, structure)))
  {
    SplitAtHash(a, b);
    if Unreadable(a, limit1) {
      UnreadableFails(a, limit1);
    } else {
      var n: nat :| n < limit1 && IsNumeral(a, n);
      NumeralsExactly(a, n, limit1);
      if Unreadable(b, limit2) {
        UnreadableFails(b, limit2);
      }
    }
  }

  lemma TaggedErrors(a: string, rest: string, structure: string)
    requires NoHash(a) && Unreadable(a, U32_LIMIT)
    ensures ParseTagged(a + "#" + rest, structure) == Bad(PayloadError(a, WrongNumber("Nid", structure)))
  {
    SplitAtHash(a, rest);
    UnreadableFails(a, U32_LIMIT);
  }

  lemma CloseErrors(json: Json, a: string, b: string)
    requires NoHash(a)
    ensures Unreadable(a, U32_LIMIT) ==>
              ParseJob(json, "close" + "##" + (a + "#" + b)) == Bad(PayloadError(a, WrongNumber("Nid", "Close")))
    ensures !Unreadable(a, U32_LIMIT) && Unreadable(b, U32_LIMIT) ==>
              ParseJob(json, "close" + "##" + (a + "#" + b))
              == Bad(PayloadError(b, WrongNumber("NotificationClosedRepr", "Close")))
  {
    SplitAtHashes("close", a + "#" + b);
    PairErrors(a, b, U32_LIMIT, "Nid", U32_LIMIT, "NotificationClosedRepr", "Close");
  }

  lemma ReadErrors(json: Json, a: string, b: string)
    requires NoHash(a)
    ensures Unreadable(a, U16_LIMIT) ==>
              ParseJob(json, "read" + "##" + (a + "#" + b)) == Bad(PayloadError(a, WrongNumber("LogCountType", "Read")))
    ensures !Unreadable(a, U16_LIMIT) && Unreadable(b, U16_LIMIT) ==>
              ParseJob(json, "read" + "##" + (a + "#" + b)) == Bad(PayloadError(b, WrongNumber("LogCountType", "Read")))
  {
    SplitAtHashes("read", a + "#" + b);
    PairErrors(a, b, U16_LIMIT, "LogCountType", U16_LIMIT, "LogCountType", "Read");
  }

  /** What the sender of a signal or a query with a wrong number is told. */
  lemma SignalErrors(json: Json, a: string, rest: string)
    requires NoHash(a) && Unreadable(a, U32_LIMIT)
    ensures ParseJob(json, "action" + "##" + (a + "#" + rest)) == Bad(PayloadError(a, WrongNumber("Nid", "Signal")))
    ensures ParseJob(json, "activation" + "##" + (a + "#" + rest)) == Bad(PayloadError(a, WrongNumber("Nid", "Signal")))
  {
    SplitAtHashes("action", a + "#" + rest);
    SplitAtHashes("activation", a + "#" + rest);
    TaggedErrors(a, rest, "Signal");
  }

  lemma QueryErrors(json: Json, a: string)
    requires Unreadable(a, U32_LIMIT)
    ensures ParseJob(json, "query" + "##" + a) == Bad(PayloadError(a, WrongNumber("Nid", "Query")))
  {
    SplitAtHashes("query", a);
    UnreadableFails(a, U32_LIMIT);
  }

  lemma PayloadErrors(json: Json, payload: string)
    ensures payload != "watch" ==>
              ParseJob(json, "watch" + "##" + payload) == Bad(PayloadError(payload, "Invalid payload"))
    ensures json.parse(payload) == None ==>
              ParseJob(json, "broadcast" + "##" + payload)
              == Bad(PayloadError(payload, "Error while parsing 'event' for 'Broadcast'"))
  {
    SplitAtHashes("watch", payload);
    SplitAtHashes("broadcast", payload);
  }

  lemma NoPlaceToCut(text: string, pattern: string)
    requires NoHash(text) && pattern != "" && pattern[0] == '#'
    ensures SplitOnce(text, pattern) == None
  {
    SplitSound(text, pattern);
    if SplitOnce(text, pattern).Some? {
      assert text[|SplitOnce(text, pattern).value.0|] == pattern[0];
    }
  }

  function Missing(separator: string): string {
    "Pattern [" + separator + "] was not found in split."
  }

  /** A text that cannot be cut is answered with the separator that is missing. */
  lemma SeparatorErrors(json: Json, text: string)
    requires NoHash(text)
    ensures ParseJobDesc(json, text) == Bad(PayloadError(text, Missing("\"##\"")))
    ensures ParseJob(json, text) == Bad(PayloadError(text, Missing("\"##\"")))
    ensures ParseTransmission(text) == Bad(PayloadError(text, Missing("\"##\"")))
    ensures text != "Err" ==> ParseType(text) == Bad(PayloadError(text, Missing("'#'")))
    ensures ParseEvent(text) == Bad(PayloadError(text, Missing("'#'")))
    ensures text != "" ==> ParseFulfilled(text) == Bad(PayloadError(text, Missing("'#'")))
    ensures ParseFulfilled("") == Good(FulfilledJob(Ok(None), Other))
  {
    NoPlaceToCut(text, "#");
    NoPlaceToCut(text, "##");
  }

  lemma PayloadSeparatorErrors(json: Json, name: string, text: string)
    requires name in ["close", "read", "action", "activation"] && NoHash(text)
    ensures ParseJob(json, name + "##" + text) == Bad(PayloadError(text, Missing("'#'")))
  {
    SplitAtHashes(name, text);
    NoPlaceToCut(text, "#");
  }

  /** The job is looked at first; only if nothing is wrong with it is the description. */
  lemma DescErrors(json: Json, a: string, b: string, job: string)
    requires NoHash(a) && NoHash(b) && b != ""
    ensures var r := ParseJobDesc(json, a + "#" + b + "##" + job);
            && (ParseJob(json, job).Bad? ==> r == Bad(ParseJob(json, job).error))
            && (ParseJob(json, job).Good? && Unreadable(a, U32_LIMIT) ==>
                  r == Bad(PayloadError(a, WrongNumber("Pid", "Desc"))))
            && (ParseJob(json, job).Good? && !Unreadable(a, U32_LIMIT) && Unreadable(b, U8_LIMIT) ==>
                  r == Bad(PayloadError(b, WrongNumber("FlagsRepr", "Desc"))))
  {
    SplitAfterPair(a, b, job);
    PairErrors(a, b, U32_LIMIT, "Pid", U8_LIMIT, "FlagsRepr", "Desc");
  }

  /** The number of an envelope is looked at before its tag. */
  lemma TypeErrors(tag: string, a: string)
    requires NoHash(tag)
    ensures Unreadable(a, U32_LIMIT) ==>
              ParseType(tag + "#" + a) == Bad(PayloadError(a, WrongNumber("Pid", "TransmissionType")))
    ensures !Unreadable(a, U32_LIMIT) && tag != "inc" && tag != "out" ==>
              ParseType(tag + "#" + a) == Bad(PayloadError(tag, "Invalid type for 'TransmissionType' enum."))
  {
    SplitAtHash(tag, a);
    assert (tag + "#" + a)[|tag|] == '#';
    if Unreadable(a, U32_LIMIT) {
      UnreadableFails(a, U32_LIMIT);
    } else {
      var n: nat :| n < U32_LIMIT && IsNumeral(a, n);
      NumeralsExactly(a, n, U32_LIMIT);
    }
  }

  lemma TaggedEventErrors(a: string, text: string)
    requires NoHash(a) && Unreadable(a, U32_LIMIT)
    ensures ParseEvent("act" + "#" + (a + "#" + text)) == Bad(PayloadError(a, WrongNumber("Nid", "EventType")))
    ensures ParseEvent("acv" + "#" + (a + "#" + text)) == Bad(PayloadError(a, WrongNumber("Nid", "EventType")))
  {
    SplitAtHash("act", a + "#" + text);
    SplitAtHash("acv", a + "#" + text);
    TaggedErrors(a, text, "EventType");
  }

  lemma EventErrors(tag: string, rest: string)
    requires NoHash(tag)
    ensures tag !in ["cls", "act", "acv"] ==>
              ParseEvent(tag + "#" + rest) == Bad(PayloadError(tag, "Bad type for 'EventType'."))
    ensures Unreadable(rest, U32_LIMIT) ==>
              ParseEvent("cls" + "#" + rest) == Bad(PayloadError(rest, WrongNumber("Nid", "EventType")))
    ensures tag !in ["err", "res", "ev", "oth"] ==>
              ParseFulfilled(tag + "#" + rest) == Bad(PayloadError(tag, "Invalid type for 'FulfilledJob'."))
  {
    SplitAtHash(tag, rest);
    SplitAtHash("cls", rest);
    if Unreadable(rest, U32_LIMIT) {
      UnreadableFails(rest, U32_LIMIT);
    }
  }
}
