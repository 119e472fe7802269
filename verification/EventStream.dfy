/** The text/event-stream format: the writer loop of the SSE handler, and the interpretation of a stream
    that section 9.2.6 of the WHATWG HTML standard prescribes to clients. Text is a sequence of
    characters. */
module EventStream {
  import opened Options
  import opened Sequences
  import opened Broker

  const LF: char := '\n'
  const CR: char := '\r'
  const NUL: char := '\0'
  const BYTE_ORDER_MARK: char := '\U{FEFF}'

  // ---------------------------------------------------------------- writing

  function Digit(d: nat): char
    requires d < 10
  {
    ['0', '1', '2', '3', '4', '5', '6', '7', '8', '9'][d]
  }

  function Decimal(n: nat): string {
    if n < 10 then [Digit(n)] else Decimal(n / 10) + [Digit(n % 10)]
  }

  function Line(name: string, value: string): string {
    name + ": " + value
  }

  function Optional(present: bool, name: string, value: string): seq<string> {
    if present then [Line(name, value)] else []
  }

  function IdLines(e: Event): seq<string> {
    Optional(e.id != "", "id", e.id)
  }

  function UpToType(e: Event): seq<string> {
    IdLines(e) + Optional(e.event != "", "event", e.event)
  }

  function UpToData(e: Event): seq<string> {
    UpToType(e) + Optional(e.data != "", "data", e.data)
  }

  function UpToRetry(e: Event): seq<string> {
    UpToData(e) + Optional(e.retry > 0, "retry", RetryText(e))
  }

  /** The lines written for one event, without their terminators. */
  function EventLines(e: Event): seq<string> {
    UpToRetry(e) + [""]
  }

  function RetryText(e: Event): string {
    if e.retry > 0 then Decimal(e.retry) else ""
  }

  function Terminated(lines: seq<string>): string {
    if lines == [] then "" else lines[0] + [LF] + Terminated(lines[1..])
  }

  function Emitted(events: seq<Event>): string {
    if events == [] then "" else Terminated(EventLines(events[0])) + Emitted(events[1..])
  }

  lemma {:induction false} TerminatedSnoc(lines: seq<string>, line: string)
    ensures Terminated(lines + [line]) == Terminated(lines) + line + [LF]
  {
    if lines == [] {
      assert lines + [line] == [line] && [line][1..] == [];
    } else {
      assert (lines + [line])[1..] == lines[1..] + [line];
      TerminatedSnoc(lines[1..], line);
    }
  }

  /** Writes one field line, if it is present, to what has been written of the event. */
  method WriteField(w: string, present: bool, name: string, value: string, ghost lines: seq<string>) returns (r: string)
    requires w == Terminated(lines)
    ensures r == Terminated(lines + Optional(present, name, value))
  {
    r := w;
    if present {
      TerminatedSnoc(lines, Line(name, value));
      r := r + (name + ": " + value) + "\n";
    } else {
      assert lines + [] == lines;
    }
  }

  lemma NothingBefore(lines: seq<string>)
    ensures [] + lines == lines
  {
  }

  method FormatEvent(e: Event) returns (w: string)
    ensures w == Terminated(EventLines(e))
  {
    NothingBefore(IdLines(e));
    w := WriteField("", e.id != "", "id", e.id, []);
    w := WriteField(w, e.event != "", "event", e.event, IdLines(e));
    w := WriteField(w, |e.data| > 0, "data", e.data, UpToType(e));
    w := WriteField(w, e.retry > 0, "retry", RetryText(e), UpToData(e));
    w := EndEvent(w, UpToRetry(e));
  }

  method EndEvent(w: string, ghost lines: seq<string>) returns (r: string)
    requires w == Terminated(lines)
    ensures r == Terminated(lines + [""])
  {
    TerminatedSnoc(lines, "");
    r := w + "\n";
  }

  /** The stream writer: one formatted event after the other, until a flush fails. `flushes` says how
      many succeed; what the client has then is what was flushed. */
  method WriteEvents(events: seq<Event>, flushes: nat) returns (sent: string)
    ensures sent == Emitted(events[..if |events| <= flushes then |events| else flushes])
  {
    sent := "";
    for k := 0 to |events|
      invariant k <= flushes
      invariant sent == Emitted(events[..k])
    {
      var w := FormatEvent(events[k]);
      if k == flushes {
        return;
      }
      EmittedUpTo(events, k);
      sent := sent + w;
    }
  }

  lemma {:induction false} EmittedSnoc(events: seq<Event>, e: Event)
    ensures Emitted(events + [e]) == Emitted(events) + Terminated(EventLines(e))
  {
    if events == [] {
      assert events + [e] == [e] && [e][1..] == [];
    } else {
      assert (events + [e])[1..] == events[1..] + [e];
      EmittedSnoc(events[1..], e);
    }
  }

  lemma EmittedUpTo(events: seq<Event>, k: nat)
    requires k < |events|
    ensures Emitted(events[..k + 1]) == Emitted(events[..k]) + Terminated(EventLines(events[k]))
  {
    assert events[..k + 1] == events[..k] + [events[k]];
    EmittedSnoc(events[..k], events[k]);
  }

  // ---------------------------------------------------------------- lines

  /** The first position of a line break, or the length. */
  function BreakAt(s: string): (i: nat)
    ensures i <= |s| && (forall j :: 0 <= j < i ==> s[j] != LF && s[j] != CR)
    ensures i < |s| ==> s[i] == LF || s[i] == CR
  {
    if s == "" || s[0] == LF || s[0] == CR then 0 else 1 + BreakAt(s[1..])
  }

  /** The complete lines of a stream; CR LF, LF and CR each end one. */
  function Lines(s: string): seq<string>
    decreases |s|
  {
    var i := BreakAt(s);
    if i == |s| then []
    else if s[i] == CR && i + 1 < |s| && s[i + 1] == LF then [s[..i]] + Lines(s[i + 2..])
    else [s[..i]] + Lines(s[i + 1..])
  }

  predicate OneLine(s: string) {
    LF !in s && CR !in s
  }

  lemma {:induction false} BreakUnique(s: string, i: nat)
    requires i < |s| && (s[i] == LF || s[i] == CR) && forall j :: 0 <= j < i ==> s[j] != LF && s[j] != CR
    ensures BreakAt(s) == i
  {
  }

  lemma {:induction false} LinesCons(line: string, rest: string)
    requires OneLine(line)
    ensures Lines(line + [LF] + rest) == [line] + Lines(rest)
  {
    var s := line + [LF] + rest;
    BreakUnique(s, |line|);
    assert s[..|line|] == line && s[|line| + 1..] == rest;
  }

  lemma HeadAndTail(lines: seq<string>, more: seq<string>)
    requires lines != []
    ensures [lines[0]] + (lines[1..] + more) == lines + more
  {
    assert lines == [lines[0]] + lines[1..];
  }

  lemma {:induction false} TerminatedCons(lines: seq<string>, rest: string, tail: string)
    requires lines != [] && tail == Terminated(lines[1..]) + rest
    ensures Terminated(lines) + rest == lines[0] + [LF] + tail
  {
  }

  lemma {:induction false} LinesOfTerminated(lines: seq<string>, rest: string)
    requires forall i :: 0 <= i < |lines| ==> OneLine(lines[i])
    ensures Lines(Terminated(lines) + rest) == lines + Lines(rest)
  {
    if lines == [] {
      assert Terminated(lines) + rest == rest;
    } else {
      var tail := Terminated(lines[1..]) + rest;
      LinesOfTerminated(lines[1..], rest);
      LinesCons(lines[0], tail);
      TerminatedCons(lines, rest, tail);
      HeadAndTail(lines, Lines(rest));
    }
  }

  // ---------------------------------------------------------------- interpretation

  /** A dispatched message event. */
  datatype Message = Message(kind: string, data: string, lastId: string)

  datatype Parser = Parser(data: string, kind: string, lastId: string, reconnect: Option<nat>, out: seq<Message>)

  const START := Parser("", "", "", None, [])

  predicate IsDigit(c: char) {
    '0' <= c <= '9'
  }

  predicate AllDigits(s: string) {
    s != "" && forall i :: 0 <= i < |s| ==> IsDigit(s[i])
  }

  function NumberOf(s: string): nat {
    if s == "" then 0 else 10 * NumberOf(s[..|s| - 1]) + if IsDigit(s[|s| - 1]) then (s[|s| - 1] - '0') as nat else 0
  }

  function Field(p: Parser, name: string, value: string): Parser {
    if name == "event" then p.(kind := value)
    else if name == "data" then p.(data := p.data + value + [LF])
    else if name == "id" then (if NUL in value then p else p.(lastId := value))
    else if name == "retry" then (if AllDigits(value) then p.(reconnect := Some(NumberOf(value))) else p)
    else p
  }

  function Dispatch(p: Parser): Parser {
    if p.data == "" then p.(kind := "")
    else
      var data := if p.data[|p.data| - 1] == LF then p.data[..|p.data| - 1] else p.data;
      var kind := if p.kind == "" then "message" else p.kind;
      p.(data := "", kind := "", out := p.out + [Message(kind, data, p.lastId)])
  }

  function ColonAt(s: string): (i: nat)
    ensures i <= |s| && (forall j :: 0 <= j < i ==> s[j] != ':') && (i < |s| ==> s[i] == ':')
  {
    if s == "" || s[0] == ':' then 0 else 1 + ColonAt(s[1..])
  }

  function WithoutSpace(s: string): string {
    if s != "" && s[0] == ' ' then s[1..] else s
  }

  function ProcessLine(p: Parser, line: string): Parser {
    var i := ColonAt(line);
    if line == "" then Dispatch(p)
    else if i == |line| then Field(p, line, "")
    else if i == 0 then p
    else Field(p, line[..i], WithoutSpace(line[i + 1..]))
  }

  function Process(p: Parser, lines: seq<string>): Parser
    decreases |lines|
  {
    if lines == [] then p else Process(ProcessLine(p, lines[0]), lines[1..])
  }

  function Interpreted(stream: string): Parser {
    Process(START, Lines(if stream != "" && stream[0] == BYTE_ORDER_MARK then stream[1..] else stream))
  }

  // ---------------------------------------------------------------- reading a written event

  lemma ReadField(p: Parser, name: string, value: string)
    requires name != "" && ':' !in name
    ensures ProcessLine(p, Line(name, value)) == Field(p, name, value)
  {
    var line := Line(name, value);
    ColonUnique(line, |name|);
    assert line[..|name|] == name && line[|name| + 1..] == " " + value;
    assert (" " + value)[1..] == value;
  }

  lemma {:induction false} ColonUnique(s: string, i: nat)
    requires i < |s| && s[i] == ':' && forall j :: 0 <= j < i ==> s[j] != ':'
    ensures ColonAt(s) == i
  {
  }

  lemma {:induction false} ProcessConcat(p: Parser, a: seq<string>, b: seq<string>)
    ensures Process(p, a + b) == Process(Process(p, a), b)
    decreases |a|
  {
    if a == [] {
      assert a + b == b;
    } else {
      assert (a + b)[1..] == a[1..] + b;
      ProcessConcat(ProcessLine(p, a[0]), a[1..], b);
    }
  }

  lemma {:induction false} ProcessOne(p: Parser, line: string)
    ensures Process(p, [line]) == ProcessLine(p, line)
  {
    assert [line][1..] == [];
  }

  lemma {:induction false} ProcessOptional(p: Parser, present: bool, name: string, value: string)
    requires name != "" && ':' !in name
    ensures Process(p, Optional(present, name, value)) == if present then Field(p, name, value) else p
  {
    if present {
      ProcessOne(p, Line(name, value));
      ReadField(p, name, value);
    }
  }

  predicate Clean(e: Event) {
    OneLine(e.id) && NUL !in e.id && OneLine(e.event) && OneLine(e.data)
  }

  lemma {:induction false} DecimalDigits(n: nat)
    ensures AllDigits(Decimal(n)) && NumberOf(Decimal(n)) == n
  {
    if n >= 10 {
      DecimalDigits(n / 10);
      assert Decimal(n)[..|Decimal(n)| - 1] == Decimal(n / 10);
    } else {
      assert Decimal(n)[..0] == "";
    }
  }

  /** What an event leaves behind for the next: the id last set and the reconnection time. */
  function IdAfter(lastId: string, e: Event): string {
    if e.id != "" then e.id else lastId
  }

  function ReconnectAfter(reconnect: Option<nat>, e: Event): Option<nat> {
    if e.retry > 0 then Some(e.retry) else reconnect
  }

  function MessageOf(lastId: string, e: Event): Message {
    Message(if e.event != "" then e.event else "message", e.data, IdAfter(lastId, e))
  }

  /** A parser between two events. */
  predicate Between(p: Parser) {
    p.data == "" && p.kind == ""
  }

  function Read(p: Parser, e: Event): Parser {
    Parser("", "", IdAfter(p.lastId, e), ReconnectAfter(p.reconnect, e),
           p.out + FirstMessage(p.lastId, e))
  }

  lemma {:induction false} ReadFields(p: Parser, e: Event)
    requires Between(p) && Clean(e)
    ensures Process(p, UpToRetry(e))
         == Parser(if e.data != "" then e.data + [LF] else "", e.event, IdAfter(p.lastId, e),
                   ReconnectAfter(p.reconnect, e), p.out)
  {
    var a, b := Optional(e.id != "", "id", e.id), Optional(e.event != "", "event", e.event);
    var c, d := Optional(e.data != "", "data", e.data), Optional(e.retry > 0, "retry", RetryText(e));
    var p1 := p.(lastId := IdAfter(p.lastId, e));
    var p2 := p1.(kind := e.event);
    var p3 := p2.(data := if e.data != "" then e.data + [LF] else "");
    ProcessOptional(p, e.id != "", "id", e.id);
    ProcessOptional(p1, e.event != "", "event", e.event);
    ProcessOptional(p2, e.data != "", "data", e.data);
    ProcessOptional(p3, e.retry > 0, "retry", RetryText(e));
    assert "" + e.data == e.data;
    if e.retry > 0 { DecimalDigits(e.retry); }
    ProcessConcat(p, a, b);
    ProcessConcat(p, a + b, c);
    ProcessConcat(p, a + b + c, d);
  }

  lemma {:induction false} ReadEvent(p: Parser, e: Event)
    requires Between(p) && Clean(e)
    ensures Process(p, EventLines(e)) == Read(p, e)
  {
    ReadFields(p, e);
    ProcessConcat(p, UpToRetry(e), [""]);
    ProcessOne(Process(p, UpToRetry(e)), "");
    if e.data != "" { assert (e.data + [LF])[..|e.data|] == e.data; }
  }

  lemma {:induction false} DecimalIsOneLine(n: nat)
    ensures OneLine(Decimal(n))
  {
    if n >= 10 { DecimalIsOneLine(n / 10); }
  }

  lemma EventLinesAreLines(e: Event)
    requires Clean(e)
    ensures forall i :: 0 <= i < |EventLines(e)| ==> OneLine(EventLines(e)[i])
  {
    if e.retry > 0 { DecimalIsOneLine(e.retry); }
    assert OneLine(Line("id", e.id)) && OneLine(Line("event", e.event));
    assert OneLine(Line("data", e.data)) && OneLine(Line("retry", RetryText(e)));
  }

  function ReadAll(p: Parser, events: seq<Event>): Parser
    decreases |events|
  {
    if events == [] then p else ReadAll(Read(p, events[0]), events[1..])
  }

  lemma {:induction false} ReadStream(p: Parser, events: seq<Event>)
    requires Between(p) && forall i :: 0 <= i < |events| ==> Clean(events[i])
    ensures Process(p, Lines(Emitted(events))) == ReadAll(p, events)
    decreases |events|
  {
    if events == [] {
    } else {
      var e, rest := events[0], Emitted(events[1..]);
      EventLinesAreLines(e);
      LinesOfTerminated(EventLines(e), rest);
      ProcessConcat(p, EventLines(e), Lines(rest));
      ReadEvent(p, e);
      ReadStream(Read(p, e), events[1..]);
    }
  }

  /** The messages a stream of events is meant to convey: type, data and last event id, events without
      data changing only the id. */
  function Conveyed(lastId: string, events: seq<Event>): seq<Message>
    decreases |events|
  {
    if events == [] then []
    else FirstMessage(lastId, events[0]) + Conveyed(IdAfter(lastId, events[0]), events[1..])
  }

  function FirstMessage(lastId: string, e: Event): seq<Message> {
    if e.data != "" then [MessageOf(lastId, e)] else []
  }

  lemma {:induction false} ReadAllConveys(p: Parser, events: seq<Event>)
    ensures ReadAll(p, events).out == p.out + Conveyed(p.lastId, events)
    decreases |events|
  {
    if events == [] {
    } else {
      var e := events[0];
      ReadAllConveys(Read(p, e), events[1..]);
      Regroup(p.out, FirstMessage(p.lastId, e), Conveyed(IdAfter(p.lastId, e), events[1..]));
    }
  }

  lemma {:induction false} NoByteOrderMark(events: seq<Event>)
    ensures Emitted(events) == "" || Emitted(events)[0] != BYTE_ORDER_MARK
  {
    if events != [] {
      var lines := EventLines(events[0]);
      assert lines[0] == "" || lines[0][0] == 'i' || lines[0][0] == 'e' || lines[0][0] == 'd' || lines[0][0] == 'r';
      assert Terminated(lines)[0] == if lines[0] == "" then LF else lines[0][0];
    }
  }

  /** The last positive retry of the events, or what was set before them. */
  function LastRetry(reconnect: Option<nat>, events: seq<Event>): Option<nat>
    decreases |events|
  {
    if events == [] then reconnect else LastRetry(ReconnectAfter(reconnect, events[0]), events[1..])
  }

  lemma {:induction false} ReadAllReconnect(p: Parser, events: seq<Event>)
    ensures ReadAll(p, events).reconnect == LastRetry(p.reconnect, events)
    decreases |events|
  {
    if events == [] {
    } else {
      ReadAllReconnect(Read(p, events[0]), events[1..]);
    }
  }

  lemma {:induction false} InterpretedIsReadAll(events: seq<Event>)
    requires forall i :: 0 <= i < |events| ==> Clean(events[i])
    ensures Interpreted(Emitted(events)) == ReadAll(START, events)
  {
    NoByteOrderMark(events);
    ReadStream(START, events);
  }

  /** Interpreting what was written gives back exactly the messages, in order, and leaves the
      reconnection time at the last retry sent. */
  lemma {:induction false} CleanEventsRoundTrip(events: seq<Event>)
    requires forall i :: 0 <= i < |events| ==> Clean(events[i])
    ensures Interpreted(Emitted(events)).out == Conveyed("", events)
    ensures Interpreted(Emitted(events)).reconnect == LastRetry(None, events)
  {
    InterpretedIsReadAll(events);
    ReadAllConveys(START, events);
    ReadAllReconnect(START, events);
    assert [] + Conveyed("", events) == Conveyed("", events);
  }

  // ---------------------------------------------------------------- what no stream can convey

  ghost predicate Tidy(m: Message) {
    OneLine(m.kind) && OneLine(m.lastId) && NUL !in m.lastId && CR !in m.data
  }

  ghost predicate TidyParser(p: Parser) {
    && OneLine(p.kind) && OneLine(p.lastId) && NUL !in p.lastId && CR !in p.data
    && forall i :: 0 <= i < |p.out| ==> Tidy(p.out[i])
  }

  lemma FieldKeepsTidy(p: Parser, name: string, value: string)
    requires TidyParser(p) && OneLine(value)
    ensures TidyParser(Field(p, name, value))
  {
  }

  lemma DispatchKeepsTidy(p: Parser)
    requires TidyParser(p)
    ensures TidyParser(Dispatch(p))
  {
  }

  lemma LineKeepsTidy(p: Parser, line: string)
    requires TidyParser(p) && OneLine(line)
    ensures TidyParser(ProcessLine(p, line))
  {
    var i := ColonAt(line);
    if line == "" {
      DispatchKeepsTidy(p);
    } else if i == |line| {
      FieldKeepsTidy(p, line, "");
    } else if i > 0 {
      FieldKeepsTidy(p, line[..i], WithoutSpace(line[i + 1..]));
    }
  }

  lemma {:induction false} LinesHaveNoBreaks(s: string)
    ensures forall i :: 0 <= i < |Lines(s)| ==> OneLine(Lines(s)[i])
    decreases |s|
  {
    var i := BreakAt(s);
    if i < |s| {
      LinesHaveNoBreaks(s[i + 1..]);
      if i + 1 < |s| { LinesHaveNoBreaks(s[i + 2..]); }
    }
  }

  lemma {:induction false} ProcessKeepsTidy(p: Parser, lines: seq<string>)
    requires TidyParser(p) && forall i :: 0 <= i < |lines| ==> OneLine(lines[i])
    ensures TidyParser(Process(p, lines))
    decreases |lines|
  {
    if lines == [] {
    } else {
      LineKeepsTidy(p, lines[0]);
      ProcessKeepsTidy(ProcessLine(p, lines[0]), lines[1..]);
    }
  }

  /** Whatever the stream, no message dispatched has a line break in its type or id, a carriage return
      in its data, or a NUL in its id. */
  lemma DispatchedIsTidy(stream: string)
    ensures forall i :: 0 <= i < |Interpreted(stream).out| ==> Tidy(Interpreted(stream).out[i])
  {
    var s := if stream != "" && stream[0] == BYTE_ORDER_MARK then stream[1..] else stream;
    LinesHaveNoBreaks(s);
    ProcessKeepsTidy(START, Lines(s));
  }

  // ---------------------------------------------------------------- how much data a stream carries

  /** The data a line adds, counting one for its end. */
  function GainOf(line: string): nat {
    var i := ColonAt(line);
    if i == |line| then (if line == "data" then 1 else 0)
    else if line[..i] == "data" then |WithoutSpace(line[i + 1..])| + 1
    else 0
  }

  function Gains(lines: seq<string>): nat {
    if lines == [] then 0 else GainOf(lines[0]) + Gains(lines[1..])
  }

  function Carried(out: seq<Message>): nat {
    if out == [] then 0 else Carried(out[..|out| - 1]) + |out[|out| - 1].data| + 1
  }

  ghost predicate LineEnded(p: Parser) {
    p.data == "" || p.data[|p.data| - 1] == LF
  }

  function Weight(p: Parser): nat {
    Carried(p.out) + |p.data|
  }

  lemma {:induction false} CarriedSnoc(out: seq<Message>, m: Message)
    ensures Carried(out + [m]) == Carried(out) + |m.data| + 1
  {
    assert (out + [m])[..|out|] == out;
  }

  lemma DispatchKeepsWeight(p: Parser)
    requires LineEnded(p)
    ensures Weight(Dispatch(p)) == Weight(p) && LineEnded(Dispatch(p))
  {
    if p.data != "" { CarriedSnoc(p.out, Dispatch(p).out[|p.out|]); }
  }

  lemma FieldAddsGain(p: Parser, name: string, value: string)
    requires LineEnded(p)
    ensures Weight(Field(p, name, value)) == Weight(p) + if name == "data" then |value| + 1 else 0
    ensures LineEnded(Field(p, name, value))
  {
  }

  lemma LineAddsGain(p: Parser, line: string)
    requires LineEnded(p)
    ensures LineEnded(ProcessLine(p, line)) && Weight(ProcessLine(p, line)) == Weight(p) + GainOf(line)
  {
    var i := ColonAt(line);
    if line == "" { DispatchKeepsWeight(p); }
    else if i == |line| { FieldAddsGain(p, line, ""); }
    else if i > 0 { FieldAddsGain(p, line[..i], WithoutSpace(line[i + 1..])); }
  }

  lemma {:induction false} LinesAddGains(p: Parser, lines: seq<string>)
    requires LineEnded(p)
    ensures Weight(Process(p, lines)) == Weight(p) + Gains(lines)
    decreases |lines|
  {
    if lines == [] {
    } else {
      LineAddsGain(p, lines[0]);
      LinesAddGains(ProcessLine(p, lines[0]), lines[1..]);
    }
  }

  lemma {:induction false} GainsConcat(a: seq<string>, b: seq<string>)
    ensures Gains(a + b) == Gains(a) + Gains(b)
  {
    if a == [] {
      assert a + b == b;
    } else {
      assert (a + b)[1..] == a[1..] + b;
      GainsConcat(a[1..], b);
    }
  }

  lemma {:induction false} GainsCons(line: string, rest: seq<string>)
    ensures Gains([line] + rest) == GainOf(line) + Gains(rest)
  {
    assert ([line] + rest)[1..] == rest;
  }

  lemma GainAtMostLength(line: string)
    ensures GainOf(line) <= |line|
  {
  }

  lemma GainOfField(name: string, value: string)
    requires name != "" && ':' !in name
    ensures GainOf(Line(name, value)) == if name == "data" then |value| + 1 else 0
  {
    var line := Line(name, value);
    ColonUnique(line, |name|);
    assert line[..|name|] == name && line[|name| + 1..] == " " + value;
  }

  lemma SplitAtBreak(d: string, rest: string) returns (first: string, second: string)
    requires CR !in d && !OneLine(d)
    ensures OneLine(first) && CR !in second && |first| + 1 + |second| == |d|
    ensures d + [LF] + rest == first + [LF] + (second + [LF] + rest) && d == first + [LF] + second
  {
    var i := BreakAt(d);
    first, second := d[..i], d[i + 1..];
    assert d == first + [LF] + second;
  }

  /** Text between line breaks of its own adds no more data than its length. */
  lemma {:induction false} RawGain(d: string, rest: string)
    requires CR !in d
    ensures Gains(Lines(d + [LF] + rest)) <= |d| + Gains(Lines(rest))
    decreases |d|
  {
    if OneLine(d) {
      LinesCons(d, rest);
      GainsCons(d, Lines(rest));
      GainAtMostLength(d);
    } else {
      var first, second := SplitAtBreak(d, rest);
      RawGain(second, rest);
      LinesCons(first, second + [LF] + rest);
      GainsCons(first, Lines(second + [LF] + rest));
      GainAtMostLength(first);
    }
  }

  /** A data line carries its value, less at least one if the value has a line feed. */
  lemma {:induction false} DataGain(d: string, rest: string)
    requires CR !in d
    ensures Gains(Lines(Line("data", d) + [LF] + rest)) <= |d| + (if OneLine(d) then 1 else 0) + Gains(Lines(rest))
  {
    if OneLine(d) {
      FirstLineGain(d, rest);
    } else {
      var first, second := SplitAtBreak(d, rest);
      var tail := second + [LF] + rest;
      DataText(d, first, second, rest);
      RawGain(second, rest);
      FirstLineGain(first, tail);
    }
  }

  lemma {:induction false} FirstLineGain(first: string, tail: string)
    requires OneLine(first)
    ensures Gains(Lines(Line("data", first) + [LF] + tail)) == |first| + 1 + Gains(Lines(tail))
  {
    LinesCons(Line("data", first), tail);
    GainsCons(Line("data", first), Lines(tail));
    GainOfField("data", first);
  }

  lemma DataText(d: string, first: string, second: string, rest: string)
    requires d == first + [LF] + second
    ensures Line("data", d) + [LF] + rest == Line("data", first) + [LF] + (second + [LF] + rest)
  {
  }

  /** Everything but the data is in order, and there is data. */
  ghost predicate CleanButData(e: Event) {
    OneLine(e.id) && OneLine(e.event) && CR !in e.data && e.data != ""
  }

  lemma OptionalGain(present: bool, name: string, value: string)
    requires name != "" && ':' !in name && name != "data"
    ensures Gains(Optional(present, name, value)) == 0
  {
    if present {
      GainOfField(name, value);
      assert [Line(name, value)][1..] == [];
    }
  }

  function Behind(e: Event): seq<string> {
    Optional(e.retry > 0, "retry", RetryText(e)) + [""]
  }

  lemma OptionalIsLine(present: bool, name: string, value: string)
    requires OneLine(name) && OneLine(value)
    ensures forall i :: 0 <= i < |Optional(present, name, value)| ==> OneLine(Optional(present, name, value)[i])
  {
  }

  lemma BeforeIsLines(e: Event)
    requires CleanButData(e)
    ensures Gains(UpToType(e)) == 0 && forall i :: 0 <= i < |UpToType(e)| ==> OneLine(UpToType(e)[i])
  {
    var a, b := Optional(e.id != "", "id", e.id), Optional(e.event != "", "event", e.event);
    OptionalGain(e.id != "", "id", e.id);
    OptionalGain(e.event != "", "event", e.event);
    OptionalIsLine(e.id != "", "id", e.id);
    OptionalIsLine(e.event != "", "event", e.event);
    GainsConcat(a, b);
  }

  lemma BehindIsLines(e: Event)
    ensures Gains(Behind(e)) == 0 && forall i :: 0 <= i < |Behind(e)| ==> OneLine(Behind(e)[i])
  {
    var d := Optional(e.retry > 0, "retry", RetryText(e));
    OptionalGain(e.retry > 0, "retry", RetryText(e));
    if e.retry > 0 { DecimalIsOneLine(e.retry); }
    OptionalIsLine(e.retry > 0, "retry", RetryText(e));
    GainsConcat(d, [""]);
    GainsCons("", []);
    assert [""] + [] == [""];
  }

  lemma LinesAroundData(e: Event)
    requires e.data != ""
    ensures EventLines(e) == UpToType(e) + ([Line("data", e.data)] + Behind(e))
  {
  }

  lemma {:induction false} TerminatedFirst(line: string, lines: seq<string>)
    ensures Terminated([line] + lines) == line + [LF] + Terminated(lines)
  {
    assert ([line] + lines)[1..] == lines;
  }

  lemma EventText(e: Event, rest: string)
    requires e.data != ""
    ensures Terminated(EventLines(e)) + rest
         == Terminated(UpToType(e)) + (Line("data", e.data) + [LF] + (Terminated(Behind(e)) + rest))
  {
    LinesAroundData(e);
    TerminatedConcat(UpToType(e), [Line("data", e.data)] + Behind(e));
    TerminatedFirst(Line("data", e.data), Behind(e));
    RegroupText(Terminated(UpToType(e)), Line("data", e.data) + [LF], Terminated(Behind(e)), rest);
  }

  lemma RegroupText(a: string, b: string, c: string, d: string)
    ensures a + (b + c) + d == a + (b + (c + d))
  {
  }

  lemma {:induction false} TerminatedConcat(a: seq<string>, b: seq<string>)
    ensures Terminated(a + b) == Terminated(a) + Terminated(b)
  {
    if a == [] {
      assert a + b == b;
    } else {
      assert (a + b)[1..] == a[1..] + b;
      TerminatedConcat(a[1..], b);
    }
  }

  lemma {:induction false} EventGain(e: Event, rest: string)
    requires CleanButData(e)
    ensures Gains(Lines(Terminated(EventLines(e)) + rest))
         <= |e.data| + (if OneLine(e.data) then 1 else 0) + Gains(Lines(rest))
  {
    var tail := Terminated(Behind(e)) + rest;
    var middle := Line("data", e.data) + [LF] + tail;
    BeforeIsLines(e);
    BehindIsLines(e);
    EventText(e, rest);
    LinesOfTerminated(UpToType(e), middle);
    GainsConcat(UpToType(e), Lines(middle));
    DataGain(e.data, tail);
    LinesOfTerminated(Behind(e), rest);
    GainsConcat(Behind(e), Lines(rest));
  }

  /** The data the events hold, counting one for the end of each. */
  function Held(events: seq<Event>): nat {
    if events == [] then 0 else |events[0].data| + 1 + Held(events[1..])
  }

  lemma {:induction false} StreamGain(events: seq<Event>)
    requires forall i :: 0 <= i < |events| ==> CleanButData(events[i])
    ensures Gains(Lines(Emitted(events))) <= Held(events)
    ensures (exists i :: 0 <= i < |events| && !OneLine(events[i].data)) ==> Gains(Lines(Emitted(events))) < Held(events)
    decreases |events|
  {
    if events == [] {
    } else {
      StreamGain(events[1..]);
      EventGain(events[0], Emitted(events[1..]));
      if i :| 0 <= i < |events| && !OneLine(events[i].data) {
        if i > 0 { assert events[1..][i - 1] == events[i]; }
      }
    }
  }

  // ---------------------------------------------------------------- the exact condition

  lemma {:induction false} ConveyedAt(lastId: string, events: seq<Event>, k: nat)
    requires k < |events| && forall i :: 0 <= i < |events| ==> events[i].data != ""
    ensures |Conveyed(lastId, events)| == |events|
    ensures var (m, e) := (Conveyed(lastId, events)[k], events[k]);
            m.data == e.data && (e.event != "" ==> m.kind == e.event) && (e.id != "" ==> m.lastId == e.id)
    decreases |events|
  {
    var next := IdAfter(lastId, events[0]);
    if |events| > 1 { ConveyedAt(next, events[1..], if k > 0 then k - 1 else 0); }
    assert Conveyed(lastId, events) == [MessageOf(lastId, events[0])] + Conveyed(next, events[1..]);
  }

  lemma {:induction false} CarriedConcat(a: seq<Message>, b: seq<Message>)
    ensures Carried(a + b) == Carried(a) + Carried(b)
    decreases |b|
  {
    if b == [] {
      assert a + b == a;
    } else {
      assert (a + b)[..|a + b| - 1] == a + b[..|b| - 1];
      CarriedConcat(a, b[..|b| - 1]);
    }
  }

  lemma {:induction false} ConveyedCarriesHeld(lastId: string, events: seq<Event>)
    requires forall i :: 0 <= i < |events| ==> events[i].data != ""
    ensures Carried(Conveyed(lastId, events)) == Held(events)
    decreases |events|
  {
    if events == [] {
    } else {
      var m, next := MessageOf(lastId, events[0]), IdAfter(lastId, events[0]);
      ConveyedCarriesHeld(next, events[1..]);
      CarriedConcat([m], Conveyed(next, events[1..]));
      assert [m][..0] == [];
    }
  }

  /** If the messages come through, every type and id was fit for a line and no data had a CR. */
  lemma {:induction false} ConveyedWasCleanButData(events: seq<Event>)
    requires forall i :: 0 <= i < |events| ==> events[i].data != ""
    requires Interpreted(Emitted(events)).out == Conveyed("", events)
    ensures forall i :: 0 <= i < |events| ==> CleanButData(events[i]) && NUL !in events[i].id
  {
    DispatchedIsTidy(Emitted(events));
    forall i | 0 <= i < |events| ensures CleanButData(events[i]) && NUL !in events[i].id {
      ConveyedAt("", events, i);
      assert Tidy(Conveyed("", events)[i]);
    }
  }

  /** For events with data, the stream conveys exactly the events if and only if no field contains a
      line break and no id a NUL. */
  lemma {:induction false} RoundTripExactlyWhenClean(events: seq<Event>)
    requires forall i :: 0 <= i < |events| ==> events[i].data != ""
    ensures Interpreted(Emitted(events)).out == Conveyed("", events)
        <==> forall i :: 0 <= i < |events| ==> Clean(events[i])
  {
    if forall i :: 0 <= i < |events| ==> Clean(events[i]) {
      CleanEventsRoundTrip(events);
    }
    if Interpreted(Emitted(events)).out == Conveyed("", events) {
      ConveyedWasCleanButData(events);
      NoByteOrderMark(events);
      StreamGain(events);
      LinesAddGains(START, Lines(Emitted(events)));
      ConveyedCarriesHeld("", events);
    }
  }
}
