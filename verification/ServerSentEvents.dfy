/** The event stream a client of `GET /v1/sessions/{id}/events` reads: the frames printed by
    `handleSessionEvents` (api/server.go), and the reader of sections 9.2.5 and 9.2.6 of the WHATWG
    HTML Living Standard that browsers apply to them. */
module ServerSentEvents {

  /** An event as printed: `json` is its encoding, which `json.Marshal` puts on one line. */
  datatype Outgoing = Outgoing(sequence: nat, kind: string, json: string)

  /** An event as dispatched to a listener. */
  datatype Message = Message(lastEventId: string, kind: string, data: string)

  // ----- The printer -----

  function Digit(d: nat): char
    requires d < 10
  {
    '0' + d as char
  }

  function Decimal(n: nat): string {
    if n < 10 then [Digit(n)] else Decimal(n / 10) + [Digit(n % 10)]
  }

  function Line(field: string, value: string): string {
    field + ": " + value + "\n"
  }

  const ID := "id"
  const EVENT := "event"
  const DATA := "data"

  function Frame(e: Outgoing): string {
    Line(ID, Decimal(e.sequence)) + (Line(EVENT, e.kind) + (Line(DATA, e.json) + "\n"))
  }

  function Frames(events: seq<Outgoing>): string {
    if events == [] then "" else Frame(events[0]) + Frames(events[1..])
  }

  /** The write loop of the handler. */
  method WriteFrames(events: seq<Outgoing>) returns (out: string)
    ensures out == Frames(events)
  {
    out := "";
    var rest := events;
    while rest != []
      invariant out + Frames(rest) == Frames(events)
      decreases |rest|
    {
      var e := rest[0];
      var frame := "id: " + Decimal(e.sequence) + "\nevent: " + e.kind + "\ndata: " + e.json + "\n\n";
      FormatIsFrame(e);
      out := out + frame;
      rest := rest[1..];
    }
  }

  lemma FormatIsFrame(e: Outgoing)
    ensures "id: " + Decimal(e.sequence) + "\nevent: " + e.kind + "\ndata: " + e.json + "\n\n" == Frame(e)
  {
    var d := Decimal(e.sequence);
    assert "id: " == ID + ": ";
    assert "\nevent: " == "\n" + (EVENT + ": ");
    assert "\ndata: " == "\n" + (DATA + ": ");
    assert "\n\n" == "\n" + "\n";
  }

  // ----- The reader -----

  predicate Break(c: char) {
    c == '\n' || c == '\r'
  }

  predicate OneLine(s: string) {
    forall i :: 0 <= i < |s| ==> !Break(s[i])
  }

  /** Position of the first line break at or after `i`, or the length. */
  function BreakAt(s: string, i: nat): (j: nat)
    requires i <= |s|
    ensures i <= j <= |s|
    ensures forall n :: i <= n < j ==> !Break(s[n])
    ensures j < |s| ==> Break(s[j])
    decreases |s| - i
  {
    if i == |s| || Break(s[i]) then i else BreakAt(s, i + 1)
  }

  /** Lines ended by CR LF, LF or CR; an unfinished last line is discarded with the rest of its event. */
  function Lines(s: string): seq<string>
    decreases |s|
  {
    var i := BreakAt(s, 0);
    if i == |s| then []
    else
      var next := if s[i] == '\r' && i + 1 < |s| && s[i + 1] == '\n' then i + 2 else i + 1;
      [s[..i]] + Lines(s[next..])
  }

  datatype Buffers = Buffers(lastEventId: string, kind: string, data: string)

  const EMPTY := Buffers("", "", "")

  function Field(b: Buffers, name: string, value: string): Buffers {
    if name == EVENT then b.(kind := value)
    else if name == DATA then b.(data := b.data + value + "\n")
    else if name == ID && (forall i :: 0 <= i < |value| ==> value[i] as int != 0) then b.(lastEventId := value)
    else b
  }

  function ColonAt(line: string, i: nat): (j: nat)
    requires i <= |line|
    ensures i <= j <= |line|
    ensures forall n :: i <= n < j ==> line[n] != ':'
    ensures j < |line| ==> line[j] == ':'
    decreases |line| - i
  {
    if i == |line| || line[i] == ':' then i else ColonAt(line, i + 1)
  }

  function StripSpace(value: string): string {
    if value != "" && value[0] == ' ' then value[1..] else value
  }

  /** A non-empty line: a comment, a field with a value, or a bare field name. */
  function Process(b: Buffers, line: string): Buffers {
    var i := ColonAt(line, 0);
    if i == |line| then Field(b, line, "")
    else if i == 0 then b
    else Field(b, line[..i], StripSpace(line[i + 1..]))
  }

  /** An empty line dispatches what the buffers hold, unless there is no data. */
  function Read(b: Buffers, lines: seq<string>): seq<Message>
    decreases |lines|
  {
    if lines == [] then []
    else if lines[0] != "" then Read(Process(b, lines[0]), lines[1..])
    else if b.data == "" then Read(b.(kind := ""), lines[1..])
    else
      var data := if b.data[|b.data| - 1] == '\n' then b.data[..|b.data| - 1] else b.data;
      [Message(b.lastEventId, if b.kind == "" then "message" else b.kind, data)]
      + Read(Buffers(b.lastEventId, "", ""), lines[1..])
  }

  function StripBom(s: string): string {
    if s != "" && s[0] as int == 0xFEFF then s[1..] else s
  }

  function ReadStream(s: string): seq<Message> {
    Read(EMPTY, Lines(StripBom(s)))
  }

  // ----- Printing and reading back -----

  lemma {:induction false} BreakAfter(line: string, rest: string, i: nat)
    requires OneLine(line) && i <= |line|
    ensures BreakAt(line + "\n" + rest, i) == |line|
    decreases |line| - i
  {
    var s := line + "\n" + rest;
    if i < |line| {
      assert s[i] == line[i];
      BreakAfter(line, rest, i + 1);
    } else {
      assert s[i] == '\n';
    }
  }

  lemma LinesStep(line: string, rest: string)
    requires OneLine(line)
    ensures Lines(line + "\n" + rest) == [line] + Lines(rest)
  {
    var s := line + "\n" + rest;
    BreakAfter(line, rest, 0);
    assert s[|line|] == '\n' && s[..|line|] == line && s[|line| + 1..] == rest;
  }

  lemma {:induction false} ColonAfter(name: string, rest: string, i: nat)
    requires ':' !in name && i <= |name|
    ensures ColonAt(name + ":" + rest, i) == |name|
    decreases |name| - i
  {
    var s := name + ":" + rest;
    if i < |name| {
      assert s[i] == name[i] && name[i] in name;
      ColonAfter(name, rest, i + 1);
    } else {
      assert s[i] == ':';
    }
  }

  /** A printed line carries its field and value through, a leading space of the value included. */
  lemma ProcessLine(b: Buffers, name: string, value: string)
    requires name != "" && ':' !in name
    ensures Process(b, name + ": " + value) == Field(b, name, value)
  {
    var s := name + ":" + (" " + value);
    assert name + ": " + value == s;
    ColonAfter(name, " " + value, 0);
    assert s[..|name|] == name && s[|name| + 1..] == " " + value;
    assert (" " + value)[1..] == value;
  }

  lemma {:induction false} DecimalDigits(n: nat)
    ensures Decimal(n) != ""
    ensures forall i :: 0 <= i < |Decimal(n)| ==> '0' <= Decimal(n)[i] <= '9'
  {
    if n >= 10 { DecimalDigits(n / 10); }
  }

  /** The lines of one frame, and what follows. */
  lemma FrameLines(e: Outgoing, rest: string)
    requires OneLine(e.kind) && OneLine(e.json)
    ensures Lines(Frame(e) + rest) ==
      [ID + ": " + Decimal(e.sequence)] + ([EVENT + ": " + e.kind] + ([DATA + ": " + e.json] + ([""] + Lines(rest))))
  {
    DecimalDigits(e.sequence);
    var l1, l2, l3 := ID + ": " + Decimal(e.sequence), EVENT + ": " + e.kind, DATA + ": " + e.json;
    assert OneLine(l1) && OneLine(l2) && OneLine(l3);
    var s3 := "" + "\n" + rest;
    var s2 := l3 + "\n" + s3;
    var s1 := l2 + "\n" + s2;
    assert Frame(e) + rest == l1 + "\n" + s1;
    LinesStep(l1, s1);
    LinesStep(l2, s2);
    LinesStep(l3, s3);
    LinesStep("", rest);
  }

  function Expect(e: Outgoing): Message {
    Message(Decimal(e.sequence), e.kind, e.json)
  }

  function ExpectAll(events: seq<Outgoing>): seq<Message> {
    seq(|events|, i requires 0 <= i < |events| => Expect(events[i]))
  }

  lemma ReadFrame(b: Buffers, e: Outgoing, tail: seq<string>)
    requires b.kind == "" && b.data == ""
    requires e.kind != ""
    ensures Read(b, [ID + ": " + Decimal(e.sequence)]
      + ([EVENT + ": " + e.kind] + ([DATA + ": " + e.json] + ([""] + tail))))
         == [Expect(e)] + Read(Buffers(Decimal(e.sequence), "", ""), tail)
  {
    DecimalDigits(e.sequence);
    var l1, l2, l3 := ID + ": " + Decimal(e.sequence), EVENT + ": " + e.kind, DATA + ": " + e.json;
    ProcessLine(b, ID, Decimal(e.sequence));
    var b1 := b.(lastEventId := Decimal(e.sequence));
    assert Process(b, l1) == b1;
    ProcessLine(b1, EVENT, e.kind);
    var b2 := b1.(kind := e.kind);
    assert Process(b1, l2) == b2;
    ProcessLine(b2, DATA, e.json);
    var b3 := b2.(data := e.json + "\n");
    assert "" + e.json == e.json;
    assert Process(b2, l3) == b3;
    var t3 := [""] + tail;
    var t2 := [l3] + t3;
    var t1 := [l2] + t2;
    assert Read(b3, t3) == [Expect(e)] + Read(Buffers(Decimal(e.sequence), "", ""), tail) by {
      assert t3[1..] == tail && b3.data[..|b3.data| - 1] == e.json;
    }
    assert t2[1..] == t3 && Read(b2, t2) == Read(b3, t3);
    assert t1[1..] == t2 && Read(b1, t1) == Read(b2, t2);
    assert ([l1] + t1)[1..] == t1;
  }

  lemma {:induction false} ReadFrames(b: Buffers, events: seq<Outgoing>)
    requires b.kind == "" && b.data == ""
    requires forall e :: e in events ==> e.kind != "" && OneLine(e.kind) && OneLine(e.json)
    ensures Read(b, Lines(Frames(events))) == ExpectAll(events)
    decreases |events|
  {
    if events != [] {
      var e, rest := events[0], Frames(events[1..]);
      FrameLines(e, rest);
      ReadFrame(b, e, Lines(rest));
      ReadFrames(Buffers(Decimal(e.sequence), "", ""), events[1..]);
      assert ExpectAll(events) == [Expect(e)] + ExpectAll(events[1..]);
    }
  }

  // ----- Why the condition is exact -----

  lemma {:induction false} LinesAreOneLine(s: string)
    ensures forall l :: l in Lines(s) ==> OneLine(l)
    decreases |s|
  {
    var i := BreakAt(s, 0);
    if i < |s| {
      var next := if s[i] == '\r' && i + 1 < |s| && s[i + 1] == '\n' then i + 2 else i + 1;
      LinesAreOneLine(s[next..]);
    }
  }

  /** No reader ever sees an event type that is empty or spans lines. */
  lemma {:induction false} KindsAreOneLine(b: Buffers, lines: seq<string>)
    requires OneLine(b.kind) && forall l :: l in lines ==> OneLine(l)
    ensures forall m :: m in Read(b, lines) ==> m.kind != "" && OneLine(m.kind)
    decreases |lines|
  {
    if lines != [] {
      var rest := lines[1..];
      if lines[0] != "" {
        assert OneLine(lines[0]);
        KindsAreOneLine(Process(b, lines[0]), rest);
      } else if b.data == "" {
        KindsAreOneLine(b.(kind := ""), rest);
      } else {
        KindsAreOneLine(Buffers(b.lastEventId, "", ""), rest);
      }
    }
  }

  /** A client reads back exactly the ids, types and data that were printed, for any sequence of
      events, if and only if every type is non-empty and free of CR and LF. */
  lemma RoundTripExact(events: seq<Outgoing>)
    requires forall e :: e in events ==> e.json != "" && OneLine(e.json)
    ensures ReadStream(Frames(events)) == ExpectAll(events)
      <==> forall i :: 0 <= i < |events| ==> events[i].kind != "" && OneLine(events[i].kind)
  {
    var s := Frames(events);
    assert StripBom(s) == s by {
      if events != [] { assert s[0] == ID[0] == 'i'; }
    }
    if forall i :: 0 <= i < |events| ==> events[i].kind != "" && OneLine(events[i].kind) {
      ReadFrames(EMPTY, events);
    } else {
      LinesAreOneLine(s);
      KindsAreOneLine(EMPTY, Lines(s));
      var i :| 0 <= i < |events| && !(events[i].kind != "" && OneLine(events[i].kind));
      assert ExpectAll(events)[i].kind == events[i].kind;
      assert ExpectAll(events)[i] in ExpectAll(events);
    }
  }

  /** For instance an event without a type, or with a line break in it. */
  lemma OddTypesAreLost()
    ensures ReadStream(Frames([Outgoing(1, "", "{}")])) != ExpectAll([Outgoing(1, "", "{}")])
    ensures ReadStream(Frames([Outgoing(1, "a\nb", "{}")])) != ExpectAll([Outgoing(1, "a\nb", "{}")])
  {
    RoundTripExact([Outgoing(1, "", "{}")]);
    RoundTripExact([Outgoing(1, "a\nb", "{}")]);
    assert "a\nb"[1] == '\n';
  }

  function Value(digits: string): int {
    if digits == "" then 0 else 10 * Value(digits[..|digits| - 1]) + (digits[|digits| - 1] as int - '0' as int)
  }

  /** The id a client sees names the sequence number. */
  lemma {:induction false} DecimalRoundTrip(n: nat)
    ensures Value(Decimal(n)) == n
  {
    if n >= 10 {
      DecimalRoundTrip(n / 10);
      assert Decimal(n)[..|Decimal(n)| - 1] == Decimal(n / 10);
    } else {
      assert Decimal(n)[..0] == "";
    }
  }
}
