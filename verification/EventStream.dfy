/** Reading of event streams, after sections 9.2.5 and 9.2.6 of the WHATWG HTML Living
    Standard, and the round trip with the printed frames. */
module EventStream {
  import opened Text
  import opened Sse

  datatype Event = Event(eventType: string, data: string, lastEventId: string)

  /** The buffers of the interpreter, and the events dispatched so far. */
  datatype Reader = Reader(data: string, eventType: string, id: string, events: seq<Event>)

  const START := Reader("", "", "", [])

  /** The lines of a stream; each ends with CRLF, LF or CR.  Text after the last line end
      belongs to no event and is discarded. */
  function Lines(s: string): seq<string> {
    LinesFrom("", s)
  }

  function LinesFrom(line: string, s: string): seq<string>
    decreases |s|
  {
    if s == "" then []
    else if s[0] == CR && |s| > 1 && s[1] == LF then [line] + LinesFrom("", s[2..])
    else if s[0] == CR || s[0] == LF then [line] + LinesFrom("", s[1..])
    else LinesFrom(line + [s[0]], s[1..])
  }

  function ProcessField(r: Reader, field: string, value: string): Reader {
    if field == "event" then r.(eventType := value)
    else if field == "data" then r.(data := r.data + value + "\n")
    else if field == "id" then if '\0' in value then r else r.(id := value)
    else r
  }

  /** A blank line dispatches; the id buffer is kept. */
  function Dispatch(r: Reader): Reader {
    if r.data == "" then r.(eventType := "")
    else
      var data := if r.data[|r.data| - 1] == LF then r.data[..|r.data| - 1] else r.data;
      var t := if r.eventType == "" then "message" else r.eventType;
      Reader("", "", r.id, r.events + [Event(t, data, r.id)])
  }

  /** The field name of a line: what comes before its first colon.  It is empty for a comment. */
  function Field(line: string): string {
    line[..FirstColon(line)]
  }

  /** What comes after the first colon, without one leading space. */
  function Value(line: string): string {
    var n := FirstColon(line);
    if n == |line| then ""
    else if " " <= line[n + 1..] then line[n + 2..]
    else line[n + 1..]
  }

  function ProcessLine(r: Reader, line: string): Reader {
    if line == "" then Dispatch(r) else ProcessField(r, Field(line), Value(line))
  }

  function Process(r: Reader, lines: seq<string>): Reader
    decreases |lines|
  {
    if lines == [] then r else Process(ProcessLine(r, lines[0]), lines[1..])
  }

  /** The events of a stream; one leading byte order mark is dropped. */
  function Parse(s: string): seq<Event> {
    Process(START, Lines(if "\U{FEFF}" <= s then s[1..] else s)).events
  }

  // ---- The round trip ----

  datatype Item = Data(eventType: string, eventID: string, payload: string) | Beat(comment: string)

  function Bytes(item: Item): string {
    match item
    case Data(t, i, p) => DataBytes(t, i, p)
    case Beat(c) => HeartbeatBytes(c)
  }

  function Stream(items: seq<Item>): string {
    if items == [] then "" else Bytes(items[0]) + Stream(items[1..])
  }

  /** The line puts something into the data buffer or the id buffer. */
  predicate Loud(line: string) {
    Field(line) == "data" || (Field(line) == "id" && '\0' !in Value(line))
  }

  /** No line of the heartbeat is loud. */
  predicate Silent(comment: string) {
    forall line :: line in Lines(HeartbeatBytes(comment)) ==> !Loud(line)
  }

  /** The payload of a data frame is on one line and its id is free of NUL; a heartbeat is
      silent. */
  predicate Printable(item: Item) {
    match item
    case Data(_, i, p) => OneLine(p) && '\0' !in i
    case Beat(c) => Silent(c)
  }

  /** One event per data frame, in order; an empty id keeps the one before. */
  function Expected(items: seq<Item>, lastId: string): seq<Event> {
    if items == [] then []
    else
      match items[0]
      case Beat(_) => Expected(items[1..], lastId)
      case Data(eventType, eventID, p) =>
        var t, id := SanitizeHeader(eventType), SanitizeHeader(eventID);
        var here := if id == "" then lastId else id;
        [Event(if t == "" then "message" else t, p, here)] + Expected(items[1..], here)
  }

  /** The text after the line end that a text starts with. */
  function AfterBreak(s: string): string
    requires s != ""
  {
    if s[0] == CR && |s| > 1 && s[1] == LF then s[2..] else s[1..]
  }

  lemma {:induction false} LinesStep(start: string, line: string, rest: string)
    requires OneLine(line) && rest != "" && !OneLine(rest[..1])
    ensures LinesFrom(start, line + rest) == [start + line] + Lines(AfterBreak(rest))
    decreases |line|
  {
    var s := line + rest;
    if line == "" {
      assert s == rest && start + line == start;
      assert rest[0] in rest[..1];
    } else {
      assert s[0] == line[0] && s[0] in line;
      assert s[1..] == line[1..] + rest;
      LinesStep(start + [line[0]], line[1..], rest);
      assert start + [line[0]] + line[1..] == start + line;
    }
  }

  lemma NextLine(line: string, rest: string)
    requires OneLine(line)
    ensures Lines(line + "\n" + rest) == [line] + Lines(rest)
  {
    assert line + "\n" + rest == line + ("\n" + rest);
    LinesStep("", line, "\n" + rest);
    assert "" + line == line;
  }

  lemma ProcessCons(r: Reader, line: string, lines: seq<string>)
    ensures Process(r, [line] + lines) == Process(ProcessLine(r, line), lines)
  {
    assert ([line] + lines)[1..] == lines;
  }

  lemma ProcessNext(r: Reader, line: string, rest: string)
    requires OneLine(line)
    ensures Process(r, Lines(line + "\n" + rest)) == Process(ProcessLine(r, line), Lines(rest))
  {
    NextLine(line, rest);
    ProcessCons(r, line, Lines(rest));
  }

  /** A line "name: value" sets the field to exactly the value. */
  lemma FieldLine(r: Reader, name: string, value: string)
    requires name != "" && ':' !in name
    ensures ProcessLine(r, name + ": " + value) == ProcessField(r, name, value)
  {
    var line := name + ": " + value;
    var n := FirstColon(line);
    assert line[|name|] == ':';
    assert forall i :: 0 <= i < |name| ==> line[i] in name;
    assert forall i :: 0 <= i < n ==> line[i] in line[..n];
    assert n == |name|;
    assert line[n + 1..] == " " + value && line[n + 2..] == value;
    assert line[..n] == name;
  }

  lemma HeaderLine(r: Reader, name: string, value: string, rest: string)
    requires name != "" && ':' !in name && OneLine(name) && OneLine(value)
    ensures Process(r, Lines(Header(name, value) + rest)) ==
            Process(if value == "" then r else ProcessField(r, name, value), Lines(rest))
  {
    if value == "" {
      assert Header(name, value) + rest == rest;
    } else {
      var line := name + ": " + value;
      assert Header(name, value) + rest == line + "\n" + rest;
      ProcessNext(r, line, rest);
      FieldLine(r, name, value);
    }
  }

  lemma DispatchData(r: Reader, p: string)
    requires r.data == p + "\n"
    ensures Dispatch(r) == Reader("", "", r.id, r.events + [Event(if r.eventType == "" then "message" else r.eventType, p, r.id)])
  {
    assert r.data[..|p|] == p;
  }

  lemma ProcessLast(r: Reader, line: string, rest: string)
    requires OneLine(line)
    ensures Process(r, Lines(line + "\n" + ("" + "\n" + rest))) == Process(Dispatch(ProcessLine(r, line)), Lines(rest))
  {
    ProcessNext(r, line, "" + "\n" + rest);
    ProcessNext(ProcessLine(r, line), "", rest);
  }

  lemma DataBuffered(r: Reader, head: string)
    ensures ProcessLine(r, "data: " + head) == r.(data := r.data + head + "\n")
  {
    assert "data" + ": " + head == "data: " + head;
    FieldLine(r, "data", head);
  }

  lemma DataLine(r: Reader, p: string)
    requires r.data == ""
    ensures Dispatch(ProcessLine(r, "data: " + p)) ==
      Reader("", "", r.id, r.events + [Event(if r.eventType == "" then "message" else r.eventType, p, r.id)])
  {
    DataBuffered(r, p);
    assert r.data + p + "\n" == p + "\n";
    DispatchData(ProcessLine(r, "data: " + p), p);
  }

  /** The data line and the blank line after it dispatch one event. */
  lemma ReadPayload(r: Reader, p: string, rest: string)
    requires r.data == "" && OneLine(p)
    ensures Process(r, Lines("data: " + p + "\n" + ("" + "\n" + rest))) ==
      Process(Reader("", "", r.id, r.events + [Event(if r.eventType == "" then "message" else r.eventType, p, r.id)]), Lines(rest))
  {
    ProcessLast(r, "data: " + p, rest);
    DataLine(r, p);
  }

  lemma DataInParts(headers: string, more: string, p: string, rest: string)
    ensures headers + more + "data: " + p + "\n\n" + rest == headers + (more + ("data: " + p + "\n" + ("" + "\n" + rest)))
  {
  }

  /** What one frame does to a reader that is between events. */
  function Read(r: Reader, item: Item): Reader {
    match item
    case Beat(_) => r
    case Data(eventType, eventID, p) =>
      var t, id := SanitizeHeader(eventType), SanitizeHeader(eventID);
      var here := if id == "" then r.id else id;
      Reader("", "", here, r.events + [Event(if t == "" then "message" else t, p, here)])
  }

  function ReadAll(r: Reader, items: seq<Item>): Reader
    decreases |items|
  {
    if items == [] then r else ReadAll(Read(r, items[0]), items[1..])
  }

  lemma ReadData(r: Reader, item: Item, rest: string)
    requires r.data == "" && r.eventType == "" && Printable(item) && item.Data?
    ensures Process(r, Lines(Bytes(item) + rest)) == Process(Read(r, item), Lines(rest))
  {
    var t, id, p := SanitizeHeader(item.eventType), SanitizeHeader(item.eventID), item.payload;
    SanitizeHeaderMeans(item.eventType);
    SanitizeHeaderMeans(item.eventID);
    var tail := "data: " + p + "\n" + ("" + "\n" + rest);
    DataInParts(Header("event", t), Header("id", id), p, rest);
    HeaderLine(r, "event", t, Header("id", id) + tail);
    var r1 := r.(eventType := t);
    HeaderLine(r1, "id", id, tail);
    var r2 := r1.(id := if id == "" then r.id else id);
    ReadPayload(r2, p, rest);
  }

  /** Reading is reading the first part and then the second, where the first ends a line. */
  lemma {:induction false} LinesConcat(line: string, s: string, rest: string)
    ensures LinesFrom(line, s + "\n" + rest) == LinesFrom(line, s + "\n") + Lines(rest)
    decreases |s|
  {
    var whole, first := s + "\n" + rest, s + "\n";
    if s == "" {
      assert whole[1..] == rest && first[1..] == "";
    } else if s[0] == CR && first[1] == LF {
      if |s| == 1 {
        assert whole[2..] == rest && first[2..] == "";
      } else {
        assert whole[2..] == s[2..] + "\n" + rest && first[2..] == s[2..] + "\n";
        LinesConcat("", s[2..], rest);
      }
    } else {
      assert whole[0] == s[0] && whole[1] == first[1];
      assert whole[1..] == s[1..] + "\n" + rest && first[1..] == s[1..] + "\n";
      LinesConcat(if s[0] == CR || s[0] == LF then "" else line + [s[0]], s[1..], rest);
    }
  }

  lemma {:induction false} ProcessConcat(r: Reader, a: seq<string>, b: seq<string>)
    ensures Process(r, a + b) == Process(Process(r, a), b)
    decreases |a|
  {
    if a == [] {
      assert a + b == b;
    } else {
      assert (a + b)[1..] == a[1..] + b;
      ProcessConcat(ProcessLine(r, a[0]), a[1..], b);
    }
  }

  /** A heartbeat ends with a blank line. */
  lemma {:induction false} EndsBlank(line: string, s: string)
    ensures var lines := LinesFrom(line, s + "\n\n"); lines != [] && lines[|lines| - 1] == ""
    decreases |s|
  {
    var whole := s + "\n\n";
    if s == "" {
      assert whole[1..] == "\n" && LinesFrom("", "\n") == [""] + LinesFrom("", "\n"[1..]);
    } else if s[0] == CR && whole[1] == LF {
      if |s| == 1 {
        assert whole[2..] == "\n" && LinesFrom("", "\n") == [""] + LinesFrom("", "\n"[1..]);
      } else {
        assert whole[2..] == s[2..] + "\n\n";
        EndsBlank("", s[2..]);
      }
    } else {
      assert whole[1..] == s[1..] + "\n\n";
      EndsBlank(if s[0] == CR || s[0] == LF then "" else line + [s[0]], s[1..]);
    }
  }

  /** The heartbeat without its two line ends. */
  function BeatText(comment: string): string {
    var trimmed := TrimSpace(comment);
    if trimmed == "" then ": ping" else if ":" <= trimmed then trimmed else ": " + trimmed
  }

  lemma BeatLines(comment: string)
    ensures HeartbeatBytes(comment) == BeatText(comment) + "\n\n"
    ensures var lines := Lines(HeartbeatBytes(comment)); lines != [] && lines[|lines| - 1] == ""
  {
    EndsBlank("", BeatText(comment));
  }

  /** Between events, lines that are not loud leave no trace but an event type, and a last
      blank line clears that. */
  lemma {:induction false} QuietLines(r: Reader, lines: seq<string>)
    requires r.data == "" && forall line :: line in lines ==> !Loud(line)
    ensures var r' := Process(r, lines);
      && r' == r.(eventType := r'.eventType)
      && (lines != [] && lines[|lines| - 1] == "" ==> r'.eventType == "")
    decreases |lines|
  {
    if lines == [] {
    } else {
      var next := ProcessLine(r, lines[0]);
      assert lines[0] in lines && next == r.(eventType := next.eventType);
      QuietLines(next, lines[1..]);
      assert lines[1..] != [] ==> lines[1..][|lines| - 2] == lines[|lines| - 1];
    }
  }

  lemma ReadBeat(r: Reader, item: Item, rest: string)
    requires r.data == "" && r.eventType == "" && Printable(item) && item.Beat?
    ensures Process(r, Lines(Bytes(item) + rest)) == Process(Read(r, item), Lines(rest))
  {
    var text := BeatText(item.comment);
    BeatLines(item.comment);
    assert Bytes(item) == text + "\n" + "\n" && Bytes(item) + rest == text + "\n" + "\n" + rest;
    LinesConcat("", text + "\n", rest);
    ProcessConcat(r, Lines(Bytes(item)), Lines(rest));
    QuietLines(r, Lines(Bytes(item)));
  }

  lemma {:induction false} ReadStream(r: Reader, items: seq<Item>)
    requires r.data == "" && r.eventType == "" && forall x :: x in items ==> Printable(x)
    ensures Process(r, Lines(Stream(items))) == ReadAll(r, items)
    decreases |items|
  {
    if items == [] {
    } else {
      var rest := Stream(items[1..]);
      assert Printable(items[0]);
      if items[0].Data? {
        ReadData(r, items[0], rest);
      } else {
        ReadBeat(r, items[0], rest);
      }
      ReadStream(Read(r, items[0]), items[1..]);
    }
  }

  lemma {:induction false} ReadAllMeans(r: Reader, items: seq<Item>)
    ensures ReadAll(r, items).events == r.events + Expected(items, r.id)
    decreases |items|
  {
    if items == [] {
    } else {
      ReadAllMeans(Read(r, items[0]), items[1..]);
    }
  }

  /** Whatever is printed is read back: exactly one event per data frame, in order, with the
      sanitized type, the sanitized id and the exact payload, and nothing for heartbeats. */
  lemma RoundTrip(items: seq<Item>)
    requires forall x :: x in items ==> Printable(x)
    ensures Parse(Stream(items)) == Expected(items, "")
  {
    ReadStream(START, items);
    ReadAllMeans(START, items);
    if items != [] {
      FirstChar(items[0]);
      assert Stream(items)[0] == Bytes(items[0])[0];
    }
  }

  lemma FirstChar(item: Item)
    ensures Bytes(item) != "" && Bytes(item)[0] in {'e', 'i', 'd', ':'}
  {
  }

  // ---- When a single frame is not read back ----

  /** The size of a list of lines with their line ends. */
  function Size(lines: seq<string>): nat {
    if lines == [] then 0 else |lines[0]| + 1 + Size(lines[1..])
  }

  lemma {:induction false} LinesSize(line: string, s: string)
    ensures Size(LinesFrom(line, s)) <= |line| + |s|
    decreases |s|
  {
    if s == "" {
    } else if s[0] == CR && |s| > 1 && s[1] == LF {
      LinesSize("", s[2..]);
    } else if s[0] == CR || s[0] == LF {
      LinesSize("", s[1..]);
    } else {
      LinesSize(line + [s[0]], s[1..]);
    }
  }

  predicate Terminated(data: string) {
    data == "" || data[|data| - 1] == LF
  }

  /** A line that is not blank leaves the data alone or adds four characters less than it is
      long with its line end. */
  lemma LineAdds(r: Reader, line: string)
    requires line != ""
    ensures var r' := ProcessLine(r, line);
      && r'.events == r.events
      && (r'.data == r.data || (|r'.data| <= |r.data| + |line| - 3 && r'.data[|r'.data| - 1] == LF))
  {
  }

  /** Events are only added. */
  lemma {:induction false} EventsGrow(r: Reader, lines: seq<string>)
    ensures r.events <= Process(r, lines).events
    decreases |lines|
  {
    if lines == [] {
    } else {
      if lines[0] != "" {
        LineAdds(r, lines[0]);
      }
      EventsGrow(ProcessLine(r, lines[0]), lines[1..]);
    }
  }

  /** The first event has exactly the data buffered so far, or what the lines add to it is
      smaller than the lines. */
  lemma {:induction false} FirstEventSize(r: Reader, lines: seq<string>)
    requires r.events == [] && r.data != "" && Terminated(r.data)
    ensures var events := Process(r, lines).events;
      events != [] ==> events[0].data + "\n" == r.data || |events[0].data| + 5 <= |r.data| + Size(lines)
    decreases |lines|
  {
    if lines == [] {
    } else {
      var r' := ProcessLine(r, lines[0]);
      if lines[0] == "" {
        EventsGrow(r', lines[1..]);
        assert r'.events[0].data + "\n" == r.data;
      } else {
        LineAdds(r, lines[0]);
        FirstEventSize(r', lines[1..]);
      }
    }
  }

  lemma ProcessBreak(r: Reader, line: string, rest: string)
    requires OneLine(line) && rest != "" && !OneLine(rest[..1])
    ensures Process(r, Lines(line + rest)) == Process(ProcessLine(r, line), Lines(AfterBreak(rest)))
  {
    LinesStep("", line, rest);
    assert "" + line == line;
    ProcessCons(r, line, Lines(AfterBreak(rest)));
  }

  /** The data line of a payload ends at its first line end. */
  lemma ReadBroken(r: Reader, head: string, rest: string)
    requires OneLine(head) && rest != "" && !OneLine(rest[..1])
    ensures Process(r, Lines("data: " + head + rest)) ==
      Process(r.(data := r.data + head + "\n"), Lines(AfterBreak(rest)))
  {
    ProcessBreak(r, "data: " + head, rest);
    DataBuffered(r, head);
  }

  lemma FirstEventShort(r: Reader, head: string, more: string, p: string)
    requires r.events == [] && r.data == head + "\n" && |head| < |p| && |more| <= |p| - |head| + 1
    ensures var events := Process(r, Lines(more)).events; events != [] ==> events[0].data != p
  {
    LinesSize("", more);
    FirstEventSize(r, Lines(more));
    var events := Process(r, Lines(more)).events;
    if events != [] && events[0].data + "\n" == r.data {
      assert |events[0].data| == |head|;
    }
  }

  /** A payload that is not on one line is not what the first event carries. */
  lemma BrokenPayload(r: Reader, p: string)
    requires r.data == "" && r.events == [] && !OneLine(p)
    ensures var events := Process(r, Lines("data: " + p + "\n\n")).events;
      events != [] ==> events[0].data != p
  {
    var k := FirstBreak(p);
    var rest := p[k..] + "\n\n";
    assert rest[..1] == p[k..k + 1];
    assert "data: " + p + "\n\n" == "data: " + p[..k] + rest by {
      assert p == p[..k] + p[k..];
    }
    ReadBroken(r, p[..k], rest);
    assert r.data + p[..k] + "\n" == p[..k] + "\n";
    FirstEventShort(r.(data := p[..k] + "\n"), p[..k], AfterBreak(rest), p);
  }

  /** The position of the first CR or LF. */
  function FirstBreak(s: string): (k: nat)
    requires !OneLine(s)
    ensures k < |s| && OneLine(s[..k]) && !OneLine(s[k..k + 1])
  {
    if s[0] == CR || s[0] == LF then 0
    else
      var k := 1 + FirstBreak(s[1..]);
      assert s[..k] == [s[0]] + s[1..][..k - 1];
      assert s[k..k + 1] == s[1..][k - 1..k];
      k
  }

  /** A header line that cannot be read back is an id with a NUL. */
  lemma ReadHeaders(t: string, id: string, tail: string)
    requires OneLine(t) && OneLine(id)
    ensures Process(START, Lines(Header("event", t) + (Header("id", id) + tail))) ==
      Process(Reader("", t, if '\0' in id then "" else id, []), Lines(tail))
  {
    HeaderLine(START, "event", t, Header("id", id) + tail);
    var r1 := START.(eventType := t);
    HeaderLine(r1, "id", id, tail);
  }

  /** A data frame is read back exactly when its payload is on one line and its sanitized id
      is free of NUL. */
  lemma DataFrameExact(t: string, i: string, p: string)
    ensures Parse(DataBytes(t, i, p)) == Expected([Data(t, i, p)], "") <==> OneLine(p) && '\0' !in SanitizeHeader(i)
  {
    var clean, id := SanitizeHeader(t), SanitizeHeader(i);
    SanitizeHeaderMeans(t);
    SanitizeHeaderMeans(i);
    FirstChar(Data(t, i, p));
    DataInParts(Header("event", clean), Header("id", id), p, "");
    var tail := "data: " + p + "\n" + ("" + "\n" + "");
    assert DataBytes(t, i, p) + "" == DataBytes(t, i, p);
    ReadHeaders(clean, id, tail);
    var r := Reader("", clean, if '\0' in id then "" else id, []);
    assert tail == "data: " + p + "\n\n";
    if OneLine(p) {
      ReadPayload(r, p, "");
      assert Parse(DataBytes(t, i, p)) == [Event(if clean == "" then "message" else clean, p, r.id)];
    } else {
      BrokenPayload(r, p);
    }
    assert [Data(t, i, p)][1..] == [];
    assert Expected([Data(t, i, p)], "") == [Event(if clean == "" then "message" else clean, p, id)];
  }

  /** A line of data before a blank line makes an event. */
  lemma {:induction false} DataMakesEvent(r: Reader, lines: seq<string>)
    requires r.data != "" || exists line :: line in lines && Field(line) == "data"
    requires lines != [] && lines[|lines| - 1] == ""
    ensures |Process(r, lines).events| > |r.events|
    decreases |lines|
  {
    var next, rest := ProcessLine(r, lines[0]), lines[1..];
    assert rest != [] ==> rest[|rest| - 1] == "";
    if lines[0] == "" && r.data != "" {
      EventsGrow(next, rest);
    } else {
      assert lines[0] != "" ==> next.events == r.events && (next.data != "" || next.data == r.data);
      assert forall line :: line in lines ==> line == lines[0] || line in rest;
      DataMakesEvent(next, rest);
    }
  }

  /** Without a line of data there is no event. */
  lemma {:induction false} NoDataNoEvent(r: Reader, lines: seq<string>)
    requires r.data == "" && forall line :: line in lines ==> Field(line) != "data"
    ensures Process(r, lines).events == r.events
    decreases |lines|
  {
    if lines == [] {
    } else {
      assert lines[0] in lines;
      NoDataNoEvent(ProcessLine(r, lines[0]), lines[1..]);
    }
  }

  lemma ParseBeat(comment: string)
    ensures Parse(HeartbeatBytes(comment)) == Process(START, Lines(HeartbeatBytes(comment))).events
  {
    FirstChar(Beat(comment));
  }

  /** A heartbeat carries no event exactly when none of its lines is a line of data. */
  lemma HeartbeatEventFreeExactly(comment: string)
    ensures Parse(HeartbeatBytes(comment)) == [] <==>
      forall line :: line in Lines(HeartbeatBytes(comment)) ==> Field(line) != "data"
  {
    var lines := Lines(HeartbeatBytes(comment));
    BeatLines(comment);
    ParseBeat(comment);
    if forall line :: line in lines ==> Field(line) != "data" {
      NoDataNoEvent(START, lines);
    } else {
      DataMakesEvent(START, lines);
    }
  }

  /** The id buffer after some lines. */
  function LastId(lines: seq<string>, id: string): string
    decreases |lines|
  {
    if lines == [] then id
    else LastId(lines[1..], if Field(lines[0]) == "id" && '\0' !in Value(lines[0]) then Value(lines[0]) else id)
  }

  lemma {:induction false} IdAfter(r: Reader, lines: seq<string>)
    ensures Process(r, lines).id == LastId(lines, r.id)
    decreases |lines|
  {
    if lines == [] {
    } else {
      IdAfter(ProcessLine(r, lines[0]), lines[1..]);
    }
  }

  lemma {:induction false} IdForgotten(lines: seq<string>, x: string, y: string)
    requires exists line :: line in lines && Field(line) == "id" && '\0' !in Value(line)
    ensures LastId(lines, x) == LastId(lines, y)
    decreases |lines|
  {
    if Field(lines[0]) == "id" && '\0' !in Value(lines[0]) {
    } else {
      assert forall line :: line in lines ==> line == lines[0] || line in lines[1..];
      IdForgotten(lines[1..], x, y);
    }
  }

  /** A heartbeat leaves every reader that is between events as it was exactly when none of its
      lines is a line of data or an id that is free of NUL. */
  lemma HeartbeatSilentExactly(comment: string)
    ensures (forall r: Reader | r.data == "" && r.eventType == "" :: Process(r, Lines(HeartbeatBytes(comment))) == r)
            <==> Silent(comment)
  {
    var lines := Lines(HeartbeatBytes(comment));
    BeatLines(comment);
    if Silent(comment) {
      forall r: Reader | r.data == "" && r.eventType == "" ensures Process(r, lines) == r {
        QuietLines(r, lines);
      }
    } else if exists line :: line in lines && Field(line) == "data" {
      DataMakesEvent(START, lines);
      assert Process(START, lines) != START;
    } else {
      var r := START.(id := LastId(lines, "") + "x");
      IdAfter(r, lines);
      IdForgotten(lines, r.id, "");
      assert Process(r, lines) != r;
    }
  }

  /** A comment on one line is silent. */
  lemma OneLineIsSilent(comment: string)
    requires OneLine(TrimSpace(comment))
    ensures Silent(comment)
  {
    var text := BeatText(comment);
    BeatLines(comment);
    assert HeartbeatBytes(comment) == text + "\n" + ("" + "\n" + "");
    NextLine(text, "" + "\n" + "");
    NextLine("", "");
    assert text[0] == ':' && Field(text) == "";
    assert Lines(HeartbeatBytes(comment)) == [text, ""];
  }

  /** A comment is not sanitized inside: one that is not on one line can carry an event. */
  lemma CommentCarriesEvent()
    ensures Parse(HeartbeatBytes("x\ndata: y")) == [Event("message", "y", "")]
  {
    var c := "x\ndata: y";
    assert !IsSpace(c[0]) && !IsSpace(c[|c| - 1]);
    assert TrimSpace(c) == c;
    var rest := "data: " + "y" + "\n" + ("" + "\n" + "");
    assert HeartbeatBytes(c) == ": x" + "\n" + rest;
    ProcessNext(START, ": x", rest);
    ReadPayload(START, "y", "");
  }
}
