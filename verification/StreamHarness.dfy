/** The line-by-line stream reader of the test harness, as a reader of the printed frames. */
module StreamHarness {
  import opened Sse
  import opened EventStream

  datatype Frame = Frame(event: string, id: string, data: string)

  const EMPTY := Frame("", "", "")

  function DropCR(line: string): string {
    if line != "" && line[|line| - 1] == CR then line[..|line| - 1] else line
  }

  /** The lines of a text: each ends with LF, one CR before it is dropped, and a last line
      without end counts unless it is empty. */
  function ScanLines(line: string, s: string): seq<string>
    decreases |s|
  {
    if s == "" then if line == "" then [] else [DropCR(line)]
    else if s[0] == LF then [DropCR(line)] + ScanLines("", s[1..])
    else ScanLines(line + [s[0]], s[1..])
  }

  /** What one line that is not blank does to the frame being read. */
  function Gather(current: Frame, line: string): Frame {
    if ":" <= line then current
    else if "event: " <= line then current.(event := line[7..])
    else if "id: " <= line then current.(id := line[4..])
    else if "data: " <= line then current.(data := line[6..])
    else current
  }

  /** The frames that the lines yield. */
  function Decoded(current: Frame, lines: seq<string>): seq<Frame>
    decreases |lines|
  {
    if lines == [] then []
    else if lines[0] == "" then (if current != EMPTY then [current] else []) + Decoded(EMPTY, lines[1..])
    else Decoded(Gather(current, lines[0]), lines[1..])
  }

  /** The frames that get into the channel, where `room(n)` tells whether it had room for the
      n-th of them; the others are dropped. */
  function Kept(frames: seq<Frame>, room: nat -> bool): seq<Frame> {
    if frames == [] then []
    else
      var n := |frames| - 1;
      Kept(frames[..n], room) + if room(n) then [frames[n]] else []
  }

  lemma KeptMore(frames: seq<Frame>, frame: Frame, room: nat -> bool)
    ensures Kept(frames + [frame], room) == Kept(frames, room) + if room(|frames|) then [frame] else []
  {
    assert (frames + [frame])[..|frames|] == frames;
  }

  lemma {:induction false} KeptAll(frames: seq<Frame>, room: nat -> bool)
    requires forall n: nat :: n < |frames| ==> room(n)
    ensures Kept(frames, room) == frames
  {
    if frames == [] {
    } else {
      KeptAll(frames[..|frames| - 1], room);
      assert frames == frames[..|frames| - 1] + [frames[|frames| - 1]];
    }
  }

  /** What one line contributes to the frames that the lines from `n` on yield. */
  lemma DecodedFrom(all: seq<Frame>, current: Frame, lines: seq<string>, n: nat)
    requires n < |lines|
    ensures var rest := lines[n + 1..];
      all + Decoded(current, lines[n..]) ==
        if lines[n] != "" then all + Decoded(Gather(current, lines[n]), rest)
        else if current != EMPTY then all + [current] + Decoded(EMPTY, rest)
        else all + Decoded(EMPTY, rest)
  {
    assert lines[n..][0] == lines[n] && lines[n..][1..] == lines[n + 1..];
  }

  method Decode(body: string, room: nat -> bool) returns (frames: seq<Frame>)
    ensures frames == Kept(Decoded(EMPTY, ScanLines("", body)), room)
  {
    var lines := ScanLines("", body);
    var current := EMPTY;
    frames := [];
    var sent := 0;
    ghost var all: seq<Frame> := [];
    var n := 0;
    while n < |lines|
      invariant 0 <= n <= |lines| && sent == |all| && frames == Kept(all, room)
      invariant all + Decoded(current, lines[n..]) == Decoded(EMPTY, lines)
    {
      var line := lines[n];
      DecodedFrom(all, current, lines, n);
      if line == "" {
        if current != EMPTY {
          if room(sent) {
            frames := frames + [current];
          }
          KeptMore(all, current, room);
          all := all + [current];
          sent := sent + 1;
        }
        current := EMPTY;
      } else {
        current := Gather(current, line);
      }
      n := n + 1;
    }
    assert lines[n..] == [] && all + [] == all;
  }

  // ---- Reading what was printed ----

  function FrameOf(item: Item): Frame
    requires item.Data?
  {
    Frame(SanitizeHeader(item.eventType), SanitizeHeader(item.eventID), item.payload)
  }

  /** The frames of the data items, but for those that are empty in all three fields. */
  function Visible(items: seq<Item>): seq<Frame> {
    if items == [] then []
    else (if items[0].Data? && FrameOf(items[0]) != EMPTY then [FrameOf(items[0])] else []) + Visible(items[1..])
  }

  /** The payload and the trimmed comment are on one line. */
  predicate Scannable(item: Item) {
    match item
    case Data(_, _, p) => OneLine(p)
    case Beat(c) => OneLine(TrimSpace(c))
  }

  lemma {:induction false} ScanStep(start: string, line: string, rest: string)
    requires OneLine(start) && OneLine(line)
    ensures ScanLines(start, line + "\n" + rest) == [start + line] + ScanLines("", rest)
    decreases |line|
  {
    var s := line + "\n" + rest;
    if line == "" {
      assert s[1..] == rest && start + line == start;
      assert DropCR(start) == start;
    } else {
      assert s[0] == line[0] && s[0] in line;
      assert s[1..] == line[1..] + "\n" + rest;
      ScanStep(start + [line[0]], line[1..], rest);
      assert start + [line[0]] + line[1..] == start + line;
    }
  }

  lemma DecodeLine(current: Frame, line: string, rest: string)
    requires OneLine(line) && line != ""
    ensures Decoded(current, ScanLines("", line + "\n" + rest)) == Decoded(Gather(current, line), ScanLines("", rest))
  {
    ScanStep("", line, rest);
    assert "" + line == line;
  }

  lemma DecodeBlank(current: Frame, rest: string)
    ensures Decoded(current, ScanLines("", "" + "\n" + rest)) ==
      (if current != EMPTY then [current] else []) + Decoded(EMPTY, ScanLines("", rest))
  {
  }

  lemma DecodeHeader(current: Frame, name: string, value: string, rest: string)
    requires name in {"event", "id"} && OneLine(value)
    ensures Decoded(current, ScanLines("", Header(name, value) + rest)) ==
      Decoded(if value == "" then current else Gather(current, name + ": " + value), ScanLines("", rest))
  {
    if value == "" {
      assert Header(name, value) + rest == rest;
    } else {
      assert Header(name, value) + rest == name + ": " + value + "\n" + rest;
      DecodeLine(current, name + ": " + value, rest);
    }
  }

  lemma GatherField(current: Frame, value: string)
    ensures Gather(current, "event" + ": " + value) == current.(event := value)
    ensures Gather(current, "id" + ": " + value) == current.(id := value)
    ensures Gather(current, "data" + ": " + value) == current.(data := value)
  {
    var e, i, d := "event" + ": " + value, "id" + ": " + value, "data" + ": " + value;
    assert e == "event: " + value && e[0] == 'e' && e[7..] == value;
    assert i == "id: " + value && i[0] == 'i' && i[4..] == value;
    assert d == "data: " + value && d[0] == 'd' && d[6..] == value;
    assert ":"[0] == ':' && "event: "[0] == 'e' && "id: "[0] == 'i';
  }

  lemma DecodePayload(current: Frame, p: string, rest: string)
    requires OneLine(p)
    ensures var frame := current.(data := p);
      Decoded(current, ScanLines("", "data: " + p + "\n" + ("" + "\n" + rest))) ==
        (if frame != EMPTY then [frame] else []) + Decoded(EMPTY, ScanLines("", rest))
  {
    assert "data" + ": " + p == "data: " + p;
    DecodeLine(current, "data: " + p, "" + "\n" + rest);
    GatherField(current, p);
    DecodeBlank(current.(data := p), rest);
  }

  lemma DecodeData(item: Item, rest: string)
    requires Scannable(item) && item.Data?
    ensures Decoded(EMPTY, ScanLines("", Bytes(item) + rest)) ==
      (if FrameOf(item) != EMPTY then [FrameOf(item)] else []) + Decoded(EMPTY, ScanLines("", rest))
  {
    var t, id, p := SanitizeHeader(item.eventType), SanitizeHeader(item.eventID), item.payload;
    SanitizeHeaderMeans(item.eventType);
    SanitizeHeaderMeans(item.eventID);
    var last := "" + "\n" + rest;
    var tail := "data: " + p + "\n" + last;
    DataInParts(Header("event", t), Header("id", id), p, rest);
    DecodeHeader(EMPTY, "event", t, Header("id", id) + tail);
    GatherField(EMPTY, t);
    var c1 := EMPTY.(event := t);
    DecodeHeader(c1, "id", id, tail);
    GatherField(c1, id);
    var c2 := c1.(id := id);
    DecodePayload(c2, p, rest);
  }

  lemma DecodeBeat(item: Item, rest: string)
    requires Scannable(item) && item.Beat?
    ensures Decoded(EMPTY, ScanLines("", Bytes(item) + rest)) == Decoded(EMPTY, ScanLines("", rest))
  {
    var trimmed := TrimSpace(item.comment);
    var line := if trimmed == "" then ": ping" else if ":" <= trimmed then trimmed else ": " + trimmed;
    assert Bytes(item) + rest == line + "\n" + ("" + "\n" + rest);
    DecodeLine(EMPTY, line, "" + "\n" + rest);
    DecodeBlank(EMPTY, rest);
  }

  /** The harness reads back every data frame, in order, with its three fields, except those
      whose fields are all empty; heartbeats leave no trace. */
  lemma {:induction false} HarnessReads(items: seq<Item>)
    requires forall x :: x in items ==> Scannable(x)
    ensures Decoded(EMPTY, ScanLines("", Stream(items))) == Visible(items)
  {
    if items == [] {
    } else {
      assert Scannable(items[0]);
      if items[0].Data? {
        DecodeData(items[0], Stream(items[1..]));
      } else {
        DecodeBeat(items[0], Stream(items[1..]));
      }
      HarnessReads(items[1..]);
    }
  }

  /** The harness sees as many frames as the standard's reader sees events exactly when no data
      frame is empty in all three fields. */
  lemma HarnessMissesEmptyFrames(items: seq<Item>)
    requires forall x :: x in items ==> Printable(x) && Scannable(x)
    ensures |Decoded(EMPTY, ScanLines("", Stream(items)))| == |Parse(Stream(items))| <==>
      forall x :: x in items && x.Data? ==> FrameOf(x) != EMPTY
  {
    HarnessReads(items);
    RoundTrip(items);
    VisibleCount(items, "");
  }

  lemma {:induction false} VisibleCount(items: seq<Item>, id: string)
    ensures |Visible(items)| <= |Expected(items, id)|
    ensures |Visible(items)| == |Expected(items, id)| <==> forall x :: x in items && x.Data? ==> FrameOf(x) != EMPTY
    decreases |items|
  {
    if items == [] {
    } else {
      var next := if items[0].Data? && SanitizeHeader(items[0].eventID) != "" then SanitizeHeader(items[0].eventID) else id;
      VisibleCount(items[1..], next);
      assert forall x :: x in items <==> x == items[0] || x in items[1..];
    }
  }
}
