/** Printing of event-stream frames. */
module Sse {
  import opened Text
  import opened ClientQueue

  const CR := '\r'
  const LF := '\n'

  /** White space as Go's unicode package defines it. */
  predicate IsSpace(c: char) {
    || '\t' <= c <= '\r' || c == ' ' || c == '\U{0085}' || c == '\U{00A0}'
    || c == '\U{1680}' || '\U{2000}' <= c <= '\U{200A}' || c == '\U{2028}' || c == '\U{2029}'
    || c == '\U{202F}' || c == '\U{205F}' || c == '\U{3000}'
  }

  function TrimLeft(s: string): string {
    if s != "" && IsSpace(s[0]) then TrimLeft(s[1..]) else s
  }

  function TrimRight(s: string): string {
    if s != "" && IsSpace(s[|s| - 1]) then TrimRight(s[..|s| - 1]) else s
  }

  function TrimSpace(s: string): string {
    TrimRight(TrimLeft(s))
  }

  function SanitizeHeader(s: string): string {
    if s == "" then "" else TrimSpace(ReplaceAll(ReplaceAll(s, [CR], ""), [LF], ""))
  }

  predicate OneLine(s: string) {
    CR !in s && LF !in s
  }

  /** A header line, or nothing for an empty value. */
  function Header(name: string, value: string): string {
    if value == "" then "" else name + ": " + value + "\n"
  }

  function DataBytes(eventType: string, eventID: string, payload: string): string {
    Header("event", SanitizeHeader(eventType)) + Header("id", SanitizeHeader(eventID)) + "data: " + payload + "\n\n"
  }

  /** Appends a header line piece by piece, or nothing for an empty value. */
  method WriteHeader(buf: string, name: string, value: string) returns (r: string)
    ensures r == buf + Header(name, value)
  {
    r := buf;
    if value != "" {
      r := r + (name + ": ");
      r := r + value;
      r := r + "\n";
    }
  }

  method NewDataFrame(eventType: string, eventID: string, payload: string) returns (frame: Frame)
    ensures frame == Frame(DataBytes(eventType, eventID, payload))
  {
    var cleanType := SanitizeHeader(eventType);
    var cleanID := SanitizeHeader(eventID);
    var buf := WriteHeader("", "event", cleanType);
    assert buf == Header("event", cleanType);
    buf := WriteHeader(buf, "id", cleanID);
    buf := buf + "data: ";
    buf := buf + payload;
    buf := buf + "\n\n";
    return Frame(buf);
  }

  function HeartbeatBytes(comment: string): string {
    var trimmed := TrimSpace(comment);
    if trimmed == "" then ": ping\n\n"
    else if ":" <= trimmed then trimmed + "\n\n"
    else ": " + trimmed + "\n\n"
  }

  // ---- Sanitization ----

  /** Trimming keeps a part of the string. */
  lemma {:induction false} TrimLeftPart(s: string)
    ensures exists i :: 0 <= i <= |s| && TrimLeft(s) == s[i..]
    ensures TrimLeft(s) != "" ==> !IsSpace(TrimLeft(s)[0])
  {
    if s != "" && IsSpace(s[0]) {
      TrimLeftPart(s[1..]);
      var i :| 0 <= i <= |s[1..]| && TrimLeft(s[1..]) == s[1..][i..];
      assert s[1..][i..] == s[i + 1..];
    } else {
      assert s == s[0..];
    }
  }

  lemma {:induction false} TrimRightPart(s: string)
    ensures exists i :: 0 <= i <= |s| && TrimRight(s) == s[..i]
    ensures TrimRight(s) != "" ==> !IsSpace(TrimRight(s)[|TrimRight(s)| - 1])
  {
    if s != "" && IsSpace(s[|s| - 1]) {
      TrimRightPart(s[..|s| - 1]);
      var i :| 0 <= i <= |s| - 1 && TrimRight(s[..|s| - 1]) == s[..|s| - 1][..i];
      assert s[..|s| - 1][..i] == s[..i];
    } else {
      assert s == s[..|s|];
    }
  }

  lemma TrimSpaceMeans(s: string)
    ensures forall c :: c in TrimSpace(s) ==> c in s
    ensures TrimSpace(s) != "" ==> !IsSpace(TrimSpace(s)[0]) && !IsSpace(TrimSpace(s)[|TrimSpace(s)| - 1])
  {
    TrimLeftPart(s);
    TrimRightPart(TrimLeft(s));
  }

  lemma {:induction false} RemoveMeans(s: string, ch: char)
    ensures forall c :: c in ReplaceAll(s, [ch], "") <==> c in s && c != ch
  {
    if s == "" {
    } else {
      RemoveMeans(s[1..], ch);
      assert s == [s[0]] + s[1..];
    }
  }

  /** A sanitized header is on one line and neither starts nor ends with white space. */
  lemma SanitizeHeaderMeans(s: string)
    ensures OneLine(SanitizeHeader(s))
    ensures SanitizeHeader(s) != "" ==> !IsSpace(SanitizeHeader(s)[0]) && !IsSpace(SanitizeHeader(s)[|SanitizeHeader(s)| - 1])
    ensures forall c :: c in SanitizeHeader(s) ==> c in s
  {
    RemoveMeans(s, CR);
    RemoveMeans(ReplaceAll(s, [CR], ""), LF);
    TrimSpaceMeans(ReplaceAll(ReplaceAll(s, [CR], ""), [LF], ""));
  }

  /** White space, by code point. */
  lemma IsSpaceExactly(c: char)
    ensures IsSpace(c) <==>
      var n := c as int;
      || n in {9, 10, 11, 12, 13, 32, 133, 160, 5760, 8232, 8233, 8239, 8287, 12288}
      || 8192 <= n <= 8202
  {
  }

  /** A string without its CR and LF. */
  function Stripped(s: string): string {
    if s == "" then "" else (if s[0] == CR || s[0] == LF then "" else [s[0]]) + Stripped(s[1..])
  }

  predicate AllSpace(s: string) {
    forall i :: 0 <= i < |s| ==> IsSpace(s[i])
  }

  lemma {:induction false} TrimLeftDrops(s: string) returns (left: string)
    ensures AllSpace(left) && s == left + TrimLeft(s)
  {
    if s == "" || !IsSpace(s[0]) {
      left := "";
    } else {
      left := TrimLeftDrops(s[1..]);
      left := [s[0]] + left;
    }
  }

  lemma {:induction false} TrimRightDrops(s: string) returns (right: string)
    ensures AllSpace(right) && s == TrimRight(s) + right
  {
    if s == "" || !IsSpace(s[|s| - 1]) {
      right := "";
    } else {
      right := TrimRightDrops(s[..|s| - 1]);
      right := right + [s[|s| - 1]];
    }
  }

  /** Trimming drops white space from the two ends, and nothing else. */
  lemma TrimSpaceDrops(s: string) returns (left: string, right: string)
    ensures AllSpace(left) && AllSpace(right) && s == left + TrimSpace(s) + right
  {
    left := TrimLeftDrops(s);
    right := TrimRightDrops(TrimLeft(s));
  }

  lemma {:induction false} RemoveBoth(s: string)
    ensures ReplaceAll(ReplaceAll(s, [CR], ""), [LF], "") == Stripped(s)
  {
    if s == "" {
    } else {
      RemoveBoth(s[1..]);
      var rest := ReplaceAll(s[1..], [CR], "");
      assert ReplaceAll(s, [CR], "") == if s[0] == CR then rest else [s[0]] + rest;
      assert ([s[0]] + rest)[1..] == rest;
    }
  }

  /** A sanitized header is what is left of the input without CR and LF, in order, after white
      space is dropped from the two ends; nothing else is lost. */
  lemma SanitizeHeaderDrops(s: string) returns (left: string, right: string)
    ensures AllSpace(left) && AllSpace(right) && Stripped(s) == left + SanitizeHeader(s) + right
  {
    RemoveBoth(s);
    left, right := TrimSpaceDrops(Stripped(s));
  }

  /** Neither starts nor ends with white space. */
  predicate Tight(s: string) {
    s != "" ==> !IsSpace(s[0]) && !IsSpace(s[|s| - 1])
  }

  lemma TrimTight(s: string)
    requires Tight(s)
    ensures TrimSpace(s) == s
  {
  }

  lemma {:induction false} StrippedOneLine(s: string)
    requires OneLine(s)
    ensures Stripped(s) == s
  {
    if s == "" {
    } else {
      StrippedOneLine(s[1..]);
    }
  }

  /** Exactly the headers that are on one line and tight are printed as they are. */
  lemma SanitizeHeaderKeeps(s: string)
    ensures SanitizeHeader(s) == s <==> OneLine(s) && Tight(s)
  {
    if OneLine(s) && Tight(s) {
      RemoveBoth(s);
      StrippedOneLine(s);
      TrimTight(s);
    } else {
      SanitizeHeaderMeans(s);
    }
  }

  /** A frame with a type and an id that need no cleaning, as it goes over the wire. */
  lemma FrameOnTheWire(t: string, i: string, p: string)
    requires t != "" && OneLine(t) && Tight(t) && i != "" && OneLine(i) && Tight(i)
    ensures DataBytes(t, i, p) == ("event: " + t + "\n") + ("id: " + i + "\n") + "data: " + p + "\n\n"
  {
    SanitizeHeaderKeeps(t);
    SanitizeHeaderKeeps(i);
    assert Header("event", t) == "event: " + t + "\n";
    assert Header("id", i) == "id: " + i + "\n";
  }

  lemma BareFrameOnTheWire(p: string)
    ensures DataBytes("", "", p) == "data: " + p + "\n\n"
  {
    assert "" + "" + "data: " == "data: ";
  }

  lemma HeartbeatOnTheWire()
    ensures HeartbeatBytes("") == ": ping\n\n"
    ensures HeartbeatBytes("keepalive") == ": keepalive\n\n"
    ensures HeartbeatBytes(": custom") == ": custom\n\n"
  {
    TrimTight("");
    TrimTight("keepalive");
    TrimTight(": custom");
  }
}
