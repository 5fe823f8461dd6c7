/**
 Server-sent events, upstream and downstream: the reader of a provider stream
 (internal/provider/openai.go) and the frames the router writes
 (internal/server/chat.go).  One data line per event, a subset of section 9.2 of
 the WHATWG HTML standard.  Bodies are sequences of characters: valid UTF-8 text.
 */
module Sse {
  import opened Prelude
  import opened Streaming

  const DONE := "[DONE]"
  const PREFIX := "data:"

  // ---------------------------------------------------------------- one line

  function TrimLeft(s: string): (r: string)
    ensures |r| <= |s| && (r != [] ==> !Space(r[0]))
    ensures r == s[|s| - |r|..]
  {
    if s != [] && Space(s[0]) then TrimLeft(s[1..]) else s
  }

  function TrimRight(s: string): (r: string)
    ensures r <= s && (r != [] ==> !Space(r[|r| - 1]))
    ensures forall i :: |r| <= i < |s| ==> Space(s[i])
  {
    if s != [] && Space(s[|s| - 1]) then TrimRight(s[..|s| - 1]) else s
  }

  function Trim(s: string): string { TrimRight(TrimLeft(s)) }

  /** Text that stays as it is on a line of its own. */
  predicate Tidy(p: string) { p != [] && !Space(p[0]) && !Space(p[|p| - 1]) && '\n' !in p }

  /** A payload that is not the end mark. */
  predicate Clean(p: string) { Tidy(p) && p != DONE }

  /** The usage that a payload carries, as the JSON reader finds it. */
  type UsageReader = string -> (int, int)

  function ParseLine(text: string, usage: UsageReader): Option<Chunk> {
    var line := Trim(text);
    if !(PREFIX <= line) then None
    else
      var payload := Trim(line[|PREFIX|..]);
      if payload == DONE then Some(Chunk("", true, None, 0, 0))
      else if payload == "" then None
      else Some(Chunk(payload, false, None, usage(payload).0, usage(payload).1))
  }

  // ---------------------------------------------------------------- the reader

  const BROKEN := Chunk("", false, Some(Interrupted), 0, 0)

  /** Length of the first line, its line feed included; the whole text when there is none. */
  function LineEnd(text: string): (n: nat)
    ensures n <= |text| && (text != [] ==> n > 0)
    ensures forall i :: 0 <= i < n - 1 ==> text[i] != '\n'
    ensures n < |text| ==> n > 0 && text[n - 1] == '\n'
  {
    if text == [] then 0 else if text[0] == '\n' then 1 else 1 + LineEnd(text[1..])
  }

  /** Everything the reader sends for a body that ends or breaks off after `text`. */
  function Sent(text: string, usage: UsageReader): (cs: seq<Chunk>)
    ensures cs != []
    decreases |text|
  {
    if text == [] then [BROKEN]
    else
      var n := LineEnd(text);
      match ParseLine(text[..n], usage)
      case None => Sent(text[n..], usage)
      case Some(chunk) => if chunk.done then [chunk] else [chunk] + Sent(text[n..], usage)
  }

  /**
   The read loop.  `accepts` is how many sends succeed before the context is
   cancelled; the chunks sent are the first that many of those the text stands for.
   A body may end without a line feed; end of file and a read error look the same.
   */
  method ReadStream(text: string, usage: UsageReader, accepts: nat) returns (chunks: seq<Chunk>)
    ensures chunks == Upto(Sent(text, usage), accepts)
  {
    hide Sent, ParseLine, Upto;
    chunks := [];
    var rest := text;
    while true
      invariant |chunks| <= accepts && Sent(text, usage) == chunks + Sent(rest, usage)
      decreases |rest|
    {
      var n := LineEnd(rest);
      var line := rest[..n];
      SentStep(rest, usage);
      UptoStops(chunks, Sent(rest, usage), accepts);
      if |line| == 0 {
        if |chunks| < accepts {
          chunks := chunks + [BROKEN];
        }
        return;
      }
      var parsed := ParseLine(line, usage);
      if parsed.Some? {
        if |chunks| == accepts {
          return;
        }
        chunks := chunks + [parsed.value];
        if parsed.value.done {
          return;
        }
      }
      rest := rest[n..];
    }
  }

  function Upto(cs: seq<Chunk>, n: nat): seq<Chunk> { if n < |cs| then cs[..n] else cs }

  lemma UptoStops(sent: seq<Chunk>, left: seq<Chunk>, n: nat)
    requires |sent| <= n && left != []
    ensures |sent| == n ==> Upto(sent + left, n) == sent
    ensures |sent| < n && |left| == 1 ==> Upto(sent + left, n) == sent + left
  {
  }

  lemma SentStep(text: string, usage: UsageReader)
    ensures text == [] ==> Sent(text, usage) == [BROKEN]
    ensures text != [] ==>
              var n := LineEnd(text);
              var parsed := ParseLine(text[..n], usage);
              Sent(text, usage) == if parsed.None? then Sent(text[n..], usage)
                                   else if parsed.value.done then [parsed.value]
                                   else [parsed.value] + Sent(text[n..], usage)
  {
  }

  /** A chunk that the relay passes on as it is. */
  predicate Relayable(c: Chunk, usage: UsageReader) {
    !c.done && c.err.None? && Clean(c.data) && (c.inputTokens, c.outputTokens) == usage(c.data)
  }

  predicate Ending(c: Chunk) { c == BROKEN || c == Chunk("", true, None, 0, 0) }

  /** For any text the reader sends data chunks and then exactly one chunk that ends the stream. */
  lemma {:induction false} OneTerminalChunk(text: string, usage: UsageReader)
    ensures var cs := Sent(text, usage);
            Ending(cs[|cs| - 1]) && forall i :: 0 <= i < |cs| - 1 ==> Relayable(cs[i], usage)
    decreases |text|
  {
    hide Sent, ParseLine, Relayable;
    SentStep(text, usage);
    if text != [] {
      var n := LineEnd(text);
      OneTerminalChunk(text[n..], usage);
      ParsedLine(text[..n], usage);
    }
  }

  lemma TrimLaws(s: string)
    ensures var t := Trim(s);
            && (t != [] ==> !Space(t[0]) && !Space(t[|t| - 1]))
            && forall c :: c in t ==> c in s
  {
    var l := TrimLeft(s);
    var t := TrimRight(l);
    if t != [] {
      assert t[0] == l[0];
    }
    assert forall c :: c in t ==> c in l;
  }

  /** A line stands for nothing, for the end of the stream, or for a chunk that can be relayed. */
  lemma ParsedLine(line: string, usage: UsageReader)
    requires forall i :: 0 <= i < |line| - 1 ==> line[i] != '\n'
    ensures var r := ParseLine(line, usage);
            r.Some? ==> if r.value.done then Ending(r.value) else Relayable(r.value, usage)
  {
    var t := Trim(line);
    TrimNoFeed(line);
    if PREFIX <= t {
      TrimLaws(t[|PREFIX|..]);
    }
  }

  /** A line feed at the end of a line is trimmed away. */
  lemma TrimNoFeed(line: string)
    requires forall i :: 0 <= i < |line| - 1 ==> line[i] != '\n'
    ensures '\n' !in Trim(line)
  {
    var l := TrimLeft(line);
    var t := TrimRight(l);
    assert forall i :: 0 <= i < |l| - 1 ==> l[i] != '\n';
    if t == l && t != [] {
      assert Space('\n');
    }
  }

  // ---------------------------------------------------------------- the writer

  function Frame(payload: string): string { "data: " + payload + "\n\n" }

  /** The bytes of what the handler writes; `errorBody` renders an interruption. */
  function Bytes(ws: seq<Write>, errorBody: ProviderError -> string): string {
    if ws == [] then []
    else
      (match ws[0]
       case Data(payload) => Frame(payload)
       case DoneMark => Frame(DONE)
       case ErrorMark(e) => "event: error\n" + Frame(errorBody(e))
       case JsonError(_, _) => errorBody(OtherError)
       case StreamHeader(_) => [])
      + Bytes(ws[1..], errorBody)
  }

  lemma TrimLeftKeeps(s: string)
    requires s == [] || !Space(s[0])
    ensures TrimLeft(s) == s
  {
  }

  lemma TrimSurrounded(p: string)
    requires p != [] && !Space(p[0]) && !Space(p[|p| - 1])
    ensures Trim(" " + p) == p && Trim(p) == p && Trim(p + "\n") == p
  {
    assert (" " + p)[1..] == p && Space(' ');
    TrimLeftKeeps(p);
    TrimLeftKeeps(p + "\n");
    assert (p + "\n")[..|p|] == p && Space('\n');
  }

  function ChunkOf(p: string, usage: UsageReader): Chunk {
    if p == DONE then Chunk("", true, None, 0, 0) else Chunk(p, false, None, usage(p).0, usage(p).1)
  }

  lemma DoneIsTidy()
    ensures Tidy(DONE)
  {
  }

  lemma BlankLineParses(usage: UsageReader)
    ensures ParseLine("\n", usage) == None
  {
    assert "\n"[1..] == [] && Space('\n');
    assert TrimLeft("\n") == [];
  }

  lemma DataLineTrims(p: string)
    requires Tidy(p)
    ensures Trim("data: " + p + "\n") == "data: " + p
  {
    var line := "data: " + p;
    assert line[0] == 'd' && line[|line| - 1] == p[|p| - 1];
    TrimSurrounded(line);
  }

  lemma DataLineSplits(p: string)
    ensures PREFIX <= "data: " + p && ("data: " + p)[|PREFIX|..] == " " + p
  {
  }

  /** A frame's data line parses to the chunk of its payload. */
  lemma FrameParses(p: string, usage: UsageReader)
    requires Tidy(p)
    ensures ParseLine("data: " + p + "\n", usage) == Some(ChunkOf(p, usage))
  {
    DataLineTrims(p);
    DataLineSplits(p);
    TrimSurrounded(p);
    ParsedPayload("data: " + p + "\n", "data: " + p, " " + p, p, usage);
  }

  lemma ParsedPayload(text: string, line: string, field: string, p: string, usage: UsageReader)
    requires Trim(text) == line && PREFIX <= line && line[|PREFIX|..] == field && Trim(field) == p && p != []
    ensures ParseLine(text, usage) == Some(ChunkOf(p, usage))
  {
    hide Trim;
  }

  lemma {:induction false} LineEndAt(text: string, n: nat)
    requires 0 < n <= |text| && text[n - 1] == '\n' && forall i :: 0 <= i < n - 1 ==> text[i] != '\n'
    ensures LineEnd(text) == n
  {
    if n > 1 {
      LineEndAt(text[1..], n - 1);
    }
  }

  /** Reading a first line and what follows it. */
  lemma SentLine(line: string, rest: string, usage: UsageReader)
    requires line != [] && line[|line| - 1] == '\n' && forall i :: 0 <= i < |line| - 1 ==> line[i] != '\n'
    ensures var parsed := ParseLine(line, usage);
            Sent(line + rest, usage) == if parsed.None? then Sent(rest, usage)
                                        else if parsed.value.done then [parsed.value]
                                        else [parsed.value] + Sent(rest, usage)
  {
    hide ParseLine, Sent;
    var text := line + rest;
    LineEndAt(text, |line|);
    assert text[..|line|] == line && text[|line|..] == rest;
    SentStep(text, usage);
  }

  lemma OneLine(p: string)
    requires Tidy(p)
    ensures var line := "data: " + p + "\n";
            line[|line| - 1] == '\n' && forall i :: 0 <= i < |line| - 1 ==> line[i] != '\n'
  {
    var line := "data: " + p + "\n";
    forall i | 0 <= i < |line| - 1
      ensures line[i] != '\n'
    {
      if i >= 6 {
        assert line[i] == p[i - 6];
      } else {
        assert line[i] == "data: "[i];
      }
    }
  }

  lemma FrameSplits(p: string, rest: string)
    ensures Frame(p) + rest == ("data: " + p + "\n") + ("\n" + rest)
  {
  }

  /** Reading a frame and what follows it. */
  lemma SentFrame(p: string, rest: string, usage: UsageReader)
    requires Tidy(p)
    ensures Sent(Frame(p) + rest, usage) ==
            if p == DONE then [ChunkOf(p, usage)] else [ChunkOf(p, usage)] + Sent(rest, usage)
  {
    hide ParseLine, Sent, Tidy, Frame;
    OneLine(p);
    FrameParses(p, usage);
    BlankLineParses(usage);
    FrameSplits(p, rest);
    SentLine("data: " + p + "\n", "\n" + rest, usage);
    SentLine("\n", rest, usage);
  }

  lemma BytesStep(w: Write, ws: seq<Write>, errorBody: ProviderError -> string)
    ensures w.Data? ==> Bytes([w] + ws, errorBody) == Frame(w.payload) + Bytes(ws, errorBody)
    ensures w.DoneMark? ==> Bytes([w] + ws, errorBody) == Frame(DONE) + Bytes(ws, errorBody)
    ensures w.StreamHeader? ==> Bytes([w] + ws, errorBody) == Bytes(ws, errorBody)
  {
    assert ([w] + ws)[1..] == ws;
  }

  /** What the relay writes for chunks that end with a normal end of stream. */
  lemma {:induction false} RelayedReads(chunks: seq<Chunk>, usage: UsageReader, errorBody: ProviderError -> string)
    requires chunks != [] && chunks[|chunks| - 1] == Chunk("", true, None, 0, 0)
    requires forall i :: 0 <= i < |chunks| - 1 ==> Relayable(chunks[i], usage)
    ensures Sent(Bytes(Shown(chunks), errorBody), usage) == chunks
  {
    hide Sent, Bytes, Tidy, Frame;
    DoneIsTidy();
    var tail := chunks[1..];
    if |chunks| == 1 {
      assert tail == [] && Shown(tail) == [];
      BytesStep(DoneMark, [], errorBody);
      SentFrame(DONE, Bytes([], errorBody), usage);
    } else {
      assert Relayable(chunks[0], usage);
      RelayedReads(tail, usage, errorBody);
      BytesStep(Data(chunks[0].data), Shown(tail), errorBody);
      SentFrame(chunks[0].data, Bytes(Shown(tail), errorBody), usage);
      assert chunks == [chunks[0]] + tail;
    }
  }

  /** Payload frames and the end mark, from the front. */
  function Shown(chunks: seq<Chunk>): seq<Write> {
    if chunks == [] then []
    else (if chunks[0].done then [DoneMark] else [Data(chunks[0].data)]) + Shown(chunks[1..])
  }

  lemma {:induction false} PayloadsFromFront(chunks: seq<Chunk>)
    requires forall i :: 0 <= i < |chunks| ==> !chunks[i].done && chunks[i].data != ""
    ensures Payloads(chunks) == Shown(chunks)
  {
    if chunks != [] {
      var front, last := chunks[..|chunks| - 1], chunks[|chunks| - 1];
      PayloadsFromFront(front);
      ShownSnoc(front, last);
      assert chunks == front + [last];
    }
  }

  lemma {:induction false} ShownSnoc(front: seq<Chunk>, last: Chunk)
    ensures Shown(front + [last]) == Shown(front) + if last.done then [DoneMark] else [Data(last.data)]
  {
    if front != [] {
      ShownSnoc(front[1..], last);
      assert (front + [last])[1..] == front[1..] + [last];
    }
  }

  /**
   The relay is transparent.  If an upstream body comes to its normal end and the
   router relays the chunks it read, then whoever reads the router's bytes the
   same way gets exactly the same chunks.
   */
  lemma RelayRoundTrip(c: Candidate, text: string, usage: UsageReader, errorBody: ProviderError -> string)
    requires var cs := Sent(text, usage); cs[|cs| - 1].done
    ensures var cs := Sent(text, usage);
            var s := Streams(cs[0], cs[1..]);
            Serves(s) && Sent(Bytes(StreamOf(c, s), errorBody), usage) == cs
  {
    hide Sent, Bytes, Clean;
    var cs := Sent(text, usage);
    OneTerminalChunk(text, usage);
    var n := |cs| - 1;
    var s := Streams(cs[0], cs[1..]);
    assert AllChunks(s) == cs && cs == cs[..n] + [cs[n]];
    assert Relayable(cs[0], usage) || n == 0;
    StreamShown(c, s, cs, n, usage);
    BytesStep(StreamHeader(c.modelId), Shown(cs), errorBody);
    RelayedReads(cs, usage, errorBody);
  }

  lemma RelayablePayloads(cs: seq<Chunk>, usage: UsageReader)
    requires forall i :: 0 <= i < |cs| ==> Relayable(cs[i], usage)
    ensures forall i :: 0 <= i < |cs| ==> !cs[i].done && cs[i].data != "" && !Terminal(cs[i])
  {
  }

  lemma StreamShown(c: Candidate, s: Script, cs: seq<Chunk>, n: nat, usage: UsageReader)
    requires Serves(s) && AllChunks(s) == cs && n == |cs| - 1 && cs[n] == Chunk("", true, None, 0, 0)
    requires forall i :: 0 <= i < n ==> Relayable(cs[i], usage)
    ensures StreamOf(c, s) == [StreamHeader(c.modelId)] + Shown(cs)
  {
    hide Relayable, Payloads, Shown, EndOf;
    var front := cs[..n];
    RelayablePayloads(front, usage);
    assert forall i :: 0 <= i < n ==> cs[i] == front[i];
    assert EndOf(cs) == n;
    PayloadsFromFront(front);
    ShownSnoc(front, cs[n]);
    assert cs == front + [cs[n]];
  }

  // ---------------------------------------------------------------- spelt out

  /** What goes over the wire for a payload, and for the end of a stream. */
  lemma FramesSpelled(p: string, errorBody: ProviderError -> string, e: ProviderError)
    ensures Bytes([Data(p)], errorBody) == "data: " + p + "\n\n"
    ensures Bytes([DoneMark], errorBody) == "data: [DONE]\n\n"
    ensures Bytes([ErrorMark(e)], errorBody) == "event: error\ndata: " + errorBody(e) + "\n\n"
    ensures Bytes([StreamHeader(p)], errorBody) == ""
  {
    assert [Data(p)][1..] == [] && [DoneMark][1..] == [] && [ErrorMark(e)][1..] == [] && [StreamHeader(p)][1..] == [];
    assert "event: error\n" + ("data: " + errorBody(e) + "\n\n") == "event: error\ndata: " + errorBody(e) + "\n\n";
  }

  /**
   A data line, with or without the blank, stands for its payload; the end mark for the end;
   other lines for nothing.
   */
  lemma LinesSpelled(p: string, usage: UsageReader)
    requires p != [] && !Space(p[0]) && !Space(p[|p| - 1])
    ensures p != "[DONE]" ==> ParseLine("data: " + p, usage) == Some(Chunk(p, false, None, usage(p).0, usage(p).1))
    ensures ParseLine("data: [DONE]\n", usage) == Some(Chunk("", true, None, 0, 0))
    ensures ParseLine("data:\n", usage) == None && ParseLine(": comment\n", usage) == None
    ensures !("data:" <= p) ==> ParseLine(p, usage) == None
  {
    hide TrimLeft, TrimRight, Trim;
    ParsesData(p, usage);
    DoneIsTidy();
    ParsesData("[DONE]", usage);
    ParsesDone(usage);
    TrimSurrounded(p);
    ParsesOther(p, usage);
  }

  lemma ParsesData(p: string, usage: UsageReader)
    requires p != [] && !Space(p[0]) && !Space(p[|p| - 1])
    ensures ParseLine("data: " + p, usage) ==
            Some(if p == "[DONE]" then Chunk("", true, None, 0, 0) else Chunk(p, false, None, usage(p).0, usage(p).1))
  {
    var line := "data: " + p;
    assert line[0] == 'd' && line[|line| - 1] == p[|p| - 1];
    TrimKept(line);
    assert line[5..] == " " + p && "data:" <= line;
    TrimBlank(p);
  }

  lemma TrimKept(s: string)
    requires s != [] && !Space(s[0]) && !Space(s[|s| - 1])
    ensures Trim(s) == s
  {
  }

  lemma TrimBlank(p: string)
    requires p != [] && !Space(p[0]) && !Space(p[|p| - 1])
    ensures Trim(" " + p) == p
  {
    assert (" " + p)[1..] == p;
    TrimKept(p);
  }

  lemma ParsesOther(p: string, usage: UsageReader)
    requires p != [] && !Space(p[0]) && !Space(p[|p| - 1])
    ensures !("data:" <= p) ==> ParseLine(p, usage) == None
    ensures ParseLine("data:\n", usage) == None && ParseLine(": comment\n", usage) == None
  {
    hide TrimLeft, TrimRight, Trim;
    TrimKept(p);
    ParsesBare(usage);
    ParsesComment(usage);
  }

  lemma ParsesBare(usage: UsageReader)
    ensures ParseLine("data:\n", usage) == None
  {
    TrimFeed("data:");
    TrimNothing();
    hide TrimLeft, TrimRight, Trim;
    assert "data:\n" == "data:" + "\n" && "data:"[5..] == "";
  }

  lemma TrimNothing()
    ensures Trim("") == ""
  {
  }

  lemma ParsesComment(usage: UsageReader)
    ensures ParseLine(": comment\n", usage) == None
  {
    TrimFeed(": comment");
    hide TrimLeft, TrimRight, Trim;
    assert ": comment\n" == ": comment" + "\n" && "data:"[0] != ": comment"[0];
  }

  lemma TrimFeed(p: string)
    requires p != [] && !Space(p[0]) && !Space(p[|p| - 1])
    ensures Trim(p + "\n") == p
  {
    var line := p + "\n";
    assert TrimLeft(line) == line && line[..|line| - 1] == p;
    TrimKept(p);
  }

  lemma ParsesDone(usage: UsageReader)
    ensures ParseLine("data: [DONE]\n", usage) == Some(Chunk("", true, None, 0, 0))
  {
    DoneIsTidy();
    hide TrimLeft, TrimRight, Trim, Space;
    FrameParses("[DONE]", usage);
    assert "data: " + "[DONE]" + "\n" == "data: [DONE]\n";
  }

  /** A body that ends or breaks off without end mark counts as interrupted. */
  lemma BrokenSpelled(usage: UsageReader)
    ensures Sent("", usage) == [Chunk("", false, Some(Interrupted), 0, 0)]
  {
  }
}
