/**
 Streaming translation: an incremental splitter of server-sent events on blank lines, and the
 translation of OpenAI chunks into the Claude event protocol, on the path without a tail buffer.
 */
module Streaming {
  import opened Options

  // ---------------------------------------------------------------- splitting on blank lines

  const BLANK := "\n\n"

  /** The position of the first blank line. */
  function FirstBlank(s: string): (at: Option<nat>)
    ensures at.Some? ==> at.value + 2 <= |s| && s[at.value..at.value + 2] == BLANK
  {
    if |s| < 2 then None
    else if s[0] == '\n' && s[1] == '\n' then Some(0)
    else
      match FirstBlank(s[1..])
      case None => None
      case Some(i) =>
        assert s[1..][i..i + 2] == s[i + 1..i + 3];
        Some(i + 1)
  }

  /** No blank line at all, or the first one. */
  lemma {:induction false} FirstBlankMeans(s: string, i: nat)
    ensures FirstBlank(s).None? && i + 1 < |s| ==> !(s[i] == '\n' && s[i + 1] == '\n')
    ensures FirstBlank(s).Some? && i < FirstBlank(s).value ==> !(s[i] == '\n' && s[i + 1] == '\n')
    ensures FirstBlank(s).Some? ==> var at := FirstBlank(s).value; at + 1 < |s| && s[at] == '\n' && s[at + 1] == '\n'
    decreases s
  {
    if |s| >= 2 {
      FirstBlankMeans(s[1..], if i > 0 then i - 1 else 0);
    }
  }

  /** The split function: how much of the buffer to drop, and a token if one is complete. */
  function SplitSSE(data: string, atEOF: bool): (nat, Option<string>) {
    if atEOF && |data| == 0 then (0, None)
    else
      match FirstBlank(data)
      case Some(i) => (i + 2, Some(data[..i]))
      case None => if atEOF then (|data|, Some(data)) else (0, None)
  }

  /** What splitting the whole stream at once gives. */
  function Tokens(s: string): seq<string>
    decreases |s|
  {
    match FirstBlank(s)
    case Some(i) => [s[..i]] + Tokens(s[i + 2..])
    case None => if s == "" then [] else [s]
  }

  function Flat(parts: seq<string>): string { if parts == [] then "" else parts[0] + Flat(parts[1..]) }

  lemma {:induction false} FirstBlankStays(s: string, more: string)
    requires FirstBlank(s).Some?
    ensures FirstBlank(s + more) == FirstBlank(s)
  {
    if !(s[0] == '\n' && s[1] == '\n') {
      assert (s + more)[1..] == s[1..] + more;
      FirstBlankStays(s[1..], more);
    }
  }

  /** A token that is complete in the buffer is a token of the whole stream, however the stream goes on. */
  lemma TokensHead(buf: string, more: string)
    requires FirstBlank(buf).Some?
    ensures var i := FirstBlank(buf).value; Tokens(buf + more) == [buf[..i]] + Tokens(buf[i + 2..] + more)
  {
    FirstBlankStays(buf, more);
    var i := FirstBlank(buf).value;
    assert (buf + more)[..i] == buf[..i] && (buf + more)[i + 2..] == buf[i + 2..] + more;
  }

  /** One answer of the split function; at the end of the stream nothing more follows the buffer. */
  lemma SplitStep(tokens: seq<string>, buf: string, more: string, atEOF: bool)
    requires atEOF ==> more == ""
    ensures var (advance, token) := SplitSSE(buf, atEOF);
            && (token.Some? ==> 0 < advance <= |buf|)
            && (token.Some? ==> tokens + Tokens(buf + more) == tokens + [token.value] + Tokens(buf[advance..] + more))
            && (token.None? && atEOF ==> tokens + Tokens(buf + more) == tokens)
  {
    hide FirstBlank, Tokens;
    NoTokens();
    match FirstBlank(buf) {
      case Some(i) =>
        TokensHead(buf, more);
        assert tokens + ([buf[..i]] + Tokens(buf[i + 2..] + more)) == tokens + [buf[..i]] + Tokens(buf[i + 2..] + more);
      case None =>
        if atEOF {
          assert buf + more == buf && buf[|buf|..] + more == "";
          TokensOf(buf);
          assert tokens + [buf] + [] == tokens + [buf];
        }
    }
  }

  lemma NoTokens()
    ensures Tokens("") == []
  {}

  lemma FlatStep(buf: string, chunks: seq<string>, read: nat)
    requires read <= |chunks|
    ensures read < |chunks| ==> buf + Flat(chunks[read..]) == buf + chunks[read] + Flat(chunks[read + 1..])
    ensures read == |chunks| ==> Flat(chunks[read..]) == ""
  {
    if read < |chunks| {
      assert chunks[read..][1..] == chunks[read + 1..];
    }
  }

  /** The scanner: asks the split function whenever it has data or the end, and reads on when it gets nothing. */
  method ScanAll(chunks: seq<string>) returns (tokens: seq<string>)
    ensures tokens == Tokens(Flat(chunks))
  {
    hide Tokens, Flat, SplitSSE;
    tokens := [];
    var buf := "";
    var read, eof := 0, false;
    assert chunks[0..] == chunks && buf + Flat(chunks) == Flat(chunks) && [] + Tokens(Flat(chunks)) == Tokens(Flat(chunks));
    while true
      invariant 0 <= read <= |chunks| && (eof ==> read == |chunks|)
      invariant tokens + Tokens(buf + Flat(chunks[read..])) == Tokens(Flat(chunks))
      decreases |chunks| - read, !eof, |buf|
    {
      FlatStep(buf, chunks, read);
      SplitStep(tokens, buf, Flat(chunks[read..]), eof);
      if |buf| > 0 || eof {
        var (advance, token) := SplitSSE(buf, eof);
        if token.Some? {
          tokens := tokens + [token.value];
          buf := buf[advance..];
          continue;
        }
      }
      if eof {
        return;
      }
      if read < |chunks| {
        buf := buf + chunks[read];
        read := read + 1;
      } else {
        eof := true;
      }
    }
  }

  function Glued(tokens: seq<string>): string { if tokens == [] then "" else tokens[0] + BLANK + Glued(tokens[1..]) }

  lemma TokensOf(s: string)
    ensures FirstBlank(s).Some? ==> Tokens(s) == [s[..FirstBlank(s).value]] + Tokens(s[FirstBlank(s).value + 2..])
    ensures FirstBlank(s).None? ==> Tokens(s) == if s == "" then [] else [s]
  {}

  /** No token contains a blank line, and the tokens with their blank lines make up the stream again. */
  lemma {:induction false} TokensSpec(s: string)
    ensures forall t | t in Tokens(s) :: FirstBlank(t).None?
    ensures Glued(Tokens(s)) == s || Glued(Tokens(s)) == s + BLANK
    decreases |s|
  {
    hide FirstBlank, Tokens;
    TokensOf(s);
    match FirstBlank(s) {
      case Some(i) =>
        var rest := Tokens(s[i + 2..]);
        TokensSpec(s[i + 2..]);
        BeforeFirstBlank(s);
        assert s == s[..i] + BLANK + s[i + 2..];
        assert ([s[..i]] + rest)[1..] == rest;
        assert s[..i] + BLANK + (s[i + 2..] + BLANK) == s + BLANK;
      case None =>
        if s != "" {
          assert [s][1..] == [];
          assert s + BLANK + "" == s + BLANK;
        }
    }
  }

  lemma {:induction false} BeforeFirstBlank(s: string)
    requires FirstBlank(s).Some?
    ensures FirstBlank(s[..FirstBlank(s).value]).None?
  {
    var i := FirstBlank(s).value;
    if i > 0 {
      BeforeFirstBlank(s[1..]);
      assert s[..i][1..] == s[1..][..i - 1];
      if i > 1 {
        assert s[..i][0] == s[0] && s[..i][1] == s[1];
      }
    }
  }

  // ---------------------------------------------------------------- from OpenAI chunks to Claude events

  datatype ChunkChoice = ChunkChoice(content: string, finish: string)
  datatype Chunk = Chunk(choices: seq<ChunkChoice>)

  datatype Event =
    | MessageStart | BlockStart | Delta(text: string) | BlockStop | MessageDelta(stopReason: string) | MessageStop

  const DATA := "data: "

  function StopReason(reason: string): string {
    if reason == "length" then "max_tokens" else if reason == "tool_calls" then "tool_use" else "end_turn"
  }

  /** The decodable chunks before the end marker, or before the end of the stream. */
  function ChunksOf(lines: seq<string>, decode: string -> Option<Chunk>): seq<Chunk> {
    if lines == [] then []
    else if !(DATA <= lines[0]) then ChunksOf(lines[1..], decode)
    else if lines[0][6..] == "[DONE]" then []
    else
      match decode(lines[0][6..])
      case None => ChunksOf(lines[1..], decode)
      case Some(c) => [c] + ChunksOf(lines[1..], decode)
  }

  function Content(c: Chunk): string { if c.choices == [] then "" else c.choices[0].content }

  function Finish(c: Chunk): string { if c.choices == [] then "" else c.choices[0].finish }

  function Deltas(chunks: seq<Chunk>): seq<Event> {
    if chunks == [] then []
    else Deltas(chunks[..|chunks| - 1])
         + (if Content(chunks[|chunks| - 1]) != "" then [Delta(Content(chunks[|chunks| - 1]))] else [])
  }

  /** The last finish reason given, or none. */
  function LastFinish(chunks: seq<Chunk>): string {
    if chunks == [] then ""
    else if Finish(chunks[|chunks| - 1]) != "" then Finish(chunks[|chunks| - 1])
    else LastFinish(chunks[..|chunks| - 1])
  }

  function Opening(chunks: seq<Chunk>): seq<Event> { if chunks == [] then [] else [MessageStart, BlockStart] }

  function Closing(reason: string): seq<Event> {
    if reason == "" then [] else [BlockStop, MessageDelta(StopReason(reason)), MessageStop]
  }

  function Trace(chunks: seq<Chunk>): seq<Event> { Opening(chunks) + Deltas(chunks) + Closing(LastFinish(chunks)) }

  /** How one more chunk extends what has been opened, written and remembered. */
  lemma TraceStep(seen: seq<Chunk>, c: Chunk)
    ensures Opening(seen + [c]) + Deltas(seen + [c])
         == (if seen == [] then [MessageStart, BlockStart] else Opening(seen) + Deltas(seen))
            + (if Content(c) != "" then [Delta(Content(c))] else [])
    ensures LastFinish(seen + [c]) == if Finish(c) != "" then Finish(c) else LastFinish(seen)
  {
    assert (seen + [c])[..|seen|] == seen;
  }

  /** What one line adds to the chunks. */
  lemma ChunkStep(seen: seq<Chunk>, lines: seq<string>, i: nat, decode: string -> Option<Chunk>)
    requires i <= |lines|
    ensures var here := seen + ChunksOf(lines[i..], decode);
            if i == |lines| then here == seen
            else if !(DATA <= lines[i]) then here == seen + ChunksOf(lines[i + 1..], decode)
            else if lines[i][6..] == "[DONE]" then here == seen
            else if decode(lines[i][6..]).None? then here == seen + ChunksOf(lines[i + 1..], decode)
            else here == seen + [decode(lines[i][6..]).value] + ChunksOf(lines[i + 1..], decode)
  {
    if i < |lines| {
      assert lines[i..][1..] == lines[i + 1..];
    }
  }

  method StreamOpenAI2Claude(lines: seq<string>, decode: string -> Option<Chunk>) returns (events: seq<Event>)
    ensures events == Trace(ChunksOf(lines, decode))
  {
    hide ChunksOf, Deltas, LastFinish;
    events := [];
    var started, finishReason := false, "";
    ghost var seen: seq<Chunk> := [];
    var i := 0;
    NothingYet();
    assert lines[0..] == lines && [] + ChunksOf(lines, decode) == ChunksOf(lines, decode);
    while i < |lines|
      invariant 0 <= i <= |lines|
      invariant seen + ChunksOf(lines[i..], decode) == ChunksOf(lines, decode)
      invariant started == (seen != []) && finishReason == LastFinish(seen)
      invariant events == Opening(seen) + Deltas(seen)
      decreases |lines| - i
    {
      ChunkStep(seen, lines, i, decode);
      var line := lines[i];
      i := i + 1;
      if !(DATA <= line) {
        continue;
      }
      var data := line[6..];
      if data == "[DONE]" {
        break;
      }
      var chunk := decode(data);
      if chunk.None? {
        continue;
      }
      TraceStep(seen, chunk.value);
      seen := seen + [chunk.value];
      if !started {
        events := events + [MessageStart];
        events := events + [BlockStart];
        started := true;
      }
      if |chunk.value.choices| == 0 {
        continue;
      }
      var delta := chunk.value.choices[0];
      if delta.content != "" {
        events := events + [Delta(delta.content)];
      }
      if delta.finish != "" {
        finishReason := delta.finish;
      }
    }
    ChunkStep(seen, lines, i, decode);
    if finishReason != "" {
      events := events + [BlockStop];
      events := events + [MessageDelta(StopReason(finishReason))];
      events := events + [MessageStop];
    }
  }

  lemma NothingYet()
    ensures Deltas([]) == [] && LastFinish([]) == ""
  {}

  // ---------------------------------------------------------------- what is taken from upstream

  predicate IsMarker(line: string) { line == "data: [DONE]" }

  predicate Carries(line: string, decode: string -> Option<Chunk>) { "data: " <= line && decode(line[6..]).Some? }

  /** The line carries the chunk. */
  predicate CarriesChunk(line: string, decode: string -> Option<Chunk>, c: Chunk) {
    "data: " <= line && decode(line[6..]) == Some(c)
  }

  /** The lines before the end marker that carry a chunk, counted from `offset`. */
  function CarriersFrom(lines: seq<string>, decode: string -> Option<Chunk>, offset: nat): seq<nat> {
    if lines == [] || IsMarker(lines[0]) then []
    else (if Carries(lines[0], decode) then [offset] else []) + CarriersFrom(lines[1..], decode, offset + 1)
  }

  lemma ChunksHead(lines: seq<string>, decode: string -> Option<Chunk>)
    requires lines != []
    ensures IsMarker(lines[0]) ==> ChunksOf(lines, decode) == []
    ensures !IsMarker(lines[0]) && !Carries(lines[0], decode) ==> ChunksOf(lines, decode) == ChunksOf(lines[1..], decode)
    ensures !IsMarker(lines[0]) && Carries(lines[0], decode) ==>
              exists c :: CarriesChunk(lines[0], decode, c) && ChunksOf(lines, decode) == [c] + ChunksOf(lines[1..], decode)
  {
    var line := lines[0];
    if "data: " <= line && line[6..] == "[DONE]" {
      assert line == line[..6] + line[6..];
    }
    if !IsMarker(line) && Carries(line, decode) {
      assert CarriesChunk(line, decode, decode(line[6..]).value);
    }
  }

  /** The positions, counted from `offset`, are of lines that carry the chunks, in order. */
  predicate CarriedBy(at: seq<nat>, chunks: seq<Chunk>, lines: seq<string>, decode: string -> Option<Chunk>, offset: nat) {
    && |at| == |chunks| && (forall i, j | 0 <= i < j < |at| :: at[i] < at[j])
    && forall i | 0 <= i < |at| :: offset <= at[i] < offset + |lines| && CarriesChunk(lines[at[i] - offset], decode, chunks[i])
  }

  lemma CarriedFurther(at: seq<nat>, chunks: seq<Chunk>, lines: seq<string>, decode: string -> Option<Chunk>, offset: nat)
    requires lines != [] && CarriedBy(at, chunks, lines[1..], decode, offset + 1)
    ensures CarriedBy(at, chunks, lines, decode, offset)
    ensures forall c | CarriesChunk(lines[0], decode, c) :: CarriedBy([offset] + at, [c] + chunks, lines, decode, offset)
  {
    hide CarriesChunk;
    forall i | 0 <= i < |at|
      ensures offset < at[i] < offset + |lines| && CarriesChunk(lines[at[i] - offset], decode, chunks[i])
    {
      assert lines[1..][at[i] - (offset + 1)] == lines[at[i] - offset];
    }
  }

  lemma {:induction false} CarriersDecode(lines: seq<string>, decode: string -> Option<Chunk>, offset: nat)
    ensures CarriedBy(CarriersFrom(lines, decode, offset), ChunksOf(lines, decode), lines, decode, offset)
  {
    hide IsMarker, Carries, CarriesChunk, ChunksOf;
    if lines == [] {
      NoChunks(decode);
    } else {
      ChunksHead(lines, decode);
      if !IsMarker(lines[0]) {
        CarriersDecode(lines[1..], decode, offset + 1);
        CarriedFurther(CarriersFrom(lines[1..], decode, offset + 1), ChunksOf(lines[1..], decode), lines, decode, offset);
        assert [] + CarriersFrom(lines[1..], decode, offset + 1) == CarriersFrom(lines[1..], decode, offset + 1);
        hide CarriedBy;
      }
    }
  }

  lemma NoChunks(decode: string -> Option<Chunk>)
    ensures ChunksOf([], decode) == []
  {}

  /** The chunks are what the carrying lines before the first end marker decode to, each line once and in order. */
  lemma ChunksMean(lines: seq<string>, decode: string -> Option<Chunk>)
    ensures var at := CarriersFrom(lines, decode, 0); var chunks := ChunksOf(lines, decode);
            && |at| == |chunks| && (forall i, j | 0 <= i < j < |at| :: at[i] < at[j])
            && forall i | 0 <= i < |at| :: at[i] < |lines| && CarriesChunk(lines[at[i]], decode, chunks[i])
  {
    CarriersDecode(lines, decode, 0);
    hide CarriersFrom, ChunksOf, CarriesChunk;
  }

  /** And every line that decodes to one, with no end marker up to it, carries one. */
  lemma {:induction false} CarriersComplete(lines: seq<string>, decode: string -> Option<Chunk>, offset: nat, k: nat)
    requires k < |lines| && forall j | 0 <= j <= k :: lines[j] != "data: [DONE]"
    requires "data: " <= lines[k] && decode(lines[k][6..]).Some?
    ensures offset + k in CarriersFrom(lines, decode, offset)
  {
    if k > 0 {
      assert forall j | 0 <= j <= k - 1 :: lines[1..][j] == lines[j + 1];
      CarriersComplete(lines[1..], decode, offset + 1, k - 1);
    }
  }

  predicate Writes(c: Chunk) { c.choices != [] && c.choices[0].content != "" }

  function WritersAt(chunks: seq<Chunk>): seq<nat> {
    if chunks == [] then []
    else
      var n := |chunks| - 1;
      WritersAt(chunks[..n]) + (if Writes(chunks[n]) then [n] else [])
  }

  /** One delta for each chunk whose first choice has content, with that content and in order. */
  lemma {:induction false} DeltasMean(chunks: seq<Chunk>)
    ensures var at := WritersAt(chunks);
            && |at| == |Deltas(chunks)| && (forall i, j | 0 <= i < j < |at| :: at[i] < at[j])
            && forall i | 0 <= i < |at| ::
                 at[i] < |chunks| && Writes(chunks[at[i]]) && Deltas(chunks)[i] == Delta(chunks[at[i]].choices[0].content)
  {
    if chunks != [] {
      var n := |chunks| - 1;
      DeltasMean(chunks[..n]);
      var before := WritersAt(chunks[..n]);
      forall i | 0 <= i < |before|
        ensures before[i] < n && chunks[..n][before[i]] == chunks[before[i]]
      {}
    }
  }

  lemma {:induction false} WritersComplete(chunks: seq<Chunk>, k: nat)
    requires k < |chunks| && Writes(chunks[k])
    ensures k in WritersAt(chunks)
  {
    var n := |chunks| - 1;
    if k < n {
      WritersComplete(chunks[..n], k);
    }
  }

  predicate Finishes(c: Chunk) { c.choices != [] && c.choices[0].finish != "" }

  lemma {:induction false} LastFinishIs(chunks: seq<Chunk>, k: nat)
    requires k < |chunks| && Finishes(chunks[k]) && forall j | k < j < |chunks| :: !Finishes(chunks[j])
    ensures LastFinish(chunks) == chunks[k].choices[0].finish
  {
    var n := |chunks| - 1;
    if k < n {
      assert forall j | k < j < n :: chunks[..n][j] == chunks[j];
      LastFinishIs(chunks[..n], k);
    }
  }

  /** The last finish reason given decides the ending, under the name the client's protocol has for it. */
  lemma EndingMeans(chunks: seq<Chunk>, k: nat)
    requires k < |chunks| && Finishes(chunks[k]) && forall j | k < j < |chunks| :: !Finishes(chunks[j])
    ensures var reason := chunks[k].choices[0].finish;
            var name := if reason == "length" then "max_tokens" else if reason == "tool_calls" then "tool_use" else "end_turn";
            Trace(chunks) == [MessageStart, BlockStart] + Deltas(chunks) + [BlockStop, MessageDelta(name), MessageStop]
  {
    LastFinishIs(chunks, k);
  }

  // ---------------------------------------------------------------- the protocol the client sees

  datatype Phase = Idle | Opened | Streaming | Stopping | Ending | Ended | Broken

  /** The protocol: start, block start, deltas, then block stop, message delta and message stop, once. */
  function Next(p: Phase, e: Event): Phase {
    match (p, e)
    case (Idle, MessageStart) => Opened
    case (Opened, BlockStart) => Streaming
    case (Streaming, Delta(text)) => if text != "" then Streaming else Broken
    case (Streaming, BlockStop) => Stopping
    case (Stopping, MessageDelta(_)) => Ending
    case (Ending, MessageStop) => Ended
    case _ => Broken
  }

  function Reaches(p: Phase, events: seq<Event>): Phase {
    if events == [] then p else Next(Reaches(p, events[..|events| - 1]), events[|events| - 1])
  }

  function Said(events: seq<Event>): string {
    if events == [] then ""
    else Said(events[..|events| - 1]) + (if events[|events| - 1].Delta? then events[|events| - 1].text else "")
  }

  function Upstream(chunks: seq<Chunk>): string {
    if chunks == [] then "" else Upstream(chunks[..|chunks| - 1]) + Content(chunks[|chunks| - 1])
  }

  lemma ReachesSnoc(p: Phase, events: seq<Event>, e: Event)
    ensures Reaches(p, events + [e]) == Next(Reaches(p, events), e)
    ensures Said(events + [e]) == Said(events) + (if e.Delta? then e.text else "")
  {
    assert (events + [e])[..|events|] == events;
  }

  lemma NothingSaid()
    ensures Opening([]) + Deltas([]) == [] && Reaches(Idle, []) == Idle && Said([]) == ""
  {}

  lemma JustOpened()
    ensures Reaches(Idle, [MessageStart, BlockStart]) == Streaming && Said([MessageStart, BlockStart]) == ""
  {
    ReachesSnoc(Idle, [], MessageStart);
    ReachesSnoc(Idle, [MessageStart], BlockStart);
    assert [] + [MessageStart] == [MessageStart] && [MessageStart] + [BlockStart] == [MessageStart, BlockStart];
  }

  lemma {:induction false} StreamingSoFar(chunks: seq<Chunk>)
    ensures var so := Opening(chunks) + Deltas(chunks);
            Reaches(Idle, so) == (if chunks == [] then Idle else Streaming) && Said(so) == Upstream(chunks)
  {
    hide Deltas, LastFinish, Opening, Reaches, Said;
    if chunks == [] {
      NothingSaid();
    } else {
      var before, c := chunks[..|chunks| - 1], chunks[|chunks| - 1];
      assert chunks == before + [c];
      StreamingSoFar(before);
      TraceStep(before, c);
      JustOpened();
      var so := if before == [] then [MessageStart, BlockStart] else Opening(before) + Deltas(before);
      assert Reaches(Idle, so) == Streaming && Said(so) == Upstream(before);
      if Content(c) != "" {
        ReachesSnoc(Idle, so, Delta(Content(c)));
      } else {
        assert so + [] == so && Upstream(before) + "" == Upstream(before);
      }
    }
  }

  /** Whether some chunk's first choice gives a finish reason. */
  predicate Finished(chunks: seq<Chunk>) { exists i :: 0 <= i < |chunks| && Finish(chunks[i]) != "" }

  lemma {:induction false} FinishGiven(chunks: seq<Chunk>)
    ensures LastFinish(chunks) != "" <==> Finished(chunks)
  {
    if chunks != [] {
      var n := |chunks| - 1;
      FinishGiven(chunks[..n]);
      if Finished(chunks[..n]) {
        var i :| 0 <= i < n && Finish(chunks[..n][i]) != "";
        assert chunks[i] == chunks[..n][i];
      }
      if Finished(chunks) && Finish(chunks[n]) == "" {
        var i :| 0 <= i < |chunks| && Finish(chunks[i]) != "";
        assert chunks[..n][i] == chunks[i];
      }
    }
  }

  /**
   Every emitted stream obeys the protocol: it is empty when nothing was decoded, complete exactly when
   a finish reason arrived, cut off after the deltas otherwise; and its deltas say what upstream said.
   */
  lemma TraceObeysProtocol(chunks: seq<Chunk>)
    ensures Reaches(Idle, Trace(chunks)) == if chunks == [] then Idle else if Finished(chunks) then Ended else Streaming
    ensures Said(Trace(chunks)) == Upstream(chunks)
  {
    hide Opening, Deltas, LastFinish, Reaches, Said, Finished, StopReason;
    StreamingSoFar(chunks);
    FinishGiven(chunks);
    NothingYet();
    var so := Opening(chunks) + Deltas(chunks);
    var reason := LastFinish(chunks);
    if reason == "" {
      assert Trace(chunks) == so;
    } else if chunks != [] {
      var stop := so + [BlockStop];
      ReachesSnoc(Idle, so, BlockStop);
      ReachesSnoc(Idle, stop, MessageDelta(StopReason(reason)));
      ReachesSnoc(Idle, stop + [MessageDelta(StopReason(reason))], MessageStop);
      assert Trace(chunks) == stop + [MessageDelta(StopReason(reason))] + [MessageStop];
    }
  }

  // ---------------------------------------------------------------- rendering

  function TypeOf(e: Event): string {
    match e
    case MessageStart => "message_start"
    case BlockStart => "content_block_start"
    case Delta(_) => "content_block_delta"
    case BlockStop => "content_block_stop"
    case MessageDelta(_) => "message_delta"
    case MessageStop => "message_stop"
  }

  function Body(e: Event, json: Event -> string): string { "event: " + TypeOf(e) + "\n" + DATA + json(e) }

  function Render(e: Event, json: Event -> string): string { Body(e, json) + BLANK }

  function Rendered(events: seq<Event>, json: Event -> string): string {
    if events == [] then "" else Render(events[0], json) + Rendered(events[1..], json)
  }

  function Bodies(events: seq<Event>, json: Event -> string): seq<string> {
    if events == [] then [] else [Body(events[0], json)] + Bodies(events[1..], json)
  }

  /** The text of an event on the wire, and the names the protocol has for the events. */
  lemma RenderMeans(e: Event, json: Event -> string)
    ensures Render(e, json) == ("event: " + TypeOf(e)) + "\ndata: " + json(e) + "\n\n"
    ensures TypeOf(MessageStart) == "message_start" && TypeOf(BlockStart) == "content_block_start" && TypeOf(BlockStop) == "content_block_stop"
    ensures TypeOf(MessageStop) == "message_stop"
    ensures forall text :: TypeOf(Delta(text)) == "content_block_delta" && TypeOf(MessageDelta(text)) == "message_delta"
  {
    assert "\n" + DATA == "\ndata: ";
  }

  /** A line break only between two non-empty lines, so no blank line inside or astride the end. */
  lemma {:induction false} TwoLines(first: string, second: string, more: string)
    requires '\n' !in first && '\n' !in second && second != ""
    ensures FirstBlank(first + "\n" + second + BLANK + more) == Some(|first| + 1 + |second|)
  {
    var s := first + "\n" + second + BLANK + more;
    if first == "" {
      OneLine(second, more);
      assert s[1..] == second + BLANK + more;
    } else {
      assert s[1..] == first[1..] + "\n" + second + BLANK + more;
      TwoLines(first[1..], second, more);
    }
  }

  lemma {:induction false} OneLine(line: string, more: string)
    requires '\n' !in line
    ensures FirstBlank(line + BLANK + more) == Some(|line|)
  {
    var s := line + BLANK + more;
    if line != "" {
      assert s[1..] == line[1..] + BLANK + more;
      OneLine(line[1..], more);
    }
  }

  lemma TypeIsOneLine(e: Event)
    ensures '\n' !in TypeOf(e)
  {}

  lemma TokensOfEvent(first: string, second: string, more: string)
    requires '\n' !in first && '\n' !in second && second != ""
    ensures Tokens(first + "\n" + second + BLANK + more) == [first + "\n" + second] + Tokens(more)
  {
    hide FirstBlank;
    TwoLines(first, second, more);
    var s, body := first + "\n" + second + BLANK + more, first + "\n" + second;
    assert s == body + BLANK + more;
    assert s[..|body|] == body && s[|body| + 2..] == more;
  }

  /** JSON text has no raw line break, so a client splitting on blank lines gets exactly the events sent. */
  lemma {:induction false} RenderedSplits(events: seq<Event>, json: Event -> string)
    requires forall e :: '\n' !in json(e)
    ensures Tokens(Rendered(events, json)) == Bodies(events, json)
  {
    hide FirstBlank, TypeOf, Tokens;
    if events == [] {
      NoTokens();
    } else {
      var e := events[0];
      var more := Rendered(events[1..], json);
      RenderedSplits(events[1..], json);
      TypeIsOneLine(e);
      var first, second := "event: " + TypeOf(e), DATA + json(e);
      TokensOfEvent(first, second, more);
      assert Body(e, json) == first + "\n" + second;
      assert Rendered(events, json) == first + "\n" + second + BLANK + more;
    }
  }
}
