/** The incremental reader of an Anthropic event stream. */
module SseReader {
  import opened Options
  import opened Selections

  /** What reaches the caller: a chunk built from a payload, or the read error. */
  datatype Event = Chunk(text: string) | Failure(error: string)

  /** How the payloads of the three event types that carry data decode; None where JSON decoding fails. */
  datatype Decoders = Decoders(delta: string -> Option<Event>, start: string -> Option<Event>,
                               usage: string -> Option<Event>)

  datatype Parser = Parser(eventType: string, stopped: bool, out: seq<Event>)

  const INITIAL := Parser("", false, [])

  /** strings.TrimRight(line, "\r"). */
  function TrimCR(s: string): string {
    if s != "" && s[|s| - 1] == '\r' then TrimCR(s[..|s| - 1]) else s
  }

  predicate HasPrefix(s: string, p: string) {
    |s| >= |p| && s[..|p|] == p
  }

  function Emit(st: Parser, e: Option<Event>): Parser {
    if e.Some? then st.(out := st.out + [e.value]) else st
  }

  function Data(dec: Decoders, st: Parser, payload: string): Parser {
    if st.eventType == "content_block_delta" then Emit(st, dec.delta(payload))
    else if st.eventType == "message_start" then Emit(st, dec.start(payload))
    else if st.eventType == "message_delta" then Emit(st, dec.usage(payload))
    else if st.eventType == "message_stop" then st.(stopped := true)
    else st
  }

  function Line(dec: Decoders, st: Parser, raw: string): Parser {
    var line := TrimCR(raw);
    if line == "" then st.(eventType := "")
    else if HasPrefix(line, "event: ") then st.(eventType := line[|"event: "|..])
    else if HasPrefix(line, "data: ") then Data(dec, st, line[|"data: "|..])
    else st
  }

  // ---- The whole stream, line by line, for any way of handling a line.

  type LineStep = (Parser, string) -> Parser

  function Dispatch(dec: Decoders): LineStep {
    (st: Parser, raw: string) => Line(dec, st, raw)
  }

  function IndexNL(s: string): (i: int)
    ensures -1 <= i < |s|
    ensures i >= 0 ==> s[i] == '\n' && forall k :: 0 <= k < i ==> s[k] != '\n'
    ensures i < 0 ==> forall k :: 0 <= k < |s| ==> s[k] != '\n'
  {
    if s == "" then -1
    else if s[0] == '\n' then 0
    else var i := IndexNL(s[1..]); if i < 0 then -1 else i + 1
  }

  /** The terminated lines. */
  function Lines(s: string): seq<string>
    decreases |s|
  {
    var i := IndexNL(s);
    if i < 0 then [] else [s[..i]] + Lines(s[i + 1..])
  }

  /** What follows the last newline. */
  function Rest(s: string): string
    decreases |s|
  {
    var i := IndexNL(s);
    if i < 0 then s else Rest(s[i + 1..])
  }

  /** Lines in order, up to and including the one that stops the stream. */
  function Parse(step: LineStep, st: Parser, lines: seq<string>): Parser
    decreases |lines|
  {
    if st.stopped || lines == [] then st else Parse(step, step(st, lines[0]), lines[1..])
  }

  function ParseStream(step: LineStep, s: string): Parser {
    Parse(step, INITIAL, Lines(s))
  }

  // ---- Reads.

  datatype Status = More | EndOfFile | Failed(error: string)

  /** One Read: some bytes, and possibly the end of the stream with them. */
  datatype Read = Read(data: string, status: Status)

  /** The bytes delivered, up to the read that ended the stream. */
  function Delivered(chunks: seq<Read>): string {
    if chunks == [] then ""
    else if chunks[0].status.More? then chunks[0].data + Delivered(chunks[1..])
    else chunks[0].data
  }

  function Ending(chunks: seq<Read>): Status {
    if chunks == [] then More else if chunks[0].status.More? then Ending(chunks[1..]) else chunks[0].status
  }

  /** The line-by-line result, and the read error unless the stream had stopped before. */
  function Expected(step: LineStep, s: string, ending: Status): seq<Event> {
    var st := ParseStream(step, s);
    if ending.Failed? && !st.stopped then st.out + [Failure(ending.error)] else st.out
  }

  // ---- Cutting a stream.

  lemma {:induction false} LinesConcat(a: string, b: string)
    ensures Lines(a + b) == Lines(a) + Lines(Rest(a) + b)
    ensures Rest(a + b) == Rest(Rest(a) + b)
    decreases |a|
  {
    var i := IndexNL(a);
    if i >= 0 {
      var head, tail := a[..i], a[i + 1..];
      LinesConcat(tail, b);
      Cut(a, b, i);
      TakeLine(a, head, tail);
      TakeLine(a + b, head, tail + b);
      Reassociate([head], Lines(tail), Lines(Rest(tail) + b));
    } else {
      assert [] + Lines(a + b) == Lines(a + b);
    }
  }

  lemma Cut(a: string, b: string, i: nat)
    requires i < |a| && a[i] == '\n'
    ensures a == a[..i] + ['\n'] + a[i + 1..] && a + b == a[..i] + ['\n'] + (a[i + 1..] + b)
  {
  }

  lemma TakeLine(s: string, head: string, tail: string)
    requires s == head + ['\n'] + tail && forall k :: 0 <= k < |head| ==> head[k] != '\n'
    ensures Lines(s) == [head] + Lines(tail) && Rest(s) == Rest(tail)
  {
    assert s[|head|] == '\n';
    SameIndex(s, |head|);
    assert s[..|head|] == head && s[|head| + 1..] == tail;
  }

  lemma SameIndex(s: string, i: nat)
    requires i < |s| && s[i] == '\n' && forall k :: 0 <= k < i ==> s[k] != '\n'
    ensures IndexNL(s) == i
  {
    var j := IndexNL(s);
    assert j >= 0;
  }

  lemma {:induction false} ParseConcat(step: LineStep, st: Parser, a: seq<string>, b: seq<string>)
    ensures Parse(step, st, a + b) == Parse(step, Parse(step, st, a), b)
    decreases |a|
  {
    if a == [] {
      assert a + b == b;
    } else if !st.stopped {
      assert (a + b)[1..] == a[1..] + b;
      ParseConcat(step, step(st, a[0]), a[1..], b);
    }
  }

  lemma {:induction false} RestHasNoLine(s: string)
    ensures IndexNL(Rest(s)) < 0 && Lines(Rest(s)) == []
    decreases |s|
  {
    var i := IndexNL(s);
    if i >= 0 {
      RestHasNoLine(s[i + 1..]);
    }
  }

  /** No line takes an event back. */
  ghost predicate Monotone(step: LineStep) {
    forall st: Parser, raw: string :: st.out <= step(st, raw).out
  }

  lemma DispatchMonotone(dec: Decoders)
    ensures Monotone(Dispatch(dec))
  {
  }

  lemma {:induction false} ParseGrows(step: LineStep, st: Parser, lines: seq<string>)
    requires Monotone(step)
    ensures st.out <= Parse(step, st, lines).out
    decreases |lines|
  {
    if !st.stopped && lines != [] {
      ParseGrows(step, step(st, lines[0]), lines[1..]);
    }
  }

  /** Later bytes only add events; after message_stop they add none; and bytes that complete no line
      change nothing. */
  lemma StreamGrows(step: LineStep, s: string, t: string)
    requires Monotone(step)
    ensures ParseStream(step, s).out <= ParseStream(step, s + t).out
    ensures ParseStream(step, s).stopped ==> ParseStream(step, s + t) == ParseStream(step, s)
    ensures IndexNL(t) < 0 ==> ParseStream(step, s + t) == ParseStream(step, s)
  {
    FeedMore(step, s, t);
    ParseGrows(step, ParseStream(step, s), Lines(Rest(s) + t));
    if IndexNL(t) < 0 {
      RestHasNoLine(s);
      assert forall k :: 0 <= k < |Rest(s) + t| ==> (Rest(s) + t)[k] != '\n';
    }
  }

  /** Parsing resumes from the unterminated rest. */
  lemma FeedMore(step: LineStep, s: string, t: string)
    ensures ParseStream(step, s + t) == Parse(step, ParseStream(step, s), Lines(Rest(s) + t))
    ensures Rest(s + t) == Rest(Rest(s) + t)
  {
    LinesConcat(s, t);
    ParseConcat(step, INITIAL, Lines(s), Lines(Rest(s) + t));
  }

  // ---- The reader.

  /** Takes the terminated lines out of the buffer until none is left or the stream stops. */
  method DrainLines(step: LineStep, st0: Parser, buf0: string) returns (st: Parser, buf: string)
    requires !st0.stopped
    ensures st == Parse(step, st0, Lines(buf0))
    ensures !st.stopped ==> buf == Rest(buf0)
  {
    st, buf := st0, buf0;
    while true
      invariant !st.stopped
      invariant Parse(step, st, Lines(buf)) == Parse(step, st0, Lines(buf0)) && Rest(buf) == Rest(buf0)
      decreases |buf|
    {
      var idx := IndexNL(buf);
      if idx < 0 {
        break;
      }
      var raw := buf[..idx];
      assert Lines(buf)[0] == raw && Lines(buf)[1..] == Lines(buf[idx + 1..]);
      buf := buf[idx + 1..];
      st := step(st, raw);
      if st.stopped {
        return;
      }
    }
  }

  /** The bytes still to come from read i on. */
  lemma DeliveredFrom(chunks: seq<Read>, i: nat, seen: string, all: string, end: Status)
    requires i < |chunks| && all == seen + Delivered(chunks[i..]) && end == Ending(chunks[i..])
    ensures var r := chunks[i];
      if r.status.More? then all == (seen + r.data) + Delivered(chunks[i + 1..]) && end == Ending(chunks[i + 1..])
      else all == seen + r.data && end == r.status
  {
    var tail := chunks[i..];
    assert tail[0] == chunks[i] && tail[1..] == chunks[i + 1..];
    if chunks[i].status.More? {
      Reassociate(seen, chunks[i].data, Delivered(tail[1..]));
    }
  }

  /** Between reads: the reader has handled the bytes seen so far, and the rest is still to come. */
  ghost predicate HasRead(step: LineStep, chunks: seq<Read>, i: nat, seen: string, st: Parser, buf: string) {
    && i <= |chunks| && !st.stopped && st == ParseStream(step, seen) && buf == Rest(seen)
    && Delivered(chunks) == seen + Delivered(chunks[i..]) && Ending(chunks) == Ending(chunks[i..])
  }

  /** What the reader has after one more read. */
  ghost predicate Handled(step: LineStep, st0: Parser, buf0: string, data: string, st: Parser, buf: string) {
    st == Parse(step, st0, Lines(buf0 + data)) && (!st.stopped ==> buf == Rest(buf0 + data))
  }

  lemma NothingRead(step: LineStep, chunks: seq<Read>, i: nat, seen: string, st: Parser, buf: string)
    requires HasRead(step, chunks, i, seen, st, buf)
    ensures Handled(step, st, buf, "", st, buf)
  {
    RestHasNoLine(seen);
    assert buf + "" == buf;
  }

  function FailureOf(status: Status): seq<Event> {
    if status.Failed? then [Failure(status.error)] else []
  }

  /** If the stream has stopped, the events are all there; so they are, but for an error, if this was the last
      read; otherwise the reader goes on. */
  lemma AfterRead(step: LineStep, chunks: seq<Read>, i: nat, seen: string, st0: Parser, buf0: string, st: Parser,
                  buf: string)
    requires Monotone(step) && i < |chunks| && HasRead(step, chunks, i, seen, st0, buf0)
    requires Handled(step, st0, buf0, chunks[i].data, st, buf)
    ensures var r := chunks[i];
      if st.stopped then st.out == Expected(step, Delivered(chunks), Ending(chunks))
      else if r.status.More? then HasRead(step, chunks, i + 1, seen + r.data, st, buf)
      else st.out + FailureOf(r.status) == Expected(step, Delivered(chunks), Ending(chunks))
  {
    var r := chunks[i];
    DeliveredFrom(chunks, i, seen, Delivered(chunks), Ending(chunks));
    FeedMore(step, seen, r.data);
    if st.stopped {
      StoppedHere(step, seen + r.data, r.status.More?, if r.status.More? then Delivered(chunks[i + 1..]) else "",
                  Delivered(chunks), Ending(chunks));
    } else if !r.status.More? && !r.status.Failed? {
      assert st.out + [] == st.out;
    }
  }

  lemma StoppedHere(step: LineStep, s: string, more: bool, rest: string, all: string, ending: Status)
    requires Monotone(step) && ParseStream(step, s).stopped && all == if more then s + rest else s
    ensures Expected(step, all, ending) == ParseStream(step, s).out
  {
    StoppedFor(step, s, if more then rest else "", ending);
    assert s + "" == s;
  }

  lemma StoppedFor(step: LineStep, s: string, t: string, ending: Status)
    requires Monotone(step) && ParseStream(step, s).stopped
    ensures Expected(step, s + t, ending) == ParseStream(step, s).out
  {
    StreamGrows(step, s, t);
  }

  lemma ReadNothingYet(step: LineStep, chunks: seq<Read>)
    ensures HasRead(step, chunks, 0, "", INITIAL, "")
  {
    assert chunks[0..] == chunks;
    assert "" + Delivered(chunks) == Delivered(chunks);
  }

  lemma ReadAll(step: LineStep, chunks: seq<Read>, seen: string, st: Parser, buf: string)
    requires HasRead(step, chunks, |chunks|, seen, st, buf)
    ensures st.out == Expected(step, Delivered(chunks), Ending(chunks))
  {
    assert chunks[|chunks|..] == [];
    assert seen + "" == seen;
  }

  /** However the stream is cut into reads, the events are those of the whole stream. */
  method Stream(step: LineStep, chunks: seq<Read>) returns (out: seq<Event>)
    requires Monotone(step)
    ensures out == Expected(step, Delivered(chunks), Ending(chunks))
  {
    var st, buf := INITIAL, "";
    ghost var seen := "";
    var i := 0;
    ReadNothingYet(step, chunks);
    while i < |chunks|
      invariant i <= |chunks| && HasRead(step, chunks, i, seen, st, buf)
    {
      var r := chunks[i];
      ghost var st0, buf0 := st, buf;
      if |r.data| > 0 {
        buf := buf + r.data;
        st, buf := DrainLines(step, st, buf);
      } else {
        NothingRead(step, chunks, i, seen, st, buf);
      }
      AfterRead(step, chunks, i, seen, st0, buf0, st, buf);
      if st.stopped {
        return st.out;
      }
      if !r.status.More? {
        if r.status.Failed? {
          return st.out + [Failure(r.status.error)];
        }
        assert st.out + [] == st.out;
        return st.out;
      }
      seen := seen + r.data;
      i := i + 1;
    }
    ReadAll(step, chunks, seen, st, buf);
    out := st.out;
  }

  /** The stream loop of StreamChat: its events depend on the bytes and the ending alone. */
  method StreamChat(dec: Decoders, chunks: seq<Read>) returns (out: seq<Event>)
    ensures var st, end := ParseStream(Dispatch(dec), Delivered(chunks)), Ending(chunks);
      out == if end.Failed? && !st.stopped then st.out + [Failure(end.error)] else st.out
  {
    DispatchMonotone(dec);
    out := Stream(Dispatch(dec), chunks);
  }

  // ---- What the lines of an Anthropic stream mean.

  /** All the data of all reads. */
  function Joined(chunks: seq<Read>): string {
    if chunks == [] then "" else Joined(chunks[..|chunks| - 1]) + chunks[|chunks| - 1].data
  }

  /** Cut anywhere into reads, what counts is all the data up to and with the read that ends the stream. */
  lemma {:induction false} DeliveredIs(chunks: seq<Read>, later: seq<Read>)
    requires chunks != [] && forall i :: 0 <= i < |chunks| - 1 ==> chunks[i].status.More?
    ensures Delivered(chunks) == Joined(chunks) && Ending(chunks) == chunks[|chunks| - 1].status
    ensures !chunks[|chunks| - 1].status.More? ==>
      Delivered(chunks + later) == Joined(chunks) && Ending(chunks + later) == chunks[|chunks| - 1].status
    decreases |chunks|
  {
    if |chunks| == 1 {
      assert (chunks + later)[0] == chunks[0];
      assert chunks[0].data + "" == chunks[0].data == "" + chunks[0].data;
    } else {
      DeliveredIs(chunks[1..], later);
      JoinedFront(chunks);
      assert (chunks + later)[1..] == chunks[1..] + later;
    }
  }

  lemma {:induction false} JoinedFront(chunks: seq<Read>)
    requires chunks != []
    ensures Joined(chunks) == chunks[0].data + Joined(chunks[1..])
  {
    if |chunks| == 1 {
      assert "" + chunks[0].data == chunks[0].data == chunks[0].data + "";
    } else {
      var n := |chunks| - 1;
      JoinedFront(chunks[..n]);
      assert chunks[..n][1..] == chunks[1..][..n - 1];
      Reassociate(chunks[0].data, Joined(chunks[1..][..n - 1]), chunks[n].data);
    }
  }

  /** Nothing has stopped the stream, and the last line is complete. */
  ghost predicate AtLineStart(dec: Decoders, s: string) {
    !ParseStream(Dispatch(dec), s).stopped && Rest(s) == ""
  }

  /** One line's text, as it reaches the parser. */
  predicate OneLine(line: string) {
    (forall i :: 0 <= i < |line| ==> line[i] != '\n') && (line != "" ==> line[|line| - 1] != '\r')
  }

  lemma NextLine(dec: Decoders, s: string, line: string)
    requires AtLineStart(dec, s) && forall i :: 0 <= i < |line| ==> line[i] != '\n'
    ensures ParseStream(Dispatch(dec), s + (line + "\n")) == Line(dec, ParseStream(Dispatch(dec), s), line)
    ensures Rest(s + (line + "\n")) == ""
  {
    var t := line + "\n";
    FeedMore(Dispatch(dec), s, t);
    assert "" + t == t && t == line + ['\n'] + "";
    TakeLine(t, line, "");
  }

  lemma TypeLine(dec: Decoders, s: string, kind: string)
    requires AtLineStart(dec, s) && OneLine(kind)
    ensures ParseStream(Dispatch(dec), s + ("event: " + kind + "\n"))
      == ParseStream(Dispatch(dec), s).(eventType := kind)
    ensures AtLineStart(dec, s + ("event: " + kind + "\n"))
  {
    NextLine(dec, s, "event: " + kind);
  }

  /** A data line under a type: each type that carries data is decoded in its own way, what any other type
      carries is skipped, only message_stop ends the stream, and the type stays for the lines behind it. */
  lemma DataDecoded(dec: Decoders, s: string, payload: string)
    requires AtLineStart(dec, s) && OneLine(payload)
    ensures var st, t := ParseStream(Dispatch(dec), s), ParseStream(Dispatch(dec), s + ("data: " + payload + "\n"));
      && (st.eventType == "content_block_delta" ==>
          t.out == st.out + if dec.delta(payload).Some? then [dec.delta(payload).value] else [])
      && (st.eventType == "message_start" ==>
          t.out == st.out + if dec.start(payload).Some? then [dec.start(payload).value] else [])
      && (st.eventType == "message_delta" ==>
          t.out == st.out + if dec.usage(payload).Some? then [dec.usage(payload).value] else [])
      && (st.eventType != "content_block_delta" && st.eventType != "message_start" && st.eventType != "message_delta"
          ==> t.out == st.out)
      && (t.stopped <==> st.eventType == "message_stop") && t.eventType == st.eventType
  {
    NextLine(dec, s, "data: " + payload);
    DataLine(payload);
    NothingBehind(ParseStream(Dispatch(dec), s).out);
  }

  /** The same of a whole record, a line with its type and a line with its data. */
  lemma RecordDecoded(dec: Decoders, s: string, kind: string, payload: string)
    requires AtLineStart(dec, s) && OneLine(kind) && OneLine(payload)
    ensures var st := ParseStream(Dispatch(dec), s);
      var t := ParseStream(Dispatch(dec), s + ("event: " + kind + "\n") + ("data: " + payload + "\n"));
      && (kind == "content_block_delta" ==>
          t.out == st.out + if dec.delta(payload).Some? then [dec.delta(payload).value] else [])
      && (kind == "message_start" ==>
          t.out == st.out + if dec.start(payload).Some? then [dec.start(payload).value] else [])
      && (kind == "message_delta" ==>
          t.out == st.out + if dec.usage(payload).Some? then [dec.usage(payload).value] else [])
      && (kind != "content_block_delta" && kind != "message_start" && kind != "message_delta" ==> t.out == st.out)
      && (t.stopped <==> kind == "message_stop")
  {
    TypeLine(dec, s, kind);
    DataDecoded(dec, s + ("event: " + kind + "\n"), payload);
  }

  lemma DataLine(payload: string)
    requires OneLine(payload)
    ensures var line := "data: " + payload;
      TrimCR(line) == line && !HasPrefix(line, "event: ") && HasPrefix(line, "data: ") && line[6..] == payload
  {
    var line := "data: " + payload;
    assert line[..6] == "data: " && line[6..] == payload;
    assert |line| >= 7 ==> line[..7][0] == 'd';
  }

  lemma BlankLine(dec: Decoders, s: string)
    requires AtLineStart(dec, s)
    ensures ParseStream(Dispatch(dec), s + "\n") == ParseStream(Dispatch(dec), s).(eventType := "")
    ensures AtLineStart(dec, s + "\n")
  {
    NextLine(dec, s, "");
    assert "" + "\n" == "\n";
  }

  /** A blank line forgets the type: data behind it is skipped. */
  lemma BlankLineForgets(dec: Decoders, s: string, payload: string)
    requires AtLineStart(dec, s) && OneLine(payload)
    ensures var t := ParseStream(Dispatch(dec), s + "\n" + ("data: " + payload + "\n"));
      t.out == ParseStream(Dispatch(dec), s).out && !t.stopped
  {
    BlankLine(dec, s);
    DataDecoded(dec, s + "\n", payload);
  }

  /** Any other line changes nothing, and the type stays for the data behind it. */
  lemma OtherLinesSkipped(dec: Decoders, s: string, line: string)
    requires AtLineStart(dec, s) && OneLine(line) && line != "" && !("event: " <= line) && !("data: " <= line)
    ensures ParseStream(Dispatch(dec), s + (line + "\n")) == ParseStream(Dispatch(dec), s)
  {
    NextLine(dec, s, line);
    assert HasPrefix(line, "event: ") ==> "event: " <= line;
    assert HasPrefix(line, "data: ") ==> "data: " <= line;
  }

  /** A line ends the same way with or without carriage returns. */
  lemma CarriageReturnsIgnored(dec: Decoders, st: Parser, line: string)
    ensures Line(dec, st, line + "\r") == Line(dec, st, line)
  {
    var s := line + "\r";
    assert s[|s| - 1] == '\r' && s[..|s| - 1] == line;
  }
}
