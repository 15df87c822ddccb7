/** The event-stream printer of the chat endpoint and the buffering reader of the
    browser client: a `data: ` line per event, a blank line after it (section
    9.2.5 of the HTML Living Standard). Payloads are the JSON texts. */
module SseStream {
  import opened Options

  const PREFIX := "data: "

  predicate NoNewline(s: string) {
    '\n' !in s
  }

  // ---- printer ----

  function Sse(payload: string): string {
    PREFIX + payload + "\n\n"
  }

  function PrintAll(payloads: seq<string>): string {
    if |payloads| == 0 then "" else Sse(payloads[0]) + PrintAll(payloads[1..])
  }

  // ---- splitting ----

  /** Index of the first pair of newlines, or the length of the text. */
  function FirstBreak(t: string): (i: nat)
    ensures i <= |t|
    ensures i < |t| ==> i + 2 <= |t| && t[i] == '\n' && t[i + 1] == '\n'
  {
    if |t| < 2 then |t|
    else if t[0] == '\n' && t[1] == '\n' then 0
    else 1 + FirstBreak(t[1..])
  }

  /** The text split at every blank-line separator, leftmost first. */
  function Frames(t: string): seq<string>
    decreases |t|
  {
    var i := FirstBreak(t);
    if i == |t| then [t] else [t[..i]] + Frames(t[i + 2..])
  }

  function Lengthen(c: char, lines: seq<string>): seq<string> {
    if |lines| == 0 then [[c]] else [[c] + lines[0]] + lines[1..]
  }

  /** The text split at every newline. */
  function Lines(t: string): seq<string> {
    if |t| == 0 then [""]
    else if t[0] == '\n' then [""] + Lines(t[1..])
    else Lengthen(t[0], Lines(t[1..]))
  }

  predicate IsData(line: string) {
    |line| >= |PREFIX| && line[..|PREFIX|] == PREFIX
  }

  function FindData(lines: seq<string>): (r: Option<string>)
    ensures r.Some? ==> IsData(r.value) && exists k :: 0 <= k < |lines| && lines[k] == r.value && forall j :: 0 <= j < k ==> !IsData(lines[j])
    ensures r.None? ==> forall j :: 0 <= j < |lines| ==> !IsData(lines[j])
  {
    if |lines| == 0 then None
    else if IsData(lines[0]) then Some(lines[0])
    else FindData(lines[1..])
  }

  /** The event a frame carries: its first data line, if that parses as JSON. */
  function EventOf(frame: string, parses: string -> bool): Option<string> {
    match FindData(Lines(frame))
    case None => None
    case Some(line) =>
      var payload := line[|PREFIX|..];
      if parses(payload) then Some(payload) else None
  }

  function Events(frames: seq<string>, parses: string -> bool): seq<string> {
    if |frames| == 0 then []
    else
      var earlier := Events(frames[..|frames| - 1], parses);
      match EventOf(frames[|frames| - 1], parses)
      case None => earlier
      case Some(p) => earlier + [p]
  }

  // ---- reader ----

  // The pieces before the popped one, and the popped one.
  function Complete(frames: seq<string>): seq<string> {
    if |frames| == 0 then [] else frames[..|frames| - 1]
  }

  function Unfinished(frames: seq<string>): string {
    if |frames| == 0 then "" else frames[|frames| - 1]
  }

  datatype Reader = Reader(delivered: seq<string>, buffer: string)

  function Feed(r: Reader, chunk: string, parses: string -> bool): Reader {
    var frames := Frames(r.buffer + chunk);
    Reader(r.delivered + Events(Complete(frames), parses), Unfinished(frames))
  }

  function Read(chunks: seq<string>, parses: string -> bool): Reader {
    if |chunks| == 0 then Reader([], "")
    else Feed(Read(chunks[..|chunks| - 1], parses), chunks[|chunks| - 1], parses)
  }

  method StreamChat(chunks: seq<string>, parses: string -> bool) returns (delivered: seq<string>, buffer: string)
    ensures Reader(delivered, buffer) == Read(chunks, parses)
  {
    hide Events;
    delivered, buffer := [], "";
    for c := 0 to |chunks|
      invariant Reader(delivered, buffer) == Read(chunks[..c], parses)
    {
      assert chunks[..c + 1][..c] == chunks[..c];
      buffer := buffer + chunks[c];
      var frames := Frames(buffer);
      buffer := Unfinished(frames);
      var events := EmitFrames(Complete(frames), parses);
      delivered := delivered + events;
    }
    assert chunks[..|chunks|] == chunks;
  }

  // The inner loop over the complete frames of one read.
  method EmitFrames(frames: seq<string>, parses: string -> bool) returns (events: seq<string>)
    ensures events == Events(frames, parses)
  {
    hide EventOf;
    events := [];
    for k := 0 to |frames|
      invariant events == Events(frames[..k], parses)
    {
      assert frames[..k + 1][..k] == frames[..k];
      var event := EventOf(frames[k], parses);
      if event.None? {
        continue;
      }
      events := events + [event.value];
    }
    assert frames[..|frames|] == frames;
  }

  function Concat(chunks: seq<string>): string {
    if |chunks| == 0 then "" else Concat(chunks[..|chunks| - 1]) + chunks[|chunks| - 1]
  }

  // ---- the reader does not depend on how the text was chunked ----

  lemma {:induction false} BreakStays(x: string, y: string)
    requires FirstBreak(x) < |x|
    ensures FirstBreak(x + y) == FirstBreak(x)
  {
    if !(x[0] == '\n' && x[1] == '\n') {
      assert (x + y)[1..] == x[1..] + y;
      BreakStays(x[1..], y);
    }
  }

  lemma FramesNonempty(t: string)
    ensures |Frames(t)| > 0
  {
  }

  lemma PopAfter(a: seq<string>, g: seq<string>)
    requires |g| > 0
    ensures Complete(a + g) == a + Complete(g) && Unfinished(a + g) == Unfinished(g)
  {
  }

  lemma Assoc<T>(a: seq<T>, b: seq<T>, c: seq<T>)
    ensures (a + b) + c == a + (b + c)
  {
  }

  /** Splitting x + y keeps the complete frames of x and re-splits only its unfinished last piece. */
  lemma {:induction false} SplitResumes(x: string, y: string)
    ensures Frames(x + y) == Complete(Frames(x)) + Frames(Unfinished(Frames(x)) + y)
    decreases |x|
  {
    hide FirstBreak;
    var i := FirstBreak(x);
    if i < |x| {
      BreakStays(x, y);
      var rest := x[i + 2..];
      assert (x + y)[..i] == x[..i];
      assert (x + y)[i + 2..] == rest + y;
      SplitResumes(rest, y);
      FramesNonempty(rest);
      PopAfter([x[..i]], Frames(rest));
      Assoc([x[..i]], Complete(Frames(rest)), Frames(Unfinished(Frames(rest)) + y));
    }
  }

  lemma {:induction false} EventsConcat(a: seq<string>, b: seq<string>, parses: string -> bool)
    ensures Events(a + b, parses) == Events(a, parses) + Events(b, parses)
  {
    hide EventOf;
    if |b| == 0 {
      assert a + b == a;
    } else {
      var n := |b| - 1;
      assert (a + b)[..|a| + n] == a + b[..n];
      EventsConcat(a, b[..n], parses);
    }
  }

  /** What the reader has delivered and buffered is a function of the text received so
      far: the events of its complete frames, and its last unfinished frame. */
  lemma {:induction false} ReadIsOneSplit(chunks: seq<string>, parses: string -> bool)
    ensures var f := Frames(Concat(chunks));
      Read(chunks, parses) == Reader(Events(Complete(f), parses), Unfinished(f))
  {
    if |chunks| > 0 {
      hide Events, Frames, Complete, Unfinished;
      var n := |chunks| - 1;
      var x, y := Concat(chunks[..n]), chunks[n];
      ReadIsOneSplit(chunks[..n], parses);
      SplitResumes(x, y);
      var f := Frames(x);
      var g := Frames(Unfinished(f) + y);
      FramesNonempty(Unfinished(f) + y);
      PopAfter(Complete(f), g);
      EventsConcat(Complete(f), Complete(g), parses);
    }
  }

  /** Any two ways of cutting the same text into chunks give the same events and the same buffer. */
  lemma ChunkingDoesNotMatter(a: seq<string>, b: seq<string>, parses: string -> bool)
    requires Concat(a) == Concat(b)
    ensures Read(a, parses) == Read(b, parses)
  {
    ReadIsOneSplit(a, parses);
    ReadIsOneSplit(b, parses);
  }

  // ---- what splitting does ----

  function Join(pieces: seq<string>, separator: string): string {
    if |pieces| == 0 then ""
    else if |pieces| == 1 then pieces[0]
    else pieces[0] + separator + Join(pieces[1..], separator)
  }

  /** The frames joined by blank lines give the text back, and none of them holds one. */
  lemma {:induction false} FramesRejoin(t: string)
    ensures Join(Frames(t), "\n\n") == t
    ensures forall i :: 0 <= i < |Frames(t)| ==> FirstBreak(Frames(t)[i]) == |Frames(t)[i]|
    decreases |t|
  {
    var i := FirstBreak(t);
    if i < |t| {
      FramesRejoin(t[i + 2..]);
      FramesNonempty(t[i + 2..]);
      NoBreakBefore(t);
      assert Frames(t)[1..] == Frames(t[i + 2..]);
      assert t == t[..i] + "\n\n" + t[i + 2..];
    }
  }

  lemma {:induction false} NoBreakBefore(t: string)
    ensures FirstBreak(t[..FirstBreak(t)]) == FirstBreak(t)
  {
    if |t| >= 2 && !(t[0] == '\n' && t[1] == '\n') {
      NoBreakBefore(t[1..]);
      assert t[..FirstBreak(t)][1..] == t[1..][..FirstBreak(t[1..])];
    }
  }

  /** The lines joined by newlines give the text back, and none of them holds one. */
  lemma {:induction false} LinesRejoin(t: string)
    ensures |Lines(t)| > 0 && Join(Lines(t), "\n") == t && forall i :: 0 <= i < |Lines(t)| ==> NoNewline(Lines(t)[i])
  {
    if |t| > 0 {
      LinesRejoin(t[1..]);
      var rest := Lines(t[1..]);
      if t[0] == '\n' {
        assert ([""] + rest)[1..] == rest;
      } else {
        assert Lengthen(t[0], rest)[1..] == rest[1..];
      }
    }
  }

  /** A frame carries an event exactly when it has a data line whose text parses; later data
      lines and all other lines are ignored. */
  lemma EventIs(frame: string, parses: string -> bool)
    ensures EventOf(frame, parses).Some? <==>
      exists k :: 0 <= k < |Lines(frame)| && IsFirstData(Lines(frame), k) && parses(Lines(frame)[k][6..])
    ensures forall k :: 0 <= k < |Lines(frame)| && IsFirstData(Lines(frame), k) && parses(Lines(frame)[k][6..]) ==>
      EventOf(frame, parses) == Some(Lines(frame)[k][6..])
  {
    hide Lines;
    var lines := Lines(frame);
    if FindData(lines).Some? {
      var k :| 0 <= k < |lines| && lines[k] == FindData(lines).value && forall j :: 0 <= j < k ==> !IsData(lines[j]);
      assert IsFirstData(lines, k);
    }
  }

  // The first line that starts with "data: ".
  ghost predicate IsFirstData(lines: seq<string>, k: nat)
    requires k < |lines|
    ensures IsFirstData(lines, k) ==> |lines[k]| >= 6
  {
    |lines[k]| >= 6 && lines[k][..6] == "data: "
    && forall j :: 0 <= j < k ==> !(|lines[j]| >= 6 && lines[j][..6] == "data: ")
  }

  // ---- round trip ----

  lemma {:induction false} BreakAfterLine(p: string, rest: string)
    requires NoNewline(p)
    ensures FirstBreak(p + "\n\n" + rest) == |p|
  {
    var t := p + "\n\n" + rest;
    if |p| == 0 {
      assert t[0] == '\n' && t[1] == '\n';
    } else {
      assert t[0] == p[0];
      assert t[1..] == p[1..] + "\n\n" + rest;
      BreakAfterLine(p[1..], rest);
    }
  }

  lemma {:induction false} SingleLine(t: string)
    requires NoNewline(t)
    ensures Lines(t) == [t]
  {
    if |t| > 0 {
      SingleLine(t[1..]);
      assert [t[0]] + t[1..] == t;
    }
  }

  lemma FrameCarriesPayload(p: string, parses: string -> bool)
    requires NoNewline(p) && parses(p)
    ensures EventOf(PREFIX + p, parses) == Some(p)
  {
    SingleLine(PREFIX + p);
    assert (PREFIX + p)[|PREFIX|..] == p;
  }

  ghost predicate Printable(payloads: seq<string>, parses: string -> bool) {
    forall i :: 0 <= i < |payloads| ==> NoNewline(payloads[i]) && parses(payloads[i])
  }

  function DataLines(payloads: seq<string>): (r: seq<string>)
    ensures |r| == |payloads|
  {
    seq(|payloads|, i requires 0 <= i < |payloads| => PREFIX + payloads[i])
  }

  lemma FirstFrame(line: string, rest: string)
    requires NoNewline(line)
    ensures Frames(line + "\n\n" + rest) == [line] + Frames(rest)
  {
    BreakAfterLine(line, rest);
    hide FirstBreak;
    assert (line + "\n\n" + rest)[..|line|] == line;
    assert (line + "\n\n" + rest)[|line| + 2..] == rest;
  }

  lemma {:induction false} PrintedFrames(payloads: seq<string>, tail: string, parses: string -> bool)
    requires Printable(payloads, parses)
    ensures Frames(PrintAll(payloads) + tail) == DataLines(payloads) + Frames(tail)
  {
    if |payloads| == 0 {
      assert PrintAll(payloads) + tail == tail;
    } else {
      hide Frames, PrintAll, DataLines;
      var line, later := PREFIX + payloads[0], payloads[1..];
      var rest := PrintAll(later) + tail;
      PrintedText(payloads, tail);
      FirstFrame(line, rest);
      PrintedFrames(later, tail, parses);
      DataLinesCons(payloads);
      Assoc([line], DataLines(later), Frames(tail));
    }
  }

  lemma PrintedText(payloads: seq<string>, tail: string)
    requires |payloads| > 0
    ensures PrintAll(payloads) + tail == PREFIX + payloads[0] + "\n\n" + (PrintAll(payloads[1..]) + tail)
  {
    Assoc(Sse(payloads[0]), PrintAll(payloads[1..]), tail);
  }

  lemma DataLinesCons(payloads: seq<string>)
    requires |payloads| > 0
    ensures DataLines(payloads) == [PREFIX + payloads[0]] + DataLines(payloads[1..])
  {
  }

  lemma {:induction false} DataLinesDeliver(payloads: seq<string>, parses: string -> bool)
    requires Printable(payloads, parses)
    ensures Events(DataLines(payloads), parses) == payloads
  {
    if |payloads| > 0 {
      var n := |payloads| - 1;
      assert DataLines(payloads)[..n] == DataLines(payloads[..n]);
      DataLinesDeliver(payloads[..n], parses);
      FrameCarriesPayload(payloads[n], parses);
      hide EventOf;
      assert payloads == payloads[..n] + [payloads[n]];
    }
  }

  /** Whatever chunks the printed events arrive in, followed by an unfinished piece
      without a blank line, exactly those events are delivered, in order, and
      exactly the unfinished piece stays in the buffer. */
  lemma {:induction false} DeliversCompleteFrames(payloads: seq<string>, tail: string, chunks: seq<string>, parses: string -> bool)
    requires Printable(payloads, parses) && FirstBreak(tail) == |tail|
    requires Concat(chunks) == PrintAll(payloads) + tail
    ensures Read(chunks, parses) == Reader(payloads, tail)
  {
    ReadIsOneSplit(chunks, parses);
    PrintedFrames(payloads, tail, parses);
    var f := Frames(Concat(chunks));
    assert Frames(tail) == [tail];
    assert f == DataLines(payloads) + [tail];
    assert f[..|f| - 1] == DataLines(payloads);
    DataLinesDeliver(payloads, parses);
  }

  /** Round trip: any chunking of the printed events, even between the two newlines,
      delivers exactly those events in order and leaves the buffer empty. */
  lemma {:induction false} StreamRoundTrip(payloads: seq<string>, chunks: seq<string>, parses: string -> bool)
    requires Printable(payloads, parses) && Concat(chunks) == PrintAll(payloads)
    ensures Read(chunks, parses) == Reader(payloads, "")
  {
    assert PrintAll(payloads) + "" == PrintAll(payloads);
    DeliversCompleteFrames(payloads, "", chunks, parses);
  }

  lemma {:induction false} NoBreakInLine(p: string)
    requires NoNewline(p)
    ensures FirstBreak(p) == |p| && FirstBreak(p + "\n") == |p| + 1
  {
    if |p| > 0 {
      assert (p + "\n")[1..] == p[1..] + "\n";
      NoBreakInLine(p[1..]);
    }
  }

  /** A stream cut off inside a frame delivers every earlier event and nothing of the cut one. */
  lemma {:induction false} CutStreamDeliversPrefix(payloads: seq<string>, next: string, cut: nat, chunks: seq<string>, parses: string -> bool)
    requires Printable(payloads, parses) && NoNewline(next) && cut < |Sse(next)|
    requires Concat(chunks) == PrintAll(payloads) + Sse(next)[..cut]
    ensures Read(chunks, parses) == Reader(payloads, Sse(next)[..cut])
  {
    var line, tail := PREFIX + next, Sse(next)[..cut];
    if cut <= |line| {
      assert tail == line[..cut];
      NoBreakInLine(line[..cut]);
    } else {
      assert tail == line + "\n";
      NoBreakInLine(line);
    }
    DeliversCompleteFrames(payloads, tail, chunks, parses);
  }
}
