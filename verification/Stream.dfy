/** The streaming chat reader (backends.py): lines cut from a byte stream as it arrives, each taken by a
    small acceptance automaton. */
module Stream {
  import opened Basics
  import opened Utf8

  // ---- one event ----

  datatype Content = Nothing | Text(text: string) | NotText

  datatype Choice = Choice(content: Content, finish: Option<string>) | Malformed

  datatype ModelField = Absent | Named(name: string) | NotAName

  /** What the reader looks at in a decoded JSON object. */
  datatype Event = Event(error: Option<string>, model: ModelField, usage: Option<string>, requestId: Option<string>,
                         choices: Option<seq<Choice>>)

  /** The endpoint's expectations, with JSON decoding as a function: `None` is any object it refuses. */
  datatype Reader = Reader(model: string, modelRequired: bool, maxBytes: nat, parse: string -> Option<Event>)

  datatype Failure =
    | BadJson | ContentAfterDone | ProviderError(code: string) | ModelMismatch(observed: string) | MultipleCompletions
    | BadShape | InvalidContent | IncompleteAnswer | IncompleteStream | ByteBound | BadEncoding

  datatype Acc = Acc(text: seq<string>, usage: Option<string>, requestId: Option<string>, finished: bool, done: bool)

  const FRESH := Acc([], None, None, false, false)

  datatype Stage = Go(acc: Acc) | Halt(failure: Failure)

  function Take(s: string, n: nat): string { if |s| <= n then s else s[..n] }

  predicate WrongModel(rd: Reader, e: Event) {
    (e.model.Absent? && rd.modelRequired) || (!e.model.Absent? && e.model != Named(rd.model))
  }

  function TakeChoice(acc: Acc, c: Choice): Stage {
    if c.Malformed? then Halt(BadShape)
    else if c.content.NotText? || (c.content.Text? && c.content.text != "" && acc.finished) then Halt(InvalidContent)
    else
      var next := if c.content.Text? && c.content.text != "" then acc.(text := acc.text + [c.content.text]) else acc;
      if c.finish.None? then Go(next)
      else if c.finish != Some("stop") then Halt(IncompleteAnswer)
      else Go(next.(finished := true))
  }

  function TakeEvent(rd: Reader, acc: Acc, e: Event): Stage {
    var acc1 := if acc.requestId.None? then acc.(requestId := e.requestId) else acc;
    if e.error.Some? then Halt(ProviderError(Take(e.error.value, 128)))
    else if WrongModel(rd, e) then Halt(ModelMismatch(if e.model.Named? then e.model.name else "<missing>"))
    else
      var acc2 := if e.usage.Some? then acc1.(usage := e.usage) else acc1;
      if e.choices.None? then Halt(BadShape)
      else if |e.choices.value| > 1 then Halt(MultipleCompletions)
      else if e.choices.value == [] then Go(acc2)
      else TakeChoice(acc2, e.choices.value[0])
  }

  function TakeValue(rd: Reader, acc: Acc, value: string): Stage {
    if value == "[DONE]" then Go(acc.(done := true))
    else if acc.done then Halt(ContentAfterDone)
    else
      match rd.parse(value)
      case None => Halt(BadJson)
      case Some(e) => TakeEvent(rd, acc, e)
  }

  // ---- lines ----

  predicate IsSpace(c: char) {
    var x := c as int;
    || 0x09 <= x <= 0x0D || 0x1C <= x <= 0x20 || x == 0x85 || x == 0xA0 || x == 0x1680 || 0x2000 <= x <= 0x200A
    || x == 0x2028 || x == 0x2029 || x == 0x202F || x == 0x205F || x == 0x3000
  }

  function LStrip(s: string): string { if s != "" && IsSpace(s[0]) then LStrip(s[1..]) else s }

  function RStrip(s: string): string { if s != "" && IsSpace(s[|s| - 1]) then RStrip(s[..|s| - 1]) else s }

  /** `strip()`. */
  function Strip(s: string): string { RStrip(LStrip(s)) }

  /** `rstrip("\r")`. */
  function DropReturns(s: string): string { if s != "" && s[|s| - 1] == '\r' then DropReturns(s[..|s| - 1]) else s }

  /** What is stripped is white space at both ends, and all of it. */
  ghost predicate Strips(s: string, t: string) {
    && (exists i, j :: 0 <= i <= j <= |s| && t == s[i..j] && (forall k :: 0 <= k < i || j <= k < |s| ==> IsSpace(s[k])))
    && (t != "" ==> !IsSpace(t[0]) && !IsSpace(t[|t| - 1]))
  }

  lemma {:induction false} LStripMeans(s: string)
    ensures var n := |s| - |LStrip(s)|;
            && 0 <= n && LStrip(s) == s[n..] && (forall k :: 0 <= k < n ==> IsSpace(s[k]))
            && (LStrip(s) != "" ==> !IsSpace(LStrip(s)[0]))
  {
    hide IsSpace;
    if s != "" && IsSpace(s[0]) {
      LStripMeans(s[1..]);
      var n := |s| - |LStrip(s)|;
      assert s[1..][n - 1..] == s[n..];
      forall k | 0 <= k < n ensures IsSpace(s[k]) { if k > 0 { assert s[1..][k - 1] == s[k]; } }
    }
  }

  lemma {:induction false} RStripMeans(s: string)
    ensures var n := |RStrip(s)|;
            && n <= |s| && RStrip(s) == s[..n] && (forall k :: n <= k < |s| ==> IsSpace(s[k]))
            && (RStrip(s) != "" ==> !IsSpace(RStrip(s)[n - 1]))
  {
    hide IsSpace;
    if s != "" && IsSpace(s[|s| - 1]) {
      RStripMeans(s[..|s| - 1]);
    }
  }

  lemma StripMeans(s: string)
    ensures Strips(s, Strip(s))
  {
    hide IsSpace, LStrip, RStrip;
    LStripMeans(s);
    RStripMeans(LStrip(s));
    var i := |s| - |LStrip(s)|;
    var j := i + |Strip(s)|;
    assert Strip(s) == s[i..j];
    forall k | j <= k < |s| ensures IsSpace(s[k]) { assert LStrip(s)[k - i] == s[k]; }
    if Strip(s) != "" { assert Strip(s)[0] == LStrip(s)[0]; }
  }

  lemma {:induction false} DropReturnsMeans(s: string)
    ensures var n := |DropReturns(s)|;
            && n <= |s| && DropReturns(s) == s[..n] && (forall k :: n <= k < |s| ==> s[k] == '\r')
            && (DropReturns(s) != "" ==> DropReturns(s)[n - 1] != '\r')
  {
    if s != "" && s[|s| - 1] == '\r' {
      DropReturnsMeans(s[..|s| - 1]);
    }
  }

  /** `parse_line`. */
  function TakeLine(rd: Reader, acc: Acc, line: string): Stage {
    if "data:" <= line then TakeValue(rd, acc, Strip(line[5..])) else Go(acc)
  }

  /** Where the first newline is, or the length. */
  function Newline(s: string): (n: nat)
    ensures n <= |s| && (n < |s| ==> s[n] == '\n') && forall i :: 0 <= i < n ==> s[i] != '\n'
  {
    if s == "" || s[0] == '\n' then 0 else 1 + Newline(s[1..])
  }

  // ---- the whole body at once ----

  /** The lines of a text; what follows the last newline is a line too. */
  function Lines(s: string): seq<string>
    decreases |s|
  {
    var n := Newline(s);
    if n == |s| then [DropReturns(s)] else [DropReturns(s[..n])] + Lines(s[n + 1..])
  }

  /** Lines joined by newlines. */
  function ByNewlines(parts: seq<string>): string {
    if parts == [] then "" else if |parts| == 1 then parts[0] else parts[0] + "\n" + ByNewlines(parts[1..])
  }

  /** The text is its raw lines joined by newlines, none of which holds one, and the lines are those without
      trailing carriage returns. */
  lemma {:induction false} LinesMean(s: string) returns (raw: seq<string>)
    ensures |raw| == |Lines(s)| && raw != [] && ByNewlines(raw) == s
    ensures forall i :: 0 <= i < |raw| ==> '\n' !in raw[i] && Lines(s)[i] == DropReturns(raw[i])
    decreases |s|
  {
    hide DropReturns;
    var n := Newline(s);
    if n == |s| {
      raw := [s];
    } else {
      var rest := LinesMean(s[n + 1..]);
      raw := [s[..n]] + rest;
      assert raw[1..] == rest;
      assert s == s[..n] + "\n" + s[n + 1..];
    }
  }

  function FoldLines(rd: Reader, acc: Acc, lines: seq<string>): Stage
    decreases |lines|
  {
    if lines == [] then Go(acc) else
    match TakeLine(rd, acc, lines[0])
    case Halt(f) => Halt(f)
    case Go(next) => FoldLines(rd, next, lines[1..])
  }

  function Concat(parts: seq<string>): string { if parts == [] then "" else parts[0] + Concat(parts[1..]) }

  datatype Reply = Answer(text: string, usage: Option<string>, requestId: Option<string>) | Failed(failure: Failure)

  function Conclude(s: Stage): Reply {
    match s
    case Halt(f) => Failed(f)
    case Go(acc) =>
      if !acc.done || !acc.finished || acc.text == [] then Failed(IncompleteStream)
      else Answer(Concat(acc.text), acc.usage, acc.requestId)
  }

  /** The reference: split the whole text, fold the lines. */
  function Assemble(rd: Reader, text: string): Reply { Conclude(FoldLines(rd, FRESH, Lines(text))) }

  // ---- the buffered form ----

  datatype Phase = Live(acc: Acc, buffer: string) | Dead(failure: Failure)

  /** Every complete line in the buffer. */
  function Drain(rd: Reader, acc: Acc, buffer: string): Phase
    decreases |buffer|
  {
    var n := Newline(buffer);
    if n == |buffer| then Live(acc, buffer) else
    match TakeLine(rd, acc, DropReturns(buffer[..n]))
    case Halt(f) => Dead(f)
    case Go(next) => Drain(rd, next, buffer[n + 1..])
  }

  function Resume(rd: Reader, p: Phase, more: string): Phase {
    match p
    case Dead(f) => Dead(f)
    case Live(acc, buffer) => Drain(rd, acc, buffer + more)
  }

  lemma NewlineAppend(a: string, b: string)
    ensures Newline(a) < |a| ==> Newline(a + b) == Newline(a)
  {
    var n := Newline(a);
    if n < |a| {
      assert (a + b)[n] == '\n';
      forall i | 0 <= i < n ensures (a + b)[i] != '\n' { assert (a + b)[i] == a[i]; }
    }
  }

  /** What remains after the first line, with more text behind it. */
  lemma LineAppend(a: string, b: string)
    requires Newline(a) < |a|
    ensures var n := Newline(a);
            Newline(a + b) == n && (a + b)[..n] == a[..n] && (a + b)[n + 1..] == a[n + 1..] + b
  {
    NewlineAppend(a, b);
  }

  /** Draining before or after more text arrives comes to the same. */
  lemma {:induction false} DrainAppend(rd: Reader, acc: Acc, a: string, b: string)
    ensures Drain(rd, acc, a + b) == Resume(rd, Drain(rd, acc, a), b)
    decreases |a|
  {
    hide TakeLine, DropReturns, Newline;
    var n := Newline(a);
    if n < |a| {
      LineAppend(a, b);
      var s := TakeLine(rd, acc, DropReturns(a[..n]));
      if s.Go? { DrainAppend(rd, s.acc, a[n + 1..], b); }
    }
  }

  /** What is left in the buffer is parsed unless it is blank. */
  function Close(rd: Reader, p: Phase): Reply {
    match p
    case Dead(f) => Failed(f)
    case Live(acc, buffer) =>
      Conclude(if Strip(buffer) != "" then TakeLine(rd, acc, DropReturns(buffer)) else Go(acc))
  }

  lemma {:induction false} LStripKeeps(s: string)
    requires LStrip(s) == ""
    ensures forall i :: 0 <= i < |s| ==> IsSpace(s[i])
  {
    if s != "" {
      LStripKeeps(s[1..]);
      forall i | 0 <= i < |s| ensures IsSpace(s[i]) { if i > 0 { assert s[i] == s[1..][i - 1]; } }
    }
  }

  lemma {:induction false} RStripKeeps(s: string)
    requires RStrip(s) == ""
    ensures forall i :: 0 <= i < |s| ==> IsSpace(s[i])
  {
    if s != "" { RStripKeeps(s[..|s| - 1]); }
  }

  lemma {:induction false} LStripSuffix(s: string)
    ensures |LStrip(s)| <= |s| && LStrip(s) == s[|s| - |LStrip(s)|..]
    ensures LStrip(s) != "" ==> !IsSpace(LStrip(s)[0])
  {
    if s != "" && IsSpace(s[0]) { LStripSuffix(s[1..]); }
  }

  /** A blank remainder would be no event anyway. */
  lemma BlankIsNoEvent(rd: Reader, acc: Acc, s: string)
    requires Strip(s) == ""
    ensures TakeLine(rd, acc, DropReturns(s)) == Go(acc)
  {
    RStripKeeps(LStrip(s));
    LStripSuffix(s);
    LStripKeeps(s);
    DropReturnsPrefix(s);
    var t := DropReturns(s);
    assert t == "" || IsSpace(t[0]);
    assert "data:"[0] == 'd';
  }

  lemma {:induction false} DropReturnsPrefix(s: string)
    ensures DropReturns(s) <= s
  {
    if s != "" && s[|s| - 1] == '\r' { DropReturnsPrefix(s[..|s| - 1]); }
  }

  /** The buffered form over a whole text is the reference fold. */
  lemma {:induction false} DrainIsFold(rd: Reader, acc: Acc, text: string)
    ensures Close(rd, Drain(rd, acc, text)) == Conclude(FoldLines(rd, acc, Lines(text)))
    decreases |text|
  {
    hide TakeLine, DropReturns, Strip;
    var n := Newline(text);
    if n < |text| {
      var s := TakeLine(rd, acc, DropReturns(text[..n]));
      assert Lines(text)[0] == DropReturns(text[..n]) && Lines(text)[1..] == Lines(text[n + 1..]);
      if s.Go? { DrainIsFold(rd, s.acc, text[n + 1..]); }
    } else {
      if Strip(text) == "" { BlankIsNoEvent(rd, acc, text); }
      var ls := [DropReturns(text)];
      assert ls[1..] == [];
      var s := TakeLine(rd, acc, ls[0]);
      if s.Go? { assert FoldLines(rd, s.acc, ls[1..]) == Go(s.acc); }
    }
  }

  // ---- chunks ----

  function Joined(chunks: seq<seq<Byte>>): seq<Byte> {
    if chunks == [] then [] else chunks[0] + Joined(chunks[1..])
  }

  /** The reader over the chunks still to come: bound the bytes, decode, cut lines, parse. */
  function Read(rd: Reader, size: nat, pending: seq<Byte>, acc: Acc, buffer: string, chunks: seq<seq<Byte>>): Reply
    decreases |chunks|
  {
    if chunks == [] then
      if pending != [] then Failed(BadEncoding) else Close(rd, Live(acc, buffer))
    else if size + |chunks[0]| > rd.maxBytes then Failed(ByteBound)
    else
      match Decode(pending + chunks[0])
      case None => Failed(BadEncoding)
      case Some(d) =>
        match Drain(rd, acc, buffer + d.text) {
          case Dead(f) => Failed(f)
          case Live(next, left) => Read(rd, size + |chunks[0]|, d.rest, next, left, chunks[1..])
        }
  }

  /** What the reader knows after a prefix of the body: the buffered form of its whole characters, and
      the bytes the decoder holds back. */
  ghost predicate Follows(rd: Reader, prefix: seq<Byte>, pending: seq<Byte>, p: Phase) {
    && Decode(prefix).Some? && Decode(prefix).value.rest == pending
    && p == Drain(rd, FRESH, Decode(prefix).value.text)
  }

  /** One more chunk. */
  lemma FollowsNext(rd: Reader, prefix: seq<Byte>, pending: seq<Byte>, p: Phase, chunk: seq<Byte>)
    requires Follows(rd, prefix, pending, p)
    ensures Decode(prefix + chunk).Some? <==> Decode(pending + chunk).Some?
    ensures Decode(pending + chunk).Some? ==>
              var d := Decode(pending + chunk).value;
              Follows(rd, prefix + chunk, d.rest, Resume(rd, p, d.text))
  {
    hide Drain;
    DecodeAppend(prefix, chunk);
    if Decode(pending + chunk).Some? {
      DrainAppend(rd, FRESH, Decode(prefix).value.text, Decode(pending + chunk).value.text);
    }
  }

  /** `_stream_chat`. */
  method StreamChat(rd: Reader, chunks: seq<seq<Byte>>) returns (r: Reply)
    ensures r == Read(rd, 0, [], FRESH, "", chunks)
  {
    hide TakeLine, Drain, Decode;
    var size: nat := 0;
    var acc, buffer, pending := FRESH, "", [];
    for i := 0 to |chunks|
      invariant Read(rd, size, pending, acc, buffer, chunks[i..]) == Read(rd, 0, [], FRESH, "", chunks)
    {
      assert chunks[i..][1..] == chunks[i + 1..];
      size := size + |chunks[i]|;
      if size > rd.maxBytes {
        return Failed(ByteBound);
      }
      var decoded := Decode(pending + chunks[i]);
      if decoded.None? {
        return Failed(BadEncoding);
      }
      pending := decoded.value.rest;
      var p := TakeLines(rd, acc, buffer + decoded.value.text);
      if p.Dead? {
        return Failed(p.failure);
      }
      acc, buffer := p.acc, p.buffer;
    }
    if pending != [] {
      return Failed(BadEncoding);
    }
    var stage := Go(acc);
    if Strip(buffer) != "" {
      stage := TakeLine(rd, acc, DropReturns(buffer));
    }
    r := Conclude(stage);
  }

  /** The inner loop: as long as the buffer holds a newline, split there and parse. */
  method TakeLines(rd: Reader, acc0: Acc, buffer0: string) returns (p: Phase)
    ensures p == Drain(rd, acc0, buffer0)
  {
    hide TakeLine, DropReturns;
    var acc, buffer := acc0, buffer0;
    var n := Newline(buffer);
    while n < |buffer|
      invariant n == Newline(buffer)
      invariant Drain(rd, acc, buffer) == Drain(rd, acc0, buffer0)
      decreases |buffer|
    {
      var line := buffer[..n];
      buffer := buffer[n + 1..];
      var s := TakeLine(rd, acc, DropReturns(line));
      if s.Halt? {
        return Dead(s.failure);
      }
      acc := s.acc;
      n := Newline(buffer);
    }
    p := Live(acc, buffer);
  }

  lemma Begins(rd: Reader)
    ensures Joined([]) == [] && Follows(rd, [], [], Live(FRESH, ""))
  {
  }

  lemma StaysInvalid(prefix: seq<Byte>, body: seq<Byte>)
    requires prefix <= body && Decode(prefix).None?
    ensures !Valid(body)
  {
    DecodeAppend(prefix, body[|prefix|..]);
    assert prefix + body[|prefix|..] == body;
  }

  /** A failure in the middle of the body is the reference's failure. */
  lemma DeadStays(rd: Reader, prefix: seq<Byte>, body: seq<Byte>, pending: seq<Byte>, p: Phase)
    requires prefix <= body && Follows(rd, prefix, pending, p) && p.Dead?
    ensures Valid(body) ==> Assemble(rd, Decode(body).value.text) == Failed(p.failure)
  {
    hide Drain, Lines, FoldLines;
    var rest := body[|prefix|..];
    assert prefix + rest == body;
    DecodeAppend(prefix, rest);
    if Valid(body) {
      var text := Decode(body).value.text;
      DrainAppend(rd, FRESH, Decode(prefix).value.text, Decode(pending + rest).value.text);
      DrainIsFold(rd, FRESH, text);
    }
  }

  lemma {:induction false} ReadFrom(rd: Reader, prefix: seq<Byte>, pending: seq<Byte>, acc: Acc, buffer: string,
                                    chunks: seq<seq<Byte>>)
    requires |prefix| <= rd.maxBytes && Follows(rd, prefix, pending, Live(acc, buffer))
    ensures var body := prefix + Joined(chunks);
            var r := Read(rd, |prefix|, pending, acc, buffer, chunks);
            if |body| <= rd.maxBytes && Valid(body) then r == Assemble(rd, Decode(body).value.text) else r.Failed?
    decreases |chunks|
  {
    hide Drain, Decode, Lines, FoldLines, TakeLine, Close;
    var body := prefix + Joined(chunks);
    if chunks == [] {
      assert body == prefix;
      DrainIsFold(rd, FRESH, Decode(prefix).value.text);
    } else {
      var next := prefix + chunks[0];
      assert body == next + Joined(chunks[1..]);
      FollowsNext(rd, prefix, pending, Live(acc, buffer), chunks[0]);
      if |next| <= rd.maxBytes {
        var decoded := Decode(pending + chunks[0]);
        if decoded.None? {
          StaysInvalid(next, body);
        } else {
          var p := Drain(rd, acc, buffer + decoded.value.text);
          if p.Dead? {
            DeadStays(rd, next, body, decoded.value.rest, p);
          } else {
            ReadFrom(rd, next, decoded.value.rest, p.acc, p.buffer, chunks[1..]);
          }
        }
      }
    }
  }

  /** The reply, answer or failure, is that of the reference on the whole text, however the body was cut
      into chunks; a body over the bound or not UTF-8 is never answered. */
  lemma ChunkingIsIrrelevant(rd: Reader, chunks: seq<seq<Byte>>)
    ensures var body, r := Joined(chunks), Read(rd, 0, [], FRESH, "", chunks);
            if |body| <= rd.maxBytes && Valid(body) then r == Assemble(rd, Decode(body).value.text) else r.Failed?
  {
    Begins(rd);
    ReadFrom(rd, [], [], FRESH, "", chunks);
    assert [] + Joined(chunks) == Joined(chunks);
  }

  /** So two ways of cutting one body cannot be told apart. */
  lemma SameBodySameReply(rd: Reader, a: seq<seq<Byte>>, b: seq<seq<Byte>>)
    requires Joined(a) == Joined(b) && |Joined(a)| <= rd.maxBytes && Valid(Joined(a))
    ensures Read(rd, 0, [], FRESH, "", a) == Read(rd, 0, [], FRESH, "", b)
  {
    ChunkingIsIrrelevant(rd, a);
    ChunkingIsIrrelevant(rd, b);
  }
}
